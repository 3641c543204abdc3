# Tiger compiler back ends in Dafny

This project models the two back ends of the Tiger compiler and proves properties about them.

**The bytecode translator** (`codegen/bytecode/TranslateVisitor.java`) lowers a typed AST into one flat instruction list per method. It is modelled as the class `Translate.TranslateVisitor`, with the Java fields the visitor updates:
- `classId`;
- `index`, the next free local slot;
- `indexTable`, the slot table, which is null before the first method;
- `stms`, the instruction list;
- `nextLabel`, a label counter that stands in for `util.Label`.

Each visit method is proved to append exactly the code that the functions of `TranslateSpec` give for its node, and to advance the counter by exactly the number of labels that node takes. The Java visitor hands results back by leaving them in the fields `type`, `dec`, `method`, `classs`, `mainClass` and `program`; here they are the visit methods' out-parameters. A Java exception (a local or formal with no slot) is modelled as `ok == false`, or as a `None` result.

About the translation as a whole, the model proves:
- **Slots.** Method slots are consecutive from 1, never 0, and injective over distinct names. Every load and store names a slot of the method's frame.
- **Labels.** Every label a node takes is placed exactly once in its code, no other label is placed, and every branch targets one of its labels.
- **Jump counts.** The exact jump counts of `<`, `>`, `!`, `if` and `while`. Not every label is jumped to exactly once: `fl` of `<`, `>` and `if`, and `tl` of `!`, are placed but never jumped to, and `if`'s `el` is jumped to twice (`CompareJumps`, `NotJumps`, `IfJumpCounts`).
- **Boolean tails.** Each tail pushes exactly one boolean on either outcome of its branch.
- **Disjointness.** No two methods of a program place the same label.
- **Results.** Lists of methods and classes come out in order, and fail exactly when a member fails.

**The C pretty-printer** (`cfg/PrettyPrintVisitor.java`) renders the control-flow-graph program as C. It is modelled as the class `PrettyPrint.PrettyPrintVisitor`; its `out` string replaces the file writer. Every visit method is proved to append exactly the text `CText` gives for its node.

That text is then characterised independently:
- **Line lists.** `CLines` proves each text equal to a list of lines written down from the output format, and proves that splitting such a text at newlines gives those lines back.
- **Struct layout.** A class struct has `vptr` before every field, with fields in declared order.
- **Vtables.** The vtable type and its initialiser line up slot by slot.
- **Entry jump.** A method jumps to its entry block before any block.
- **Separators.** Formals and call arguments are `", "`-separated lists that split back into their items.
- **Integers.** An integer's text parses back to the integer.
- **Types and declarations.** Their texts are injective.

## Model

| member | source | states |
|---|---|---|
| Translate.TranslateVisitor.constructor | src/codegen/bytecode/TranslateVisitor.java:30-40 | a new visitor has no slot table, an empty instruction list, and the class id that formatting a null reference gives |
| Translate.TranslateVisitor.NewLabel | src/codegen/bytecode/TranslateVisitor.java:124 | `new Label()` returns the counter's current value and advances it, so it never hands out a label twice |
| Translate.TranslateVisitor.Emit | src/codegen/bytecode/TranslateVisitor.java:53-55 | `emit` appends exactly one instruction and leaves the earlier instructions unchanged |
| Translate.TranslateVisitor.VisitType | src/codegen/bytecode/TranslateVisitor.java:297-316 | boolean and int lower to int, int[] to int[], a class type to the class type of the same name; no state changes |
| TranslateProps.TransformTypeAgrees | src/codegen/bytecode/TranslateVisitor.java:44-51 | `transformType` maps numbers -1 and 0 to int, 1 to int[] and 2 to the same-named class type; it agrees with the type visitors, and the result is a reference exactly when the type number is positive |
| TranslateSpec.LowerTypes | src/codegen/bytecode/TranslateVisitor.java:88-92 | the parameter types of a call, each lowered, in order, one per type |
| TranslateSpec.LowerDecs | src/codegen/bytecode/TranslateVisitor.java:335-344 | declarations lowered one for one, in order, names kept |
| Translate.TranslateVisitor.VisitExp | src/codegen/bytecode/TranslateVisitor.java:59-219 | succeeds exactly when every local it reads has a slot; then it appends exactly the expression's code and takes exactly its labels; `Le`, `Ge` and `Eq` emit nothing |
| Translate.TranslateVisitor.VisitBinary | src/codegen/bytecode/TranslateVisitor.java:59-71 | `+`, `&&`, `-` and `*` append the left operand's code, then the right's, then one operator instruction |
| Translate.TranslateVisitor.VisitArraySelect | src/codegen/bytecode/TranslateVisitor.java:73-80 | appends the array's code, the index's code, then `iaload` |
| Translate.TranslateVisitor.VisitUnary | src/codegen/bytecode/TranslateVisitor.java:116-120 | `length` and `new int[]` append the operand's code and then `arraylength` or `newarray` |
| Translate.TranslateVisitor.VisitCall | src/codegen/bytecode/TranslateVisitor.java:82-94 | appends the receiver's code, each argument's code in order, then exactly one `invokevirtual` whose return and parameter types are lowered in order |
| Translate.TranslateVisitor.VisitTypes | src/codegen/bytecode/TranslateVisitor.java:88-92 | the loop over parameter types yields their lowerings in order |
| Translate.TranslateVisitor.VisitArgs | src/codegen/bytecode/TranslateVisitor.java:85 | arguments are translated left to right; the loop succeeds exactly when every argument resolves |
| Translate.TranslateVisitor.VisitId | src/codegen/bytecode/TranslateVisitor.java:101-114 | a field is read with `this` and `getfield classId/id` without consulting the slot table; a local or formal with a slot is loaded by `aload` when its type number is positive and by `iload` otherwise; without a slot the visit fails |
| Translate.TranslateVisitor.VisitLt | src/codegen/bytecode/TranslateVisitor.java:122-134 | three fresh labels, both operands, then `if_icmplt tl`, `fl:`, false, `goto el`, `tl:`, true, `el:` |
| Translate.TranslateVisitor.VisitGt | src/codegen/bytecode/TranslateVisitor.java:141-153 | the same pattern with `if_icmpgt tl` |
| Translate.TranslateVisitor.NewLabels3 | src/codegen/bytecode/TranslateVisitor.java:124 | the three labels of one pattern are consecutive and pairwise distinct |
| Translate.TranslateVisitor.EmitCompareTail | src/codegen/bytecode/TranslateVisitor.java:127-133 | appends the seven instructions of the comparison pattern |
| Translate.TranslateVisitor.VisitNot | src/codegen/bytecode/TranslateVisitor.java:176-187 | three fresh labels, the operand, then `ifne fl`, `tl:`, true, `goto el`, `fl:`, false, `el:` |
| Translate.TranslateVisitor.EmitNotTail | src/codegen/bytecode/TranslateVisitor.java:180-186 | appends the seven instructions of the negation pattern |
| Translate.TranslateVisitor.VisitStm | src/codegen/bytecode/TranslateVisitor.java:223-295 | succeeds exactly when every local the statement uses has a slot; then it appends exactly the statement's code and takes exactly its labels |
| Translate.TranslateVisitor.VisitStms | src/codegen/bytecode/TranslateVisitor.java:256-259 | a block's statements are translated in order, each after the previous one's code |
| Translate.TranslateVisitor.VisitAssign | src/codegen/bytecode/TranslateVisitor.java:223-239 | a line marker; for a field `this`, the value and `putfield`, with no slot lookup; for a local, the value, then `astore` when its type number is positive and `istore` otherwise, into its slot |
| Translate.TranslateVisitor.VisitAssignArray | src/codegen/bytecode/TranslateVisitor.java:241-254 | a line marker; the array from the field (`getfield` with `[I`) or from its slot (`aload`); then the index, the value and `iastore` |
| Translate.TranslateVisitor.VisitIf | src/codegen/bytecode/TranslateVisitor.java:261-275 | a line marker, the condition, `ifne tl`, `fl:`, the else part, `goto el`, `tl:`, the then part, `goto el`, `el:` |
| Translate.TranslateVisitor.VisitPrint | src/codegen/bytecode/TranslateVisitor.java:277-283 | a line marker, the value, then `print` with the String descriptor for a string literal and `I` otherwise |
| Translate.TranslateVisitor.VisitWhile | src/codegen/bytecode/TranslateVisitor.java:285-295 | a line marker, `wl:`, the condition, `ifeq el`, the body, `goto wl`, `el:` |
| Translate.TranslateVisitor.VisitDec | src/codegen/bytecode/TranslateVisitor.java:318-324 | lowers the declaration; when a slot table exists, the id gets the next slot and `index` grows by one, and otherwise nothing changes |
| Translate.TranslateVisitor.VisitDecs | src/codegen/bytecode/TranslateVisitor.java:335-344 | declarations take consecutive slots from `index` on, in order |
| Translate.TranslateVisitor.VisitMethod | src/codegen/bytecode/TranslateVisitor.java:328-359 | the slot table is rebuilt from 1 for the formals and then the locals; the result is the method's translation, recording `index` = 1 + #formals + #locals |
| Translate.TranslateVisitor.VisitBody | src/codegen/bytecode/TranslateVisitor.java:346-355 | starts from an empty instruction list: the statements, the return expression, then `areturn` when the return type number is positive and `ireturn` otherwise |
| Translate.TranslateVisitor.VisitMethods | src/codegen/bytecode/TranslateVisitor.java:370-374 | the methods of a class are translated in order, sharing the label counter |
| Translate.TranslateVisitor.VisitClass | src/codegen/bytecode/TranslateVisitor.java:362-376 | records the class id, lowers the fields, translates the methods; the name and the superclass are kept |
| Translate.TranslateVisitor.VisitMainClass | src/codegen/bytecode/TranslateVisitor.java:379-384 | the main statement is translated onto the current list, which becomes the main class's code; a fresh empty list replaces it |
| Translate.TranslateVisitor.VisitClasses | src/codegen/bytecode/TranslateVisitor.java:392-396 | the classes are translated in order, sharing the label counter; on success the counter has advanced by the labels of all their methods |
| Translate.TranslateVisitor.VisitProgram | src/codegen/bytecode/TranslateVisitor.java:387-398 | the main class first, then every class; on success the counter has advanced by the main statement's labels and then all the classes' labels |
| Translate.TranslateProgram | src/codegen/bytecode/TranslateVisitor.java:30-40 | a new visitor run over a program yields the program's translation from an empty state |
| TranslateSlots.SlotsKeys | src/codegen/bytecode/TranslateVisitor.java:331-344 | a method's slot table holds exactly its formals and locals |
| TranslateSlots.SlotsRange | src/codegen/bytecode/TranslateVisitor.java:323 | every slot lies in 1..#formals+#locals; slot 0, the receiver's, is never given out |
| TranslateSlots.SlotsLast | src/codegen/bytecode/TranslateVisitor.java:323 | the k-th declaration gets slot k+1 unless a later one reuses its name |
| TranslateSlots.SlotsInjective | src/codegen/bytecode/TranslateVisitor.java:323 | with distinct names, different variables get different slots |
| TranslateSlots.BindRange | src/codegen/bytecode/TranslateVisitor.java:323 | `put` gives out only slots from the current index on, and keeps the others |
| TranslateSlots.ExpSlotsBelow | src/codegen/bytecode/TranslateVisitor.java:101-114 | every load in a resolving expression's code names a slot the table gave out |
| TranslateSlots.StmSlotsBelow | src/codegen/bytecode/TranslateVisitor.java:223-254 | every load and store in a resolving statement's code names a slot the table gave out |
| TranslateSlots.MethodSlotsBelow | src/codegen/bytecode/TranslateVisitor.java:357-358 | every load and store of a method names a slot below the `index` it records |
| TranslateLabels.ExpLabelsOk | src/codegen/bytecode/TranslateVisitor.java:122-187 | an expression's code places each label it took exactly once and no other label, and branches only to them |
| TranslateLabels.CompareLabelsOk | src/codegen/bytecode/TranslateVisitor.java:122-153 | the same for `<` and `>`: the pattern's three labels, then the operands' labels |
| TranslateLabels.NotLabelsOk | src/codegen/bytecode/TranslateVisitor.java:176-187 | the same for `!` |
| TranslateLabels.ArgsLabelsOk | src/codegen/bytecode/TranslateVisitor.java:85 | the same for a call's arguments |
| TranslateLabels.StmLabelsOk | src/codegen/bytecode/TranslateVisitor.java:223-295 | the same for a statement |
| TranslateLabels.StmsLabelsOk | src/codegen/bytecode/TranslateVisitor.java:256-259 | the same for a statement list |
| TranslateLabels.IfLabelsOk | src/codegen/bytecode/TranslateVisitor.java:261-275 | the same for `if` |
| TranslateLabels.WhileLabelsOk | src/codegen/bytecode/TranslateVisitor.java:285-295 | the same for `while` |
| TranslateLabels.MethodLabelsOk | src/codegen/bytecode/TranslateVisitor.java:328-359 | the same for a whole method body |
| TranslateLabels.CompareJumps | src/codegen/bytecode/TranslateVisitor.java:122-153 | in `<` and `>`, `tl` and `el` are each jumped to once and `fl` never; each is placed once |
| TranslateLabels.NotJumps | src/codegen/bytecode/TranslateVisitor.java:176-187 | in `!`, `fl` and `el` are each jumped to once and `tl` never; each is placed once |
| TranslateLabels.IfJumpCounts | src/codegen/bytecode/TranslateVisitor.java:261-275 | in `if`, `tl` is jumped to once, `fl` never and `el` twice; each is placed once |
| TranslateLabels.WhileJumpCounts | src/codegen/bytecode/TranslateVisitor.java:285-295 | in `while`, `wl` is jumped to only by the closing `goto` and `el` only by the `ifeq`; each is placed once |
| TranslatePaths.CompareTailRuns | src/codegen/bytecode/TranslateVisitor.java:127-133 | run from the branch, the comparison tail pushes exactly true when the branch is taken and exactly false otherwise, then leaves at `el` |
| TranslatePaths.NotTailRuns | src/codegen/bytecode/TranslateVisitor.java:180-186 | run from `ifne`, the negation tail pushes exactly false for a non-zero operand and exactly true for zero, then leaves at `el` |
| TranslateProps.AllSomeIff | src/codegen/bytecode/TranslateVisitor.java:370-374 | a list of results succeeds exactly when every element does, and then holds every element's value in order |
| TranslateProps.MethodsSpecIff | src/codegen/bytecode/TranslateVisitor.java:370-374 | the methods of a class translate exactly when all of them resolve, one result per method, in order |
| TranslateProps.MethodsSpecAt | src/codegen/bytecode/TranslateVisitor.java:370-374 | the i-th result is the i-th method, translated from where the earlier methods leave the counter |
| TranslateProps.ClassSpecIff | src/codegen/bytecode/TranslateVisitor.java:362-376 | a class translates exactly when all its methods resolve, and keeps its name, superclass and method count |
| TranslateProps.ClassResultFacts | src/codegen/bytecode/TranslateVisitor.java:392-396 | the i-th class result succeeds exactly when its methods resolve, and then keeps the class's name, superclass and method count |
| TranslateProps.ClassesSpecIff | src/codegen/bytecode/TranslateVisitor.java:392-396 | the classes translate exactly when every method of every class resolves, one result per class, in order |
| TranslateProps.ClassesSpecAt | src/codegen/bytecode/TranslateVisitor.java:392-396 | the i-th result is the i-th class, translated from where the earlier classes leave the counter |
| TranslateProps.MethodsLabelsMono | src/codegen/bytecode/TranslateVisitor.java:370-374 | a longer prefix of a class's methods takes at least as many labels |
| TranslateProps.MethodsOrdered | src/codegen/bytecode/TranslateVisitor.java:370-374 | an earlier method's labels end before a later method's begin |
| TranslateProps.MethodsSeparate | src/codegen/bytecode/TranslateVisitor.java:328-359 | two methods translated over successive label ranges place no label in common |
| TranslateProps.MethodLabelsDisjoint | src/codegen/bytecode/TranslateVisitor.java:370-374 | no label is placed in two different methods of a class |
| TranslateProps.MethodLabelsWithin | src/codegen/bytecode/TranslateVisitor.java:370-374 | the labels of the k-th method lie within the class's |
| TranslateProps.ClassesLabelsMono | src/codegen/bytecode/TranslateVisitor.java:392-396 | a longer prefix of the classes takes at least as many labels |
| TranslateProps.ClassLabelsDisjoint | src/codegen/bytecode/TranslateVisitor.java:392-396 | no label is placed in methods of two different classes |
| TranslateProps.MethodJumpsLand | src/codegen/bytecode/TranslateVisitor.java:328-359 | every branch of a translated method lands on a label the method places exactly once |
| TranslateProps.MainLabelsFirst | src/codegen/bytecode/TranslateVisitor.java:388-396 | the main class takes its labels before every class, so it shares none with any method |
| TranslateProps.ProgramSpecIff | src/codegen/bytecode/TranslateVisitor.java:387-398 | a program translates exactly when the main statement resolves and every method of every class resolves |
| PrettyPrint.PrettyPrintVisitor.Say | src/cfg/PrettyPrintVisitor.java:45-52 | `say` appends its argument and nothing else |
| PrettyPrint.PrettyPrintVisitor.Sayln | src/cfg/PrettyPrintVisitor.java:30-38 | `sayln` appends its argument and a newline |
| PrettyPrint.PrettyPrintVisitor.PrintSpaces | src/cfg/PrettyPrintVisitor.java:26-28 | appends two spaces |
| PrettyPrint.PrettyPrintVisitor.ISayln | src/cfg/PrettyPrintVisitor.java:40-43 | appends two spaces, the argument and a newline |
| PrettyPrint.PrettyPrintVisitor.VisitOperand | src/cfg/PrettyPrintVisitor.java:56-64 | an integer operand as `Integer.toString` writes it, a variable by its name |
| PrettyPrint.PrettyPrintVisitor.VisitBinary | src/cfg/PrettyPrintVisitor.java:67-75 | `  dst = left op right;` |
| PrettyPrint.PrettyPrintVisitor.VisitInvokeVirtual | src/cfg/PrettyPrintVisitor.java:110-120 | `  dst = obj->vptr->f(obj, a1, ..., an);` with the receiver passed first |
| PrettyPrint.PrettyPrintVisitor.VisitStm | src/cfg/PrettyPrintVisitor.java:67-193 | appends exactly the statement's text; `AssignArray` writes to `dst[3 + index]`, and `ArraySelect` reads `array[index]` with no offset |
| PrettyPrint.PrettyPrintVisitor.VisitTransfer | src/cfg/PrettyPrintVisitor.java:196-222 | `if` prints both jumps, `goto` one jump, `return` the returned operand |
| PrettyPrint.PrettyPrintVisitor.VisitType | src/cfg/PrettyPrintVisitor.java:225-238 | `struct id *`, `int` or `int *` |
| PrettyPrint.PrettyPrintVisitor.VisitDec | src/cfg/PrettyPrintVisitor.java:241-245 | the type's text, a space, the name |
| PrettyPrint.PrettyPrintVisitor.VisitBlock | src/cfg/PrettyPrintVisitor.java:248-256 | the label line, each statement followed by a newline, then the transfer |
| PrettyPrint.PrettyPrintVisitor.VisitBlocks | src/cfg/PrettyPrintVisitor.java:285-288 | blocks in list order |
| PrettyPrint.PrettyPrintVisitor.VisitFormals | src/cfg/PrettyPrintVisitor.java:263-271 | the `size` countdown puts `, ` between formals and none after the last |
| PrettyPrint.PrettyPrintVisitor.VisitLocals | src/cfg/PrettyPrintVisitor.java:275-280 | one `  type id;` line per local, in order |
| PrettyPrint.PrettyPrintVisitor.VisitMethod | src/cfg/PrettyPrintVisitor.java:259-290 | appends exactly the method's text: header, locals, entry jump, blocks, closing brace |
| PrettyPrint.PrettyPrintVisitor.VisitMainMethod | src/cfg/PrettyPrintVisitor.java:292-309 | `int Tiger_main ()` with the locals and blocks, and no entry jump |
| PrettyPrint.PrettyPrintVisitor.VisitVtable | src/cfg/PrettyPrintVisitor.java:312-322 | the vtable struct with one `ret (*id)();` member per slot |
| PrettyPrint.PrettyPrintVisitor.OutputVtable | src/cfg/PrettyPrintVisitor.java:324-332 | the initialiser `C_vtable_` with one `classs_id,` line per slot |
| PrettyPrint.PrettyPrintVisitor.VisitClass | src/cfg/PrettyPrintVisitor.java:335-347 | the object struct with `vptr` first, then the fields |
| PrettyPrint.PrettyPrintVisitor.VisitClasses | src/cfg/PrettyPrintVisitor.java:374-376 | class structs in list order |
| PrettyPrint.PrettyPrintVisitor.VisitVtables | src/cfg/PrettyPrintVisitor.java:379-381 | vtable structs in list order |
| PrettyPrint.PrettyPrintVisitor.VisitMethods | src/cfg/PrettyPrintVisitor.java:385-387 | methods in list order |
| PrettyPrint.PrettyPrintVisitor.OutputVtables | src/cfg/PrettyPrintVisitor.java:391-393 | vtable initialisers in list order |
| PrettyPrint.PrettyPrintVisitor.VisitProgram | src/cfg/PrettyPrintVisitor.java:369-400 | banner, structs, vtable types, methods, vtable instances, main method, in this order |
| CTextLemmas.NatTextDigits | src/cfg/PrettyPrintVisitor.java:57-59 | the decimal text of a natural number is non-empty, all digits, and parses back to the number |
| CTextLemmas.IntTextRoundTrip | src/cfg/PrettyPrintVisitor.java:57-59 | an integer's text is non-empty, digits after an optional leading minus, and parses back to the integer |
| CTextLemmas.IntTextInjective | src/cfg/PrettyPrintVisitor.java:57-59 | different integers print differently |
| CTextLemmas.SplitJoin | src/cfg/PrettyPrintVisitor.java:263-271 | splitting a `, `-joined list of comma-free items gives the items back |
| CTextLemmas.FormalsJoin | src/cfg/PrettyPrintVisitor.java:263-271 | the formals part of a header is the `, `-join of the declarations' texts |
| CTextLemmas.FormalsSplit | src/cfg/PrettyPrintVisitor.java:263-271 | the formals text splits back into one declaration text per formal, in order |
| CTextLemmas.CallArgsJoin | src/cfg/PrettyPrintVisitor.java:114-118 | the argument list of a call is the `, `-join of the receiver and the arguments, in order |
| CTextLemmas.TypeTextInjective | src/cfg/PrettyPrintVisitor.java:225-238 | different types print differently |
| CTextLemmas.DecTextInjective | src/cfg/PrettyPrintVisitor.java:241-245 | declarations with space-free names print differently unless they are equal |
| CLines.SplitLinesLines | src/cfg/PrettyPrintVisitor.java:30-38 | text written as newline-free lines splits back into exactly those lines |
| CLines.FieldsLines | src/cfg/PrettyPrintVisitor.java:340-345 | the fields are one `  type id;` line each, in declared order |
| CLines.ClassLayout | src/cfg/PrettyPrintVisitor.java:335-347 | a class struct is the header line, `{`, the `vptr` line, the field lines and `};` |
| CLines.ClassLinesAt | src/cfg/PrettyPrintVisitor.java:335-347 | read line by line, the `vptr` member is line 2, before every field, and field i is line 3 + i |
| CLines.SlotsLines | src/cfg/PrettyPrintVisitor.java:316-320 | one `ret (*id)();` line per slot, in order |
| CLines.EntriesLines | src/cfg/PrettyPrintVisitor.java:327-330 | one `classs_id,` line per slot, in order |
| CLines.VtableLayout | src/cfg/PrettyPrintVisitor.java:312-332 | the vtable type and its initialiser are each a header, `{`, one line per slot, `};` and an empty line |
| CLines.VtableAligned | src/cfg/PrettyPrintVisitor.java:312-332 | the vtable type and its initialiser have equally many lines, and line 2 + i of each describes slot i |
| CLines.StmLayout | src/cfg/PrettyPrintVisitor.java:67-193 | a statement and its newline form one line, or two for `Print` and `NewIntArray`, which end with `sayln` |
| CLines.TransferLayout | src/cfg/PrettyPrintVisitor.java:196-222 | `if` is four lines (test, then-jump, else, else-jump); `goto` and `return` are one line each |
| CLines.StmsLayout | src/cfg/PrettyPrintVisitor.java:251-254 | a block's statements are their lines, in order |
| CLines.BlockLayout | src/cfg/PrettyPrintVisitor.java:248-256 | a block is its label line, its statements' lines and its transfer's lines |
| CLines.BlocksLayout | src/cfg/PrettyPrintVisitor.java:285-288 | blocks are their lines, in order |
| CLines.LocalsLayout | src/cfg/PrettyPrintVisitor.java:275-280 | one `  type id;` line per local, in order |
| CLines.MainLocalsLayout | src/cfg/PrettyPrintVisitor.java:296-302 | the main method's locals are the same lines |
| CLines.MainLocalsSame | src/cfg/PrettyPrintVisitor.java:275-280 | main and ordinary methods declare locals with identical text, although they write it in different pieces |
| CLines.MethodLayout | src/cfg/PrettyPrintVisitor.java:259-290 | header, `{`, the locals, an empty line, `  goto entry;` and an empty line, all before the first block, then `}` |
| CLines.MethodsLayout | src/cfg/PrettyPrintVisitor.java:385-387 | methods are their lines, in order |
| CLines.MainLayout | src/cfg/PrettyPrintVisitor.java:292-309 | `int Tiger_main ()`, `{`, the locals, an empty line, the blocks, `}` and an empty line |
| CLines.ClassesLayout | src/cfg/PrettyPrintVisitor.java:374-376 | class structs are their lines, in order |
| CLines.VtablesLayout | src/cfg/PrettyPrintVisitor.java:379-393 | vtable types and vtable initialisers are their lines, in order |
| CLines.BannerLayout | src/cfg/PrettyPrintVisitor.java:369-373 | the four banner `sayln`s are six lines |
| CLines.ProgramLayout | src/cfg/PrettyPrintVisitor.java:369-400 | the program text is the banner, the struct lines, the vtable-type lines, the method lines, the initialiser lines and the main method's lines, with their section comments, in this order |

## Left out

- Opening, naming and closing the output file, and the `System.exit(1)` paths of `say` and `sayln`, are left out. Output goes to the in-memory string `out`, where writing cannot fail.
- `util.Label` is process-wide static state. Here it is the field `nextLabel`, started at `firstLabel`. Labels are integers, and the CFG's labels appear only as their text.
- `Type.desc()` is not modelled. Its text is not part of this model, so a field descriptor carries the lowered type it describes, or the literal `[I`.
- `Debug.Line`'s line numbers are an integer field of the statement, because `pos.lineRow()` is not part of this model. `getNum()` is a fixed numbering: boolean -1, int 0, int[] 1, class 2. Only its cases in `transformType` and the test `> 0` matter.
- `Le`, `Ge` and `Eq` are placeholders in the source and emit nothing. They are modelled as such.
- The unreachable `default` of `transformType` is not modelled: the match is exhaustive.
- A missing slot makes the Java lookup throw. Here it is a failed translation (`ok == false`, or `None`). What was appended before the failure is left unspecified.
- The stale slot table that class fields write into is modelled as the code does it, and nothing is proved about it.
- `Integer.toString` is modelled on unbounded integers. The model does not bound operands to 32 bits.
- The length operand of `NewIntArray` is printed by Java string concatenation of an object whose `toString` is not part of this model, so it is carried as text.
- The CFG node classes and the runtime meaning of the emitted C and bytecode are not modelled.
- TranslatePaths.CompareTailRuns: states the one-boolean property for each pattern's seven-instruction tail only, not for a run through the operands' code, because bytecode execution is not modelled.
- CLines.ClassLinesAt, CLines.VtableAligned, CLines.SplitLinesLines: these need names and types free of newlines, since a newline inside a name would split a line.
- CTextLemmas.DecTextInjective: needs names free of spaces. `FormalsSplit` and `SplitJoin` need comma-free items.
