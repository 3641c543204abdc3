/** The AST-to-bytecode translator (codegen/bytecode/TranslateVisitor.java).
    One visitor object walks the tree and appends instructions to `stms`;
    it hands out local slots from `index` and records them in `indexTable`,
    and it takes branch labels from a counter that stands in for util.Label.
    Each visit method is proved to append exactly what the functions of
    TranslateSpec describe. */
module Translate {
  import opened Wrappers
  import Ast
  import opened Bytecode
  import opened TranslateSpec
  import TranslateLemmas

  class TranslateVisitor {
    var classId: string
    var index: int
    var indexTable: Table
    var stms: seq<Instr>
    /** The next label `new Label()` hands out. */
    var nextLabel: Label

    constructor (firstLabel: Label)
      ensures classId == NULL_CLASS_ID && index == 0 && indexTable == None
      ensures stms == [] && nextLabel == firstLabel
    {
      classId := NULL_CLASS_ID;
      index := 0;
      indexTable := None;
      stms := [];
      nextLabel := firstLabel;
    }

    /** `new Label()`: a label no earlier call has handed out. */
    method NewLabel() returns (l: Label)
      modifies this`nextLabel
      ensures l == old(nextLabel) && nextLabel == l + 1
    {
      l := nextLabel;
      nextLabel := nextLabel + 1;
    }

    method Emit(s: Instr)
      modifies this`stms
      ensures stms == old(stms) + [s]
    {
      stms := stms + [s];
    }

    /** Two `emit`s in a row. */
    method EmitPair(a: Instr, b: Instr)
      modifies this`stms
      ensures stms == old(stms) + [a, b]
    {
      Emit(a);
      Emit(b);
    }

    /** visit(Type.Boolean / ClassType / Int / IntArray). */
    method VisitType(t: Ast.Type) returns (r: Type)
      ensures r == LowerType(t)
    {
      match t
      case Boolean => r := Int;
      case ClassType(id) => r := ClassType(id);
      case Int => r := Int;
      case IntArray => r := IntArray;
    }

    /** Translates an expression (its `accept`). `ok` is false exactly when
        the Java code throws because a local or formal has no slot; what has
        been appended by then is left in place. */
    method VisitExp(e: Ast.Exp) returns (ok: bool)
      modifies this`stms, this`nextLabel
      ensures ok == Resolves(e, indexTable)
      ensures ok ==> stms == old(stms) + ExpCode(e, classId, indexTable, old(nextLabel))
      ensures ok ==> nextLabel == old(nextLabel) + ExpLabels(e)
      decreases e, 2
    {
      match e
      case Add(_, _) => ok := VisitBinary(e, IAdd);
      case And(_, _) => ok := VisitBinary(e, IAnd);
      case ArraySelect(_, _) => ok := VisitArraySelect(e);
      case Call(_, _, _, _, _, _) => ok := VisitCall(e);
      case False =>
        Emit(False);
        ok := true;
      case Id(_, _, _) => ok := VisitId(e);
      case Length(_) => ok := VisitUnary(e, ArrayLength);
      case Lt(_, _) => ok := VisitLt(e);
      case Le(_, _) => ok := true;
      case Gt(_, _) => ok := VisitGt(e);
      case Ge(_, _) => ok := true;
      case Eq(_, _) => ok := true;
      case NewIntArray(_) => ok := VisitUnary(e, NewArray);
      case NewObject(c) =>
        Emit(New(c));
        ok := true;
      case Not(_) => ok := VisitNot(e);
      case Num(n) =>
        Emit(LdcInt(n));
        ok := true;
      case StringLiteral(s) =>
        Emit(LdcString(s));
        ok := true;
      case Sub(_, _) => ok := VisitBinary(e, Isub);
      case This =>
        Emit(This);
        ok := true;
      case Times(_, _) => ok := VisitBinary(e, Imul);
      case True =>
        Emit(True);
        ok := true;
    }

    /** visit(Add), visit(And), visit(Sub) and visit(Times): both operands,
        left first, then the operator's instruction `op`. */
    method VisitBinary(e: Ast.Exp, op: Instr) returns (ok: bool)
      requires (e.Add? && op == IAdd) || (e.And? && op == IAnd) || (e.Sub? && op == Isub) || (e.Times? && op == Imul)
      modifies this`stms, this`nextLabel
      ensures ok == Resolves(e, indexTable)
      ensures ok ==> stms == old(stms) + ExpCode(e, classId, indexTable, old(nextLabel))
      ensures ok ==> nextLabel == old(nextLabel) + ExpLabels(e)
      decreases e, 1
    {
      ghost var cid, t, lab0, s0 := classId, indexTable, nextLabel, stms;
      TranslateLemmas.BinaryAppend(s0, e, op, cid, t, lab0);
      ok := VisitExp(e.left);
      if !ok { return; }
      ok := VisitExp(e.right);
      if !ok { return; }
      Emit(op);
    }

    /** visit(ArraySelect): the array, the index, then `iaload`. */
    method VisitArraySelect(e: Ast.Exp) returns (ok: bool)
      requires e.ArraySelect?
      modifies this`stms, this`nextLabel
      ensures ok == Resolves(e, indexTable)
      ensures ok ==> stms == old(stms) + ExpCode(e, classId, indexTable, old(nextLabel))
      ensures ok ==> nextLabel == old(nextLabel) + ExpLabels(e)
      decreases e, 1
    {
      ghost var cid, t, lab0, s0 := classId, indexTable, nextLabel, stms;
      TranslateLemmas.ArraySelectAppend(s0, e, cid, t, lab0);
      ok := VisitExp(e.arr);
      if !ok { return; }
      ok := VisitExp(e.index);
      if !ok { return; }
      Emit(Iaload);
    }

    /** visit(Length) and visit(NewIntArray): the operand, then `op`. */
    method VisitUnary(e: Ast.Exp, op: Instr) returns (ok: bool)
      requires (e.Length? && op == ArrayLength) || (e.NewIntArray? && op == NewArray)
      modifies this`stms, this`nextLabel
      ensures ok == Resolves(e, indexTable)
      ensures ok ==> stms == old(stms) + ExpCode(e, classId, indexTable, old(nextLabel))
      ensures ok ==> nextLabel == old(nextLabel) + ExpLabels(e)
      decreases e, 1
    {
      ghost var cid, t, lab0, s0 := classId, indexTable, nextLabel, stms;
      TranslateLemmas.UnaryAppend(s0, e, op, cid, t, lab0);
      ok := VisitExp(if e.Length? then e.arr else e.exp);
      if !ok { return; }
      Emit(op);
    }

    /** visit(Call): the receiver, each argument in order, then a single
        `invokevirtual` whose signature lowers the declared return type and
        each declared parameter type, in order. */
    method VisitCall(e: Ast.Exp) returns (ok: bool)
      requires e.Call?
      modifies this`stms, this`nextLabel
      ensures ok == Resolves(e, indexTable)
      ensures ok ==> stms == old(stms) + ExpCode(e, classId, indexTable, old(nextLabel))
      ensures ok ==> nextLabel == old(nextLabel) + ExpLabels(e)
      decreases e, 1
    {
      ghost var cid, t, lab0, s0 := classId, indexTable, nextLabel, stms;
      TranslateLemmas.CallAppend(s0, e, cid, t, lab0);
      ok := VisitExp(e.exp);
      if !ok { return; }
      ok := VisitArgs(e.args);
      if !ok { return; }
      var rt := VisitType(e.rt);
      var at := VisitTypes(e.at);
      Emit(Invokevirtual(e.id, e.cls, at, rt));
    }

    /** The parameter-type loop of visit(Call): each type lowered, in
        order. */
    method VisitTypes(ts: seq<Ast.Type>) returns (r: seq<Type>)
      ensures r == LowerTypes(ts)
    {
      r := [];
      var k := 0;
      while k < |ts|
        invariant 0 <= k <= |ts|
        invariant r == LowerTypes(ts[..k])
      {
        assert ts[..k + 1][..k] == ts[..k];
        var ty := VisitType(ts[k]);
        r := r + [ty];
        k := k + 1;
      }
      assert ts[..k] == ts;
    }

    /** The arguments loop of visit(Call): each argument, left to right. */
    method VisitArgs(args: seq<Ast.Exp>) returns (ok: bool)
      modifies this`stms, this`nextLabel
      ensures ok == ArgsResolve(args, indexTable)
      ensures ok ==> stms == old(stms) + ArgsCode(args, classId, indexTable, old(nextLabel))
      ensures ok ==> nextLabel == old(nextLabel) + ArgsLabels(args)
      decreases args, 0
    {
      ghost var cid, t, lab0, s0 := classId, indexTable, nextLabel, stms;
      var i := 0;
      while i < |args|
        invariant 0 <= i <= |args|
        invariant forall j :: 0 <= j < i ==> Resolves(args[j], t)
        invariant stms == s0 + ArgsCode(args[..i], cid, t, lab0)
        invariant nextLabel == lab0 + ArgsLabels(args[..i])
      {
        ok := VisitExp(args[i]);
        if !ok {
          assert !Resolves(args[i], t);
          return;
        }
        TranslateLemmas.ArgsAppend(s0, args, i, cid, t, lab0);
        i := i + 1;
      }
      assert args[..i] == args;
      ok := true;
    }

    /** visit(Id): a field is read through `this` and `getfield`, without
        looking at the slot table; a local or formal is loaded from its slot,
        with `aload` for a reference type and `iload` otherwise. */
    method VisitId(e: Ast.Exp) returns (ok: bool)
      requires e.Id?
      modifies this`stms
      ensures ok == Resolves(e, indexTable)
      ensures ok ==> stms == old(stms) + ExpCode(e, classId, indexTable, nextLabel)
    {
      if e.isField {
        EmitPair(This, GetField(FieldSpec(classId, e.id), DescOf(TransformType(e.ty))));
      } else {
        if !(indexTable.Some? && e.id in indexTable.value) {
          ok := false;
          return;
        }
        var slot := indexTable.value[e.id];
        if Ast.TypeNum(e.ty) > 0 {
          Emit(Aload(slot));
        } else {
          Emit(Iload(slot));
        }
      }
      ok := true;
    }

    /** visit(Lt): three fresh labels `tl`, `fl`, `el`, both operands,
        then the compare-and-branch tail with `if_icmplt tl`. */
    method VisitLt(e: Ast.Exp) returns (ok: bool)
      requires e.Lt?
      modifies this`stms, this`nextLabel
      ensures ok == Resolves(e, indexTable)
      ensures ok ==> stms == old(stms) + ExpCode(e, classId, indexTable, old(nextLabel))
      ensures ok ==> nextLabel == old(nextLabel) + ExpLabels(e)
      decreases e, 1
    {
      ghost var cid, t, s0 := classId, indexTable, stms;
      var tl, fl, el := NewLabels3();
      TranslateLemmas.CompareAppend(s0, e, Ificmplt(tl), cid, t, tl);
      ok := VisitExp(e.left);
      if !ok { return; }
      ghost var s1 := stms;
      assert s1 == s0 + ExpCode(e.left, cid, t, tl + 3);
      ok := VisitExp(e.right);
      if !ok { return; }
      assert stms == s1 + ExpCode(e.right, cid, t, tl + 3 + ExpLabels(e.left));
      EmitCompareTail(Ificmplt(tl), tl, fl, el);
    }

    /** visit(Gt): three fresh labels `tl`, `fl`, `el`, both operands,
        then the compare-and-branch tail with `if_icmpgt tl`. */
    method VisitGt(e: Ast.Exp) returns (ok: bool)
      requires e.Gt?
      modifies this`stms, this`nextLabel
      ensures ok == Resolves(e, indexTable)
      ensures ok ==> stms == old(stms) + ExpCode(e, classId, indexTable, old(nextLabel))
      ensures ok ==> nextLabel == old(nextLabel) + ExpLabels(e)
      decreases e, 1
    {
      ghost var cid, t, s0 := classId, indexTable, stms;
      var tl, fl, el := NewLabels3();
      TranslateLemmas.CompareAppend(s0, e, Ificmpgt(tl), cid, t, tl);
      ok := VisitExp(e.left);
      if !ok { return; }
      ghost var s1 := stms;
      assert s1 == s0 + ExpCode(e.left, cid, t, tl + 3);
      ok := VisitExp(e.right);
      if !ok { return; }
      assert stms == s1 + ExpCode(e.right, cid, t, tl + 3 + ExpLabels(e.left));
      EmitCompareTail(Ificmpgt(tl), tl, fl, el);
    }

    /** Three fresh labels in a row. */
    method NewLabels3() returns (tl: Label, fl: Label, el: Label)
      modifies this`nextLabel
      ensures tl == old(nextLabel) && fl == tl + 1 && el == tl + 2
      ensures nextLabel == tl + 3
    {
      tl := NewLabel();
      fl := NewLabel();
      el := NewLabel();
    }

    /** The seven instructions `visit(Lt)` and `visit(Gt)` emit after their
        operands. */
    method EmitCompareTail(branch: Instr, tl: Label, fl: Label, el: Label)
      modifies this`stms
      ensures stms == old(stms) + CompareTail(branch, tl, fl, el)
    {
      Emit(branch);
      Emit(LabelJ(fl));
      Emit(False);
      Emit(Goto(el));
      Emit(LabelJ(tl));
      Emit(True);
      Emit(LabelJ(el));
    }

    /** visit(Not): three fresh labels, the operand, then the negation
        pattern. */
    method VisitNot(e: Ast.Exp) returns (ok: bool)
      requires e.Not?
      modifies this`stms, this`nextLabel
      ensures ok == Resolves(e, indexTable)
      ensures ok ==> stms == old(stms) + ExpCode(e, classId, indexTable, old(nextLabel))
      ensures ok ==> nextLabel == old(nextLabel) + ExpLabels(e)
      decreases e, 1
    {
      ghost var cid, t, s0 := classId, indexTable, stms;
      var tl, fl, el := NewLabels3();
      TranslateLemmas.NotAppend(s0, e, cid, t, tl);
      ok := VisitExp(e.exp);
      if !ok { return; }
      EmitNotTail(tl, fl, el);
    }

    /** The seven instructions `visit(Not)` emits after its operand. */
    method EmitNotTail(tl: Label, fl: Label, el: Label)
      modifies this`stms
      ensures stms == old(stms) + NotTail(tl, fl, el)
    {
      Emit(Ifne(fl));
      Emit(LabelJ(tl));
      Emit(True);
      Emit(Goto(el));
      Emit(LabelJ(fl));
      Emit(False);
      Emit(LabelJ(el));
    }

    // ///////////////////////////////////////////////////
    // statements

    /** Translates a statement (its `accept`); `ok` as for VisitExp. */
    method VisitStm(s: Ast.Stm) returns (ok: bool)
      modifies this`stms, this`nextLabel
      ensures ok == StmResolves(s, indexTable)
      ensures ok ==> stms == old(stms) + StmCode(s, classId, indexTable, old(nextLabel))
      ensures ok ==> nextLabel == old(nextLabel) + StmLabels(s)
      decreases s, 2
    {
      match s
      case Assign(_, _, _, _, _) => ok := VisitAssign(s);
      case AssignArray(_, _, _, _, _) => ok := VisitAssignArray(s);
      case Block(ss) => ok := VisitStms(ss);
      case If(_, _, _, _) => ok := VisitIf(s);
      case Print(_, _) => ok := VisitPrint(s);
      case While(_, _, _) => ok := VisitWhile(s);
    }

    /** visit(Block), and the statement loop of visit(MethodSingle): each
        statement in order. */
    method VisitStms(ss: seq<Ast.Stm>) returns (ok: bool)
      modifies this`stms, this`nextLabel
      ensures ok == StmsResolve(ss, indexTable)
      ensures ok ==> stms == old(stms) + StmsCode(ss, classId, indexTable, old(nextLabel))
      ensures ok ==> nextLabel == old(nextLabel) + StmsLabels(ss)
      decreases ss, 0
    {
      ghost var cid, t, lab0, s0 := classId, indexTable, nextLabel, stms;
      var i := 0;
      while i < |ss|
        invariant 0 <= i <= |ss|
        invariant forall j :: 0 <= j < i ==> StmResolves(ss[j], t)
        invariant stms == s0 + StmsCode(ss[..i], cid, t, lab0)
        invariant nextLabel == lab0 + StmsLabels(ss[..i])
      {
        ok := VisitStm(ss[i]);
        if !ok { return; }
        TranslateLemmas.StmsAppend(s0, ss, i, cid, t, lab0);
        i := i + 1;
      }
      assert ss[..i] == ss;
      ok := true;
    }

    /** visit(Assign): a line marker; then for a field `this`, the value and
        `putfield`; for a local or formal the value and a store into its
        slot, `astore` for a reference type and `istore` otherwise. */
    method VisitAssign(s: Ast.Stm) returns (ok: bool)
      requires s.Assign?
      modifies this`stms, this`nextLabel
      ensures ok == StmResolves(s, indexTable)
      ensures ok ==> stms == old(stms) + StmCode(s, classId, indexTable, old(nextLabel))
      ensures ok ==> nextLabel == old(nextLabel) + StmLabels(s)
      decreases s, 1
    {
      ghost var cid, t, lab0, s0 := classId, indexTable, nextLabel, stms;
      TranslateLemmas.AssignAppend(s0, s, cid, t, lab0);
      Emit(Line(s.line));
      if s.isField {
        Emit(This);
        ok := VisitExp(s.exp);
        if !ok { return; }
        Emit(PutField(FieldSpec(classId, s.id), DescOf(TransformType(s.ty))));
      } else {
        ok := VisitExp(s.exp);
        if !ok { return; }
        if !(indexTable.Some? && s.id in indexTable.value) {
          ok := false;
          return;
        }
        var slot := indexTable.value[s.id];
        if Ast.TypeNum(s.ty) > 0 {
          Emit(Astore(slot));
        } else {
          Emit(Istore(slot));
        }
      }
    }

    /** visit(AssignArray): a line marker, the array reference (the field
        through `this` and `getfield` with descriptor `[I`, or a local from
        its slot), the index, the value, then `iastore`. */
    method VisitAssignArray(s: Ast.Stm) returns (ok: bool)
      requires s.AssignArray?
      modifies this`stms, this`nextLabel
      ensures ok == StmResolves(s, indexTable)
      ensures ok ==> stms == old(stms) + StmCode(s, classId, indexTable, old(nextLabel))
      ensures ok ==> nextLabel == old(nextLabel) + StmLabels(s)
      decreases s, 1
    {
      ghost var cid, t, lab0, s0 := classId, indexTable, nextLabel, stms;
      TranslateLemmas.AssignArrayAppend(s0, s, cid, t, lab0);
      Emit(Line(s.line));
      if s.isField {
        EmitPair(This, GetField(FieldSpec(classId, s.id), Literal("[I")));
      } else {
        if !(indexTable.Some? && s.id in indexTable.value) {
          ok := false;
          return;
        }
        var slot := indexTable.value[s.id];
        Emit(Aload(slot));
      }
      ok := VisitExp(s.index);
      if !ok { return; }
      ok := VisitExp(s.exp);
      if !ok { return; }
      Emit(Iastore);
    }

    /** visit(If): a line marker, three fresh labels, the condition,
        `ifne tl`, `fl` and the else branch, `goto el`, `tl` and the then
        branch, `goto el`, and `el`. */
    method VisitIf(s: Ast.Stm) returns (ok: bool)
      requires s.If?
      modifies this`stms, this`nextLabel
      ensures ok == StmResolves(s, indexTable)
      ensures ok ==> stms == old(stms) + StmCode(s, classId, indexTable, old(nextLabel))
      ensures ok ==> nextLabel == old(nextLabel) + StmLabels(s)
      decreases s, 1
    {
      ghost var cid, t, s0 := classId, indexTable, stms;
      Emit(Line(s.line));
      var tl, fl, el := NewLabels3();
      TranslateLemmas.IfAppend(s0, s, cid, t, tl);
      ghost var p1 := stms;
      ok := VisitExp(s.condition);
      if !ok { return; }
      ghost var p2 := stms;
      assert p2 == p1 + ExpCode(s.condition, cid, t, tl + 3);
      EmitPair(Ifne(tl), LabelJ(fl));
      ghost var p3 := stms;
      ok := VisitStm(s.elsee);
      if !ok { return; }
      ghost var p4 := stms;
      assert p4 == p3 + StmCode(s.elsee, cid, t, tl + 3 + ExpLabels(s.condition));
      EmitPair(Goto(el), LabelJ(tl));
      ghost var p5 := stms;
      ok := VisitStm(s.thenn);
      if !ok { return; }
      assert stms == p5 + StmCode(s.thenn, cid, t, tl + 3 + ExpLabels(s.condition) + StmLabels(s.elsee));
      EmitPair(Goto(el), LabelJ(el));
    }

    /** visit(Print): a line marker, the value, then `print` with the String
        descriptor for a string literal and `I` otherwise. */
    method VisitPrint(s: Ast.Stm) returns (ok: bool)
      requires s.Print?
      modifies this`stms, this`nextLabel
      ensures ok == StmResolves(s, indexTable)
      ensures ok ==> stms == old(stms) + StmCode(s, classId, indexTable, old(nextLabel))
      ensures ok ==> nextLabel == old(nextLabel) + StmLabels(s)
      decreases s, 1
    {
      ghost var cid, t, lab0, s0 := classId, indexTable, nextLabel, stms;
      TranslateLemmas.PrintAppend(s0, s, cid, t, lab0);
      Emit(Line(s.line));
      ok := VisitExp(s.exp);
      if !ok { return; }
      if s.exp.StringLiteral? {
        Emit(Print("Ljava/lang/String;"));
      } else {
        Emit(Print("I"));
      }
    }

    /** visit(While): a line marker, two fresh labels, `wl`, the condition,
        `ifeq el`, the body, `goto wl`, and `el`. */
    method VisitWhile(s: Ast.Stm) returns (ok: bool)
      requires s.While?
      modifies this`stms, this`nextLabel
      ensures ok == StmResolves(s, indexTable)
      ensures ok ==> stms == old(stms) + StmCode(s, classId, indexTable, old(nextLabel))
      ensures ok ==> nextLabel == old(nextLabel) + StmLabels(s)
      decreases s, 1
    {
      ghost var cid, t, lab0, s0 := classId, indexTable, nextLabel, stms;
      TranslateLemmas.WhileAppend(s0, s, cid, t, lab0);
      Emit(Line(s.line));
      var wl := NewLabel();
      var el := NewLabel();
      Emit(LabelJ(wl));
      ok := VisitExp(s.condition);
      if !ok { return; }
      Emit(Ifeq(el));
      ok := VisitStm(s.body);
      if !ok { return; }
      EmitPair(Goto(wl), LabelJ(el));
    }

    // ///////////////////////////////////////////////////
    // declarations, methods, classes and the program

    /** visit(DecSingle): the lowered declaration; when a slot table exists
        the identifier gets the next slot. */
    method VisitDec(d: Ast.Dec) returns (r: Dec)
      modifies this`index, this`indexTable
      ensures r == LowerDec(d)
      ensures old(indexTable).Some? ==> indexTable == Some(old(indexTable).value[d.id := old(index)]) && index == old(index) + 1
      ensures old(indexTable).None? ==> indexTable == None && index == old(index)
    {
      var ty := VisitType(d.ty);
      r := Dec(ty, d.id);
      if indexTable.Some? {
        indexTable := Some(indexTable.value[d.id := index]);
        index := index + 1;
      }
    }

    /** The declaration loops of visit(MethodSingle) and
        visit(ClassSingle): each declaration visited in order. With a slot
        table, they take consecutive slots from `index` on. */
    method VisitDecs(ds: seq<Ast.Dec>) returns (r: seq<Dec>)
      modifies this`index, this`indexTable
      ensures r == LowerDecs(ds)
      ensures old(indexTable).Some? ==> indexTable == Some(Bind(old(indexTable).value, old(index), ds)) && index == old(index) + |ds|
      ensures old(indexTable).None? ==> indexTable == None && index == old(index)
    {
      ghost var t0, i0 := indexTable, index;
      r := [];
      var i := 0;
      while i < |ds|
        invariant 0 <= i <= |ds|
        invariant r == LowerDecs(ds[..i])
        invariant t0.Some? ==> indexTable == Some(Bind(t0.value, i0, ds[..i])) && index == i0 + i
        invariant t0.None? ==> indexTable == None && index == i0
      {
        assert ds[..i + 1][..i] == ds[..i];
        var d := VisitDec(ds[i]);
        r := r + [d];
        i := i + 1;
      }
      assert ds[..i] == ds;
    }

    /** visit(MethodSingle): a fresh slot table numbered from 1, the
        formals and then the locals entered in order, a fresh instruction
        list holding the statements, the return expression and the return
        instruction. `None` stands for the exception a missing slot
        raises. */
    method VisitMethod(m: Ast.Method) returns (r: Option<Method>)
      modifies this`index, this`indexTable, this`stms, this`nextLabel
      ensures r == MethodSpec(m, classId, old(nextLabel))
      ensures indexTable == Some(Slots(m.formals + m.locals))
      ensures index == 1 + |m.formals| + |m.locals|
      ensures r.Some? ==> nextLabel == old(nextLabel) + MethodLabels(m)
    {
      index := 1;
      indexTable := Some(map[]);
      var retType := VisitType(m.retType);
      var formals := VisitDecs(m.formals);
      var locals := VisitDecs(m.locals);
      TranslateLemmas.BindAppend(map[], 1, m.formals, m.locals);
      var ok := VisitBody(m);
      if !ok {
        r := None;
        return;
      }
      r := Some(Method(retType, m.id, classId, formals, locals, stms, 0, index));
    }

    /** The rest of visit(MethodSingle), once the slot table is complete: a
        fresh instruction list, the statements, the return expression and
        `areturn` for a reference return type, `ireturn` otherwise. */
    method VisitBody(m: Ast.Method) returns (ok: bool)
      requires indexTable == Some(Slots(m.formals + m.locals))
      modifies this`stms, this`nextLabel
      ensures ok == MethodResolves(m)
      ensures ok ==> stms == MethodCode(m, classId, old(nextLabel))
      ensures ok ==> nextLabel == old(nextLabel) + MethodLabels(m)
    {
      stms := [];
      ok := VisitStms(m.stms);
      if !ok { return; }
      assert stms == StmsCode(m.stms, classId, indexTable, old(nextLabel));
      ok := VisitExp(m.retExp);
      if !ok { return; }
      var ret := if Ast.TypeNum(m.retType) > 0 then Areturn else Ireturn;
      Emit(ret);
    }

    /** The method loop of visit(ClassSingle): each method translated in
        order, stopping at the first that fails. */
    method VisitMethods(ms: seq<Ast.Method>) returns (r: Option<seq<Method>>)
      modifies this`index, this`indexTable, this`stms, this`nextLabel
      ensures r == MethodsSpec(ms, classId, old(nextLabel))
      ensures r.Some? ==> nextLabel == old(nextLabel) + MethodsLabels(ms)
    {
      ghost var lab0 := nextLabel;
      ghost var rs := MethodResults(ms, classId, lab0);
      var done: seq<Method> := [];
      var k := 0;
      while k < |ms|
        invariant 0 <= k <= |ms|
        invariant AllSome(rs[..k]) == Some(done)
        invariant nextLabel == lab0 + MethodsLabels(ms[..k])
      {
        var m := VisitMethod(ms[k]);
        assert m == rs[k];
        if m.None? {
          TranslateLemmas.AllSomeStop(rs, k);
          r := None;
          return;
        }
        TranslateLemmas.AllSomeGrow(rs, k, done);
        TranslateLemmas.MethodsLabelsGrow(ms, k, lab0);
        done := done + [m.value];
        k := k + 1;
      }
      assert rs[..k] == rs;
      assert ms[..k] == ms;
      r := Some(done);
    }

    /** visit(ClassSingle): the class id is recorded, the fields lowered
        (entering them into whatever slot table is left over, which the
        next method replaces) and the methods translated. */
    method VisitClass(c: Ast.Class) returns (r: Option<Class>)
      modifies this`classId, this`index, this`indexTable, this`stms, this`nextLabel
      ensures r == ClassSpec(c, old(nextLabel))
      ensures classId == c.id
      ensures r.Some? ==> nextLabel == old(nextLabel) + MethodsLabels(c.methods)
    {
      classId := c.id;
      var decs := VisitDecs(c.decs);
      var methods := VisitMethods(c.methods);
      if methods.None? {
        r := None;
        return;
      }
      r := Some(Class(c.id, c.extendss, decs, methods.value));
    }

    /** visit(MainClassSingle): the statement is translated onto the
        current instruction list, which becomes the main class's; a fresh
        list replaces it. */
    method VisitMainClass(c: Ast.MainClass) returns (r: Option<MainClass>)
      modifies this`stms, this`nextLabel
      ensures r == MainSpec(c, classId, indexTable, old(stms), old(nextLabel))
      ensures r.Some? ==> stms == [] && nextLabel == old(nextLabel) + StmLabels(c.stm)
    {
      var ok := VisitStm(c.stm);
      if !ok {
        r := None;
        return;
      }
      r := Some(MainClass(c.id, c.arg, stms));
      stms := [];
    }

    /** The class loop of visit(ProgramSingle): each class translated in
        order, stopping at the first that fails. */
    method VisitClasses(cs: seq<Ast.Class>) returns (r: Option<seq<Class>>)
      modifies this`classId, this`index, this`indexTable, this`stms, this`nextLabel
      ensures r == ClassesSpec(cs, old(nextLabel))
      ensures r.Some? ==> nextLabel == old(nextLabel) + ClassesLabels(cs)
    {
      ghost var lab0 := nextLabel;
      ghost var rs := ClassResults(cs, lab0);
      var done: seq<Class> := [];
      var k := 0;
      while k < |cs|
        invariant 0 <= k <= |cs|
        invariant AllSome(rs[..k]) == Some(done)
        invariant nextLabel == lab0 + ClassesLabels(cs[..k])
      {
        assert rs[k] == ClassSpec(cs[k], nextLabel) by {
          TranslateLemmas.ClassResultAt(cs, lab0, k);
        }
        var c := VisitClass(cs[k]);
        assert c == rs[k];
        if c.None? {
          TranslateLemmas.AllSomeStop(rs, k);
          r := None;
          return;
        }
        TranslateLemmas.AllSomeGrow(rs, k, done);
        TranslateLemmas.ClassesLabelsGrow(cs, k, lab0);
        done := done + [c.value];
        k := k + 1;
      }
      assert rs[..k] == rs;
      assert cs[..k] == cs;
      r := Some(done);
    }

    /** visit(ProgramSingle): the main class, then every class in order. */
    method VisitProgram(p: Ast.Program) returns (r: Option<Program>)
      modifies this`classId, this`index, this`indexTable, this`stms, this`nextLabel
      ensures r == ProgramSpec(p, old(classId), old(indexTable), old(stms), old(nextLabel))
      ensures r.Some? ==>
        nextLabel == old(nextLabel) + StmLabels(p.mainClass.stm) + ClassesLabels(p.classes)
    {
      var mc := VisitMainClass(p.mainClass);
      if mc.None? {
        r := None;
        return;
      }
      var classes := VisitClasses(p.classes);
      if classes.None? {
        r := None;
        return;
      }
      r := Some(Program(mc.value, classes.value));
    }
  }

  /** A new visitor run over a whole program: the class id starts as the
      string rendering of null, there is no slot table and no instruction,
      and labels are taken from `firstLabel` on. */
  method TranslateProgram(p: Ast.Program, firstLabel: Label) returns (r: Option<Program>)
    ensures r == ProgramSpec(p, NULL_CLASS_ID, None, [], firstLabel)
  {
    var v := new TranslateVisitor(firstLabel);
    r := v.VisitProgram(p);
  }
}
