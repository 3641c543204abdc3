/** What the bytecode translator computes, as functions of the input tree
    and of the three pieces of visitor state it reads: the enclosing class
    id, the slot table and the label counter. The class TranslateVisitor in
    module Translate is proved to produce exactly these values. */
module TranslateSpec {
  import opened Wrappers
  import Ast
  import opened Bytecode

  /** The slot table (identifier to local slot). It is null until the first
      method is visited, and a visit then replaces it with an empty table. */
  type Table = Option<map<string, int>>

  /** The class id a new visitor holds, as `String.format("%s", ...)` renders
      the null reference. */
  const NULL_CLASS_ID := "null"

  /** The field descriptor `classId/id` of `getFieldSpec`. */
  function FieldSpec(classId: string, id: string): string
  {
    classId + "/" + id
  }

  /** `transformType`: lowering by the type's number. Numbers -1 and 0
      become int, 1 becomes int[] and 2 is only ever a class type; the
      Java `default` case cannot be reached. */
  function TransformType(t: Ast.Type): Type
  {
    var n := Ast.TypeNum(t);
    if n == -1 || n == 0 then Int
    else if n == 1 then IntArray
    else assert t.ClassType?; ClassType(t.id)
  }

  /** The visitor methods for types, which leave their answer in `type`. */
  function LowerType(t: Ast.Type): Type
  {
    match t
    case Boolean => Int
    case Int => Int
    case IntArray => IntArray
    case ClassType(id) => ClassType(id)
  }

  function LowerTypes(ts: seq<Ast.Type>): (r: seq<Type>)
    ensures |r| == |ts|
    ensures forall i :: 0 <= i < |ts| ==> r[i] == LowerType(ts[i])
  {
    if ts == [] then [] else LowerTypes(ts[..|ts| - 1]) + [LowerType(ts[|ts| - 1])]
  }

  function LowerDec(d: Ast.Dec): Dec
  {
    Dec(LowerType(d.ty), d.id)
  }

  function LowerDecs(ds: seq<Ast.Dec>): (r: seq<Dec>)
    ensures |r| == |ds|
    ensures forall i :: 0 <= i < |ds| ==> r[i] == LowerDec(ds[i])
  {
    if ds == [] then [] else LowerDecs(ds[..|ds| - 1]) + [LowerDec(ds[|ds| - 1])]
  }

  // ---------------------------------------------------------------------
  // Slot allocation

  /** The table after `put`ting the declarations `ds` into `m`, in order,
      with consecutive slots starting at `next` (a later duplicate id
      overwrites an earlier one, as `Hashtable.put` does). */
  function Bind(m: map<string, int>, next: int, ds: seq<Ast.Dec>): map<string, int>
  {
    if ds == [] then m
    else Bind(m, next, ds[..|ds| - 1])[ds[|ds| - 1].id := next + |ds| - 1]
  }

  /** The slot table of a method whose formals and locals, in this order,
      are `ds`: it starts empty and the first slot given out is 1. */
  function Slots(ds: seq<Ast.Dec>): map<string, int>
  {
    Bind(map[], 1, ds)
  }

  /** The slot of a local or formal is known: the table exists and has it. */
  predicate SlotKnown(t: Table, id: string)
  {
    t.Some? && id in t.value
  }

  /** The slot of a local or formal. Where there is none the Java lookup
      throws, the translation fails, and the -1 given here is never used. */
  function Slot(t: Table, id: string): int
  {
    if SlotKnown(t, id) then t.value[id] else -1
  }

  // ---------------------------------------------------------------------
  // Expressions

  /** How many labels translating `e` takes from the counter. */
  function ExpLabels(e: Ast.Exp): nat
  {
    match e
    case Add(l, r) => ExpLabels(l) + ExpLabels(r)
    case And(l, r) => ExpLabels(l) + ExpLabels(r)
    case ArraySelect(a, i) => ExpLabels(a) + ExpLabels(i)
    case Call(x, _, _, args, _, _) => ExpLabels(x) + ArgsLabels(args)
    case Length(a) => ExpLabels(a)
    case Lt(l, r) => 3 + ExpLabels(l) + ExpLabels(r)
    case Gt(l, r) => 3 + ExpLabels(l) + ExpLabels(r)
    case NewIntArray(x) => ExpLabels(x)
    case Not(x) => 3 + ExpLabels(x)
    case Sub(l, r) => ExpLabels(l) + ExpLabels(r)
    case Times(l, r) => ExpLabels(l) + ExpLabels(r)
    case _ => 0
  }

  function ArgsLabels(args: seq<Ast.Exp>): nat
  {
    if args == [] then 0 else ArgsLabels(args[..|args| - 1]) + ExpLabels(args[|args| - 1])
  }

  /** Translating `e` does not fail: every local or formal it reads has a
      slot. (The Java code throws a NullPointerException otherwise.) The
      operands of `<=`, `>=` and `==` are never visited. */
  predicate Resolves(e: Ast.Exp, t: Table)
  {
    match e
    case Add(l, r) => Resolves(l, t) && Resolves(r, t)
    case And(l, r) => Resolves(l, t) && Resolves(r, t)
    case ArraySelect(a, i) => Resolves(a, t) && Resolves(i, t)
    case Call(x, _, _, args, _, _) => Resolves(x, t) && ArgsResolve(args, t)
    case Id(id, _, isField) => isField || SlotKnown(t, id)
    case Length(a) => Resolves(a, t)
    case Lt(l, r) => Resolves(l, t) && Resolves(r, t)
    case Gt(l, r) => Resolves(l, t) && Resolves(r, t)
    case NewIntArray(x) => Resolves(x, t)
    case Not(x) => Resolves(x, t)
    case Sub(l, r) => Resolves(l, t) && Resolves(r, t)
    case Times(l, r) => Resolves(l, t) && Resolves(r, t)
    case _ => true
  }

  predicate ArgsResolve(args: seq<Ast.Exp>, t: Table)
  {
    forall i :: 0 <= i < |args| ==> Resolves(args[i], t)
  }

  /** The tail `<` and `>` end with, after both operands: branch to `tl`
      when the comparison holds, else fall through to push false. */
  function CompareTail(branch: Instr, tl: Label, fl: Label, el: Label): seq<Instr>
  {
    [branch, LabelJ(fl), False, Goto(el), LabelJ(tl), True, LabelJ(el)]
  }

  /** The tail of `!`, after its operand: a non-zero operand branches to
      `fl` and pushes false, zero falls through and pushes true. */
  function NotTail(tl: Label, fl: Label, el: Label): seq<Instr>
  {
    [Ifne(fl), LabelJ(tl), True, Goto(el), LabelJ(fl), False, LabelJ(el)]
  }

  /** Reading an identifier: a field through the receiver and `getfield`,
      a local or formal through its slot. */
  function IdCode(id: string, ty: Ast.Type, isField: bool, classId: string, t: Table): seq<Instr>
  {
    if isField then [This, GetField(FieldSpec(classId, id), DescOf(TransformType(ty)))]
    else if Ast.IsReference(ty) then [Aload(Slot(t, id))]
    else [Iload(Slot(t, id))]
  }

  /** The instructions translating `e` appends, when the counter stands at
      `lab`. Each compound form is spelled out by a function of its own
      below. */
  function ExpCode(e: Ast.Exp, classId: string, t: Table, lab: Label): seq<Instr>
    decreases e, 1
  {
    match e
    case Add(_, _) => BinaryCode(e, IAdd, classId, t, lab)
    case And(_, _) => BinaryCode(e, IAnd, classId, t, lab)
    case ArraySelect(_, _) => ArraySelectCode(e, classId, t, lab)
    case Call(_, _, _, _, _, _) => CallCode(e, classId, t, lab)
    case False => [False]
    case Id(id, ty, isField) => IdCode(id, ty, isField, classId, t)
    case Length(_) => UnaryCode(e, ArrayLength, classId, t, lab)
    case Lt(_, _) => CompareCode(e, Ificmplt(lab), classId, t, lab)
    case Le(_, _) => []
    case Gt(_, _) => CompareCode(e, Ificmpgt(lab), classId, t, lab)
    case Ge(_, _) => []
    case Eq(_, _) => []
    case NewIntArray(_) => UnaryCode(e, NewArray, classId, t, lab)
    case NewObject(c) => [New(c)]
    case Not(_) => NotCode(e, classId, t, lab)
    case Num(n) => [LdcInt(n)]
    case StringLiteral(s) => [LdcString(s)]
    case Sub(_, _) => BinaryCode(e, Isub, classId, t, lab)
    case This => [This]
    case Times(_, _) => BinaryCode(e, Imul, classId, t, lab)
    case True => [True]
  }

  /** `+`, `&&`, `-` and `*`: both operands, left to right, then the
      operator. */
  function BinaryCode(e: Ast.Exp, op: Instr, classId: string, t: Table, lab: Label): seq<Instr>
    requires (e.Add? || e.And? || e.Sub? || e.Times?)
    decreases e, 0
  {
    ExpCode(e.left, classId, t, lab) + ExpCode(e.right, classId, t, lab + ExpLabels(e.left)) + [op]
  }

  /** `a[i]`: the array, the index, then `iaload`. */
  function ArraySelectCode(e: Ast.Exp, classId: string, t: Table, lab: Label): seq<Instr>
    requires e.ArraySelect?
    decreases e, 0
  {
    ExpCode(e.arr, classId, t, lab) + ExpCode(e.index, classId, t, lab + ExpLabels(e.arr)) + [Iaload]
  }

  /** `a.length` and `new int[n]`: the operand, then the operator. */
  function UnaryCode(e: Ast.Exp, op: Instr, classId: string, t: Table, lab: Label): seq<Instr>
    requires (e.Length? || e.NewIntArray?)
    decreases e, 0
  {
    ExpCode(if e.Length? then e.arr else e.exp, classId, t, lab) + [op]
  }

  /** A call: the receiver, the arguments, then `invokevirtual` with the
      lowered argument and return types. */
  function CallCode(e: Ast.Exp, classId: string, t: Table, lab: Label): seq<Instr>
    requires e.Call?
    decreases e, 0
  {
    ExpCode(e.exp, classId, t, lab) + ArgsCode(e.args, classId, t, lab + ExpLabels(e.exp))
      + [Invokevirtual(e.id, e.cls, LowerTypes(e.at), LowerType(e.rt))]
  }

  /** `<` or `>`: three labels taken first, then both operands and the
      tail. */
  function CompareCode(e: Ast.Exp, branch: Instr, classId: string, t: Table, lab: Label): seq<Instr>
    requires (e.Lt? || e.Gt?)
    decreases e, 0
  {
    ExpCode(e.left, classId, t, lab + 3) + ExpCode(e.right, classId, t, lab + 3 + ExpLabels(e.left))
      + CompareTail(branch, lab, lab + 1, lab + 2)
  }

  /** `!`: three labels taken first, then the operand and the tail. */
  function NotCode(e: Ast.Exp, classId: string, t: Table, lab: Label): seq<Instr>
    requires e.Not?
    decreases e, 0
  {
    ExpCode(e.exp, classId, t, lab + 3) + NotTail(lab, lab + 1, lab + 2)
  }

  /** The arguments of a call, each translated in turn, left to right. */
  function ArgsCode(args: seq<Ast.Exp>, classId: string, t: Table, lab: Label): seq<Instr>
  {
    if args == [] then []
    else
      var n := |args| - 1;
      ArgsCode(args[..n], classId, t, lab) + ExpCode(args[n], classId, t, lab + ArgsLabels(args[..n]))
  }

  // ---------------------------------------------------------------------
  // Statements

  function StmLabels(s: Ast.Stm): nat
  {
    match s
    case Assign(_, x, _, _, _) => ExpLabels(x)
    case AssignArray(_, i, x, _, _) => ExpLabels(i) + ExpLabels(x)
    case Block(ss) => StmsLabels(ss)
    case If(c, th, el, _) => 3 + ExpLabels(c) + StmLabels(el) + StmLabels(th)
    case Print(x, _) => ExpLabels(x)
    case While(c, body, _) => 2 + ExpLabels(c) + StmLabels(body)
  }

  function StmsLabels(ss: seq<Ast.Stm>): nat
  {
    if ss == [] then 0 else StmsLabels(ss[..|ss| - 1]) + StmLabels(ss[|ss| - 1])
  }

  predicate StmResolves(s: Ast.Stm, t: Table)
  {
    match s
    case Assign(id, x, _, isField, _) => Resolves(x, t) && (isField || SlotKnown(t, id))
    case AssignArray(id, i, x, isField, _) => (isField || SlotKnown(t, id)) && Resolves(i, t) && Resolves(x, t)
    case Block(ss) => StmsResolve(ss, t)
    case If(c, th, el, _) => Resolves(c, t) && StmResolves(el, t) && StmResolves(th, t)
    case Print(x, _) => Resolves(x, t)
    case While(c, body, _) => Resolves(c, t) && StmResolves(body, t)
  }

  predicate StmsResolve(ss: seq<Ast.Stm>, t: Table)
  {
    forall i :: 0 <= i < |ss| ==> StmResolves(ss[i], t)
  }

  /** The `print` descriptor: a string literal prints as a String, anything
      else as an int. */
  function PrintFormat(x: Ast.Exp): string
  {
    if x.StringLiteral? then "Ljava/lang/String;" else "I"
  }

  /** The instructions translating `s` appends, when the counter stands at
      `lab`. `If` and `While` take their labels after the line marker and
      before their condition. */
  function StmCode(s: Ast.Stm, classId: string, t: Table, lab: Label): seq<Instr>
    decreases s, 1
  {
    match s
    case Assign(_, _, _, _, _) => AssignCode(s, classId, t, lab)
    case AssignArray(_, _, _, _, _) => AssignArrayCode(s, classId, t, lab)
    case Block(ss) => StmsCode(ss, classId, t, lab)
    case If(_, _, _, _) => IfCode(s, classId, t, lab)
    case Print(x, line) => [Line(line)] + ExpCode(x, classId, t, lab) + [Print(PrintFormat(x))]
    case While(_, _, _) => WhileCode(s, classId, t, lab)
  }

  /** A field is stored through the receiver and `putfield`, a local or
      formal into its slot. */
  function AssignCode(s: Ast.Stm, classId: string, t: Table, lab: Label): seq<Instr>
    requires s.Assign?
    decreases s, 0
  {
    if s.isField then
      [Line(s.line), This] + ExpCode(s.exp, classId, t, lab)
        + [PutField(FieldSpec(classId, s.id), DescOf(TransformType(s.ty)))]
    else
      [Line(s.line)] + ExpCode(s.exp, classId, t, lab)
        + [if Ast.IsReference(s.ty) then Astore(Slot(t, s.id)) else Istore(Slot(t, s.id))]
  }

  /** The array (a field read with the `[I` descriptor, or a slot), the
      index, the value, then `iastore`. */
  function AssignArrayCode(s: Ast.Stm, classId: string, t: Table, lab: Label): seq<Instr>
    requires s.AssignArray?
    decreases s, 0
  {
    [Line(s.line)]
      + (if s.isField then [This, GetField(FieldSpec(classId, s.id), Literal("[I"))] else [Aload(Slot(t, s.id))])
      + ExpCode(s.index, classId, t, lab) + ExpCode(s.exp, classId, t, lab + ExpLabels(s.index)) + [Iastore]
  }

  /** A conditional takes its three labels `tl`, `fl`, `el` after the line
      marker: the condition, `ifne tl`, `fl`, the else branch, `goto el`,
      `tl`, the then branch, `goto el`, `el`. */
  function IfCode(s: Ast.Stm, classId: string, t: Table, lab: Label): seq<Instr>
    requires s.If?
    decreases s, 0
  {
    var elseLab := lab + 3 + ExpLabels(s.condition);
    [Line(s.line)] + ExpCode(s.condition, classId, t, lab + 3) + [Ifne(lab), LabelJ(lab + 1)]
      + StmCode(s.elsee, classId, t, elseLab) + [Goto(lab + 2), LabelJ(lab)]
      + StmCode(s.thenn, classId, t, elseLab + StmLabels(s.elsee)) + [Goto(lab + 2), LabelJ(lab + 2)]
  }

  /** A loop takes its two labels `wl`, `el` after the line marker: `wl`,
      the condition, `ifeq el`, the body, `goto wl`, `el`. */
  function WhileCode(s: Ast.Stm, classId: string, t: Table, lab: Label): seq<Instr>
    requires s.While?
    decreases s, 0
  {
    [Line(s.line), LabelJ(lab)] + ExpCode(s.condition, classId, t, lab + 2) + [Ifeq(lab + 1)]
      + StmCode(s.body, classId, t, lab + 2 + ExpLabels(s.condition)) + [Goto(lab), LabelJ(lab + 1)]
  }

  function StmsCode(ss: seq<Ast.Stm>, classId: string, t: Table, lab: Label): seq<Instr>
  {
    if ss == [] then []
    else
      var n := |ss| - 1;
      StmsCode(ss[..n], classId, t, lab) + StmCode(ss[n], classId, t, lab + StmsLabels(ss[..n]))
  }

  // ---------------------------------------------------------------------
  // Methods, classes, the main class and the program

  function MethodLabels(m: Ast.Method): nat
  {
    StmsLabels(m.stms) + ExpLabels(m.retExp)
  }

  predicate MethodResolves(m: Ast.Method)
  {
    var t := Some(Slots(m.formals + m.locals));
    StmsResolve(m.stms, t) && Resolves(m.retExp, t)
  }

  /** A method's instruction list: its statements, its return expression,
      and `areturn` for a reference return type, `ireturn` otherwise. */
  function MethodCode(m: Ast.Method, classId: string, lab: Label): seq<Instr>
  {
    var t := Some(Slots(m.formals + m.locals));
    StmsCode(m.stms, classId, t, lab) + ExpCode(m.retExp, classId, t, lab + StmsLabels(m.stms))
      + [if Ast.IsReference(m.retType) then Areturn else Ireturn]
  }

  /** The translated method, or None when translating it fails. It depends
      on the visitor's state only through the class id and the counter. */
  function MethodSpec(m: Ast.Method, classId: string, lab: Label): Option<Method>
  {
    if MethodResolves(m) then
      Some(Method(LowerType(m.retType), m.id, classId, LowerDecs(m.formals), LowerDecs(m.locals),
                  MethodCode(m, classId, lab), 0, 1 + |m.formals| + |m.locals|))
    else None
  }

  function MethodsLabels(ms: seq<Ast.Method>): nat
  {
    if ms == [] then 0 else MethodsLabels(ms[..|ms| - 1]) + MethodLabels(ms[|ms| - 1])
  }

  /** What a list visitor produces: every element's result when all of them
      succeed, and None as soon as one fails, since its exception leaves
      the loop. */
  function AllSome<B>(rs: seq<Option<B>>): Option<seq<B>>
  {
    if rs == [] then Some([])
    else
      match AllSome(rs[..|rs| - 1])
      case None => None
      case Some(done) =>
        match rs[|rs| - 1]
        case None => None
        case Some(b) => Some(done + [b])
  }

  /** Each method translated with the counter where the methods before it
      leave it. */
  function MethodResults(ms: seq<Ast.Method>, classId: string, lab: Label): seq<Option<Method>>
  {
    seq(|ms|, i requires 0 <= i < |ms| => MethodSpec(ms[i], classId, lab + MethodsLabels(ms[..i])))
  }

  function MethodsSpec(ms: seq<Ast.Method>, classId: string, lab: Label): Option<seq<Method>>
  {
    AllSome(MethodResults(ms, classId, lab))
  }

  function ClassSpec(c: Ast.Class, lab: Label): Option<Class>
  {
    match MethodsSpec(c.methods, c.id, lab)
    case None => None
    case Some(ms) => Some(Class(c.id, c.extendss, LowerDecs(c.decs), ms))
  }

  function ClassesLabels(cs: seq<Ast.Class>): nat
  {
    if cs == [] then 0 else ClassesLabels(cs[..|cs| - 1]) + MethodsLabels(cs[|cs| - 1].methods)
  }

  /** Each class translated with the counter where the classes before it
      leave it. */
  function ClassResults(cs: seq<Ast.Class>, lab: Label): seq<Option<Class>>
  {
    seq(|cs|, i requires 0 <= i < |cs| => ClassSpec(cs[i], lab + ClassesLabels(cs[..i])))
  }

  function ClassesSpec(cs: seq<Ast.Class>, lab: Label): Option<seq<Class>>
  {
    AllSome(ClassResults(cs, lab))
  }

  /** The main class: its statement's code appended to whatever
      instruction list the visitor holds (`prefix`). */
  function MainSpec(c: Ast.MainClass, classId: string, t: Table, prefix: seq<Instr>, lab: Label): Option<MainClass>
  {
    if StmResolves(c.stm, t) then Some(MainClass(c.id, c.arg, prefix + StmCode(c.stm, classId, t, lab)))
    else None
  }

  /** The program: the main class first, then every class in order. */
  function ProgramSpec(p: Ast.Program, classId: string, t: Table, prefix: seq<Instr>, lab: Label): Option<Program>
  {
    match MainSpec(p.mainClass, classId, t, prefix, lab)
    case None => None
    case Some(mc) =>
      match ClassesSpec(p.classes, lab + StmLabels(p.mainClass.stm))
      case None => None
      case Some(cs) => Some(Program(mc, cs))
  }
}
