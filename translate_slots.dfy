/** The local slots of a translated method: the table numbers the formals
    and then the locals from 1 (slot 0 holds `this`), a later declaration
    of the same name wins, and every slot a load or store of the method's
    code names lies inside the frame the method declares. */
module TranslateSlots {
  import opened Wrappers
  import Ast
  import opened Bytecode
  import opened TranslateSpec
  import TranslateLabels

  /** The identifiers declared in `ds`. */
  function Ids(ds: seq<Ast.Dec>): set<string>
  {
    set d | d in ds :: d.id
  }

  lemma {:induction false} BindKeys(m: map<string, int>, next: int, ds: seq<Ast.Dec>)
    ensures Bind(m, next, ds).Keys == m.Keys + Ids(ds)
    decreases |ds|
  {
    if ds != [] {
      var n := |ds| - 1;
      BindKeys(m, next, ds[..n]);
      assert ds == ds[..n] + [ds[n]];
      assert Ids(ds) == Ids(ds[..n]) + {ds[n].id};
    }
  }

  /** Every slot `Bind` gives out is one of `next`, ..., `next + |ds| - 1`;
      the others are those the table already held. */
  lemma {:induction false} BindRange(m: map<string, int>, next: int, ds: seq<Ast.Dec>, id: string)
    requires id in Bind(m, next, ds)
    ensures (id in m && Bind(m, next, ds)[id] == m[id]) || next <= Bind(m, next, ds)[id] < next + |ds|
    decreases |ds|
  {
    if ds != [] {
      var n := |ds| - 1;
      if id != ds[n].id {
        BindRange(m, next, ds[..n], id);
      }
    }
  }

  /** A declaration that no later one redeclares keeps the slot of its
      position. */
  lemma {:induction false} BindLast(m: map<string, int>, next: int, ds: seq<Ast.Dec>, k: nat)
    requires k < |ds| && forall j :: k < j < |ds| ==> ds[j].id != ds[k].id
    ensures ds[k].id in Bind(m, next, ds) && Bind(m, next, ds)[ds[k].id] == next + k
    decreases |ds|
  {
    var n := |ds| - 1;
    if k < n {
      var p := ds[..n];
      assert forall j :: k < j < |p| ==> p[j] == ds[j];
      BindLast(m, next, p, k);
    }
  }

  /** The table of a method holds exactly its formals and locals. */
  lemma SlotsKeys(ds: seq<Ast.Dec>)
    ensures Slots(ds).Keys == Ids(ds)
  {
    BindKeys(map[], 1, ds);
  }

  /** Every slot lies in 1..|ds|: slot 0 is never given to a variable. */
  lemma SlotsRange(ds: seq<Ast.Dec>, id: string)
    requires id in Slots(ds)
    ensures 1 <= Slots(ds)[id] <= |ds|
  {
    BindRange(map[], 1, ds, id);
  }

  /** The k-th declaration gets slot k + 1 unless a later one reuses its
      name, in which case the later one's slot wins. */
  lemma SlotsLast(ds: seq<Ast.Dec>, k: nat)
    requires k < |ds| && forall j :: k < j < |ds| ==> ds[j].id != ds[k].id
    ensures ds[k].id in Slots(ds) && Slots(ds)[ds[k].id] == k + 1
  {
    BindLast(map[], 1, ds, k);
  }

  /** With distinct names, different variables get different slots. */
  lemma SlotsInjective(ds: seq<Ast.Dec>, x: string, y: string)
    requires forall i, j :: 0 <= i < j < |ds| ==> ds[i].id != ds[j].id
    requires x in Slots(ds) && y in Slots(ds) && x != y
    ensures Slots(ds)[x] != Slots(ds)[y]
  {
    SlotsKeys(ds);
    assert x in Ids(ds) && y in Ids(ds);
    var i :| 0 <= i < |ds| && ds[i].id == x;
    var j :| 0 <= j < |ds| && ds[j].id == y;
    SlotsLast(ds, i);
    SlotsLast(ds, j);
  }

  // ---------------------------------------------------------------------
  // Loads and stores stay inside the frame

  /** The instruction reads or writes a local slot. */
  predicate IsLocalAccess(x: Instr)
  {
    x.Aload? || x.Iload? || x.Astore? || x.Istore?
  }

  /** Every load and store of `code` names a slot in 1..hi-1. */
  predicate SlotsBelow(code: seq<Instr>, hi: int)
  {
    forall i :: 0 <= i < |code| && IsLocalAccess(code[i]) ==> 1 <= code[i].slot < hi
  }

  /** Every slot the table gives out lies in 1..hi-1. */
  predicate TableBelow(t: Table, hi: int)
  {
    t.Some? && forall id :: id in t.value ==> 1 <= t.value[id] < hi
  }

  lemma SlotsBelowAppend(a: seq<Instr>, b: seq<Instr>, hi: int)
    requires SlotsBelow(a, hi) && SlotsBelow(b, hi)
    ensures SlotsBelow(a + b, hi)
  {
    forall i | 0 <= i < |a + b| && IsLocalAccess((a + b)[i])
      ensures 1 <= (a + b)[i].slot < hi
    {
      if i >= |a| {
        assert (a + b)[i] == b[i - |a|];
      }
    }
  }

  lemma SlotsBelow3(a: seq<Instr>, b: seq<Instr>, c: seq<Instr>, hi: int)
    requires SlotsBelow(a, hi) && SlotsBelow(b, hi) && SlotsBelow(c, hi)
    ensures SlotsBelow(a + b + c, hi)
  {
    SlotsBelowAppend(a, b, hi);
    SlotsBelowAppend(a + b, c, hi);
  }

  /** A resolving expression loads only slots the table gives out. */
  lemma {:induction false} ExpSlotsBelow(e: Ast.Exp, classId: string, t: Table, lab: Label, hi: int)
    requires TableBelow(t, hi) && Resolves(e, t)
    ensures SlotsBelow(ExpCode(e, classId, t, lab), hi)
    decreases e, 1
  {
    match e
    case Add(_, _) => BinarySlotsBelow(e, IAdd, classId, t, lab, hi);
    case And(_, _) => BinarySlotsBelow(e, IAnd, classId, t, lab, hi);
    case ArraySelect(_, _) => ArraySelectSlotsBelow(e, classId, t, lab, hi);
    case Call(_, _, _, _, _, _) => CallSlotsBelow(e, classId, t, lab, hi);
    case Length(_) => UnarySlotsBelow(e, classId, t, lab, hi);
    case Lt(_, _) => CompareSlotsBelow(e, Ificmplt(lab), classId, t, lab, hi);
    case Gt(_, _) => CompareSlotsBelow(e, Ificmpgt(lab), classId, t, lab, hi);
    case NewIntArray(_) => UnarySlotsBelow(e, classId, t, lab, hi);
    case Not(_) => UnarySlotsBelow(e, classId, t, lab, hi);
    case Sub(_, _) => BinarySlotsBelow(e, Isub, classId, t, lab, hi);
    case Times(_, _) => BinarySlotsBelow(e, Imul, classId, t, lab, hi);
    case Id(id, _, isField) =>
      if !isField {
        assert id in t.value;
      }
    case _ =>
  }

  lemma ArraySelectSlotsBelow(e: Ast.Exp, classId: string, t: Table, lab: Label, hi: int)
    requires e.ArraySelect?
    requires TableBelow(t, hi) && Resolves(e, t)
    ensures SlotsBelow(ExpCode(e, classId, t, lab), hi)
    decreases e, 0
  {
    ExpSlotsBelow(e.arr, classId, t, lab, hi);
    ExpSlotsBelow(e.index, classId, t, lab + ExpLabels(e.arr), hi);
    SlotsBelow3(ExpCode(e.arr, classId, t, lab), ExpCode(e.index, classId, t, lab + ExpLabels(e.arr)), [Iaload], hi);
  }

  /** Length, new int[..] and ! add no load or store to their operand's code. */
  lemma UnarySlotsBelow(e: Ast.Exp, classId: string, t: Table, lab: Label, hi: int)
    requires e.Length? || e.NewIntArray? || e.Not?
    requires TableBelow(t, hi) && Resolves(e, t)
    ensures SlotsBelow(ExpCode(e, classId, t, lab), hi)
    decreases e, 0
  {
    if e.Not? {
      ExpSlotsBelow(e.exp, classId, t, lab + 3, hi);
      SlotsBelowAppend(ExpCode(e.exp, classId, t, lab + 3), NotTail(lab, lab + 1, lab + 2), hi);
    } else if e.Length? {
      ExpSlotsBelow(e.arr, classId, t, lab, hi);
      SlotsBelowAppend(ExpCode(e.arr, classId, t, lab), [ArrayLength], hi);
    } else {
      ExpSlotsBelow(e.exp, classId, t, lab, hi);
      SlotsBelowAppend(ExpCode(e.exp, classId, t, lab), [NewArray], hi);
    }
  }

  lemma BinarySlotsBelow(e: Ast.Exp, op: Instr, classId: string, t: Table, lab: Label, hi: int)
    requires e.Add? || e.And? || e.Sub? || e.Times?
    requires !IsLocalAccess(op)
    requires TableBelow(t, hi) && Resolves(e, t)
    ensures SlotsBelow(BinaryCode(e, op, classId, t, lab), hi)
    decreases e, 0
  {
    ExpSlotsBelow(e.left, classId, t, lab, hi);
    ExpSlotsBelow(e.right, classId, t, lab + ExpLabels(e.left), hi);
    SlotsBelow3(ExpCode(e.left, classId, t, lab), ExpCode(e.right, classId, t, lab + ExpLabels(e.left)), [op], hi);
  }

  lemma CompareSlotsBelow(e: Ast.Exp, branch: Instr, classId: string, t: Table, lab: Label, hi: int)
    requires (e.Lt? || e.Gt?) && (branch == Ificmplt(lab) || branch == Ificmpgt(lab))
    requires TableBelow(t, hi) && Resolves(e, t)
    ensures SlotsBelow(CompareCode(e, branch, classId, t, lab), hi)
    decreases e, 0
  {
    ExpSlotsBelow(e.left, classId, t, lab + 3, hi);
    ExpSlotsBelow(e.right, classId, t, lab + 3 + ExpLabels(e.left), hi);
    SlotsBelow3(ExpCode(e.left, classId, t, lab + 3), ExpCode(e.right, classId, t, lab + 3 + ExpLabels(e.left)),
                CompareTail(branch, lab, lab + 1, lab + 2), hi);
  }

  lemma CallSlotsBelow(e: Ast.Exp, classId: string, t: Table, lab: Label, hi: int)
    requires e.Call?
    requires TableBelow(t, hi) && Resolves(e, t)
    ensures SlotsBelow(CallCode(e, classId, t, lab), hi)
    decreases e, 0
  {
    ExpSlotsBelow(e.exp, classId, t, lab, hi);
    ArgsSlotsBelow(e.args, classId, t, lab + ExpLabels(e.exp), hi);
    SlotsBelow3(ExpCode(e.exp, classId, t, lab), ArgsCode(e.args, classId, t, lab + ExpLabels(e.exp)),
                [Invokevirtual(e.id, e.cls, LowerTypes(e.at), LowerType(e.rt))], hi);
  }

  lemma {:induction false} ArgsSlotsBelow(args: seq<Ast.Exp>, classId: string, t: Table, lab: Label, hi: int)
    requires TableBelow(t, hi) && ArgsResolve(args, t)
    ensures SlotsBelow(ArgsCode(args, classId, t, lab), hi)
  {
    if args != [] {
      var n := |args| - 1;
      assert forall i :: 0 <= i < n ==> args[..n][i] == args[i];
      ArgsSlotsBelow(args[..n], classId, t, lab, hi);
      ExpSlotsBelow(args[n], classId, t, lab + ArgsLabels(args[..n]), hi);
      SlotsBelowAppend(ArgsCode(args[..n], classId, t, lab), ExpCode(args[n], classId, t, lab + ArgsLabels(args[..n])), hi);
    }
  }

  /** A resolving statement loads and stores only slots the table gives
      out. */
  lemma {:induction false} StmSlotsBelow(s: Ast.Stm, classId: string, t: Table, lab: Label, hi: int)
    requires TableBelow(t, hi) && StmResolves(s, t)
    ensures SlotsBelow(StmCode(s, classId, t, lab), hi)
    decreases s, 1
  {
    match s
    case Assign(id, x, ty, isField, line) =>
      ExpSlotsBelow(x, classId, t, lab, hi);
      var code := ExpCode(x, classId, t, lab);
      if isField {
        SlotsBelow3([Line(line), This], code, [PutField(FieldSpec(classId, id), DescOf(TransformType(ty)))], hi);
        assert AssignCode(s, classId, t, lab) == [Line(line), This] + code + [PutField(FieldSpec(classId, id), DescOf(TransformType(ty)))];
      } else {
        assert id in t.value;
        SlotsBelow3([Line(line)], code, [if Ast.IsReference(ty) then Astore(Slot(t, id)) else Istore(Slot(t, id))], hi);
      }
    case AssignArray(_, _, _, _, _) => AssignArraySlotsBelow(s, classId, t, lab, hi);
    case Block(ss) => StmsSlotsBelow(ss, classId, t, lab, hi);
    case If(_, _, _, _) => IfSlotsBelow(s, classId, t, lab, hi);
    case Print(x, line) =>
      ExpSlotsBelow(x, classId, t, lab, hi);
      SlotsBelow3([Line(line)], ExpCode(x, classId, t, lab), [Print(PrintFormat(x))], hi);
    case While(_, _, _) => WhileSlotsBelow(s, classId, t, lab, hi);
  }

  lemma AssignArraySlotsBelow(s: Ast.Stm, classId: string, t: Table, lab: Label, hi: int)
    requires s.AssignArray?
    requires TableBelow(t, hi) && StmResolves(s, t)
    ensures SlotsBelow(AssignArrayCode(s, classId, t, lab), hi)
    decreases s, 0
  {
    var a := if s.isField then [This, GetField(FieldSpec(classId, s.id), Literal("[I"))] else [Aload(Slot(t, s.id))];
    var i, x := ExpCode(s.index, classId, t, lab), ExpCode(s.exp, classId, t, lab + ExpLabels(s.index));
    ExpSlotsBelow(s.index, classId, t, lab, hi);
    ExpSlotsBelow(s.exp, classId, t, lab + ExpLabels(s.index), hi);
    if !s.isField {
      assert s.id in t.value;
    }
    SlotsBelow3([Line(s.line)], a, i, hi);
    SlotsBelow3([Line(s.line)] + a + i, x, [Iastore], hi);
  }

  lemma {:induction false} StmsSlotsBelow(ss: seq<Ast.Stm>, classId: string, t: Table, lab: Label, hi: int)
    requires TableBelow(t, hi) && StmsResolve(ss, t)
    ensures SlotsBelow(StmsCode(ss, classId, t, lab), hi)
  {
    if ss != [] {
      var n := |ss| - 1;
      assert forall i :: 0 <= i < n ==> ss[..n][i] == ss[i];
      StmsSlotsBelow(ss[..n], classId, t, lab, hi);
      StmSlotsBelow(ss[n], classId, t, lab + StmsLabels(ss[..n]), hi);
      SlotsBelowAppend(StmsCode(ss[..n], classId, t, lab), StmCode(ss[n], classId, t, lab + StmsLabels(ss[..n])), hi);
    }
  }

  lemma IfShapeSlots(line: int, c: seq<Instr>, el: seq<Instr>, th: seq<Instr>, lab: Label, hi: int)
    requires SlotsBelow(c, hi) && SlotsBelow(el, hi) && SlotsBelow(th, hi)
    ensures SlotsBelow(TranslateLabels.IfShape(line, c, el, th, lab), hi)
  {
    SlotsBelow3([Line(line)], c, [Ifne(lab), LabelJ(lab + 1)], hi);
    SlotsBelow3([Line(line)] + c + [Ifne(lab), LabelJ(lab + 1)], el, [Goto(lab + 2), LabelJ(lab)], hi);
    SlotsBelowAppend(th, [Goto(lab + 2), LabelJ(lab + 2)], hi);
    SlotsBelowAppend([Line(line)] + c + [Ifne(lab), LabelJ(lab + 1)] + el + [Goto(lab + 2), LabelJ(lab)],
                     th + [Goto(lab + 2), LabelJ(lab + 2)], hi);
  }

  lemma IfSlotsBelow(s: Ast.Stm, classId: string, t: Table, lab: Label, hi: int)
    requires s.If?
    requires TableBelow(t, hi) && StmResolves(s, t)
    ensures SlotsBelow(IfCode(s, classId, t, lab), hi)
    decreases s, 0
  {
    var nc, ne := ExpLabels(s.condition), StmLabels(s.elsee);
    ExpSlotsBelow(s.condition, classId, t, lab + 3, hi);
    StmSlotsBelow(s.elsee, classId, t, lab + 3 + nc, hi);
    StmSlotsBelow(s.thenn, classId, t, lab + 3 + nc + ne, hi);
    TranslateLabels.IfPieces(s, classId, t, lab);
    IfShapeSlots(s.line, ExpCode(s.condition, classId, t, lab + 3), StmCode(s.elsee, classId, t, lab + 3 + nc),
                 StmCode(s.thenn, classId, t, lab + 3 + nc + ne), lab, hi);
  }

  lemma WhileSlotsBelow(s: Ast.Stm, classId: string, t: Table, lab: Label, hi: int)
    requires s.While?
    requires TableBelow(t, hi) && StmResolves(s, t)
    ensures SlotsBelow(WhileCode(s, classId, t, lab), hi)
    decreases s, 0
  {
    var nc := ExpLabels(s.condition);
    var c, b := ExpCode(s.condition, classId, t, lab + 2), StmCode(s.body, classId, t, lab + 2 + nc);
    ExpSlotsBelow(s.condition, classId, t, lab + 2, hi);
    StmSlotsBelow(s.body, classId, t, lab + 2 + nc, hi);
    TranslateLabels.WhilePieces(s, classId, t, lab);
    SlotsBelow3([Line(s.line), LabelJ(lab)], c, [Ifeq(lab + 1)], hi);
    SlotsBelow3([Line(s.line), LabelJ(lab)] + c + [Ifeq(lab + 1)], b, [Goto(lab), LabelJ(lab + 1)], hi);
  }

  /** Every load and store of a translated method names one of the slots
      1..index-1 of the frame it declares (`index` is one more than the
      number of formals and locals). */
  lemma MethodSlotsBelow(m: Ast.Method, classId: string, lab: Label)
    requires MethodResolves(m)
    ensures SlotsBelow(MethodCode(m, classId, lab), 1 + |m.formals| + |m.locals|)
  {
    var ds := m.formals + m.locals;
    var t := Some(Slots(ds));
    var hi := 1 + |ds|;
    forall id | id in t.value
      ensures 1 <= t.value[id] < hi
    {
      SlotsRange(ds, id);
    }
    StmsSlotsBelow(m.stms, classId, t, lab, hi);
    ExpSlotsBelow(m.retExp, classId, t, lab + StmsLabels(m.stms), hi);
    SlotsBelow3(StmsCode(m.stms, classId, t, lab), ExpCode(m.retExp, classId, t, lab + StmsLabels(m.stms)),
                [if Ast.IsReference(m.retType) then Areturn else Ireturn], hi);
  }
}
