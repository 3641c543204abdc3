/** Properties of the translator's specification: slot allocation, label
    freshness and well-formedness, the shapes of the boolean and loop
    patterns, and what a failure does to the lists of methods and classes. */
module TranslateLemmas {
  import opened Wrappers
  import Ast
  import opened Bytecode
  import opened TranslateSpec

  // ---------------------------------------------------------------------
  // Slot allocation

  /** Entering `a` and then `b` is entering `a + b`, the slots of `b`
      continuing where those of `a` stopped. */
  lemma {:induction false} BindAppend(m: map<string, int>, next: int, a: seq<Ast.Dec>, b: seq<Ast.Dec>)
    ensures Bind(Bind(m, next, a), next + |a|, b) == Bind(m, next, a + b)
    decreases |b|
  {
    if b == [] {
      assert a + b == a;
    } else {
      var n := |b| - 1;
      BindAppend(m, next, a, b[..n]);
      assert (a + b)[..|a + b| - 1] == a + b[..n];
    }
  }

  // ---------------------------------------------------------------------
  // Failure propagates: one method or class that cannot be translated
  // makes the whole list fail, as the exception aborts the visitor.

  lemma {:induction false} AllSomePrefixFails<B>(rs: seq<Option<B>>, i: nat)
    requires i <= |rs| && AllSome(rs[..i]).None?
    ensures AllSome(rs).None?
    decreases |rs| - i
  {
    if i < |rs| {
      assert rs[..i + 1][..i] == rs[..i];
      AllSomePrefixFails(rs, i + 1);
    } else {
      assert rs[..i] == rs;
    }
  }

  /** One more element succeeds: the list of results grows by it. */
  lemma AllSomeGrow<B>(rs: seq<Option<B>>, k: nat, done: seq<B>)
    requires k < |rs| && AllSome(rs[..k]) == Some(done) && rs[k].Some?
    ensures AllSome(rs[..k + 1]) == Some(done + [rs[k].value])
  {
    var p := rs[..k + 1];
    assert p[..k] == rs[..k] && p[k] == rs[k];
  }

  /** One element that fails makes the whole list fail. */
  lemma AllSomeStop<B>(rs: seq<Option<B>>, k: nat)
    requires k < |rs| && AllSome(rs[..k]).Some? && rs[k].None?
    ensures AllSome(rs).None?
  {
    var p := rs[..k + 1];
    assert p[..k] == rs[..k] && p[k] == rs[k];
    AllSomePrefixFails(rs, k + 1);
  }

  lemma MethodResultAt(ms: seq<Ast.Method>, classId: string, lab: Label, i: nat)
    requires i < |ms|
    ensures MethodResults(ms, classId, lab)[i] == MethodSpec(ms[i], classId, lab + MethodsLabels(ms[..i]))
  {
  }

  lemma ClassResultAt(cs: seq<Ast.Class>, lab: Label, i: nat)
    requires i < |cs|
    ensures ClassResults(cs, lab)[i] == ClassSpec(cs[i], lab + ClassesLabels(cs[..i]))
  {
  }

  lemma MethodsLabelsGrow(ms: seq<Ast.Method>, k: nat, lab: Label)
    requires k < |ms|
    ensures lab + MethodsLabels(ms[..k]) + MethodLabels(ms[k]) == lab + MethodsLabels(ms[..k + 1])
  {
    var p := ms[..k + 1];
    assert p[..k] == ms[..k] && p[k] == ms[k];
  }

  lemma ClassesLabelsGrow(cs: seq<Ast.Class>, k: nat, lab: Label)
    requires k < |cs|
    ensures lab + ClassesLabels(cs[..k]) + MethodsLabels(cs[k].methods) == lab + ClassesLabels(cs[..k + 1])
  {
    var p := cs[..k + 1];
    assert p[..k] == cs[..k] && p[k] == cs[k];
  }

  // ---------------------------------------------------------------------
  // Output shapes: what each visit method has appended, piece by piece, is
  // the specification's translation of the node. Each lemma takes the node
  // itself, so that a visit method needs one call for its whole output;
  // the proofs regroup the appends one piece at a time.

  lemma AppendAssoc<T>(s0: seq<T>, a: seq<T>, b: seq<T>)
    ensures s0 + a + b == s0 + (a + b)
  {
  }

  lemma BinaryAppend(s0: seq<Instr>, e: Ast.Exp, op: Instr, classId: string, t: Table, lab: Label)
    requires (e.Add? && op == IAdd) || (e.And? && op == IAnd) || (e.Sub? && op == Isub) || (e.Times? && op == Imul)
    ensures s0 + ExpCode(e.left, classId, t, lab) + ExpCode(e.right, classId, t, lab + ExpLabels(e.left)) + [op]
         == s0 + ExpCode(e, classId, t, lab)
    ensures lab + ExpLabels(e.left) + ExpLabels(e.right) == lab + ExpLabels(e)
    ensures Resolves(e, t) == (Resolves(e.left, t) && Resolves(e.right, t))
  {
    var l, r := ExpCode(e.left, classId, t, lab), ExpCode(e.right, classId, t, lab + ExpLabels(e.left));
    AppendAssoc(s0, l, r);
    AppendAssoc(s0, l + r, [op]);
  }

  lemma ArraySelectAppend(s0: seq<Instr>, e: Ast.Exp, classId: string, t: Table, lab: Label)
    requires e.ArraySelect?
    ensures s0 + ExpCode(e.arr, classId, t, lab) + ExpCode(e.index, classId, t, lab + ExpLabels(e.arr)) + [Iaload]
         == s0 + ExpCode(e, classId, t, lab)
    ensures lab + ExpLabels(e.arr) + ExpLabels(e.index) == lab + ExpLabels(e)
    ensures Resolves(e, t) == (Resolves(e.arr, t) && Resolves(e.index, t))
  {
    var a, i := ExpCode(e.arr, classId, t, lab), ExpCode(e.index, classId, t, lab + ExpLabels(e.arr));
    AppendAssoc(s0, a, i);
    AppendAssoc(s0, a + i, [Iaload]);
  }

  lemma UnaryAppend(s0: seq<Instr>, e: Ast.Exp, op: Instr, classId: string, t: Table, lab: Label)
    requires (e.Length? && op == ArrayLength) || (e.NewIntArray? && op == NewArray)
    ensures s0 + ExpCode(if e.Length? then e.arr else e.exp, classId, t, lab) + [op]
         == s0 + ExpCode(e, classId, t, lab)
    ensures lab + ExpLabels(if e.Length? then e.arr else e.exp) == lab + ExpLabels(e)
    ensures Resolves(e, t) == Resolves(if e.Length? then e.arr else e.exp, t)
  {
    AppendAssoc(s0, ExpCode(if e.Length? then e.arr else e.exp, classId, t, lab), [op]);
  }

  lemma CallAppend(s0: seq<Instr>, e: Ast.Exp, classId: string, t: Table, lab: Label)
    requires e.Call?
    ensures s0 + ExpCode(e.exp, classId, t, lab) + ArgsCode(e.args, classId, t, lab + ExpLabels(e.exp))
              + [Invokevirtual(e.id, e.cls, LowerTypes(e.at), LowerType(e.rt))]
         == s0 + ExpCode(e, classId, t, lab)
    ensures lab + ExpLabels(e.exp) + ArgsLabels(e.args) == lab + ExpLabels(e)
    ensures Resolves(e, t) == (Resolves(e.exp, t) && ArgsResolve(e.args, t))
  {
    var x, a := ExpCode(e.exp, classId, t, lab), ArgsCode(e.args, classId, t, lab + ExpLabels(e.exp));
    AppendAssoc(s0, x, a);
    AppendAssoc(s0, x + a, [Invokevirtual(e.id, e.cls, LowerTypes(e.at), LowerType(e.rt))]);
  }

  lemma CompareAppend(s0: seq<Instr>, e: Ast.Exp, branch: Instr, classId: string, t: Table, lab: Label)
    requires (e.Lt? && branch == Ificmplt(lab)) || (e.Gt? && branch == Ificmpgt(lab))
    ensures s0 + ExpCode(e.left, classId, t, lab + 3) + ExpCode(e.right, classId, t, lab + 3 + ExpLabels(e.left))
              + CompareTail(branch, lab, lab + 1, lab + 2)
         == s0 + ExpCode(e, classId, t, lab)
    ensures lab + 3 + ExpLabels(e.left) + ExpLabels(e.right) == lab + ExpLabels(e)
    ensures Resolves(e, t) == (Resolves(e.left, t) && Resolves(e.right, t))
  {
    var l, r := ExpCode(e.left, classId, t, lab + 3), ExpCode(e.right, classId, t, lab + 3 + ExpLabels(e.left));
    AppendAssoc(s0, l, r);
    AppendAssoc(s0, l + r, CompareTail(branch, lab, lab + 1, lab + 2));
  }

  lemma NotAppend(s0: seq<Instr>, e: Ast.Exp, classId: string, t: Table, lab: Label)
    requires e.Not?
    ensures s0 + ExpCode(e.exp, classId, t, lab + 3) + NotTail(lab, lab + 1, lab + 2)
         == s0 + ExpCode(e, classId, t, lab)
    ensures lab + 3 + ExpLabels(e.exp) == lab + ExpLabels(e)
    ensures Resolves(e, t) == Resolves(e.exp, t)
  {
    AppendAssoc(s0, ExpCode(e.exp, classId, t, lab + 3), NotTail(lab, lab + 1, lab + 2));
  }

  lemma ArgsAppend(s0: seq<Instr>, args: seq<Ast.Exp>, i: nat, classId: string, t: Table, lab: Label)
    requires i < |args|
    ensures s0 + ArgsCode(args[..i], classId, t, lab) + ExpCode(args[i], classId, t, lab + ArgsLabels(args[..i]))
         == s0 + ArgsCode(args[..i + 1], classId, t, lab)
    ensures lab + ArgsLabels(args[..i]) + ExpLabels(args[i]) == lab + ArgsLabels(args[..i + 1])
  {
    var a := args[..i + 1];
    assert a[..i] == args[..i] && a[i] == args[i];
    AppendAssoc(s0, ArgsCode(args[..i], classId, t, lab), ExpCode(args[i], classId, t, lab + ArgsLabels(args[..i])));
  }

  lemma StmsAppend(s0: seq<Instr>, ss: seq<Ast.Stm>, i: nat, classId: string, t: Table, lab: Label)
    requires i < |ss|
    ensures s0 + StmsCode(ss[..i], classId, t, lab) + StmCode(ss[i], classId, t, lab + StmsLabels(ss[..i]))
         == s0 + StmsCode(ss[..i + 1], classId, t, lab)
    ensures lab + StmsLabels(ss[..i]) + StmLabels(ss[i]) == lab + StmsLabels(ss[..i + 1])
  {
    var a := ss[..i + 1];
    assert a[..i] == ss[..i] && a[i] == ss[i];
    AppendAssoc(s0, StmsCode(ss[..i], classId, t, lab), StmCode(ss[i], classId, t, lab + StmsLabels(ss[..i])));
  }

  lemma AssignAppend(s0: seq<Instr>, s: Ast.Stm, classId: string, t: Table, lab: Label)
    requires s.Assign?
    ensures s.isField ==>
              s0 + [Line(s.line)] + [This] + ExpCode(s.exp, classId, t, lab)
                + [PutField(FieldSpec(classId, s.id), DescOf(TransformType(s.ty)))]
              == s0 + StmCode(s, classId, t, lab)
    ensures !s.isField ==>
              s0 + [Line(s.line)] + ExpCode(s.exp, classId, t, lab)
                + [if Ast.TypeNum(s.ty) > 0 then Astore(Slot(t, s.id)) else Istore(Slot(t, s.id))]
              == s0 + StmCode(s, classId, t, lab)
    ensures lab + ExpLabels(s.exp) == lab + StmLabels(s)
    ensures StmResolves(s, t) == (Resolves(s.exp, t) && (s.isField || SlotKnown(t, s.id)))
  {
    var x := ExpCode(s.exp, classId, t, lab);
    if s.isField {
      AppendAssoc(s0, [Line(s.line)], [This]);
      assert [Line(s.line)] + [This] == [Line(s.line), This];
      AppendAssoc(s0, [Line(s.line), This], x);
      AppendAssoc(s0, [Line(s.line), This] + x, [PutField(FieldSpec(classId, s.id), DescOf(TransformType(s.ty)))]);
    } else {
      AppendAssoc(s0, [Line(s.line)], x);
      AppendAssoc(s0, [Line(s.line)] + x, [if Ast.TypeNum(s.ty) > 0 then Astore(Slot(t, s.id)) else Istore(Slot(t, s.id))]);
    }
  }

  lemma AssignArrayAppend(s0: seq<Instr>, s: Ast.Stm, classId: string, t: Table, lab: Label)
    requires s.AssignArray?
    ensures s0 + [Line(s.line)]
              + (if s.isField then [This, GetField(FieldSpec(classId, s.id), Literal("[I"))] else [Aload(Slot(t, s.id))])
              + ExpCode(s.index, classId, t, lab) + ExpCode(s.exp, classId, t, lab + ExpLabels(s.index)) + [Iastore]
         == s0 + StmCode(s, classId, t, lab)
    ensures lab + ExpLabels(s.index) + ExpLabels(s.exp) == lab + StmLabels(s)
    ensures StmResolves(s, t) == ((s.isField || SlotKnown(t, s.id)) && Resolves(s.index, t) && Resolves(s.exp, t))
  {
    var a := if s.isField then [This, GetField(FieldSpec(classId, s.id), Literal("[I"))] else [Aload(Slot(t, s.id))];
    var i, x := ExpCode(s.index, classId, t, lab), ExpCode(s.exp, classId, t, lab + ExpLabels(s.index));
    AppendAssoc(s0, [Line(s.line)], a);
    AppendAssoc(s0, [Line(s.line)] + a, i);
    AppendAssoc(s0, [Line(s.line)] + a + i, x);
    AppendAssoc(s0, [Line(s.line)] + a + i + x, [Iastore]);
  }

  lemma IfAppend(s0: seq<Instr>, s: Ast.Stm, classId: string, t: Table, lab: Label)
    requires s.If?
    ensures s0 + [Line(s.line)] + ExpCode(s.condition, classId, t, lab + 3) + [Ifne(lab), LabelJ(lab + 1)]
              + StmCode(s.elsee, classId, t, lab + 3 + ExpLabels(s.condition)) + [Goto(lab + 2), LabelJ(lab)]
              + StmCode(s.thenn, classId, t, lab + 3 + ExpLabels(s.condition) + StmLabels(s.elsee))
              + [Goto(lab + 2), LabelJ(lab + 2)]
         == s0 + StmCode(s, classId, t, lab)
    ensures lab + 3 + ExpLabels(s.condition) + StmLabels(s.elsee) + StmLabels(s.thenn) == lab + StmLabels(s)
    ensures StmResolves(s, t) == (Resolves(s.condition, t) && StmResolves(s.elsee, t) && StmResolves(s.thenn, t))
  {
    var c := ExpCode(s.condition, classId, t, lab + 3);
    var el := StmCode(s.elsee, classId, t, lab + 3 + ExpLabels(s.condition));
    var th := StmCode(s.thenn, classId, t, lab + 3 + ExpLabels(s.condition) + StmLabels(s.elsee));
    var p1 := [Line(s.line)];
    var p2 := p1 + c;
    var p3 := p2 + [Ifne(lab), LabelJ(lab + 1)];
    var p4 := p3 + el;
    var p5 := p4 + [Goto(lab + 2), LabelJ(lab)];
    var p6 := p5 + th;
    AppendAssoc(s0, p1, c);
    AppendAssoc(s0, p2, [Ifne(lab), LabelJ(lab + 1)]);
    AppendAssoc(s0, p3, el);
    AppendAssoc(s0, p4, [Goto(lab + 2), LabelJ(lab)]);
    AppendAssoc(s0, p5, th);
    AppendAssoc(s0, p6, [Goto(lab + 2), LabelJ(lab + 2)]);
  }

  lemma PrintAppend(s0: seq<Instr>, s: Ast.Stm, classId: string, t: Table, lab: Label)
    requires s.Print?
    ensures s0 + [Line(s.line)] + ExpCode(s.exp, classId, t, lab)
              + [Print(if s.exp.StringLiteral? then "Ljava/lang/String;" else "I")]
         == s0 + StmCode(s, classId, t, lab)
    ensures lab + ExpLabels(s.exp) == lab + StmLabels(s)
    ensures StmResolves(s, t) == Resolves(s.exp, t)
  {
    AppendAssoc(s0, [Line(s.line)], ExpCode(s.exp, classId, t, lab));
    AppendAssoc(s0, [Line(s.line)] + ExpCode(s.exp, classId, t, lab), [Print(PrintFormat(s.exp))]);
  }

  lemma WhileAppend(s0: seq<Instr>, s: Ast.Stm, classId: string, t: Table, lab: Label)
    requires s.While?
    ensures s0 + [Line(s.line)] + [LabelJ(lab)] + ExpCode(s.condition, classId, t, lab + 2) + [Ifeq(lab + 1)]
              + StmCode(s.body, classId, t, lab + 2 + ExpLabels(s.condition)) + [Goto(lab), LabelJ(lab + 1)]
         == s0 + StmCode(s, classId, t, lab)
    ensures lab + 2 + ExpLabels(s.condition) + StmLabels(s.body) == lab + StmLabels(s)
    ensures StmResolves(s, t) == (Resolves(s.condition, t) && StmResolves(s.body, t))
  {
    var c := ExpCode(s.condition, classId, t, lab + 2);
    var b := StmCode(s.body, classId, t, lab + 2 + ExpLabels(s.condition));
    AppendAssoc(s0, [Line(s.line)], [LabelJ(lab)]);
    assert [Line(s.line)] + [LabelJ(lab)] == [Line(s.line), LabelJ(lab)];
    var p1 := [Line(s.line), LabelJ(lab)];
    AppendAssoc(s0, p1, c);
    AppendAssoc(s0, p1 + c, [Ifeq(lab + 1)]);
    AppendAssoc(s0, p1 + c + [Ifeq(lab + 1)], b);
    AppendAssoc(s0, p1 + c + [Ifeq(lab + 1)] + b, [Goto(lab), LabelJ(lab + 1)]);
  }
}
