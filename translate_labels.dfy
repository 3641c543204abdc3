/** Label discipline of the translator: every label the counter hands out
    while a node is translated is placed (as a `LabelJ` mark) exactly once
    in that node's code, no other label is placed there, and every branch
    in the code targets one of those labels. From this follow the jump
    counts of the boolean patterns and of `if` and `while`. */
module TranslateLabels {
  import opened Wrappers
  import Ast
  import opened Bytecode
  import opened TranslateSpec

  /** How many times `code` places label `l`. */
  function MarksOf(code: seq<Instr>, l: Label): nat
  {
    if code == [] then 0
    else
      var last := code[|code| - 1];
      MarksOf(code[..|code| - 1], l) + MarkHit(last, l)
  }

  /** 1 when `x` places `l`, else 0. */
  function MarkHit(x: Instr, l: Label): nat
  {
    if x == LabelJ(l) then 1 else 0
  }

  /** 1 when `x` is a branch to `l`, else 0. */
  function JumpHit(x: Instr, l: Label): nat
  {
    if x.IsJump() && x.target == l then 1 else 0
  }

  /** How many branch instructions of `code` target `l`. */
  function JumpsTo(code: seq<Instr>, l: Label): nat
  {
    if code == [] then 0
    else
      var last := code[|code| - 1];
      JumpsTo(code[..|code| - 1], l) + JumpHit(last, l)
  }

  /** Every branch of `code` targets a label in `lo .. lo + n - 1`. */
  predicate TargetsIn(code: seq<Instr>, lo: Label, n: nat)
  {
    forall i :: 0 <= i < |code| && code[i].IsJump() ==> lo <= code[i].target < lo + n
  }

  /** `code` uses exactly the labels `lo .. lo + n - 1`: it places each of
      them once and no other label, and it branches only to them. */
  ghost predicate LabelsOk(code: seq<Instr>, lo: Label, n: nat)
  {
    (forall l :: MarksOf(code, l) == if lo <= l < lo + n then 1 else 0) && TargetsIn(code, lo, n)
  }

  // ---------------------------------------------------------------------
  // The counting functions over concatenation

  lemma {:induction false} MarksOfAppend(a: seq<Instr>, b: seq<Instr>, l: Label)
    ensures MarksOf(a + b, l) == MarksOf(a, l) + MarksOf(b, l)
    decreases |b|
  {
    if b == [] {
      assert a + b == a;
    } else {
      var n := |b| - 1;
      assert (a + b)[..|a + b| - 1] == a + b[..n];
      MarksOfAppend(a, b[..n], l);
    }
  }

  lemma {:induction false} JumpsToAppend(a: seq<Instr>, b: seq<Instr>, l: Label)
    ensures JumpsTo(a + b, l) == JumpsTo(a, l) + JumpsTo(b, l)
    decreases |b|
  {
    if b == [] {
      assert a + b == a;
    } else {
      var n := |b| - 1;
      assert (a + b)[..|a + b| - 1] == a + b[..n];
      JumpsToAppend(a, b[..n], l);
    }
  }

  /** A label outside the range of `code` is never jumped to. */
  lemma {:induction false} JumpsOutside(code: seq<Instr>, lo: Label, n: nat, l: Label)
    requires TargetsIn(code, lo, n) && !(lo <= l < lo + n)
    ensures JumpsTo(code, l) == 0
    decreases |code|
  {
    if code != [] {
      var p := code[..|code| - 1];
      assert TargetsIn(p, lo, n) by {
        forall i | 0 <= i < |p| && p[i].IsJump()
          ensures lo <= p[i].target < lo + n
        {
          assert p[i] == code[i];
        }
      }
      JumpsOutside(p, lo, n, l);
    }
  }

  lemma TargetsInAppend(a: seq<Instr>, b: seq<Instr>, lo: Label, n: nat)
    requires TargetsIn(a, lo, n) && TargetsIn(b, lo, n)
    ensures TargetsIn(a + b, lo, n)
  {
    forall i | 0 <= i < |a + b| && (a + b)[i].IsJump()
      ensures lo <= (a + b)[i].target < lo + n
    {
      if i < |a| {
        assert (a + b)[i] == a[i];
      } else {
        assert (a + b)[i] == b[i - |a|];
      }
    }
  }

  lemma TargetsInWiden(code: seq<Instr>, lo: Label, n: nat, lo': Label, n': nat)
    requires TargetsIn(code, lo, n) && lo' <= lo && lo + n <= lo' + n'
    ensures TargetsIn(code, lo', n')
  {
  }

  /** Two pieces whose ranges are adjacent, `a`'s first, make one piece
      with the joint range. */
  lemma Join(a: seq<Instr>, b: seq<Instr>, lo: Label, n: nat, m: nat)
    requires LabelsOk(a, lo, n) && LabelsOk(b, lo + n, m)
    ensures LabelsOk(a + b, lo, n + m)
  {
    forall l
      ensures MarksOf(a + b, l) == if lo <= l < lo + n + m then 1 else 0
    {
      MarksOfAppend(a, b, l);
    }
    TargetsInAppend(a, b, lo, n + m);
  }

  /** A label fact carried over to code and a count known to be equal. */
  lemma LabelsOkSame(code: seq<Instr>, lo: Label, n: nat, code': seq<Instr>, n': nat)
    requires LabelsOk(code, lo, n) && code' == code && n' == n
    ensures LabelsOk(code', lo, n')
  {
  }

  /** Join, for a `code` and a `total` known to be the concatenation and
      the sum. */
  lemma JoinInto(a: seq<Instr>, b: seq<Instr>, lo: Label, n: nat, m: nat, code: seq<Instr>, total: nat)
    requires LabelsOk(a, lo, n) && LabelsOk(b, lo + n, m)
    requires code == a + b && total == n + m
    ensures LabelsOk(code, lo, total)
  {
    Join(a, b, lo, n, m);
  }

  /** The same with `b`'s range first: the order of the code and the order
      in which its labels were taken need not agree. */
  lemma JoinSwapped(a: seq<Instr>, b: seq<Instr>, lo: Label, n: nat, m: nat)
    requires LabelsOk(b, lo, n) && LabelsOk(a, lo + n, m)
    ensures LabelsOk(a + b, lo, n + m)
  {
    forall l
      ensures MarksOf(a + b, l) == if lo <= l < lo + n + m then 1 else 0
    {
      MarksOfAppend(a, b, l);
    }
    TargetsInAppend(a, b, lo, n + m);
  }

  /** A piece without labels or branches (an operator, a load, a line
      marker) takes no label. */
  lemma {:induction false} Plain(a: seq<Instr>, lo: Label)
    requires forall i :: 0 <= i < |a| ==> !a[i].LabelJ? && !a[i].IsJump()
    ensures LabelsOk(a, lo, 0)
    decreases |a|
  {
    if a != [] {
      var p := a[..|a| - 1];
      assert forall i :: 0 <= i < |p| ==> p[i] == a[i];
      Plain(p, lo);
    }
  }

  // ---------------------------------------------------------------------
  // The fixed tails

  lemma MarksSnoc(p: seq<Instr>, x: Instr, l: Label)
    ensures MarksOf(p + [x], l) == MarksOf(p, l) + MarkHit(x, l)
  {
    assert (p + [x])[..|p|] == p;
  }

  lemma JumpsSnoc(p: seq<Instr>, x: Instr, l: Label)
    ensures JumpsTo(p + [x], l) == JumpsTo(p, l) + JumpHit(x, l)
  {
    assert (p + [x])[..|p|] == p;
  }

  lemma CompareTailLabels(branch: Instr, lab: Label)
    requires branch == Ificmplt(lab) || branch == Ificmpgt(lab)
    ensures LabelsOk(CompareTail(branch, lab, lab + 1, lab + 2), lab, 3)
  {
    TailLabels(CompareTail(branch, lab, lab + 1, lab + 2), lab);
  }

  lemma NotTailLabels(lab: Label)
    ensures LabelsOk(NotTail(lab, lab + 1, lab + 2), lab, 3)
  {
    TailLabels(NotTail(lab, lab + 1, lab + 2), lab);
  }

  /** The marks of a seven-instruction tail, one instruction at a time. */
  lemma Marks7(c: seq<Instr>, l: Label)
    requires |c| == 7
    ensures MarksOf(c, l) == MarkHit(c[0], l) + MarkHit(c[1], l) + MarkHit(c[2], l) + MarkHit(c[3], l)
                           + MarkHit(c[4], l) + MarkHit(c[5], l) + MarkHit(c[6], l)
  {
    assert c == c[..6] + [c[6]] && c[..6] == c[..5] + [c[5]] && c[..5] == c[..4] + [c[4]];
    assert c[..4] == c[..3] + [c[3]] && c[..3] == c[..2] + [c[2]] && c[..2] == [c[0]] + [c[1]];
    MarksSnoc(c[..6], c[6], l);
    MarksSnoc(c[..5], c[5], l);
    MarksSnoc(c[..4], c[4], l);
    MarksSnoc(c[..3], c[3], l);
    MarksSnoc(c[..2], c[2], l);
    MarksSnoc([c[0]], c[1], l);
    MarksSnoc([], c[0], l);
  }

  /** The branches of a seven-instruction tail, one instruction at a time. */
  lemma Jumps7(c: seq<Instr>, l: Label)
    requires |c| == 7
    ensures JumpsTo(c, l) == JumpHit(c[0], l) + JumpHit(c[1], l) + JumpHit(c[2], l) + JumpHit(c[3], l)
                           + JumpHit(c[4], l) + JumpHit(c[5], l) + JumpHit(c[6], l)
  {
    assert c == c[..6] + [c[6]] && c[..6] == c[..5] + [c[5]] && c[..5] == c[..4] + [c[4]];
    assert c[..4] == c[..3] + [c[3]] && c[..3] == c[..2] + [c[2]] && c[..2] == [c[0]] + [c[1]];
    JumpsSnoc(c[..6], c[6], l);
    JumpsSnoc(c[..5], c[5], l);
    JumpsSnoc(c[..4], c[4], l);
    JumpsSnoc(c[..3], c[3], l);
    JumpsSnoc(c[..2], c[2], l);
    JumpsSnoc([c[0]], c[1], l);
    JumpsSnoc([], c[0], l);
  }

  /** A seven-instruction tail that places `lab` and `lab + 1` at
      positions 1 and 4, in either order, and `lab + 2` last. */
  lemma TailLabels(c: seq<Instr>, lab: Label)
    requires |c| == 7 && !c[0].LabelJ? && !c[2].LabelJ? && !c[3].LabelJ? && !c[5].LabelJ?
    requires (c[1] == LabelJ(lab) && c[4] == LabelJ(lab + 1)) || (c[1] == LabelJ(lab + 1) && c[4] == LabelJ(lab))
    requires c[6] == LabelJ(lab + 2)
    requires TargetsIn(c, lab, 3)
    ensures LabelsOk(c, lab, 3)
  {
    forall l
      ensures MarksOf(c, l) == if lab <= l < lab + 3 then 1 else 0
    {
      Marks7(c, l);
    }
  }

  /** In the tail of `<` and `>`, `tl` and `el` are each jumped to once and
      `fl` never: the false case falls through. */
  lemma CompareTailJumps(branch: Instr, lab: Label)
    requires branch == Ificmplt(lab) || branch == Ificmpgt(lab)
    ensures JumpsTo(CompareTail(branch, lab, lab + 1, lab + 2), lab) == 1
    ensures JumpsTo(CompareTail(branch, lab, lab + 1, lab + 2), lab + 1) == 0
    ensures JumpsTo(CompareTail(branch, lab, lab + 1, lab + 2), lab + 2) == 1
  {
    var c := CompareTail(branch, lab, lab + 1, lab + 2);
    assert c[0] == branch && c[3] == Goto(lab + 2);
    Jumps7(c, lab);
    Jumps7(c, lab + 1);
    Jumps7(c, lab + 2);
  }

  /** In the tail of `!`, `fl` and `el` are each jumped to once and `tl`
      never: a zero operand falls through to push true. */
  lemma NotTailJumps(lab: Label)
    ensures JumpsTo(NotTail(lab, lab + 1, lab + 2), lab) == 0
    ensures JumpsTo(NotTail(lab, lab + 1, lab + 2), lab + 1) == 1
    ensures JumpsTo(NotTail(lab, lab + 1, lab + 2), lab + 2) == 1
  {
    var c := NotTail(lab, lab + 1, lab + 2);
    assert c[0] == Ifne(lab + 1) && c[3] == Goto(lab + 2);
    Jumps7(c, lab);
    Jumps7(c, lab + 1);
    Jumps7(c, lab + 2);
  }

  // ---------------------------------------------------------------------
  // Concatenations of several pieces

  lemma Marks5(p0: seq<Instr>, p1: seq<Instr>, p2: seq<Instr>, p3: seq<Instr>, p4: seq<Instr>, l: Label)
    ensures MarksOf(p0 + p1 + p2 + p3 + p4, l)
         == MarksOf(p0, l) + MarksOf(p1, l) + MarksOf(p2, l) + MarksOf(p3, l) + MarksOf(p4, l)
  {
    MarksOfAppend(p0, p1, l);
    MarksOfAppend(p0 + p1, p2, l);
    MarksOfAppend(p0 + p1 + p2, p3, l);
    MarksOfAppend(p0 + p1 + p2 + p3, p4, l);
  }

  lemma Jumps5(p0: seq<Instr>, p1: seq<Instr>, p2: seq<Instr>, p3: seq<Instr>, p4: seq<Instr>, l: Label)
    ensures JumpsTo(p0 + p1 + p2 + p3 + p4, l)
         == JumpsTo(p0, l) + JumpsTo(p1, l) + JumpsTo(p2, l) + JumpsTo(p3, l) + JumpsTo(p4, l)
  {
    JumpsToAppend(p0, p1, l);
    JumpsToAppend(p0 + p1, p2, l);
    JumpsToAppend(p0 + p1 + p2, p3, l);
    JumpsToAppend(p0 + p1 + p2 + p3, p4, l);
  }

  lemma Targets5(p0: seq<Instr>, p1: seq<Instr>, p2: seq<Instr>, p3: seq<Instr>, p4: seq<Instr>, lo: Label, n: nat)
    requires TargetsIn(p0, lo, n) && TargetsIn(p1, lo, n) && TargetsIn(p2, lo, n)
    requires TargetsIn(p3, lo, n) && TargetsIn(p4, lo, n)
    ensures TargetsIn(p0 + p1 + p2 + p3 + p4, lo, n)
  {
    TargetsInAppend(p0, p1, lo, n);
    TargetsInAppend(p0 + p1, p2, lo, n);
    TargetsInAppend(p0 + p1 + p2, p3, lo, n);
    TargetsInAppend(p0 + p1 + p2 + p3, p4, lo, n);
  }

  /** The counts of a two-instruction piece. */
  lemma Pair(x: Instr, y: Instr, l: Label)
    ensures MarksOf([x, y], l) == MarkHit(x, l) + MarkHit(y, l)
    ensures JumpsTo([x, y], l) == JumpHit(x, l) + JumpHit(y, l)
  {
    assert [x, y] == [x] + [y] && [x] == [] + [x];
    MarksSnoc([x], y, l);
    MarksSnoc([], x, l);
    JumpsSnoc([x], y, l);
    JumpsSnoc([], x, l);
  }

  // ---------------------------------------------------------------------
  // Every translation uses exactly the labels it takes from the counter

  lemma {:induction false} ExpLabelsOk(e: Ast.Exp, classId: string, t: Table, lab: Label)
    ensures LabelsOk(ExpCode(e, classId, t, lab), lab, ExpLabels(e))
    decreases e, 1
  {
    match e
    case Add(_, _) => BinaryLabelsOk(e, IAdd, classId, t, lab);
    case And(_, _) => BinaryLabelsOk(e, IAnd, classId, t, lab);
    case ArraySelect(_, _) => ArraySelectLabelsOk(e, classId, t, lab);
    case Call(_, _, _, _, _, _) => CallLabelsOk(e, classId, t, lab);
    case Length(_) => UnaryLabelsOk(e, ArrayLength, classId, t, lab);
    case Lt(_, _) => CompareLabelsOk(e, Ificmplt(lab), classId, t, lab);
    case Gt(_, _) => CompareLabelsOk(e, Ificmpgt(lab), classId, t, lab);
    case NewIntArray(_) => UnaryLabelsOk(e, NewArray, classId, t, lab);
    case Not(_) => NotLabelsOk(e, classId, t, lab);
    case Sub(_, _) => BinaryLabelsOk(e, Isub, classId, t, lab);
    case Times(_, _) => BinaryLabelsOk(e, Imul, classId, t, lab);
    case _ => LeafLabelsOk(e, classId, t, lab);
  }

  /** The forms without operands (and the comparisons that emit nothing)
      take no label and place none. */
  lemma LeafLabelsOk(e: Ast.Exp, classId: string, t: Table, lab: Label)
    requires e.False? || e.Id? || e.Le? || e.Ge? || e.Eq? || e.NewObject? || e.Num? || e.StringLiteral?
          || e.This? || e.True?
    ensures LabelsOk(ExpCode(e, classId, t, lab), lab, ExpLabels(e))
  {
    var c := ExpCode(e, classId, t, lab);
    assert |c| <= 2 && forall i :: 0 <= i < |c| ==>
      (c[i].False? || c[i].This? || c[i].GetField? || c[i].Aload? || c[i].Iload? || c[i].New?
       || c[i].LdcInt? || c[i].LdcString? || c[i].True?);
    Plain(c, lab);
  }

  /** `+`, `&&`, `-` and `*`: both operands and one operator. */
  lemma BinaryLabelsOk(e: Ast.Exp, op: Instr, classId: string, t: Table, lab: Label)
    requires e.Add? || e.And? || e.Sub? || e.Times?
    requires !op.LabelJ? && !op.IsJump()
    ensures LabelsOk(BinaryCode(e, op, classId, t, lab), lab, ExpLabels(e))
    decreases e, 0
  {
    ExpLabelsOk(e.left, classId, t, lab);
    ExpLabelsOk(e.right, classId, t, lab + ExpLabels(e.left));
    BinaryJoin(e, op, classId, t, lab);
  }

  /** An arithmetic expression places its operands' labels, in order. */
  lemma BinaryJoin(e: Ast.Exp, op: Instr, classId: string, t: Table, lab: Label)
    requires e.Add? || e.And? || e.Sub? || e.Times?
    requires !op.LabelJ? && !op.IsJump()
    requires LabelsOk(ExpCode(e.left, classId, t, lab), lab, ExpLabels(e.left))
    requires LabelsOk(ExpCode(e.right, classId, t, lab + ExpLabels(e.left)), lab + ExpLabels(e.left),
                      ExpLabels(e.right))
    ensures LabelsOk(BinaryCode(e, op, classId, t, lab), lab, ExpLabels(e))
  {
    var nl, nr := ExpLabels(e.left), ExpLabels(e.right);
    assert ExpLabels(e) == nl + nr;
    var a, b := ExpCode(e.left, classId, t, lab), ExpCode(e.right, classId, t, lab + nl);
    Join(a, b, lab, nl, nr);
    Plain([op], lab + nl + nr);
    Join(a + b, [op], lab, nl + nr, 0);
    LabelsOkSame(a + b + [op], lab, nl + nr + 0, BinaryCode(e, op, classId, t, lab), ExpLabels(e));
  }

  lemma ArraySelectLabelsOk(e: Ast.Exp, classId: string, t: Table, lab: Label)
    requires e.ArraySelect?
    ensures LabelsOk(ArraySelectCode(e, classId, t, lab), lab, ExpLabels(e))
    decreases e, 0
  {
    var a, b := ExpCode(e.arr, classId, t, lab), ExpCode(e.index, classId, t, lab + ExpLabels(e.arr));
    ExpLabelsOk(e.arr, classId, t, lab);
    ExpLabelsOk(e.index, classId, t, lab + ExpLabels(e.arr));
    Join(a, b, lab, ExpLabels(e.arr), ExpLabels(e.index));
    Plain([Iaload], lab + ExpLabels(e.arr) + ExpLabels(e.index));
    Join(a + b, [Iaload], lab, ExpLabels(e.arr) + ExpLabels(e.index), 0);
  }

  lemma UnaryLabelsOk(e: Ast.Exp, op: Instr, classId: string, t: Table, lab: Label)
    requires (e.Length? && op == ArrayLength) || (e.NewIntArray? && op == NewArray)
    ensures LabelsOk(UnaryCode(e, op, classId, t, lab), lab, ExpLabels(e))
    decreases e, 0
  {
    var x := if e.Length? then e.arr else e.exp;
    ExpLabelsOk(x, classId, t, lab);
    Plain([op], lab + ExpLabels(x));
    Join(ExpCode(x, classId, t, lab), [op], lab, ExpLabels(x), 0);
  }

  lemma CallLabelsOk(e: Ast.Exp, classId: string, t: Table, lab: Label)
    requires e.Call?
    ensures LabelsOk(CallCode(e, classId, t, lab), lab, ExpLabels(e))
    decreases e, 0
  {
    var x, a := ExpCode(e.exp, classId, t, lab), ArgsCode(e.args, classId, t, lab + ExpLabels(e.exp));
    var call := [Invokevirtual(e.id, e.cls, LowerTypes(e.at), LowerType(e.rt))];
    ExpLabelsOk(e.exp, classId, t, lab);
    ArgsLabelsOk(e.args, classId, t, lab + ExpLabels(e.exp));
    Join(x, a, lab, ExpLabels(e.exp), ArgsLabels(e.args));
    Plain(call, lab + ExpLabels(e.exp) + ArgsLabels(e.args));
    Join(x + a, call, lab, ExpLabels(e.exp) + ArgsLabels(e.args), 0);
  }

  /** `<` and `>`: the tail holds the three labels taken first, the
      operands the ones after them. */
  lemma CompareLabelsOk(e: Ast.Exp, branch: Instr, classId: string, t: Table, lab: Label)
    requires (e.Lt? || e.Gt?) && (branch == Ificmplt(lab) || branch == Ificmpgt(lab))
    ensures LabelsOk(CompareCode(e, branch, classId, t, lab), lab, ExpLabels(e))
    decreases e, 0
  {
    ExpLabelsOk(e.left, classId, t, lab + 3);
    ExpLabelsOk(e.right, classId, t, lab + 3 + ExpLabels(e.left));
    CompareJoin(e, branch, classId, t, lab);
  }

  /** A comparison places its three labels, then its operands' labels. */
  lemma CompareJoin(e: Ast.Exp, branch: Instr, classId: string, t: Table, lab: Label)
    requires (e.Lt? || e.Gt?) && (branch == Ificmplt(lab) || branch == Ificmpgt(lab))
    requires LabelsOk(ExpCode(e.left, classId, t, lab + 3), lab + 3, ExpLabels(e.left))
    requires LabelsOk(ExpCode(e.right, classId, t, lab + 3 + ExpLabels(e.left)), lab + 3 + ExpLabels(e.left),
                      ExpLabels(e.right))
    ensures LabelsOk(CompareCode(e, branch, classId, t, lab), lab, ExpLabels(e))
  {
    var nl, nr := ExpLabels(e.left), ExpLabels(e.right);
    var a, b := ExpCode(e.left, classId, t, lab + 3), ExpCode(e.right, classId, t, lab + 3 + nl);
    var tail := CompareTail(branch, lab, lab + 1, lab + 2);
    Join(a, b, lab + 3, nl, nr);
    CompareTailLabels(branch, lab);
    JoinSwapped(a + b, tail, lab, 3, nl + nr);
    LabelsOkSame(a + b + tail, lab, 3 + (nl + nr), CompareCode(e, branch, classId, t, lab), ExpLabels(e));
  }

  lemma NotLabelsOk(e: Ast.Exp, classId: string, t: Table, lab: Label)
    requires e.Not?
    ensures LabelsOk(NotCode(e, classId, t, lab), lab, ExpLabels(e))
    decreases e, 0
  {
    ExpLabelsOk(e.exp, classId, t, lab + 3);
    NotTailLabels(lab);
    JoinSwapped(ExpCode(e.exp, classId, t, lab + 3), NotTail(lab, lab + 1, lab + 2), lab, 3, ExpLabels(e.exp));
  }

  lemma {:induction false} ArgsLabelsOk(args: seq<Ast.Exp>, classId: string, t: Table, lab: Label)
    ensures LabelsOk(ArgsCode(args, classId, t, lab), lab, ArgsLabels(args))
  {
    if args == [] {
      Plain([], lab);
    } else {
      var n := |args| - 1;
      ArgsLabelsOk(args[..n], classId, t, lab);
      ExpLabelsOk(args[n], classId, t, lab + ArgsLabels(args[..n]));
      Join(ArgsCode(args[..n], classId, t, lab), ExpCode(args[n], classId, t, lab + ArgsLabels(args[..n])),
           lab, ArgsLabels(args[..n]), ExpLabels(args[n]));
    }
  }

  /** A plain piece, a translated piece and a plain piece. */
  lemma Framed(pre: seq<Instr>, x: seq<Instr>, post: seq<Instr>, lo: Label, n: nat)
    requires forall i :: 0 <= i < |pre| ==> !pre[i].LabelJ? && !pre[i].IsJump()
    requires forall i :: 0 <= i < |post| ==> !post[i].LabelJ? && !post[i].IsJump()
    requires LabelsOk(x, lo, n)
    ensures LabelsOk(pre + x + post, lo, n)
  {
    Plain(pre, lo);
    Join(pre, x, lo, 0, n);
    Plain(post, lo + n);
    Join(pre + x, post, lo, n, 0);
  }

  lemma {:induction false} StmLabelsOk(s: Ast.Stm, classId: string, t: Table, lab: Label)
    ensures LabelsOk(StmCode(s, classId, t, lab), lab, StmLabels(s))
    decreases s, 2
  {
    match s
    case Assign(_, x, _, _, _) =>
      ExpLabelsOk(x, classId, t, lab);
      var code := ExpCode(x, classId, t, lab);
      if s.isField {
        Framed([Line(s.line), This], code, [PutField(FieldSpec(classId, s.id), DescOf(TransformType(s.ty)))], lab, ExpLabels(x));
      } else {
        Framed([Line(s.line)], code, [if Ast.IsReference(s.ty) then Astore(Slot(t, s.id)) else Istore(Slot(t, s.id))], lab, ExpLabels(x));
      }
    case AssignArray(_, _, _, _, _) => AssignArrayLabelsOk(s, classId, t, lab);
    case Block(ss) => StmsLabelsOk(ss, classId, t, lab);
    case If(_, _, _, _) => IfLabelsOk(s, classId, t, lab);
    case Print(x, line) =>
      ExpLabelsOk(x, classId, t, lab);
      Framed([Line(line)], ExpCode(x, classId, t, lab), [Print(PrintFormat(x))], lab, ExpLabels(x));
    case While(_, _, _) => WhileLabelsOk(s, classId, t, lab);
  }

  lemma AssignArrayLabelsOk(s: Ast.Stm, classId: string, t: Table, lab: Label)
    requires s.AssignArray?
    ensures LabelsOk(AssignArrayCode(s, classId, t, lab), lab, StmLabels(s))
    decreases s, 0
  {
    var a := if s.isField then [This, GetField(FieldSpec(classId, s.id), Literal("[I"))] else [Aload(Slot(t, s.id))];
    var i, x := ExpCode(s.index, classId, t, lab), ExpCode(s.exp, classId, t, lab + ExpLabels(s.index));
    ExpLabelsOk(s.index, classId, t, lab);
    ExpLabelsOk(s.exp, classId, t, lab + ExpLabels(s.index));
    Join(i, x, lab, ExpLabels(s.index), ExpLabels(s.exp));
    Framed([Line(s.line)] + a, i + x, [Iastore], lab, ExpLabels(s.index) + ExpLabels(s.exp));
    assert [Line(s.line)] + a + i + x + [Iastore] == [Line(s.line)] + a + (i + x) + [Iastore];
  }

  lemma {:induction false} StmsLabelsOk(ss: seq<Ast.Stm>, classId: string, t: Table, lab: Label)
    ensures LabelsOk(StmsCode(ss, classId, t, lab), lab, StmsLabels(ss))
  {
    if ss == [] {
      Plain([], lab);
    } else {
      var n := |ss| - 1;
      StmsLabelsOk(ss[..n], classId, t, lab);
      StmLabelsOk(ss[n], classId, t, lab + StmsLabels(ss[..n]));
      StmsLast(ss, classId, t, lab);
      JoinInto(StmsCode(ss[..n], classId, t, lab), StmCode(ss[n], classId, t, lab + StmsLabels(ss[..n])),
               lab, StmsLabels(ss[..n]), StmLabels(ss[n]), StmsCode(ss, classId, t, lab), StmsLabels(ss));
    }
  }

  lemma StmsLast(ss: seq<Ast.Stm>, classId: string, t: Table, lab: Label)
    requires ss != []
    ensures StmsCode(ss, classId, t, lab)
         == StmsCode(ss[..|ss| - 1], classId, t, lab) + StmCode(ss[|ss| - 1], classId, t, lab + StmsLabels(ss[..|ss| - 1]))
    ensures StmsLabels(ss) == StmsLabels(ss[..|ss| - 1]) + StmLabels(ss[|ss| - 1])
  {
  }

  /** The instructions of a conditional whose condition, else branch and
      then branch translate to `c`, `el` and `th`. */
  function IfShape(line: int, c: seq<Instr>, el: seq<Instr>, th: seq<Instr>, lab: Label): seq<Instr>
  {
    [Line(line)] + c + [Ifne(lab), LabelJ(lab + 1)] + el + [Goto(lab + 2), LabelJ(lab)] + (th + [Goto(lab + 2), LabelJ(lab + 2)])
  }

  lemma IfPieces(s: Ast.Stm, classId: string, t: Table, lab: Label)
    requires s.If?
    ensures IfCode(s, classId, t, lab)
         == IfShape(s.line, ExpCode(s.condition, classId, t, lab + 3),
                    StmCode(s.elsee, classId, t, lab + 3 + ExpLabels(s.condition)),
                    StmCode(s.thenn, classId, t, lab + 3 + ExpLabels(s.condition) + StmLabels(s.elsee)), lab)
    ensures StmLabels(s) == 3 + ExpLabels(s.condition) + StmLabels(s.elsee) + StmLabels(s.thenn)
    decreases s, 0
  {
  }

  lemma IfMarks(line: int, c: seq<Instr>, el: seq<Instr>, th: seq<Instr>, lab: Label, l: Label)
    ensures MarksOf(IfShape(line, c, el, th, lab), l) == MarksOf(c, l) + MarksOf(el, l) + MarksOf(th, l)
              + (if l == lab || l == lab + 1 || l == lab + 2 then 1 else 0)
  {
    var x0, x1, x2, x3 := [Line(line)], [Ifne(lab), LabelJ(lab + 1)], [Goto(lab + 2), LabelJ(lab)], [Goto(lab + 2), LabelJ(lab + 2)];
    Marks5(x0, c, x1, el, x2, l);
    MarksOfAppend(x0 + c + x1 + el + x2, th + x3, l);
    MarksOfAppend(th, x3, l);
    MarksSnoc([], Line(line), l);
    assert [] + [Line(line)] == x0;
    Pair(Ifne(lab), LabelJ(lab + 1), l);
    Pair(Goto(lab + 2), LabelJ(lab), l);
    Pair(Goto(lab + 2), LabelJ(lab + 2), l);
  }

  lemma IfJumps(line: int, c: seq<Instr>, el: seq<Instr>, th: seq<Instr>, lab: Label, l: Label)
    ensures JumpsTo(IfShape(line, c, el, th, lab), l) == JumpsTo(c, l) + JumpsTo(el, l) + JumpsTo(th, l)
              + (if l == lab then 1 else 0) + (if l == lab + 2 then 2 else 0)
  {
    var x0, x1, x2, x3 := [Line(line)], [Ifne(lab), LabelJ(lab + 1)], [Goto(lab + 2), LabelJ(lab)], [Goto(lab + 2), LabelJ(lab + 2)];
    Jumps5(x0, c, x1, el, x2, l);
    JumpsToAppend(x0 + c + x1 + el + x2, th + x3, l);
    JumpsToAppend(th, x3, l);
    JumpsSnoc([], Line(line), l);
    assert [] + [Line(line)] == x0;
    Pair(Ifne(lab), LabelJ(lab + 1), l);
    Pair(Goto(lab + 2), LabelJ(lab), l);
    Pair(Goto(lab + 2), LabelJ(lab + 2), l);
  }

  /** The labels of the branches follow the three of the conditional. */
  lemma IfShapeOk(line: int, c: seq<Instr>, el: seq<Instr>, th: seq<Instr>, lab: Label, nc: nat, ne: nat, nt: nat)
    requires LabelsOk(c, lab + 3, nc) && LabelsOk(el, lab + 3 + nc, ne) && LabelsOk(th, lab + 3 + nc + ne, nt)
    ensures LabelsOk(IfShape(line, c, el, th, lab), lab, 3 + nc + ne + nt)
  {
    var n := 3 + nc + ne + nt;
    forall l
      ensures MarksOf(IfShape(line, c, el, th, lab), l) == if lab <= l < lab + n then 1 else 0
    {
      IfMarks(line, c, el, th, lab, l);
    }
    var x0, x1, x2, x3 := [Line(line)], [Ifne(lab), LabelJ(lab + 1)], [Goto(lab + 2), LabelJ(lab)], [Goto(lab + 2), LabelJ(lab + 2)];
    TargetsInWiden(c, lab + 3, nc, lab, n);
    TargetsInWiden(el, lab + 3 + nc, ne, lab, n);
    TargetsInWiden(th, lab + 3 + nc + ne, nt, lab, n);
    Targets5(x0, c, x1, el, x2, lab, n);
    TargetsInAppend(th, x3, lab, n);
    TargetsInAppend(x0 + c + x1 + el + x2, th + x3, lab, n);
  }

  lemma IfLabelsOk(s: Ast.Stm, classId: string, t: Table, lab: Label)
    requires s.If?
    ensures LabelsOk(IfCode(s, classId, t, lab), lab, StmLabels(s))
    decreases s, 1
  {
    var nc, ne, nt := ExpLabels(s.condition), StmLabels(s.elsee), StmLabels(s.thenn);
    var c, el, th := ExpCode(s.condition, classId, t, lab + 3), StmCode(s.elsee, classId, t, lab + 3 + nc),
                     StmCode(s.thenn, classId, t, lab + 3 + nc + ne);
    IfPartsLabelsOk(s, classId, t, lab);
    IfPieces(s, classId, t, lab);
    IfShapeOk(s.line, c, el, th, lab, nc, ne, nt);
    LabelsOkSame(IfShape(s.line, c, el, th, lab), lab, 3 + nc + ne + nt, IfCode(s, classId, t, lab), StmLabels(s));
  }

  /** The instructions of a loop whose condition and body translate to
      `c` and `b`. */
  function WhileShape(line: int, c: seq<Instr>, b: seq<Instr>, lab: Label): seq<Instr>
  {
    [Line(line), LabelJ(lab)] + c + [Ifeq(lab + 1)] + b + [Goto(lab), LabelJ(lab + 1)]
  }

  lemma WhilePieces(s: Ast.Stm, classId: string, t: Table, lab: Label)
    requires s.While?
    ensures WhileCode(s, classId, t, lab)
         == WhileShape(s.line, ExpCode(s.condition, classId, t, lab + 2),
                       StmCode(s.body, classId, t, lab + 2 + ExpLabels(s.condition)), lab)
    ensures StmLabels(s) == 2 + ExpLabels(s.condition) + StmLabels(s.body)
    decreases s, 0
  {
  }

  lemma WhileCounts(line: int, c: seq<Instr>, b: seq<Instr>, lab: Label, l: Label)
    ensures MarksOf(WhileShape(line, c, b, lab), l) == MarksOf(c, l) + MarksOf(b, l) + (if l == lab || l == lab + 1 then 1 else 0)
    ensures JumpsTo(WhileShape(line, c, b, lab), l) == JumpsTo(c, l) + JumpsTo(b, l) + (if l == lab || l == lab + 1 then 1 else 0)
  {
    var x0, x1, x2 := [Line(line), LabelJ(lab)], [Ifeq(lab + 1)], [Goto(lab), LabelJ(lab + 1)];
    Marks5(x0, c, x1, b, x2, l);
    Jumps5(x0, c, x1, b, x2, l);
    MarksSnoc([], Ifeq(lab + 1), l);
    JumpsSnoc([], Ifeq(lab + 1), l);
    assert [] + [Ifeq(lab + 1)] == x1;
    Pair(Line(line), LabelJ(lab), l);
    Pair(Goto(lab), LabelJ(lab + 1), l);
  }

  lemma WhileShapeOk(line: int, c: seq<Instr>, b: seq<Instr>, lab: Label, nc: nat, nb: nat)
    requires LabelsOk(c, lab + 2, nc) && LabelsOk(b, lab + 2 + nc, nb)
    ensures LabelsOk(WhileShape(line, c, b, lab), lab, 2 + nc + nb)
  {
    var n := 2 + nc + nb;
    forall l
      ensures MarksOf(WhileShape(line, c, b, lab), l) == if lab <= l < lab + n then 1 else 0
    {
      WhileCounts(line, c, b, lab, l);
    }
    TargetsInWiden(c, lab + 2, nc, lab, n);
    TargetsInWiden(b, lab + 2 + nc, nb, lab, n);
    Targets5([Line(line), LabelJ(lab)], c, [Ifeq(lab + 1)], b, [Goto(lab), LabelJ(lab + 1)], lab, n);
  }

  lemma WhileLabelsOk(s: Ast.Stm, classId: string, t: Table, lab: Label)
    requires s.While?
    ensures LabelsOk(WhileCode(s, classId, t, lab), lab, StmLabels(s))
    decreases s, 0
  {
    var nc := ExpLabels(s.condition);
    ExpLabelsOk(s.condition, classId, t, lab + 2);
    StmLabelsOk(s.body, classId, t, lab + 2 + nc);
    WhilePieces(s, classId, t, lab);
    WhileShapeOk(s.line, ExpCode(s.condition, classId, t, lab + 2), StmCode(s.body, classId, t, lab + 2 + nc), lab,
                 nc, StmLabels(s.body));
  }

  // ---------------------------------------------------------------------
  // The jump structure of the boolean patterns, of `if` and of `while`

  lemma CompareShapeJumps(a: seq<Instr>, b: seq<Instr>, branch: Instr, lab: Label, na: nat, nb: nat)
    requires branch == Ificmplt(lab) || branch == Ificmpgt(lab)
    requires LabelsOk(a, lab + 3, na) && LabelsOk(b, lab + 3 + na, nb)
    ensures var code := a + b + CompareTail(branch, lab, lab + 1, lab + 2);
      && JumpsTo(code, lab) == 1 && JumpsTo(code, lab + 1) == 0 && JumpsTo(code, lab + 2) == 1
      && MarksOf(code, lab) == 1 && MarksOf(code, lab + 1) == 1 && MarksOf(code, lab + 2) == 1
  {
    var tail := CompareTail(branch, lab, lab + 1, lab + 2);
    CompareTailJumps(branch, lab);
    CompareTailLabels(branch, lab);
    forall l | lab <= l < lab + 3
      ensures JumpsTo(a + b + tail, l) == JumpsTo(tail, l) && MarksOf(a + b + tail, l) == MarksOf(tail, l)
    {
      JumpsOutside(a, lab + 3, na, l);
      JumpsOutside(b, lab + 3 + na, nb, l);
      JumpsToAppend(a, b, l);
      JumpsToAppend(a + b, tail, l);
      MarksOfAppend(a, b, l);
      MarksOfAppend(a + b, tail, l);
    }
  }

  /** `x < y` and `x > y`: of the three labels taken first, `tl` and `el`
      are jumped to once each and `fl` never, and each is placed once. */
  lemma CompareJumps(e: Ast.Exp, classId: string, t: Table, lab: Label)
    requires e.Lt? || e.Gt?
    ensures var code := ExpCode(e, classId, t, lab);
      && JumpsTo(code, lab) == 1 && JumpsTo(code, lab + 1) == 0 && JumpsTo(code, lab + 2) == 1
      && MarksOf(code, lab) == 1 && MarksOf(code, lab + 1) == 1 && MarksOf(code, lab + 2) == 1
  {
    var branch := if e.Lt? then Ificmplt(lab) else Ificmpgt(lab);
    var a, b := ExpCode(e.left, classId, t, lab + 3), ExpCode(e.right, classId, t, lab + 3 + ExpLabels(e.left));
    assert ExpCode(e, classId, t, lab) == CompareCode(e, branch, classId, t, lab) == a + b + CompareTail(branch, lab, lab + 1, lab + 2);
    ExpLabelsOk(e.left, classId, t, lab + 3);
    ExpLabelsOk(e.right, classId, t, lab + 3 + ExpLabels(e.left));
    CompareShapeJumps(a, b, branch, lab, ExpLabels(e.left), ExpLabels(e.right));
  }

  /** `!x`: `fl` and `el` are jumped to once each and `tl` never, and each
      is placed once. */
  lemma NotJumps(e: Ast.Exp, classId: string, t: Table, lab: Label)
    requires e.Not?
    ensures var code := ExpCode(e, classId, t, lab);
      && JumpsTo(code, lab) == 0 && JumpsTo(code, lab + 1) == 1 && JumpsTo(code, lab + 2) == 1
      && MarksOf(code, lab) == 1 && MarksOf(code, lab + 1) == 1 && MarksOf(code, lab + 2) == 1
  {
    var a := ExpCode(e.exp, classId, t, lab + 3);
    var tail := NotTail(lab, lab + 1, lab + 2);
    assert ExpCode(e, classId, t, lab) == a + tail;
    ExpLabelsOk(e.exp, classId, t, lab + 3);
    NotTailJumps(lab);
    NotTailLabels(lab);
    forall l | lab <= l < lab + 3
      ensures JumpsTo(a + tail, l) == JumpsTo(tail, l) && MarksOf(a + tail, l) == MarksOf(tail, l)
    {
      JumpsOutside(a, lab + 3, ExpLabels(e.exp), l);
      JumpsToAppend(a, tail, l);
      MarksOfAppend(a, tail, l);
    }
  }

  lemma IfShapeJumps(line: int, c: seq<Instr>, el: seq<Instr>, th: seq<Instr>, lab: Label, nc: nat, ne: nat, nt: nat)
    requires LabelsOk(c, lab + 3, nc) && LabelsOk(el, lab + 3 + nc, ne) && LabelsOk(th, lab + 3 + nc + ne, nt)
    ensures var code := IfShape(line, c, el, th, lab);
      && JumpsTo(code, lab) == 1 && JumpsTo(code, lab + 1) == 0 && JumpsTo(code, lab + 2) == 2
      && MarksOf(code, lab) == 1 && MarksOf(code, lab + 1) == 1 && MarksOf(code, lab + 2) == 1
  {
    forall l | lab <= l < lab + 3
      ensures JumpsTo(c, l) == 0 && JumpsTo(el, l) == 0 && JumpsTo(th, l) == 0
      ensures MarksOf(c, l) == 0 && MarksOf(el, l) == 0 && MarksOf(th, l) == 0
    {
      JumpsOutside(c, lab + 3, nc, l);
      JumpsOutside(el, lab + 3 + nc, ne, l);
      JumpsOutside(th, lab + 3 + nc + ne, nt, l);
    }
    IfJumps(line, c, el, th, lab, lab);
    IfJumps(line, c, el, th, lab, lab + 1);
    IfJumps(line, c, el, th, lab, lab + 2);
    IfMarks(line, c, el, th, lab, lab);
    IfMarks(line, c, el, th, lab, lab + 1);
    IfMarks(line, c, el, th, lab, lab + 2);
  }

  /** A conditional: `tl` is jumped to once (from `ifne`), `fl` never, and
      `el` twice (the `goto` after each branch); each is placed once. */
  lemma IfJumpCounts(s: Ast.Stm, classId: string, t: Table, lab: Label)
    requires s.If?
    ensures var code := IfCode(s, classId, t, lab);
      && JumpsTo(code, lab) == 1 && JumpsTo(code, lab + 1) == 0 && JumpsTo(code, lab + 2) == 2
      && MarksOf(code, lab) == 1 && MarksOf(code, lab + 1) == 1 && MarksOf(code, lab + 2) == 1
  {
    var nc, ne := ExpLabels(s.condition), StmLabels(s.elsee);
    IfPartsLabelsOk(s, classId, t, lab);
    IfPieces(s, classId, t, lab);
    IfShapeJumps(s.line, ExpCode(s.condition, classId, t, lab + 3), StmCode(s.elsee, classId, t, lab + 3 + nc),
                 StmCode(s.thenn, classId, t, lab + 3 + nc + ne), lab, nc, ne, StmLabels(s.thenn));
  }

  /** The condition, the else branch and the then branch of a conditional
      each place their own labels, in that order after the three of the `if`. */
  lemma IfPartsLabelsOk(s: Ast.Stm, classId: string, t: Table, lab: Label)
    requires s.If?
    ensures var nc, ne := ExpLabels(s.condition), StmLabels(s.elsee);
      && LabelsOk(ExpCode(s.condition, classId, t, lab + 3), lab + 3, nc)
      && LabelsOk(StmCode(s.elsee, classId, t, lab + 3 + nc), lab + 3 + nc, ne)
      && LabelsOk(StmCode(s.thenn, classId, t, lab + 3 + nc + ne), lab + 3 + nc + ne, StmLabels(s.thenn))
    decreases s, 0
  {
    var nc, ne := ExpLabels(s.condition), StmLabels(s.elsee);
    ExpLabelsOk(s.condition, classId, t, lab + 3);
    StmLabelsOk(s.elsee, classId, t, lab + 3 + nc);
    StmLabelsOk(s.thenn, classId, t, lab + 3 + nc + ne);
  }

  lemma WhileShapeJumps(line: int, c: seq<Instr>, b: seq<Instr>, lab: Label, nc: nat, nb: nat)
    requires LabelsOk(c, lab + 2, nc) && LabelsOk(b, lab + 2 + nc, nb)
    ensures var code := WhileShape(line, c, b, lab);
      && JumpsTo(code, lab) == 1 && JumpsTo(code, lab + 1) == 1
      && MarksOf(code, lab) == 1 && MarksOf(code, lab + 1) == 1
  {
    JumpsOutside(c, lab + 2, nc, lab);
    JumpsOutside(c, lab + 2, nc, lab + 1);
    JumpsOutside(b, lab + 2 + nc, nb, lab);
    JumpsOutside(b, lab + 2 + nc, nb, lab + 1);
    WhileCounts(line, c, b, lab, lab);
    WhileCounts(line, c, b, lab, lab + 1);
  }

  /** A loop: `wl` is jumped to exactly once, by the `goto` that closes the
      body, and `el` exactly once, by the `ifeq` that leaves it; each is
      placed once. */
  lemma WhileJumpCounts(s: Ast.Stm, classId: string, t: Table, lab: Label)
    requires s.While?
    ensures var code := WhileCode(s, classId, t, lab);
      && JumpsTo(code, lab) == 1 && JumpsTo(code, lab + 1) == 1
      && MarksOf(code, lab) == 1 && MarksOf(code, lab + 1) == 1
  {
    var nc := ExpLabels(s.condition);
    ExpLabelsOk(s.condition, classId, t, lab + 2);
    StmLabelsOk(s.body, classId, t, lab + 2 + nc);
    WhilePieces(s, classId, t, lab);
    WhileShapeJumps(s.line, ExpCode(s.condition, classId, t, lab + 2), StmCode(s.body, classId, t, lab + 2 + nc), lab,
                    nc, StmLabels(s.body));
  }

  // ---------------------------------------------------------------------
  // Methods

  /** A method's instructions use exactly the labels taken while it is
      translated. */
  lemma MethodLabelsOk(m: Ast.Method, classId: string, lab: Label)
    ensures LabelsOk(MethodCode(m, classId, lab), lab, MethodLabels(m))
  {
    var t := Some(Slots(m.formals + m.locals));
    var a, b := StmsCode(m.stms, classId, t, lab), ExpCode(m.retExp, classId, t, lab + StmsLabels(m.stms));
    var ret := [if Ast.IsReference(m.retType) then Areturn else Ireturn];
    StmsLabelsOk(m.stms, classId, t, lab);
    ExpLabelsOk(m.retExp, classId, t, lab + StmsLabels(m.stms));
    Join(a, b, lab, StmsLabels(m.stms), ExpLabels(m.retExp));
    Plain(ret, lab + StmsLabels(m.stms) + ExpLabels(m.retExp));
    Join(a + b, ret, lab, StmsLabels(m.stms) + ExpLabels(m.retExp), 0);
  }
}
