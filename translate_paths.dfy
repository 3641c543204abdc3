/** What the boolean patterns do when they run. After the operands of
    `<`, `>` or `!` have been evaluated, control passes through the seven
    instructions of the pattern's tail; whichever way its one conditional
    branch goes, exactly one boolean is pushed and control leaves the tail
    at its end label. */
module TranslatePaths {
  import opened Bytecode
  import opened TranslateSpec

  /** The position of the first mark of `l` at or after `i`, or `|code|`
      when there is none. */
  function LabelFrom(code: seq<Instr>, l: Label, i: nat): nat
    requires i <= |code|
    decreases |code| - i
  {
    if i == |code| then |code|
    else if code[i] == LabelJ(l) then i
    else LabelFrom(code, l, i + 1)
  }

  /** Where a branch to `l` continues. */
  function LabelAt(code: seq<Instr>, l: Label): nat
  {
    LabelFrom(code, l, 0)
  }

  /** What a run records: the booleans pushed, in order, and whether
      control left the code by its end. */
  datatype Path = Path(pushes: seq<bool>, done: bool)

  /** Runs `code` from `pc` for at most `fuel` steps; every conditional
      branch goes the way `taken` says and a `goto` always jumps. */
  function Run(code: seq<Instr>, pc: nat, taken: bool, fuel: nat): Path
    decreases fuel
  {
    if pc >= |code| then Path([], true)
    else if fuel == 0 then Path([], false)
    else
      var x := code[pc];
      if x == True then Prepend(true, Run(code, pc + 1, taken, fuel - 1))
      else if x == False then Prepend(false, Run(code, pc + 1, taken, fuel - 1))
      else if x.Goto? then Run(code, LabelAt(code, x.target), taken, fuel - 1)
      else if x.IsJump() && taken then Run(code, LabelAt(code, x.target), taken, fuel - 1)
      else Run(code, pc + 1, taken, fuel - 1)
  }

  function Prepend(b: bool, p: Path): Path
  {
    Path([b] + p.pushes, p.done)
  }

  lemma {:induction false} LabelFromIs(code: seq<Instr>, l: Label, i: nat, k: nat)
    requires i <= k < |code| && code[k] == LabelJ(l)
    requires forall j :: i <= j < k ==> code[j] != LabelJ(l)
    ensures LabelFrom(code, l, i) == k
    decreases k - i
  {
    if i < k {
      LabelFromIs(code, l, i + 1, k);
    }
  }

  /** The comparison tail, for any conditional branch to `tl` (`if_icmplt`
      and `if_icmpgt` are two): when the comparison holds, the branch goes to
      `tl` and the tail pushes true; otherwise it falls through to `fl` and
      pushes false. Either way it pushes one boolean and ends at `el`. */
  lemma CompareTailRuns(branch: Instr, lab: Label, taken: bool)
    requires branch.IsJump() && !branch.Goto? && branch.target == lab
    ensures Run(CompareTail(branch, lab, lab + 1, lab + 2), 0, taken, 7) == Path([taken], true)
  {
    var c := CompareTail(branch, lab, lab + 1, lab + 2);
    LabelFromIs(c, lab, 0, 4);
    LabelFromIs(c, lab + 2, 0, 6);
    if taken {
      assert Run(c, 0, taken, 7) == Run(c, 4, taken, 6);
      assert Run(c, 4, taken, 6) == Run(c, 5, taken, 5);
      assert Run(c, 6, taken, 4) == Path([], true);
      assert Run(c, 5, taken, 5) == Prepend(true, Run(c, 6, taken, 4));
    } else {
      assert Run(c, 0, taken, 7) == Run(c, 1, taken, 6);
      assert Run(c, 1, taken, 6) == Run(c, 2, taken, 5);
      assert Run(c, 3, taken, 4) == Run(c, 6, taken, 3);
      assert Run(c, 6, taken, 3) == Path([], true);
      assert Run(c, 2, taken, 5) == Prepend(false, Run(c, 3, taken, 4));
    }
  }

  /** The negation tail: a non-zero operand takes `ifne` to `fl` and
      pushes false, zero falls through to `tl` and pushes true; one boolean
      either way, ending at `el`. */
  lemma NotTailRuns(lab: Label, taken: bool)
    ensures Run(NotTail(lab, lab + 1, lab + 2), 0, taken, 7) == Path([!taken], true)
  {
    var c := NotTail(lab, lab + 1, lab + 2);
    LabelFromIs(c, lab + 1, 0, 4);
    LabelFromIs(c, lab + 2, 0, 6);
    if taken {
      assert Run(c, 0, taken, 7) == Run(c, 4, taken, 6);
      assert Run(c, 4, taken, 6) == Run(c, 5, taken, 5);
      assert Run(c, 6, taken, 4) == Path([], true);
      assert Run(c, 5, taken, 5) == Prepend(false, Run(c, 6, taken, 4));
    } else {
      assert Run(c, 0, taken, 7) == Run(c, 1, taken, 6);
      assert Run(c, 1, taken, 6) == Run(c, 2, taken, 5);
      assert Run(c, 3, taken, 4) == Run(c, 6, taken, 3);
      assert Run(c, 6, taken, 3) == Path([], true);
      assert Run(c, 2, taken, 5) == Prepend(true, Run(c, 3, taken, 4));
    }
  }
}
