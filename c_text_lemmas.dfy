/** Facts about the C text: one-step unfoldings of the folded lists,
    which the visitor's loops use, and the properties of the layout the
    printer promises. */
module CTextLemmas {
  import opened Cfg
  import opened CText

  // ---------------------------------------------------------------------
  // One element more: the text of the first k + 1 elements of a list

  lemma ArgsStep(args: seq<Operand>, k: nat)
    requires k < |args|
    ensures ArgsText(args[..k + 1]) == ArgsText(args[..k]) + ", " + OperandText(args[k])
  {
    assert args[..k + 1][..k] == args[..k];
  }

  lemma StmsStep(ss: seq<Stm>, k: nat)
    requires k < |ss|
    ensures StmsText(ss[..k + 1]) == StmsText(ss[..k]) + StmText(ss[k]) + "\n"
  {
    assert ss[..k + 1][..k] == ss[..k];
  }

  lemma BlocksStep(bs: seq<Block>, k: nat)
    requires k < |bs|
    ensures BlocksText(bs[..k + 1]) == BlocksText(bs[..k]) + BlockText(bs[k])
  {
    assert bs[..k + 1][..k] == bs[..k];
  }

  lemma LocalsStep(ds: seq<Dec>, k: nat)
    requires k < |ds|
    ensures LocalsText(ds[..k + 1]) == LocalsText(ds[..k]) + "  " + TypeText(ds[k].ty) + (" " + ds[k].id + ";\n")
  {
    assert ds[..k + 1][..k] == ds[..k];
  }

  lemma MainLocalsStep(ds: seq<Dec>, k: nat)
    requires k < |ds|
    ensures MainLocalsText(ds[..k + 1]) == MainLocalsText(ds[..k]) + "  " + TypeText(ds[k].ty) + " " + Ln(ds[k].id + ";")
  {
    assert ds[..k + 1][..k] == ds[..k];
  }

  lemma SlotsStep(ts: seq<Ftuple>, k: nat)
    requires k < |ts|
    ensures SlotsText(ts[..k + 1]) == SlotsText(ts[..k]) + "  " + TypeText(ts[k].ret) + Ln(" (*" + ts[k].id + ")();")
  {
    assert ts[..k + 1][..k] == ts[..k];
  }

  lemma EntriesStep(ts: seq<Ftuple>, k: nat)
    requires k < |ts|
    ensures EntriesText(ts[..k + 1]) == EntriesText(ts[..k]) + "  " + Ln(ts[k].classs + "_" + ts[k].id + ",")
  {
    assert ts[..k + 1][..k] == ts[..k];
  }

  lemma FieldsStep(fs: seq<Field>, k: nat)
    requires k < |fs|
    ensures FieldsText(fs[..k + 1]) == FieldsText(fs[..k]) + "  " + TypeText(fs[k].ty) + " " + Ln(fs[k].id + ";")
  {
    assert fs[..k + 1][..k] == fs[..k];
  }

  lemma ClassesStep(cs: seq<Class>, k: nat)
    requires k < |cs|
    ensures ClassesText(cs[..k + 1]) == ClassesText(cs[..k]) + ClassText(cs[k])
  {
    assert cs[..k + 1][..k] == cs[..k];
  }

  lemma VtablesStep(vs: seq<Vtable>, k: nat)
    requires k < |vs|
    ensures VtablesText(vs[..k + 1]) == VtablesText(vs[..k]) + VtableText(vs[k])
  {
    assert vs[..k + 1][..k] == vs[..k];
  }

  lemma VtableInitsStep(vs: seq<Vtable>, k: nat)
    requires k < |vs|
    ensures VtableInitsText(vs[..k + 1]) == VtableInitsText(vs[..k]) + VtableInitText(vs[k])
  {
    assert vs[..k + 1][..k] == vs[..k];
  }

  lemma MethodsStep(ms: seq<Method>, k: nat)
    requires k < |ms|
    ensures MethodsText(ms[..k + 1]) == MethodsText(ms[..k]) + MethodText(ms[k])
  {
    assert ms[..k + 1][..k] == ms[..k];
  }

  /** The formals add a separator only between two formals. */
  lemma FormalsStep(ds: seq<Dec>, k: nat)
    requires k < |ds|
    ensures FormalsText(ds[..k + 1]) == (FormalsText(ds[..k]) + (if 0 < k then ", " else "")) + DecText(ds[k])
  {
    var p := ds[..k + 1];
    assert p[..k] == ds[..k] && p[k] == ds[k];
    if k == 0 {
      assert FormalsText(ds[..k]) == "";
    }
  }

  // ---------------------------------------------------------------------
  // Integer.toString is read back by parsing it

  function DigitValue(c: char): int
  {
    c as int - '0' as int
  }

  predicate IsDigit(c: char)
  {
    '0' <= c <= '9'
  }

  /** Decimal digits, most significant first. */
  function ParseNat(s: string): int
  {
    if s == [] then 0 else 10 * ParseNat(s[..|s| - 1]) + DigitValue(s[|s| - 1])
  }

  /** An optional minus sign, then decimal digits. */
  function ParseInt(s: string): int
  {
    if |s| > 0 && s[0] == '-' then -ParseNat(s[1..]) else ParseNat(s)
  }

  lemma {:induction false} NatTextDigits(n: nat)
    ensures |NatText(n)| > 0
    ensures forall k :: 0 <= k < |NatText(n)| ==> IsDigit(NatText(n)[k])
    ensures ParseNat(NatText(n)) == n
    decreases n
  {
    if n >= 10 {
      NatTextDigits(n / 10);
      var s := NatText(n);
      assert s[..|s| - 1] == NatText(n / 10);
    }
  }

  /** Integer.toString is one-to-one: parsing its text gives the value back. */
  lemma IntTextRoundTrip(i: int)
    ensures ParseInt(IntText(i)) == i
    ensures |IntText(i)| > 0
    ensures forall k :: 0 <= k < |IntText(i)| ==> IsDigit(IntText(i)[k]) || (k == 0 && i < 0 && IntText(i)[k] == '-')
  {
    if i < 0 {
      NatTextDigits(-i);
      assert IntText(i)[1..] == NatText(-i);
    } else {
      NatTextDigits(i);
    }
  }

  lemma IntTextInjective(i: int, j: int)
    requires IntText(i) == IntText(j)
    ensures i == j
  {
    IntTextRoundTrip(i);
    IntTextRoundTrip(j);
  }

  // ---------------------------------------------------------------------
  // Lists separated by ", " (formals, call arguments)

  /** The reference reading of a separated list: the items in order with
      `", "` between neighbours and none after the last. */
  function Join(xs: seq<string>): string
  {
    if xs == [] then ""
    else if |xs| == 1 then xs[0]
    else xs[0] + ", " + Join(xs[1..])
  }

  /** Reads a `", "`-separated list back into its items; `cur` is the item
      read so far. */
  function SplitFrom(s: string, cur: string): seq<string>
    decreases |s|
  {
    if s == [] then [cur]
    else if |s| >= 2 && s[0] == ',' && s[1] == ' ' then [cur] + SplitFrom(s[2..], "")
    else SplitFrom(s[1..], cur + [s[0]])
  }

  function SplitSep(s: string): seq<string>
  {
    if s == [] then [] else SplitFrom(s, "")
  }

  predicate NoComma(s: string)
  {
    forall k :: 0 <= k < |s| ==> s[k] != ','
  }

  /** Items that can be read back: not empty and without a comma. */
  predicate Separable(xs: seq<string>)
  {
    forall i :: 0 <= i < |xs| ==> xs[i] != "" && NoComma(xs[i])
  }

  lemma JoinSnoc(xs: seq<string>, y: string)
    requires xs != []
    ensures Join(xs + [y]) == Join(xs) + ", " + y
    decreases |xs|
  {
    if |xs| == 1 {
      assert xs + [y] == [xs[0], y];
      assert [xs[0], y][1..] == [y];
    } else {
      assert (xs + [y])[1..] == xs[1..] + [y];
      JoinSnoc(xs[1..], y);
    }
  }

  lemma {:induction false} SplitItem(x: string, rest: string, cur: string)
    requires NoComma(x)
    ensures SplitFrom(x + rest, cur) == SplitFrom(rest, cur + x)
    decreases |x|
  {
    if x == [] {
      assert x + rest == rest;
      assert cur + x == cur;
    } else {
      assert (x + rest)[1..] == x[1..] + rest;
      assert cur + [x[0]] + x[1..] == cur + x;
      SplitItem(x[1..], rest, cur + [x[0]]);
    }
  }

  /** Splitting a joined list gives the items back. */
  lemma {:induction false} SplitJoin(xs: seq<string>)
    requires Separable(xs)
    ensures SplitSep(Join(xs)) == xs
    decreases |xs|
  {
    if |xs| == 1 {
      SplitItem(xs[0], "", "");
      assert xs[0] + "" == xs[0] && "" + xs[0] == xs[0];
      assert SplitSep(Join(xs)) == SplitFrom("", xs[0]) == [xs[0]];
      assert xs == [xs[0]];
    } else if |xs| > 1 {
      var r := Join(xs[1..]);
      assert Separable(xs[1..]);
      SplitJoin(xs[1..]);
      SplitItem(xs[0], ", " + r, "");
      assert xs[0] + ", " + r == xs[0] + (", " + r);
      assert (", " + r)[2..] == r;
      assert r != [] by { JoinNonEmpty(xs[1..]); }
      assert "" + xs[0] == xs[0];
      calc {
        SplitSep(Join(xs));
        SplitFrom(xs[0] + (", " + r), "");
        SplitFrom(", " + r, xs[0]);
        [xs[0]] + SplitFrom(r, "");
        [xs[0]] + xs[1..];
      }
      assert xs == [xs[0]] + xs[1..];
    }
  }

  lemma JoinNonEmpty(xs: seq<string>)
    requires Separable(xs) && xs != []
    ensures Join(xs) != []
  {
    if |xs| > 1 {
      assert |Join(xs)| >= |xs[0]|;
    }
  }

  function DecTexts(ds: seq<Dec>): seq<string>
  {
    seq(|ds|, i requires 0 <= i < |ds| => DecText(ds[i]))
  }

  /** The formals are the declarations in order, separated by `", "`. */
  lemma {:induction false} FormalsJoin(ds: seq<Dec>)
    ensures FormalsText(ds) == Join(DecTexts(ds))
    decreases |ds|
  {
    if |ds| > 1 {
      var p := ds[..|ds| - 1];
      FormalsJoin(p);
      assert DecTexts(ds) == DecTexts(p) + [DecText(ds[|ds| - 1])];
      JoinSnoc(DecTexts(p), DecText(ds[|ds| - 1]));
    }
  }

  /** So the formals can be read back one declaration at a time. */
  lemma FormalsSplit(ds: seq<Dec>)
    requires forall i :: 0 <= i < |ds| ==> NoComma(DecText(ds[i]))
    ensures SplitSep(FormalsText(ds)) == DecTexts(ds)
  {
    FormalsJoin(ds);
    forall i | 0 <= i < |ds|
      ensures DecTexts(ds)[i] != "" && NoComma(DecTexts(ds)[i])
    {
      assert |DecText(ds[i])| > 0;
    }
    SplitJoin(DecTexts(ds));
  }

  function OperandTexts(args: seq<Operand>): seq<string>
  {
    seq(|args|, i requires 0 <= i < |args| => OperandText(args[i]))
  }

  /** The parenthesised list of a virtual call: the receiver first, then
      the arguments in order. */
  lemma {:induction false} CallArgsJoin(obj: string, args: seq<Operand>)
    ensures obj + ArgsText(args) == Join([obj] + OperandTexts(args))
    decreases |args|
  {
    if args == [] {
      assert [obj] + OperandTexts(args) == [obj];
    } else {
      var p := args[..|args| - 1];
      CallArgsJoin(obj, p);
      assert [obj] + OperandTexts(args) == ([obj] + OperandTexts(p)) + [OperandText(args[|args| - 1])];
      JoinSnoc([obj] + OperandTexts(p), OperandText(args[|args| - 1]));
    }
  }

  // ---------------------------------------------------------------------
  // Types and declarations can be read back

  /** Different types are printed differently. */
  lemma TypeTextInjective(a: Type, b: Type)
    requires TypeText(a) == TypeText(b)
    ensures a == b
  {
    var s := TypeText(a);
    if a.ClassType? && b.ClassType? {
      assert s[7..|s| - 2] == a.id;
      assert s[7..|s| - 2] == b.id;
    }
  }

  /** Where the separating space of `x + (" " + u)` is, and what follows it. */
  lemma SpacedAt(x: string, u: string, k: int)
    ensures (x + (" " + u))[|x|] == ' '
    ensures |x| < k < |x| + 1 + |u| ==> (x + (" " + u))[k] == u[k - |x| - 1]
  {
  }

  lemma {:induction false} LastSpace(x: string, u: string, y: string, v: string)
    requires x + (" " + u) == y + (" " + v)
    requires ' ' !in u && ' ' !in v
    ensures x == y && u == v
  {
    var s := x + (" " + u);
    var n := |s|;
    if |u| < |v| {
      SpacedAt(x, u, 0);
      SpacedAt(y, v, |x|);
      assert false;
    } else if |v| < |u| {
      SpacedAt(y, v, 0);
      SpacedAt(x, u, |y|);
      assert false;
    }
    assert u == s[n - |u|..] == v;
    assert x == s[..|x|] == y;
  }

  /** A declaration is read back from its text when names have no space:
      the name is what follows the last space, the type what precedes it. */
  lemma DecTextInjective(a: Dec, b: Dec)
    requires DecText(a) == DecText(b)
    requires ' ' !in a.id && ' ' !in b.id
    ensures a == b
  {
    LastSpace(TypeText(a.ty), a.id, TypeText(b.ty), b.id);
    TypeTextInjective(a.ty, b.ty);
  }
}
