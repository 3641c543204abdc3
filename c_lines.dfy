/** The printer's output read as lines: for each node, the list of lines
    its text consists of, and the facts that make the text readable line
    by line (the vtable pointer is a class's first member, a vtable type
    and its initialiser list the same slots in the same order, every
    method jumps to its entry block before any block is printed). */
module CLines {
  import opened Cfg
  import opened CText
  import CTextLemmas

  /** The text of a list of lines: each line followed by a newline. */
  function Lines(ls: seq<string>): string
  {
    if ls == [] then "" else Lines(ls[..|ls| - 1]) + Ln(ls[|ls| - 1])
  }

  /** Reads a text back into its lines; `cur` is the line read so far. A
      last line without a newline still counts as a line. */
  function LinesFrom(s: string, cur: string): seq<string>
    decreases |s|
  {
    if s == [] then (if cur == [] then [] else [cur])
    else if s[0] == '\n' then [cur] + LinesFrom(s[1..], [])
    else LinesFrom(s[1..], cur + [s[0]])
  }

  function SplitLines(s: string): seq<string>
  {
    LinesFrom(s, [])
  }

  predicate NoNewline(s: string)
  {
    '\n' !in s
  }

  predicate AllNoNewline(ls: seq<string>)
  {
    forall i :: 0 <= i < |ls| ==> NoNewline(ls[i])
  }

  // ---------------------------------------------------------------------
  // Lines and SplitLines

  lemma LinesSnoc(ls: seq<string>, l: string)
    ensures Lines(ls + [l]) == Lines(ls) + Ln(l)
  {
    assert (ls + [l])[..|ls|] == ls;
  }

  lemma {:induction false} LinesAppend(a: seq<string>, b: seq<string>)
    ensures Lines(a + b) == Lines(a) + Lines(b)
    decreases |b|
  {
    if b == [] {
      assert a + b == a;
    } else {
      var p := b[..|b| - 1];
      assert a + b == (a + p) + [b[|b| - 1]];
      assert b == p + [b[|b| - 1]];
      LinesSnoc(a + p, b[|b| - 1]);
      LinesSnoc(p, b[|b| - 1]);
      LinesAppend(a, p);
      Assoc(Lines(a), Lines(p), Ln(b[|b| - 1]));
    }
  }

  lemma {:induction false} LineItem(x: string, rest: string, cur: string)
    requires NoNewline(x)
    ensures LinesFrom(x + rest, cur) == LinesFrom(rest, cur + x)
    decreases |x|
  {
    if x == [] {
      assert x + rest == rest;
      assert cur + x == cur;
    } else {
      assert (x + rest)[1..] == x[1..] + rest;
      assert cur + [x[0]] + x[1..] == cur + x;
      assert x[0] in x;
      LineItem(x[1..], rest, cur + [x[0]]);
    }
  }

  lemma {:induction false} LinesFromLines(ls: seq<string>, rest: string)
    requires AllNoNewline(ls)
    ensures LinesFrom(Lines(ls) + rest, []) == ls + LinesFrom(rest, [])
    decreases |ls|
  {
    if ls == [] {
      assert Lines(ls) + rest == rest;
    } else {
      var p, l := ls[..|ls| - 1], ls[|ls| - 1];
      assert AllNoNewline(p);
      Assoc(Lines(p), Ln(l), rest);
      LinesFromLines(p, Ln(l) + rest);
      Assoc(l, "\n", rest);
      LineItem(l, "\n" + rest, []);
      assert [] + l == l;
      assert ("\n" + rest)[1..] == rest;
      assert ls == p + [l];
    }
  }

  /** A text made of newline-free lines splits back into exactly those lines. */
  lemma SplitLinesLines(ls: seq<string>)
    requires AllNoNewline(ls)
    ensures SplitLines(Lines(ls)) == ls
  {
    LinesFromLines(ls, "");
    assert Lines(ls) + "" == Lines(ls);
    assert ls + [] == ls;
  }

  // ---------------------------------------------------------------------
  // Classes

  function FieldLine(f: Field): string
  {
    "  " + TypeText(f.ty) + " " + f.id + ";"
  }

  function FieldLines(fs: seq<Field>): seq<string>
  {
    seq(|fs|, i requires 0 <= i < |fs| => FieldLine(fs[i]))
  }

  function VptrLine(id: string): string
  {
    "  struct " + id + "_vtable *vptr;"
  }

  /** A class struct: its name, the vtable pointer, then the fields in order. */
  function ClassLines(c: Class): seq<string>
  {
    ["struct " + c.id, "{", VptrLine(c.id)] + FieldLines(c.decs) + ["};"]
  }

  lemma {:induction false} FieldsLines(fs: seq<Field>)
    ensures FieldsText(fs) == Lines(FieldLines(fs))
    decreases |fs|
  {
    if fs != [] {
      var p, f := fs[..|fs| - 1], fs[|fs| - 1];
      FieldsLines(p);
      assert FieldLines(fs) == FieldLines(p) + [FieldLine(f)];
      LinesSnoc(FieldLines(p), FieldLine(f));
      var l, t, x := FieldsText(p), "  " + TypeText(f.ty) + " ", f.id + (";" + "\n");
      Assoc(f.id, ";", "\n");
      Assoc(l, "  ", TypeText(f.ty));
      Assoc(l, "  " + TypeText(f.ty), " ");
      Assoc(t + f.id, ";", "\n");
      Assoc(t, f.id, ";" + "\n");
      Assoc(l, t, x);
    }
  }

  lemma Lines2(a: string, b: string)
    ensures Lines([a, b]) == Ln(a) + Ln(b)
  {
    assert [a, b][..1] == [a];
    assert [a][..0] == [];
    assert Lines([a]) == "" + Ln(a) == Ln(a);
  }

  lemma Lines3(a: string, b: string, c: string)
    ensures Lines([a, b, c]) == Ln(a) + Ln(b) + Ln(c)
  {
    assert [a, b, c][..2] == [a, b];
    Lines2(a, b);
  }

  lemma ClassLayout(c: Class)
    ensures ClassText(c) == Lines(ClassLines(c))
  {
    var h := ["struct " + c.id, "{", VptrLine(c.id)];
    Lines3("struct " + c.id, "{", VptrLine(c.id));
    FieldsLines(c.decs);
    LinesAppend(h, FieldLines(c.decs));
    LinesSnoc(h + FieldLines(c.decs), "};");
  }

  predicate TypeNoNewline(t: Type)
  {
    t.ClassType? ==> NoNewline(t.id)
  }

  /** Class and field names, and the classes named by field types, are single-line. */
  predicate ClassNoNewline(c: Class)
  {
    NoNewline(c.id) && forall i :: 0 <= i < |c.decs| ==> NoNewline(c.decs[i].id) && TypeNoNewline(c.decs[i].ty)
  }

  lemma TypeTextNoNewline(t: Type)
    requires TypeNoNewline(t)
    ensures NoNewline(TypeText(t))
  {
  }

  lemma ClassLinesNoNewline(c: Class)
    requires ClassNoNewline(c)
    ensures AllNoNewline(ClassLines(c))
  {
    var ls := ClassLines(c);
    forall i | 0 <= i < |ls|
      ensures NoNewline(ls[i])
    {
      if 3 <= i < |ls| - 1 {
        var f := c.decs[i - 3];
        assert ls[i] == FieldLine(f);
        TypeTextNoNewline(f.ty);
      }
    }
  }

  /** Read line by line, a class struct has its vtable pointer on line 2,
      before every field, and field i on line 3 + i. */
  lemma ClassLinesAt(c: Class)
    requires ClassNoNewline(c)
    ensures var ls := SplitLines(ClassText(c));
      |ls| == |c.decs| + 4 && ls[0] == "struct " + c.id && ls[2] == VptrLine(c.id)
      && (forall i :: 0 <= i < |c.decs| ==> ls[3 + i] == FieldLine(c.decs[i]))
      && ls[|ls| - 1] == "};"
  {
    ClassLayout(c);
    ClassLinesNoNewline(c);
    SplitLinesLines(ClassLines(c));
  }

  // ---------------------------------------------------------------------
  // Vtables

  function SlotLine(t: Ftuple): string
  {
    "  " + TypeText(t.ret) + (" (*" + t.id + ")();")
  }

  function EntryLine(t: Ftuple): string
  {
    "  " + t.classs + "_" + t.id + ","
  }

  /** The vtable struct type: one function-pointer member per slot. */
  function VtableLines(v: Vtable): seq<string>
  {
    ["struct " + v.id + "_vtable", "{"] + SlotLines(v.ms) + ["};", ""]
  }

  /** The vtable instance: one initialiser per slot. */
  function VtableInitLines(v: Vtable): seq<string>
  {
    ["struct " + v.id + "_vtable " + v.id + "_vtable_ = ", "{"] + EntryLines(v.ms) + ["};", ""]
  }

  function SlotLines(ts: seq<Ftuple>): seq<string>
  {
    seq(|ts|, i requires 0 <= i < |ts| => SlotLine(ts[i]))
  }

  function EntryLines(ts: seq<Ftuple>): seq<string>
  {
    seq(|ts|, i requires 0 <= i < |ts| => EntryLine(ts[i]))
  }

  lemma {:induction false} SlotsLines(ts: seq<Ftuple>)
    ensures SlotsText(ts) == Lines(SlotLines(ts))
    decreases |ts|
  {
    if ts != [] {
      var p, t := ts[..|ts| - 1], ts[|ts| - 1];
      SlotsLines(p);
      assert SlotLines(ts) == SlotLines(p) + [SlotLine(t)];
      LinesSnoc(SlotLines(p), SlotLine(t));
      var l, a, y := SlotsText(p), "  " + TypeText(t.ret), " (*" + t.id + ")();";
      Assoc(a, y, "\n");
      Assoc(l, "  ", TypeText(t.ret));
      Assoc(l, a, Ln(y));
    }
  }

  lemma {:induction false} EntriesLines(ts: seq<Ftuple>)
    ensures EntriesText(ts) == Lines(EntryLines(ts))
    decreases |ts|
  {
    if ts != [] {
      var p, t := ts[..|ts| - 1], ts[|ts| - 1];
      EntriesLines(p);
      assert EntryLines(ts) == EntryLines(p) + [EntryLine(t)];
      LinesSnoc(EntryLines(p), EntryLine(t));
      var l, y := EntriesText(p), t.classs + "_" + t.id + ",";
      Assoc("  ", y, "\n");
      Assoc(l, "  ", Ln(y));
    }
  }

  /** Two lines, then a list of lines, then `};` and an empty line: the
      shape of both vtable texts. */
  lemma Framed(a: string, b: string, body: seq<string>)
    ensures Lines([a, b] + body + ["};", ""]) == Ln(a) + Ln(b) + Lines(body) + Ln("};\n")
  {
    Lines2(a, b);
    LinesAppend([a, b], body);
    var l := Lines([a, b] + body);
    LinesSnoc([a, b] + body, "};");
    LinesSnoc([a, b] + body + ["};"], "");
    assert [a, b] + body + ["};", ""] == [a, b] + body + ["};"] + [""];
    assert Ln("};\n") == Ln("};") + Ln("");
    Assoc(l, Ln("};"), Ln(""));
  }

  lemma VtableLayout(v: Vtable)
    ensures VtableText(v) == Lines(VtableLines(v))
    ensures VtableInitText(v) == Lines(VtableInitLines(v))
  {
    SlotsLines(v.ms);
    Framed("struct " + v.id + "_vtable", "{", SlotLines(v.ms));
    EntriesLines(v.ms);
    Framed("struct " + v.id + "_vtable " + v.id + "_vtable_ = ", "{", EntryLines(v.ms));
  }

  predicate VtableNoNewline(v: Vtable)
  {
    NoNewline(v.id)
    && forall i :: 0 <= i < |v.ms| ==> NoNewline(v.ms[i].classs) && NoNewline(v.ms[i].id) && TypeNoNewline(v.ms[i].ret)
  }

  lemma SlotLineNoNewline(t: Ftuple)
    requires TypeNoNewline(t.ret) && NoNewline(t.id)
    ensures NoNewline(SlotLine(t))
  {
    TypeTextNoNewline(t.ret);
  }

  lemma VtableLinesNoNewline(v: Vtable)
    requires VtableNoNewline(v)
    ensures AllNoNewline(VtableLines(v)) && AllNoNewline(VtableInitLines(v))
  {
    var a, b := VtableLines(v), VtableInitLines(v);
    assert |a| == |b| == |v.ms| + 4;
    forall i | 2 <= i < |a| - 2
      ensures NoNewline(a[i])
    {
      assert a[i] == SlotLine(v.ms[i - 2]);
      SlotLineNoNewline(v.ms[i - 2]);
    }
    forall i | 2 <= i < |b| - 2
      ensures NoNewline(b[i])
    {
      assert b[i] == EntryLine(v.ms[i - 2]);
    }
    assert NoNewline(a[0]) && NoNewline(a[1]) && NoNewline(a[|a| - 2]) && NoNewline(a[|a| - 1]);
    assert NoNewline(b[0]) && NoNewline(b[1]) && NoNewline(b[|b| - 2]) && NoNewline(b[|b| - 1]);
  }

  /** A vtable type and its instance have the same number of lines, and
      line 2 + i of each is about slot i: member and initialiser line up. */
  lemma VtableAligned(v: Vtable)
    requires VtableNoNewline(v)
    ensures var a, b := SplitLines(VtableText(v)), SplitLines(VtableInitText(v));
      |a| == |b| == |v.ms| + 4
      && forall i :: 0 <= i < |v.ms| ==> a[2 + i] == SlotLine(v.ms[i]) && b[2 + i] == EntryLine(v.ms[i])
  {
    VtableLayout(v);
    VtableLinesNoNewline(v);
    SplitLinesLines(VtableLines(v));
    SplitLinesLines(VtableInitLines(v));
  }

  lemma Lines1(a: string)
    ensures Lines([a]) == Ln(a)
  {
    assert [a][..0] == [];
    assert "" + Ln(a) == Ln(a);
  }

  // ---------------------------------------------------------------------
  // Statements, transfers and blocks

  /** A statement's own line; Print and NewIntArray end theirs with
      `sayln`, so the newline the block adds leaves an empty line. */
  function StmLines(s: Stm): seq<string>
  {
    match s
    case Print(arg) => ["  " + "System_out_println (" + OperandText(arg) + ");", ""]
    case NewIntArray(dst, length) => ["  " + (dst + " = Tiger_new_array(" + length + ");"), ""]
    case _ => [StmText(s)]
  }

  /** If: the test, the jump to the true label, `else`, the jump to the
      false label. Goto and Return: one line. */
  function TransferLines(t: Transfer): seq<string>
  {
    match t
    case If(op, tl, fl) =>
      ["  " + "if (" + OperandText(op) + ")", "  " + ("  goto " + tl + ";"), "  " + "else", "  " + ("  goto " + fl + ";")]
    case Goto(l) => ["  " + ("goto " + l + ";")]
    case Return(op) => ["  " + "return " + OperandText(op) + ";"]
  }

  function StmsLines(ss: seq<Stm>): seq<string>
  {
    if ss == [] then [] else StmsLines(ss[..|ss| - 1]) + StmLines(ss[|ss| - 1])
  }

  /** A block: its label line, its statements, its transfer. */
  function BlockLines(b: Block): seq<string>
  {
    [b.name + ":"] + StmsLines(b.stms) + TransferLines(b.transfer)
  }

  function BlocksLines(bs: seq<Block>): seq<string>
  {
    if bs == [] then [] else BlocksLines(bs[..|bs| - 1]) + BlockLines(bs[|bs| - 1])
  }

  /** `StmText(s)` and the newline after it are these lines. */
  lemma StmLayout(s: Stm)
    ensures StmText(s) + "\n" == Lines(StmLines(s))
  {
    Lines2(StmLines(s)[0], "");
    assert Ln("") == "\n";
    match s
    case Print(arg) =>
      var x := "  " + "System_out_println (" + OperandText(arg);
      Assoc(x, ");", "\n");
    case NewIntArray(dst, length) =>
      Assoc("  ", dst + " = Tiger_new_array(" + length + ");", "\n");
    case _ =>
      Lines1(StmText(s));
  }

  lemma TransferLayout(t: Transfer)
    ensures TransferText(t) == Lines(TransferLines(t))
  {
    match t
    case If(op, tl, fl) =>
      var a, b, c, d := "  " + "if (" + OperandText(op) + ")", "  " + ("  goto " + tl + ";"),
                        "  " + "else", "  " + ("  goto " + fl + ";");
      var ls := [a, b, c, d];
      assert ls[..3] == [a, b, c];
      Lines3(a, b, c);
      var x := "  " + "if (" + OperandText(op);
      assert ")\n" == ")" + "\n" && ";\n" == ";" + "\n" && "else\n" == "else" + "\n";
      Assoc(x, ")", "\n");
      Assoc("  goto " + tl, ";", "\n");
      Assoc("  ", "  goto " + tl + ";", "\n");
      Assoc(Ln(a), "  ", Ln("  goto " + tl + ";"));
      Assoc("  ", "else", "\n");
      Assoc(Ln(a) + Ln(b), "  ", "else\n");
      Assoc("  goto " + fl, ";", "\n");
      Assoc("  ", "  goto " + fl + ";", "\n");
      Assoc(Ln(a) + Ln(b) + Ln(c), "  ", Ln("  goto " + fl + ";"));
    case Goto(l) =>
      Lines1("  " + ("goto " + l + ";"));
      assert ";\n" == ";" + "\n";
      Assoc("goto " + l, ";", "\n");
      Assoc("  ", "goto " + l + ";", "\n");
    case Return(op) =>
      Lines1("  " + "return " + OperandText(op) + ";");
      Assoc("  " + "return " + OperandText(op), ";", "\n");
  }

  lemma {:induction false} StmsLayout(ss: seq<Stm>)
    ensures StmsText(ss) == Lines(StmsLines(ss))
    decreases |ss|
  {
    if ss != [] {
      var p, s := ss[..|ss| - 1], ss[|ss| - 1];
      StmsLayout(p);
      StmLayout(s);
      LinesAppend(StmsLines(p), StmLines(s));
      Assoc(StmsText(p), StmText(s), "\n");
    }
  }

  lemma BlockLayout(b: Block)
    ensures BlockText(b) == Lines(BlockLines(b))
  {
    Lines1(b.name + ":");
    assert ":\n" == ":" + "\n";
    Assoc(b.name, ":", "\n");
    StmsLayout(b.stms);
    LinesAppend([b.name + ":"], StmsLines(b.stms));
    TransferLayout(b.transfer);
    LinesAppend([b.name + ":"] + StmsLines(b.stms), TransferLines(b.transfer));
  }

  lemma {:induction false} BlocksLayout(bs: seq<Block>)
    ensures BlocksText(bs) == Lines(BlocksLines(bs))
    decreases |bs|
  {
    if bs != [] {
      var p := bs[..|bs| - 1];
      BlocksLayout(p);
      BlockLayout(bs[|bs| - 1]);
      LinesAppend(BlocksLines(p), BlockLines(bs[|bs| - 1]));
    }
  }

  // ---------------------------------------------------------------------
  // Methods

  function LocalLine(d: Dec): string
  {
    "  " + TypeText(d.ty) + (" " + d.id + ";")
  }

  function LocalLines(ds: seq<Dec>): seq<string>
  {
    seq(|ds|, i requires 0 <= i < |ds| => LocalLine(ds[i]))
  }

  function MethodHeader(m: Method): string
  {
    TypeText(m.retType) + (" " + m.classId + "_" + m.id + "(") + FormalsText(m.formals) + ")"
  }

  function JumpLine(l: string): string
  {
    "  " + ("goto " + l + ";")
  }

  /** A method: the header, `{`, one line per local, a jump to the entry
      block between two empty lines, the blocks, `}`. */
  function MethodLines(m: Method): seq<string>
  {
    [MethodHeader(m), "{"] + LocalLines(m.locals) + ["", JumpLine(m.entry), ""] + BlocksLines(m.blocks) + ["}"]
  }

  function MethodsLines(ms: seq<Method>): seq<string>
  {
    if ms == [] then [] else MethodsLines(ms[..|ms| - 1]) + MethodLines(ms[|ms| - 1])
  }

  /** The main method: like a method, but without formals and without
      the jump to an entry block. */
  function MainLines(m: MainMethod): seq<string>
  {
    ["int Tiger_main ()", "{"] + LocalLines(m.locals) + [""] + BlocksLines(m.blocks) + ["}", ""]
  }

  lemma {:induction false} LocalsLayout(ds: seq<Dec>)
    ensures LocalsText(ds) == Lines(LocalLines(ds))
    decreases |ds|
  {
    if ds != [] {
      var p, d := ds[..|ds| - 1], ds[|ds| - 1];
      LocalsLayout(p);
      assert LocalLines(ds) == LocalLines(p) + [LocalLine(d)];
      LinesSnoc(LocalLines(p), LocalLine(d));
      var l, a := LocalsText(p), "  " + TypeText(d.ty);
      assert ";\n" == ";" + "\n";
      Assoc(" " + d.id, ";", "\n");
      Assoc(a, " " + d.id + ";", "\n");
      Assoc(l, "  ", TypeText(d.ty));
      Assoc(l, a, Ln(" " + d.id + ";"));
    }
  }

  lemma {:induction false} MainLocalsLayout(ds: seq<Dec>)
    ensures MainLocalsText(ds) == Lines(LocalLines(ds))
    decreases |ds|
  {
    if ds != [] {
      var p, d := ds[..|ds| - 1], ds[|ds| - 1];
      MainLocalsLayout(p);
      assert LocalLines(ds) == LocalLines(p) + [LocalLine(d)];
      LinesSnoc(LocalLines(p), LocalLine(d));
      var l, a := MainLocalsText(p), "  " + TypeText(d.ty);
      Assoc(d.id, ";", "\n");
      Assoc(" ", d.id, ";" + "\n");
      Assoc(" ", d.id, ";");
      Assoc(" " + d.id, ";", "\n");
      Assoc(a, " " + d.id + ";", "\n");
      Assoc(l, "  ", TypeText(d.ty));
      Assoc(l, a, " ");
      Assoc(l, a + " ", Ln(d.id + ";"));
      Assoc(a, " ", Ln(d.id + ";"));
    }
  }

  /** The main method declares its locals exactly as the other methods do,
      although the visitor writes them with a different split into pieces. */
  lemma MainLocalsSame(ds: seq<Dec>)
    ensures MainLocalsText(ds) == LocalsText(ds)
  {
    LocalsLayout(ds);
    MainLocalsLayout(ds);
  }

  lemma MethodLayout(m: Method)
    ensures MethodText(m) == Lines(MethodLines(m))
  {
    var t := TypeText(m.retType) + (" " + m.classId + "_" + m.id + "(") + FormalsText(m.formals);
    Assoc(t, ")", "\n");
    Lines2(MethodHeader(m), "{");
    LocalsLayout(m.locals);
    var a := [MethodHeader(m), "{"] + LocalLines(m.locals);
    LinesAppend([MethodHeader(m), "{"], LocalLines(m.locals));
    Lines3("", JumpLine(m.entry), "");
    Assoc("  ", "goto " + m.entry + ";", "\n");
    Assoc(Lines(a) + Ln(""), "  ", Ln("goto " + m.entry + ";"));
    Assoc(Lines(a), Ln("") + Ln(JumpLine(m.entry)), Ln(""));
    Assoc(Lines(a), Ln(""), Ln(JumpLine(m.entry)));
    LinesAppend(a, ["", JumpLine(m.entry), ""]);
    var b := a + ["", JumpLine(m.entry), ""];
    BlocksLayout(m.blocks);
    LinesAppend(b, BlocksLines(m.blocks));
    LinesSnoc(b + BlocksLines(m.blocks), "}");
  }

  lemma {:induction false} MethodsLayout(ms: seq<Method>)
    ensures MethodsText(ms) == Lines(MethodsLines(ms))
    decreases |ms|
  {
    if ms != [] {
      var p := ms[..|ms| - 1];
      MethodsLayout(p);
      MethodLayout(ms[|ms| - 1]);
      LinesAppend(MethodsLines(p), MethodLines(ms[|ms| - 1]));
    }
  }

  lemma MainLayout(m: MainMethod)
    ensures MainMethodText(m) == Lines(MainLines(m))
  {
    Lines2("int Tiger_main ()", "{");
    MainLocalsLayout(m.locals);
    var a := ["int Tiger_main ()", "{"] + LocalLines(m.locals);
    LinesAppend(["int Tiger_main ()", "{"], LocalLines(m.locals));
    LinesSnoc(a, "");
    BlocksLayout(m.blocks);
    LinesAppend(a + [""], BlocksLines(m.blocks));
    var b := a + [""] + BlocksLines(m.blocks);
    Lines2("}", "");
    LinesAppend(b, ["}", ""]);
    assert Ln("}\n") == Ln("}") + Ln("");
  }

  // ---------------------------------------------------------------------
  // The program

  function ClassesLines(cs: seq<Class>): seq<string>
  {
    if cs == [] then [] else ClassesLines(cs[..|cs| - 1]) + ClassLines(cs[|cs| - 1])
  }

  function VtablesLines(vs: seq<Vtable>): seq<string>
  {
    if vs == [] then [] else VtablesLines(vs[..|vs| - 1]) + VtableLines(vs[|vs| - 1])
  }

  function VtableInitsLines(vs: seq<Vtable>): seq<string>
  {
    if vs == [] then [] else VtableInitsLines(vs[..|vs| - 1]) + VtableInitLines(vs[|vs| - 1])
  }

  function Banner(): seq<string>
  {
    ["// This is automatically generated by the Tiger compiler.", "// Do NOT modify!", "",
     "// Control-flow Graph", "", "// structures"]
  }

  /** The C file: the banner, then the class structs, the vtable types,
      the methods, the vtable instances and the main method, each section
      under its comment line, and three empty lines at the end. */
  function ProgramLines(p: Program): seq<string>
  {
    Banner() + ClassesLines(p.classes)
    + ["// vtables structures"] + VtablesLines(p.vtables)
    + ["", "// methods"] + MethodsLines(p.methods)
    + ["", "// vtables"] + VtableInitsLines(p.vtables)
    + ["", "// main method"] + MainLines(p.mainMethod)
    + ["", "", ""]
  }

  lemma {:induction false} ClassesLayout(cs: seq<Class>)
    ensures ClassesText(cs) == Lines(ClassesLines(cs))
    decreases |cs|
  {
    if cs != [] {
      var p := cs[..|cs| - 1];
      ClassesLayout(p);
      ClassLayout(cs[|cs| - 1]);
      LinesAppend(ClassesLines(p), ClassLines(cs[|cs| - 1]));
    }
  }

  lemma {:induction false} VtablesLayout(vs: seq<Vtable>)
    ensures VtablesText(vs) == Lines(VtablesLines(vs))
    ensures VtableInitsText(vs) == Lines(VtableInitsLines(vs))
    decreases |vs|
  {
    if vs != [] {
      var p := vs[..|vs| - 1];
      VtablesLayout(p);
      VtableLayout(vs[|vs| - 1]);
      LinesAppend(VtablesLines(p), VtableLines(vs[|vs| - 1]));
      LinesAppend(VtableInitsLines(p), VtableInitLines(vs[|vs| - 1]));
    }
  }

  lemma BannerLayout()
    ensures Lines(Banner()) == Ln("// This is automatically generated by the Tiger compiler.")
      + Ln("// Do NOT modify!\n") + Ln("// Control-flow Graph\n") + Ln("// structures")
  {
    var b := Banner();
    Lines3(b[0], b[1], b[2]);
    assert b[..3] == [b[0], b[1], b[2]] && b[..4] == b[..3] + [b[3]] && b[..5] == b[..4] + [b[4]];
    assert b == b[..5] + [b[5]];
    LinesSnoc(b[..3], b[3]);
    LinesSnoc(b[..4], b[4]);
    LinesSnoc(b[..5], b[5]);
    assert Ln("// Do NOT modify!\n") == Ln(b[1]) + Ln("");
    assert Ln("// Control-flow Graph\n") == Ln(b[3]) + Ln("");
    Assoc(Ln(b[0]), Ln(b[1]), Ln(""));
    Assoc(Lines(b[..3]), Ln(b[3]), Ln(""));
  }

  /** Two lines appended: the pieces `Ln(a)` and `Ln(b)`. */
  lemma LinesSnoc2(ls: seq<string>, a: string, b: string)
    ensures Lines(ls + [a, b]) == Lines(ls) + Ln(a) + Ln(b)
  {
    assert ls + [a, b] == ls + [a] + [b];
    LinesSnoc(ls, a);
    LinesSnoc(ls + [a], b);
  }

  /** The first half of the file: banner, structs, vtable types, methods. */
  lemma ProgramHeadLayout(p: Program)
    ensures Lines(Banner() + ClassesLines(p.classes)
                  + ["// vtables structures"] + VtablesLines(p.vtables)
                  + ["", "// methods"] + MethodsLines(p.methods))
         == Ln("// This is automatically generated by the Tiger compiler.")
            + Ln("// Do NOT modify!\n")
            + Ln("// Control-flow Graph\n")
            + Ln("// structures")
            + ClassesText(p.classes)
            + Ln("// vtables structures")
            + VtablesText(p.vtables)
            + Ln("")
            + Ln("// methods")
            + MethodsText(p.methods)
  {
    BannerLayout();
    var l1 := Banner() + ClassesLines(p.classes);
    ClassesLayout(p.classes);
    LinesAppend(Banner(), ClassesLines(p.classes));
    var l2 := l1 + ["// vtables structures"] + VtablesLines(p.vtables);
    LinesSnoc(l1, "// vtables structures");
    VtablesLayout(p.vtables);
    LinesAppend(l1 + ["// vtables structures"], VtablesLines(p.vtables));
    LinesSnoc2(l2, "", "// methods");
    MethodsLayout(p.methods);
    LinesAppend(l2 + ["", "// methods"], MethodsLines(p.methods));
  }

  /** The second half of the file, after any first half `head`: vtable
      instances, main method, trailing empty lines. */
  lemma ProgramTailLayout(head: seq<string>, p: Program)
    ensures Lines(head + ["", "// vtables"] + VtableInitsLines(p.vtables)
                  + ["", "// main method"] + MainLines(p.mainMethod) + ["", "", ""])
         == Lines(head)
            + Ln("")
            + Ln("// vtables")
            + VtableInitsText(p.vtables)
            + Ln("")
            + Ln("// main method")
            + MainMethodText(p.mainMethod)
            + Ln("")
            + "\n\n"
  {
    var l4 := head + ["", "// vtables"] + VtableInitsLines(p.vtables);
    LinesSnoc2(head, "", "// vtables");
    VtablesLayout(p.vtables);
    LinesAppend(head + ["", "// vtables"], VtableInitsLines(p.vtables));
    var l5 := l4 + ["", "// main method"] + MainLines(p.mainMethod);
    LinesSnoc2(l4, "", "// main method");
    MainLayout(p.mainMethod);
    LinesAppend(l4 + ["", "// main method"], MainLines(p.mainMethod));
    LinesAppend(l5, ["", "", ""]);
    Lines3("", "", "");
    assert Ln("") + Ln("") == "\n\n";
    Assoc(Ln(""), Ln(""), Ln(""));
    Assoc(Lines(l5), Ln(""), Ln("") + Ln(""));
  }

  lemma ProgramLayout(p: Program)
    ensures ProgramText(p) == Lines(ProgramLines(p))
  {
    var head := Banner() + ClassesLines(p.classes)
                + ["// vtables structures"] + VtablesLines(p.vtables)
                + ["", "// methods"] + MethodsLines(p.methods);
    ProgramHeadLayout(p);
    ProgramTailLayout(head, p);
  }
}
