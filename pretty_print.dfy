/** The CFG-to-C pretty-printer (cfg/PrettyPrintVisitor.java). The
    visitor writes everything through `say`; here the writer is the
    string `out`, and every visit method is proved to append exactly the
    text CText gives for its node, and nothing else.

    In the bodies, `w` is the text written since the call began (`o` is
    `out` at that point); after each write, `Assoc` regroups
    `o + w + piece` as `o + (w + piece)`. */
module PrettyPrint {
  import opened Cfg
  import opened CText
  import CTextLemmas

  class PrettyPrintVisitor {
    /** Everything written so far. */
    var out: string

    constructor ()
      ensures out == []
    {
      out := [];
    }

    method Say(s: string)
      modifies this
      ensures out == old(out) + s
    {
      out := out + s;
    }

    method Sayln(s: string)
      modifies this
      ensures out == old(out) + Ln(s)
    {
      ghost var o := out;
      Say(s);
      Say("\n");
      Assoc(o, s, "\n");
    }

    method PrintSpaces()
      modifies this
      ensures out == old(out) + "  "
    {
      Say("  ");
    }

    method ISayln(s: string)
      modifies this
      ensures out == old(out) + ("  " + Ln(s))
    {
      ghost var o := out;
      PrintSpaces();
      Sayln(s);
      Assoc(o, "  ", Ln(s));
    }

    /** visit(Int) and visit(Var). */
    method VisitOperand(a: Operand)
      modifies this
      ensures out == old(out) + OperandText(a)
    {
      match a
      case Int(i) => Say(IntText(i));
      case Var(id) => Say(id);
    }

    /** visit(Add), visit(And), visit(Lt), visit(Gt), visit(Sub) and
        visit(Times), which differ only in the operator they write. */
    method VisitBinary(dst: string, left: Operand, op: string, right: Operand)
      modifies this
      ensures out == old(out) + BinaryText(dst, left, op, right)
    {
      ghost var o := out;
      PrintSpaces();
      ghost var w := "  ";
      Say(dst + " = ");
      Assoc(o, w, dst + " = ");
      w := w + (dst + " = ");
      VisitOperand(left);
      Assoc(o, w, OperandText(left));
      w := w + OperandText(left);
      Say(op);
      Assoc(o, w, op);
      w := w + op;
      VisitOperand(right);
      Assoc(o, w, OperandText(right));
      w := w + OperandText(right);
      Say(";");
      Assoc(o, w, ";");
    }

    /** visit(InvokeVirtual): the receiver is passed again as the first
        argument, then `, a` for every argument in order. */
    method VisitInvokeVirtual(dst: string, obj: string, f: string, args: seq<Operand>)
      modifies this
      ensures out == old(out) + StmText(InvokeVirtual(dst, obj, f, args))
    {
      ghost var o := out;
      PrintSpaces();
      ghost var w := "  ";
      Say(dst + " = " + obj);
      Assoc(o, w, dst + " = " + obj);
      w := w + (dst + " = " + obj);
      Say("->vptr->" + f + "(" + obj);
      Assoc(o, w, "->vptr->" + f + "(" + obj);
      w := w + ("->vptr->" + f + "(" + obj);
      ghost var head := out;
      var k := 0;
      while k < |args|
        invariant 0 <= k <= |args|
        invariant out == head + ArgsText(args[..k])
      {
        ghost var a := ArgsText(args[..k]);
        Say(", ");
        Assoc(head, a, ", ");
        VisitOperand(args[k]);
        Assoc(head, a + ", ", OperandText(args[k]));
        CTextLemmas.ArgsStep(args, k);
        k := k + 1;
      }
      assert args[..k] == args;
      Assoc(o, w, ArgsText(args));
      w := w + ArgsText(args);
      Say(");");
      Assoc(o, w, ");");
    }

    method VisitStm(s: Stm)
      modifies this
      ensures out == old(out) + StmText(s)
    {
      ghost var o := out;
      match s
      case Add(dst, l, r) => VisitBinary(dst, l, " + ", r);
      case And(dst, l, r) => VisitBinary(dst, l, " && ", r);
      case ArraySelect(dst, a, i) =>
        PrintSpaces();
        ghost var w := "  ";
        Say(dst + " = ");
        Assoc(o, w, dst + " = ");
        w := w + (dst + " = ");
        VisitOperand(a);
        Assoc(o, w, OperandText(a));
        w := w + OperandText(a);
        Say("[");
        Assoc(o, w, "[");
        w := w + "[";
        VisitOperand(i);
        Assoc(o, w, OperandText(i));
        w := w + OperandText(i);
        Say("];");
        Assoc(o, w, "];");
      case AssignArray(dst, i, e) =>
        PrintSpaces();
        ghost var w := "  ";
        Say(dst + "[3 + ");
        Assoc(o, w, dst + "[3 + ");
        w := w + (dst + "[3 + ");
        VisitOperand(i);
        Assoc(o, w, OperandText(i));
        w := w + OperandText(i);
        Say("] = ");
        Assoc(o, w, "] = ");
        w := w + "] = ";
        VisitOperand(e);
        Assoc(o, w, OperandText(e));
        w := w + OperandText(e);
        Say(";");
        Assoc(o, w, ";");
      case Gt(dst, l, r) => VisitBinary(dst, l, " > ", r);
      case InvokeVirtual(dst, obj, f, args) => VisitInvokeVirtual(dst, obj, f, args);
      case Length(dst, a) =>
        PrintSpaces();
        ghost var w := "  ";
        Say(dst + " = ");
        Assoc(o, w, dst + " = ");
        w := w + (dst + " = ");
        VisitOperand(a);
        Assoc(o, w, OperandText(a));
        w := w + OperandText(a);
        Say(".length;");
        Assoc(o, w, ".length;");
      case Lt(dst, l, r) => VisitBinary(dst, l, " < ", r);
      case Move(dst, src) =>
        PrintSpaces();
        ghost var w := "  ";
        Say(dst + " = ");
        Assoc(o, w, dst + " = ");
        w := w + (dst + " = ");
        VisitOperand(src);
        Assoc(o, w, OperandText(src));
        w := w + OperandText(src);
        Say(";");
        Assoc(o, w, ";");
      case NewIntArray(dst, length) => ISayln(dst + " = Tiger_new_array(" + length + ");");
      case NewObject(dst, c) =>
        PrintSpaces();
        Say(dst + " = ((struct " + c + "*)(Tiger_new (&" + c + "_vtable_, sizeof(struct " + c + "))));");
      case Print(arg) =>
        PrintSpaces();
        ghost var w := "  ";
        Say("System_out_println (");
        Assoc(o, w, "System_out_println (");
        w := w + "System_out_println (";
        VisitOperand(arg);
        Assoc(o, w, OperandText(arg));
        w := w + OperandText(arg);
        Sayln(");");
        Assoc(o, w, Ln(");"));
      case Sub(dst, l, r) => VisitBinary(dst, l, " - ", r);
      case Times(dst, l, r) => VisitBinary(dst, l, " * ", r);
    }

    method VisitTransfer(t: Transfer)
      modifies this
      ensures out == old(out) + TransferText(t)
    {
      ghost var o := out;
      match t
      case If(op, tl, fl) =>
        PrintSpaces();
        ghost var w := "  ";
        Say("if (");
        Assoc(o, w, "if (");
        w := w + "if (";
        VisitOperand(op);
        Assoc(o, w, OperandText(op));
        w := w + OperandText(op);
        Say(")\n");
        Assoc(o, w, ")\n");
        w := w + ")\n";
        PrintSpaces();
        Assoc(o, w, "  ");
        w := w + "  ";
        Say("  goto " + tl + ";\n");
        Assoc(o, w, "  goto " + tl + ";\n");
        w := w + ("  goto " + tl + ";\n");
        PrintSpaces();
        Assoc(o, w, "  ");
        w := w + "  ";
        Say("else\n");
        Assoc(o, w, "else\n");
        w := w + "else\n";
        PrintSpaces();
        Assoc(o, w, "  ");
        w := w + "  ";
        Say("  goto " + fl + ";\n");
        Assoc(o, w, "  goto " + fl + ";\n");
      case Goto(l) =>
        PrintSpaces();
        Say("goto " + l + ";\n");
      case Return(op) =>
        PrintSpaces();
        ghost var w := "  ";
        Say("return ");
        Assoc(o, w, "return ");
        w := w + "return ";
        VisitOperand(op);
        Assoc(o, w, OperandText(op));
        w := w + OperandText(op);
        Sayln(";");
        Assoc(o, w, Ln(";"));
    }

    /** visit(ClassType), visit(IntType) and visit(IntArrayType). */
    method VisitType(t: Type)
      modifies this
      ensures out == old(out) + TypeText(t)
    {
      match t
      case ClassType(id) => Say("struct " + id + " *");
      case IntType => Say("int");
      case IntArrayType => Say("int *");
    }

    /** visit(DecSingle). */
    method VisitDec(d: Dec)
      modifies this
      ensures out == old(out) + DecText(d)
    {
      ghost var o := out;
      VisitType(d.ty);
      Say(" " + d.id);
      Assoc(o, TypeText(d.ty), " " + d.id);
    }

    /** visit(BlockSingle): the label, every statement followed by a
        newline, then the transfer. */
    method VisitBlock(b: Block)
      modifies this
      ensures out == old(out) + BlockText(b)
    {
      ghost var o := out;
      Say(b.name + ":\n");
      ghost var w := b.name + ":\n";
      ghost var head := out;
      var k := 0;
      while k < |b.stms|
        invariant 0 <= k <= |b.stms|
        invariant out == head + StmsText(b.stms[..k])
      {
        ghost var a := StmsText(b.stms[..k]);
        VisitStm(b.stms[k]);
        Assoc(head, a, StmText(b.stms[k]));
        Say("\n");
        Assoc(head, a + StmText(b.stms[k]), "\n");
        CTextLemmas.StmsStep(b.stms, k);
        k := k + 1;
      }
      assert b.stms[..k] == b.stms;
      Assoc(o, w, StmsText(b.stms));
      w := w + StmsText(b.stms);
      VisitTransfer(b.transfer);
      Assoc(o, w, TransferText(b.transfer));
    }

    /** The blocks loop of visit(MethodSingle) and visit(MainMethodSingle). */
    method VisitBlocks(bs: seq<Block>)
      modifies this
      ensures out == old(out) + BlocksText(bs)
    {
      ghost var o := out;
      var k := 0;
      while k < |bs|
        invariant 0 <= k <= |bs|
        invariant out == o + BlocksText(bs[..k])
      {
        ghost var a := BlocksText(bs[..k]);
        VisitBlock(bs[k]);
        Assoc(o, a, BlockText(bs[k]));
        CTextLemmas.BlocksStep(bs, k);
        k := k + 1;
      }
      assert bs[..k] == bs;
    }

    /** The formals loop of visit(MethodSingle): `size` counts the formals
        not yet written, and a separator follows every formal but the last. */
    method VisitFormals(ds: seq<Dec>)
      modifies this
      ensures out == old(out) + FormalsText(ds)
    {
      ghost var o := out;
      var size := |ds|;
      var k := 0;
      while k < |ds|
        invariant 0 <= k <= |ds| && size == |ds| - k
        invariant out == o + (FormalsText(ds[..k]) + (if 0 < k < |ds| then ", " else ""))
      {
        ghost var a := FormalsText(ds[..k]) + (if 0 < k < |ds| then ", " else "");
        size := size - 1;
        VisitType(ds[k].ty);
        Assoc(o, a, TypeText(ds[k].ty));
        Say(" " + ds[k].id);
        Assoc(o, a + TypeText(ds[k].ty), " " + ds[k].id);
        Assoc(a, TypeText(ds[k].ty), " " + ds[k].id);
        CTextLemmas.FormalsStep(ds, k);
        if size > 0 {
          Say(", ");
          Assoc(o, FormalsText(ds[..k + 1]), ", ");
        }
        k := k + 1;
      }
      assert ds[..k] == ds;
    }

    /** The locals loop of visit(MethodSingle). */
    method VisitLocals(ds: seq<Dec>)
      modifies this
      ensures out == old(out) + LocalsText(ds)
    {
      ghost var o := out;
      var k := 0;
      while k < |ds|
        invariant 0 <= k <= |ds|
        invariant out == o + LocalsText(ds[..k])
      {
        ghost var a := LocalsText(ds[..k]);
        Say("  ");
        Assoc(o, a, "  ");
        VisitType(ds[k].ty);
        Assoc(o, a + "  ", TypeText(ds[k].ty));
        Say(" " + ds[k].id + ";\n");
        Assoc(o, a + "  " + TypeText(ds[k].ty), " " + ds[k].id + ";\n");
        CTextLemmas.LocalsStep(ds, k);
        k := k + 1;
      }
      assert ds[..k] == ds;
    }

    /** visit(MethodSingle). */
    method VisitMethod(m: Method)
      modifies this
      ensures out == old(out) + MethodText(m)
    {
      ghost var o := out;
      VisitType(m.retType);
      ghost var w := TypeText(m.retType);
      Say(" " + m.classId + "_" + m.id + "(");
      Assoc(o, w, " " + m.classId + "_" + m.id + "(");
      w := w + (" " + m.classId + "_" + m.id + "(");
      VisitFormals(m.formals);
      Assoc(o, w, FormalsText(m.formals));
      w := w + FormalsText(m.formals);
      Sayln(")");
      Assoc(o, w, Ln(")"));
      w := w + Ln(")");
      Sayln("{");
      Assoc(o, w, Ln("{"));
      w := w + Ln("{");
      VisitLocals(m.locals);
      Assoc(o, w, LocalsText(m.locals));
      w := w + LocalsText(m.locals);
      Sayln("");
      Assoc(o, w, Ln(""));
      w := w + Ln("");
      ISayln("goto " + m.entry + ";");
      Assoc(o, w, "  " + Ln("goto " + m.entry + ";"));
      Assoc(w, "  ", Ln("goto " + m.entry + ";"));
      w := w + "  " + Ln("goto " + m.entry + ";");
      Sayln("");
      Assoc(o, w, Ln(""));
      w := w + Ln("");
      VisitBlocks(m.blocks);
      Assoc(o, w, BlocksText(m.blocks));
      w := w + BlocksText(m.blocks);
      Sayln("}");
      Assoc(o, w, Ln("}"));
    }

    /** visit(MainMethodSingle). */
    method VisitMainMethod(m: MainMethod)
      modifies this
      ensures out == old(out) + MainMethodText(m)
    {
      ghost var o := out;
      Sayln("int Tiger_main ()");
      ghost var w := Ln("int Tiger_main ()");
      Sayln("{");
      Assoc(o, w, Ln("{"));
      w := w + Ln("{");
      ghost var head := out;
      var k := 0;
      while k < |m.locals|
        invariant 0 <= k <= |m.locals|
        invariant out == head + MainLocalsText(m.locals[..k])
      {
        ghost var a := MainLocalsText(m.locals[..k]);
        Say("  ");
        Assoc(head, a, "  ");
        VisitType(m.locals[k].ty);
        Assoc(head, a + "  ", TypeText(m.locals[k].ty));
        Say(" ");
        Assoc(head, a + "  " + TypeText(m.locals[k].ty), " ");
        Sayln(m.locals[k].id + ";");
        Assoc(head, a + "  " + TypeText(m.locals[k].ty) + " ", Ln(m.locals[k].id + ";"));
        CTextLemmas.MainLocalsStep(m.locals, k);
        k := k + 1;
      }
      assert m.locals[..k] == m.locals;
      Assoc(o, w, MainLocalsText(m.locals));
      w := w + MainLocalsText(m.locals);
      Sayln("");
      Assoc(o, w, Ln(""));
      w := w + Ln("");
      VisitBlocks(m.blocks);
      Assoc(o, w, BlocksText(m.blocks));
      w := w + BlocksText(m.blocks);
      Sayln("}\n");
      Assoc(o, w, Ln("}\n"));
    }

    /** visit(VtableSingle). */
    method VisitVtable(v: Vtable)
      modifies this
      ensures out == old(out) + VtableText(v)
    {
      ghost var o := out;
      Sayln("struct " + v.id + "_vtable");
      ghost var w := Ln("struct " + v.id + "_vtable");
      Sayln("{");
      Assoc(o, w, Ln("{"));
      w := w + Ln("{");
      ghost var head := out;
      var k := 0;
      while k < |v.ms|
        invariant 0 <= k <= |v.ms|
        invariant out == head + SlotsText(v.ms[..k])
      {
        ghost var a := SlotsText(v.ms[..k]);
        Say("  ");
        Assoc(head, a, "  ");
        VisitType(v.ms[k].ret);
        Assoc(head, a + "  ", TypeText(v.ms[k].ret));
        Sayln(" (*" + v.ms[k].id + ")();");
        Assoc(head, a + "  " + TypeText(v.ms[k].ret), Ln(" (*" + v.ms[k].id + ")();"));
        CTextLemmas.SlotsStep(v.ms, k);
        k := k + 1;
      }
      assert v.ms[..k] == v.ms;
      Assoc(o, w, SlotsText(v.ms));
      w := w + SlotsText(v.ms);
      Sayln("};\n");
      Assoc(o, w, Ln("};\n"));
    }

    /** outputVtable. */
    method OutputVtable(v: Vtable)
      modifies this
      ensures out == old(out) + VtableInitText(v)
    {
      ghost var o := out;
      Sayln("struct " + v.id + "_vtable " + v.id + "_vtable_ = ");
      ghost var w := Ln("struct " + v.id + "_vtable " + v.id + "_vtable_ = ");
      Sayln("{");
      Assoc(o, w, Ln("{"));
      w := w + Ln("{");
      ghost var head := out;
      var k := 0;
      while k < |v.ms|
        invariant 0 <= k <= |v.ms|
        invariant out == head + EntriesText(v.ms[..k])
      {
        ghost var a := EntriesText(v.ms[..k]);
        Say("  ");
        Assoc(head, a, "  ");
        Sayln(v.ms[k].classs + "_" + v.ms[k].id + ",");
        Assoc(head, a + "  ", Ln(v.ms[k].classs + "_" + v.ms[k].id + ","));
        CTextLemmas.EntriesStep(v.ms, k);
        k := k + 1;
      }
      assert v.ms[..k] == v.ms;
      Assoc(o, w, EntriesText(v.ms));
      w := w + EntriesText(v.ms);
      Sayln("};\n");
      Assoc(o, w, Ln("};\n"));
    }

    /** visit(ClassSingle). */
    method VisitClass(c: Class)
      modifies this
      ensures out == old(out) + ClassText(c)
    {
      ghost var o := out;
      Sayln("struct " + c.id);
      ghost var w := Ln("struct " + c.id);
      Sayln("{");
      Assoc(o, w, Ln("{"));
      w := w + Ln("{");
      Sayln("  struct " + c.id + "_vtable *vptr;");
      Assoc(o, w, Ln("  struct " + c.id + "_vtable *vptr;"));
      w := w + Ln("  struct " + c.id + "_vtable *vptr;");
      ghost var head := out;
      var k := 0;
      while k < |c.decs|
        invariant 0 <= k <= |c.decs|
        invariant out == head + FieldsText(c.decs[..k])
      {
        ghost var a := FieldsText(c.decs[..k]);
        Say("  ");
        Assoc(head, a, "  ");
        VisitType(c.decs[k].ty);
        Assoc(head, a + "  ", TypeText(c.decs[k].ty));
        Say(" ");
        Assoc(head, a + "  " + TypeText(c.decs[k].ty), " ");
        Sayln(c.decs[k].id + ";");
        Assoc(head, a + "  " + TypeText(c.decs[k].ty) + " ", Ln(c.decs[k].id + ";"));
        CTextLemmas.FieldsStep(c.decs, k);
        k := k + 1;
      }
      assert c.decs[..k] == c.decs;
      Assoc(o, w, FieldsText(c.decs));
      w := w + FieldsText(c.decs);
      Sayln("};");
      Assoc(o, w, Ln("};"));
    }

    /** The classes loop of visit(ProgramSingle). */
    method VisitClasses(cs: seq<Class>)
      modifies this
      ensures out == old(out) + ClassesText(cs)
    {
      ghost var o := out;
      var k := 0;
      while k < |cs|
        invariant 0 <= k <= |cs|
        invariant out == o + ClassesText(cs[..k])
      {
        ghost var a := ClassesText(cs[..k]);
        VisitClass(cs[k]);
        Assoc(o, a, ClassText(cs[k]));
        CTextLemmas.ClassesStep(cs, k);
        k := k + 1;
      }
      assert cs[..k] == cs;
    }

    /** The first vtables loop of visit(ProgramSingle). */
    method VisitVtables(vs: seq<Vtable>)
      modifies this
      ensures out == old(out) + VtablesText(vs)
    {
      ghost var o := out;
      var k := 0;
      while k < |vs|
        invariant 0 <= k <= |vs|
        invariant out == o + VtablesText(vs[..k])
      {
        ghost var a := VtablesText(vs[..k]);
        VisitVtable(vs[k]);
        Assoc(o, a, VtableText(vs[k]));
        CTextLemmas.VtablesStep(vs, k);
        k := k + 1;
      }
      assert vs[..k] == vs;
    }

    /** The methods loop of visit(ProgramSingle). */
    method VisitMethods(ms: seq<Method>)
      modifies this
      ensures out == old(out) + MethodsText(ms)
    {
      ghost var o := out;
      var k := 0;
      while k < |ms|
        invariant 0 <= k <= |ms|
        invariant out == o + MethodsText(ms[..k])
      {
        ghost var a := MethodsText(ms[..k]);
        VisitMethod(ms[k]);
        Assoc(o, a, MethodText(ms[k]));
        CTextLemmas.MethodsStep(ms, k);
        k := k + 1;
      }
      assert ms[..k] == ms;
    }

    /** The second vtables loop of visit(ProgramSingle). */
    method OutputVtables(vs: seq<Vtable>)
      modifies this
      ensures out == old(out) + VtableInitsText(vs)
    {
      ghost var o := out;
      var k := 0;
      while k < |vs|
        invariant 0 <= k <= |vs|
        invariant out == o + VtableInitsText(vs[..k])
      {
        ghost var a := VtableInitsText(vs[..k]);
        OutputVtable(vs[k]);
        Assoc(o, a, VtableInitText(vs[k]));
        CTextLemmas.VtableInitsStep(vs, k);
        k := k + 1;
      }
      assert vs[..k] == vs;
    }

    /** visit(ProgramSingle), writing into `out` instead of a file. */
    method VisitProgram(p: Program)
      modifies this
      ensures out == old(out) + ProgramText(p)
    {
      ghost var o := out;
      Sayln("// This is automatically generated by the Tiger compiler.");
      ghost var w := Ln("// This is automatically generated by the Tiger compiler.");
      Sayln("// Do NOT modify!\n");
      Assoc(o, w, Ln("// Do NOT modify!\n"));
      w := w + Ln("// Do NOT modify!\n");
      Sayln("// Control-flow Graph\n");
      Assoc(o, w, Ln("// Control-flow Graph\n"));
      w := w + Ln("// Control-flow Graph\n");

      Sayln("// structures");
      Assoc(o, w, Ln("// structures"));
      w := w + Ln("// structures");
      VisitClasses(p.classes);
      Assoc(o, w, ClassesText(p.classes));
      w := w + ClassesText(p.classes);

      Sayln("// vtables structures");
      Assoc(o, w, Ln("// vtables structures"));
      w := w + Ln("// vtables structures");
      VisitVtables(p.vtables);
      Assoc(o, w, VtablesText(p.vtables));
      w := w + VtablesText(p.vtables);
      Sayln("");
      Assoc(o, w, Ln(""));
      w := w + Ln("");

      Sayln("// methods");
      Assoc(o, w, Ln("// methods"));
      w := w + Ln("// methods");
      VisitMethods(p.methods);
      Assoc(o, w, MethodsText(p.methods));
      w := w + MethodsText(p.methods);
      Sayln("");
      Assoc(o, w, Ln(""));
      w := w + Ln("");

      Sayln("// vtables");
      Assoc(o, w, Ln("// vtables"));
      w := w + Ln("// vtables");
      OutputVtables(p.vtables);
      Assoc(o, w, VtableInitsText(p.vtables));
      w := w + VtableInitsText(p.vtables);
      Sayln("");
      Assoc(o, w, Ln(""));
      w := w + Ln("");

      Sayln("// main method");
      Assoc(o, w, Ln("// main method"));
      w := w + Ln("// main method");
      VisitMainMethod(p.mainMethod);
      Assoc(o, w, MainMethodText(p.mainMethod));
      w := w + MainMethodText(p.mainMethod);
      Sayln("");
      Assoc(o, w, Ln(""));
      w := w + Ln("");

      Say("\n\n");
      Assoc(o, w, "\n\n");
    }
  }
}
