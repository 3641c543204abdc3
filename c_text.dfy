/** The C text the pretty-printer (cfg/PrettyPrintVisitor.java) writes
    for each node of the control-flow graph, as functions. Each function
    is the concatenation, in order, of exactly the strings the visitor
    hands to `say` (a plain piece), to `sayln` (a piece `Ln(s)`) and to
    `printSpaces` (a piece `"  "`), and of the texts of the nodes it
    visits in between. Lists are folded from the back, the way the
    visitor's loops extend the output one element at a time. */
module CText {
  import opened Cfg

  /** What `sayln(s)` writes: `s`, then a newline. */
  function Ln(s: string): string
  {
    s + "\n"
  }

  /** Regroups a concatenation of three pieces, as the proofs that build
      a text piece by piece need after every write. */
  lemma Assoc(a: string, b: string, c: string)
    ensures a + b + c == a + (b + c)
  {
  }

  // ---------------------------------------------------------------------
  // Integers (Integer.toString)

  function DigitChar(d: nat): char
    requires d < 10
  {
    ('0' as int + d) as char
  }

  /** The decimal digits of `n`, most significant first. */
  function NatText(n: nat): string
    decreases n
  {
    if n < 10 then [DigitChar(n)] else NatText(n / 10) + [DigitChar(n % 10)]
  }

  /** Integer.toString: a minus sign for negative values, then the digits. */
  function IntText(i: int): string
  {
    if i < 0 then "-" + NatText(-i) else NatText(i)
  }

  // ---------------------------------------------------------------------
  // Operands, statements and transfers

  function OperandText(o: Operand): string
  {
    match o
    case Int(i) => IntText(i)
    case Var(id) => id
  }

  /** The arguments of a virtual call after the receiver: `, a` for each. */
  function ArgsText(args: seq<Operand>): string
  {
    if args == [] then ""
    else ArgsText(args[..|args| - 1]) + ", " + OperandText(args[|args| - 1])
  }

  /** `dst = left op right;`, the shape of Add, And, Lt, Gt, Sub and Times. */
  function BinaryText(dst: string, left: Operand, op: string, right: Operand): string
  {
    "  " + (dst + " = ") + OperandText(left) + op + OperandText(right) + ";"
  }

  /** A statement. Only Print and NewIntArray end with a newline (they
      use `sayln`); the block writes one more after every statement. */
  function StmText(s: Stm): string
  {
    match s
    case Add(dst, l, r) => BinaryText(dst, l, " + ", r)
    case And(dst, l, r) => BinaryText(dst, l, " && ", r)
    case ArraySelect(dst, a, i) => "  " + (dst + " = ") + OperandText(a) + "[" + OperandText(i) + "];"
    case AssignArray(dst, i, e) => "  " + (dst + "[3 + ") + OperandText(i) + "] = " + OperandText(e) + ";"
    case Gt(dst, l, r) => BinaryText(dst, l, " > ", r)
    case InvokeVirtual(dst, obj, f, args) =>
      "  " + (dst + " = " + obj) + ("->vptr->" + f + "(" + obj) + ArgsText(args) + ");"
    case Length(dst, a) => "  " + (dst + " = ") + OperandText(a) + ".length;"
    case Lt(dst, l, r) => BinaryText(dst, l, " < ", r)
    case Move(dst, src) => "  " + (dst + " = ") + OperandText(src) + ";"
    case NewIntArray(dst, length) => "  " + Ln(dst + " = Tiger_new_array(" + length + ");")
    case NewObject(dst, c) =>
      "  " + (dst + " = ((struct " + c + "*)(Tiger_new (&" + c + "_vtable_, sizeof(struct " + c + "))));")
    case Print(arg) => "  " + "System_out_println (" + OperandText(arg) + Ln(");")
    case Sub(dst, l, r) => BinaryText(dst, l, " - ", r)
    case Times(dst, l, r) => BinaryText(dst, l, " * ", r)
  }

  function TransferText(t: Transfer): string
  {
    match t
    case If(op, tl, fl) =>
      "  " + "if (" + OperandText(op) + ")\n"
      + "  " + ("  goto " + tl + ";\n")
      + "  " + "else\n"
      + "  " + ("  goto " + fl + ";\n")
    case Goto(l) => "  " + ("goto " + l + ";\n")
    case Return(op) => "  " + "return " + OperandText(op) + Ln(";")
  }

  // ---------------------------------------------------------------------
  // Types and declarations

  function TypeText(t: Type): string
  {
    match t
    case ClassType(id) => "struct " + id + " *"
    case IntType => "int"
    case IntArrayType => "int *"
  }

  /** visit(DecSingle): the type, a space, the name. */
  function DecText(d: Dec): string
  {
    TypeText(d.ty) + (" " + d.id)
  }

  // ---------------------------------------------------------------------
  // Blocks and methods

  /** Every statement of a block, each followed by a newline. */
  function StmsText(ss: seq<Stm>): string
  {
    if ss == [] then "" else StmsText(ss[..|ss| - 1]) + StmText(ss[|ss| - 1]) + "\n"
  }

  /** visit(BlockSingle): the label line, the statements, the transfer. */
  function BlockText(b: Block): string
  {
    (b.name + ":\n") + StmsText(b.stms) + TransferText(b.transfer)
  }

  function BlocksText(bs: seq<Block>): string
  {
    if bs == [] then "" else BlocksText(bs[..|bs| - 1]) + BlockText(bs[|bs| - 1])
  }

  /** The formals of a method, separated by `, ` with none after the last. */
  function FormalsText(ds: seq<Dec>): string
  {
    if ds == [] then ""
    else if |ds| == 1 then DecText(ds[0])
    else FormalsText(ds[..|ds| - 1]) + ", " + DecText(ds[|ds| - 1])
  }

  /** The locals loop of visit(MethodSingle): `"  "`, the type, then
      `" id;\n"` for each local. */
  function LocalsText(ds: seq<Dec>): string
  {
    if ds == [] then ""
    else LocalsText(ds[..|ds| - 1]) + "  " + TypeText(ds[|ds| - 1].ty) + (" " + ds[|ds| - 1].id + ";\n")
  }

  function MethodText(m: Method): string
  {
    TypeText(m.retType) + (" " + m.classId + "_" + m.id + "(") + FormalsText(m.formals) + Ln(")")
    + Ln("{")
    + LocalsText(m.locals)
    + Ln("")
    + "  " + Ln("goto " + m.entry + ";")
    + Ln("")
    + BlocksText(m.blocks)
    + Ln("}")
  }

  function MethodsText(ms: seq<Method>): string
  {
    if ms == [] then "" else MethodsText(ms[..|ms| - 1]) + MethodText(ms[|ms| - 1])
  }

  /** The locals loop of visit(MainMethodSingle): `"  "`, the type, `" "`,
      then `id;` with `sayln`. */
  function MainLocalsText(ds: seq<Dec>): string
  {
    if ds == [] then ""
    else MainLocalsText(ds[..|ds| - 1]) + "  " + TypeText(ds[|ds| - 1].ty) + " " + Ln(ds[|ds| - 1].id + ";")
  }

  /** visit(MainMethodSingle): its locals and blocks, but no entry jump. */
  function MainMethodText(m: MainMethod): string
  {
    Ln("int Tiger_main ()")
    + Ln("{")
    + MainLocalsText(m.locals)
    + Ln("")
    + BlocksText(m.blocks)
    + Ln("}\n")
  }

  // ---------------------------------------------------------------------
  // Vtables and classes

  /** One function-pointer member `ret (*id)();` per slot. */
  function SlotsText(ts: seq<Ftuple>): string
  {
    if ts == [] then ""
    else SlotsText(ts[..|ts| - 1]) + "  " + TypeText(ts[|ts| - 1].ret) + Ln(" (*" + ts[|ts| - 1].id + ")();")
  }

  /** visit(VtableSingle): the vtable's struct type. */
  function VtableText(v: Vtable): string
  {
    Ln("struct " + v.id + "_vtable")
    + Ln("{")
    + SlotsText(v.ms)
    + Ln("};\n")
  }

  /** One `classs_id,` initialiser line per slot. */
  function EntriesText(ts: seq<Ftuple>): string
  {
    if ts == [] then ""
    else EntriesText(ts[..|ts| - 1]) + "  " + Ln(ts[|ts| - 1].classs + "_" + ts[|ts| - 1].id + ",")
  }

  /** outputVtable: the vtable instance and its initialiser. */
  function VtableInitText(v: Vtable): string
  {
    Ln("struct " + v.id + "_vtable " + v.id + "_vtable_ = ")
    + Ln("{")
    + EntriesText(v.ms)
    + Ln("};\n")
  }

  function VtablesText(vs: seq<Vtable>): string
  {
    if vs == [] then "" else VtablesText(vs[..|vs| - 1]) + VtableText(vs[|vs| - 1])
  }

  function VtableInitsText(vs: seq<Vtable>): string
  {
    if vs == [] then "" else VtableInitsText(vs[..|vs| - 1]) + VtableInitText(vs[|vs| - 1])
  }

  /** One `  type id;` line per field. */
  function FieldsText(fs: seq<Field>): string
  {
    if fs == [] then ""
    else FieldsText(fs[..|fs| - 1]) + "  " + TypeText(fs[|fs| - 1].ty) + " " + Ln(fs[|fs| - 1].id + ";")
  }

  /** visit(ClassSingle): the object layout, with the vtable pointer first. */
  function ClassText(c: Class): string
  {
    Ln("struct " + c.id)
    + Ln("{")
    + Ln("  struct " + c.id + "_vtable *vptr;")
    + FieldsText(c.decs)
    + Ln("};")
  }

  function ClassesText(cs: seq<Class>): string
  {
    if cs == [] then "" else ClassesText(cs[..|cs| - 1]) + ClassText(cs[|cs| - 1])
  }

  // ---------------------------------------------------------------------
  // The program

  /** visit(ProgramSingle): banner, structs, vtable types, methods, vtable
      instances, main method. */
  function ProgramText(p: Program): string
  {
    Ln("// This is automatically generated by the Tiger compiler.")
    + Ln("// Do NOT modify!\n")
    + Ln("// Control-flow Graph\n")
    + Ln("// structures")
    + ClassesText(p.classes)
    + Ln("// vtables structures")
    + VtablesText(p.vtables)
    + Ln("")
    + Ln("// methods")
    + MethodsText(p.methods)
    + Ln("")
    + Ln("// vtables")
    + VtableInitsText(p.vtables)
    + Ln("")
    + Ln("// main method")
    + MainMethodText(p.mainMethod)
    + Ln("")
    + "\n\n"
  }
}
