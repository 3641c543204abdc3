/** The stack-machine instruction lists the translator produces (the Java
    package codegen.bytecode.Ast). Branch targets are symbolic labels, and a
    label is marked in the stream by a `LabelJ` instruction. */
module Bytecode {
  import opened Wrappers

  type Label = int

  datatype Type = Int | IntArray | ClassType(id: string)

  /** The descriptor string a field instruction carries: either the one the
      lowered type describes itself with (`desc()`, whose text is not part of
      this model) or a literal written in the translator. */
  datatype Descriptor = DescOf(ty: Type) | Literal(text: string)

  datatype Instr =
    | Aload(slot: int)
    | Areturn
    | ArrayLength
    | Astore(slot: int)
    | False
    | GetField(spec: string, desc: Descriptor)
    | Goto(target: Label)
    | Iaload
    | IAdd
    | IAnd
    | Iastore
    | Ifeq(target: Label)
    | Ifne(target: Label)
    | Ificmpgt(target: Label)
    | Ificmplt(target: Label)
    | Iload(slot: int)
    | Imul
    | Invokevirtual(f: string, c: string, at: seq<Type>, rt: Type)
    | Ireturn
    | Istore(slot: int)
    | Isub
    | LabelJ(mark: Label)
    | LdcInt(n: int)
    | LdcString(s: string)
      /** `Debug.Line`: a source-line marker with no effect on control. */
    | Line(line: int)
    | New(c: string)
    | NewArray
    | Print(format: string)
    | PutField(spec: string, desc: Descriptor)
    | This
    | True
  {
    /** A branch instruction, conditional or not; it names a target label. */
    predicate IsJump()
    {
      Goto? || Ifeq? || Ifne? || Ificmpgt? || Ificmplt?
    }
  }

  datatype Dec = Dec(ty: Type, id: string)

  /** A translated method. `retFake` is the constant the translator passes
      (always 0) and `index` the next free local slot when the method
      was done, that is the number of local slots it uses. */
  datatype Method = Method(
    retType: Type,
    id: string,
    classId: string,
    formals: seq<Dec>,
    locals: seq<Dec>,
    stms: seq<Instr>,
    retFake: int,
    index: int)

  datatype Class = Class(id: string, extendss: Option<string>, decs: seq<Dec>, methods: seq<Method>)

  datatype MainClass = MainClass(id: string, arg: string, stms: seq<Instr>)

  datatype Program = Program(mainClass: MainClass, classes: seq<Class>)
}
