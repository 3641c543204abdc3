/** The control-flow-graph program the C pretty-printer consumes
    (the node classes of package cfg). Labels appear only through their
    text, so they are strings here. */
module Cfg {
  datatype Type = ClassType(id: string) | IntType | IntArrayType

  datatype Operand = Int(i: int) | Var(id: string)

  /** A straight-line statement. `NewIntArray` keeps the text that string
      concatenation gives its length operand. */
  datatype Stm =
    | Add(dst: string, left: Operand, right: Operand)
    | And(dst: string, left: Operand, right: Operand)
    | ArraySelect(dst: string, array: Operand, index: Operand)
    | AssignArray(dst: string, index: Operand, exp: Operand)
    | Gt(dst: string, left: Operand, right: Operand)
    | InvokeVirtual(dst: string, obj: string, f: string, args: seq<Operand>)
    | Length(dst: string, array: Operand)
    | Lt(dst: string, left: Operand, right: Operand)
    | Move(dst: string, src: Operand)
    | NewIntArray(dst: string, length: string)
    | NewObject(dst: string, c: string)
    | Print(arg: Operand)
    | Sub(dst: string, left: Operand, right: Operand)
    | Times(dst: string, left: Operand, right: Operand)

  /** The one jump that ends a block. */
  datatype Transfer =
    | If(operand: Operand, truee: string, falsee: string)
    | Goto(target: string)
    | Return(operand: Operand)

  datatype Dec = Dec(ty: Type, id: string)

  datatype Block = Block(name: string, stms: seq<Stm>, transfer: Transfer)

  datatype Method = Method(retType: Type, classId: string, id: string, formals: seq<Dec>,
                           locals: seq<Dec>, blocks: seq<Block>, entry: string)

  datatype MainMethod = MainMethod(locals: seq<Dec>, blocks: seq<Block>)

  /** A field of a class: its type and name (cfg.Tuple). */
  datatype Field = Field(ty: Type, id: string)

  datatype Class = Class(id: string, decs: seq<Field>)

  /** A vtable slot: the declaring class, the return type and the method
      name (cfg.Ftuple). */
  datatype Ftuple = Ftuple(classs: string, ret: Type, id: string)

  datatype Vtable = Vtable(id: string, ms: seq<Ftuple>)

  datatype Program = Program(classes: seq<Class>, vtables: seq<Vtable>, methods: seq<Method>,
                             mainMethod: MainMethod)
}
