/** The typed abstract syntax tree that the bytecode translator consumes
    (the Java package ast.Ast). It is produced and type-checked by earlier
    phases; every identifier already carries its type and a flag saying
    whether it names a field of the enclosing class. */
module Ast {
  import opened Wrappers

  datatype Type = Boolean | Int | IntArray | ClassType(id: string)

  /** The number `getNum()` gives each source type: the two primitive types
      are not positive, `int[]` is 1 and a class type is 2. Only the cases of
      `transformType` and the test `getNum() > 0` (a reference) depend on it. */
  function TypeNum(t: Type): int
  {
    match t
    case Boolean => -1
    case Int => 0
    case IntArray => 1
    case ClassType(_) => 2
  }

  /** A value of this type lives in a reference slot (aload/astore). */
  predicate IsReference(t: Type)
  {
    TypeNum(t) > 0
  }

  datatype Exp =
    | Add(left: Exp, right: Exp)
    | And(left: Exp, right: Exp)
    | ArraySelect(arr: Exp, index: Exp)
      /** `exp.id(args)`: `cls` is the static class of the receiver, `at` the
          declared parameter types and `rt` the declared return type. */
    | Call(exp: Exp, id: string, cls: string, args: seq<Exp>, at: seq<Type>, rt: Type)
    | False
    | Id(id: string, ty: Type, isField: bool)
    | Length(arr: Exp)
    | Lt(left: Exp, right: Exp)
    | Le(left: Exp, right: Exp)
    | Gt(left: Exp, right: Exp)
    | Ge(left: Exp, right: Exp)
    | Eq(left: Exp, right: Exp)
    | NewIntArray(exp: Exp)
    | NewObject(id: string)
    | Not(exp: Exp)
    | Num(num: int)
    | StringLiteral(literal: string)
    | Sub(left: Exp, right: Exp)
    | This
    | Times(left: Exp, right: Exp)
    | True

  /** Statements. `line` is the source line of the statement's expression
      (its condition for `If` and `While`), the value `pos.lineRow()` gives. */
  datatype Stm =
    | Assign(id: string, exp: Exp, ty: Type, isField: bool, line: int)
    | AssignArray(id: string, index: Exp, exp: Exp, isField: bool, line: int)
    | Block(stms: seq<Stm>)
    | If(condition: Exp, thenn: Stm, elsee: Stm, line: int)
    | Print(exp: Exp, line: int)
    | While(condition: Exp, body: Stm, line: int)

  datatype Dec = Dec(ty: Type, id: string)

  datatype Method = Method(
    retType: Type,
    id: string,
    formals: seq<Dec>,
    locals: seq<Dec>,
    stms: seq<Stm>,
    retExp: Exp)

  datatype Class = Class(id: string, extendss: Option<string>, decs: seq<Dec>, methods: seq<Method>)

  datatype MainClass = MainClass(id: string, arg: string, stm: Stm)

  datatype Program = Program(mainClass: MainClass, classes: seq<Class>)
}
