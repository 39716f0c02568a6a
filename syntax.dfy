/** The intermediate representation the parser builds and the generator reads:
    typed values, flat expressions, conditions, commands, declarations and the
    program record (a list of procedures plus `main`). */
module Syntax {
  import opened Wrappers

  /** The two value types; `int` declarations get `I64`, `float` ones `F64`. */
  datatype Ty = I64 | F64

  /** The type name as it is written into the module text. */
  function TyName(t: Ty): string
  {
    match t
    case I64 => "i64"
    case F64 => "f64"
  }

  /** A literal as the lexer delivered it: an integer value, or a float kept
      as its text (no floating-point conversion is modelled). */
  datatype Literal = IntLit(n: nat) | FloatLit(digits: string)

  /** A value: a typed constant, a resolved scalar variable, or the empty
      placeholder that an array element reference produces. */
  datatype Value =
    | Const(lit: Literal, ty: Ty)
    | Local(name: string, ty: Ty)
    | ArrayPlaceholder

  /** The five arithmetic operation tags. */
  datatype BinOp = Add | Sub | Mul | Div | Mod

  /** The six comparison tags. */
  datatype RelOp = Eq | Ne | Lt | Gt | Le | Ge

  /** An expression is a bare value or exactly one binary operation. */
  datatype Expression =
    | Plain(value: Value)
    | Binary(left: Value, right: Value, op: BinOp)

  datatype Condition = Cond(op: RelOp, left: Value, right: Value)

  /** Commands; the loop variable of a `for` is kept as the raw name. */
  datatype Command =
    | Assign(target: Value, expr: Expression)
    | If(cond: Condition, thenBody: seq<Command>)
    | IfElse(cond: Condition, thenBody: seq<Command>, elseBody: seq<Command>)
    | While(cond: Condition, body: seq<Command>)
    | ForUp(counter: string, from: Value, to: Value, body: seq<Command>)
    | ForDown(counter: string, from: Value, downto: Value, body: seq<Command>)
    | Read(target: Value)
    | Write(value: Value)

  /** A declaration; `size` is present for an array declaration. */
  datatype Decl = Decl(ty: Ty, name: string, size: Option<nat>)

  datatype Procedure = Procedure(name: string, args: seq<Decl>, locals: seq<Decl>, body: seq<Command>)

  /** `main` has a name and locals but no argument list. */
  datatype MainProc = MainProc(name: string, locals: seq<Decl>, body: seq<Command>)

  datatype Program = Program(procedures: seq<Procedure>, main: MainProc)
}
