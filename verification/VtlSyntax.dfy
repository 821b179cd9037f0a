/** The two languages of the VTL compiler: the Python expressions it reads and the
    Verilog expressions it builds. */
module VtlSyntax {
  import opened Options

  // ----- Python -----

  datatype CmpOp = Eq | NotEq | Lt | LtE | Gt | GtE

  datatype BoolKind = And | Or

  datatype ArithOp = Add | Sub | Mult | Div | LShift | Pow | Mod | RShift | BitOr | BitXor | BitAnd | FloorDiv

  datatype UnaryKind = Invert | Not | USub | UAdd

  datatype PyExpr =
    | Num(n: nat)
    | Str(s: string)
    | Name(id: string)
    | Compare(left: PyExpr, ops: seq<CmpOp>, comparators: seq<PyExpr>)
    | BoolOp(kind: BoolKind, values: seq<PyExpr>)
    | BinOp(op: ArithOp, lhs: PyExpr, rhs: PyExpr)
    | UnaryOp(uop: UnaryKind, operand: PyExpr)
    | Call(func: string, args: seq<PyExpr>)
    | Index(value: PyExpr, index: PyExpr)
    | Slice(value: PyExpr, lower: PyExpr, upper: PyExpr)
    | Attribute(value: PyExpr, attr: string)
    | Tuple(elts: seq<PyExpr>)

  // ----- Verilog -----

  datatype Base = Plain | Binary | Hexadecimal | DecimalBase

  datatype VBinOp =
    | AND | OR | ADD | SUB | GT | LT | GT_EQ | MUL | EQ | NOT_EQ | DIV | SL | POW

  datatype VUnaryOp = COMPLEMENT | NOT

  datatype Modifier = NoModifier | At(index: VExpr) | Part(upper: VExpr, lower: VExpr)

  datatype VExpr =
    | Constant(value: int, base: Base, width: Option<nat>)
    | DefinedConstant(macro: string)
    | VName(name: string, modifier: Modifier)
    | VAttribute(owner: VExpr, attribute: VExpr)
    | VSet(items: seq<VExpr>)
    | VUnary(uop: VUnaryOp, operand: VExpr)
    | VBinary(op: VBinOp, lhs: VExpr, rhs: VExpr)
    | VTrinary(condition: VExpr, trueValue: VExpr, falseValue: VExpr)
    | VCall(func: string, args: seq<VExpr>)
    | VString(text: string)
}
