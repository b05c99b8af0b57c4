/** Tokens and syntax trees of the condition language. */
module ConditionSyntax {
  import Json

  datatype CmpOp = Eq | Ne | Gt | Lt | Ge | Le

  datatype ArithOp = Add | Sub | Mul | Div | Rem

  /** `Undefined` (a missing variable) is not the JSON value `null`. */
  datatype EvalValue =
    | Undefined
    | Null
    | Bool(b: bool)
    | Number(n: real)
    | String(s: string)
    | Json(value: Json.Value)

  datatype PathSegment = Field(name: string) | Index(index: nat)

  datatype Expr =
    | Literal(value: EvalValue)
    | Path(segments: seq<PathSegment>)
    | Not(inner: Expr)
    | Neg(inner: Expr)
    | And(lhs: Expr, rhs: Expr)
    | Or(lhs: Expr, rhs: Expr)
    | Compare(cmp: CmpOp, lhs: Expr, rhs: Expr)
    | Arith(arith: ArithOp, lhs: Expr, rhs: Expr)

  datatype Token =
    | TNumber(n: real)
    | TStr(s: string)
    | TIdent(name: string)
    | TTrue | TFalse | TNull
    | TOr | TAnd | TNot
    | TEq | TNe | TGt | TLt | TGe | TLe
    | TPlus | TMinus | TStar | TSlash | TPercent
    | TLParen | TRParen | TLBracket | TRBracket
    | TDot
    | TEof

  function CmpOpOf(t: Token): CmpOp
    requires t.TEq? || t.TNe? || t.TGt? || t.TLt? || t.TGe? || t.TLe?
  {
    match t
    case TEq => Eq
    case TNe => Ne
    case TGt => Gt
    case TLt => Lt
    case TGe => Ge
    case TLe => Le
  }

  predicate IsCmp(t: Token) {
    t.TEq? || t.TNe? || t.TGt? || t.TLt? || t.TGe? || t.TLe?
  }

  /** `usize::MAX as f64`, which rounds up to the next power of two. */
  const USIZE_LIMIT: real := 18446744073709551616.0
  const USIZE_MAX: nat := 18446744073709551615

  /** The source accepts an array index by this test on the number token. */
  predicate IsIndexValue(n: real) {
    0.0 <= n <= USIZE_LIMIT && n == n.Floor as real
  }

  /** The saturating cast of an accepted index value. */
  function CastIndex(n: real): nat
    requires IsIndexValue(n)
  {
    if n.Floor > USIZE_MAX then USIZE_MAX else n.Floor
  }

  /** The cast keeps the value for every accepted index except 2^64 itself, which
      the range test lets through and the cast saturates. */
  lemma CastIsLossless(n: real)
    requires IsIndexValue(n)
    ensures CastIndex(n) as real == n <==> n < USIZE_LIMIT
  {
  }
}
