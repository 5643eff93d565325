/**
 * The syntax tree the parser builds (parser/ast.rs), and the operator table
 * that maps operator text to an operand and its precedence.
 *
 * Numbers are kept as the text of their literal; the source converts that
 * text to an `f64`, which this model does not follow. The body of an arm is a
 * statement: the parser wraps the expression it reads in `Expr`.
 */
module Ast {
  import opened Wrappers
  import opened Tokens

  datatype Operand =
    | Pow
    | Mul | Div | Mod
    | Add | Sub
    | Equal | NEqual
    | Lt | Gt | LtEqual | GtEqual
    | Concat | Combine
    | PipeLeft | PipeRight

  datatype Expression =
    | Block(statements: seq<Statement>)
    | Number(text: string)
    | Bool(value: bool)
    | Str(text: string)
    | Char(c: char)
    | Identifier(name: string, position: TokenPosition)
    | Operation(left: Expression, op: Operand, right: Expression, position: TokenPosition)
    | Call(callee: Expression, args: seq<Expression>, position: TokenPosition)
    | Index(id: Expression, index: Expression, position: TokenPosition)
    | Function(arms: Expression, position: TokenPosition)
    | Arm(params: seq<Expression>, body: Statement, position: TokenPosition)
    | Op(operand: Operand)
    | EOF

  datatype Statement =
    | Expr(expr: Expression)
    | Assignment(left: Expression, right: Expression, position: TokenPosition)

  /** `Operand::from_str`: the operand an operator's text names, with its precedence (lower binds tighter). */
  function FromStr(v: string): Option<(Operand, nat)> {
    match v
    case "^" => Some((Pow, 0))
    case "*" => Some((Mul, 1))
    case "/" => Some((Div, 1))
    case "%" => Some((Mod, 1))
    case "+" => Some((Add, 2))
    case "-" => Some((Sub, 2))
    case "==" => Some((Equal, 3))
    case "~=" => Some((NEqual, 3))
    case "<" => Some((Lt, 4))
    case ">" => Some((Gt, 4))
    case "<=" => Some((LtEqual, 4))
    case ">=" => Some((GtEqual, 4))
    case "." => Some((Combine, 5))
    case "++" => Some((Concat, 5))
    case "<|" => Some((PipeLeft, 5))
    case "|>" => Some((PipeRight, 5))
    case _ => None
  }

  /**
   * `Operand::to_string`: the operator text the code generator prints; None
   * where the source reaches `unreachable!()` (Concat and the two pipes).
   */
  function ToString(op: Operand): Option<string> {
    match op
    case Pow => Some("^")
    case Mul => Some("*")
    case Div => Some("/")
    case Mod => Some("%")
    case Add => Some("+")
    case Sub => Some("-")
    case Equal => Some("==")
    case NEqual => Some("~=")
    case Lt => Some("<")
    case Gt => Some(">")
    case LtEqual => Some("<=")
    case GtEqual => Some(">=")
    case Combine => Some("..")
    case _ => None
  }

  /** The precedence level of each operand, as the table in `from_str` assigns it. */
  function Precedence(op: Operand): nat {
    match op
    case Pow => 0
    case Mul | Div | Mod => 1
    case Add | Sub => 2
    case Equal | NEqual => 3
    case Lt | Gt | LtEqual | GtEqual => 4
    case Concat | Combine | PipeLeft | PipeRight => 5
  }

  /** The operator texts `from_str` knows. */
  const OperatorTexts: set<string> :=
    {"^", "*", "/", "%", "+", "-", "==", "~=", "<", ">", "<=", ">=", ".", "++", "<|", "|>"}

  /**
   * `from_str` knows exactly the sixteen operator texts, and the precedence it
   * returns is the operand's level: `^` 0, `* / %` 1, `+ -` 2, `== ~=` 3,
   * `< > <= >=` 4 and `. ++ <| |>` 5.
   */
  lemma FromStrTable(v: string)
    ensures FromStr(v).Some? <==> v in OperatorTexts
    ensures FromStr(v).Some? ==> FromStr(v).value.1 == Precedence(FromStr(v).value.0)
  {
  }

  /** Every operand has an operator text that `from_str` maps to it. */
  lemma FromStrOnto(op: Operand)
    ensures exists v :: v in OperatorTexts && FromStr(v) == Some((op, Precedence(op)))
  {
    match op
    case Pow => assert FromStr("^") == Some((op, 0));
    case Mul => assert FromStr("*") == Some((op, 1));
    case Div => assert FromStr("/") == Some((op, 1));
    case Mod => assert FromStr("%") == Some((op, 1));
    case Add => assert FromStr("+") == Some((op, 2));
    case Sub => assert FromStr("-") == Some((op, 2));
    case Equal => assert FromStr("==") == Some((op, 3));
    case NEqual => assert FromStr("~=") == Some((op, 3));
    case Lt => assert FromStr("<") == Some((op, 4));
    case Gt => assert FromStr(">") == Some((op, 4));
    case LtEqual => assert FromStr("<=") == Some((op, 4));
    case GtEqual => assert FromStr(">=") == Some((op, 4));
    case Combine => assert FromStr(".") == Some((op, 5));
    case Concat => assert FromStr("++") == Some((op, 5));
    case PipeLeft => assert FromStr("<|") == Some((op, 5));
    case PipeRight => assert FromStr("|>") == Some((op, 5));
  }

  /**
   * Printing then reading an operator gives it back for Pow through GtEqual;
   * Combine prints as `..`, which is no operator, and Concat and the pipes
   * have no printed form at all.
   */
  lemma ToStringRoundTrip(op: Operand)
    ensures ToString(op).None? <==> op in {Concat, PipeLeft, PipeRight}
    ensures ToString(op).Some? && op != Combine ==> FromStr(ToString(op).value) == Some((op, Precedence(op)))
    ensures op == Combine ==> ToString(op) == Some("..") && FromStr("..") == None
  {
  }
}
