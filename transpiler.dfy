/**
 * The Lua code generator (transpiler/transpiler.rs). The text each node
 * lowers to is given by pure functions (`ExprText`, `StmtText`, ...); the
 * `Transpiler` class builds the same text with the loops the source uses and
 * is proved to agree with them.
 *
 * An error is what the source reaches `unreachable!()` for: a `++`
 * operation, and a function whose arms are not a block. Errors raised by a
 * sub-expression stop the lowering, as `?` does.
 */
module Transpilers {
  import opened Wrappers
  import opened Tokens
  import opened Chars
  import opened Ast
  import opened Matchers

  /** The Lua keywords an assigned identifier is renamed away from. */
  const Keywords: set<string> := {"while", "if", "else", "elseif", "do", "local", "end", "for", "then"}

  /** An identifier as `lua_expression` prints it: a keyword or `self` gets a leading `_`. */
  function LuaName(n: string): string {
    if n in Keywords || n == "self" then "_" + n else n
  }

  /** The rename `lua_statement` applies to the identifier an assignment binds, before printing it. */
  function AssignedName(n: string): string {
    if n in Keywords then "_" + n else n
  }

  function Quoted(s: string): string {
    "\"" + s + "\""
  }

  /** An operand written as an expression: `+` is Lua's `__add` metamethod, the others print nothing. */
  function OperandName(op: Operand): string {
    if op == Add then "__add" else ""
  }

  /** The text of `left op right`, given the text of both sides. */
  function OperationText(op: Operand, left: string, right: string): Result<string, Error> {
    match op
    case Combine => Ok("function(__a) return " + left + "(" + right + "(__a)) end\n")
    case PipeLeft => Ok(left + "(" + right + ")\n")
    case PipeRight => Ok(right + "(" + left + ")\n")
    case _ => if ToString(op).Some? then Ok("(" + left + ToString(op).value + right + ")") else Err(Unreachable)
  }

  /** The values of `rs` when every one is Ok; otherwise the first error. */
  function AllOk<T>(rs: seq<Result<T, Error>>): Result<seq<T>, Error> {
    if rs == [] then Ok([])
    else
      var front :- AllOk(rs[..|rs| - 1]);
      var last :- rs[|rs| - 1];
      Ok(front + [last])
  }

  function Concatenated(parts: seq<string>): string {
    if parts == [] then "" else Concatenated(parts[..|parts| - 1]) + parts[|parts| - 1]
  }

  /** The parts separated by commas. */
  function Join(parts: seq<string>): string {
    if |parts| <= 1 then Concatenated(parts) else Join(parts[..|parts| - 1]) + "," + parts[|parts| - 1]
  }

  /** The parameters the lowering of an arm compares against an argument. */
  predicate IsLiteral(p: Expression) {
    p.Number? || p.Bool? || p.Char? || p.Operation? || p.Str?
  }

  predicate HasLiteral(params: seq<Expression>) {
    exists k :: 0 <= k < |params| && IsLiteral(params[k])
  }

  /** How many of `params` are not literals: the second loop of an arm advances its argument index only for those. */
  function NonLiterals(params: seq<Expression>): nat {
    if params == [] then 0
    else NonLiterals(params[..|params| - 1]) + (if IsLiteral(params[|params| - 1]) then 0 else 1)
  }

  /** The local an arm binds for parameter `p` from argument `index` of `__args`: only an identifier that is no operator is bound. */
  function Bind(p: Expression, index: nat): string {
    if p.Identifier? && FromStr(p.name).None? then
      "local " + LuaName(p.name) + " = __args[" + NatToString(index) + "]\n"
    else ""
  }

  /** An arm's body is returned unless it is an assignment or a block. */
  function ReturnPrefix(body: Statement): string {
    if body.Expr? && !body.expr.Block? then "return " else ""
  }

  /** The test of one literal parameter against argument `index`, guarding the arm's body. */
  function Guarded(test: Result<string, Error>, index: nat, body: Statement, lowered: Result<string, Error>): Result<string, Error> {
    var t :- test;
    var b :- lowered;
    Ok(("if " + t + " == __args[" + NatToString(index) + "] then\n") + ReturnPrefix(body) + (b + "\n") + "end\n")
  }

  const CallPrologue := "__call = function(...)\nlocal __args = {...}\n"

  /** `lua_expression`. */
  function ExprText(e: Expression): Result<string, Error>
    decreases e, 2
  {
    match e
    case Number(text) => Ok(text)
    case Str(text) => Ok(Quoted(text))
    case Bool(b) => Ok(if b then "true" else "false")
    case Char(c) => Ok(Quoted([c]))
    case Op(op) => Ok(OperandName(op))
    case Identifier(n, _) => Ok(LuaName(n))
    case Operation(l, op, r, _) =>
      var left :- ExprText(l);
      var right :- ExprText(r);
      OperationText(op, left, right)
    case Call(_, _, _) => CallText(e)
    case Function(arms, _) => FunctionText(arms)
    case Arm(_, _, _) => ArmText(e)
    case Block(_) => Ok("")
    case Index(_, _, _) => Ok("")
    case EOF => Ok("")
  }

  /** `lua_statement`: an expression, or `local target=value` with a keyword target renamed. */
  function StmtText(st: Statement): Result<string, Error>
    decreases st, 1
  {
    match st
    case Expr(e) => ExprText(e)
    case Assignment(left, right, _) =>
      var l :- if left.Identifier? then Ok(LuaName(AssignedName(left.name))) else ExprText(left);
      var r :- ExprText(right);
      Ok("local " + l + "=" + r + "\n")
  }

  /** A call: the callee in parentheses, then the arguments in parentheses, separated by commas. */
  function CallText(call: Expression): Result<string, Error>
    requires call.Call?
    decreases call, 1
  {
    var callee :- ExprText(call.callee);
    var args :- AllOk(ArgTexts(call));
    Ok("(" + callee + ")(" + Join(args) + ")")
  }

  /** The text of each argument of a call. */
  function ArgTexts(call: Expression): (rs: seq<Result<string, Error>>)
    requires call.Call?
    ensures |rs| == |call.args|
    decreases call, 0
  {
    seq(|call.args|, k requires 0 <= k < |call.args| => ExprText(call.args[k]))
  }

  /**
   * A function: a table whose metatable holds one entry per operator arm
   * and a `__call` entry that tries the arms in order, returning the last
   * statement when it is an expression other than an arm.
   */
  function FunctionText(arms: Expression): Result<string, Error>
    decreases arms, 1
  {
    if !arms.Block? then Err(Unreachable)
    else
      var overloads :- AllOk(OverloadTexts(arms));
      var lines :- AllOk(LineTexts(arms));
      Ok("setmetatable({}, {" + Concatenated(overloads) + CallPrologue + Concatenated(lines) + "end,\n" + "})")
  }

  function OverloadTexts(arms: Expression): (rs: seq<Result<string, Error>>)
    requires arms.Block?
    ensures |rs| == |arms.statements|
    decreases arms, 0
  {
    seq(|arms.statements|, k requires 0 <= k < |arms.statements| => OverloadText(arms.statements[k]))
  }

  function LineTexts(arms: Expression): (rs: seq<Result<string, Error>>)
    requires arms.Block?
    ensures |rs| == |arms.statements|
    decreases arms, 0
  {
    var sts := arms.statements;
    seq(|sts|, k requires 0 <= k < |sts| => LineText(sts[k], k + 1 == |sts|))
  }

  /** The metatable entry of an arm whose first parameter is an operand and which has a second one. */
  function OverloadText(s: Statement): Result<string, Error>
    decreases s, 0
  {
    match s
    case Expr(a) => ArmOverloadText(a)
    case Assignment(_, _, _) => Ok("")
  }

  function ArmOverloadText(a: Expression): Result<string, Error>
    decreases a, 0
  {
    if a.Arm? && |a.params| >= 2 && a.params[0].Op? then
      var other :- ExprText(a.params[1]);
      var body :- match a.body
        case Expr(x) => (var t :- ExprText(x); Ok("return " + t + "\n"))
        case Assignment(_, _, _) => StmtText(a.body);
      Ok(OperandName(a.params[0].operand) + " = function(_, " + other + ")\n" + body + "end,\n")
    else Ok("")
  }

  /** One statement of a function's `__call` body. */
  function LineText(s: Statement, last: bool): Result<string, Error>
    decreases s, 2
  {
    var t :- StmtText(s);
    Ok((if last && s.Expr? && !s.expr.Arm? then "return " else "") + t + "\n")
  }

  /**
   * An arm: a test on the argument count (the function table itself is the
   * first argument), a local for each identifier parameter at its position,
   * a guarded copy of the body for each literal parameter, and the body
   * returned unguarded when there is no literal.
   */
  function ArmText(arm: Expression): Result<string, Error>
    requires arm.Arm?
    decreases arm, 1
  {
    var guards :- AllOk(GuardTexts(arm));
    var tail :- ArmTail(arm);
    Ok("if " + NatToString(|arm.params| + 1) + " == #__args then\n"
      + Concatenated(Binds(arm.params)) + Concatenated(guards) + tail + "end\n")
  }

  /** The local bound for each parameter, empty for all but identifiers. */
  function Binds(params: seq<Expression>): (bs: seq<string>)
    ensures |bs| == |params|
  {
    seq(|params|, k requires 0 <= k < |params| => Bind(params[k], k + 2))
  }

  /** The guarded body for each literal parameter, empty for the others. */
  function GuardTexts(arm: Expression): (rs: seq<Result<string, Error>>)
    requires arm.Arm?
    ensures |rs| == |arm.params|
    decreases arm, 0
  {
    var params := arm.params;
    seq(|params|, k requires 0 <= k < |params| =>
      if IsLiteral(params[k]) then Guarded(ExprText(params[k]), 2 + NonLiterals(params[..k]), arm.body, StmtText(arm.body))
      else Ok(""))
  }

  /** The unguarded return that closes an arm without literal parameters. */
  function ArmTail(arm: Expression): Result<string, Error>
    requires arm.Arm?
    decreases arm, 0
  {
    if HasLiteral(arm.params) || arm.body.Assignment? then Ok("")
    else
      var t :- ExprText(arm.body.expr);
      Ok("return " + t + "\n")
  }

  /** `lua`: the statements' texts one after another. */
  function ProgramText(ast: seq<Statement>): Result<string, Error> {
    var parts :- AllOk(StmtTexts(ast));
    Ok(Concatenated(parts))
  }

  function StmtTexts(ast: seq<Statement>): (rs: seq<Result<string, Error>>)
    ensures |rs| == |ast|
  {
    seq(|ast|, k requires 0 <= k < |ast| => StmtText(ast[k]))
  }

  /* ---------------- facts about the helpers ---------------- */

  lemma AllOkStep<T>(rs: seq<Result<T, Error>>, i: nat)
    requires i < |rs| && AllOk(rs[..i]).Ok? && rs[i].Ok?
    ensures AllOk(rs[..i + 1]) == Ok(AllOk(rs[..i]).value + [rs[i].value])
  {
    assert rs[..i + 1][..i] == rs[..i];
  }

  /** Once a prefix is Ok and the next result is an error, every longer prefix fails with that error. */
  lemma {:induction false} AllOkStopsAt<T>(rs: seq<Result<T, Error>>, i: nat, j: nat)
    requires i < j <= |rs| && AllOk(rs[..i]).Ok? && rs[i].Err?
    ensures AllOk(rs[..j]) == Err(rs[i].error)
    decreases j
  {
    assert rs[..j][..j - 1] == rs[..j - 1];
    if j == i + 1 {
      assert rs[..j][j - 1] == rs[i];
    } else {
      AllOkStopsAt(rs, i, j - 1);
    }
  }

  lemma AllOkStops<T>(rs: seq<Result<T, Error>>, i: nat)
    requires i < |rs| && AllOk(rs[..i]).Ok? && rs[i].Err?
    ensures AllOk(rs) == Err(rs[i].error)
  {
    AllOkStopsAt(rs, i, |rs|);
    assert rs[..|rs|] == rs;
  }

  /**
   * `AllOk` against its meaning: Ok exactly when every result is, with the
   * values in order; otherwise the error of the first result that failed.
   */
  lemma {:induction false} AllOkMeaning<T>(rs: seq<Result<T, Error>>)
    ensures AllOk(rs).Ok? <==> forall k :: 0 <= k < |rs| ==> rs[k].Ok?
    ensures AllOk(rs).Ok? ==> |AllOk(rs).value| == |rs| && forall k :: 0 <= k < |rs| ==> AllOk(rs).value[k] == rs[k].value
    ensures AllOk(rs).Err? ==> exists i :: 0 <= i < |rs| && rs[i].Err? && AllOk(rs).error == rs[i].error && forall k :: 0 <= k < i ==> rs[k].Ok?
    decreases |rs|
  {
    if rs != [] {
      var n := |rs| - 1;
      var front := rs[..n];
      AllOkMeaning(front);
      assert forall k :: 0 <= k < n ==> front[k] == rs[k];
      if AllOk(front).Err? {
        var i :| 0 <= i < n && front[i].Err? && AllOk(front).error == front[i].error && forall k :: 0 <= k < i ==> front[k].Ok?;
        assert rs[i].Err?;
      } else if rs[n].Err? {
        assert forall k :: 0 <= k < n ==> rs[k].Ok?;
      }
    }
  }

  /** Lowering two lists one after the other is lowering their concatenation. */
  lemma {:induction false} AllOkAppend<T>(a: seq<Result<T, Error>>, b: seq<Result<T, Error>>)
    ensures AllOk(a).Err? ==> AllOk(a + b) == AllOk(a)
    ensures AllOk(a).Ok? && AllOk(b).Err? ==> AllOk(a + b) == AllOk(b)
    ensures AllOk(a).Ok? && AllOk(b).Ok? ==> AllOk(a + b) == Ok(AllOk(a).value + AllOk(b).value)
    decreases |b|
  {
    if b == [] {
      assert a + b == a;
      if AllOk(a).Ok? {
        assert AllOk(a).value + AllOk(b).value == AllOk(a).value;
      }
    } else {
      var n := |b| - 1;
      AllOkAppend(a, b[..n]);
      assert (a + b)[..|a + b| - 1] == a + b[..n];
      assert (a + b)[|a + b| - 1] == b[n];
      if AllOk(a).Ok? && AllOk(b[..n]).Ok? && b[n].Ok? {
        assert AllOk(a).value + AllOk(b).value == AllOk(a).value + AllOk(b[..n]).value + [b[n].value];
      }
    }
  }

  lemma {:induction false} ConcatenatedAppend(a: seq<string>, b: seq<string>)
    ensures Concatenated(a + b) == Concatenated(a) + Concatenated(b)
    decreases |b|
  {
    if b == [] {
      assert a + b == a;
    } else {
      var n := |b| - 1;
      ConcatenatedAppend(a, b[..n]);
      assert (a + b)[..|a + b| - 1] == a + b[..n];
    }
  }

  /** Joining comma-free parts puts exactly one comma between each two of them. */
  lemma {:induction false} JoinCommas(parts: seq<string>)
    requires forall k :: 0 <= k < |parts| ==> ',' !in parts[k]
    ensures CountChar(Join(parts), ',') == if parts == [] then 0 else |parts| - 1
    decreases |parts|
  {
    if |parts| == 1 {
      assert parts[..0] == [];
      assert Join(parts) == Concatenated(parts) == Concatenated(parts[..0]) + parts[0];
      assert Join(parts) == parts[0];
      CountCharZero(parts[0], ',');
    } else if |parts| > 1 {
      var n := |parts| - 1;
      JoinCommas(parts[..n]);
      CountCharAppend(Join(parts[..n]) + ",", parts[n], ',');
      CountCharAppend(Join(parts[..n]), ",", ',');
      CountCharZero(parts[n], ',');
    }
  }

  /* ---------------- properties of the lowering ---------------- */

  /**
   * The source renames a keyword target and then prints it as an
   * identifier, which renames `self` as well; a renamed name is never
   * renamed twice, so the target prints as any other use of the name.
   */
  lemma AssignedNameLowered(n: string)
    ensures LuaName(AssignedName(n)) == LuaName(n)
  {
    if n in Keywords {
      var u := "_" + n;
      assert u[0] == '_';
      assert u !in Keywords && u != "self";
    }
  }

  /** `x = v` lowers to `local x=v` followed by a newline, with `x` printed as an identifier. */
  lemma AssignmentText(n: string, p: TokenPosition, right: Expression, q: TokenPosition)
    ensures ExprText(right).Ok? ==>
      StmtText(Assignment(Expression.Identifier(n, p), right, q)) == Ok("local " + LuaName(n) + "=" + ExprText(right).value + "\n")
    ensures ExprText(right).Err? ==>
      StmtText(Assignment(Expression.Identifier(n, p), right, q)) == Err(ExprText(right).error)
  {
    AssignedNameLowered(n);
  }

  /**
   * Two names print alike exactly when they are equal or one is a renamed
   * word and the other is that word with `_` in front: `while` and
   * `_while` both print as `_while`.
   */
  lemma LuaNameCollides(n: string, m: string)
    ensures LuaName(n) == LuaName(m) <==>
      n == m
      || ((n in Keywords || n == "self") && m == "_" + n)
      || ((m in Keywords || m == "self") && n == "_" + m)
  {
    if n in Keywords || n == "self" {
      assert ("_" + n)[0] == '_';
    }
    if m in Keywords || m == "self" {
      assert ("_" + m)[0] == '_';
    }
    if (n in Keywords || n == "self") && (m in Keywords || m == "self") && LuaName(n) == LuaName(m) {
      assert n == ("_" + n)[1..] == ("_" + m)[1..] == m;
    }
  }

  /** The arithmetic and comparison operators print as text the lexer reads back as the same operator. */
  lemma OperatorPrintsBack(l: Expression, op: Operand, r: Expression, p: TokenPosition)
    requires op !in {Combine, Concat, PipeLeft, PipeRight}
    requires ExprText(l).Ok? && ExprText(r).Ok?
    ensures exists v :: (FromStr(v) == Some((op, Precedence(op)))
      && ExprText(Operation(l, op, r, p)) == Ok("(" + ExprText(l).value + v + ExprText(r).value + ")"))
  {
    ToStringRoundTrip(op);
    var v := ToString(op).value;
    assert FromStr(v) == Some((op, Precedence(op)));
  }

  /** `++` has no Lua form: lowering it is the unreachable error. */
  lemma ConcatUnreachable(l: Expression, r: Expression, p: TokenPosition)
    requires ExprText(l).Ok? && ExprText(r).Ok?
    ensures ExprText(Operation(l, Concat, r, p)) == Err(Unreachable)
  {
  }

  /** `x |> f` and `f <| x` lower to the same call `f(x)`. */
  lemma PipesAgree(x: Expression, f: Expression, p: TokenPosition, q: TokenPosition)
    requires ExprText(x).Ok? && ExprText(f).Ok?
    ensures ExprText(Operation(x, PipeRight, f, p)) == ExprText(Operation(f, PipeLeft, x, q))
    ensures ExprText(Operation(f, PipeLeft, x, q)) == Ok(ExprText(f).value + "(" + ExprText(x).value + ")\n")
  {
  }

  /** `f . g` is the function that applies `g` and then `f`. */
  lemma CombineComposes(f: Expression, g: Expression, p: TokenPosition)
    requires ExprText(f).Ok? && ExprText(g).Ok?
    ensures ExprText(Operation(f, Combine, g, p))
      == Ok("function(__a) return " + ExprText(f).value + "(" + ExprText(g).value + "(__a)) end\n")
  {
  }

  /** The text of a call whose callee and arguments all lower. */
  lemma CallParts(call: Expression)
    requires call.Call? && ExprText(call.callee).Ok?
    requires forall k :: 0 <= k < |call.args| ==> ExprText(call.args[k]).Ok?
    ensures var parts := seq(|call.args|, k requires 0 <= k < |call.args| => ExprText(call.args[k]).value);
      ExprText(call) == Ok("(" + ExprText(call.callee).value + ")(" + Join(parts) + ")")
  {
    AllOkMeaning(ArgTexts(call));
    var parts := seq(|call.args|, k requires 0 <= k < |call.args| => ExprText(call.args[k]).value);
    assert AllOk(ArgTexts(call)).value == parts;
  }

  /** With comma-free callee and arguments, a call holds one comma fewer than it has arguments. */
  lemma CallCommas(callee: Expression, args: seq<Expression>, p: TokenPosition)
    requires ExprText(callee).Ok? && ',' !in ExprText(callee).value
    requires forall k :: 0 <= k < |args| ==> ExprText(args[k]).Ok? && ',' !in ExprText(args[k]).value
    ensures ExprText(Call(callee, args, p)).Ok?
    ensures CountChar(ExprText(Call(callee, args, p)).value, ',') == if args == [] then 0 else |args| - 1
  {
    CallParts(Call(callee, args, p));
    var parts := seq(|args|, k requires 0 <= k < |args| => ExprText(args[k]).value);
    JoinCommas(parts);
    CommasAround(ExprText(callee).value, Join(parts));
  }

  lemma CommasAround(c: string, j: string)
    requires ',' !in c
    ensures CountChar("(" + c + ")(" + j + ")", ',') == CountChar(j, ',')
  {
    CountCharZero(c, ',');
    CountCharAppend("(" + c + ")(" + j, ")", ',');
    CountCharAppend("(" + c + ")(", j, ',');
    CountCharAppend("(" + c, ")(", ',');
    CountCharAppend("(", c, ',');
  }

  /** An arm starts by testing the argument count, `|params| + 1` counting the table, and ends with `end`. */
  lemma ArmFrame(params: seq<Expression>, body: Statement, p: TokenPosition)
    requires ArmText(Arm(params, body, p)).Ok?
    ensures var t := ArmText(Arm(params, body, p)).value;
      var header := "if " + NatToString(|params| + 1) + " == #__args then\n";
      |t| >= |header| + 4 && t[..|header|] == header && t[|t| - 4..] == "end\n"
  {
  }

  lemma ListsOfOne<T>(r: Result<T, Error>, x: string)
    ensures AllOk([r]) == if r.Ok? then Ok([r.value]) else Err(r.error)
    ensures Concatenated([x]) == x
  {
    assert [r][..0] == [];
    assert AllOk([r][..0]) == Ok([]);
    assert [r][|[r]| - 1] == r;
    if r.Ok? {
      assert [] + [r.value] == [r.value];
    }
    assert [x][..0] == [];
  }

  lemma ListsOfTwo<T>(r: Result<T, Error>, q: Result<T, Error>, x: string, y: string)
    requires r.Ok? && q.Ok?
    ensures AllOk([r, q]) == Ok([r.value, q.value])
    ensures Concatenated([x, y]) == x + y
  {
    ListsOfOne(r, x);
    assert [r, q][..1] == [r] && [r, q][1] == q;
    assert AllOk([r, q]) == Ok([r.value] + [q.value]);
    assert [r.value] + [q.value] == [r.value, q.value];
    assert [x, y][..1] == [x];
  }

  /**
   * The index a literal parameter is compared with is its position (`k + 2`,
   * as for a bound identifier) exactly when no literal comes before it: the
   * second loop of an arm does not advance past a literal.
   */
  lemma GuardIndex(params: seq<Expression>, k: nat)
    requires k < |params|
    ensures 2 + NonLiterals(params[..k]) == k + 2 <==> !HasLiteral(params[..k])
  {
    NonLiteralsCount(params[..k]);
  }

  lemma {:induction false} NonLiteralsCount(ps: seq<Expression>)
    ensures NonLiterals(ps) <= |ps|
    ensures NonLiterals(ps) == |ps| <==> !HasLiteral(ps)
    decreases |ps|
  {
    if ps != [] {
      var n := |ps| - 1;
      NonLiteralsCount(ps[..n]);
      assert forall k :: 0 <= k < n ==> ps[..n][k] == ps[k];
      if HasLiteral(ps[..n]) {
        var k :| 0 <= k < n && IsLiteral(ps[..n][k]);
        assert IsLiteral(ps[k]);
      }
      if IsLiteral(ps[n]) {
        assert HasLiteral(ps);
      }
    }
  }

  /**
   * In `|0, 1|` both literals are compared with `__args[2]`: the arm answers
   * when its first argument is 0 or 1, whatever the second is.
   */
  lemma LiteralGuardsShareIndex(body: Statement, p: TokenPosition)
    ensures GuardTexts(Arm([Number("0"), Number("1")], body, p))
      == [Guarded(Ok("0"), 2, body, StmtText(body)), Guarded(Ok("1"), 2, body, StmtText(body))]
  {
    var params := [Number("0"), Number("1")];
    assert params[..1] == [Number("0")] && params[..1][..0] == [];
    assert NonLiterals(params[..0]) == 0;
    assert NonLiterals(params[..1]) == 0;
  }

  /**
   * In `|0, x, 1|` the `1` is compared with `__args[3]`, while its own
   * argument is `__args[4]`: the literal before it skipped the increment.
   */
  lemma LiteralAfterLiteralMisplaced(x: string, body: Statement, p: TokenPosition)
    ensures var arm := Arm([Number("0"), Expression.Identifier(x, p), Number("1")], body, p);
      GuardTexts(arm)[2] == Guarded(Ok("1"), 3, body, StmtText(body))
  {
    var params := [Number("0"), Expression.Identifier(x, p), Number("1")];
    assert params[..2] == [Number("0"), Expression.Identifier(x, p)];
    assert params[..2][..1] == [Number("0")] && params[..2][..1][..0] == [];
    assert NonLiterals([Number("0")]) == 0;
    assert !IsLiteral(params[1]);
    assert NonLiterals(params[..2]) == 1;
  }

  lemma TwiceBinds(p: TokenPosition)
    ensures Concatenated(Binds([Expression.Identifier("n", p)])) == "local n = __args[2]\n"
  {
    var n := Expression.Identifier("n", p);
    var bind := "local n = __args[2]\n";
    assert NatToString(2) == "2";
    assert "local " + "n" + " = __args[" + "2" + "]\n" == bind;
    assert Bind(n, 2) == bind;
    assert Binds([n]) == [bind];
    ListsOfOne(Ok(bind), bind);
  }

  lemma TwiceTail(p: TokenPosition)
    ensures var n := Expression.Identifier("n", p);
      ArmTail(Arm([n], Expr(Operation(Number("2"), Mul, n, p)), p)) == Ok("return (2*n)\n")
  {
    var n := Expression.Identifier("n", p);
    var arm := Arm([n], Expr(Operation(Number("2"), Mul, n, p)), p);
    assert ExprText(arm.body.expr) == Ok("(2*n)") by {
      assert ToString(Mul) == Some("*");
      assert ExprText(Number("2")) == Ok("2") && ExprText(n) == Ok("n");
      assert "(" + "2" + "*" + "n" + ")" == "(2*n)";
    }
    assert !HasLiteral(arm.params);
    assert "return " + "(2*n)" + "\n" == "return (2*n)\n";
  }

  lemma TwiceGuards(p: TokenPosition)
    ensures var n := Expression.Identifier("n", p);
      AllOk(GuardTexts(Arm([n], Expr(Operation(Number("2"), Mul, n, p)), p))) == Ok([""])
    ensures Concatenated([""]) == ""
  {
    var n := Expression.Identifier("n", p);
    var arm := Arm([n], Expr(Operation(Number("2"), Mul, n, p)), p);
    assert GuardTexts(arm) == [Ok("")];
    ListsOfOne(Ok(""), "");
  }

  lemma TwiceHeader()
    ensures "if " + NatToString(1 + 1) + " == #__args then\n" == "if 2 == #__args then\n"
  {
    assert NatToString(2) == "2";
    assert "if " + "2" + " == #__args then\n" == "if 2 == #__args then\n";
  }

  lemma TwiceArm(p: TokenPosition)
    ensures ArmText(Arm([Expression.Identifier("n", p)], Expr(Operation(Number("2"), Mul, Expression.Identifier("n", p), p)), p))
      == Ok("if 2 == #__args then\n" + "local n = __args[2]\n" + "return (2*n)\n" + "end\n")
  {
    var n := Expression.Identifier("n", p);
    var arm := Arm([n], Expr(Operation(Number("2"), Mul, n, p)), p);
    ArmTextSteps(arm);
    TwiceBinds(p);
    TwiceTail(p);
    TwiceGuards(p);
    TwiceHeader();
    var header := "if 2 == #__args then\n";
    var bind := "local n = __args[2]\n";
    assert header + bind + "" == header + bind;
  }

  lemma TwiceOverloads(p: TokenPosition)
    ensures var n := Expression.Identifier("n", p);
      AllOk(OverloadTexts(Block([Expr(Arm([n], Expr(Operation(Number("2"), Mul, n, p)), p))]))) == Ok([""])
    ensures Concatenated([""]) == ""
  {
    var n := Expression.Identifier("n", p);
    var arm := Arm([n], Expr(Operation(Number("2"), Mul, n, p)), p);
    var arms := Block([Expr(arm)]);
    assert ArmOverloadText(arm) == Ok("");
    assert OverloadTexts(arms)[0] == Ok("");
    assert OverloadTexts(arms) == [Ok("")];
    ListsOfOne(Ok(""), "");
  }

  lemma TwiceLines(p: TokenPosition)
    ensures var n := Expression.Identifier("n", p);
      var armText := "if 2 == #__args then\n" + "local n = __args[2]\n" + "return (2*n)\n" + "end\n";
      && AllOk(LineTexts(Block([Expr(Arm([n], Expr(Operation(Number("2"), Mul, n, p)), p))]))) == Ok([armText + "\n"])
      && Concatenated([armText + "\n"]) == armText + "\n"
  {
    var n := Expression.Identifier("n", p);
    var arm := Arm([n], Expr(Operation(Number("2"), Mul, n, p)), p);
    var armText := "if 2 == #__args then\n" + "local n = __args[2]\n" + "return (2*n)\n" + "end\n";
    var arms := Block([Expr(arm)]);
    TwiceArm(p);
    assert StmtText(Expr(arm)) == Ok(armText);
    assert LineText(Expr(arm), true) == Ok("" + armText + "\n");
    assert "" + armText + "\n" == armText + "\n";
    assert LineTexts(arms)[0] == Ok(armText + "\n");
    assert LineTexts(arms) == [Ok(armText + "\n")];
    ListsOfOne(Ok(armText + "\n"), armText + "\n");
  }

  lemma TwiceFunction(p: TokenPosition)
    ensures var n := Expression.Identifier("n", p);
      FunctionText(Block([Expr(Arm([n], Expr(Operation(Number("2"), Mul, n, p)), p))]))
      == Ok("setmetatable({}, {" + CallPrologue
        + ("if 2 == #__args then\n" + "local n = __args[2]\n" + "return (2*n)\n" + "end\n" + "\n")
        + "end,\n" + "})")
  {
    var n := Expression.Identifier("n", p);
    FunctionTextSteps(Block([Expr(Arm([n], Expr(Operation(Number("2"), Mul, n, p)), p))]));
    TwiceOverloads(p);
    TwiceLines(p);
    assert "setmetatable({}, {" + "" == "setmetatable({}, {";
  }

  /**
   * `twice = { |n| 2 * n }`: a table whose `__call` binds `n` to the first
   * argument after the table itself and returns `2 * n`.
   */
  lemma TwiceLowering(p: TokenPosition)
    ensures var n := Expression.Identifier("n", p);
      StmtText(Assignment(Expression.Identifier("twice", p),
        Function(Block([Expr(Arm([n], Expr(Operation(Number("2"), Mul, n, p)), p))]), p), p))
      == Ok("local twice="
        + ("setmetatable({}, {" + CallPrologue
          + ("if 2 == #__args then\n" + "local n = __args[2]\n" + "return (2*n)\n" + "end\n" + "\n")
          + "end,\n" + "})")
        + "\n")
  {
    TwiceFunction(p);
    assert LuaName(AssignedName("twice")) == "twice";
    assert "local " + "twice" + "=" == "local twice=";
  }

  /** A function whose arms are not a block is the unreachable error; otherwise it is a `setmetatable` call. */
  lemma FunctionFrame(arms: Expression)
    ensures !arms.Block? ==> FunctionText(arms) == Err(Unreachable)
    ensures FunctionText(arms).Ok? ==>
      var t := FunctionText(arms).value;
      |t| >= 18 + |CallPrologue| + 7 && t[..18] == "setmetatable({}, {" && t[|t| - 7..] == "end,\n})"
  {
  }

  /** Lowering a program is lowering its parts one after the other, stopping at the first error. */
  lemma ProgramAppend(a: seq<Statement>, b: seq<Statement>)
    ensures ProgramText(a).Err? ==> ProgramText(a + b) == ProgramText(a)
    ensures ProgramText(a).Ok? && ProgramText(b).Err? ==> ProgramText(a + b) == ProgramText(b)
    ensures ProgramText(a).Ok? && ProgramText(b).Ok? ==> ProgramText(a + b) == Ok(ProgramText(a).value + ProgramText(b).value)
  {
    var ra := StmtTexts(a);
    var rb := StmtTexts(b);
    assert StmtTexts(a + b) == ra + rb;
    AllOkAppend(ra, rb);
    if AllOk(ra).Ok? && AllOk(rb).Ok? {
      ConcatenatedAppend(AllOk(ra).value, AllOk(rb).value);
    }
  }

  lemma ConcatenatedSnoc(parts: seq<string>, x: string)
    ensures Concatenated(parts + [x]) == Concatenated(parts) + x
  {
    assert (parts + [x])[..|parts|] == parts;
  }

  /** What the argument loop has written after the parts: each part, with a comma unless it is part `n`. */
  function Listed(parts: seq<string>, n: nat): string {
    if parts == [] then ""
    else Listed(parts[..|parts| - 1], n) + parts[|parts| - 1] + (if |parts| != n then "," else "")
  }

  lemma {:induction false} ListedJoin(parts: seq<string>, n: nat)
    requires |parts| <= n
    ensures Listed(parts, n) == if parts == [] then "" else if |parts| == n then Join(parts) else Join(parts) + ","
    decreases |parts|
  {
    if parts != [] {
      var m := |parts| - 1;
      ListedJoin(parts[..m], n);
      if m == 0 {
        assert Listed(parts[..m], n) == "";
        ListsOfOne(Ok(parts[0]), parts[0]);
        assert parts == [parts[0]];
        assert "" + parts[0] == parts[0];
      }
    }
  }

  /** One round of the argument loop: the argument, then a comma unless it is the last. */
  lemma ListedExtend(head: string, parts: seq<string>, x: string, n: nat)
    ensures head + Listed(parts, n) + x + (if |parts| + 1 != n then "," else "") == head + Listed(parts + [x], n)
  {
    assert (parts + [x])[..|parts|] == parts;
  }

  lemma HasLiteralStep(ps: seq<Expression>, i: nat)
    requires i < |ps|
    ensures HasLiteral(ps[..i + 1]) <==> HasLiteral(ps[..i]) || IsLiteral(ps[i])
    ensures NonLiterals(ps[..i + 1]) == NonLiterals(ps[..i]) + if IsLiteral(ps[i]) then 0 else 1
  {
    assert ps[..i + 1][..i] == ps[..i];
    assert forall k :: 0 <= k < i ==> ps[..i + 1][k] == ps[..i][k];
    assert ps[..i + 1][i] == ps[i];
  }

  lemma CallTextSteps(call: Expression)
    requires call.Call?
    ensures ExprText(call.callee).Err? ==> CallText(call) == Err(ExprText(call.callee).error)
    ensures ExprText(call.callee).Ok? && AllOk(ArgTexts(call)).Err? ==> CallText(call) == Err(AllOk(ArgTexts(call)).error)
    ensures ExprText(call.callee).Ok? && AllOk(ArgTexts(call)).Ok? ==>
      CallText(call) == Ok("(" + ExprText(call.callee).value + ")(" + Join(AllOk(ArgTexts(call)).value) + ")")
  {
  }

  lemma FunctionTextSteps(arms: Expression)
    requires arms.Block?
    ensures AllOk(OverloadTexts(arms)).Err? ==> FunctionText(arms) == Err(AllOk(OverloadTexts(arms)).error)
    ensures AllOk(OverloadTexts(arms)).Ok? && AllOk(LineTexts(arms)).Err? ==> FunctionText(arms) == Err(AllOk(LineTexts(arms)).error)
    ensures AllOk(OverloadTexts(arms)).Ok? && AllOk(LineTexts(arms)).Ok? ==>
      FunctionText(arms) == Ok("setmetatable({}, {" + Concatenated(AllOk(OverloadTexts(arms)).value) + CallPrologue
        + Concatenated(AllOk(LineTexts(arms)).value) + "end,\n" + "})")
  {
  }

  lemma ArmTextSteps(arm: Expression)
    requires arm.Arm?
    ensures AllOk(GuardTexts(arm)).Err? ==> ArmText(arm) == Err(AllOk(GuardTexts(arm)).error)
    ensures AllOk(GuardTexts(arm)).Ok? && ArmTail(arm).Err? ==> ArmText(arm) == Err(ArmTail(arm).error)
    ensures AllOk(GuardTexts(arm)).Ok? && ArmTail(arm).Ok? ==>
      ArmText(arm) == Ok("if " + NatToString(|arm.params| + 1) + " == #__args then\n"
        + Concatenated(Binds(arm.params)) + Concatenated(AllOk(GuardTexts(arm)).value) + ArmTail(arm).value + "end\n")
  {
  }

  /** Appending one more part to a text that ends with the parts so far. */
  lemma ConcatenatedExtend(head: string, parts: seq<string>, x: string)
    ensures head + Concatenated(parts) + x == head + Concatenated(parts + [x])
  {
    ConcatenatedSnoc(parts, x);
  }

  /** One more Ok result: the values grow by it, and so does a text ending with their concatenation. */
  lemma Extend(rs: seq<Result<string, Error>>, i: nat, head: string, parts: seq<string>, x: string)
    requires i < |rs| && AllOk(rs[..i]) == Ok(parts) && rs[i] == Ok(x)
    ensures AllOk(rs[..i + 1]) == Ok(parts + [x])
    ensures head + Concatenated(parts) + x == head + Concatenated(parts + [x])
  {
    AllOkStep(rs, i);
    ConcatenatedSnoc(parts, x);
  }

  lemma GuardAt(arm: Expression, i: nat)
    requires arm.Arm? && i < |arm.params|
    ensures GuardTexts(arm)[i] == if IsLiteral(arm.params[i])
      then Guarded(ExprText(arm.params[i]), 2 + NonLiterals(arm.params[..i]), arm.body, StmtText(arm.body))
      else Ok("")
  {
  }

  lemma GuardedSteps(test: Result<string, Error>, index: nat, body: Statement, lowered: Result<string, Error>)
    ensures test.Err? ==> Guarded(test, index, body, lowered) == Err(test.error)
    ensures test.Ok? && lowered.Err? ==> Guarded(test, index, body, lowered) == Err(lowered.error)
    ensures test.Ok? && lowered.Ok? ==>
      Guarded(test, index, body, lowered)
        == Ok(("if " + test.value + " == __args[" + NatToString(index) + "] then\n") + ReturnPrefix(body) + (lowered.value + "\n") + "end\n")
  {
  }

  lemma LineAt(arms: Expression, i: nat)
    requires arms.Block? && i < |arms.statements|
    ensures var s := arms.statements[i];
      var prefix := if i + 1 == |arms.statements| && s.Expr? && !s.expr.Arm? then "return " else "";
      && (StmtText(s).Err? ==> LineTexts(arms)[i] == Err(StmtText(s).error))
      && (StmtText(s).Ok? ==> LineTexts(arms)[i] == Ok(prefix + StmtText(s).value + "\n"))
  {
  }

  lemma Append3(x: string, a: string, b: string, c: string)
    ensures x + a + b + c == x + (a + b + c)
  {
  }

  lemma Append4(x: string, a: string, b: string, c: string, d: string)
    ensures x + a + b + c + d == x + (a + b + c + d)
  {
  }

  /** `Transpiler`: holds the statements and lowers them with the loops of the source. */
  class Transpiler {
    const ast: seq<Statement>

    constructor (ast: seq<Statement>)
      ensures this.ast == ast
    {
      this.ast := ast;
    }

    /** `lua`: each statement's text in turn, stopping at the first error. */
    method Lua() returns (r: Result<string, Error>)
      ensures r == ProgramText(ast)
    {
      var result := "";
      ghost var parts: seq<string> := [];
      for i := 0 to |ast|
        invariant AllOk(StmtTexts(ast)[..i]) == Ok(parts)
        invariant result == Concatenated(parts)
      {
        var s := LuaStatement(ast[i]);
        if s.Err? {
          AllOkStops(StmtTexts(ast), i);
          return Err(s.error);
        }
        AllOkStep(StmtTexts(ast), i);
        ConcatenatedSnoc(parts, s.value);
        parts := parts + [s.value];
        result := result + s.value;
      }
      assert StmtTexts(ast)[..|ast|] == StmtTexts(ast);
      r := Ok(result);
    }

    /** `lua_statement`. */
    method LuaStatement(st: Statement) returns (r: Result<string, Error>)
      ensures r == StmtText(st)
      decreases st, 1
    {
      match st
      case Expr(e) =>
        r := LuaExpression(e);
      case Assignment(left, right, _) =>
        var l;
        if left.Identifier? {
          var id := if left.name in Keywords then "_" + left.name else left.name;
          // `lua_expression` of the renamed identifier
          l := Ok(LuaName(id));
        } else {
          l := LuaExpression(left);
        }
        var lt :- l;
        var rt :- LuaExpression(right);
        r := Ok("local " + lt + "=" + rt + "\n");
    }

    /** `lua_expression`. */
    method LuaExpression(e: Expression) returns (r: Result<string, Error>)
      ensures r == ExprText(e)
      decreases e, 2
    {
      match e
      case Number(text) => r := Ok(text);
      case Str(text) => r := Ok(Quoted(text));
      case Bool(b) => r := Ok(if b then "true" else "false");
      case Char(c) => r := Ok(Quoted([c]));
      case Op(op) => r := Ok(OperandName(op));
      case Identifier(n, _) => r := Ok(LuaName(n));
      case Operation(left, op, right, _) =>
        var lt :- LuaExpression(left);
        var rt :- LuaExpression(right);
        r := OperationText(op, lt, rt);
      case Call(_, _, _) => r := LuaCall(e);
      case Function(arms, _) => r := LuaFunction(arms);
      case Arm(_, _, _) => r := LuaArm(e);
      case Block(_) => r := Ok("");
      case Index(_, _, _) => r := Ok("");
      case EOF => r := Ok("");
    }

    /** A call: the arguments are written one by one, with a comma after all but the last. */
    method LuaCall(call: Expression) returns (r: Result<string, Error>)
      requires call.Call?
      ensures r == CallText(call)
      decreases call, 1
    {
      CallTextSteps(call);
      var c := LuaExpression(call.callee);
      if c.Err? {
        return Err(c.error);
      }
      var callee := c.value;
      var result := "(" + callee + ")(";
      ghost var head := result;
      var acc := 1;
      ghost var parts: seq<string> := [];
      for i := 0 to |call.args|
        invariant acc == i + 1 && |parts| == i
        invariant AllOk(ArgTexts(call)[..i]) == Ok(parts)
        invariant result == head + Listed(parts, |call.args|)
      {
        var a := LuaExpression(call.args[i]);
        assert ArgTexts(call)[i] == a;
        if a.Err? {
          AllOkStops(ArgTexts(call), i);
          return Err(a.error);
        }
        ghost var before := result;
        result := result + a.value;
        if acc != |call.args| {
          result := result + ",";
        }
        ghost var sep := if i + 1 != |call.args| then "," else "";
        assert result == before + a.value + sep;
        AllOkStep(ArgTexts(call), i);
        ListedExtend(head, parts, a.value, |call.args|);
        acc := acc + 1;
        parts := parts + [a.value];
      }
      assert ArgTexts(call)[..|call.args|] == ArgTexts(call);
      ListedJoin(parts, |parts|);
      result := result + ")";
      r := Ok(result);
    }

    /** A function: the operator entries, then the `__call` entry with one line per statement. */
    method LuaFunction(arms: Expression) returns (r: Result<string, Error>)
      ensures r == FunctionText(arms)
      decreases arms, 1
    {
      var result := "setmetatable({}, {";
      if !arms.Block? {
        return Err(Unreachable);
      }
      FunctionTextSteps(arms);
      var sts := arms.statements;
      ghost var overloads: seq<string> := [];
      for i := 0 to |sts|
        invariant AllOk(OverloadTexts(arms)[..i]) == Ok(overloads)
        invariant result == "setmetatable({}, {" + Concatenated(overloads)
      {
        var o := LuaOverload(sts[i]);
        assert OverloadTexts(arms)[i] == o;
        if o.Err? {
          AllOkStops(OverloadTexts(arms), i);
          return Err(o.error);
        }
        Extend(OverloadTexts(arms), i, "setmetatable({}, {", overloads, o.value);
        result := result + o.value;
        overloads := overloads + [o.value];
      }
      assert OverloadTexts(arms)[..|sts|] == OverloadTexts(arms);
      result := result + CallPrologue;
      ghost var head := result;
      var acc := 1;
      ghost var lines: seq<string> := [];
      for i := 0 to |sts|
        invariant acc == i + 1
        invariant AllOk(LineTexts(arms)[..i]) == Ok(lines)
        invariant result == head + Concatenated(lines)
      {
        ghost var before := result;
        ghost var last := i + 1 == |sts|;
        if acc == |sts| && sts[i].Expr? && !sts[i].expr.Arm? {
          result := result + "return ";
        }
        ghost var prefix := if last && sts[i].Expr? && !sts[i].expr.Arm? then "return " else "";
        assert result == before + prefix;
        acc := acc + 1;
        var s := LuaStatement(sts[i]);
        LineAt(arms, i);
        if s.Err? {
          AllOkStops(LineTexts(arms), i);
          return Err(s.error);
        }
        result := result + s.value;
        result := result + "\n";
        ghost var line := prefix + s.value + "\n";
        Append3(before, prefix, s.value, "\n");
        Extend(LineTexts(arms), i, head, lines, line);
        lines := lines + [line];
      }
      assert LineTexts(arms)[..|sts|] == LineTexts(arms);
      result := result + "end,\n";
      result := result + "})";
      r := Ok(result);
    }

    /** The metatable entry of an arm written `|op, other| body`. */
    method LuaOverload(s: Statement) returns (r: Result<string, Error>)
      ensures r == OverloadText(s)
      decreases s, 0
    {
      r := Ok("");
      if s.Expr? {
        var arm := s.expr;
        if arm.Arm? && |arm.params| >= 1 && arm.params[0].Op? && |arm.params| >= 2 {
          var op := OperandName(arm.params[0].operand);
          var other :- LuaExpression(arm.params[1]);
          var result := op + " = function(_, " + other + ")\n";
          var body;
          match arm.body {
            case Expr(x) =>
              var t :- LuaExpression(x);
              body := "return " + t + "\n";
            case Assignment(_, _, _) =>
              body :- LuaStatement(arm.body);
          }
          result := result + body;
          result := result + "end,\n";
          r := Ok(result);
        }
      }
    }

    /** An arm: the argument-count test, the locals, the literal guards and the unguarded return. */
    method LuaArm(arm: Expression) returns (r: Result<string, Error>)
      requires arm.Arm?
      ensures r == ArmText(arm)
      decreases arm, 1
    {
      ArmTextSteps(arm);
      var header := "if " + NatToString(|arm.params| + 1) + " == #__args then\n";
      var result := PushBinds(arm, header);
      var g := PushGuards(arm, result);
      if g.Err? {
        return Err(g.error);
      }
      result := g.value.0;
      var flag := g.value.1;
      if flag && arm.body.Expr? {
        var t := LuaExpression(arm.body.expr);
        if t.Err? {
          assert ArmTail(arm) == Err(t.error);
          return Err(t.error);
        }
        assert ArmTail(arm) == Ok("return " + t.value + "\n");
        result := result + ("return " + t.value + "\n");
      } else {
        assert ArmTail(arm) == Ok("");
        assert result + "" == result;
      }
      result := result + "end\n";
      r := Ok(result);
    }

    /** The first loop of an arm: a local for each identifier parameter, bound to the argument at its position. */
    method PushBinds(arm: Expression, header: string) returns (result: string)
      requires arm.Arm?
      ensures result == header + Concatenated(Binds(arm.params))
      decreases arm, 0
    {
      var params := arm.params;
      result := header;
      var acc := 2;
      for i := 0 to |params|
        invariant acc == i + 2
        invariant result == header + Concatenated(Binds(params)[..i])
      {
        var p := params[i];
        if p.Identifier? && FromStr(p.name).None? {
          var name := LuaExpression(p);
          result := result + ("local " + name.value + " = __args[" + NatToString(acc) + "]\n");
        }
        acc := acc + 1;
        assert Binds(params)[..i + 1] == Binds(params)[..i] + [Bind(p, i + 2)];
        ConcatenatedExtend(header, Binds(params)[..i], Bind(p, i + 2));
      }
      assert Binds(params)[..|params|] == Binds(params);
    }

    /**
     * The second loop of an arm: a guarded body for each literal parameter,
     * compared with an argument index that only non-literals advance; also
     * whether no literal was seen.
     */
    method PushGuards(arm: Expression, binds: string) returns (r: Result<(string, bool), Error>)
      requires arm.Arm?
      ensures AllOk(GuardTexts(arm)).Err? ==> r == Err(AllOk(GuardTexts(arm)).error)
      ensures AllOk(GuardTexts(arm)).Ok? ==>
        r == Ok((binds + Concatenated(AllOk(GuardTexts(arm)).value), !HasLiteral(arm.params)))
      decreases arm, 0
    {
      var params := arm.params;
      var result := binds;
      var acc := 2;
      var flag := true;
      ghost var guards: seq<string> := [];
      for i := 0 to |params|
        invariant acc == 2 + NonLiterals(params[..i])
        invariant flag == !HasLiteral(params[..i])
        invariant AllOk(GuardTexts(arm)[..i]) == Ok(guards)
        invariant result == binds + Concatenated(guards)
      {
        var p := params[i];
        HasLiteralStep(params, i);
        GuardAt(arm, i);
        if IsLiteral(p) {
          flag := false;
          var t := LuaExpression(p);
          if t.Err? {
            GuardedSteps(t, acc, arm.body, StmtText(arm.body));
            AllOkStops(GuardTexts(arm), i);
            return Err(t.error);
          }
          ghost var before := result;
          var test := "if " + t.value + " == __args[" + NatToString(acc) + "] then\n";
          result := result + test;
          if arm.body.Expr? && !arm.body.expr.Block? {
            result := result + "return ";
          }
          assert result == before + test + ReturnPrefix(arm.body);
          var b := LuaStatement(arm.body);
          GuardedSteps(t, acc, arm.body, b);
          if b.Err? {
            AllOkStops(GuardTexts(arm), i);
            return Err(b.error);
          }
          result := result + (b.value + "\n");
          result := result + "end\n";
          ghost var g := test + ReturnPrefix(arm.body) + (b.value + "\n") + "end\n";
          assert GuardTexts(arm)[i] == Ok(g);
          Append4(before, test, ReturnPrefix(arm.body), b.value + "\n", "end\n");
          Extend(GuardTexts(arm), i, binds, guards, g);
          guards := guards + [g];
          continue;
        }
        Extend(GuardTexts(arm), i, binds, guards, "");
        guards := guards + [""];
        acc := acc + 1;
      }
      assert params[..|params|] == params;
      assert GuardTexts(arm)[..|params|] == GuardTexts(arm);
      r := Ok((result, flag));
    }
  }
}
