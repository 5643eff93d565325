/**
 * The name checker (checker/checker.rs): a walk over the statements that
 * binds each assignment target in the current table and reports the first
 * identifier no table of the chain holds.
 *
 * `CheckExpr`, `CheckStmt` and `CheckStmts` say what the walk does as
 * functions of the table's value: each returns the verdict together with the
 * value the current table has afterwards. The `Checker` methods walk with a
 * `SymTab` they update in place and are proved to agree with them.
 * `RefExpr` and its companions are a second definition over plain sets of
 * visible names, and `ExprAgrees` shows the verdict never depends on slots or
 * depths.
 */
module Checkers {
  import opened Wrappers
  import opened Tokens
  import opened Ast
  import opened SymTabs

  const UndeclaredUse := "undeclared use"

  /** A verdict and the value of the current table after the walk. */
  type Outcome = (Result<(), Error>, Scope)

  /** `add_name` on a table value: an existing name keeps its slot, a new one gets slot `|names|`. */
  function Bind(s: Scope, name: string): Scope {
    if name in s.names then s else Scope(s.names[name := |s.names|], s.parent)
  }

  /** The names of the identifier parameters of an arm, in order; other parameters bind nothing. */
  function ParamNames(params: seq<Expression>): seq<string>
    decreases |params|
  {
    if params == [] then []
    else
      var last := params[|params| - 1];
      ParamNames(params[..|params| - 1]) + if last.Identifier? then [last.name] else []
  }

  /** The table an arm body is checked in: its parameters, with the current table as parent. */
  function ArmScope(s: Scope, params: seq<Expression>): Scope {
    Scope(IndexMap(ParamNames(params)), Some(s))
  }

  function CheckExpr(s: Scope, e: Expression): Outcome
    decreases e, 0
  {
    match e
    case Block(sts) => CheckStmts(s, sts)
    case Identifier(name, position) =>
      (if GetName(s, name).None? then Err(Error(UndeclaredUse, Some(position))) else Ok(()), s)
    case Operation(left, _, right, _) =>
      var o := CheckExpr(s, left);
      if o.0.Err? then o else CheckExpr(o.1, right)
    case Function(arms, _) =>
      if arms.Block? then CheckArms(s, arms.statements) else (Err(Unreachable), s)
    case Call(callee, args, _) =>
      var o := CheckExpr(s, callee);
      if o.0.Err? then o else CheckExprs(o.1, args)
    case _ => (Ok(()), s)
  }

  /** Expressions in order, stopping at the first error. */
  function CheckExprs(s: Scope, es: seq<Expression>): Outcome
    decreases es, 0
  {
    if es == [] then (Ok(()), s)
    else
      var o := CheckExprs(s, es[..|es| - 1]);
      if o.0.Err? then o else CheckExpr(o.1, es[|es| - 1])
  }

  function CheckStmt(s: Scope, st: Statement): Outcome
    decreases st, 0
  {
    match st
    case Expr(e) => CheckExpr(s, e)
    case Assignment(left, right, _) =>
      if left.Identifier? then CheckExpr(Bind(s, left.name), right) else (Ok(()), s)
  }

  /** Statements in order, stopping at the first error. */
  function CheckStmts(s: Scope, sts: seq<Statement>): Outcome
    decreases sts, 0
  {
    if sts == [] then (Ok(()), s)
    else
      var o := CheckStmts(s, sts[..|sts| - 1]);
      if o.0.Err? then o else CheckStmt(o.1, sts[|sts| - 1])
  }

  /** One statement of a function's block: an arm is checked in its own table, anything else in the current one. */
  function CheckArm(s: Scope, st: Statement): Outcome
    decreases st, 1
  {
    if st.Expr? && st.expr.Arm? then (CheckStmt(ArmScope(s, st.expr.params), st.expr.body).0, s)
    else CheckStmt(s, st)
  }

  function CheckArms(s: Scope, sts: seq<Statement>): Outcome
    decreases sts, 0
  {
    if sts == [] then (Ok(()), s)
    else
      var o := CheckArms(s, sts[..|sts| - 1]);
      if o.0.Err? then o else CheckArm(o.1, sts[|sts| - 1])
  }

  // ---------------------------------------------------------------------
  // The walk with a table updated in place

  class Checker {
    const ast: seq<Statement>

    constructor (ast: seq<Statement>)
      ensures this.ast == ast
    {
      this.ast := ast;
    }

    /** `check`: the program's statements in order in the table `sym`, stopping at the first error. */
    method Check(sym: SymTab) returns (r: Result<(), Error>)
      modifies sym
      ensures (r, sym.Value()) == CheckStmts(old(sym.Value()), ast)
    {
      r := CheckStatements(sym, ast);
    }

    method CheckStatements(sym: SymTab, sts: seq<Statement>) returns (r: Result<(), Error>)
      modifies sym
      ensures (r, sym.Value()) == CheckStmts(old(sym.Value()), sts)
      decreases sts, 1
    {
      for i := 0 to |sts|
        invariant CheckStmts(old(sym.Value()), sts[..i]) == (Ok(()), sym.Value())
      {
        assert sts[..i + 1][..i] == sts[..i];
        ghost var before := sym.Value();
        var a := CheckStatement(sym, sts[i]);
        if a.Ok? {
          assert a.value == ();
        }
        assert CheckStmts(old(sym.Value()), sts[..i + 1]) == CheckStmt(before, sts[i]);
        if a.Err? {
          CheckStmtsErrStops(old(sym.Value()), sts[..i + 1], sts[i + 1..]);
          assert sts[..i + 1] + sts[i + 1..] == sts;
          return a;
        }
      }
      assert sts[..|sts|] == sts;
      return Ok(());
    }

    method CheckExpression(sym: SymTab, e: Expression) returns (r: Result<(), Error>)
      modifies sym
      ensures (r, sym.Value()) == CheckExpr(old(sym.Value()), e)
      decreases e, 2
    {
      match e {
        case Block(statements) =>
          r := CheckStatements(sym, statements);
        case Identifier(name, position) =>
          var found := sym.GetName(name);
          if found.None? {
            return Err(Error(UndeclaredUse, Some(position)));
          }
          return Ok(());
        case Operation(left, _, right, _) =>
          r := CheckExpression(sym, left);
          if r.Err? {
            return;
          }
          r := CheckExpression(sym, right);
        case Function(arms, _) =>
          if !arms.Block? {
            return Err(Unreachable);
          }
          r := CheckFunctionArms(sym, arms.statements);
        case Call(callee, args, _) =>
          r := CheckExpression(sym, callee);
          if r.Err? {
            return;
          }
          ghost var s1 := sym.Value();
          for i := 0 to |args|
            invariant CheckExprs(s1, args[..i]) == (Ok(()), sym.Value())
          {
            assert args[..i + 1][..i] == args[..i];
            ghost var before := sym.Value();
            var a := CheckExpression(sym, args[i]);
            if a.Ok? {
              assert a.value == ();
            }
            assert CheckExprs(s1, args[..i + 1]) == CheckExpr(before, args[i]);
            if a.Err? {
              CheckExprsErrStops(s1, args[..i + 1], args[i + 1..]);
              assert args[..i + 1] + args[i + 1..] == args;
              return a;
            }
          }
          assert args[..|args|] == args;
          return Ok(());
        case _ =>
          return Ok(());
      }
    }

    /** The statements of a function's block; each arm gets a fresh table whose parent is the current one's value. */
    method CheckFunctionArms(sym: SymTab, content: seq<Statement>) returns (r: Result<(), Error>)
      modifies sym
      ensures (r, sym.Value()) == CheckArms(old(sym.Value()), content)
      decreases content, 1
    {
      for i := 0 to |content|
        invariant CheckArms(old(sym.Value()), content[..i]) == (Ok(()), sym.Value())
      {
        assert content[..i + 1][..i] == content[..i];
        ghost var before := sym.Value();
        var a := CheckArmStatement(sym, content[i]);
        if a.Ok? {
          assert a.value == ();
        }
        assert CheckArms(old(sym.Value()), content[..i + 1]) == CheckArm(before, content[i]);
        if a.Err? {
          CheckArmsErrStops(old(sym.Value()), content[..i + 1], content[i + 1..]);
          assert content[..i + 1] + content[i + 1..] == content;
          return a;
        }
      }
      assert content[..|content|] == content;
      return Ok(());
    }

    /** One statement of a function's block: an arm gets a fresh table whose parent is the current one's value. */
    method CheckArmStatement(sym: SymTab, arm: Statement) returns (r: Result<(), Error>)
      modifies sym
      ensures (r, sym.Value()) == CheckArm(old(sym.Value()), arm)
      decreases arm, 4
    {
      if arm.Expr? && arm.expr.Arm? {
        var paramNames: seq<string> := [];
        var params := arm.expr.params;
        for j := 0 to |params|
          invariant paramNames == ParamNames(params[..j])
        {
          assert params[..j + 1][..j] == params[..j];
          if params[j].Identifier? {
            paramNames := paramNames + [params[j].name];
          }
        }
        assert params[..|params|] == params;
        var localSym := new SymTab(sym.Value(), paramNames);
        r := CheckStatement(localSym, arm.expr.body);
      } else {
        r := CheckStatement(sym, arm);
      }
    }

    method CheckStatement(sym: SymTab, st: Statement) returns (r: Result<(), Error>)
      modifies sym
      ensures (r, sym.Value()) == CheckStmt(old(sym.Value()), st)
      decreases st, 3
    {
      match st {
        case Expr(e) =>
          r := CheckExpression(sym, e);
        case Assignment(left, right, _) =>
          if left.Identifier? {
            var _ := sym.AddName(left.name);
            r := CheckExpression(sym, right);
          } else {
            r := Ok(());
          }
      }
    }
  }

  // ---------------------------------------------------------------------
  // Stopping at the first error

  /**
   * Checking `a + b` is checking `a`, then, only if that succeeded, `b` in
   * the table `a` left behind.
   */
  lemma {:induction false} CheckStmtsConcat(s: Scope, a: seq<Statement>, b: seq<Statement>)
    ensures CheckStmts(s, a + b) ==
      (var o := CheckStmts(s, a); if o.0.Err? then o else CheckStmts(o.1, b))
    decreases |b|
  {
    if b == [] {
      assert a + b == a;
      var o := CheckStmts(s, a);
      if o.0.Ok? {
        assert o.0.value == ();
      }
    } else {
      CheckStmtsConcat(s, a, b[..|b| - 1]);
      assert (a + b)[..|a + b| - 1] == a + b[..|b| - 1];
    }
  }

  lemma CheckStmtsErrStops(s: Scope, a: seq<Statement>, b: seq<Statement>)
    requires CheckStmts(s, a).0.Err?
    ensures CheckStmts(s, a + b) == CheckStmts(s, a)
  {
    CheckStmtsConcat(s, a, b);
  }

  lemma {:induction false} CheckExprsErrStops(s: Scope, a: seq<Expression>, b: seq<Expression>)
    requires CheckExprs(s, a).0.Err?
    ensures CheckExprs(s, a + b) == CheckExprs(s, a)
    decreases |b|
  {
    if b == [] {
      assert a + b == a;
    } else {
      CheckExprsErrStops(s, a, b[..|b| - 1]);
      assert (a + b)[..|a + b| - 1] == a + b[..|b| - 1];
    }
  }

  lemma {:induction false} CheckArmsErrStops(s: Scope, a: seq<Statement>, b: seq<Statement>)
    requires CheckArms(s, a).0.Err?
    ensures CheckArms(s, a + b) == CheckArms(s, a)
    decreases |b|
  {
    if b == [] {
      assert a + b == a;
    } else {
      CheckArmsErrStops(s, a, b[..|b| - 1]);
      assert (a + b)[..|a + b| - 1] == a + b[..|b| - 1];
    }
  }

  // ---------------------------------------------------------------------
  // Single rules

  /** An identifier is an error, at its own position, exactly when no table of the chain holds it. */
  lemma IdentifierChecked(s: Scope, name: string, position: TokenPosition)
    ensures CheckExpr(s, Expression.Identifier(name, position)).0.Err? <==> name !in Visible(s)
    ensures CheckExpr(s, Expression.Identifier(name, position)).0.Err? ==>
      CheckExpr(s, Expression.Identifier(name, position)).0.error == Error(UndeclaredUse, Some(position))
    ensures CheckExpr(s, Expression.Identifier(name, position)).1 == s
  {
    GetNameNone(s, name);
  }

  /** The target is bound before the right-hand side is checked, so a definition may use its own name. */
  lemma SelfReference(s: Scope, name: string, p: TokenPosition, q: TokenPosition, pos: TokenPosition)
    ensures CheckStmt(s, Assignment(Expression.Identifier(name, p), Expression.Identifier(name, q), pos)) == (Ok(()), Bind(s, name))
  {
    GetNameNone(Bind(s, name), name);
  }

  /** An assignment to anything but an identifier binds nothing and its right-hand side is not looked at. */
  lemma NonIdentifierTarget(s: Scope, left: Expression, right: Expression, pos: TokenPosition)
    requires !left.Identifier?
    ensures CheckStmt(s, Assignment(left, right, pos)) == (Ok(()), s)
  {
  }

  /** Binding a name makes exactly that name visible in addition. */
  lemma BindVisible(s: Scope, name: string)
    ensures Visible(Bind(s, name)) == Visible(s) + {name}
    ensures Bind(s, name).parent == s.parent
    ensures name in Bind(s, name).names
  {
  }

  /** An arm's table shows its identifier parameters and everything the current table shows. */
  lemma ArmScopeVisible(s: Scope, params: seq<Expression>)
    ensures Visible(ArmScope(s, params)) == (set k | 0 <= k < |ParamNames(params)| :: ParamNames(params)[k]) + Visible(s)
  {
  }

  /**
   * An arm is checked in its own table, and whatever its body binds is gone
   * afterwards: the current table is the same as before.
   */
  lemma ArmLeavesScope(s: Scope, params: seq<Expression>, body: Statement, p: TokenPosition, q: TokenPosition)
    ensures CheckExpr(s, Function(Block([Expr(Arm(params, body, p))]), q)) ==
      (CheckStmt(ArmScope(s, params), body).0, s)
  {
    var arm := Expr(Arm(params, body, p));
    assert [arm][..0] == [];
    assert CheckArms(s, [arm]) == CheckArm(s, arm);
  }

  /**
   * An assignment beside the arms of a function binds in the current table:
   * checking the function is checking its right-hand side with the name
   * bound, and the table that comes out still holds that binding.
   */
  lemma FunctionStatementBinds(s: Scope, name: string, v: Expression, p: TokenPosition, pos: TokenPosition, q: TokenPosition)
    ensures var o := CheckExpr(s, Function(Block([Assignment(Expression.Identifier(name, p), v, pos)]), q));
      && o == CheckExpr(Bind(s, name), v)
      && Extends(Bind(s, name), o.1)
  {
    var st := Assignment(Expression.Identifier(name, p), v, pos);
    assert [st][..0] == [];
    assert CheckArms(s, [st]) == CheckArm(s, st);
    assert CheckArm(s, st) == CheckStmt(s, st) == CheckExpr(Bind(s, name), v);
    ExprExtends(Bind(s, name), v);
  }

  // ---------------------------------------------------------------------
  // The walk only ever adds names

  /** `t` is `s` with possibly more names: same parent, and every name of `s` keeps its slot. */
  predicate Extends(s: Scope, t: Scope) {
    && t.parent == s.parent
    && forall n :: n in s.names ==> n in t.names && t.names[n] == s.names[n]
  }

  lemma {:induction false} ExprExtends(s: Scope, e: Expression)
    ensures Extends(s, CheckExpr(s, e).1)
    decreases e, 0
  {
    match e
    case Block(sts) => StmtsExtends(s, sts);
    case Operation(left, _, right, _) =>
      ExprExtends(s, left);
      ExprExtends(CheckExpr(s, left).1, right);
    case Function(arms, _) =>
      if arms.Block? {
        ArmsExtends(s, arms.statements);
      }
    case Call(callee, args, _) =>
      ExprExtends(s, callee);
      ExprsExtends(CheckExpr(s, callee).1, args);
    case _ =>
  }

  lemma {:induction false} ExprsExtends(s: Scope, es: seq<Expression>)
    ensures Extends(s, CheckExprs(s, es).1)
    decreases es, 0
  {
    if es != [] {
      ExprsExtends(s, es[..|es| - 1]);
      ExprExtends(CheckExprs(s, es[..|es| - 1]).1, es[|es| - 1]);
    }
  }

  lemma {:induction false} StmtExtends(s: Scope, st: Statement)
    ensures Extends(s, CheckStmt(s, st).1)
    decreases st, 0
  {
    match st
    case Expr(e) => ExprExtends(s, e);
    case Assignment(left, right, _) =>
      if left.Identifier? {
        ExprExtends(Bind(s, left.name), right);
      }
  }

  lemma {:induction false} StmtsExtends(s: Scope, sts: seq<Statement>)
    ensures Extends(s, CheckStmts(s, sts).1)
    decreases sts, 0
  {
    if sts != [] {
      StmtsExtends(s, sts[..|sts| - 1]);
      StmtExtends(CheckStmts(s, sts[..|sts| - 1]).1, sts[|sts| - 1]);
    }
  }

  lemma {:induction false} ArmsExtends(s: Scope, sts: seq<Statement>)
    ensures Extends(s, CheckArms(s, sts).1)
    decreases sts, 0
  {
    if sts != [] {
      var s1 := CheckArms(s, sts[..|sts| - 1]).1;
      ArmsExtends(s, sts[..|sts| - 1]);
      var st := sts[|sts| - 1];
      if !(st.Expr? && st.expr.Arm?) {
        StmtExtends(s1, st);
      }
    }
  }

  // ---------------------------------------------------------------------
  // A reference definition over sets of visible names

  /** The names the parameters bind. */
  function ParamSet(params: seq<Expression>): set<string> {
    set k | 0 <= k < |ParamNames(params)| :: ParamNames(params)[k]
  }

  function RefExpr(bound: set<string>, e: Expression): (Result<(), Error>, set<string>)
    decreases e, 0
  {
    match e
    case Block(sts) => RefStmts(bound, sts)
    case Identifier(name, position) =>
      (if name in bound then Ok(()) else Err(Error(UndeclaredUse, Some(position))), bound)
    case Operation(left, _, right, _) =>
      var o := RefExpr(bound, left);
      if o.0.Err? then o else RefExpr(o.1, right)
    case Function(arms, _) =>
      if arms.Block? then RefArms(bound, arms.statements) else (Err(Unreachable), bound)
    case Call(callee, args, _) =>
      var o := RefExpr(bound, callee);
      if o.0.Err? then o else RefExprs(o.1, args)
    case _ => (Ok(()), bound)
  }

  function RefExprs(bound: set<string>, es: seq<Expression>): (Result<(), Error>, set<string>)
    decreases es, 0
  {
    if es == [] then (Ok(()), bound)
    else
      var o := RefExprs(bound, es[..|es| - 1]);
      if o.0.Err? then o else RefExpr(o.1, es[|es| - 1])
  }

  function RefStmt(bound: set<string>, st: Statement): (Result<(), Error>, set<string>)
    decreases st, 0
  {
    match st
    case Expr(e) => RefExpr(bound, e)
    case Assignment(left, right, _) =>
      if left.Identifier? then RefExpr(bound + {left.name}, right) else (Ok(()), bound)
  }

  function RefStmts(bound: set<string>, sts: seq<Statement>): (Result<(), Error>, set<string>)
    decreases sts, 0
  {
    if sts == [] then (Ok(()), bound)
    else
      var o := RefStmts(bound, sts[..|sts| - 1]);
      if o.0.Err? then o else RefStmt(o.1, sts[|sts| - 1])
  }

  function RefArm(bound: set<string>, st: Statement): (Result<(), Error>, set<string>)
    decreases st, 1
  {
    if st.Expr? && st.expr.Arm? then (RefStmt(ParamSet(st.expr.params) + bound, st.expr.body).0, bound)
    else RefStmt(bound, st)
  }

  function RefArms(bound: set<string>, sts: seq<Statement>): (Result<(), Error>, set<string>)
    decreases sts, 0
  {
    if sts == [] then (Ok(()), bound)
    else
      var o := RefArms(bound, sts[..|sts| - 1]);
      if o.0.Err? then o else RefArm(o.1, sts[|sts| - 1])
  }

  /**
   * The checker's verdict, error and position included, depends only on
   * which names are visible: it is the reference verdict for the visible
   * names, and the names visible afterwards are the reference's.
   */
  lemma {:induction false} ExprAgrees(s: Scope, e: Expression)
    ensures CheckExpr(s, e).0 == RefExpr(Visible(s), e).0
    ensures Visible(CheckExpr(s, e).1) == RefExpr(Visible(s), e).1
    decreases e, 0
  {
    match e
    case Block(sts) => StmtsAgree(s, sts);
    case Identifier(name, _) => GetNameNone(s, name);
    case Operation(left, _, right, _) =>
      ExprAgrees(s, left);
      ExprAgrees(CheckExpr(s, left).1, right);
    case Function(arms, _) =>
      if arms.Block? {
        ArmsAgree(s, arms.statements);
      }
    case Call(callee, args, _) =>
      ExprAgrees(s, callee);
      ExprsAgree(CheckExpr(s, callee).1, args);
    case _ =>
  }

  lemma {:induction false} ExprsAgree(s: Scope, es: seq<Expression>)
    ensures CheckExprs(s, es).0 == RefExprs(Visible(s), es).0
    ensures Visible(CheckExprs(s, es).1) == RefExprs(Visible(s), es).1
    decreases es, 0
  {
    if es != [] {
      ExprsAgree(s, es[..|es| - 1]);
      ExprAgrees(CheckExprs(s, es[..|es| - 1]).1, es[|es| - 1]);
    }
  }

  lemma {:induction false} StmtAgrees(s: Scope, st: Statement)
    ensures CheckStmt(s, st).0 == RefStmt(Visible(s), st).0
    ensures Visible(CheckStmt(s, st).1) == RefStmt(Visible(s), st).1
    decreases st, 0
  {
    match st
    case Expr(e) => ExprAgrees(s, e);
    case Assignment(left, right, _) =>
      if left.Identifier? {
        BindVisible(s, left.name);
        ExprAgrees(Bind(s, left.name), right);
      }
  }

  lemma {:induction false} StmtsAgree(s: Scope, sts: seq<Statement>)
    ensures CheckStmts(s, sts).0 == RefStmts(Visible(s), sts).0
    ensures Visible(CheckStmts(s, sts).1) == RefStmts(Visible(s), sts).1
    decreases sts, 0
  {
    if sts != [] {
      StmtsAgree(s, sts[..|sts| - 1]);
      StmtAgrees(CheckStmts(s, sts[..|sts| - 1]).1, sts[|sts| - 1]);
    }
  }

  lemma {:induction false} ArmsAgree(s: Scope, sts: seq<Statement>)
    ensures CheckArms(s, sts).0 == RefArms(Visible(s), sts).0
    ensures Visible(CheckArms(s, sts).1) == RefArms(Visible(s), sts).1
    decreases sts, 0
  {
    if sts != [] {
      var s1 := CheckArms(s, sts[..|sts| - 1]).1;
      ArmsAgree(s, sts[..|sts| - 1]);
      ArmAgrees(s1, sts[|sts| - 1]);
    }
  }

  lemma {:induction false} ArmAgrees(s: Scope, st: Statement)
    ensures CheckArm(s, st).0 == RefArm(Visible(s), st).0
    ensures Visible(CheckArm(s, st).1) == RefArm(Visible(s), st).1
    decreases st, 1
  {
    if st.Expr? && st.expr.Arm? {
      ArmScopeVisible(s, st.expr.params);
      StmtAgrees(ArmScope(s, st.expr.params), st.expr.body);
    } else {
      StmtAgrees(s, st);
    }
  }

  // ---------------------------------------------------------------------
  // Programs

  function Id(name: string): Expression {
    Expression.Identifier(name, DefaultPosition())
  }

  /** `fib n` checks wherever both names are visible. */
  lemma CallFibChecks(bound: set<string>, p: TokenPosition)
    requires "n" in bound && "fib" in bound
    ensures RefExpr(bound, Call(Id("fib"), [Id("n")], p)).0 == Ok(())
  {
    assert [Id("n")][..0] == [];
    assert RefExprs(bound, [Id("n")]) == RefExpr(bound, Id("n"));
  }

  /** The arm `|n| fib n` binds only `n`. */
  lemma ArmFibParams()
    ensures ParamSet([Id("n")]) == {"n"}
  {
    assert [Id("n")][..0] == [];
    assert ParamNames([Id("n")]) == ["n"];
    assert ["n"][0] == "n";
  }

  /** A function whose arm calls the function being defined checks in an empty global table: `fib = { |n| fib n }`. */
  lemma RecursiveDefinitionChecks(p: TokenPosition)
    ensures CheckStmts(Scope(map[], None), [Assignment(Id("fib"),
      Function(Block([Expr(Arm([Id("n")], Expr(Call(Id("fib"), [Id("n")], p)), p))]), p), p)]).0 == Ok(())
  {
    var call := Call(Id("fib"), [Id("n")], p);
    var arm := Expr(Arm([Id("n")], Expr(call), p));
    var st := Assignment(Id("fib"), Function(Block([arm]), p), p);
    var g := Scope(map[], None);
    StmtsAgree(g, [st]);
    assert [st][..0] == [];
    assert RefStmts(Visible(g), [st]) == RefStmt(Visible(g), st);
    assert [arm][..0] == [];
    assert RefArms(Visible(g) + {"fib"}, [arm]) == RefArm(Visible(g) + {"fib"}, arm);
    var b := Visible(g) + {"fib"};
    assert RefStmt(Visible(g), st) == RefExpr(b, Function(Block([arm]), p)) == RefArms(b, [arm]);
    ArmFibParams();
    CallFibChecks(ParamSet([Id("n")]) + b, p);
    assert RefArm(b, arm).0 == RefStmt(ParamSet([Id("n")]) + b, Expr(call)).0 == RefExpr(ParamSet([Id("n")]) + b, call).0;
  }

  /** A use before any definition is an error at the use: `a = b` with `b` unknown. */
  lemma UseBeforeDefinitionFails(p: TokenPosition, q: TokenPosition, pos: TokenPosition)
    ensures CheckStmts(Scope(map[], None), [Assignment(Expression.Identifier("a", p), Expression.Identifier("b", q), pos)]).0
      == Err(Error(UndeclaredUse, Some(q)))
  {
    var st := Assignment(Expression.Identifier("a", p), Expression.Identifier("b", q), pos);
    assert [st][..0] == [];
    var g := Scope(map[], None);
    assert CheckStmts(g, [st]) == CheckStmt(g, st);
    assert Bind(g, "a") == Scope(map["a" := 0], None);
    assert GetName(Bind(g, "a"), "b") == None;
  }
}
