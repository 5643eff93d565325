/**
 * The recursive-descent parser (parser/parser.rs). Every method moves the
 * shared cursor of its `Traveler`.
 *
 * Several of the source's loops never end on malformed input (an arm whose
 * last token is `,`, a function without its `}`, an operation that ends in an
 * operator, a `\n` symbol at the end). Each method here therefore takes a
 * `fuel` bound: a call into a rule that can reach the caller again spends one
 * unit, every loop round spends one unit of a local budget, and running out
 * gives `OutOfFuel`. With enough fuel the methods follow the source step by
 * step.
 */
module Parsers {
  import opened Wrappers
  import opened Tokens
  import opened Travelers
  import opened Ast
  import opened Operations

  /** The result of running out of fuel; the source has no such error (it keeps looping). */
  const OutOfFuel := Error("out of fuel", None)

  /** The panic of `String::remove(0)` on an empty char literal. */
  const EmptyCharLiteral := "cannot remove a char from the end of a string"

  /** `expected expression, found: {:?}` with the `\n` it found, quoted and escaped by `Debug`. */
  const ExpectedExpression := "expected expression, found: \"\\n\""

  /** A token `skip_whitespace` passes over: a `\n` text, an end of line or an indent. */
  predicate IsLayout(t: Token) {
    t.content == "\n" || t.tokenType == EOL || t.tokenType == Indent
  }

  /** Where `skip_whitespace` leaves a cursor that starts at `top`: at the first token that is not layout, or at the end. */
  function SkipEnd(tokens: seq<Token>, top: nat): (e: nat)
    requires top <= |tokens|
    ensures top <= e <= |tokens|
    decreases |tokens| - top
  {
    if top == |tokens| || !IsLayout(tokens[top]) then top else SkipEnd(tokens, top + 1)
  }

  /** `skip_whitespace` passes over layout only, and stops at the first token that is not layout. */
  lemma {:induction false} SkipEndStops(tokens: seq<Token>, top: nat)
    requires top <= |tokens|
    ensures forall k :: top <= k < SkipEnd(tokens, top) ==> IsLayout(tokens[k])
    ensures SkipEnd(tokens, top) < |tokens| ==> !IsLayout(tokens[SkipEnd(tokens, top)])
    decreases |tokens| - top
  {
    if top < |tokens| && IsLayout(tokens[top]) {
      SkipEndStops(tokens, top + 1);
    }
  }

  /** The token kinds after which `try_call` reads a call: literals, identifiers and `(`. */
  predicate StartsCall(t: Token) {
    || t.tokenType in {IntLiteral, FloatLiteral, BoolLiteral, StringLiteral, CharLiteral, TokenType.Identifier}
    || (t.tokenType == Symbol && t.content == "(")
  }

  /*
   * The parser as functions of the token list and a cursor. Each rule gives
   * its result and where it leaves the cursor; the methods of `Parser` below
   * are proved to compute exactly these, so every property proved about the
   * functions holds of the methods.
   */

  /** A rule's result and the cursor it leaves. */
  type Parsed<T> = (Result<T, Error>, nat)

  /** Where `next` moves a cursor at `top`. */
  function NextAt(tokens: seq<Token>, top: nat): nat {
    if top < |tokens| then top + 1 else top
  }

  /** Where `prev` moves a cursor at `top`. */
  function PrevAt(top: nat): nat {
    if top > 0 then top - 1 else top
  }

  /** The cursor after an operator at `top`: one on, and past one `\n` that follows it. */
  function AfterOperator(tokens: seq<Token>, top: nat): nat
    requires |tokens| > 0
  {
    var t1 := NextAt(tokens, top);
    if CurrentAt(tokens, t1).content == "\n" then NextAt(tokens, t1) else t1
  }

  /** The expression result of `e` as an expression statement. */
  function AsStatement(e: Parsed<Expression>): Parsed<Statement> {
    if e.0.Err? then (Err(e.0.error), e.1) else (Ok(Expr(e.0.value)), e.1)
  }

  /** `expression` from `top`. */
  function ExpressionAt(tokens: seq<Token>, top: nat, fuel: nat): (r: Parsed<Expression>)
    requires |tokens| > 0 && top <= |tokens|
    ensures r.1 <= |tokens|
    decreases fuel, 7, 0
  {
    var (e, t1) := TermAt(tokens, SkipEnd(tokens, top), fuel);
    if e.Err? || e.value.EOF? then (e, t1)
    else if t1 < |tokens| then
      var s := SkipEnd(tokens, t1);
      if CurrentAt(tokens, s).tokenType == Operator then OperationAt(tokens, s, e.value, fuel) else (e, s)
    else (e, t1)
  }

  /** `try_call` from `top`. */
  function TryCallAt(tokens: seq<Token>, top: nat, callee: Expression, fuel: nat): (r: Parsed<Expression>)
    requires |tokens| > 0 && top <= |tokens|
    ensures r.1 <= |tokens|
    decreases fuel, 2, 0
  {
    if StartsCall(CurrentAt(tokens, top)) then ArgsAt(tokens, top, callee, fuel, fuel, [])
    else (Ok(callee), top)
  }

  /** `index` with the `[` at `top`. */
  function IndexAt(tokens: seq<Token>, top: nat, id: Expression, fuel: nat): (r: Parsed<Expression>)
    requires |tokens| > 0 && top <= |tokens|
    ensures r.1 <= |tokens|
    decreases fuel, 0, 0
  {
    var n := NextAt(tokens, top);
    if fuel == 0 then (Err(OutOfFuel), n)
    else IndexClose(tokens, id, ExpressionAt(tokens, n, fuel - 1))
  }

  lemma IndexAtRead(tokens: seq<Token>, top: nat, id: Expression, fuel: nat, read: Parsed<Expression>)
    requires |tokens| > 0 && top <= |tokens| && fuel > 0
    requires read == ExpressionAt(tokens, NextAt(tokens, top), fuel - 1)
    ensures IndexAt(tokens, top, id, fuel) == IndexClose(tokens, id, read)
  {}

  /** The end of `index`, after the index expression `index`: the `]` is required and consumed. */
  function IndexClose(tokens: seq<Token>, id: Expression, index: Parsed<Expression>): (r: Parsed<Expression>)
    requires |tokens| > 0 && index.1 <= |tokens|
    ensures r.1 <= |tokens|
  {
    var t1 := index.1;
    if index.0.Err? then (Err(index.0.error), t1)
    else
      var close := ExpectContentAt(tokens, t1, "]");
      if close.Err? then (Err(close.error), t1)
      else
        var t2 := NextAt(tokens, t1);
        (Ok(Index(id, index.0.value, CurrentAt(tokens, t2).position)), t2)
  }

  /** Where an argument starts: after the `,` under the cursor, if there is one. */
  function ArgumentStart(tokens: seq<Token>, top: nat): (s: nat)
    requires |tokens| > 0 && top <= |tokens|
    ensures s <= |tokens|
  {
    if CurrentAt(tokens, top).content == "," then NextAt(tokens, top) else top
  }

  /**
   * The loop of `call` from `top`, with `args` read so far (the source's
   * `acc` counts the rounds, and every round that goes on reads an argument,
   * so `acc == 0` exactly when `args` is empty). Every argument read here is
   * kept in order after `args`, and none is `EOF`.
   */
  function ArgsAt(tokens: seq<Token>, top: nat, caller: Expression, fuel: nat, budget: nat, args: seq<Expression>): (r: Parsed<Expression>)
    requires |tokens| > 0 && top <= |tokens| && budget <= fuel
    ensures r.1 <= |tokens|
    decreases fuel, 0, budget
  {
    var c := CurrentAt(tokens, top).content;
    if c == "\n" then (Ok(Call(caller, args, CurrentAt(tokens, top).position)), top)
    else if budget == 0 then (Err(OutOfFuel), top)
    else if c == "," || |args| == 0 then
      var (e, t1) := ExpressionAt(tokens, ArgumentStart(tokens, top), fuel - 1);
      if e.Err? then (Err(e.error), t1)
      else if e.value.EOF? then (Ok(Call(caller, args, CurrentAt(tokens, t1).position)), t1)
      else ArgsAt(tokens, t1, caller, fuel, budget - 1, args + [e.value])
    else
      var back := PrevAt(top);
      var b := CurrentAt(tokens, back).content;
      var t1 := if b != "!" || b != "," then NextAt(tokens, back) else back;
      (Ok(Call(caller, args, CurrentAt(tokens, t1).position)), t1)
  }

  /** The parameter loop of `arm` from `top`, with `params` read so far; it ends on a `|`. */
  function ParamsAt(tokens: seq<Token>, top: nat, fuel: nat, budget: nat, params: seq<Expression>): (r: Parsed<seq<Expression>>)
    requires |tokens| > 0 && top <= |tokens| && budget <= fuel
    ensures r.1 <= |tokens|
    decreases fuel, 0, budget
  {
    if CurrentAt(tokens, top).content == "|" then (Ok(params), top)
    else if budget == 0 then (Err(OutOfFuel), top)
    else
      var (p, t1) := ExpressionAt(tokens, top, fuel - 1);
      if p.Err? then (Err(p.error), t1)
      else if CurrentAt(tokens, t1).content == "|" then ParamsAt(tokens, t1, fuel, budget - 1, params + [p.value])
      else
        var comma := ExpectContentAt(tokens, t1, ",");
        if comma.Err? then (Err(comma.error), t1)
        else ParamsAt(tokens, NextAt(tokens, t1), fuel, budget - 1, params + [p.value])
  }

  /** `arm` from `top`. */
  function ArmAt(tokens: seq<Token>, top: nat, fuel: nat): (r: Parsed<Expression>)
    requires |tokens| > 0 && top <= |tokens|
    ensures r.1 <= |tokens|
    decreases fuel, 1, 1
  {
    var open := ExpectContentAt(tokens, top, "|");
    if open.Err? then (Err(open.error), top)
    else ArmBody(tokens, ParamsAt(tokens, NextAt(tokens, top), fuel, fuel, []), fuel)
  }

  /** The rest of `arm` after its parameters `params`: the closing `|`, then the body. */
  function ArmBody(tokens: seq<Token>, params: Parsed<seq<Expression>>, fuel: nat): (r: Parsed<Expression>)
    requires |tokens| > 0 && params.1 <= |tokens|
    ensures r.1 <= |tokens|
    decreases fuel, 1, 0
  {
    if params.0.Err? then (Err(params.0.error), params.1)
    else
      var t2 := NextAt(tokens, params.1);
      if fuel == 0 then (Err(OutOfFuel), t2)
      else ArmClose(tokens, params.0.value, ExpressionAt(tokens, t2, fuel - 1))
  }

  /** The end of `arm`, after its body `body`: the arm's position is the first token after layout. */
  function ArmClose(tokens: seq<Token>, params: seq<Expression>, body: Parsed<Expression>): (r: Parsed<Expression>)
    requires |tokens| > 0 && body.1 <= |tokens|
    ensures r.1 <= |tokens|
  {
    if body.0.Err? then (Err(body.0.error), body.1)
    else
      var t4 := SkipEnd(tokens, body.1);
      (Ok(Arm(params, Expr(body.0.value), CurrentAt(tokens, t4).position)), t4)
  }

  /** The loop of `function` from `top`, with `arms` read so far; it ends on a `}`. */
  function ArmsAt(tokens: seq<Token>, top: nat, fuel: nat, budget: nat, arms: seq<Statement>): (r: Parsed<seq<Statement>>)
    requires |tokens| > 0 && top <= |tokens| && budget <= fuel
    ensures r.1 <= |tokens|
    decreases fuel, 2, budget
  {
    if CurrentAt(tokens, top).content == "}" then (Ok(arms), top)
    else if budget == 0 then (Err(OutOfFuel), top)
    else if CurrentAt(tokens, top).content == "|" then
      var (arm, t1) := ArmAt(tokens, top, fuel);
      if arm.Err? then (Err(arm.error), t1)
      else ArmsAt(tokens, t1, fuel, budget - 1, arms + [Expr(arm.value)])
    else
      var s := SkipEnd(tokens, top);
      if CurrentAt(tokens, s).content != "}" then
        var (st, t1) := StatementAt(tokens, s, fuel - 1);
        if st.Err? then (Err(st.error), t1)
        else ArmsAt(tokens, t1, fuel, budget - 1, arms + [st.value])
      else ArmsAt(tokens, s, fuel, budget - 1, arms)
  }

  /** `function` with the `{` at `top`. */
  function FunctionAt(tokens: seq<Token>, top: nat, fuel: nat): (r: Parsed<Expression>)
    requires |tokens| > 0 && top <= |tokens|
    ensures r.1 <= |tokens|
    decreases fuel, 3, 0
  {
    FunctionClose(tokens, ArmsAt(tokens, SkipEnd(tokens, NextAt(tokens, top)), fuel, fuel, []))
  }

  /** The end of `function`, after its arms `arms`: the `}` is consumed. */
  function FunctionClose(tokens: seq<Token>, arms: Parsed<seq<Statement>>): (r: Parsed<Expression>)
    requires |tokens| > 0 && arms.1 <= |tokens|
    ensures r.1 <= |tokens|
  {
    if arms.0.Err? then (Err(arms.0.error), arms.1)
    else
      var t2 := NextAt(tokens, arms.1);
      (Ok(Function(Block(arms.0.value), CurrentAt(tokens, t2).position)), t2)
  }

  /** `term` from `top`. */
  function TermAt(tokens: seq<Token>, top: nat, fuel: nat): (r: Parsed<Expression>)
    requires |tokens| > 0 && top <= |tokens|
    ensures r.1 <= |tokens|
    decreases fuel, 4, 0
  {
    if top == |tokens| then (Ok(Expression.EOF), top)
    else
      var t := tokens[top];
      match t.tokenType
      case IntLiteral => (Ok(Number(t.content)), top + 1)
      case FloatLiteral => (Ok(Number(t.content)), top + 1)
      case BoolLiteral => (Ok(Bool(t.content == "true")), top + 1)
      case StringLiteral => (Ok(Str(t.content)), top + 1)
      case CharLiteral =>
        if t.content == [] then (Err(Error(EmptyCharLiteral, None)), top)
        else (Ok(Char(t.content[0])), top + 1)
      case Identifier => NamedAt(tokens, top, fuel)
      case Symbol =>
        if t.content == "(" then GroupAt(tokens, top, fuel)
        else if t.content == "{" then FunctionAt(tokens, top, fuel)
        else (Err(Error("unexpected symbol: " + t.content, Some(t.position))), top)
      case _ => (Err(Error("unexpected: " + t.content, Some(t.position))), top)
  }

  /** The identifier arm of `term`, with the identifier at `top`. */
  function NamedAt(tokens: seq<Token>, top: nat, fuel: nat): (r: Parsed<Expression>)
    requires top < |tokens|
    ensures r.1 <= |tokens|
    decreases fuel, 3, 0
  {
    var t := tokens[top];
    var a := Expression.Identifier(t.content, t.position);
    var n := top + 1;
    if n < |tokens| then
      var c := tokens[n].content;
      if c == "," || c == ")" then (Ok(a), n)
      else if c == "[" then IndexAt(tokens, n, a, fuel)
      else TryCallAt(tokens, n, a, fuel)
    else (Ok(a), n)
  }

  /** The `(` arm of `term`, with the `(` at `top`. */
  function GroupAt(tokens: seq<Token>, top: nat, fuel: nat): (r: Parsed<Expression>)
    requires top < |tokens|
    ensures r.1 <= |tokens|
    decreases fuel, 3, 1
  {
    var n := top + 1;
    if fuel == 0 then (Err(OutOfFuel), n)
    else GroupClose(tokens, ExpressionAt(tokens, n, fuel - 1), fuel)
  }

  /** The rest of a parenthesised term after the expression `a` inside it: the `)`, then an index or a call. */
  function GroupClose(tokens: seq<Token>, a: Parsed<Expression>, fuel: nat): (r: Parsed<Expression>)
    requires |tokens| > 0 && a.1 <= |tokens|
    ensures r.1 <= |tokens|
    decreases fuel, 3, 0
  {
    if a.0.Err? then a
    else
      var s := SkipEnd(tokens, a.1);
      var close := ExpectContentAt(tokens, s, ")");
      if close.Err? then (Err(close.error), s)
      else
        var t2 := NextAt(tokens, s);
        if CurrentAt(tokens, t2).content == "[" then IndexAt(tokens, t2, a.0.value, fuel)
        else if t2 < |tokens| then TryCallAt(tokens, t2, a.0.value, fuel)
        else (a.0, t2)
  }

  /** `operation` with its first operator at `top` and its first operand `first`. */
  function OperationAt(tokens: seq<Token>, top: nat, first: Expression, fuel: nat): (r: Parsed<Expression>)
    requires |tokens| > 0 && top <= |tokens|
    ensures r.1 <= |tokens|
    decreases fuel, 6, 0
  {
    var head := FromStr(CurrentAt(tokens, top).content);
    if head.None? then (Err(Error(UnwrapNone, None)), top)
    else
      var (term, t1) := TermAt(tokens, AfterOperator(tokens, top), fuel);
      if term.Err? then (Err(term.error), t1)
      else FoldAt(tokens, t1, fuel, fuel, Pending(first, head.value.0, head.value.1, term.value))
  }

  /** The rounds of the operation loop from `top`, in the state `p`. */
  function FoldAt(tokens: seq<Token>, top: nat, fuel: nat, budget: nat, p: Pending): (r: Parsed<Expression>)
    requires |tokens| > 0 && top <= |tokens| && budget <= fuel
    ensures r.1 <= |tokens|
    decreases fuel, 5, budget
  {
    var t := CurrentAt(tokens, top);
    if t.tokenType != Operator then (Ok(Close(p, t.position)), top)
    else
      var next := FromStr(t.content);
      if next.None? then (Err(Error(UnwrapNone, None)), top)
      else
        var t1 := NextAt(tokens, top);
        if budget == 0 then (Err(OutOfFuel), t1)
        else
          var (op, prec) := next.value;
          var (term, t2) := TermAt(tokens, t1, fuel);
          if term.Err? then (Err(term.error), t2)
          else
            // A fold records the position before the term is read; a tighter operator, the one after.
            var pos := if prec >= p.prec then CurrentAt(tokens, t1).position else CurrentAt(tokens, t2).position;
            FoldAt(tokens, t2, fuel, budget - 1, Shift(p, Step(op, prec, term.value, pos)))
  }

  /** `assignment` with the `=` at `top`. */
  function AssignmentAt(tokens: seq<Token>, top: nat, left: Expression, fuel: nat): (r: Parsed<Statement>)
    requires |tokens| > 0 && top <= |tokens|
    ensures r.1 <= |tokens|
    decreases fuel, 8, 0
  {
    var t1 := NextAt(tokens, top);
    if CurrentAt(tokens, t1).content == "\n" then (Err(Error(ExpectedExpression, Some(CurrentAt(tokens, t1).position))), t1)
    else AssignmentClose(tokens, left, ExpressionAt(tokens, t1, fuel))
  }

  /** The end of `assignment`, after its right-hand side `right`. */
  function AssignmentClose(tokens: seq<Token>, left: Expression, right: Parsed<Expression>): (r: Parsed<Statement>)
    requires |tokens| > 0 && right.1 <= |tokens|
    ensures r.1 <= |tokens|
  {
    if right.0.Err? then (Err(right.0.error), right.1)
    else (Ok(Assignment(left, right.0.value, CurrentAt(tokens, right.1).position)), right.1)
  }

  /** `statement` from `top`. */
  function StatementAt(tokens: seq<Token>, top: nat, fuel: nat): (r: Parsed<Statement>)
    requires |tokens| > 0 && top <= |tokens|
    ensures r.1 <= |tokens|
    decreases fuel, 9, 0
  {
    var s := SkipEnd(tokens, top);
    var t := CurrentAt(tokens, s);
    if t.tokenType == Symbol && t.content == "\n" then
      var t1 := NextAt(tokens, s);
      if fuel == 0 then (Err(OutOfFuel), t1) else StatementAt(tokens, t1, fuel - 1)
    else if t.tokenType == TokenType.Identifier then
      var t1 := NextAt(tokens, s);
      if CurrentAt(tokens, t1).content == "=" then AssignmentAt(tokens, t1, Expression.Identifier(t.content, t.position), fuel)
      else AsStatement(ExpressionAt(tokens, PrevAt(t1), fuel))
    else AsStatement(ExpressionAt(tokens, s, fuel))
  }

  /** The loop of `parse` from `top`, with `stack` read so far; on success it has read every token. */
  function StatementsAt(tokens: seq<Token>, top: nat, fuel: nat, budget: nat, stack: seq<Statement>): (r: Parsed<seq<Statement>>)
    requires top <= |tokens|
    ensures r.1 <= |tokens|
    decreases fuel, 10, budget
  {
    if top == |tokens| then (Ok(stack), top)
    else if budget == 0 then (Err(OutOfFuel), top)
    else
      var (st, t1) := StatementAt(tokens, SkipEnd(tokens, top), fuel);
      if st.Err? then (Err(st.error), t1)
      else StatementsAt(tokens, t1, fuel, budget - 1, stack + [st.value])
  }

  /** `parse` on a fresh cursor: an empty token list gives no statements, and success reads every token. */
  function ProgramAt(tokens: seq<Token>, fuel: nat): (r: Parsed<seq<Statement>>)
    ensures tokens == [] ==> r == (Ok([]), 0)
    ensures r.0.Ok? ==> r.1 == |tokens|
  {
    StatementsReadAll(tokens, 0, fuel, fuel, []);
    StatementsAt(tokens, 0, fuel, fuel, [])
  }

  /*
   * What the rules promise, proved about the functions (and so, through the
   * methods' contracts, about the parser).
   */

  /** The loop of `parse` either fails or reads to the end, keeping the statements already read in front. */
  lemma {:induction false} StatementsReadAll(tokens: seq<Token>, top: nat, fuel: nat, budget: nat, stack: seq<Statement>)
    requires top <= |tokens|
    ensures var r := StatementsAt(tokens, top, fuel, budget, stack);
      && (r.0.Ok? ==> r.1 == |tokens| && |stack| <= |r.0.value| && r.0.value[..|stack|] == stack)
      && (top == |tokens| ==> r == (Ok(stack), top))
    decreases budget
  {
    if top < |tokens| && budget > 0 {
      var (st, t1) := StatementAt(tokens, SkipEnd(tokens, top), fuel);
      if st.Ok? {
        var more := stack + [st.value];
        StatementsReadAll(tokens, t1, fuel, budget - 1, more);
        var r := StatementsAt(tokens, t1, fuel, budget - 1, more);
        if r.0.Ok? {
          PrefixOfPrefix(r.0.value, stack, st.value);
        }
      }
    }
  }

  /** An expression that starts, after layout, at the end is `EOF`, and leaves the cursor at the end. */
  lemma ExpressionAtEnd(tokens: seq<Token>, top: nat, fuel: nat)
    requires |tokens| > 0 && top <= |tokens| && SkipEnd(tokens, top) == |tokens|
    ensures ExpressionAt(tokens, top, fuel) == (Ok(Expression.EOF), |tokens|)
  {
  }

  /**
   * A term at the end is `EOF` and nothing moves. A literal token becomes its
   * literal and is consumed; an empty char literal is the panic of
   * `remove(0)`; `{` starts a function; any other symbol, and any token of a
   * kind that cannot start a term, is an error at that token.
   */
  lemma TermCases(tokens: seq<Token>, top: nat, fuel: nat)
    requires |tokens| > 0 && top <= |tokens|
    ensures top == |tokens| ==> TermAt(tokens, top, fuel) == (Ok(Expression.EOF), top)
    ensures top < |tokens| ==>
      var t := tokens[top];
      var r := TermAt(tokens, top, fuel);
      && (t.tokenType in {IntLiteral, FloatLiteral} ==> r == (Ok(Number(t.content)), top + 1))
      && (t.tokenType == BoolLiteral ==> r == (Ok(Bool(t.content == "true")), top + 1))
      && (t.tokenType == StringLiteral ==> r == (Ok(Str(t.content)), top + 1))
      && (t.tokenType == CharLiteral && t.content != [] ==> r == (Ok(Char(t.content[0])), top + 1))
      && (t.tokenType == CharLiteral && t.content == [] ==> r == (Err(Error(EmptyCharLiteral, None)), top))
      && (t.tokenType == Symbol && t.content == "{" ==> r.0.Ok? ==> r.0.value.Function?)
      && (t.tokenType == Symbol && t.content !in {"(", "{"} ==>
            r == (Err(Error("unexpected symbol: " + t.content, Some(t.position))), top))
      && (t.tokenType in {Operator, Type, Keyword, Whitespace, Indent, EOL, TokenType.EOF} ==>
            r == (Err(Error("unexpected: " + t.content, Some(t.position))), top))
  {
    if top < |tokens| && tokens[top].tokenType == Symbol && tokens[top].content == "{" {
      FunctionShape(tokens, top, fuel);
    }
  }

  /**
   * An identifier term: left bare before `,`, `)` or the end, indexed before
   * `[`, called when the next token can start an argument, bare otherwise.
   */
  lemma TermIdentifier(tokens: seq<Token>, top: nat, fuel: nat)
    requires top < |tokens| && tokens[top].tokenType == TokenType.Identifier
    ensures
      var t := tokens[top];
      var a := Expression.Identifier(t.content, t.position);
      var n := top + 1;
      var r := TermAt(tokens, top, fuel);
      && (n == |tokens| || tokens[n].content in {",", ")"} ==> r == (Ok(a), n))
      && (n < |tokens| && tokens[n].content == "[" ==> r.0.Ok? ==> r.0.value.Index? && r.0.value.id == a)
      && (n < |tokens| && tokens[n].content !in {",", ")", "["} ==>
            && (StartsCall(tokens[n]) ==> r.0.Ok? ==> r.0.value.Call? && r.0.value.callee == a)
            && (!StartsCall(tokens[n]) ==> r == (Ok(a), n)))
  {
    var t := tokens[top];
    var a := Expression.Identifier(t.content, t.position);
    if top + 1 < |tokens| {
      IndexShape(tokens, top + 1, a, fuel);
      TryCallCases(tokens, top + 1, a, fuel);
    }
  }

  /**
   * A parenthesised term: the expression after `(`, then layout, then a
   * required `)`. An error inside is passed on as it is; a missing `)` is an
   * error at the token found instead. After the `)` come an index, a call,
   * or nothing, and then the term is the inner expression itself.
   */
  lemma TermGroup(tokens: seq<Token>, top: nat, fuel: nat)
    requires top < |tokens| && tokens[top].tokenType == Symbol && tokens[top].content == "("
    ensures fuel == 0 ==> TermAt(tokens, top, fuel) == (Err(OutOfFuel), top + 1)
    ensures fuel > 0 ==>
      var (a, t1) := ExpressionAt(tokens, top + 1, fuel - 1);
      var s := SkipEnd(tokens, t1);
      var t2 := NextAt(tokens, s);
      var r := TermAt(tokens, top, fuel);
      && (a.Err? ==> r == (a, t1))
      && (a.Ok? && CurrentAt(tokens, s).content != ")" ==>
            r.0.Err? && r.0.error.position == Some(CurrentAt(tokens, s).position) && r.1 == s)
      && (a.Ok? && CurrentAt(tokens, s).content == ")" ==>
            && (CurrentAt(tokens, t2).content == "[" ==> r.0.Ok? ==> r.0.value.Index? && r.0.value.id == a.value)
            && (CurrentAt(tokens, t2).content != "[" && t2 < |tokens| ==>
                  && (StartsCall(tokens[t2]) ==> r.0.Ok? ==> r.0.value.Call? && r.0.value.callee == a.value)
                  && (!StartsCall(tokens[t2]) ==> r == (a, t2)))
            && (CurrentAt(tokens, t2).content != "[" && t2 == |tokens| ==> r == (a, t2)))
  {
    if fuel > 0 {
      var (a, t1) := ExpressionAt(tokens, top + 1, fuel - 1);
      assert TermAt(tokens, top, fuel) == GroupClose(tokens, (a, t1), fuel);
      if a.Ok? {
        var t2 := NextAt(tokens, SkipEnd(tokens, t1));
        IndexShape(tokens, t2, a.value, fuel);
        TryCallCases(tokens, t2, a.value, fuel);
      }
    }
  }

  /** `id[index]`: on success the result indexes `id` with the expression after the `[`, and the last token read is `]`. */
  lemma IndexShape(tokens: seq<Token>, top: nat, id: Expression, fuel: nat)
    requires |tokens| > 0 && top <= |tokens|
    ensures var r := IndexAt(tokens, top, id, fuel);
      r.0.Ok? ==>
        && fuel > 0 && r.0.value.Index? && r.0.value.id == id
        && ExpressionAt(tokens, NextAt(tokens, top), fuel - 1).0 == Ok(r.0.value.index)
        && 0 < r.1 && tokens[r.1 - 1].content == "]"
  {
  }

  /** The arguments of a call: on success a call of `caller`, with the arguments read before kept in front. */
  lemma {:induction false} ArgsKeep(tokens: seq<Token>, top: nat, caller: Expression, fuel: nat, budget: nat, args: seq<Expression>)
    requires |tokens| > 0 && top <= |tokens| && budget <= fuel
    ensures var r := ArgsAt(tokens, top, caller, fuel, budget, args);
      r.0.Ok? ==>
        && r.0.value.Call? && r.0.value.callee == caller
        && args <= r.0.value.args
    decreases budget
  {
    var c := CurrentAt(tokens, top).content;
    if c != "\n" && budget > 0 && (c == "," || |args| == 0) {
      var (e, t1) := ExpressionAt(tokens, ArgumentStart(tokens, top), fuel - 1);
      ArgsRound(tokens, top, caller, fuel, budget, args, (e, t1));
      if e.Ok? && !e.value.EOF? {
        var more := args + [e.value];
        ArgsKeep(tokens, t1, caller, fuel, budget - 1, more);
        assert args <= more;
      }
    } else {
      ArgsStop(tokens, top, caller, fuel, budget, args);
    }
  }

  /** No argument of a call is `EOF`: the end of the source ends the argument list instead. */
  predicate NoEndArgs(args: seq<Expression>) {
    forall k :: 0 <= k < |args| ==> !args[k].EOF?
  }

  /** The call loop never appends `EOF` as an argument. */
  lemma {:induction false} ArgsNeverEnd(tokens: seq<Token>, top: nat, caller: Expression, fuel: nat, budget: nat, args: seq<Expression>)
    requires |tokens| > 0 && top <= |tokens| && budget <= fuel && NoEndArgs(args)
    ensures var r := ArgsAt(tokens, top, caller, fuel, budget, args);
      r.0.Ok? && r.0.value.Call? ==> NoEndArgs(r.0.value.args)
    decreases budget
  {
    var c := CurrentAt(tokens, top).content;
    if c != "\n" && budget > 0 && (c == "," || |args| == 0) {
      var (e, t1) := ExpressionAt(tokens, ArgumentStart(tokens, top), fuel - 1);
      ArgsRound(tokens, top, caller, fuel, budget, args, (e, t1));
      if e.Ok? && !e.value.EOF? {
        ArgsNeverEnd(tokens, t1, caller, fuel, budget - 1, args + [e.value]);
      }
    } else {
      ArgsStop(tokens, top, caller, fuel, budget, args);
    }
  }

  /** A round of `call` that reads no argument ends the loop: with an error when out of fuel, with the arguments read so far otherwise. */
  lemma ArgsStop(tokens: seq<Token>, top: nat, caller: Expression, fuel: nat, budget: nat, args: seq<Expression>)
    requires |tokens| > 0 && top <= |tokens| && budget <= fuel
    requires var c := CurrentAt(tokens, top).content; c == "\n" || budget == 0 || (c != "," && |args| > 0)
    ensures var r := ArgsAt(tokens, top, caller, fuel, budget, args);
      r.0.Ok? ==> r.0.value == Call(caller, args, CurrentAt(tokens, r.1).position)
  {
  }

  /** A sequence that starts with `s + [x]` starts with `s`, and `x` comes right after it. */
  lemma PrefixOfPrefix<T>(a: seq<T>, s: seq<T>, x: T)
    requires |s| + 1 <= |a| && a[..|s| + 1] == s + [x]
    ensures a[..|s|] == s && a[|s|] == x
  {
    assert a[..|s|] == a[..|s| + 1][..|s|];
    assert a[|s|] == a[..|s| + 1][|s|];
  }

  /** One round of `call` that reads an argument: the loop goes on after it with the argument appended. */
  lemma ArgsRound(tokens: seq<Token>, top: nat, caller: Expression, fuel: nat, budget: nat, args: seq<Expression>, read: Parsed<Expression>)
    requires |tokens| > 0 && top <= |tokens| && budget <= fuel
    requires budget > 0 && CurrentAt(tokens, top).content != "\n"
    requires CurrentAt(tokens, top).content == "," || |args| == 0
    requires read == ExpressionAt(tokens, ArgumentStart(tokens, top), fuel - 1)
    ensures ArgsAt(tokens, top, caller, fuel, budget, args) ==
      if read.0.Err? then (Err(read.0.error), read.1)
      else if read.0.value.EOF? then (Ok(Call(caller, args, CurrentAt(tokens, read.1).position)), read.1)
      else ArgsAt(tokens, read.1, caller, fuel, budget - 1, args + [read.0.value])
  {
  }

  /** `try_call`: a call of `callee` when the current token can start an argument, `callee` alone otherwise. */
  lemma TryCallCases(tokens: seq<Token>, top: nat, callee: Expression, fuel: nat)
    requires |tokens| > 0 && top <= |tokens|
    ensures !StartsCall(CurrentAt(tokens, top)) ==> TryCallAt(tokens, top, callee, fuel) == (Ok(callee), top)
    ensures StartsCall(CurrentAt(tokens, top)) ==>
      var r := TryCallAt(tokens, top, callee, fuel);
      r.0.Ok? ==> r.0.value.Call? && r.0.value.callee == callee && NoEndArgs(r.0.value.args)
  {
    ArgsKeep(tokens, top, callee, fuel, fuel, []);
    ArgsNeverEnd(tokens, top, callee, fuel, fuel, []);
  }

  /**
   * The rounds of `call`. A `\n` ends the call where it stands. The first
   * argument is read by juxtaposition, from the current token; every further
   * one only after a `,`. Any other token after the first argument ends the
   * call, and the probe `prev` then `next` leaves the cursor where it was.
   */
  lemma CallRounds(tokens: seq<Token>, top: nat, caller: Expression, fuel: nat, budget: nat, args: seq<Expression>)
    requires |tokens| > 0 && top <= |tokens| && budget <= fuel
    ensures CurrentAt(tokens, top).content == "\n" ==>
      ArgsAt(tokens, top, caller, fuel, budget, args) == (Ok(Call(caller, args, CurrentAt(tokens, top).position)), top)
    ensures budget > 0 && args == [] && CurrentAt(tokens, top).content !in {"\n", ","} ==>
      var (e, t1) := ExpressionAt(tokens, top, fuel - 1);
      e.Ok? && !e.value.EOF? ==>
        ArgsAt(tokens, top, caller, fuel, budget, []) == ArgsAt(tokens, t1, caller, fuel, budget - 1, [e.value])
    ensures budget > 0 && CurrentAt(tokens, top).content == "," ==>
      var (e, t1) := ExpressionAt(tokens, NextAt(tokens, top), fuel - 1);
      e.Ok? && !e.value.EOF? ==>
        ArgsAt(tokens, top, caller, fuel, budget, args) == ArgsAt(tokens, t1, caller, fuel, budget - 1, args + [e.value])
    ensures budget > 0 && args != [] && 0 < top && CurrentAt(tokens, top).content !in {"\n", ","} ==>
      ArgsAt(tokens, top, caller, fuel, budget, args) == (Ok(Call(caller, args, CurrentAt(tokens, top).position)), top)
  {
    var c := CurrentAt(tokens, top).content;
    if budget > 0 && c != "\n" && (c == "," || |args| == 0) {
      ArgsRound(tokens, top, caller, fuel, budget, args, ExpressionAt(tokens, ArgumentStart(tokens, top), fuel - 1));
      var e := ExpressionAt(tokens, top, fuel - 1).0;
      if |args| == 0 && e.Ok? {
        assert args + [e.value] == [e.value];
      }
    }
  }

  /** The parameters of an arm: those read before are kept in front, and the loop ends on a `|`. */
  lemma {:induction false} ParamsEndAtBar(tokens: seq<Token>, top: nat, fuel: nat, budget: nat, params: seq<Expression>)
    requires |tokens| > 0 && top <= |tokens| && budget <= fuel
    ensures var r := ParamsAt(tokens, top, fuel, budget, params);
      r.0.Ok? ==> CurrentAt(tokens, r.1).content == "|" && |params| <= |r.0.value| && r.0.value[..|params|] == params
    decreases budget
  {
    if CurrentAt(tokens, top).content != "|" && budget > 0 {
      var (p, t1) := ExpressionAt(tokens, top, fuel - 1);
      if p.Ok? {
        var more := params + [p.value];
        var next := if CurrentAt(tokens, t1).content == "|" then t1 else NextAt(tokens, t1);
        ParamsEndAtBar(tokens, next, fuel, budget - 1, more);
        var r := ParamsAt(tokens, next, fuel, budget - 1, more);
        if r.0.Ok? {
          PrefixOfPrefix(r.0.value, params, p.value);
        }
      }
    }
  }

  /**
   * Parameters are separated by `,` up to the closing `|`. A parameter
   * followed by `,` is kept and reading goes on after the `,`; one followed
   * by `|` is kept and is the last; one followed by anything else is the
   * `expect_content(",")` error at that token.
   */
  lemma ParamsSeparated(tokens: seq<Token>, top: nat, fuel: nat, budget: nat, params: seq<Expression>, x: Expression, t1: nat)
    requires |tokens| > 0 && top <= |tokens| && 0 < budget <= fuel
    requires CurrentAt(tokens, top).content != "|"
    requires ExpressionAt(tokens, top, fuel - 1) == (Ok(x), t1)
    ensures t1 <= |tokens|
    ensures
      ParamsAt(tokens, top, fuel, budget, params) ==
        if CurrentAt(tokens, t1).content == "," then ParamsAt(tokens, NextAt(tokens, t1), fuel, budget - 1, params + [x])
        else if CurrentAt(tokens, t1).content == "|" then (Ok(params + [x]), t1)
        else (Err(ExpectContentAt(tokens, t1, ",").error), t1)
  {
    if CurrentAt(tokens, t1).content == "|" {
      assert ParamsAt(tokens, t1, fuel, budget - 1, params + [x]) == (Ok(params + [x]), t1);
    }
  }

  /** An identifier parameter is read as itself, so the separator test is at the token after it. */
  lemma IdentifierParam(tokens: seq<Token>, top: nat, fuel: nat)
    requires top + 1 < |tokens| && 0 < fuel
    requires tokens[top].tokenType == TokenType.Identifier && tokens[top].content !in {"|", "\n"}
    requires tokens[top + 1].tokenType == Symbol && tokens[top + 1].content in {",", "|"}
    ensures ExpressionAt(tokens, top, fuel - 1) == (Ok(Expression.Identifier(tokens[top].content, tokens[top].position)), top + 1)
  {
    var x := Expression.Identifier(tokens[top].content, tokens[top].position);
    assert SkipEnd(tokens, top) == top;
    assert SkipEnd(tokens, top + 1) == top + 1;
    if tokens[top + 1].content == "|" {
      assert !StartsCall(CurrentAt(tokens, top + 1));
      assert TryCallAt(tokens, top + 1, x, fuel - 1) == (Ok(x), top + 1);
    }
    assert NamedAt(tokens, top, fuel - 1) == (Ok(x), top + 1);
    assert TermAt(tokens, top, fuel - 1) == (Ok(x), top + 1);
  }

  /**
   * An arm needs its opening `|`, and the error without it is at the token
   * found. On success the arm holds the parameters read after the `|` and
   * its body as one expression statement.
   */
  lemma ArmShape(tokens: seq<Token>, top: nat, fuel: nat)
    requires |tokens| > 0 && top <= |tokens|
    ensures CurrentAt(tokens, top).content != "|" ==>
      var r := ArmAt(tokens, top, fuel);
      r.0.Err? && r.0.error.position == Some(CurrentAt(tokens, top).position) && r.1 == top
    ensures var r := ArmAt(tokens, top, fuel);
      r.0.Ok? ==> && r.0.value.Arm? && r.0.value.body.Expr?
                  && ParamsAt(tokens, NextAt(tokens, top), fuel, fuel, []).0 == Ok(r.0.value.params)
  {
  }

  /** The arms of a function: those read before are kept in front, and the loop ends on a `}`. */
  lemma {:induction false} ArmsEndAtBrace(tokens: seq<Token>, top: nat, fuel: nat, budget: nat, arms: seq<Statement>)
    requires |tokens| > 0 && top <= |tokens| && budget <= fuel
    ensures var r := ArmsAt(tokens, top, fuel, budget, arms);
      r.0.Ok? ==> CurrentAt(tokens, r.1).content == "}" && |arms| <= |r.0.value| && r.0.value[..|arms|] == arms
    decreases budget
  {
    if CurrentAt(tokens, top).content != "}" && budget > 0 {
      if CurrentAt(tokens, top).content == "|" {
        var (arm, t1) := ArmAt(tokens, top, fuel);
        if arm.Ok? {
          var more := arms + [Expr(arm.value)];
          ArmsEndAtBrace(tokens, t1, fuel, budget - 1, more);
          var r := ArmsAt(tokens, t1, fuel, budget - 1, more);
          if r.0.Ok? {
            PrefixOfPrefix(r.0.value, arms, Expr(arm.value));
          }
        }
      } else {
        var s := SkipEnd(tokens, top);
        if CurrentAt(tokens, s).content != "}" {
          var (st, t1) := StatementAt(tokens, s, fuel - 1);
          if st.Ok? {
            var more := arms + [st.value];
            ArmsEndAtBrace(tokens, t1, fuel, budget - 1, more);
            var r := ArmsAt(tokens, t1, fuel, budget - 1, more);
            if r.0.Ok? {
              PrefixOfPrefix(r.0.value, arms, st.value);
            }
          }
        } else {
          ArmsEndAtBrace(tokens, s, fuel, budget - 1, arms);
        }
      }
    }
  }

  /** `{ ... }`: on success a function whose arms are a block, and the last token read is the `}`. */
  lemma FunctionShape(tokens: seq<Token>, top: nat, fuel: nat)
    requires |tokens| > 0 && top <= |tokens|
    ensures var r := FunctionAt(tokens, top, fuel);
      r.0.Ok? ==> r.0.value.Function? && r.0.value.arms.Block? && 0 < r.1 && tokens[r.1 - 1].content == "}"
  {
    ArmsEndAtBrace(tokens, SkipEnd(tokens, NextAt(tokens, top)), fuel, fuel, []);
  }

  /** After `=`, a `\n` is the "expected expression" error at it; otherwise the right-hand side is the expression that follows. */
  lemma AssignmentCases(tokens: seq<Token>, top: nat, left: Expression, fuel: nat)
    requires |tokens| > 0 && top <= |tokens|
    ensures var t1 := NextAt(tokens, top);
      CurrentAt(tokens, t1).content == "\n" ==>
        AssignmentAt(tokens, top, left, fuel) == (Err(Error(ExpectedExpression, Some(CurrentAt(tokens, t1).position))), t1)
    ensures var t1 := NextAt(tokens, top);
      var r := AssignmentAt(tokens, top, left, fuel);
      CurrentAt(tokens, t1).content != "\n" && r.0.Ok? ==>
        && r.0.value.Assignment? && r.0.value.left == left
        && ExpressionAt(tokens, t1, fuel).0 == Ok(r.0.value.right)
  {
  }

  /**
   * A statement, after layout: an identifier followed by `=` is an
   * assignment to that identifier; an identifier followed by anything else
   * is read again, from the identifier itself, as an expression statement;
   * any other token starts an expression statement.
   */
  lemma StatementCases(tokens: seq<Token>, top: nat, fuel: nat)
    requires |tokens| > 0 && top <= |tokens|
    ensures var s := SkipEnd(tokens, top);
      s < |tokens| ==>
        var t := tokens[s];
        var r := StatementAt(tokens, top, fuel);
        && (t.tokenType == TokenType.Identifier && CurrentAt(tokens, s + 1).content == "=" ==>
              r == AssignmentAt(tokens, s + 1, Expression.Identifier(t.content, t.position), fuel))
        && (t.tokenType == TokenType.Identifier && CurrentAt(tokens, s + 1).content != "=" ==>
              r == AsStatement(ExpressionAt(tokens, s, fuel)))
        && (t.tokenType != TokenType.Identifier ==> r == AsStatement(ExpressionAt(tokens, s, fuel)))
  {
    SkipEndStops(tokens, top);
  }

  /**
   * Round `k` of the operation loop read, at cursor `at[k]`, an operator the
   * table knows, and then the term after it, which ended at `at[k + 1]`.
   */
  predicate ReadsRounds(tokens: seq<Token>, fuel: nat, at: seq<nat>, steps: seq<Step>)
    requires |tokens| > 0
  {
    && |at| == |steps| + 1
    && forall k :: 0 <= k < |steps| ==>
         && at[k] <= |tokens|
         && CurrentAt(tokens, at[k]).tokenType == Operator
         && FromStr(CurrentAt(tokens, at[k]).content) == Some((steps[k].op, steps[k].prec))
         && TermAt(tokens, NextAt(tokens, at[k]), fuel) == (Ok(steps[k].term), at[k + 1])
  }

  /** One round of the operation loop that reads an operator and a term: the loop goes on from after the term with the step applied. */
  lemma FoldRound(tokens: seq<Token>, top: nat, fuel: nat, budget: nat, p: Pending, read: Parsed<Expression>)
    requires |tokens| > 0 && top <= |tokens| && 0 < budget <= fuel
    requires CurrentAt(tokens, top).tokenType == Operator && FromStr(CurrentAt(tokens, top).content).Some?
    requires read == TermAt(tokens, NextAt(tokens, top), fuel)
    ensures
      var (op, prec) := FromStr(CurrentAt(tokens, top).content).value;
      var t1 := NextAt(tokens, top);
      var pos := if prec >= p.prec then CurrentAt(tokens, t1).position else CurrentAt(tokens, read.1).position;
      FoldAt(tokens, top, fuel, budget, p) ==
        if read.0.Err? then (Err(read.0.error), read.1)
        else FoldAt(tokens, read.1, fuel, budget - 1, Shift(p, Step(op, prec, read.0.value, pos)))
  {
  }

  /** A round read at `top`, followed by rounds read from where its term ended. */
  lemma ReadsRoundsCons(tokens: seq<Token>, fuel: nat, top: nat, s: Step, at: seq<nat>, steps: seq<Step>)
    requires |tokens| > 0 && top <= |tokens|
    requires CurrentAt(tokens, top).tokenType == Operator
    requires FromStr(CurrentAt(tokens, top).content) == Some((s.op, s.prec))
    requires ReadsRounds(tokens, fuel, at, steps) && TermAt(tokens, NextAt(tokens, top), fuel) == (Ok(s.term), at[0])
    ensures ReadsRounds(tokens, fuel, [top] + at, [s] + steps)
  {
    var at', steps' := [top] + at, [s] + steps;
    forall k | 0 <= k < |steps'|
      ensures && at'[k] <= |tokens|
              && CurrentAt(tokens, at'[k]).tokenType == Operator
              && FromStr(CurrentAt(tokens, at'[k]).content) == Some((steps'[k].op, steps'[k].prec))
              && TermAt(tokens, NextAt(tokens, at'[k]), fuel) == (Ok(steps'[k].term), at'[k + 1])
    {
      if k > 0 {
        assert at'[k] == at[k - 1] && steps'[k] == steps[k - 1] && at'[k + 1] == at[k];
      }
    }
  }

  /**
   * The rounds from `top` in the state `p`: on success the result is what
   * the operators and terms read from the tokens, in order, fold to from
   * `p`, closed at the first token that is not an operator.
   */
  lemma FoldReads(tokens: seq<Token>, top: nat, fuel: nat, budget: nat, p: Pending)
    requires |tokens| > 0 && top <= |tokens| && budget <= fuel
    ensures var r := FoldAt(tokens, top, fuel, budget, p);
      r.0.Ok? ==> CurrentAt(tokens, r.1).tokenType != Operator
    ensures var r := FoldAt(tokens, top, fuel, budget, p);
      r.0.Ok? ==> exists at: seq<nat>, steps: seq<Step> ::
        && ReadsRounds(tokens, fuel, at, steps) && at[0] == top && at[|steps|] == r.1
        && r.0.value == Close(Reduce(p, steps), CurrentAt(tokens, r.1).position)
  {
    var at, steps := FoldTrace(tokens, top, fuel, budget, p);
  }

  /** `FoldReads`, with the rounds read handed back. */
  lemma {:induction false} FoldTrace(tokens: seq<Token>, top: nat, fuel: nat, budget: nat, p: Pending)
      returns (at: seq<nat>, steps: seq<Step>)
    requires |tokens| > 0 && top <= |tokens| && budget <= fuel
    ensures var r := FoldAt(tokens, top, fuel, budget, p);
      r.0.Ok? ==>
        && CurrentAt(tokens, r.1).tokenType != Operator
        && ReadsRounds(tokens, fuel, at, steps) && at[0] == top && at[|steps|] == r.1
        && r.0.value == Close(Reduce(p, steps), CurrentAt(tokens, r.1).position)
    decreases budget
  {
    var r := FoldAt(tokens, top, fuel, budget, p);
    var t := CurrentAt(tokens, top);
    at, steps := [top], [];
    if t.tokenType != Operator {
      assert r == (Ok(Close(p, t.position)), top);
      assert ReadsRounds(tokens, fuel, at, steps);
      assert Reduce(p, []) == p;
    } else if r.0.Ok? {
      assert FromStr(t.content).Some? && budget > 0;
      var (op, prec) := FromStr(t.content).value;
      var t1 := NextAt(tokens, top);
      var (term, t2) := TermAt(tokens, t1, fuel);
      assert term.Ok?;
      var pos := if prec >= p.prec then CurrentAt(tokens, t1).position else CurrentAt(tokens, t2).position;
      var s := Step(op, prec, term.value, pos);
      FoldRound(tokens, top, fuel, budget, p, (term, t2));
      assert r == FoldAt(tokens, t2, fuel, budget - 1, Shift(p, s));
      var at', steps' := FoldTrace(tokens, t2, fuel, budget - 1, Shift(p, s));
      ReduceFirst(p, s, steps');
      ReadsRoundsCons(tokens, fuel, top, s, at', steps');
      at, steps := [top] + at', [s] + steps';
      assert at[|steps|] == at'[|steps'|];
    }
  }

  /**
   * `operation`: an operator text the table does not know is the panic of
   * `unwrap`. On success the first operand is `first`, the first operator is
   * the one under the cursor, its right operand is the term after it (past
   * one `\n`), and the rounds after that are read from the tokens in order:
   * the result is `Close(Reduce(init, steps))` of exactly those.
   */
  lemma OperationReads(tokens: seq<Token>, top: nat, first: Expression, fuel: nat)
    requires |tokens| > 0 && top <= |tokens|
    ensures FromStr(CurrentAt(tokens, top).content).None? ==>
      OperationAt(tokens, top, first, fuel) == (Err(Error(UnwrapNone, None)), top)
    ensures var r := OperationAt(tokens, top, first, fuel);
      var head := FromStr(CurrentAt(tokens, top).content);
      var (term, t1) := TermAt(tokens, AfterOperator(tokens, top), fuel);
      r.0.Ok? ==>
        && head.Some? && term.Ok? && head.value.1 == Precedence(head.value.0)
        && exists at: seq<nat>, steps: seq<Step> ::
             && ReadsRounds(tokens, fuel, at, steps) && at[0] == t1 && at[|steps|] == r.1
             && r.0.value == Close(Reduce(Pending(first, head.value.0, head.value.1, term.value), steps), CurrentAt(tokens, r.1).position)
  {
    var head := FromStr(CurrentAt(tokens, top).content);
    if head.Some? {
      FromStrTable(CurrentAt(tokens, top).content);
      var (term, t1) := TermAt(tokens, AfterOperator(tokens, top), fuel);
      if term.Ok? {
        FoldReads(tokens, t1, fuel, fuel, Pending(first, head.value.0, head.value.1, term.value));
      }
    }
  }

  class Parser {
    const traveler: Traveler

    ghost predicate Valid()
      reads this, traveler
    {
      traveler.Valid()
    }

    constructor (traveler: Traveler)
      requires traveler.Valid()
      ensures this.traveler == traveler && Valid()
    {
      this.traveler := traveler;
    }

    /** Statements until the cursor reaches the end, layout skipped before each. */
    method Parse(fuel: nat) returns (r: Result<seq<Statement>, Error>)
      requires Valid()
      modifies traveler`top
      ensures Valid()
      ensures (r, traveler.top) == StatementsAt(traveler.tokens, old(traveler.top), fuel, fuel, [])
    {
      var stack: seq<Statement> := [];
      var budget: nat := fuel;
      while traveler.Remaining() > 1
        invariant Valid()
        invariant StatementsAt(traveler.tokens, traveler.top, fuel, budget, stack)
          == StatementsAt(traveler.tokens, old(traveler.top), fuel, fuel, [])
        decreases budget
      {
        if budget == 0 {
          return Err(OutOfFuel);
        }
        budget := budget - 1;
        SkipWhitespace();
        var s := ParseStatement(fuel);
        if s.Err? {
          return Err(s.error);
        }
        stack := stack + [s.value];
      }
      return Ok(stack);
    }

    /** Passes over layout tokens, and stops at the end. */
    method SkipWhitespace()
      requires Valid() && |traveler.tokens| > 0
      modifies traveler`top
      ensures Valid()
      ensures traveler.top == SkipEnd(traveler.tokens, old(traveler.top))
    {
      while IsLayout(traveler.Current())
        invariant Valid()
        invariant SkipEnd(traveler.tokens, traveler.top) == SkipEnd(traveler.tokens, old(traveler.top))
        decreases |traveler.tokens| - traveler.top
      {
        var _ := traveler.Next();
        if traveler.Remaining() < 2 {
          break;
        }
      }
    }

    /** An expression: its first term, then an operation when an operator follows. */
    method ParseExpression(fuel: nat) returns (r: Result<Expression, Error>)
      requires Valid() && |traveler.tokens| > 0
      modifies traveler`top
      ensures Valid()
      ensures (r, traveler.top) == ExpressionAt(traveler.tokens, old(traveler.top), fuel)
      decreases fuel, 7
    {
      SkipWhitespace();
      var expr := ParseTerm(fuel);
      if expr.Err? || expr.value.EOF? {
        return expr;
      }
      if traveler.Remaining() > 1 {
        SkipWhitespace();
        if traveler.Current().tokenType == Operator {
          r := ParseOperation(expr.value, fuel);
          return;
        }
      }
      return expr;
    }

    /** `try_call`: a call when the current token can start an argument, the callee alone otherwise. */
    method TryCall(callee: Expression, fuel: nat) returns (r: Result<Expression, Error>)
      requires Valid() && |traveler.tokens| > 0
      modifies traveler`top
      ensures Valid()
      ensures (r, traveler.top) == TryCallAt(traveler.tokens, old(traveler.top), callee, fuel)
      decreases fuel, 1
    {
      if StartsCall(traveler.Current()) {
        r := ParseCall(callee, fuel);
      } else {
        r := Ok(callee);
      }
    }

    /** `id[index]`: the opening `[` is under the cursor; the closing `]` is required and consumed. */
    method ParseIndex(id: Expression, fuel: nat) returns (r: Result<Expression, Error>)
      requires Valid() && |traveler.tokens| > 0
      modifies traveler`top
      ensures Valid()
      ensures (r, traveler.top) == IndexAt(traveler.tokens, old(traveler.top), id, fuel)
      decreases fuel, 1
    {
      var _ := traveler.Next();
      ghost var n := traveler.top;
      assert n == NextAt(traveler.tokens, old(traveler.top));
      if fuel == 0 {
        return Err(OutOfFuel);
      }
      var index := ParseExpression(fuel - 1);
      ghost var read := (index, traveler.top);
      assert read == ExpressionAt(traveler.tokens, n, fuel - 1);
      IndexAtRead(traveler.tokens, old(traveler.top), id, fuel, read);
      if index.Err? {
        return Err(index.error);
      }
      var close := traveler.ExpectContent("]");
      if close.Err? {
        return Err(close.error);
      }
      var _ := traveler.Next();
      r := Ok(Index(id, index.value, traveler.Current().position));
      assert (r, traveler.top) == IndexClose(traveler.tokens, id, read);
    }

    /** `|p, q| body`: the parameters up to the next `|`, then one expression as the arm's statement. */
    method ParseArm(fuel: nat) returns (r: Result<Expression, Error>)
      requires Valid() && |traveler.tokens| > 0
      modifies traveler`top
      ensures Valid()
      ensures (r, traveler.top) == ArmAt(traveler.tokens, old(traveler.top), fuel)
      decreases fuel, 1
    {
      var open := traveler.ExpectContent("|");
      if open.Err? {
        return Err(open.error);
      }
      var _ := traveler.Next();
      var params := ParseParams(fuel);
      ghost var read := (params, traveler.top);
      if params.Err? {
        return Err(params.error);
      }
      // The loop ended on the closing `|`, so the source's `expect_content("|")` here succeeds.
      var _ := traveler.Next();
      if fuel == 0 {
        return Err(OutOfFuel);
      }
      var body := ParseExpression(fuel - 1);
      ghost var closing := (body, traveler.top);
      if body.Err? {
        return Err(body.error);
      }
      SkipWhitespace();
      r := Ok(Arm(params.value, Expr(body.value), traveler.Current().position));
      assert (r, traveler.top) == ArmClose(traveler.tokens, params.value, closing);
      assert (r, traveler.top) == ArmBody(traveler.tokens, read, fuel);
    }

    /** The parameter loop of `arm`: expressions separated by `,`, up to a `|`, which is left under the cursor. */
    method ParseParams(fuel: nat) returns (r: Result<seq<Expression>, Error>)
      requires Valid() && |traveler.tokens| > 0
      modifies traveler`top
      ensures Valid()
      ensures (r, traveler.top) == ParamsAt(traveler.tokens, old(traveler.top), fuel, fuel, [])
      decreases fuel, 0
    {
      var params: seq<Expression> := [];
      var budget: nat := fuel;
      while traveler.CurrentContent() != "|"
        invariant Valid() && budget <= fuel
        invariant ParamsAt(traveler.tokens, traveler.top, fuel, budget, params) == ParamsAt(traveler.tokens, old(traveler.top), fuel, fuel, [])
        decreases budget
      {
        if budget == 0 {
          return Err(OutOfFuel);
        }
        var p := ParseParam(fuel, budget, params);
        if p.Err? {
          return Err(p.error);
        }
        budget := budget - 1;
        params := params + [p.value];
      }
      return Ok(params);
    }

    /** One round of the parameter loop: a parameter, then a `,` unless a `|` follows it. */
    method ParseParam(fuel: nat, budget: nat, params: seq<Expression>) returns (p: Result<Expression, Error>)
      requires Valid() && |traveler.tokens| > 0 && 0 < budget <= fuel
      requires CurrentAt(traveler.tokens, traveler.top).content != "|"
      modifies traveler`top
      ensures Valid()
      ensures ParamsAt(traveler.tokens, old(traveler.top), fuel, budget, params) ==
        if p.Err? then (Err(p.error), traveler.top)
        else ParamsAt(traveler.tokens, traveler.top, fuel, budget - 1, params + [p.value])
      decreases fuel - 1
    {
      p := ParseExpression(fuel - 1);
      if p.Err? {
        return;
      }
      if traveler.CurrentContent() != "|" {
        var comma := traveler.ExpectContent(",");
        if comma.Err? {
          return Err(comma.error);
        }
        var _ := traveler.Next();
      }
    }

    /** `{ ... }`: arms (starting with `|`) and statements up to the `}`, which is consumed. */
    method ParseFunction(fuel: nat) returns (r: Result<Expression, Error>)
      requires Valid() && |traveler.tokens| > 0
      modifies traveler`top
      ensures Valid()
      ensures (r, traveler.top) == FunctionAt(traveler.tokens, old(traveler.top), fuel)
      decreases fuel, 3
    {
      var _ := traveler.Next();
      SkipWhitespace();
      var arms := ParseArms(fuel);
      ghost var read := (arms, traveler.top);
      if arms.Err? {
        return Err(arms.error);
      }
      // The loop ended on `}`, so the source's `expect_content("}")` here succeeds.
      var _ := traveler.Next();
      r := Ok(Function(Block(arms.value), traveler.Current().position));
      assert (r, traveler.top) == FunctionClose(traveler.tokens, read);
    }

    /** The loop of `function`: arms (each starting with `|`) and statements, up to a `}`, which is left under the cursor. */
    method ParseArms(fuel: nat) returns (r: Result<seq<Statement>, Error>)
      requires Valid() && |traveler.tokens| > 0
      modifies traveler`top
      ensures Valid()
      ensures (r, traveler.top) == ArmsAt(traveler.tokens, old(traveler.top), fuel, fuel, [])
      decreases fuel, 2
    {
      var arms: seq<Statement> := [];
      var budget: nat := fuel;
      while traveler.CurrentContent() != "}"
        invariant Valid() && budget <= fuel
        invariant ArmsAt(traveler.tokens, traveler.top, fuel, budget, arms) == ArmsAt(traveler.tokens, old(traveler.top), fuel, fuel, [])
        decreases budget
      {
        if budget == 0 {
          return Err(OutOfFuel);
        }
        budget := budget - 1;
        if traveler.CurrentContent() == "|" {
          var arm := ParseArm(fuel);
          if arm.Err? {
            return Err(arm.error);
          }
          arms := arms + [Expr(arm.value)];
        } else {
          SkipWhitespace();
          if traveler.CurrentContent() != "}" {
            var s := ParseStatement(fuel - 1);
            if s.Err? {
              return Err(s.error);
            }
            arms := arms + [s.value];
          }
        }
      }
      return Ok(arms);
    }

    /** One term: a literal, an identifier (bare, indexed or called), a parenthesised expression or a function. */
    method ParseTerm(fuel: nat) returns (r: Result<Expression, Error>)
      requires Valid() && |traveler.tokens| > 0
      modifies traveler`top
      ensures Valid()
      ensures (r, traveler.top) == TermAt(traveler.tokens, old(traveler.top), fuel)
      decreases fuel, 4
    {
      if traveler.Remaining() < 2 {
        return Ok(Expression.EOF);
      }
      var t := traveler.Current();
      if t.tokenType == IntLiteral || t.tokenType == FloatLiteral {
        r := Ok(Number(t.content));
        var _ := traveler.Next();
      } else if t.tokenType == BoolLiteral {
        r := Ok(Bool(t.content == "true"));
        var _ := traveler.Next();
      } else if t.tokenType == StringLiteral {
        r := Ok(Str(t.content));
        var _ := traveler.Next();
      } else if t.tokenType == CharLiteral {
        if t.content == [] {
          return Err(Error(EmptyCharLiteral, None));
        }
        r := Ok(Char(t.content[0]));
        var _ := traveler.Next();
      } else if t.tokenType == TokenType.Identifier {
        r := ParseNamed(fuel);
      } else if t.tokenType == Symbol {
        if t.content == "(" {
          r := ParseGroup(fuel);
        } else if t.content == "{" {
          r := ParseFunction(fuel);
        } else {
          r := Err(Error("unexpected symbol: " + t.content, Some(t.position)));
        }
      } else {
        r := Err(Error("unexpected: " + t.content, Some(t.position)));
      }
    }

    /** The identifier arm of `term`: bare before `,`, `)` or the end, indexed before `[`, otherwise a possible call. */
    method ParseNamed(fuel: nat) returns (r: Result<Expression, Error>)
      requires Valid() && traveler.top < |traveler.tokens|
      modifies traveler`top
      ensures Valid()
      ensures (r, traveler.top) == NamedAt(traveler.tokens, old(traveler.top), fuel)
      decreases fuel, 2
    {
      var t := traveler.Current();
      var a := Expression.Identifier(t.content, t.position);
      var _ := traveler.Next();
      if traveler.Remaining() > 1 {
        var c := traveler.CurrentContent();
        if c == "," || c == ")" {
          r := Ok(a);
        } else if c == "[" {
          r := ParseIndex(a, fuel);
        } else {
          r := TryCall(a, fuel);
        }
      } else {
        r := Ok(a);
      }
    }

    /** The `(` arm of `term`: an expression, a required `)`, then an index or a possible call. */
    method ParseGroup(fuel: nat) returns (r: Result<Expression, Error>)
      requires Valid() && traveler.top < |traveler.tokens|
      modifies traveler`top
      ensures Valid()
      ensures (r, traveler.top) == GroupAt(traveler.tokens, old(traveler.top), fuel)
      decreases fuel, 3
    {
      var _ := traveler.Next();
      if fuel == 0 {
        return Err(OutOfFuel);
      }
      var a := ParseExpression(fuel - 1);
      r := CloseGroup(a, fuel);
    }

    /** The rest of a parenthesised term, once the expression `a` inside it is read. */
    method CloseGroup(a: Result<Expression, Error>, fuel: nat) returns (r: Result<Expression, Error>)
      requires Valid() && |traveler.tokens| > 0
      modifies traveler`top
      ensures Valid()
      ensures (r, traveler.top) == GroupClose(traveler.tokens, (a, old(traveler.top)), fuel)
      decreases fuel, 2
    {
      if a.Err? {
        return a;
      }
      SkipWhitespace();
      var close := traveler.ExpectContent(")");
      if close.Err? {
        return Err(close.error);
      }
      var _ := traveler.Next();
      if traveler.CurrentContent() == "[" {
        r := ParseIndex(a.value, fuel);
      } else if traveler.Remaining() > 1 {
        r := TryCall(a.value, fuel);
      } else {
        r := a;
      }
    }

    /** The `=` is under the cursor: a `\n` after it is an error, anything else is the right-hand side. */
    method ParseAssignment(left: Expression, fuel: nat) returns (r: Result<Statement, Error>)
      requires Valid() && |traveler.tokens| > 0
      modifies traveler`top
      ensures Valid()
      ensures (r, traveler.top) == AssignmentAt(traveler.tokens, old(traveler.top), left, fuel)
      decreases fuel, 8
    {
      var _ := traveler.Next();
      if traveler.CurrentContent() == "\n" {
        return Err(Error(ExpectedExpression, Some(traveler.Current().position)));
      }
      var right := ParseExpression(fuel);
      ghost var read := (right, traveler.top);
      if right.Err? {
        return Err(right.error);
      }
      r := Ok(Assignment(left, right.value, traveler.Current().position));
      assert (r, traveler.top) == AssignmentClose(traveler.tokens, left, read);
    }

    /** One statement, after layout: an assignment when an identifier is followed by `=`, an expression otherwise. */
    method ParseStatement(fuel: nat) returns (r: Result<Statement, Error>)
      requires Valid() && |traveler.tokens| > 0
      modifies traveler`top
      ensures Valid()
      ensures (r, traveler.top) == StatementAt(traveler.tokens, old(traveler.top), fuel)
      decreases fuel, 9
    {
      SkipWhitespace();
      var t := traveler.Current();
      if t.tokenType == Symbol && t.content == "\n" {
        var _ := traveler.Next();
        if fuel == 0 {
          return Err(OutOfFuel);
        }
        r := ParseStatement(fuel - 1);
      } else if t.tokenType == TokenType.Identifier {
        var a := Expression.Identifier(t.content, t.position);
        var _ := traveler.Next();
        if traveler.CurrentContent() == "=" {
          r := ParseAssignment(a, fuel);
        } else {
          var _ := traveler.Prev();
          r := ParseExpressionStatement(fuel);
        }
      } else {
        r := ParseExpressionStatement(fuel);
      }
    }

    /** A statement that is an expression alone. */
    method ParseExpressionStatement(fuel: nat) returns (r: Result<Statement, Error>)
      requires Valid() && |traveler.tokens| > 0
      modifies traveler`top
      ensures Valid()
      ensures (r, traveler.top) == AsStatement(ExpressionAt(traveler.tokens, old(traveler.top), fuel))
      decreases fuel, 8
    {
      var e := ParseExpression(fuel);
      if e.Err? {
        return Err(e.error);
      }
      r := Ok(Expr(e.value));
    }

    /**
     * Arguments of a call: the first by juxtaposition, each further one after
     * a `,`. Each `break` of the source is written as the `return` that
     * follows its loop.
     */
    method ParseCall(caller: Expression, fuel: nat) returns (r: Result<Expression, Error>)
      requires Valid() && |traveler.tokens| > 0
      modifies traveler`top
      ensures Valid()
      ensures (r, traveler.top) == ArgsAt(traveler.tokens, old(traveler.top), caller, fuel, fuel, [])
      decreases fuel, 0
    {
      var args: seq<Expression> := [];
      var acc := 0;
      var budget: nat := fuel;
      while traveler.CurrentContent() != "\n"
        invariant Valid() && budget <= fuel && acc == |args|
        invariant ArgsAt(traveler.tokens, traveler.top, caller, fuel, budget, args)
          == ArgsAt(traveler.tokens, old(traveler.top), caller, fuel, fuel, [])
        decreases budget
      {
        if budget == 0 {
          return Err(OutOfFuel);
        }
        if traveler.CurrentContent() == "," || acc == 0 {
          var e := ParseArgument(caller, fuel, budget, args);
          budget := budget - 1;
          if e.Err? {
            return Err(e.error);
          }
          if e.value.EOF? {
            return Ok(Call(caller, args, traveler.Current().position));
          }
          args := args + [e.value];
        } else {
          var _ := traveler.Prev();
          var c := traveler.CurrentContent();
          // As in the source this holds for every text, so the cursor always moves back on.
          if c != "!" || c != "," {
            var _ := traveler.Next();
          }
          return Ok(Call(caller, args, traveler.Current().position));
        }
        acc := acc + 1;
      }
      return Ok(Call(caller, args, traveler.Current().position));
    }

    /** One round of the call loop that reads an argument, after the `,` when there is one. */
    method ParseArgument(caller: Expression, fuel: nat, budget: nat, args: seq<Expression>) returns (e: Result<Expression, Error>)
      requires Valid() && |traveler.tokens| > 0 && 0 < budget <= fuel
      requires CurrentAt(traveler.tokens, traveler.top).content != "\n"
      requires CurrentAt(traveler.tokens, traveler.top).content == "," || |args| == 0
      modifies traveler`top
      ensures Valid()
      ensures ArgsAt(traveler.tokens, old(traveler.top), caller, fuel, budget, args) ==
        if e.Err? then (Err(e.error), traveler.top)
        else if e.value.EOF? then (Ok(Call(caller, args, CurrentAt(traveler.tokens, traveler.top).position)), traveler.top)
        else ArgsAt(traveler.tokens, traveler.top, caller, fuel, budget - 1, args + [e.value])
      decreases fuel - 1
    {
      ghost var start := ArgumentStart(traveler.tokens, traveler.top);
      if traveler.CurrentContent() == "," {
        var _ := traveler.Next();
      }
      assert traveler.top == start;
      e := ParseExpression(fuel - 1);
      ArgsRound(traveler.tokens, old(traveler.top), caller, fuel, budget, args, (e, traveler.top));
    }

    /**
     * The two-stack operation loop. The operator under the cursor and the
     * term after it start the loop with two expressions and one pending
     * operator; each round then reads an operator and a term and folds.
     */
    method ParseOperation(first: Expression, fuel: nat) returns (r: Result<Expression, Error>)
      requires Valid() && |traveler.tokens| > 0
      modifies traveler`top
      ensures Valid()
      ensures (r, traveler.top) == OperationAt(traveler.tokens, old(traveler.top), first, fuel)
      decreases fuel, 6
    {
      var exStack: seq<Expression> := [first];
      var opStack: seq<(Operand, nat)> := [];
      var head := FromStr(traveler.CurrentContent());
      if head.None? {
        return Err(Error(UnwrapNone, None));
      }
      opStack := opStack + [head.value];
      var _ := traveler.Next();
      if traveler.CurrentContent() == "\n" {
        var _ := traveler.Next();
      }
      var term := ParseTerm(fuel);
      if term.Err? {
        return Err(term.error);
      }
      exStack := exStack + [term.value];
      r := FoldRounds(exStack, opStack, fuel);
    }

    /**
     * The `while` loop of `operation`, from the stacks its first operator
     * and term leave: two expressions and the operator pending between them.
     */
    method FoldRounds(exStart: seq<Expression>, opStart: seq<(Operand, nat)>, fuel: nat) returns (r: Result<Expression, Error>)
      requires Valid() && |traveler.tokens| > 0
      requires |exStart| == 2 && |opStart| == 1
      modifies traveler`top
      ensures Valid()
      ensures (r, traveler.top) == FoldAt(traveler.tokens, old(traveler.top), fuel, fuel, Pending(exStart[0], opStart[0].0, opStart[0].1, exStart[1]))
      decreases fuel, 5
    {
      var exStack, opStack := exStart, opStart;
      var done := false;
      var budget: nat := fuel;
      ghost var pending := Pending(exStart[0], opStart[0].0, opStart[0].1, exStart[1]);
      ghost var goal := FoldAt(traveler.tokens, traveler.top, fuel, fuel, pending);
      while |exStack| > 1
        invariant Valid() && budget <= fuel
        invariant |exStack| == 1 || |exStack| == 2
        invariant |exStack| == 2 ==>
          && exStack == [pending.left, pending.right] && opStack == [(pending.op, pending.prec)]
          && FoldAt(traveler.tokens, traveler.top, fuel, budget, pending) == goal
        invariant |exStack| == 2 && done ==> traveler.Current().tokenType != Operator
        invariant |exStack| == 1 ==> (Ok(exStack[0]), traveler.top) == goal
        decreases budget, if done then 0 else 1, |exStack|
      {
        if !done {
          if traveler.Current().tokenType != Operator {
            done := true;
            continue;
          }
          var next := FromStr(traveler.CurrentContent());
          if next.None? {
            return Err(Error(UnwrapNone, None));
          }
          var (op, precedence) := next.value;
          ghost var top0, budget0 := traveler.top, budget;
          var _ := traveler.Next();
          if budget == 0 {
            return Err(OutOfFuel);
          }
          budget := budget - 1;
          if precedence >= opStack[|opStack| - 1].1 {
            ghost var pos := traveler.Current().position;
            var left, right := exStack[|exStack| - 1], exStack[|exStack| - 2];
            exStack := exStack[..|exStack| - 2];
            exStack := exStack + [Operation(right, opStack[|opStack| - 1].0, left, traveler.Current().position)];
            opStack := opStack[..|opStack| - 1];
            var term := ParseTerm(fuel);
            if term.Err? {
              return Err(term.error);
            }
            exStack := exStack + [term.value];
            opStack := opStack + [(op, precedence)];
            pending := Shift(pending, Step(op, precedence, term.value, pos));
            continue;
          }
          var term := ParseTerm(fuel);
          if term.Err? {
            return Err(term.error);
          }
          exStack := exStack + [term.value];
          opStack := opStack + [(op, precedence)];
          pending := Shift(pending, Step(op, precedence, term.value, traveler.Current().position));
        }
        var left, right := exStack[|exStack| - 1], exStack[|exStack| - 2];
        exStack := exStack[..|exStack| - 2];
        exStack := exStack + [Operation(right, opStack[|opStack| - 1].0, left, traveler.Current().position)];
        opStack := opStack[..|opStack| - 1];
      }
      return Ok(exStack[0]);
    }
  }

  /** Parses a token list from its first token. */
  method Parse(tokens: seq<Token>, fuel: nat) returns (r: Result<seq<Statement>, Error>)
    ensures r == ProgramAt(tokens, fuel).0
    ensures tokens == [] ==> r == Ok([])
  {
    var traveler := new Traveler(tokens);
    var parser := new Parser(traveler);
    r := parser.Parse(fuel);
  }
}
