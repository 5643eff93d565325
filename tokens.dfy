/**
 * Tokens of the lexer (lexer/token.rs): their kinds, positions and the
 * kind-only equality the parser relies on; plus the error value every stage
 * returns, a message with an optional position.
 */
module Tokens {
  import opened Wrappers
  import opened Chars

  datatype TokenType =
    | IntLiteral | FloatLiteral | StringLiteral | CharLiteral | BoolLiteral
    | Symbol | Operator | Identifier | Type | Keyword
    | Whitespace | Indent | EOL | EOF

  /** `TokenPosition::new(line, col)` is the constructor itself. */
  datatype TokenPosition = TokenPosition(line: nat, col: nat)

  /** `Token::new` is the constructor and `content()` is the field. */
  datatype Token = Token(tokenType: TokenType, position: TokenPosition, content: string)

  datatype Error = Error(message: string, position: Option<TokenPosition>)

  /** The panic of `Option::unwrap` on `None`, which the lexer and the parser can reach. */
  const UnwrapNone := "called `Option::unwrap()` on a `None` value"

  /** The panic of `unreachable!()`, which the checker and the transpiler can reach. */
  const Unreachable := Error("internal error: entered unreachable code", None)

  /** Where a fresh tokenizer starts: line 1, column 0. */
  function DefaultPosition(): TokenPosition {
    TokenPosition(1, 0)
  }

  /** `Display` of a position: `[line, col]`. */
  function DisplayPosition(p: TokenPosition): string {
    "[" + NatToString(p.line) + ", " + NatToString(p.col) + "]"
  }

  /** Reads back the text `DisplayPosition` prints; None for anything else. */
  function ParsePosition(s: string): Option<TokenPosition> {
    if |s| == 0 || s[0] != '[' then None
    else
      var e1 := RunEnd(s, 1, IsDigit);
      if e1 == 1 || e1 + 2 > |s| || s[e1..e1 + 2] != ", " then None
      else
        var e2 := RunEnd(s, e1 + 2, IsDigit);
        if e2 == e1 + 2 || s[e2..] != "]" then None
        else Some(TokenPosition(DigitsValue(s[1..e1]), DigitsValue(s[e1 + 2..e2])))
  }

  lemma DefaultPositionDisplay()
    ensures DisplayPosition(DefaultPosition()) == "[1, 0]"
  {
  }

  /** Every displayed position reads back as itself. */
  lemma DisplayPositionRoundTrip(p: TokenPosition)
    ensures ParsePosition(DisplayPosition(p)) == Some(p)
  {
    var l, c := NatToString(p.line), NatToString(p.col);
    var s := DisplayPosition(p);
    var e1, e2 := 1 + |l|, 3 + |l| + |c|;
    assert s[1..e1] == l && s[e1..e1 + 2] == ", " && s[e1 + 2..e2] == c && s[e2..] == "]";
    RunEndUnique(s, 1, e1, IsDigit);
    RunEndUnique(s, e1 + 2, e2, IsDigit);
    DigitsValueOfNatToString(p.line);
    DigitsValueOfNatToString(p.col);
  }

  /** Token equality (`PartialEq for Token`) compares kinds only. */
  predicate SameToken(a: Token, b: Token) {
    a.tokenType == b.tokenType
  }

  /** Two tokens are equal exactly when their kinds are, whatever their positions and contents. */
  lemma SameTokenIgnoresPositionAndContent(t1: TokenType, t2: TokenType, p1: TokenPosition, p2: TokenPosition, c1: string, c2: string)
    ensures SameToken(Token(t1, p1, c1), Token(t2, p2, c2)) <==> t1 == t2
  {
  }
}
