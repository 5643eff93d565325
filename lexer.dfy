/**
 * The lexer (lexer/lexer.rs): a tokenizer plus an ordered list of
 * recognisers. Each step tries the recognisers in order and keeps the first
 * token found; the token stream drops whitespace tokens and ends at EOF or
 * where no recogniser matches.
 *
 * The pure functions `Attempts` and `FirstFound`, `NextToken` and `Tokenize`
 * describe one attempt, one step of the token stream and the whole stream in
 * terms of the source text and an index; the `Lexer` methods are proved against them.
 */
module Lexers {
  import opened Wrappers
  import opened Chars
  import opened Tokens
  import opened Tokenizers
  import opened Matchers

  const Eol: seq<string> := ["\n"]

  /** The symbol list; `!` appears twice, as in the source. */
  const Symbols: seq<string> := ["(", ")", "[", "]", ",", ":", ";", "{", "}", "!", "|", "=", "!"]

  /** The operator list; `/` appears twice, as in the source. */
  const Operators: seq<string> :=
    ["++", "+", "-", "*", "/", "/", "%", "^", ">=", "<=", "==", "~=", ".", "<|", "|>", ">", "<"]

  const Indents: seq<string> := ["  ", "\t"]

  const Booleans: seq<string> := ["true", "false"]

  /** The recognisers `lexer()` installs, in the order it pushes them. */
  function StandardMatchers(): (ms: seq<Matcher>)
    ensures AllWellFormed(ms)
  {
    [ ConstantMatcher(EOL, Eol),
      ConstantMatcher(Indent, Indents),
      WhitespaceMatcher,
      ConstantMatcher(Operator, Operators),
      ConstantMatcher(Symbol, Symbols),
      FloatLiteralMatcher,
      IntLiteralMatcher,
      StringLiteralMatcher,
      KeyMatcher(BoolLiteral, Booleans),
      IdentifierMatcher ]
  }

  predicate AllWellFormed(ms: seq<Matcher>) {
    forall k :: 0 <= k < |ms| ==> WellFormed(ms[k])
  }

  /** The standard list, entry by entry. */
  lemma StandardEntries()
    ensures var ms := StandardMatchers();
      && |ms| == 10
      && ms[0] == ConstantMatcher(EOL, Eol) && ms[1] == ConstantMatcher(Indent, Indents)
      && ms[2] == WhitespaceMatcher && ms[3] == ConstantMatcher(Operator, Operators)
      && ms[4] == ConstantMatcher(Symbol, Symbols) && ms[5] == FloatLiteralMatcher
      && ms[6] == IntLiteralMatcher && ms[7] == StringLiteralMatcher
      && ms[8] == KeyMatcher(BoolLiteral, Booleans) && ms[9] == IdentifierMatcher
  {
  }

  /** What each recogniser of the list finds at index `i` of the text. */
  function Attempts(ms: seq<Matcher>, s: string, i: nat): (r: seq<Scan>)
    requires i <= |s|
    ensures |r| == |ms| && forall k :: 0 <= k < |ms| ==> r[k] == ScanWith(ms[k], s, i)
  {
    seq(|ms|, k requires 0 <= k < |ms| => ScanWith(ms[k], s, i))
  }

  /** The first outcome from position `k` on that is not NotFound; NotFound if there is none. */
  function FirstFound(scans: seq<Scan>, k: nat): Scan
    requires k <= |scans|
    decreases |scans| - k
  {
    if k == |scans| then NotFound
    else if scans[k].NotFound? then FirstFound(scans, k + 1)
    else scans[k]
  }

  /**
   * One step of the token stream from index `i` (`Iterator::next`): the
   * outcome (a token, the end of the stream, or a fatal error) and the index
   * the tokenizer is left at. EOF-typed tokens end the stream; whitespace
   * tokens are skipped.
   */
  function NextToken(ms: seq<Matcher>, s: string, i: nat): (r: (Result<Option<Token>, string>, nat))
    requires i <= |s| && AllWellFormed(ms)
    ensures i <= r.1 <= |s|
    ensures r.0.Ok? && r.0.value.Some? ==> i < r.1
    decreases |s| - i
  {
    if ms == [] || i == |s| then (Ok(None), i)
    else
      FirstScanProgress(ms, s, i);
      match FirstFound(Attempts(ms, s, i), 0)
      case NotFound => (Ok(None), i)
      case Fatal(m) => (Err(m), i)
      case Found(tt, content, e) =>
        if tt == EOF then (Ok(None), e)
        else if tt == Whitespace then NextToken(ms, s, e)
        else (Ok(Some(Token(tt, PositionIn(s, i), content))), e)
  }

  /** The whole token stream from index `i`, as `collect()` gathers it; a fatal error aborts it. */
  function Tokenize(ms: seq<Matcher>, s: string, i: nat): Result<seq<Token>, string>
    requires i <= |s| && AllWellFormed(ms)
    decreases |s| - i
  {
    var (r, e) := NextToken(ms, s, i);
    match r
    case Err(m) => Err(m)
    case Ok(None) => Ok([])
    case Ok(Some(tok)) =>
      match Tokenize(ms, s, e)
      case Err(m) => Err(m)
      case Ok(rest) => Ok([tok] + rest)
  }

  /** `ts` in front of the tokens of a stream, or its error. */
  function Prepend(ts: seq<Token>, r: Result<seq<Token>, string>): Result<seq<Token>, string> {
    match r
    case Err(m) => Err(m)
    case Ok(rest) => Ok(ts + rest)
  }

  lemma PrependTwice(a: seq<Token>, b: seq<Token>, r: Result<seq<Token>, string>)
    ensures Prepend(a, Prepend(b, r)) == Prepend(a + b, r)
  {
    if r.Ok? {
      assert a + (b + r.value) == (a + b) + r.value;
    }
  }

  /** The stream from `i` is the step at `i` followed by the stream after it. */
  lemma TokenizeStep(ms: seq<Matcher>, s: string, i: nat)
    requires i <= |s| && AllWellFormed(ms)
    ensures NextToken(ms, s, i).0 == Ok(None) ==> Tokenize(ms, s, i) == Ok([])
    ensures NextToken(ms, s, i).0.Err? ==> Tokenize(ms, s, i) == Err(NextToken(ms, s, i).0.error)
    ensures NextToken(ms, s, i).0.Ok? && NextToken(ms, s, i).0.value.Some? ==>
      Tokenize(ms, s, i) == Prepend([NextToken(ms, s, i).0.value.value], Tokenize(ms, s, NextToken(ms, s, i).1))
  {
  }

  /** A found lexeme is non-empty and inside the text. */
  lemma FirstScanProgress(ms: seq<Matcher>, s: string, i: nat)
    requires i < |s| && AllWellFormed(ms)
    ensures FirstFound(Attempts(ms, s, i), 0).Found? ==> i < FirstFound(Attempts(ms, s, i), 0).end <= |s|
  {
    var scans := Attempts(ms, s, i);
    FirstFoundIsFirst(scans, 0);
    if scans != [] && !FirstFound(scans, 0).NotFound? {
      var j :| 0 <= j < |scans| && scans[j] == FirstFound(scans, 0);
      ScanProgress(ms[j], s, i);
    }
  }

  class Lexer {
    const tokenizer: Tokenizer
    var matchers: seq<Matcher>

    ghost predicate Valid()
      reads this, tokenizer
    {
      tokenizer.Valid() && AllWellFormed(matchers)
    }

    /** `Lexer::new`: the tokenizer and no recognisers yet. */
    constructor (t: Tokenizer)
      ensures tokenizer == t && matchers == []
    {
      tokenizer := t;
      matchers := [];
    }

    /** `matchers_mut().push(..)`. */
    method AddMatcher(m: Matcher)
      modifies this`matchers
      ensures matchers == old(matchers) + [m]
    {
      matchers := matchers + [m];
    }

    /**
     * `match_token`: tries the recognisers in order and returns the first
     * token; at the end of the text that is the EOF token of the first one.
     * When nothing matches, the tokenizer is where it was.
     */
    method MatchToken() returns (r: MatchResult)
      requires Valid()
      modifies tokenizer
      ensures Valid()
      ensures old(tokenizer.index) == |tokenizer.items| && matchers != [] ==>
        r == Matched(Token(EOF, TokenPosition(old(tokenizer.index), old(tokenizer.index)), "")) && tokenizer.index == old(tokenizer.index)
      ensures old(tokenizer.index) < |tokenizer.items| ==>
        r == ToMatch(FirstFound(Attempts(matchers, tokenizer.items, old(tokenizer.index)), 0), PositionIn(tokenizer.items, old(tokenizer.index)))
      ensures old(tokenizer.index) < |tokenizer.items| && r.Matched? ==>
        tokenizer.index == FirstFound(Attempts(matchers, tokenizer.items, old(tokenizer.index)), 0).end
      ensures r.NoMatch? ==> tokenizer.index == old(tokenizer.index)
      ensures matchers == [] ==> r == NoMatch
    {
      ghost var i0 := tokenizer.index;
      for k := 0 to |matchers|
        invariant Valid() && tokenizer.index == i0
        invariant k > 0 ==> i0 < |tokenizer.items|
        invariant i0 < |tokenizer.items| ==>
          FirstFound(Attempts(matchers, tokenizer.items, i0), k) == FirstFound(Attempts(matchers, tokenizer.items, i0), 0)
      {
        var m := TryMatchToken(tokenizer, matchers[k]);
        if !m.NoMatch? {
          return m;
        }
      }
      return NoMatch;
    }

    /**
     * `Iterator::next`: the next token that is not whitespace; None at EOF
     * or where nothing matches; Err where a recogniser panics.
     */
    method Next() returns (r: Result<Option<Token>, string>)
      requires Valid()
      modifies tokenizer
      ensures Valid()
      ensures r == NextToken(matchers, tokenizer.items, old(tokenizer.index)).0
      ensures r.Ok? ==> tokenizer.index == NextToken(matchers, tokenizer.items, old(tokenizer.index)).1
      decreases |tokenizer.items| - tokenizer.index
    {
      ghost var i0 := tokenizer.index;
      var m := MatchToken();
      match m
      case NoMatch =>
        r := Ok(None);
      case Panic(message) =>
        r := Err(message);
      case Matched(token) =>
        if token.tokenType == EOF {
          r := Ok(None);
        } else if token.tokenType == Whitespace {
          FirstScanProgress(matchers, tokenizer.items, i0);
          r := Next();
        } else {
          r := Ok(Some(token));
        }
    }

    /** `collect()` over the iterator: every token up to the end of the stream. */
    method Collect() returns (r: Result<seq<Token>, string>)
      requires Valid()
      modifies tokenizer
      ensures r == Tokenize(matchers, tokenizer.items, old(tokenizer.index))
    {
      ghost var i0 := tokenizer.index;
      var tokens: seq<Token> := [];
      assert Tokenize(matchers, tokenizer.items, i0) == Prepend(tokens, Tokenize(matchers, tokenizer.items, i0)) by {
        if Tokenize(matchers, tokenizer.items, i0).Ok? {
          assert tokens + Tokenize(matchers, tokenizer.items, i0).value == Tokenize(matchers, tokenizer.items, i0).value;
        }
      }
      while true
        invariant Valid()
        invariant Tokenize(matchers, tokenizer.items, i0) == Prepend(tokens, Tokenize(matchers, tokenizer.items, tokenizer.index))
        decreases |tokenizer.items| - tokenizer.index
      {
        ghost var before := tokenizer.index;
        var next := Next();
        match next
        case Err(m) =>
          return Err(m);
        case Ok(None) =>
          TokenizeStep(matchers, tokenizer.items, before);
          assert tokens + [] == tokens;
          return Ok(tokens);
        case Ok(Some(token)) =>
          TokenizeStep(matchers, tokenizer.items, before);
          PrependTwice(tokens, [token], Tokenize(matchers, tokenizer.items, tokenizer.index));
          tokens := tokens + [token];
      }
    }
  }

  /** `lexer(data)`: a lexer over the text with the standard recognisers installed. */
  method NewLexer(data: string) returns (l: Lexer)
    ensures fresh(l) && fresh(l.tokenizer) && l.Valid()
    ensures l.tokenizer.items == data && l.tokenizer.index == 0
    ensures l.matchers == StandardMatchers()
  {
    var t := new Tokenizer(data);
    l := new Lexer(t);
    l.AddMatcher(ConstantMatcher(EOL, Eol));
    l.AddMatcher(ConstantMatcher(Indent, Indents));
    l.AddMatcher(WhitespaceMatcher);
    l.AddMatcher(ConstantMatcher(Operator, Operators));
    l.AddMatcher(ConstantMatcher(Symbol, Symbols));
    l.AddMatcher(FloatLiteralMatcher);
    l.AddMatcher(IntLiteralMatcher);
    l.AddMatcher(StringLiteralMatcher);
    l.AddMatcher(KeyMatcher(BoolLiteral, Booleans));
    l.AddMatcher(IdentifierMatcher);
    assert l.matchers == StandardMatchers();
  }

  /** Lexing a whole text: `lexer(data).collect()`. */
  method Lex(data: string) returns (r: Result<seq<Token>, string>)
    ensures r == Tokenize(StandardMatchers(), data, 0)
  {
    var l := NewLexer(data);
    r := l.Collect();
  }

  /* ---------------------------------------------------------------- */
  /* Properties of the token stream                                    */
  /* ---------------------------------------------------------------- */

  /**
   * `match_token` returns the first success: nothing is found exactly when
   * every attempt from `k` on comes back empty-handed, and otherwise the
   * outcome is that of some attempt all of whose predecessors found nothing.
   */
  lemma {:induction false} FirstFoundIsFirst(scans: seq<Scan>, k: nat)
    requires k <= |scans|
    ensures FirstFound(scans, k).NotFound? <==> forall j :: k <= j < |scans| ==> scans[j].NotFound?
    ensures !FirstFound(scans, k).NotFound? ==>
      exists j :: k <= j < |scans| && scans[j] == FirstFound(scans, k)
        && forall l :: k <= l < j ==> scans[l].NotFound?
    decreases |scans| - k
  {
    if k < |scans| {
      FirstFoundIsFirst(scans, k + 1);
      if scans[k].NotFound? && !FirstFound(scans, k).NotFound? {
        var j :| k + 1 <= j < |scans| && scans[j] == FirstFound(scans, k + 1)
          && forall l :: k + 1 <= l < j ==> scans[l].NotFound?;
        assert forall l :: k <= l < j ==> scans[l].NotFound?;
      }
    }
  }

  /** A step of the stream never yields a whitespace or an EOF token. */
  lemma {:induction false} NextTokenNotWhitespace(ms: seq<Matcher>, s: string, i: nat)
    requires i <= |s| && AllWellFormed(ms)
    ensures NextToken(ms, s, i).0.Ok? && NextToken(ms, s, i).0.value.Some? ==>
      NextToken(ms, s, i).0.value.value.tokenType !in {Whitespace, EOF}
    decreases |s| - i
  {
    if ms != [] && i < |s| {
      FirstScanProgress(ms, s, i);
      var sc := FirstFound(Attempts(ms, s, i), 0);
      if sc.Found? && sc.tokenType == Whitespace {
        NextTokenNotWhitespace(ms, s, sc.end);
      }
    }
  }

  /** The collected stream holds no whitespace and no EOF token. */
  lemma {:induction false} TokenizeNotWhitespace(ms: seq<Matcher>, s: string, i: nat)
    requires i <= |s| && AllWellFormed(ms)
    ensures Tokenize(ms, s, i).Ok? ==>
      forall k :: 0 <= k < |Tokenize(ms, s, i).value| ==> Tokenize(ms, s, i).value[k].tokenType !in {Whitespace, EOF}
    decreases |s| - i
  {
    TokenizeStep(ms, s, i);
    NextTokenNotWhitespace(ms, s, i);
    var (r, e) := NextToken(ms, s, i);
    if r.Ok? && r.value.Some? {
      TokenizeNotWhitespace(ms, s, e);
    }
  }

  /* ---------------------------------------------------------------- */
  /* The standard recogniser list                                      */
  /* ---------------------------------------------------------------- */

  /** Before a character that is not whitespace the first three recognisers find nothing. */
  lemma PastLayout(s: string, i: nat)
    requires i < |s| && !IsWhitespace(s[i])
    ensures FirstFound(Attempts(StandardMatchers(), s, i), 0) == FirstFound(Attempts(StandardMatchers(), s, i), 3)
  {
    var scans, rest := Attempts(StandardMatchers(), s, i), s[i..];
    assert rest[0] == s[i];
    assert FirstCandidate(rest, Eol, 0) == 1;
    assert FirstCandidate(rest, Indents, 0) == FirstCandidate(rest, Indents, 1) == 2;
    assert scans[0] == NotFound && scans[1] == NotFound && scans[2] == NotFound;
    assert FirstFound(scans, 0) == FirstFound(scans, 1) == FirstFound(scans, 2) == FirstFound(scans, 3);
  }

  /**
   * The operator recogniser runs before the numeric ones, so a `-` or a
   * lone `+` at the start of a token is always an operator: `-3` is the
   * operator `-` followed by the literal `3`.
   */
  lemma SignIsOperator(s: string, i: nat)
    requires i < |s| && (s[i] == '-' || (s[i] == '+' && (i + 1 == |s| || s[i + 1] != '+')))
    ensures FirstFound(Attempts(StandardMatchers(), s, i), 0) == Found(Operator, [s[i]], i + 1)
  {
    var scans, rest := Attempts(StandardMatchers(), s, i), s[i..];
    PastLayout(s, i);
    assert rest[0] == s[i] && (i + 1 == |s| || rest[1] == s[i + 1]);
    assert [s[i]] <= rest;
    assert FirstCandidate(rest, Operators, 0) == FirstCandidate(rest, Operators, 1);
    if s[i] == '-' {
      assert FirstCandidate(rest, Operators, 1) == FirstCandidate(rest, Operators, 2) == 2;
    }
    assert scans[3] == Found(Operator, [s[i]], i + 1);
  }

  /** The first characters of the operators, and of the symbols. */
  const OperatorHeads: set<char> := {'+', '-', '*', '/', '%', '^', '>', '<', '=', '~', '.', '|'}
  const SymbolHeads: set<char> := {'(', ')', '[', ']', ',', ':', ';', '{', '}', '!', '|', '='}

  /** Candidates whose first characters all lie in `heads` are skipped by a text that starts outside it. */
  lemma {:induction false} SkipByHead(rest: string, cands: seq<string>, heads: set<char>, j: nat, k: nat)
    requires j <= k <= |cands| && |rest| > 0 && rest[0] !in heads
    requires forall l :: j <= l < k ==> |cands[l]| > 0 && cands[l][0] in heads
    ensures FirstCandidate(rest, cands, j) == FirstCandidate(rest, cands, k)
    decreases k - j
  {
    if j < k {
      assert cands[j][0] != rest[0];
      SkipByHead(rest, cands, heads, j + 1, k);
    }
  }

  /** The operator list: twelve operators other than `.`, then `.` itself, and every one starts with an operator head. */
  lemma OperatorsStart()
    ensures |Operators| == 17 && Operators[12] == "."
    ensures forall l :: 0 <= l < 12 ==> |Operators[l]| > 0 && Operators[l][0] in OperatorHeads - {'.', '|'}
    ensures forall l :: 0 <= l < 17 ==> |Operators[l]| > 0 && Operators[l][0] in OperatorHeads
  {
  }

  lemma SymbolsStart()
    ensures |Symbols| == 13
    ensures forall l :: 0 <= l < 13 ==> |Symbols[l]| == 1 && Symbols[l][0] in SymbolHeads
  {
  }

  /** A `.` at the start of a token is the operator `.`, so `.5` is `.` and then `5`. */
  lemma PointIsOperator(s: string, i: nat)
    requires i < |s| && s[i] == '.'
    ensures FirstFound(Attempts(StandardMatchers(), s, i), 0) == Found(Operator, ".", i + 1)
  {
    var scans, rest := Attempts(StandardMatchers(), s, i), s[i..];
    PastLayout(s, i);
    assert rest[0] == '.';
    OperatorsStart();
    SkipByHead(rest, Operators, OperatorHeads - {'.', '|'}, 0, 12);
    assert Operators[12] <= rest;
    assert scans[3] == Found(Operator, ".", i + 1);
  }

  /** Only texts starting with one of these characters can begin an operator. */
  lemma NoOperatorStart(rest: string)
    requires |rest| > 0 && rest[0] !in OperatorHeads
    ensures FirstCandidate(rest, Operators, 0) == |Operators|
  {
    OperatorsStart();
    SkipByHead(rest, Operators, OperatorHeads, 0, 17);
  }

  /** Only texts starting with one of these characters can begin a symbol. */
  lemma NoSymbolStart(rest: string)
    requires |rest| > 0 && rest[0] !in SymbolHeads
    ensures FirstCandidate(rest, Symbols, 0) == |Symbols|
  {
    SymbolsStart();
    SkipByHead(rest, Symbols, SymbolHeads, 0, 13);
  }

  lemma DigitStartsNoConstant(c: char)
    requires IsDigit(c)
    ensures c !in OperatorHeads && c !in SymbolHeads
  {
  }

  /**
   * A token that starts with a digit is read by the float recogniser, which
   * also produces int literals; the int recogniser only gets it when the
   * float recogniser declines the text `0.` (as in `0.x`).
   */
  lemma DigitGoesToNumbers(s: string, i: nat)
    requires i < |s| && IsDigit(s[i])
    ensures FirstFound(Attempts(StandardMatchers(), s, i), 0) == if ScanFloat(s, i).NotFound? then ScanInt(s, i) else ScanFloat(s, i)
  {
    var scans, rest := Attempts(StandardMatchers(), s, i), s[i..];
    PastLayout(s, i);
    StandardEntries();
    assert rest[0] == s[i];
    DigitStartsNoConstant(s[i]);
    NoOperatorStart(rest);
    NoSymbolStart(rest);
    assert scans[3] == NotFound && scans[4] == NotFound;
    assert FirstFound(scans, 3) == FirstFound(scans, 4) == FirstFound(scans, 5);
    if scans[5].NotFound? {
      assert FirstFound(scans, 5) == FirstFound(scans, 6);
      assert RunEnd(s, i, IsDigit) > i;
    }
  }

  /** Where the first recogniser that finds something finds a token, that token is the next one. */
  lemma NextTokenFound(ms: seq<Matcher>, s: string, i: nat, tt: TokenType, content: string, e: nat)
    requires i < |s| && AllWellFormed(ms) && ms != []
    requires FirstFound(Attempts(ms, s, i), 0) == Found(tt, content, e) && tt !in {EOF, Whitespace}
    ensures NextToken(ms, s, i) == (Ok(Some(Token(tt, PositionIn(s, i), content))), e)
  {
  }

  /** Where no recogniser finds anything the stream ends there, without an error. */
  lemma NextTokenNotFound(ms: seq<Matcher>, s: string, i: nat)
    requires i <= |s| && AllWellFormed(ms)
    requires FirstFound(Attempts(ms, s, i), 0) == NotFound
    ensures NextToken(ms, s, i) == (Ok(None), i)
  {
  }

  /** A newline is an EOL token (the first recogniser), never skipped as whitespace. */
  lemma NewlineIsEol(s: string, i: nat)
    requires i < |s| && s[i] == '\n'
    ensures FirstFound(Attempts(StandardMatchers(), s, i), 0) == Found(EOL, "\n", i + 1)
  {
    var scans, rest := Attempts(StandardMatchers(), s, i), s[i..];
    StandardEntries();
    assert rest[0] == '\n' && Eol[0] <= rest;
    assert scans[0] == Found(EOL, "\n", i + 1);
  }

  /** A character that begins no operator, symbol, number, literal, keyword or identifier. */
  predicate Stray(c: char) {
    !IsWhitespace(c) && !IsAlphanumeric(c) && c !in OperatorHeads && c !in SymbolHeads && c !in {'"', '\'', '_', '?'}
  }

  /**
   * No recogniser accepts a stray character, so the stream ends there without
   * an error: `Tokenize` keeps the tokens before it and drops the rest of the text.
   */
  lemma StrayCharacterEndsStream(s: string, i: nat)
    requires i < |s| && Stray(s[i])
    ensures FirstFound(Attempts(StandardMatchers(), s, i), 0) == NotFound
  {
    var scans, rest := Attempts(StandardMatchers(), s, i), s[i..];
    PastLayout(s, i);
    StandardEntries();
    assert rest[0] == s[i];
    NoOperatorStart(rest);
    NoSymbolStart(rest);
    assert FirstCandidate(rest, Booleans, 0) == FirstCandidate(rest, Booleans, 1) == 2;
    assert scans[3] == NotFound && scans[4] == NotFound && scans[5] == NotFound && scans[6] == NotFound;
    assert scans[7] == NotFound && scans[8] == NotFound && scans[9] == NotFound;
    assert FirstFound(scans, 3) == FirstFound(scans, 4) == FirstFound(scans, 5) == FirstFound(scans, 6);
    assert FirstFound(scans, 6) == FirstFound(scans, 7) == FirstFound(scans, 8) == FirstFound(scans, 9) == FirstFound(scans, 10);
  }
}
