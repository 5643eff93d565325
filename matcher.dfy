/**
 * The token recognisers (lexer/matcher.rs) and the tokenizer's
 * `try_match_token`, which wraps one recogniser attempt in a snapshot.
 *
 * Each recogniser is a method that drives the tokenizer as the source does,
 * and is proved against a pure scan function of the source text and the
 * index where the attempt starts: what it finds there (kind, content, and the
 * index just past it), that nothing is there, or that the input is malformed
 * (a `panic!` in the source, here the `Fatal` outcome).
 */
module Matchers {
  import opened Wrappers
  import opened Chars
  import opened Tokens
  import opened Tokenizers

  /** The recognisers; the source has one struct per variant behind a trait object. */
  datatype Matcher =
    | WhitespaceMatcher
    | IntLiteralMatcher
    | FloatLiteralMatcher
    | StringLiteralMatcher
    | ConstantMatcher(tokenType: TokenType, constants: seq<string>)
    | KeyMatcher(tokenType: TokenType, constants: seq<string>)
    | IdentifierMatcher

  /** What a recogniser finds at an index of the source: `end` is the index just past the lexeme. */
  datatype Scan =
    | Found(tokenType: TokenType, content: string, end: nat)
    | NotFound
    | Fatal(message: string)

  /** What `try_match` returns; `Panic` is where the source aborts the process. */
  datatype MatchResult = Matched(token: Token) | NoMatch | Panic(message: string)

  const ParseIntFailure := "unable to parse int"
  const IllegalDecimalPoint := "illegal decimal point"
  const InvalidEscape := "invalid character escape"
  const InvalidCharLiteral := "invalid char literal"

  const I64Max: nat := 9223372036854775807
  const U64Max: nat := 18446744073709551615

  function ToMatch(sc: Scan, p: TokenPosition): MatchResult {
    match sc
    case Found(tt, content, _) => Matched(Token(tt, p, content))
    case NotFound => NoMatch
    case Fatal(m) => Panic(m)
  }

  /* ---------------------------------------------------------------- */
  /* Pure scan functions                                               */
  /* ---------------------------------------------------------------- */

  function ScanWhitespace(s: string, i: nat): Scan
    requires i <= |s|
  {
    var e := RunEnd(s, i, IsWhitespace);
    if e == i then NotFound else Found(Whitespace, "", e)
  }

  /**
   * The text of an integer literal: the digit run's value printed back in
   * decimal (so without leading zeros), with `-` in front for a `-` sign.
   * None where `i64` (negative) or `u64` (otherwise) parsing overflows.
   */
  function FormatInt(negative: bool, digits: string): (r: Option<string>)
    requires |digits| > 0 && AllDigits(digits)
    ensures r == None <==> DigitsValue(digits) > (if negative then I64Max else U64Max)
    ensures r != None ==> r.value == (if negative then "-" else "") + StripLeadingZeros(digits)
  {
    var value := DigitsValue(digits);
    NatToStringOfDigits(digits);
    if negative then
      if value > I64Max then None else Some("-" + NatToString(value))
    else
      if value > U64Max then None else Some(NatToString(value))
  }

  /** One for a leading `-` or `+`, which the numeric matchers step over. */
  function SignLength(s: string, i: nat): nat {
    if i < |s| && (s[i] == '-' || s[i] == '+') then 1 else 0
  }

  predicate Negative(s: string, i: nat) {
    i < |s| && s[i] == '-'
  }

  function IntOutcome(negative: bool, digits: string, end: nat): Scan
    requires |digits| > 0 && AllDigits(digits)
  {
    match FormatInt(negative, digits)
    case None => Fatal(ParseIntFailure)
    case Some(text) => Found(IntLiteral, text, end)
  }

  function ScanInt(s: string, i: nat): Scan
    requires i <= |s|
  {
    var start := i + SignLength(s, i);
    var e := RunEnd(s, start, IsDigit);
    if e == start then NotFound
    else
      assert forall k :: 0 <= k < e - start ==> s[start..e][k] == s[start + k];
      IntOutcome(Negative(s, i), s[start..e], e)
  }

  predicate IsDigitOrDot(c: char) {
    IsDigit(c) || c == '.'
  }

  function CountChar(s: string, c: char): nat {
    if s == [] then 0 else CountChar(s[..|s| - 1], c) + (if s[|s| - 1] == c then 1 else 0)
  }

  /**
   * The classification after the digit-or-point run: the text `0.` is no
   * literal, text with a point is a float, and text without one an int.
   */
  function FloatOutcome(negative: bool, accum: string, end: nat): Scan
    requires |accum| > 0 && forall j :: 0 <= j < |accum| ==> IsDigitOrDot(accum[j])
  {
    if accum == "0." then NotFound
    else if '.' in accum then Found(FloatLiteral, (if negative then "-" else "") + accum, end)
    else
      NoPointAllDigits(accum);
      IntOutcome(negative, accum, end)
  }

  lemma NoPointAllDigits(accum: string)
    requires forall j :: 0 <= j < |accum| ==> IsDigitOrDot(accum[j])
    requires '.' !in accum
    ensures AllDigits(accum)
  {
    forall j | 0 <= j < |accum|
      ensures IsDigit(accum[j])
    {
      assert accum[j] in accum;
    }
  }

  /** The float matcher's loop from index `i` of `s`, with the text accumulated so far. */
  function FloatRun(s: string, i: nat, negative: bool, accum: string): Scan
    requires |accum| > 0 && forall j :: 0 <= j < |accum| ==> IsDigitOrDot(accum[j])
    decreases |s| - i
  {
    if i >= |s| || !IsDigitOrDot(s[i]) then FloatOutcome(negative, accum, i)
    else if s[i] == '.' && '.' in accum then Fatal(IllegalDecimalPoint)
    else FloatRun(s, i + 1, negative, accum + [s[i]])
  }

  function ScanFloat(s: string, i: nat): Scan
    requires i <= |s|
  {
    var start := i + SignLength(s, i);
    if start >= |s| then Fatal(UnwrapNone)
    else if !IsDigitOrDot(s[start]) then NotFound
    else FloatRun(s, start + 1, Negative(s, i), if IsDigit(s[start]) then [s[start]] else "0.")
  }

  /**
   * The float matcher as a whole-run description: after the optional sign it
   * takes the maximal run of digits and points (a leading point reads as
   * `0.`); two points in that run are fatal.
   */
  function FloatByRun(s: string, i: nat): Scan
    requires i <= |s|
  {
    var start := i + SignLength(s, i);
    if start >= |s| then Fatal(UnwrapNone)
    else if !IsDigitOrDot(s[start]) then NotFound
    else
      var init := if IsDigit(s[start]) then [s[start]] else "0.";
      var e := RunEnd(s, start + 1, IsDigitOrDot);
      var accum := init + s[start + 1..e];
      if CountChar(accum, '.') >= 2 then Fatal(IllegalDecimalPoint)
      else FloatOutcome(Negative(s, i), accum, e)
  }

  /** The escapes a non-raw literal understands. */
  function Unescape(c: char): Option<char> {
    if c == '\\' || c == '\'' || c == '"' then Some(c)
    else if c == 'n' then Some('\n')
    else if c == 'r' then Some('\r')
    else if c == 't' then Some('\t')
    else None
  }

  /** A finished literal: `"` gives a string; `'` a char, if it is exactly one byte. */
  function FinishLiteral(delimiter: char, content: string, end: nat): Scan {
    if delimiter == '"' then Found(StringLiteral, content, end)
    else if Utf8Length(content) == 1 then Found(CharLiteral, content, end)
    else Fatal(InvalidCharLiteral)
  }

  /**
   * The body loop of the string matcher from index `i` of `s`, with the raw
   * and escape flags and the content read so far. Running off the end still
   * finishes the literal: the closing `advance(1)` is then a no-op.
   */
  function ScanBody(s: string, i: nat, raw: bool, delimiter: char, escape: bool, acc: string): Scan
    decreases |s| - i
  {
    if i >= |s| then FinishLiteral(delimiter, acc, |s|)
    else if raw then
      if s[i] == '"' then FinishLiteral(delimiter, acc, i + 1)
      else ScanBody(s, i + 1, raw, delimiter, false, acc + [s[i]])
    else if escape then
      match Unescape(s[i])
      case None => Fatal(InvalidEscape)
      case Some(c) => ScanBody(s, i + 1, raw, delimiter, false, acc + [c])
    else if s[i] == '\\' then ScanBody(s, i + 1, raw, delimiter, true, acc)
    else if s[i] == delimiter then FinishLiteral(delimiter, acc, i + 1)
    else ScanBody(s, i + 1, raw, delimiter, false, acc + [s[i]])
  }

  function ScanString(s: string, i: nat): Scan
    requires i <= |s|
  {
    if i == |s| then Fatal(UnwrapNone)
    else if s[i] == '"' then ScanBody(s, i + 1, false, '"', false, "")
    else if s[i] == '\'' then ScanBody(s, i + 1, false, '\'', false, "")
    else if s[i] == 'r' && i + 1 < |s| && s[i + 1] == '"' then ScanBody(s, i + 2, true, '"', false, "")
    else NotFound
  }

  /** Index of the first candidate from index `j` on that the text starts with; |cands| if none. */
  function FirstCandidate(s: string, cands: seq<string>, j: nat): (k: nat)
    requires j <= |cands|
    ensures j <= k <= |cands|
    decreases |cands| - j
  {
    if j == |cands| then j
    else if cands[j] <= s then j
    else FirstCandidate(s, cands, j + 1)
  }

  /** The candidate chosen is a prefix of the text, and none before it is. */
  lemma {:induction false} FirstCandidateIsFirst(s: string, cands: seq<string>, j: nat)
    requires j <= |cands|
    ensures var k := FirstCandidate(s, cands, j);
      && (k < |cands| ==> cands[k] <= s)
      && forall l :: j <= l < k ==> !(cands[l] <= s)
    decreases |cands| - j
  {
    if j < |cands| && !(cands[j] <= s) {
      FirstCandidateIsFirst(s, cands, j + 1);
    }
  }

  function ScanConstant(s: string, i: nat, tt: TokenType, cands: seq<string>): Scan
    requires i <= |s|
  {
    var k := FirstCandidate(s[i..], cands, 0);
    if k == |cands| then NotFound else Found(tt, cands[k], i + |cands[k]|)
  }

  /** Characters that may not follow a keyword. */
  predicate ContinuesWord(c: char) {
    c == '_' || c == '?' || IsAlphanumeric(c)
  }

  function ScanKey(s: string, i: nat, tt: TokenType, cands: seq<string>): Scan
    requires i <= |s|
  {
    var k := FirstCandidate(s[i..], cands, 0);
    if k == |cands| then NotFound
    else if i + |cands[k]| < |s| && ContinuesWord(s[i + |cands[k]|]) then NotFound
    else Found(tt, cands[k], i + |cands[k]|)
  }

  predicate IsIdentifierChar(c: char) {
    !IsWhitespace(c) && (c == '_' || c == '?' || c == '\'' || IsAlphanumeric(c))
  }

  function ScanIdentifier(s: string, i: nat): Scan
    requires i <= |s|
  {
    var e := RunEnd(s, i, IsIdentifierChar);
    if e == i then NotFound else Found(Identifier, s[i..e], e)
  }

  function ScanWith(m: Matcher, s: string, i: nat): Scan
    requires i <= |s|
  {
    match m
    case WhitespaceMatcher => ScanWhitespace(s, i)
    case IntLiteralMatcher => ScanInt(s, i)
    case FloatLiteralMatcher => ScanFloat(s, i)
    case StringLiteralMatcher => ScanString(s, i)
    case ConstantMatcher(tt, cands) => ScanConstant(s, i, tt, cands)
    case KeyMatcher(tt, cands) => ScanKey(s, i, tt, cands)
    case IdentifierMatcher => ScanIdentifier(s, i)
  }

  /** Fixed-text matchers need non-empty candidates for every success to consume input. */
  predicate WellFormed(m: Matcher) {
    (m.ConstantMatcher? || m.KeyMatcher?) ==> forall k :: 0 <= k < |m.constants| ==> |m.constants[k]| > 0
  }

  /** Before the end of the text a successful scan consumes at least one character and stays inside the text. */
  lemma ScanProgress(m: Matcher, s: string, i: nat)
    requires WellFormed(m) && i < |s|
    ensures ScanWith(m, s, i).Found? ==> i < ScanWith(m, s, i).end <= |s|
  {
    match m
    case StringLiteralMatcher =>
      if s[i] == '"' || s[i] == '\'' {
        ScanBodyEnd(s, i + 1, false, s[i], false, "");
      } else if s[i] == 'r' && i + 1 < |s| && s[i + 1] == '"' {
        ScanBodyEnd(s, i + 2, true, '"', false, "");
      }
    case FloatLiteralMatcher =>
      ScanFloatByRun(s, i);
    case ConstantMatcher(_, cands) =>
      FirstCandidateIsFirst(s[i..], cands, 0);
    case KeyMatcher(_, cands) =>
      FirstCandidateIsFirst(s[i..], cands, 0);
    case _ =>
  }

  lemma {:induction false} ScanBodyEnd(s: string, i: nat, raw: bool, delimiter: char, escape: bool, acc: string)
    requires i <= |s|
    ensures ScanBody(s, i, raw, delimiter, escape, acc).Found? ==> i <= ScanBody(s, i, raw, delimiter, escape, acc).end <= |s|
    decreases |s| - i
  {
    if i < |s| {
      if raw {
        if s[i] != '"' { ScanBodyEnd(s, i + 1, raw, delimiter, false, acc + [s[i]]); }
      } else if escape {
        var u := Unescape(s[i]);
        if u.Some? { ScanBodyEnd(s, i + 1, raw, delimiter, false, acc + [u.value]); }
      } else if s[i] == '\\' {
        ScanBodyEnd(s, i + 1, raw, delimiter, true, acc);
      } else if s[i] != delimiter {
        ScanBodyEnd(s, i + 1, raw, delimiter, false, acc + [s[i]]);
      }
    }
  }

  /* ---------------------------------------------------------------- */
  /* Properties of the scan functions                                  */
  /* ---------------------------------------------------------------- */

  /** The whitespace matcher succeeds exactly on whitespace and eats the whole run, producing no text. */
  lemma WhitespaceRun(s: string, i: nat)
    requires i <= |s|
    ensures ScanWhitespace(s, i).Found? <==> i < |s| && IsWhitespace(s[i])
    ensures ScanWhitespace(s, i).Found? ==>
      var e := ScanWhitespace(s, i).end;
      && ScanWhitespace(s, i).content == ""
      && (forall j :: i <= j < e ==> IsWhitespace(s[j]))
      && (e == |s| || !IsWhitespace(s[e]))
  {
  }

  /** The identifier matcher takes the maximal run of identifier characters, failing iff it is empty. */
  lemma IdentifierRun(s: string, i: nat)
    requires i <= |s|
    ensures ScanIdentifier(s, i).NotFound? <==> (i == |s| || !IsIdentifierChar(s[i]))
    ensures ScanIdentifier(s, i).Found? ==>
      var e := ScanIdentifier(s, i).end;
      && ScanIdentifier(s, i).content == s[i..e]
      && (forall j :: i <= j < e ==> IsIdentifierChar(s[j]))
      && (e == |s| || !IsIdentifierChar(s[e]))
  {
  }

  /**
   * First candidate wins: the constant matcher finds the first candidate, in
   * list order, that the text continues with, and consumes exactly it.
   */
  lemma ConstantFirstCandidate(s: string, i: nat, tt: TokenType, cands: seq<string>)
    requires i <= |s|
    ensures ScanConstant(s, i, tt, cands).NotFound? <==> forall j :: 0 <= j < |cands| ==> !(cands[j] <= s[i..])
    ensures ScanConstant(s, i, tt, cands).Found? ==>
      exists k :: 0 <= k < |cands|
        && ScanConstant(s, i, tt, cands) == Found(tt, cands[k], i + |cands[k]|)
        && cands[k] <= s[i..]
        && forall j :: 0 <= j < k ==> !(cands[j] <= s[i..])
  {
    FirstCandidateIsFirst(s[i..], cands, 0);
    var k := FirstCandidate(s[i..], cands, 0);
    if k < |cands| {
      assert cands[k] <= s[i..];
    }
  }

  /** The keyword matcher is the constant matcher, failing when the match runs on into a word character. */
  lemma KeyBoundary(s: string, i: nat, tt: TokenType, cands: seq<string>)
    requires i <= |s|
    ensures ScanKey(s, i, tt, cands).Found? <==>
      ScanConstant(s, i, tt, cands).Found?
      && var e := ScanConstant(s, i, tt, cands).end;
         (e >= |s| || !ContinuesWord(s[e]))
    ensures ScanKey(s, i, tt, cands).Found? ==> ScanKey(s, i, tt, cands) == ScanConstant(s, i, tt, cands)
  {
  }

  lemma TrueOneIsNotBoolean()
    ensures ScanKey("true1", 0, BoolLiteral, ["true", "false"]) == NotFound
  {
    assert "true1"[0..] == "true1";
    assert "true" <= "true1";
    assert FirstCandidate("true1", ["true", "false"], 0) == 0;
  }

  /**
   * The int matcher: an optional sign, then the maximal digit run; no digits
   * means no match; the content is the run without leading zeros, prefixed by
   * `-` exactly for a `-` sign; a value past the i64/u64 range is fatal.
   */
  lemma IntLiteralShape(s: string, i: nat)
    requires i <= |s|
    ensures
      var start := i + SignLength(s, i);
      var e := RunEnd(s, start, IsDigit);
      && (ScanInt(s, i).NotFound? <==> e == start)
      && (e > start ==>
           var digits := s[start..e];
           var bound := if Negative(s, i) then I64Max else U64Max;
           && AllDigits(digits)
           && (ScanInt(s, i).Fatal? <==> DigitsValue(digits) > bound)
           && (DigitsValue(digits) <= bound ==>
                ScanInt(s, i) == Found(IntLiteral, (if Negative(s, i) then "-" else "") + StripLeadingZeros(digits), e)))
  {
    var start := i + SignLength(s, i);
    var e := RunEnd(s, start, IsDigit);
    assert forall k :: 0 <= k < e - start ==> s[start..e][k] == s[start + k];
  }

  lemma {:induction false} CountCharAppend(s: string, t: string, c: char)
    ensures CountChar(s + t, c) == CountChar(s, c) + CountChar(t, c)
  {
    if t != [] {
      assert (s + t)[..|s + t| - 1] == s + t[..|t| - 1];
      CountCharAppend(s, t[..|t| - 1], c);
    } else {
      assert s + t == s;
    }
  }

  lemma {:induction false} CountCharZero(s: string, c: char)
    ensures CountChar(s, c) == 0 <==> c !in s
  {
    if s != [] {
      CountCharZero(s[..|s| - 1], c);
      assert s == s[..|s| - 1] + [s[|s| - 1]];
    }
  }

  lemma {:induction false} FloatRunByRun(s: string, i: nat, negative: bool, accum: string)
    requires i <= |s|
    requires |accum| > 0 && forall j :: 0 <= j < |accum| ==> IsDigitOrDot(accum[j])
    requires CountChar(accum, '.') <= 1
    ensures
      var e := RunEnd(s, i, IsDigitOrDot);
      var whole := accum + s[i..e];
      && (forall j :: 0 <= j < |whole| ==> IsDigitOrDot(whole[j]))
      && FloatRun(s, i, negative, accum) ==
           if CountChar(whole, '.') >= 2 then Fatal(IllegalDecimalPoint) else FloatOutcome(negative, whole, e)
    decreases |s| - i
  {
    var e := RunEnd(s, i, IsDigitOrDot);
    var whole := accum + s[i..e];
    if i == |s| || !IsDigitOrDot(s[i]) {
      assert whole == accum;
    } else {
      assert e == RunEnd(s, i + 1, IsDigitOrDot);
      assert whole == (accum + [s[i]]) + s[i + 1..e];
      CountCharAppend(accum, [s[i]], '.');
      CountCharZero(accum, '.');
      if s[i] == '.' && '.' in accum {
        CountCharAppend(accum + [s[i]], s[i + 1..e], '.');
      } else {
        FloatRunByRun(s, i + 1, negative, accum + [s[i]]);
      }
    }
  }

  /** The loop-shaped float scan and the whole-run description agree on every input. */
  lemma ScanFloatByRun(s: string, i: nat)
    requires i <= |s|
    ensures ScanFloat(s, i) == FloatByRun(s, i)
  {
    var start := i + SignLength(s, i);
    if start < |s| && IsDigitOrDot(s[start]) {
      var init := if IsDigit(s[start]) then [s[start]] else "0.";
      if init == "0." {
        assert init == "0" + ".";
        CountCharAppend("0", ".", '.');
        CountCharZero("0", '.');
      } else {
        CountCharZero(init, '.');
      }
      FloatRunByRun(s, start + 1, Negative(s, i), init);
    }
  }

  /** A second decimal point in the run is fatal. */
  lemma FloatTwoPointsFatal()
    ensures ScanFloat("1.2.3", 0) == Fatal(IllegalDecimalPoint)
  {
    var s := "1.2.3";
    assert FloatRun(s, 1, false, "1") == FloatRun(s, 2, false, "1.");
    assert FloatRun(s, 2, false, "1.") == FloatRun(s, 3, false, "1.2");
    assert '.' in "1.2";
  }

  /** A digit run without a point is handed over as an int literal. */
  lemma FloatWithoutPointIsInt(s: string)
    requires |s| > 0 && AllDigits(s)
    ensures ScanFloat(s, 0) == IntOutcome(false, s, |s|)
  {
    ScanFloatByRun(s, 0);
    assert IsDigit(s[0]) && SignLength(s, 0) == 0 && !Negative(s, 0);
    RunEndUnique(s, 1, |s|, IsDigitOrDot);
    assert [s[0]] + s[1..] == s;
    CountCharZero(s, '.');
    assert RunEnd(s, 1, IsDigitOrDot) == |s|;
    assert [s[0]] + s[1..|s|] == s;
    assert CountChar(s, '.') == 0;
    assert FloatByRun(s, 0) == FloatOutcome(false, s, |s|);
  }

  /** A bare point is not a float (and neither is the text `0.`). */
  lemma FloatBarePoint(rest: string)
    requires rest == [] || !IsDigitOrDot(rest[0])
    ensures ScanFloat("." + rest, 0) == NotFound
    ensures ScanFloat("0." + rest, 0) == NotFound
  {
    var s := "0." + rest;
    assert s[0] == '0' && s[1] == '.';
    assert FloatRun(s, 1, false, "0") == FloatRun(s, 2, false, "0.");
    assert |s| == 2 || s[2] == rest[0];
    var u := "." + rest;
    assert u[0] == '.' && (|u| == 1 || u[1] == rest[0]);
  }

  /** A float literal keeps its text and its single point. */
  lemma FloatKeepsText()
    ensures ScanFloat("12.5", 0) == Found(FloatLiteral, "12.5", 4)
  {
    var s := "12.5";
    assert FloatRun(s, 1, false, "1") == FloatRun(s, 2, false, "12");
    assert FloatRun(s, 2, false, "12") == FloatRun(s, 3, false, "12.");
    assert FloatRun(s, 3, false, "12.") == FloatRun(s, 4, false, "12.5");
    assert '.' in "12.5";
  }

  /** Escape text that the string matcher decodes back to `x`. */
  function Escaped(x: string): string {
    if x == [] then []
    else
      var c := x[0];
      (if c == '\\' || c == '"' || c == '\'' then ['\\', c]
       else if c == '\n' then "\\n"
       else if c == '\r' then "\\r"
       else if c == '\t' then "\\t"
       else [c]) + Escaped(x[1..])
  }

  lemma {:induction false} ScanBodyEscaped(x: string, rest: string, pre: string, acc: string)
    ensures
      var s := pre + Escaped(x) + "\"" + rest;
      ScanBody(s, |pre|, false, '"', false, acc) == Found(StringLiteral, acc + x, |pre| + |Escaped(x)| + 1)
    decreases |x|
  {
    var s := pre + Escaped(x) + "\"" + rest;
    if x == [] {
      assert s[|pre|] == '"';
    } else {
      var c := x[0];
      var e := Escaped(x);
      var step := e[..|e| - |Escaped(x[1..])|];
      assert e == step + Escaped(x[1..]);
      assert s == (pre + step) + Escaped(x[1..]) + "\"" + rest;
      ScanBodyEscaped(x[1..], rest, pre + step, acc + [c]);
      assert acc + [c] + x[1..] == acc + x;
      if c == '\\' || c == '"' || c == '\'' || c == '\n' || c == '\r' || c == '\t' {
        assert |step| == 2 && s[|pre|] == '\\';
        assert ScanBody(s, |pre| + 1, false, '"', true, acc) == ScanBody(s, |pre| + 2, false, '"', false, acc + [c]);
      } else {
        assert step == [c] && s[|pre|] == c;
      }
    }
  }

  /** Escaping then matching a double-quoted literal, anywhere in the source, gives the original text back. */
  lemma StringRoundTrip(pre: string, x: string, rest: string)
    ensures ScanString(pre + "\"" + Escaped(x) + "\"" + rest, |pre|) == Found(StringLiteral, x, |pre| + |Escaped(x)| + 2)
  {
    var s := pre + "\"" + Escaped(x) + "\"" + rest;
    assert s == (pre + "\"") + Escaped(x) + "\"" + rest;
    assert s[|pre|] == '"';
    ScanBodyEscaped(x, rest, pre + "\"", "");
    assert [] + x == x;
  }

  /** A raw literal copies everything up to the next `"` without decoding escapes. */
  lemma {:induction false} RawBody(x: string, rest: string, pre: string, acc: string)
    requires '"' !in x
    ensures ScanBody(pre + x + "\"" + rest, |pre|, true, '"', false, acc) == Found(StringLiteral, acc + x, |pre| + |x| + 1)
    decreases |x|
  {
    var s := pre + x + "\"" + rest;
    if x == [] {
      assert s[|pre|] == '"';
      assert acc + x == acc;
    } else {
      assert s[|pre|] == x[0] && x[0] in x;
      assert s == (pre + [x[0]]) + x[1..] + "\"" + rest;
      assert forall c :: c in x[1..] ==> c in x;
      RawBody(x[1..], rest, pre + [x[0]], acc + [x[0]]);
      assert acc + [x[0]] + x[1..] == acc + x;
    }
  }

  lemma RawStringCopies(x: string, rest: string)
    requires '"' !in x
    ensures ScanString("r\"" + x + "\"" + rest, 0) == Found(StringLiteral, x, |x| + 3)
  {
    RawBody(x, rest, "r\"", "");
    assert [] + x == x;
  }

  /** An escape outside the six known ones is fatal. */
  lemma UnknownEscapeIsFatal(c: char, rest: string)
    requires Unescape(c) == None
    ensures ScanString("\"\\" + [c] + rest, 0) == Fatal(InvalidEscape)
  {
    var s := "\"\\" + [c] + rest;
    assert s[0] == '"' && s[1] == '\\' && s[2] == c;
    assert ScanBody(s, 1, false, '"', false, "") == ScanBody(s, 2, false, '"', true, "");
  }

  /** A quoted char literal must hold exactly one byte. */
  lemma CharLiteralOneByte(c: char, rest: string)
    requires c != '\\' && c != '\''
    ensures ScanString("'" + [c] + "'" + rest, 0) ==
      if c as int < 0x80 then Found(CharLiteral, [c], 3) else Fatal(InvalidCharLiteral)
  {
    var s := "'" + [c] + "'" + rest;
    assert s[0] == '\'' && s[1] == c && s[2] == '\'';
    assert ScanBody(s, 1, false, '\'', false, "") == ScanBody(s, 2, false, '\'', false, [c]);
    Utf8LengthOne([c]);
  }

  /** An unterminated literal still yields a token with what was read. */
  lemma UnterminatedString(x: string)
    requires '"' !in x && '\\' !in x
    ensures ScanString("\"" + x, 0) == Found(StringLiteral, x, |x| + 1)
  {
    UnterminatedBody("\"", x, "");
    assert [] + x == x;
  }

  lemma {:induction false} UnterminatedBody(pre: string, x: string, acc: string)
    requires '"' !in x && '\\' !in x
    ensures ScanBody(pre + x, |pre|, false, '"', false, acc) == Found(StringLiteral, acc + x, |pre| + |x|)
    decreases |x|
  {
    if x == [] {
      assert pre + x == pre;
      assert acc + x == acc;
    } else {
      var s := pre + x;
      assert s[|pre|] == x[0] && x[0] in x;
      assert s == (pre + [x[0]]) + x[1..];
      assert forall c :: c in x[1..] ==> c in x;
      UnterminatedBody(pre + [x[0]], x[1..], acc + [x[0]]);
      assert acc + [x[0]] + x[1..] == acc + x;
    }
  }

  /* ---------------------------------------------------------------- */
  /* The matchers, driving the tokenizer                               */
  /* ---------------------------------------------------------------- */

  method MatchWhitespace(t: Tokenizer) returns (r: MatchResult)
    requires t.Cursor() && |t.snapshots| > 0
    modifies t`index, t`pos
    ensures t.Cursor()
    ensures r == ToMatch(ScanWhitespace(t.items, old(t.index)), t.LastPosition())
    ensures r.Matched? ==> t.index == ScanWhitespace(t.items, old(t.index)).end
  {
    ghost var i0 := t.index;
    var found := false;
    while !t.End() && IsWhitespace(t.Peek().value)
      invariant t.Cursor()
      invariant i0 <= t.index <= |t.items|
      invariant found <==> t.index > i0
      invariant RunEnd(t.items, t.index, IsWhitespace) == RunEnd(t.items, i0, IsWhitespace)
      decreases |t.items| - t.index
    {
      found := true;
      var _ := t.Read();
    }
    if found {
      r := Matched(Token(Whitespace, t.LastPosition(), ""));
    } else {
      r := NoMatch;
    }
  }

  /**
   * The optional sign both numeric matchers begin with: Some(false) for `-`,
   * Some(true) for `+` (stepped over), None otherwise.
   */
  method ReadSign(t: Tokenizer) returns (prefix: Option<bool>)
    requires t.Cursor()
    modifies t`index, t`pos
    ensures t.Cursor()
    ensures prefix.Some? <==> SignLength(t.items, old(t.index)) == 1
    ensures prefix == Some(false) <==> Negative(t.items, old(t.index))
    ensures t.index == old(t.index) + SignLength(t.items, old(t.index))
  {
    var c := t.Peek();
    prefix := if c == Some('-') then Some(false) else if c == Some('+') then Some(true) else None;
    if prefix.Some? {
      t.Advance(1);
    }
  }

  /** The int matcher's loop: reads the maximal run of digits at the cursor. */
  method ReadDigits(t: Tokenizer) returns (accum: string)
    requires t.Cursor()
    modifies t`index, t`pos
    ensures t.Cursor()
    ensures old(t.index) <= t.index == RunEnd(t.items, old(t.index), IsDigit)
    ensures |accum| == t.index - old(t.index)
    ensures forall k :: 0 <= k < |accum| ==> accum[k] == t.items[old(t.index) + k]
  {
    ghost var start := t.index;
    accum := "";
    while !t.End() && IsDigit(t.Peek().value)
      invariant t.Cursor()
      invariant start <= t.index <= |t.items|
      invariant |accum| == t.index - start && forall k :: 0 <= k < |accum| ==> accum[k] == t.items[start + k]
      invariant RunEnd(t.items, t.index, IsDigit) == RunEnd(t.items, start, IsDigit)
      decreases |t.items| - t.index
    {
      var d := t.Read();
      accum := accum + [d.value];
    }
  }

  method MatchInt(t: Tokenizer) returns (r: MatchResult)
    requires t.Cursor() && |t.snapshots| > 0
    modifies t`index, t`pos
    ensures t.Cursor()
    ensures r == ToMatch(ScanInt(t.items, old(t.index)), t.LastPosition())
    ensures r.Matched? ==> t.index == ScanInt(t.items, old(t.index)).end
  {
    ghost var i0 := t.index;
    var prefix := ReadSign(t);
    var accum := ReadDigits(t);
    ScanIntOf(t.items, i0, prefix == Some(false), accum, t.index);
    if accum != [] {
      var text := FormatInt(prefix == Some(false), accum);
      if text.None? {
        return Panic(ParseIntFailure);
      }
      return Matched(Token(IntLiteral, t.LastPosition(), text.value));
    }
    return NoMatch;
  }

  /** The int scan in terms of what the int matcher has read: the sign, the digit run and where it ends. */
  lemma ScanIntOf(s: string, i: nat, negative: bool, accum: string, e: nat)
    requires i <= e <= |s|
    requires negative == Negative(s, i)
    requires i + SignLength(s, i) <= e && RunEnd(s, i + SignLength(s, i), IsDigit) == e
    requires |accum| == e - (i + SignLength(s, i))
    requires forall k :: 0 <= k < |accum| ==> accum[k] == s[i + SignLength(s, i) + k]
    ensures accum != [] ==> AllDigits(accum)
    ensures ScanInt(s, i) == if accum == [] then NotFound else IntOutcome(negative, accum, e)
  {
    assert accum == s[i + SignLength(s, i)..e];
  }

  /**
   * The float matcher's loop: extends `accum` with digits and points while
   * they last, and reports a second point as fatal.
   */
  method ReadFloatRun(t: Tokenizer, ghost negative: bool, accum0: string) returns (accum: string, twoPoints: bool)
    requires t.Cursor()
    requires |accum0| > 0 && forall j :: 0 <= j < |accum0| ==> IsDigitOrDot(accum0[j])
    modifies t`index, t`pos
    ensures t.Cursor()
    ensures twoPoints ==> FloatRun(t.items, old(t.index), negative, accum0) == Fatal(IllegalDecimalPoint)
    ensures !twoPoints ==> (|accum| > 0 && (forall j :: 0 <= j < |accum| ==> IsDigitOrDot(accum[j]))
      && FloatRun(t.items, old(t.index), negative, accum0) == FloatOutcome(negative, accum, t.index))
  {
    ghost var goal := FloatRun(t.items, t.index, negative, accum0);
    accum := accum0;
    while !t.End()
      invariant t.Cursor()
      invariant |accum| > 0 && forall j :: 0 <= j < |accum| ==> IsDigitOrDot(accum[j])
      invariant FloatRun(t.items, t.index, negative, accum) == goal
      decreases |t.items| - t.index
    {
      var current := t.Peek().value;
      if (!IsWhitespace(current) && IsDigit(current)) || current == '.' {
        if current == '.' && '.' in accum {
          return accum, true;
        }
        var c := t.Read();
        accum := accum + [c.value];
      } else {
        break;
      }
    }
    twoPoints := false;
  }

  method MatchFloat(t: Tokenizer) returns (r: MatchResult)
    requires t.Cursor() && |t.snapshots| > 0
    modifies t`index, t`pos
    ensures t.Cursor()
    ensures r == ToMatch(ScanFloat(t.items, old(t.index)), t.LastPosition())
    ensures r.Matched? ==> t.index == ScanFloat(t.items, old(t.index)).end
  {
    ghost var i0 := t.index;
    var prefix := ReadSign(t);
    var curr := t.Read();
    if curr.None? {
      return Panic(UnwrapNone);
    }
    var accum: string;
    if IsDigit(curr.value) {
      accum := [curr.value];
    } else if curr.value == '.' {
      accum := "0.";
    } else {
      return NoMatch;
    }
    var twoPoints;
    accum, twoPoints := ReadFloatRun(t, prefix == Some(false), accum);
    if twoPoints {
      return Panic(IllegalDecimalPoint);
    }
    // what is left is the classification of the text read: `0.`, a float, or an int
    r := ToMatch(FloatOutcome(prefix == Some(false), accum, t.index), t.LastPosition());
  }

  method MatchString(t: Tokenizer) returns (r: MatchResult)
    requires t.Cursor() && |t.snapshots| > 0
    modifies t`index, t`pos
    ensures t.Cursor()
    ensures r == ToMatch(ScanString(t.items, old(t.index)), t.LastPosition())
    ensures r.Matched? ==> t.index == ScanString(t.items, old(t.index)).end
  {
    ghost var i0 := t.index;
    var rawMarker := false;
    var p := t.Peek();
    if p.None? {
      return Panic(UnwrapNone);
    }
    var delimiter: char;
    if p.value == '"' {
      delimiter := '"';
    } else if p.value == '\'' {
      delimiter := '\'';
    } else if p.value == 'r' && t.PeekN(1) == Some('"') {
      rawMarker := true;
      t.Advance(1);
      delimiter := '"';
    } else {
      return NoMatch;
    }
    t.Advance(1);
    var content, badEscape := ReadBody(t, rawMarker, delimiter);
    if badEscape {
      return Panic(InvalidEscape);
    }
    t.Advance(1);
    if delimiter == '"' {
      return Matched(Token(StringLiteral, t.LastPosition(), content));
    } else if Utf8Length(content) == 1 {
      return Matched(Token(CharLiteral, t.LastPosition(), content));
    }
    return Panic(InvalidCharLiteral);
  }

  /**
   * The string matcher's loop: reads the literal's body up to (not past) the
   * closing delimiter, decoding escapes unless the literal is raw; an unknown
   * escape is fatal.
   */
  method ReadBody(t: Tokenizer, rawMarker: bool, delimiter: char) returns (content: string, badEscape: bool)
    requires t.Cursor()
    modifies t`index, t`pos
    ensures t.Cursor()
    ensures badEscape ==> ScanBody(t.items, old(t.index), rawMarker, delimiter, false, "") == Fatal(InvalidEscape)
    ensures !badEscape ==> (ScanBody(t.items, old(t.index), rawMarker, delimiter, false, "")
      == FinishLiteral(delimiter, content, if t.index < |t.items| then t.index + 1 else |t.items|))
  {
    ghost var goal := ScanBody(t.items, t.index, rawMarker, delimiter, false, "");
    content := "";
    var foundEscape := false;
    while !t.End()
      invariant t.Cursor()
      invariant ScanBody(t.items, t.index, rawMarker, delimiter, foundEscape, content) == goal
      decreases |t.items| - t.index
    {
      if rawMarker {
        if t.Peek().value == '"' {
          break;
        }
        var c := t.Read();
        content := content + [c.value];
      } else if foundEscape {
        var c := t.Read();
        var u := Unescape(c.value);
        if u.None? {
          return content, true;
        }
        content := content + [u.value];
        foundEscape := false;
      } else {
        var c := t.Peek().value;
        if c == '\\' {
          var _ := t.Read();
          foundEscape := true;
        } else if c == delimiter {
          break;
        } else {
          var d := t.Read();
          content := content + [d.value];
        }
      }
    }
    badEscape := false;
  }

  method MatchConstant(t: Tokenizer, tt: TokenType, constants: seq<string>) returns (r: MatchResult)
    requires t.Cursor() && |t.snapshots| > 0
    modifies t`index, t`pos
    ensures t.Cursor()
    ensures r == ToMatch(ScanConstant(t.items, old(t.index), tt, constants), t.LastPosition())
    ensures r.Matched? ==> t.index == ScanConstant(t.items, old(t.index), tt, constants).end
  {
    ghost var rest := t.items[t.index..];
    FirstCandidateIsFirst(rest, constants, 0);
    for i := 0 to |constants|
      invariant forall j :: 0 <= j < i ==> !(constants[j] <= rest)
    {
      var constant := constants[i];
      // `tokenizer.clone().take(len)` reads ahead on a copy: the next `len` characters, or fewer at the end
      var dat := t.items[t.index..if t.index + |constant| <= |t.items| then t.index + |constant| else |t.items|];
      if dat == constant {
        assert constant <= rest;
        t.Advance(|constant|);
        return Matched(Token(tt, t.LastPosition(), constant));
      }
      assert !(constant <= rest);
    }
    return NoMatch;
  }

  method MatchKey(t: Tokenizer, tt: TokenType, constants: seq<string>) returns (r: MatchResult)
    requires t.Cursor() && |t.snapshots| > 0
    modifies t`index, t`pos
    ensures t.Cursor()
    ensures r == ToMatch(ScanKey(t.items, old(t.index), tt, constants), t.LastPosition())
    ensures r.Matched? ==> t.index == ScanKey(t.items, old(t.index), tt, constants).end
  {
    ghost var rest := t.items[t.index..];
    FirstCandidateIsFirst(rest, constants, 0);
    for i := 0 to |constants|
      invariant forall j :: 0 <= j < i ==> !(constants[j] <= rest)
    {
      var constant := constants[i];
      var dat := t.items[t.index..if t.index + |constant| <= |t.items| then t.index + |constant| else |t.items|];
      if dat == constant {
        assert constant <= rest;
        assert FirstCandidate(rest, constants, 0) == i;
        var next := t.PeekN(|constant|);
        if next.Some? && (next.value == '_' || next.value == '?' || IsAlphanumeric(next.value)) {
          return NoMatch;
        }
        t.Advance(|constant|);
        return Matched(Token(tt, t.LastPosition(), constant));
      }
      assert !(constant <= rest);
    }
    return NoMatch;
  }

  method MatchIdentifier(t: Tokenizer) returns (r: MatchResult)
    requires t.Cursor() && |t.snapshots| > 0
    modifies t`index, t`pos
    ensures t.Cursor()
    ensures r == ToMatch(ScanIdentifier(t.items, old(t.index)), t.LastPosition())
    ensures r.Matched? ==> t.index == ScanIdentifier(t.items, old(t.index)).end
  {
    ghost var i0 := t.index;
    var identifier := "";
    while !t.End()
      invariant t.Cursor()
      invariant i0 <= t.index <= |t.items|
      invariant identifier == t.items[i0..t.index]
      invariant RunEnd(t.items, t.index, IsIdentifierChar) == RunEnd(t.items, i0, IsIdentifierChar)
      decreases |t.items| - t.index
    {
      var current := t.Peek().value;
      if IsIdentifierChar(current) {
        var c := t.Read();
        assert t.items[i0..t.index] == t.items[i0..t.index - 1] + [c.value];
        identifier := identifier + [c.value];
      } else {
        break;
      }
    }
    if identifier != [] {
      return Matched(Token(Identifier, t.LastPosition(), identifier));
    }
    return NoMatch;
  }

  /** `Matcher::try_match`, dispatched on the recogniser. */
  method TryMatch(m: Matcher, t: Tokenizer) returns (r: MatchResult)
    requires t.Cursor() && |t.snapshots| > 0
    modifies t`index, t`pos
    ensures t.Cursor()
    ensures r == ToMatch(ScanWith(m, t.items, old(t.index)), t.LastPosition())
    ensures r.Matched? ==> t.index == ScanWith(m, t.items, old(t.index)).end
  {
    match m
    case WhitespaceMatcher => r := MatchWhitespace(t);
    case IntLiteralMatcher => r := MatchInt(t);
    case FloatLiteralMatcher => r := MatchFloat(t);
    case StringLiteralMatcher => r := MatchString(t);
    case ConstantMatcher(tt, cands) => r := MatchConstant(t, tt, cands);
    case KeyMatcher(tt, cands) => r := MatchKey(t, tt, cands);
    case IdentifierMatcher => r := MatchIdentifier(t);
  }

  /**
   * `Tokenizer::try_match_token`: at the end of input an EOF token positioned
   * at (index, index); otherwise one attempt inside a snapshot, committed on
   * success and rolled back on failure. A failed attempt leaves the cursor
   * exactly as it was, and a token carries the position where the attempt began.
   */
  method TryMatchToken(t: Tokenizer, m: Matcher) returns (r: MatchResult)
    requires t.Valid()
    modifies t
    ensures t.Valid()
    ensures old(t.index) == |t.items| ==>
      r == Matched(Token(EOF, TokenPosition(old(t.index), old(t.index)), ""))
      && t.index == old(t.index) && t.snapshots == old(t.snapshots)
    ensures old(t.index) < |t.items| ==> r == ToMatch(ScanWith(m, t.items, old(t.index)), PositionIn(t.items, old(t.index)))
    ensures old(t.index) < |t.items| && r.Matched? ==> t.index == ScanWith(m, t.items, old(t.index)).end
    ensures r.NoMatch? ==> t.index == old(t.index)
    ensures !r.Panic? ==> t.snapshots == old(t.snapshots)
  {
    if t.End() {
      return Matched(Token(EOF, TokenPosition(t.index, t.index), ""));
    }
    t.TakeSnapshot();
    r := TryMatch(m, t);
    match r
    case Matched(_) =>
      t.CommitSnapshot();
    case NoMatch =>
      t.RollbackSnapshot();
    case Panic(_) =>
  }
}
