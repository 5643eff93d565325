/**
 * The parser's cursor over the token list (parser/traveler.rs). `top` may
 * run one past the last token; `current` then keeps answering with the last
 * token, and `remaining` is `len - top + 1`, so it is 1 exactly at the end.
 */
module Travelers {
  import opened Wrappers
  import opened Tokens

  /** `{:?}` of a token kind, which the expectation errors print. */
  function TypeName(t: TokenType): string {
    match t
    case IntLiteral => "IntLiteral"
    case FloatLiteral => "FloatLiteral"
    case StringLiteral => "StringLiteral"
    case CharLiteral => "CharLiteral"
    case BoolLiteral => "BoolLiteral"
    case Symbol => "Symbol"
    case Operator => "Operator"
    case Identifier => "Identifier"
    case Type => "Type"
    case Keyword => "Keyword"
    case Whitespace => "Whitespace"
    case Indent => "Indent"
    case EOL => "EOL"
    case EOF => "EOF"
  }

  /** The message of the assertion in `get`, which aborts the process. */
  const NonExistingToken := "trying to get non-existing token"

  /** The token `current` answers with at cursor `top`: the last one once `top` runs past it. */
  function CurrentAt(tokens: seq<Token>, top: nat): (t: Token)
    requires |tokens| > 0
    ensures t in tokens
    ensures top < |tokens| ==> t == tokens[top]
    ensures top >= |tokens| ==> t == tokens[|tokens| - 1]
  {
    if top > |tokens| - 1 then tokens[|tokens| - 1] else tokens[top]
  }

  /** `expect_content` on a cursor at `top`: `content` iff the current token holds exactly that text. */
  function ExpectContentAt(tokens: seq<Token>, top: nat, content: string): (r: Result<string, Error>)
    requires |tokens| > 0
    ensures r.Ok? <==> CurrentAt(tokens, top).content == content
    ensures r.Ok? ==> r.value == content
    ensures r.Err? ==> r.error.position == Some(CurrentAt(tokens, top).position)
  {
    var t := CurrentAt(tokens, top);
    if t.content == content then Ok(t.content)
    else Err(Error("expected '" + content + "', found '" + t.content + "'", Some(t.position)))
  }

  /** Whether the tokens from `top` on have the contents of `sequence`, one by one. */
  predicate ContentsAt(tokens: seq<Token>, top: nat, sequence: seq<string>) {
    top + |sequence| <= |tokens| && forall k :: 0 <= k < |sequence| ==> tokens[top + k].content == sequence[k]
  }

  class Traveler {
    const tokens: seq<Token>
    var top: nat

    ghost predicate Valid()
      reads this
    {
      top <= |tokens|
    }

    constructor (tokens: seq<Token>)
      ensures this.tokens == tokens && top == 0 && Valid()
    {
      this.tokens := tokens;
      top := 0;
    }

    /** Moves one token on, unless the cursor is already past the last token. */
    method Next() returns (moved: bool)
      requires Valid()
      modifies this`top
      ensures Valid()
      ensures moved <==> old(top) < |tokens|
      ensures top == if moved then old(top) + 1 else old(top)
    {
      if top < |tokens| {
        top := top + 1;
        return true;
      }
      return false;
    }

    /** Moves one token back, unless the cursor is at the first token. */
    method Prev() returns (moved: bool)
      requires Valid()
      modifies this`top
      ensures Valid()
      ensures moved <==> old(top) > 0
      ensures top == if moved then old(top) - 1 else old(top)
    {
      if top > 0 {
        top := top - 1;
        return true;
      }
      return false;
    }

    /** One more than the number of tokens not yet passed: never 0, and 1 exactly at the end. */
    function Remaining(): (r: nat)
      reads this
      requires Valid()
      ensures r >= 1
      ensures r == 1 <==> top == |tokens|
      ensures r >= 2 <==> top < |tokens|
    {
      |tokens| - top + 1
    }

    /** The token under the cursor, the last one past the end; the list must not be empty. */
    function Current(): (t: Token)
      reads this
      requires |tokens| > 0
      ensures t in tokens
      ensures t == CurrentAt(tokens, top)
    {
      if top > |tokens| - 1 then tokens[|tokens| - 1] else tokens[top]
    }

    /** The token at index `i`, which must be neither the first nor past the end. */
    function Get(i: nat): (t: Token)
      reads this
      requires 0 < i < |tokens|
      ensures t == tokens[i] && t in tokens[1..]
    {
      tokens[i]
    }

    function CurrentContent(): string
      reads this
      requires |tokens| > 0
    {
      Current().content
    }

    /** Succeeds with the current content iff the current token has kind `tt`; the cursor stays. */
    function Expect(tt: TokenType): (r: Result<string, Error>)
      reads this
      requires |tokens| > 0
      ensures r.Ok? <==> CurrentAt(tokens, top).tokenType == tt
      ensures r.Ok? ==> r.value == CurrentAt(tokens, top).content
      ensures r.Err? ==> r.error.position == Some(CurrentAt(tokens, top).position)
    {
      if Current().tokenType == tt then Ok(CurrentContent())
      else Err(Error("expected '" + TypeName(tt) + "', found '" + CurrentContent() + "'", Some(Current().position)))
    }

    /** Succeeds with `content` iff the current token holds exactly that text; the cursor stays. */
    function ExpectContent(content: string): (r: Result<string, Error>)
      reads this
      requires |tokens| > 0
      ensures r.Ok? <==> CurrentAt(tokens, top).content == content
      ensures r.Ok? ==> r.value == content
      ensures r.Err? ==> r.error.position == Some(CurrentAt(tokens, top).position)
    {
      ExpectContentAt(tokens, top, content)
    }

    /**
     * Checks that the tokens from the cursor on hold the texts of `sequence`
     * and returns them. It fails at the first text that is past the end or
     * differs; and, as `get` refuses index 0, it fails at the cursor's first
     * token when the cursor is at the start.
     */
    method ExpectContents(sequence: seq<string>) returns (r: Result<seq<Token>, string>)
      requires Valid()
      ensures r.Ok? <==> ContentsAt(tokens, top, sequence) && (top > 0 || sequence == [])
      ensures r.Ok? ==> r.value == tokens[top..top + |sequence|]
      ensures ContentsAt(tokens, top, sequence) && top == 0 && sequence != [] ==> r == Err(NonExistingToken)
    {
      var res: seq<Token> := [];
      for accum := 0 to |sequence|
        invariant top + accum <= |tokens|
        invariant ContentsAt(tokens, top, sequence[..accum])
        invariant accum > 0 ==> top > 0
        invariant res == tokens[top..top + accum]
      {
        var c := sequence[accum];
        if top + accum >= |tokens| {
          return Err("expected '" + c + "', found end of source >:(");
        }
        if c != tokens[top + accum].content {
          return Err("expected '" + c + "', found '" + tokens[top + accum].content + "'");
        }
        if top + accum == 0 {
          assert ContentsAt(tokens, top, sequence) ==> sequence[..accum + 1] <= sequence;
          return Err(NonExistingToken);
        }
        res := res + [Get(top + accum)];
      }
      assert sequence[..|sequence|] == sequence;
      return Ok(res);
    }
  }
}
