/**
 * The character cursor of the lexer (lexer/tokenizer.rs): an index into the
 * source characters, the line/column position of that index, and a stack of
 * snapshots that lets a matcher attempt be committed or rolled back.
 *
 * The object invariant `Valid` says more than the source writes down: the
 * position is always the position reached by consuming `items[..index]`
 * from line 1, column 0, and every snapshot on the stack is such a pair too.
 * Every method keeps it, so a rollback can only ever restore a consistent state.
 */
module Tokenizers {
  import opened Wrappers
  import opened Tokens

  /** The effect of consuming one character on the position. */
  function StepPosition(p: TokenPosition, c: char): TokenPosition {
    if c == '\n' then TokenPosition(p.line + 1, 0) else TokenPosition(p.line, p.col + 1)
  }

  /** The position of index `i` of `s`: the first `i` characters consumed one at a time from line 1, column 0. */
  function PositionIn(s: string, i: nat): TokenPosition
    requires i <= |s|
  {
    if i == 0 then DefaultPosition() else StepPosition(PositionIn(s, i - 1), s[i - 1])
  }

  function CountNewlines(s: string): nat {
    if s == [] then 0 else CountNewlines(s[..|s| - 1]) + (if s[|s| - 1] == '\n' then 1 else 0)
  }

  /** Number of characters after the last newline of `s` (all of `s` if it has none). */
  function TrailingLine(s: string): nat {
    if s == [] || s[|s| - 1] == '\n' then 0 else TrailingLine(s[..|s| - 1]) + 1
  }

  /**
   * Closed form of the position arithmetic: the line is one more than the
   * newlines before `i`, and the column counts the characters since the last one.
   */
  lemma {:induction false} PositionInCounts(s: string, i: nat)
    requires i <= |s|
    ensures PositionIn(s, i).line == 1 + CountNewlines(s[..i])
    ensures PositionIn(s, i).col == TrailingLine(s[..i])
  {
    if i > 0 {
      PositionInCounts(s, i - 1);
      assert s[..i][..i - 1] == s[..i - 1];
    }
  }

  /** The position depends only on the characters before it. */
  lemma {:induction false} PositionInPrefix(s: string, t: string, i: nat)
    requires i <= |s| && i <= |t| && s[..i] == t[..i]
    ensures PositionIn(s, i) == PositionIn(t, i)
  {
    if i > 0 {
      assert s[i - 1] == s[..i][i - 1] == t[..i][i - 1] == t[i - 1];
      assert s[..i - 1] == s[..i][..i - 1];
      assert t[..i - 1] == t[..i][..i - 1];
      PositionInPrefix(s, t, i - 1);
    }
  }

  datatype Snapshot = Snapshot(pos: TokenPosition, index: nat)

  class Tokenizer {
    const items: seq<char>
    var index: nat
    var pos: TokenPosition
    var snapshots: seq<Snapshot>

    /** A saved or current (position, index) pair that agrees with the text. */
    ghost predicate Consistent(s: Snapshot) {
      s.index <= |items| && s.pos == PositionIn(items, s.index)
    }

    /** The cursor: the position is the one reached by consuming `items[..index]`. */
    ghost predicate Cursor()
      reads this`index, this`pos
    {
      Consistent(Snapshot(pos, index))
    }

    /** Every saved snapshot is a consistent pair as well. */
    ghost predicate Saved()
      reads this`snapshots
    {
      forall k :: 0 <= k < |snapshots| ==> Consistent(snapshots[k])
    }

    ghost predicate Valid()
      reads this
    {
      Cursor() && Saved()
    }

    constructor (source: seq<char>)
      ensures items == source && index == 0 && snapshots == []
      ensures pos == DefaultPosition() && Valid()
    {
      items := source;
      index := 0;
      pos := DefaultPosition();
      snapshots := [];
    }

    function EndN(lookahead: nat): bool
      reads this`index
    {
      index + lookahead >= |items|
    }

    function End(): bool
      reads this`index
    {
      EndN(0)
    }

    /** The character `n` places ahead, None past the end; the cursor does not move. */
    function PeekN(n: nat): (r: Option<char>)
      reads this`index
      requires index <= |items|
      ensures r == None <==> index + n >= |items|
      ensures r != None ==> r.value == items[index + n]
    {
      if EndN(n) then None else Some(items[index + n])
    }

    function Peek(): (r: Option<char>)
      reads this`index
      requires index <= |items|
    {
      PeekN(0)
    }

    /**
     * Consumes `a` characters if there are that many, updating the line and
     * column per character; otherwise nothing changes.
     */
    method Advance(a: nat)
      requires Cursor()
      modifies this`index, this`pos
      ensures Cursor()
      ensures index == if old(index) + a <= |items| then old(index) + a else old(index)
    {
      if index + a <= |items| {
        var i := index;
        while i < index + a
          invariant index == old(index) && index + a <= |items|
          invariant index <= i <= index + a
          invariant pos == PositionIn(items, i)
        {
          pos := StepPosition(pos, items[i]);
          i := i + 1;
        }
        index := index + a;
      }
    }

    /** Iterator::next: the next character, consuming it; None at the end. */
    method Read() returns (c: Option<char>)
      requires Cursor()
      modifies this`index, this`pos
      ensures Cursor()
      ensures old(index) == |items| ==> c == None && index == old(index) && pos == old(pos)
      ensures old(index) < |items| ==> c == Some(items[old(index)]) && index == old(index) + 1
      ensures old(index) < |items| ==> pos == StepPosition(old(pos), c.value)
    {
      if End() {
        return None;
      }
      Advance(1);
      assert items[index - 1..index] == [items[index - 1]];
      assert [items[index - 1]][..0] == [];
      c := Some(items[index - 1]);
    }

    method TakeSnapshot()
      requires Valid()
      modifies this`snapshots
      ensures Valid()
      ensures snapshots == old(snapshots) + [Snapshot(pos, index)]
    {
      snapshots := snapshots + [Snapshot(pos, index)];
    }

    /** Pops the top snapshot and restores its index and position. */
    method RollbackSnapshot()
      requires Valid() && |snapshots| > 0
      modifies this
      ensures Valid()
      ensures snapshots == old(snapshots[..|snapshots| - 1])
      ensures index == old(snapshots[|snapshots| - 1].index)
      ensures pos == old(snapshots[|snapshots| - 1].pos)
    {
      var snapshot := snapshots[|snapshots| - 1];
      snapshots := snapshots[..|snapshots| - 1];
      index := snapshot.index;
      pos := snapshot.pos;
    }

    /** Pops the top snapshot, if any, and keeps the current index and position. */
    method CommitSnapshot()
      requires Valid()
      modifies this`snapshots
      ensures Valid()
      ensures snapshots == if old(snapshots) == [] then [] else old(snapshots[..|snapshots| - 1])
    {
      if snapshots != [] {
        snapshots := snapshots[..|snapshots| - 1];
      }
    }

    /** The position saved by the innermost snapshot: where the current attempt began. */
    function LastPosition(): TokenPosition
      reads this`snapshots
      requires |snapshots| > 0
    {
      snapshots[|snapshots| - 1].pos
    }
  }

  /** A snapshot taken and rolled back leaves the tokenizer as it found it. */
  method SnapshotRollbackRestores(t: Tokenizer, a: nat)
    requires t.Valid()
    modifies t
    ensures t.Valid()
    ensures t.index == old(t.index) && t.pos == old(t.pos) && t.snapshots == old(t.snapshots)
  {
    t.TakeSnapshot();
    t.Advance(a);
    t.RollbackSnapshot();
  }
}
