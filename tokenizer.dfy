/** The tokenizer (src/tokenizer.rs): classifies decoded units into tokens and
    recognises header, block-quote and task-list markers at line start by
    speculative lookahead through a fixed 10-byte replay cache.

    The unit stream of the external decoder is the sequence `units` (each
    unit 1 to 4 bytes); `failed` says whether the stream ends in a read
    failure, which every later pull reports again, instead of ending cleanly. */
module Tokenizer {
  import opened Bytes
  import opened Tags

  datatype Token = Space | Tab | Ln | Tag(tag: Tag) | PureText(data: Bytes, charLen: nat)

  /** Width of a token in columns; only a width of 0 starts a new line in
      the parser's position record. */
  function TokenCharLen(t: Token): (n: nat)
    ensures n == 0 <==> t.Ln? || (t.Tag? && t.tag.None?) || (t.PureText? && t.charLen == 0)
  {
    match t
    case Space => 1
    case Tab => 1
    case Ln => 0
    case PureText(_, charLen) => charLen
    case Tag(tag) => CharLen(tag)
  }

  /** Where the previous token left the tokenizer: markers are only tried at
      `Start` or right after a line feed. `TabRun(n)` counts consecutive tabs. */
  datatype LineState = Start | LineFeed | TabRun(n: nat) | Other {
    predicate AtLineStart() { Start? || LineFeed? }
  }

  /** What one pull yields: a token, the clean end of the stream, or an I/O failure. */
  datatype Pull = Emitted(token: Token) | End | Failed

  /** Result of one pull: what it yields, the position of the next unit to
      read, and the new line state. */
  datatype Step = Step(result: Pull, next: nat, state: LineState)

  /** Capacity of the replay cache: six `#` and one 4-byte unit. */
  const ARRAY_CAP: nat := 7 + 3

  /** The bytes expected after `-` in a task item; `?` stands for a space or `x`. */
  const TASK_PATTERN: seq<byte> := [SPACE, LBRACKET, QUESTION, RBRACKET, SPACE]

  /** A unit read alone becomes a one-column plain-text token owning its bytes
      (`get_pure_text` and `From<&Chr> for Token`). */
  function PureTextOf(u: Unit): (t: Token)
    ensures t.PureText? && t.data == u && TokenCharLen(t) == 1
  {
    PureText(u, 1)
  }

  function EndPull(failed: bool): Pull {
    if failed then Failed else End
  }

  // ---------------------------------------------------------------------
  // Reference definition of one pull, stated over the unit sequence.

  /** Columns `put_chr` credits for a run of units: each unit's byte count plus one. */
  function UnitsCharLen(us: seq<Unit>): nat {
    if us == [] then 0 else UnitsCharLen(us[..|us| - 1]) + |us[|us| - 1]| + 1
  }

  /** Replay of a failed marker match over units `pos..j`: the first byte was
      `put` (one column), the later units were `put_chr`. */
  function Replay(units: seq<Unit>, pos: nat, j: nat): (t: Token)
    requires pos < j <= |units|
    ensures t.PureText? && t.charLen >= 1
  {
    PureText(Flatten(units[pos..j]), 1 + UnitsCharLen(units[pos + 1..j]))
  }

  /** Header marker at `pos` once `level` `#` units (`pos..pos+level`) have
      been read: a further `#` deepens the level, a seventh one gives up; a
      space (or the end of the stream) completes the marker; anything else
      gives up. Giving up replays every unit read as plain text. */
  function HeaderFrom(units: seq<Unit>, failed: bool, pos: nat, level: nat): (r: Step)
    requires 1 <= level <= 6 && pos + level <= |units|
    ensures !r.result.Emitted? ==> r.result == EndPull(failed)
    ensures pos + level <= r.next <= |units| && r.state == Other
    ensures r.result.Emitted? && r.result.token.Tag? ==> Indexed(r.result.token.tag)
    decreases 6 - level
  {
    var j := pos + level;
    if j == |units| then Step(if failed then Failed else Emitted(Tag(Header(level))), j, Other)
    else if IsByte(units[j], HASH) then
      if level == 6 then Step(Emitted(Replay(units, pos, j + 1)), j + 1, Other)
      else HeaderFrom(units, failed, pos, level + 1)
    else if IsByte(units[j], SPACE) then Step(Emitted(Tag(Header(level))), j + 1, Other)
    else Step(Emitted(Replay(units, pos, j + 1)), j + 1, Other)
  }

  /** Block-quote marker at `pos`: `>` then a space. */
  function QuoteStep(units: seq<Unit>, failed: bool, pos: nat): (r: Step)
    requires pos < |units| && IsByte(units[pos], GT)
    ensures !r.result.Emitted? ==> r.result == EndPull(failed)
    ensures pos < r.next <= |units| && r.state == Other
  {
    if pos + 1 == |units| then Step(if failed then Failed else Emitted(PureTextOf([GT])), pos + 1, Other)
    else if IsByte(units[pos + 1], SPACE) then Step(Emitted(Tag(BlockQuote)), pos + 2, Other)
    else Step(Emitted(Replay(units, pos, pos + 2)), pos + 2, Other)
  }

  /** Whether a unit matches position `k` of `TASK_PATTERN`, where `?`
      stands for a space or an `x`. */
  predicate TaskMatches(u: Unit, k: nat)
    requires k < 5
  {
    if TASK_PATTERN[k] == QUESTION then IsByte(u, SPACE) || IsByte(u, LOWER_X)
    else IsByte(u, TASK_PATTERN[k])
  }

  /** Task marker at `pos` once `-` and the first `k` pattern positions have
      matched. A mismatch replays `-`, the matched bytes (one column each,
      they were `put`) and the mismatching unit (`put_chr`); the end of the
      stream mid-pattern drops them; a full match is a task item, done when
      the `?` position held `x`. */
  function TaskFrom(units: seq<Unit>, failed: bool, pos: nat, k: nat): (r: Step)
    requires k <= 5 && pos + 1 + k <= |units|
    ensures !r.result.Emitted? ==> r.result == EndPull(failed)
    ensures pos + 1 + k <= r.next <= |units| && r.state == Other
    ensures r.result.Emitted? && r.result.token.PureText? ==> r.result.token.charLen >= 1
    decreases 5 - k
  {
    var j := pos + 1 + k;
    if k == 5 then Step(Emitted(Tag(TaskList(IsByte(units[pos + 3], LOWER_X)))), j, Other)
    else if j == |units| then Step(EndPull(failed), j, Other)
    else if !TaskMatches(units[j], k) then
      Step(Emitted(PureText(Flatten(units[pos..j + 1]), 1 + k + |units[j]| + 1)), j + 1, Other)
    else TaskFrom(units, failed, pos, k + 1)
  }

  /** `TaskFrom` one position on: the end of the stream, a mismatch, a match. */
  lemma TaskFromEnd(units: seq<Unit>, failed: bool, pos: nat, k: nat)
    requires k < 5 && pos + 1 + k == |units|
    ensures TaskFrom(units, failed, pos, k) == Step(EndPull(failed), |units|, Other)
  {
  }

  lemma TaskFromMismatch(units: seq<Unit>, failed: bool, pos: nat, k: nat)
    requires k < 5 && pos + 1 + k < |units| && !TaskMatches(units[pos + 1 + k], k)
    ensures TaskFrom(units, failed, pos, k) ==
      Step(Emitted(PureText(Flatten(units[pos..pos + 2 + k]), (k + 1) + |units[pos + 1 + k]| + 1)), pos + 2 + k, Other)
  {
  }

  lemma TaskFromMatch(units: seq<Unit>, failed: bool, pos: nat, k: nat)
    requires k < 5 && pos + 1 + k < |units| && TaskMatches(units[pos + 1 + k], k)
    ensures TaskFrom(units, failed, pos, k) == TaskFrom(units, failed, pos, k + 1)
  {
  }

  /** One pull of `Tokenizer::next` exactly as written: a multi-byte unit
      leaves the line state unchanged. */
  function NextTokenAsWritten(units: seq<Unit>, failed: bool, pos: nat, st: LineState): (r: Step)
    requires pos <= |units|
    ensures !r.result.Emitted? ==> r.result == EndPull(failed)
    ensures pos <= r.next <= |units|
    ensures r.result.Emitted? ==> pos < r.next
    ensures !r.result.Emitted? ==> r.next == |units|
    ensures r.result.Emitted? && r.result.token.Tag? ==> st.AtLineStart() && Indexed(r.result.token.tag)
    ensures r.result.Emitted? && r.result.token.PureText? ==> r.result.token.charLen >= 1
  {
    if pos == |units| then Step(EndPull(failed), pos, st)
    else
      var u := units[pos];
      if |u| != 1 then Step(Emitted(PureTextOf(u)), pos + 1, st)
      else if u[0] == BACKSLASH then
        if pos + 1 == |units| then Step(EndPull(failed), pos + 1, st)
        else Step(Emitted(PureTextOf(units[pos + 1])), pos + 2, Other)
      else if u[0] == SPACE then Step(Emitted(Space), pos + 1, Other)
      else if u[0] == TAB then Step(Emitted(Tab), pos + 1, TabRun(if st.TabRun? then st.n + 1 else 1))
      else if u[0] == LF then Step(Emitted(Ln), pos + 1, LineFeed)
      else if u[0] == CR then
        if pos + 1 == |units| then Step(if failed then Failed else Emitted(Ln), pos + 1, st)
        else Step(Emitted(Ln), if IsByte(units[pos + 1], LF) then pos + 2 else pos + 1, LineFeed)
      else if !st.AtLineStart() then Step(Emitted(PureTextOf(u)), pos + 1, Other)
      else if u[0] == HASH then HeaderFrom(units, failed, pos, 1)
      else if u[0] == GT then QuoteStep(units, failed, pos)
      else if u[0] == DASH then TaskFrom(units, failed, pos, 0)
      else Step(Emitted(PureTextOf(u)), pos + 1, Other)
  }

  /** One pull with a multi-byte unit also leaving line start, as every other
      plain-text unit does. Only a line feed returns to line start, so a
      marker is never recognised after text on the same line. */
  function NextToken(units: seq<Unit>, failed: bool, pos: nat, st: LineState): (r: Step)
    requires pos <= |units|
    ensures !r.result.Emitted? ==> r.result == EndPull(failed)
    ensures pos <= r.next <= |units|
    ensures r.result.Emitted? ==> pos < r.next
    ensures !r.result.Emitted? ==> r.next == |units|
    ensures r.result.Emitted? && r.result.token.Tag? ==> st.AtLineStart() && Indexed(r.result.token.tag)
    ensures r.result.Emitted? && r.result.token.PureText? ==> r.result.token.charLen >= 1
    ensures r.result.Emitted? && r.state.AtLineStart() ==> r.result.token == Ln
    ensures r.result == NextTokenAsWritten(units, failed, pos, st).result
    ensures r.next == NextTokenAsWritten(units, failed, pos, st).next
  {
    var s := NextTokenAsWritten(units, failed, pos, st);
    if pos < |units| && |units[pos]| != 1 then s.(state := Other) else s
  }

  // ---------------------------------------------------------------------
  // The replay cache and the tokenizer object.

  class CharCache {
    const arr: array<byte>
    var len: nat
    var charLen: nat

    ghost predicate Valid()
      reads this
    {
      arr.Length == ARRAY_CAP && len <= ARRAY_CAP
    }

    constructor ()
      ensures Valid() && fresh(arr)
      ensures len == 0 && charLen == 0
    {
      arr := new byte[ARRAY_CAP](_ => 0);
      len, charLen := 0, 0;
    }

    /** The bytes put since the last clear. */
    function Get(): (r: Bytes)
      requires Valid()
      reads this, arr
      ensures |r| == len
    {
      arr[..len]
    }

    /** Appends one byte; one column. The source asserts the cache is not full. */
    method Put(b: byte)
      requires Valid() && len < ARRAY_CAP
      modifies this, arr
      ensures Valid()
      ensures Get() == old(Get()) + [b]
      ensures charLen == old(charLen) + 1
    {
      arr[len] := b;
      len := len + 1;
      charLen := charLen + 1;
    }

    /** Appends every byte of a unit; credits its byte count plus one column. */
    method PutChr(c: Unit)
      requires Valid() && len + |c| <= ARRAY_CAP
      modifies this, arr
      ensures Valid()
      ensures Get() == old(Get()) + c
      ensures charLen == old(charLen) + |c| + 1
    {
      var i := 0;
      while i < |c|
        invariant 0 <= i <= |c|
        invariant Valid() && len == old(len) + i
        invariant Get() == old(Get()) + c[..i]
        invariant charLen == old(charLen) + i
      {
        Put(c[i]);
        assert c[..i + 1] == c[..i] + [c[i]];
        i := i + 1;
      }
      assert c[..|c|] == c;
      charLen := charLen + 1;
    }

    method Clear()
      modifies this
      ensures len == 0 && charLen == 0
    {
      len, charLen := 0, 0;
    }
  }

  class Tokenizer {
    const units: seq<Unit>
    const failed: bool
    /** Position of the next unit the decoder will hand out. */
    var cursor: nat
    var state: LineState
    const cache: CharCache

    /** The cache is empty between pulls, except after a pull that reached
        the end of the stream, where nothing is read any more. */
    ghost predicate Valid()
      reads this, cache
    {
      cache.Valid() && cursor <= |units| && (cursor < |units| ==> cache.len == 0 && cache.charLen == 0)
    }

    constructor (units: seq<Unit>, failed: bool)
      ensures Valid() && fresh(cache) && fresh(cache.arr)
      ensures this.units == units && this.failed == failed
      ensures cursor == 0 && state == Start
    {
      this.units := units;
      this.failed := failed;
      cursor := 0;
      state := Start;
      cache := new CharCache();
    }

    /** Hands the cached bytes out as one plain-text token and empties the cache. */
    method GetCache() returns (t: Token)
      requires cache.Valid()
      modifies cache
      ensures cache.Valid() && cache.len == 0 && cache.charLen == 0
      ensures t == PureText(old(cache.Get()), old(cache.charLen))
    {
      t := PureText(cache.Get(), cache.charLen);
      cache.Clear();
    }

    /** Abandons a marker match: replays units `start..cursor`, which the
        cache holds, as one plain-text token. */
    method ReplayCache(ghost start: nat) returns (r: Pull)
      requires start < cursor <= |units| && cache.Valid()
      requires cache.Get() == Flatten(units[start..cursor])
      requires cache.charLen == 1 + UnitsCharLen(units[start + 1..cursor])
      modifies cache
      ensures cache.Valid() && cache.len == 0 && cache.charLen == 0
      ensures r == Emitted(Replay(units, start, cursor))
    {
      var t := GetCache();
      r := Emitted(t);
    }

    /** One pull (`Iterator::next`), with the corrected line state for a
        multi-byte unit. */
    method Next() returns (r: Pull)
      requires Valid()
      modifies this, cache, cache.arr
      ensures Valid()
      ensures Step(r, cursor, state) == NextToken(units, failed, old(cursor), old(state))
    {
      if cursor == |units| {
        r := EndPull(failed);
        return;
      }
      var u := units[cursor];
      cursor := cursor + 1;
      if |u| != 1 {
        state := Other;
        r := Emitted(PureTextOf(u));
        return;
      }
      var b := u[0];
      if b == BACKSLASH {
        if cursor == |units| {
          r := EndPull(failed);
          return;
        }
        var c := units[cursor];
        cursor := cursor + 1;
        state := Other;
        r := Emitted(PureTextOf(c));
      } else if b == SPACE {
        state := Other;
        r := Emitted(Space);
      } else if b == TAB {
        state := TabRun(if state.TabRun? then state.n + 1 else 1);
        r := Emitted(Tab);
      } else if b == LF {
        state := LineFeed;
        r := Emitted(Ln);
      } else if b == CR {
        if cursor == |units| {
          r := if failed then Failed else Emitted(Ln);
        } else {
          if IsByte(units[cursor], LF) {
            cursor := cursor + 1;
          }
          state := LineFeed;
          r := Emitted(Ln);
        }
      } else {
        var lastState := state;
        state := Other;
        if lastState.AtLineStart() && b == HASH {
          r := ReadHeader();
        } else if lastState.AtLineStart() && b == GT {
          r := ReadQuote();
        } else if lastState.AtLineStart() && b == DASH {
          r := ReadTask();
        } else {
          r := Emitted(PureTextOf(u));
        }
      }
    }

    /** The header branch of `next`, entered after the first `#` was read. */
    method ReadHeader() returns (r: Pull)
      requires cache.Valid() && cache.len == 0 && cache.charLen == 0 && state == Other
      requires 1 <= cursor <= |units| && IsByte(units[cursor - 1], HASH)
      modifies this, cache, cache.arr
      ensures Valid()
      ensures Step(r, cursor, state) == HeaderFrom(units, failed, old(cursor) - 1, 1)
    {
      ghost var start := cursor - 1;
      var level := 1;
      cache.Put(HASH);
      CacheHoldsUnits(start);
      while true
        invariant HeaderInv(start, level)
        invariant HeaderFrom(units, failed, start, level) == HeaderFrom(units, failed, start, 1)
        decreases 6 - level
      {
        var stop;
        stop, r, level := HeaderIteration(start, level);
        if stop {
          return;
        }
      }
    }

    /** State of the header match after `level` `#` units. */
    ghost predicate HeaderInv(start: nat, level: nat)
      reads this, cache, cache.arr
    {
      1 <= level <= 6 && cursor == start + level && state == Other
      && Holds(start) && cache.len == level
    }

    /** One pass of the header loop: reads the unit after `level` `#`s and
        either stops the pull or counts one more `#`. */
    method HeaderIteration(ghost start: nat, level: nat) returns (stop: bool, r: Pull, level': nat)
      requires HeaderInv(start, level)
      modifies this, cache, cache.arr
      ensures stop ==> Valid() && Step(r, cursor, state) == HeaderFrom(units, failed, start, level)
      ensures !stop ==> level' == level + 1 && HeaderInv(start, level')
      ensures !stop ==> HeaderFrom(units, failed, start, level) == HeaderFrom(units, failed, start, level')
    {
      level' := level;
      if cursor == |units| {
        if failed {
          return true, Failed, level';
        }
        cache.Clear();
        return true, Emitted(Tag(Header(level))), level';
      }
      stop, r, level' := HeaderUnit(start, level);
    }

    /** The header loop on a unit that is there: a `#` counts, a space
        completes the marker, anything else (or a seventh `#`) replays. */
    method HeaderUnit(ghost start: nat, level: nat) returns (stop: bool, r: Pull, level': nat)
      requires HeaderInv(start, level) && cursor < |units|
      modifies this, cache, cache.arr
      ensures stop ==> Valid() && Step(r, cursor, state) == HeaderFrom(units, failed, start, level)
      ensures !stop ==> level' == level + 1 && HeaderInv(start, level')
      ensures !stop ==> HeaderFrom(units, failed, start, level) == HeaderFrom(units, failed, start, level')
    {
      level' := level;
      ghost var h := HeaderFrom(units, failed, start, level);
      var c := Absorb(start);
      if IsByte(c, HASH) {
        level' := level + 1;
        if level' == 7 {
          assert h == Step(Emitted(Replay(units, start, cursor)), cursor, Other);
          r := ReplayCache(start);
          return true, r, level';
        }
        return false, End, level';
      } else if IsByte(c, SPACE) {
        assert h == Step(Emitted(Tag(Header(level))), cursor, Other);
        cache.Clear();
        return true, Emitted(Tag(Header(level))), level';
      } else {
        assert h == Step(Emitted(Replay(units, start, cursor)), cursor, Other);
        r := ReplayCache(start);
        return true, r, level';
      }
    }

    /** The cache holds exactly the units `start..cursor`, the first one
        `put` and the others `put_chr`. */
    ghost predicate Holds(start: nat)
      reads this, cache, cache.arr
    {
      start < cursor <= |units| && cache.Valid()
      && cache.Get() == Flatten(units[start..cursor])
      && cache.charLen == 1 + UnitsCharLen(units[start + 1..cursor])
    }

    /** Reads the next unit and `put_chr`s it into the cache. */
    method Absorb(ghost start: nat) returns (c: Unit)
      requires Holds(start) && cursor < |units| && cache.len + 4 <= ARRAY_CAP
      modifies this, cache, cache.arr
      ensures c == units[old(cursor)] && cursor == old(cursor) + 1 && state == old(state)
      ensures Holds(start) && cache.len == old(cache.len) + |c|
    {
      c := units[cursor];
      cursor := cursor + 1;
      cache.PutChr(c);
      CacheGrows(start, cursor);
    }

    /** The cache right after the first marker byte holds exactly that unit. */
    lemma CacheHoldsUnits(start: nat)
      requires start < |units| && |units[start]| == 1
      ensures Flatten(units[start..start + 1]) == units[start]
      ensures UnitsCharLen(units[start + 1..start + 1]) == 0
    {
      assert units[start..start + 1] == [units[start]];
      assert [units[start]][..0] == [];
    }

    /** Extending the consumed range by one unit extends the cached bytes and
        the `put_chr` column count by that unit. */
    lemma CacheGrows(start: nat, j: nat)
      requires start < j - 1 < j <= |units|
      ensures Flatten(units[start..j]) == Flatten(units[start..j - 1]) + units[j - 1]
      ensures UnitsCharLen(units[start + 1..j]) == UnitsCharLen(units[start + 1..j - 1]) + |units[j - 1]| + 1
    {
      assert units[start..j][..j - 1 - start] == units[start..j - 1];
      assert units[start + 1..j][..j - 1 - (start + 1)] == units[start + 1..j - 1];
    }

    /** The block-quote branch of `next`, entered after `>` was read. */
    method ReadQuote() returns (r: Pull)
      requires cache.Valid() && cache.len == 0 && cache.charLen == 0 && state == Other
      requires 1 <= cursor <= |units| && IsByte(units[cursor - 1], GT)
      modifies this, cache, cache.arr
      ensures Valid()
      ensures Step(r, cursor, state) == QuoteStep(units, failed, old(cursor) - 1)
    {
      ghost var start := cursor - 1;
      if cursor == |units| {
        r := if failed then Failed else Emitted(PureTextOf([GT]));
        return;
      }
      var c := units[cursor];
      cursor := cursor + 1;
      if IsByte(c, SPACE) {
        r := Emitted(Tag(BlockQuote));
      } else {
        cache.Put(GT);
        CacheHoldsUnits(start);
        cache.PutChr(c);
        CacheGrows(start, cursor);
        r := ReplayCache(start);
      }
    }

    /** The task-list branch of `next`, entered after `-` was read. */
    method ReadTask() returns (r: Pull)
      requires cache.Valid() && cache.len == 0 && cache.charLen == 0 && state == Other
      requires 1 <= cursor <= |units| && IsByte(units[cursor - 1], DASH)
      modifies this, cache, cache.arr
      ensures Valid()
      ensures Step(r, cursor, state) == TaskFrom(units, failed, old(cursor) - 1, 0)
    {
      ghost var start := cursor - 1;
      var isDone := false;
      cache.Put(DASH);
      CacheHoldsUnits(start);
      var k := 0;
      while k < 5
        invariant 0 <= k <= 5 && TaskInv(start, k, isDone)
        decreases 5 - k
      {
        var stop;
        stop, r, isDone := TaskIteration(start, k, isDone);
        if stop {
          return;
        }
        k := k + 1;
      }
      cache.Clear();
      r := Emitted(Tag(TaskList(isDone)));
    }

    /** State of the task match after `k` pattern positions. */
    ghost predicate TaskInv(start: nat, k: nat, isDone: bool)
      reads this, cache, cache.arr
    {
      k <= 5 && cursor == start + 1 + k <= |units| && state == Other && TaskHolds(start)
      && TaskFrom(units, failed, start, k) == TaskFrom(units, failed, start, 0)
      && isDone == (k > 2 && IsByte(units[start + 3], LOWER_X))
    }

    /** One pass of the pattern loop: reads the unit for position `k` and
        either stops the pull or keeps the matched byte. */
    method TaskIteration(ghost start: nat, k: nat, isDone: bool) returns (stop: bool, r: Pull, isDone': bool)
      requires k < 5 && TaskInv(start, k, isDone)
      modifies this, cache, cache.arr
      ensures stop ==> Valid() && Step(r, cursor, state) == TaskFrom(units, failed, start, k)
      ensures !stop ==> TaskInv(start, k + 1, isDone')
    {
      isDone' := isDone;
      if cursor == |units| {
        TaskFromEnd(units, failed, start, k);
        r := EndPull(failed);
        return true, r, isDone';
      }
      var cur := units[cursor];
      cursor := cursor + 1;
      var matched, counter, sawX := MatchPattern(cur, k);
      if !matched {
        r := ReplayMismatch(start, k);
        return true, r, isDone';
      }
      TaskFromMatch(units, failed, start, k);
      if sawX {
        isDone' := true;
      }
      PutMatched(start, counter);
      stop, r := false, End;
    }

    /** Compares one unit with pattern position `k`. At the `?` position a
        space or an `x` matches and is kept as read (`sawX` for an `x`);
        elsewhere the unit must be the pattern byte. */
    static method MatchPattern(cur: Unit, k: nat) returns (matched: bool, counter: byte, sawX: bool)
      requires k < 5
      ensures matched == TaskMatches(cur, k)
      ensures matched ==> IsByte(cur, counter)
      ensures sawX == (k == 2 && IsByte(cur, LOWER_X))
    {
      counter := TASK_PATTERN[k];
      sawX := false;
      matched := true;
      if counter == QUESTION {
        if IsByte(cur, SPACE) {
          counter := SPACE;
        } else if IsByte(cur, LOWER_X) {
          counter := LOWER_X;
          sawX := true;
        } else {
          matched := false;
        }
      } else if !IsByte(cur, counter) {
        matched := false;
      }
    }

    /** During a task match the cache holds the units `start..cursor`, every
        one of them a single byte that was `put` (one column each). */
    ghost predicate TaskHolds(start: nat)
      reads this, cache, cache.arr
    {
      start < cursor <= |units| && cursor - start <= 6 && cache.Valid()
      && cache.len == cursor - start && cache.charLen == cursor - start
      && cache.Get() == Flatten(units[start..cursor])
    }

    /** Keeps a matched pattern byte (`put(counter)`). */
    method PutMatched(ghost start: nat, b: byte)
      requires start + 1 < cursor <= |units| && cursor - 1 - start <= 5 && cache.Valid()
      requires cache.len == cursor - 1 - start && cache.charLen == cursor - 1 - start
      requires cache.Get() == Flatten(units[start..cursor - 1]) && IsByte(units[cursor - 1], b)
      modifies cache, cache.arr
      ensures TaskHolds(start)
    {
      assert units[cursor - 1] == [b];
      cache.Put(b);
      CacheGrows(start, cursor);
    }

    /** Abandons a task match on the mismatching unit just read: the unit is
        `put_chr`ed and the whole cache replayed. */
    method ReplayMismatch(ghost start: nat, ghost k: nat) returns (r: Pull)
      requires k < 5 && cursor == start + 2 + k <= |units| && state == Other
      requires !TaskMatches(units[cursor - 1], k) && cache.Valid()
      requires cache.len == k + 1 && cache.charLen == k + 1
      requires cache.Get() == Flatten(units[start..cursor - 1])
      modifies cache, cache.arr
      ensures Valid()
      ensures Step(r, cursor, state) == TaskFrom(units, failed, start, k)
    {
      TaskFromMismatch(units, failed, start, k);
      cache.PutChr(units[cursor - 1]);
      CacheGrows(start, cursor);
      var t := GetCache();
      r := Emitted(t);
    }
  }
}
