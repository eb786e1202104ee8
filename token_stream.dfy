/** Whole-stream properties of the tokenizer: the token sequence a unit
    stream produces, how it ends, where markers can appear, which bytes it
    carries, and what the escape character does. Every statement is about
    the reference pull functions of module `Tokenizer`, which the imperative
    `Tokenizer.Tokenizer.Next` is proved to follow. */
module TokenStream {
  import opened Bytes
  import opened Tags
  import opened Tokenizer

  /** One pull of either variant: the source as written (`corrected` false)
      or with the corrected line state after a multi-byte unit. */
  function NextOf(corrected: bool, units: seq<Unit>, failed: bool, pos: nat, st: LineState): (r: Step)
    requires pos <= |units|
    ensures r == (if corrected then NextToken(units, failed, pos, st) else NextTokenAsWritten(units, failed, pos, st))
    ensures r.result == NextTokenAsWritten(units, failed, pos, st).result
    ensures r.next == NextTokenAsWritten(units, failed, pos, st).next
  {
    if corrected then NextToken(units, failed, pos, st) else NextTokenAsWritten(units, failed, pos, st)
  }

  /** Everything the iterator yields: its tokens, and whether it stopped on
      an I/O failure rather than a clean end. */
  datatype Stream = Stream(tokens: seq<Token>, failed: bool)

  /** The stream of pulls from unit `pos` in line state `st` on. */
  function TokensFrom(corrected: bool, units: seq<Unit>, failed: bool, pos: nat, st: LineState): (r: Stream)
    requires pos <= |units|
    decreases |units| - pos
  {
    var s := NextOf(corrected, units, failed, pos, st);
    if s.result.Emitted? then
      var rest := TokensFrom(corrected, units, failed, s.next, s.state);
      Stream([s.result.token] + rest.tokens, rest.failed)
    else Stream([], s.result.Failed?)
  }

  /** One pull of the stream: its token ahead of the rest, or the end. */
  lemma TokensFromStep(corrected: bool, units: seq<Unit>, failed: bool, pos: nat, st: LineState)
    requires pos <= |units|
    ensures var s := NextOf(corrected, units, failed, pos, st);
      var ts := TokensFrom(corrected, units, failed, pos, st).tokens;
      if s.result.Emitted? then ts == [s.result.token] + TokensFrom(corrected, units, failed, s.next, s.state).tokens
      else ts == []
  {
  }

  /** The tokens of a whole document, with the corrected line state. */
  function Tokenize(units: seq<Unit>, failed: bool): (r: Stream)
    ensures r.failed == failed
  {
    StreamFailsIffInputFails(true, units, failed, 0, Start);
    TokensFrom(true, units, failed, 0, Start)
  }

  // ---------------------------------------------------------------------
  // How the stream ends.

  /** The stream stops on an I/O failure exactly when the input fails: every
      pull that yields no token is the persistent failure or the clean end. */
  lemma {:induction false} StreamFailsIffInputFails(corrected: bool, units: seq<Unit>, failed: bool, pos: nat, st: LineState)
    requires pos <= |units|
    ensures TokensFrom(corrected, units, failed, pos, st).failed == failed
    decreases |units| - pos
  {
    var s := NextOf(corrected, units, failed, pos, st);
    if s.result.Emitted? {
      StreamFailsIffInputFails(corrected, units, failed, s.next, s.state);
    }
  }

  // ---------------------------------------------------------------------
  // Token widths.

  /** Every token the tokenizer yields has a positive width except `Ln`:
      tags are always indexable (header levels 1 to 6) and plain text is
      at least one column wide. The parser's line count rests on this. */
  predicate TagsIndexed(ts: seq<Token>) {
    forall i :: 0 <= i < |ts| && ts[i].Tag? ==> Indexed(ts[i].tag)
  }

  predicate OnlyLineFeedsZeroWidth(ts: seq<Token>) {
    forall i :: 0 <= i < |ts| ==> (TokenCharLen(ts[i]) == 0 <==> ts[i] == Ln)
  }

  lemma {:induction false} OnlyLineFeedsHaveNoWidth(corrected: bool, units: seq<Unit>, failed: bool, pos: nat, st: LineState)
    requires pos <= |units|
    ensures TagsIndexed(TokensFrom(corrected, units, failed, pos, st).tokens)
    ensures OnlyLineFeedsZeroWidth(TokensFrom(corrected, units, failed, pos, st).tokens)
    decreases |units| - pos
  {
    var s := NextOf(corrected, units, failed, pos, st);
    if s.result.Emitted? {
      OnlyLineFeedsHaveNoWidth(corrected, units, failed, s.next, s.state);
      var rest := TokensFrom(corrected, units, failed, s.next, s.state).tokens;
      var ts := TokensFrom(corrected, units, failed, pos, st).tokens;
      assert ts == [s.result.token] + rest;
      forall i | 1 <= i < |ts|
        ensures ts[i] == rest[i - 1]
      {
      }
    }
  }

  // ---------------------------------------------------------------------
  // Markers only at line start.

  /** Every tag but a first one comes right after a line feed. */
  predicate TagsAfterLineFeeds(ts: seq<Token>) {
    forall i :: 0 < i < |ts| && ts[i].Tag? ==> ts[i - 1] == Ln
  }

  /** With the corrected line state, a tag is the first token of the stream
      (and then the stream started at line start) or follows a line feed. */
  lemma {:induction false} TagsFollowLineFeeds(units: seq<Unit>, failed: bool, pos: nat, st: LineState)
    requires pos <= |units|
    ensures var ts := TokensFrom(true, units, failed, pos, st).tokens;
      |ts| > 0 && ts[0].Tag? ==> st.AtLineStart()
    ensures TagsAfterLineFeeds(TokensFrom(true, units, failed, pos, st).tokens)
    decreases |units| - pos
  {
    var s := NextOf(true, units, failed, pos, st);
    if s.result.Emitted? {
      TagsFollowLineFeeds(units, failed, s.next, s.state);
      var rest := TokensFrom(true, units, failed, s.next, s.state).tokens;
      var ts := TokensFrom(true, units, failed, pos, st).tokens;
      assert ts == [s.result.token] + rest;
      forall i | 1 <= i < |ts|
        ensures ts[i] == rest[i - 1]
      {
      }
    }
  }

  /** In a whole document every tag opens a line. */
  lemma TagsAtLineStart(units: seq<Unit>, failed: bool)
    ensures var ts := Tokenize(units, failed).tokens;
      forall i :: 0 <= i < |ts| && ts[i].Tag? ==> i == 0 || ts[i - 1] == Ln
  {
    TagsFollowLineFeeds(units, failed, 0, Start);
  }

  /** A line that starts with a multi-byte unit `u`, then `# `. */
  function TextThenHash(u: Unit): (r: seq<Unit>)
    ensures |r| == 3 && r[0] == u && IsByte(r[1], HASH) && IsByte(r[2], SPACE)
  {
    [u, [HASH], [SPACE]]
  }

  /** As written, a multi-byte unit at line start keeps the tokenizer at line
      start, so the `#` after it is read as a header marker in the middle of
      a line. */
  lemma AsWrittenTagAfterText(u: Unit)
    requires |u| > 1
    ensures TokensFrom(false, TextThenHash(u), false, 0, Start).tokens == [PureText(u, 1), Tag(Header(1))]
  {
    var us := TextThenHash(u);
    assert NextTokenAsWritten(us, false, 0, Start) == Step(Emitted(PureText(u, 1)), 1, Start);
    assert HeaderFrom(us, false, 1, 1) == Step(Emitted(Tag(Header(1))), 3, Other);
    assert NextTokenAsWritten(us, false, 1, Start) == Step(Emitted(Tag(Header(1))), 3, Other);
    assert TokensFrom(false, us, false, 3, Other).tokens == [];
    assert TokensFrom(false, us, false, 1, Start).tokens == [Tag(Header(1))];
  }

  /** With the corrected state the `#` after a multi-byte unit is plain text. */
  lemma TextThenHashIsText(u: Unit)
    requires |u| > 1
    ensures TokensFrom(true, TextThenHash(u), false, 0, Start) == Stream([PureText(u, 1), PureText([HASH], 1), Space], false)
  {
    var us := TextThenHash(u);
    assert NextToken(us, false, 0, Start) == Step(Emitted(PureText(u, 1)), 1, Other);
    assert NextToken(us, false, 1, Other) == Step(Emitted(PureText([HASH], 1)), 2, Other);
    assert NextToken(us, false, 2, Other) == Step(Emitted(Space), 3, Other);
    assert TokensFrom(true, us, false, 3, Other) == Stream([], false);
    assert TokensFrom(true, us, false, 2, Other) == Stream([Space], false);
    assert TokensFrom(true, us, false, 1, Other) == Stream([PureText([HASH], 1), Space], false);
  }

  // ---------------------------------------------------------------------
  // Replayed text fits the cache.

  /** No plain-text token is longer than the replay cache: a replay holds at
      most six single-byte marker units and one unit of up to four bytes. */
  predicate TextsFitCache(ts: seq<Token>) {
    forall i :: 0 <= i < |ts| && ts[i].PureText? ==> |ts[i].data| <= ARRAY_CAP
  }

  lemma {:induction false} TextFitsCache(corrected: bool, units: seq<Unit>, failed: bool, pos: nat, st: LineState)
    requires pos <= |units|
    ensures TextsFitCache(TokensFrom(corrected, units, failed, pos, st).tokens)
    decreases |units| - pos
  {
    var s := NextOf(corrected, units, failed, pos, st);
    if s.result.Emitted? {
      StepFitsCache(units, failed, pos, st);
      TextFitsCache(corrected, units, failed, s.next, s.state);
      var rest := TokensFrom(corrected, units, failed, s.next, s.state).tokens;
      var ts := TokensFrom(corrected, units, failed, pos, st).tokens;
      assert ts == [s.result.token] + rest;
      forall i | 1 <= i < |ts|
        ensures ts[i] == rest[i - 1]
      {
      }
    }
  }

  lemma StepFitsCache(units: seq<Unit>, failed: bool, pos: nat, st: LineState)
    requires pos < |units|
    ensures var s := NextTokenAsWritten(units, failed, pos, st);
      s.result.Emitted? && s.result.token.PureText? ==> |s.result.token.data| <= ARRAY_CAP
  {
    var u := units[pos];
    if |u| == 1 && st.AtLineStart() {
      if u[0] == HASH {
        HeaderFitsCache(units, failed, pos, 1);
      } else if u[0] == GT && pos + 2 <= |units| {
        FlattenSizes(units[pos..pos + 2], 1);
      } else if u[0] == DASH {
        TaskFitsCache(units, failed, pos, 0);
      }
    }
  }

  lemma {:induction false} HeaderFitsCache(units: seq<Unit>, failed: bool, pos: nat, level: nat)
    requires 1 <= level <= 6 && pos + level <= |units|
    requires forall i :: pos <= i < pos + level ==> |units[i]| == 1
    ensures var s := HeaderFrom(units, failed, pos, level);
      s.result.Emitted? && s.result.token.PureText? ==> |s.result.token.data| <= ARRAY_CAP
    decreases 6 - level
  {
    var j := pos + level;
    if j < |units| {
      if IsByte(units[j], HASH) && level < 6 {
        HeaderFitsCache(units, failed, pos, level + 1);
      } else {
        FlattenSizes(units[pos..j + 1], level);
      }
    }
  }

  lemma {:induction false} TaskFitsCache(units: seq<Unit>, failed: bool, pos: nat, k: nat)
    requires k <= 5 && pos + 1 + k <= |units|
    requires forall i :: pos <= i < pos + 1 + k ==> |units[i]| == 1
    ensures var s := TaskFrom(units, failed, pos, k);
      s.result.Emitted? && s.result.token.PureText? ==> |s.result.token.data| <= ARRAY_CAP
    decreases 5 - k
  {
    var j := pos + 1 + k;
    if k < 5 && j < |units| {
      if TaskMatches(units[j], k) {
        TaskFitsCache(units, failed, pos, k + 1);
      } else {
        FlattenSizes(units[pos..j + 1], k + 1);
      }
    }
  }

  /** A run of single-byte units followed by one unit flattens to at most
      the run length plus four bytes. */
  lemma FlattenSizes(us: seq<Unit>, n: nat)
    requires n + 1 == |us|
    requires forall i :: 0 <= i < n ==> |us[i]| == 1
    ensures |Flatten(us)| <= n + 4
  {
    FlattenSingles(us[..n]);
    assert us == us[..n] + [us[n]];
    FlattenSnoc(us[..n], us[n]);
  }

  /** Single-byte units flatten to their bytes, one per unit. */
  lemma {:induction false} FlattenSingles(us: seq<Unit>)
    requires forall i :: 0 <= i < |us| ==> |us[i]| == 1
    ensures |Flatten(us)| == |us|
    ensures forall i :: 0 <= i < |us| ==> Flatten(us)[i] == us[i][0]
  {
    if us != [] {
      FlattenSingles(us[..|us| - 1]);
    }
  }

  // ---------------------------------------------------------------------
  // Byte conservation.

  /** The source text a marker stands for. Its length is the marker's width
      in columns (`Tag::char_len`). */
  function MarkerText(t: Tag): (r: Bytes)
    ensures |r| == CharLen(t)
  {
    match t
    case None => []
    case Header(level) => Repeat(HASH, level) + [SPACE]
    case BlockQuote => [GT, SPACE]
    case TaskList(done) => [DASH, SPACE, LBRACKET, if done then LOWER_X else SPACE, RBRACKET, SPACE]
  }

  /** The source bytes a token stands for. */
  function TokenText(t: Token): Bytes {
    match t
    case Space => [SPACE]
    case Tab => [TAB]
    case Ln => [LF]
    case Tag(tag) => MarkerText(tag)
    case PureText(data, _) => data
  }

  function Texts(ts: seq<Token>): Bytes {
    if ts == [] then [] else TokenText(ts[0]) + Texts(ts[1..])
  }

  /** Input without the two characters the tokenizer rewrites: the escape
      `\` (dropped) and the carriage return (read as a line feed). */
  predicate Unescaped(units: seq<Unit>) {
    forall i :: 0 <= i < |units| ==> !IsByte(units[i], BACKSLASH) && !IsByte(units[i], CR)
  }

  /** Input whose last unit is a line feed, so no marker is cut off by the
      end of the stream. */
  predicate EndsWithLineFeed(units: seq<Unit>) {
    |units| > 0 && IsByte(units[|units| - 1], LF)
  }

  /** For such input, the tokens carry exactly the input bytes, in order:
      nothing is lost or invented by the lookahead and replay. */
  lemma ByteConservation(corrected: bool, units: seq<Unit>, failed: bool)
    requires Unescaped(units) && EndsWithLineFeed(units)
    ensures Texts(TokensFrom(corrected, units, failed, 0, Start).tokens) == Flatten(units)
  {
    KeepsBytesFrom(corrected, units, failed, 0, Start);
    assert units[0..] == units;
  }

  lemma {:induction false} KeepsBytesFrom(corrected: bool, units: seq<Unit>, failed: bool, pos: nat, st: LineState)
    requires pos <= |units| && Unescaped(units) && EndsWithLineFeed(units)
    ensures Texts(TokensFrom(corrected, units, failed, pos, st).tokens) == Flatten(units[pos..])
    decreases |units| - pos
  {
    if pos == |units| {
      assert units[pos..] == [];
    } else {
      var s := NextOf(corrected, units, failed, pos, st);
      StepKeepsBytes(units, failed, pos, st);
      KeepsBytesFrom(corrected, units, failed, s.next, s.state);
      var t := s.result.token;
      var rest := TokensFrom(corrected, units, failed, s.next, s.state).tokens;
      TokensFromStep(corrected, units, failed, pos, st);
      GlueTexts(units, pos, s.next, t, rest);
    }
  }

  /** A token carrying units `pos..next` ahead of tokens carrying the rest
      carries everything from `pos` on. */
  lemma GlueTexts(units: seq<Unit>, pos: nat, next: nat, t: Token, rest: seq<Token>)
    requires pos <= next <= |units|
    requires TokenText(t) == Flatten(units[pos..next]) && Texts(rest) == Flatten(units[next..])
    ensures Texts([t] + rest) == Flatten(units[pos..])
  {
    assert ([t] + rest)[0] == t && ([t] + rest)[1..] == rest;
    assert units[pos..] == units[pos..next] + units[next..];
    FlattenAppend(units[pos..next], units[next..]);
  }

  /** One pull over such input yields a token whose text is exactly the
      units it consumed. */
  lemma StepKeepsBytes(units: seq<Unit>, failed: bool, pos: nat, st: LineState)
    requires pos < |units| && Unescaped(units) && EndsWithLineFeed(units)
    ensures var s := NextTokenAsWritten(units, failed, pos, st);
      s.result.Emitted? && TokenText(s.result.token) == Flatten(units[pos..s.next])
  {
    var u := units[pos];
    assert units[pos..pos + 1] == [u];
    FlattenSnoc([], u);
    assert !IsByte(u, BACKSLASH) && !IsByte(u, CR);
    if |u| == 1 {
      assert u == [u[0]];
      if st.AtLineStart() {
        if u[0] == HASH {
          HeaderKeepsBytes(units, failed, pos, 1);
        } else if u[0] == GT {
          QuoteKeepsBytes(units, failed, pos);
        } else if u[0] == DASH {
          TaskKeepsBytes(units, failed, pos, 0);
        }
      }
    }
  }

  lemma QuoteKeepsBytes(units: seq<Unit>, failed: bool, pos: nat)
    requires pos < |units| && IsByte(units[pos], GT) && EndsWithLineFeed(units)
    ensures var s := QuoteStep(units, failed, pos);
      s.result.Emitted? && TokenText(s.result.token) == Flatten(units[pos..s.next])
  {
    assert pos + 1 < |units|;
    assert units[pos..pos + 2] == [units[pos], units[pos + 1]];
    FlattenSnoc([units[pos]], units[pos + 1]);
    FlattenSnoc([], units[pos]);
    assert units[pos] == [GT];
    if IsByte(units[pos + 1], SPACE) {
      assert units[pos + 1] == [SPACE];
    }
  }

  lemma {:induction false} HeaderKeepsBytes(units: seq<Unit>, failed: bool, pos: nat, level: nat)
    requires 1 <= level <= 6 && pos + level <= |units| && EndsWithLineFeed(units)
    requires forall i :: pos <= i < pos + level ==> IsByte(units[i], HASH)
    ensures var s := HeaderFrom(units, failed, pos, level);
      s.result.Emitted? && TokenText(s.result.token) == Flatten(units[pos..s.next])
    decreases 6 - level
  {
    var j := pos + level;
    assert IsByte(units[j - 1], HASH);
    if j < |units| && IsByte(units[j], HASH) && level < 6 {
      HeaderKeepsBytes(units, failed, pos, level + 1);
    } else {
      assert j < |units|;
      if IsByte(units[j], HASH) || !IsByte(units[j], SPACE) {
        HeaderReplayKeepsBytes(units, failed, pos, level);
      } else {
        HeaderMarkerKeepsBytes(units, failed, pos, level);
      }
    }
  }

  /** The header match gives up at unit `pos + level`: every unit read is
      replayed. */
  lemma HeaderReplayKeepsBytes(units: seq<Unit>, failed: bool, pos: nat, level: nat)
    requires 1 <= level <= 6 && pos + level < |units|
    requires IsByte(units[pos + level], HASH) ==> level == 6
    requires !IsByte(units[pos + level], HASH) ==> !IsByte(units[pos + level], SPACE)
    ensures var s := HeaderFrom(units, failed, pos, level);
      s.result.Emitted? && TokenText(s.result.token) == Flatten(units[pos..s.next])
  {
    var j := pos + level;
    var s := HeaderFrom(units, failed, pos, level);
    assert s == Step(Emitted(Replay(units, pos, j + 1)), j + 1, Other);
  }

  /** The header match ends on a space: the marker. */
  lemma HeaderMarkerKeepsBytes(units: seq<Unit>, failed: bool, pos: nat, level: nat)
    requires 1 <= level <= 6 && pos + level < |units| && IsByte(units[pos + level], SPACE)
    requires forall i :: pos <= i < pos + level ==> IsByte(units[i], HASH)
    ensures var s := HeaderFrom(units, failed, pos, level);
      s.result.Emitted? && TokenText(s.result.token) == Flatten(units[pos..s.next])
  {
    var s := HeaderFrom(units, failed, pos, level);
    assert s == Step(Emitted(Tag(Header(level))), pos + level + 1, Other);
    HashesThenSpace(units, pos, level);
  }

  /** `level` `#` units and a space read as one marker's text. */
  lemma HashesThenSpace(units: seq<Unit>, pos: nat, level: nat)
    requires pos + level < |units| && IsByte(units[pos + level], SPACE)
    requires forall i :: pos <= i < pos + level ==> IsByte(units[i], HASH)
    ensures Flatten(units[pos..pos + level + 1]) == Repeat(HASH, level) + [SPACE]
  {
    var j := pos + level;
    var hashes := units[pos..j];
    FlattenSingles(hashes);
    assert Flatten(hashes) == Repeat(HASH, level);
    assert units[pos..j + 1] == hashes + [units[j]];
    FlattenSnoc(hashes, units[j]);
    assert units[j] == [SPACE];
  }

  /** The pattern bytes matched so far are single bytes other than a line feed. */
  lemma TaskMatchIsByte(u: Unit, k: nat)
    requires k < 5 && TaskMatches(u, k)
    ensures |u| == 1 && u[0] != LF
  {
  }

  lemma {:induction false} TaskKeepsBytes(units: seq<Unit>, failed: bool, pos: nat, k: nat)
    requires k <= 5 && pos + 1 + k <= |units| && EndsWithLineFeed(units)
    requires IsByte(units[pos], DASH)
    requires forall i :: pos < i <= pos + k ==> TaskMatches(units[i], i - pos - 1)
    ensures var s := TaskFrom(units, failed, pos, k);
      s.result.Emitted? && TokenText(s.result.token) == Flatten(units[pos..s.next])
    decreases 5 - k
  {
    var j := pos + 1 + k;
    assert j < |units| by {
      if k == 0 {
        assert units[j - 1][0] != LF;
      } else {
        assert TaskMatches(units[j - 1], k - 1);
        TaskMatchIsByte(units[j - 1], k - 1);
      }
    }
    if k < 5 && TaskMatches(units[j], k) {
      assert forall i :: pos < i <= pos + k + 1 ==> TaskMatches(units[i], i - pos - 1);
      TaskKeepsBytes(units, failed, pos, k + 1);
    } else if k == 5 {
      TaskMarkerKeepsBytes(units, failed, pos);
    } else {
      TaskMismatchKeepsBytes(units, failed, pos, k);
    }
  }

  /** All five pattern positions matched: the marker. */
  lemma TaskMarkerKeepsBytes(units: seq<Unit>, failed: bool, pos: nat)
    requires pos + 6 <= |units| && IsByte(units[pos], DASH)
    requires forall i :: pos < i <= pos + 5 ==> TaskMatches(units[i], i - pos - 1)
    ensures var s := TaskFrom(units, failed, pos, 5);
      s.result.Emitted? && TokenText(s.result.token) == Flatten(units[pos..s.next])
  {
    var s := TaskFrom(units, failed, pos, 5);
    assert s == Step(Emitted(Tag(TaskList(IsByte(units[pos + 3], LOWER_X)))), pos + 6, Other);
    TaskListKeepsBytes(units, pos);
  }

  /** A mismatch at position `k`: every unit read is replayed. */
  lemma TaskMismatchKeepsBytes(units: seq<Unit>, failed: bool, pos: nat, k: nat)
    requires k < 5 && pos + 1 + k < |units| && !TaskMatches(units[pos + 1 + k], k)
    ensures var s := TaskFrom(units, failed, pos, k);
      s.result.Emitted? && TokenText(s.result.token) == Flatten(units[pos..s.next])
  {
    var j := pos + 1 + k;
    var s := TaskFrom(units, failed, pos, k);
    assert s == Step(Emitted(PureText(Flatten(units[pos..j + 1]), 1 + k + |units[j]| + 1)), j + 1, Other);
  }

  /** A fully matched task marker stands for exactly the six units read. */
  lemma TaskListKeepsBytes(units: seq<Unit>, pos: nat)
    requires pos + 6 <= |units| && IsByte(units[pos], DASH)
    requires forall i :: pos < i <= pos + 5 ==> TaskMatches(units[i], i - pos - 1)
    ensures Flatten(units[pos..pos + 6]) == MarkerText(TaskList(IsByte(units[pos + 3], LOWER_X)))
  {
    var us := units[pos..pos + 6];
    assert TaskMatches(units[pos + 1], 0) && TaskMatches(units[pos + 2], 1) && TaskMatches(units[pos + 3], 2);
    assert TaskMatches(units[pos + 4], 3) && TaskMatches(units[pos + 5], 4);
    assert TASK_PATTERN == [SPACE, LBRACKET, QUESTION, RBRACKET, SPACE];
    FlattenSingles(us);
  }

  // ---------------------------------------------------------------------
  // The escape character.

  /** Every unit preceded by `\`. */
  function Escape(us: seq<Unit>): (r: seq<Unit>)
    ensures |r| == 2 * |us|
  {
    if us == [] then [] else [[BACKSLASH], us[0]] + Escape(us[1..])
  }

  /** Each unit as a one-column plain-text token of its own. */
  function Literals(us: seq<Unit>): (r: seq<Token>)
    ensures |r| == |us|
  {
    if us == [] then [] else [PureTextOf(us[0])] + Literals(us[1..])
  }

  /** Escaping is undone by tokenizing: any escaped text (markers, line
      breaks and `\` included) comes back unit by unit as plain text, the
      escapes dropped, in either line state and either variant. */
  lemma EscapeRoundTrip(corrected: bool, us: seq<Unit>, failed: bool, st: LineState)
    ensures TokensFrom(corrected, Escape(us), failed, 0, st) == Stream(Literals(us), failed)
  {
    EscapedFrom(corrected, Escape(us), us, failed, 0, st);
  }

  lemma {:induction false} EscapedFrom(corrected: bool, units: seq<Unit>, us: seq<Unit>, failed: bool, pos: nat, st: LineState)
    requires pos <= |units| && units[pos..] == Escape(us)
    ensures TokensFrom(corrected, units, failed, pos, st) == Stream(Literals(us), failed)
    decreases us
  {
    if us != [] {
      assert units[pos] == [BACKSLASH] && units[pos + 1] == us[0];
      assert units[pos + 2..] == units[pos..][2..];
      EscapedFrom(corrected, units, us[1..], failed, pos + 2, Other);
    }
  }

  // ---------------------------------------------------------------------
  // Tab runs.

  /** The step reached after `n` pulls (or at the first pull that yields no
      token). */
  function Drive(corrected: bool, units: seq<Unit>, failed: bool, pos: nat, st: LineState, n: nat): (r: Step)
    requires pos <= |units| && n >= 1
    ensures r.next <= |units|
    decreases n
  {
    var s := NextOf(corrected, units, failed, pos, st);
    if n == 1 || !s.result.Emitted? then s else Drive(corrected, units, failed, s.next, s.state, n - 1)
  }

  /** `n` consecutive tabs yield `n` tab tokens and a line state counting
      them on top of the tabs just before. */
  lemma {:induction false} TabsCount(corrected: bool, units: seq<Unit>, failed: bool, pos: nat, st: LineState, n: nat)
    requires n >= 1 && pos + n <= |units|
    requires forall i :: pos <= i < pos + n ==> IsByte(units[i], TAB)
    ensures Drive(corrected, units, failed, pos, st, n)
      == Step(Emitted(Tab), pos + n, TabRun((if st.TabRun? then st.n else 0) + n))
    decreases n
  {
    assert IsByte(units[pos], TAB);
    if n > 1 {
      var s := NextOf(corrected, units, failed, pos, st);
      TabsCount(corrected, units, failed, pos + 1, s.state, n - 1);
    }
  }
}
