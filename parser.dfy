/** The parser (src/parser.rs): a state machine over the token stream that
    drives the mapper, opening a construct at a marker, closing a header at
    the end of its line and a block at a blank line or at the next marker,
    and emitting the style block at the end of the document.

    The reference definitions are pure: `Transition` is one token,
    `Feed` a token sequence, `Render` a whole document. `StatefulParser`
    is the object of the source, proved to follow them. */
module Parsing {
  import opened Bytes
  import opened Tags
  import opened Html
  import Tokenizer
  import TokenStream
  import Mapping

  type Token = Tokenizer.Token

  datatype State = Start | PureText | Ln | Tag(tag: Tag) | Value | BlockValueLn {
    /** The states in which a marker may arrive: line start outside any
        block, and a new line inside a block. */
    predicate TakesTag() { Start? || Ln? || BlockValueLn? }
  }

  /** What the parser carries from token to token: its state, the open
      construct (`last_tag`) and the writer's style slots. */
  datatype Ctx = Ctx(state: State, lastTag: Tag, used: seq<bool>)

  const INITIAL: Ctx := Ctx(Start, None, NONE_USED)

  /** The context invariant: no construct is open outside a block, the
      state `Tag(t)` has `t` open, and inside a block the open construct
      has a style slot. */
  predicate Consistent(c: Ctx) {
    |c.used| == TAG_LEN
    && (c.state.Start? || c.state.PureText? || c.state.Ln? ==> c.lastTag.None?)
    && (c.state.Tag? ==> c.lastTag == c.state.tag && Indexed(c.lastTag))
    && (c.state.Value? || c.state.BlockValueLn? ==> Indexed(c.lastTag))
  }

  /** The result of feeding tokens: the new context and the bytes written,
      or a panic of the source (`unreachable!` or a tag without a slot). */
  datatype Outcome = Running(ctx: Ctx, out: Bytes) | Panic

  /** Slots are only ever set while tokens are fed. */
  predicate Grows(before: seq<bool>, after: seq<bool>) {
    |before| == |after| && forall i :: 0 <= i < |before| && before[i] ==> after[i]
  }

  /** `solve_end`: the open construct's end string, its slot marked, nothing
      open any more; the source panics when no slot exists. */
  function Close(s: Schema, c: Ctx): Outcome
    requires |c.used| == TAG_LEN
  {
    if Indexed(c.lastTag) then Running(c.(lastTag := None, used := Mark(c.used, c.lastTag)), EndTag(s, c.lastTag))
    else Panic
  }

  /** `solve_start`: the start string and a line end; `t` is now open. */
  function Open(s: Schema, c: Ctx, t: Tag): Outcome {
    if Indexed(t) then Running(c.(state := Tag(t), lastTag := t), StartTag(s, t) + [LF]) else Panic
  }

  /** The bytes `o` written before an outcome. */
  function After(o: Bytes, r: Outcome): Outcome {
    match r
    case Panic => Panic
    case Running(c, o2) => Running(c, o + o2)
  }

  /** One token of `parse_and_write`. It panics exactly on a marker outside
      the states that take one (or a marker without a slot), keeps the
      context invariant, never clears a style slot, and a line feed always
      leaves the parser at a state that takes a marker. */
  function Transition(s: Schema, c: Ctx, tok: Token): (r: Outcome)
    requires |c.used| == TAG_LEN
    ensures r.Running? ==> Grows(c.used, r.ctx.used)
    ensures Consistent(c) ==> (r.Panic? <==> tok.Tag? && !(c.state.TakesTag() && Indexed(tok.tag)))
    ensures Consistent(c) && r.Running? ==> Consistent(r.ctx)
    ensures r.Running? && tok.Ln? ==> r.ctx.state.Ln? || r.ctx.state.BlockValueLn?
  {
    if c.state.Start? || c.state.Ln? then
      match tok
      case Space => Running(c.(state := PureText), NBSP)
      case Tab => Running(c.(state := PureText), TAB_HTML)
      case Ln => Running(c.(state := Ln), BR + [LF])
      case Tag(t) => Open(s, c, t)
      case PureText(data, _) => Running(c.(state := PureText), data)
    else if c.state.PureText? then
      match tok
      case Space => Running(c, NBSP)
      case Tab => Running(c, TAB_HTML)
      case Ln => Running(c.(state := Ln), BR + [LF])
      case Tag(_) => Panic
      case PureText(data, _) => Running(c, data)
    else if c.state.Tag? || c.state.Value? then
      match tok
      case Space => Running(c.(state := Value), NBSP)
      case Tab => Running(c.(state := Value), TAB_HTML)
      case Ln =>
        if c.lastTag.Header? then
          if 1 <= c.lastTag.level <= 6 then
            Running(c.(state := Ln, lastTag := None), HeaderEnd(s, c.lastTag.level) + [LF])
          else Panic
        else Running(c.(state := BlockValueLn), BR + [LF])
      case Tag(_) => Panic
      case PureText(data, _) => Running(c.(state := Value), data)
    else
      match tok
      case Space => Running(c, NBSP)
      case Tab => Running(c, TAB_HTML)
      case Ln =>
        (match Close(s, c)
         case Panic => Panic
         case Running(c1, o) => Running(c1.(state := Ln), o))
      case Tag(t) =>
        (match Close(s, c)
         case Panic => Panic
         case Running(c1, o) => After(o, Open(s, c1, t)))
      case PureText(data, _) => Running(c.(state := Value), data)
  }

  /** The tokens fed one after the other. */
  function Feed(s: Schema, c: Ctx, ts: seq<Token>): (r: Outcome)
    requires |c.used| == TAG_LEN
    ensures r.Running? ==> Grows(c.used, r.ctx.used)
    decreases |ts|
  {
    if ts == [] then Running(c, [])
    else
      match Transition(s, c, ts[0])
      case Panic => Panic
      case Running(c1, o) => After(o, Feed(s, c1, ts[1..]))
  }

  /** End of stream as written: `solve_end` on whatever is open, then the
      style block. It panics exactly when nothing is open, which is how
      every document that ends outside a block ends. */
  function FinishAsWritten(s: Schema, c: Ctx): (r: Outcome)
    requires |c.used| == TAG_LEN
    ensures Consistent(c) ==> (r.Panic? <==> c.lastTag.None?)
  {
    match Close(s, c)
    case Panic => Panic
    case Running(c1, o) => Running(Ctx(c1.state, c1.lastTag, NONE_USED), o + StyleBlock(s, c1.used))
  }

  /** End of stream with the close guarded by `last_tag != None`: the open
      construct is closed and marked, then exactly one style block lists
      every slot marked so far, and all slots are cleared. */
  function Finish(s: Schema, c: Ctx): (r: Outcome)
    requires |c.used| == TAG_LEN
    ensures Consistent(c) ==> r.Running?
    ensures r.Running? ==> r.ctx.lastTag.None? && r.ctx.used == NONE_USED
    ensures r.Running? ==>
      (c.lastTag.None? || Indexed(c.lastTag))
      && r.out == EndTag(s, c.lastTag) + StyleBlock(s, if c.lastTag.None? then c.used else Mark(c.used, c.lastTag))
  {
    if c.lastTag.None? then Running(Ctx(c.state, c.lastTag, NONE_USED), StyleBlock(s, c.used))
    else FinishAsWritten(s, c)
  }

  /** How `parse_and_write` returns: `Ok`, or the I/O error of the input. */
  datatype Status = Ok | IoError

  /** A whole run: how it returned and every byte it wrote, or a panic. */
  datatype Rendered = Rendered(status: Status, out: Bytes) | Panicked

  function Prepend(o: Bytes, r: Rendered): Rendered {
    match r
    case Panicked => Panicked
    case Rendered(st, o2) => Rendered(st, o + o2)
  }

  /** A run over a token stream: a panic while feeding is final; a failed
      stream returns the error with nothing more written; a clean end
      closes and writes the style block. */
  function Complete(corrected: bool, s: Schema, fed: Outcome, failed: bool): Rendered
    requires fed.Running? ==> |fed.ctx.used| == TAG_LEN
  {
    match fed
    case Panic => Panicked
    case Running(c, o) =>
      if failed then Rendered(IoError, o)
      else
        match (if corrected then Finish(s, c) else FinishAsWritten(s, c))
        case Panic => Panicked
        case Running(_, o2) => Rendered(Ok, o + o2)
  }

  /** A whole document: the tokenizer and parser as written (`corrected`
      false), or with both corrections. */
  function Render(corrected: bool, s: Schema, units: seq<Unit>, failed: bool): Rendered {
    var stream := TokenStream.TokensFrom(corrected, units, failed, 0, Tokenizer.Start);
    Complete(corrected, s, Feed(s, INITIAL, stream.tokens), stream.failed)
  }

  /** The same run pulled token by token, the way the parser's loop goes. */
  function RenderFrom(corrected: bool, s: Schema, units: seq<Unit>, failed: bool, pos: nat, st: Tokenizer.LineState, c: Ctx): Rendered
    requires pos <= |units| && |c.used| == TAG_LEN
    decreases |units| - pos
  {
    var step := TokenStream.NextOf(corrected, units, failed, pos, st);
    match step.result
    case End =>
      (match (if corrected then Finish(s, c) else FinishAsWritten(s, c))
       case Panic => Panicked
       case Running(_, o) => Rendered(Ok, o))
    case Failed => Rendered(IoError, [])
    case Emitted(tok) =>
      match Transition(s, c, tok)
      case Panic => Panicked
      case Running(c1, o) => Prepend(o, RenderFrom(corrected, s, units, failed, step.next, step.state, c1))
  }

  // ---------------------------------------------------------------------
  // The two definitions agree.

  lemma {:induction false} RenderFromIsRender(corrected: bool, s: Schema, units: seq<Unit>, failed: bool, pos: nat, st: Tokenizer.LineState, c: Ctx)
    requires pos <= |units| && |c.used| == TAG_LEN
    ensures RenderFrom(corrected, s, units, failed, pos, st, c)
      == Complete(corrected, s, Feed(s, c, TokenStream.TokensFrom(corrected, units, failed, pos, st).tokens),
                  TokenStream.TokensFrom(corrected, units, failed, pos, st).failed)
    decreases |units| - pos
  {
    var step := TokenStream.NextOf(corrected, units, failed, pos, st);
    if step.result.Emitted? {
      var tok := step.result.token;
      var stream := TokenStream.TokensFrom(corrected, units, failed, pos, st);
      var rest := TokenStream.TokensFrom(corrected, units, failed, step.next, step.state);
      assert stream.tokens == [tok] + rest.tokens && stream.failed == rest.failed;
      assert stream.tokens[0] == tok && stream.tokens[1..] == rest.tokens;
      match Transition(s, c, tok)
      case Panic =>
      case Running(c1, o) =>
        RenderFromIsRender(corrected, s, units, failed, step.next, step.state, c1);
        AfterComplete(corrected, s, o, Feed(s, c1, rest.tokens), rest.failed);
    }
  }

  lemma AfterComplete(corrected: bool, s: Schema, o: Bytes, fed: Outcome, failed: bool)
    requires fed.Running? ==> |fed.ctx.used| == TAG_LEN
    ensures Complete(corrected, s, After(o, fed), failed) == Prepend(o, Complete(corrected, s, fed, failed))
  {
    if fed.Running? && !failed {
      var fin := if corrected then Finish(s, fed.ctx) else FinishAsWritten(s, fed.ctx);
      if fin.Running? {
        assert o + fed.out + fin.out == o + (fed.out + fin.out);
      }
    }
  }

  // ---------------------------------------------------------------------
  // The corrected pipeline never panics.

  /** A token stream whose markers all have slots and all open a line is
      fed without a panic from any consistent context that takes a marker
      first, and the context stays consistent. */
  lemma {:induction false} FeedNeverPanics(s: Schema, c: Ctx, ts: seq<Token>)
    requires Consistent(c)
    requires TokenStream.TagsIndexed(ts) && TokenStream.TagsAfterLineFeeds(ts)
    requires |ts| > 0 && ts[0].Tag? ==> c.state.TakesTag()
    ensures Feed(s, c, ts).Running? && Consistent(Feed(s, c, ts).ctx)
    decreases |ts|
  {
    if ts != [] {
      var r := Transition(s, c, ts[0]);
      var rest := ts[1..];
      assert forall i :: 0 <= i < |rest| ==> rest[i] == ts[i + 1];
      FeedNeverPanics(s, r.ctx, rest);
    }
  }

  /** Every document runs to its end: it returns `IoError` exactly when the
      input fails and `Ok` otherwise. */
  lemma NeverPanics(s: Schema, units: seq<Unit>, failed: bool)
    ensures Render(true, s, units, failed).Rendered?
    ensures Render(true, s, units, failed).status == (if failed then IoError else Ok)
  {
    var stream := TokenStream.TokensFrom(true, units, failed, 0, Tokenizer.Start);
    TokenStream.OnlyLineFeedsHaveNoWidth(true, units, failed, 0, Tokenizer.Start);
    TokenStream.TagsFollowLineFeeds(units, failed, 0, Tokenizer.Start);
    TokenStream.StreamFailsIffInputFails(true, units, failed, 0, Tokenizer.Start);
    FeedNeverPanics(s, INITIAL, stream.tokens);
  }

  // ---------------------------------------------------------------------
  // Findings: the two ways the source as written panics.

  /** As written the empty document panics: the end of the stream closes
      `None`. */
  lemma EmptyDocumentPanics(s: Schema)
    ensures Render(false, s, [], false) == Panicked
  {
  }

  /** With the guarded close the empty document is only the empty style block. */
  lemma EmptyDocumentRenders(s: Schema)
    ensures Render(true, s, [], false) == Rendered(Ok, [LF] + s.cssTagStart + [LF] + s.cssTagEnd)
  {
    EmptyStyleBlock(s);
  }

  /** As written a line of a multi-byte character (say `é`) and `# ` panics
      on a marker in the middle of a line. */
  lemma TextThenHashPanics(s: Schema, u: Unit)
    requires |u| > 1
    ensures Render(false, s, TokenStream.TextThenHash(u), false) == Panicked
  {
    TokenStream.AsWrittenTagAfterText(u);
    var text: Token := Tokenizer.PureText(u, 1);
    var open: Token := Tokenizer.Tag(Header(1));
    var c1 := Ctx(PureText, None, NONE_USED);
    FeedOne(s, INITIAL, text);
    FeedAppend(s, INITIAL, [text], [open], c1, u);
    FeedOne(s, c1, open);
    assert [text] + [open] == [text, open];
  }

  /** With the corrected line state the same line is the text, the `#` and
      a space. */
  lemma TextThenHashRenders(s: Schema, u: Unit)
    requires |u| > 1
    ensures Render(true, s, TokenStream.TextThenHash(u), false)
      == Rendered(Ok, u + [HASH] + NBSP + [LF] + s.cssTagStart + [LF] + s.cssTagEnd)
  {
    TokenStream.TextThenHashIsText(u);
    var ts := [Tokenizer.PureText(u, 1), Tokenizer.PureText([HASH], 1), Tokenizer.Space];
    var o := u + [HASH] + NBSP;
    TextThenHashFed(s, u);
    RenderOfFed(s, TokenStream.TextThenHash(u), false, ts, Ctx(PureText, None, NONE_USED), o);
    EmptyStyleBlock(s);
    var css := [LF] + s.cssTagStart + [LF] + s.cssTagEnd;
    assert o + css == u + [HASH] + NBSP + [LF] + s.cssTagStart + [LF] + s.cssTagEnd;
  }

  /** A clean stream fed up to a context with nothing open renders as the
      bytes fed and the style block of the slots used. */
  lemma RenderOfFed(s: Schema, units: seq<Unit>, failed: bool, ts: seq<Token>, c: Ctx, o: Bytes)
    requires TokenStream.TokensFrom(true, units, failed, 0, Tokenizer.Start).tokens == ts
    requires !TokenStream.TokensFrom(true, units, failed, 0, Tokenizer.Start).failed
    requires |c.used| == TAG_LEN && c.lastTag.None? && Feed(s, INITIAL, ts) == Running(c, o)
    ensures Render(true, s, units, failed) == Rendered(Ok, o + StyleBlock(s, c.used))
  {
  }

  /** The corrected tokens of that line: text from line start, then text
      and a space in the text state, with nothing opened or marked. */
  lemma TextThenHashFed(s: Schema, u: Unit)
    ensures Feed(s, INITIAL, [Tokenizer.PureText(u, 1), Tokenizer.PureText([HASH], 1), Tokenizer.Space])
      == Running(Ctx(PureText, None, NONE_USED), u + [HASH] + NBSP)
  {
    var text: Token := Tokenizer.PureText(u, 1);
    var c1 := Ctx(PureText, None, NONE_USED);
    var hash: Token := Tokenizer.PureText([HASH], 1);
    FeedOne(s, INITIAL, text);
    FeedAppend(s, INITIAL, [text], [hash], c1, u);
    FeedOne(s, c1, hash);
    FeedAppend(s, INITIAL, [text, hash], [Tokenizer.Space], c1, u + [HASH]);
    FeedOne(s, c1, Tokenizer.Space);
    assert [text, hash] + [Tokenizer.Space] == [text, hash, Tokenizer.Space];
  }

  // ---------------------------------------------------------------------
  // Lines, blocks and headers.

  predicate AllText(ts: seq<Token>) {
    forall i :: 0 <= i < |ts| ==> ts[i].PureText?
  }

  /** Feeding one token is the transition. */
  lemma FeedOne(s: Schema, c: Ctx, t: Token)
    requires |c.used| == TAG_LEN
    ensures Feed(s, c, [t]) == Transition(s, c, t)
  {
    assert [t][1..] == [];
    match Transition(s, c, t)
    case Panic =>
    case Running(c1, o) => assert o + [] == o;
  }

  /** Feeding one more token after `a`. */
  lemma FeedSnoc(s: Schema, c: Ctx, a: seq<Token>, t: Token, c1: Ctx, o: Bytes)
    requires |c.used| == TAG_LEN && Feed(s, c, a) == Running(c1, o)
    ensures Feed(s, c, a + [t]) == After(o, Transition(s, c1, t))
  {
    FeedAppend(s, c, a, [t], c1, o);
    FeedOne(s, c1, t);
  }

  /** Feeding `a + b` is feeding `a`, then `b` from where `a` left off. */
  lemma {:induction false} FeedAppend(s: Schema, c: Ctx, a: seq<Token>, b: seq<Token>, c1: Ctx, o: Bytes)
    requires |c.used| == TAG_LEN && Feed(s, c, a) == Running(c1, o)
    ensures Feed(s, c, a + b) == After(o, Feed(s, c1, b))
    decreases |a|
  {
    if a == [] {
      assert a + b == b;
    } else {
      var ab := a + b;
      assert ab[0] == a[0] && ab[1..] == a[1..] + b;
      var t := Transition(s, c, a[0]);
      FeedUnfold(s, c, a);
      var r := Feed(s, t.ctx, a[1..]);
      FeedAppend(s, t.ctx, a[1..], b, r.ctx, r.out);
      FeedUnfold(s, c, ab);
      AfterAfter(t.out, r.out, Feed(s, c1, b));
    }
  }

  /** Feeding a non-empty sequence whose first token runs: that token's
      bytes, then the rest fed from its context. */
  lemma FeedUnfold(s: Schema, c: Ctx, ts: seq<Token>)
    requires |c.used| == TAG_LEN && ts != []
    ensures Transition(s, c, ts[0]).Running? ==>
      Feed(s, c, ts) == After(Transition(s, c, ts[0]).out, Feed(s, Transition(s, c, ts[0]).ctx, ts[1..]))
    ensures Transition(s, c, ts[0]).Panic? ==> Feed(s, c, ts).Panic?
  {
  }

  lemma AfterAfter(o1: Bytes, o2: Bytes, r: Outcome)
    ensures After(o1, After(o2, r)) == After(o1 + o2, r)
  {
    if r.Running? {
      assert o1 + (o2 + r.out) == (o1 + o2) + r.out;
    }
  }

  /** Text inside a construct is written verbatim and leaves the parser in
      `Value` (or where it was, for no text). */
  lemma {:induction false} TextInBlock(s: Schema, c: Ctx, body: seq<Token>)
    requires |c.used| == TAG_LEN && (c.state.Tag? || c.state.Value?) && AllText(body)
    ensures Feed(s, c, body) == Running(if body == [] then c else c.(state := Value), TokenStream.Texts(body))
    decreases |body|
  {
    if body != [] {
      var c1 := c.(state := Value);
      assert Transition(s, c, body[0]) == Running(c1, body[0].data);
      assert AllText(body[1..]);
      TextInBlock(s, c1, body[1..]);
      assert (if body[1..] == [] then c1 else c1.(state := Value)) == c1;
    }
  }

  /** A marker at line start followed by text: the construct's start, a
      line end and the text verbatim; the construct is then open. */
  lemma OpenThenText(s: Schema, c: Ctx, t: Tag, body: seq<Token>)
    requires Consistent(c) && (c.state.Start? || c.state.Ln?) && Indexed(t) && AllText(body)
    ensures Feed(s, c, [Tokenizer.Tag(t)] + body)
      == Running(Ctx(if body == [] then Tag(t) else Value, t, c.used), StartTag(s, t) + [LF] + TokenStream.Texts(body))
  {
    var open: Token := Tokenizer.Tag(t);
    var c1 := c.(state := Tag(t), lastTag := t);
    FeedOne(s, c, open);
    FeedAppend(s, c, [open], body, c1, StartTag(s, t) + [LF]);
    TextInBlock(s, c1, body);
  }

  /** A header line `#.. text\n`: the header's start, the text, the
      header's end and a line end, with no line break; the parser is back
      at line start and the header's style slot is not marked. */
  lemma HeaderLine(s: Schema, c: Ctx, level: Level, body: seq<Token>)
    requires Consistent(c) && (c.state.Start? || c.state.Ln?) && 1 <= level <= 6 && AllText(body)
    ensures Feed(s, c, [Tokenizer.Tag(Header(level))] + body + [Tokenizer.Ln])
      == Running(Ctx(Ln, None, c.used), StartTag(s, Header(level)) + [LF] + TokenStream.Texts(body) + HeaderEnd(s, level) + [LF])
  {
    var h := Header(level);
    var c2 := Ctx(if body == [] then Tag(h) else Value, h, c.used);
    var o := StartTag(s, h) + [LF] + TokenStream.Texts(body);
    OpenThenText(s, c, h, body);
    FeedSnoc(s, c, [Tokenizer.Tag(h)] + body, Tokenizer.Ln, c2, o);
    var close := HeaderEnd(s, level) + [LF];
    assert Transition(s, c2, Tokenizer.Ln) == Running(Ctx(Ln, None, c.used), close);
    assert o + close == StartTag(s, h) + [LF] + TokenStream.Texts(body) + HeaderEnd(s, level) + [LF];
  }

  /** A block quote or task item `marker text\n\n`: its start, the text, a
      line break, then the blank line closes it with its end string and
      marks its style slot. */
  lemma BlankLineClosesBlock(s: Schema, c: Ctx, t: Tag, body: seq<Token>)
    requires Consistent(c) && (c.state.Start? || c.state.Ln?) && (t.BlockQuote? || t.TaskList?) && AllText(body)
    ensures Feed(s, c, [Tokenizer.Tag(t)] + body + [Tokenizer.Ln, Tokenizer.Ln])
      == Running(Ctx(Ln, None, Mark(c.used, t)),
                 StartTag(s, t) + [LF] + TokenStream.Texts(body) + BR + [LF] + EndTag(s, t))
  {
    var open: Token := Tokenizer.Tag(t);
    var c2 := Ctx(if body == [] then Tag(t) else Value, t, c.used);
    var c3 := c2.(state := BlockValueLn);
    var o := StartTag(s, t) + [LF] + TokenStream.Texts(body);
    OpenThenText(s, c, t, body);
    FeedSnoc(s, c, [open] + body, Tokenizer.Ln, c2, o);
    assert Transition(s, c2, Tokenizer.Ln) == Running(c3, BR + [LF]);
    FeedSnoc(s, c, [open] + body + [Tokenizer.Ln], Tokenizer.Ln, c3, o + BR + [LF]);
    assert [open] + body + [Tokenizer.Ln] + [Tokenizer.Ln] == [open] + body + [Tokenizer.Ln, Tokenizer.Ln];
  }

  // ---------------------------------------------------------------------
  // The position record.

  datatype Pos = Pos(line: nat, column: nat)

  /** `Record::new`. */
  const FIRST: Pos := Pos(1, 0)

  /** `update_nums`: a zero width starts the next line. */
  function Advance(p: Pos, width: nat): Pos {
    if width == 0 then Pos(p.line + 1, 0) else Pos(p.line, p.column + width)
  }

  /** The record after the tokens `ts`. */
  function Track(p: Pos, ts: seq<Token>): Pos {
    if ts == [] then p else Advance(Track(p, ts[..|ts| - 1]), Tokenizer.TokenCharLen(ts[|ts| - 1]))
  }

  function LineFeeds(ts: seq<Token>): nat {
    if ts == [] then 0 else LineFeeds(ts[..|ts| - 1]) + (if ts[|ts| - 1].Ln? then 1 else 0)
  }

  /** The total width of the tokens after the last line feed. */
  function TrailingWidth(ts: seq<Token>): nat {
    if ts == [] then 0
    else if ts[|ts| - 1].Ln? then 0
    else TrailingWidth(ts[..|ts| - 1]) + Tokenizer.TokenCharLen(ts[|ts| - 1])
  }

  /** When only line feeds have no width, the record counts line feeds as
      lines and the width since the last one as the column. */
  lemma {:induction false} TrackCountsLines(p: Pos, ts: seq<Token>)
    requires TokenStream.OnlyLineFeedsZeroWidth(ts)
    ensures Track(p, ts).line == p.line + LineFeeds(ts)
    ensures Track(p, ts).column == (if LineFeeds(ts) == 0 then p.column else 0) + TrailingWidth(ts)
    decreases |ts|
  {
    if ts != [] {
      var init := ts[..|ts| - 1];
      assert forall i :: 0 <= i < |init| ==> init[i] == ts[i];
      TrackCountsLines(p, init);
    }
  }

  /** Over a whole document the record's line is one plus the number of
      line feeds read. */
  lemma RecordCountsLines(units: seq<Unit>, failed: bool)
    ensures Track(FIRST, TokenStream.Tokenize(units, failed).tokens).line
      == 1 + LineFeeds(TokenStream.Tokenize(units, failed).tokens)
  {
    TokenStream.OnlyLineFeedsHaveNoWidth(true, units, failed, 0, Tokenizer.Start);
    TrackCountsLines(FIRST, TokenStream.Tokenize(units, failed).tokens);
  }

  class Record {
    var line: nat
    var column: nat

    constructor ()
      ensures Pos(line, column) == FIRST
    {
      line, column := 1, 0;
    }

    method UpdateNums(width: nat)
      modifies this
      ensures width == 0 ==> line == old(line) + 1 && column == 0
      ensures width != 0 ==> line == old(line) && column == old(column) + width
    {
      if width == 0 {
        line := line + 1;
        column := 0;
      } else {
        column := column + width;
      }
    }
  }

  // ---------------------------------------------------------------------
  // The parser object.

  class StatefulParser {
    const tokenizer: Tokenizer.Tokenizer
    const mapper: Mapping.Mapper
    const record: Record
    var state: State
    var lastTag: Tag

    ghost predicate Valid()
      reads this, tokenizer, tokenizer.cache, mapper, mapper.writer
    {
      tokenizer.Valid() && mapper.Valid()
    }

    /** The parser's part of the reference context. */
    ghost function Context(): Ctx
      reads this, mapper, mapper.writer, mapper.writer.used
    {
      Ctx(state, lastTag, mapper.writer.used[..])
    }

    /** A parser over the unit stream, writing to `w` in dialect `s`. */
    constructor (units: seq<Unit>, failed: bool, s: Schema, w: HtmlWriter)
      requires w.Valid()
      ensures Valid() && fresh(tokenizer) && fresh(tokenizer.cache) && fresh(tokenizer.cache.arr) && fresh(record)
      ensures tokenizer.units == units && tokenizer.failed == failed
      ensures tokenizer.cursor == 0 && tokenizer.state == Tokenizer.Start
      ensures mapper.schema == s && mapper.writer == w
      ensures state == Start && lastTag == None && Pos(record.line, record.column) == FIRST
    {
      tokenizer := new Tokenizer.Tokenizer(units, failed);
      mapper := new Mapping.Mapper(s, w);
      record := new Record();
      state := Start;
      lastTag := None;
    }

    /** `try_solve_header_end`: closes an open header at its line end. */
    method TrySolveHeaderEnd() returns (isHeader: bool)
      requires lastTag.Header? ==> 1 <= lastTag.level <= 6
      modifies this, mapper.writer
      ensures isHeader == old(lastTag).Header?
      ensures isHeader ==>
        mapper.writer.out == old(mapper.writer.out) + HeaderEnd(mapper.schema, old(lastTag).level) + [LF]
        && state == Ln && lastTag == None
      ensures !isHeader ==> mapper.writer.out == old(mapper.writer.out) && state == old(state) && lastTag == old(lastTag)
    {
      if lastTag.Header? {
        mapper.WriteHeaderEnd(lastTag.level);
        state := Ln;
        lastTag := None;
        return true;
      }
      return false;
    }

    method SolveStart(t: Tag)
      requires Indexed(t)
      modifies this, mapper.writer
      ensures mapper.writer.out == old(mapper.writer.out) + StartTag(mapper.schema, t) + [LF]
      ensures state == Tag(t) && lastTag == t
    {
      mapper.WriteTagStart(t);
      state := Tag(t);
      lastTag := t;
    }

    /** `solve_end`; the source panics unless the open construct has a slot. */
    method SolveEnd()
      requires mapper.Valid() && Indexed(lastTag)
      modifies this, mapper.writer, mapper.writer.used
      ensures mapper.Valid()
      ensures mapper.writer.out == old(mapper.writer.out) + EndTag(mapper.schema, old(lastTag))
      ensures mapper.writer.used[..] == Mark(old(mapper.writer.used[..]), old(lastTag))
      ensures state == old(state) && lastTag == None
    {
      mapper.WriteTagEnd(lastTag);
      lastTag := None;
    }

    method SolveEndAndStart(t: Tag)
      requires mapper.Valid() && Indexed(lastTag) && Indexed(t)
      modifies this, mapper.writer, mapper.writer.used
      ensures mapper.Valid()
      ensures mapper.writer.out == old(mapper.writer.out) + EndTag(mapper.schema, old(lastTag)) + StartTag(mapper.schema, t) + [LF]
      ensures mapper.writer.used[..] == Mark(old(mapper.writer.used[..]), old(lastTag))
      ensures state == Tag(t) && lastTag == t
    {
      SolveEnd();
      SolveStart(t);
    }

    /** The body of the loop for one token; the marker cases the source
        marks unreachable are excluded by the caller. */
    method Consume(tok: Token) returns (ghost o: Bytes)
      requires mapper.Valid() && Consistent(Context())
      requires Transition(mapper.schema, Context(), tok).Running?
      modifies this, mapper.writer, mapper.writer.used
      ensures mapper.Valid()
      ensures Transition(mapper.schema, old(Context()), tok) == Running(Context(), o)
      ensures mapper.writer.out == old(mapper.writer.out) + o
    {
      if state.Start? || state.Ln? {
        o := ConsumeAtLineStart(tok);
      } else if state.PureText? {
        o := ConsumeInText(tok);
      } else if state.Tag? || state.Value? {
        o := ConsumeInBlock(tok);
      } else {
        o := ConsumeOnBlockLine(tok);
      }
    }

    /** `Start` and `Ln`: a marker opens its construct, anything else is
        plain text. */
    method ConsumeAtLineStart(tok: Token) returns (ghost o: Bytes)
      requires state.Start? || state.Ln?
      requires mapper.Valid() && Consistent(Context())
      requires Transition(mapper.schema, Context(), tok).Running?
      modifies this, mapper.writer, mapper.writer.used
      ensures mapper.Valid()
      ensures Transition(mapper.schema, old(Context()), tok) == Running(Context(), o)
      ensures mapper.writer.out == old(mapper.writer.out) + o
    {
      match tok
      case Space => mapper.WriteHtmlSpace(); state := PureText; o := NBSP;
      case Tab => mapper.WriteHtmlTab(); state := PureText; o := TAB_HTML;
      case Ln => mapper.WriteBr(); state := Ln; o := BR + [LF];
      case Tag(t) => SolveStart(t); o := StartTag(mapper.schema, t) + [LF];
      case PureText(data, _) => mapper.Write(data); state := PureText; o := data;
    }

    /** `PureText`: text continues until a line feed. */
    method ConsumeInText(tok: Token) returns (ghost o: Bytes)
      requires state.PureText?
      requires mapper.Valid() && Consistent(Context())
      requires Transition(mapper.schema, Context(), tok).Running?
      modifies this, mapper.writer, mapper.writer.used
      ensures mapper.Valid()
      ensures Transition(mapper.schema, old(Context()), tok) == Running(Context(), o)
      ensures mapper.writer.out == old(mapper.writer.out) + o
    {
      match tok
      case Space => mapper.WriteHtmlSpace(); o := NBSP;
      case Tab => mapper.WriteHtmlTab(); o := TAB_HTML;
      case Ln => mapper.WriteBr(); state := Ln; o := BR + [LF];
      case Tag(_) => assert false;
      case PureText(data, _) => mapper.Write(data); o := data;
    }

    /** `Tag` and `Value`: the construct's first line; its line feed closes
        a header, or moves a block to its next line. */
    method ConsumeInBlock(tok: Token) returns (ghost o: Bytes)
      requires state.Tag? || state.Value?
      requires mapper.Valid() && Consistent(Context())
      requires Transition(mapper.schema, Context(), tok).Running?
      modifies this, mapper.writer, mapper.writer.used
      ensures mapper.Valid()
      ensures Transition(mapper.schema, old(Context()), tok) == Running(Context(), o)
      ensures mapper.writer.out == old(mapper.writer.out) + o
    {
      match tok
      case Space => mapper.WriteHtmlSpace(); state := Value; o := NBSP;
      case Tab => mapper.WriteHtmlTab(); state := Value; o := TAB_HTML;
      case Ln =>
        ghost var level := if lastTag.Header? then lastTag.level else 0;
        var isHeader := TrySolveHeaderEnd();
        if isHeader {
          o := HeaderEnd(mapper.schema, level) + [LF];
        } else {
          mapper.WriteBr();
          state := BlockValueLn;
          o := BR + [LF];
        }
      case Tag(_) => assert false;
      case PureText(data, _) => mapper.Write(data); state := Value; o := data;
    }

    /** `BlockValueLn`: a new line inside a block; a line feed (blank line)
        closes it, a marker closes it and opens the next. */
    method ConsumeOnBlockLine(tok: Token) returns (ghost o: Bytes)
      requires state.BlockValueLn?
      requires mapper.Valid() && Consistent(Context())
      requires Transition(mapper.schema, Context(), tok).Running?
      modifies this, mapper.writer, mapper.writer.used
      ensures mapper.Valid()
      ensures Transition(mapper.schema, old(Context()), tok) == Running(Context(), o)
      ensures mapper.writer.out == old(mapper.writer.out) + o
    {
      match tok
      case Space => mapper.WriteHtmlSpace(); o := NBSP;
      case Tab => mapper.WriteHtmlTab(); o := TAB_HTML;
      case Ln =>
        o := EndTag(mapper.schema, lastTag);
        SolveEnd();
        state := Ln;
      case Tag(t) =>
        o := EndTag(mapper.schema, lastTag) + StartTag(mapper.schema, t) + [LF];
        SolveEndAndStart(t);
      case PureText(data, _) => mapper.Write(data); state := Value; o := data;
    }

    /** The parser and tokenizer agree on line start: whenever the tokenizer
        would try a marker, the parser takes one. */
    ghost predicate InStep()
      reads this, tokenizer, tokenizer.cache, mapper, mapper.writer, mapper.writer.used
    {
      Valid() && Consistent(Context()) && (tokenizer.state.AtLineStart() ==> state.TakesTag())
    }

    /** The reference run from where the tokenizer and the parser stand. */
    ghost function Rest(): Rendered
      requires Valid() && |mapper.writer.used[..]| == TAG_LEN
      reads this, tokenizer, tokenizer.cache, mapper, mapper.writer, mapper.writer.used
    {
      RenderFrom(true, mapper.schema, tokenizer.units, tokenizer.failed, tokenizer.cursor, tokenizer.state, Context())
    }

    /** The tokens still to be pulled. */
    ghost function Remaining(): TokenStream.Stream
      requires Valid()
      reads this, tokenizer, tokenizer.cache, mapper, mapper.writer
    {
      TokenStream.TokensFrom(true, tokenizer.units, tokenizer.failed, tokenizer.cursor, tokenizer.state)
    }

    ghost function Here(): Pos
      reads this, record
    {
      Pos(record.line, record.column)
    }

    /** The end of stream with the close guarded: what is open is closed,
        then the style block. */
    method Conclude() returns (ghost o: Bytes)
      requires mapper.Valid() && Consistent(Context())
      modifies this, mapper.writer, mapper.writer.used
      ensures Finish(mapper.schema, old(Context())) == Running(Ctx(state, lastTag, NONE_USED), o)
      ensures mapper.writer.out == old(mapper.writer.out) + o
    {
      o := EndTag(mapper.schema, lastTag);
      if lastTag != None {
        SolveEnd();
      }
      ghost var used := mapper.writer.used[..];
      mapper.WriteCss();
      o := o + StyleBlock(mapper.schema, used);
    }

    /** One turn of the loop: a pull and what the parser does with it. */
    method Turn() returns (done: bool, r: Status, ghost tok: Token, ghost o: Bytes)
      requires InStep()
      modifies this, tokenizer, tokenizer.cache, tokenizer.cache.arr, mapper.writer, mapper.writer.used, record
      ensures mapper.writer.out == old(mapper.writer.out) + o
      ensures done ==> old(Rest()) == Rendered(r, o) && old(Remaining()).tokens == [] && Here() == old(Here())
      ensures !done ==>
        InStep() && old(tokenizer.cursor) < tokenizer.cursor
        && old(Rest()) == Prepend(o, Rest())
        && old(Remaining()).tokens == [tok] + Remaining().tokens && old(Remaining()).failed == Remaining().failed
        && Here() == Advance(old(Here()), Tokenizer.TokenCharLen(tok))
    {
      ghost var pos, st, c := tokenizer.cursor, tokenizer.state, Context();
      RenderFromStep(mapper.schema, tokenizer.units, tokenizer.failed, pos, st, c);
      TokenStream.TokensFromStep(true, tokenizer.units, tokenizer.failed, pos, st);
      var pull := tokenizer.Next();
      assert TokenStream.NextOf(true, tokenizer.units, tokenizer.failed, pos, st) == Tokenizer.Step(pull, tokenizer.cursor, tokenizer.state);
      match pull
      case Failed =>
        done, r, tok, o := true, IoError, Tokenizer.Ln, [];
      case End =>
        done, r, tok := true, Ok, Tokenizer.Ln;
        o := Conclude();
      case Emitted(t) =>
        record.UpdateNums(Tokenizer.TokenCharLen(t));
        tok := t;
        o := Consume(t);
        done, r := false, Ok;
    }

    /** What the loop of `parse_and_write` keeps: the bytes written so far
        followed by the reference run from here are the whole run, the
        tokens read so far followed by those still to come are the whole
        stream, and the record has advanced over the tokens read. */
    ghost predicate Tracking(out0: Bytes, whole: Rendered, all: TokenStream.Stream, p0: Pos, consumed: seq<Token>, written: Bytes)
      reads this, tokenizer, tokenizer.cache, mapper, mapper.writer, mapper.writer.used, record
    {
      InStep()
      && mapper.writer.out == out0 + written
      && Prepend(written, Rest()) == whole
      && consumed + Remaining().tokens == all.tokens && Remaining().failed == all.failed
      && Here() == Track(p0, consumed)
    }

    /** One turn of the loop with its bookkeeping. */
    method Iterate(ghost out0: Bytes, ghost whole: Rendered, ghost all: TokenStream.Stream, ghost p0: Pos,
                   ghost consumed: seq<Token>, ghost written: Bytes)
      returns (done: bool, r: Status, ghost consumed': seq<Token>, ghost written': Bytes)
      requires Tracking(out0, whole, all, p0, consumed, written)
      modifies this, tokenizer, tokenizer.cache, tokenizer.cache.arr, mapper.writer, mapper.writer.used, record
      ensures done ==>
        mapper.writer.out == out0 + written' && whole == Rendered(r, written')
        && consumed' == all.tokens && Here() == Track(p0, consumed')
      ensures !done ==> Tracking(out0, whole, all, p0, consumed', written') && old(tokenizer.cursor) < tokenizer.cursor
    {
      ghost var rest0, rem0, here0 := Rest(), Remaining(), Here();
      ghost var tok, o;
      done, r, tok, o := Turn();
      if done {
        LastTurn(whole, written, o, rest0, r, all.tokens, consumed, rem0.tokens);
        consumed', written' := consumed, written + o;
        return;
      }
      NextTurn(whole, written, o, rest0, Rest(), all.tokens, consumed, tok, rem0.tokens, Remaining().tokens, p0, here0, Here());
      consumed', written' := consumed + [tok], written + o;
    }

    /** `parse_and_write`: pulls every token, feeding each to the state
        machine, and at the end of the stream closes what is open (guarded)
        and writes the style block. It returns `IoError` at the first input
        failure with nothing more written. What it writes and returns is
        the reference run from where the tokenizer stands, and the record
        has advanced over every token read. */
    method ParseAndWrite() returns (r: Status, ghost written: Bytes)
      requires InStep()
      modifies this, tokenizer, tokenizer.cache, tokenizer.cache.arr, mapper.writer, mapper.writer.used, record
      ensures mapper.writer.out == old(mapper.writer.out) + written
      ensures old(Rest()) == Rendered(r, written)
      ensures Here() == Track(old(Here()), old(Remaining()).tokens)
    {
      ghost var out0, whole, all, p0 := mapper.writer.out, Rest(), Remaining(), Here();
      ghost var consumed: seq<Token> := [];
      written := [];
      assert out0 + [] == out0;
      while true
        invariant Tracking(out0, whole, all, p0, consumed, written)
        decreases |tokenizer.units| - tokenizer.cursor
      {
        var done;
        done, r, consumed, written := Iterate(out0, whole, all, p0, consumed, written);
        if done {
          return;
        }
      }
    }
  }

  /** One pull of the reference run: an input failure, the end of the
      stream, or a token and the run from after it. */
  lemma RenderFromStep(s: Schema, units: seq<Unit>, failed: bool, pos: nat, st: Tokenizer.LineState, c: Ctx)
    requires pos <= |units| && |c.used| == TAG_LEN
    ensures var step := TokenStream.NextOf(true, units, failed, pos, st);
      var r := RenderFrom(true, s, units, failed, pos, st, c);
      && (step.result.Failed? ==> r == Rendered(IoError, []))
      && (step.result.End? && Finish(s, c).Running? ==> r == Rendered(Ok, Finish(s, c).out))
      && (step.result.Emitted? && Transition(s, c, step.result.token).Running? ==>
            var next := Transition(s, c, step.result.token);
            r == Prepend(next.out, RenderFrom(true, s, units, failed, step.next, step.state, next.ctx)))
  {
  }

  /** The loop's bookkeeping over one turn that read a token. */
  lemma NextTurn(whole: Rendered, written: Bytes, o: Bytes, rest0: Rendered, rest1: Rendered,
                 all: seq<Token>, consumed: seq<Token>, tok: Token, rem0: seq<Token>, rem1: seq<Token>,
                 p0: Pos, here0: Pos, here1: Pos)
    requires Prepend(written, rest0) == whole && rest0 == Prepend(o, rest1)
    requires consumed + rem0 == all && rem0 == [tok] + rem1
    requires here0 == Track(p0, consumed) && here1 == Advance(here0, Tokenizer.TokenCharLen(tok))
    ensures Prepend(written + o, rest1) == whole
    ensures (consumed + [tok]) + rem1 == all
    ensures here1 == Track(p0, consumed + [tok])
  {
    PrependTwice(written, o, rest1);
    TrackSnoc(p0, consumed, tok);
    assert consumed + ([tok] + rem1) == (consumed + [tok]) + rem1;
  }

  /** The loop's bookkeeping over the last turn. */
  lemma LastTurn(whole: Rendered, written: Bytes, o: Bytes, rest0: Rendered, r: Status,
                 all: seq<Token>, consumed: seq<Token>, rem0: seq<Token>)
    requires Prepend(written, rest0) == whole && rest0 == Rendered(r, o)
    requires consumed + rem0 == all && rem0 == []
    ensures whole == Rendered(r, written + o) && consumed == all
  {
    PrependTwice(written, o, Rendered(r, []));
    assert consumed + [] == consumed;
  }

  lemma TrackSnoc(p: Pos, ts: seq<Token>, t: Token)
    ensures Track(p, ts + [t]) == Advance(Track(p, ts), Tokenizer.TokenCharLen(t))
  {
    assert (ts + [t])[..|ts|] == ts;
  }

  lemma PrependTwice(a: Bytes, b: Bytes, r: Rendered)
    ensures Prepend(a, Prepend(b, r)) == Prepend(a + b, r)
  {
    if r.Rendered? {
      assert a + (b + r.out) == (a + b) + r.out;
    }
  }

  /** A fresh parser over a fresh writer writes exactly the corrected
      rendering of the document. */
  lemma FreshParserRenders(s: Schema, units: seq<Unit>, failed: bool)
    ensures RenderFrom(true, s, units, failed, 0, Tokenizer.Start, INITIAL) == Render(true, s, units, failed)
  {
    RenderFromIsRender(true, s, units, failed, 0, Tokenizer.Start, INITIAL);
  }
}
