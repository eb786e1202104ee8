/** Construct kinds (`Tag`), their widths, their dense style index and the
    markup strings a `Schema` gives for them (src/tag.rs). */
module Tags {
  import opened Bytes

  /** A header level is a Rust `u8`. */
  type Level = x: int | 0 <= x < 256

  datatype Tag = None | Header(level: Level) | BlockQuote | TaskList(done: bool)

  /** Number of variants of `Tag`, as counted by the build-time derive. */
  const LEN: nat := 4

  /** The markup strings of one output dialect, as the bytes of each string.
      Only the fields the core reads are kept; the code-block strings are
      declared by the source but never used. */
  datatype Schema = Schema(
    h1Start: Bytes, h1End: Bytes, h2Start: Bytes, h2End: Bytes,
    h3Start: Bytes, h3End: Bytes, h4Start: Bytes, h4End: Bytes,
    h5Start: Bytes, h5End: Bytes, h6Start: Bytes, h6End: Bytes,
    blockQuoteStart: Bytes, blockQuoteEnd: Bytes,
    taskListDoneStart: Bytes, taskListDoneEnd: Bytes,
    taskListTodoStart: Bytes, taskListTodoEnd: Bytes,
    h1Css: Bytes, h2Css: Bytes, h3Css: Bytes, h4Css: Bytes, h5Css: Bytes, h6Css: Bytes,
    blockQuoteCss: Bytes, taskListDoneCss: Bytes, taskListTodoCss: Bytes,
    cssTagStart: Bytes, cssTagEnd: Bytes)
  {
    /** The start strings listed in style-index order (headers 1-6, block
        quote, task done, task todo): an independent view used to state
        that the tag lookups agree with `TagIndex`. */
    function Starts(): seq<Bytes> {
      [h1Start, h2Start, h3Start, h4Start, h5Start, h6Start,
       blockQuoteStart, taskListDoneStart, taskListTodoStart]
    }

    function Ends(): seq<Bytes> {
      [h1End, h2End, h3End, h4End, h5End, h6End,
       blockQuoteEnd, taskListDoneEnd, taskListTodoEnd]
    }

    function Css(): seq<Bytes> {
      [h1Css, h2Css, h3Css, h4Css, h5Css, h6Css,
       blockQuoteCss, taskListDoneCss, taskListTodoCss]
    }
  }

  /** The default `<style>` / `</style>` wrappers every schema inherits. */
  const DEFAULT_CSS_TAG_START: Bytes := Ascii("<style>")
  const DEFAULT_CSS_TAG_END: Bytes := Ascii("</style>")

  /** Width of a tag in columns. */
  function CharLen(t: Tag): (n: nat)
    ensures n == 0 <==> t.None?
  {
    match t
    case None => 0
    case Header(level) => level + 1
    case BlockQuote => 2
    case TaskList(_) => 6
  }

  /** The tags `tag_index` is defined for: every variant except `None`,
      headers only at levels 1 to 6. */
  predicate Indexed(t: Tag) {
    match t
    case None => false
    case Header(level) => 1 <= level <= 6
    case _ => true
  }

  /** The dense style index of a tag; the source panics outside `Indexed`. */
  function TagIndex(t: Tag): (i: nat)
    requires Indexed(t)
    ensures i < 9
    ensures t.Header? <==> i < 6
  {
    match t
    case Header(level) => level - 1
    case BlockQuote => 6
    case TaskList(done) => if done then 7 else 8
  }

  /** The tag at a style index: the inverse of `TagIndex`. */
  function IndexedTag(i: nat): (t: Tag)
    requires i < 9
    ensures Indexed(t) && TagIndex(t) == i
  {
    if i < 6 then Header(i + 1)
    else if i == 6 then BlockQuote
    else TaskList(i == 7)
  }

  lemma TagIndexRoundTrip(t: Tag)
    requires Indexed(t)
    ensures IndexedTag(TagIndex(t)) == t
  {
  }

  /** `TagIndex` is injective on the nine indexed tags, and it orders them
      headers (by level), block quote, task done, task todo. */
  lemma TagIndexInjective(a: Tag, b: Tag)
    requires Indexed(a) && Indexed(b)
    ensures TagIndex(a) == TagIndex(b) <==> a == b
  {
    TagIndexRoundTrip(a);
    TagIndexRoundTrip(b);
  }

  lemma TagIndexOrder(l: Level, m: Level, d: bool)
    requires 1 <= l < m <= 6
    ensures TagIndex(Header(l)) < TagIndex(Header(m)) < TagIndex(BlockQuote)
    ensures TagIndex(BlockQuote) < TagIndex(TaskList(true)) < TagIndex(TaskList(false))
  {
  }

  /** Start string of a header level; the source panics outside 1..6. */
  function HeaderStart(s: Schema, level: Level): (r: Bytes)
    requires 1 <= level <= 6
    ensures r == s.Starts()[level - 1]
  {
    match level
    case 1 => s.h1Start
    case 2 => s.h2Start
    case 3 => s.h3Start
    case 4 => s.h4Start
    case 5 => s.h5Start
    case 6 => s.h6Start
  }

  function HeaderEnd(s: Schema, level: Level): (r: Bytes)
    requires 1 <= level <= 6
    ensures r == s.Ends()[level - 1]
  {
    match level
    case 1 => s.h1End
    case 2 => s.h2End
    case 3 => s.h3End
    case 4 => s.h4End
    case 5 => s.h5End
    case 6 => s.h6End
  }

  /** Start string of a tag; the source panics for `None` (and, through
      `HeaderStart`, for header levels outside 1..6). */
  function StartTag(s: Schema, t: Tag): (r: Bytes)
    requires Indexed(t)
    ensures r == s.Starts()[TagIndex(t)]
  {
    match t
    case Header(level) => HeaderStart(s, level)
    case BlockQuote => s.blockQuoteStart
    case TaskList(done) => if done then s.taskListDoneStart else s.taskListTodoStart
  }

  /** End string of a tag; empty for `None`. */
  function EndTag(s: Schema, t: Tag): (r: Bytes)
    requires t.Header? ==> 1 <= t.level <= 6
    ensures t.None? ==> r == []
    ensures Indexed(t) ==> r == s.Ends()[TagIndex(t)]
  {
    match t
    case None => []
    case Header(level) => HeaderEnd(s, level)
    case BlockQuote => s.blockQuoteEnd
    case TaskList(done) => if done then s.taskListDoneEnd else s.taskListTodoEnd
  }
}
