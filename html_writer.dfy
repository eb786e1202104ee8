/** The HTML sink (src/html_writer.rs): fixed substitutions for spaces, tabs
    and breaks, and a flag per style slot recording which constructs were
    closed, from which one style block is written at the end. The flags are
    a per-writer array; the output is the sequence of bytes written so far. */
module Html {
  import opened Bytes
  import opened Tags

  /** Number of style slots: `LEN - 1` tag kinds besides `None`, five more
      header levels, one more task state. */
  const TAG_LEN: nat := LEN - 1 + 5 + 1

  const NBSP: Bytes := Ascii("&nbsp;")
  const TAB_HTML: Bytes := Ascii("&nbsp;&nbsp;&nbsp;&nbsp;")
  const BR: Bytes := Ascii("<br>")

  /** No slot used. */
  const NONE_USED: seq<bool> := [false, false, false, false, false, false, false, false, false]

  /** The slot count is exactly the range of `TagIndex`. */
  lemma TagLenIsIndexRange()
    ensures TAG_LEN == 9
    ensures forall t :: Indexed(t) ==> TagIndex(t) < TAG_LEN
    ensures forall i :: 0 <= i < TAG_LEN ==> TagIndex(IndexedTag(i)) == i
  {
  }

  lemma AsciiAppend(a: string, b: string)
    requires forall i :: 0 <= i < |a| ==> a[i] as int < 256
    requires forall i :: 0 <= i < |b| ==> b[i] as int < 256
    ensures Ascii(a + b) == Ascii(a) + Ascii(b)
  {
  }

  /** A tab is exactly four space substitutes. */
  lemma TabIsFourSpaces()
    ensures TAB_HTML == NBSP + NBSP + NBSP + NBSP
  {
    var sp := "&nbsp;";
    assert "&nbsp;&nbsp;&nbsp;&nbsp;" == sp + sp + sp + sp;
    AsciiAppend(sp, sp);
    AsciiAppend(sp + sp, sp);
    AsciiAppend(sp + sp + sp, sp);
  }

  /** The style fragment of a slot. */
  function Fragment(s: Schema, idx: nat): (r: Bytes)
    requires idx < TAG_LEN
    ensures r == s.Css()[idx]
  {
    if idx == 0 then s.h1Css
    else if idx == 1 then s.h2Css
    else if idx == 2 then s.h3Css
    else if idx == 3 then s.h4Css
    else if idx == 4 then s.h5Css
    else if idx == 5 then s.h6Css
    else if idx == 6 then s.blockQuoteCss
    else if idx == 7 then s.taskListDoneCss
    else s.taskListTodoCss
  }

  /** The slot of a tag holds that construct's style: its header level, the
      block quote, or the done / todo task item. */
  lemma FragmentOfTag(s: Schema, t: Tag)
    requires Indexed(t)
    ensures t.Header? ==>
      Fragment(s, TagIndex(t)) == [s.h1Css, s.h2Css, s.h3Css, s.h4Css, s.h5Css, s.h6Css][t.level - 1]
    ensures t == BlockQuote ==> Fragment(s, TagIndex(t)) == s.blockQuoteCss
    ensures t == TaskList(true) ==> Fragment(s, TagIndex(t)) == s.taskListDoneCss
    ensures t == TaskList(false) ==> Fragment(s, TagIndex(t)) == s.taskListTodoCss
  {
  }

  /** The fragments of the used slots below `n`, each followed by a line feed. */
  function Fragments(s: Schema, flags: seq<bool>, n: nat): Bytes
    requires n <= |flags| == TAG_LEN
  {
    if n == 0 then []
    else Fragments(s, flags, n - 1) + (if flags[n - 1] then Fragment(s, n - 1) + [LF] else [])
  }

  /** The style block `write_css0` writes for a set of used slots. */
  function StyleBlock(s: Schema, flags: seq<bool>): Bytes
    requires |flags| == TAG_LEN
  {
    [LF] + s.cssTagStart + [LF] + Fragments(s, flags, TAG_LEN) + s.cssTagEnd
  }

  /** The used slots below `n`, in ascending order. */
  function UsedIndices(flags: seq<bool>, n: nat): (r: seq<nat>)
    requires n <= |flags|
    ensures forall i :: 0 <= i < |r| ==> r[i] < n && flags[r[i]]
    ensures forall i :: 0 <= i < n && flags[i] ==> i in r
  {
    if n == 0 then []
    else UsedIndices(flags, n - 1) + (if flags[n - 1] then [n - 1] else [])
  }

  predicate Ascending(r: seq<nat>) {
    forall i, j :: 0 <= i < j < |r| ==> r[i] < r[j]
  }

  /** The used slots are listed in strictly ascending order, so each at most once. */
  lemma {:induction false} UsedIndicesAscending(flags: seq<bool>, n: nat)
    requires n <= |flags|
    ensures Ascending(UsedIndices(flags, n))
  {
    if n > 0 {
      UsedIndicesAscending(flags, n - 1);
    }
  }

  /** The fragments of the listed slots, in list order. */
  function Join(s: Schema, idxs: seq<nat>): Bytes
    requires forall i :: 0 <= i < |idxs| ==> idxs[i] < TAG_LEN
  {
    if idxs == [] then []
    else Join(s, idxs[..|idxs| - 1]) + Fragment(s, idxs[|idxs| - 1]) + [LF]
  }

  /** The style block lists the fragment of every used slot exactly once, in
      ascending slot order (headers by level, block quote, done, todo). */
  lemma {:induction false} FragmentsAscending(s: Schema, flags: seq<bool>, n: nat)
    requires n <= |flags| == TAG_LEN
    ensures Fragments(s, flags, n) == Join(s, UsedIndices(flags, n))
  {
    if n > 0 {
      FragmentsAscending(s, flags, n - 1);
      var prev := UsedIndices(flags, n - 1);
      if flags[n - 1] {
        var idxs := prev + [n - 1];
        assert idxs[..|idxs| - 1] == prev;
        assert Join(s, idxs) == Join(s, prev) + Fragment(s, n - 1) + [LF];
      } else {
        assert prev + [] == prev;
      }
    }
  }

  /** With no slot used the block is only its wrapper. */
  lemma EmptyStyleBlock(s: Schema)
    ensures StyleBlock(s, NONE_USED) == [LF] + s.cssTagStart + [LF] + s.cssTagEnd
  {
    NoFragments(s, TAG_LEN);
  }

  /** A schema keeping the default wrappers writes, for a document that
      closed no construct, a line feed, `<style>`, a line feed and
      `</style>`: seventeen bytes. */
  lemma DefaultEmptyStyleBlock(s: Schema)
    requires s.cssTagStart == DEFAULT_CSS_TAG_START && s.cssTagEnd == DEFAULT_CSS_TAG_END
    ensures StyleBlock(s, NONE_USED) == [LF] + DEFAULT_CSS_TAG_START + [LF] + DEFAULT_CSS_TAG_END
    ensures |StyleBlock(s, NONE_USED)| == 17
  {
    EmptyStyleBlock(s);
  }

  lemma {:induction false} NoFragments(s: Schema, n: nat)
    requires n <= TAG_LEN
    ensures Fragments(s, NONE_USED, n) == []
  {
    if n > 0 {
      NoFragments(s, n - 1);
    }
  }

  /** The slots after marking the slot of `t` (`set_used_tag`): that slot is
      set and every other slot is as it was. */
  function Mark(flags: seq<bool>, t: Tag): (r: seq<bool>)
    requires |flags| == TAG_LEN && Indexed(t)
    ensures |r| == TAG_LEN
    ensures forall i :: 0 <= i < TAG_LEN ==> r[i] == (flags[i] || i == TagIndex(t))
  {
    flags[TagIndex(t) := true]
  }

  /** Marking twice is marking once, and marks commute: the style block
      depends only on which constructs were closed. */
  lemma MarkIdempotent(flags: seq<bool>, t: Tag)
    requires |flags| == TAG_LEN && Indexed(t)
    ensures Mark(Mark(flags, t), t) == Mark(flags, t)
  {
  }

  lemma MarksCommute(flags: seq<bool>, t: Tag, u: Tag)
    requires |flags| == TAG_LEN && Indexed(t) && Indexed(u)
    ensures Mark(Mark(flags, t), u) == Mark(Mark(flags, u), t)
  {
  }

  /** A style slot is listed after a mark exactly when it was listed before
      or is the marked tag's slot. */
  lemma MarkedFragments(flags: seq<bool>, t: Tag, i: nat)
    requires |flags| == TAG_LEN && Indexed(t)
    ensures i in UsedIndices(Mark(flags, t), TAG_LEN) <==> i in UsedIndices(flags, TAG_LEN) || i == TagIndex(t)
  {
  }

  /** A document that closed only second-level headers and done task items,
      in any order and any number of times, gets exactly those two
      fragments, the header's first. */
  lemma TwoStyles(s: Schema)
    ensures StyleBlock(s, Mark(Mark(NONE_USED, TaskList(true)), Header(2)))
      == [LF] + s.cssTagStart + [LF] + s.h2Css + [LF] + s.taskListDoneCss + [LF] + s.cssTagEnd
  {
    var flags := Mark(Mark(NONE_USED, TaskList(true)), Header(2));
    assert flags == [false, true, false, false, false, false, false, true, false];
    NoFragments(s, 1);
    assert Fragments(s, flags, 1) == Fragments(s, NONE_USED, 1);
    var h2 := s.h2Css + [LF];
    assert Fragments(s, flags, 2) == h2;
    assert Fragments(s, flags, 3) == h2;
    assert Fragments(s, flags, 4) == h2;
    assert Fragments(s, flags, 5) == h2;
    assert Fragments(s, flags, 6) == h2;
    assert Fragments(s, flags, 7) == h2;
    assert Fragments(s, flags, 8) == h2 + s.taskListDoneCss + [LF];
    assert Fragments(s, flags, 9) == h2 + s.taskListDoneCss + [LF];
  }

  /** A writer: the bytes written so far and the nine used-slot flags. */
  class HtmlWriter {
    var out: Bytes
    const used: array<bool>

    ghost predicate Valid()
      reads this
    {
      used.Length == TAG_LEN
    }

    constructor ()
      ensures Valid() && fresh(used)
      ensures out == [] && used[..] == NONE_USED
    {
      out := [];
      used := new bool[TAG_LEN](_ => false);
    }

    /** Appends bytes to the sink (`write`); the sink never fails here. */
    method Write(data: Bytes)
      modifies this
      ensures out == old(out) + data
    {
      out := out + data;
    }

    method WriteHtmlSpace()
      modifies this
      ensures out == old(out) + NBSP
    {
      Write(NBSP);
    }

    method WriteHtmlTab()
      modifies this
      ensures out == old(out) + TAB_HTML
    {
      Write(TAB_HTML);
    }

    method WriteBr()
      modifies this
      ensures out == old(out) + BR
    {
      Write(BR);
    }

    method WriteLn()
      modifies this
      ensures out == old(out) + [LF]
    {
      Write([LF]);
    }

    /** Records that a construct of kind `t` was closed; the source panics
        for tags without a slot. */
    method SetUsedTag(t: Tag)
      requires Valid() && Indexed(t)
      modifies used
      ensures used[..] == Mark(old(used[..]), t)
    {
      used[TagIndex(t)] := true;
    }

    /** Writes the style block, then clears every flag. */
    method WriteCss(s: Schema)
      requires Valid()
      modifies this, used
      ensures out == old(out) + StyleBlock(s, old(used[..]))
      ensures used[..] == NONE_USED
    {
      WriteCss0(s);
      ClearUsedTag();
    }

    /** Writes the wrapper and, for each used slot in ascending order, its
        fragment and a line feed. */
    method WriteCss0(s: Schema)
      requires Valid()
      modifies this
      ensures out == old(out) + StyleBlock(s, used[..])
    {
      WriteLn();
      Write(s.cssTagStart);
      WriteLn();
      var idx := 0;
      while idx < used.Length
        invariant 0 <= idx <= TAG_LEN
        invariant out == old(out) + [LF] + s.cssTagStart + [LF] + Fragments(s, used[..], idx)
      {
        if used[idx] {
          Write(Fragment(s, idx));
          WriteLn();
        }
        idx := idx + 1;
      }
      Write(s.cssTagEnd);
    }

    method ClearUsedTag()
      requires Valid()
      modifies used
      ensures used[..] == NONE_USED
    {
      forall i | 0 <= i < used.Length {
        used[i] := false;
      }
    }
  }
}
