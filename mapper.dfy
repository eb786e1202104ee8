/** The mapper (src/mapper.rs): turns parser actions into markup by looking
    the strings up in its schema and writing them through its HTML writer. */
module Mapping {
  import opened Bytes
  import opened Tags
  import opened Html

  class Mapper {
    const schema: Schema
    const writer: HtmlWriter

    ghost predicate Valid()
      reads this, writer
    {
      writer.Valid()
    }

    constructor (s: Schema, w: HtmlWriter)
      requires w.Valid()
      ensures schema == s && writer == w && Valid()
    {
      schema := s;
      writer := w;
    }

    /** Closes a header: its end string and a line end. The header's style
        slot is left as it was. */
    method WriteHeaderEnd(level: Level)
      requires 1 <= level <= 6
      modifies writer
      ensures writer.out == old(writer.out) + HeaderEnd(schema, level) + [LF]
      ensures writer.used[..] == old(writer.used[..])
    {
      writer.Write(HeaderEnd(schema, level));
      writer.WriteLn();
    }

    method WriteBr()
      modifies writer
      ensures writer.out == old(writer.out) + BR + [LF]
    {
      writer.WriteBr();
      writer.WriteLn();
    }

    method WriteHtmlSpace()
      modifies writer
      ensures writer.out == old(writer.out) + NBSP
    {
      writer.WriteHtmlSpace();
    }

    method WriteHtmlTab()
      modifies writer
      ensures writer.out == old(writer.out) + TAB_HTML
    {
      writer.WriteHtmlTab();
    }

    method Write(data: Bytes)
      modifies writer
      ensures writer.out == old(writer.out) + data
    {
      writer.Write(data);
    }

    /** Opens a construct: its start string and a line end. The source
        panics for `None` and header levels outside 1..6. */
    method WriteTagStart(t: Tag)
      requires Indexed(t)
      modifies writer
      ensures writer.out == old(writer.out) + StartTag(schema, t) + [LF]
    {
      writer.Write(StartTag(schema, t));
      writer.WriteLn();
    }

    /** Closes a construct: its end string, no line end, and marks its style
        slot. Marking panics in the source for `None`, so the caller must
        hold an indexable tag. */
    method WriteTagEnd(t: Tag)
      requires Valid() && Indexed(t)
      modifies writer, writer.used
      ensures Valid()
      ensures writer.out == old(writer.out) + EndTag(schema, t)
      ensures writer.used[..] == Mark(old(writer.used[..]), t)
    {
      writer.Write(EndTag(schema, t));
      writer.SetUsedTag(t);
    }

    /** Emits the one style block for the slots marked so far, then clears them. */
    method WriteCss()
      requires Valid()
      modifies writer, writer.used
      ensures Valid()
      ensures writer.out == old(writer.out) + StyleBlock(schema, old(writer.used[..]))
      ensures writer.used[..] == NONE_USED
    {
      writer.WriteCss(schema);
    }
  }
}
