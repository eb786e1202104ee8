# md_engine core in Dafny

md_engine is a one-pass Markdown-to-HTML transducer. Bytes come in, already
split into decoded units of 1 to 4 bytes. The tokenizer classifies them into
tokens: space, tab, line feed, plain text, and the markers of three
constructs (header `#`..`######`, block quote `> `, task item `- [ ] ` /
`- [x] `). It recognises markers only at the start of a line, by speculative
lookahead through a 10-byte replay cache. The parser is a six-state machine
over the tokens. It drives the mapper, which writes markup strings from a
schema (the output dialect). The HTML writer substitutes spaces, tabs and
line breaks. It also records which constructs were closed, so that one style
block at the end of the document lists each of their style fragments once,
in a fixed order.

The model has one module per core source file:

- `Bytes` (bytes.dfy): bytes, decoded units and the byte constants the recognisers look for.
- `Tags` (tag.dfy): construct kinds, their widths, the dense style index and the schema lookups.
- `Tokenizer` (tokenizer.dfy):
  - the reference pull functions `NextTokenAsWritten` and `NextToken`;
  - the classes `CharCache` and `Tokenizer`, whose `Next` is proved to follow `NextToken`.
- `TokenStream` (token_stream.dfy), whole-stream properties of the tokenizer:
  - how the stream ends;
  - where markers occur;
  - that tokens carry exactly the input bytes;
  - what escapes and tab runs yield.
- `Html` (html_writer.dfy): the `HtmlWriter` class (its sink `out` and its array of nine used-style flags) and the style-block specification.
- `Mapping` (mapper.dfy): the `Mapper` class.
- `Parsing` (parser.dfy):
  - the pure reference `Transition`, `Feed` and `Render`;
  - the position record;
  - the `StatefulParser` class, whose `ParseAndWrite` loop is proved to write exactly what `Render` prescribes.

The input is a sequence of units plus a flag `failed`. The flag says that
the input ends in a read failure rather than a clean end. Every pull after
that point reports the failure again, so each `Err(_) => continue` of the
tokenizer comes back as the error on the next pull.

Two defects of the source are modelled both as written and corrected (see
"## Findings"). `Render(false, ...)` is the pipeline as written.
`Render(true, ...)` carries both corrections, and the imperative classes
implement it.

`Mapper::write_header_end` (src/mapper.rs:19-23) writes the header's end
string without marking the header's style slot. So a header style appears
only when the document ends inside a header line, which closes the header
through `solve_end` and `write_tag_end` instead. `Mapping.Mapper.WriteHeaderEnd`
states that the flags are unchanged.

## Model

| member | source | states |
|---|---|---|
| Tags.CharLen | src/tag.rs:16-23 | a tag occupies zero columns exactly when it is `None` |
| Tags.TagIndex | src/tag.rs:25-39 | every indexed tag has a style index below 9, and the index is below 6 exactly for headers |
| Tags.IndexedTag | src/tag.rs:25-39 | every index below 9 belongs to an indexed tag that maps back to it |
| Tags.TagIndexRoundTrip | src/tag.rs:25-39 | mapping an indexed tag to its index and back gives the tag |
| Tags.TagIndexInjective | src/tag.rs:25-39 | two indexed tags share an index if and only if they are equal |
| Tags.TagIndexOrder | src/tag.rs:25-39 | headers by level come before the block quote, which comes before done and then todo task items |
| Tags.HeaderStart | src/tag.rs:71-81 | a header of level 1..6 starts with the schema's start string at position level-1 of the style order |
| Tags.HeaderEnd | src/tag.rs:83-93 | a header of level 1..6 ends with the schema's end string at position level-1 |
| Tags.StartTag | src/tag.rs:41-54 | the start string of an indexed tag is the one at its style index |
| Tags.EndTag | src/tag.rs:56-69 | `None` ends with nothing; an indexed tag ends with the end string at its style index |
| Tokenizer.TokenCharLen | src/tokenizer.rs:313-322 | a token has zero width exactly when it is a line feed, a `None` tag or an empty text |
| Tokenizer.PureTextOf | src/tokenizer.rs:38-45 | a unit read alone is a one-column text token holding exactly its bytes |
| Tokenizer.Replay | src/tokenizer.rs:47-56 | an abandoned marker match is a text token at least one column wide |
| Tokenizer.HeaderFrom | src/tokenizer.rs:206-234 | the header branch consumes at least the `#`s read and leaves line start; a header it emits always has a style slot (level 1..6); when it yields no token it reports the input's end or failure |
| Tokenizer.QuoteStep | src/tokenizer.rs:235-250 | the quote branch always consumes `>` and leaves line start; when it yields no token it reports the input's end or failure |
| Tokenizer.TaskFrom | src/tokenizer.rs:251-295 | the task branch consumes what it matched, leaves line start, and a replay it emits is at least one column wide |
| Tokenizer.TaskFromEnd | src/tokenizer.rs:288 | an input ending mid-pattern ends the stream, dropping the bytes matched so far |
| Tokenizer.TaskFromMismatch | src/tokenizer.rs:269-281 | a mismatch at pattern position k replays `-`, the k matched bytes and the mismatching unit, with width k+1 plus that unit's bytes plus one |
| Tokenizer.TaskFromMatch | src/tokenizer.rs:259-284 | a matching unit moves the match one position on |
| Tokenizer.NextTokenAsWritten | src/tokenizer.rs:146-310 | one pull as written makes progress when it yields a token and otherwise reports the end or the failure of the input; a marker is yielded only at line start and always has a style slot; text is never zero-width |
| Tokenizer.NextToken | src/tokenizer.rs:303-305 | the corrected pull yields the same token and position as the pull as written, and it returns to line start only on a line feed |
| Tokenizer.CharCache.constructor | src/tokenizer.rs:77-82 | a new cache is empty with zero width |
| Tokenizer.CharCache.Get | src/tokenizer.rs:106-108 | the cached bytes are exactly `len` bytes |
| Tokenizer.CharCache.Put | src/tokenizer.rs:89-97 | below capacity, one byte is appended and one column credited |
| Tokenizer.CharCache.PutChr | src/tokenizer.rs:99-104 | all the unit's bytes are appended and its byte count plus one column credited |
| Tokenizer.CharCache.Clear | src/tokenizer.rs:110-113 | the cache is empty with zero width |
| Tokenizer.Tokenizer.constructor | src/tokenizer.rs:117-125 | a tokenizer starts at the first unit in state `Start` with an empty cache |
| Tokenizer.Tokenizer.GetCache | src/tokenizer.rs:136-140 | the cached bytes and width become one text token and the cache is emptied |
| Tokenizer.Tokenizer.ReplayCache | src/tokenizer.rs:136-140 | a cache holding the units of an abandoned match yields exactly the reference replay token |
| Tokenizer.Tokenizer.Next | src/tokenizer.rs:146-310 | the token or end, the new position and the new line state of one pull are those of the reference `NextToken` |
| Tokenizer.Tokenizer.ReadHeader | src/tokenizer.rs:206-234 | the header branch yields exactly what `HeaderFrom` prescribes |
| Tokenizer.Tokenizer.HeaderIteration | src/tokenizer.rs:210-230 | one pass of the header loop either stops with the reference result or deepens the level without changing it |
| Tokenizer.Tokenizer.HeaderUnit | src/tokenizer.rs:212-227 | on a unit that is present, a `#` below level 6 continues the loop, and anything else stops it with the reference result |
| Tokenizer.Tokenizer.Absorb | src/tokenizer.rs:212-213 | the next unit is read and cached; the cache still holds exactly the units since the marker began |
| Tokenizer.Tokenizer.CacheHoldsUnits | src/tokenizer.rs:208 | after the first marker byte the cache holds that one unit and no extra width |
| Tokenizer.Tokenizer.CacheGrows | src/tokenizer.rs:213 | caching one more unit appends its bytes and credits its bytes plus one column |
| Tokenizer.Tokenizer.ReadQuote | src/tokenizer.rs:235-250 | the quote branch yields exactly what `QuoteStep` prescribes |
| Tokenizer.Tokenizer.ReadTask | src/tokenizer.rs:251-295 | the task branch yields exactly what `TaskFrom` prescribes from the start of the pattern |
| Tokenizer.Tokenizer.TaskIteration | src/tokenizer.rs:255-290 | one pass of the pattern loop either stops with the reference result or keeps the cache invariant one position on |
| Tokenizer.Tokenizer.MatchPattern | src/tokenizer.rs:259-282 | a unit matches a pattern position exactly per `TaskMatches`; a match is the byte kept; an `x` at the `?` position marks the item done |
| Tokenizer.Tokenizer.PutMatched | src/tokenizer.rs:284 | a matched byte extends the cache to the units read so far, one column each |
| Tokenizer.Tokenizer.ReplayMismatch | src/tokenizer.rs:269-281 | a mismatching unit ends the match with exactly the reference replay |
| TokenStream.NextOf | src/tokenizer.rs:146-310 | both variants of a pull agree on the token and on the position reached |
| TokenStream.TokensFromStep | src/tokenizer.rs:146-310 | the stream is the first pull's token ahead of the rest, or empty at the end |
| TokenStream.Tokenize | src/tokenizer.rs:143-310 | the stream of a document ends in failure exactly when the input does |
| TokenStream.StreamFailsIffInputFails | src/tokenizer.rs:307 | from any position, the stream stops on an I/O error exactly when the input fails |
| TokenStream.OnlyLineFeedsHaveNoWidth | src/tokenizer.rs:313-322 | every marker in the stream has a style slot, and only line feeds have zero width |
| TokenStream.TagsFollowLineFeeds | src/tokenizer.rs:203-205 | in the corrected stream, a marker is either the first token from line start or comes right after a line feed |
| TokenStream.TagsAtLineStart | src/tokenizer.rs:203-205 | in a document's token stream, a marker is the first token or follows a line feed |
| TokenStream.TextThenHash | src/tokenizer.rs:303-305 | the input is a multi-byte unit, then `#`, then a space |
| TokenStream.AsWrittenTagAfterText | src/tokenizer.rs:303-305 | as written, that line yields a text token and then a level-1 header marker in mid-line |
| TokenStream.TextThenHashIsText | src/tokenizer.rs:303-305 | with the correction, the same line is three text-level tokens and no marker |
| TokenStream.TextFitsCache | src/tokenizer.rs:75-76 | every text token in any stream fits the 10-byte replay cache |
| TokenStream.StepFitsCache | src/tokenizer.rs:75-76 | the text token of any single pull fits the cache |
| TokenStream.HeaderFitsCache | src/tokenizer.rs:206-234 | a header replay (at most six `#` and one unit) fits the cache |
| TokenStream.TaskFitsCache | src/tokenizer.rs:251-295 | a task replay (at most five single bytes and one unit) fits the cache |
| TokenStream.MarkerText | src/tag.rs:16-23 | the bytes a marker stands for are as many as its width |
| TokenStream.ByteConservation | src/tokenizer.rs:146-310 | for input without `\` escapes and without carriage returns that ends in a line feed, the tokens, with markers spelled out, carry exactly the input bytes |
| TokenStream.KeepsBytesFrom | src/tokenizer.rs:146-310 | the same from any position: the rest of the stream carries exactly the rest of the input |
| TokenStream.StepKeepsBytes | src/tokenizer.rs:146-310 | one pull carries exactly the units it consumes |
| TokenStream.QuoteKeepsBytes | src/tokenizer.rs:235-250 | the quote branch carries exactly the units it consumes |
| TokenStream.HeaderKeepsBytes | src/tokenizer.rs:206-234 | the header branch carries exactly the units it consumes |
| TokenStream.HeaderReplayKeepsBytes | src/tokenizer.rs:215-226 | an abandoned header replays exactly the units it read |
| TokenStream.HeaderMarkerKeepsBytes | src/tokenizer.rs:222-233 | a header marker stands for exactly its `#`s and the space |
| TokenStream.TaskMatchIsByte | src/tokenizer.rs:259-282 | a unit matching the task pattern is a single byte other than a line feed |
| TokenStream.TaskKeepsBytes | src/tokenizer.rs:251-295 | the task branch carries exactly the units it consumes |
| TokenStream.TaskMarkerKeepsBytes | src/tokenizer.rs:292-294 | a task marker stands for exactly the six bytes matched |
| TokenStream.TaskMismatchKeepsBytes | src/tokenizer.rs:269-281 | a task replay carries exactly the units it read |
| TokenStream.TaskListKeepsBytes | src/tokenizer.rs:251-295 | the six matched bytes are the marker's spelling, done exactly when the `?` position held `x` |
| TokenStream.Escape | src/tokenizer.rs:152-160 | escaping doubles the length of the input |
| TokenStream.Literals | src/tokenizer.rs:152-160 | there is one literal text token per escaped unit |
| TokenStream.EscapeRoundTrip | src/tokenizer.rs:152-164 | from any line state, escaping every unit yields exactly those units back as one-column text tokens, with no marker, line feed or space |
| TokenStream.EscapedFrom | src/tokenizer.rs:152-160 | the same holds for an escaped tail of any input |
| TokenStream.TabsCount | src/tokenizer.rs:170-178 | n consecutive tabs yield tab tokens and a line state counting n more tabs than before |
| Html.TagLenIsIndexRange | src/html_writer.rs:8 | the nine style slots are exactly the range of the style index |
| Html.TabIsFourSpaces | src/html_writer.rs:14-20 | a tab is written as exactly four space substitutes |
| Html.Fragment | src/html_writer.rs:51-62 | slot i holds the schema's i-th style fragment |
| Html.FragmentOfTag | src/html_writer.rs:48-62 | the slot of a tag holds that construct's own style (header of its level, quote, done, todo) |
| Html.UsedIndices | src/html_writer.rs:48-49 | the listed slots are exactly the used slots |
| Html.UsedIndicesAscending | src/html_writer.rs:48-49 | used slots are listed in strictly ascending order, hence each once |
| Html.FragmentsAscending | src/html_writer.rs:42-73 | the style block lists the fragment of every used slot, once each, in ascending slot order |
| Html.EmptyStyleBlock | src/html_writer.rs:42-73 | with no slot used the style block is only its wrapper |
| Html.DefaultEmptyStyleBlock | src/schema.rs:34-38 | with the default `<style>` and `</style>` wrappers, a document that closed no construct ends in those two wrappers on their own lines, seventeen bytes in all |
| Html.NoFragments | src/html_writer.rs:48-67 | no slot used means no fragment written |
| Html.Mark | src/html_writer.rs:30-34 | marking a tag sets exactly its slot and keeps every other slot |
| Html.MarkIdempotent | src/html_writer.rs:30-34 | marking a tag twice is marking it once |
| Html.MarksCommute | src/html_writer.rs:30-34 | the order of marks does not matter |
| Html.MarkedFragments | src/html_writer.rs:30-34 | a slot is listed after a mark if and only if it was listed before or is the marked tag's slot |
| Html.TwoStyles | src/html_writer.rs:42-73 | a document that closed level-2 headers and done task items gets exactly those two fragments, header first |
| Html.HtmlWriter.constructor | src/html_writer.rs:9 | a new writer has written nothing and uses no slot |
| Html.HtmlWriter.Write | src/html_writer.rs:12 | the bytes are appended to the sink |
| Html.HtmlWriter.WriteHtmlSpace | src/html_writer.rs:14-16 | a space substitute is appended |
| Html.HtmlWriter.WriteHtmlTab | src/html_writer.rs:18-20 | a tab substitute is appended |
| Html.HtmlWriter.WriteBr | src/html_writer.rs:22-24 | a line break is appended |
| Html.HtmlWriter.WriteLn | src/html_writer.rs:26-28 | a line feed is appended |
| Html.HtmlWriter.SetUsedTag | src/html_writer.rs:30-34 | exactly the tag's slot is set |
| Html.HtmlWriter.WriteCss | src/html_writer.rs:36-40 | the style block of the slots used so far is appended and every slot is cleared |
| Html.HtmlWriter.WriteCss0 | src/html_writer.rs:42-73 | the loop appends the wrapper around each used slot's fragment, in ascending order |
| Html.HtmlWriter.ClearUsedTag | src/html_writer.rs:75-79 | no slot is used |
| Mapping.Mapper.constructor | src/mapper.rs:12-17 | the mapper holds the schema and the writer it is given |
| Mapping.Mapper.WriteHeaderEnd | src/mapper.rs:19-23 | a header is closed by its end string and a line feed, without marking its style slot |
| Mapping.Mapper.WriteBr | src/mapper.rs:25-28 | a line break and a line feed are appended |
| Mapping.Mapper.WriteHtmlSpace | src/mapper.rs:30-32 | a space substitute is appended |
| Mapping.Mapper.WriteHtmlTab | src/mapper.rs:34-36 | a tab substitute is appended |
| Mapping.Mapper.Write | src/mapper.rs:38-40 | text is appended unchanged |
| Mapping.Mapper.WriteTagStart | src/mapper.rs:42-45 | a construct opens with its start string and a line feed |
| Mapping.Mapper.WriteTagEnd | src/mapper.rs:47-52 | a construct closes with its end string (no line feed) and its style slot is marked |
| Mapping.Mapper.WriteCss | src/mapper.rs:54-56 | one style block for the slots marked so far is appended, then the slots are cleared |
| Parsing.Transition | src/parser.rs:145-229 | one token panics exactly on a marker outside the states that take one (or one without a slot); it keeps the context invariant, never clears a used slot, and after a line feed the parser is in a state that takes a marker |
| Parsing.Feed | src/parser.rs:138-230 | feeding tokens never clears a used slot |
| Parsing.FinishAsWritten | src/parser.rs:233-237 | the end of the stream as written panics exactly when nothing is open |
| Parsing.Finish | src/parser.rs:233-237 | the guarded end never panics; it closes what is open, marks its slot, writes one style block of every marked slot and clears the slots |
| Parsing.RenderFromIsRender | src/parser.rs:137-240 | pulling and feeding token by token gives the same run as tokenizing first and feeding the whole stream |
| Parsing.AfterComplete | src/parser.rs:231-237 | bytes written before the end of the run stay ahead of what the end writes |
| Parsing.FeedNeverPanics | src/parser.rs:145-229 | a stream whose markers all have slots and all follow line feeds never panics and keeps the context invariant |
| Parsing.NeverPanics | src/parser.rs:137-240 | the corrected run of every document completes; it returns an I/O error exactly when the input fails |
| Parsing.EmptyDocumentPanics | src/parser.rs:233-234 | as written, the empty document panics at the end of the stream |
| Parsing.EmptyDocumentRenders | src/parser.rs:233-237 | corrected, the empty document is only the empty style block |
| Parsing.TextThenHashPanics | src/parser.rs:181 | as written, a multi-byte unit followed by `# ` panics in the text state |
| Parsing.TextThenHashRenders | src/parser.rs:170-185 | corrected, that line is written as text: the unit, `#`, a space substitute, then the empty style block |
| Parsing.RenderOfFed | src/parser.rs:233-237 | a clean stream fed to a context with nothing open renders as what was fed, then the style block |
| Parsing.TextThenHashFed | src/parser.rs:146-185 | the corrected tokens of that line feed through the line-start and text states |
| Parsing.FeedOne | src/parser.rs:145-229 | feeding one token is one transition |
| Parsing.FeedSnoc | src/parser.rs:138-230 | feeding one more token continues from where the earlier tokens left off |
| Parsing.FeedAppend | src/parser.rs:138-230 | feeding two sequences is feeding the second from where the first left off |
| Parsing.TextInBlock | src/parser.rs:204-207 | text inside a construct is written verbatim and leaves the parser in `Value` |
| Parsing.OpenThenText | src/parser.rs:159-160 | a marker at line start and its text write the start string, a line feed and the text |
| Parsing.HeaderLine | src/parser.rs:195-202 | a header line writes the start string, the text, then the end string and a line feed, leaving nothing open at line start with its slot unmarked |
| Parsing.BlankLineClosesBlock | src/parser.rs:217-220 | a quote or task line followed by a blank line writes the start string, the text, a line break and the end string, and marks the slot |
| Parsing.TrackCountsLines | src/parser.rs:61-68 | when only line feeds have zero width, the record's line advances by the line feeds and its column is the width since the last one |
| Parsing.RecordCountsLines | src/parser.rs:143 | over a document, the record's line is one plus the number of line feeds |
| Parsing.Record.constructor | src/parser.rs:54-59 | the record starts at line 1, column 0 |
| Parsing.Record.UpdateNums | src/parser.rs:61-68 | a zero-width token starts the next line at column 0; any other width advances the column |
| Parsing.StatefulParser.constructor | src/parser.rs:96-104 | a new parser is in `Start` with nothing open, at the first unit and position 1:0 |
| Parsing.StatefulParser.TrySolveHeaderEnd | src/parser.rs:106-115 | reports whether a header was open; if so it writes the header end, returns to line start and leaves nothing open; otherwise nothing changes |
| Parsing.StatefulParser.SolveStart | src/parser.rs:122-127 | opens the construct with its start string and a line feed |
| Parsing.StatefulParser.SolveEnd | src/parser.rs:129-133 | closes the open construct with its end string and marks its slot |
| Parsing.StatefulParser.SolveEndAndStart | src/parser.rs:117-120 | closes the open construct, then opens the new one |
| Parsing.StatefulParser.Consume | src/parser.rs:145-229 | the parser's state and its written bytes follow `Transition` for the token |
| Parsing.StatefulParser.ConsumeAtLineStart | src/parser.rs:146-169 | the same, in `Start` and `Ln` |
| Parsing.StatefulParser.ConsumeInText | src/parser.rs:170-185 | the same, in `PureText` |
| Parsing.StatefulParser.ConsumeInBlock | src/parser.rs:186-208 | the same, in `Tag` and `Value` |
| Parsing.StatefulParser.ConsumeOnBlockLine | src/parser.rs:210-228 | the same, in `BlockValueLn` |
| Parsing.StatefulParser.Conclude | src/parser.rs:233-237 | the end of the stream writes exactly what the guarded `Finish` prescribes |
| Parsing.StatefulParser.Turn | src/parser.rs:139-237 | one pull either ends the run with the reference outcome, or consumes the reference's next token and writes its bytes |
| Parsing.StatefulParser.Iterate | src/parser.rs:138-239 | the loop's invariant is kept, and the tokenizer moves forward on every turn that does not finish |
| Parsing.StatefulParser.ParseAndWrite | src/parser.rs:137-240 | the status returned and every byte written are those of the reference run, and the record has advanced over every token |
| Parsing.RenderFromStep | src/parser.rs:139-237 | one pull of the reference run: the failure, the end, or a token fed ahead of the rest |
| Parsing.FreshParserRenders | src/parser.rs:96-104 | a fresh parser's reference run is the corrected `Render` of its whole input |

## Left out

- The UTF-8 decoder (`ChrIter` in the `chr` crate) is not part of this model. The input is already a sequence of 1 to 4 byte units, and a decoding or read error is a flag meaning the input ends in a persistent failure.
- Reading the file, `BufWriter`, `main.rs`, `lib.rs` and `error_handle.rs` are I/O and orchestration. They are not part of this model.
- Writer failures and partial writes are left out: the sink always accepts all bytes. So every `?` on a write in the parser and mapper is the success path.
- `SyntaxError` is never constructed in the source, and the `Debug` impls are only formatting. Both are left out.
- Schema strings are parameters. The concrete HTML dialect (`src/schema.rs`), apart from its default `<style>` wrappers, and the `EnumLen` derive that counts tag variants (`enum_len`) are not part of this model: the variant count is the constant 4.
- `Tokenizer::get_lifetime` is an unsafe lifetime extension. Tokens own their bytes here, so it has no counterpart.
- The process-wide `USED_TAG` array is a field of each `HtmlWriter`. Sharing it between writers, and between threads, is not modelled.
- Parsing.Record.UpdateNums: line and column are unbounded, so `u32` overflow of the counters (and of the tab count in the tokenizer's `Tab(u32)` state) is not modelled. It needs more than four billion lines or columns.
- Tokenizer.Tokenizer.Next: implements the corrected line state. The as-written pull is the reference function `Tokenizer.NextTokenAsWritten`, which has no class counterpart.
- Parsing.StatefulParser.ParseAndWrite: implements the corrected end of the stream. The as-written end is the reference function `Parsing.FinishAsWritten`, reached through `Render(false, ...)`.
- Parsing.StatefulParser.Consume: requires that the token does not panic. The panicking cases (`unreachable!` at src/parser.rs:181 and 203, a marker without a slot) are the `Panic` outcome of `Parsing.Transition`, and `Parsing.FeedNeverPanics` shows the corrected tokenizer never produces them.
- TokenStream.ByteConservation: stated for input without `\` escapes and without carriage returns that ends in a line feed. An escape drops the backslash. A carriage return, alone or before a line feed, becomes one line-feed token, which stands for a single LF byte. A marker completed by the end of the input has no trailing space. `TokenStream.EscapeRoundTrip` covers escapes on their own.
- A panic is modelled as an outcome with no bytes (`Parsing.Outcome.Panic`, `Parsing.Rendered.Panicked`). In the source, the output buffer is flushed while the panic unwinds, so the output file keeps everything written before the `unreachable!`. The model drops that partial output.

## Findings

| source | as written | input that shows it | evidently intended | confidence | as-written member | corrected member |
|---|---|---|---|---|---|---|
| src/parser.rs:233-234 | at the end of the stream `solve_end` is called unconditionally, so `write_tag_end(Tag::None)` reaches `tag_index(None)`, which is `unreachable!` (src/tag.rs:27, via src/mapper.rs:49) | the empty document; also any document whose last line ends outside a block | close only when a construct is open, then write the style block | high (not executed) | Parsing.EmptyDocumentPanics | Parsing.EmptyDocumentRenders |
| src/tokenizer.rs:303-305 | a multi-byte unit at line start keeps the tokenizer's line-start state, so a following `#`, `>` or `-` is taken as a marker mid-line and the parser, in `PureText`, reaches `unreachable!` (src/parser.rs:181) | the bytes C3 A9 23 20 (`é# `) | a multi-byte unit leaves line start like any other text | high (not executed) | Parsing.TextThenHashPanics | Parsing.TextThenHashRenders |
