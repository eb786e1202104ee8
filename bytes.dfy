/** Raw bytes, the byte values the markup recognisers look for, and the
    few sequence helpers the rest of the model shares. */
module Bytes {

  /** An unsigned 8-bit value (Rust's `u8`). */
  type byte = x: int | 0 <= x < 256

  type Bytes = seq<byte>

  /** One decoded scalar unit: 1 to 4 raw bytes (a `Chr` of the decoder). */
  type Unit = u: Bytes | 1 <= |u| <= 4 witness [0]

  const TAB: byte := 0x09
  const LF: byte := 0x0A
  const CR: byte := 0x0D
  const SPACE: byte := 0x20
  const HASH: byte := 0x23        // '#'
  const DASH: byte := 0x2D        // '-'
  const GT: byte := 0x3E          // '>'
  const LBRACKET: byte := 0x5B    // '['
  const BACKSLASH: byte := 0x5C   // '\'
  const RBRACKET: byte := 0x5D    // ']'
  const LOWER_X: byte := 0x78     // 'x'
  const QUESTION: byte := 0x3F    // '?'

  /** The bytes of a string whose characters are all below 256 (used for the
      ASCII literals the writer emits). */
  function Ascii(s: string): (r: Bytes)
    requires forall i :: 0 <= i < |s| ==> s[i] as int < 256
    ensures |r| == |s|
    ensures forall i :: 0 <= i < |s| ==> r[i] == s[i] as int
  {
    seq(|s|, i requires 0 <= i < |s| => s[i] as int)
  }

  /** `Chr == u8`: a unit equals a byte only when it is that single byte. */
  predicate IsByte(u: Bytes, b: byte) {
    |u| == 1 && u[0] == b
  }

  /** Concatenation of a sequence of byte strings (built from the right, the
      order in which the replay cache fills). */
  function Flatten(us: seq<Bytes>): Bytes {
    if us == [] then [] else Flatten(us[..|us| - 1]) + us[|us| - 1]
  }

  /** `n` copies of one byte. */
  function Repeat(b: byte, n: nat): (r: Bytes)
    ensures |r| == n
    ensures forall i :: 0 <= i < n ==> r[i] == b
  {
    if n == 0 then [] else [b] + Repeat(b, n - 1)
  }

  lemma {:induction false} FlattenAppend(xs: seq<Bytes>, ys: seq<Bytes>)
    ensures Flatten(xs + ys) == Flatten(xs) + Flatten(ys)
    decreases |ys|
  {
    if ys == [] {
      assert xs + ys == xs;
    } else {
      var last := ys[|ys| - 1];
      assert (xs + ys)[..|xs + ys| - 1] == xs + ys[..|ys| - 1];
      FlattenAppend(xs, ys[..|ys| - 1]);
    }
  }

  lemma FlattenSnoc(xs: seq<Bytes>, x: Bytes)
    ensures Flatten(xs + [x]) == Flatten(xs) + x
  {
    assert (xs + [x])[..|xs|] == xs;
  }
}
