/** Byte strings, as the parsers see them. */
module ByteStrings {

  type byte = b: int | 0 <= b < 256

  type Bytes = seq<byte>

  const NUL: byte := 0
  const LF: byte := 10
  const CR: byte := 13
  const SPACE: byte := 32
  const COLON: byte := 58

  /** The position of the first `b` in `s`, or `|s|` when there is none. */
  function IndexOf(s: Bytes, b: byte): (i: nat)
    ensures i <= |s|
    ensures i < |s| ==> s[i] == b
    ensures forall j :: 0 <= j < i ==> s[j] != b
  {
    if s == [] || s[0] == b then 0 else 1 + IndexOf(s[1..], b)
  }

  /** The bytes of a chunked stream. */
  function Concat(chunks: seq<Bytes>): Bytes {
    if chunks == [] then [] else chunks[0] + Concat(chunks[1..])
  }

  lemma {:induction false} IndexOfIs(s: Bytes, b: byte, i: nat)
    requires i <= |s|
    requires b !in s[..i]
    requires i < |s| ==> s[i] == b
    ensures IndexOf(s, b) == i
  {
    assert forall j :: 0 <= j < i ==> s[..i][j] == s[j];
  }
}
