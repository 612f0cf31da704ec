/** Byte-level primitives shared by the Riven and Comprehend decoders, and a model of the
    seekable read stream through which both engines read their resources.

    The stream keeps its cursor inside the data: a read that runs off the end stops the cursor
    at the end, and every byte it could not read counts as 0 (what `readByte` yields at end of
    stream). A seek past the end leaves the cursor at the end. */
module Streams {

  type byte = x: int | 0 <= x < 0x100
  type u16 = x: int | 0 <= x < 0x1_0000
  type u32 = x: int | 0 <= x < 0x1_0000_0000

  datatype Option<T> = None | Some(value: T)

  /** The outcome of an operation the source ends with a fatal `error()` on failure. */
  datatype Result<T> = Success(value: T) | Failure(message: string)

  /** The character that ends a C string. */
  const NUL: char := 0 as char

  /** The C string a `string` denotes: everything before its first NUL. */
  function CString(s: string): (r: string)
    ensures NUL !in r && |r| <= |s| && r == s[..|r|]
    ensures |r| == |s| || s[|r|] == NUL
  {
    if s == [] || s[0] == NUL then [] else [s[0]] + CString(s[1..])
  }

  function Min(a: int, b: int): int { if a <= b then a else b }

  /** The byte at position `i`, or 0 past the end of `data`. */
  function ByteAt(data: seq<byte>, i: nat): byte { if i < |data| then data[i] else 0 }

  /** The big-endian 16-bit word at position `i`. */
  function BE16At(data: seq<byte>, i: nat): u16 { ByteAt(data, i) * 0x100 + ByteAt(data, i + 1) }

  /** The little-endian 16-bit word at position `i`. */
  function LE16At(data: seq<byte>, i: nat): u16 { ByteAt(data, i) + ByteAt(data, i + 1) * 0x100 }

  /** The big-endian 32-bit word at position `i`. */
  function BE32At(data: seq<byte>, i: nat): u32 { BE16At(data, i) * 0x1_0000 + BE16At(data, i + 2) }

  // Encoders: the inverse direction, used to state round trips of the decoders.

  function BE16Bytes(w: u16): (r: seq<byte>)
    ensures |r| == 2 && BE16At(r, 0) == w
  {
    [w / 0x100, w % 0x100]
  }

  function LE16Bytes(w: u16): (r: seq<byte>)
    ensures |r| == 2 && LE16At(r, 0) == w
  {
    [w % 0x100, w / 0x100]
  }

  function BE32Bytes(w: u32): (r: seq<byte>)
    ensures |r| == 4 && BE32At(r, 0) == w
  {
    var hi, lo := BE16Bytes(w / 0x1_0000), BE16Bytes(w % 0x1_0000);
    assert ByteAt(hi + lo, 2) == ByteAt(lo, 0) && ByteAt(hi + lo, 3) == ByteAt(lo, 1);
    hi + lo
  }

  /** A sequence of words, each written big-endian, one after the other. */
  function BE16Words(ws: seq<u16>): (r: seq<byte>)
    ensures |r| == 2 * |ws|
  {
    if ws == [] then [] else BE16Bytes(ws[0]) + BE16Words(ws[1..])
  }

  function LE16Words(ws: seq<u16>): (r: seq<byte>)
    ensures |r| == 2 * |ws|
  {
    if ws == [] then [] else LE16Bytes(ws[0]) + LE16Words(ws[1..])
  }

  function BE32Words(ws: seq<u32>): (r: seq<byte>)
    ensures |r| == 4 * |ws|
  {
    if ws == [] then [] else BE32Bytes(ws[0]) + BE32Words(ws[1..])
  }

  // Reading inside a concatenation.

  lemma ByteAtRight(a: seq<byte>, b: seq<byte>, i: nat)
    ensures ByteAt(a + b, |a| + i) == ByteAt(b, i)
  {
  }

  lemma ByteAtLeft(a: seq<byte>, b: seq<byte>, i: nat)
    requires i < |a|
    ensures ByteAt(a + b, i) == ByteAt(a, i)
  {
  }

  lemma WordsAtRight(a: seq<byte>, b: seq<byte>, i: nat)
    ensures BE16At(a + b, |a| + i) == BE16At(b, i)
    ensures LE16At(a + b, |a| + i) == LE16At(b, i)
    ensures BE32At(a + b, |a| + i) == BE32At(b, i)
  {
    ByteAtRight(a, b, i);
    ByteAtRight(a, b, i + 1);
    ByteAtRight(a, b, i + 2);
    ByteAtRight(a, b, i + 3);
  }

  lemma WordsAtLeft(a: seq<byte>, b: seq<byte>, i: nat)
    requires i + 4 <= |a|
    ensures BE16At(a + b, i) == BE16At(a, i)
    ensures LE16At(a + b, i) == LE16At(a, i)
    ensures BE32At(a + b, i) == BE32At(a, i)
  {
    ByteAtLeft(a, b, i);
    ByteAtLeft(a, b, i + 1);
    ByteAtLeft(a, b, i + 2);
    ByteAtLeft(a, b, i + 3);
  }

  lemma Word16AtLeft(a: seq<byte>, b: seq<byte>, i: nat)
    requires i + 2 <= |a|
    ensures BE16At(a + b, i) == BE16At(a, i)
    ensures LE16At(a + b, i) == LE16At(a, i)
  {
    ByteAtLeft(a, b, i);
    ByteAtLeft(a, b, i + 1);
  }

  /** Word `k` of a run of big-endian words reads back as `ws[k]`. */
  lemma {:induction false} BE16WordsAt(ws: seq<u16>, k: nat)
    requires k < |ws|
    ensures BE16At(BE16Words(ws), 2 * k) == ws[k]
  {
    if k == 0 {
      Word16AtLeft(BE16Bytes(ws[0]), BE16Words(ws[1..]), 0);
    } else {
      BE16WordsAt(ws[1..], k - 1);
      WordsAtRight(BE16Bytes(ws[0]), BE16Words(ws[1..]), 2 * (k - 1));
    }
  }

  lemma {:induction false} LE16WordsAt(ws: seq<u16>, k: nat)
    requires k < |ws|
    ensures LE16At(LE16Words(ws), 2 * k) == ws[k]
  {
    if k == 0 {
      Word16AtLeft(LE16Bytes(ws[0]), LE16Words(ws[1..]), 0);
    } else {
      LE16WordsAt(ws[1..], k - 1);
      WordsAtRight(LE16Bytes(ws[0]), LE16Words(ws[1..]), 2 * (k - 1));
    }
  }

  lemma {:induction false} BE32WordsAt(ws: seq<u32>, k: nat)
    requires k < |ws|
    ensures BE32At(BE32Words(ws), 4 * k) == ws[k]
  {
    var head, tail := BE32Bytes(ws[0]), BE32Words(ws[1..]);
    assert BE32Words(ws) == head + tail;
    if k == 0 {
      WordsAtLeft(head, tail, 0);
    } else {
      BE32WordsAt(ws[1..], k - 1);
      WordsAtRight(head, tail, 4 * (k - 1));
      assert |head| + 4 * (k - 1) == 4 * k;
    }
  }

  /** A seekable read stream over immutable resource bytes. Every read is specified against a
      ghost "intended" position `at`: the cursor is `at` clamped to the data size, and what is
      read is what lies at `at` (0 beyond the end). */
  class ByteStream {
    const data: seq<byte>
    var pos: nat

    ghost predicate Valid()
      reads this
    {
      pos <= |data|
    }

    constructor (bytes: seq<byte>)
      ensures data == bytes && pos == 0 && Valid()
    {
      data := bytes;
      pos := 0;
    }

    method Seek(offset: nat)
      requires Valid()
      modifies this
      ensures Valid() && pos == Min(offset, |data|)
    {
      pos := Min(offset, |data|);
    }

    method ReadByte(ghost at: nat) returns (b: byte)
      requires Valid() && pos == Min(at, |data|)
      modifies this
      ensures Valid() && pos == Min(at + 1, |data|)
      ensures b == ByteAt(data, at)
    {
      if pos < |data| {
        b := data[pos];
        pos := pos + 1;
      } else {
        b := 0;
      }
    }

    method ReadUint16BE(ghost at: nat) returns (w: u16)
      requires Valid() && pos == Min(at, |data|)
      modifies this
      ensures Valid() && pos == Min(at + 2, |data|)
      ensures w == BE16At(data, at)
    {
      var hi := ReadByte(at);
      var lo := ReadByte(at + 1);
      w := hi as int * 0x100 + lo;
    }

    method ReadUint16LE(ghost at: nat) returns (w: u16)
      requires Valid() && pos == Min(at, |data|)
      modifies this
      ensures Valid() && pos == Min(at + 2, |data|)
      ensures w == LE16At(data, at)
    {
      var lo := ReadByte(at);
      var hi := ReadByte(at + 1);
      w := lo + hi as int * 0x100;
    }

    method ReadUint32BE(ghost at: nat) returns (w: u32)
      requires Valid() && pos == Min(at, |data|)
      modifies this
      ensures Valid() && pos == Min(at + 4, |data|)
      ensures w == BE32At(data, at)
    {
      var hi := ReadUint16BE(at);
      var lo := ReadUint16BE(at + 2);
      w := hi as int * 0x1_0000 + lo;
    }
  }
}
