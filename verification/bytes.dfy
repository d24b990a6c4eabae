/** Little-endian field decoding over a byte buffer, and the string encodings the
    geometry readers use: null-terminated strings, fixed-width marshalled strings
    (`ByValTStr`) and fixed-width character runs trimmed of NUL padding. */
module Bytes {
  import opened Results

  type byte = x: int | 0 <= x < 0x100
  type u16 = x: int | 0 <= x < 0x1_0000
  type u32 = x: int | 0 <= x < 0x1_0000_0000

  const Two32: int := 0x1_0000_0000

  /** Unsigned 32-bit arithmetic wraps modulo 2^32 (C# `uint` in an unchecked context). */
  function Wrap32(x: int): u32 {
    x % Two32
  }

  /** C# `(int)` of an integer value in an unchecked context: its low 32
      bits, read as two's complement. */
  function ToInt32(x: int): (r: int)
    ensures -0x8000_0000 <= r < 0x8000_0000
    ensures Wrap32(r) == Wrap32(x)
  {
    var w := Wrap32(x);
    if w < 0x8000_0000 then w else w - Two32
  }

  /** Little-endian unsigned 16-bit value stored at byte offset `p`. */
  function U16At(data: seq<byte>, p: nat): u16
    requires p + 2 <= |data|
  {
    data[p] as int + 0x100 * data[p + 1] as int
  }

  /** Little-endian unsigned 32-bit value stored at byte offset `p`. */
  function U32At(data: seq<byte>, p: nat): u32
    requires p + 4 <= |data|
  {
    data[p] as int + 0x100 * data[p + 1] as int + 0x1_0000 * data[p + 2] as int
      + 0x100_0000 * data[p + 3] as int
  }

  /** Little-endian signed (two's complement) 32-bit value stored at byte offset `p`. */
  function S32At(data: seq<byte>, p: nat): int
    requires p + 4 <= |data|
  {
    var u := U32At(data, p);
    if u < 0x8000_0000 then u else u - Two32
  }

  /** `n` consecutive 32-bit words starting at byte offset `p`. */
  function WordsAt(data: seq<byte>, p: nat, n: nat): (r: seq<u32>)
    requires p + 4 * n <= |data|
    ensures |r| == n
  {
    seq(n, i requires 0 <= i < n => U32At(data, p + 4 * i))
  }

  /** Little-endian encoding of a 32-bit value: the inverse of `U32At`. */
  function EncodeU32(x: u32): (r: seq<byte>)
  {
    [x % 0x100, (x / 0x100) % 0x100, (x / 0x1_0000) % 0x100, x / 0x100_0000]
  }

  lemma EncodeU32RoundTrip(x: u32)
    ensures |EncodeU32(x)| == 4 && U32At(EncodeU32(x), 0) == x
  {
    var b := EncodeU32(x);
    var q1 := x / 0x100;
    var q2 := q1 / 0x100;
    assert x == b[0] + 0x100 * q1;
    assert q1 == b[1] + 0x100 * q2;
    assert x / 0x1_0000 == q2;
    assert q2 == b[2] as int + 0x100 * b[3] as int;
  }

  /** Each byte read as the character with the same code. */
  function Latin1(bytes: seq<byte>): (r: string)
    ensures |r| == |bytes|
  {
    seq(|bytes|, i requires 0 <= i < |bytes| => bytes[i] as char)
  }

  /** A fixed-width marshalled string (`ByValTStr`): the characters before the
      first NUL byte of the field, or the whole field when it holds none. */
  function UntilNul(bytes: seq<byte>): (r: seq<byte>)
    ensures r <= bytes
    ensures 0 !in r
    ensures |r| < |bytes| ==> bytes[|r|] == 0
  {
    if bytes == [] || bytes[0] == 0 then [] else [bytes[0]] + UntilNul(bytes[1..])
  }

  /** The bytes of a null-terminated string stored at offset `p`, without the
      terminator; `None` when no NUL byte follows `p` before the end of `data`. */
  function CStringAt(data: seq<byte>, p: nat): (r: Option<seq<byte>>)
    ensures r.Some? ==> p + |r.value| < |data| && data[p + |r.value|] == 0
                        && r.value == data[p..p + |r.value|] && 0 !in r.value
    ensures r.None? && p <= |data| ==> 0 !in data[p..]
    decreases |data| - p
  {
    if p >= |data| then None
    else if data[p] == 0 then Some([])
    else
      match CStringAt(data, p + 1)
      case None => None
      case Some(rest) => Some([data[p]] + rest)
  }

  /** The string at `p` ends at the first NUL byte: when `data[p..q]` has none
      and `data[q]` is NUL, the string is exactly `data[p..q]`. */
  lemma {:induction false} CStringAtFirstNul(data: seq<byte>, p: nat, q: nat)
    requires p <= q < |data| && data[q] == 0 && 0 !in data[p..q]
    ensures CStringAt(data, p) == Some(data[p..q])
    decreases q - p
  {
    if p < q {
      assert data[p] == data[p..q][0];
      assert data[p + 1..q] == data[p..q][1..];
      CStringAtFirstNul(data, p + 1, q);
      assert data[p..q] == [data[p]] + data[p + 1..q];
    }
  }

  /** With no NUL byte from `p` to the end there is no string at `p`. */
  lemma {:induction false} CStringAtNoNul(data: seq<byte>, p: nat)
    requires p <= |data| && 0 !in data[p..]
    ensures CStringAt(data, p).None?
    decreases |data| - p
  {
    if p < |data| {
      assert data[p] == data[p..][0];
      assert data[p + 1..] == data[p..][1..];
      CStringAtNoNul(data, p + 1);
    }
  }

  /** The index of the first character at or after `i` that is not NUL
      (`|s|` when there is none). */
  function FirstNonNul(s: string, i: nat): (k: nat)
    requires i <= |s|
    ensures i <= k <= |s|
    ensures forall j :: i <= j < k ==> s[j] == '\0'
    ensures k < |s| ==> s[k] != '\0'
    decreases |s| - i
  {
    if i == |s| || s[i] != '\0' then i else FirstNonNul(s, i + 1)
  }

  /** The end of the last character before `e` that is not NUL, looking no
      further back than `lo` (`lo` when there is none). */
  function LastNonNulEnd(s: string, lo: nat, e: nat): (k: nat)
    requires lo <= e <= |s|
    ensures lo <= k <= e
    ensures forall j :: k <= j < e ==> s[j] == '\0'
    ensures k > lo ==> s[k - 1] != '\0'
    decreases e
  {
    if e == lo || s[e - 1] != '\0' then e else LastNonNulEnd(s, lo, e - 1)
  }

  /** C# `Trim('\0')`: NUL characters are removed from both ends, and only
      there: the result is a slice of `s` that neither starts nor ends with
      a NUL, and every character around it is NUL. */
  function TrimNul(s: string): (r: string)
    ensures var i := FirstNonNul(s, 0);
            i + |r| <= |s| && r == s[i..i + |r|]
            && (forall k :: 0 <= k < i ==> s[k] == '\0')
            && (forall k :: i + |r| <= k < |s| ==> s[k] == '\0')
            && (r != [] ==> r[0] != '\0' && r[|r| - 1] != '\0')
  {
    var i := FirstNonNul(s, 0);
    s[i..LastNonNulEnd(s, i, |s|)]
  }
}
