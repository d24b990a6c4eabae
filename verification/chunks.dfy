/** The chunk layer shared by the three solid-list readers: chunk identifiers,
    the cursor trajectory of a chunk walk, and the skip over `0x11111111`
    padding words at the start of a leaf payload. */
module Chunks {
  import opened Results
  import opened Bytes
  import opened Stream

  const SolidListInfoChunk: u32 := 0x0013_4002
  const CompressedOffsetsChunk: u32 := 0x0013_4004
  const ObjectRootChunk: u32 := 0x8013_4010
  const ObjectHeaderChunk: u32 := 0x0013_4011
  const TextureHashesChunk: u32 := 0x0013_4012
  const MeshDescriptorChunk: u32 := 0x0013_4900
  const VertexBufferChunk: u32 := 0x0013_4B01
  const ShadingGroupChunk: u32 := 0x0013_4B02
  const FacesChunk: u32 := 0x0013_4B03
  const MaterialNameChunk: u32 := 0x0013_4C02
  const TerminatorChunk: u32 := 0x5544_1122
  const PaddingWord: u32 := 0x1111_1111

  /** `(id & 0x80000000) == 0x80000000`: the top bit of a 32-bit id marks a container. */
  predicate IsContainer(id: u32) {
    id >= 0x8000_0000
  }

  /** Where the cursor of a chunk loop over `[pos, end)` comes to rest, given
      only the chunk headers: each chunk is an id, a size and `size` payload
      bytes, and the next chunk starts at `start + 8 + size` whatever the
      handler read. With `stopAtTerminator`, a terminator id ends the walk just
      after its header. `None` when a header cannot be read. */
  function ChunkWalk(data: seq<byte>, pos: nat, end: int, stopAtTerminator: bool): (r: Option<nat>)
    ensures r.Some? ==> pos <= r.value
    ensures r.Some? && !stopAtTerminator ==> end <= r.value
    decreases |data| - pos
  {
    if pos >= end then Some(pos)
    else if pos + 8 > |data| then None
    else if stopAtTerminator && U32At(data, pos) == TerminatorChunk then Some(pos + 8)
    else ChunkWalk(data, pos + 8 + U32At(data, pos + 4), end, stopAtTerminator)
  }

  /** A chunk that starts inside the range, and is not a terminator the walk
      stops at, is stepped over: the walk goes on from `next`, just after its
      payload. */
  lemma ChunkWalkStep(data: seq<byte>, pos: nat, next: nat, end: int, stopAtTerminator: bool)
    requires pos < end && pos + 8 <= |data|
    requires next == pos + 8 + U32At(data, pos + 4)
    requires !(stopAtTerminator && U32At(data, pos) == TerminatorChunk)
    ensures ChunkWalk(data, pos, end, stopAtTerminator) == ChunkWalk(data, next, end, stopAtTerminator)
  {
  }

  /** Walking a range made of two consecutive runs of chunks is walking the
      first run and then the second one from the exact boundary where the first
      ends. */
  lemma {:induction false} ChunkWalkConcat(data: seq<byte>, pos: nat, mid: nat, end: int)
    requires mid <= end
    requires ChunkWalk(data, pos, mid, false) == Some(mid)
    ensures ChunkWalk(data, pos, end, false) == ChunkWalk(data, mid, end, false)
    decreases |data| - pos
  {
    if pos < mid {
      ChunkWalkConcat(data, pos + 8 + U32At(data, pos + 4), mid, end);
    }
  }

  /** The result of the padding loop: the padding counted and the position
      after the last word read (before the rewind). */
  datatype PadScan = PadScan(padding: nat, stop: nat)

  /** The padding loop once it has decided to read at `p`: read a word; a
      non-padding word ends the loop; a padding word counts 4 bytes, and the
      loop ends when the position has reached the chunk end. */
  function PadRun(data: seq<byte>, p: nat, end: int, padding: nat): (r: Option<PadScan>)
    ensures r.Some? ==> padding <= r.value.padding && (r.value.padding - padding) % 4 == 0
    ensures r.Some? ==> p + (r.value.padding - padding) <= r.value.stop <= |data|
    ensures r.Some? ==> var count := r.value.padding - padding;
      forall k :: p <= k && k + 4 <= p + count && (k - p) % 4 == 0 ==> U32At(data, k) == PaddingWord
    ensures r.Some? ==> var count := r.value.padding - padding;
      || (r.value.stop == p + count + 4 && U32At(data, p + count) != PaddingWord)
      || (count > 0 && r.value.stop == p + count && end <= p + count)
    ensures r.Some? && p < end ==> r.value.stop - 4 < end
    decreases end - p
  {
    if p + 4 > |data| then None
    else if U32At(data, p) != PaddingWord then Some(PadScan(padding, p + 4))
    else if p + 4 >= end then Some(PadScan(padding + 4, p + 4))
    else
      var r := PadRun(data, p + 4, end, padding + 4);
      if r.None? then r
      else PaddingShift(data, p, r.value.padding - (padding + 4)); r
  }

  /** A padding word at `p` followed by `len` bytes of padding words is
      `len + 4` bytes of padding words from `p`. */
  lemma PaddingShift(data: seq<byte>, p: nat, len: nat)
    requires p + 4 + len <= |data| && U32At(data, p) == PaddingWord
    requires forall k :: p + 4 <= k && k + 4 <= p + 4 + len && (k - (p + 4)) % 4 == 0 ==> U32At(data, k) == PaddingWord
    ensures forall k :: p <= k && k + 4 <= p + 4 + len && (k - p) % 4 == 0 ==> U32At(data, k) == PaddingWord
  {
    forall k | p <= k && k + 4 <= p + 4 + len && (k - p) % 4 == 0
      ensures U32At(data, k) == PaddingWord
    {
      if k > p {
        assert (k - (p + 4)) % 4 == 0;
      }
    }
  }

  /** The padding skip of a leaf payload starting at `start`. With `guarded`
      the loop first checks that `start` is before the chunk end; without it
      the first word is read unconditionally. */
  function ScanPadding(data: seq<byte>, start: nat, end: int, guarded: bool): Option<PadScan>
  {
    if guarded && start >= end then Some(PadScan(0, start)) else PadRun(data, start, end, 0)
  }

  /** A run of padding words that fills the payload up to the chunk end is
      counted in full, and the loop stops at the chunk end. */
  lemma {:induction false} PadRunAllPadding(data: seq<byte>, p: nat, end: nat, padding: nat)
    requires p < end <= |data| && (end - p) % 4 == 0
    requires forall k :: p <= k && k + 4 <= end && (k - p) % 4 == 0 ==> U32At(data, k) == PaddingWord
    ensures PadRun(data, p, end, padding) == Some(PadScan(padding + (end - p), end))
    decreases end - p
  {
    if p + 4 < end {
      PadRunAllPadding(data, p + 4, end, padding + 4);
    }
  }

  /** `len` bytes of padding words followed, before the chunk end, by a
      non-padding word: exactly `len` bytes are counted and the loop stops
      after reading that word. */
  lemma {:induction false} PadRunPrefix(data: seq<byte>, p: nat, end: int, padding: nat, len: nat)
    requires len % 4 == 0 && p + len < end && p + len + 4 <= |data|
    requires forall k :: p <= k && k + 4 <= p + len && (k - p) % 4 == 0 ==> U32At(data, k) == PaddingWord
    requires U32At(data, p + len) != PaddingWord
    ensures PadRun(data, p, end, padding) == Some(PadScan(padding + len, p + len + 4))
    decreases len
  {
    if len > 0 {
      PadRunPrefix(data, p + 4, end, padding + 4, len - 4);
    }
  }

  /** The padding skip of a leaf payload `[start, start + size)` that begins
      with `len` bytes of padding words, for both loop variants: an all-padding
      payload leaves a usable size of 0 and the cursor on the last padding word;
      otherwise the usable size shrinks by exactly `len` and the cursor rests on
      the first non-padding word. */
  lemma PaddingSkipResult(data: seq<byte>, start: nat, size: u32, len: nat, guarded: bool)
    requires len % 4 == 0 && start + size <= |data|
    requires forall k :: start <= k && k + 4 <= start + len && (k - start) % 4 == 0 ==> k + 4 <= |data| && U32At(data, k) == PaddingWord
    ensures len == size && size > 0 ==>
              ScanPadding(data, start, start + size, guarded) == Some(PadScan(len, start + size))
              && Wrap32(size - len) == 0
    ensures len < size && start + len + 4 <= |data| && U32At(data, start + len) != PaddingWord ==>
              ScanPadding(data, start, start + size, guarded) == Some(PadScan(len, start + len + 4))
              && Wrap32(size - len) == size - len
  {
    var end := start + size;
    if len == size && size > 0 {
      PadRunAllPadding(data, start, end, 0);
      assert ScanPadding(data, start, end, guarded) == PadRun(data, start, end, 0);
    } else if len < size && start + len + 4 <= |data| && U32At(data, start + len) != PaddingWord {
      PadRunPrefix(data, start, end, 0, len);
      assert ScanPadding(data, start, end, guarded) == PadRun(data, start, end, 0);
    }
  }

  /** On a payload whose size is a multiple of 4, the padding counted never
      exceeds the payload, so `chunkSize -= padding` does not wrap; the guarded
      loop reads no word that starts at or after the chunk end. The unguarded
      loop on an empty payload is the exception (`PaddingWrapsOnEmptyPayload`). */
  lemma PaddingWithinPayload(data: seq<byte>, start: nat, size: u32, guarded: bool)
    requires size % 4 == 0 && (guarded || size > 0)
    requires ScanPadding(data, start, start + size, guarded).Some?
    ensures var scan := ScanPadding(data, start, start + size, guarded).value;
            scan.padding <= size && Wrap32(size - scan.padding) == size - scan.padding
            && (guarded ==> scan.stop == start || scan.stop - 4 < start + size)
  {
  }

  /** Without the guard, an empty leaf followed by a padding word counts
      that word, which belongs to the next chunk, as its own padding, and
      `chunkSize -= padding` wraps to 2^32 - 4. */
  lemma PaddingWrapsOnEmptyPayload(data: seq<byte>, start: nat)
    requires start + 4 <= |data| && U32At(data, start) == PaddingWord
    ensures ScanPadding(data, start, start, false) == Some(PadScan(4, start + 4))
    ensures ScanPadding(data, start, start, true) == Some(PadScan(0, start))
    ensures Wrap32(0 - 4) == 0xFFFF_FFFC
  {
  }

  /** The padding skip: count leading padding words, then rewind the last word
      read, leaving the cursor on the first payload word the handler sees. */
  method SkipPadding(br: Reader, chunkEnd: int, guarded: bool) returns (r: Result<nat>)
    requires br.pos >= 4 // the 8-byte chunk header has just been read
    modifies br
    ensures ScanPadding(br.data, old(br.pos), chunkEnd, guarded).None? ==> r == Err(EndOfStream)
    ensures ScanPadding(br.data, old(br.pos), chunkEnd, guarded).Some? ==>
              var scan := ScanPadding(br.data, old(br.pos), chunkEnd, guarded).value;
              r == Ok(scan.padding) && br.pos == scan.stop - 4
  {
    if guarded && br.pos >= chunkEnd {
      br.pos := br.pos - 4;
      return Ok(0);
    }
    ghost var start := br.pos;
    var padding: nat := 0;
    // Inside the loop the `guarded` test always holds: the loop leaves as soon
    // as the position reaches the chunk end.
    while true
      invariant br.pos == start + padding
      invariant PadRun(br.data, start, chunkEnd, 0) == PadRun(br.data, br.pos, chunkEnd, padding)
      decreases chunkEnd - br.pos
    {
      var word :- br.ReadUInt32();
      if word != PaddingWord {
        break;
      }
      padding := padding + 4;
      if br.pos >= chunkEnd {
        break;
      }
    }
    br.pos := br.pos - 4;
    r := Ok(padding);
  }
}
