/** The byte cursor the geometry readers work on: a `BinaryReader` over a
    stream, reduced to the stream's bytes and its `Position`. The position may
    be set past the end of the stream (as a .NET stream allows); reads there fail. */
module Stream {
  import opened Results
  import opened Bytes

  class Reader {
    const data: seq<byte>
    var pos: nat

    constructor (data: seq<byte>, pos: nat)
      ensures this.data == data && this.pos == pos
    {
      this.data := data;
      this.pos := pos;
    }

    /** `ReadUInt32`: four bytes, little-endian. */
    method ReadUInt32() returns (r: Result<u32>)
      modifies this
      ensures old(pos) + 4 <= |data| ==> r == Ok(U32At(data, old(pos))) && pos == old(pos) + 4
      ensures old(pos) + 4 > |data| ==> r == Err(EndOfStream) && pos == old(pos)
    {
      if pos + 4 <= |data| {
        r := Ok(U32At(data, pos));
        pos := pos + 4;
      } else {
        r := Err(EndOfStream);
      }
    }

    /** `ReadUInt16`: two bytes, little-endian. */
    method ReadUInt16() returns (r: Result<u16>)
      modifies this
      ensures old(pos) + 2 <= |data| ==> r == Ok(U16At(data, old(pos))) && pos == old(pos) + 2
      ensures old(pos) + 2 > |data| ==> r == Err(EndOfStream) && pos == old(pos)
    {
      if pos + 2 <= |data| {
        r := Ok(U16At(data, pos));
        pos := pos + 2;
      } else {
        r := Err(EndOfStream);
      }
    }

    /** A packed record of `size` bytes (`ReadStruct` / `GetStruct`): the record's
        raw bytes, decoded field by field by the caller. */
    method ReadStruct(size: nat) returns (r: Result<seq<byte>>)
      modifies this
      ensures old(pos) + size <= |data| ==> r == Ok(data[old(pos)..old(pos) + size]) && pos == old(pos) + size
      ensures old(pos) + size > |data| ==> r == Err(EndOfStream) && pos == old(pos)
    {
      if pos + size <= |data| {
        r := Ok(data[pos..pos + size]);
        pos := pos + size;
      } else {
        r := Err(EndOfStream);
      }
    }

    /** `ReadBytes(count)`: up to `count` bytes, fewer when the stream ends first;
        a negative count is rejected. */
    method ReadBytes(count: int) returns (r: Result<seq<byte>>)
      modifies this
      ensures count < 0 ==> r == Err(ArgumentOutOfRange) && pos == old(pos)
      ensures count >= 0 ==> r.Ok?
      ensures count >= 0 && old(pos) >= |data| ==> r.value == [] && pos == old(pos)
      ensures count >= 0 && old(pos) < |data| ==>
                var e := if old(pos) + count <= |data| then old(pos) + count else |data|;
                r.value == data[old(pos)..e] && pos == e
    {
      if count < 0 {
        r := Err(ArgumentOutOfRange);
      } else if pos >= |data| {
        r := Ok([]);
      } else {
        var e := if pos + count <= |data| then pos + count else |data|;
        r := Ok(data[pos..e]);
        pos := e;
      }
    }

    /** `ReadNullTerminatedString`: the bytes up to the first NUL, which is
        consumed; the stream ending first is an error. */
    method ReadNullTerminatedString() returns (r: Result<string>)
      modifies this
      ensures CStringAt(data, old(pos)).None? ==> r == Err(EndOfStream)
      ensures CStringAt(data, old(pos)).Some? ==>
                var s := CStringAt(data, old(pos)).value;
                r == Ok(Latin1(s)) && pos == old(pos) + |s| + 1
    {
      if pos > |data| {
        return Err(EndOfStream);
      }
      ghost var start := pos;
      var bytes: seq<byte> := [];
      while pos < |data| && data[pos] != 0
        invariant start <= pos <= |data|
        invariant bytes == data[start..pos]
        invariant 0 !in bytes
        decreases |data| - pos
      {
        bytes := bytes + [data[pos]];
        pos := pos + 1;
      }
      if pos == |data| {
        CStringAtNoNul(data, start);
        return Err(EndOfStream);
      }
      CStringAtFirstNul(data, start, pos);
      pos := pos + 1;
      r := Ok(Latin1(bytes));
    }
  }
}
