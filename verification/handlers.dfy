/** Leaf-chunk handlers whose code is the same in the three titles (up to a
    flag): texture-hash table, vertex buffer, face block and material name.
    Each reads from the cursor and returns what it decoded; the title's
    reader stores it on the object. */
module LeafHandlers {
  import opened Results
  import opened Bytes
  import opened Stream
  import opened Geometry

  // ---------------------------------------------------------------------------
  // Texture-hash table: 8-byte records, the first word kept, the second skipped.

  /** The non-zero words of `s`, in order. */
  function NonZero(s: seq<u32>): (r: seq<u32>)
    ensures |r| <= |s|
    ensures forall x :: x in r <==> x in s && x != 0
    ensures multiset(r) == multiset(s)[0 := 0]
  {
    if s == [] then []
    else
      assert s == s[..|s| - 1] + [s[|s| - 1]];
      NonZero(s[..|s| - 1]) + (if s[|s| - 1] != 0 then [s[|s| - 1]] else [])
  }

  /** Filtering a table in two parts keeps the order: the kept hashes of the
      first part, then those of the second. */
  lemma {:induction false} NonZeroConcat(a: seq<u32>, b: seq<u32>)
    ensures NonZero(a + b) == NonZero(a) + NonZero(b)
    decreases |b|
  {
    if b != [] {
      var b' := b[..|b| - 1];
      assert (a + b)[..|a + b| - 1] == a + b';
      NonZeroConcat(a, b');
    } else {
      assert a + b == a;
    }
  }

  /** Filtering keeps a table with no zero entry as it is. */
  lemma {:induction false} NonZeroKeepsNonZero(s: seq<u32>)
    requires 0 !in s
    ensures NonZero(s) == s
  {
    if s != [] {
      var init := s[..|s| - 1];
      assert s == init + [s[|s| - 1]];
      assert 0 !in init && s[|s| - 1] != 0;
      NonZeroKeepsNonZero(init);
      assert NonZero(s) == NonZero(init) + [s[|s| - 1]];
    }
  }

  function KeptHashes(words: seq<u32>, dropZero: bool): seq<u32> {
    if dropZero then NonZero(words) else words
  }

  /** All `n` records' first words lie inside the stream (the skip of the
      last record's second word moves the position without reading). */
  predicate TextureTableFits(data: seq<byte>, p: nat, n: nat) {
    n == 0 || p + 8 * (n - 1) + 4 <= |data|
  }

  function TextureWordsAt(data: seq<byte>, p: nat, n: nat): (r: seq<u32>)
    requires TextureTableFits(data, p, n)
    ensures |r| == n
  {
    seq(n, j requires 0 <= j < n => U32At(data, p + 8 * j))
  }

  /** One more record's first word extends the table's words. */
  lemma TextureWordsStep(data: seq<byte>, p: nat, j: nat)
    requires p + 8 * j + 4 <= |data|
    ensures TextureTableFits(data, p, j) && TextureTableFits(data, p, j + 1)
    ensures TextureWordsAt(data, p, j + 1) == TextureWordsAt(data, p, j) + [U32At(data, p + 8 * j)]
  {
    assert TextureWordsAt(data, p, j + 1)[..j] == TextureWordsAt(data, p, j);
  }

  /** Appending one word to the table read so far. */
  lemma KeptHashesStep(words: seq<u32>, x: u32, dropZero: bool)
    ensures KeptHashes(words + [x], dropZero)
            == KeptHashes(words, dropZero) + (if !dropZero || x != 0 then [x] else [])
  {
    assert (words + [x])[..|words|] == words;
  }

  /** The texture-hash table: `usable / 8` records; with `dropZero` only the
      non-zero first words are kept, otherwise every first word is. The
      result is the list of hashes to append to the object's table. */
  method ReadTextureTable(br: Reader, usable: u32, dropZero: bool) returns (r: Result<seq<u32>>)
    modifies br
    ensures r.Ok? <==> TextureTableFits(br.data, old(br.pos), usable / 8)
    ensures r.Ok? ==>
              br.pos == old(br.pos) + 8 * (usable / 8)
              && r.value == KeptHashes(TextureWordsAt(br.data, old(br.pos), usable / 8), dropZero)
  {
    ghost var p := br.pos;
    var n := usable / 8;
    var hashes := [];
    ghost var words := [];
    var j := 0;
    while j < n
      invariant 0 <= j <= n
      invariant br.pos == p + 8 * j
      invariant TextureTableFits(br.data, p, j) && words == TextureWordsAt(br.data, p, j)
      invariant hashes == KeptHashes(words, dropZero)
    {
      var val := br.ReadUInt32();
      if val.Err? {
        return Err(val.error);
      }
      TextureWordsStep(br.data, p, j);
      KeptHashesStep(words, val.value, dropZero);
      words := words + [val.value];
      if !dropZero || val.value != 0 {
        hashes := hashes + [val.value];
      }
      br.pos := br.pos + 4;
      j := j + 1;
    }
    r := Ok(hashes);
  }

  // ---------------------------------------------------------------------------
  // Vertex buffer: a float array of `usable >> 2` entries filled by reading
  // words while the cursor is before the chunk end.

  /** How many words the fill loop reads from `s` while the cursor is before `e`. */
  function WordsBefore(s: int, e: int): nat {
    if s >= e then 0 else (e - s + 3) / 4
  }

  /** How many whole words the stream holds from `s` on. */
  function WordsAvailable(data: seq<byte>, s: nat): (r: nat)
    ensures r == 0 || s + 4 * r <= |data|
  {
    if s + 4 > |data| then 0 else (|data| - s) / 4
  }

  /** An array of `n` entries whose first `k` hold the words read from `s`
      and whose other entries are still zero. */
  function Filled(data: seq<byte>, s: nat, k: nat, n: nat): (r: seq<u32>)
    requires k <= n && (k == 0 || s + 4 * k <= |data|)
    ensures |r| == n
  {
    seq(n, i requires 0 <= i < n => if i < k then U32At(data, s + 4 * i) else 0)
  }

  /** The buffer the fill loop produces for an array of `n` entries: the words
      read, then zero entries; a read past the stream end or a store past the
      array end fails, whichever comes first. */
  function VertexBufferAt(data: seq<byte>, s: nat, e: int, n: nat): Result<seq<u32>>
  {
    var k, avail := WordsBefore(s, e), WordsAvailable(data, s);
    if k <= avail && k <= n then Ok(Filled(data, s, k, n))
    else if avail <= n then Err(EndOfStream)
    else Err(IndexOutOfRange)
  }

  /** A payload of whole words, read from its first word to the chunk end,
      fills the buffer exactly: every entry is a word of the payload. */
  lemma VertexBufferOfWholeWords(data: seq<byte>, s: nat, usable: u32)
    requires usable % 4 == 0 && s + usable <= |data|
    ensures VertexBufferAt(data, s, s + usable, usable / 4) == Ok(WordsAt(data, s, usable / 4))
  {
    var n := usable / 4;
    assert WordsBefore(s, s + usable) == n;
    assert WordsAvailable(data, s) >= n;
    assert Filled(data, s, n, n) == WordsAt(data, s, n);
  }

  /** After an all-padding payload the cursor rests on the last padding word
      and the usable size is 0: the fill loop reads one word into an empty
      array, which fails. */
  lemma VertexBufferAfterAllPadding(data: seq<byte>, e: nat)
    requires 4 <= e <= |data|
    ensures VertexBufferAt(data, e - 4, e, 0) == Err(IndexOutOfRange)
  {
    assert WordsBefore(e - 4, e) == 1;
    assert WordsAvailable(data, e - 4) >= 1;
  }

  method ReadVertexBuffer(br: Reader, usable: u32, chunkEnd: int) returns (r: Result<seq<u32>>)
    modifies br
    ensures r == VertexBufferAt(br.data, old(br.pos), chunkEnd, usable / 4)
  {
    ghost var s := br.pos;
    ghost var k := WordsBefore(s, chunkEnd);
    ghost var avail := WordsAvailable(br.data, s);
    var n := usable / 4;
    var vb := new u32[n](_ => 0);
    var i := 0;
    while br.pos < chunkEnd
      invariant 0 <= i <= n && i <= avail && i <= k
      invariant br.pos == s + 4 * i
      invariant br.pos < chunkEnd <==> i < k
      invariant vb[..] == Filled(br.data, s, i, n)
      decreases k - i
    {
      var v := br.ReadUInt32();
      if v.Err? {
        assert i == avail;
        return Err(v.error);
      }
      if i >= vb.Length {
        return Err(IndexOutOfRange);
      }
      vb[i] := v.value;
      i := i + 1;
    }
    r := Ok(vb[..]);
  }

  // ---------------------------------------------------------------------------
  // Face block: one combined index array, three 16-bit values per face, split
  // into per-material runs of `NumTris` faces in material order.

  function FaceAt(data: seq<byte>, p: nat): Face
    requires p + 6 <= |data|
  {
    Face(U16At(data, p), U16At(data, p + 2), U16At(data, p + 4))
  }

  /** `total` faces read one after the other from offset `p`. */
  function FacesAt(data: seq<byte>, p: nat, total: nat): (r: seq<Face>)
    requires total == 0 || p + 6 * total <= |data|
    ensures |r| == total
  {
    seq(total, i requires 0 <= i < total => FaceAt(data, p + 6 * i))
  }

  lemma SumTrisStep(ms: seq<Material>, m: nat)
    requires m < |ms|
    ensures SumTris(ms[..m + 1]) == SumTris(ms[..m]) + ms[m].numTris
  {
    assert ms[..m + 1][..m] == ms[..m];
  }

  /** A prefix of the materials never has more triangles than all of them. */
  lemma {:induction false} SumTrisPrefix(ms: seq<Material>, m: nat)
    requires m <= |ms|
    ensures SumTris(ms[..m]) <= SumTris(ms)
    decreases |ms| - m
  {
    if m == |ms| {
      assert ms[..m] == ms;
    } else {
      SumTrisStep(ms, m);
      SumTrisPrefix(ms, m + 1);
    }
  }

  lemma FacesAtStep(data: seq<byte>, p: nat, i: nat)
    requires p + 6 * (i + 1) <= |data|
    ensures FacesAt(data, p, i + 1) == FacesAt(data, p, i) + [FaceAt(data, p + 6 * i)]
  {
  }

  /** One face: three consecutive 16-bit vertex indices. */
  method ReadFace(br: Reader) returns (r: Result<Face>)
    modifies br
    ensures old(br.pos) + 6 <= |br.data| ==> r == Ok(FaceAt(br.data, old(br.pos))) && br.pos == old(br.pos) + 6
    ensures old(br.pos) + 6 > |br.data| ==> r.Err?
  {
    var f1 :- br.ReadUInt16();
    var f2 :- br.ReadUInt16();
    var f3 :- br.ReadUInt16();
    r := Ok(Face(f1, f2, f3));
  }

  /** The faces of one material: `count` faces read into the array from index
      `start` on, each read before its store is checked against the array. */
  method ReadFaceRun(br: Reader, faces: array<Face>, ghost p: nat, start: nat, count: nat) returns (r: Result<()>)
    requires br.pos == p + 6 * start && (start == 0 || p + 6 * start <= |br.data|)
    requires start <= faces.Length && faces[..start] == FacesAt(br.data, p, start)
    modifies br, faces
    ensures r.Ok? <==> count == 0 || (start + count <= faces.Length && p + 6 * (start + count) <= |br.data|)
    ensures r.Ok? ==> br.pos == p + 6 * (start + count)
                      && faces[..start + count] == FacesAt(br.data, p, start + count)
  {
    var i := start;
    while i < start + count
      invariant start <= i <= start + count && i <= faces.Length
      invariant br.pos == p + 6 * i && (i == 0 || p + 6 * i <= |br.data|)
      invariant faces[..i] == FacesAt(br.data, p, i)
    {
      var f := ReadFace(br);
      if f.Err? {
        return Err(f.error);
      }
      if i >= faces.Length {
        return Err(IndexOutOfRange);
      }
      FacesAtStep(br.data, p, i);
      faces[i] := f.value;
      i := i + 1;
    }
    r := Ok(());
  }

  /** The face block: the face array is resized to the sum of the materials'
      triangle counts and filled in material order. It succeeds exactly when
      that sum is a valid array length and the stream holds all the faces;
      the result then holds exactly that many faces. */
  method ReadFaces(br: Reader, ms: seq<Material>) returns (r: Result<seq<Face>>)
    modifies br
    ensures var total := SumTris(ms);
            r.Ok? <==> total < 0x8000_0000 && (total == 0 || old(br.pos) + 6 * total <= |br.data|)
    ensures r.Ok? ==>
              |r.value| == SumTris(ms)
              && r.value == FacesAt(br.data, old(br.pos), SumTris(ms))
              && br.pos == old(br.pos) + 6 * SumTris(ms)
  {
    ghost var p := br.pos;
    ghost var total := SumTris(ms);
    var size := ToInt32(SumTris(ms));
    if size < 0 {
      return Err(ArgumentOutOfRange);
    }
    assert total < 0x8000_0000 ==> size == total;
    var faces := new Face[size](_ => Face(0, 0, 0));
    var faceIndex := 0;
    var m := 0;
    while m < |ms|
      invariant 0 <= m <= |ms|
      invariant faceIndex == SumTris(ms[..m]) <= faces.Length
      invariant br.pos == p + 6 * faceIndex
      invariant faceIndex == 0 || p + 6 * faceIndex <= |br.data|
      invariant faces[..faceIndex] == FacesAt(br.data, p, faceIndex)
    {
      SumTrisStep(ms, m);
      SumTrisPrefix(ms, m + 1);
      var run := ReadFaceRun(br, faces, p, faceIndex, ms[m].numTris);
      if run.Err? {
        return Err(run.error);
      }
      faceIndex := faceIndex + ms[m].numTris;
      m := m + 1;
    }
    assert ms[..|ms|] == ms;
    assert faces[..] == faces[..faceIndex];
    r := Ok(faces[..]);
  }

  // ---------------------------------------------------------------------------
  // Material name: a non-empty chunk names the material at the cursor and
  // advances the cursor; an empty chunk changes nothing.

  method ReadMaterialName(br: Reader, usable: u32, ms: seq<Material>, cursor: nat)
    returns (r: Result<seq<Material>>, next: nat)
    modifies br
    ensures usable == 0 ==> r == Ok(ms) && next == cursor && br.pos == old(br.pos)
    ensures usable > 0 && cursor >= |ms| ==> r == Err(ArgumentOutOfRange)
    ensures usable > 0 && cursor < |ms| ==>
              var s := CStringAt(br.data, old(br.pos));
              (s.None? ==> r == Err(EndOfStream))
              && (s.Some? ==>
                    next == cursor + 1 && br.pos == old(br.pos) + |s.value| + 1
                    && r == Ok(ms[cursor := ms[cursor].(name := Given(Latin1(s.value)))]))
  {
    next := cursor;
    if usable == 0 {
      return Ok(ms), next;
    }
    if cursor >= |ms| {
      return Err(ArgumentOutOfRange), next;
    }
    var name :- br.ReadNullTerminatedString();
    r := Ok(ms[cursor := ms[cursor].(name := Given(name))]);
    next := cursor + 1;
  }

  // ---------------------------------------------------------------------------
  // What the shared handlers do to an object, or `None` when they throw.

  /** The texture-hash chunk: the first word of each 8-byte record, with the
      zeros dropped when `dropZero`. */
  ghost function TextureEffect(data: seq<byte>, p: nat, usable: u32, dropZero: bool, o: SolidObject): Option<SolidObject> {
    if !TextureTableFits(data, p, usable / 8) then None
    else Some(o.(textureHashes := o.textureHashes + KeptHashes(TextureWordsAt(data, p, usable / 8), dropZero)))
  }

  /** The face chunk: as many faces as the materials have triangles. */
  ghost function FacesEffect(data: seq<byte>, p: nat, o: SolidObject): Option<SolidObject> {
    var total := SumTris(o.materials);
    if total >= 0x8000_0000 || (total > 0 && p + 6 * total > |data|) then None
    else Some(o.(faces := FacesAt(data, p, total)))
  }

  /** The material-name chunk: a non-empty one names the material at the
      cursor `named`. */
  ghost function NameEffect(data: seq<byte>, p: nat, usable: u32, o: SolidObject, named: nat): Option<SolidObject> {
    if usable == 0 then Some(o)
    else if named >= |o.materials| then None
    else
      var s := CStringAt(data, p);
      if s.None? then None
      else Some(o.(materials := o.materials[named := o.materials[named].(name := Given(Latin1(s.value)))]))
  }
}
