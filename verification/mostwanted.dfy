/** The Need for Speed: Most Wanted solid-list reader: the outer chunk walk
    (list info and object roots; no terminator and no padding skip at that
    level), the object reader, and the title's 104-byte shading group with its
    clamped texture index and inferred vertex streams. */
module MostWanted {
  import opened Results
  import opened Bytes
  import opened Stream
  import opened Chunks
  import opened Geometry
  import opened LeafHandlers

  const ObjectHeaderSize := 160
  const DescriptorSize := 48

  // ---------------------------------------------------------------------------
  // Records

  /** The shading-group fields the reader uses. */
  datatype ShadingGroup = ShadingGroup(
    boundsMin: seq<u32>,
    boundsMax: seq<u32>,
    textureIndices: seq<byte>,
    flags: u32,
    numVerts: u32,
    numTris: u32,
    marker: u32) // the vertex-stream marker

  /** The 104-byte shading-group record stored at offset `q`: bounds (two
      times three words), four texture indices, a material id, a 24-byte
      blank field whose word at byte 15 is the stream marker, then the flags,
      vertex count and triangle count. */
  function DecodeShadingGroup(data: seq<byte>, q: nat): (g: ShadingGroup)
    requires q + 104 <= |data|
    ensures |g.textureIndices| == 4
  {
    ShadingGroup(
      [U32At(data, q), U32At(data, q + 4), U32At(data, q + 8)],
      [U32At(data, q + 12), U32At(data, q + 16), U32At(data, q + 20)],
      [data[q + 24], data[q + 25], data[q + 26], data[q + 27]],
      U32At(data, q + 56), U32At(data, q + 60), U32At(data, q + 64),
      U32At(data, q + 47))
  }

  /** The table slot a record's texture comes from: its first texture index
      when the table has that entry, slot 0 otherwise. */
  function TextureSlot(index: byte, count: nat): (k: nat)
    ensures count > 0 ==> k < count
    ensures index as int < count ==> k == index as int
    ensures index as int >= count ==> k == 0
  {
    if count > index then index else 0
  }

  // ---------------------------------------------------------------------------
  // Vertex streams

  /** The vertex stream of the last record of a chunk, given the stream
      markers of its records so far: the first record uses stream 0; when the
      chunk has as many records as the descriptor has vertex streams, record
      `j` uses stream `j`; otherwise a record whose marker equals the previous
      record's shares its stream, and any other record starts the next one. */
  function StreamIndexOfLast(markers: seq<u32>, sameCount: bool): (r: nat)
    requires |markers| > 0
    ensures r < |markers|
    decreases |markers|
  {
    var j := |markers| - 1;
    if j == 0 then 0
    else if sameCount then j
    else if markers[j] == markers[j - 1] then StreamIndexOfLast(markers[..j], sameCount)
    else StreamIndexOfLast(markers[..j], sameCount) + 1
  }

  /** The reader's test for a repeated marker: the previous marker is kept
      in a signed 32-bit local (`(int)vst`), and the comparison with the
      unsigned marker widens both sides to 64 bits. */
  predicate MatchesStored(marker: u32, previous: u32) {
    marker as int == ToInt32(previous)
  }

  /** The widened comparison holds exactly for an equal marker below 2^31:
      a marker of 2^31 or more never equals its stored copy. */
  lemma MatchesStoredIff(marker: u32, previous: u32)
    ensures MatchesStored(marker, previous) <==> marker == previous && previous < 0x8000_0000
  {
  }

  /** As written, record `t + 1` keeps record `t`'s stream: it repeats the
      marker, and the marker is below 2^31 (`MatchesStoredIff`). */
  predicate KeptAt(markers: seq<u32>, t: nat)
    requires t + 1 < |markers|
  {
    markers[t + 1] == markers[t] && markers[t] < 0x8000_0000
  }

  /** The stream index as the code computes it, with the widened comparison. */
  function StreamIndexOfLastAsWritten(markers: seq<u32>, sameCount: bool): (r: nat)
    requires |markers| > 0
    ensures r < |markers|
    decreases |markers|
  {
    var j := |markers| - 1;
    if j == 0 then 0
    else if sameCount then j
    else if MatchesStored(markers[j], markers[j - 1]) then StreamIndexOfLastAsWritten(markers[..j], sameCount)
    else StreamIndexOfLastAsWritten(markers[..j], sameCount) + 1
  }

  /** The code's rule never merges more records than the intended one. */
  lemma {:induction false} AsWrittenNeverMergesMore(markers: seq<u32>, sameCount: bool)
    requires |markers| > 0
    ensures StreamIndexOfLast(markers, sameCount) <= StreamIndexOfLastAsWritten(markers, sameCount)
    decreases |markers|
  {
    var j := |markers| - 1;
    if j > 0 && !sameCount {
      AsWrittenNeverMergesMore(markers[..j], sameCount);
      MatchesStoredIff(markers[j], markers[j - 1]);
    }
  }

  /** As written, a repeated marker of 2^31 or more starts a new stream. */
  lemma AsWrittenSplitsHighMarkers(markers: seq<u32>)
    requires |markers| >= 2
    requires markers[|markers| - 1] == markers[|markers| - 2] >= 0x8000_0000
    ensures StreamIndexOfLastAsWritten(markers, false)
            == StreamIndexOfLastAsWritten(markers[..|markers| - 1], false) + 1
  {
  }

  /** Two records with the marker 0x80000000: as written they get streams 0
      and 1, while comparing the markers as 32-bit values gives both stream 0. */
  lemma AsWrittenCounterexample()
    ensures StreamIndexOfLastAsWritten([0x8000_0000, 0x8000_0000], false) == 1
    ensures StreamIndexOfLast([0x8000_0000, 0x8000_0000], false) == 0
  {
    var ms: seq<u32> := [0x8000_0000, 0x8000_0000];
    assert ms[..1] == [0x8000_0000];
    AsWrittenSplitsHighMarkers(ms);
  }

  /** With the count match, every record has a stream of its own. */
  lemma StreamIndexSameCount(markers: seq<u32>, j: nat)
    requires j < |markers|
    ensures StreamIndexOfLast(markers[..j + 1], true) == j
  {
  }

  /** Stream indices never decrease along a chunk. */
  lemma {:induction false} StreamIndexMonotone(markers: seq<u32>, i: nat, k: nat, sameCount: bool)
    requires i <= k < |markers|
    ensures StreamIndexOfLast(markers[..i + 1], sameCount) <= StreamIndexOfLast(markers[..k + 1], sameCount)
    decreases k
  {
    if i < k {
      StreamIndexMonotone(markers, i, k - 1, sameCount);
      assert markers[..k + 1][..k] == markers[..k];
    }
  }

  /** Without the count match, two records share a stream exactly when every
      record between them repeats its predecessor's marker. */
  lemma {:induction false} SameStreamIffSameMarkers(markers: seq<u32>, i: nat, k: nat)
    requires i <= k < |markers|
    ensures StreamIndexOfLast(markers[..i + 1], false) == StreamIndexOfLast(markers[..k + 1], false)
            <==> forall t :: i < t <= k ==> markers[t] == markers[t - 1]
    decreases k
  {
    if i < k {
      SameStreamIffSameMarkers(markers, i, k - 1);
      StreamIndexMonotone(markers, i, k - 1, false);
      var prefix := markers[..k + 1];
      assert prefix[..k] == markers[..k];
      assert prefix[k] == markers[k] && prefix[k - 1] == markers[k - 1];
    }
  }

  /** As written, stream indices never decrease along a chunk either. */
  lemma {:induction false} AsWrittenMonotone(markers: seq<u32>, i: nat, k: nat, sameCount: bool)
    requires i <= k < |markers|
    ensures StreamIndexOfLastAsWritten(markers[..i + 1], sameCount)
            <= StreamIndexOfLastAsWritten(markers[..k + 1], sameCount)
    decreases k
  {
    if i < k {
      AsWrittenMonotone(markers, i, k - 1, sameCount);
      AsWrittenStep(markers, k, sameCount);
      assert StreamIndexOfLastAsWritten(markers[..k], sameCount)
             <= StreamIndexOfLastAsWritten(markers[..k + 1], sameCount);
    }
  }

  /** As written and without the count match, two records share a stream
      exactly when every record between them repeats its predecessor's
      marker and that marker is below 2^31. */
  lemma {:induction false} AsWrittenSameStreamIff(markers: seq<u32>, i: nat, k: nat)
    requires i <= k < |markers|
    ensures StreamIndexOfLastAsWritten(markers[..i + 1], false) == StreamIndexOfLastAsWritten(markers[..k + 1], false)
            <==> forall t :: i <= t < k ==> KeptAt(markers, t)
    decreases k
  {
    if i < k {
      AsWrittenStep(markers, k, false);
      AsWrittenSameStreamIff(markers, i, k - 1);
      if KeptAt(markers, k - 1) {
        KeptRunStep(markers, i, k);
      } else {
        AsWrittenMonotone(markers, i, k - 1, false);
        assert !KeptAt(markers, k - 1);
      }
    }
  }

  /** One more record: as written and without the count match, it keeps the
      previous record's stream exactly when it repeats a marker below 2^31;
      with the count match it takes the next stream. */
  lemma AsWrittenStep(markers: seq<u32>, k: nat, sameCount: bool)
    requires 0 < k < |markers|
    ensures StreamIndexOfLastAsWritten(markers[..k + 1], sameCount)
            == if !sameCount && KeptAt(markers, k - 1)
               then StreamIndexOfLastAsWritten(markers[..k], sameCount)
               else StreamIndexOfLastAsWritten(markers[..k], sameCount) + 1
  {
    var prefix := markers[..k + 1];
    assert prefix[..k] == markers[..k];
    MatchesStoredIff(markers[k], markers[k - 1]);
  }

  /** The repeat condition up to `k` is the one up to `k - 1` and the
      repeat at `k - 1`. */
  lemma KeptRunStep(markers: seq<u32>, i: nat, k: nat)
    requires i < k < |markers|
    ensures (forall t :: i <= t < k ==> KeptAt(markers, t))
            <==> (forall t :: i <= t < k - 1 ==> KeptAt(markers, t))
                 && KeptAt(markers, k - 1)
  {
  }

  /** While every marker is below 2^31 the code and the intended rule agree. */
  lemma {:induction false} AsWrittenAgreesBelowHalf(markers: seq<u32>, sameCount: bool)
    requires |markers| > 0
    requires forall t :: 0 <= t < |markers| ==> markers[t] < 0x8000_0000
    ensures StreamIndexOfLastAsWritten(markers, sameCount) == StreamIndexOfLast(markers, sameCount)
    decreases |markers|
  {
    var j := |markers| - 1;
    if j > 0 {
      AsWrittenAgreesBelowHalf(markers[..j], sameCount);
      MatchesStoredIff(markers[j], markers[j - 1]);
    }
  }

  // ---------------------------------------------------------------------------
  // Shading groups

  /** The material built from the `j`-th record of a shading-group chunk,
      given its vertex stream: the texture hash comes from the clamped slot
      (an empty table throws), and the index count is three per triangle in
      32-bit arithmetic. */
  function GroupMaterial(g: ShadingGroup, j: nat, hashes: seq<u32>, stream: nat): (r: Result<Material>)
    requires |g.textureIndices| == 4
    ensures r.Ok? <==> |hashes| > 0
    ensures r.Err? ==> r.error == ArgumentOutOfRange
    ensures r.Ok? ==> && r.value.textureHash in hashes
                      && r.value.textureHash == hashes[TextureSlot(g.textureIndices[0], |hashes|)]
                      && r.value.numIndices == Wrap32(3 * r.value.numTris)
                      && r.value.flags == g.flags
                      && r.value.numTris == g.numTris && r.value.numVerts == g.numVerts
                      && r.value.vertexStreamIndex == stream
                      && r.value.name == MaterialName(j) && r.value.detail.MostWantedDetail?
  {
    if |hashes| == 0 then Err(ArgumentOutOfRange)
    else Ok(Material(
      flags := g.flags,
      numTris := g.numTris,
      numIndices := Wrap32(3 * g.numTris),
      numVerts := g.numVerts,
      name := MaterialName(j),
      textureHash := hashes[TextureSlot(g.textureIndices[0], |hashes|)],
      vertexStreamIndex := stream,
      detail := MostWantedDetail(g.boundsMin, g.boundsMax, g.textureIndices, g.marker)))
  }

  /** The `j`-th record of a shading-group chunk whose payload starts at `p`. */
  function GroupAt(data: seq<byte>, p: nat, j: nat): (g: ShadingGroup)
    requires p + 104 * (j + 1) <= |data|
    ensures |g.textureIndices| == 4
  {
    DecodeShadingGroup(data, p + 104 * j)
  }

  /** The stream marker of the `j`-th record. */
  function MarkerAt(data: seq<byte>, p: nat, j: nat): u32
    requires p + 104 * (j + 1) <= |data|
  {
    U32At(data, p + 104 * j + 47)
  }

  /** `KeptAt` read off the records: record `t + 1` repeats record `t`'s
      marker, and that marker is below 2^31. */
  predicate MarkerKeptAt(data: seq<byte>, p: nat, t: nat)
    requires p + 104 * (t + 2) <= |data|
  {
    MarkerAt(data, p, t + 1) == MarkerAt(data, p, t) && MarkerAt(data, p, t) < 0x8000_0000
  }

  /** The stream markers of the first `n` records. */
  function Markers(data: seq<byte>, p: nat, n: nat): (r: seq<u32>)
    requires n == 0 || p + 104 * n <= |data|
    ensures |r| == n
  {
    if n == 0 then [] else Markers(data, p, n - 1) + [MarkerAt(data, p, n - 1)]
  }

  lemma {:induction false} MarkersPrefix(data: seq<byte>, p: nat, k: nat, n: nat)
    requires k <= n && (n == 0 || p + 104 * n <= |data|)
    ensures Markers(data, p, n)[..k] == Markers(data, p, k)
    decreases n
  {
    if k < n {
      MarkersPrefix(data, p, k, n - 1);
      assert Markers(data, p, n)[..n - 1] == Markers(data, p, n - 1);
    }
  }

  lemma {:induction false} MarkersElements(data: seq<byte>, p: nat, n: nat)
    requires n == 0 || p + 104 * n <= |data|
    ensures forall t :: 0 <= t < n ==> Markers(data, p, n)[t] == MarkerAt(data, p, t)
    decreases n
  {
    if n > 0 {
      MarkersElements(data, p, n - 1);
    }
  }

  /** The vertex stream of the `j`-th record as the reader infers it, read
      off the records themselves, with the widened comparison of
      `StreamIndexOfLastAsWritten`. */
  function StreamAt(data: seq<byte>, p: nat, j: nat, sameCount: bool): nat
    requires p + 104 * (j + 1) <= |data|
  {
    if j == 0 then 0
    else if sameCount then j
    else if MatchesStored(MarkerAt(data, p, j), MarkerAt(data, p, j - 1)) then StreamAt(data, p, j - 1, sameCount)
    else StreamAt(data, p, j - 1, sameCount) + 1
  }

  /** `StreamAt` is the code's stream rule applied to the markers of records 0 to `j`. */
  lemma {:induction false} StreamAtMarkers(data: seq<byte>, p: nat, j: nat, sameCount: bool)
    requires p + 104 * (j + 1) <= |data|
    ensures StreamAt(data, p, j, sameCount) == StreamIndexOfLastAsWritten(Markers(data, p, j + 1), sameCount)
  {
    if j > 0 {
      StreamAtMarkers(data, p, j - 1, sameCount);
      var ms := Markers(data, p, j + 1);
      assert ms[..j] == Markers(data, p, j);
      assert ms[j] == MarkerAt(data, p, j);
      assert ms[j - 1] == Markers(data, p, j)[j - 1] == MarkerAt(data, p, j - 1);
    }
  }

  /** The material of the `j`-th record; reading a record the stream does
      not hold fails. */
  function GroupMaterialAt(data: seq<byte>, p: nat, j: nat, sameCount: bool, hashes: seq<u32>): Result<Material>
  {
    if p + 104 * (j + 1) > |data| then Err(EndOfStream)
    else GroupMaterial(GroupAt(data, p, j), j, hashes, StreamAt(data, p, j, sameCount))
  }

  /** The materials of the first `n` records of a shading-group chunk. */
  function GroupMaterials(data: seq<byte>, p: nat, n: nat, sameCount: bool, hashes: seq<u32>): (r: Result<seq<Material>>)
    ensures r.Ok? ==> |r.value| == n
    decreases n
  {
    if n == 0 then Ok([])
    else
      var prev := GroupMaterials(data, p, n - 1, sameCount, hashes);
      var m := GroupMaterialAt(data, p, n - 1, sameCount, hashes);
      if prev.Err? then prev
      else if m.Err? then Err(m.error)
      else Ok(prev.value + [m.value])
  }

  /** A shading-group chunk succeeds exactly when its records are in the
      stream and, if it has any, the texture table is not empty: the clamp
      makes every texture index valid otherwise. */
  lemma {:induction false} GroupMaterialsSucceed(data: seq<byte>, p: nat, n: nat, sameCount: bool, hashes: seq<u32>)
    ensures GroupMaterials(data, p, n, sameCount, hashes).Ok?
            <==> n == 0 || (p + 104 * n <= |data| && |hashes| > 0)
    decreases n
  {
    if n > 0 {
      GroupMaterialsSucceed(data, p, n - 1, sameCount, hashes);
    }
  }

  /** The materials of a successful chunk are those of its records, in order. */
  lemma {:induction false} GroupMaterialsElements(data: seq<byte>, p: nat, n: nat, sameCount: bool, hashes: seq<u32>)
    requires GroupMaterials(data, p, n, sameCount, hashes).Ok?
    ensures forall j :: 0 <= j < n ==>
              GroupMaterialAt(data, p, j, sameCount, hashes) == Ok(GroupMaterials(data, p, n, sameCount, hashes).value[j])
    decreases n
  {
    if n > 0 {
      GroupMaterialsElements(data, p, n - 1, sameCount, hashes);
      var prev := GroupMaterials(data, p, n - 1, sameCount, hashes).value;
      var last := GroupMaterialAt(data, p, n - 1, sameCount, hashes).value;
      assert GroupMaterials(data, p, n, sameCount, hashes).value == prev + [last];
    }
  }

  /** The materials of a successful chunk: one per record, the `j`-th named
      `MaterialName(j)`, with the `j`-th record's triangle count, a texture
      hash from the table and the stream `StreamAt` infers. */
  lemma GroupMaterialsFacts(data: seq<byte>, p: nat, n: nat, sameCount: bool, hashes: seq<u32>)
    requires GroupMaterials(data, p, n, sameCount, hashes).Ok?
    ensures n == 0 || p + 104 * n <= |data|
    ensures var ms := GroupMaterials(data, p, n, sameCount, hashes).value;
            forall j :: 0 <= j < n ==>
              && ms[j].name == MaterialName(j)
              && ms[j].textureHash in hashes
              && ms[j].textureHash == hashes[TextureSlot(GroupAt(data, p, j).textureIndices[0], |hashes|)]
              && ms[j].flags == GroupAt(data, p, j).flags
              && ms[j].numTris == GroupAt(data, p, j).numTris
              && ms[j].numIndices == Wrap32(3 * ms[j].numTris)
              && ms[j].vertexStreamIndex == StreamAt(data, p, j, sameCount)
              && ms[j].detail.MostWantedDetail?
  {
    GroupMaterialsSucceed(data, p, n, sameCount, hashes);
    GroupMaterialsElements(data, p, n, sameCount, hashes);
  }

  /** Without the count match, records `i <= k` get the same stream exactly
      when every record from `i + 1` to `k` repeats its predecessor's marker
      and that marker is below 2^31. */
  lemma StreamAtSameIff(data: seq<byte>, p: nat, i: nat, k: nat)
    requires i <= k && p + 104 * (k + 1) <= |data|
    ensures StreamAt(data, p, i, false) == StreamAt(data, p, k, false)
            <==> forall t :: i <= t < k ==> MarkerKeptAt(data, p, t)
  {
    var markers := Markers(data, p, k + 1);
    StreamAtMarkers(data, p, i, false);
    MarkersPrefix(data, p, i + 1, k + 1);
    assert StreamAt(data, p, i, false) == StreamIndexOfLastAsWritten(markers[..i + 1], false);
    StreamAtMarkers(data, p, k, false);
    assert markers[..k + 1] == markers;
    assert StreamAt(data, p, k, false) == StreamIndexOfLastAsWritten(markers[..k + 1], false);
    AsWrittenSameStreamIff(markers, i, k);
    KeptRepeatsAt(data, p, i, k, markers);
  }

  /** The repeat condition read off the marker sequence is the one read off
      the records. */
  lemma KeptRepeatsAt(data: seq<byte>, p: nat, i: nat, k: nat, markers: seq<u32>)
    requires i <= k && p + 104 * (k + 1) <= |data| && markers == Markers(data, p, k + 1)
    ensures (forall t :: i <= t < k ==> KeptAt(markers, t))
            <==> (forall t :: i <= t < k ==> MarkerKeptAt(data, p, t))
  {
    MarkersElements(data, p, k + 1);
    if forall t :: i <= t < k ==> KeptAt(markers, t) {
      forall t | i <= t < k
        ensures MarkerKeptAt(data, p, t)
      {
        assert KeptAt(markers, t);
        assert markers[t] == MarkerAt(data, p, t) && markers[t + 1] == MarkerAt(data, p, t + 1);
      }
    }
    if forall t :: i <= t < k ==> MarkerKeptAt(data, p, t) {
      forall t | i <= t < k
        ensures KeptAt(markers, t)
      {
        assert MarkerKeptAt(data, p, t);
        assert markers[t] == MarkerAt(data, p, t) && markers[t + 1] == MarkerAt(data, p, t + 1);
      }
    }
  }

  /** In a successful chunk without the count match, materials `i <= k`
      share a vertex stream exactly when every record from `i + 1` to `k`
      repeats its predecessor's marker and that marker is below 2^31. */
  lemma GroupStreams(data: seq<byte>, p: nat, n: nat, hashes: seq<u32>, i: nat, k: nat)
    requires GroupMaterials(data, p, n, false, hashes).Ok? && i <= k < n
    ensures GroupMaterials(data, p, n, false, hashes).value[i].vertexStreamIndex
              == GroupMaterials(data, p, n, false, hashes).value[k].vertexStreamIndex
            <==> forall t :: i <= t < k ==> MarkerKeptAt(data, p, t)
  {
    var ms := GroupMaterials(data, p, n, false, hashes).value;
    GroupMaterialsSucceed(data, p, n, false, hashes);
    GroupMaterialsElements(data, p, n, false, hashes);
    assert GroupMaterialAt(data, p, i, false, hashes) == Ok(ms[i]);
    assert GroupMaterialAt(data, p, k, false, hashes) == Ok(ms[k]);
    StreamAtSameIff(data, p, i, k);
  }

  /** With the count match, the `j`-th material uses stream `j`. */
  lemma GroupStreamsSameCount(data: seq<byte>, p: nat, n: nat, hashes: seq<u32>, j: nat)
    requires GroupMaterials(data, p, n, true, hashes).Ok? && j < n
    ensures GroupMaterials(data, p, n, true, hashes).value[j].vertexStreamIndex == j
  {
    GroupMaterialsFacts(data, p, n, true, hashes);
  }

  /** One more successful record extends the chunk's materials by its own. */
  lemma GroupMaterialsStep(data: seq<byte>, p: nat, n: nat, sameCount: bool, hashes: seq<u32>, ms: seq<Material>, m: Material)
    requires GroupMaterials(data, p, n, sameCount, hashes) == Ok(ms)
    requires GroupMaterialAt(data, p, n, sameCount, hashes) == Ok(m)
    ensures GroupMaterials(data, p, n + 1, sameCount, hashes) == Ok(ms + [m])
  {
  }

  /** Once a prefix of the records fails, the whole chunk fails with that error. */
  lemma {:induction false} GroupMaterialsErrorPersists(data: seq<byte>, p: nat, n: nat, m: nat, sameCount: bool, hashes: seq<u32>)
    requires n <= m && GroupMaterials(data, p, n, sameCount, hashes).Err?
    ensures GroupMaterials(data, p, m, sameCount, hashes) == GroupMaterials(data, p, n, sameCount, hashes)
    decreases m
  {
    if n < m {
      GroupMaterialsErrorPersists(data, p, n, m - 1, sameCount, hashes);
    }
  }

  /** One shading-group record, the `j`-th of its chunk. */
  method ReadShadingGroup(br: Reader, ghost p: nat, j: nat) returns (r: Result<ShadingGroup>)
    requires br.pos == p + 104 * j
    modifies br
    ensures p + 104 * (j + 1) > |br.data| ==> r == Err(EndOfStream)
    ensures p + 104 * (j + 1) <= |br.data| ==> r == Ok(GroupAt(br.data, p, j)) && br.pos == old(br.pos) + 104
  {
    var rec :- br.ReadStruct(104);
    assert DecodeShadingGroup(rec, 0) == GroupAt(br.data, p, j);
    r := Ok(DecodeShadingGroup(rec, 0));
  }

  /** The vertex stream of the `j`-th record from the loop's state: the
      previous record's marker and stream. */
  function NextStreamIndex(j: nat, sameCount: bool, marker: u32, lastMarker: int, lastStream: nat): nat {
    if j == 0 then 0
    else if sameCount then j
    else if marker as int == lastMarker then lastStream
    else lastStream + 1
  }

  /** The reader's memory of the record before the `j`-th: its marker, kept
      as a signed 32-bit value, and its stream. */
  ghost predicate StreamState(data: seq<byte>, p: nat, j: nat, sameCount: bool, lastMarker: int, lastStream: nat) {
    j > 0 ==> && p + 104 * j <= |data|
              && lastMarker == ToInt32(MarkerAt(data, p, j - 1))
              && lastStream == StreamAt(data, p, j - 1, sameCount)
  }

  /** The `j`-th record of a chunk read into its material, its stream
      inferred from the previous record's marker and stream. */
  method ReadGroupMaterial(br: Reader, ghost p: nat, j: nat, sameCount: bool, hashes: seq<u32>,
                           lastMarker: int, lastStream: nat)
    returns (r: Result<Material>, marker: u32, stream: nat)
    requires br.pos == p + 104 * j
    requires StreamState(br.data, p, j, sameCount, lastMarker, lastStream)
    modifies br
    ensures r == GroupMaterialAt(br.data, p, j, sameCount, hashes)
    ensures r.Ok? ==> br.pos == old(br.pos) + 104 && StreamState(br.data, p, j + 1, sameCount, ToInt32(marker), stream)
  {
    marker, stream := 0, 0;
    var g := ReadShadingGroup(br, p, j);
    if g.Err? {
      return Err(g.error), marker, stream;
    }
    marker := g.value.marker;
    stream := NextStreamIndex(j, sameCount, marker, lastMarker, lastStream);
    r := GroupMaterial(g.value, j, hashes, stream);
  }

  /** The records of a shading-group chunk, read in order into their
      materials, with the running vertex total. */
  method ReadGroupMaterials(br: Reader, numMats: nat, sameCount: bool, hashes: seq<u32>)
    returns (r: Result<seq<Material>>, verts: nat)
    modifies br
    ensures r == GroupMaterials(br.data, old(br.pos), numMats, sameCount, hashes)
    ensures r.Ok? ==> verts == SumVerts(r.value)
  {
    ghost var p := br.pos;
    var added: seq<Material> := [];
    verts := 0;
    var lastUnknown1: int := -1;
    var lastStreamIdx: nat := 0;
    for j := 0 to numMats
      invariant br.pos == p + 104 * j
      invariant GroupMaterials(br.data, p, j, sameCount, hashes) == Ok(added)
      invariant verts == SumVerts(added)
      invariant StreamState(br.data, p, j, sameCount, lastUnknown1, lastStreamIdx)
    {
      var m, marker, vsIdx := ReadGroupMaterial(br, p, j, sameCount, hashes, lastUnknown1, lastStreamIdx);
      if m.Err? {
        GroupMaterialsErrorPersists(br.data, p, j + 1, numMats, sameCount, hashes);
        return Err(m.error), verts;
      }
      GroupMaterialsStep(br.data, p, j, sameCount, hashes, added, m.value);
      assert (added + [m.value])[..|added|] == added;
      added := added + [m.value];
      verts := verts + m.value.numVerts;
      lastUnknown1 := ToInt32(marker);
      lastStreamIdx := vsIdx;
    }
    r := Ok(added);
  }

  // ---------------------------------------------------------------------------
  // The reader

  /** The object invariant the Most Wanted reader keeps: every material's
      texture hash is in the table, its index count is three per triangle
      in 32-bit arithmetic, and its details are Most Wanted ones. */
  ghost predicate WellFormed(o: SolidObject) {
    && TexturesResolve(o)
    && forall m :: m in o.materials ==> m.numIndices == Wrap32(3 * m.numTris) && m.detail.MostWantedDetail?
  }

  /** A successful shading-group chunk keeps the object well formed. */
  lemma ApplyGroupsKeepsWellFormed(data: seq<byte>, p: nat, n: nat, sameCount: bool, o: SolidObject)
    requires GroupMaterials(data, p, n, sameCount, o.textureHashes).Ok?
    ensures WellFormed(o) ==> WellFormed(ApplyGroups(o, GroupMaterials(data, p, n, sameCount, o.textureHashes).value))
  {
    var ms := GroupMaterials(data, p, n, sameCount, o.textureHashes).value;
    GroupMaterialsFacts(data, p, n, sameCount, o.textureHashes);
    var r := ApplyGroups(o, ms);
    if WellFormed(o) {
      forall m | m in r.materials
        ensures m.textureHash in r.textureHashes
        ensures m.numIndices == Wrap32(3 * m.numTris) && m.detail.MostWantedDetail?
      {
        if m !in o.materials {
          var i :| 0 <= i < |ms| && ms[i] == m;
        }
      }
    }
  }

  /** The shading-group chunk: its size must be a whole number of records;
      streams are numbered one per record when the record count matches the
      descriptor's stream count. */
  method ReadShadingGroups(br: Reader, usable: u32, o: SolidObject) returns (r: Result<SolidObject>)
    modifies br
    ensures usable % 104 != 0 ==> r == Err(StructuralCorruption)
    ensures usable % 104 == 0 ==>
              var n := usable / 104;
              var ms := GroupMaterials(br.data, old(br.pos), n, n == o.meshDescriptor.numVertexStreams, o.textureHashes);
              (ms.Err? ==> r == Err(ms.error)) && (ms.Ok? ==> r == Ok(ApplyGroups(o, ms.value)))
    ensures Yields(r, GroupsEffect(br.data, old(br.pos), usable, o))
    ensures r.Ok? && WellFormed(o) ==> WellFormed(r.value)
  {
    if usable % 104 != 0 {
      return Err(StructuralCorruption);
    }
    ghost var p := br.pos;
    var numMats := usable / 104;
    var sameCount := numMats == o.meshDescriptor.numVertexStreams;
    var added, verts :- ReadGroupMaterials(br, numMats, sameCount, o.textureHashes);
    ApplyGroupsKeepsWellFormed(br.data, p, numMats, sameCount, o);
    r := Ok(ApplyGroups(o, added));
    GroupsEffectYields(br.data, p, usable, o, r);
  }

  /** A shading-group chunk that reports the chunk's materials, or their
      error, yields the `GroupsEffect`. */
  lemma GroupsEffectYields(data: seq<byte>, p: nat, usable: u32, o: SolidObject, r: Result<SolidObject>)
    requires usable % 104 != 0 ==> r == Err(StructuralCorruption)
    requires usable % 104 == 0 ==>
               var n := usable / 104;
               var ms := GroupMaterials(data, p, n, n == o.meshDescriptor.numVertexStreams, o.textureHashes);
               (ms.Err? ==> r == Err(ms.error)) && (ms.Ok? ==> r == Ok(ApplyGroups(o, ms.value)))
    ensures Yields(r, GroupsEffect(data, p, usable, o))
  {
  }

  /** Appending hashes keeps the object well formed. */
  lemma HashesAppendedKeepsWellFormed(o: SolidObject, hashes: seq<u32>)
    ensures WellFormed(o) ==> WellFormed(o.(textureHashes := o.textureHashes + hashes))
  {
  }

  /** Renaming a material keeps the object well formed. */
  lemma RenamedKeepsWellFormed(o: SolidObject, i: nat, name: MaterialLabel)
    requires i < |o.materials|
    ensures WellFormed(o) ==> WellFormed(o.(materials := o.materials[i := o.materials[i].(name := name)]))
  {
    RenamedMaterials(o.materials, i, name);
  }

  // Object and list assembly

  /** The object-header chunk: the header record and the null-terminated
      name; the counts come from the header. */
  ghost function HeaderEffect(data: seq<byte>, p: nat, o: SolidObject): Option<SolidObject> {
    if p + ObjectHeaderSize > |data| then None
    else
      var h := DecodeObjectHeader(data[p..p + ObjectHeaderSize]);
      var s := CStringAt(data, p + ObjectHeaderSize);
      if s.None? then None
      else Some(ApplyHeader(o, h, Latin1(s.value), h.shaderCount, h.textureCount))
  }

  /** The mesh-descriptor chunk replaces the descriptor. */
  ghost function DescriptorEffect(data: seq<byte>, p: nat, o: SolidObject): Option<SolidObject> {
    if p + DescriptorSize > |data| then None
    else Some(o.(meshDescriptor := DecodeDescriptor(data[p..p + DescriptorSize])))
  }

  /** The shading-group chunk: whole 104-byte records, their materials
      appended and their vertices counted. */
  ghost function GroupsEffect(data: seq<byte>, p: nat, usable: u32, o: SolidObject): Option<SolidObject> {
    if usable % 104 != 0 then None
    else
      var n := usable / 104;
      var ms := GroupMaterials(data, p, n, n == o.meshDescriptor.numVertexStreams, o.textureHashes);
      if ms.Err? then None else Some(ApplyGroups(o, ms.value))
  }

  /** The vertex-buffer chunk appends one buffer of `usable / 4` words. */
  ghost function VertexEffect(data: seq<byte>, p: nat, usable: u32, chunkEnd: int, o: SolidObject): Option<SolidObject> {
    var vb := VertexBufferAt(data, p, chunkEnd, usable / 4);
    if vb.Err? then None else Some(o.(vertexBuffers := o.vertexBuffers + [vb.value]))
  }

  /** What one leaf handler does, its payload at `p` with `usable` bytes
      after the padding: the object and the material-name cursor it leaves,
      or `None` when the handler throws. The header restarts the cursor, a
      non-empty name chunk advances it, and unknown ids change nothing. */
  ghost function LeafEffect(data: seq<byte>, p: nat, id: u32, usable: u32, chunkEnd: int,
                            o: SolidObject, named: nat): Option<(SolidObject, nat)>
  {
    if id == ObjectHeaderChunk then Lift(HeaderEffect(data, p, o), 0)
    else if id == TextureHashesChunk then Lift(TextureEffect(data, p, usable, false, o), named)
    else if id == MeshDescriptorChunk then Lift(DescriptorEffect(data, p, o), named)
    else if id == ShadingGroupChunk then Lift(GroupsEffect(data, p, usable, o), named)
    else if id == VertexBufferChunk then Lift(VertexEffect(data, p, usable, chunkEnd, o), named)
    else if id == FacesChunk then Lift(FacesEffect(data, p, o), named)
    else if id == MaterialNameChunk then Lift(NameEffect(data, p, usable, o, named), if usable == 0 then named else named + 1)
    else Some((o, named))
  }

  /** A leaf chunk of an object whose payload starts at `p`: the padding is
      skipped (the first word is read whatever the size), the size shrinks by
      the padding, and the handler runs from the first payload word. */
  ghost function LeafChunk(data: seq<byte>, p: nat, id: u32, size: u32, o: SolidObject, named: nat): Option<(SolidObject, nat)>
  {
    var scan := ScanPadding(data, p, p + size, false);
    if scan.None? then None
    else LeafEffect(data, scan.value.stop - 4, id, Wrap32(size - scan.value.padding), p + size, o, named)
  }

  /** The handlers' contracts, with the header resetting the name cursor
      and a successful name chunk advancing it when it is not empty, make up
      the leaf step. */
  lemma LeafEffectOfHandlers(data: seq<byte>, p: nat, id: u32, usable: u32, chunkEnd: int,
                             o: SolidObject, named: nat, r: Result<SolidObject>, named': nat)
    requires && (id == ObjectHeaderChunk ==> Yields(r, HeaderEffect(data, p, o)))
             && (id == TextureHashesChunk ==> Yields(r, TextureEffect(data, p, usable, false, o)))
             && (id == MeshDescriptorChunk ==> Yields(r, DescriptorEffect(data, p, o)))
             && (id == ShadingGroupChunk ==> Yields(r, GroupsEffect(data, p, usable, o)))
             && (id == VertexBufferChunk ==> Yields(r, VertexEffect(data, p, usable, chunkEnd, o)))
             && (id == FacesChunk ==> Yields(r, FacesEffect(data, p, o)))
             && (id == MaterialNameChunk ==> Yields(r, NameEffect(data, p, usable, o, named)))
    requires id == ObjectHeaderChunk ==> named' == 0
    requires id != ObjectHeaderChunk && id != MaterialNameChunk ==> named' == named
    requires r.Ok? && id == MaterialNameChunk ==> named' == if usable == 0 then named else named + 1
    requires (id !in {ObjectHeaderChunk, TextureHashesChunk, MeshDescriptorChunk, ShadingGroupChunk,
                      VertexBufferChunk, FacesChunk, MaterialNameChunk}) ==> r == Ok(o)
    ensures var e := LeafEffect(data, p, id, usable, chunkEnd, o, named);
            (r.Ok? <==> e.Some?) && (r.Ok? ==> e == Some((r.value, named')))
  {
  }

  /** A leaf whose padding scan counted `padding` bytes and left the cursor
      at `q` is the handler's effect from `q`. */
  lemma LeafChunkPadded(data: seq<byte>, p: nat, id: u32, size: u32, o: SolidObject, named: nat,
                        padding: nat, q: nat)
    requires ScanPadding(data, p, p + size, false) == Some(PadScan(padding, q + 4))
    ensures LeafChunk(data, p, id, size, o, named) == LeafEffect(data, q, id, Wrap32(size - padding), p + size, o, named)
  {
  }

  /** The object reader over the chunks in `[pos, end)`: each chunk is an
      `ObjectStep`, and the next chunk starts after the previous one's
      payload whatever was read. */
  ghost function ObjectWalk(data: seq<byte>, pos: nat, end: int, o: SolidObject, named: nat): Option<(SolidObject, nat)>
    decreases |data| - pos, 2
  {
    if pos >= end then Some((o, named))
    else if pos + 8 > |data| then None
    else
      var next := ObjectStep(data, pos, o, named);
      if next.None? then None
      else ObjectWalk(data, pos + 8 + U32At(data, pos + 4), end, next.value.0, next.value.1)
  }

  /** One chunk of an object, its header at `pos`. */
  ghost function ObjectStep(data: seq<byte>, pos: nat, o: SolidObject, named: nat): Option<(SolidObject, nat)>
    requires pos + 8 <= |data|
    decreases |data| - pos, 1
  {
    ChunkEffect(data, pos + 8, U32At(data, pos), U32At(data, pos + 4), o, named)
  }

  /** The payload of one chunk of an object, at `p`: a container is read into
      the same object, a leaf goes through `LeafChunk`. */
  ghost function ChunkEffect(data: seq<byte>, p: nat, id: u32, size: u32, o: SolidObject, named: nat): Option<(SolidObject, nat)>
    requires p <= |data|
    decreases |data| - p + 8, 0
  {
    if IsContainer(id) then ObjectWalk(data, p, p + size, o, named)
    else LeafChunk(data, p, id, size, o, named)
  }

  /** A container chunk of an object is the walk over its payload. */
  lemma ObjectContainerStep(data: seq<byte>, pos: nat, p: nat, size: u32, o: SolidObject, named: nat)
    requires p == pos + 8 <= |data| && size == U32At(data, pos + 4) && IsContainer(U32At(data, pos))
    ensures ObjectStep(data, pos, o, named) == ObjectWalk(data, p, p + size, o, named)
  {
  }

  /** A leaf chunk of an object is its `LeafChunk`. */
  lemma ObjectLeafStep(data: seq<byte>, pos: nat, p: nat, id: u32, size: u32, o: SolidObject, named: nat)
    requires p == pos + 8 <= |data| && id == U32At(data, pos) && size == U32At(data, pos + 4)
    requires !IsContainer(id)
    ensures ObjectStep(data, pos, o, named) == LeafChunk(data, p, id, size, o, named)
  {
  }

  /** The walk over `[pos, end)` after its first chunk: when that chunk's
      step fails the walk fails, and otherwise the walk goes on from the
      chunk's end with what the step produced. */
  lemma ObjectWalkAdvance(data: seq<byte>, pos: nat, end: int, o: SolidObject, named: nat,
                          next: nat, r: Result<SolidObject>, named': nat)
    requires pos < end && pos + 8 <= |data| && next == pos + 8 + U32At(data, pos + 4)
    requires var w := ObjectStep(data, pos, o, named);
             (r.Ok? <==> w.Some?) && (r.Ok? ==> w == Some((r.value, named')))
    ensures r.Err? ==> ObjectWalk(data, pos, end, o, named).None?
    ensures r.Ok? ==> ObjectWalk(data, pos, end, o, named) == ObjectWalk(data, next, end, r.value, named')
  {
    var w := ObjectStep(data, pos, o, named);
    if r.Ok? {
      assert ObjectWalk(data, pos, end, o, named)
             == ObjectWalk(data, pos + 8 + U32At(data, pos + 4), end, w.value.0, w.value.1);
    } else {
      assert w.None?;
    }
  }

  /** A chunk of the outer walk that is not walked into, its payload at `p`:
      the list-info record sets the list's attributes, an object root is read
      from a fresh object over its whole size and appended post-processed,
      and any other chunk changes nothing. */
  ghost function ListEntry(data: seq<byte>, p: nat, id: u32, size: u32, list: SolidList, named: nat): Option<(SolidList, nat)>
  {
    if id == SolidListInfoChunk then
      if p + SolidListInfoSize > |data| then None
      else Some((ApplyListInfo(list, data[p..p + SolidListInfoSize]), named))
    else if id == ObjectRootChunk then
      var w := ObjectWalk(data, p, p + size, NewObject, named);
      if w.None? then None
      else Some((list.(objects := list.objects + [PostProcessing(w.value.0)]), w.value.1))
    else Some((list, named))
  }

  /** The outer walk over `[pos, end)`: containers other than an object root
      are walked into, every other chunk is a `ListEntry`, and no id ends
      the walk early. */
  ghost function ListWalk(data: seq<byte>, pos: nat, end: int, list: SolidList, named: nat): Option<(SolidList, nat)>
    decreases |data| - pos, 2
  {
    if pos >= end then Some((list, named))
    else if pos + 8 > |data| then None
    else
      var next := ListStep(data, pos, list, named);
      if next.None? then None
      else ListWalk(data, pos + 8 + U32At(data, pos + 4), end, next.value.0, next.value.1)
  }

  /** One chunk of the outer walk, its header at `pos`. */
  ghost function ListStep(data: seq<byte>, pos: nat, list: SolidList, named: nat): Option<(SolidList, nat)>
    requires pos + 8 <= |data|
    decreases |data| - pos, 1
  {
    ListChunk(data, pos + 8, U32At(data, pos), U32At(data, pos + 4), list, named)
  }

  /** The payload of one chunk of the outer walk, at `p`. */
  ghost function ListChunk(data: seq<byte>, p: nat, id: u32, size: u32, list: SolidList, named: nat): Option<(SolidList, nat)>
    requires p <= |data|
    decreases |data| - p + 8, 0
  {
    if IsContainer(id) && id != ObjectRootChunk then ListWalk(data, p, p + size, list, named)
    else ListEntry(data, p, id, size, list, named)
  }

  /** A container of the outer walk is the walk over its payload. */
  lemma ListContainerStep(data: seq<byte>, pos: nat, p: nat, size: u32, list: SolidList, named: nat)
    requires p == pos + 8 <= |data| && size == U32At(data, pos + 4)
    requires IsContainer(U32At(data, pos)) && U32At(data, pos) != ObjectRootChunk
    ensures ListStep(data, pos, list, named) == ListWalk(data, p, p + size, list, named)
  {
  }

  /** Any other chunk of the outer walk is its `ListEntry`. */
  lemma ListEntryStep(data: seq<byte>, pos: nat, p: nat, id: u32, size: u32, list: SolidList, named: nat)
    requires p == pos + 8 <= |data| && id == U32At(data, pos) && size == U32At(data, pos + 4)
    requires !(IsContainer(id) && id != ObjectRootChunk)
    ensures ListStep(data, pos, list, named) == ListEntry(data, p, id, size, list, named)
  {
  }

  class MostWantedSolids {
    var solidList: SolidList
    var namedMaterials: nat

    constructor ()
      ensures solidList == NewSolidList && namedMaterials == 0
    {
      solidList := NewSolidList;
      namedMaterials := 0;
    }

    /** An object as this reader leaves it in the list. */
    ghost predicate Finished(o: SolidObject) {
      o.postProcessed && WellFormed(o)
    }

    ghost predicate ListFinished(l: SolidList) {
      forall o :: o in l.objects ==> Finished(o)
    }

    /** The list reader: a fresh list and material-name cursor, then the
        outer walk over the container's payload. */
    method ReadSolidList(br: Reader, containerSize: u32) returns (r: Result<SolidList>)
      modifies br, this`solidList, this`namedMaterials
      ensures var w := ListWalk(br.data, old(br.pos), old(br.pos) + containerSize, NewSolidList, 0);
              (r.Ok? <==> w.Some?) && (r.Ok? ==> w == Some((r.value, namedMaterials)))
      ensures r.Ok? ==> ChunkWalk(br.data, old(br.pos), old(br.pos) + containerSize, false) == Some(br.pos)
      ensures r.Ok? ==> r.value == solidList && ListFinished(solidList)
    {
      solidList := NewSolidList;
      namedMaterials := 0;
      var _ :- ReadChunks(br, containerSize);
      r := Ok(solidList);
    }

    /** The outer chunk walk, one `ReadOuterChunk` at a time; every chunk
        leaves the cursor at its end. */
    method ReadChunks(br: Reader, containerSize: nat) returns (r: Result<()>)
      modifies br, this`solidList, this`namedMaterials
      ensures var w := ListWalk(br.data, old(br.pos), old(br.pos) + containerSize, old(solidList), old(namedMaterials));
              (r.Ok? <==> w.Some?) && (r.Ok? ==> w == Some((solidList, namedMaterials)))
      ensures r.Ok? ==> ChunkWalk(br.data, old(br.pos), old(br.pos) + containerSize, false) == Some(br.pos)
      ensures r.Ok? ==> old(solidList.objects) <= solidList.objects
      ensures r.Ok? && ListFinished(old(solidList)) ==> ListFinished(solidList)
      decreases if br.pos <= |br.data| then |br.data| - br.pos else 0, 2
    {
      ghost var start := br.pos;
      var endPos := br.pos + containerSize;
      while br.pos < endPos
        invariant ChunkWalk(br.data, br.pos, endPos, false) == ChunkWalk(br.data, start, endPos, false)
        invariant ListWalk(br.data, br.pos, endPos, solidList, namedMaterials)
                  == ListWalk(br.data, start, endPos, old(solidList), old(namedMaterials))
        invariant old(solidList.objects) <= solidList.objects
        invariant ListFinished(old(solidList)) ==> ListFinished(solidList)
        decreases |br.data| - br.pos
      {
        var _ :- ReadOuterChunk(br, endPos);
      }
      r := Ok(());
    }

    /** One chunk of the outer walk that ends at `end`, header included:
        containers other than an object root are walked recursively, every
        other chunk goes to `ReadListChunk`; the cursor is left at the
        chunk's end. */
    method ReadOuterChunk(br: Reader, end: int) returns (r: Result<()>)
      requires br.pos < end
      modifies br, this`solidList, this`namedMaterials
      ensures r.Err? ==> ListWalk(br.data, old(br.pos), end, old(solidList), old(namedMaterials)).None?
      ensures r.Ok? ==> old(br.pos) < |br.data| && old(br.pos) < br.pos
      ensures r.Ok? ==> ListWalk(br.data, old(br.pos), end, old(solidList), old(namedMaterials))
                        == ListWalk(br.data, br.pos, end, solidList, namedMaterials)
      ensures r.Ok? ==> ChunkWalk(br.data, old(br.pos), end, false) == ChunkWalk(br.data, br.pos, end, false)
      ensures r.Ok? ==> old(solidList.objects) <= solidList.objects
      ensures r.Ok? && ListFinished(old(solidList)) ==> ListFinished(solidList)
      decreases if br.pos <= |br.data| then |br.data| - br.pos else 0, 1
    {
      ghost var here, list, named := br.pos, solidList, namedMaterials;
      var id :- br.ReadUInt32();
      var size :- br.ReadUInt32();
      var chunkEnd := br.pos + size;
      ChunkWalkStep(br.data, here, chunkEnd, end, false);
      if IsContainer(id) && id != ObjectRootChunk {
        ListContainerStep(br.data, here, br.pos, size, list, named);
        r := ReadChunks(br, size);
      } else {
        ListEntryStep(br.data, here, br.pos, id, size, list, named);
        r := ReadListChunk(br, id, size);
      }
      if r.Err? {
        return;
      }
      br.pos := chunkEnd;
    }

    /** A chunk of the outer walk that is not walked into: the list-info
        record sets the list's attributes, an object root adds one object read
        from a fresh one and post-processed, and any other chunk changes
        nothing. */
    method ReadListChunk(br: Reader, chunkId: u32, chunkSize: u32) returns (r: Result<()>)
      modifies br, this`solidList, this`namedMaterials
      ensures var e := ListEntry(br.data, old(br.pos), chunkId, chunkSize, old(solidList), old(namedMaterials));
              (r.Ok? <==> e.Some?) && (r.Ok? ==> e == Some((solidList, namedMaterials)))
      ensures r.Ok? ==> old(solidList.objects) <= solidList.objects
      ensures r.Ok? && ListFinished(old(solidList)) ==> ListFinished(solidList)
    {
      if chunkId == SolidListInfoChunk {
        var rec :- br.ReadStruct(SolidListInfoSize);
        solidList := ApplyListInfo(solidList, rec);
      } else if chunkId == ObjectRootChunk {
        var obj :- ReadObject(br, chunkSize, NewObject);
        solidList := solidList.(objects := solidList.objects + [PostProcessing(obj)]);
      }
      r := Ok(());
    }

    /** The object reader: walks the object's chunks one `ReadObjectChunk`
        at a time; every chunk leaves the cursor at its end. */
    method ReadObject(br: Reader, size: nat, obj: SolidObject) returns (r: Result<SolidObject>)
      modifies br, this`namedMaterials
      ensures r.Ok? <==> ObjectWalk(br.data, old(br.pos), old(br.pos) + size, obj, old(namedMaterials)).Some?
      ensures r.Ok? ==> ObjectWalk(br.data, old(br.pos), old(br.pos) + size, obj, old(namedMaterials))
                        == Some((r.value, namedMaterials))
      ensures r.Ok? ==> ChunkWalk(br.data, old(br.pos), old(br.pos) + size, false) == Some(br.pos)
      ensures r.Ok? ==> r.value.postProcessed == obj.postProcessed
      ensures r.Ok? && WellFormed(obj) ==> WellFormed(r.value)
      decreases if br.pos <= |br.data| then |br.data| - br.pos else 0, 2
    {
      var o := obj;
      ghost var start := br.pos;
      var endPos := br.pos + size;
      while br.pos < endPos
        invariant ChunkWalk(br.data, br.pos, endPos, false) == ChunkWalk(br.data, start, endPos, false)
        invariant ObjectWalk(br.data, br.pos, endPos, o, namedMaterials)
                  == ObjectWalk(br.data, start, endPos, obj, old(namedMaterials))
        invariant o.postProcessed == obj.postProcessed
        invariant WellFormed(obj) ==> WellFormed(o)
        decreases |br.data| - br.pos
      {
        o :- ReadObjectChunk(br, endPos, o);
      }
      r := Ok(o);
    }

    /** One chunk of an object that ends at `end`, header included: a
        container is read recursively into the same object; a leaf has its
        padding skipped (the first word is read whatever the chunk size) and
        goes to its handler; the cursor is left at the chunk's end. */
    method ReadObjectChunk(br: Reader, end: int, o: SolidObject) returns (r: Result<SolidObject>)
      requires br.pos < end
      modifies br, this`namedMaterials
      ensures r.Err? ==> ObjectWalk(br.data, old(br.pos), end, o, old(namedMaterials)).None?
      ensures r.Ok? ==> old(br.pos) < |br.data| && old(br.pos) < br.pos
      ensures r.Ok? ==> ObjectWalk(br.data, old(br.pos), end, o, old(namedMaterials))
                        == ObjectWalk(br.data, br.pos, end, r.value, namedMaterials)
      ensures r.Ok? ==> ChunkWalk(br.data, old(br.pos), end, false) == ChunkWalk(br.data, br.pos, end, false)
      ensures r.Ok? ==> r.value.postProcessed == o.postProcessed
      ensures r.Ok? && WellFormed(o) ==> WellFormed(r.value)
      decreases if br.pos <= |br.data| then |br.data| - br.pos else 0, 1
    {
      ghost var here, named := br.pos, namedMaterials;
      var id :- br.ReadUInt32();
      var size :- br.ReadUInt32();
      var chunkEnd := br.pos + size;
      ChunkWalkStep(br.data, here, chunkEnd, end, false);
      if IsContainer(id) {
        ObjectContainerStep(br.data, here, br.pos, size, o, named);
        r := ReadObject(br, size, o);
      } else {
        ObjectLeafStep(br.data, here, br.pos, id, size, o, named);
        r := ReadLeafChunk(br, id, size, o);
      }
      ObjectWalkAdvance(br.data, here, end, o, named, chunkEnd, r, namedMaterials);
      if r.Err? {
        return;
      }
      br.pos := chunkEnd;
    }

    /** A leaf of an object, its header just read: the padding is skipped
        (the first word is read whatever the chunk size), the size shrinks by
        the padding, and the payload goes to its handler. */
    method ReadLeafChunk(br: Reader, id: u32, size: u32, o: SolidObject) returns (r: Result<SolidObject>)
      requires 8 <= br.pos <= |br.data|
      modifies br, this`namedMaterials
      ensures var w := LeafChunk(br.data, old(br.pos), id, size, o, old(namedMaterials));
              (r.Ok? <==> w.Some?) && (r.Ok? ==> w == Some((r.value, namedMaterials)))
      ensures r.Ok? ==> r.value.postProcessed == o.postProcessed
      ensures r.Ok? && WellFormed(o) ==> WellFormed(r.value)
    {
      var chunkEnd := br.pos + size;
      ghost var named := namedMaterials;
      ghost var here := br.pos;
      var padding :- SkipPadding(br, chunkEnd, false);
      LeafChunkPadded(br.data, here, id, size, o, named, padding, br.pos);
      ghost var p := br.pos;
      r := ReadLeaf(br, id, Wrap32(size - padding), chunkEnd, o);
      LeafEffectOfHandlers(br.data, p, id, Wrap32(size - padding), chunkEnd, o, named, r, namedMaterials);
    }

    /** The object-header chunk: the header record, then the object's name
        as a null-terminated string; the shader and texture counts come from
        the header, and the material-name cursor restarts. */
    method ReadHeaderLeaf(br: Reader, o: SolidObject) returns (r: Result<SolidObject>)
      modifies br, this`namedMaterials
      ensures namedMaterials == 0
      ensures old(br.pos) + ObjectHeaderSize > |br.data| ==> r == Err(EndOfStream)
      ensures old(br.pos) + ObjectHeaderSize <= |br.data| ==>
                var p := old(br.pos);
                var h := DecodeObjectHeader(br.data[p..p + ObjectHeaderSize]);
                var s := CStringAt(br.data, p + ObjectHeaderSize);
                (s.None? ==> r == Err(EndOfStream))
                && (s.Some? ==> r == Ok(ApplyHeader(o, h, Latin1(s.value), h.shaderCount, h.textureCount)))
      ensures Yields(r, HeaderEffect(br.data, old(br.pos), o))
      ensures r.Ok? ==> r.value.postProcessed == o.postProcessed
      ensures r.Ok? && WellFormed(o) ==> WellFormed(r.value)
    {
      namedMaterials := 0;
      var rec :- br.ReadStruct(ObjectHeaderSize);
      var name :- br.ReadNullTerminatedString();
      var h := DecodeObjectHeader(rec);
      r := Ok(ApplyHeader(o, h, name, h.shaderCount, h.textureCount));
    }

    /** The material-name chunk: a non-empty one names the material at the
        cursor and moves the cursor on. */
    method ReadNameLeaf(br: Reader, usable: u32, o: SolidObject) returns (r: Result<SolidObject>)
      modifies br, this`namedMaterials
      ensures usable == 0 ==> r == Ok(o) && namedMaterials == old(namedMaterials)
      ensures usable > 0 && old(namedMaterials) >= |o.materials| ==> r == Err(ArgumentOutOfRange)
      ensures usable > 0 && old(namedMaterials) < |o.materials| ==>
                var s, i := CStringAt(br.data, old(br.pos)), old(namedMaterials);
                (s.None? ==> r == Err(EndOfStream))
                && (s.Some? ==> namedMaterials == i + 1
                                && r == Ok(o.(materials := o.materials[i := o.materials[i].(name := Given(Latin1(s.value)))])))
      ensures Yields(r, NameEffect(br.data, old(br.pos), usable, o, old(namedMaterials)))
      ensures r.Ok? ==> namedMaterials == if usable == 0 then old(namedMaterials) else old(namedMaterials) + 1
      ensures r.Ok? ==> r.value.postProcessed == o.postProcessed
      ensures r.Ok? && WellFormed(o) ==> WellFormed(r.value)
    {
      var ms, next :- ReadMaterialName(br, usable, o.materials, namedMaterials);
      if usable > 0 {
        RenamedKeepsWellFormed(o, namedMaterials, ms[namedMaterials].name);
      }
      namedMaterials := next;
      r := Ok(o.(materials := ms));
    }

    /** The texture-hash chunk: every first word is kept, zeros included. */
    method ReadTextureLeaf(br: Reader, usable: u32, o: SolidObject) returns (r: Result<SolidObject>)
      modifies br
      ensures r.Ok? <==> TextureTableFits(br.data, old(br.pos), usable / 8)
      ensures r.Ok? ==> r.value == o.(textureHashes := o.textureHashes + TextureWordsAt(br.data, old(br.pos), usable / 8))
      ensures Yields(r, TextureEffect(br.data, old(br.pos), usable, false, o))
      ensures r.Ok? && WellFormed(o) ==> WellFormed(r.value)
    {
      var hashes :- ReadTextureTable(br, usable, false);
      HashesAppendedKeepsWellFormed(o, hashes);
      r := Ok(o.(textureHashes := o.textureHashes + hashes));
    }

    /** The mesh-descriptor chunk: one 48-byte record. */
    method ReadDescriptorLeaf(br: Reader, o: SolidObject) returns (r: Result<SolidObject>)
      modifies br
      ensures old(br.pos) + DescriptorSize > |br.data| ==> r == Err(EndOfStream)
      ensures Yields(r, DescriptorEffect(br.data, old(br.pos), o))
      ensures r.Ok? && WellFormed(o) ==> WellFormed(r.value)
    {
      var rec :- br.ReadStruct(DescriptorSize);
      r := Ok(o.(meshDescriptor := DecodeDescriptor(rec)));
    }

    /** The vertex-buffer chunk: one buffer of `usable / 4` words. */
    method ReadVertexLeaf(br: Reader, usable: u32, chunkEnd: int, o: SolidObject) returns (r: Result<SolidObject>)
      modifies br
      ensures var vb := VertexBufferAt(br.data, old(br.pos), chunkEnd, usable / 4);
              vb.Err? ==> r == Err(vb.error)
      ensures Yields(r, VertexEffect(br.data, old(br.pos), usable, chunkEnd, o))
      ensures r.Ok? && WellFormed(o) ==> WellFormed(r.value)
    {
      var vb :- ReadVertexBuffer(br, usable, chunkEnd);
      r := Ok(o.(vertexBuffers := o.vertexBuffers + [vb]));
    }

    /** The face chunk: the faces of all the materials' triangles. */
    method ReadFacesLeaf(br: Reader, o: SolidObject) returns (r: Result<SolidObject>)
      modifies br
      ensures Yields(r, FacesEffect(br.data, old(br.pos), o))
      ensures r.Ok? && WellFormed(o) ==> WellFormed(r.value)
    {
      var faces :- ReadFaces(br, o.materials);
      r := Ok(o.(faces := faces));
    }

    /** One leaf chunk of an object, dispatched on its id; unknown ids are
        skipped. The texture table keeps every hash, zeros included. Each
        known id yields its handler's effect (so the leaf as a whole is the
        `LeafEffect`), and the error each handler reports is kept. */
    method ReadLeaf(br: Reader, id: u32, usable: u32, chunkEnd: int, o: SolidObject) returns (r: Result<SolidObject>)
      modifies br, this`namedMaterials
      ensures var p := old(br.pos);
              && (id == ObjectHeaderChunk ==> Yields(r, HeaderEffect(br.data, p, o)))
              && (id == TextureHashesChunk ==> Yields(r, TextureEffect(br.data, p, usable, false, o)))
              && (id == MeshDescriptorChunk ==> Yields(r, DescriptorEffect(br.data, p, o)))
              && (id == ShadingGroupChunk ==> Yields(r, GroupsEffect(br.data, p, usable, o)))
              && (id == VertexBufferChunk ==> Yields(r, VertexEffect(br.data, p, usable, chunkEnd, o)))
              && (id == FacesChunk ==> Yields(r, FacesEffect(br.data, p, o)))
              && (id == MaterialNameChunk ==> Yields(r, NameEffect(br.data, p, usable, o, old(namedMaterials))))
      ensures r.Ok? ==> r.value.postProcessed == o.postProcessed
      ensures r.Ok? && WellFormed(o) ==> WellFormed(r.value)
      ensures id == ObjectHeaderChunk ==> namedMaterials == 0
      ensures id != ObjectHeaderChunk && id != MaterialNameChunk ==> namedMaterials == old(namedMaterials)
      ensures r.Ok? && id == MaterialNameChunk ==>
                namedMaterials == if usable == 0 then old(namedMaterials) else old(namedMaterials) + 1
      ensures id == TextureHashesChunk ==>
                (r.Ok? <==> TextureTableFits(br.data, old(br.pos), usable / 8))
                && (r.Ok? ==> r.value == o.(textureHashes := o.textureHashes
                                              + TextureWordsAt(br.data, old(br.pos), usable / 8)))
      ensures id == ObjectHeaderChunk ==>
                var p := old(br.pos);
                (p + ObjectHeaderSize > |br.data| ==> r == Err(EndOfStream))
                && (p + ObjectHeaderSize <= |br.data| ==>
                      var h := DecodeObjectHeader(br.data[p..p + ObjectHeaderSize]);
                      var s := CStringAt(br.data, p + ObjectHeaderSize);
                      (s.None? ==> r == Err(EndOfStream))
                      && (s.Some? ==> r == Ok(ApplyHeader(o, h, Latin1(s.value), h.shaderCount, h.textureCount))))
      ensures id == MeshDescriptorChunk ==>
                var p := old(br.pos);
                (p + DescriptorSize > |br.data| ==> r == Err(EndOfStream))
                && (p + DescriptorSize <= |br.data| ==>
                      r == Ok(o.(meshDescriptor := DecodeDescriptor(br.data[p..p + DescriptorSize]))))
      ensures id == ShadingGroupChunk ==>
                (usable % 104 != 0 ==> r == Err(StructuralCorruption))
                && (usable % 104 == 0 ==>
                      var ms := GroupMaterials(br.data, old(br.pos), usable / 104, usable / 104 == o.meshDescriptor.numVertexStreams, o.textureHashes);
                      (ms.Err? ==> r == Err(ms.error)) && (ms.Ok? ==> r == Ok(ApplyGroups(o, ms.value))))
      ensures id == VertexBufferChunk ==>
                var vb := VertexBufferAt(br.data, old(br.pos), chunkEnd, usable / 4);
                (vb.Err? ==> r == Err(vb.error))
                && (vb.Ok? ==> r == Ok(o.(vertexBuffers := o.vertexBuffers + [vb.value])))
      ensures id == FacesChunk ==>
                var total := SumTris(o.materials);
                (r.Ok? <==> total < 0x8000_0000 && (total == 0 || old(br.pos) + 6 * total <= |br.data|))
                && (r.Ok? ==> r.value == o.(faces := FacesAt(br.data, old(br.pos), total)))
      ensures id == MaterialNameChunk ==>
                && (usable == 0 ==> r == Ok(o) && namedMaterials == old(namedMaterials))
                && (usable > 0 && old(namedMaterials) >= |o.materials| ==> r == Err(ArgumentOutOfRange))
                && (usable > 0 && old(namedMaterials) < |o.materials| ==>
                      var s, i := CStringAt(br.data, old(br.pos)), old(namedMaterials);
                      (s.None? ==> r == Err(EndOfStream))
                      && (s.Some? ==> namedMaterials == i + 1
                                      && r == Ok(o.(materials := o.materials[i := o.materials[i].(name := Given(Latin1(s.value)))]))))
      ensures (id !in {ObjectHeaderChunk, TextureHashesChunk, MeshDescriptorChunk, ShadingGroupChunk,
                       VertexBufferChunk, FacesChunk, MaterialNameChunk}) ==> r == Ok(o)
    {
      if id == ObjectHeaderChunk {
        r := ReadHeaderLeaf(br, o);
      } else if id == TextureHashesChunk {
        r := ReadTextureLeaf(br, usable, o);
      } else if id == MeshDescriptorChunk {
        r := ReadDescriptorLeaf(br, o);
      } else if id == ShadingGroupChunk {
        r := ReadShadingGroups(br, usable, o);
      } else if id == VertexBufferChunk {
        r := ReadVertexLeaf(br, usable, chunkEnd, o);
      } else if id == FacesChunk {
        r := ReadFacesLeaf(br, o);
      } else if id == MaterialNameChunk {
        r := ReadNameLeaf(br, usable, o);
      } else {
        r := Ok(o);
      }
    }

    /** The write direction is not implemented. */
    method WriteSolidList(list: SolidList) returns (r: Result<()>)
      ensures r == Err(NotImplemented)
    {
      r := Err(NotImplemented);
    }
  }
}
