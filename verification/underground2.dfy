/** The Need for Speed: Underground 2 solid-list reader: the same outer chunk
    walk as Most Wanted, an object header followed by a fixed-width name, an
    84-byte descriptor and the title's 60-byte shading group, whose texture
    index is looked up unclamped. */
module Underground2 {
  import opened Results
  import opened Bytes
  import opened Stream
  import opened Chunks
  import opened Geometry
  import opened LeafHandlers

  const ObjectHeaderSize := 164
  const ObjectNameSize := 0x1C
  const DescriptorSize := 84

  // ---------------------------------------------------------------------------
  // Records

  /** The 84-byte object descriptor: the flags (bit 7 says whether the mesh
      has normals), the material count and the triangle count; the mesh has
      one vertex stream and three indices per triangle, in 32-bit arithmetic. */
  function Underground2Descriptor(rec: seq<byte>): (d: MeshDescriptor)
    requires |rec| >= DescriptorSize
    ensures d.flags == U32At(rec, 12) && d.numMats == U32At(rec, 16)
    ensures d.hasNormals <==> (d.flags / 0x80) % 2 == 1
    ensures d.numIndices == Wrap32(3 * U32At(rec, 52))
    ensures d.numVertexStreams == 1 && d.numVerts == 0
  {
    var flags := U32At(rec, 12);
    MeshDescriptor(flags, (flags / 0x80) % 2 == 1, Wrap32(3 * U32At(rec, 52)), U32At(rec, 16), 1, 0)
  }

  /** The shading-group fields the reader uses. */
  datatype ShadingGroup = ShadingGroup(
    boundsMin: seq<u32>,
    length: u32,          // indices
    boundsMax: seq<u32>,
    textureIndex: u32,
    flags: u32)

  /** The 60-byte shading-group record stored at offset `q`: the bounds
      minimum (3 words), the index count, the bounds maximum (3 words), the
      texture and shader indices, four unknown words, the index offset and
      the flags. */
  function DecodeShadingGroup(data: seq<byte>, q: nat): ShadingGroup
    requires q + 60 <= |data|
  {
    ShadingGroup(
      [U32At(data, q), U32At(data, q + 4), U32At(data, q + 8)],
      U32At(data, q + 12),
      [U32At(data, q + 16), U32At(data, q + 20), U32At(data, q + 24)],
      U32At(data, q + 28),
      U32At(data, q + 56))
  }

  /** The `j`-th record of a shading-group chunk whose payload starts at `p`. */
  function GroupAt(data: seq<byte>, p: nat, j: nat): ShadingGroup
    requires p + 60 * (j + 1) <= |data|
  {
    DecodeShadingGroup(data, p + 60 * j)
  }

  // ---------------------------------------------------------------------------
  // Shading groups

  /** The material built from the `j`-th record: a third as many triangles as
      indices, vertex stream 0, and the texture hash at the record's index in
      the object's table (an index past the table throws); the detail keeps
      the bounds and the index's low byte. */
  function GroupMaterial(g: ShadingGroup, j: nat, hashes: seq<u32>): (r: Result<Material>)
    ensures r.Ok? <==> g.textureIndex < |hashes|
    ensures r.Err? ==> r.error == ArgumentOutOfRange
    ensures r.Ok? ==> && r.value.textureHash == hashes[g.textureIndex]
                      && r.value.flags == g.flags
                      && r.value.numIndices == g.length && r.value.numTris == g.length / 3
                      && r.value.numVerts == 0 && r.value.vertexStreamIndex == 0
                      && r.value.name == MaterialName(j) && r.value.detail.Underground2Detail?
  {
    if g.textureIndex >= |hashes| then Err(ArgumentOutOfRange)
    else Ok(Material(
      flags := g.flags,
      numTris := g.length / 3,
      numIndices := g.length,
      numVerts := 0,
      name := MaterialName(j),
      textureHash := hashes[g.textureIndex],
      vertexStreamIndex := 0,
      detail := Underground2Detail(g.boundsMin, g.boundsMax, g.textureIndex % 0x100)))
  }

  /** The material of the `j`-th record; reading a record the stream does
      not hold fails. */
  function GroupMaterialAt(data: seq<byte>, p: nat, j: nat, hashes: seq<u32>): Result<Material>
  {
    if p + 60 * (j + 1) > |data| then Err(EndOfStream)
    else GroupMaterial(GroupAt(data, p, j), j, hashes)
  }

  /** The materials of the first `n` records of a shading-group chunk. */
  function GroupMaterials(data: seq<byte>, p: nat, n: nat, hashes: seq<u32>): (r: Result<seq<Material>>)
    ensures r.Ok? ==> |r.value| == n
    decreases n
  {
    if n == 0 then Ok([])
    else
      var prev := GroupMaterials(data, p, n - 1, hashes);
      var m := GroupMaterialAt(data, p, n - 1, hashes);
      if prev.Err? then prev
      else if m.Err? then Err(m.error)
      else Ok(prev.value + [m.value])
  }

  /** The texture index of the `j`-th record. */
  function TextureIndexAt(data: seq<byte>, p: nat, j: nat): u32
    requires p + 60 * (j + 1) <= |data|
  {
    U32At(data, p + 60 * j + 28)
  }

  /** The `j`-th record is in the stream and its texture index is in the table. */
  predicate GroupValid(data: seq<byte>, p: nat, j: nat, hashes: seq<u32>) {
    p + 60 * (j + 1) <= |data| && TextureIndexAt(data, p, j) < |hashes|
  }

  predicate GroupsValid(data: seq<byte>, p: nat, n: nat, hashes: seq<u32>) {
    forall j :: 0 <= j < n ==> GroupValid(data, p, j, hashes)
  }

  lemma GroupMaterialAtSucceeds(data: seq<byte>, p: nat, j: nat, hashes: seq<u32>)
    ensures GroupMaterialAt(data, p, j, hashes).Ok? <==> GroupValid(data, p, j, hashes)
  {
  }

  /** A shading-group chunk succeeds exactly when all its records are in
      the stream and every texture index is in the table. */
  lemma {:induction false} GroupMaterialsSucceed(data: seq<byte>, p: nat, n: nat, hashes: seq<u32>)
    ensures GroupMaterials(data, p, n, hashes).Ok? <==> GroupsValid(data, p, n, hashes)
    decreases n
  {
    if n > 0 {
      GroupMaterialsSucceed(data, p, n - 1, hashes);
      GroupMaterialAtSucceeds(data, p, n - 1, hashes);
      assert GroupsValid(data, p, n, hashes)
             <==> GroupsValid(data, p, n - 1, hashes) && GroupValid(data, p, n - 1, hashes);
    }
  }

  /** The materials of a successful chunk are those of its records, in order. */
  lemma {:induction false} GroupMaterialsElements(data: seq<byte>, p: nat, n: nat, hashes: seq<u32>)
    requires GroupMaterials(data, p, n, hashes).Ok?
    ensures forall j :: 0 <= j < n ==>
              GroupMaterialAt(data, p, j, hashes) == Ok(GroupMaterials(data, p, n, hashes).value[j])
    decreases n
  {
    if n > 0 {
      GroupMaterialsElements(data, p, n - 1, hashes);
      var prev := GroupMaterials(data, p, n - 1, hashes).value;
      var last := GroupMaterialAt(data, p, n - 1, hashes).value;
      assert GroupMaterials(data, p, n, hashes).value == prev + [last];
    }
  }

  /** The materials of a successful chunk: one per record, the `j`-th named
      `MaterialName(j)`, with the texture hash its record's index selects, a
      third as many triangles as indices, and vertex stream 0. */
  lemma GroupMaterialsFacts(data: seq<byte>, p: nat, n: nat, hashes: seq<u32>)
    requires GroupMaterials(data, p, n, hashes).Ok?
    ensures n == 0 || p + 60 * n <= |data|
    ensures var ms := GroupMaterials(data, p, n, hashes).value;
            forall j :: 0 <= j < n ==>
              && ms[j].name == MaterialName(j)
              && TextureIndexAt(data, p, j) < |hashes|
              && ms[j].textureHash == hashes[TextureIndexAt(data, p, j)]
              && ms[j].flags == GroupAt(data, p, j).flags
              && ms[j].numIndices == GroupAt(data, p, j).length
              && ms[j].numTris == ms[j].numIndices / 3
              && ms[j].vertexStreamIndex == 0
              && ms[j].detail.Underground2Detail?
  {
    GroupMaterialsSucceed(data, p, n, hashes);
    GroupMaterialsElements(data, p, n, hashes);
    if n > 0 {
      assert GroupValid(data, p, n - 1, hashes);
    }
  }

  lemma GroupMaterialsStep(data: seq<byte>, p: nat, n: nat, hashes: seq<u32>, ms: seq<Material>, m: Material)
    requires GroupMaterials(data, p, n, hashes) == Ok(ms)
    requires GroupMaterialAt(data, p, n, hashes) == Ok(m)
    ensures GroupMaterials(data, p, n + 1, hashes) == Ok(ms + [m])
  {
  }

  /** Once a prefix of the records fails, the whole chunk fails with that error. */
  lemma {:induction false} GroupMaterialsErrorPersists(data: seq<byte>, p: nat, n: nat, m: nat, hashes: seq<u32>)
    requires n <= m && GroupMaterials(data, p, n, hashes).Err?
    ensures GroupMaterials(data, p, m, hashes) == GroupMaterials(data, p, n, hashes)
    decreases m
  {
    if n < m {
      GroupMaterialsErrorPersists(data, p, n, m - 1, hashes);
    }
  }

  /** One shading-group record, the `j`-th of its chunk, and its material. */
  method ReadShadingGroup(br: Reader, ghost p: nat, j: nat, hashes: seq<u32>) returns (r: Result<Material>)
    requires br.pos == p + 60 * j
    modifies br
    ensures r == GroupMaterialAt(br.data, p, j, hashes)
    ensures r.Ok? ==> br.pos == old(br.pos) + 60
  {
    var rec :- br.ReadStruct(60);
    assert DecodeShadingGroup(rec, 0) == GroupAt(br.data, p, j);
    r := GroupMaterial(DecodeShadingGroup(rec, 0), j, hashes);
  }

  /** The records of a shading-group chunk, read in order into their materials. */
  method ReadGroupMaterials(br: Reader, numMats: nat, hashes: seq<u32>) returns (r: Result<seq<Material>>)
    modifies br
    ensures r == GroupMaterials(br.data, old(br.pos), numMats, hashes)
  {
    ghost var p := br.pos;
    var added: seq<Material> := [];
    for j := 0 to numMats
      invariant br.pos == p + 60 * j
      invariant GroupMaterials(br.data, p, j, hashes) == Ok(added)
    {
      var m := ReadShadingGroup(br, p, j, hashes);
      if m.Err? {
        GroupMaterialsErrorPersists(br.data, p, j + 1, numMats, hashes);
        return Err(m.error);
      }
      GroupMaterialsStep(br.data, p, j, hashes, added, m.value);
      added := added + [m.value];
    }
    r := Ok(added);
  }

  // ---------------------------------------------------------------------------
  // The reader

  /** The object invariant the Underground 2 reader keeps: every material's
      texture hash is in the table, it has a third as many triangles as
      indices, uses vertex stream 0 and carries Underground 2 details. */
  ghost predicate WellFormed(o: SolidObject) {
    && TexturesResolve(o)
    && forall m :: m in o.materials ==>
         m.numTris == m.numIndices / 3 && m.vertexStreamIndex == 0 && m.detail.Underground2Detail?
  }

  /** A successful shading-group chunk keeps the object well formed. */
  lemma AppendGroupsKeepsWellFormed(data: seq<byte>, p: nat, n: nat, o: SolidObject)
    requires GroupMaterials(data, p, n, o.textureHashes).Ok?
    ensures WellFormed(o) ==>
              WellFormed(o.(materials := o.materials + GroupMaterials(data, p, n, o.textureHashes).value))
  {
    var ms := GroupMaterials(data, p, n, o.textureHashes).value;
    GroupMaterialsFacts(data, p, n, o.textureHashes);
    GroupMaterialsSucceed(data, p, n, o.textureHashes);
    var r := o.(materials := o.materials + ms);
    if WellFormed(o) {
      forall m | m in r.materials
        ensures m.textureHash in r.textureHashes
        ensures m.numTris == m.numIndices / 3 && m.vertexStreamIndex == 0 && m.detail.Underground2Detail?
      {
        if m !in o.materials {
          var i :| 0 <= i < |ms| && ms[i] == m;
          assert GroupValid(data, p, i, o.textureHashes);
        }
      }
    }
  }

  /** The shading-group chunk: its size must be a whole number of records;
      each record becomes a material of the object. */
  method ReadShadingGroups(br: Reader, usable: u32, o: SolidObject) returns (r: Result<SolidObject>)
    modifies br
    ensures usable % 60 != 0 ==> r == Err(StructuralCorruption)
    ensures usable % 60 == 0 ==>
              var ms := GroupMaterials(br.data, old(br.pos), usable / 60, o.textureHashes);
              (ms.Err? ==> r == Err(ms.error)) && (ms.Ok? ==> r == Ok(o.(materials := o.materials + ms.value)))
    ensures Yields(r, GroupsEffect(br.data, old(br.pos), usable, o))
    ensures r.Ok? && WellFormed(o) ==> WellFormed(r.value)
  {
    if usable % 60 != 0 {
      return Err(StructuralCorruption);
    }
    ghost var p := br.pos;
    var added :- ReadGroupMaterials(br, usable / 60, o.textureHashes);
    AppendGroupsKeepsWellFormed(br.data, p, usable / 60, o);
    r := Ok(o.(materials := o.materials + added));
  }

  /** The vertex-buffer chunk: an empty payload gives an empty buffer without
      reading; otherwise words are read into a `usable >> 2`-entry array
      while the cursor is before the chunk end. */
  function VertexBufferOf(data: seq<byte>, s: nat, e: int, usable: u32): Result<seq<u32>>
  {
    if usable == 0 then Ok([]) else VertexBufferAt(data, s, e, usable / 4)
  }

  /** Unlike the unguarded fill, a payload that was all padding leaves an
      empty buffer rather than a store past the array end. */
  lemma VertexBufferAfterAllPaddingIsEmpty(data: seq<byte>, e: nat)
    requires 4 <= e <= |data|
    ensures VertexBufferOf(data, e - 4, e, 0) == Ok([])
    ensures VertexBufferAt(data, e - 4, e, 0).Err?
  {
    VertexBufferAfterAllPadding(data, e);
  }

  /** Appending hashes keeps the object well formed. */
  lemma HashesAppendedKeepsWellFormed(o: SolidObject, hashes: seq<u32>)
    ensures WellFormed(o) ==> WellFormed(o.(textureHashes := o.textureHashes + hashes))
  {
  }

  /** Renaming a material keeps the object well formed. */
  lemma RenamedKeepsWellFormed(o: SolidObject, i: nat, name: MaterialLabel)
    requires i < |o.materials|
    ensures WellFormed(o) ==> WellFormed(o.(materials := o.materials[i := o.materials[i].(name := name)]))
  {
    RenamedMaterials(o.materials, i, name);
  }

  // ---------------------------------------------------------------------------
  // Object and list assembly

  /** The object-header chunk: the header record and the fixed-width name,
      shortened when the stream ends first; the counts come from the header. */
  ghost function HeaderEffect(data: seq<byte>, p: nat, o: SolidObject): Option<SolidObject> {
    if p + ObjectHeaderSize > |data| then None
    else
      var h := DecodeObjectHeader(data[p..p + ObjectHeaderSize]);
      var q := p + ObjectHeaderSize;
      var e := if q + ObjectNameSize <= |data| then q + ObjectNameSize else |data|;
      Some(ApplyHeader(o, h, TrimNul(Latin1(data[q..e])), h.shaderCount, h.textureCount))
  }

  /** The mesh-descriptor chunk replaces the descriptor. */
  ghost function DescriptorEffect(data: seq<byte>, p: nat, o: SolidObject): Option<SolidObject> {
    if p + DescriptorSize > |data| then None
    else Some(o.(meshDescriptor := Underground2Descriptor(data[p..p + DescriptorSize])))
  }

  /** The shading-group chunk: whole 60-byte records, their materials appended. */
  ghost function GroupsEffect(data: seq<byte>, p: nat, usable: u32, o: SolidObject): Option<SolidObject> {
    if usable % 60 != 0 then None
    else
      var ms := GroupMaterials(data, p, usable / 60, o.textureHashes);
      if ms.Err? then None else Some(o.(materials := o.materials + ms.value))
  }

  /** The vertex-buffer chunk appends one buffer, empty for an empty payload. */
  ghost function VertexEffect(data: seq<byte>, p: nat, usable: u32, chunkEnd: int, o: SolidObject): Option<SolidObject> {
    var vb := VertexBufferOf(data, p, chunkEnd, usable);
    if vb.Err? then None else Some(o.(vertexBuffers := o.vertexBuffers + [vb.value]))
  }

  /** What one leaf handler does, its payload at `p` with `usable` bytes
      after the padding: the object and the material-name cursor it leaves,
      or `None` when the handler throws. The header restarts the cursor, a
      non-empty name chunk advances it, and unknown ids change nothing. */
  ghost function LeafEffect(data: seq<byte>, p: nat, id: u32, usable: u32, chunkEnd: int,
                            o: SolidObject, named: nat): Option<(SolidObject, nat)>
  {
    if id == ObjectHeaderChunk then Lift(HeaderEffect(data, p, o), 0)
    else if id == TextureHashesChunk then Lift(TextureEffect(data, p, usable, false, o), named)
    else if id == MeshDescriptorChunk then Lift(DescriptorEffect(data, p, o), named)
    else if id == ShadingGroupChunk then Lift(GroupsEffect(data, p, usable, o), named)
    else if id == VertexBufferChunk then Lift(VertexEffect(data, p, usable, chunkEnd, o), named)
    else if id == FacesChunk then Lift(FacesEffect(data, p, o), named)
    else if id == MaterialNameChunk then Lift(NameEffect(data, p, usable, o, named), if usable == 0 then named else named + 1)
    else Some((o, named))
  }

  /** A leaf chunk of an object whose payload starts at `p`: the padding is
      skipped (the first word is read whatever the size), the size shrinks by
      the padding, and the handler runs from the first payload word. */
  ghost function LeafChunk(data: seq<byte>, p: nat, id: u32, size: u32, o: SolidObject, named: nat): Option<(SolidObject, nat)>
  {
    var scan := ScanPadding(data, p, p + size, false);
    if scan.None? then None
    else LeafEffect(data, scan.value.stop - 4, id, Wrap32(size - scan.value.padding), p + size, o, named)
  }

  /** The handlers' contracts, with the header resetting the name cursor
      and a successful name chunk advancing it when it is not empty, make up
      the leaf step. */
  lemma LeafEffectOfHandlers(data: seq<byte>, p: nat, id: u32, usable: u32, chunkEnd: int,
                             o: SolidObject, named: nat, r: Result<SolidObject>, named': nat)
    requires && (id == ObjectHeaderChunk ==> Yields(r, HeaderEffect(data, p, o)))
             && (id == TextureHashesChunk ==> Yields(r, TextureEffect(data, p, usable, false, o)))
             && (id == MeshDescriptorChunk ==> Yields(r, DescriptorEffect(data, p, o)))
             && (id == ShadingGroupChunk ==> Yields(r, GroupsEffect(data, p, usable, o)))
             && (id == VertexBufferChunk ==> Yields(r, VertexEffect(data, p, usable, chunkEnd, o)))
             && (id == FacesChunk ==> Yields(r, FacesEffect(data, p, o)))
             && (id == MaterialNameChunk ==> Yields(r, NameEffect(data, p, usable, o, named)))
    requires id == ObjectHeaderChunk ==> named' == 0
    requires id != ObjectHeaderChunk && id != MaterialNameChunk ==> named' == named
    requires r.Ok? && id == MaterialNameChunk ==> named' == if usable == 0 then named else named + 1
    requires (id !in {ObjectHeaderChunk, TextureHashesChunk, MeshDescriptorChunk, ShadingGroupChunk,
                      VertexBufferChunk, FacesChunk, MaterialNameChunk}) ==> r == Ok(o)
    ensures var e := LeafEffect(data, p, id, usable, chunkEnd, o, named);
            (r.Ok? <==> e.Some?) && (r.Ok? ==> e == Some((r.value, named')))
  {
  }

  /** A leaf whose padding scan counted `padding` bytes and left the cursor
      at `q` is the handler's effect from `q`. */
  lemma LeafChunkPadded(data: seq<byte>, p: nat, id: u32, size: u32, o: SolidObject, named: nat,
                        padding: nat, q: nat)
    requires ScanPadding(data, p, p + size, false) == Some(PadScan(padding, q + 4))
    ensures LeafChunk(data, p, id, size, o, named) == LeafEffect(data, q, id, Wrap32(size - padding), p + size, o, named)
  {
  }

  /** The object reader over the chunks in `[pos, end)`: each chunk is an
      `ObjectStep`, and the next chunk starts after the previous one's
      payload whatever was read. */
  ghost function ObjectWalk(data: seq<byte>, pos: nat, end: int, o: SolidObject, named: nat): Option<(SolidObject, nat)>
    decreases |data| - pos, 2
  {
    if pos >= end then Some((o, named))
    else if pos + 8 > |data| then None
    else
      var next := ObjectStep(data, pos, o, named);
      if next.None? then None
      else ObjectWalk(data, pos + 8 + U32At(data, pos + 4), end, next.value.0, next.value.1)
  }

  /** One chunk of an object, its header at `pos`. */
  ghost function ObjectStep(data: seq<byte>, pos: nat, o: SolidObject, named: nat): Option<(SolidObject, nat)>
    requires pos + 8 <= |data|
    decreases |data| - pos, 1
  {
    ChunkEffect(data, pos + 8, U32At(data, pos), U32At(data, pos + 4), o, named)
  }

  /** The payload of one chunk of an object, at `p`: a container is read into
      the same object, a leaf goes through `LeafChunk`. */
  ghost function ChunkEffect(data: seq<byte>, p: nat, id: u32, size: u32, o: SolidObject, named: nat): Option<(SolidObject, nat)>
    requires p <= |data|
    decreases |data| - p + 8, 0
  {
    if IsContainer(id) then ObjectWalk(data, p, p + size, o, named)
    else LeafChunk(data, p, id, size, o, named)
  }

  /** A container chunk of an object is the walk over its payload. */
  lemma ObjectContainerStep(data: seq<byte>, pos: nat, p: nat, size: u32, o: SolidObject, named: nat)
    requires p == pos + 8 <= |data| && size == U32At(data, pos + 4) && IsContainer(U32At(data, pos))
    ensures ObjectStep(data, pos, o, named) == ObjectWalk(data, p, p + size, o, named)
  {
  }

  /** A leaf chunk of an object is its `LeafChunk`. */
  lemma ObjectLeafStep(data: seq<byte>, pos: nat, p: nat, id: u32, size: u32, o: SolidObject, named: nat)
    requires p == pos + 8 <= |data| && id == U32At(data, pos) && size == U32At(data, pos + 4)
    requires !IsContainer(id)
    ensures ObjectStep(data, pos, o, named) == LeafChunk(data, p, id, size, o, named)
  {
  }

  /** The walk over `[pos, end)` after its first chunk: when that chunk's
      step fails the walk fails, and otherwise the walk goes on from the
      chunk's end with what the step produced. */
  lemma ObjectWalkAdvance(data: seq<byte>, pos: nat, end: int, o: SolidObject, named: nat,
                          next: nat, r: Result<SolidObject>, named': nat)
    requires pos < end && pos + 8 <= |data| && next == pos + 8 + U32At(data, pos + 4)
    requires var w := ObjectStep(data, pos, o, named);
             (r.Ok? <==> w.Some?) && (r.Ok? ==> w == Some((r.value, named')))
    ensures r.Err? ==> ObjectWalk(data, pos, end, o, named).None?
    ensures r.Ok? ==> ObjectWalk(data, pos, end, o, named) == ObjectWalk(data, next, end, r.value, named')
  {
    var w := ObjectStep(data, pos, o, named);
    if r.Ok? {
      assert ObjectWalk(data, pos, end, o, named)
             == ObjectWalk(data, pos + 8 + U32At(data, pos + 4), end, w.value.0, w.value.1);
    } else {
      assert w.None?;
    }
  }

  /** A chunk of the outer walk that is not walked into, its payload at `p`:
      the list-info record sets the list's attributes, an object root is read
      from a fresh object over its whole size and appended post-processed,
      and any other chunk changes nothing. */
  ghost function ListEntry(data: seq<byte>, p: nat, id: u32, size: u32, list: SolidList, named: nat): Option<(SolidList, nat)>
  {
    if id == SolidListInfoChunk then
      if p + SolidListInfoSize > |data| then None
      else Some((ApplyListInfo(list, data[p..p + SolidListInfoSize]), named))
    else if id == ObjectRootChunk then
      var w := ObjectWalk(data, p, p + size, NewObject, named);
      if w.None? then None
      else Some((list.(objects := list.objects + [PostProcessing(w.value.0)]), w.value.1))
    else Some((list, named))
  }

  /** The outer walk over `[pos, end)`: containers other than an object root
      are walked into, every other chunk is a `ListEntry`, and no id ends
      the walk early. */
  ghost function ListWalk(data: seq<byte>, pos: nat, end: int, list: SolidList, named: nat): Option<(SolidList, nat)>
    decreases |data| - pos, 2
  {
    if pos >= end then Some((list, named))
    else if pos + 8 > |data| then None
    else
      var next := ListStep(data, pos, list, named);
      if next.None? then None
      else ListWalk(data, pos + 8 + U32At(data, pos + 4), end, next.value.0, next.value.1)
  }

  /** One chunk of the outer walk, its header at `pos`. */
  ghost function ListStep(data: seq<byte>, pos: nat, list: SolidList, named: nat): Option<(SolidList, nat)>
    requires pos + 8 <= |data|
    decreases |data| - pos, 1
  {
    ListChunk(data, pos + 8, U32At(data, pos), U32At(data, pos + 4), list, named)
  }

  /** The payload of one chunk of the outer walk, at `p`. */
  ghost function ListChunk(data: seq<byte>, p: nat, id: u32, size: u32, list: SolidList, named: nat): Option<(SolidList, nat)>
    requires p <= |data|
    decreases |data| - p + 8, 0
  {
    if IsContainer(id) && id != ObjectRootChunk then ListWalk(data, p, p + size, list, named)
    else ListEntry(data, p, id, size, list, named)
  }

  /** A container of the outer walk is the walk over its payload. */
  lemma ListContainerStep(data: seq<byte>, pos: nat, p: nat, size: u32, list: SolidList, named: nat)
    requires p == pos + 8 <= |data| && size == U32At(data, pos + 4)
    requires IsContainer(U32At(data, pos)) && U32At(data, pos) != ObjectRootChunk
    ensures ListStep(data, pos, list, named) == ListWalk(data, p, p + size, list, named)
  {
  }

  /** Any other chunk of the outer walk is its `ListEntry`. */
  lemma ListEntryStep(data: seq<byte>, pos: nat, p: nat, id: u32, size: u32, list: SolidList, named: nat)
    requires p == pos + 8 <= |data| && id == U32At(data, pos) && size == U32At(data, pos + 4)
    requires !(IsContainer(id) && id != ObjectRootChunk)
    ensures ListStep(data, pos, list, named) == ListEntry(data, p, id, size, list, named)
  {
  }

  class Underground2Solids {
    var solidList: SolidList
    var namedMaterials: nat

    constructor ()
      ensures solidList == NewSolidList && namedMaterials == 0
    {
      solidList := NewSolidList;
      namedMaterials := 0;
    }

    /** An object as this reader leaves it in the list. */
    ghost predicate Finished(o: SolidObject) {
      o.postProcessed && WellFormed(o)
    }

    ghost predicate ListFinished(l: SolidList) {
      forall o :: o in l.objects ==> Finished(o)
    }

    /** The list reader: a fresh list and material-name cursor, then the
        outer walk over the container's payload. */
    method ReadSolidList(br: Reader, containerSize: u32) returns (r: Result<SolidList>)
      modifies br, this`solidList, this`namedMaterials
      ensures var w := ListWalk(br.data, old(br.pos), old(br.pos) + containerSize, NewSolidList, 0);
              (r.Ok? <==> w.Some?) && (r.Ok? ==> w == Some((r.value, namedMaterials)))
      ensures r.Ok? ==> ChunkWalk(br.data, old(br.pos), old(br.pos) + containerSize, false) == Some(br.pos)
      ensures r.Ok? ==> r.value == solidList && ListFinished(solidList)
    {
      solidList := NewSolidList;
      namedMaterials := 0;
      var _ :- ReadChunks(br, containerSize);
      r := Ok(solidList);
    }

    /** The outer chunk walk, one `ReadOuterChunk` at a time; every chunk
        leaves the cursor at its end. */
    method ReadChunks(br: Reader, containerSize: nat) returns (r: Result<()>)
      modifies br, this`solidList, this`namedMaterials
      ensures var w := ListWalk(br.data, old(br.pos), old(br.pos) + containerSize, old(solidList), old(namedMaterials));
              (r.Ok? <==> w.Some?) && (r.Ok? ==> w == Some((solidList, namedMaterials)))
      ensures r.Ok? ==> ChunkWalk(br.data, old(br.pos), old(br.pos) + containerSize, false) == Some(br.pos)
      ensures r.Ok? ==> old(solidList.objects) <= solidList.objects
      ensures r.Ok? && ListFinished(old(solidList)) ==> ListFinished(solidList)
      decreases if br.pos <= |br.data| then |br.data| - br.pos else 0, 2
    {
      ghost var start := br.pos;
      var endPos := br.pos + containerSize;
      while br.pos < endPos
        invariant ChunkWalk(br.data, br.pos, endPos, false) == ChunkWalk(br.data, start, endPos, false)
        invariant ListWalk(br.data, br.pos, endPos, solidList, namedMaterials)
                  == ListWalk(br.data, start, endPos, old(solidList), old(namedMaterials))
        invariant old(solidList.objects) <= solidList.objects
        invariant ListFinished(old(solidList)) ==> ListFinished(solidList)
        decreases |br.data| - br.pos
      {
        var _ :- ReadOuterChunk(br, endPos);
      }
      r := Ok(());
    }

    /** One chunk of the outer walk that ends at `end`, header included:
        containers other than an object root are walked recursively, every
        other chunk goes to `ReadListChunk`; the cursor is left at the
        chunk's end. */
    method ReadOuterChunk(br: Reader, end: int) returns (r: Result<()>)
      requires br.pos < end
      modifies br, this`solidList, this`namedMaterials
      ensures r.Err? ==> ListWalk(br.data, old(br.pos), end, old(solidList), old(namedMaterials)).None?
      ensures r.Ok? ==> old(br.pos) < |br.data| && old(br.pos) < br.pos
      ensures r.Ok? ==> ListWalk(br.data, old(br.pos), end, old(solidList), old(namedMaterials))
                        == ListWalk(br.data, br.pos, end, solidList, namedMaterials)
      ensures r.Ok? ==> ChunkWalk(br.data, old(br.pos), end, false) == ChunkWalk(br.data, br.pos, end, false)
      ensures r.Ok? ==> old(solidList.objects) <= solidList.objects
      ensures r.Ok? && ListFinished(old(solidList)) ==> ListFinished(solidList)
      decreases if br.pos <= |br.data| then |br.data| - br.pos else 0, 1
    {
      ghost var here, list, named := br.pos, solidList, namedMaterials;
      var id :- br.ReadUInt32();
      var size :- br.ReadUInt32();
      var chunkEnd := br.pos + size;
      ChunkWalkStep(br.data, here, chunkEnd, end, false);
      if IsContainer(id) && id != ObjectRootChunk {
        ListContainerStep(br.data, here, br.pos, size, list, named);
        r := ReadChunks(br, size);
      } else {
        ListEntryStep(br.data, here, br.pos, id, size, list, named);
        r := ReadListChunk(br, id, size);
      }
      if r.Err? {
        return;
      }
      br.pos := chunkEnd;
    }

    /** A chunk of the outer walk that is not walked into: the list-info
        record sets the list's attributes, an object root adds one object read
        from a fresh one and post-processed, and any other chunk changes
        nothing. */
    method ReadListChunk(br: Reader, chunkId: u32, chunkSize: u32) returns (r: Result<()>)
      modifies br, this`solidList, this`namedMaterials
      ensures var e := ListEntry(br.data, old(br.pos), chunkId, chunkSize, old(solidList), old(namedMaterials));
              (r.Ok? <==> e.Some?) && (r.Ok? ==> e == Some((solidList, namedMaterials)))
      ensures r.Ok? ==> old(solidList.objects) <= solidList.objects
      ensures r.Ok? && ListFinished(old(solidList)) ==> ListFinished(solidList)
    {
      if chunkId == SolidListInfoChunk {
        var rec :- br.ReadStruct(SolidListInfoSize);
        solidList := ApplyListInfo(solidList, rec);
      } else if chunkId == ObjectRootChunk {
        var obj :- ReadObject(br, chunkSize, NewObject);
        solidList := solidList.(objects := solidList.objects + [PostProcessing(obj)]);
      }
      r := Ok(());
    }

    /** The object reader: walks the object's chunks one `ReadObjectChunk`
        at a time; every chunk leaves the cursor at its end. */
    method ReadObject(br: Reader, size: nat, obj: SolidObject) returns (r: Result<SolidObject>)
      modifies br, this`namedMaterials
      ensures r.Ok? <==> ObjectWalk(br.data, old(br.pos), old(br.pos) + size, obj, old(namedMaterials)).Some?
      ensures r.Ok? ==> ObjectWalk(br.data, old(br.pos), old(br.pos) + size, obj, old(namedMaterials))
                        == Some((r.value, namedMaterials))
      ensures r.Ok? ==> ChunkWalk(br.data, old(br.pos), old(br.pos) + size, false) == Some(br.pos)
      ensures r.Ok? ==> r.value.postProcessed == obj.postProcessed
      ensures r.Ok? && WellFormed(obj) ==> WellFormed(r.value)
      decreases if br.pos <= |br.data| then |br.data| - br.pos else 0, 2
    {
      var o := obj;
      ghost var start := br.pos;
      var endPos := br.pos + size;
      while br.pos < endPos
        invariant ChunkWalk(br.data, br.pos, endPos, false) == ChunkWalk(br.data, start, endPos, false)
        invariant ObjectWalk(br.data, br.pos, endPos, o, namedMaterials)
                  == ObjectWalk(br.data, start, endPos, obj, old(namedMaterials))
        invariant o.postProcessed == obj.postProcessed
        invariant WellFormed(obj) ==> WellFormed(o)
        decreases |br.data| - br.pos
      {
        o :- ReadObjectChunk(br, endPos, o);
      }
      r := Ok(o);
    }

    /** One chunk of an object that ends at `end`, header included: a
        container is read recursively into the same object; a leaf has its
        padding skipped (the first word is read whatever the chunk size) and
        goes to its handler; the cursor is left at the chunk's end. */
    method ReadObjectChunk(br: Reader, end: int, o: SolidObject) returns (r: Result<SolidObject>)
      requires br.pos < end
      modifies br, this`namedMaterials
      ensures r.Err? ==> ObjectWalk(br.data, old(br.pos), end, o, old(namedMaterials)).None?
      ensures r.Ok? ==> old(br.pos) < |br.data| && old(br.pos) < br.pos
      ensures r.Ok? ==> ObjectWalk(br.data, old(br.pos), end, o, old(namedMaterials))
                        == ObjectWalk(br.data, br.pos, end, r.value, namedMaterials)
      ensures r.Ok? ==> ChunkWalk(br.data, old(br.pos), end, false) == ChunkWalk(br.data, br.pos, end, false)
      ensures r.Ok? ==> r.value.postProcessed == o.postProcessed
      ensures r.Ok? && WellFormed(o) ==> WellFormed(r.value)
      decreases if br.pos <= |br.data| then |br.data| - br.pos else 0, 1
    {
      ghost var here, named := br.pos, namedMaterials;
      var id :- br.ReadUInt32();
      var size :- br.ReadUInt32();
      var chunkEnd := br.pos + size;
      ChunkWalkStep(br.data, here, chunkEnd, end, false);
      if IsContainer(id) {
        ObjectContainerStep(br.data, here, br.pos, size, o, named);
        r := ReadObject(br, size, o);
      } else {
        ObjectLeafStep(br.data, here, br.pos, id, size, o, named);
        r := ReadLeafChunk(br, id, size, o);
      }
      ObjectWalkAdvance(br.data, here, end, o, named, chunkEnd, r, namedMaterials);
      if r.Err? {
        return;
      }
      br.pos := chunkEnd;
    }

    /** A leaf of an object, its header just read: the padding is skipped
        (the first word is read whatever the chunk size), the size shrinks by
        the padding, and the payload goes to its handler. */
    method ReadLeafChunk(br: Reader, id: u32, size: u32, o: SolidObject) returns (r: Result<SolidObject>)
      requires 8 <= br.pos <= |br.data|
      modifies br, this`namedMaterials
      ensures var w := LeafChunk(br.data, old(br.pos), id, size, o, old(namedMaterials));
              (r.Ok? <==> w.Some?) && (r.Ok? ==> w == Some((r.value, namedMaterials)))
      ensures r.Ok? ==> r.value.postProcessed == o.postProcessed
      ensures r.Ok? && WellFormed(o) ==> WellFormed(r.value)
    {
      var chunkEnd := br.pos + size;
      ghost var named := namedMaterials;
      ghost var here := br.pos;
      var padding :- SkipPadding(br, chunkEnd, false);
      LeafChunkPadded(br.data, here, id, size, o, named, padding, br.pos);
      ghost var p := br.pos;
      r := ReadLeaf(br, id, Wrap32(size - padding), chunkEnd, o);
      LeafEffectOfHandlers(br.data, p, id, Wrap32(size - padding), chunkEnd, o, named, r, namedMaterials);
    }

    /** The object-header chunk: the header record, then the name as
        `ObjectNameSize` characters with the NUL padding trimmed from both
        ends (fewer when the stream ends first); the shader and texture
        counts come from the header, and the material-name cursor restarts. */
    method ReadHeaderLeaf(br: Reader, o: SolidObject) returns (r: Result<SolidObject>)
      modifies br, this`namedMaterials
      ensures namedMaterials == 0
      ensures old(br.pos) + ObjectHeaderSize > |br.data| ==> r == Err(EndOfStream)
      ensures old(br.pos) + ObjectHeaderSize <= |br.data| ==>
                var p := old(br.pos);
                var h := DecodeObjectHeader(br.data[p..p + ObjectHeaderSize]);
                var q := p + ObjectHeaderSize;
                var e := if q + ObjectNameSize <= |br.data| then q + ObjectNameSize else |br.data|;
                r == Ok(ApplyHeader(o, h, TrimNul(Latin1(br.data[q..e])), h.shaderCount, h.textureCount))
      ensures Yields(r, HeaderEffect(br.data, old(br.pos), o))
      ensures r.Ok? ==> r.value.postProcessed == o.postProcessed
      ensures r.Ok? && WellFormed(o) ==> WellFormed(r.value)
    {
      namedMaterials := 0;
      var rec :- br.ReadStruct(ObjectHeaderSize);
      ghost var q := br.pos;
      var read := br.ReadBytes(ObjectNameSize);
      var chars := read.value;
      assert chars == br.data[q..if q + ObjectNameSize <= |br.data| then q + ObjectNameSize else |br.data|];
      var h := DecodeObjectHeader(rec);
      r := Ok(ApplyHeader(o, h, TrimNul(Latin1(chars)), h.shaderCount, h.textureCount));
    }

    /** The material-name chunk: a non-empty one names the material at the
        cursor and moves the cursor on. */
    method ReadNameLeaf(br: Reader, usable: u32, o: SolidObject) returns (r: Result<SolidObject>)
      modifies br, this`namedMaterials
      ensures usable == 0 ==> r == Ok(o) && namedMaterials == old(namedMaterials)
      ensures usable > 0 && old(namedMaterials) >= |o.materials| ==> r == Err(ArgumentOutOfRange)
      ensures usable > 0 && old(namedMaterials) < |o.materials| ==>
                var s, i := CStringAt(br.data, old(br.pos)), old(namedMaterials);
                (s.None? ==> r == Err(EndOfStream))
                && (s.Some? ==> namedMaterials == i + 1
                                && r == Ok(o.(materials := o.materials[i := o.materials[i].(name := Given(Latin1(s.value)))])))
      ensures Yields(r, NameEffect(br.data, old(br.pos), usable, o, old(namedMaterials)))
      ensures r.Ok? ==> namedMaterials == if usable == 0 then old(namedMaterials) else old(namedMaterials) + 1
      ensures r.Ok? ==> r.value.postProcessed == o.postProcessed
      ensures r.Ok? && WellFormed(o) ==> WellFormed(r.value)
    {
      var ms, next :- ReadMaterialName(br, usable, o.materials, namedMaterials);
      if usable > 0 {
        RenamedKeepsWellFormed(o, namedMaterials, ms[namedMaterials].name);
      }
      namedMaterials := next;
      r := Ok(o.(materials := ms));
    }

    /** The texture-hash chunk: every first word is kept, zeros included. */
    method ReadTextureLeaf(br: Reader, usable: u32, o: SolidObject) returns (r: Result<SolidObject>)
      modifies br
      ensures r.Ok? <==> TextureTableFits(br.data, old(br.pos), usable / 8)
      ensures r.Ok? ==> r.value == o.(textureHashes := o.textureHashes + TextureWordsAt(br.data, old(br.pos), usable / 8))
      ensures Yields(r, TextureEffect(br.data, old(br.pos), usable, false, o))
      ensures r.Ok? && WellFormed(o) ==> WellFormed(r.value)
    {
      var hashes :- ReadTextureTable(br, usable, false);
      HashesAppendedKeepsWellFormed(o, hashes);
      r := Ok(o.(textureHashes := o.textureHashes + hashes));
    }

    /** The mesh-descriptor chunk: one 84-byte record. */
    method ReadDescriptorLeaf(br: Reader, o: SolidObject) returns (r: Result<SolidObject>)
      modifies br
      ensures old(br.pos) + DescriptorSize > |br.data| ==> r == Err(EndOfStream)
      ensures Yields(r, DescriptorEffect(br.data, old(br.pos), o))
      ensures r.Ok? && WellFormed(o) ==> WellFormed(r.value)
    {
      var rec :- br.ReadStruct(DescriptorSize);
      r := Ok(o.(meshDescriptor := Underground2Descriptor(rec)));
    }

    /** The vertex-buffer chunk: an empty payload gives an empty buffer
        without reading; otherwise one buffer of `usable / 4` words. */
    method ReadVertexLeaf(br: Reader, usable: u32, chunkEnd: int, o: SolidObject) returns (r: Result<SolidObject>)
      modifies br
      ensures var vb := VertexBufferOf(br.data, old(br.pos), chunkEnd, usable);
              vb.Err? ==> r == Err(vb.error)
      ensures Yields(r, VertexEffect(br.data, old(br.pos), usable, chunkEnd, o))
      ensures r.Ok? && WellFormed(o) ==> WellFormed(r.value)
    {
      var vb: seq<u32> := [];
      if usable > 0 {
        vb :- ReadVertexBuffer(br, usable, chunkEnd);
      }
      r := Ok(o.(vertexBuffers := o.vertexBuffers + [vb]));
    }

    /** The face chunk: the faces of all the materials' triangles. */
    method ReadFacesLeaf(br: Reader, o: SolidObject) returns (r: Result<SolidObject>)
      modifies br
      ensures Yields(r, FacesEffect(br.data, old(br.pos), o))
      ensures r.Ok? && WellFormed(o) ==> WellFormed(r.value)
    {
      var faces :- ReadFaces(br, o.materials);
      r := Ok(o.(faces := faces));
    }

    /** One leaf chunk of an object, dispatched on its id; unknown ids are
        skipped. The texture table keeps every hash, zeros included; the
        descriptor replaces the object's mesh descriptor. Each known id
        yields its handler's effect (so the leaf as a whole is the
        `LeafEffect`), and the error each handler reports is kept. */
    method ReadLeaf(br: Reader, id: u32, usable: u32, chunkEnd: int, o: SolidObject) returns (r: Result<SolidObject>)
      modifies br, this`namedMaterials
      ensures var p := old(br.pos);
              && (id == ObjectHeaderChunk ==> Yields(r, HeaderEffect(br.data, p, o)))
              && (id == TextureHashesChunk ==> Yields(r, TextureEffect(br.data, p, usable, false, o)))
              && (id == MeshDescriptorChunk ==> Yields(r, DescriptorEffect(br.data, p, o)))
              && (id == ShadingGroupChunk ==> Yields(r, GroupsEffect(br.data, p, usable, o)))
              && (id == VertexBufferChunk ==> Yields(r, VertexEffect(br.data, p, usable, chunkEnd, o)))
              && (id == FacesChunk ==> Yields(r, FacesEffect(br.data, p, o)))
              && (id == MaterialNameChunk ==> Yields(r, NameEffect(br.data, p, usable, o, old(namedMaterials))))
      ensures r.Ok? ==> r.value.postProcessed == o.postProcessed
      ensures r.Ok? && WellFormed(o) ==> WellFormed(r.value)
      ensures id == ObjectHeaderChunk ==> namedMaterials == 0
      ensures id != ObjectHeaderChunk && id != MaterialNameChunk ==> namedMaterials == old(namedMaterials)
      ensures r.Ok? && id == MaterialNameChunk ==>
                namedMaterials == if usable == 0 then old(namedMaterials) else old(namedMaterials) + 1
      ensures id == TextureHashesChunk ==>
                (r.Ok? <==> TextureTableFits(br.data, old(br.pos), usable / 8))
                && (r.Ok? ==> r.value == o.(textureHashes := o.textureHashes
                                              + TextureWordsAt(br.data, old(br.pos), usable / 8)))
      ensures id == MeshDescriptorChunk ==>
                var p := old(br.pos);
                (p + DescriptorSize > |br.data| ==> r == Err(EndOfStream))
                && (p + DescriptorSize <= |br.data| ==>
                      r == Ok(o.(meshDescriptor := Underground2Descriptor(br.data[p..p + DescriptorSize]))))
      ensures id == VertexBufferChunk ==>
                var vb := VertexBufferOf(br.data, old(br.pos), chunkEnd, usable);
                (vb.Err? ==> r == Err(vb.error))
                && (vb.Ok? ==> r == Ok(o.(vertexBuffers := o.vertexBuffers + [vb.value])))
      ensures id == ObjectHeaderChunk ==>
                var p := old(br.pos);
                (p + ObjectHeaderSize > |br.data| ==> r == Err(EndOfStream))
                && (p + ObjectHeaderSize <= |br.data| ==>
                      var h := DecodeObjectHeader(br.data[p..p + ObjectHeaderSize]);
                      var q := p + ObjectHeaderSize;
                      var e := if q + ObjectNameSize <= |br.data| then q + ObjectNameSize else |br.data|;
                      r == Ok(ApplyHeader(o, h, TrimNul(Latin1(br.data[q..e])), h.shaderCount, h.textureCount)))
      ensures id == ShadingGroupChunk ==>
                (usable % 60 != 0 ==> r == Err(StructuralCorruption))
                && (usable % 60 == 0 ==>
                      var ms := GroupMaterials(br.data, old(br.pos), usable / 60, o.textureHashes);
                      (ms.Err? ==> r == Err(ms.error)) && (ms.Ok? ==> r == Ok(o.(materials := o.materials + ms.value))))
      ensures id == FacesChunk ==>
                var total := SumTris(o.materials);
                (r.Ok? <==> total < 0x8000_0000 && (total == 0 || old(br.pos) + 6 * total <= |br.data|))
                && (r.Ok? ==> r.value == o.(faces := FacesAt(br.data, old(br.pos), total)))
      ensures id == MaterialNameChunk ==>
                && (usable == 0 ==> r == Ok(o) && namedMaterials == old(namedMaterials))
                && (usable > 0 && old(namedMaterials) >= |o.materials| ==> r == Err(ArgumentOutOfRange))
                && (usable > 0 && old(namedMaterials) < |o.materials| ==>
                      var s, i := CStringAt(br.data, old(br.pos)), old(namedMaterials);
                      (s.None? ==> r == Err(EndOfStream))
                      && (s.Some? ==> namedMaterials == i + 1
                                      && r == Ok(o.(materials := o.materials[i := o.materials[i].(name := Given(Latin1(s.value)))]))))
      ensures (id !in {ObjectHeaderChunk, TextureHashesChunk, MeshDescriptorChunk, ShadingGroupChunk,
                       VertexBufferChunk, FacesChunk, MaterialNameChunk}) ==> r == Ok(o)
    {
      if id == ObjectHeaderChunk {
        r := ReadHeaderLeaf(br, o);
      } else if id == TextureHashesChunk {
        r := ReadTextureLeaf(br, usable, o);
      } else if id == MeshDescriptorChunk {
        r := ReadDescriptorLeaf(br, o);
      } else if id == ShadingGroupChunk {
        r := ReadShadingGroups(br, usable, o);
      } else if id == VertexBufferChunk {
        r := ReadVertexLeaf(br, usable, chunkEnd, o);
      } else if id == FacesChunk {
        r := ReadFacesLeaf(br, o);
      } else if id == MaterialNameChunk {
        r := ReadNameLeaf(br, usable, o);
      } else {
        r := Ok(o);
      }
    }

    /** The write direction is not implemented. */
    method WriteSolidList(list: SolidList) returns (r: Result<()>)
      ensures r == Err(NotImplemented)
    {
      r := Err(NotImplemented);
    }
  }
}
