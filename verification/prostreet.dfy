/** The Need for Speed: ProStreet solid-list reader, with its test-track
    variant: the outer chunk walk (terminator, list info, compressed object
    table, object roots), the object reader and the title's record layouts. */
module ProStreet {
  import opened Results
  import opened Bytes
  import opened Stream
  import opened Chunks
  import opened Geometry
  import opened LeafHandlers

  const ObjectHeaderSize := 184
  const DescriptorSize := 56
  const OffsetRecordSize := 0x18
  const BlockHeadSize := 24

  // ---------------------------------------------------------------------------
  // Records

  /** The shading-group fields the reader uses. */
  datatype ShadingGroup = ShadingGroup(
    textureIndex: byte,    // TextureShaderUsage[4]
    unknownId: u32,
    flags: u32,
    indicesUsed: u32,
    vertexBufferUsage: u32,
    vertexSize: byte)      // Flags2[2], the divisor of VertexBufferUsage

  /** The 128-byte shading-group record stored at offset `q` (the same size
      in both variants); the test-track record has a 16-bit `IndicesUsed`,
      which moves the later fields 4 bytes earlier. */
  function DecodeShadingGroup(data: seq<byte>, q: nat, testTrack: bool): (g: ShadingGroup)
    requires q + 128 <= |data|
    ensures testTrack ==> g.indicesUsed < 0x1_0000
  {
    if testTrack then
      ShadingGroup(data[q + 28], U32At(data, q + 36), U32At(data, q + 40), U16At(data, q + 44),
                   U32At(data, q + 72), data[q + 78])
    else
      ShadingGroup(data[q + 28], U32At(data, q + 36), U32At(data, q + 40), U32At(data, q + 44),
                   U32At(data, q + 76), data[q + 82])
  }

  /** The record's vertex count: the vertex-buffer usage divided by the
      vertex size. */
  function StreamVertexCount(g: ShadingGroup): u32
    requires g.vertexSize != 0
  {
    g.vertexBufferUsage / g.vertexSize
  }

  /** The material built from the `j`-th record of a shading-group chunk: the
      vertex count divides by `Flags2[2]` (a zero divisor throws) and the
      texture hash is looked up in the object's table (a bad index throws). */
  function GroupMaterial(g: ShadingGroup, j: nat, hashes: seq<u32>): (r: Result<Material>)
    ensures g.vertexSize == 0 ==> r == Err(DivideByZero)
    ensures g.vertexSize != 0 && g.textureIndex >= |hashes| ==> r == Err(ArgumentOutOfRange)
    ensures r.Ok? ==> && g.textureIndex < |hashes| && r.value.textureHash == hashes[g.textureIndex]
                      && r.value.flags == g.flags
                      && r.value.numIndices == g.indicesUsed
                      && r.value.numTris == r.value.numIndices / 3
                      && r.value.numVerts == StreamVertexCount(g)
                      && r.value.vertexStreamIndex == j
  {
    if g.vertexSize == 0 then Err(DivideByZero)
    else if g.textureIndex >= |hashes| then Err(ArgumentOutOfRange)
    else Ok(Material(
      flags := g.flags,
      numTris := g.indicesUsed / 3,
      numIndices := g.indicesUsed,
      numVerts := StreamVertexCount(g),
      name := MaterialName(j),
      textureHash := hashes[g.textureIndex],
      vertexStreamIndex := j,
      detail := ProStreetDetail(g.unknownId)))
  }

  /** The record of the `j`-th shading group of a chunk whose payload starts at `p`. */
  function GroupAt(data: seq<byte>, p: nat, j: nat, testTrack: bool): ShadingGroup
    requires p + 128 * (j + 1) <= |data|
  {
    DecodeShadingGroup(data, p + 128 * j, testTrack)
  }

  /** The material of the `j`-th record of a chunk whose payload starts at
      `p`; reading a record the stream does not hold fails. */
  function GroupMaterialAt(data: seq<byte>, p: nat, j: nat, testTrack: bool, hashes: seq<u32>): Result<Material>
  {
    if p + 128 * (j + 1) > |data| then Err(EndOfStream)
    else GroupMaterial(GroupAt(data, p, j, testTrack), j, hashes)
  }

  /** The materials of the first `n` shading groups of a chunk whose payload
      starts at `p`, in record order; the texture table does not change
      while the chunk is read. */
  function GroupMaterials(data: seq<byte>, p: nat, n: nat, testTrack: bool, hashes: seq<u32>): Result<seq<Material>>
    decreases n
  {
    if n == 0 then Ok([])
    else
      var prev := GroupMaterials(data, p, n - 1, testTrack, hashes);
      var m := GroupMaterialAt(data, p, n - 1, testTrack, hashes);
      if prev.Err? then prev
      else if m.Err? then Err(m.error)
      else Ok(prev.value + [m.value])
  }

  /** The materials of a successful shading-group chunk: one per record, the
      `j`-th named `MaterialName(j)` and using vertex stream `j`, each with a
      texture hash from the table and a third as many triangles as indices. */
  lemma {:induction false} GroupMaterialsFacts(data: seq<byte>, p: nat, n: nat, testTrack: bool, hashes: seq<u32>)
    requires GroupMaterials(data, p, n, testTrack, hashes).Ok?
    ensures var ms := GroupMaterials(data, p, n, testTrack, hashes).value;
            && |ms| == n
            && forall j :: 0 <= j < n ==>
                 && ms[j].name == MaterialName(j)
                 && ms[j].vertexStreamIndex == j
                 && p + 128 * (j + 1) <= |data|
                 && GroupAt(data, p, j, testTrack).vertexSize != 0
                 && GroupAt(data, p, j, testTrack).textureIndex < |hashes|
                 && ms[j].textureHash == hashes[GroupAt(data, p, j, testTrack).textureIndex]
                 && ms[j].flags == GroupAt(data, p, j, testTrack).flags
                 && ms[j].numIndices == GroupAt(data, p, j, testTrack).indicesUsed
                 && ms[j].numTris == ms[j].numIndices / 3
                 && ms[j].numVerts == StreamVertexCount(GroupAt(data, p, j, testTrack))
                 && ms[j].detail.ProStreetDetail?
    decreases n
  {
    if n > 0 {
      GroupMaterialsFacts(data, p, n - 1, testTrack, hashes);
    }
  }

  /** The `j`-th record is in the stream and passes both checks. */
  predicate GroupValid(data: seq<byte>, p: nat, j: nat, testTrack: bool, hashes: seq<u32>) {
    && p + 128 * (j + 1) <= |data|
    && GroupAt(data, p, j, testTrack).vertexSize != 0
    && GroupAt(data, p, j, testTrack).textureIndex < |hashes|
  }

  lemma GroupMaterialAtSucceeds(data: seq<byte>, p: nat, j: nat, testTrack: bool, hashes: seq<u32>)
    ensures GroupMaterialAt(data, p, j, testTrack, hashes).Ok? <==> GroupValid(data, p, j, testTrack, hashes)
  {
  }

  /** Every record of the chunk is in the stream and passes both checks. */
  predicate GroupsValid(data: seq<byte>, p: nat, n: nat, testTrack: bool, hashes: seq<u32>) {
    forall j :: 0 <= j < n ==> GroupValid(data, p, j, testTrack, hashes)
  }

  /** A shading-group chunk succeeds exactly when all its records are in the
      stream, none has a zero vertex size and every texture index is in the table. */
  lemma {:induction false} GroupMaterialsSucceed(data: seq<byte>, p: nat, n: nat, testTrack: bool, hashes: seq<u32>)
    ensures GroupMaterials(data, p, n, testTrack, hashes).Ok? <==> GroupsValid(data, p, n, testTrack, hashes)
    decreases n
  {
    if n > 0 {
      GroupMaterialsSucceed(data, p, n - 1, testTrack, hashes);
      GroupMaterialAtSucceeds(data, p, n - 1, testTrack, hashes);
      assert GroupMaterials(data, p, n, testTrack, hashes).Ok?
             <==> GroupMaterials(data, p, n - 1, testTrack, hashes).Ok? && GroupMaterialAt(data, p, n - 1, testTrack, hashes).Ok?;
      assert GroupsValid(data, p, n, testTrack, hashes)
             <==> GroupsValid(data, p, n - 1, testTrack, hashes) && GroupValid(data, p, n - 1, testTrack, hashes);
    }
  }

  /** Once a prefix of the records fails, the whole chunk fails with that error. */
  lemma {:induction false} GroupMaterialsErrorPersists(data: seq<byte>, p: nat, n: nat, m: nat, testTrack: bool, hashes: seq<u32>)
    requires n <= m && GroupMaterials(data, p, n, testTrack, hashes).Err?
    ensures GroupMaterials(data, p, m, testTrack, hashes) == GroupMaterials(data, p, n, testTrack, hashes)
    decreases m
  {
    if n < m {
      GroupMaterialsErrorPersists(data, p, n, m - 1, testTrack, hashes);
    }
  }

  /** A successful shading-group chunk keeps the object well formed and its
      settings unchanged. */
  lemma ApplyGroupsKeepsWellFormed(data: seq<byte>, p: nat, n: nat, testTrack: bool, o: SolidObject)
    requires GroupMaterials(data, p, n, testTrack, o.textureHashes).Ok?
    ensures LeafStep(o, ApplyGroups(o, GroupMaterials(data, p, n, testTrack, o.textureHashes).value))
  {
    var ms := GroupMaterials(data, p, n, testTrack, o.textureHashes).value;
    GroupMaterialsFacts(data, p, n, testTrack, o.textureHashes);
    var r := ApplyGroups(o, ms);
    if WellFormed(o) {
      forall m | m in r.materials
        ensures m.textureHash in r.textureHashes
        ensures m.numTris == m.numIndices / 3 && m.detail.ProStreetDetail?
      {
        if m !in o.materials {
          var i :| 0 <= i < |ms| && ms[i] == m;
        }
      }
    }
  }

  /** One shading-group record, the `j`-th of its chunk, and its material. */
  method ReadShadingGroup(br: Reader, ghost p: nat, j: nat, testTrack: bool, hashes: seq<u32>) returns (r: Result<Material>)
    requires br.pos == p + 128 * j
    modifies br
    ensures r == GroupMaterialAt(br.data, p, j, testTrack, hashes)
    ensures r.Ok? ==> br.pos == old(br.pos) + 128
  {
    var rec :- br.ReadStruct(128);
    assert DecodeShadingGroup(rec, 0, testTrack) == GroupAt(br.data, p, j, testTrack);
    r := GroupMaterial(DecodeShadingGroup(rec, 0, testTrack), j, hashes);
  }

  /** The shading-group chunk: its size must be a whole number of records;
      each record becomes a material of the object. */
  method ReadShadingGroups(br: Reader, usable: u32, testTrack: bool, o: SolidObject) returns (r: Result<SolidObject>)
    modifies br
    ensures usable % 128 != 0 ==> r == Err(StructuralCorruption)
    ensures usable % 128 == 0 ==>
              var ms := GroupMaterials(br.data, old(br.pos), usable / 128, testTrack, o.textureHashes);
              (ms.Err? ==> r == Err(ms.error)) && (ms.Ok? ==> r == Ok(ApplyGroups(o, ms.value)))
    ensures Yields(r, GroupsEffect(br.data, old(br.pos), usable, testTrack, o))
    ensures r.Ok? ==> LeafStep(o, r.value)
  {
    if usable % 128 != 0 {
      return Err(StructuralCorruption);
    }
    ghost var p := br.pos;
    var added, verts :- ReadGroupMaterials(br, usable / 128, testTrack, o.textureHashes);
    ApplyGroupsKeepsWellFormed(br.data, p, usable / 128, testTrack, o);
    r := Ok(o.(materials := o.materials + added,
               meshDescriptor := o.meshDescriptor.(numVerts := o.meshDescriptor.numVerts + verts)));
  }

  /** The records of a shading-group chunk, read in order into their
      materials, with the running vertex total. */
  method ReadGroupMaterials(br: Reader, numMats: nat, testTrack: bool, hashes: seq<u32>)
    returns (r: Result<seq<Material>>, verts: nat)
    modifies br
    ensures r == GroupMaterials(br.data, old(br.pos), numMats, testTrack, hashes)
    ensures r.Ok? ==> verts == SumVerts(r.value)
  {
    ghost var p := br.pos;
    var added: seq<Material> := [];
    verts := 0;
    for j := 0 to numMats
      invariant br.pos == p + 128 * j
      invariant GroupMaterials(br.data, p, j, testTrack, hashes) == Ok(added)
      invariant verts == SumVerts(added)
    {
      var m := ReadShadingGroup(br, p, j, testTrack, hashes);
      if m.Err? {
        GroupMaterialsErrorPersists(br.data, p, j + 1, numMats, testTrack, hashes);
        return Err(m.error), verts;
      }
      assert GroupMaterials(br.data, p, j + 1, testTrack, hashes) == Ok(added + [m.value]);
      assert (added + [m.value])[..|added|] == added;
      added := added + [m.value];
      verts := verts + m.value.numVerts;
    }
    r := Ok(added);
  }

  // ---------------------------------------------------------------------------
  // Compressed objects

  /** The fields of a compressed block's 24-byte header the reader uses. */
  datatype BlockHead = BlockHead(totalBlockSize: u32, outSize: u32)

  /** The block codec, which is not part of this model: how a block header is
      laid out and how a block is decompressed into `outSize` bytes. */
  datatype Codec = Codec(
    blockHead: seq<byte> -> BlockHead,
    decompress: (seq<byte>, nat) -> Option<seq<byte>>)

  /** The decompressed bytes as they land in a fresh `outSize`-byte buffer. */
  function FitBlock(out: seq<byte>, outSize: nat): (r: seq<byte>)
    ensures |r| == outSize
  {
    if |out| >= outSize then out[..outSize] else out + seq(outSize - |out|, _ => 0)
  }

  /** The blocks of one compressed object, read from `pos` while the running
      total of block sizes (a wrapping 32-bit counter) is below the compressed
      size: each block is a header, `TotalBlockSize - 24` input bytes (a size
      below 24 or beyond the signed range is rejected as a negative count) and
      its decompressed output. */
  function BlocksFrom(codec: Codec, data: seq<byte>, pos: nat, bytesRead: u32, target: u32): Result<seq<seq<byte>>>
    decreases |data| - pos
  {
    if bytesRead >= target then Ok([])
    else if pos + BlockHeadSize > |data| then Err(EndOfStream)
    else
      var head := codec.blockHead(data[pos..pos + BlockHeadSize]);
      var count := ToInt32(Wrap32(head.totalBlockSize - BlockHeadSize));
      if count < 0 then Err(ArgumentOutOfRange)
      else
        var q := pos + BlockHeadSize;
        var e := if q + count <= |data| then q + count else |data|;
        var out := codec.decompress(data[q..e], head.outSize);
        if out.None? then Err(DecompressionFailed)
        else
          var rest :- BlocksFrom(codec, data, e, Wrap32(bytesRead + head.totalBlockSize), target);
          Ok([FitBlock(out.value, head.outSize)] + rest)
  }

  /** A positive compressed size yields at least one block, so the branch that
      decodes nothing is taken only for a compressed size of 0. */
  lemma BlocksFromNonEmpty(codec: Codec, data: seq<byte>, pos: nat, target: u32)
    requires target > 0 && BlocksFrom(codec, data, pos, 0, target).Ok?
    ensures |BlocksFrom(codec, data, pos, 0, target).value| >= 1
  {
  }

  function PrependBlocks(blocks: seq<seq<byte>>, rest: Result<seq<seq<byte>>>): Result<seq<seq<byte>>> {
    if rest.Ok? then Ok(blocks + rest.value) else rest
  }

  lemma PrependBlocksAssoc(a: seq<seq<byte>>, b: seq<seq<byte>>, rest: Result<seq<seq<byte>>>)
    ensures PrependBlocks(a, PrependBlocks(b, rest)) == PrependBlocks(a + b, rest)
  {
    if rest.Ok? {
      assert a + (b + rest.value) == a + b + rest.value;
    }
  }

  /** One block of a compressed object: its header, its input bytes and
      their decompressed output. The blocks from the cursor are this block,
      then the blocks from where its input ends, with the byte count advanced;
      a failure is the failure of the blocks from the cursor. */
  method ReadBlock(br: Reader, codec: Codec, bytesRead: u32, target: u32) returns (r: Result<(seq<byte>, u32)>)
    requires bytesRead < target
    modifies br
    ensures r.Err? ==> BlocksFrom(codec, br.data, old(br.pos), bytesRead, target) == Err(r.error)
    ensures r.Ok? ==> old(br.pos) < br.pos <= |br.data|
                      && BlocksFrom(codec, br.data, old(br.pos), bytesRead, target)
                         == PrependBlocks([r.value.0], BlocksFrom(codec, br.data, br.pos, r.value.1, target))
  {
    var headRec :- br.ReadStruct(BlockHeadSize);
    var head := codec.blockHead(headRec);
    var compressedData :- br.ReadBytes(ToInt32(Wrap32(head.totalBlockSize - BlockHeadSize)));
    var outData := codec.decompress(compressedData, head.outSize);
    if outData.None? {
      return Err(DecompressionFailed);
    }
    r := Ok((FitBlock(outData.value, head.outSize), Wrap32(bytesRead + head.totalBlockSize)));
  }

  /** The block loop: blocks are read while the wrapping byte count is below
      the compressed size. */
  method ReadBlocks(br: Reader, codec: Codec, compressedSize: u32) returns (r: Result<seq<seq<byte>>>)
    modifies br
    ensures r == BlocksFrom(codec, br.data, old(br.pos), 0, compressedSize)
  {
    ghost var start := br.pos;
    ghost var whole := BlocksFrom(codec, br.data, start, 0, compressedSize);
    if whole.Ok? {
      assert [] + whole.value == whole.value;
    }
    var bytesRead: u32 := 0;
    var blocks: seq<seq<byte>> := [];
    while bytesRead < compressedSize
      invariant BlocksFrom(codec, br.data, start, 0, compressedSize)
                == PrependBlocks(blocks, BlocksFrom(codec, br.data, br.pos, bytesRead, compressedSize))
      decreases |br.data| - br.pos
    {
      var step :- ReadBlock(br, codec, bytesRead, compressedSize);
      var (block, next) := step;
      PrependBlocksAssoc(blocks, [block], BlocksFrom(codec, br.data, br.pos, next, compressedSize));
      blocks := blocks + [block];
      bytesRead := next;
    }
    assert blocks + [] == blocks;
    r := Ok(blocks);
  }

  /** The blocks laid end to end. */
  function Concat(blocks: seq<seq<byte>>): seq<byte>
  {
    if blocks == [] then [] else Concat(blocks[..|blocks| - 1]) + blocks[|blocks| - 1]
  }

  /** The object image of a multi-block object: the last block first, then
      the others in stream order. */
  function Reassemble(blocks: seq<seq<byte>>): seq<byte>
    requires |blocks| > 0
  {
    blocks[|blocks| - 1] + Concat(blocks[..|blocks| - 1])
  }

  /** The reassembled image is the stream-order image rotated so that the
      last block's bytes come first: no byte is lost, duplicated or moved
      within its block. */
  lemma ReassembleRotates(blocks: seq<seq<byte>>)
    requires |blocks| > 0
    ensures var whole, last := Concat(blocks), blocks[|blocks| - 1];
            |Reassemble(blocks)| == |whole|
            && Reassemble(blocks) == whole[|whole| - |last|..] + whole[..|whole| - |last|]
  {
    var whole, last := Concat(blocks), blocks[|blocks| - 1];
    var front := Concat(blocks[..|blocks| - 1]);
    assert whole == front + last;
    assert whole[|whole| - |last|..] == last;
    assert whole[..|whole| - |last|] == front;
  }

  /** A single block is its own image. */
  lemma ReassembleOne(b: seq<byte>)
    ensures Reassemble([b]) == b
  {
    assert [b][..0] == [];
  }

  /** The reordering loop: the last block, then every other block in order. */
  method SortBlocks(blocks: seq<seq<byte>>) returns (sorted: seq<byte>)
    requires |blocks| > 1
    ensures sorted == Reassemble(blocks)
  {
    var n := |blocks|;
    sorted := blocks[n - 1];
    for j := 0 to n
      invariant sorted == blocks[n - 1] + Concat(blocks[..if j < n then j else n - 1])
    {
      if j != n - 1 {
        assert blocks[..j + 1][..j] == blocks[..j];
        sorted := sorted + blocks[j];
      }
    }
  }

  // ---------------------------------------------------------------------------
  // The reader

  /** The object invariant the ProStreet reader keeps: no zero entry in the
      texture table, every material's texture hash in the table, a third as
      many triangles as indices, and ProStreet material details. */
  ghost predicate WellFormed(o: SolidObject) {
    && 0 !in o.textureHashes
    && TexturesResolve(o)
    && forall m :: m in o.materials ==> m.numTris == m.numIndices / 3 && m.detail.ProStreetDetail?
  }

  /** The per-call settings `ReadObject` stamps on the object. */
  predicate SameSettings(a: SolidObject, b: SolidObject) {
    a.isCompressed == b.isCompressed && a.enableTransform == b.enableTransform
    && a.rotationAngle == b.rotationAngle && a.postProcessed == b.postProcessed
  }

  /** What every leaf handler keeps: the per-call settings, and a well-formed
      object stays well formed. */
  ghost predicate LeafStep(o: SolidObject, r: SolidObject) {
    SameSettings(r, o) && (WellFormed(o) ==> WellFormed(r))
  }

  /** Appending hashes that hold no zero keeps the object well formed. */
  lemma HashesAppendedStep(o: SolidObject, hashes: seq<u32>)
    requires 0 !in hashes
    ensures LeafStep(o, o.(textureHashes := o.textureHashes + hashes))
  {
  }

  /** Renaming a material keeps the object well formed. */
  lemma RenamedStep(o: SolidObject, i: nat, name: MaterialLabel)
    requires i < |o.materials|
    ensures LeafStep(o, o.(materials := o.materials[i := o.materials[i].(name := name)]))
  {
    RenamedMaterials(o.materials, i, name);
  }

  /** The texture-hash chunk: zero hashes are dropped. */
  method ReadTextureLeaf(br: Reader, usable: u32, o: SolidObject) returns (r: Result<SolidObject>)
    modifies br
    ensures r.Ok? <==> TextureTableFits(br.data, old(br.pos), usable / 8)
    ensures r.Ok? ==> r.value == o.(textureHashes := o.textureHashes
                                      + NonZero(TextureWordsAt(br.data, old(br.pos), usable / 8)))
    ensures Yields(r, TextureEffect(br.data, old(br.pos), usable, true, o))
    ensures r.Ok? ==> LeafStep(o, r.value)
  {
    var hashes :- ReadTextureTable(br, usable, true);
    HashesAppendedStep(o, hashes);
    r := Ok(o.(textureHashes := o.textureHashes + hashes));
  }

  /** The mesh-descriptor chunk: one 56-byte record. */
  method ReadDescriptorLeaf(br: Reader, o: SolidObject) returns (r: Result<SolidObject>)
    modifies br
    ensures old(br.pos) + DescriptorSize > |br.data| ==> r == Err(EndOfStream)
    ensures Yields(r, DescriptorEffect(br.data, old(br.pos), o))
    ensures r.Ok? ==> LeafStep(o, r.value)
  {
    var rec :- br.ReadStruct(DescriptorSize);
    r := Ok(o.(meshDescriptor := DecodeDescriptor(rec)));
  }

  /** The vertex-buffer chunk: one buffer of `usable / 4` words. */
  method ReadVertexLeaf(br: Reader, usable: u32, chunkEnd: int, o: SolidObject) returns (r: Result<SolidObject>)
    modifies br
    ensures var vb := VertexBufferAt(br.data, old(br.pos), chunkEnd, usable / 4);
            vb.Err? ==> r == Err(vb.error)
    ensures Yields(r, VertexEffect(br.data, old(br.pos), usable, chunkEnd, o))
    ensures r.Ok? ==> LeafStep(o, r.value)
  {
    var vb :- ReadVertexBuffer(br, usable, chunkEnd);
    r := Ok(o.(vertexBuffers := o.vertexBuffers + [vb]));
  }

  /** The face chunk: the faces of all the materials' triangles. */
  method ReadFacesLeaf(br: Reader, o: SolidObject) returns (r: Result<SolidObject>)
    modifies br
    ensures Yields(r, FacesEffect(br.data, old(br.pos), o))
    ensures r.Ok? ==> LeafStep(o, r.value)
  {
    var faces :- ReadFaces(br, o.materials);
    r := Ok(o.(faces := faces));
  }

  // ---------------------------------------------------------------------------
  // Object assembly

  /** The object-header chunk: the header record and the null-terminated
      name; ProStreet takes no counts from the header. */
  ghost function HeaderEffect(data: seq<byte>, p: nat, o: SolidObject): Option<SolidObject> {
    if p + ObjectHeaderSize > |data| then None
    else
      var h := DecodeObjectHeader(data[p..p + ObjectHeaderSize]);
      var s := CStringAt(data, p + ObjectHeaderSize);
      if s.None? then None
      else Some(ApplyHeader(o, h, Latin1(s.value), 0, 0))
  }

  /** The mesh-descriptor chunk replaces the descriptor. */
  ghost function DescriptorEffect(data: seq<byte>, p: nat, o: SolidObject): Option<SolidObject> {
    if p + DescriptorSize > |data| then None
    else Some(o.(meshDescriptor := DecodeDescriptor(data[p..p + DescriptorSize])))
  }

  /** The shading-group chunk: whole 128-byte records, their materials
      appended and their vertices counted. */
  ghost function GroupsEffect(data: seq<byte>, p: nat, usable: u32, testTrack: bool, o: SolidObject): Option<SolidObject> {
    if usable % 128 != 0 then None
    else
      var ms := GroupMaterials(data, p, usable / 128, testTrack, o.textureHashes);
      if ms.Err? then None else Some(ApplyGroups(o, ms.value))
  }

  /** The vertex-buffer chunk appends one buffer of `usable / 4` words. */
  ghost function VertexEffect(data: seq<byte>, p: nat, usable: u32, chunkEnd: int, o: SolidObject): Option<SolidObject> {
    var vb := VertexBufferAt(data, p, chunkEnd, usable / 4);
    if vb.Err? then None else Some(o.(vertexBuffers := o.vertexBuffers + [vb.value]))
  }

  /** What one leaf handler does, its payload at `p` with `usable` bytes
      after the padding: the object and the material-name cursor it leaves,
      or `None` when the handler throws. Zero texture hashes are dropped, the
      header restarts the cursor, a non-empty name chunk advances it, and
      unknown ids change nothing. */
  ghost function LeafEffect(data: seq<byte>, p: nat, id: u32, usable: u32, chunkEnd: int, testTrack: bool,
                            o: SolidObject, named: nat): Option<(SolidObject, nat)>
  {
    if id == ObjectHeaderChunk then Lift(HeaderEffect(data, p, o), 0)
    else if id == TextureHashesChunk then Lift(TextureEffect(data, p, usable, true, o), named)
    else if id == MeshDescriptorChunk then Lift(DescriptorEffect(data, p, o), named)
    else if id == ShadingGroupChunk then Lift(GroupsEffect(data, p, usable, testTrack, o), named)
    else if id == VertexBufferChunk then Lift(VertexEffect(data, p, usable, chunkEnd, o), named)
    else if id == FacesChunk then Lift(FacesEffect(data, p, o), named)
    else if id == MaterialNameChunk then Lift(NameEffect(data, p, usable, o, named), if usable == 0 then named else named + 1)
    else Some((o, named))
  }

  /** The per-call settings the object reader stamps before walking: the
      compression flag, the transform enabled only for uncompressed objects,
      and in test-track mode a zero rotation. */
  function Stamp(o: SolidObject, compressed: bool, testTrack: bool): SolidObject {
    var s := o.(isCompressed := compressed, enableTransform := !compressed);
    if testTrack then s.(rotationAngle := Some(0)) else s
  }

  /** A leaf chunk of an object whose payload starts at `p`: the padding is
      skipped (an empty chunk reads none and leaves the handler one word
      early), the size shrinks by the padding, and the handler runs. */
  ghost function LeafChunk(data: seq<byte>, p: nat, id: u32, size: u32, testTrack: bool,
                           o: SolidObject, named: nat): Option<(SolidObject, nat)>
    requires 8 <= p
  {
    var scan := ScanPadding(data, p, p + size, true);
    if scan.None? then None
    else LeafEffect(data, scan.value.stop - 4, id, Wrap32(size - scan.value.padding), p + size, testTrack, o, named)
  }

  /** The handlers, each yielding its own effect and moving the name cursor
      as its id says, together yield the `LeafEffect`. */
  lemma LeafEffectOfHandlers(data: seq<byte>, p: nat, id: u32, usable: u32, chunkEnd: int, testTrack: bool,
                             o: SolidObject, named: nat, r: Result<SolidObject>, named': nat)
    requires && (id == ObjectHeaderChunk ==> Yields(r, HeaderEffect(data, p, o)))
             && (id == TextureHashesChunk ==> Yields(r, TextureEffect(data, p, usable, true, o)))
             && (id == MeshDescriptorChunk ==> Yields(r, DescriptorEffect(data, p, o)))
             && (id == ShadingGroupChunk ==> Yields(r, GroupsEffect(data, p, usable, testTrack, o)))
             && (id == VertexBufferChunk ==> Yields(r, VertexEffect(data, p, usable, chunkEnd, o)))
             && (id == FacesChunk ==> Yields(r, FacesEffect(data, p, o)))
             && (id == MaterialNameChunk ==> Yields(r, NameEffect(data, p, usable, o, named)))
    requires id == ObjectHeaderChunk ==> named' == 0
    requires id != ObjectHeaderChunk && id != MaterialNameChunk ==> named' == named
    requires r.Ok? && id == MaterialNameChunk ==> named' == if usable == 0 then named else named + 1
    requires (id !in {ObjectHeaderChunk, TextureHashesChunk, MeshDescriptorChunk, ShadingGroupChunk,
                      VertexBufferChunk, FacesChunk, MaterialNameChunk}) ==> r == Ok(o)
    ensures var e := LeafEffect(data, p, id, usable, chunkEnd, testTrack, o, named);
            (r.Ok? <==> e.Some?) && (r.Ok? ==> e == Some((r.value, named')))
  {
  }

  /** A leaf whose padding scan counted `padding` bytes and left the cursor
      at `q` is the handler's effect from `q`. */
  lemma LeafChunkPadded(data: seq<byte>, p: nat, id: u32, size: u32, testTrack: bool, o: SolidObject, named: nat,
                        padding: nat, q: nat)
    requires 8 <= p
    requires ScanPadding(data, p, p + size, true) == Some(PadScan(padding, q + 4))
    ensures LeafChunk(data, p, id, size, testTrack, o, named)
            == LeafEffect(data, q, id, Wrap32(size - padding), p + size, testTrack, o, named)
  {
  }

  /** The object reader over the chunks in `[pos, end)`: each chunk is an
      `ObjectStep`, and the next chunk starts after the previous one's
      payload whatever was read. */
  ghost function ObjectWalk(data: seq<byte>, pos: nat, end: int, compressed: bool, testTrack: bool,
                            o: SolidObject, named: nat): Option<(SolidObject, nat)>
    decreases |data| - pos, 2
  {
    if pos >= end then Some((o, named))
    else if pos + 8 > |data| then None
    else
      var next := ObjectStep(data, pos, compressed, testTrack, o, named);
      if next.None? then None
      else ObjectWalk(data, pos + 8 + U32At(data, pos + 4), end, compressed, testTrack, next.value.0, next.value.1)
  }

  /** One chunk of an object, its header at `pos`. */
  ghost function ObjectStep(data: seq<byte>, pos: nat, compressed: bool, testTrack: bool,
                            o: SolidObject, named: nat): Option<(SolidObject, nat)>
    requires pos + 8 <= |data|
    decreases |data| - pos, 1
  {
    ChunkEffect(data, pos + 8, U32At(data, pos), U32At(data, pos + 4), compressed, testTrack, o, named)
  }

  /** The payload of one chunk of an object, at `p`: a container is read
      into the same object, stamped again, and a leaf goes through
      `LeafChunk`. */
  ghost function ChunkEffect(data: seq<byte>, p: nat, id: u32, size: u32, compressed: bool, testTrack: bool,
                             o: SolidObject, named: nat): Option<(SolidObject, nat)>
    requires 8 <= p <= |data|
    decreases |data| - p + 8, 0
  {
    if IsContainer(id) then ObjectWalk(data, p, p + size, compressed, testTrack, Stamp(o, compressed, testTrack), named)
    else LeafChunk(data, p, id, size, testTrack, o, named)
  }

  /** A container chunk of an object is the walk over its payload. */
  lemma ObjectContainerStep(data: seq<byte>, pos: nat, p: nat, size: u32, compressed: bool, testTrack: bool,
                            o: SolidObject, named: nat)
    requires p == pos + 8 <= |data| && size == U32At(data, pos + 4) && IsContainer(U32At(data, pos))
    ensures ObjectStep(data, pos, compressed, testTrack, o, named)
            == ObjectWalk(data, p, p + size, compressed, testTrack, Stamp(o, compressed, testTrack), named)
  {
  }

  /** A leaf chunk of an object is its `LeafChunk`. */
  lemma ObjectLeafStep(data: seq<byte>, pos: nat, p: nat, id: u32, size: u32, compressed: bool, testTrack: bool,
                       o: SolidObject, named: nat)
    requires p == pos + 8 <= |data| && id == U32At(data, pos) && size == U32At(data, pos + 4)
    requires !IsContainer(id)
    ensures ObjectStep(data, pos, compressed, testTrack, o, named) == LeafChunk(data, p, id, size, testTrack, o, named)
  {
  }

  /** The walk over `[pos, end)` after its first chunk: when that chunk's
      step fails the walk fails, and otherwise the walk goes on from the
      chunk's end with what the step produced. */
  lemma ObjectWalkAdvance(data: seq<byte>, pos: nat, end: int, compressed: bool, testTrack: bool,
                          o: SolidObject, named: nat, next: nat, r: Result<SolidObject>, named': nat)
    requires pos < end && pos + 8 <= |data| && next == pos + 8 + U32At(data, pos + 4)
    requires var w := ObjectStep(data, pos, compressed, testTrack, o, named);
             (r.Ok? <==> w.Some?) && (r.Ok? ==> w == Some((r.value, named')))
    ensures r.Err? ==> ObjectWalk(data, pos, end, compressed, testTrack, o, named).None?
    ensures r.Ok? ==> ObjectWalk(data, pos, end, compressed, testTrack, o, named)
                      == ObjectWalk(data, next, end, compressed, testTrack, r.value, named')
  {
    var w := ObjectStep(data, pos, compressed, testTrack, o, named);
    if r.Ok? {
      assert ObjectWalk(data, pos, end, compressed, testTrack, o, named)
             == ObjectWalk(data, pos + 8 + U32At(data, pos + 4), end, compressed, testTrack, w.value.0, w.value.1);
    } else {
      assert w.None?;
    }
  }

  class ProStreetSolids {
    const testTrackMode: bool
    const codec: Codec
    var solidList: SolidList
    var namedMaterials: nat

    constructor (testTrackMode: bool, codec: Codec)
      ensures this.testTrackMode == testTrackMode && this.codec == codec
      ensures solidList == NewSolidList && namedMaterials == 0
    {
      this.testTrackMode := testTrackMode;
      this.codec := codec;
      solidList := NewSolidList;
      namedMaterials := 0;
    }

    /** An object as this reader leaves it in the list: post-processed, well
        formed, with its transform enabled exactly when it was stored
        uncompressed, and (in test-track mode) with a zero rotation. */
    ghost predicate Finished(o: SolidObject) {
      && o.postProcessed
      && WellFormed(o)
      && o.enableTransform == !o.isCompressed
      && (testTrackMode ==> o.rotationAngle == Some(0))
    }

    ghost predicate ListFinished(l: SolidList) {
      forall o :: o in l.objects ==> Finished(o)
    }

    /** A chunk of the outer walk that is not walked into, its payload at
        `p`: a leaf has its padding skipped first (an empty one reads none
        and is read one word early); the list-info record sets the list's
        attributes, the compressed-object table is read up to the chunk end,
        an object root is read from a fresh object over its whole size and
        appended post-processed, and any other chunk changes nothing. */
    ghost function ListEntry(data: seq<byte>, p: nat, id: u32, size: u32, list: SolidList, named: nat): Option<(SolidList, nat)>
      requires 8 <= p
    {
      if IsContainer(id) then
        if id == ObjectRootChunk then
          var w := ObjectWalk(data, p, p + size, false, testTrackMode, Stamp(NewObject, false, testTrackMode), named);
          if w.None? then None
          else Some((list.(objects := list.objects + [PostProcessing(w.value.0)]), w.value.1))
        else Some((list, named))
      else
        var scan := ScanPadding(data, p, p + size, true);
        if scan.None? then None
        else ListLeafEffect(data, scan.value.stop - 4, id, p + size, list, named)
    }

    /** A leaf of the outer walk whose record starts at `q` (after its
        padding) and whose payload ends at `end`. */
    ghost function ListLeafEffect(data: seq<byte>, q: int, id: u32, end: int, list: SolidList, named: nat): Option<(SolidList, nat)>
    {
      if id == SolidListInfoChunk then
        if q < 0 || q + SolidListInfoSize > |data| then None
        else Some((ApplyListInfo(list, data[q..q + SolidListInfoSize]), named))
      else if id == CompressedOffsetsChunk then
        if q < 0 then None else TableWalk(data, q, end, list, named)
      else Some((list, named))
    }

    /** A leaf whose padding scan left the cursor at `q` is its record's
        effect from `q`. */
    lemma ListEntryPadded(data: seq<byte>, p: nat, id: u32, size: u32, list: SolidList, named: nat, padding: nat, q: nat)
      requires 8 <= p && !IsContainer(id)
      requires ScanPadding(data, p, p + size, true) == Some(PadScan(padding, q + 4))
      ensures ListEntry(data, p, id, size, list, named) == ListLeafEffect(data, q, id, p + size, list, named)
    {
    }

    /** The outer walk over `[pos, end)`: a terminator ends it just after its
        header, containers other than an object root are walked into, and
        every other chunk is a `ListEntry`. */
    ghost function ListWalk(data: seq<byte>, pos: nat, end: int, list: SolidList, named: nat): Option<(SolidList, nat)>
      decreases |data| - pos, 2
    {
      if pos >= end then Some((list, named))
      else if pos + 8 > |data| then None
      else if U32At(data, pos) == TerminatorChunk then Some((list, named))
      else
        var next := ListStep(data, pos, list, named);
        if next.None? then None
        else ListWalk(data, pos + 8 + U32At(data, pos + 4), end, next.value.0, next.value.1)
    }

    /** One chunk of the outer walk, its header at `pos`. */
    ghost function ListStep(data: seq<byte>, pos: nat, list: SolidList, named: nat): Option<(SolidList, nat)>
      requires pos + 8 <= |data|
      decreases |data| - pos, 1
    {
      ListChunk(data, pos + 8, U32At(data, pos), U32At(data, pos + 4), list, named)
    }

    /** The payload of one chunk of the outer walk, at `p`. */
    ghost function ListChunk(data: seq<byte>, p: nat, id: u32, size: u32, list: SolidList, named: nat): Option<(SolidList, nat)>
      requires 8 <= p <= |data|
      decreases |data| - p + 8, 0
    {
      if IsContainer(id) && id != ObjectRootChunk then ListWalk(data, p, p + size, list, named)
      else ListEntry(data, p, id, size, list, named)
    }

    /** A container of the outer walk is the walk over its payload. */
    lemma ListContainerStep(data: seq<byte>, pos: nat, p: nat, size: u32, list: SolidList, named: nat)
      requires p == pos + 8 <= |data| && size == U32At(data, pos + 4)
      requires IsContainer(U32At(data, pos)) && U32At(data, pos) != ObjectRootChunk
      ensures ListStep(data, pos, list, named) == ListWalk(data, p, p + size, list, named)
    {
    }

    /** Any other chunk of the outer walk is its `ListEntry`. */
    lemma ListEntryStep(data: seq<byte>, pos: nat, p: nat, id: u32, size: u32, list: SolidList, named: nat)
      requires p == pos + 8 <= |data| && id == U32At(data, pos) && size == U32At(data, pos + 4)
      requires !(IsContainer(id) && id != ObjectRootChunk)
      ensures ListStep(data, pos, list, named) == ListEntry(data, p, id, size, list, named)
    {
    }

    /** The list reader: a fresh list and material-name cursor, then the
        outer walk over the container's payload. */
    method ReadSolidList(br: Reader, containerSize: u32) returns (r: Result<SolidList>)
      modifies br, this`solidList, this`namedMaterials
      ensures var w := ListWalk(br.data, old(br.pos), old(br.pos) + containerSize, NewSolidList, 0);
              (r.Ok? <==> w.Some?) && (r.Ok? ==> w == Some((r.value, namedMaterials)))
      ensures r.Ok? ==> ChunkWalk(br.data, old(br.pos), old(br.pos) + containerSize, true) == Some(br.pos)
      ensures r.Ok? ==> r.value == solidList && ListFinished(solidList)
    {
      solidList := NewSolidList;
      namedMaterials := 0;
      var _ :- ReadChunks(br, containerSize);
      r := Ok(solidList);
    }

    /** The outer chunk walk, one `ReadOuterChunk` at a time, until the end
        of the container or a terminator; every other chunk leaves the cursor
        at its end. Objects are appended only once read and post-processed;
        the list's earlier objects stay. */
    method ReadChunks(br: Reader, containerSize: nat) returns (r: Result<()>)
      modifies br, this`solidList, this`namedMaterials
      ensures var w := ListWalk(br.data, old(br.pos), old(br.pos) + containerSize, old(solidList), old(namedMaterials));
              (r.Ok? <==> w.Some?) && (r.Ok? ==> w == Some((solidList, namedMaterials)))
      ensures r.Ok? ==> ChunkWalk(br.data, old(br.pos), old(br.pos) + containerSize, true) == Some(br.pos)
      ensures r.Ok? ==> old(solidList.objects) <= solidList.objects
      ensures r.Ok? && ListFinished(old(solidList)) ==> ListFinished(solidList)
      decreases if br.pos <= |br.data| then |br.data| - br.pos else 0, 2
    {
      ghost var start := br.pos;
      var endPos := br.pos + containerSize;
      while br.pos < endPos
        invariant ChunkWalk(br.data, br.pos, endPos, true) == ChunkWalk(br.data, start, endPos, true)
        invariant ListWalk(br.data, br.pos, endPos, solidList, namedMaterials)
                  == ListWalk(br.data, start, endPos, old(solidList), old(namedMaterials))
        invariant old(solidList.objects) <= solidList.objects
        invariant ListFinished(old(solidList)) ==> ListFinished(solidList)
        decreases |br.data| - br.pos
      {
        var stop :- ReadOuterChunk(br, endPos);
        if stop {
          return Ok(());
        }
      }
      r := Ok(());
    }

    /** One chunk of the outer walk that ends at `end`, header included: a
        terminator stops the walk just after its header (the result is then
        `true`), containers other than an object root are walked
        recursively, every other chunk goes to `ReadListChunk`, and the
        cursor is left at the chunk's end. */
    method ReadOuterChunk(br: Reader, end: int) returns (r: Result<bool>)
      requires br.pos < end
      modifies br, this`solidList, this`namedMaterials
      ensures r.Err? ==> ListWalk(br.data, old(br.pos), end, old(solidList), old(namedMaterials)).None?
      ensures r.Ok? ==> old(br.pos) < |br.data| && old(br.pos) < br.pos
      ensures r == Ok(true) ==>
                && ListWalk(br.data, old(br.pos), end, old(solidList), old(namedMaterials)) == Some((solidList, namedMaterials))
                && ChunkWalk(br.data, old(br.pos), end, true) == Some(br.pos)
      ensures r == Ok(false) ==>
                && ListWalk(br.data, old(br.pos), end, old(solidList), old(namedMaterials))
                   == ListWalk(br.data, br.pos, end, solidList, namedMaterials)
                && ChunkWalk(br.data, old(br.pos), end, true) == ChunkWalk(br.data, br.pos, end, true)
      ensures r.Ok? ==> old(solidList.objects) <= solidList.objects
      ensures r.Ok? && ListFinished(old(solidList)) ==> ListFinished(solidList)
      decreases if br.pos <= |br.data| then |br.data| - br.pos else 0, 1
    {
      ghost var here, list, named := br.pos, solidList, namedMaterials;
      var id :- br.ReadUInt32();
      var size :- br.ReadUInt32();
      if id == TerminatorChunk {
        return Ok(true);
      }
      var chunkEnd := br.pos + size;
      ChunkWalkStep(br.data, here, chunkEnd, end, true);
      if IsContainer(id) && id != ObjectRootChunk {
        ListContainerStep(br.data, here, br.pos, size, list, named);
        var _ :- ReadChunks(br, size);
      } else {
        ListEntryStep(br.data, here, br.pos, id, size, list, named);
        var _, _, _ :- ReadListChunk(br, id, size);
      }
      br.pos := chunkEnd;
      r := Ok(false);
    }

    /** A chunk of the outer walk that is not walked into: an object root
        adds its object, any other container changes nothing, and a leaf is
        a `ReadListLeaf`. For the compressed-object table, `count` records
        were read, starting after the padding, and record `sources[i]` gave
        the `i`-th new object. */
    method ReadListChunk(br: Reader, chunkId: u32, chunkSize: u32)
      returns (r: Result<()>, ghost count: nat, ghost sources: seq<nat>)
      requires br.pos >= 8 // the chunk header has just been read
      modifies br, this`solidList, this`namedMaterials
      ensures var e := ListEntry(br.data, old(br.pos), chunkId, chunkSize, old(solidList), old(namedMaterials));
              (r.Ok? <==> e.Some?) && (r.Ok? ==> e == Some((solidList, namedMaterials)))
      ensures r.Ok? && chunkId == CompressedOffsetsChunk ==>
                var scan := ScanPadding(br.data, old(br.pos), old(br.pos) + chunkSize, true);
                && scan.Some?
                && TableRead(br.data, scan.value.stop - 4, count, sources)
                && |sources| == |solidList.objects| - |old(solidList.objects)|
      ensures r.Ok? ==> old(solidList.objects) <= solidList.objects
      ensures r.Ok? && ListFinished(old(solidList)) ==> ListFinished(solidList)
    {
      count, sources := 0, [];
      if !IsContainer(chunkId) {
        r, count, sources := ReadListLeaf(br, chunkId, chunkSize);
        return;
      }
      if chunkId == ObjectRootChunk {
        var obj :- ReadObject(br, chunkSize, false, NewObject);
        solidList := solidList.(objects := solidList.objects + [PostProcessing(obj)]);
      }
      r := Ok(());
    }

    /** A leaf of the outer walk: its padding is skipped, then its record is
        a `ReadListRecord`. */
    method ReadListLeaf(br: Reader, chunkId: u32, chunkSize: u32)
      returns (r: Result<()>, ghost count: nat, ghost sources: seq<nat>)
      requires br.pos >= 8 && !IsContainer(chunkId)
      modifies br, this`solidList, this`namedMaterials
      ensures var e := ListEntry(br.data, old(br.pos), chunkId, chunkSize, old(solidList), old(namedMaterials));
              (r.Ok? <==> e.Some?) && (r.Ok? ==> e == Some((solidList, namedMaterials)))
      ensures r.Ok? && chunkId == CompressedOffsetsChunk ==>
                var scan := ScanPadding(br.data, old(br.pos), old(br.pos) + chunkSize, true);
                && scan.Some?
                && TableRead(br.data, scan.value.stop - 4, count, sources)
                && |sources| == |solidList.objects| - |old(solidList.objects)|
      ensures r.Ok? ==> old(solidList.objects) <= solidList.objects
      ensures r.Ok? && ListFinished(old(solidList)) ==> ListFinished(solidList)
    {
      count, sources := 0, [];
      var chunkEnd := br.pos + chunkSize;
      ghost var p := br.pos;
      var padding :- SkipPadding(br, chunkEnd, true);
      ListEntryPadded(br.data, p, chunkId, chunkSize, solidList, namedMaterials, padding, br.pos);
      r, count, sources := ReadListRecord(br, chunkId, chunkEnd);
    }

    /** The record of a leaf of the outer walk, at the cursor: the list-info
        record sets the list's attributes, the compressed-object table adds
        its objects, and any other leaf changes nothing. */
    method ReadListRecord(br: Reader, chunkId: u32, chunkEnd: int)
      returns (r: Result<()>, ghost count: nat, ghost sources: seq<nat>)
      modifies br, this`solidList, this`namedMaterials
      ensures var e := ListLeafEffect(br.data, old(br.pos), chunkId, chunkEnd, old(solidList), old(namedMaterials));
              (r.Ok? <==> e.Some?) && (r.Ok? ==> e == Some((solidList, namedMaterials)))
      ensures r.Ok? && chunkId == CompressedOffsetsChunk ==>
                && TableRead(br.data, old(br.pos), count, sources)
                && |sources| == |solidList.objects| - |old(solidList.objects)|
      ensures r.Ok? ==> old(solidList.objects) <= solidList.objects
      ensures r.Ok? && ListFinished(old(solidList)) ==> ListFinished(solidList)
    {
      count, sources := 0, [];
      if chunkId == SolidListInfoChunk {
        var rec :- br.ReadStruct(SolidListInfoSize);
        solidList := ApplyListInfo(solidList, rec);
      } else if chunkId == CompressedOffsetsChunk {
        r, count, sources := ReadCompressedObjects(br, chunkEnd);
        if r.Err? {
          return;
        }
      }
      r := Ok(());
    }

    /** The blocks named by the `t`-th record of a compressed-object table
        whose records start at `start`: its offset and compressed size are
        the record's second and third words. */
    function RecordBlocks(data: seq<byte>, start: nat, t: nat): Result<seq<seq<byte>>>
      requires start + OffsetRecordSize * (t + 1) <= |data|
    {
      BlocksFrom(codec, data, U32At(data, start + OffsetRecordSize * t + 4),
                 0, U32At(data, start + OffsetRecordSize * t + 8))
    }

    /** The blocks at `offset` decode to at least one block, and their image
        (the last block first when there are several) is a walkable object. */
    ghost predicate ImageRead(data: seq<byte>, offset: u32, compressedSize: u32) {
      var bs := BlocksFrom(codec, data, offset, 0, compressedSize);
      && bs.Ok? && |bs.value| > 0
      && ChunkWalk(Reassemble(bs.value), 0, |Reassemble(bs.value)|, false).Some?
    }

    /** `ImageRead` for the blocks the `t`-th record names. */
    ghost predicate RecordImageRead(data: seq<byte>, start: nat, t: nat)
      requires start + OffsetRecordSize * (t + 1) <= |data|
    {
      ImageRead(data, U32At(data, start + OffsetRecordSize * t + 4), U32At(data, start + OffsetRecordSize * t + 8))
    }

    /** The `t`-th record's blocks decode, and it is listed in `sources`
        exactly when they are not empty. */
    ghost predicate RecordSorted(data: seq<byte>, start: nat, t: nat, sources: seq<nat>)
      requires start + OffsetRecordSize * (t + 1) <= |data|
    {
      RecordBlocks(data, start, t).Ok? && (t in sources <==> RecordBlocks(data, start, t) != Ok([]))
    }

    /** What the first `count` records of a compressed-object table starting
        at `start` gave: all are in the stream and their blocks decode;
        `sources` lists, in order, the records whose image was read as an
        object, and those are exactly the records with blocks. */
    ghost predicate TableRead(data: seq<byte>, start: nat, count: nat, sources: seq<nat>) {
      && (count > 0 ==> start + OffsetRecordSize * count <= |data|)
      && (forall i, k :: 0 <= i < k < |sources| ==> sources[i] < sources[k])
      && (forall i :: 0 <= i < |sources| ==> sources[i] < count && RecordImageRead(data, start, sources[i]))
      && (forall t :: 0 <= t < count ==> RecordSorted(data, start, t, sources))
    }

    /** Reading one more record keeps `TableRead`. */
    lemma TableReadStep(data: seq<byte>, start: nat, count: nat, sources: seq<nat>, found: bool)
      requires TableRead(data, start, count, sources)
      requires start + OffsetRecordSize * (count + 1) <= |data|
      requires RecordBlocks(data, start, count).Ok?
      requires found <==> RecordBlocks(data, start, count) != Ok([])
      requires found ==> RecordImageRead(data, start, count)
      ensures TableRead(data, start, count + 1, if found then sources + [count] else sources)
    {
      var next := if found then sources + [count] else sources;
      assert count !in sources;
      forall t | 0 <= t < count + 1
        ensures RecordSorted(data, start, t, next)
      {
        if t < count {
          assert (t in next) == (t in sources);
          RecordSortedTransfer(data, start, t, sources, next);
        } else {
          assert (t in next) == found;
        }
      }
    }

    /** Whether a record is sorted depends on `sources` only through its
        membership there. */
    lemma RecordSortedTransfer(data: seq<byte>, start: nat, t: nat, s1: seq<nat>, s2: seq<nat>)
      requires start + OffsetRecordSize * (t + 1) <= |data|
      requires RecordSorted(data, start, t, s1)
      requires (t in s1) == (t in s2)
      ensures RecordSorted(data, start, t, s2)
    {
    }

    /** One compressed object at `offset`: its blocks, read and
        decompressed; none yields no object, otherwise their image (the last
        block first) is read as a compressed object over its whole length
        and post-processed. `None` when a block or the object fails. */
    ghost function CompressedEntry(data: seq<byte>, offset: u32, compressedSize: u32, named: nat)
      : Option<(Option<SolidObject>, nat)>
    {
      var bs := BlocksFrom(codec, data, offset, 0, compressedSize);
      if bs.Err? then None
      else if |bs.value| == 0 then Some((None, named))
      else
        var image := Reassemble(bs.value);
        var w := ObjectWalk(image, 0, |image|, true, testTrackMode, Stamp(NewObject, true, testTrackMode), named);
        if w.None? then None
        else Some((Some(PostProcessing(w.value.0)), w.value.1))
    }

    /** The compressed-object table from `pos` to `end`: one 24-byte record
        at a time, each naming the offset and compressed size of an object,
        which is appended when it has blocks; the next record follows the
        last whatever its object read. */
    ghost function TableWalk(data: seq<byte>, pos: nat, end: int, list: SolidList, named: nat): Option<(SolidList, nat)>
      decreases |data| - pos, 2
    {
      if pos >= end then Some((list, named))
      else if pos + OffsetRecordSize > |data| then None
      else TableStep(data, pos, end, list, named)
    }

    /** One record of the table, at `pos`: its offset and compressed size. */
    ghost function TableStep(data: seq<byte>, pos: nat, end: int, list: SolidList, named: nat): Option<(SolidList, nat)>
      requires pos + OffsetRecordSize <= |data|
      decreases |data| - pos, 1
    {
      TableRest(data, pos + OffsetRecordSize, end, list, named, U32At(data, pos + 4), U32At(data, pos + 8))
    }

    /** The object a record names, then the records from `next`. */
    ghost function TableRest(data: seq<byte>, next: nat, end: int, list: SolidList, named: nat,
                             offset: u32, compressedSize: u32): Option<(SolidList, nat)>
      requires next <= |data|
      decreases |data| - next + OffsetRecordSize, 0
    {
      var e := CompressedEntry(data, offset, compressedSize, named);
      if e.None? then None
      else
        TableWalk(data, next, end, WithObject(list, e.value.0), e.value.1)
    }

    /** The list with a table entry's object, if it has one, appended;
        nothing else about the list changes. */
    function WithObject(list: SolidList, obj: Option<SolidObject>): (r: SolidList)
      ensures r == list.(objects := r.objects)
      ensures obj.None? ==> r.objects == list.objects
      ensures obj.Some? ==> r.objects == list.objects + [obj.value]
    {
      if obj.Some? then list.(objects := list.objects + [obj.value]) else list
    }

    /** A record inside the table is its `TableRest`. */
    lemma TableRecordStep(data: seq<byte>, pos: nat, next: nat, end: int, list: SolidList, named: nat,
                          offset: u32, compressedSize: u32)
      requires pos < end && next == pos + OffsetRecordSize <= |data|
      requires offset == U32At(data, pos + 4) && compressedSize == U32At(data, pos + 8)
      ensures TableWalk(data, pos, end, list, named) == TableRest(data, next, end, list, named, offset, compressedSize)
    {
    }

    /** The compressed-object table: 24-byte records read while the cursor is
        before the chunk end; each names the stream offset and compressed size
        of one object, whose blocks are decompressed, put back in order and
        read as a compressed object from a stream of their own. After each
        object the cursor returns to the record that follows, so the table is
        consumed record by record: `count` records in all, the last one
        starting before the chunk end. Record `sources[i]` gives the `i`-th
        new object; the records left out are exactly those with no blocks. */
    method ReadCompressedObjects(br: Reader, chunkEnd: int) returns (r: Result<()>, ghost count: nat, ghost sources: seq<nat>)
      modifies br, this`solidList, this`namedMaterials
      ensures r.Ok? ==> && br.pos == old(br.pos) + OffsetRecordSize * count && chunkEnd <= br.pos
                        && (count == 0 || old(br.pos) + OffsetRecordSize * (count - 1) < chunkEnd)
      ensures var w := TableWalk(br.data, old(br.pos), chunkEnd, old(solidList), old(namedMaterials));
              (r.Ok? <==> w.Some?) && (r.Ok? ==> w == Some((solidList, namedMaterials)))
      ensures r.Ok? ==> TableRead(br.data, old(br.pos), count, sources)
      ensures r.Ok? ==> |sources| == |solidList.objects| - |old(solidList.objects)|
      ensures r.Ok? ==> solidList == old(solidList).(objects := solidList.objects)
      ensures r.Ok? ==> old(solidList.objects) <= solidList.objects
      ensures r.Ok? ==> forall i :: |old(solidList.objects)| <= i < |solidList.objects| ==>
                          solidList.objects[i].isCompressed && Finished(solidList.objects[i])
      ensures r.Ok? && ListFinished(old(solidList)) ==> ListFinished(solidList)
    {
      ghost var start := br.pos;
      count, sources := 0, [];
      while br.pos < chunkEnd
        invariant br.pos == start + OffsetRecordSize * count
        invariant count == 0 || start + OffsetRecordSize * (count - 1) < chunkEnd
        invariant TableRead(br.data, start, count, sources)
        invariant TableWalk(br.data, br.pos, chunkEnd, solidList, namedMaterials)
                  == TableWalk(br.data, start, chunkEnd, old(solidList), old(namedMaterials))
        invariant |sources| == |solidList.objects| - |old(solidList.objects)|
        invariant solidList == old(solidList).(objects := solidList.objects)
        invariant old(solidList.objects) <= solidList.objects
        invariant forall i :: |old(solidList.objects)| <= i < |solidList.objects| ==>
                    solidList.objects[i].isCompressed && Finished(solidList.objects[i])
        invariant ListFinished(old(solidList)) ==> ListFinished(solidList)
        decreases chunkEnd - br.pos
      {
        ghost var before := solidList.objects;
        var obj :- ReadTableEntry(br, chunkEnd, start, count, sources);
        forall i | |old(solidList.objects)| <= i < |solidList.objects|
          ensures solidList.objects[i].isCompressed && Finished(solidList.objects[i])
        {
          if i < |before| {
            assert solidList.objects[i] == before[i];
          }
        }
        if obj.Some? {
          sources := sources + [count];
        }
        count := count + 1;
      }
      r := Ok(());
    }

    /** The `count`-th record of the table, before the chunk end: its object,
        if it has blocks, read and appended (the result says whether), with
        the cursor returned to the next record afterwards. */
    method ReadTableEntry(br: Reader, end: int, ghost start: nat, ghost count: nat, ghost sources: seq<nat>)
      returns (r: Result<Option<SolidObject>>)
      requires br.pos < end
      requires br.pos == start + OffsetRecordSize * count && TableRead(br.data, start, count, sources)
      modifies br, this`solidList, this`namedMaterials
      ensures r.Err? ==> TableWalk(br.data, old(br.pos), end, old(solidList), old(namedMaterials)).None?
      ensures r.Ok? ==> TableWalk(br.data, old(br.pos), end, old(solidList), old(namedMaterials))
                        == TableWalk(br.data, br.pos, end, solidList, namedMaterials)
      ensures r.Ok? ==> br.pos == old(br.pos) + OffsetRecordSize
      ensures r.Ok? ==> TableRead(br.data, start, count + 1, if r.value.Some? then sources + [count] else sources)
      ensures r.Ok? ==> solidList == WithObject(old(solidList), r.value)
      ensures r.Ok? && r.value.Some? ==> r.value.value.isCompressed && Finished(r.value.value)
    {
      ghost var here, list, named := br.pos, solidList, namedMaterials;
      var rec :- br.ReadStruct(OffsetRecordSize);
      var curPos := br.pos;
      var offset, compressedSize := U32At(rec, 4), U32At(rec, 8);
      assert offset == U32At(br.data, start + OffsetRecordSize * count + 4);
      assert compressedSize == U32At(br.data, start + OffsetRecordSize * count + 8);
      assert RecordBlocks(br.data, start, count) == BlocksFrom(codec, br.data, offset, 0, compressedSize);
      TableRecordStep(br.data, here, curPos, end, list, named, offset, compressedSize);
      var obj :- ReadCompressedObject(br, offset, compressedSize);
      assert obj.Some? ==> RecordImageRead(br.data, start, count);
      TableReadStep(br.data, start, count, sources, obj.Some?);
      solidList := WithObject(solidList, obj);
      br.pos := curPos;
      r := Ok(obj);
    }

    /** One entry of the compressed-object table: the blocks at `offset` are
        read and decompressed; none (a compressed size of 0) yields no object,
        one block is the object image as it is, several are put back in order
        first. The image is read as a compressed object from a stream of its
        own and post-processed. */
    method ReadCompressedObject(br: Reader, offset: u32, compressedSize: u32) returns (r: Result<Option<SolidObject>>)
      modifies br, this`namedMaterials
      ensures BlocksFrom(codec, br.data, offset, 0, compressedSize).Err? ==>
                r == Err(BlocksFrom(codec, br.data, offset, 0, compressedSize).error)
      ensures var e := CompressedEntry(br.data, offset, compressedSize, old(namedMaterials));
              (r.Ok? <==> e.Some?) && (r.Ok? ==> e == Some((r.value, namedMaterials)))
      ensures r == Ok(None) <==> BlocksFrom(codec, br.data, offset, 0, compressedSize) == Ok([])
      ensures r.Ok? && r.value.Some? ==> ImageRead(br.data, offset, compressedSize)
      ensures r.Ok? && r.value.Some? ==> r.value.value.isCompressed && Finished(r.value.value)
    {
      br.pos := offset;
      var blocks :- ReadBlocks(br, codec, compressedSize);
      if |blocks| == 0 {
        return Ok(None);
      }
      var image := blocks[0];
      if |blocks| > 1 {
        image := SortBlocks(blocks);
      } else {
        assert blocks == [blocks[0]];
        ReassembleOne(blocks[0]);
      }
      var mbr := new Reader(image, 0);
      var obj :- ReadObject(mbr, |image|, true, NewObject);
      r := Ok(Some(PostProcessing(obj)));
    }

    /** The object reader: stamps the per-call settings, then walks the
        object's chunks one `ReadObjectChunk` at a time; every chunk leaves
        the cursor at its end. */
    method ReadObject(br: Reader, size: nat, compressed: bool, obj: SolidObject) returns (r: Result<SolidObject>)
      modifies br, this`namedMaterials
      ensures var w := ObjectWalk(br.data, old(br.pos), old(br.pos) + size, compressed, testTrackMode,
                                  Stamp(obj, compressed, testTrackMode), old(namedMaterials));
              (r.Ok? <==> w.Some?) && (r.Ok? ==> w == Some((r.value, namedMaterials)))
      ensures r.Ok? ==> ChunkWalk(br.data, old(br.pos), old(br.pos) + size, false) == Some(br.pos)
      ensures r.Ok? ==> r.value.isCompressed == compressed && r.value.enableTransform == !compressed
      ensures r.Ok? ==> r.value.rotationAngle == (if testTrackMode then Some(0) else obj.rotationAngle)
      ensures r.Ok? ==> r.value.postProcessed == obj.postProcessed
      ensures r.Ok? && WellFormed(obj) ==> WellFormed(r.value)
      decreases if br.pos <= |br.data| then |br.data| - br.pos else 0, 2
    {
      var o := obj.(isCompressed := compressed, enableTransform := !compressed);
      if testTrackMode {
        o := o.(rotationAngle := Some(0));
      }
      ghost var stamped := o;
      assert stamped == Stamp(obj, compressed, testTrackMode);
      ghost var start := br.pos;
      var endPos := br.pos + size;
      while br.pos < endPos
        invariant ChunkWalk(br.data, br.pos, endPos, false) == ChunkWalk(br.data, start, endPos, false)
        invariant ObjectWalk(br.data, br.pos, endPos, compressed, testTrackMode, o, namedMaterials)
                  == ObjectWalk(br.data, start, endPos, compressed, testTrackMode, stamped, old(namedMaterials))
        invariant LeafStep(stamped, o)
        invariant WellFormed(obj) ==> WellFormed(stamped)
        decreases |br.data| - br.pos
      {
        o :- ReadObjectChunk(br, endPos, compressed, o);
      }
      r := Ok(o);
    }

    /** One chunk of an object that ends at `end`, header included: a
        container is read recursively into the same object; a leaf has its
        padding skipped and goes to its handler; the cursor is left at the
        chunk's end. */
    method ReadObjectChunk(br: Reader, end: int, compressed: bool, o: SolidObject) returns (r: Result<SolidObject>)
      requires br.pos < end
      requires o.isCompressed == compressed && o.enableTransform == !compressed
      requires testTrackMode ==> o.rotationAngle == Some(0)
      modifies br, this`namedMaterials
      ensures r.Err? ==> ObjectWalk(br.data, old(br.pos), end, compressed, testTrackMode, o, old(namedMaterials)).None?
      ensures r.Ok? ==> old(br.pos) < |br.data| && old(br.pos) < br.pos
      ensures r.Ok? ==> ObjectWalk(br.data, old(br.pos), end, compressed, testTrackMode, o, old(namedMaterials))
                        == ObjectWalk(br.data, br.pos, end, compressed, testTrackMode, r.value, namedMaterials)
      ensures r.Ok? ==> ChunkWalk(br.data, old(br.pos), end, false) == ChunkWalk(br.data, br.pos, end, false)
      ensures r.Ok? ==> LeafStep(o, r.value)
      decreases if br.pos <= |br.data| then |br.data| - br.pos else 0, 1
    {
      ghost var here, named := br.pos, namedMaterials;
      var id :- br.ReadUInt32();
      var size :- br.ReadUInt32();
      var chunkEnd := br.pos + size;
      ChunkWalkStep(br.data, here, chunkEnd, end, false);
      if IsContainer(id) {
        r := ReadContainerChunk(br, here, size, compressed, o);
      } else {
        r := ReadLeafChunk(br, here, id, size, compressed, o);
      }
      ObjectWalkAdvance(br.data, here, end, compressed, testTrackMode, o, named, chunkEnd, r, namedMaterials);
      if r.Err? {
        return;
      }
      br.pos := chunkEnd;
    }

    /** A container inside an object, its header just read: its payload is
        read as an object into the same object. */
    method ReadContainerChunk(br: Reader, ghost here: nat, size: u32, compressed: bool, o: SolidObject)
      returns (r: Result<SolidObject>)
      requires here + 8 == br.pos <= |br.data|
      requires size == U32At(br.data, here + 4) && IsContainer(U32At(br.data, here))
      requires o.isCompressed == compressed && o.enableTransform == !compressed
      requires testTrackMode ==> o.rotationAngle == Some(0)
      modifies br, this`namedMaterials
      ensures var w := ObjectStep(br.data, here, compressed, testTrackMode, o, old(namedMaterials));
              (r.Ok? <==> w.Some?) && (r.Ok? ==> w == Some((r.value, namedMaterials)))
      ensures r.Ok? ==> LeafStep(o, r.value)
      decreases |br.data| - br.pos, 3
    {
      ObjectContainerStep(br.data, here, br.pos, size, compressed, testTrackMode, o, namedMaterials);
      r := ReadObject(br, size, compressed, o);
    }

    /** A leaf of an object, its header just read: the padding is skipped
        (an empty chunk reads none and leaves the cursor one word early), the
        size shrinks by the padding, and the payload goes to its handler. */
    method ReadLeafChunk(br: Reader, ghost here: nat, id: u32, size: u32, compressed: bool, o: SolidObject)
      returns (r: Result<SolidObject>)
      requires here + 8 == br.pos <= |br.data|
      requires id == U32At(br.data, here) && size == U32At(br.data, here + 4) && !IsContainer(id)
      modifies br, this`namedMaterials
      ensures var w := ObjectStep(br.data, here, compressed, testTrackMode, o, old(namedMaterials));
              (r.Ok? <==> w.Some?) && (r.Ok? ==> w == Some((r.value, namedMaterials)))
      ensures r.Ok? ==> LeafStep(o, r.value)
    {
      var chunkEnd := br.pos + size;
      ghost var named := namedMaterials;
      ObjectLeafStep(br.data, here, br.pos, id, size, compressed, testTrackMode, o, named);
      var padding :- SkipPadding(br, chunkEnd, true);
      LeafChunkPadded(br.data, here + 8, id, size, testTrackMode, o, named, padding, br.pos);
      ghost var p := br.pos;
      r := ReadLeaf(br, id, Wrap32(size - padding), chunkEnd, o);
      LeafEffectOfHandlers(br.data, p, id, Wrap32(size - padding), chunkEnd, testTrackMode, o, named, r, namedMaterials);
    }

    /** The object-header chunk: the header record, then the object's name
        as a null-terminated string; the material-name cursor restarts. */
    method ReadHeaderLeaf(br: Reader, o: SolidObject) returns (r: Result<SolidObject>)
      modifies br, this`namedMaterials
      ensures namedMaterials == 0
      ensures old(br.pos) + ObjectHeaderSize > |br.data| ==> r == Err(EndOfStream)
      ensures old(br.pos) + ObjectHeaderSize <= |br.data| ==>
                var p := old(br.pos);
                var s := CStringAt(br.data, p + ObjectHeaderSize);
                (s.None? ==> r == Err(EndOfStream))
                && (s.Some? ==> r == Ok(ApplyHeader(o, DecodeObjectHeader(br.data[p..p + ObjectHeaderSize]),
                                                    Latin1(s.value), 0, 0)))
      ensures Yields(r, HeaderEffect(br.data, old(br.pos), o))
      ensures r.Ok? ==> LeafStep(o, r.value)
    {
      namedMaterials := 0;
      var rec :- br.ReadStruct(ObjectHeaderSize);
      var name :- br.ReadNullTerminatedString();
      r := Ok(ApplyHeader(o, DecodeObjectHeader(rec), name, 0, 0));
    }

    /** The material-name chunk: a non-empty one names the material at the
        cursor and moves the cursor on. */
    method ReadNameLeaf(br: Reader, usable: u32, o: SolidObject) returns (r: Result<SolidObject>)
      modifies br, this`namedMaterials
      ensures usable == 0 ==> r == Ok(o) && namedMaterials == old(namedMaterials)
      ensures usable > 0 && old(namedMaterials) >= |o.materials| ==> r == Err(ArgumentOutOfRange)
      ensures usable > 0 && old(namedMaterials) < |o.materials| ==>
                var s, i := CStringAt(br.data, old(br.pos)), old(namedMaterials);
                (s.None? ==> r == Err(EndOfStream))
                && (s.Some? ==> namedMaterials == i + 1
                                && r == Ok(o.(materials := o.materials[i := o.materials[i].(name := Given(Latin1(s.value)))])))
      ensures Yields(r, NameEffect(br.data, old(br.pos), usable, o, old(namedMaterials)))
      ensures r.Ok? ==> namedMaterials == if usable == 0 then old(namedMaterials) else old(namedMaterials) + 1
      ensures r.Ok? ==> LeafStep(o, r.value)
    {
      var ms, next :- ReadMaterialName(br, usable, o.materials, namedMaterials);
      if usable > 0 {
        RenamedStep(o, namedMaterials, ms[namedMaterials].name);
      }
      namedMaterials := next;
      r := Ok(o.(materials := ms));
    }

    /** One leaf chunk of an object, dispatched on its id; unknown ids are
        skipped. Every handler keeps the object well formed and leaves the
        per-call settings alone. Each known id yields its handler's effect (so
        the leaf as a whole is the `LeafEffect`), and the error each handler
        reports is kept. */
    method ReadLeaf(br: Reader, id: u32, usable: u32, chunkEnd: int, o: SolidObject) returns (r: Result<SolidObject>)
      modifies br, this`namedMaterials
      ensures var p := old(br.pos);
              && (id == ObjectHeaderChunk ==> Yields(r, HeaderEffect(br.data, p, o)))
              && (id == TextureHashesChunk ==> Yields(r, TextureEffect(br.data, p, usable, true, o)))
              && (id == MeshDescriptorChunk ==> Yields(r, DescriptorEffect(br.data, p, o)))
              && (id == ShadingGroupChunk ==> Yields(r, GroupsEffect(br.data, p, usable, testTrackMode, o)))
              && (id == VertexBufferChunk ==> Yields(r, VertexEffect(br.data, p, usable, chunkEnd, o)))
              && (id == FacesChunk ==> Yields(r, FacesEffect(br.data, p, o)))
              && (id == MaterialNameChunk ==> Yields(r, NameEffect(br.data, p, usable, o, old(namedMaterials))))
      ensures r.Ok? ==> LeafStep(o, r.value)
      ensures id == ObjectHeaderChunk ==> namedMaterials == 0
      ensures id != ObjectHeaderChunk && id != MaterialNameChunk ==> namedMaterials == old(namedMaterials)
      ensures r.Ok? && id == MaterialNameChunk ==>
                namedMaterials == if usable == 0 then old(namedMaterials) else old(namedMaterials) + 1
      ensures id == ObjectHeaderChunk ==>
                var p := old(br.pos);
                (p + ObjectHeaderSize > |br.data| ==> r == Err(EndOfStream))
                && (p + ObjectHeaderSize <= |br.data| ==>
                      var h := DecodeObjectHeader(br.data[p..p + ObjectHeaderSize]);
                      var s := CStringAt(br.data, p + ObjectHeaderSize);
                      (s.None? ==> r == Err(EndOfStream))
                      && (s.Some? ==> r == Ok(ApplyHeader(o, h, Latin1(s.value), 0, 0))))
      ensures id == TextureHashesChunk ==>
                (r.Ok? <==> TextureTableFits(br.data, old(br.pos), usable / 8))
                && (r.Ok? ==> r.value == o.(textureHashes := o.textureHashes
                                              + NonZero(TextureWordsAt(br.data, old(br.pos), usable / 8))))
      ensures id == MeshDescriptorChunk ==>
                var p := old(br.pos);
                (p + DescriptorSize > |br.data| ==> r == Err(EndOfStream))
                && (p + DescriptorSize <= |br.data| ==>
                      r == Ok(o.(meshDescriptor := DecodeDescriptor(br.data[p..p + DescriptorSize]))))
      ensures id == ShadingGroupChunk ==>
                (usable % 128 != 0 ==> r == Err(StructuralCorruption))
                && (usable % 128 == 0 ==>
                      var ms := GroupMaterials(br.data, old(br.pos), usable / 128, testTrackMode, o.textureHashes);
                      (ms.Err? ==> r == Err(ms.error)) && (ms.Ok? ==> r == Ok(ApplyGroups(o, ms.value))))
      ensures id == VertexBufferChunk ==>
                var vb := VertexBufferAt(br.data, old(br.pos), chunkEnd, usable / 4);
                (vb.Err? ==> r == Err(vb.error))
                && (vb.Ok? ==> r == Ok(o.(vertexBuffers := o.vertexBuffers + [vb.value])))
      ensures id == FacesChunk ==>
                var total := SumTris(o.materials);
                (r.Ok? <==> total < 0x8000_0000 && (total == 0 || old(br.pos) + 6 * total <= |br.data|))
                && (r.Ok? ==> r.value == o.(faces := FacesAt(br.data, old(br.pos), total)))
      ensures id == MaterialNameChunk ==>
                && (usable == 0 ==> r == Ok(o) && namedMaterials == old(namedMaterials))
                && (usable > 0 && old(namedMaterials) >= |o.materials| ==> r == Err(ArgumentOutOfRange))
                && (usable > 0 && old(namedMaterials) < |o.materials| ==>
                      var s, i := CStringAt(br.data, old(br.pos)), old(namedMaterials);
                      (s.None? ==> r == Err(EndOfStream))
                      && (s.Some? ==> namedMaterials == i + 1
                                      && r == Ok(o.(materials := o.materials[i := o.materials[i].(name := Given(Latin1(s.value)))]))))
      ensures (id !in {ObjectHeaderChunk, TextureHashesChunk, MeshDescriptorChunk, ShadingGroupChunk,
                       VertexBufferChunk, FacesChunk, MaterialNameChunk}) ==> r == Ok(o)
    {
      if id == ObjectHeaderChunk {
        r := ReadHeaderLeaf(br, o);
      } else if id == TextureHashesChunk {
        r := ReadTextureLeaf(br, usable, o);
      } else if id == MeshDescriptorChunk {
        r := ReadDescriptorLeaf(br, o);
      } else if id == ShadingGroupChunk {
        r := ReadShadingGroups(br, usable, testTrackMode, o);
      } else if id == VertexBufferChunk {
        r := ReadVertexLeaf(br, usable, chunkEnd, o);
      } else if id == FacesChunk {
        r := ReadFacesLeaf(br, o);
      } else if id == MaterialNameChunk {
        r := ReadNameLeaf(br, usable, o);
      } else {
        r := Ok(o);
      }
    }

    /** The write direction is not implemented. */
    method WriteSolidList(list: SolidList) returns (r: Result<()>)
      ensures r == Err(NotImplemented)
    {
      r := Err(NotImplemented);
    }
  }
}
