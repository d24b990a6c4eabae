/** The decoded object model: solid lists, solid objects, materials, mesh
    descriptors and faces, with the record layouts the three titles share and
    the auto-generated material names. Floating-point values (bounds,
    transforms, vertex data) are never computed on and are carried as their
    32-bit words. */
module Geometry {
  import opened Results
  import opened Bytes

  /** Three 16-bit vertex indices. */
  datatype Face = Face(vtx1: u16, vtx2: u16, vtx3: u16)

  datatype MeshDescriptor = MeshDescriptor(
    flags: u32,
    hasNormals: bool,
    numIndices: u32,
    numMats: u32,
    numVertexStreams: u32,
    numVerts: nat) // running total, grown by the shading-group handlers

  const EmptyDescriptor := MeshDescriptor(0, false, 0, 0, 0, 0)

  /** The title-specific part of a material. */
  datatype MaterialDetail =
    | ProStreetDetail(hash: u32)
    | MostWantedDetail(minPoint: seq<u32>, maxPoint: seq<u32>, textureIndices: seq<byte>, streamMarker: u32)
    | Underground2Detail(minPoint: seq<u32>, maxPoint: seq<u32>, textureIndex: byte)

  /** A material's name: the one generated from the material's position in
      its shading-group chunk (kept as its number; `LabelText` renders it), or
      one read from the stream. */
  datatype MaterialLabel = Generated(number: nat) | Given(text: string)

  datatype Material = Material(
    flags: u32,
    numTris: u32,
    numIndices: u32,
    numVerts: u32,
    name: MaterialLabel,
    textureHash: u32,
    vertexStreamIndex: nat,
    detail: MaterialDetail)

  datatype SolidObject = SolidObject(
    name: string,
    hash: u32,
    minPoint: seq<u32>,
    maxPoint: seq<u32>,
    transform: seq<seq<u32>>, // 4 rows of 4 words
    numTris: u32,
    numShaders: nat,
    numTextures: nat,
    textureHashes: seq<u32>,
    meshDescriptor: MeshDescriptor,
    materials: seq<Material>,
    vertexBuffers: seq<seq<u32>>,
    faces: seq<Face>,
    isCompressed: bool,
    enableTransform: bool,
    rotationAngle: Option<u32>, // the test-track fixed rotation, as a float word
    postProcessed: bool)

  /** A freshly constructed object: nothing decoded yet. */
  const NewObject := SolidObject("", 0, [], [], [], 0, 0, 0, [], EmptyDescriptor, [], [], [],
                                 false, false, None, false)

  datatype SolidList = SolidList(classType: string, pipelinePath: string, objectCount: int, objects: seq<SolidObject>)

  const NewSolidList := SolidList("", "", 0, [])

  /** `PostProcessing()`: its body is not part of this model; only the fact
      that it ran is recorded. */
  function PostProcessing(o: SolidObject): (r: SolidObject)
    ensures r.postProcessed && r == o.(postProcessed := true)
  {
    o.(postProcessed := true)
  }

  /** Every material's texture hash is an entry of its object's texture table. */
  ghost predicate TexturesResolve(o: SolidObject) {
    forall m :: m in o.materials ==> m.textureHash in o.textureHashes
  }

  /** The sum of the materials' triangle counts. */
  function SumTris(ms: seq<Material>): nat
  {
    if ms == [] then 0 else SumTris(ms[..|ms| - 1]) + ms[|ms| - 1].numTris
  }

  /** The sum of the materials' vertex counts. */
  function SumVerts(ms: seq<Material>): nat
  {
    if ms == [] then 0 else SumVerts(ms[..|ms| - 1]) + ms[|ms| - 1].numVerts
  }

  /** Renaming one material keeps every other field of every material. */
  lemma RenamedMaterials(ms: seq<Material>, i: nat, name: MaterialLabel)
    requires i < |ms|
    ensures var ns := ms[i := ms[i].(name := name)];
            |ns| == |ms| && forall m :: m in ns ==> exists k :: 0 <= k < |ms| && m == ms[k].(name := m.name)
  {
    var ns := ms[i := ms[i].(name := name)];
    forall m | m in ns
      ensures exists k :: 0 <= k < |ms| && m == ms[k].(name := m.name)
    {
      var k :| 0 <= k < |ns| && ns[k] == m;
      assert m == ms[k].(name := m.name);
    }
  }

  // ---------------------------------------------------------------------------
  // Material names

  function DigitChar(d: nat): char
    requires d < 10
  {
    (('0' as int) + d) as char
  }

  /** Decimal digits of `n`, most significant first, with no leading zero
      (the `{n}` format). The length bounds here and on `TwoDigits` let
      `MaterialNameNumber` split a generated name into its prefix and its
      digits. */
  function Decimal(n: nat): (r: string)
    ensures |r| >= 1 && (n >= 10 ==> |r| >= 2)
    ensures forall i :: 0 <= i < |r| ==> '0' <= r[i] <= '9'
    ensures n > 0 ==> r[0] != '0'
  {
    if n < 10 then [DigitChar(n)] else Decimal(n / 10) + [DigitChar(n % 10)]
  }

  /** The `{n:00}` format: at least two digits, zero-padded. */
  function TwoDigits(n: nat): (r: string)
    ensures |r| >= 2
  {
    if n < 10 then ['0', DigitChar(n)] else Decimal(n)
  }

  const UnnamedPrefix := "Unnamed Material #"

  /** The name given to the `j`-th material (0-based) of a shading-group chunk. */
  function MaterialName(j: nat): MaterialLabel
  {
    Generated(j + 1)
  }

  /** The text of a name; a generated one is `$"Unnamed Material #{n:00}"`. */
  function LabelText(l: MaterialLabel): string
  {
    match l
    case Generated(n) => UnnamedPrefix + TwoDigits(n)
    case Given(t) => t
  }

  /** Value of a string of decimal digits. */
  function ParseDecimal(s: string): int
  {
    if s == [] then 0 else 10 * ParseDecimal(s[..|s| - 1]) + (s[|s| - 1] as int - '0' as int)
  }

  lemma {:induction false} DecimalRoundTrip(n: nat)
    ensures ParseDecimal(Decimal(n)) == n
    decreases n
  {
    if n >= 10 {
      var s := Decimal(n);
      assert s[..|s| - 1] == Decimal(n / 10);
      DecimalRoundTrip(n / 10);
    }
  }

  /** The number in an auto-generated name reads back as `j + 1`. */
  lemma MaterialNameNumber(j: nat)
    ensures |LabelText(MaterialName(j))| >= |UnnamedPrefix| + 2
    ensures LabelText(MaterialName(j))[..|UnnamedPrefix|] == UnnamedPrefix
    ensures ParseDecimal(LabelText(MaterialName(j))[|UnnamedPrefix|..]) == j + 1
  {
    var name := LabelText(MaterialName(j));
    assert name[|UnnamedPrefix|..] == TwoDigits(j + 1);
    if j + 1 < 10 {
      var t := TwoDigits(j + 1);
      assert t[..|t| - 1] == ['0'];
      assert ParseDecimal(['0']) == 0 by {
        assert ['0'][..0] == [];
      }
    } else {
      DecimalRoundTrip(j + 1);
    }
  }

  /** Distinct positions get distinct auto-generated names. */
  lemma MaterialNamesDistinct(i: nat, j: nat)
    requires i != j
    ensures LabelText(MaterialName(i)) != LabelText(MaterialName(j))
  {
    MaterialNameNumber(i);
    MaterialNameNumber(j);
  }

  // ---------------------------------------------------------------------------
  // Record layouts shared by the three titles

  /** A 4x4 matrix from 16 words in row-major order. */
  function Matrix4(words: seq<u32>): (m: seq<seq<u32>>)
    requires |words| == 16
    ensures |m| == 4 && forall r :: 0 <= r < 4 ==> |m[r]| == 4
    ensures forall r, c :: 0 <= r < 4 && 0 <= c < 4 ==> m[r][c] == words[4 * r + c]
  {
    seq(4, r requires 0 <= r < 4 => words[4 * r..4 * r + 4])
  }

  /** The fields of the object-header record that the readers use; the three
      titles place them at the same offsets (the texture and shader counts are
      unused bytes in one of them). */
  datatype ObjectHeader = ObjectHeader(
    hash: u32,
    numTris: u32,
    textureCount: byte,
    shaderCount: byte,
    boundsMin: seq<u32>,
    boundsMax: seq<u32>,
    transform: seq<u32>)

  function DecodeObjectHeader(rec: seq<byte>): (h: ObjectHeader)
    requires |rec| >= 128
    ensures |h.boundsMin| == 4 && |h.boundsMax| == 4 && |h.transform| == 16
  {
    ObjectHeader(
      U32At(rec, 16), U32At(rec, 20), rec[25], rec[26],
      WordsAt(rec, 32, 4), WordsAt(rec, 48, 4), WordsAt(rec, 64, 16))
  }

  /** The header's identity and geometry summary copied onto the object. */
  function ApplyHeader(o: SolidObject, h: ObjectHeader, name: string, numShaders: nat, numTextures: nat): (r: SolidObject)
    requires |h.transform| == 16
    ensures r.name == name && r.hash == h.hash && r.numTris == h.numTris
    ensures r.minPoint == h.boundsMin && r.maxPoint == h.boundsMax
    ensures |r.transform| == 4 && forall i :: 0 <= i < 4 ==> |r.transform[i]| == 4
    ensures forall i, j :: 0 <= i < 4 && 0 <= j < 4 ==> r.transform[i][j] == h.transform[4 * i + j]
    ensures r.numShaders == numShaders && r.numTextures == numTextures
    ensures r.textureHashes == o.textureHashes && r.materials == o.materials
    ensures r.meshDescriptor == o.meshDescriptor && r.faces == o.faces && r.vertexBuffers == o.vertexBuffers
  {
    o.(name := name, hash := h.hash, minPoint := h.boundsMin, maxPoint := h.boundsMax,
       numTris := h.numTris, numShaders := numShaders, numTextures := numTextures,
       transform := Matrix4(h.transform))
  }

  /** The object descriptor of ProStreet (56 bytes) and Most Wanted (48
      bytes): both start with the same fields. A fresh mesh descriptor, with
      normals always on and no vertices counted yet. */
  function DecodeDescriptor(rec: seq<byte>): (d: MeshDescriptor)
    requires |rec| >= 48
    ensures d.hasNormals && d.numVerts == 0
  {
    MeshDescriptor(U32At(rec, 12), true, U32At(rec, 44), U32At(rec, 16), U32At(rec, 24), 0)
  }

  /** The object after a shading-group chunk: its new materials appended and
      the mesh descriptor's vertex total grown by their vertex counts. */
  function ApplyGroups(o: SolidObject, ms: seq<Material>): SolidObject {
    o.(materials := o.materials + ms,
       meshDescriptor := o.meshDescriptor.(numVerts := o.meshDescriptor.numVerts + SumVerts(ms)))
  }

  const SolidListInfoSize := 0x70

  /** The list-info record: `Blank` (8), `Marker` (4), `NumObjects` (4, signed),
      `PipelinePath` (0x38-byte string), `ClassType` (0x20-byte string) and two
      unknown words. */
  function ApplyListInfo(l: SolidList, rec: seq<byte>): (r: SolidList)
    requires |rec| == SolidListInfoSize
    ensures r.objects == l.objects
    ensures r.objectCount == S32At(rec, 12)
    ensures r.pipelinePath == Latin1(UntilNul(rec[16..72])) && r.classType == Latin1(UntilNul(rec[72..104]))
  {
    l.(classType := Latin1(UntilNul(rec[72..104])),
       pipelinePath := Latin1(UntilNul(rec[16..72])),
       objectCount := S32At(rec, 12))
  }
}
