# NFS-ModTools solid lists and DDS header, in Dafny

This project models the geometry readers of NFS-ModTools and the DDS header
builder, and proves properties of them.

**The geometry readers.** These are the chunk-tree decoders that turn a game's
"solid list" container into solid objects. There is one per title:

- ProStreet, including its test-track variant;
- Most Wanted;
- Underground 2.

**The chunk format.** A chunk is a little-endian 32-bit id, a 32-bit size and
that many payload bytes.

- An id with its top bit set is a container. Containers are walked
  recursively, except the object root, which is read as one solid object.
- After every chunk the cursor is forced to the chunk's end, whatever its
  handler read.
- Inside an object, a leaf payload may start with `0x11111111` padding words,
  which are skipped.

**The object reader.** It assembles a solid object from these leaf chunks:

- the header and name;
- the texture-hash table;
- the mesh descriptor;
- the shading groups, one material per record;
- the vertex buffers;
- the face block;
- the material names.

**ProStreet's compressed objects.** They are read from an offset table. Their
blocks are decompressed, the last block is put first, and the result is read
as an object image.

**The DDS header builder.** `DDSHeader.Init` fills a DirectDraw Surface
header (`DDS_HEADER`, `DDS_PIXELFORMAT`) from a texture's metadata.

**Modules.**

- `results.dfy`: the error kinds and `Result`/`Option`.
- `bytes.dfy`: little-endian fields, 32-bit wrap-around, the string encodings.
- `stream.dfy`: the `BinaryReader` cursor, as a class with a mutable position.
- `chunks.dfy`: chunk ids, the cursor trajectory of a chunk walk (`ChunkWalk`)
  and the padding skip.
- `geometry.dfy`: the object model, the record layouts the titles share and
  the generated material names.
- `handlers.dfy`: the leaf handlers whose code is the same in every title,
  apart from a flag.
- `prostreet.dfy`, `mostwanted.dfy`, `underground2.dfy`: one reader class
  per title.
- `dds_header.dfy`: the DDS header class and its `Init`.

**How the readers are modelled.**

- Each reader is a class whose `solidList` and `namedMaterials` fields are
  updated in place, as the C# fields are.
- The object being assembled is a value threaded through the handlers. The
  C# code also passes the object in and gets it back.
- Loops over the stream are `while`/`for` loops. Each loop is proved against
  a specification function of the bytes: `ChunkWalk`, `PadRun`,
  `GroupMaterials`, `FacesAt`, `VertexBufferAt`, `BlocksFrom` or
  `Reassemble`.
- Every exception the C# code can raise becomes an `Err`. These are end of
  stream, index out of range, argument out of range, division by zero, a
  failed `Debug.Assert` (as `StructuralCorruption`) and an unsupported format.
  Any error aborts the parse.

## Model

| member | source | states |
|---|---|---|
| Bytes.ToInt32 | Common/Geometry/ProStreetSolids.cs:546 | the unchecked `(int)` cast: a signed 32-bit value with the same low 32 bits as its argument |
| Bytes.WordsAt | Common/Geometry/ProStreetSolids.cs:48-55 | a fixed-size array field of the packed header holds exactly `n` words |
| Bytes.EncodeU32RoundTrip | Common/Geometry/ProStreetSolids.cs:218-219 | the little-endian encoding is undone by the word read `ReadUInt32` performs, so the byte tags of `Dds.TagsSpellText` are what a reader decodes as those words |
| Bytes.Latin1 | Common/Geometry/Underground2Solids.cs:235 | characters read byte for byte, one character per byte |
| Bytes.UntilNul | Common/Geometry/ProStreetSolids.cs:22-26 | a `ByValTStr` field is a prefix of the field with no NUL, ended by the first NUL or by the field's end |
| Bytes.CStringAt | Common/Geometry/ProStreetSolids.cs:402 | a null-terminated string is the bytes up to a NUL that lies inside the stream, and none of them is NUL; none exists when no NUL follows |
| Bytes.CStringAtFirstNul | Common/Geometry/ProStreetSolids.cs:402 | the string ends exactly at the first NUL |
| Bytes.CStringAtNoNul | Common/Geometry/ProStreetSolids.cs:402 | with no NUL before the stream's end there is no string |
| Bytes.TrimNul | Common/Geometry/Underground2Solids.cs:235 | `Trim('\0')` gives a slice of the input that neither starts nor ends with NUL, and everything cut off on both sides is NUL |
| Stream.Reader.constructor | Common/Geometry/ProStreetSolids.cs:289-290 | a reader over a byte buffer, at the given position |
| Stream.Reader.ReadUInt32 | Common/Geometry/ProStreetSolids.cs:218-219 | reads the little-endian word at the cursor and advances 4 bytes, or fails with end of stream without moving |
| Stream.Reader.ReadUInt16 | Common/Geometry/ProStreetSolids.cs:554-556 | reads the little-endian 16-bit value and advances 2 bytes, or fails with end of stream |
| Stream.Reader.ReadStruct | Common/Geometry/ProStreetSolids.cs:255 | returns exactly the record's bytes and advances past them, or fails with end of stream |
| Stream.Reader.ReadBytes | Common/Geometry/ProStreetSolids.cs:277 | a negative count fails with argument out of range; otherwise it returns up to `count` bytes, fewer when the stream ends first, and advances past them |
| Stream.Reader.ReadNullTerminatedString | Common/Geometry/ProStreetSolids.cs:402 | returns the `CStringAt` string and consumes its terminator, or fails with end of stream when no NUL follows |
| Chunks.ChunkWalk | Common/Geometry/ProStreetSolids.cs:214-225 | the cursor after a chunk loop depends only on the chunk headers, never moves backwards, and without a terminator ends at or past the range's end |
| Chunks.ChunkWalkConcat | Common/Geometry/ProStreetSolids.cs:366-385 | walking a range is walking its first run of chunks and then the rest from the exact boundary, which is what a nested container does |
| Chunks.ChunkWalkStep | Common/Geometry/ProStreetSolids.cs:216-220 | a chunk that is not a stopping terminator moves the walk to the chunk's end, `8 + size` bytes past its header |
| Chunks.PadRun | Common/Geometry/ProStreetSolids.cs:380-393 | the padding loop counts 4 bytes per padding word; everything counted is padding words; it stops after a non-padding word or at the chunk end, and never reads a word that starts at or past the chunk end |
| Chunks.PaddingShift | Common/Geometry/ProStreetSolids.cs:382-389 | a padding word followed by a run of padding words is a run of padding words four bytes longer, which is how the loop's count grows |
| Chunks.PadRunAllPadding | Common/Geometry/ProStreetSolids.cs:380-393 | an all-padding payload is counted in full and the loop stops at the chunk end |
| Chunks.PadRunPrefix | Common/Geometry/ProStreetSolids.cs:380-393 | `len` bytes of padding followed by a non-padding word are counted exactly, and the loop stops after that word |
| Chunks.PaddingSkipResult | Common/Geometry/ProStreetSolids.cs:235-248 | for both loop variants the usable size shrinks by exactly the padding and the cursor rests on the first payload word; an all-padding payload leaves a usable size of 0 with the cursor on the last padding word |
| Chunks.PaddingWithinPayload | Common/Geometry/ProStreetSolids.cs:235-248 | on a whole-word payload that is non-empty, or is read by the guarded loop, the padding never exceeds the chunk size, so `chunkSize -= padding` does not wrap; the unguarded empty payload is excluded because there it does wrap (`PaddingWrapsOnEmptyPayload`) |
| Chunks.PaddingWrapsOnEmptyPayload | Common/Geometry/MostWantedSolids.cs:222-235 | without the guard, an empty leaf followed by a padding word counts that word as 4 bytes of padding, and the size wraps to 2^32 - 4; the guarded loop counts nothing |
| Chunks.SkipPadding | Common/Geometry/ProStreetSolids.cs:380-393 | the loop with its rewind returns the padding of `ScanPadding` and leaves the cursor one word before where the scan stopped (guarded as in ProStreet, or unguarded as in the other titles) |
| Geometry.PostProcessing | Common/Geometry/ProStreetSolids.cs:293 | the post-processing step is recorded on the object, and nothing else the model tracks changes |
| Geometry.RenamedMaterials | Common/Geometry/ProStreetSolids.cs:573-574 | renaming one material leaves every material equal to an original one up to its name |
| Geometry.Decimal | Common/Geometry/ProStreetSolids.cs:511 | the `{j}` number of a generated name is decimal digits only, at least one, with no leading zero for a positive number |
| Geometry.DecimalRoundTrip | Common/Geometry/ProStreetSolids.cs:511 | the decimal digits of a number parse back to that number |
| Geometry.MaterialNameNumber | Common/Geometry/ProStreetSolids.cs:511 | the `j`-th generated name is `"Unnamed Material #"` followed by digits that read back as `j + 1` |
| Geometry.MaterialNamesDistinct | Common/Geometry/ProStreetSolids.cs:511 | the materials of a chunk get pairwise distinct generated names |
| Geometry.Matrix4 | Common/Geometry/ProStreetSolids.cs:423-432 | the transform is 4 by 4, and entry (r, c) is word `4r + c` of the header's array |
| Geometry.DecodeObjectHeader | Common/Geometry/ProStreetSolids.cs:31-62 | the header's bounds hold 4 words each and its transform 16 |
| Geometry.ApplyHeader | Common/Geometry/ProStreetSolids.cs:404-432 | the header sets the name, hash, bounds, triangle count and transform (row by row from the header's words), the shader and texture counts are the given ones, and it leaves the tables, materials, descriptor, faces and buffers alone |
| Geometry.DecodeDescriptor | Common/Geometry/ProStreetSolids.cs:453-467 | the ProStreet and Most Wanted descriptor always has normals and starts with no vertices counted |
| Geometry.ApplyListInfo | Common/Geometry/ProStreetSolids.cs:253-262 | the list-info record sets the object count (signed), the pipeline path and the class type from their fixed-width fields, and keeps the objects |
| LeafHandlers.NonZero | Common/Geometry/ProStreetSolids.cs:443-446 | the kept table holds every non-zero hash as often as the input does and no zero (as multisets, the input with its zeros removed) |
| LeafHandlers.NonZeroConcat | Common/Geometry/ProStreetSolids.cs:443-446 | filtering keeps the order: the kept hashes of a table's first part come before those of the rest, so a texture index selects the same hash as in the filtered list the code builds |
| LeafHandlers.NonZeroKeepsNonZero | Common/Geometry/ProStreetSolids.cs:443-446 | a table without zeros is kept unchanged |
| LeafHandlers.TextureWordsAt | Common/Geometry/ProStreetSolids.cs:439-449 | the table has one first word per 8-byte record |
| LeafHandlers.ReadTextureTable | Common/Geometry/ProStreetSolids.cs:439-449 | reads `size / 8` records and skips each second word; it succeeds exactly when every first word is in the stream; the result is the first words, with zeros dropped when asked (ProStreet) and kept otherwise (Most Wanted, Underground 2) |
| LeafHandlers.VertexBufferOfWholeWords | Common/Geometry/ProStreetSolids.cs:525-543 | a whole-word payload read to its chunk end fills the `size >> 2`-entry buffer exactly with the payload's words |
| LeafHandlers.VertexBufferAfterAllPadding | Common/Geometry/MostWantedSolids.cs:374-392 | after an all-padding payload, the unguarded fill stores into an empty array and fails |
| LeafHandlers.ReadVertexBuffer | Common/Geometry/ProStreetSolids.cs:525-543 | the fill loop yields `VertexBufferAt`: the words up to the chunk end followed by zeros, or end of stream, or index out of range when the array is too short |
| LeafHandlers.FacesAt | Common/Geometry/ProStreetSolids.cs:546-565 | the face block read from a position holds exactly the requested number of faces |
| LeafHandlers.SumTrisPrefix | Common/Geometry/ProStreetSolids.cs:546-552 | the triangles of the first `m` materials never exceed the total the face array is sized for |
| LeafHandlers.ReadFace | Common/Geometry/ProStreetSolids.cs:554-563 | one face is three consecutive 16-bit indices, or a failure at the stream's end |
| LeafHandlers.ReadFaceRun | Common/Geometry/ProStreetSolids.cs:552-564 | one material's faces land at the next indices of the array; it succeeds exactly when they fit the array and the stream |
| LeafHandlers.ReadFaces | Common/Geometry/ProStreetSolids.cs:544-568 | the face array has the sum of the materials' triangle counts and holds the faces in material order; it succeeds exactly when that sum survives the `(int)` cast and the stream holds every face |
| LeafHandlers.ReadMaterialName | Common/Geometry/ProStreetSolids.cs:569-577 | an empty chunk changes nothing; a non-empty one renames the material at the cursor and advances the cursor, or fails when the cursor is past the materials |
| ProStreet.DecodeShadingGroup | Common/Geometry/ProStreetSolids.cs:67-147 | both 128-byte layouts; the test-track index count is a 16-bit field |
| ProStreet.GroupMaterial | Common/Geometry/ProStreetSolids.cs:502-519 | a zero `Flags2[2]` divides by zero; a texture index past the table is out of range; otherwise `NumIndices = IndicesUsed`, `NumTris = IndicesUsed / 3`, `NumVerts = VertexBufferUsage / Flags2[2]`, the hash is the table entry at `TextureShaderUsage[4]` and the stream is `j` |
| ProStreet.GroupMaterialsFacts | Common/Geometry/ProStreetSolids.cs:498-519 | one material per record: the `j`-th is named `MaterialName(j)` and uses vertex stream `j`; its record is in the stream with a non-zero vertex size and an in-range texture index; its hash is the table entry at that index, its index count is the record's `IndicesUsed` with a third as many triangles, and its vertex count is `VertexBufferUsage / Flags2[2]` of the record |
| ProStreet.GroupMaterialAtSucceeds | Common/Geometry/ProStreetSolids.cs:504-515 | one record succeeds exactly when it is in the stream, its divisor is non-zero and its texture index is in the table |
| ProStreet.GroupMaterialsSucceed | Common/Geometry/ProStreetSolids.cs:498-519 | a chunk succeeds exactly when every record passes the three checks |
| ProStreet.GroupMaterialsErrorPersists | Common/Geometry/ProStreetSolids.cs:502-520 | the first failing record's error is the chunk's error |
| ProStreet.ApplyGroupsKeepsWellFormed | Common/Geometry/ProStreetSolids.cs:506-519 | appending a chunk's materials keeps every texture hash resolvable and the triangle/index relation |
| ProStreet.ReadShadingGroup | Common/Geometry/ProStreetSolids.cs:504-519 | reading one record yields the material `GroupMaterialAt` specifies and advances 128 bytes |
| ProStreet.ReadShadingGroups | Common/Geometry/ProStreetSolids.cs:468-524 | a size that is not a whole number of records fails the assertion; otherwise the materials of `size / 128` records are appended and the vertex total grows by their vertex counts, each `VertexBufferUsage / Flags2[2]` of its record (`GroupMaterialsFacts`) |
| ProStreet.ReadGroupMaterials | Common/Geometry/ProStreetSolids.cs:498-520 | the record loop yields `GroupMaterials`, and the vertex total it accumulates is the sum of the materials' vertex counts |
| ProStreet.FitBlock | Common/Geometry/ProStreetSolids.cs:278-280 | the decompressed block has exactly the declared output size |
| ProStreet.BlocksFromNonEmpty | Common/Geometry/ProStreetSolids.cs:274-298 | a positive compressed size yields at least one block, so only a size of 0 adds no object |
| ProStreet.ReadBlocks | Common/Geometry/ProStreetSolids.cs:271-285 | the block loop yields `BlocksFrom`: each block is a header, `TotalBlockSize - 24` input bytes and its output, read while the wrapping byte count is below the compressed size |
| ProStreet.ReadBlock | Common/Geometry/ProStreetSolids.cs:274-285 | one block: a failed read or decompression is the account's error; otherwise the cursor moves forward and the account is this block followed by the rest from the new cursor and byte count |
| ProStreet.ReassembleRotates | Common/Geometry/ProStreetSolids.cs:300-311 | the reordered image is the stream-order image rotated so that the last block comes first; no byte is lost or duplicated |
| ProStreet.ReassembleOne | Common/Geometry/ProStreetSolids.cs:287-292 | a single block is the object image as it is |
| ProStreet.SortBlocks | Common/Geometry/ProStreetSolids.cs:300-311 | the sorting loop produces the last block followed by blocks `0 .. n-2` in order |
| ProStreet.HashesAppendedStep | Common/Geometry/ProStreetSolids.cs:439-449 | appending zero-free hashes keeps the object well formed |
| ProStreet.RenamedStep | Common/Geometry/ProStreetSolids.cs:569-576 | renaming a material keeps the object well formed |
| ProStreet.ReadTextureLeaf | Common/Geometry/ProStreetSolids.cs:437-452 | the non-zero first words of `size / 8` records are appended to the table, exactly when the stream holds them |
| ProStreet.ReadDescriptorLeaf | Common/Geometry/ProStreetSolids.cs:453-467 | the mesh descriptor becomes the decoded record, or end of stream; nothing else changes |
| ProStreet.ReadVertexLeaf | Common/Geometry/ProStreetSolids.cs:525-543 | a vertex-buffer failure is the result; otherwise the object gains exactly `VertexBufferAt` of the payload, `size >> 2` words |
| ProStreet.ReadFacesLeaf | Common/Geometry/ProStreetSolids.cs:544-568 | the object's faces become `FacesAt` for the total triangle count of its materials, or the read's error |
| ProStreet.LeafEffectOfHandlers | Common/Geometry/ProStreetSolids.cs:395-581 | the handlers' results, with the header resetting the name cursor and a non-empty name chunk advancing it, are exactly the object walk's leaf step `LeafEffect` |
| ProStreet.ObjectWalkAdvance | Common/Geometry/ProStreetSolids.cs:368-585 | the object loop fails when a chunk fails, and otherwise goes on from the chunk's end with the chunk's object and name cursor |
| ProStreet.ProStreetSolids.constructor | Common/Geometry/ProStreetSolids.cs:191-200 | a reader with the given test-track mode and codec, an empty list and the name cursor at 0 |
| ProStreet.ProStreetSolids.ReadSolidList | Common/Geometry/ProStreetSolids.cs:202-210 | succeeds exactly when the outer walk `ListWalk` from an empty list and name cursor 0 succeeds, and returns the list that walk builds; the cursor stops where `ChunkWalk` with terminators says; every listed object is post-processed and well formed |
| ProStreet.ProStreetSolids.ReadChunks | Common/Geometry/ProStreetSolids.cs:212-346 | the loop is the outer walk: it succeeds exactly when `ListWalk` over the container does and leaves that walk's list and name cursor (a terminator stops it, a container other than the object root is walked into, every other chunk is a `ListEntry`); the cursor ends where `ChunkWalk` with terminators puts it; objects are only appended, each finished |
| ProStreet.ProStreetSolids.ReadOuterChunk | Common/Geometry/ProStreetSolids.cs:216-345 | one iteration of the outer loop: a terminator (`0x55441122`) ends the walk where `ListWalk` and `ChunkWalk` stop; any other chunk leaves the walk from the chunk's end, with the new list and name cursor, equal to the walk from its header |
| ProStreet.ProStreetSolids.ReadListChunk | Common/Geometry/ProStreetSolids.cs:227-341 | exactly `ListEntry` of the chunk: an object root appends exactly one object, the `ObjectWalk` of its payload from a stamped uncompressed object, post-processed; any other container changes nothing; a leaf is `ReadListLeaf`; for the compressed-object table the records read start after the padding and record `sources[i]` gives the `i`-th new object |
| ProStreet.ProStreetSolids.ReadListLeaf | Common/Geometry/ProStreetSolids.cs:233-341 | the guarded padding skip of the outer level, then the record from where it stopped: succeeds exactly when `ListEntry` of the leaf does, with its result; the compressed-object table's records start after the padding |
| ProStreet.ProStreetSolids.ReadListRecord | Common/Geometry/ProStreetSolids.cs:251-330 | exactly `ListLeafEffect`: the list-info record sets `ApplyListInfo` of its bytes, the compressed-object table is `TableWalk` from the cursor to the chunk end, and any other leaf changes nothing |
| ProStreet.ProStreetSolids.ReadCompressedObjects | Common/Geometry/ProStreetSolids.cs:263-330 | succeeds exactly when `TableWalk` over the table does, with that walk's list and name cursor; the table is consumed record by record: the cursor ends `24 * count` bytes on, with the last record starting before the chunk end; every record's blocks decode; the `i`-th new object comes from record `sources[i]`, in order, and the records giving no object are exactly those with no blocks; each object's image is walkable, and the objects are compressed and finished; the list's other attributes stay unchanged |
| ProStreet.ProStreetSolids.TableReadStep | Common/Geometry/ProStreetSolids.cs:264-327 | one more record whose blocks decode extends the table's account: it is listed as a source exactly when it has blocks, and then its image is walkable |
| ProStreet.ProStreetSolids.ReadTableEntry | Common/Geometry/ProStreetSolids.cs:266-327 | one offset record: `TableWalk` fails with it, or goes on from the next record with `WithObject` of its result (its object appended when its blocks are not empty, the list unchanged otherwise); the cursor is back on the next record (`curPos`), 24 bytes on; an object it yields is compressed and finished |
| ProStreet.ProStreetSolids.ReadCompressedObject | Common/Geometry/ProStreetSolids.cs:267-327 | exactly `CompressedEntry`: a block read error is the result; no blocks means no object; otherwise the object is the `ObjectWalk` of `Reassemble` of the blocks (one block as it is, several with the last first) from a stamped compressed object, post-processed, and its chunk walk succeeds; the object is compressed and finished |
| ProStreet.ProStreetSolids.ReadObject | Common/Geometry/ProStreetSolids.cs:353-588 | the object is stamped (compressed or not, the transform enabled when not, a zero rotation in test-track mode) and then every child chunk in turn is an `ObjectStep`: it succeeds exactly when `ObjectWalk` from the stamped object succeeds, and returns that walk's object and name cursor; the cursor ends where `ChunkWalk` (without terminators) puts it; a well-formed object stays well formed |
| ProStreet.ProStreetSolids.ReadObjectChunk | Common/Geometry/ProStreetSolids.cs:370-585 | one iteration of the object loop, header included: the walk fails when the chunk fails; otherwise the walk from the chunk equals the walk from the chunk's end (`chunkEndPos`) with the chunk's result, and the object keeps its settings and its well-formedness |
| ProStreet.ProStreetSolids.ReadContainerChunk | Common/Geometry/ProStreetSolids.cs:374-377 | a nested container is exactly `ObjectStep` of the chunk: the walk over its payload into the same object, stamped again |
| ProStreet.ProStreetSolids.ReadLeafChunk | Common/Geometry/ProStreetSolids.cs:378-581 | a leaf is exactly `ObjectStep` of the chunk: the guarded padding skip, the size shrunk by the padding, then its handler (`LeafChunk`) |
| ProStreet.ProStreetSolids.ReadHeaderLeaf | Common/Geometry/ProStreetSolids.cs:397-435 | the name cursor restarts; the header record and the null-terminated name set the object's identity, with zero shader and texture counts |
| ProStreet.ProStreetSolids.ReadNameLeaf | Common/Geometry/ProStreetSolids.cs:569-577 | an empty chunk changes nothing; a non-empty one names material `namedMaterials` and increments the cursor |
| ProStreet.ProStreetSolids.ReadLeaf | Common/Geometry/ProStreetSolids.cs:395-581 | dispatch on the leaf id: the header, texture table (zeros dropped), descriptor, shading groups, vertex buffer, faces (`SumTris` of the materials) and material name each give exactly their handler's result; only the header resets the name cursor, only a name chunk advances it, and an unknown id leaves the object unchanged |
| ProStreet.ProStreetSolids.WriteSolidList | Common/Geometry/ProStreetSolids.cs:348-351 | writing always fails as not implemented |
| MostWanted.DecodeShadingGroup | Common/Geometry/MostWantedSolids.cs:72-101 | the 104-byte record has four texture indices |
| MostWanted.TextureSlot | Common/Geometry/MostWantedSolids.cs:317-322 | the slot is the first texture index when it is below the table's size, and 0 otherwise, so it is always inside a non-empty table |
| MostWanted.StreamIndexOfLast | Common/Geometry/MostWantedSolids.cs:338-360 | the intended rule, with equal 32-bit markers sharing a stream: the stream of a record never exceeds its position |
| MostWanted.StreamIndexOfLastAsWritten | Common/Geometry/MostWantedSolids.cs:338-368 | the rule as the code computes it, with the stored `(int)vst`: the stream of a record never exceeds its position |
| MostWanted.AsWrittenNeverMergesMore | Common/Geometry/MostWantedSolids.cs:338-368 | the code's stream index is never below the intended rule's: it never merges records that the intended rule keeps apart |
| MostWanted.MatchesStoredIff | Common/Geometry/MostWantedSolids.cs:351-368 | the widened `vst == lastUnknown1` holds exactly when the marker equals the previous one and that one is below 2^31 |
| MostWanted.AsWrittenSplitsHighMarkers | Common/Geometry/MostWantedSolids.cs:351-357 | as written, a repeated marker of 2^31 or more starts a new stream |
| MostWanted.AsWrittenCounterexample | Common/Geometry/MostWantedSolids.cs:351-368 | two records with marker 0x80000000 get streams 0 and 1 as written, and both get 0 under the intended comparison |
| MostWanted.StreamIndexSameCount | Common/Geometry/MostWantedSolids.cs:345-348 | when the record count matches the descriptor's stream count, record `j` uses stream `j` |
| MostWanted.StreamIndexMonotone | Common/Geometry/MostWantedSolids.cs:338-360 | stream indices never decrease along a chunk |
| MostWanted.SameStreamIffSameMarkers | Common/Geometry/MostWantedSolids.cs:349-359 | under the intended rule and without the count match, two records share a stream exactly when every record between them repeats its predecessor's marker |
| MostWanted.AsWrittenMonotone | Common/Geometry/MostWantedSolids.cs:338-368 | as written, stream indices never decrease along a chunk |
| MostWanted.AsWrittenSameStreamIff | Common/Geometry/MostWantedSolids.cs:349-368 | as written and without the count match, two records share a stream exactly when every record between them repeats its predecessor's marker and that marker is below 2^31 |
| MostWanted.AsWrittenAgreesBelowHalf | Common/Geometry/MostWantedSolids.cs:349-368 | while every marker is below 2^31, the code's rule and the intended rule give the same stream |
| MostWanted.GroupMaterial | Common/Geometry/MostWantedSolids.cs:315-336 | an empty table is out of range; otherwise the hash is the table entry at `TextureSlot` of the first texture index, `NumIndices = NumTris * 3` in 32-bit arithmetic, the counts are the record's, and the stream and name are the given ones |
| MostWanted.StreamAtMarkers | Common/Geometry/MostWantedSolids.cs:316-369 | the stream the reader infers from the records is the code's rule (`StreamIndexOfLastAsWritten`) applied to their markers, taken at byte 15 of the blank field |
| MostWanted.GroupMaterials | Common/Geometry/MostWantedSolids.cs:306-313 | a successful chunk has one material per record |
| MostWanted.GroupMaterialsSucceed | Common/Geometry/MostWantedSolids.cs:313-334 | a chunk succeeds exactly when its records are in the stream and, if it has any, the table is non-empty: the clamp makes every index valid |
| MostWanted.GroupMaterialsElements | Common/Geometry/MostWantedSolids.cs:313-370 | the `j`-th material is the one built from the `j`-th record |
| MostWanted.GroupMaterialsFacts | Common/Geometry/MostWantedSolids.cs:313-370 | the `j`-th material has the `j`-th generated name, the record's triangle count, three indices per triangle, the hash at `TextureSlot` of its record's first texture index and the inferred stream |
| MostWanted.StreamAtSameIff | Common/Geometry/MostWantedSolids.cs:349-359 | as the reader infers them, records `i <= k` share a stream exactly when each record from `i + 1` to `k` repeats the previous marker and that marker is below 2^31 |
| MostWanted.GroupStreams | Common/Geometry/MostWantedSolids.cs:338-369 | in a decoded chunk without the count match, two materials share a vertex stream exactly when the markers between them repeat and are below 2^31, as the code's widened comparison decides |
| MostWanted.GroupStreamsSameCount | Common/Geometry/MostWantedSolids.cs:345-348 | with the count match, material `j` uses stream `j` |
| MostWanted.GroupMaterialsErrorPersists | Common/Geometry/MostWantedSolids.cs:313-370 | the first failing record's error is the chunk's error |
| MostWanted.ReadShadingGroup | Common/Geometry/MostWantedSolids.cs:315 | one 104-byte record is decoded and consumed, or the read fails at the stream's end |
| MostWanted.ReadGroupMaterial | Common/Geometry/MostWantedSolids.cs:315-369 | from the previous record's marker, kept as `(int)vst`, and its stream, one step yields the specified material and the state for the next record, with the code's widened comparison |
| MostWanted.ReadGroupMaterials | Common/Geometry/MostWantedSolids.cs:310-370 | the loop with its remembered `(int)` marker and stream yields `GroupMaterials`, whose streams follow the code's rule (`StreamAt`), and the vertex total is the sum of the vertex counts |
| MostWanted.ApplyGroupsKeepsWellFormed | Common/Geometry/MostWantedSolids.cs:324-366 | appending a chunk's materials keeps every hash resolvable and the index/triangle relation |
| MostWanted.ReadShadingGroups | Common/Geometry/MostWantedSolids.cs:304-373 | a size that is not a whole number of records fails the assertion; otherwise `size / 104` records are appended, with streams numbered per record when the count matches the descriptor's streams and by the code's marker comparison otherwise, and the vertex total grows |
| MostWanted.GroupsEffectYields | Common/Geometry/MostWantedSolids.cs:304-373 | the handler's two outcomes (the size assertion, then `GroupMaterials` applied with the descriptor's stream-count test) are exactly the leaf step `GroupsEffect` |
| MostWanted.ObjectWalkAdvance | Common/Geometry/MostWantedSolids.cs:210-434 | the object loop fails when a chunk fails, and otherwise goes on from the chunk's end with the chunk's object and name cursor |
| MostWanted.LeafEffectOfHandlers | Common/Geometry/MostWantedSolids.cs:237-430 | the handlers' results, with the header resetting the name cursor and a non-empty name chunk advancing it, are exactly the object walk's leaf step `LeafEffect` |
| MostWanted.HashesAppendedKeepsWellFormed | Common/Geometry/MostWantedSolids.cs:281-285 | appending hashes, zeros included, keeps the object well formed |
| MostWanted.RenamedKeepsWellFormed | Common/Geometry/MostWantedSolids.cs:418-426 | renaming a material keeps the object well formed |
| MostWanted.MostWantedSolids.constructor | Common/Geometry/MostWantedSolids.cs:120-122 | an empty list and the name cursor at 0 |
| MostWanted.MostWantedSolids.ReadSolidList | Common/Geometry/MostWantedSolids.cs:124-132 | succeeds exactly when `ListWalk` from an empty list and name cursor 0 succeeds, and returns that walk's list; the cursor ends where `ChunkWalk` without terminators says; every listed object is post-processed and well formed |
| MostWanted.MostWantedSolids.ReadChunks | Common/Geometry/MostWantedSolids.cs:134-196 | the loop is the outer walk, with no terminator: it succeeds exactly when `ListWalk` over the container does and leaves that walk's list and name cursor; the cursor ends where `ChunkWalk` says; objects are only appended, each finished |
| MostWanted.MostWantedSolids.ReadOuterChunk | Common/Geometry/MostWantedSolids.cs:138-195 | one iteration of the outer loop: the walk fails when the chunk fails; otherwise the walk from the chunk's end, with the new list and name cursor, equals the walk from its header, and the cursor moves to the chunk's end |
| MostWanted.MostWantedSolids.ReadListChunk | Common/Geometry/MostWantedSolids.cs:169-191 | exactly `ListEntry` of the chunk: the list-info record sets `ApplyListInfo` of its bytes, an object root appends exactly one object (the `ObjectWalk` of its payload, post-processed), and any other chunk changes nothing |
| MostWanted.MostWantedSolids.ReadObject | Common/Geometry/MostWantedSolids.cs:203-437 | every child chunk in turn is an `ObjectStep`: it succeeds exactly when `ObjectWalk` from the given object succeeds, and returns that walk's object and name cursor; the cursor ends where `ChunkWalk` puts it; a well-formed object stays well formed |
| MostWanted.MostWantedSolids.ReadObjectChunk | Common/Geometry/MostWantedSolids.cs:212-433 | one iteration of the object loop, header included: the walk fails when the chunk fails; otherwise the walk from the chunk equals the walk from the chunk's end with the chunk's result; the object stays well formed and is not post-processed |
| MostWanted.MostWantedSolids.ReadLeafChunk | Common/Geometry/MostWantedSolids.cs:220-431 | a leaf is exactly `LeafChunk`: the unguarded padding skip, the size shrunk by the padding (wrapping), then its handler |
| MostWanted.MostWantedSolids.ReadHeaderLeaf | Common/Geometry/MostWantedSolids.cs:239-277 | the name cursor restarts; the header and the null-terminated name set the identity, with the header's shader and texture counts |
| MostWanted.MostWantedSolids.ReadTextureLeaf | Common/Geometry/MostWantedSolids.cs:279-288 | succeeds exactly when the table fits; the object gains the first word of each 8-byte record, zeros kept, and nothing else changes |
| MostWanted.MostWantedSolids.ReadDescriptorLeaf | Common/Geometry/MostWantedSolids.cs:289-303 | the mesh descriptor becomes the decoded record, or end of stream; the object stays well formed |
| MostWanted.MostWantedSolids.ReadVertexLeaf | Common/Geometry/MostWantedSolids.cs:374-392 | a vertex-buffer failure is the result; otherwise the object gains exactly `VertexBufferAt` of the payload |
| MostWanted.MostWantedSolids.ReadFacesLeaf | Common/Geometry/MostWantedSolids.cs:393-417 | the object's faces become `FacesAt` for the total triangle count of its materials, or the read's error |
| MostWanted.MostWantedSolids.ReadNameLeaf | Common/Geometry/MostWantedSolids.cs:418-426 | an empty chunk changes nothing; a non-empty one names material `namedMaterials` and increments the cursor |
| MostWanted.MostWantedSolids.ReadLeaf | Common/Geometry/MostWantedSolids.cs:237-430 | dispatch on the leaf id: the header (with its counts), texture table (zeros kept), descriptor, shading groups, vertex buffer, faces (`SumTris` of the materials) and material name each give exactly their handler's result; the name cursor is reset only by the header and advanced only by a name chunk; an unknown id changes nothing |
| MostWanted.MostWantedSolids.WriteSolidList | Common/Geometry/MostWantedSolids.cs:198-201 | writing always fails as not implemented |
| Underground2.Underground2Descriptor | Common/Geometry/Underground2Solids.cs:280-294 | normals exactly when flag bit 0x80 is set, `NumIndices = NumTris * 3` in 32-bit arithmetic, one vertex stream, and the flags and material count from the record |
| Underground2.GroupMaterial | Common/Geometry/Underground2Solids.cs:303-317 | an index past the table is out of range, with no clamp; otherwise the hash is the indexed entry, `NumIndices = Length`, `NumTris = Length / 3`, no vertex count and stream 0 |
| Underground2.GroupMaterials | Common/Geometry/Underground2Solids.cs:297-301 | a successful chunk has one material per record |
| Underground2.GroupMaterialAtSucceeds | Common/Geometry/Underground2Solids.cs:303-314 | one record succeeds exactly when it is in the stream and its texture index is in the table |
| Underground2.GroupMaterialsSucceed | Common/Geometry/Underground2Solids.cs:301-318 | a chunk succeeds exactly when every record is in the stream and every texture index is in the table |
| Underground2.GroupMaterialsElements | Common/Geometry/Underground2Solids.cs:301-318 | the `j`-th material is the one built from the `j`-th record |
| Underground2.GroupMaterialsFacts | Common/Geometry/Underground2Solids.cs:301-318 | the `j`-th material has the `j`-th generated name, the hash its record's index selects, the record's length as its index count, a third as many triangles and stream 0 |
| Underground2.GroupMaterialsErrorPersists | Common/Geometry/Underground2Solids.cs:301-318 | the first failing record's error is the chunk's error |
| Underground2.ReadShadingGroup | Common/Geometry/Underground2Solids.cs:303-317 | one 60-byte record is consumed and yields the material `GroupMaterialAt` specifies |
| Underground2.ReadGroupMaterials | Common/Geometry/Underground2Solids.cs:301-318 | the record loop yields `GroupMaterials` |
| Underground2.AppendGroupsKeepsWellFormed | Common/Geometry/Underground2Solids.cs:305-317 | appending a chunk's materials keeps every hash resolvable, the triangle relation and stream 0 |
| Underground2.ReadShadingGroups | Common/Geometry/Underground2Solids.cs:295-321 | a size that is not a multiple of 60 fails the assertion; otherwise the materials of `size / 60` records are appended and the mesh descriptor's vertex total is not touched |
| Underground2.VertexBufferAfterAllPaddingIsEmpty | Common/Geometry/Underground2Solids.cs:322-343 | thanks to the `chunkSize > 0` guard, an all-padding payload gives an empty buffer where the unguarded fill fails |
| Underground2.HashesAppendedKeepsWellFormed | Common/Geometry/Underground2Solids.cs:270-279 | appending hashes, zeros included, keeps the object well formed |
| Underground2.RenamedKeepsWellFormed | Common/Geometry/Underground2Solids.cs:369-377 | renaming a material keeps the object well formed |
| Underground2.Underground2Solids.constructor | Common/Geometry/Underground2Solids.cs:111-113 | an empty list and the name cursor at 0 |
| Underground2.Underground2Solids.ReadSolidList | Common/Geometry/Underground2Solids.cs:115-123 | succeeds exactly when `ListWalk` from an empty list and name cursor 0 succeeds, and returns that walk's list; the cursor ends where `ChunkWalk` without terminators says; every listed object is post-processed and well formed |
| Underground2.Underground2Solids.ReadChunks | Common/Geometry/Underground2Solids.cs:125-187 | the loop is the outer walk, with no terminator: it succeeds exactly when `ListWalk` over the container does and leaves that walk's list and name cursor; the cursor ends where `ChunkWalk` says; objects are only appended, each finished |
| Underground2.Underground2Solids.ReadOuterChunk | Common/Geometry/Underground2Solids.cs:129-186 | one iteration of the outer loop: the walk fails when the chunk fails; otherwise the walk from the chunk's end, with the new list and name cursor, equals the walk from its header, and the cursor moves to the chunk's end |
| Underground2.Underground2Solids.ReadListChunk | Common/Geometry/Underground2Solids.cs:160-182 | exactly `ListEntry` of the chunk: the list-info record sets `ApplyListInfo` of its bytes, an object root appends exactly one object (the `ObjectWalk` of its payload, post-processed), and any other chunk changes nothing |
| Underground2.Underground2Solids.ReadObject | Common/Geometry/Underground2Solids.cs:194-388 | every child chunk in turn is an `ObjectStep`: it succeeds exactly when `ObjectWalk` from the given object succeeds, and returns that walk's object and name cursor; the cursor ends where `ChunkWalk` puts it; a well-formed object stays well formed |
| Underground2.Underground2Solids.ReadObjectChunk | Common/Geometry/Underground2Solids.cs:203-384 | one iteration of the object loop, header included: the walk fails when the chunk fails; otherwise the walk from the chunk equals the walk from the chunk's end with the chunk's result; the object stays well formed and is not post-processed |
| Underground2.Underground2Solids.ReadLeafChunk | Common/Geometry/Underground2Solids.cs:211-382 | a leaf is exactly `LeafChunk`: the unguarded padding skip, the size shrunk by the padding (wrapping), then its handler |
| Underground2.ObjectWalkAdvance | Common/Geometry/Underground2Solids.cs:201-385 | the object loop fails when a chunk fails, and otherwise goes on from the chunk's end with the chunk's object and name cursor |
| Underground2.LeafEffectOfHandlers | Common/Geometry/Underground2Solids.cs:228-381 | the handlers' results, with the header resetting the name cursor and a non-empty name chunk advancing it, are exactly the object walk's leaf step `LeafEffect` |
| Underground2.Underground2Solids.ReadHeaderLeaf | Common/Geometry/Underground2Solids.cs:230-268 | the name cursor restarts; the name is the next 0x1C characters, fewer at the stream's end, with NUL trimmed from both ends; the counts come from the header |
| Underground2.Underground2Solids.ReadTextureLeaf | Common/Geometry/Underground2Solids.cs:270-279 | succeeds exactly when the table fits; the object gains the first word of each 8-byte record, zeros kept, and nothing else changes |
| Underground2.Underground2Solids.ReadDescriptorLeaf | Common/Geometry/Underground2Solids.cs:280-294 | the mesh descriptor becomes the decoded record, or end of stream; the object stays well formed |
| Underground2.Underground2Solids.ReadVertexLeaf | Common/Geometry/Underground2Solids.cs:322-343 | a vertex-buffer failure is the result; otherwise the object gains exactly `VertexBufferOf` the payload (empty for an empty payload) |
| Underground2.Underground2Solids.ReadFacesLeaf | Common/Geometry/Underground2Solids.cs:344-368 | the object's faces become `FacesAt` for the total triangle count of its materials, or the read's error |
| Underground2.Underground2Solids.ReadNameLeaf | Common/Geometry/Underground2Solids.cs:369-377 | an empty chunk changes nothing; a non-empty one names material `namedMaterials` and increments the cursor |
| Underground2.Underground2Solids.ReadLeaf | Common/Geometry/Underground2Solids.cs:228-381 | dispatch on the leaf id: the header (0x1C-character name, the header's counts), table (zeros kept), descriptor, shading groups, vertex buffer (empty for an empty payload, `VertexBufferAt` otherwise), faces and material name each give exactly their handler's result; the cursor and unknown-id rules are as in the other titles |
| Underground2.Underground2Solids.WriteSolidList | Common/Geometry/Underground2Solids.cs:189-192 | writing always fails as not implemented |
| Dds.SetFlag | Common/Textures/Data/DDSHeader.cs:60-64 | `flags \|= mask` for a single-bit mask leaves the bit set |
| Dds.SetFlagIsOr | Common/Textures/Data/DDSHeader.cs:60-64 | adding a single bit by `SetFlag` is the bitwise or, defined bit by bit in `Or` |
| Dds.FlagsAreBits | Common/Textures/Data/DDSHeader.cs:60-111 | every flag constant the header uses is a single bit |
| Dds.RequiredFlagsBySetting | Common/Textures/Data/DDSHeader.cs:57-64 | or-ing the five header flags into zero gives 0x21007 |
| Dds.FourCC | Common/Textures/Data/DDSHeader.cs:85-103 | ATI1 gets `0x55344342`, ATI2 gets `0x55354342`, and the DXT formats get their enumeration value as a signed int: a value in the signed 32-bit range with the same low 32 bits |
| Dds.TagsSpellText | Common/Textures/Data/DDSHeader.cs:55 | the magic number spells "DDS " in little-endian byte order; the ATI codes spell "BC4U" and "BC5U" |
| Dds.InitFlags | Common/Textures/Data/DDSHeader.cs:81-111 | each branch's or-ing yields the final flags; both layouts are described by their flags (required bits, exactly one of pitch and linear size, FourCC exactly with linear size); the flags an unsupported format leaves are not |
| Dds.DdsHeader.constructor | Common/Textures/Data/DDSHeader.cs:29-48 | a zeroed header struct |
| Dds.DdsHeader.InitCommon | Common/Textures/Data/DDSHeader.cs:55-73 | magic, size 0x7C, the required flags, the dimensions as signed ints, the data length as linear size, depth 1, the mip count, and a 32-byte pixel format with no flags |
| Dds.DdsHeader.DescribeBlocks | Common/Textures/Data/DDSHeader.cs:81-103 | adds the linear-size flag, sets `Caps1 = 0x401008`, adds the FourCC pixel flag and sets the FourCC code |
| Dds.DdsHeader.DescribePixels | Common/Textures/Data/DDSHeader.cs:108-118 | adds the pitch flag, sets the pitch, the RGB and alpha pixel flags, 32 bits per pixel, the A8R8G8B8 masks (the alpha mask as a negative int) and `Caps1 = 0x40100A` |
| Dds.DdsHeader.Init | Common/Textures/Data/DDSHeader.cs:53-124 | succeeds exactly for the block-compressed and 32-bit pixel formats, leaving a header whose flags describe its layout with the per-branch fields; any other format fails as unsupported, with the common fields already written and caps untouched |

## Left out

- `Compression.Decompress` and the `CompressBlockHead` layout are outside
  this model. ProStreet takes them as a `Codec` parameter: a header decoder
  and a decompressor that may fail. Only the 24-byte header-size arithmetic
  and the output-buffer size are modelled.
- The body of `SolidObject.PostProcessing()` is not part of this model. The
  model only records that it ran, once, before the object is appended.
- Floating-point values are carried as their 32-bit words and never computed
  on. This covers bounds, transforms, vertex data and the test-track
  rotation angle (0.0f is the word 0).
- `BinaryUtil.ReadStruct`, `GetStruct` and `ReadNullTerminatedString` are
  replaced by byte-offset decoders of the packed layouts and by a
  null-terminated-string specification over bytes.
- Strings are decoded byte for byte (`Latin1`). `BinaryReader.ReadChars`
  decodes UTF-8 by default; multi-byte characters are not modelled.
- `Debug.Assert` on the shading-group size is modelled as a failing
  assertion (`StructuralCorruption`), not as a no-op in release builds.
- The numeric values of `TextureCompression` are not part of this model. A
  texture carries its type's value next to the type, and that value is the
  DXT FourCC.
- The `Texture` class is not part of this model. Its width, height, mip
  count and pitch are taken to be unsigned 32-bit values, and its data
  length to be an array length.
- Underground 2 keeps the raw shading-group record on each material
  (`RawStructure`). The model keeps only the fields the reader uses.
- `MeshDescriptor.NumVerts` is an unbounded counter. The width of that field
  is declared outside the modelled files, so its wrap-around is not modelled.
- The title-specific material classes (`ProStreetMaterial`,
  `MostWantedMaterial`, `Underground2Material`) are one `Material` with a
  per-title detail.
- The object classes created for a null argument are one `NewObject` value.
- ProStreet's `Hash = UnknownId` is kept as the detail's hash.
- `WriteSolidList` only fails. The write direction does not exist in the
  source.
- GeoEd/RenderObject.cs (OpenGL buffer setup and drawing) is not part of
  this model.
- Dds.DdsHeader.Init: the flag words are nonnegative integers. `|=` is
  modelled by `SetFlag`, which is the bitwise or only for the single-bit
  masks the method uses (`FlagsAreBits`, `SetFlagIsOr`); negative flag words
  never arise.
- The reader classes are not reentrant across threads. No concurrency is
  modelled.

Behaviour worth noting, where the model follows the code:

- ProStreet also skips padding before outer-level leaf chunks
  (Common/Geometry/ProStreetSolids.cs:233-249), not only inside objects.
- The Most Wanted stream state (`lastUnknown1`, `lastStreamIdx`) restarts
  with every shading-group chunk (Common/Geometry/MostWantedSolids.cs:310-311),
  rather than once per object.
- The Most Wanted reader keeps the code's marker comparison
  (Common/Geometry/MostWantedSolids.cs:351, 368), including the behaviour
  recorded under "## Findings". The intended rule is `StreamIndexOfLast`, and
  `AsWrittenAgreesBelowHalf` shows that the two agree while every marker is
  below 2^31.

## Findings

| source | as written | input that shows it | evidently intended | confidence | as-written member | corrected member |
|---|---|---|---|---|---|---|
| Common/Geometry/MostWantedSolids.cs:351 | `vst == lastUnknown1` compares a `uint` with an `int` that holds `(int)vst` of the previous record; both sides widen to 64 bits, so a marker of 2^31 or more never equals the stored copy | two shading-group records whose stream marker is 0x80000000, in a chunk whose record count differs from the descriptor's stream count: they get streams 0 and 1 | records with equal 32-bit markers share a vertex stream | not executed | MostWanted.AsWrittenCounterexample | MostWanted.SameStreamIffSameMarkers |
