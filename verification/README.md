# Havenborough game core in Dafny

A model, with proofs, of the sequential logic of the Havenborough game: a C++
client, server and offline asset tool built over Direct3D. Rendering,
floating-point physics, animation math and networking threads are outside the
model. What remains is the game's bookkeeping, its asset file formats and
parsers, and its small state machines:

- **Registries and messaging.**
  - `ResourceManager` is the reference-counted resource table.
  - `ResourceTranslator` is the name-to-path lookup.
  - `EventManager` holds the listener map and the ring of event queues.
  - `TweakSettings` and `TweakCommand` are the settings store and its console command.
  - `ConnectionController` is the received-package queue.
- **Binary asset files.**
  - Byte conventions live in `Bytes`.
  - The model file is covered by `ModelFormat`, `ModelConverter`, `ModelBinaryLoader` and `ModelRoundTrip`.
  - The level file is covered by `LevelFormat`, `LevelConverter`, `LevelBinaryLoader`, `ClientLevelLoader` and `LevelRoundTrip`.
  - The instance-level file is covered by `InstanceFormat`, `InstanceConverter`, `InstanceBinaryLoader` and `InstanceRoundTrip`.
  - Each converter is proved against its loader: what is written reads back. Where writer and reader disagree, that is shown as a finding.
- **Line-oriented text parsers.**
  - `ModelTextLoader` and `LevelTextLoader` model the converter's `ModelLoader` and `LevelLoader`.
  - `BoundingVolumeLoader` models `BVLoader`.
  - `AnimationClipLoader` models the .mlx block parsers.
  - Their lines are read through `Text` and `TextStream`, a model of `std::stringstream` extraction.
  - `ModelTextProperties` and `LevelTextProperties` state what the parsers read from well-formed input.
- **Animation.**
  - `AnimationLoader` is the animation resource loader and registry.
  - `AnimationData` is the data it hands out.
  - `AnimationPlayer` is the track and clip-queue state of `Animation`.
- **Graphics helpers.**
  - `FontCollectionLoader` is the font-file key codec, enumerator, stream and context.
  - `TextureLoader` covers the extension classifier.
  - `Buffer` covers buffer descriptors and map rules.
  - `VRAMInfo` is the video-memory counter.
- **Game state machines.**
  - `SplineControl` is the camera path recorder.
  - `Components` holds the component ids, the named scales, the pulse and component initialisation.
  - `InputTranslator` and `Gamepad` cover input.
  - `Scenes`, `MenuScene`, `GameScene` and `SceneManager` cover scene switching.

Code that changes state step by step is modelled as Dafny classes and methods with loops. Each is proved equal to a specification function. The properties the source promises are then proved about those functions as lemmas.

`Client/Source/LevelStreamReader.cpp` contains the same reading code as `Common/Source/LevelBinaryLoader.cpp`. The members of `LevelBinaryLoader` model both, and the table cites whichever file each row's lines come from.

## Model

| member | source | states |
|---|---|---|
| Bytes.Uint32Of | BinaryConverter/Source/ModelConverter.cpp:169-174 | the length written as an `unsigned int` is the string length reduced modulo 2^32 |
| Bytes.Int32Of | BinaryConverter/Source/InstanceConverter.cpp:105 | a count passed to `intToByte` as `int` keeps its value when it fits and wraps modulo 2^32 otherwise |
| Bytes.IntToBytes | BinaryConverter/Source/ModelConverter.cpp:176-179 | `intToByte` writes exactly four bytes |
| Bytes.IntRoundTrip | Graphics/Source/ModelBinaryLoader.cpp:129-132 | `byteToInt` reads back the int `intToByte` wrote |
| Bytes.BytesRoundTrip | Graphics/Source/ModelBinaryLoader.cpp:129-132 | every four bytes are the encoding of exactly one int |
| Bytes.ReadInt | Graphics/Source/ModelBinaryLoader.cpp:129-132 | `byteToInt` succeeds iff four bytes remain, reads the int those bytes encode and consumes exactly them |
| Bytes.ReadIntRoundTrip | Graphics/Source/ModelBinaryLoader.cpp:129-132 | an int written by `intToByte` and followed by anything reads back as that int, leaving what followed |
| Bytes.ReadBool | Common/Source/InstanceBinaryLoader.cpp:204-213 | `byteToBool` succeeds iff four bytes remain and is true exactly when the stored int is 1 |
| Bytes.StringToBytes | BinaryConverter/Source/ModelConverter.cpp:169-174 | `stringToByte` writes a four-byte length and then exactly the string's bytes, with no terminator |
| Bytes.ReadString | Graphics/Source/ModelBinaryLoader.cpp:120-127 | when `byteToString` succeeds the stream is the four length bytes, then the string, then the rest, and the stored length is the string's length; a negative stored length never reads, for the allocation throws |
| Bytes.StringRoundTrip | Graphics/Source/ModelBinaryLoader.cpp:120-127 | a string under 2^31 bytes written by `stringToByte` reads back unchanged and the rest of the stream is untouched |
| Bytes.LongStringUnreadable | Graphics/Source/ModelBinaryLoader.cpp:120-127 | a string of 2^31 bytes or more is written with a length the loader reads as negative, so it cannot be read back |
| Bytes.NegateWord | BinaryConverter/Source/InstanceConverter.cpp:76-82 | `x *= -1.f` on a stored float flips only its sign bit |
| Bytes.NegateWordInvolution | BinaryConverter/Source/InstanceConverter.cpp:76-82 | negating a float twice gives it back |
| Bytes.Float3ToBytes | BinaryConverter/Source/LevelConverter.cpp:139-149 | an XMFLOAT3 is written as twelve bytes |
| Bytes.ReadFloat3 | Common/Source/LevelBinaryLoader.cpp:109-118 | reading an XMFLOAT3 succeeds iff twelve bytes remain and consumes exactly them |
| Bytes.Float3RoundTrip | Common/Source/LevelBinaryLoader.cpp:109-118 | an XMFLOAT3 written by the converter reads back unchanged, leaving what followed |
| Bytes.WordsToBytes | BinaryConverter/Source/LevelConverter.cpp:108-137 | a struct copied with `write(&x, sizeof x)` takes four bytes per word |
| Bytes.ReadWords | Common/Source/LevelBinaryLoader.cpp:80-107 | a raw struct read succeeds iff enough bytes remain and consumes exactly its size |
| Bytes.WordsRoundTrip | Common/Source/LevelBinaryLoader.cpp:80-107 | a raw struct written and read back is unchanged |
| Bytes.DecodeN | Graphics/Source/ModelBinaryLoader.cpp:40-53 | reading n records yields exactly n records or fails |
| Bytes.DecodeNRoundTrip | Graphics/Source/ModelBinaryLoader.cpp:40-53 | n records written one after another by an encoder are read back by its decoder, leaving what followed |
| Bytes.DecodeCounted | Common/Source/LevelBinaryLoader.cpp:55-78 | a count-prefixed list has exactly as many records as the stored count |
| Bytes.DecodeCountedRoundTrip | Common/Source/LevelBinaryLoader.cpp:55-78 | a list under 2^31 records written with its count reads back unchanged |
| Bytes.Int32OfAdd | BinaryConverter/Source/ModelConverter.cpp:73-76 | accumulating into a wrapping int equals wrapping the exact sum |
| Bytes.At | BinaryConverter/Source/InstanceConverter.cpp:63-105 | `std::vector::at` yields the element iff the index is in range, and throws otherwise |
| Bytes.WriteAll | BinaryConverter/Source/ModelConverter.cpp:146-155 | the converters' record-writing loop writes the records' encodings in order |
| Bytes.ReadEach | Graphics/Source/ModelBinaryLoader.cpp:40-53 | the loaders' `for (i < n)` read loop reads exactly the records `DecodeN` decodes for its iteration count |
| Bytes.ReadEachChecked | Graphics/Source/ModelBinaryLoader.cpp:85-118 | the read loop that checks each record as it goes succeeds iff every record reads and passes the check, and then returns them all |
| Grouping.FindGroup | BinaryConverter/Source/InstanceConverter.cpp:71-73 | the inner search finds the first group led by the key, or reports that none is |
| Grouping.GroupBy | BinaryConverter/Source/InstanceConverter.cpp:63-105 | grouping never yields an empty group |
| Grouping.GroupByIsFilter | BinaryConverter/Source/InstanceConverter.cpp:63-105 | one group per distinct key in order of first appearance, group j holding exactly the elements with the j-th key in input order; keys are distinct and no element is lost |
| Grouping.FirstKeysBound | BinaryConverter/Source/InstanceConverter.cpp:63-105 | there are no more groups than elements |
| Grouping.FilterWithin | BinaryConverter/Source/InstanceConverter.cpp:63-105 | a group holds only input elements with its key |
| Grouping.MappedFirstKeys | BinaryConverter/Source/InstanceConverter.cpp:76-99 | negating coordinates, which keeps every mesh name, keeps the groups' order |
| Grouping.MappedFilter | BinaryConverter/Source/InstanceConverter.cpp:76-99 | the per-instance change can be made before or after grouping |
| Grouping.GroupByMapped | BinaryConverter/Source/InstanceConverter.cpp:63-105 | grouping changed instances gives the original groups, each changed element-wise, in first-appearance order |
| Grouping.GroupedElement | BinaryConverter/Source/InstanceConverter.cpp:63-105 | every element's key has a group |
| Grouping.Group | BinaryConverter/Source/InstanceConverter.cpp:63-105 | the nested loop of `createLevel` builds exactly `GroupBy` |
| ModelConverter.VertexOrder | BinaryConverter/Source/ModelConverter.cpp:83-106 | one vertex record is written per index of every material's list |
| ModelConverter.VertexOrderPrefix | BinaryConverter/Source/ModelConverter.cpp:83-106 | the records of the first m materials are written before the rest |
| ModelConverter.VertexOrderSlice | BinaryConverter/Source/ModelConverter.cpp:87-103 | material j's records sit from the sum of the earlier list sizes on, its indices in reverse order, so a material buffer's start and length name exactly them |
| ModelConverter.BufferRecords | BinaryConverter/Source/ModelConverter.cpp:134-144 | the material-buffer records exist iff no index list is empty (`at(0)` throws otherwise), one per list |
| ModelConverter.BufferRecordsAt | BinaryConverter/Source/ModelConverter.cpp:134-144 | buffer j names list j's first material id, starts at the sum of earlier list sizes and is as long as list j |
| ModelConverter.BuildRecords | BinaryConverter/Source/ModelConverter.cpp:87-103 | the nested loop builds one record per index in `VertexOrder`, failing where an index is out of range |
| ModelConverter.Converter.constructor | BinaryConverter/Source/ModelConverter.cpp:21-38 | a new converter holds no data and zero counters |
| ModelConverter.Converter.Clear | BinaryConverter/Source/ModelConverter.cpp:250-262 | `clearData` zeroes the counters, name and list sizes and leaves the vertex lists as they were |
| ModelConverter.Converter.CreateHeader | BinaryConverter/Source/ModelConverter.cpp:68-81 | the header is name, material count, vertex count, buffer count, joint count, frame count; the vertex counter keeps accumulating across calls |
| ModelConverter.Converter.CreateMaterial | BinaryConverter/Source/ModelConverter.cpp:146-155 | four strings per material (id, diffuse, normal, specular), in list order |
| ModelConverter.Converter.CreateVertexBuffer | BinaryConverter/Source/ModelConverter.cpp:83-106 | the static vertex records in `VertexOrder`, or a failure exactly where an index is out of range |
| ModelConverter.Converter.CreateVertexBufferAnimation | BinaryConverter/Source/ModelConverter.cpp:108-132 | the skinned vertex records in `VertexOrder`, or a failure exactly where an index is out of range |
| ModelConverter.Converter.CreateJointBuffer | BinaryConverter/Source/ModelConverter.cpp:157-167 | each joint's name, id, parent, offset matrix and its key frames, in list order |
| ModelConverter.Converter.CreateMaterialBuffer | BinaryConverter/Source/ModelConverter.cpp:134-144 | succeeds iff no list is empty and then writes exactly `BufferRecords` |
| ModelConverter.Converter.WriteFile | BinaryConverter/Source/ModelConverter.cpp:40-66 | the outcome is `FileResult` of the old inputs; a written file clears the data, a refusal changes nothing |
| ModelConverter.FileStartsWithHeader | BinaryConverter/Source/ModelConverter.cpp:40-66 | a written file starts with the header and needs a named mesh and an opened file; an unnamed mesh is always refused |
| ModelBinaryLoader.ReadJoints | Graphics/Source/ModelBinaryLoader.cpp:85-118 | a successful `readJointList` needs a non-negative frame count, reads one joint per iteration and every parent is 0 or an earlier joint |
| ModelBinaryLoader.LoadModel | Graphics/Source/ModelBinaryLoader.cpp:134-156 | a loaded file holds as many materials and buffers as its header counts, and the skinned vertices with the joints iff the header names joints, the static vertices otherwise |
| ModelBinaryLoader.LoadBody | Graphics/Source/ModelBinaryLoader.cpp:134-156 | the sections after the header keep the header read |
| ModelBinaryLoader.LoadBuffers | Graphics/Source/ModelBinaryLoader.cpp:55-67 | reading the material buffers changes nothing else |
| ModelBinaryLoader.VertexPart | Graphics/Source/ModelBinaryLoader.cpp:145-153 | with joints, exactly numVertex skinned records and numJoints valid joints and no static records; without, exactly numVertex static records only |
| ModelBinaryLoader.Loader.constructor | Graphics/Source/ModelBinaryLoader.cpp:14-26 | a new loader holds a zero header and empty lists |
| ModelBinaryLoader.Loader.ClearData | Graphics/Source/ModelBinaryLoader.cpp:183-196 | `clearData` leaves a zero header and empty lists |
| ModelBinaryLoader.Loader.ReadVertexData | Graphics/Source/ModelBinaryLoader.cpp:145-153 | the method's fields and stream are exactly `VertexPart` |
| ModelBinaryLoader.Loader.LoadBinaryFile | Graphics/Source/ModelBinaryLoader.cpp:134-156 | an unopenable file leaves the cleared loader and reports it; a stream that holds every section the header counts loads as `LoadModel` of it; a shorter stream is reported as malformed, where the source returns true (admitted under Left out) |
| ModelBinaryLoader.ReadJointList | Graphics/Source/ModelBinaryLoader.cpp:85-118 | the loop reads exactly `ReadJoints` |
| ModelRoundTrip.HeaderRoundTrip | Graphics/Source/ModelBinaryLoader.cpp:28-38 | `readHeader` reads back what `createHeader` wrote, in the same field order |
| ModelRoundTrip.MaterialRoundTrip | Graphics/Source/ModelBinaryLoader.cpp:40-53 | a material's four strings read back unchanged |
| ModelRoundTrip.MaterialBufferRoundTrip | Graphics/Source/ModelBinaryLoader.cpp:55-67 | a material buffer record reads back unchanged |
| ModelRoundTrip.JointRoundTrip | Graphics/Source/ModelBinaryLoader.cpp:85-118 | a joint with its key frames reads back unchanged |
| ModelRoundTrip.RecordInverses | Graphics/Source/ModelBinaryLoader.cpp:40-118 | every record decoder inverts its encoder on the records it accepts |
| ModelRoundTrip.AnimatedPartRoundTrip | Graphics/Source/ModelBinaryLoader.cpp:145-149 | the skinned vertices and joints read back in full |
| ModelRoundTrip.StaticPartRoundTrip | Graphics/Source/ModelBinaryLoader.cpp:150-153 | the static vertices read back in full, with no joints |
| ModelRoundTrip.BodyRoundTrip | Graphics/Source/ModelBinaryLoader.cpp:134-156 | the material and buffer sections around a vertex section read back |
| ModelRoundTrip.BuffersRoundTrip | Graphics/Source/ModelBinaryLoader.cpp:55-67 | the material buffers read back into an otherwise unchanged model |
| ModelRoundTrip.FileSections | BinaryConverter/Source/ModelConverter.cpp:40-66 | a fresh converter writes header, materials, vertex section and material buffers, in that order |
| ModelRoundTrip.ModelFileRoundTrip | BinaryConverter/Source/ModelConverter.cpp:40-66 | a model written by a fresh converter loads back as its inputs: name and counts, materials, vertices in writing order, joints and material ranges |
| LevelFormat.FlipModel | BinaryConverter/Source/LevelConverter.cpp:54-106 | a written instance keeps its mesh name and scale; only the coordinates are mirrored |
| LevelFormat.FlipAll | BinaryConverter/Source/LevelConverter.cpp:54-106 | every instance is mirrored, in order |
| LevelFormat.FlipModelInvolution | BinaryConverter/Source/LevelConverter.cpp:54-106 | mirroring twice gives the instance back |
| LevelFormat.Summary | BinaryConverter/Source/LevelConverter.cpp:54-106 | a group's record has the group's mesh name and, position by position, each instance's translation, rotation and scale |
| LevelFormat.LevelHeaderBytes | BinaryConverter/Source/LevelConverter.cpp:47-52 | the header is three ints |
| LevelFormat.DirectionalBlocks | BinaryConverter/Source/LevelConverter.cpp:108-137 | the directional list gets a block iff it is non-empty |
| LevelFormat.PointBlocks | BinaryConverter/Source/LevelConverter.cpp:108-137 | the point list gets a block iff it is non-empty |
| LevelFormat.SpotBlocks | BinaryConverter/Source/LevelConverter.cpp:108-137 | the spot list gets a block iff it is non-empty |
| LevelFormat.LightBlocks | BinaryConverter/Source/LevelConverter.cpp:108-137 | at most three light blocks are written |
| LevelFormat.LightingBytesSplit | BinaryConverter/Source/LevelConverter.cpp:108-137 | the lighting section is the number of non-empty kinds, then the directional, point and spot blocks in turn |
| LevelFormat.ReadLevelHeader | Common/Source/LevelBinaryLoader.cpp:43-53 | the header reads iff twelve bytes remain |
| LevelFormat.ReadLightBlockLoop | Common/Source/LevelBinaryLoader.cpp:80-107 | the lighting loop reads exactly `ReadLightBlocks`: n tagged blocks, each replacing the list of its kind |
| LevelFormat.LevelHeaderRoundTrip | Common/Source/LevelBinaryLoader.cpp:43-53 | the header the converter writes reads back unchanged |
| LevelFormat.Float3ListRoundTrip | Common/Source/LevelBinaryLoader.cpp:55-78 | a counted list of vectors reads back unchanged |
| LevelFormat.LevelModelRoundTrip | Common/Source/LevelBinaryLoader.cpp:55-78 | a group record reads back unchanged |
| LevelFormat.LevelModelSections | BinaryConverter/Source/LevelConverter.cpp:54-106 | a group record is its name, then its translations, rotations and scales |
| LevelFormat.LightRecordInverses | Common/Source/LevelBinaryLoader.cpp:80-118 | each light and check-point decoder inverts its encoder |
| LevelFormat.LightBlockRoundTrip | Common/Source/LevelBinaryLoader.cpp:80-107 | one readable block reads back, replacing its kind's list |
| LevelFormat.LightBlocksRoundTrip | Common/Source/LevelBinaryLoader.cpp:80-107 | readable blocks written back to back read back one by one |
| LevelFormat.ApplyLightBlocks | Common/Source/LevelBinaryLoader.cpp:80-107 | applying the written blocks replaces exactly the non-empty kinds of the held lists |
| LevelFormat.ApplyBlocksAppend | Common/Source/LevelBinaryLoader.cpp:80-107 | applying blocks in two runs is applying them in one |
| LevelFormat.LightingRoundTrip | Common/Source/LevelBinaryLoader.cpp:80-107 | the lighting section reads back its block count and the written lists merged over the held ones |
| LevelFormat.CheckPointSectionRoundTrip | Common/Source/LevelBinaryLoader.cpp:109-118 | start, end and the check points read back unchanged |
| LevelConverter.GroupedLevel | BinaryConverter/Source/LevelConverter.cpp:54-106 | one record per group of mirrored instances |
| LevelConverter.LevelFileResult | BinaryConverter/Source/LevelConverter.cpp:25-45 | a file is written iff it can be opened and the header's model count is non-zero |
| LevelConverter.GuardedLevelFileResult | Common/Source/LevelBinaryLoader.cpp:35-41 | the guarded writer also writes iff the file opens and the model count is non-zero |
| LevelConverter.FlipAllPrefix | BinaryConverter/Source/LevelConverter.cpp:54-106 | mirroring commutes with taking the first n instances |
| LevelConverter.FlipAllFirstKeys | BinaryConverter/Source/LevelConverter.cpp:54-106 | mirroring keeps the mesh names' order of first appearance |
| LevelConverter.FlipAllFilter | BinaryConverter/Source/LevelConverter.cpp:54-106 | mirroring commutes with selecting one mesh's instances |
| LevelConverter.GroupedLevelContents | BinaryConverter/Source/LevelConverter.cpp:54-106 | one record per distinct mesh name in first-appearance order, the j-th holding the mirrored coordinates and scales of exactly that name's instances in input order; names are distinct |
| LevelConverter.WriteDirectionalBlock | BinaryConverter/Source/LevelConverter.cpp:115-121 | the directional list is written as its block, or nothing when empty |
| LevelConverter.WritePointBlock | BinaryConverter/Source/LevelConverter.cpp:122-128 | the point list is written as its block, or nothing when empty |
| LevelConverter.WriteSpotBlock | BinaryConverter/Source/LevelConverter.cpp:130-136 | the spot list is written as its block, or nothing when empty |
| LevelConverter.WriteLighting | BinaryConverter/Source/LevelConverter.cpp:108-137 | the lighting loop writes exactly `LightingBytes` |
| LevelConverter.Converter.constructor | BinaryConverter/Source/LevelConverter.cpp:15-23 | a new converter has zero counts, no instances, no lights or check points, start and end at the origin |
| LevelConverter.Converter.SetLevelHead | BinaryConverter/Source/LevelConverter.cpp:163-166 | the header is replaced |
| LevelConverter.Converter.SetLevelModelList | BinaryConverter/Source/LevelConverter.cpp:168-172 | the instance list is replaced and all of it will be grouped |
| LevelConverter.Converter.SetLevelDirectionalLightList | BinaryConverter/Source/LevelConverter.cpp:174-177 | the directional list is replaced |
| LevelConverter.Converter.SetLevelPointLightList | BinaryConverter/Source/LevelConverter.cpp:179-182 | the point list is replaced |
| LevelConverter.Converter.SetLevelSpotLightList | BinaryConverter/Source/LevelConverter.cpp:184-187 | the spot list is replaced |
| LevelConverter.Converter.SetLevelCheckPointList | BinaryConverter/Source/LevelConverter.cpp:189-192 | the check-point list is replaced |
| LevelConverter.Converter.SetLevelCheckPointStart | BinaryConverter/Source/LevelConverter.cpp:194-197 | the start point is replaced |
| LevelConverter.Converter.SetLevelCheckPointEnd | BinaryConverter/Source/LevelConverter.cpp:199-202 | the end point is replaced |
| LevelConverter.Converter.Clear | BinaryConverter/Source/LevelConverter.cpp:15-23 | `clear` zeroes the counts and the instance count and resets start and end; the light and check-point lists stay |
| LevelConverter.Converter.CreateHeader | BinaryConverter/Source/LevelConverter.cpp:47-52 | writes the three header counts |
| LevelConverter.Converter.CreateLevel | BinaryConverter/Source/LevelConverter.cpp:54-106 | writes the group count and the grouped, mirrored records |
| LevelConverter.Converter.CreateLighting | BinaryConverter/Source/LevelConverter.cpp:108-137 | writes the number of non-empty lists, then one tagged, counted block per non-empty list |
| LevelConverter.Converter.CreateCheckPoints | BinaryConverter/Source/LevelConverter.cpp:139-149 | writes start, end, the count and the check points |
| LevelConverter.Converter.WriteFile | BinaryConverter/Source/LevelConverter.cpp:25-45 | the outcome is `LevelFileResult` of the held data |
| LevelConverter.Converter.WriteGuardedFile | Common/Source/LevelBinaryLoader.cpp:35-41 | the outcome is `GuardedLevelFileResult`: each optional section written only when its header count is non-zero, as the reader expects |
| LevelBinaryLoader.ReadModelsPart | Client/Source/LevelStreamReader.cpp:23 | reading the group records keeps the header |
| LevelBinaryLoader.ReadLightsPart | Client/Source/LevelStreamReader.cpp:24 | reading the lighting keeps the header and the groups |
| LevelBinaryLoader.ReadCheckPointsPart | Client/Source/LevelStreamReader.cpp:25 | reading the check points keeps header, groups and lights, and with no check points counted changes nothing |
| LevelBinaryLoader.Cleared | Client/Source/LevelStreamReader.cpp:154-161 | `clear` empties every list and keeps the header and the start and end points |
| LevelBinaryLoader.ReadLevelRecords | Client/Source/LevelStreamReader.cpp:40-63 | the `readLevel` loop reads exactly `ReadLevel` |
| LevelBinaryLoader.ReadLightingBlocks | Client/Source/LevelStreamReader.cpp:65-92 | the `readLevelLighting` loop reads exactly `ReadLighting` |
| LevelBinaryLoader.Loader.constructor | Client/Source/LevelStreamReader.cpp:3-8 | a new reader holds zero counts and empty lists, with no stream open |
| LevelBinaryLoader.Loader.ReadLevelSection | Common/Source/LevelBinaryLoader.cpp:55-78 | the groups replace the held ones and the stream advances exactly as `ReadModelsPart` says |
| LevelBinaryLoader.Loader.ReadLevelLighting | Common/Source/LevelBinaryLoader.cpp:80-107 | each block replaces its kind's list, as `ReadLightsPart` says |
| LevelBinaryLoader.Loader.ReadLevelCheckPoint | Common/Source/LevelBinaryLoader.cpp:109-118 | start, end and the check points are replaced, as `ReadCheckPointsPart` says |
| LevelBinaryLoader.Loader.ReadStreamData | Common/Source/LevelBinaryLoader.cpp:35-41 | a stream that holds every section its header counts leaves `ReadStream` of it; the model reports a shorter stream, which the void source does not (admitted under Left out) |
| LevelBinaryLoader.Loader.LoadBinaryFile | Common/Source/LevelBinaryLoader.cpp:22-33 | an unopenable file, or any load while the stream of an earlier one is still open, throws and changes nothing; otherwise the stream is left open, and a stream that holds every section its header counts loads as `ReadStream` of it; a shorter stream is reported as malformed, where the source returns true (admitted under Left out) |
| LevelBinaryLoader.Loader.Clear | Common/Source/LevelBinaryLoader.cpp:180-188 | `clear` leaves `Cleared` of the old state and closes the stream |
| ClientLevelBinaryLoader.ReadAfterHeader | Client/Source/LevelBinaryLoader.cpp:37-60 | reading the groups keeps the header |
| ClientLevelBinaryLoader.ReadAfterLevel | Client/Source/LevelBinaryLoader.cpp:62-88 | reading the lighting keeps header and groups |
| ClientLevelBinaryLoader.ReadAfterLighting | Client/Source/LevelBinaryLoader.cpp:90-99 | reading the check points keeps header, groups and lights |
| ClientLevelBinaryLoader.Loader.constructor | Client/Source/LevelBinaryLoader.cpp:13-26 | a new loader holds zero counts and empty lists |
| ClientLevelBinaryLoader.Loader.ReadLevelLighting | Client/Source/LevelBinaryLoader.cpp:62-88 | exactly three tagged blocks are read, each replacing its kind's list |
| ClientLevelBinaryLoader.Loader.ReadLevelCheckPoint | Client/Source/LevelBinaryLoader.cpp:90-99 | start, end and the check points are replaced |
| ClientLevelBinaryLoader.Loader.LoadBinaryFile | Client/Source/LevelBinaryLoader.cpp:13-26 | an unopenable file returns false and changes nothing; a stream `ReadFile` reads whole loads as what it gives; a shorter stream is reported as malformed, where the source returns true (admitted under Left out) |
| LevelRoundTrip.GroupedLevelFits | BinaryConverter/Source/LevelConverter.cpp:54-106 | the grouped records of writable instances fit the reader's signed counts |
| LevelRoundTrip.LevelSectionRoundTrip | Common/Source/LevelBinaryLoader.cpp:55-78 | the level section reads back as the grouped, mirrored records |
| LevelRoundTrip.LightingSectionRoundTrip | Common/Source/LevelBinaryLoader.cpp:80-107 | the lighting section reads back as the written lists merged over the held ones |
| LevelRoundTrip.HeaderStep | Common/Source/LevelBinaryLoader.cpp:37 | the stream reader sets the header first |
| LevelRoundTrip.ModelsStep | Common/Source/LevelBinaryLoader.cpp:38 | with models counted, the written groups are read into the reader |
| LevelRoundTrip.LightsStep | Common/Source/LevelBinaryLoader.cpp:39 | with lights counted, the written lights are read into the reader |
| LevelRoundTrip.CheckPointsPartRoundTrip | Common/Source/LevelBinaryLoader.cpp:40 | the check-point section is read back iff check points are counted |
| LevelRoundTrip.FileSections | BinaryConverter/Source/LevelConverter.cpp:32-38 | the file is header, level, lighting and check points in that order |
| LevelRoundTrip.LevelFileRoundTrip | BinaryConverter/Source/LevelConverter.cpp:25-45 | a file written with lights counted is read back by the common reader as what was written |
| LevelRoundTrip.SkippedLightingMisreadsStart | Common/Source/LevelBinaryLoader.cpp:39-40 | with no lights counted but check points counted, the reader never gets back the written start point (its first word is the lighting count) |
| LevelRoundTrip.SkippedLighting | Common/Source/LevelBinaryLoader.cpp:39-40 | with no lights counted, the start point's first word is read from the lighting count |
| LevelRoundTrip.CheckPointsPartStart | Common/Source/LevelBinaryLoader.cpp:109-118 | the start point's first word is the next four bytes wherever the reader stands |
| LevelRoundTrip.GuardedLevelFileRoundTrip | Common/Source/LevelBinaryLoader.cpp:35-41 | with each section written only when counted, every header the writer accepts reads back |
| LevelRoundTrip.GuardedTailRoundTrip | Common/Source/LevelBinaryLoader.cpp:39-40 | the guarded lighting and check-point sections read back for every header |
| LevelRoundTrip.ZeroWordIsZero | Client/Source/LevelBinaryLoader.cpp:62-88 | the zero int is the all-zero word |
| LevelRoundTrip.DarkLightingMisread | Client/Source/LevelBinaryLoader.cpp:62-88 | the three fixed iterations misread one all-zero directional light as point blocks and lose it |
| LevelRoundTrip.ClientLoaderLosesDirectional | Client/Source/LevelBinaryLoader.cpp:62-88 | a file with one all-zero directional light never loads that light into the old client loader |
| LevelRoundTrip.CountedTailRoundTrip | BinaryConverter/Source/LevelConverter.cpp:110-114 | reading the lighting by its count, the lighting and check points read back |
| LevelRoundTrip.CountedClientRoundTrip | BinaryConverter/Source/LevelConverter.cpp:110-114 | reading the lighting by its count, the client gets back every file the converter writes |
| InstanceFormat.FlagsForFirstMatch | BinaryConverter/Source/InstanceConverter.cpp:109-117 | the first model header with the group's name gives its three flags |
| InstanceFormat.FlagsForNoMatch | BinaryConverter/Source/InstanceConverter.cpp:118-129 | a name no model header has gets three zero flags |
| InstanceFormat.FlipDirectional | BinaryConverter/Source/InstanceConverter.cpp:140-189 | mirroring a directional light keeps its type |
| InstanceFormat.FlipPoint | BinaryConverter/Source/InstanceConverter.cpp:140-189 | mirroring a point light keeps its type |
| InstanceFormat.FlipSpot | BinaryConverter/Source/InstanceConverter.cpp:140-189 | mirroring a spot light keeps its type |
| InstanceFormat.FlipLightsInvolution | BinaryConverter/Source/InstanceConverter.cpp:140-189 | mirroring the lights twice gives them back |
| InstanceFormat.FlipLightsReadable | BinaryConverter/Source/InstanceConverter.cpp:140-189 | mirrored lights are readable iff the originals are |
| InstanceFormat.FlipCheckPoint | BinaryConverter/Source/InstanceConverter.cpp:205-209 | mirroring a check point keeps its number |
| InstanceFormat.FlipEffect | BinaryConverter/Source/InstanceConverter.cpp:250-307 | mirroring an effect placement keeps its name |
| InstanceFormat.EffectSummary | BinaryConverter/Source/InstanceConverter.cpp:250-307 | an effect group's record has its name and, position by position, each placement's translation and rotation |
| InstanceFormat.InstanceHeaderBytes | BinaryConverter/Source/InstanceConverter.cpp:55-61 | the header is four ints |
| InstanceFormat.BoolToBytes | BinaryConverter/Source/InstanceConverter.cpp:113-115 | a flag is written as one int |
| InstanceFormat.FlagsBytes | BinaryConverter/Source/InstanceConverter.cpp:113-115 | the three flags take twelve bytes |
| InstanceFormat.ReadInstanceHeader | BinaryConverter/Source/InstanceConverter.cpp:55-61 | the four-count header reads iff sixteen bytes remain |
| InstanceFormat.DecodeFlags | Common/Source/InstanceBinaryLoader.cpp:53-82 | three `byteToBool`s read iff twelve bytes remain |
| InstanceFormat.CheckPointGroupStep | Common/Source/InstanceBinaryLoader.cpp:124-133 | one loop pass keeps the held groups and appends at most one |
| InstanceFormat.ReadCheckPointGroups | Common/Source/InstanceBinaryLoader.cpp:122-134 | n passes keep the held groups in front and append at most n |
| InstanceFormat.ReadCheckPointGroup | Common/Source/InstanceBinaryLoader.cpp:124-133 | the loop body reads exactly `CheckPointGroupStep` |
| InstanceFormat.ReadCheckPointGroupLoop | Common/Source/InstanceBinaryLoader.cpp:122-134 | the loop reads exactly `ReadCheckPointGroups` |
| InstanceFormat.InstanceHeaderRoundTrip | BinaryConverter/Source/InstanceConverter.cpp:55-61 | the four counts read back unchanged |
| InstanceFormat.BoolRoundTrip | Common/Source/InstanceBinaryLoader.cpp:204-213 | a flag written as 1 or 0 reads back |
| InstanceFormat.FlagsRoundTrip | Common/Source/InstanceBinaryLoader.cpp:53-82 | the three flags read back |
| InstanceFormat.InstanceModelRoundTrip | Common/Source/InstanceBinaryLoader.cpp:53-82 | a group record with its flags reads back unchanged |
| InstanceFormat.InstanceModelSections | BinaryConverter/Source/InstanceConverter.cpp:106-137 | a group record is its name, flags, translations, rotations and scales |
| InstanceFormat.InstanceModelInverse | Common/Source/InstanceBinaryLoader.cpp:53-82 | the record decoder inverts the record encoder |
| InstanceFormat.CheckPointGroupRoundTrip | Common/Source/InstanceBinaryLoader.cpp:124-133 | a written group is read and appended |
| InstanceFormat.CheckPointGroupsStep | Common/Source/InstanceBinaryLoader.cpp:122-134 | a readable group at the front is appended and reading goes on after it |
| InstanceFormat.CheckPointGroupsRoundTrip | Common/Source/InstanceBinaryLoader.cpp:122-134 | readable groups written back to back are appended in order to the held groups |
| InstanceFormat.InstanceCheckPointsRoundTrip | Common/Source/InstanceBinaryLoader.cpp:113-136 | start, end and the groups read back, the groups appended to those held |
| InstanceConverter.InstanceLevel | BinaryConverter/Source/InstanceConverter.cpp:63-138 | one record per group of mirrored instances |
| InstanceConverter.EffectGroups | BinaryConverter/Source/InstanceConverter.cpp:250-307 | one record per group of mirrored effect placements |
| InstanceConverter.InstanceFileResult | BinaryConverter/Source/InstanceConverter.cpp:32-53 | a file is written iff it opens and the model count is non-zero |
| InstanceConverter.InstanceLevelContents | BinaryConverter/Source/InstanceConverter.cpp:63-138 | one record per distinct mesh name in first-appearance order, holding that name's mirrored instances in input order and the first matching model header's flags (zeros if none); names are distinct |
| InstanceConverter.InstanceLevelAt | BinaryConverter/Source/InstanceConverter.cpp:106-137 | record i is group i's summary with its mesh's flags |
| InstanceConverter.CheckPointGroupsContents | BinaryConverter/Source/InstanceConverter.cpp:191-248 | one group per distinct check-point number in first-appearance order, holding exactly that number's mirrored check points in input order |
| InstanceConverter.EffectGroupsContents | BinaryConverter/Source/InstanceConverter.cpp:250-307 | one record per distinct effect name in first-appearance order, holding that effect's mirrored placements |
| InstanceConverter.NegateXInvolution | BinaryConverter/Source/InstanceConverter.cpp:195-199 | start and end are mirrored in place, so a second call gives them back |
| InstanceConverter.FindFlags | BinaryConverter/Source/InstanceConverter.cpp:109-129 | the inner loop finds the first model header's flags, or zeros |
| InstanceConverter.MirrorAll | BinaryConverter/Source/InstanceConverter.cpp:203-207 | the copy-and-negate loop mirrors every element in order |
| InstanceConverter.Converter.constructor | BinaryConverter/Source/InstanceConverter.cpp:20-30 | a new converter holds zero counts and empty lists |
| InstanceConverter.Converter.Clear | BinaryConverter/Source/InstanceConverter.cpp:20-30 | `clear` zeroes the counts, the instance and effect counts and start and end; the rest stays |
| InstanceConverter.Converter.SetLevelHead | BinaryConverter/Source/InstanceConverter.cpp:321-324 | only the header changes |
| InstanceConverter.Converter.SetModelList | BinaryConverter/Source/InstanceConverter.cpp:326-330 | only the instance list changes, and all of it will be written |
| InstanceConverter.Converter.SetModelInformation | BinaryConverter/Source/InstanceConverter.cpp:362-365 | only the model headers change |
| InstanceConverter.Converter.SetLevelDirectionalLightList | BinaryConverter/Source/InstanceConverter.cpp:332-335 | only the directional list changes |
| InstanceConverter.Converter.SetLevelPointLightList | BinaryConverter/Source/InstanceConverter.cpp:337-340 | only the point list changes |
| InstanceConverter.Converter.SetLevelSpotLightList | BinaryConverter/Source/InstanceConverter.cpp:342-345 | only the spot list changes |
| InstanceConverter.Converter.SetLevelCheckPointList | BinaryConverter/Source/InstanceConverter.cpp:347-350 | only the check-point list changes |
| InstanceConverter.Converter.SetLevelCheckPointStart | BinaryConverter/Source/InstanceConverter.cpp:352-355 | only the start point changes |
| InstanceConverter.Converter.SetLevelCheckPointEnd | BinaryConverter/Source/InstanceConverter.cpp:357-360 | only the end point changes |
| InstanceConverter.Converter.SetEffectList | BinaryConverter/Source/InstanceConverter.cpp:367-371 | only the effect list changes, and all of it will be written |
| InstanceConverter.Converter.CreateHeader | BinaryConverter/Source/InstanceConverter.cpp:55-61 | writes the four counts |
| InstanceConverter.Converter.CreateLevel | BinaryConverter/Source/InstanceConverter.cpp:63-138 | writes the grouped, mirrored records with their flags |
| InstanceConverter.Converter.CreateLighting | BinaryConverter/Source/InstanceConverter.cpp:140-189 | when lights are counted, writes the kind count and one block per non-empty mirrored list |
| InstanceConverter.Converter.CreateCheckPoints | BinaryConverter/Source/InstanceConverter.cpp:191-248 | when check points are counted, mirrors start and end in place, writes them and the grouped mirrored check points; otherwise writes and changes nothing |
| InstanceConverter.Converter.CreateEffect | BinaryConverter/Source/InstanceConverter.cpp:250-307 | when effects are counted, writes the grouped mirrored placements |
| InstanceConverter.Converter.WriteFile | BinaryConverter/Source/InstanceConverter.cpp:32-53 | the outcome is `InstanceFileResult`; start and end stay mirrored after a written file with check points |
| InstanceBinaryLoader.ReadStream | Common/Source/InstanceBinaryLoader.cpp:33-39 | a successful read keeps the check-point groups held before it at the front |
| InstanceBinaryLoader.ReadStreamWithEffectCount | BinaryConverter/Source/InstanceConverter.cpp:55-61 | the four-count reader also never drops held check-point groups |
| InstanceBinaryLoader.ReadModelsPart | Common/Source/InstanceBinaryLoader.cpp:36 | reading the records keeps the header and the held groups |
| InstanceBinaryLoader.ReadLightsPart | Common/Source/InstanceBinaryLoader.cpp:37 | reading the lighting keeps header, records and held groups |
| InstanceBinaryLoader.ReadCheckPointsPart | Common/Source/InstanceBinaryLoader.cpp:38 | reading check points keeps header, records and lights, keeps the held groups in front, and changes nothing when none are counted |
| InstanceBinaryLoader.Cleared | Common/Source/InstanceBinaryLoader.cpp:215-223 | `clear` empties every list and keeps the header, start and end |
| InstanceBinaryLoader.ReadInstanceRecords | Common/Source/InstanceBinaryLoader.cpp:53-82 | the `readLevel` loop reads exactly `ReadInstanceLevel` |
| InstanceBinaryLoader.ReadCheckPointGroupsSection | Common/Source/InstanceBinaryLoader.cpp:113-136 | `readLevelCheckPoint` reads exactly `ReadInstanceCheckPoints` |
| InstanceBinaryLoader.Loader.constructor | Common/Source/InstanceBinaryLoader.cpp:5-10 | a new loader holds zero counts and empty lists, with no stream open |
| InstanceBinaryLoader.Loader.ReadLevelSection | Common/Source/InstanceBinaryLoader.cpp:53-82 | the records replace the held ones, as `ReadModelsPart` says |
| InstanceBinaryLoader.Loader.ReadLevelLighting | Common/Source/InstanceBinaryLoader.cpp:84-111 | each block replaces its kind's list, as `ReadLightsPart` says |
| InstanceBinaryLoader.Loader.ReadLevelCheckPoint | Common/Source/InstanceBinaryLoader.cpp:113-136 | start and end are replaced and groups appended, as `ReadCheckPointsPart` says |
| InstanceBinaryLoader.Loader.ReadStreamData | Common/Source/InstanceBinaryLoader.cpp:33-39 | a stream that holds every section its header counts leaves `ReadStream` of it; the model reports a shorter stream, which the void source does not (admitted under Left out) |
| InstanceBinaryLoader.Loader.LoadBinaryFile | Common/Source/InstanceBinaryLoader.cpp:22-31 | an unopenable file, or any load while the stream of an earlier one is still open, throws and changes nothing; otherwise the stream is left open, and a stream that holds every section its header counts loads as `ReadStream` of it; a shorter stream is reported as malformed, which the void source does not report (admitted under Left out) |
| InstanceBinaryLoader.Loader.Clear | Common/Source/InstanceBinaryLoader.cpp:215-223 | `clear` leaves `Cleared` of the old state and closes the stream |
| InstanceRoundTrip.InstanceLevelFits | BinaryConverter/Source/InstanceConverter.cpp:63-138 | the records of writable instances fit the reader's signed counts |
| InstanceRoundTrip.InstanceLevelSectionRoundTrip | Common/Source/InstanceBinaryLoader.cpp:53-82 | the model section reads back as the written records |
| InstanceRoundTrip.CheckPointGroupsFit | BinaryConverter/Source/InstanceConverter.cpp:191-248 | fewer than 2^31 check points give fewer than 2^31 groups, each readable |
| InstanceRoundTrip.FileSections | BinaryConverter/Source/InstanceConverter.cpp:32-53 | the file is the header, the model section and the rest, in order |
| InstanceRoundTrip.HeaderSections | Common/Source/InstanceBinaryLoader.cpp:41-51 | the four written counts are the reader's three counts followed by the effect count |
| InstanceRoundTrip.LightsStep | Common/Source/InstanceBinaryLoader.cpp:84-111 | the mirrored lighting section is read into the reader |
| InstanceRoundTrip.CheckPointsStep | Common/Source/InstanceBinaryLoader.cpp:113-136 | the check-point section reads back mirrored start and end and appends the groups, iff check points are counted |
| InstanceRoundTrip.TailRoundTrip | Common/Source/InstanceBinaryLoader.cpp:37-38 | everything after the model section reads back as written |
| InstanceRoundTrip.InstanceFileRoundTrip | BinaryConverter/Source/InstanceConverter.cpp:32-53 | read with four counts, every written file gives back the grouped records with flags, the mirrored lights and check points and the mirrored start and end |
| InstanceRoundTrip.InstanceLevelEmpty | BinaryConverter/Source/InstanceConverter.cpp:63-138 | the level has no records iff there are no instances |
| InstanceRoundTrip.ReaderLosesModels | Common/Source/InstanceBinaryLoader.cpp:41-51 | with no effects counted, the three-count reader holds no records although the file holds one per distinct mesh |
| ResourceTranslator.Lookup | Common/Source/ResourceTranslator.cpp:135-141 | the inner loop finds a name iff the table lists it, and then gives the path of its first entry |
| ResourceTranslator.LookupTyped | Common/Source/ResourceTranslator.cpp:131-143 | the outer loop finds a path iff some table of the type lists the name, and then the first such table's |
| ResourceTranslator.TypeTable | Common/Source/ResourceTranslator.cpp:131-143 | a type no table has gets no entries |
| ResourceTranslator.LookupTypedIsTypeTable | Common/Source/ResourceTranslator.cpp:131-143 | with every type listed once, the outer loop searches exactly that type's table |
| ResourceTranslator.ResourceMapTypesDistinct | Common/Source/ResourceTranslator.cpp:120-129 | the static table lists every type once |
| ResourceTranslator.TranslateByTable | Common/Source/ResourceTranslator.cpp:131-153 | a listed name gives its first entry's path; an unlisted model gets "assets/models/" + name + ".btx", an unlisted volume "assets/volumes/CB_" + name + ".txc", anything else throws |
| ResourceTranslator.LookupFirst | Common/Source/ResourceTranslator.cpp:135-141 | the first entry with the name gives the path |
| ResourceTranslator.WitchModel | Common/Source/ResourceTranslator.cpp:47 | the table entry wins over the fallback: model "WITCH" is "assets/models/Dzala.btx" |
| ResourceTranslator.WitchEntry | Common/Source/ResourceTranslator.cpp:47 | the witch entry is the first model entry with that name |
| ResourceManager.TypeIndex | Client/Source/ResourceManager.cpp:35-43 | the search finds the first list of the type, or none |
| ResourceManager.PathIndex | Client/Source/ResourceManager.cpp:61-69 | the search finds the first resource loaded from the path, or none |
| ResourceManager.IdIndex | Client/Source/ResourceManager.cpp:137-155 | the search finds the first resource with the id, or none |
| ResourceManager.ListWithId | Client/Source/ResourceManager.cpp:137-155 | the outer search finds the first list holding the id, or none |
| ResourceManager.Remove | Client/Source/ResourceManager.cpp:148-150 | `erase` removes exactly one element and keeps the others in order |
| ResourceManager.CountOf | Client/Source/ResourceManager.cpp:135-162 | in a valid table, an id has a count of at least 1 iff it is loaded |
| ResourceManager.RegisterSpec | Client/Source/ResourceManager.cpp:33-49 | registering a known type returns false and changes nothing; a new type is appended with no resources and true is returned |
| ResourceManager.LoadExisting | Client/Source/ResourceManager.cpp:61-69 | loading a path already loaded for the type counts one more reference and returns its id, whatever the create callback would do |
| ResourceManager.LoadFresh | Client/Source/ResourceManager.cpp:71-89 | a fresh successful load takes the next id with count 1 and the next id moves on; a failing create throws and adds nothing; an unregistered type gives -1 |
| ResourceManager.ListValidLater | Client/Source/ResourceManager.cpp:18 | ids valid below one bound are valid below a larger one |
| ResourceManager.LoadValid | Client/Source/ResourceManager.cpp:52-90 | every load keeps the table valid, never lowers the next id, and hands out ids below it |
| ResourceManager.NoListWithId | Client/Source/ResourceManager.cpp:137-155 | no list holds the id iff it is loaded nowhere |
| ResourceManager.ReleaseAtValid | Client/Source/ResourceManager.cpp:145-155 | releasing at a position keeps the table valid and the next id |
| ResourceManager.ReleaseValid | Client/Source/ResourceManager.cpp:135-162 | releasing keeps the table valid, returns true iff the id is loaded and changes nothing otherwise |
| ResourceManager.ReleaseCountDown | Client/Source/ResourceManager.cpp:145-147 | releasing one of several references counts down and calls no release callback |
| ResourceManager.ReleaseLast | Client/Source/ResourceManager.cpp:145-155 | releasing the last reference calls the release callback with the resource's name and erases the entry |
| ResourceManager.ReleaseOthers | Client/Source/ResourceManager.cpp:137-155 | releasing one id leaves every other id's count unchanged |
| ResourceManager.ReleaseAtOthers | Client/Source/ResourceManager.cpp:145-155 | releasing at a position leaves every other id's count unchanged |
| ResourceManager.CountOfFrame | Client/Source/ResourceManager.cpp:145-155 | a change confined to one list that keeps another id's resource keeps its count |
| ResourceManager.RemovedOther | Client/Source/ResourceManager.cpp:148-150 | erasing one resource leaves another id's resource findable and unchanged |
| ResourceManager.CountedOther | Client/Source/ResourceManager.cpp:145-147 | counting one resource down leaves another id's resource unchanged |
| ResourceManager.Manager.constructor | Client/Source/ResourceManager.cpp:14-19 | a new manager has no types and hands out 0 first |
| ResourceManager.Manager.RegisterFunction | Client/Source/ResourceManager.cpp:33-49 | the new state and result are `Register` of the old state |
| ResourceManager.Manager.LoadResource | Client/Source/ResourceManager.cpp:52-90 | the new state and result are loading the translated path |
| ResourceManager.Manager.LoadModelTextureImpl | Client/Source/ResourceManager.cpp:97-133 | a texture is loaded by the path it is given, without translation |
| ResourceManager.Manager.LoadPath | Client/Source/ResourceManager.cpp:52-90 | the shared search loops give exactly `Load` |
| ResourceManager.Manager.ReleaseResource | Client/Source/ResourceManager.cpp:135-164 | the new state and result are `Release` of the old state |
| EventManager.FirstOf | Client/Source/EventManager.cpp:103-120 | the earliest queued event of the type, or none |
| EventManager.Handled | Client/Source/EventManager.cpp:135-159 | the drain loop handles at most all events, and at least one of a non-empty queue |
| EventManager.HandledFrom | Client/Source/EventManager.cpp:135-159 | from event i on, the loop ends between i and the queue's end |
| EventManager.AddThenRemove | Client/Source/EventManager.cpp:19-55 | adding a new delegate and removing it restores the type's listeners; the map entry stays |
| EventManager.RemoveFirstAppended | Client/Source/EventManager.cpp:33-55 | removing a just-appended delegate that was not there before gives the old list |
| EventManager.RemoveFirstCount | Client/Source/EventManager.cpp:33-55 | `removeListener` erases exactly one occurrence of a present delegate and nothing otherwise |
| EventManager.DispatchAllAppend | Client/Source/EventManager.cpp:135-159 | handling two runs of events calls the listeners as handling them in one run |
| EventManager.AbortAllSpec | Client/Source/EventManager.cpp:92-123 | aborting all of a type leaves every other event and none of it, and removes something iff one was queued |
| EventManager.AbortAllAppend | Client/Source/EventManager.cpp:92-123 | aborting all of a type works piece by piece |
| EventManager.AbortAllAt | Client/Source/EventManager.cpp:104-120 | one erase-loop step: the event goes iff it has the type |
| EventManager.AbortFirstSpec | Client/Source/EventManager.cpp:92-123 | aborting the earliest event of a type removes one event iff one is queued, and agrees with aborting all |
| EventManager.NoBudgetHandlesAll | Client/Source/EventManager.cpp:127-159 | without a time budget the whole queue is handled |
| EventManager.HandledFromNoDeadline | Client/Source/EventManager.cpp:127-159 | without a deadline the loop runs to the end from any point |
| EventManager.HandledStopsAtDeadline | Client/Source/EventManager.cpp:154-158 | the loop stops at the first clock reading that reaches the deadline; every earlier one was short of it |
| EventManager.Reading | Client/Source/EventManager.cpp:175-181 | `getTickCount` yields the performance counter reduced to a 32-bit `unsigned long`, and a counter already in range unchanged |
| EventManager.WrappedDeadlineStopsEarly | Client/Source/EventManager.cpp:127-129 | a budget that carries the `unsigned long` deadline past 2^32 wraps it below the starting clock value, so with a clock that has not moved only the first event is handled |
| EventManager.Manager.constructor | Client/Source/EventManager.cpp:8-12 | a new manager has no listeners, two empty queues and queue 0 active |
| EventManager.Manager.AddListenerTo | Client/Source/EventManager.cpp:19-31 | a delegate already registered for the type throws and changes nothing; otherwise it is appended |
| EventManager.Manager.RemoveListenerFrom | Client/Source/EventManager.cpp:33-55 | the new listeners and result are `RemoveListener` of the old ones |
| EventManager.Manager.TriggerEvent | Client/Source/EventManager.cpp:57-75 | every listener of the event's type is called in order, and true is returned iff one was |
| EventManager.Manager.QueueEvent | Client/Source/EventManager.cpp:77-90 | throws when the active index is out of range; otherwise appends iff the type has a map entry and returns that |
| EventManager.Manager.AbortEvent | Client/Source/EventManager.cpp:92-123 | throws when the active index is out of range; otherwise removes the earliest or all events of the type and returns whether one was queued |
| EventManager.Manager.TickUpdate | Client/Source/EventManager.cpp:125-173 | rotates the active index, drains the old queue in order until a 32-bit clock reading reaches the deadline, which wraps modulo 2^32, moves leftovers to the front of the new queue in order, and returns whether all were handled |
| EventManager.Manager.Drain | Client/Source/EventManager.cpp:135-159 | handles exactly the first `Handled` events in order and leaves the rest |
| EventManager.Manager.MoveLeftovers | Client/Source/EventManager.cpp:161-170 | the leftovers go to the front of the active queue in their original order |
| EventManager.Erase | Client/Source/EventManager.cpp:100-120 | the erase loop leaves `Abort` of the queue and reports whether one was of the type |
| TweakSettings.BelowIrreflexive | Common/Source/TweakSettings.cpp:44-50 | the name order the settings map keeps never puts a name before itself |
| TweakSettings.BelowTransitive | Common/Source/TweakSettings.cpp:44-50 | the name order is transitive |
| TweakSettings.BelowTotal | Common/Source/TweakSettings.cpp:44-50 | of two different names one comes first |
| TweakSettings.Lookup | Common/Source/TweakSettings.cpp:101-108 | `find` gives a stored entry with the name, and none only when no entry has it |
| TweakSettings.LookupPut | Common/Source/TweakSettings.cpp:147 | after `m_Settings[name]` is written, the name finds the new entry and every other name what it found before |
| TweakSettings.PutSorted | Common/Source/TweakSettings.cpp:147 | storing keeps the entries in strictly increasing name order and adds no entry but the new one |
| TweakSettings.SetThenLookup | Common/Source/TweakSettings.cpp:145-161 | after `setSetting` the name finds the new value with the listener it had; other names are unaffected |
| TweakSettings.BoolRoundTrip | Common/Source/TweakSettings.cpp:128-143 | what the bool `setSetting` (lines 173-176) writes, the bool `querySetting` reads back |
| TweakSettings.ParseBoolIgnoresCase | Common/Source/TweakSettings.cpp:134-141 | `boost::iequals` makes the bool reading blind to letter case |
| TweakSettings.NotifyOnce | Common/Source/TweakSettings.cpp:149-160 | a set calls at most the setting's own listener, none when it has none, and a string listener with the value |
| TweakSettings.Descriptions | Common/Source/TweakSettings.cpp:91-99 | one "name = value" line per setting, in map order |
| TweakSettings.Saved | Common/Source/TweakSettings.cpp:39-55 | one `Setting` element with both attributes per setting, in map order |
| TweakSettings.Plain | Common/Source/TweakSettings.cpp:77-88 | a fresh store after loading holds the same names and values with no listeners |
| TweakSettings.PutLast | Common/Source/TweakSettings.cpp:147 | storing a name above every stored name appends it |
| TweakSettings.LoadSaved | Common/Source/TweakSettings.cpp:39-89 | loading what `saveSettings` wrote into an empty store gives back every setting's name and value in order |
| TweakSettings.Settings.constructor | Common/Source/TweakSettings.cpp:24 | a new store is empty |
| TweakSettings.Settings.SetSetting | Common/Source/TweakSettings.cpp:145-161 | the value is stored, the order kept, and then the setting's listener is called with it |
| TweakSettings.Settings.SetInt | Common/Source/TweakSettings.cpp:168-171 | stores `std::to_string` of the int, as the string overload does |
| TweakSettings.Settings.SetBool | Common/Source/TweakSettings.cpp:173-176 | stores "true" or "false", as the string overload does |
| TweakSettings.Settings.SetListener | Common/Source/TweakSettings.cpp:178-219 | replaces the setting's listener, creating the setting with an empty value if needed |
| TweakSettings.Settings.QueryString | Common/Source/TweakSettings.cpp:101-108 | the stored value, or the output left as it was |
| TweakSettings.Settings.QueryInt | Common/Source/TweakSettings.cpp:119-126 | `std::stoi` of the stored value, an exception when it is not a number, or the output left as it was |
| TweakSettings.Settings.QueryBool | Common/Source/TweakSettings.cpp:128-143 | the output changes only when the stored value is "true" or "false" in any case |
| TweakSettings.Settings.GetSettings | Common/Source/TweakSettings.cpp:91-99 | the loop builds exactly `Descriptions` |
| TweakSettings.Settings.SaveSettings | Common/Source/TweakSettings.cpp:39-55 | the loop builds exactly `Saved` |
| TweakSettings.Settings.LoadSettings | Common/Source/TweakSettings.cpp:57-89 | an empty stream and a document without the root element throw and change nothing; otherwise every element with both attributes is set in document order |
| TweakSettings.Singleton.constructor | Common/Source/TweakSettings.cpp:9-10 | no master and no instance at start |
| TweakSettings.Singleton.GetInstance | Common/Source/TweakSettings.cpp:12-20 | throws until an instance is set, then returns it |
| TweakSettings.Singleton.InitializeMaster | Common/Source/TweakSettings.cpp:22-26 | a new empty store becomes both master and instance |
| TweakSettings.Singleton.InitializeSlave | Common/Source/TweakSettings.cpp:28-31 | the instance becomes the given store and the master is kept |
| TweakSettings.Singleton.Shutdown | Common/Source/TweakSettings.cpp:33-37 | both the instance and the master are cleared |
| TweakCommand.SubcommandsDistinct | Common/Source/TweakCommand.cpp:27-42 | no two subcommand names match each other in any case |
| TweakCommand.PlanIgnoresCase | Common/Source/TweakCommand.cpp:27-42 | the subcommand's letter case does not change what runs |
| TweakCommand.IEqualsTransitive | Common/Source/TweakCommand.cpp:27-42 | case-blind equality is transitive |
| TweakCommand.PlanCounts | Common/Source/TweakCommand.cpp:19-147 | fewer than two arguments do nothing; `set` needs exactly four; `save` and `load` two or three, with the default file at two; `list` two or three |
| TweakCommand.ListLines | Common/Source/TweakCommand.cpp:130-136 | listing all logs one info line per setting description |
| TweakCommand.ExecuteChanges | Common/Source/TweakCommand.cpp:19-147 | only `set` and a successful `load` change settings; only `save` to a writable path writes a document, to the absolute form of the file name; without an instance a command that reaches `getInstance` throws |
| TweakCommand.Run | Common/Source/TweakCommand.cpp:19-147 | the command against the process-wide instance does what `Execute` says, `save` and `load` logging and opening the file name made absolute, and keeps the store valid |
| ConnectionController.TypeOf | Network/Source/ConnectionController.cpp:45-52 | a handle past the queue is RESERVED; otherwise the type of the queued package it indexes |
| ConnectionController.ReceiveSpec | Network/Source/ConnectionController.cpp:82-97 | a registered type appends exactly one package and keeps every queued handle's type; an unregistered one adds none |
| ConnectionController.ClearShifts | Network/Source/ConnectionController.cpp:39-43 | after clearing n packages, handle h names what h + n named |
| ConnectionController.ClearTwice | Network/Source/ConnectionController.cpp:39-43 | clearing a then b packages clears a + b |
| ConnectionController.ClearAllThenReceive | Network/Source/ConnectionController.cpp:39-43 | a package received after everything was cleared is the only one queued |
| ConnectionController.Controller.constructor | Network/Source/ConnectionController.cpp:5-12 | the controller keeps its prototypes and connection and starts with nothing received or written |
| ConnectionController.Controller.NumPackages | Network/Source/ConnectionController.cpp:29-32 | the number of received packages |
| ConnectionController.Controller.GetPackage | Network/Source/ConnectionController.cpp:34-37 | the handle is the index itself |
| ConnectionController.Controller.GetPackageType | Network/Source/ConnectionController.cpp:45-52 | the type `TypeOf` gives |
| ConnectionController.Controller.ClearPackages | Network/Source/ConnectionController.cpp:39-43 | erases the n oldest packages and writes nothing |
| ConnectionController.Controller.WriteData | Network/Source/ConnectionController.cpp:74-80 | forwards the buffer and id only when there is a connection |
| ConnectionController.Controller.SavePackage | Network/Source/ConnectionController.cpp:82-97 | the first prototype of the id's type builds a package and queues it; otherwise the message is dropped |
| FontCollectionLoader.KeyRecord | Graphics/Source/FontCollectionLoader.cpp:431-436 | one key record is the name's length as four little-endian bytes, then the name |
| FontCollectionLoader.ParseKey | Graphics/Source/FontCollectionLoader.cpp:60-78 | reading a key fails only with E_INVALIDARG |
| FontCollectionLoader.KeyRoundTrip | Graphics/Source/FontCollectionLoader.cpp:60-78 | the key `CreateFontCollection` builds (lines 430-437) decodes to the same names in the same order |
| FontCollectionLoader.TruncatedKeyRefused | Graphics/Source/FontCollectionLoader.cpp:71-74 | a key whose last name is cut short is refused |
| FontCollectionLoader.BuildKey | Graphics/Source/FontCollectionLoader.cpp:430-437 | the writing loop builds exactly `Key` of the file names |
| FontCollectionLoader.ParseKeyStep | Graphics/Source/FontCollectionLoader.cpp:68-77 | one record that fits is taken, and reading goes on after it |
| FontCollectionLoader.ParseKeyFails | Graphics/Source/FontCollectionLoader.cpp:63-74 | a length prefix or a name that runs past the key's end fails the whole key |
| FontCollectionLoader.PrependOkAssoc | Graphics/Source/FontCollectionLoader.cpp:76 | names taken in two steps are the names taken at once |
| FontCollectionLoader.DecodeKey | Graphics/Source/FontCollectionLoader.cpp:58-78 | the reading loop gives exactly `ParseKey` of the key |
| FontCollectionLoader.Enumerator.constructor | Graphics/Source/FontCollectionLoader.cpp:95-116 | an enumerator holds the names, starts at index 0 and has no current file |
| FontCollectionLoader.Enumerator.MoveNext | Graphics/Source/FontCollectionLoader.cpp:147-171 | the index advances and a current file exists iff there is a next name and the reference call succeeded; the result is that call's, or S_OK past the end |
| FontCollectionLoader.CreateEnumeratorFromKey | Graphics/Source/FontCollectionLoader.cpp:43-91 | E_INVALIDARG exactly for a malformed key; otherwise a new enumerator over the decoded names at index 0 |
| FontCollectionLoader.FragmentInRangeSpec | Graphics/Source/FontCollectionLoader.cpp:314-315 | the unsigned range test accepts exactly the fragments inside the file |
| FontCollectionLoader.FileStream.constructor | Graphics/Source/FontCollectionLoader.cpp:229-253 | the stream holds the file's bytes |
| FontCollectionLoader.FileStream.ReadFileFragment | Graphics/Source/FontCollectionLoader.cpp:307-327 | the bytes from the offset when they lie inside the file, otherwise E_FAIL |
| FontCollectionLoader.FileStream.GetFileSize | Graphics/Source/FontCollectionLoader.cpp:335-341 | the file's length |
| FontCollectionLoader.FontContext.constructor | Graphics/Source/FontCollectionLoader.cpp:353-357 | the cached result starts at S_FALSE |
| FontCollectionLoader.FontContext.Initialize | Graphics/Source/FontCollectionLoader.cpp:363-370 | the internal initialiser runs only while the cache holds S_FALSE, and the cache is returned |
| FontCollectionLoader.FontContext.CreateFontCollection | Graphics/Source/FontCollectionLoader.cpp:407-447 | a failed initialisation is returned with no key built; otherwise the folder's files are encoded into the key and the factory's result returned |
| FontCollectionLoader.InitializeSticks | Graphics/Source/FontCollectionLoader.cpp:363-370 | after an initialisation that produced a result other than S_FALSE, a second `Initialize` returns that result whatever the initialiser would give; a cache already set is never changed; an initialiser answering S_FALSE runs again next time |
| VRAMInfo.BytesPerPixel | Graphics/Source/VRAMMemInfo.h:15-25 | the listed formats take 4, 8, 12 or 16 bytes per pixel; no other format has a size |
| VRAMInfo.FormatUsage | Graphics/Source/VRAMInfo.cpp:28-80 | an unlisted format throws; otherwise bytes per pixel times width times height modulo 2^32 |
| VRAMInfo.FormatUsageExact | Graphics/Source/VRAMInfo.cpp:28-80 | a texture whose size fits in 32 bits gets its exact byte count |
| VRAMInfo.UpdateUndone | Graphics/Source/VRAMInfo.cpp:23-26 | adding a size and then its negation restores the counter, wrap-around included |
| VRAMInfo.UpdatesCompose | Graphics/Source/VRAMInfo.cpp:23-26 | two updates are one update by their sum |
| VRAMInfo.Megabytes | Graphics/Source/VRAMInfo.cpp:18-21 | the whole number of megabytes of 1000000 bytes in the counter |
| VRAMInfo.InitialUsage | Graphics/Source/VRAMMemInfo.h:2-4 | the overhead the counter starts at is 10 MB |
| VRAMInfo.Info.constructor | Graphics/Source/VRAMInfo.cpp:82-85 | the counter starts at the overhead |
| VRAMInfo.Info.GetUsage | Graphics/Source/VRAMInfo.cpp:18-21 | the counter's megabytes |
| VRAMInfo.Info.UpdateUsage | Graphics/Source/VRAMInfo.cpp:23-26 | the counter moves by the int size, in unsigned 32-bit arithmetic |
| VRAMInfo.Info.CalculateFormatUsage | Graphics/Source/VRAMInfo.cpp:28-80 | the switch gives `FormatUsage` |
| VRAMInfo.Registry.constructor | Graphics/Source/VRAMInfo.cpp:3 | no instance at start |
| VRAMInfo.Registry.GetInstance | Graphics/Source/VRAMInfo.cpp:5-11 | the existing instance, or a new one at the overhead |
| VRAMInfo.Registry.Shutdown | Graphics/Source/VRAMInfo.cpp:13-16 | the instance is dropped |
| TextureLoader.Extension | Graphics/Source/TextureLoader.cpp:36-45 | the `strtok` loop yields the file name's last dot-separated token, and none only for a name of dots alone |
| TextureLoader.LastToken | Graphics/Source/TextureLoader.cpp:36-45 | the extension `strtok` leaves is the one last token of the name, whichever bounds describe it |
| TextureLoader.LastTokenExists | Graphics/Source/TextureLoader.cpp:36-45 | a name that is not all dots has a last token |
| TextureLoader.LastTokenUnique | Graphics/Source/TextureLoader.cpp:36-45 | a name has one last token at most |
| TextureLoader.Compatibility | Graphics/Source/TextureLoader.cpp:113-137 | a match before the last entry selects WIC, the last entry DDS; an empty list or a miss refuses |
| TextureLoader.DefaultCompatibility | Graphics/Source/TextureLoader.cpp:3-19 | with the constructor's list only "dds" goes to the DDS loader, "png" to WIC, and matching is case-sensitive |
| TextureLoader.DestroyedRefusesAll | Graphics/Source/TextureLoader.cpp:27-32 | after `destroy` every file is refused |
| TextureLoader.TextureLoader.constructor | Graphics/Source/TextureLoader.cpp:3-19 | the list is the eleven extensions, "dds" last |
| TextureLoader.TextureLoader.Destroy | Graphics/Source/TextureLoader.cpp:27-32 | the list is emptied |
| TextureLoader.TextureLoader.CheckCompatibility | Graphics/Source/TextureLoader.cpp:113-137 | the loop gives `Compatibility` |
| TextureLoader.TextureLoader.CreateTextureFromFile | Graphics/Source/TextureLoader.cpp:34-111 | no view exactly when `checkCompability` of the name's last token refuses it, before any load; otherwise a view through exactly the loader the extension selects when the load succeeds, and the loader's exception, with its message, when it fails |
| Buffer.TypeBind | Graphics/Source/Buffer.cpp:49-83 | the type switch gives bind flags for the listed types, stream output only for a stream-out vertex buffer, and none for an unlisted type (or a structured buffer outside `initializeEx`, lines 183-222) |
| Buffer.UsageAccess | Graphics/Source/Buffer.cpp:91-141 | CPU read on anything but a staging buffer throws; CPU read access is granted only to a CPU-read staging buffer; both CPU-write usages are dynamic with write access |
| Buffer.RoundUp16Spec | Graphics/Source/Buffer.cpp:153 | the byte width is rounded up to a multiple of 16, or wraps to 0 within 16 of 2^32 |
| Buffer.RoundPast16Spec | Graphics/Source/Buffer.cpp:295 | `initializeEx` rounds to the next multiple of 16 strictly above, so an exact multiple gains 16 bytes |
| Buffer.DescribeOutcomes | Graphics/Source/Buffer.cpp:37-169 | `initialize` stops with S_FALSE only for an unlisted type, throws for CPU read on a non-staging buffer, and otherwise describes the rounded size, stream output and CPU write as the switches say |
| Buffer.DescribeExViews | Graphics/Source/Buffer.cpp:171-323 | without initial data `initializeEx` adds exactly the requested shader-resource and unordered-access views, marks structured buffers, and rounds past 16 |
| Buffer.Stages | Graphics/Source/Buffer.cpp:325-383 | the stages each type binds to; staging, structured and unlisted types give S_FALSE |
| Buffer.MapKindAsWritten | Graphics/Source/Buffer.cpp:440-479 | `map` as written passes the usage's ordinal as the map type, for the mappable usages only |
| Buffer.MapKindAsWrittenMismatch | Graphics/Source/Buffer.cpp:440-479 | as written, a CPU-read staging buffer is mapped for write-discard and a write-discard buffer for read-write, neither matching the access it was created with |
| Buffer.MapKind | Graphics/Source/Buffer.cpp:445-478 | each mappable usage names a map type |
| Buffer.MapKindMatchesAccess | Graphics/Source/Buffer.cpp:91-141 | the corrected map type asks for exactly the CPU access the buffer was created with, write-discard only for a write-discard buffer |
| Buffer.Buffer.StoreUsage | Graphics/Source/Buffer.cpp:87-141 | the usage and sizes are stored and the usage switch's outcome returned |
| Buffer.Buffer.Initialize | Graphics/Source/Buffer.cpp:37-169 | the type is stored first; the usage and sizes only once the type is known; the outcome is `Describe` |
| Buffer.Buffer.InitializeEx | Graphics/Source/Buffer.cpp:171-323 | as `Initialize`, with the outcome `DescribeEx` |
| Buffer.Buffer.SetBuffer | Graphics/Source/Buffer.cpp:325-438 | S_OK with the type's stages bound, or S_FALSE and no stage |
| Buffer.Buffer.Map | Graphics/Source/Buffer.cpp:440-479 | the corrected `map` of the Findings table: the device is asked to map only for the three CPU usages, for exactly the CPU access the buffer was created with (write-discard only for a write-discard buffer), and a pointer results only when that call succeeds; the cited lines pass the usage's ordinal instead, which `MapKindAsWritten` models |
| Buffer.Buffer.GetNumOfElements | Graphics/Source/Buffer.cpp:32-35 | the element count |
| Buffer.Buffer.GetSizeOfElementAsWritten | Graphics/Source/Buffer.cpp:27-30 | as written the getter returns the element count |
| Buffer.Buffer.GetSizeOfElement | Graphics/Source/Buffer.cpp:27-30 | the element size, as the getter's name promises |
| Buffer.SizeGetterCounterexample | Graphics/Source/Buffer.cpp:27-30 | three elements of four bytes: the getter as written reports 3 |
| Components.ComponentId | Common/Source/Components.h:19 | each component interface's id lies in 1..8 (lines 19, 439, 621, 818, 898, 1088, 1181, 1247) |
| Components.ComponentIdsDistinct | Common/Source/Components.h:1247 | different component kinds never share an id |
| Components.FindScale | Common/Source/Components.h:546-554 | the search finds the first scale with the name, or none when no entry has it |
| Components.WithScaleSpec | Common/Source/Components.h:544-559 | after `updateScale` the name maps to the new scale, other names keep theirs, names stay unique, and the list grows only for a new name |
| Components.FindInUnique | Common/Source/Components.h:546-554 | in a list of unique names an entry is found exactly where it sits |
| Components.WithoutScaleSpec | Common/Source/Components.h:560-571 | after `removeScale` the name is gone, other names keep their scales, names stay unique, and the list shrinks only when the name was there |
| Components.RemoveUndoesAdd | Common/Source/Components.h:544-571 | removing a scale just added under a fresh name restores the list |
| Components.FindLast | Common/Source/Components.h:556 | a pushed-back new name is found at the end |
| Components.ModelComponent.constructor | Common/Source/Components.h:476-481 | no scales applied and no scale events posted |
| Components.ModelComponent.Initialize | Common/Source/Components.h:489-516 | a missing mesh throws and changes nothing; otherwise the mesh is stored and scale and colour tone default to one, overridden attribute by attribute |
| Components.ModelComponent.CalculateScale | Common/Source/Components.h:601-611 | posts the base scale multiplied by every applied scale |
| Components.ModelComponent.UpdateScale | Common/Source/Components.h:544-559 | the list becomes `WithScale` and the new composed scale is posted |
| Components.ModelComponent.RemoveScale | Common/Source/Components.h:560-571 | swap-and-pop removal, with no composed scale posted |
| Components.PulseSettingsAsWrittenSwap | Common/Source/Components.h:840-849 | as written, a pulse of length 2 and strength 0.2 gets length 0.2 and strength 0.5 |
| Components.PulseSettings | Common/Source/Components.h:840-849 | the intended reading: length from "Length" (default 1), strength from "Strength" (default 0.5) |
| Components.PulseComponent.Initialize | Common/Source/Components.h:840-849 | the corrected `initialize` of the Findings table: the length from "Length" (default 1) and the strength from "Strength" (default 0.5), the time starting at the length so no pulse runs until `pulseOnce`; line 846 as written reads "Strength" into the length, which `PulseSettingsAsWritten` models |
| Components.PulseComponent.PulseOnce | Common/Source/Components.h:886-889 | the time is reset to 0 |
| Components.PulseComponent.OnUpdate | Common/Source/Components.h:851-876 | while a pulse runs the time advances; inside it the model gets the pulse scale, at its end the scale is removed; outside a pulse nothing changes |
| Components.PulseLeavesNoScale | Common/Source/Components.h:851-876 | a pulse that starts with no pulse scale leaves none once it has run out |
| Components.LightFrom | Common/Source/Components.h:919-1016 | the "Type" attribute picks point, spot or directional, anything else throws; range, direction and colour are read with their defaults |
| Components.LightComponent.constructor | Common/Source/Components.h:908-911 | no light until initialised |
| Components.LightComponent.Initialize | Common/Source/Components.h:919-1016 | an unknown type throws and leaves the light as it was; otherwise the light is `LightFrom` |
| Components.DefaultPointLight | Common/Source/Components.h:921-946 | a point light with only a type sits at the origin with range 2000 and white colour |
| SplineControl.RecordedTime | Common/Source/SplineControlComponent.cpp:184-190 | a sequence's first point stores time 0; a later point the time since the previous one, capped at 20 seconds |
| SplineControl.Popped | Common/Source/SplineControlComponent.cpp:216-219 | dropping the last point keeps the four lists aligned, one shorter, and keeps every stored time within the cap |
| SplineControl.PushedWellFormed | Common/Source/SplineControlComponent.cpp:193-196 | recording a point with a capped time keeps the sequence well formed and stores that time last |
| SplineControl.PopUndoesPush | Common/Source/SplineControlComponent.cpp:193-219 | removing the previous point undoes recording it |
| SplineControl.Cleared | Common/Source/SplineControlComponent.cpp:223-230 | the current sequence is erased when it exists, the others keep their order, and one empty sequence is added when none remain |
| SplineControl.ClearedWellFormed | Common/Source/SplineControlComponent.cpp:223-230 | clearing keeps every sequence well formed |
| SplineControl.ClearLastLeavesIndexPastEnd | Common/Source/SplineControlComponent.cpp:223-230 | clearing the last of several sequences leaves the current index past the end, where the next `at` throws |
| SplineControl.Recorder.constructor | Common/Source/SplineControlComponent.cpp:85-88 | one empty sequence, selected, with both clocks at 0 and no run active |
| SplineControl.Recorder.RecordPoint | Common/Source/SplineControlComponent.cpp:176-199 | with the components attached, the pose and capped time are appended to the current sequence and the clock reset; an index past the end throws |
| SplineControl.Recorder.RemovePreviousPoint | Common/Source/SplineControlComponent.cpp:200-222 | the camera returns to the current sequence's last point and that point is dropped; an index past the end throws |
| SplineControl.Recorder.ClearSequence | Common/Source/SplineControlComponent.cpp:223-230 | the list becomes `Cleared` and the current index is left where it was |
| SplineControl.Recorder.RunSpline | Common/Source/SplineControlComponent.cpp:232-247 | a run starts only when none is active, the unsigned cast of the index names a sequence, and that sequence has two points; otherwise the valid range is logged; a negative index in range throws |
| SplineControl.Recorder.NewSequence | Common/Source/SplineControlComponent.cpp:369-373 | an empty sequence is appended and the current index steps by one |
| SplineControl.Recorder.SelectSequence | Common/Source/SplineControlComponent.cpp:380-408 | any sequence but the first can be selected, the camera then going to its last point; other indices are logged |
| SplineControl.Recorder.Move | Common/Source/SplineControlComponent.cpp:91-144 | without a run only the recording clock advances; with a run and both components attached the clock advances by `dt`, the index steps by one exactly when the new clock reaches the next point's time (which is then taken off the clock), and the run finishes, resetting clock and index to 0 and deactivating, exactly when that index passes the sequence's size minus 2; otherwise the point interpolated from is reported; an index past the sequence or its times throws |
| InputTranslator.ButtonFlag | Client/Source/Input/InputTranslator.cpp:78-87 | the five buttons have a single-bit down flag; any other button has none |
| InputTranslator.KeyRecordsEmpty | Client/Source/Input/InputTranslator.cpp:150-158 | a key produces records iff some mapping has that key |
| InputTranslator.KeyRecordsFromMappings | Client/Source/Input/InputTranslator.cpp:150-158 | every record carries the key's value and the action of a mapping for that key |
| InputTranslator.KeyMappedTwice | Client/Source/Input/InputTranslator.cpp:57-63 | a key mapped twice produces both actions, in order |
| InputTranslator.KeyRecordsAppendTwo | Client/Source/Input/InputTranslator.cpp:150-158 | two mappings appended after a list without the key produce exactly their two records |
| InputTranslator.ButtonDownAndUp | Client/Source/Input/InputTranslator.cpp:184-201 | a mapped button's down flag alone reports 1 and its up flag alone reports 0 |
| InputTranslator.MovementRecords | Client/Source/Input/InputTranslator.cpp:220-238 | each axis mapping yields two records |
| InputTranslator.Translator.constructor | Client/Source/Input/InputTranslator.cpp:6-9 | no window, no handler, no mappings and no records |
| InputTranslator.Translator.Init | Client/Source/Input/InputTranslator.cpp:11-41 | a null window throws before anything is registered; a failed registration throws; otherwise the window is attached |
| InputTranslator.Translator.Destroy | Client/Source/Input/InputTranslator.cpp:43-50 | the keyboard mappings, handler and window are dropped; the mouse mappings stay |
| InputTranslator.Translator.SetRecordHandler | Client/Source/Input/InputTranslator.cpp:52-55 | the handler is replaced and nothing else changes |
| InputTranslator.Translator.AddKeyboardMapping | Client/Source/Input/InputTranslator.cpp:57-63 | the mapping is appended |
| InputTranslator.Translator.AddMouseMapping | Client/Source/Input/InputTranslator.cpp:65-71 | the axis mapping is appended |
| InputTranslator.Translator.AddMouseButtonMapping | Client/Source/Input/InputTranslator.cpp:73-91 | an unknown button throws and adds nothing; otherwise the button's down flag is mapped |
| InputTranslator.Translator.HandleKeyboardInput | Client/Source/Input/InputTranslator.cpp:140-161 | value 1 for a press and 0 for a release, one record per matching mapping, handled iff one matched |
| InputTranslator.Translator.EmitButtonRecords | Client/Source/Input/InputTranslator.cpp:186-200 | the button loop emits exactly `ButtonRecords`, handled iff it emitted one |
| InputTranslator.EmitButton | Client/Source/Input/InputTranslator.cpp:188-199 | one mapping reports its action with 1 when its down flag is set, then with 0 when its up flag is |
| InputTranslator.Translator.EmitMovementRecords | Client/Source/Input/InputTranslator.cpp:220-238 | the axis loop emits exactly `MovementRecords` |
| InputTranslator.Translator.HandleMouseInput | Client/Source/Input/InputTranslator.cpp:163-241 | button records first; movement records only with axis mappings, the cursor inside the window and a non-zero move; handled iff any record was emitted |
| InputTranslator.Translator.HandleRawInput | Client/Source/Input/InputTranslator.cpp:93-138 | nothing is handled without a handler; unreadable data throws; keyboard data gives one record per matching key mapping, handled iff one matched; mouse data gives the button records, then the movement records when axis mappings exist, the cursor is inside the window and the mouse moved, handled iff any record was emitted; other devices are not handled |
| Gamepad.ButtonsAfter | Client/Source/Input/Gamepad.cpp:80-108 | after a report every listed button is down, every other known button up, and the known buttons are the old ones plus the listed |
| Gamepad.AxesAfterSpec | Client/Source/Input/Gamepad.cpp:63-75 | after the axis reads every reported axis is known and holds the value of its last report, every other axis keeps its value, and no other axis appears |
| Gamepad.ButtonsAfterIdempotent | Client/Source/Input/Gamepad.cpp:80-108 | two identical reports leave the state of one |
| Gamepad.Pad.constructor | Client/Source/Input/Gamepad.cpp:6-41 | no button or axis known |
| Gamepad.Pad.CheckButtons | Client/Source/Input/Gamepad.cpp:80-108 | the two loops give `ButtonsAfter`; axes are unchanged |
| Gamepad.Pad.CheckAxis | Client/Source/Input/Gamepad.cpp:110-123 | the axis ends up holding the reported value, inserted or overwritten |
| Gamepad.Pad.HandleInput | Client/Source/Input/Gamepad.cpp:43-78 | buttons first when the device has a button page, then each axis in turn; on success the buttons are `ButtonsAfter` and the axes `AxesAfter` the report, and true is returned; the first failed HID call throws its status, leaving the axes read before it |
| Gamepad.ButtonsOnlyGrow | Client/Source/Input/Gamepad.cpp:94-107 | a report never forgets a known button |
| Gamepad.ReleaseMissing | Client/Source/Input/Gamepad.cpp:82-92 | the first loop keeps the known buttons and leaves down exactly those down and reported |
| Gamepad.PressListed | Client/Source/Input/Gamepad.cpp:94-107 | the second loop inserts every reported button, sets it down, and leaves the others as they were |
| Scenes.Fresh | Client/Source/Scenes/MenuScene.cpp:3-12 | a scene as constructed (also GameScene.cpp lines 10-28): hidden, no change pending, new scene id 0 |
| Scenes.WithVisible | Client/Source/Scenes/MenuScene.cpp:68-73 | `setIsVisible` sets the flag; a menu scene also drops a pending list switch, a game scene (GameScene.cpp lines 204-207) keeps it |
| Scenes.OnFrame | Client/Source/Scenes/GameScene.cpp:87-105 | a game scene first takes the game logic's request; a pending change is reported and hides the scene; otherwise a pending list switch is reported as -1; otherwise nothing is written (MenuScene.cpp lines 34-47) |
| Scenes.OnFrameSettles | Client/Source/Scenes/MenuScene.cpp:34-47 | a reported change is not reported again: two quiet frames later nothing is written |
| Scenes.MenuInput | Client/Source/Scenes/MenuScene.cpp:75-101 | on a rising edge "changeSceneN" flips between MAIN and OPTION and requests the change, "changeSceneP" a list switch, "back" asks to quit; nothing happens otherwise |
| MenuScene.MenuScene.constructor | Client/Source/Scenes/MenuScene.cpp:3-12 | the scene starts as `Fresh` with no quit requested |
| MenuScene.MenuScene.Init | Client/Source/Scenes/MenuScene.cpp:20-30 | records the scene's id and changes nothing else |
| MenuScene.MenuScene.GetIsVisible | Client/Source/Scenes/MenuScene.cpp:63-66 | the visibility flag |
| MenuScene.MenuScene.SetIsVisible | Client/Source/Scenes/MenuScene.cpp:68-73 | the flag is set and a pending list switch dropped |
| MenuScene.MenuScene.RegisteredInput | Client/Source/Scenes/MenuScene.cpp:75-101 | the flags become `MenuInput`'s, and a quit event is queued exactly for a "back" press |
| MenuScene.MenuScene.OnFrame | Client/Source/Scenes/MenuScene.cpp:34-47 | the state and the value written are `OnFrame` with no game request |
| MenuScene.MainMenuGoesToOption | Client/Source/Scenes/MenuScene.cpp:80-91 | from the main menu a "changeSceneN" press makes the next frame report OPTION and hide the scene |
| MenuScene.HeldKeyIgnored | Client/Source/Scenes/MenuScene.cpp:78 | a key held down does nothing; only the press counts |
| GameScene.GameInputFlags | Client/Source/Scenes/GameScene.cpp:214-226 | on a rising edge "changeSceneN" requests the pause scene and "changeSceneP" a list switch; nothing else touches the flags |
| GameScene.NextView | Client/Source/Scenes/GameScene.cpp:227-235 | the next selectable view, wrapping to the first after the last |
| GameScene.PreviousView | Client/Source/Scenes/GameScene.cpp:236-244 | the previous selectable view, wrapping to the last from the first |
| GameScene.ViewStepsInverse | Client/Source/Scenes/GameScene.cpp:227-244 | stepping forward then back, or back then forward, returns to the same view |
| GameScene.StepViews | Client/Source/Scenes/GameScene.cpp:227-235 | repeated forward steps stay among the views |
| GameScene.ViewsCycle | Client/Source/Scenes/GameScene.cpp:227-235 | up to n forward steps advance the view modulo n, so n steps come back to the start |
| GameScene.AnalogAlwaysReaches | Client/Source/Scenes/GameScene.cpp:295-311 | an analog action is never swallowed by the binary half, whatever the edge |
| GameScene.HeldBinaryCallsNothing | Client/Source/Scenes/GameScene.cpp:214-296 | holding or releasing a binary action calls nothing |
| GameScene.WithoutLight | Client/Source/Scenes/GameScene.cpp:335-340 | every light with the id is dropped and every other kept |
| GameScene.SwapPopRemoves | Client/Source/Scenes/GameScene.cpp:379-380 | swap-and-pop removes exactly the element at the index |
| GameScene.WithoutFirst | Client/Source/Scenes/GameScene.cpp:371-375 | `erase(find(...))` removes one occurrence when there is one and nothing otherwise |
| GameScene.FindMesh | Client/Source/Scenes/GameScene.cpp:366-369 | the first binding with the mesh id, or none when no binding has it |
| GameScene.FindMeshAt | Client/Source/Scenes/GameScene.cpp:366-369 | the first binding with the mesh id is the one found |
| GameScene.GameScene.constructor | Client/Source/Scenes/GameScene.cpp:10-28 | a fresh scene, both cameras and pivot drawing off, sensitivity 0.01, nothing loaded |
| GameScene.GameScene.Init | Client/Source/Scenes/GameScene.cpp:36-79 | records the id, appends the four selectable targets, selects the first, hides bounding volumes and records the two pre-loaded resource ids (lines 556-562) |
| GameScene.GameScene.SetIsVisible | Client/Source/Scenes/GameScene.cpp:204-207 | the flag is set; a pending list switch stays |
| GameScene.GameScene.OnFrame | Client/Source/Scenes/GameScene.cpp:87-116 | the state and the value written are `OnFrame` with the game logic's request; then, every frame, one `setPlayerDirection` call with forward, up and right each the difference of two opposite input values |
| GameScene.GameScene.BinaryInput | Client/Source/Scenes/GameScene.cpp:214-293 | a binary action on a rising edge is handled and applied: the view steps with wrap-around and each toggle negates its own flag |
| GameScene.GameScene.Input | Client/Source/Scenes/GameScene.cpp:209-311 | a rising edge of a binary action applies it and ends the call; anything else reaches the analog actions |
| GameScene.GameScene.AnalogInput | Client/Source/Scenes/GameScene.cpp:298-310 | the analog actions add their calls to the game logic and change no scene state |
| GameScene.GameScene.RegisteredInput | Client/Source/Scenes/GameScene.cpp:209-311 | the action name's comparison chain followed by `Input` |
| GameScene.GameScene.SetMouseSensitivity | Client/Source/Scenes/GameScene.cpp:313-316 | the sensitivity is multiplied by the factor |
| GameScene.GameScene.AddLight | Client/Source/Scenes/GameScene.cpp:324-329 | the light is appended |
| GameScene.GameScene.RemoveLight | Client/Source/Scenes/GameScene.cpp:331-341 | the list becomes `WithoutLight` |
| GameScene.GameScene.CreateMesh | Client/Source/Scenes/GameScene.cpp:343-360 | the loaded resource id is recorded and the binding appended |
| GameScene.GameScene.RemoveMesh | Client/Source/Scenes/GameScene.cpp:362-384 | the first binding with the mesh id releases its resource, drops one matching resource id, erases its model instance and is swap-popped; without one nothing changes |
| GameScene.RemoveMeshKeepsOthers | Client/Source/Scenes/GameScene.cpp:362-384 | removing a mesh removes exactly its first binding and keeps every other |
| SceneManager.Visible | Client/Source/SceneManager.cpp:230-254 | the visible scenes of a list, and only those |
| SceneManager.FirstVisible | Client/Source/SceneManager.cpp:202-226 | the first visible scene's index, or none when none is visible |
| SceneManager.FirstVisibleHeadsVisible | Client/Source/SceneManager.cpp:202-254 | the scene a key stroke is passed to is the first one `getScene` returns |
| SceneManager.FirstVisibleAt | Client/Source/SceneManager.cpp:202-226 | the first visible index is the one found |
| SceneManager.NoneVisible | Client/Source/SceneManager.cpp:230-254 | a list with no visible scene shows nothing |
| SceneManager.HideFrom | Client/Source/SceneManager.cpp:168-171 | every scene from the index on is hidden and the others kept |
| SceneManager.RunStarted | Client/Source/SceneManager.cpp:163-173 | run state with the first two run scenes shown, the rest hidden, index 0 |
| SceneManager.MenuStarted | Client/Source/SceneManager.cpp:175-184 | menu state with only the first menu scene shown, index 0 |
| SceneManager.SceneChanged | Client/Source/SceneManager.cpp:150-161 | the scene at the index is shown; in menu state it also gets a frame at once |
| SceneManager.MenuFrameFrom | Client/Source/SceneManager.cpp:70-92 | each visible menu scene gets a frame until one changes the index; the lists stay well formed |
| SceneManager.RunFrameFrom | Client/Source/SceneManager.cpp:94-113 | every run scene gets a frame until one changes the index, the loop index then set to the menu list's size; the lists stay well formed |
| SceneManager.Frame | Client/Source/SceneManager.cpp:58-68 | a frame of the active list keeps the lists well formed |
| SceneManager.Paused | Client/Source/SceneManager.cpp:140-148 | in run state the pause scene's visibility flips and the game scenes are untouched; in menu state nothing changes |
| SceneManager.PauseSceneNeverFramed | Client/Source/SceneManager.cpp:94-113 | in run state the pause scene never gets a frame (the loop index is reset to the menu list's size), so at most it is shown |
| SceneManager.SetPauseTwice | Client/Source/SceneManager.cpp:140-148 | pausing twice restores the pause scene's visibility, but drops a list switch it had pending |
| SceneManager.KeyResult | Client/Source/SceneManager.cpp:186-200 | 'K' toggles pause, 'L' and 'J' go to the first visible scene, any other key is not taken |
| SceneManager.Initial | Client/Source/SceneManager.cpp:15-41 | after `init` only the main menu is shown and the list flag is as it was found |
| SceneManager.InitShowsMainMenu | Client/Source/SceneManager.cpp:15-41 | in menu state `getScene` after `init` yields the main menu alone |
| SceneManager.Manager.constructor | Client/Source/SceneManager.cpp:3-8 | both lists empty and the index 0 |
| SceneManager.Manager.Init | Client/Source/SceneManager.cpp:15-41 | the state becomes `Initial` |
| SceneManager.Manager.StartRun | Client/Source/SceneManager.cpp:163-173 | the state becomes `RunStarted` |
| SceneManager.Manager.StartMenu | Client/Source/SceneManager.cpp:175-184 | the state becomes `MenuStarted` |
| SceneManager.Manager.SetPause | Client/Source/SceneManager.cpp:140-148 | the state becomes `Paused` |
| SceneManager.Manager.ChangeScene | Client/Source/SceneManager.cpp:150-161 | the state becomes `SceneChanged` |
| SceneManager.Manager.OnFrameMenu | Client/Source/SceneManager.cpp:70-92 | the loop gives `MenuFrameFrom` from scene 0 |
| SceneManager.Manager.OnFrameRun | Client/Source/SceneManager.cpp:94-113 | the loop gives `RunFrameFrom` from scene 0 |
| SceneManager.Manager.OnFrame | Client/Source/SceneManager.cpp:58-68 | the state becomes `Frame` |
| SceneManager.Manager.GetScene | Client/Source/SceneManager.cpp:230-254 | the loop collects exactly the visible scenes of the active list |
| SceneManager.Manager.KeyStroke | Client/Source/SceneManager.cpp:186-200 | result, state and receiver are `KeyResult` |
| SceneManager.Manager.PassKeyStroke | Client/Source/SceneManager.cpp:202-226 | the first visible scene of the active list receives the key |
| SceneManager.Manager.SceneInput | Client/Source/SceneManager.cpp:230-254 | input through a pointer `getScene` hands out changes only that scene's flags, by its own rule |
| AnimationPlayer.Played | Common/Source/Animation.cpp:512-560 | an override starts the clip on the track above its destination and stops every higher track; a plain play starts it on an idle destination, or else moves the upper track's clip down and starts it on the upper track; the tracks below are untouched |
| AnimationPlayer.Purged | Common/Source/Animation.cpp:699-706 | the queue loses exactly the clips meant for the track and keeps all the others |
| AnimationPlayer.PurgedNothing | Common/Source/Animation.cpp:699-706 | a queue with no clip for the track is left as it is |
| AnimationPlayer.PurgedTwice | Common/Source/Animation.cpp:699-706 | purging is idempotent |
| AnimationPlayer.PurgedShorter | Common/Source/Animation.cpp:699-706 | a queue that holds a clip for the track gets shorter |
| AnimationPlayer.AfterPlay | Common/Source/Animation.cpp:501-563 | an unknown clip name changes neither tracks nor queue; a known one plays on its destination pair and leaves no queued clip for its destination track |
| AnimationPlayer.FirstQueued | Common/Source/Animation.cpp:581-592 | finds the first queued clip for the track, or reports that none exists |
| AnimationPlayer.FirstQueuedAt | Common/Source/Animation.cpp:581-592 | the first position holding a clip for the track is the one found |
| AnimationPlayer.QueuedClipPlays | Common/Source/Animation.cpp:576-593 | playing the first queued clip of a pair starts it on that pair and removes it and every other clip for the pair from the queue |
| AnimationPlayer.ChangeWeightOverruns | Common/Source/Animation.cpp:595-602 | with the guard as written, pair 5 writes the weight of a track past the six-track array |
| AnimationPlayer.WeightWrites | Common/Source/Animation.cpp:595-602 | with the bounded guard only pairs 1 to 4 are written, both of their tracks, always inside the array |
| AnimationPlayer.WeightWritesAgree | Common/Source/Animation.cpp:595-602 | the bounded guard differs from the written one only for pair 5 |
| AnimationPlayer.Weighted | Common/Source/Animation.cpp:595-602 | the tracks written get the new dynamic weight and every other track is unchanged |
| AnimationPlayer.Chain | Common/Source/Animation.cpp:231-241 | the parent chain starts at the joint, ends at the root and stays inside the joint list |
| AnimationPlayer.AffectedOnChain | Common/Source/Animation.cpp:231-241 | a joint is affected exactly when some joint on its chain to the root carries the name |
| AnimationPlayer.FirstJoint | Common/Source/Animation.cpp:425-444 | finds the first joint with the name, or reports that none exists |
| AnimationPlayer.FirstJointAt | Common/Source/Animation.cpp:425-444 | the first position holding a joint with the name is the one found |
| AnimationPlayer.JointPos | Common/Source/Animation.cpp:419-449 | without final transforms the position is the origin; otherwise an error exactly when no joint has the name, and else the named joint's position |
| AnimationPlayer.Animation.constructor | Common/Source/Animation.cpp:11-24 | six idle tracks, an empty queue, no data and no final transforms |
| AnimationPlayer.Animation.PlayClip | Common/Source/Animation.cpp:501-563 | the tracks and the queue become what playing the named clip gives, the data untouched |
| AnimationPlayer.Animation.StartOverride | Common/Source/Animation.cpp:512-526 | the array loop leaves the tracks as the override play describes |
| AnimationPlayer.Animation.Start | Common/Source/Animation.cpp:527-560 | the tracks become what the plain play describes |
| AnimationPlayer.Animation.PurgeQueue | Common/Source/Animation.cpp:699-706 | the queue becomes the purged queue, the rest unchanged |
| AnimationPlayer.Animation.QueueClip | Common/Source/Animation.cpp:565-574 | a known clip is appended to the queue; an unknown name leaves it unchanged |
| AnimationPlayer.Animation.PlayQueuedClip | Common/Source/Animation.cpp:576-593 | reports true exactly when a clip for the pair is queued, then plays that clip by name without override; otherwise nothing changes |
| AnimationPlayer.Animation.ChangeWeight | Common/Source/Animation.cpp:595-602 | the tracks become the weighted tracks of the bounded guard |
| AnimationPlayer.Animation.SetAnimationData | Common/Source/Animation.cpp:688-692 | the data is stored and its "default" clip is played with override |
| AnimationPlayer.Animation.GetJointPos | Common/Source/Animation.cpp:419-449 | the scan over the joints returns the outcome the joint-position function gives |
| AnimationData.Insert | Common/Source/AnimationClipLoader.cpp:93 | a map insert adds a new key with the value, keeps an existing key's value, and changes nothing else |
| AnimationData.InsertAllFirstWins | Common/Source/AnimationClipLoader.cpp:17-95 | after inserting a list, old keys keep their values, every element's key is present, a new key holds the first element with that key, and no other key appears |
| AnimationLoader.ReadAnimHeader | Common/Source/AnimationLoader.cpp:24-31 | a header read consumes the name's length, the name and three ints' bytes, no more |
| AnimationLoader.AnimHeaderRoundTrip | Common/Source/AnimationLoader.cpp:24-31 | a written header reads back as itself and leaves the bytes after it |
| AnimationLoader.JointsRead | Common/Source/AnimationLoader.cpp:33-79 | the joints kept name earlier parents, and a non-empty list has the count the header announced; a load that throws keeps none (`LoadThrowsKeepsNoJoints`); a short file and an out-of-range parent give none, as Left out says |
| AnimationLoader.FramesThrowKeepsNoJoints | Common/Source/AnimationLoader.cpp:33-37 | a header with a negative frame count throws and keeps no joints, and a file that keeps joints has a frame count of 0 or more |
| AnimationLoader.AnimationFileLoads | Common/Source/AnimationLoader.cpp:71-79 | a well-formed animation file loads back its header and exactly its joints, and loading it does not throw |
| AnimationLoader.JointNameThrowsFails | Common/Source/AnimationLoader.cpp:38-44 | where the joint loop reaches a negative name length (`byteToString`, lines 141-148), the joint reader fails |
| AnimationLoader.LoadThrowsKeepsNoJoints | Common/Source/AnimationLoader.cpp:24-44 | a load that throws keeps no joints; a negative model-name length throws in `readHeader` and leaves the cleared header |
| AnimationLoader.WrittenJointsNoThrow | Common/Source/AnimationLoader.cpp:38-44 | joints written by the converter never hold a negative name length, so the joint loop does not throw on them |
| AnimationLoader.ScanJointNames | Common/Source/AnimationLoader.cpp:38-44 | the loop's name reads throw exactly as `JointNameThrows` says: at the first negative name length, unless a joint that cannot be read whole comes first |
| AnimationLoader.JointListRoundTrip | Common/Source/AnimationLoader.cpp:33-69 | a written joint list reads back in full and consumes all its bytes |
| AnimationLoader.LastWhere | Common/Source/AnimationLoader.cpp:93-94 | finds the last matching character, or reports that none matches |
| AnimationLoader.LastWhereIs | Common/Source/AnimationLoader.cpp:93-94 | the last matching index is the one found |
| AnimationLoader.FileNameStart | Common/Source/AnimationLoader.cpp:93-94 | the file name starts just after the last separator and holds no separator |
| AnimationLoader.ExtensionStart | Common/Source/AnimationLoader.cpp:93-94 | the extension starts at the file name's last dot, and there is none for "." or ".." or a name without a dot |
| AnimationLoader.Stem | Common/Source/AnimationLoader.cpp:93-94 | the stem is a prefix of the path that keeps the whole directory part |
| AnimationLoader.ReplaceExtension | Common/Source/AnimationLoader.cpp:93-94 | the result keeps the stem and the directory and ends with the dotted new extension |
| AnimationLoader.DottedPlain | Common/Source/AnimationLoader.cpp:93-94 | a plain extension written with its dot is a dot followed by no separator or dot |
| AnimationLoader.AppendKeepsFileNameStart | Common/Source/AnimationLoader.cpp:93-94 | appending text without separators to the stem leaves the file name where it started |
| AnimationLoader.ReplaceExtensionIdempotent | Common/Source/AnimationLoader.cpp:93-94 | replacing a plain extension twice is replacing it once |
| AnimationLoader.MlxPath | Common/Source/AnimationLoader.cpp:93-94 | the clip file read beside an animation ends in ".mlx" |
| AnimationLoader.ResourceData | Common/Source/AnimationLoader.cpp:81-103 | a resource holds the binary file's joints and the clips, groups and paths of the .mlx file beside it |
| AnimationLoader.Released | Common/Source/AnimationLoader.cpp:105-116 | a release keeps exactly the resources with another name |
| AnimationLoader.ReleasedConcat | Common/Source/AnimationLoader.cpp:105-116 | releasing distributes over concatenation, so the order of the kept resources is the original order |
| AnimationLoader.ReleasedNothing | Common/Source/AnimationLoader.cpp:105-116 | a list without the name is released unchanged |
| AnimationLoader.FirstNamed | Common/Source/AnimationLoader.cpp:118-134 | finds the first resource with the name, or reports that none exists |
| AnimationLoader.FirstNamedIs | Common/Source/AnimationLoader.cpp:118-134 | the first position holding the name is the one found |
| AnimationLoader.FindData | Common/Source/AnimationLoader.cpp:118-134 | a lookup yields nothing exactly when no resource has the name |
| AnimationLoader.FindAfterRelease | Common/Source/AnimationLoader.cpp:105-134 | after a release the released name is not found |
| AnimationLoader.FindOtherAfterRelease | Common/Source/AnimationLoader.cpp:105-134 | a release leaves the lookup of every other name as it was |
| AnimationLoader.FindAfterLoad | Common/Source/AnimationLoader.cpp:81-134 | appending a resource keeps earlier lookups and makes its own name found when it was missing |
| AnimationLoader.Loader.constructor | Common/Source/AnimationLoader.cpp:8-10 | a new loader holds the cleared header, no joints and no resources |
| AnimationLoader.Loader.Clear | Common/Source/AnimationLoader.cpp:18-22 | the joints are dropped and the header and resources are kept |
| AnimationLoader.Loader.ClearData | Common/Source/AnimationLoader.cpp:155-161 | the header is cleared and the joints dropped, the resources kept |
| AnimationLoader.Loader.LoadAnimationData | Common/Source/AnimationLoader.cpp:71-79 | throws exactly when `LoadThrows`: a negative model-name length (line 27 via lines 141-148), a negative frame count (the `resize` at line 37) or a negative joint-name length (line 40); the header is as far as it was read and no joints are kept; otherwise the header and joints become `HeaderRead` and `JointsRead` of the file; the resources are kept; a short file leaves the cleared header or no joints (admitted under Left out) |
| AnimationLoader.Loader.LoadAnimationDataResource | Common/Source/AnimationLoader.cpp:81-103 | false stands for the exception `loadAnimationData` raises exactly when `LoadThrows` (a negative name, frame or joint-name length), which propagates with no resource appended; otherwise true, the resource built from the two files appended under its name, and the header and joints cleared |
| AnimationLoader.Loader.ReleaseAnimationData | Common/Source/AnimationLoader.cpp:105-116 | always succeeds and leaves the released list, header and joints unchanged |
| AnimationLoader.Loader.GetAnimationData | Common/Source/AnimationLoader.cpp:118-134 | the scan returns the first resource's data of that name, or nothing |
| AnimationClipLoader.ClipsFrom | Common/Source/AnimationClipLoader.cpp:17-95 | entries found earlier stay, and every clip loaded is under its own name |
| AnimationClipLoader.LoadAnimationClip | Common/Source/AnimationClipLoader.cpp:5-104 | the loop yields the loaded clips; a missing file gives only the default clip under "default"; every other clip is under its own name |
| AnimationClipLoader.ClipValues | Common/Source/AnimationClipLoader.cpp:26-91 | a clip writes one value per field line the loader reads |
| AnimationClipLoader.ClipLines | Common/Source/AnimationClipLoader.cpp:22-91 | a clip block is the header line and one line per field |
| AnimationClipLoader.ClipValuesAreWords | Common/Source/AnimationClipLoader.cpp:26-91 | the values of a writable clip are single words |
| AnimationClipLoader.ReadClipValues | Common/Source/AnimationClipLoader.cpp:26-91 | reading a clip's values, start and end lowered by one, gives that clip whatever the clip variable held |
| AnimationClipLoader.ClipHeader | Common/Source/AnimationClipLoader.cpp:21-22 | the "*Clip" line is read as the block key |
| AnimationClipLoader.ClipsTextSplit | Common/Source/AnimationClipLoader.cpp:22-93 | the text for a list of clips starts with the first clip's block |
| AnimationClipLoader.ClipBlocksLoad | Common/Source/AnimationClipLoader.cpp:17-95 | clip-shaped lines load as inserting the clips in order |
| AnimationClipLoader.ClipsTextBlocks | Common/Source/AnimationClipLoader.cpp:22-93 | written clip text has the clip-block shape |
| AnimationClipLoader.ClipsTextLoads | Common/Source/AnimationClipLoader.cpp:17-95 | written clips load as inserting them in order |
| AnimationClipLoader.ClipFileLoads | Common/Source/AnimationClipLoader.cpp:5-104 | a clip file loads each clip under its name, the first where names repeat, and no other entry |
| AnimationClipLoader.GroupsFrom | Common/Source/AnimationClipLoader.cpp:118-149 | entries found earlier stay, and every group loaded is under its own name |
| AnimationClipLoader.LoadIKGroup | Common/Source/AnimationClipLoader.cpp:106-158 | the loop yields the loaded groups; a missing file gives only the default group under "default"; every other group is under its own name |
| AnimationClipLoader.GroupValues | Common/Source/AnimationClipLoader.cpp:127-145 | a group writes one value per field line the loader reads |
| AnimationClipLoader.GroupLines | Common/Source/AnimationClipLoader.cpp:123-145 | a group block is the header line and one line per field |
| AnimationClipLoader.GroupBlockLoads | Common/Source/AnimationClipLoader.cpp:123-147 | one group block loads that group and the scan goes on after it |
| AnimationClipLoader.GroupHeader | Common/Source/AnimationClipLoader.cpp:122-123 | the "*IKgroup" line is read as the block key |
| AnimationClipLoader.GroupsTextSplit | Common/Source/AnimationClipLoader.cpp:123-147 | the text for a list of groups starts with the first group's block |
| AnimationClipLoader.GroupsTextLoads | Common/Source/AnimationClipLoader.cpp:118-149 | written groups load as inserting them in order |
| AnimationClipLoader.GroupFileLoads | Common/Source/AnimationClipLoader.cpp:106-158 | a group file loads each group under its name, the first where names repeat, and no other entry |
| AnimationClipLoader.PathPoints | Common/Source/AnimationClipLoader.cpp:187-208 | the do-while consumes at least one line, keeps the path's name and returns what follows its end |
| AnimationClipLoader.PathsFrom | Common/Source/AnimationClipLoader.cpp:172-212 | entries found earlier stay, and every path loaded is under its own name |
| AnimationClipLoader.ReadPathPoints | Common/Source/AnimationClipLoader.cpp:187-208 | the imperative do-while ends with the path and the position the point function gives |
| AnimationClipLoader.LoadAnimationPath | Common/Source/AnimationClipLoader.cpp:160-221 | the loop yields the loaded paths; a missing file gives only an empty path under "default"; every other path is under its own name |
| AnimationClipLoader.PathPointsStep | Common/Source/AnimationClipLoader.cpp:187-208 | one round adds the point to the Y or Z list and stops at "*EndPath" or at the end |
| AnimationClipLoader.PointsStep | Common/Source/AnimationClipLoader.cpp:202-205 | splitting the points by axis takes them one at a time in order |
| AnimationClipLoader.PointPairsLoad | Common/Source/AnimationClipLoader.cpp:187-208 | point-shaped lines load their Y and Z points in written order |
| AnimationClipLoader.PointLinesPairs | Common/Source/AnimationClipLoader.cpp:187-208 | written point lines have the point-pair shape |
| AnimationClipLoader.PathBlockLoads | Common/Source/AnimationClipLoader.cpp:177-210 | a written path block loads as that path, Y and Z points in order, and the scan resumes after "*EndPath" |
| AnimationClipLoader.PathPairsLoad | Common/Source/AnimationClipLoader.cpp:177-210 | a "*Path" line, its name and point-shaped lines load that path |
| AnimationClipLoader.PathHeader | Common/Source/AnimationClipLoader.cpp:176-177 | the "*Path" line is read as the block key |
| AnimationClipLoader.PathLinesSplit | Common/Source/AnimationClipLoader.cpp:177-208 | a path block is the "*Path" line, the name line, the point lines and "*EndPath" |
| AnimationClipLoader.StoresAll | Common/Source/AnimationClipLoader.cpp:202-205 | each written path maps to the path it is stored as |
| AnimationClipLoader.PathsTextLoads | Common/Source/AnimationClipLoader.cpp:172-212 | written paths load as inserting their stored forms in order |
| AnimationClipLoader.PathsLoaded | Common/Source/AnimationClipLoader.cpp:160-221 | a path file loads as inserting the stored paths into an empty map |
| AnimationClipLoader.PathFileLoads | Common/Source/AnimationClipLoader.cpp:160-221 | a path file loads each path under its name with its points split by axis in order, the first where names repeat |
| AnimationClipLoader.PathFileNamesOnly | Common/Source/AnimationClipLoader.cpp:160-221 | a path file gives no entry under a name none of its paths has |
| BoundingVolumeLoader.ReadBVHeader | Physics/Source/BVLoader.cpp:47-73 | the buffer and joint counts are never read; a line without a second word leaves its field as it was, the name empty |
| BoundingVolumeLoader.VertexOfWords | Physics/Source/BVLoader.cpp:89-92 | a vertex line gives its second to fourth words as coordinates |
| BoundingVolumeLoader.FaceOfWords | Physics/Source/BVLoader.cpp:104-107 | a face line gives its first, third and fifth words as indices |
| BoundingVolumeLoader.Vertices | Physics/Source/BVLoader.cpp:86-95 | one vertex per vertex line counted |
| BoundingVolumeLoader.Faces | Physics/Source/BVLoader.cpp:102-110 | one face per face line counted |
| BoundingVolumeLoader.Expand | Physics/Source/BVLoader.cpp:112-122 | the expansion succeeds exactly when every face index names a vertex, and then holds three corners per face in order, each the vertex named |
| BoundingVolumeLoader.LoadBV | Physics/Source/BVLoader.cpp:20-45 | loading succeeds exactly when the file opens and its header counts a positive number of vertices; a failure leaves the volume empty |
| BoundingVolumeLoader.VertexLines | Physics/Source/BVLoader.cpp:86-95 | one written line per vertex |
| BoundingVolumeLoader.FaceLines | Physics/Source/BVLoader.cpp:102-110 | one written line per face |
| BoundingVolumeLoader.HeaderLines | Physics/Source/BVLoader.cpp:57-70 | the written header block holds the material, name, vertex and triangle lines where the reader looks for them |
| BoundingVolumeLoader.HeaderRead | Physics/Source/BVLoader.cpp:47-73 | header lines offering a name and three int texts read back as exactly those |
| BoundingVolumeLoader.IntField | Physics/Source/BVLoader.cpp:59-61 | a "key value" line offers the value as its second word |
| BoundingVolumeLoader.HeaderLoads | Physics/Source/BVLoader.cpp:47-73 | a written header block reads back its name and counts |
| BoundingVolumeLoader.VertexLineLoads | Physics/Source/BVLoader.cpp:89-92 | a written vertex line reads back its coordinates |
| BoundingVolumeLoader.FaceLineLoads | Physics/Source/BVLoader.cpp:104-107 | a written face line reads back indices naming the same vertices |
| BoundingVolumeLoader.DigitsIndex | Physics/Source/BVLoader.cpp:116-120 | the text of a natural number converts back to that index |
| BoundingVolumeLoader.VerticesLoad | Physics/Source/BVLoader.cpp:86-95 | a written vertex list loads as the vertices written |
| BoundingVolumeLoader.FacesLoad | Physics/Source/BVLoader.cpp:102-110 | a written face list loads faces with the indices written |
| BoundingVolumeLoader.ExpandWritten | Physics/Source/BVLoader.cpp:112-122 | faces read back from in-range triangles expand to the triangles' corners |
| BoundingVolumeLoader.BVTextParts | Physics/Source/BVLoader.cpp:84-100 | a written file has its vertex list after the five header lines and two title lines, and its face list after four more lines |
| BoundingVolumeLoader.DropParts | Physics/Source/BVLoader.cpp:84-100 | skipping the header, title and middle lines reaches the next part |
| BoundingVolumeLoader.LoadsFrom | Physics/Source/BVLoader.cpp:20-45 | lines whose header counts a vertex load that header and the volume after it |
| BoundingVolumeLoader.BVFileLoads | Physics/Source/BVLoader.cpp:20-126 | a written file loads its header's name and counts and a volume of three corners per face, each the vertex the face names |
| BoundingVolumeLoader.Loader.constructor | Physics/Source/BVLoader.cpp:4-6 | a new loader holds an empty volume |
| BoundingVolumeLoader.Loader.Clear | Physics/Source/BVLoader.cpp:14-18 | the volume is emptied and the header kept |
| BoundingVolumeLoader.Loader.ClearData | Physics/Source/BVLoader.cpp:152-161 | every header field is zeroed and the volume emptied |
| BoundingVolumeLoader.Loader.ReadBoundingVolume | Physics/Source/BVLoader.cpp:76-126 | the volume read runs on the stored header's counts, ignoring the count passed in |
| BoundingVolumeLoader.Loader.LoadBinaryFile | Physics/Source/BVLoader.cpp:20-45 | the result, header and volume are those of the load function |
| BoundingVolumeLoader.ReadVertices | Physics/Source/BVLoader.cpp:86-95 | the vertex loop reads the vertex list the function describes |
| BoundingVolumeLoader.ReadFaces | Physics/Source/BVLoader.cpp:102-110 | the face loop reads the face list the function describes |
| BoundingVolumeLoader.ExpandFaces | Physics/Source/BVLoader.cpp:112-122 | the expansion loop yields the expansion the function describes, failing on an index outside the vertices |
| ModelTextLoader.Cleared | BinaryConverter/Source/ModelLoader.cpp:412-430 | every list is emptied while the frame count is left as it was |
| ModelTextLoader.RunSpan | BinaryConverter/Source/ModelLoader.cpp:170-177 | a section runs over the non-blank lines up to the first blank line or the end of the file: every line in the run is non-blank and the line after it is blank |
| ModelTextLoader.Float3OfWords | BinaryConverter/Source/ModelLoader.cpp:175 | a float line gives the words after its key as its coordinates, a missing word keeping the temporary's value |
| ModelTextLoader.MatrixOf | BinaryConverter/Source/ModelLoader.cpp:309-313 | a matrix line yields sixteen floats |
| ModelTextLoader.MatrixOfWords | BinaryConverter/Source/ModelLoader.cpp:309-313 | a matrix line gives its sixteen words after the key as the matrix, a missing word keeping the temporary's value |
| ModelTextLoader.KeyFrameOfWords | BinaryConverter/Source/ModelLoader.cpp:342-345 | a keyframe line gives its words 1-3, 5-8 and 10-12 as translation, rotation and scale |
| ModelTextLoader.IndexRecords | BinaryConverter/Source/ModelLoader.cpp:241-252 | one line's stream yields the counted number of index records, each tagged with the material |
| ModelTextLoader.Header | BinaryConverter/Source/ModelLoader.cpp:120-135 | the header reads four lines and sets only the material count, mesh name, vertex count and triangle count |
| ModelTextLoader.MaterialsUpTo | BinaryConverter/Source/ModelLoader.cpp:143-163 | the first i rounds of the material loop give i materials |
| ModelTextLoader.MaterialsStep | BinaryConverter/Source/ModelLoader.cpp:143-163 | each round appends the material read from its five lines, starting from the previous temporary |
| ModelTextLoader.Materials | BinaryConverter/Source/ModelLoader.cpp:137-164 | only the material list changes, gaining one material per counted material; it reads one line for no material and five per material otherwise |
| ModelTextLoader.Float3Lines | BinaryConverter/Source/ModelLoader.cpp:166-178 | one float triple per non-blank line, ending after the blank line |
| ModelTextLoader.TexCoords | BinaryConverter/Source/ModelLoader.cpp:194-206 | each texture coordinate keeps the x read and stores 1 minus the y read |
| ModelTextLoader.IndexLines | BinaryConverter/Source/ModelLoader.cpp:236-254 | a material's face list ends after its blank line |
| ModelTextLoader.IndexLinesCount | BinaryConverter/Source/ModelLoader.cpp:236-254 | every line of a face list gives exactly the counted number of records |
| ModelTextLoader.FaceListsFrom | BinaryConverter/Source/ModelLoader.cpp:227-256 | one index list per material, the last one being the list left over |
| ModelTextLoader.Faces | BinaryConverter/Source/ModelLoader.cpp:222-257 | only the index lists change, gaining one list per counted material with earlier lists kept |
| ModelTextLoader.WeightLines | BinaryConverter/Source/ModelLoader.cpp:259-283 | the weight loop never moves backwards |
| ModelTextLoader.JointLines | BinaryConverter/Source/ModelLoader.cpp:285-297 | one joint per non-blank line, ending after the blank line |
| ModelTextLoader.OffsetLines | BinaryConverter/Source/ModelLoader.cpp:299-317 | the joint list keeps its length and the read never moves backwards |
| ModelTextLoader.Frames | BinaryConverter/Source/ModelLoader.cpp:338-347 | the joint list keeps its length, and it throws exactly when there are frames to add to a joint past the end |
| ModelTextLoader.Blocks | BinaryConverter/Source/ModelLoader.cpp:334-349 | the joint list keeps its length and the read never moves backwards |
| ModelTextLoader.Animation | BinaryConverter/Source/ModelLoader.cpp:319-350 | only the start, end, frame count and joints change, and the joint list keeps its length |
| ModelTextLoader.Section | BinaryConverter/Source/ModelLoader.cpp:62-118 | an unknown key reads nothing; only the joint-offset and animation readers can throw |
| ModelTextLoader.Load | BinaryConverter/Source/ModelLoader.cpp:48-61 | the load reports an unopened file exactly when there is none, and then leaves the cleared members |
| ModelTextLoader.Float3LinesStep | BinaryConverter/Source/ModelLoader.cpp:170-177 | one round reads a triple into the temporary and goes on from the next line |
| ModelTextLoader.IndexLinesStep | BinaryConverter/Source/ModelLoader.cpp:236-254 | one round adds that line's records and goes on from the next line |
| ModelTextLoader.FaceListsStep | BinaryConverter/Source/ModelLoader.cpp:227-256 | one material reads its ID line, its count line and its face list, then goes on |
| ModelTextLoader.WeightLinesStep | BinaryConverter/Source/ModelLoader.cpp:265-282 | one round reads a weight line and the joint line after it |
| ModelTextLoader.ReadIndexRecords | BinaryConverter/Source/ModelLoader.cpp:241-252 | the imperative inner loop yields the records and temporary the function describes |
| ModelTextLoader.ReadIndexRecord | BinaryConverter/Source/ModelLoader.cpp:243-251 | one round's eight extractions give the record of the material with the four indices in order, each read into the variable the one before was |
| ModelTextLoader.ReadNextRecord | BinaryConverter/Source/ModelLoader.cpp:241-252 | the record one round reads is the first of those still to come, and the rest start where it stopped |
| ModelTextLoader.MaterialFromLines | BinaryConverter/Source/ModelLoader.cpp:145-154 | a material takes its ID and three maps from the second words of its four lines |
| ModelTextLoader.ReadMaterialList | BinaryConverter/Source/ModelLoader.cpp:141-163 | the imperative material loop yields the materials and position the function describes |
| ModelTextLoader.ReadFloat3Lines | BinaryConverter/Source/ModelLoader.cpp:166-220 | the imperative section loop yields the triples and position the function describes |
| ModelTextLoader.ReadTexCoordLines | BinaryConverter/Source/ModelLoader.cpp:194-206 | the texture-coordinate loop stores the coordinates the function describes |
| ModelTextLoader.ReadIndexLines | BinaryConverter/Source/ModelLoader.cpp:236-254 | the imperative face-list loop yields the records the function describes |
| ModelTextLoader.ReadFaceLists | BinaryConverter/Source/ModelLoader.cpp:227-256 | the imperative material loop yields the index lists the function describes |
| ModelTextLoader.ReadWeightLines | BinaryConverter/Source/ModelLoader.cpp:265-282 | the imperative weight loop yields the entries the function describes |
| ModelTextLoader.JointLinesStep | BinaryConverter/Source/ModelLoader.cpp:289-296 | one round reads a joint into the temporary and goes on from the next line |
| ModelTextLoader.ReadJointLines | BinaryConverter/Source/ModelLoader.cpp:289-296 | the imperative hierarchy loop yields the joints the function describes |
| ModelTextLoader.ReadOffsetLines | BinaryConverter/Source/ModelLoader.cpp:303-316 | the imperative offset loop yields the joints and the throw the function describes |
| ModelTextLoader.FramesStep | BinaryConverter/Source/ModelLoader.cpp:338-347 | one frame throws for a joint past the end and otherwise appends the keyframe to that joint |
| ModelTextLoader.BlocksStep | BinaryConverter/Source/ModelLoader.cpp:334-349 | one block stops at a throw and otherwise goes on with the next joint |
| ModelTextLoader.ReadFrames | BinaryConverter/Source/ModelLoader.cpp:338-347 | the imperative frame loop yields what the function describes |
| ModelTextLoader.ReadBlocks | BinaryConverter/Source/ModelLoader.cpp:334-349 | the imperative block loop yields what the function describes |
| ModelTextLoader.ReadBlock | BinaryConverter/Source/ModelLoader.cpp:334-349 | a non-blank header line and its keyframe lines either throw for a missing joint or leave the blocks after them to read |
| ModelTextLoader.ModelLoader.constructor | BinaryConverter/Source/ModelLoader.cpp:3-6 | the four counts start at 0 and every list is empty |
| ModelTextLoader.ModelLoader.Clear | BinaryConverter/Source/ModelLoader.cpp:17-46 | everything clearData clears, and the frame count zeroed too |
| ModelTextLoader.ModelLoader.ClearData | BinaryConverter/Source/ModelLoader.cpp:412-430 | the members become the cleared members |
| ModelTextLoader.ModelLoader.LoadFile | BinaryConverter/Source/ModelLoader.cpp:48-61 | the result and members are those the load function gives |
| ModelTextLoader.ModelLoader.StartReading | BinaryConverter/Source/ModelLoader.cpp:62-118 | the members and throw are those the dispatch function gives |
| ModelTextLoader.ModelLoader.ReadHeader | BinaryConverter/Source/ModelLoader.cpp:120-135 | the members and position become those the header function gives |
| ModelTextLoader.ModelLoader.ReadMaterials | BinaryConverter/Source/ModelLoader.cpp:137-164 | the members and position become those the material function gives |
| ModelTextLoader.ModelLoader.ReadVertex | BinaryConverter/Source/ModelLoader.cpp:166-178 | only the vertex list changes, gaining the section's triples |
| ModelTextLoader.ModelLoader.ReadNormals | BinaryConverter/Source/ModelLoader.cpp:180-192 | only the normal list changes, gaining the section's triples |
| ModelTextLoader.ModelLoader.ReadUV | BinaryConverter/Source/ModelLoader.cpp:194-206 | only the texture-coordinate list changes, gaining the stored coordinates |
| ModelTextLoader.ModelLoader.ReadTangents | BinaryConverter/Source/ModelLoader.cpp:208-220 | only the tangent list changes, gaining the section's triples |
| ModelTextLoader.ModelLoader.ReadFaces | BinaryConverter/Source/ModelLoader.cpp:222-257 | the members and position become those the face function gives |
| ModelTextLoader.ModelLoader.ReadWeights | BinaryConverter/Source/ModelLoader.cpp:259-283 | only the weight list changes, gaining the section's entries |
| ModelTextLoader.ModelLoader.ReadHierarchy | BinaryConverter/Source/ModelLoader.cpp:285-297 | only the joint list changes, gaining the section's joints |
| ModelTextLoader.ModelLoader.ReadJointOffset | BinaryConverter/Source/ModelLoader.cpp:299-317 | only the joints change, to the offsets the function describes, with the throw it reports |
| ModelTextLoader.ModelLoader.ReadAnimation | BinaryConverter/Source/ModelLoader.cpp:319-350 | the members, position and throw become those the animation function gives |
| ModelTextProperties.DispatchNoKeys | BinaryConverter/Source/ModelLoader.cpp:62-118 | lines without a section key are read past with no change and no throw |
| ModelTextProperties.LoadNoKeys | BinaryConverter/Source/ModelLoader.cpp:48-118 | a file without section keys loads to the cleared members |
| ModelTextProperties.LoadForgets | BinaryConverter/Source/ModelLoader.cpp:48-61 | what a load gives depends only on the file and the frame count held before |
| ModelTextProperties.RunOf | BinaryConverter/Source/ModelLoader.cpp:170-177 | n non-blank lines and then a blank line make a run of n lines ending after the blank |
| ModelTextProperties.Float3LinesAt | BinaryConverter/Source/ModelLoader.cpp:166-220 | a section line with all its words gives its own values, whatever the lines before it held |
| ModelTextProperties.Float3SectionRoundTrip | BinaryConverter/Source/ModelLoader.cpp:166-178 | a written vertex section reads back exactly the written vertices and stops after its blank line |
| ModelTextProperties.IndexRecordStep | BinaryConverter/Source/ModelLoader.cpp:241-252 | one record takes a corner's eight words and gives its vertex, tangent, normal and texture index |
| ModelTextProperties.CornerRecord | BinaryConverter/Source/ModelLoader.cpp:243-251 | the eight words written for a corner read back as that corner's record and take exactly those words |
| ModelTextProperties.JointOfWords | BinaryConverter/Source/ModelLoader.cpp:294 | a hierarchy line sets the joint's name, id and parent and nothing else |
| ModelTextProperties.JointLinesFresh | BinaryConverter/Source/ModelLoader.cpp:285-297 | joints read from a fresh temporary carry no offset matrix and no keyframes |
| ModelTextProperties.OffsetLinesShape | BinaryConverter/Source/ModelLoader.cpp:299-317 | offsets are set on the next joints, one per line, nothing else changes, and it throws exactly when there are more lines than joints left |
| ModelTextProperties.MatrixWords | BinaryConverter/Source/ModelLoader.cpp:309-313 | a full matrix line gives sixteen values |
| ModelTextProperties.OffsetLinesAt | BinaryConverter/Source/ModelLoader.cpp:309-314 | the k-th full line sets the matching joint's matrix from its own words |
| ModelTextProperties.GrownTrans | BinaryConverter/Source/ModelLoader.cpp:346 | growing a joint's animation twice is growing it by the sum |
| ModelTextProperties.FramesShape | BinaryConverter/Source/ModelLoader.cpp:338-347 | the frames of an existing joint are appended to its animation and nothing else changes; a throw leaves the joints as they were |
| ModelTextProperties.BlocksThrow | BinaryConverter/Source/ModelLoader.cpp:334-349 | the loader throws exactly when there are keyframes for more joints than exist |
| ModelTextProperties.BlocksGrow | BinaryConverter/Source/ModelLoader.cpp:334-349 | without a throw each block appends its keyframes to the next joint in order and nothing else changes |
| ModelTextProperties.GrowBlock | BinaryConverter/Source/ModelLoader.cpp:334-349 | one block grows its joint and the later blocks the later joints |
| LevelTextLoader.IntAfterKey | BinaryConverter/Source/LevelLoader.cpp:93-101 | the count is the second word read as an int, and unset when the line has no second word |
| LevelTextLoader.WordAfterKey | BinaryConverter/Source/LevelLoader.cpp:153 | the type is the line's second word, or empty when there is none |
| LevelTextLoader.FloatAfterKey | BinaryConverter/Source/LevelLoader.cpp:160 | the intensity is the line's second word, or unset when there is none |
| LevelTextLoader.TwoFloatsAfterKey | BinaryConverter/Source/LevelLoader.cpp:189 | the cone and penumbra angles are the line's second and third words, each unset when missing |
| LevelTextLoader.MeshOf | BinaryConverter/Source/LevelLoader.cpp:121-137 | the mesh takes its name from the rest of the key line |
| LevelTextLoader.Light | BinaryConverter/Source/LevelLoader.cpp:139-193 | a light reads three lines plus the lines of its type, appends exactly one entry to the matching list for a known type and none otherwise, keeps what the lists held, and a directional light carries type 0 |
| LevelTextLoader.CheckPointSection | BinaryConverter/Source/LevelLoader.cpp:195-223 | "Start" and "End" read one line into the start or end position; any other type reads two lines and appends one checkpoint with that number and position |
| LevelTextLoader.Section | BinaryConverter/Source/LevelLoader.cpp:55-90 | a pass never moves backwards, leaves the model headers alone, and an unknown key changes nothing |
| LevelTextLoader.Dispatch | BinaryConverter/Source/LevelLoader.cpp:52-91 | reading the level file leaves the model headers alone |
| LevelTextLoader.ReadRecord | BinaryConverter/Source/LevelLoader.cpp:112-115 | a whole record takes at least sixteen bytes, and a negative name length is reported exactly when four bytes hold one |
| LevelTextLoader.ReadRecordRoundTrip | BinaryConverter/Source/LevelLoader.cpp:112-115 | a written model header reads back as itself and leaves the bytes after it |
| LevelTextLoader.ReadRecordAdvances | BinaryConverter/Source/LevelLoader.cpp:112-115 | every record read consumes input |
| LevelTextLoader.RecordsRoundTrip | BinaryConverter/Source/LevelLoader.cpp:103-119 | records written one after the other read back as those records, to the end of the file |
| LevelTextLoader.StepAsWritten | BinaryConverter/Source/LevelLoader.cpp:110-117 | each pass of the loop as written pushes one record, whatever the reads did |
| LevelTextLoader.FailedScanContinues | BinaryConverter/Source/LevelLoader.cpp:110-117 | once a read has failed every further pass pushes a record and the loop goes on |
| LevelTextLoader.TruncatedHeaderFileNeverEnds | BinaryConverter/Source/LevelLoader.cpp:103-119 | a header file of the four bytes 01 00 00 00 never ends the loop and pushes one more record on every pass |
| LevelTextLoader.Somes | BinaryConverter/Source/LevelLoader.cpp:112-116 | one pushed record per header |
| LevelTextLoader.ScanAgreesWithRecords | BinaryConverter/Source/LevelLoader.cpp:110-117 | where the corrected reader reads a file to its end, the loop as written reads the same records and stops there |
| LevelTextLoader.ScanThen | BinaryConverter/Source/LevelLoader.cpp:110-117 | a pass that reads on is followed by the rest of the loop |
| LevelTextLoader.ScanReadsWholeFile | BinaryConverter/Source/LevelLoader.cpp:103-119 | on a file the corrected reader reads whole, the loop as written reads the same records |
| LevelTextLoader.ScanReadsAll | BinaryConverter/Source/LevelLoader.cpp:103-119 | for any record reader that always moves on, the loop as written reads what the corrected reader reads and stops at the end |
| LevelTextLoader.ScanWellFormedFile | BinaryConverter/Source/LevelLoader.cpp:103-119 | on a well-formed header file the loop as written reads exactly its records and stops at its end |
| LevelTextLoader.TrimSeparators | BinaryConverter/Source/LevelLoader.cpp:245-250 | the path loses exactly its trailing separators |
| LevelTextLoader.TailLength | BinaryConverter/Source/LevelLoader.cpp:245-252 | the last token is the longest run of non-separators at the end |
| LevelTextLoader.SkipSeparators | BinaryConverter/Source/LevelLoader.cpp:245-249 | the scan stops at the first non-separator |
| LevelTextLoader.TokenEnd | BinaryConverter/Source/LevelLoader.cpp:245-249 | a token ends at the first separator or the end |
| LevelTextLoader.Strtok | BinaryConverter/Source/LevelLoader.cpp:245-249 | the next token lies at or after the position, and there is none exactly when only separators are left |
| LevelTextLoader.TrimTail | BinaryConverter/Source/LevelLoader.cpp:245-250 | trailing separators do not change which token is last |
| LevelTextLoader.TailOfToken | BinaryConverter/Source/LevelLoader.cpp:245-252 | a token's length is the tail length of the path up to its end |
| LevelTextLoader.GetPathScan | BinaryConverter/Source/LevelLoader.cpp:239-259 | the strtok loop gives the path the path function describes |
| LevelTextLoader.GetPathKeepsDirectory | BinaryConverter/Source/LevelLoader.cpp:239-259 | for a path ending in a file name, the result keeps everything up to the last separator and appends "ModelHeader.txx" and a NUL |
| LevelTextLoader.GetPathNone | BinaryConverter/Source/LevelLoader.cpp:239-259 | there is no result exactly when the path is nothing but separators |
| LevelTextLoader.Loaded | BinaryConverter/Source/LevelLoader.cpp:37-50 | a successful load leaves the records of the header file as the model headers |
| LevelTextLoader.LevelLoader.constructor | BinaryConverter/Source/LevelLoader.cpp:3-8 | the three counts start at 0 and every list is empty |
| LevelTextLoader.LevelLoader.Clear | BinaryConverter/Source/LevelLoader.cpp:15-35 | every list is emptied, the positions and counts zeroed |
| LevelTextLoader.LevelLoader.LoadLevel | BinaryConverter/Source/LevelLoader.cpp:37-50 | succeeds exactly when the level file opens, changes nothing otherwise, and else leaves the loaded level |
| LevelTextLoader.LevelLoader.StartReading | BinaryConverter/Source/LevelLoader.cpp:52-91 | the level becomes what the dispatch function gives |
| LevelTextLoader.LevelLoader.ReadSection | BinaryConverter/Source/LevelLoader.cpp:59-89 | one pass changes the level as the section function gives |
| LevelTextLoader.LevelLoader.ReadMeshList | BinaryConverter/Source/LevelLoader.cpp:121-137 | only the model list changes, gaining one mesh |
| LevelTextLoader.LevelLoader.ReadLightList | BinaryConverter/Source/LevelLoader.cpp:139-193 | the level and next line become those the light function gives |
| LevelTextLoader.LevelLoader.ReadCheckPointList | BinaryConverter/Source/LevelLoader.cpp:195-223 | the level and next line become those the checkpoint function gives |
| LevelTextLoader.LevelLoader.ReadModelHeaders | BinaryConverter/Source/LevelLoader.cpp:103-119 | only the model headers change, gaining the file's records up to the first that cannot be read whole |
| LevelTextProperties.VectorLine | BinaryConverter/Source/LevelLoader.cpp:128 | a line of a leading word and three values reads those values, whatever the vector held |
| LevelTextProperties.CountLine | BinaryConverter/Source/LevelLoader.cpp:93-101 | a count written as text after a leading word reads back as that count |
| LevelTextProperties.WordLine | BinaryConverter/Source/LevelLoader.cpp:153-160 | a leading word and one value read back as that value, both as a string and as a float |
| LevelTextProperties.HeaderSection | BinaryConverter/Source/LevelLoader.cpp:60-74 | a header key sets the matching count from the next line and skips one more line |
| LevelTextProperties.MeshSection | BinaryConverter/Source/LevelLoader.cpp:75-79 | a mesh entry appends exactly that model and the pass ends after one more line |
| LevelTextProperties.LightStartRead | BinaryConverter/Source/LevelLoader.cpp:144-153 | a light's first three lines give its translation, color and type |
| LevelTextProperties.DirectionalSection | BinaryConverter/Source/LevelLoader.cpp:154-166 | a directional light appends that light with type 0, its intensity and its direction |
| LevelTextProperties.PointSection | BinaryConverter/Source/LevelLoader.cpp:167-176 | a point light appends that light with type 1 and its intensity |
| LevelTextProperties.SpotSection | BinaryConverter/Source/LevelLoader.cpp:177-192 | a spot light appends that light with type 2, its intensity, direction and angles |
| LevelTextProperties.UnknownLightSection | BinaryConverter/Source/LevelLoader.cpp:139-193 | a light of an unknown type is read past, three lines, with no change |
| LevelTextProperties.CheckPointNumbered | BinaryConverter/Source/LevelLoader.cpp:213-222 | a numbered checkpoint appends exactly that checkpoint |
| LevelTextProperties.CheckPointEnds | BinaryConverter/Source/LevelLoader.cpp:201-212 | a start or end entry sets that end of the course from the next line |
| LevelTextProperties.DispatchNoKeys | BinaryConverter/Source/LevelLoader.cpp:52-91 | lines without a known key are read past without a change |
| LevelTextProperties.LoadNoKeys | BinaryConverter/Source/LevelLoader.cpp:37-50 | a level file without keys loads to the cleared level with the header file's records |
| Text.Digits | BinaryConverter/Source/LevelLoader.cpp:99 | the decimal text of a number is non-empty and all digits |
| Text.DigitRunSpan | BinaryConverter/Source/ModelLoader.cpp:243 | the digit run is the longest all-digit prefix: every character in it is a digit and the one after it is not |
| Text.Stoi | Common/Source/TweakSettings.cpp:119-126 | a converted value always lies in the 32-bit int range; otherwise the conversion fails |
| Text.StreamInt | BinaryConverter/Source/LevelLoader.cpp:99 | an int read from a word lies in the 32-bit range and is 0 when the word does not start with a number |
| Text.KeyAfter | BinaryConverter/Source/LevelLoader.cpp:58-59 | the key read from a line is its first word when it has one |
| Text.FieldValues | BinaryConverter/Source/ModelLoader.cpp:120-135 | n field lines offer n values |
| Text.Drop | BinaryConverter/Source/ModelLoader.cpp:170 | reading n more lines leaves n fewer, or none |
| Text.DigitsValueOf | BinaryConverter/Source/LevelLoader.cpp:99 | the decimal text of a natural number reads back as that number |
| Text.IntTextRoundTrip | BinaryConverter/Source/LevelLoader.cpp:99 | the text written for any int starts with that int |
| Text.IntRoundTrip | Common/Source/TweakSettings.cpp:119-126 | the text written for a 32-bit int converts back to that int |
| Text.StreamIntRoundTrip | BinaryConverter/Source/LevelLoader.cpp:99 | the text written for a 32-bit int is extracted back as that int |
| Text.StreamBoolRoundTrip | Common/Source/AnimationClipLoader.cpp:51 | the text written for a bool is extracted back as that bool |
| Text.IntValueOf | BinaryConverter/Source/ModelLoader.cpp:125 | a field line holding a written int sets an int field to it |
| Text.BoolValueOf | Common/Source/AnimationClipLoader.cpp:51 | a field line holding a written bool sets a bool field to it |
| Text.IntTextIsWord | BinaryConverter/Source/LevelLoader.cpp:99 | the text written for an int is one word |
| Text.WordAlone | BinaryConverter/Source/ModelLoader.cpp:128 | a line holding a single word splits into just that word |
| Text.FieldLineWords | BinaryConverter/Source/ModelLoader.cpp:125-134 | a "key value" line splits into its key and its value, reads its key first and offers its value |
| Text.FieldLinesRead | BinaryConverter/Source/ModelLoader.cpp:120-135 | each written field line offers its own value, whatever follows |
| Text.DropBlock | BinaryConverter/Source/ModelLoader.cpp:120-135 | after a header line and a block the reading goes on with what followed them |
| TextStream.TakeFloats | BinaryConverter/Source/ModelLoader.cpp:175 | successive float extractions give one value per target |
| TextStream.IntPrefix | BinaryConverter/Source/ModelLoader.cpp:243 | an int extraction takes at most the word |
| TextStream.TakeInt | BinaryConverter/Source/ModelLoader.cpp:243 | a live stream with a word left stores the word's int value; a failed or empty stream keeps the target and stays failed |
| TextStream.TakeWordAt | BinaryConverter/Source/ModelLoader.cpp:128 | a string extraction reads the next word, or keeps the target past the last word |
| TextStream.TakeFloatsAt | BinaryConverter/Source/ModelLoader.cpp:175 | successive float extractions read successive words and keep their targets past the last word |
| TextStream.UnwordsWords | BinaryConverter/Source/LevelLoader.cpp:58 | words written one space apart read back as the same words |
| TextStream.TakeIntText | BinaryConverter/Source/ModelLoader.cpp:243 | the text written for an int is extracted back as that int, the whole word taken |
| TextStream.ValueLineWords | BinaryConverter/Source/LevelLoader.cpp:128 | a value line splits into its key and values and is not blank |

## Left out

- Floating-point arithmetic is not modelled.
  - Binary files hold floats, matrices and vertex structs as opaque 4-byte words.
  - Text files hold each float as the word it was read from.
  - Scene, animation, spline and input values are `real`, and are only copied, added, compared or set to constants.
  - Nothing depends on float rounding.
- Float math in the animation is left out: the per-frame update, fades and inverse kinematics, and the final joint transforms. The named joint stands for the world-space position `getJointPos` computes.
- The joint-matrix precomputation in `readJointList` is left out, for the same reason.
- The normalisation of weights in `ModelLoader::readWeights` is left out, for the same reason; each weight line is held as read.
- The sine curve of the pulse component is left out, for the same reason.
- The joint interpolation and the spline pose are left out, for the same reason. A spline run returns the point it is interpolating from.
- Foreign calls become parameters or modelled outcomes: Direct3D, DirectWrite, HID, Win32, COM reference counting and the performance counter. The model states the call made and what the source does with each possible answer.
- The XML documents components and settings are read from are given as parsed elements; tinyxml2 itself is not modelled.
- File contents are inputs. A text file is its list of lines, or None when it cannot be opened. A binary file is its bytes.
- The logger is left out, except where a logged line is the only outcome: the lines `TweakCommand` logs and the warning a typed `TweakSettings` listener logs when its conversion throws.
- The clock `tickUpdate` reads is a parameter: the performance counter before each event, which `getTickCount` reduces to 32 bits.
- EventManager.Manager.TickUpdate: the listeners are called as recorded calls with no effect on the manager. A listener that queues, aborts or triggers events during the drain is not modelled, so the contract fixes the new active queue to the leftovers alone.
- The mutex of `ConnectionController` is ignored, and its queue is modelled sequentially.
- `shrink_to_fit` and the destructors are left out, since they change only capacity and memory.
- Trivial getters are left out (for example `getLevelHeader`, `getBoundingVolumes` and the `ModelLoader` getters). The fields they return are the modelled state.
- The member variables of `ModelLoader` are held as one record value.
- The face indices of the bounding-volume loader are read only from words of decimal digits. A general float-to-int cast is not modelled.
- Cursor and window input of `InputTranslator` and the raw-input registration are inputs.
- The text loaders assume, as the source does, that the last line of a file is complete.
- `TweakSettings.h`, `VRAMInfo.h`, `AnimationData.h` and the header that sets the event manager's number of queues are not part of this model.
  The model takes 2 queues, and takes `m_Usage` from `VRAMMemInfo.h`.
- SplineControl.Recorder.SelectSequence: requires the selected sequence to hold a point when both components are attached, because the source then takes `back()` of its vector, which is undefined when it is empty.
- TextureLoader.TextureLoader.CreateTextureFromFile: requires a name that is not all dots, because the source then passes `strtok`'s null result to `strcmp`, which is undefined.
- ModelBinaryLoader.Loader.LoadBinaryFile: a stream too short for the sections its header counts is reported as `Malformed`, and what the fields then hold is not stated. The source returns true once the file opens, keeping whatever the failed reads left in its members (Graphics/Source/ModelBinaryLoader.cpp:142-155), for example one material of four empty strings for a header that counts one material and nothing after it.
- LevelBinaryLoader.Loader.ReadStreamData: the model stops at the first section the stream cannot hold whole and reports false. The source is void, reads the remaining sections from the failed stream and keeps whatever they leave (Common/Source/LevelBinaryLoader.cpp:35-41); that state is not modelled.
- LevelBinaryLoader.Loader.LoadBinaryFile: a short stream is reported as `Malformed` with the state left unstated, where the source returns true and keeps the partly read sections (Common/Source/LevelBinaryLoader.cpp:30-32).
- ClientLevelBinaryLoader.Loader.LoadBinaryFile: a short stream is reported as `Malformed` with the state left unstated, where the source reads all four parts from the failed stream and returns true (Client/Source/LevelBinaryLoader.cpp:19-25).
- InstanceBinaryLoader.Loader.ReadStreamData: the model stops at the first section the stream cannot hold whole and reports false. The source is void, reads on from the failed stream and keeps what it read (Common/Source/InstanceBinaryLoader.cpp:33-39); that state is not modelled.
- InstanceBinaryLoader.Loader.LoadBinaryFile: a short stream is reported as `Malformed` with the state left unstated, where the void source just holds what it read (Common/Source/InstanceBinaryLoader.cpp:22-31).
- AnimationLoader.HeaderRead: a file too short for its header gives the cleared header, where the source keeps the fields that were read and leaves the rest of its temporary header as it was (Common/Source/AnimationLoader.cpp:24-31).
- TextStream.TakeFloat: every word the text loaders read into a float is taken as a successful read of the whole word. The C++ `>> f` fails on a word that does not start with a number. It then stores 0, and every later extraction on that line fails and keeps its variable's old value (BinaryConverter/Source/ModelLoader.cpp:175 and 340-343). A word with a number at its front, such as "1.5,2", is read only up to where the number ends, and the rest goes to the next extraction. The model leaves out float syntax, as it leaves out float formatting, so the text round trips hold for any words written.
- AnimationLoader.JointsRead: a joint whose parent is neither 0 nor an earlier joint makes `readJoints[m_Parent - 1]` index out of range (Common/Source/AnimationLoader.cpp:59). That is undefined behaviour, and the model gives no joints for such a file and no exception.
- AnimationLoader.JointsRead: a file too short for its joints gives no joints. The source pushes numJoints joints, and the reused `temp` keeps the fields of the previous joint wherever a read fails (Common/Source/AnimationLoader.cpp:33-69).
- AnimationLoader.Loader.LoadAnimationData: on a short file the model keeps `HeaderRead` and `JointsRead`, as the two lines above say, and not the partly read header and stale joints of the source (Common/Source/AnimationLoader.cpp:71-79).
- GameScene.GameScene.OnFrame: the input state is a parameter and the player direction a recorded call; the `updateParticles` call to the graphics engine is left out, since the particle system is not part of this model.
- GameScene.GameScene.Init: the event listeners it registers and the "camera.flipped" settings listener are left out; only the state it sets and the two pre-loaded resource ids are modelled.
- SceneManager.Manager.SceneInput: the manager holds its scenes as values, so the pointer `getScene` hands out is modelled by this method, which applies the scene's own input rule in place; aliasing between that pointer and the manager's list is not modelled otherwise.
- AnimationPlayer.Animation.PlayClip: requires every clip's destination track to name a track pair inside the six-track array, because the source indexes `m_Tracks` with it unchecked (Common/Source/Animation.h:46) and an out-of-range destination is undefined behaviour.
- AnimationPlayer.Animation.PlayQueuedClip: requires the same of every clip, for the same reason.
- AnimationPlayer.Animation.SetAnimationData: requires the same of the clips it is given, for the same reason.
- TweakCommand.Run: `boost::filesystem::absolute` is a parameter. The model logs and opens the path it returns but does not spell out how boost joins the working directory to a relative name.
- LevelTextLoader.GetPath: a path of nothing but separators leaves `strtok` with no token and `strlen` on a null pointer. The model gives None there.
- LevelTextLoader.ScanAsWritten: a record whose reads fail part-way leaves the source's temporary header partly overwritten. The model pushes None for it.
- The stale duplicates are not modelled: `BinaryConverter/BinaryConverter/ModelConverter.cpp`, `Graphics/Source/AnimationClipLoader.cpp`, `Common/AnimationLoader.cpp` and `Client/Source/Components.h`.

## Findings

| source | as written | input that shows it | evidently intended | confidence | as-written member | corrected member |
|---|---|---|---|---|---|---|
| BinaryConverter/Source/LevelConverter.cpp:32-38 | the converter always writes the lighting section, but the reader at Common/Source/LevelBinaryLoader.cpp:39-40 skips it when the light count is 0 | a level with models and check points and no lights: the reader takes the lighting count word for the start point's first word | each optional section written only when its header count is non-zero, as the reader expects | not executed | LevelRoundTrip.SkippedLightingMisreadsStart | LevelRoundTrip.GuardedLevelFileRoundTrip |
| Client/Source/LevelBinaryLoader.cpp:62-88 | the client's old reader reads exactly three tagged light blocks, while the converter writes a block count first (BinaryConverter/Source/LevelConverter.cpp:110-114) | one all-zero directional light: the count 1 is read as a tag and the light is lost | the lighting read by its count | not executed | LevelRoundTrip.ClientLoaderLosesDirectional | LevelRoundTrip.CountedClientRoundTrip |
| Common/Source/InstanceBinaryLoader.cpp:41-51 | the reader reads a three-int header, while the converter writes four (BinaryConverter/Source/InstanceConverter.cpp:55-61) | a level with one model and no effects: the reader reads the effect count 0 as the model count and holds no records | the fourth count read (or skipped) before the sections | not executed | InstanceRoundTrip.ReaderLosesModels | InstanceRoundTrip.InstanceFileRoundTrip |
| Common/Source/Animation.cpp:595-602 | `changeWeight` accepts pairs 1 to 5 and writes tracks p and p+1 | `changeWeight(5, w)` writes `m_Tracks[6]` past the six-track array | the guard bounded so that p+1 is a track | not executed | AnimationPlayer.ChangeWeightOverruns | AnimationPlayer.WeightWrites |
| Graphics/Source/Buffer.cpp:440-479 | `map` passes the usage's ordinal as the Direct3D map type | a CPU-read staging buffer is mapped for write-discard; a write-discard buffer for read-write | the map type matching the CPU access the buffer was created with | not executed | Buffer.MapKindAsWrittenMismatch | Buffer.Buffer.Map |
| Graphics/Source/Buffer.cpp:27-30 | `getSizeOfElement` returns the element count | three elements of four bytes: the getter reports 3 | the element size | not executed | Buffer.SizeGetterCounterexample | Buffer.Buffer.GetSizeOfElement |
| Common/Source/Components.h:840-849 | the pulse's "Strength" attribute is read into the pulse length, and the strength keeps 0.5 | length 2 and strength 0.2: the pulse gets length 0.2 and strength 0.5 | length from "Length", strength from "Strength" | not executed | Components.PulseSettingsAsWrittenSwap | Components.PulseComponent.Initialize |
| BinaryConverter/Source/LevelLoader.cpp:103-119 | `readModelHeaders` loops while `tellg() < size`; after a failed read `tellg` is -1, so the loop never ends | a model-header file of the four bytes 01 00 00 00 (a name length of 1 and no name byte) | reading stops at the end of the file or at the first record that cannot be read whole | not executed | LevelTextLoader.TruncatedHeaderFileNeverEnds | LevelTextLoader.LevelLoader.ReadModelHeaders |
