# blender2vox: the MagicaVoxel .vox codec and the integer core of export and import

This project models, in Dafny, the parts of blender2vox that do not need
Blender:

- the `.vox` writer (`vox_writer.py`);
- the `.vox` reader (`vox_reader.py`);
- the exporter's colour quantiser (`quantize_colors` with `median_cut` and
  the nearest-colour remapping);
- the merge, normalise, clamp and deduplicate pass of `VoxExporter.export`
  and its two writing paths;
- the face-colour precedence of `_get_face_color`;
- the importer's rotation decode, its round-trip metadata, its per-face
  colouring and the instance loop of `import_vox`.

Files are byte sequences (`seq<byte>`, `byte` being `0..255`). Opening,
reading and writing a file is the boundary: `write` returns the bytes it
would write, and `read_vox_scene` starts from the bytes it read. Python
exceptions become the failure side of a `Result`:

- `struct.error` on a short read or an unpackable write: a size, a count
  or a palette channel outside its format;
- `ValueError` for a bad magic (`NotVox`), an `int()` of a malformed
  number in the scene graph (`BadInt`), an empty export or an out-of-range
  `add_voxel`/`set_color` index;
- `IndexError` in the rotation decode, for a single-instance import whose
  model id is past the model list (`Importer.ImportScene`), and in
  `get_voxel_color` on a palette too short for the index
  (`ReadVox.VoxelColor` gives `None`);
- `TypeError` where the preserved export path meets a colour.

Colours are tuples of integers, as in Python: `set_color` and
`create_simple_vox` take any channel values, and the 0..255 limit applies
only where `get_rgba_chunk` packs them with `'<BBBB'`.

Modules:

| module | file | models |
|---|---|---|
| `Wrappers` | wrappers.dfy | `Option`, `Result` |
| `Bytes` | bytes.dfy | `struct` `'<I'`, Python slices, ASCII encode/decode with `errors='replace'` |
| `Text` | text.dfy | `str.split()`, `int()` and `str()` on integers |
| `Voxels` | voxels.dfy | voxels, colours, the AABBGGRR default table, floor averages, the first-nearest scan |
| `Writer` | writer.dfy | `VoxChunk`, classes `VoxModel`, `VoxPalette`, `VoxWriter` |
| `SimpleVox` | simple_vox.dfy | `create_simple_vox` |
| `Reader` | reader.dfy | `_parse_dict` and the linear chunk scan |
| `Scene` | scene.dfy | the SIZE/XYZI/RGBA pass of `read_vox_scene` |
| `Graph` | graph.dfy | the nTRN/nSHP pass and the instance list |
| `ReadVox` | readvox.dfy | `read_vox_scene`, `read_vox_file`, `get_voxel_color` |
| `RoundTrip` | roundtrip.dfy | what the reader makes of the writer's bytes |
| `Quantizer` | quantizer.dfy | `quantize_colors`, `median_cut`, `color_distance` |
| `Exporter` | exporter.dfy | `VoxExporter.export` after voxelisation |
| `FaceColor` | face_color.dfy | `VoxExporter._get_face_color` |
| `Importer` | importer.dfy | `apply_vox_rotation`, metadata, face colouring, `import_vox` |

The stateful objects of the writer are classes. Their methods change only
what their `modifies` clauses name:

- `VoxModel.AddVoxel` appends a voxel;
- `VoxPalette.SetColor` overwrites one slot;
- `VoxWriter.AddModel` appends a model.

The loops of the source are methods with loop invariants, proved against
specification functions:

- the chunk scan;
- the dict reader;
- the model and graph passes;
- the XYZI/RGBA packers;
- the `create_simple_vox` colour loop;
- the quantiser's nearest scan;
- the export loops;
- the face-colouring loops.

The proved properties are lemmas about those functions.

Behaviours of the code that are kept as written:

- **The two default palettes are one slot apart.** The writer's palette
  keeps default entry `k` in slot `k` and never writes slot 0. The reader
  looks colour index `i` up at entry `i - 1` of its own default list. A
  file without an RGBA chunk therefore reads colour 1 as transparent
  black, while the writer's slot 1 is opaque white
  (`RoundTrip.DefaultPaletteMismatch`).
- **An XYZI chunk before any SIZE chunk is dropped** without an error
  (`Scene.NoSizeYet`).
- **A mixed export raises TypeError.** An export that mixes objects with
  metadata and voxelised objects takes the preserved path for every voxel.
  The first kept voxel that carries an RGB tuple instead of an index makes
  `1 <= color_idx` raise TypeError. The model reports exactly that
  (`Exporter.ExportOutcome`), and does not require homogeneous input.
- **The last palette wins.** The palette of the last object with metadata
  is used (`Exporter.LastPalette`), not the first.
- **A short trailing header ends the scan.** The chunk scan stops, without
  an error, when fewer than 12 bytes remain.
- **Rotation code 0 gives no matrix.** The object is left as it is.
- **Bad rotation codes are modelled, not required away.** The decode
  raises IndexError when idx1 or idx2 is 3, and when both are 0, since
  idx3 is then 3 (`Importer.RotationFails`). When idx1 and idx2 are both 1
  or both 2, the decode succeeds with a matrix that is not a rotation
  (`Importer.RotationDegenerate`). With both 2, idx3 is -1 and Python's
  negative index reads column 2.

## Model

| member | source | states |
|---|---|---|
| Bytes.U32RoundTrip | blender2vox_pkg/vox_reader.py:105 | unpacking `'<I'` undoes packing it, for every value below 2^32 |
| Bytes.U32Injective | blender2vox_pkg/vox_writer.py:37-38 | packing undoes unpacking: every four bytes are the packing of the value they hold |
| Bytes.U32At | blender2vox_pkg/vox_reader.py:105 | reading a u32 at a position succeeds exactly when four bytes remain there, and the value is below 2^32 |
| Bytes.U32AtEncoded | blender2vox_pkg/vox_reader.py:119 | a packed value is read back at its position whatever surrounds it |
| Bytes.FieldWindow | blender2vox_pkg/vox_reader.py:63-66 | a length-prefixed string written at a position reads back as its length and its bytes |
| Bytes.SliceInRange | blender2vox_pkg/vox_reader.py:108 | Python's clipped slice is the plain slice when both ends are in range |
| Bytes.AsciiEncode | blender2vox_pkg/vox_writer.py:36 | encoding an ASCII string gives one byte per character, its code |
| Bytes.AsciiDecodeAt | blender2vox_pkg/vox_reader.py:65 | decoding with `errors='replace'` maps each byte on its own: ASCII to itself, any other byte to U+FFFD |
| Bytes.AsciiRoundTrip | blender2vox_pkg/vox_reader.py:65 | decoding what was ASCII-encoded gives the string back |
| Text.Split | blender2vox_pkg/vox_reader.py:167 | every word `str.split()` returns is non-empty and holds no whitespace |
| Text.DropSpaces | blender2vox_pkg/vox_reader.py:167 | what is dropped in front is whitespace, and the rest does not start with whitespace |
| Text.Word | blender2vox_pkg/vox_reader.py:167 | a word is a whitespace-free prefix ended by whitespace or the end of the string |
| Text.SplitJoined | blender2vox_pkg/vox_reader.py:167 | splitting space-joined words gives back exactly those words |
| Text.ParseFormat | blender2vox_pkg/vox_reader.py:169 | `int(str(i)) == i` for every integer, negative ones included |
| Text.ParseDigits | blender2vox_pkg/vox_reader.py:174 | `int()` of a string of decimal digits is their value |
| Text.ParseSigned | blender2vox_pkg/vox_reader.py:174 | `int()` of a minus sign followed by digits is minus their value |
| Text.ParseUnderscore | blender2vox_pkg/vox_reader.py:169-174 | `int()` ignores an underscore between two digit groups: `int("1_000") == 1000` |
| Text.ParseRejectsLoneUnderscore | blender2vox_pkg/vox_reader.py:169-174 | `int()` raises ValueError on a trailing, a leading or a doubled underscore |
| Text.DigitsOfFormat | blender2vox_pkg/vox_reader.py:200 | the digits `str(n)` produces have the value n |
| Voxels.AabbggrrRoundTrip | blender2vox_pkg/vox_writer.py:126-132 | splitting the AABBGGRR word of a colour whose channels are bytes gives the colour back |
| Voxels.AabbggrrWords | blender2vox_pkg/vox_reader.py:283-289 | every word below 2^32 is the AABBGGRR packing of the colour it splits into |
| Voxels.DecodeDefaultTable | blender2vox_pkg/vox_writer.py:87-134 | the loop over the 256 default words builds the default palette, 256 entries |
| Voxels.DefaultPaletteFirstSlots | blender2vox_pkg/vox_writer.py:90-91 | default slot 0 is transparent black and slot 1 opaque white |
| Voxels.ChannelMinIsMin | blender2vox_pkg/vox_exporter.py:62-64 | the channel minimum of a non-empty box is one of its values and below all of them |
| Voxels.ChannelMaxIsMax | blender2vox_pkg/vox_exporter.py:62-64 | the channel maximum of a non-empty box is one of its values and above all of them |
| Voxels.AverageWithin | blender2vox_pkg/vox_exporter.py:56-59 | the floor average of a non-empty box stays inside every per-channel bound its members respect |
| Voxels.FirstNearestIsFirst | blender2vox_pkg/vox_exporter.py:89-95 | the scan returns a candidate at minimal distance, with every earlier candidate strictly farther |
| Voxels.FirstNearestUnique | blender2vox_pkg/vox_exporter.py:93 | at most one position is the first nearest, so the strict `<` makes the result unique |
| Voxels.FindNearest | blender2vox_pkg/vox_writer.py:250-256 | the best-so-far loop with a strict `<` finds the first nearest candidate |
| Writer.ChunkBytes | blender2vox_pkg/vox_writer.py:27-41 | a chunk is `|id| + 8 + |content| + |children|` bytes long |
| Writer.ChunkLayout | blender2vox_pkg/vox_writer.py:36-41 | a chunk's bytes are its ASCII id, the u32 content length, the u32 children length, the content, then the children, each read back where the reader looks |
| Writer.VoxelsBytes | blender2vox_pkg/vox_writer.py:75-76 | the XYZI records are four bytes per voxel |
| Writer.XyziChunk | blender2vox_pkg/vox_writer.py:72-77 | XYZI content is the count followed by four bytes per voxel |
| Writer.SizeChunk | blender2vox_pkg/vox_writer.py:67-70 | SIZE content is exactly 12 bytes |
| Writer.RgbaContent | blender2vox_pkg/vox_writer.py:160-170 | the RGBA content is always 1024 bytes |
| Writer.PaletteFitsSlots | blender2vox_pkg/vox_writer.py:160-169 | with 256 slots, packing the palette fails exactly when one of slots 1..255 has a channel outside 0..255; slot 0 is never packed |
| Writer.DefaultPaletteFits | blender2vox_pkg/vox_writer.py:119-134 | the default palette always packs |
| Writer.SetColorFits | blender2vox_pkg/vox_writer.py:136-169 | `set_color` takes any channels; a palette that packed still packs afterwards exactly when the new colour's channels are in 0..255 |
| Writer.FileAround | blender2vox_pkg/vox_writer.py:190-212 | a file starts with "VOX " and version 150 and holds MAIN around the children, 20 bytes of header in all |
| Writer.UnfitNotEncodable | blender2vox_pkg/vox_writer.py:203-205 | a model whose size or voxel count does not fit `'<I'` makes `write` raise |
| Writer.ModelsBytesStep | blender2vox_pkg/vox_writer.py:203-205 | each model appends its SIZE then XYZI bytes after those of the models before it |
| Writer.VoxModel.constructor | blender2vox_pkg/vox_writer.py:47-51 | a new model has the given size and no voxels |
| Writer.VoxModel.AddVoxel | blender2vox_pkg/vox_writer.py:53-65 | fails (ValueError) exactly when a coordinate is outside 0..255 or the index outside 1..255, leaving the voxels alone; otherwise appends exactly the one voxel at the end, with no dedup and no size check |
| Writer.VoxModel.GetSizeChunk | blender2vox_pkg/vox_writer.py:67-70 | fails exactly when a size does not fit `'<I'`, otherwise is the SIZE chunk |
| Writer.VoxModel.GetXyziChunk | blender2vox_pkg/vox_writer.py:72-77 | the packing loop yields the XYZI chunk, failing exactly when the count does not fit |
| Writer.VoxModel.GetChunksBytes | blender2vox_pkg/vox_writer.py:204-205 | the bytes of one model's SIZE and XYZI chunks, or struct.error exactly when they do not fit |
| Writer.VoxPalette.constructor | blender2vox_pkg/vox_writer.py:83-85 | a new palette is the 256-entry default palette |
| Writer.VoxPalette.SetColor | blender2vox_pkg/vox_writer.py:136-148 | fails exactly outside 1..255 and then changes nothing; otherwise replaces slot `index` and no other, whatever the channel values |
| Writer.VoxPalette.GetRgbaChunk | blender2vox_pkg/vox_writer.py:150-170 | the loop writes slot i + 1 at file position i, and opaque black past the palette's end; it raises struct.error exactly when a packed colour has a channel outside 0..255 |
| Writer.VoxWriter.constructor | blender2vox_pkg/vox_writer.py:178-180 | a new writer has no models and a fresh default palette |
| Writer.VoxWriter.AddModel | blender2vox_pkg/vox_writer.py:182-184 | appends the model and keeps the palette |
| Writer.VoxWriter.ModelsChunksBytes | blender2vox_pkg/vox_writer.py:202-205 | the loop over the models yields their SIZE and XYZI bytes in model order, failing exactly when some model does not fit |
| Writer.VoxWriter.Write | blender2vox_pkg/vox_writer.py:186-212 | `write` yields the header, then MAIN around PACK (more than one model only), SIZE/XYZI per model and RGBA, or struct.error when a size, a count or a palette channel does not fit its format |
| Writer.WriteModel | blender2vox_pkg/vox_writer.py:265-266 | `add_model` then `write` on an empty writer writes that one model with the writer's palette |
| RoundTrip.SmallModelBytes | blender2vox_pkg/vox_writer.py:67-77 | the 2x2x2 model with voxel (0, 0, 0, 1) packs to SIZE `02000000 02000000 02000000` and XYZI `01000000 00000001` |
| RoundTrip.ChunkHeaderAt | blender2vox_pkg/vox_reader.py:101-110 | a written chunk is scanned back as its id and content, and the scan resumes after its content |
| RoundTrip.ScanLeaves | blender2vox_pkg/vox_reader.py:99-110 | the scan over written leaf chunks sees exactly those chunks in order |
| RoundTrip.MainAt | blender2vox_pkg/vox_reader.py:106-110 | MAIN has no content, so its children are scanned as the chunks that follow it |
| RoundTrip.ScanFile | blender2vox_pkg/vox_reader.py:99-110 | a written file scans as MAIN, then PACK (when written), SIZE/XYZI per model, then RGBA |
| RoundTrip.SizeRoundTrip | blender2vox_pkg/vox_reader.py:118-120 | a written SIZE chunk reads back as the model's size |
| RoundTrip.XyziRecord | blender2vox_pkg/vox_reader.py:125-128 | record i of a written XYZI chunk reads back as voxel i |
| RoundTrip.XyziRoundTrip | blender2vox_pkg/vox_reader.py:121-128 | a written XYZI chunk reads back as the model's voxels, in order |
| RoundTrip.RgbaRoundTrip | blender2vox_pkg/vox_reader.py:136-142 | entry p of a read RGBA chunk is what the writer put at file position p |
| RoundTrip.ModelPair | blender2vox_pkg/vox_reader.py:117-135 | a model's SIZE and XYZI chunks add exactly that model and leave the palette alone |
| RoundTrip.ModelsWritten | blender2vox_pkg/vox_reader.py:117-135 | the model pass over the written SIZE/XYZI chunks finds exactly the written models, in order |
| RoundTrip.ModelsOfFile | blender2vox_pkg/vox_reader.py:112-142 | the model pass over a written file yields the written models and the RGBA chunk's palette |
| RoundTrip.GraphSkips | blender2vox_pkg/vox_reader.py:148-187 | the graph pass ignores every chunk the writer emits |
| RoundTrip.GraphOfFile | blender2vox_pkg/vox_reader.py:144-187 | a written file has no scene graph |
| RoundTrip.NoGraphInstances | blender2vox_pkg/vox_reader.py:197-200 | without transforms there is one origin instance per model |
| RoundTrip.PaletteOfFile | blender2vox_pkg/vox_reader.py:136-142 | all 256 read palette entries are the writer's file positions |
| RoundTrip.WriteThenRead | blender2vox_pkg/vox_writer.py:186-212 | reading written bytes gives the written models in order, a 256-entry palette whose entry p is slot p + 1 of the writer's palette (opaque black at 255), and one origin instance per model |
| RoundTrip.WrittenColorReadBack | blender2vox_pkg/vox_reader.py:294-307 | colour index i in 1..255 of a written file reads back as the writer's slot i; only slot 0 is lost |
| RoundTrip.DefaultPaletteMismatch | blender2vox_pkg/vox_reader.py:115 | without an RGBA chunk colour index 1 reads as transparent black, though the writer's default slot 1 is opaque white |
| Reader.GetPut | blender2vox_pkg/vox_reader.py:71 | after `d[k] = v`, key k reads as v and every other key as before, so a later duplicate overwrites an earlier one |
| Reader.Put | blender2vox_pkg/vox_reader.py:71 | assigning a new key adds one item; an existing key keeps the dict's size |
| Reader.Get | blender2vox_pkg/vox_reader.py:176 | a value found for a key is the value of an item with that key |
| Reader.ReadItem | blender2vox_pkg/vox_reader.py:63-70 | one key and one value, each behind its u32 length, and the position after them |
| Reader.ReadItems | blender2vox_pkg/vox_reader.py:62-71 | the loop of n items threads the position and assigns each item into the dict |
| Reader.ParseDict | blender2vox_pkg/vox_reader.py:48-72 | `_parse_dict` is the count, then that many items |
| Reader.ItemRoundTrip | blender2vox_pkg/vox_reader.py:63-70 | a written item is read back as its key and value bytes and the position just past it |
| Reader.AttrsFromItems | blender2vox_pkg/vox_reader.py:62-71 | items laid out one after another are read into the dict their assignments build, ending where they end |
| Reader.DictRoundTrip | blender2vox_pkg/vox_reader.py:48-72 | reading a written dict gives the dict its items build and the position start + 4 + the sum of 8 + key length + value length |
| Reader.ScanAdvance | blender2vox_pkg/vox_reader.py:104-110 | each step of the scan records the chunk at the cursor and moves to 12 + content size past it |
| Reader.ChunkEnd | blender2vox_pkg/vox_reader.py:107-110 | the next chunk starts at least 12 bytes on, past the header and the content |
| Reader.ScanChunks | blender2vox_pkg/vox_reader.py:99-110 | the `while` loop over the cursor yields the linear scan from byte 8, stopping when fewer than 12 bytes remain |
| Scene.VoxelsOf | blender2vox_pkg/vox_reader.py:123-128 | an XYZI chunk holds as many voxels as its count says |
| Scene.PaletteOf | blender2vox_pkg/vox_reader.py:137-142 | an RGBA chunk gives exactly 256 entries |
| Scene.ReadSize | blender2vox_pkg/vox_reader.py:119-120 | unpacking SIZE fails exactly when it is short, else gives its three u32 |
| Scene.ReadXyzi | blender2vox_pkg/vox_reader.py:122-128 | the voxel loop fails exactly when a record is cut short, else gives the records in file order |
| Scene.ReadRgba | blender2vox_pkg/vox_reader.py:137-142 | the palette loop fails exactly when a record is cut short, else gives the 256 records |
| Scene.StepModels | blender2vox_pkg/vox_reader.py:118-142 | one chunk of the model loop fails exactly when it is unreadable, else is one model step |
| Scene.ReadModels | blender2vox_pkg/vox_reader.py:112-142 | the model loop threads `current_size`, the models and the palette through the chunks |
| Scene.LatestSize | blender2vox_pkg/vox_reader.py:118-120 | the current size is the size of the last SIZE chunk |
| Scene.NoSizeYet | blender2vox_pkg/vox_reader.py:129 | before any SIZE chunk there is no current size and every XYZI chunk is dropped |
| Scene.SizeSource | blender2vox_pkg/vox_reader.py:114-120 | a current size is one some SIZE chunk holds |
| Scene.ModelOrigin | blender2vox_pkg/vox_reader.py:121-135 | every model is an XYZI chunk's voxels with the size of a SIZE chunk before it |
| Scene.LatestPalette | blender2vox_pkg/vox_reader.py:136-142 | the palette is the last RGBA chunk's |
| Scene.NoPaletteYet | blender2vox_pkg/vox_reader.py:115 | without an RGBA chunk the palette stays the default one |
| Scene.PaletteSize | blender2vox_pkg/vox_reader.py:115-142 | the palette always has 256 entries |
| Graph.U32Nat | blender2vox_pkg/vox_reader.py:151 | a u32 read succeeds exactly when four bytes remain, and agrees with the plain read |
| Graph.ReadTransform | blender2vox_pkg/vox_reader.py:150-177 | the cursor-threaded nTRN decode: node id, node dict, child id, two skipped ids, frame count, frame dict |
| Graph.ReadFrame | blender2vox_pkg/vox_reader.py:160-162 | the frame dict is read only when a frame is announced and bytes remain, else it is empty |
| Graph.ReadShape | blender2vox_pkg/vox_reader.py:180-187 | nSHP gives its node id and, when the model count is positive, its first model id |
| Graph.ReadGraph | blender2vox_pkg/vox_reader.py:148-187 | the graph loop fills transforms and shape nodes chunk by chunk, failing where an unpack or `int()` would raise |
| Graph.ReadGraphStep | blender2vox_pkg/vox_reader.py:149-187 | one step records an nTRN's transform or an nSHP's model id and ignores every other chunk |
| Graph.BuildInstances | blender2vox_pkg/vox_reader.py:189-200 | the instance loop, then origin instances when none resolved |
| Graph.TranslationJoined | blender2vox_pkg/vox_reader.py:164-169 | a `_t` of "x y z" decodes to the translation (x, y, z) |
| Graph.TranslationFromThreeWords | blender2vox_pkg/vox_reader.py:165-169 | a translation other than (0, 0, 0) only comes from a `_t` that splits into exactly three integers |
| Graph.GraphFromErrors | blender2vox_pkg/vox_reader.py:148-187 | the graph pass fails only by a short read or a bad `int()`, never by the magic |
| Graph.TransformRecorded | blender2vox_pkg/vox_reader.py:177 | after an nTRN chunk its node maps to its transform, and every other node and all shapes are as before |
| Graph.ResolvedMembers | blender2vox_pkg/vox_reader.py:191-195 | an instance is resolved exactly when some transform's child is a shape node naming an existing model |
| Graph.OriginInstancesAt | blender2vox_pkg/vox_reader.py:198-200 | origin instance i is model i at (0, 0, 0), rotation 0, named "Model_i" |
| Graph.InstancesInRange | blender2vox_pkg/vox_reader.py:194 | every instance names an existing model |
| Graph.InstancesPresent | blender2vox_pkg/vox_reader.py:198 | a scene has instances exactly when it has models |
| ReadVox.ReadVoxScene | blender2vox_pkg/vox_reader.py:75-206 | `read_vox_scene` from the bytes: magic check, scan, model pass, graph pass, instances |
| ReadVox.NotVoxIff | blender2vox_pkg/vox_reader.py:90-92 | reading fails as not-a-VOX (`NotVox`, a ValueError) exactly when the data does not start with "VOX " |
| ReadVox.VersionIgnored | blender2vox_pkg/vox_reader.py:94-96 | the version word has no effect on the scene |
| ReadVox.ScanIgnoresHeader | blender2vox_pkg/vox_reader.py:99-110 | the scan from byte 8 on never looks at the header |
| ReadVox.SceneShape | blender2vox_pkg/vox_reader.py:189-206 | a scene has a 256-entry palette, only instances of existing models, and instances exactly when it has models |
| ReadVox.VoxFileFirstModel | blender2vox_pkg/vox_reader.py:224-241 | `read_vox_file` is the first model with the scene palette, or a 1x1x1 empty model when there is none |
| ReadVox.VoxFilePalette | blender2vox_pkg/vox_reader.py:226-241 | the palette of a file that was read has 256 entries |
| ReadVox.VoxelColorTotal | blender2vox_pkg/vox_reader.py:294-307 | with a 256-entry palette, index i in 1..255 gives entry i - 1 and any other index white |
| ReadVox.VoxFileColors | blender2vox_pkg/vox_reader.py:304-307 | `get_voxel_color` never raises on what `read_vox_file` returns |
| SimpleVox.Distinct | blender2vox_pkg/vox_writer.py:246-247 | the distinct colours have no repeats and are exactly the colours met |
| SimpleVox.DistinctOrder | blender2vox_pkg/vox_writer.py:246-261 | the distinct colours are listed in order of first appearance |
| SimpleVox.AllocIndex | blender2vox_pkg/vox_writer.py:247-261 | every colour gets an index in 1..255 |
| SimpleVox.MaxCoord | blender2vox_pkg/vox_writer.py:230-232 | the maximum coordinate is reached by some voxel and bounds all of them |
| SimpleVox.Lookup | blender2vox_pkg/vox_writer.py:247 | a colour is in the table exactly when it is one of its keys |
| SimpleVox.AllocIndexNearest | blender2vox_pkg/vox_writer.py:248-257 | once 255 colours are in the table, a new colour takes the index of the first nearest colour already met |
| SimpleVox.ColorIndexExtend | blender2vox_pkg/vox_writer.py:247 | a colour met again keeps the index it got first |
| SimpleVox.ColorIndexOfDistinct | blender2vox_pkg/vox_writer.py:246-261 | the j-th distinct colour gets the j-th table entry |
| SimpleVox.SimpleIndexRange | blender2vox_pkg/vox_writer.py:263 | every voxel's index is one `add_voxel` accepts |
| SimpleVox.FirstColorsKept | blender2vox_pkg/vox_writer.py:258-261 | the first 255 distinct colours get indices 1..255 in first-seen order, and palette slot j + 1 holds colour j opaque |
| SimpleVox.LaterColorsShareNearest | blender2vox_pkg/vox_writer.py:248-257 | a distinct colour past the 255th shares the index of its first nearest earlier colour |
| SimpleVox.PaletteStep | blender2vox_pkg/vox_writer.py:260 | while indices remain, a new colour fills the next slot, opaque |
| SimpleVox.PaletteFull | blender2vox_pkg/vox_writer.py:248-257 | once the indices run out, new colours leave the palette alone |
| SimpleVox.AssignColor | blender2vox_pkg/vox_writer.py:243-261 | one step of the colour loop keeps the table, `next_index` and the palette equal to their values for the colours met so far |
| SimpleVox.AddSimpleVoxel | blender2vox_pkg/vox_writer.py:263 | `add_voxel` fails exactly for a voxel outside the grid, else appends it with its colour's index |
| SimpleVox.AddVoxels | blender2vox_pkg/vox_writer.py:242-263 | the voxel loop succeeds exactly when every voxel is in the grid, and leaves the first-seen palette and every voxel with its colour's index |
| SimpleVox.CreateSimpleVox | blender2vox_pkg/vox_writer.py:215-266 | empty input raises; the size defaults to max + 1 per axis; a voxel outside the grid raises; a palette slot with a channel outside 0..255 makes the write raise struct.error; otherwise the file of that one model and the first-seen palette |
| SimpleVox.SimplePaletteFits | blender2vox_pkg/vox_writer.py:246-266 | the palette `create_simple_vox` leaves packs exactly when each of the first 255 distinct colours has its channels in 0..255 |
| SimpleVox.CreateSimpleVoxBadColor | blender2vox_pkg/vox_writer.py:215-266 | a colour with a channel outside 0..255 among the first 255 distinct colours makes `create_simple_vox` raise struct.error |
| Quantizer.InsertBy | blender2vox_pkg/vox_exporter.py:73 | inserting keeps the multiset of colours, plus the one inserted |
| Quantizer.SortBy | blender2vox_pkg/vox_exporter.py:73 | `sorted` by a channel is a permutation of the box |
| Quantizer.SortBySorted | blender2vox_pkg/vox_exporter.py:73 | `sorted` by a channel gives a list ordered by that channel |
| Quantizer.SortByStable | blender2vox_pkg/vox_exporter.py:73 | `sorted` is stable: the colours sharing a key value come out in the order they went in |
| Quantizer.Log2Floor | blender2vox_pkg/vox_exporter.py:79 | `int(math.log2(n))` is the d with 2^d <= n < 2^(d+1) |
| Quantizer.MedianCut | blender2vox_pkg/vox_exporter.py:51-76 | `median_cut` returns between 1 and 2^depth colours |
| Quantizer.HalvesWithin | blender2vox_pkg/vox_exporter.py:73-76 | both halves of the sorted box respect the box's channel bounds, and neither is empty when the box has two colours or more |
| Quantizer.MedianCutWithin | blender2vox_pkg/vox_exporter.py:51-76 | every colour `median_cut` returns for a non-empty box lies within every per-channel bound of the box |
| Quantizer.NearestMapAt | blender2vox_pkg/vox_exporter.py:86-96 | every colour is mapped to its first nearest palette entry, 1-based |
| Quantizer.NearestIndices | blender2vox_pkg/vox_exporter.py:86-96 | the mapping loop with its best-so-far inner scan builds the nearest map |
| Quantizer.QuantizeColors | blender2vox_pkg/vox_exporter.py:32-98 | `quantize_colors` with the list order of `set(colors)` given |
| Quantizer.QuantizeNoColors | blender2vox_pkg/vox_exporter.py:38-40 | no colours gives palette [(180, 180, 180)] and the map {(180, 180, 180): 1} |
| Quantizer.QuantizeFits | blender2vox_pkg/vox_exporter.py:42-48 | when the distinct colours fit, the palette is exactly those colours and each maps to its 1-based position |
| Quantizer.QuantizeReduces | blender2vox_pkg/vox_exporter.py:78-83 | with too many colours the palette has 1..max_colors entries, each within every channel bound of the input |
| Quantizer.QuantizeBounded | blender2vox_pkg/vox_exporter.py:32-98 | for max_colors >= 1 quantisation succeeds with 1..max_colors entries |
| Quantizer.QuantizeWithin | blender2vox_pkg/vox_exporter.py:32-98 | on every path the palette stays inside each channel bound that the input colours respect |
| Quantizer.QuantizeNearest | blender2vox_pkg/vox_exporter.py:86-96 | every input colour maps to a slot holding its first nearest palette entry |
| Quantizer.PositionMapNearest | blender2vox_pkg/vox_exporter.py:47 | a colour that fits keeps its own slot, which is its first nearest entry |
| Quantizer.NearestMapNearest | blender2vox_pkg/vox_exporter.py:86-96 | the nearest scan names a slot in range holding the first nearest entry |
| Quantizer.DistanceZero | blender2vox_pkg/vox_exporter.py:27-29 | a colour is at distance 0 from itself and only from itself |
| Quantizer.NearestOfMember | blender2vox_pkg/vox_exporter.py:89-95 | a colour that is a candidate is its own first nearest candidate |
| Quantizer.QuantizeSlot | blender2vox_pkg/vox_exporter.py:32-98 | every colour maps to a slot in 1..max_colors holding its nearest palette colour, which is the colour itself when the colours fit |
| FaceColor.FirstAvailable | blender2vox_pkg/vox_exporter.py:526-543 | the first available source wins; the result is the fallback or one of the sources |
| FaceColor.FaceColorPrecedence | blender2vox_pkg/vox_exporter.py:514-543 | the face colour is the first available of the polygon's averaged vertex colours, its material colour and the default |
| FaceColor.FaceColorSource | blender2vox_pkg/vox_exporter.py:526-543 | the colour is the default, some material's colour, or the average of the polygon's vertex colours |
| FaceColor.FaceColorWithin | blender2vox_pkg/vox_exporter.py:530-534 | each channel stays within any bound that the polygon's vertex colours, every material colour and the default respect |
| FaceColor.FaceColorUniform | blender2vox_pkg/vox_exporter.py:527-534 | a polygon whose vertices all carry one colour is given exactly that colour |
| FaceColor.FaceColorOfTriangle | blender2vox_pkg/vox_exporter.py:521-524 | a triangle of a triangulated mesh gets the colour of the polygon it came from |
| Exporter.CollectVoxels | blender2vox_pkg/vox_exporter.py:135-152 | the collection loop takes each object's metadata voxels when it preserves, else its voxelised ones, and the last preserved palette |
| Exporter.LastPalette | blender2vox_pkg/vox_exporter.py:139-146 | a palette is recorded only when it is non-empty |
| Exporter.CoordBounds | blender2vox_pkg/vox_exporter.py:158-163 | the bounding-box minimum and maximum are attained and bound every voxel |
| Exporter.SizesPositive | blender2vox_pkg/vox_exporter.py:166-168 | the model size is max - min + 1 on each axis, at least 1 |
| Exporter.NormalizeOffsets | blender2vox_pkg/vox_exporter.py:186-193 | each coordinate is its distance above the minimum capped at 255, and the paint is kept |
| Exporter.UniqueInGrid | blender2vox_pkg/vox_exporter.py:191-193 | every kept voxel lies in the 256-cube |
| Exporter.UniqueVoxels | blender2vox_pkg/vox_exporter.py:212-232 | the normalising loop, then the first-occurrence loop over the seen set |
| Exporter.DedupKeys | blender2vox_pkg/vox_exporter.py:226-232 | the kept positions are exactly the positions of all the voxels |
| Exporter.DedupDistinct | blender2vox_pkg/vox_exporter.py:226-232 | no two kept voxels share a position |
| Exporter.DedupFirst | blender2vox_pkg/vox_exporter.py:226-232 | every kept voxel is the first voxel at its position |
| Exporter.DedupFrom | blender2vox_pkg/vox_exporter.py:226-232 | every kept voxel is one of the input voxels |
| Exporter.IndexedVoxelsSpec | blender2vox_pkg/vox_exporter.py:196-202 | the preserved voxels fail with TypeError exactly when one carries a colour; otherwise each index is kept, 1 standing in for one outside 1..255 |
| Exporter.SetSlotsAt | blender2vox_pkg/vox_exporter.py:179-181 | after the palette loop, slot k holds entry k - 1 for 1 <= k <= the entry count and the old colour elsewhere |
| Exporter.SetPreservedPalette | blender2vox_pkg/vox_exporter.py:179-181 | the loop sets slot i + 1 to entry i for the entries with i < 255 |
| Exporter.AddPreservedVoxels | blender2vox_pkg/vox_exporter.py:184-202 | the loop adds the first voxel at each clamped position with its index made valid, and fails exactly where TypeError would be raised |
| Exporter.PreservedStep | blender2vox_pkg/vox_exporter.py:195-202 | a seen position changes nothing; a new one is recorded, and adds its voxel or raises TypeError |
| Exporter.PreservedPath | blender2vox_pkg/vox_exporter.py:174-202 | the preserved path on an empty model and the writer's palette yields the preserved model and palette, or fails exactly when they fail |
| Exporter.PreservedSpec | blender2vox_pkg/vox_exporter.py:174-209 | the preserved path succeeds exactly when no kept voxel carries a colour; then the model has the box's size and one voxel per kept position, each keeping its index or 1 |
| Exporter.PreservedFailure | blender2vox_pkg/vox_exporter.py:199 | the preserved path fails, with TypeError, exactly when some kept voxel carries a colour |
| Exporter.SetQuantizedPalette | blender2vox_pkg/vox_exporter.py:245-246 | the loop sets slot i + 1 to quantised colour i, opaque |
| Exporter.AddQuantizedVoxels | blender2vox_pkg/vox_exporter.py:249-251 | the loop adds every kept voxel with `color_map.get(color, 1)` |
| Exporter.ColorOrder | blender2vox_pkg/vox_exporter.py:42 | the list order taken for `list(set(colors))`: every colour exactly once, in order of first appearance |
| Exporter.StandardQuantized | blender2vox_pkg/vox_exporter.py:235-241 | `quantize_colors(colors, 255)` on the kept colours yields 1..255 colours |
| Exporter.StandardAddable | blender2vox_pkg/vox_exporter.py:248-251 | every kept voxel of the standard path passes `add_voxel`'s checks |
| Exporter.StandardVoxel | blender2vox_pkg/vox_exporter.py:241-251 | a kept voxel names the slot of its nearest quantised colour, which is its own colour when there are at most 255 |
| Exporter.StandardPath | blender2vox_pkg/vox_exporter.py:211-251 | the standard path on an empty model and the writer's palette yields the standard model and palette |
| Exporter.StandardSpec | blender2vox_pkg/vox_exporter.py:211-258 | the model has the box's size and one voxel per kept position, each naming the slot of its nearest quantised colour |
| Exporter.StandardColored | blender2vox_pkg/vox_exporter.py:150-152 | without a preserved object every kept voxel carries a colour |
| Exporter.BuildModel | blender2vox_pkg/vox_exporter.py:171-251 | the model of the box's size and the writer's palette, filled by the path the stored palette selects |
| Exporter.BuildAndWrite | blender2vox_pkg/vox_exporter.py:171-254 | builds and writes the model, failing with TypeError or struct.error where export raises them |
| Exporter.Export | blender2vox_pkg/vox_exporter.py:129-258 | `export` after voxelisation: collect, ValueError on no voxels, build, write |
| Exporter.ExportOutcome | blender2vox_pkg/vox_exporter.py:154-155 | building the export model raises ValueError exactly when nothing was collected, and TypeError exactly when the preserved path keeps a coloured voxel; building fails in no other way (the write's own struct.error is `Exporter.ExportStandardWrite`) |
| Exporter.ExportShape | blender2vox_pkg/vox_exporter.py:157-232 | an exported model spans the box, holds one voxel per kept position in order, each passing `add_voxel`'s checks, with a 256-entry palette |
| Exporter.ExportPreservedPalette | blender2vox_pkg/vox_exporter.py:179-181 | on the preserved path slot k holds entry k - 1 of the last original palette for k <= 255, and the default colour elsewhere |
| Exporter.ExportPreservedVoxels | blender2vox_pkg/vox_exporter.py:196-202 | on the preserved path every voxel keeps its original index, 1 standing in for an invalid one |
| Exporter.ExportPreservedSlots | blender2vox_pkg/vox_exporter.py:179-181 | the slots the original palette fills |
| Exporter.ExportStandard | blender2vox_pkg/vox_exporter.py:211-251 | without a preserved palette, building the export model of at least one voxel succeeds; every voxel names a slot holding its nearest quantised colour, and that slot holds its own colour, opaque, when there are at most 255 colours |
| Exporter.StandardPalettePacks | blender2vox_pkg/vox_exporter.py:211-251 | on the standard path, kept colours with channels in 0..255 give a written palette that packs |
| Exporter.ExportStandardWrite | blender2vox_pkg/vox_exporter.py:211-254 | without a preserved palette and with byte colours, building succeeds and the write raises struct.error exactly when the model's size or voxel count does not fit |
| Exporter.ExportReadBack | blender2vox_pkg/vox_exporter.py:253-254 | the exported file reads back as the one model built, at the origin, with the palette set up before writing |
| Exporter.ExportPreservedReadBack | blender2vox_pkg/vox_exporter.py:174-205 | an export from metadata writes its palette back where the reader finds it: entry p of the re-read palette is entry p of the original, for p < 255 |
| Importer.PyIndex | blender2vox_pkg/vox_importer.py:173-175 | a Python list index is valid exactly in -n..n-1, and a negative one counts from the end |
| Importer.Rotation | blender2vox_pkg/vox_importer.py:154-155 | rotation code 0, and only code 0, leaves the object as it is |
| Importer.ApplyVoxRotation | blender2vox_pkg/vox_importer.py:139-185 | the decode writes sign1, sign2 and sign3 at idx1, idx2 and idx3 of rows 0, 1 and 2 of a zero matrix |
| Importer.RotationIsSignedPermutation | blender2vox_pkg/vox_importer.py:161-175 | with idx1 != idx2 both in 0..2 the matrix is a signed permutation whose signs are the code's bits 4, 5 and 6 |
| Importer.RotationFails | blender2vox_pkg/vox_importer.py:169-175 | the decode raises IndexError exactly when idx1 or idx2 is 3, or both are 0 |
| Importer.RotationDegenerate | blender2vox_pkg/vox_importer.py:169-175 | with idx1 == idx2 in 1..2 the decode succeeds but the matrix is no rotation |
| Importer.GetVoxMetadata | blender2vox_pkg/vox_importer.py:368-379 | metadata is found exactly when the property is present and holds JSON, else {} |
| Importer.StoreVoxMetadata | blender2vox_pkg/vox_importer.py:264-275 | storing sets the metadata property and leaves the name and every other property alone |
| Importer.StoredMetadataReadBack | blender2vox_pkg/vox_importer.py:269-274 | stored metadata reads back as the model's size, its voxels element by element in order, the palette whole and the file path |
| Importer.VoxelFaceRanges | blender2vox_pkg/vox_importer.py:213-218 | the face counter gives voxel k the faces [6k, 6k + 6) |
| Importer.AddVertexColors | blender2vox_pkg/vox_importer.py:248-261 | the dict loop, then one colour per polygon: the face map's colour or grey |
| Importer.FillAt | blender2vox_pkg/vox_importer.py:255-256 | filling a face range sets exactly those faces and keeps every other entry |
| Importer.FaceMapCovers | blender2vox_pkg/vox_importer.py:248-256 | exactly the faces [0, 6n) are coloured, face f with the colour of voxel f / 6 |
| Importer.VoxelFacesShaded | blender2vox_pkg/vox_importer.py:258-259 | every face of a voxel mesh gets its voxel's colour and none is left grey |
| Importer.ShadeAgreesWithReader | blender2vox_pkg/vox_importer.py:250-254 | with a full palette a face shows the colour `get_voxel_color` gives its voxel |
| Importer.FaceShadesAt | blender2vox_pkg/vox_importer.py:249-256 | face f of the mesh has the colour of voxel f / 6 |
| Importer.ModelFaceShades | blender2vox_pkg/vox_importer.py:210-224 | the face colours are computed only when vertex colours are asked for, and are the colours of the faces in order |
| Importer.CreateObject | blender2vox_pkg/vox_importer.py:99-123 | one object: its model, metadata, translation, rotation and face colours, or IndexError from the rotation |
| Importer.ImportVox | blender2vox_pkg/vox_importer.py:40-136 | `import_vox` after reading: nothing, one object, or the list of objects |
| Importer.ImportManyFails | blender2vox_pkg/vox_importer.py:94-129 | once the loop has raised, the import raises |
| Importer.SkipsInvalidInstance | blender2vox_pkg/vox_importer.py:95-97 | an instance whose model id is out of range creates nothing |
| Importer.ImportManyAll | blender2vox_pkg/vox_importer.py:94-129 | with valid model ids and rotation codes instance i becomes object i, with its model, name, placement and metadata that reads back |
| Importer.ImportFileScene | blender2vox_pkg/vox_importer.py:40-48 | when every rotation code is valid, a scene read from a file imports without error, creates nothing exactly when it has no models, and otherwise one object per instance, none skipped |

## Left out

- File I/O: `open`, `read` and `write` are the boundary. The writer returns its bytes, and the reader starts from bytes.
- JSON: `json.dumps` and `json.loads` are an opaque record. A stored payload is modelled as read back as it was stored.
- Console output: warnings and debug `print` calls have no effect on results.
- Set iteration order: the list order of `set(colors)` is a parameter of `Quantizer.QuantizeColors`. In the exporter it is fixed as first appearance (`Exporter.ColorOrder`). Python leaves that order unspecified.
- `color_distance` takes a square root: the model compares squared integer distances. These order colours the same way, and no floating point is involved.
- `int(math.log2(n))` is floating point: the model uses the exact floor of the base-2 logarithm.
- The voxeliser (`_voxelize_object`, `_check_voxel`, `_extract_colors`, `_get_material_color`, `voxelize_from_vertices`) is ray casting and float geometry. Its output is an input of the export model.
- `_get_face_color`'s colour data comes from `_extract_colors`, which is not part of this model. Face indices are natural numbers, so Python's negative dict keys do not arise.
- Blender objects and meshes: the importer's float placement (`(t - size / 2) * scale`), `to_euler`, `create_voxel_cube_fast` vertex positions and materials. Colours divided by 255.0 are modelled as the byte colour they come from.
- `import_vox`'s call to `read_vox_scene` is not modelled: the import model starts from the scene. `Importer.ImportFileScene` joins the two.
- `store_vox_metadata` and the legacy importer duplicate `store_vox_metadata_for_model` and are not modelled on their own.
- The exported writer's starting palette: `Exporter.BuildAndWrite` takes it as the writer's palette. `Exporter.Export` creates the writer, so that palette is the default one.
- `Quantizer.QuantizeColors`: the order of `set(colors)` is taken as given, so the palette on the fitting path is only fixed up to that order.
