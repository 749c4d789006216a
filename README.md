# BND / BBND bound files: a Dafny model

This project models the two codecs of the `io_mesh_bnd` add-on for bound meshes (collision meshes):

- **Export.**
  - `export_bound` writes the text BND file: a header, `v` lines, `mtl` blocks, then `tri`/`quad` lines.
  - `export_binary_bound` writes the binary BBND file: a version byte, three counts, 12-byte vertices, 104-byte materials and 10-byte faces.
  - The helpers are modelled too: material-name normalisation, the case-insensitive object search, the bounding box summary, the point-in-box test, and the two material encodings.
- **Import.** `read_bnd_file` is the line-driven reader of the text format. It is modelled as a class whose vertex, face and material lists grow one line at a time.
- **Host mesh.** The host's mesh is abstracted to plain sequences:
  - vertices are `Vec3` triples;
  - a face is a loop of vertex indices with a material index;
  - the material slots are a list of names (every slot holds a material).
- **Coordinates** are integers counted in millionths. That is exactly the precision `"{0:.6f}"` keeps, so formatting and `float()` parsing are an exact pair (`Text.ParseFormatCoord`).
- **Remapping.** Both writers map a vertex to file space as (x, y, z) ↦ (−x, z, y), and the reader maps it back. The map is its own inverse (`MeshModel.RemapInvolutive`).

## Files

| file | module | contents |
|---|---|---|
| `text.dfy` | `Text` | the Python string built-ins used: `lower`, `split`, `find`, `str`/`int`, `"{0:.6f}"`/`float`, `readlines` |
| `bytes.dfy` | `Bytes` | `struct` fields `B`, `H`, `L` (little-endian), UTF-8 of ASCII text, NUL padding |
| `mesh.dfy` | `MeshModel` | vectors, faces, meshes, the axis remap, the material clamp, scene objects |
| `export_helpers.dfy` | `ExportHelpers` | `get_undupe_name`, `find_object_ci`, `bounds`, `point_in_box`, `write_char_array`, `write_binary_material`, `make_ascii_material` |
| `export_text.dfy` | `BndExport` | `export_bound` |
| `export_binary.dfy` | `BbndExport` | `export_binary_bound` |
| `import_bnd.dfy` | `BndImport` | `read_bnd_file` |
| `round_trip.dfy` | `RoundTrip` | reading back what `export_bound` writes |
| `save.dfy` | `BndSave` | `save` / `save_bnd`: the checks made before writing, and which object gets written |

## Model

| member | source | states |
|---|---|---|
| ExportHelpers.GetUndupeName | io_mesh_bnd/export_bnd.py:45-47 | The result is a prefix of the name and contains no '.'. When the name has a '.', the result stops just before the first one. Otherwise the name comes back unchanged. |
| ExportHelpers.GetUndupeNameIdempotent | io_mesh_bnd/export_bnd.py:45-47 | Stripping the duplicate suffix twice gives the same result as stripping it once. |
| ExportHelpers.MaterialNames | io_mesh_bnd/export_bnd.py:252-258 | Each slot gives one name, its get_undupe_name, in slot order. With no slots the list is exactly ["default"]. |
| ExportHelpers.FindObjectCi | io_mesh_bnd/export_bnd.py:50-54 | Returns the first object whose lower-cased name equals the lower-cased target and whose type is MESH. It returns None if and only if no object matches. |
| ExportHelpers.Bounds | io_mesh_bnd/export_bnd.py:22-43 | The loop over the reversed, transposed corners yields, per axis, the max, the min and their difference. These equal the summary of the corners taken in their own order, so the reversal changes nothing. |
| ExportHelpers.SummaryReverse | io_mesh_bnd/export_bnd.py:28 | Summarising one axis of the reversed corners gives the same max, min and distance. |
| ExportHelpers.MaxMinReverse | io_mesh_bnd/export_bnd.py:33-34 | max and min of a reversed list equal those of the list itself. |
| ExportHelpers.BoundsSpan | io_mesh_bnd/export_bnd.py:33-35 | Per axis: min <= max and distance = max − min >= 0. Every corner's coordinate lies in [min, max], and both ends are attained. |
| ExportHelpers.PointInBox | io_mesh_bnd/export_bnd.py:89-92 | The test is inclusive on both axes, from box[0] to box[2]. Only a box whose box[0] is at or below box[2] on both x and y contains any point. |
| ExportHelpers.Max | io_mesh_bnd/export_bnd.py:33 | max() of a non-empty list is one of its elements and is at least every element. |
| ExportHelpers.Min | io_mesh_bnd/export_bnd.py:34 | min() of a non-empty list is one of its elements and is at most every element. |
| ExportHelpers.FootprintContainsCorners | io_mesh_bnd/export_bnd.py:89-92 | Take the box from box[0] (low corner) to box[2] (high corner) of the bounds. point_in_box holds for every corner's (x, y) and for the box's own corners, because the test is inclusive. |
| ExportHelpers.WriteCharArray | io_mesh_bnd/export_bnd.py:56-58 | For ASCII s with \|s\| <= n: exactly n bytes, the characters of s followed by NULs. When \|s\| >= n: the UTF-8 bytes of s whole, with no padding and no truncation. For any s with \|s\| <= n, ASCII or not: the UTF-8 bytes of s followed by exactly n − \|s\| NULs, so a non-ASCII name gives more than n bytes. The output always starts with the UTF-8 bytes of s. |
| ExportHelpers.WriteBinaryMaterial | io_mesh_bnd/export_bnd.py:167-171 | A material record is 104 bytes when the name is ASCII and at most 32 characters. |
| ExportHelpers.WriteBinaryMaterialLayout | io_mesh_bnd/export_bnd.py:167-171 | Bytes 0-32: the name field. 32-36: elasticity 0.1. 36-40: friction 0.5. 40-72 and 72-104: "none" padded to 32 bytes. |
| ExportHelpers.MakeAsciiMaterialLines | io_mesh_bnd/export_bnd.py:174-175 | The material text is six lines, each ended by "\n": "mtl name {", elasticity, friction, effect, sound, "}". |
| MeshModel.RemapInvolutive | io_mesh_bnd/export_bnd.py:247 | The file-space map (−x, z, y) applied twice is the identity. It is both the writers' map and the reader's inverse. |
| MeshModel.ClampMaterial | io_mesh_bnd/export_bnd.py:265 | max(0, m): at least m, equal to m when m >= 0, and 0 otherwise. |
| BndExport.ExportBound | io_mesh_bnd/export_bnd.py:228-277 | The string the method builds with += is the file text: the header, one line per vertex, a blank line, the material blocks, a blank line, then the face lines. |
| BndExport.AppendVertices | io_mesh_bnd/export_bnd.py:246-247 | The vertex loop appends the vertex lines, in vertex order. |
| BndExport.AppendMaterials | io_mesh_bnd/export_bnd.py:252-258 | The material loop appends one block per slot name, or a single "default" block. |
| BndExport.DefaultMaterial | io_mesh_bnd/export_bnd.py:257-258 | With no slots, the material section is make_ascii_material("default"). |
| BndExport.AppendFaces | io_mesh_bnd/export_bnd.py:264-269 | The face loop appends one line per triangle or quad, in face order, and nothing for other faces. |
| BndExport.HeaderText | io_mesh_bnd/export_bnd.py:243 | The six header lines joined are exactly the header literal, counts included. |
| BndExport.BndTextHeader | io_mesh_bnd/export_bnd.py:243 | The text begins with "version: 1.01\nverts: V\nmaterials: S\nedges: 0\npolys: F\n\n". S counts the slots (0 when the default block is written). F counts faces of every arity. |
| BndExport.BndLinesCount | io_mesh_bnd/export_bnd.py:243-269 | The file has 8 + V + 6·max(S, 1) + T lines, where T is the number of triangles and quads. Faces of other arities add no line but are counted in the header. |
| BndExport.FaceLinesCount | io_mesh_bnd/export_bnd.py:264-269 | There are exactly as many face lines as triangles and quads. |
| BndExport.BndLinesVertices | io_mesh_bnd/export_bnd.py:246-249 | Line 6 + i is the line of vertex i, and the line after the last vertex is blank. |
| BndExport.BndLinesMaterial | io_mesh_bnd/export_bnd.py:252-258 | Material block k starts at line 7 + V + 6k with "mtl " + name_k + " {". |
| BndExport.VertexLineFields | io_mesh_bnd/export_bnd.py:247 | A vertex line splits into "v" and the three formatted coordinates of (−x, z, y). |
| BndExport.TriLineFields | io_mesh_bnd/export_bnd.py:266-267 | A triangle line splits into "tri", its three vertex indices and max(0, material). |
| BndExport.QuadLineFields | io_mesh_bnd/export_bnd.py:268-269 | A quad line splits into "quad", its four vertex indices and max(0, material). |
| Bytes.U16 | io_mesh_bnd/export_bnd.py:218-220 | struct.pack('H', n) for n < 2^16 is two bytes that read back, least significant first, as n. |
| Bytes.U32 | io_mesh_bnd/export_bnd.py:198 | struct.pack('L', n) for n < 2^32 is four bytes that read back, least significant first, as n. |
| Bytes.Utf8 | io_mesh_bnd/export_bnd.py:57 | bytes(s, 'utf-8') has at least one byte per character, exactly one per character if and only if s is ASCII, and then byte i is the code of character i. |
| Bytes.U16Read | io_mesh_bnd/export_bnd.py:218 | The two little-endian bytes of an 'H' field read back as the value. |
| Bytes.U32Read | io_mesh_bnd/export_bnd.py:198 | The four little-endian bytes of an 'L' field read back as the value. |
| BbndExport.ExportBinaryBound | io_mesh_bnd/export_bnd.py:181-225 | The bytes written, and whether the writer reached the end, are those of BbndWrite. That is: the header, the vertex records, the material records, then the face records, stopping where struct.pack raises. |
| BbndExport.WriteVertices | io_mesh_bnd/export_bnd.py:201-202 | The vertex loop appends 'fff' of (−x, z, y) per vertex, in order. |
| BbndExport.WriteMaterials | io_mesh_bnd/export_bnd.py:205-211 | The material loop appends one record per slot name, or one "default" record. |
| BbndExport.WriteFaces | io_mesh_bnd/export_bnd.py:214-220 | The face loop appends one 'HHHHH' record per triangle or quad. It stops at the first one that does not fit. |
| BbndExport.HeaderFields | io_mesh_bnd/export_bnd.py:197-198 | Byte 0 is 1. Bytes 1, 5 and 9 start the vertex count, the slot count and the face count (all arities), each read back as written. |
| BbndExport.BbndHeaderAt | io_mesh_bnd/export_bnd.py:197-198 | A file whose counts fit begins with the 13-byte header. |
| BbndExport.BbndCountsOverflow | io_mesh_bnd/export_bnd.py:197-198 | When a count does not fit 'L', only the version byte is written and the write is incomplete. |
| BbndExport.BbndVertexAt | io_mesh_bnd/export_bnd.py:201-202 | Vertex i occupies the 12 bytes at 13 + 12i: the floats of −x, z, y. |
| BbndExport.VertexRecordsAt | io_mesh_bnd/export_bnd.py:201-202 | In the vertex section, record i is the 12 bytes at 12i. |
| BbndExport.BbndMaterialsAt | io_mesh_bnd/export_bnd.py:205-211 | The material records follow the vertices: 104·max(S, 1) bytes at 13 + 12V, when the names fit. |
| BbndExport.MaterialRecordsLength | io_mesh_bnd/export_bnd.py:205-211 | Names that fit give 104 bytes per material. |
| BbndExport.MaterialRecordsAt | io_mesh_bnd/export_bnd.py:205-211 | Material k is write_binary_material of name k, at 104k in the material section. |
| BbndExport.FaceRecordFields | io_mesh_bnd/export_bnd.py:217-220 | The five 'H' fields of a face record read back as: the three vertex indices, the fourth index or 0 for a triangle, and max(0, material). |
| BbndExport.FaceRecordsComplete | io_mesh_bnd/export_bnd.py:215-220 | The face records are complete if and only if every triangle and quad fits 'H'. |
| BbndExport.FaceRecordsLength | io_mesh_bnd/export_bnd.py:215-220 | Complete face records are 10 bytes per triangle or quad. Other arities add nothing. |
| BbndExport.FaceRecordsStuck | io_mesh_bnd/export_bnd.py:215-220 | Once struct.pack has raised, later faces add nothing. |
| BbndExport.FaceRecordsPartial | io_mesh_bnd/export_bnd.py:215-220 | When some triangle or quad does not fit, the file holds the records of the faces before the first such face, none of its bytes, and is incomplete. |
| BbndExport.FaceRecordsAt | io_mesh_bnd/export_bnd.py:215-220 | The record of face i sits 10 bytes after each earlier triangle or quad. |
| BbndExport.TriQuadPrefix | io_mesh_bnd/export_bnd.py:215-220 | Extending a prefix of the faces by one face adds one to the number of triangles and quads exactly when that face is one. A prefix never counts more than the whole list. |
| BbndExport.BbndFaceRecordAt | io_mesh_bnd/export_bnd.py:214-220 | In a complete file whose names fit, a triangle or quad i is the 10 bytes at 13 + 12V + 104·max(S, 1) + 10·(triangles and quads before i). |
| BbndExport.BbndLength | io_mesh_bnd/export_bnd.py:197-220 | A complete file whose names fit is 13 + 12V + 104·max(S, 1) + 10·T bytes long. |
| BbndExport.BbndComplete | io_mesh_bnd/export_bnd.py:198-220 | The write completes if and only if the counts fit 'L' and every triangle and quad fits 'H'. |
| BbndExport.BbndParts | io_mesh_bnd/export_bnd.py:196-220 | A file whose counts fit is the header, the vertex records, the material records and the face records, concatenated in that order. |
| BndImport.ResolveAll | io_mesh_bnd/import_bnd.py:102 | Picks the vertices by index. The result exists exactly when every token is an integer naming a vertex already read, and then the indices are those integers. |
| BndImport.NewFace | io_mesh_bnd/import_bnd.py:99-109 | A face is created only when the index tokens are present and resolve, and the host accepts the loop: distinct vertices, and no face yet over the same vertices. |
| BndImport.BoundImporter.constructor | io_mesh_bnd/import_bnd.py:67-71 | The new mesh has no vertices, faces or materials. |
| BndImport.BoundImporter.ReadLine | io_mesh_bnd/import_bnd.py:80-114 | One pass of the loop body. The new fields and the outcome are those of Step on the old state; ok is false when the line raised an uncaught exception. |
| BndImport.BoundImporter.ReadVertex | io_mesh_bnd/import_bnd.py:88-91 | The "v" branch appends the vertex (−a, c, b), or raises on a missing or unreadable field. |
| BndImport.BoundImporter.ReadFace | io_mesh_bnd/import_bnd.py:95-114 | The face branch adds the created face, then sets its material index. The index is read outside the try block. |
| BndImport.BoundImporter.ReadBndFile | io_mesh_bnd/import_bnd.py:79-114 | The loop over the lines of the file leaves the state ImportLines gives. It stops at the first line that raises. |
| BndImport.ShortLineSkipped | io_mesh_bnd/import_bnd.py:84-85 | A line with fewer than two fields changes nothing: blank lines, "}" and single words. |
| BndImport.OtherLineSkipped | io_mesh_bnd/import_bnd.py:88-95 | A line whose first field is not v, mtl, tri or quad changes nothing. |
| BndImport.StepIgnoresCase | io_mesh_bnd/import_bnd.py:81 | Reading a lower-cased line is the same as reading the line itself, so V and TRI act like v and tri. |
| BndImport.LowerIdempotent | io_mesh_bnd/import_bnd.py:30 | Lower-casing twice is lower-casing once. |
| BndImport.VertexLineRead | io_mesh_bnd/import_bnd.py:90 | A "v a b c" line appends exactly the vertex Remap(a, b, c) = (−a, c, b). |
| BndImport.VertexFieldsRead | io_mesh_bnd/import_bnd.py:90 | The fields a, b, c of a "v" line give the vertex (−a, c, b). |
| BndImport.VertexLineFails | io_mesh_bnd/import_bnd.py:90 | A "v" line with a missing or unreadable coordinate ends the import, leaving the state unchanged. |
| BndImport.FaceLineRejected | io_mesh_bnd/import_bnd.py:101-109 | A face line whose face is not created leaves the state unchanged, and reading goes on. This covers a bad or out-of-range index and a loop the host refuses. |
| BndImport.TriLineRead | io_mesh_bnd/import_bnd.py:105-114 | "tri i j k m" over vertices read so far, which the host accepts, appends the face [i, j, k] with material m. |
| BndImport.QuadLineRead | io_mesh_bnd/import_bnd.py:100-114 | "quad i j k l m" likewise appends [i, j, k, l] with material m. |
| BndImport.NewFaceOf | io_mesh_bnd/import_bnd.py:99-109 | Index tokens that parse to a loop of read vertices, which the host accepts, give exactly that face. |
| BndImport.FaceMaterialMissing | io_mesh_bnd/import_bnd.py:112-113 | When the material token after a created face is missing or unreadable, the import ends. The face stays, with material 0. |
| BndImport.StepValid | io_mesh_bnd/import_bnd.py:79-113 | Every line preserves the mesh invariant: faces are triangles or quads over distinct vertices that have been read, and no two faces share their vertex set. Each list only grows, by at most one element in total. |
| BndImport.AddFaceValid | io_mesh_bnd/import_bnd.py:102-109 | Adding a face the host accepts keeps the invariant. |
| BndImport.ImportLinesValid | io_mesh_bnd/import_bnd.py:79-113 | A whole file preserves the mesh invariant and only appends to the three lists. |
| BndImport.ImportLinesAppend | io_mesh_bnd/import_bnd.py:79 | Reading a + b is reading a, then reading b from the state a leaves, unless a stopped the import. |
| RoundTrip.ReadExported | io_mesh_bnd/import_bnd.py:79-113 | Reading back the text export_bound writes, for a mesh whose faces the host accepts and whose names are single words, gives back: exactly its vertices; the lower-cased undupe names, one per block; its triangles and quads, in order, with clamped material indices. Reading never stops early. |
| RoundTrip.HeaderSkipped | io_mesh_bnd/export_bnd.py:243 | The header lines are read past without effect. |
| RoundTrip.CountLineSkipped | io_mesh_bnd/export_bnd.py:243 | A header count line is read past without effect. |
| RoundTrip.KeyedLineSkipped | io_mesh_bnd/import_bnd.py:88-95 | A line whose first field is some other keyword is read past. |
| RoundTrip.VertexLineReadBack | io_mesh_bnd/import_bnd.py:90 | Reading the written line of vertex v appends exactly v. |
| RoundTrip.ImportVertexLines | io_mesh_bnd/export_bnd.py:246-247 | Reading the vertex lines appends the vertices, in order. |
| RoundTrip.MaterialLineReadBack | io_mesh_bnd/import_bnd.py:92-94 | Reading a written "mtl name {" line appends the lower-cased name. |
| RoundTrip.PropertiesSkipped | io_mesh_bnd/export_bnd.py:175 | The elasticity, friction, effect and sound lines and the closing brace are read past, so physical properties are not read back. |
| RoundTrip.MaterialBlockReadBack | io_mesh_bnd/export_bnd.py:174-175 | Reading a material block appends exactly its name, lower-cased. |
| RoundTrip.ImportMaterialLines | io_mesh_bnd/export_bnd.py:252-258 | Reading the material section appends the lower-cased names, in order. |
| RoundTrip.TriReadBack | io_mesh_bnd/export_bnd.py:266-267 | Reading a written triangle line appends its face with max(0, material). |
| RoundTrip.QuadReadBack | io_mesh_bnd/export_bnd.py:268-269 | Reading a written quad line appends its face with max(0, material). |
| RoundTrip.FaceLineReadBack | io_mesh_bnd/export_bnd.py:264-269 | Reading the line of one triangle or quad appends its face. |
| RoundTrip.ImportFaceLines | io_mesh_bnd/export_bnd.py:264-269 | Reading the face lines appends the triangles and quads, in order. |
| RoundTrip.BndLinesNoNewline | io_mesh_bnd/export_bnd.py:243-269 | No written line contains a line terminator, so the file's lines are exactly the written lines. |
| RoundTrip.LastFaceAccepted | io_mesh_bnd/import_bnd.py:102-109 | The last face of a valid state is one the host accepts on top of the faces before it. |
| Text.Split | io_mesh_bnd/import_bnd.py:81 | Each field str.split() yields is non-empty and contains no whitespace, where whitespace is every character str.isspace() accepts: the ASCII ones and U+0085, U+00A0, U+1680, U+2000–U+200A, U+2028, U+2029, U+202F, U+205F, U+3000. |
| Text.SplitNoBreakSpace | io_mesh_bnd/import_bnd.py:81 | Two tokens joined by a no-break space U+00A0 split into those two fields, as str.split() splits them: a material name "a\u00a0b" is read as the field "a". |
| Text.SplitSpaces | io_mesh_bnd/import_bnd.py:81 | Leading whitespace does not change the fields, so tab-indented lines split like unindented ones. |
| Text.SplitStep | io_mesh_bnd/import_bnd.py:81 | A lower-case field followed by whitespace and a lower-case rest of line splits into that field followed by the fields of the rest. |
| Text.Find | io_mesh_bnd/export_bnd.py:46 | str.find of one character gives the first index holding it, or −1 when there is none. |
| Text.NatToString | io_mesh_bnd/export_bnd.py:243 | str(n) is a non-empty string of digits whose value is n. |
| Text.ParseIntOfNat | io_mesh_bnd/import_bnd.py:102 | int(str(n)) == n. |
| Text.FormatCoordToken | io_mesh_bnd/export_bnd.py:247 | A formatted coordinate is one lower-case field. |
| Text.ParseFormatCoord | io_mesh_bnd/import_bnd.py:90 | float() of "{0:.6f}".format(c) gives back c. |
| Text.LinesOfJoin | io_mesh_bnd/import_bnd.py:79 | When no written line contains a line terminator, the lines read from text written line by line, each ended by "\n", are exactly the lines written, followed by those of the rest. |
| BndSave.Save | io_mesh_bnd/export_bnd.py:283-343 | An object of the scene named "bound" in any case that is not a mesh is an error, raised before anything is written. Then find_object_ci("BOUND") is used: no match raises 'No BOUND object'. Otherwise exactly the first match is written, as text and, on request, as binary. |

## Left out

- **Blender's scene and mesh API.**
  - Not modelled: `to_mesh`, the depsgraph, `mode_set`, `objects.link`, `normal_update`, `bm.to_mesh`, `index_update`, `ensure_lookup_table`, `face.smooth`.
  - The writers take the mesh as sequences, and `apply_modifiers_G` becomes a parameter of `MeshModel.ExportedMesh`, which picks the evaluated or the object's own geometry. The depsgraph evaluation itself is host code.
  - Empty material slots: a slot without a material (`ms.material` is None) makes `mat.name` raise AttributeError at export_bnd.py:209 and :256. `save_bnd` has already opened the .bnd file at :301, so that file would be left empty. In the model every slot carries a name, so this error path is not modelled.
- **`create_material`.**
  - Its node-tree editing and the colour table are shading glue, and are not modelled.
  - Blender's renaming of a material whose name is already taken (`name.001`) is host behaviour. The model stores the lower-cased name.
- **Floating point.**
  - Coordinates are fixed-point integers in millionths. `"{0:.6f}"` rounding of wider floats is not modelled, nor is negative zero: −0.0 formats as "-0.000000" in Python but is 0 here.
  - `float()` is taken to accept `[+-]digits[.digits]` with at most six fraction digits. Any other form (".5", "1e3", "inf", more digits) is treated as unreadable, which ends the import.
  - `struct.pack('f')` is a 4-byte encoder the caller supplies (`Bytes.F32Encoder`).
- **Type widths.**
  - `struct` 'L' is taken as 4 bytes, little-endian. Native `struct` sizes depend on the platform.
  - 'H' and 'L' raise on values that do not fit. The writer then stops, and the bytes already written stay in the file.
- **`int()`.** Underscores and surrounding whitespace in tokens are not modelled. Tokens never carry whitespace after `split()`.
- **Non-ASCII digits.** `int()` and `float()` also accept decimal digits of other scripts (for example U+0663 ARABIC-INDIC DIGIT THREE). The model reads only the ASCII digits 0-9, so a field using other digits counts as unreadable. The writers only write ASCII digits.
- **`str.lower()`** is modelled on ASCII letters only. There is no Unicode case mapping, so for a name with non-ASCII capitals ("É") the model's lower-cased name differs from Python's. This affects the names `RoundTrip.ReadExported` reads back and the matches `ExportHelpers.FindObjectCi` finds.
- **Host face acceptance.**
  - `bm.verts[i]` is taken to accept only 0 <= i < number of vertices read. A negative index counts as a failed face, even though the host may resolve it from the end.
  - `bm.faces.new` is taken to refuse a loop with a repeated vertex, or a loop over the same set of vertices as an existing face. This approximates the host's own duplicate test. If the host compares the vertex cycle in either winding instead of the vertex set, it accepts some loops the model refuses: [0, 2, 1, 3] after [0, 1, 2, 3], for example. `BndImport.HostAccepts`, `BndImport.FaceLineRejected` and the validity invariant are stated for the set rule.
  - The host's range check on `material_index` (a short, 0..32766 for material slots) is not modelled. A material index outside that range is stored as read.
- **Import aborts.** When an uncaught exception ends the import, the model keeps the state reached. The host never reaches `bm.to_mesh`, so whether that state is visible in Blender is host behaviour.
- **File I/O, timing and logging.** `open`, `close`, `time.clock`, `print`, and the `load`/`load_bnd` plumbing are not modelled. The text is given as a string, and the written files are returned as values.
- **Line endings.** `readlines()` in text mode is modelled as splitting on '\n' and '\r'. For "\r\n" this yields an extra blank line, which the reader skips like any blank line.
- **Code that differs from the format description.**
  - `write_char_array` pads but never truncates. A name longer than 32 characters makes its record longer than 104 bytes, and the model follows the code.
  - It pads by character count, so non-ASCII names also give longer records.
  - The reader does not check the header counts.
- **Other parts of the add-on.**
  - `point_in_polygon`, `poly_overlap_test`, `vec_distance`, `lerp` and `poly_debug` rely on floating point, or only create debug curve objects.
  - The terrain (TER) partitioner's call is commented out, so it is not modelled.
  - Operator and menu registration is UI only.
- ExportHelpers.WriteBinaryMaterial: the record length is stated only for ASCII names of at most 32 characters. Longer or non-ASCII names give longer records, and no length is stated for them.
- BbndExport.BbndLength: stated only for complete files whose names fit, for the same reason.
- RoundTrip.ReadExported: holds only for meshes the host accepts and whose material names are single words without whitespace, in the str.isspace() sense. A name with a space or a U+00A0 reads back as its first word; a name containing a line terminator splits the block. The names read back are lower-cased in the ASCII sense only. The faces are read back with their clamped material indices as written, without the host's `material_index` range check, and "accepted by the host" means the vertex-set duplicate rule above.
