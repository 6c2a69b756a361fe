# VisSatellite: Wavefront loader and asset lifecycle

A Dafny model of the core of VisSatellite, an OpenTK satellite viewer. The model covers two parts.

**The Wavefront OBJ loader (`Wavefront.cs`):**
- a hand-written string splitter;
- a counting pass that sizes the vertex, normal, uv and triangle arrays;
- a filling pass that parses `v`, `vn`, `vt` and `f` rows;
- a flat tangent frame per triangle;
- flattening into a triangle soup with identity indices, or the "plain" copy of vertices and normals.

**The asset code of the `SatelliteUniverse` window (`SatelliteUniversum.cs`):**
- textures, shaders and meshes, loaded once and guarded by `IsLoaded`;
- the B, G, R, A byte layout of texture uploads;
- the 14-float interleaved vertex buffer and its attribute pointers;
- shader compile and link order, with its failure paths;
- the guarded unloads;
- the simulation set-up.

Modules:
- `Results`: `Result`, `Option`, `Outcome` and the exception kinds the source throws: `IndexOutOfRange`, `Format`, `Application(info)`.
- `DataTypes`: the records of `DataTypes.cs`:
  - C# structs become datatypes;
  - C# classes become Dafny classes: `ObjectVertexData`, `SimData`, `SatelliteSimData`.
- `StringSplit`: `StringSplitWithCount` against a reference definition `Split`.
- `Wavefront`: the rest of `Wavefront.cs`, built on two specification functions:
  - `ParseRows` states what a file parses to;
  - `TriangleSoup` states what it flattens to.

  Each method is proved against them.
- `Gl`: OpenGL as a context that hands out fresh non-zero names and records every state-changing call. Driver answers (compile status, info log, uniform locations) are functions the context is created with.
- `SatelliteUniversum`: the asset code.
  - Each load is specified by a function (`ImageLoad`, `ShaderLoad`, `BlinnLoad`, `MeshLoad`). The function gives the record left behind, the outcome, the GL calls and the number of names taken.
  - The methods of class `SatelliteUniverse` are proved to produce exactly that.

Exceptions are modelled as `Result`/`Outcome` values, raised in the order the source would raise them. Number parsing (`float.Parse`, `int.Parse`) and `Vector3.Normalize` are library calls; they enter as the functions of a `Numerics` value. Floats are modelled as `real`.

## Model

| member | source | states |
|---|---|---|
| StringSplit.StringSplitWithCount | VisSatellite/vissatellite/Wavefront.cs:277-323 | the result array holds exactly `Split(content, splitAt)`: the maximal non-empty separator-free runs, in order |
| StringSplit.CountParts | VisSatellite/vissatellite/Wavefront.cs:286-311 | the counting pass yields the number of pieces `Split` makes, so the array it sizes has no slot too many or too few |
| StringSplit.FillParts | VisSatellite/vissatellite/Wavefront.cs:286-318 | the filling pass writes every piece in order and fills the array exactly |
| StringSplit.SplitPartsWellFormed | VisSatellite/vissatellite/Wavefront.cs:293-301 | no piece is empty and no piece contains the separator |
| StringSplit.SplitEmptyIff | VisSatellite/vissatellite/Wavefront.cs:307-316 | there are no pieces exactly when the input is empty or made only of separators |
| StringSplit.SplitKeepsOtherCharacters | VisSatellite/vissatellite/Wavefront.cs:277-323 | the pieces concatenate to the input with its separators removed |
| StringSplit.SplitAround | VisSatellite/vissatellite/Wavefront.cs:287-304 | a separator cuts the input into two halves that split independently |
| Wavefront.SplitStringContent | VisSatellite/vissatellite/Wavefront.cs:267-275 | the token rows are the lines split at `'\n'`, each split at `' '` |
| Wavefront.RowTokensWellFormed | VisSatellite/vissatellite/Wavefront.cs:267-275 | every token is non-empty and holds neither a space nor a newline |
| Wavefront.EmptyRowIff | VisSatellite/vissatellite/Wavefront.cs:267-275 | a row has no tokens exactly when its line is made only of spaces |
| Wavefront.AllocateMemoryForFile | VisSatellite/vissatellite/Wavefront.cs:183-214 | each array's length is the number of rows whose first token is its keyword; rows without tokens are skipped; faces start zeroed |
| Wavefront.RecordMatchesKeyword | VisSatellite/vissatellite/Wavefront.cs:227-263 | a row that parses gives a vertex, normal, uv or face record exactly when its keyword is `v`, `vn`, `vt` or `f` |
| Wavefront.ParsedCountsMatch | VisSatellite/vissatellite/Wavefront.cs:190-262 | for each keyword, the filling pass reads exactly as many records as the counting pass allocated slots |
| Wavefront.ParseRowsOkIff | VisSatellite/vissatellite/Wavefront.cs:222-264 | a file parses exactly when every row parses |
| Wavefront.ParsePrefixFailure | VisSatellite/vissatellite/Wavefront.cs:222-264 | once a prefix of the rows fails, the whole file fails with that prefix's exception; later rows are never looked at |
| Wavefront.BlankLineFails | VisSatellite/vissatellite/Wavefront.cs:223 | a line of spaces alone makes parsing fail, because the guard `content.Length < 0` never holds and `content[0]` is read |
| Wavefront.NumberRowFields | VisSatellite/vissatellite/Wavefront.cs:228-244 | `v` and `vn` rows store tokens 1 to 3 unchanged; a `vt` row stores `(u, 1 - v)` |
| Wavefront.FaceCornerFields | VisSatellite/vissatellite/Wavefront.cs:245-261 | corner k of an `f` row, token `a/b/c`, is stored as vertex `a-1`, uv `b-1` and normal `c-1` |
| Wavefront.TrailingTokensIgnored | VisSatellite/vissatellite/Wavefront.cs:228-261 | tokens after the fourth never change what a row parses to |
| Wavefront.KeepFrame | VisSatellite/vissatellite/Wavefront.cs:247-259 | a face slot receives the nine parsed indices and keeps the tangent frame it had |
| Wavefront.ParsedFacesUnframed | VisSatellite/vissatellite/Wavefront.cs:245-261 | parsed faces carry a zero frame, so writing them into zeroed slots stores them exactly |
| Wavefront.ParseFile | VisSatellite/vissatellite/Wavefront.cs:216-265 | fails exactly when `ParseRows` does, with the same exception; otherwise the arrays hold the parsed vertices, normals and uvs, and each face slot holds its parsed indices with its old frame |
| Wavefront.StoreRecord | VisSatellite/vissatellite/Wavefront.cs:227-262 | one record is written at the running index of its kind and that index advances |
| Wavefront.ParsedIntoFreshArrays | VisSatellite/vissatellite/Wavefront.cs:212 | with freshly zeroed face slots, the filled array equals the parsed faces |
| Wavefront.TangentFactorInverts | VisSatellite/vissatellite/Wavefront.cs:104-110 | `f` is the reciprocal of the uv determinant when its magnitude is at least 0.0001, and 1 otherwise; it is never zero, so nothing divides by zero |
| Wavefront.RawFrameSolvesUv | VisSatellite/vissatellite/Wavefront.cs:100-118 | above the threshold, the unnormalised tangent and bitangent map the uv deltas back onto the two triangle edges |
| Wavefront.OrientedTangent | VisSatellite/vissatellite/Wavefront.cs:120-122 | the conditional negation leaves `dot(cross(n1, tangent), bitangent) >= 0`, changes the tangent only by its sign, and keeps it when it is already right-handed |
| Wavefront.FaceFrame | VisSatellite/vissatellite/Wavefront.cs:100-122 | the bitangent is the normalised raw bitangent, the tangent is the normalised raw tangent or its negation, and the frame is right-handed with respect to the first corner's normal |
| Wavefront.WithFrame | VisSatellite/vissatellite/Wavefront.cs:91-124 | a face keeps its indices and gets a right-handed frame with respect to its first normal |
| Wavefront.WithFrames | VisSatellite/vissatellite/Wavefront.cs:88-126 | only the faces' frames change; vertices, normals, uvs and all indices stay |
| Wavefront.ComputeFrame | VisSatellite/vissatellite/Wavefront.cs:100-122 | the method computes exactly `FaceFrame` |
| Wavefront.CalculateTangentsAndBiTangents | VisSatellite/vissatellite/Wavefront.cs:88-126 | succeeds exactly when every face's three vertex indices, three uv indices and first-corner normal index are in range; then the file becomes `WithFrames` of the old file |
| Wavefront.SoupCornerLayout | VisSatellite/vissatellite/Wavefront.cs:155-165 | entry `3t+k` of the soup holds corner k's vertex, normal and uv of face t |
| Wavefront.SoupFrameLayout | VisSatellite/vissatellite/Wavefront.cs:167-177 | all three corners of face t carry its tangent and bitangent, and `Indices[j] == j` |
| Wavefront.StoreVertexData | VisSatellite/vissatellite/Wavefront.cs:144-150 | a new `ObjectVertexData` whose six arrays are new and hold the given columns |
| Wavefront.FlattenTriangles | VisSatellite/vissatellite/Wavefront.cs:152-178 | fails with `IndexOutOfRange` exactly when some corner index is out of range; otherwise yields `TriangleSoup` |
| Wavefront.CreateVertexDataObject | VisSatellite/vissatellite/Wavefront.cs:142-181 | a new object whose six new arrays hold `TriangleSoup` of the file; fails exactly when some corner index is out of range |
| Wavefront.CreatePlainVertexData | VisSatellite/vissatellite/Wavefront.cs:128-140 | succeeds exactly when there are at least as many normals as vertices; vertices are copied verbatim; normal i is copied for each i below the vertex count; the remaining normal slots stay zero; the object and both arrays are new |
| Wavefront.LoadResult | VisSatellite/vissatellite/Wavefront.cs:51-61 | every column of a loaded mesh has the vertex count's length |
| Wavefront.Load | VisSatellite/vissatellite/Wavefront.cs:51-61 | split, allocate, parse, frame and flatten give exactly `LoadResult`, including its exception, in a new object with six new arrays |
| Wavefront.LoadPlain | VisSatellite/vissatellite/Wavefront.cs:41-49 | the plain load gives exactly `LoadPlainResult`: the parsed vertices, and normals padded with zeros, in a new object with new arrays |
| Wavefront.CornerChecksAgree | VisSatellite/vissatellite/Wavefront.cs:88-181 | the flattening's range check implies the tangent step's, and framing does not change it |
| Wavefront.LoadOkIff | VisSatellite/vissatellite/Wavefront.cs:51-61 | a load fails on a parse exception, or on an index out of range in the tangent step or the flattening, and on nothing else |
| Wavefront.FramedSoupLayout | VisSatellite/vissatellite/Wavefront.cs:142-181 | in a framed soup, corner `3t+k` takes its vertex, normal and uv from face t, the corners share face t's frame, and the frame is right-handed |
| Wavefront.LoadSize | VisSatellite/vissatellite/Wavefront.cs:145-150 | a loaded mesh has `3 · F` entries in every column, F being the number of `f` rows |
| Wavefront.LoadLayout | VisSatellite/vissatellite/Wavefront.cs:51-61 | for each `f` row t and corner k, entry `3t+k` of the loaded mesh is that corner's data, with the face's shared right-handed frame and index `3t+k` |
| Gl.Context.Create | VisSatellite/vissatellite/SatelliteUniversum.cs:77 | a creating call hands out the next name, which is non-zero and never handed out before, and records the call |
| Gl.Context.IssueAll | VisSatellite/vissatellite/SatelliteUniversum.cs:258-262 | a run of non-creating calls is appended to the trace in order |
| Gl.LinkedBindingsAppend | VisSatellite/vissatellite/SatelliteUniversum.cs:129-130 | calls after a link that do not relink leave the bindings in force unchanged |
| SatelliteUniversum.PixelBytesLength | VisSatellite/vissatellite/SatelliteUniversum.cs:86 | the upload has `4 · w · h` bytes |
| SatelliteUniversum.PixelByteLayout | VisSatellite/vissatellite/SatelliteUniversum.cs:89-96 | byte `4·(x·h + y) + c` holds channel c (B, G, R, A) of pixel (x, y), with x in the outer loop |
| SatelliteUniversum.PixelIndexCovers | VisSatellite/vissatellite/SatelliteUniversum.cs:89-96 | every byte index below `4·w·h` is the index of some pixel channel |
| SatelliteUniversum.PixelIndexInjective | VisSatellite/vissatellite/SatelliteUniversum.cs:89-96 | different pixel channels land on different bytes, so each byte is written once |
| SatelliteUniversum.FillImageData | VisSatellite/vissatellite/SatelliteUniversum.cs:86-97 | the buffer holds `PixelBytes` of the image, and the write index ends at `4·w·h`, the buffer's length |
| SatelliteUniversum.FillColumn | VisSatellite/vissatellite/SatelliteUniversum.cs:90-96 | the inner loop appends column x's pixels as B, G, R, A |
| SatelliteUniversum.InterleavedBlock | VisSatellite/vissatellite/SatelliteUniversum.cs:209-229 | float `14i + j` of the buffer is float j of vertex i's block |
| SatelliteUniversum.AttributeLayout | VisSatellite/vissatellite/SatelliteUniversum.cs:264-300 | the stride is 56 bytes, which is 14 floats; attribute a's byte offset divided by 4 is where the interleave loop put that attribute's components |
| SatelliteUniversum.PutVertex | VisSatellite/vissatellite/SatelliteUniversum.cs:210-228 | one iteration appends vertex i's position, normal, uv, tangent and bitangent |
| SatelliteUniversum.InterleaveVertices | VisSatellite/vissatellite/SatelliteUniversum.cs:206-229 | the float array is the 14-float blocks of all vertices in order |
| SatelliteUniversum.LoadsAreIdempotent | VisSatellite/vissatellite/SatelliteUniversum.cs:76 | a loaded record makes a load a no-op; a successful load marks the record loaded |
| SatelliteUniversum.ShaderFailureOrder | VisSatellite/vissatellite/SatelliteUniversum.cs:159-183 | a shader load succeeds exactly when both stages compile. A vertex-stage failure throws its log before the fragment stage is compiled. No failure creates or links a program, and a failure leaves the record not loaded with both stage names stored |
| SatelliteUniversum.ShaderBindingsAtLink | VisSatellite/vissatellite/SatelliteUniversum.cs:185-189 | the bindings in force at link time are exactly locations 0, 1 and 2 |
| SatelliteUniversum.BindingsOfShaderLoad | VisSatellite/vissatellite/SatelliteUniversum.cs:185-189 | three bindings followed by a link put exactly those three locations in force |
| SatelliteUniversum.BlinnBindsAfterLink | VisSatellite/vissatellite/SatelliteUniversum.cs:128-130 | the Blinn shader binds locations 3 and 4 after the link, so they are bound but not in force |
| SatelliteUniversum.StageLookups | VisSatellite/vissatellite/SatelliteUniversum.cs:159-175 | the driver is queried about each stage with the kind and source the load gave it |
| SatelliteUniversum.ShaderPiecesCreate | VisSatellite/vissatellite/SatelliteUniversum.cs:159-180 | the stage calls create the two stage names and the program calls create the program |
| SatelliteUniversum.MeshPiecesCreate | VisSatellite/vissatellite/SatelliteUniversum.cs:231-254 | the vertex-buffer, index-buffer and vertex-array calls each create one name |
| SatelliteUniversum.UnloadShaderDeletes | VisSatellite/vissatellite/SatelliteUniversum.cs:414-418 | unloading a loaded shader deletes its program and both stages |
| SatelliteUniversum.UnloadMeshDeletes | VisSatellite/vissatellite/SatelliteUniversum.cs:431-435 | unloading a loaded mesh deletes its vertex array and both buffers |
| SatelliteUniversum.ImageUnloadReleases | VisSatellite/vissatellite/SatelliteUniversum.cs:422-427 | unloading a freshly loaded texture deletes exactly the one name its load created |
| SatelliteUniversum.ShaderUnloadReleases | VisSatellite/vissatellite/SatelliteUniversum.cs:412-420 | unloading a successfully loaded shader deletes exactly the three names its load created. After a failure the record is not loaded, so the two stage names it took are never deleted |
| SatelliteUniversum.MeshLoadFacts | VisSatellite/vissatellite/SatelliteUniversum.cs:197-304 | a mesh load records the index count, uploads `14·n` floats as `56·n` bytes and `4·|indices|` bytes of indices, and creates exactly the three names its unload deletes. A failed Wavefront load changes nothing |
| SatelliteUniversum.SatelliteUniverse.constructor | VisSatellite/vissatellite/SatelliteUniversum.cs:22-29 | no elapsed time and no simulation data yet |
| SatelliteUniversum.SatelliteUniverse.LoadImageAsset | VisSatellite/vissatellite/SatelliteUniversum.cs:74-124 | the record, the GL calls and the names taken are exactly `ImageLoad`'s, and the context stays valid |
| SatelliteUniversum.SatelliteUniverse.CompileVertexStage | VisSatellite/vissatellite/SatelliteUniversum.cs:159-167 | the two stages are created, the vertex source is compiled, and the status and log are the driver's answers for that source |
| SatelliteUniversum.SatelliteUniverse.CompileFragmentStage | VisSatellite/vissatellite/SatelliteUniversum.cs:172-175 | the fragment source is compiled, and the status and log are the driver's answers for that source |
| SatelliteUniversum.SatelliteUniverse.LinkShaderProgram | VisSatellite/vissatellite/SatelliteUniversum.cs:180-189 | the program is created, both stages attached, locations 0 to 2 bound, then linked |
| SatelliteUniversum.SatelliteUniverse.CompileAndLink | VisSatellite/vissatellite/SatelliteUniversum.cs:159-194 | record, outcome, calls and names are exactly `ShaderLoad`'s |
| SatelliteUniversum.SatelliteUniverse.LoadShaderAsset | VisSatellite/vissatellite/SatelliteUniversum.cs:148-195 | record, outcome, calls and names are exactly `ShaderLoad`'s for the two embedded sources |
| SatelliteUniversum.SatelliteUniverse.LoadBlinnShaderAsset | VisSatellite/vissatellite/SatelliteUniversum.cs:126-141 | record, outcome, calls and names are exactly `BlinnLoad`'s |
| SatelliteUniversum.SatelliteUniverse.UploadVertexBuffer | VisSatellite/vissatellite/SatelliteUniversum.cs:231-240 | a new buffer is bound, filled with the interleaved floats (4 bytes each) and unbound |
| SatelliteUniversum.SatelliteUniverse.UploadIndexBuffer | VisSatellite/vissatellite/SatelliteUniversum.cs:242-251 | a new element buffer is bound, filled with the indices and unbound |
| SatelliteUniversum.SatelliteUniverse.SetUpVertexArray | VisSatellite/vissatellite/SatelliteUniversum.cs:253-301 | a new vertex array binds both buffers, enables attributes 0 to 4 and sets the five `AttributePointers` |
| SatelliteUniversum.SatelliteUniverse.LoadGeometry | VisSatellite/vissatellite/SatelliteUniversum.cs:203-303 | record, calls and names are exactly `MeshLoad`'s for a loaded mesh |
| SatelliteUniversum.SatelliteUniverse.LoadMeshAsset | VisSatellite/vissatellite/SatelliteUniversum.cs:197-304 | record, outcome, calls and names are exactly `MeshLoad`'s for the Wavefront load of the embedded file |
| SatelliteUniversum.SatelliteUniverse.UnloadImageAsset | VisSatellite/vissatellite/SatelliteUniversum.cs:422-427 | deletes the texture only when the record is loaded; takes no name |
| SatelliteUniversum.SatelliteUniverse.UnloadShaderAsset | VisSatellite/vissatellite/SatelliteUniversum.cs:412-420 | deletes the program and both stages only when the record is loaded; the caller's record is a value and stays as it was |
| SatelliteUniversum.SatelliteUniverse.UnloadBlinnShaderAsset | VisSatellite/vissatellite/SatelliteUniversum.cs:143-146 | the basic shader's unload calls |
| SatelliteUniversum.SatelliteUniverse.UnloadMeshData | VisSatellite/vissatellite/SatelliteUniversum.cs:429-436 | deletes the vertex array and both buffers only when the record is loaded |
| SatelliteUniversum.SatelliteUniverse.InitSimulationData | VisSatellite/vissatellite/SatelliteUniversum.cs:455-464 | new simulation data: time 0, speed 1, ten distinct new satellites, satellite i at (i, 0, 0) with its name and orbital elements at their constructor values |
| SatelliteUniversum.SatelliteUniverse.DoSimulation | VisSatellite/vissatellite/SatelliteUniversum.cs:466-471 | leaves the simulation data and every satellite unchanged: the loop body only reads |
| SatelliteUniversum.SatelliteUniverse.OnRenderFrame | VisSatellite/vissatellite/SatelliteUniversum.cs:306-309 | the elapsed time grows by the frame time and the simulation data stays as it was |

## Behaviour as written

The model follows the code where a reader might expect something else:
- A line made only of spaces becomes a row without tokens. `AllocateMemoryForFile` skips such a row. `ParseFile` guards with `content.Length < 0`, which never holds, so it reads `content[0]` and throws `IndexOutOfRange`: `Wavefront.BlankLineFails`. An empty line is no problem, because the splitter drops empty lines.
- Face rows use only their first three tokens. A fourth corner (a quad) is ignored, not triangulated.
- Face tokens are split with `RemoveEmptyEntries`, so `1//3` has only two parts and fails with `IndexOutOfRange`.
- `CreatePlainVertexData` copies one normal per vertex. With fewer normals than vertices it throws `IndexOutOfRange`. With more normals, the extra slots stay zero. Vertices are not deduplicated.
- `LoadBlinnShaderAsset` binds the tangent and bitangent locations after the program is linked, so they take effect only at a later link. It also binds them, and queries its uniforms, when the basic shader was already loaded.
- A failed shader load has already created both stages and stored their names, but leaves `IsLoaded` false. The unloads then delete nothing, so those two names leak: `SatelliteUniversum.ShaderUnloadReleases`.
- `UnloadShaderAsset` clears `IsLoaded` on its by-value copy only. The caller's record still says loaded.
- `OnUnload` releases only the colour texture, the basic shader and the sphere mesh. The normal texture and the Blinn shader's program and stages loaded by `OnLoad` are never deleted.
- The texture loop writes pixels column by column: x is the outer loop, and pixel (x, y) starts at byte `4·(x·h + y)`. `TexImage2D` with `Bgra` reads rows of `width` pixels, so the texture it receives is the image transposed. Unless the image is square, it is also reshaped. `SatelliteUniversum.PixelByteLayout` states the layout the loop writes.

## Left out

- Resource I/O: `Utils.LoadEmbeddedResourceAsString` and ImageSharp decoding are the window's `resourceText` and `resourceImage` functions. Decoding failures and missing resources are not modelled.
- Number parsing and normalisation: `float.Parse`, `int.Parse` and `Vector3.Normalize` are uninterpreted functions of `Numerics`. Culture, rounding and overflow of parsing are not modelled.
- Floating point: every `float` is a `real`. Rounding, NaN and infinities are not modelled. In particular the handedness fact of `OrientedTangent` holds over the reals.
- Integer width: `int` is unbounded. The overflow of `img.Width * img.Height * 4`, and of the running indices, is not modelled.
- StringSplit.StringSplitWithCount: the separator is a single character. The source accepts a string, but the hand-written splitter is only called from `SplitStringContent`, with `"\n"` and `" "`. With one character the partial-match index of the source is always 0. The `'/'` splits of face tokens use the framework's `String.Split` with `RemoveEmptyEntries`. On one character that gives the same maximal non-empty runs, so `Split` models those calls too.
- Wavefront.CalculateTangentsAndBiTangents: on failure the partly framed arrays are left unspecified, because `Load` drops them.
- Wavefront.ParseFile: on failure the partly filled arrays are left unspecified, for the same reason.
- Wavefront.CreateVertexDataObject: the six output columns are built as sequences by `FlattenTriangles` and then copied into new arrays by `StoreVertexData`. The source writes the arrays in place; the resulting arrays are the same.
- `AverageTangents`: its only call is commented out.
- Rendering: `RenderWithBlinn`, `RenderWithBasicShader`, the draw part of `OnRenderFrame`, `OnResize` and the camera matrices are GPU calls and float matrix arithmetic.
- `OnLoad` (SatelliteUniversum.cs:31-72): the modelled loads and `InitSimulationData` are covered. The rest is left out: logging the GL version strings to the console, the camera's `LookAt` matrix, normalising the ambient light direction, and enabling depth testing. These are I/O and float matrix arithmetic. The fixed asset names it loads are not modelled either.
- `OnUnload` (SatelliteUniversum.cs:405-410): a sequence of three modelled unloads on fixed fields, not modelled as a method of its own.
- Wavefront.ParseRow: the comment test `content[0].StartsWith("#")` is a culture-sensitive comparison in .NET. The model checks whether the first character is `'#'`, as an ordinal comparison does. The two differ only on a token that starts with characters the culture ignores (such as a soft hyphen) before `#`.
- GL state beyond names and the call trace: texture units, bound state and driver errors are not modelled. GL names come from a counter starting at 1; a driver may hand out any unused non-zero name.
- SatelliteUniversum.SatelliteUniverse.DoSimulation: the frame time is not used, because the source's loop body only reads each satellite.
- The C# `Vector3i`, `CameraData` and `KeyboardInput` types: nothing in the core uses them.
