/** The asset manager and simulation state of the SatelliteUniverse window
    (SatelliteUniversum.cs): textures, shaders and meshes loaded once and
    guarded by IsLoaded, the byte layout of texture uploads, the
    interleaved vertex buffer and its attribute pointers, and the
    simulation set-up. GL is the call-recording context of module Gl;
    embedded resources and image decoding are functions the window is
    created with. */
module SatelliteUniversum {
  import opened Results
  import opened DataTypes
  import opened Gl
  import Wavefront

  // ---------------------------------------------------------------------------
  // Texture bytes

  /** One decoded pixel. */
  datatype Rgba = Rgba(r: byte, g: byte, b: byte, a: byte)

  /** A decoded image: pixel(x, y) for 0 <= x < width, 0 <= y < height. */
  datatype Image = Image(width: nat, height: nat, pixel: (int, int) -> Rgba)

  /** Byte c of a pixel in the uploaded layout: B, G, R, A. */
  function Channel(p: Rgba, c: nat): byte
    requires c < 4
  {
    if c == 0 then p.b else if c == 1 then p.g else if c == 2 then p.r else p.a
  }

  /** The bytes of pixels (x, 0) to (x, y - 1). */
  function ColumnBytes(img: Image, x: int, y: nat): (r: seq<byte>)
    ensures |r| == 4 * y
  {
    if y == 0 then []
    else
      var p := img.pixel(x, y - 1);
      ColumnBytes(img, x, y - 1) + [p.b, p.g, p.r, p.a]
  }

  /** The bytes of columns 0 to x - 1, each column top to bottom. */
  function PixelBytes(img: Image, x: nat): seq<byte> {
    if x == 0 then []
    else PixelBytes(img, x - 1) + ColumnBytes(img, x - 1, img.height)
  }

  lemma {:induction false} PixelBytesLength(img: Image, x: nat)
    ensures |PixelBytes(img, x)| == 4 * img.height * x
  {
    if x > 0 {
      PixelBytesLength(img, x - 1);
      assert 4 * img.height * x == 4 * img.height * (x - 1) + 4 * img.height;
    }
  }

  /** The bytes of the first m columns begin the bytes of the first n. */
  lemma {:induction false} PixelsPrefix(img: Image, m: nat, n: nat)
    requires m <= n
    ensures PixelBytes(img, m) <= PixelBytes(img, n)
    decreases n
  {
    if m < n {
      PixelsPrefix(img, m, n - 1);
    }
  }

  lemma {:induction false} ColumnLayout(img: Image, x: int, n: nat, y: nat, c: nat)
    requires y < n && c < 4
    ensures ColumnBytes(img, x, n)[4 * y + c] == Channel(img.pixel(x, y), c)
    decreases n
  {
    if y < n - 1 {
      ColumnLayout(img, x, n - 1, y, c);
    }
  }

  /** Byte 4 * (x * h + y) + c of the upload holds channel c (B, G, R, A)
      of pixel (x, y): columns are outermost. */
  lemma PixelByteLayout(img: Image, x: nat, y: nat, c: nat)
    requires x < img.width && y < img.height && c < 4
    ensures 4 * (x * img.height + y) + c < |PixelBytes(img, img.width)|
    ensures PixelBytes(img, img.width)[4 * (x * img.height + y) + c] == Channel(img.pixel(x, y), c)
  {
    PixelBytesLength(img, x);
    IndexSplit(x, img.height, y, c);
    PixelsPrefix(img, x + 1, img.width);
    ColumnLayout(img, x, img.height, y, c);
  }

  lemma IndexSplit(x: nat, h: nat, y: nat, c: nat)
    ensures 4 * (x * h + y) + c == 4 * h * x + (4 * y + c)
  {
  }

  lemma MulMonotone(a: nat, b: nat, k: nat)
    requires a <= b
    ensures a * k <= b * k
  {
    assert b * k == a * k + (b - a) * k;
  }

  /** Every byte of the upload belongs to exactly one pixel channel: each
      index below 4 * w * h is 4 * (x * h + y) + c for a pixel (x, y) of the
      image and a channel c ... */
  lemma PixelIndexCovers(w: nat, h: nat, j: nat)
    requires j < 4 * w * h
    ensures h > 0
    ensures var q := j / 4;
      q / h < w && 4 * ((q / h) * h + q % h) + j % 4 == j
  {
    var q := j / 4;
    assert 4 * q <= j;
    if w * h <= q {
      assert false;
    }
    assert h > 0;
    assert q == (q / h) * h + q % h;
    if q / h >= w {
      MulMonotone(w, q / h, h);
      assert false;
    }
  }

  /** ... and different (pixel, channel) pairs write different bytes. */
  lemma PixelIndexInjective(h: nat, x: nat, y: nat, c: nat, x': nat, y': nat, c': nat)
    requires y < h && c < 4 && y' < h && c' < 4
    requires 4 * (x * h + y) + c == 4 * (x' * h + y') + c'
    ensures x == x' && y == y' && c == c'
  {
    DivModUnique(4 * (x * h + y) + c, 4, x * h + y, c);
    DivModUnique(4 * (x' * h + y') + c', 4, x' * h + y', c');
    DivModUnique(x * h + y, h, x, y);
    DivModUnique(x' * h + y', h, x', y');
  }

  lemma DivModUnique(n: nat, d: nat, q: nat, r: nat)
    requires 0 <= r < d && n == q * d + r
    ensures q == n / d && r == n % d
  {
    var q0, r0 := n / d, n % d;
    assert n == q0 * d + r0;
    if q > q0 {
      MulMonotone(q0 + 1, q, d);
      assert false;
    } else if q < q0 {
      MulMonotone(q + 1, q0, d);
      assert false;
    }
  }

  /** The pixel loop of LoadImageAsset: x outermost, y inner, four bytes
      per pixel at a running index. */
  method FillImageData(img: Image) returns (imageData: array<byte>, currentIndex: int)
    ensures imageData[..] == PixelBytes(img, img.width)
    ensures currentIndex == imageData.Length == img.width * img.height * 4
  {
    imageData := new byte[img.width * img.height * 4];
    PixelBytesLength(img, img.width);
    assert imageData.Length == |PixelBytes(img, img.width)|;
    currentIndex := 0;
    for x := 0 to img.width
      invariant currentIndex == |PixelBytes(img, x)| <= imageData.Length
      invariant imageData[..currentIndex] == PixelBytes(img, x)
    {
      PixelsPrefix(img, x + 1, img.width);
      currentIndex := FillColumn(imageData, img, x, currentIndex);
    }
    PixelsPrefix(img, img.width, img.width);
    assert imageData[..] == imageData[..currentIndex];
  }

  /** The inner loop of the pixel loop: column x from the top, from index
      start on. */
  method FillColumn(imageData: array<byte>, img: Image, x: int, start: nat) returns (currentIndex: nat)
    requires start + 4 * img.height <= imageData.Length
    modifies imageData
    ensures currentIndex == start + 4 * img.height
    ensures imageData[..currentIndex] == old(imageData[..start]) + ColumnBytes(img, x, img.height)
  {
    currentIndex := start;
    for y := 0 to img.height
      invariant currentIndex == start + 4 * y
      invariant imageData[..currentIndex] == old(imageData[..start]) + ColumnBytes(img, x, y)
    {
      var pixelValue := img.pixel(x, y);
      ghost var written := imageData[..currentIndex];
      imageData[currentIndex] := pixelValue.b;
      imageData[currentIndex + 1] := pixelValue.g;
      imageData[currentIndex + 2] := pixelValue.r;
      imageData[currentIndex + 3] := pixelValue.a;
      assert imageData[..currentIndex + 4] == written + [pixelValue.b, pixelValue.g, pixelValue.r, pixelValue.a];
      currentIndex := currentIndex + 4;
    }
  }

  // ---------------------------------------------------------------------------
  // Interleaved vertex buffer

  /** Floats per vertex: position 3, normal 3, uv 2, tangent 3, bitangent 3. */
  const StrideCount: int := 14

  /** sizeof(float), sizeof(uint), Vector3.SizeInBytes, Vector2.SizeInBytes. */
  const FloatSize: int := 4
  const UintSize: int := 4
  const Vector3SizeInBytes: int := 12
  const Vector2SizeInBytes: int := 8

  /** The byte stride the attribute pointers declare. */
  const Stride: int := 4 * Vector3SizeInBytes + Vector2SizeInBytes

  /** Every column of the mesh has one entry per vertex. */
  predicate Uniform(m: VertexData) {
    |m.normals| == |m.vertices| && |m.uvs| == |m.vertices| &&
    |m.tangents| == |m.vertices| && |m.biTangents| == |m.vertices|
  }

  /** The 14 floats of vertex i in writing order. */
  function VertexBlock(m: VertexData, i: nat): (r: seq<real>)
    requires Uniform(m) && i < |m.vertices|
    ensures |r| == StrideCount
  {
    var p, n, uv, t, b := m.vertices[i], m.normals[i], m.uvs[i], m.tangents[i], m.biTangents[i];
    [p.x, p.y, p.z, n.x, n.y, n.z, uv.x, uv.y, t.x, t.y, t.z, b.x, b.y, b.z]
  }

  /** The blocks of the first n vertices, one after another. */
  function Interleaved(m: VertexData, n: nat): (r: seq<real>)
    requires Uniform(m) && n <= |m.vertices|
    ensures |r| == StrideCount * n
  {
    if n == 0 then [] else Interleaved(m, n - 1) + VertexBlock(m, n - 1)
  }

  lemma {:induction false} InterleavedBlock(m: VertexData, n: nat, i: nat, j: nat)
    requires Uniform(m) && n <= |m.vertices| && i < n && j < StrideCount
    ensures Interleaved(m, n)[StrideCount * i + j] == VertexBlock(m, i)[j]
    decreases n
  {
    if i < n - 1 {
      InterleavedBlock(m, n - 1, i, j);
    }
  }

  /** Component j of a three-component vector. */
  function Component3(v: Vector3, j: nat): real
    requires j < 3
  {
    if j == 0 then v.x else if j == 1 then v.y else v.z
  }

  function Component2(v: Vector2, j: nat): real
    requires j < 2
  {
    if j == 0 then v.x else v.y
  }

  /** The number of components of vertex attribute a. */
  function AttributeSize(a: int): int {
    if a == VertexAttribUv then 2 else 3
  }

  /** Component j of vertex attribute a (position, normal, uv, tangent,
      bitangent) of vertex i. */
  function AttributeComponent(m: VertexData, a: int, i: nat, j: nat): real
    requires Uniform(m) && i < |m.vertices| && 0 <= a < 5 && j < AttributeSize(a)
  {
    if a == VertexAttribVertex then Component3(m.vertices[i], j)
    else if a == VertexAttribNormal then Component3(m.normals[i], j)
    else if a == VertexAttribUv then Component2(m.uvs[i], j)
    else if a == VertexAttribTangent then Component3(m.tangents[i], j)
    else Component3(m.biTangents[i], j)
  }

  /** The five attribute pointers of the vertex array object, by attribute
      index: float components, normalised, the common stride, byte offsets
      after the attributes before. */
  function AttributePointers(): seq<Call> {
    [VertexAttribPointer(VertexAttribVertex, 3, true, Stride, 0),
     VertexAttribPointer(VertexAttribNormal, 3, true, Stride, Vector3SizeInBytes),
     VertexAttribPointer(VertexAttribUv, 2, true, Stride, 2 * Vector3SizeInBytes),
     VertexAttribPointer(VertexAttribTangent, 3, true, Stride, 2 * Vector3SizeInBytes + Vector2SizeInBytes),
     VertexAttribPointer(VertexAttribBitangent, 3, true, Stride, 3 * Vector3SizeInBytes + Vector2SizeInBytes)]
  }

  /** The attribute pointers read the buffer the way the interleave loop
      wrote it: the stride is 14 floats, and attribute a of vertex i starts
      at the float its byte offset names, holding that attribute's
      components in order. */
  lemma AttributeLayout(m: VertexData, i: nat, a: nat, j: nat)
    requires Uniform(m) && i < |m.vertices| && a < 5
    ensures var ptr := AttributePointers()[a];
      ptr.index == a && ptr.size == AttributeSize(a) &&
      ptr.stride == StrideCount * FloatSize && ptr.offset % FloatSize == 0 &&
      ptr.offset / FloatSize + ptr.size <= StrideCount
    ensures j < AttributeSize(a) ==>
      var ptr := AttributePointers()[a];
      Interleaved(m, |m.vertices|)[StrideCount * i + ptr.offset / FloatSize + j] == AttributeComponent(m, a, i, j)
  {
    if j < AttributeSize(a) {
      var ptr := AttributePointers()[a];
      InterleavedBlock(m, |m.vertices|, i, ptr.offset / FloatSize + j);
    }
  }

  /** Writes the three components of v from index k on; returns the index
      after them. */
  method PutVector3(interleaved: array<real>, k: nat, v: Vector3) returns (next: nat)
    requires k + 3 <= interleaved.Length
    modifies interleaved
    ensures next == k + 3
    ensures interleaved[..next] == old(interleaved[..k]) + [v.x, v.y, v.z]
  {
    interleaved[k] := v.x;
    interleaved[k + 1] := v.y;
    interleaved[k + 2] := v.z;
    next := k + 3;
  }

  method PutVector2(interleaved: array<real>, k: nat, v: Vector2) returns (next: nat)
    requires k + 2 <= interleaved.Length
    modifies interleaved
    ensures next == k + 2
    ensures interleaved[..next] == old(interleaved[..k]) + [v.x, v.y]
  {
    interleaved[k] := v.x;
    interleaved[k + 1] := v.y;
    next := k + 2;
  }

  /** The body of the interleave loop: vertex i's 14 floats from k on. */
  method PutVertex(interleaved: array<real>, k: nat, planeMesh: VertexData, i: nat) returns (next: nat)
    requires Uniform(planeMesh) && i < |planeMesh.vertices| && k + StrideCount <= interleaved.Length
    modifies interleaved
    ensures next == k + StrideCount
    ensures interleaved[..next] == old(interleaved[..k]) + VertexBlock(planeMesh, i)
  {
    next := PutVector3(interleaved, k, planeMesh.vertices[i]);
    next := PutVector3(interleaved, next, planeMesh.normals[i]);
    next := PutVector2(interleaved, next, planeMesh.uvs[i]);
    next := PutVector3(interleaved, next, planeMesh.tangents[i]);
    next := PutVector3(interleaved, next, planeMesh.biTangents[i]);
  }

  /** The interleave loop of LoadMeshAsset: block i of the float array holds
      vertex i's position, normal, uv, tangent and bitangent. */
  method InterleaveVertices(planeMesh: VertexData) returns (interleaved: array<real>)
    requires Uniform(planeMesh)
    ensures interleaved[..] == Interleaved(planeMesh, |planeMesh.vertices|)
  {
    var strideCount := 14;
    interleaved := new real[strideCount * |planeMesh.vertices|];
    var interleavedIndex := 0;
    for i := 0 to |planeMesh.vertices|
      invariant interleaved[..StrideCount * i] == Interleaved(planeMesh, i)
    {
      interleavedIndex := i * strideCount;
      MulMonotone(i + 1, |planeMesh.vertices|, StrideCount);
      interleavedIndex := PutVertex(interleaved, interleavedIndex, planeMesh, i);
    }
    assert interleaved[..] == interleaved[..StrideCount * |planeMesh.vertices|];
  }

  // ---------------------------------------------------------------------------
  // Asset loading, as values

  /** What one load does: the asset record it leaves behind (the source
      passes it by reference), whether it completed or threw, the GL calls
      it made, and how many GL names it took. */
  datatype Step<T> = Step(asset: T, outcome: Outcome, calls: seq<Call>, names: nat)

  /** The calls LoadImageAsset makes for an image, with texture name t. */
  function ImageCalls(t: int, img: Image): seq<Call> {
    [GenTexture(t), BindTexture(t),
     TexImage2D(img.width, img.height, PixelBytes(img, img.width)),
     TexParameterNearest(TextureMinFilter), TexParameterNearest(TextureMagFilter),
     GenerateMipmap]
  }

  /** LoadImageAsset with first the next free GL name. */
  function ImageLoad(asset: ImageAssetData, img: Image, first: int): Step<ImageAssetData> {
    if asset.isLoaded then Step(asset, Pass, [], 0)
    else Step(asset.(openGLHandle := first, isLoaded := true), Pass, ImageCalls(first, img), 1)
  }

  /** The calls of LoadShaderAsset up to and including compiling the vertex
      stage, with stage names v and f. */
  function VertexStageCalls(v: int, f: int, vs: string): seq<Call> {
    [CreateShader(VertexShader, v), CreateShader(FragmentShader, f), ShaderSource(v, vs), CompileShader(v)]
  }

  function FragmentStageCalls(f: int, fs: string): seq<Call> {
    [ShaderSource(f, fs), CompileShader(f)]
  }

  /** Creating, attaching, binding the three basic attributes, and linking
      program p. */
  function ProgramCalls(p: int, v: int, f: int): seq<Call> {
    [CreateProgram(p), AttachShader(p, f), AttachShader(p, v),
     BindAttribLocation(p, VertexAttribVertex, "in_position"),
     BindAttribLocation(p, VertexAttribNormal, "in_normal"),
     BindAttribLocation(p, VertexAttribUv, "in_uv"),
     LinkProgram(p)]
  }

  /** LoadShaderAsset: both stage names are stored before anything is
      compiled; a stage that does not compile throws its info log, the
      vertex stage first; only then is the program created and linked. */
  function ShaderLoad(asset: BasicShaderAssetData, vs: string, fs: string, first: int, driver: Driver)
    : Step<BasicShaderAssetData>
  {
    if asset.isLoaded then Step(asset, Pass, [], 0)
    else
      var v, f, p := first, first + 1, first + 2;
      var staged := asset.(vertexObjectHandle := v, fragmentObjectHandle := f);
      if driver.compileStatus(VertexShader, vs) != 1 then
        Step(staged, Fail(Application(driver.infoLog(VertexShader, vs))), VertexStageCalls(v, f, vs), 2)
      else if driver.compileStatus(FragmentShader, fs) != 1 then
        Step(staged, Fail(Application(driver.infoLog(FragmentShader, fs))),
             VertexStageCalls(v, f, vs) + FragmentStageCalls(f, fs), 2)
      else
        Step(staged.(programHandle := p,
                     modelviewProjectionMatrixLocation := driver.uniformLocation(p, "modelview_projection_matrix"),
                     isLoaded := true),
             Pass, VertexStageCalls(v, f, vs) + FragmentStageCalls(f, fs) + ProgramCalls(p, v, f), 3)
  }

  /** LoadBlinnShaderAsset: the basic shader, then the tangent and bitangent
      bindings and the uniform locations of its program. */
  function BlinnLoad(shader: BlinnShaderAsset, vs: string, fs: string, first: int, driver: Driver)
    : Step<BlinnShaderAsset>
  {
    var basic := ShaderLoad(shader.basicShader, vs, fs, first, driver);
    if basic.outcome.Fail? then Step(shader.(basicShader := basic.asset), basic.outcome, basic.calls, basic.names)
    else
      var p := basic.asset.programHandle;
      var location := (name: string) => driver.uniformLocation(p, name);
      Step(shader.(basicShader := basic.asset,
                   modelMatrixLocation := location("model_matrix"),
                   materialShininessLocation := location("specular_shininess"),
                   lightDirectionLocation := location("light_direction"),
                   lightAmbientColorLocation := location("light_ambient_color"),
                   lightDiffuseColorLocation := location("light_diffuse_color"),
                   lightSpecularColorLocation := location("light_specular_color"),
                   cameraPositionLocation := location("camera_position"),
                   colorTextureLocation := location("color_texture"),
                   normalTextureLocation := location("normalmap_texture")),
           Pass,
           basic.calls + [BindAttribLocation(p, VertexAttribTangent, "in_tangent"),
                          BindAttribLocation(p, VertexAttribBitangent, "in_bitangent")],
           basic.names)
  }

  /** The calls of LoadMeshAsset after the interleave: the vertex buffer vb,
      the index buffer ib, and the vertex array object vao with its five
      attributes. */
  function MeshCalls(vb: int, ib: int, vao: int, floats: seq<real>, indices: seq<int>): seq<Call> {
    VertexBufferCalls(vb, floats) + IndexBufferCalls(ib, indices) + VertexArrayCalls(vao, vb, ib)
  }

  function VertexBufferCalls(vb: int, floats: seq<real>): seq<Call> {
    [GenBuffer(vb), BindBuffer(ArrayBuffer, vb),
     BufferFloats(ArrayBuffer, |floats| * FloatSize, floats), BindBuffer(ArrayBuffer, 0)]
  }

  function IndexBufferCalls(ib: int, indices: seq<int>): seq<Call> {
    [GenBuffer(ib), BindBuffer(ElementArrayBuffer, ib),
     BufferInts(ElementArrayBuffer, UintSize * |indices|, indices), BindBuffer(ElementArrayBuffer, 0)]
  }

  function VertexArrayCalls(vao: int, vb: int, ib: int): seq<Call> {
    [GenVertexArray(vao), BindVertexArray(vao),
     BindBuffer(ElementArrayBuffer, ib), BindBuffer(ArrayBuffer, vb),
     EnableVertexAttribArray(0), EnableVertexAttribArray(1), EnableVertexAttribArray(2),
     EnableVertexAttribArray(3), EnableVertexAttribArray(4)]
    + AttributePointers() + [BindVertexArray(0)]
  }

  /** LoadMeshAsset for the outcome of loading its Wavefront file. */
  function MeshLoad(asset: MeshAssetData, mesh: Result<VertexData>, first: int): Step<MeshAssetData>
    requires mesh.Ok? ==> Uniform(mesh.value)
  {
    if asset.isLoaded then Step(asset, Pass, [], 0)
    else if mesh.Err? then Step(asset, Fail(mesh.error), [], 0)
    else
      var m := mesh.value;
      var vb, ib, vao := first, first + 1, first + 2;
      Step(asset.(indicesCount := |m.indices|, vertexBufferHandle := vb, indicesBufferHandle := ib,
                  vertexArrayObjectHandle := vao, isLoaded := true),
           Pass, MeshCalls(vb, ib, vao, Interleaved(m, |m.vertices|), m.indices), 3)
  }

  /** The calls of the Unload methods: release only what a loaded record
      names. */
  function UnloadImageCalls(asset: ImageAssetData): seq<Call> {
    if asset.isLoaded then [DeleteTexture(asset.openGLHandle)] else []
  }

  function UnloadShaderCalls(asset: BasicShaderAssetData): seq<Call> {
    if asset.isLoaded then
      [DeleteProgram(asset.programHandle), DeleteShader(asset.fragmentObjectHandle),
       DeleteShader(asset.vertexObjectHandle)]
    else []
  }

  function UnloadMeshCalls(asset: MeshAssetData): seq<Call> {
    if asset.isLoaded then
      [DeleteVertexArray(asset.vertexArrayObjectHandle), DeleteBuffer(asset.vertexBufferHandle),
       DeleteBuffer(asset.indicesBufferHandle)]
    else []
  }

  // ---------------------------------------------------------------------------
  // Properties of the loads

  lemma CreatedSingle(c: Call)
    ensures Created([c]) == if c.Creates() then {c.Name()} else {}
  {
    if c.Creates() {
      assert [c][0] == c;
    }
  }

  lemma CreatedCons(c: Call, rest: seq<Call>)
    ensures Created([c] + rest) == Created([c]) + Created(rest)
  {
    CreatedAppend([c], rest);
  }

  lemma DeletedSingle(c: Call)
    ensures Deleted([c]) == if c.Deletes() then {c.Released()} else {}
  {
    if c.Deletes() {
      assert [c][0] == c;
    }
  }

  /** A load of a record already loaded does nothing; a successful load
      marks the record loaded, so loading it again does nothing. */
  lemma LoadsAreIdempotent(image: ImageAssetData, img: Image, shader: BasicShaderAssetData, vs: string, fs: string,
                           mesh: MeshAssetData, m: Result<VertexData>, first: int, next: int, driver: Driver)
    requires m.Ok? ==> Uniform(m.value)
    ensures image.isLoaded ==> ImageLoad(image, img, first) == Step(image, Pass, [], 0)
    ensures shader.isLoaded ==> ShaderLoad(shader, vs, fs, first, driver) == Step(shader, Pass, [], 0)
    ensures mesh.isLoaded ==> MeshLoad(mesh, m, first) == Step(mesh, Pass, [], 0)
    ensures var s := ImageLoad(image, img, first);
      s.asset.isLoaded && ImageLoad(s.asset, img, next) == Step(s.asset, Pass, [], 0)
    ensures var s := ShaderLoad(shader, vs, fs, first, driver);
      s.outcome.Pass? ==> s.asset.isLoaded && ShaderLoad(s.asset, vs, fs, next, driver) == Step(s.asset, Pass, [], 0)
    ensures var s := MeshLoad(mesh, m, first);
      s.outcome.Pass? ==> s.asset.isLoaded && MeshLoad(s.asset, m, next) == Step(s.asset, Pass, [], 0)
  {
  }

  /** The order of LoadShaderAsset's failures: it succeeds exactly when both
      stages compile; a vertex stage that does not compile throws its info
      log before the fragment stage is compiled; a failure throws before
      any program is created, leaves the record not loaded, but has already
      stored both stage names in it. */
  lemma ShaderFailureOrder(asset: BasicShaderAssetData, vs: string, fs: string, first: int, driver: Driver)
    requires !asset.isLoaded
    ensures var s := ShaderLoad(asset, vs, fs, first, driver);
      s.outcome.Pass? <==>
        driver.compileStatus(VertexShader, vs) == 1 && driver.compileStatus(FragmentShader, fs) == 1
    ensures var s := ShaderLoad(asset, vs, fs, first, driver);
      driver.compileStatus(VertexShader, vs) != 1 ==>
        s.outcome == Fail(Application(driver.infoLog(VertexShader, vs))) && CompileShader(first + 1) !in s.calls
    ensures var s := ShaderLoad(asset, vs, fs, first, driver);
      driver.compileStatus(VertexShader, vs) == 1 && driver.compileStatus(FragmentShader, fs) != 1 ==>
        s.outcome == Fail(Application(driver.infoLog(FragmentShader, fs)))
    ensures var s := ShaderLoad(asset, vs, fs, first, driver);
      s.outcome.Fail? ==>
        (forall k :: 0 <= k < |s.calls| ==> !s.calls[k].CreateProgram? && !s.calls[k].LinkProgram?) &&
        !s.asset.isLoaded && s.asset.vertexObjectHandle == first && s.asset.fragmentObjectHandle == first + 1
  {
  }

  /** The attributes in force when LoadShaderAsset links its program are
      exactly position, normal and uv (locations 0, 1, 2). */
  lemma ShaderBindingsAtLink(asset: BasicShaderAssetData, vs: string, fs: string, first: int, driver: Driver)
    requires !asset.isLoaded
    requires ShaderLoad(asset, vs, fs, first, driver).outcome.Pass?
    ensures var s := ShaderLoad(asset, vs, fs, first, driver);
      s.asset.programHandle == first + 2 &&
      LinkedBindings(s.calls, first + 2) == {VertexAttribVertex, VertexAttribNormal, VertexAttribUv}
  {
    var s := ShaderLoad(asset, vs, fs, first, driver);
    var p := first + 2;
    assert |s.calls| == 13 && s.calls[12] == LinkProgram(p);
    BindingsOfShaderLoad(s.calls, p);
  }

  lemma BindingsOfShaderLoad(calls: seq<Call>, p: int)
    requires |calls| == 13
    requires forall k :: 0 <= k < 9 ==> !calls[k].BindAttribLocation?
    requires calls[9] == BindAttribLocation(p, VertexAttribVertex, "in_position")
    requires calls[10] == BindAttribLocation(p, VertexAttribNormal, "in_normal")
    requires calls[11] == BindAttribLocation(p, VertexAttribUv, "in_uv")
    requires calls[12] == LinkProgram(p)
    ensures LinkedBindings(calls, p) == {VertexAttribVertex, VertexAttribNormal, VertexAttribUv}
  {
    var b := BindingsBefore(calls, p, 12);
    assert calls[9].index in b && calls[10].index in b && calls[11].index in b;
    assert forall i :: i in b ==> i in {VertexAttribVertex, VertexAttribNormal, VertexAttribUv};
  }

  /** LoadBlinnShaderAsset binds the tangent and bitangent locations (3 and
      4) only after LoadShaderAsset has linked the program, so the bindings
      in force stay those of position, normal and uv, while 3 and 4 are
      bound but never linked. */
  lemma BlinnBindsAfterLink(shader: BlinnShaderAsset, vs: string, fs: string, first: int, driver: Driver)
    requires !shader.basicShader.isLoaded
    requires BlinnLoad(shader, vs, fs, first, driver).outcome.Pass?
    ensures var b := BlinnLoad(shader, vs, fs, first, driver);
      var p := b.asset.basicShader.programHandle;
      LinkedBindings(b.calls, p) == {VertexAttribVertex, VertexAttribNormal, VertexAttribUv} &&
      VertexAttribTangent in BindingsBefore(b.calls, p, |b.calls|) &&
      VertexAttribBitangent in BindingsBefore(b.calls, p, |b.calls|)
  {
    var s := ShaderLoad(shader.basicShader, vs, fs, first, driver);
    var b := BlinnLoad(shader, vs, fs, first, driver);
    var p := first + 2;
    var extra := [BindAttribLocation(p, VertexAttribTangent, "in_tangent"),
                  BindAttribLocation(p, VertexAttribBitangent, "in_bitangent")];
    ShaderBindingsAtLink(shader.basicShader, vs, fs, first, driver);
    assert b.calls == s.calls + extra;
    LinkedBindingsAppend(s.calls, extra, p);
    var n := |s.calls|;
    assert b.calls[n] == extra[0] && b.calls[n + 1] == extra[1];
  }

  /** Unloading what a successful load produced releases exactly the names
      the load took. */
  lemma ImageUnloadReleases(asset: ImageAssetData, img: Image, first: int)
    requires !asset.isLoaded
    ensures var s := ImageLoad(asset, img, first);
      Created(s.calls) == {first} == Deleted(UnloadImageCalls(s.asset))
  {
    var s := ImageLoad(asset, img, first);
    assert s.calls == [GenTexture(first)] + s.calls[1..];
    CreatedCons(GenTexture(first), s.calls[1..]);
    CreatedSingle(GenTexture(first));
    assert Created(s.calls[1..]) == {};
    DeletedSingle(DeleteTexture(first));
  }

  /** The names each piece of the traces hands out or releases. */
  lemma ShaderPiecesCreate(v: int, f: int, p: int, vs: string, fs: string)
    ensures Created(VertexStageCalls(v, f, vs)) == {v, f}
    ensures Created(FragmentStageCalls(f, fs)) == {}
    ensures Created(ProgramCalls(p, v, f)) == {p}
  {
    var stages := VertexStageCalls(v, f, vs);
    assert stages[0].Name() == v && stages[1].Name() == f;
    assert forall k :: 0 <= k < 4 && stages[k].Creates() ==> k < 2;
    var program := ProgramCalls(p, v, f);
    assert program[0].Name() == p;
    assert forall k :: 0 <= k < 7 && program[k].Creates() ==> k == 0;
  }

  lemma UnloadShaderDeletes(asset: BasicShaderAssetData)
    requires asset.isLoaded
    ensures Deleted(UnloadShaderCalls(asset)) ==
      {asset.programHandle, asset.fragmentObjectHandle, asset.vertexObjectHandle}
  {
    var u := UnloadShaderCalls(asset);
    assert u[0].Released() == asset.programHandle;
    assert u[1].Released() == asset.fragmentObjectHandle;
    assert u[2].Released() == asset.vertexObjectHandle;
  }

  lemma MeshPiecesCreate(vb: int, ib: int, vao: int, floats: seq<real>, indices: seq<int>)
    ensures Created(VertexBufferCalls(vb, floats)) == {vb}
    ensures Created(IndexBufferCalls(ib, indices)) == {ib}
    ensures Created(VertexArrayCalls(vao, vb, ib)) == {vao}
  {
    var b := VertexBufferCalls(vb, floats);
    assert b[0].Name() == vb;
    assert forall k :: 0 <= k < 4 && b[k].Creates() ==> k == 0;
    var i := IndexBufferCalls(ib, indices);
    assert i[0].Name() == ib;
    assert forall k :: 0 <= k < 4 && i[k].Creates() ==> k == 0;
    var a := VertexArrayCalls(vao, vb, ib);
    assert a[0].Name() == vao;
    assert forall k :: 0 <= k < |a| && a[k].Creates() ==> k == 0;
  }

  lemma UnloadMeshDeletes(asset: MeshAssetData)
    requires asset.isLoaded
    ensures Deleted(UnloadMeshCalls(asset)) ==
      {asset.vertexArrayObjectHandle, asset.vertexBufferHandle, asset.indicesBufferHandle}
  {
    var u := UnloadMeshCalls(asset);
    assert u[0].Released() == asset.vertexArrayObjectHandle;
    assert u[1].Released() == asset.vertexBufferHandle;
    assert u[2].Released() == asset.indicesBufferHandle;
  }

  /** After a successful shader load, unloading deletes exactly the program
      and both stages; after a failed one the record is not loaded, so the
      two stage names it took are never deleted. */
  lemma ShaderUnloadReleases(asset: BasicShaderAssetData, vs: string, fs: string, first: int, driver: Driver)
    requires !asset.isLoaded
    ensures var s := ShaderLoad(asset, vs, fs, first, driver);
      s.outcome.Pass? ==> Created(s.calls) == {first, first + 1, first + 2} == Deleted(UnloadShaderCalls(s.asset))
    ensures var s := ShaderLoad(asset, vs, fs, first, driver);
      s.outcome.Fail? ==> Created(s.calls) == {first, first + 1} && UnloadShaderCalls(s.asset) == []
  {
    var s := ShaderLoad(asset, vs, fs, first, driver);
    var v, f, p := first, first + 1, first + 2;
    ShaderPiecesCreate(v, f, p, vs, fs);
    CreatedAppend(VertexStageCalls(v, f, vs), FragmentStageCalls(f, fs));
    if s.outcome.Pass? {
      CreatedAppend(VertexStageCalls(v, f, vs) + FragmentStageCalls(f, fs), ProgramCalls(p, v, f));
      UnloadShaderDeletes(s.asset);
    }
  }

  /** A successful mesh load records the index count, uploads 14 floats
      (56 bytes) per vertex and one index per entry, and unloading the
      record releases exactly the three names the load took. A failed
      Wavefront load leaves the record and GL untouched. */
  lemma MeshLoadFacts(asset: MeshAssetData, m: VertexData, first: int)
    requires !asset.isLoaded && Uniform(m)
    ensures var s := MeshLoad(asset, Ok(m), first);
      s.asset.indicesCount == |m.indices| &&
      s.calls[2] == BufferFloats(ArrayBuffer, |m.vertices| * Stride, Interleaved(m, |m.vertices|)) &&
      s.calls[6] == BufferInts(ElementArrayBuffer, UintSize * |m.indices|, m.indices) &&
      Created(s.calls) == {first, first + 1, first + 2} == Deleted(UnloadMeshCalls(s.asset))
    ensures forall e :: MeshLoad(asset, Err(e), first) == Step(asset, Fail(e), [], 0)
  {
    var s := MeshLoad(asset, Ok(m), first);
    var vb, ib, vao := first, first + 1, first + 2;
    var floats := Interleaved(m, |m.vertices|);
    assert |floats| * FloatSize == |m.vertices| * Stride;
    MeshPiecesCreate(vb, ib, vao, floats, m.indices);
    CreatedAppend(VertexBufferCalls(vb, floats), IndexBufferCalls(ib, m.indices));
    CreatedAppend(VertexBufferCalls(vb, floats) + IndexBufferCalls(ib, m.indices), VertexArrayCalls(vao, vb, ib));
    UnloadMeshDeletes(s.asset);
  }

  /** What the driver is asked about each stage is the kind and source the
      load gave it. */
  lemma StageLookups(v: int, f: int, vs: string, fs: string)
    requires v != f
    ensures ShaderKindOf(VertexStageCalls(v, f, vs), v) == Some(VertexShader)
    ensures ShaderSourceOf(VertexStageCalls(v, f, vs), v) == Some(vs)
    ensures ShaderKindOf(VertexStageCalls(v, f, vs) + FragmentStageCalls(f, fs), f) == Some(FragmentShader)
    ensures ShaderSourceOf(VertexStageCalls(v, f, vs) + FragmentStageCalls(f, fs), f) == Some(fs)
  {
    var c0, c1, c2, c3 := CreateShader(VertexShader, v), CreateShader(FragmentShader, f), ShaderSource(v, vs), CompileShader(v);
    assert ShaderKindOf([c0], v) == Some(VertexShader);
    assert [c0, c1][..1] == [c0];
    assert ShaderKindOf([c0, c1], v) == Some(VertexShader);
    assert ShaderKindOf([c0, c1], f) == Some(FragmentShader);
    assert [c0, c1, c2][..2] == [c0, c1];
    assert [c0, c1, c2, c3][..3] == [c0, c1, c2];
    assert ShaderKindOf([c0, c1, c2, c3], v) == Some(VertexShader);
    var c4, c5 := ShaderSource(f, fs), CompileShader(f);
    assert [c0, c1, c2, c3, c4][..4] == [c0, c1, c2, c3];
    assert [c0, c1, c2, c3, c4, c5][..5] == [c0, c1, c2, c3, c4];
    assert ShaderKindOf([c0, c1, c2], f) == Some(FragmentShader);
    assert ShaderKindOf([c0, c1, c2, c3], f) == Some(FragmentShader);
    assert ShaderKindOf([c0, c1, c2, c3, c4], f) == Some(FragmentShader);
    assert VertexStageCalls(v, f, vs) + FragmentStageCalls(f, fs) == [c0, c1, c2, c3, c4, c5];
  }

  // ---------------------------------------------------------------------------
  // The window

  /** The SatelliteUniverse window: its GL context, the embedded resources it
      reads (shader and mesh text by name, decoded images by name), the
      number parsing the Wavefront loader uses, and the simulation state. */
  class SatelliteUniverse {
    const gl: Context
    const resourceText: string -> string
    const resourceImage: string -> Image
    const num: Wavefront.Numerics
    var elapsedSeconds: real
    var simulationData: SimData?

    constructor (gl: Context, resourceText: string -> string, resourceImage: string -> Image, num: Wavefront.Numerics)
      ensures this.gl == gl && this.resourceText == resourceText && this.resourceImage == resourceImage
      ensures this.num == num && elapsedSeconds == 0.0 && simulationData == null
    {
      this.gl, this.resourceText, this.resourceImage, this.num := gl, resourceText, resourceImage, num;
      elapsedSeconds, simulationData := 0.0, null;
    }

    /** LoadImageAsset: one texture name, the image's bytes in B, G, R, A
        order column by column, nearest filtering and mipmaps. */
    method LoadImageAsset(asset: ImageAssetData) returns (result: ImageAssetData)
      requires gl.Valid()
      modifies gl
      ensures gl.Valid()
      ensures var s := ImageLoad(asset, resourceImage(asset.assetName), old(gl.nextName));
        result == s.asset && gl.calls == old(gl.calls) + s.calls && gl.nextName == old(gl.nextName) + s.names
    {
      if asset.isLoaded {
        return asset;
      }
      ghost var start := gl.calls;
      var textureHandle := gl.Create(Texture);
      gl.Issue(BindTexture(textureHandle));
      var img := resourceImage(asset.assetName);
      var imageData, currentIndex := FillImageData(img);
      gl.Issue(TexImage2D(img.width, img.height, imageData[..]));
      gl.Issue(TexParameterNearest(TextureMinFilter));
      gl.Issue(TexParameterNearest(TextureMagFilter));
      gl.Issue(GenerateMipmap);
      assert gl.calls == start + ImageCalls(textureHandle, img);
      result := asset.(openGLHandle := textureHandle, isLoaded := true);
    }

    /** Creates a stage, gives it its source and compiles it, returning
        what the driver reports: the compile status and the info log. */
    method CompileVertexStage(vs: string) returns (v: int, f: int, status: int, info: string)
      requires gl.Valid()
      modifies gl
      ensures gl.Valid() && v == old(gl.nextName) && f == v + 1 && gl.nextName == v + 2
      ensures gl.calls == old(gl.calls) + VertexStageCalls(v, f, vs)
      ensures status == gl.driver.compileStatus(VertexShader, vs) && info == gl.driver.infoLog(VertexShader, vs)
    {
      ghost var start := gl.calls;
      v := gl.Create(Shader(VertexShader));
      f := gl.Create(Shader(FragmentShader));
      gl.Issue(ShaderSource(v, vs));
      gl.Issue(CompileShader(v));
      assert gl.calls == start + VertexStageCalls(v, f, vs);
      StageLookups(v, f, vs, "");
      ShaderKindOfAppend(start, VertexStageCalls(v, f, vs), v);
      ShaderSourceOfAppend(start, VertexStageCalls(v, f, vs), v);
      info := gl.ShaderInfoLog(v);
      status := gl.CompileStatus(v);
    }

    method CompileFragmentStage(v: int, f: int, vs: string, fs: string) returns (status: int, info: string)
      requires gl.Valid() && v != f
      requires exists start :: gl.calls == start + VertexStageCalls(v, f, vs)
      modifies gl
      ensures gl.Valid() && gl.nextName == old(gl.nextName)
      ensures gl.calls == old(gl.calls) + FragmentStageCalls(f, fs)
      ensures status == gl.driver.compileStatus(FragmentShader, fs) && info == gl.driver.infoLog(FragmentShader, fs)
    {
      ghost var start :| gl.calls == start + VertexStageCalls(v, f, vs);
      gl.Issue(ShaderSource(f, fs));
      gl.Issue(CompileShader(f));
      var both := VertexStageCalls(v, f, vs) + FragmentStageCalls(f, fs);
      assert gl.calls == start + both;
      StageLookups(v, f, vs, fs);
      ShaderKindOfAppend(start, both, f);
      ShaderSourceOfAppend(start, both, f);
      info := gl.ShaderInfoLog(f);
      status := gl.CompileStatus(f);
    }

    /** The program part of LoadShaderAsset: create it, attach both stages,
        bind attributes 0 to 2 and link. */
    method LinkShaderProgram(vertexObject: int, fragmentObject: int) returns (program: int)
      requires gl.Valid()
      modifies gl
      ensures gl.Valid() && program == old(gl.nextName) && gl.nextName == program + 1
      ensures gl.calls == old(gl.calls) + ProgramCalls(program, vertexObject, fragmentObject)
    {
      ghost var start := gl.calls;
      program := gl.Create(Program);
      gl.IssueAll([AttachShader(program, fragmentObject), AttachShader(program, vertexObject)]);
      gl.IssueAll([BindAttribLocation(program, VertexAttribVertex, "in_position"),
                   BindAttribLocation(program, VertexAttribNormal, "in_normal"),
                   BindAttribLocation(program, VertexAttribUv, "in_uv")]);
      gl.Issue(LinkProgram(program));
      assert gl.calls == start + ProgramCalls(program, vertexObject, fragmentObject);
    }

    /** The part of LoadShaderAsset after the sources are read: the stage
        names are stored first; a stage whose compile status is not 1
        throws its info log; then the program is linked. */
    method CompileAndLink(shaderAsset: BasicShaderAssetData, vs: string, fs: string)
      returns (result: BasicShaderAssetData, outcome: Outcome)
      requires gl.Valid() && !shaderAsset.isLoaded
      modifies gl
      ensures gl.Valid()
      ensures var s := ShaderLoad(shaderAsset, vs, fs, old(gl.nextName), gl.driver);
        result == s.asset && outcome == s.outcome &&
        gl.calls == old(gl.calls) + s.calls && gl.nextName == old(gl.nextName) + s.names
    {
      var vertexObject, fragmentObject, statusCode, info := CompileVertexStage(vs);
      result := shaderAsset.(vertexObjectHandle := vertexObject, fragmentObjectHandle := fragmentObject);
      if statusCode != 1 {
        return result, Fail(Application(info));
      }
      statusCode, info := CompileFragmentStage(vertexObject, fragmentObject, vs, fs);
      if statusCode != 1 {
        return result, Fail(Application(info));
      }
      var program := LinkShaderProgram(vertexObject, fragmentObject);
      assert gl.calls == old(gl.calls) + (VertexStageCalls(vertexObject, fragmentObject, vs) +
        FragmentStageCalls(fragmentObject, fs) + ProgramCalls(program, vertexObject, fragmentObject));
      result := result.(programHandle := program,
                        modelviewProjectionMatrixLocation := gl.driver.uniformLocation(program, "modelview_projection_matrix"),
                        isLoaded := true);
      outcome := Pass;
    }

    /** LoadShaderAsset: nothing when already loaded; otherwise read both
        sources, then compile and link. */
    method LoadShaderAsset(shaderAsset: BasicShaderAssetData) returns (result: BasicShaderAssetData, outcome: Outcome)
      requires gl.Valid()
      modifies gl
      ensures gl.Valid()
      ensures var s := ShaderLoad(shaderAsset, resourceText(shaderAsset.vertexShaderName),
                                  resourceText(shaderAsset.fragmentShaderName), old(gl.nextName), gl.driver);
        result == s.asset && outcome == s.outcome &&
        gl.calls == old(gl.calls) + s.calls && gl.nextName == old(gl.nextName) + s.names
    {
      if shaderAsset.isLoaded {
        return shaderAsset, Pass;
      }
      var vs := resourceText(shaderAsset.vertexShaderName);
      var fs := resourceText(shaderAsset.fragmentShaderName);
      result, outcome := CompileAndLink(shaderAsset, vs, fs);
    }

    /** LoadBlinnShaderAsset: the basic shader, then attributes 3 and 4 and
        the nine uniform locations of its program. */
    method LoadBlinnShaderAsset(shader: BlinnShaderAsset) returns (result: BlinnShaderAsset, outcome: Outcome)
      requires gl.Valid()
      modifies gl
      ensures gl.Valid()
      ensures var s := BlinnLoad(shader, resourceText(shader.basicShader.vertexShaderName),
                                 resourceText(shader.basicShader.fragmentShaderName), old(gl.nextName), gl.driver);
        result == s.asset && outcome == s.outcome &&
        gl.calls == old(gl.calls) + s.calls && gl.nextName == old(gl.nextName) + s.names
    {
      ghost var basicStep := ShaderLoad(shader.basicShader, resourceText(shader.basicShader.vertexShaderName),
                                        resourceText(shader.basicShader.fragmentShaderName), gl.nextName, gl.driver);
      var basic;
      basic, outcome := LoadShaderAsset(shader.basicShader);
      result := shader.(basicShader := basic);
      if outcome.Fail? {
        return;
      }
      var program := basic.programHandle;
      gl.IssueAll([BindAttribLocation(program, VertexAttribTangent, "in_tangent"),
                   BindAttribLocation(program, VertexAttribBitangent, "in_bitangent")]);
      assert gl.calls == old(gl.calls) + (basicStep.calls + [BindAttribLocation(program, VertexAttribTangent, "in_tangent"),
                                                              BindAttribLocation(program, VertexAttribBitangent, "in_bitangent")]);
      var location := gl.driver.uniformLocation;
      result := result.(modelMatrixLocation := location(program, "model_matrix"),
                        materialShininessLocation := location(program, "specular_shininess"),
                        lightDirectionLocation := location(program, "light_direction"),
                        lightAmbientColorLocation := location(program, "light_ambient_color"),
                        lightDiffuseColorLocation := location(program, "light_diffuse_color"),
                        lightSpecularColorLocation := location(program, "light_specular_color"),
                        cameraPositionLocation := location(program, "camera_position"),
                        colorTextureLocation := location(program, "color_texture"),
                        normalTextureLocation := location(program, "normalmap_texture"));
    }

    /** The vertex buffer of LoadMeshAsset: a new buffer holding the
        interleaved floats. */
    method UploadVertexBuffer(interleaved: array<real>) returns (vertexBufferHandle: int)
      requires gl.Valid()
      modifies gl
      ensures gl.Valid() && vertexBufferHandle == old(gl.nextName) && gl.nextName == vertexBufferHandle + 1
      ensures gl.calls == old(gl.calls) + VertexBufferCalls(vertexBufferHandle, interleaved[..])
    {
      ghost var start := gl.calls;
      vertexBufferHandle := gl.Create(Buffer);
      gl.Issue(BindBuffer(ArrayBuffer, vertexBufferHandle));
      gl.Issue(BufferFloats(ArrayBuffer, interleaved.Length * FloatSize, interleaved[..]));
      gl.Issue(BindBuffer(ArrayBuffer, 0));
      assert gl.calls == start + VertexBufferCalls(vertexBufferHandle, interleaved[..]);
    }

    /** The index buffer of LoadMeshAsset. */
    method UploadIndexBuffer(indices: seq<int>) returns (indexBufferHandle: int)
      requires gl.Valid()
      modifies gl
      ensures gl.Valid() && indexBufferHandle == old(gl.nextName) && gl.nextName == indexBufferHandle + 1
      ensures gl.calls == old(gl.calls) + IndexBufferCalls(indexBufferHandle, indices)
    {
      ghost var start := gl.calls;
      indexBufferHandle := gl.Create(Buffer);
      gl.Issue(BindBuffer(ElementArrayBuffer, indexBufferHandle));
      gl.Issue(BufferInts(ElementArrayBuffer, UintSize * |indices|, indices));
      gl.Issue(BindBuffer(ElementArrayBuffer, 0));
      assert gl.calls == start + IndexBufferCalls(indexBufferHandle, indices);
    }

    /** The vertex array object of LoadMeshAsset: both buffers bound, the
        five attributes enabled and pointed into the 56-byte stride. */
    method SetUpVertexArray(vertexBufferHandle: int, indexBufferHandle: int) returns (vertexArrayObjectHandle: int)
      requires gl.Valid()
      modifies gl
      ensures gl.Valid() && vertexArrayObjectHandle == old(gl.nextName) && gl.nextName == vertexArrayObjectHandle + 1
      ensures gl.calls == old(gl.calls) + VertexArrayCalls(vertexArrayObjectHandle, vertexBufferHandle, indexBufferHandle)
    {
      ghost var start := gl.calls;
      vertexArrayObjectHandle := gl.Create(VertexArray);
      gl.IssueAll([BindVertexArray(vertexArrayObjectHandle),
                   BindBuffer(ElementArrayBuffer, indexBufferHandle),
                   BindBuffer(ArrayBuffer, vertexBufferHandle)]);
      gl.IssueAll([EnableVertexAttribArray(0), EnableVertexAttribArray(1), EnableVertexAttribArray(2),
                   EnableVertexAttribArray(3), EnableVertexAttribArray(4)]);
      var stride := 4 * Vector3SizeInBytes + Vector2SizeInBytes;
      gl.IssueAll([VertexAttribPointer(VertexAttribVertex, 3, true, stride, 0),
                   VertexAttribPointer(VertexAttribNormal, 3, true, stride, Vector3SizeInBytes),
                   VertexAttribPointer(VertexAttribUv, 2, true, stride, 2 * Vector3SizeInBytes),
                   VertexAttribPointer(VertexAttribTangent, 3, true, stride, 2 * Vector3SizeInBytes + Vector2SizeInBytes),
                   VertexAttribPointer(VertexAttribBitangent, 3, true, stride, 3 * Vector3SizeInBytes + Vector2SizeInBytes)]);
      gl.Issue(BindVertexArray(0));
      assert gl.calls == start + VertexArrayCalls(vertexArrayObjectHandle, vertexBufferHandle, indexBufferHandle);
    }

    /** The part of LoadMeshAsset after the Wavefront file is loaded:
        record the index count, interleave the columns, upload vertex and
        index buffers and describe the layout in a vertex array object. */
    method LoadGeometry(meshAsset: MeshAssetData, planeMesh: VertexData) returns (result: MeshAssetData)
      requires gl.Valid() && !meshAsset.isLoaded && Uniform(planeMesh)
      modifies gl
      ensures gl.Valid()
      ensures var s := MeshLoad(meshAsset, Ok(planeMesh), old(gl.nextName));
        result == s.asset && gl.calls == old(gl.calls) + s.calls && gl.nextName == old(gl.nextName) + s.names
    {
      result := meshAsset.(indicesCount := |planeMesh.indices|);
      var interleaved := InterleaveVertices(planeMesh);
      ghost var start := gl.calls;
      var vertexBufferHandle := UploadVertexBuffer(interleaved);
      result := result.(vertexBufferHandle := vertexBufferHandle);
      var indexBufferHandle := UploadIndexBuffer(planeMesh.indices);
      result := result.(indicesBufferHandle := indexBufferHandle);
      var vertexArrayObjectHandle := SetUpVertexArray(vertexBufferHandle, indexBufferHandle);
      assert gl.calls == start + MeshCalls(vertexBufferHandle, indexBufferHandle, vertexArrayObjectHandle,
                                           interleaved[..], planeMesh.indices);
      result := result.(vertexArrayObjectHandle := vertexArrayObjectHandle, isLoaded := true);
    }

    /** LoadMeshAsset: nothing when already loaded; otherwise load the
        Wavefront file (its failure propagates before any GL call), then
        the geometry. */
    method LoadMeshAsset(meshAsset: MeshAssetData) returns (result: MeshAssetData, outcome: Outcome)
      requires gl.Valid()
      modifies gl
      ensures gl.Valid()
      ensures var s := MeshLoad(meshAsset, Wavefront.LoadResult(resourceText(meshAsset.assetName), num), old(gl.nextName));
        result == s.asset && outcome == s.outcome &&
        gl.calls == old(gl.calls) + s.calls && gl.nextName == old(gl.nextName) + s.names
    {
      if meshAsset.isLoaded {
        return meshAsset, Pass;
      }
      var planeMesh := Wavefront.Load(resourceText(meshAsset.assetName), num);
      if planeMesh.Err? {
        return meshAsset, Fail(planeMesh.error);
      }
      result := LoadGeometry(meshAsset, planeMesh.value.Value());
      outcome := Pass;
    }

    /** UnloadImageAsset: deletes the texture of a loaded record. */
    method UnloadImageAsset(asset: ImageAssetData)
      requires gl.Valid()
      modifies gl
      ensures gl.Valid() && gl.nextName == old(gl.nextName) && gl.calls == old(gl.calls) + UnloadImageCalls(asset)
    {
      if asset.isLoaded {
        gl.Issue(DeleteTexture(asset.openGLHandle));
      }
    }

    /** UnloadShaderAsset: deletes the program and both stages of a loaded
        record. The record is a copy, so clearing its IsLoaded flag is lost. */
    method UnloadShaderAsset(shaderAsset: BasicShaderAssetData)
      requires gl.Valid()
      modifies gl
      ensures gl.Valid() && gl.nextName == old(gl.nextName) && gl.calls == old(gl.calls) + UnloadShaderCalls(shaderAsset)
    {
      if shaderAsset.isLoaded {
        gl.Issue(DeleteProgram(shaderAsset.programHandle));
        gl.Issue(DeleteShader(shaderAsset.fragmentObjectHandle));
        gl.Issue(DeleteShader(shaderAsset.vertexObjectHandle));
      }
    }

    method UnloadBlinnShaderAsset(shader: BlinnShaderAsset)
      requires gl.Valid()
      modifies gl
      ensures gl.Valid() && gl.nextName == old(gl.nextName)
      ensures gl.calls == old(gl.calls) + UnloadShaderCalls(shader.basicShader)
    {
      UnloadShaderAsset(shader.basicShader);
    }

    /** UnloadMeshData: deletes the vertex array object and both buffers of
        a loaded record. */
    method UnloadMeshData(meshAsset: MeshAssetData)
      requires gl.Valid()
      modifies gl
      ensures gl.Valid() && gl.nextName == old(gl.nextName) && gl.calls == old(gl.calls) + UnloadMeshCalls(meshAsset)
    {
      if meshAsset.isLoaded {
        gl.Issue(DeleteVertexArray(meshAsset.vertexArrayObjectHandle));
        gl.Issue(DeleteBuffer(meshAsset.vertexBufferHandle));
        gl.Issue(DeleteBuffer(meshAsset.indicesBufferHandle));
      }
    }

    /** Ten new satellites, satellite i at (i, 0, 0), at time 0 and speed 1. */
    method InitSimulationData()
      modifies this
      ensures simulationData != null && fresh(simulationData)
      ensures simulationData.totalSimulationTime == 0.0 && simulationData.simulationSpeed == 1.0
      ensures SatellitesInitial(simulationData.satellites) && fresh(simulationData.satellites)
      ensures forall i | 0 <= i < 10 :: fresh(simulationData.satellites[i])
      ensures forall i | 0 <= i < 10 :: simulationData.satellites[i].OrbitUnset()
      ensures elapsedSeconds == old(elapsedSeconds)
    {
      simulationData := new SimData();
      simulationData.totalSimulationTime := 0.0;
      simulationData.simulationSpeed := 1.0;
      var satellites := new SatelliteSimData?[10];
      simulationData.satellites := satellites;
      for i := 0 to 10
        modifies satellites
        invariant forall j | 0 <= j < i :: satellites[j] != null && fresh(satellites[j])
        invariant forall j | 0 <= j < i :: satellites[j].position == Vector3(j as real, 0.0, 0.0)
        invariant forall j | 0 <= j < i :: satellites[j].OrbitUnset()
        invariant forall j, k | 0 <= j < k < i :: satellites[j] != satellites[k]
      {
        var satellite := new SatelliteSimData();
        satellites[i] := satellite;
        satellites[i].position := Vector3(i as real, 0.0, 0.0);
      }
    }

    /** DoSimulation: visits every satellite and changes nothing. The
        simulation data must exist: OnLoad runs InitSimulationData before
        the first frame is rendered, and without it the source's loop would
        throw a NullReferenceException. */
    method DoSimulation(fTimeDelta: real)
      requires simulationData != null && simulationData.satellites != null
      ensures unchanged(simulationData, simulationData.satellites)
    {
      var satellites := simulationData.satellites;
      for i := 0 to satellites.Length {
        var satellite := satellites[i];
      }
    }

    /** The simulation part of OnRenderFrame: advance the clock, then
        simulate. Frames are rendered only after OnLoad has run
        InitSimulationData, so the simulation data exists. */
    method OnRenderFrame(time: real)
      requires simulationData != null && simulationData.satellites != null
      modifies this
      ensures elapsedSeconds == old(elapsedSeconds) + time && simulationData == old(simulationData)
      ensures unchanged(simulationData, simulationData.satellites)
    {
      elapsedSeconds := elapsedSeconds + time;
      DoSimulation(time);
    }
  }

  /** Ten distinct satellites, satellite i at (i, 0, 0). */
  predicate SatellitesInitial(satellites: array?<SatelliteSimData?>)
    reads satellites, if satellites == null then {} else set i | 0 <= i < satellites.Length :: satellites[i]
  {
    satellites != null && satellites.Length == 10 &&
    (forall i | 0 <= i < 10 :: satellites[i] != null && satellites[i].position == Vector3(i as real, 0.0, 0.0)) &&
    forall i, j | 0 <= i < j < 10 :: satellites[i] != satellites[j]
  }
}
