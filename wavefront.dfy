/** The Wavefront OBJ loader (Wavefront.cs): text to token rows, a counting
    pass that sizes the arrays, a filling pass that reads the v / vn / vt / f
    records, per-triangle tangent frames, and the flattening into a triangle
    soup. Number parsing and vector normalisation are library calls and come
    in as the functions of a Numerics value. */
module Wavefront {
  import opened Results
  import opened DataTypes
  import opened StringSplit

  const WavefrontNormal: string := "vn"
  const WavefrontVertex: string := "v"
  const WavefrontUv: string := "vt"
  const WavefrontTriangle: string := "f"

  /** The library functions the loader calls: float.Parse and int.Parse
      (None where they throw a FormatException) and Vector3.Normalize. */
  datatype Numerics = Numerics(
    parseFloat: string -> Option<real>,
    parseInt: string -> Option<int>,
    normalize: Vector3 -> Vector3)

  /** One triangle: 0-based vertex, normal and uv indices of its three corners,
      and its flat tangent frame. */
  datatype WavefrontFace = WavefrontFace(
    vertexIndex1: int, vertexIndex2: int, vertexIndex3: int,
    normalIndex1: int, normalIndex2: int, normalIndex3: int,
    uvIndex1: int, uvIndex2: int, uvIndex3: int,
    tangent: Vector3, bitangent: Vector3)
  {
    /** The vertex index of corner k. */
    function VertexIndex(k: nat): int
      requires k < 3
    {
      if k == 0 then vertexIndex1 else if k == 1 then vertexIndex2 else vertexIndex3
    }

    function NormalIndex(k: nat): int
      requires k < 3
    {
      if k == 0 then normalIndex1 else if k == 1 then normalIndex2 else normalIndex3
    }

    function UvIndex(k: nat): int
      requires k < 3
    {
      if k == 0 then uvIndex1 else if k == 1 then uvIndex2 else uvIndex3
    }

    /** Same corner indices as g (the tangent frame may differ). */
    predicate SameIndices(g: WavefrontFace) {
      this.(tangent := g.tangent, bitangent := g.bitangent) == g
    }
  }

  /** A default-initialised face, as a fresh WavefrontFace[] holds it. */
  const ZeroFace: WavefrontFace := WavefrontFace(0, 0, 0, 0, 0, 0, 0, 0, 0, Zero3, Zero3)

  /** The in-memory file: arrays sized by the counting pass. */
  datatype WavefrontFileData = WavefrontFileData(
    vertices: array<Vector3>,
    normals: array<Vector3>,
    uvs: array<Vector2>,
    triangles: array<WavefrontFace>)
  {
    function Contents(): FileContents
      reads vertices, normals, uvs, triangles
    {
      FileContents(vertices[..], normals[..], uvs[..], triangles[..])
    }
  }

  /** The contents of a WavefrontFileData, as values. */
  datatype FileContents = FileContents(
    vertices: seq<Vector3>,
    normals: seq<Vector3>,
    uvs: seq<Vector2>,
    triangles: seq<WavefrontFace>)

  // ---------------------------------------------------------------------------
  // Text to token rows

  /** The token rows of a file: its non-empty lines split at '\n', each split
      at ' ' into its non-empty tokens. */
  function Rows(text: string): seq<seq<string>> {
    var lines := Split(text, '\n');
    seq(|lines|, i requires 0 <= i < |lines| => Split(lines[i], ' '))
  }

  /** SplitStringContent: lines, then tokens per line. */
  method SplitStringContent(fileContent: string) returns (partMultiArray: array<seq<string>>)
    ensures partMultiArray[..] == Rows(fileContent)
  {
    var stringLines := StringSplitWithCount(fileContent, '\n');
    partMultiArray := new seq<string>[stringLines.Length];
    assert |Rows(fileContent)| == partMultiArray.Length;
    for i := 0 to partMultiArray.Length
      invariant stringLines[..] == Split(fileContent, '\n')
      invariant forall j :: 0 <= j < i ==> partMultiArray[j] == Rows(fileContent)[j]
    {
      var parts := StringSplitWithCount(stringLines[i], ' ');
      assert Rows(fileContent)[i] == Split(stringLines[..][i], ' ');
      partMultiArray[i] := parts[..];
    }
  }

  lemma {:induction false} SplitPartsFromInput(s: string, sep: char)
    ensures forall p, c :: p in Split(s, sep) && c in p ==> c in s
    decreases |s|
  {
    if s == [] {
    } else if s[0] == sep {
      SplitPartsFromInput(s[1..], sep);
    } else {
      var k := RunLength(s, sep);
      SplitPartsFromInput(s[k..], sep);
    }
  }

  /** Every token is non-empty and holds neither a space nor a newline. */
  lemma RowTokensWellFormed(text: string)
    ensures forall row, t :: row in Rows(text) && t in row ==> t != [] && ' ' !in t && '\n' !in t
  {
    var lines := Split(text, '\n');
    SplitPartsWellFormed(text, '\n');
    forall row, t | row in Rows(text) && t in row
      ensures t != [] && ' ' !in t && '\n' !in t
    {
      var i :| 0 <= i < |lines| && row == Split(lines[i], ' ');
      assert lines[i] in lines;
      SplitPartsWellFormed(lines[i], ' ');
      SplitPartsFromInput(lines[i], ' ');
    }
  }

  /** A line yields a row without tokens exactly when it is made only of
      spaces (lines are never empty). */
  lemma EmptyRowIff(text: string, i: nat)
    requires i < |Rows(text)|
    ensures var line := Split(text, '\n')[i];
      Rows(text)[i] == [] <==> line != [] && forall j :: 0 <= j < |line| ==> line[j] == ' '
  {
    var lines := Split(text, '\n');
    SplitPartsWellFormed(text, '\n');
    assert lines[i] in lines;
    SplitEmptyIff(lines[i], ' ');
  }

  // ---------------------------------------------------------------------------
  // Counting pass

  /** The row starts with the keyword kw. */
  predicate HasKeyword(row: seq<string>, kw: string) {
    |row| > 0 && row[0] == kw
  }

  /** The number of rows whose first token is kw. */
  function CountKeyword(rows: seq<seq<string>>, kw: string): nat {
    if rows == [] then 0
    else CountKeyword(rows[..|rows| - 1], kw) + (if HasKeyword(rows[|rows| - 1], kw) then 1 else 0)
  }

  /** AllocateMemoryForFile: counts the v, vn, vt and f rows, skipping rows
      without tokens, and allocates one array slot per row. */
  method AllocateMemoryForFile(lines: seq<seq<string>>) returns (result: WavefrontFileData)
    ensures fresh(result.vertices) && fresh(result.normals) && fresh(result.uvs) && fresh(result.triangles)
    ensures result.vertices != result.normals
    ensures result.vertices.Length == CountKeyword(lines, WavefrontVertex)
    ensures result.normals.Length == CountKeyword(lines, WavefrontNormal)
    ensures result.uvs.Length == CountKeyword(lines, WavefrontUv)
    ensures result.triangles.Length == CountKeyword(lines, WavefrontTriangle)
    ensures forall k :: 0 <= k < result.triangles.Length ==> result.triangles[k] == ZeroFace
  {
    var vertexCount, normalCount, triangleCount, uvCount := 0, 0, 0, 0;
    for i := 0 to |lines|
      invariant vertexCount == CountKeyword(lines[..i], WavefrontVertex)
      invariant normalCount == CountKeyword(lines[..i], WavefrontNormal)
      invariant uvCount == CountKeyword(lines[..i], WavefrontUv)
      invariant triangleCount == CountKeyword(lines[..i], WavefrontTriangle)
    {
      assert lines[..i + 1][..i] == lines[..i];
      var content := lines[i];
      if |content| <= 0 {
        continue;
      }
      if content[0] == WavefrontVertex {
        vertexCount := vertexCount + 1;
      } else if content[0] == WavefrontNormal {
        normalCount := normalCount + 1;
      } else if content[0] == WavefrontUv {
        uvCount := uvCount + 1;
      } else if content[0] == WavefrontTriangle {
        triangleCount := triangleCount + 1;
      }
    }
    assert lines[..|lines|] == lines;
    var vertices := new Vector3[vertexCount](_ => Zero3);
    var normals := new Vector3[normalCount](_ => Zero3);
    var uvs := new Vector2[uvCount](_ => Zero2);
    var triangles := new WavefrontFace[triangleCount](_ => ZeroFace);
    result := WavefrontFileData(vertices, normals, uvs, triangles);
  }

  // ---------------------------------------------------------------------------
  // Filling pass

  /** What one row contributes to the file. */
  datatype Record =
    | Skip
    | VertexRecord(position: Vector3)
    | NormalRecord(normal: Vector3)
    | UvRecord(uv: Vector2)
    | FaceRecord(face: WavefrontFace)

  /** The 0-based indices one `a/b/c` face token stands for. */
  datatype Corner = Corner(vertex: int, uv: int, normal: int)

  /** float.Parse(row[k]): out of range, malformed, or the number. */
  function FloatToken(row: seq<string>, k: nat, num: Numerics): Result<real> {
    if k < |row| then
      match num.parseFloat(row[k])
      case Some(v) => Ok(v)
      case None => Err(Format)
    else Err(IndexOutOfRange)
  }

  /** int.Parse(parts[k]). */
  function IntToken(parts: seq<string>, k: nat, num: Numerics): Result<int> {
    if k < |parts| then
      match num.parseInt(parts[k])
      case Some(v) => Ok(v)
      case None => Err(Format)
    else Err(IndexOutOfRange)
  }

  /** The three numbers of a v or vn row, tokens 1 to 3 in order. */
  function ParseVector3(row: seq<string>, num: Numerics): Result<Vector3> {
    var x :- FloatToken(row, 1, num);
    var y :- FloatToken(row, 2, num);
    var z :- FloatToken(row, 3, num);
    Ok(Vector3(x, y, z))
  }

  /** A vt row: u, and v flipped to 1 - v. */
  function ParseUv(row: seq<string>, num: Numerics): Result<Vector2> {
    var u :- FloatToken(row, 1, num);
    var v :- FloatToken(row, 2, num);
    Ok(Vector2(u, 1.0 - v))
  }

  /** Token k of a face row, split at '/' with empty entries removed; the
      source reads the vertex, then the normal, then the uv number, and
      subtracts 1 from each. */
  function ParseCorner(row: seq<string>, k: nat, num: Numerics): Result<Corner> {
    if k < |row| then
      var indicesText := Split(row[k], '/');
      var vertex :- IntToken(indicesText, 0, num);
      var normal :- IntToken(indicesText, 2, num);
      var uv :- IntToken(indicesText, 1, num);
      Ok(Corner(vertex - 1, uv - 1, normal - 1))
    else Err(IndexOutOfRange)
  }

  /** An f row: its first three corner tokens; the frame is still zero. */
  function ParseFace(row: seq<string>, num: Numerics): Result<WavefrontFace> {
    var c1 :- ParseCorner(row, 1, num);
    var c2 :- ParseCorner(row, 2, num);
    var c3 :- ParseCorner(row, 3, num);
    Ok(WavefrontFace(c1.vertex, c2.vertex, c3.vertex,
                     c1.normal, c2.normal, c3.normal,
                     c1.uv, c2.uv, c3.uv, Zero3, Zero3))
  }

  predicate StartsWithHash(t: string) {
    |t| > 0 && t[0] == '#'
  }

  /** One iteration of ParseFile's loop. A row without tokens fails: the
      guard `content.Length < 0` never holds, so content[0] is read out of
      range. */
  function ParseRow(row: seq<string>, num: Numerics): Result<Record> {
    if |row| == 0 then Err(IndexOutOfRange)
    else if StartsWithHash(row[0]) then Ok(Skip)
    else if row[0] == WavefrontVertex then
      var p :- ParseVector3(row, num); Ok(VertexRecord(p))
    else if row[0] == WavefrontNormal then
      var n :- ParseVector3(row, num); Ok(NormalRecord(n))
    else if row[0] == WavefrontUv then
      var uv :- ParseUv(row, num); Ok(UvRecord(uv))
    else if row[0] == WavefrontTriangle then
      var f :- ParseFace(row, num); Ok(FaceRecord(f))
    else Ok(Skip)
  }

  const EmptyContents: FileContents := FileContents([], [], [], [])

  /** The file after one more record. */
  function Append(c: FileContents, r: Record): FileContents {
    match r
    case Skip => c
    case VertexRecord(p) => c.(vertices := c.vertices + [p])
    case NormalRecord(n) => c.(normals := c.normals + [n])
    case UvRecord(uv) => c.(uvs := c.uvs + [uv])
    case FaceRecord(f) => c.(triangles := c.triangles + [f])
  }

  /** The file the rows describe, or the exception of the first row that
      fails. */
  function ParseRows(rows: seq<seq<string>>, num: Numerics): Result<FileContents> {
    if rows == [] then Ok(EmptyContents)
    else
      var c :- ParseRows(rows[..|rows| - 1], num);
      var r :- ParseRow(rows[|rows| - 1], num);
      Ok(Append(c, r))
  }

  /** A parsed row is a vertex, normal, uv or face record exactly when its
      keyword is v, vn, vt or f. */
  lemma RecordMatchesKeyword(row: seq<string>, num: Numerics)
    requires ParseRow(row, num).Ok?
    ensures ParseRow(row, num).value.VertexRecord? <==> HasKeyword(row, WavefrontVertex)
    ensures ParseRow(row, num).value.NormalRecord? <==> HasKeyword(row, WavefrontNormal)
    ensures ParseRow(row, num).value.UvRecord? <==> HasKeyword(row, WavefrontUv)
    ensures ParseRow(row, num).value.FaceRecord? <==> HasKeyword(row, WavefrontTriangle)
  {
  }

  /** What a v, vn or vt row stores: its first numeric tokens in order, with
      the texture v flipped to 1 - v. */
  lemma NumberRowFields(row: seq<string>, num: Numerics)
    requires ParseRow(row, num).Ok?
    ensures HasKeyword(row, WavefrontVertex) ==> (|row| >= 4 &&
      var p := ParseRow(row, num).value.position;
      num.parseFloat(row[1]) == Some(p.x) && num.parseFloat(row[2]) == Some(p.y) && num.parseFloat(row[3]) == Some(p.z))
    ensures HasKeyword(row, WavefrontNormal) ==> (|row| >= 4 &&
      var n := ParseRow(row, num).value.normal;
      num.parseFloat(row[1]) == Some(n.x) && num.parseFloat(row[2]) == Some(n.y) && num.parseFloat(row[3]) == Some(n.z))
    ensures HasKeyword(row, WavefrontUv) ==> (|row| >= 3 &&
      var uv := ParseRow(row, num).value.uv;
      num.parseFloat(row[1]) == Some(uv.x) && num.parseFloat(row[2]) == Some(1.0 - uv.y))
  {
  }

  /** What an f row stores for corner k (token k + 1, `a/b/c`): vertex a - 1,
      uv b - 1 and normal c - 1. */
  lemma FaceCornerFields(row: seq<string>, num: Numerics, k: nat)
    requires HasKeyword(row, WavefrontTriangle) && ParseRow(row, num).Ok? && k < 3
    ensures |row| >= 4
    ensures var f := ParseRow(row, num).value.face; var parts := Split(row[k + 1], '/');
      |parts| >= 3 &&
      num.parseInt(parts[0]) == Some(f.VertexIndex(k) + 1) &&
      num.parseInt(parts[1]) == Some(f.UvIndex(k) + 1) &&
      num.parseInt(parts[2]) == Some(f.NormalIndex(k) + 1)
  {
    var c :| ParseCorner(row, k + 1, num) == Ok(c);
  }

  /** Tokens after the fourth never matter: a face keeps only its first three
      corners, a vertex or normal its first three numbers. */
  lemma TrailingTokensIgnored(row: seq<string>, extra: seq<string>, num: Numerics)
    requires |row| >= 4
    ensures ParseRow(row + extra, num) == ParseRow(row, num)
  {
    var longer := row + extra;
    assert longer[0] == row[0] && longer[1] == row[1] && longer[2] == row[2] && longer[3] == row[3];
  }

  /** The counting pass and the filling pass agree: for each keyword, the
      number of records read equals the number of slots allocated. */
  lemma {:induction false} ParsedCountsMatch(rows: seq<seq<string>>, num: Numerics)
    requires ParseRows(rows, num).Ok?
    ensures var c := ParseRows(rows, num).value;
      |c.vertices| == CountKeyword(rows, WavefrontVertex) &&
      |c.normals| == CountKeyword(rows, WavefrontNormal) &&
      |c.uvs| == CountKeyword(rows, WavefrontUv) &&
      |c.triangles| == CountKeyword(rows, WavefrontTriangle)
    decreases |rows|
  {
    if rows != [] {
      ParsedCountsMatch(rows[..|rows| - 1], num);
      RecordMatchesKeyword(rows[|rows| - 1], num);
    }
  }

  /** Parsing succeeds exactly when every row parses. */
  lemma {:induction false} ParseRowsOkIff(rows: seq<seq<string>>, num: Numerics)
    ensures ParseRows(rows, num).Ok? <==> forall i :: 0 <= i < |rows| ==> ParseRow(rows[i], num).Ok?
    decreases |rows|
  {
    if rows != [] {
      var init := rows[..|rows| - 1];
      ParseRowsOkIff(init, num);
      assert forall i :: 0 <= i < |init| ==> init[i] == rows[i];
    }
  }

  /** Once a prefix fails, the whole file fails with the same exception. */
  lemma {:induction false} ParsePrefixFailure(rows: seq<seq<string>>, j: nat, num: Numerics)
    requires j <= |rows| && ParseRows(rows[..j], num).Err?
    ensures ParseRows(rows, num) == ParseRows(rows[..j], num)
    decreases |rows| - j
  {
    if j < |rows| {
      assert rows[..j + 1][..j] == rows[..j];
      ParsePrefixFailure(rows, j + 1, num);
    } else {
      assert rows[..j] == rows;
    }
  }

  /** A file with a line made only of spaces fails to parse, though the
      counting pass skips that line. */
  lemma BlankLineFails(text: string, i: nat, num: Numerics)
    requires i < |Split(text, '\n')|
    requires forall j :: 0 <= j < |Split(text, '\n')[i]| ==> Split(text, '\n')[i][j] == ' '
    ensures ParseRows(Rows(text), num).Err?
  {
    var rows := Rows(text);
    SplitPartsWellFormed(text, '\n');
    assert Split(text, '\n')[i] in Split(text, '\n');
    EmptyRowIff(text, i);
    ParseRowsOkIff(rows, num);
  }

  /** f with the tangent frame of g: a face record overwrites only the nine
      index fields of its array slot. */
  function KeepFrame(f: WavefrontFace, g: WavefrontFace): (r: WavefrontFace)
    ensures r.SameIndices(f) && r.tangent == g.tangent && r.bitangent == g.bitangent
  {
    f.(tangent := g.tangent, bitangent := g.bitangent)
  }

  /** Parsed faces carry no tangent frame yet. */
  lemma {:induction false} ParsedFacesUnframed(rows: seq<seq<string>>, num: Numerics)
    requires ParseRows(rows, num).Ok?
    ensures forall f :: f in ParseRows(rows, num).value.triangles ==> KeepFrame(f, ZeroFace) == f
    decreases |rows|
  {
    if rows != [] {
      ParsedFacesUnframed(rows[..|rows| - 1], num);
    }
  }

  /** ParseFile: the filling pass. Each record is written at the running index
      of its kind; the arrays are those AllocateMemoryForFile sized for the
      same rows. */
  method ParseFile(data: WavefrontFileData, textcontent: seq<seq<string>>, num: Numerics) returns (outcome: Outcome)
    requires data.vertices != data.normals
    requires data.vertices.Length == CountKeyword(textcontent, WavefrontVertex)
    requires data.normals.Length == CountKeyword(textcontent, WavefrontNormal)
    requires data.uvs.Length == CountKeyword(textcontent, WavefrontUv)
    requires data.triangles.Length == CountKeyword(textcontent, WavefrontTriangle)
    modifies data.vertices, data.normals, data.uvs, data.triangles
    ensures outcome.Pass? <==> ParseRows(textcontent, num).Ok?
    ensures outcome.Fail? ==> outcome.error == ParseRows(textcontent, num).error
    ensures outcome.Pass? ==> var c := ParseRows(textcontent, num).value;
      data.vertices[..] == c.vertices && data.normals[..] == c.normals && data.uvs[..] == c.uvs &&
      |c.triangles| == data.triangles.Length &&
      forall k :: 0 <= k < data.triangles.Length ==> data.triangles[k] == KeepFrame(c.triangles[k], old(data.triangles[k]))
  {
    var vertexIndex, uvIndex, normalIndex, triangleIndex := 0, 0, 0, 0;
    ghost var c := EmptyContents;
    ghost var before := data.triangles[..];
    for i := 0 to |textcontent|
      invariant ParseRows(textcontent[..i], num) == Ok(c)
      invariant vertexIndex == |c.vertices| && normalIndex == |c.normals|
      invariant uvIndex == |c.uvs| && triangleIndex == |c.triangles|
      invariant Filled(data, c, before)
    {
      var content := textcontent[i];
      var record := ParseRow(content, num);
      if record.Err? {
        ParseRowsStepFails(textcontent, i, num);
        return Fail(record.error);
      }
      ParseRowsStep(textcontent, i, num);
      vertexIndex, normalIndex, uvIndex, triangleIndex :=
        StoreRecord(data, record.value, c, before, vertexIndex, normalIndex, uvIndex, triangleIndex);
      c := Append(c, record.value);
    }
    assert textcontent[..|textcontent|] == textcontent;
    ParsedCountsMatch(textcontent, num);
    assert data.vertices[..] == data.vertices[..vertexIndex];
    assert data.normals[..] == data.normals[..normalIndex];
    assert data.uvs[..] == data.uvs[..uvIndex];
    outcome := Pass;
  }

  /** The arrays hold the records c parsed so far at their fronts: faces
      with the frame the slot had before, and untouched slots after them. */
  ghost predicate Filled(data: WavefrontFileData, c: FileContents, before: seq<WavefrontFace>)
    reads data.vertices, data.normals, data.uvs, data.triangles
  {
    |c.vertices| <= data.vertices.Length && |c.normals| <= data.normals.Length &&
    |c.uvs| <= data.uvs.Length && |c.triangles| <= data.triangles.Length == |before| &&
    data.vertices[..|c.vertices|] == c.vertices &&
    data.normals[..|c.normals|] == c.normals &&
    data.uvs[..|c.uvs|] == c.uvs &&
    (forall k :: 0 <= k < |c.triangles| ==> data.triangles[k] == KeepFrame(c.triangles[k], before[k])) &&
    forall k :: |c.triangles| <= k < data.triangles.Length ==> data.triangles[k] == before[k]
  }

  /** The body of ParseFile's loop for a row that parsed: write its record
      at the running index of its kind and advance that index. */
  method StoreRecord(data: WavefrontFileData, record: Record, ghost c: FileContents, ghost before: seq<WavefrontFace>,
                     vertexIndex: int, normalIndex: int, uvIndex: int, triangleIndex: int)
    returns (vertexIndex': int, normalIndex': int, uvIndex': int, triangleIndex': int)
    requires data.vertices != data.normals && Filled(data, c, before)
    requires vertexIndex == |c.vertices| && normalIndex == |c.normals|
    requires uvIndex == |c.uvs| && triangleIndex == |c.triangles|
    requires var c' := Append(c, record);
      |c'.vertices| <= data.vertices.Length && |c'.normals| <= data.normals.Length &&
      |c'.uvs| <= data.uvs.Length && |c'.triangles| <= data.triangles.Length
    modifies data.vertices, data.normals, data.uvs, data.triangles
    ensures var c' := Append(c, record);
      Filled(data, c', before) &&
      vertexIndex' == |c'.vertices| && normalIndex' == |c'.normals| &&
      uvIndex' == |c'.uvs| && triangleIndex' == |c'.triangles|
  {
    vertexIndex', normalIndex', uvIndex', triangleIndex' := vertexIndex, normalIndex, uvIndex, triangleIndex;
    match record {
      case Skip =>
      case VertexRecord(p) =>
        data.vertices[vertexIndex] := p;
        vertexIndex' := vertexIndex + 1;
      case NormalRecord(n) =>
        data.normals[normalIndex] := n;
        normalIndex' := normalIndex + 1;
      case UvRecord(uv) =>
        data.uvs[uvIndex] := uv;
        uvIndex' := uvIndex + 1;
      case FaceRecord(f) =>
        data.triangles[triangleIndex] := KeepFrame(f, data.triangles[triangleIndex]);
        triangleIndex' := triangleIndex + 1;
    }
  }

  /** One more row that parses extends the parsed prefix by its record, and
      what the longer prefix holds still fits the arrays sized for all rows. */
  lemma ParseRowsStep(rows: seq<seq<string>>, i: nat, num: Numerics)
    requires i < |rows| && ParseRows(rows[..i], num).Ok? && ParseRow(rows[i], num).Ok?
    ensures ParseRows(rows[..i + 1], num) == Ok(Append(ParseRows(rows[..i], num).value, ParseRow(rows[i], num).value))
    ensures var c := ParseRows(rows[..i + 1], num).value;
      |c.vertices| <= CountKeyword(rows, WavefrontVertex) &&
      |c.normals| <= CountKeyword(rows, WavefrontNormal) &&
      |c.uvs| <= CountKeyword(rows, WavefrontUv) &&
      |c.triangles| <= CountKeyword(rows, WavefrontTriangle)
  {
    assert rows[..i + 1][..i] == rows[..i];
    assert rows[..i + 1][i] == rows[i];
    ParsedCountsMatch(rows[..i + 1], num);
    CountPrefixBound(rows, i + 1);
  }

  /** A row that fails ends the parse with its exception. */
  lemma ParseRowsStepFails(rows: seq<seq<string>>, i: nat, num: Numerics)
    requires i < |rows| && ParseRows(rows[..i], num).Ok? && ParseRow(rows[i], num).Err?
    ensures ParseRows(rows, num) == Err(ParseRow(rows[i], num).error)
  {
    assert rows[..i + 1][..i] == rows[..i];
    assert rows[..i + 1][i] == rows[i];
    ParsePrefixFailure(rows, i + 1, num);
  }

  /** A prefix has no more rows of a keyword than the whole. */
  lemma {:induction false} CountPrefixBound(rows: seq<seq<string>>, j: nat)
    requires j <= |rows|
    ensures forall kw :: CountKeyword(rows[..j], kw) <= CountKeyword(rows, kw)
    decreases |rows| - j
  {
    if j < |rows| {
      assert rows[..j + 1][..j] == rows[..j];
      CountPrefixBound(rows, j + 1);
    } else {
      assert rows[..j] == rows;
    }
  }

  // ---------------------------------------------------------------------------
  // Tangent frames

  function Sub3(a: Vector3, b: Vector3): Vector3 {
    Vector3(a.x - b.x, a.y - b.y, a.z - b.z)
  }

  function Add3(a: Vector3, b: Vector3): Vector3 {
    Vector3(a.x + b.x, a.y + b.y, a.z + b.z)
  }

  function Scale(a: Vector3, s: real): Vector3 {
    Vector3(s * a.x, s * a.y, s * a.z)
  }

  function Sub2(a: Vector2, b: Vector2): Vector2 {
    Vector2(a.x - b.x, a.y - b.y)
  }

  function Dot(a: Vector3, b: Vector3): real {
    a.x * b.x + a.y * b.y + a.z * b.z
  }

  function Cross(a: Vector3, b: Vector3): Vector3 {
    Vector3(a.y * b.z - a.z * b.y, a.z * b.x - a.x * b.z, a.x * b.y - a.y * b.x)
  }

  function Abs(x: real): real {
    if x < 0.0 then -x else x
  }

  /** Below this absolute value the uv determinant counts as degenerate. */
  const TangentEpsilon: real := 0.0001

  /** The determinant of the 2x2 matrix whose rows are the uv deltas. */
  function UvDet(d1: Vector2, d2: Vector2): real {
    d1.x * d2.y - d2.x * d1.y
  }

  /** The factor the frame is scaled by: the inverse of the determinant, or 1
      for a degenerate uv triangle. */
  function TangentFactor(d1: Vector2, d2: Vector2): real {
    var det := UvDet(d1, d2);
    if Abs(det) < TangentEpsilon then 1.0 else 1.0 / det
  }

  /** The factor inverts every determinant that is not degenerate, and is
      never zero. */
  lemma TangentFactorInverts(d1: Vector2, d2: Vector2)
    ensures Abs(UvDet(d1, d2)) >= TangentEpsilon ==> TangentFactor(d1, d2) * UvDet(d1, d2) == 1.0
    ensures Abs(UvDet(d1, d2)) < TangentEpsilon ==> TangentFactor(d1, d2) == 1.0
    ensures TangentFactor(d1, d2) != 0.0
  {
  }

  /** A tangent and a bitangent. */
  datatype Frame = Frame(tangent: Vector3, bitangent: Vector3)

  /** The unnormalised frame of edges e1, e2 whose uv deltas are d1, d2. */
  function RawFrame(e1: Vector3, e2: Vector3, d1: Vector2, d2: Vector2): Frame {
    ScaledFrame(e1, e2, d1, d2, TangentFactor(d1, d2))
  }

  /** One coordinate of the tangent, from that coordinate a of edge 1 and b
      of edge 2. */
  function TangentAxis(f: real, a: real, b: real, d1: Vector2, d2: Vector2): real {
    f * (d2.y * a - d1.y * b)
  }

  /** One coordinate of the bitangent. */
  function BitangentAxis(f: real, a: real, b: real, d1: Vector2, d2: Vector2): real {
    f * (-d2.x * a + d1.x * b)
  }

  /** The tangent and bitangent formulas, for a given factor f. */
  function ScaledFrame(e1: Vector3, e2: Vector3, d1: Vector2, d2: Vector2, f: real): Frame {
    Frame(Vector3(TangentAxis(f, e1.x, e2.x, d1, d2), TangentAxis(f, e1.y, e2.y, d1, d2),
                  TangentAxis(f, e1.z, e2.z, d1, d2)),
          Vector3(BitangentAxis(f, e1.x, e2.x, d1, d2), BitangentAxis(f, e1.y, e2.y, d1, d2),
                  BitangentAxis(f, e1.z, e2.z, d1, d2)))
  }

  /** One coordinate of the texture-space system: with f the inverse of the
      uv determinant, tangent and bitangent recombine to the edges. */
  lemma AxisSolvesUv(f: real, a: real, b: real, d1: Vector2, d2: Vector2)
    requires f * UvDet(d1, d2) == 1.0
    ensures d1.x * TangentAxis(f, a, b, d1, d2) + d1.y * BitangentAxis(f, a, b, d1, d2) == a
    ensures d2.x * TangentAxis(f, a, b, d1, d2) + d2.y * BitangentAxis(f, a, b, d1, d2) == b
  {
    calc {
      d1.x * TangentAxis(f, a, b, d1, d2) + d1.y * BitangentAxis(f, a, b, d1, d2);
      f * (d1.x * d2.y * a - d1.x * d1.y * b - d1.y * d2.x * a + d1.y * d1.x * b);
      (f * UvDet(d1, d2)) * a;
      a;
    }
    calc {
      d2.x * TangentAxis(f, a, b, d1, d2) + d2.y * BitangentAxis(f, a, b, d1, d2);
      f * (d2.x * d2.y * a - d2.x * d1.y * b - d2.y * d2.x * a + d2.y * d1.x * b);
      (f * UvDet(d1, d2)) * b;
      b;
    }
  }

  /** Edge 1 is d1.x tangents plus d1.y bitangents. */
  lemma FirstEdgeSolved(e1: Vector3, e2: Vector3, d1: Vector2, d2: Vector2, f: real)
    requires f * UvDet(d1, d2) == 1.0
    ensures var fr := ScaledFrame(e1, e2, d1, d2, f);
      Add3(Scale(fr.tangent, d1.x), Scale(fr.bitangent, d1.y)) == e1
  {
    AxisSolvesUv(f, e1.x, e2.x, d1, d2);
    AxisSolvesUv(f, e1.y, e2.y, d1, d2);
    AxisSolvesUv(f, e1.z, e2.z, d1, d2);
  }

  /** Edge 2 is d2.x tangents plus d2.y bitangents. */
  lemma SecondEdgeSolved(e1: Vector3, e2: Vector3, d1: Vector2, d2: Vector2, f: real)
    requires f * UvDet(d1, d2) == 1.0
    ensures var fr := ScaledFrame(e1, e2, d1, d2, f);
      Add3(Scale(fr.tangent, d2.x), Scale(fr.bitangent, d2.y)) == e2
  {
    AxisSolvesUv(f, e1.x, e2.x, d1, d2);
    AxisSolvesUv(f, e1.y, e2.y, d1, d2);
    AxisSolvesUv(f, e1.z, e2.z, d1, d2);
  }

  /** For a non-degenerate uv triangle the raw frame solves the texture-space
      system. */
  lemma RawFrameSolvesUv(e1: Vector3, e2: Vector3, d1: Vector2, d2: Vector2)
    requires Abs(UvDet(d1, d2)) >= TangentEpsilon
    ensures var fr := RawFrame(e1, e2, d1, d2);
      Add3(Scale(fr.tangent, d1.x), Scale(fr.bitangent, d1.y)) == e1 &&
      Add3(Scale(fr.tangent, d2.x), Scale(fr.bitangent, d2.y)) == e2
  {
    TangentFactorInverts(d1, d2);
    FirstEdgeSolved(e1, e2, d1, d2, TangentFactor(d1, d2));
    SecondEdgeSolved(e1, e2, d1, d2, TangentFactor(d1, d2));
  }

  /** Flipping the tangent flips the handedness test. */
  lemma CrossNegate(n: Vector3, t: Vector3, b: Vector3)
    ensures Dot(Cross(n, Scale(t, -1.0)), b) == -Dot(Cross(n, t), b)
  {
  }

  /** The tangent, flipped when (n, t, b) is left-handed. */
  function OrientedTangent(n: Vector3, t: Vector3, b: Vector3): (r: Vector3)
    ensures Dot(Cross(n, r), b) >= 0.0
    ensures r == t || r == Scale(t, -1.0)
    ensures Dot(Cross(n, t), b) >= 0.0 ==> r == t
  {
    if Dot(Cross(n, t), b) < 0.0 then
      CrossNegate(n, t, b);
      Scale(t, -1.0)
    else t
  }

  /** The flat tangent frame of one triangle: both directions normalised,
      and the tangent flipped so that (n1, tangent, bitangent) is
      right-handed. */
  function FaceFrame(v1: Vector3, v2: Vector3, v3: Vector3, uv1: Vector2, uv2: Vector2, uv3: Vector2,
                     n1: Vector3, normalize: Vector3 -> Vector3): (r: Frame)
    ensures var raw := RawFrame(Sub3(v2, v1), Sub3(v3, v1), Sub2(uv2, uv1), Sub2(uv3, uv1));
      r.bitangent == normalize(raw.bitangent) &&
      (r.tangent == normalize(raw.tangent) || r.tangent == Scale(normalize(raw.tangent), -1.0))
    ensures Dot(Cross(n1, r.tangent), r.bitangent) >= 0.0
  {
    var raw := RawFrame(Sub3(v2, v1), Sub3(v3, v1), Sub2(uv2, uv1), Sub2(uv3, uv1));
    var t := normalize(raw.tangent);
    var b := normalize(raw.bitangent);
    Frame(OrientedTangent(n1, t, b), b)
  }

  predicate InRange<T>(s: seq<T>, k: int) {
    0 <= k < |s|
  }

  /** The array reads the tangent pass makes for one face succeed: its three
      vertices, its three uvs, and the normal of its first corner. */
  predicate TangentInputsInRange(c: FileContents, face: WavefrontFace) {
    InRange(c.vertices, face.vertexIndex1) && InRange(c.vertices, face.vertexIndex2) &&
    InRange(c.vertices, face.vertexIndex3) &&
    InRange(c.uvs, face.uvIndex1) && InRange(c.uvs, face.uvIndex2) && InRange(c.uvs, face.uvIndex3) &&
    InRange(c.normals, face.normalIndex1)
  }

  predicate AllTangentInputsInRange(c: FileContents) {
    forall k :: 0 <= k < |c.triangles| ==> TangentInputsInRange(c, c.triangles[k])
  }

  /** The face with its frame computed from the file's vertices, uvs and
      normals. */
  function WithFrame(c: FileContents, face: WavefrontFace, normalize: Vector3 -> Vector3): (r: WavefrontFace)
    requires TangentInputsInRange(c, face)
    ensures r.SameIndices(face)
    ensures Dot(Cross(c.normals[face.normalIndex1], r.tangent), r.bitangent) >= 0.0
  {
    var fr := FaceFrame(c.vertices[face.vertexIndex1], c.vertices[face.vertexIndex2], c.vertices[face.vertexIndex3],
                        c.uvs[face.uvIndex1], c.uvs[face.uvIndex2], c.uvs[face.uvIndex3],
                        c.normals[face.normalIndex1], normalize);
    face.(tangent := fr.tangent, bitangent := fr.bitangent)
  }

  /** The file after the tangent pass. */
  function WithFrames(c: FileContents, normalize: Vector3 -> Vector3): (r: FileContents)
    requires AllTangentInputsInRange(c)
    ensures r.vertices == c.vertices && r.normals == c.normals && r.uvs == c.uvs
    ensures |r.triangles| == |c.triangles|
    ensures forall k :: 0 <= k < |c.triangles| ==> r.triangles[k].SameIndices(c.triangles[k])
  {
    c.(triangles := seq(|c.triangles|, k requires 0 <= k < |c.triangles| => WithFrame(c, c.triangles[k], normalize)))
  }

  /** The loop body of CalculateTangentsAndBiTangents for one triangle. */
  method ComputeFrame(v1: Vector3, v2: Vector3, v3: Vector3, uv1: Vector2, uv2: Vector2, uv3: Vector2,
                      n1: Vector3, normalize: Vector3 -> Vector3) returns (tangent: Vector3, biTangent: Vector3)
    ensures Frame(tangent, biTangent) == FaceFrame(v1, v2, v3, uv1, uv2, uv3, n1, normalize)
  {
    var edge1 := Sub3(v2, v1);
    var edge2 := Sub3(v3, v1);
    var deltaUv1 := Sub2(uv2, uv1);
    var deltaUv2 := Sub2(uv3, uv1);
    assert deltaUv1.x * deltaUv2.y - deltaUv2.x * deltaUv1.y == UvDet(deltaUv1, deltaUv2);
    var f: real;
    if Abs(deltaUv1.x * deltaUv2.y - deltaUv2.x * deltaUv1.y) < TangentEpsilon {
      f := 1.0;
    } else {
      f := 1.0 / (deltaUv1.x * deltaUv2.y - deltaUv2.x * deltaUv1.y);
    }
    assert f == TangentFactor(deltaUv1, deltaUv2);
    var raw := ScaledFrame(edge1, edge2, deltaUv1, deltaUv2, f);
    tangent := normalize(raw.tangent);
    biTangent := normalize(raw.bitangent);
    if Dot(Cross(n1, tangent), biTangent) < 0.0 {
      tangent := Scale(tangent, -1.0);
    }
  }

  /** CalculateTangentsAndBiTangents: computes each triangle's frame in
      place. Any index outside its array raises IndexOutOfRange; every read
      raises the same exception, so the checks of one face are taken
      together. */
  method CalculateTangentsAndBiTangents(data: WavefrontFileData, num: Numerics) returns (outcome: Outcome)
    modifies data.triangles
    ensures outcome.Pass? <==> AllTangentInputsInRange(old(data.Contents()))
    ensures outcome.Fail? ==> outcome.error == IndexOutOfRange
    ensures outcome.Pass? ==> data.Contents() == WithFrames(old(data.Contents()), num.normalize)
  {
    ghost var c := data.Contents();
    for i := 0 to data.triangles.Length
      invariant forall k :: 0 <= k < i ==> TangentInputsInRange(c, c.triangles[k])
      invariant forall k :: 0 <= k < i ==> data.triangles[k] == WithFrame(c, c.triangles[k], num.normalize)
      invariant forall k :: i <= k < data.triangles.Length ==> data.triangles[k] == c.triangles[k]
    {
      var triangleInfo := data.triangles[i];
      if !TangentInputsInRange(FileContents(data.vertices[..], data.normals[..], data.uvs[..], []), triangleInfo) {
        return Fail(IndexOutOfRange);
      }
      var v1 := data.vertices[triangleInfo.vertexIndex1];
      var v2 := data.vertices[triangleInfo.vertexIndex2];
      var v3 := data.vertices[triangleInfo.vertexIndex3];
      var uv1 := data.uvs[triangleInfo.uvIndex1];
      var uv2 := data.uvs[triangleInfo.uvIndex2];
      var uv3 := data.uvs[triangleInfo.uvIndex3];
      var n1 := data.normals[triangleInfo.normalIndex1];
      var tangent, biTangent := ComputeFrame(v1, v2, v3, uv1, uv2, uv3, n1, num.normalize);
      data.triangles[i] := triangleInfo.(tangent := tangent, bitangent := biTangent);
    }
    assert data.triangles[..] == WithFrames(c, num.normalize).triangles;
    outcome := Pass;
  }

  // ---------------------------------------------------------------------------
  // Flattening

  /** Every index of the face is inside its array: the reads the flattening
      makes for it succeed. */
  predicate CornersInRange(c: FileContents, face: WavefrontFace) {
    InRange(c.vertices, face.vertexIndex1) && InRange(c.vertices, face.vertexIndex2) &&
    InRange(c.vertices, face.vertexIndex3) &&
    InRange(c.normals, face.normalIndex1) && InRange(c.normals, face.normalIndex2) &&
    InRange(c.normals, face.normalIndex3) &&
    InRange(c.uvs, face.uvIndex1) && InRange(c.uvs, face.uvIndex2) && InRange(c.uvs, face.uvIndex3)
  }

  /** The first n faces have all their indices in range. */
  predicate PrefixInRange(c: FileContents, n: nat) {
    n <= |c.triangles| && forall t :: 0 <= t < n ==> CornersInRange(c, c.triangles[t])
  }

  predicate AllCornersInRange(c: FileContents) {
    PrefixInRange(c, |c.triangles|)
  }

  /** The corner vertices of the first n faces, three per face. */
  function SoupVertices(c: FileContents, n: nat): (r: seq<Vector3>)
    requires PrefixInRange(c, n)
    ensures |r| == 3 * n
  {
    if n == 0 then []
    else
      var f := c.triangles[n - 1];
      SoupVertices(c, n - 1) + [c.vertices[f.vertexIndex1], c.vertices[f.vertexIndex2], c.vertices[f.vertexIndex3]]
  }

  function SoupNormals(c: FileContents, n: nat): (r: seq<Vector3>)
    requires PrefixInRange(c, n)
    ensures |r| == 3 * n
  {
    if n == 0 then []
    else
      var f := c.triangles[n - 1];
      SoupNormals(c, n - 1) + [c.normals[f.normalIndex1], c.normals[f.normalIndex2], c.normals[f.normalIndex3]]
  }

  function SoupUvs(c: FileContents, n: nat): (r: seq<Vector2>)
    requires PrefixInRange(c, n)
    ensures |r| == 3 * n
  {
    if n == 0 then []
    else
      var f := c.triangles[n - 1];
      SoupUvs(c, n - 1) + [c.uvs[f.uvIndex1], c.uvs[f.uvIndex2], c.uvs[f.uvIndex3]]
  }

  /** The face frames of the first n faces, repeated on each corner. */
  function SoupTangents(faces: seq<WavefrontFace>, n: nat): (r: seq<Vector3>)
    requires n <= |faces|
    ensures |r| == 3 * n
  {
    if n == 0 then []
    else
      var f := faces[n - 1];
      SoupTangents(faces, n - 1) + [f.tangent, f.tangent, f.tangent]
  }

  function SoupBiTangents(faces: seq<WavefrontFace>, n: nat): (r: seq<Vector3>)
    requires n <= |faces|
    ensures |r| == 3 * n
  {
    if n == 0 then []
    else
      var f := faces[n - 1];
      SoupBiTangents(faces, n - 1) + [f.bitangent, f.bitangent, f.bitangent]
  }

  /** The index list of n faces. */
  function SoupIndices(n: nat): (r: seq<int>)
    ensures |r| == 3 * n
  {
    if n == 0 then [] else SoupIndices(n - 1) + [3 * (n - 1), 3 * (n - 1) + 1, 3 * (n - 1) + 2]
  }

  /** The triangle soup of the whole file: each face adds its three corners,
      which all carry the face's frame, and the indices of the new entries. */
  function TriangleSoup(c: FileContents): VertexData
    requires AllCornersInRange(c)
  {
    var n := |c.triangles|;
    VertexData(SoupIndices(n), SoupVertices(c, n), SoupNormals(c, n), SoupUvs(c, n),
               SoupTangents(c.triangles, n), SoupBiTangents(c.triangles, n))
  }

  /** Entry 3 * t + k of the soup's positions, normals and uvs is corner k
      of face t. */
  lemma {:induction false} SoupCornerLayout(c: FileContents, n: nat, t: nat, k: nat)
    requires PrefixInRange(c, n) && t < n && k < 3
    ensures var f := c.triangles[t];
      SoupVertices(c, n)[3 * t + k] == c.vertices[f.VertexIndex(k)] &&
      SoupNormals(c, n)[3 * t + k] == c.normals[f.NormalIndex(k)] &&
      SoupUvs(c, n)[3 * t + k] == c.uvs[f.UvIndex(k)]
  {
    if t < n - 1 {
      SoupCornerLayout(c, n - 1, t, k);
    }
  }

  /** Every corner of face t carries its frame, and entry j is drawn by
      index j. */
  lemma {:induction false} SoupFrameLayout(faces: seq<WavefrontFace>, n: nat, t: nat, k: nat)
    requires n <= |faces| && t < n && k < 3
    ensures SoupTangents(faces, n)[3 * t + k] == faces[t].tangent
    ensures SoupBiTangents(faces, n)[3 * t + k] == faces[t].bitangent
    ensures SoupIndices(n)[3 * t + k] == 3 * t + k
  {
    if t < n - 1 {
      SoupFrameLayout(faces, n - 1, t, k);
    }
  }

  /** A fresh array holding s. */
  method ArrayOf<T>(s: seq<T>) returns (a: array<T>)
    ensures fresh(a) && a[..] == s
  {
    a := new T[|s|](j requires 0 <= j < |s| => s[j]);
  }

  /** A fresh ObjectVertexData whose six arrays are fresh and hold v. */
  method StoreVertexData(v: VertexData) returns (o: ObjectVertexData)
    ensures o.Complete() && o.Value() == v
    ensures fresh(o) && fresh(o.vertices) && fresh(o.normals) && fresh(o.uvs) &&
      fresh(o.tangents) && fresh(o.biTangents) && fresh(o.indices)
  {
    o := new ObjectVertexData();
    o.vertices := ArrayOf(v.vertices);
    o.normals := ArrayOf(v.normals);
    o.uvs := ArrayOf(v.uvs);
    o.tangents := ArrayOf(v.tangents);
    o.biTangents := ArrayOf(v.biTangents);
    o.indices := ArrayOf(v.indices);
  }

  /** The loop of CreateVertexDataObject: one output vertex per triangle
      corner, so that drawing the identity index list yields the file's
      triangles in order. The six output columns are accumulated as
      sequences, three entries per triangle. */
  method FlattenTriangles(data: WavefrontFileData) returns (r: Result<VertexData>)
    ensures r.Ok? <==> AllCornersInRange(data.Contents())
    ensures r.Err? ==> r.error == IndexOutOfRange
    ensures r.Ok? ==> r.value == TriangleSoup(data.Contents())
  {
    ghost var c := data.Contents();
    var vertices: seq<Vector3> := [];
    var normals: seq<Vector3> := [];
    var uvs: seq<Vector2> := [];
    var tangents: seq<Vector3> := [];
    var biTangents: seq<Vector3> := [];
    var indices: seq<int> := [];

    for i := 0 to data.triangles.Length
      invariant PrefixInRange(c, i)
      invariant indices == SoupIndices(i)
      invariant vertices == SoupVertices(c, i)
      invariant normals == SoupNormals(c, i)
      invariant uvs == SoupUvs(c, i)
      invariant tangents == SoupTangents(c.triangles, i)
      invariant biTangents == SoupBiTangents(c.triangles, i)
    {
      var triangleInfo := data.triangles[i];
      if !CornersInRange(data.Contents(), triangleInfo) {
        return Err(IndexOutOfRange);
      }
      var index := i * 3;
      vertices := vertices + [data.vertices[triangleInfo.vertexIndex1],
                              data.vertices[triangleInfo.vertexIndex2],
                              data.vertices[triangleInfo.vertexIndex3]];
      normals := normals + [data.normals[triangleInfo.normalIndex1],
                            data.normals[triangleInfo.normalIndex2],
                            data.normals[triangleInfo.normalIndex3]];
      uvs := uvs + [data.uvs[triangleInfo.uvIndex1], data.uvs[triangleInfo.uvIndex2], data.uvs[triangleInfo.uvIndex3]];
      tangents := tangents + [triangleInfo.tangent, triangleInfo.tangent, triangleInfo.tangent];
      biTangents := biTangents + [triangleInfo.bitangent, triangleInfo.bitangent, triangleInfo.bitangent];
      indices := indices + [index + 0, index + 1, index + 2];
    }
    return Ok(VertexData(indices, vertices, normals, uvs, tangents, biTangents));
  }

  /** CreateVertexDataObject: the triangle soup of the file, stored into a
      fresh ObjectVertexData. */
  method CreateVertexDataObject(data: WavefrontFileData) returns (r: Result<ObjectVertexData>)
    ensures r.Ok? <==> AllCornersInRange(data.Contents())
    ensures r.Err? ==> r.error == IndexOutOfRange
    ensures r.Ok? ==> r.value.Complete() && r.value.Value() == TriangleSoup(data.Contents())
    ensures r.Ok? ==> (fresh(r.value) && fresh(r.value.vertices) && fresh(r.value.normals) && fresh(r.value.uvs) &&
                       fresh(r.value.tangents) && fresh(r.value.biTangents) && fresh(r.value.indices))
  {
    var soup := FlattenTriangles(data);
    if soup.Err? {
      return Err(soup.error);
    }
    var result := StoreVertexData(soup.value);
    return Ok(result);
  }

  /** CreatePlainVertexData: the file's vertices and normals as they are,
      without triangles. The loop runs over the vertices and reads the normal
      of the same position, so it fails when there are fewer normals than
      vertices; normal slots past the vertex count keep their default. */
  method CreatePlainVertexData(data: WavefrontFileData) returns (r: Result<ObjectVertexData>)
    ensures r.Ok? <==> data.vertices.Length <= data.normals.Length
    ensures r.Err? ==> r.error == IndexOutOfRange
    ensures r.Ok? ==> var o := r.value;
      o.vertices != null && o.normals != null &&
      o.uvs == null && o.tangents == null && o.biTangents == null && o.indices == null &&
      o.vertices[..] == data.vertices[..] &&
      o.normals.Length == data.normals.Length &&
      (forall i :: 0 <= i < data.vertices.Length ==> o.normals[i] == data.normals[i]) &&
      (forall i :: data.vertices.Length <= i < data.normals.Length ==> o.normals[i] == Zero3)
    ensures r.Ok? ==> fresh(r.value) && fresh(r.value.vertices) && fresh(r.value.normals)
  {
    var vertices := new Vector3[data.vertices.Length](_ => Zero3);
    var normals := new Vector3[data.normals.Length](_ => Zero3);
    for i := 0 to data.vertices.Length
      invariant i <= data.normals.Length
      invariant vertices[..i] == data.vertices[..i]
      invariant forall k :: 0 <= k < i ==> normals[k] == data.normals[k]
      invariant forall k :: i <= k < normals.Length ==> normals[k] == Zero3
    {
      if i >= data.normals.Length {
        return Err(IndexOutOfRange);
      }
      vertices[i] := data.vertices[i];
      normals[i] := data.normals[i];
    }
    assert vertices[..] == vertices[..data.vertices.Length];
    var result := new ObjectVertexData();
    result.vertices, result.normals := vertices, normals;
    return Ok(result);
  }

  // ---------------------------------------------------------------------------
  // The loaders

  /** What Load makes of a file's text: the parsed file, its tangent frames,
      and the triangle soup; each stage fails with the first exception it
      raises. */
  function LoadResult(text: string, num: Numerics): (r: Result<VertexData>)
    ensures r.Ok? ==> var v := r.value;
      |v.indices| == |v.vertices| && |v.normals| == |v.vertices| && |v.uvs| == |v.vertices| &&
      |v.tangents| == |v.vertices| && |v.biTangents| == |v.vertices|
  {
    var c :- ParseRows(Rows(text), num);
    if !AllTangentInputsInRange(c) then Err(IndexOutOfRange)
    else
      var framed := WithFrames(c, num.normalize);
      if !AllCornersInRange(framed) then Err(IndexOutOfRange)
      else Ok(TriangleSoup(framed))
  }

  /** The file contents after ParseFile wrote them into freshly allocated
      arrays: parsed faces carry a zero frame, which is what the allocation
      left in their slots. */
  lemma ParsedIntoFreshArrays(rows: seq<seq<string>>, num: Numerics, triangles: seq<WavefrontFace>)
    requires ParseRows(rows, num).Ok?
    requires |triangles| == |ParseRows(rows, num).value.triangles|
    requires forall k :: 0 <= k < |triangles| ==>
      triangles[k] == KeepFrame(ParseRows(rows, num).value.triangles[k], ZeroFace)
    ensures triangles == ParseRows(rows, num).value.triangles
  {
    var c := ParseRows(rows, num).value;
    ParsedFacesUnframed(rows, num);
    forall k | 0 <= k < |triangles| ensures triangles[k] == c.triangles[k] {
      assert c.triangles[k] in c.triangles;
    }
  }

  /** Load: split, size, fill, add tangent frames, flatten. The resource
      text is a parameter. */
  method Load(fileContent: string, num: Numerics) returns (r: Result<ObjectVertexData>)
    ensures r.Ok? <==> LoadResult(fileContent, num).Ok?
    ensures r.Err? ==> r.error == LoadResult(fileContent, num).error
    ensures r.Ok? ==> r.value.Complete() && r.value.Value() == LoadResult(fileContent, num).value
    ensures r.Ok? ==> (fresh(r.value) && fresh(r.value.vertices) && fresh(r.value.normals) && fresh(r.value.uvs) &&
                       fresh(r.value.tangents) && fresh(r.value.biTangents) && fresh(r.value.indices))
  {
    var textContent := SplitStringContent(fileContent);
    var inMemoryWavefront := AllocateMemoryForFile(textContent[..]);
    var parsed := ParseFile(inMemoryWavefront, textContent[..], num);
    if parsed.Fail? {
      return Err(parsed.error);
    }
    ghost var c := ParseRows(Rows(fileContent), num).value;
    ParsedIntoFreshArrays(Rows(fileContent), num, inMemoryWavefront.triangles[..]);
    assert inMemoryWavefront.Contents() == c;
    var framed := CalculateTangentsAndBiTangents(inMemoryWavefront, num);
    if framed.Fail? {
      return Err(framed.error);
    }
    r := CreateVertexDataObject(inMemoryWavefront);
  }

  /** What LoadPlain makes of a file's text: the parsed vertices, and the
      normals of the same positions followed by zeros. */
  function LoadPlainResult(text: string, num: Numerics): Result<FileContents> {
    var c :- ParseRows(Rows(text), num);
    if |c.vertices| <= |c.normals| then
      Ok(FileContents(c.vertices, c.normals[..|c.vertices|] + seq(|c.normals| - |c.vertices|, _ => Zero3), [], []))
    else Err(IndexOutOfRange)
  }

  /** LoadPlain: split, size, fill, copy vertices and normals. */
  method LoadPlain(fileContent: string, num: Numerics) returns (r: Result<ObjectVertexData>)
    ensures r.Ok? <==> LoadPlainResult(fileContent, num).Ok?
    ensures r.Err? ==> r.error == LoadPlainResult(fileContent, num).error
    ensures r.Ok? ==> r.value.vertices != null && r.value.normals != null
    ensures r.Ok? ==> r.value.vertices[..] == LoadPlainResult(fileContent, num).value.vertices
    ensures r.Ok? ==> r.value.normals[..] == LoadPlainResult(fileContent, num).value.normals
    ensures r.Ok? ==> fresh(r.value) && fresh(r.value.vertices) && fresh(r.value.normals)
  {
    var textContent := SplitStringContent(fileContent);
    var inMemoryWavefront := AllocateMemoryForFile(textContent[..]);
    var parsed := ParseFile(inMemoryWavefront, textContent[..], num);
    if parsed.Fail? {
      return Err(parsed.error);
    }
    ghost var c := ParseRows(Rows(fileContent), num).value;
    r := CreatePlainVertexData(inMemoryWavefront);
    if r.Ok? {
      var zeros := seq(|c.normals| - |c.vertices|, _ => Zero3);
      assert r.value.normals[..] == c.normals[..|c.vertices|] + zeros;
    }
  }

  /** The flattening reads a superset of what the tangent pass reads, and
      the tangent pass leaves every index alone. */
  lemma CornerChecksAgree(c: FileContents, normalize: Vector3 -> Vector3)
    ensures AllCornersInRange(c) ==> AllTangentInputsInRange(c)
    ensures AllTangentInputsInRange(c) ==>
      (AllCornersInRange(WithFrames(c, normalize)) <==> AllCornersInRange(c))
  {
    if AllTangentInputsInRange(c) {
      var framed := WithFrames(c, normalize);
      assert forall t :: 0 <= t < |c.triangles| ==>
        (CornersInRange(framed, framed.triangles[t]) <==> CornersInRange(c, c.triangles[t]));
    }
  }

  /** Load succeeds exactly when the file parses and every face index of
      every triangle lies inside its array; otherwise it fails with the
      parser's exception, or with IndexOutOfRange. */
  lemma LoadOkIff(text: string, num: Numerics)
    ensures LoadResult(text, num).Ok? <==>
      ParseRows(Rows(text), num).Ok? && AllCornersInRange(ParseRows(Rows(text), num).value)
    ensures ParseRows(Rows(text), num).Err? ==> LoadResult(text, num) == Err(ParseRows(Rows(text), num).error)
    ensures ParseRows(Rows(text), num).Ok? && LoadResult(text, num).Err? ==>
      LoadResult(text, num).error == IndexOutOfRange
  {
    if ParseRows(Rows(text), num).Ok? {
      CornerChecksAgree(ParseRows(Rows(text), num).value, num.normalize);
    }
  }

  /** The soup of a framed file: entry 3 * t + k is corner k of face t,
      takes that corner's position, normal and uv from the file, carries
      the face's frame, and is drawn by index 3 * t + k; the frame is
      right-handed with respect to the face's first normal. */
  lemma FramedSoupLayout(c: FileContents, normalize: Vector3 -> Vector3, t: nat, k: nat)
    requires AllTangentInputsInRange(c) && AllCornersInRange(WithFrames(c, normalize))
    requires t < |c.triangles| && k < 3
    ensures var v := TriangleSoup(WithFrames(c, normalize));
      var f := c.triangles[t];
      0 <= f.VertexIndex(k) < |c.vertices| && v.vertices[3 * t + k] == c.vertices[f.VertexIndex(k)] &&
      0 <= f.NormalIndex(k) < |c.normals| && v.normals[3 * t + k] == c.normals[f.NormalIndex(k)] &&
      0 <= f.UvIndex(k) < |c.uvs| && v.uvs[3 * t + k] == c.uvs[f.UvIndex(k)] &&
      v.indices[3 * t + k] == 3 * t + k &&
      v.tangents[3 * t + k] == v.tangents[3 * t] && v.biTangents[3 * t + k] == v.biTangents[3 * t] &&
      Dot(Cross(v.normals[3 * t], v.tangents[3 * t]), v.biTangents[3 * t]) >= 0.0
  {
    var framed := WithFrames(c, normalize);
    var n := |c.triangles|;
    var f := c.triangles[t];
    assert CornersInRange(framed, framed.triangles[t]);
    assert framed.triangles[t] == WithFrame(c, f, normalize);
    SoupCornerLayout(framed, n, t, k);
    SoupCornerLayout(framed, n, t, 0);
    SoupFrameLayout(framed.triangles, n, t, k);
    SoupFrameLayout(framed.triangles, n, t, 0);
  }

  /** A loaded mesh has three entries per f row in every column. */
  lemma LoadSize(text: string, num: Numerics)
    requires LoadResult(text, num).Ok?
    ensures var v := LoadResult(text, num).value;
      var n := 3 * CountKeyword(Rows(text), WavefrontTriangle);
      |v.indices| == n && |v.vertices| == n && |v.normals| == n &&
      |v.uvs| == n && |v.tangents| == n && |v.biTangents| == n
  {
    ParsedCountsMatch(Rows(text), num);
  }

  /** Entry 3 * t + k of a loaded mesh is corner k of the file's t-th face
      (see FramedSoupLayout). */
  lemma LoadLayout(text: string, num: Numerics, t: nat, k: nat)
    requires LoadResult(text, num).Ok?
    requires t < CountKeyword(Rows(text), WavefrontTriangle) && k < 3
    ensures ParseRows(Rows(text), num).Ok?
    ensures |ParseRows(Rows(text), num).value.triangles| == CountKeyword(Rows(text), WavefrontTriangle)
    ensures var c := ParseRows(Rows(text), num).value;
      var v := LoadResult(text, num).value;
      var f := c.triangles[t];
      0 <= f.VertexIndex(k) < |c.vertices| && v.vertices[3 * t + k] == c.vertices[f.VertexIndex(k)] &&
      0 <= f.NormalIndex(k) < |c.normals| && v.normals[3 * t + k] == c.normals[f.NormalIndex(k)] &&
      0 <= f.UvIndex(k) < |c.uvs| && v.uvs[3 * t + k] == c.uvs[f.UvIndex(k)] &&
      v.indices[3 * t + k] == 3 * t + k &&
      v.tangents[3 * t + k] == v.tangents[3 * t] && v.biTangents[3 * t + k] == v.biTangents[3 * t] &&
      Dot(Cross(v.normals[3 * t], v.tangents[3 * t]), v.biTangents[3 * t]) >= 0.0
  {
    ParsedCountsMatch(Rows(text), num);
    FramedSoupLayout(ParseRows(Rows(text), num).value, num.normalize, t, k);
  }
}
