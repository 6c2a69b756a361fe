/** The slice of OpenGL the asset manager uses, abstracted as an allocator of
    fresh object names and a trace of the state-changing calls made. Query
    results that depend on the driver (compile status, info log, uniform
    locations) are functions the context is created with. */
module Gl {
  import opened Results
  import opened DataTypes

  datatype ShaderKind = VertexShader | FragmentShader

  datatype BufferTarget = ArrayBuffer | ElementArrayBuffer

  datatype TextureParameter = TextureMinFilter | TextureMagFilter

  /** One state-changing GL call. */
  datatype Call =
    | GenTexture(texture: int)
    | BindTexture(texture: int)
    | TexImage2D(width: int, height: int, pixels: seq<byte>)
    | TexParameterNearest(parameter: TextureParameter)
    | GenerateMipmap
    | CreateShader(kind: ShaderKind, shader: int)
    | ShaderSource(shader: int, source: string)
    | CompileShader(shader: int)
    | CreateProgram(program: int)
    | AttachShader(program: int, shader: int)
    | BindAttribLocation(program: int, index: int, name: string)
    | LinkProgram(program: int)
    | GenBuffer(buffer: int)
    | BindBuffer(target: BufferTarget, buffer: int)
    | BufferFloats(target: BufferTarget, sizeInBytes: int, floats: seq<real>)
    | BufferInts(target: BufferTarget, sizeInBytes: int, ints: seq<int>)
    | GenVertexArray(vertexArray: int)
    | BindVertexArray(vertexArray: int)
    | EnableVertexAttribArray(index: int)
    | VertexAttribPointer(index: int, size: int, normalized: bool, stride: int, offset: int)
    | DeleteTexture(texture: int)
    | DeleteProgram(program: int)
    | DeleteShader(shader: int)
    | DeleteVertexArray(vertexArray: int)
    | DeleteBuffer(buffer: int)
  {
    /** The calls that hand out a new object name. */
    predicate Creates() {
      GenTexture? || CreateShader? || CreateProgram? || GenBuffer? || GenVertexArray?
    }

    /** The name a creating call hands out. */
    function Name(): int
      requires Creates()
    {
      match this
      case GenTexture(t) => t
      case CreateShader(_, s) => s
      case CreateProgram(p) => p
      case GenBuffer(b) => b
      case GenVertexArray(a) => a
    }

    predicate Deletes() {
      DeleteTexture? || DeleteProgram? || DeleteShader? || DeleteVertexArray? || DeleteBuffer?
    }

    /** The name a deleting call releases. */
    function Released(): int
      requires Deletes()
    {
      match this
      case DeleteTexture(t) => t
      case DeleteProgram(p) => p
      case DeleteShader(s) => s
      case DeleteVertexArray(a) => a
      case DeleteBuffer(b) => b
    }
  }

  /** The kinds of GL object the modelled code creates. */
  datatype ObjectKind = Texture | Shader(shaderKind: ShaderKind) | Program | Buffer | VertexArray
  {
    /** The call that creates an object of this kind named n. */
    function CreateCall(n: int): (c: Call)
      ensures c.Creates() && c.Name() == n
    {
      match this
      case Texture => GenTexture(n)
      case Shader(k) => CreateShader(k, n)
      case Program => CreateProgram(n)
      case Buffer => GenBuffer(n)
      case VertexArray => GenVertexArray(n)
    }
  }

  /** What the driver answers to queries: GL_COMPILE_STATUS and the info log
      of compiling a shader of a kind and source, and the uniform locations
      of a linked program. */
  datatype Driver = Driver(
    compileStatus: (ShaderKind, string) -> int,
    infoLog: (ShaderKind, string) -> string,
    uniformLocation: (int, string) -> int)

  /** The names a trace hands out. */
  function Created(calls: seq<Call>): set<int> {
    set k | 0 <= k < |calls| && calls[k].Creates() :: calls[k].Name()
  }

  /** The names a trace releases. */
  function Deleted(calls: seq<Call>): set<int> {
    set k | 0 <= k < |calls| && calls[k].Deletes() :: calls[k].Released()
  }

  /** The kind of the shader object named s, from the call that created it. */
  function ShaderKindOf(calls: seq<Call>, s: int): Option<ShaderKind> {
    if calls == [] then None
    else
      var last := calls[|calls| - 1];
      if last.CreateShader? && last.shader == s then Some(last.kind)
      else ShaderKindOf(calls[..|calls| - 1], s)
  }

  /** The source most recently given to the shader object named s. */
  function ShaderSourceOf(calls: seq<Call>, s: int): Option<string> {
    if calls == [] then None
    else
      var last := calls[|calls| - 1];
      if last.ShaderSource? && last.shader == s then Some(last.source)
      else ShaderSourceOf(calls[..|calls| - 1], s)
  }

  /** The attribute indices bound to program p by the calls before i. */
  function BindingsBefore(calls: seq<Call>, p: int, i: nat): set<int>
    requires i <= |calls|
  {
    set k | 0 <= k < i && calls[k].BindAttribLocation? && calls[k].program == p :: calls[k].index
  }

  /** The attribute indices in force for program p: those bound before its
      last LinkProgram. A binding made after linking takes effect only at
      the next link. */
  function LinkedBindings(calls: seq<Call>, p: int): set<int> {
    if calls == [] then {}
    else if calls[|calls| - 1] == LinkProgram(p) then BindingsBefore(calls, p, |calls| - 1)
    else LinkedBindings(calls[..|calls| - 1], p)
  }

  /** A GL context: the next unused name and the calls made so far. */
  class Context {
    var nextName: int
    var calls: seq<Call>
    const driver: Driver

    /** Names are never 0, and every name handed out so far is below
        nextName. */
    predicate Valid()
      reads this
    {
      nextName >= 1 && forall h :: h in Created(calls) ==> 1 <= h < nextName
    }

    constructor (driver: Driver)
      ensures Valid() && nextName == 1 && calls == [] && this.driver == driver
    {
      nextName, calls := 1, [];
      this.driver := driver;
    }

    /** glGenTexture, glCreateShader, glCreateProgram, glGenBuffers or
        glGenVertexArrays: hands out the next unused name. */
    method Create(kind: ObjectKind) returns (name: int)
      requires Valid()
      modifies this
      ensures Valid()
      ensures name == old(nextName) && nextName == name + 1
      ensures calls == old(calls) + [kind.CreateCall(name)]
      ensures name >= 1 && name !in old(Created(calls))
    {
      name := nextName;
      CreatedAppend(calls, [kind.CreateCall(name)]);
      calls := calls + [kind.CreateCall(name)];
      nextName := nextName + 1;
    }

    /** Makes a call that hands out no name. */
    method Issue(call: Call)
      requires Valid() && !call.Creates()
      modifies this
      ensures Valid()
      ensures nextName == old(nextName) && calls == old(calls) + [call]
    {
      CreatedAppend(calls, [call]);
      calls := calls + [call];
    }

    /** Makes a run of calls, in order, none of which hands out a name. */
    method IssueAll(run: seq<Call>)
      requires Valid() && forall k | 0 <= k < |run| :: !run[k].Creates()
      modifies this
      ensures Valid()
      ensures nextName == old(nextName) && calls == old(calls) + run
    {
      CreatedAppend(calls, run);
      assert Created(run) == {};
      calls := calls + run;
    }

    /** glGetShader(s, GL_COMPILE_STATUS). */
    function CompileStatus(s: int): int
      reads this
      requires ShaderKindOf(calls, s).Some? && ShaderSourceOf(calls, s).Some?
    {
      driver.compileStatus(ShaderKindOf(calls, s).value, ShaderSourceOf(calls, s).value)
    }

    /** glGetShaderInfoLog(s). */
    function ShaderInfoLog(s: int): string
      reads this
      requires ShaderKindOf(calls, s).Some? && ShaderSourceOf(calls, s).Some?
    {
      driver.infoLog(ShaderKindOf(calls, s).value, ShaderSourceOf(calls, s).value)
    }
  }

  lemma CreatedAppend(a: seq<Call>, b: seq<Call>)
    ensures Created(a + b) == Created(a) + Created(b)
  {
    var ab := a + b;
    forall h | h in Created(ab) ensures h in Created(a) + Created(b) {
      var k :| 0 <= k < |ab| && ab[k].Creates() && ab[k].Name() == h;
      if k < |a| {
        assert ab[k] == a[k];
      } else {
        assert ab[k] == b[k - |a|];
      }
    }
    forall h | h in Created(a) + Created(b) ensures h in Created(ab) {
      if h in Created(a) {
        var k :| 0 <= k < |a| && a[k].Creates() && a[k].Name() == h;
        assert ab[k] == a[k];
      } else {
        var k :| 0 <= k < |b| && b[k].Creates() && b[k].Name() == h;
        assert ab[|a| + k] == b[k];
      }
    }
  }

  lemma DeletedAppend(a: seq<Call>, b: seq<Call>)
    ensures Deleted(a + b) == Deleted(a) + Deleted(b)
  {
    var ab := a + b;
    forall h | h in Deleted(ab) ensures h in Deleted(a) + Deleted(b) {
      var k :| 0 <= k < |ab| && ab[k].Deletes() && ab[k].Released() == h;
      if k < |a| {
        assert ab[k] == a[k];
      } else {
        assert ab[k] == b[k - |a|];
      }
    }
    forall h | h in Deleted(a) + Deleted(b) ensures h in Deleted(ab) {
      if h in Deleted(a) {
        var k :| 0 <= k < |a| && a[k].Deletes() && a[k].Released() == h;
        assert ab[k] == a[k];
      } else {
        var k :| 0 <= k < |b| && b[k].Deletes() && b[k].Released() == h;
        assert ab[|a| + k] == b[k];
      }
    }
  }

  /** A lookup answered by the later calls is not affected by earlier ones. */
  lemma {:induction false} ShaderKindOfAppend(a: seq<Call>, b: seq<Call>, s: int)
    requires ShaderKindOf(b, s).Some?
    ensures ShaderKindOf(a + b, s) == ShaderKindOf(b, s)
  {
    var last := b[|b| - 1];
    assert (a + b)[..|a + b| - 1] == a + b[..|b| - 1];
    if !(last.CreateShader? && last.shader == s) {
      ShaderKindOfAppend(a, b[..|b| - 1], s);
    }
  }

  lemma {:induction false} ShaderSourceOfAppend(a: seq<Call>, b: seq<Call>, s: int)
    requires ShaderSourceOf(b, s).Some?
    ensures ShaderSourceOf(a + b, s) == ShaderSourceOf(b, s)
  {
    var last := b[|b| - 1];
    assert (a + b)[..|a + b| - 1] == a + b[..|b| - 1];
    if !(last.ShaderSource? && last.shader == s) {
      ShaderSourceOfAppend(a, b[..|b| - 1], s);
    }
  }

  /** Calls that do not link p leave the bindings in force for p as they
      were. */
  lemma {:induction false} LinkedBindingsAppend(calls: seq<Call>, extra: seq<Call>, p: int)
    requires forall k | 0 <= k < |extra| :: extra[k] != LinkProgram(p)
    ensures LinkedBindings(calls + extra, p) == LinkedBindings(calls, p)
    decreases |extra|
  {
    if extra == [] {
      assert calls + extra == calls;
    } else {
      var all := calls + extra;
      assert all[..|all| - 1] == calls + extra[..|extra| - 1];
      LinkedBindingsAppend(calls, extra[..|extra| - 1], p);
    }
  }
}
