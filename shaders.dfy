/**
 * Shader objects and the shader-module fallback chain: a module is created
 * from the SPIR-V words of a source; on failure the source is re-read from the
 * same path and tried again, then the stage's default source is tried, and only
 * then an error is returned.
 */
module Shaders {
  import opened Results
  import opened VulkanErrors

  datatype ShaderKind = Vertex | Fragment | Compute | Geometry | Mesh

  type Path = string

  /** A 32-bit SPIR-V word. */
  type Word = bv32

  /** A compiled shader source: the path it came from and its SPIR-V words. */
  datatype Source = Spirv(path: Path, words: seq<Word>)

  /** A `vk::ShaderModule` handle. */
  datatype ModuleHandle = ModuleHandle(raw: nat)

  datatype BuildAttempt = First | Second | Last

  /**
   * What the file system and the device answer while a shader is built.
   * The two reads of a path are separate answers: the second read recompiles.
   */
  datatype ShaderEnv = ShaderEnv(
    load: (ShaderKind, Path) -> Source,           // `Source::new` in `Shader::new`
    reload: (ShaderKind, Path) -> Source,         // `Source::new` after a failed first attempt
    loadDefault: ShaderKind -> Source,            // `Source::read_default`
    create: seq<Word> -> Result<ModuleHandle, int>)  // `create_shader_module`

  /** A built shader: its stage kind (which fixes its entry point) and its module. */
  datatype Shader = Shader(kind: ShaderKind, shaderModule: ModuleHandle)

  /** The result of a build, with every source handed to module creation, in order. */
  datatype Build = Build(result: Result<ModuleHandle, VulkanError>, tried: seq<Source>)

  /** How many further attempts an attempt allows after itself. */
  function Remaining(attempt: BuildAttempt): nat
  {
    match attempt
    case First => 2
    case Second => 1
    case Last => 0
  }

  const UNRECOVERABLE := "Could not recover from shader module creation failure ({err})"

  /** `Shader::build_shader_module`. */
  function BuildShaderModule(env: ShaderEnv, kind: ShaderKind, source: Source, attempt: BuildAttempt): (b: Build)
    ensures 1 <= |b.tried| <= Remaining(attempt) + 1 && b.tried[0] == source
    ensures forall i :: 0 <= i < |b.tried| - 1 ==> env.create(b.tried[i].words).Err?
    ensures b.result.Ok? ==> env.create(b.tried[|b.tried| - 1].words) == Ok(b.result.value)
    ensures b.result.Err? ==> |b.tried| == Remaining(attempt) + 1 && env.create(b.tried[|b.tried| - 1].words).Err?
    decreases Remaining(attempt)
  {
    match env.create(source.words)
    case Ok(handle) => Build(Ok(handle), [source])
    case Err(_) =>
      match attempt
      case First =>
        var b := BuildShaderModule(env, kind, env.reload(kind, source.path), Second);
        b.(tried := [source] + b.tried)
      case Second =>
        var b := BuildShaderModule(env, kind, env.loadDefault(kind), Last);
        b.(tried := [source] + b.tried)
      case Last => Build(Err(VulkanError.Shader(UNRECOVERABLE)), [source])
  }

  /** A successful creation returns that module at once, whatever the attempt. */
  lemma SuccessIsReturnedAtOnce(env: ShaderEnv, kind: ShaderKind, source: Source, attempt: BuildAttempt)
    requires env.create(source.words).Ok?
    ensures BuildShaderModule(env, kind, source, attempt) == Build(Ok(env.create(source.words).value), [source])
  {
  }

  /** Each failure moves one step down the chain: re-read the path, then the default source, then give up. */
  lemma FailureMovesDownTheChain(env: ShaderEnv, kind: ShaderKind, source: Source, attempt: BuildAttempt)
    requires env.create(source.words).Err?
    ensures var b := BuildShaderModule(env, kind, source, attempt);
      match attempt
      case First => b.result == BuildShaderModule(env, kind, env.reload(kind, source.path), Second).result
      case Second => b.result == BuildShaderModule(env, kind, env.loadDefault(kind), Last).result
      case Last => b == Build(Err(VulkanError.Shader(UNRECOVERABLE)), [source])
  {
  }

  /**
   * Started at `First`, the chain tries the source, the re-read source and the
   * default source, in that order and at most once each, and fails exactly when
   * all three creations fail.
   */
  lemma {:induction false} ChainFromFirst(env: ShaderEnv, kind: ShaderKind, source: Source)
    ensures var b := BuildShaderModule(env, kind, source, First);
      var again := env.reload(kind, source.path);
      var fallback := env.loadDefault(kind);
      && b.tried <= [source, again, fallback]
      && (b.result.Err? <==>
            env.create(source.words).Err? && env.create(again.words).Err? && env.create(fallback.words).Err?)
  {
    var again := env.reload(kind, source.path);
    var fallback := env.loadDefault(kind);
    if env.create(source.words).Err? {
      if env.create(again.words).Err? {
        assert BuildShaderModule(env, kind, again, Second).tried == [again] + BuildShaderModule(env, kind, fallback, Last).tried;
      }
    }
  }

  /** `Shader::new`: a shader, or the panic of `expect` when the whole chain fails. */
  datatype NewShaderResult = Built(shader: Shader) | Panic(message: string)

  const FALLBACKS_FAILED := "fallbacks should never fail to compile"

  /** `Shader::new` builds from a fresh read of `path`, starting the chain at `First`. */
  function NewShader(env: ShaderEnv, kind: ShaderKind, path: Path): (r: NewShaderResult)
    ensures var source := env.load(kind, path);
      var again := env.reload(kind, source.path);
      var fallback := env.loadDefault(kind);
      var first := env.create(source.words);
      var second := env.create(again.words);
      var third := env.create(fallback.words);
      && (r.Panic? <==> first.Err? && second.Err? && third.Err?)
      && (r.Panic? ==> r.message == FALLBACKS_FAILED)
      && (r.Built? ==> r.shader.kind == kind)
      && (r.Built? ==> Ok(r.shader.shaderModule) == if first.Ok? then first else if second.Ok? then second else third)
  {
    var source := env.load(kind, path);
    ChainFromFirst(env, kind, source);
    match BuildShaderModule(env, kind, source, First).result
    case Ok(handle) => Built(Shader.Shader(kind, handle))
    case Err(_) => Panic(FALLBACKS_FAILED)
  }
}
