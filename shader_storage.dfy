/**
 * The shader store: one cache per stage kind, from path to a shared shader
 * handle.  A shader is built the first time its path is asked for and the
 * same handle is handed out from then on.
 */
module ShaderStorage {
  import opened Shaders

  /**
   * A `Handle<Shader<..>>`: a shared handle to a built shader.  Cloning a handle
   * keeps its `id`; `Handle::new` makes a handle with an id not used before.
   */
  datatype Handle = Handle(id: nat, shader: Shader)

  /** What `get_shader` gives back, or the panic of `Shader::new` it runs into. */
  datatype Fetched = Fetched(handle: Handle) | Panicked(message: string)

  /** One `get_shader` on one cache: the answer, the cache afterwards, and whether `Shader::new` ran. */
  datatype Lookup = Lookup(fetched: Fetched, shaders: map<Path, Handle>, built: bool)

  /**
   * `get_shader` on the cache `shaders`, where `build` is what `Shader::new`
   * would give for `path` and `freshId` the id a new handle gets.
   */
  function GetShaderSpec(shaders: map<Path, Handle>, path: Path, build: NewShaderResult, freshId: nat): (l: Lookup)
    ensures l.built <==> path !in shaders
    ensures l.fetched.Fetched? ==> path in l.shaders && l.shaders[path] == l.fetched.handle
    ensures l.fetched.Fetched? && l.built ==> build.Built? && l.fetched.handle == Handle(freshId, build.shader)
    ensures l.fetched.Panicked? <==> path !in shaders && build.Panic?
    ensures l.fetched.Panicked? ==> l.shaders == shaders && l.fetched.message == build.message
    ensures forall q :: q != path ==> (q in l.shaders <==> q in shaders)
    ensures forall q :: q != path && q in shaders ==> l.shaders[q] == shaders[q]
    ensures path in shaders ==> l.shaders == shaders
  {
    if path in shaders then Lookup(Fetched(shaders[path]), shaders, false)
    else
      match build
      case Built(shader) =>
        var handle := Handle(freshId, shader);
        Lookup(Fetched(handle), shaders[path := handle], true)
      case Panic(message) => Lookup(Panicked(message), shaders, true)
  }

  /** A cached path gives the stored handle, builds nothing and leaves the cache as it was. */
  lemma CachedPathIsReused(shaders: map<Path, Handle>, path: Path, build: NewShaderResult, freshId: nat)
    requires path in shaders
    ensures GetShaderSpec(shaders, path, build, freshId) == Lookup(Fetched(shaders[path]), shaders, false)
  {
  }

  /** An uncached path builds one shader, stores it under that path and returns the handle it stored. */
  lemma UncachedPathIsBuiltOnce(shaders: map<Path, Handle>, path: Path, build: NewShaderResult, freshId: nat)
    requires path !in shaders && build.Built?
    ensures var l := GetShaderSpec(shaders, path, build, freshId);
      && l.built
      && l.fetched == Fetched(Handle(freshId, build.shader))
      && l.shaders.Keys == shaders.Keys + {path}
      && l.shaders[path] == l.fetched.handle
  {
  }

  /**
   * After a `get_shader` that returns, the path is cached under the returned
   * handle, every other entry is as before, and asking again returns the same
   * handle without building anything or changing the cache.
   */
  lemma GetShaderIsIdempotent(shaders: map<Path, Handle>, path: Path, build: NewShaderResult, build2: NewShaderResult, freshId: nat, freshId2: nat)
    requires GetShaderSpec(shaders, path, build, freshId).fetched.Fetched?
    ensures var l := GetShaderSpec(shaders, path, build, freshId);
      && path in l.shaders && l.shaders[path] == l.fetched.handle
      && (forall q :: q != path ==> (q in l.shaders <==> q in shaders))
      && (forall q :: q != path && q in shaders ==> l.shaders[q] == shaders[q])
      && GetShaderSpec(l.shaders, path, build2, freshId2) == Lookup(l.fetched, l.shaders, false)
  {
  }

  /** Every handle of `hs` occurs exactly once in `handles`, and nothing else occurs. */
  ghost predicate CountsOnce(handles: seq<Handle>, hs: set<Handle>)
  {
    multiset(handles) == multiset(hs)
  }

  lemma CountsOnceConcat(a: seq<Handle>, b: seq<Handle>, xs: set<Handle>, ys: set<Handle>)
    requires CountsOnce(a, xs) && CountsOnce(b, ys) && xs !! ys
    ensures CountsOnce(a + b, xs + ys)
  {
    assert multiset(a + b) == multiset(a) + multiset(b);
    assert multiset(xs + ys) == multiset(xs) + multiset(ys) by {
      forall h ensures multiset(xs + ys)[h] == (multiset(xs) + multiset(ys))[h] {
      }
    }
  }

  /** Distinct paths hold distinct handles. */
  ghost predicate Injective(shaders: map<Path, Handle>)
  {
    forall p, q :: p in shaders && q in shaders && shaders[p] == shaders[q] ==> p == q
  }

  /** Call `delete` on every stored shader of one cache, in the cache's (unspecified) order. */
  method DeleteEach(shaders: map<Path, Handle>) returns (deleted: seq<Handle>)
    ensures |deleted| == |shaders|
    ensures forall h :: h in deleted <==> h in shaders.Values
    ensures Injective(shaders) ==> CountsOnce(deleted, shaders.Values)
  {
    var todo := shaders.Keys;
    deleted := [];
    while todo != {}
      invariant todo <= shaders.Keys
      invariant |deleted| + |todo| == |shaders.Keys|
      invariant forall h :: h in deleted <==> exists p :: p in shaders.Keys - todo && shaders[p] == h
      invariant Injective(shaders) ==> forall h :: multiset(deleted)[h] <= 1
      decreases |todo|
    {
      var p :| p in todo;
      if Injective(shaders) {
        assert shaders[p] !in deleted;
      }
      deleted := deleted + [shaders[p]];
      todo := todo - {p};
    }
    assert forall h :: h in shaders.Values ==> exists p :: p in shaders.Keys && shaders[p] == h;
    if Injective(shaders) {
      forall h ensures multiset(deleted)[h] == multiset(shaders.Values)[h] {
        if h in shaders.Values {
          assert h in deleted;
          assert h in multiset(deleted);
        } else {
          assert h !in deleted;
          assert h !in multiset(deleted);
        }
      }
    }
  }

  /** The five caches of a store, one per stage kind. */
  datatype Caches = Caches(
    vertex: map<Path, Handle>,
    fragment: map<Path, Handle>,
    compute: map<Path, Handle>,
    geometry: map<Path, Handle>,
    mesh: map<Path, Handle>)
  {
    function Of(kind: ShaderKind): map<Path, Handle>
    {
      match kind
      case Vertex => vertex
      case Fragment => fragment
      case Compute => compute
      case Geometry => geometry
      case Mesh => mesh
    }

    function With(kind: ShaderKind, shaders: map<Path, Handle>): (c: Caches)
      ensures c.Of(kind) == shaders
      ensures forall k :: k != kind ==> c.Of(k) == Of(k)
    {
      match kind
      case Vertex => this.(vertex := shaders)
      case Fragment => this.(fragment := shaders)
      case Compute => this.(compute := shaders)
      case Geometry => this.(geometry := shaders)
      case Mesh => this.(mesh := shaders)
    }

    /** Every stored handle, in all five caches. */
    function Stored(): set<Handle>
    {
      vertex.Values + fragment.Values + compute.Values + geometry.Values + mesh.Values
    }
  }

  /**
   * Each cache holds shaders of its own kind, every handle was made before
   * `nextId`, and no handle is stored twice.
   */
  ghost predicate CachesValid(c: Caches, nextId: nat)
  {
    && (forall k, p :: p in c.Of(k) ==> c.Of(k)[p].id < nextId && c.Of(k)[p].shader.kind == k)
    && (forall k1, p1, k2, p2 ::
          p1 in c.Of(k1) && p2 in c.Of(k2) && c.Of(k1)[p1].id == c.Of(k2)[p2].id
          ==> k1 == k2 && p1 == p2)
  }

  /** Caching a new handle of the right kind, with the next id, keeps the caches valid. */
  lemma InsertKeepsValid(c: Caches, nextId: nat, kind: ShaderKind, path: Path, handle: Handle)
    requires CachesValid(c, nextId)
    requires path !in c.Of(kind) && handle.id == nextId && handle.shader.kind == kind
    ensures CachesValid(c.With(kind, c.Of(kind)[path := handle]), nextId + 1)
  {
    var c' := c.With(kind, c.Of(kind)[path := handle]);
    forall k, p | p in c'.Of(k)
      ensures c'.Of(k)[p].id < nextId + 1 && c'.Of(k)[p].shader.kind == k
    {
      if k != kind || p != path {
        assert p in c.Of(k) && c'.Of(k)[p] == c.Of(k)[p];
      }
    }
    forall k1, p1, k2, p2 | p1 in c'.Of(k1) && p2 in c'.Of(k2) && c'.Of(k1)[p1].id == c'.Of(k2)[p2].id
      ensures k1 == k2 && p1 == p2
    {
      if (k1, p1) != (kind, path) {
        assert p1 in c.Of(k1) && c'.Of(k1)[p1] == c.Of(k1)[p1];
      }
      if (k2, p2) != (kind, path) {
        assert p2 in c.Of(k2) && c'.Of(k2)[p2] == c.Of(k2)[p2];
      }
    }
  }

  /** A `get_shader` keeps the caches valid, given that `Shader::new` builds a shader of the kind asked for. */
  lemma GetShaderKeepsValid(c: Caches, nextId: nat, kind: ShaderKind, path: Path, build: NewShaderResult)
    requires CachesValid(c, nextId)
    requires build.Built? ==> build.shader.kind == kind
    ensures var l := GetShaderSpec(c.Of(kind), path, build, nextId);
      CachesValid(c.With(kind, l.shaders), if l.fetched.Fetched? && l.built then nextId + 1 else nextId)
  {
    if path !in c.Of(kind) && build.Built? {
      InsertKeepsValid(c, nextId, kind, path, Handle(nextId, build.shader));
    } else {
      assert c.With(kind, c.Of(kind)) == c;
    }
  }

  lemma CachesAreInjective(c: Caches, nextId: nat, kind: ShaderKind)
    requires CachesValid(c, nextId)
    ensures Injective(c.Of(kind))
  {
  }

  lemma CachesAreDisjoint(c: Caches, nextId: nat, k1: ShaderKind, k2: ShaderKind)
    requires CachesValid(c, nextId) && k1 != k2
    ensures c.Of(k1).Values !! c.Of(k2).Values
  {
  }

  /** Deleting each cache in turn deletes every stored handle exactly once. */
  lemma DeletedOnce(c: Caches, nextId: nat, dv: seq<Handle>, df: seq<Handle>, dc: seq<Handle>, dg: seq<Handle>, dm: seq<Handle>)
    requires CachesValid(c, nextId)
    requires Injective(c.vertex) ==> CountsOnce(dv, c.vertex.Values)
    requires Injective(c.fragment) ==> CountsOnce(df, c.fragment.Values)
    requires Injective(c.compute) ==> CountsOnce(dc, c.compute.Values)
    requires Injective(c.geometry) ==> CountsOnce(dg, c.geometry.Values)
    requires Injective(c.mesh) ==> CountsOnce(dm, c.mesh.Values)
    ensures CountsOnce(dv + df + dc + dg + dm, c.Stored())
  {
    CachesAreInjective(c, nextId, Vertex);
    CachesAreInjective(c, nextId, Fragment);
    CachesAreInjective(c, nextId, Compute);
    CachesAreInjective(c, nextId, Geometry);
    CachesAreInjective(c, nextId, Mesh);
    var vs, fs, cs, gs, ms := c.vertex.Values, c.fragment.Values, c.compute.Values, c.geometry.Values, c.mesh.Values;
    CachesAreDisjoint(c, nextId, Vertex, Fragment);
    CountsOnceConcat(dv, df, vs, fs);
    CachesAreDisjoint(c, nextId, Vertex, Compute);
    CachesAreDisjoint(c, nextId, Fragment, Compute);
    CountsOnceConcat(dv + df, dc, vs + fs, cs);
    CachesAreDisjoint(c, nextId, Vertex, Geometry);
    CachesAreDisjoint(c, nextId, Fragment, Geometry);
    CachesAreDisjoint(c, nextId, Compute, Geometry);
    CountsOnceConcat(dv + df + dc, dg, vs + fs + cs, gs);
    CachesAreDisjoint(c, nextId, Vertex, Mesh);
    CachesAreDisjoint(c, nextId, Fragment, Mesh);
    CachesAreDisjoint(c, nextId, Compute, Mesh);
    CachesAreDisjoint(c, nextId, Geometry, Mesh);
    CountsOnceConcat(dv + df + dc + dg, dm, vs + fs + cs + gs, ms);
  }

  class ShaderStore {
    /** The device and files that `Shader::new` uses. */
    const env: ShaderEnv
    var vertexShaders: map<Path, Handle>
    var fragmentShaders: map<Path, Handle>
    var computeShaders: map<Path, Handle>
    var geometryShaders: map<Path, Handle>
    var meshShaders: map<Path, Handle>
    /** The id the next `Handle::new` gets. */
    var nextId: nat
    /** Every call of `Shader::new`, in order. */
    var built: seq<(ShaderKind, Path)>
    /** Every shader `delete` was called on, in order. */
    var deleted: seq<Handle>

    function Contents(): Caches
      reads this
    {
      Caches(vertexShaders, fragmentShaders, computeShaders, geometryShaders, meshShaders)
    }

    ghost predicate Valid()
      reads this
    {
      CachesValid(Contents(), nextId)
    }

    /** `ShaderStore::new`: all five caches empty. */
    constructor (env: ShaderEnv)
      ensures Valid() && this.env == env
      ensures Contents() == Caches(map[], map[], map[], map[], map[])
      ensures nextId == 0 && built == [] && deleted == []
    {
      this.env := env;
      vertexShaders, fragmentShaders, computeShaders := map[], map[], map[];
      geometryShaders, meshShaders := map[], map[];
      nextId, built, deleted := 0, [], [];
    }

    method SetShaders(kind: ShaderKind, shaders: map<Path, Handle>)
      modifies this`vertexShaders, this`fragmentShaders, this`computeShaders, this`geometryShaders, this`meshShaders
      ensures Contents() == old(Contents()).With(kind, shaders)
    {
      match kind
      case Vertex => vertexShaders := shaders;
      case Fragment => fragmentShaders := shaders;
      case Compute => computeShaders := shaders;
      case Geometry => geometryShaders := shaders;
      case Mesh => meshShaders := shaders;
    }

    /**
     * The state change of one `get_shader` on the cache of `kind`: as
     * `GetShaderSpec` says for that cache, with the other caches untouched.
     */
    twostate predicate GotShader(kind: ShaderKind, path: Path, r: Fetched)
      reads this
    {
      var l := GetShaderSpec(old(Contents()).Of(kind), path, NewShader(env, kind, path), old(nextId));
      && r == l.fetched
      && Contents() == old(Contents()).With(kind, l.shaders)
      && built == old(built) + (if l.built then [(kind, path)] else [])
      && nextId == (if r.Fetched? && l.built then old(nextId) + 1 else old(nextId))
      && deleted == old(deleted)
    }

    /** `get_shader`: the cached handle, or a newly built one that is cached under `path`. */
    method GetShader(kind: ShaderKind, path: Path) returns (r: Fetched)
      modifies this
      ensures GotShader(kind, path, r)
    {
      var shaders := Contents().Of(kind);
      if path in shaders {
        r := Fetched(shaders[path]);
      } else {
        r := BuildInto(kind, path);
      }
    }

    /** The `None` arm of `get_shader`: build the shader and cache its handle under `path`. */
    method BuildInto(kind: ShaderKind, path: Path) returns (r: Fetched)
      requires path !in Contents().Of(kind)
      modifies this
      ensures GotShader(kind, path, r)
    {
      built := built + [(kind, path)];
      var shader := NewShader(env, kind, path);
      if shader.Built? {
        var handle := Handle(nextId, shader.shader);
        nextId := nextId + 1;
        SetShaders(kind, Contents().Of(kind)[path := handle]);
        r := Fetched(handle);
      } else {
        r := Panicked(shader.message);
      }
    }

    method GetVertex(path: Path) returns (r: Fetched)
      requires Valid()
      modifies this
      ensures Valid() && GotShader(Vertex, path, r)
      ensures fragmentShaders == old(fragmentShaders) && computeShaders == old(computeShaders)
      ensures geometryShaders == old(geometryShaders) && meshShaders == old(meshShaders)
    {
      r := GetShader(Vertex, path);
      GetShaderKeepsValid(old(Contents()), old(nextId), Vertex, path, NewShader(env, Vertex, path));
    }

    method GetFragment(path: Path) returns (r: Fetched)
      requires Valid()
      modifies this
      ensures Valid() && GotShader(Fragment, path, r)
      ensures vertexShaders == old(vertexShaders) && computeShaders == old(computeShaders)
      ensures geometryShaders == old(geometryShaders) && meshShaders == old(meshShaders)
    {
      r := GetShader(Fragment, path);
      GetShaderKeepsValid(old(Contents()), old(nextId), Fragment, path, NewShader(env, Fragment, path));
    }

    method GetCompute(path: Path) returns (r: Fetched)
      requires Valid()
      modifies this
      ensures Valid() && GotShader(Compute, path, r)
      ensures vertexShaders == old(vertexShaders) && fragmentShaders == old(fragmentShaders)
      ensures geometryShaders == old(geometryShaders) && meshShaders == old(meshShaders)
    {
      r := GetShader(Compute, path);
      GetShaderKeepsValid(old(Contents()), old(nextId), Compute, path, NewShader(env, Compute, path));
    }

    method GetGeometry(path: Path) returns (r: Fetched)
      requires Valid()
      modifies this
      ensures Valid() && GotShader(Geometry, path, r)
      ensures vertexShaders == old(vertexShaders) && fragmentShaders == old(fragmentShaders)
      ensures computeShaders == old(computeShaders) && meshShaders == old(meshShaders)
    {
      r := GetShader(Geometry, path);
      GetShaderKeepsValid(old(Contents()), old(nextId), Geometry, path, NewShader(env, Geometry, path));
    }

    method GetMesh(path: Path) returns (r: Fetched)
      requires Valid()
      modifies this
      ensures Valid() && GotShader(Mesh, path, r)
      ensures vertexShaders == old(vertexShaders) && fragmentShaders == old(fragmentShaders)
      ensures computeShaders == old(computeShaders) && geometryShaders == old(geometryShaders)
    {
      r := GetShader(Mesh, path);
      GetShaderKeepsValid(old(Contents()), old(nextId), Mesh, path, NewShader(env, Mesh, path));
    }

    /** `delete`: `delete` is called exactly once on every shader stored in any of the five caches. */
    method Delete()
      requires Valid()
      modifies this`deleted
      ensures Valid()
      ensures |old(deleted)| <= |deleted| && deleted[..|old(deleted)|] == old(deleted)
      ensures CountsOnce(deleted[|old(deleted)|..], Contents().Stored())
    {
      var c := Contents();
      var dv := DeleteEach(vertexShaders);
      var df := DeleteEach(fragmentShaders);
      var dc := DeleteEach(computeShaders);
      var dg := DeleteEach(geometryShaders);
      var dm := DeleteEach(meshShaders);
      DeletedOnce(c, nextId, dv, df, dc, dg, dm);
      var all := dv + df + dc + dg + dm;
      deleted := deleted + all;
      assert deleted[|old(deleted)|..] == all;
    }
  }
}
