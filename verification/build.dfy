/**
 The build step of the node-module-bom buildpack: resolve the
 `cyclonedx-node-module` dependency, reuse or re-provision its cached layer,
 and return that layer with a build BOM (tool entries, then module entries)
 and a launch BOM (module entries only).

 The dependency manager, the layer store, the clock and the module BOM
 generator are collaborators the model cannot see. What each call returns is
 an input (`Oracles`), and `Build` records the calls it makes, with their
 arguments, as a sequence of `Call`s.
 */
module NodeModuleBuild {
  import opened Errors
  import opened Packit
  import ModuleBom

  const DependencyId := "cyclonedx-node-module"
  const LayerName := "cyclonedx-node-module"
  const AnyVersion := "*"
  const CatalogFile := "buildpack.toml"

  /** Keys of the layer metadata this buildpack owns. */
  const ShaKey := "dependency-sha"
  const BuiltAtKey := "built_at"

  /** A call `Build` makes to one of its collaborators. */
  datatype Call =
    | Resolve(path: string, id: string, version: string, stack: string)
    | GetLayer(name: string)
    | ResetLayer(path: string)
    | Deliver(dependency: Dependency, cnbPath: string, layerPath: string, platformPath: string)
    | GenerateBillOfMaterials(dependencies: seq<Dependency>)
    | GenerateModuleBom(workingDir: string)

  /** What each collaborator returns. `now` is `clock.Now()` already
      formatted as RFC 3339 with nanoseconds. */
  datatype Oracles = Oracles(
    resolve: Result<Dependency>,
    getLayer: Result<Layer>,
    reset: Result<Layer>,
    deliver: Outcome,
    now: string,
    toolBom: seq<BOMEntry>,
    moduleBom: Result<seq<BOMEntry>>)

  /** The layer `ObtainLayer` settles on, and the calls it made. */
  datatype LayerOutcome = LayerOutcome(layer: Result<Layer>, calls: seq<Call>)

  /** What the build function returns, Go style (a result and an error),
      and the calls it made. */
  datatype BuildOutput = BuildOutput(result: BuildResult, err: Option<Error>, calls: seq<Call>)

  /** The recorded checksum, when the `dependency-sha` key is present and
      holds a string; any other value there records nothing. */
  function CachedSha(m: Metadata): (r: Option<string>)
    ensures r.Some? <==> ShaKey in m && m[ShaKey].Str?
    ensures r.Some? ==> m[ShaKey] == Str(r.value)
  {
    if ShaKey in m && m[ShaKey].Str? then Some(m[ShaKey].s) else None
  }

  /** The layer holds the dependency: its recorded checksum is the
      dependency's. */
  predicate CacheHit(layer: Layer, dependency: Dependency)
    ensures CacheHit(layer, dependency) <==>
      ShaKey in layer.metadata && layer.metadata[ShaKey] == Str(dependency.sha256)
    // an absent key or a value of another shape is always a miss
    ensures ShaKey !in layer.metadata || !layer.metadata[ShaKey].Str? ==> !CacheHit(layer, dependency)
  {
    CachedSha(layer.metadata) == Some(dependency.sha256)
  }

  /** The metadata written after a fresh install: it records the checksum,
      so the next build that resolves the same checksum is a hit, and the
      build time, and nothing else. */
  function FreshMetadata(sha: string, now: string): (m: Metadata)
    ensures CachedSha(m) == Some(sha)
    ensures m.Keys == {ShaKey, BuiltAtKey} && m[BuiltAtKey] == Str(now)
  {
    map[ShaKey := Str(sha), BuiltAtKey := Str(now)]
  }

  /** How many of the calls deliver a dependency. */
  function Deliveries(calls: seq<Call>): nat
  {
    if calls == [] then 0 else (if calls[0].Deliver? then 1 else 0) + Deliveries(calls[1..])
  }

  /** No call resets the layer or delivers a dependency. */
  predicate Untouched(calls: seq<Call>)
  {
    forall i :: 0 <= i < |calls| ==> !calls[i].ResetLayer? && !calls[i].Deliver?
  }

  /** Fetch the layer, and on a checksum mismatch reset it, deliver the
      dependency into it and record the dependency's checksum. */
  function ObtainLayer(ctx: BuildContext, dependency: Dependency, o: Oracles): (out: LayerOutcome)
    ensures |out.calls| >= 1 && out.calls[0] == GetLayer(LayerName)
    ensures o.getLayer.Err? ==> out == LayerOutcome(Err(o.getLayer.error), [GetLayer(LayerName)])
    // a cache hit touches nothing and keeps the layer as it was found
    ensures o.getLayer.Ok? && CacheHit(o.getLayer.value, dependency) ==>
      out == LayerOutcome(Ok(o.getLayer.value), [GetLayer(LayerName)]) && Untouched(out.calls)
    // a cache miss resets the layer, then delivers into the reset layer once
    ensures o.getLayer.Ok? && !CacheHit(o.getLayer.value, dependency) ==>
      && |out.calls| >= 2 && out.calls[1] == ResetLayer(o.getLayer.value.path)
      && (o.reset.Err? ==> out == LayerOutcome(Err(o.reset.error), out.calls) && |out.calls| == 2)
      && (o.reset.Ok? ==>
            && |out.calls| == 3
            && out.calls[2] == Deliver(dependency, ctx.cnbPath, o.reset.value.path, ctx.platformPath)
            && (o.deliver.Fail? ==> out.layer == Err(o.deliver.error))
            && (o.deliver.Pass? ==>
                  out.layer == Ok(o.reset.value.(metadata := FreshMetadata(dependency.sha256, o.now)))))
    ensures Deliveries(out.calls) == 1 <==>
      o.getLayer.Ok? && !CacheHit(o.getLayer.value, dependency) && o.reset.Ok?
    ensures Deliveries(out.calls) <= 1
    // whatever layer comes back records the dependency it holds
    ensures out.layer.Ok? ==> CacheHit(out.layer.value, dependency)
  {
    match o.getLayer
    case Err(e) => LayerOutcome(Err(e), [GetLayer(LayerName)])
    case Ok(layer) =>
      if CachedSha(layer.metadata) == Some(dependency.sha256) then
        LayerOutcome(Ok(layer), [GetLayer(LayerName)])
      else
        var resetCalls := [GetLayer(LayerName), ResetLayer(layer.path)];
        NoDeliveries(resetCalls);
        match o.reset
        case Err(e) => LayerOutcome(Err(e), resetCalls)
        case Ok(cleared) =>
          var deliver := Deliver(dependency, ctx.cnbPath, cleared.path, ctx.platformPath);
          var calls := resetCalls + [deliver];
          assert Deliveries(calls) == 1 by {
            DeliveriesAppend(resetCalls, [deliver]);
            assert [deliver][1..] == [];
          }
          if o.deliver.Fail? then
            LayerOutcome(Err(o.deliver.error), calls)
          else
            LayerOutcome(Ok(cleared.(metadata := FreshMetadata(dependency.sha256, o.now))), calls)
  }

  /** The function `Build` returns, applied to a build context. */
  function Build(ctx: BuildContext, o: Oracles): (out: BuildOutput)
    ensures |out.calls| >= 1 &&
      out.calls[0] == Resolve(JoinPath(ctx.cnbPath, CatalogFile), DependencyId, AnyVersion, ctx.stack)
    // a failed resolution touches nothing else
    ensures o.resolve.Err? ==> out == BuildOutput(EmptyResult, Some(o.resolve.error), out.calls[..1])
    // never a partial result
    ensures out.err.Some? ==> out.result == EmptyResult
    ensures o.resolve.Ok? ==>
      var dependency := o.resolve.value;
      var obtained := ObtainLayer(ctx, dependency, o);
      && |out.calls| > |obtained.calls| && out.calls[1..|obtained.calls| + 1] == obtained.calls
      && (obtained.layer.Err? ==>
            out.err == Some(obtained.layer.error) && |out.calls| == |obtained.calls| + 1)
      && (obtained.layer.Ok? ==>
            && out.calls[|obtained.calls| + 1..] ==
                 [GenerateBillOfMaterials([dependency]), GenerateModuleBom(ctx.workingDir)]
            && (o.moduleBom.Err? ==> out.err == Some(o.moduleBom.error))
            && (o.moduleBom.Ok? ==> out.err.None? && out.result.layers == [obtained.layer.value.(cache := true)]))
    // a successful build returns one cacheable layer recording the resolved
    // dependency, the tool BOM then the module BOM for build, and the module
    // BOM alone for launch
    ensures out.err.None? ==>
      && o.resolve.Ok? && o.moduleBom.Ok?
      && |out.result.layers| == 1 && out.result.layers[0].cache
      && CacheHit(out.result.layers[0], o.resolve.value)
      && out.result.buildBom == o.toolBom + o.moduleBom.value
      && out.result.launchBom == o.moduleBom.value
    ensures Deliveries(out.calls) <= 1
  {
    var resolveCall := Resolve(JoinPath(ctx.cnbPath, CatalogFile), DependencyId, AnyVersion, ctx.stack);
    match o.resolve
    case Err(e) => BuildOutput(EmptyResult, Some(e), [resolveCall])
    case Ok(dependency) =>
      var obtained := ObtainLayer(ctx, dependency, o);
      var calls := [resolveCall] + obtained.calls;
      assert Deliveries(calls) == Deliveries(obtained.calls) by {
        DeliveriesAppend([resolveCall], obtained.calls);
      }
      match obtained.layer
      case Err(e) => BuildOutput(EmptyResult, Some(e), calls)
      case Ok(layer) =>
        var cached := layer.(cache := true);
        var bomCalls := [GenerateBillOfMaterials([dependency]), GenerateModuleBom(ctx.workingDir)];
        assert Deliveries(calls + bomCalls) == Deliveries(calls) by {
          DeliveriesAppend(calls, bomCalls);
          NoDeliveries(bomCalls);
        }
        match o.moduleBom
        case Err(e) => BuildOutput(EmptyResult, Some(e), calls + bomCalls)
        case Ok(moduleBom) =>
          BuildOutput(BuildResult([cached], o.toolBom + moduleBom, moduleBom), None, calls + bomCalls)
  }

  lemma {:induction false} DeliveriesAppend(a: seq<Call>, b: seq<Call>)
    ensures Deliveries(a + b) == Deliveries(a) + Deliveries(b)
  {
    if a == [] {
      assert a + b == b;
    } else {
      assert (a + b)[1..] == a[1..] + b;
      DeliveriesAppend(a[1..], b);
    }
  }

  lemma {:induction false} NoDeliveries(calls: seq<Call>)
    requires forall i :: 0 <= i < |calls| ==> !calls[i].Deliver?
    ensures Deliveries(calls) == 0
  {
    if calls != [] {
      assert forall i :: 0 <= i < |calls[1..]| ==> calls[1..][i] == calls[i + 1];
      NoDeliveries(calls[1..]);
    }
  }

  /** On a cache hit nothing is reset or delivered, and a successful build
      returns the layer it found, metadata unchanged, marked cacheable. */
  lemma CacheHitReusesLayer(ctx: BuildContext, o: Oracles)
    requires o.resolve.Ok? && o.getLayer.Ok? && CacheHit(o.getLayer.value, o.resolve.value)
    ensures Untouched(Build(ctx, o).calls)
    ensures Build(ctx, o).err.None? ==> Build(ctx, o).result.layers == [o.getLayer.value.(cache := true)]
  {
  }

  /** On a cache miss the layer is reset and the dependency delivered into
      it exactly once, and a successful build records exactly the new
      checksum and the build time. */
  lemma CacheMissReprovisions(ctx: BuildContext, o: Oracles)
    requires o.resolve.Ok? && o.getLayer.Ok? && !CacheHit(o.getLayer.value, o.resolve.value)
    requires o.reset.Ok?
    ensures var out := Build(ctx, o);
      && out.calls[..4] == [
           Resolve(JoinPath(ctx.cnbPath, CatalogFile), DependencyId, AnyVersion, ctx.stack),
           GetLayer(LayerName),
           ResetLayer(o.getLayer.value.path),
           Deliver(o.resolve.value, ctx.cnbPath, o.reset.value.path, ctx.platformPath)]
      && Deliveries(out.calls) == 1
      && (out.err.None? ==> out.result.layers[0].metadata == FreshMetadata(o.resolve.value.sha256, o.now))
  {
    var out := Build(ctx, o);
    var obtained := ObtainLayer(ctx, o.resolve.value, o);
    assert out.calls[..4] == out.calls[..1] + obtained.calls;
    DeliveriesAppend([out.calls[0]], obtained.calls);
    if obtained.layer.Ok? {
      DeliveriesAppend([out.calls[0]] + obtained.calls, out.calls[4..]);
      assert out.calls == [out.calls[0]] + obtained.calls + out.calls[4..];
    } else {
      assert out.calls == [out.calls[0]] + obtained.calls;
    }
  }

  /** A second build that resolves the same dependency and finds the layer
      the first build left behind is a cache hit: it resets and delivers
      nothing, and on success returns that very layer again. */
  lemma RerunIsCacheHit(ctx: BuildContext, o1: Oracles, o2: Oracles)
    requires Build(ctx, o1).err.None?
    requires o2.resolve == o1.resolve
    requires o2.getLayer == Ok(Build(ctx, o1).result.layers[0])
    ensures Untouched(Build(ctx, o2).calls)
    ensures Build(ctx, o2).err.None? ==> Build(ctx, o2).result.layers == Build(ctx, o1).result.layers
  {
  }

  /** Build and module BOM generation together: when every stage succeeds the
      launch BOM has one entry per reported component, in report order, and
      the build BOM is the tool BOM followed by those entries. */
  lemma BuildWithModuleBom(ctx: BuildContext, o: Oracles, m: ModuleBom.Oracles)
    requires o.moduleBom == ModuleBom.AsResult(ModuleBom.Generate(ctx.workingDir, m))
    requires m.execute.Pass? && m.open.Pass? && m.decode.Ok? && m.remove.Pass?
    requires Build(ctx, o).err.None?
    ensures var out := Build(ctx, o); var cs := m.decode.value.components;
      && |out.result.launchBom| == |cs|
      && (forall i :: 0 <= i < |cs| ==> out.result.launchBom[i] == ModuleBom.ToEntry(cs[i]))
      && out.result.buildBom == o.toolBom + out.result.launchBom
  {
  }

  /** A report with no components gives an empty launch BOM, and the build
      BOM is exactly the tool BOM. */
  lemma EmptyReportBuild(ctx: BuildContext, o: Oracles, m: ModuleBom.Oracles)
    requires o.moduleBom == ModuleBom.AsResult(ModuleBom.Generate(ctx.workingDir, m))
    requires m.execute.Pass? && m.open.Pass? && m.remove.Pass?
    requires m.decode == Ok(ModuleBom.Report([]))
    requires Build(ctx, o).err.None?
    ensures Build(ctx, o).result.launchBom == []
    ensures Build(ctx, o).result.buildBom == o.toolBom
  {
  }

  /** The scenario of the unit test: a resolved dependency and a layer with
      no recorded checksum. The dependency is delivered into the layer, the
      layer records its checksum and the build time and is cacheable, and
      the BOMs are split as in the unit test. */
  lemma FreshLayerScenario(ctx: BuildContext, o: Oracles, layer: Layer, tool: BOMEntry, leftpad: BOMEntry)
    requires o.resolve.Ok? && o.getLayer == Ok(layer) && layer.metadata == map[]
    requires o.reset == Ok(layer) && o.deliver.Pass?
    requires o.toolBom == [tool] && o.moduleBom == Ok([leftpad])
    ensures var out := Build(ctx, o);
      && out.err.None?
      && out.result == BuildResult(
           [layer.(cache := true, metadata := map["dependency-sha" := Str(o.resolve.value.sha256), "built_at" := Str(o.now)])],
           [tool, leftpad],
           [leftpad])
      && out.calls == [
           Resolve(JoinPath(ctx.cnbPath, "buildpack.toml"), "cyclonedx-node-module", "*", ctx.stack),
           GetLayer("cyclonedx-node-module"),
           ResetLayer(layer.path),
           Deliver(o.resolve.value, ctx.cnbPath, layer.path, ctx.platformPath),
           GenerateBillOfMaterials([o.resolve.value]),
           GenerateModuleBom(ctx.workingDir)]
  {
  }
}
