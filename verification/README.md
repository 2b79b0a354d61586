# node-module-bom build step, modelled in Dafny

This project models the build step of the node-module-bom Cloud Native
Buildpack:

- `Build` (build.go) resolves the `cyclonedx-node-module` dependency and
  fetches its layer. It reuses the layer when the layer's `dependency-sha`
  metadata is a string equal to the dependency's SHA-256. Otherwise it resets
  the layer, delivers the dependency into it and rewrites the metadata. It then
  marks the layer cacheable, and returns it with a build BOM (the tool's
  entries followed by the module entries) and a launch BOM (the module entries
  alone).
- `ModuleBOM.Generate` (module_bom.go) runs `cyclonedx-bom -o bom.json` in the
  working directory. It then opens, decodes and removes `bom.json`, in that
  order. Each component of the report becomes one BOM entry carrying its name,
  version, purl and license IDs.

Every call into a collaborator is an input to the model. These are the
dependency manager's `Resolve`, `Deliver` and `GenerateBillOfMaterials`,
`Layers.Get`, `Layer.Reset`, the clock, the module BOM generator, the tool
execution, and opening, decoding and removing the report. Each input is
either the call's success payload or its error. Both operations are total
functions that return what the Go code returns together with the sequence of
calls made, with their arguments. The properties are stated over that
sequence.

Files:

- `errors.dfy`: module `Errors`. Go error values, where `Wrapped` models
  `fmt.Errorf("…: %w", cause)` and `Is` models `errors.Is`. Also the
  `Result` and `Outcome` shapes of a call's answer.
- `packit.dfy`: module `Packit`. The packit library types the core reads and
  builds: `Dependency`, `Layer`, `BOMEntry`, `BuildContext`, `BuildResult`, and
  metadata values.
- `module_bom.dfy`: module `ModuleBom`. The decoded report, the
  component-to-entry mapping and `Generate`.
- `build.dfy`: module `NodeModuleBuild`. The cache decision (`ObtainLayer`),
  `Build`, and lemmas about cache reuse, re-runs and the composition with
  `Generate`.

Behaviour worth stating up front:

- On a cache hit the layer metadata is kept exactly as found. It is rewritten
  only after a cache miss (build.go:45-62).
- Duplicate components are kept: there is one entry per reported component
  (module_bom.go:76-91).
- Errors from `Resolve`, `Layers.Get`, `Reset`, `Deliver` and the module
  generator are returned unchanged. Only `Generate` wraps its errors, with one
  fixed context per stage.

## Model

| member | source | states |
|---|---|---|
| `NodeModuleBuild.Build` | build.go:28-84 | The first call is always `Resolve(<CNB path>/buildpack.toml, "cyclonedx-node-module", "*", stack)`. A resolve failure returns the empty result and that error and makes no other call. Any error comes with the empty `BuildResult`, so there is never a partial result. After the layer is settled, `GenerateBillOfMaterials` is called with exactly the resolved dependency, then the module generator with the working directory. A module generator error is returned as is. On success there is exactly one layer: the settled one with `Cache` set. It records the resolved checksum. The build BOM is the tool BOM followed by the module BOM, and the launch BOM is the module BOM. At most one delivery happens. |
| `NodeModuleBuild.ObtainLayer` | build.go:39-62 | The layer `cyclonedx-node-module` is fetched first, and a fetch error is returned unchanged. On a hit (recorded `dependency-sha` is a string equal to the dependency's SHA-256) nothing is reset or delivered and the layer is returned as found. On a miss the fetched layer is reset. A reset error is returned with no delivery. Otherwise `Deliver(dependency, CNB path, reset layer's path, platform path)` is called once, and its error is returned. Failing that, the reset layer comes back with metadata exactly `{dependency-sha: SHA-256, built_at: now}`. A delivery happens exactly when the layer missed and the reset succeeded. Any layer returned records the dependency's checksum. |
| `NodeModuleBuild.CacheHitReusesLayer` | build.go:44-64 | Over the whole build, a cache hit makes no reset or delivery call. A successful hit build returns the fetched layer with its metadata unchanged and `Cache` set. |
| `NodeModuleBuild.CacheMissReprovisions` | build.go:29-61 | On a miss with a successful reset, the first four calls are resolve, get layer, reset, then deliver into the reset layer's path with the CNB and platform paths. There is exactly one delivery. A successful build records exactly the new checksum and the build time. |
| `NodeModuleBuild.RerunIsCacheHit` | build.go:44-64 | Suppose a second build resolves the same dependency and finds the layer a successful first build returned. It resets and delivers nothing. If it succeeds, it returns that same layer, with the same metadata. |
| `NodeModuleBuild.BuildWithModuleBom` | build.go:69-83 | When the module generator's stages all succeed, the launch BOM has one entry per reported component, in report order, each the component's entry. The build BOM is the tool BOM followed by the launch BOM. |
| `NodeModuleBuild.EmptyReportBuild` | build.go:69-83 | A report with zero components gives an empty launch BOM, and a build BOM equal to the tool BOM. |
| `NodeModuleBuild.FreshLayerScenario` | build_test.go:101-202 | The unit test's scenario: a layer with no metadata is reset and delivered into. The result holds that layer with `Cache` set and metadata `{dependency-sha, built_at}`. The build BOM is `[tool, leftpad]` and the launch BOM `[leftpad]`. The calls are exactly the six expected, with the expected arguments. |
| `NodeModuleBuild.CachedSha` | build.go:44 | The recorded checksum exists exactly when the `dependency-sha` key is present and holds a string, and it is that string. |
| `NodeModuleBuild.CacheHit` | build.go:44-45 | The layer is reused exactly when its `dependency-sha` metadata is the string equal to the dependency's SHA-256. An absent key or a value that is not a string is always a miss. |
| `NodeModuleBuild.FreshMetadata` | build.go:58-61 | The metadata written after a miss has exactly the keys `dependency-sha` and `built_at`. It records the dependency's checksum, so a later build resolving the same checksum is a hit, and `built_at` holds the build time. |
| `ModuleBom.Generate` | module_bom.go:33-99 | The first step always runs the tool with args `["-o", "bom.json"]` in the working directory. There is no error exactly when no stage fails. Any error comes with no entries. When stage *s* is the first of run → open → decode → remove to fail, the error wraps that stage's cause under its own message. The calls made are then exactly the stages up to *s*, so the report is never opened after a run failure. On success the entries are the mapped components and all four steps ran, the last removing `<working dir>/bom.json`. |
| `ModuleBom.MapComponents` | module_bom.go:75-91 | There is one entry per component: same count, same order, no de-duplication. Entry *i* is the entry of component *i*. |
| `ModuleBom.ToEntry` | module_bom.go:77-89 | An entry's metadata has exactly the keys `version`, `purl` and `licenses`. Reading the entry back gives the component's name, version and purl, and its license IDs in order. |
| `ModuleBom.LicenseIds` | module_bom.go:85-89 | There is one license ID per license object, in the component's order, and none when the component lists no licenses. |
| `ModuleBom.ReadEntryOfComponent` | module_bom.go:77-89 | An entry reads back as the component's name, its `version` and `purl` strings, and its `licenses` list. Each license is the component's license ID at the same position. |
| `ModuleBom.MapComponentsAppend` | module_bom.go:76-91 | Mapping commutes with concatenating reports. The entries of `a + b` are the entries of `a` followed by those of `b`. |
| `ModuleBom.ErrorNamesItsStage` | module_bom.go:60-96 | The error of a failed generation is a wrapped error that keeps the failing call's error on its unwrap chain. Its context names exactly one stage, the one that failed. |
| `ModuleBom.EmptyReport` | module_bom.go:75-98 | A report with no components gives no entries and no error, and the report is still removed. |
| `ModuleBom.LeftpadScenario` | module_bom.go:76-90 | A single `leftpad` component with an MIT license maps to the single entry `{name: leftpad, version: 1.0, purl: pkg:npm/leftpad@1.0, licenses: [MIT]}`. |
| `Packit.JoinPath` | build.go:30 | The joined path ends with the file name: `<CNB path>/buildpack.toml` here, and `<working dir>/bom.json` at module_bom.go:64 and module_bom.go:93. |

## Left out

- JSON decoding of `bom.json` (module_bom.go:70) is done by Go's `encoding/json`. The model takes the decoded report, or a decode error, as an input.
- Process execution, `os.Open`, `os.Remove`, file closing, logging and `clock.Measure` timing are effects with no result the core uses. They appear only as success/error outcomes, and closing, logging and timing not at all. The tool's captured output buffer is not modelled.
- The `PATH` update (build.go:66-67) is a process-wide environment change that cannot fail. It is not modelled.
- `Layers.Get` and `Layer.Reset` come from the packit library, and `Resolve`, `Deliver` and `GenerateBillOfMaterials` from its postal service. They are inputs. The model does not assume that `Reset` keeps the path or clears the metadata. It only uses the layer `Reset` returns.
- `clock.Now().Format(time.RFC3339Nano)` is an input string. Time formatting is not modelled.
- `filepath.Join` is modelled as `dir + "/" + name`, or `name` when `dir` is empty. Path cleaning is not modelled.
- Layer environment tables (`SharedEnv`, `BuildEnv`, `LaunchEnv`, `ProcessLaunchEnv`) are never touched by the core and are not part of `Layer`.
- Go's nil slice and empty slice are both the empty sequence, for `entries` and for `licenses`.
- run/main.go passes `nil` as the module BOM generator. A real build would then fail on the nil interface at build.go:70. The model treats the generator as an input and does not model that wiring, and `Detect` is not part of this model.
- init_test.go and integration/init_test.go are test harness code with no logic.
