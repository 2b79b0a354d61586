/**
 The parts of the packit buildpack library that the core reads and builds:
 dependencies, layers, bill-of-materials entries, the build context and the
 build result. Only the fields the core touches are modelled.
 */
module Packit {

  /** A value of a metadata table (Go `map[string]interface{}`), restricted
      to the shapes this buildpack writes or may read back from a layer's
      TOML file. */
  datatype MetaValue = Str(s: string) | Strs(items: seq<string>) | Num(n: int) | Flag(b: bool)

  type Metadata = map<string, MetaValue>

  /** `packit.BOMEntry`. */
  datatype BOMEntry = BOMEntry(name: string, metadata: Metadata)

  /** `postal.Dependency`, as returned by the dependency resolver. */
  datatype Dependency = Dependency(
    id: string,
    name: string,
    sha256: string,
    stacks: seq<string>,
    uri: string,
    version: string)

  /** `packit.Layer`, without its environment tables. */
  datatype Layer = Layer(
    name: string,
    path: string,
    build: bool,
    launch: bool,
    cache: bool,
    metadata: Metadata)

  /** The fields of `packit.BuildContext` that the build reads. */
  datatype BuildContext = BuildContext(
    cnbPath: string,
    stack: string,
    workingDir: string,
    platformPath: string,
    layersPath: string)

  /** `packit.BuildResult`: the layers, the build BOM and the launch BOM. */
  datatype BuildResult = BuildResult(layers: seq<Layer>, buildBom: seq<BOMEntry>, launchBom: seq<BOMEntry>)

  /** The zero value `packit.BuildResult{}`. */
  const EmptyResult := BuildResult([], [], [])

  /** `filepath.Join(dir, elem)` for a directory and one plain file name. */
  function JoinPath(dir: string, elem: string): (p: string)
    ensures |p| >= |elem| && p[|p| - |elem|..] == elem
  {
    if dir == [] then elem else dir + "/" + elem
  }
}
