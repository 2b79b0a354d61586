/**
 The module BOM generator: runs the `cyclonedx-bom` tool in the working
 directory, reads the `bom.json` report it writes, turns each component of
 the report into a BOM entry and removes the report.

 Running the tool, opening, decoding and removing the file are calls the
 model cannot see; their outcomes are inputs (`Oracles`), and `Generate`
 records the calls it makes as a sequence of `Step`s.
 */
module ModuleBom {
  import opened Errors
  import opened Packit

  /** The decoded `bom.json` report: `{components: [{name, purl, version,
      licenses: [{license: {id}}]}]}`. */
  datatype LicenseRef = LicenseRef(id: string)
  datatype LicenseChoice = LicenseChoice(license: LicenseRef)
  datatype Component = Component(name: string, purl: string, version: string, licenses: seq<LicenseChoice>)
  datatype Report = Report(components: seq<Component>)

  /** The report file the tool writes and the arguments that ask it to. */
  const ReportFile := "bom.json"
  const ToolArgs: seq<string> := ["-o", "bom.json"]

  /** `pexec.Execution` without its output buffers. */
  datatype Execution = Execution(args: seq<string>, dir: string)

  /** The four stages of `Generate`, in the order they run. */
  datatype Stage = Run | OpenReport | DecodeReport | RemoveReport

  /** A call made by `Generate`. */
  datatype Step = Execute(execution: Execution) | Open(path: string) | Decode | Remove(path: string)

  /** Outcomes of the external calls. */
  datatype Oracles = Oracles(execute: Outcome, open: Outcome, decode: Result<Report>, remove: Outcome)

  /** What `Generate` returns, and the calls it made. */
  datatype Output = Output(entries: seq<BOMEntry>, err: Option<Error>, steps: seq<Step>)

  function Index(s: Stage): nat
  {
    match s
    case Run => 0
    case OpenReport => 1
    case DecodeReport => 2
    case RemoveReport => 3
  }

  /** The context each stage puts in front of the error it wraps. */
  function Context(s: Stage): string
  {
    match s
    case Run => "failed to run cyclonedx-bom"
    case OpenReport => "failed to open bom.json"
    case DecodeReport => "failed to decode bom.json"
    case RemoveReport => "failed to remove bom.json"
  }

  /** Every call of a run in which no stage fails, in order. */
  function Pipeline(workingDir: string): seq<Step>
  {
    var report := JoinPath(workingDir, ReportFile);
    [Execute(Execution(ToolArgs, workingDir)), Open(report), Decode, Remove(report)]
  }

  predicate Fails(o: Oracles, s: Stage)
  {
    match s
    case Run => o.execute.Fail?
    case OpenReport => o.open.Fail?
    case DecodeReport => o.decode.Err?
    case RemoveReport => o.remove.Fail?
  }

  /** The error the external call of a failing stage returned. */
  function FailureOf(o: Oracles, s: Stage): Error
    requires Fails(o, s)
  {
    match s
    case Run => o.execute.error
    case OpenReport => o.open.error
    case DecodeReport => o.decode.error
    case RemoveReport => o.remove.error
  }

  /** `s` fails and every stage before it succeeds. */
  predicate FirstToFail(o: Oracles, s: Stage)
  {
    Fails(o, s) && forall t :: Index(t) < Index(s) ==> !Fails(o, t)
  }

  /** The license IDs of a component, in the order the report lists them. */
  function LicenseIds(ls: seq<LicenseChoice>): (ids: seq<string>)
    ensures |ids| == |ls|
    ensures forall k :: 0 <= k < |ls| ==> ids[k] == ls[k].license.id
  {
    if ls == [] then [] else LicenseIds(ls[..|ls| - 1]) + [ls[|ls| - 1].license.id]
  }

  /** The BOM entry for one component: its name, and metadata holding only
      its version, its purl and its license IDs. */
  function ToEntry(c: Component): (e: BOMEntry)
    ensures e.metadata.Keys == {"version", "purl", "licenses"}
    ensures ReadEntry(e) == Some(EntryFields(c.name, c.version, c.purl, LicenseIds(c.licenses)))
  {
    BOMEntry(c.name, map["version" := Str(c.version), "purl" := Str(c.purl), "licenses" := Strs(LicenseIds(c.licenses))])
  }

  /** One entry per component, in the report's order, duplicates kept. */
  function MapComponents(cs: seq<Component>): (es: seq<BOMEntry>)
    ensures |es| == |cs|
    ensures forall i :: 0 <= i < |cs| ==> es[i] == ToEntry(cs[i])
  {
    if cs == [] then [] else MapComponents(cs[..|cs| - 1]) + [ToEntry(cs[|cs| - 1])]
  }

  /** `ModuleBOM.Generate(workingDir)`. */
  function Generate(workingDir: string, o: Oracles): (out: Output)
    ensures |out.steps| >= 1 && out.steps[0] == Execute(Execution(ToolArgs, workingDir))
    ensures out.err.None? <==> forall s :: !Fails(o, s)
    ensures out.err.Some? ==> out.entries == []
    ensures forall s :: FirstToFail(o, s) ==>
      out == Output([], Some(Wrapped(Context(s), FailureOf(o, s))), Pipeline(workingDir)[..Index(s) + 1])
    ensures out.err.None? ==>
      o.decode.Ok? && out.entries == MapComponents(o.decode.value.components) && out.steps == Pipeline(workingDir)
  {
    var steps := Pipeline(workingDir);
    if o.execute.Fail? then
      assert Fails(o, Run);
      Output([], Some(Wrapped(Context(Run), o.execute.error)), steps[..1])
    else if o.open.Fail? then
      assert Fails(o, OpenReport);
      Output([], Some(Wrapped(Context(OpenReport), o.open.error)), steps[..2])
    else if o.decode.Err? then
      assert Fails(o, DecodeReport);
      Output([], Some(Wrapped(Context(DecodeReport), o.decode.error)), steps[..3])
    else
      var entries := MapComponents(o.decode.value.components);
      if o.remove.Fail? then
        assert Fails(o, RemoveReport);
        Output([], Some(Wrapped(Context(RemoveReport), o.remove.error)), steps)
      else
        Output(entries, None, steps)
  }

  /** `Generate`'s answer as the single outcome its caller sees. */
  function AsResult(out: Output): (r: Result<seq<BOMEntry>>)
  {
    match out.err
    case Some(e) => Err(e)
    case None => Ok(out.entries)
  }

  /** The fields a consumer reads back from a BOM entry, when it has them. */
  datatype EntryFields = EntryFields(name: string, version: string, purl: string, licenses: seq<string>)

  function ReadEntry(e: BOMEntry): Option<EntryFields>
  {
    if && "version" in e.metadata && e.metadata["version"].Str?
       && "purl" in e.metadata && e.metadata["purl"].Str?
       && "licenses" in e.metadata && e.metadata["licenses"].Strs?
    then Some(EntryFields(e.name, e.metadata["version"].s, e.metadata["purl"].s, e.metadata["licenses"].items))
    else None
  }

  /** Reading an entry back gives the component's name, version, purl and
      license IDs, in the component's order. */
  lemma ReadEntryOfComponent(c: Component)
    ensures ReadEntry(ToEntry(c)).Some?
    ensures var f := ReadEntry(ToEntry(c)).value;
      && f.name == c.name && f.version == c.version && f.purl == c.purl
      && |f.licenses| == |c.licenses|
      && forall k :: 0 <= k < |c.licenses| ==> f.licenses[k] == c.licenses[k].license.id
  {
  }

  /** Mapping is compositional: the entries of a concatenation of reports
      are the concatenation of their entries. */
  lemma MapComponentsAppend(a: seq<Component>, b: seq<Component>)
    ensures MapComponents(a + b) == MapComponents(a) + MapComponents(b)
  {
  }

  /** The stage that fails is recoverable from the error: the four contexts
      are pairwise distinct, and the wrapped error keeps its cause. */
  lemma ErrorNamesItsStage(workingDir: string, o: Oracles, s: Stage)
    requires FirstToFail(o, s)
    ensures var out := Generate(workingDir, o);
      && out.err.Some? && out.err.value.Wrapped?
      && Is(out.err.value, FailureOf(o, s))
      && forall t :: Context(t) == out.err.value.context ==> t == s
  {
  }

  /** A report that lists no components gives no entries and no error, and
      the report is still removed. */
  lemma EmptyReport(workingDir: string, o: Oracles)
    requires o.execute.Pass? && o.open.Pass? && o.remove.Pass?
    requires o.decode == Ok(Report([]))
    ensures Generate(workingDir, o) == Output([], None, Pipeline(workingDir))
  {
  }

  /** A report with one `leftpad` component under an MIT license. */
  lemma LeftpadScenario(workingDir: string, o: Oracles)
    requires o.execute.Pass? && o.open.Pass? && o.remove.Pass?
    requires o.decode == Ok(Report([Component("leftpad", "pkg:npm/leftpad@1.0", "1.0", [LicenseChoice(LicenseRef("MIT"))])]))
    ensures Generate(workingDir, o).entries ==
      [BOMEntry("leftpad", map["version" := Str("1.0"), "purl" := Str("pkg:npm/leftpad@1.0"), "licenses" := Strs(["MIT"])])]
  {
    var ls := [LicenseChoice(LicenseRef("MIT"))];
    assert LicenseIds(ls) == ["MIT"];
  }
}
