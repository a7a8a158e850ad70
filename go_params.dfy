/** The Go language layer (src/generators/language/go/parameters.rs): a
    `BaseParams` with Go defaults, the module path and its derivation from
    a project name. */
module GoParameters {
  import opened Wrappers
  import opened Strings
  import opened BaseParameters

  datatype GoParams = GoParams(base: BaseParams)

  /** The Go settings every constructor applies. */
  predicate GoDefaults(b: BaseParams)
  {
    b.languageVersion == Some("1.21") && b.enableModules && !b.enableCgo && !b.enableVendor
  }

  function Default(): (p: GoParams)
    ensures GoDefaults(p.base) && p.base.moduleName.None?
  {
    GoParams(BaseParameters.Default().(languageVersion := Some("1.21"), enableModules := true,
                                       enableCgo := false, enableVendor := false))
  }

  /** `from_base`: wraps the record unchanged. */
  function FromBase(base: BaseParams): (p: GoParams)
    ensures p.base == base
  {
    GoParams(base)
  }

  /** `GoParams::new(module_name)`: the project name is the last path
      segment of the module, the module is kept whole. */
  function New(moduleName: string): (p: GoParams)
    ensures p.base.moduleName == Some(moduleName)
    ensures p.base.projectName == LastSegment(moduleName, '/')
    ensures GoDefaults(p.base)
  {
    var base := BaseParameters.New(LastSegment(moduleName, '/'));
    GoParams(base.(languageVersion := Some("1.21"), enableModules := true, enableCgo := false,
                   enableVendor := false, moduleName := Some(moduleName)))
  }

  /** The path prefix of inferred modules. */
  const ModulePrefix: string := "github.com/example/"

  /** `infer_module_name`: the lower-cased name with spaces turned into
      hyphens, under the example prefix. */
  function InferModuleName(projectName: string): (r: string)
    ensures StartsWith(r, ModulePrefix)
    ensures |r| == |ModulePrefix| + |projectName|
    ensures NoChar(r, ' ')
    ensures forall i :: 0 <= i < |projectName| ==>
              r[|ModulePrefix| + i] == (if projectName[i] == ' ' then '-' else ToLowerChar(projectName[i]))
  {
    var tail := ReplaceChar(ToLower(projectName), ' ', '-');
    assert (ModulePrefix + tail)[..|ModulePrefix|] == ModulePrefix;
    ModulePrefix + tail
  }

  /** `from_project_name`: `new` on the inferred module. */
  function FromProjectName(projectName: string): (p: GoParams)
    ensures p.base.moduleName == Some(InferModuleName(projectName))
    ensures GoDefaults(p.base)
  {
    New(InferModuleName(projectName))
  }

  /** A project name without '/' comes back as the project name of the
      Go layer, lower-cased and with hyphens for spaces. */
  lemma FromProjectNameKeepsName(projectName: string)
    requires NoChar(projectName, '/')
    ensures FromProjectName(projectName).base.projectName == ReplaceChar(ToLower(projectName), ' ', '-')
  {
    var tail := ReplaceChar(ToLower(projectName), ' ', '-');
    assert ModulePrefix == "github.com/example" + ['/'];
    assert InferModuleName(projectName) == "github.com/example" + ['/'] + tail;
    LastSegmentAfter("github.com/example", tail, '/');
  }

  /** A module path without '/' is its own project name. */
  lemma NewPlainModule(moduleName: string)
    requires NoChar(moduleName, '/')
    ensures New(moduleName).base.projectName == moduleName
  {
    LastSegmentOfPlain(moduleName, '/');
  }

  // ---------------------------------------------------- builders, accessors

  function WithVersion(p: GoParams, version: string): (r: GoParams)
    ensures Version(r) == Some(version) && r.base.(languageVersion := p.base.languageVersion) == p.base
  {
    GoParams(p.base.(languageVersion := Some(version)))
  }

  function WithCgo(p: GoParams, enable: bool): (r: GoParams)
    ensures EnableCgo(r) == enable && r.base.(enableCgo := p.base.enableCgo) == p.base
  {
    GoParams(p.base.(enableCgo := enable))
  }

  /** `with_build_tag`: appends at the end, keeping the earlier tags in order. */
  function WithBuildTag(p: GoParams, tag: string): (r: GoParams)
    ensures |BuildTags(r)| == |BuildTags(p)| + 1 && BuildTags(r)[..|BuildTags(p)|] == BuildTags(p)
    ensures BuildTags(r)[|BuildTags(p)|] == tag
    ensures r.base.(buildTags := p.base.buildTags) == p.base
  {
    GoParams(p.base.(buildTags := p.base.buildTags + [tag]))
  }

  function WithVendor(p: GoParams, enable: bool): (r: GoParams)
    ensures EnableVendor(r) == enable && r.base.(enableVendor := p.base.enableVendor) == p.base
  {
    GoParams(p.base.(enableVendor := enable))
  }

  function Version(p: GoParams): Option<string> { p.base.languageVersion }

  function ModuleName(p: GoParams): Option<string> { p.base.moduleName }

  function EnableModules(p: GoParams): bool { p.base.enableModules }

  function EnableCgo(p: GoParams): bool { p.base.enableCgo }

  function BuildTags(p: GoParams): seq<string> { p.base.buildTags }

  function EnableVendor(p: GoParams): bool { p.base.enableVendor }
}
