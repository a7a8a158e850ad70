/** The Tauri framework layer (src/generators/framework/tauri/parameters.rs):
    a base record, a project layer, a Rust layer and the desktop window,
    front end and tooling settings. */
module TauriParameters {
  import opened Wrappers
  import opened Strings
  import opened CoreParameters
  import BaseParameters
  import ProjectParameters
  import RustParameters
  import StringUtils

  datatype TauriParams = TauriParams(
    base: BaseParameters.BaseParams,
    project: ProjectParameters.ProjectParams,
    rust: RustParameters.RustParams,
    frontendFramework: string,
    enableDarkMode: bool,
    enableSkeleton: bool,
    windowWidth: U32,
    windowHeight: U32,
    identifier: string,
    enableProtoGen: bool)

  /** The development server the Tauri defaults point at. */
  const DevHost: string := "localhost"
  const DevPort: U16 := 1420

  /** The settings every constructor shares: a Vue front end, dark mode and
      skeleton screens on, an 800 by 600 window, proto-gen on. */
  predicate TauriDefaults(p: TauriParams)
  {
    && p.frontendFramework == "vue" && p.enableDarkMode && p.enableSkeleton
    && p.windowWidth == 800 && p.windowHeight == 600 && p.enableProtoGen
  }

  /** `Default` (and `new`): the shared settings, the example identifier
      and a base record pointing at the development server. */
  function Default(): (p: TauriParams)
    ensures TauriDefaults(p) && p.identifier == "com.example.app"
    ensures p.base.defaultHost == Some(DevHost) && p.base.defaultPort == Some(DevPort)
    ensures p.project == ProjectParameters.Default() && p.rust == RustParameters.Default()
  {
    TauriParams(BaseParameters.Default().(defaultHost := Some(DevHost), defaultPort := Some(DevPort)),
                ProjectParameters.Default(), RustParameters.Default(),
                "vue", true, true, 800, 600, "com.example.app", true)
  }

  /** `from_base`: the record kept as given, everything else as `Default`. */
  function FromBase(base: BaseParameters.BaseParams): (p: TauriParams)
    ensures p.base == base && p.(base := Default().base) == Default()
  {
    Default().(base := base)
  }

  /** The application identifier derived from a project name: the name
      lower-cased with every '-' and '_' removed, between "com." and ".app". */
  function Identifier(projectName: string): (r: string)
    ensures |r| >= 8 && StartsWith(r, "com.") && EndsWith(r, ".app")
    ensures forall i :: 4 <= i < |r| - 4 ==> r[i] != '-' && r[i] != '_' && !IsUpper(r[i])
  {
    var lower := ToLower(projectName);
    var middle := RemoveChars(lower, {'-', '_'});
    assert forall i :: 0 <= i < |middle| ==> !IsUpper(middle[i]) by {
      forall i | 0 <= i < |middle| ensures !IsUpper(middle[i]) {
        var j :| 0 <= j < |lower| && lower[j] == middle[i];
      }
    }
    var r := "com." + middle + ".app";
    assert r[..4] == "com." && r[|r| - 4..] == ".app";
    assert forall i :: 4 <= i < |r| - 4 ==> r[i] == middle[i - 4];
    r
  }

  /** A name that is already lower-case and free of separators is the
      identifier's middle part as it is. */
  lemma IdentifierOfPlainName(projectName: string)
    requires NoUpper(projectName) && NoChar(projectName, '-') && NoChar(projectName, '_')
    ensures Identifier(projectName) == "com." + projectName + ".app"
  {
    assert ToLower(projectName) == projectName;
    RemoveCharsNone(projectName, {'-', '_'});
  }

  lemma {:induction false} RemoveCharsNone(s: string, cs: set<char>)
    requires forall i :: 0 <= i < |s| ==> s[i] !in cs
    ensures RemoveChars(s, cs) == s
  {
    if s != [] {
      RemoveCharsNone(s[1..], cs);
    }
  }

  /** Separators never reach the identifier: removing one from the name
      leaves the identifier unchanged. */
  lemma IdentifierDropsSeparator(a: string, b: string, sep: char)
    requires sep == '-' || sep == '_'
    ensures Identifier(a + [sep] + b) == Identifier(a + b)
  {
    var cs := {'-', '_'};
    calc {
      RemoveChars(ToLower(a + [sep] + b), cs);
    == { ToLowerAppend(a + [sep], b); ToLowerAppend(a, [sep]); }
      RemoveChars(ToLower(a) + ToLower([sep]) + ToLower(b), cs);
    == { assert ToLower([sep]) == [sep]; }
      RemoveChars(ToLower(a) + [sep] + ToLower(b), cs);
    == { StringUtils.RemoveCharsAppend(ToLower(a) + [sep], ToLower(b), cs);
         StringUtils.RemoveCharsAppend(ToLower(a), [sep], cs); }
      RemoveChars(ToLower(a), cs) + RemoveChars([sep], cs) + RemoveChars(ToLower(b), cs);
    == { assert RemoveChars([sep], cs) == []; }
      RemoveChars(ToLower(a), cs) + RemoveChars(ToLower(b), cs);
    == { StringUtils.RemoveCharsAppend(ToLower(a), ToLower(b), cs); ToLowerAppend(a, b); }
      RemoveChars(ToLower(a + b), cs);
    }
  }

  /** Case does not matter: a name and its lower-case form have the same
      identifier. With `IdentifierDropsSeparator` and
      `IdentifierOfPlainName` this fixes the identifier of every name:
      "My-App" has the identifier of "my-app", that of "myapp", which is
      "com.myapp.app". */
  lemma IdentifierIgnoresCase(projectName: string)
    ensures Identifier(projectName) == Identifier(ToLower(projectName))
  {
    ToLowerIdempotent(projectName);
  }

  /** `from_project_name`: the base record of the name pointing at the
      development server, the project and Rust layers of the name, the
      derived identifier, and the shared settings. */
  function FromProjectName(projectName: string): (p: TauriParams)
    ensures p.base == BaseParameters.New(projectName).(defaultHost := Some(DevHost), defaultPort := Some(DevPort))
    ensures p.project == ProjectParameters.New(projectName) && p.rust == RustParameters.New(projectName)
    ensures p.identifier == Identifier(projectName) && TauriDefaults(p)
  {
    TauriParams(BaseParameters.New(projectName).(defaultHost := Some(DevHost), defaultPort := Some(DevPort)),
                ProjectParameters.New(projectName), RustParameters.New(projectName),
                "vue", true, true, 800, 600, Identifier(projectName), true)
  }

  // ----------------------------------------------------- builders, getters

  function WithFrontendFramework(p: TauriParams, framework: string): (r: TauriParams)
    ensures r.frontendFramework == framework && r.(frontendFramework := p.frontendFramework) == p
  {
    p.(frontendFramework := framework)
  }

  function WithDarkMode(p: TauriParams, enable: bool): (r: TauriParams)
    ensures r.enableDarkMode == enable && r.(enableDarkMode := p.enableDarkMode) == p
  {
    p.(enableDarkMode := enable)
  }

  function WithSkeleton(p: TauriParams, enable: bool): (r: TauriParams)
    ensures r.enableSkeleton == enable && r.(enableSkeleton := p.enableSkeleton) == p
  {
    p.(enableSkeleton := enable)
  }

  function WithWindowSize(p: TauriParams, width: U32, height: U32): (r: TauriParams)
    ensures r.windowWidth == width && r.windowHeight == height
    ensures r.(windowWidth := p.windowWidth, windowHeight := p.windowHeight) == p
  {
    p.(windowWidth := width, windowHeight := height)
  }

  function WithIdentifier(p: TauriParams, identifier: string): (r: TauriParams)
    ensures r.identifier == identifier && r.(identifier := p.identifier) == p
  {
    p.(identifier := identifier)
  }

  function WithProject(p: TauriParams, project: ProjectParameters.ProjectParams): (r: TauriParams)
    ensures r.project == project && r.(project := p.project) == p
  {
    p.(project := project)
  }

  function WithRust(p: TauriParams, rust: RustParameters.RustParams): (r: TauriParams)
    ensures r.rust == rust && r.(rust := p.rust) == p
  {
    p.(rust := rust)
  }

  /** `with_precommit`: the switch lives in the base record. */
  function WithPrecommit(p: TauriParams, enable: bool): (r: TauriParams)
    ensures EnablePrecommit(r) == enable
    ensures r.base.(enablePrecommit := p.base.enablePrecommit) == p.base && r.(base := p.base) == p
  {
    p.(base := p.base.(enablePrecommit := enable))
  }

  function EnablePrecommit(p: TauriParams): bool { p.base.enablePrecommit }

  function WithProtoGen(p: TauriParams, enable: bool): (r: TauriParams)
    ensures EnableProtoGen(r) == enable && r.(enableProtoGen := p.enableProtoGen) == p
  {
    p.(enableProtoGen := enable)
  }

  function EnableProtoGen(p: TauriParams): bool { p.enableProtoGen }
}
