/** The Go-Zero framework layer (src/generators/framework/go_zero/parameters.rs):
    an optional project name and the api, rpc and admin switches. */
module GoZeroParameters {
  import opened Wrappers
  import opened TemplateContext
  import opened StringUtils

  datatype GoZeroParams = GoZeroParams(
    projectName: Option<string>,
    enableApi: bool,
    enableRpc: bool,
    enableAdmin: bool)

  /** `Default` (and `new`): no name, only the api switched on. */
  function Default(): (p: GoZeroParams)
    ensures p.projectName.None? && p.enableApi && !p.enableRpc && !p.enableAdmin
  {
    GoZeroParams(None, true, false, false)
  }

  /** `validate`: nothing is checked. */
  function Validate(p: GoZeroParams): (r: Outcome<string>)
    ensures r.Pass?
  {
    Pass
  }

  /** The inserts of `to_template_context` in the order of the source: the
      three switches, then the name and its variants when a name is set. */
  function Entries(p: GoZeroParams): Inserts
  {
    [("enable_api", Bool(p.enableApi)), ("enable_rpc", Bool(p.enableRpc)), ("enable_admin", Bool(p.enableAdmin))]
    + (if p.projectName.Some? then
         [("project_name", Str(p.projectName.value)),
          ("project_name_pascal", Str(Pascal(p.projectName.value))),
          ("project_name_snake", Str(Snake(p.projectName.value)))]
       else [])
  }

  /** `to_template_context`: the entries inserted into a fresh map. */
  function Context(p: GoZeroParams): Context
  {
    InsertAll(map[], Entries(p))
  }

  /** The switches are always in the context; the name keys are there
      exactly when a name is set; nothing else is. */
  lemma ContextKeys(p: GoZeroParams)
    ensures Context(p).Keys == {"enable_api", "enable_rpc", "enable_admin"}
              + (if p.projectName.Some? then {"project_name", "project_name_pascal", "project_name_snake"} else {})
  {
    var es := Entries(p);
    if p.projectName.Some? {
      forall k | k in KeysOf(es)
        ensures k in {"enable_api", "enable_rpc", "enable_admin", "project_name", "project_name_pascal", "project_name_snake"}
      {
        var i :| 0 <= i < |es| && es[i].0 == k;
      }
      assert es[0].0 == "enable_api" && es[1].0 == "enable_rpc" && es[2].0 == "enable_admin";
      assert es[3].0 == "project_name" && es[4].0 == "project_name_pascal" && es[5].0 == "project_name_snake";
    } else {
      forall k | k in KeysOf(es) ensures k in {"enable_api", "enable_rpc", "enable_admin"} {
        var i :| 0 <= i < |es| && es[i].0 == k;
      }
      assert es[0].0 == "enable_api" && es[1].0 == "enable_rpc" && es[2].0 == "enable_admin";
    }
  }

  /** The switches hold their fields. */
  lemma ContextSwitches(p: GoZeroParams)
    ensures var c := Context(p);
            && "enable_api" in c && c["enable_api"] == Bool(p.enableApi)
            && "enable_rpc" in c && c["enable_rpc"] == Bool(p.enableRpc)
            && "enable_admin" in c && c["enable_admin"] == Bool(p.enableAdmin)
  {
    var es := Entries(p);
    assert es[0].0 == "enable_api" && es[1].0 == "enable_rpc" && es[2].0 == "enable_admin";
    assert forall j :: 0 < j < |es| ==> es[j].0 != "enable_api";
    assert forall j :: 1 < j < |es| ==> es[j].0 != "enable_rpc";
    assert forall j :: 2 < j < |es| ==> es[j].0 != "enable_admin";
    InsertAllLast(map[], es, 0);
    InsertAllLast(map[], es, 1);
    InsertAllLast(map[], es, 2);
  }

  /** With a name set, the name keys hold it and its Pascal and snake forms. */
  lemma ContextName(p: GoZeroParams)
    requires p.projectName.Some?
    ensures var c := Context(p);
            && "project_name" in c && c["project_name"] == Str(p.projectName.value)
            && "project_name_pascal" in c && c["project_name_pascal"] == Str(Pascal(p.projectName.value))
            && "project_name_snake" in c && c["project_name_snake"] == Str(Snake(p.projectName.value))
  {
    var es := Entries(p);
    assert |es| == 6;
    assert es[3].0 == "project_name" && es[4].0 == "project_name_pascal" && es[5].0 == "project_name_snake";
    InsertAllLast(map[], es, 3);
    InsertAllLast(map[], es, 4);
    InsertAllLast(map[], es, 5);
  }

  // -------------------------------------------------------------- builders

  function WithProjectName(p: GoZeroParams, name: string): (r: GoZeroParams)
    ensures r.projectName == Some(name) && r.(projectName := p.projectName) == p
  {
    p.(projectName := Some(name))
  }

  function WithApi(p: GoZeroParams, enable: bool): (r: GoZeroParams)
    ensures r.enableApi == enable && r.(enableApi := p.enableApi) == p
  {
    p.(enableApi := enable)
  }

  function WithRpc(p: GoZeroParams, enable: bool): (r: GoZeroParams)
    ensures r.enableRpc == enable && r.(enableRpc := p.enableRpc) == p
  {
    p.(enableRpc := enable)
  }

  function WithAdmin(p: GoZeroParams, enable: bool): (r: GoZeroParams)
    ensures r.enableAdmin == enable && r.(enableAdmin := p.enableAdmin) == p
  {
    p.(enableAdmin := enable)
  }
}
