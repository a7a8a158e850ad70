/** The Gin framework layer (src/generators/framework/gin/parameters.rs):
    a project layer, a Go layer and the server and middleware switches. */
module GinParameters {
  import opened Wrappers
  import opened Strings
  import opened TemplateContext
  import opened CoreParameters
  import ProjectParameters
  import StringUtils
  import GoParameters

  datatype GinParams = GinParams(
    project: ProjectParameters.ProjectParams,
    go: GoParameters.GoParams,
    host: string,
    port: U16,
    enableSwagger: bool,
    enableCors: bool,
    enableLogging: bool,
    enableRecovery: bool,
    enableRateLimit: bool,
    enableJwt: bool,
    enableDatabase: bool,
    databaseType: Option<string>,
    enableRedis: bool,
    enablePrecommit: bool)

  /** `Default` (and `new`): local server on 8080, the documentation,
      CORS, logging, recovery and pre-commit switches on, the rest off. */
  function Default(): (p: GinParams)
    ensures p.project == ProjectParameters.Default() && p.go == GoParameters.Default()
    ensures p.host == "localhost" && p.port == 8080
    ensures p.enableSwagger && p.enableCors && p.enableLogging && p.enableRecovery && p.enablePrecommit
    ensures !p.enableRateLimit && !p.enableJwt && !p.enableDatabase && !p.enableRedis && p.databaseType.None?
  {
    GinParams(ProjectParameters.Default(), GoParameters.Default(), "localhost", 8080,
              true, true, true, true, false, false, false, None, false, true)
  }

  /** `from_project_and_go`: the two layers given, the defaults elsewhere. */
  function FromProjectAndGo(project: ProjectParameters.ProjectParams, go: GoParameters.GoParams): (p: GinParams)
    ensures p.project == project && p.go == go
    ensures p.(project := Default().project, go := Default().go) == Default()
  {
    Default().(project := project, go := go)
  }

  /** `validate`, checked in order: the project layer, the Go layer (whose
      verdict `goCheck` stands for), the host, the port, and the database
      type when the database is on. */
  function Validate(p: GinParams, goCheck: Outcome<string>): (r: Outcome<string>)
    ensures r.Pass? <==> ProjectParameters.Validate(p.project).Pass? && goCheck.Pass?
                         && p.host != "" && p.port >= 1024 && !(p.enableDatabase && p.databaseType.None?)
    ensures ProjectParameters.Validate(p.project).Fail? ==> r == ProjectParameters.Validate(p.project)
    ensures ProjectParameters.Validate(p.project).Pass? && goCheck.Fail? ==> r == goCheck
    ensures ProjectParameters.Validate(p.project).Pass? && goCheck.Pass? && p.host == ""
            ==> r == Fail("Host cannot be empty")
    ensures ProjectParameters.Validate(p.project).Pass? && goCheck.Pass? && p.host != "" && p.port < 1024
            ==> r == Fail("Port number should be >= 1024")
    ensures r == Fail("Database type must be specified when database is enabled")
            <== ProjectParameters.Validate(p.project).Pass? && goCheck.Pass? && p.host != "" && p.port >= 1024
                && p.enableDatabase && p.databaseType.None?
  {
    var project := ProjectParameters.Validate(p.project);
    if project.Fail? then project
    else if goCheck.Fail? then goCheck
    else
      var host := ValidateHost(p.host);
      if host.Fail? then host
      else
        var port := ValidatePort(p.port);
        if port.Fail? then port
        else if p.enableDatabase && p.databaseType.None? then
          Fail("Database type must be specified when database is enabled")
        else Pass
  }

  /** The entries the Gin layer inserts, in the order of the source:
      "database_type" only when a type is set, "server_addr" last. */
  function Entries(p: GinParams): Inserts
  {
    [("host", Str(p.host)), ("port", Num(p.port)),
     ("enable_swagger", Bool(p.enableSwagger)), ("enable_cors", Bool(p.enableCors)),
     ("enable_logging", Bool(p.enableLogging)), ("enable_recovery", Bool(p.enableRecovery)),
     ("enable_rate_limit", Bool(p.enableRateLimit)), ("enable_jwt", Bool(p.enableJwt)),
     ("enable_database", Bool(p.enableDatabase)), ("enable_redis", Bool(p.enableRedis)),
     ("enable_precommit", Bool(p.enablePrecommit))]
    + (if p.databaseType.Some? then [("database_type", Str(p.databaseType.value))] else [])
    + [("server_addr", Str(p.host + ":" + Decimal(p.port)))]
  }

  /** The keys the Gin layer sets for `p`. */
  function Keys(p: GinParams): set<string>
  {
    KeysOf(Entries(p))
  }

  /** The layers below the Gin entries: a fresh map extended with the
      project context, then with the Go context (`goContext`, what the Go
      layer produces). */
  function Lower(p: GinParams, goContext: Context, year: int): Context
  {
    Extend(Extend(map[], ProjectParameters.Context(p.project, year)), goContext)
  }

  /** `to_template_context`: the Gin entries inserted one by one over the
      lower layers. */
  function Context(p: GinParams, goContext: Context, year: int): Context
  {
    InsertAll(Lower(p, goContext, year), Entries(p))
  }

  /** Which layer a key of the Gin context comes from: a Gin key is always
      there and holds the Gin entry, any other key holds the Go value if the
      Go layer has it and the project value otherwise. */
  lemma ContextLayers(p: GinParams, goContext: Context, year: int, k: string)
    ensures k in Keys(p) ==> k in Context(p, goContext, year)
    ensures forall i :: 0 <= i < |Entries(p)| && Entries(p)[i].0 == k ==> Context(p, goContext, year)[k] == Entries(p)[i].1
    ensures k !in Keys(p) ==>
              (k in Context(p, goContext, year) <==> k in goContext || k in ProjectParameters.Context(p.project, year))
    ensures k !in Keys(p) && k in goContext ==> Context(p, goContext, year)[k] == goContext[k]
    ensures k !in Keys(p) && k !in goContext && k in ProjectParameters.Context(p.project, year)
            ==> Context(p, goContext, year)[k] == ProjectParameters.Context(p.project, year)[k]
  {
    forall i | 0 <= i < |Entries(p)| && Entries(p)[i].0 == k
      ensures Context(p, goContext, year)[k] == Entries(p)[i].1
    {
      GinKeysWin(p, goContext, year, i);
    }
    if k !in Keys(p) {
      InsertAllKeeps(Lower(p, goContext, year), Entries(p), k);
    }
  }

  /** No two Gin entries name the same key. */
  lemma EntriesDistinct(p: GinParams)
    ensures forall i, j :: 0 <= i < j < |Entries(p)| ==> Entries(p)[i].0 != Entries(p)[j].0
  {
  }

  /** Gin keys override both lower layers: every Gin entry is the value of
      its key in the finished context. */
  lemma GinKeysWin(p: GinParams, goContext: Context, year: int, i: nat)
    requires i < |Entries(p)|
    ensures Entries(p)[i].0 in Context(p, goContext, year)
    ensures Context(p, goContext, year)[Entries(p)[i].0] == Entries(p)[i].1
  {
    EntriesDistinct(p);
    InsertAllLast(Lower(p, goContext, year), Entries(p), i);
  }

  /** The nine switches reach the templates as the Gin layer's booleans,
      whatever the lower layers hold under the same keys. */
  lemma Switches(p: GinParams, goContext: Context, year: int)
    ensures var c := Context(p, goContext, year);
            && "enable_swagger" in c && c["enable_swagger"] == Bool(p.enableSwagger)
            && "enable_cors" in c && c["enable_cors"] == Bool(p.enableCors)
            && "enable_logging" in c && c["enable_logging"] == Bool(p.enableLogging)
            && "enable_recovery" in c && c["enable_recovery"] == Bool(p.enableRecovery)
            && "enable_rate_limit" in c && c["enable_rate_limit"] == Bool(p.enableRateLimit)
            && "enable_jwt" in c && c["enable_jwt"] == Bool(p.enableJwt)
            && "enable_database" in c && c["enable_database"] == Bool(p.enableDatabase)
            && "enable_redis" in c && c["enable_redis"] == Bool(p.enableRedis)
            && "enable_precommit" in c && c["enable_precommit"] == Bool(p.enablePrecommit)
  {
    var es := Entries(p);
    assert es[..11] == [("host", Str(p.host)), ("port", Num(p.port)),
     ("enable_swagger", Bool(p.enableSwagger)), ("enable_cors", Bool(p.enableCors)),
     ("enable_logging", Bool(p.enableLogging)), ("enable_recovery", Bool(p.enableRecovery)),
     ("enable_rate_limit", Bool(p.enableRateLimit)), ("enable_jwt", Bool(p.enableJwt)),
     ("enable_database", Bool(p.enableDatabase)), ("enable_redis", Bool(p.enableRedis)),
     ("enable_precommit", Bool(p.enablePrecommit))];
    GinKeysWin(p, goContext, year, 2);
    GinKeysWin(p, goContext, year, 3);
    GinKeysWin(p, goContext, year, 4);
    GinKeysWin(p, goContext, year, 5);
    GinKeysWin(p, goContext, year, 6);
    GinKeysWin(p, goContext, year, 7);
    GinKeysWin(p, goContext, year, 8);
    GinKeysWin(p, goContext, year, 9);
    GinKeysWin(p, goContext, year, 10);
  }

  lemma InsertHostPort(base: Context, p: GinParams)
    ensures var c := InsertAll(base, Entries(p));
            && "host" in c && c["host"] == Str(p.host)
            && "port" in c && c["port"] == Num(p.port)
  {
    var es := Entries(p);
    assert es[0] == ("host", Str(p.host)) && es[1] == ("port", Num(p.port));
    assert forall j :: 0 < j < |es| ==> es[j].0 != es[0].0;
    assert forall j :: 1 < j < |es| ==> es[j].0 != es[1].0;
    InsertAllLast(base, es, 0);
    InsertAllLast(base, es, 1);
  }

  /** The host and port entries are the Gin fields. */
  lemma HostAndPort(p: GinParams, goContext: Context, year: int)
    ensures var c := Context(p, goContext, year);
            && "host" in c && c["host"] == Str(p.host)
            && "port" in c && c["port"] == Num(p.port)
  {
    InsertHostPort(Lower(p, goContext, year), p);
  }

  lemma InsertServerAddr(base: Context, p: GinParams)
    ensures var c := InsertAll(base, Entries(p));
            "server_addr" in c && c["server_addr"] == Str(p.host + ":" + Decimal(p.port))
  {
    var es := Entries(p);
    assert es[|es| - 1] == ("server_addr", Str(p.host + ":" + Decimal(p.port)));
    InsertAllLast(base, es, |es| - 1);
  }

  /** "server_addr" is the host, a colon and the port in decimal, whatever
      the lower layers hold. */
  lemma ServerAddr(p: GinParams, goContext: Context, year: int)
    ensures var c := Context(p, goContext, year);
            "server_addr" in c && c["server_addr"] == Str(p.host + ":" + Decimal(p.port))
  {
    InsertServerAddr(Lower(p, goContext, year), p);
  }

  lemma InsertDatabaseType(base: Context, p: GinParams)
    ensures "database_type" in Keys(p) <==> p.databaseType.Some?
    ensures var c := InsertAll(base, Entries(p));
            p.databaseType.Some? ==> "database_type" in c && c["database_type"] == Str(p.databaseType.value)
  {
    var es := Entries(p);
    if p.databaseType.Some? {
      assert es[11] == ("database_type", Str(p.databaseType.value));
      assert forall j :: 11 < j < |es| ==> es[j].0 != es[11].0;
      InsertAllLast(base, es, 11);
    } else {
      assert forall j :: 0 <= j < |es| ==> es[j].0 != "database_type";
    }
  }

  /** "database_type" is a Gin key exactly when a type is set, and then
      holds it. */
  lemma DatabaseType(p: GinParams, goContext: Context, year: int)
    ensures "database_type" in Keys(p) <==> p.databaseType.Some?
    ensures var c := Context(p, goContext, year);
            p.databaseType.Some? ==> "database_type" in c && c["database_type"] == Str(p.databaseType.value)
  {
    InsertDatabaseType(Lower(p, goContext, year), p);
  }

  /** The project's name variants reach the templates unless the Go layer
      supplies the same keys. */
  lemma ProjectNameReachesTemplates(p: GinParams, goContext: Context, year: int)
    requires "project_name" !in goContext && "project_name_pascal" !in goContext
    ensures var c := Context(p, goContext, year);
            && "project_name" in c && c["project_name"] == Str(p.project.name)
            && "project_name_pascal" in c && c["project_name_pascal"] == Str(StringUtils.Pascal(p.project.name))
  {
    var es := Entries(p);
    assert forall j :: 0 <= j < |es| ==> es[j].0 != "project_name" && es[j].0 != "project_name_pascal";
    var pc := ProjectParameters.Context(p.project, year);
    assert "project_name" in pc && "project_name_pascal" in pc;
    InsertAllKeeps(Lower(p, goContext, year), es, "project_name");
    InsertAllKeeps(Lower(p, goContext, year), es, "project_name_pascal");
  }

  // -------------------------------------------------------------- builders

  function WithProject(p: GinParams, project: ProjectParameters.ProjectParams): (r: GinParams)
    ensures r.project == project && r.(project := p.project) == p
  {
    p.(project := project)
  }

  function WithGo(p: GinParams, go: GoParameters.GoParams): (r: GinParams)
    ensures r.go == go && r.(go := p.go) == p
  {
    p.(go := go)
  }

  function WithServer(p: GinParams, host: string, port: U16): (r: GinParams)
    ensures r.host == host && r.port == port && r.(host := p.host, port := p.port) == p
  {
    p.(host := host, port := port)
  }

  function WithSwagger(p: GinParams, enable: bool): (r: GinParams)
    ensures r.enableSwagger == enable && r.(enableSwagger := p.enableSwagger) == p
  {
    p.(enableSwagger := enable)
  }

  function WithCors(p: GinParams, enable: bool): (r: GinParams)
    ensures r.enableCors == enable && r.(enableCors := p.enableCors) == p
  {
    p.(enableCors := enable)
  }

  function WithJwt(p: GinParams, enable: bool): (r: GinParams)
    ensures r.enableJwt == enable && r.(enableJwt := p.enableJwt) == p
  {
    p.(enableJwt := enable)
  }

  /** `with_database`: switches the database on and names its type. */
  function WithDatabase(p: GinParams, dbType: string): (r: GinParams)
    ensures r.enableDatabase && r.databaseType == Some(dbType)
    ensures r.(enableDatabase := p.enableDatabase, databaseType := p.databaseType) == p
  {
    p.(enableDatabase := true, databaseType := Some(dbType))
  }

  function WithRedis(p: GinParams, enable: bool): (r: GinParams)
    ensures r.enableRedis == enable && r.(enableRedis := p.enableRedis) == p
  {
    p.(enableRedis := enable)
  }

  function WithRateLimit(p: GinParams, enable: bool): (r: GinParams)
    ensures r.enableRateLimit == enable && r.(enableRateLimit := p.enableRateLimit) == p
  {
    p.(enableRateLimit := enable)
  }

  function WithPrecommit(p: GinParams, enable: bool): (r: GinParams)
    ensures r.enablePrecommit == enable && r.(enablePrecommit := p.enablePrecommit) == p
  {
    p.(enablePrecommit := enable)
  }

  /** After `with_database` the database check cannot fail: validation then
      depends on the other checks only. */
  lemma WithDatabasePassesDatabaseCheck(p: GinParams, dbType: string, goCheck: Outcome<string>)
    ensures Validate(WithDatabase(p, dbType), goCheck).Pass?
        <==> ProjectParameters.Validate(p.project).Pass? && goCheck.Pass? && p.host != "" && p.port >= 1024
  {
  }

  /** Switching the database on without a type is refused even when every
      other check passes. */
  lemma DatabaseWithoutType(p: GinParams, goCheck: Outcome<string>)
    requires p.enableDatabase && p.databaseType.None?
    ensures Validate(p, goCheck).Fail?
  {
  }

  /** The defaults pass every check of their own once the project has a
      valid name and the Go layer passes. */
  lemma DefaultValidatesWithName(name: string, goCheck: Outcome<string>)
    requires ValidateProjectName(name).Pass? && goCheck.Pass?
    ensures Validate(WithProject(Default(), ProjectParameters.New(name)), goCheck).Pass?
  {
  }
}
