/** The directory-walking scaffold of src/scaffold.rs: a scope of template
    parameters, a walker that mirrors a template directory into an output
    directory (rendering ".tmpl" files and copying the rest), and the
    post-processing commands run afterwards, in order. */
module Scaffolding {
  import opened Wrappers
  import opened Strings
  import opened TemplateContext
  import opened TemplateEngine
  import opened TreeProcessor

  // ------------------------------------------------------ the parameter scope

  /** `ParameterScope`: the parameters handed to the renderer. */
  class ParameterScope {
    var params: Context

    constructor ()
      ensures params == map[]
    {
      params := map[];
    }

    /** `get` */
    function Get(key: string): (r: Option<Value>)
      reads this
      ensures r.Some? <==> key in params
      ensures r.Some? ==> r.value == params[key]
    {
      if key in params then Some(params[key]) else None
    }

    /** `get_all` */
    function GetAll(): Context
      reads this
    {
      params
    }

    /** `add`: inserts the key, overwriting an earlier value. */
    method Add(key: string, value: Value)
      modifies this
      ensures params == old(params)[key := value]
      ensures Get(key) == Some(value)
      ensures forall k :: k != key ==> Get(k) == old(Get(k))
    {
      params := params[key := value];
    }

    /** `add_all`: every incoming entry wins over the one it replaces. */
    method AddAll(ps: Context)
      modifies this
      ensures params == Extend(old(params), ps)
      ensures forall k :: Get(k) == if k in ps then Some(ps[k]) else old(Get(k))
    {
      params := Extend(params, ps);
    }

    /** `merge`: the other scope's entries win over the receiver's. */
    method Merge(other: ParameterScope)
      modifies this
      ensures params == Extend(old(params), old(other.params))
      ensures forall k :: Get(k) == if k in old(other.params) then Some(old(other.params)[k]) else old(Get(k))
    {
      params := Extend(params, other.params);
    }
  }

  // ------------------------------------------------------------ skip rules

  /** `should_skip_file`: only the two pre-commit names are ever skipped, and
      only when the scope holds `enable_precommit` as the boolean false. */
  function ShouldSkipFile(fileName: string, params: Context): (r: bool)
    ensures r <==> (fileName == PrecommitConfig + ".tmpl" || fileName == PrecommitConfig)
                   && "enable_precommit" in params && params["enable_precommit"] == Bool(false)
  {
    if fileName == ".pre-commit-config.yaml.tmpl" || fileName == ".pre-commit-config.yaml" then
      if "enable_precommit" in params then
        match params["enable_precommit"]
        case Bool(enabled) => !enabled
        case _ => false
      else false
    else false
  }

  /** Where `enable_precommit` holds a boolean, the walker skips exactly the
      files the framework generators skip for that setting. */
  lemma SkipAgreesWithGenerators(fileName: string, params: Context)
    requires "enable_precommit" in params && params["enable_precommit"].Bool?
    ensures ShouldSkipFile(fileName, params) <==> SkipPrecommitFile(fileName, params["enable_precommit"].b)
  {
    assert (PrecommitConfig + ".tmpl")[..|PrecommitConfig|] == PrecommitConfig;
    assert EndsWith(PrecommitConfig + ".tmpl", ".tmpl");
  }

  /** The build files the walker passes over, at any depth. */
  predicate BuildFile(name: string)
  {
    name == "Cargo.toml" || name == "Cargo.lock"
  }

  // ------------------------------------------------------------- the walk

  /** What a walk reads besides the directory: the template store the
      engine renders from, the Handlebars renderer and the parameters. */
  datatype Env = Env(store: Store, render: Renderer, ctx: Context)

  /** How a walk can stop early. */
  datatype ScaffoldError = TemplateNotRendered(templateFile: string, cause: string)

  /** The error text, with anyhow's context shown as "context: cause". */
  function ErrorMessage(e: ScaffoldError): (r: string)
    ensures StartsWith(r, "Failed to render template: " + e.templateFile) && EndsWith(r, ": " + e.cause)
  {
    ContextNamesBoth("Failed to render template: " + e.templateFile, e.cause);
    WithContext("Failed to render template: " + e.templateFile, e.cause)
  }

  /** The output path of a file: its name less one ".tmpl", in the output
      directory. */
  function OutputFor(outDir: string, name: string): string
  {
    PathJoin(outDir, StripSuffixOr(name, ".tmpl"))
  }

  /** The output keeps the template's file name, less one ".tmpl". */
  lemma OutputNamedAfterTemplate(outDir: string, name: string)
    requires NoChar(name, '/')
    ensures FileName(OutputFor(outDir, name)) == StripSuffixOr(name, ".tmpl")
    ensures EndsWith(name, ".tmpl") ==> name == FileName(OutputFor(outDir, name)) + ".tmpl"
  {
    var stripped := StripSuffixOr(name, ".tmpl");
    JoinFileName(outDir, stripped);
    assert NoChar(stripped, '/') by {
      assert forall i :: 0 <= i < |stripped| ==> stripped[i] == name[i];
    }
    LastSegmentOfPlain(stripped, '/');
  }

  /** `process_file` on the output tree: a skipped file changes nothing; a
      ".tmpl" file is rendered from the store at its template path; any
      other file is copied. */
  function FileStep(t: Tree, env: Env, dir: string, outDir: string, name: string, content: string)
    : (r: (Tree, Outcome<ScaffoldError>))
    ensures r.0.dirs == t.dirs
    ensures ShouldSkipFile(name, env.ctx) ==> r == (t, Pass)
    ensures !ShouldSkipFile(name, env.ctx) && !EndsWith(name, ".tmpl") ==>
              r == (t.(files := t.files[OutputFor(outDir, name) := content]), Pass)
    ensures !ShouldSkipFile(name, env.ctx) && EndsWith(name, ".tmpl") ==>
              var rt := RenderTemplate(env.store, env.render, PathJoin(dir, name), env.ctx);
              && (rt.Ok? ==> r == (t.(files := t.files[OutputFor(outDir, name) := rt.value]), Pass))
              && (rt.Err? ==> r == (t, Fail(TemplateNotRendered(PathJoin(dir, name), rt.error))))
    ensures r.0.files.Keys <= t.files.Keys + {OutputFor(outDir, name)}
    ensures forall k :: k in t.files && k != OutputFor(outDir, name) ==> k in r.0.files && r.0.files[k] == t.files[k]
    ensures r.1.Fail? ==> r.0 == t && EndsWith(r.1.error.templateFile, ".tmpl")
  {
    if ShouldSkipFile(name, env.ctx) then (t, Pass)
    else
      var templateFile := PathJoin(dir, name);
      if EndsWith(name, ".tmpl") then
        match RenderTemplate(env.store, env.render, templateFile, env.ctx)
        case Ok(s) => (t.(files := t.files[OutputFor(outDir, name) := s]), Pass)
        case Err(e) =>
          JoinEndsWith(dir, name, ".tmpl");
          (t, Fail(TemplateNotRendered(templateFile, e)))
      else (t.(files := t.files[OutputFor(outDir, name) := content]), Pass)
  }

  /** A path ends with whatever the joined part ends with. */
  lemma JoinEndsWith(base: string, rel: string, q: string)
    requires EndsWith(rel, q)
    ensures EndsWith(PathJoin(base, rel), q)
  {
    var r := PathJoin(base, rel);
    if r != rel {
      assert r[|r| - |rel|..] == rel;
      assert r[|r| - |q|..] == rel[|rel| - |q|..];
    }
  }

  /** One entry of `process_directory`'s loop: build files are passed over,
      a directory is mirrored (created before its contents) and walked, a
      file goes to `process_file`. */
  function WalkEntry(t: Tree, env: Env, dir: string, outDir: string, e: Entry): (Tree, Outcome<ScaffoldError>)
    decreases e, 1
  {
    if BuildFile(e.name) then (t, Pass)
    else
      match e
      case Dir(name, children) =>
        var sub := PathJoin(outDir, name);
        Walk(t.(dirs := t.dirs + Ancestors(sub)), env, PathJoin(dir, name), sub, children)
      case File(name, content) => FileStep(t, env, dir, outDir, name, content)
  }

  /** `process_directory`: the entries in the order `read_dir` yields them,
      stopping at the first error. */
  function Walk(t: Tree, env: Env, dir: string, outDir: string, es: seq<Entry>): (Tree, Outcome<ScaffoldError>)
    decreases es, 0
  {
    if es == [] then (t, Pass)
    else
      var r := WalkEntry(t, env, dir, outDir, es[0]);
      if r.1.Fail? then r else Walk(r.0, env, dir, outDir, es[1..])
  }

  lemma WalkUnfold(t: Tree, env: Env, dir: string, outDir: string, es: seq<Entry>, i: nat)
    requires i < |es|
    ensures Walk(t, env, dir, outDir, es[i..])
         == var r := WalkEntry(t, env, dir, outDir, es[i]);
            if r.1.Fail? then r else Walk(r.0, env, dir, outDir, es[i + 1..])
  {
    assert es[i..][0] == es[i] && es[i..][1..] == es[i + 1..];
  }

  // -------------------------------------------------------------- scaffold

  /** The scaffold once its templates are processed. */
  datatype ProcessedScaffold = ProcessedScaffold(outputPath: string, postProcessors: seq<PostProcessor>)

  datatype CompletedScaffold = CompletedScaffold(outputPath: string)

  /** `get_templates_dir`: every template is embedded, so the root is the
      empty path. */
  const TemplatesRoot: string := ""

  /** The output directory: the one set with `output_to`, else the current
      directory. */
  function Destination(outputPath: Option<string>, cwd: string): string
  {
    if outputPath.Some? then outputPath.value else cwd
  }

  /** `Scaffold`: the template directory as the file system lists it, the
      engine's store and renderer, and the settings the builders change. */
  class Scaffold {
    var templatePath: string
    var entries: seq<Entry>
    var store: Store
    var render: Renderer
    var outputPath: Option<string>
    var params: ParameterScope
    var postProcessors: seq<PostProcessor>

    constructor (templatePath: string, entries: seq<Entry>, store: Store, render: Renderer)
      ensures this.templatePath == templatePath && this.entries == entries
      ensures this.store == store && this.render == render
      ensures outputPath.None? && fresh(params) && params.params == map[] && postProcessors == []
    {
      this.templatePath := templatePath;
      this.entries := entries;
      this.store := store;
      this.render := render;
      outputPath := None;
      params := new ParameterScope();
      postProcessors := [];
    }

    /** `Scaffold::new`: the template path is resolved against the templates
        root; `listing` is what the file system holds there, `None` when
        nothing exists at that path. */
    static method New(templatePath: string, listing: Option<seq<Entry>>, store: Store, render: Renderer)
      returns (r: Result<Scaffold, string>)
      ensures var full := PathJoin(TemplatesRoot, templatePath);
              && (r.Ok? <==> listing.Some?)
              && (r.Err? ==> r.error == "Template directory not found: " + templatePath + "\nExpected path: " + full)
              && (r.Ok? ==> fresh(r.value) && r.value.templatePath == full && r.value.entries == listing.value
                            && r.value.store == store && r.value.render == render
                            && r.value.outputPath.None? && r.value.params.params == map[] && r.value.postProcessors == [])
    {
      var full := if StartsWith(templatePath, "/") then templatePath else PathJoin(TemplatesRoot, templatePath);
      if listing.None? {
        return Err("Template directory not found: " + templatePath + "\nExpected path: " + full);
      }
      var s := new Scaffold(full, listing.value, store, render);
      return Ok(s);
    }

    /** `output_to` */
    method OutputTo(path: string)
      modifies this
      ensures outputPath == Some(path)
      ensures params == old(params) && postProcessors == old(postProcessors)
      ensures templatePath == old(templatePath) && entries == old(entries)
      ensures store == old(store) && render == old(render)
    {
      outputPath := Some(path);
    }

    /** `with_params`: the scope is replaced as a whole. */
    method WithParams(scope: ParameterScope)
      modifies this
      ensures params == scope
      ensures outputPath == old(outputPath) && postProcessors == old(postProcessors)
      ensures templatePath == old(templatePath) && entries == old(entries)
      ensures store == old(store) && render == old(render)
    {
      params := scope;
    }

    /** `with_param`: one entry added to the scope. */
    method WithParam(key: string, value: Value)
      modifies params
      ensures params.params == old(params.params)[key := value]
    {
      params.Add(key, value);
    }

    /** `with_post_processor`: appends, so processors run in the order they
        were added. */
    method WithPostProcessor(p: PostProcessor)
      modifies this
      ensures postProcessors == old(postProcessors) + [p]
      ensures outputPath == old(outputPath) && params == old(params)
      ensures templatePath == old(templatePath) && entries == old(entries)
      ensures store == old(store) && render == old(render)
    {
      postProcessors := postProcessors + [p];
    }

    function Environment(): Env
      reads this, params
    {
      Env(store, render, params.params)
    }

    /** `process`: creates the output directory, walks the template
        directory into it and hands the post-processors on. */
    method Process(out: OutputTree, cwd: string) returns (r: Result<ProcessedScaffold, ScaffoldError>)
      modifies out
      ensures var dest := Destination(outputPath, cwd);
              var t0 := old(out.State());
              var w := Walk(t0.(dirs := t0.dirs + Ancestors(dest)), Environment(), templatePath, dest, entries);
              && out.State() == w.0
              && (r.Ok? <==> w.1.Pass?)
              && (r.Ok? ==> r.value == ProcessedScaffold(dest, postProcessors))
              && (r.Err? ==> r.error == w.1.error)
    {
      var dest := if outputPath.Some? then outputPath.value else cwd;
      out.CreateDirAll(dest);
      var o := ProcessDirectory(out, templatePath, dest, entries);
      if o.Fail? {
        return Err(o.error);
      }
      return Ok(ProcessedScaffold(dest, postProcessors));
    }

    /** `process_directory` */
    method ProcessDirectory(out: OutputTree, dir: string, outDir: string, es: seq<Entry>)
      returns (o: Outcome<ScaffoldError>)
      modifies out
      ensures (out.State(), o) == Walk(old(out.State()), Environment(), dir, outDir, es)
      decreases es
    {
      for i := 0 to |es|
        invariant Walk(out.State(), Environment(), dir, outDir, es[i..])
               == Walk(old(out.State()), Environment(), dir, outDir, es)
      {
        WalkUnfold(out.State(), Environment(), dir, outDir, es, i);
        var e := es[i];
        if BuildFile(e.name) {
          continue;
        }
        match e
        case Dir(name, children) =>
          var sub := PathJoin(outDir, name);
          out.CreateDirAll(sub);
          var r := ProcessDirectory(out, PathJoin(dir, name), sub, children);
          if r.Fail? {
            return r;
          }
        case File(name, content) =>
          var r := ProcessFile(out, dir, outDir, name, content);
          if r.Fail? {
            return r;
          }
      }
      return Pass;
    }

    /** `process_file`; a copy takes the file's own content. */
    method ProcessFile(out: OutputTree, dir: string, outDir: string, name: string, content: string)
      returns (o: Outcome<ScaffoldError>)
      modifies out
      ensures (out.State(), o) == FileStep(old(out.State()), Environment(), dir, outDir, name, content)
    {
      if ShouldSkipFile(name, params.GetAll()) {
        return Pass;
      }
      var outputFile := PathJoin(outDir, StripSuffixOr(name, ".tmpl"));
      var templateFile := PathJoin(dir, name);
      if EndsWith(name, ".tmpl") {
        var rendered := RenderTemplate(store, render, templateFile, params.GetAll());
        if rendered.Err? {
          return Fail(TemplateNotRendered(templateFile, rendered.error));
        }
        out.Write(outputFile, rendered.value);
      } else {
        out.Write(outputFile, content);
      }
      return Pass;
    }
  }

  // ------------------------------------------------------- walk properties

  /** Names as `read_dir` gives them: non-empty, one path component. */
  predicate PlainNames(es: seq<Entry>)
  {
    forall i :: 0 <= i < |es| ==>
      es[i].name != "" && NoChar(es[i].name, '/') && (es[i].Dir? ==> PlainNames(es[i].entries))
  }

  /** A walk only adds: no directory or file disappears. */
  lemma {:induction false} WalkGrows(t: Tree, env: Env, dir: string, outDir: string, es: seq<Entry>)
    ensures var r := Walk(t, env, dir, outDir, es).0; t.dirs <= r.dirs && t.files.Keys <= r.files.Keys
    decreases es, 0
  {
    if es != [] {
      var r := WalkEntry(t, env, dir, outDir, es[0]);
      WalkEntryGrows(t, env, dir, outDir, es[0]);
      if r.1.Pass? {
        WalkGrows(r.0, env, dir, outDir, es[1..]);
      }
    }
  }

  lemma {:induction false} WalkEntryGrows(t: Tree, env: Env, dir: string, outDir: string, e: Entry)
    ensures var r := WalkEntry(t, env, dir, outDir, e).0; t.dirs <= r.dirs && t.files.Keys <= r.files.Keys
    decreases e, 1
  {
    if !BuildFile(e.name) && e.Dir? {
      var sub := PathJoin(outDir, e.name);
      WalkGrows(t.(dirs := t.dirs + Ancestors(sub)), env, PathJoin(dir, e.name), sub, e.entries);
    }
  }

  /** The directories a walk mirrors: each non-build sub-directory, at any
      depth, under the output directory. */
  function Mirrored(outDir: string, es: seq<Entry>): set<string>
    decreases es, 0
  {
    if es == [] then {} else MirroredEntry(outDir, es[0]) + Mirrored(outDir, es[1..])
  }

  function MirroredEntry(outDir: string, e: Entry): set<string>
    decreases e, 1
  {
    if BuildFile(e.name) then {}
    else
      match e
      case File(_, _) => {}
      case Dir(name, children) => {PathJoin(outDir, name)} + Mirrored(PathJoin(outDir, name), children)
  }

  /** A walk that runs to the end has created every mirrored directory,
      whether or not any file inside it was written. */
  lemma {:induction false} WalkMirrors(t: Tree, env: Env, dir: string, outDir: string, es: seq<Entry>)
    requires PlainNames(es)
    requires Walk(t, env, dir, outDir, es).1.Pass?
    ensures Mirrored(outDir, es) <= Walk(t, env, dir, outDir, es).0.dirs
    decreases es, 0
  {
    if es != [] {
      var r := WalkEntry(t, env, dir, outDir, es[0]);
      assert PlainNames(es[1..]) by {
        forall i | 0 <= i < |es[1..]| ensures es[1..][i] == es[i + 1] { }
      }
      WalkEntryMirrors(t, env, dir, outDir, es[0]);
      WalkMirrors(r.0, env, dir, outDir, es[1..]);
      WalkGrows(r.0, env, dir, outDir, es[1..]);
    }
  }

  lemma {:induction false} WalkEntryMirrors(t: Tree, env: Env, dir: string, outDir: string, e: Entry)
    requires e.name != "" && (e.Dir? ==> PlainNames(e.entries))
    requires WalkEntry(t, env, dir, outDir, e).1.Pass?
    ensures MirroredEntry(outDir, e) <= WalkEntry(t, env, dir, outDir, e).0.dirs
    decreases e, 1
  {
    if !BuildFile(e.name) && e.Dir? {
      var sub := PathJoin(outDir, e.name);
      var t1 := t.(dirs := t.dirs + Ancestors(sub));
      assert sub in t1.dirs;
      WalkMirrors(t1, env, PathJoin(dir, e.name), sub, e.entries);
      WalkGrows(t1, env, PathJoin(dir, e.name), sub, e.entries);
    }
  }

  /** The walk with every build entry removed, at every depth. */
  function Prune(es: seq<Entry>): (r: seq<Entry>)
    ensures forall i :: 0 <= i < |r| ==> !BuildFile(r[i].name)
    decreases es, 0
  {
    if es == [] then []
    else if BuildFile(es[0].name) then Prune(es[1..])
    else [PruneEntry(es[0])] + Prune(es[1..])
  }

  function PruneEntry(e: Entry): (r: Entry)
    ensures r.name == e.name && r.Dir? == e.Dir?
    decreases e, 1
  {
    match e
    case File(_, _) => e
    case Dir(name, children) => Dir(name, Prune(children))
  }

  /** Build entries are ignored at every level: walking the tree without
      them does exactly what walking the tree with them does. */
  lemma {:induction false} BuildFilesIgnored(t: Tree, env: Env, dir: string, outDir: string, es: seq<Entry>)
    ensures Walk(t, env, dir, outDir, Prune(es)) == Walk(t, env, dir, outDir, es)
    decreases es, 0
  {
    if es != [] {
      if BuildFile(es[0].name) {
        BuildFilesIgnored(t, env, dir, outDir, es[1..]);
      } else {
        var p := Prune(es);
        assert p[0] == PruneEntry(es[0]) && p[1..] == Prune(es[1..]);
        BuildEntryIgnored(t, env, dir, outDir, es[0]);
        var r := WalkEntry(t, env, dir, outDir, es[0]);
        BuildFilesIgnored(r.0, env, dir, outDir, es[1..]);
      }
    }
  }

  lemma {:induction false} BuildEntryIgnored(t: Tree, env: Env, dir: string, outDir: string, e: Entry)
    ensures WalkEntry(t, env, dir, outDir, PruneEntry(e)) == WalkEntry(t, env, dir, outDir, e)
    decreases e, 1
  {
    if !BuildFile(e.name) && e.Dir? {
      var sub := PathJoin(outDir, e.name);
      BuildFilesIgnored(t.(dirs := t.dirs + Ancestors(sub)), env, PathJoin(dir, e.name), sub, e.entries);
    }
  }

  /** `u` holds no pre-commit configuration that `t` did not already hold
      with the same content. */
  predicate NoNewPrecommit(t: Tree, u: Tree)
  {
    forall k :: k in u.files && FileName(k) == PrecommitConfig ==> k in t.files && u.files[k] == t.files[k]
  }

  /** With `enable_precommit` false in the scope, no walk writes a file
      named after the pre-commit configuration. */
  lemma {:induction false} WalkSkipsPrecommit(t: Tree, env: Env, dir: string, outDir: string, es: seq<Entry>)
    requires "enable_precommit" in env.ctx && env.ctx["enable_precommit"] == Bool(false)
    requires PlainNames(es)
    ensures NoNewPrecommit(t, Walk(t, env, dir, outDir, es).0)
    decreases es, 0
  {
    if es != [] {
      var r := WalkEntry(t, env, dir, outDir, es[0]);
      WalkEntrySkipsPrecommit(t, env, dir, outDir, es[0]);
      if r.1.Pass? {
        assert PlainNames(es[1..]) by {
          forall i | 0 <= i < |es[1..]| ensures es[1..][i] == es[i + 1] { }
        }
        WalkSkipsPrecommit(r.0, env, dir, outDir, es[1..]);
      }
    }
  }

  lemma {:induction false} WalkEntrySkipsPrecommit(t: Tree, env: Env, dir: string, outDir: string, e: Entry)
    requires "enable_precommit" in env.ctx && env.ctx["enable_precommit"] == Bool(false)
    requires NoChar(e.name, '/') && (e.Dir? ==> PlainNames(e.entries))
    ensures NoNewPrecommit(t, WalkEntry(t, env, dir, outDir, e).0)
    decreases e, 1
  {
    if !BuildFile(e.name) {
      match e
      case Dir(name, children) =>
        var sub := PathJoin(outDir, name);
        WalkSkipsPrecommit(t.(dirs := t.dirs + Ancestors(sub)), env, PathJoin(dir, name), sub, children);
      case File(name, content) =>
        FileStepSkipsPrecommit(t, env, dir, outDir, name, content);
    }
  }

  lemma FileStepSkipsPrecommit(t: Tree, env: Env, dir: string, outDir: string, name: string, content: string)
    requires "enable_precommit" in env.ctx && env.ctx["enable_precommit"] == Bool(false)
    requires NoChar(name, '/')
    ensures NoNewPrecommit(t, FileStep(t, env, dir, outDir, name, content).0)
  {
    if !ShouldSkipFile(name, env.ctx) {
      var k := OutputFor(outDir, name);
      OutputNamedAfterTemplate(outDir, name);
      assert FileName(k) != PrecommitConfig by {
        if EndsWith(name, ".tmpl") {
          assert name == FileName(k) + ".tmpl";
        } else {
          assert FileName(k) == name;
        }
      }
    }
  }

  /** Only a template can stop a walk: copies never fail. */
  lemma {:induction false} WalkFailsOnTemplate(t: Tree, env: Env, dir: string, outDir: string, es: seq<Entry>)
    ensures var o := Walk(t, env, dir, outDir, es).1; o.Fail? ==> EndsWith(o.error.templateFile, ".tmpl")
    decreases es, 0
  {
    if es != [] {
      var r := WalkEntry(t, env, dir, outDir, es[0]);
      WalkEntryFailsOnTemplate(t, env, dir, outDir, es[0]);
      if r.1.Pass? {
        WalkFailsOnTemplate(r.0, env, dir, outDir, es[1..]);
      }
    }
  }

  lemma {:induction false} WalkEntryFailsOnTemplate(t: Tree, env: Env, dir: string, outDir: string, e: Entry)
    ensures var o := WalkEntry(t, env, dir, outDir, e).1; o.Fail? ==> EndsWith(o.error.templateFile, ".tmpl")
    decreases e, 1
  {
    if !BuildFile(e.name) && e.Dir? {
      var sub := PathJoin(outDir, e.name);
      WalkFailsOnTemplate(t.(dirs := t.dirs + Ancestors(sub)), env, PathJoin(dir, e.name), sub, e.entries);
    }
  }

  // ------------------------------------------------------- post-processors

  /** `PostProcessor::Command` */
  datatype PostProcessor = Command(command: string, args: seq<string>, description: string)

  /** What running a command in a directory yields: it could not be
      started, or it exited with a status and its standard error. */
  datatype CommandResult = SpawnFailed(cause: string) | Exited(success: bool, stderr: string)

  /** The operating system's process launcher: command, arguments, working
      directory. */
  type Spawner = (string, seq<string>, string) -> CommandResult

  /** `{:?}` of a list of strings: `["a", "b"]`. */
  function DebugArgs(args: seq<string>): string
  {
    "[" + QuotedList(args) + "]"
  }

  function QuotedList(args: seq<string>): string
  {
    if args == [] then ""
    else "\"" + args[0] + "\"" + (if |args| == 1 then "" else ", " + QuotedList(args[1..]))
  }

  /** `execute`: runs the command in the output directory; it passes exactly
      when the command started and exited successfully. */
  function Execute(p: PostProcessor, outputPath: string, spawn: Spawner): (r: Outcome<string>)
    ensures var c := spawn(p.command, p.args, outputPath); r.Pass? <==> c.Exited? && c.success
    ensures spawn(p.command, p.args, outputPath).SpawnFailed? ==>
              r.Fail? && StartsWith(r.error, "Failed to execute command: " + p.command)
  {
    match spawn(p.command, p.args, outputPath)
    case SpawnFailed(cause) =>
      var msg := "Failed to execute command: " + p.command;
      assert (msg + " " + DebugArgs(p.args))[..|msg|] == msg;
      Fail(WithContext(msg + " " + DebugArgs(p.args), cause))
    case Exited(success, stderr) =>
      if success then Pass else Fail("Command failed: " + p.description + "\nError: " + stderr)
  }

  /** The processors started, in order, and the outcome: each runs only
      when every earlier one passed. */
  function RunAll(ps: seq<PostProcessor>, outputPath: string, spawn: Spawner): (seq<PostProcessor>, Outcome<string>)
  {
    if ps == [] then ([], Pass)
    else
      var o := Execute(ps[0], outputPath, spawn);
      if o.Fail? then ([ps[0]], o)
      else
        var rest := RunAll(ps[1..], outputPath, spawn);
        ([ps[0]] + rest.0, rest.1)
  }

  /** `run_post_processors` */
  method RunPostProcessors(scaffold: ProcessedScaffold, spawn: Spawner)
    returns (r: Result<CompletedScaffold, string>, started: seq<PostProcessor>)
    ensures var run := RunAll(scaffold.postProcessors, scaffold.outputPath, spawn);
            && started == run.0
            && (r.Ok? <==> run.1.Pass?)
            && (r.Ok? ==> r.value == CompletedScaffold(scaffold.outputPath))
            && (r.Err? ==> r.error == run.1.error)
  {
    var ps := scaffold.postProcessors;
    started := [];
    assert ps[0..] == ps;
    assert started + RunAll(ps[0..], scaffold.outputPath, spawn).0 == RunAll(ps, scaffold.outputPath, spawn).0;
    for i := 0 to |ps|
      invariant var rest := RunAll(ps[i..], scaffold.outputPath, spawn);
                (started + rest.0, rest.1) == RunAll(ps, scaffold.outputPath, spawn)
    {
      assert ps[i..][0] == ps[i] && ps[i..][1..] == ps[i + 1..];
      var rest := RunAll(ps[i + 1..], scaffold.outputPath, spawn);
      assert started + ([ps[i]] + rest.0) == (started + [ps[i]]) + rest.0;
      started := started + [ps[i]];
      var o := Execute(ps[i], scaffold.outputPath, spawn);
      if o.Fail? {
        return Err(o.error), started;
      }
    }
    return Ok(CompletedScaffold(scaffold.outputPath)), started;
  }

  /** The processors started are a prefix of the list; all pass exactly
      when every one started and passed; otherwise the last one started is
      the first that failed, and its error is the outcome. */
  lemma {:induction false} RunAllInOrder(ps: seq<PostProcessor>, outputPath: string, spawn: Spawner)
    ensures var run := RunAll(ps, outputPath, spawn);
            && |run.0| <= |ps| && run.0 == ps[..|run.0|]
            && (forall i :: 0 <= i < |run.0| - 1 ==> Execute(run.0[i], outputPath, spawn).Pass?)
            && (run.1.Pass? <==> forall i :: 0 <= i < |ps| ==> Execute(ps[i], outputPath, spawn).Pass?)
            && (run.1.Pass? ==> run.0 == ps)
            && (run.1.Fail? ==> |run.0| > 0 && Execute(run.0[|run.0| - 1], outputPath, spawn) == run.1)
  {
    if ps != [] {
      var o := Execute(ps[0], outputPath, spawn);
      if o.Pass? {
        RunAllInOrder(ps[1..], outputPath, spawn);
        var rest := RunAll(ps[1..], outputPath, spawn);
        assert ps[..|rest.0| + 1] == [ps[0]] + ps[1..][..|rest.0|];
        assert forall i :: 0 < i < |ps| ==> ps[i] == ps[1..][i - 1];
      }
    }
  }

  /** A processor added last runs after all the others, and only when each
      of them passed. */
  lemma {:induction false} AddedProcessorRunsLast(ps: seq<PostProcessor>, p: PostProcessor, outputPath: string, spawn: Spawner)
    ensures var before := RunAll(ps, outputPath, spawn);
            var after := RunAll(ps + [p], outputPath, spawn);
            && (before.1.Fail? ==> after == before)
            && (before.1.Pass? ==> after == (ps + [p], Execute(p, outputPath, spawn)))
  {
    if ps == [] {
      assert ps + [p] == [p] && [p][0] == p && [p][1..] == [] && [p] + [] == [p];
    } else {
      assert (ps + [p])[0] == ps[0] && (ps + [p])[1..] == ps[1..] + [p];
      AddedProcessorRunsLast(ps[1..], p, outputPath, spawn);
      if Execute(ps[0], outputPath, spawn).Pass? && RunAll(ps, outputPath, spawn).1.Pass? {
        assert [ps[0]] + (ps[1..] + [p]) == ps + [p];
      }
    }
  }
}
