/** The per-namespace loop of the framework generators
    (`render_embedded_templates` in src/generators/framework/gin/generator.rs
    and src/generators/framework/tauri/generator.rs): list the files of a
    template namespace, skip some, strip one ".tmpl", render templates, copy
    everything else, and stop at the first error. The two generators differ
    only in their skip predicates, so the loop is written once here and each
    generator passes its own predicate. */
module TreeProcessor {
  import opened Wrappers
  import opened Strings
  import opened TemplateContext
  import opened TemplateEngine

  // ---------------------------------------------------------------- paths

  /** `Path::join` on Unix: an absolute `rel` replaces the base. */
  function PathJoin(base: string, rel: string): (r: string)
    ensures !StartsWith(rel, "/") && base != "" ==> StartsWith(r, base) && EndsWith(r, rel)
  {
    if StartsWith(rel, "/") || base == "" then rel
    else if EndsWith(base, "/") then base + rel
    else base + "/" + rel
  }

  /** `Path::file_name` of a path made of plain components: the last one. */
  function FileName(p: string): string
  {
    LastSegment(p, '/')
  }

  /** `Path::parent`: the path without its last component. */
  function Parent(p: string): string
  {
    var n := |LastSegment(p, '/')|;
    if n == |p| then "" else if n + 1 == |p| then "/" else p[..|p| - n - 1]
  }

  /** The directories that exist after `fs::create_dir_all(d)`: `d` and each
      of its ancestors. */
  function Ancestors(d: string): (r: set<string>)
    ensures d != "" ==> d in r
    ensures forall a :: a in r ==> a != "" && StartsWith(d, a)
  {
    assert d != "" ==> d[..|d|] == d;
    assert forall i :: 0 < i <= |d| ==> StartsWith(d, d[..i]);
    set i | 0 < i <= |d| && (i == |d| || d[i] == '/') :: d[..i]
  }

  // ---------------------------------------------------------------- a job

  /** How the loop can stop early. */
  datatype GenError =
    | RenderFailed(file: string, cause: string)
    | TemplateContentNotFound(file: string)
    | FileContentNotFound(file: string)

  /** The error text, with anyhow's context shown as "context: cause". */
  function Message(e: GenError): (r: string)
    ensures e.RenderFailed? ==> StartsWith(r, "Failed to render embedded template: " + e.file) && EndsWith(r, ": " + e.cause)
    ensures e.TemplateContentNotFound? ==> r == "Template content not found: " + e.file
    ensures e.FileContentNotFound? ==> r == "File content not found: " + e.file
  {
    match e
    case RenderFailed(f, c) =>
      ContextNamesBoth("Failed to render embedded template: " + f, c);
      WithContext("Failed to render embedded template: " + f, c)
    case TemplateContentNotFound(f) => "Template content not found: " + f
    case FileContentNotFound(f) => "File content not found: " + f
  }

  /** The inputs of one call: the store, the namespace, the output root, the
      context, the renderer, and the generator's skip test on the path
      relative to the namespace. */
  datatype Job = Job(store: Store, templatePath: string, outputPath: string,
                     ctx: Context, render: Renderer, skip: string -> bool)

  /** The listed path without the "{template_path}/" prefix, if it has one. */
  function RelativePath(job: Job, tf: string): (r: string)
    ensures StartsWith(tf, job.templatePath + "/") ==> tf == job.templatePath + "/" + r
    ensures !StartsWith(tf, job.templatePath + "/") ==> r == tf
  {
    StripPrefixOr(tf, job.templatePath + "/")
  }

  /** The relative path without one trailing ".tmpl". */
  function OutputRelative(job: Job, tf: string): (r: string)
    ensures EndsWith(RelativePath(job, tf), ".tmpl") ==> RelativePath(job, tf) == r + ".tmpl"
    ensures !EndsWith(RelativePath(job, tf), ".tmpl") ==> r == RelativePath(job, tf)
  {
    StripSuffixOr(RelativePath(job, tf), ".tmpl")
  }

  function OutputFile(job: Job, tf: string): string
  {
    PathJoin(job.outputPath, OutputRelative(job, tf))
  }

  predicate Emitted(job: Job, tf: string)
  {
    !job.skip(RelativePath(job, tf))
  }

  /** What the output of a processed file holds, or the error it stops
      with. It depends on the file alone, not on earlier writes. */
  function Produce(job: Job, tf: string): (r: Result<string, GenError>)
    ensures EndsWith(tf, ".tmpl") && GetEmbeddedTemplateContent(job.store, tf).Some? ==>
              var rendered := job.render(GetEmbeddedTemplateContent(job.store, tf).value, job.ctx);
              (rendered.Ok? ==> r == Ok(rendered.value)) && (rendered.Err? ==> r == Err(RenderFailed(tf, rendered.error)))
    ensures !EndsWith(tf, ".tmpl") && GetEmbeddedTemplateContent(job.store, tf).Some? ==>
              r == Ok(GetEmbeddedTemplateContent(job.store, tf).value)
    ensures GetEmbeddedTemplateContent(job.store, tf).None? ==>
              r == Err(if EndsWith(tf, ".tmpl") then TemplateContentNotFound(tf) else FileContentNotFound(tf))
  {
    if EndsWith(tf, ".tmpl") then
      match GetEmbeddedTemplateContent(job.store, tf)
      case None => Err(TemplateContentNotFound(tf))
      case Some(c) =>
        match job.render(c, job.ctx)
        case Ok(s) => Ok(s)
        case Err(e) => Err(RenderFailed(tf, e))
    else
      match GetEmbeddedTemplateContent(job.store, tf)
      case None => Err(FileContentNotFound(tf))
      case Some(c) => Ok(c)
  }

  /** A file lets the loop go on: it is skipped or its output can be produced. */
  predicate StepOk(job: Job, tf: string)
  {
    !Emitted(job, tf) || Produce(job, tf).Ok?
  }

  // ------------------------------------------------------ the output tree

  /** The written files (path to contents) and the existing directories. */
  datatype Tree = Tree(files: map<string, string>, dirs: set<string>)

  /** One iteration: a skipped file changes nothing; otherwise the parent
      directories of the output are created first, then the output is
      written or the loop stops. */
  function Step(t: Tree, job: Job, tf: string): (Tree, Outcome<GenError>)
  {
    if !Emitted(job, tf) then (t, Pass)
    else
      var t1 := t.(dirs := t.dirs + Ancestors(Parent(OutputFile(job, tf))));
      match Produce(job, tf)
      case Ok(s) => (t1.(files := t1.files[OutputFile(job, tf) := s]), Pass)
      case Err(e) => (t1, Fail(e))
  }

  /** The whole loop over a listing. */
  function Run(t: Tree, job: Job, L: seq<string>): (Tree, Outcome<GenError>)
    decreases L
  {
    if L == [] then (t, Pass)
    else
      var r := Step(t, job, L[0]);
      if r.1.Fail? then r else Run(r.0, job, L[1..])
  }

  /** The file system the generators write to. */
  class OutputTree {
    var files: map<string, string>
    var dirs: set<string>

    constructor (files0: map<string, string>, dirs0: set<string>)
      ensures files == files0 && dirs == dirs0
    {
      files := files0;
      dirs := dirs0;
    }

    function State(): Tree
      reads this
    {
      Tree(files, dirs)
    }

    /** `fs::create_dir_all(d)` */
    method CreateDirAll(d: string)
      modifies this
      ensures files == old(files) && dirs == old(dirs) + Ancestors(d)
    {
      dirs := dirs + Ancestors(d);
    }

    /** `fs::write(path, contents)`: creates or overwrites the file. */
    method Write(path: string, contents: string)
      modifies this
      ensures files == old(files)[path := contents] && dirs == old(dirs)
    {
      files := files[path := contents];
    }
  }

  /** `render_embedded_templates`: the loop over the namespace listing. */
  method RenderEmbeddedTemplates(out: OutputTree, job: Job) returns (o: Outcome<GenError>)
    modifies out
    ensures (out.State(), o) == Run(old(out.State()), job, GetEmbeddedTemplateFiles(job.store, job.templatePath))
  {
    var templateFiles := GetEmbeddedTemplateFiles(job.store, job.templatePath);
    for i := 0 to |templateFiles|
      invariant Run(out.State(), job, templateFiles[i..]) == Run(old(out.State()), job, templateFiles)
    {
      var tf := templateFiles[i];
      RunUnfold(out.State(), job, templateFiles, i);
      var relativePath := StripPrefixOr(tf, job.templatePath + "/");
      if job.skip(relativePath) {
        continue;
      }
      var outputRelativePath := StripSuffixOr(relativePath, ".tmpl");
      var outputFilePath := PathJoin(job.outputPath, outputRelativePath);
      out.CreateDirAll(Parent(outputFilePath));
      if EndsWith(tf, ".tmpl") {
        var templateContent := GetEmbeddedTemplateContent(job.store, tf);
        if templateContent.None? {
          return Fail(TemplateContentNotFound(tf));
        }
        var rendered := job.render(templateContent.value, job.ctx);
        if rendered.Err? {
          return Fail(RenderFailed(tf, rendered.error));
        }
        out.Write(outputFilePath, rendered.value);
      } else {
        var fileContent := GetEmbeddedTemplateContent(job.store, tf);
        if fileContent.None? {
          return Fail(FileContentNotFound(tf));
        }
        out.Write(outputFilePath, fileContent.value);
      }
    }
    return Pass;
  }

  lemma RunUnfold(t: Tree, job: Job, L: seq<string>, i: nat)
    requires i < |L|
    ensures Run(t, job, L[i..])
         == var r := Step(t, job, L[i]); if r.1.Fail? then r else Run(r.0, job, L[i + 1..])
  {
    assert L[i..][0] == L[i] && L[i..][1..] == L[i + 1..];
  }

  // ------------------------------------------------------------ properties

  /** Running two listings one after the other is running their concatenation. */
  lemma {:induction false} RunAppend(t: Tree, job: Job, A: seq<string>, B: seq<string>)
    ensures Run(t, job, A + B)
         == var r := Run(t, job, A); if r.1.Fail? then r else Run(r.0, job, B)
    decreases A
  {
    if A == [] {
      assert A + B == B;
    } else {
      assert (A + B)[0] == A[0] && (A + B)[1..] == A[1..] + B;
      var r := Step(t, job, A[0]);
      if r.1.Pass? {
        RunAppend(r.0, job, A[1..], B);
      }
    }
  }

  /** After a failure nothing later in the listing is looked at. */
  lemma FailureIgnoresRest(t: Tree, job: Job, A: seq<string>, B: seq<string>)
    requires Run(t, job, A).1.Fail?
    ensures Run(t, job, A + B) == Run(t, job, A)
  {
    RunAppend(t, job, A, B);
  }

  /** The loop succeeds exactly when every file of the listing is skipped or
      can be produced. */
  lemma {:induction false} RunPassIff(t: Tree, job: Job, L: seq<string>)
    ensures Run(t, job, L).1.Pass? <==> forall i :: 0 <= i < |L| ==> StepOk(job, L[i])
    decreases L
  {
    if L != [] {
      RunPassIff(Step(t, job, L[0]).0, job, L[1..]);
      assert forall i :: 1 <= i < |L| ==> L[i] == L[1..][i - 1];
    }
  }

  /** At the first file that cannot be produced the loop stops with that
      file's error; everything written for the files before it stays, that
      file's parent directories exist, and nothing else changes. */
  lemma RunFailsAtFirst(t: Tree, job: Job, L: seq<string>, k: nat)
    requires k < |L| && !StepOk(job, L[k])
    requires forall j :: 0 <= j < k ==> StepOk(job, L[j])
    ensures Run(t, job, L).1 == Fail(Produce(job, L[k]).error)
    ensures Run(t, job, L).0 == Step(Run(t, job, L[..k]).0, job, L[k]).0
  {
    RunPassIff(t, job, L[..k]);
    assert L == L[..k] + L[k..];
    RunAppend(t, job, L[..k], L[k..]);
    RunUnfold(Run(t, job, L[..k]).0, job, L, k);
  }

  /** The file `tf` writes the output `k`. */
  predicate Writes(job: Job, tf: string, k: string)
  {
    Emitted(job, tf) && OutputFile(job, tf) == k
  }

  /** The position of the last file of `L` that writes `k`, or -1. */
  function LastWriter(job: Job, L: seq<string>, k: string): (w: int)
    ensures -1 <= w < |L|
    ensures w == -1 <==> forall i :: 0 <= i < |L| ==> !Writes(job, L[i], k)
    ensures w >= 0 ==> Writes(job, L[w], k) && forall i :: w < i < |L| ==> !Writes(job, L[i], k)
  {
    if L == [] then -1
    else
      var w := LastWriter(job, L[1..], k);
      assert forall i :: 1 <= i < |L| ==> L[i] == L[1..][i - 1];
      if w >= 0 then w + 1 else if Writes(job, L[0], k) then 0 else -1
  }

  /** After a successful loop each output path holds what the last file
      mapping to it produced (writes overwrite, so "x" followed by "x.tmpl"
      leaves the rendering of "x.tmpl"); a path no file maps to is as before. */
  lemma {:induction false} RunSuccessFiles(t: Tree, job: Job, L: seq<string>, k: string)
    requires Run(t, job, L).1.Pass?
    ensures var f := Run(t, job, L).0.files;
            var w := LastWriter(job, L, k);
            (w >= 0 ==> k in f && Produce(job, L[w]) == Ok(f[k]))
            && (w == -1 ==> (k in f <==> k in t.files) && (k in t.files ==> f[k] == t.files[k]))
    decreases L
  {
    if L != [] {
      var r := Step(t, job, L[0]);
      RunSuccessFiles(r.0, job, L[1..], k);
      assert forall i :: 1 <= i < |L| ==> L[i] == L[1..][i - 1];
    }
  }

  /** A path that is new after the loop, successful or not, is the output of
      some file of the listing that was not skipped. */
  lemma {:induction false} NewFilesComeFromEmitted(t: Tree, job: Job, L: seq<string>, k: string)
    requires k in Run(t, job, L).0.files && k !in t.files
    ensures exists i :: 0 <= i < |L| && Writes(job, L[i], k)
    decreases L
  {
    var r := Step(t, job, L[0]);
    if Writes(job, L[0], k) {
    } else {
      assert k !in r.0.files;
      if r.1.Pass? {
        NewFilesComeFromEmitted(r.0, job, L[1..], k);
        var i :| 0 <= i < |L[1..]| && Writes(job, L[1..][i], k);
        assert L[1..][i] == L[i + 1];
      }
    }
  }

  /** A file written by the loop that was not there before, with the
      position of a listed file that writes it. */
  lemma NewFileWriter(t: Tree, job: Job, L: seq<string>, k: string) returns (i: nat)
    requires k in Run(t, job, L).0.files && k !in t.files
    ensures i < |L| && Writes(job, L[i], k)
  {
    NewFilesComeFromEmitted(t, job, L, k);
    i :| 0 <= i < |L| && Writes(job, L[i], k);
  }

  /** After a successful loop the directories are the old ones plus the
      parents of every output. */
  lemma {:induction false} RunSuccessDirs(t: Tree, job: Job, L: seq<string>, d: string)
    requires Run(t, job, L).1.Pass?
    ensures d in Run(t, job, L).0.dirs
        <==> d in t.dirs || exists i :: 0 <= i < |L| && Emitted(job, L[i]) && d in Ancestors(Parent(OutputFile(job, L[i])))
    decreases L
  {
    if L != [] {
      var r := Step(t, job, L[0]);
      RunSuccessDirs(r.0, job, L[1..], d);
      assert forall i :: 1 <= i < |L| ==> L[i] == L[1..][i - 1];
    }
  }

  /** In a well-formed store every listed file can be read, so the only
      error the loop can stop with is a rendering failure. */
  lemma ListedFilesOnlyFailToRender(job: Job, tf: string)
    requires WellFormed(job.store) && NoBackslash(job.store)
    requires tf in GetEmbeddedTemplateFiles(job.store, job.templatePath)
    ensures Produce(job, tf).Err? ==> Produce(job, tf).error.RenderFailed?
  {
    ListedIsReadable(job.store, tf);
  }

  lemma {:induction false} RunOnlyFailsToRender(t: Tree, job: Job, L: seq<string>)
    requires WellFormed(job.store) && NoBackslash(job.store)
    requires forall tf :: tf in L ==> tf in GetEmbeddedTemplateFiles(job.store, job.templatePath)
    ensures Run(t, job, L).1.Fail? ==> Run(t, job, L).1.error.RenderFailed?
    decreases L
  {
    if L != [] {
      ListedFilesOnlyFailToRender(job, L[0]);
      RunOnlyFailsToRender(Step(t, job, L[0]).0, job, L[1..]);
    }
  }

  /** With a renderer that never fails, a well-formed store is processed to
      the end. */
  lemma TotalRendererSucceeds(t: Tree, job: Job)
    requires WellFormed(job.store) && NoBackslash(job.store)
    requires forall c, ctx :: job.render(c, ctx).Ok?
    ensures Run(t, job, GetEmbeddedTemplateFiles(job.store, job.templatePath)).1.Pass?
  {
    var L := GetEmbeddedTemplateFiles(job.store, job.templatePath);
    forall i | 0 <= i < |L|
      ensures StepOk(job, L[i])
    {
      ListedFilesOnlyFailToRender(job, L[i]);
    }
    RunPassIff(t, job, L);
  }

  /** Two files writing the same output: the later one wins. */
  lemma LastWriteWins(t: Tree, job: Job, a: string, b: string, k: string)
    requires Writes(job, a, k) && Writes(job, b, k)
    requires Run(t, job, [a, b]).1.Pass?
    ensures var f := Run(t, job, [a, b]).0.files; k in f && Produce(job, b) == Ok(f[k])
  {
    RunSuccessFiles(t, job, [a, b], k);
  }

  /** "x" and "x.tmpl" of one namespace map to the same output "x". */
  lemma TemplateAndPlainShareOutput(job: Job)
    requires job.templatePath == "ns"
    ensures OutputRelative(job, "ns/x") == "x" && OutputRelative(job, "ns/x.tmpl") == "x"
  {
    assert "ns/x" == "ns/" + "x" && "ns/x.tmpl" == "ns/" + "x.tmpl";
    StartsWithConcat("ns/", "x");
    StartsWithConcat("ns/", "x.tmpl");
    assert "x.tmpl"[|"x.tmpl"| - 5..] == ".tmpl";
  }

  // ----------------------------------------------------------- file names

  /** Joining onto a base keeps the file name of the joined path. */
  lemma JoinFileName(base: string, rel: string)
    ensures FileName(PathJoin(base, rel)) == FileName(rel)
  {
    if !StartsWith(rel, "/") && base != "" {
      if EndsWith(base, "/") {
        var b' := base[..|base| - 1];
        assert base + rel == b' + ['/'] + rel;
        LastSegmentAfterSep(b', rel, '/');
      } else {
        assert base + "/" + rel == base + ['/'] + rel;
        LastSegmentAfterSep(base, rel, '/');
      }
    }
  }

  /** The output keeps the file name of the output-relative path, whatever
      the output root. */
  lemma OutputFileName(job: Job, tf: string)
    ensures FileName(OutputFile(job, tf)) == FileName(OutputRelative(job, tf))
  {
    JoinFileName(job.outputPath, OutputRelative(job, tf));
  }

  /** The file name the skip tests sees is the output's file name, with
      ".tmpl" after it when the suffix was stripped. */
  lemma ListedFileName(job: Job, tf: string)
    ensures EndsWith(RelativePath(job, tf), ".tmpl") ==>
              FileName(RelativePath(job, tf)) == FileName(OutputRelative(job, tf)) + ".tmpl"
    ensures !EndsWith(RelativePath(job, tf), ".tmpl") ==>
              FileName(RelativePath(job, tf)) == FileName(OutputRelative(job, tf))
  {
    if EndsWith(RelativePath(job, tf), ".tmpl") {
      LastSegmentAppendPlain(OutputRelative(job, tf), ".tmpl", '/');
    }
  }

  /** The pre-commit configuration, as the generators write it. */
  const PrecommitConfig: string := ".pre-commit-config.yaml"

  /** `should_skip_precommit_file` (the same in both generators): with
      pre-commit off, a file is skipped exactly when its name, less one
      ".tmpl", is the pre-commit configuration. */
  function SkipPrecommitFile(fileName: string, enablePrecommit: bool): (r: bool)
    ensures r <==> !enablePrecommit && StripSuffixOr(fileName, ".tmpl") == PrecommitConfig
  {
    assert !EndsWith(PrecommitConfig, ".tmpl");
    assert fileName == PrecommitConfig + ".tmpl" ==> EndsWith(fileName, ".tmpl");
    if !enablePrecommit then
      fileName == ".pre-commit-config.yaml.tmpl" || fileName == ".pre-commit-config.yaml"
    else false
  }

  /** With pre-commit off, a skip test that includes the pre-commit test
      lets no file write an output named after the configuration. */
  lemma NoPrecommitOutput(job: Job, tf: string, enablePrecommit: bool)
    requires !enablePrecommit
    requires Emitted(job, tf) ==> !SkipPrecommitFile(FileName(RelativePath(job, tf)), enablePrecommit)
    ensures Emitted(job, tf) ==> FileName(OutputFile(job, tf)) != PrecommitConfig
  {
    OutputFileName(job, tf);
    ListedFileName(job, tf);
    assert !EndsWith(PrecommitConfig, ".tmpl");
    if EndsWith(RelativePath(job, tf), ".tmpl") {
      var f := FileName(OutputRelative(job, tf));
      assert (f + ".tmpl")[|f + ".tmpl"| - 5..] == ".tmpl";
    }
  }
}
