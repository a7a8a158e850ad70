/** The Tauri generator (src/generators/framework/tauri/generator.rs): the
    namespace loop of the tree processor with the pre-commit test on the
    file name and the proto-gen test on the whole relative path. */
module TauriGenerator {
  import opened Wrappers
  import opened Strings
  import opened TemplateContext
  import opened TemplateEngine
  import opened TreeProcessor
  import TauriParameters

  /** `get_template_path`: the namespace the generator's loop is given. */
  const TemplatePath: string := "frameworks/rust/tauri"

  /** `rel` has a directory called "protos" somewhere along it: it starts
      with "protos/" or holds "/protos/". */
  lemma {:induction false} ProtosComponent(rel: string)
    ensures Contains("/" + rel, "/protos/") <==> StartsWith(rel, "protos/") || Contains(rel, "/protos/")
  {
    var s := "/" + rel;
    if Contains(s, "/protos/") {
      var i :| 0 <= i <= |s| && OccursAt(s, "/protos/", i);
      if i == 0 {
        assert rel[..7] == s[1..8];
      } else {
        assert rel[i - 1..i - 1 + 8] == s[i..i + 8];
        assert OccursAt(rel, "/protos/", i - 1);
      }
    }
    if StartsWith(rel, "protos/") {
      assert s[0..8] == "/" + rel[..7];
      assert OccursAt(s, "/protos/", 0);
    }
    if Contains(rel, "/protos/") {
      var j :| 0 <= j <= |rel| && OccursAt(rel, "/protos/", j);
      assert s[j + 1..j + 1 + 8] == rel[j..j + 8];
      assert OccursAt(s, "/protos/", j + 1);
    }
  }

  /** `should_skip_proto_gen_file`: with proto-gen off, the proto-gen tool,
      every "protos" directory at any depth, and the top-level Makefile
      (template or not) are skipped. */
  function SkipProtoGen(rel: string, enableProtoGen: bool): (r: bool)
    ensures r <==> !enableProtoGen && (StartsWith(rel, "tools/proto-gen") || Contains("/" + rel, "/protos/")
                                       || StripSuffixOr(rel, ".tmpl") == "Makefile")
  {
    ProtosComponent(rel);
    assert !EndsWith("Makefile", ".tmpl");
    assert rel == "Makefile" + ".tmpl" ==> EndsWith(rel, ".tmpl");
    if !enableProtoGen then
      StartsWith(rel, "tools/proto-gen") || StartsWith(rel, "protos/") || Contains(rel, "/protos/")
      || rel == "Makefile.tmpl" || rel == "Makefile"
    else false
  }

  /** A Makefile below the top level is kept. */
  lemma NestedMakefileKept()
    ensures !SkipProtoGen("sub/Makefile", false)
  {
    var s := "/sub/Makefile";
    forall i | 0 <= i <= |s| ensures !OccursAt(s, "/protos/", i) {
      if i + 8 <= |s| {
        assert s[i..i + 8][1] == s[i + 1];
        assert s[1] == 's' && s[2] == 'u' && s[3] == 'b' && s[4] == '/' && s[5] == 'M' && s[6] == 'a';
      }
    }
    assert !Contains(s, "/protos/");
    assert "/" + "sub/Makefile" == s;
    assert !StartsWith("sub/Makefile", "tools/proto-gen");
    assert !EndsWith("sub/Makefile", ".tmpl");
    assert StripSuffixOr("sub/Makefile", ".tmpl") == "sub/Makefile";
    assert |"sub/Makefile"| != |"Makefile"|;
  }

  /** A "protos" directory is skipped at any depth. */
  lemma NestedProtosSkipped(a: string, b: string)
    ensures SkipProtoGen(a + "/protos/" + b, false)
  {
    var s := "/" + (a + "/protos/" + b);
    assert s[|a| + 1..|a| + 1 + 8] == "/protos/";
    assert OccursAt(s, "/protos/", |a| + 1);
  }

  /** The Tauri skip test on the path relative to the namespace: the
      pre-commit test on its file name, then the proto-gen test. */
  function Skip(p: TauriParameters.TauriParams): string -> bool
  {
    rel => SkipPrecommitFile(FileName(rel), TauriParameters.EnablePrecommit(p))
           || SkipProtoGen(rel, TauriParameters.EnableProtoGen(p))
  }

  function TauriJob(store: Store, templatePath: string, outputPath: string, ctx: Context,
                    render: Renderer, p: TauriParameters.TauriParams): Job
  {
    Job(store, templatePath, outputPath, ctx, render, Skip(p))
  }

  /** The namespace the generator passes meets the loop's requirement. */
  lemma TemplatePathIsAscii()
    ensures IsAscii(TemplatePath)
  {
  }

  /** `render_embedded_templates` of the Tauri generator. The caller passes
      `TemplatePath`, an ASCII name, for which the source's listing and the
      corrected one are the same list. */
  method RenderEmbeddedTemplates(out: OutputTree, store: Store, templatePath: string, outputPath: string,
                                 ctx: Context, render: Renderer, p: TauriParameters.TauriParams)
    returns (o: Outcome<GenError>)
    requires IsAscii(templatePath)
    modifies out
    ensures var job := TauriJob(store, templatePath, outputPath, ctx, render, p);
            && (out.State(), o) == Run(old(out.State()), job, GetEmbeddedTemplateFilesAsWritten(store, templatePath))
            && (out.State(), o) == Run(old(out.State()), job, GetEmbeddedTemplateFiles(store, templatePath))
  {
    ListingsAgreeOnAscii(store, templatePath);
    o := TreeProcessor.RenderEmbeddedTemplates(out, TauriJob(store, templatePath, outputPath, ctx, render, p));
  }

  /** A file the proto-gen test lets through with proto-gen off writes an
      output path with no "protos" directory, outside the proto-gen tool,
      and other than the top-level Makefile. */
  lemma ProtoGenOffFile(job: Job, tf: string)
    requires !SkipProtoGen(RelativePath(job, tf), false)
    ensures var out := OutputRelative(job, tf);
            !Contains("/" + out, "/protos/") && !StartsWith(out, "tools/proto-gen") && out != "Makefile"
  {
    var rel, out := RelativePath(job, tf), OutputRelative(job, tf);
    if EndsWith(rel, ".tmpl") {
      assert "/" + rel == ("/" + out) + ".tmpl";
      AppendKeeps("/" + out, ".tmpl", "/protos/");
      AppendKeeps(out, ".tmpl", "tools/proto-gen");
    }
  }

  /** With pre-commit off, no file the loop writes is named after the
      pre-commit configuration. */
  lemma PrecommitOffNoConfig(t: Tree, store: Store, templatePath: string, outputPath: string,
                             ctx: Context, render: Renderer, p: TauriParameters.TauriParams, L: seq<string>, k: string)
    requires !TauriParameters.EnablePrecommit(p)
    requires k in Run(t, TauriJob(store, templatePath, outputPath, ctx, render, p), L).0.files && k !in t.files
    ensures FileName(k) != PrecommitConfig
  {
    var job := TauriJob(store, templatePath, outputPath, ctx, render, p);
    var i := NewFileWriter(t, job, L, k);
    assert !Skip(p)(RelativePath(job, L[i]));
    NoPrecommitOutput(job, L[i], TauriParameters.EnablePrecommit(p));
  }

  /** With proto-gen off, every file the loop writes lies at an output path
      free of the proto-gen files. */
  lemma ProtoGenOffNoProtoFiles(t: Tree, store: Store, templatePath: string, outputPath: string,
                                ctx: Context, render: Renderer, p: TauriParameters.TauriParams, L: seq<string>, k: string)
    requires !TauriParameters.EnableProtoGen(p)
    requires k in Run(t, TauriJob(store, templatePath, outputPath, ctx, render, p), L).0.files && k !in t.files
    ensures exists out :: k == PathJoin(outputPath, out)
                          && !Contains("/" + out, "/protos/") && !StartsWith(out, "tools/proto-gen") && out != "Makefile"
  {
    var job := TauriJob(store, templatePath, outputPath, ctx, render, p);
    var i := NewFileWriter(t, job, L, k);
    assert !Skip(p)(RelativePath(job, L[i]));
    ProtoGenOffFile(job, L[i]);
    assert k == PathJoin(outputPath, OutputRelative(job, L[i]));
  }
}
