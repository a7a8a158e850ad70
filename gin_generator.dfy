/** The Gin generator (src/generators/framework/gin/generator.rs): the
    namespace loop of the tree processor with the Swagger and pre-commit
    skip tests on the file name. */
module GinGenerator {
  import opened Wrappers
  import opened Strings
  import opened TemplateContext
  import opened TemplateEngine
  import opened TreeProcessor
  import GinParameters

  /** `get_template_path`: the namespace the generator's loop is given. */
  const TemplatePath: string := "frameworks/go/gin"

  /** `should_skip_swagger_file`: with Swagger off, the Swagger files and
      the generated "docs.go" are skipped. The two suffix tests of the
      source add nothing: a name ending in "swagger.json.tmpl" or
      "swagger.yaml.tmpl" already contains "swagger". */
  function SkipSwagger(fileName: string, p: GinParameters.GinParams): (r: bool)
    ensures r <==> !p.enableSwagger && (Contains(fileName, "swagger") || StartsWith(fileName, "docs.go"))
  {
    assert EndsWith(fileName, "swagger.json.tmpl") || EndsWith(fileName, "swagger.yaml.tmpl")
           ==> Contains(fileName, "swagger") by {
      if EndsWith(fileName, "swagger.json.tmpl") {
        EndsWithContains(fileName, "swagger.json.tmpl", "swagger");
      }
      if EndsWith(fileName, "swagger.yaml.tmpl") {
        EndsWithContains(fileName, "swagger.yaml.tmpl", "swagger");
      }
    }
    if !p.enableSwagger then
      Contains(fileName, "swagger") || StartsWith(fileName, "docs.go")
      || EndsWith(fileName, "swagger.json.tmpl") || EndsWith(fileName, "swagger.yaml.tmpl")
    else false
  }

  /** The Gin skip test, on the path relative to the namespace: both tests
      look at its file name only. */
  function Skip(p: GinParameters.GinParams): string -> bool
  {
    rel => SkipSwagger(FileName(rel), p) || SkipPrecommitFile(FileName(rel), p.enablePrecommit)
  }

  function GinJob(store: Store, templatePath: string, outputPath: string, ctx: Context,
                  render: Renderer, p: GinParameters.GinParams): Job
  {
    Job(store, templatePath, outputPath, ctx, render, Skip(p))
  }

  /** The namespace the generator passes meets the loop's requirement. */
  lemma TemplatePathIsAscii()
    ensures IsAscii(TemplatePath)
  {
  }

  /** `render_embedded_templates` of the Gin generator. The caller passes
      `TemplatePath`, an ASCII name, for which the source's listing and the
      corrected one are the same list. */
  method RenderEmbeddedTemplates(out: OutputTree, store: Store, templatePath: string, outputPath: string,
                                 ctx: Context, render: Renderer, p: GinParameters.GinParams)
    returns (o: Outcome<GenError>)
    requires IsAscii(templatePath)
    modifies out
    ensures var job := GinJob(store, templatePath, outputPath, ctx, render, p);
            && (out.State(), o) == Run(old(out.State()), job, GetEmbeddedTemplateFilesAsWritten(store, templatePath))
            && (out.State(), o) == Run(old(out.State()), job, GetEmbeddedTemplateFiles(store, templatePath))
  {
    ListingsAgreeOnAscii(store, templatePath);
    o := TreeProcessor.RenderEmbeddedTemplates(out, GinJob(store, templatePath, outputPath, ctx, render, p));
  }

  /** A file the Gin skip test lets through, with Swagger off, has no
      "swagger" in its output's name and no output name starting with
      "docs.go". */
  lemma SwaggerOffFileName(job: Job, tf: string, p: GinParameters.GinParams)
    requires job.skip == Skip(p) && !p.enableSwagger && Emitted(job, tf)
    ensures !Contains(FileName(OutputFile(job, tf)), "swagger") && !StartsWith(FileName(OutputFile(job, tf)), "docs.go")
  {
    OutputFileName(job, tf);
    ListedFileName(job, tf);
    AppendKeeps(FileName(OutputRelative(job, tf)), ".tmpl", "swagger");
    AppendKeeps(FileName(OutputRelative(job, tf)), ".tmpl", "docs.go");
  }

  /** A file the Gin skip test lets through, with pre-commit off, does not
      write the pre-commit configuration. */
  lemma PrecommitOffFileName(job: Job, tf: string, p: GinParameters.GinParams)
    requires job.skip == Skip(p) && !p.enablePrecommit && Emitted(job, tf)
    ensures FileName(OutputFile(job, tf)) != PrecommitConfig
  {
    assert !Skip(p)(RelativePath(job, tf));
    NoPrecommitOutput(job, tf, p.enablePrecommit);
  }

  /** With pre-commit off, no file the loop writes is named after the
      pre-commit configuration. */
  lemma PrecommitOffNoConfig(t: Tree, store: Store, templatePath: string, outputPath: string,
                             ctx: Context, render: Renderer, p: GinParameters.GinParams, L: seq<string>, k: string)
    requires !p.enablePrecommit
    requires k in Run(t, GinJob(store, templatePath, outputPath, ctx, render, p), L).0.files && k !in t.files
    ensures FileName(k) != PrecommitConfig
  {
    var job := GinJob(store, templatePath, outputPath, ctx, render, p);
    var i := NewFileWriter(t, job, L, k);
    PrecommitOffFileName(job, L[i], p);
  }

  /** With Swagger off, no file the loop writes has "swagger" in its name or
      a name starting with "docs.go". */
  lemma SwaggerOffNoSwaggerFiles(t: Tree, store: Store, templatePath: string, outputPath: string,
                                 ctx: Context, render: Renderer, p: GinParameters.GinParams, L: seq<string>, k: string)
    requires !p.enableSwagger
    requires k in Run(t, GinJob(store, templatePath, outputPath, ctx, render, p), L).0.files && k !in t.files
    ensures !Contains(FileName(k), "swagger") && !StartsWith(FileName(k), "docs.go")
  {
    var job := GinJob(store, templatePath, outputPath, ctx, render, p);
    var i := NewFileWriter(t, job, L, k);
    SwaggerOffFileName(job, L[i], p);
  }
}
