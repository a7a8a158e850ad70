/** The project layer of the parameters (src/generators/project/parameters.rs):
    name, description, author, license, git flag and version, their
    validation and their template context. */
module ProjectParameters {
  import opened Wrappers
  import opened Strings
  import opened TemplateContext
  import opened StringUtils
  import CoreParameters

  datatype ProjectParams = ProjectParams(
    name: string,
    description: Option<string>,
    author: Option<string>,
    license: string,
    enableGit: bool,
    version: string)

  /** `Default`: no name, description or author, MIT, git on, version 0.1.0. */
  function Default(): (p: ProjectParams)
    ensures p.name == "" && p.description.None? && p.author.None?
    ensures p.license == "MIT" && p.enableGit && p.version == "0.1.0"
  {
    ProjectParams("", None, None, "MIT", true, "0.1.0")
  }

  /** `ProjectParams::new`: the defaults with the given name. */
  function New(name: string): (p: ProjectParams)
    ensures p.name == name && p.license == "MIT" && p.enableGit && p.version == "0.1.0"
    ensures p.description.None? && p.author.None?
  {
    Default().(name := name)
  }

  /** `validate`: the name first, then a non-empty license. */
  function Validate(p: ProjectParams): (r: Outcome<string>)
    ensures r.Pass? <==> CoreParameters.ValidateProjectName(p.name).Pass? && p.license != ""
    ensures CoreParameters.ValidateProjectName(p.name).Fail? ==> r == CoreParameters.ValidateProjectName(p.name)
    ensures CoreParameters.ValidateProjectName(p.name).Pass? && p.license == "" ==> r == Fail("License cannot be empty")
  {
    var name := CoreParameters.ValidateProjectName(p.name);
    if name.Fail? then name
    else if p.license == "" then Fail("License cannot be empty")
    else Pass
  }

  /** A fresh record passes validation exactly when its name does. */
  lemma NewValidatesWithName(name: string)
    ensures Validate(New(name)).Pass? <==> CoreParameters.ValidateProjectName(name).Pass?
  {
  }

  /** The keys every project context has. */
  function AlwaysKeys(): set<string>
  {
    {"project_name", "project_version", "license", "enable_git", "project_name_pascal", "project_name_snake", "year"}
  }

  /** What `to_template_context` builds; `year` stands for the current
      calendar year the source reads from the clock. */
  function Context(p: ProjectParams, year: int): (c: Context)
    ensures c.Keys == AlwaysKeys()
                      + (if p.description.Some? then {"project_description"} else {})
                      + (if p.author.Some? then {"author"} else {})
    ensures c["project_name"] == Str(p.name) && c["project_version"] == Str(p.version)
    ensures c["license"] == Str(p.license) && c["enable_git"] == Bool(p.enableGit)
    ensures c["project_name_pascal"] == Str(Pascal(p.name)) && c["project_name_snake"] == Str(Snake(p.name))
    ensures c["year"] == Num(year)
    ensures p.description.Some? ==> c["project_description"] == Str(p.description.value)
    ensures p.author.Some? ==> c["author"] == Str(p.author.value)
  {
    var fixed := map["project_name" := Str(p.name), "project_version" := Str(p.version),
                     "license" := Str(p.license), "enable_git" := Bool(p.enableGit),
                     "project_name_pascal" := Str(Pascal(p.name)), "project_name_snake" := Str(Snake(p.name))];
    var withDescription := if p.description.Some? then fixed["project_description" := Str(p.description.value)] else fixed;
    var withAuthor := if p.author.Some? then withDescription["author" := Str(p.author.value)] else withDescription;
    withAuthor["year" := Num(year)]
  }

  /** `to_template_context`: one insert after the other into a fresh map,
      the name variants computed by the case converters. */
  method ToTemplateContext(p: ProjectParams, year: int) returns (context: Context)
    ensures context == Context(p, year)
  {
    context := map[];
    context := context["project_name" := Str(p.name)];
    context := context["project_version" := Str(p.version)];
    context := context["license" := Str(p.license)];
    context := context["enable_git" := Bool(p.enableGit)];
    var pascal := ToPascalCase(p.name);
    context := context["project_name_pascal" := Str(pascal)];
    var snake := ToSnakeCase(p.name);
    context := context["project_name_snake" := Str(snake)];
    if p.description.Some? {
      context := context["project_description" := Str(p.description.value)];
    }
    if p.author.Some? {
      context := context["author" := Str(p.author.value)];
    }
    context := context["year" := Num(year)];
  }

  // ------------------------------------------------------------- builders

  function WithDescription(p: ProjectParams, description: string): (r: ProjectParams)
    ensures r.description == Some(description) && r.(description := p.description) == p
  {
    p.(description := Some(description))
  }

  function WithAuthor(p: ProjectParams, author: string): (r: ProjectParams)
    ensures r.author == Some(author) && r.(author := p.author) == p
  {
    p.(author := Some(author))
  }

  function WithLicense(p: ProjectParams, license: string): (r: ProjectParams)
    ensures r.license == license && r.(license := p.license) == p
  {
    p.(license := license)
  }

  function WithGit(p: ProjectParams, enableGit: bool): (r: ProjectParams)
    ensures r.enableGit == enableGit && r.(enableGit := p.enableGit) == p
  {
    p.(enableGit := enableGit)
  }

  function WithVersion(p: ProjectParams, version: string): (r: ProjectParams)
    ensures r.version == version && r.(version := p.version) == p
  {
    p.(version := version)
  }

  /** Setting a description or an author adds exactly that key to the
      context and changes no other entry. */
  lemma DescriptionAddsOneKey(p: ProjectParams, d: string, year: int)
    requires p.description.None?
    ensures Context(WithDescription(p, d), year).Keys == Context(p, year).Keys + {"project_description"}
    ensures forall k :: k in Context(p, year) ==> Context(WithDescription(p, d), year)[k] == Context(p, year)[k]
  {
  }
}
