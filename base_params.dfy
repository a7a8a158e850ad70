/** The common parameter record `BaseParams` that the language and
    framework layers embed. src/generators/core/base_parameters.rs is not
    part of this model: the record holds the fields the modelled layers
    read or write, its default leaves every option empty and every flag
    false, and `BaseParams::new(name)` is that default with the project
    name set. */
module BaseParameters {
  import opened Wrappers
  import opened CoreParameters

  datatype BaseParams = BaseParams(
    projectName: string,
    defaultHost: Option<string>,
    defaultPort: Option<U16>,
    enablePrecommit: bool,
    languageVersion: Option<string>,
    moduleName: Option<string>,
    enableModules: bool,
    enableCgo: bool,
    enableVendor: bool,
    buildTags: seq<string>)

  function Default(): BaseParams
  {
    BaseParams("", None, None, false, None, None, false, false, false, [])
  }

  function New(projectName: string): BaseParams
  {
    Default().(projectName := projectName)
  }
}
