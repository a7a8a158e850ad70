/** The Vue 3 framework layer (src/generators/framework/vue3/parameters.rs):
    a base record, a project layer and the front-end tooling switches. */
module Vue3Parameters {
  import opened Wrappers
  import opened CoreParameters
  import BaseParameters
  import ProjectParameters

  datatype Vue3Params = Vue3Params(
    base: BaseParameters.BaseParams,
    project: ProjectParameters.ProjectParams,
    nodeVersion: string,
    enableTypescript: bool,
    enableTailwind: bool,
    enableRouter: bool,
    enablePinia: bool,
    enableEslint: bool,
    enablePrettier: bool,
    packageManager: string)

  /** The Vite development server the defaults point at. */
  const DevHost: string := "localhost"
  const DevPort: U16 := 5173

  /** The settings every constructor shares: Node 20, pnpm, and every
      tooling switch on (TypeScript is always on). */
  predicate Vue3Defaults(p: Vue3Params)
  {
    && p.nodeVersion == "20" && p.packageManager == "pnpm"
    && p.enableTypescript && p.enableTailwind && p.enableRouter
    && p.enablePinia && p.enableEslint && p.enablePrettier
  }

  /** `Default` (and `new`): the shared settings over a base record
      pointing at the development server. */
  function Default(): (p: Vue3Params)
    ensures Vue3Defaults(p) && p.project == ProjectParameters.Default()
    ensures p.base == BaseParameters.Default().(defaultHost := Some(DevHost), defaultPort := Some(DevPort))
  {
    Vue3Params(BaseParameters.Default().(defaultHost := Some(DevHost), defaultPort := Some(DevPort)),
               ProjectParameters.Default(), "20", true, true, true, true, true, true, "pnpm")
  }

  /** `from_base`: the record kept as given, everything else as `Default`. */
  function FromBase(base: BaseParameters.BaseParams): (p: Vue3Params)
    ensures p.base == base && p.(base := Default().base) == Default()
  {
    Default().(base := base)
  }

  /** `from_project_name`: the base record of the name pointing at the
      development server, the project layer of the name, the shared
      settings. */
  function FromProjectName(projectName: string): (p: Vue3Params)
    ensures p.base == BaseParameters.New(projectName).(defaultHost := Some(DevHost), defaultPort := Some(DevPort))
    ensures p.base.projectName == projectName && p.project == ProjectParameters.New(projectName)
    ensures p.(base := Default().base, project := Default().project) == Default()
  {
    Vue3Params(BaseParameters.New(projectName).(defaultHost := Some(DevHost), defaultPort := Some(DevPort)),
               ProjectParameters.New(projectName), "20", true, true, true, true, true, true, "pnpm")
  }

  // ----------------------------------------------------- builders, getters

  function WithProject(p: Vue3Params, project: ProjectParameters.ProjectParams): (r: Vue3Params)
    ensures r.project == project && r.(project := p.project) == p
  {
    p.(project := project)
  }

  /** `with_precommit`: the switch lives in the base record. */
  function WithPrecommit(p: Vue3Params, enable: bool): (r: Vue3Params)
    ensures EnablePrecommit(r) == enable
    ensures r.base.(enablePrecommit := p.base.enablePrecommit) == p.base && r.(base := p.base) == p
  {
    p.(base := p.base.(enablePrecommit := enable))
  }

  function EnablePrecommit(p: Vue3Params): bool { p.base.enablePrecommit }

  function WithTailwind(p: Vue3Params, enable: bool): (r: Vue3Params)
    ensures r.enableTailwind == enable && r.(enableTailwind := p.enableTailwind) == p
  {
    p.(enableTailwind := enable)
  }

  function WithRouter(p: Vue3Params, enable: bool): (r: Vue3Params)
    ensures r.enableRouter == enable && r.(enableRouter := p.enableRouter) == p
  {
    p.(enableRouter := enable)
  }

  function WithPinia(p: Vue3Params, enable: bool): (r: Vue3Params)
    ensures r.enablePinia == enable && r.(enablePinia := p.enablePinia) == p
  {
    p.(enablePinia := enable)
  }

  function WithNodeVersion(p: Vue3Params, version: string): (r: Vue3Params)
    ensures r.nodeVersion == version && r.(nodeVersion := p.nodeVersion) == p
  {
    p.(nodeVersion := version)
  }
}
