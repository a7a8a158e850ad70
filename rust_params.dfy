/** The Rust language layer (src/generators/language/rust/parameters.rs):
    a `BaseParams` with the Rust and Cargo toolchain versions. */
module RustParameters {
  import opened Wrappers
  import BaseParameters

  datatype RustParams = RustParams(
    base: BaseParameters.BaseParams,
    rustVersion: Option<string>,
    cargoVersion: Option<string>)

  /** The toolchain version the defaults name. */
  const DefaultRustVersion: string := "1.75"

  /** `Default`: Rust 1.75 both in the layer and as the base language
      version, no Cargo version. */
  function Default(): (p: RustParams)
    ensures Version(p) == Some(DefaultRustVersion) && p.base.languageVersion == Some(DefaultRustVersion)
    ensures CargoVersion(p).None?
    ensures p.base.(languageVersion := None) == BaseParameters.Default()
  {
    RustParams(BaseParameters.Default().(languageVersion := Some(DefaultRustVersion)), Some(DefaultRustVersion), None)
  }

  /** `from_base`: the record kept, no versions at all. */
  function FromBase(base: BaseParameters.BaseParams): (p: RustParams)
    ensures p.base == base && Version(p).None? && CargoVersion(p).None?
  {
    RustParams(base, None, None)
  }

  /** `new(name)`: Rust 1.75 in the layer over `BaseParams::new(name)`, whose
      language version stays unset. */
  function New(projectName: string): (p: RustParams)
    ensures p.base == BaseParameters.New(projectName) && p.base.projectName == projectName
    ensures Version(p) == Some(DefaultRustVersion) && CargoVersion(p).None?
  {
    RustParams(BaseParameters.New(projectName), Some(DefaultRustVersion), None)
  }

  /** `with_rust_version`: the layer and the base language version both
      take the new version, so they agree afterwards. */
  function WithRustVersion(p: RustParams, version: string): (r: RustParams)
    ensures Version(r) == Some(version) && r.base.languageVersion == Version(r)
    ensures r.base.(languageVersion := p.base.languageVersion) == p.base
    ensures CargoVersion(r) == CargoVersion(p)
  {
    RustParams(p.base.(languageVersion := Some(version)), Some(version), p.cargoVersion)
  }

  function WithCargoVersion(p: RustParams, version: string): (r: RustParams)
    ensures CargoVersion(r) == Some(version) && r.(cargoVersion := p.cargoVersion) == p
  {
    p.(cargoVersion := Some(version))
  }

  /** `version`: the Rust version of the layer (not the base's). */
  function Version(p: RustParams): Option<string> { p.rustVersion }

  /** `get_cargo_version` */
  function CargoVersion(p: RustParams): Option<string> { p.cargoVersion }
}
