/** The shared parameter validators (`validation` in
    src/generators/core/parameters.rs, the version every parameter layer
    calls) and the default `Parameters::merge`. */
module CoreParameters {
  import opened Wrappers
  import opened Strings

  /** Rust's `u16` and `u32`. */
  type U16 = x: int | 0 <= x < 0x1_0000
  type U32 = x: int | 0 <= x < 0x1_0000_0000

  /** The characters a project name may use (alphanumeric is ASCII here). */
  predicate NameChar(c: char)
  {
    IsAlphanumeric(c) || c == '-' || c == '_'
  }

  predicate AllNameChars(name: string)
  {
    forall i :: 0 <= i < |name| ==> NameChar(name[i])
  }

  /** `validate_project_name`: three checks in order, each with its own message. */
  function ValidateProjectName(name: string): (r: Outcome<string>)
    ensures r.Pass? <==> name != "" && AllNameChars(name)
    ensures name == "" ==> r == Fail("Project name cannot be empty")
    ensures name != "" && ' ' in name ==> r == Fail("Project name cannot contain spaces")
    ensures name != "" && ' ' !in name && !AllNameChars(name) ==>
              r == Fail("Project name can only contain alphanumeric characters, hyphens, and underscores")
  {
    if name == "" then Fail("Project name cannot be empty")
    else if ' ' in name then Fail("Project name cannot contain spaces")
    else if !AllNameChars(name) then Fail("Project name can only contain alphanumeric characters, hyphens, and underscores")
    else Pass
  }

  /** `validate_port`: ports below 1024 are refused. */
  function ValidatePort(port: U16): (r: Outcome<string>)
    ensures r.Pass? <==> 1024 <= port <= 65535
    ensures r.Fail? ==> r.error == "Port number should be >= 1024"
  {
    if port < 1024 then Fail("Port number should be >= 1024") else Pass
  }

  /** `validate_host`: only the empty host is refused; there is no upper bound. */
  function ValidateHost(host: string): (r: Outcome<string>)
    ensures r.Pass? <==> |host| >= 1
    ensures r.Fail? ==> r.error == "Host cannot be empty"
  {
    if host == "" then Fail("Host cannot be empty") else Pass
  }

  /** The space check never changes the verdict, only the message: a space
      is not a name character, so the character check would refuse the name
      anyway. */
  lemma SpaceCheckOnlyChangesMessage(name: string)
    requires name != "" && ' ' in name
    ensures !AllNameChars(name)
  {
    var i :| 0 <= i < |name| && name[i] == ' ';
    assert !NameChar(name[i]);
  }

  lemma AcceptsHyphenName()
    ensures ValidateProjectName("my-app").Pass?
  {
  }

  lemma SpacedNameRejected()
    ensures ValidateProjectName("my app") == Fail("Project name cannot contain spaces")
  {
    assert "my app"[2] == ' ';
  }

  /** The default `Parameters::merge`: succeeds and leaves the receiver as
      it was, whatever `other` holds. */
  function DefaultMerge<P>(self: P, other: P): (r: (P, Outcome<string>))
    ensures r.0 == self && r.1.Pass?
  {
    (self, Pass)
  }
}
