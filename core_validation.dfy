/** The second set of validators in src/generators/core/validation.rs. That
    file is not declared in src/generators/core/mod.rs, so nothing calls it;
    its rules differ from the live ones in CoreParameters and are modelled
    beside them for comparison. */
module CoreValidation {
  import opened Wrappers
  import opened Strings
  import CoreParameters

  /** The characters this version refuses in a project name. */
  predicate Forbidden(c: char)
  {
    c == '<' || c == '>' || c == ':' || c == '"' || c == '|' || c == '?' || c == '*' || c == '\\' || c == '/'
  }

  predicate NoForbidden(name: string)
  {
    forall i :: 0 <= i < |name| ==> !Forbidden(name[i])
  }

  /** `validate_project_name`: non-empty, at most 100 bytes, none of the
      forbidden characters; spaces are allowed. */
  function ValidateProjectName(name: string): (r: Outcome<string>)
    ensures r.Pass? <==> name != "" && Utf8Len(name) <= 100 && NoForbidden(name)
    ensures name == "" ==> r == Fail("Project name cannot be empty")
    ensures name != "" && Utf8Len(name) > 100 ==> r == Fail("Project name is too long (max 100 characters)")
    ensures name != "" && Utf8Len(name) <= 100 && !NoForbidden(name) ==> r == Fail("Project name contains invalid characters")
  {
    if name == "" then Fail("Project name cannot be empty")
    else if Utf8Len(name) > 100 then Fail("Project name is too long (max 100 characters)")
    else if !NoForbidden(name) then Fail("Project name contains invalid characters")
    else Pass
  }

  /** `validate_port`: as the live version, with the port in the message. */
  function ValidatePort(port: CoreParameters.U16): (r: Outcome<string>)
    ensures r.Pass? <==> port >= 1024
    ensures r.Fail? ==> r.error == "Port number should be >= 1024 (got " + Decimal(port) + ")"
  {
    if port < 1024 then Fail("Port number should be >= 1024 (got " + Decimal(port) + ")") else Pass
  }

  /** `validate_host`: between 1 and 253 bytes. */
  function ValidateHost(host: string): (r: Outcome<string>)
    ensures r.Pass? <==> 1 <= Utf8Len(host) <= 253
    ensures host == "" ==> r == Fail("Host cannot be empty")
    ensures host != "" && Utf8Len(host) > 253 ==> r == Fail("Host name is too long")
  {
    Utf8LenZero(host);
    if host == "" then Fail("Host cannot be empty")
    else if Utf8Len(host) > 253 then Fail("Host name is too long")
    else Pass
  }

  lemma Utf8LenZero(s: string)
    ensures Utf8Len(s) == 0 <==> s == ""
  {
  }

  /** Both versions agree on ports. */
  lemma PortRulesAgree(port: CoreParameters.U16)
    ensures ValidatePort(port).Pass? <==> CoreParameters.ValidatePort(port).Pass?
  {
  }

  /** A name the live validator accepts is accepted here too as long as it
      fits in 100 bytes: name characters are never forbidden ones. */
  lemma LiveNamesAcceptedWhenShort(name: string)
    requires CoreParameters.ValidateProjectName(name).Pass? && Utf8Len(name) <= 100
    ensures ValidateProjectName(name).Pass?
  {
    forall i | 0 <= i < |name|
      ensures !Forbidden(name[i])
    {
      assert CoreParameters.NameChar(name[i]);
    }
  }

  /** This version accepts spaces, the live one does not. */
  lemma SpacesDiffer()
    ensures ValidateProjectName("my app").Pass? && CoreParameters.ValidateProjectName("my app").Fail?
  {
    CoreParameters.SpacedNameRejected();
  }

  /** The live version accepts names of any length, this one stops at 100 bytes. */
  lemma LongNameDiffers()
    ensures ValidateProjectName(seq(101, _ => 'a')).Fail? && CoreParameters.ValidateProjectName(seq(101, _ => 'a')).Pass?
  {
    AsciiUtf8Len(seq(101, _ => 'a'));
  }

  /** Hosts longer than 253 bytes are refused here and accepted by the live
      version. */
  lemma LongHostDiffers()
    ensures ValidateHost(seq(254, _ => 'h')).Fail? && CoreParameters.ValidateHost(seq(254, _ => 'h')).Pass?
  {
    AsciiUtf8Len(seq(254, _ => 'h'));
  }
}
