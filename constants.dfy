/** The supported languages and frameworks and their textual forms
    (src/constants.rs). */
module Constants {
  import opened Wrappers
  import opened Strings

  datatype Language = Go | Python | Rust | TypeScript

  /** Display form, e.g. "TypeScript". */
  function LanguageAsStr(l: Language): string
  {
    match l
    case Go => "Go"
    case Python => "Python"
    case Rust => "Rust"
    case TypeScript => "TypeScript"
  }

  /** Lower-case form, used on the command line and in template paths. */
  function LanguageAsLowercase(l: Language): (r: string)
    ensures r == ToLower(LanguageAsStr(l))
  {
    match l
    case Go => "go"
    case Python => "python"
    case Rust => "rust"
    case TypeScript => "typescript"
  }

  /** Case-insensitive parse; "ts" is an alias of TypeScript. */
  function ParseLanguage(s: string): (r: Option<Language>)
    ensures r == Some(TypeScript) <==> ToLower(s) == "typescript" || ToLower(s) == "ts"
    ensures r.Some? && r != Some(TypeScript) ==> ToLower(s) == LanguageAsLowercase(r.value)
    ensures r.None? <==> ToLower(s) !in {"go", "python", "rust", "typescript", "ts"}
  {
    match ToLower(s)
    case "go" => Some(Go)
    case "python" => Some(Python)
    case "rust" => Some(Rust)
    case "typescript" => Some(TypeScript)
    case "ts" => Some(TypeScript)
    case _ => None
  }

  datatype Framework = NoFramework | Gin | GoZero | Tauri | Vue3 | React

  function FrameworkAsStr(f: Framework): string
  {
    match f
    case NoFramework => "None"
    case Gin => "Gin"
    case GoZero => "go-zero"
    case Tauri => "Tauri"
    case Vue3 => "Vue3"
    case React => "React"
  }

  /** The name shown in prompts: the plain name and a description in parentheses. */
  function FrameworkDisplayName(f: Framework): string
  {
    FrameworkAsStr(f) + " (" + FrameworkDescription(f) + ")"
  }

  function FrameworkDescription(f: Framework): string
  {
    match f
    case NoFramework => "Pure Language Project"
    case Gin => "Web Framework"
    case GoZero => "Microservice Framework"
    case Tauri => "Desktop App Framework"
    case Vue3 => "Frontend Framework"
    case React => "Frontend Framework"
  }

  /** The display name begins with the plain name followed by " (". */
  lemma FrameworkDisplayNameStartsWithName(f: Framework)
    ensures StartsWith(FrameworkDisplayName(f), FrameworkAsStr(f) + " (")
  {
    StartsWithConcat(FrameworkAsStr(f) + " (", FrameworkDescription(f) + ")");
    assert FrameworkDisplayName(f) == (FrameworkAsStr(f) + " (") + (FrameworkDescription(f) + ")");
  }

  function FrameworkAsLowercase(f: Framework): (r: string)
    ensures r == ToLower(FrameworkAsStr(f))
  {
    match f
    case NoFramework => "none"
    case Gin => "gin"
    case GoZero => "go-zero"
    case Tauri => "tauri"
    case Vue3 => "vue3"
    case React => "react"
  }

  /** Case-insensitive parse; "" means no framework and "vue" is an alias of Vue3. */
  function ParseFramework(s: string): (r: Option<Framework>)
    ensures r == Some(NoFramework) <==> ToLower(s) == "none" || s == ""
    ensures r == Some(Vue3) <==> ToLower(s) == "vue3" || ToLower(s) == "vue"
    ensures r.None? <==> ToLower(s) !in {"none", "", "gin", "go-zero", "tauri", "vue3", "vue", "react"}
  {
    match ToLower(s)
    case "none" => Some(NoFramework)
    case "" => Some(NoFramework)
    case "gin" => Some(Gin)
    case "go-zero" => Some(GoZero)
    case "tauri" => Some(Tauri)
    case "vue3" => Some(Vue3)
    case "vue" => Some(Vue3)
    case "react" => Some(React)
    case _ => None
  }

  /** The language a framework belongs to; none for the pure-language choice. */
  function FrameworkLanguage(f: Framework): (r: Option<Language>)
    ensures r.None? <==> f == NoFramework
  {
    match f
    case NoFramework => None
    case Gin => Some(Go)
    case GoZero => Some(Go)
    case Tauri => Some(Rust)
    case Vue3 => Some(TypeScript)
    case React => Some(TypeScript)
  }

  /** `is_none`: the one choice without a language. */
  predicate IsNone(f: Framework)
    ensures IsNone(f) <==> FrameworkLanguage(f).None?
  {
    f == NoFramework
  }

  /** The framework choices offered for a language. */
  function FrameworksForLanguage(l: Language): seq<Framework>
  {
    match l
    case Go => [Gin, GoZero]
    case Python => []
    case Rust => [NoFramework, Tauri]
    case TypeScript => [Vue3, React]
  }

  function AllFrameworks(): (r: seq<Framework>)
    ensures |r| == 6
    ensures forall i, j :: 0 <= i < j < |r| ==> r[i] != r[j]
  {
    [NoFramework, Gin, GoZero, Tauri, Vue3, React]
  }

  lemma AllFrameworksComplete(f: Framework)
    ensures f in AllFrameworks()
  {
    match f
    case NoFramework =>
    case Gin =>
    case GoZero =>
    case Tauri =>
    case Vue3 =>
    case React =>
  }

  // ------------------------------------------------------------- lemmas

  lemma LanguageRoundTrip(l: Language)
    ensures ParseLanguage(LanguageAsLowercase(l)) == Some(l)
    ensures ParseLanguage(LanguageAsStr(l)) == Some(l)
  {
  }

  /** Parsing ignores case: a string and its lower-case form parse alike. */
  lemma {:induction false} ParseLanguageIgnoresCase(s: string)
    ensures ParseLanguage(s) == ParseLanguage(ToLower(s))
  {
    ToLowerIdempotent(s);
  }

  lemma FrameworkRoundTrip(f: Framework)
    ensures ParseFramework(FrameworkAsLowercase(f)) == Some(f)
    ensures ParseFramework(FrameworkAsStr(f)) == Some(f)
  {
  }

  lemma {:induction false} ParseFrameworkIgnoresCase(s: string)
    ensures ParseFramework(s) == ParseFramework(ToLower(s))
  {
    ToLowerIdempotent(s);
  }

  /** Every real framework offered for a language belongs to that language,
      and every framework that belongs to a language is offered for it. */
  lemma FrameworksForLanguageAgree(l: Language, f: Framework)
    requires f != NoFramework
    ensures f in FrameworksForLanguage(l) <==> FrameworkLanguage(f) == Some(l)
  {
  }

  lemma PythonHasNoFrameworks()
    ensures FrameworksForLanguage(Python) == []
  {
  }
}
