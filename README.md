# scaffold-gen core, modelled in Dafny

scaffold-gen is a command-line tool. It creates a project skeleton for a
language (Go, Python, Rust, TypeScript) and optionally a framework (Gin,
go-zero, Tauri, Vue3, React). It renders Handlebars templates that are
embedded in the binary. This project models three parts of its core and proves
properties about them:

- **The template store and its queries** (`TemplateEngine`): the embedded
  directory tree, the recursive file listing, the namespace filter, the
  lookups, the path normalisation, and the two Handlebars helpers.
- **The tree processors**, which are the loops that turn a template namespace
  into files. Two of them are modelled:
  - `render_embedded_templates` of the Gin and Tauri generators. It is written
    once as `TreeProcessor.RenderEmbeddedTemplates`, and each generator passes
    its own skip rule (`GinGenerator`, `TauriGenerator`).
  - The older directory walker in `Scaffolding`: `Scaffold` with its
    `ParameterScope`, and the post-processing commands run after a walk.
- **The layered parameter model**:
  - the shared validators (`CoreParameters`) and the second, unused set
    (`CoreValidation`);
  - the project layer (`ProjectParameters`);
  - the language layers (`GoParameters`, `RustParameters`) over the common
    record (`BaseParameters`);
  - the framework layers (`GinParameters`, `GoZeroParameters`,
    `TauriParameters`, `Vue3Parameters`);
  - the template contexts the layers build, as maps from key to JSON value
    (`TemplateContext`);
  - the language and framework enumerations (`Constants`) and the case
    converters (`StringUtils`).

Where the source works step by step, the model is imperative:
- the listing walk;
- the case converters;
- the two generator loops;
- the directory walker;
- the post-processor loop;
- the parameter scope, a class whose map is updated in place.

Each of these methods is proved equal to a specification function over the
state it changes, and the properties are proved as lemmas about that function.
The parameter layers are immutable builders in the source (`self -> Self`),
so they are datatypes with functions.

The file system is an `OutputTree` object: written files map a path to its
contents, and a set holds the existing directories. Failures are `Result` and
`Outcome` values carrying the message the source builds. Rust strings are
`seq<char>`. Rust's byte length (`str::len`) is modelled as `Strings.Utf8Len`
where a byte count matters.

## Model

| member | source | states |
|---|---|---|
| `Constants.LanguageAsLowercase` | src/constants.rs:29-36 | the lower-case form of a language is its display name lower-cased |
| `Constants.LanguageAsStr` | src/constants.rs:18-25 | the display names "Go", "Python", "Rust", "TypeScript"; `LanguageRoundTrip` proves each parses back to its language |
| `Constants.ParseLanguage` | src/constants.rs:40-48 | parses case-insensitively; "ts" and "typescript" give TypeScript; any other text outside the four names gives none |
| `Constants.LanguageRoundTrip` | src/constants.rs:18-48 | parsing the display or lower-case form of a language gives that language back |
| `Constants.ParseLanguageIgnoresCase` | src/constants.rs:40-48 | a string and its lower-case form parse to the same language |
| `Constants.FrameworkDisplayNameStartsWithName` | src/constants.rs:72-94 | every display name is the plain name followed by " (" |
| `Constants.FrameworkAsLowercase` | src/constants.rs:97-106 | the lower-case form of a framework is its plain name lower-cased |
| `Constants.FrameworkAsStr` | src/constants.rs:72-81 | the plain names of the six choices; `FrameworkRoundTrip` proves each parses back |
| `Constants.FrameworkDisplayName` | src/constants.rs:84-94 | the menu text; `FrameworkDisplayNameStartsWithName` proves it starts with the plain name and " (" |
| `Constants.FrameworkDescription` | src/constants.rs:84-93 | the text in parentheses of each menu entry; `FrameworkDisplayName` is built from it and `FrameworkDisplayNameStartsWithName` states the shape of the result |
| `Constants.ParseFramework` | src/constants.rs:109-120 | "none" or the empty text give no framework, "vue"/"vue3" give Vue3, and unknown text gives none |
| `Constants.FrameworkRoundTrip` | src/constants.rs:72-120 | parsing the plain or lower-case form of a framework gives that framework back |
| `Constants.ParseFrameworkIgnoresCase` | src/constants.rs:109-120 | a string and its lower-case form parse to the same framework |
| `Constants.FrameworkLanguage` | src/constants.rs:123-133 | only the "none" choice has no language |
| `Constants.IsNone` | src/constants.rs:136-138 | holds exactly for the choice that has no language |
| `Constants.FrameworksForLanguageAgree` | src/constants.rs:141-149 | a real framework is offered for a language exactly when it belongs to that language |
| `Constants.FrameworksForLanguage` | src/constants.rs:141-149 | the frameworks offered per language; `FrameworksForLanguageAgree` proves the list is exactly the frameworks of that language |
| `Constants.PythonHasNoFrameworks` | src/constants.rs:141-149 | Python is offered no framework |
| `Constants.AllFrameworks` | src/constants.rs:152-161 | six distinct frameworks |
| `Constants.AllFrameworksComplete` | src/constants.rs:152-161 | every framework is in the list |
| `StringUtils.ToPascalCase` | src/constants.rs:231-252 | the loop computes the reference PascalCase form: separators dropped, each word start upper-cased |
| `StringUtils.PascalShape` | src/constants.rs:231-252 | the result has no '_' or '-' and is as long as the input less its separators |
| `StringUtils.PascalAt` | src/constants.rs:231-252 | each non-separator character lands at its index less the separators before it |
| `StringUtils.PascalSplitsAtSeparator` | src/constants.rs:236-238 | a separator splits the conversion, and the part after it starts a new word |
| `StringUtils.PascalExampleHelloWorld` | src/constants.rs:291 | "hello_world" becomes "HelloWorld" |
| `StringUtils.PascalExampleSingle` | src/constants.rs:293 | "single" becomes "Single" |
| `StringUtils.LowerWithSeparator` | src/constants.rs:256-283 | the shared loop of the snake and kebab converters computes the reference separated form |
| `StringUtils.ToSnakeCase` | src/constants.rs:271-283 | computes the snake form |
| `StringUtils.ToKebabCase` | src/constants.rs:256-268 | computes the kebab form |
| `StringUtils.SnakeShape` | src/constants.rs:256-283 | no upper-case letters; the length is the input plus one per upper-case letter after the first character |
| `StringUtils.SeparatedContents` | src/constants.rs:256-283 | removing the separators from the result leaves the lower-cased input without them |
| `StringUtils.SeparatedFixpoint` | src/constants.rs:256-283 | a string without upper-case letters is unchanged |
| `StringUtils.SnakeIdempotent` | src/constants.rs:271-283 | converting twice is converting once |
| `StringUtils.SeparatedAppend` | src/constants.rs:256-283 | the conversion distributes over concatenation |
| `StringUtils.SnakeExampleHelloWorld` | src/constants.rs:305 | "HelloWorld" becomes "hello_world" |
| `StringUtils.KebabExampleHelloWorld` | src/constants.rs:298 | "HelloWorld" becomes "hello-world" |
| `CoreParameters.ValidateProjectName` | src/generators/core/parameters.rs:39-59 | passes exactly for a non-empty name of ASCII alphanumerics, '-' and '_'; each failing check has its own message, in order |
| `CoreParameters.ValidatePort` | src/generators/core/parameters.rs:62-68 | passes exactly for ports of 1024 and up |
| `CoreParameters.ValidateHost` | src/generators/core/parameters.rs:71-77 | only the empty host fails |
| `CoreParameters.SpaceCheckOnlyChangesMessage` | src/generators/core/parameters.rs:44-55 | a name with a space would fail the character check anyway |
| `CoreParameters.AcceptsHyphenName` | src/generators/core/parameters.rs:39-59 | "my-app" passes |
| `CoreParameters.SpacedNameRejected` | src/generators/core/parameters.rs:44-46 | "my app" fails with the space message |
| `CoreParameters.DefaultMerge` | src/generators/core/parameters.rs:15-17 | the default merge passes and leaves the receiver as it was |
| `CoreValidation.ValidateProjectName` | src/generators/core/validation.rs:4-24 | passes exactly for a non-empty name of at most 100 bytes without forbidden characters; the empty, too-long and invalid-character failures each carry their own message, in that order |
| `CoreValidation.ValidatePort` | src/generators/core/validation.rs:27-37 | passes exactly for ports of 1024 and up; the message carries the port |
| `CoreValidation.ValidateHost` | src/generators/core/validation.rs:40-50 | passes exactly for 1 to 253 bytes; the empty host and the too-long host each fail with their own message |
| `CoreValidation.PortRulesAgree` | src/generators/core/validation.rs:27-37 | both port validators accept the same ports |
| `CoreValidation.LiveNamesAcceptedWhenShort` | src/generators/core/validation.rs:4-24 | a name the live validator accepts passes here when it is at most 100 bytes |
| `CoreValidation.SpacesDiffer` | src/generators/core/validation.rs:4-24 | "my app" passes here and fails the live validator |
| `CoreValidation.LongNameDiffers` | src/generators/core/validation.rs:10-12 | a 101-character name fails here and passes the live validator |
| `CoreValidation.LongHostDiffers` | src/generators/core/validation.rs:44-46 | a 254-character host fails here and passes the live validator |
| `TemplateContext.Extend` | src/generators/framework/gin/parameters.rs:86-92 | the keys are the union; on a shared key the incoming value wins; other keys keep their values |
| `TemplateContext.InsertAll` | src/generators/framework/gin/parameters.rs:95-118 | a run of inserts adds exactly the inserted keys |
| `ProjectParameters.New` | src/generators/project/parameters.rs:98-104 | the defaults (MIT, git on, 0.1.0, no description or author) with the name |
| `ProjectParameters.Default` | src/generators/project/parameters.rs:26-37 | no name, description or author; license "MIT", git on, version "0.1.0" |
| `ProjectParameters.Validate` | src/generators/project/parameters.rs:40-48 | passes exactly when the name passes and the license is non-empty; the name's error comes first |
| `ProjectParameters.NewValidatesWithName` | src/generators/project/parameters.rs:40-48 | a new record validates exactly when its name does |
| `ProjectParameters.Context` | src/generators/project/parameters.rs:50-81 | the keys are the seven fixed ones plus description and author when set; each key holds its field, the name variants and the year |
| `ProjectParameters.ToTemplateContext` | src/generators/project/parameters.rs:50-81 | the insert sequence builds the context above |
| `ProjectParameters.DescriptionAddsOneKey` | src/generators/project/parameters.rs:66-72 | setting a description adds that key and changes no other entry |
| `ProjectParameters.WithDescription` | src/generators/project/parameters.rs:106-110 | sets the description and nothing else |
| `ProjectParameters.WithAuthor` | src/generators/project/parameters.rs:112-116 | sets the author and nothing else |
| `ProjectParameters.WithLicense` | src/generators/project/parameters.rs:118-122 | sets the license and nothing else |
| `ProjectParameters.WithGit` | src/generators/project/parameters.rs:124-128 | sets the git flag and nothing else |
| `ProjectParameters.WithVersion` | src/generators/project/parameters.rs:131-135 | sets the version and nothing else |
| `GoParameters.Default` | src/generators/language/go/parameters.rs:16-27 | Go 1.21, modules on, cgo and vendoring off, no module |
| `GoParameters.FromBase` | src/generators/language/go/parameters.rs:38-43 | wraps the record unchanged |
| `GoParameters.New` | src/generators/language/go/parameters.rs:47-66 | keeps the module whole; the project name is its last path segment; Go defaults |
| `GoParameters.InferModuleName` | src/generators/language/go/parameters.rs:100-107 | the example prefix, then each character of the name lower-cased with spaces as hyphens |
| `GoParameters.FromProjectName` | src/generators/language/go/parameters.rs:68-71 | the module is the inferred one; Go defaults |
| `GoParameters.FromProjectNameKeepsName` | src/generators/language/go/parameters.rs:68-107 | a name without '/' comes back lower-cased with hyphens as the project name |
| `GoParameters.NewPlainModule` | src/generators/language/go/parameters.rs:47-66 | a module without '/' is its own project name |
| `GoParameters.WithVersion` | src/generators/language/go/parameters.rs:73-78 | sets the version and nothing else |
| `GoParameters.WithCgo` | src/generators/language/go/parameters.rs:80-85 | sets cgo and nothing else |
| `GoParameters.WithBuildTag` | src/generators/language/go/parameters.rs:87-92 | appends the tag after the earlier ones, which are kept in order |
| `GoParameters.WithVendor` | src/generators/language/go/parameters.rs:94-98 | sets vendoring and nothing else |
| `GoParameters.Version` | src/generators/language/go/parameters.rs:109-111 | reads the base record's language version; `WithVersion`'s contract is stated through it |
| `GoParameters.ModuleName` | src/generators/language/go/parameters.rs:113-115 | reads the module path of the base record |
| `GoParameters.EnableModules` | src/generators/language/go/parameters.rs:117-119 | reads the modules flag of the base record |
| `GoParameters.EnableCgo` | src/generators/language/go/parameters.rs:121-123 | reads the cgo flag; `WithCgo`'s contract is stated through it |
| `GoParameters.BuildTags` | src/generators/language/go/parameters.rs:125-127 | reads the build tags; `WithBuildTag`'s contract is stated through it |
| `GoParameters.EnableVendor` | src/generators/language/go/parameters.rs:129-131 | reads the vendor flag; `WithVendor`'s contract is stated through it |
| `RustParameters.Default` | src/generators/language/rust/parameters.rs:17-29 | Rust 1.75 in both the layer and the base record, no cargo version |
| `RustParameters.FromBase` | src/generators/language/rust/parameters.rs:40-48 | keeps the base; no Rust or cargo version |
| `RustParameters.New` | src/generators/language/rust/parameters.rs:51-60 | a base record with the name, Rust 1.75 |
| `RustParameters.WithRustVersion` | src/generators/language/rust/parameters.rs:62-67 | the layer and the base record both take the version; nothing else changes |
| `RustParameters.WithCargoVersion` | src/generators/language/rust/parameters.rs:69-73 | sets the cargo version and nothing else |
| `RustParameters.Version` | src/generators/language/rust/parameters.rs:75-77 | reads the layer's Rust version; `WithRustVersion` and `Default` are stated through it |
| `RustParameters.CargoVersion` | src/generators/language/rust/parameters.rs:80-82 | reads the cargo version; `WithCargoVersion` is stated through it |
| `GinParameters.Default` | src/generators/framework/gin/parameters.rs:44-62 | localhost:8080; swagger, CORS, logging, recovery and pre-commit on; the rest off |
| `GinParameters.FromProjectAndGo` | src/generators/framework/gin/parameters.rs:156-163 | the given layers over the Gin defaults |
| `GinParameters.Validate` | src/generators/framework/gin/parameters.rs:65-81 | passes exactly when project, Go layer, host and port pass and a database has a type; the project, Go, host, port and database failures are each stated, in that order |
| `GinParameters.ContextLayers` | src/generators/framework/gin/parameters.rs:83-121 | Gin keys are present and hold the Gin entry; other keys come from the Go context, then the project context |
| `GinParameters.GinKeysWin` | src/generators/framework/gin/parameters.rs:94-118 | every Gin entry is the value of its key in the finished context, whatever the Go and project layers hold |
| `GinParameters.Switches` | src/generators/framework/gin/parameters.rs:97-108 | the nine switch keys, "enable_precommit" among them, hold the Gin layer's booleans |
| `GinParameters.HostAndPort` | src/generators/framework/gin/parameters.rs:95-96 | "host" and "port" hold the server settings |
| `GinParameters.ServerAddr` | src/generators/framework/gin/parameters.rs:115-118 | "server_addr" is host, ':' and the decimal port |
| `GinParameters.DatabaseType` | src/generators/framework/gin/parameters.rs:110-112 | "database_type" is present exactly when a type is set, and holds it |
| `GinParameters.Entries` | src/generators/framework/gin/parameters.rs:94-118 | the Gin inserts in source order; `EntriesDistinct` proves their keys distinct and `GinKeysWin` that each holds its value in the context |
| `GinParameters.Lower` | src/generators/framework/gin/parameters.rs:84-92 | the project context extended by the Go context; `ContextLayers` states which layer a non-Gin key comes from |
| `GinParameters.Context` | src/generators/framework/gin/parameters.rs:83-121 | `to_template_context`; stated by `ContextLayers`, `GinKeysWin`, `Switches`, `HostAndPort`, `ServerAddr` and `DatabaseType` |
| `GinParameters.ProjectNameReachesTemplates` | src/generators/framework/gin/parameters.rs:86-88 | without a Go override, the project name and its PascalCase form reach the templates |
| `GinParameters.WithProject` | src/generators/framework/gin/parameters.rs:166-171 | replaces the project layer only |
| `GinParameters.WithGo` | src/generators/framework/gin/parameters.rs:173-177 | replaces the Go layer only |
| `GinParameters.WithServer` | src/generators/framework/gin/parameters.rs:179-184 | sets host and port only |
| `GinParameters.WithSwagger` | src/generators/framework/gin/parameters.rs:186-190 | sets swagger only |
| `GinParameters.WithCors` | src/generators/framework/gin/parameters.rs:192-196 | sets CORS only |
| `GinParameters.WithJwt` | src/generators/framework/gin/parameters.rs:198-202 | sets JWT only |
| `GinParameters.WithDatabase` | src/generators/framework/gin/parameters.rs:204-209 | turns the database on with the type; nothing else |
| `GinParameters.WithRedis` | src/generators/framework/gin/parameters.rs:211-216 | sets Redis only |
| `GinParameters.WithRateLimit` | src/generators/framework/gin/parameters.rs:218-222 | sets rate limiting only |
| `GinParameters.WithPrecommit` | src/generators/framework/gin/parameters.rs:224-228 | sets pre-commit only |
| `GinParameters.WithDatabasePassesDatabaseCheck` | src/generators/framework/gin/parameters.rs:74-78 | after `with_database`, validation does not fail on the database check |
| `GinParameters.DatabaseWithoutType` | src/generators/framework/gin/parameters.rs:74-78 | a database without a type never validates |
| `GinParameters.DefaultValidatesWithName` | src/generators/framework/gin/parameters.rs:44-81 | the defaults with a valid project name validate |
| `GoZeroParameters.Default` | src/generators/framework/go_zero/parameters.rs:17-25 | no name; API on, RPC and admin off |
| `GoZeroParameters.Validate` | src/generators/framework/go_zero/parameters.rs:59-61 | always passes |
| `GoZeroParameters.ContextKeys` | src/generators/framework/go_zero/parameters.rs:63-88 | three switch keys, plus the three name keys exactly when a name is set |
| `GoZeroParameters.ContextSwitches` | src/generators/framework/go_zero/parameters.rs:67-69 | each switch key holds its flag |
| `GoZeroParameters.ContextName` | src/generators/framework/go_zero/parameters.rs:72-85 | the name and its Pascal and snake forms |
| `GoZeroParameters.Entries` | src/generators/framework/go_zero/parameters.rs:66-85 | the three switches, then the name keys when a name is set; `ContextKeys` states the resulting key set |
| `GoZeroParameters.Context` | src/generators/framework/go_zero/parameters.rs:63-88 | `to_template_context`; stated by `ContextKeys`, `ContextSwitches` and `ContextName` |
| `GoZeroParameters.WithProjectName` | src/generators/framework/go_zero/parameters.rs:34-38 | sets the name only |
| `GoZeroParameters.WithApi` | src/generators/framework/go_zero/parameters.rs:40-44 | sets API only |
| `GoZeroParameters.WithRpc` | src/generators/framework/go_zero/parameters.rs:46-50 | sets RPC only |
| `GoZeroParameters.WithAdmin` | src/generators/framework/go_zero/parameters.rs:52-56 | sets admin only |
| `TauriParameters.Default` | src/generators/framework/tauri/parameters.rs:33-53 | localhost:1420, vue, dark mode, skeleton, 800x600, proto-gen on, "com.example.app" |
| `TauriParameters.FromBase` | src/generators/framework/tauri/parameters.rs:64-78 | the base given, every other field at its default |
| `TauriParameters.Identifier` | src/generators/framework/tauri/parameters.rs:92-95 | "com." + middle + ".app", where the middle has no '-', no '_' and no upper-case letter; the lemmas below tie the middle to the name |
| `TauriParameters.IdentifierOfPlainName` | src/generators/framework/tauri/parameters.rs:92-95 | a lower-case name without separators is kept as the middle |
| `TauriParameters.IdentifierDropsSeparator` | src/generators/framework/tauri/parameters.rs:92-95 | a '-' or '_' in the name does not change the identifier |
| `TauriParameters.IdentifierIgnoresCase` | src/generators/framework/tauri/parameters.rs:92-95 | a name and its lower-case form have the same identifier; with the two lemmas above this fixes the identifier of every name |
| `TauriParameters.FromProjectName` | src/generators/framework/tauri/parameters.rs:88-112 | the base with the name and dev server, the project and Rust layers from the name, the derived identifier, the Tauri defaults |
| `TauriParameters.WithFrontendFramework` | src/generators/framework/tauri/parameters.rs:114-119 | sets the frontend only |
| `TauriParameters.WithDarkMode` | src/generators/framework/tauri/parameters.rs:121-126 | sets dark mode only |
| `TauriParameters.WithSkeleton` | src/generators/framework/tauri/parameters.rs:128-133 | sets the skeleton only |
| `TauriParameters.WithWindowSize` | src/generators/framework/tauri/parameters.rs:135-141 | sets both dimensions only |
| `TauriParameters.WithIdentifier` | src/generators/framework/tauri/parameters.rs:143-147 | sets the identifier only |
| `TauriParameters.WithProject` | src/generators/framework/tauri/parameters.rs:149-154 | replaces the project layer only |
| `TauriParameters.WithRust` | src/generators/framework/tauri/parameters.rs:156-160 | replaces the Rust layer only |
| `TauriParameters.WithPrecommit` | src/generators/framework/tauri/parameters.rs:162-171 | sets the flag in the base record; `enable_precommit` then reads it back |
| `TauriParameters.WithProtoGen` | src/generators/framework/tauri/parameters.rs:174-182 | sets proto-gen; `enable_proto_gen` reads it back |
| `TauriParameters.EnablePrecommit` | src/generators/framework/tauri/parameters.rs:168-170 | reads the base record's pre-commit flag; `WithPrecommit` and the Tauri loop's skip test are stated through it |
| `TauriParameters.EnableProtoGen` | src/generators/framework/tauri/parameters.rs:180-182 | reads the proto-gen flag; `WithProtoGen` and the Tauri loop's skip test are stated through it |
| `Vue3Parameters.Default` | src/generators/framework/vue3/parameters.rs:32-52 | localhost:5173, Node 20, pnpm, every switch on |
| `Vue3Parameters.FromBase` | src/generators/framework/vue3/parameters.rs:63-77 | the base given, every other field at its default |
| `Vue3Parameters.FromProjectName` | src/generators/framework/vue3/parameters.rs:87-105 | the base with the name and dev server, the project layer from the name, the other defaults |
| `Vue3Parameters.WithProject` | src/generators/framework/vue3/parameters.rs:107-111 | replaces the project layer only |
| `Vue3Parameters.WithPrecommit` | src/generators/framework/vue3/parameters.rs:113-122 | sets the flag in the base record; `enable_precommit` reads it back |
| `Vue3Parameters.EnablePrecommit` | src/generators/framework/vue3/parameters.rs:119-121 | reads the base record's pre-commit flag; `WithPrecommit` is stated through it |
| `Vue3Parameters.WithTailwind` | src/generators/framework/vue3/parameters.rs:125-130 | sets Tailwind only |
| `Vue3Parameters.WithRouter` | src/generators/framework/vue3/parameters.rs:132-137 | sets the router only |
| `Vue3Parameters.WithPinia` | src/generators/framework/vue3/parameters.rs:139-144 | sets Pinia only |
| `Vue3Parameters.WithNodeVersion` | src/generators/framework/vue3/parameters.rs:146-150 | sets the Node version only |
| `TemplateEngine.NormalizeShape` | src/template_engine.rs:10-12 | same length, no back-slash, every other character in place |
| `TemplateEngine.NormalizePath` | src/template_engine.rs:10-12 | turns every back-slash into a slash; `NormalizeShape`, `NormalizeKeepsClean` and `NormalizeIdempotent` state its properties |
| `TemplateEngine.NormalizeKeepsClean` | src/template_engine.rs:10-12 | a path without back-slashes is unchanged |
| `TemplateEngine.NormalizeIdempotent` | src/template_engine.rs:10-12 | normalising twice is normalising once |
| `TemplateEngine.Split` | src/template_engine.rs:103 | at least one piece, none containing the separator |
| `TemplateEngine.SplitJoin` | src/template_engine.rs:103 | joining the pieces with the separator gives the text back |
| `TemplateEngine.CamelWord` | src/template_engine.rs:104-112 | same length; the first letter is not lower-case, the rest are not upper-case |
| `TemplateEngine.CamelCaseChars` | src/template_engine.rs:102-114 | the split-map-concatenate form equals a single left-to-right pass |
| `TemplateEngine.CamelCaseShape` | src/template_engine.rs:102-114 | no '-' and as long as the input less its hyphens |
| `TemplateEngine.CamelCaseExample` | src/template_engine.rs:102-114 | "my-app" becomes "MyApp" |
| `TemplateEngine.ToCamelCase` | src/template_engine.rs:102-114 | split at '-', each word with its first letter upper-cased and the rest lower-cased, joined; `CamelCaseChars` proves it equal to a single pass and `CamelCaseShape` gives its shape |
| `TemplateEngine.HelperSnakeCase` | src/template_engine.rs:117-119 | same length, no '-', no upper-case letter |
| `TemplateEngine.HelperSnakeIdempotent` | src/template_engine.rs:117-119 | converting twice is converting once |
| `TemplateEngine.HelperArgDefault` | src/template_engine.rs:75-99 | a missing or non-string argument writes the empty string; a string is converted |
| `TemplateEngine.HelperArg` | src/template_engine.rs:75-99 | the helper's first argument as a string, "" when missing or not a string; `HelperArgDefault` states both cases |
| `TemplateEngine.CamelHelper` | src/template_engine.rs:75-86 | `to_camel_case` of the argument; `HelperArgDefault` states its value |
| `TemplateEngine.SnakeHelper` | src/template_engine.rs:88-99 | `to_snake_case` of the argument; `HelperArgDefault` states its value |
| `TemplateEngine.CollectFilesRecursive` | src/template_engine.rs:194-217 | appends the listing: the files of a directory in order, then each sub-directory's listing |
| `TemplateEngine.Listing` | src/template_engine.rs:194-217 | the full listing: a directory's files in order, then each sub-directory's listing; `CollectFilesRecursive` is proved to compute it and `ListedHasFile` proves every listed path names a file |
| `TemplateEngine.FilterUnder` | src/template_engine.rs:225-233 | keeps, in order, exactly the files under the directory, each as many times as the listing has it |
| `TemplateEngine.FilterUnderAsWritten` | src/template_engine.rs:225-233 | keeps, in order, exactly the files the byte-offset test accepts |
| `TemplateEngine.GetEmbeddedTemplateFiles` | src/template_engine.rs:193-235 | the whole listing for the root; otherwise, in order, the listed files that start with "dir/", each as many times as the listing has it |
| `TemplateEngine.GetEmbeddedTemplateFilesAsWritten` | src/template_engine.rs:193-235 | as written, with the byte-offset test |
| `TemplateEngine.UnderDirIsPrefix` | src/template_engine.rs:228-230 | the corrected test is "starts with dir/" |
| `TemplateEngine.FilterAgreesOnAscii` | src/template_engine.rs:228-230 | for an ASCII directory name the written test and the corrected one agree |
| `TemplateEngine.FilterListsAgreeOnAscii` | src/template_engine.rs:225-233 | for an ASCII directory the written filter keeps the same files in the same order as the corrected one |
| `TemplateEngine.ListingsAgreeOnAscii` | src/template_engine.rs:193-235 | for an ASCII namespace the listing as written equals the corrected listing |
| `TemplateEngine.FilterAsWrittenCounterexample` | src/template_engine.rs:228-230 | with "é" the written test accepts "éa/b" and refuses "é/x" |
| `TemplateEngine.FindEntry` | src/template_engine.rs:186-190 | a found entry lies at the path |
| `TemplateEngine.GetEmbeddedTemplateContent` | src/template_engine.rs:186-190 | content is returned only for a file at the path |
| `TemplateEngine.EmbeddedTemplateExists` | src/template_engine.rs:142-144 | true exactly when content is found |
| `TemplateEngine.ReadEmbeddedTemplate` | src/template_engine.rs:131-139 | the content when it exists, otherwise the "not found" message with the path |
| `TemplateEngine.EntryUnique` | src/template_engine.rs:186-190 | in a well-formed store one path names at most one entry |
| `TemplateEngine.FindEntryComplete` | src/template_engine.rs:186-190 | every entry at the path is found |
| `TemplateEngine.FindEntryExact` | src/template_engine.rs:186-190 | in a well-formed store the lookup returns the entry at the path |
| `TemplateEngine.ListedHasFile` | src/template_engine.rs:194-217 | every listed path is the path of a file in the store |
| `TemplateEngine.ListedIsReadable` | src/template_engine.rs:131-217 | every listed file of a well-formed store can be read |
| `TemplateEngine.CheckDirRecursive` | src/template_engine.rs:161-180 | true exactly when the current path is the target or a directory below it is |
| `TemplateEngine.EmbeddedTemplateDirExists` | src/template_engine.rs:147-183 | the loop agrees with the directory-existence definition |
| `TemplateEngine.DirExists` | src/template_engine.rs:147-183 | a root file at the path, or a directory at or below it; `EmbeddedTemplateDirExists` computes it and `DirExistsWellFormed` simplifies it |
| `TemplateEngine.DirExistsWellFormed` | src/template_engine.rs:147-183 | in a well-formed store a non-empty path exists exactly when it is a directory |
| `TemplateEngine.RenderTemplateContent` | src/template_engine.rs:37-48 | the renderer's result, with the context message on failure |
| `TemplateEngine.RenderTemplate` | src/template_engine.rs:50-71 | a missing template fails with the read message; otherwise the renderer's verdict on the stored content |
| `TemplateEngine.RenderTemplateNormalises` | src/template_engine.rs:55 | back-slash and slash spellings of a path render alike |
| `TreeProcessor.PathJoin` | src/generators/framework/gin/generator.rs:90 | a relative part is appended below a non-empty base |
| `TreeProcessor.Ancestors` | src/generators/framework/gin/generator.rs:93-96 | the directory and every ancestor of it |
| `TreeProcessor.RelativePath` | src/generators/framework/gin/generator.rs:63-68 | the namespace prefix is removed when present, otherwise the path is kept |
| `TreeProcessor.OutputRelative` | src/generators/framework/gin/generator.rs:84-88 | one trailing ".tmpl" is removed |
| `TreeProcessor.Produce` | src/generators/framework/gin/generator.rs:99-138 | a template gives its rendered content, a plain file its content; a missing one gives the matching error |
| `TreeProcessor.Message` | src/generators/framework/gin/generator.rs:104-137 | a render failure names the template file first and the cause last; the two not-found texts name the file |
| `TreeProcessor.Step` | src/generators/framework/gin/generator.rs:62-138 | one iteration: a skipped file changes nothing; otherwise the parent directories are created and the produced content written, or the loop fails with the file's error; `RunFailsAtFirst` and `LastWriteWins` use it |
| `TreeProcessor.Run` | src/generators/framework/gin/generator.rs:62-141 | the loop over a listing, stopping at the first failure; `RenderEmbeddedTemplates` computes it and `RunPassIff`, `RunFailsAtFirst`, `RunSuccessFiles` and `RunSuccessDirs` state its result |
| `TreeProcessor.OutputTree.CreateDirAll` | src/generators/framework/gin/generator.rs:93-96 | adds the directory and its ancestors |
| `TreeProcessor.OutputTree.Write` | src/generators/framework/gin/generator.rs:112-117 | creates or overwrites one file |
| `TreeProcessor.RenderEmbeddedTemplates` | src/generators/framework/gin/generator.rs:46-143 | the loop's files, directories and outcome are those of `Run` over the listing |
| `TreeProcessor.RunAppend` | src/generators/framework/gin/generator.rs:62-140 | running two listings one after the other is running their concatenation |
| `TreeProcessor.FailureIgnoresRest` | src/generators/framework/gin/generator.rs:99-138 | after a failure nothing later is looked at |
| `TreeProcessor.RunPassIff` | src/generators/framework/gin/generator.rs:62-142 | the loop passes exactly when every file is skipped or can be produced |
| `TreeProcessor.RunFailsAtFirst` | src/generators/framework/gin/generator.rs:99-138 | the error is the first unproducible file's, and the tree is as after the files before it |
| `TreeProcessor.LastWriter` | src/generators/framework/gin/generator.rs:112-133 | the last file of the listing that writes a path |
| `TreeProcessor.RunSuccessFiles` | src/generators/framework/gin/generator.rs:112-133 | after success each path holds what its last writer produced, or its old content |
| `TreeProcessor.NewFilesComeFromEmitted` | src/generators/framework/gin/generator.rs:70-82 | every new file is written by a listed file that was not skipped |
| `TreeProcessor.RunSuccessDirs` | src/generators/framework/gin/generator.rs:93-96 | after success the directories are exactly the old ones plus the parent of every emitted output and that parent's ancestors |
| `TreeProcessor.ListedFilesOnlyFailToRender` | src/generators/framework/gin/generator.rs:99-138 | in a well-formed store a listed file can fail only by rendering |
| `TreeProcessor.RunOnlyFailsToRender` | src/generators/framework/gin/generator.rs:99-138 | over listed files the loop fails only by rendering |
| `TreeProcessor.TotalRendererSucceeds` | src/generators/framework/gin/generator.rs:46-143 | with a renderer that never fails, a well-formed store is processed to the end |
| `TreeProcessor.LastWriteWins` | src/generators/framework/gin/generator.rs:112-133 | of two files with the same output, the later one's content stays |
| `TreeProcessor.TemplateAndPlainShareOutput` | src/generators/framework/gin/generator.rs:84-88 | "x" and "x.tmpl" write the same output |
| `TreeProcessor.JoinFileName` | src/generators/framework/gin/generator.rs:90 | joining keeps the file name |
| `TreeProcessor.OutputFileName` | src/generators/framework/gin/generator.rs:84-90 | the output's file name is that of the output-relative path |
| `TreeProcessor.ListedFileName` | src/generators/framework/gin/generator.rs:70-88 | the tested file name is the output's, plus ".tmpl" when that was stripped |
| `TreeProcessor.SkipPrecommitFile` | src/generators/framework/gin/generator.rs:205-212 | with pre-commit off, skips exactly the names that are the configuration less one ".tmpl" |
| `TreeProcessor.NoPrecommitOutput` | src/generators/framework/gin/generator.rs:205-212 | a file that passes that test never writes the configuration |
| `GinGenerator.SkipSwagger` | src/generators/framework/gin/generator.rs:192-202 | with swagger off, skips names containing "swagger" or starting with "docs.go" |
| `GinGenerator.Skip` | src/generators/framework/gin/generator.rs:68-81 | the swagger test, then the pre-commit test, on the file name; `SwaggerOffNoSwaggerFiles` and `PrecommitOffNoConfig` state what the loop then never writes |
| `GinGenerator.TemplatePathIsAscii` | src/generators/framework/gin/generator.rs:40-42 | the namespace "frameworks/go/gin" is ASCII, so the loop's requirement holds for it |
| `GinGenerator.RenderEmbeddedTemplates` | src/generators/framework/gin/generator.rs:46-143 | for the ASCII namespace the generator passes, the Gin loop is the shared loop over the listing as written (equal to the corrected one) with both Gin skip tests on the file name |
| `GinGenerator.SwaggerOffFileName` | src/generators/framework/gin/generator.rs:70-78 | with swagger off, no emitted output's name contains "swagger" or starts with "docs.go" |
| `GinGenerator.PrecommitOffFileName` | src/generators/framework/gin/generator.rs:79-82 | with pre-commit off, no emitted output is the configuration |
| `GinGenerator.PrecommitOffNoConfig` | src/generators/framework/gin/generator.rs:46-143 | with pre-commit off, the loop creates no configuration file |
| `GinGenerator.SwaggerOffNoSwaggerFiles` | src/generators/framework/gin/generator.rs:46-143 | with swagger off, the loop creates no swagger or docs.go file |
| `TauriGenerator.ProtosComponent` | src/generators/framework/tauri/generator.rs:136-137 | the two protos tests together say "protos" is a directory component |
| `TauriGenerator.SkipProtoGen` | src/generators/framework/tauri/generator.rs:131-143 | with proto-gen off, skips the proto-gen tool, any protos directory and the top-level Makefile |
| `TauriGenerator.Skip` | src/generators/framework/tauri/generator.rs:194-202 | the pre-commit test on the file name, then the proto-gen test on the relative path; `PrecommitOffNoConfig` and `ProtoGenOffNoProtoFiles` state what the loop then never writes |
| `TauriGenerator.TemplatePathIsAscii` | src/generators/framework/tauri/generator.rs:162-164 | the namespace "frameworks/rust/tauri" is ASCII, so the loop's requirement holds for it |
| `TauriGenerator.NestedMakefileKept` | src/generators/framework/tauri/generator.rs:138-139 | a Makefile below the top level is kept |
| `TauriGenerator.NestedProtosSkipped` | src/generators/framework/tauri/generator.rs:137 | any path through a nested protos directory is skipped |
| `TauriGenerator.RenderEmbeddedTemplates` | src/generators/framework/tauri/generator.rs:167-275 | for the ASCII namespace the generator passes, the Tauri loop is the shared loop over the listing as written (equal to the corrected one) with the pre-commit test on the file name and the proto-gen test on the relative path |
| `TauriGenerator.ProtoGenOffFile` | src/generators/framework/tauri/generator.rs:200-212 | an emitted file's output path has no protos component, no proto-gen prefix and is not the Makefile |
| `TauriGenerator.PrecommitOffNoConfig` | src/generators/framework/tauri/generator.rs:167-275 | with pre-commit off, the loop creates no configuration file |
| `TauriGenerator.ProtoGenOffNoProtoFiles` | src/generators/framework/tauri/generator.rs:167-275 | with proto-gen off, every new file lies at an output path free of proto-gen parts |
| `Scaffolding.ParameterScope.constructor` | src/scaffold.rs:17-21 | an empty scope |
| `Scaffolding.ParameterScope.Get` | src/scaffold.rs:38-40 | the value when the key is present, none otherwise |
| `Scaffolding.ParameterScope.GetAll` | src/scaffold.rs:43-45 | the scope's whole map; `Add`, `AddAll` and `Merge` state their new state through it |
| `Scaffolding.ParameterScope.Add` | src/scaffold.rs:24-27 | the key then holds the value; every other key is unchanged |
| `Scaffolding.ParameterScope.AddAll` | src/scaffold.rs:31-34 | incoming keys win; keys only in the receiver are kept |
| `Scaffolding.ParameterScope.Merge` | src/scaffold.rs:49-52 | the other scope's keys win; keys only in the receiver are kept |
| `Scaffolding.ShouldSkipFile` | src/scaffold.rs:247-261 | true only for the two pre-commit names when `enable_precommit` is the boolean false; an absent or non-boolean value skips nothing |
| `Scaffolding.SkipAgreesWithGenerators` | src/scaffold.rs:247-261 | with a boolean setting, the walker and the generators skip the same names |
| `Scaffolding.OutputNamedAfterTemplate` | src/scaffold.rs:216-218 | the output's file name is the entry's name less one ".tmpl" |
| `Scaffolding.FileStep` | src/scaffold.rs:204-244 | a skipped file changes nothing; a ".tmpl" file writes the template rendered from the store at its path, or fails with that path and the render error and leaves the tree; any other file is copied; only the output path can change |
| `Scaffolding.ErrorMessage` | src/scaffold.rs:224-227 | a render failure names the template file first and the cause last |
| `Scaffolding.WalkEntry` | src/scaffold.rs:171-198 | one entry: build files passed over, a directory created and walked, a file handed to `FileStep` |
| `Scaffolding.Walk` | src/scaffold.rs:162-201 | the entries in order, stopping at the first failure; `ProcessDirectory` computes it and `WalkGrows`, `WalkMirrors`, `BuildFilesIgnored`, `WalkSkipsPrecommit` and `WalkFailsOnTemplate` state its properties |
| `Scaffolding.Destination` | src/scaffold.rs:133-136 | the output path when one was set, the current directory otherwise |
| `Scaffolding.Scaffold.constructor` | src/scaffold.rs:96-102 | no output path, an empty fresh scope, no post-processors |
| `Scaffolding.Scaffold.New` | src/scaffold.rs:72-103 | fails with the not-found message exactly when nothing exists at the resolved path |
| `Scaffolding.Scaffold.OutputTo` | src/scaffold.rs:106-109 | sets the output path only |
| `Scaffolding.Scaffold.WithParams` | src/scaffold.rs:112-115 | replaces the scope only |
| `Scaffolding.Scaffold.WithParam` | src/scaffold.rs:119-122 | adds one entry to the scope |
| `Scaffolding.Scaffold.WithPostProcessor` | src/scaffold.rs:126-129 | appends the processor; nothing else changes |
| `Scaffolding.Scaffold.Process` | src/scaffold.rs:132-153 | creates the output directory (given or current), then the tree and outcome are the walk's; success hands the processors on |
| `Scaffolding.Scaffold.ProcessDirectory` | src/scaffold.rs:162-201 | the loop's tree and outcome are those of `Walk` |
| `Scaffolding.Scaffold.ProcessFile` | src/scaffold.rs:204-244 | the tree and outcome are those of `FileStep` |
| `Scaffolding.WalkGrows` | src/scaffold.rs:162-201 | a walk never removes a file or directory |
| `Scaffolding.WalkMirrors` | src/scaffold.rs:190-195 | after a successful walk every non-build sub-directory, at any depth, exists in the output, even if all its files were skipped |
| `Scaffolding.Prune` | src/scaffold.rs:180-182 | the result holds no build entries |
| `Scaffolding.PruneEntry` | src/scaffold.rs:180-182 | keeps the name and kind of the entry |
| `Scaffolding.BuildFilesIgnored` | src/scaffold.rs:180-182 | walking the tree with every Cargo.toml and Cargo.lock removed, at every depth, does exactly the same |
| `Scaffolding.BuildEntryIgnored` | src/scaffold.rs:180-182 | the same for one entry |
| `Scaffolding.WalkSkipsPrecommit` | src/scaffold.rs:211-261 | with `enable_precommit` false, no walk writes a file named as the pre-commit configuration |
| `Scaffolding.WalkEntrySkipsPrecommit` | src/scaffold.rs:211-261 | the same for one entry |
| `Scaffolding.FileStepSkipsPrecommit` | src/scaffold.rs:211-218 | the same for one file |
| `Scaffolding.WalkFailsOnTemplate` | src/scaffold.rs:220-240 | only a ".tmpl" file can stop a walk; copies never fail |
| `Scaffolding.Execute` | src/scaffold.rs:327-351 | passes exactly when the command started and exited successfully; a launch failure names the command |
| `Scaffolding.RunPostProcessors` | src/scaffold.rs:272-280 | the processors started and the outcome are those of `RunAll` |
| `Scaffolding.RunAll` | src/scaffold.rs:272-280 | runs the processors in order, stopping at the first failure; `RunAllInOrder` and `AddedProcessorRunsLast` state its result |
| `Scaffolding.RunAllInOrder` | src/scaffold.rs:272-280 | they start in order as a prefix of the list; the run passes exactly when each passes; otherwise the last one started is the first failure |
| `Scaffolding.AddedProcessorRunsLast` | src/scaffold.rs:272-280 | an appended processor runs after all the others, and only if they all passed |

## Left out

- Terminal output (`println!`), the interactive prompts and the command-line
  front end are not modelled. Environment overrides (`override_from_env`) are
  left out too: the model has no process environment.
- Reading the clock: the project context's "year" is a parameter.
- File-system errors (create, write, copy, read_dir) and `current_dir`
  failures are not modelled. The output tree accepts every write. The current
  directory is a parameter of `Scaffolding.Scaffold.Process`.
- Handlebars itself is not modelled. The renderer is a function parameter
  that returns rendered text or an error. Only the two registered helpers
  are modelled (`TemplateEngine.CamelHelper`, `TemplateEngine.SnakeHelper`).
- `include_dir` is modelled as an ordered tree of named entries. In the walker,
  `read_dir` order is the order of the given entries. Lossy UTF-8 decoding is
  not modelled.
- Case mapping, `is_uppercase` and `is_alphanumeric` are ASCII-only. Rust uses
  Unicode, where one character can map to several.
- Paths are Unix paths made of plain components. `Path::join` and
  `create_dir_all` are modelled on strings. `..`, `.` and repeated slashes are
  not normalised.
- src/generators/core/base_parameters.rs is not part of this model. The
  record holds the fields the layers read or write. Its default is taken to
  leave every option empty and every flag false, and `BaseParams::new(name)`
  is taken to be that default with the name set.
- `ProjectParams::from_project_name` is not part of this model. It is taken to
  be `ProjectParams::new`.
- `GoParams::validate` and `GoParams::to_template_context` come from code that
  is not part of this model. The Gin layer takes their outcome and context as
  parameters.
- The TypeScript, Python and React layers, the generators' post-processing
  (`go mod tidy`, pnpm, swag, git) and the orchestrator are outside this core.
- The post-processor launcher is a function parameter, and `Execute`'s launch
  message renders the arguments as `{:?}` would, without escaping quotes or
  backslashes inside them.
- `Scaffold::new` reads the templates root and builds the engine. Both are
  taken to succeed, and the root is the empty path that `get_templates_dir`
  returns. The `relative_path` that `process_directory` passes down is never
  read, so it is not modelled.
- GinGenerator.RenderEmbeddedTemplates and TauriGenerator.RenderEmbeddedTemplates
  require an ASCII namespace. The source's methods accept any namespace, but
  their only callers pass the generators' ASCII constants. For a non-ASCII
  namespace the source lists files with the filter as written (see
  Findings); the generator loops are not stated for that case.
  `TreeProcessor.RenderEmbeddedTemplates` itself takes any namespace and
  lists with the corrected filter.
- Scaffolding.Execute: the contract states the launch-failure message only by
  its prefix and does not state the text of the command-failed message; the
  body builds both in full.

## Findings

| source | as written | input that shows it | evidently intended | confidence | as-written member | corrected member |
|---|---|---|---|---|---|---|
| src/template_engine.rs:228-230 | the namespace filter checks `file.chars().nth(relative_path.len()) == Some('/')`; that is a byte length used as a character index | namespace "é" (two bytes, one character): "éa/b" is accepted and "é/x" is refused | keep exactly the files that start with the namespace followed by "/" | high for non-ASCII namespace names; not executed | `TemplateEngine.GetEmbeddedTemplateFilesAsWritten`, `TemplateEngine.FilterAsWrittenCounterexample` | `TemplateEngine.GetEmbeddedTemplateFiles`, `TemplateEngine.FilterAgreesOnAscii` |
