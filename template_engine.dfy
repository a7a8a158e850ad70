/** The embedded template store and the rendering entry points
    (src/template_engine.rs). The store is the tree of directories and files
    compiled into the binary; it is an explicit value here. Handlebars is an
    abstract, possibly failing function. */
module TemplateEngine {
  import opened Wrappers
  import opened Strings
  import opened TemplateContext

  // ---------------------------------------------------------------- paths

  /** `normalize_path`: every '\\' becomes '/'. */
  function NormalizePath(p: string): string
  {
    if p == [] then [] else [if p[0] == '\\' then '/' else p[0]] + NormalizePath(p[1..])
  }

  /** The normal form has the same length, no back-slash, and every other
      character in place. */
  lemma {:induction false} NormalizeShape(p: string)
    ensures |NormalizePath(p)| == |p|
    ensures NoChar(NormalizePath(p), '\\')
    ensures forall i :: 0 <= i < |p| && p[i] != '\\' ==> NormalizePath(p)[i] == p[i]
  {
    if p != [] {
      NormalizeShape(p[1..]);
    }
  }

  /** A path without back-slashes is already normal. */
  lemma {:induction false} NormalizeKeepsClean(p: string)
    requires NoChar(p, '\\')
    ensures NormalizePath(p) == p
  {
    if p != [] {
      assert NoChar(p[1..], '\\') by {
        forall i | 0 <= i < |p[1..]| ensures p[1..][i] != '\\' { assert p[1..][i] == p[i + 1]; }
      }
      NormalizeKeepsClean(p[1..]);
    }
  }

  lemma NormalizeIdempotent(p: string)
    ensures NormalizePath(NormalizePath(p)) == NormalizePath(p)
  {
    NormalizeShape(p);
    NormalizeKeepsClean(NormalizePath(p));
  }

  /** `{current_path}/{name}`, or just the name at the root. */
  function JoinPath(dir: string, name: string): string
  {
    if dir == "" then name else dir + "/" + name
  }

  // ------------------------------------------------------ to_camel_case

  /** `s.split(c)`: the pieces between occurrences of `c`, at least one. */
  function Split(s: string, c: char): (r: seq<string>)
    ensures |r| >= 1
    ensures forall i :: 0 <= i < |r| ==> NoChar(r[i], c)
  {
    if s == [] then [[]]
    else if s[0] == c then [[]] + Split(s[1..], c)
    else
      var t := Split(s[1..], c);
      [[s[0]] + t[0]] + t[1..]
  }

  function Join(ws: seq<string>, c: char): string
  {
    if ws == [] then []
    else if |ws| == 1 then ws[0]
    else ws[0] + [c] + Join(ws[1..], c)
  }

  /** Splitting loses nothing: joining the pieces back gives the input. */
  lemma {:induction false} SplitJoin(s: string, c: char)
    ensures Join(Split(s, c), c) == s
  {
    if s != [] {
      SplitJoin(s[1..], c);
      var t := Split(s[1..], c);
      if s[0] != c {
        if |t| == 1 {
          assert Split(s, c) == [[s[0]] + t[0]];
        } else {
          assert Split(s, c)[1..] == t[1..];
        }
      }
    }
  }

  /** One word of `to_camel_case`: first character upper-cased, the rest lower-cased. */
  function CamelWord(w: string): (r: string)
    ensures |r| == |w|
    ensures forall i :: 1 <= i < |r| ==> !IsUpper(r[i])
    ensures w != [] ==> !IsLower(r[0])
  {
    if w == [] then [] else [ToUpperChar(w[0])] + ToLower(w[1..])
  }

  function ConcatCamel(ws: seq<string>): string
  {
    if ws == [] then [] else CamelWord(ws[0]) + ConcatCamel(ws[1..])
  }

  /** `to_camel_case`: split on '-', convert each word, concatenate. */
  function ToCamelCase(s: string): string
  {
    ConcatCamel(Split(s, '-'))
  }

  /** Character-by-character reading of `to_camel_case`: a character that
      starts a word is upper-cased, every other one lower-cased, '-' dropped. */
  function CamelFrom(s: string, wordStart: bool): string
  {
    if s == [] then []
    else if s[0] == '-' then CamelFrom(s[1..], true)
    else [if wordStart then ToUpperChar(s[0]) else ToLowerChar(s[0])] + CamelFrom(s[1..], false)
  }

  lemma {:induction false} CamelFromSplit(s: string, wordStart: bool)
    ensures CamelFrom(s, wordStart)
         == (if wordStart then CamelWord(Split(s, '-')[0]) else ToLower(Split(s, '-')[0]))
            + ConcatCamel(Split(s, '-')[1..])
  {
    if s == [] {
    } else if s[0] == '-' {
      CamelFromSplit(s[1..], true);
      assert Split(s, '-')[1..] == Split(s[1..], '-');
    } else {
      CamelFromSplit(s[1..], false);
      var t := Split(s[1..], '-');
      var w := [s[0]] + t[0];
      assert Split(s, '-')[0] == w && Split(s, '-')[1..] == t[1..];
      assert w[1..] == t[0];
      assert ToLower(w) == [ToLowerChar(s[0])] + ToLower(t[0]);
    }
  }

  /** The word-wise definition and the character-wise reading agree. */
  lemma CamelCaseChars(s: string)
    ensures ToCamelCase(s) == CamelFrom(s, true)
  {
    CamelFromSplit(s, true);
    var ws := Split(s, '-');
    assert ConcatCamel(ws) == CamelWord(ws[0]) + ConcatCamel(ws[1..]);
  }

  lemma {:induction false} CamelFromShape(s: string, wordStart: bool)
    ensures |CamelFrom(s, wordStart)| == |s| - CountIn(s, {'-'})
    ensures NoChar(CamelFrom(s, wordStart), '-')
  {
    if s != [] {
      CamelFromShape(s[1..], true);
      CamelFromShape(s[1..], false);
    }
  }

  /** The camel-case form has no '-' and is as long as the input without its dashes. */
  lemma CamelCaseShape(s: string)
    ensures |ToCamelCase(s)| == |s| - CountIn(s, {'-'})
    ensures NoChar(ToCamelCase(s), '-')
  {
    CamelCaseChars(s);
    CamelFromShape(s, true);
  }

  lemma CamelCaseExample()
    ensures ToCamelCase("my-app") == "MyApp"
  {
    CamelCaseChars("my-app");
  }

  // ------------------------------------------------- helper to_snake_case

  /** `to_snake_case` of the template helpers: '-' becomes '_', then lower case. */
  function HelperSnakeCase(s: string): (r: string)
    ensures |r| == |s|
    ensures NoChar(r, '-') && NoUpper(r)
  {
    ToLower(ReplaceChar(s, '-', '_'))
  }

  lemma HelperSnakeIdempotent(s: string)
    ensures HelperSnakeCase(HelperSnakeCase(s)) == HelperSnakeCase(s)
  {
    var t := HelperSnakeCase(s);
    assert forall i :: 0 <= i < |t| ==> HelperSnakeCase(t)[i] == t[i];
  }

  /** The first helper argument as a string; a missing or non-string argument is "". */
  function HelperArg(param: Option<Value>): string
  {
    match param
    case Some(Str(s)) => s
    case _ => ""
  }

  /** What `{{to_camel_case x}}` and `{{to_snake_case x}}` write. */
  function CamelHelper(param: Option<Value>): string { ToCamelCase(HelperArg(param)) }

  function SnakeHelper(param: Option<Value>): string { HelperSnakeCase(HelperArg(param)) }

  /** A helper without a string argument writes the empty string; with one,
      it writes that string converted. */
  lemma HelperArgDefault(param: Option<Value>)
    ensures !(param.Some? && param.value.Str?) ==> CamelHelper(param) == "" && SnakeHelper(param) == ""
    ensures param.Some? && param.value.Str? ==>
              CamelHelper(param) == ToCamelCase(param.value.s) && SnakeHelper(param) == HelperSnakeCase(param.value.s)
  {
    if !(param.Some? && param.value.Str?) {
      assert HelperArg(param) == "";
      assert Split("", '-') == [""];
    }
  }

  // ---------------------------------------------------- the embedded store

  /** A file with its contents, or a directory with its entries in order. */
  datatype Entry = File(name: string, content: string) | Dir(name: string, entries: seq<Entry>)

  /** The entries of the template root. */
  type Store = seq<Entry>

  /** A store as a file system produces it: every name is non-empty and has no
      '/', and the names inside one directory are distinct. */
  predicate WellFormed(es: seq<Entry>)
  {
    && (forall i :: 0 <= i < |es| ==> es[i].name != [] && NoChar(es[i].name, '/'))
    && (forall i, j :: 0 <= i < j < |es| ==> es[i].name != es[j].name)
    && (forall i :: 0 <= i < |es| && es[i].Dir? ==> WellFormed(es[i].entries))
  }

  /** No name in the store contains a back-slash. */
  predicate NoBackslash(es: seq<Entry>)
  {
    forall i :: 0 <= i < |es| ==> NoChar(es[i].name, '\\') && (es[i].Dir? ==> NoBackslash(es[i].entries))
  }

  /** `e` is an entry of `es` (at any depth) whose full path is `p`, when
      `es` lives at `cur`. */
  predicate HasEntry(es: seq<Entry>, cur: string, p: string, e: Entry)
  {
    es != [] &&
    ((JoinPath(cur, es[0].name) == p && es[0] == e)
     || (es[0].Dir? && HasEntry(es[0].entries, JoinPath(cur, es[0].name), p, e))
     || HasEntry(es[1..], cur, p, e))
  }

  // ------------------------------------------------------------- listing

  /** `collect_files_recursive`, as a value: the files of a directory in
      order, then the listing of each sub-directory in order; each path is
      normalised. */
  function Listing(es: seq<Entry>, cur: string): seq<string>
    decreases es, 1
  {
    FilesOf(es, cur) + SubdirListing(es, cur)
  }

  function FilesOf(es: seq<Entry>, cur: string): seq<string>
  {
    if es == [] then []
    else (if es[0].File? then [NormalizePath(JoinPath(cur, es[0].name))] else []) + FilesOf(es[1..], cur)
  }

  function SubdirListing(es: seq<Entry>, cur: string): seq<string>
    decreases es, 0
  {
    if es == [] then []
    else (if es[0].Dir? then Listing(es[0].entries, JoinPath(cur, es[0].name)) else [])
         + SubdirListing(es[1..], cur)
  }

  /** `collect_files_recursive(dir, current_path, files)`: pushes the listing
      of `es` onto `files`. */
  method CollectFilesRecursive(es: seq<Entry>, cur: string, files: seq<string>) returns (out: seq<string>)
    ensures out == files + Listing(es, cur)
    decreases es
  {
    out := files;
    for i := 0 to |es|
      invariant out + FilesOf(es[i..], cur) == files + FilesOf(es, cur)
    {
      FilesOfStep(es, i, cur, out);
      var e := es[i];
      ghost var before := out;
      if e.File? {
        out := out + [NormalizePath(JoinPath(cur, e.name))];
      } else {
        assert before + [] == before;
      }
      assert out == before + (if e.File? then [NormalizePath(JoinPath(cur, e.name))] else []);
    }
    ListingSplit(es, cur, files, out);
    for j := 0 to |es|
      invariant out + SubdirListing(es[j..], cur) == files + Listing(es, cur)
    {
      SubdirListingStep(es, j, cur, out);
      var e := es[j];
      ghost var before := out;
      if e.Dir? {
        out := CollectFilesRecursive(e.entries, JoinPath(cur, e.name), out);
      } else {
        assert before + [] == before;
      }
      assert out == before + (if e.Dir? then Listing(e.entries, JoinPath(cur, e.name)) else []);
    }
  }

  lemma FilesOfStep(es: seq<Entry>, i: nat, cur: string, out: seq<string>)
    requires i < |es|
    ensures out + FilesOf(es[i..], cur)
         == (out + (if es[i].File? then [NormalizePath(JoinPath(cur, es[i].name))] else [])) + FilesOf(es[i + 1..], cur)
  {
    assert es[i..][1..] == es[i + 1..];
  }

  lemma ListingSplit(es: seq<Entry>, cur: string, files: seq<string>, out: seq<string>)
    requires out + FilesOf(es[|es|..], cur) == files + FilesOf(es, cur)
    ensures out + SubdirListing(es[0..], cur) == files + Listing(es, cur)
  {
    assert es[|es|..] == [] && es[0..] == es;
    assert out == files + FilesOf(es, cur);
    assert Listing(es, cur) == FilesOf(es, cur) + SubdirListing(es, cur);
  }

  lemma SubdirListingStep(es: seq<Entry>, j: nat, cur: string, out: seq<string>)
    requires j < |es|
    ensures out + SubdirListing(es[j..], cur)
         == (out + (if es[j].Dir? then Listing(es[j].entries, JoinPath(cur, es[j].name)) else []))
            + SubdirListing(es[j + 1..], cur)
  {
    assert es[j..][1..] == es[j + 1..];
  }

  /** The filter of `get_embedded_template_files` as intended: the file lies
      under the directory `dir`. */
  predicate UnderDir(file: string, dir: string)
  {
    StartsWith(file, dir) && |file| > |dir| && file[|dir|] == '/'
  }

  /** The filter as the source writes it: `file.len()` and `dir.len()` count
      bytes, but `chars().nth(dir.len())` counts characters. */
  predicate UnderDirAsWritten(file: string, dir: string)
  {
    StartsWith(file, dir) && Utf8Len(file) > Utf8Len(dir)
    && Utf8Len(dir) < |file| && file[Utf8Len(dir)] == '/'
  }

  /** The listed files under `dir`, in listing order, each as often as the
      listing has it. */
  function FilterUnder(fs: seq<string>, dir: string): (r: seq<string>)
    ensures forall f :: f in r <==> f in fs && UnderDir(f, dir)
    ensures forall f :: multiset(r)[f] == if UnderDir(f, dir) then multiset(fs)[f] else 0
    ensures IsSubsequence(r, fs)
  {
    if fs == [] then []
    else
      var rest := FilterUnder(fs[1..], dir);
      assert fs == [fs[0]] + fs[1..];
      assert multiset(fs) == multiset([fs[0]]) + multiset(fs[1..]);
      if UnderDir(fs[0], dir) then
        assert ([fs[0]] + rest)[1..] == rest;
        assert multiset([fs[0]] + rest) == multiset([fs[0]]) + multiset(rest);
        [fs[0]] + rest
      else rest
  }

  function FilterUnderAsWritten(fs: seq<string>, dir: string): (r: seq<string>)
    ensures forall f :: f in r <==> f in fs && UnderDirAsWritten(f, dir)
    ensures IsSubsequence(r, fs)
  {
    if fs == [] then []
    else
      var rest := FilterUnderAsWritten(fs[1..], dir);
      assert fs == [fs[0]] + fs[1..];
      if UnderDirAsWritten(fs[0], dir) then
        assert ([fs[0]] + rest)[1..] == rest;
        [fs[0]] + rest
      else rest
  }

  /** `a` keeps some of the elements of `b`, in their order. */
  predicate IsSubsequence<T(==)>(a: seq<T>, b: seq<T>)
  {
    a == [] || (b != [] && ((a[0] == b[0] && IsSubsequence(a[1..], b[1..])) || IsSubsequence(a, b[1..])))
  }

  /** `get_embedded_template_files` with the intended filter: the whole
      listing for "", otherwise the listed files under `dir`, in listing order. */
  function GetEmbeddedTemplateFiles(store: Store, dir: string): (r: seq<string>)
    ensures dir == "" ==> r == Listing(store, "")
    ensures dir != "" ==> forall f :: f in r <==> f in Listing(store, "") && StartsWith(f, dir + "/")
    ensures dir != "" ==> forall f :: multiset(r)[f] == if StartsWith(f, dir + "/") then multiset(Listing(store, ""))[f] else 0
    ensures IsSubsequence(r, Listing(store, ""))
  {
    var all := Listing(store, "");
    if dir == "" then
      IsSubsequenceRefl(all);
      all
    else
      assert forall f :: UnderDir(f, dir) <==> StartsWith(f, dir + "/") by {
        forall f ensures UnderDir(f, dir) <==> StartsWith(f, dir + "/") {
          UnderDirIsPrefix(f, dir);
        }
      }
      FilterUnder(all, dir)
  }

  /** `get_embedded_template_files` exactly as written. */
  function GetEmbeddedTemplateFilesAsWritten(store: Store, dir: string): (r: seq<string>)
    ensures dir == "" ==> r == Listing(store, "")
    ensures dir != "" ==> forall f :: f in r <==> f in Listing(store, "") && UnderDirAsWritten(f, dir)
  {
    if dir == "" then Listing(store, "") else FilterUnderAsWritten(Listing(store, ""), dir)
  }

  lemma {:induction false} IsSubsequenceRefl<T>(a: seq<T>)
    ensures IsSubsequence(a, a)
  {
    if a != [] {
      IsSubsequenceRefl(a[1..]);
    }
  }

  lemma UnderDirIsPrefix(f: string, dir: string)
    ensures UnderDir(f, dir) <==> StartsWith(f, dir + "/")
  {
    if StartsWith(f, dir + "/") {
      assert f[..|dir|] == (dir + "/")[..|dir|] == dir;
      assert f[|dir|] == (dir + "/")[|dir|];
    }
    if UnderDir(f, dir) {
      assert f[..|dir| + 1] == f[..|dir|] + [f[|dir|]];
    }
  }

  lemma {:induction false} Utf8LenAppend(a: string, b: string)
    ensures Utf8Len(a + b) == Utf8Len(a) + Utf8Len(b)
  {
    if a == [] {
      assert a + b == b;
    } else {
      assert (a + b)[1..] == a[1..] + b;
      Utf8LenAppend(a[1..], b);
    }
  }

  /** For an ASCII directory name the two filters agree, so the corrected
      one describes every namespace the generators use. */
  lemma FilterAgreesOnAscii(f: string, dir: string)
    requires IsAscii(dir)
    ensures UnderDirAsWritten(f, dir) <==> UnderDir(f, dir)
  {
    AsciiUtf8Len(dir);
    assert Utf8Len(f) >= |f|;
  }

  /** The two filters keep the same files, in the same order, for an ASCII
      directory name. */
  lemma {:induction false} FilterListsAgreeOnAscii(fs: seq<string>, dir: string)
    requires IsAscii(dir)
    ensures FilterUnderAsWritten(fs, dir) == FilterUnder(fs, dir)
  {
    if fs != [] {
      FilterAgreesOnAscii(fs[0], dir);
      FilterListsAgreeOnAscii(fs[1..], dir);
    }
  }

  /** For an ASCII namespace the listing as written is the corrected one. */
  lemma ListingsAgreeOnAscii(store: Store, dir: string)
    requires IsAscii(dir)
    ensures GetEmbeddedTemplateFilesAsWritten(store, dir) == GetEmbeddedTemplateFiles(store, dir)
  {
    if dir != "" {
      FilterListsAgreeOnAscii(Listing(store, ""), dir);
    }
  }

  /** With the directory "é" (two bytes, one character) the source's filter
      takes "éa/b", which is not under "é", and drops "é/x", which is. */
  lemma FilterAsWrittenCounterexample()
    ensures UnderDirAsWritten("\U{E9}a/b", "\U{E9}") && !UnderDir("\U{E9}a/b", "\U{E9}")
    ensures !UnderDirAsWritten("\U{E9}/x", "\U{E9}") && UnderDir("\U{E9}/x", "\U{E9}")
  {
    assert Utf8Len("\U{E9}") == 2;
    assert Utf8Len("\U{E9}a/b") == 5;
    assert Utf8Len("\U{E9}/x") == 4;
  }

  // -------------------------------------------------------------- lookup

  /** `Dir::get_entry`: the entries in order; an entry whose path is `p` is
      returned, otherwise a directory is searched before its later siblings. */
  function FindEntry(es: seq<Entry>, cur: string, p: string): (r: Option<Entry>)
    ensures r.Some? ==> HasEntry(es, cur, p, r.value)
  {
    if es == [] then None
    else
      var q := JoinPath(cur, es[0].name);
      if q == p then Some(es[0])
      else
        var nested := if es[0].Dir? then FindEntry(es[0].entries, q, p) else None;
        if nested.Some? then nested else FindEntry(es[1..], cur, p)
  }

  /** `get_embedded_template_content`: the contents of the file at `p`. */
  function GetEmbeddedTemplateContent(store: Store, p: string): (r: Option<string>)
    ensures r.Some? ==> exists n :: HasEntry(store, "", p, File(n, r.value))
  {
    match FindEntry(store, "", p)
    case Some(File(n, c)) => Some(c)
    case _ => None
  }

  /** `embedded_template_exists` */
  function EmbeddedTemplateExists(store: Store, p: string): (b: bool)
    ensures b <==> GetEmbeddedTemplateContent(store, p).Some?
  {
    match FindEntry(store, "", p)
    case Some(File(_, _)) => true
    case _ => false
  }

  /** `read_embedded_template` */
  function ReadEmbeddedTemplate(store: Store, p: string): (r: Result<string, string>)
    ensures r.Ok? <==> EmbeddedTemplateExists(store, p)
    ensures r.Ok? ==> Some(r.value) == GetEmbeddedTemplateContent(store, p)
    ensures r.Err? ==> r.error == "Embedded template file not found: " + p
  {
    match FindEntry(store, "", p)
    case Some(File(_, c)) => Ok(c)
    case _ => Err("Embedded template file not found: " + p)
  }

  /** Two names that both start the path after `cur` are the same name. */
  lemma SameFirstComponent(cur: string, n1: string, n2: string, p: string)
    requires n1 != [] && NoChar(n1, '/') && n2 != [] && NoChar(n2, '/')
    requires p == JoinPath(cur, n1) || StartsWith(p, JoinPath(cur, n1) + "/")
    requires p == JoinPath(cur, n2) || StartsWith(p, JoinPath(cur, n2) + "/")
    ensures n1 == n2
  {
    var pre := if cur == "" then "" else cur + "/";
    assert JoinPath(cur, n1) == pre + n1 && JoinPath(cur, n2) == pre + n2;
    DropPrefix(p, pre, n1);
    DropPrefix(p, pre, n2);
    SameName(p[|pre|..], n1, n2);
  }

  /** `p` is `pre + x` or lies under it; then the rest of `p` is `x` or lies under `x`. */
  lemma DropPrefix(p: string, pre: string, x: string)
    requires p == pre + x || StartsWith(p, pre + x + "/")
    ensures |pre| <= |p|
    ensures p[|pre|..] == x || StartsWith(p[|pre|..], x + "/")
  {
    if p != pre + x {
      var n := |pre| + |x| + 1;
      assert p[..n] == pre + x + "/";
      assert p[|pre|..][..|x| + 1] == p[..n][|pre|..];
      assert (pre + x + "/")[|pre|..] == x + "/";
    }
  }

  /** A path component ends at the first '/', so two '/'-free names that both
      begin `t` as a whole component are equal. */
  lemma SameName(t: string, n1: string, n2: string)
    requires NoChar(n1, '/') && NoChar(n2, '/')
    requires t == n1 || StartsWith(t, n1 + "/")
    requires t == n2 || StartsWith(t, n2 + "/")
    ensures n1 == n2
  {
    ComponentPrefix(t, n1);
    ComponentPrefix(t, n2);
  }

  lemma ComponentPrefix(t: string, n: string)
    requires t == n || StartsWith(t, n + "/")
    ensures |n| <= |t| && forall i :: 0 <= i < |n| ==> t[i] == n[i]
    ensures |t| > |n| ==> t[|n|] == '/'
  {
    if t != n {
      assert t[..|n| + 1] == n + "/";
      assert forall i :: 0 <= i <= |n| ==> t[i] == t[..|n| + 1][i];
    }
  }

  /** Every entry of a well-formed `es` lies at or under one of its own names. */
  lemma {:induction false} EntryLocation(es: seq<Entry>, cur: string, p: string, e: Entry) returns (i: nat)
    requires WellFormed(es) && HasEntry(es, cur, p, e)
    ensures i < |es|
    ensures p == JoinPath(cur, es[i].name) || StartsWith(p, JoinPath(cur, es[i].name) + "/")
  {
    var q := JoinPath(cur, es[0].name);
    if q == p && es[0] == e {
      i := 0;
    } else if es[0].Dir? && HasEntry(es[0].entries, q, p, e) {
      var j := EntryLocation(es[0].entries, q, p, e);
      var r := JoinPath(q, es[0].entries[j].name);
      assert r == q + "/" + es[0].entries[j].name;
      assert p[..|q| + 1] == (q + "/");
      i := 0;
    } else {
      var j := EntryLocation(es[1..], cur, p, e);
      i := j + 1;
    }
  }

  /** An entry strictly under a directory has a longer path than the directory. */
  lemma {:induction false} NestedIsLonger(es: seq<Entry>, q: string, p: string, e: Entry)
    requires WellFormed(es) && HasEntry(es, q, p, e) && q != ""
    ensures StartsWith(p, q + "/")
  {
    var j := EntryLocation(es, q, p, e);
    assert JoinPath(q, es[j].name) == q + "/" + es[j].name;
    assert p[..|q| + 1] == q + "/";
  }

  /** In a well-formed store at most one entry has a given path. */
  lemma {:induction false} EntryUnique(es: seq<Entry>, cur: string, p: string, e1: Entry, e2: Entry)
    requires WellFormed(es) && HasEntry(es, cur, p, e1) && HasEntry(es, cur, p, e2)
    ensures e1 == e2
  {
    var c := es[0];
    var q := JoinPath(cur, c.name);
    var at1 := q == p && c == e1;
    var in1 := c.Dir? && HasEntry(c.entries, q, p, e1);
    var at2 := q == p && c == e2;
    var in2 := c.Dir? && HasEntry(c.entries, q, p, e2);
    assert WellFormed(es[1..]);
    if (at1 || in1) && (at2 || in2) {
      if in1 {
        NestedIsLonger(c.entries, q, p, e1);
      }
      if in2 {
        NestedIsLonger(c.entries, q, p, e2);
      }
      if in1 && in2 {
        EntryUnique(c.entries, q, p, e1, e2);
      }
    } else if at1 || in1 {
      if in1 { NestedIsLonger(c.entries, q, p, e1); }
      var j := EntryLocation(es[1..], cur, p, e2);
      SameFirstComponent(cur, c.name, es[j + 1].name, p);
    } else if at2 || in2 {
      if in2 { NestedIsLonger(c.entries, q, p, e2); }
      var j := EntryLocation(es[1..], cur, p, e1);
      SameFirstComponent(cur, c.name, es[j + 1].name, p);
    } else {
      EntryUnique(es[1..], cur, p, e1, e2);
    }
  }

  /** Lookup finds something wherever an entry exists. */
  lemma {:induction false} FindEntryComplete(es: seq<Entry>, cur: string, p: string, e: Entry)
    requires HasEntry(es, cur, p, e)
    ensures FindEntry(es, cur, p).Some?
  {
    var q := JoinPath(cur, es[0].name);
    if q != p {
      if es[0].Dir? && HasEntry(es[0].entries, q, p, e) {
        FindEntryComplete(es[0].entries, q, p, e);
      } else {
        FindEntryComplete(es[1..], cur, p, e);
      }
    }
  }

  /** In a well-formed store, lookup returns exactly the entry at the path. */
  lemma FindEntryExact(es: seq<Entry>, cur: string, p: string, e: Entry)
    requires WellFormed(es) && HasEntry(es, cur, p, e)
    ensures FindEntry(es, cur, p) == Some(e)
  {
    FindEntryComplete(es, cur, p, e);
    EntryUnique(es, cur, p, FindEntry(es, cur, p).value, e);
  }

  /** Every listed path of a store without back-slashes names a stored file. */
  lemma {:induction false} ListedHasFile(es: seq<Entry>, cur: string, p: string) returns (e: Entry)
    requires NoBackslash(es) && NoChar(cur, '\\') && p in Listing(es, cur)
    ensures e.File? && HasEntry(es, cur, p, e)
    decreases es
  {
    var q := JoinPath(cur, es[0].name);
    assert NoBackslash(es[1..]);
    assert NoChar(q, '\\');
    assert Listing(es, cur) == FilesOf(es, cur) + SubdirListing(es, cur);
    assert FilesOf(es, cur) == (if es[0].File? then [NormalizePath(q)] else []) + FilesOf(es[1..], cur);
    assert SubdirListing(es, cur)
        == (if es[0].Dir? then Listing(es[0].entries, q) else []) + SubdirListing(es[1..], cur);
    if es[0].File? && p == NormalizePath(q) {
      NormalizeKeepsClean(q);
      e := es[0];
    } else if es[0].Dir? && p in Listing(es[0].entries, q) {
      e := ListedHasFile(es[0].entries, q, p);
    } else {
      assert p in Listing(es[1..], cur);
      e := ListedHasFile(es[1..], cur, p);
    }
  }

  /** Every path the listing yields can be read back, so the generators'
      "content not found" errors cannot arise from a file-system-shaped store
      whose names hold no back-slash. */
  lemma ListedIsReadable(store: Store, p: string)
    requires WellFormed(store) && NoBackslash(store) && p in Listing(store, "")
    ensures EmbeddedTemplateExists(store, p)
    ensures ReadEmbeddedTemplate(store, p).Ok?
  {
    var e := ListedHasFile(store, "", p);
    FindEntryExact(store, "", p, e);
  }

  // --------------------------------------------------- directory existence

  /** A directory entry of `es` has the path `p`. */
  predicate IsDirPath(es: seq<Entry>, cur: string, p: string)
  {
    es != [] &&
    ((es[0].Dir? && JoinPath(cur, es[0].name) == p)
     || (es[0].Dir? && IsDirPath(es[0].entries, JoinPath(cur, es[0].name), p))
     || IsDirPath(es[1..], cur, p))
  }

  /** The meaning of `embedded_template_dir_exists`: the root, a directory
      that some root-level file path starts, or a directory of the store. */
  predicate DirExists(store: Store, p: string)
  {
    p == ""
    || (exists i :: 0 <= i < |store| && store[i].File? && StartsWith(store[i].name, p + "/"))
    || IsDirPath(store, "", p)
  }

  /** `check_dir_recursive`: the walk stops at the first directory whose
      path is the target. */
  method CheckDirRecursive(es: seq<Entry>, target: string, current: string) returns (found: bool)
    ensures found <==> current == target || IsDirPath(es, current, target)
    decreases es
  {
    if current == target {
      return true;
    }
    var i := 0;
    while i < |es|
      invariant 0 <= i <= |es|
      invariant IsDirPath(es, current, target) <==> IsDirPath(es[i..], current, target)
    {
      assert es[i..][0] == es[i] && es[i..][1..] == es[i + 1..];
      if es[i].Dir? {
        var sub := JoinPath(current, es[i].name);
        var r := CheckDirRecursive(es[i].entries, target, sub);
        if r {
          return true;
        }
      }
      i := i + 1;
    }
    return false;
  }

  /** `embedded_template_dir_exists` */
  method EmbeddedTemplateDirExists(store: Store, p: string) returns (b: bool)
    ensures b <==> DirExists(store, p)
  {
    if p == "" {
      return true;
    }
    var i := 0;
    while i < |store|
      invariant 0 <= i <= |store|
      invariant forall k :: 0 <= k < i && store[k].File? ==> !StartsWith(store[k].name, p + "/")
    {
      if store[i].File? && StartsWith(store[i].name, p + "/") {
        return true;
      }
      i := i + 1;
    }
    b := CheckDirRecursive(store, p, "");
  }

  /** In a well-formed store root file names hold no '/', so only real
      directories count. */
  lemma DirExistsWellFormed(store: Store, p: string)
    requires WellFormed(store) && p != ""
    ensures DirExists(store, p) <==> IsDirPath(store, "", p)
  {
    forall i | 0 <= i < |store| && store[i].File?
      ensures !StartsWith(store[i].name, p + "/")
    {
      assert |store[i].name| > |p| ==> store[i].name[..|p| + 1][|p|] == store[i].name[|p|];
    }
  }

  // ------------------------------------------------------------ rendering

  /** Handlebars with the two helpers registered: renders a template text
      against a context, or fails with a message. */
  type Renderer = (string, Context) -> Result<string, string>

  /** anyhow's `.context(msg)`, shown as "msg: cause". */
  function WithContext(msg: string, cause: string): string { msg + ": " + cause }

  /** The message starts with the context and ends with the cause. */
  lemma ContextNamesBoth(msg: string, cause: string)
    ensures StartsWith(WithContext(msg, cause), msg) && EndsWith(WithContext(msg, cause), ": " + cause)
  {
    assert WithContext(msg, cause) == msg + (": " + cause);
    StartsWithConcat(msg, ": " + cause);
  }

  /** `render_template_content` */
  function RenderTemplateContent(render: Renderer, content: string, ctx: Context): (r: Result<string, string>)
    ensures r.Ok? <==> render(content, ctx).Ok?
    ensures r.Ok? ==> r.value == render(content, ctx).value
    ensures r.Err? ==> r.error == WithContext("Failed to render template content", render(content, ctx).error)
  {
    match render(content, ctx)
    case Ok(s) => Ok(s)
    case Err(e) => Err(WithContext("Failed to render template content", e))
  }

  /** `render_template`: reads the template at the normalised path from the
      store, then renders it. */
  function RenderTemplate(store: Store, render: Renderer, path: string, ctx: Context): (r: Result<string, string>)
    ensures !EmbeddedTemplateExists(store, NormalizePath(path)) ==>
              r.Err? && StartsWith(r.error, "Failed to read embedded template: " + NormalizePath(path))
    ensures EmbeddedTemplateExists(store, NormalizePath(path)) ==>
              var c := GetEmbeddedTemplateContent(store, NormalizePath(path)).value;
              (r.Ok? <==> render(c, ctx).Ok?) && (r.Ok? ==> r.value == render(c, ctx).value)
  {
    var rel := NormalizePath(path);
    match ReadEmbeddedTemplate(store, rel)
    case Err(e) => Err(WithContext("Failed to read embedded template: " + rel, e))
    case Ok(c) =>
      match render(c, ctx)
      case Ok(s) => Ok(s)
      case Err(e) => Err(WithContext("Template rendering failed for embedded template: " + rel, e))
  }

  /** Back-slash and slash spellings of a template path render alike. */
  lemma RenderTemplateNormalises(store: Store, render: Renderer, path: string, ctx: Context)
    ensures RenderTemplate(store, render, path, ctx) == RenderTemplate(store, render, NormalizePath(path), ctx)
  {
    NormalizeIdempotent(path);
  }
}
