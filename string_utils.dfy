/** Case converters used to derive the name variants of a project
    (`string_utils` in src/constants.rs). */
module StringUtils {
  import opened Strings

  predicate IsSeparator(c: char) { c == '_' || c == '-' }

  function CountSeparators(s: string): (n: nat)
    ensures n <= |s|
  {
    CountIn(s, {'_', '-'})
  }

  // ----------------------------------------------------------- PascalCase

  /** Reference meaning of PascalCase: separators are dropped, a character
      that starts a word (`capitalize` is true at the start and after a
      separator) is upper-cased, every other character is kept. */
  function PascalFrom(s: string, capitalize: bool): (r: string)
  {
    if s == [] then []
    else if IsSeparator(s[0]) then PascalFrom(s[1..], true)
    else [if capitalize then ToUpperChar(s[0]) else s[0]] + PascalFrom(s[1..], false)
  }

  function Pascal(s: string): string { PascalFrom(s, true) }

  /** `to_pascal_case`: one pass over the characters with a `capitalize_next` flag. */
  method ToPascalCase(s: string) returns (result: string)
    ensures result == Pascal(s)
  {
    result := "";
    var capitalizeNext := true;
    for i := 0 to |s|
      invariant !capitalizeNext ==> result != []
      invariant result + PascalFrom(s[i..], capitalizeNext) == Pascal(s)
    {
      var ch := s[i];
      PascalFromStep(s, i, capitalizeNext, result);
      if IsSeparator(ch) {
        capitalizeNext := true;
      } else if IsUpper(ch) && result != [] {
        result := result + [ch];
        capitalizeNext := false;
      } else if capitalizeNext {
        result := result + [ToUpperChar(ch)];
        capitalizeNext := false;
      } else {
        result := result + [ToLowerChar(ch)];
      }
    }
  }

  lemma PascalFromStep(s: string, i: nat, capitalize: bool, acc: string)
    requires i < |s|
    ensures acc + PascalFrom(s[i..], capitalize)
         == if IsSeparator(s[i]) then acc + PascalFrom(s[i + 1..], true)
            else (acc + [if capitalize then ToUpperChar(s[i]) else s[i]]) + PascalFrom(s[i + 1..], false)
  {
    assert s[i..][0] == s[i] && s[i..][1..] == s[i + 1..];
  }

  lemma {:induction false} PascalFromShape(s: string, capitalize: bool)
    ensures |PascalFrom(s, capitalize)| == |s| - CountSeparators(s)
    ensures forall i :: 0 <= i < |PascalFrom(s, capitalize)| ==> !IsSeparator(PascalFrom(s, capitalize)[i])
  {
    if s != [] {
      PascalFromShape(s[1..], false);
      PascalFromShape(s[1..], true);
    }
  }

  /** The PascalCase form has no separators and is exactly as long as the
      input without its separators. */
  lemma PascalShape(s: string)
    ensures |Pascal(s)| == |s| - CountSeparators(s)
    ensures forall i :: 0 <= i < |Pascal(s)| ==> Pascal(s)[i] != '_' && Pascal(s)[i] != '-'
  {
    PascalFromShape(s, true);
  }

  /** Character `i` of the input, if it is not a separator, lands at position
      `i - (separators before it)` of the output, upper-cased when it starts a
      word (first character or right after a separator) and unchanged otherwise. */
  lemma {:induction false} PascalFromAt(s: string, capitalize: bool, i: nat)
    requires i < |s| && !IsSeparator(s[i])
    ensures i - CountSeparators(s[..i]) < |PascalFrom(s, capitalize)|
    ensures PascalFrom(s, capitalize)[i - CountSeparators(s[..i])]
         == if (i == 0 && capitalize) || (i > 0 && IsSeparator(s[i - 1])) then ToUpperChar(s[i]) else s[i]
  {
    PascalFromShape(s, capitalize);
    if i > 0 {
      assert s[1..][..i - 1] == s[1..i];
      assert s[..i] == [s[0]] + s[1..i];
      PascalFromAt(s[1..], IsSeparator(s[0]), i - 1);
      PascalFromShape(s[1..], IsSeparator(s[0]));
    } else {
      assert s[..0] == [];
    }
  }

  lemma PascalAt(s: string, i: nat)
    requires i < |s| && !IsSeparator(s[i])
    ensures i - CountSeparators(s[..i]) < |Pascal(s)|
    ensures Pascal(s)[i - CountSeparators(s[..i])]
         == if i == 0 || IsSeparator(s[i - 1]) then ToUpperChar(s[i]) else s[i]
  {
    PascalFromAt(s, true, i);
  }

  /** A separator splits the conversion: each side is converted on its own. */
  lemma {:induction false} PascalSplitsAtSeparator(a: string, c: char, b: string, capitalize: bool)
    requires IsSeparator(c)
    ensures PascalFrom(a + [c] + b, capitalize) == PascalFrom(a, capitalize) + PascalFrom(b, true)
  {
    if a == [] {
      assert (a + [c] + b)[1..] == b;
    } else {
      assert (a + [c] + b)[0] == a[0] && (a + [c] + b)[1..] == a[1..] + [c] + b;
      PascalSplitsAtSeparator(a[1..], c, b, IsSeparator(a[0]));
    }
  }

  lemma PascalHello()
    ensures PascalFrom("hello", true) == "Hello"
  {
  }

  lemma PascalWorld()
    ensures PascalFrom("world", true) == "World"
  {
  }

  lemma PascalExampleHelloWorld()
    ensures Pascal("hello_world") == "HelloWorld"
  {
    assert "hello_world" == "hello" + ['_'] + "world";
    PascalSplitsAtSeparator("hello", '_', "world", true);
    PascalHello();
    PascalWorld();
    assert "Hello" + "World" == "HelloWorld";
  }

  lemma PascalExampleSingle()
    ensures Pascal("single") == "Single"
  {
  }

  // -------------------------------------------- snake_case and kebab-case

  /** Reference meaning of the snake/kebab converters: every character is
      lower-cased and `sep` is put before each upper-case character except
      the first character of the input. */
  function Separated(s: string, sep: char, atStart: bool): (r: string)
  {
    if s == [] then []
    else (if IsUpper(s[0]) && !atStart then [sep] else [])
         + [ToLowerChar(s[0])] + Separated(s[1..], sep, false)
  }

  function Snake(s: string): string { Separated(s, '_', true) }

  function Kebab(s: string): string { Separated(s, '-', true) }

  /** The common loop of `to_snake_case` and `to_kebab_case`. */
  method LowerWithSeparator(s: string, sep: char) returns (result: string)
    ensures result == Separated(s, sep, true)
  {
    result := "";
    for i := 0 to |s|
      invariant result == [] <==> i == 0
      invariant result + Separated(s[i..], sep, i == 0) == Separated(s, sep, true)
    {
      var ch := s[i];
      SeparatedStep(s, i, sep, result);
      ghost var before := result;
      if IsUpper(ch) && result != [] {
        result := result + [sep];
      } else {
        assert before + [] == before;
      }
      result := result + [ToLowerChar(ch)];
      assert result == before + (if IsUpper(s[i]) && i != 0 then [sep] else []) + [ToLowerChar(s[i])];
    }
  }

  lemma SeparatedStep(s: string, i: nat, sep: char, acc: string)
    requires i < |s|
    ensures acc + Separated(s[i..], sep, i == 0)
         == (acc + (if IsUpper(s[i]) && i != 0 then [sep] else []) + [ToLowerChar(s[i])]) + Separated(s[i + 1..], sep, false)
  {
    assert s[i..][0] == s[i] && s[i..][1..] == s[i + 1..];
  }

  method ToSnakeCase(s: string) returns (result: string)
    ensures result == Snake(s)
  {
    result := LowerWithSeparator(s, '_');
  }

  method ToKebabCase(s: string) returns (result: string)
    ensures result == Kebab(s)
  {
    result := LowerWithSeparator(s, '-');
  }

  function UppersAfterFirst(s: string): nat
  {
    if s == [] then 0 else CountUpper(s[1..])
  }

  lemma {:induction false} SeparatedShape(s: string, sep: char, atStart: bool)
    requires !IsUpper(sep)
    ensures NoUpper(Separated(s, sep, atStart))
    ensures |Separated(s, sep, atStart)| == |s| + (if atStart then UppersAfterFirst(s) else CountUpper(s))
  {
    if s != [] {
      SeparatedShape(s[1..], sep, false);
    }
  }

  /** Output has no upper-case letter; its length is the input length plus
      one separator per upper-case character that is not first. */
  lemma SnakeShape(s: string)
    ensures NoUpper(Snake(s)) && |Snake(s)| == |s| + UppersAfterFirst(s)
    ensures NoUpper(Kebab(s)) && |Kebab(s)| == |s| + UppersAfterFirst(s)
  {
    SeparatedShape(s, '_', true);
    SeparatedShape(s, '-', true);
  }

  /** Taking the inserted separators back out leaves the lower-cased input
      (with its own separators removed too). */
  lemma {:induction false} SeparatedContents(s: string, sep: char, atStart: bool)
    ensures RemoveChars(Separated(s, sep, atStart), {sep}) == RemoveChars(ToLower(s), {sep})
  {
    if s != [] {
      SeparatedContents(s[1..], sep, false);
      var head := (if IsUpper(s[0]) && !atStart then [sep] else []) + [ToLowerChar(s[0])];
      RemoveCharsAppend(head, Separated(s[1..], sep, false), {sep});
      assert ToLower(s) == [ToLowerChar(s[0])] + ToLower(s[1..]);
      RemoveCharsAppend([ToLowerChar(s[0])], ToLower(s[1..]), {sep});
    }
  }

  lemma {:induction false} RemoveCharsAppend(a: string, b: string, cs: set<char>)
    ensures RemoveChars(a + b, cs) == RemoveChars(a, cs) + RemoveChars(b, cs)
  {
    if a == [] {
      assert a + b == b;
    } else {
      assert (a + b)[1..] == a[1..] + b;
      RemoveCharsAppend(a[1..], b, cs);
    }
  }

  /** A string without upper-case letters is its own snake/kebab form. */
  lemma {:induction false} SeparatedFixpoint(s: string, sep: char, atStart: bool)
    requires NoUpper(s)
    ensures Separated(s, sep, atStart) == s
  {
    if s != [] {
      SeparatedFixpoint(s[1..], sep, false);
    }
  }

  lemma SnakeIdempotent(s: string)
    ensures Snake(Snake(s)) == Snake(s)
  {
    SeparatedShape(s, '_', true);
    SeparatedFixpoint(Snake(s), '_', true);
  }

  /** The conversion works character by character, so it distributes over
      concatenation (the right part never counts as the start). */
  lemma {:induction false} SeparatedAppend(a: string, b: string, sep: char, atStart: bool)
    requires a != []
    ensures Separated(a + b, sep, atStart) == Separated(a, sep, atStart) + Separated(b, sep, false)
  {
    assert (a + b)[0] == a[0];
    assert (a + b)[1..] == a[1..] + b;
    if a[1..] == [] {
      assert a[1..] + b == b;
    } else {
      SeparatedAppend(a[1..], b, sep, false);
    }
  }

  lemma SnakeHello()
    ensures Separated("Hello", '_', true) == "hello"
  {
  }

  lemma SnakeWorld()
    ensures Separated("World", '_', false) == "_world"
  {
  }

  lemma SnakeExampleHelloWorld()
    ensures Snake("HelloWorld") == "hello_world"
  {
    assert "HelloWorld" == "Hello" + "World";
    SeparatedAppend("Hello", "World", '_', true);
    SnakeHello();
    SnakeWorld();
    assert "hello" + "_world" == "hello_world";
  }

  lemma KebabHello()
    ensures Separated("Hello", '-', true) == "hello"
  {
  }

  lemma KebabWorld()
    ensures Separated("World", '-', false) == "-world"
  {
  }

  lemma KebabExampleHelloWorld()
    ensures Kebab("HelloWorld") == "hello-world"
  {
    assert "HelloWorld" == "Hello" + "World";
    SeparatedAppend("Hello", "World", '-', true);
    KebabHello();
    KebabWorld();
    assert "hello" + "-world" == "hello-world";
  }
}
