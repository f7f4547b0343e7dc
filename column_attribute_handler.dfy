/** The strategy for `[Column(TypeName = "varchar(n)")]`
    (src/EntityLengths.Analyzer/AttributeHandlers/ColumnAttributeHandler.cs). */
module ColumnAttributeHandler {
  import opened Common
  import opened Symbols
  import opened AttributeLookup
  import opened VarCharPattern
  import Constants

  /** Some attribute's class is named `ColumnAttribute`, ignoring case. */
  predicate CanHandle(attributes: seq<AttributeData>)
  {
    FirstWithClassName(attributes, Constants.ColumnAttribute).Some?
  }

  lemma CanHandleIffMarkerPresent(attributes: seq<AttributeData>)
    ensures CanHandle(attributes) <==>
      exists i :: 0 <= i < |attributes| && HasClassName(attributes[i], Constants.ColumnAttribute)
  {
  }

  /** `k` is the position of the first named argument whose key is `key`, ignoring case. */
  predicate IsFirstNamed(args: seq<NamedArgument>, k: nat, key: string)
  {
    k < |args| && EqualsIgnoreCase(args[k].key, key) &&
    forall j :: 0 <= j < k ==> !EqualsIgnoreCase(args[j].key, key)
  }

  /** The position of the first named argument with the given key, ignoring case. */
  function FirstNamedArgument(args: seq<NamedArgument>, key: string): (r: Option<nat>)
    ensures r.Some? ==> IsFirstNamed(args, r.value, key)
    ensures r.None? ==> forall j :: 0 <= j < |args| ==> !EqualsIgnoreCase(args[j].key, key)
  {
    if args == [] then None
    else if EqualsIgnoreCase(args[0].key, key) then Some(0)
    else match FirstNamedArgument(args[1..], key)
      case None => None
      case Some(k) => Some(k + 1)
  }

  /** The text of the `TypeName` named argument (key compared ignoring case, first
      one wins); null when it is absent or its value is null. */
  function TypeNameValue(a: AttributeData): (r: Option<string>)
    ensures forall k: nat :: IsFirstNamed(a.namedArguments, k, Constants.TypeName) ==>
      r == a.namedArguments[k].value
    ensures (forall j :: 0 <= j < |a.namedArguments| ==>
      !EqualsIgnoreCase(a.namedArguments[j].key, Constants.TypeName)) ==> r.None?
  {
    match FirstNamedArgument(a.namedArguments, Constants.TypeName)
    case None => None
    case Some(k) => a.namedArguments[k].value
  }

  /** The length a column type name declares: the digits of the leftmost match of
      `(var)?char\s*\((\d+)\)`, if they fit in an `int`. */
  function LengthFromTypeName(typeName: string): (r: Option<Int32>)
    ensures r.Some? ==> r.value >= 0
    ensures r.Some? <==> Match(typeName).Some? && DecimalValue(Match(typeName).value.group) <= Int32Max
    ensures r.Some? ==> r.value as int == DecimalValue(Match(typeName).value.group)
  {
    match Match(typeName)
    case None => None
    case Some(m) => TryParseInt32(m.group)
  }

  /** Reads the first `ColumnAttribute` only: its `TypeName`, if present, non-null and
      non-empty, gives the length its text declares. */
  function GetMaxLength(attributes: seq<AttributeData>): (r: Option<Int32>)
    ensures r.Some? ==> CanHandle(attributes)
    ensures forall k: nat :: IsFirstWithClassName(attributes, k, Constants.ColumnAttribute) ==>
      r == (match TypeNameValue(attributes[k])
            case None => None
            case Some(typeName) => LengthFromTypeName(typeName))
  {
    match FirstWithClassName(attributes, Constants.ColumnAttribute)
    case None => None
    case Some(k) =>
      match TypeNameValue(attributes[k])
      case None => None
      case Some(typeName) =>
        if typeName == "" then None
        else LengthFromTypeName(typeName)
  }

  /** Positional arguments play no part: changing the constructor arguments of
      any attribute leaves the result unchanged. */
  lemma IgnoresConstructorArguments(attributes: seq<AttributeData>, i: nat, args: seq<Int32>)
    requires i < |attributes|
    ensures GetMaxLength(attributes[i := attributes[i].(constructorArguments := args)]) == GetMaxLength(attributes)
  {
    var changed := attributes[i := attributes[i].(constructorArguments := args)];
    FirstWithClassNameReadsNamesOnly(changed, attributes, Constants.ColumnAttribute);
  }

  /** A type name made of an optional `n`, then `char` or `varchar` in any case,
      then a parenthesised decimal number that fits in an `int`, declares that number:
      `char(10)`, `varchar(10)` and `nvarchar(10)` all give 10. */
  lemma {:induction false} TypeNameDeclaresLength(prefix: string, keyword: string, n: nat)
    requires prefix == "" || EqualsIgnoreCase(prefix, "n")
    requires EqualsIgnoreCase(keyword, "char") || EqualsIgnoreCase(keyword, "varchar")
    requires n <= Int32Max
    ensures LengthFromTypeName(prefix + keyword + "(" + DecimalText(n) + ")") == Some(n as Int32)
  {
    DeclaredDigitsFound(prefix, keyword, DecimalText(n));
    DecimalRoundTrip(n);
  }

  /** The same shape with a number beyond `int.MaxValue` declares nothing. */
  lemma {:induction false} TypeNameOverflowDeclaresNothing(prefix: string, keyword: string, n: nat)
    requires prefix == "" || EqualsIgnoreCase(prefix, "n")
    requires EqualsIgnoreCase(keyword, "char") || EqualsIgnoreCase(keyword, "varchar")
    requires n > Int32Max
    ensures LengthFromTypeName(prefix + keyword + "(" + DecimalText(n) + ")") == None
  {
    DeclaredDigitsFound(prefix, keyword, DecimalText(n));
    DecimalRoundTrip(n);
  }

  /** Neither `var` nor `char` starts with `n`. */
  lemma NoMatchAtN(s: seq<char>, i: nat)
    requires i < |s| && ToUpperAscii(s[i]) == 'N'
    ensures MatchAt(s, i).None?
  {
    if i + 3 <= |s| {
      assert s[i..i + 3][0] == s[i];
    }
    if i + 4 <= |s| {
      assert s[i..i + 4][0] == s[i];
    }
  }

  /** `keyword + "(" + digits + ")"` spells a word of the language at `|prefix|`. */
  lemma KeywordMatchAt(prefix: string, keyword: string, digits: seq<char>)
    requires EqualsIgnoreCase(keyword, "char") || EqualsIgnoreCase(keyword, "varchar")
    requires |digits| > 0 && AllDigits(digits)
    ensures var s := prefix + keyword + "(" + digits + ")";
      MatchAt(s, |prefix|) == Some(RegexMatch(|prefix|, |s| - |prefix|, digits))
  {
    var s := prefix + keyword + "(" + digits + ")";
    var p := |prefix|;
    var v := |keyword| - 4;
    assert s[p..p + |keyword|] == keyword;
    SliceOfSlice(s, p, p + |keyword|, v, v + 4);
    if v == 3 {
      SliceOfSlice(s, p, p + |keyword|, 0, 3);
      EqualsIgnoreCaseSlice(keyword, "varchar", 0, 3);
      EqualsIgnoreCaseSlice(keyword, "varchar", 3, 7);
      assert "varchar"[0..3] == "var" && "varchar"[3..7] == "char";
    } else {
      assert keyword[v..v + 4] == keyword;
    }
    assert s[p + v + 4] == '(';
    assert s[p + v + 5..|s| - 1] == digits;
    assert s[|s| - 1] == ')';
    SplitFromText(s, p, |s|, v, 0, digits);
    MatchAtComplete(s, p, |s|, digits);
  }

  /** In `prefix + keyword + "(" + digits + ")"` the leftmost match is the whole text
      after the prefix, and its group is `digits`. */
  lemma DeclaredDigitsFound(prefix: string, keyword: string, digits: seq<char>)
    requires prefix == "" || EqualsIgnoreCase(prefix, "n")
    requires EqualsIgnoreCase(keyword, "char") || EqualsIgnoreCase(keyword, "varchar")
    requires |digits| > 0 && AllDigits(digits)
    ensures var s := prefix + keyword + "(" + digits + ")";
      Match(s) == Some(RegexMatch(|prefix|, |s| - |prefix|, digits))
  {
    var s := prefix + keyword + "(" + digits + ")";
    KeywordMatchAt(prefix, keyword, digits);
    if |prefix| == 1 {
      assert s[0] == prefix[0];
      NoMatchAtN(s, 0);
      assert Search(s, 0) == Search(s, 1);
    }
  }

  /** A match starts with `v` or `c` in either case. */
  lemma MatchStartsWithVarOrChar(s: seq<char>, i: nat)
    requires i <= |s|
    ensures MatchAt(s, i).Some? ==> i < |s| && ToUpperAscii(s[i]) in {'V', 'C'}
  {
    if i + 3 <= |s| && EqualsIgnoreCase(s[i..i + 3], "var") {
      assert s[i..i + 3][0] == s[i];
    } else if i + 4 <= |s| {
      assert s[i..i + 4][0] == s[i];
    }
  }

  /** `char(max)` at position 4 of `nvarchar(max)` has no digits. */
  lemma NoDigitsAfterChar(s: seq<char>)
    requires s == "nvarchar(max)"
    ensures MatchCharAt(s, 4).None?
  {
    assert SkipWhitespace(s, 8) == 8;
    assert SkipDigits(s, 9) == 9;
  }

  /** `nvarchar(max)` declares no length. */
  lemma NVarcharMaxDeclaresNothing()
    ensures LengthFromTypeName("nvarchar(max)") == None
  {
    var s := "nvarchar(max)";
    NoDigitsAfterChar(s);
    forall q | 0 <= q <= |s|
      ensures MatchAt(s, q).None?
    {
      MatchStartsWithVarOrChar(s, q);
      if q == 1 {
        assert s[1..4] == "var";
        assert s[1..5] == "varc";
      } else if q == 4 {
        assert s[4..7] == "cha";
      }
    }
  }
}
