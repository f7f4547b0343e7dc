# EntityLengths.Analyzer — a verified model in Dafny

EntityLengths.Analyzer is a Roslyn analyzer for Entity Framework code. For every
`=` or `+=` assignment to a `string` property it works out the maximum length
configured for that property and reports either an Info (ML001, "consider adding
length validation") or, when a string literal longer than the limit is assigned,
an Error (ML002). The limit comes from, in this order:

1. the attribute strategies — `[MaxLength(n)]`, `[StringLength(n)]` and
   `[Column(TypeName = "varchar(n)")]` — each matching attributes by class name,
   ignoring case, the Column one reading the length out of the type name with the
   pattern `(?:var)?char\s*\((\d+)\)`;
2. failing those, the fluent configuration: a syntax walker looks, tree by tree, for
   `….Property(x => x.P).HasMaxLength(n)` or `….Property("P").HasMaxLength(n)`
   inside `OnModelCreating` of a class deriving from `DbContext`.

The model replaces Roslyn by plain values. A property symbol carries its name,
whether its type is `string`, and its attributes (class name, `int` constructor
arguments, named arguments with string values). Syntax is a datatype with the
node kinds the walker treats differently (class and method declarations,
invocations, member accesses, identifiers, lambdas, literals) and one catch-all
node with children. What the semantic model would answer is stored on the nodes:
the symbol an identifier or member access resolves to, the symbol a class
declares. Types form a finite base-type chain, and `GetTypeByMetadataName` is a
lookup in the compilation's table of types.

Modules, one per source file:

- `Common`: `Option`, the 32-bit `Int32`, ordinal ignore-case comparison.
- `Constants`: the names in `Constants.cs`.
- `Symbols`: symbols, attributes, syntax, compilation.
- `AttributeLookup`: the `Any` / `FirstOrDefault` search by class name that the
  three strategies share.
- `MaxLengthAttributeHandler`, `StringLengthAttributeHandler`,
  `ColumnAttributeHandler`: the strategies.
- `AttributeHandlers`: the common strategy interface.
- `VarCharPattern`: a hand-written scanner for the Column pattern, proved to find
  exactly the leftmost match the regular expression defines, and `int.TryParse`
  on its digits.
- `FluentConfigurationWalker`: the walker as a class whose `maxLength` field the
  visit methods update. Every visit method is proved against `Recorded`, the
  sequence of values a visit writes. `InheritsFrom` is proved against `BaseChain`
  and `IsPropertyConfiguration` against `ChainSelects`.
- `FluentApiHandler`: the driver that visits the trees in order with one shared
  walker.
- `MaxLengthAnalyzer`: the handler scan, the fluent fallback and the Info/Error
  classification.
- `AnalyzerExamples`: the scenarios of the analyzer's test suite.

The model follows the code, including where its behaviour may be unexpected:
- Within one tree the last matching `HasMaxLength` wins, because the walker keeps
  visiting after a match. Across trees the first tree that yields a value wins.
- The `Property` selector name is compared case-sensitively. `HasMaxLength` and
  `OnModelCreating` are compared ignoring case.
- Invocations outside any method declaration are inspected too. This covers
  field initialisers and top-level statements.
- Lengths are not checked to be positive: `[MaxLength(-1)]` and `HasMaxLength(0)`
  are taken as they are.
- The Column pattern is unanchored and allows whitespace before `(`.
  `nvarchar(50)` and `char (5)` therefore both give a length.
- A literal's length is its `string.Length`, a count of UTF-16 code units, so a
  character outside the Basic Multilingual Plane counts twice.

## Model

| member | source | states |
|---|---|---|
| Common.Utf16Length | src/EntityLengths.Analyzer/MaxLengthAnalyzer.cs:118 | the `Length` of a string in UTF-16 code units: at least its number of characters and at most twice that |
| Common.Utf16LengthInPlane | src/EntityLengths.Analyzer/MaxLengthAnalyzer.cs:118 | when no character lies above U+FFFF the UTF-16 length is the number of characters |
| Common.Utf16LengthOutsidePlane | src/EntityLengths.Analyzer/MaxLengthAnalyzer.cs:118 | when every character lies above U+FFFF (each a surrogate pair) the UTF-16 length is twice the number of characters |
| Common.Utf16LengthAppend | src/EntityLengths.Analyzer/MaxLengthAnalyzer.cs:118 | the UTF-16 length of a concatenation is the sum of the parts' lengths |
| AttributeLookup.FirstWithClassName | src/EntityLengths.Analyzer/AttributeHandlers/MaxLengthAttributeHandler.cs:19-22 | the `FirstOrDefault` search: the result is the first attribute whose class name equals the marker ignoring case, and none when no attribute matches |
| AttributeLookup.FirstConstructorArgument | src/EntityLengths.Analyzer/AttributeHandlers/MaxLengthAttributeHandler.cs:19-29 | the first constructor argument of the first matching attribute, null when that attribute has none; a value implies some attribute matches |
| AttributeLookup.FirstWithClassNameIgnoresOthers | src/EntityLengths.Analyzer/AttributeHandlers/StringLengthAttributeHandler.cs:19-22 | inserting an attribute with another class name anywhere leaves the first match where it was |
| AttributeLookup.OtherAttributesIrrelevant | src/EntityLengths.Analyzer/AttributeHandlers/StringLengthAttributeHandler.cs:19-29 | attributes with other class names never change the length read |
| MaxLengthAttributeHandler.CanHandleIffMarkerPresent | src/EntityLengths.Analyzer/AttributeHandlers/MaxLengthAttributeHandler.cs:9-15 | `CanHandle` holds exactly when some attribute is named `MaxLengthAttribute`, ignoring case |
| MaxLengthAttributeHandler.GetMaxLength | src/EntityLengths.Analyzer/AttributeHandlers/MaxLengthAttributeHandler.cs:17-30 | the first constructor argument of the first `MaxLengthAttribute`, null without one; a value implies `CanHandle` |
| StringLengthAttributeHandler.CanHandleIffMarkerPresent | src/EntityLengths.Analyzer/AttributeHandlers/StringLengthAttributeHandler.cs:9-15 | `CanHandle` holds exactly when some attribute is named `StringLengthAttribute`, ignoring case |
| StringLengthAttributeHandler.GetMaxLength | src/EntityLengths.Analyzer/AttributeHandlers/StringLengthAttributeHandler.cs:17-30 | the first constructor argument of the first `StringLengthAttribute`, null without one; a value implies `CanHandle` |
| ColumnAttributeHandler.CanHandleIffMarkerPresent | src/EntityLengths.Analyzer/AttributeHandlers/ColumnAttributeHandler.cs:15-18 | `CanHandle` holds exactly when some attribute is named `ColumnAttribute`, ignoring case |
| ColumnAttributeHandler.FirstNamedArgument | src/EntityLengths.Analyzer/AttributeHandlers/ColumnAttributeHandler.cs:31-33 | the first named argument whose key equals the given key ignoring case, none when no key matches |
| ColumnAttributeHandler.TypeNameValue | src/EntityLengths.Analyzer/AttributeHandlers/ColumnAttributeHandler.cs:31-38 | the value of the first `TypeName` argument (key ignoring case); null when there is none or its value is null |
| ColumnAttributeHandler.LengthFromTypeName | src/EntityLengths.Analyzer/AttributeHandlers/ColumnAttributeHandler.cs:46-52 | a length exactly when the pattern matches and its digits fit in an `int`; it is then the value of those digits, never negative |
| ColumnAttributeHandler.GetMaxLength | src/EntityLengths.Analyzer/AttributeHandlers/ColumnAttributeHandler.cs:20-53 | reads only the first `ColumnAttribute`: null without one, or without a non-null `TypeName`, otherwise the length its type name declares; a value implies `CanHandle` |
| ColumnAttributeHandler.IgnoresConstructorArguments | src/EntityLengths.Analyzer/AttributeHandlers/ColumnAttributeHandler.cs:20-53 | changing any attribute's positional arguments never changes the Column length |
| ColumnAttributeHandler.TypeNameDeclaresLength | src/EntityLengths.Analyzer/AttributeHandlers/ColumnAttributeHandler.cs:10-13 | `char(n)`, `varchar(n)` and `nvarchar(n)`, in any case, declare `n` whenever `n` fits in an `int` |
| ColumnAttributeHandler.TypeNameOverflowDeclaresNothing | src/EntityLengths.Analyzer/AttributeHandlers/ColumnAttributeHandler.cs:46-52 | the same type names with a number above `int.MaxValue` declare nothing |
| ColumnAttributeHandler.DeclaredDigitsFound | src/EntityLengths.Analyzer/AttributeHandlers/ColumnAttributeHandler.cs:46 | in `[n]char(d)` and `[n]varchar(d)` the leftmost match starts after the optional `n` and its group is `d` |
| ColumnAttributeHandler.NVarcharMaxDeclaresNothing | src/EntityLengths.Analyzer/AttributeHandlers/ColumnAttributeHandler.cs:46-52 | `nvarchar(max)` declares no length |
| ColumnAttributeHandler.MatchStartsWithVarOrChar | src/EntityLengths.Analyzer/AttributeHandlers/ColumnAttributeHandler.cs:11 | a match can only start at a `v` or a `c`, in either case |
| VarCharPattern.SkipWhitespace | src/EntityLengths.Analyzer/AttributeHandlers/ColumnAttributeHandler.cs:11 | `\s*` consumes the maximal run of .NET whitespace |
| VarCharPattern.SkipDigits | src/EntityLengths.Analyzer/AttributeHandlers/ColumnAttributeHandler.cs:11 | `\d+` consumes the maximal run of digits |
| VarCharPattern.MatchAtSound | src/EntityLengths.Analyzer/AttributeHandlers/ColumnAttributeHandler.cs:10-13 | what the scanner finds at a position is a word of the pattern's language, with the digits as its group |
| VarCharPattern.MatchAtComplete | src/EntityLengths.Analyzer/AttributeHandlers/ColumnAttributeHandler.cs:10-13 | every word of the language starting at a position is the one the scanner finds there, so backtracking order cannot matter |
| VarCharPattern.Search | src/EntityLengths.Analyzer/AttributeHandlers/ColumnAttributeHandler.cs:46 | the search returns the match at the first position that has one, and none when no position has one |
| VarCharPattern.MatchIsLeftmost | src/EntityLengths.Analyzer/AttributeHandlers/ColumnAttributeHandler.cs:46-47 | `Match` finds the leftmost substring in the pattern's language, and fails exactly when there is none |
| VarCharPattern.DecimalRoundTrip | src/EntityLengths.Analyzer/AttributeHandlers/ColumnAttributeHandler.cs:47 | reading back the decimal spelling of a number gives the number |
| VarCharPattern.TryParseInt32 | src/EntityLengths.Analyzer/AttributeHandlers/ColumnAttributeHandler.cs:47 | `int.TryParse` on digits succeeds exactly when their value is at most `int.MaxValue`, and then gives that value |
| AttributeHandlers.AttributeHandler.GetMaxLength | src/EntityLengths.Analyzer/AttributeHandlers/IAttributeHandler.cs:22 | a strategy that cannot handle the property never yields a length |
| FluentConfigurationWalker.BaseChain | src/EntityLengths.Analyzer/FluentConfiguration/FluentConfigurationWalker.cs:65-78 | the chain starts at the type, each entry's base type is the next entry, and it ends at a type without base |
| FluentConfigurationWalker.InheritsFrom | src/EntityLengths.Analyzer/FluentConfiguration/FluentConfigurationWalker.cs:65-78 | true exactly when the base type occurs in the type's base chain, the type itself included |
| FluentConfigurationWalker.InheritanceIsTransitive | src/EntityLengths.Analyzer/FluentConfiguration/FluentConfigurationWalker.cs:65-78 | a class deriving from a class that derives from `b` derives from `b` |
| FluentConfigurationWalker.OnlyOnModelCreatingOfDbContext | src/EntityLengths.Analyzer/FluentConfiguration/FluentConfigurationWalker.cs:15-25 | a method records something only if it is named `OnModelCreating`, ignoring case, and its parent is a `DbContext` class; nothing is recorded when the compilation has no `DbContext` |
| FluentConfigurationWalker.LastRecordingWins | src/EntityLengths.Analyzer/FluentConfiguration/FluentConfigurationWalker.cs:27-45 | after a sequence of nodes the walker holds the last value recorded by the last node that records one: later matches overwrite earlier ones |
| FluentConfigurationWalker.LambdaSelectorRecognised | src/EntityLengths.Analyzer/FluentConfiguration/FluentConfigurationWalker.cs:92-101 | `….Property(x => x.P).HasMaxLength(n)` selects the target when the lambda body resolves to it |
| FluentConfigurationWalker.StringSelectorRecognised | src/EntityLengths.Analyzer/FluentConfiguration/FluentConfigurationWalker.cs:103-107 | `….Property("P").HasMaxLength(n)` selects the target when the literal text is its name |
| FluentConfigurationWalker.OtherCallEndsWalk | src/EntityLengths.Analyzer/FluentConfiguration/FluentConfigurationWalker.cs:82-112 | the walk back goes only through member accesses, so any call other than `Property(...)` met on the way means no match |
| FluentConfigurationWalker.IsRequiredInBetweenNotRecognised | src/EntityLengths.Analyzer/FluentConfiguration/FluentConfigurationWalker.cs:82-112 | `.Property(..).IsRequired().HasMaxLength(n)` is not recognised |
| FluentConfigurationWalker.LowerCaseSelectorNotRecognised | src/EntityLengths.Analyzer/FluentConfiguration/FluentConfigurationWalker.cs:86-89 | a selector spelled `property` is not recognised: the name is compared case-sensitively |
| FluentConfigurationWalker.FluentConfigurationWalker.constructor | src/EntityLengths.Analyzer/FluentConfiguration/FluentConfigurationWalker.cs:8-13 | a new walker holds no length |
| FluentConfigurationWalker.FluentConfigurationWalker.Visit | src/EntityLengths.Analyzer/FluentConfiguration/FluentConfigurationWalker.cs:8-45 | after visiting a node, `MaxLength` is the last value recorded during the visit, or unchanged if none |
| FluentConfigurationWalker.FluentConfigurationWalker.VisitEach | src/EntityLengths.Analyzer/FluentConfiguration/FluentConfigurationWalker.cs:8-45 | visiting children in order leaves the last value any of them records |
| FluentConfigurationWalker.FluentConfigurationWalker.VisitMethodDeclaration | src/EntityLengths.Analyzer/FluentConfiguration/FluentConfigurationWalker.cs:15-25 | the method body is visited only for `OnModelCreating` of a `DbContext` class; otherwise `MaxLength` is unchanged |
| FluentConfigurationWalker.FluentConfigurationWalker.VisitInvocationExpression | src/EntityLengths.Analyzer/FluentConfiguration/FluentConfigurationWalker.cs:27-45 | a configuring `HasMaxLength` with an `int` literal first argument sets `MaxLength`, then callee and arguments are visited and may overwrite it |
| FluentConfigurationWalker.FluentConfigurationWalker.IsDbContextMethod | src/EntityLengths.Analyzer/FluentConfiguration/FluentConfigurationWalker.cs:47-63 | true exactly when the parent is a class with a symbol, `DbContext` is known, and it is in the class's base chain |
| FluentConfigurationWalker.FluentConfigurationWalker.IsPropertyConfiguration | src/EntityLengths.Analyzer/FluentConfiguration/FluentConfigurationWalker.cs:80-113 | the loop agrees with `ChainSelects`: the first `Property(...)` call reached through member accesses decides |
| FluentApiHandler.FluentLength | src/EntityLengths.Analyzer/FluentConfiguration/FluentApiHandler.cs:11-29 | null exactly when no tree records a value; otherwise the last value recorded in the first tree that records one |
| FluentApiHandler.GetMaxLengthFromFluentApi | src/EntityLengths.Analyzer/FluentConfiguration/FluentApiHandler.cs:11-29 | the shared walker with its early return computes exactly `FluentLength` over the trees in order |
| MaxLengthAnalyzer.AttributeLength | src/EntityLengths.Analyzer/MaxLengthAnalyzer.cs:93-101 | the scan yields the length of the first handler that produces one, and null exactly when none does; the `CanHandle` filter changes nothing |
| MaxLengthAnalyzer.TargetProperty | src/EntityLengths.Analyzer/MaxLengthAnalyzer.cs:75-90 | a target exactly when the left side is an identifier or member access resolving to a `string` property |
| MaxLengthAnalyzer.Classify | src/EntityLengths.Analyzer/MaxLengthAnalyzer.cs:113-140 | an Error (length, limit, name) exactly for a string literal whose UTF-16 length exceeds the limit, carrying that UTF-16 length; an Info (name, limit) otherwise |
| MaxLengthAnalyzer.AnalyzeAssignment | src/EntityLengths.Analyzer/MaxLengthAnalyzer.cs:71-141 | the reported diagnostics are the expected ones, and there is at most one |
| MaxLengthAnalyzer.DiagnosticOutcomes | src/EntityLengths.Analyzer/MaxLengthAnalyzer.cs:108-111 | no diagnostic exactly when there is no string target or no limit; never more than one |
| MaxLengthAnalyzer.AttributePrecedence | src/EntityLengths.Analyzer/MaxLengthAnalyzer.cs:49-54 | `MaxLength` first, then `StringLength`, then `Column`, whatever the order of the attributes |
| MaxLengthAnalyzer.FluentOnlyWithoutAttributeLength | src/EntityLengths.Analyzer/MaxLengthAnalyzer.cs:103-106 | the fluent configuration decides only when no handler produced a length |
| MaxLengthAnalyzer.CompoundAssignmentAnalysedAlike | src/EntityLengths.Analyzer/MaxLengthAnalyzer.cs:65-68 | `+=` is analysed like `=`: only the literal's own length counts |
| AnalyzerExamples.MaxLengthLiteralTooLong | test/EntityLengths.Analyzer.Tests/MaxLengthAnalyzerTests.cs:28-54 | `[MaxLength(5)]` and a 14-character literal give Error (14, 5, "Name") |
| AnalyzerExamples.MaxLengthNonLiteralInfo | test/EntityLengths.Analyzer.Tests/MaxLengthAnalyzerTests.cs:56-84 | a non-literal right side gives Info ("Name", 5) |
| AnalyzerExamples.StringLengthLiteralTooLong | test/EntityLengths.Analyzer.Tests/MaxLengthAnalyzerTests.cs:86-112 | `[StringLength(5)]` gives Error (14, 5, "Name") |
| AnalyzerExamples.SurrogatePairCountsTwice | src/EntityLengths.Analyzer/MaxLengthAnalyzer.cs:117-126 | `[MaxLength(1)]` and a literal holding the single character U+1F600 gives Error (2, 1, "Name"), since its `Length` is 2 |
| AnalyzerExamples.Varchar10Declares10 | test/EntityLengths.Analyzer.Tests/MaxLengthAnalyzerTests.cs:114-140 | `[Column(TypeName = "varchar(10)")]` gives the length 10 |
| AnalyzerExamples.ColumnVarcharLiteralTooLong | test/EntityLengths.Analyzer.Tests/MaxLengthAnalyzerTests.cs:114-140 | a 43-character literal against `varchar(10)` gives Error (43, 10, "Name") |
| AnalyzerExamples.MultipleAttributesUseMaxLength | test/EntityLengths.Analyzer.Tests/MaxLengthAnalyzerTests.cs:206-235 | `[MaxLength(5)][StringLength(10)][Column(TypeName = "varchar(20)")]` gives Error (14, 5, "Name") |
| AnalyzerExamples.ReversedAttributesUseMaxLength | test/EntityLengths.Analyzer.Tests/MaxLengthAnalyzerTests.cs:206-235 | the same attributes in reverse order still give the limit 5 |
| AnalyzerExamples.HasMaxLength20Records20 | test/EntityLengths.Analyzer.Tests/MaxLengthAnalyzerTests.cs:159-161 | the statement `….Property(u => u.Name).HasMaxLength(20)` records 20 |
| AnalyzerExamples.DbContextRecords20 | test/EntityLengths.Analyzer.Tests/MaxLengthAnalyzerTests.cs:153-163 | `TestDbContext.OnModelCreating` records 20 |
| AnalyzerExamples.FluentHasMaxLengthReportsError | test/EntityLengths.Analyzer.Tests/MaxLengthAnalyzerTests.cs:142-182 | the fluent limit is 20 and the 57-character literal gives Error (57, 20, "Name") |
| AnalyzerExamples.NonStringPropertyIgnored | test/EntityLengths.Analyzer.Tests/MaxLengthAnalyzerTests.cs:184-204 | an `int` property with `[MaxLength(5)]` gives no diagnostic |
| AnalyzerExamples.NoMaxLengthNoDiagnostic | test/EntityLengths.Analyzer.Tests/MaxLengthAnalyzerTests.cs:9-26 | a string property without any length configuration gives no diagnostic |

## Left out

- Roslyn host plumbing is not modelled: `Initialize`, action registration, concurrent execution, the diagnostic descriptors, their titles and message formats, and diagnostic locations. A diagnostic is its kind and its message arguments.
- The semantic model is replaced by annotations on the syntax: the symbol each identifier or member access resolves to, and the symbol each class declares. Symbols are compared by value. In Roslyn, the walker asks the assignment tree's semantic model about nodes of every tree, and such a query on another tree's node throws. The model treats every annotation as a valid answer, so that exception is not modelled.
- Only the node kinds the walker distinguishes are modelled. A method declaration's parameters and attribute lists are not visited, because they hold no calls. The walker's Roslyn stack guard for very deep trees is not modelled.
- A string literal's text is its decoded value; C# escape decoding is not modelled. Its length is counted in UTF-16 code units as `string.Length` counts them, a character above U+FFFF counting 2. A lone surrogate cannot be written as a Dafny `char`, so literals holding unpaired surrogates are not modelled.
- Constructor arguments are `int` values. The invalid cast the strategies would raise on a non-`int` argument is not modelled.
- Named-argument values are strings or null. `ToString` of values of other types is not modelled.
- VarCharPattern.Search: only this one pattern is modelled, not a general regex engine. `\s` is the exact .NET whitespace class. `\d` accepts ASCII digits only, not other Unicode decimal digits. Ignore-case comparison folds ASCII letters only, here and in all name comparisons.
- The analyzer's exceptions and cancellation are not modelled.
