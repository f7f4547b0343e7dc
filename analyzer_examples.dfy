/** The scenarios of the analyzer's test suite, stated as facts about the model
    (test/EntityLengths.Analyzer.Tests/MaxLengthAnalyzerTests.cs). */
module AnalyzerExamples {
  import opened Common
  import opened Symbols
  import opened MaxLengthAnalyzer
  import opened AttributeLookup
  import MaxLengthAttributeHandler
  import StringLengthAttributeHandler
  import ColumnAttributeHandler
  import VarCharPattern
  import FluentApiHandler
  import FluentConfigurationWalker

  const MaxLength5 := AttributeData(Some("MaxLengthAttribute"), [5], [])
  const MaxLength1 := AttributeData(Some("MaxLengthAttribute"), [1], [])
  const StringLength5 := AttributeData(Some("StringLengthAttribute"), [5], [])
  const StringLength10 := AttributeData(Some("StringLengthAttribute"), [10], [])

  function ColumnType(typeName: string): AttributeData
  {
    AttributeData(Some("ColumnAttribute"), [], [NamedArgument("TypeName", Some(typeName))])
  }

  /** `public string Name { get; set; }` with the given attributes. */
  function NameProperty(attributes: seq<AttributeData>): PropertySymbol
  {
    PropertySymbol(1, "Name", true, attributes)
  }

  /** `Name = right;` */
  function AssignName(attributes: seq<AttributeData>, right: Syntax): AssignmentExpression
  {
    AssignmentExpression(SimpleAssignment, IdentifierName("Name", Some(Property(NameProperty(attributes)))), right)
  }

  function StringLiteral(text: string): Syntax
  {
    LiteralExpression(LiteralKind.StringLiteral, text)
  }

  /** `"Too Long Value"` is 14 code units long. */
  lemma TooLongValueLength()
    ensures Utf16Length("Too Long Value") == 14
  {
    var text := "Too Long Value";
    forall i | 0 <= i < |text|
      ensures text[i] as int <= 0xFFFF
    {
    }
    Utf16LengthInPlane(text);
  }

  /** The literal of the Column scenario is 43 code units long. */
  lemma DefinitelyTooLongLength()
    ensures Utf16Length("This is definitely too long for varchar(10)") == 43
  {
    var text := "This is definitely too long for varchar(10)";
    forall i | 0 <= i < |text|
      ensures text[i] as int <= 0xFFFF
    {
    }
    Utf16LengthInPlane(text);
  }

  /** `[MaxLength(5)]` and a 14-character literal: one Error (14, 5, "Name"),
      whatever the fluent configuration says. */
  lemma MaxLengthLiteralTooLong(c: Compilation)
    ensures ExpectedDiagnostics(c, AssignName([MaxLength5], StringLiteral("Too Long Value"))) ==
      [Error(14, 5, "Name")]
  {
    EqualsIgnoreCaseIsEquivalence("MaxLengthAttribute", "MaxLengthAttribute", "MaxLengthAttribute");
    AttributePrecedence([MaxLength5]);
    TooLongValueLength();
  }

  /** `[MaxLength(1)]` and a literal holding one character outside the Basic
      Multilingual Plane: its `Length` is 2, so one Error (2, 1, "Name"). */
  lemma SurrogatePairCountsTwice(c: Compilation)
    ensures ExpectedDiagnostics(c, AssignName([MaxLength1], StringLiteral("\U{1F600}"))) ==
      [Error(2, 1, "Name")]
  {
    EqualsIgnoreCaseIsEquivalence("MaxLengthAttribute", "MaxLengthAttribute", "MaxLengthAttribute");
    AttributePrecedence([MaxLength1]);
    Utf16LengthOutsidePlane("\U{1F600}");
  }

  /** `[MaxLength(5)]` and a non-literal right side: one Info ("Name", 5). */
  lemma MaxLengthNonLiteralInfo(c: Compilation)
    ensures ExpectedDiagnostics(c, AssignName([MaxLength5], IdentifierName("value", None))) ==
      [Info("Name", 5)]
  {
    EqualsIgnoreCaseIsEquivalence("MaxLengthAttribute", "MaxLengthAttribute", "MaxLengthAttribute");
    AttributePrecedence([MaxLength5]);
  }

  /** `[StringLength(5)]` and a 14-character literal: one Error (14, 5, "Name"). */
  lemma StringLengthLiteralTooLong(c: Compilation)
    ensures ExpectedDiagnostics(c, AssignName([StringLength5], StringLiteral("Too Long Value"))) ==
      [Error(14, 5, "Name")]
  {
    EqualsIgnoreCaseIsEquivalence("StringLengthAttribute", "StringLengthAttribute", "StringLengthAttribute");
    AttributePrecedence([StringLength5]);
    TooLongValueLength();
  }

  /** `TypeName = "varchar(10)"` declares 10. */
  lemma Varchar10Declares10()
    ensures ColumnAttributeHandler.GetMaxLength([ColumnType("varchar(10)")]) == Some(10)
  {
    EqualsIgnoreCaseIsEquivalence("ColumnAttribute", "ColumnAttribute", "ColumnAttribute");
    EqualsIgnoreCaseIsEquivalence("TypeName", "TypeName", "TypeName");
    EqualsIgnoreCaseIsEquivalence("varchar", "varchar", "varchar");
    assert VarCharPattern.DecimalText(10) == "10";
    assert "" + "varchar" + "(" + "10" + ")" == "varchar(10)";
    ColumnAttributeHandler.TypeNameDeclaresLength("", "varchar", 10);
    assert ColumnAttributeHandler.TypeNameValue(ColumnType("varchar(10)")) == Some("varchar(10)");
  }

  /** A lone `Column` attribute is not read by the other two strategies. */
  lemma ColumnAloneNotReadByOthers(typeName: string)
    ensures MaxLengthAttributeHandler.GetMaxLength([ColumnType(typeName)]).None?
    ensures StringLengthAttributeHandler.GetMaxLength([ColumnType(typeName)]).None?
  {
    assert !HasClassName(ColumnType(typeName), "MaxLengthAttribute");
    assert !HasClassName(ColumnType(typeName), "StringLengthAttribute");
  }

  /** `[Column(TypeName = "varchar(10)")]` and a 43-character literal: one Error (43, 10, "Name"). */
  lemma ColumnVarcharLiteralTooLong(c: Compilation)
    ensures ExpectedDiagnostics(c, AssignName([ColumnType("varchar(10)")],
      StringLiteral("This is definitely too long for varchar(10)"))) == [Error(43, 10, "Name")]
  {
    Varchar10Declares10();
    ColumnAloneNotReadByOthers("varchar(10)");
    AttributePrecedence([ColumnType("varchar(10)")]);
    DefinitelyTooLongLength();
  }

  /** With a `MaxLength(5)` attribute anywhere among `StringLength(10)` and
      `Column(TypeName = "varchar(20)")`, the `MaxLength` strategy reads 5. */
  lemma MaxLengthAmongOthers()
    ensures MaxLengthAttributeHandler.GetMaxLength([MaxLength5, StringLength10, ColumnType("varchar(20)")]) == Some(5)
    ensures MaxLengthAttributeHandler.GetMaxLength([ColumnType("varchar(20)"), StringLength10, MaxLength5]) == Some(5)
  {
    EqualsIgnoreCaseIsEquivalence("MaxLengthAttribute", "MaxLengthAttribute", "MaxLengthAttribute");
    assert !HasClassName(ColumnType("varchar(20)"), "MaxLengthAttribute");
    assert !HasClassName(StringLength10, "MaxLengthAttribute");
    assert IsFirstWithClassName([ColumnType("varchar(20)"), StringLength10, MaxLength5], 2, "MaxLengthAttribute");
  }

  /** With a limit from the attributes, the assignment gets one diagnostic,
      classified against that limit. */
  lemma AttributeLimitClassifies(c: Compilation, attributes: seq<AttributeData>, right: Syntax, limit: Int32)
    requires AttributeLength(Handlers, attributes) == Some(limit)
    ensures ExpectedDiagnostics(c, AssignName(attributes, right)) == [Classify("Name", limit, right)]
  {
    assert TargetProperty(AssignName(attributes, right).left) == Some(NameProperty(attributes));
  }

  /** `[MaxLength(5)] [StringLength(10)] [Column(TypeName = "varchar(20)")]`: the
      `MaxLength` limit 5 applies. */
  lemma MultipleAttributesUseMaxLength(c: Compilation)
    ensures ExpectedDiagnostics(c, AssignName([MaxLength5, StringLength10, ColumnType("varchar(20)")],
      StringLiteral("Too Long Value"))) == [Error(14, 5, "Name")]
  {
    var attributes := [MaxLength5, StringLength10, ColumnType("varchar(20)")];
    MaxLengthAmongOthers();
    TooLongValueLength();
    AttributePrecedence(attributes);
    AttributeLimitClassifies(c, attributes, StringLiteral("Too Long Value"), 5);
  }

  /** The same attributes in reverse order: still 5. */
  lemma ReversedAttributesUseMaxLength(c: Compilation)
    ensures ExpectedDiagnostics(c, AssignName([ColumnType("varchar(20)"), StringLength10, MaxLength5],
      StringLiteral("Too Long Value"))) == [Error(14, 5, "Name")]
  {
    var attributes := [ColumnType("varchar(20)"), StringLength10, MaxLength5];
    MaxLengthAmongOthers();
    TooLongValueLength();
    AttributePrecedence(attributes);
    AttributeLimitClassifies(c, attributes, StringLiteral("Too Long Value"), 5);
  }

  /** `[MaxLength(5)] public int Number`: no diagnostic. */
  lemma NonStringPropertyIgnored(c: Compilation)
    ensures ExpectedDiagnostics(c, AssignmentExpression(SimpleAssignment,
      IdentifierName("Number", Some(Property(PropertySymbol(2, "Number", false, [MaxLength5])))),
      LiteralExpression(IntLiteral(12345), "12345"))) == []
  {
  }

  /** The types of the fluent-configuration scenario. */
  const DbContextType := TypeSymbol(100, None)
  const TestDbContextType := TypeSymbol(101, Some(DbContextType))
  const UserType := TypeSymbol(102, None)
  const TestClassType := TypeSymbol(103, None)

  /** `User.Name`, without attributes. */
  const UserName := NameProperty([])

  /** `modelBuilder.Entity<User>().Property(u => u.Name).HasMaxLength(20);` */
  const PropertySelection :=
    InvocationExpression(
      MemberAccessExpression(
        InvocationExpression(MemberAccessExpression(IdentifierName("modelBuilder", None), "Entity", None), []),
        "Property", None),
      [LambdaExpression(MemberAccessExpression(IdentifierName("u", None), "Name", Some(Property(UserName))))])
  const HasMaxLength20 :=
    InvocationExpression(MemberAccessExpression(PropertySelection, "HasMaxLength", None),
      [LiteralExpression(IntLiteral(20), "20")])

  /** `user.Name = "This is a very long string that exceeds twenty characters";` */
  const UserNameTarget := MemberAccessExpression(IdentifierName("user", None), "Name", Some(Property(UserName)))
  /** The literal assigned in the fluent scenario, held as its two halves so that
      its length can be counted half by half. */
  const LongTextFront := "This is a very long string"
  const LongTextBack := " that exceeds twenty characters"
  const LongText := LongTextFront + LongTextBack
  const UserAssignmentSyntax := OtherSyntax([UserNameTarget, StringLiteral(LongText)])

  const TestClassDeclaration :=
    ClassDeclaration(Some(TestClassType), [MethodDeclaration("Test", [UserAssignmentSyntax])])
  const DbContextDeclaration :=
    ClassDeclaration(Some(TestDbContextType), [MethodDeclaration("OnModelCreating", [HasMaxLength20])])

  const FluentCompilation := Compilation(
    [OtherSyntax([ClassDeclaration(Some(UserType), []), DbContextDeclaration, TestClassDeclaration])],
    map["Microsoft.EntityFrameworkCore.DbContext" := DbContextType])

  /** The `Property(u => u.Name)` call records nothing itself. */
  lemma PropertySelectionRecordsNothing(c: Compilation)
    ensures FluentConfigurationWalker.Recorded(c, UserName, PropertySelection, FluentConfigurationWalker.OtherParent) == []
  {
    var other := FluentConfigurationWalker.OtherParent;
    var entity := PropertySelection.expression.expression;
    var lambda := PropertySelection.arguments[0];
    assert FluentConfigurationWalker.RecordedAt(entity, UserName) == [];
    assert FluentConfigurationWalker.RecordedEach(c, UserName, entity.arguments, other, entity) == [];
    assert FluentConfigurationWalker.Recorded(c, UserName, entity, other) == [];
    assert FluentConfigurationWalker.Recorded(c, UserName, lambda, other) == [];
    assert FluentConfigurationWalker.RecordedEach(c, UserName, PropertySelection.arguments, other, PropertySelection) == [];
    assert FluentConfigurationWalker.RecordedAt(PropertySelection, UserName) == [];
  }

  /** Lengths of the two halves of the fluent scenario's literal. */
  lemma LongTextHalvesLength()
    ensures Utf16Length(LongTextFront) == 26
    ensures Utf16Length(LongTextBack) == 31
  {
    var first, second := LongTextFront, LongTextBack;
    forall i | 0 <= i < |first|
      ensures first[i] as int <= 0xFFFF
    {
    }
    Utf16LengthInPlane(first);
    forall i | 0 <= i < |second|
      ensures second[i] as int <= 0xFFFF
    {
    }
    Utf16LengthInPlane(second);
  }

  /** The literal of the fluent scenario is 57 code units long. */
  lemma LongTextLength()
    ensures Utf16Length(LongText) == 57
  {
    LongTextHalvesLength();
    Utf16LengthAppend(LongTextFront, LongTextBack);
  }

  /** The statement records 20 for `User.Name`. */
  lemma HasMaxLength20Records20(c: Compilation)
    ensures FluentConfigurationWalker.Recorded(c, UserName, HasMaxLength20, FluentConfigurationWalker.OtherParent) == [20]
  {
    var other := FluentConfigurationWalker.OtherParent;
    EqualsIgnoreCaseIsEquivalence("HasMaxLength", "HasMaxLength", "HasMaxLength");
    assert FluentConfigurationWalker.ChainSelects(HasMaxLength20.expression, UserName);
    assert FluentConfigurationWalker.RecordedAt(HasMaxLength20, UserName) == [20];
    PropertySelectionRecordsNothing(c);
    assert FluentConfigurationWalker.Recorded(c, UserName, HasMaxLength20.expression, other) == [];
    assert FluentConfigurationWalker.RecordedEach(c, UserName, HasMaxLength20.arguments, other, HasMaxLength20) == [];
  }

  /** A method named `Test` is never entered. */
  lemma TestMethodSkipped(c: Compilation, t: PropertySymbol, parent: FluentConfigurationWalker.Parent)
    ensures FluentConfigurationWalker.Recorded(c, t, MethodDeclaration("Test", [UserAssignmentSyntax]), parent) == []
  {
  }

  /** The `DbContext` subclass's `OnModelCreating` records 20. */
  lemma DbContextRecords20()
    ensures FluentConfigurationWalker.Recorded(FluentCompilation, UserName, DbContextDeclaration,
      FluentConfigurationWalker.OtherParent) == [20]
  {
    var other := FluentConfigurationWalker.OtherParent;
    var parent := FluentConfigurationWalker.ClassParent(Some(TestDbContextType));
    var onModelCreating := DbContextDeclaration.members[0];
    EqualsIgnoreCaseIsEquivalence("OnModelCreating", "OnModelCreating", "OnModelCreating");
    assert FluentConfigurationWalker.IsDbContextParent(FluentCompilation, parent);
    HasMaxLength20Records20(FluentCompilation);
    assert FluentConfigurationWalker.RecordedEach(FluentCompilation, UserName, onModelCreating.statements, other, onModelCreating) == [20];
    assert FluentConfigurationWalker.Recorded(FluentCompilation, UserName, onModelCreating, parent) == [20];
    assert FluentConfigurationWalker.RecordedEach(FluentCompilation, UserName, DbContextDeclaration.members,
      parent, DbContextDeclaration) == [20];
  }

  /** The test class records nothing. */
  lemma TestClassRecordsNothing(c: Compilation)
    ensures FluentConfigurationWalker.Recorded(c, UserName, TestClassDeclaration, FluentConfigurationWalker.OtherParent) == []
  {
    var parent := FluentConfigurationWalker.ClassParent(Some(TestClassType));
    TestMethodSkipped(c, UserName, parent);
    assert FluentConfigurationWalker.RecordedEach(c, UserName, TestClassDeclaration.members,
      parent, TestClassDeclaration) == [];
  }

  /** `Property(u => u.Name).HasMaxLength(20)` in `TestDbContext.OnModelCreating` gives
      the limit 20, and the 57-character literal assigned to `user.Name` one
      Error (57, 20, "Name"). */
  lemma FluentHasMaxLengthReportsError()
    ensures FluentApiHandler.FluentLength(FluentCompilation, UserName, FluentCompilation.syntaxTrees) == Some(20)
    ensures ExpectedDiagnostics(FluentCompilation,
      AssignmentExpression(SimpleAssignment, UserNameTarget, StringLiteral(LongText))) == [Error(57, 20, "Name")]
  {
    var other := FluentConfigurationWalker.OtherParent;
    var tree := FluentCompilation.syntaxTrees[0];
    var user := tree.children[0];
    DbContextRecords20();
    TestClassRecordsNothing(FluentCompilation);
    assert FluentConfigurationWalker.Recorded(FluentCompilation, UserName, user, other) == [];
    assert tree.children[..2][..1] == [user];
    assert FluentConfigurationWalker.RecordedEach(FluentCompilation, UserName, tree.children[..1], other, tree) == [];
    assert FluentConfigurationWalker.RecordedEach(FluentCompilation, UserName, tree.children[..2], other, tree) == [20];
    assert FluentConfigurationWalker.RecordedEach(FluentCompilation, UserName, tree.children, other, tree) == [20];
    assert FluentApiHandler.TreeRecords(FluentCompilation, UserName, tree) == [20];
    assert AttributeLength(Handlers, []) == None;
    LongTextLength();
  }

  /** A string property without any length configuration: no diagnostic. */
  lemma NoMaxLengthNoDiagnostic()
    ensures var c := Compilation([OtherSyntax([TestClassDeclaration])], map[]);
      ExpectedDiagnostics(c, AssignmentExpression(SimpleAssignment, UserNameTarget, StringLiteral("Test"))) == []
  {
    var c := Compilation([OtherSyntax([TestClassDeclaration])], map[]);
    var tree := c.syntaxTrees[0];
    TestClassRecordsNothing(c);
    assert FluentConfigurationWalker.RecordedEach(c, UserName, tree.children, FluentConfigurationWalker.OtherParent, tree) == [];
    assert FluentApiHandler.TreeRecords(c, UserName, tree) == [];
    assert AttributeLength(Handlers, []) == None;
  }
}
