/** The syntax walker that finds `HasMaxLength(n)` calls for one property inside
    `OnModelCreating` of `DbContext` subclasses
    (src/EntityLengths.Analyzer/FluentConfiguration/FluentConfigurationWalker.cs). */
module FluentConfigurationWalker {
  import opened Common
  import opened Symbols
  import Constants

  /** The chain `t, t.BaseType, t.BaseType.BaseType, …`, ending at a type without base. */
  function BaseChain(t: Option<TypeSymbol>): (chain: seq<TypeSymbol>)
    ensures t.None? <==> chain == []
    ensures t.Some? ==> chain[0] == t.value
    ensures forall i :: 0 <= i < |chain| - 1 ==> chain[i].baseType == Some(chain[i + 1])
    ensures chain != [] ==> chain[|chain| - 1].baseType.None?
  {
    match t
    case None => []
    case Some(s) => [s] + BaseChain(s.baseType)
  }

  /** `InheritsFrom`: the base type is met when walking up from `typeSymbol`; the type
      itself counts. */
  method InheritsFrom(typeSymbol: Option<TypeSymbol>, baseType: TypeSymbol) returns (r: bool)
    ensures r <==> baseType in BaseChain(typeSymbol)
  {
    var t := typeSymbol;
    while t.Some?
      invariant baseType in BaseChain(typeSymbol) <==> baseType in BaseChain(t)
      decreases t
    {
      if t.value == baseType {
        return true;
      }
      t := t.value.baseType;
    }
    return false;
  }

  /** Inheritance is transitive. */
  lemma {:induction false} InheritanceIsTransitive(a: TypeSymbol, b: TypeSymbol, c: TypeSymbol)
    requires b in BaseChain(Some(a))
    requires c in BaseChain(Some(b))
    ensures c in BaseChain(Some(a))
    decreases a
  {
    if a != b {
      var up := a.baseType.value;
      InheritanceIsTransitive(up, b, c);
    }
  }

  /** The parent of a method declaration, as far as the walker looks at it. */
  datatype Parent = ClassParent(declaredSymbol: Option<TypeSymbol>) | OtherParent

  /** The method's parent is a class whose symbol inherits from `DbContext`, and
      the compilation knows `DbContext`. */
  predicate IsDbContextParent(c: Compilation, parent: Parent)
  {
    match parent
    case OtherParent => false
    case ClassParent(symbol) =>
      symbol.Some? &&
      c.GetTypeByMetadataName(Constants.EfDbContextNamespace).Some? &&
      c.GetTypeByMetadataName(Constants.EfDbContextNamespace).value in BaseChain(symbol)
  }

  /** A call whose callee is a member access named exactly `Property`. */
  predicate IsPropertyCall(e: Syntax)
  {
    e.InvocationExpression? && e.expression.MemberAccessExpression? &&
    e.expression.name == Constants.Property
  }

  /** What a `Property(...)` call says about the target: a lambda whose body is a
      member access resolving to it, or a literal whose text is its name. */
  predicate SelectsTarget(call: Syntax, t: PropertySymbol)
    requires call.InvocationExpression?
  {
    |call.arguments| > 0 &&
    match call.arguments[0]
    case LambdaExpression(MemberAccessExpression(_, _, symbol)) => symbol == Some(Property(t))
    case LiteralExpression(_, text) => text == t.name
    case _ => false
  }

  /** Walking back from `current` through member-access receivers, the first
      `Property(...)` call met selects the target. */
  predicate ChainSelects(current: Syntax, t: PropertySymbol)
    decreases current
  {
    match current
    case MemberAccessExpression(receiver, _, _) =>
      if IsPropertyCall(receiver) then SelectsTarget(receiver, t)
      else ChainSelects(receiver, t)
    case _ => false
  }

  /** The callee of the invocation is a member access named `HasMaxLength`, ignoring case. */
  predicate NamesHasMaxLength(node: Syntax)
    requires node.InvocationExpression?
  {
    node.expression.MemberAccessExpression? &&
    EqualsIgnoreCase(node.expression.name, Constants.HasMaxLengthMethod)
  }

  /** The value of the first argument when it is an `int` literal. */
  function IntLiteralArgument(node: Syntax): Option<Int32>
    requires node.InvocationExpression?
  {
    if |node.arguments| > 0 && node.arguments[0].LiteralExpression? &&
      node.arguments[0].kind.IntLiteral?
    then Some(node.arguments[0].kind.value)
    else None
  }

  /** What visiting the invocation itself writes to `MaxLength`. */
  function RecordedAt(node: Syntax, t: PropertySymbol): seq<Int32>
    requires node.InvocationExpression?
  {
    if NamesHasMaxLength(node) && ChainSelects(node.expression, t) && IntLiteralArgument(node).Some?
    then [IntLiteralArgument(node).value]
    else []
  }

  /** The values the walker writes to `MaxLength`, in order, while visiting `node`
      whose parent is `parent`. */
  function Recorded(c: Compilation, t: PropertySymbol, node: Syntax, parent: Parent): seq<Int32>
    decreases node, 2, 0
  {
    match node
    case ClassDeclaration(symbol, members) => RecordedEach(c, t, members, ClassParent(symbol), node)
    case MethodDeclaration(identifier, statements) =>
      if EqualsIgnoreCase(identifier, Constants.OnModelCreatingMethod) && IsDbContextParent(c, parent)
      then RecordedEach(c, t, statements, OtherParent, node)
      else []
    case InvocationExpression(expression, arguments) =>
      RecordedAt(node, t) + Recorded(c, t, expression, OtherParent) +
      RecordedEach(c, t, arguments, OtherParent, node)
    case MemberAccessExpression(expression, _, _) => Recorded(c, t, expression, OtherParent)
    case IdentifierName(_, _) => []
    case LambdaExpression(body) => Recorded(c, t, body, OtherParent)
    case LiteralExpression(_, _) => []
    case OtherSyntax(children) => RecordedEach(c, t, children, OtherParent, node)
  }

  /** The values written while visiting `nodes` in order, all children of `owner`. */
  function RecordedEach(c: Compilation, t: PropertySymbol, nodes: seq<Syntax>, parent: Parent,
                        ghost owner: Syntax): seq<Int32>
    requires forall i | 0 <= i < |nodes| :: owner decreases to nodes[i]
    decreases owner, 0, |nodes|
  {
    if nodes == [] then []
    else RecordedEach(c, t, nodes[..|nodes| - 1], parent, owner) + Recorded(c, t, nodes[|nodes| - 1], parent)
  }

  /** The value of a field after the given writes. */
  function LastWritten(initial: Option<Int32>, writes: seq<Int32>): Option<Int32>
  {
    if writes == [] then initial else Some(writes[|writes| - 1])
  }

  lemma LastWrittenAppend(initial: Option<Int32>, a: seq<Int32>, b: seq<Int32>)
    ensures LastWritten(LastWritten(initial, a), b) == LastWritten(initial, a + b)
  {
  }

  /** A method is entered only when it is named `OnModelCreating`, ignoring case,
      and its parent is a `DbContext` class; a compilation without `DbContext`
      has none. */
  lemma OnlyOnModelCreatingOfDbContext(c: Compilation, t: PropertySymbol, node: Syntax, parent: Parent)
    requires node.MethodDeclaration?
    ensures Recorded(c, t, node, parent) != [] ==>
      EqualsIgnoreCase(node.identifier, Constants.OnModelCreatingMethod) && IsDbContextParent(c, parent)
    ensures Constants.EfDbContextNamespace !in c.types ==> Recorded(c, t, node, parent) == []
  {
  }

  /** Within one walk the last statement that records a value decides `MaxLength`:
      a later matching `HasMaxLength` overwrites an earlier one. */
  lemma {:induction false} LastRecordingWins(c: Compilation, t: PropertySymbol, nodes: seq<Syntax>,
                                             parent: Parent, owner: Syntax, k: nat, initial: Option<Int32>)
    requires forall i | 0 <= i < |nodes| :: owner decreases to nodes[i]
    requires k < |nodes| && Recorded(c, t, nodes[k], parent) != []
    requires forall j :: k < j < |nodes| ==> Recorded(c, t, nodes[j], parent) == []
    ensures LastWritten(initial, RecordedEach(c, t, nodes, parent, owner)) ==
            LastWritten(initial, Recorded(c, t, nodes[k], parent))
    decreases |nodes|
  {
    var n := |nodes| - 1;
    var front := nodes[..n];
    var last := Recorded(c, t, nodes[n], parent);
    assert RecordedEach(c, t, nodes, parent, owner) == RecordedEach(c, t, front, parent, owner) + last;
    if k < n {
      assert forall j :: k < j < |front| ==> front[j] == nodes[j];
      LastRecordingWins(c, t, front, parent, owner, k, initial);
      assert last == [];
      assert RecordedEach(c, t, front, parent, owner) + last == RecordedEach(c, t, front, parent, owner);
    }
  }

  /** `….Property(x => x.P).HasMaxLength(n)` selects `P` when the lambda's body
      resolves to it. */
  lemma LambdaSelectorRecognised(builder: Syntax, selector: Option<Symbol>, receiver: Syntax, name: string,
                                 rest: seq<Syntax>, called: string, callee: Option<Symbol>, t: PropertySymbol)
    ensures ChainSelects(MemberAccessExpression(
      InvocationExpression(MemberAccessExpression(builder, "Property", selector),
        [LambdaExpression(MemberAccessExpression(receiver, name, Some(Property(t))))] + rest),
      called, callee), t)
  {
  }

  /** `….Property("P").HasMaxLength(n)` selects `P` when the literal's text is its name. */
  lemma StringSelectorRecognised(builder: Syntax, selector: Option<Symbol>, kind: LiteralKind,
                                 rest: seq<Syntax>, called: string, callee: Option<Symbol>, t: PropertySymbol)
    ensures ChainSelects(MemberAccessExpression(
      InvocationExpression(MemberAccessExpression(builder, "Property", selector),
        [LiteralExpression(kind, t.name)] + rest),
      called, callee), t)
  {
  }

  /** Any other call met on the way back ends the walk unrecognised: in
      `.Property(..).IsRequired().HasMaxLength(n)` the `IsRequired()` call hides
      the selector, and so does a selector spelled `property`. */
  lemma OtherCallEndsWalk(receiver: Syntax, called: string, callee: Option<Symbol>, t: PropertySymbol)
    requires receiver.InvocationExpression? && !IsPropertyCall(receiver)
    ensures !ChainSelects(MemberAccessExpression(receiver, called, callee), t)
  {
  }

  lemma IsRequiredInBetweenNotRecognised(propertyCall: Syntax, required: Option<Symbol>, args: seq<Syntax>,
                                         called: string, callee: Option<Symbol>, t: PropertySymbol)
    ensures !ChainSelects(MemberAccessExpression(
      InvocationExpression(MemberAccessExpression(propertyCall, "IsRequired", required), args),
      called, callee), t)
  {
    OtherCallEndsWalk(InvocationExpression(MemberAccessExpression(propertyCall, "IsRequired", required), args),
      called, callee, t);
  }

  lemma LowerCaseSelectorNotRecognised(builder: Syntax, selector: Option<Symbol>, args: seq<Syntax>,
                                       called: string, callee: Option<Symbol>, t: PropertySymbol)
    ensures !ChainSelects(MemberAccessExpression(
      InvocationExpression(MemberAccessExpression(builder, "property", selector), args),
      called, callee), t)
  {
    assert "property" != Constants.Property by {
      assert "property"[0] != Constants.Property[0];
    }
  }

  class FluentConfigurationWalker {
    const compilation: Compilation
    const propertySymbol: PropertySymbol
    /** `MaxLength`: the last length recorded, null before the first. */
    var maxLength: Option<Int32>

    constructor (compilation: Compilation, propertySymbol: PropertySymbol)
      ensures this.compilation == compilation && this.propertySymbol == propertySymbol
      ensures maxLength == None
    {
      this.compilation := compilation;
      this.propertySymbol := propertySymbol;
      maxLength := None;
    }

    /** Visits `node` and its descendants in source order. */
    method Visit(node: Syntax, parent: Parent)
      modifies this
      ensures maxLength == LastWritten(old(maxLength), Recorded(compilation, propertySymbol, node, parent))
      decreases node, 2, 0
    {
      match node
      case ClassDeclaration(symbol, members) =>
        VisitEach(members, ClassParent(symbol), node);
      case MethodDeclaration(_, _) =>
        VisitMethodDeclaration(node, parent);
      case InvocationExpression(_, _) =>
        VisitInvocationExpression(node);
      case MemberAccessExpression(expression, _, _) =>
        Visit(expression, OtherParent);
      case IdentifierName(_, _) =>
      case LambdaExpression(body) =>
        Visit(body, OtherParent);
      case LiteralExpression(_, _) =>
      case OtherSyntax(children) =>
        VisitEach(children, OtherParent, node);
    }

    method VisitEach(nodes: seq<Syntax>, parent: Parent, ghost owner: Syntax)
      requires forall i | 0 <= i < |nodes| :: owner decreases to nodes[i]
      modifies this
      ensures maxLength ==
        LastWritten(old(maxLength), RecordedEach(compilation, propertySymbol, nodes, parent, owner))
      decreases owner, 0, |nodes|
    {
      for i := 0 to |nodes|
        invariant maxLength ==
          LastWritten(old(maxLength), RecordedEach(compilation, propertySymbol, nodes[..i], parent, owner))
      {
        ghost var before := RecordedEach(compilation, propertySymbol, nodes[..i], parent, owner);
        Visit(nodes[i], parent);
        assert nodes[..i + 1][..i] == nodes[..i];
        LastWrittenAppend(old(maxLength), before, Recorded(compilation, propertySymbol, nodes[i], parent));
      }
      assert nodes[..|nodes|] == nodes;
    }

    /** Descends only into `OnModelCreating` (ignoring case) of a `DbContext` class. */
    method VisitMethodDeclaration(node: Syntax, parent: Parent)
      requires node.MethodDeclaration?
      modifies this
      ensures maxLength == LastWritten(old(maxLength), Recorded(compilation, propertySymbol, node, parent))
      decreases node, 1, 0
    {
      if !EqualsIgnoreCase(node.identifier, Constants.OnModelCreatingMethod) {
        return;
      }
      var isDbContext := IsDbContextMethod(parent);
      if !isDbContext {
        return;
      }
      VisitEach(node.statements, OtherParent, node);
    }

    /** Records the length of a `HasMaxLength(n)` call that configures the property,
        then visits the callee and the arguments. */
    method VisitInvocationExpression(node: Syntax)
      requires node.InvocationExpression?
      modifies this
      ensures maxLength == LastWritten(old(maxLength), Recorded(compilation, propertySymbol, node, OtherParent))
      decreases node, 1, 0
    {
      if node.expression.MemberAccessExpression? &&
        EqualsIgnoreCase(node.expression.name, Constants.HasMaxLengthMethod)
      {
        var configures := IsPropertyConfiguration(node, propertySymbol);
        if configures && |node.arguments| > 0 && node.arguments[0].LiteralExpression? &&
          node.arguments[0].kind.IntLiteral?
        {
          maxLength := Some(node.arguments[0].kind.value);
        }
      }
      ghost var here := maxLength;
      Visit(node.expression, OtherParent);
      ghost var afterCallee := maxLength;
      VisitEach(node.arguments, OtherParent, node);
      LastWrittenAppend(old(maxLength), RecordedAt(node, propertySymbol),
        Recorded(compilation, propertySymbol, node.expression, OtherParent));
      LastWrittenAppend(old(maxLength),
        RecordedAt(node, propertySymbol) + Recorded(compilation, propertySymbol, node.expression, OtherParent),
        RecordedEach(compilation, propertySymbol, node.arguments, OtherParent, node));
    }

    /** `IsDbContextMethod`. */
    method IsDbContextMethod(parent: Parent) returns (r: bool)
      ensures r == IsDbContextParent(compilation, parent)
    {
      if !parent.ClassParent? {
        return false;
      }
      var classSymbol := parent.declaredSymbol;
      if classSymbol.None? {
        return false;
      }
      var dbContextType := compilation.GetTypeByMetadataName(Constants.EfDbContextNamespace);
      if dbContextType.None? {
        return false;
      }
      r := InheritsFrom(classSymbol, dbContextType.value);
    }

    /** `IsPropertyConfiguration`: walks back from the callee of `hasMaxLength`
        through member-access receivers to the first `Property(...)` call. */
    method IsPropertyConfiguration(hasMaxLength: Syntax, targetProperty: PropertySymbol) returns (r: bool)
      requires hasMaxLength.InvocationExpression?
      ensures r == ChainSelects(hasMaxLength.expression, targetProperty)
    {
      var current := hasMaxLength.expression;
      while current.MemberAccessExpression?
        invariant ChainSelects(current, targetProperty) == ChainSelects(hasMaxLength.expression, targetProperty)
        decreases current
      {
        var invocation := current.expression;
        if IsPropertyCall(invocation) {
          var arguments := invocation.arguments;
          if |arguments| > 0 && arguments[0].LambdaExpression? &&
            arguments[0].body.MemberAccessExpression?
          {
            return arguments[0].body.symbol == Some(Property(targetProperty));
          }
          if |arguments| > 0 && arguments[0].LiteralExpression? {
            return arguments[0].valueText == targetProperty.name;
          }
        }
        current := invocation;
      }
      return false;
    }
  }
}
