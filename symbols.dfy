/** What the analyzer reads from the compiler front end, as plain values: type and
    property symbols, attribute data, the syntax nodes it inspects, and the compilation.
    Symbol resolution is an annotation carried by the nodes that can be resolved
    (`GetSymbolInfo` on a name or member access, `GetDeclaredSymbol` on a class),
    and symbols are compared by value, which stands for identity. */
module Symbols {
  import opened Common

  /** A named type with its base type; `baseType == None` ends the chain
      (`ITypeSymbol.BaseType` returning null). The chain is finite by construction. */
  datatype TypeSymbol = TypeSymbol(id: nat, baseType: Option<TypeSymbol>)

  /** A named argument of an attribute usage; `value == None` is a null constant. */
  datatype NamedArgument = NamedArgument(key: string, value: Option<string>)

  /** One attribute usage on a symbol (`AttributeData`): the simple name of its class
      (`None` when the class did not bind), its positional constructor arguments
      (integers: the analyzer only ever reads them as `int`), and its named arguments. */
  datatype AttributeData = AttributeData(
    className: Option<string>,
    constructorArguments: seq<Int32>,
    namedArguments: seq<NamedArgument>)

  /** A property symbol: identity, name, whether its type is `System.String`,
      and its attributes in declaration order (`GetAttributes()`). */
  datatype PropertySymbol = PropertySymbol(
    id: nat,
    name: string,
    isString: bool,
    attributes: seq<AttributeData>)

  /** What an expression binds to: a property, or anything else (field, local, method, ...). */
  datatype Symbol = Property(property: PropertySymbol) | NonProperty

  /** Literal token kinds: a string literal, an `int`-typed numeric literal, or any other literal. */
  datatype LiteralKind = StringLiteral | IntLiteral(value: Int32) | OtherLiteral

  /** The syntax nodes the analyzer distinguishes, each with its child nodes in source order.
      `OtherSyntax` is every other node (compilation unit, namespace, statement, block, ...). */
  datatype Syntax =
    | ClassDeclaration(declaredSymbol: Option<TypeSymbol>, members: seq<Syntax>)
    | MethodDeclaration(identifier: string, statements: seq<Syntax>)
    | InvocationExpression(expression: Syntax, arguments: seq<Syntax>)
    | MemberAccessExpression(expression: Syntax, name: string, symbol: Option<Symbol>)
    | IdentifierName(identifier: string, symbol: Option<Symbol>)
    | LambdaExpression(body: Syntax)
    | LiteralExpression(kind: LiteralKind, valueText: string)
    | OtherSyntax(children: seq<Syntax>)

  /** The two assignment kinds the analyzer is registered for: `=` and `+=`. */
  datatype AssignmentKind = SimpleAssignment | AddAssignment

  datatype AssignmentExpression = AssignmentExpression(kind: AssignmentKind, left: Syntax, right: Syntax)

  /** The compilation: its syntax trees in enumeration order and the types it can
      find by metadata name. */
  datatype Compilation = Compilation(syntaxTrees: seq<Syntax>, types: map<string, TypeSymbol>)
  {
    /** `Compilation.GetTypeByMetadataName`: null when the name is unknown. */
    function GetTypeByMetadataName(metadataName: string): (t: Option<TypeSymbol>)
      ensures t.Some? <==> metadataName in types
      ensures t.Some? ==> t.value == types[metadataName]
    {
      if metadataName in types then Some(types[metadataName]) else None
    }
  }
}
