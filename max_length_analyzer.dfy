/** The analyzer: resolves the maximum length of the assigned string property and
    classifies each `=` or `+=` assignment to it
    (src/EntityLengths.Analyzer/MaxLengthAnalyzer.cs). */
module MaxLengthAnalyzer {
  import opened Common
  import opened Symbols
  import opened AttributeHandlers
  import FluentApiHandler
  import MaxLengthAttributeHandler
  import StringLengthAttributeHandler
  import ColumnAttributeHandler

  /** `_handlers`, in the order they are tried. */
  const Handlers: seq<AttributeHandler> := [MaxLengthHandler, StringLengthHandler, ColumnHandler]

  /** The two reports: ML001 (Info) and ML002 (Error), with their message arguments. */
  datatype Diagnostic =
    | Info(propertyName: string, maxLength: Int32)
    | Error(length: nat, maxLength: Int32, propertyName: string)

  /** Handler `k` is the first in `handlers` that produces a length. */
  predicate IsFirstProducing(handlers: seq<AttributeHandler>, attributes: seq<AttributeData>, k: nat)
  {
    k < |handlers| && handlers[k].GetMaxLength(attributes).Some? &&
    forall j :: 0 <= j < k ==> handlers[j].GetMaxLength(attributes).None?
  }

  /** The handler scan: among the handlers that can handle the property, in order,
      the first length produced. Since a handler that cannot handle never produces
      a length, this is the first length produced by any handler. */
  function AttributeLength(handlers: seq<AttributeHandler>, attributes: seq<AttributeData>): (r: Option<Int32>)
    ensures r.None? <==> forall j :: 0 <= j < |handlers| ==> handlers[j].GetMaxLength(attributes).None?
    ensures forall k: nat :: IsFirstProducing(handlers, attributes, k) ==> r == handlers[k].GetMaxLength(attributes)
  {
    if handlers == [] then None
    else if handlers[0].CanHandle(attributes) && handlers[0].GetMaxLength(attributes).Some? then
      handlers[0].GetMaxLength(attributes)
    else
      var r := AttributeLength(handlers[1..], attributes);
      assert forall j :: 1 <= j < |handlers| ==> handlers[j] == handlers[1..][j - 1];
      r
  }

  /** The limit: the attribute length, or else (`??=`) the fluent configuration's. */
  function ResolvedLength(c: Compilation, p: PropertySymbol): Option<Int32>
  {
    var fromAttributes := AttributeLength(Handlers, p.attributes);
    if fromAttributes.Some? then fromAttributes
    else FluentApiHandler.FluentLength(c, p, c.syntaxTrees)
  }

  /** The property assigned to: the left side is an identifier or a member access
      that resolves to a property of type `string`. */
  function TargetProperty(left: Syntax): (r: Option<PropertySymbol>)
    ensures r.Some? <==>
      (left.IdentifierName? || left.MemberAccessExpression?) &&
      left.symbol.Some? && left.symbol.value.Property? && left.symbol.value.property.isString
    ensures r.Some? ==> left.symbol == Some(Property(r.value))
  {
    match left
    case IdentifierName(_, Some(Property(p))) => if p.isString then Some(p) else None
    case MemberAccessExpression(_, _, Some(Property(p))) => if p.isString then Some(p) else None
    case _ => None
  }

  /** The right side is a string literal whose `Length`, in UTF-16 code units,
      exceeds the limit. */
  predicate IsTooLongLiteral(right: Syntax, limit: Int32)
  {
    right.LiteralExpression? && right.kind.StringLiteral? && Utf16Length(right.valueText) > limit as int
  }

  /** An Error for a string literal longer than the limit, with its length; an Info
      for anything else. */
  function Classify(name: string, limit: Int32, right: Syntax): (d: Diagnostic)
    ensures d.Error? <==> IsTooLongLiteral(right, limit)
    ensures d.Error? ==> d == Error(Utf16Length(right.valueText), limit, name) && d.length > d.maxLength as int
    ensures d.Info? ==> d == Info(name, limit)
  {
    if IsTooLongLiteral(right, limit)
    then Error(Utf16Length(right.valueText), limit, name)
    else Info(name, limit)
  }

  /** The diagnostics reported for one assignment. */
  function ExpectedDiagnostics(c: Compilation, assignment: AssignmentExpression): seq<Diagnostic>
  {
    match TargetProperty(assignment.left)
    case None => []
    case Some(p) =>
      match ResolvedLength(c, p)
      case None => []
      case Some(limit) => [Classify(p.name, limit, assignment.right)]
  }

  /** `AnalyzeAssignment`. */
  method AnalyzeAssignment(assignment: AssignmentExpression, compilation: Compilation)
    returns (diagnostics: seq<Diagnostic>)
    ensures diagnostics == ExpectedDiagnostics(compilation, assignment)
    ensures |diagnostics| <= 1
  {
    var left := assignment.left;
    if !(left.IdentifierName? || left.MemberAccessExpression?) {
      return [];
    }
    if !(left.symbol.Some? && left.symbol.value.Property?) {
      return [];
    }
    var propertySymbol := left.symbol.value.property;
    if !propertySymbol.isString {
      return [];
    }

    var attributes := propertySymbol.attributes;
    var maxLength: Option<Int32> := None;
    var i := 0;
    while i < |Handlers|
      invariant i <= |Handlers|
      invariant maxLength.None?
      invariant AttributeLength(Handlers, attributes) == AttributeLength(Handlers[i..], attributes)
    {
      assert Handlers[i..][1..] == Handlers[i + 1..];
      if Handlers[i].CanHandle(attributes) {
        maxLength := Handlers[i].GetMaxLength(attributes);
        if maxLength.Some? {
          break;
        }
      }
      i := i + 1;
    }
    assert maxLength == AttributeLength(Handlers, attributes);

    if maxLength.None? {
      maxLength := FluentApiHandler.GetMaxLengthFromFluentApi(compilation, propertySymbol);
    }

    if maxLength.None? {
      return [];
    }

    var right := assignment.right;
    if right.LiteralExpression? && right.kind.StringLiteral? {
      var stringValue := right.valueText;
      if Utf16Length(stringValue) > maxLength.value as int {
        return [Error(Utf16Length(stringValue), maxLength.value, propertySymbol.name)];
      }
    }
    return [Info(propertySymbol.name, maxLength.value)];
  }

  /** No diagnostic exactly when the left side is not a string property or no
      limit is found; otherwise exactly one. */
  lemma DiagnosticOutcomes(c: Compilation, assignment: AssignmentExpression)
    ensures ExpectedDiagnostics(c, assignment) == [] <==>
      TargetProperty(assignment.left).None? || ResolvedLength(c, TargetProperty(assignment.left).value).None?
    ensures |ExpectedDiagnostics(c, assignment)| <= 1
  {
  }

  /** The strategies' precedence: `MaxLength`, then `StringLength`, then `Column`,
      whatever order the attributes are written in. */
  lemma AttributePrecedence(attributes: seq<AttributeData>)
    ensures var maxLength := MaxLengthAttributeHandler.GetMaxLength(attributes);
      var stringLength := StringLengthAttributeHandler.GetMaxLength(attributes);
      AttributeLength(Handlers, attributes) ==
        if maxLength.Some? then maxLength
        else if stringLength.Some? then stringLength
        else ColumnAttributeHandler.GetMaxLength(attributes)
  {
    var rest := Handlers[1..];
    assert rest == [StringLengthHandler, ColumnHandler];
    assert rest[1..] == [ColumnHandler];
    assert AttributeLength(rest[1..], attributes) == ColumnHandler.GetMaxLength(attributes);
    assert AttributeLength(rest, attributes) ==
      if StringLengthHandler.GetMaxLength(attributes).Some? then StringLengthHandler.GetMaxLength(attributes)
      else ColumnHandler.GetMaxLength(attributes);
  }

  /** The fluent configuration is consulted only when no attribute gives a length,
      and then it alone decides. */
  lemma FluentOnlyWithoutAttributeLength(c: Compilation, p: PropertySymbol)
    ensures (exists j :: 0 <= j < |Handlers| && Handlers[j].GetMaxLength(p.attributes).Some?) ==>
      ResolvedLength(c, p) == AttributeLength(Handlers, p.attributes)
    ensures (forall j :: 0 <= j < |Handlers| ==> Handlers[j].GetMaxLength(p.attributes).None?) ==>
      ResolvedLength(c, p) == FluentApiHandler.FluentLength(c, p, c.syntaxTrees)
  {
  }

  /** `=` and `+=` are analysed alike; for `+=` only the literal's own length counts. */
  lemma CompoundAssignmentAnalysedAlike(c: Compilation, left: Syntax, right: Syntax)
    ensures ExpectedDiagnostics(c, AssignmentExpression(AddAssignment, left, right)) ==
            ExpectedDiagnostics(c, AssignmentExpression(SimpleAssignment, left, right))
  {
  }
}
