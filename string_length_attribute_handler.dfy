/** The strategy for `[StringLength(n)]`
    (src/EntityLengths.Analyzer/AttributeHandlers/StringLengthAttributeHandler.cs). */
module StringLengthAttributeHandler {
  import opened Common
  import opened Symbols
  import opened AttributeLookup
  import Constants

  /** Some attribute's class is named `StringLengthAttribute`, ignoring case. */
  predicate CanHandle(attributes: seq<AttributeData>)
  {
    FirstWithClassName(attributes, Constants.StringLengthAttribute).Some?
  }

  lemma CanHandleIffMarkerPresent(attributes: seq<AttributeData>)
    ensures CanHandle(attributes) <==>
      exists i :: 0 <= i < |attributes| && HasClassName(attributes[i], Constants.StringLengthAttribute)
  {
  }

  /** The first constructor argument of the first `StringLengthAttribute`; null when
      there is none or it was used without arguments. */
  function GetMaxLength(attributes: seq<AttributeData>): (r: Option<Int32>)
    ensures r.Some? ==> CanHandle(attributes)
    ensures forall k: nat :: IsFirstWithClassName(attributes, k, Constants.StringLengthAttribute) ==>
      r == (if |attributes[k].constructorArguments| > 0
            then Some(attributes[k].constructorArguments[0]) else None)
  {
    FirstConstructorArgument(attributes, Constants.StringLengthAttribute)
  }
}
