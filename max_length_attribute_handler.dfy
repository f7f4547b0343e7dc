/** The strategy for `[MaxLength(n)]`
    (src/EntityLengths.Analyzer/AttributeHandlers/MaxLengthAttributeHandler.cs). */
module MaxLengthAttributeHandler {
  import opened Common
  import opened Symbols
  import opened AttributeLookup
  import Constants

  /** Some attribute's class is named `MaxLengthAttribute`, ignoring case. */
  predicate CanHandle(attributes: seq<AttributeData>)
  {
    FirstWithClassName(attributes, Constants.MaxLengthAttribute).Some?
  }

  lemma CanHandleIffMarkerPresent(attributes: seq<AttributeData>)
    ensures CanHandle(attributes) <==>
      exists i :: 0 <= i < |attributes| && HasClassName(attributes[i], Constants.MaxLengthAttribute)
  {
  }

  /** The first constructor argument of the first `MaxLengthAttribute`; null when
      there is none or it was used without arguments. */
  function GetMaxLength(attributes: seq<AttributeData>): (r: Option<Int32>)
    ensures r.Some? ==> CanHandle(attributes)
    ensures forall k: nat :: IsFirstWithClassName(attributes, k, Constants.MaxLengthAttribute) ==>
      r == (if |attributes[k].constructorArguments| > 0
            then Some(attributes[k].constructorArguments[0]) else None)
  {
    FirstConstructorArgument(attributes, Constants.MaxLengthAttribute)
  }
}
