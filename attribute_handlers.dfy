/** The common shape of the three attribute strategies
    (src/EntityLengths.Analyzer/AttributeHandlers/IAttributeHandler.cs). */
module AttributeHandlers {
  import opened Common
  import opened Symbols
  import MaxLengthAttributeHandler
  import StringLengthAttributeHandler
  import ColumnAttributeHandler

  datatype AttributeHandler = MaxLengthHandler | StringLengthHandler | ColumnHandler
  {
    /** Whether the property carries the attribute this strategy reads. */
    predicate CanHandle(attributes: seq<AttributeData>)
    {
      match this
      case MaxLengthHandler => MaxLengthAttributeHandler.CanHandle(attributes)
      case StringLengthHandler => StringLengthAttributeHandler.CanHandle(attributes)
      case ColumnHandler => ColumnAttributeHandler.CanHandle(attributes)
    }

    /** The length this strategy reads; a strategy that cannot handle the property
        never yields one. */
    function GetMaxLength(attributes: seq<AttributeData>): (r: Option<Int32>)
      ensures r.Some? ==> CanHandle(attributes)
    {
      match this
      case MaxLengthHandler => MaxLengthAttributeHandler.GetMaxLength(attributes)
      case StringLengthHandler => StringLengthAttributeHandler.GetMaxLength(attributes)
      case ColumnHandler => ColumnAttributeHandler.GetMaxLength(attributes)
    }
  }
}
