/** The search over all syntax trees of the compilation
    (src/EntityLengths.Analyzer/FluentConfiguration/FluentApiHandler.cs). */
module FluentApiHandler {
  import opened Common
  import opened Symbols
  import opened FluentConfigurationWalker

  /** The trees are walked from the root, which has no parent. */
  function TreeRecords(c: Compilation, t: PropertySymbol, tree: Syntax): seq<Int32>
  {
    Recorded(c, t, tree, OtherParent)
  }

  /** Tree `k` is the first tree that records a value. */
  predicate IsFirstRecordingTree(c: Compilation, t: PropertySymbol, trees: seq<Syntax>, k: nat)
  {
    k < |trees| && TreeRecords(c, t, trees[k]) != [] &&
    forall j :: 0 <= j < k ==> TreeRecords(c, t, trees[j]) == []
  }

  /** The length the fluent configuration gives: the last value recorded in the
      first tree that records any; null when no tree does. */
  function FluentLength(c: Compilation, t: PropertySymbol, trees: seq<Syntax>): (r: Option<Int32>)
    ensures r.None? <==> forall i :: 0 <= i < |trees| ==> TreeRecords(c, t, trees[i]) == []
    ensures forall k: nat :: IsFirstRecordingTree(c, t, trees, k) ==>
      r == Some(TreeRecords(c, t, trees[k])[|TreeRecords(c, t, trees[k])| - 1])
  {
    if trees == [] then None
    else
      var writes := TreeRecords(c, t, trees[0]);
      if writes != [] then Some(writes[|writes| - 1])
      else
        var r := FluentLength(c, t, trees[1..]);
        assert forall i :: 1 <= i < |trees| ==> trees[i] == trees[1..][i - 1];
        r
  }

  /** `GetMaxLengthFromFluentApi`: one walker visits the trees in order and the
      search stops after the first tree that leaves a value. */
  method GetMaxLengthFromFluentApi(compilation: Compilation, property: PropertySymbol) returns (r: Option<Int32>)
    ensures r == FluentLength(compilation, property, compilation.syntaxTrees)
  {
    var walker := new FluentConfigurationWalker(compilation, property);
    var trees := compilation.syntaxTrees;
    for i := 0 to |trees|
      invariant walker.compilation == compilation && walker.propertySymbol == property
      invariant walker.maxLength == None
      invariant FluentLength(compilation, property, trees) == FluentLength(compilation, property, trees[i..])
    {
      walker.Visit(trees[i], OtherParent);
      assert trees[i..][1..] == trees[i + 1..];
      if walker.maxLength.Some? {
        return walker.maxLength;
      }
    }
    return None;
  }
}
