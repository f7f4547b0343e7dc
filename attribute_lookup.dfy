/** The LINQ queries the attribute handlers run over `GetAttributes()`:
    `Any` and `FirstOrDefault` with a case-insensitive class-name test, and
    the "first constructor argument of the first matching attribute" read
    shared by the MaxLength and StringLength handlers. */
module AttributeLookup {
  import opened Common
  import opened Symbols

  /** `string.Equals(attr.AttributeClass?.Name, name, OrdinalIgnoreCase)`:
      an attribute whose class did not bind never matches. */
  predicate HasClassName(a: AttributeData, name: string)
  {
    a.className.Some? && EqualsIgnoreCase(a.className.value, name)
  }

  /** `k` is the position of the first attribute whose class name is `name`. */
  predicate IsFirstWithClassName(attrs: seq<AttributeData>, k: nat, name: string)
  {
    k < |attrs| && HasClassName(attrs[k], name) &&
    forall j :: 0 <= j < k ==> !HasClassName(attrs[j], name)
  }

  /** `FirstOrDefault`: the position of the first attribute named `name`, if any. */
  function FirstWithClassName(attrs: seq<AttributeData>, name: string): (r: Option<nat>)
    ensures r.Some? ==> IsFirstWithClassName(attrs, r.value, name)
    ensures r.None? ==> forall j :: 0 <= j < |attrs| ==> !HasClassName(attrs[j], name)
  {
    if attrs == [] then None
    else if HasClassName(attrs[0], name) then Some(0)
    else match FirstWithClassName(attrs[1..], name)
      case None => None
      case Some(k) => Some(k + 1)
  }

  /** `Any`: some attribute is named `name`. */
  predicate AnyWithClassName(attrs: seq<AttributeData>, name: string)
  {
    exists i :: 0 <= i < |attrs| && HasClassName(attrs[i], name)
  }

  /** `(int?)attr?.ConstructorArguments[0].Value` for the first attribute named `name`:
      null when there is no such attribute or it has no constructor argument. */
  function FirstConstructorArgument(attrs: seq<AttributeData>, name: string): (r: Option<Int32>)
    ensures r.Some? ==> AnyWithClassName(attrs, name)
    ensures !AnyWithClassName(attrs, name) ==> r.None?
    ensures forall k: nat :: IsFirstWithClassName(attrs, k, name) ==>
      r == (if |attrs[k].constructorArguments| > 0 then Some(attrs[k].constructorArguments[0]) else None)
  {
    match FirstWithClassName(attrs, name)
    case None => None
    case Some(k) =>
      if |attrs[k].constructorArguments| > 0 then Some(attrs[k].constructorArguments[0]) else None
  }

  /** The first attribute named `name` does not move when an attribute with another
      name is inserted anywhere, since it is found by name and position only. */
  lemma {:induction false} FirstWithClassNameIgnoresOthers(attrs: seq<AttributeData>, i: nat, a: AttributeData, name: string)
    requires i <= |attrs|
    requires !HasClassName(a, name)
    ensures var r := FirstWithClassName(attrs[..i] + [a] + attrs[i..], name);
            var s := FirstWithClassName(attrs, name);
            (r.None? <==> s.None?) &&
            (r.Some? ==> (attrs[..i] + [a] + attrs[i..])[r.value] == attrs[s.value])
  {
    var ins := attrs[..i] + [a] + attrs[i..];
    if i == 0 {
      assert ins == [a] + attrs;
      assert ins[1..] == attrs;
    } else {
      assert ins[0] == attrs[0];
      if !HasClassName(attrs[0], name) {
        assert ins[1..] == attrs[1..][..i - 1] + [a] + attrs[1..][i - 1..];
        FirstWithClassNameIgnoresOthers(attrs[1..], i - 1, a, name);
      }
    }
  }

  /** An attribute with another class name, inserted anywhere, never changes what
      the constructor-argument read returns. */
  lemma OtherAttributesIrrelevant(attrs: seq<AttributeData>, i: nat, a: AttributeData, name: string)
    requires i <= |attrs|
    requires !HasClassName(a, name)
    ensures FirstConstructorArgument(attrs[..i] + [a] + attrs[i..], name) == FirstConstructorArgument(attrs, name)
  {
    FirstWithClassNameIgnoresOthers(attrs, i, a, name);
  }

  /** Only the class names take part in finding the first attribute with a name. */
  lemma {:induction false} FirstWithClassNameReadsNamesOnly(a1: seq<AttributeData>, a2: seq<AttributeData>, name: string)
    requires |a1| == |a2|
    requires forall i :: 0 <= i < |a1| ==> a1[i].className == a2[i].className
    ensures FirstWithClassName(a1, name) == FirstWithClassName(a2, name)
  {
    if a1 != [] {
      FirstWithClassNameReadsNamesOnly(a1[1..], a2[1..], name);
    }
  }
}
