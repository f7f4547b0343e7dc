/** Small shared vocabulary: optional values (C#'s `int?` and nullable references),
    the 32-bit `int` of C#, and .NET's ordinal ignore-case string comparison. */
module Common {

  /** A nullable value: `None` stands for C#'s `null`. */
  datatype Option<+T> = None | Some(value: T)

  /** C#'s `int`. */
  newtype Int32 = x: int | -0x8000_0000 <= x <= 0x7FFF_FFFF

  /** `int.MaxValue`. */
  const Int32Max: int := 0x7FFF_FFFF

  /** Upper-case mapping of one character, restricted to the ASCII letters. */
  function ToUpperAscii(c: char): (u: char)
    ensures 'a' <= c <= 'z' ==> 'A' <= u <= 'Z'
    ensures !('a' <= c <= 'z') ==> u == c
  {
    if 'a' <= c <= 'z' then (c as int - 'a' as int + 'A' as int) as char else c
  }

  /** `string.Equals(a, b, StringComparison.OrdinalIgnoreCase)` on ASCII text:
      same length and the same characters once upper-cased. */
  predicate EqualsIgnoreCase(a: string, b: string)
  {
    |a| == |b| && forall i :: 0 <= i < |a| ==> ToUpperAscii(a[i]) == ToUpperAscii(b[i])
  }

  /** Ignoring case is an equivalence: it is implied by equality, symmetric and transitive. */
  lemma EqualsIgnoreCaseIsEquivalence(a: string, b: string, c: string)
    ensures EqualsIgnoreCase(a, a)
    ensures EqualsIgnoreCase(a, b) ==> EqualsIgnoreCase(b, a)
    ensures EqualsIgnoreCase(a, b) && EqualsIgnoreCase(b, c) ==> EqualsIgnoreCase(a, c)
  {
  }

  /** Slices of texts equal up to case are equal up to case. */
  lemma EqualsIgnoreCaseSlice(a: string, b: string, i: nat, j: nat)
    requires EqualsIgnoreCase(a, b) && i <= j <= |a|
    ensures EqualsIgnoreCase(a[i..j], b[i..j])
  {
    forall k | 0 <= k < j - i
      ensures ToUpperAscii(a[i..j][k]) == ToUpperAscii(b[i..j][k])
    {
      assert a[i..j][k] == a[i + k] && b[i..j][k] == b[i + k];
    }
  }

  /** `string.Length`: the number of UTF-16 code units, two for a character
      outside the Basic Multilingual Plane (a surrogate pair), one otherwise. */
  function Utf16Length(s: string): (n: nat)
    ensures |s| <= n <= 2 * |s|
  {
    if s == [] then 0
    else Utf16Length(s[..|s| - 1]) + (if s[|s| - 1] as int > 0xFFFF then 2 else 1)
  }

  /** Text inside the Basic Multilingual Plane has one code unit per character. */
  lemma {:induction false} Utf16LengthInPlane(s: string)
    requires forall i :: 0 <= i < |s| ==> s[i] as int <= 0xFFFF
    ensures Utf16Length(s) == |s|
  {
    if s != [] {
      var front := s[..|s| - 1];
      assert forall i :: 0 <= i < |front| ==> front[i] == s[i];
      Utf16LengthInPlane(front);
    }
  }

  /** Each character outside the plane counts twice. */
  lemma {:induction false} Utf16LengthOutsidePlane(s: string)
    requires forall i :: 0 <= i < |s| ==> s[i] as int > 0xFFFF
    ensures Utf16Length(s) == 2 * |s|
  {
    if s != [] {
      var front := s[..|s| - 1];
      assert forall i :: 0 <= i < |front| ==> front[i] == s[i];
      Utf16LengthOutsidePlane(front);
    }
  }

  /** The code units of a concatenation are those of its parts. */
  lemma {:induction false} Utf16LengthAppend(a: string, b: string)
    ensures Utf16Length(a + b) == Utf16Length(a) + Utf16Length(b)
    decreases |b|
  {
    if b != [] {
      var front := b[..|b| - 1];
      var ab := a + b;
      assert ab[..|ab| - 1] == a + front;
      assert ab[|ab| - 1] == b[|b| - 1];
      Utf16LengthAppend(a, front);
    } else {
      assert a + b == a;
    }
  }
}
