/** Case-insensitive comparison of strings (`String.equalsIgnoreCase`), over the ASCII letters. */
module Text {

  /** The upper-case form of an ASCII letter; any other character is its own upper case. */
  function UpperChar(c: char): (u: char)
  {
    if 'a' <= c <= 'z' then (c as int - 32) as char else c
  }

  /** Every character of `s` in upper case. */
  function ToUpper(s: string): (u: string)
  {
    if s == [] then [] else [UpperChar(s[0])] + ToUpper(s[1..])
  }

  /** Same length, and the characters agree position by position once upper-cased. */
  predicate EqualsIgnoreCase(a: string, b: string)
  {
    |a| == |b| && forall i :: 0 <= i < |a| ==> UpperChar(a[i]) == UpperChar(b[i])
  }

  lemma {:induction false} ToUpperAt(s: string, i: nat)
    requires i < |s|
    ensures |ToUpper(s)| == |s| && ToUpper(s)[i] == UpperChar(s[i])
  {
    if i > 0 {
      ToUpperAt(s[1..], i - 1);
    } else if |s| > 1 {
      ToUpperAt(s[1..], 0);
    }
  }

  lemma {:induction false} ToUpperLength(s: string)
    ensures |ToUpper(s)| == |s|
  {
    if s != [] {
      ToUpperLength(s[1..]);
    }
  }

  /** Two strings are equal ignoring case exactly when their upper-case forms are equal. */
  lemma EqualsIgnoreCaseIsUpperEquality(a: string, b: string)
    ensures EqualsIgnoreCase(a, b) <==> ToUpper(a) == ToUpper(b)
  {
    ToUpperLength(a);
    ToUpperLength(b);
    forall i | 0 <= i < |a| && i < |b|
      ensures ToUpper(a)[i] == UpperChar(a[i]) && ToUpper(b)[i] == UpperChar(b[i])
    {
      ToUpperAt(a, i);
      ToUpperAt(b, i);
    }
    if ToUpper(a) == ToUpper(b) {
      assert forall i :: 0 <= i < |a| ==> UpperChar(a[i]) == ToUpper(a)[i] == ToUpper(b)[i] == UpperChar(b[i]);
    }
  }

  /** Ignoring case is an equivalence: reflexive, symmetric and transitive. */
  lemma EqualsIgnoreCaseIsEquivalence(a: string, b: string, c: string)
    ensures EqualsIgnoreCase(a, a)
    ensures EqualsIgnoreCase(a, b) ==> EqualsIgnoreCase(b, a)
    ensures EqualsIgnoreCase(a, b) && EqualsIgnoreCase(b, c) ==> EqualsIgnoreCase(a, c)
  {
    EqualsIgnoreCaseIsUpperEquality(a, a);
    EqualsIgnoreCaseIsUpperEquality(a, b);
    EqualsIgnoreCaseIsUpperEquality(b, a);
    EqualsIgnoreCaseIsUpperEquality(b, c);
    EqualsIgnoreCaseIsUpperEquality(a, c);
  }
}
