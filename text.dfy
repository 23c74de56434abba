/** The JavaScript string operations the upload component relies on. */
module Text {

  /** `s.endsWith(suffix)`: the last |suffix| characters of s are suffix, compared case-sensitively. */
  predicate EndsWith(s: string, suffix: string)
    ensures EndsWith(s, suffix) ==> |suffix| <= |s| && s == s[..|s| - |suffix|] + suffix
  {
    |suffix| <= |s| && s[|s| - |suffix|..] == suffix
  }

  /** A name ends in suffix exactly when it is some stem followed by suffix. */
  lemma EndsWithStem(s: string, suffix: string)
    ensures EndsWith(s, suffix) <==> exists stem :: s == stem + suffix
  {
    forall stem | s == stem + suffix ensures EndsWith(s, suffix) {
      EndsWithAppended(stem, suffix);
    }
  }

  /** sub occurs in s starting at index i. */
  predicate OccursAt(s: string, sub: string, i: int) {
    0 <= i && i + |sub| <= |s| && s[i..i + |sub|] == sub
  }

  /** Every occurrence in s[1..] is an occurrence in s one position later, and back. */
  lemma OccursShift(s: string, sub: string)
    requires |s| > 0
    ensures forall j :: 0 <= j ==> (OccursAt(s[1..], sub, j) <==> OccursAt(s, sub, j + 1))
  {
  }

  /** `s.includes(sub)`: sub occurs somewhere in s. */
  function Includes(s: string, sub: string): (r: bool)
    ensures r <==> exists i :: OccursAt(s, sub, i)
    decreases |s|
  {
    if |s| < |sub| then
      false
    else if s[..|sub|] == sub then
      assert OccursAt(s, sub, 0);
      true
    else
      OccursShift(s, sub);
      assert !OccursAt(s, sub, 0);
      assert forall i :: OccursAt(s, sub, i) ==> OccursAt(s[1..], sub, i - 1);
      Includes(s[1..], sub)
  }

  /** A name placed in front of or behind a string does not hide what it contains. */
  lemma {:induction false} IncludesEmbedded(before: string, sub: string, after: string)
    ensures Includes(before + sub + after, sub)
  {
    var s := before + sub + after;
    assert s[|before|..|before| + |sub|] == sub;
    assert OccursAt(s, sub, |before|);
  }

  /** `names.filter((name) => name.endsWith(suffix))`: the names ending in suffix, in their original order. */
  function WithSuffix(names: seq<string>, suffix: string): (r: seq<string>)
    ensures forall n :: n in r <==> n in names && EndsWith(n, suffix)
    ensures |r| <= |names|
    decreases |names|
  {
    if names == [] then
      []
    else
      assert forall n :: n in names <==> n == names[0] || n in names[1..];
      (if EndsWith(names[0], suffix) then [names[0]] else []) + WithSuffix(names[1..], suffix)
  }

  /** Filtering distributes over concatenation, so the filter keeps the original relative order. */
  lemma {:induction false} WithSuffixAppend(a: seq<string>, b: seq<string>, suffix: string)
    ensures WithSuffix(a + b, suffix) == WithSuffix(a, suffix) + WithSuffix(b, suffix)
    decreases |a|
  {
    if a == [] {
      assert a + b == b;
    } else {
      assert (a + b)[1..] == a[1..] + b;
      WithSuffixAppend(a[1..], b, suffix);
    }
  }

  /** A name cannot end in two different suffixes of the same length. */
  lemma SuffixesExclusive(name: string, a: string, b: string)
    requires |a| == |b| && a != b
    ensures !(EndsWith(name, a) && EndsWith(name, b))
  {
  }

  /** Appending a suffix makes the name end in it. */
  lemma EndsWithAppended(stem: string, suffix: string)
    ensures EndsWith(stem + suffix, suffix)
  {
  }
}
