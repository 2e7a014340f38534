/** Facts about sequences used by the bootstrap model: append-only growth and first occurrences. */
module Sequences {

  /** `b` was obtained from `a` by appending only. */
  ghost predicate Prefix<T>(a: seq<T>, b: seq<T>) {
    |a| <= |b| && b[..|a|] == a
  }

  lemma AppendAssociative<T>(a: seq<T>, b: seq<T>, c: seq<T>)
    ensures (a + b) + c == a + (b + c)
  {
  }

  lemma PrefixTransitive<T>(a: seq<T>, b: seq<T>, c: seq<T>)
    requires Prefix(a, b) && Prefix(b, c)
    ensures Prefix(a, c)
  {
  }

  ghost predicate Distinct<T>(s: seq<T>) {
    forall i, j :: 0 <= i < j < |s| ==> s[i] != s[j]
  }

  /** Dropping the head of a sequence without repetitions leaves one without repetitions,
      and the head is not among the rest. */
  lemma DistinctTail<T>(s: seq<T>)
    requires Distinct(s) && s != []
    ensures Distinct(s[1..]) && s[0] !in s[1..]
    ensures forall x :: x in s[1..] ==> x in s
  {
  }

  /** A sequence whose first `|pre| + 1` elements are `pre + [x]` splits at `|pre|` into
      `pre` and `[x]` followed by the rest. */
  lemma SplitAfter<T>(s: seq<T>, pre: seq<T>, x: T)
    requires |pre| < |s| && s[..|pre| + 1] == pre + [x]
    ensures s[..|pre|] == pre && s[|pre|..] == [x] + s[|pre| + 1..]
  {
  }

  /** Appends, in order, every element of `cs` not already present: the keys an
      insertion-ordered map has after assigning the keys `cs` one by one. */
  function AddNew<T(==)>(ks: seq<T>, cs: seq<T>): seq<T>
    decreases |cs|
  {
    if cs == [] then ks
    else AddNew(if cs[0] in ks then ks else ks + [cs[0]], cs[1..])
  }

  /** The distinct elements of `cs`, each at the position of its first occurrence. */
  function FirstOccurrences<T(==)>(cs: seq<T>): seq<T> {
    AddNew([], cs)
  }

  lemma {:induction false} AddNewProperties<T>(ks: seq<T>, cs: seq<T>)
    ensures Prefix(ks, AddNew(ks, cs))
    ensures forall x :: x in AddNew(ks, cs) <==> x in ks || x in cs
    ensures Distinct(ks) ==> Distinct(AddNew(ks, cs))
    decreases |cs|
  {
    if cs != [] {
      var ks' := if cs[0] in ks then ks else ks + [cs[0]];
      AddNewProperties(ks', cs[1..]);
      assert forall x :: x in cs <==> x == cs[0] || x in cs[1..] by {
        assert cs == [cs[0]] + cs[1..];
      }
      assert ks'[..|ks|] == ks;
      assert AddNew(ks, cs)[..|ks|] == AddNew(ks, cs)[..|ks'|][..|ks|];
    }
  }

  /** Without repetitions nothing is dropped: the result is the plain concatenation. */
  lemma {:induction false} AddNewOfDistinct<T>(ks: seq<T>, cs: seq<T>)
    requires Distinct(ks + cs)
    ensures AddNew(ks, cs) == ks + cs
    decreases |cs|
  {
    if cs != [] {
      assert (ks + cs)[|ks|] == cs[0];
      assert forall i :: 0 <= i < |ks| ==> (ks + cs)[i] == ks[i];
      assert cs[0] !in ks;
      assert ks + cs == (ks + [cs[0]]) + cs[1..];
      AddNewOfDistinct(ks + [cs[0]], cs[1..]);
    }
  }

  lemma FirstOccurrencesOfDistinct<T>(cs: seq<T>)
    requires Distinct(cs)
    ensures FirstOccurrences(cs) == cs
  {
    assert [] + cs == cs;
    AddNewOfDistinct([], cs);
  }
}
