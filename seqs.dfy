/** Order-keeping selections from sequences, the shape of every `iter().filter(..)` in the
    queries. */
module Seqs {
  /** `a` is `b` with some entries left out and the rest kept in their order. */
  predicate IsSubsequence<X(==)>(a: seq<X>, b: seq<X>)
    decreases |b|
  {
    if a == [] then true
    else if b == [] then false
    else (a[0] == b[0] && IsSubsequence(a[1..], b[1..])) || IsSubsequence(a, b[1..])
  }

  /** The entries satisfying `keep`, in their original order. */
  function Filter<X>(s: seq<X>, keep: X -> bool): (r: seq<X>)
    ensures |r| <= |s|
  {
    if s == [] then []
    else
      var rest := Filter(s[1..], keep);
      if keep(s[0]) then [s[0]] + rest else rest
  }

  /** Exactly the entries satisfying `keep` survive. */
  lemma {:induction false} FilterMembers<X>(s: seq<X>, keep: X -> bool)
    ensures forall x :: x in Filter(s, keep) <==> x in s && keep(x)
  {
    if s != [] {
      FilterMembers(s[1..], keep);
      assert forall x :: x in s <==> x == s[0] || x in s[1..];
    }
  }

  /** The survivors keep their relative order. */
  lemma {:induction false} FilterSubsequence<X>(s: seq<X>, keep: X -> bool)
    ensures IsSubsequence(Filter(s, keep), s)
  {
    if s != [] {
      FilterSubsequence(s[1..], keep);
      var rest := Filter(s[1..], keep);
      if keep(s[0]) {
        assert ([s[0]] + rest)[1..] == rest;
      } else if rest != [] {
        assert IsSubsequence(rest, s[1..]);
      }
    }
  }

  /** A filter every entry passes is the identity. */
  lemma {:induction false} FilterKeepsAll<X>(s: seq<X>, keep: X -> bool)
    requires forall i :: 0 <= i < |s| ==> keep(s[i])
    ensures Filter(s, keep) == s
  {
    if s != [] {
      FilterKeepsAll(s[1..], keep);
    }
  }

  /** The first entry of a filter is the first entry of the input that passes. */
  lemma {:induction false} FilterHead<X>(s: seq<X>, keep: X -> bool)
    ensures Filter(s, keep) != [] <==> exists i :: 0 <= i < |s| && keep(s[i])
    ensures Filter(s, keep) != [] ==>
      exists i :: 0 <= i < |s| && keep(s[i]) && Filter(s, keep)[0] == s[i] && forall j :: 0 <= j < i ==> !keep(s[j])
  {
    if s != [] && !keep(s[0]) {
      FilterHead(s[1..], keep);
      if Filter(s, keep) != [] {
        var i :| 0 <= i < |s[1..]| && keep(s[1..][i]) && Filter(s[1..], keep)[0] == s[1..][i] && forall j :: 0 <= j < i ==> !keep(s[1..][j]);
        assert s[i + 1] == s[1..][i];
        assert forall j :: 0 <= j < i + 1 ==> !keep(s[j]) by {
          forall j | 0 <= j < i + 1
            ensures !keep(s[j])
          {
            if j > 0 {
              assert s[j] == s[1..][j - 1];
            }
          }
        }
      }
      if exists i :: 0 <= i < |s| && keep(s[i]) {
        var i :| 0 <= i < |s| && keep(s[i]);
        assert i > 0 && s[1..][i - 1] == s[i];
      }
    } else if s != [] {
      assert Filter(s, keep)[0] == s[0];
    }
  }
}
