/** Storage key order and the pagination shared by the listing queries: keys are visited in
    ascending byte-lexicographic order, the cursor `startAfter` is exclusive, and the page
    size is `min(limit.unwrap_or(10), 100)`. */
module KeyOrder {
  import opened Types
  import opened Seqs

  const DefaultLimit: nat := 10
  const MaxLimit: nat := 100

  /** The effective page size: the requested limit (10 when absent), capped at 100. */
  function EffectiveLimit(limit: Option<nat>): (n: nat)
    ensures n <= MaxLimit
    ensures limit.None? ==> n == DefaultLimit
    ensures limit.Some? ==> n <= limit.value && (limit.value <= MaxLimit ==> n == limit.value)
    ensures limit.Some? && MaxLimit <= limit.value ==> n == MaxLimit
  {
    var requested := limit.GetOr(DefaultLimit);
    if requested < MaxLimit then requested else MaxLimit
  }

  /** Lexicographic order on keys, the order of a range scan over the store. A character is
      a Unicode scalar value, whose order agrees with the order of its UTF-8 encoding. */
  predicate Less(a: string, b: string)
    decreases |a|
  {
    if |a| == 0 then |b| > 0
    else |b| > 0 && (a[0] < b[0] || (a[0] == b[0] && Less(a[1..], b[1..])))
  }

  lemma {:induction false} LessIrreflexive(a: string)
    ensures !Less(a, a)
    decreases |a|
  {
    if |a| > 0 {
      LessIrreflexive(a[1..]);
    }
  }

  lemma {:induction false} LessTransitive(a: string, b: string, c: string)
    requires Less(a, b) && Less(b, c)
    ensures Less(a, c)
    decreases |a|
  {
    if |a| > 0 && a[0] == b[0] && b[0] == c[0] {
      LessTransitive(a[1..], b[1..], c[1..]);
    }
  }

  lemma {:induction false} LessTotal(a: string, b: string)
    ensures a == b || Less(a, b) || Less(b, a)
    decreases |a|
  {
    if |a| > 0 && |b| > 0 && a[0] == b[0] {
      LessTotal(a[1..], b[1..]);
      if a[1..] == b[1..] {
        assert a == [a[0]] + a[1..] && b == [b[0]] + b[1..];
      }
    }
  }

  lemma LessAsymmetric(a: string, b: string)
    requires Less(a, b)
    ensures !Less(b, a)
  {
    if Less(b, a) {
      LessTransitive(a, b, a);
      LessIrreflexive(a);
    }
  }

  /** `m` is the least element of `s`. */
  predicate IsLeast(m: string, s: set<string>) {
    m in s && forall x :: x in s && x != m ==> Less(m, x)
  }

  lemma {:induction false} LeastExists(s: set<string>)
    requires s != {}
    ensures exists m :: IsLeast(m, s)
    decreases s
  {
    var x :| x in s;
    if s != {x} {
      LeastExists(s - {x});
      var m :| IsLeast(m, s - {x});
      LessTotal(x, m);
      if Less(x, m) {
        forall y | y in s && y != x
          ensures Less(x, y)
        {
          if y != m {
            LessTransitive(x, m, y);
          }
        }
        assert IsLeast(x, s);
      } else {
        assert IsLeast(m, s);
      }
    } else {
      assert IsLeast(x, s);
    }
  }

  lemma LeastUnique(s: set<string>)
    ensures forall a, b :: IsLeast(a, s) && IsLeast(b, s) ==> a == b
  {
    forall a, b | IsLeast(a, s) && IsLeast(b, s)
      ensures a == b
    {
      if a != b {
        LessAsymmetric(a, b);
      }
    }
  }

  /** The least key of a non-empty set. */
  function Least(s: set<string>): (m: string)
    requires s != {}
    ensures IsLeast(m, s)
  {
    LeastExists(s);
    LeastUnique(s);
    var m :| IsLeast(m, s); m
  }

  /** Keys in strictly ascending order (so without repetition). */
  predicate Ascending(keys: seq<string>) {
    forall i, j :: 0 <= i < j < |keys| ==> Less(keys[i], keys[j])
  }

  /** The keys of a set in the order a range scan visits them. */
  function SortedKeys(s: set<string>): (keys: seq<string>)
    ensures Ascending(keys)
    ensures forall k :: k in keys <==> k in s
    ensures |keys| == |s|
    decreases s
  {
    if s == {} then []
    else
      var m := Least(s);
      [m] + SortedKeys(s - {m})
  }

  /** `k` lies past the exclusive cursor (every key does when there is no cursor). */
  predicate IsAfter(k: string, startAfter: Option<string>) {
    startAfter.None? || Less(startAfter.value, k)
  }

  /** The keys strictly after the cursor, in their original order. */
  function After(keys: seq<string>, startAfter: Option<string>): (r: seq<string>)
    ensures forall k :: k in r <==> k in keys && IsAfter(k, startAfter)
    ensures |r| <= |keys|
    ensures Ascending(keys) ==> Ascending(r)
  {
    if keys == [] then []
    else
      var rest := After(keys[1..], startAfter);
      if IsAfter(keys[0], startAfter) then
        AscendingCons(keys, rest);
        [keys[0]] + rest
      else rest
  }

  /** Putting the head of an ascending list in front of any selection from its tail keeps
      the selection ascending. */
  lemma AscendingCons(keys: seq<string>, rest: seq<string>)
    requires keys != []
    requires forall k :: k in rest ==> k in keys[1..]
    ensures Ascending(keys) && Ascending(rest) ==> Ascending([keys[0]] + rest)
  {
    forall j | Ascending(keys) && 0 <= j < |rest|
      ensures Less(keys[0], rest[j])
    {
      assert rest[j] in rest;
      var i :| 0 <= i < |keys[1..]| && keys[1..][i] == rest[j];
      assert keys[i + 1] == rest[j];
    }
  }

  /** Dropping the head of an ascending list leaves an ascending list of the other keys. */
  lemma AscendingTail(keys: seq<string>)
    requires keys != [] && Ascending(keys)
    ensures Ascending(keys[1..])
    ensures forall k :: k in keys[1..] <==> k in keys && k != keys[0]
  {
    forall k | k in keys[1..]
      ensures k != keys[0]
    {
      var i :| 0 <= i < |keys[1..]| && keys[1..][i] == k;
      assert Less(keys[0], keys[i + 1]);
      LessIrreflexive(k);
    }
    assert forall k :: k in keys <==> k == keys[0] || k in keys[1..];
  }

  /** An ascending list is determined by its keys. */
  lemma {:induction false} AscendingUnique(a: seq<string>, b: seq<string>)
    requires Ascending(a) && Ascending(b)
    requires forall k :: k in a <==> k in b
    ensures a == b
    decreases |a|
  {
    assert b != [] ==> b[0] in b;
    if a != [] {
      assert a[0] in a && b != [];
      assert b[0] in b;
      var i :| 0 <= i < |a| && a[i] == b[0];
      var j :| 0 <= j < |b| && b[j] == a[0];
      if j > 0 {
        assert Less(b[0], b[j]);
        if i > 0 {
          LessAsymmetric(a[0], a[i]);
        } else {
          LessIrreflexive(a[0]);
        }
      }
      AscendingTail(a);
      AscendingTail(b);
      AscendingUnique(a[1..], b[1..]);
      assert a == [a[0]] + a[1..] && b == [b[0]] + b[1..];
    }
  }

  /** Selecting from an ascending list keeps it ascending. */
  lemma {:induction false} FilterAscending(keys: seq<string>, keep: string -> bool)
    ensures Ascending(keys) ==> Ascending(Filter(keys, keep))
  {
    if keys != [] && Ascending(keys) {
      FilterAscending(keys[1..], keep);
      FilterMembers(keys[1..], keep);
      AscendingCons(keys, Filter(keys[1..], keep));
    }
  }

  /** Every key after the `n`-th key of the matching keys lies beyond the first `n`. */
  lemma AfterLastInRest(keys: seq<string>, startAfter: Option<string>, n: nat)
    requires Ascending(keys)
    requires 0 < n <= |After(keys, startAfter)|
    ensures var matching := After(keys, startAfter);
      forall k :: k in After(keys, Some(matching[n - 1])) ==> k in matching[n..]
  {
    var matching := After(keys, startAfter);
    var last := matching[n - 1];
    forall k | k in After(keys, Some(last))
      ensures k in matching[n..]
    {
      assert last in matching;
      if startAfter.Some? {
        LessTransitive(startAfter.value, last, k);
      }
      var j :| 0 <= j < |matching| && matching[j] == k;
      if j < n - 1 {
        LessAsymmetric(matching[j], last);
      } else if j == n - 1 {
        LessIrreflexive(k);
      }
      assert matching[n..][j - n] == k;
    }
  }

  /** Every key beyond the first `n` matching keys lies after the `n`-th. */
  lemma RestAfterLast(keys: seq<string>, startAfter: Option<string>, n: nat)
    requires Ascending(keys)
    requires 0 < n <= |After(keys, startAfter)|
    ensures var matching := After(keys, startAfter);
      forall k :: k in matching[n..] ==> k in After(keys, Some(matching[n - 1]))
  {
    var matching := After(keys, startAfter);
    forall k | k in matching[n..]
      ensures k in After(keys, Some(matching[n - 1]))
    {
      var j :| 0 <= j < |matching[n..]| && matching[n..][j] == k;
      assert matching[n + j] == k;
    }
  }

  /** Resuming a listing with the last key of a full page as the new cursor yields exactly the
      keys that page left over: paging neither skips nor repeats a key. */
  lemma NextPageContinues(keys: seq<string>, startAfter: Option<string>, n: nat)
    requires Ascending(keys)
    requires 0 < n <= |After(keys, startAfter)|
    ensures var matching := After(keys, startAfter);
      After(keys, Some(Take(matching, n)[n - 1])) == matching[n..]
  {
    var matching := After(keys, startAfter);
    assert Take(matching, n)[n - 1] == matching[n - 1];
    assert Ascending(matching[n..]);
    AfterLastInRest(keys, startAfter, n);
    RestAfterLast(keys, startAfter, n);
    AscendingUnique(After(keys, Some(matching[n - 1])), matching[n..]);
  }

  /** The first `n` items (all of them when there are fewer). */
  function Take<X>(s: seq<X>, n: nat): (r: seq<X>)
    ensures |r| <= n && |r| <= |s|
    ensures |r| == n || r == s
    ensures r == s[..|r|]
  {
    if |s| <= n then s else s[..n]
  }

  /** A page cut from an ascending list is an ascending prefix of it, and whatever it leaves
      out lies after its last item on a full page: nothing is skipped. */
  lemma PageOfAscending(matching: seq<string>, n: nat)
    requires Ascending(matching)
    ensures var page := Take(matching, n);
      && Ascending(page)
      && forall k :: k in matching && k !in page ==> |page| == n && (n == 0 || Less(page[n - 1], k))
  {
    var page := Take(matching, n);
    forall k | k in matching && k !in page
      ensures |page| == n && (n == 0 || Less(page[n - 1], k))
    {
      var j :| 0 <= j < |matching| && matching[j] == k;
      assert page != matching;
      assert forall i :: 0 <= i < |page| ==> page[i] == matching[i];
      assert n <= j;
      if n > 0 {
        assert page[n - 1] == matching[n - 1];
      }
    }
  }
}
