/** The per-token approval list and the one update `_update_approvals` makes to it: drop every
    entry of the spender, then (for approve, not for revoke) append a fresh entry. */
module ApprovalList {
  import opened Types
  import opened State
  import opened Seqs

  /** The list without any entry of `spender`, the others kept in order. */
  function WithoutSpender(approvals: seq<Approval>, spender: Addr): (r: seq<Approval>)
    ensures |r| <= |approvals|
  {
    if approvals == [] then []
    else
      var rest := WithoutSpender(approvals[1..], spender);
      if approvals[0].spender != spender then [approvals[0]] + rest else rest
  }

  /** Exactly the entries of other spenders survive. */
  lemma {:induction false} WithoutSpenderMembers(approvals: seq<Approval>, spender: Addr)
    ensures forall a :: a in WithoutSpender(approvals, spender) <==> a in approvals && a.spender != spender
  {
    if approvals != [] {
      WithoutSpenderMembers(approvals[1..], spender);
      assert forall a :: a in approvals <==> a == approvals[0] || a in approvals[1..];
    }
  }

  /** The survivors keep their relative order. */
  lemma {:induction false} WithoutSpenderSubsequence(approvals: seq<Approval>, spender: Addr)
    ensures IsSubsequence(WithoutSpender(approvals, spender), approvals)
  {
    if approvals != [] {
      WithoutSpenderSubsequence(approvals[1..], spender);
      var rest := WithoutSpender(approvals[1..], spender);
      if approvals[0].spender != spender {
        assert ([approvals[0]] + rest)[1..] == rest;
      } else if rest != [] {
        assert IsSubsequence(rest, approvals[1..]);
      }
    }
  }

  /** Dropping entries keeps a list unique by spender. */
  lemma {:induction false} WithoutSpenderUnique(approvals: seq<Approval>, spender: Addr)
    ensures UniqueSpenders(approvals) ==> UniqueSpenders(WithoutSpender(approvals, spender))
  {
    if approvals != [] && UniqueSpenders(approvals) {
      assert UniqueSpenders(approvals[1..]);
      WithoutSpenderUnique(approvals[1..], spender);
      var rest := WithoutSpender(approvals[1..], spender);
      if approvals[0].spender != spender {
        WithoutSpenderMembers(approvals[1..], spender);
        forall j | 0 <= j < |rest|
          ensures approvals[0].spender != rest[j].spender
        {
          assert rest[j] in rest;
          var i :| 0 <= i < |approvals[1..]| && approvals[1..][i] == rest[j];
          assert approvals[i + 1] == rest[j];
        }
      }
    }
  }

  /** A list with no entry of `spender` is left as it is. */
  lemma {:induction false} WithoutAbsentSpender(approvals: seq<Approval>, spender: Addr)
    requires forall i :: 0 <= i < |approvals| ==> approvals[i].spender != spender
    ensures WithoutSpender(approvals, spender) == approvals
  {
    if approvals != [] {
      WithoutAbsentSpender(approvals[1..], spender);
    }
  }

  /** Dropping a spender's entries distributes over concatenation. */
  lemma {:induction false} WithoutSpenderAppend(x: seq<Approval>, y: seq<Approval>, spender: Addr)
    ensures WithoutSpender(x + y, spender) == WithoutSpender(x, spender) + WithoutSpender(y, spender)
  {
    if x == [] {
      assert x + y == y;
    } else {
      assert (x + y)[0] == x[0] && (x + y)[1..] == x[1..] + y;
      WithoutSpenderAppend(x[1..], y, spender);
    }
  }

  /** The list `_update_approvals` saves for `spender`. */
  function Updated(approvals: seq<Approval>, spender: Addr, add: bool, expires: Expiration): (r: seq<Approval>)
    ensures UniqueSpenders(approvals) ==> UniqueSpenders(r)
    ensures forall a: Approval :: a.spender != spender ==> (a in r <==> a in approvals)
    ensures add ==> |r| > 0 && r[|r| - 1] == Approval(spender, expires)
    ensures add ==> forall i :: 0 <= i < |r| - 1 ==> r[i].spender != spender
    ensures !add ==> forall i :: 0 <= i < |r| ==> r[i].spender != spender
    ensures IsSubsequence(r[..|r| - if add then 1 else 0], approvals)
  {
    var kept := WithoutSpender(approvals, spender);
    WithoutSpenderMembers(approvals, spender);
    WithoutSpenderSubsequence(approvals, spender);
    WithoutSpenderUnique(approvals, spender);
    assert forall i :: 0 <= i < |kept| ==> kept[i] in kept;
    if add then
      var r := kept + [Approval(spender, expires)];
      assert r[..|kept|] == kept;
      r
    else
      assert kept[..|kept|] == kept;
      kept
  }

  /** The first approval of a token with no approvals is its only entry. */
  lemma ApproveFresh(spender: Addr, expires: Expiration)
    ensures Updated([], spender, true, expires) == [Approval(spender, expires)]
  {
    var r := Updated([], spender, true, expires);
    assert r[..|r| - 1] == [];
  }

  /** Approving a spender again replaces its entry: the list is what a single approval with the
      new expiration gives, so re-approving never grows it. */
  lemma ReapproveReplaces(approvals: seq<Approval>, spender: Addr, first: Expiration, second: Expiration)
    ensures Updated(Updated(approvals, spender, true, first), spender, true, second)
         == Updated(approvals, spender, true, second)
    ensures |Updated(Updated(approvals, spender, true, first), spender, true, second)|
         == |Updated(approvals, spender, true, first)|
  {
    var kept := WithoutSpender(approvals, spender);
    WithoutSpenderAppend(kept, [Approval(spender, first)], spender);
    WithoutSpenderMembers(approvals, spender);
    assert forall i :: 0 <= i < |kept| ==> kept[i] in kept;
    WithoutAbsentSpender(kept, spender);
  }

  /** Revoking right after approving leaves the list as revoking alone would. */
  lemma RevokeUndoesApprove(approvals: seq<Approval>, spender: Addr, expires: Expiration, unused: Expiration)
    ensures Updated(Updated(approvals, spender, true, expires), spender, false, unused)
         == Updated(approvals, spender, false, unused)
  {
    var kept := WithoutSpender(approvals, spender);
    WithoutSpenderAppend(kept, [Approval(spender, expires)], spender);
    WithoutSpenderMembers(approvals, spender);
    assert forall i :: 0 <= i < |kept| ==> kept[i] in kept;
    WithoutAbsentSpender(kept, spender);
  }

  /** Revoking a spender that has no entry changes nothing. */
  lemma RevokeAbsentIsNoop(approvals: seq<Approval>, spender: Addr, unused: Expiration)
    requires forall i :: 0 <= i < |approvals| ==> approvals[i].spender != spender
    ensures Updated(approvals, spender, false, unused) == approvals
  {
    WithoutAbsentSpender(approvals, spender);
  }
}
