/** Exactly when a lease is granted, held and renewed, told from the statements that succeeded before. */
module LeaseHistory {
  import opened Prelude
  import opened Leases

  /** Statement i succeeded in recording the lease of the kind for the token until that time. */
  predicate Records(now: int, steps: seq<Step>, i: nat, kind: Kind, token: Token, until: int) {
    && i < |steps| && At(now, steps, i).Succeeds(steps[i])
    && ((steps[i].Acquire? && steps[i].kind == kind && steps[i].token == token
         && until == steps[i].reading + 30 * 60)
        || (steps[i].Renew? && steps[i].kind == kind && steps[i].token == token && until == steps[i].stamp + 30 * 60))
  }

  /** Statement j takes the lease over, gives it another end, or gives it back. */
  predicate Replaces(now: int, steps: seq<Step>, j: nat, kind: Kind, token: Token) {
    && j < |steps|
    && match steps[j]
       case Acquire(k, _, _) => k == kind && At(now, steps, j).Succeeds(steps[j])
       case Renew(k, t, _, _) => k == kind && t == token && At(now, steps, j).Succeeds(steps[j])
       case Release(k, t) => k == kind && t == token
       case _ => false
  }

  /** Before statement n the lease of the kind is on record for the token until that time. */
  ghost predicate OnRecord(now: int, steps: seq<Step>, n: nat, kind: Kind, token: Token, until: int) {
    exists i: nat :: i < n && Records(now, steps, i, kind, token, until)
                     && forall j: nat :: i < j < n ==> !Replaces(now, steps, j, kind, token)
  }

  lemma OnRecordStep(now: int, steps: seq<Step>, n: nat, kind: Kind, token: Token, until: int)
    requires n < |steps|
    ensures OnRecord(now, steps, n + 1, kind, token, until)
            <==> Records(now, steps, n, kind, token, until)
                 || (OnRecord(now, steps, n, kind, token, until) && !Replaces(now, steps, n, kind, token))
  {
    if OnRecord(now, steps, n + 1, kind, token, until) {
      var i: nat :| i < n + 1 && Records(now, steps, i, kind, token, until)
                    && forall j: nat :: i < j < n + 1 ==> !Replaces(now, steps, j, kind, token);
      assert i < n ==> OnRecord(now, steps, n, kind, token, until);
    }
    if OnRecord(now, steps, n, kind, token, until) && !Replaces(now, steps, n, kind, token) {
      var i: nat :| i < n && Records(now, steps, i, kind, token, until)
                    && forall j: nat :: i < j < n ==> !Replaces(now, steps, j, kind, token);
      assert forall j: nat :: i < j < n + 1 ==> !Replaces(now, steps, j, kind, token);
    }
  }

  lemma RowStep(now: int, steps: seq<Step>, n: nat, kind: Kind, token: Token, until: int)
    requires n < |steps|
    ensures At(now, steps, n + 1).Of(kind) == Lease(Some(token), Some(until))
            <==> Records(now, steps, n, kind, token, until)
                 || (At(now, steps, n).Of(kind) == Lease(Some(token), Some(until))
                     && !Replaces(now, steps, n, kind, token))
  {
    assert At(now, steps, n + 1) == At(now, steps, n).After(steps[n]);
  }

  lemma {:induction false} RowIsOnRecord(now: int, steps: seq<Step>, n: nat, kind: Kind, token: Token, until: int)
    requires n <= |steps|
    ensures At(now, steps, n).Of(kind) == Lease(Some(token), Some(until))
            <==> OnRecord(now, steps, n, kind, token, until)
  {
    if n > 0 {
      RowIsOnRecord(now, steps, n - 1, kind, token, until);
      OnRecordStep(now, steps, n - 1, kind, token, until);
      RowStep(now, steps, n - 1, kind, token, until);
    }
  }

  /** In every run, a worker passes the ownership check, and renews, exactly if its lease is on record with an end
      after the time it reads. */
  lemma HeldIff(now: int, steps: seq<Step>, n: nat, kind: Kind, token: Token, reading: int, stamp: int)
    requires n <= |steps|
    ensures At(now, steps, n).Succeeds(AssertOwned(kind, token, reading))
            <==> exists until :: OnRecord(now, steps, n, kind, token, until) && reading < until
    ensures At(now, steps, n).Succeeds(Renew(kind, token, reading, stamp))
            <==> exists until :: OnRecord(now, steps, n, kind, token, until) && reading < until
  {
    var l := At(now, steps, n).Of(kind);
    if l.token == Some(token) && l.expires.Some? {
      RowIsOnRecord(now, steps, n, kind, token, l.expires.value);
    }
    if until :| OnRecord(now, steps, n, kind, token, until) && reading < until {
      RowIsOnRecord(now, steps, n, kind, token, until);
    }
  }

  /** And a lease is granted exactly if every lease of the kind on record ends by the time the caller reads. */
  lemma GrantedIff(now: int, steps: seq<Step>, n: nat, kind: Kind, token: Token, reading: int)
    requires n <= |steps|
    ensures At(now, steps, n).Succeeds(Acquire(kind, token, reading))
            <==> forall other, until :: OnRecord(now, steps, n, kind, other, until) ==> until <= reading
  {
    var l := At(now, steps, n).Of(kind);
    if l.token.Some? && l.expires.Some? {
      RowIsOnRecord(now, steps, n, kind, l.token.value, l.expires.value);
    }
    forall other, until | OnRecord(now, steps, n, kind, other, until)
      ensures l == Lease(Some(other), Some(until))
    {
      RowIsOnRecord(now, steps, n, kind, other, until);
    }
  }

  /** Leases of one kind are on record one at a time. */
  lemma OneOnRecord(now: int, steps: seq<Step>, n: nat, kind: Kind, token: Token, until: int, other: Token, end: int)
    requires n <= |steps|
    requires OnRecord(now, steps, n, kind, token, until) && OnRecord(now, steps, n, kind, other, end)
    ensures token == other && until == end
  {
    RowIsOnRecord(now, steps, n, kind, token, until);
    RowIsOnRecord(now, steps, n, kind, other, end);
  }
}
