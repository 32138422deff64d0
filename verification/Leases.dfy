/** Pair leases: one conditional UPDATE per operation, and what they fence over every run. */
module Leases {
  import opened Prelude

  datatype Kind = Operation | Automatic

  datatype Token = Token(id: nat)

  /** The two lock columns of one kind on a pair row. Times are in seconds. */
  datatype Lease = Lease(token: Option<Token>, expires: Option<int>)

  const UNLOCKED := Lease(None, None)

  const PAIR_LEASE_DURATION: int := 30 * 60

  /** The row can be taken by a caller whose clock reads `now`. */
  predicate Available(l: Lease, now: int) {
    l.token.None? || l.expires.None? || l.expires.value <= now
  }

  predicate Owned(l: Lease, token: Token, now: int) {
    l.token == Some(token) && l.expires.Some? && l.expires.value > now
  }

  function Acquired(l: Lease, token: Token, now: int, duration: int): Lease {
    if Available(l, now) then Lease(Some(token), Some(now + duration)) else l
  }

  /** renew() reads the clock twice: once for the condition, once for the new expiry. */
  function Renewed(l: Lease, token: Token, checked: int, stamped: int, duration: int): Lease {
    if Owned(l, token, checked) then l.(expires := Some(stamped + duration)) else l
  }

  function Released(l: Lease, token: Token): Lease {
    if l.token == Some(token) then UNLOCKED else l
  }

  /** The lock columns of one sync_pairs row. */
  class PairRow {
    var operation: Lease
    var automatic: Lease

    constructor ()
      ensures operation == UNLOCKED && automatic == UNLOCKED
    {
      operation, automatic := UNLOCKED, UNLOCKED;
    }

    function Of(kind: Kind): Lease
      reads this
    {
      if kind.Operation? then operation else automatic
    }

    method Store(kind: Kind, l: Lease)
      modifies this
      ensures Of(kind) == l && forall other :: other != kind ==> Of(other) == old(Of(other))
    {
      if kind.Operation? { operation := l; } else { automatic := l; }
    }

    method AcquirePairLease(kind: Kind, token: Token, now: int, duration: int) returns (granted: bool)
      modifies this
      ensures granted <==> Available(old(Of(kind)), now)
      ensures var l := old(Of(kind)); granted <==> l.token == None || l.expires == None || l.expires.value <= now
      ensures granted ==> Of(kind) == Lease(Some(token), Some(now + duration))
      ensures !granted ==> Of(kind) == old(Of(kind))
      ensures forall other :: other != kind ==> Of(other) == old(Of(other))
    {
      var l := Of(kind);
      granted := l.token.None? || l.expires.None? || l.expires.value <= now;
      if granted {
        Store(kind, Lease(Some(token), Some(now + duration)));
      }
    }

    method Renew(kind: Kind, token: Token, checked: int, stamped: int, duration: int) returns (ok: bool)
      modifies this
      ensures ok <==> Owned(old(Of(kind)), token, checked)
      ensures Of(kind) == Renewed(old(Of(kind)), token, checked, stamped, duration)
      ensures var l := old(Of(kind)); ok <==> l.token == Some(token) && l.expires.Some? && checked < l.expires.value
      ensures Of(kind) == if ok then Lease(Some(token), Some(stamped + duration)) else old(Of(kind))
      ensures forall other :: other != kind ==> Of(other) == old(Of(other))
    {
      var l := Of(kind);
      ok := l.token == Some(token) && l.expires.Some? && l.expires.value > checked;
      if ok {
        Store(kind, l.(expires := Some(stamped + duration)));
      }
    }

    method Release(kind: Kind, token: Token)
      modifies this
      ensures Of(kind) == Released(old(Of(kind)), token)
      ensures Of(kind) == if old(Of(kind)).token == Some(token) then Lease(None, None) else old(Of(kind))
      ensures forall other :: other != kind ==> Of(other) == old(Of(other))
    {
      if Of(kind).token == Some(token) {
        Store(kind, UNLOCKED);
      }
    }

    method AssertOwned(kind: Kind, token: Token, now: int) returns (owned: bool)
      ensures owned <==> Owned(Of(kind), token, now)
      ensures var l := Of(kind); owned <==> l.token == Some(token) && l.expires.Some? && now < l.expires.value
    {
      var l := Of(kind);
      owned := l.token == Some(token) && l.expires.Some? && l.expires.value > now;
    }
  }

  // ---- Every run of every worker -----------------------------------------------------------

  /** One committed statement of some worker, or time passing. A reading may lag true time. */
  datatype Step =
    | Tick(elapsed: nat)
    | Acquire(kind: Kind, token: Token, reading: int)
    | Renew(kind: Kind, token: Token, reading: int, stamp: int)
    | AssertOwned(kind: Kind, token: Token, reading: int)
    | Release(kind: Kind, token: Token)

  datatype Grant = Grant(kind: Kind, token: Token)

  datatype World = World(now: int, operation: Lease, automatic: Lease, grants: seq<Grant>) {
    function Of(kind: Kind): Lease {
      if kind.Operation? then operation else automatic
    }

    function With(kind: Kind, l: Lease): World {
      if kind.Operation? then this.(operation := l) else this.(automatic := l)
    }

    /** Clock readings never lead true time, and a new token was never handed out before. */
    predicate Allows(step: Step) {
      match step
      case Tick(_) => true
      case Acquire(_, token, reading) => reading <= now && forall g :: g in grants ==> g.token != token
      case Renew(_, _, reading, stamp) => reading <= now && stamp <= now
      case AssertOwned(_, _, reading) => reading <= now
      case Release(_, _) => true
    }

    /** The step succeeds: the lease is granted, renewed or confirmed. */
    predicate Succeeds(step: Step) {
      match step
      case Acquire(kind, _, reading) => Available(Of(kind), reading)
      case Renew(kind, token, reading, _) => Owned(Of(kind), token, reading)
      case AssertOwned(kind, token, reading) => Owned(Of(kind), token, reading)
      case _ => true
    }

    function After(step: Step): World {
      match step
      case Tick(d) => this.(now := now + d)
      case Acquire(kind, token, reading) =>
        var w := With(kind, Acquired(Of(kind), token, reading, PAIR_LEASE_DURATION));
        if Succeeds(step) then w.(grants := grants + [Grant(kind, token)]) else w
      case Renew(kind, token, reading, stamp) =>
        With(kind, Renewed(Of(kind), token, reading, stamp, PAIR_LEASE_DURATION))
      case AssertOwned(_, _, _) => this
      case Release(kind, token) => With(kind, Released(Of(kind), token))
    }
  }

  function Start(now: int): World {
    World(now, UNLOCKED, UNLOCKED, [])
  }

  /** The world after the first n steps. */
  function At(now: int, steps: seq<Step>, n: nat): World
    requires n <= |steps|
  {
    if n == 0 then Start(now) else At(now, steps, n - 1).After(steps[n - 1])
  }

  ghost predicate Run(now: int, steps: seq<Step>) {
    forall n: nat :: n < |steps| ==> At(now, steps, n).Allows(steps[n])
  }

  /** Tokens are never reused, and the row of a kind never names a lease that a later one superseded. */
  ghost predicate Consistent(w: World) {
    && (forall i, j :: 0 <= i < j < |w.grants| ==> w.grants[i].token != w.grants[j].token)
    && (forall i, j :: 0 <= i < j < |w.grants| ==> Superseded(w, w.grants[i], w.grants[j]))
    && (forall kind :: HolderGranted(w, kind))
  }

  predicate Superseded(w: World, earlier: Grant, later: Grant) {
    earlier.kind == later.kind ==> w.Of(earlier.kind).token != Some(earlier.token)
  }

  ghost predicate HolderGranted(w: World, kind: Kind) {
    w.Of(kind).token.Some? ==> Grant(kind, w.Of(kind).token.value) in w.grants
  }

  lemma HolderStep(w: World, step: Step, kind: Kind)
    requires HolderGranted(w, kind)
    ensures HolderGranted(w.After(step), kind) && Extends(w, w.After(step))
  {
    if step.Acquire? && w.Succeeds(step) && step.kind == kind {
      assert w.After(step).grants[|w.grants|] == Grant(kind, step.token);
    }
  }

  /** A step other than a successful acquire at most empties a row. */
  lemma OnlyAcquireGrants(w: World, step: Step, kind: Kind)
    requires !(step.Acquire? && w.Succeeds(step))
    ensures w.After(step).grants == w.grants
    ensures w.After(step).Of(kind).token.None? || w.After(step).Of(kind).token == w.Of(kind).token
  {
  }

  lemma GrantStep(w: World, step: Step)
    requires Consistent(w) && w.Allows(step) && step.Acquire? && w.Succeeds(step)
    ensures Consistent(w.After(step))
  {
    var v := w.After(step);
    assert v.grants == w.grants + [Grant(step.kind, step.token)];
    forall i, j | 0 <= i < j < |v.grants|
      ensures v.grants[i].token != v.grants[j].token && Superseded(v, v.grants[i], v.grants[j])
    {
      assert v.grants[i] == w.grants[i] && w.grants[i] in w.grants;
      assert j < |w.grants| ==> Superseded(w, w.grants[i], w.grants[j]);
    }
    forall kind ensures HolderGranted(v, kind) {
      assert HolderGranted(w, kind);
      HolderStep(w, step, kind);
    }
  }

  lemma ConsistentStep(w: World, step: Step)
    requires Consistent(w) && w.Allows(step)
    ensures Consistent(w.After(step)) && Extends(w, w.After(step))
  {
    var v := w.After(step);
    assert HolderGranted(w, Operation);
    HolderStep(w, step, Operation);
    if step.Acquire? && w.Succeeds(step) {
      GrantStep(w, step);
    } else {
      forall kind ensures HolderGranted(v, kind) {
        assert HolderGranted(w, kind);
        HolderStep(w, step, kind);
      }
      forall i, j | 0 <= i < j < |v.grants| ensures Superseded(v, v.grants[i], v.grants[j]) {
        OnlyAcquireGrants(w, step, v.grants[i].kind);
        assert Superseded(w, w.grants[i], w.grants[j]);
      }
      OnlyAcquireGrants(w, step, Operation);
    }
  }

  lemma {:induction false} RunConsistent(now: int, steps: seq<Step>, n: nat)
    requires Run(now, steps) && n <= |steps|
    ensures Consistent(At(now, steps, n))
  {
    if n > 0 {
      RunConsistent(now, steps, n - 1);
      ConsistentStep(At(now, steps, n - 1), steps[n - 1]);
    }
  }

  predicate Extends(w: World, v: World) {
    w.grants <= v.grants
  }

  lemma ExtendsTransitive(u: World, v: World, w: World)
    requires Extends(u, v) && Extends(v, w)
    ensures Extends(u, w)
  {
  }

  lemma {:induction false} GrantsGrow(now: int, steps: seq<Step>, m: nat, n: nat, w: World)
    requires Run(now, steps) && m <= n <= |steps| && w == At(now, steps, m)
    ensures Extends(w, At(now, steps, n))
    decreases n - m
  {
    if m == n {
      assert Extends(w, w);
    } else {
      GrantsGrow(now, steps, m, n - 1, w);
      GrowOnce(now, steps, n, w);
    }
  }

  lemma GrowOnce(now: int, steps: seq<Step>, n: nat, w: World)
    requires Run(now, steps) && 0 < n <= |steps| && Extends(w, At(now, steps, n - 1))
    ensures Extends(w, At(now, steps, n))
  {
    OneGrant(now, steps, n - 1);
    ExtendsTransitive(w, At(now, steps, n - 1), At(now, steps, n));
  }

  lemma OneGrant(now: int, steps: seq<Step>, n: nat)
    requires Run(now, steps) && n < |steps|
    ensures Extends(At(now, steps, n), At(now, steps, n + 1))
  {
    RunConsistent(now, steps, n);
    ConsistentStep(At(now, steps, n), steps[n]);
  }

  /** Once a later lease of the kind has been granted, the earlier one never again renews, passes
      assert_owned, or clears the row, in any continuation of the run. */
  lemma SupersededForever(now: int, steps: seq<Step>, m: nat, n: nat, i: nat, j: nat, kind: Kind, reading: int,
                          stamp: int)
    requires Run(now, steps) && m <= n <= |steps|
    requires i < j < |At(now, steps, m).grants|
    requires At(now, steps, m).grants[i].kind == kind && At(now, steps, m).grants[j].kind == kind
    ensures var w := At(now, steps, n);
            var old_ := At(now, steps, m).grants[i].token;
            && !w.Succeeds(Renew(kind, old_, reading, stamp))
            && !w.Succeeds(AssertOwned(kind, old_, reading))
            && w.After(Renew(kind, old_, reading, stamp)) == w
            && w.After(Release(kind, old_)) == w
  {
    GrantsGrow(now, steps, m, n, At(now, steps, m));
    RunConsistent(now, steps, n);
    var w := At(now, steps, n);
    assert Superseded(w, w.grants[i], w.grants[j]);
  }

  /** While a lease is recorded and not released, nobody else is granted one before its recorded expiry. */
  lemma NoGrantBeforeExpiry(now: int, steps: seq<Step>, n: nat, kind: Kind)
    requires Run(now, steps) && n < |steps|
    requires steps[n].Acquire? && steps[n].kind == kind && At(now, steps, n).Succeeds(steps[n])
    requires At(now, steps, n).Of(kind).token.Some?
    ensures At(now, steps, n).Of(kind).expires.Some?
    ensures At(now, steps, n).Of(kind).expires.value <= At(now, steps, n).now
  {
    ExpiryRecorded(now, steps, n, kind);
  }

  lemma {:induction false} ExpiryRecorded(now: int, steps: seq<Step>, n: nat, kind: Kind)
    requires n <= |steps|
    ensures At(now, steps, n).Of(kind).token.Some? <==> At(now, steps, n).Of(kind).expires.Some?
  {
    if n > 0 {
      ExpiryRecorded(now, steps, n - 1, kind);
    }
  }

  // ---- The two kinds are independent --------------------------------------------------------

  /** The step touches rows of this kind, or only moves time. */
  predicate Concerns(kind: Kind, step: Step) {
    step.Tick? || step.kind == kind
  }

  function OnlyKind(kind: Kind, steps: seq<Step>): seq<Step> {
    if steps == [] then []
    else OnlyKind(kind, steps[..|steps| - 1]) + if Concerns(kind, steps[|steps| - 1]) then [steps[|steps| - 1]] else []
  }

  lemma StepIsLocal(w: World, v: World, kind: Kind, step: Step)
    requires w.Of(kind) == v.Of(kind) && w.now == v.now
    ensures Concerns(kind, step) ==>
              w.After(step).Of(kind) == v.After(step).Of(kind) && w.After(step).now == v.After(step).now
    ensures !Concerns(kind, step) ==> v.After(step).Of(kind) == w.Of(kind) && v.After(step).now == w.now
  {
  }

  /** Dropping every statement of the other kind from a run changes nothing for this kind. */
  lemma {:induction false} KindsAreIndependent(now: int, steps: seq<Step>, kind: Kind)
    ensures var mine := OnlyKind(kind, steps);
            && At(now, mine, |mine|).Of(kind) == At(now, steps, |steps|).Of(kind)
            && At(now, mine, |mine|).now == At(now, steps, |steps|).now
  {
    if steps != [] {
      var front, last := steps[..|steps| - 1], steps[|steps| - 1];
      KindsAreIndependent(now, front, kind);
      assert steps == front + [last];
      AtPrefix(now, front, [last], |front|);
      assert At(now, steps, |steps|) == At(now, front, |front|).After(last);
      var mine := OnlyKind(kind, front);
      StepIsLocal(At(now, mine, |mine|), At(now, front, |front|), kind, last);
      if Concerns(kind, last) {
        AtPrefix(now, mine, [last], |mine|);
        assert OnlyKind(kind, steps) == mine + [last];
        assert At(now, mine + [last], |mine| + 1) == At(now, mine, |mine|).After(last);
      } else {
        assert OnlyKind(kind, steps) == mine;
      }
    }
  }

  lemma {:induction false} AtPrefix(now: int, xs: seq<Step>, ys: seq<Step>, n: nat)
    requires n <= |xs|
    ensures At(now, xs + ys, n) == At(now, xs, n)
  {
    if n > 0 {
      AtPrefix(now, xs, ys, n - 1);
    }
  }
}
