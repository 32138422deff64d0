/** From one review to the next: a whole apply, the listing after it, the saved baseline, the next review. */
module SyncCycle {
  import opened Prelude
  import opened Playlists
  import opened Reconciliation
  import opened PlanCounts
  import opened ReconciliationTheorems
  import opened TrackIdentity
  import opened IdentityTheorems
  import opened Overlay
  import opened ApplyResult
  import LinkPasses
  import E = Executor

  // ---- What a returned apply has written -----------------------------------------------------------------

  /** Late searches find nothing: an addition has a persisted resolution or is skipped. */
  predicate NoLateFinds(actions: seq<Action>, res: Resolutions, env: E.Env) {
    forall i: nat :: i < |actions| && actions[i].kind.AddTrack? && i !in res ==> env.search(i) == E.Missing
  }

  predicate ToWrite(actions: seq<Action>, res: Resolutions, i: nat) {
    i < |actions| && (actions[i].kind.RemoveTrack? || i in res)
  }

  lemma {:induction false} SkippedByPreflight(actions: seq<Action>, res: Resolutions, env: E.Env, skipUnresolved: bool,
                                              n: nat, i: nat)
    requires n <= |actions| && i < n && NoLateFinds(actions, res, env)
    requires E.Prepare(actions, res, env, skipUnresolved, n).Ready?
    ensures i in E.Prepare(actions, res, env, skipUnresolved, n).skipped <==> !ToWrite(actions, res, i)
  {
    var before := E.Prepare(actions, res, env, skipUnresolved, n - 1);
    E.PreparedSplit(actions, res, env, skipUnresolved, n - 1);
    if i < n - 1 {
      SkippedByPreflight(actions, res, env, skipUnresolved, n - 1, i);
      assert i in before.skipped <==> i in before.skipped + [n - 1];
    } else {
      assert (before.skipped + [n - 1])[|before.skipped|] == n - 1;
    }
  }

  lemma {:induction false} SkippedAtAll(start: E.Progress, prepared: seq<E.Prepared>, failOnUnavailable: bool,
                                        env: E.Env, k: nat)
    requires k <= |prepared| && start.rejected == []
    ensures var x := E.Writes(start, prepared, failOnUnavailable, env, k); x.skipped == start.skipped + x.rejected
  {
    if k > 0 {
      SkippedAtAll(start, prepared, failOnUnavailable, env, k - 1);
      var p := E.Writes(start, prepared, failOnUnavailable, env, k - 1);
      if !p.raised {
        TurnSkips(p, prepared[k - 1], failOnUnavailable, env, start.skipped);
      }
    }
  }

  lemma TurnSkips(p: E.Progress, item: E.Prepared, failOnUnavailable: bool, env: E.Env, skipped: seq<nat>)
    requires p.skipped == skipped + p.rejected
    ensures var q := E.Turn(p, item, failOnUnavailable, env); q.skipped == skipped + q.rejected
  {
  }

  lemma TurnRefuses(p: E.Progress, item: E.Prepared, failOnUnavailable: bool, env: E.Env, i: nat)
    requires i in E.Turn(p, item, failOnUnavailable, env).rejected
    ensures i in p.rejected || (i == item.ordinal && item.action.kind.AddTrack?)
  {
  }

  /** Only additions are ever refused. */
  lemma {:induction false} RefusedAreAdds(start: E.Progress, prepared: seq<E.Prepared>, failOnUnavailable: bool,
                                          actions: seq<Action>, res: Resolutions, env: E.Env, k: nat, i: nat)
    requires k <= |prepared| && start.rejected == []
    requires forall j :: 0 <= j < |prepared| ==> E.OfPlan(prepared[j], actions, res, env)
    requires i in E.Writes(start, prepared, failOnUnavailable, env, k).rejected
    ensures i < |actions| && actions[i].kind.AddTrack?
  {
    if k > 0 {
      var p := E.Writes(start, prepared, failOnUnavailable, env, k - 1);
      if i in p.rejected {
        RefusedAreAdds(start, prepared, failOnUnavailable, actions, res, env, k - 1, i);
      } else {
        TurnRefuses(p, prepared[k - 1], failOnUnavailable, env, i);
      }
    }
  }

  /** The resolutions of the additions that were not refused. */
  function Without(res: Resolutions, refused: seq<nat>): Resolutions {
    map i | i in res && i !in refused :: res[i]
  }

  /** The ordinals below n that are written, in plan order. */
  function Written(actions: seq<Action>, res: Resolutions, n: nat): (r: seq<nat>)
    ensures E.Below(r, n)
  {
    if n == 0 then [] else Written(actions, res, n - 1) + if ToWrite(actions, res, n - 1) then [n - 1] else []
  }

  /** A list of ordinals in plan order that has just the written ones. */
  ghost predicate Covers(actions: seq<Action>, res: Resolutions, ordinals: seq<nat>, n: nat) {
    && E.Increasing(ordinals) && E.Below(ordinals, n)
    && forall i: nat :: i < n ==> (i in ordinals <==> ToWrite(actions, res, i))
  }

  lemma LastIs(ordinals: seq<nat>, m: nat)
    requires E.Increasing(ordinals) && E.Below(ordinals, m + 1) && m in ordinals
    ensures ordinals[|ordinals| - 1] == m
  {
    var i :| 0 <= i < |ordinals| && ordinals[i] == m;
    if i < |ordinals| - 1 {
      assert ordinals[i] < ordinals[|ordinals| - 1];
    }
  }

  lemma FrontHas(ordinals: seq<nat>, m: nat)
    requires E.Increasing(ordinals) && ordinals != [] && ordinals[|ordinals| - 1] == m
    ensures var front := ordinals[..|ordinals| - 1];
            E.Increasing(front) && E.Below(front, m) && forall i: nat :: i < m ==> (i in front <==> i in ordinals)
  {
    var front := ordinals[..|ordinals| - 1];
    assert ordinals == front + [m];
    forall i | 0 <= i < |front| ensures front[i] < m {
      assert ordinals[i] < ordinals[|ordinals| - 1];
    }
  }

  lemma StillBelow(ordinals: seq<nat>, m: nat)
    requires E.Below(ordinals, m + 1) && m !in ordinals
    ensures E.Below(ordinals, m)
  {
    forall i | 0 <= i < |ordinals| ensures ordinals[i] < m {
      assert ordinals[i] in ordinals;
    }
  }

  lemma CoversFront(actions: seq<Action>, res: Resolutions, ordinals: seq<nat>, n: nat)
    requires 0 < n && Covers(actions, res, ordinals, n) && ToWrite(actions, res, n - 1)
    ensures ordinals != [] && ordinals[|ordinals| - 1] == n - 1
    ensures Covers(actions, res, ordinals[..|ordinals| - 1], n - 1)
  {
    assert n - 1 in ordinals;
    LastIs(ordinals, n - 1);
    FrontHas(ordinals, n - 1);
  }

  lemma CoversLess(actions: seq<Action>, res: Resolutions, ordinals: seq<nat>, n: nat)
    requires 0 < n && Covers(actions, res, ordinals, n) && !ToWrite(actions, res, n - 1)
    ensures Covers(actions, res, ordinals, n - 1)
  {
    assert n - 1 !in ordinals;
    StillBelow(ordinals, n - 1);
  }

  /** There is only one such list. */
  lemma {:induction false} CoversOnce(actions: seq<Action>, res: Resolutions, ordinals: seq<nat>, n: nat)
    requires Covers(actions, res, ordinals, n)
    ensures ordinals == Written(actions, res, n)
  {
    if n == 0 {
      assert ordinals == [];
    } else if ToWrite(actions, res, n - 1) {
      CoversFront(actions, res, ordinals, n);
      CoversOnce(actions, res, ordinals[..|ordinals| - 1], n - 1);
    } else {
      CoversLess(actions, res, ordinals, n);
      CoversOnce(actions, res, ordinals, n - 1);
    }
  }

  /** An apply that returned has completed exactly the removals and the resolved additions that were not
      refused, in plan order, and every completed write was acknowledged. */
  lemma CompletedExactly(actions: seq<Action>, res: Resolutions, env: E.Env, approved: bool, skipUnresolved: bool,
                         failOnUnavailable: bool, source: Option<Name>, target: Option<Name>)
    requires NoLateFinds(actions, res, env)
    requires !E.Execution(actions, res, env, approved, skipUnresolved, failOnUnavailable, source, target).raised
    ensures var x := E.Execution(actions, res, env, approved, skipUnresolved, failOnUnavailable, source, target);
            var t := E.TallyOf(x.events);
            t.acks == t.completions && t.completions == Written(actions, Without(res, x.rejected), |actions|)
  {
    var x := E.Execution(actions, res, env, approved, skipUnresolved, failOnUnavailable, source, target);
    var r := E.Prepare(actions, res, env, skipUnresolved, |actions|);
    var start := E.Progress([], source, target, r.skipped, [], false);
    E.PreparedSplit(actions, res, env, skipUnresolved, |actions|);
    E.WritesSound(start, r.prepared, failOnUnavailable, env, |r.prepared|);
    SkippedAtAll(start, r.prepared, failOnUnavailable, env, |r.prepared|);
    forall i: nat | i < |actions|
      ensures i in E.TallyOf(x.events).completions <==> ToWrite(actions, Without(res, x.rejected), i)
    {
      CompletedAt(actions, res, env, approved, skipUnresolved, failOnUnavailable, source, target, i);
    }
    CompletionsBelow(x, start, r.prepared, |actions|);
    CoversOnce(actions, Without(res, x.rejected), E.TallyOf(x.events).completions, |actions|);
  }

  lemma CompletedAt(actions: seq<Action>, res: Resolutions, env: E.Env, approved: bool, skipUnresolved: bool,
                    failOnUnavailable: bool, source: Option<Name>, target: Option<Name>, i: nat)
    requires NoLateFinds(actions, res, env) && i < |actions|
    requires !E.Execution(actions, res, env, approved, skipUnresolved, failOnUnavailable, source, target).raised
    ensures var x := E.Execution(actions, res, env, approved, skipUnresolved, failOnUnavailable, source, target);
            i in E.TallyOf(x.events).completions <==> ToWrite(actions, Without(res, x.rejected), i)
  {
    var x := E.Execution(actions, res, env, approved, skipUnresolved, failOnUnavailable, source, target);
    var r := E.Prepare(actions, res, env, skipUnresolved, |actions|);
    var start := E.Progress([], source, target, r.skipped, [], false);
    SkippedAtAll(start, r.prepared, failOnUnavailable, env, |r.prepared|);
    SkippedByPreflight(actions, res, env, skipUnresolved, |actions|, i);
    E.ReturnsAccountForAll(actions, res, env, approved, skipUnresolved, failOnUnavailable, source, target, i);
    InConcat(r.skipped, x.rejected, i);
    if i in x.rejected {
      forall j: nat | j < |r.prepared| ensures E.OfPlan(r.prepared[j], actions, res, env) {
        E.PreparedOfPlan(actions, res, env, skipUnresolved, |actions|, j);
      }
      RefusedAreAdds(start, r.prepared, failOnUnavailable, actions, res, env, |r.prepared|, i);
    }
  }

  lemma CompletionsBelow(x: E.Progress, start: E.Progress, prepared: seq<E.Prepared>, n: nat)
    requires !x.raised && E.Turns(x, start, prepared, |prepared|)
    requires forall j :: 0 <= j < |prepared| ==> prepared[j].ordinal < n
    ensures var t := E.TallyOf(x.events);
            t.acks == t.completions && E.Increasing(t.completions) && E.Below(t.completions, n)
  {
    assert E.Sound(E.TallyOf(x.events));
  }

  // ---- The acknowledged additions, counted -----------------------------------------------------------------

  /** The additions among the given ordinals, with the recordings they were sent as. */
  function AdditionsOf(actions: seq<Action>, res: Resolutions, ordinals: seq<nat>): seq<Acknowledged>
    requires E.Below(ordinals, |actions|)
  {
    if ordinals == [] then []
    else
      var i := ordinals[|ordinals| - 1];
      AdditionsOf(actions, res, ordinals[..|ordinals| - 1]) +
      if ResolvedAdd(actions, res, i) then [Acknowledged(actions[i], res[i])] else []
  }

  lemma AckNumPush(additions: seq<Acknowledged>, a: Acknowledged, side: Side, k: Key)
    ensures AckNum(additions + [a], side, k)
            == AckNum(additions, side, k) + if a.action.side == side && a.action.track.key == k then 1 else 0
  {
    AckNumStep(additions + [a], |additions|, side, k);
    assert (additions + [a])[..|additions| + 1] == additions + [a] && (additions + [a])[..|additions|] == additions;
  }

  lemma NumKeysPush(keys: seq<Key>, x: Key, k: Key)
    ensures NumKeys(keys + [x], k) == NumKeys(keys, k) + if x == k then 1 else 0
  {
    FilterPush((y: Key) => y == k, keys, x);
  }

  /** The resolved additions of one key to one side among the first n actions. */
  function SentNum(actions: seq<Action>, res: Resolutions, side: Side, n: nat, k: Key): nat
    requires n <= |actions|
  {
    if n == 0 then 0
    else SentNum(actions, res, side, n - 1, k) + if IsSent(actions, res, side, n - 1, k) then 1 else 0
  }

  predicate IsSent(actions: seq<Action>, res: Resolutions, side: Side, i: nat, k: Key) {
    ResolvedAdd(actions, res, i) && actions[i].side == side && actions[i].track.key == k
  }

  lemma SentKeysStep(actions: seq<Action>, res: Resolutions, side: Side, n: nat, k: Key)
    requires 0 < n <= |actions|
    ensures NumKeys(SentKeys(actions, SentAdds(actions, res, side, n)), k)
            == NumKeys(SentKeys(actions, SentAdds(actions, res, side, n - 1)), k)
               + if IsSent(actions, res, side, n - 1, k) then 1 else 0
  {
    var front, all := SentAdds(actions, res, side, n - 1), SentAdds(actions, res, side, n);
    if ResolvedAdd(actions, res, n - 1) && actions[n - 1].side == side {
      assert SentKeys(actions, all) == SentKeys(actions, front) + [actions[n - 1].track.key];
      NumKeysPush(SentKeys(actions, front), actions[n - 1].track.key, k);
    } else {
      assert all == front;
    }
  }

  lemma {:induction false} SentNumIs(actions: seq<Action>, res: Resolutions, side: Side, n: nat, k: Key)
    requires n <= |actions|
    ensures NumKeys(SentKeys(actions, SentAdds(actions, res, side, n)), k) == SentNum(actions, res, side, n, k)
  {
    if n > 0 {
      SentNumIs(actions, res, side, n - 1, k);
      SentKeysStep(actions, res, side, n, k);
    }
  }

  lemma AdditionsStep(actions: seq<Action>, res: Resolutions, n: nat)
    requires 0 < n <= |actions|
    ensures AdditionsOf(actions, res, Written(actions, res, n))
            == AdditionsOf(actions, res, Written(actions, res, n - 1))
               + if ResolvedAdd(actions, res, n - 1) then [Acknowledged(actions[n - 1], res[n - 1])] else []
  {
    var front, all := Written(actions, res, n - 1), Written(actions, res, n);
    if ToWrite(actions, res, n - 1) {
      assert all[..|all| - 1] == front && all[|all| - 1] == n - 1;
    } else {
      assert all == front && AdditionsOf(actions, res, front) + [] == AdditionsOf(actions, res, front);
    }
  }

  lemma AckNumStepWritten(actions: seq<Action>, res: Resolutions, side: Side, n: nat, k: Key)
    requires 0 < n <= |actions|
    ensures AckNum(AdditionsOf(actions, res, Written(actions, res, n)), side, k)
            == AckNum(AdditionsOf(actions, res, Written(actions, res, n - 1)), side, k)
               + if IsSent(actions, res, side, n - 1, k) then 1 else 0
  {
    AdditionsStep(actions, res, n);
    var front := AdditionsOf(actions, res, Written(actions, res, n - 1));
    if ResolvedAdd(actions, res, n - 1) {
      AckNumPush(front, Acknowledged(actions[n - 1], res[n - 1]), side, k);
    } else {
      assert front + [] == front;
    }
  }

  /** The written ordinals give each key its number of resolved additions. */
  lemma {:induction false} AdditionsCounted(actions: seq<Action>, res: Resolutions, side: Side, n: nat, k: Key)
    requires n <= |actions|
    ensures AckNum(AdditionsOf(actions, res, Written(actions, res, n)), side, k) == SentNum(actions, res, side, n, k)
  {
    if n > 0 {
      AdditionsCounted(actions, res, side, n - 1, k);
      AckNumStepWritten(actions, res, side, n, k);
    }
  }

  lemma {:induction false} SentAtMost(actions: seq<Action>, res: Resolutions, side: Side, n: nat, k: Key)
    requires n <= |actions|
    ensures SentNum(actions, res, side, n, k) <= Num(actions[..n], side, AddTrack, k)
  {
    if n > 0 {
      SentAtMost(actions, res, side, n - 1, k);
      assert actions[..n] == actions[..n - 1] + [actions[n - 1]];
      FilterPush(Has(side, AddTrack, k), actions[..n - 1], actions[n - 1]);
    }
  }

  lemma SentAtMostAll(actions: seq<Action>, res: Resolutions, side: Side, k: Key)
    ensures SentNum(actions, res, side, |actions|, k) <= Num(actions, side, AddTrack, k)
  {
    SentAtMost(actions, res, side, |actions|, k);
    assert actions[..|actions|] == actions;
  }

  // ---- The cycle ------------------------------------------------------------------------------------------------

  /** One playlist as its provider lists it: before the writes, the occurrences that went and came, what it
      really holds after them, and what the listing right after the apply shows. */
  datatype Listing = Listing(raw: seq<Track>, gone: seq<Track>, arrived: seq<Track>, rawNow: seq<Track>,
                             rawSeen: seq<Track>)

  /** Everything one review and its apply depend on. */
  datatype Cycle = Cycle(table: Table, baseline: Option<Baseline>, policy: Policy, mode: Mode, source: Listing,
                         target: Listing, res: Resolutions, env: E.Env, skipUnresolved: bool, failOnUnavailable: bool,
                         sourceSnapshot: Option<Name>, targetSnapshot: Option<Name>)
  {
    function Of(side: Side): Listing {
      if side.Source? then source else target
    }

    function Before(side: Side): seq<Track> {
      ApplyMappings(table, side, Of(side).raw)
    }

    function Reviewed(): Plan {
      PlanFor(baseline, Before(Source), Before(Target), policy, mode)
    }

    function Executed(): E.Progress {
      E.Execution(Reviewed().actions, res, env, true, skipUnresolved, failOnUnavailable, sourceSnapshot, targetSnapshot)
    }

    /** The resolutions of the additions that no provider refused. */
    function Taken(): Resolutions {
      Without(res, Executed().rejected)
    }

    /** What became of each resolved addition of an apply that returned. */
    function Outcomes(): seq<Outcome> {
      seq(|Reviewed().actions|, i => if i in Executed().rejected then Rejected else Accepted)
    }

    /** The mapping table after the apply. */
    function Saved(): Option<Table> {
      Saves(table, Reviewed().actions, res, Outcomes(), |Reviewed().actions|)
    }

    /** The ordinals of the additions one side accepted. */
    function Sent(side: Side): (r: seq<nat>)
      ensures forall j :: 0 <= j < |r| ==> r[j] < |Reviewed().actions|
    {
      SentAdds(Reviewed().actions, Taken(), side, |Reviewed().actions|)
    }

    /** The guards of the apply let the plan through. */
    ghost predicate Passes() {
      && Agree(table, Reviewed().actions, res)
      && Equivalences(Reviewed().actions, res, Before(Source), Before(Target)) == []
    }

    /** The apply returned, whatever was refused, and its writes are all that changed the playlists. */
    ghost predicate Returns() {
      NoLateFinds(Reviewed().actions, res, env) && !Executed().raised && forall side :: Arrives(side)
    }

    ghost predicate Arrives(side: Side) {
      WrittenTo(Of(side).rawNow, Of(side).raw, Of(side).gone, Of(side).arrived, Reviewed().actions, Taken(),
                Sent(side), side, table)
    }

    /** No two occurrences of one recording carry different keys where a plan may copy either of them. */
    ghost predicate KeysAreClear() {
      baseline.None? || mode.TwoWay? ==> OneKeyPerId(Before(Source)) && OneKeyPerId(Before(Target))
    }

    /** Dropping the mappings of the refused additions removes no row. */
    ghost predicate DropsNothing() {
      RefusedAreNew(table, Reviewed().actions, res, Executed().rejected)
    }

    function Ordinals(): seq<nat> {
      E.TallyOf(Executed().events).completions
    }

    /** The additions the providers acknowledged. */
    function Additions(): seq<Acknowledged> {
      if E.Below(Ordinals(), |Reviewed().actions|) then AdditionsOf(Reviewed().actions, res, Ordinals()) else []
    }

    /** What the playlist really holds, and what its listing shows, under the mappings saved since. */
    function Now(side: Side): seq<Track>
      requires Saved().Some?
    {
      ApplyMappings(Saved().value, side, Of(side).rawNow)
    }

    function Seen(side: Side): seq<Track>
      requires Saved().Some?
    {
      ApplyMappings(Saved().value, side, Of(side).rawSeen)
    }

    /** One side reads its old occurrences as before the apply, and the new ones under the plan's keys. */
    ghost predicate KeysStay(side: Side)
      requires Saved().Some?
    {
      KeysKept(table, Saved().value, side, Of(side).raw, Of(side).arrived, SentKeys(Reviewed().actions, Sent(side)))
    }

    /** The listings right after the apply hide nothing but acknowledged additions. */
    ghost predicate Lags()
      requires Saved().Some?
    {
      forall side :: HidesOnlyAdds(Seen(side), Now(side), Additions(), side)
    }

    /** What the repair of a listing returns. */
    ghost predicate Repairs(r: seq<Track>, side: Side)
      requires Saved().Some?
    {
      && Overlaid(r, Seen(side), Before(side), Additions(), side)
      && Seen(side) <= r && multiset(r[|Seen(side)|..]) <= multiset(AsTracks(Additions(), side))
    }

    /** What the next review, of the caught-up playlists against the saved baseline, asks for. */
    function Next(saved: Baseline): Plan
      requires Saved().Some?
    {
      PlanFor(ApplyToBaseline(Saved().value, Some(saved)), Now(Source), Now(Target), policy, mode)
    }
  }

  lemma TableSaved(c: Cycle)
    requires c.Passes()
    ensures c.Saved().Some?
    ensures Traceable(c.Saved().value, c.table, c.Reviewed().actions, c.res)
  {
    PreflightIsSound(c.table, c.Reviewed().actions, c.res, c.Outcomes(), |c.Reviewed().actions|);
  }

  // ---- The acknowledged additions of the cycle ---------------------------------------------------------------

  lemma {:induction false} AdditionsOfTaken(actions: seq<Action>, res: Resolutions, refused: seq<nat>, n: nat)
    requires n <= |actions|
    ensures AdditionsOf(actions, res, Written(actions, Without(res, refused), n))
            == AdditionsOf(actions, Without(res, refused), Written(actions, Without(res, refused), n))
  {
    if n > 0 {
      AdditionsOfTaken(actions, res, refused, n - 1);
      var front, all := Written(actions, Without(res, refused), n - 1), Written(actions, Without(res, refused), n);
      if ToWrite(actions, Without(res, refused), n - 1) {
        assert all[..|all| - 1] == front && all[|all| - 1] == n - 1;
      } else {
        assert all == front;
      }
    }
  }

  /** What was acknowledged is what was sent and not refused. */
  lemma AckNumIs(c: Cycle, side: Side, k: Key)
    requires c.Returns()
    ensures AckNum(c.Additions(), side, k) == NumKeys(SentKeys(c.Reviewed().actions, c.Sent(side)), k)
    ensures AckNum(c.Additions(), side, k) <= Num(c.Reviewed().actions, side, AddTrack, k)
  {
    var actions := c.Reviewed().actions;
    CompletedExactly(actions, c.res, c.env, true, c.skipUnresolved, c.failOnUnavailable, c.sourceSnapshot,
                     c.targetSnapshot);
    AdditionsOfTaken(actions, c.res, c.Executed().rejected, |actions|);
    AdditionsCounted(actions, c.Taken(), side, |actions|, k);
    SentNumIs(actions, c.Taken(), side, |actions|, k);
    SentAtMostAll(actions, c.Taken(), side, k);
  }

  /** A side whose keys stayed has, for every key, its count before plus what it accepted minus the removals. */
  lemma AppliedWhenKept(c: Cycle, side: Side)
    requires c.Returns() && c.Saved().Some? && c.KeysStay(side)
    ensures AppliedOn(c.Reviewed(), c.Before(side), c.Now(side), c.Additions(), side)
  {
    var l := c.Of(side);
    assert c.Arrives(side);
    forall k
      ensures AckNum(c.Additions(), side, k) <= Num(c.Reviewed().actions, side, AddTrack, k)
      ensures Count(c.Now(side), k)
              == Count(c.Before(side), k) + AckNum(c.Additions(), side, k)
                 - Num(c.Reviewed().actions, side, RemoveTrack, k)
    {
      AckNumIs(c, side, k);
      CountsWhenKept(c.table, c.Saved().value, c.Reviewed().actions, c.Taken(), c.Sent(side), side, l.raw, l.gone,
                     l.arrived, l.rawNow, k);
    }
  }

  // ---- When the keys stay ------------------------------------------------------------------------------------

  /** No refused addition was resolved to a recording that has a row or was accepted earlier in the same plan,
      and none starts from a recording whose row points at it. */
  ghost predicate RefusedAreNew(table: Table, actions: seq<Action>, res: Resolutions, refused: seq<nat>) {
    forall i: nat :: i in refused && ResolvedAdd(actions, res, i) ==>
      && DestinationRow(actions[i], res[i]) !in table
      && (OriginRow(actions[i]) in table ==> table[OriginRow(actions[i])].counterpart != Some(res[i].id))
      && forall j: nat :: j < i && ResolvedAdd(actions, Without(res, refused), j) ==>
           !RowOf(actions, Without(res, refused), j, DestinationRow(actions[i], res[i]))
  }

  function AllTaken(n: nat): seq<Outcome> {
    seq(n, _ => Accepted)
  }

  /** Each row is an old one or belongs to an accepted addition below n, and points where one of them did. */
  ghost predicate FromAccepted(t: Table, table: Table, actions: seq<Action>, res: Resolutions, n: nat) {
    forall r :: r in t ==>
      || (r in table && t[r].counterpart == table[r].counterpart)
      || exists j: nat :: j < n && ResolvedAdd(actions, res, j) && PointsAs(t[r], actions, res, j, r)
  }

  lemma FromAcceptedGrows(t: Table, table: Table, actions: seq<Action>, res: Resolutions, n: nat)
    requires FromAccepted(t, table, actions, res, n)
    ensures FromAccepted(t, table, actions, res, n + 1)
  {
    forall r | r in t && !(r in table && t[r].counterpart == table[r].counterpart)
      ensures exists j: nat :: j < n + 1 && ResolvedAdd(actions, res, j) && PointsAs(t[r], actions, res, j, r)
    {
      var j: nat :| j < n && ResolvedAdd(actions, res, j) && PointsAs(t[r], actions, res, j, r);
      assert j < n + 1;
    }
  }

  predicate PointsAs(m: Mapping, actions: seq<Action>, res: Resolutions, j: nat, r: RowId)
    requires ResolvedAdd(actions, res, j)
  {
    || (r == DestinationRow(actions[j], res[j]) && m.counterpart == Some(actions[j].track.id))
    || (r == OriginRow(actions[j]) && m.counterpart == Some(res[j].id))
  }

  /** Then the saves are those of the accepted additions alone. */
  lemma {:induction false} RefusalsLeaveNoTrace(table: Table, actions: seq<Action>, res: Resolutions,
                                                refused: seq<nat>, outcomes: seq<Outcome>, n: nat)
    requires n <= |actions| == |outcomes| && RefusedAreNew(table, actions, res, refused)
    requires forall i: nat :: i < |actions| ==> outcomes[i] == if i in refused then Rejected else Accepted
    ensures var taken := Without(res, refused);
            var saved := Saves(table, actions, taken, AllTaken(|actions|), n);
            && Saves(table, actions, res, outcomes, n) == saved
            && (saved.Some? ==> FromAccepted(saved.value, table, actions, taken, n))
  {
    if n > 0 {
      var taken := Without(res, refused);
      RefusalsLeaveNoTrace(table, actions, res, refused, outcomes, n - 1);
      var before := Saves(table, actions, taken, AllTaken(|actions|), n - 1);
      if before.Some? {
        FromAcceptedGrows(before.value, table, actions, taken, n - 1);
      }
      if before.Some? && ResolvedAdd(actions, res, n - 1) {
        if n - 1 in refused {
          NothingDropped(before.value, table, actions, res, refused, n - 1);
        } else if SaveResolved(before.value, actions[n - 1], taken[n - 1]).Some? {
          AcceptedPoints(before.value, table, actions, taken, n - 1);
        }
      }
    }
  }

  lemma NothingDropped(t: Table, table: Table, actions: seq<Action>, res: Resolutions, refused: seq<nat>, i: nat)
    requires RefusedAreNew(table, actions, res, refused) && FromAccepted(t, table, actions, Without(res, refused), i)
    requires i in refused && ResolvedAdd(actions, res, i)
    ensures Invalidate(t, actions[i], res[i]) == t
  {
    var taken, d, o := Without(res, refused), DestinationRow(actions[i], res[i]), OriginRow(actions[i]);
    assert d !in t;
    assert o in t ==> t[o].counterpart != Some(res[i].id);
    assert t - {d} == t;
  }

  lemma AcceptedPoints(t: Table, table: Table, actions: seq<Action>, res: Resolutions, i: nat)
    requires FromAccepted(t, table, actions, res, i) && ResolvedAdd(actions, res, i)
    requires SaveResolved(t, actions[i], res[i]).Some?
    ensures FromAccepted(SaveResolved(t, actions[i], res[i]).value, table, actions, res, i + 1)
  {
    var after := SaveResolved(t, actions[i], res[i]).value;
    forall r | r in after
      ensures || (r in table && after[r].counterpart == table[r].counterpart)
              || exists j: nat :: j < i + 1 && ResolvedAdd(actions, res, j) && PointsAs(after[r], actions, res, j, r)
    {
      if RowOf(actions, res, i, r) {
        assert i < i + 1 && PointsAs(after[r], actions, res, i, r);
      } else {
        FromAcceptedGrows(t, table, actions, res, i);
        assert r in t && after[r] == t[r];
      }
    }
  }

  /** The accepted additions pass the guards on their own. */
  lemma FewerAgree(table: Table, actions: seq<Action>, res: Resolutions, refused: seq<nat>)
    requires Agree(table, actions, res)
    ensures Agree(table, actions, Without(res, refused))
  {
    var taken := Without(res, refused);
    forall i: nat, r | ResolvedAdd(actions, taken, i) && RowOf(actions, taken, i, r)
      ensures ResolvedAdd(actions, res, i) && RowOf(actions, res, i, r)
    {
    }
  }

  lemma FewerEquivalents(actions: seq<Action>, res: Resolutions, refused: seq<nat>, source: seq<Track>,
                         target: seq<Track>)
    requires Equivalences(actions, res, source, target) == []
    ensures Equivalences(actions, Without(res, refused), source, target) == []
  {
    var taken := Without(res, refused);
    GuardMeansNoEquivalents(actions, res, source, target);
    GuardMeansNoEquivalents(actions, taken, source, target);
    forall i: nat, x | ResolvedAdd(actions, taken, i) && x in SideOf(source, target, actions[i].side)
      ensures !IsEdge(actions[i], taken[i], x)
    {
      assert ResolvedAdd(actions, res, i) && res[i] == taken[i];
    }
  }

  lemma TakenPass(c: Cycle)
    requires c.Passes()
    ensures Agree(c.table, c.Reviewed().actions, c.Taken())
    ensures Equivalences(c.Reviewed().actions, c.Taken(), c.Before(Source), c.Before(Target)) == []
  {
    FewerAgree(c.table, c.Reviewed().actions, c.res, c.Executed().rejected);
    FewerEquivalents(c.Reviewed().actions, c.res, c.Executed().rejected, c.Before(Source), c.Before(Target));
  }

  /** When dropping the refused mappings removes no row, a side keeps its keys exactly if no accepted addition
      names as its origin a recording that the side showed under another key. */
  lemma KeysStayIff(c: Cycle, side: Side)
    requires c.Passes() && c.Returns() && c.DropsNothing()
    ensures c.Saved().Some?
    ensures c.KeysStay(side) <==> OriginsCurrentOn(c.Reviewed().actions, c.Taken(), c.Before(side), side)
  {
    var actions, outcomes := c.Reviewed().actions, AllTaken(|c.Reviewed().actions|);
    TakenPass(c);
    RefusalsLeaveNoTrace(c.table, actions, c.res, c.Executed().rejected, c.Outcomes(), |actions|);
    assert c.Arrives(side);
    AcceptedKeepKeysIff(c.table, actions, c.Taken(), outcomes, c.Before(Source), c.Before(Target), side,
                        c.Of(side).raw, c.Of(side).arrived);
  }

  lemma {:induction false} NoneSent(actions: seq<Action>, res: Resolutions, side: Side, n: nat)
    requires n <= |actions| && forall a :: a in actions ==> a.side != side
    ensures SentAdds(actions, res, side, n) == []
  {
    if n > 0 {
      NoneSent(actions, res, side, n - 1);
      assert actions[n - 1] in actions;
    }
  }

  /** In follow-source mode nothing is sent to the source, and no addition comes from the target. */
  lemma FollowSendsToTarget(c: Cycle)
    requires c.baseline.Some? && c.mode.SourceToTarget?
    ensures c.Sent(Source) == []
    ensures OriginsCurrentOn(c.Reviewed().actions, c.Taken(), c.Before(Target), Target)
  {
    var actions := c.Reviewed().actions;
    forall a | a in actions ensures a.side == Target {
      FollowTargetsOnly(c.baseline.value, c.Before(Source), c.Before(Target), c.policy, a);
    }
    NoneSent(actions, c.Taken(), Source, |actions|);
    forall i: nat | ResolvedAdd(actions, c.Taken(), i) ensures Other(actions[i].side) == Source {
      assert actions[i] in actions;
    }
  }

  /** So each side either keeps its keys or was sent nothing. */
  lemma KeptOrUntouched(c: Cycle, side: Side)
    requires c.Passes() && c.Returns() && c.KeysAreClear() && c.DropsNothing()
    ensures c.Saved().Some?
    ensures c.KeysStay(side) || c.Sent(side) == []
  {
    KeysStayIff(c, side);
    if c.baseline.None? || c.mode.TwoWay? {
      AddsAreLive(c.baseline, c.Before(Source), c.Before(Target), c.policy, c.mode);
      LiveMeansCurrent(c.Reviewed().actions, c.Taken(), c.Before(Source), c.Before(Target));
    } else {
      FollowSendsToTarget(c);
    }
  }

  /** The apply did to the counts of a side what the overlay expects of it, refusals or not, as long as no
      accepted addition names as its origin a recording that the side showed under another key. */
  lemma ApplyingHolds(c: Cycle, side: Side)
    requires c.Passes() && c.Returns() && c.DropsNothing()
    requires OriginsCurrentOn(c.Reviewed().actions, c.Taken(), c.Before(side), side)
    ensures c.Saved().Some?
    ensures AppliedOn(c.Reviewed(), c.Before(side), c.Now(side), c.Additions(), side)
  {
    KeysStayIff(c, side);
    AppliedWhenKept(c, side);
  }

  // ---- The next review ---------------------------------------------------------------------------------------

  /** What is appended to a listing keeps its keys at the next review. */
  lemma {:induction false} AdditionsKeyed(c: Cycle, ordinals: seq<nat>, side: Side)
    requires c.Passes() && c.Saved().Some? && E.Below(ordinals, |c.Reviewed().actions|)
    ensures IsKeyed(c.Saved().value, side, AsTracks(AdditionsOf(c.Reviewed().actions, c.res, ordinals), side))
  {
    var actions := c.Reviewed().actions;
    if ordinals != [] {
      var front, i := ordinals[..|ordinals| - 1], ordinals[|ordinals| - 1];
      AdditionsKeyed(c, front, side);
      if ResolvedAdd(actions, c.res, i) {
        AdditionKeyed(c, i);
        AsTracksPush(AdditionsOf(actions, c.res, front), Acknowledged(actions[i], c.res[i]), side);
      } else {
        assert AdditionsOf(actions, c.res, front) + [] == AdditionsOf(actions, c.res, front);
      }
    }
  }

  lemma AsTracksPush(additions: seq<Acknowledged>, a: Acknowledged, side: Side)
    ensures AsTracks(additions + [a], side)
            == AsTracks(additions, side) + if a.action.side == side then [Keyed(a.resolved, a.action.track.key)] else []
  {
    assert (additions + [a])[..|additions|] == additions;
  }

  lemma AdditionKeyed(c: Cycle, i: nat)
    requires c.Passes() && c.Saved().Some? && ResolvedAdd(c.Reviewed().actions, c.res, i)
    ensures var a := c.Reviewed().actions[i]; var t := Keyed(c.res[i], a.track.key);
            Rekey(c.Saved().value, a.side, t) == t
  {
    var actions := c.Reviewed().actions;
    var r := DestinationRow(actions[i], c.res[i]);
    TableSaved(c);
    if r in c.Saved().value {
      TraceableAgrees(c.Saved().value, c.table, actions, c.res, i, r);
    }
  }

  /** So the baseline that is saved needs no re-keying, whatever was refused. */
  lemma RepairedIsKeyed(c: Cycle, r: seq<Track>, side: Side)
    requires c.Passes() && c.Saved().Some? && c.Repairs(r, side)
    ensures ApplyMappings(c.Saved().value, side, r) == r
  {
    var table := c.Saved().value;
    LinkPasses.RekeyIdempotent(table, side, c.Of(side).rawSeen);
    if E.Below(c.Ordinals(), |c.Reviewed().actions|) {
      AdditionsKeyed(c, c.Ordinals(), side);
    }
    var delayed := r[|c.Seen(side)|..];
    forall i | 0 <= i < |r| ensures Rekey(table, side, r[i]) == r[i] {
      if i < |c.Seen(side)| {
        assert r[i] == c.Seen(side)[i] && r[i] in c.Seen(side);
      } else {
        assert r[i] == delayed[i - |c.Seen(side)|] && r[i] in multiset(delayed);
        assert r[i] in AsTracks(c.Additions(), side);
      }
    }
  }

  /** The repaired listing has the true counts of a side that kept its keys or was sent nothing. */
  lemma RepairIsTrue(c: Cycle, r: seq<Track>, side: Side, k: Key)
    requires c.Returns() && c.Saved().Some? && c.Lags() && c.Repairs(r, side)
    requires c.KeysStay(side) || c.Sent(side) == []
    ensures Count(r, k) == Count(c.Now(side), k)
  {
    assert HidesOnlyAdds(c.Seen(side), c.Now(side), c.Additions(), side);
    if c.KeysStay(side) {
      AppliedWhenKept(c, side);
      OverlayIsExact(c.baseline, c.Before(Source), c.Before(Target), c.policy, c.mode, c.Additions(), c.Now(side),
                     c.Seen(side), r, side, k);
    } else {
      AckNumIs(c, side, k);
    }
  }

  /** For any refusals: if each side kept its keys or was sent nothing, the next review is empty. */
  lemma NextReviewWhenKept(c: Cycle, saved: Baseline)
    requires c.Passes() && c.Returns() && c.Saved().Some? && c.Lags()
    requires c.Repairs(saved.source, Source) && c.Repairs(saved.target, Target)
    requires forall side :: c.KeysStay(side) || c.Sent(side) == []
    ensures c.Next(saved).actions == [] && forall x :: x in c.Next(saved).conflicts ==> x.IsrcConflict?
  {
    RepairedIsKeyed(c, saved.source, Source);
    RepairedIsKeyed(c, saved.target, Target);
    forall k
      ensures Count(c.Now(Source), k) == Count(saved.source, k) && Count(c.Now(Target), k) == Count(saved.target, k)
    {
      RepairIsTrue(c, saved.source, Source, k);
      RepairIsTrue(c, saved.target, Target, k);
    }
    UnchangedNeedsNothing(saved, c.Now(Source), c.Now(Target), c.policy, c.mode);
  }

  /** The whole cycle, in every mode and under every policy: if the guards pass, the apply returns, its refused
      additions leave no mapping to drop, and the listings after it lag by acknowledged additions at most, then
      the first review of the caught-up playlists against the saved baseline, all of them re-keyed by the
      mappings saved meanwhile, has no action and no count conflict. */
  lemma NextReviewIsEmpty(c: Cycle, saved: Baseline)
    requires c.Passes() && c.Returns() && c.KeysAreClear() && c.DropsNothing() && c.Saved().Some? && c.Lags()
    requires c.Repairs(saved.source, Source) && c.Repairs(saved.target, Target)
    ensures c.Next(saved).actions == [] && forall x :: x in c.Next(saved).conflicts ==> x.IsrcConflict?
  {
    forall side ensures c.KeysStay(side) || c.Sent(side) == [] {
      KeptOrUntouched(c, side);
    }
    NextReviewWhenKept(c, saved);
  }
}
