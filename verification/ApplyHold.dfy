/** After an uncertain apply no automatic evaluation starts until a newer baseline is saved. */
module ApplyHold {
  import opened Prelude
  import Leases
  import opened ApplyProtocol
  import opened ApplySafety
  import opened ApplyMoves
  import opened ApplyFencing

  // ---- How a run stays uncertain -----------------------------------------------------------------

  /** Failed, or applying with a journal: recovery would not call the run interrupted. */
  predicate Lasting(row: SyncRun) {
    row.status.Failed? || (row.status.Applying? && Journalled(row))
  }

  /** The run is uncertain for good reason and no decision to call it interrupted is pending. */
  ghost predicate Stuck(s: State, r: RunId) {
    r in s.runs && Lasting(s.runs[r]) && forall w :: !Condemned(s.At(w).pc, r)
  }

  predicate WouldReject(pc: Pc, r: RunId) {
    pc.Rejecting? && pc.run == r
  }

  /** Somebody is about to overwrite the status of the run without looking at it again. */
  predicate Overwrites(pc: Pc, r: RunId) {
    Condemned(pc, r) || WouldReject(pc, r)
  }

  predicate SavesBaseline(step: Step) {
    step.Finish? || step.Accept?
  }

  predicate KeepsUncertain(before: SyncRun, row: SyncRun) {
    Lasting(row) && row.startedAt == before.startedAt
  }

  lemma StuckTurn(s: State, step: Step, r: RunId)
    requires Inv(s) && Enabled(s, step) && Stuck(s, r) && IsExecuting(step) && !SavesBaseline(step)
    ensures r in After(s, step).runs && KeepsUncertain(s.runs[r], After(s, step).runs[r])
  {
    var e := EffectOf(s, step);
    if e.touched.Some? && e.touched.value.run == r {
      TurnKeepsStatus(s, step);
    }
    RowAfter(s, step.w, e, r);
  }

  lemma RowAfter(s: State, w: WorkerId, e: Effect, r: RunId)
    requires r in s.runs
    ensures r in Apply(s, w, e).runs
    ensures Apply(s, w, e).runs[r]
            == if e.touched.Some? && e.touched.value.run == r then e.touched.value.row else s.runs[r]
  {
  }

  lemma TurnKeepsStatus(s: State, step: Step)
    requires Enabled(s, step) && IsExecuting(step) && !SavesBaseline(step) && EffectOf(s, step).touched.Some?
    ensures var t := EffectOf(s, step).touched.value;
            && t.run in s.runs && t.row.status == s.runs[t.run].status && t.row.startedAt == s.runs[t.run].startedAt
            && (Journalled(s.runs[t.run]) ==> Journalled(t.row))
  {
  }

  lemma StuckOther(s: State, step: Step, r: RunId)
    requires Inv(s) && Enabled(s, step) && Stuck(s, r) && !IsExecuting(step) && !step.Tick?
    requires step.Reject? ==> s.At(step.w).pc.run != r
    ensures r in After(s, step).runs && KeepsUncertain(s.runs[r], After(s, step).runs[r])
  {
    assert Tied(s.runs, step.w, s.At(step.w).pc) && RowOk(s.runs[r]);
    assert !Condemned(s.At(step.w).pc, r);
  }

  lemma StuckStep(s: State, step: Step, r: RunId)
    requires Inv(s) && Enabled(s, step) && Stuck(s, r) && !SavesBaseline(step)
    requires step.Reject? ==> s.At(step.w).pc.run != r
    ensures Stuck(After(s, step), r) && After(s, step).runs[r].startedAt == s.runs[r].startedAt
    ensures After(s, step).baselines == s.baselines
  {
    if !step.Tick? {
      if IsExecuting(step) { StuckTurn(s, step, r); } else { StuckOther(s, step, r); }
    }
    var t := After(s, step);
    forall w ensures !Condemned(t.At(w).pc, r) {
      assert !Condemned(s.At(w).pc, r);
      if Condemned(t.At(w).pc, r) {
        NewlyCondemned(s, step, w, r);
      }
    }
  }

  lemma RejectersAreOld(s: State, step: Step, w: WorkerId, r: RunId)
    requires Inv(s) && Enabled(s, step) && Stuck(s, r) && WouldReject(After(s, step).At(w).pc, r)
    ensures WouldReject(s.At(w).pc, r)
  {
    assert !step.Tick? && step.w == w ==> WouldReject(EffectOf(s, step).worker.pc, r);
    if !step.Tick? && step.w == w {
      OnlyAPlannedRunIsRejected(s, step, r);
    }
  }

  lemma OnlyAPlannedRunIsRejected(s: State, step: Step, r: RunId)
    requires Enabled(s, step) && !step.Tick? && WouldReject(EffectOf(s, step).worker.pc, r)
    ensures WouldReject(s.At(step.w).pc, r) || (r in s.runs && s.runs[r].status.Planned?)
  {
  }

  ghost predicate Held(s: State, r: RunId) {
    Stuck(s, r) && forall w :: !WouldReject(s.At(w).pc, r)
  }

  lemma HeldStep(s: State, step: Step, r: RunId)
    requires Inv(s) && Enabled(s, step) && Held(s, r) && !SavesBaseline(step)
    ensures Held(After(s, step), r) && After(s, step).runs[r].startedAt == s.runs[r].startedAt
    ensures After(s, step).baselines == s.baselines
  {
    assert step.Reject? ==> !WouldReject(s.At(step.w).pc, r);
    StuckStep(s, step, r);
    forall w ensures !WouldReject(After(s, step).At(w).pc, r) {
      if WouldReject(After(s, step).At(w).pc, r) {
        RejectersAreOld(s, step, w, r);
      }
    }
  }

  lemma BaselinesGrow(s: State, step: Step)
    requires Enabled(s, step)
    ensures s.baselines <= After(s, step).baselines
    ensures |After(s, step).baselines| == |s.baselines| + if SavesBaseline(step) then 1 else 0
  {
    if IsExecuting(step) {
      TurnSaves(s, step);
    } else if !step.Tick? {
      OtherSaves(s, step);
    }
  }

  lemma TurnSaves(s: State, step: Step)
    requires Enabled(s, step) && IsExecuting(step)
    ensures EffectOf(s, step).saved <==> SavesBaseline(step)
  {
  }

  lemma OtherSaves(s: State, step: Step)
    requires Enabled(s, step) && !IsExecuting(step) && !step.Tick?
    ensures EffectOf(s, step).saved <==> SavesBaseline(step)
  {
  }

  lemma {:induction false} BaselinesGrowRun(s: State, steps: seq<Step>)
    requires Run(s, steps)
    ensures |s.baselines| <= |Final(s, steps).baselines|
  {
    if steps != [] {
      BaselinesGrowRun(s, steps[..|steps| - 1]);
      BaselinesGrow(Final(s, steps[..|steps| - 1]), steps[|steps| - 1]);
    }
  }

  lemma {:induction false} HeldRun(s: State, steps: seq<Step>, r: RunId)
    requires Inv(s) && Held(s, r) && Run(s, steps) && |Final(s, steps).baselines| == |s.baselines|
    ensures Held(Final(s, steps), r) && Final(s, steps).runs[r].startedAt == s.runs[r].startedAt
    ensures Final(s, steps).baselines == s.baselines
  {
    if steps != [] {
      var front, last := steps[..|steps| - 1], steps[|steps| - 1];
      BaselinesGrowRun(s, front);
      BaselinesGrow(Final(s, front), last);
      HeldRun(s, front, r);
      InvRun(s, front);
      HeldStep(Final(s, front), last, r);
    }
  }

  // ---- Exactly when one run holds -----------------------------------------------------------------

  /** The run is at least as new as every baseline. */
  predicate NotOlder(s: State, r: RunId)
    requires r in s.runs
  {
    s.baselines == [] || s.baselines[|s.baselines| - 1] <= s.runs[r].startedAt
  }

  /** The run stands in the way of an automatic evaluation. */
  predicate Blocks(s: State, r: RunId) {
    r in s.runs && Uncertain(s.runs[r]) && NotOlder(s, r)
  }

  /** The run blocks in every continuation without a new baseline. */
  ghost predicate BlocksForever(s: State, r: RunId) {
    forall steps :: Run(s, steps) && |Final(s, steps).baselines| == |s.baselines| ==> Blocks(Final(s, steps), r)
  }

  /** What a look at the rows, and at who is about to write them, can tell. */
  ghost predicate Permanent(s: State, r: RunId) {
    r in s.runs && Lasting(s.runs[r]) && NotOlder(s, r) && forall w :: !Overwrites(s.At(w).pc, r)
  }

  /** A continuation without a new baseline in which run r is uncertain no longer; other runs and those
      about to overwrite them are left alone. */
  ghost predicate Frees(s: State, r: RunId, t: State) {
    && t.baselines == s.baselines && r in t.runs && !Uncertain(t.runs[r])
    && t.runs.Keys == s.runs.Keys && (forall x :: x in s.runs && x != r ==> t.runs[x] == s.runs[x])
    && (forall w, x :: x != r && Overwrites(s.At(w).pc, x) ==> Overwrites(t.At(w).pc, x))
  }

  lemma RejectFrees(s: State, w: WorkerId, r: RunId)
    requires r in s.runs && WouldReject(s.At(w).pc, r)
    ensures Leads(s, [] + [Reject(w)], After(s, Reject(w))) && Frees(s, r, After(s, Reject(w)))
  {
    Nothing(s);
    RejectMove(s, w);
    Then(s, [], s, Reject(w));
  }

  /** A recovery worker about to take its last decisions keeps those it has taken. */
  ghost predicate KeepsVerdicts(s: State, t: State, w: WorkerId) {
    && t.runs == s.runs && t.baselines == s.baselines && (forall v :: v != w ==> t.At(v) == s.At(v))
    && s.At(w).pc.Recovering? && t.At(w).pc.Recovering?
    && (forall x :: Condemned(s.At(w).pc, x) ==> Condemned(t.At(w).pc, x))
  }

  lemma DecideOne(s: State, w: WorkerId, x: RunId)
    requires Inv(s) && s.At(w).pc.Recovering? && x in s.At(w).pc.todo
    ensures Enabled(s, Decide(w, x))
    ensures KeepsVerdicts(s, After(s, Decide(w, x)), w)
    ensures After(s, Decide(w, x)).At(w).pc.todo == s.At(w).pc.todo - {x}
  {
    assert Tied(s.runs, w, s.At(w).pc);
    DecideMove(s, w, x);
  }

  /** A recovery worker can make the decisions it has left. */
  lemma {:induction false} DecideTheRest(s: State, w: WorkerId) returns (steps: seq<Step>, t: State)
    requires Inv(s) && s.At(w).pc.Recovering?
    ensures Leads(s, steps, t) && Inv(t) && KeepsVerdicts(s, t, w) && t.At(w).pc.todo == {}
    decreases |s.At(w).pc.todo|
  {
    Nothing(s);
    if s.At(w).pc.todo == {} {
      steps, t := [], s;
    } else {
      var x :| x in s.At(w).pc.todo;
      DecideOne(s, w, x);
      Then(s, [], s, Decide(w, x));
      var u := After(s, Decide(w, x));
      InvStep(s, Decide(w, x));
      var rest;
      rest, t := DecideTheRest(u, w);
      Join(s, [] + [Decide(w, x)], u, rest);
      steps := [] + [Decide(w, x)] + rest;
    }
  }

  lemma ConcludeFrees(s: State, w: WorkerId, r: RunId)
    requires Inv(s) && Condemned(s.At(w).pc, r) && s.At(w).pc.todo == {}
    ensures Enabled(s, Conclude(w, r)) && Frees(s, r, After(s, Conclude(w, r)))
  {
    assert Tied(s.runs, w, s.At(w).pc);
    ConcludeMove(s, w, r);
  }

  /** A pending decision to call the run interrupted takes effect. */
  lemma VerdictFrees(s: State, w: WorkerId, r: RunId) returns (steps: seq<Step>, t: State)
    requires Inv(s) && Condemned(s.At(w).pc, r)
    ensures Leads(s, steps, t) && Frees(s, r, t)
  {
    var decided, u := DecideTheRest(s, w);
    ConcludeFrees(u, w, r);
    Then(s, decided, u, Conclude(w, r));
    steps, t := decided + [Conclude(w, r)], After(u, Conclude(w, r));
    assert forall v, x :: Overwrites(s.At(v).pc, x) ==> Overwrites(u.At(v).pc, x);
  }

  /** A worker that was idle has listed the unfinished runs and taken the lease. */
  lemma StartRecovery(s: State, w: WorkerId) returns (steps: seq<Step>, t: State)
    requires Inv(s) && s.At(w).pc.Idle?
    ensures Leads(s, steps, t) && t.runs == s.runs && t.baselines == s.baselines
              && (forall v :: v != w ==> t.At(v) == s.At(v))
    ensures t.At(w).pc.Recovering? && t.At(w).pc.verdicts == map[]
    ensures t.At(w).pc.todo == set r | r in s.runs && Unfinished(s.runs[r])
  {
    Nothing(s);
    ListRunsMove(s, w);
    Then(s, [], s, ListRuns(w));
    var t1 := After(s, ListRuns(w));
    TickMove(t1, Wait(s));
    Then(s, [] + [ListRuns(w)], t1, Tick(Wait(s)));
    var t2 := After(t1, Tick(Wait(s)));
    var acquire := Acquire(w, ToRecover, t2.now);
    AcquireMove(t2, w, ToRecover);
    Then(s, [] + [ListRuns(w)] + [Tick(Wait(s))], t2, acquire);
    steps, t := [] + [ListRuns(w)] + [Tick(Wait(s))] + [acquire], After(t2, acquire);
  }

  /** Nothing is written and nobody who is about to overwrite a status is disturbed. */
  ghost predicate KeepsOverwriters(s: State, t: State) {
    && t.runs == s.runs && t.baselines == s.baselines
    && (forall v, x :: Overwrites(s.At(v).pc, x) ==> Overwrites(t.At(v).pc, x))
  }

  lemma DecideCondemns(s: State, w: WorkerId, r: RunId)
    requires Inv(s) && s.At(w).pc.Recovering? && r in s.At(w).pc.todo && r in s.runs
    requires s.runs[r].status.Applying? && !Journalled(s.runs[r])
    ensures Enabled(s, Decide(w, r)) && Condemned(After(s, Decide(w, r)).At(w).pc, r)
  {
    DecideMove(s, w, r);
  }

  /** A new worker recovers an apply without a journal. */
  lemma RecoveryCondemns(s: State, w: WorkerId, r: RunId) returns (steps: seq<Step>, t: State)
    requires Inv(s) && w !in s.workers && r in s.runs && s.runs[r].status.Applying? && !Journalled(s.runs[r])
    ensures Leads(s, steps, t) && Inv(t) && Condemned(t.At(w).pc, r) && KeepsOverwriters(s, t)
  {
    var start, u := StartRecovery(s, w);
    InvRun(s, start);
    DecideOne(u, w, r);
    DecideCondemns(u, w, r);
    Then(s, start, u, Decide(w, r));
    InvStep(u, Decide(w, r));
    steps, t := start + [Decide(w, r)], After(u, Decide(w, r));
    assert s.At(w).pc.Idle?;
  }

  /** An apply without a journal can always be recovered. */
  lemma RecoveryFrees(s: State, r: RunId) returns (steps: seq<Step>, t: State)
    requires Inv(s) && r in s.runs && s.runs[r].status.Applying? && !Journalled(s.runs[r])
    ensures Leads(s, steps, t) && Frees(s, r, t)
  {
    var n := FreshBound(s.workers.Keys);
    var start, u := RecoveryCondemns(s, WorkerId(n), r);
    var rest;
    rest, t := VerdictFrees(u, WorkerId(n), r);
    Join(s, start, u, rest);
    steps := start + rest;
  }

  /** A blocking run that is not permanent can be freed. */
  lemma CanBeFreed(s: State, r: RunId) returns (steps: seq<Step>, t: State)
    requires Inv(s) && Blocks(s, r) && !Permanent(s, r)
    ensures Leads(s, steps, t) && Frees(s, r, t)
  {
    if !Lasting(s.runs[r]) {
      steps, t := RecoveryFrees(s, r);
    } else {
      var w :| Overwrites(s.At(w).pc, r);
      if Condemned(s.At(w).pc, r) {
        steps, t := VerdictFrees(s, w, r);
      } else {
        RejectFrees(s, w, r);
        steps, t := [] + [Reject(w)], After(s, Reject(w));
      }
    }
  }

  /** In every reachable state: a run stands in the way of automatic evaluations until a newer baseline is
      saved if and only if it is failed, or applying with a journal, is at least as new as every baseline,
      and nobody is about to overwrite its status unseen. */
  lemma HoldLastsIff(now: int, before: seq<Step>, s: State, r: RunId)
    requires Run(Start(now), before) && s == Final(Start(now), before)
    ensures BlocksForever(s, r) <==> Permanent(s, r)
  {
    InvStart(now);
    InvRun(Start(now), before);
    HoldLasts(s, r);
  }

  lemma HoldLasts(s: State, r: RunId)
    requires Inv(s)
    ensures BlocksForever(s, r) <==> Permanent(s, r)
  {
    Nothing(s);
    if Permanent(s, r) {
      assert Held(s, r);
      forall steps | Run(s, steps) && |Final(s, steps).baselines| == |s.baselines| ensures Blocks(Final(s, steps), r) {
        HeldRun(s, steps, r);
      }
    } else if Blocks(s, r) {
      var steps, t := CanBeFreed(s, r);
      assert Run(s, steps) && |Final(s, steps).baselines| == |s.baselines| && !Blocks(Final(s, steps), r);
    } else {
      assert Run(s, []) && Final(s, []) == s;
    }
  }

  // ---- Exactly when automatic evaluations are held ---------------------------------------------------

  /** No automatic evaluation may start in any continuation without a new baseline. */
  ghost predicate HeldForever(s: State) {
    forall steps :: Run(s, steps) && |Final(s, steps).baselines| == |s.baselines| ==> !MayStart(Final(s, steps))
  }

  lemma MayStartUnlessBlocked(s: State)
    ensures MayStart(s) <==> s.baselines != [] && forall r :: !Blocks(s, r)
  {
    if s.baselines != [] && forall r :: !Blocks(s, r) {
      forall r | r in s.runs && Uncertain(s.runs[r]) ensures s.runs[r].startedAt < s.baselines[|s.baselines| - 1] {
        assert !Blocks(s, r);
      }
    }
  }

  function Blockers(s: State): set<RunId> {
    set r | r in s.runs && Blocks(s, r)
  }

  lemma FreedStaysFree(s: State, r: RunId, t: State)
    requires Frees(s, r, t) && Blocks(s, r) && forall x :: Blocks(s, x) ==> !Permanent(s, x)
    ensures Blockers(t) < Blockers(s) && forall x :: Blocks(t, x) ==> !Permanent(t, x)
  {
    forall x | Blocks(t, x) ensures x != r && Blocks(s, x) && !Permanent(t, x) {
      assert x != r && t.runs[x] == s.runs[x] && !Permanent(s, x);
      if Lasting(s.runs[x]) {
        var w :| Overwrites(s.At(w).pc, x);
        assert Overwrites(t.At(w).pc, x);
      }
    }
    assert r in Blockers(s) && r !in Blockers(t);
    assert forall x :: x in Blockers(t) ==> x in Blockers(s);
  }

  /** Runs that can be freed can be freed one after the other. */
  lemma {:induction false} FreeAll(s: State) returns (steps: seq<Step>)
    requires Inv(s) && s.baselines != [] && forall x :: Blocks(s, x) ==> !Permanent(s, x)
    ensures Run(s, steps) && Final(s, steps).baselines == s.baselines && MayStart(Final(s, steps))
    decreases Blockers(s)
  {
    MayStartUnlessBlocked(s);
    Nothing(s);
    if r :| Blocks(s, r) {
      var first, t := CanBeFreed(s, r);
      InvRun(s, first);
      FreedStaysFree(s, r, t);
      var rest := FreeAll(t);
      Join(s, first, t, rest);
      steps := first + rest;
    } else {
      steps := [];
    }
  }

  /** The automatic hold, exactly, in every reachable state: no automatic evaluation may start until a new
      baseline is saved if and only if there is no baseline yet or some run blocks permanently. */
  lemma AutomaticHoldIff(now: int, before: seq<Step>, s: State)
    requires Run(Start(now), before) && s == Final(Start(now), before)
    ensures HeldForever(s) <==> s.baselines == [] || exists r :: Permanent(s, r)
  {
    InvStart(now);
    InvRun(Start(now), before);
    if s.baselines == [] {
    } else if r :| Permanent(s, r) {
      HoldLasts(s, r);
      forall steps | Run(s, steps) && |Final(s, steps).baselines| == |s.baselines| ensures !MayStart(Final(s, steps)) {
        assert Blocks(Final(s, steps), r);
      }
    } else {
      var steps := FreeAll(s);
      assert Run(s, steps) && |Final(s, steps).baselines| == |s.baselines| && MayStart(Final(s, steps));
    }
  }
}
