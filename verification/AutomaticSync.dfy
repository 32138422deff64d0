/** The holds before an automatic apply, and what they bound. */
module AutomaticSync {
  import opened Prelude
  import opened Playlists
  import opened Reconciliation
  import opened PlanCounts
  import opened TrackIdentity
  import opened Executor
  import opened ApplyEvents
  import Health = ProviderHealth
  import Hold = ApplyHold
  import Protocol = ApplyProtocol

  datatype SavedBaseline = SavedBaseline(contents: Baseline, synchronizedAt: int)

  /** What the database says about a pair when an evaluation starts. legacySince is when the latest run
      ended, if that run lost its authorization without leaving an incident and that is still unresolved. */
  datatype PairState = PairState(name: Name, enabled: bool, consented: bool, sourceIncidents: seq<Health.Incident>,
                                 targetIncidents: seq<Health.Incident>, legacySince: Option<int>,
                                 baseline: Option<SavedBaseline>, runs: map<Protocol.RunId, Protocol.SyncRun>)

  /** A prepared review, as far as the evaluation looks at it. */
  datatype Review = Review(plan: Plan, baselineUpgrade: bool, unresolved: nat, autoMatches: nat)

  const EMPTY_REVIEW := Review(Plan([], [], None), false, 0, 0)

  /** What prepare_review and apply do is up to the rest of the system; each may raise. */
  datatype Preparation = Reviewed(review: Review) | PreparationRaised

  datatype Outcome =
    | Disabled
    | ProviderRetryPending
    | FirstSyncRequired
    | RecoveryRequired
    | BaselineReviewRequired
    | ConflictReviewRequired
    | UpToDate
    | BulkReviewRequired
    | AppliedWithUnmatched(count: nat)
    | AppliedWithMatches(count: nat)
    | AppliedCleanly
    | Raised

  function RemovesOn(side: Side): Action -> bool {
    (a: Action) => a.kind.RemoveTrack? && a.side == side
  }

  /** How many of the actions remove on the side. */
  function RemovalsOn(actions: seq<Action>, side: Side): nat {
    |Filter(RemovesOn(side), actions)|
  }

  /** Few enough removals for a side that had n tracks at the last baseline. */
  predicate Modest(removed: nat, n: nat) {
    removed == 0 || (removed < n && removed <= Min(10, Max(1, n / 4)))
  }

  /** An open incident of either account, or an old lost authorization, still asks to wait. */
  predicate RetryPending(p: PairState, now: int) {
    || Health.IncidentPending(p.sourceIncidents, p.name, now)
    || Health.IncidentPending(p.targetIncidents, p.name, now)
    || (p.legacySince.Some? && now < p.legacySince.value + 3600)
  }

  /** A run that may have written is at least as new as the baseline. */
  predicate UncertainRun(p: PairState, baseline: SavedBaseline) {
    exists r :: r in p.runs && Protocol.Uncertain(p.runs[r]) && p.runs[r].startedAt >= baseline.synchronizedAt
  }

  /** The evaluation may get as far as preparing a review. */
  predicate MayPrepare(p: PairState, now: int) {
    p.enabled && p.consented && !RetryPending(p, now) && p.baseline.Some? && !UncertainRun(p, p.baseline.value)
  }

  /** The prepared review may be applied without an operator. */
  predicate MayApply(b: Baseline, r: Review) {
    && !r.baselineUpgrade && r.plan.initialPolicy.None? && r.plan.conflicts == [] && r.plan.actions != []
    && forall side :: Modest(RemovalsOn(r.plan.actions, side), |SideOf(b.source, b.target, side)|)
  }

  // ---- The same rules in the database's own terms -----------------------------------------------------

  /** The places of the actions that remove on the side. */
  function RemovalPlaces(actions: seq<Action>, side: Side): set<nat> {
    set i: nat | i < |actions| && actions[i].kind == RemoveTrack && actions[i].side == side
  }

  /** None, or fewer than all n tracks, at most ten, and at most a quarter unless it is a single one. */
  predicate WithinBound(removed: nat, n: nat) {
    removed == 0 || (removed < n && removed <= 10 && (removed == 1 || 4 * removed <= n))
  }

  ghost predicate WithinBounds(actions: seq<Action>, before: Baseline) {
    && WithinBound(|RemovalPlaces(actions, Source)|, |before.source|)
    && WithinBound(|RemovalPlaces(actions, Target)|, |before.target|)
  }

  /** An open incident of either account that is about this pair or no pair asks for more time, or the old lost
      authorization is less than an hour ago. */
  ghost predicate AskedToWait(p: PairState, now: int) {
    || (exists i :: (i in p.sourceIncidents || i in p.targetIncidents)
                    && !i.resolved && (i.pair == None || i.pair == Some(p.name)) && i.retryAt > now)
    || (p.legacySince.Some? && p.legacySince.value > now - 3600)
  }

  /** Since the baseline a run was started that failed or is still applying. */
  ghost predicate MayHaveWritten(p: PairState) {
    p.baseline.Some? && exists r :: r in p.runs && p.runs[r].startedAt >= p.baseline.value.synchronizedAt
                                    && (p.runs[r].status == Protocol.Failed || p.runs[r].status == Protocol.Applying)
  }

  /** No hold applies, so a review is prepared. */
  ghost predicate Clear(p: PairState, now: int) {
    p.enabled && p.consented && !AskedToWait(p, now) && p.baseline.Some? && !MayHaveWritten(p)
  }

  /** The review needs no operator. */
  ghost predicate Safe(b: Baseline, r: Review) {
    && !r.baselineUpgrade && r.plan.initialPolicy == None && r.plan.conflicts == [] && r.plan.actions != []
    && WithinBounds(r.plan.actions, b)
  }

  lemma RemovalsCounted(actions: seq<Action>, side: Side)
    ensures |RemovalPlaces(actions, side)| == RemovalsOn(actions, side)
  {
    PlacesCounted(RemovesOn(side), actions);
    assert RemovalPlaces(actions, side) == Places(RemovesOn(side), actions);
  }

  lemma BoundsAreModest(actions: seq<Action>, b: Baseline)
    ensures WithinBounds(actions, b)
            <==> forall side :: Modest(RemovalsOn(actions, side), |SideOf(b.source, b.target, side)|)
  {
    RemovalsCounted(actions, Source);
    RemovalsCounted(actions, Target);
    assert Modest(RemovalsOn(actions, Source), |b.source|) <==> WithinBound(RemovalsOn(actions, Source), |b.source|);
    assert Modest(RemovalsOn(actions, Target), |b.target|) <==> WithinBound(RemovalsOn(actions, Target), |b.target|);
    if WithinBounds(actions, b) {
      forall side: Side ensures Modest(RemovalsOn(actions, side), |SideOf(b.source, b.target, side)|) {
        assert side == Source || side == Target;
      }
    } else {
      assert SideOf(b.source, b.target, Source) == b.source && SideOf(b.source, b.target, Target) == b.target;
    }
  }

  lemma WaitIsAsked(p: PairState, now: int)
    ensures RetryPending(p, now) <==> AskedToWait(p, now)
  {
    if Health.IncidentPending(p.sourceIncidents, p.name, now) {
      var n :| 0 <= n < |p.sourceIncidents| && Health.Concerns(p.sourceIncidents[n], p.name)
               && p.sourceIncidents[n].retryAt > now;
      assert p.sourceIncidents[n] in p.sourceIncidents;
    }
    if Health.IncidentPending(p.targetIncidents, p.name, now) {
      var n :| 0 <= n < |p.targetIncidents| && Health.Concerns(p.targetIncidents[n], p.name)
               && p.targetIncidents[n].retryAt > now;
      assert p.targetIncidents[n] in p.targetIncidents;
    }
  }

  /** The holds and the bounds, said of incidents, runs and places in the plan. */
  lemma SafeIff(p: PairState, now: int, r: Review)
    ensures MayPrepare(p, now) <==> Clear(p, now)
    ensures p.baseline.Some? ==> (MayApply(p.baseline.value.contents, r) <==> Safe(p.baseline.value.contents, r))
  {
    WaitIsAsked(p, now);
    if p.baseline.Some? {
      BoundsAreModest(r.plan.actions, p.baseline.value.contents);
    }
  }

  /** Which calls an evaluation made. */
  class Evaluation {
    var prepared: bool
    var applied: Option<Plan>

    constructor ()
      ensures !prepared && applied.None?
    {
      prepared, applied := false, None;
    }

    /** The first side with too many removals stops the evaluation. */
    method BulkRemovals(actions: seq<Action>, before: Baseline) returns (bulk: bool)
      ensures bulk <==> exists side :: !Modest(RemovalsOn(actions, side), |SideOf(before.source, before.target, side)|)
      ensures bulk <==> !WithinBounds(actions, before)
    {
      BoundsAreModest(actions, before);
      bulk := false;
      var sides := [Source, Target];
      for i := 0 to 2
        invariant !bulk
        invariant forall j :: 0 <= j < i
                    ==> Modest(RemovalsOn(actions, sides[j]), |SideOf(before.source, before.target, sides[j])|)
      {
        var removed, n := RemovalsOn(actions, sides[i]), |SideOf(before.source, before.target, sides[i])|;
        if removed != 0 && (removed >= n || removed > Min(10, Max(1, n / 4))) {
          return true;
        }
      }
      forall side: Side ensures Modest(RemovalsOn(actions, side), |SideOf(before.source, before.target, side)|) {
        assert side == sides[0] || side == sides[1];
      }
    }

    /** From a prepared review on. */
    method FinishEvaluation(before: Baseline, r: Review, applyRaises: bool) returns (outcome: Outcome)
      requires applied.None?
      modifies this`applied
      ensures applied == if MayApply(before, r) then Some(r.plan) else None
      ensures ExplainsReview(outcome, before, r, applyRaises)
    {
      if r.baselineUpgrade || r.plan.initialPolicy.Some? {
        return BaselineReviewRequired;
      }
      if r.plan.conflicts != [] {
        return ConflictReviewRequired;
      }
      if r.plan.actions == [] {
        return UpToDate;
      }
      var bulk := BulkRemovals(r.plan.actions, before);
      if bulk {
        return BulkReviewRequired;
      }
      applied := Some(r.plan);
      if applyRaises {
        outcome := Raised;
      } else if r.unresolved != 0 {
        outcome := AppliedWithUnmatched(r.unresolved);
      } else if r.autoMatches != 0 {
        outcome := AppliedWithMatches(r.autoMatches);
      } else {
        outcome := AppliedCleanly;
      }
    }

    /** A review is prepared exactly when no hold applies, and applied exactly when it is modest,
        conflict-free, not a first sync, and not empty. */
    method RunAutomaticPair(p: PairState, now: int, preparation: Preparation, applyRaises: bool)
      returns (outcome: Outcome)
      requires !prepared && applied.None?
      modifies this
      ensures prepared <==> MayPrepare(p, now)
      ensures applied == if MayPrepare(p, now) && preparation.Reviewed?
                            && MayApply(p.baseline.value.contents, preparation.review)
                         then Some(preparation.review.plan) else None
      ensures Explains(outcome, p, now, preparation, applyRaises)
      ensures prepared <==> Clear(p, now)
      ensures applied == if Clear(p, now) && preparation.Reviewed?
                            && Safe(p.baseline.value.contents, preparation.review)
                         then Some(preparation.review.plan) else None
      ensures outcome == ProviderRetryPending <==> p.enabled && p.consented && AskedToWait(p, now)
      ensures outcome == RecoveryRequired
              <==> p.enabled && p.consented && !AskedToWait(p, now) && MayHaveWritten(p)
    {
      SafeIff(p, now, if preparation.Reviewed? then preparation.review else EMPTY_REVIEW);
      if !p.enabled || !p.consented {
        return Disabled;
      }
      if RetryPending(p, now) {
        return ProviderRetryPending;
      }
      if p.baseline.None? {
        return FirstSyncRequired;
      }
      if UncertainRun(p, p.baseline.value) {
        return RecoveryRequired;
      }
      prepared := true;
      if preparation.PreparationRaised? {
        return Raised;
      }
      outcome := FinishEvaluation(p.baseline.value.contents, preparation.review, applyRaises);
    }
  }

  /** Which hold, or which end, each outcome reports. */
  predicate Explains(outcome: Outcome, p: PairState, now: int, preparation: Preparation, applyRaises: bool) {
    if !p.enabled || !p.consented then outcome.Disabled?
    else if RetryPending(p, now) then outcome.ProviderRetryPending?
    else if p.baseline.None? then outcome.FirstSyncRequired?
    else if UncertainRun(p, p.baseline.value) then outcome.RecoveryRequired?
    else if preparation.PreparationRaised? then outcome.Raised?
    else ExplainsReview(outcome, p.baseline.value.contents, preparation.review, applyRaises)
  }

  predicate ExplainsReview(outcome: Outcome, before: Baseline, r: Review, applyRaises: bool) {
    var first := r.baselineUpgrade || r.plan.initialPolicy.Some?;
    && (outcome.BaselineReviewRequired? <==> first)
    && (outcome.ConflictReviewRequired? <==> !first && r.plan.conflicts != [])
    && (outcome.UpToDate? <==> !first && r.plan.conflicts == [] && r.plan.actions == [])
    && (outcome.BulkReviewRequired?
        <==> !first && r.plan.conflicts == [] && r.plan.actions != [] && !MayApply(before, r))
    && (outcome.Raised? <==> MayApply(before, r) && applyRaises)
    && (MayApply(before, r) && !applyRaises ==>
          outcome == if r.unresolved > 0 then AppliedWithUnmatched(r.unresolved)
                     else if r.autoMatches > 0 then AppliedWithMatches(r.autoMatches) else AppliedCleanly)
  }

  // ---- When no evaluation prepares a review ---------------------------------------------------------

  /** The pair's row, baseline and runs as the protocol sees them. */
  predicate Mirrors(p: PairState, s: Protocol.State) {
    && p.runs == s.runs && (p.baseline.Some? <==> s.baselines != [])
    && (p.baseline.Some? ==> p.baseline.value.synchronizedAt == s.baselines[|s.baselines| - 1])
  }

  /** The check for uncertain runs is the one by which an automatic evaluation starts in the protocol. */
  lemma SameHold(p: PairState, s: Protocol.State)
    requires Mirrors(p, s)
    ensures Protocol.MayStart(s) <==> p.baseline.Some? && !UncertainRun(p, p.baseline.value)
  {
  }

  /** A pair that nothing but its runs and baselines can hold. */
  function Unhindered(s: Protocol.State): (p: PairState)
    ensures Mirrors(p, s)
  {
    var saved := if s.baselines == [] then None
                 else Some(SavedBaseline(Baseline([], []), s.baselines[|s.baselines| - 1]));
    PairState(Name(0), true, true, [], [], None, saved, s.runs)
  }

  /** Without a new baseline no evaluation of the pair, at any later time, prepares a review. */
  ghost predicate NeverPrepares(s: Protocol.State) {
    forall steps, p, now ::
      (&& Protocol.Run(s, steps) && |Protocol.Final(s, steps).baselines| == |s.baselines|
       && Mirrors(p, Protocol.Final(s, steps))) ==>
        !MayPrepare(p, now)
  }

  /** In every reachable state: no evaluation prepares a review before a new baseline is saved if and only
      if there is no baseline yet or some run blocks permanently. */
  lemma PairHeldIff(now: int, before: seq<Protocol.Step>, s: Protocol.State)
    requires Protocol.Run(Protocol.Start(now), before) && s == Protocol.Final(Protocol.Start(now), before)
    ensures NeverPrepares(s) <==> s.baselines == [] || exists r :: Hold.Permanent(s, r)
  {
    Hold.AutomaticHoldIff(now, before, s);
    if Hold.HeldForever(s) {
      forall steps, p, at | Protocol.Run(s, steps) && |Protocol.Final(s, steps).baselines| == |s.baselines|
        && Mirrors(p, Protocol.Final(s, steps)) && MayPrepare(p, at)
        ensures false
      {
        SameHold(p, Protocol.Final(s, steps));
      }
    } else {
      var steps :| Protocol.Run(s, steps) && |Protocol.Final(s, steps).baselines| == |s.baselines|
        && Protocol.MayStart(Protocol.Final(s, steps));
      var p := Unhindered(Protocol.Final(s, steps));
      SameHold(p, Protocol.Final(s, steps));
      assert MayPrepare(p, now);
    }
  }

  // ---- What an automatic apply sends ------------------------------------------------------------

  /** The removals on a side that were sent, by their places in the plan. */
  function SentRemovals(events: seq<Event>, actions: seq<Action>, side: Side): set<nat> {
    set e | e in events && e.Sent? && e.ordinal in RemovalPlaces(actions, side) :: e.ordinal
  }

  lemma FewerPlaces(s: set<nat>, t: set<nat>)
    requires s <= t
    ensures |s| <= |t|
  {
    if s != t {
      var i :| i in t && i !in s;
      FewerPlaces(s, t - {i});
    }
  }

  /** Whatever the providers, the lease and the database do during an automatic apply, it sends no action twice, and
      on a side with n tracks in the baseline it sends at most ten removals and at most n / 4, but always one, and
      fewer than n if any. */
  lemma AutomaticRemovalsAreModest(before: Baseline, r: Review, res: Resolutions, env: Env, approved: bool,
                                   source: Option<Name>, target: Option<Name>, side: Side)
    requires MayApply(before, r)
    ensures var log := Execution(r.plan.actions, res, env, approved, true, false, source, target).events;
            && (forall m, n :: 0 <= m < n < |log| && log[m].Sent? && log[n].Sent? ==>
                  log[m].ordinal != log[n].ordinal)
            && WithinBound(|SentRemovals(log, r.plan.actions, side)|, |SideOf(before.source, before.target, side)|)
  {
    var log := Execution(r.plan.actions, res, env, approved, true, false, source, target).events;
    LogIsWellOrdered(r.plan.actions, res, env, approved, true, false, source, target);
    BoundsAreModest(r.plan.actions, before);
    FewerPlaces(SentRemovals(log, r.plan.actions, side), RemovalPlaces(r.plan.actions, side));
  }
}
