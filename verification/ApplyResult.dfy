/** What the acknowledged writes of an apply do to the counts of a playlist. */
module ApplyResult {
  import opened Prelude
  import opened Playlists
  import opened Reconciliation
  import opened PlanCounts
  import opened TrackIdentity
  import opened Executor

  /** The actions with the given ordinals, in that order. */
  function Chosen(actions: seq<Action>, ordinals: seq<nat>): seq<Action>
    requires Below(ordinals, |actions|)
  {
    seq(|ordinals|, j requires 0 <= j < |ordinals| => actions[ordinals[j]])
  }

  lemma FilterPush<T>(p: T -> bool, xs: seq<T>, x: T)
    ensures |Filter(p, xs + [x])| == |Filter(p, xs)| + if p(x) then 1 else 0
  {
    FilterAppend(p, xs, [x]);
    FilterOne(p, x);
  }

  lemma {:induction false} FilterMonotone<T>(p: T -> bool, xs: seq<T>, m: nat, n: nat)
    requires m <= n <= |xs|
    ensures |Filter(p, xs[..m])| <= |Filter(p, xs[..n])|
    decreases n
  {
    if m < n {
      FilterMonotone(p, xs, m, n - 1);
      assert xs[..n] == xs[..n - 1] + [xs[n - 1]];
      FilterPush(p, xs[..n - 1], xs[n - 1]);
    }
  }

  /** Increasing ordinals choose no action twice. */
  lemma {:induction false} ChosenAtMost(p: Action -> bool, actions: seq<Action>, ordinals: seq<nat>, n: nat)
    requires Increasing(ordinals) && Below(ordinals, n) && n <= |actions|
    ensures |Filter(p, Chosen(actions, ordinals))| <= |Filter(p, actions[..n])|
  {
    if ordinals != [] {
      var front, last := ordinals[..|ordinals| - 1], ordinals[|ordinals| - 1];
      assert Below(front, last) by {
        forall i | 0 <= i < |front| ensures front[i] < last {
          assert ordinals[i] < ordinals[|ordinals| - 1];
        }
      }
      ChosenAtMost(p, actions, front, last);
      assert Chosen(actions, ordinals) == Chosen(actions, front) + [actions[last]];
      FilterPush(p, Chosen(actions, front), actions[last]);
      assert actions[..last + 1] == actions[..last] + [actions[last]];
      FilterPush(p, actions[..last], actions[last]);
      FilterMonotone(p, actions, last + 1, n);
    }
  }

  lemma ChosenRemovesLive(actions: seq<Action>, ordinals: seq<nat>, side: Side, tracks: seq<Track>)
    requires Increasing(ordinals) && Below(ordinals, |actions|) && RemovesLive(actions, side, tracks)
    ensures RemovesLive(Chosen(actions, ordinals), side, tracks)
  {
    forall t ensures Times(Chosen(actions, ordinals), side, RemoveTrack, t) <= multiset(tracks)[t] {
      ChosenAtMost(Names(side, RemoveTrack, t), actions, ordinals, |actions|);
      assert actions[..|actions|] == actions;
      assert Times(actions, side, RemoveTrack, t) <= multiset(tracks)[t];
    }
  }

  lemma {:induction false} SendsOfPlan(events: seq<Event>, actions: seq<Action>, res: Resolutions, env: Env,
                                      source: Option<Name>, target: Option<Name>)
    requires AllAsReviewed(events, actions, res, env, source, target)
    ensures Below(TallyOf(events).sends, |actions|)
  {
    if events != [] {
      SendsOfPlan(events[..|events| - 1], actions, res, env, source, target);
    }
  }

  /** The log of an apply of a plan. */
  function LogOf(plan: Plan, res: Resolutions, env: Env, approved: bool, skipUnresolved: bool, failOnUnavailable: bool,
                 source: Option<Name>, target: Option<Name>): seq<Event>
  {
    Execution(plan.actions, res, env, approved, skipUnresolved, failOnUnavailable, source, target).events
  }

  lemma SentOrdinals(plan: Plan, res: Resolutions, env: Env, approved: bool, skipUnresolved: bool,
                     failOnUnavailable: bool, source: Option<Name>, target: Option<Name>)
    ensures var t := TallyOf(LogOf(plan, res, env, approved, skipUnresolved, failOnUnavailable, source, target));
            Sound(t) && Below(t.sends, |plan.actions|)
  {
    var events := LogOf(plan, res, env, approved, skipUnresolved, failOnUnavailable, source, target);
    EveryApplyIsSound(plan.actions, res, env, approved, skipUnresolved, failOnUnavailable, source, target, |events|);
    assert events[..|events|] == events;
    ExecutionAsReviewed(plan.actions, res, env, approved, skipUnresolved, failOnUnavailable, source, target);
    SendsOfPlan(events, plan.actions, res, env, source, target);
  }

  lemma AcknowledgedOrdinals(plan: Plan, res: Resolutions, env: Env, approved: bool, skipUnresolved: bool,
                             failOnUnavailable: bool, source: Option<Name>, target: Option<Name>)
    ensures var acks := TallyOf(LogOf(plan, res, env, approved, skipUnresolved, failOnUnavailable,
                                      source, target)).acks;
            Increasing(acks) && Below(acks, |plan.actions|)
  {
    SentOrdinals(plan, res, env, approved, skipUnresolved, failOnUnavailable, source, target);
    var t := TallyOf(LogOf(plan, res, env, approved, skipUnresolved, failOnUnavailable, source, target));
    forall i | 0 <= i < |t.acks| ensures t.acks[i] < |plan.actions| {
      assert t.acks[i] in t.acks;
    }
  }

  /** Whatever is skipped, refused or cut short: a playlist that only the acknowledged writes of a
      reconciliation plan changed holds, for every key, its count before plus the acknowledged additions
      minus the acknowledged removals. */
  lemma AcknowledgedCounts(b: Option<Baseline>, source: seq<Track>, target: seq<Track>, policy: Policy, mode: Mode,
                           res: Resolutions, env: Env, approved: bool, skipUnresolved: bool, failOnUnavailable: bool,
                           s: Option<Name>, t: Option<Name>, side: Side, k: Key)
    ensures var plan := PlanFor(b, source, target, policy, mode);
            var acks := TallyOf(LogOf(plan, res, env, approved, skipUnresolved, failOnUnavailable, s, t)).acks;
            && Below(acks, |plan.actions|)
            && var done := Chosen(plan.actions, acks);
               Count(Applied(done, side, SideOf(source, target, side)), k)
               == Count(SideOf(source, target, side), k)
                 + Num(done, side, AddTrack, k) - Num(done, side, RemoveTrack, k)
  {
    var plan := PlanFor(b, source, target, policy, mode);
    AcknowledgedOrdinals(plan, res, env, approved, skipUnresolved, failOnUnavailable, s, t);
    var acks := TallyOf(LogOf(plan, res, env, approved, skipUnresolved, failOnUnavailable, s, t)).acks;
    PlanRemovesLive(b, source, target, policy, mode, side);
    ChosenRemovesLive(plan.actions, acks, side, SideOf(source, target, side));
    AppliedCounts(Chosen(plan.actions, acks), side, SideOf(source, target, side), k);
  }
}
