/** What reconciliation promises: closed forms, convergence, one direction per key, symmetry. */
module ReconciliationTheorems {
  import opened Prelude
  import opened StableSort
  import opened Playlists
  import opened Reconciliation
  import opened PlanCounts

  /** The side's playlist once the whole plan has been applied. */
  function After(plan: Plan, source: seq<Track>, target: seq<Track>, side: Side): seq<Track> {
    Applied(plan.actions, side, SideOf(source, target, side))
  }

  /** Of two changes to a count, the one of larger magnitude. */
  function Larger(d: int, e: int): int {
    if (if d < 0 then -d else d) >= (if e < 0 then -e else e) then d else e
  }

  // ---- Conflicts ----------------------------------------------------------------------

  ghost predicate NoIsrcClash(b: Baseline, source: seq<Track>, target: seq<Track>) {
    var v := ViewOf(b, source, target);
    forall i :: i in v.Shared() ==> !v.Clash(i)
  }

  lemma {:induction false} NoClashSuppressesNothing(v: IsrcView, isrcs: seq<Isrc>)
    requires forall i :: i in isrcs ==> i in v.Shared() && !v.Clash(i)
    ensures v.SuppressedBy(isrcs) == {}
  {
    if isrcs != [] {
      NoClashSuppressesNothing(v, isrcs[..|isrcs| - 1]);
      assert isrcs[|isrcs| - 1] in isrcs;
    }
  }

  lemma CollectNonempty<T>(keys: seq<Key>, f: Key -> seq<T>, k: Key)
    requires k in keys && f(k) != []
    ensures Collect(keys, f) != []
  {
    if keys[|keys| - 1] != k {
      assert keys == keys[..|keys| - 1] + [keys[|keys| - 1]];
      CollectNonempty(keys[..|keys| - 1], f, k);
    }
  }

  /** A two-way plan is free of conflicts exactly when no recording was re-keyed differently on
      both sides and no key was changed in opposite directions. */
  lemma ConflictFree(b: Baseline, source: seq<Track>, target: seq<Track>)
    ensures TwoWayConflicts(b, source, target) == []
            <==> NoIsrcClash(b, source, target) && forall k :: !Opposed(b, source, target, k)
    ensures NoIsrcClash(b, source, target) ==> ViewOf(b, source, target).Suppressed() == {}
  {
    var v := ViewOf(b, source, target);
    var isrcs := SortedSeq(v.Shared());
    var f := (i: Isrc) => v.ConflictsAt(i);
    var g := ConflictBlock(b, source, target, v.Suppressed());
    var keys := ChangedKeys(b, source, target);
    if NoIsrcClash(b, source, target) {
      NoClashSuppressesNothing(v, isrcs);
      CollectEmpty(isrcs, f);
      if forall k :: !Opposed(b, source, target, k) {
        CollectEmpty(keys, g);
      } else {
        var k :| Opposed(b, source, target, k);
        ChangedKey(b, source, target, k);
        CollectNonempty(keys, g, k);
      }
    } else {
      var i :| i in v.Shared() && v.Clash(i);
      CollectNonempty(isrcs, f, i);
    }
  }

  lemma NothingOpposed(b: Baseline, source: seq<Track>, target: seq<Track>, k: Key)
    requires TwoWayConflicts(b, source, target) == []
    ensures !Opposed(b, source, target, k) && k !in ViewOf(b, source, target).Suppressed()
  {
    ConflictFree(b, source, target);
  }

  // ---- Closed forms ---------------------------------------------------------------------

  /** The arithmetic of one key in two-way mode, from one side's point of view. */
  lemma MergeArithmetic(mineBefore: nat, mineNow: nat, otherBefore: nat, otherNow: nat)
    requires !(Monus(mineNow, mineBefore) > 0 && Monus(otherBefore, otherNow) > 0)
    requires !(Monus(mineBefore, mineNow) > 0 && Monus(otherNow, otherBefore) > 0)
    ensures mineNow + Monus(Monus(otherNow, otherBefore), Monus(mineNow, mineBefore))
            - Min(Monus(Monus(otherBefore, otherNow), Monus(mineBefore, mineNow)), mineNow)
            == Max(0, mineBefore + Larger(mineNow - mineBefore, otherNow - otherBefore))
  {
  }

  /** It does not matter which side's change comes first, unless they cancel out. */
  lemma LargerEitherWay(x: int, y: int)
    requires !(x > 0 && y < 0) && !(x < 0 && y > 0)
    ensures Larger(x, y) == Larger(y, x)
  {
  }

  /** The outcome for one side, with the two changes named by playlist. */
  lemma MergeOfSides(b: Baseline, source: seq<Track>, target: seq<Track>, side: Side, k: Key)
    requires !Opposed(b, source, target, k)
    ensures var mineBefore, otherBefore :=
              Count(SideOf(b.source, b.target, side), k), Count(SideOf(b.source, b.target, Other(side)), k);
            var mineNow, otherNow :=
              Count(SideOf(source, target, side), k), Count(SideOf(source, target, Other(side)), k);
            mineNow + Monus(Monus(otherNow, otherBefore), Monus(mineNow, mineBefore))
            - Min(Monus(Monus(otherBefore, otherNow), Monus(mineBefore, mineNow)), mineNow)
            == Max(0, mineBefore + Larger(Count(source, k) - Count(b.source, k), Count(target, k) - Count(b.target, k)))
  {
    MergeArithmetic(Count(SideOf(b.source, b.target, side), k), Count(SideOf(source, target, side), k),
                    Count(SideOf(b.source, b.target, Other(side)), k), Count(SideOf(source, target, Other(side)), k));
    LargerEitherWay(Count(source, k) - Count(b.source, k), Count(target, k) - Count(b.target, k));
  }

  /** Once both counts moved by the larger change, neither side has anything left to do. */
  lemma SettledArithmetic(mineBefore: nat, otherBefore: nat, d: int)
    ensures var mine, other := Max(0, mineBefore + d), Max(0, otherBefore + d);
            && Monus(Monus(other, otherBefore), Monus(mine, mineBefore)) == 0
            && Min(Monus(Monus(otherBefore, other), Monus(mineBefore, mine)), mine) == 0
            && !(Monus(mine, mineBefore) > 0 && Monus(otherBefore, other) > 0)
            && !(Monus(mineBefore, mine) > 0 && Monus(other, otherBefore) > 0)
  {
  }

  /** The two-way rules for one side, in terms of its own and the other side's counts. */
  lemma TwoWayPlanned(b: Baseline, source: seq<Track>, target: seq<Track>, policy: Policy, side: Side, k: Key)
    requires k !in ViewOf(b, source, target).Suppressed() && !Opposed(b, source, target, k)
    ensures var mineBefore, otherBefore :=
              Count(SideOf(b.source, b.target, side), k), Count(SideOf(b.source, b.target, Other(side)), k);
            var mineNow, otherNow :=
              Count(SideOf(source, target, side), k), Count(SideOf(source, target, Other(side)), k);
            && PlannedNum(Some(b), source, target, policy, TwoWay, side, AddTrack, k)
               == Monus(Monus(otherNow, otherBefore), Monus(mineNow, mineBefore))
            && PlannedNum(Some(b), source, target, policy, TwoWay, side, RemoveTrack, k)
               == Min(Monus(Monus(otherBefore, otherNow), Monus(mineBefore, mineNow)), mineNow)
  {
  }

  /** Applying a conflict-free two-way plan leaves every key, on each side, at that side's baseline
      count plus the larger of the two sides' changes, never below zero. */
  lemma TwoWayClosedForm(b: Baseline, source: seq<Track>, target: seq<Track>, policy: Policy, side: Side, k: Key)
    requires PlanFor(Some(b), source, target, policy, TwoWay).conflicts == []
    ensures Count(After(PlanFor(Some(b), source, target, policy, TwoWay), source, target, side), k)
            == Max(0, Count(SideOf(b.source, b.target, side), k)
                      + Larger(Count(source, k) - Count(b.source, k), Count(target, k) - Count(b.target, k)))
  {
    NothingOpposed(b, source, target, k);
    TwoWayResult(b, source, target, policy, side, k);
    MergeOfSides(b, source, target, side, k);
  }

  lemma TwoWayResult(b: Baseline, source: seq<Track>, target: seq<Track>, policy: Policy, side: Side, k: Key)
    requires k !in ViewOf(b, source, target).Suppressed() && !Opposed(b, source, target, k)
    ensures var mineBefore, otherBefore :=
              Count(SideOf(b.source, b.target, side), k), Count(SideOf(b.source, b.target, Other(side)), k);
            var mineNow, otherNow :=
              Count(SideOf(source, target, side), k), Count(SideOf(source, target, Other(side)), k);
            Count(After(PlanFor(Some(b), source, target, policy, TwoWay), source, target, side), k)
            == mineNow + Monus(Monus(otherNow, otherBefore), Monus(mineNow, mineBefore))
               - Min(Monus(Monus(otherBefore, otherNow), Monus(mineBefore, mineNow)), mineNow)
  {
    TwoWayPlanned(b, source, target, policy, side, k);
    PlanResult(Some(b), source, target, policy, TwoWay, side, k);
  }

  lemma FollowTargetsOnly(b: Baseline, source: seq<Track>, target: seq<Track>, policy: Policy, a: Action)
    requires a in PlanFor(Some(b), source, target, policy, SourceToTarget).actions
    ensures a.side == Target
  {
    var f := FollowBlock(b, source, target);
    ActionOrder();
    SortMembers(ActionLe, FollowActions(b, source, target), a);
    CollectMembers(ChangedKeys(b, source, target), f, a);
    var k :| k in ChangedKeys(b, source, target) && a in f(k);
    FollowKeyMembers(b, source, target, k);
  }

  /** The follow-source rules for one key, on counts alone. */
  lemma FollowArithmetic(sourceBefore: nat, sourceNow: nat, targetBefore: nat, targetNow: nat)
    ensures var adds := Monus(Monus(sourceNow, sourceBefore), Monus(targetNow, targetBefore))
                        + Monus(Monus(targetBefore, targetNow), Monus(sourceBefore, sourceNow));
            var drops := Monus(Monus(sourceBefore, sourceNow), Monus(targetBefore, targetNow))
                         + Monus(Monus(targetNow, targetBefore), Monus(sourceNow, sourceBefore));
            targetNow + (if sourceNow == 0 && sourceBefore == 0 then 0 else adds) - Min(drops, targetNow)
            == if sourceNow > 0 || sourceBefore > 0 then Max(0, targetBefore + sourceNow - sourceBefore)
               else Min(targetNow, targetBefore)
  {
  }

  /** The follow-source rules in terms of counts. */
  lemma FollowPlanned(b: Baseline, source: seq<Track>, target: seq<Track>, policy: Policy, k: Key)
    ensures var sourceBefore, sourceNow := Count(b.source, k), Count(source, k);
            var targetBefore, targetNow := Count(b.target, k), Count(target, k);
            && PlannedNum(Some(b), source, target, policy, SourceToTarget, Target, AddTrack, k)
               == (if sourceNow == 0 && sourceBefore == 0 then 0
                   else Monus(Monus(sourceNow, sourceBefore), Monus(targetNow, targetBefore))
                        + Monus(Monus(targetBefore, targetNow), Monus(sourceBefore, sourceNow)))
            && PlannedNum(Some(b), source, target, policy, SourceToTarget, Target, RemoveTrack, k)
               == Min(Monus(Monus(sourceBefore, sourceNow), Monus(targetBefore, targetNow))
                      + Monus(Monus(targetNow, targetBefore), Monus(sourceNow, sourceBefore)), targetNow)
  {
    assert Count(source, k) == |Group(source, k)| && Count(b.source, k) == |Group(b.source, k)|;
  }

  lemma FollowTargetCount(b: Baseline, source: seq<Track>, target: seq<Track>, policy: Policy, k: Key)
    ensures Count(After(PlanFor(Some(b), source, target, policy, SourceToTarget), source, target, Target), k)
            == if Count(source, k) > 0 || Count(b.source, k) > 0
               then Max(0, Count(b.target, k) + Count(source, k) - Count(b.source, k))
               else Min(Count(target, k), Count(b.target, k))
  {
    PlanResult(Some(b), source, target, policy, SourceToTarget, Target, k);
    FollowPlanned(b, source, target, policy, k);
    FollowArithmetic(Count(b.source, k), Count(source, k), Count(b.target, k), Count(target, k));
  }

  /** Follow-source mode never touches the source. The target ends at its baseline count plus the
      source's change for keys the source has or had, and never above its baseline for others. */
  lemma FollowSourceClosedForm(b: Baseline, source: seq<Track>, target: seq<Track>, policy: Policy, k: Key)
    ensures var plan := PlanFor(Some(b), source, target, policy, SourceToTarget);
            && (forall a :: a in plan.actions ==> a.side == Target)
            && After(plan, source, target, Source) == source
            && Count(After(plan, source, target, Target), k)
               == if Count(source, k) > 0 || Count(b.source, k) > 0
                  then Max(0, Count(b.target, k) + Count(source, k) - Count(b.source, k))
                  else Min(Count(target, k), Count(b.target, k))
  {
    var plan := PlanFor(Some(b), source, target, policy, SourceToTarget);
    forall a | a in plan.actions ensures a.side == Target {
      FollowTargetsOnly(b, source, target, policy, a);
    }
    UntouchedSide(plan.actions, Source, source);
    FollowTargetCount(b, source, target, policy, k);
  }

  lemma {:induction false} UntouchedSide(actions: seq<Action>, side: Side, tracks: seq<Track>)
    requires forall a :: a in actions ==> a.side != side
    ensures Applied(actions, side, tracks) == tracks
    decreases |actions|
  {
    if actions != [] {
      assert actions[0] in actions;
      UntouchedSide(actions[1..], side, tracks);
    }
  }

  /** A first sync removes nothing and lifts each side it may write to up to the other's count. */
  lemma FirstSyncClosedForm(source: seq<Track>, target: seq<Track>, policy: Policy, mode: Mode, k: Key)
    ensures var plan := PlanFor(None, source, target, policy, mode);
            var p := if mode == SourceToTarget then SourceAuthoritative else policy;
            && plan.initialPolicy == Some(p) && plan.conflicts == []
            && (forall a :: a in plan.actions ==> a.kind == AddTrack)
            && Count(After(plan, source, target, Target), k)
               == (if p == Merge || p == SourceAuthoritative then Max(Count(source, k), Count(target, k))
                   else Count(target, k))
            && Count(After(plan, source, target, Source), k)
               == (if p == Merge || p == TargetAuthoritative then Max(Count(source, k), Count(target, k))
                   else Count(source, k))
  {
    var p := EffectivePolicy(policy, mode);
    var plan := PlanFor(None, source, target, policy, mode);
    var f := InitialBlock(source, target, p);
    forall a | a in plan.actions ensures a.kind == AddTrack {
      ActionOrder();
      SortMembers(ActionLe, InitialActions(source, target, p), a);
      CollectMembers(SortedSeq(Keys(source) + Keys(target)), f, a);
      var k' :| k' in SortedSeq(Keys(source) + Keys(target)) && a in f(k');
      InitialKeyMembers(source, target, p, k');
    }
    PlanResult(None, source, target, policy, mode, Target, k);
    PlanResult(None, source, target, policy, mode, Source, k);
  }

  // ---- Convergence --------------------------------------------------------------------------

  lemma SomeNum(actions: seq<Action>)
    requires actions != []
    ensures Num(actions, actions[0].side, actions[0].kind, actions[0].track.key) > 0
  {
    NumStep(actions, actions[0].side, actions[0].kind, actions[0].track.key);
  }

  lemma NoNumNoActions(actions: seq<Action>)
    requires forall side, kind, k :: Num(actions, side, kind, k) == 0
    ensures actions == []
  {
    if actions != [] {
      SomeNum(actions);
    }
  }

  /** The counts of one key, on both sides, that a conflict-free plan leaves. */
  ghost predicate Settled(b: Option<Baseline>, source: seq<Track>, target: seq<Track>, policy: Policy, mode: Mode,
                          s: seq<Track>, t: seq<Track>, k: Key)
  {
    match b
    case None =>
      var p := EffectivePolicy(policy, mode);
      && Count(t, k) == (if p == Merge || p == SourceAuthoritative then Max(Count(source, k), Count(target, k))
                         else Count(target, k))
      && Count(s, k) == (if p == Merge || p == TargetAuthoritative then Max(Count(source, k), Count(target, k))
                         else Count(source, k))
    case Some(base) =>
      if mode.SourceToTarget? then
        && s == source
        && Count(t, k) == if Count(source, k) > 0 || Count(base.source, k) > 0
                          then Max(0, Count(base.target, k) + Count(source, k) - Count(base.source, k))
                          else Min(Count(target, k), Count(base.target, k))
      else
        var d := Larger(Count(source, k) - Count(base.source, k), Count(target, k) - Count(base.target, k));
        Count(s, k) == Max(0, Count(base.source, k) + d) && Count(t, k) == Max(0, Count(base.target, k) + d)
  }

  lemma PlanSettles(b: Option<Baseline>, source: seq<Track>, target: seq<Track>, policy: Policy, mode: Mode, k: Key)
    requires PlanFor(b, source, target, policy, mode).conflicts == []
    ensures var plan := PlanFor(b, source, target, policy, mode);
            Settled(b, source, target, policy, mode, After(plan, source, target, Source),
                    After(plan, source, target, Target), k)
  {
    match b
    case None => FirstSyncClosedForm(source, target, policy, mode, k);
    case Some(base) =>
      if mode.SourceToTarget? {
        FollowSourceClosedForm(base, source, target, policy, k);
      } else {
        TwoWaySettles(base, source, target, policy, k);
      }
  }

  lemma TwoWaySettles(b: Baseline, source: seq<Track>, target: seq<Track>, policy: Policy, k: Key)
    requires PlanFor(Some(b), source, target, policy, TwoWay).conflicts == []
    ensures var plan := PlanFor(Some(b), source, target, policy, TwoWay);
            Settled(Some(b), source, target, policy, TwoWay, After(plan, source, target, Source),
                    After(plan, source, target, Target), k)
  {
    var plan := PlanFor(Some(b), source, target, policy, TwoWay);
    TwoWayClosedForm(b, source, target, policy, Source, k);
    TwoWayClosedForm(b, source, target, policy, Target, k);
    SettledFromCounts(b, source, target, policy, After(plan, source, target, Source),
                      After(plan, source, target, Target), k);
  }

  lemma SettledFromCounts(b: Baseline, source: seq<Track>, target: seq<Track>, policy: Policy, s: seq<Track>,
                          t: seq<Track>, k: Key)
    requires var d := Larger(Count(source, k) - Count(b.source, k), Count(target, k) - Count(b.target, k));
             Count(s, k) == Max(0, Count(b.source, k) + d) && Count(t, k) == Max(0, Count(b.target, k) + d)
    ensures Settled(Some(b), source, target, policy, TwoWay, s, t, k)
  {
  }

  /** On such counts the same rules ask for nothing more. */
  lemma SettledNum(b: Option<Baseline>, source: seq<Track>, target: seq<Track>, policy: Policy, mode: Mode,
                   s: seq<Track>, t: seq<Track>, side: Side, kind: ActionType, k: Key)
    requires Settled(b, source, target, policy, mode, s, t, k)
    ensures PlannedNum(b, s, t, policy, mode, side, kind, k) == 0
    ensures b.Some? && mode.TwoWay? ==> !Opposed(b.value, s, t, k)
  {
    if b.Some? && mode.TwoWay? {
      SettledAt(b.value, s, t, policy,
                Larger(Count(source, k) - Count(b.value.source, k), Count(target, k) - Count(b.value.target, k)),
                side, kind, k);
    }
  }

  lemma SettledAt(b: Baseline, s: seq<Track>, t: seq<Track>, policy: Policy, d: int, side: Side, kind: ActionType,
                  k: Key)
    requires Count(s, k) == Max(0, Count(b.source, k) + d) && Count(t, k) == Max(0, Count(b.target, k) + d)
    ensures !Opposed(b, s, t, k) && PlannedNum(Some(b), s, t, policy, TwoWay, side, kind, k) == 0
  {
    SettledArithmetic(Count(b.source, k), Count(b.target, k), d);
    SettledArithmetic(Count(b.target, k), Count(b.source, k), d);
    if k !in ViewOf(b, s, t).Suppressed() {
      TwoWayPlanned(b, s, t, policy, side, k);
    }
  }

  /** Re-running reconciliation with the same baseline on what a conflict-free plan produced
      asks for no action and reports no count conflict, in both modes and under every policy. */
  lemma Convergence(b: Option<Baseline>, source: seq<Track>, target: seq<Track>, policy: Policy, mode: Mode)
    requires PlanFor(b, source, target, policy, mode).conflicts == []
    ensures var plan := PlanFor(b, source, target, policy, mode);
            var again := PlanFor(b, After(plan, source, target, Source), After(plan, source, target, Target), policy,
                                 mode);
            && again.actions == []
            && (forall c :: c in again.conflicts ==> c.IsrcConflict?)
  {
    var plan := PlanFor(b, source, target, policy, mode);
    var s, t := After(plan, source, target, Source), After(plan, source, target, Target);
    forall k ensures Settled(b, source, target, policy, mode, s, t, k) {
      PlanSettles(b, source, target, policy, mode, k);
    }
    SettledIsFinal(b, source, target, policy, mode, s, t);
  }

  lemma SettledIsFinal(b: Option<Baseline>, source: seq<Track>, target: seq<Track>, policy: Policy, mode: Mode,
                       s: seq<Track>, t: seq<Track>)
    requires forall k :: Settled(b, source, target, policy, mode, s, t, k)
    ensures PlanFor(b, s, t, policy, mode).actions == []
    ensures forall c :: c in PlanFor(b, s, t, policy, mode).conflicts ==> c.IsrcConflict?
  {
    forall side, kind, k ensures Num(PlanFor(b, s, t, policy, mode).actions, side, kind, k) == 0 {
      SettledNum(b, source, target, policy, mode, s, t, side, kind, k);
      PlanNum(b, s, t, policy, mode, side, kind, k);
    }
    NoNumNoActions(PlanFor(b, s, t, policy, mode).actions);
    if b.Some? && mode.TwoWay? {
      forall k ensures !Opposed(b.value, s, t, k) {
        SettledNum(b, source, target, policy, mode, s, t, Source, AddTrack, k);
      }
      OnlyIsrcConflicts(b.value, s, t);
    }
  }

  lemma OnlyIsrcConflicts(b: Baseline, source: seq<Track>, target: seq<Track>)
    requires forall k :: !Opposed(b, source, target, k)
    ensures forall c :: c in TwoWayConflicts(b, source, target) ==> c.IsrcConflict?
  {
    var v := ViewOf(b, source, target);
    var f := (i: Isrc) => v.ConflictsAt(i);
    CollectEmpty(ChangedKeys(b, source, target), ConflictBlock(b, source, target, v.Suppressed()));
    forall c | c in TwoWayConflicts(b, source, target) ensures c.IsrcConflict? {
      CollectMembers(SortedSeq(v.Shared()), f, c);
    }
  }

  lemma UnchangedNum(b: Baseline, source: seq<Track>, target: seq<Track>, policy: Policy, mode: Mode, side: Side,
                     kind: ActionType, k: Key)
    requires Count(source, k) == Count(b.source, k) && Count(target, k) == Count(b.target, k)
    ensures PlannedNum(Some(b), source, target, policy, mode, side, kind, k) == 0 && !Opposed(b, source, target, k)
  {
  }

  /** Playlists whose counts all equal the baseline's need no action in either mode. */
  lemma UnchangedNeedsNothing(b: Baseline, source: seq<Track>, target: seq<Track>, policy: Policy, mode: Mode)
    requires forall k :: Count(source, k) == Count(b.source, k) && Count(target, k) == Count(b.target, k)
    ensures PlanFor(Some(b), source, target, policy, mode).actions == []
    ensures forall c :: c in PlanFor(Some(b), source, target, policy, mode).conflicts ==> c.IsrcConflict?
  {
    var plan := PlanFor(Some(b), source, target, policy, mode);
    forall side, kind, k ensures Num(plan.actions, side, kind, k) == 0 {
      UnchangedNum(b, source, target, policy, mode, side, kind, k);
      PlanNum(Some(b), source, target, policy, mode, side, kind, k);
    }
    NoNumNoActions(plan.actions);
    forall k ensures !Opposed(b, source, target, k) {
      UnchangedNum(b, source, target, policy, mode, Source, AddTrack, k);
    }
    OnlyIsrcConflicts(b, source, target);
  }

  // ---- One direction per key -----------------------------------------------------------------

  /** No plan both adds and removes a key, not even on different sides. */
  lemma OneDirectionPerKey(b: Option<Baseline>, source: seq<Track>, target: seq<Track>, policy: Policy, mode: Mode,
                           side: Side, other: Side, k: Key)
    ensures var actions := PlanFor(b, source, target, policy, mode).actions;
            Num(actions, side, AddTrack, k) == 0 || Num(actions, other, RemoveTrack, k) == 0
  {
    PlanNum(b, source, target, policy, mode, side, AddTrack, k);
    PlanNum(b, source, target, policy, mode, other, RemoveTrack, k);
  }

  // ---- Symmetry of two-way mode ---------------------------------------------------------------

  function OnSide(actions: seq<Action>, side: Side): seq<Action> {
    Filter((a: Action) => a.side == side, actions)
  }

  function MirrorReason(r: Reason): Reason {
    match r
    case InitialItem(s) => InitialItem(Other(s))
    case SourceControls => SourceControls
    case AddedOn(s) => AddedOn(Other(s))
    case RemovedOn(s) => RemovedOn(Other(s))
  }

  function MirrorAction(a: Action): Action {
    Action(Other(a.side), a.kind, a.track, MirrorReason(a.reason))
  }

  function MirrorAll(actions: seq<Action>): seq<Action> {
    if actions == [] then [] else [MirrorAction(actions[0])] + MirrorAll(actions[1..])
  }

  function MirrorPolicy(p: Policy): Policy {
    match p
    case SourceAuthoritative => TargetAuthoritative
    case TargetAuthoritative => SourceAuthoritative
    case _ => p
  }

  function MirrorBaseline(b: Option<Baseline>): Option<Baseline> {
    if b.Some? then Some(Baseline(b.value.target, b.value.source)) else None
  }

  function MirrorConflicts(cs: seq<Conflict>): seq<Conflict> {
    seq(|cs|, i requires 0 <= i < |cs| =>
      if cs[i].IsrcConflict? then cs[i] else CountConflict(cs[i].key, cs[i].targetChange, cs[i].sourceChange))
  }

  lemma {:induction false} MirrorAppend(xs: seq<Action>, ys: seq<Action>)
    ensures MirrorAll(xs + ys) == MirrorAll(xs) + MirrorAll(ys)
  {
    if xs == [] {
      assert xs + ys == ys;
    } else {
      assert (xs + ys)[1..] == xs[1..] + ys;
      MirrorAppend(xs[1..], ys);
    }
  }

  lemma {:induction false} MirrorInsert(a: Action, xs: seq<Action>)
    requires forall x :: x in xs ==> x.side == a.side
    ensures Insert(ActionLe, MirrorAction(a), MirrorAll(xs)) == MirrorAll(Insert(ActionLe, a, xs))
  {
    if xs == [] {
    } else if ActionLe(a, xs[0]) {
      assert ([a] + xs)[1..] == xs;
    } else {
      MirrorInsert(a, xs[1..]);
      assert MirrorAll(xs)[1..] == MirrorAll(xs[1..]);
      assert ([xs[0]] + Insert(ActionLe, a, xs[1..]))[1..] == Insert(ActionLe, a, xs[1..]);
    }
  }

  /** Within one side the order of a plan does not depend on which side it is. */
  lemma {:induction false} MirrorSort(xs: seq<Action>, side: Side)
    requires forall x :: x in xs ==> x.side == side
    ensures SortedActions(MirrorAll(xs)) == MirrorAll(SortedActions(xs))
  {
    if xs != [] {
      MirrorSort(xs[1..], side);
      assert MirrorAll(xs)[1..] == MirrorAll(xs[1..]);
      var rest := SortedActions(xs[1..]);
      forall x | x in rest ensures x.side == xs[0].side {
        ActionOrder();
        SortMembers(ActionLe, xs[1..], x);
      }
      MirrorInsert(xs[0], rest);
    }
  }

  ghost predicate MirroredAt(f: Key -> seq<Action>, g: Key -> seq<Action>, k: Key, side: Side) {
    OnSide(g(k), side) == MirrorAll(OnSide(f(k), Other(side)))
  }

  lemma {:induction false} MirrorCollect(keys: seq<Key>, f: Key -> seq<Action>, g: Key -> seq<Action>, side: Side)
    requires forall k :: MirroredAt(f, g, k, side)
    ensures OnSide(Collect(keys, g), side) == MirrorAll(OnSide(Collect(keys, f), Other(side)))
  {
    if keys != [] {
      var front, last := keys[..|keys| - 1], keys[|keys| - 1];
      MirrorCollect(front, f, g, side);
      assert MirroredAt(f, g, last, side);
      FilterAppend((a: Action) => a.side == side, Collect(front, g), g(last));
      FilterAppend((a: Action) => a.side == Other(side), Collect(front, f), f(last));
      MirrorAppend(OnSide(Collect(front, f), Other(side)), OnSide(f(last), Other(side)));
    }
  }

  lemma ActionsOnSide(side: Side, kind: ActionType, tracks: seq<Track>, reason: Reason, s: Side)
    ensures OnSide(Actions(side, kind, tracks, reason), s)
            == if s == side then Actions(side, kind, tracks, reason) else []
  {
    ActionsHas(side, kind, tracks, reason, (a: Action) => a.side == s, s == side);
  }

  lemma {:induction false} MirrorActions(side: Side, kind: ActionType, tracks: seq<Track>, reason: Reason)
    ensures MirrorAll(Actions(side, kind, tracks, reason)) == Actions(Other(side), kind, tracks, MirrorReason(reason))
  {
    if tracks != [] {
      ActionsTail(side, kind, tracks, reason);
      ActionsTail(Other(side), kind, tracks, MirrorReason(reason));
      MirrorActions(side, kind, tracks[1..], reason);
      assert Actions(side, kind, tracks, reason)[1..] == Actions(side, kind, tracks[1..], reason);
    }
  }

  /** A uniform block and its mirror image, seen from one side. */
  lemma MirrorUniform(side: Side, kind: ActionType, tracks: seq<Track>, reason: Reason, s: Side)
    ensures OnSide(Actions(Other(side), kind, tracks, MirrorReason(reason)), s)
            == MirrorAll(OnSide(Actions(side, kind, tracks, reason), Other(s)))
  {
    ActionsOnSide(Other(side), kind, tracks, MirrorReason(reason), s);
    ActionsOnSide(side, kind, tracks, reason, Other(s));
    MirrorActions(side, kind, tracks, reason);
  }

  lemma MirrorTwoAdds(b: Baseline, source: seq<Track>, target: seq<Track>, k: Key, s: Side)
    ensures OnSide(TwoWayAdds(Baseline(b.target, b.source), target, source, k), s)
            == MirrorAll(OnSide(TwoWayAdds(b, source, target, k), Other(s)))
  {
    var sa, ta := Added(b.source, source, k), Added(b.target, target, k);
    if sa > ta {
      MirrorUniform(Target, AddTrack, Group(source, k)[..sa - ta], AddedOn(Source), s);
    } else if ta > sa {
      MirrorUniform(Source, AddTrack, Group(target, k)[..ta - sa], AddedOn(Target), s);
    }
  }

  lemma MirrorTwoRemoves(b: Baseline, source: seq<Track>, target: seq<Track>, k: Key, s: Side)
    ensures OnSide(TwoWayRemoves(Baseline(b.target, b.source), target, source, k), s)
            == MirrorAll(OnSide(TwoWayRemoves(b, source, target, k), Other(s)))
  {
    var sr, tr := Removed(b.source, source, k), Removed(b.target, target, k);
    if sr > tr {
      MirrorUniform(Target, RemoveTrack, Take(Group(target, k), sr - tr), RemovedOn(Source), s);
    } else if tr > sr {
      MirrorUniform(Source, RemoveTrack, Take(Group(source, k), tr - sr), RemovedOn(Target), s);
    }
  }

  lemma MirrorTwoWayKey(b: Baseline, source: seq<Track>, target: seq<Track>, suppressed: set<Key>, k: Key, s: Side)
    ensures MirroredAt(TwoWayBlock(b, source, target, suppressed),
                       TwoWayBlock(Baseline(b.target, b.source), target, source, suppressed), k, s)
  {
    var c := Baseline(b.target, b.source);
    if k !in suppressed && !Opposed(b, source, target, k) {
      MirrorTwoAdds(b, source, target, k, s);
      MirrorTwoRemoves(b, source, target, k, s);
      FilterAppend((a: Action) => a.side == s, TwoWayAdds(c, target, source, k), TwoWayRemoves(c, target, source, k));
      FilterAppend((a: Action) => a.side == Other(s), TwoWayAdds(b, source, target, k),
                   TwoWayRemoves(b, source, target, k));
      MirrorAppend(OnSide(TwoWayAdds(b, source, target, k), Other(s)),
                   OnSide(TwoWayRemoves(b, source, target, k), Other(s)));
    }
  }

  /** Concatenations mirror each other when their halves do, crosswise: on one side one half is empty. */
  lemma MirrorCross(first: seq<Action>, second: seq<Action>, first': seq<Action>, second': seq<Action>, s: Side)
    requires OnSide(first', s) == MirrorAll(OnSide(second, Other(s)))
               && OnSide(second', s) == MirrorAll(OnSide(first, Other(s)))
    requires OnSide(first, Other(s)) == [] || OnSide(second, Other(s)) == []
    ensures OnSide(first' + second', s) == MirrorAll(OnSide(first + second, Other(s)))
  {
    FilterAppend((a: Action) => a.side == s, first', second');
    FilterAppend((a: Action) => a.side == Other(s), first, second);
    var xs, ys := OnSide(first, Other(s)), OnSide(second, Other(s));
    if xs == [] {
      assert xs + ys == ys && MirrorAll(ys) + MirrorAll(xs) == MirrorAll(ys);
    } else {
      assert xs + ys == xs && MirrorAll(ys) + MirrorAll(xs) == MirrorAll(xs);
    }
  }

  /** The additions of a first sync towards one side. */
  function Lift(side: Side, xs: seq<Track>, wanted: bool): seq<Action> {
    if wanted then Actions(side, AddTrack, xs, InitialItem(Other(side))) else []
  }

  lemma MirrorLift(side: Side, xs: seq<Track>, wanted: bool, s: Side)
    ensures OnSide(Lift(Other(side), xs, wanted), s) == MirrorAll(OnSide(Lift(side, xs, wanted), Other(s)))
    ensures side != s ==> OnSide(Lift(side, xs, wanted), s) == []
  {
    MirrorUniform(side, AddTrack, xs, InitialItem(Other(side)), s);
    ActionsOnSide(side, AddTrack, xs, InitialItem(Other(side)), s);
  }

  lemma MirrorInitialKey(source: seq<Track>, target: seq<Track>, policy: Policy, k: Key, s: Side)
    ensures MirroredAt(InitialBlock(source, target, policy), InitialBlock(target, source, MirrorPolicy(policy)), k, s)
  {
    var xs := Group(source, k)[..Monus(Count(source, k), Count(target, k))];
    var ys := Group(target, k)[..Monus(Count(target, k), Count(source, k))];
    var up, down := policy.Merge? || policy.SourceAuthoritative?, policy.Merge? || policy.TargetAuthoritative?;
    MirrorLift(Target, xs, up, s);
    MirrorLift(Source, ys, down, s);
    MirrorLift(Target, xs, up, Other(s));
    MirrorLift(Source, ys, down, Other(s));
    MirrorCross(Lift(Target, xs, up), Lift(Source, ys, down), Lift(Target, ys, down), Lift(Source, xs, up), s);
    assert InitialKeyActions(source, target, policy, k) == Lift(Target, xs, up) + Lift(Source, ys, down);
    assert InitialKeyActions(target, source, MirrorPolicy(policy), k) == Lift(Target, ys, down) + Lift(Source, xs, up);
  }

  lemma {:induction false} MirrorView(v: IsrcView, isrcs: seq<Isrc>)
    ensures IsrcView(v.targetBefore, v.sourceBefore, v.targetNow, v.sourceNow).SuppressedBy(isrcs)
              == v.SuppressedBy(isrcs)
  {
    if isrcs != [] {
      MirrorView(v, isrcs[..|isrcs| - 1]);
    }
  }

  lemma {:induction false} MirrorIsrcConflicts(v: IsrcView, isrcs: seq<Isrc>)
    ensures var w := IsrcView(v.targetBefore, v.sourceBefore, v.targetNow, v.sourceNow);
            var mine := Collect(isrcs, (i: Isrc) => v.ConflictsAt(i));
            Collect(isrcs, (i: Isrc) => w.ConflictsAt(i)) == mine && forall c :: c in mine ==> c.IsrcConflict?
  {
    if isrcs != [] {
      MirrorIsrcConflicts(v, isrcs[..|isrcs| - 1]);
    }
  }

  lemma {:induction false} MirrorCountConflicts(b: Baseline, source: seq<Track>, target: seq<Track>,
                                                suppressed: set<Key>, keys: seq<Key>)
    ensures Collect(keys, ConflictBlock(Baseline(b.target, b.source), target, source, suppressed))
            == MirrorConflicts(Collect(keys, ConflictBlock(b, source, target, suppressed)))
  {
    if keys != [] {
      MirrorCountConflicts(b, source, target, suppressed, keys[..|keys| - 1]);
    }
  }

  lemma MirrorChanged(b: Baseline, source: seq<Track>, target: seq<Track>)
    ensures ChangedKeys(Baseline(b.target, b.source), target, source) == ChangedKeys(b, source, target)
    ensures ViewOf(Baseline(b.target, b.source), target, source).Suppressed() == ViewOf(b, source, target).Suppressed()
  {
    var c := Baseline(b.target, b.source);
    assert ChangedSet(c, target, source) == ChangedSet(b, source, target);
    var v := ViewOf(b, source, target);
    assert ViewOf(c, target, source).Shared() == v.Shared();
    MirrorView(v, SortedSeq(v.Shared()));
  }

  lemma MirrorConflictsAppend(xs: seq<Conflict>, ys: seq<Conflict>)
    requires forall c :: c in xs ==> c.IsrcConflict?
    ensures MirrorConflicts(xs + ys) == xs + MirrorConflicts(ys)
  {
    forall i | 0 <= i < |xs| ensures MirrorConflicts(xs + ys)[i] == xs[i] {
      assert xs[i] in xs;
    }
  }

  lemma MirrorTwoWayConflicts(b: Baseline, source: seq<Track>, target: seq<Track>)
    ensures TwoWayConflicts(Baseline(b.target, b.source), target, source)
              == MirrorConflicts(TwoWayConflicts(b, source, target))
  {
    var v := ViewOf(b, source, target);
    MirrorChanged(b, source, target);
    assert ViewOf(Baseline(b.target, b.source), target, source).Shared() == v.Shared();
    MirrorIsrcConflicts(v, SortedSeq(v.Shared()));
    MirrorCountConflicts(b, source, target, v.Suppressed(), ChangedKeys(b, source, target));
    MirrorConflictsAppend(v.Conflicts(),
                          Collect(ChangedKeys(b, source, target), ConflictBlock(b, source, target, v.Suppressed())));
  }

  /** Swapping source and target in all inputs gives the mirrored plan: each side of one is the other
      side of the other, action by action in the same order, and every conflict is turned around. */
  lemma Mirrored(b: Option<Baseline>, source: seq<Track>, target: seq<Track>, policy: Policy, s: Side)
    ensures var plan := PlanFor(b, source, target, policy, TwoWay);
            var swapped := PlanFor(MirrorBaseline(b), target, source, MirrorPolicy(policy), TwoWay);
            && OnSide(swapped.actions, s) == MirrorAll(OnSide(plan.actions, Other(s)))
            && swapped.conflicts == MirrorConflicts(plan.conflicts)
  {
    match b
    case None =>
      var f, g := InitialBlock(source, target, policy), InitialBlock(target, source, MirrorPolicy(policy));
      forall k ensures MirroredAt(f, g, k, s) { MirrorInitialKey(source, target, policy, k, s); }
      assert Keys(target) + Keys(source) == Keys(source) + Keys(target);
      MirrorPlan(SortedSeq(Keys(source) + Keys(target)), f, g, s);
    case Some(base) =>
      var suppressed := ViewOf(base, source, target).Suppressed();
      var f := TwoWayBlock(base, source, target, suppressed);
      var g := TwoWayBlock(Baseline(base.target, base.source), target, source, suppressed);
      forall k ensures MirroredAt(f, g, k, s) { MirrorTwoWayKey(base, source, target, suppressed, k, s); }
      MirrorChanged(base, source, target);
      MirrorPlan(ChangedKeys(base, source, target), f, g, s);
      MirrorTwoWayConflicts(base, source, target);
  }

  lemma MirrorPlan(keys: seq<Key>, f: Key -> seq<Action>, g: Key -> seq<Action>, s: Side)
    requires forall k :: MirroredAt(f, g, k, s)
    ensures OnSide(SortedActions(Collect(keys, g)), s) == MirrorAll(OnSide(SortedActions(Collect(keys, f)), Other(s)))
  {
    ActionOrder();
    SortFilter(ActionLe, (a: Action) => a.side == s, Collect(keys, g));
    SortFilter(ActionLe, (a: Action) => a.side == Other(s), Collect(keys, f));
    MirrorCollect(keys, f, g, s);
    var xs := OnSide(Collect(keys, f), Other(s));
    FilterMembers((a: Action) => a.side == Other(s), Collect(keys, f));
    MirrorSort(xs, Other(s));
  }
}
