/** How many additions and removals a plan holds per key, and what applying them does to counts. */
module PlanCounts {
  import opened Prelude
  import opened StableSort
  import opened Playlists
  import opened Reconciliation

  // ---- Counting actions -----------------------------------------------------------

  function Has(side: Side, kind: ActionType, k: Key): Action -> bool {
    (a: Action) => a.side == side && a.kind == kind && a.track.key == k
  }

  function Names(side: Side, kind: ActionType, t: Track): Action -> bool {
    (a: Action) => a.side == side && a.kind == kind && a.track == t
  }

  /** The number of actions of one kind for one key on one side. */
  function Num(actions: seq<Action>, side: Side, kind: ActionType, k: Key): nat {
    |Filter(Has(side, kind, k), actions)|
  }

  /** How often the actions of one kind on one side name exactly this occurrence. */
  function Times(actions: seq<Action>, side: Side, kind: ActionType, t: Track): nat {
    |Filter(Names(side, kind, t), actions)|
  }

  /** Every removal on the side names a live occurrence, and no occurrence is named twice. */
  ghost predicate RemovesLive(actions: seq<Action>, side: Side, tracks: seq<Track>) {
    forall t :: Times(actions, side, RemoveTrack, t) <= multiset(tracks)[t]
  }

  // ---- Applying a plan ----------------------------------------------------------------

  function RemoveFirst(tracks: seq<Track>, t: Track): seq<Track> {
    if tracks == [] then []
    else if tracks[0] == t then tracks[1..]
    else [tracks[0]] + RemoveFirst(tracks[1..], t)
  }

  /** The side's playlist after the actions, in plan order: adds append, removals drop one copy. */
  function Applied(actions: seq<Action>, side: Side, tracks: seq<Track>): seq<Track> {
    if actions == [] then tracks
    else if actions[0].side != side then Applied(actions[1..], side, tracks)
    else if actions[0].kind.AddTrack? then Applied(actions[1..], side, tracks + [actions[0].track])
    else Applied(actions[1..], side, RemoveFirst(tracks, actions[0].track))
  }

  lemma {:induction false} RemoveFirstCounts(tracks: seq<Track>, t: Track, k: Key)
    requires t in tracks
    ensures Count(RemoveFirst(tracks, t), k) == Count(tracks, k) - (if t.key == k then 1 else 0)
    ensures multiset(RemoveFirst(tracks, t)) == multiset(tracks) - multiset{t}
  {
    assert tracks == [tracks[0]] + tracks[1..];
    CountAppend([tracks[0]], tracks[1..], k);
    CountOne(tracks[0], k);
    if tracks[0] != t {
      RemoveFirstCounts(tracks[1..], t, k);
      CountAppend([tracks[0]], RemoveFirst(tracks[1..], t), k);
    }
  }

  lemma NumStep(actions: seq<Action>, side: Side, kind: ActionType, k: Key)
    requires actions != []
    ensures Num(actions, side, kind, k) ==
            (if Has(side, kind, k)(actions[0]) then 1 else 0) + Num(actions[1..], side, kind, k)
  {
  }

  /** Applying a plan whose removals are live changes each count by its adds minus its removals. */
  lemma {:induction false} AppliedCounts(actions: seq<Action>, side: Side, tracks: seq<Track>, k: Key)
    requires RemovesLive(actions, side, tracks)
    ensures Count(Applied(actions, side, tracks), k)
            == Count(tracks, k) + Num(actions, side, AddTrack, k) - Num(actions, side, RemoveTrack, k)
    decreases |actions|
  {
    if actions != [] {
      var a, rest := actions[0], actions[1..];
      NumStep(actions, side, AddTrack, k);
      NumStep(actions, side, RemoveTrack, k);
      if a.side != side {
        forall t ensures Times(rest, side, RemoveTrack, t) <= multiset(tracks)[t] {
          assert Times(actions, side, RemoveTrack, t) <= multiset(tracks)[t];
        }
        AppliedCounts(rest, side, tracks, k);
      } else if a.kind.AddTrack? {
        forall t ensures Times(rest, side, RemoveTrack, t) <= multiset(tracks + [a.track])[t] {
          assert Times(actions, side, RemoveTrack, t) <= multiset(tracks)[t];
        }
        AppliedCounts(rest, side, tracks + [a.track], k);
        CountAppend(tracks, [a.track], k);
        CountOne(a.track, k);
      } else {
        assert Times(actions, side, RemoveTrack, a.track) <= multiset(tracks)[a.track];
        assert a.track in tracks;
        RemoveFirstCounts(tracks, a.track, k);
        forall t ensures Times(rest, side, RemoveTrack, t) <= multiset(RemoveFirst(tracks, a.track))[t] {
          assert Times(actions, side, RemoveTrack, t) <= multiset(tracks)[t];
        }
        AppliedCounts(rest, side, RemoveFirst(tracks, a.track), k);
      }
    }
  }

  // ---- Blocks ---------------------------------------------------------------------------

  lemma ActionsTail(side: Side, kind: ActionType, tracks: seq<Track>, reason: Reason)
    requires tracks != []
    ensures Actions(side, kind, tracks, reason)
            == [Action(side, kind, tracks[0], reason)] + Actions(side, kind, tracks[1..], reason)
  {
  }

  /** Filtering a uniform block by side, kind and key keeps all of it or none of it. */
  lemma ActionsHas(side: Side, kind: ActionType, tracks: seq<Track>, reason: Reason, p: Action -> bool, keep: bool)
    requires forall t :: t in tracks ==> p(Action(side, kind, t, reason)) == keep
    ensures Filter(p, Actions(side, kind, tracks, reason)) == if keep then Actions(side, kind, tracks, reason) else []
  {
    var xs := Actions(side, kind, tracks, reason);
    forall i | 0 <= i < |xs| ensures p(xs[i]) == keep {
      assert tracks[i] in tracks;
    }
    if keep { FilterAll(p, xs); } else { FilterNone(p, xs); }
  }

  lemma ActionsNum(side: Side, kind: ActionType, tracks: seq<Track>, reason: Reason, s: Side, d: ActionType, k: Key)
    requires forall t :: t in tracks ==> t.key == k
    ensures Num(Actions(side, kind, tracks, reason), s, d, k) == if s == side && d == kind then |tracks| else 0
  {
    ActionsHas(side, kind, tracks, reason, Has(s, d, k), s == side && d == kind);
  }

  lemma {:induction false} ActionsTimes(side: Side, kind: ActionType, tracks: seq<Track>, reason: Reason,
                                        s: Side, d: ActionType, t: Track)
    ensures Times(Actions(side, kind, tracks, reason), s, d, t)
            == if s == side && d == kind then multiset(tracks)[t] else 0
  {
    if tracks != [] {
      ActionsTail(side, kind, tracks, reason);
      ActionsTimes(side, kind, tracks[1..], reason, s, d, t);
      assert tracks == [tracks[0]] + tracks[1..];
      FilterCons(Names(s, d, t), Action(side, kind, tracks[0], reason), Actions(side, kind, tracks[1..], reason));
    }
  }

  lemma NumAppend(xs: seq<Action>, ys: seq<Action>, s: Side, d: ActionType, k: Key)
    ensures Num(xs + ys, s, d, k) == Num(xs, s, d, k) + Num(ys, s, d, k)
  {
    FilterAppend(Has(s, d, k), xs, ys);
  }

  lemma TimesAppend(xs: seq<Action>, ys: seq<Action>, s: Side, d: ActionType, t: Track)
    ensures Times(xs + ys, s, d, t) == Times(xs, s, d, t) + Times(ys, s, d, t)
  {
    FilterAppend(Names(s, d, t), xs, ys);
  }

  /** All actions of the block for k act on occurrences with key k. */
  ghost predicate KeyedBlocks(f: Key -> seq<Action>) {
    forall k, a :: a in f(k) ==> a.track.key == k
  }

  lemma SortedDistinct(s: set<Key>)
    ensures Distinct(SortedSeq(s))
  {
    forall i, j | 0 <= i < j < |SortedSeq(s)| ensures SortedSeq(s)[i] != SortedSeq(s)[j] {
      assert SortedSeq(s)[i].rank < SortedSeq(s)[j].rank;
    }
  }

  /** What a plan built block by block does to one key is what the block of that key does. */
  lemma PickKey(s: set<Key>, f: Key -> seq<Action>, p: Action -> bool, k: Key)
    requires KeyedBlocks(f)
    requires forall a :: p(a) ==> a.track.key == k
    ensures |Filter(p, SortedActions(Collect(SortedSeq(s), f)))| == if k in s then |Filter(p, f(k))| else 0
  {
    var keys := SortedSeq(s);
    ActionOrder();
    SortFilter(ActionLe, p, Collect(keys, f));
    SortSorts(ActionLe, Filter(p, Collect(keys, f)));
    SortedDistinct(s);
    forall k' | k' in keys && k' != k ensures Filter(p, f(k')) == [] {
      FilterNone(p, f(k'));
    }
    CollectPick(p, keys, f, k);
  }

  lemma PickNum(s: set<Key>, f: Key -> seq<Action>, side: Side, kind: ActionType, k: Key)
    requires KeyedBlocks(f)
    ensures Num(SortedActions(Collect(SortedSeq(s), f)), side, kind, k)
              == if k in s then Num(f(k), side, kind, k) else 0
  {
    PickKey(s, f, Has(side, kind, k), k);
  }

  lemma PickTimes(s: set<Key>, f: Key -> seq<Action>, side: Side, kind: ActionType, t: Track)
    requires KeyedBlocks(f)
    ensures Times(SortedActions(Collect(SortedSeq(s), f)), side, kind, t)
              == if t.key in s then Times(f(t.key), side, kind, t) else 0
  {
    PickKey(s, f, Names(side, kind, t), t.key);
  }

  predicate AllOn(actions: seq<Action>, kind: ActionType, k: Key) {
    forall a :: a in actions ==> a.kind == kind && a.track.key == k
  }

  lemma OtherKindNum(actions: seq<Action>, kind: ActionType, side: Side, other: ActionType, k: Key)
    requires AllOn(actions, kind, k) && other != kind
    ensures Num(actions, side, other, k) == 0
  {
    FilterNone(Has(side, other, k), actions);
  }

  lemma OtherKindTimes(actions: seq<Action>, kind: ActionType, side: Side, other: ActionType, t: Track)
    requires AllOn(actions, kind, t.key) && other != kind
    ensures Times(actions, side, other, t) == 0
  {
    FilterNone(Names(side, other, t), actions);
  }

  predicate OnTarget(actions: seq<Action>, k: Key) {
    forall a :: a in actions ==> a.side.Target? && a.track.key == k
  }

  lemma NoneOnSource(actions: seq<Action>, kind: ActionType, k: Key)
    requires OnTarget(actions, k)
    ensures Num(actions, Source, kind, k) == 0
  {
    FilterNone(Has(Source, kind, k), actions);
  }

  // ---- The three kinds of plan, key by key ------------------------------------------------

  lemma PrefixMembers(tracks: seq<Track>, k: Key, n: nat)
    ensures forall t :: t in Take(Group(tracks, k), n) ==> t.key == k && t in tracks
  {
    GroupMembers(tracks, k);
  }

  lemma PrefixBag(tracks: seq<Track>, n: nat, t: Track)
    ensures multiset(Take(Group(tracks, t.key), n))[t] <= multiset(tracks)[t]
  {
    FilterMultiplicity((x: Track) => x.key == t.key, tracks, t);
    var g := Group(tracks, t.key);
    if n <= |g| {
      assert g == g[..n] + g[n..];
    }
  }

  /** A block over the first n occurrences of k holds min(n, count) actions of its own kind. */
  lemma PrefixNum(side: Side, kind: ActionType, tracks: seq<Track>, n: nat, reason: Reason, s: Side, d: ActionType,
                  k: Key)
    ensures Num(Actions(side, kind, Take(Group(tracks, k), n), reason), s, d, k)
            == if s == side && d == kind then Min(n, Count(tracks, k)) else 0
  {
    PrefixMembers(tracks, k, n);
    ActionsNum(side, kind, Take(Group(tracks, k), n), reason, s, d, k);
  }

  lemma PrefixTimes(side: Side, tracks: seq<Track>, n: nat, reason: Reason, s: Side, t: Track)
    ensures Times(Actions(side, RemoveTrack, Take(Group(tracks, t.key), n), reason), s, RemoveTrack, t)
            <= if s == side then multiset(tracks)[t] else 0
  {
    PrefixBag(tracks, n, t);
    ActionsTimes(side, RemoveTrack, Take(Group(tracks, t.key), n), reason, s, RemoveTrack, t);
  }

  lemma PrefixKeyed(side: Side, kind: ActionType, tracks: seq<Track>, n: nat, reason: Reason, k: Key)
    ensures AllOn(Actions(side, kind, Take(Group(tracks, k), n), reason), kind, k)
  {
    PrefixMembers(tracks, k, n);
  }

  lemma CycleMembers(tracks: seq<Track>, n: nat)
    ensures forall t :: t in Cycle(tracks, n) ==> t in tracks
  {
  }

  function InitialAdds(source: seq<Track>, target: seq<Track>, policy: Policy, side: Side, k: Key): nat {
    var cs, ct := Count(source, k), Count(target, k);
    if side.Target? && (policy.Merge? || policy.SourceAuthoritative?) then Monus(cs, ct)
    else if side.Source? && (policy.Merge? || policy.TargetAuthoritative?) then Monus(ct, cs)
    else 0
  }

  lemma InitialKeyMembers(source: seq<Track>, target: seq<Track>, policy: Policy, k: Key)
    ensures AllOn(InitialKeyActions(source, target, policy, k), AddTrack, k)
  {
    PrefixKeyed(Target, AddTrack, source, Monus(Count(source, k), Count(target, k)), InitialItem(Source), k);
    PrefixKeyed(Source, AddTrack, target, Monus(Count(target, k), Count(source, k)), InitialItem(Target), k);
  }

  lemma InitialKey(source: seq<Track>, target: seq<Track>, policy: Policy, side: Side, k: Key)
    ensures Num(InitialKeyActions(source, target, policy, k), side, AddTrack, k)
              == InitialAdds(source, target, policy, side, k)
  {
    var m, n := Monus(Count(source, k), Count(target, k)), Monus(Count(target, k), Count(source, k));
    PrefixNum(Target, AddTrack, source, m, InitialItem(Source), side, AddTrack, k);
    PrefixNum(Source, AddTrack, target, n, InitialItem(Target), side, AddTrack, k);
    var first := if policy.Merge? || policy.SourceAuthoritative?
                 then Actions(Target, AddTrack, Group(source, k)[..m], InitialItem(Source)) else [];
    var second := if policy.Merge? || policy.TargetAuthoritative?
                  then Actions(Source, AddTrack, Group(target, k)[..n], InitialItem(Target)) else [];
    NumAppend(first, second, side, AddTrack, k);
  }

  function FollowAdds(b: Baseline, source: seq<Track>, target: seq<Track>, k: Key): nat {
    if FollowOccurrences(b, source, k) == [] then 0 else FollowAdditions(b, source, target, k)
  }

  function FollowDrops(b: Baseline, source: seq<Track>, target: seq<Track>, k: Key): nat {
    Min(FollowRemovals(b, source, target, k), Count(target, k))
  }

  lemma FollowKeyMembers(b: Baseline, source: seq<Track>, target: seq<Track>, k: Key)
    ensures OnTarget(FollowKeyActions(b, source, target, k), k)
  {
    GroupMembers(source, k);
    GroupMembers(b.source, k);
    CycleMembers(FollowOccurrences(b, source, k), FollowAdditions(b, source, target, k));
    PrefixMembers(target, k, FollowRemovals(b, source, target, k));
  }

  lemma FollowAddsNum(b: Baseline, source: seq<Track>, target: seq<Track>, k: Key, kind: ActionType)
    ensures Num(Actions(Target, AddTrack,
                        Cycle(FollowOccurrences(b, source, k), FollowAdditions(b, source, target, k)), SourceControls),
                Target, kind, k)
            == if kind.AddTrack? then FollowAdds(b, source, target, k) else 0
  {
    var pool, n := FollowOccurrences(b, source, k), FollowAdditions(b, source, target, k);
    GroupMembers(source, k);
    GroupMembers(b.source, k);
    CycleMembers(pool, n);
    ActionsNum(Target, AddTrack, Cycle(pool, n), SourceControls, Target, kind, k);
  }

  lemma FollowKey(b: Baseline, source: seq<Track>, target: seq<Track>, k: Key, kind: ActionType)
    ensures Num(FollowKeyActions(b, source, target, k), Target, kind, k)
            == if kind.AddTrack? then FollowAdds(b, source, target, k) else FollowDrops(b, source, target, k)
  {
    var adds := Cycle(FollowOccurrences(b, source, k), FollowAdditions(b, source, target, k));
    var drops := Take(Group(target, k), FollowRemovals(b, source, target, k));
    FollowAddsNum(b, source, target, k, kind);
    PrefixNum(Target, RemoveTrack, target, FollowRemovals(b, source, target, k), SourceControls, Target, kind, k);
    NumAppend(Actions(Target, AddTrack, adds, SourceControls), Actions(Target, RemoveTrack, drops, SourceControls),
              Target, kind, k);
  }

  function TwoWayNum(b: Baseline, source: seq<Track>, target: seq<Track>, side: Side, kind: ActionType, k: Key): nat {
    var sa, ta := Added(b.source, source, k), Added(b.target, target, k);
    var sr, tr := Removed(b.source, source, k), Removed(b.target, target, k);
    if Opposed(b, source, target, k) then 0
    else match (side, kind)
         case (Target, AddTrack) => Monus(sa, ta)
         case (Source, AddTrack) => Monus(ta, sa)
         case (Target, RemoveTrack) => Min(Monus(sr, tr), Count(target, k))
         case (Source, RemoveTrack) => Min(Monus(tr, sr), Count(source, k))
  }

  lemma TwoWayAddsMembers(b: Baseline, source: seq<Track>, target: seq<Track>, k: Key)
    ensures AllOn(TwoWayAdds(b, source, target, k), AddTrack, k)
  {
    var sa, ta := Added(b.source, source, k), Added(b.target, target, k);
    if sa > ta {
      PrefixKeyed(Target, AddTrack, source, sa - ta, AddedOn(Source), k);
    } else if ta > sa {
      PrefixKeyed(Source, AddTrack, target, ta - sa, AddedOn(Target), k);
    }
  }

  lemma TwoWayRemovesMembers(b: Baseline, source: seq<Track>, target: seq<Track>, k: Key)
    ensures AllOn(TwoWayRemoves(b, source, target, k), RemoveTrack, k)
  {
    var sr, tr := Removed(b.source, source, k), Removed(b.target, target, k);
    if sr > tr {
      PrefixKeyed(Target, RemoveTrack, target, sr - tr, RemovedOn(Source), k);
    } else if tr > sr {
      PrefixKeyed(Source, RemoveTrack, source, tr - sr, RemovedOn(Target), k);
    }
  }

  lemma TwoWayKeyMembers(b: Baseline, source: seq<Track>, target: seq<Track>, suppressed: set<Key>, k: Key)
    ensures forall a :: a in TwoWayKeyActions(b, source, target, suppressed, k) ==> a.track.key == k
  {
    TwoWayAddsMembers(b, source, target, k);
    TwoWayRemovesMembers(b, source, target, k);
  }

  lemma TwoWayAddsNum(b: Baseline, source: seq<Track>, target: seq<Track>, side: Side, kind: ActionType, k: Key)
    requires !Opposed(b, source, target, k)
    ensures Num(TwoWayAdds(b, source, target, k), side, kind, k)
            == if kind.AddTrack? then TwoWayNum(b, source, target, side, kind, k) else 0
  {
    var sa, ta := Added(b.source, source, k), Added(b.target, target, k);
    if sa > ta {
      PrefixNum(Target, AddTrack, source, sa - ta, AddedOn(Source), side, kind, k);
    } else if ta > sa {
      PrefixNum(Source, AddTrack, target, ta - sa, AddedOn(Target), side, kind, k);
    }
  }

  lemma TwoWayRemovesNum(b: Baseline, source: seq<Track>, target: seq<Track>, side: Side, kind: ActionType, k: Key)
    requires !Opposed(b, source, target, k)
    ensures Num(TwoWayRemoves(b, source, target, k), side, kind, k)
            == if kind.RemoveTrack? then TwoWayNum(b, source, target, side, kind, k) else 0
  {
    var sr, tr := Removed(b.source, source, k), Removed(b.target, target, k);
    if sr > tr {
      PrefixNum(Target, RemoveTrack, target, sr - tr, RemovedOn(Source), side, kind, k);
    } else if tr > sr {
      PrefixNum(Source, RemoveTrack, source, tr - sr, RemovedOn(Target), side, kind, k);
    }
  }

  lemma TwoWayKey(b: Baseline, source: seq<Track>, target: seq<Track>, suppressed: set<Key>, side: Side,
                  kind: ActionType, k: Key)
    ensures Num(TwoWayKeyActions(b, source, target, suppressed, k), side, kind, k)
            == if k in suppressed then 0 else TwoWayNum(b, source, target, side, kind, k)
  {
    if k !in suppressed && !Opposed(b, source, target, k) {
      TwoWayAddsNum(b, source, target, side, kind, k);
      TwoWayRemovesNum(b, source, target, side, kind, k);
      NumAppend(TwoWayAdds(b, source, target, k), TwoWayRemoves(b, source, target, k), side, kind, k);
    }
  }

  // ---- Whole plans -----------------------------------------------------------------------------

  /** The number of actions of one kind a plan holds for one key on one side, in closed form. */
  function PlannedNum(b: Option<Baseline>, source: seq<Track>, target: seq<Track>, policy: Policy, mode: Mode,
                      side: Side, kind: ActionType, k: Key): nat {
    match b
    case None => if kind.AddTrack? then InitialAdds(source, target, EffectivePolicy(policy, mode), side, k) else 0
    case Some(base) =>
      if mode.SourceToTarget? then
        if side.Source? then 0
        else if kind.AddTrack? then FollowAdds(base, source, target, k)
        else FollowDrops(base, source, target, k)
      else if k in ViewOf(base, source, target).Suppressed() then 0
      else TwoWayNum(base, source, target, side, kind, k)
  }

  function ChangedSet(b: Baseline, source: seq<Track>, target: seq<Track>): set<Key> {
    set k | k in Keys(b.source) + Keys(source) + Keys(b.target) + Keys(target) && Changed(b, source, target, k)
  }

  lemma ChangedKey(b: Baseline, source: seq<Track>, target: seq<Track>, k: Key)
    ensures k in ChangedSet(b, source, target) <==> Changed(b, source, target, k)
    ensures ChangedKeys(b, source, target) == SortedSeq(ChangedSet(b, source, target))
  {
    CountPositive(b.source, k);
    CountPositive(source, k);
    CountPositive(b.target, k);
    CountPositive(target, k);
  }

  lemma InitialBlocks(source: seq<Track>, target: seq<Track>, policy: Policy)
    ensures KeyedBlocks(InitialBlock(source, target, policy))
  {
    forall k, a | a in InitialBlock(source, target, policy)(k) ensures a.track.key == k {
      InitialKeyMembers(source, target, policy, k);
    }
  }

  lemma FollowBlocks(b: Baseline, source: seq<Track>, target: seq<Track>)
    ensures KeyedBlocks(FollowBlock(b, source, target))
  {
    forall k, a | a in FollowBlock(b, source, target)(k) ensures a.track.key == k {
      FollowKeyMembers(b, source, target, k);
    }
  }

  lemma TwoWayBlocks(b: Baseline, source: seq<Track>, target: seq<Track>, suppressed: set<Key>)
    ensures KeyedBlocks(TwoWayBlock(b, source, target, suppressed))
  {
    forall k, a | a in TwoWayBlock(b, source, target, suppressed)(k) ensures a.track.key == k {
      TwoWayKeyMembers(b, source, target, suppressed, k);
    }
  }

  lemma InitialNum(source: seq<Track>, target: seq<Track>, policy: Policy, side: Side, kind: ActionType, k: Key)
    ensures Num(SortedActions(InitialActions(source, target, policy)), side, kind, k)
            == if kind.AddTrack? then InitialAdds(source, target, policy, side, k) else 0
  {
    InitialBlocks(source, target, policy);
    PickNum(Keys(source) + Keys(target), InitialBlock(source, target, policy), side, kind, k);
    CountPositive(source, k);
    CountPositive(target, k);
    if kind.RemoveTrack? {
      InitialKeyMembers(source, target, policy, k);
      OtherKindNum(InitialKeyActions(source, target, policy, k), AddTrack, side, kind, k);
    } else {
      InitialKey(source, target, policy, side, k);
    }
  }

  lemma FollowNum(b: Baseline, source: seq<Track>, target: seq<Track>, side: Side, kind: ActionType, k: Key)
    ensures Num(SortedActions(FollowActions(b, source, target)), side, kind, k)
            == if side.Source? then 0
               else if kind.AddTrack? then FollowAdds(b, source, target, k) else FollowDrops(b, source, target, k)
  {
    FollowBlocks(b, source, target);
    ChangedKey(b, source, target, k);
    PickNum(ChangedSet(b, source, target), FollowBlock(b, source, target), side, kind, k);
    if side.Source? {
      FollowKeyMembers(b, source, target, k);
      NoneOnSource(FollowKeyActions(b, source, target, k), kind, k);
    } else {
      FollowKey(b, source, target, k, kind);
    }
  }

  lemma TwoWayPlanNum(b: Baseline, source: seq<Track>, target: seq<Track>, side: Side, kind: ActionType, k: Key)
    ensures Num(SortedActions(TwoWayActions(b, source, target)), side, kind, k)
            == if k in ViewOf(b, source, target).Suppressed() then 0 else TwoWayNum(b, source, target, side, kind, k)
  {
    var suppressed := ViewOf(b, source, target).Suppressed();
    TwoWayBlocks(b, source, target, suppressed);
    ChangedKey(b, source, target, k);
    PickNum(ChangedSet(b, source, target), TwoWayBlock(b, source, target, suppressed), side, kind, k);
    TwoWayKey(b, source, target, suppressed, side, kind, k);
  }

  /** Exactly how many additions and removals every plan holds for every key. */
  lemma PlanNum(b: Option<Baseline>, source: seq<Track>, target: seq<Track>, policy: Policy, mode: Mode,
                side: Side, kind: ActionType, k: Key)
    ensures Num(PlanFor(b, source, target, policy, mode).actions, side, kind, k)
            == PlannedNum(b, source, target, policy, mode, side, kind, k)
  {
    match b
    case None => InitialNum(source, target, EffectivePolicy(policy, mode), side, kind, k);
    case Some(base) =>
      if mode.SourceToTarget? {
        FollowNum(base, source, target, side, kind, k);
      } else {
        TwoWayPlanNum(base, source, target, side, kind, k);
      }
  }

  lemma FollowTimes(b: Baseline, source: seq<Track>, target: seq<Track>, side: Side, t: Track)
    ensures Times(FollowKeyActions(b, source, target, t.key), side, RemoveTrack, t)
              <= multiset(SideOf(source, target, side))[t]
  {
    var k := t.key;
    var adds := Cycle(FollowOccurrences(b, source, k), FollowAdditions(b, source, target, k));
    var drops := Take(Group(target, k), FollowRemovals(b, source, target, k));
    ActionsTimes(Target, AddTrack, adds, SourceControls, side, RemoveTrack, t);
    PrefixTimes(Target, target, FollowRemovals(b, source, target, k), SourceControls, side, t);
    TimesAppend(Actions(Target, AddTrack, adds, SourceControls), Actions(Target, RemoveTrack, drops, SourceControls),
                side, RemoveTrack, t);
  }

  lemma TwoWayRemovesTimes(b: Baseline, source: seq<Track>, target: seq<Track>, side: Side, t: Track)
    ensures Times(TwoWayRemoves(b, source, target, t.key), side, RemoveTrack, t)
              <= multiset(SideOf(source, target, side))[t]
  {
    var k := t.key;
    var sr, tr := Removed(b.source, source, k), Removed(b.target, target, k);
    if sr > tr {
      PrefixTimes(Target, target, sr - tr, RemovedOn(Source), side, t);
    } else if tr > sr {
      PrefixTimes(Source, source, tr - sr, RemovedOn(Target), side, t);
    }
  }

  lemma TwoWayTimes(b: Baseline, source: seq<Track>, target: seq<Track>, suppressed: set<Key>, side: Side, t: Track)
    ensures Times(TwoWayKeyActions(b, source, target, suppressed, t.key), side, RemoveTrack, t)
            <= multiset(SideOf(source, target, side))[t]
  {
    var k := t.key;
    if k !in suppressed && !Opposed(b, source, target, k) {
      TimesAppend(TwoWayAdds(b, source, target, k), TwoWayRemoves(b, source, target, k), side, RemoveTrack, t);
      TwoWayAddsMembers(b, source, target, k);
      OtherKindTimes(TwoWayAdds(b, source, target, k), AddTrack, side, RemoveTrack, t);
      TwoWayRemovesTimes(b, source, target, side, t);
    }
  }

  lemma InitialRemovesNone(source: seq<Track>, target: seq<Track>, policy: Policy, side: Side, t: Track)
    ensures Times(SortedActions(InitialActions(source, target, policy)), side, RemoveTrack, t) == 0
  {
    InitialBlocks(source, target, policy);
    PickTimes(Keys(source) + Keys(target), InitialBlock(source, target, policy), side, RemoveTrack, t);
    InitialKeyMembers(source, target, policy, t.key);
    OtherKindTimes(InitialKeyActions(source, target, policy, t.key), AddTrack, side, RemoveTrack, t);
  }

  lemma FollowRemovesLive(b: Baseline, source: seq<Track>, target: seq<Track>, side: Side, t: Track)
    ensures Times(SortedActions(FollowActions(b, source, target)), side, RemoveTrack, t)
              <= multiset(SideOf(source, target, side))[t]
  {
    FollowBlocks(b, source, target);
    ChangedKey(b, source, target, t.key);
    PickTimes(ChangedSet(b, source, target), FollowBlock(b, source, target), side, RemoveTrack, t);
    FollowTimes(b, source, target, side, t);
  }

  lemma TwoWayRemovesLive(b: Baseline, source: seq<Track>, target: seq<Track>, side: Side, t: Track)
    ensures Times(SortedActions(TwoWayActions(b, source, target)), side, RemoveTrack, t)
              <= multiset(SideOf(source, target, side))[t]
  {
    var suppressed := ViewOf(b, source, target).Suppressed();
    TwoWayBlocks(b, source, target, suppressed);
    ChangedKey(b, source, target, t.key);
    PickTimes(ChangedSet(b, source, target), TwoWayBlock(b, source, target, suppressed), side, RemoveTrack, t);
    TwoWayTimes(b, source, target, suppressed, side, t);
  }

  /** Every plan's removals name distinct live occurrences of the side they act on. */
  lemma PlanRemovesLive(b: Option<Baseline>, source: seq<Track>, target: seq<Track>, policy: Policy, mode: Mode,
                        side: Side)
    ensures RemovesLive(PlanFor(b, source, target, policy, mode).actions, side, SideOf(source, target, side))
  {
    var plan := PlanFor(b, source, target, policy, mode);
    forall t ensures Times(plan.actions, side, RemoveTrack, t) <= multiset(SideOf(source, target, side))[t] {
      match b
      case None => InitialRemovesNone(source, target, EffectivePolicy(policy, mode), side, t);
      case Some(base) =>
        if mode.SourceToTarget? {
          FollowRemovesLive(base, source, target, side, t);
        } else {
          TwoWayRemovesLive(base, source, target, side, t);
        }
    }
  }

  /** The count of a key on a side once the whole plan is applied. */
  lemma PlanResult(b: Option<Baseline>, source: seq<Track>, target: seq<Track>, policy: Policy, mode: Mode, side: Side,
                   k: Key)
    ensures Count(Applied(PlanFor(b, source, target, policy, mode).actions, side, SideOf(source, target, side)), k)
            == Count(SideOf(source, target, side), k)
               + PlannedNum(b, source, target, policy, mode, side, AddTrack, k)
               - PlannedNum(b, source, target, policy, mode, side, RemoveTrack, k)
  {
    PlanRemovesLive(b, source, target, policy, mode, side);
    AppliedCounts(PlanFor(b, source, target, policy, mode).actions, side, SideOf(source, target, side), k);
    PlanNum(b, source, target, policy, mode, side, AddTrack, k);
    PlanNum(b, source, target, policy, mode, side, RemoveTrack, k);
  }
}
