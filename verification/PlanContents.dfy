/** What a plan holds, said of the playlists themselves: conflicts, untouched keys, order and occurrences. */
module PlanContents {
  import opened Prelude
  import opened StableSort
  import opened Playlists
  import opened Reconciliation
  import opened PlanCounts
  import opened ReconciliationTheorems

  // ---- Recordings renamed on both sides ----------------------------------------------------------------

  /** Occurrence n is the last one that carries the ISRC. */
  predicate LastWith(tracks: seq<Track>, isrc: Isrc, n: nat) {
    n < |tracks| && tracks[n].isrc == Some(isrc) && forall m :: n < m < |tracks| ==> tracks[m].isrc != Some(isrc)
  }

  /** One recording, last seen at these places before and now, was renamed on both sides, and differently. */
  predicate RenamedApart(b: Baseline, source: seq<Track>, target: seq<Track>, isrc: Isrc, p: nat, q: nat, m: nat,
                         n: nat)
  {
    && LastWith(b.source, isrc, p) && LastWith(b.target, isrc, q)
    && LastWith(source, isrc, m) && LastWith(target, isrc, n)
    && source[m].key != b.source[p].key && target[n].key != b.target[q].key && source[m].key != target[n].key
  }

  /** k is a name such a recording has or had. */
  ghost predicate NamesRenamed(b: Baseline, source: seq<Track>, target: seq<Track>, k: Key) {
    exists isrc, p: nat, q: nat, m: nat, n: nat ::
      && RenamedApart(b, source, target, isrc, p, q, m, n)
      && (k == b.source[p].key || k == b.target[q].key || k == source[m].key || k == target[n].key)
  }

  lemma {:induction false} LastIsKept(tracks: seq<Track>, isrc: Isrc, n: nat)
    requires LastWith(tracks, isrc, n)
    ensures isrc in ByIsrc(tracks) && ByIsrc(tracks)[isrc] == tracks[n]
  {
    if n < |tracks| - 1 {
      LastIsKept(tracks[..|tracks| - 1], isrc, n);
    }
  }

  lemma {:induction false} KeptIsLast(tracks: seq<Track>, isrc: Isrc) returns (n: nat)
    requires isrc in ByIsrc(tracks)
    ensures LastWith(tracks, isrc, n)
  {
    if tracks[|tracks| - 1].isrc == Some(isrc) {
      n := |tracks| - 1;
    } else {
      n := KeptIsLast(tracks[..|tracks| - 1], isrc);
    }
  }

  lemma ClashOf(b: Baseline, source: seq<Track>, target: seq<Track>, isrc: Isrc, p: nat, q: nat, m: nat, n: nat)
    requires RenamedApart(b, source, target, isrc, p, q, m, n)
    ensures var v := ViewOf(b, source, target);
            && isrc in v.Shared() && v.Clash(isrc)
            && v.KeysAt(isrc) == {b.source[p].key, b.target[q].key, source[m].key, target[n].key}
  {
    LastIsKept(b.source, isrc, p);
    LastIsKept(b.target, isrc, q);
    LastIsKept(source, isrc, m);
    LastIsKept(target, isrc, n);
  }

  lemma PlacesOf(b: Baseline, source: seq<Track>, target: seq<Track>, isrc: Isrc)
    returns (p: nat, q: nat, m: nat, n: nat)
    requires var v := ViewOf(b, source, target); isrc in v.Shared() && v.Clash(isrc)
    ensures RenamedApart(b, source, target, isrc, p, q, m, n)
  {
    p := KeptIsLast(b.source, isrc);
    q := KeptIsLast(b.target, isrc);
    m := KeptIsLast(source, isrc);
    n := KeptIsLast(target, isrc);
    LastIsKept(b.source, isrc, p);
    LastIsKept(b.target, isrc, q);
    LastIsKept(source, isrc, m);
    LastIsKept(target, isrc, n);
  }

  lemma {:induction false} SuppressedFrom(v: IsrcView, isrcs: seq<Isrc>, k: Key)
    ensures k in v.SuppressedBy(isrcs) <==> exists isrc :: isrc in isrcs && k in v.KeysAt(isrc)
  {
    if isrcs != [] {
      var front, last := isrcs[..|isrcs| - 1], isrcs[|isrcs| - 1];
      SuppressedFrom(v, front, k);
      assert isrcs == front + [last];
    }
  }

  lemma SuppressedBecause(v: IsrcView, k: Key) returns (isrc: Isrc)
    requires k in v.Suppressed()
    ensures isrc in v.Shared() && v.Clash(isrc) && k in v.KeysAt(isrc)
  {
    SuppressedFrom(v, SortedSeq(v.Shared()), k);
    isrc :| isrc in SortedSeq(v.Shared()) && k in v.KeysAt(isrc);
  }

  lemma SuppressedIsNamed(b: Baseline, source: seq<Track>, target: seq<Track>, k: Key)
    requires k in ViewOf(b, source, target).Suppressed()
    ensures NamesRenamed(b, source, target, k)
  {
    var isrc := SuppressedBecause(ViewOf(b, source, target), k);
    var p, q, m, n := PlacesOf(b, source, target, isrc);
    ClashOf(b, source, target, isrc, p, q, m, n);
  }

  lemma NamedIsSuppressed(b: Baseline, source: seq<Track>, target: seq<Track>, k: Key)
    requires NamesRenamed(b, source, target, k)
    ensures k in ViewOf(b, source, target).Suppressed()
  {
    var v := ViewOf(b, source, target);
    SuppressedFrom(v, SortedSeq(v.Shared()), k);
    var isrc, p: nat, q: nat, m: nat, n: nat :|
      RenamedApart(b, source, target, isrc, p, q, m, n)
      && (k == b.source[p].key || k == b.target[q].key || k == source[m].key || k == target[n].key);
    ClashOf(b, source, target, isrc, p, q, m, n);
    assert isrc in SortedSeq(v.Shared()) && k in v.KeysAt(isrc);
  }

  /** The suppressed keys are exactly the names of recordings renamed differently on the two sides. */
  lemma SuppressedIff(b: Baseline, source: seq<Track>, target: seq<Track>, k: Key)
    ensures k in ViewOf(b, source, target).Suppressed() <==> NamesRenamed(b, source, target, k)
  {
    if k in ViewOf(b, source, target).Suppressed() {
      SuppressedIsNamed(b, source, target, k);
    }
    if NamesRenamed(b, source, target, k) {
      NamedIsSuppressed(b, source, target, k);
    }
  }

  lemma {:induction false} CollectKeeps<T>(keys: seq<Name>, f: Name -> seq<T>, k: Name, x: T)
    requires k in keys && x in f(k)
    ensures x in Collect(keys, f)
  {
    var front, last := keys[..|keys| - 1], keys[|keys| - 1];
    assert keys == front + [last];
    if k != last {
      CollectKeeps(front, f, k, x);
    }
  }

  /** When x can only be in the block of k, that block decides. */
  lemma InBlock<T>(keys: seq<Name>, f: Name -> seq<T>, k: Name, x: T)
    requires forall k' :: x in f(k') ==> k' == k
    ensures x in Collect(keys, f) <==> k in keys && x in f(k)
  {
    if x in Collect(keys, f) {
      CollectMembers(keys, f, x);
    }
    if k in keys && x in f(k) {
      CollectKeeps(keys, f, k, x);
    }
  }

  lemma InNoBlock<T>(keys: seq<Name>, f: Name -> seq<T>, x: T)
    requires forall k :: x !in f(k)
    ensures x !in Collect(keys, f)
  {
    if x in Collect(keys, f) {
      CollectMembers(keys, f, x);
    }
  }

  lemma IsrcsReported(v: IsrcView, c: Conflict)
    ensures c in v.Conflicts() <==> c.IsrcConflict? && c.isrc in v.Shared() && v.Clash(c.isrc)
  {
    var isrcs, f := SortedSeq(v.Shared()), (i: Isrc) => v.ConflictsAt(i);
    if c.IsrcConflict? {
      InBlock(isrcs, f, c.isrc, c);
    } else {
      InNoBlock(isrcs, f, c);
    }
  }

  lemma CountsReported(b: Baseline, source: seq<Track>, target: seq<Track>, suppressed: set<Key>, c: Conflict)
    ensures c in Collect(ChangedKeys(b, source, target), ConflictBlock(b, source, target, suppressed))
            <==> c.CountConflict? && c in TwoWayKeyConflicts(b, source, target, suppressed, c.key)
  {
    var keys, g := ChangedKeys(b, source, target), ConflictBlock(b, source, target, suppressed);
    if c.CountConflict? {
      ChangedKey(b, source, target, c.key);
      InBlock(keys, g, c.key, c);
    } else {
      InNoBlock(keys, g, c);
    }
  }

  /** A two-way plan reports an ISRC exactly if the last occurrences that carry it were renamed on both sides, and
      differently. */
  lemma IsrcConflictIff(b: Baseline, source: seq<Track>, target: seq<Track>, policy: Policy, isrc: Isrc)
    ensures IsrcConflict(isrc) in PlanFor(Some(b), source, target, policy, TwoWay).conflicts
            <==> exists p: nat, q: nat, m: nat, n: nat :: RenamedApart(b, source, target, isrc, p, q, m, n)
  {
    var v := ViewOf(b, source, target);
    IsrcsReported(v, IsrcConflict(isrc));
    CountsReported(b, source, target, v.Suppressed(), IsrcConflict(isrc));
    if isrc in v.Shared() && v.Clash(isrc) {
      var p, q, m, n := PlacesOf(b, source, target, isrc);
    }
    if p: nat, q: nat, m: nat, n: nat :| RenamedApart(b, source, target, isrc, p, q, m, n) {
      ClashOf(b, source, target, isrc, p, q, m, n);
    }
  }

  lemma Counted(actions: seq<Action>, a: Action)
    requires a in actions
    ensures Num(actions, a.side, a.kind, a.track.key) > 0
  {
    FilterMembers(Has(a.side, a.kind, a.track.key), actions);
    assert a in Filter(Has(a.side, a.kind, a.track.key), actions);
  }

  /** Then the plan leaves all names of that recording alone: no action, and no other conflict about them. */
  lemma RenamedIsUntouched(b: Baseline, source: seq<Track>, target: seq<Track>, policy: Policy, k: Key)
    requires NamesRenamed(b, source, target, k)
    ensures var plan := PlanFor(Some(b), source, target, policy, TwoWay);
            && (forall a :: a in plan.actions ==> a.track.key != k)
            && (forall c :: c in plan.conflicts && c.CountConflict? ==> c.key != k)
  {
    SuppressedIff(b, source, target, k);
    var plan := PlanFor(Some(b), source, target, policy, TwoWay);
    forall a | a in plan.actions ensures a.track.key != k {
      PlanNum(Some(b), source, target, policy, TwoWay, a.side, a.kind, k);
      Counted(plan.actions, a);
    }
    forall c | c in plan.conflicts && c.CountConflict? ensures c.key != k {
      CountConflictIff(b, source, target, policy, c.key, c.sourceChange, c.targetChange);
    }
  }

  // ---- Counts changed in opposite directions ---------------------------------------------------------

  /** The count of k went up on one side and down on the other, as the two changes say. */
  predicate OppositeChanges(b: Baseline, source: seq<Track>, target: seq<Track>, k: Key, s: Change, t: Change) {
    || (&& Count(source, k) > Count(b.source, k) && s == WasAdded
        && Count(target, k) < Count(b.target, k) && t == WasRemoved)
    || (&& Count(source, k) < Count(b.source, k) && s == WasRemoved
        && Count(target, k) > Count(b.target, k) && t == WasAdded)
  }

  lemma ReportedForKey(b: Baseline, source: seq<Track>, target: seq<Track>, policy: Policy, c: Conflict)
    requires c.CountConflict?
    ensures c in PlanFor(Some(b), source, target, policy, TwoWay).conflicts
            <==> c in TwoWayKeyConflicts(b, source, target, ViewOf(b, source, target).Suppressed(), c.key)
  {
    IsrcsReported(ViewOf(b, source, target), c);
    CountsReported(b, source, target, ViewOf(b, source, target).Suppressed(), c);
  }

  lemma OpposedIff(b: Baseline, source: seq<Track>, target: seq<Track>, suppressed: set<Key>, k: Key, s: Change,
                   t: Change)
    ensures CountConflict(k, s, t) in TwoWayKeyConflicts(b, source, target, suppressed, k)
            <==> OppositeChanges(b, source, target, k, s, t) && k !in suppressed
  {
  }

  /** A two-way plan reports a key with these two changes exactly if its counts changed so, and it is no name of a
      recording renamed differently on the two sides. */
  lemma CountConflictIff(b: Baseline, source: seq<Track>, target: seq<Track>, policy: Policy, k: Key, s: Change,
                         t: Change)
    ensures CountConflict(k, s, t) in PlanFor(Some(b), source, target, policy, TwoWay).conflicts
            <==> OppositeChanges(b, source, target, k, s, t) && !NamesRenamed(b, source, target, k)
  {
    SuppressedIff(b, source, target, k);
    ReportedForKey(b, source, target, policy, CountConflict(k, s, t));
    OpposedIff(b, source, target, ViewOf(b, source, target).Suppressed(), k, s, t);
  }

  /** What one side gains and loses, by its own change and the other side's. */
  lemma MoveArithmetic(mineBefore: nat, mineNow: nat, otherBefore: nat, otherNow: nat)
    ensures var mine, other := mineNow - mineBefore, otherNow - otherBefore;
            && Monus(Monus(otherNow, otherBefore), Monus(mineNow, mineBefore))
               == (if other <= 0 || other <= mine then 0 else other - Max(mine, 0))
            && Monus(Monus(otherBefore, otherNow), Monus(mineBefore, mineNow))
               == (if other >= 0 || other >= mine then 0 else Min(mine, 0) - other)
  {
  }

  lemma OpposedApart(b: Baseline, source: seq<Track>, target: seq<Track>, side: Side, k: Key)
    ensures var mine := Count(SideOf(source, target, side), k) - Count(SideOf(b.source, b.target, side), k);
            var other := Count(SideOf(source, target, Other(side)), k)
                         - Count(SideOf(b.source, b.target, Other(side)), k);
            Opposed(b, source, target, k) <==> mine > 0 > other || mine < 0 < other
  {
  }

  lemma TwoWaySide(b: Baseline, source: seq<Track>, target: seq<Track>, policy: Policy, side: Side, k: Key)
    requires !NamesRenamed(b, source, target, k)
    ensures var actions := PlanFor(Some(b), source, target, policy, TwoWay).actions;
            var mine := Count(SideOf(source, target, side), k) - Count(SideOf(b.source, b.target, side), k);
            var other := Count(SideOf(source, target, Other(side)), k)
                         - Count(SideOf(b.source, b.target, Other(side)), k);
            var apart := mine > 0 > other || mine < 0 < other;
            && Num(actions, side, AddTrack, k) == (if apart || other <= 0 || other <= mine then 0
                                                   else other - Max(mine, 0))
            && Num(actions, side, RemoveTrack, k) == (if apart || other >= 0 || other >= mine then 0
                                                      else Min(Min(mine, 0) - other,
                                                               Count(SideOf(source, target, side), k)))
  {
    SuppressedIff(b, source, target, k);
    PlanNum(Some(b), source, target, policy, TwoWay, side, AddTrack, k);
    PlanNum(Some(b), source, target, policy, TwoWay, side, RemoveTrack, k);
    OpposedApart(b, source, target, side, k);
    if !Opposed(b, source, target, k) {
      TwoWayPlanned(b, source, target, policy, side, k);
    }
    MoveArithmetic(Count(SideOf(b.source, b.target, side), k), Count(SideOf(source, target, side), k),
                   Count(SideOf(b.source, b.target, Other(side)), k), Count(SideOf(source, target, Other(side)), k));
  }

  /** The numbers of a two-way plan for a key that is no name of a recording renamed apart. Each side gets what the
      other gained beyond its own gain, and loses what the other lost beyond its own loss as far as it still has
      copies; nothing moves when one side gained and the other lost. */
  lemma TwoWayMoves(b: Baseline, source: seq<Track>, target: seq<Track>, policy: Policy, k: Key)
    requires !NamesRenamed(b, source, target, k)
    ensures var actions := PlanFor(Some(b), source, target, policy, TwoWay).actions;
            var s, t := Count(source, k) - Count(b.source, k), Count(target, k) - Count(b.target, k);
            var apart := s > 0 > t || s < 0 < t;
            && Num(actions, Target, AddTrack, k) == (if apart || s <= 0 || s <= t then 0 else s - Max(t, 0))
            && Num(actions, Source, AddTrack, k) == (if apart || t <= 0 || t <= s then 0 else t - Max(s, 0))
            && Num(actions, Target, RemoveTrack, k)
               == (if apart || s >= 0 || s >= t then 0 else Min(Min(t, 0) - s, Count(target, k)))
            && Num(actions, Source, RemoveTrack, k)
               == (if apart || t >= 0 || t >= s then 0 else Min(Min(s, 0) - t, Count(source, k)))
  {
    TwoWaySide(b, source, target, policy, Target, k);
    TwoWaySide(b, source, target, policy, Source, k);
  }

  /** A two-way plan is free of conflicts exactly if no recording was renamed differently on the two sides and no
      count went up on one side and down on the other. */
  lemma ConflictFreeIff(b: Baseline, source: seq<Track>, target: seq<Track>, policy: Policy)
    ensures PlanFor(Some(b), source, target, policy, TwoWay).conflicts == []
            <==> (forall isrc, p: nat, q: nat, m: nat, n: nat :: !RenamedApart(b, source, target, isrc, p, q, m, n))
                 && (forall k, s, t :: !OppositeChanges(b, source, target, k, s, t))
  {
    var cs := PlanFor(Some(b), source, target, policy, TwoWay).conflicts;
    if cs != [] {
      var c := cs[0];
      assert c in cs;
      if c.IsrcConflict? {
        IsrcConflictIff(b, source, target, policy, c.isrc);
      } else {
        CountConflictIff(b, source, target, policy, c.key, c.sourceChange, c.targetChange);
      }
    }
    if isrc, p: nat, q: nat, m: nat, n: nat :| RenamedApart(b, source, target, isrc, p, q, m, n) {
      IsrcConflictIff(b, source, target, policy, isrc);
    } else if k, s, t :| OppositeChanges(b, source, target, k, s, t) {
      CountConflictIff(b, source, target, policy, k, s, t);
    }
  }

  // ---- Order ---------------------------------------------------------------------------------------------

  /** The source's actions come first, on one side additions before removals, then smaller keys, then smaller
      positions, a missing position counting as 0. */
  predicate InPlanOrder(a: Action, c: Action) {
    || (a.side == Source && c.side == Target)
    || (a.side == c.side && a.kind == AddTrack && c.kind == RemoveTrack)
    || (a.side == c.side && a.kind == c.kind && a.track.key.rank < c.track.key.rank)
    || (&& a.side == c.side && a.kind == c.kind && a.track.key == c.track.key
        && (a.track.position.None? || a.track.position == Some(0)
            || (c.track.position.Some? && a.track.position.value <= c.track.position.value)))
  }

  lemma SortedIsInOrder(xs: seq<Action>, i: nat, j: nat)
    requires i < j < |SortedActions(xs)|
    ensures InPlanOrder(SortedActions(xs)[i], SortedActions(xs)[j])
  {
    ActionOrder();
    SortSorts(ActionLe, xs);
    var a, c := SortedActions(xs)[i], SortedActions(xs)[j];
    assert ActionLe(a, c);
    assert Name(a.track.key.rank) == a.track.key && Name(c.track.key.rank) == c.track.key;
  }

  lemma PlanIsInOrder(b: Option<Baseline>, source: seq<Track>, target: seq<Track>, policy: Policy, mode: Mode, i: nat,
                      j: nat)
    requires i < j < |PlanFor(b, source, target, policy, mode).actions|
    ensures InPlanOrder(PlanFor(b, source, target, policy, mode).actions[i],
                        PlanFor(b, source, target, policy, mode).actions[j])
  {
    match b
    case None => SortedIsInOrder(InitialActions(source, target, EffectivePolicy(policy, mode)), i, j);
    case Some(base) =>
      if mode.SourceToTarget? {
        SortedIsInOrder(FollowActions(base, source, target), i, j);
      } else {
        SortedIsInOrder(TwoWayActions(base, source, target), i, j);
      }
  }

  /** Conflicts over recordings come first, by ISRC, then those over counts, by key; none is reported twice. */
  predicate InReportOrder(c: Conflict, d: Conflict) {
    || (c.IsrcConflict? && d.CountConflict?)
    || (c.IsrcConflict? && d.IsrcConflict? && c.isrc.rank < d.isrc.rank)
    || (c.CountConflict? && d.CountConflict? && c.key.rank < d.key.rank)
  }

  predicate Reported(cs: seq<Conflict>) {
    forall i, j :: 0 <= i < j < |cs| ==> InReportOrder(cs[i], cs[j])
  }

  predicate AtMostOne(cs: seq<Conflict>, k: Name) {
    |cs| <= 1 && forall c :: c in cs ==> c == IsrcConflict(k) || (c.CountConflict? && c.key == k)
  }

  lemma {:induction false} ReportedInOrder(keys: seq<Name>, f: Name -> seq<Conflict>, isrcs: bool)
    requires Ascending(keys)
    requires forall k :: AtMostOne(f(k), k) && forall c :: c in f(k) ==> c.IsrcConflict? == isrcs
    ensures Reported(Collect(keys, f)) && forall c :: c in Collect(keys, f) ==> c.IsrcConflict? == isrcs
  {
    if keys != [] {
      var front, last := keys[..|keys| - 1], keys[|keys| - 1];
      ReportedInOrder(front, f, isrcs);
      assert AtMostOne(f(last), last);
      forall c | c in Collect(front, f), d | d in f(last) ensures InReportOrder(c, d) {
        CollectMembers(front, f, c);
        var k :| k in front && c in f(k);
        assert AtMostOne(f(k), k);
        assert exists i :: 0 <= i < |front| && front[i] == k;
      }
    }
  }

  lemma IsrcsInOrder(v: IsrcView)
    ensures Reported(v.Conflicts()) && forall c :: c in v.Conflicts() ==> c.IsrcConflict?
  {
    ReportedInOrder(SortedSeq(v.Shared()), (i: Isrc) => v.ConflictsAt(i), true);
  }

  lemma CountsInOrder(b: Baseline, source: seq<Track>, target: seq<Track>, suppressed: set<Key>)
    ensures var cs := Collect(ChangedKeys(b, source, target), ConflictBlock(b, source, target, suppressed));
            Reported(cs) && forall c :: c in cs ==> c.CountConflict?
  {
    ReportedInOrder(ChangedKeys(b, source, target), ConflictBlock(b, source, target, suppressed), false);
  }

  lemma ReportedInTurn(xs: seq<Conflict>, ys: seq<Conflict>)
    requires Reported(xs) && Reported(ys)
    requires (forall c :: c in xs ==> c.IsrcConflict?) && (forall c :: c in ys ==> c.CountConflict?)
    ensures Reported(xs + ys)
  {
  }

  lemma ConflictsInOrder(b: Option<Baseline>, source: seq<Track>, target: seq<Track>, policy: Policy, mode: Mode)
    ensures Reported(PlanFor(b, source, target, policy, mode).conflicts)
    ensures b.None? || mode == SourceToTarget ==> PlanFor(b, source, target, policy, mode).conflicts == []
  {
    if b.Some? && mode.TwoWay? {
      var v := ViewOf(b.value, source, target);
      IsrcsInOrder(v);
      CountsInOrder(b.value, source, target, v.Suppressed());
      ReportedInTurn(v.Conflicts(), Collect(ChangedKeys(b.value, source, target),
                                            ConflictBlock(b.value, source, target, v.Suppressed())));
    }
  }

  // ---- Occurrences ---------------------------------------------------------------------------------------

  /** Shown at place p, a missing position counting as place 0. */
  function Shown(p: nat): Track -> bool {
    (t: Track) => t.position == Some(p) || (t.position == None && p == 0)
  }

  /** The actions of one kind on one side for one key whose occurrences are shown at place p. */
  function Slot(side: Side, kind: ActionType, k: Key, p: nat): Action -> bool {
    (a: Action) => a.side == side && a.kind == kind && a.track.key == k && Shown(p)(a.track)
  }

  /** The actions name these occurrences, in this order. */
  predicate NamesInTurn(actions: seq<Action>, side: Side, kind: ActionType, tracks: seq<Track>, reason: Reason) {
    && |actions| == |tracks|
    && forall i :: 0 <= i < |actions| ==> actions[i] == Action(side, kind, tracks[i], reason)
  }

  lemma ShownAt(p: nat, t: Track)
    requires Shown(p)(t)
    ensures PositionRank(t) == p
  {
  }

  lemma SlotComparesEqual(side: Side, kind: ActionType, k: Key, p: nat, a: Action, c: Action)
    requires Slot(side, kind, k, p)(a) && Slot(side, kind, k, p)(c)
    ensures ActionLe(a, c)
  {
    ShownAt(p, a.track);
    ShownAt(p, c.track);
  }

  lemma SortedSlot(xs: seq<Action>, side: Side, kind: ActionType, k: Key, p: nat)
    ensures Filter(Slot(side, kind, k, p), SortedActions(xs)) == Filter(Slot(side, kind, k, p), xs)
  {
    var q := Slot(side, kind, k, p);
    ActionOrder();
    forall a, c | a in xs && c in xs && q(a) && q(c) ensures ActionLe(a, c) {
      SlotComparesEqual(side, kind, k, p, a, c);
    }
    EqualsKeepOrder(ActionLe, q, xs);
  }

  lemma OtherSlot(block: seq<Action>, side: Side, kind: ActionType, k: Key, p: nat, other: Key)
    requires forall a :: a in block ==> a.track.key == other
    requires other != k
    ensures Filter(Slot(side, kind, k, p), block) == []
  {
    FilterNone(Slot(side, kind, k, p), block);
  }

  lemma PickSlot(s: set<Key>, f: Key -> seq<Action>, side: Side, kind: ActionType, k: Key, p: nat)
    requires KeyedBlocks(f)
    ensures Filter(Slot(side, kind, k, p), SortedActions(Collect(SortedSeq(s), f)))
            == if k in s then Filter(Slot(side, kind, k, p), f(k)) else []
  {
    var keys, q := SortedSeq(s), Slot(side, kind, k, p);
    SortedSlot(Collect(keys, f), side, kind, k, p);
    SortedDistinct(s);
    forall k' | k' in keys && k' != k ensures Filter(q, f(k')) == [] {
      OtherSlot(f(k'), side, kind, k, p, k');
    }
    CollectPick(q, keys, f, k);
  }

  lemma {:induction false} SlotOfBlock(side: Side, kind: ActionType, tracks: seq<Track>, reason: Reason, s: Side,
                                       d: ActionType, k: Key, p: nat)
    requires forall t :: t in tracks ==> t.key == k
    ensures Filter(Slot(s, d, k, p), Actions(side, kind, tracks, reason))
            == if s == side && d == kind then Actions(side, kind, Filter(Shown(p), tracks), reason) else []
  {
    if tracks != [] {
      ActionsTail(side, kind, tracks, reason);
      SlotOfBlock(side, kind, tracks[1..], reason, s, d, k, p);
      FilterCons(Slot(s, d, k, p), Action(side, kind, tracks[0], reason), Actions(side, kind, tracks[1..], reason));
      if Shown(p)(tracks[0]) {
        var kept := [tracks[0]] + Filter(Shown(p), tracks[1..]);
        ActionsTail(side, kind, kept, reason);
        assert kept[1..] == Filter(Shown(p), tracks[1..]);
      }
    }
  }

  /** At every place, the actions of one kind on one side for one key name these occurrences of `pool`, in playlist
      order and with this reason. */
  ghost predicate Takes(actions: seq<Action>, side: Side, kind: ActionType, k: Key, pool: seq<Track>, reason: Reason) {
    forall p: nat ::
      NamesInTurn(Filter(Slot(side, kind, k, p), actions), side, kind, Filter(Shown(p), pool), reason)
  }

  lemma Beside<T>(q: T -> bool, xs: seq<T>, ys: seq<T>)
    requires Filter(q, ys) == []
    ensures Filter(q, xs + ys) == Filter(q, xs) && Filter(q, ys + xs) == Filter(q, xs)
  {
    FilterAppend(q, xs, ys);
    FilterAppend(q, ys, xs);
  }

  lemma EmptySlot(ys: seq<Action>, side: Side, kind: ActionType, k: Key, p: nat)
    requires forall a :: a in ys ==> a.side != side || a.kind != kind
    ensures Filter(Slot(side, kind, k, p), ys) == []
  {
    FilterNone(Slot(side, kind, k, p), ys);
  }

  lemma ActionsInTurn(side: Side, kind: ActionType, tracks: seq<Track>, reason: Reason)
    ensures NamesInTurn(Actions(side, kind, tracks, reason), side, kind, tracks, reason)
  {
  }

  /** A block beside actions of other kinds or sides says alone what is taken. */
  lemma BlockTakes(ys: seq<Action>, side: Side, kind: ActionType, k: Key, tracks: seq<Track>, reason: Reason, p: nat)
    requires forall t :: t in tracks ==> t.key == k
    requires forall a :: a in ys ==> a.side != side || a.kind != kind
    ensures var block, q := Actions(side, kind, tracks, reason), Slot(side, kind, k, p);
            && NamesInTurn(Filter(q, block + ys), side, kind, Filter(Shown(p), tracks), reason)
            && NamesInTurn(Filter(q, ys + block), side, kind, Filter(Shown(p), tracks), reason)
  {
    EmptySlot(ys, side, kind, k, p);
    Beside(Slot(side, kind, k, p), Actions(side, kind, tracks, reason), ys);
    SlotOfBlock(side, kind, tracks, reason, side, kind, k, p);
    ActionsInTurn(side, kind, Filter(Shown(p), tracks), reason);
  }

  /** Of two blocks for one key, the one of the asked kind and side says what is named. */
  lemma TwoBlocks(xs: seq<Action>, ys: seq<Action>, side: Side, kind: ActionType, k: Key, tracks: seq<Track>,
                  reason: Reason)
    requires forall t :: t in tracks ==> t.key == k
    requires var block := Actions(side, kind, tracks, reason);
             || (xs == block && forall a :: a in ys ==> a.side != side || a.kind != kind)
             || (ys == block && forall a :: a in xs ==> a.side != side || a.kind != kind)
    ensures Takes(xs + ys, side, kind, k, tracks, reason)
  {
    forall p: nat ensures NamesInTurn(Filter(Slot(side, kind, k, p), xs + ys), side, kind, Filter(Shown(p), tracks),
                                      reason)
    {
      if xs == Actions(side, kind, tracks, reason) && forall a :: a in ys ==> a.side != side || a.kind != kind {
        BlockTakes(ys, side, kind, k, tracks, reason, p);
      } else {
        BlockTakes(xs, side, kind, k, tracks, reason, p);
      }
    }
  }

  lemma PlanTakes(s: set<Key>, f: Key -> seq<Action>, side: Side, kind: ActionType, k: Key, pool: seq<Track>,
                  reason: Reason)
    requires KeyedBlocks(f)
    requires if k in s then Takes(f(k), side, kind, k, pool, reason) else pool == []
    ensures Takes(SortedActions(Collect(SortedSeq(s), f)), side, kind, k, pool, reason)
  {
    forall p: nat ensures NamesInTurn(Filter(Slot(side, kind, k, p), SortedActions(Collect(SortedSeq(s), f))), side,
                                      kind, Filter(Shown(p), pool), reason)
    {
      PickSlot(s, f, side, kind, k, p);
    }
  }

  lemma FirstOf(tracks: seq<Track>, k: Key, n: nat)
    requires n <= Count(tracks, k)
    ensures Take(Group(tracks, k), n) == Group(tracks, k)[..n]
    ensures forall t :: t in Group(tracks, k)[..n] ==> t.key == k
  {
    GroupMembers(tracks, k);
  }

  /** A first sync copies the first occurrences of the other side, as many as it adds. */
  lemma InitialTakes(source: seq<Track>, target: seq<Track>, policy: Policy, mode: Mode, side: Side, k: Key)
    ensures var actions := PlanFor(None, source, target, policy, mode).actions;
            var n, others := Num(actions, side, AddTrack, k), Group(SideOf(source, target, Other(side)), k);
            n <= |others| && Takes(actions, side, AddTrack, k, others[..n], InitialItem(Other(side)))
  {
    var p := EffectivePolicy(policy, mode);
    PlanNum(None, source, target, policy, mode, side, AddTrack, k);
    var n, others := InitialAdds(source, target, p, side, k), SideOf(source, target, Other(side));
    FirstOf(others, k, n);
    var up := if p.Merge? || p.SourceAuthoritative?
              then Actions(Target, AddTrack, Group(source, k)[..Monus(Count(source, k), Count(target, k))],
                           InitialItem(Source))
              else [];
    var down := if p.Merge? || p.TargetAuthoritative?
                then Actions(Source, AddTrack, Group(target, k)[..Monus(Count(target, k), Count(source, k))],
                             InitialItem(Target))
                else [];
    TwoBlocks(up, down, side, AddTrack, k, Group(others, k)[..n], InitialItem(Other(side)));
    InitialBlocks(source, target, p);
    CountPositive(source, k);
    CountPositive(target, k);
    PlanTakes(Keys(source) + Keys(target), InitialBlock(source, target, p), side, AddTrack, k, Group(others, k)[..n],
              InitialItem(Other(side)));
  }

  /** No action of the asked kind and side: nothing is named. */
  lemma TakesNothing(actions: seq<Action>, side: Side, kind: ActionType, k: Key, reason: Reason)
    requires forall a :: a in actions ==> a.side != side || a.kind != kind
    ensures Takes(actions, side, kind, k, [], reason)
  {
    forall p: nat ensures NamesInTurn(Filter(Slot(side, kind, k, p), actions), side, kind, Filter(Shown(p), []), reason)
    {
      EmptySlot(actions, side, kind, k, p);
    }
  }

  /** The additions towards one side, or none of them. */
  lemma TwoWayAddsAre(b: Baseline, source: seq<Track>, target: seq<Track>, side: Side, k: Key)
    requires !Opposed(b, source, target, k)
    ensures var n, others := TwoWayNum(b, source, target, side, AddTrack, k), SideOf(source, target, Other(side));
            && n <= Count(others, k)
            && (n > 0 ==> TwoWayAdds(b, source, target, k)
                          == Actions(side, AddTrack, Group(others, k)[..n], AddedOn(Other(side))))
            && (n == 0 ==> forall a :: a in TwoWayAdds(b, source, target, k) ==> a.side != side)
  {
  }

  lemma TwoWayRemovesAre(b: Baseline, source: seq<Track>, target: seq<Track>, side: Side, k: Key)
    requires !Opposed(b, source, target, k)
    ensures var n, own := TwoWayNum(b, source, target, side, RemoveTrack, k), SideOf(source, target, side);
            && n <= Count(own, k)
            && (n > 0 ==> TwoWayRemoves(b, source, target, k)
                          == Actions(side, RemoveTrack, Group(own, k)[..n], RemovedOn(Other(side))))
            && (n == 0 ==> forall a :: a in TwoWayRemoves(b, source, target, k) ==> a.side != side)
  {
  }

  /** The half that may hold actions of the asked kind and side decides what is named. */
  lemma HalfTakes(xs: seq<Action>, ys: seq<Action>, side: Side, kind: ActionType, k: Key, tracks: seq<Track>,
                  reason: Reason)
    requires forall t :: t in tracks ==> t.key == k
    requires if tracks != [] then xs == Actions(side, kind, tracks, reason)
             else forall a :: a in xs ==> a.side != side
    requires forall a :: a in ys ==> a.kind != kind
    ensures Takes(xs + ys, side, kind, k, tracks, reason) && Takes(ys + xs, side, kind, k, tracks, reason)
  {
    if tracks != [] {
      TwoBlocks(xs, ys, side, kind, k, tracks, reason);
      TwoBlocks(ys, xs, side, kind, k, tracks, reason);
    } else {
      TakesNothing(xs + ys, side, kind, k, reason);
      TakesNothing(ys + xs, side, kind, k, reason);
    }
  }

  lemma TwoWayKeyAdds(b: Baseline, source: seq<Track>, target: seq<Track>, side: Side, k: Key)
    requires !Opposed(b, source, target, k)
    ensures var n := TwoWayNum(b, source, target, side, AddTrack, k);
            var others := Group(SideOf(source, target, Other(side)), k);
            && n <= |others|
            && Takes(TwoWayAdds(b, source, target, k) + TwoWayRemoves(b, source, target, k), side, AddTrack, k,
                     others[..n], AddedOn(Other(side)))
  {
    var n, others := TwoWayNum(b, source, target, side, AddTrack, k), SideOf(source, target, Other(side));
    TwoWayAddsAre(b, source, target, side, k);
    TwoWayRemovesMembers(b, source, target, k);
    FirstOf(others, k, n);
    HalfTakes(TwoWayAdds(b, source, target, k), TwoWayRemoves(b, source, target, k), side, AddTrack, k,
              Group(others, k)[..n], AddedOn(Other(side)));
  }

  lemma TwoWayKeyRemoves(b: Baseline, source: seq<Track>, target: seq<Track>, side: Side, k: Key)
    requires !Opposed(b, source, target, k)
    ensures var n := TwoWayNum(b, source, target, side, RemoveTrack, k);
            var own := Group(SideOf(source, target, side), k);
            && n <= |own|
            && Takes(TwoWayAdds(b, source, target, k) + TwoWayRemoves(b, source, target, k), side, RemoveTrack, k,
                     own[..n], RemovedOn(Other(side)))
  {
    var n, own := TwoWayNum(b, source, target, side, RemoveTrack, k), SideOf(source, target, side);
    TwoWayRemovesAre(b, source, target, side, k);
    TwoWayAddsMembers(b, source, target, k);
    FirstOf(own, k, n);
    HalfTakes(TwoWayRemoves(b, source, target, k), TwoWayAdds(b, source, target, k), side, RemoveTrack, k,
              Group(own, k)[..n], RemovedOn(Other(side)));
  }

  /** The block of one key: nothing when the key is suppressed or was changed in opposite directions. */
  lemma TwoWayKeyTakes(b: Baseline, source: seq<Track>, target: seq<Track>, suppressed: set<Key>, side: Side,
                       kind: ActionType, k: Key)
    ensures var from := if kind.AddTrack? then Other(side) else side;
            var n := if k in suppressed then 0 else TwoWayNum(b, source, target, side, kind, k);
            var pool := Group(SideOf(source, target, from), k);
            && n <= |pool|
            && Takes(TwoWayKeyActions(b, source, target, suppressed, k), side, kind, k, pool[..n],
                     if kind.AddTrack? then AddedOn(Other(side)) else RemovedOn(Other(side)))
            && (!Changed(b, source, target, k) ==> n == 0)
  {
    if k in suppressed || Opposed(b, source, target, k) {
      TakesNothing([], side, kind, k, if kind.AddTrack? then AddedOn(Other(side)) else RemovedOn(Other(side)));
    } else if kind.AddTrack? {
      TwoWayKeyAdds(b, source, target, side, k);
    } else {
      TwoWayKeyRemoves(b, source, target, side, k);
    }
  }

  lemma TwoWayPlanTakes(b: Baseline, source: seq<Track>, target: seq<Track>, policy: Policy, side: Side,
                        kind: ActionType, k: Key, pool: seq<Track>, reason: Reason)
    requires Takes(TwoWayKeyActions(b, source, target, ViewOf(b, source, target).Suppressed(), k), side, kind, k, pool,
                   reason)
    requires !Changed(b, source, target, k) ==> pool == []
    ensures Takes(PlanFor(Some(b), source, target, policy, TwoWay).actions, side, kind, k, pool, reason)
  {
    var suppressed := ViewOf(b, source, target).Suppressed();
    TwoWayBlocks(b, source, target, suppressed);
    ChangedKey(b, source, target, k);
    PlanTakes(ChangedSet(b, source, target), TwoWayBlock(b, source, target, suppressed), side, kind, k, pool, reason);
  }

  /** A two-way plan copies the first occurrences of the other side and removes the first of its own. */
  lemma TwoWayTakes(b: Baseline, source: seq<Track>, target: seq<Track>, policy: Policy, side: Side, kind: ActionType,
                    k: Key)
    ensures var actions := PlanFor(Some(b), source, target, policy, TwoWay).actions;
            var from := if kind.AddTrack? then Other(side) else side;
            var n, pool := Num(actions, side, kind, k), Group(SideOf(source, target, from), k);
            && n <= |pool|
            && Takes(actions, side, kind, k, pool[..n],
                     if kind.AddTrack? then AddedOn(Other(side)) else RemovedOn(Other(side)))
  {
    var suppressed := ViewOf(b, source, target).Suppressed();
    PlanNum(Some(b), source, target, policy, TwoWay, side, kind, k);
    var n := PlannedNum(Some(b), source, target, policy, TwoWay, side, kind, k);
    var from := SideOf(source, target, if kind.AddTrack? then Other(side) else side);
    var reason := if kind.AddTrack? then AddedOn(Other(side)) else RemovedOn(Other(side));
    TwoWayKeyTakes(b, source, target, suppressed, side, kind, k);
    TwoWayPlanTakes(b, source, target, policy, side, kind, k, Group(from, k)[..n], reason);
  }

  lemma FollowKeyCopies(b: Baseline, source: seq<Track>, target: seq<Track>, k: Key, picked: seq<Track>)
    requires var n, pool := FollowAdds(b, source, target, k), FollowOccurrences(b, source, k);
             picked == seq(n, i requires 0 <= i < n && n > 0 && pool != [] => pool[i % |pool|])
    ensures Takes(FollowKeyActions(b, source, target, k), Target, AddTrack, k, picked, SourceControls)
    ensures !Changed(b, source, target, k) ==> picked == []
  {
    var pool, n := FollowOccurrences(b, source, k), FollowAdditions(b, source, target, k);
    GroupMembers(source, k);
    GroupMembers(b.source, k);
    var drops := Take(Group(target, k), FollowRemovals(b, source, target, k));
    CycleMembers(pool, n);
    assert picked == Cycle(pool, n);
    TwoBlocks(Actions(Target, AddTrack, Cycle(pool, n), SourceControls),
              Actions(Target, RemoveTrack, drops, SourceControls),
              Target, AddTrack, k, picked, SourceControls);
  }

  lemma FollowPlanTakes(b: Baseline, source: seq<Track>, target: seq<Track>, policy: Policy, kind: ActionType, k: Key,
                        pool: seq<Track>)
    requires Takes(FollowKeyActions(b, source, target, k), Target, kind, k, pool, SourceControls)
    requires !Changed(b, source, target, k) ==> pool == []
    ensures Takes(PlanFor(Some(b), source, target, policy, SourceToTarget).actions, Target, kind, k, pool,
                  SourceControls)
  {
    FollowBlocks(b, source, target);
    ChangedKey(b, source, target, k);
    PlanTakes(ChangedSet(b, source, target), FollowBlock(b, source, target), Target, kind, k, pool, SourceControls);
  }

  /** The occurrences follow-source mode copies: those the source shows, else those it showed at the baseline,
      in rotation. */
  lemma FollowCopies(b: Baseline, source: seq<Track>, target: seq<Track>, policy: Policy, k: Key)
    ensures var actions := PlanFor(Some(b), source, target, policy, SourceToTarget).actions;
            var n := Num(actions, Target, AddTrack, k);
            var pool := if Count(source, k) > 0 then Group(source, k) else Group(b.source, k);
            && (n > 0 ==> pool != [])
            && Takes(actions, Target, AddTrack, k,
                     seq(n, i requires 0 <= i < n && n > 0 && pool != [] => pool[i % |pool|]), SourceControls)
  {
    PlanNum(Some(b), source, target, policy, SourceToTarget, Target, AddTrack, k);
    var n := FollowAdds(b, source, target, k);
    var pool := FollowOccurrences(b, source, k);
    var picked := seq(n, i requires 0 <= i < n && n > 0 && pool != [] => pool[i % |pool|]);
    FollowKeyCopies(b, source, target, k, picked);
    FollowPlanTakes(b, source, target, policy, AddTrack, k, picked);
  }

  lemma FollowKeyDrops(b: Baseline, source: seq<Track>, target: seq<Track>, k: Key)
    ensures var n := FollowDrops(b, source, target, k);
            && n <= Count(target, k)
            && Takes(FollowKeyActions(b, source, target, k), Target, RemoveTrack, k, Group(target, k)[..n],
                     SourceControls)
            && (!Changed(b, source, target, k) ==> n == 0)
  {
    var n := FollowDrops(b, source, target, k);
    FirstOf(target, k, n);
    var adds := Cycle(FollowOccurrences(b, source, k), FollowAdditions(b, source, target, k));
    var drops := Take(Group(target, k), FollowRemovals(b, source, target, k));
    TwoBlocks(Actions(Target, AddTrack, adds, SourceControls),
              Actions(Target, RemoveTrack, drops, SourceControls),
              Target, RemoveTrack, k, Group(target, k)[..n], SourceControls);
  }

  /** It removes the first occurrences the target shows. */
  lemma FollowDropsFirst(b: Baseline, source: seq<Track>, target: seq<Track>, policy: Policy, k: Key)
    ensures var actions := PlanFor(Some(b), source, target, policy, SourceToTarget).actions;
            var n, own := Num(actions, Target, RemoveTrack, k), Group(target, k);
            n <= |own| && Takes(actions, Target, RemoveTrack, k, own[..n], SourceControls)
  {
    PlanNum(Some(b), source, target, policy, SourceToTarget, Target, RemoveTrack, k);
    var n := FollowDrops(b, source, target, k);
    FollowKeyDrops(b, source, target, k);
    FollowPlanTakes(b, source, target, policy, RemoveTrack, k, Group(target, k)[..n]);
  }

  // ---- Nothing is left open --------------------------------------------------------------------------------

  ghost predicate AllInOrder(actions: seq<Action>) {
    forall i, j :: 0 <= i < j < |actions| ==> InPlanOrder(actions[i], actions[j])
  }

  /** Two lists say the same of every side, kind, key and place. */
  ghost predicate AgreeEverywhere(xs: seq<Action>, ys: seq<Action>) {
    forall side, kind, k, p: nat :: Filter(Slot(side, kind, k, p), xs) == Filter(Slot(side, kind, k, p), ys)
  }

  function PlaceOf(t: Track): (p: nat)
    ensures Shown(p)(t)
  {
    if t.position.Some? then t.position.value else 0
  }

  function SlotOf(a: Action): (q: Action -> bool)
    ensures q(a)
  {
    Slot(a.side, a.kind, a.track.key, PlaceOf(a.track))
  }

  lemma AgreeAt(xs: seq<Action>, ys: seq<Action>, a: Action)
    requires AgreeEverywhere(xs, ys)
    ensures Filter(SlotOf(a), xs) == Filter(SlotOf(a), ys)
  {
  }

  /** Whoever is in one list is in the other. */
  lemma AlsoThere(xs: seq<Action>, ys: seq<Action>, a: Action)
    requires AgreeEverywhere(xs, ys) && a in xs
    ensures a in ys
  {
    AgreeAt(xs, ys, a);
    FilterMembers(SlotOf(a), xs);
    FilterMembers(SlotOf(a), ys);
    assert a in Filter(SlotOf(a), xs);
  }

  /** Actions that may stand in either order share side, kind, key and place. */
  lemma BothOrders(a: Action, c: Action)
    requires InPlanOrder(a, c) && InPlanOrder(c, a)
    ensures SlotOf(a)(c) && SlotOf(a) == SlotOf(c)
  {
    assert Name(a.track.key.rank) == a.track.key && Name(c.track.key.rank) == c.track.key;
  }

  lemma FirstIsFirst(xs: seq<Action>, a: Action)
    requires AllInOrder(xs) && xs != [] && a in xs
    ensures xs[0] == a || InPlanOrder(xs[0], a)
  {
    var i :| 0 <= i < |xs| && xs[i] == a;
  }

  lemma FirstsShareSlot(xs: seq<Action>, ys: seq<Action>)
    requires AllInOrder(xs) && AllInOrder(ys) && AgreeEverywhere(xs, ys) && xs != [] && ys != []
    ensures SlotOf(xs[0])(ys[0])
  {
    AlsoThere(xs, ys, xs[0]);
    AlsoThere(ys, xs, ys[0]);
    FirstIsFirst(xs, ys[0]);
    FirstIsFirst(ys, xs[0]);
    if xs[0] != ys[0] {
      BothOrders(xs[0], ys[0]);
    }
  }

  lemma FirstKept<T>(q: T -> bool, xs: seq<T>)
    requires xs != [] && q(xs[0])
    ensures Filter(q, xs) != [] && Filter(q, xs)[0] == xs[0]
  {
  }

  lemma SameFirst(xs: seq<Action>, ys: seq<Action>)
    requires AllInOrder(xs) && AllInOrder(ys) && AgreeEverywhere(xs, ys) && xs != [] && ys != []
    ensures xs[0] == ys[0]
  {
    FirstsShareSlot(xs, ys);
    AgreeAt(xs, ys, xs[0]);
    FirstKept(SlotOf(xs[0]), xs);
    FirstKept(SlotOf(xs[0]), ys);
  }

  lemma RestAgrees(xs: seq<Action>, ys: seq<Action>)
    requires AgreeEverywhere(xs, ys) && xs != [] && ys != [] && xs[0] == ys[0]
    ensures AgreeEverywhere(xs[1..], ys[1..])
  {
    forall side, kind, k, p: nat
      ensures Filter(Slot(side, kind, k, p), xs[1..]) == Filter(Slot(side, kind, k, p), ys[1..])
    {
      var q := Slot(side, kind, k, p);
      assert Filter(q, xs) == Filter(q, ys);
      assert Filter(q, xs) == Kept(q, xs[0]) + Filter(q, xs[1..]);
      assert Filter(q, ys) == Kept(q, xs[0]) + Filter(q, ys[1..]);
      SameRest(Kept(q, xs[0]), Filter(q, xs[1..]), Filter(q, ys[1..]));
    }
  }

  lemma SameRest<T>(front: seq<T>, xs: seq<T>, ys: seq<T>)
    requires front + xs == front + ys
    ensures xs == ys
  {
    assert xs == (front + xs)[|front|..] && ys == (front + ys)[|front|..];
  }

  /** The order of a plan and what it names at every place leave no choice: a list of actions in plan order that
      names the same occurrences is the plan. */
  lemma {:induction false} PlanIsDetermined(xs: seq<Action>, ys: seq<Action>)
    requires AllInOrder(xs) && AllInOrder(ys) && AgreeEverywhere(xs, ys)
    ensures xs == ys
    decreases |xs|
  {
    if xs == [] {
      if ys != [] {
        AlsoThere(ys, xs, ys[0]);
      }
    } else {
      AlsoThere(xs, ys, xs[0]);
      SameFirst(xs, ys);
      RestAgrees(xs, ys);
      PlanIsDetermined(xs[1..], ys[1..]);
    }
  }
}
