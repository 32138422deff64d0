/** Keeping acknowledged additions in the next baseline while a provider listing lags. */
module Overlay {
  import opened Prelude
  import opened Playlists
  import opened Reconciliation
  import opened PlanCounts
  import opened ReconciliationTheorems

  /** An addition a provider accepted, with the recording it was sent as. */
  datatype Acknowledged = Acknowledged(action: Action, resolved: ProviderTrack)

  function AckNum(additions: seq<Acknowledged>, side: Side, k: Key): nat {
    |Filter((a: Acknowledged) => a.action.side == side && a.action.track.key == k, additions)|
  }

  /** The side's acknowledged additions as playlist occurrences. */
  function AsTracks(additions: seq<Acknowledged>, side: Side): seq<Track> {
    if additions == [] then []
    else
      var last := additions[|additions| - 1];
      AsTracks(additions[..|additions| - 1], side) +
      if last.action.side == side then [Keyed(last.resolved, last.action.track.key)] else []
  }

  /** The shortfall of a key against the pre-write count plus acknowledged additions. */
  function Shortfall(state: seq<Track>, before: seq<Track>, additions: seq<Acknowledged>, side: Side, k: Key): nat {
    Monus(Count(before, k) + AckNum(additions, side, k), Count(state, k))
  }

  /** The counts the overlay leaves: visible plus as many additions as are missing and were accepted. */
  ghost predicate Overlaid(r: seq<Track>, state: seq<Track>, before: seq<Track>, additions: seq<Acknowledged>,
                           side: Side) {
    forall k :: Count(r, k)
      == Count(state, k) + Min(AckNum(additions, side, k), Shortfall(state, before, additions, side, k))
  }

  lemma AckNumStep(additions: seq<Acknowledged>, i: nat, side: Side, k: Key)
    requires i < |additions|
    ensures AckNum(additions[..i + 1], side, k) == AckNum(additions[..i], side, k)
            + if additions[i].action.side == side && additions[i].action.track.key == k then 1 else 0
  {
    var p := (a: Acknowledged) => a.action.side == side && a.action.track.key == k;
    assert additions[..i + 1] == additions[..i] + [additions[i]];
    FilterAppend(p, additions[..i], [additions[i]]);
    FilterOne(p, additions[i]);
  }

  /** After the first i additions: each key has as many delayed copies as it needs and could get so far. */
  ghost predicate Progress(delayed: seq<Track>, missing: map<Key, nat>, state: seq<Track>, before: seq<Track>,
                           additions: seq<Acknowledged>, side: Side, i: nat)
    requires i <= |additions|
  {
    && (forall k ::
          Count(delayed, k) == Min(AckNum(additions[..i], side, k), Shortfall(state, before, additions, side, k)))
    && (forall k :: k in missing ==> missing[k] == Shortfall(state, before, additions, side, k) - Count(delayed, k))
  }

  /** What is appended is a sub-bag of the first i acknowledged additions of the side. */
  ghost predicate FromAdds(delayed: seq<Track>, additions: seq<Acknowledged>, side: Side, i: nat)
    requires i <= |additions|
  {
    multiset(delayed) <= multiset(AsTracks(additions[..i], side))
  }

  lemma DelayedTracks(delayed: seq<Track>, additions: seq<Acknowledged>, side: Side, i: nat)
    requires i < |additions|
    requires FromAdds(delayed, additions, side, i)
    ensures FromAdds(delayed, additions, side, i + 1)
    ensures additions[i].action.side == side ==>
              FromAdds(delayed + [Keyed(additions[i].resolved, additions[i].action.track.key)], additions, side, i + 1)
  {
    assert additions[..i + 1][..i] == additions[..i];
  }

  lemma ProgressSkip(delayed: seq<Track>, missing: map<Key, nat>, state: seq<Track>, before: seq<Track>,
                     additions: seq<Acknowledged>, side: Side, i: nat)
    requires i < |additions| && Progress(delayed, missing, state, before, additions, side, i)
    requires additions[i].action.side == side ==>
               additions[i].action.track.key in missing && missing[additions[i].action.track.key] == 0
    ensures Progress(delayed, missing, state, before, additions, side, i + 1)
  {
    forall k
      ensures Count(delayed, k) == Min(AckNum(additions[..i + 1], side, k),
                                       Shortfall(state, before, additions, side, k))
    {
      var n := AckNum(additions[..i], side, k);
      assert Count(delayed, k) == Min(n, Shortfall(state, before, additions, side, k));
      AckNumStep(additions, i, side, k);
    }
  }

  lemma ProgressAdd(delayed: seq<Track>, missing: map<Key, nat>, state: seq<Track>, before: seq<Track>,
                    additions: seq<Acknowledged>, side: Side, i: nat)
    requires i < |additions| && Progress(delayed, missing, state, before, additions, side, i)
    requires additions[i].action.side == side
    requires additions[i].action.track.key in missing && missing[additions[i].action.track.key] > 0
    ensures var track := Keyed(additions[i].resolved, additions[i].action.track.key);
            Progress(delayed + [track], missing[track.key := missing[track.key] - 1], state, before, additions, side,
                     i + 1)
  {
    var track := Keyed(additions[i].resolved, additions[i].action.track.key);
    forall k ensures Count(delayed + [track], k) == Count(delayed, k) + if track.key == k then 1 else 0 {
      CountAppend(delayed, [track], k);
      CountOne(track, k);
    }
    forall k
      ensures Count(delayed + [track], k)
                == Min(AckNum(additions[..i + 1], side, k), Shortfall(state, before, additions, side, k))
    {
      AckNumStep(additions, i, side, k);
    }
  }

  /** The `missing` table: the shortfall of every key that was there before or was added on this side. */
  function ShortfallTable(state: seq<Track>, before: seq<Track>, additions: seq<Acknowledged>,
                          side: Side): (m: map<Key, nat>)
    ensures forall a :: a in additions && a.action.side == side ==> a.action.track.key in m
    ensures forall k :: k in m ==> m[k] == Shortfall(state, before, additions, side, k)
  {
    var added := set a | a in additions && a.action.side == side :: a.action.track.key;
    map k | k in Keys(before) + added :: Shortfall(state, before, additions, side, k)
  }

  /** One turn of the overlay loop. */
  function Step(delayed: seq<Track>, missing: map<Key, nat>, a: Acknowledged, side: Side): (seq<Track>, map<Key, nat>)
    requires a.action.side == side ==> a.action.track.key in missing
  {
    if a.action.side != side || missing[a.action.track.key] == 0 then (delayed, missing)
    else (delayed + [Keyed(a.resolved, a.action.track.key)],
          missing[a.action.track.key := missing[a.action.track.key] - 1])
  }

  lemma StepKeeps(state: seq<Track>, before: seq<Track>, additions: seq<Acknowledged>, side: Side,
                  delayed: seq<Track>, missing: map<Key, nat>, i: nat)
    requires i < |additions| && Progress(delayed, missing, state, before, additions, side, i)
    requires FromAdds(delayed, additions, side, i)
    requires additions[i].action.side == side ==> additions[i].action.track.key in missing
    ensures var next := Step(delayed, missing, additions[i], side);
            && next.1.Keys == missing.Keys && Progress(next.0, next.1, state, before, additions, side, i + 1)
            && FromAdds(next.0, additions, side, i + 1)
  {
    var a := additions[i];
    DelayedTracks(delayed, additions, side, i);
    if a.action.side == side && missing[a.action.track.key] > 0 {
      ProgressAdd(delayed, missing, state, before, additions, side, i);
    } else {
      ProgressSkip(delayed, missing, state, before, additions, side, i);
    }
  }

  // ---- Which additions are appended ---------------------------------------------------------

  /** Where additions of the key on the side are listed. */
  function AckPlaces(additions: seq<Acknowledged>, side: Side, k: Key): set<nat> {
    set i: nat | i < |additions| && additions[i].action.side == side && additions[i].action.track.key == k
  }

  lemma AckPlacesCounted(additions: seq<Acknowledged>, side: Side, k: Key)
    ensures |AckPlaces(additions, side, k)| == AckNum(additions, side, k)
  {
    var p := (a: Acknowledged) => a.action.side == side && a.action.track.key == k;
    PlacesCounted(p, additions);
    assert AckPlaces(additions, side, k) == Places(p, additions);
  }

  /** Addition i is appended: it is on this side, and the visible copies of its key with the earlier additions of
      it are still fewer than the copies before with all additions of it. */
  predicate Appended(state: seq<Track>, before: seq<Track>, additions: seq<Acknowledged>, side: Side, i: nat) {
    && i < |additions| && additions[i].action.side == side
    && var k := additions[i].action.track.key;
       Count(state, k) + |AckPlaces(additions[..i], side, k)| < Count(before, k) + |AckPlaces(additions, side, k)|
  }

  /** The occurrences, one by one, are those of the additions at these places: the recording that was sent, under the
      key of the action. */
  ghost predicate Stand(delayed: seq<Track>, additions: seq<Acknowledged>, places: seq<nat>) {
    && |delayed| == |places|
    && forall n :: 0 <= n < |places| ==>
         && places[n] < |additions|
         && var a := additions[places[n]];
            delayed[n] == Track(a.action.track.key, a.resolved.id, a.resolved.isrc, a.resolved.position,
                                a.resolved.info)
  }

  /** Of the first i additions, exactly the appended ones, in order. */
  ghost predicate StandFor(delayed: seq<Track>, state: seq<Track>, before: seq<Track>, additions: seq<Acknowledged>,
                           side: Side, places: seq<nat>, i: nat) {
    && Stand(delayed, additions, places)
    && (forall m, n :: 0 <= m < n < |places| ==> places[m] < places[n])
    && (forall j: nat :: j in places <==> j < i && Appended(state, before, additions, side, j))
  }

  lemma AppendedIff(state: seq<Track>, before: seq<Track>, additions: seq<Acknowledged>, side: Side,
                    delayed: seq<Track>, missing: map<Key, nat>, i: nat)
    requires i < |additions| && Progress(delayed, missing, state, before, additions, side, i)
    requires additions[i].action.side == side ==> additions[i].action.track.key in missing
    ensures Appended(state, before, additions, side, i)
            <==> additions[i].action.side == side && missing[additions[i].action.track.key] > 0
  {
    var k := additions[i].action.track.key;
    AckPlacesCounted(additions[..i], side, k);
    AckPlacesCounted(additions, side, k);
    assert Count(delayed, k) == Min(AckNum(additions[..i], side, k), Shortfall(state, before, additions, side, k));
  }

  lemma StandStep(state: seq<Track>, before: seq<Track>, additions: seq<Acknowledged>, side: Side,
                  delayed: seq<Track>, places: seq<nat>, i: nat)
    requires i < |additions| && StandFor(delayed, state, before, additions, side, places, i)
    ensures var a := additions[i];
            if Appended(state, before, additions, side, i)
            then StandFor(delayed + [Keyed(a.resolved, a.action.track.key)], state, before, additions, side,
                          places + [i], i + 1)
            else StandFor(delayed, state, before, additions, side, places, i + 1)
  {
    if Appended(state, before, additions, side, i) {
      var longer := places + [i];
      forall n | 0 <= n < |places| ensures places[n] < i {
        assert places[n] in places;
      }
      assert forall j :: j in longer <==> j in places || j == i;
    }
  }

  /** The overlay keeps every visible occurrence and appends, in order, exactly the acknowledged additions of the
      side that are still missing from it, each key's first ones first. So it fills each key's shortfall as far as
      there are additions, and what it appends is a sub-bag of the side's acknowledged adds. */
  method WithAcknowledgedAdditions(state: seq<Track>, before: seq<Track>, additions: seq<Acknowledged>, side: Side)
    returns (r: seq<Track>)
    ensures Overlaid(r, state, before, additions, side)
    ensures state <= r && multiset(r[|state|..]) <= multiset(AsTracks(additions, side))
    ensures exists places :: StandFor(r[|state|..], state, before, additions, side, places, |additions|)
  {
    var missing := ShortfallTable(state, before, additions, side);
    ghost var keys := missing.Keys;
    ghost var places: seq<nat> := [];
    var delayed: seq<Track> := [];
    for i := 0 to |additions|
      invariant missing.Keys == keys
      invariant Progress(delayed, missing, state, before, additions, side, i) && FromAdds(delayed, additions, side, i)
      invariant StandFor(delayed, state, before, additions, side, places, i)
    {
      StepKeeps(state, before, additions, side, delayed, missing, i);
      AppendedIff(state, before, additions, side, delayed, missing, i);
      StandStep(state, before, additions, side, delayed, places, i);
      if Appended(state, before, additions, side, i) {
        places := places + [i];
      }
      var next := Step(delayed, missing, additions[i], side);
      delayed, missing := next.0, next.1;
    }
    OverlayDone(state, before, additions, side, delayed, missing);
    r := state + delayed;
    assert r[|state|..] == delayed;
  }

  lemma OverlayDone(state: seq<Track>, before: seq<Track>, additions: seq<Acknowledged>, side: Side,
                    delayed: seq<Track>, missing: map<Key, nat>)
    requires Progress(delayed, missing, state, before, additions, side, |additions|)
    requires FromAdds(delayed, additions, side, |additions|)
    ensures Overlaid(state + delayed, state, before, additions, side)
    ensures multiset((state + delayed)[|state|..]) <= multiset(AsTracks(additions, side))
  {
    assert additions[..|additions|] == additions;
    assert (state + delayed)[|state|..] == delayed;
    forall k ensures Count(state + delayed, k) == Count(state, k) + Count(delayed, k) {
      CountAppend(state, delayed, k);
    }
  }

  // ---- What the overlay is for --------------------------------------------------------------

  /** What an apply did to one playlist: of the planned additions the provider accepted some, and every count
      moved by those and by the removals. */
  ghost predicate AppliedOn(plan: Plan, before: seq<Track>, now: seq<Track>, additions: seq<Acknowledged>, side: Side) {
    forall k ::
      && AckNum(additions, side, k) <= Num(plan.actions, side, AddTrack, k)
      && Count(now, k) == Count(before, k) + AckNum(additions, side, k) - Num(plan.actions, side, RemoveTrack, k)
  }

  /** A listing that may still hide acknowledged additions and differs in nothing else. */
  ghost predicate HidesOnlyAdds(seen: seq<Track>, now: seq<Track>, additions: seq<Acknowledged>, side: Side) {
    forall k :: Count(now, k) - AckNum(additions, side, k) <= Count(seen, k) <= Count(now, k)
  }

  /** The overlay never restores a removed occurrence: a key the plan removes anywhere keeps its visible count. */
  lemma NeverRestores(b: Option<Baseline>, source: seq<Track>, target: seq<Track>, policy: Policy, mode: Mode,
                      additions: seq<Acknowledged>, seen: seq<Track>, r: seq<Track>, side: Side, other: Side, k: Key)
    requires AckNum(additions, side, k) <= Num(PlanFor(b, source, target, policy, mode).actions, side, AddTrack, k)
    requires Num(PlanFor(b, source, target, policy, mode).actions, other, RemoveTrack, k) > 0
    requires Overlaid(r, seen, SideOf(source, target, side), additions, side)
    ensures Count(r, k) == Count(seen, k)
  {
    OneDirectionPerKey(b, source, target, policy, mode, side, other, k);
  }

  /** Exactly when the repaired count of a key is the true one, whatever changed the playlist: if the key has
      no acknowledged addition, if the true count is the count before plus those, if it is more and the listing
      hides none of them, or if it is less and the listing hides all. */
  lemma OverlayIsExactIff(additions: seq<Acknowledged>, before: seq<Track>, now: seq<Track>, seen: seq<Track>,
                          r: seq<Track>, side: Side, k: Key)
    requires HidesOnlyAdds(seen, now, additions, side) && Overlaid(r, seen, before, additions, side)
    ensures var expected := Count(before, k) + AckNum(additions, side, k);
            Count(r, k) == Count(now, k) <==>
              || AckNum(additions, side, k) == 0
              || Count(now, k) == expected
              || (Count(now, k) > expected && Count(seen, k) == Count(now, k))
              || (Count(now, k) < expected && Count(seen, k) == Count(now, k) - AckNum(additions, side, k))
  {
  }

  /** With only acknowledged additions hidden, the overlay restores the true counts exactly. */
  lemma OverlayIsExact(b: Option<Baseline>, source: seq<Track>, target: seq<Track>, policy: Policy, mode: Mode,
                       additions: seq<Acknowledged>, now: seq<Track>, seen: seq<Track>, r: seq<Track>, side: Side,
                       k: Key)
    requires AppliedOn(PlanFor(b, source, target, policy, mode), SideOf(source, target, side), now, additions, side)
    requires HidesOnlyAdds(seen, now, additions, side)
    requires Overlaid(r, seen, SideOf(source, target, side), additions, side)
    ensures Count(r, k) == Count(now, k)
  {
    OneDirectionPerKey(b, source, target, policy, mode, side, side, k);
    OverlayIsExactIff(additions, SideOf(source, target, side), now, seen, r, side, k);
  }

  /** If the listings hide only acknowledged additions and nobody else edits, the first review after
      they catch up is empty, whatever the mode, the policy and the subset of additions accepted. */
  lemma CaughtUpReviewIsEmpty(b: Option<Baseline>, source: seq<Track>, target: seq<Track>, policy: Policy, mode: Mode,
                              additions: seq<Acknowledged>, sourceNow: seq<Track>, targetNow: seq<Track>,
                              sourceSeen: seq<Track>, targetSeen: seq<Track>, saved: Baseline)
    requires var plan := PlanFor(b, source, target, policy, mode);
             && AppliedOn(plan, source, sourceNow, additions, Source)
             && AppliedOn(plan, target, targetNow, additions, Target)
    requires HidesOnlyAdds(sourceSeen, sourceNow, additions, Source)
               && HidesOnlyAdds(targetSeen, targetNow, additions, Target)
    requires Overlaid(saved.source, sourceSeen, source, additions, Source)
    requires Overlaid(saved.target, targetSeen, target, additions, Target)
    ensures PlanFor(Some(saved), sourceNow, targetNow, policy, mode).actions == []
    ensures forall c :: c in PlanFor(Some(saved), sourceNow, targetNow, policy, mode).conflicts ==> c.IsrcConflict?
  {
    forall k ensures Count(sourceNow, k) == Count(saved.source, k) && Count(targetNow, k) == Count(saved.target, k) {
      OverlayIsExact(b, source, target, policy, mode, additions, sourceNow, sourceSeen, saved.source, Source, k);
      OverlayIsExact(b, source, target, policy, mode, additions, targetNow, targetSeen, saved.target, Target, k);
    }
    UnchangedNeedsNothing(saved, sourceNow, targetNow, policy, mode);
  }
}
