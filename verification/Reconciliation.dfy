/** The reconciliation rules: three-way merge, follow-source mode and first-sync policies. */
module Reconciliation {
  import opened Prelude
  import opened StableSort
  import opened Playlists

  datatype ActionType = AddTrack | RemoveTrack

  datatype Reason =
    | InitialItem(origin: Side)
    | SourceControls
    | AddedOn(origin: Side)
    | RemovedOn(origin: Side)

  datatype Action = Action(side: Side, kind: ActionType, track: Track, reason: Reason)

  datatype Change = WasAdded | WasRemoved

  datatype Conflict =
    | IsrcConflict(isrc: Isrc)
    | CountConflict(key: Key, sourceChange: Change, targetChange: Change)

  datatype Policy = Merge | SourceAuthoritative | TargetAuthoritative | AcceptAsIs

  datatype Mode = TwoWay | SourceToTarget

  datatype Plan = Plan(actions: seq<Action>, conflicts: seq<Conflict>, initialPolicy: Option<Policy>)

  // ---- The order of a plan -------------------------------------------------------

  function SideRank(side: Side): nat {
    if side.Source? then 0 else 1
  }

  function KindRank(kind: ActionType): nat {
    if kind.AddTrack? then 0 else 1
  }

  function PositionRank(t: Track): nat {
    if t.position.Some? then t.position.value else 0
  }

  /** Side, then add before remove, then key, then position, as the tuple key of _sorted_actions. */
  predicate ActionLe(a: Action, b: Action) {
    if a.side != b.side then SideRank(a.side) < SideRank(b.side)
    else if a.kind != b.kind then KindRank(a.kind) < KindRank(b.kind)
    else if a.track.key != b.track.key then a.track.key.rank < b.track.key.rank
    else PositionRank(a.track) <= PositionRank(b.track)
  }

  function SortedActions(actions: seq<Action>): seq<Action> {
    Sort(ActionLe, actions)
  }

  lemma ActionOrder()
    ensures TotalPreorder(ActionLe)
  {
  }

  // ---- Blocks of actions for one key ------------------------------------------------

  function Actions(side: Side, kind: ActionType, tracks: seq<Track>, reason: Reason): seq<Action> {
    seq(|tracks|, i requires 0 <= i < |tracks| => Action(side, kind, tracks[i], reason))
  }

  /** n occurrences drawn from `tracks` in rotation, none when there is nothing to draw from. */
  function Cycle(tracks: seq<Track>, n: nat): seq<Track> {
    if tracks == [] then [] else seq(n, i requires 0 <= i < n => tracks[i % |tracks|])
  }

  function InitialKeyActions(source: seq<Track>, target: seq<Track>, policy: Policy, k: Key): seq<Action> {
    (if policy.Merge? || policy.SourceAuthoritative?
     then Actions(Target, AddTrack, Group(source, k)[..Monus(Count(source, k), Count(target, k))], InitialItem(Source))
     else []) +
    (if policy.Merge? || policy.TargetAuthoritative?
     then Actions(Source, AddTrack, Group(target, k)[..Monus(Count(target, k), Count(source, k))], InitialItem(Target))
     else [])
  }

  function FollowAdditions(b: Baseline, source: seq<Track>, target: seq<Track>, k: Key): nat {
    Monus(Added(b.source, source, k), Added(b.target, target, k)) +
    Monus(Removed(b.target, target, k), Removed(b.source, source, k))
  }

  function FollowRemovals(b: Baseline, source: seq<Track>, target: seq<Track>, k: Key): nat {
    Monus(Removed(b.source, source, k), Removed(b.target, target, k)) +
    Monus(Added(b.target, target, k), Added(b.source, source, k))
  }

  /** The occurrences follow-source mode may copy: live ones, else those of the baseline. */
  function FollowOccurrences(b: Baseline, source: seq<Track>, k: Key): seq<Track> {
    if Group(source, k) != [] then Group(source, k) else Group(b.source, k)
  }

  function FollowKeyActions(b: Baseline, source: seq<Track>, target: seq<Track>, k: Key): seq<Action> {
    Actions(Target, AddTrack, Cycle(FollowOccurrences(b, source, k), FollowAdditions(b, source, target, k)),
            SourceControls) +
    Actions(Target, RemoveTrack, Take(Group(target, k), FollowRemovals(b, source, target, k)), SourceControls)
  }

  /** The key was changed in opposite directions on the two sides. */
  predicate Opposed(b: Baseline, source: seq<Track>, target: seq<Track>, k: Key) {
    || (Added(b.source, source, k) > 0 && Removed(b.target, target, k) > 0)
    || (Removed(b.source, source, k) > 0 && Added(b.target, target, k) > 0)
  }

  function TwoWayAdds(b: Baseline, source: seq<Track>, target: seq<Track>, k: Key): seq<Action> {
    var sa, ta := Added(b.source, source, k), Added(b.target, target, k);
    if sa > ta then Actions(Target, AddTrack, Group(source, k)[..sa - ta], AddedOn(Source))
    else if ta > sa then Actions(Source, AddTrack, Group(target, k)[..ta - sa], AddedOn(Target))
    else []
  }

  function TwoWayRemoves(b: Baseline, source: seq<Track>, target: seq<Track>, k: Key): seq<Action> {
    var sr, tr := Removed(b.source, source, k), Removed(b.target, target, k);
    if sr > tr then Actions(Target, RemoveTrack, Take(Group(target, k), sr - tr), RemovedOn(Source))
    else if tr > sr then Actions(Source, RemoveTrack, Take(Group(source, k), tr - sr), RemovedOn(Target))
    else []
  }

  function TwoWayKeyActions(b: Baseline, source: seq<Track>, target: seq<Track>, suppressed: set<Key>,
                            k: Key): seq<Action> {
    if k in suppressed || Opposed(b, source, target, k) then []
    else TwoWayAdds(b, source, target, k) + TwoWayRemoves(b, source, target, k)
  }

  function TwoWayKeyConflicts(b: Baseline, source: seq<Track>, target: seq<Track>, suppressed: set<Key>,
                              k: Key): seq<Conflict> {
    if k in suppressed || !Opposed(b, source, target, k) then []
    else [CountConflict(k,
            if Added(b.source, source, k) > 0 then WasAdded else WasRemoved,
            if Added(b.target, target, k) > 0 then WasAdded else WasRemoved)]
  }

  predicate Changed(b: Baseline, source: seq<Track>, target: seq<Track>, k: Key) {
    Count(b.source, k) != Count(source, k) || Count(b.target, k) != Count(target, k)
  }

  /** The keys whose count differs from the baseline on either side, in order. */
  function ChangedKeys(b: Baseline, source: seq<Track>, target: seq<Track>): seq<Key> {
    SortedSeq(set k | k in Keys(b.source) + Keys(source) + Keys(b.target) + Keys(target)
                      && Changed(b, source, target, k))
  }

  // ---- Metadata edits to one shared ISRC -----------------------------------------------

  /** The last occurrence that carries each ISRC, as the dict comprehension keeps it. */
  function ByIsrc(tracks: seq<Track>): map<Isrc, Track> {
    if tracks == [] then map[]
    else
      var rest, last := ByIsrc(tracks[..|tracks| - 1]), tracks[|tracks| - 1];
      if last.isrc.Some? then rest[last.isrc.value := last] else rest
  }

  datatype IsrcView = IsrcView(sourceBefore: map<Isrc, Track>, targetBefore: map<Isrc, Track>,
                               sourceNow: map<Isrc, Track>, targetNow: map<Isrc, Track>)
  {
    function Shared(): set<Isrc> {
      sourceBefore.Keys * targetBefore.Keys * sourceNow.Keys * targetNow.Keys
    }

    /** Both sides re-keyed the recording, and differently. */
    predicate Clash(i: Isrc)
      requires i in Shared()
    {
      && sourceNow[i].key != sourceBefore[i].key
      && targetNow[i].key != targetBefore[i].key
      && sourceNow[i].key != targetNow[i].key
    }

    function ConflictsAt(i: Isrc): seq<Conflict> {
      if i in Shared() && Clash(i) then [IsrcConflict(i)] else []
    }

    function KeysAt(i: Isrc): set<Key> {
      if i in Shared() && Clash(i)
      then {sourceBefore[i].key, targetBefore[i].key, sourceNow[i].key, targetNow[i].key}
      else {}
    }

    function SuppressedBy(isrcs: seq<Isrc>): set<Key> {
      if isrcs == [] then {} else SuppressedBy(isrcs[..|isrcs| - 1]) + KeysAt(isrcs[|isrcs| - 1])
    }

    lemma SuppressedStep(isrcs: seq<Isrc>, n: nat)
      requires n < |isrcs|
      ensures SuppressedBy(isrcs[..n + 1]) == SuppressedBy(isrcs[..n]) + KeysAt(isrcs[n])
    {
      assert isrcs[..n + 1][..n] == isrcs[..n];
    }

    /** The keys on either end of a clashing metadata edit; no action touches them. */
    function Suppressed(): set<Key> {
      SuppressedBy(SortedSeq(Shared()))
    }

    function Conflicts(): seq<Conflict> {
      Collect(SortedSeq(Shared()), (i: Isrc) => ConflictsAt(i))
    }
  }

  function ViewOf(b: Baseline, source: seq<Track>, target: seq<Track>): IsrcView {
    IsrcView(ByIsrc(b.source), ByIsrc(b.target), ByIsrc(source), ByIsrc(target))
  }

  // ---- Whole plans --------------------------------------------------------------------

  function InitialBlock(source: seq<Track>, target: seq<Track>, policy: Policy): Key -> seq<Action> {
    (k: Key) => InitialKeyActions(source, target, policy, k)
  }

  function FollowBlock(b: Baseline, source: seq<Track>, target: seq<Track>): Key -> seq<Action> {
    (k: Key) => FollowKeyActions(b, source, target, k)
  }

  function TwoWayBlock(b: Baseline, source: seq<Track>, target: seq<Track>, suppressed: set<Key>): Key -> seq<Action> {
    (k: Key) => TwoWayKeyActions(b, source, target, suppressed, k)
  }

  function ConflictBlock(b: Baseline, source: seq<Track>, target: seq<Track>,
                         suppressed: set<Key>): Key -> seq<Conflict> {
    (k: Key) => TwoWayKeyConflicts(b, source, target, suppressed, k)
  }

  function InitialActions(source: seq<Track>, target: seq<Track>, policy: Policy): seq<Action> {
    Collect(SortedSeq(Keys(source) + Keys(target)), InitialBlock(source, target, policy))
  }

  function FollowActions(b: Baseline, source: seq<Track>, target: seq<Track>): seq<Action> {
    Collect(ChangedKeys(b, source, target), FollowBlock(b, source, target))
  }

  function TwoWayActions(b: Baseline, source: seq<Track>, target: seq<Track>): seq<Action> {
    Collect(ChangedKeys(b, source, target), TwoWayBlock(b, source, target, ViewOf(b, source, target).Suppressed()))
  }

  function TwoWayConflicts(b: Baseline, source: seq<Track>, target: seq<Track>): seq<Conflict> {
    ViewOf(b, source, target).Conflicts() +
    Collect(ChangedKeys(b, source, target), ConflictBlock(b, source, target, ViewOf(b, source, target).Suppressed()))
  }

  /** Follow-source mode overrides the configured first-sync policy. */
  function EffectivePolicy(policy: Policy, mode: Mode): Policy {
    if mode.SourceToTarget? then SourceAuthoritative else policy
  }

  function PlanFor(b: Option<Baseline>, source: seq<Track>, target: seq<Track>, policy: Policy, mode: Mode): Plan {
    match b
    case None =>
      var p := EffectivePolicy(policy, mode);
      Plan(SortedActions(InitialActions(source, target, p)), [], Some(p))
    case Some(base) =>
      if mode.SourceToTarget? then Plan(SortedActions(FollowActions(base, source, target)), [], None)
      else Plan(SortedActions(TwoWayActions(base, source, target)), TwoWayConflicts(base, source, target), None)
  }

  // ---- The same rules as the program's loops --------------------------------------------

  /** `for index in range(n): actions.append(...)` over the first n occurrences. */
  method AppendActions(actions: seq<Action>, side: Side, kind: ActionType, tracks: seq<Track>, n: nat, reason: Reason)
    returns (r: seq<Action>)
    requires n <= |tracks|
    ensures r == actions + Actions(side, kind, tracks[..n], reason)
  {
    r := actions;
    for index := 0 to n
      invariant r == actions + Actions(side, kind, tracks[..index], reason)
    {
      r := r + [Action(side, kind, tracks[index], reason)];
      assert tracks[..index + 1] == tracks[..index] + [tracks[index]];
    }
  }

  method MetadataConflictKeys(b: Baseline, source: seq<Track>, target: seq<Track>)
    returns (suppressed: set<Key>, conflicts: seq<Conflict>)
    ensures suppressed == ViewOf(b, source, target).Suppressed()
    ensures conflicts == ViewOf(b, source, target).Conflicts()
  {
    var view := ViewOf(b, source, target);
    var isrcs := SortedSeq(view.Shared());
    ghost var f := (i: Isrc) => view.ConflictsAt(i);
    suppressed, conflicts := {}, [];
    for n := 0 to |isrcs|
      invariant conflicts == Collect(isrcs[..n], f)
      invariant suppressed == view.SuppressedBy(isrcs[..n])
    {
      var isrc := isrcs[n];
      CollectStep(isrcs, f, n);
      view.SuppressedStep(isrcs, n);
      if view.Clash(isrc) {
        suppressed := suppressed + view.KeysAt(isrc);
        conflicts := conflicts + [IsrcConflict(isrc)];
      }
    }
    assert isrcs[..|isrcs|] == isrcs;
  }

  /** The body of the first-sync loop for one key. */
  method AppendInitialKey(actions: seq<Action>, sourceOccurrences: seq<Track>, targetOccurrences: seq<Track>,
                          ghost source: seq<Track>, ghost target: seq<Track>, policy: Policy, key: Key)
    returns (r: seq<Action>)
    requires sourceOccurrences == Group(source, key) && targetOccurrences == Group(target, key)
    ensures r == actions + InitialKeyActions(source, target, policy, key)
  {
    r := actions;
    var sourceCount, targetCount := |sourceOccurrences|, |targetOccurrences|;
    if policy.Merge? || policy.SourceAuthoritative? {
      r := AppendActions(r, Target, AddTrack, sourceOccurrences, Monus(sourceCount, targetCount), InitialItem(Source));
    }
    if policy.Merge? || policy.TargetAuthoritative? {
      r := AppendActions(r, Source, AddTrack, targetOccurrences, Monus(targetCount, sourceCount), InitialItem(Target));
    }
  }

  method BuildInitialActions(source: seq<Track>, target: seq<Track>, policy: Policy) returns (actions: seq<Action>)
    ensures actions == InitialActions(source, target, policy)
  {
    ghost var f := InitialBlock(source, target, policy);
    var keys := SortedSeq(Keys(source) + Keys(target));
    if policy.AcceptAsIs? {
      CollectEmpty(keys, f);
      return [];
    }
    var sourceGroups := GroupedByKey(source);
    var targetGroups := GroupedByKey(target);
    actions := [];
    for i := 0 to |keys|
      invariant actions == Collect(keys[..i], f)
    {
      CollectStep(keys, f, i);
      LookupGroup(sourceGroups, source, keys[i]);
      LookupGroup(targetGroups, target, keys[i]);
      actions := AppendInitialKey(actions, Lookup(sourceGroups, keys[i]), Lookup(targetGroups, keys[i]),
                                  source, target, policy, keys[i]);
    }
    assert keys[..|keys|] == keys;
  }

  /** The body of the follow-source loop for one key. */
  method AppendFollowKey(actions: seq<Action>, b: Baseline, source: seq<Track>, target: seq<Track>,
                         sourceOccurrences: seq<Track>, targetOccurrences: seq<Track>, key: Key)
    returns (r: seq<Action>)
    requires sourceOccurrences == FollowOccurrences(b, source, key) && targetOccurrences == Group(target, key)
    ensures r == actions + FollowKeyActions(b, source, target, key)
  {
    r := actions;
    var additions := FollowAdditions(b, source, target, key);
    var removals := FollowRemovals(b, source, target, key);
    for index := 0 to additions
      invariant r == actions + Actions(Target, AddTrack, Cycle(sourceOccurrences, index), SourceControls)
    {
      if sourceOccurrences != [] {
        r := r + [Action(Target, AddTrack, sourceOccurrences[index % |sourceOccurrences|], SourceControls)];
      }
    }
    r := AppendActions(r, Target, RemoveTrack, targetOccurrences, Min(removals, |targetOccurrences|), SourceControls);
  }

  method BuildFollowActions(b: Baseline, source: seq<Track>, target: seq<Track>) returns (actions: seq<Action>)
    ensures actions == FollowActions(b, source, target)
  {
    ghost var f := FollowBlock(b, source, target);
    var sourceTracks := GroupedByKey(source);
    var targetTracks := GroupedByKey(target);
    var baselineTracks := GroupedByKey(b.source);
    var keys := ChangedKeys(b, source, target);
    actions := [];
    for i := 0 to |keys|
      invariant actions == Collect(keys[..i], f)
    {
      var key := keys[i];
      CollectStep(keys, f, i);
      LookupGroup(sourceTracks, source, key);
      LookupGroup(targetTracks, target, key);
      LookupGroup(baselineTracks, b.source, key);
      var occurrences := if key in sourceTracks then sourceTracks[key] else Lookup(baselineTracks, key);
      actions := AppendFollowKey(actions, b, source, target, occurrences, Lookup(targetTracks, key), key);
    }
    assert keys[..|keys|] == keys;
  }

  /** The additions of the two-way loop for one key. */
  method AppendTwoWayAdds(actions: seq<Action>, b: Baseline, source: seq<Track>, target: seq<Track>,
                          sourceOccurrences: seq<Track>, targetOccurrences: seq<Track>, key: Key)
    returns (r: seq<Action>)
    requires sourceOccurrences == Group(source, key) && targetOccurrences == Group(target, key)
    ensures r == actions + TwoWayAdds(b, source, target, key)
  {
    var sourceAdded, targetAdded := Added(b.source, source, key), Added(b.target, target, key);
    r := actions;
    if sourceAdded > targetAdded {
      r := AppendActions(r, Target, AddTrack, sourceOccurrences, sourceAdded - targetAdded, AddedOn(Source));
    } else if targetAdded > sourceAdded {
      r := AppendActions(r, Source, AddTrack, targetOccurrences, targetAdded - sourceAdded, AddedOn(Target));
    }
  }

  /** The removals of the two-way loop for one key. */
  method AppendTwoWayRemoves(actions: seq<Action>, b: Baseline, source: seq<Track>, target: seq<Track>,
                             sourceOccurrences: seq<Track>, targetOccurrences: seq<Track>, key: Key)
    returns (r: seq<Action>)
    requires sourceOccurrences == Group(source, key) && targetOccurrences == Group(target, key)
    ensures r == actions + TwoWayRemoves(b, source, target, key)
  {
    var sourceRemoved, targetRemoved := Removed(b.source, source, key), Removed(b.target, target, key);
    r := actions;
    if sourceRemoved > targetRemoved {
      r := AppendActions(r, Target, RemoveTrack, targetOccurrences,
                         Min(sourceRemoved - targetRemoved, |targetOccurrences|), RemovedOn(Source));
    } else if targetRemoved > sourceRemoved {
      r := AppendActions(r, Source, RemoveTrack, sourceOccurrences,
                         Min(targetRemoved - sourceRemoved, |sourceOccurrences|), RemovedOn(Target));
    }
  }

  /** The body of the two-way loop for one key. */
  method AppendTwoWayKey(actions: seq<Action>, conflicts: seq<Conflict>, suppressed: set<Key>,
                         b: Baseline, source: seq<Track>, target: seq<Track>,
                         sourceOccurrences: seq<Track>, targetOccurrences: seq<Track>, key: Key)
    returns (r: seq<Action>, c: seq<Conflict>)
    requires sourceOccurrences == Group(source, key) && targetOccurrences == Group(target, key)
    ensures r == actions + TwoWayKeyActions(b, source, target, suppressed, key)
    ensures c == conflicts + TwoWayKeyConflicts(b, source, target, suppressed, key)
  {
    r, c := actions, conflicts;
    if key in suppressed {
      return;
    }
    var sourceAdded, targetAdded := Added(b.source, source, key), Added(b.target, target, key);
    var sourceRemoved, targetRemoved := Removed(b.source, source, key), Removed(b.target, target, key);
    if (sourceAdded > 0 && targetRemoved > 0) || (sourceRemoved > 0 && targetAdded > 0) {
      c := c + [CountConflict(key,
                              if sourceAdded > 0 then WasAdded else WasRemoved,
                              if targetAdded > 0 then WasAdded else WasRemoved)];
      return;
    }
    r := AppendTwoWayAdds(r, b, source, target, sourceOccurrences, targetOccurrences, key);
    r := AppendTwoWayRemoves(r, b, source, target, sourceOccurrences, targetOccurrences, key);
  }

  method BuildTwoWay(b: Baseline, source: seq<Track>, target: seq<Track>)
    returns (actions: seq<Action>, conflicts: seq<Conflict>)
    ensures actions == TwoWayActions(b, source, target)
    ensures conflicts == TwoWayConflicts(b, source, target)
  {
    var sourceTracks := GroupedByKey(source);
    var targetTracks := GroupedByKey(target);
    var suppressed, isrcConflicts := MetadataConflictKeys(b, source, target);
    ghost var f := TwoWayBlock(b, source, target, suppressed);
    ghost var g := ConflictBlock(b, source, target, suppressed);
    var keys := ChangedKeys(b, source, target);
    var countConflicts := [];
    actions := [];
    for i := 0 to |keys|
      invariant actions == Collect(keys[..i], f)
      invariant countConflicts == Collect(keys[..i], g)
    {
      CollectStep(keys, f, i);
      CollectStep(keys, g, i);
      LookupGroup(sourceTracks, source, keys[i]);
      LookupGroup(targetTracks, target, keys[i]);
      actions, countConflicts := AppendTwoWayKey(actions, countConflicts, suppressed, b, source, target,
                                            Lookup(sourceTracks, keys[i]), Lookup(targetTracks, keys[i]), keys[i]);
    }
    assert keys[..|keys|] == keys;
    conflicts := isrcConflicts + countConflicts;
  }

  method Reconcile(b: Option<Baseline>, source: seq<Track>, target: seq<Track>, policy: Policy, mode: Mode)
    returns (plan: Plan)
    ensures plan == PlanFor(b, source, target, policy, mode)
  {
    match b
    case None =>
      var p := if mode.SourceToTarget? then SourceAuthoritative else policy;
      var actions := BuildInitialActions(source, target, p);
      plan := Plan(SortedActions(actions), [], Some(p));
    case Some(base) =>
      if mode.SourceToTarget? {
        var actions := BuildFollowActions(base, source, target);
        plan := Plan(SortedActions(actions), [], None);
      } else {
        var actions, conflicts := BuildTwoWay(base, source, target);
        plan := Plan(SortedActions(actions), conflicts, None);
      }
  }
}
