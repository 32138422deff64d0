/** What the identity layer promises of an apply: a sound preflight, and when saving re-keys nothing. */
module IdentityTheorems {
  import opened Prelude
  import opened StableSort
  import opened Playlists
  import opened Reconciliation
  import opened PlanCounts
  import opened ReconciliationTheorems
  import opened TrackIdentity

  // ---- Preflight soundness ----------------------------------------------------------------

  /** What a provider did with one action of the plan: nothing was sent, or it accepted or rejected it. */
  datatype Outcome = NotSent | Accepted | Rejected

  /** The rows after the first n actions of an apply, None once a save raises. */
  function Saves(table: Table, actions: seq<Action>, res: Resolutions, outcomes: seq<Outcome>, n: nat): Option<Table>
    requires n <= |actions| == |outcomes|
  {
    if n == 0 then Some(table)
    else match Saves(table, actions, res, outcomes, n - 1)
         case None => None
         case Some(t) =>
           if !ResolvedAdd(actions, res, n - 1) then Some(t)
           else match outcomes[n - 1]
                case NotSent => Some(t)
                case Accepted => SaveResolved(t, actions[n - 1], res[n - 1])
                case Rejected => Some(Invalidate(t, actions[n - 1], res[n - 1]))
  }

  /** Each row keeps the key it had before, or has the key of a resolved addition it belongs to. */
  ghost predicate Traceable(t: Table, table: Table, actions: seq<Action>, res: Resolutions) {
    forall r :: r in t ==>
      || (r in table && t[r].key == table[r].key)
      || (exists i: nat ::
            ResolvedAdd(actions, res, i) && RowOf(actions, res, i, r) && t[r].key == actions[i].track.key)
  }

  lemma TraceableAgrees(t: Table, table: Table, actions: seq<Action>, res: Resolutions, i: nat, r: RowId)
    requires Agree(table, actions, res) && Traceable(t, table, actions, res)
    requires ResolvedAdd(actions, res, i) && RowOf(actions, res, i, r) && r in t
    ensures t[r].key == actions[i].track.key
  {
  }

  lemma SaveStays(t: Table, table: Table, actions: seq<Action>, res: Resolutions, i: nat, r: RowId,
                  other: ProviderTrack, p: Provenance)
    requires Agree(table, actions, res) && Traceable(t, table, actions, res)
    requires ResolvedAdd(actions, res, i) && RowOf(actions, res, i, r)
    ensures SaveMapping(t, r, actions[i].track.key, other, p).Some?
    ensures Traceable(SaveMapping(t, r, actions[i].track.key, other, p).value, table, actions, res)
  {
    if r in t {
      TraceableAgrees(t, table, actions, res, i, r);
    }
  }

  /** A plan whose persisted resolutions pass the preflight never raises a mapping conflict while its
      additions are saved, whichever of them the providers accept, reject or never receive. */
  lemma {:induction false} PreflightIsSound(table: Table, actions: seq<Action>, res: Resolutions,
                                            outcomes: seq<Outcome>, n: nat)
    requires n <= |actions| == |outcomes| && Agree(table, actions, res)
    ensures Saves(table, actions, res, outcomes, n).Some?
    ensures Traceable(Saves(table, actions, res, outcomes, n).value, table, actions, res)
  {
    if n > 0 {
      PreflightIsSound(table, actions, res, outcomes, n - 1);
      var t := Saves(table, actions, res, outcomes, n - 1).value;
      if ResolvedAdd(actions, res, n - 1) && outcomes[n - 1].Accepted? {
        var a, resolved := actions[n - 1], res[n - 1];
        SaveStays(t, table, actions, res, n - 1, DestinationRow(a, resolved), Recording(a.track), SuccessfulAdd);
        var t' := SaveMapping(t, DestinationRow(a, resolved), a.track.key, Recording(a.track), SuccessfulAdd).value;
        SaveStays(t', table, actions, res, n - 1, OriginRow(a), resolved, ReciprocalAdd);
      }
    }
  }

  /** The preflight also rejects no more than it must: if saving every resolved addition of a plan
      succeeds, the resolutions agreed with the table and with each other. */
  lemma SavedMeansAgreed(table: Table, actions: seq<Action>, res: Resolutions, outcomes: seq<Outcome>)
    requires |actions| == |outcomes| && AllAccepted(actions, res, outcomes)
    requires forall i :: i in res ==> i < |actions|
    requires Saves(table, actions, res, outcomes, |actions|).Some?
    ensures Agree(table, actions, res)
  {
    var last := Saves(table, actions, res, outcomes, |actions|).value;
    forall i: nat, r | ResolvedAdd(actions, res, i) && RowOf(actions, res, i, r)
      ensures r in last && last[r].key == actions[i].track.key && (r in table ==> table[r].key == last[r].key)
    {
      SavedRow(table, actions, res, outcomes, |actions|, i, r);
    }
  }

  ghost predicate AllAccepted(actions: seq<Action>, res: Resolutions, outcomes: seq<Outcome>)
    requires |actions| == |outcomes|
  {
    forall i: nat :: ResolvedAdd(actions, res, i) ==> outcomes[i] == Accepted
  }

  /** When nothing is rejected, every saved row is current and keeps its key to the end. */
  lemma {:induction false} SavedRow(table: Table, actions: seq<Action>, res: Resolutions, outcomes: seq<Outcome>,
                                    n: nat, i: nat, r: RowId)
    requires n <= |actions| == |outcomes| && AllAccepted(actions, res, outcomes)
    requires Saves(table, actions, res, outcomes, n).Some?
    requires i < n && ResolvedAdd(actions, res, i) && RowOf(actions, res, i, r)
    ensures var t := Saves(table, actions, res, outcomes, n).value;
            Current(t, r) && t[r].key == actions[i].track.key && (r in table ==> t[r].key == table[r].key)
    decreases n
  {
    var before := Saves(table, actions, res, outcomes, n - 1).value;
    if r in table {
      OldRow(table, actions, res, outcomes, n - 1, r);
    }
    if i < n - 1 {
      SavedRow(table, actions, res, outcomes, n - 1, i, r);
    }
  }

  lemma {:induction false} OldRow(table: Table, actions: seq<Action>, res: Resolutions, outcomes: seq<Outcome>, n: nat,
                                  r: RowId)
    requires n <= |actions| == |outcomes| && AllAccepted(actions, res, outcomes)
    requires Saves(table, actions, res, outcomes, n).Some? && r in table
    ensures var t := Saves(table, actions, res, outcomes, n).value;
            r in t && t[r].key == table[r].key && (Current(table, r) ==> Current(t, r))
  {
    if n > 0 {
      OldRow(table, actions, res, outcomes, n - 1, r);
    }
  }

  lemma {:induction false} ForeignRow(table: Table, actions: seq<Action>, res: Resolutions, outcomes: seq<Outcome>,
                                      n: nat, r: RowId)
    requires n <= |actions| == |outcomes| && AllAccepted(actions, res, outcomes)
    requires Saves(table, actions, res, outcomes, n).Some?
    requires forall i: nat :: ResolvedAdd(actions, res, i) ==> !RowOf(actions, res, i, r)
    ensures var t := Saves(table, actions, res, outcomes, n).value;
            (r in t <==> r in table) && (r in t ==> t[r] == table[r])
  {
    if n > 0 {
      ForeignRow(table, actions, res, outcomes, n - 1, r);
    }
  }

  // ---- Saving a plan's mappings and the occurrences already there ---------------------------

  ghost predicate NoEquivalents(actions: seq<Action>, res: Resolutions, source: seq<Track>, target: seq<Track>) {
    forall i: nat, x :: ResolvedAdd(actions, res, i) && x in SideOf(source, target, actions[i].side) ==>
      !IsEdge(actions[i], res[i], x)
  }

  lemma {:induction false} MatchedNonempty(actions: seq<Action>, edges: seq<Edge>)
    requires forall e :: e in edges ==> e.index < |actions|
    requires edges != []
    ensures Matched(actions, edges) != []
  {
    if |edges| > 1 {
      MatchedNonempty(actions, edges[..|edges| - 1]);
    } else {
      assert edges[..|edges| - 1] == [];
    }
  }

  /** The apply-time guard passes exactly when no resolved addition is already on its destination
      under another key. */
  lemma GuardMeansNoEquivalents(actions: seq<Action>, res: Resolutions, source: seq<Track>, target: seq<Track>)
    ensures Equivalences(actions, res, source, target) == [] <==> NoEquivalents(actions, res, source, target)
  {
    EdgesMembers(actions, res, source, target);
    var edges := Edges(actions, res, source, target);
    if edges != [] {
      MatchedNonempty(actions, edges);
      assert PlanEdge(actions, res, source, target, edges[0]);
    }
    if i: nat, x :|
        && ResolvedAdd(actions, res, i)
        && x in SideOf(source, target, actions[i].side)
        && IsEdge(actions[i], res[i], x)
    {
      var e := Edge(IdentityScore(res[i], Recording(x)), i, x);
      assert PlanEdge(actions, res, source, target, e);
      assert e in edges;
    }
  }

  /** Occurrences carry the keys the current table gives them. */
  ghost predicate IsKeyed(table: Table, side: Side, tracks: seq<Track>) {
    forall t :: t in tracks ==> Rekey(table, side, t) == t
  }

  /** No resolved addition names as its origin a recording that this playlist now shows under another key. */
  ghost predicate OriginsCurrentOn(actions: seq<Action>, res: Resolutions, tracks: seq<Track>, side: Side) {
    forall i: nat, t :: ResolvedAdd(actions, res, i) && Other(actions[i].side) == side && t in tracks
      && t.id == actions[i].track.id
      ==> t.key == actions[i].track.key
  }

  ghost predicate OriginsCurrent(actions: seq<Action>, res: Resolutions, source: seq<Track>, target: seq<Track>) {
    OriginsCurrentOn(actions, res, source, Source) && OriginsCurrentOn(actions, res, target, Target)
  }

  lemma RekeyAfter(table: Table, actions: seq<Action>, res: Resolutions, outcomes: seq<Outcome>, source: seq<Track>,
                   target: seq<Track>, side: Side, t: Track)
    requires |actions| == |outcomes| && AllAccepted(actions, res, outcomes)
    requires Agree(table, actions, res) && NoEquivalents(actions, res, source, target)
    requires IsKeyed(table, side, SideOf(source, target, side)) && t in SideOf(source, target, side)
    requires OriginsCurrentOn(actions, res, SideOf(source, target, side), side)
    ensures Saves(table, actions, res, outcomes, |actions|).Some?
    ensures Rekey(Saves(table, actions, res, outcomes, |actions|).value, side, t) == t
  {
    PreflightIsSound(table, actions, res, outcomes, |actions|);
    var r := RowId(side, t.id);
    assert Rekey(table, side, t) == t;
    if i: nat :| ResolvedAdd(actions, res, i) && RowOf(actions, res, i, r) {
      SavedRow(table, actions, res, outcomes, |actions|, i, r);
      if r == DestinationRow(actions[i], res[i]) {
        assert !IsEdge(actions[i], res[i], t);
      }
    } else {
      ForeignRow(table, actions, res, outcomes, |actions|, r);
    }
  }

  /** When apply's guards pass and no addition is rejected, saving the plan's mappings re-keys no
      occurrence already on this playlist if and only if no resolved addition names as its origin a recording
      that the playlist now shows under another key. */
  lemma RekeysNothingOnIff(table: Table, actions: seq<Action>, res: Resolutions, outcomes: seq<Outcome>,
                           source: seq<Track>, target: seq<Track>, side: Side)
    requires |actions| == |outcomes| && AllAccepted(actions, res, outcomes)
    requires Agree(table, actions, res) && Equivalences(actions, res, source, target) == []
    requires IsKeyed(table, side, SideOf(source, target, side))
    ensures Saves(table, actions, res, outcomes, |actions|).Some?
    ensures IsKeyed(Saves(table, actions, res, outcomes, |actions|).value, side, SideOf(source, target, side)) <==>
            OriginsCurrentOn(actions, res, SideOf(source, target, side), side)
  {
    GuardMeansNoEquivalents(actions, res, source, target);
    PreflightIsSound(table, actions, res, outcomes, |actions|);
    var after, tracks := Saves(table, actions, res, outcomes, |actions|).value, SideOf(source, target, side);
    if OriginsCurrentOn(actions, res, tracks, side) {
      forall t | t in tracks ensures Rekey(after, side, t) == t {
        RekeyAfter(table, actions, res, outcomes, source, target, side, t);
      }
    } else {
      var i: nat, t :| ResolvedAdd(actions, res, i) && Other(actions[i].side) == side && t in tracks
                       && t.id == actions[i].track.id && t.key != actions[i].track.key;
      SavedRow(table, actions, res, outcomes, |actions|, i, OriginRow(actions[i]));
      assert Rekey(after, side, t) != t;
    }
  }

  /** And on both playlists together. */
  lemma RekeysNothingIff(table: Table, actions: seq<Action>, res: Resolutions, outcomes: seq<Outcome>,
                         source: seq<Track>, target: seq<Track>)
    requires |actions| == |outcomes| && AllAccepted(actions, res, outcomes)
    requires Agree(table, actions, res) && Equivalences(actions, res, source, target) == []
    requires IsKeyed(table, Source, source) && IsKeyed(table, Target, target)
    ensures Saves(table, actions, res, outcomes, |actions|).Some?
    ensures var after := Saves(table, actions, res, outcomes, |actions|).value;
            (IsKeyed(after, Source, source) && IsKeyed(after, Target, target))
              <==> OriginsCurrent(actions, res, source, target)
  {
    RekeysNothingOnIff(table, actions, res, outcomes, source, target, Source);
    RekeysNothingOnIff(table, actions, res, outcomes, source, target, Target);
  }

  // ---- Where a plan's additions come from ------------------------------------------------------

  /** Equal provider ids carry equal keys within one snapshot. */
  ghost predicate OneKeyPerId(tracks: seq<Track>) {
    forall t, u :: t in tracks && u in tracks && t.id == u.id ==> t.key == u.key
  }

  ghost predicate LiveAdds(actions: seq<Action>, source: seq<Track>, target: seq<Track>) {
    forall a :: a in actions && a.kind.AddTrack? ==> a.track in SideOf(source, target, Other(a.side))
  }

  lemma SortedMember(s: set<Key>, f: Key -> seq<Action>, a: Action)
    requires a in SortedActions(Collect(SortedSeq(s), f))
    ensures exists k :: a in f(k)
  {
    ActionOrder();
    SortMembers(ActionLe, Collect(SortedSeq(s), f), a);
    CollectMembers(SortedSeq(s), f, a);
  }

  lemma TwoWayKeyLive(b: Baseline, source: seq<Track>, target: seq<Track>, suppressed: set<Key>, k: Key, a: Action)
    requires a in TwoWayKeyActions(b, source, target, suppressed, k) && a.kind.AddTrack?
    ensures a.track in SideOf(source, target, Other(a.side))
  {
    GroupMembers(source, k);
    GroupMembers(target, k);
  }

  lemma InitialKeyLive(source: seq<Track>, target: seq<Track>, policy: Policy, k: Key, a: Action)
    requires a in InitialKeyActions(source, target, policy, k)
    ensures a.track in SideOf(source, target, Other(a.side))
  {
    GroupMembers(source, k);
    GroupMembers(target, k);
  }

  lemma InitialAddLive(source: seq<Track>, target: seq<Track>, policy: Policy, a: Action)
    requires a in SortedActions(InitialActions(source, target, policy))
    ensures a.track in SideOf(source, target, Other(a.side))
  {
    SortedMember(Keys(source) + Keys(target), InitialBlock(source, target, policy), a);
    var k :| a in InitialBlock(source, target, policy)(k);
    InitialKeyLive(source, target, policy, k, a);
  }

  lemma TwoWayAddLive(b: Baseline, source: seq<Track>, target: seq<Track>, a: Action)
    requires a in SortedActions(TwoWayActions(b, source, target)) && a.kind.AddTrack?
    ensures a.track in SideOf(source, target, Other(a.side))
  {
    var suppressed := ViewOf(b, source, target).Suppressed();
    SortedMember(ChangedSet(b, source, target), TwoWayBlock(b, source, target, suppressed), a);
    var k :| a in TwoWayBlock(b, source, target, suppressed)(k);
    TwoWayKeyLive(b, source, target, suppressed, k, a);
  }

  /** In two-way mode and on a first sync every addition copies a live occurrence of the other side. */
  lemma AddsAreLive(b: Option<Baseline>, source: seq<Track>, target: seq<Track>, policy: Policy, mode: Mode)
    requires b.None? || mode.TwoWay?
    ensures LiveAdds(PlanFor(b, source, target, policy, mode).actions, source, target)
  {
    forall a | a in PlanFor(b, source, target, policy, mode).actions && a.kind.AddTrack?
      ensures a.track in SideOf(source, target, Other(a.side))
    {
      match b
      case None => InitialAddLive(source, target, EffectivePolicy(policy, mode), a);
      case Some(base) => TwoWayAddLive(base, source, target, a);
    }
  }

  /** In follow-source mode an addition copies a live source occurrence, or, only when the source no
      longer has that key at all, one of the baseline. */
  lemma FollowAddsOrigin(b: Baseline, source: seq<Track>, target: seq<Track>, policy: Policy, a: Action)
    requires a in PlanFor(Some(b), source, target, policy, SourceToTarget).actions && a.kind.AddTrack?
    ensures a.side == Target
    ensures a.track in source || (a.track in b.source && Count(source, a.track.key) == 0)
  {
    var f := FollowBlock(b, source, target);
    SortedMember(ChangedSet(b, source, target), f, a);
    var k :| a in f(k);
    FollowKeyMembers(b, source, target, k);
    FollowKeyOrigin(b, source, target, k, a);
  }

  lemma FollowKeyOrigin(b: Baseline, source: seq<Track>, target: seq<Track>, k: Key, a: Action)
    requires a in FollowKeyActions(b, source, target, k) && a.kind.AddTrack?
    ensures a.track in source || (a.track in b.source && Count(source, k) == 0)
  {
    GroupMembers(source, k);
    GroupMembers(b.source, k);
    CycleMembers(FollowOccurrences(b, source, k), FollowAdditions(b, source, target, k));
  }

  lemma LiveMeansCurrent(actions: seq<Action>, res: Resolutions, source: seq<Track>, target: seq<Track>)
    requires LiveAdds(actions, source, target) && OneKeyPerId(source) && OneKeyPerId(target)
    ensures OriginsCurrent(actions, res, source, target)
  {
    forall i: nat | ResolvedAdd(actions, res, i)
      ensures actions[i].track in SideOf(source, target, Other(actions[i].side))
    {
      assert actions[i] in actions;
    }
  }

  /** Hence two-way plans and first syncs never re-key an occurrence that is already there. */
  lemma TwoWayRekeysNothing(table: Table, b: Option<Baseline>, source: seq<Track>, target: seq<Track>, policy: Policy,
                            mode: Mode, res: Resolutions, outcomes: seq<Outcome>)
    requires b.None? || mode.TwoWay?
    requires OneKeyPerId(source) && OneKeyPerId(target)
    requires IsKeyed(table, Source, source) && IsKeyed(table, Target, target)
    requires var actions := PlanFor(b, source, target, policy, mode).actions;
             |actions| == |outcomes| && AllAccepted(actions, res, outcomes)
             && Agree(table, actions, res) && Equivalences(actions, res, source, target) == []
    ensures var actions := PlanFor(b, source, target, policy, mode).actions;
            && Saves(table, actions, res, outcomes, |actions|).Some?
            && IsKeyed(Saves(table, actions, res, outcomes, |actions|).value, Source, source)
            && IsKeyed(Saves(table, actions, res, outcomes, |actions|).value, Target, target)
  {
    var actions := PlanFor(b, source, target, policy, mode).actions;
    AddsAreLive(b, source, target, policy, mode);
    LiveMeansCurrent(actions, res, source, target);
    RekeysNothingIff(table, actions, res, outcomes, source, target);
  }

  // ---- Counts after the writes -------------------------------------------------------------------

  /** The indices below n of the additions sent to one side. */
  function SentAdds(actions: seq<Action>, res: Resolutions, side: Side, n: nat): seq<nat>
    requires n <= |actions|
    ensures var r := SentAdds(actions, res, side, n);
            forall j :: 0 <= j < |r| ==> r[j] < n && ResolvedAdd(actions, res, r[j]) && actions[r[j]].side == side
  {
    if n == 0 then []
    else SentAdds(actions, res, side, n - 1) +
         if ResolvedAdd(actions, res, n - 1) && actions[n - 1].side == side then [n - 1] else []
  }

  function SentKeys(actions: seq<Action>, indices: seq<nat>): seq<Key>
    requires forall j :: 0 <= j < |indices| ==> indices[j] < |actions|
  {
    seq(|indices|, j requires 0 <= j < |indices| => actions[indices[j]].track.key)
  }

  function Removals(actions: seq<Action>, side: Side): seq<Track> {
    if actions == [] then []
    else (if actions[0].side == side && actions[0].kind.RemoveTrack? then [actions[0].track] else []) +
         Removals(actions[1..], side)
  }

  lemma {:induction false} RemovalsNum(actions: seq<Action>, side: Side, k: Key)
    ensures Count(Removals(actions, side), k) == Num(actions, side, RemoveTrack, k)
  {
    if actions != [] {
      RemovalsNum(actions[1..], side, k);
      NumStep(actions, side, RemoveTrack, k);
      var first := if actions[0].side == side && actions[0].kind.RemoveTrack? then [actions[0].track] else [];
      CountAppend(first, Removals(actions[1..], side), k);
      CountOne(actions[0].track, k);
    }
  }

  function NumKeys(keys: seq<Key>, k: Key): nat {
    |Filter((x: Key) => x == k, keys)|
  }

  lemma {:induction false} KeyedCount(tracks: seq<Track>, keys: seq<Key>, k: Key)
    requires |tracks| == |keys| && forall j :: 0 <= j < |keys| ==> tracks[j].key == keys[j]
    ensures Count(tracks, k) == NumKeys(keys, k)
  {
    if keys != [] {
      assert tracks == [tracks[0]] + tracks[1..];
      CountAppend([tracks[0]], tracks[1..], k);
      CountOne(tracks[0], k);
      KeyedCount(tracks[1..], keys[1..], k);
    }
  }

  /** Whether a re-read occurrence counts for k. */
  function ReadsAs(table: Table, side: Side, k: Key): Track -> bool {
    (t: Track) => Rekey(table, side, t).key == k
  }

  lemma {:induction false} AppliedCount(table: Table, side: Side, tracks: seq<Track>, k: Key)
    ensures Count(ApplyMappings(table, side, tracks), k) == |Filter(ReadsAs(table, side, k), tracks)|
  {
    if tracks != [] {
      AppliedCount(table, side, tracks[1..], k);
      assert ApplyMappings(table, side, tracks)
        == [Rekey(table, side, tracks[0])] + ApplyMappings(table, side, tracks[1..]);
      CountAppend([Rekey(table, side, tracks[0])], ApplyMappings(table, side, tracks[1..]), k);
      CountOne(Rekey(table, side, tracks[0]), k);
    }
  }

  lemma AppliedTwice(table: Table, after: Table, side: Side, raw: seq<Track>)
    requires forall r :: Current(table, r) ==> Current(after, r) && after[r].key == table[r].key
    ensures ApplyMappings(after, side, ApplyMappings(table, side, raw)) == ApplyMappings(after, side, raw)
  {
  }

  /** The listing of one side after the writes: the old occurrences without the removed ones and with
      one new occurrence of the recording of each accepted addition, in whatever order the provider lists
      them. */
  ghost predicate WrittenTo(rawNow: seq<Track>, raw: seq<Track>, gone: seq<Track>, arrived: seq<Track>,
                            actions: seq<Action>, res: Resolutions, sent: seq<nat>, side: Side, table: Table)
  {
    && multiset(gone) <= multiset(raw)
    && multiset(rawNow) + multiset(gone) == multiset(raw) + multiset(arrived)
    && ApplyMappings(table, side, gone) == Removals(actions, side)
    && |arrived| == |sent|
    && forall j :: 0 <= j < |sent| ==> ResolvedAdd(actions, res, sent[j]) && arrived[j].id == res[sent[j]].id
  }

  /** The recordings that were there read as before, and those that came read as the plan's keys. */
  ghost predicate KeysKept(table: Table, after: Table, side: Side, raw: seq<Track>, arrived: seq<Track>,
                           keys: seq<Key>)
  {
    && (forall t :: t in raw ==> Rekey(after, side, t) == Rekey(table, side, t))
    && |arrived| == |keys| && forall j :: 0 <= j < |keys| ==> Rekey(after, side, arrived[j]).key == keys[j]
  }

  /** Then every key's count is the one before plus the accepted additions minus the removals. */
  lemma CountsWhenKept(table: Table, after: Table, actions: seq<Action>, res: Resolutions, sent: seq<nat>, side: Side,
                       raw: seq<Track>, gone: seq<Track>, arrived: seq<Track>, rawNow: seq<Track>, k: Key)
    requires WrittenTo(rawNow, raw, gone, arrived, actions, res, sent, side, table)
    requires KeysKept(table, after, side, raw, arrived, SentKeys(actions, sent))
    ensures Count(ApplyMappings(after, side, rawNow), k)
            == Count(ApplyMappings(table, side, raw), k) + NumKeys(SentKeys(actions, sent), k)
               - Num(actions, side, RemoveTrack, k)
  {
    assert ApplyMappings(after, side, raw) == ApplyMappings(table, side, raw);
    GoneStays(table, after, side, raw, gone);
    KeyedCount(ApplyMappings(after, side, arrived), SentKeys(actions, sent), k);
    RemovalsNum(actions, side, k);
    BagCounts(after, side, rawNow, gone, raw, arrived, k);
  }

  lemma GoneStays(table: Table, after: Table, side: Side, raw: seq<Track>, gone: seq<Track>)
    requires multiset(gone) <= multiset(raw)
    requires forall t :: t in raw ==> Rekey(after, side, t) == Rekey(table, side, t)
    ensures ApplyMappings(after, side, gone) == ApplyMappings(table, side, gone)
  {
    forall i | 0 <= i < |gone| ensures Rekey(after, side, gone[i]) == Rekey(table, side, gone[i]) {
      assert gone[i] in multiset(gone);
      assert gone[i] in raw;
    }
  }

  lemma ReadsAsBefore(table: Table, after: Table, side: Side, raw: seq<Track>)
    requires forall r :: Current(table, r) ==> Current(after, r) && after[r].key == table[r].key
    ensures (forall t :: t in raw ==> Rekey(after, side, t) == Rekey(table, side, t))
            <==> IsKeyed(after, side, ApplyMappings(table, side, raw))
  {
    var tracks := ApplyMappings(table, side, raw);
    if forall t :: t in raw ==> Rekey(after, side, t) == Rekey(table, side, t) {
      forall u | u in tracks ensures Rekey(after, side, u) == u {
        var i :| 0 <= i < |tracks| && tracks[i] == u;
        assert raw[i] in raw;
      }
    } else {
      var t :| t in raw && Rekey(after, side, t) != Rekey(table, side, t);
      var i :| 0 <= i < |raw| && raw[i] == t;
      assert tracks[i] in tracks;
    }
  }

  /** With every resolved addition accepted, a playlist keeps its keys exactly when its origins are current. */
  lemma AcceptedKeepKeysIff(table: Table, actions: seq<Action>, res: Resolutions, outcomes: seq<Outcome>,
                            source: seq<Track>, target: seq<Track>, side: Side, raw: seq<Track>, arrived: seq<Track>)
    requires |actions| == |outcomes| && AllAccepted(actions, res, outcomes)
    requires Agree(table, actions, res) && Equivalences(actions, res, source, target) == []
    requires SideOf(source, target, side) == ApplyMappings(table, side, raw)
    requires var sent := SentAdds(actions, res, side, |actions|);
             |arrived| == |sent| && forall j :: 0 <= j < |sent| ==> arrived[j].id == res[sent[j]].id
    ensures Saves(table, actions, res, outcomes, |actions|).Some?
    ensures KeysKept(table, Saves(table, actions, res, outcomes, |actions|).value, side, raw, arrived,
                     SentKeys(actions, SentAdds(actions, res, side, |actions|)))
            <==> OriginsCurrentOn(actions, res, SideOf(source, target, side), side)
  {
    PreflightIsSound(table, actions, res, outcomes, |actions|);
    var after := Saves(table, actions, res, outcomes, |actions|).value;
    forall r | Current(table, r) ensures Current(after, r) && after[r].key == table[r].key {
      OldRow(table, actions, res, outcomes, |actions|, r);
    }
    RekeysNothingOnIff(table, actions, res, outcomes, source, target, side);
    ReadsAsBefore(table, after, side, raw);
    FreshKeys(table, actions, res, outcomes, side, arrived);
  }

  /** After the writes the re-read playlist holds, for every key, the pre-write count plus that
      side's applied additions minus its removals. */
  lemma CountsAfterWrites(table: Table, actions: seq<Action>, res: Resolutions, outcomes: seq<Outcome>,
                          source: seq<Track>, target: seq<Track>, side: Side,
                          raw: seq<Track>, gone: seq<Track>, arrived: seq<Track>, rawNow: seq<Track>, k: Key)
    requires |actions| == |outcomes| && AllAccepted(actions, res, outcomes)
    requires Agree(table, actions, res) && Equivalences(actions, res, source, target) == []
    requires SideOf(source, target, side) == ApplyMappings(table, side, raw)
    requires OriginsCurrentOn(actions, res, SideOf(source, target, side), side)
    requires WrittenTo(rawNow, raw, gone, arrived, actions, res, SentAdds(actions, res, side, |actions|), side, table)
    ensures Saves(table, actions, res, outcomes, |actions|).Some?
    ensures Count(ApplyMappings(Saves(table, actions, res, outcomes, |actions|).value, side, rawNow), k)
            == Count(SideOf(source, target, side), k)
               + NumKeys(SentKeys(actions, SentAdds(actions, res, side, |actions|)), k)
               - Num(actions, side, RemoveTrack, k)
  {
    AcceptedKeepKeysIff(table, actions, res, outcomes, source, target, side, raw, arrived);
    CountsWhenKept(table, Saves(table, actions, res, outcomes, |actions|).value, actions, res,
                   SentAdds(actions, res, side, |actions|), side, raw, gone, arrived, rawNow, k);
  }

  lemma FreshKeys(table: Table, actions: seq<Action>, res: Resolutions, outcomes: seq<Outcome>, side: Side,
                  arrived: seq<Track>)
    requires |actions| == |outcomes| && AllAccepted(actions, res, outcomes)
    requires Saves(table, actions, res, outcomes, |actions|).Some?
    requires var sent := SentAdds(actions, res, side, |actions|);
             |arrived| == |sent| && forall j :: 0 <= j < |sent| ==> arrived[j].id == res[sent[j]].id
    ensures var sent := SentAdds(actions, res, side, |actions|);
            var keyed := ApplyMappings(Saves(table, actions, res, outcomes, |actions|).value, side, arrived);
            forall j :: 0 <= j < |sent| ==> keyed[j].key == SentKeys(actions, sent)[j]
  {
    var sent := SentAdds(actions, res, side, |actions|);
    forall j | 0 <= j < |sent|
      ensures Rekey(Saves(table, actions, res, outcomes, |actions|).value, side, arrived[j]).key
                == actions[sent[j]].track.key
    {
      SavedRow(table, actions, res, outcomes, |actions|, sent[j], DestinationRow(actions[sent[j]], res[sent[j]]));
    }
  }

  lemma BagCounts(table: Table, side: Side, now: seq<Track>, gone: seq<Track>, raw: seq<Track>, arrived: seq<Track>,
                  k: Key)
    requires multiset(now) + multiset(gone) == multiset(raw) + multiset(arrived)
    ensures Count(ApplyMappings(table, side, now), k) + Count(ApplyMappings(table, side, gone), k)
            == Count(ApplyMappings(table, side, raw), k) + Count(ApplyMappings(table, side, arrived), k)
  {
    var p := ReadsAs(table, side, k);
    AppliedCount(table, side, now, k);
    AppliedCount(table, side, gone, k);
    AppliedCount(table, side, raw, k);
    AppliedCount(table, side, arrived, k);
    assert multiset(now + gone) == multiset(raw + arrived);
    FilterBag(p, now + gone, raw + arrived);
    FilterAppend(p, now, gone);
    FilterAppend(p, raw, arrived);
  }
}
