/** Links between recordings already on both sides, and the one way a saved plan can re-key a live occurrence. */
module LinkPasses {
  import opened Prelude
  import opened StableSort
  import opened Playlists
  import opened Reconciliation
  import opened PlanCounts
  import opened TrackIdentity
  import opened IdentityTheorems

  // ---- The equivalences found are a maximal matching -----------------------------------------

  ghost predicate IsMatching(eqs: seq<Equivalent>) {
    forall i, j :: 0 <= i < j < |eqs| ==>
      eqs[i].sourceTrack.id != eqs[j].sourceTrack.id && eqs[i].targetTrack.id != eqs[j].targetTrack.id
  }

  lemma {:induction false} MatchedIsMatching(actions: seq<Action>, edges: seq<Edge>)
    requires forall e :: e in edges ==> e.index < |actions|
    ensures IsMatching(Matched(actions, edges))
    ensures forall q :: q in Matched(actions, edges) ==>
              exists e :: e in edges && q == EquivalentOf(actions[e.index], e.existing)
    ensures forall e :: e in edges ==>
              var q := EquivalentOf(actions[e.index], e.existing);
              q.sourceTrack.id in SourceIds(Matched(actions, edges))
                || q.targetTrack.id in TargetIds(Matched(actions, edges))
  {
    if edges != [] {
      var front, last := edges[..|edges| - 1], edges[|edges| - 1];
      assert edges == front + [last];
      MatchedIsMatching(actions, front);
      var rest := Matched(actions, front);
      var q := EquivalentOf(actions[last.index], last.existing);
      if q.sourceTrack.id !in SourceIds(rest) && q.targetTrack.id !in TargetIds(rest) {
        assert forall i :: 0 <= i < |rest| ==> rest[i] in rest;
        assert SourceIds(rest + [q]) == SourceIds(rest) + {q.sourceTrack.id};
        assert TargetIds(rest + [q]) == TargetIds(rest) + {q.targetTrack.id};
      }
    }
  }

  /** The links found use no provider id twice on either side, each comes from an edge of the plan,
      and no edge could still be added: one of its ends is already matched. */
  lemma MaximalMatching(actions: seq<Action>, res: Resolutions, source: seq<Track>, target: seq<Track>)
    ensures IsMatching(Equivalences(actions, res, source, target))
    ensures forall q :: q in Equivalences(actions, res, source, target) ==>
              exists e :: PlanEdge(actions, res, source, target, e) && q == EquivalentOf(actions[e.index], e.existing)
    ensures forall e :: PlanEdge(actions, res, source, target, e) ==>
              var q := EquivalentOf(actions[e.index], e.existing);
              || q.sourceTrack.id in SourceIds(Equivalences(actions, res, source, target))
              || q.targetTrack.id in TargetIds(Equivalences(actions, res, source, target))
  {
    EdgesMembers(actions, res, source, target);
    MatchedIsMatching(actions, Edges(actions, res, source, target));
  }

  // ---- Saving links ----------------------------------------------------------------------------

  /** Rows are only added or made current; no key changes. */
  ghost predicate Extends(table: Table, after: Table) {
    forall r :: r in table ==> r in after && after[r].key == table[r].key && (Current(table, r) ==> Current(after, r))
  }

  ghost predicate Linked(table: Table, e: Equivalent) {
    && Current(table, SourceRow(e)) && Current(table, TargetRow(e))
    && table[SourceRow(e)].key == table[TargetRow(e)].key
  }

  lemma SaveLinks(table: Table, e: Equivalent)
    requires SaveEquivalent(table, e).Some?
    ensures Linked(SaveEquivalent(table, e).value, e) && Extends(table, SaveEquivalent(table, e).value)
  {
  }

  /** A pass that does not raise leaves both recordings of every link current under one key. */
  lemma {:induction false} SavedLinks(table: Table, eqs: seq<Equivalent>)
    requires SaveEquivalents(table, eqs).Some?
    ensures Extends(table, SaveEquivalents(table, eqs).value)
    ensures forall e :: e in eqs ==> Linked(SaveEquivalents(table, eqs).value, e)
  {
    if eqs != [] {
      SavedLinks(table, eqs[..|eqs| - 1]);
      SaveLinks(SaveEquivalents(table, eqs[..|eqs| - 1]).value, eqs[|eqs| - 1]);
      assert eqs == eqs[..|eqs| - 1] + [eqs[|eqs| - 1]];
    }
  }

  /** Re-reading the playlists after a pass, all occurrences of a linked pair carry one key. */
  lemma OneKeyPerLink(table: Table, eqs: seq<Equivalent>, source: seq<Track>, target: seq<Track>, e: Equivalent, i: nat,
                      j: nat)
    requires SaveEquivalents(table, eqs).Some? && e in eqs
    requires i < |source| && source[i].id == e.sourceTrack.id
    requires j < |target| && target[j].id == e.targetTrack.id
    ensures var after := SaveEquivalents(table, eqs).value;
            ApplyMappings(after, Source, source)[i].key == ApplyMappings(after, Target, target)[j].key
  {
    SavedLinks(table, eqs);
  }

  // ---- Progress ------------------------------------------------------------------------------------

  function Entries(side: Side, tracks: seq<Track>): set<RowId> {
    set t | t in tracks :: RowId(side, t.id)
  }

  /** The recordings shown on both playlists and in the baseline, by account. */
  function AllEntries(b: Option<Baseline>, source: seq<Track>, target: seq<Track>): set<RowId> {
    Entries(Source, source) + Entries(Target, target) +
    if b.None? then {} else Entries(Source, b.value.source) + Entries(Target, b.value.target)
  }

  /** Entries without a current mapping. */
  function Unlinked(table: Table, entries: set<RowId>): set<RowId> {
    set r | r in entries && !Current(table, r)
  }

  ghost predicate AllKeyed(table: Table, b: Option<Baseline>, source: seq<Track>, target: seq<Track>) {
    && IsKeyed(table, Source, source) && IsKeyed(table, Target, target)
    && (b.Some? ==> IsKeyed(table, Source, b.value.source) && IsKeyed(table, Target, b.value.target))
  }

  /** Every addition copies an occurrence of the other side, live or from the baseline. */
  ghost predicate AddsKnown(actions: seq<Action>, b: Option<Baseline>, source: seq<Track>, target: seq<Track>) {
    forall a :: a in actions && a.kind.AddTrack? ==>
      || a.track in SideOf(source, target, Other(a.side))
      || (b.Some? && a.track in SideOf(b.value.source, b.value.target, Other(a.side)))
  }

  lemma PlanAddsKnown(b: Option<Baseline>, source: seq<Track>, target: seq<Track>, policy: Policy, mode: Mode)
    ensures AddsKnown(PlanFor(b, source, target, policy, mode).actions, b, source, target)
  {
    if b.None? || mode.TwoWay? {
      AddsAreLive(b, source, target, policy, mode);
    } else {
      forall a | a in PlanFor(b, source, target, policy, mode).actions && a.kind.AddTrack?
        ensures a.track in SideOf(source, target, Other(a.side))
                  || a.track in SideOf(b.value.source, b.value.target, Other(a.side))
      {
        FollowAddsOrigin(b.value, source, target, policy, a);
      }
    }
  }

  /** The two ends of an edge carry different keys, so at least one has no current mapping unless
      saving the link would raise. */
  lemma EdgeNeedsLink(table: Table, actions: seq<Action>, res: Resolutions, b: Option<Baseline>,
                      source: seq<Track>, target: seq<Track>, e: Edge)
    requires AllKeyed(table, b, source, target) && AddsKnown(actions, b, source, target)
    requires PlanEdge(actions, res, source, target, e)
    ensures var q := EquivalentOf(actions[e.index], e.existing);
            && SourceRow(q) in AllEntries(b, source, target) && TargetRow(q) in AllEntries(b, source, target)
            && (Current(table, SourceRow(q)) && Current(table, TargetRow(q)) ==> SaveEquivalent(table, q).None?)
  {
    var a := actions[e.index];
    assert a in actions;
    assert Rekey(table, a.side, e.existing) == e.existing;
    assert Rekey(table, Other(a.side), a.track) == a.track;
  }

  lemma {:induction false} PrefixSaved(table: Table, eqs: seq<Equivalent>, n: nat)
    requires n <= |eqs| && SaveEquivalents(table, eqs).Some?
    ensures SaveEquivalents(table, eqs[..n]).Some?
    decreases |eqs| - n
  {
    if n == |eqs| {
      assert eqs[..n] == eqs;
    } else {
      PrefixSaved(table, eqs, n + 1);
      assert eqs[..n + 1][..n] == eqs[..n];
    }
  }

  /** A pass that finds links either raises or strictly reduces the entries without a current mapping. */
  lemma PassProgresses(table: Table, actions: seq<Action>, res: Resolutions, b: Option<Baseline>,
                       source: seq<Track>, target: seq<Track>)
    requires AllKeyed(table, b, source, target) && AddsKnown(actions, b, source, target)
    requires Equivalences(actions, res, source, target) != []
    requires SaveEquivalents(table, Equivalences(actions, res, source, target)).Some?
    ensures var after := SaveEquivalents(table, Equivalences(actions, res, source, target)).value;
            var entries := AllEntries(b, source, target);
            Unlinked(after, entries) < Unlinked(table, entries)
              && |Unlinked(after, entries)| < |Unlinked(table, entries)|
  {
    var eqs := Equivalences(actions, res, source, target);
    var after := SaveEquivalents(table, eqs).value;
    var entries := AllEntries(b, source, target);
    SavedLinks(table, eqs);
    MaximalMatching(actions, res, source, target);
    var q := eqs[0];
    assert q in eqs;
    var e :| PlanEdge(actions, res, source, target, e) && q == EquivalentOf(actions[e.index], e.existing);
    EdgeNeedsLink(table, actions, res, b, source, target, e);
    PrefixSaved(table, eqs, 1);
    assert eqs[..1][..0] == [] && eqs[..1][0] == q;
    assert Linked(after, q);
    var r := if Current(table, SourceRow(q)) then TargetRow(q) else SourceRow(q);
    assert r in Unlinked(table, entries) && r !in Unlinked(after, entries);
    SmallerSet(Unlinked(after, entries), Unlinked(table, entries));
  }

  lemma SmallerSet(s: set<RowId>, t: set<RowId>)
    requires s < t
    ensures |s| < |t|
  {
    var r :| r in t && r !in s;
    SubsetSize(s, t - {r});
  }

  lemma {:induction false} SubsetSize(s: set<RowId>, t: set<RowId>)
    requires s <= t
    ensures |s| <= |t|
    decreases |s|
  {
    if s != {} {
      var r :| r in s;
      SubsetSize(s - {r}, t - {r});
    }
  }

  // ---- Re-keyed playlists ------------------------------------------------------------------------------

  lemma RekeyIdempotent(table: Table, side: Side, tracks: seq<Track>)
    ensures IsKeyed(table, side, ApplyMappings(table, side, tracks))
  {
  }

  lemma RekeyEntries(table: Table, side: Side, tracks: seq<Track>)
    ensures Entries(side, ApplyMappings(table, side, tracks)) == Entries(side, tracks)
  {
    forall t | t in tracks ensures RowId(side, t.id) in Entries(side, ApplyMappings(table, side, tracks)) {
      var i :| 0 <= i < |tracks| && tracks[i] == t;
      assert ApplyMappings(table, side, tracks)[i] in ApplyMappings(table, side, tracks);
    }
  }

  lemma RekeyedState(table: Table, b: Option<Baseline>, source: seq<Track>, target: seq<Track>)
    ensures var s, t, c := ApplyMappings(table, Source, source), ApplyMappings(table, Target, target),
              ApplyToBaseline(table, b);
            AllKeyed(table, c, s, t) && AllEntries(c, s, t) == AllEntries(b, source, target)
  {
    RekeyIdempotent(table, Source, source);
    RekeyIdempotent(table, Target, target);
    RekeyEntries(table, Source, source);
    RekeyEntries(table, Target, target);
    if b.Some? {
      RekeyIdempotent(table, Source, b.value.source);
      RekeyIdempotent(table, Target, b.value.target);
      RekeyEntries(table, Source, b.value.source);
      RekeyEntries(table, Target, b.value.target);
    }
  }

  lemma ExtendsTransitive(t: Table, u: Table, v: Table)
    requires Extends(t, u) && Extends(u, v)
    ensures Extends(t, v)
  {
  }

  // ---- The exception to "saving a plan re-keys nothing" ------------------------------------------------

  /** In follow-source mode the only resolved additions that can re-key a live occurrence are those
      taken from the baseline because the source shows the key nowhere. */
  lemma OnlyTheFallbackRekeys(b: Baseline, source: seq<Track>, target: seq<Track>, policy: Policy, res: Resolutions,
                              i: nat, t: Track)
    requires OneKeyPerId(source)
    requires var actions := PlanFor(Some(b), source, target, policy, SourceToTarget).actions;
             ResolvedAdd(actions, res, i) && t in SideOf(source, target, Other(actions[i].side))
             && t.id == actions[i].track.id && t.key != actions[i].track.key
    ensures var a := PlanFor(Some(b), source, target, policy, SourceToTarget).actions[i];
            a.track in b.source && a.track !in source && Count(source, a.track.key) == 0
  {
    var a := PlanFor(Some(b), source, target, policy, SourceToTarget).actions[i];
    FollowAddsOrigin(b, source, target, policy, a);
  }

  const SONG := Name(0)
  const RENAMED := Name(1)
  const RECORDING := Name(10)
  const CHOICE := ProviderTrack(Name(22), None, None, 0)
  const BEFORE := Baseline([Track(SONG, RECORDING, None, None, 0)],
                           [Track(SONG, Name(20), None, None, 0), Track(SONG, Name(21), None, None, 0)])
  const NOW := [Track(RENAMED, RECORDING, None, None, 0)]

  lemma ExampleCounts()
    ensures Count(BEFORE.source, SONG) == 1 && Count(BEFORE.target, SONG) == 2 && Count(NOW, SONG) == 0
    ensures Group(BEFORE.source, SONG) == BEFORE.source
  {
    CountOne(BEFORE.source[0], SONG);
    CountOne(NOW[0], SONG);
    CountOne(BEFORE.target[0], SONG);
    CountOne(BEFORE.target[1], SONG);
    CountAppend([BEFORE.target[0]], [BEFORE.target[1]], SONG);
    assert BEFORE.target == [BEFORE.target[0]] + [BEFORE.target[1]];
  }

  lemma ExampleAdd() returns (i: nat)
    ensures var actions := PlanFor(Some(BEFORE), NOW, [], Merge, SourceToTarget).actions;
            i < |actions| && actions[i].kind == AddTrack && actions[i].side == Target
              && actions[i].track == BEFORE.source[0]
  {
    var actions := PlanFor(Some(BEFORE), NOW, [], Merge, SourceToTarget).actions;
    ExampleCounts();
    PlanNum(Some(BEFORE), NOW, [], Merge, SourceToTarget, Target, AddTrack, SONG);
    var p := Has(Target, AddTrack, SONG);
    FilterMembers(p, actions);
    var a := Filter(p, actions)[0];
    assert a in actions && p(a);
    FollowAddsOrigin(BEFORE, NOW, [], Merge, a);
    i :| 0 <= i < |actions| && actions[i] == a;
  }

  /** It does happen: the source renamed its only recording of a song, the target lost two copies,
      and the operator picked a recording for the copy to restore. Every guard passes, and saving the
      accepted addition re-keys the recording the source now shows under its new name. */
  lemma FollowSourceCanRekey() returns (i: nat)
    ensures var actions := PlanFor(Some(BEFORE), NOW, [], Merge, SourceToTarget).actions;
            var res: Resolutions := map[i := CHOICE];
            var outcomes := seq(|actions|, _ => Accepted);
            && i < |actions| && AllAccepted(actions, res, outcomes)
            && OneKeyPerId(NOW) && IsKeyed(map[], Source, NOW) && IsKeyed(map[], Target, [])
            && Agree(map[], actions, res) && Equivalences(actions, res, NOW, []) == []
            && Saves(map[], actions, res, outcomes, |actions|).Some?
            && !IsKeyed(Saves(map[], actions, res, outcomes, |actions|).value, Source, NOW)
  {
    i := ExampleAdd();
    var actions := PlanFor(Some(BEFORE), NOW, [], Merge, SourceToTarget).actions;
    var res: Resolutions := map[i := CHOICE];
    var outcomes := seq(|actions|, _ => Accepted);
    GuardMeansNoEquivalents(actions, res, NOW, []);
    assert ResolvedAdd(actions, res, i) && NOW[0] in SideOf(NOW, [], Other(actions[i].side));
    RekeysNothingIff(map[], actions, res, outcomes, NOW, []);
  }
}
