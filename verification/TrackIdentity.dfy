/** The identity layer: the mapping table, links between existing recordings, and the preflight. */
module TrackIdentity {
  import opened Prelude
  import opened StableSort
  import opened Playlists
  import opened Reconciliation

  const TRACK_IDENTITY_VERSION: nat := 3

  datatype Provenance = SuccessfulAdd | ReciprocalAdd | VerifiedEquivalence

  /** One row of provider_track_mappings for a fixed pair. The two accounts of a pair are always
      different, so the side names the account. */
  datatype RowId = RowId(side: Side, id: TrackId)

  datatype Mapping = Mapping(key: Key, counterpart: Option<TrackId>, isrc: Option<Isrc>, provenance: Provenance,
                             version: nat)

  type Table = map<RowId, Mapping>

  predicate Current(table: Table, r: RowId) {
    r in table && table[r].version == TRACK_IDENTITY_VERSION
  }

  // ---- Re-keying -------------------------------------------------------------------------

  function Rekey(table: Table, side: Side, t: Track): Track {
    if Current(table, RowId(side, t.id)) then t.(key := table[RowId(side, t.id)].key) else t
  }

  /** _apply_track_mappings: occurrences with a current row take its canonical key. */
  function ApplyMappings(table: Table, side: Side, tracks: seq<Track>): seq<Track> {
    seq(|tracks|, i requires 0 <= i < |tracks| => Rekey(table, side, tracks[i]))
  }

  /** Every occurrence stays in place; one whose recording has a row of version 3 shows that row's key. */
  lemma RekeyedAs(table: Table, side: Side, tracks: seq<Track>, i: nat)
    requires i < |tracks|
    ensures |ApplyMappings(table, side, tracks)| == |tracks|
    ensures var r, t, u := RowId(side, tracks[i].id), tracks[i], ApplyMappings(table, side, tracks)[i];
            && u.id == t.id && u.isrc == t.isrc && u.position == t.position && u.info == t.info
            && u.key == if r in table && table[r].version == 3 then table[r].key else t.key
  {
  }

  function ApplyToBaseline(table: Table, b: Option<Baseline>): Option<Baseline> {
    if b.None? then None
    else Some(Baseline(ApplyMappings(table, Source, b.value.source), ApplyMappings(table, Target, b.value.target)))
  }

  // ---- Saving and invalidating rows --------------------------------------------------------

  /** _save_track_mapping: None stands for the raised mapping conflict. */
  function SaveMapping(table: Table, r: RowId, key: Key, other: ProviderTrack, provenance: Provenance): Option<Table> {
    if r !in table then Some(table[r := Mapping(key, Some(other.id), other.isrc, provenance, TRACK_IDENTITY_VERSION)])
    else if table[r].key != key then None
    else Some(table[r := table[r].(version := TRACK_IDENTITY_VERSION, counterpart := Some(other.id),
                                   isrc := other.isrc)])
  }

  function Recording(t: Track): ProviderTrack {
    ProviderTrack(t.id, t.isrc, t.position, t.info)
  }

  function DestinationRow(a: Action, resolved: ProviderTrack): RowId {
    RowId(a.side, resolved.id)
  }

  function OriginRow(a: Action): RowId {
    RowId(Other(a.side), a.track.id)
  }

  /** Both directions of an accepted addition. */
  function SaveResolved(table: Table, a: Action, resolved: ProviderTrack): Option<Table> {
    match SaveMapping(table, DestinationRow(a, resolved), a.track.key, Recording(a.track), SuccessfulAdd)
    case None => None
    case Some(t) => SaveMapping(t, OriginRow(a), a.track.key, resolved, ReciprocalAdd)
  }

  /** What a provider's rejection of a reviewed choice deletes. */
  function Invalidate(table: Table, a: Action, resolved: ProviderTrack): Table {
    var t := table - {DestinationRow(a, resolved)};
    if OriginRow(a) in t && t[OriginRow(a)].counterpart == Some(resolved.id) then t - {OriginRow(a)} else t
  }

  /** The row has this key, the other recording and its ISRC, is of version 3, and keeps its provenance if it was
      there before; no other row changed. */
  ghost predicate RowWritten(before: Table, after: Table, r: RowId, key: Key, other: ProviderTrack,
                             provenance: Provenance) {
    && after.Keys == before.Keys + {r}
    && after[r] == Mapping(key, Some(other.id), other.isrc, if r in before then before[r].provenance else provenance, 3)
    && forall q :: q in before && q != r ==> after[q] == before[q]
  }

  /** Both rows of an accepted addition are written so, each naming the other recording. */
  ghost predicate AdditionWritten(before: Table, after: Table, a: Action, resolved: ProviderTrack) {
    var d, o := RowId(a.side, resolved.id), RowId(Other(a.side), a.track.id);
    && after.Keys == before.Keys + {d, o}
    && after[d] == Mapping(a.track.key, Some(a.track.id), a.track.isrc,
                           if d in before then before[d].provenance else SuccessfulAdd, 3)
    && after[o] == Mapping(a.track.key, Some(resolved.id), resolved.isrc,
                           if o in before then before[o].provenance else ReciprocalAdd, 3)
    && forall q :: q in before && q != d && q != o ==> after[q] == before[q]
  }

  lemma AdditionIsWritten(table: Table, a: Action, resolved: ProviderTrack)
    ensures var d, o := RowId(a.side, resolved.id), RowId(Other(a.side), a.track.id);
            SaveResolved(table, a, resolved).Some?
            <==> (d in table ==> table[d].key == a.track.key) && (o in table ==> table[o].key == a.track.key)
    ensures SaveResolved(table, a, resolved).Some? ==>
              AdditionWritten(table, SaveResolved(table, a, resolved).value, a, resolved)
  {
  }

  /** The destination row is gone, the origin row is gone if it pointed at the refused recording, and every
      other row is as before. */
  ghost predicate Forgets(before: Table, after: Table, destination: RowId, origin: RowId, refused: TrackId) {
    && destination !in after
    && (origin in after <==> origin in before && before[origin].counterpart != Some(refused))
    && (forall r :: r in after ==> r in before && after[r] == before[r])
    && (forall r :: r in before && r != destination && r != origin ==> r in after)
  }

  lemma Forgotten(table: Table, a: Action, resolved: ProviderTrack)
    ensures Forgets(table, Invalidate(table, a, resolved), RowId(a.side, resolved.id),
                    RowId(Other(a.side), a.track.id), resolved.id)
  {
  }

  /** A refusal undoes an acceptance: neither recording of a saved addition has a row after the same choice is
      refused, and the other rows are those there were before it was saved. */
  lemma RefusalUndoesAcceptance(table: Table, a: Action, resolved: ProviderTrack)
    requires SaveResolved(table, a, resolved).Some?
    ensures var after := Invalidate(SaveResolved(table, a, resolved).value, a, resolved);
            && RowId(a.side, resolved.id) !in after && RowId(Other(a.side), a.track.id) !in after
            && forall r :: r != RowId(a.side, resolved.id) && r != RowId(Other(a.side), a.track.id) ==>
                 (r in after <==> r in table) && (r in after ==> after[r] == table[r])
  {
  }

  // ---- Links between recordings already on both sides ---------------------------------------

  datatype Edge = Edge(score: nat, index: nat, existing: Track)

  datatype Equivalent = Equivalent(sourceTrack: ProviderTrack, targetTrack: ProviderTrack, key: Key)

  function IdentityScore(l: ProviderTrack, r: ProviderTrack): nat {
    if l.id == r.id then 3
    else if l.isrc.Some? && l.isrc == r.isrc then 2 else 0
  }

  /** An addition whose recording is already on its destination under another key. */
  predicate IsEdge(a: Action, resolved: ProviderTrack, existing: Track) {
    a.track.key != existing.key && IdentityScore(resolved, Recording(existing)) > 0
  }

  function EdgesTo(a: Action, index: nat, resolved: ProviderTrack, destination: seq<Track>): seq<Edge> {
    if destination == [] then []
    else
      var existing := destination[|destination| - 1];
      EdgesTo(a, index, resolved, destination[..|destination| - 1]) +
      if IsEdge(a, resolved, existing) then [Edge(IdentityScore(resolved, Recording(existing)), index, existing)]
        else []
  }

  type Resolutions = map<nat, ProviderTrack>

  function EdgesUpTo(actions: seq<Action>, res: Resolutions, source: seq<Track>, target: seq<Track>, n: nat): seq<Edge>
    requires n <= |actions|
  {
    if n == 0 then [] else EdgesUpTo(actions, res, source, target, n - 1) + EdgesAt(actions, res, source, target, n - 1)
  }

  function EdgePosition(e: Edge): int {
    if e.existing.position.Some? then e.existing.position.value else -1
  }

  /** Strongest evidence first, then plan order, then playlist position. */
  predicate EdgeLe(a: Edge, b: Edge) {
    if a.score != b.score then a.score > b.score
    else if a.index != b.index then a.index < b.index
    else EdgePosition(a) <= EdgePosition(b)
  }

  lemma EdgeOrder()
    ensures TotalPreorder(EdgeLe)
  {
  }

  function Edges(actions: seq<Action>, res: Resolutions, source: seq<Track>, target: seq<Track>): seq<Edge> {
    Sort(EdgeLe, EdgesUpTo(actions, res, source, target, |actions|))
  }

  function EquivalentOf(a: Action, existing: Track): Equivalent {
    if a.side.Target? then Equivalent(Recording(a.track), Recording(existing), a.track.key)
    else Equivalent(Recording(existing), Recording(a.track), existing.key)
  }

  function SourceIds(eqs: seq<Equivalent>): set<TrackId> {
    set e | e in eqs :: e.sourceTrack.id
  }

  function TargetIds(eqs: seq<Equivalent>): set<TrackId> {
    set e | e in eqs :: e.targetTrack.id
  }

  /** Greedy matching: take an edge unless one of its recordings is already matched on its side. */
  function Matched(actions: seq<Action>, edges: seq<Edge>): seq<Equivalent>
    requires forall e :: e in edges ==> e.index < |actions|
  {
    if edges == [] then []
    else
      var rest := Matched(actions, edges[..|edges| - 1]);
      var last := edges[|edges| - 1];
      var e := EquivalentOf(actions[last.index], last.existing);
      if e.sourceTrack.id in SourceIds(rest) || e.targetTrack.id in TargetIds(rest) then rest else rest + [e]
  }

  lemma {:induction false} EdgesToMembers(a: Action, index: nat, resolved: ProviderTrack, destination: seq<Track>,
                                          e: Edge)
    ensures e in EdgesTo(a, index, resolved, destination)
            <==> e.index == index && e.existing in destination && IsEdge(a, resolved, e.existing)
                 && e.score == IdentityScore(resolved, Recording(e.existing))
  {
    if destination != [] {
      EdgesToMembers(a, index, resolved, destination[..|destination| - 1], e);
      assert destination == destination[..|destination| - 1] + [destination[|destination| - 1]];
    }
  }

  /** e is an edge of the plan: its addition is resolved to a recording the destination already shows. */
  predicate PlanEdge(actions: seq<Action>, res: Resolutions, source: seq<Track>, target: seq<Track>, e: Edge) {
    && e.index < |actions| && actions[e.index].kind.AddTrack? && e.index in res
    && e.existing in SideOf(source, target, actions[e.index].side)
    && IsEdge(actions[e.index], res[e.index], e.existing)
    && e.score == IdentityScore(res[e.index], Recording(e.existing))
  }

  function EdgesAt(actions: seq<Action>, res: Resolutions, source: seq<Track>, target: seq<Track>, n: nat): seq<Edge>
    requires n < |actions|
  {
    var a := actions[n];
    if a.kind.AddTrack? && n in res then EdgesTo(a, n, res[n], SideOf(source, target, a.side)) else []
  }

  lemma EdgesAtMembers(actions: seq<Action>, res: Resolutions, source: seq<Track>, target: seq<Track>, n: nat, e: Edge)
    requires n < |actions|
    ensures e in EdgesAt(actions, res, source, target, n) <==> e.index == n && PlanEdge(actions, res, source, target, e)
  {
    var a := actions[n];
    if a.kind.AddTrack? && n in res {
      EdgesToMembers(a, n, res[n], SideOf(source, target, a.side), e);
    }
  }

  lemma InConcat<T>(xs: seq<T>, ys: seq<T>, x: T)
    ensures x in xs + ys <==> x in xs || x in ys
  {
  }

  lemma {:induction false} EdgesUpToMembers(actions: seq<Action>, res: Resolutions, source: seq<Track>,
                                            target: seq<Track>, n: nat, e: Edge)
    requires n <= |actions|
    ensures e in EdgesUpTo(actions, res, source, target, n) <==>
            e.index < n && PlanEdge(actions, res, source, target, e)
  {
    if n > 0 {
      EdgesUpToMembers(actions, res, source, target, n - 1, e);
      EdgesAtMembers(actions, res, source, target, n - 1, e);
      InConcat(EdgesUpTo(actions, res, source, target, n - 1), EdgesAt(actions, res, source, target, n - 1), e);
    }
  }

  lemma EdgesMembers(actions: seq<Action>, res: Resolutions, source: seq<Track>, target: seq<Track>)
    ensures forall e :: e in Edges(actions, res, source, target) <==> PlanEdge(actions, res, source, target, e)
  {
    forall e ensures e in Edges(actions, res, source, target) <==> PlanEdge(actions, res, source, target, e) {
      EdgeOrder();
      SortMembers(EdgeLe, EdgesUpTo(actions, res, source, target, |actions|), e);
      EdgesUpToMembers(actions, res, source, target, |actions|, e);
    }
  }

  function Equivalences(actions: seq<Action>, res: Resolutions, source: seq<Track>,
                        target: seq<Track>): seq<Equivalent> {
    EdgesMembers(actions, res, source, target);
    Matched(actions, Edges(actions, res, source, target))
  }

  method CollectEdges(actions: seq<Action>, res: Resolutions, source: seq<Track>,
                      target: seq<Track>) returns (edges: seq<Edge>)
    ensures edges == EdgesUpTo(actions, res, source, target, |actions|)
  {
    edges := [];
    for index := 0 to |actions|
      invariant edges == EdgesUpTo(actions, res, source, target, index)
    {
      var action := actions[index];
      if action.kind.AddTrack? && index in res {
        var destination := SideOf(source, target, action.side);
        ghost var start := edges;
        for j := 0 to |destination|
          invariant edges == start + EdgesTo(action, index, res[index], destination[..j])
        {
          assert destination[..j + 1][..j] == destination[..j];
          var existing := destination[j];
          if action.track.key != existing.key {
            var score := IdentityScore(res[index], Recording(existing));
            if score > 0 {
              edges := edges + [Edge(score, index, existing)];
            }
          }
        }
        assert destination[..|destination|] == destination;
      }
    }
  }

  predicate Indexed(actions: seq<Action>, edges: seq<Edge>) {
    forall i :: 0 <= i < |edges| ==> edges[i].index < |actions|
  }

  /** The matching after the first n edges. */
  function MatchedTo(actions: seq<Action>, edges: seq<Edge>, n: nat): seq<Equivalent>
    requires Indexed(actions, edges) && n <= |edges|
  {
    Matched(actions, edges[..n])
  }

  lemma MatchedStep(actions: seq<Action>, edges: seq<Edge>, n: nat)
    requires Indexed(actions, edges) && n < |edges|
    ensures var e := EquivalentOf(actions[edges[n].index], edges[n].existing);
            var before := MatchedTo(actions, edges, n);
            MatchedTo(actions, edges, n + 1)
            == if e.sourceTrack.id in SourceIds(before) || e.targetTrack.id in TargetIds(before) then before
               else before + [e]
  {
    assert edges[..n + 1][..n] == edges[..n];
  }

  lemma IdsStep(eqs: seq<Equivalent>, e: Equivalent)
    ensures SourceIds(eqs + [e]) == SourceIds(eqs) + {e.sourceTrack.id}
    ensures TargetIds(eqs + [e]) == TargetIds(eqs) + {e.targetTrack.id}
  {
    var all := eqs + [e];
    assert forall x :: x in all <==> x in eqs || x == e;
  }

  method ExistingDestinationEquivalences(actions: seq<Action>, res: Resolutions, source: seq<Track>, target: seq<Track>)
    returns (equivalents: seq<Equivalent>)
    ensures equivalents == Equivalences(actions, res, source, target)
  {
    EdgesMembers(actions, res, source, target);
    var found := CollectEdges(actions, res, source, target);
    var edges := Sort(EdgeLe, found);
    assert forall i :: 0 <= i < |edges| ==> edges[i] in Edges(actions, res, source, target);
    var matchedSource: set<TrackId>, matchedTarget: set<TrackId> := {}, {};
    equivalents := [];
    for i := 0 to |edges|
      invariant Indexed(actions, edges) && equivalents == MatchedTo(actions, edges, i)
      invariant matchedSource == SourceIds(equivalents) && matchedTarget == TargetIds(equivalents)
    {
      MatchedStep(actions, edges, i);
      var e := EquivalentOf(actions[edges[i].index], edges[i].existing);
      if e.sourceTrack.id !in matchedSource && e.targetTrack.id !in matchedTarget {
        IdsStep(equivalents, e);
        matchedSource := matchedSource + {e.sourceTrack.id};
        matchedTarget := matchedTarget + {e.targetTrack.id};
        equivalents := equivalents + [e];
      }
    }
    assert edges[..|edges|] == edges;
  }

  function SourceRow(e: Equivalent): RowId {
    RowId(Source, e.sourceTrack.id)
  }

  function TargetRow(e: Equivalent): RowId {
    RowId(Target, e.targetTrack.id)
  }

  /** The key a link is saved under: a verified one if either recording has it, else the proposed one. */
  function LinkKey(table: Table, e: Equivalent): Key {
    if SourceRow(e) in table then table[SourceRow(e)].key
    else if TargetRow(e) in table then table[TargetRow(e)].key
    else e.key
  }

  /** One link; None when the two recordings are already verified as different songs. */
  function SaveEquivalent(table: Table, e: Equivalent): Option<Table> {
    if SourceRow(e) in table && TargetRow(e) in table && table[SourceRow(e)].key != table[TargetRow(e)].key then None
    else match SaveMapping(table, SourceRow(e), LinkKey(table, e), e.targetTrack, VerifiedEquivalence)
         case None => None
         case Some(t) => SaveMapping(t, TargetRow(e), LinkKey(table, e), e.sourceTrack, VerifiedEquivalence)
  }

  function SaveEquivalents(table: Table, eqs: seq<Equivalent>): Option<Table> {
    if eqs == [] then Some(table)
    else match SaveEquivalents(table, eqs[..|eqs| - 1])
         case None => None
         case Some(t) => SaveEquivalent(t, eqs[|eqs| - 1])
  }

  /** The two recordings of a link are saved as different songs. */
  ghost predicate Disagree(table: Table, e: Equivalent) {
    var l, r := RowId(Source, e.sourceTrack.id), RowId(Target, e.targetTrack.id);
    l in table && r in table && table[l].key != table[r].key
  }

  /** Both rows of a link are written under the key one of them had, the source's first, or else under the link's
      own, each naming the other recording. */
  ghost predicate LinkWritten(before: Table, after: Table, e: Equivalent) {
    var l, r := RowId(Source, e.sourceTrack.id), RowId(Target, e.targetTrack.id);
    var key := if l in before then before[l].key else if r in before then before[r].key else e.key;
    && after.Keys == before.Keys + {l, r}
    && after[l] == Mapping(key, Some(e.targetTrack.id), e.targetTrack.isrc,
                           if l in before then before[l].provenance else VerifiedEquivalence, 3)
    && after[r] == Mapping(key, Some(e.sourceTrack.id), e.sourceTrack.isrc,
                           if r in before then before[r].provenance else VerifiedEquivalence, 3)
    && forall q :: q in before && q != l && q != r ==> after[q] == before[q]
  }

  /** The links are written one after the other; `trail` holds the table before each and after the last. */
  ghost predicate LinksWritten(eqs: seq<Equivalent>, trail: seq<Table>) {
    && |trail| == |eqs| + 1
    && forall n :: 0 <= n < |eqs| ==> !Disagree(trail[n], eqs[n]) && LinkWritten(trail[n], trail[n + 1], eqs[n])
  }

  lemma LinkIsWritten(table: Table, e: Equivalent)
    ensures SaveEquivalent(table, e).None? <==> Disagree(table, e)
    ensures SaveEquivalent(table, e).Some? ==> LinkWritten(table, SaveEquivalent(table, e).value, e)
  {
  }

  lemma {:induction false} LinksAreWritten(table: Table, eqs: seq<Equivalent>) returns (trail: seq<Table>)
    requires SaveEquivalents(table, eqs).Some?
    ensures LinksWritten(eqs, trail) && trail[0] == table && trail[|eqs|] == SaveEquivalents(table, eqs).value
  {
    if eqs == [] {
      trail := [table];
    } else {
      var before := LinksAreWritten(table, eqs[..|eqs| - 1]);
      LinkIsWritten(before[|eqs| - 1], eqs[|eqs| - 1]);
      trail := before + [SaveEquivalents(table, eqs).value];
    }
  }

  // ---- Preflight ----------------------------------------------------------------------------

  predicate ResolvedAdd(actions: seq<Action>, res: Resolutions, i: nat) {
    i in res && i < |actions| && actions[i].kind.AddTrack?
  }

  predicate RowOf(actions: seq<Action>, res: Resolutions, i: nat, r: RowId)
    requires ResolvedAdd(actions, res, i)
  {
    r == DestinationRow(actions[i], res[i]) || r == OriginRow(actions[i])
  }

  /** Every resolution names an action, and no two resolved additions, nor a resolved addition and a
      saved row, give one recording two keys. */
  ghost predicate Agree(table: Table, actions: seq<Action>, res: Resolutions) {
    && (forall i :: i in res ==> i < |actions|)
    && (forall i: nat, r :: ResolvedAdd(actions, res, i) && RowOf(actions, res, i, r) && r in table ==>
          table[r].key == actions[i].track.key)
    && (forall i: nat, j: nat, r ::
          (ResolvedAdd(actions, res, i) && ResolvedAdd(actions, res, j) && RowOf(actions, res, i, r)
           && RowOf(actions, res, j, r))
          ==> actions[i].track.key == actions[j].track.key)
  }

  /** The mapping table as the coordinator's session holds it. */
  class TrackMappings {
    var rows: Table

    constructor (rows: Table)
      ensures this.rows == rows
    {
      this.rows := rows;
    }

    method SaveTrackMapping(r: RowId, key: Key, other: ProviderTrack, provenance: Provenance) returns (ok: bool)
      modifies this
      ensures ok <==> (r in old(rows) ==> old(rows)[r].key == key)
      ensures ok ==> Some(rows) == SaveMapping(old(rows), r, key, other, provenance)
      ensures ok ==> RowWritten(old(rows), rows, r, key, other, provenance)
      ensures !ok ==> rows == old(rows)
    {
      if r !in rows {
        rows := rows[r := Mapping(key, Some(other.id), other.isrc, provenance, TRACK_IDENTITY_VERSION)];
      } else if rows[r].key != key {
        return false;
      } else {
        rows := rows[r := rows[r].(version := TRACK_IDENTITY_VERSION, counterpart := Some(other.id),
                                   isrc := other.isrc)];
      }
      ok := true;
    }

    method SaveResolvedTrackMappings(a: Action, resolved: ProviderTrack) returns (ok: bool)
      modifies this
      ensures ok <==> SaveResolved(old(rows), a, resolved).Some?
      ensures ok ==> Some(rows) == SaveResolved(old(rows), a, resolved)
      ensures var d, o, key := RowId(a.side, resolved.id), RowId(Other(a.side), a.track.id), a.track.key;
              ok <==> (d in old(rows) ==> old(rows)[d].key == key) && (o in old(rows) ==> old(rows)[o].key == key)
      ensures ok ==> AdditionWritten(old(rows), rows, a, resolved)
    {
      AdditionIsWritten(rows, a, resolved);
      ok := SaveTrackMapping(DestinationRow(a, resolved), a.track.key, Recording(a.track), SuccessfulAdd);
      if ok {
        ok := SaveTrackMapping(OriginRow(a), a.track.key, resolved, ReciprocalAdd);
      }
    }

    /** The refused recording has no row any more; the origin recording has none if its row pointed at the
        refused one; every other row is what it was. */
    method InvalidateStaleResolution(a: Action, resolved: ProviderTrack)
      modifies this
      ensures rows == Invalidate(old(rows), a, resolved)
      ensures Forgets(old(rows), rows, RowId(a.side, resolved.id), RowId(Other(a.side), a.track.id), resolved.id)
    {
      Forgotten(rows, a, resolved);
      rows := rows - {DestinationRow(a, resolved)};
      if OriginRow(a) in rows && rows[OriginRow(a)].counterpart == Some(resolved.id) {
        rows := rows - {OriginRow(a)};
      }
    }

    /** _save_equivalent_track_mappings: saves every link or raises at the first disagreement. */
    method SaveEquivalentTrackMappings(eqs: seq<Equivalent>) returns (ok: bool)
      modifies this
      ensures ok <==> SaveEquivalents(old(rows), eqs).Some?
      ensures ok ==> Some(rows) == SaveEquivalents(old(rows), eqs)
      ensures ok ==> exists trail :: LinksWritten(eqs, trail) && trail[0] == old(rows) && trail[|eqs|] == rows
      ensures !ok ==> exists n, trail :: && 0 <= n < |eqs| && LinksWritten(eqs[..n], trail) && trail[0] == old(rows)
                                         && Disagree(trail[n], eqs[n])
    {
      for i := 0 to |eqs|
        invariant Some(rows) == SaveEquivalents(old(rows), eqs[..i])
      {
        var e := eqs[i];
        assert eqs[..i + 1][..i] == eqs[..i];
        if SourceRow(e) in rows && TargetRow(e) in rows && rows[SourceRow(e)].key != rows[TargetRow(e)].key {
          FailsForGood(old(rows), eqs, i + 1);
          ghost var before := LinksAreWritten(old(rows), eqs[..i]);
          return false;
        }
        var key := LinkKey(rows, e);
        var saved := SaveTrackMapping(SourceRow(e), key, e.targetTrack, VerifiedEquivalence);
        saved := SaveTrackMapping(TargetRow(e), key, e.sourceTrack, VerifiedEquivalence);
      }
      assert eqs[..|eqs|] == eqs;
      ghost var trail := LinksAreWritten(old(rows), eqs);
      ok := true;
    }

    /** _assert_resolved_mapping_compatibility: accepts exactly the resolutions that agree. */
    method ResolvedMappingsCompatible(actions: seq<Action>, res: Resolutions) returns (ok: bool)
      ensures ok <==> Agree(rows, actions, res)
    {
      var pending: map<RowId, Key> := map[];
      var todo := res.Keys;
      ghost var done: set<nat> := {};
      while todo != {}
        invariant done + todo == res.Keys && done !! todo
        invariant forall i :: i in done ==> i < |actions|
        invariant PendingOk(rows, actions, res, done, pending)
        decreases |todo|
      {
        var index: nat :| index in todo;
        todo := todo - {index};
        if index >= |actions| {
          return false;
        }
        if actions[index].kind.AddTrack? {
          var d, o := DestinationRow(actions[index], res[index]), OriginRow(actions[index]);
          if Clashes(rows, pending, d, actions[index].track.key) {
            ClashDisagrees(rows, actions, res, done, pending, index, d);
            return false;
          }
          if Clashes(rows, pending, o, actions[index].track.key) {
            ClashDisagrees(rows, actions, res, done, pending, index, o);
            return false;
          }
          PendingStep(rows, actions, res, done, pending, index);
          pending := pending[d := actions[index].track.key][o := actions[index].track.key];
        } else {
          PendingSkip(rows, actions, res, done, pending, index);
        }
        done := done + {index};
      }
      PendingAgrees(rows, actions, res, done, pending);
      ok := true;
    }
  }

  /** The recording already has another key, in this plan or in a saved row. */
  predicate Clashes(table: Table, pending: map<RowId, Key>, r: RowId, key: Key) {
    (r in pending && pending[r] != key) || (r in table && table[r].key != key)
  }

  lemma ClashDisagrees(table: Table, actions: seq<Action>, res: Resolutions, done: set<nat>, pending: map<RowId, Key>,
                       n: nat, r: RowId)
    requires PendingOk(table, actions, res, done, pending) && ResolvedAdd(actions, res, n) && RowOf(actions, res, n, r)
    requires Clashes(table, pending, r, actions[n].track.key)
    ensures !Agree(table, actions, res)
  {
    if r in pending && pending[r] != actions[n].track.key {
      var i: nat :| i in done && ResolvedAdd(actions, res, i) && RowOf(actions, res, i, r);
      assert actions[i].track.key != actions[n].track.key;
    }
  }

  lemma PendingAgrees(table: Table, actions: seq<Action>, res: Resolutions, done: set<nat>, pending: map<RowId, Key>)
    requires PendingOk(table, actions, res, done, pending)
    requires done == res.Keys && forall i :: i in done ==> i < |actions|
    ensures Agree(table, actions, res)
  {
  }

  lemma {:induction false} FailsForGood(table: Table, eqs: seq<Equivalent>, n: nat)
    requires n <= |eqs| && SaveEquivalents(table, eqs[..n]).None?
    ensures SaveEquivalents(table, eqs).None?
    decreases |eqs| - n
  {
    if n < |eqs| {
      assert eqs[..n + 1][..n] == eqs[..n];
      FailsForGood(table, eqs, n + 1);
    } else {
      assert eqs[..n] == eqs;
    }
  }

  /** What the preflight knows after looking at the resolutions in `done`. */
  ghost predicate PendingOk(table: Table, actions: seq<Action>, res: Resolutions, done: set<nat>,
                            pending: map<RowId, Key>) {
    && (forall i: nat, r :: i in done && ResolvedAdd(actions, res, i) && RowOf(actions, res, i, r) ==>
          && r in pending && pending[r] == actions[i].track.key
          && (r in table ==> table[r].key == actions[i].track.key))
    && (forall r :: r in pending ==> exists i: nat ::
        i in done && ResolvedAdd(actions, res, i) && RowOf(actions, res, i, r))
  }

  lemma PendingStep(table: Table, actions: seq<Action>, res: Resolutions, done: set<nat>, pending: map<RowId, Key>,
                    n: nat)
    requires PendingOk(table, actions, res, done, pending) && ResolvedAdd(actions, res, n)
    requires !Clashes(table, pending, DestinationRow(actions[n], res[n]), actions[n].track.key)
    requires !Clashes(table, pending, OriginRow(actions[n]), actions[n].track.key)
    ensures PendingOk(table, actions, res, done + {n},
                      pending[DestinationRow(actions[n], res[n]) := actions[n].track.key]
                             [OriginRow(actions[n]) := actions[n].track.key])
  {
    var after := pending[DestinationRow(actions[n], res[n]) := actions[n].track.key]
                        [OriginRow(actions[n]) := actions[n].track.key];
    forall r | r in after
      ensures exists i: nat :: i in done + {n} && ResolvedAdd(actions, res, i) && RowOf(actions, res, i, r)
    {
      if RowOf(actions, res, n, r) {
        assert n in done + {n};
      } else {
        var i: nat :| i in done && ResolvedAdd(actions, res, i) && RowOf(actions, res, i, r);
        assert i in done + {n};
      }
    }
  }

  lemma PendingSkip(table: Table, actions: seq<Action>, res: Resolutions, done: set<nat>, pending: map<RowId, Key>,
                    n: nat)
    requires PendingOk(table, actions, res, done, pending) && !ResolvedAdd(actions, res, n)
    ensures PendingOk(table, actions, res, done + {n}, pending)
  {
    forall r | r in pending
      ensures exists i: nat :: i in done + {n} && ResolvedAdd(actions, res, i) && RowOf(actions, res, i, r)
    {
      var i: nat :| i in done && ResolvedAdd(actions, res, i) && RowOf(actions, res, i, r);
      assert i in done + {n};
    }
  }
}
