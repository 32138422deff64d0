/** Which links a pass chooses, said of recordings and their places in the plan and in the playlists. */
module LinkChoice {
  import opened Prelude
  import opened StableSort
  import opened Playlists
  import opened Reconciliation
  import opened TrackIdentity

  // ---- Candidates ------------------------------------------------------------------------------------

  /** Where addition i of the plan goes. */
  function Destination(actions: seq<Action>, source: seq<Track>, target: seq<Track>, i: nat): seq<Track>
    requires i < |actions|
  {
    if actions[i].side == Target then target else source
  }

  /** Addition i was resolved to the recording its destination shows at place d under another key: the same provider
      id, or else the same ISRC. */
  predicate Candidate(actions: seq<Action>, res: Resolutions, source: seq<Track>, target: seq<Track>, i: nat, d: nat) {
    && i < |actions| && actions[i].kind == AddTrack && i in res
    && d < |Destination(actions, source, target, i)|
    && var x := Destination(actions, source, target, i)[d];
       && x.key != actions[i].track.key
       && (x.id == res[i].id || (x.isrc.Some? && x.isrc == res[i].isrc))
  }

  /** The link names the two recordings by side, under the addition's key when the target is its destination and
      else under the key the source shows. */
  predicate Names(q: Equivalent, a: Action, x: Track) {
    var added, shown := ProviderTrack(a.track.id, a.track.isrc, a.track.position, a.track.info),
                        ProviderTrack(x.id, x.isrc, x.position, x.info);
    if a.side == Target then q.sourceTrack == added && q.targetTrack == shown && q.key == a.track.key
    else q.sourceTrack == shown && q.targetTrack == added && q.key == x.key
  }

  /** The order in which candidates are considered: the same id before the same ISRC, then plan order, then smaller
      positions with missing ones first, then playlist order. */
  predicate NotAfter(res: Resolutions, j: nat, e: nat, y: Track, i: nat, d: nat, x: Track)
    requires i in res && j in res
  {
    if (y.id == res[j].id) != (x.id == res[i].id) then y.id == res[j].id
    else if j != i then j < i
    else if y.position != x.position then
      y.position == None || (x.position.Some? && y.position.value < x.position.value)
    else e <= d
  }

  // ---- Edges and candidates --------------------------------------------------------------------------

  function EdgeOf(res: Resolutions, i: nat, x: Track): Edge
    requires i in res
  {
    Edge(if x.id == res[i].id then 3 else 2, i, x)
  }

  lemma CandidateIsEdge(actions: seq<Action>, res: Resolutions, source: seq<Track>, target: seq<Track>, i: nat, d: nat)
    requires Candidate(actions, res, source, target, i, d)
    ensures PlanEdge(actions, res, source, target, EdgeOf(res, i, Destination(actions, source, target, i)[d]))
  {
  }

  lemma EdgeIsCandidate(actions: seq<Action>, res: Resolutions, source: seq<Track>, target: seq<Track>, e: Edge, d: nat)
    requires PlanEdge(actions, res, source, target, e)
    requires d < |Destination(actions, source, target, e.index)|
    requires Destination(actions, source, target, e.index)[d] == e.existing
    ensures Candidate(actions, res, source, target, e.index, d) && e == EdgeOf(res, e.index, e.existing)
  {
  }

  lemma LinkNames(a: Action, x: Track)
    ensures Names(EquivalentOf(a, x), a, x)
  {
  }

  // ---- Who comes first -------------------------------------------------------------------------------

  /** f appears, and before any e. */
  predicate First<T(==)>(xs: seq<T>, f: T, e: T) {
    xs != [] && (xs[0] == f || (xs[0] != e && First(xs[1..], f, e)))
  }

  lemma {:induction false} FirstAmong<T>(p: T -> bool, xs: seq<T>, f: T, e: T)
    requires p(f) && p(e)
    ensures First(Filter(p, xs), f, e) <==> First(xs, f, e)
  {
    if xs != [] {
      FirstAmong(p, xs[1..], f, e);
      FilterCons(p, xs[0], xs[1..]);
      assert xs == [xs[0]] + xs[1..];
    }
  }

  lemma {:induction false} FirstInConcat<T>(xs: seq<T>, ys: seq<T>, f: T, e: T)
    ensures First(xs + ys, f, e) <==> First(xs, f, e) || (e !in xs && First(ys, f, e))
  {
    if xs == [] {
      assert xs + ys == ys;
    } else {
      assert (xs + ys)[1..] == xs[1..] + ys && (xs + ys)[0] == xs[0];
      FirstInConcat(xs[1..], ys, f, e);
      assert xs == [xs[0]] + xs[1..];
    }
  }

  lemma {:induction false} FirstHere<T>(xs: seq<T>, f: T, e: T, m: nat)
    requires m < |xs| && xs[m] == f && e !in xs[..m]
    ensures First(xs, f, e)
  {
    if m > 0 {
      assert xs[0] in xs[..m];
      assert xs[1..][..m - 1] == xs[..m][1..];
      FirstHere(xs[1..], f, e, m - 1);
    }
  }

  lemma {:induction false} FirstAppears<T>(xs: seq<T>, f: T, e: T)
    requires First(xs, f, e)
    ensures f in xs
  {
    if xs[0] != f {
      FirstAppears(xs[1..], f, e);
    }
  }

  lemma {:induction false} FirstPlace<T>(xs: seq<T>, x: T) returns (m: nat)
    requires x in xs
    ensures m < |xs| && xs[m] == x && x !in xs[..m]
  {
    if xs[0] == x {
      m := 0;
    } else {
      var rest := FirstPlace(xs[1..], x);
      m := rest + 1;
      assert xs[..m] == [xs[0]] + xs[1..][..rest];
    }
  }

  // ---- The edges of one addition are in playlist order -----------------------------------------------

  lemma {:induction false} FirstShown(a: Action, index: nat, resolved: ProviderTrack, shown: seq<Track>, f: Edge,
                                      e: Edge) returns (d: nat)
    requires First(EdgesTo(a, index, resolved, shown), f, e)
    requires e.index == index && IsEdge(a, resolved, e.existing)
             && e.score == IdentityScore(resolved, Recording(e.existing))
    ensures d < |shown| && shown[d] == f.existing && e.existing !in shown[..d]
  {
    var front, last := shown[..|shown| - 1], shown[|shown| - 1];
    var mine := if IsEdge(a, resolved, last) then [Edge(IdentityScore(resolved, Recording(last)), index, last)] else [];
    FirstInConcat(EdgesTo(a, index, resolved, front), mine, f, e);
    if First(EdgesTo(a, index, resolved, front), f, e) {
      d := FirstShown(a, index, resolved, front, f, e);
      assert shown[..d] == front[..d];
    } else {
      d := |front|;
      EdgesToMembers(a, index, resolved, front, e);
    }
  }

  lemma FirstOfHalf(all: seq<Edge>, xs: seq<Edge>, ys: seq<Edge>, f: Edge, e: Edge)
    requires all == xs + ys && First(all, f, e)
    ensures f !in ys ==> First(xs, f, e)
    ensures f !in xs ==> First(ys, f, e)
  {
    FirstInConcat(xs, ys, f, e);
    if First(xs, f, e) {
      FirstAppears(xs, f, e);
    } else {
      FirstAppears(ys, f, e);
    }
  }

  lemma EdgesStep(actions: seq<Action>, res: Resolutions, source: seq<Track>, target: seq<Track>, n: nat, f: Edge)
    requires n < |actions|
    ensures EdgesUpTo(actions, res, source, target, n + 1)
            == EdgesUpTo(actions, res, source, target, n) + EdgesAt(actions, res, source, target, n)
    ensures f in EdgesUpTo(actions, res, source, target, n) ==> f.index < n
    ensures f in EdgesAt(actions, res, source, target, n) ==> f.index == n
  {
    EdgesUpToMembers(actions, res, source, target, n, f);
    EdgesAtMembers(actions, res, source, target, n, f);
  }

  lemma {:induction false} FirstOfAddition(actions: seq<Action>, res: Resolutions, source: seq<Track>,
                                           target: seq<Track>, n: nat, f: Edge, e: Edge)
    requires n <= |actions| && First(EdgesUpTo(actions, res, source, target, n), f, e)
    requires f.index == e.index < n
    ensures First(EdgesAt(actions, res, source, target, f.index), f, e)
  {
    var k: nat := n - 1;
    EdgesStep(actions, res, source, target, k, f);
    FirstOfHalf(EdgesUpTo(actions, res, source, target, n), EdgesUpTo(actions, res, source, target, k),
                EdgesAt(actions, res, source, target, k), f, e);
    if f.index < k {
      FirstOfAddition(actions, res, source, target, k, f, e);
    }
  }

  /** Edges that compare equal. */
  function Class(e: Edge): Edge -> bool {
    (x: Edge) => x.score == e.score && x.index == e.index && EdgePosition(x) == EdgePosition(e)
  }

  lemma FirstOfClass(actions: seq<Action>, res: Resolutions, source: seq<Track>, target: seq<Track>, f: Edge, e: Edge)
    requires First(Edges(actions, res, source, target), f, e) && Class(e)(f)
    ensures First(EdgesUpTo(actions, res, source, target, |actions|), f, e)
  {
    var found := EdgesUpTo(actions, res, source, target, |actions|);
    EdgeOrder();
    EqualsKeepOrder(EdgeLe, Class(e), found);
    FirstAmong(Class(e), found, f, e);
    FirstAmong(Class(e), Sort(EdgeLe, found), f, e);
  }

  // ---- Taken links -----------------------------------------------------------------------------------

  lemma {:induction false} StillTaken(actions: seq<Action>, edges: seq<Edge>, n: nat, q: Equivalent)
    requires Indexed(actions, edges) && n <= |edges| && q in MatchedTo(actions, edges, n)
    ensures q in MatchedTo(actions, edges, |edges|)
    decreases |edges| - n
  {
    if n < |edges| {
      MatchedStep(actions, edges, n);
      StillTaken(actions, edges, n + 1, q);
    }
  }

  lemma {:induction false} TakenFrom(actions: seq<Action>, edges: seq<Edge>, n: nat, q: Equivalent) returns (l: nat)
    requires Indexed(actions, edges) && n <= |edges| && q in MatchedTo(actions, edges, n)
    ensures l < n && q == EquivalentOf(actions[edges[l].index], edges[l].existing)
  {
    MatchedStep(actions, edges, n - 1);
    if q in MatchedTo(actions, edges, n - 1) {
      l := TakenFrom(actions, edges, n - 1, q);
    } else {
      l := n - 1;
    }
  }

  /** Edge m is taken, or an earlier one that shares a recording with it is. */
  lemma TakenOrBlocked(actions: seq<Action>, edges: seq<Edge>, m: nat) returns (l: nat, q: Equivalent)
    requires Indexed(actions, edges) && m < |edges|
    ensures l <= m && q in Matched(actions, edges) && q == EquivalentOf(actions[edges[l].index], edges[l].existing)
    ensures var p := EquivalentOf(actions[edges[m].index], edges[m].existing);
            q.sourceTrack.id == p.sourceTrack.id || q.targetTrack.id == p.targetTrack.id
  {
    var p := EquivalentOf(actions[edges[m].index], edges[m].existing);
    var before := MatchedTo(actions, edges, m);
    MatchedStep(actions, edges, m);
    assert edges[..|edges|] == edges;
    if p.sourceTrack.id in SourceIds(before) {
      q :| q in before && q.sourceTrack.id == p.sourceTrack.id;
      l := TakenFrom(actions, edges, m, q);
      StillTaken(actions, edges, m, q);
    } else if p.targetTrack.id in TargetIds(before) {
      q :| q in before && q.targetTrack.id == p.targetTrack.id;
      l := TakenFrom(actions, edges, m, q);
      StillTaken(actions, edges, m, q);
    } else {
      l, q := m, p;
      StillTaken(actions, edges, m + 1, q);
    }
  }

  // ---- The choice ------------------------------------------------------------------------------------

  /** The link has a recording in common with the link of this candidate. */
  predicate Shares(q: Equivalent, a: Action, x: Track) {
    if a.side == Target then q.sourceTrack.id == a.track.id || q.targetTrack.id == x.id
    else q.sourceTrack.id == x.id || q.targetTrack.id == a.track.id
  }

  /** Where an edge at least as good as e, and found before it, has its recording on the destination. */
  lemma PlaceOf(actions: seq<Action>, res: Resolutions, source: seq<Track>, target: seq<Track>, f: Edge, e: Edge)
    returns (d: nat)
    requires PlanEdge(actions, res, source, target, f) && PlanEdge(actions, res, source, target, e)
    requires First(Edges(actions, res, source, target), f, e)
    ensures d < |Destination(actions, source, target, f.index)|
    ensures Destination(actions, source, target, f.index)[d] == f.existing
    ensures Class(e)(f) ==> e.existing !in Destination(actions, source, target, f.index)[..d]
  {
    if Class(e)(f) {
      FirstOfClass(actions, res, source, target, f, e);
      FirstOfAddition(actions, res, source, target, |actions|, f, e);
      d := FirstShown(actions[e.index], e.index, res[e.index], Destination(actions, source, target, e.index), f, e);
    } else {
      d :| d < |Destination(actions, source, target, f.index)|
           && Destination(actions, source, target, f.index)[d] == f.existing;
    }
  }

  lemma EdgesIndexed(actions: seq<Action>, res: Resolutions, source: seq<Track>, target: seq<Track>)
    ensures Indexed(actions, Edges(actions, res, source, target))
  {
    var edges := Edges(actions, res, source, target);
    forall n | 0 <= n < |edges| ensures edges[n].index < |actions| {
      EdgeAt(actions, res, source, target, edges[n]);
    }
  }

  lemma EdgeAt(actions: seq<Action>, res: Resolutions, source: seq<Track>, target: seq<Track>, f: Edge)
    ensures f in Edges(actions, res, source, target) <==> PlanEdge(actions, res, source, target, f)
  {
    EdgesMembers(actions, res, source, target);
  }

  lemma EdgesOrdered(actions: seq<Action>, res: Resolutions, source: seq<Track>, target: seq<Track>, l: nat, m: nat)
    requires l <= m < |Edges(actions, res, source, target)|
    ensures EdgeLe(Edges(actions, res, source, target)[l], Edges(actions, res, source, target)[m])
  {
    EdgeOrder();
    SortSorts(EdgeLe, EdgesUpTo(actions, res, source, target, |actions|));
  }

  lemma NoLaterThanFirst<T>(xs: seq<T>, l: nat, m: nat)
    requires l <= m < |xs| && xs[m] !in xs[..m]
    ensures First(xs, xs[l], xs[m])
  {
    assert forall x :: x in xs[..l] ==> x in xs[..m];
    FirstHere(xs, xs[l], xs[m], l);
  }

  /** The taken edge that settles the fate of an edge, and how the two compare. */
  lemma Settles(actions: seq<Action>, res: Resolutions, source: seq<Track>, target: seq<Track>, edge: Edge)
    returns (f: Edge, q: Equivalent)
    requires PlanEdge(actions, res, source, target, edge)
    ensures PlanEdge(actions, res, source, target, f) && q == EquivalentOf(actions[f.index], f.existing)
    ensures First(Edges(actions, res, source, target), f, edge) && EdgeLe(f, edge)
    ensures q in Equivalences(actions, res, source, target) && Shares(q, actions[edge.index], edge.existing)
  {
    var edges := Edges(actions, res, source, target);
    EdgeAt(actions, res, source, target, edge);
    EdgesIndexed(actions, res, source, target);
    var m := FirstPlace(edges, edge);
    var l, link := TakenOrBlocked(actions, edges, m);
    NoLaterThanFirst(edges, l, m);
    EdgesOrdered(actions, res, source, target, l, m);
    f, q := edges[l], link;
    EdgeAt(actions, res, source, target, f);
  }

  lemma EarlierEdge(res: Resolutions, f: Edge, e: Edge, p: nat, d: nat)
    requires f.index in res && e.index in res
    requires f == EdgeOf(res, f.index, f.existing) && e == EdgeOf(res, e.index, e.existing)
    requires EdgeLe(f, e) && (Class(e)(f) ==> p <= d)
    ensures NotAfter(res, f.index, p, f.existing, e.index, d, e.existing)
  {
  }

  /** For every candidate, a link is taken that shares a recording with it and belongs to this candidate or to one
      considered before it. In particular the same recording is never passed over for a shared ISRC. */
  lemma StrongestFirst(actions: seq<Action>, res: Resolutions, source: seq<Track>, target: seq<Track>, i: nat, d: nat)
    returns (j: nat, e: nat, q: Equivalent)
    requires Candidate(actions, res, source, target, i, d)
    ensures Candidate(actions, res, source, target, j, e) && q in Equivalences(actions, res, source, target)
    ensures Names(q, actions[j], Destination(actions, source, target, j)[e])
    ensures Shares(q, actions[i], Destination(actions, source, target, i)[d])
    ensures NotAfter(res, j, e, Destination(actions, source, target, j)[e],
                     i, d, Destination(actions, source, target, i)[d])
  {
    var edge := EdgeOf(res, i, Destination(actions, source, target, i)[d]);
    CandidateIsEdge(actions, res, source, target, i, d);
    var f, link := Settles(actions, res, source, target, edge);
    j, q := f.index, link;
    e := PlaceOf(actions, res, source, target, f, edge);
    EdgeIsCandidate(actions, res, source, target, f, e);
    LinkNames(actions[j], f.existing);
    EarlierEdge(res, f, edge, e, d);
  }

  /** Every link taken is that of a candidate. */
  lemma LinksAreCandidates(actions: seq<Action>, res: Resolutions, source: seq<Track>, target: seq<Track>,
                           q: Equivalent)
    returns (j: nat, e: nat)
    requires q in Equivalences(actions, res, source, target)
    ensures Candidate(actions, res, source, target, j, e)
    ensures Names(q, actions[j], Destination(actions, source, target, j)[e])
  {
    var edges := Edges(actions, res, source, target);
    EdgesIndexed(actions, res, source, target);
    assert edges[..|edges|] == edges;
    var l := TakenFrom(actions, edges, |edges|, q);
    EdgeAt(actions, res, source, target, edges[l]);
    j := edges[l].index;
    var shown := Destination(actions, source, target, j);
    e :| e < |shown| && shown[e] == edges[l].existing;
    EdgeIsCandidate(actions, res, source, target, edges[l], e);
    LinkNames(actions[j], edges[l].existing);
  }
}
