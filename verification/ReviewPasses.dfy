/** The resolve, link and rebuild loop of a review, and what is left of it when it raises. */
module ReviewPasses {
  import opened Prelude
  import opened Playlists
  import opened Reconciliation
  import opened TrackIdentity
  import opened IdentityTheorems
  import opened LinkPasses

  datatype Review =
    | Reviewed(plan: Plan, resolutions: Resolutions, source: seq<Track>, target: seq<Track>)
    | SearchFailed
    | IdentityConflict
    | Unstable

  /** What the searches of one pass lead to: resolutions, or an exception; and whether a provider call renewed
      its token on the way, which commits the session and with it the links flushed so far. */
  datatype Searches = Searches(found: Option<Resolutions>, renewed: bool)

  const PASSES: nat := 4

  /** The plan of a review whose baseline was saved under older identity rules. */
  const UPGRADE := Plan([], [], Some(AcceptAsIs))

  /** What a review starts from. */
  datatype Inputs = Inputs(baseline: Option<Baseline>, source: seq<Track>, target: seq<Track>, policy: Policy,
                           mode: Mode)
  {
    function Source(rows: Table): seq<Track> {
      ApplyMappings(rows, Side.Source, source)
    }

    function Target(rows: Table): seq<Track> {
      ApplyMappings(rows, Side.Target, target)
    }

    /** The plan built from the playlists as the table keys them. */
    function PlanUnder(rows: Table): Plan {
      PlanFor(ApplyToBaseline(rows, baseline), Source(rows), Target(rows), policy, mode)
    }

    function Links(rows: Table, found: Resolutions): seq<Equivalent> {
      Equivalences(PlanUnder(rows).actions, found, Source(rows), Target(rows))
    }

    function Listed(): set<RowId> {
      AllEntries(baseline, source, target)
    }
  }

  // ---- The tables a review goes through ----------------------------------------------------------------------

  /** A pass that links something: its searches found links, and all of them were saved. */
  predicate Links(i: Inputs, rows: Table, found: Resolutions, after: Table) {
    i.Links(rows, found) != [] && SaveEquivalents(rows, i.Links(rows, found)) == Some(after)
  }

  predicate LinkedBy(i: Inputs, searches: Searches, rows: Table, after: Table) {
    searches.found.Some? && Links(i, rows, searches.found.value, after)
  }

  function LinkStep(i: Inputs): (Searches, Table, Table) -> bool {
    (searches: Searches, rows: Table, after: Table) => LinkedBy(i, searches, rows, after)
  }

  predicate StepAt(linked: (Searches, Table, Table) -> bool, tables: seq<Table>, passes: seq<Searches>, p: nat)
    requires p + 1 < |tables| <= |passes| + 1
  {
    linked(passes[p], tables[p], tables[p + 1])
  }

  ghost predicate Steps(linked: (Searches, Table, Table) -> bool, tables: seq<Table>, passes: seq<Searches>) {
    0 < |tables| <= |passes| + 1 && forall p: nat :: p + 1 < |tables| ==> StepAt(linked, tables, passes, p)
  }

  lemma StepsGrow(linked: (Searches, Table, Table) -> bool, tables: seq<Table>, passes: seq<Searches>, after: Table)
    requires Steps(linked, tables, passes) && |tables| <= |passes|
    requires linked(passes[|tables| - 1], tables[|tables| - 1], after)
    ensures Steps(linked, tables + [after], passes)
  {
    var longer := tables + [after];
    forall p: nat | p + 1 < |longer| ensures StepAt(linked, longer, passes, p) {
      assert p + 1 < |tables| ==> StepAt(linked, tables, passes, p);
      assert longer[p] == tables[p];
    }
  }

  /** The tables at the start of each pass begun, from the first on. */
  ghost predicate Trail(i: Inputs, tables: seq<Table>, passes: seq<Searches>) {
    Steps(LinkStep(i), tables, passes)
  }

  lemma TrailGrows(i: Inputs, tables: seq<Table>, passes: seq<Searches>, after: Table)
    requires Trail(i, tables, passes) && |tables| <= |passes|
    requires LinkedBy(i, passes[|tables| - 1], tables[|tables| - 1], after)
    ensures Trail(i, tables + [after], passes)
  {
    StepsGrow(LinkStep(i), tables, passes, after);
  }

  /** A pass that links something changes no key and leaves fewer entries without a current mapping. */
  lemma LinksProgress(i: Inputs, rows: Table, found: Resolutions, after: Table)
    requires Links(i, rows, found, after)
    ensures Extends(rows, after) && |Unlinked(after, i.Listed())| < |Unlinked(rows, i.Listed())|
  {
    RekeyedState(rows, i.baseline, i.source, i.target);
    PlanAddsKnown(ApplyToBaseline(rows, i.baseline), i.Source(rows), i.Target(rows), i.policy, i.mode);
    PassProgresses(rows, i.PlanUnder(rows).actions, found, ApplyToBaseline(rows, i.baseline), i.Source(rows),
                   i.Target(rows));
    SavedLinks(rows, i.Links(rows, found));
  }

  lemma ProgressAt(i: Inputs, tables: seq<Table>, passes: seq<Searches>, p: nat)
    requires Trail(i, tables, passes) && p + 1 < |tables|
    ensures Extends(tables[p], tables[p + 1])
    ensures |Unlinked(tables[p + 1], i.Listed())| < |Unlinked(tables[p], i.Listed())|
  {
    assert StepAt(LinkStep(i), tables, passes, p);
    LinksProgress(i, tables[p], passes[p].found.value, tables[p + 1]);
  }

  /** Hence along a whole trail. */
  lemma {:induction false} TrailProgresses(i: Inputs, tables: seq<Table>, passes: seq<Searches>, n: nat)
    requires Trail(i, tables, passes) && n < |tables|
    ensures Extends(tables[0], tables[n])
    ensures |Unlinked(tables[n], i.Listed())| + n <= |Unlinked(tables[0], i.Listed())|
  {
    if n > 0 {
      TrailProgresses(i, tables, passes, n - 1);
      ProgressAt(i, tables, passes, n - 1);
      ExtendsTransitive(tables[0], tables[n - 1], tables[n]);
    }
  }

  /** The last of the first n passes whose searches renewed a token, the first pass if none did. */
  function LastRenewal(passes: seq<Searches>, n: nat): (r: nat)
    requires n <= |passes|
    ensures r < Max(1, n) && (r == 0 || passes[r].renewed) && forall p :: r < p < n ==> !passes[p].renewed
  {
    if n == 0 then 0 else if passes[n - 1].renewed then n - 1 else LastRenewal(passes, n - 1)
  }

  // ---- The loop --------------------------------------------------------------------------------------------

  /** Nothing is left to link between the plan and the playlists it was built from, and the preflight passes. */
  ghost predicate Linkless(i: Inputs, review: Review, rows: Table)
    requires review.Reviewed?
  {
    && review.plan == i.PlanUnder(rows) && review.source == i.Source(rows) && review.target == i.Target(rows)
    && i.Links(rows, review.resolutions) == [] && Agree(rows, review.plan.actions, review.resolutions)
  }

  /** What a review that is not refused holds. A baseline to upgrade, or a conflict found first, ends it
      without a search; otherwise nothing is left to link and the preflight passes. */
  ghost predicate Finished(i: Inputs, upgrade: bool, review: Review, before: Table, rows: Table)
    requires review.Reviewed?
  {
    if upgrade || i.PlanUnder(before).conflicts != [] then
      && rows == before && review.resolutions == map[]
      && review.plan == (if upgrade then UPGRADE else i.PlanUnder(rows))
      && review.source == i.Source(rows) && review.target == i.Target(rows)
    else
      Linkless(i, review, rows)
  }

  /** The preflight refuses what was found, or a link disagrees with a saved identity. */
  ghost predicate Conflicts(i: Inputs, rows: Table, found: Resolutions) {
    if i.Links(rows, found) == [] then !Agree(rows, i.PlanUnder(rows).actions, found)
    else SaveEquivalents(rows, i.Links(rows, found)).None?
  }

  /** Between two passes, `n` of which have begun. */
  ghost predicate Going(i: Inputs, passes: seq<Searches>, before: Table, n: nat, rows: Table, committed: Table,
                        plan: Plan, s: seq<Track>, t: seq<Track>, tables: seq<Table>)
  {
    && n <= |passes| && |tables| == n + 1 && tables[0] == before && Trail(i, tables, passes)
    && rows == tables[n] && committed == tables[LastRenewal(passes, n)]
    && plan == i.PlanUnder(rows) && s == i.Source(rows) && t == i.Target(rows)
  }

  /** After the loop, of whose passes `n` have begun. */
  ghost predicate Left(i: Inputs, passes: seq<Searches>, before: Table, n: nat, rows: Table, committed: Table,
                       review: Review, tables: seq<Table>)
  {
    && n <= |passes| && |tables| == (if review.Unstable? then n + 1 else n) && Trail(i, tables, passes)
    && tables[0] == before && (review.Unstable? ==> n == |passes|)
    && LastRenewal(passes, n) < |tables| && committed == tables[LastRenewal(passes, n)]
    && (review.Reviewed? ==> rows == tables[n - 1] && Linkless(i, review, rows))
    && (review.SearchFailed? ==> passes[n - 1].found.None?)
    && (review.IdentityConflict? ==>
          passes[n - 1].found.Some? && Conflicts(i, tables[n - 1], passes[n - 1].found.value))
  }

  /** One pass: search, match, and check or link and rebuild. */
  method Pass(mappings: TrackMappings, i: Inputs, passes: seq<Searches>, ghost before: Table, n: nat,
              committed: Table, plan: Plan, s: seq<Track>, t: seq<Track>, ghost tables: seq<Table>)
    returns (end: Option<Review>, committed': Table, plan': Plan, s': seq<Track>, t': seq<Track>,
             ghost tables': seq<Table>)
    requires Going(i, passes, before, n, mappings.rows, committed, plan, s, t, tables) && n < |passes|
    modifies mappings
    ensures end.None? ==> Going(i, passes, before, n + 1, mappings.rows, committed', plan', s', t', tables')
    ensures end.Some? ==> Left(i, passes, before, n + 1, mappings.rows, committed', end.value, tables')
  {
    var rows := mappings.rows;
    committed', plan', s', t', tables' := if passes[n].renewed then rows else committed, plan, s, t, tables;
    if passes[n].found.None? {
      return Some(SearchFailed), committed', plan', s', t', tables';
    }
    var found := passes[n].found.value;
    var equivalents := ExistingDestinationEquivalences(plan.actions, found, s, t);
    if equivalents == [] {
      var compatible := mappings.ResolvedMappingsCompatible(plan.actions, found);
      end := Some(if compatible then Reviewed(plan, found, s, t) else IdentityConflict);
      return;
    }
    var saved := mappings.SaveEquivalentTrackMappings(equivalents);
    if !saved {
      end := Some(IdentityConflict);
      return;
    }
    SavedLinks(rows, equivalents);
    TrailGrows(i, tables, passes, mappings.rows);
    AppliedTwice(rows, mappings.rows, Side.Source, i.source);
    AppliedTwice(rows, mappings.rows, Side.Target, i.target);
    s', t' := ApplyMappings(mappings.rows, Side.Source, s), ApplyMappings(mappings.rows, Side.Target, t);
    plan', tables' := i.PlanUnder(mappings.rows), tables + [mappings.rows];
    end := None;
  }

  lemma NothingBegun(i: Inputs, passes: seq<Searches>, before: Table)
    ensures Going(i, passes, before, 0, before, before, i.PlanUnder(before), i.Source(before), i.Target(before),
                  [before])
  {
  }

  lemma AllBegun(i: Inputs, passes: seq<Searches>, before: Table, rows: Table, committed: Table, plan: Plan,
                 s: seq<Track>, t: seq<Track>, tables: seq<Table>)
    requires Going(i, passes, before, |passes|, rows, committed, plan, s, t, tables)
    ensures Left(i, passes, before, |passes|, rows, committed, Unstable, tables)
  {
  }

  method RunPasses(mappings: TrackMappings, i: Inputs, passes: seq<Searches>)
    returns (review: Review, committed: Table, begun: nat, ghost tables: seq<Table>)
    modifies mappings
    ensures Left(i, passes, old(mappings.rows), begun, mappings.rows, committed, review, tables)
  {
    ghost var before := mappings.rows;
    var plan, s, t := i.PlanUnder(mappings.rows), i.Source(mappings.rows), i.Target(mappings.rows);
    begun, committed, tables := 0, mappings.rows, [mappings.rows];
    NothingBegun(i, passes, mappings.rows);
    while begun < |passes|
      invariant Going(i, passes, before, begun, mappings.rows, committed, plan, s, t, tables)
    {
      var end;
      end, committed, plan, s, t, tables := Pass(mappings, i, passes, before, begun, committed, plan, s, t, tables);
      begun := begun + 1;
      if end.Some? {
        review := end.value;
        return;
      }
    }
    AllBegun(i, passes, before, mappings.rows, committed, plan, s, t, tables);
    review := Unstable;
  }

  lemma LeftTables(i: Inputs, passes: seq<Searches>, before: Table, n: nat, rows: Table, committed: Table,
                   review: Review, tables: seq<Table>)
    requires Left(i, passes, before, n, rows, committed, review, tables)
    ensures Extends(before, if review.Reviewed? then rows else committed)
    ensures review.Unstable? ==> |Unlinked(before, i.Listed())| >= |passes|
  {
    TrailProgresses(i, tables, passes, if review.Reviewed? then n - 1 else LastRenewal(passes, n));
    if review.Unstable? {
      TrailProgresses(i, tables, passes, n);
    }
  }

  /** prepare_review, from the first plan to the stable one. `upgrade` is whether the baseline is of an older
      identity version; `passes` stands for what the searches of each pass lead to, `begun` is the number of
      passes begun, and `tables` are the mappings at the start of each. No saved key ever changes. A review that
      raises keeps exactly the links that were there when a provider token was last renewed: none if no pass
      after the first renewed one. It gives up as unstable only if at least four entries had no current
      mapping. */
  method StabilizeReview(mappings: TrackMappings, i: Inputs, upgrade: bool, passes: seq<Searches>)
    returns (review: Review, begun: nat, ghost tables: seq<Table>)
    requires |passes| == PASSES
    modifies mappings
    ensures Trail(i, tables, passes) && tables[0] == old(mappings.rows)
    ensures begun <= PASSES && |tables| == if begun == 0 || review.Unstable? then begun + 1 else begun
    ensures Extends(old(mappings.rows), mappings.rows)
    ensures review.Reviewed? ==> Finished(i, upgrade, review, old(mappings.rows), mappings.rows)
    ensures review.Reviewed? ==>
              && review.source == ApplyMappings(mappings.rows, Source, i.source)
              && review.target == ApplyMappings(mappings.rows, Target, i.target)
              && review.plan == if upgrade then UPGRADE
                                else PlanFor(ApplyToBaseline(mappings.rows, i.baseline), review.source, review.target,
                                             i.policy, i.mode)
    ensures !review.Reviewed? ==> mappings.rows == tables[LastRenewal(passes, begun)]
    ensures review.SearchFailed? ==> begun > 0 && passes[begun - 1].found.None?
    ensures review.IdentityConflict? ==> begun > 0 && passes[begun - 1].found.Some?
                                         && Conflicts(i, tables[begun - 1], passes[begun - 1].found.value)
    ensures review.Unstable? ==> begun == PASSES && |Unlinked(old(mappings.rows), i.Listed())| >= PASSES
  {
    var rows := mappings.rows;
    var plan := if upgrade then UPGRADE else i.PlanUnder(rows);
    if upgrade || plan.conflicts != [] {
      return Reviewed(plan, map[], i.Source(rows), i.Target(rows)), 0, [rows];
    }
    var committed;
    review, committed, begun, tables := RunPasses(mappings, i, passes);
    LeftTables(i, passes, rows, begun, mappings.rows, committed, review, tables);
    if !review.Reviewed? {
      mappings.rows := committed;
    }
  }
}
