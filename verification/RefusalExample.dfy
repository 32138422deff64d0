/** A refused addition after which the next review proposes to undo an accepted one. */
module RefusalExample {
  import opened Prelude
  import opened Playlists
  import opened Reconciliation
  import opened PlanCounts
  import opened TrackIdentity
  import opened IdentityTheorems
  import opened Overlay
  import opened SyncCycle
  import E = Executor

  const SONG := Name(0)
  const TEXT := Name(1)
  const SHOWN := Track(TEXT, Name(7), None, None, 0)
  const CAME := Track(TEXT, Name(8), None, None, 0)
  const COPIES := [Track(SONG, Name(2), None, None, 0), Track(SONG, Name(3), None, None, 0),
                   Track(SONG, Name(4), None, None, 0)]
  const ROWS: Table := map[RowId(Target, Name(7)) := Mapping(SONG, None, None, SuccessfulAdd, TRACK_IDENTITY_VERSION)]

  const CHOICES: Resolutions := map[0 := Recording(SHOWN), 1 := Recording(CAME)]

  /** The source gained two copies of a song. The first is resolved to the recording the target already shows,
      known only through its mapping, and refused; the second is accepted. Nothing lags. */
  function Example(mode: Mode): Cycle {
    Cycle(ROWS, Some(Baseline(COPIES[..1], [Keyed(Recording(SHOWN), SONG)])), Merge, mode,
          Listing(COPIES, [], [], COPIES, COPIES), Listing([SHOWN], [], [CAME], [SHOWN, CAME], [SHOWN, CAME]),
          CHOICES,
          E.Env(_ => true, _ => E.Missing, i => if i == 0 then E.Unavailable else E.Accepted(None), _ => true,
                _ => true, _ => true),
          false, false, None, None)
  }

  const MISLED := Baseline(COPIES, [SHOWN, Keyed(Recording(CAME), SONG), Keyed(Recording(CAME), SONG)])

  lemma ExampleCounts(mode: Mode)
    ensures Example(mode).Before(Source) == COPIES
    ensures Example(mode).Before(Target) == Example(mode).baseline.value.target
    ensures forall k :: Count(COPIES, k) == if k == SONG then 3 else 0
    ensures forall k :: Count(COPIES[..1], k) == if k == SONG then 1 else 0
    ensures forall k :: Count(Example(mode).Before(Target), k) == if k == SONG then 1 else 0
  {
    forall k
      ensures Count(COPIES, k) == if k == SONG then 3 else 0
      ensures Count(COPIES[..1], k) == if k == SONG then 1 else 0
    {
      CountOne(COPIES[0], k);
      CountOne(COPIES[1], k);
      CountOne(COPIES[2], k);
      CountAppend([COPIES[0]], [COPIES[1]], k);
      CountAppend([COPIES[0]] + [COPIES[1]], [COPIES[2]], k);
      assert COPIES == [COPIES[0]] + [COPIES[1]] + [COPIES[2]];
      assert COPIES[..1] == [COPIES[0]];
    }
    forall k ensures Count([Keyed(Recording(SHOWN), SONG)], k) == if k == SONG then 1 else 0 {
      CountOne(Keyed(Recording(SHOWN), SONG), k);
    }
    assert Example(mode).Before(Source) == COPIES;
    assert Example(mode).Before(Target) == [Keyed(Recording(SHOWN), SONG)];
  }

  lemma ExampleNum(mode: Mode, side: Side, kind: ActionType, k: Key)
    ensures Num(Example(mode).Reviewed().actions, side, kind, k)
              == if side.Target? && kind.AddTrack? && k == SONG then 2 else 0
  {
    var c := Example(mode);
    ExampleCounts(mode);
    var b, s, t := c.baseline.value, c.Before(Source), c.Before(Target);
    PlanNum(c.baseline, s, t, Merge, mode, side, kind, k);
    assert Count(b.source, k) == if k == SONG then 1 else 0;
    assert Group(s, SONG) != [] && |Group(s, SONG)| == Count(s, SONG);
    NothingSuppressed(b, s, t);
  }

  lemma NothingSuppressed(b: Baseline, source: seq<Track>, target: seq<Track>)
    requires forall t :: t in target ==> t.isrc.None?
    ensures ViewOf(b, source, target).Suppressed() == {}
  {
    NoIsrcs(target);
    assert ViewOf(b, source, target).Shared() == {};
  }

  lemma {:induction false} NoIsrcs(tracks: seq<Track>)
    requires forall t :: t in tracks ==> t.isrc.None?
    ensures ByIsrc(tracks) == map[]
  {
    if tracks != [] {
      NoIsrcs(tracks[..|tracks| - 1]);
      assert tracks[|tracks| - 1] in tracks;
    }
  }

  /** Two additions of the song to the target. */
  predicate SongsToTarget(actions: seq<Action>) {
    |actions| == 2 && forall i :: 0 <= i < 2 ==> Has(Target, AddTrack, SONG)(actions[i])
  }

  /** Its plan is two additions of the song to the target. */
  lemma ExamplePlan(mode: Mode)
    ensures SongsToTarget(Example(mode).Reviewed().actions)
  {
    var actions := Example(mode).Reviewed().actions;
    forall i | 0 <= i < |actions| ensures Has(Target, AddTrack, SONG)(actions[i]) {
      var a := actions[i];
      ExampleNum(mode, a.side, a.kind, a.track.key);
      FilterMembers(Has(a.side, a.kind, a.track.key), actions);
      assert a in Filter(Has(a.side, a.kind, a.track.key), actions);
    }
    FilterAll(Has(Target, AddTrack, SONG), actions);
    ExampleNum(mode, Target, AddTrack, SONG);
  }

  lemma PrepareTwo(actions: seq<Action>, res: Resolutions, env: E.Env)
    requires SongsToTarget(actions) && 0 in res && 1 in res
    ensures E.Prepare(actions, res, env, false, 2)
              == E.Ready([E.Prepared(0, actions[0], res[0]), E.Prepared(1, actions[1], res[1])], [])
  {
    assert E.Prepare(actions, res, env, false, 0) == E.Ready([], []);
    assert E.Prepare(actions, res, env, false, 1) == E.Ready([E.Prepared(0, actions[0], res[0])], []);
  }

  lemma FirstRefused(prepared: seq<E.Prepared>, env: E.Env, start: E.Progress)
    requires |prepared| == 2 && prepared[0].ordinal == 0 && prepared[1].ordinal == 1
    requires prepared[0].action.kind.AddTrack? && prepared[1].action.kind.AddTrack?
    requires env.renewsBefore(0) && env.reply(0).Unavailable? && env.saves(0)
    requires env.renewsBefore(1) && env.reply(1).Accepted? && env.saves(1) && env.commits(1) && env.renewsAfter(1)
    requires start.rejected == [] && !start.raised
    ensures var x := E.Writes(start, prepared, false, env, 2); !x.raised && x.rejected == [0]
  {
    assert E.Writes(start, prepared, false, env, 0) == start;
    var p := E.Writes(start, prepared, false, env, 1);
    assert p == E.Turn(start, prepared[0], false, env);
  }

  /** The apply returns with the first addition refused and the second completed. */
  lemma ExampleReturns(mode: Mode)
    ensures var x := Example(mode).Executed(); !x.raised && x.rejected == [0]
  {
    var c := Example(mode);
    var actions := c.Reviewed().actions;
    ExamplePlan(mode);
    PrepareTwo(actions, c.res, c.env);
    FirstRefused([E.Prepared(0, actions[0], c.res[0]), E.Prepared(1, actions[1], c.res[1])], c.env,
                 E.Progress([], None, None, [], [], false));
  }

  lemma SecondTaken(actions: seq<Action>, a: ProviderTrack, b: ProviderTrack)
    requires SongsToTarget(actions)
    ensures Without(map[0 := a, 1 := b], [0]) == map[1 := b]
    ensures Written(actions, map[1 := b], 2) == [1]
  {
    assert Written(actions, map[1 := b], 0) == [];
    assert Written(actions, map[1 := b], 1) == [];
  }

  lemma ExampleTaken(mode: Mode)
    ensures Example(mode).Taken() == map[1 := Recording(CAME)]
  {
    ExamplePlan(mode);
    ExampleReturns(mode);
    SecondTaken(Example(mode).Reviewed().actions, Recording(SHOWN), Recording(CAME));
  }

  lemma ExampleCompletes(mode: Mode)
    ensures Example(mode).Ordinals() == [1]
  {
    var c := Example(mode);
    ExamplePlan(mode);
    ExampleReturns(mode);
    ExampleTaken(mode);
    CompletedExactly(c.Reviewed().actions, c.res, c.env, true, c.skipUnresolved, c.failOnUnavailable, c.sourceSnapshot,
                     c.targetSnapshot);
    SecondTaken(c.Reviewed().actions, Recording(SHOWN), Recording(CAME));
  }

  lemma SavesSecond(actions: seq<Action>)
    requires SongsToTarget(actions)
    ensures var saved := Saves(ROWS, actions, CHOICES, [Rejected, Accepted], 2);
            && saved.Some?
            && Current(saved.value, RowId(Target, Name(8))) && RowId(Target, Name(7)) !in saved.value
            && forall r :: r in saved.value ==> saved.value[r].key == SONG
  {
    var outcomes := [Rejected, Accepted];
    assert ResolvedAdd(actions, CHOICES, 0) && ResolvedAdd(actions, CHOICES, 1);
    assert Saves(ROWS, actions, CHOICES, outcomes, 0) == Some(ROWS);
    assert Invalidate(ROWS, actions[0], CHOICES[0]) == map[];
    assert Saves(ROWS, actions, CHOICES, outcomes, 1) == Some(map[]);
  }

  lemma ExampleOutcomes(mode: Mode)
    ensures Example(mode).Outcomes() == [Rejected, Accepted]
  {
    ExamplePlan(mode);
    ExampleReturns(mode);
  }

  /** Afterwards the recording that was there has no row, and every row that is left names the song. */
  lemma ExampleSaved(mode: Mode)
    ensures var c := Example(mode);
            && c.Saved().Some?
            && Current(c.Saved().value, RowId(Target, Name(8))) && RowId(Target, Name(7)) !in c.Saved().value
            && forall r :: r in c.Saved().value ==> c.Saved().value[r].key == SONG
  {
    ExamplePlan(mode);
    ExampleOutcomes(mode);
    SavesSecond(Example(mode).Reviewed().actions);
  }

  lemma ReadUnder(t: Table)
    requires Current(t, RowId(Target, Name(8))) && RowId(Target, Name(7)) !in t
    requires forall r :: r in t ==> t[r].key == SONG
    ensures ApplyMappings(t, Source, COPIES) == COPIES
    ensures ApplyMappings(t, Target, [SHOWN, CAME]) == [SHOWN, Keyed(Recording(CAME), SONG)]
  {
    assert Rekey(t, Target, SHOWN) == SHOWN && Rekey(t, Target, CAME) == Keyed(Recording(CAME), SONG);
  }

  /** So the target now reads as one occurrence of its raw key and one of the song. */
  lemma ExampleNow(mode: Mode)
    ensures var c := Example(mode);
            && c.Saved().Some? && c.Now(Source) == COPIES && c.Seen(Source) == COPIES
            && c.Now(Target) == [SHOWN, Keyed(Recording(CAME), SONG)] && c.Seen(Target) == c.Now(Target)
  {
    ExampleSaved(mode);
    ReadUnder(Example(mode).Saved().value);
  }

  lemma GuardsPass(actions: seq<Action>, target: seq<Track>)
    requires SongsToTarget(actions) && forall t :: t in target ==> t.key == SONG
    ensures Agree(ROWS, actions, CHOICES) && Equivalences(actions, CHOICES, COPIES, target) == []
  {
    GuardMeansNoEquivalents(actions, CHOICES, COPIES, target);
  }

  lemma ExamplePasses(mode: Mode)
    ensures Example(mode).Passes()
  {
    ExamplePlan(mode);
    ExampleCounts(mode);
    GuardsPass(Example(mode).Reviewed().actions, Example(mode).Before(Target));
  }

  lemma ExampleIsClear(mode: Mode)
    ensures Example(mode).KeysAreClear()
  {
    ExampleCounts(mode);
    assert OneKeyPerId(COPIES) && OneKeyPerId(Example(mode).Before(Target));
  }

  lemma NothingRemoved(actions: seq<Action>, side: Side)
    requires SongsToTarget(actions)
    ensures Removals(actions, side) == []
  {
    assert Removals(actions[1..], side) == [];
  }

  lemma SentSecond(actions: seq<Action>)
    requires SongsToTarget(actions)
    ensures SentAdds(actions, map[1 := Recording(CAME)], Target, 2) == [1]
    ensures SentAdds(actions, map[1 := Recording(CAME)], Source, 2) == []
  {
    var taken: Resolutions := map[1 := Recording(CAME)];
    forall side ensures SentAdds(actions, taken, side, 1) == [] {
      assert SentAdds(actions, taken, side, 0) == [];
    }
  }

  lemma SourceHolds(actions: seq<Action>, taken: Resolutions)
    requires SongsToTarget(actions)
    ensures WrittenTo(COPIES, COPIES, [], [], actions, taken, [], Source, ROWS)
  {
    NothingRemoved(actions, Source);
  }

  lemma TargetHolds(actions: seq<Action>, taken: Resolutions)
    requires SongsToTarget(actions) && ResolvedAdd(actions, taken, 1) && taken[1] == Recording(CAME)
    ensures WrittenTo([SHOWN, CAME], [SHOWN], [], [CAME], actions, taken, [1], Target, ROWS)
  {
    NothingRemoved(actions, Target);
    assert [SHOWN, CAME] == [SHOWN] + [CAME];
  }

  lemma ExampleArrives(mode: Mode, side: Side)
    ensures Example(mode).Arrives(side)
  {
    var c := Example(mode);
    ExamplePlan(mode);
    ExampleTaken(mode);
    SentSecond(c.Reviewed().actions);
    SourceHolds(c.Reviewed().actions, c.Taken());
    TargetHolds(c.Reviewed().actions, c.Taken());
  }

  lemma ExampleWritten(mode: Mode)
    ensures Example(mode).Returns()
  {
    ExampleReturns(mode);
    forall side ensures Example(mode).Arrives(side) {
      ExampleArrives(mode, side);
    }
  }

  lemma SecondAddition(actions: seq<Action>)
    requires SongsToTarget(actions)
    ensures AdditionsOf(actions, CHOICES, [1]) == [Acknowledged(actions[1], Recording(CAME))]
  {
    assert [1][..0] == [];
    assert AdditionsOf(actions, CHOICES, []) == [];
    assert ResolvedAdd(actions, CHOICES, 1);
  }

  lemma OneAcknowledged(a: Acknowledged, side: Side, k: Key)
    requires Has(Target, AddTrack, SONG)(a.action)
    ensures AckNum([a], side, k) == if side.Target? && k == SONG then 1 else 0
  {
    FilterOne((x: Acknowledged) => x.action.side == side && x.action.track.key == k, a);
  }

  lemma OneOnTarget(a: Acknowledged)
    requires Has(Target, AddTrack, SONG)(a.action)
    ensures forall side, k :: AckNum([a], side, k) == if side.Target? && k == SONG then 1 else 0
  {
    forall side, k ensures AckNum([a], side, k) == if side.Target? && k == SONG then 1 else 0 {
      OneAcknowledged(a, side, k);
    }
  }

  lemma ExampleAcknowledged(mode: Mode)
    ensures |Example(mode).Reviewed().actions| == 2
    ensures Example(mode).Additions() == AdditionsOf(Example(mode).Reviewed().actions, CHOICES, [1])
  {
    ExamplePlan(mode);
    ExampleCompletes(mode);
  }

  /** What the providers acknowledged: one copy of the song on the target. */
  lemma ExampleAdditions(mode: Mode) returns (a: Acknowledged)
    ensures Example(mode).Additions() == [a]
    ensures Has(Target, AddTrack, SONG)(a.action) && a.resolved == Recording(CAME)
  {
    var actions := Example(mode).Reviewed().actions;
    ExamplePlan(mode);
    ExampleAcknowledged(mode);
    SecondAddition(actions);
    a := Acknowledged(actions[1], Recording(CAME));
  }

  lemma TargetCounts(k: Key)
    ensures var song := Keyed(Recording(CAME), SONG);
            && Count([SHOWN, song], k) == (if k == SONG || k == TEXT then 1 else 0)
            && Count([SHOWN, song, song], k) == (if k == SONG then 2 else if k == TEXT then 1 else 0)
  {
    var song := Keyed(Recording(CAME), SONG);
    CountOne(SHOWN, k);
    CountOne(song, k);
    CountAppend([SHOWN], [song], k);
    CountAppend([SHOWN] + [song], [song], k);
    assert [SHOWN, song] == [SHOWN] + [song] && [SHOWN, song, song] == [SHOWN] + [song] + [song];
  }

  lemma RepairedSource(additions: seq<Acknowledged>)
    requires forall k :: AckNum(additions, Source, k) == 0
    ensures Overlaid(COPIES, COPIES, COPIES, additions, Source)
    ensures COPIES[|COPIES|..] == []
  {
  }

  lemma RepairedTarget(additions: seq<Acknowledged>, before: seq<Track>)
    requires forall k :: AckNum(additions, Target, k) == if k == SONG then 1 else 0
    requires forall k :: Count(before, k) == if k == SONG then 1 else 0
    ensures Overlaid(MISLED.target, MISLED.target[..2], before, additions, Target)
  {
    assert MISLED.target[..2] == [SHOWN, Keyed(Recording(CAME), SONG)];
    forall k
      ensures Count(MISLED.target, k)
        == Count(MISLED.target[..2], k) + Min(AckNum(additions, Target, k),
                                              Shortfall(MISLED.target[..2], before, additions, Target, k))
    {
      TargetCounts(k);
    }
  }

  lemma OneAppended(a: Acknowledged)
    requires Has(Target, AddTrack, SONG)(a.action) && a.resolved == Recording(CAME)
    ensures multiset(MISLED.target[2..]) <= multiset(AsTracks([a], Target))
  {
    assert [a][..0] == [];
    assert AsTracks([], Target) == [];
    assert MISLED.target[2..] == [Keyed(Recording(CAME), SONG)];
  }

  lemma ExampleLags(mode: Mode)
    ensures Example(mode).Saved().Some? && Example(mode).Lags()
  {
    ExampleNow(mode);
  }

  lemma SourceRepaired(mode: Mode)
    ensures Example(mode).Saved().Some? && Example(mode).Repairs(MISLED.source, Source)
  {
    ExampleNow(mode);
    ExampleCounts(mode);
    var a := ExampleAdditions(mode);
    OneOnTarget(a);
    RepairedSource([a]);
  }

  lemma TargetSeen(mode: Mode)
    ensures Example(mode).Saved().Some? && Example(mode).Seen(Target) == MISLED.target[..2]
  {
    ExampleNow(mode);
    assert MISLED.target[..2] == [SHOWN, Keyed(Recording(CAME), SONG)];
  }

  lemma TargetBefore(mode: Mode)
    ensures forall k :: Count(Example(mode).Before(Target), k) == if k == SONG then 1 else 0
  {
    ExampleCounts(mode);
  }

  /** The overlay restores a second copy of the song that the target does not have. */
  lemma TargetRepaired(mode: Mode)
    ensures Example(mode).Saved().Some? && Example(mode).Repairs(MISLED.target, Target)
  {
    TargetSeen(mode);
    TargetBefore(mode);
    var a := ExampleAdditions(mode);
    OneOnTarget(a);
    RepairedTarget([a], Example(mode).Before(Target));
    OneAppended(a);
  }

  lemma ExampleDrops(mode: Mode)
    ensures !Example(mode).DropsNothing()
  {
    ExamplePlan(mode);
    ExampleReturns(mode);
    assert 0 in Example(mode).Executed().rejected && ResolvedAdd(Example(mode).Reviewed().actions, CHOICES, 0);
  }

  /** A refusal can mislead: every guard passes, the apply returns, nothing lags, and still the refused choice
      takes the mapping of a recording that the target shows. Its copy no longer reads as the song, the
      shortfall looks like the delayed copy that was accepted, and the saved baseline counts one too many.
      The next two-way review would remove a copy from the source; in follow-source mode it would add one more
      to the target. */
  lemma RefusalMisleads(mode: Mode)
    ensures var c := Example(mode);
            && c.Passes() && c.Returns() && c.KeysAreClear() && !c.DropsNothing() && c.Saved().Some? && c.Lags()
            && c.Repairs(MISLED.source, Source) && c.Repairs(MISLED.target, Target)
            && Count(c.Now(Target), SONG) == 1 && Count(MISLED.target, SONG) == 2
            && Num(c.Next(MISLED).actions, Source, RemoveTrack, SONG) == (if mode.TwoWay? then 1 else 0)
            && Num(c.Next(MISLED).actions, Target, AddTrack, SONG) == (if mode.TwoWay? then 0 else 1)
  {
    var c := Example(mode);
    ExamplePasses(mode);
    ExampleIsClear(mode);
    ExampleWritten(mode);
    ExampleDrops(mode);
    ExampleNow(mode);
    ExampleLags(mode);
    SourceRepaired(mode);
    TargetRepaired(mode);
    ExampleCounts(mode);
    TargetCounts(SONG);
    RepairedIsKeyed(c, MISLED.source, Source);
    RepairedIsKeyed(c, MISLED.target, Target);
    MisledPlan(mode);
  }

  lemma MisledPlan(mode: Mode)
    ensures var actions := PlanFor(Some(MISLED), COPIES, [SHOWN, Keyed(Recording(CAME), SONG)], Merge, mode).actions;
            && Num(actions, Source, RemoveTrack, SONG) == (if mode.TwoWay? then 1 else 0)
            && Num(actions, Target, AddTrack, SONG) == (if mode.TwoWay? then 0 else 1)
  {
    var now := [SHOWN, Keyed(Recording(CAME), SONG)];
    ExampleCounts(mode);
    TargetCounts(SONG);
    PlanNum(Some(MISLED), COPIES, now, Merge, mode, Source, RemoveTrack, SONG);
    PlanNum(Some(MISLED), COPIES, now, Merge, mode, Target, AddTrack, SONG);
    assert |Group(COPIES, SONG)| == Count(COPIES, SONG);
    NothingSuppressed(MISLED, COPIES, now);
  }
}
