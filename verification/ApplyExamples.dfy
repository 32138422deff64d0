/** Runs of the protocol that show which conditions of its theorems cannot be dropped. */
module ApplyExamples {
  import opened Prelude
  import Leases
  import opened ApplyProtocol
  import opened ApplySafety
  import opened ApplyMoves
  import opened ApplyFencing
  import opened ApplyHold
  import opened ApplyAfterWrites
  import opened ApplyJournals

  const AUTHOR := WorkerId(1)
  const OTHER := WorkerId(2)
  const RUN := RunId(0)

  // ---- Histories in which every unguarded step happens under its lease ---------------------------------

  ghost predicate Proper(s: State, steps: seq<Step>)
    requires Run(s, steps)
  {
    TimelyRecovery(s, steps) && OwnedRejections(s, steps)
  }

  lemma {:induction false} PlainIsProper(s: State, steps: seq<Step>)
    requires Run(s, steps) && Plain(steps)
    ensures Proper(s, steps) && OwnedSaves(s, steps)
  {
    if steps != [] {
      PlainIsProper(s, steps[..|steps| - 1]);
    }
  }

  lemma {:induction false} JoinProper(s: State, xs: seq<Step>, t: State, ys: seq<Step>)
    requires Leads(s, xs, t) && Run(t, ys) && Proper(s, xs) && Proper(t, ys)
    ensures Leads(s, xs + ys, Final(t, ys)) && Proper(s, xs + ys)
    ensures OwnedSaves(s, xs) && OwnedSaves(t, ys) ==> OwnedSaves(s, xs + ys)
    decreases |ys|
  {
    Join(s, xs, t, ys);
    if ys == [] {
      assert xs + ys == xs;
    } else {
      var front, last := ys[..|ys| - 1], ys[|ys| - 1];
      Join(s, xs, t, front);
      JoinProper(s, xs, t, front);
      assert (xs + ys)[..|xs + ys| - 1] == xs + front && (xs + ys)[|xs + ys| - 1] == last;
    }
  }

  /** A plain continuation of a proper run. */
  lemma GoOn(s: State, xs: seq<Step>, t: State, ys: seq<Step>, u: State)
    requires Leads(s, xs, t) && Leads(t, ys, u) && Plain(ys)
    ensures Leads(s, xs + ys, u)
    ensures Proper(s, xs) ==> Proper(s, xs + ys)
    ensures OwnedRejections(s, xs) ==> OwnedRejections(s, xs + ys)
    ensures Proper(s, xs) && OwnedSaves(s, xs) ==> OwnedSaves(s, xs + ys)
  {
    Join(s, xs, t, ys);
    PlainIsProper(t, ys);
    RejectionsGoOn(s, xs, t, ys);
    if Proper(s, xs) {
      JoinProper(s, xs, t, ys);
    }
  }

  lemma {:induction false} RejectionsGoOn(s: State, xs: seq<Step>, t: State, ys: seq<Step>)
    requires Leads(s, xs, t) && Run(t, ys) && Plain(ys)
    ensures Run(s, xs + ys) && (OwnedRejections(s, xs) ==> OwnedRejections(s, xs + ys))
    decreases |ys|
  {
    Join(s, xs, t, ys);
    if ys == [] {
      assert xs + ys == xs;
    } else {
      var front := ys[..|ys| - 1];
      Join(s, xs, t, front);
      RejectionsGoOn(s, xs, t, front);
      assert (xs + ys)[..|xs + ys| - 1] == xs + front;
    }
  }

  // ---- A baseline, a review, and an apply just before its first write --------------------------------------

  function Review(status: Status): SyncRun {
    var drafted := !status.Preparing?;
    SyncRun(status, if drafted then 1 else 0, if drafted then 1 else 0, 0, None, None, AUTHOR, drafted, 0, false, false)
  }

  function Underway(journal: Option<seq<Entry>>): SyncRun {
    Review(Applying).(consumer := Some(AUTHOR), journal := journal)
  }

  /** A state of an example: one run, two workers, and the times at which baselines were saved. */
  predicate Scene(t: State, now: int, saved: seq<int>, row: SyncRun, author: Pc, other: Pc) {
    && t.now == now && t.runs == map[RUN := row] && t.baselines == saved
    && t.At(AUTHOR).pc == author && t.At(OTHER).pc == other
    && forall w :: w in t.workers ==> w == AUTHOR || w == OTHER
  }

  ghost predicate ProperTo(steps: seq<Step>, t: State) {
    Leads(Start(0), steps, t) && Proper(Start(0), steps) && OwnedSaves(Start(0), steps)
  }

  lemma ProperOn(xs: seq<Step>, t: State, ys: seq<Step>, u: State)
    requires ProperTo(xs, t) && Leads(t, ys, u) && Plain(ys)
    ensures ProperTo(xs + ys, u)
  {
    GoOn(Start(0), xs, t, ys, u);
  }

  lemma ProperStep(xs: seq<Step>, t: State, step: Step)
    requires ProperTo(xs, t) && Enabled(t, step)
    requires TimelyDecision(t, step) && RejectsUnderLease(t, step) && SavesUnderLease(t, step)
    ensures ProperTo(xs + [step], After(t, step))
  {
    Then(Start(0), xs, t, step);
    assert (xs + [step])[..|xs|] == xs;
  }

  /** Time passes. */
  lemma Sleeps(xs: seq<Step>, t: State, d: nat, row: SyncRun, author: Pc, other: Pc)
    returns (steps: seq<Step>, u: State)
    requires ProperTo(xs, t) && Scene(t, t.now, t.baselines, row, author, other)
    ensures ProperTo(steps, u) && Scene(u, t.now + d, t.baselines, row, author, other)
    ensures u.lease == t.lease && u.next == t.next
  {
    TickMove(t, d);
    ProperStep(xs, t, Tick(d));
    steps, u := xs + [Tick(d)], After(t, Tick(d));
  }

  lemma Accepting0() returns (steps: seq<Step>, t: State)
    ensures ProperTo(steps, t) && t == AcceptingBy(Start(0), AUTHOR)
  {
    steps := AcquireToAccept(Start(0), AUTHOR);
    t := AcceptingBy(Start(0), AUTHOR);
    PlainIsProper(Start(0), steps);
  }

  lemma FirstBaseline() returns (steps: seq<Step>, t: State)
    ensures ProperTo(steps, t) && t.lease == Leases.UNLOCKED && t.next == 1
    ensures t.now == 0 && t.runs == map[] && t.baselines == [0] && t.workers == map[AUTHOR := Worker(false, Idle)]
  {
    var accepting, t0 := Accepting0();
    AcceptMove(t0, AUTHOR);
    ProperStep(accepting, t0, Accept(AUTHOR));
    var t1 := After(t0, Accept(AUTHOR));
    ReleaseMove(t1, AUTHOR);
    ProperStep(accepting + [Accept(AUTHOR)], t1, Release(AUTHOR));
    steps, t := accepting + [Accept(AUTHOR)] + [Release(AUTHOR)], After(t1, Release(AUTHOR));
  }

  lemma DraftedReview() returns (steps: seq<Step>, t: State)
    ensures ProperTo(steps, t) && Scene(t, 0, [0], Review(Preparing), Drafting(Leases.Token(1), RUN, 1), Idle)
    ensures t.lease == Leases.Lease(Some(Leases.Token(1)), Some(1800)) && t.next == 2
  {
    var first, t0 := FirstBaseline();
    var draft := AcquireAndDraft(t0, AUTHOR, RUN);
    t := DraftedBy(t0, AUTHOR, RUN);
    ProperOn(first, t0, draft, t);
    steps := first + draft;
  }

  lemma PlannedReview() returns (steps: seq<Step>, t: State)
    ensures ProperTo(steps, t) && Scene(t, 0, [0], Review(Planned), Idle, Idle) && t.lease == Leases.UNLOCKED
              && t.next == 2
  {
    var draft, t0 := DraftedReview();
    var plan := PlanAndRelease(t0, AUTHOR, 1);
    t := PlannedBy(t0, AUTHOR, 1);
    ProperOn(draft, t0, plan, t);
    steps := draft + plan;
  }

  /** From a planned review at a time when the lease is free, up to just before the write. */
  lemma UpToSend(xs: seq<Step>, t0: State, now: int, other: Pc) returns (steps: seq<Step>, t: State)
    requires ProperTo(xs, t0) && Scene(t0, now, [0], Review(Planned), Idle, other) && Leases.Available(t0.lease, now)
    ensures ProperTo(steps, t)
    ensures Scene(t, now, [0], Underway(Some([UNTOUCHED])), Executing(Leases.Token(t0.next), RUN, Armed(0)), other)
    ensures t.lease == Leases.Lease(Some(Leases.Token(t0.next)), Some(now + 1800)) && t.next == t0.next + 1
  {
    var apply := ApplyUpToSend(t0, AUTHOR, RUN);
    t := ArmedAfterJournal(ConsumedBy(t0, AUTHOR, RUN), AUTHOR);
    ProperOn(xs, t0, apply, t);
    steps := xs + apply;
    ArmedScene(t0, now, other);
  }

  lemma ArmedScene(t0: State, now: int, other: Pc)
    requires Scene(t0, now, [0], Review(Planned), Idle, other)
    ensures var t := ArmedAfterJournal(ConsumedBy(t0, AUTHOR, RUN), AUTHOR);
            && Scene(t, now, [0], Underway(Some([UNTOUCHED])), Executing(Leases.Token(t0.next), RUN, Armed(0)), other)
            && t.lease == Leases.Lease(Some(Leases.Token(t0.next)), Some(now + 1800)) && t.next == t0.next + 1
  {
    var t := ArmedAfterJournal(ConsumedBy(t0, AUTHOR, RUN), AUTHOR);
    assert seq(1, _ => UNTOUCHED) == [UNTOUCHED];
    assert t.runs[RUN] == Underway(Some([UNTOUCHED]));
  }

  lemma NobodyOverwrites(t: State, now: int, saved: seq<int>, row: SyncRun, author: Pc, other: Pc)
    requires Scene(t, now, saved, row, author, other) && !Overwrites(author, RUN) && !Overwrites(other, RUN)
    ensures forall v :: !Overwrites(t.At(v).pc, RUN)
  {
    forall v ensures !Overwrites(t.At(v).pc, RUN) {
      assert v in t.workers ==> v == AUTHOR || v == OTHER;
    }
  }

  lemma NothingBlocks(t: State, now: int, saved: seq<int>, row: SyncRun, author: Pc, other: Pc)
    requires Scene(t, now, saved, row, author, other) && saved != []
    requires !Uncertain(row) || row.startedAt < saved[|saved| - 1]
    ensures MayStart(t)
  {
  }

  // ---- A write after another worker saved a baseline --------------------------------------------------

  lemma AsleepWhenArmed() returns (steps: seq<Step>, t: State)
    ensures ProperTo(steps, t)
    ensures Scene(t, 1801, [0], Underway(Some([UNTOUCHED])), Executing(Leases.Token(2), RUN, Armed(0)), Idle)
    ensures t.lease == Leases.Lease(Some(Leases.Token(2)), Some(1800)) && t.next == 3
  {
    var plan, t0 := PlannedReview();
    var armed, t1 := UpToSend(plan, t0, 0, Idle);
    steps, t := Sleeps(armed, t1, 1801, Underway(Some([UNTOUCHED])), Executing(Leases.Token(2), RUN, Armed(0)), Idle);
  }

  lemma OtherAccepts() returns (steps: seq<Step>, t: State)
    ensures ProperTo(steps, t)
    ensures Scene(t, 1801, [0], Underway(Some([UNTOUCHED])), Executing(Leases.Token(2), RUN, Armed(0)),
                  Accepting(Leases.Token(3)))
    ensures t.lease.token == Some(Leases.Token(3))
  {
    var asleep, t0 := AsleepWhenArmed();
    var accept := AcquireToAccept(t0, OTHER);
    t := AcceptingBy(t0, OTHER);
    ProperOn(asleep, t0, accept, t);
    steps := asleep + accept;
  }

  lemma OtherAccepted() returns (steps: seq<Step>, t: State)
    ensures ProperTo(steps, t)
    ensures Scene(t, 1801, [0, 1801], Underway(Some([UNTOUCHED])), Executing(Leases.Token(2), RUN, Armed(0)),
                  Releasing(Leases.Token(3)))
  {
    var accepting, t0 := OtherAccepts();
    AcceptMove(t0, OTHER);
    ProperStep(accepting, t0, Accept(OTHER));
    steps, t := accepting + [Accept(OTHER)], After(t0, Accept(OTHER));
    assert [0] + [1801] == [0, 1801];
  }

  /** After the write of an armed author. */
  lemma SendScene(s: State, now: int, saved: seq<int>, row: SyncRun, token: Leases.Token, other: Pc)
    requires Scene(s, now, saved, row, Executing(token, RUN, Armed(0)), other) && row.journal == Some([UNTOUCHED])
    ensures Enabled(s, Send(AUTHOR))
    ensures Scene(After(s, Send(AUTHOR)), now, saved, SentOnce(row, 0), Executing(token, RUN, InFlight(0)), other)
  {
    SendMove(s, AUTHOR);
  }

  /** A worker that stalls between its renewal and the write, while another saves a baseline under the
      lease: every other condition is met and nobody is about to overwrite anything, yet the write is not
      held, because the baseline is newer than the run. */
  lemma LateSend() returns (before: seq<Step>, s: State)
    ensures ProperTo(before, s) && s.At(AUTHOR).pc.Executing? && s.At(AUTHOR).pc.run == RUN && RUN in s.runs
    ensures Enabled(s, Send(AUTHOR)) && Uncertain(s.runs[RUN]) && forall v :: !Overwrites(s.At(v).pc, RUN)
    ensures !NotOlder(s, RUN) && MayStart(After(s, Send(AUTHOR)))
  {
    before, s := OtherAccepted();
    var row, other := Underway(Some([UNTOUCHED])), Releasing(Leases.Token(3));
    NobodyOverwrites(s, 1801, [0, 1801], row, Executing(Leases.Token(2), RUN, Armed(0)), other);
    SendScene(s, 1801, [0, 1801], row, Leases.Token(2), other);
    NothingBlocks(After(s, Send(AUTHOR)), 1801, [0, 1801], SentOnce(row, 0),
                  Executing(Leases.Token(2), RUN, InFlight(0)), other);
  }

  // ---- A baseline saved after its lease was lost -------------------------------------------------------

  /** Another worker takes the lease to accept a state and sleeps through it; the author applies meanwhile. */
  lemma AcceptorSleeps() returns (steps: seq<Step>, t: State)
    ensures ProperTo(steps, t) && Scene(t, 1800, [0], Review(Planned), Idle, Accepting(Leases.Token(2)))
    ensures t.lease == Leases.Lease(Some(Leases.Token(2)), Some(1800)) && t.next == 3
  {
    var plan, t0 := PlannedReview();
    var accept := AcquireToAccept(t0, OTHER);
    var t1 := AcceptingBy(t0, OTHER);
    ProperOn(plan, t0, accept, t1);
    steps, t := Sleeps(plan + accept, t1, 1800, Review(Planned), Idle, Accepting(Leases.Token(2)));
  }

  lemma AuthorArmedMeanwhile() returns (steps: seq<Step>, t: State)
    ensures ProperTo(steps, t)
    ensures Scene(t, 1801, [0], Underway(Some([UNTOUCHED])), Executing(Leases.Token(3), RUN, Armed(0)),
                  Accepting(Leases.Token(2)))
    ensures t.lease == Leases.Lease(Some(Leases.Token(3)), Some(3600))
  {
    var asleep, t0 := AcceptorSleeps();
    var armed, t1 := UpToSend(asleep, t0, 1800, Accepting(Leases.Token(2)));
    steps, t := Sleeps(armed, t1, 1, Underway(Some([UNTOUCHED])), Executing(Leases.Token(3), RUN, Armed(0)),
                       Accepting(Leases.Token(2)));
  }

  lemma SavedLate() returns (steps: seq<Step>, t: State)
    ensures Leads(Start(0), steps, t) && Proper(Start(0), steps) && t.lease.token == Some(Leases.Token(3))
    ensures Scene(t, 1801, [0, 1801], Underway(Some([UNTOUCHED])), Executing(Leases.Token(3), RUN, Armed(0)),
                  Releasing(Leases.Token(2)))
  {
    var armed, t0 := AuthorArmedMeanwhile();
    AcceptMove(t0, OTHER);
    Then(Start(0), armed, t0, Accept(OTHER));
    steps, t := armed + [Accept(OTHER)], After(t0, Accept(OTHER));
    assert steps[..|steps| - 1] == armed;
    assert [0] + [1801] == [0, 1801];
  }

  /** The author sends while it has the lease, but another worker saved a baseline after losing its own: the
      write is not held, because the baseline is newer than the run. */
  lemma LateSave() returns (before: seq<Step>, s: State)
    ensures Leads(Start(0), before, s) && Proper(Start(0), before)
    ensures s.At(AUTHOR).pc.Executing? && s.At(AUTHOR).pc.run == RUN && RUN in s.runs
    ensures Enabled(s, Send(AUTHOR)) && Owns(s, s.At(AUTHOR).pc)
    ensures !NotOlder(s, RUN) && MayStart(After(s, Send(AUTHOR)))
  {
    before, s := SavedLate();
    var row, other := Underway(Some([UNTOUCHED])), Releasing(Leases.Token(2));
    SendScene(s, 1801, [0, 1801], row, Leases.Token(3), other);
    NothingBlocks(After(s, Send(AUTHOR)), 1801, [0, 1801], SentOnce(row, 0),
                  Executing(Leases.Token(3), RUN, InFlight(0)), other);
  }

  // ---- A recovery that decides after its lease was lost --------------------------------------------------

  /** The review is listed while it is being drafted, planned before recovery has the lease, and consumed
      while recovery sleeps through that lease. */
  lemma ListedDraft() returns (steps: seq<Step>, t: State)
    ensures ProperTo(steps, t) && Scene(t, 0, [0], Review(Preparing), Drafting(Leases.Token(1), RUN, 1), Listed({RUN}))
    ensures t.lease == Leases.Lease(Some(Leases.Token(1)), Some(1800)) && t.next == 2
  {
    var draft, t0 := DraftedReview();
    ListRunsMove(t0, OTHER);
    ProperStep(draft, t0, ListRuns(OTHER));
    steps, t := draft + [ListRuns(OTHER)], After(t0, ListRuns(OTHER));
  }

  lemma ListedThenPlanned() returns (steps: seq<Step>, t: State)
    ensures ProperTo(steps, t) && Scene(t, 0, [0], Review(Planned), Idle, Listed({RUN})) && t.lease == Leases.UNLOCKED
              && t.next == 2
  {
    var listed, t0 := ListedDraft();
    var plan := PlanAndRelease(t0, AUTHOR, 1);
    t := PlannedBy(t0, AUTHOR, 1);
    ProperOn(listed, t0, plan, t);
    steps := listed + plan;
  }

  lemma RecoverySleeps() returns (steps: seq<Step>, t: State)
    ensures ProperTo(steps, t) && Scene(t, 1800, [0], Review(Planned), Idle, Recovering(Leases.Token(2), {RUN}, map[]))
    ensures t.lease == Leases.Lease(Some(Leases.Token(2)), Some(1800)) && t.next == 3
  {
    var plan, t0 := ListedThenPlanned();
    var recover := Acquire(OTHER, ToRecover, 0);
    AcquireMove(t0, OTHER, ToRecover);
    ProperStep(plan, t0, recover);
    steps, t := Sleeps(plan + [recover], After(t0, recover), 1800, Review(Planned), Idle,
                       Recovering(Leases.Token(2), {RUN}, map[]));
  }

  lemma ConsumedMeanwhile() returns (steps: seq<Step>, t: State)
    ensures ProperTo(steps, t)
    ensures Scene(t, 1800, [0], Underway(None), Executing(Leases.Token(3), RUN, Journaling),
                  Recovering(Leases.Token(2), {RUN}, map[]))
    ensures t.lease == Leases.Lease(Some(Leases.Token(3)), Some(3600))
  {
    var asleep, t0 := RecoverySleeps();
    var consume := AcquireAndConsume(t0, AUTHOR, RUN);
    t := ConsumedBy(t0, AUTHOR, RUN);
    ProperOn(asleep, t0, consume, t);
    steps := asleep + consume;
  }

  lemma DecideScene(t: State)
    requires Scene(t, 1800, [0], Underway(None), Executing(Leases.Token(3), RUN, Journaling),
                   Recovering(Leases.Token(2), {RUN}, map[]))
    ensures Enabled(t, Decide(OTHER, RUN)) && After(t, Decide(OTHER, RUN)).lease == t.lease
    ensures Scene(After(t, Decide(OTHER, RUN)), 1800, [0], Underway(None),
                  Executing(Leases.Token(3), RUN, Journaling), Recovering(Leases.Token(2), {}, map[RUN := Interrupted]))
  {
    DecideMove(t, OTHER, RUN);
    assert Verdict(t.runs[RUN]) == Interrupted;
  }

  /** Recovery wakes up and decides on what it sees: an apply without a journal. */
  lemma DecidedLate() returns (steps: seq<Step>, t: State)
    ensures Leads(Start(0), steps, t) && OwnedRejections(Start(0), steps)
    ensures Scene(t, 1800, [0], Underway(None), Executing(Leases.Token(3), RUN, Journaling),
                  Recovering(Leases.Token(2), {}, map[RUN := Interrupted]))
    ensures t.lease == Leases.Lease(Some(Leases.Token(3)), Some(3600))
  {
    var consumed, t0 := ConsumedMeanwhile();
    DecideScene(t0);
    Then(Start(0), consumed, t0, Decide(OTHER, RUN));
    steps, t := consumed + [Decide(OTHER, RUN)], After(t0, Decide(OTHER, RUN));
    assert steps[..|steps| - 1] == consumed;
  }

  lemma ArmedThoughDecided() returns (steps: seq<Step>, t: State)
    ensures Leads(Start(0), steps, t) && OwnedRejections(Start(0), steps) && t.lease.token == Some(Leases.Token(3))
    ensures Scene(t, 1800, [0], Underway(Some([UNTOUCHED])), Executing(Leases.Token(3), RUN, Armed(0)),
                  Recovering(Leases.Token(2), {}, map[RUN := Interrupted]))
  {
    var decided, t0 := DecidedLate();
    var rest := JournalAndRenew(t0, AUTHOR);
    t := ArmedAfterJournal(t0, AUTHOR);
    GoOn(Start(0), decided, t0, rest, t);
    steps := decided + rest;
    assert seq(1, _ => UNTOUCHED) == [UNTOUCHED];
    assert t.runs[RUN] == Underway(Some([UNTOUCHED]));
  }

  /** An uncertain run with a journal, about to be written by the lease's owner, of which a stalled recovery
      has already decided that it was interrupted before any write. So the run does not block for good. */
  lemma OverwriterIsReachable() returns (before: seq<Step>, s: State)
    ensures Leads(Start(0), before, s) && s.At(AUTHOR).pc.Executing? && Owns(s, s.At(AUTHOR).pc)
    ensures Blocks(s, RUN) && Lasting(s.runs[RUN]) && Overwrites(s.At(OTHER).pc, RUN) && !BlocksForever(s, RUN)
  {
    before, s := ArmedThoughDecided();
    HoldLastsIff(0, before, s, RUN);
    assert !Permanent(s, RUN);
  }

  lemma CalledInterrupted() returns (before: seq<Step>, s: State)
    ensures Leads(Start(0), before, s) && OwnedRejections(Start(0), before)
    ensures Scene(s, 1800, [0], Underway(Some([UNTOUCHED])).(status := Interrupted, interrupted := true),
                  Executing(Leases.Token(3), RUN, Armed(0)), Recovering(Leases.Token(2), {}, map[]))
    ensures s.lease.token == Some(Leases.Token(3))
  {
    var armed, t := ArmedThoughDecided();
    ConcludeMove(t, OTHER, RUN);
    Then(Start(0), armed, t, Conclude(OTHER, RUN));
    before, s := armed + [Conclude(OTHER, RUN)], After(t, Conclude(OTHER, RUN));
    assert before[..|before| - 1] == armed;
    assert map[RUN := Interrupted] - {RUN} == map[];
  }

  /** A recovery worker that sleeps through its own lease can mark a run interrupted that is then written,
      by the lease's owner, with no newer baseline and nothing rejected; and then an automatic evaluation may
      start right after the write. Recovery neither renews nor checks its lease after acquiring it. */
  lemma StalledRecoveryMisleads() returns (before: seq<Step>, s: State)
    ensures Leads(Start(0), before, s) && OwnedRejections(Start(0), before)
    ensures s.At(AUTHOR).pc.Executing? && s.At(AUTHOR).pc.run == RUN && RUN in s.runs && s.runs[RUN].interrupted
    ensures Enabled(s, Send(AUTHOR)) && Owns(s, s.At(AUTHOR).pc) && NotOlder(s, RUN)
    ensures RUN in After(s, Send(AUTHOR)).runs && !NoSends(After(s, Send(AUTHOR)).runs[RUN])
              && MayStart(After(s, Send(AUTHOR)))
  {
    before, s := CalledInterrupted();
    var row, other := Underway(Some([UNTOUCHED])).(status := Interrupted, interrupted := true),
      Recovering(Leases.Token(2), {}, map[]);
    SendScene(s, 1800, [0], row, Leases.Token(3), other);
    NothingBlocks(After(s, Send(AUTHOR)), 1800, [0], SentOnce(row, 0), Executing(Leases.Token(3), RUN, InFlight(0)),
                  other);
    assert SentOnce(row, 0).journal.value[0].sent == 1;
  }

  // ---- A preflight failure that is filed after its lease was lost --------------------------------------------

  lemma RejecterSleeps() returns (steps: seq<Step>, t: State)
    ensures ProperTo(steps, t) && Scene(t, 1800, [0], Review(Planned), Idle, Rejecting(Leases.Token(2), RUN))
    ensures t.lease == Leases.Lease(Some(Leases.Token(2)), Some(1800)) && t.next == 3
  {
    var plan, t0 := PlannedReview();
    var acquire := Acquire(OTHER, ToApply(RUN), 0);
    AcquireMove(t0, OTHER, ToApply(RUN));
    ProperStep(plan, t0, acquire);
    var t1 := After(t0, acquire);
    BeginRejectMove(t1, OTHER);
    ProperStep(plan + [acquire], t1, BeginReject(OTHER));
    steps, t := Sleeps(plan + [acquire] + [BeginReject(OTHER)], After(t1, BeginReject(OTHER)), 1800, Review(Planned),
                       Idle, Rejecting(Leases.Token(2), RUN));
  }

  lemma ArmedBeforeRejection() returns (steps: seq<Step>, t: State)
    ensures ProperTo(steps, t)
    ensures Scene(t, 1800, [0], Underway(Some([UNTOUCHED])), Executing(Leases.Token(3), RUN, Armed(0)),
                  Rejecting(Leases.Token(2), RUN))
    ensures t.lease.token == Some(Leases.Token(3))
  {
    var asleep, t0 := RejecterSleeps();
    steps, t := UpToSend(asleep, t0, 1800, Rejecting(Leases.Token(2), RUN));
  }

  /** After a proper history and a write by the lease's owner for a run that no baseline is newer than, a
      failed preflight that lost its lease long ago files its failure, and an automatic evaluation may start. */
  lemma RejectionAfterWrite() returns (before: seq<Step>, s: State)
    ensures ProperTo(before, s) && s.At(AUTHOR).pc.Executing? && s.At(AUTHOR).pc.run == RUN && RUN in s.runs
    ensures Enabled(s, Send(AUTHOR)) && Owns(s, s.At(AUTHOR).pc) && NotOlder(s, RUN)
    ensures var t := After(s, Send(AUTHOR)); Enabled(t, Reject(OTHER)) && MayStart(After(t, Reject(OTHER)))
    ensures After(After(s, Send(AUTHOR)), Reject(OTHER)).baselines == s.baselines
  {
    before, s := ArmedBeforeRejection();
    var row := Underway(Some([UNTOUCHED]));
    SendScene(s, 1800, [0], row, Leases.Token(3), Rejecting(Leases.Token(2), RUN));
    var t := After(s, Send(AUTHOR));
    RejectMove(t, OTHER);
    NothingBlocks(After(t, Reject(OTHER)), 1800, [0], SentOnce(row, 0).(status := ReviewFailed),
                  Executing(Leases.Token(3), RUN, InFlight(0)), Releasing(Leases.Token(2)));
  }

  lemma RejectedWhileArmed() returns (steps: seq<Step>, t: State)
    ensures Leads(Start(0), steps, t) && TimelyRecovery(Start(0), steps) && t.lease.token == Some(Leases.Token(3))
    ensures Scene(t, 1800, [0], Underway(Some([UNTOUCHED])).(status := ReviewFailed),
                  Executing(Leases.Token(3), RUN, Armed(0)),
                  Releasing(Leases.Token(2)))
  {
    var armed, t0 := ArmedBeforeRejection();
    RejectMove(t0, OTHER);
    Then(Start(0), armed, t0, Reject(OTHER));
    steps, t := armed + [Reject(OTHER)], After(t0, Reject(OTHER));
    assert steps[..|steps| - 1] == armed;
  }

  /** The same failure filed just before the write: then nothing is held after it either. */
  lemma RejectionBeforeWrite() returns (before: seq<Step>, s: State)
    ensures Leads(Start(0), before, s) && TimelyRecovery(Start(0), before)
    ensures s.At(AUTHOR).pc.Executing? && s.At(AUTHOR).pc.run == RUN && RUN in s.runs
    ensures Enabled(s, Send(AUTHOR)) && Owns(s, s.At(AUTHOR).pc) && NotOlder(s, RUN) && MayStart(After(s, Send(AUTHOR)))
  {
    before, s := RejectedWhileArmed();
    var row, other := Underway(Some([UNTOUCHED])).(status := ReviewFailed), Releasing(Leases.Token(2));
    SendScene(s, 1800, [0], row, Leases.Token(3), other);
    NothingBlocks(After(s, Send(AUTHOR)), 1800, [0], SentOnce(row, 0), Executing(Leases.Token(3), RUN, InFlight(0)),
                  other);
  }

  // ---- A failure handler of a worker that did not consume the review ------------------------------------------

  function LongReview(n: nat): SyncRun {
    Review(Planned).(plan := n)
  }

  /** The other worker takes the lease to apply the review and sleeps through it. */
  lemma CheckerSleeps(n: nat) returns (steps: seq<Step>, t: State)
    ensures ProperTo(steps, t) && Scene(t, 1800, [0], LongReview(n), Idle, Checking(Leases.Token(2), RUN))
    ensures t.lease == Leases.Lease(Some(Leases.Token(2)), Some(1800)) && t.next == 3
  {
    var plan, t0 := PlannedLong(n);
    var acquire := Acquire(OTHER, ToApply(RUN), 0);
    AcquireMove(t0, OTHER, ToApply(RUN));
    ProperStep(plan, t0, acquire);
    steps, t := Sleeps(plan + [acquire], After(t0, acquire), 1800, LongReview(n), Idle, Checking(Leases.Token(2), RUN));
  }

  lemma PlannedLong(n: nat) returns (steps: seq<Step>, t: State)
    ensures ProperTo(steps, t) && Scene(t, 0, [0], LongReview(n), Idle, Idle) && t.lease == Leases.UNLOCKED
              && t.next == 2
  {
    var draft, t0 := DraftedReview();
    var plan := PlanAndRelease(t0, AUTHOR, n);
    t := PlannedBy(t0, AUTHOR, n);
    ProperOn(draft, t0, plan, t);
    steps := draft + plan;
  }

  lemma AuthorConfirms(n: nat) returns (steps: seq<Step>, t: State)
    ensures ProperTo(steps, t)
    ensures Scene(t, 1800, [0], LongReview(n), Consuming(Leases.Token(3), RUN), Checking(Leases.Token(2), RUN))
    ensures t.lease == Leases.Lease(Some(Leases.Token(3)), Some(3600))
  {
    var asleep, t0 := CheckerSleeps(n);
    var confirm := AcquireAndConfirm(t0, AUTHOR, RUN);
    t := ConfirmedBy(t0, AUTHOR, RUN);
    ProperOn(asleep, t0, confirm, t);
    steps := asleep + confirm;
  }

  /** Another worker took the lease for the same review and slept through it; its failure handler makes the
      journal show two acknowledged writes as not completed, while the consumer has the lease all along. */
  lemma RivalSpoilsJournal() returns (before: seq<Step>, s: State, more: seq<Step>)
    ensures ProperTo(before, s) && Enabled(s, Consume(AUTHOR)) && Owns(s, s.At(AUTHOR).pc)
    ensures var t := After(s, Consume(AUTHOR));
            Run(t, more) && RUN in Final(t, more).runs && !AtMostOneDangling(Final(t, more).runs[RUN])
  {
    before, s := AuthorConfirms(2);
    assert InApply(s.At(OTHER).pc, RUN);
    InvStart(0);
    InvRun(Start(0), before);
    var u;
    more, u := ContestedSpoils(s, AUTHOR);
  }

  lemma AuthorConsumes() returns (steps: seq<Step>, t: State)
    ensures ProperTo(steps, t) && t.baselines == [0]
    ensures Duel(t, AUTHOR, Journaling, OTHER, Checking(Leases.Token(2), RUN), RUN, Underway(None))
  {
    var confirmed, t0 := AuthorConfirms(1);
    ConsumeMove(t0, AUTHOR);
    ProperStep(confirmed, t0, Consume(AUTHOR));
    steps, t := confirmed + [Consume(AUTHOR)], After(t0, Consume(AUTHOR));
  }

  /** The other worker finds the run applying, whoever consumed it. */
  lemma RivalNotices() returns (steps: seq<Step>, t: State)
    ensures ProperTo(steps, t) && t.baselines == [0]
    ensures Duel(t, AUTHOR, Journaling, OTHER, Noticed(Leases.Token(2), RUN, false), RUN, Underway(None))
  {
    var consumed, t0 := AuthorConsumes();
    NoticeDuel(t0, AUTHOR, Journaling, OTHER, Checking(Leases.Token(2), RUN), RUN, Underway(None));
    ProperStep(consumed, t0, Notice(OTHER));
    steps, t := consumed + [Notice(OTHER)], After(t0, Notice(OTHER));
  }

  lemma AuthorJournals() returns (steps: seq<Step>, t: State)
    ensures ProperTo(steps, t) && t.baselines == [0]
    ensures Duel(t, AUTHOR, Writing(0), OTHER, Noticed(Leases.Token(2), RUN, false), RUN, Underway(Some([UNTOUCHED])))
  {
    var noticed, t0 := RivalNotices();
    JournalMove(t0, AUTHOR);
    ProperStep(noticed, t0, Journal(AUTHOR));
    steps, t := noticed + [Journal(AUTHOR)], After(t0, Journal(AUTHOR));
    assert seq(1, _ => UNTOUCHED) == [UNTOUCHED];
    assert t.runs[RUN] == Underway(Some([UNTOUCHED]));
  }

  lemma RivalPicks() returns (steps: seq<Step>, t: State)
    ensures ProperTo(steps, t) && Enabled(t, Finish(AUTHOR)) && Owns(t, t.At(AUTHOR).pc) && t.At(AUTHOR).pc.run == RUN
    ensures t.At(AUTHOR).pc.stage == Writing(1) && t.At(OTHER).pc == Marking(Leases.Token(2), RUN, Some(0))
    ensures t.runs[RUN] == Passed(Underway(Some([UNTOUCHED])), 0)
  {
    var journalled, t0 := AuthorJournals();
    var noticed, row := Noticed(Leases.Token(2), RUN, false), Underway(Some([UNTOUCHED]));
    InspectDuel(t0, AUTHOR, Writing(0), OTHER, noticed, RUN, row);
    ProperStep(journalled, t0, Inspect(OTHER, false));
    var t1 := After(t0, Inspect(OTHER, false));
    SkipMove(t1, AUTHOR);
    ProperStep(journalled + [Inspect(OTHER, false)], t1, SkipOne(AUTHOR));
    steps, t := journalled + [Inspect(OTHER, false)] + [SkipOne(AUTHOR)], After(t1, SkipOne(AUTHOR));
  }

  /** A run whose baseline can be saved by the lease's owner, with a journal that is right so far, and a
      failure handler that has picked one of its entries: the journal will not stay right. */
  lemma RivalAtFinish() returns (before: seq<Step>, s: State)
    ensures ProperTo(before, s) && Enabled(s, Finish(AUTHOR)) && Owns(s, s.At(AUTHOR).pc) && s.At(AUTHOR).pc.run == RUN
    ensures CompletedWhenDone(s.runs[RUN]) && AboutToMark(s.At(OTHER).pc, RUN)
    ensures !StaysPartitioned(After(s, Finish(AUTHOR)), RUN)
  {
    before, s := RivalPicks();
    FinishMove(s, AUTHOR);
    JournalStaysPartitionedIff(0, before, s, AUTHOR);
  }

  /** The consumer at the end of its write loop, and the other worker about to mark the only entry, or past it. */
  predicate AtTheEnd(t: State, stage: Stage, other: Pc, e: Entry) {
    && Owns(t, t.At(AUTHOR).pc) && t.At(AUTHOR).pc.Executing? && t.At(AUTHOR).pc.run == RUN
    && t.At(AUTHOR).pc.stage == stage && t.At(OTHER).pc == other
    && RUN in t.runs && t.runs[RUN].journal == Some([e])
  }

  const LISTED := Entry(Pending, 0, false, true, false)

  lemma SkipsCommitted() returns (steps: seq<Step>, t: State)
    ensures ProperTo(steps, t)
    ensures AtTheEnd(t, Closing(1), Marking(Leases.Token(2), RUN, Some(0)), LISTED.(mark := Skipped))
  {
    var picked, t0 := RivalPicks();
    assert t0.runs[RUN].journal.value == [LISTED];
    CommitSkipsMove(t0, AUTHOR);
    ProperStep(picked, t0, CommitSkips(AUTHOR));
    steps, t := picked + [CommitSkips(AUTHOR)], After(t0, CommitSkips(AUTHOR));
    assert FinalMarks([LISTED]) == [LISTED.(mark := Skipped)];
  }

  lemma RivalMarks() returns (steps: seq<Step>, t: State)
    ensures ProperTo(steps, t)
    ensures AtTheEnd(t, Closing(1), Releasing(Leases.Token(2)), LISTED.(mark := Faulty))
  {
    var committed, t0 := SkipsCommitted();
    MarkFailedMove(t0, OTHER);
    ProperStep(committed, t0, MarkFailed(OTHER));
    steps, t := committed + [MarkFailed(OTHER)], After(t0, MarkFailed(OTHER));
    assert [LISTED.(mark := Skipped)][0 := LISTED.(mark := Faulty)] == [LISTED.(mark := Faulty)];
  }

  /** The same handler, with a token renewal that commits the skipped mark early: it marks the entry failed after
      that and before the baseline is saved, and the consumer never writes the entry again. */
  lemma RivalAfterSkips() returns (before: seq<Step>, s: State)
    ensures ProperTo(before, s) && Enabled(s, Finish(AUTHOR)) && Owns(s, s.At(AUTHOR).pc) && s.At(AUTHOR).pc.run == RUN
    ensures CompletedWhenDone(s.runs[RUN]) && !SkippedWhenListed(s.runs[RUN]) && !AboutToMark(s.At(OTHER).pc, RUN)
    ensures !StaysPartitioned(After(s, Finish(AUTHOR)), RUN)
  {
    before, s := RivalMarks();
    assert s.runs[RUN].journal.value[0] == LISTED.(mark := Faulty);
    FinishMove(s, AUTHOR);
    JournalStaysPartitionedIff(0, before, s, AUTHOR);
  }
}
