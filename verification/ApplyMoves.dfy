/** The steps of one worker that applies a review, as state updates, and runs put together from them. */
module ApplyMoves {
  import opened Prelude
  import Leases
  import opened ApplyProtocol

  function Moved(s: State, w: WorkerId, pc: Pc): State {
    s.(workers := s.workers[w := s.At(w).(pc := pc)])
  }

  function Wrote(s: State, w: WorkerId, pc: Pc, r: RunId, row: SyncRun): State {
    Moved(s, w, pc).(runs := s.runs[r := row])
  }

  function NewLease(s: State, reading: int): Leases.Lease {
    Leases.Lease(Some(Leases.Token(s.next)), Some(reading + Leases.PAIR_LEASE_DURATION))
  }

  lemma AcquireMove(s: State, w: WorkerId, purpose: Purpose)
    requires Leases.Available(s.lease, s.now) && PurposeFits(s, s.At(w).pc, purpose)
    ensures Enabled(s, Acquire(w, purpose, s.now))
    ensures After(s, Acquire(w, purpose, s.now))
            == Moved(s, w, AfterAcquire(s.At(w).pc, purpose, Leases.Token(s.next)))
               .(lease := NewLease(s, s.now), next := s.next + 1)
  {
  }

  lemma ReleaseMove(s: State, w: WorkerId)
    requires s.At(w).pc.Releasing?
    ensures Enabled(s, Release(w))
    ensures After(s, Release(w)) == Moved(s, w, Idle).(lease := Leases.Released(s.lease, s.At(w).pc.token))
  {
  }

  lemma StartRunMove(s: State, w: WorkerId, r: RunId)
    requires s.At(w).pc.Reviewing? && r !in s.runs
    ensures Enabled(s, StartRun(w, r))
    ensures After(s, StartRun(w, r))
            == Wrote(s, w, Drafting(s.At(w).pc.token, r, |s.baselines|), r,
                     SyncRun(Preparing, 0, 0, s.now, None, None, w, false, 0, false, false))
  {
  }

  lemma PlanMove(s: State, w: WorkerId, n: nat, reading: int)
    requires var pc := s.At(w).pc;
             && pc.Drafting? && pc.run in s.runs && pc.seen <= |s.baselines|
             && reading <= s.now && Leases.Owned(s.lease, pc.token, reading)
    ensures Enabled(s, Plan(w, n, |s.baselines|, reading))
    ensures var pc := s.At(w).pc;
            After(s, Plan(w, n, |s.baselines|, reading))
            == Wrote(s, w, Releasing(pc.token), pc.run,
                     s.runs[pc.run].(status := Planned, plan := n, base := |s.baselines|, drafted := true))
  {
  }

  lemma ConfirmMove(s: State, w: WorkerId)
    requires var pc := s.At(w).pc;
             pc.Checking? && pc.run in s.runs && s.runs[pc.run].status.Planned? && s.runs[pc.run].base == |s.baselines|
    ensures Enabled(s, Confirm(w))
    ensures After(s, Confirm(w)) == Moved(s, w, Consuming(s.At(w).pc.token, s.At(w).pc.run))
  {
  }

  lemma ConsumeMove(s: State, w: WorkerId)
    requires var pc := s.At(w).pc;
             pc.Consuming? && pc.run in s.runs && s.runs[pc.run].status.Planned? && s.runs[pc.run].consumer.None?
    ensures Enabled(s, Consume(w))
    ensures var pc := s.At(w).pc;
            After(s, Consume(w))
            == Wrote(s, w, Executing(pc.token, pc.run, Journaling), pc.run,
                     s.runs[pc.run].(status := Applying, consumer := Some(w)))
  {
  }

  lemma JournalMove(s: State, w: WorkerId)
    requires var pc := s.At(w).pc; pc.Executing? && pc.stage.Journaling? && pc.run in s.runs
    ensures Enabled(s, Journal(w))
    ensures var pc := s.At(w).pc;
            After(s, Journal(w))
            == Wrote(s, w, pc.(stage := Writing(0)), pc.run,
                     s.runs[pc.run].(journal := Some(seq(s.runs[pc.run].plan, _ => UNTOUCHED)), cursor := 0))
  {
  }

  /** A renewal that succeeds before a write or after a completed entry. */
  lemma RenewMove(s: State, w: WorkerId, reading: int)
    requires var pc := s.At(w).pc;
             && InStage(s, pc, false) && reading <= s.now && Leases.Owned(s.lease, pc.token, reading)
             && ((pc.stage.Writing? && InStage(s, pc, true)) || pc.stage.Recorded?)
    ensures Enabled(s, Renew(w, reading, reading))
    ensures var pc := s.At(w).pc;
            After(s, Renew(w, reading, reading))
            == Moved(s, w, pc.(stage := if pc.stage.Writing? then Armed(pc.stage.next) else Writing(pc.stage.next)))
               .(lease := s.lease.(expires := Some(reading + Leases.PAIR_LEASE_DURATION)))
  {
  }

  lemma SendMove(s: State, w: WorkerId)
    requires InStage(s, s.At(w).pc, true) && s.At(w).pc.stage.Armed?
    ensures Enabled(s, Send(w))
    ensures var pc := s.At(w).pc;
            After(s, Send(w)) == Wrote(s, w, pc.(stage := InFlight(pc.stage.next)), pc.run,
                                       SentOnce(s.runs[pc.run], pc.stage.next))
  {
  }

  lemma AcknowledgeMove(s: State, w: WorkerId)
    requires InStage(s, s.At(w).pc, true) && s.At(w).pc.stage.InFlight?
    ensures Enabled(s, Acknowledge(w))
    ensures var pc := s.At(w).pc;
            After(s, Acknowledge(w)) == Wrote(s, w, pc.(stage := Acked(pc.stage.next)), pc.run,
                                              Confirmed(s.runs[pc.run], pc.stage.next))
  {
  }

  lemma RefuseMove(s: State, w: WorkerId)
    requires InStage(s, s.At(w).pc, true) && s.At(w).pc.stage.InFlight?
    ensures Enabled(s, Refuse(w))
    ensures var pc := s.At(w).pc;
            After(s, Refuse(w)) == Wrote(s, w, pc.(stage := Writing(pc.stage.next + 1)), pc.run,
                                         Passed(s.runs[pc.run], pc.stage.next))
  {
  }

  lemma CompleteMove(s: State, w: WorkerId)
    requires InStage(s, s.At(w).pc, true) && s.At(w).pc.stage.Acked?
    ensures Enabled(s, Complete(w))
    ensures var pc := s.At(w).pc;
            After(s, Complete(w)) == Wrote(s, w, pc.(stage := Recorded(pc.stage.next + 1)), pc.run,
                                           Done(s.runs[pc.run], pc.stage.next))
  {
  }

  lemma SkipMove(s: State, w: WorkerId)
    requires InStage(s, s.At(w).pc, true) && s.At(w).pc.stage.Writing?
    ensures Enabled(s, SkipOne(w))
    ensures var pc := s.At(w).pc;
            After(s, SkipOne(w)) == Wrote(s, w, pc.(stage := Writing(pc.stage.next + 1)), pc.run,
                                          Passed(s.runs[pc.run], pc.stage.next))
  {
  }

  lemma CommitSkipsMove(s: State, w: WorkerId)
    requires AllWritten(s, s.At(w).pc) && s.At(w).pc.stage.Writing?
    ensures Enabled(s, CommitSkips(w))
    ensures var pc := s.At(w).pc; var row := s.runs[pc.run];
            After(s, CommitSkips(w))
            == Wrote(s, w, pc.(stage := Closing(pc.stage.next)), pc.run,
                     row.(journal := Some(FinalMarks(row.journal.value))))
  {
  }

  lemma FinishMove(s: State, w: WorkerId)
    requires AllWritten(s, s.At(w).pc)
    ensures Enabled(s, Finish(w))
    ensures var pc := s.At(w).pc;
            After(s, Finish(w))
            == Wrote(s, w, Releasing(pc.token), pc.run, Baselined(s.runs[pc.run], pc.stage.Closing?))
               .(baselines := s.baselines + [s.now])
  {
  }

  lemma NoticeMove(s: State, w: WorkerId)
    requires var pc := s.At(w).pc;
             || pc.Handling?
             || ((pc.Checking? || pc.Consuming?) && pc.run in s.runs && s.runs[pc.run].status == Applying)
    ensures Enabled(s, Notice(w))
    ensures var pc := s.At(w).pc; After(s, Notice(w)) == Moved(s, w, Noticed(pc.token, pc.run, pc.Handling?))
  {
  }

  lemma InspectMove(s: State, w: WorkerId, memory: bool)
    requires s.At(w).pc.Noticed? && s.At(w).pc.run in s.runs && (memory ==> s.At(w).pc.own)
    ensures Enabled(s, Inspect(w, memory))
    ensures var pc := s.At(w).pc;
            After(s, Inspect(w, memory)) == Moved(s, w, Marking(pc.token, pc.run, Picked(s.runs[pc.run], memory)))
  {
  }

  lemma MarkFailedMove(s: State, w: WorkerId)
    requires s.At(w).pc.Marking? && s.At(w).pc.run in s.runs
    ensures Enabled(s, MarkFailed(w))
    ensures var pc := s.At(w).pc;
            After(s, MarkFailed(w))
            == Wrote(s, w, Releasing(pc.token), pc.run, WithFailure(s.runs[pc.run], pc.entry))
  {
  }

  lemma AcceptMove(s: State, w: WorkerId)
    requires s.At(w).pc.Accepting?
    ensures Enabled(s, Accept(w))
    ensures After(s, Accept(w)) == Moved(s, w, Releasing(s.At(w).pc.token)).(baselines := s.baselines + [s.now])
  {
  }

  lemma BeginRejectMove(s: State, w: WorkerId)
    requires s.At(w).pc.Checking? || s.At(w).pc.Consuming?
    requires s.At(w).pc.run in s.runs && s.runs[s.At(w).pc.run].status.Planned?
    ensures Enabled(s, BeginReject(w))
    ensures After(s, BeginReject(w)) == Moved(s, w, Rejecting(s.At(w).pc.token, s.At(w).pc.run))
  {
  }

  lemma RejectMove(s: State, w: WorkerId)
    requires s.At(w).pc.Rejecting? && s.At(w).pc.run in s.runs
    ensures Enabled(s, Reject(w))
    ensures var pc := s.At(w).pc;
            After(s, Reject(w)) == Wrote(s, w, Releasing(pc.token), pc.run, s.runs[pc.run].(status := ReviewFailed))
  {
  }

  lemma DecideMove(s: State, w: WorkerId, r: RunId)
    requires s.At(w).pc.Recovering? && r in s.At(w).pc.todo && r in s.runs
    ensures Enabled(s, Decide(w, r))
    ensures var pc := s.At(w).pc;
            After(s, Decide(w, r))
            == Moved(s, w, Recovering(pc.token, pc.todo - {r},
                                      if Unfinished(s.runs[r]) then pc.verdicts[r := Verdict(s.runs[r])]
                                      else pc.verdicts))
  {
  }

  lemma ConcludeMove(s: State, w: WorkerId, r: RunId)
    requires var pc := s.At(w).pc; pc.Recovering? && pc.todo == {} && r in pc.verdicts && r in s.runs
    ensures Enabled(s, Conclude(w, r))
    ensures var pc := s.At(w).pc;
            After(s, Conclude(w, r))
            == Wrote(s, w, Recovering(pc.token, pc.todo, pc.verdicts - {r}), r,
                     s.runs[r].(status := pc.verdicts[r],
                                interrupted := s.runs[r].interrupted || pc.verdicts[r].Interrupted?))
  {
  }

  lemma ListRunsMove(s: State, w: WorkerId)
    requires s.At(w).pc.Idle?
    ensures Enabled(s, ListRuns(w))
    ensures After(s, ListRuns(w)) == Moved(s, w, Listed(set r | r in s.runs && Unfinished(s.runs[r])))
  {
  }

  lemma EndRecoveryMove(s: State, w: WorkerId)
    requires s.At(w).pc.Recovering?
    ensures Enabled(s, EndRecovery(w))
    ensures After(s, EndRecovery(w)) == Moved(s, w, Releasing(s.At(w).pc.token))
  {
  }

  lemma DropDraftMove(s: State, w: WorkerId)
    requires s.At(w).pc.Drafting? && s.At(w).pc.run in s.runs
    ensures Enabled(s, DropDraft(w))
    ensures var pc := s.At(w).pc;
            After(s, DropDraft(w)) == Wrote(s, w, Releasing(pc.token), pc.run, s.runs[pc.run].(status := ReviewFailed))
  {
  }

  lemma FailMove(s: State, w: WorkerId)
    requires s.At(w).pc.Executing?
    ensures Enabled(s, Fail(w))
    ensures After(s, Fail(w)) == Moved(s, w, Handling(s.At(w).pc.token, s.At(w).pc.run))
  {
  }

  /** A renewal that fails ends the apply and leaves the lease as it is. */
  lemma LostRenewMove(s: State, w: WorkerId, reading: int, stamp: int)
    requires var pc := s.At(w).pc;
             && InStage(s, pc, false) && reading <= s.now && stamp <= s.now
             && !Leases.Owned(s.lease, pc.token, reading)
             && ((pc.stage.Writing? && InStage(s, pc, true)) || pc.stage.Recorded?)
    ensures Enabled(s, Renew(w, reading, stamp))
    ensures After(s, Renew(w, reading, stamp)) == Moved(s, w, Handling(s.At(w).pc.token, s.At(w).pc.run))
  {
  }

  /** A worker that raises where nothing of the run has to be recorded. */
  lemma GiveUpMove(s: State, w: WorkerId)
    requires var pc := s.At(w).pc;
             || pc.Reviewing? || pc.Drafting? || pc.Checking? || pc.Consuming? || pc.Accepting? || pc.Handling?
             || pc.Noticed? || pc.Marking?
    ensures Enabled(s, GiveUp(w))
    ensures After(s, GiveUp(w)) == Moved(s, w, Releasing(s.At(w).pc.token))
  {
  }

  /** Any worker may disappear at any time, and keeps nothing but what it committed. */
  lemma CrashMove(s: State, w: WorkerId)
    ensures Enabled(s, Crash(w))
    ensures After(s, Crash(w)) == s.(workers := s.workers[w := Worker(false, Idle)])
  {
  }

  lemma ClearMove(s: State, w: WorkerId)
    requires s.At(w).pc.Idle? && MayStart(s)
    ensures Enabled(s, Clear(w))
    ensures After(s, Clear(w)) == s.(workers := s.workers[w := Worker(true, Idle)])
  {
  }

  lemma InvalidateMove(s: State, w: WorkerId, r: RunId)
    requires r in s.runs && s.runs[r].status.Planned?
    ensures Enabled(s, Invalidate(w, r))
    ensures After(s, Invalidate(w, r)) == Wrote(s, w, s.At(w).pc, r, s.runs[r].(status := Stale))
  {
  }

  lemma TickMove(s: State, d: nat)
    ensures Enabled(s, Tick(d)) && After(s, Tick(d)) == s.(now := s.now + d)
  {
  }

  // ---- Chains ---------------------------------------------------------------------------------

  lemma Extend(s: State, steps: seq<Step>, step: Step)
    requires Run(s, steps) && Enabled(Final(s, steps), step)
    ensures Run(s, steps + [step]) && Final(s, steps + [step]) == After(Final(s, steps), step)
  {
    assert (steps + [step])[..|steps|] == steps;
  }

  ghost predicate Leads(s: State, steps: seq<Step>, t: State) {
    Run(s, steps) && Final(s, steps) == t
  }

  lemma Then(s: State, steps: seq<Step>, t: State, step: Step)
    requires Leads(s, steps, t) && Enabled(t, step)
    ensures Leads(s, steps + [step], After(t, step))
  {
    Extend(s, steps, step);
  }

  lemma Nothing(s: State)
    ensures Leads(s, [], s)
  {
  }

  /** Two runs end to end. */
  lemma {:induction false} Join(s: State, xs: seq<Step>, t: State, ys: seq<Step>)
    requires Leads(s, xs, t) && Run(t, ys)
    ensures Leads(s, xs + ys, Final(t, ys))
    decreases |ys|
  {
    if ys == [] {
      assert xs + ys == xs;
    } else {
      var front, last := ys[..|ys| - 1], ys[|ys| - 1];
      Join(s, xs, t, front);
      Then(s, xs + front, Final(t, front), last);
      assert (xs + front) + [last] == xs + ys;
    }
  }

  /** A clock reading at which the recorded lease is still valid; a lagging clock may show it. */
  function Reading(s: State): int {
    if s.lease.expires.Some? then Min(s.now, s.lease.expires.value - 1) else s.now
  }

  /** Some number is greater than every worker's. */
  lemma {:induction false} FreshBound(ids: set<WorkerId>) returns (n: nat)
    ensures forall w :: w in ids ==> w.id < n
    decreases |ids|
  {
    if ids == {} {
      n := 0;
    } else {
      var w :| w in ids;
      var m := FreshBound(ids - {w});
      n := m + w.id + 1;
      forall x | x in ids ensures x.id < n {
        assert x == w || x in ids - {w};
      }
    }
  }

  /** How far time must go until the lease is free by true time. */
  function Wait(s: State): nat {
    if s.lease.expires.Some? && s.lease.expires.value > s.now then s.lease.expires.value - s.now else 0
  }

  function JournalledRow(row: SyncRun): SyncRun {
    row.(journal := Some(seq(row.plan, _ => UNTOUCHED)), cursor := 0)
  }

  /** Its consumer has committed the journal and renewed for the first write. */
  function ArmedAfterJournal(s: State, w: WorkerId): State
    requires s.At(w).pc.Executing? && s.At(w).pc.run in s.runs
  {
    var pc := s.At(w).pc;
    Wrote(s, w, pc.(stage := Armed(0)), pc.run, JournalledRow(s.runs[pc.run]))
    .(lease := s.lease.(expires := Some(Reading(s) + Leases.PAIR_LEASE_DURATION)))
  }

  lemma JournalAndRenew(s: State, w: WorkerId) returns (steps: seq<Step>)
    requires var pc := s.At(w).pc;
             && pc.Executing? && pc.stage.Journaling? && pc.run in s.runs && s.runs[pc.run].plan > 0
             && s.lease.token == Some(pc.token) && s.lease.expires.Some?
    ensures Leads(s, steps, ArmedAfterJournal(s, w)) && Plain(steps)
  {
    Nothing(s);
    JournalMove(s, w);
    Then(s, [], s, Journal(w));
    var t := After(s, Journal(w));
    RenewMove(t, w, Reading(s));
    Then(s, [] + [Journal(w)], t, Renew(w, Reading(s), Reading(s)));
    steps := [] + [Journal(w)] + [Renew(w, Reading(s), Reading(s))];
    assert After(t, Renew(w, Reading(s), Reading(s))).workers == ArmedAfterJournal(s, w).workers;
  }

  predicate ReadyToApply(s: State, w: WorkerId, r: RunId) {
    && Leases.Available(s.lease, s.now) && s.At(w).pc.Idle?
    && r in s.runs && s.runs[r].status.Planned? && s.runs[r].consumer.None? && s.runs[r].base == |s.baselines|
  }

  /** A worker has taken the lease and checked the review. */
  function ConfirmedBy(s: State, w: WorkerId, r: RunId): State {
    Moved(s, w, Consuming(Leases.Token(s.next), r)).(lease := NewLease(s, s.now), next := s.next + 1)
  }

  lemma AcquireAndConfirm(s: State, w: WorkerId, r: RunId) returns (steps: seq<Step>)
    requires ReadyToApply(s, w, r)
    ensures Leads(s, steps, ConfirmedBy(s, w, r)) && Plain(steps)
  {
    var acquire := Acquire(w, ToApply(r), s.now);
    Nothing(s);
    AcquireMove(s, w, ToApply(r));
    Then(s, [], s, acquire);
    var t := After(s, acquire);
    ConfirmMove(t, w);
    Then(s, [] + [acquire], t, Confirm(w));
    steps := [] + [acquire] + [Confirm(w)];
    assert After(t, Confirm(w)).workers == ConfirmedBy(s, w, r).workers;
  }

  /** A worker has taken the lease and consumed the approval. */
  function ConsumedBy(s: State, w: WorkerId, r: RunId): State
    requires r in s.runs
  {
    Wrote(s, w, Executing(Leases.Token(s.next), r, Journaling), r, s.runs[r].(status := Applying, consumer := Some(w)))
    .(lease := NewLease(s, s.now), next := s.next + 1)
  }

  lemma AcquireAndConsume(s: State, w: WorkerId, r: RunId) returns (steps: seq<Step>)
    requires ReadyToApply(s, w, r)
    ensures Leads(s, steps, ConsumedBy(s, w, r)) && Plain(steps)
  {
    var confirm := AcquireAndConfirm(s, w, r);
    var t := ConfirmedBy(s, w, r);
    ConsumeMove(t, w);
    Then(s, confirm, t, Consume(w));
    steps := confirm + [Consume(w)];
    assert After(t, Consume(w)).workers == ConsumedBy(s, w, r).workers;
  }

  /** A planned review, taken from a free lease up to just before its first write. */
  lemma ApplyUpToSend(s: State, w: WorkerId, r: RunId) returns (steps: seq<Step>)
    requires ReadyToApply(s, w, r) && s.runs[r].plan > 0
    ensures Leads(s, steps, ArmedAfterJournal(ConsumedBy(s, w, r), w)) && Plain(steps)
  {
    var consume := AcquireAndConsume(s, w, r);
    var rest := JournalAndRenew(ConsumedBy(s, w, r), w);
    Join(s, consume, ConsumedBy(s, w, r), rest);
    steps := consume + rest;
  }

  // ---- Reviews and accepted baselines ---------------------------------------------------------------

  function DraftedBy(s: State, w: WorkerId, r: RunId): State {
    Wrote(s, w, Drafting(Leases.Token(s.next), r, |s.baselines|), r,
          SyncRun(Preparing, 0, 0, s.now, None, None, w, false, 0, false, false))
    .(lease := NewLease(s, s.now), next := s.next + 1)
  }

  lemma AcquireAndDraft(s: State, w: WorkerId, r: RunId) returns (steps: seq<Step>)
    requires Leases.Available(s.lease, s.now) && s.At(w).pc.Idle? && r !in s.runs
    ensures Leads(s, steps, DraftedBy(s, w, r)) && Plain(steps)
  {
    var acquire := Acquire(w, ToReview, s.now);
    Nothing(s);
    AcquireMove(s, w, ToReview);
    Then(s, [], s, acquire);
    var t := After(s, acquire);
    StartRunMove(t, w, r);
    Then(s, [] + [acquire], t, StartRun(w, r));
    steps := [] + [acquire] + [StartRun(w, r)];
    assert After(t, StartRun(w, r)).workers == DraftedBy(s, w, r).workers;
  }

  /** A review of n actions is planned and its lease released. */
  function PlannedBy(s: State, w: WorkerId, n: nat): State
    requires s.At(w).pc.Drafting? && s.At(w).pc.run in s.runs
  {
    var r := s.At(w).pc.run;
    Wrote(s, w, Idle, r, s.runs[r].(status := Planned, plan := n, base := |s.baselines|, drafted := true))
    .(lease := Leases.UNLOCKED)
  }

  lemma PlanAndRelease(s: State, w: WorkerId, n: nat) returns (steps: seq<Step>)
    requires s.At(w).pc.Drafting? && s.At(w).pc.run in s.runs && s.At(w).pc.seen <= |s.baselines|
    requires s.lease.token == Some(s.At(w).pc.token) && s.lease.expires.Some?
    ensures Leads(s, steps, PlannedBy(s, w, n)) && Plain(steps)
  {
    var plan := Plan(w, n, |s.baselines|, Reading(s));
    Nothing(s);
    PlanMove(s, w, n, Reading(s));
    Then(s, [], s, plan);
    var t := After(s, plan);
    ReleaseMove(t, w);
    Then(s, [] + [plan], t, Release(w));
    steps := [] + [plan] + [Release(w)];
    assert After(t, Release(w)).workers == PlannedBy(s, w, n).workers;
  }

  /** A worker holds the lease in order to accept the current state as the baseline. */
  function AcceptingBy(s: State, w: WorkerId): State {
    Moved(s, w, Accepting(Leases.Token(s.next))).(lease := NewLease(s, s.now), next := s.next + 1)
  }

  lemma AcquireToAccept(s: State, w: WorkerId) returns (steps: seq<Step>)
    requires Leases.Available(s.lease, s.now) && s.At(w).pc.Idle?
    ensures Leads(s, steps, AcceptingBy(s, w)) && Plain(steps)
  {
    var acquire := Acquire(w, ToAccept, s.now);
    Nothing(s);
    AcquireMove(s, w, ToAccept);
    Then(s, [], s, acquire);
    steps := [] + [acquire];
  }

  // ---- Steps that do not look at the lease ----------------------------------------------------------

  /** The steps that write shared state, or a provider, without looking at the lease. */
  predicate Unguarded(step: Step) {
    step.Decide? || step.Reject? || step.Finish? || step.Accept? || step.Send?
  }

  predicate Plain(steps: seq<Step>) {
    forall i :: 0 <= i < |steps| ==> !Unguarded(steps[i])
  }
}
