/** What one undisturbed worker makes of a review, an apply, its failure, and a recovery, in the rows it leaves. */
module ApplyPaths {
  import opened Prelude
  import Leases
  import opened ApplyProtocol
  import opened ApplyMoves
  import opened Scheduling

  /** The pair is free, and the worker has nothing to do. */
  predicate Free(s: State, w: WorkerId) {
    s.At(w).pc == Idle && (s.lease.token == None || s.lease.expires == None || s.lease.expires.value <= s.now)
  }

  /** Afterwards the pair is free again, everybody stands where they stood, and one token is used up. */
  ghost predicate FreeAgain(s: State, t: State) {
    && t.now == s.now && t.next == s.next + 1 && t.lease == Leases.Lease(None, None)
    && forall v :: t.At(v) == s.At(v)
  }

  /** The worker holds the lease until some time to come, and all others stand where they stood. */
  ghost predicate Holding(s: State, w: WorkerId, t: State, pc: Pc) {
    && t.now == s.now && t.next == s.next + 1
    && t.lease.token == Some(Leases.Token(s.next)) && t.lease.expires.Some? && t.lease.expires.value > t.now
    && pc.Holds() && pc.token == Leases.Token(s.next) && t.At(w) == s.At(w).(pc := pc)
    && forall v :: v != w ==> t.At(v) == s.At(v)
  }

  // ---- Who may do what -----------------------------------------------------------------------------------

  /** The executor's loop is at this stage for an action of the journal. */
  predicate AtAction(s: State, pc: Pc, stage: Stage) {
    && pc.Executing? && pc.stage == stage && pc.run in s.runs && s.runs[pc.run].journal.Some?
    && !stage.Journaling? && stage.next < |s.runs[pc.run].journal.value|
  }

  /** It is past the last action. */
  predicate PastLast(s: State, pc: Pc) {
    && pc.Executing? && (pc.stage.Writing? || pc.stage.Closing?) && pc.run in s.runs
    && s.runs[pc.run].journal.Some? && pc.stage.next == |s.runs[pc.run].journal.value|
  }

  predicate HasStatus(s: State, pc: Pc, status: Status)
    requires pc.Checking? || pc.Consuming?
  {
    pc.run in s.runs && s.runs[pc.run].status == status
  }

  /** The conditions the program puts on its steps, in terms of the rows and the worker. Only taking the lease,
      planning a review and renewing look at the lease row, and only the last of these may fail. */
  ghost predicate Guarded(s: State, step: Step) {
    match step
    case Tick(_) => true
    case Crash(_) => true
    case Clear(w) =>
      && s.At(w).pc == Idle && s.baselines != []
      && forall r :: r in s.runs && (s.runs[r].status == Failed || s.runs[r].status == Applying) ==>
           s.runs[r].startedAt < s.baselines[|s.baselines| - 1]
    case Acquire(w, purpose, reading) =>
      && reading <= s.now
      && (s.lease.token == None || s.lease.expires == None || s.lease.expires.value <= reading)
      && (if purpose == ToRecover then s.At(w).pc.Listed? else s.At(w).pc == Idle)
      && (purpose.ToApply? ==> purpose.run in s.runs)
    case Release(w) => s.At(w).pc.Releasing?
    case GiveUp(w) =>
      var pc := s.At(w).pc;
      || pc.Reviewing? || pc.Drafting? || pc.Checking? || pc.Consuming? || pc.Accepting? || pc.Handling?
      || pc.Noticed? || pc.Marking?
    case StartRun(w, r) => s.At(w).pc.Reviewing? && r !in s.runs
    case Plan(w, _, base, reading) =>
      var pc := s.At(w).pc;
      && pc.Drafting? && pc.run in s.runs && pc.seen <= base <= |s.baselines| && reading <= s.now
      && s.lease.token == Some(pc.token) && s.lease.expires.Some? && s.lease.expires.value > reading
    case DropDraft(w) => s.At(w).pc.Drafting? && s.At(w).pc.run in s.runs
    case Confirm(w) =>
      var pc := s.At(w).pc; pc.Checking? && HasStatus(s, pc, Planned) && s.runs[pc.run].base == |s.baselines|
    case BeginReject(w) => var pc := s.At(w).pc; (pc.Checking? || pc.Consuming?) && HasStatus(s, pc, Planned)
    case Reject(w) => s.At(w).pc.Rejecting? && s.At(w).pc.run in s.runs
    case Consume(w) =>
      var pc := s.At(w).pc; pc.Consuming? && HasStatus(s, pc, Planned) && s.runs[pc.run].consumer == None
    case Journal(w) => var pc := s.At(w).pc; pc.Executing? && pc.stage == Journaling && pc.run in s.runs
    case SkipOne(w) => var pc := s.At(w).pc; pc.Executing? && pc.stage.Writing? && AtAction(s, pc, pc.stage)
    case Renew(w, reading, stamp) =>
      var pc := s.At(w).pc;
      && reading <= s.now && stamp <= s.now && pc.Executing? && pc.run in s.runs && s.runs[pc.run].journal.Some?
      && (pc.stage.Recorded? || (pc.stage.Writing? && AtAction(s, pc, pc.stage)))
    case Send(w) => var pc := s.At(w).pc; pc.Executing? && pc.stage.Armed? && AtAction(s, pc, pc.stage)
    case Acknowledge(w) => var pc := s.At(w).pc; pc.Executing? && pc.stage.InFlight? && AtAction(s, pc, pc.stage)
    case Refuse(w) => var pc := s.At(w).pc; pc.Executing? && pc.stage.InFlight? && AtAction(s, pc, pc.stage)
    case Complete(w) => var pc := s.At(w).pc; pc.Executing? && pc.stage.Acked? && AtAction(s, pc, pc.stage)
    case CommitSkips(w) => PastLast(s, s.At(w).pc) && s.At(w).pc.stage.Writing?
    case Finish(w) => PastLast(s, s.At(w).pc)
    case Fail(w) => s.At(w).pc.Executing?
    case Notice(w) =>
      var pc := s.At(w).pc; pc.Handling? || ((pc.Checking? || pc.Consuming?) && HasStatus(s, pc, Applying))
    case Inspect(w, memory) => var pc := s.At(w).pc; pc.Noticed? && pc.run in s.runs && (memory ==> pc.own)
    case MarkFailed(w) => s.At(w).pc.Marking? && s.At(w).pc.run in s.runs
    case Accept(w) => s.At(w).pc.Accepting?
    case Invalidate(_, r) => r in s.runs && s.runs[r].status == Planned
    case ListRuns(w) => s.At(w).pc == Idle
    case Decide(w, r) => s.At(w).pc.Recovering? && r in s.At(w).pc.todo && r in s.runs
    case Conclude(w, r) =>
      var pc := s.At(w).pc; pc.Recovering? && pc.todo == {} && r in pc.verdicts && r in s.runs
    case EndRecovery(w) => s.At(w).pc.Recovering?
  }

  lemma EnabledIsGuarded(s: State, step: Step)
    ensures Enabled(s, step) <==> Guarded(s, step)
  {
  }

  // ---- One more step -----------------------------------------------------------------------------------

  lemma ThenConfirm(s: State, xs: seq<Step>, t: State, w: WorkerId)
    returns (steps: seq<Step>, u: State)
    requires Leads(s, xs, t)
    requires var pc := t.At(w).pc;
             pc.Checking? && pc.run in t.runs && t.runs[pc.run].status.Planned? && t.runs[pc.run].base == |t.baselines|
    ensures Leads(s, steps, u)
    ensures u == Moved(t, w, Consuming(t.At(w).pc.token, t.At(w).pc.run))
  {
    ConfirmMove(t, w);
    Then(s, xs, t, Confirm(w));
    steps, u := xs + [Confirm(w)], After(t, Confirm(w));
  }

  lemma ThenConsume(s: State, xs: seq<Step>, t: State, w: WorkerId)
    returns (steps: seq<Step>, u: State)
    requires Leads(s, xs, t)
    requires var pc := t.At(w).pc;
             pc.Consuming? && pc.run in t.runs && t.runs[pc.run].status.Planned? && t.runs[pc.run].consumer.None?
    ensures Leads(s, steps, u)
    ensures var pc := t.At(w).pc;
            u == Wrote(t, w, Executing(pc.token, pc.run, Journaling), pc.run,
                       t.runs[pc.run].(status := Applying, consumer := Some(w)))
  {
    ConsumeMove(t, w);
    Then(s, xs, t, Consume(w));
    steps, u := xs + [Consume(w)], After(t, Consume(w));
  }

  lemma ThenJournal(s: State, xs: seq<Step>, t: State, w: WorkerId)
    returns (steps: seq<Step>, u: State)
    requires Leads(s, xs, t)
    requires var pc := t.At(w).pc; pc.Executing? && pc.stage.Journaling? && pc.run in t.runs
    ensures Leads(s, steps, u)
    ensures var pc := t.At(w).pc;
            u == Wrote(t, w, pc.(stage := Writing(0)), pc.run,
                       t.runs[pc.run].(journal := Some(seq(t.runs[pc.run].plan, _ => UNTOUCHED)), cursor := 0))
  {
    JournalMove(t, w);
    Then(s, xs, t, Journal(w));
    steps, u := xs + [Journal(w)], After(t, Journal(w));
  }

  lemma ThenSkip(s: State, xs: seq<Step>, t: State, w: WorkerId)
    returns (steps: seq<Step>, u: State)
    requires Leads(s, xs, t)
    requires InStage(t, t.At(w).pc, true) && t.At(w).pc.stage.Writing?
    ensures Leads(s, steps, u)
    ensures var pc := t.At(w).pc;
            u == Wrote(t, w, pc.(stage := Writing(pc.stage.next + 1)), pc.run, Passed(t.runs[pc.run], pc.stage.next))
  {
    SkipMove(t, w);
    Then(s, xs, t, SkipOne(w));
    steps, u := xs + [SkipOne(w)], After(t, SkipOne(w));
  }

  lemma ThenRenew(s: State, xs: seq<Step>, t: State, w: WorkerId)
    returns (steps: seq<Step>, u: State)
    requires Leads(s, xs, t)
    requires var pc := t.At(w).pc;
             && InStage(t, pc, false) && Leases.Owned(t.lease, pc.token, t.now)
             && ((pc.stage.Writing? && InStage(t, pc, true)) || pc.stage.Recorded?)
    ensures Leads(s, steps, u)
    ensures var pc := t.At(w).pc;
            u == Moved(t, w, pc.(stage := if pc.stage.Writing? then Armed(pc.stage.next) else Writing(pc.stage.next)))
                 .(lease := t.lease.(expires := Some(t.now + Leases.PAIR_LEASE_DURATION)))
  {
    RenewMove(t, w, t.now);
    Then(s, xs, t, Renew(w, t.now, t.now));
    steps, u := xs + [Renew(w, t.now, t.now)], After(t, Renew(w, t.now, t.now));
  }

  lemma ThenSend(s: State, xs: seq<Step>, t: State, w: WorkerId)
    returns (steps: seq<Step>, u: State)
    requires Leads(s, xs, t)
    requires InStage(t, t.At(w).pc, true) && t.At(w).pc.stage.Armed?
    ensures Leads(s, steps, u)
    ensures var pc := t.At(w).pc;
            u == Wrote(t, w, pc.(stage := InFlight(pc.stage.next)), pc.run, SentOnce(t.runs[pc.run], pc.stage.next))
  {
    SendMove(t, w);
    Then(s, xs, t, Send(w));
    steps, u := xs + [Send(w)], After(t, Send(w));
  }

  lemma ThenRefuse(s: State, xs: seq<Step>, t: State, w: WorkerId)
    returns (steps: seq<Step>, u: State)
    requires Leads(s, xs, t)
    requires InStage(t, t.At(w).pc, true) && t.At(w).pc.stage.InFlight?
    ensures Leads(s, steps, u)
    ensures var pc := t.At(w).pc;
            u == Wrote(t, w, pc.(stage := Writing(pc.stage.next + 1)), pc.run, Passed(t.runs[pc.run], pc.stage.next))
  {
    RefuseMove(t, w);
    Then(s, xs, t, Refuse(w));
    steps, u := xs + [Refuse(w)], After(t, Refuse(w));
  }

  lemma ThenAcknowledge(s: State, xs: seq<Step>, t: State, w: WorkerId)
    returns (steps: seq<Step>, u: State)
    requires Leads(s, xs, t)
    requires InStage(t, t.At(w).pc, true) && t.At(w).pc.stage.InFlight?
    ensures Leads(s, steps, u)
    ensures var pc := t.At(w).pc;
            u == Wrote(t, w, pc.(stage := Acked(pc.stage.next)), pc.run, Confirmed(t.runs[pc.run], pc.stage.next))
  {
    AcknowledgeMove(t, w);
    Then(s, xs, t, Acknowledge(w));
    steps, u := xs + [Acknowledge(w)], After(t, Acknowledge(w));
  }

  lemma ThenComplete(s: State, xs: seq<Step>, t: State, w: WorkerId)
    returns (steps: seq<Step>, u: State)
    requires Leads(s, xs, t)
    requires InStage(t, t.At(w).pc, true) && t.At(w).pc.stage.Acked?
    ensures Leads(s, steps, u)
    ensures var pc := t.At(w).pc;
            u == Wrote(t, w, pc.(stage := Recorded(pc.stage.next + 1)), pc.run, Done(t.runs[pc.run], pc.stage.next))
  {
    CompleteMove(t, w);
    Then(s, xs, t, Complete(w));
    steps, u := xs + [Complete(w)], After(t, Complete(w));
  }

  lemma ThenFinish(s: State, xs: seq<Step>, t: State, w: WorkerId)
    returns (steps: seq<Step>, u: State)
    requires Leads(s, xs, t)
    requires AllWritten(t, t.At(w).pc)
    ensures Leads(s, steps, u)
    ensures var pc := t.At(w).pc;
            u == Wrote(t, w, Releasing(pc.token), pc.run, Baselined(t.runs[pc.run], pc.stage.Closing?))
                 .(baselines := t.baselines + [t.now])
  {
    FinishMove(t, w);
    Then(s, xs, t, Finish(w));
    steps, u := xs + [Finish(w)], After(t, Finish(w));
  }

  lemma ThenStartRun(s: State, xs: seq<Step>, t: State, w: WorkerId, r: RunId)
    returns (steps: seq<Step>, u: State)
    requires Leads(s, xs, t)
    requires t.At(w).pc.Reviewing? && r !in t.runs
    ensures Leads(s, steps, u)
    ensures u == Wrote(t, w, Drafting(t.At(w).pc.token, r, |t.baselines|), r,
                       SyncRun(Preparing, 0, 0, t.now, None, None, w, false, 0, false, false))
  {
    StartRunMove(t, w, r);
    Then(s, xs, t, StartRun(w, r));
    steps, u := xs + [StartRun(w, r)], After(t, StartRun(w, r));
  }

  lemma ThenPlan(s: State, xs: seq<Step>, t: State, w: WorkerId, n: nat)
    returns (steps: seq<Step>, u: State)
    requires Leads(s, xs, t)
    requires var pc := t.At(w).pc;
             && pc.Drafting? && pc.run in t.runs && pc.seen <= |t.baselines|
             && Leases.Owned(t.lease, pc.token, t.now)
    ensures Leads(s, steps, u)
    ensures var pc := t.At(w).pc;
            u == Wrote(t, w, Releasing(pc.token), pc.run,
                       t.runs[pc.run].(status := Planned, plan := n, base := |t.baselines|, drafted := true))
  {
    PlanMove(t, w, n, t.now);
    Then(s, xs, t, Plan(w, n, |t.baselines|, t.now));
    steps, u := xs + [Plan(w, n, |t.baselines|, t.now)], After(t, Plan(w, n, |t.baselines|, t.now));
  }

  lemma ThenDropDraft(s: State, xs: seq<Step>, t: State, w: WorkerId)
    returns (steps: seq<Step>, u: State)
    requires Leads(s, xs, t)
    requires t.At(w).pc.Drafting? && t.At(w).pc.run in t.runs
    ensures Leads(s, steps, u)
    ensures var pc := t.At(w).pc;
            u == Wrote(t, w, Releasing(pc.token), pc.run, t.runs[pc.run].(status := ReviewFailed))
  {
    DropDraftMove(t, w);
    Then(s, xs, t, DropDraft(w));
    steps, u := xs + [DropDraft(w)], After(t, DropDraft(w));
  }

  lemma ThenBeginReject(s: State, xs: seq<Step>, t: State, w: WorkerId)
    returns (steps: seq<Step>, u: State)
    requires Leads(s, xs, t)
    requires t.At(w).pc.Checking? && t.At(w).pc.run in t.runs && t.runs[t.At(w).pc.run].status.Planned?
    ensures Leads(s, steps, u)
    ensures u == Moved(t, w, Rejecting(t.At(w).pc.token, t.At(w).pc.run))
  {
    BeginRejectMove(t, w);
    Then(s, xs, t, BeginReject(w));
    steps, u := xs + [BeginReject(w)], After(t, BeginReject(w));
  }

  lemma ThenReject(s: State, xs: seq<Step>, t: State, w: WorkerId)
    returns (steps: seq<Step>, u: State)
    requires Leads(s, xs, t)
    requires t.At(w).pc.Rejecting? && t.At(w).pc.run in t.runs
    ensures Leads(s, steps, u)
    ensures var pc := t.At(w).pc;
            u == Wrote(t, w, Releasing(pc.token), pc.run, t.runs[pc.run].(status := ReviewFailed))
  {
    RejectMove(t, w);
    Then(s, xs, t, Reject(w));
    steps, u := xs + [Reject(w)], After(t, Reject(w));
  }

  lemma ThenAccept(s: State, xs: seq<Step>, t: State, w: WorkerId)
    returns (steps: seq<Step>, u: State)
    requires Leads(s, xs, t)
    requires t.At(w).pc.Accepting?
    ensures Leads(s, steps, u)
    ensures u == Moved(t, w, Releasing(t.At(w).pc.token)).(baselines := t.baselines + [t.now])
  {
    AcceptMove(t, w);
    Then(s, xs, t, Accept(w));
    steps, u := xs + [Accept(w)], After(t, Accept(w));
  }

  lemma ThenRelease(s: State, xs: seq<Step>, t: State, w: WorkerId)
    returns (steps: seq<Step>, u: State)
    requires Leads(s, xs, t)
    requires t.At(w).pc.Releasing?
    ensures Leads(s, steps, u)
    ensures u == Moved(t, w, Idle).(lease := Leases.Released(t.lease, t.At(w).pc.token))
  {
    ReleaseMove(t, w);
    Then(s, xs, t, Release(w));
    steps, u := xs + [Release(w)], After(t, Release(w));
  }

  lemma ThenFail(s: State, xs: seq<Step>, t: State, w: WorkerId)
    returns (steps: seq<Step>, u: State)
    requires Leads(s, xs, t)
    requires t.At(w).pc.Executing?
    ensures Leads(s, steps, u)
    ensures u == Moved(t, w, Handling(t.At(w).pc.token, t.At(w).pc.run))
  {
    FailMove(t, w);
    Then(s, xs, t, Fail(w));
    steps, u := xs + [Fail(w)], After(t, Fail(w));
  }

  lemma ThenNotice(s: State, xs: seq<Step>, t: State, w: WorkerId)
    returns (steps: seq<Step>, u: State)
    requires Leads(s, xs, t)
    requires t.At(w).pc.Handling?
    ensures Leads(s, steps, u)
    ensures u == Moved(t, w, Noticed(t.At(w).pc.token, t.At(w).pc.run, true))
  {
    NoticeMove(t, w);
    Then(s, xs, t, Notice(w));
    steps, u := xs + [Notice(w)], After(t, Notice(w));
  }

  lemma ThenInspect(s: State, xs: seq<Step>, t: State, w: WorkerId)
    returns (steps: seq<Step>, u: State)
    requires Leads(s, xs, t)
    requires t.At(w).pc.Noticed? && t.At(w).pc.run in t.runs
    ensures Leads(s, steps, u)
    ensures var pc := t.At(w).pc;
            u == Moved(t, w, Marking(pc.token, pc.run, Picked(t.runs[pc.run], false)))
  {
    InspectMove(t, w, false);
    Then(s, xs, t, Inspect(w, false));
    steps, u := xs + [Inspect(w, false)], After(t, Inspect(w, false));
  }

  lemma ThenMarkFailed(s: State, xs: seq<Step>, t: State, w: WorkerId)
    returns (steps: seq<Step>, u: State)
    requires Leads(s, xs, t)
    requires t.At(w).pc.Marking? && t.At(w).pc.run in t.runs
    ensures Leads(s, steps, u)
    ensures var pc := t.At(w).pc;
            u == Wrote(t, w, Releasing(pc.token), pc.run, WithFailure(t.runs[pc.run], pc.entry))
  {
    MarkFailedMove(t, w);
    Then(s, xs, t, MarkFailed(w));
    steps, u := xs + [MarkFailed(w)], After(t, MarkFailed(w));
  }

  lemma ThenListRuns(s: State, xs: seq<Step>, t: State, w: WorkerId)
    returns (steps: seq<Step>, u: State)
    requires Leads(s, xs, t)
    requires t.At(w).pc.Idle?
    ensures Leads(s, steps, u)
    ensures u == Moved(t, w, Listed(set r | r in t.runs && Unfinished(t.runs[r])))
  {
    ListRunsMove(t, w);
    Then(s, xs, t, ListRuns(w));
    steps, u := xs + [ListRuns(w)], After(t, ListRuns(w));
  }

  lemma ThenRecover(s: State, xs: seq<Step>, t: State, w: WorkerId)
    returns (steps: seq<Step>, u: State)
    requires Leads(s, xs, t)
    requires Leases.Available(t.lease, t.now) && t.At(w).pc.Listed?
    ensures Leads(s, steps, u)
    ensures u == Moved(t, w, Recovering(Leases.Token(t.next), t.At(w).pc.todo, map[]))
                 .(lease := NewLease(t, t.now), next := t.next + 1)
  {
    AcquireMove(t, w, ToRecover);
    Then(s, xs, t, Acquire(w, ToRecover, t.now));
    steps, u := xs + [Acquire(w, ToRecover, t.now)], After(t, Acquire(w, ToRecover, t.now));
  }

  lemma ThenDecide(s: State, xs: seq<Step>, t: State, w: WorkerId, r: RunId)
    returns (steps: seq<Step>, u: State)
    requires Leads(s, xs, t)
    requires t.At(w).pc.Recovering? && r in t.At(w).pc.todo && r in t.runs && Unfinished(t.runs[r])
    ensures Leads(s, steps, u)
    ensures var pc := t.At(w).pc;
            u == Moved(t, w, Recovering(pc.token, pc.todo - {r}, pc.verdicts[r := Verdict(t.runs[r])]))
  {
    DecideMove(t, w, r);
    Then(s, xs, t, Decide(w, r));
    steps, u := xs + [Decide(w, r)], After(t, Decide(w, r));
  }

  lemma ThenConclude(s: State, xs: seq<Step>, t: State, w: WorkerId, r: RunId)
    returns (steps: seq<Step>, u: State)
    requires Leads(s, xs, t)
    requires var pc := t.At(w).pc;
             pc.Recovering? && pc.todo == {} && r in pc.verdicts && r in t.runs
    ensures Leads(s, steps, u)
    ensures var pc := t.At(w).pc;
            u == Wrote(t, w, Recovering(pc.token, pc.todo, pc.verdicts - {r}), r,
                       t.runs[r].(status := pc.verdicts[r],
                                  interrupted := t.runs[r].interrupted || pc.verdicts[r].Interrupted?))
  {
    ConcludeMove(t, w, r);
    Then(s, xs, t, Conclude(w, r));
    steps, u := xs + [Conclude(w, r)], After(t, Conclude(w, r));
  }

  lemma ThenEndRecovery(s: State, xs: seq<Step>, t: State, w: WorkerId)
    returns (steps: seq<Step>, u: State)
    requires Leads(s, xs, t)
    requires t.At(w).pc.Recovering?
    ensures Leads(s, steps, u)
    ensures u == Moved(t, w, Releasing(t.At(w).pc.token))
  {
    EndRecoveryMove(t, w);
    Then(s, xs, t, EndRecovery(w));
    steps, u := xs + [EndRecovery(w)], After(t, EndRecovery(w));
  }

  // ---- Short paths -------------------------------------------------------------------------------------

  lemma Takes(s: State, w: WorkerId, purpose: Purpose) returns (steps: seq<Step>, t: State)
    requires Free(s, w) && !purpose.ToRecover? && (purpose.ToApply? ==> purpose.run in s.runs)
    ensures Leads(s, steps, t) && Holding(s, w, t, AfterAcquire(Idle, purpose, Leases.Token(s.next)))
    ensures t.runs == s.runs && t.baselines == s.baselines
  {
    AcquireMove(s, w, purpose);
    Nothing(s);
    Then(s, [], s, Acquire(w, purpose, s.now));
    steps, t := [] + [Acquire(w, purpose, s.now)], After(s, Acquire(w, purpose, s.now));
  }

  lemma LetsGo(s: State, xs: seq<Step>, w: WorkerId, t: State) returns (steps: seq<Step>, u: State)
    requires Leads(s, xs, t) && Holding(s, w, t, Releasing(Leases.Token(s.next))) && s.At(w).pc == Idle
    ensures Leads(s, steps, u) && FreeAgain(s, u) && u.runs == t.runs && u.baselines == t.baselines
  {
    steps, u := ThenRelease(s, xs, t, w);
  }

  /** A review of n actions can be carried through: it leaves a planned run over the baselines there are. */
  lemma ReviewIsPlanned(s: State, w: WorkerId, r: RunId, n: nat) returns (steps: seq<Step>, u: State)
    requires Free(s, w) && r !in s.runs
    ensures Leads(s, steps, u) && FreeAgain(s, u) && u.baselines == s.baselines
    ensures u.runs
            == s.runs[r := SyncRun(Planned, n, |s.baselines|, s.now, None, None, w, true, 0, false, false)]
  {
    steps, u := Takes(s, w, ToReview);
    steps, u := ThenStartRun(s, steps, u, w, r);
    steps, u := ThenPlan(s, steps, u, w, n);
    steps, u := LetsGo(s, steps, w, u);
  }

  /** A review that raises leaves a run that failed in review. */
  lemma ReviewIsDropped(s: State, w: WorkerId, r: RunId) returns (steps: seq<Step>, u: State)
    requires Free(s, w) && r !in s.runs
    ensures Leads(s, steps, u) && FreeAgain(s, u) && u.baselines == s.baselines
    ensures u.runs == s.runs[r := SyncRun(ReviewFailed, 0, 0, s.now, None, None, w, false, 0, false, false)]
  {
    steps, u := Takes(s, w, ToReview);
    steps, u := ThenStartRun(s, steps, u, w, r);
    steps, u := ThenDropDraft(s, steps, u, w);
    steps, u := LetsGo(s, steps, w, u);
  }

  /** A planned run can be turned down, whatever baselines were saved since; nothing but its status changes. */
  lemma ReviewIsRejected(s: State, w: WorkerId, r: RunId) returns (steps: seq<Step>, u: State)
    requires Free(s, w) && r in s.runs && s.runs[r].status == Planned
    ensures Leads(s, steps, u) && FreeAgain(s, u) && u.baselines == s.baselines
    ensures u.runs == s.runs[r := s.runs[r].(status := ReviewFailed)]
  {
    steps, u := Takes(s, w, ToApply(r));
    steps, u := ThenBeginReject(s, steps, u, w);
    steps, u := ThenReject(s, steps, u, w);
    steps, u := LetsGo(s, steps, w, u);
  }

  /** Accepting the playlists as they are saves a baseline and touches no run. */
  lemma StateIsAccepted(s: State, w: WorkerId) returns (steps: seq<Step>, u: State)
    requires Free(s, w)
    ensures Leads(s, steps, u) && FreeAgain(s, u) && u.runs == s.runs && u.baselines == s.baselines + [s.now]
  {
    steps, u := Takes(s, w, ToAccept);
    steps, u := ThenAccept(s, steps, u, w);
    steps, u := LetsGo(s, steps, w, u);
  }

  // ---- A whole apply -----------------------------------------------------------------------------------

  /** What becomes of one action: the preflight skips it, the provider takes it, or refuses it. */
  datatype Fate = Skip | Take | Decline

  /** The journal entry once the executor is past the action. */
  function Ended(fate: Fate): Entry {
    match fate
    case Skip => Entry(Pending, 0, false, true, false)
    case Take => Entry(Completed, 1, true, false, true)
    case Decline => Entry(Pending, 1, false, true, false)
  }

  /** And once the baseline is saved. */
  function Filed(fate: Fate): Entry {
    match fate
    case Skip => Entry(Skipped, 0, false, true, false)
    case Take => Entry(Completed, 1, true, false, true)
    case Decline => Entry(Skipped, 1, false, true, false)
  }

  function JournalAt(fates: seq<Fate>, i: nat): seq<Entry> {
    seq(|fates|, k requires 0 <= k < |fates| => if k < i then Ended(fates[k]) else UNTOUCHED)
  }

  /** The row of a consumed run when the executor is past the first i actions. */
  function RowAt(row: SyncRun, w: WorkerId, fates: seq<Fate>, i: nat): SyncRun {
    row.(status := Applying, consumer := Some(w), journal := Some(JournalAt(fates, i)), cursor := i)
  }

  ghost predicate InLoop(s: State, w: WorkerId, r: RunId, fates: seq<Fate>, i: nat, t: State)
    requires r in s.runs
  {
    && Holding(s, w, t, Executing(Leases.Token(s.next), r, Writing(i))) && i <= |fates|
    && t.runs == s.runs[r := RowAt(s.runs[r], w, fates, i)] && t.baselines == s.baselines
  }

  lemma EntersLoop(s: State, w: WorkerId, r: RunId, fates: seq<Fate>) returns (steps: seq<Step>, t: State)
    requires Free(s, w) && r in s.runs && s.runs[r].status == Planned && s.runs[r].consumer == None
    requires s.runs[r].plan == |fates| && s.runs[r].base == |s.baselines|
    ensures Leads(s, steps, t) && InLoop(s, w, r, fates, 0, t)
  {
    steps, t := Consumes(s, w, r);
    steps, t := ThenJournal(s, steps, t, w);
    assert JournalAt(fates, 0) == seq(|fates|, _ => UNTOUCHED);
  }

  lemma Consumes(s: State, w: WorkerId, r: RunId) returns (steps: seq<Step>, t: State)
    requires Free(s, w) && r in s.runs && s.runs[r].status == Planned && s.runs[r].consumer == None
    requires s.runs[r].base == |s.baselines|
    ensures Leads(s, steps, t) && Holding(s, w, t, Executing(Leases.Token(s.next), r, Journaling))
    ensures t.runs == s.runs[r := s.runs[r].(status := Applying, consumer := Some(w))] && t.baselines == s.baselines
  {
    steps, t := Takes(s, w, ToApply(r));
    steps, t := ThenConfirm(s, steps, t, w);
    steps, t := ThenConsume(s, steps, t, w);
  }

  /** The worker is between two stages of action i; the entry of that action is as given. */
  ghost predicate AtStage(s: State, w: WorkerId, r: RunId, fates: seq<Fate>, i: nat, stage: Stage, e: Entry, t: State)
    requires r in s.runs && i < |fates|
  {
    && Holding(s, w, t, Executing(Leases.Token(s.next), r, stage)) && t.baselines == s.baselines
    && t.runs == s.runs[r := RowAt(s.runs[r], w, fates, i).(journal := Some(JournalAt(fates, i)[i := e]))]
  }

  lemma Skips(s: State, xs: seq<Step>, w: WorkerId, r: RunId, fates: seq<Fate>, i: nat, t: State)
    returns (steps: seq<Step>, u: State)
    requires r in s.runs && Leads(s, xs, t) && InLoop(s, w, r, fates, i, t) && i < |fates| && fates[i] == Skip
    ensures Leads(s, steps, u) && InLoop(s, w, r, fates, i + 1, u)
  {
    steps, u := ThenSkip(s, xs, t, w);
    assert JournalAt(fates, i)[i := Ended(Skip)] == JournalAt(fates, i + 1);
  }

  lemma Sends(s: State, xs: seq<Step>, w: WorkerId, r: RunId, fates: seq<Fate>, i: nat, t: State)
    returns (steps: seq<Step>, u: State)
    requires r in s.runs && Leads(s, xs, t) && InLoop(s, w, r, fates, i, t) && i < |fates|
    ensures Leads(s, steps, u) && AtStage(s, w, r, fates, i, InFlight(i), UNTOUCHED.(sent := 1), u)
  {
    steps, u := ThenRenew(s, xs, t, w);
    steps, u := ThenSend(s, steps, u, w);
  }

  lemma IsRefused(s: State, xs: seq<Step>, w: WorkerId, r: RunId, fates: seq<Fate>, i: nat, t: State)
    returns (steps: seq<Step>, u: State)
    requires r in s.runs && Leads(s, xs, t) && i < |fates| && fates[i] == Decline
    requires AtStage(s, w, r, fates, i, InFlight(i), UNTOUCHED.(sent := 1), t)
    ensures Leads(s, steps, u) && InLoop(s, w, r, fates, i + 1, u)
  {
    steps, u := ThenRefuse(s, xs, t, w);
    assert JournalAt(fates, i)[i := UNTOUCHED.(sent := 1)][i := Ended(Decline)] == JournalAt(fates, i + 1);
  }

  lemma IsAcknowledged(s: State, xs: seq<Step>, w: WorkerId, r: RunId, fates: seq<Fate>, i: nat, t: State)
    returns (steps: seq<Step>, u: State)
    requires r in s.runs && Leads(s, xs, t) && i < |fates|
    requires AtStage(s, w, r, fates, i, InFlight(i), UNTOUCHED.(sent := 1), t)
    ensures Leads(s, steps, u) && AtStage(s, w, r, fates, i, Acked(i), UNTOUCHED.(sent := 1, acked := true), u)
  {
    steps, u := ThenAcknowledge(s, xs, t, w);
    assert JournalAt(fates, i)[i := UNTOUCHED.(sent := 1)][i := UNTOUCHED.(sent := 1, acked := true)]
        == JournalAt(fates, i)[i := UNTOUCHED.(sent := 1, acked := true)];
  }

  lemma IsCompleted(s: State, xs: seq<Step>, w: WorkerId, r: RunId, fates: seq<Fate>, i: nat, t: State)
    returns (steps: seq<Step>, u: State)
    requires r in s.runs && Leads(s, xs, t) && i < |fates| && fates[i] == Take
    requires AtStage(s, w, r, fates, i, Acked(i), UNTOUCHED.(sent := 1, acked := true), t)
    ensures Leads(s, steps, u) && InLoop(s, w, r, fates, i + 1, u)
  {
    steps, u := ThenComplete(s, xs, t, w);
    assert JournalAt(fates, i)[i := UNTOUCHED.(sent := 1, acked := true)][i := Ended(Take)]
        == JournalAt(fates, i + 1);
    steps, u := ThenRenew(s, steps, u, w);
  }

  lemma {:induction false} Loops(s: State, w: WorkerId, r: RunId, fates: seq<Fate>, i: nat)
    returns (steps: seq<Step>, t: State)
    requires Free(s, w) && r in s.runs && s.runs[r].status == Planned && s.runs[r].consumer == None
    requires s.runs[r].plan == |fates| && s.runs[r].base == |s.baselines| && i <= |fates|
    ensures Leads(s, steps, t) && InLoop(s, w, r, fates, i, t)
  {
    if i == 0 {
      steps, t := EntersLoop(s, w, r, fates);
    } else {
      steps, t := Loops(s, w, r, fates, i - 1);
      if fates[i - 1] == Skip {
        steps, t := Skips(s, steps, w, r, fates, i - 1, t);
      } else {
        steps, t := Sends(s, steps, w, r, fates, i - 1, t);
        if fates[i - 1] == Take {
          steps, t := IsAcknowledged(s, steps, w, r, fates, i - 1, t);
          steps, t := IsCompleted(s, steps, w, r, fates, i - 1, t);
        } else {
          steps, t := IsRefused(s, steps, w, r, fates, i - 1, t);
        }
      }
    }
  }

  /** A planned run can be applied to its end, whichever actions are skipped, taken and refused: it is applied, its
      journal tells what became of each action, and a baseline is saved. */
  lemma ApplyCompletes(s: State, w: WorkerId, r: RunId, fates: seq<Fate>) returns (steps: seq<Step>, u: State)
    requires Free(s, w) && r in s.runs && s.runs[r].status == Planned && s.runs[r].consumer == None
    requires s.runs[r].plan == |fates| && s.runs[r].base == |s.baselines|
    ensures Leads(s, steps, u) && FreeAgain(s, u) && u.baselines == s.baselines + [s.now]
    ensures u.runs.Keys == s.runs.Keys && forall q :: q in s.runs && q != r ==> u.runs[q] == s.runs[q]
    ensures var row := u.runs[r];
            && row == s.runs[r].(status := Applied, consumer := Some(w), journal := row.journal, cursor := |fates|,
                                 baselined := true)
            && row.journal.Some? && |row.journal.value| == |fates|
            && forall i :: 0 <= i < |fates| ==> row.journal.value[i] == Filed(fates[i])
  {
    steps, u := Loops(s, w, r, fates, |fates|);
    steps, u := ThenFinish(s, steps, u, w);
    steps, u := LetsGo(s, steps, w, u);
  }

  // ---- An apply that raised ----------------------------------------------------------------------------

  /** The run has failed, and so has the first of its journal rows that was still planned, if there was one. */
  ghost predicate FailedAs(before: SyncRun, after: SyncRun) {
    && after == before.(status := Failed, journal := after.journal)
    && (before.journal.None? ==> after.journal.None?)
    && (before.journal.Some? ==>
          && after.journal.Some? && |after.journal.value| == |before.journal.value|
          && forall k :: 0 <= k < |before.journal.value| ==>
               after.journal.value[k] == if FirstPending(before.journal.value, k)
                                         then before.journal.value[k].(mark := Faulty) else before.journal.value[k])
  }

  predicate FirstPending(j: seq<Entry>, k: nat) {
    k < |j| && j[k].mark == Pending && forall m :: 0 <= m < k ==> j[m].mark != Pending
  }

  lemma {:induction false} FirstPicked(j: seq<Entry>, from: nat, k: nat)
    requires from <= |j| && forall m :: 0 <= m < from ==> j[m].mark != Pending
    ensures FirstPlanned(j, from, false) == Some(k) <==> FirstPending(j, k)
    decreases |j| - from
  {
    if from < |j| && j[from].mark != Pending {
      FirstPicked(j, from + 1, k);
    }
  }

  lemma FailureIs(row: SyncRun)
    ensures FailedAs(row, WithFailure(row, Picked(row, false)))
  {
    if row.journal.Some? {
      forall k: nat ensures Picked(row, false) == Some(k) <==> FirstPending(row.journal.value, k) {
        FirstPicked(row.journal.value, 0, k);
      }
    }
  }

  /** An apply can be ended by an exception at any stage: its run and the first action still planned have failed,
      and the worker's lease is given back if it still has it. */
  lemma ApplyFails(s: State, w: WorkerId, r: RunId) returns (steps: seq<Step>, u: State)
    requires s.At(w).pc.Executing? && s.At(w).pc.run == r && r in s.runs
    ensures Leads(s, steps, u) && u.now == s.now && u.baselines == s.baselines && u.next == s.next
    ensures u.lease == if s.lease.token == Some(s.At(w).pc.token) then Leases.Lease(None, None) else s.lease
    ensures u.At(w) == s.At(w).(pc := Idle) && forall v :: v != w ==> u.At(v) == s.At(v)
    ensures u.runs.Keys == s.runs.Keys && FailedAs(s.runs[r], u.runs[r])
    ensures forall q :: q in s.runs && q != r ==> u.runs[q] == s.runs[q]
  {
    steps, u := Inspects(s, w, r);
    steps, u := ThenMarkFailed(s, steps, u, w);
    steps, u := ThenRelease(s, steps, u, w);
    FailureIs(s.runs[r]);
  }

  lemma Inspects(s: State, w: WorkerId, r: RunId) returns (steps: seq<Step>, u: State)
    requires s.At(w).pc.Executing? && s.At(w).pc.run == r && r in s.runs
    ensures Leads(s, steps, u)
    ensures u == Moved(s, w, Marking(s.At(w).pc.token, r, Picked(s.runs[r], false)))
  {
    Nothing(s);
    steps, u := ThenFail(s, [], s, w);
    steps, u := ThenNotice(s, steps, u, w);
    steps, u := ThenInspect(s, steps, u, w);
    assert u.workers == Moved(s, w, Marking(s.At(w).pc.token, r, Picked(s.runs[r], false))).workers;
  }

  // ---- Recovery -----------------------------------------------------------------------------------------

  function AllUnfinished(runs: map<RunId, SyncRun>): set<RunId> {
    set r | r in runs && Unfinished(runs[r])
  }

  function Verdicts(runs: map<RunId, SyncRun>, decided: set<RunId>): map<RunId, Status> {
    map r | r in runs && r in decided :: Verdict(runs[r])
  }

  ghost predicate Deciding(s: State, w: WorkerId, todo: set<RunId>, t: State) {
    && todo <= AllUnfinished(s.runs) && t.runs == s.runs && t.baselines == s.baselines
    && Holding(s, w, t, Recovering(Leases.Token(s.next), todo, Verdicts(s.runs, AllUnfinished(s.runs) - todo)))
  }

  ghost predicate Concluding(s: State, w: WorkerId, left: set<RunId>, t: State) {
    && left <= AllUnfinished(s.runs) && t.baselines == s.baselines
    && t.runs == Recovered(s.runs, AllUnfinished(s.runs) - left)
    && Holding(s, w, t, Recovering(Leases.Token(s.next), {}, Verdicts(s.runs, left)))
  }

  lemma BeginsRecovery(s: State, w: WorkerId) returns (steps: seq<Step>, t: State)
    requires Free(s, w)
    ensures Leads(s, steps, t) && Deciding(s, w, AllUnfinished(s.runs), t)
  {
    Nothing(s);
    steps, t := ThenListRuns(s, [], s, w);
    steps, t := ThenRecover(s, steps, t, w);
    assert Verdicts(s.runs, AllUnfinished(s.runs) - AllUnfinished(s.runs)) == map[];
  }

  lemma {:induction false} Decides(s: State, xs: seq<Step>, w: WorkerId, todo: set<RunId>, t: State)
    returns (steps: seq<Step>, u: State)
    requires Leads(s, xs, t) && Deciding(s, w, todo, t)
    ensures Leads(s, steps, u) && Deciding(s, w, {}, u)
    decreases |todo|
  {
    if todo == {} {
      steps, u := xs, t;
    } else {
      var r :| r in todo;
      steps, u := ThenDecide(s, xs, t, w, r);
      assert Verdicts(s.runs, AllUnfinished(s.runs) - todo)[r := Verdict(s.runs[r])]
          == Verdicts(s.runs, AllUnfinished(s.runs) - (todo - {r}));
      steps, u := Decides(s, steps, w, todo - {r}, u);
    }
  }

  lemma {:induction false} Concludes(s: State, xs: seq<Step>, w: WorkerId, left: set<RunId>, t: State)
    returns (steps: seq<Step>, u: State)
    requires Leads(s, xs, t) && Concluding(s, w, left, t)
    ensures Leads(s, steps, u) && Concluding(s, w, {}, u)
    decreases |left|
  {
    if left == {} {
      steps, u := xs, t;
    } else {
      var r :| r in left;
      steps, u := ConcludesOne(s, xs, w, left, t, r);
      steps, u := Concludes(s, steps, w, left - {r}, u);
    }
  }

  lemma ConcludesOne(s: State, xs: seq<Step>, w: WorkerId, left: set<RunId>, t: State, r: RunId)
    returns (steps: seq<Step>, u: State)
    requires Leads(s, xs, t) && Concluding(s, w, left, t) && r in left
    ensures Leads(s, steps, u) && Concluding(s, w, left - {r}, u)
  {
    steps, u := ThenConclude(s, xs, t, w, r);
    assert Verdicts(s.runs, left) - {r} == Verdicts(s.runs, left - {r});
    OneMoreRecovered(s.runs, AllUnfinished(s.runs), left, r);
  }

  lemma OneMoreRecovered(runs: map<RunId, SyncRun>, all: set<RunId>, left: set<RunId>, r: RunId)
    requires all == AllUnfinished(runs) && left <= all && r in left
    ensures var v := Verdict(runs[r]);
            var row := runs[r].(status := v, interrupted := runs[r].interrupted || v.Interrupted?);
            Recovered(runs, all - left)[r := row] == Recovered(runs, all - (left - {r}))
  {
  }

  /** A recovery can be carried through when the pair is free, and leaves the rows that the sequential program leaves:
      applies with journal rows have failed, all other unfinished runs are interrupted, the rest is as before. */
  lemma RecoverySettles(s: State, w: WorkerId) returns (steps: seq<Step>, u: State)
    requires Free(s, w)
    ensures Leads(s, steps, u) && FreeAgain(s, u) && u.baselines == s.baselines
    ensures u.runs == Recovered(s.runs, AllUnfinished(s.runs)) && u.runs.Keys == s.runs.Keys
    ensures forall r :: r in s.runs ==> RecoveredAs(s.runs[r], u.runs[r])
  {
    steps, u := BeginsRecovery(s, w);
    steps, u := Decides(s, steps, w, AllUnfinished(s.runs), u);
    assert Recovered(s.runs, AllUnfinished(s.runs) - AllUnfinished(s.runs)) == s.runs;
    assert AllUnfinished(s.runs) - {} == AllUnfinished(s.runs);
    steps, u := Concludes(s, steps, w, AllUnfinished(s.runs), u);
    steps, u := ThenEndRecovery(s, steps, u, w);
    steps, u := LetsGo(s, steps, w, u);
    forall r | r in s.runs ensures RecoveredAs(s.runs[r], u.runs[r]) {
      SettledAs(s.runs[r]);
    }
  }
}
