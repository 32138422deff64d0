/** Review and apply for one pair: workers, their shared rows, a clock, and crashes at any point.

    Every step is one committed statement (or a purely local step between two of them). A worker keeps
    running after its lease expired; only the steps that the program guards look at the lease. */
module ApplyProtocol {
  import opened Prelude
  import opened Leases

  datatype RunId = RunId(id: nat)

  datatype WorkerId = WorkerId(id: nat)

  datatype Status = Preparing | Planned | Applying | Applied | Failed | ReviewFailed | Interrupted | Stale

  datatype Mark = Pending | Completed | Skipped | Faulty

  /** One journal row. The mark is its status column; the rest is history: how often the action was
      sent, whether a provider acknowledged it, whether the executor listed it as skipped, and whether the
      consumer committed its completion. */
  datatype Entry = Entry(mark: Mark, sent: nat, acked: bool, listed: bool, done: bool)

  const UNTOUCHED := Entry(Pending, 0, false, false, false)

  /** One sync_runs row with its journal. author, drafted, consumer, cursor,
      baselined and interrupted are history. */
  datatype SyncRun = SyncRun(status: Status, plan: nat, base: nat, startedAt: int, consumer: Option<WorkerId>,
                             journal: Option<seq<Entry>>, author: WorkerId, drafted: bool, cursor: nat, baselined: bool,
                             interrupted: bool)

  datatype Stage =
    | Journaling
    | Writing(next: nat)
    | Armed(next: nat)
    | InFlight(next: nat)
    | Acked(next: nat)
    | Recorded(next: nat)
    | Closing(next: nat)

  /** Where a worker is, with the token it was given and the run it works on. Closing is the stage after the
      skipped marks were committed ahead of the baseline. The last three steps of an
      apply that raised are Handling, where the consumer still remembers that the run is applying; Noticed,
      where the worker takes the run to be applying, as its own if it consumed it; and Marking, where it has
      picked the journal entry to call failed. */
  datatype Pc =
    | Idle
    | Reviewing(token: Token)
    | Drafting(token: Token, run: RunId, seen: nat)
    | Checking(token: Token, run: RunId)
    | Consuming(token: Token, run: RunId)
    | Rejecting(token: Token, run: RunId)
    | Executing(token: Token, run: RunId, stage: Stage)
    | Handling(token: Token, run: RunId)
    | Noticed(token: Token, run: RunId, own: bool)
    | Marking(token: Token, run: RunId, entry: Option<nat>)
    | Accepting(token: Token)
    | Listed(todo: set<RunId>)
    | Recovering(token: Token, todo: set<RunId>, verdicts: map<RunId, Status>)
    | Releasing(token: Token)
  {
    predicate Holds() {
      !Idle? && !Listed?
    }
  }

  /** auto: inside an automatic evaluation that passed its check for uncertain runs. */
  datatype Worker = Worker(auto: bool, pc: Pc)

  datatype State = State(now: int, lease: Lease, next: nat, runs: map<RunId, SyncRun>, workers: map<WorkerId, Worker>,
                         baselines: seq<int>)
  {
    function At(w: WorkerId): Worker {
      if w in workers then workers[w] else Worker(false, Idle)
    }
  }

  datatype Purpose = ToReview | ToApply(run: RunId) | ToAccept | ToRecover

  /** Crash drops everything a worker remembers and keeps what is committed; it also ends an automatic
      evaluation, and a recovery that found nothing to do or could not get the lease. Clear is the check
      by which an automatic evaluation starts. DropDraft goes by what the author read before, and may write
      over what recovery has written since. CommitSkips is a token renewal while the playlists are read again
      after the writes: it commits the skipped marks, which are already flushed, before the baseline. */
  datatype Step =
    | Tick(elapsed: nat)
    | Crash(w: WorkerId)
    | Clear(w: WorkerId)
    | Acquire(w: WorkerId, purpose: Purpose, reading: int)
    | Release(w: WorkerId)
    | GiveUp(w: WorkerId)
    | StartRun(w: WorkerId, fresh_: RunId)
    | Plan(w: WorkerId, actions: nat, base: nat, reading: int)
    | DropDraft(w: WorkerId)
    | Confirm(w: WorkerId)
    | BeginReject(w: WorkerId)
    | Reject(w: WorkerId)
    | Consume(w: WorkerId)
    | Journal(w: WorkerId)
    | SkipOne(w: WorkerId)
    | Renew(w: WorkerId, reading: int, stamp: int)
    | Send(w: WorkerId)
    | Acknowledge(w: WorkerId)
    | Refuse(w: WorkerId)
    | Complete(w: WorkerId)
    | CommitSkips(w: WorkerId)
    | Finish(w: WorkerId)
    | Fail(w: WorkerId)
    | Notice(w: WorkerId)
    | Inspect(w: WorkerId, memory: bool)
    | MarkFailed(w: WorkerId)
    | Accept(w: WorkerId)
    | Invalidate(w: WorkerId, run: RunId)
    | ListRuns(w: WorkerId)
    | Decide(w: WorkerId, run: RunId)
    | Conclude(w: WorkerId, run: RunId)
    | EndRecovery(w: WorkerId)

  datatype Touch = Touch(run: RunId, row: SyncRun)

  /** What one worker step changes: the lease row, one run row, one baseline row, the worker itself. */
  datatype Effect = Effect(lease: Lease, granted: bool, worker: Worker, touched: Option<Touch>, saved: bool)

  function Apply(s: State, w: WorkerId, e: Effect): State {
    State(s.now, e.lease, if e.granted then s.next + 1 else s.next,
          if e.touched.Some? then s.runs[e.touched.value.run := e.touched.value.row] else s.runs,
          s.workers[w := e.worker], if e.saved then s.baselines + [s.now] else s.baselines)
  }

  // ---- The rows -----------------------------------------------------------------------------

  predicate Unfinished(row: SyncRun) {
    row.status.Preparing? || row.status.Applying?
  }

  predicate Uncertain(row: SyncRun) {
    row.status.Failed? || row.status.Applying?
  }

  /** A journal row of the run exists. */
  predicate Journalled(row: SyncRun) {
    row.journal.Some? && row.journal.value != []
  }

  /** The recovery rule: with a journal there may have been writes. */
  function Verdict(row: SyncRun): Status {
    if row.status.Applying? && Journalled(row) then Failed else Interrupted
  }

  /** An automatic evaluation may start: a baseline exists and no uncertain run is at least as new. */
  ghost predicate MayStart(s: State) {
    && s.baselines != []
    && forall r :: r in s.runs && Uncertain(s.runs[r]) ==> s.runs[r].startedAt < s.baselines[|s.baselines| - 1]
  }

  function Set(row: SyncRun, i: nat, e: Entry): SyncRun
    requires row.journal.Some? && i < |row.journal.value|
  {
    row.(journal := Some(row.journal.value[i := e]))
  }

  function EntryAt(row: SyncRun, i: nat): Entry
    requires row.journal.Some? && i < |row.journal.value|
  {
    row.journal.value[i]
  }

  /** List the entry as skipped and move on. */
  function Passed(row: SyncRun, i: nat): SyncRun
    requires row.journal.Some? && i < |row.journal.value|
  {
    Set(row, i, EntryAt(row, i).(listed := true)).(cursor := i + 1)
  }

  function SentOnce(row: SyncRun, i: nat): SyncRun
    requires row.journal.Some? && i < |row.journal.value|
  {
    Set(row, i, EntryAt(row, i).(sent := EntryAt(row, i).sent + 1))
  }

  function Confirmed(row: SyncRun, i: nat): SyncRun
    requires row.journal.Some? && i < |row.journal.value|
  {
    Set(row, i, EntryAt(row, i).(acked := true))
  }

  function Done(row: SyncRun, i: nat): SyncRun
    requires row.journal.Some? && i < |row.journal.value|
  {
    Set(row, i, EntryAt(row, i).(mark := Completed, done := true)).(cursor := i + 1)
  }

  function FinalMark(e: Entry): Entry {
    if e.listed then e.(mark := Skipped) else e
  }

  function FinalMarks(j: seq<Entry>): seq<Entry> {
    seq(|j|, i requires 0 <= i < |j| => FinalMark(j[i]))
  }

  /** The run is applied and its baseline saved; the skipped marks are written unless they already were. */
  function Baselined(row: SyncRun, committed: bool): SyncRun
    requires row.journal.Some?
  {
    row.(status := Applied, journal := if committed then row.journal else Some(FinalMarks(row.journal.value)),
         baselined := true)
  }

  /** A journal row that the failure handler takes to be still planned: by its status, or by what the
      consumer remembers of its own completions. */
  predicate Planlike(e: Entry, memory: bool) {
    if memory then !e.done else e.mark.Pending?
  }

  /** The first such row, if there is one. */
  function FirstPlanned(j: seq<Entry>, from: nat, memory: bool): (i: Option<nat>)
    requires from <= |j|
    ensures i.Some? ==> from <= i.value < |j| && Planlike(j[i.value], memory)
    ensures i.None? ==> forall k :: from <= k < |j| ==> !Planlike(j[k], memory)
    decreases |j| - from
  {
    if from == |j| then None
    else if Planlike(j[from], memory) then Some(from)
    else FirstPlanned(j, from + 1, memory)
  }

  function Picked(row: SyncRun, memory: bool): Option<nat> {
    if row.journal.None? then None else FirstPlanned(row.journal.value, 0, memory)
  }

  /** What the failure handler writes: the entry it picked becomes failed, and the run too. */
  function WithFailure(row: SyncRun, entry: Option<nat>): SyncRun {
    if entry.None? || row.journal.None? || entry.value >= |row.journal.value| then row.(status := Failed)
    else Set(row, entry.value, EntryAt(row, entry.value).(mark := Faulty)).(status := Failed)
  }

  // ---- When a step may happen -----------------------------------------------------------------

  predicate InStage(s: State, pc: Pc, inJournal: bool) {
    && pc.Executing? && pc.run in s.runs && s.runs[pc.run].journal.Some? && !pc.stage.Journaling?
    && (inJournal ==> pc.stage.next < |s.runs[pc.run].journal.value|)
  }

  /** The write loop is over, and the baseline is not saved yet. */
  predicate AllWritten(s: State, pc: Pc) {
    && InStage(s, pc, false) && (pc.stage.Writing? || pc.stage.Closing?)
    && pc.stage.next == |s.runs[pc.run].journal.value|
  }

  predicate PurposeFits(s: State, pc: Pc, purpose: Purpose) {
    if purpose.ToRecover? then pc.Listed? else pc.Idle? && (purpose.ToApply? ==> purpose.run in s.runs)
  }

  /** Raising without leaving a trace in the run's rows. */
  predicate MayGiveUp(pc: Pc) {
    || pc.Reviewing? || pc.Drafting? || pc.Checking? || pc.Consuming? || pc.Accepting?
    || pc.Handling? || pc.Noticed? || pc.Marking?
  }

  /** The handler of an apply that raised goes on if the run is applying. The consumer may go by its memory;
      any other worker on the run looks at the row, whoever consumed it. */
  predicate SeesApplying(s: State, pc: Pc) {
    pc.Handling? || ((pc.Checking? || pc.Consuming?) && pc.run in s.runs && s.runs[pc.run].status.Applying?)
  }

  ghost predicate Enabled(s: State, step: Step) {
    match step
    case Tick(_) => true
    case Crash(_) => true
    case Clear(w) => s.At(w).pc.Idle? && MayStart(s)
    case Acquire(w, purpose, reading) =>
      reading <= s.now && Available(s.lease, reading) && PurposeFits(s, s.At(w).pc, purpose)
    case Release(w) => s.At(w).pc.Releasing?
    case GiveUp(w) => MayGiveUp(s.At(w).pc)
    case StartRun(w, r) => s.At(w).pc.Reviewing? && r !in s.runs
    case Plan(w, _, base, reading) =>
      var pc := s.At(w).pc;
      && pc.Drafting? && pc.run in s.runs && pc.seen <= base <= |s.baselines|
      && reading <= s.now && Owned(s.lease, pc.token, reading)
    case DropDraft(w) => s.At(w).pc.Drafting? && s.At(w).pc.run in s.runs
    case Confirm(w) =>
      var pc := s.At(w).pc;
      pc.Checking? && pc.run in s.runs && s.runs[pc.run].status.Planned? && s.runs[pc.run].base == |s.baselines|
    case BeginReject(w) =>
      var pc := s.At(w).pc; (pc.Checking? || pc.Consuming?) && pc.run in s.runs && s.runs[pc.run].status.Planned?
    case Reject(w) => s.At(w).pc.Rejecting? && s.At(w).pc.run in s.runs
    case Consume(w) =>
      var pc := s.At(w).pc;
      pc.Consuming? && pc.run in s.runs && s.runs[pc.run].status.Planned? && s.runs[pc.run].consumer.None?
    case Journal(w) =>
      var pc := s.At(w).pc;
      pc.Executing? && pc.stage.Journaling? && pc.run in s.runs
    case SkipOne(w) => InStage(s, s.At(w).pc, true) && s.At(w).pc.stage.Writing?
    case Renew(w, reading, stamp) =>
      var pc := s.At(w).pc;
      && InStage(s, pc, false) && reading <= s.now && stamp <= s.now
      && ((pc.stage.Writing? && InStage(s, pc, true)) || pc.stage.Recorded?)
    case Send(w) => InStage(s, s.At(w).pc, true) && s.At(w).pc.stage.Armed?
    case Acknowledge(w) => InStage(s, s.At(w).pc, true) && s.At(w).pc.stage.InFlight?
    case Refuse(w) => InStage(s, s.At(w).pc, true) && s.At(w).pc.stage.InFlight?
    case Complete(w) => InStage(s, s.At(w).pc, true) && s.At(w).pc.stage.Acked?
    case CommitSkips(w) => AllWritten(s, s.At(w).pc) && s.At(w).pc.stage.Writing?
    case Finish(w) => AllWritten(s, s.At(w).pc)
    case Fail(w) => s.At(w).pc.Executing?
    case Notice(w) => SeesApplying(s, s.At(w).pc)
    case Inspect(w, memory) =>
      var pc := s.At(w).pc; pc.Noticed? && pc.run in s.runs && (memory ==> pc.own)
    case MarkFailed(w) => s.At(w).pc.Marking? && s.At(w).pc.run in s.runs
    case Accept(w) => s.At(w).pc.Accepting?
    case Invalidate(_, r) => r in s.runs && s.runs[r].status.Planned?
    case ListRuns(w) => s.At(w).pc.Idle?
    case Decide(w, r) => s.At(w).pc.Recovering? && r in s.At(w).pc.todo && r in s.runs
    case Conclude(w, r) =>
      var pc := s.At(w).pc; pc.Recovering? && pc.todo == {} && r in pc.verdicts && r in s.runs
    case EndRecovery(w) => s.At(w).pc.Recovering?
  }

  // ---- What a step does --------------------------------------------------------------------------

  /** Only the worker moves on. */
  function Move(s: State, w: WorkerId, pc: Pc): Effect {
    Effect(s.lease, false, s.At(w).(pc := pc), None, false)
  }

  function Write(s: State, w: WorkerId, pc: Pc, r: RunId, row: SyncRun): Effect {
    Effect(s.lease, false, s.At(w).(pc := pc), Some(Touch(r, row)), false)
  }

  function AfterAcquire(pc: Pc, purpose: Purpose, token: Token): Pc {
    match purpose
    case ToReview => Reviewing(token)
    case ToApply(r) => Checking(token, r)
    case ToAccept => Accepting(token)
    case ToRecover => Recovering(token, if pc.Listed? then pc.todo else {}, map[])
  }

  /** The turns of the write loop and its end. */
  ghost function ExecutingEffect(s: State, step: Step): Effect
    requires Enabled(s, step)
    requires || step.SkipOne? || step.Renew? || step.Send? || step.Acknowledge?
             || step.Refuse? || step.Complete? || step.CommitSkips? || step.Finish?
  {
    var w, pc := step.w, s.At(step.w).pc;
    var row, i := s.runs[pc.run], pc.stage.next;
    match step
    case SkipOne(_) => Write(s, w, pc.(stage := Writing(i + 1)), pc.run, Passed(row, i))
    case Renew(_, reading, stamp) =>
      if Owned(s.lease, pc.token, reading) then
        Effect(s.lease.(expires := Some(stamp + PAIR_LEASE_DURATION)), false,
               s.At(w).(pc := pc.(stage := if pc.stage.Writing? then Armed(i) else Writing(i))), None, false)
      else Move(s, w, Handling(pc.token, pc.run))
    case Send(_) => Write(s, w, pc.(stage := InFlight(i)), pc.run, SentOnce(row, i))
    case Acknowledge(_) => Write(s, w, pc.(stage := Acked(i)), pc.run, Confirmed(row, i))
    case Refuse(_) => Write(s, w, pc.(stage := Writing(i + 1)), pc.run, Passed(row, i))
    case Complete(_) => Write(s, w, pc.(stage := Recorded(i + 1)), pc.run, Done(row, i))
    case CommitSkips(_) =>
      Write(s, w, pc.(stage := Closing(i)), pc.run, row.(journal := Some(FinalMarks(row.journal.value))))
    case Finish(_) =>
      Write(s, w, Releasing(pc.token), pc.run, Baselined(row, pc.stage.Closing?)).(saved := true)
  }

  /** Recovery of runs whose worker disappeared. */
  ghost function RecoveryEffect(s: State, step: Step): Effect
    requires Enabled(s, step) && (step.Decide? || step.Conclude?)
  {
    var w, pc := step.w, s.At(step.w).pc;
    var row := s.runs[step.run];
    match step
    case Decide(_, r) =>
      Move(s, w, Recovering(pc.token, pc.todo - {r},
                            if Unfinished(row) then pc.verdicts[r := Verdict(row)] else pc.verdicts))
    case Conclude(_, r) =>
      Write(s, w, Recovering(pc.token, pc.todo, pc.verdicts - {r}), r,
            row.(status := pc.verdicts[r], interrupted := row.interrupted || pc.verdicts[r].Interrupted?))
  }

  ghost function EffectOf(s: State, step: Step): Effect
    requires Enabled(s, step) && !step.Tick?
  {
    var w, pc := step.w, s.At(step.w).pc;
    match step
    case Crash(_) => Effect(s.lease, false, Worker(false, Idle), None, false)
    case Clear(_) => Effect(s.lease, false, Worker(true, Idle), None, false)
    case Acquire(_, purpose, reading) =>
      Effect(Lease(Some(Token(s.next)), Some(reading + PAIR_LEASE_DURATION)), true,
             s.At(w).(pc := AfterAcquire(pc, purpose, Token(s.next))), None, false)
    case Release(_) => Effect(Released(s.lease, pc.token), false, s.At(w).(pc := Idle), None, false)
    case GiveUp(_) => Move(s, w, Releasing(pc.token))
    case StartRun(_, r) =>
      Write(s, w, Drafting(pc.token, r, |s.baselines|), r,
            SyncRun(Preparing, 0, 0, s.now, None, None, w, false, 0, false, false))
    case Plan(_, n, base, _) =>
      Write(s, w, Releasing(pc.token), pc.run,
            s.runs[pc.run].(status := Planned, plan := n, base := base, drafted := true))
    case DropDraft(_) =>
      Write(s, w, Releasing(pc.token), pc.run, s.runs[pc.run].(status := ReviewFailed))
    case Confirm(_) => Move(s, w, Consuming(pc.token, pc.run))
    case BeginReject(_) => Move(s, w, Rejecting(pc.token, pc.run))
    case Reject(_) => Write(s, w, Releasing(pc.token), pc.run, s.runs[pc.run].(status := ReviewFailed))
    case Consume(_) =>
      Write(s, w, Executing(pc.token, pc.run, Journaling), pc.run,
            s.runs[pc.run].(status := Applying, consumer := Some(w)))
    case Journal(_) =>
      Write(s, w, pc.(stage := Writing(0)), pc.run,
            s.runs[pc.run].(journal := Some(seq(s.runs[pc.run].plan, _ => UNTOUCHED)), cursor := 0))
    case Fail(_) => Move(s, w, Handling(pc.token, pc.run))
    case Notice(_) => Move(s, w, Noticed(pc.token, pc.run, pc.Handling?))
    case Inspect(_, memory) => Move(s, w, Marking(pc.token, pc.run, Picked(s.runs[pc.run], memory)))
    case MarkFailed(_) => Write(s, w, Releasing(pc.token), pc.run, WithFailure(s.runs[pc.run], pc.entry))
    case Accept(_) => Move(s, w, Releasing(pc.token)).(saved := true)
    case Invalidate(_, r) => Write(s, w, pc, r, s.runs[r].(status := Stale))
    case ListRuns(_) => Move(s, w, Listed(set r | r in s.runs && Unfinished(s.runs[r])))
    case EndRecovery(_) => Move(s, w, Releasing(pc.token))
    case Decide(_, _) => RecoveryEffect(s, step)
    case Conclude(_, _) => RecoveryEffect(s, step)
    case SkipOne(_) => ExecutingEffect(s, step)
    case Renew(_, _, _) => ExecutingEffect(s, step)
    case Send(_) => ExecutingEffect(s, step)
    case Acknowledge(_) => ExecutingEffect(s, step)
    case Refuse(_) => ExecutingEffect(s, step)
    case Complete(_) => ExecutingEffect(s, step)
    case CommitSkips(_) => ExecutingEffect(s, step)
    case Finish(_) => ExecutingEffect(s, step)
  }

  ghost function After(s: State, step: Step): State
    requires Enabled(s, step)
  {
    if step.Tick? then s.(now := s.now + step.elapsed) else Apply(s, step.w, EffectOf(s, step))
  }

  function Start(now: int): State {
    State(now, UNLOCKED, 0, map[], map[], [])
  }

  /** A run from a state: each step may happen when it does. */
  ghost predicate Run(s: State, steps: seq<Step>)
    decreases |steps|, 0
  {
    steps == [] || (Run(s, steps[..|steps| - 1]) && Enabled(Final(s, steps[..|steps| - 1]), steps[|steps| - 1]))
  }

  ghost function Final(s: State, steps: seq<Step>): State
    requires Run(s, steps)
    decreases |steps|, 1
  {
    if steps == [] then s else After(Final(s, steps[..|steps| - 1]), steps[|steps| - 1])
  }
}
