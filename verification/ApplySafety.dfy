/** What every run of the protocol keeps, whatever the workers, the clock and the crashes do. */
module ApplySafety {
  import opened Prelude
  import Leases
  import opened ApplyProtocol

  // ---- Journals ---------------------------------------------------------------------------

  /** An entry the executor is done with: completed and acknowledged, or listed as skipped. */
  predicate Closed(e: Entry) {
    e.sent <= 1 && (e.done <==> e.acked) && (e.done <==> !e.listed) && (e.done ==> e.sent == 1)
  }

  predicate Untouched(e: Entry) {
    e.sent == 0 && !e.acked && !e.listed && !e.done
  }

  predicate Open(e: Entry) {
    e.sent <= 1 && (e.acked ==> e.sent == 1) && !e.listed && !e.done
  }

  /** Entries before the cursor are closed, those after it untouched. */
  predicate Sane(j: seq<Entry>, cursor: nat) {
    && cursor <= |j|
    && (forall k :: 0 <= k < cursor ==> Closed(j[k]))
    && (forall k :: cursor < k < |j| ==> Untouched(j[k]))
    && (cursor < |j| ==> Open(j[cursor]))
  }

  /** What a status column says is true, though a failure mark may have replaced it. */
  predicate Truthful(e: Entry) {
    (e.mark.Completed? ==> e.done) && (e.mark.Skipped? ==> e.listed) && (e.mark.Pending? ==> !e.done)
  }

  predicate AllTruthful(j: seq<Entry>) {
    forall k :: 0 <= k < |j| ==> Truthful(j[k])
  }

  /** The executor completed or listed every ordinal, and no status column says planned any more. */
  predicate Accounted(j: seq<Entry>) {
    forall k :: 0 <= k < |j| ==> Closed(j[k]) && !j[k].mark.Pending?
  }

  predicate NonePending(j: seq<Entry>) {
    forall k :: 0 <= k < |j| ==> !j[k].mark.Pending?
  }

  predicate RowOk(row: SyncRun) {
    && (if row.consumer.None? then row.journal.None? else row.drafted)
    && (row.status.Preparing? ==> row.consumer.None?)
    && (row.status.Applying? || row.status.Failed? ==> row.consumer.Some?)
    && (row.status.Planned? ==> row.drafted && row.consumer.None?)
    && (row.status.Interrupted? ==> row.interrupted)
    && (row.journal.Some? ==>
          && |row.journal.value| == row.plan && Sane(row.journal.value, row.cursor)
          && AllTruthful(row.journal.value))
    && (row.baselined ==> row.journal.Some? && Accounted(row.journal.value) && !row.status.Applying?)
  }

  // ---- Workers ------------------------------------------------------------------------------

  predicate StageOk(stage: Stage, row: SyncRun) {
    match stage
    case Journaling => row.journal.None?
    case Writing(i) => AtCursor(row, i) && (i < row.plan ==> Untouched(EntryAt(row, i)))
    case Armed(i) => AtCursor(row, i) && i < row.plan && Untouched(EntryAt(row, i))
    case InFlight(i) => AtCursor(row, i) && i < row.plan && EntryAt(row, i).sent == 1 && !EntryAt(row, i).acked
    case Acked(i) => AtCursor(row, i) && i < row.plan && EntryAt(row, i).sent == 1 && EntryAt(row, i).acked
    case Recorded(i) => AtCursor(row, i) && (i < row.plan ==> Untouched(EntryAt(row, i)))
    case Closing(i) => AtCursor(row, i) && i == row.plan && NonePending(row.journal.value)
  }

  predicate AtCursor(row: SyncRun, i: nat) {
    row.journal.Some? && |row.journal.value| == row.plan && row.cursor == i <= row.plan
  }

  /** A worker's position agrees with the run it works on: one author drafts it, one consumer executes it. */
  predicate Tied(runs: map<RunId, SyncRun>, w: WorkerId, pc: Pc) {
    match pc
    case Drafting(_, r, _) => r in runs && runs[r].author == w && runs[r].consumer.None? && !runs[r].drafted
    case Executing(_, r, stage) =>
      && r in runs && runs[r].consumer == Some(w) && runs[r].drafted && !runs[r].baselined && StageOk(stage, runs[r])
      && (runs[r].status.Applying? || runs[r].status.Failed? || runs[r].status.Interrupted?
          || runs[r].status.ReviewFailed?)
    case Handling(_, r) => r in runs && Afterwards(runs[r], w) && runs[r].consumer == Some(w)
    case Noticed(_, r, own) => r in runs && Afterwards(runs[r], w) && (own ==> runs[r].consumer == Some(w))
    case Marking(_, r, entry) =>
      r in runs && Afterwards(runs[r], w) && (entry.Some? ==> Markable(runs[r], w, entry.value))
    case Consuming(_, r) => r in runs && runs[r].drafted
    case Listed(todo) => todo <= runs.Keys
    case Recovering(_, todo, verdicts) =>
      todo <= runs.Keys && forall r :: r in verdicts ==>
        r !in todo && r in runs && ((verdicts[r].Failed? && runs[r].consumer.Some?) || verdicts[r].Interrupted?)
    case _ => true
  }

  /** The run was consumed; if by this worker, then no baseline was saved for it. */
  predicate Afterwards(row: SyncRun, w: WorkerId) {
    row.consumer.Some? && row.drafted && (row.consumer == Some(w) ==> !row.baselined)
  }

  /** There is such an entry; the consumer picks none that it has completed. */
  predicate Markable(row: SyncRun, w: WorkerId, i: nat) {
    row.journal.Some? && i < |row.journal.value| && (row.consumer == Some(w) ==> !row.journal.value[i].done)
  }

  predicate TokenKnown(pc: Pc, next: nat) {
    pc.Holds() ==> pc.token.id < next
  }

  predicate SeenOk(pc: Pc, baselines: nat) {
    pc.Drafting? ==> pc.seen <= baselines
  }

  predicate LeaseOk(l: Leases.Lease, next: nat) {
    (l.token.Some? <==> l.expires.Some?) && (l.token.Some? ==> l.token.value.id < next)
  }

  predicate DifferentTokens(a: Pc, b: Pc) {
    a.Holds() && b.Holds() ==> a.token != b.token
  }

  ghost predicate Inv(s: State) {
    && LeaseOk(s.lease, s.next)
    && (forall r :: r in s.runs ==> RowOk(s.runs[r]))
    && (forall w :: Tied(s.runs, w, s.At(w).pc))
    && (forall w :: TokenKnown(s.At(w).pc, s.next))
    && (forall w :: SeenOk(s.At(w).pc, |s.baselines|))
    && (forall r :: r in s.runs ==> s.runs[r].base <= |s.baselines|)
    && (forall v, w :: v != w ==> DifferentTokens(s.At(v).pc, s.At(w).pc))
  }

  // ---- One step --------------------------------------------------------------------------------

  /** Whom a write to a run row may come from: its consumer, anyone changing only the status in one of
      the ways that do not bring a run back or adding a failure mark to the journal, or the author or
      consumer-to-be while nobody executes it. */
  predicate LegalTouch(s: State, w: WorkerId, r: RunId, row: SyncRun) {
    r in s.runs ==>
      var before := s.runs[r];
      && row.author == before.author && row.startedAt == before.startedAt
      && (before.journal.Some? ==> row.journal.Some?)
      && (before.drafted ==> row.drafted && row.base == before.base && row.plan == before.plan)
      && (|| before.consumer == Some(w) == row.consumer
          || StatusOnly(before, row)
          || FailureOnly(before, row)
          || (&& before.consumer.None? && (before.author == w || before.status.Planned?)
              && (row.drafted == before.drafted || before.author == w)))
  }

  predicate StatusOnly(before: SyncRun, row: SyncRun) {
    && row == before.(status := row.status, interrupted := row.interrupted)
    && (row.status.Failed? || row.status.Interrupted? || row.status.ReviewFailed?
        || (row.status.Stale? && before.status.Planned?))
  }

  predicate FailureOnly(before: SyncRun, row: SyncRun) {
    && before.consumer.Some? && before.journal.Some? && row.journal.Some?
    && row == before.(status := Failed, journal := row.journal)
    && MarksOnly(before.journal.value, row.journal.value)
  }

  predicate MarksOnly(before: seq<Entry>, j: seq<Entry>) {
    |j| == |before| && forall k :: 0 <= k < |j| ==> j[k] == before[k] || j[k] == before[k].(mark := Faulty)
  }

  predicate LeaseMoves(s: State, e: Effect) {
    && (e.lease.token.Some? <==> e.lease.expires.Some?)
    && (if e.granted then e.lease.token == Some(Leases.Token(s.next))
        else e.lease.token.None? || e.lease.token == s.lease.token)
  }

  predicate TokenMoves(s: State, w: WorkerId, e: Effect) {
    e.worker.pc.Holds() ==>
      if e.granted then e.worker.pc.token == Leases.Token(s.next)
      else s.At(w).pc.Holds() && e.worker.pc.token == s.At(w).pc.token
  }

  predicate EffectOk(s: State, w: WorkerId, e: Effect) {
    && LeaseMoves(s, e) && TokenMoves(s, w, e)
    && (e.touched.Some? ==>
          && RowOk(e.touched.value.row) && LegalTouch(s, w, e.touched.value.run, e.touched.value.row)
          && e.touched.value.row.base <= |s.baselines|)
    && Tied(Apply(s, w, e).runs, w, e.worker.pc) && SeenOk(e.worker.pc, |s.baselines|)
  }

  /** The other workers' positions agree with the row after a legal write to it. */
  predicate KeepsTied(before: SyncRun, row: SyncRun, v: WorkerId) {
    && (before.consumer.Some? ==> row.consumer == before.consumer)
    && (before.author == v && before.consumer.None? && !before.drafted ==> row.consumer.None? && !row.drafted)
    && (before.drafted ==> row.drafted) && row.author == before.author
  }

  /** What a legal write leaves to the consumer, if it is not the writer. */
  predicate KeepsConsumer(before: SyncRun, row: SyncRun) {
    && row.baselined == before.baselined && row.plan == before.plan && row.cursor == before.cursor
    && (row.journal.Some? <==> before.journal.Some?)
    && (row.journal.Some? ==> MarksOnly(before.journal.value, row.journal.value))
    && (row.status == before.status || row.status.Failed? || row.status.Interrupted? || row.status.ReviewFailed?)
  }

  lemma LegalKeepsTied(s: State, w: WorkerId, r: RunId, row: SyncRun, v: WorkerId)
    requires r in s.runs && RowOk(s.runs[r]) && RowOk(row) && LegalTouch(s, w, r, row) && v != w
    ensures KeepsTied(s.runs[r], row, v)
    ensures s.runs[r].consumer == Some(v) ==> KeepsConsumer(s.runs[r], row)
  {
  }

  lemma StageStays(stage: Stage, before: SyncRun, row: SyncRun)
    requires StageOk(stage, before) && KeepsConsumer(before, row)
    ensures StageOk(stage, row)
  {
  }

  lemma OtherStaysTied(s: State, w: WorkerId, e: Effect, v: WorkerId)
    requires EffectOk(s, w, e) && v != w && Inv(s)
    ensures Tied(Apply(s, w, e).runs, v, Apply(s, w, e).At(v).pc)
  {
    var pc := s.At(v).pc;
    assert Apply(s, w, e).At(v) == s.At(v) && Tied(s.runs, v, pc);
    if e.touched.Some? && e.touched.value.run in s.runs {
      var r, row := e.touched.value.run, e.touched.value.row;
      assert RowOk(s.runs[r]);
      LegalKeepsTied(s, w, r, row, v);
      RowKeepsTied(s.runs, r, row, v, pc);
    }
  }

  lemma RowKeepsTied(runs: map<RunId, SyncRun>, r: RunId, row: SyncRun, v: WorkerId, pc: Pc)
    requires r in runs && Tied(runs, v, pc) && RowOk(runs[r]) && RowOk(row) && KeepsTied(runs[r], row, v)
    requires runs[r].consumer == Some(v) ==> KeepsConsumer(runs[r], row)
    requires runs[r].journal.Some? ==> row.journal.Some? && row.plan == runs[r].plan
    ensures Tied(runs[r := row], v, pc)
  {
    if pc.Executing? && pc.run == r {
      StageStays(pc.stage, runs[r], row);
    }
  }

  lemma EffectKeepsTokens(s: State, w: WorkerId, e: Effect)
    requires Inv(s) && EffectOk(s, w, e)
    ensures var t := Apply(s, w, e);
            && LeaseOk(t.lease, t.next) && (forall v :: TokenKnown(t.At(v).pc, t.next))
            && (forall v :: SeenOk(t.At(v).pc, |t.baselines|))
            && (forall u, v :: u != v ==> DifferentTokens(t.At(u).pc, t.At(v).pc))
  {
    var t := Apply(s, w, e);
    forall v ensures TokenKnown(t.At(v).pc, t.next) {
      assert TokenKnown(s.At(v).pc, s.next);
    }
    forall v ensures SeenOk(t.At(v).pc, |t.baselines|) {
      assert SeenOk(s.At(v).pc, |s.baselines|);
    }
    forall u, v | u != v ensures DifferentTokens(t.At(u).pc, t.At(v).pc) {
      assert DifferentTokens(s.At(u).pc, s.At(v).pc);
      assert TokenKnown(s.At(u).pc, s.next) && TokenKnown(s.At(v).pc, s.next);
    }
  }

  lemma EffectKeepsInv(s: State, w: WorkerId, e: Effect)
    requires Inv(s) && EffectOk(s, w, e)
    ensures Inv(Apply(s, w, e))
  {
    EffectKeepsTokens(s, w, e);
    forall v ensures Tied(Apply(s, w, e).runs, v, Apply(s, w, e).At(v).pc) {
      if v != w {
        OtherStaysTied(s, w, e, v);
      }
    }
  }

  predicate IsExecuting(step: Step) {
    || step.SkipOne? || step.Renew? || step.Send? || step.Acknowledge? || step.Refuse? || step.Complete?
    || step.CommitSkips? || step.Finish?
  }

  lemma PassedOk(row: SyncRun, i: nat)
    requires RowOk(row) && AtCursor(row, i) && i < row.plan && !row.baselined && row.consumer.Some?
    requires Open(EntryAt(row, i)) && !EntryAt(row, i).acked
    ensures RowOk(Passed(row, i)) && StageOk(Writing(i + 1), Passed(row, i))
  {
  }

  lemma SentOk(row: SyncRun, i: nat)
    requires RowOk(row) && StageOk(Armed(i), row) && !row.baselined && row.consumer.Some?
    ensures RowOk(SentOnce(row, i)) && StageOk(InFlight(i), SentOnce(row, i))
  {
  }

  lemma AckOk(row: SyncRun, i: nat)
    requires RowOk(row) && StageOk(InFlight(i), row) && !row.baselined && row.consumer.Some?
    ensures RowOk(Confirmed(row, i)) && StageOk(Acked(i), Confirmed(row, i))
  {
  }

  lemma CompleteOk(row: SyncRun, i: nat)
    requires RowOk(row) && StageOk(Acked(i), row) && !row.baselined && row.consumer.Some?
    ensures RowOk(Done(row, i)) && StageOk(Recorded(i + 1), Done(row, i))
  {
  }

  /** Once every entry is closed, the final marks leave none planned. */
  lemma FinalMarksOk(row: SyncRun)
    requires RowOk(row) && AtCursor(row, row.plan) && row.consumer.Some?
    ensures var after := row.(journal := Some(FinalMarks(row.journal.value)));
            && AllTruthful(after.journal.value) && Accounted(after.journal.value)
            && Sane(after.journal.value, after.cursor)
  {
    var j, k := row.journal.value, FinalMarks(row.journal.value);
    forall i | 0 <= i < |k| ensures Closed(k[i]) && Truthful(k[i]) && !k[i].mark.Pending? {
      assert Closed(j[i]) && Truthful(j[i]) && k[i] == FinalMark(j[i]);
    }
  }

  lemma CommitSkipsOk(row: SyncRun)
    requires RowOk(row) && StageOk(Writing(row.plan), row) && row.consumer.Some? && !row.baselined
    ensures var after := row.(journal := Some(FinalMarks(row.journal.value)));
            RowOk(after) && StageOk(Closing(row.plan), after)
  {
    FinalMarksOk(row);
  }

  lemma FinishOk(row: SyncRun, committed: bool)
    requires RowOk(row) && row.consumer.Some?
    requires StageOk(if committed then Closing(row.plan) else Writing(row.plan), row)
    ensures RowOk(Baselined(row, committed))
  {
    FinalMarksOk(row);
  }

  lemma FailureOk(row: SyncRun, entry: Option<nat>)
    requires RowOk(row) && row.consumer.Some?
    requires entry.Some? ==> row.journal.Some? && entry.value < |row.journal.value|
    ensures var after := WithFailure(row, entry);
            RowOk(after) && (FailureOnly(row, after) || StatusOnly(row, after))
  {
  }

  /** The consumer of a run writes its row and moves to the next stage. */
  lemma MineOk(s: State, w: WorkerId, stage: Stage, row: SyncRun)
    requires Inv(s) && s.At(w).pc.Executing? && s.At(w).pc.run in s.runs
    requires RowOk(row) && row.consumer == Some(w) && !row.baselined
    requires var before := s.runs[s.At(w).pc.run];
             row.author == before.author && row.drafted && row.base == before.base && row.plan == before.plan
             && row.status == before.status && row.startedAt == before.startedAt
             && (before.journal.Some? ==> row.journal.Some?)
    requires StageOk(stage, row)
    ensures EffectOk(s, w, Write(s, w, s.At(w).pc.(stage := stage), s.At(w).pc.run, row))
  {
    assert Tied(s.runs, w, s.At(w).pc);
  }

  lemma TurnOk(s: State, step: Step)
    requires Inv(s) && Enabled(s, step) && (step.Send? || step.Acknowledge?)
    ensures EffectOk(s, step.w, EffectOf(s, step))
  {
    var w, pc := step.w, s.At(step.w).pc;
    assert Tied(s.runs, w, pc);
    var row, i := s.runs[pc.run], pc.stage.next;
    if step.Send? {
      SentOk(row, i);
      MineOk(s, w, InFlight(i), SentOnce(row, i));
    } else {
      AckOk(row, i);
      MineOk(s, w, Acked(i), Confirmed(row, i));
    }
  }

  lemma PassOk(s: State, step: Step)
    requires Inv(s) && Enabled(s, step) && (step.SkipOne? || step.Refuse?)
    ensures EffectOk(s, step.w, EffectOf(s, step))
  {
    var w, pc := step.w, s.At(step.w).pc;
    assert Tied(s.runs, w, pc);
    var row, i := s.runs[pc.run], pc.stage.next;
    PassedOk(row, i);
    MineOk(s, w, Writing(i + 1), Passed(row, i));
  }

  lemma CommitOk(s: State, step: Step)
    requires Inv(s) && Enabled(s, step) && (step.Complete? || step.CommitSkips?)
    ensures EffectOk(s, step.w, EffectOf(s, step))
  {
    var w, pc := step.w, s.At(step.w).pc;
    assert Tied(s.runs, w, pc);
    var row, i := s.runs[pc.run], pc.stage.next;
    if step.Complete? {
      CompleteOk(row, i);
      MineOk(s, w, Recorded(i + 1), Done(row, i));
    } else {
      CommitSkipsOk(row);
      MineOk(s, w, Closing(i), row.(journal := Some(FinalMarks(row.journal.value))));
    }
  }

  lemma RenewOrFinishOk(s: State, step: Step)
    requires Inv(s) && Enabled(s, step) && (step.Renew? || step.Finish?)
    ensures EffectOk(s, step.w, EffectOf(s, step))
  {
    var w, pc := step.w, s.At(step.w).pc;
    assert Tied(s.runs, w, pc);
    if step.Finish? {
      FinishOk(s.runs[pc.run], pc.stage.Closing?);
    }
  }

  lemma ExecutingOk(s: State, step: Step)
    requires Inv(s) && Enabled(s, step) && IsExecuting(step)
    ensures EffectOk(s, step.w, EffectOf(s, step))
  {
    if step.Send? || step.Acknowledge? {
      TurnOk(s, step);
    } else if step.SkipOne? || step.Refuse? {
      PassOk(s, step);
    } else if step.Complete? || step.CommitSkips? {
      CommitOk(s, step);
    } else {
      RenewOrFinishOk(s, step);
    }
  }

  /** A turn of the write loop touches its own run only, and never leads into an apply's first or last steps. */
  lemma TurnShape(s: State, step: Step)
    requires Enabled(s, step) && IsExecuting(step)
    ensures s.At(step.w).pc.Executing?
    ensures var e := EffectOf(s, step);
            && (e.touched.Some? ==> e.touched.value.run == s.At(step.w).pc.run)
            && (e.worker.pc.Executing? || e.worker.pc.Handling? || e.worker.pc.Releasing?)
  {
  }

  /** Steps that write a run row outside the write loop. */
  predicate TouchesRow(step: Step) {
    || step.StartRun? || step.Plan? || step.DropDraft? || step.Reject? || step.Consume? || step.Journal?
    || step.MarkFailed? || step.Invalidate? || step.Conclude?
  }

  /** Those of them that happen before an apply has its journal. */
  predicate Drafts(step: Step) {
    step.StartRun? || step.Plan? || step.DropDraft? || step.Consume?
  }

  /** Those that write a journal. */
  predicate WritesJournal(step: Step) {
    step.Journal? || step.MarkFailed?
  }

  /** Those of the write loop's turns that depend on the lease, or act on the outside. */
  predicate ActsOutside(step: Step) {
    step.Renew? || step.Send? || step.Finish?
  }

  lemma DraftOk(s: State, step: Step)
    requires Inv(s) && Enabled(s, step) && Drafts(step)
    ensures EffectOk(s, step.w, EffectOf(s, step))
  {
    var w, pc := step.w, s.At(step.w).pc;
    assert Tied(s.runs, w, pc);
    if !step.StartRun? {
      assert RowOk(s.runs[pc.run]);
    }
  }

  lemma StartJournalOk(s: State, step: Step)
    requires Inv(s) && Enabled(s, step) && step.Journal?
    ensures EffectOk(s, step.w, EffectOf(s, step))
  {
    var w, pc := step.w, s.At(step.w).pc;
    assert Tied(s.runs, w, pc) && RowOk(s.runs[pc.run]);
    MineOk(s, w, Writing(0), s.runs[pc.run].(journal := Some(seq(s.runs[pc.run].plan, _ => UNTOUCHED)), cursor := 0));
  }

  lemma MarkFailedOk(s: State, step: Step)
    requires Inv(s) && Enabled(s, step) && step.MarkFailed?
    ensures EffectOk(s, step.w, EffectOf(s, step))
  {
    var pc := s.At(step.w).pc;
    assert Tied(s.runs, step.w, pc) && RowOk(s.runs[pc.run]);
    FailureOk(s.runs[pc.run], pc.entry);
  }

  /** Anyone may change the status of a run, but not back to planned. */
  lemma StatusOk(s: State, w: WorkerId, pc: Pc, r: RunId, row: SyncRun)
    requires Inv(s) && r in s.runs
    requires StatusOnly(s.runs[r], row) && (row.status.Interrupted? ==> row.interrupted)
               && (row.status.Failed? ==> row.consumer.Some?)
    requires !pc.Drafting? && !pc.Executing? && !pc.Consuming? && !pc.Handling? && !pc.Noticed? && !pc.Marking?
    requires Tied(s.runs, w, pc)
    requires pc.Holds() ==> s.At(w).pc.Holds() && pc.token == s.At(w).pc.token
    ensures EffectOk(s, w, Write(s, w, pc, r, row))
  {
    assert RowOk(s.runs[r]);
  }

  lemma MarkOk(s: State, step: Step)
    requires Inv(s) && Enabled(s, step) && (step.Reject? || step.Conclude?)
    ensures EffectOk(s, step.w, EffectOf(s, step))
  {
    var w, pc := step.w, s.At(step.w).pc;
    assert Tied(s.runs, w, pc);
    var e := EffectOf(s, step);
    StatusOk(s, w, e.worker.pc, e.touched.value.run, e.touched.value.row);
  }

  lemma InvalidateOk(s: State, step: Step)
    requires Inv(s) && Enabled(s, step) && step.Invalidate?
    ensures EffectOk(s, step.w, EffectOf(s, step))
  {
    assert Tied(s.runs, step.w, s.At(step.w).pc);
    assert RowOk(s.runs[step.run]);
  }

  lemma TouchOk(s: State, step: Step)
    requires Inv(s) && Enabled(s, step) && TouchesRow(step)
    ensures EffectOk(s, step.w, EffectOf(s, step))
  {
    if Drafts(step) {
      DraftOk(s, step);
    } else if step.Journal? {
      StartJournalOk(s, step);
    } else if step.MarkFailed? {
      MarkFailedOk(s, step);
    } else if step.Invalidate? {
      InvalidateOk(s, step);
    } else {
      MarkOk(s, step);
    }
  }

  /** From a failed apply to the handler's last step. */
  predicate Handles(step: Step) {
    step.Fail? || step.Notice? || step.Inspect?
  }

  lemma HandleOk(s: State, step: Step)
    requires Inv(s) && Enabled(s, step) && Handles(step)
    ensures EffectOk(s, step.w, EffectOf(s, step))
  {
    var pc := s.At(step.w).pc;
    assert Tied(s.runs, step.w, pc) && (pc.run in s.runs ==> RowOk(s.runs[pc.run]));
  }

  lemma MoveOk(s: State, step: Step)
    requires Inv(s) && Enabled(s, step) && !step.Tick? && !IsExecuting(step) && !TouchesRow(step) && !Handles(step)
    ensures EffectOk(s, step.w, EffectOf(s, step))
  {
    assert Tied(s.runs, step.w, s.At(step.w).pc);
  }

  lemma StepEffectOk(s: State, step: Step)
    requires Inv(s) && Enabled(s, step) && !step.Tick?
    ensures EffectOk(s, step.w, EffectOf(s, step))
  {
    if IsExecuting(step) {
      ExecutingOk(s, step);
    } else if TouchesRow(step) {
      TouchOk(s, step);
    } else if Handles(step) {
      HandleOk(s, step);
    } else {
      MoveOk(s, step);
    }
  }

  lemma InvStep(s: State, step: Step)
    requires Inv(s) && Enabled(s, step)
    ensures Inv(After(s, step))
  {
    if step.Tick? {
      var t := After(s, step);
      assert forall w :: t.At(w) == s.At(w);
    } else {
      StepEffectOk(s, step);
      EffectKeepsInv(s, step.w, EffectOf(s, step));
    }
  }

  lemma {:induction false} InvRun(s: State, steps: seq<Step>)
    requires Inv(s) && Run(s, steps)
    ensures Inv(Final(s, steps))
  {
    if steps != [] {
      InvRun(s, steps[..|steps| - 1]);
      InvStep(Final(s, steps[..|steps| - 1]), steps[|steps| - 1]);
    }
  }

  lemma InvStart(now: int)
    ensures Inv(Start(now))
  {
  }
}
