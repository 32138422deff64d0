/** What the journals of applied runs say, and when the failure handler of another worker spoils them. */
module ApplyJournals {
  import opened Prelude
  import Leases
  import opened ApplyProtocol
  import opened ApplySafety
  import opened ApplyMoves

  // ---- Every journal of every run -----------------------------------------------------------------

  /** Acknowledged by the provider but not completed in the journal. */
  predicate Dangling(e: Entry) {
    e.acked && !e.mark.Completed?
  }

  /** Acknowledged by the provider, and the consumer has not committed the completion. */
  predicate Unrecorded(e: Entry) {
    e.acked && !e.done
  }

  /** At every moment of every run: each ordinal was sent at most once; what a status column says is true
      unless it says failed; at most one acknowledged write was not committed as completed; and a saved
      baseline means that the consumer committed or listed each ordinal, and never both. */
  lemma JournalsAreExact(now: int, steps: seq<Step>, r: RunId, i: nat, k: nat)
    requires Run(Start(now), steps)
    requires var runs := Final(Start(now), steps).runs;
             r in runs && runs[r].journal.Some? && i < |runs[r].journal.value| && k < |runs[r].journal.value|
    ensures var row := Final(Start(now), steps).runs[r]; var e := EntryAt(row, i);
            && e.sent <= 1 && (e.acked ==> e.sent == 1) && (e.done ==> e.acked)
            && (e.mark.Completed? ==> e.done) && (e.mark.Skipped? ==> e.listed) && (e.mark.Pending? ==> !e.done)
            && (Unrecorded(e) && Unrecorded(EntryAt(row, k)) ==> i == k)
            && (row.baselined ==> (e.done <==> !e.listed) && (e.done <==> e.acked) && !e.mark.Pending?)
  {
    InvStart(now);
    InvRun(Start(now), steps);
    var row := Final(Start(now), steps).runs[r];
    assert RowOk(row);
    CursorIsTheOnlyGap(row, i);
    CursorIsTheOnlyGap(row, k);
  }

  lemma CursorIsTheOnlyGap(row: SyncRun, i: nat)
    requires RowOk(row) && row.journal.Some? && i < |row.journal.value|
    ensures var e := EntryAt(row, i);
            e.sent <= 1 && (e.acked ==> e.sent == 1) && (e.done ==> e.acked) && (e.done ==> !e.listed)
    ensures Unrecorded(EntryAt(row, i)) ==> i == row.cursor
  {
    if i < row.cursor {
      assert Closed(row.journal.value[i]);
    } else if i > row.cursor {
      assert Untouched(row.journal.value[i]);
    } else {
      assert Open(row.journal.value[i]);
    }
  }

  // ---- At most one acknowledged write that the journal does not show as completed -----------------------

  ghost predicate AtMostOneDangling(row: SyncRun) {
    row.journal.Some? ==>
      forall i, k :: 0 <= i < k < |row.journal.value| ==>
                       !(Dangling(row.journal.value[i]) && Dangling(row.journal.value[k]))
  }

  ghost predicate StaysTight(s: State, r: RunId) {
    forall steps :: Run(s, steps) ==> r in Final(s, steps).runs && AtMostOneDangling(Final(s, steps).runs[r])
  }

  /** Inside an apply of the run, before it, or in its failure handler; not in the write loop. */
  predicate InApply(pc: Pc, r: RunId) {
    (pc.Checking? || pc.Consuming? || pc.Noticed? || pc.Marking?) && pc.run == r
  }

  predicate CompletedWhenDone(row: SyncRun) {
    row.journal.Some? ==>
      forall i :: 0 <= i < |row.journal.value| && row.journal.value[i].done ==> row.journal.value[i].mark.Completed?
  }

  /** Only the consumer is on the run, and no completion was overwritten. */
  ghost predicate Alone(s: State, r: RunId) {
    && r in s.runs && s.runs[r].consumer.Some? && CompletedWhenDone(s.runs[r])
    && forall v :: InApply(s.At(v).pc, r) ==> s.runs[r].consumer == Some(v)
  }

  /** All entries but k that were acknowledged are shown as completed. */
  predicate TightBut(row: SyncRun, k: nat) {
    row.journal.Some? ==>
      forall i :: 0 <= i < |row.journal.value| && i != k && row.journal.value[i].acked ==>
                    row.journal.value[i].mark.Completed?
  }

  /** The worker can neither acknowledge nor overwrite any entry but k. */
  predicate ConfinedTo(s: State, pc: Pc, r: RunId, k: nat)
    requires r in s.runs
  {
    match pc
    case Executing(token, run, stage) =>
      run == r ==> s.lease.token != Some(token) && (stage.Armed? || stage.InFlight? || stage.Acked? ==> stage.next == k)
    case Marking(_, run, entry) =>
      run == r && entry.Some? && entry.value != k && s.runs[r].journal.Some? && entry.value < |s.runs[r].journal.value|
      ==> !s.runs[r].journal.value[entry.value].acked
    case _ => true
  }

  ghost predicate Confined(s: State, r: RunId, k: nat) {
    && r in s.runs && s.runs[r].consumer.Some? && TightBut(s.runs[r], k)
    && forall v :: ConfinedTo(s, s.At(v).pc, r, k)
  }

  predicate Short(s: State, r: RunId) {
    r in s.runs && s.runs[r].drafted && s.runs[r].plan < 2
  }

  /** Enough to know at any later time too. */
  ghost predicate Safe(s: State, r: RunId) {
    Short(s, r) || Alone(s, r) || exists k: nat :: Confined(s, r, k)
  }

  lemma TightNow(s: State, r: RunId)
    requires Inv(s) && Safe(s, r)
    ensures r in s.runs && AtMostOneDangling(s.runs[r])
  {
    var row := s.runs[r];
    assert RowOk(row);
    if row.journal.Some? && !Short(s, r) {
      var k: nat := row.cursor;
      if !Alone(s, r) {
        k :| Confined(s, r, k);
      }
      forall i | 0 <= i < |row.journal.value| && Dangling(row.journal.value[i]) ensures i == k {
        CursorIsTheOnlyGap(row, i);
      }
    }
  }

  // ---- Once the consumer has lost the lease -------------------------------------------------------------

  /** Nothing but entry k is acknowledged anew. */
  predicate NoNewAcks(before: SyncRun, row: SyncRun, k: nat) {
    before.journal.Some? && row.journal.Some? && |row.journal.value| == |before.journal.value| ==>
      forall i :: 0 <= i < |row.journal.value| && i != k && row.journal.value[i].acked ==> before.journal.value[i].acked
  }

  predicate KeepsConfined(s: State, w: WorkerId, e: Effect, r: RunId, k: nat)
    requires r in s.runs
  {
    && (e.touched.Some? && e.touched.value.run == r ==>
          && TightBut(e.touched.value.row, k) && NoNewAcks(s.runs[r], e.touched.value.row, k)
          && e.touched.value.row.consumer.Some?)
    && ConfinedTo(Apply(s, w, e), e.worker.pc, r, k)
  }

  lemma OthersStayConfined(s: State, w: WorkerId, e: Effect, r: RunId, k: nat, v: WorkerId)
    requires Inv(s) && EffectOk(s, w, e) && Confined(s, r, k) && KeepsConfined(s, w, e, r, k) && v != w
    ensures ConfinedTo(Apply(s, w, e), s.At(v).pc, r, k)
  {
    assert ConfinedTo(s, s.At(v).pc, r, k) && Tied(s.runs, v, s.At(v).pc) && TokenKnown(s.At(v).pc, s.next);
    assert RowOk(s.runs[r]);
  }

  lemma ConfinedEffect(s: State, w: WorkerId, e: Effect, r: RunId, k: nat)
    requires Inv(s) && EffectOk(s, w, e) && Confined(s, r, k) && KeepsConfined(s, w, e, r, k)
    ensures Confined(Apply(s, w, e), r, k)
  {
    forall v ensures ConfinedTo(Apply(s, w, e), Apply(s, w, e).At(v).pc, r, k) {
      if v != w {
        assert Apply(s, w, e).At(v) == s.At(v);
        OthersStayConfined(s, w, e, r, k, v);
      }
    }
  }

  lemma ConfinedAct(s: State, step: Step, r: RunId, k: nat)
    requires Inv(s) && Enabled(s, step) && Confined(s, r, k) && IsExecuting(step) && !step.Finish?
    requires ActsOutside(step)
    ensures KeepsConfined(s, step.w, EffectOf(s, step), r, k)
  {
    assert ConfinedTo(s, s.At(step.w).pc, r, k) && Tied(s.runs, step.w, s.At(step.w).pc);
  }

  lemma ConfinedRecord(s: State, step: Step, r: RunId, k: nat)
    requires Inv(s) && Enabled(s, step) && Confined(s, r, k) && IsExecuting(step) && !step.Finish?
    requires !ActsOutside(step) && !step.CommitSkips?
    ensures KeepsConfined(s, step.w, EffectOf(s, step), r, k)
  {
    assert ConfinedTo(s, s.At(step.w).pc, r, k) && Tied(s.runs, step.w, s.At(step.w).pc);
  }

  lemma ConfinedCommit(s: State, step: Step, r: RunId, k: nat)
    requires Inv(s) && Enabled(s, step) && Confined(s, r, k) && step.CommitSkips?
    ensures KeepsConfined(s, step.w, EffectOf(s, step), r, k)
  {
    assert ConfinedTo(s, s.At(step.w).pc, r, k) && Tied(s.runs, step.w, s.At(step.w).pc) && RowOk(s.runs[r]);
  }

  lemma ConfinedTurn(s: State, step: Step, r: RunId, k: nat)
    requires Inv(s) && Enabled(s, step) && Confined(s, r, k) && IsExecuting(step) && !step.Finish?
    ensures KeepsConfined(s, step.w, EffectOf(s, step), r, k)
  {
    if ActsOutside(step) {
      ConfinedAct(s, step, r, k);
    } else if step.CommitSkips? {
      ConfinedCommit(s, step, r, k);
    } else {
      ConfinedRecord(s, step, r, k);
    }
  }

  lemma ConfinedFinish(s: State, step: Step, r: RunId, k: nat)
    requires Inv(s) && Enabled(s, step) && Confined(s, r, k) && step.Finish?
    ensures KeepsConfined(s, step.w, EffectOf(s, step), r, k)
  {
    assert Tied(s.runs, step.w, s.At(step.w).pc) && RowOk(s.runs[r]);
  }

  lemma ConfinedDraft(s: State, step: Step, r: RunId, k: nat)
    requires Inv(s) && Enabled(s, step) && Confined(s, r, k) && Drafts(step)
    ensures KeepsConfined(s, step.w, EffectOf(s, step), r, k)
  {
    assert Tied(s.runs, step.w, s.At(step.w).pc) && RowOk(s.runs[r]);
  }

  lemma ConfinedJournal(s: State, step: Step, r: RunId, k: nat)
    requires Inv(s) && Enabled(s, step) && Confined(s, r, k) && TouchesRow(step) && !Drafts(step)
    requires step.Journal?
    ensures KeepsConfined(s, step.w, EffectOf(s, step), r, k)
  {
    assert ConfinedTo(s, s.At(step.w).pc, r, k) && Tied(s.runs, step.w, s.At(step.w).pc);
  }

  lemma ConfinedFailure(s: State, step: Step, r: RunId, k: nat)
    requires Inv(s) && Enabled(s, step) && Confined(s, r, k) && TouchesRow(step) && !Drafts(step)
    requires step.MarkFailed?
    ensures KeepsConfined(s, step.w, EffectOf(s, step), r, k)
  {
    assert ConfinedTo(s, s.At(step.w).pc, r, k) && Tied(s.runs, step.w, s.At(step.w).pc);
  }

  lemma ConfinedStatusMark(s: State, step: Step, r: RunId, k: nat)
    requires Inv(s) && Enabled(s, step) && Confined(s, r, k) && TouchesRow(step) && !Drafts(step)
    requires !WritesJournal(step)
    ensures KeepsConfined(s, step.w, EffectOf(s, step), r, k)
  {
    assert ConfinedTo(s, s.At(step.w).pc, r, k) && Tied(s.runs, step.w, s.At(step.w).pc);
  }

  lemma ConfinedMark(s: State, step: Step, r: RunId, k: nat)
    requires Inv(s) && Enabled(s, step) && Confined(s, r, k) && TouchesRow(step) && !Drafts(step)
    ensures KeepsConfined(s, step.w, EffectOf(s, step), r, k)
  {
    if step.Journal? {
      ConfinedJournal(s, step, r, k);
    } else if step.MarkFailed? {
      ConfinedFailure(s, step, r, k);
    } else {
      ConfinedStatusMark(s, step, r, k);
    }
  }

  lemma ConfinedMove(s: State, step: Step, r: RunId, k: nat)
    requires Inv(s) && Enabled(s, step) && Confined(s, r, k) && !step.Tick? && !IsExecuting(step) && !TouchesRow(step)
    ensures KeepsConfined(s, step.w, EffectOf(s, step), r, k)
  {
    assert ConfinedTo(s, s.At(step.w).pc, r, k) && Tied(s.runs, step.w, s.At(step.w).pc);
  }

  lemma ConfinedStep(s: State, step: Step, r: RunId, k: nat)
    requires Inv(s) && Enabled(s, step) && Confined(s, r, k)
    ensures Confined(After(s, step), r, k)
  {
    if step.Tick? {
      forall v ensures ConfinedTo(After(s, step), After(s, step).At(v).pc, r, k) {
        assert ConfinedTo(s, s.At(v).pc, r, k);
      }
    } else {
      StepEffectOk(s, step);
      if step.Finish? {
        ConfinedFinish(s, step, r, k);
      } else if IsExecuting(step) {
        ConfinedTurn(s, step, r, k);
      } else if Drafts(step) {
        ConfinedDraft(s, step, r, k);
      } else if TouchesRow(step) {
        ConfinedMark(s, step, r, k);
      } else {
        ConfinedMove(s, step, r, k);
      }
      ConfinedEffect(s, step.w, EffectOf(s, step), r, k);
    }
  }

  // ---- While nobody but the consumer is on the run --------------------------------------------------------

  predicate KeepsAlone(s: State, w: WorkerId, e: Effect, r: RunId)
    requires r in s.runs
  {
    && (e.touched.Some? && e.touched.value.run == r ==>
          CompletedWhenDone(e.touched.value.row) && e.touched.value.row.consumer == s.runs[r].consumer)
    && (InApply(e.worker.pc, r) ==> s.runs[r].consumer == Some(w))
  }

  lemma AloneEffect(s: State, w: WorkerId, e: Effect, r: RunId)
    requires Alone(s, r) && KeepsAlone(s, w, e, r)
    ensures Alone(Apply(s, w, e), r)
  {
    forall v | InApply(Apply(s, w, e).At(v).pc, r) ensures s.runs[r].consumer == Some(v) {
      assert v != w ==> Apply(s, w, e).At(v) == s.At(v);
    }
  }

  lemma AloneAct(s: State, step: Step, r: RunId)
    requires Inv(s) && Enabled(s, step) && Alone(s, r) && IsExecuting(step)
    requires ActsOutside(step)
    ensures KeepsAlone(s, step.w, EffectOf(s, step), r)
  {
    assert Tied(s.runs, step.w, s.At(step.w).pc) && RowOk(s.runs[r]);
  }

  lemma AloneRecord(s: State, step: Step, r: RunId)
    requires Inv(s) && Enabled(s, step) && Alone(s, r) && IsExecuting(step)
    requires !ActsOutside(step)
    ensures KeepsAlone(s, step.w, EffectOf(s, step), r)
  {
    assert Tied(s.runs, step.w, s.At(step.w).pc) && RowOk(s.runs[r]);
  }

  lemma AloneTurn(s: State, step: Step, r: RunId)
    requires Inv(s) && Enabled(s, step) && Alone(s, r) && IsExecuting(step)
    ensures KeepsAlone(s, step.w, EffectOf(s, step), r)
  {
    if ActsOutside(step) {
      AloneAct(s, step, r);
    } else {
      AloneRecord(s, step, r);
    }
  }

  lemma AloneDraft(s: State, step: Step, r: RunId)
    requires Inv(s) && Enabled(s, step) && Alone(s, r) && Drafts(step)
    ensures KeepsAlone(s, step.w, EffectOf(s, step), r)
  {
    assert Tied(s.runs, step.w, s.At(step.w).pc) && RowOk(s.runs[r]);
  }

  lemma AloneJournal(s: State, step: Step, r: RunId)
    requires Inv(s) && Enabled(s, step) && Alone(s, r) && TouchesRow(step) && !Drafts(step)
    requires step.Journal?
    ensures KeepsAlone(s, step.w, EffectOf(s, step), r)
  {
    assert Tied(s.runs, step.w, s.At(step.w).pc) && RowOk(s.runs[r]);
  }

  lemma AloneFailure(s: State, step: Step, r: RunId)
    requires Inv(s) && Enabled(s, step) && Alone(s, r) && TouchesRow(step) && !Drafts(step)
    requires step.MarkFailed?
    ensures KeepsAlone(s, step.w, EffectOf(s, step), r)
  {
    assert Tied(s.runs, step.w, s.At(step.w).pc) && RowOk(s.runs[r]);
    assert InApply(s.At(step.w).pc, r) ==> s.runs[r].consumer == Some(step.w);
  }

  lemma AloneStatusMark(s: State, step: Step, r: RunId)
    requires Inv(s) && Enabled(s, step) && Alone(s, r) && TouchesRow(step) && !Drafts(step)
    requires !WritesJournal(step)
    ensures KeepsAlone(s, step.w, EffectOf(s, step), r)
  {
    assert Tied(s.runs, step.w, s.At(step.w).pc) && RowOk(s.runs[r]);
    assert InApply(s.At(step.w).pc, r) ==> s.runs[r].consumer == Some(step.w);
  }

  lemma AloneMark(s: State, step: Step, r: RunId)
    requires Inv(s) && Enabled(s, step) && Alone(s, r) && TouchesRow(step) && !Drafts(step)
    ensures KeepsAlone(s, step.w, EffectOf(s, step), r)
  {
    if step.Journal? {
      AloneJournal(s, step, r);
    } else if step.MarkFailed? {
      AloneFailure(s, step, r);
    } else {
      AloneStatusMark(s, step, r);
    }
  }

  lemma AloneMove(s: State, step: Step, r: RunId)
    requires Inv(s) && Enabled(s, step) && Alone(s, r) && !step.Tick? && !IsExecuting(step) && !TouchesRow(step)
    requires step.Acquire? && step.purpose == ToApply(r) ==> s.runs[r].consumer == Some(step.w)
    ensures KeepsAlone(s, step.w, EffectOf(s, step), r)
  {
    assert Tied(s.runs, step.w, s.At(step.w).pc);
    assert InApply(s.At(step.w).pc, r) ==> s.runs[r].consumer == Some(step.w);
  }

  /** Another worker gets to the run only by taking the lease from its consumer. */
  lemma NewcomerConfines(s: State, step: Step, r: RunId)
    requires Inv(s) && Enabled(s, step) && Alone(s, r) && step.Acquire? && step.purpose == ToApply(r)
    ensures Confined(After(s, step), r, s.runs[r].cursor)
  {
    var t, row := After(s, step), s.runs[r];
    assert RowOk(row);
    forall v ensures ConfinedTo(t, t.At(v).pc, r, row.cursor) {
      assert v != step.w ==> t.At(v) == s.At(v);
      assert Tied(s.runs, v, s.At(v).pc) && TokenKnown(s.At(v).pc, s.next);
      assert InApply(s.At(v).pc, r) ==> row.consumer == Some(v);
    }
    TightAtCursor(row);
  }

  lemma TightAtCursor(row: SyncRun)
    requires RowOk(row) && CompletedWhenDone(row)
    ensures TightBut(row, row.cursor)
  {
    if row.journal.Some? {
      forall i | 0 <= i < |row.journal.value| && i != row.cursor && row.journal.value[i].acked
        ensures row.journal.value[i].mark.Completed?
      {
        CursorIsTheOnlyGap(row, i);
      }
    }
  }

  lemma AloneStep(s: State, step: Step, r: RunId)
    requires Inv(s) && Enabled(s, step) && Alone(s, r)
    ensures Alone(After(s, step), r) || exists k: nat :: Confined(After(s, step), r, k)
  {
    if step.Tick? {
      assert forall v :: After(s, step).At(v) == s.At(v);
    } else if step.Acquire? && step.purpose == ToApply(r) {
      NewcomerConfines(s, step, r);
    } else {
      if IsExecuting(step) {
        AloneTurn(s, step, r);
      } else if Drafts(step) {
        AloneDraft(s, step, r);
      } else if TouchesRow(step) {
        AloneMark(s, step, r);
      } else {
        AloneMove(s, step, r);
      }
      AloneEffect(s, step.w, EffectOf(s, step), r);
    }
  }

  lemma ShortStep(s: State, step: Step, r: RunId)
    requires Inv(s) && Enabled(s, step) && Short(s, r)
    ensures Short(After(s, step), r)
  {
    if !step.Tick? {
      StepEffectOk(s, step);
    }
  }

  lemma SafeStep(s: State, step: Step, r: RunId)
    requires Inv(s) && Enabled(s, step) && Safe(s, r)
    ensures Safe(After(s, step), r)
  {
    if Short(s, r) {
      ShortStep(s, step, r);
    } else if Alone(s, r) {
      AloneStep(s, step, r);
    } else {
      var k: nat :| Confined(s, r, k);
      ConfinedStep(s, step, r, k);
    }
  }

  lemma {:induction false} SafeForever(s: State, steps: seq<Step>, r: RunId)
    requires Inv(s) && Safe(s, r) && Run(s, steps)
    ensures r in Final(s, steps).runs && AtMostOneDangling(Final(s, steps).runs[r]) && Safe(Final(s, steps), r)
  {
    InvRun(s, steps);
    if steps != [] {
      InvRun(s, steps[..|steps| - 1]);
      SafeForever(s, steps[..|steps| - 1], r);
      SafeStep(Final(s, steps[..|steps| - 1]), steps[|steps| - 1], r);
    }
    TightNow(Final(s, steps), r);
  }

  // ---- A second acknowledged write that is not shown ------------------------------------------------------

  /** The consumer owns the lease at a stage of its write loop while another worker is somewhere else. */
  predicate Duel(t: State, w: WorkerId, stage: Stage, v: WorkerId, pc: Pc, r: RunId, row: SyncRun) {
    && v != w && t.At(w).pc.Executing? && t.At(w).pc.run == r && t.At(w).pc.stage == stage && t.At(v).pc == pc
    && t.lease.token == Some(t.At(w).pc.token) && t.lease.expires.Some? && r in t.runs && t.runs[r] == row
  }

  predicate Journalling(row: SyncRun, n: nat) {
    row.journal.Some? && |row.journal.value| > n
  }

  lemma NoticeDuel(t: State, w: WorkerId, stage: Stage, v: WorkerId, pc: Pc, r: RunId, row: SyncRun)
    requires Duel(t, w, stage, v, pc, r, row) && (pc.Checking? || pc.Consuming?) && pc.run == r && row.status.Applying?
    ensures Enabled(t, Notice(v)) && Duel(After(t, Notice(v)), w, stage, v, Noticed(pc.token, r, false), r, row)
  {
    NoticeMove(t, v);
  }

  lemma InspectDuel(t: State, w: WorkerId, stage: Stage, v: WorkerId, pc: Pc, r: RunId, row: SyncRun)
    requires Duel(t, w, stage, v, pc, r, row) && pc.Noticed? && pc.run == r
    requires Journalling(row, 0) && row.journal.value[0].mark.Pending?
    ensures Enabled(t, Inspect(v, false))
    ensures Duel(After(t, Inspect(v, false)), w, stage, v, Marking(pc.token, r, Some(0)), r, row)
  {
    InspectMove(t, v, false);
  }

  lemma MarkDuel(t: State, w: WorkerId, stage: Stage, v: WorkerId, pc: Pc, r: RunId, row: SyncRun)
    requires Duel(t, w, stage, v, pc, r, row) && pc.Marking? && pc.run == r
    ensures Enabled(t, MarkFailed(v))
    ensures Duel(After(t, MarkFailed(v)), w, stage, v, Releasing(pc.token), r, WithFailure(row, pc.entry))
  {
    MarkFailedMove(t, v);
  }

  lemma RenewDuel(t: State, w: WorkerId, stage: Stage, v: WorkerId, pc: Pc, r: RunId, row: SyncRun)
    requires Duel(t, w, stage, v, pc, r, row) && row.journal.Some?
    requires stage.Recorded? || (stage.Writing? && Journalling(row, stage.next))
    ensures Enabled(t, Renew(w, Reading(t), Reading(t)))
    ensures Duel(After(t, Renew(w, Reading(t), Reading(t))), w,
                 if stage.Writing? then Armed(stage.next) else Writing(stage.next), v, pc, r, row)
  {
    RenewMove(t, w, Reading(t));
  }

  /** The consumer sends and gets its answer. */
  lemma AnswerDuel(s: State, xs: seq<Step>, t: State, w: WorkerId, i: nat, v: WorkerId, pc: Pc, r: RunId, row: SyncRun)
    returns (steps: seq<Step>, u: State)
    requires Leads(s, xs, t) && Duel(t, w, Armed(i), v, pc, r, row) && Journalling(row, i)
    ensures Leads(s, steps, u) && Duel(u, w, Acked(i), v, pc, r, Confirmed(SentOnce(row, i), i))
  {
    SendMove(t, w);
    Then(s, xs, t, Send(w));
    var t1 := After(t, Send(w));
    AcknowledgeMove(t1, w);
    Then(s, xs + [Send(w)], t1, Acknowledge(w));
    steps, u := xs + [Send(w)] + [Acknowledge(w)], After(t1, Acknowledge(w));
  }

  lemma CompleteDuel(t: State, w: WorkerId, i: nat, v: WorkerId, pc: Pc, r: RunId, row: SyncRun)
    requires Duel(t, w, Acked(i), v, pc, r, row) && Journalling(row, i)
    ensures Enabled(t, Complete(w)) && Duel(After(t, Complete(w)), w, Recorded(i + 1), v, pc, r, Done(row, i))
  {
    CompleteMove(t, w);
  }

  /** The consumer commits its journal and renews. */
  lemma JournalDuel(s: State, xs: seq<Step>, t: State, w: WorkerId, v: WorkerId, pc: Pc, r: RunId, row: SyncRun)
    returns (steps: seq<Step>, u: State)
    requires Leads(s, xs, t) && Duel(t, w, Journaling, v, pc, r, row) && row.plan > 0
    ensures Leads(s, steps, u) && Duel(u, w, Armed(0), v, pc, r, JournalledRow(row))
  {
    var rest := JournalAndRenew(t, w);
    Join(s, xs, t, rest);
    steps, u := xs + rest, ArmedAfterJournal(t, w);
  }

  /** The other worker looks at the journal while entry 0 is planned and calls it failed when it is completed. */
  function Spoiled(row: SyncRun): SyncRun
    requires Journalling(row, 0)
  {
    WithFailure(Done(Confirmed(SentOnce(row, 0), 0), 0), Some(0))
  }

  lemma SpoilFirst(s: State, xs: seq<Step>, t: State, w: WorkerId, v: WorkerId, pc: Pc, r: RunId, row: SyncRun)
    returns (steps: seq<Step>, u: State)
    requires Leads(s, xs, t) && Duel(t, w, Armed(0), v, pc, r, row) && pc.Noticed? && pc.run == r
    requires Journalling(row, 0) && row.journal.value[0].mark.Pending?
    ensures Leads(s, steps, u) && Duel(u, w, Recorded(1), v, Releasing(pc.token), r, Spoiled(row))
  {
    InspectDuel(t, w, Armed(0), v, pc, r, row);
    Then(s, xs, t, Inspect(v, false));
    var marking, t1 := Marking(pc.token, r, Some(0)), After(t, Inspect(v, false));
    var answered, t2 := AnswerDuel(s, xs + [Inspect(v, false)], t1, w, 0, v, marking, r, row);
    CompleteDuel(t2, w, 0, v, marking, r, Confirmed(SentOnce(row, 0), 0));
    Then(s, answered, t2, Complete(w));
    var t3 := After(t2, Complete(w));
    MarkDuel(t3, w, Recorded(1), v, marking, r, Done(Confirmed(SentOnce(row, 0), 0), 0));
    Then(s, answered + [Complete(w)], t3, MarkFailed(v));
    steps, u := answered + [Complete(w)] + [MarkFailed(v)], After(t3, MarkFailed(v));
  }

  /** Then the consumer goes on to entry 1. */
  lemma AnswerSecond(s: State, xs: seq<Step>, t: State, w: WorkerId, v: WorkerId, pc: Pc, r: RunId, row: SyncRun)
    returns (steps: seq<Step>, u: State)
    requires Leads(s, xs, t) && Duel(t, w, Recorded(1), v, pc, r, row) && Journalling(row, 1)
    ensures Leads(s, steps, u) && Duel(u, w, Acked(1), v, pc, r, Confirmed(SentOnce(row, 1), 1))
  {
    var renew := Renew(w, Reading(t), Reading(t));
    RenewDuel(t, w, Recorded(1), v, pc, r, row);
    Then(s, xs, t, renew);
    var t1 := After(t, renew);
    var again := Renew(w, Reading(t1), Reading(t1));
    RenewDuel(t1, w, Writing(1), v, pc, r, row);
    Then(s, xs + [renew], t1, again);
    steps, u := AnswerDuel(s, xs + [renew] + [again], After(t1, again), w, 1, v, pc, r, row);
  }

  lemma RivalSpoils(t: State, w: WorkerId, v: WorkerId, pc: Pc, r: RunId, row: SyncRun)
    returns (steps: seq<Step>, u: State)
    requires Duel(t, w, Journaling, v, pc, r, row) && row.status.Applying? && row.plan >= 2
    requires (pc.Checking? || pc.Consuming?) && pc.run == r
    ensures Leads(t, steps, u) && r in u.runs && !AtMostOneDangling(u.runs[r])
  {
    Nothing(t);
    NoticeDuel(t, w, Journaling, v, pc, r, row);
    Then(t, [], t, Notice(v));
    var t1, noticed := After(t, Notice(v)), Noticed(pc.token, r, false);
    var armed, t2 := JournalDuel(t, [] + [Notice(v)], t1, w, v, noticed, r, row);
    steps, u := ArmedRivalSpoils(t, armed, t2, w, v, noticed, r, JournalledRow(row));
  }

  lemma ArmedRivalSpoils(s: State, xs: seq<Step>, t: State, w: WorkerId, v: WorkerId, pc: Pc, r: RunId, row: SyncRun)
    returns (steps: seq<Step>, u: State)
    requires Leads(s, xs, t) && Duel(t, w, Armed(0), v, pc, r, row) && pc.Noticed? && pc.run == r
    requires Journalling(row, 1) && row.journal.value[0].mark.Pending? && row.journal.value[1].mark.Pending?
    ensures Leads(s, steps, u) && r in u.runs && !AtMostOneDangling(u.runs[r])
  {
    var spoiled, t1 := SpoilFirst(s, xs, t, w, v, pc, r, row);
    TwoDangling(row);
    steps, u := AnswerSecond(s, spoiled, t1, w, v, Releasing(pc.token), r, Spoiled(row));
  }

  lemma TwoDangling(row: SyncRun)
    requires Journalling(row, 1) && row.journal.value[1].mark.Pending?
    ensures var after := Spoiled(row);
            Journalling(after, 1) && !AtMostOneDangling(Confirmed(SentOnce(after, 1), 1))
  {
    var after := Confirmed(SentOnce(Spoiled(row), 1), 1);
    assert Dangling(after.journal.value[0]) && Dangling(after.journal.value[1]);
  }

  /** The worker is about to consume a plan of two actions or more and still has its token on the lease row,
      while another worker is inside an apply of the same run. */
  ghost predicate Contested(s: State, w: WorkerId)
    requires s.At(w).pc.Consuming? && s.At(w).pc.run in s.runs
  {
    var pc := s.At(w).pc;
    && s.runs[pc.run].plan >= 2 && s.lease.token == Some(pc.token)
    && exists v :: v != w && InApply(s.At(v).pc, pc.run)
  }

  /** Exactly when a journal can come to show two acknowledged writes as not completed, decided at the moment
      its run is consumed. */
  lemma JournalStaysTightIff(now: int, before: seq<Step>, s: State, w: WorkerId)
    requires Run(Start(now), before) && s == Final(Start(now), before) && Enabled(s, Consume(w))
    ensures StaysTight(After(s, Consume(w)), s.At(w).pc.run) <==> !Contested(s, w)
  {
    InvStart(now);
    InvRun(Start(now), before);
    var t, r := After(s, Consume(w)), s.At(w).pc.run;
    if Contested(s, w) {
      var steps, u := ContestedSpoils(s, w);
      assert Run(t, steps) && !AtMostOneDangling(Final(t, steps).runs[r]);
    } else {
      InvStep(s, Consume(w));
      ConsumedIsSafe(s, w);
      forall steps | Run(t, steps) ensures r in Final(t, steps).runs && AtMostOneDangling(Final(t, steps).runs[r]) {
        SafeForever(t, steps, r);
      }
    }
  }

  lemma ContestedSpoils(s: State, w: WorkerId) returns (steps: seq<Step>, u: State)
    requires Inv(s) && Enabled(s, Consume(w)) && Contested(s, w)
    ensures Leads(After(s, Consume(w)), steps, u)
    ensures s.At(w).pc.run in u.runs && !AtMostOneDangling(u.runs[s.At(w).pc.run])
  {
    ConsumeMove(s, w);
    var t, r := After(s, Consume(w)), s.At(w).pc.run;
    var v :| v != w && InApply(s.At(v).pc, r);
    assert RowOk(s.runs[r]) && Tied(s.runs, v, s.At(v).pc);
    steps, u := RivalSpoils(t, w, v, s.At(v).pc, r, t.runs[r]);
  }

  lemma ConsumedIsSafe(s: State, w: WorkerId)
    requires Inv(s) && Enabled(s, Consume(w)) && !Contested(s, w)
    ensures Safe(After(s, Consume(w)), s.At(w).pc.run)
  {
    ConsumeMove(s, w);
    var t, r := After(s, Consume(w)), s.At(w).pc.run;
    assert RowOk(s.runs[r]) && Tied(s.runs, w, s.At(w).pc);
    if s.runs[r].plan < 2 {
      assert Short(t, r);
    } else if s.lease.token == Some(s.At(w).pc.token) {
      assert forall v :: v != w ==> t.At(v) == s.At(v);
      assert Alone(t, r);
    } else {
      forall v ensures ConfinedTo(t, t.At(v).pc, r, 0) {
        assert Tied(s.runs, v, s.At(v).pc);
      }
      assert Confined(t, r, 0);
    }
  }

  // ---- Journals of runs whose baseline was saved ----------------------------------------------------------

  /** The journal splits the plan into completed, acknowledged actions and skipped, unacknowledged ones. */
  predicate Partitioned(row: SyncRun) {
    row.journal.Some? && forall i :: 0 <= i < |row.journal.value| ==>
      var e := row.journal.value[i]; if e.acked then e.mark.Completed? else e.mark.Skipped?
  }

  ghost predicate StaysPartitioned(s: State, r: RunId) {
    forall steps :: Run(s, steps) ==> r in Final(s, steps).runs && Partitioned(Final(s, steps).runs[r])
  }

  /** A failure handler has picked an entry of the run's journal. */
  predicate AboutToMark(pc: Pc, r: RunId) {
    pc.Marking? && pc.run == r && pc.entry.Some?
  }

  ghost predicate Sealed(s: State, r: RunId) {
    && r in s.runs && s.runs[r].baselined && Partitioned(s.runs[r])
    && forall v :: !AboutToMark(s.At(v).pc, r)
  }

  predicate KeepsSealed(e: Effect, r: RunId) {
    && (e.touched.Some? && e.touched.value.run == r ==>
          e.touched.value.row.baselined && Partitioned(e.touched.value.row))
    && !AboutToMark(e.worker.pc, r)
  }

  lemma SealedEffect(s: State, w: WorkerId, e: Effect, r: RunId)
    requires Sealed(s, r) && KeepsSealed(e, r)
    ensures Sealed(Apply(s, w, e), r)
  {
    forall v ensures !AboutToMark(Apply(s, w, e).At(v).pc, r) {
      assert !AboutToMark(s.At(v).pc, r);
    }
  }

  lemma SealedTurn(s: State, step: Step, r: RunId)
    requires Inv(s) && Enabled(s, step) && Sealed(s, r) && IsExecuting(step)
    ensures KeepsSealed(EffectOf(s, step), r)
  {
    TurnShape(s, step);
    assert Tied(s.runs, step.w, s.At(step.w).pc);
  }

  lemma SealedDraft(s: State, step: Step, r: RunId)
    requires Inv(s) && Enabled(s, step) && Sealed(s, r) && Drafts(step)
    ensures KeepsSealed(EffectOf(s, step), r)
  {
    assert Tied(s.runs, step.w, s.At(step.w).pc) && RowOk(s.runs[r]);
  }

  lemma SealedJournalMark(s: State, step: Step, r: RunId)
    requires Inv(s) && Enabled(s, step) && Sealed(s, r) && TouchesRow(step) && !Drafts(step)
    requires WritesJournal(step)
    ensures KeepsSealed(EffectOf(s, step), r)
  {
    assert Tied(s.runs, step.w, s.At(step.w).pc) && !AboutToMark(s.At(step.w).pc, r);
  }

  lemma SealedStatusMark(s: State, step: Step, r: RunId)
    requires Inv(s) && Enabled(s, step) && Sealed(s, r) && TouchesRow(step) && !Drafts(step)
    requires !WritesJournal(step)
    ensures KeepsSealed(EffectOf(s, step), r)
  {
    assert Tied(s.runs, step.w, s.At(step.w).pc) && !AboutToMark(s.At(step.w).pc, r);
  }

  lemma SealedMark(s: State, step: Step, r: RunId)
    requires Inv(s) && Enabled(s, step) && Sealed(s, r) && TouchesRow(step) && !Drafts(step)
    ensures KeepsSealed(EffectOf(s, step), r)
  {
    if WritesJournal(step) {
      SealedJournalMark(s, step, r);
    } else {
      SealedStatusMark(s, step, r);
    }
  }

  lemma SealedMove(s: State, step: Step, r: RunId)
    requires Inv(s) && Enabled(s, step) && Sealed(s, r) && !step.Tick? && !IsExecuting(step) && !TouchesRow(step)
    ensures KeepsSealed(EffectOf(s, step), r)
  {
    assert Tied(s.runs, step.w, s.At(step.w).pc) && !AboutToMark(s.At(step.w).pc, r);
  }

  lemma SealedStep(s: State, step: Step, r: RunId)
    requires Inv(s) && Enabled(s, step) && Sealed(s, r)
    ensures Sealed(After(s, step), r)
  {
    if step.Tick? {
      assert forall v :: After(s, step).At(v) == s.At(v);
    } else {
      if IsExecuting(step) {
        SealedTurn(s, step, r);
      } else if Drafts(step) {
        SealedDraft(s, step, r);
      } else if TouchesRow(step) {
        SealedMark(s, step, r);
      } else {
        SealedMove(s, step, r);
      }
      SealedEffect(s, step.w, EffectOf(s, step), r);
    }
  }

  lemma {:induction false} SealedForever(s: State, steps: seq<Step>, r: RunId)
    requires Inv(s) && Sealed(s, r) && Run(s, steps)
    ensures Sealed(Final(s, steps), r)
  {
    if steps != [] {
      SealedForever(s, steps[..|steps| - 1], r);
      InvRun(s, steps[..|steps| - 1]);
      SealedStep(Final(s, steps[..|steps| - 1]), steps[|steps| - 1], r);
    }
  }

  lemma MarkingSpoils(s: State, v: WorkerId, r: RunId)
    requires Inv(s) && AboutToMark(s.At(v).pc, r)
    ensures Leads(s, [] + [MarkFailed(v)], After(s, MarkFailed(v)))
    ensures r in After(s, MarkFailed(v)).runs && !Partitioned(After(s, MarkFailed(v)).runs[r])
  {
    var i := s.At(v).pc.entry.value;
    assert Tied(s.runs, v, s.At(v).pc);
    Nothing(s);
    MarkFailedMove(s, v);
    Then(s, [], s, MarkFailed(v));
    assert After(s, MarkFailed(v)).runs[r].journal.value[i].mark.Faulty?;
  }

  lemma SealedIff(s: State, r: RunId)
    requires Inv(s) && r in s.runs && s.runs[r].baselined
    ensures StaysPartitioned(s, r) <==> Sealed(s, r)
  {
    Nothing(s);
    if Sealed(s, r) {
      forall steps | Run(s, steps) ensures r in Final(s, steps).runs && Partitioned(Final(s, steps).runs[r]) {
        SealedForever(s, steps, r);
      }
    } else if !Partitioned(s.runs[r]) {
      assert Run(s, []) && !Partitioned(Final(s, []).runs[r]);
    } else {
      var v :| AboutToMark(s.At(v).pc, r);
      MarkingSpoils(s, v, r);
      assert Run(s, [] + [MarkFailed(v)]) && !Partitioned(Final(s, [] + [MarkFailed(v)]).runs[r]);
    }
  }

  predicate SkippedWhenListed(row: SyncRun) {
    row.journal.Some? ==>
      forall i :: 0 <= i < |row.journal.value| && row.journal.value[i].listed ==> row.journal.value[i].mark.Skipped?
  }

  /** Exactly when the journal splits the plan into completed and skipped actions for good, decided at the
      moment the baseline is saved: when no completion of an entry was overwritten, no skipped mark either if
      these were committed ahead of the baseline, and no failure handler of another worker has picked an
      entry. */
  lemma JournalStaysPartitionedIff(now: int, before: seq<Step>, s: State, w: WorkerId)
    requires Run(Start(now), before) && s == Final(Start(now), before) && Enabled(s, Finish(w))
    ensures var r := s.At(w).pc.run;
            StaysPartitioned(After(s, Finish(w)), r)
            <==> (&& CompletedWhenDone(s.runs[r]) && (s.At(w).pc.stage.Closing? ==> SkippedWhenListed(s.runs[r]))
                  && forall v :: !AboutToMark(s.At(v).pc, r))
  {
    InvStart(now);
    InvRun(Start(now), before);
    InvStep(s, Finish(w));
    FinishedRow(s, w);
    SealedIff(After(s, Finish(w)), s.At(w).pc.run);
  }

  /** What saving the baseline leaves. */
  lemma FinishedRow(s: State, w: WorkerId)
    requires Inv(s) && Enabled(s, Finish(w))
    ensures var t, r := After(s, Finish(w)), s.At(w).pc.run;
            && r in s.runs && r in t.runs && t.runs[r].baselined
            && (Partitioned(t.runs[r])
                <==> CompletedWhenDone(s.runs[r]) && (s.At(w).pc.stage.Closing? ==> SkippedWhenListed(s.runs[r])))
            && forall v :: AboutToMark(t.At(v).pc, r) <==> AboutToMark(s.At(v).pc, r)
  {
    FinishMove(s, w);
    var r := s.At(w).pc.run;
    assert Tied(s.runs, w, s.At(w).pc) && RowOk(s.runs[r]);
    FinishPartitions(s.runs[r], s.At(w).pc.stage.Closing?);
  }

  lemma FinishPartitions(row: SyncRun, committed: bool)
    requires RowOk(row) && row.journal.Some? && row.cursor == |row.journal.value|
    ensures Partitioned(Baselined(row, committed))
            <==> CompletedWhenDone(row) && (committed ==> SkippedWhenListed(row))
  {
    var j, k := row.journal.value, Baselined(row, committed).journal.value;
    forall i | 0 <= i < |j|
      ensures Closed(j[i]) && Truthful(j[i]) && k[i] == if committed then j[i] else FinalMark(j[i])
    {
    }
    if !CompletedWhenDone(row) {
      var i :| 0 <= i < |j| && j[i].done && !j[i].mark.Completed?;
      assert k[i].acked && !k[i].mark.Completed?;
    } else if committed && !SkippedWhenListed(row) {
      var i :| 0 <= i < |j| && j[i].listed && !j[i].mark.Skipped?;
      assert !k[i].acked && !k[i].mark.Skipped?;
    }
  }

  /** The same at any later time: for every run whose baseline was saved, in every reachable state. */
  lemma PartitionLastsIff(now: int, before: seq<Step>, s: State, r: RunId)
    requires Run(Start(now), before) && s == Final(Start(now), before) && r in s.runs && s.runs[r].baselined
    ensures StaysPartitioned(s, r) <==> Partitioned(s.runs[r]) && forall v :: !AboutToMark(s.At(v).pc, r)
  {
    InvStart(now);
    InvRun(Start(now), before);
    SealedIff(s, r);
  }
}
