/** Runs that recovery calls interrupted: when that guarantees that no write ever happens. */
module ApplyFencing {
  import opened Prelude
  import Leases
  import opened ApplyProtocol
  import opened ApplySafety
  import opened ApplyMoves

  /** There are writes left from this point on. */
  predicate HasWrites(row: SyncRun, stage: Stage) {
    match stage
    case Journaling => row.plan > 0
    case _ => stage.next < row.plan
  }

  /** A worker at this point may, if it still owns the lease, come to write for the run. */
  predicate MayWrite(runs: map<RunId, SyncRun>, pc: Pc, r: RunId) {
    || (pc.Drafting? && pc.run == r)
    || (pc.Consuming? && pc.run == r && r in runs && runs[r].status.Planned? && runs[r].plan > 0)
    || (pc.Executing? && pc.run == r && r in runs && HasWrites(runs[r], pc.stage))
  }

  predicate IsArmed(pc: Pc) {
    pc.Executing? && pc.stage.Armed?
  }

  /** The worker has writes left for the run and has renewed for the next one, or can still renew. */
  predicate CanStillSend(s: State, w: WorkerId, r: RunId) {
    MayWrite(s.runs, s.At(w).pc, r) && (IsArmed(s.At(w).pc) || s.lease.token == Some(s.At(w).pc.token))
  }

  predicate NoSends(row: SyncRun) {
    row.journal.Some? ==> forall i :: 0 <= i < |row.journal.value| ==> row.journal.value[i].sent == 0
  }

  /** A planned review with something to write, and no baseline saved since. */
  predicate Applicable(s: State, r: RunId) {
    r in s.runs && s.runs[r].status.Planned? && s.runs[r].plan > 0 && s.runs[r].base == |s.baselines|
  }

  /** Nothing was sent for the run, it cannot be approved any more, and nobody can come to write for it. */
  ghost predicate Fenced(s: State, r: RunId) {
    r in s.runs && !Applicable(s, r) && NoSends(s.runs[r]) && forall w :: !CanStillSend(s, w, r)
  }

  // ---- Fences stay up -----------------------------------------------------------------------

  predicate KeepsFence(s: State, w: WorkerId, e: Effect, r: RunId)
    requires r in s.runs
  {
    && (e.touched.Some? && e.touched.value.run == r ==>
          && (e.touched.value.row.status.Planned? ==> s.runs[r].status.Planned?)
          && NoSends(e.touched.value.row))
    && (MayWrite(Apply(s, w, e).runs, e.worker.pc, r) ==>
          !e.granted && MayWrite(s.runs, s.At(w).pc, r) && !IsArmed(e.worker.pc))
  }

  lemma OthersStayFenced(s: State, w: WorkerId, e: Effect, r: RunId, v: WorkerId)
    requires Inv(s) && EffectOk(s, w, e) && r in s.runs && v != w && !CanStillSend(s, v, r) && KeepsFence(s, w, e, r)
    ensures !CanStillSend(Apply(s, w, e), v, r)
  {
    assert Apply(s, w, e).At(v) == s.At(v);
    assert Tied(s.runs, v, s.At(v).pc) && TokenKnown(s.At(v).pc, s.next);
  }

  lemma FenceEffect(s: State, w: WorkerId, e: Effect, r: RunId)
    requires Inv(s) && EffectOk(s, w, e) && Fenced(s, r) && KeepsFence(s, w, e, r)
    ensures Fenced(Apply(s, w, e), r)
  {
    forall v ensures !CanStillSend(Apply(s, w, e), v, r) {
      assert !CanStillSend(s, v, r);
      if v != w {
        OthersStayFenced(s, w, e, r, v);
      }
    }
  }

  lemma FenceRenewal(s: State, step: Step, r: RunId)
    requires Inv(s) && Enabled(s, step) && Fenced(s, r) && (step.Renew? || step.Send? || step.Finish?)
    ensures KeepsFence(s, step.w, EffectOf(s, step), r)
  {
    assert !CanStillSend(s, step.w, r) && Tied(s.runs, step.w, s.At(step.w).pc);
  }

  lemma FenceTurn(s: State, step: Step, r: RunId)
    requires Inv(s) && Enabled(s, step) && Fenced(s, r) && IsExecuting(step)
    ensures KeepsFence(s, step.w, EffectOf(s, step), r)
  {
    if step.Renew? || step.Send? || step.Finish? {
      FenceRenewal(s, step, r);
    } else {
      assert !CanStillSend(s, step.w, r) && Tied(s.runs, step.w, s.At(step.w).pc);
    }
  }

  lemma FenceDraft(s: State, step: Step, r: RunId)
    requires Inv(s) && Enabled(s, step) && Fenced(s, r) && Drafts(step)
    ensures KeepsFence(s, step.w, EffectOf(s, step), r)
  {
    assert !CanStillSend(s, step.w, r) && Tied(s.runs, step.w, s.At(step.w).pc);
  }

  lemma FenceJournalMark(s: State, step: Step, r: RunId)
    requires Inv(s) && Enabled(s, step) && Fenced(s, r) && TouchesRow(step) && !Drafts(step)
    requires WritesJournal(step)
    ensures KeepsFence(s, step.w, EffectOf(s, step), r)
  {
    assert !CanStillSend(s, step.w, r) && Tied(s.runs, step.w, s.At(step.w).pc);
  }

  lemma FenceStatusMark(s: State, step: Step, r: RunId)
    requires Inv(s) && Enabled(s, step) && Fenced(s, r) && TouchesRow(step) && !Drafts(step)
    requires !WritesJournal(step)
    ensures KeepsFence(s, step.w, EffectOf(s, step), r)
  {
    assert !CanStillSend(s, step.w, r) && Tied(s.runs, step.w, s.At(step.w).pc);
  }

  lemma FenceMark(s: State, step: Step, r: RunId)
    requires Inv(s) && Enabled(s, step) && Fenced(s, r) && TouchesRow(step) && !Drafts(step)
    ensures KeepsFence(s, step.w, EffectOf(s, step), r)
  {
    if WritesJournal(step) {
      FenceJournalMark(s, step, r);
    } else {
      FenceStatusMark(s, step, r);
    }
  }

  lemma FenceTouch(s: State, step: Step, r: RunId)
    requires Inv(s) && Enabled(s, step) && Fenced(s, r) && TouchesRow(step)
    ensures KeepsFence(s, step.w, EffectOf(s, step), r)
  {
    if Drafts(step) {
      FenceDraft(s, step, r);
    } else {
      FenceMark(s, step, r);
    }
  }

  lemma FenceMove(s: State, step: Step, r: RunId)
    requires Inv(s) && Enabled(s, step) && Fenced(s, r) && !IsExecuting(step) && !TouchesRow(step) && !step.Tick?
    ensures KeepsFence(s, step.w, EffectOf(s, step), r)
  {
    assert !CanStillSend(s, step.w, r);
  }

  lemma FenceStep(s: State, step: Step, r: RunId)
    requires Inv(s) && Enabled(s, step) && Fenced(s, r)
    ensures Fenced(After(s, step), r)
  {
    if step.Tick? {
      forall v ensures !CanStillSend(After(s, step), v, r) {
        assert !CanStillSend(s, v, r);
      }
    } else {
      StepEffectOk(s, step);
      if IsExecuting(step) {
        FenceTurn(s, step, r);
      } else if TouchesRow(step) {
        FenceTouch(s, step, r);
      } else {
        FenceMove(s, step, r);
      }
      FenceEffect(s, step.w, EffectOf(s, step), r);
    }
  }

  lemma {:induction false} FencedForever(s: State, steps: seq<Step>, r: RunId)
    requires Inv(s) && Fenced(s, r) && Run(s, steps)
    ensures Fenced(Final(s, steps), r)
  {
    if steps != [] {
      FencedForever(s, steps[..|steps| - 1], r);
      InvRun(s, steps[..|steps| - 1]);
      FenceStep(Final(s, steps[..|steps| - 1]), steps[|steps| - 1], r);
    }
  }

  // ---- Timely recovery --------------------------------------------------------------------------

  /** A recovery worker decides on a run while its own token is still on the lease row. */
  ghost predicate TimelyDecision(s: State, step: Step)
    requires Enabled(s, step)
  {
    step.Decide? ==> s.lease.token == Some(s.At(step.w).pc.token)
  }

  ghost predicate TimelyRecovery(s: State, steps: seq<Step>)
    requires Run(s, steps)
  {
    steps != [] ==>
      && TimelyRecovery(s, steps[..|steps| - 1])
      && TimelyDecision(Final(s, steps[..|steps| - 1]), steps[|steps| - 1])
  }

  /** A pending decision to call the run interrupted. */
  predicate Condemned(pc: Pc, r: RunId) {
    pc.Recovering? && r in pc.verdicts && pc.verdicts[r].Interrupted?
  }

  ghost predicate CondemnedAreFenced(s: State) {
    && (forall r :: r in s.runs && s.runs[r].interrupted ==> Fenced(s, r))
    && (forall w, r :: Condemned(s.At(w).pc, r) ==> Fenced(s, r))
  }

  /** While no writer owns the lease, an unfinished run without a journal is fenced. */
  lemma UnownedIsFenced(s: State, r: RunId)
    requires Inv(s) && r in s.runs && Unfinished(s.runs[r]) && Verdict(s.runs[r]).Interrupted?
    requires forall w :: MayWrite(s.runs, s.At(w).pc, r) ==> s.lease.token != Some(s.At(w).pc.token)
    ensures Fenced(s, r)
  {
    assert RowOk(s.runs[r]);
    forall w ensures !CanStillSend(s, w, r) {
      assert Tied(s.runs, w, s.At(w).pc);
    }
  }

  lemma TimelyDecisionFences(s: State, w: WorkerId, r: RunId)
    requires Inv(s) && Enabled(s, Decide(w, r)) && s.lease.token == Some(s.At(w).pc.token)
    requires Unfinished(s.runs[r]) && Verdict(s.runs[r]).Interrupted?
    ensures Fenced(s, r)
  {
    forall v | MayWrite(s.runs, s.At(v).pc, r) ensures s.lease.token != Some(s.At(v).pc.token) {
      assert v != w && DifferentTokens(s.At(v).pc, s.At(w).pc);
    }
    UnownedIsFenced(s, r);
  }

  lemma NewlyInterrupted(s: State, step: Step, r: RunId)
    requires Inv(s) && Enabled(s, step) && r in After(s, step).runs && After(s, step).runs[r].interrupted
    ensures r in s.runs && (s.runs[r].interrupted || (step.Conclude? && Condemned(s.At(step.w).pc, r)))
  {
    assert !step.Tick? ==> Tied(s.runs, step.w, s.At(step.w).pc);
  }

  lemma OnlyRecoveryDecides(s: State, step: Step, r: RunId)
    requires Enabled(s, step) && !step.Tick? && !step.Decide? && !step.Conclude?
    requires Condemned(EffectOf(s, step).worker.pc, r)
    ensures Condemned(s.At(step.w).pc, r)
  {
  }

  lemma NewlyCondemned(s: State, step: Step, w: WorkerId, r: RunId)
    requires Inv(s) && Enabled(s, step) && Condemned(After(s, step).At(w).pc, r)
    ensures Condemned(s.At(w).pc, r)
              || (step == Decide(w, r) && Unfinished(s.runs[r]) && Verdict(s.runs[r]).Interrupted?)
  {
    if !step.Tick? && step.w == w && !step.Decide? && !step.Conclude? {
      assert After(s, step).At(w) == EffectOf(s, step).worker;
      OnlyRecoveryDecides(s, step, r);
    }
  }

  lemma CondemnedStep(s: State, step: Step)
    requires Inv(s) && CondemnedAreFenced(s) && Enabled(s, step) && TimelyDecision(s, step)
    ensures CondemnedAreFenced(After(s, step))
  {
    var t := After(s, step);
    forall r | r in t.runs && t.runs[r].interrupted ensures Fenced(t, r) {
      NewlyInterrupted(s, step, r);
      FenceStep(s, step, r);
    }
    forall w, r | Condemned(t.At(w).pc, r) ensures Fenced(t, r) {
      NewlyCondemned(s, step, w, r);
      if !Condemned(s.At(w).pc, r) {
        TimelyDecisionFences(s, w, r);
      }
      FenceStep(s, step, r);
    }
  }

  lemma {:induction false} CondemnedRun(now: int, steps: seq<Step>)
    requires Run(Start(now), steps) && TimelyRecovery(Start(now), steps)
    ensures Inv(Final(Start(now), steps)) && CondemnedAreFenced(Final(Start(now), steps))
  {
    InvStart(now);
    InvRun(Start(now), steps);
    if steps != [] {
      CondemnedRun(now, steps[..|steps| - 1]);
      CondemnedStep(Final(Start(now), steps[..|steps| - 1]), steps[|steps| - 1]);
    }
  }

  /** In every run with timely recovery, a run once marked interrupted never has a provider write,
      before or after, however its old worker and everybody else go on. */
  lemma InterruptedNeverWrites(now: int, steps: seq<Step>, r: RunId, more: seq<Step>)
    requires Run(Start(now), steps) && TimelyRecovery(Start(now), steps)
    requires r in Final(Start(now), steps).runs && Final(Start(now), steps).runs[r].interrupted
    requires Run(Final(Start(now), steps), more)
    ensures var runs := Final(Final(Start(now), steps), more).runs; r in runs && NoSends(runs[r])
  {
    CondemnedRun(now, steps);
    FencedForever(Final(Start(now), steps), more, r);
  }

  // ---- Exactly when a decision is safe --------------------------------------------------------------

  /** In some continuation the run is written. */
  ghost predicate CanBeWritten(s: State, r: RunId) {
    exists steps :: WritesRun(s, r, steps)
  }

  ghost predicate WritesRun(s: State, r: RunId, steps: seq<Step>) {
    Run(s, steps) && r in Final(s, steps).runs && !NoSends(Final(s, steps).runs[r])
  }

  lemma ArmedSends(s: State, steps: seq<Step>, t: State, w: WorkerId)
    requires Leads(s, steps, t) && t.At(w).pc.Executing? && t.At(w).pc.stage.Armed? && InStage(t, t.At(w).pc, true)
    ensures WritesRun(s, t.At(w).pc.run, steps + [Send(w)])
  {
    SendMove(t, w);
    Then(s, steps, t, Send(w));
    var r, i := t.At(w).pc.run, t.At(w).pc.stage.next;
    assert After(t, Send(w)).runs[r].journal.value[i].sent > 0;
  }

  /** An executing worker that still owns the lease row renews before its next write. */
  lemma WriterCanSend(s: State, steps: seq<Step>, t: State, w: WorkerId)
    requires Leads(s, steps, t) && t.At(w).pc.Executing? && t.At(w).pc.stage.Writing? && InStage(t, t.At(w).pc, true)
    requires t.lease.token == Some(t.At(w).pc.token) && t.lease.expires.Some?
    ensures CanBeWritten(s, t.At(w).pc.run)
  {
    var renew := Renew(w, Reading(t), Reading(t));
    RenewMove(t, w, Reading(t));
    Then(s, steps, t, renew);
    ArmedSends(s, steps + [renew], After(t, renew), w);
  }

  lemma ConsumerCanSend(s: State, steps: seq<Step>, t: State, w: WorkerId)
    requires Leads(s, steps, t)
    requires var pc := t.At(w).pc;
             && pc.Executing? && pc.stage.Journaling? && pc.run in t.runs && t.runs[pc.run].plan > 0
             && t.lease.token == Some(pc.token) && t.lease.expires.Some?
    ensures CanBeWritten(s, t.At(w).pc.run)
  {
    var rest := JournalAndRenew(t, w);
    Join(s, steps, t, rest);
    ArmedSends(s, steps + rest, ArmedAfterJournal(t, w), w);
  }

  /** After a completed entry the owner renews before it goes on. */
  lemma RecordedCanSend(s: State, w: WorkerId)
    requires var pc := s.At(w).pc;
             && pc.Executing? && pc.stage.Recorded? && InStage(s, pc, true)
             && s.lease.token == Some(pc.token) && s.lease.expires.Some?
    ensures CanBeWritten(s, s.At(w).pc.run)
  {
    var renew := Renew(w, Reading(s), Reading(s));
    Nothing(s);
    RenewMove(s, w, Reading(s));
    Then(s, [], s, renew);
    WriterCanSend(s, [] + [renew], After(s, renew), w);
  }

  /** From wherever an executing worker stands, if nothing was sent yet. */
  lemma ExecutorCanWrite(s: State, w: WorkerId, r: RunId)
    requires Inv(s) && CanStillSend(s, w, r) && s.At(w).pc.Executing? && NoSends(s.runs[r])
    ensures CanBeWritten(s, r)
  {
    var pc := s.At(w).pc;
    assert Tied(s.runs, w, pc);
    Nothing(s);
    match pc.stage
    case Journaling => ConsumerCanSend(s, [], s, w);
    case Writing(_) => WriterCanSend(s, [], s, w);
    case Armed(_) => ArmedSends(s, [], s, w);
    case Recorded(_) => RecordedCanSend(s, w);
    case InFlight(_) => assert false;
    case Acked(_) => assert false;
  }

  /** An author that still owns the lease row can finish the review and let go; then anyone can apply it. */
  lemma AuthorCanWrite(s: State, w: WorkerId)
    requires Inv(s) && s.At(w).pc.Drafting? && s.lease.token == Some(s.At(w).pc.token)
    ensures CanBeWritten(s, s.At(w).pc.run)
  {
    assert Tied(s.runs, w, s.At(w).pc) && SeenOk(s.At(w).pc, |s.baselines|);
    var r, t := s.At(w).pc.run, PlannedBy(s, w, 1);
    var steps := PlanAndRelease(s, w, 1);
    var rest := ApplyUpToSend(t, w, r);
    Join(s, steps, t, rest);
    ArmedSends(s, steps + rest, ArmedAfterJournal(ConsumedBy(t, w, r), w), w);
  }

  /** Any worker that was idle can apply a review that no baseline has overtaken. */
  lemma ReviewCanWrite(s: State, r: RunId)
    requires Inv(s) && Applicable(s, r)
    ensures CanBeWritten(s, r)
  {
    assert RowOk(s.runs[r]);
    var n := FreshBound(s.workers.Keys);
    var w, t := WorkerId(n), After(s, Tick(Wait(s)));
    TickMove(s, Wait(s));
    Nothing(s);
    Then(s, [], s, Tick(Wait(s)));
    var rest := ApplyUpToSend(t, w, r);
    Join(s, [] + [Tick(Wait(s))], t, rest);
    ArmedSends(s, [] + [Tick(Wait(s))] + rest, ArmedAfterJournal(ConsumedBy(t, w, r), w), w);
  }

  /** A worker past the check of the review consumes the approval, and has the lease to go on. */
  lemma ConfirmedCanWrite(s: State, w: WorkerId, r: RunId)
    requires Inv(s) && s.At(w).pc.Consuming? && CanStillSend(s, w, r)
    ensures CanBeWritten(s, r)
  {
    assert RowOk(s.runs[r]) && Tied(s.runs, w, s.At(w).pc);
    Nothing(s);
    ConsumeMove(s, w);
    Then(s, [], s, Consume(w));
    ConsumerCanSend(s, [] + [Consume(w)], After(s, Consume(w)), w);
  }

  lemma SenderCanWrite(s: State, w: WorkerId, r: RunId)
    requires Inv(s) && CanStillSend(s, w, r) && NoSends(s.runs[r])
    ensures CanBeWritten(s, r)
  {
    if s.At(w).pc.Drafting? {
      AuthorCanWrite(s, w);
    } else if s.At(w).pc.Consuming? {
      ConfirmedCanWrite(s, w, r);
    } else {
      ExecutorCanWrite(s, w, r);
    }
  }

  /** Whether a run can still be written, in any reachable state: it was written already, it is a review
      that awaits approval and no baseline has overtaken, or some worker on it has writes left and has just
      renewed or still has its token on the lease row. So this decides whether calling it interrupted is
      right, or still right. */
  lemma WriteStillPossibleIff(now: int, before: seq<Step>, s: State, r: RunId)
    requires Run(Start(now), before) && s == Final(Start(now), before) && r in s.runs
    ensures CanBeWritten(s, r) <==> !NoSends(s.runs[r]) || Applicable(s, r) || exists w :: CanStillSend(s, w, r)
  {
    InvStart(now);
    InvRun(Start(now), before);
    Nothing(s);
    if !NoSends(s.runs[r]) {
      assert WritesRun(s, r, []);
    } else if Applicable(s, r) {
      ReviewCanWrite(s, r);
    } else if w :| CanStillSend(s, w, r) {
      SenderCanWrite(s, w, r);
    } else {
      forall steps | Run(s, steps) ensures !WritesRun(s, r, steps) {
        FencedForever(s, steps, r);
      }
    }
  }
}
