/** What a provider write implies for automatic evaluations. */
module ApplyAfterWrites {
  import opened Prelude
  import Leases
  import opened ApplyProtocol
  import opened ApplySafety
  import opened ApplyMoves
  import opened ApplyFencing
  import opened ApplyHold

  predicate Owns(s: State, pc: Pc) {
    pc.Holds() && s.lease.token == Some(pc.token)
  }

  // ---- Exactly when a write is held ---------------------------------------------------------------

  /** Right after a provider write: its run blocks automatic evaluations until a newer baseline is saved if
      and only if no baseline is newer than the start of the run, its status still says failed or applying,
      and nobody is about to overwrite that status unseen. */
  lemma WriteIsHeldIff(now: int, before: seq<Step>, s: State, w: WorkerId)
    requires Run(Start(now), before) && s == Final(Start(now), before) && Enabled(s, Send(w))
    ensures var r := s.At(w).pc.run;
            BlocksForever(After(s, Send(w)), r)
            <==> NotOlder(s, r) && Uncertain(s.runs[r]) && forall v :: !Overwrites(s.At(v).pc, r)
  {
    InvStart(now);
    InvRun(Start(now), before);
    InvStep(s, Send(w));
    HoldLasts(After(s, Send(w)), s.At(w).pc.run);
    SendMove(s, w);
    SendKeepsOverwriters(s, w);
  }

  lemma SendKeepsOverwriters(s: State, w: WorkerId)
    requires Enabled(s, Send(w))
    ensures forall v, x :: Overwrites(After(s, Send(w)).At(v).pc, x) <==> Overwrites(s.At(v).pc, x)
  {
    SendMove(s, w);
  }

  // ---- When no baseline is newer -------------------------------------------------------------------

  /** A baseline is saved while the token of its worker is still on the lease row. */
  ghost predicate SavesUnderLease(s: State, step: Step)
    requires Enabled(s, step)
  {
    SavesBaseline(step) ==> Owns(s, s.At(step.w).pc)
  }

  ghost predicate OwnedSaves(s: State, steps: seq<Step>)
    requires Run(s, steps)
  {
    steps != [] ==>
      && OwnedSaves(s, steps[..|steps| - 1])
      && SavesUnderLease(Final(s, steps[..|steps| - 1]), steps[|steps| - 1])
  }

  predicate NotAfter(baselines: seq<int>, n: nat, time: int) {
    n <= |baselines| && forall k :: 0 <= k < n ==> baselines[k] <= time
  }

  /** The owner of the lease has seen every baseline there is. */
  predicate UpToDate(s: State, pc: Pc) {
    match pc
    case Drafting(_, r, seen) =>
      r in s.runs && NotAfter(s.baselines, seen, s.runs[r].startedAt) && (Owns(s, pc) ==> seen == |s.baselines|)
    case Consuming(_, r) => r in s.runs && (Owns(s, pc) ==> s.runs[r].base == |s.baselines|)
    case Executing(_, r, _) => r in s.runs && (Owns(s, pc) ==> s.runs[r].base == |s.baselines|)
    case _ => true
  }

  ghost predicate InOrder(s: State) {
    && NotAfter(s.baselines, |s.baselines|, s.now)
    && (forall r :: r in s.runs ==> NotAfter(s.baselines, s.runs[r].base, s.runs[r].startedAt))
    && (forall w :: UpToDate(s, s.At(w).pc))
  }

  /** What an effect must not do to the view of the lease's owner. */
  predicate KeepsOrder(s: State, w: WorkerId, e: Effect) {
    && (e.saved ==> Owns(s, s.At(w).pc))
    && (e.touched.Some? ==> NotAfter(s.baselines, e.touched.value.row.base, e.touched.value.row.startedAt))
    && UpToDate(Apply(s, w, e), e.worker.pc)
  }

  lemma OthersStayUpToDate(s: State, w: WorkerId, e: Effect, v: WorkerId)
    requires Inv(s) && InOrder(s) && EffectOk(s, w, e) && KeepsOrder(s, w, e) && v != w
    ensures UpToDate(Apply(s, w, e), s.At(v).pc)
  {
    var pc := s.At(v).pc;
    assert UpToDate(s, pc) && Tied(s.runs, v, pc) && TokenKnown(pc, s.next);
    assert DifferentTokens(pc, s.At(w).pc);
    if e.touched.Some? && e.touched.value.run in s.runs {
      assert RowOk(s.runs[e.touched.value.run]);
    }
  }

  lemma EffectKeepsOrder(s: State, w: WorkerId, e: Effect)
    requires Inv(s) && InOrder(s) && EffectOk(s, w, e) && KeepsOrder(s, w, e)
    ensures InOrder(Apply(s, w, e))
  {
    var t := Apply(s, w, e);
    forall v ensures UpToDate(t, t.At(v).pc) {
      if v != w {
        assert t.At(v) == s.At(v);
        OthersStayUpToDate(s, w, e, v);
      }
    }
  }

  lemma TurnKeepsOrder(s: State, step: Step)
    requires Inv(s) && InOrder(s) && Enabled(s, step) && IsExecuting(step) && SavesUnderLease(s, step)
    ensures KeepsOrder(s, step.w, EffectOf(s, step))
  {
    assert UpToDate(s, s.At(step.w).pc) && Tied(s.runs, step.w, s.At(step.w).pc);
  }

  lemma DraftKeepsOrder(s: State, step: Step)
    requires Inv(s) && InOrder(s) && Enabled(s, step) && Drafts(step) && SavesUnderLease(s, step)
    ensures KeepsOrder(s, step.w, EffectOf(s, step))
  {
    assert UpToDate(s, s.At(step.w).pc) && Tied(s.runs, step.w, s.At(step.w).pc);
  }

  lemma MarkKeepsOrder(s: State, step: Step)
    requires Inv(s) && InOrder(s) && Enabled(s, step) && TouchesRow(step) && !Drafts(step) && SavesUnderLease(s, step)
    ensures KeepsOrder(s, step.w, EffectOf(s, step))
  {
    assert UpToDate(s, s.At(step.w).pc) && Tied(s.runs, step.w, s.At(step.w).pc);
  }

  lemma TouchKeepsOrder(s: State, step: Step)
    requires Inv(s) && InOrder(s) && Enabled(s, step) && TouchesRow(step) && SavesUnderLease(s, step)
    ensures KeepsOrder(s, step.w, EffectOf(s, step))
  {
    if Drafts(step) {
      DraftKeepsOrder(s, step);
    } else {
      MarkKeepsOrder(s, step);
    }
  }

  lemma MoveKeepsOrder(s: State, step: Step)
    requires Inv(s) && InOrder(s) && Enabled(s, step) && !step.Tick? && !IsExecuting(step) && !TouchesRow(step)
               && SavesUnderLease(s, step)
    ensures KeepsOrder(s, step.w, EffectOf(s, step))
  {
    assert UpToDate(s, s.At(step.w).pc) && Tied(s.runs, step.w, s.At(step.w).pc);
  }

  lemma InOrderStep(s: State, step: Step)
    requires Inv(s) && InOrder(s) && Enabled(s, step) && SavesUnderLease(s, step)
    ensures InOrder(After(s, step))
  {
    if step.Tick? {
      var t := After(s, step);
      forall w ensures UpToDate(t, t.At(w).pc) {
        assert UpToDate(s, s.At(w).pc);
      }
    } else {
      StepEffectOk(s, step);
      if IsExecuting(step) {
        TurnKeepsOrder(s, step);
      } else if TouchesRow(step) {
        TouchKeepsOrder(s, step);
      } else {
        MoveKeepsOrder(s, step);
      }
      EffectKeepsOrder(s, step.w, EffectOf(s, step));
    }
  }

  lemma {:induction false} InOrderRun(now: int, steps: seq<Step>)
    requires Run(Start(now), steps) && OwnedSaves(Start(now), steps)
    ensures Inv(Final(Start(now), steps)) && InOrder(Final(Start(now), steps))
  {
    InvStart(now);
    InvRun(Start(now), steps);
    if steps != [] {
      InOrderRun(now, steps[..|steps| - 1]);
      InOrderStep(Final(Start(now), steps[..|steps| - 1]), steps[|steps| - 1]);
    }
  }

  /** If baselines are saved only under the lease, a worker that sends while it still has the lease writes
      for a run that no baseline is newer than. */
  lemma NoNewerBaselineAtSend(now: int, before: seq<Step>, s: State, w: WorkerId)
    requires Run(Start(now), before) && s == Final(Start(now), before) && OwnedSaves(Start(now), before)
    requires Enabled(s, Send(w)) && Owns(s, s.At(w).pc)
    ensures NotOlder(s, s.At(w).pc.run)
  {
    InOrderRun(now, before);
    assert UpToDate(s, s.At(w).pc);
  }

  // ---- Rejections -----------------------------------------------------------------------------------

  /** A failed preflight marks its run while its token is still on the lease row. */
  ghost predicate RejectsUnderLease(s: State, step: Step)
    requires Enabled(s, step)
  {
    step.Reject? ==> Owns(s, s.At(step.w).pc)
  }

  ghost predicate OwnedRejections(s: State, steps: seq<Step>)
    requires Run(s, steps)
  {
    steps != [] ==>
      && OwnedRejections(s, steps[..|steps| - 1])
      && RejectsUnderLease(Final(s, steps[..|steps| - 1]), steps[|steps| - 1])
  }

  predicate ArmedFor(pc: Pc, r: RunId) {
    IsArmed(pc) && pc.run == r
  }

  /** Nothing was sent for the run and nothing is about to be. */
  ghost predicate Unsent(s: State, r: RunId) {
    r in s.runs && NoSends(s.runs[r]) && forall w :: !ArmedFor(s.At(w).pc, r)
  }

  /** A rejected run is never written, and neither is one that the lease's owner is about to reject. */
  ghost predicate RejectedAreFenced(s: State) {
    && (forall r :: r in s.runs && s.runs[r].drafted && s.runs[r].status.ReviewFailed? ==> Fenced(s, r))
    && (forall v, r :: WouldReject(s.At(v).pc, r) && Owns(s, s.At(v).pc) ==> Unsent(s, r))
  }

  lemma LostForever(s: State, step: Step, pc: Pc)
    requires Inv(s) && Enabled(s, step) && TokenKnown(pc, s.next) && !Owns(s, pc)
    ensures !Owns(After(s, step), pc)
  {
    if !step.Tick? {
      StepEffectOk(s, step);
    }
  }

  lemma NoTurnRejects(s: State, step: Step, r: RunId)
    requires Enabled(s, step) && IsExecuting(step)
    ensures !WouldReject(EffectOf(s, step).worker.pc, r)
  {
  }

  lemma NoTouchRejects(s: State, step: Step, r: RunId)
    requires Enabled(s, step) && TouchesRow(step) && WouldReject(EffectOf(s, step).worker.pc, r)
    ensures EffectOf(s, step).worker.pc == s.At(step.w).pc
  {
  }

  lemma StillRejecting(s: State, step: Step, r: RunId)
    requires Enabled(s, step) && !step.Tick? && WouldReject(EffectOf(s, step).worker.pc, r)
    ensures || EffectOf(s, step).worker.pc == s.At(step.w).pc
            || (step.BeginReject? && r in s.runs && s.runs[r].status.Planned? && EffectOf(s, step).touched.None?)
  {
    if IsExecuting(step) {
      NoTurnRejects(s, step, r);
    } else if TouchesRow(step) {
      NoTouchRejects(s, step, r);
    }
  }

  /** A worker about to reject a run either was before the step or has just found it planned. */
  lemma WhoRejects(s: State, step: Step, v: WorkerId, r: RunId)
    requires Enabled(s, step) && WouldReject(After(s, step).At(v).pc, r)
    ensures || After(s, step).At(v).pc == s.At(v).pc
            || (r in s.runs && s.runs[r].status.Planned? && After(s, step).runs == s.runs
                && forall x :: x != v ==> After(s, step).At(x) == s.At(x))
  {
    if !step.Tick? && step.w == v {
      assert After(s, step).At(v) == EffectOf(s, step).worker;
      StillRejecting(s, step, r);
    }
  }

  lemma PlannedIsUnsent(s: State, r: RunId)
    requires Inv(s) && r in s.runs && s.runs[r].status.Planned?
    ensures Unsent(s, r)
  {
    assert RowOk(s.runs[r]);
    forall w ensures !ArmedFor(s.At(w).pc, r) {
      assert Tied(s.runs, w, s.At(w).pc);
    }
  }

  predicate KeepsUnsent(e: Effect, r: RunId) {
    (e.touched.Some? && e.touched.value.run == r ==> NoSends(e.touched.value.row)) && !ArmedFor(e.worker.pc, r)
  }

  lemma UnsentRenewal(s: State, step: Step, r: RunId)
    requires Inv(s) && Enabled(s, step) && Unsent(s, r) && (step.Renew? || step.Send?) && !Owns(s, s.At(step.w).pc)
    ensures KeepsUnsent(EffectOf(s, step), r)
  {
    assert !ArmedFor(s.At(step.w).pc, r);
  }

  lemma UnsentTurn(s: State, step: Step, r: RunId)
    requires Inv(s) && Enabled(s, step) && Unsent(s, r) && IsExecuting(step) && !step.Renew? && !step.Send?
    ensures KeepsUnsent(EffectOf(s, step), r)
  {
    if step.CommitSkips? || step.Finish? {
      UnsentEnd(s, step, r);
    }
  }

  lemma UnsentEnd(s: State, step: Step, r: RunId)
    requires Inv(s) && Enabled(s, step) && Unsent(s, r) && (step.CommitSkips? || step.Finish?)
    ensures KeepsUnsent(EffectOf(s, step), r)
  {
  }

  lemma UnsentDraft(s: State, step: Step, r: RunId)
    requires Inv(s) && Enabled(s, step) && Unsent(s, r) && Drafts(step)
    ensures KeepsUnsent(EffectOf(s, step), r)
  {
    assert !ArmedFor(s.At(step.w).pc, r);
  }

  lemma UnsentJournalMark(s: State, step: Step, r: RunId)
    requires Inv(s) && Enabled(s, step) && Unsent(s, r) && TouchesRow(step) && !Drafts(step)
    requires WritesJournal(step)
    ensures KeepsUnsent(EffectOf(s, step), r)
  {
    assert !ArmedFor(s.At(step.w).pc, r);
  }

  lemma UnsentStatusMark(s: State, step: Step, r: RunId)
    requires Inv(s) && Enabled(s, step) && Unsent(s, r) && TouchesRow(step) && !Drafts(step)
    requires !WritesJournal(step)
    ensures KeepsUnsent(EffectOf(s, step), r)
  {
    assert !ArmedFor(s.At(step.w).pc, r);
  }

  lemma UnsentMark(s: State, step: Step, r: RunId)
    requires Inv(s) && Enabled(s, step) && Unsent(s, r) && TouchesRow(step) && !Drafts(step)
    ensures KeepsUnsent(EffectOf(s, step), r)
  {
    if WritesJournal(step) {
      UnsentJournalMark(s, step, r);
    } else {
      UnsentStatusMark(s, step, r);
    }
  }

  lemma UnsentTouch(s: State, step: Step, r: RunId)
    requires Inv(s) && Enabled(s, step) && Unsent(s, r) && TouchesRow(step)
    ensures KeepsUnsent(EffectOf(s, step), r)
  {
    if Drafts(step) {
      UnsentDraft(s, step, r);
    } else {
      UnsentMark(s, step, r);
    }
  }

  lemma UnsentMove(s: State, step: Step, r: RunId)
    requires Enabled(s, step) && Unsent(s, r) && !IsExecuting(step) && !TouchesRow(step) && !step.Tick?
    ensures KeepsUnsent(EffectOf(s, step), r)
  {
  }

  lemma UnsentEffect(s: State, w: WorkerId, e: Effect, r: RunId)
    requires Unsent(s, r) && KeepsUnsent(e, r)
    ensures Unsent(Apply(s, w, e), r)
  {
    forall v ensures !ArmedFor(Apply(s, w, e).At(v).pc, r) {
      assert !ArmedFor(s.At(v).pc, r);
    }
  }

  /** While the lease's owner is about to reject the run, nobody else can renew, so nobody gets to write. */
  lemma UnsentStep(s: State, step: Step, v: WorkerId, r: RunId)
    requires Inv(s) && Enabled(s, step) && Unsent(s, r) && WouldReject(s.At(v).pc, r) && Owns(s, s.At(v).pc)
    ensures Unsent(After(s, step), r)
  {
    if step.Tick? {
      UnsentTransfers(s, After(s, step), v, r);
    } else {
      if step.Renew? || step.Send? {
        assert step.w != v && DifferentTokens(s.At(step.w).pc, s.At(v).pc);
        UnsentRenewal(s, step, r);
      } else if IsExecuting(step) {
        UnsentTurn(s, step, r);
      } else if TouchesRow(step) {
        UnsentTouch(s, step, r);
      } else {
        UnsentMove(s, step, r);
      }
      UnsentEffect(s, step.w, EffectOf(s, step), r);
    }
  }

  lemma UnsentTransfers(s: State, t: State, v: WorkerId, r: RunId)
    requires Unsent(s, r) && t.runs == s.runs && !IsArmed(t.At(v).pc) && forall x :: x != v ==> t.At(x) == s.At(x)
    ensures Unsent(t, r)
  {
    forall w ensures !ArmedFor(t.At(w).pc, r) {
      assert !ArmedFor(s.At(w).pc, r);
    }
  }

  /** A rejection by the lease's owner fences the run. */
  lemma RejectFences(s: State, v: WorkerId)
    requires Inv(s) && Enabled(s, Reject(v)) && Owns(s, s.At(v).pc) && Unsent(s, s.At(v).pc.run)
    ensures Fenced(After(s, Reject(v)), s.At(v).pc.run)
  {
    RejectMove(s, v);
    var t, r := After(s, Reject(v)), s.At(v).pc.run;
    forall w ensures !CanStillSend(t, w, r) {
      assert !ArmedFor(s.At(w).pc, r) && (w != v ==> DifferentTokens(s.At(w).pc, s.At(v).pc));
    }
  }

  lemma NewlyRejected(s: State, step: Step, r: RunId)
    requires Inv(s) && Enabled(s, step) && r in After(s, step).runs
    requires After(s, step).runs[r].drafted && After(s, step).runs[r].status.ReviewFailed?
    ensures || (r in s.runs && s.runs[r].drafted && s.runs[r].status.ReviewFailed?)
            || (step.Reject? && WouldReject(s.At(step.w).pc, r))
  {
    assert !step.Tick? ==> Tied(s.runs, step.w, s.At(step.w).pc);
  }

  lemma RejectedStep(s: State, step: Step)
    requires Inv(s) && RejectedAreFenced(s) && Enabled(s, step) && RejectsUnderLease(s, step)
    ensures RejectedAreFenced(After(s, step))
  {
    var t := After(s, step);
    forall r | r in t.runs && t.runs[r].drafted && t.runs[r].status.ReviewFailed? ensures Fenced(t, r) {
      NewlyRejected(s, step, r);
      if r in s.runs && s.runs[r].drafted && s.runs[r].status.ReviewFailed? {
        FenceStep(s, step, r);
      } else {
        RejectFences(s, step.w);
      }
    }
    forall v, r | WouldReject(t.At(v).pc, r) && Owns(t, t.At(v).pc) ensures Unsent(t, r) {
      RejecterStep(s, step, v, r);
    }
  }

  lemma RejecterStep(s: State, step: Step, v: WorkerId, r: RunId)
    requires Inv(s) && RejectedAreFenced(s) && Enabled(s, step)
    requires WouldReject(After(s, step).At(v).pc, r) && Owns(After(s, step), After(s, step).At(v).pc)
    ensures Unsent(After(s, step), r)
  {
    WhoRejects(s, step, v, r);
    if After(s, step).At(v).pc == s.At(v).pc {
      assert TokenKnown(s.At(v).pc, s.next);
      if !Owns(s, s.At(v).pc) {
        LostForever(s, step, s.At(v).pc);
      }
      UnsentStep(s, step, v, r);
    } else {
      PlannedIsUnsent(s, r);
      UnsentTransfers(s, After(s, step), v, r);
    }
  }

  lemma {:induction false} RejectedRun(now: int, steps: seq<Step>)
    requires Run(Start(now), steps) && OwnedRejections(Start(now), steps)
    ensures Inv(Final(Start(now), steps)) && RejectedAreFenced(Final(Start(now), steps))
  {
    InvStart(now);
    InvRun(Start(now), steps);
    if steps != [] {
      RejectedRun(now, steps[..|steps| - 1]);
      RejectedStep(Final(Start(now), steps[..|steps| - 1]), steps[|steps| - 1]);
    }
  }

  // ---- After a write --------------------------------------------------------------------------------

  /** The run stays uncertain, and whoever is about to reject it has lost the lease. */
  ghost predicate HeldByLease(s: State, r: RunId) {
    Stuck(s, r) && forall w :: WouldReject(s.At(w).pc, r) ==> !Owns(s, s.At(w).pc)
  }

  lemma ArmedIsNotFenced(s: State, w: WorkerId)
    requires Inv(s) && Enabled(s, Send(w))
    ensures CanStillSend(s, w, s.At(w).pc.run) && !Fenced(s, s.At(w).pc.run) && !Unsent(s, s.At(w).pc.run)
  {
    var r := s.At(w).pc.run;
    assert Tied(s.runs, w, s.At(w).pc);
    assert MayWrite(s.runs, s.At(w).pc, r) && CanStillSend(s, w, r);
    assert ArmedFor(s.At(w).pc, r);
  }

  /** A run that is written was neither rejected nor called interrupted, and nobody may still do so. */
  lemma WriteHolds(s: State, w: WorkerId)
    requires Inv(s) && CondemnedAreFenced(s) && RejectedAreFenced(s) && Enabled(s, Send(w))
    ensures HeldByLease(After(s, Send(w)), s.At(w).pc.run)
  {
    var r := s.At(w).pc.run;
    ArmedIsNotFenced(s, w);
    assert Tied(s.runs, w, s.At(w).pc) && RowOk(s.runs[r]);
    SendMove(s, w);
    var t := After(s, Send(w));
    forall v ensures !Condemned(t.At(v).pc, r) && (WouldReject(t.At(v).pc, r) ==> !Owns(t, t.At(v).pc)) {
      assert !Condemned(s.At(v).pc, r);
      assert v != w ==> t.At(v) == s.At(v);
    }
  }

  lemma HeldByLeaseStep(s: State, step: Step, r: RunId)
    requires Inv(s) && Enabled(s, step) && RejectsUnderLease(s, step) && HeldByLease(s, r) && !SavesBaseline(step)
    ensures HeldByLease(After(s, step), r) && After(s, step).runs[r].startedAt == s.runs[r].startedAt
    ensures After(s, step).baselines == s.baselines
  {
    assert step.Reject? ==> !WouldReject(s.At(step.w).pc, r);
    StuckStep(s, step, r);
    var t := After(s, step);
    forall w | WouldReject(t.At(w).pc, r) ensures !Owns(t, t.At(w).pc) {
      RejectersAreOld(s, step, w, r);
      WhoRejects(s, step, w, r);
      assert TokenKnown(s.At(w).pc, s.next);
      LostForever(s, step, s.At(w).pc);
    }
  }

  lemma AutoOnlyByClear(s: State, step: Step, v: WorkerId)
    requires Enabled(s, step) && !MayStart(s) && !s.At(v).auto
    ensures !After(s, step).At(v).auto
  {
    if !step.Tick? && step.w == v {
      assert After(s, step).At(v) == EffectOf(s, step).worker;
      ClearSetsAuto(s, step);
    }
  }

  lemma ClearSetsAuto(s: State, step: Step)
    requires Enabled(s, step) && !step.Tick? && !s.At(step.w).auto && !MayStart(s)
    ensures !EffectOf(s, step).worker.auto
  {
  }

  lemma BlocksMeansHeld(s: State, r: RunId)
    requires Blocks(s, r)
    ensures !MayStart(s)
  {
    MayStartUnlessBlocked(s);
  }

  lemma {:induction false} HeldByLeaseRun(s: State, steps: seq<Step>, r: RunId, v: WorkerId)
    requires Inv(s) && HeldByLease(s, r) && NotOlder(s, r)
    requires Run(s, steps) && OwnedRejections(s, steps) && |Final(s, steps).baselines| == |s.baselines|
    ensures var t := Final(s, steps);
            HeldByLease(t, r) && t.baselines == s.baselines && t.runs[r].startedAt == s.runs[r].startedAt
    ensures !s.At(v).auto ==> !Final(s, steps).At(v).auto
  {
    if steps != [] {
      var front, last := steps[..|steps| - 1], steps[|steps| - 1];
      BaselinesGrowRun(s, front);
      BaselinesGrow(Final(s, front), last);
      HeldByLeaseRun(s, front, r, v);
      InvRun(s, front);
      HeldByLeaseStep(Final(s, front), last, r);
      BlocksMeansHeld(Final(s, front), r);
      if !s.At(v).auto {
        AutoOnlyByClear(Final(s, front), last, v);
      }
    }
  }

  /** After a provider write for a run that no baseline is newer than, until a newer baseline is saved, no
      automatic evaluation may start, and no worker that was not already inside one gets to be: none that
      begins later sends a write. Needed of the past: recovery decides, and a failed preflight marks its
      run, only under their leases; of the future only the latter. */
  lemma NoAutomaticStartAfterWrite(now: int, before: seq<Step>, s: State, w: WorkerId, more: seq<Step>, v: WorkerId)
    requires Run(Start(now), before) && s == Final(Start(now), before)
    requires TimelyRecovery(Start(now), before) && OwnedRejections(Start(now), before)
    requires Enabled(s, Send(w)) && NotOlder(s, s.At(w).pc.run)
    requires var t := After(s, Send(w));
             Run(t, more) && OwnedRejections(t, more) && |Final(t, more).baselines| == |t.baselines|
    ensures var t := After(s, Send(w));
            !MayStart(Final(t, more)) && (!t.At(v).auto ==> !Final(t, more).At(v).auto)
  {
    var t, r := After(s, Send(w)), s.At(w).pc.run;
    CondemnedRun(now, before);
    RejectedRun(now, before);
    WriteHolds(s, w);
    InvStep(s, Send(w));
    SendMove(s, w);
    HeldByLeaseRun(t, more, r, v);
    BlocksMeansHeld(Final(t, more), r);
  }
}
