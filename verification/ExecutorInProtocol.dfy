/** The executor refines the protocol: whatever it logs is what its worker does in some run, with anything
    that other workers and the clock do in between. */
module ExecutorInProtocol {
  import opened Prelude
  import Leases
  import opened TrackIdentity
  import opened ApplyProtocol
  import opened ApplySafety
  import opened ApplyMoves
  import opened Reconciliation
  import E = Executor

  /** A logged event without the recording and the snapshot. */
  datatype Seen =
    | Renewal
    | Write(ordinal: nat)
    | Answer(ordinal: nat)
    | Refusal(ordinal: nat)
    | Completion(ordinal: nat)

  function Plainly(e: E.Event): Seen {
    match e
    case Renewed => Renewal
    case Sent(i, _, _) => Write(i)
    case Acknowledged(i, _) => Answer(i)
    case Refused(i) => Refusal(i)
    case Completed(i) => Completion(i)
  }

  function Log(events: seq<E.Event>): seq<Seen> {
    seq(|events|, i requires 0 <= i < |events| => Plainly(events[i]))
  }

  /** What a step of the worker shows in the log. A failed renewal, and the renewal after a completed entry,
      show nothing. */
  function Shows(s: State, step: Step, w: WorkerId): seq<Seen> {
    if step.Tick? || step.w != w || !s.At(w).pc.Executing? then []
    else match (step, s.At(w).pc.stage)
         case (Renew(_, reading, _), Writing(_)) =>
           if Leases.Owned(s.lease, s.At(w).pc.token, reading) then [Renewal] else []
         case (Send(_), Armed(i)) => [Write(i)]
         case (Acknowledge(_), InFlight(i)) => [Answer(i)]
         case (Refuse(_), InFlight(i)) => [Refusal(i)]
         case (Complete(_), Acked(i)) => [Completion(i)]
         case _ => []
  }

  /** What a run of the protocol shows of one worker. */
  ghost function Trace(s: State, steps: seq<Step>, w: WorkerId): seq<Seen>
    requires Run(s, steps)
  {
    if steps == [] then []
    else Trace(s, steps[..|steps| - 1], w) + Shows(Final(s, steps[..|steps| - 1]), steps[|steps| - 1], w)
  }

  // ---- What the executor needs of its surroundings --------------------------------------------------------

  /** Where the worker has come to: a stage of its write loop; or out of it, because the lease row refused its
      renewal, or because something else was raised. */
  datatype Spot = At(stage: Stage) | Lost | Out

  /** Whether the worker can come to a spot, having shown the given events. */
  type Reach = (Spot, seq<Seen>) -> bool

  /** The stages of one action follow each other as the program's statements do; its renewal leads on, unless it
      is refused. */
  ghost predicate TurnDriven(can: Reach, i: nat, seen: seq<Seen>) {
    && (can(At(Writing(i)), seen) ==>
          can(At(Writing(i + 1)), seen) && (can(At(Armed(i)), seen + [Renewal]) || can(Lost, seen)))
    && (can(At(Armed(i)), seen) ==> can(At(InFlight(i)), seen + [Write(i)]))
    && (can(At(InFlight(i)), seen) ==>
          can(At(Acked(i)), seen + [Answer(i)]) && can(At(Writing(i + 1)), seen + [Refusal(i)]))
    && (can(At(Acked(i)), seen) ==> can(At(Recorded(i + 1)), seen + [Completion(i)]))
  }

  /** Any stage may end by an exception, and a completed entry is followed by a renewal. */
  ghost predicate StageDriven(can: Reach, stage: Stage, seen: seq<Seen>) {
    can(At(stage), seen) ==>
      can(Out, seen) && (stage.Recorded? ==> can(At(Writing(stage.next)), seen) || can(Lost, seen))
  }

  /** What the write loop of n actions needs. */
  ghost predicate Drives(can: Reach, n: nat) {
    && (forall i: nat, seen :: i < n ==> TurnDriven(can, i, seen))
    && (forall stage, seen :: StageDriven(can, stage, seen))
  }

  /** Ordinals that the preflight skipped. */
  lemma {:induction false} SkipsTo(can: Reach, n: nat, i: nat, j: nat, seen: seq<Seen>)
    requires Drives(can, n) && i <= j <= n && can(At(Writing(i)), seen)
    ensures can(At(Writing(j)), seen)
    decreases j - i
  {
    if i < j {
      assert TurnDriven(can, i, seen);
      SkipsTo(can, n, i + 1, j, seen);
    }
  }

  /** How the write of one ordinal goes on: no usable answer; accepted, with what the program then manages
      to commit; or refused, and whether it manages to forget the mapping. */
  datatype Course = Breaks | Settles(committed: bool) | Declines(committed: bool)

  function CourseOf(item: E.Prepared, failOnUnavailable: bool, env: E.Env): Course {
    var i := item.ordinal;
    match env.reply(i)
    case Accepted(_) => Settles((item.action.kind.AddTrack? ==> env.saves(i)) && env.commits(i))
    case Broken => Breaks
    case Unavailable =>
      if item.action.kind.RemoveTrack? || failOnUnavailable then Breaks else Declines(env.saves(i))
  }

  /** What a turn shows after the renewal before it succeeded. */
  function Shown(i: nat, course: Course): seq<Seen> {
    [Renewal, Write(i)] +
    match course
    case Breaks => []
    case Settles(committed) => [Answer(i)] + if committed then [Completion(i)] else []
    case Declines(committed) => if committed then [Refusal(i)] else []
  }

  /** How a turn of the loop, or a whole apply, ends: a renewal can be refused, or something else raised. */
  datatype Ending = GoesOn | LeaseLost | Raised

  /** By what became of the write, and the answers to the renewals before and after it. */
  function EndingOf(course: Course, before: bool, after: bool): Ending {
    if !before then LeaseLost
    else match course
         case Breaks => Raised
         case Settles(committed) => if !committed then Raised else if after then GoesOn else LeaseLost
         case Declines(committed) => if committed then GoesOn else Raised
  }

  function TurnEnding(item: E.Prepared, failOnUnavailable: bool, env: E.Env): Ending {
    EndingOf(CourseOf(item, failOnUnavailable, env), env.renewsBefore(item.ordinal), env.renewsAfter(item.ordinal))
  }

  function WritesEnding(prepared: seq<E.Prepared>, failOnUnavailable: bool, env: E.Env, k: nat): Ending
    requires k <= |prepared|
  {
    if k == 0 then GoesOn
    else
      var ending := WritesEnding(prepared, failOnUnavailable, env, k - 1);
      if ending.GoesOn? then TurnEnding(prepared[k - 1], failOnUnavailable, env) else ending
  }

  /** A refused approval or a failed preflight raises before the first renewal. */
  function ExecutionEnding(actions: seq<Action>, res: Resolutions, env: E.Env, approved: bool, skipUnresolved: bool,
                           failOnUnavailable: bool): Ending
  {
    if !approved then Raised
    else match E.Prepare(actions, res, env, skipUnresolved, |actions|)
         case Aborted => Raised
         case Ready(prepared, _) => WritesEnding(prepared, failOnUnavailable, env, |prepared|)
  }

  /** The same of the executor. */
  lemma TurnShown(p: E.Progress, item: E.Prepared, failOnUnavailable: bool, env: E.Env)
    requires !p.raised
    ensures var q := E.Turn(p, item, failOnUnavailable, env); var i := item.ordinal;
            && Log(q.events)
               == Log(p.events)
                  + (if env.renewsBefore(i) then Shown(i, CourseOf(item, failOnUnavailable, env)) else [])
            && (!q.raised <==> TurnEnding(item, failOnUnavailable, env).GoesOn?)
  {
    if env.renewsBefore(item.ordinal) {
      var sent := p.(events := p.events + [E.Renewed] + [E.SentFor(p, item)]);
      match env.reply(item.ordinal)
      case Accepted(snapshot) => SettleShown(sent, item, snapshot, env);
      case _ =>
    }
  }

  lemma SettleShown(p: E.Progress, item: E.Prepared, snapshot: Option<Name>, env: E.Env)
    requires !p.raised
    ensures var q := E.Settle(p, item, snapshot, env); var i := item.ordinal;
            var committed := (item.action.kind.AddTrack? ==> env.saves(i)) && env.commits(i);
            && Log(q.events) == Log(p.events) + [Answer(i)] + (if committed then [Completion(i)] else [])
            && (!q.raised <==> committed && env.renewsAfter(i))
  {
  }

  /** An executor that has not raised goes on. */
  lemma {:induction false} RaisedIff(start: E.Progress, prepared: seq<E.Prepared>, failOnUnavailable: bool, env: E.Env,
                                     k: nat)
    requires k <= |prepared| && !start.raised
    ensures E.Writes(start, prepared, failOnUnavailable, env, k).raised
            <==> !WritesEnding(prepared, failOnUnavailable, env, k).GoesOn?
  {
    if k > 0 {
      RaisedIff(start, prepared, failOnUnavailable, env, k - 1);
      var p := E.Writes(start, prepared, failOnUnavailable, env, k - 1);
      if !p.raised {
        TurnShown(p, prepared[k - 1], failOnUnavailable, env);
      }
    }
  }

  function SpotOf(ending: Ending, next: nat): Spot {
    match ending
    case GoesOn => At(Writing(next))
    case LeaseLost => Lost
    case Raised => Out
  }

  /** From the answer to a write, to the next ordinal or out. */
  lemma Settling(can: Reach, n: nat, i: nat, seen: seq<Seen>, committed: bool) returns (after: bool)
    requires Drives(can, n) && i < n && can(At(InFlight(i)), seen)
    ensures can(SpotOf(EndingOf(Settles(committed), true, after), i + 1),
                seen + [Answer(i)] + if committed then [Completion(i)] else [])
  {
    var answered := seen + [Answer(i)];
    assert TurnDriven(can, i, seen);
    if committed {
      var recorded := answered + [Completion(i)];
      assert TurnDriven(can, i, answered) && StageDriven(can, Recorded(i + 1), recorded);
      after := can(At(Writing(i + 1)), recorded);
    } else {
      after := false;
      assert StageDriven(can, Acked(i), answered);
      assert answered + [] == answered;
    }
  }

  lemma ShownParts(seen: seq<Seen>, i: nat, course: Course)
    ensures seen + Shown(i, course) == seen + [Renewal] + [Write(i)] + Rest(i, course)
  {
  }

  /** One turn of the loop, with the answers its renewals get. */
  lemma Turning(can: Reach, n: nat, i: nat, seen: seq<Seen>, course: Course) returns (before: bool, after: bool)
    requires Drives(can, n) && i < n && can(At(Writing(i)), seen)
    ensures can(SpotOf(EndingOf(course, before, after), i + 1), seen + if before then Shown(i, course) else [])
  {
    assert TurnDriven(can, i, seen);
    before, after := can(At(Armed(i)), seen + [Renewal]), false;
    if before {
      after := Sending(can, n, i, seen + [Renewal], course);
      ShownParts(seen, i, course);
    } else {
      assert seen + [] == seen;
    }
  }

  function Rest(i: nat, course: Course): seq<Seen> {
    match course
    case Breaks => []
    case Settles(committed) => [Answer(i)] + if committed then [Completion(i)] else []
    case Declines(committed) => if committed then [Refusal(i)] else []
  }

  /** A turn from its renewal on. */
  lemma Sending(can: Reach, n: nat, i: nat, seen: seq<Seen>, course: Course) returns (after: bool)
    requires Drives(can, n) && i < n && can(At(Armed(i)), seen)
    ensures can(SpotOf(EndingOf(course, true, after), i + 1), seen + [Write(i)] + Rest(i, course))
  {
    var sent := seen + [Write(i)];
    assert TurnDriven(can, i, seen);
    after := false;
    if course.Settles? {
      after := Settling(can, n, i, sent, course.committed);
      ConcatAssociates(sent, [Answer(i)], if course.committed then [Completion(i)] else []);
    } else if course.Declines? && course.committed {
      assert TurnDriven(can, i, sent);
    } else {
      assert StageDriven(can, InFlight(i), sent);
      assert sent + [] == sent;
    }
  }

  /** The environment with these answers to the renewals before and after the write of one ordinal. */
  function Answered(env: E.Env, i: nat, before: bool, after: bool): E.Env {
    env.(renewsBefore := (k: nat) => if k == i then before else env.renewsBefore(k),
         renewsAfter := (k: nat) => if k == i then after else env.renewsAfter(k))
  }

  /** The same environment but for the answers to its renewals. */
  ghost predicate LeaseApart(a: E.Env, b: E.Env) {
    a.search == b.search && a.reply == b.reply && a.saves == b.saves && a.commits == b.commits
  }

  function NextOrdinal(prepared: seq<E.Prepared>, k: nat): nat
    requires k <= |prepared|
  {
    if k == 0 then 0 else prepared[k - 1].ordinal + 1
  }

  ghost predicate InOrder(prepared: seq<E.Prepared>, n: nat) {
    && (forall i, j :: 0 <= i < j < |prepared| ==> prepared[i].ordinal < prepared[j].ordinal)
    && (forall j :: 0 <= j < |prepared| ==> prepared[j].ordinal < n)
  }

  /** The first turns do not depend on the renewals of later ones. */
  lemma {:induction false} EarlierTurns(start: E.Progress, prepared: seq<E.Prepared>, failOnUnavailable: bool,
                                        env: E.Env, k: nat, i: nat, before: bool, after: bool)
    requires k <= |prepared| && forall j :: 0 <= j < k ==> prepared[j].ordinal < i
    ensures E.Writes(start, prepared, failOnUnavailable, Answered(env, i, before, after), k)
            == E.Writes(start, prepared, failOnUnavailable, env, k)
  {
    if k > 0 {
      EarlierTurns(start, prepared, failOnUnavailable, env, k - 1, i, before, after);
    }
  }

  lemma {:induction false} EarlierEndings(prepared: seq<E.Prepared>, failOnUnavailable: bool, env: E.Env, k: nat,
                                          i: nat, before: bool, after: bool)
    requires k <= |prepared| && forall j :: 0 <= j < k ==> prepared[j].ordinal < i
    ensures WritesEnding(prepared, failOnUnavailable, Answered(env, i, before, after), k)
            == WritesEnding(prepared, failOnUnavailable, env, k)
  {
    if k > 0 {
      EarlierEndings(prepared, failOnUnavailable, env, k - 1, i, before, after);
    }
  }

  /** One more turn of the executor, with these answers to its renewals. */
  lemma WritesTurn(start: E.Progress, prepared: seq<E.Prepared>, n: nat, failOnUnavailable: bool, env: E.Env, k: nat,
                   before: bool, after: bool)
    requires 0 < k <= |prepared| && InOrder(prepared, n)
    requires !E.Writes(start, prepared, failOnUnavailable, env, k - 1).raised
    requires WritesEnding(prepared, failOnUnavailable, env, k - 1).GoesOn?
    ensures var answered := Answered(env, prepared[k - 1].ordinal, before, after);
            && E.Writes(start, prepared, failOnUnavailable, answered, k)
               == E.Turn(E.Writes(start, prepared, failOnUnavailable, env, k - 1), prepared[k - 1], failOnUnavailable,
                         answered)
            && WritesEnding(prepared, failOnUnavailable, answered, k)
               == TurnEnding(prepared[k - 1], failOnUnavailable, answered)
  {
    EarlierTurns(start, prepared, failOnUnavailable, env, k - 1, prepared[k - 1].ordinal, before, after);
    LastEnding(prepared, n, failOnUnavailable, env, k, before, after);
  }

  lemma LastEnding(prepared: seq<E.Prepared>, n: nat, failOnUnavailable: bool, env: E.Env, k: nat, before: bool,
                   after: bool)
    requires 0 < k <= |prepared| && InOrder(prepared, n)
    requires WritesEnding(prepared, failOnUnavailable, env, k - 1).GoesOn?
    ensures var answered := Answered(env, prepared[k - 1].ordinal, before, after);
            WritesEnding(prepared, failOnUnavailable, answered, k)
            == TurnEnding(prepared[k - 1], failOnUnavailable, answered)
  {
    EarlierEndings(prepared, failOnUnavailable, env, k - 1, prepared[k - 1].ordinal, before, after);
  }

  /** The worker can show the executor's log after k turns, and come to where these end. */
  ghost predicate CanFollow(can: Reach, start: E.Progress, prepared: seq<E.Prepared>, failOnUnavailable: bool,
                            env: E.Env, k: nat)
    requires k <= |prepared|
  {
    can(SpotOf(WritesEnding(prepared, failOnUnavailable, env, k), NextOrdinal(prepared, k)),
        Log(E.Writes(start, prepared, failOnUnavailable, env, k).events))
  }

  /** The ordinals skipped before item k - 1, and its turn. */
  lemma ItemFollows(can: Reach, n: nat, start: E.Progress, prepared: seq<E.Prepared>, failOnUnavailable: bool,
                    env: E.Env, k: nat)
    returns (answered: E.Env)
    requires Drives(can, n) && InOrder(prepared, n) && 0 < k <= |prepared|
    requires CanFollow(can, start, prepared, failOnUnavailable, env, k - 1)
    requires !E.Writes(start, prepared, failOnUnavailable, env, k - 1).raised
    requires WritesEnding(prepared, failOnUnavailable, env, k - 1).GoesOn?
    ensures LeaseApart(env, answered) && CanFollow(can, start, prepared, failOnUnavailable, answered, k)
  {
    var p, item := E.Writes(start, prepared, failOnUnavailable, env, k - 1), prepared[k - 1];
    SkipsTo(can, n, NextOrdinal(prepared, k - 1), item.ordinal, Log(p.events));
    var before, after := Turning(can, n, item.ordinal, Log(p.events), CourseOf(item, failOnUnavailable, env));
    answered := Answered(env, item.ordinal, before, after);
    TurnShown(p, item, failOnUnavailable, answered);
    WritesTurn(start, prepared, n, failOnUnavailable, env, k, before, after);
  }

  lemma {:induction false} WritesFollow(can: Reach, n: nat, start: E.Progress, prepared: seq<E.Prepared>,
                                        failOnUnavailable: bool, env: E.Env, k: nat)
    returns (answered: E.Env)
    requires Drives(can, n) && InOrder(prepared, n) && k <= |prepared| && !start.raised
    requires can(At(Writing(0)), Log(start.events))
    ensures LeaseApart(env, answered) && CanFollow(can, start, prepared, failOnUnavailable, answered, k)
  {
    if k == 0 {
      answered := env;
    } else {
      answered := WritesFollow(can, n, start, prepared, failOnUnavailable, env, k - 1);
      RaisedIff(start, prepared, failOnUnavailable, answered, k - 1);
      if !E.Writes(start, prepared, failOnUnavailable, answered, k - 1).raised {
        answered := ItemFollows(can, n, start, prepared, failOnUnavailable, answered, k);
      }
    }
  }

  lemma {:induction false} SamePreflight(actions: seq<Action>, res: Resolutions, env: E.Env, answered: E.Env,
                                         skipUnresolved: bool, n: nat)
    requires LeaseApart(env, answered) && n <= |actions|
    ensures E.Prepare(actions, res, answered, skipUnresolved, n) == E.Prepare(actions, res, env, skipUnresolved, n)
  {
    if n > 0 {
      SamePreflight(actions, res, env, answered, skipUnresolved, n - 1);
    }
  }

  /** The whole executor, from the start of its write loop to the end of the plan or out. */
  lemma ExecutionFollows(can: Reach, actions: seq<Action>, res: Resolutions, env: E.Env, approved: bool,
                         skipUnresolved: bool, failOnUnavailable: bool, source: Option<Name>, target: Option<Name>)
    returns (answered: E.Env)
    requires Drives(can, |actions|) && can(At(Writing(0)), [])
    ensures LeaseApart(env, answered)
    ensures var x := E.Execution(actions, res, answered, approved, skipUnresolved, failOnUnavailable, source, target);
            var ending := ExecutionEnding(actions, res, answered, approved, skipUnresolved, failOnUnavailable);
            (x.raised <==> !ending.GoesOn?) && can(SpotOf(ending, |actions|), Log(x.events))
  {
    answered := env;
    assert Log([]) == [];
    var ready := E.Prepare(actions, res, env, skipUnresolved, |actions|);
    if approved && ready.Ready? {
      E.PreparedSplit(actions, res, env, skipUnresolved, |actions|);
      var start := E.Progress([], source, target, ready.skipped, [], false);
      answered := LoopFollows(can, |actions|, start, ready.prepared, failOnUnavailable, env);
      SamePreflight(actions, res, env, answered, skipUnresolved, |actions|);
    } else {
      assert StageDriven(can, Writing(0), []);
    }
  }

  /** The write loop, to its end or out. */
  lemma LoopFollows(can: Reach, n: nat, start: E.Progress, prepared: seq<E.Prepared>, failOnUnavailable: bool,
                    env: E.Env)
    returns (answered: E.Env)
    requires Drives(can, n) && InOrder(prepared, n) && !start.raised && can(At(Writing(0)), Log(start.events))
    ensures LeaseApart(env, answered)
    ensures var x := E.Writes(start, prepared, failOnUnavailable, answered, |prepared|);
            var ending := WritesEnding(prepared, failOnUnavailable, answered, |prepared|);
            (x.raised <==> !ending.GoesOn?) && can(SpotOf(ending, n), Log(x.events))
  {
    answered := WritesFollow(can, n, start, prepared, failOnUnavailable, env, |prepared|);
    RaisedIff(start, prepared, failOnUnavailable, answered, |prepared|);
    var x := E.Writes(start, prepared, failOnUnavailable, answered, |prepared|);
    if !x.raised {
      SkipsTo(can, n, NextOrdinal(prepared, |prepared|), n, Log(x.events));
    }
  }

  // ---- Everybody else ----------------------------------------------------------------------------------

  /** Steps of other workers, and ticks. */
  ghost predicate Foreign(s: State, steps: seq<Step>, w: WorkerId) {
    Run(s, steps) && forall i :: 0 <= i < |steps| ==> steps[i].Tick? || steps[i].w != w
  }

  /** What happens between two steps of the worker, and what its clock shows when it renews. */
  datatype Surroundings = Surroundings(others: State -> seq<Step>, clock: State -> int)

  ghost predicate Possible(around: Surroundings, w: WorkerId) {
    forall t :: Foreign(t, around.others(t), w) && around.clock(t) <= t.now
  }

  /** The worker is at a stage of the write loop of a run of n actions. */
  predicate Working(t: State, w: WorkerId, r: RunId, stage: Stage, n: nat) {
    && t.At(w).pc.Executing? && t.At(w).pc.run == r && t.At(w).pc.stage == stage
    && r in t.runs && t.runs[r].journal.Some? && |t.runs[r].journal.value| == n
  }

  lemma ForeignStep(t: State, step: Step, w: WorkerId, r: RunId, stage: Stage, n: nat)
    requires Inv(t) && Enabled(t, step) && (step.Tick? || step.w != w)
    ensures Inv(After(t, step)) && After(t, step).At(w) == t.At(w)
    ensures Working(t, w, r, stage, n) ==> Working(After(t, step), w, r, stage, n)
  {
    InvStep(t, step);
    if !step.Tick? {
      StepEffectOk(t, step);
      assert Tied(t.runs, w, t.At(w).pc);
      var e := EffectOf(t, step);
      if Working(t, w, r, stage, n) && e.touched.Some? && e.touched.value.run == r {
        assert RowOk(t.runs[r]);
        LegalKeepsTied(t, step.w, r, e.touched.value.row, w);
      }
    }
  }

  lemma {:induction false} ForeignRun(t: State, steps: seq<Step>, w: WorkerId, r: RunId, stage: Stage, n: nat)
    requires Inv(t) && Foreign(t, steps, w)
    ensures var u := Final(t, steps);
            && Inv(u) && u.At(w) == t.At(w) && Trace(t, steps, w) == []
            && (Working(t, w, r, stage, n) ==> Working(u, w, r, stage, n))
  {
    if steps != [] {
      var front, last := steps[..|steps| - 1], steps[|steps| - 1];
      ForeignRun(t, front, w, r, stage, n);
      assert last == steps[|steps| - 1];
      ForeignStep(Final(t, front), last, w, r, stage, n);
    }
  }

  lemma TracePush(s: State, xs: seq<Step>, t: State, w: WorkerId, step: Step)
    requires Leads(s, xs, t) && Enabled(t, step)
    ensures Leads(s, xs + [step], After(t, step)) && Trace(s, xs + [step], w) == Trace(s, xs, w) + Shows(t, step, w)
  {
    Then(s, xs, t, step);
    assert (xs + [step])[..|xs|] == xs;
  }

  ghost predicate Joined(s: State, xs: seq<Step>, t: State, ys: seq<Step>, w: WorkerId)
    requires Run(s, xs) && Run(t, ys)
  {
    Run(s, xs + ys) && Trace(s, xs + ys, w) == Trace(s, xs, w) + Trace(t, ys, w)
  }

  lemma JoinedNothing(s: State, xs: seq<Step>, t: State, w: WorkerId)
    requires Leads(s, xs, t)
    ensures Joined(s, xs, t, [], w)
  {
    assert xs + [] == xs;
    assert Trace(t, [], w) == [];
  }

  lemma JoinedLast(s: State, xs: seq<Step>, t: State, front: seq<Step>, last: Step, w: WorkerId)
    requires Leads(s, xs, t) && Run(t, front) && Enabled(Final(t, front), last) && Joined(s, xs, t, front, w)
    ensures Run(t, front + [last]) && Joined(s, xs, t, front + [last], w)
  {
    Join(s, xs, t, front);
    TracePush(t, front, Final(t, front), w, last);
    TracePush(s, xs + front, Final(t, front), w, last);
    ConcatAssociates(xs, front, [last]);
    ConcatAssociates(Trace(s, xs, w), Trace(t, front, w), Shows(Final(t, front), last, w));
  }

  lemma {:induction false} TraceJoin(s: State, xs: seq<Step>, t: State, ys: seq<Step>, w: WorkerId)
    requires Leads(s, xs, t) && Run(t, ys)
    ensures Joined(s, xs, t, ys, w)
    decreases |ys|
  {
    if ys == [] {
      JoinedNothing(s, xs, t, w);
    } else {
      var front, last := ys[..|ys| - 1], ys[|ys| - 1];
      assert ys == front + [last];
      TraceJoin(s, xs, t, front, w);
      JoinedLast(s, xs, t, front, last, w);
    }
  }

  // ---- The worker's steps, each followed by what the others do then ----------------------------------------

  predicate IsOwn(t: State, step: Step, w: WorkerId, around: Surroundings) {
    !step.Tick? && step.w == w && (step.Renew? ==> step.reading == around.clock(t))
  }

  /** The worker can make these moves one after the other. */
  ghost predicate CanPlay(s: State, moves: seq<Step>, w: WorkerId, around: Surroundings)
    requires Possible(around, w)
    decreases |moves|, 0
  {
    moves == [] ||
    (&& CanPlay(s, moves[..|moves| - 1], w, around)
     && var t := Played(s, moves[..|moves| - 1], w, around);
        IsOwn(t, moves[|moves| - 1], w, around) && Enabled(t, moves[|moves| - 1]))
  }

  /** Where they lead, with the others' steps in between. */
  ghost function Played(s: State, moves: seq<Step>, w: WorkerId, around: Surroundings): State
    requires Possible(around, w) && CanPlay(s, moves, w, around)
    decreases |moves|, 1
  {
    if moves == [] then s
    else Followed(After(Played(s, moves[..|moves| - 1], w, around), moves[|moves| - 1]), w, around)
  }

  ghost function Followed(t: State, w: WorkerId, around: Surroundings): State
    requires Possible(around, w)
  {
    assert Foreign(t, around.others(t), w);
    Final(t, around.others(t))
  }

  /** All the steps of that run of the protocol. */
  ghost function AllSteps(s: State, moves: seq<Step>, w: WorkerId, around: Surroundings): seq<Step>
    requires Possible(around, w) && CanPlay(s, moves, w, around)
  {
    if moves == [] then []
    else AllSteps(s, moves[..|moves| - 1], w, around) + [moves[|moves| - 1]] +
         around.others(After(Played(s, moves[..|moves| - 1], w, around), moves[|moves| - 1]))
  }

  /** What the moves show. */
  ghost function ShownBy(s: State, moves: seq<Step>, w: WorkerId, around: Surroundings): seq<Seen>
    requires Possible(around, w) && CanPlay(s, moves, w, around)
  {
    if moves == [] then []
    else ShownBy(s, moves[..|moves| - 1], w, around) +
         Shows(Played(s, moves[..|moves| - 1], w, around), moves[|moves| - 1], w)
  }

  lemma {:induction false} PlayIsARun(s: State, moves: seq<Step>, w: WorkerId, around: Surroundings)
    requires Inv(s) && Possible(around, w) && CanPlay(s, moves, w, around)
    ensures var steps := AllSteps(s, moves, w, around);
            && Leads(s, steps, Played(s, moves, w, around)) && Trace(s, steps, w) == ShownBy(s, moves, w, around)
            && Inv(Played(s, moves, w, around))
  {
    Nothing(s);
    if moves != [] {
      var front, last := moves[..|moves| - 1], moves[|moves| - 1];
      PlayIsARun(s, front, w, around);
      RunOn(s, AllSteps(s, front, w, around), Played(s, front, w, around), last, w, around);
    }
  }

  lemma RunOn(s: State, xs: seq<Step>, t: State, step: Step, w: WorkerId, around: Surroundings)
    requires Leads(s, xs, t) && Inv(t) && Possible(around, w) && Enabled(t, step)
    ensures var steps := xs + [step] + around.others(After(t, step));
            && Leads(s, steps, Followed(After(t, step), w, around))
            && Trace(s, steps, w) == Trace(s, xs, w) + Shows(t, step, w)
            && Inv(Followed(After(t, step), w, around))
  {
    var t1 := After(t, step);
    var rest := around.others(t1);
    TracePush(s, xs, t, w, step);
    InvStep(t, step);
    assert Foreign(t1, rest, w);
    ForeignRun(t1, rest, w, RunId(0), Journaling, 0);
    TraceJoin(s, xs + [step], t1, rest, w);
    Join(s, xs + [step], t1, rest);
    assert Trace(s, xs + [step], w) + [] == Trace(s, xs + [step], w);
  }

  // ---- One step of the worker ---------------------------------------------------------------------

  /** Where the worker is after its moves. A lost lease shows in the last of them: a renewal, at a moment at which
      the lease row did not have the worker's token unexpired. */
  ghost predicate IsAt(s: State, w: WorkerId, around: Surroundings, r: RunId, n: nat, spot: Spot, moves: seq<Step>,
                       t: State)
    requires Possible(around, w) && CanPlay(s, moves, w, around)
  {
    match spot
    case At(stage) => Working(t, w, r, stage, n)
    case Lost => moves != [] && Loses(Played(s, moves[..|moves| - 1], w, around), moves[|moves| - 1], w, around)
    case Out => moves != [] && moves[|moves| - 1].Fail?
  }

  ghost predicate Loses(t: State, step: Step, w: WorkerId, around: Surroundings) {
    step.Renew? && t.At(w).pc.Holds() && !Leases.Owned(t.lease, t.At(w).pc.token, around.clock(t))
  }

  /** The worker's moves show the events and lead to the spot. */
  ghost predicate Comes(s: State, w: WorkerId, around: Surroundings, r: RunId, n: nat, spot: Spot, seen: seq<Seen>,
                        moves: seq<Step>, t: State)
    requires Possible(around, w)
  {
    && CanPlay(s, moves, w, around) && t == Played(s, moves, w, around) && Inv(t)
    && ShownBy(s, moves, w, around) == seen && IsAt(s, w, around, r, n, spot, moves, t)
  }

  ghost predicate Reaches(s: State, w: WorkerId, around: Surroundings, r: RunId, n: nat, spot: Spot, seen: seq<Seen>)
    requires Possible(around, w)
  {
    exists moves, t :: Comes(s, w, around, r, n, spot, seen, moves, t)
  }

  /** The step is one the worker can take, shows the events, and leads on or out. */
  ghost predicate Fits(t: State, w: WorkerId, around: Surroundings, r: RunId, n: nat, step: Step, next: Spot,
                       shown: seq<Seen>)
  {
    && Enabled(t, step) && IsOwn(t, step, w, around) && Shows(t, step, w) == shown
    && match next
       case At(stage) => Working(After(t, step), w, r, stage, n)
       case Lost => Loses(t, step, w, around)
       case Out => step.Fail?
  }

  lemma FollowedFits(t: State, w: WorkerId, around: Surroundings, r: RunId, n: nat, next: Spot)
    requires Inv(t) && Possible(around, w) && (next.At? ==> Working(t, w, r, next.stage, n))
    ensures var u := Followed(t, w, around); Inv(u) && (next.At? ==> Working(u, w, r, next.stage, n))
  {
    assert Foreign(t, around.others(t), w);
    ForeignRun(t, around.others(t), w, r, if next.At? then next.stage else Journaling, n);
  }

  lemma Lands(t: State, w: WorkerId, around: Surroundings, r: RunId, n: nat, step: Step, next: Spot,
              shown: seq<Seen>)
    requires Inv(t) && Possible(around, w) && Fits(t, w, around, r, n, step, next, shown)
    ensures var u := Followed(After(t, step), w, around); Inv(u) && (next.At? ==> Working(u, w, r, next.stage, n))
  {
    InvStep(t, step);
    FollowedFits(After(t, step), w, around, r, n, next);
  }

  lemma PushMove(s: State, moves: seq<Step>, t: State, w: WorkerId, around: Surroundings, step: Step)
    requires Possible(around, w) && CanPlay(s, moves, w, around) && t == Played(s, moves, w, around)
    requires IsOwn(t, step, w, around) && Enabled(t, step)
    ensures CanPlay(s, moves + [step], w, around)
    ensures Played(s, moves + [step], w, around) == Followed(After(t, step), w, around)
    ensures ShownBy(s, moves + [step], w, around) == ShownBy(s, moves, w, around) + Shows(t, step, w)
  {
    assert (moves + [step])[..|moves|] == moves;
  }

  lemma Advance(s: State, moves: seq<Step>, t: State, w: WorkerId, around: Surroundings, r: RunId, n: nat,
                seen: seq<Seen>, step: Step, next: Spot, shown: seq<Seen>)
    returns (longer: seq<Step>, u: State)
    requires Possible(around, w) && CanPlay(s, moves, w, around) && t == Played(s, moves, w, around) && Inv(t)
    requires ShownBy(s, moves, w, around) == seen && Fits(t, w, around, r, n, step, next, shown)
    ensures CanPlay(s, longer, w, around) && u == Played(s, longer, w, around)
    ensures Inv(u) && ShownBy(s, longer, w, around) == seen + shown
    ensures IsAt(s, w, around, r, n, next, longer, u)
  {
    Lands(t, w, around, r, n, step, next, shown);
    PushMove(s, moves, t, w, around, step);
    longer, u := moves + [step], Followed(After(t, step), w, around);
    assert longer[..|longer| - 1] == moves && longer[|longer| - 1] == step;
  }

  /** The worker takes a step, and then the others do what they do. */
  lemma Act(s: State, moves: seq<Step>, t: State, w: WorkerId, around: Surroundings, r: RunId, n: nat,
            spot: Spot, seen: seq<Seen>, step: Step, next: Spot, shown: seq<Seen>)
    requires Possible(around, w) && Comes(s, w, around, r, n, spot, seen, moves, t)
    requires Fits(t, w, around, r, n, step, next, shown)
    ensures Reaches(s, w, around, r, n, next, seen + shown)
  {
    var longer, u := Advance(s, moves, t, w, around, r, n, seen, step, next, shown);
    assert Comes(s, w, around, r, n, next, seen + shown, longer, u);
  }

  /** A renewal leads on if the lease row still has the worker's token unexpired, and out if not. */
  lemma RenewFits(t: State, w: WorkerId, around: Surroundings, r: RunId, n: nat, stage: Stage)
    requires Working(t, w, r, stage, n) && around.clock(t) <= t.now
    requires stage.Recorded? || (stage.Writing? && stage.next < n)
    ensures var ok := Leases.Owned(t.lease, t.At(w).pc.token, around.clock(t));
            Fits(t, w, around, r, n, Renew(w, around.clock(t), around.clock(t)),
                 if !ok then Lost else At(Renewed(stage)), if ok && stage.Writing? then [Renewal] else [])
  {
    if Leases.Owned(t.lease, t.At(w).pc.token, around.clock(t)) {
      RenewMove(t, w, around.clock(t));
    }
  }

  function Renewed(stage: Stage): Stage
    requires stage.Recorded? || stage.Writing?
  {
    if stage.Writing? then Armed(stage.next) else Writing(stage.next)
  }

  lemma SendFits(t: State, w: WorkerId, around: Surroundings, r: RunId, n: nat, i: nat)
    requires Working(t, w, r, Armed(i), n) && i < n
    ensures Fits(t, w, around, r, n, Send(w), At(InFlight(i)), [Write(i)])
  {
    SendMove(t, w);
  }

  lemma SkipFits(t: State, w: WorkerId, around: Surroundings, r: RunId, n: nat, i: nat)
    requires Working(t, w, r, Writing(i), n) && i < n
    ensures Fits(t, w, around, r, n, SkipOne(w), At(Writing(i + 1)), [])
  {
    SkipMove(t, w);
  }

  lemma AnswerFits(t: State, w: WorkerId, around: Surroundings, r: RunId, n: nat, i: nat)
    requires Working(t, w, r, InFlight(i), n) && i < n
    ensures Fits(t, w, around, r, n, Acknowledge(w), At(Acked(i)), [Answer(i)])
    ensures Fits(t, w, around, r, n, Refuse(w), At(Writing(i + 1)), [Refusal(i)])
  {
    AcknowledgeMove(t, w);
    RefuseMove(t, w);
  }

  lemma CompleteFits(t: State, w: WorkerId, around: Surroundings, r: RunId, n: nat, i: nat)
    requires Working(t, w, r, Acked(i), n) && i < n
    ensures Fits(t, w, around, r, n, Complete(w), At(Recorded(i + 1)), [Completion(i)])
  {
    CompleteMove(t, w);
  }

  lemma FailFits(t: State, w: WorkerId, around: Surroundings, r: RunId, n: nat, stage: Stage)
    requires Working(t, w, r, stage, n)
    ensures Fits(t, w, around, r, n, Fail(w), Out, [])
  {
  }

  // ---- The protocol drives the executor -------------------------------------------------------------

  /** A renewal before a write, or after a completed entry. */
  lemma Renewing(s: State, w: WorkerId, around: Surroundings, r: RunId, n: nat, stage: Stage, seen: seq<Seen>)
    requires Possible(around, w) && Reaches(s, w, around, r, n, At(stage), seen)
    requires stage.Recorded? || (stage.Writing? && stage.next < n)
    ensures || Reaches(s, w, around, r, n, Lost, seen)
            || Reaches(s, w, around, r, n, At(Renewed(stage)), seen + if stage.Writing? then [Renewal] else [])
  {
    var moves, t :| Comes(s, w, around, r, n, At(stage), seen, moves, t);
    ClockIsBehind(t, w, around);
    RenewFits(t, w, around, r, n, stage);
    RenewOnce(s, moves, t, w, around, r, n, stage, seen, Leases.Owned(t.lease, t.At(w).pc.token, around.clock(t)));
  }

  lemma ClockIsBehind(t: State, w: WorkerId, around: Surroundings)
    requires Possible(around, w)
    ensures around.clock(t) <= t.now
  {
    assert Foreign(t, around.others(t), w);
  }

  lemma RenewOnce(s: State, moves: seq<Step>, t: State, w: WorkerId, around: Surroundings, r: RunId, n: nat,
                  stage: Stage, seen: seq<Seen>, ok: bool)
    requires Possible(around, w) && Comes(s, w, around, r, n, At(stage), seen, moves, t)
    requires stage.Recorded? || stage.Writing?
    requires Fits(t, w, around, r, n, Renew(w, around.clock(t), around.clock(t)),
                  if !ok then Lost else At(Renewed(stage)), if ok && stage.Writing? then [Renewal] else [])
    ensures Reaches(s, w, around, r, n, if !ok then Lost else At(Renewed(stage)),
                    seen + if ok && stage.Writing? then [Renewal] else [])
    ensures !ok ==> Reaches(s, w, around, r, n, Lost, seen)
  {
    var next, shown := if !ok then Lost else At(Renewed(stage)), if ok && stage.Writing? then [Renewal] else [];
    Act(s, moves, t, w, around, r, n, At(stage), seen, Renew(w, around.clock(t), around.clock(t)), next, shown);
    assert seen + [] == seen;
  }

  /** A step that always leads on. */
  lemma Moving(s: State, w: WorkerId, around: Surroundings, r: RunId, n: nat, stage: Stage, seen: seq<Seen>, step: Step,
               next: Spot, shown: seq<Seen>)
    requires Possible(around, w) && Reaches(s, w, around, r, n, At(stage), seen)
    requires forall t :: Working(t, w, r, stage, n) ==> Fits(t, w, around, r, n, step, next, shown)
    ensures Reaches(s, w, around, r, n, next, seen + shown)
  {
    var moves, t :| Comes(s, w, around, r, n, At(stage), seen, moves, t);
    assert Working(t, w, r, stage, n);
    Act(s, moves, t, w, around, r, n, At(stage), seen, step, next, shown);
  }

  lemma StartsTurn(s: State, w: WorkerId, around: Surroundings, r: RunId, n: nat, i: nat, seen: seq<Seen>)
    requires Possible(around, w) && i < n && Reaches(s, w, around, r, n, At(Writing(i)), seen)
    ensures Reaches(s, w, around, r, n, At(Writing(i + 1)), seen)
    ensures Reaches(s, w, around, r, n, At(Armed(i)), seen + [Renewal]) || Reaches(s, w, around, r, n, Lost, seen)
  {
    forall t | Working(t, w, r, Writing(i), n) ensures Fits(t, w, around, r, n, SkipOne(w), At(Writing(i + 1)), []) {
      SkipFits(t, w, around, r, n, i);
    }
    Moving(s, w, around, r, n, Writing(i), seen, SkipOne(w), At(Writing(i + 1)), []);
    assert seen + [] == seen;
    Renewing(s, w, around, r, n, Writing(i), seen);
  }

  lemma Sends(s: State, w: WorkerId, around: Surroundings, r: RunId, n: nat, i: nat, seen: seq<Seen>)
    requires Possible(around, w) && i < n && Reaches(s, w, around, r, n, At(Armed(i)), seen)
    ensures Reaches(s, w, around, r, n, At(InFlight(i)), seen + [Write(i)])
  {
    forall t | Working(t, w, r, Armed(i), n) ensures Fits(t, w, around, r, n, Send(w), At(InFlight(i)), [Write(i)]) {
      SendFits(t, w, around, r, n, i);
    }
    Moving(s, w, around, r, n, Armed(i), seen, Send(w), At(InFlight(i)), [Write(i)]);
  }

  lemma GetsAnswer(s: State, w: WorkerId, around: Surroundings, r: RunId, n: nat, i: nat, seen: seq<Seen>)
    requires Possible(around, w) && i < n && Reaches(s, w, around, r, n, At(InFlight(i)), seen)
    ensures Reaches(s, w, around, r, n, At(Acked(i)), seen + [Answer(i)])
    ensures Reaches(s, w, around, r, n, At(Writing(i + 1)), seen + [Refusal(i)])
  {
    forall t | Working(t, w, r, InFlight(i), n)
      ensures Fits(t, w, around, r, n, Acknowledge(w), At(Acked(i)), [Answer(i)])
      ensures Fits(t, w, around, r, n, Refuse(w), At(Writing(i + 1)), [Refusal(i)])
    {
      AnswerFits(t, w, around, r, n, i);
    }
    Moving(s, w, around, r, n, InFlight(i), seen, Acknowledge(w), At(Acked(i)), [Answer(i)]);
    Moving(s, w, around, r, n, InFlight(i), seen, Refuse(w), At(Writing(i + 1)), [Refusal(i)]);
  }

  lemma Completes(s: State, w: WorkerId, around: Surroundings, r: RunId, n: nat, i: nat, seen: seq<Seen>)
    requires Possible(around, w) && i < n && Reaches(s, w, around, r, n, At(Acked(i)), seen)
    ensures Reaches(s, w, around, r, n, At(Recorded(i + 1)), seen + [Completion(i)])
  {
    forall t | Working(t, w, r, Acked(i), n)
      ensures Fits(t, w, around, r, n, Complete(w), At(Recorded(i + 1)), [Completion(i)])
    {
      CompleteFits(t, w, around, r, n, i);
    }
    Moving(s, w, around, r, n, Acked(i), seen, Complete(w), At(Recorded(i + 1)), [Completion(i)]);
  }

  lemma Leaves(s: State, w: WorkerId, around: Surroundings, r: RunId, n: nat, stage: Stage, seen: seq<Seen>)
    requires Possible(around, w) && Reaches(s, w, around, r, n, At(stage), seen)
    ensures Reaches(s, w, around, r, n, Out, seen)
  {
    forall t | Working(t, w, r, stage, n) ensures Fits(t, w, around, r, n, Fail(w), Out, []) {
      FailFits(t, w, around, r, n, stage);
    }
    Moving(s, w, around, r, n, stage, seen, Fail(w), Out, []);
    assert seen + [] == seen;
  }

  ghost function Coming(s: State, w: WorkerId, around: Surroundings, r: RunId, n: nat): Reach
    requires Possible(around, w)
  {
    (spot, seen) => Reaches(s, w, around, r, n, spot, seen)
  }

  lemma DrivesTurn(s: State, w: WorkerId, around: Surroundings, r: RunId, n: nat, i: nat, seen: seq<Seen>)
    requires Possible(around, w) && i < n
    ensures TurnDriven(Coming(s, w, around, r, n), i, seen)
  {
    if Reaches(s, w, around, r, n, At(Writing(i)), seen) {
      StartsTurn(s, w, around, r, n, i, seen);
    }
    if Reaches(s, w, around, r, n, At(Armed(i)), seen) {
      Sends(s, w, around, r, n, i, seen);
    }
    if Reaches(s, w, around, r, n, At(InFlight(i)), seen) {
      GetsAnswer(s, w, around, r, n, i, seen);
    }
    if Reaches(s, w, around, r, n, At(Acked(i)), seen) {
      Completes(s, w, around, r, n, i, seen);
    }
  }

  lemma RenewsOn(s: State, w: WorkerId, around: Surroundings, r: RunId, n: nat, i: nat, seen: seq<Seen>)
    requires Possible(around, w) && Reaches(s, w, around, r, n, At(Recorded(i)), seen)
    ensures Reaches(s, w, around, r, n, At(Writing(i)), seen) || Reaches(s, w, around, r, n, Lost, seen)
  {
    Renewing(s, w, around, r, n, Recorded(i), seen);
    assert seen + [] == seen;
  }

  lemma DrivesStage(s: State, w: WorkerId, around: Surroundings, r: RunId, n: nat, stage: Stage, seen: seq<Seen>)
    requires Possible(around, w)
    ensures StageDriven(Coming(s, w, around, r, n), stage, seen)
  {
    if Reaches(s, w, around, r, n, At(stage), seen) {
      Leaves(s, w, around, r, n, stage, seen);
      if stage.Recorded? {
        RenewsOn(s, w, around, r, n, stage.next, seen);
      }
    }
  }

  lemma ProtocolDrives(s: State, w: WorkerId, around: Surroundings, r: RunId, n: nat)
    requires Possible(around, w)
    ensures Drives(Coming(s, w, around, r, n), n)
  {
    forall i: nat, seen | i < n ensures TurnDriven(Coming(s, w, around, r, n), i, seen) {
      DrivesTurn(s, w, around, r, n, i, seen);
    }
    forall stage, seen ensures StageDriven(Coming(s, w, around, r, n), stage, seen) {
      DrivesStage(s, w, around, r, n, stage, seen);
    }
  }

  /** Step by step: in every environment, from any reachable state in which a worker has committed its
      journal, and whatever other workers, crashes and the clock do after each of its steps, the executor's
      log is what the worker's moves show in the run of the protocol that they and those steps make up, with
      the renewals answered by the lease row. An apply that returns leaves the worker at the end of the plan,
      ready to save the baseline; one that a refused renewal ended leaves it at a renewal that the lease row
      refused; and any other leaves it in its failure handler. */
  lemma EveryApplyIsARun(now: int, past: seq<Step>, s: State, w: WorkerId, r: RunId, around: Surroundings,
                         actions: seq<Action>, res: Resolutions, env: E.Env, approved: bool, skipUnresolved: bool,
                         failOnUnavailable: bool, source: Option<Name>, target: Option<Name>)
    returns (answered: E.Env, moves: seq<Step>)
    requires Run(Start(now), past) && s == Final(Start(now), past) && Possible(around, w)
    requires Working(s, w, r, Writing(0), |actions|)
    ensures LeaseApart(env, answered) && CanPlay(s, moves, w, around)
    ensures var x := E.Execution(actions, res, answered, approved, skipUnresolved, failOnUnavailable, source, target);
            var ending := ExecutionEnding(actions, res, answered, approved, skipUnresolved, failOnUnavailable);
            var steps, t := AllSteps(s, moves, w, around), Played(s, moves, w, around);
            && Leads(s, steps, t) && Trace(s, steps, w) == Log(x.events) && (x.raised <==> !ending.GoesOn?)
            && IsAt(s, w, around, r, |actions|, SpotOf(ending, |actions|), moves, t)
  {
    InvStart(now);
    InvRun(Start(now), past);
    assert Comes(s, w, around, r, |actions|, At(Writing(0)), [], [], s);
    ProtocolDrives(s, w, around, r, |actions|);
    answered := ExecutionFollows(Coming(s, w, around, r, |actions|), actions, res, env, approved, skipUnresolved,
                                 failOnUnavailable, source, target);
    var x := E.Execution(actions, res, answered, approved, skipUnresolved, failOnUnavailable, source, target);
    var ending := ExecutionEnding(actions, res, answered, approved, skipUnresolved, failOnUnavailable);
    moves := MovesTo(s, w, around, r, |actions|, SpotOf(ending, |actions|), Log(x.events));
  }

  lemma MovesTo(s: State, w: WorkerId, around: Surroundings, r: RunId, n: nat, spot: Spot, seen: seq<Seen>)
    returns (moves: seq<Step>)
    requires Inv(s) && Possible(around, w) && Reaches(s, w, around, r, n, spot, seen)
    ensures CanPlay(s, moves, w, around)
    ensures var steps, t := AllSteps(s, moves, w, around), Played(s, moves, w, around);
            && Leads(s, steps, t) && Trace(s, steps, w) == seen
            && IsAt(s, w, around, r, n, spot, moves, t)
  {
    var t;
    moves, t :| Comes(s, w, around, r, n, spot, seen, moves, t);
    PlayIsARun(s, moves, w, around);
  }
}
