/** Exactly what an apply does in every environment: which events it leaves, when it raises, what it returns. */
module ApplyEvents {
  import opened Prelude
  import opened Playlists
  import opened Reconciliation
  import opened TrackIdentity
  import opened Executor

  // ---- What the environment makes of one action -----------------------------------------------------

  /** There is a recording to send for action i: it removes, it was resolved, or the search found one. */
  predicate Sendable(actions: seq<Action>, res: Resolutions, env: Env, i: nat) {
    i < |actions| && (actions[i].kind == RemoveTrack || i in res || env.search(i).Found?)
  }

  /** Addition i stops the preflight: it has no resolution, and the search raised, or found nothing where nothing
      may be skipped. */
  predicate Blocks(actions: seq<Action>, res: Resolutions, env: Env, skipUnresolved: bool, i: nat) {
    && i < |actions| && actions[i].kind == AddTrack && i !in res
    && (env.search(i) == SearchRaised || (env.search(i) == Missing && !skipUnresolved))
  }

  /** The write of action i ends the apply with an error: the lease was lost before it or after it, the provider
      failed, it refused a removal or where nothing may be refused, or the database failed. */
  predicate Stops(a: Action, i: nat, env: Env, failOnUnavailable: bool) {
    || !env.renewsBefore(i)
    || env.reply(i) == Broken
    || (env.reply(i) == Unavailable && (a.kind == RemoveTrack || failOnUnavailable || !env.saves(i)))
    || (env.reply(i).Accepted? && ((a.kind == AddTrack && !env.saves(i)) || !env.commits(i) || !env.renewsAfter(i)))
  }

  /** What the write of action i, once its turn comes, leaves in the log. */
  predicate Leaves(a: Action, i: nat, e: Event, env: Env, failOnUnavailable: bool) {
    && env.renewsBefore(i)
    && match e
       case Renewed => true
       case Sent(j, _, _) => j == i
       case Acknowledged(j, s) => j == i && env.reply(i) == Accepted(s)
       case Refused(j) =>
         j == i && env.reply(i) == Unavailable && a.kind == AddTrack && !failOnUnavailable && env.saves(i)
       case Completed(j) =>
         j == i && env.reply(i).Accepted? && (a.kind == AddTrack ==> env.saves(i)) && env.commits(i)
  }

  /** The log holds the event; for a send, one for this action, whatever it names. */
  ghost predicate Holds(events: seq<Event>, e: Event) {
    if e.Sent? then exists f :: f in events && f.Sent? && f.ordinal == e.ordinal else e in events
  }

  // ---- One turn, and all of them ------------------------------------------------------------------------

  lemma HoldsPush(events: seq<Event>, f: Event, e: Event)
    ensures Holds(events + [f], e)
            <==> Holds(events, e) || (if e.Sent? then f.Sent? && f.ordinal == e.ordinal else f == e)
  {
    assert f in events + [f];
    assert forall x :: x in events + [f] <==> x in events || x == f;
  }

  lemma TurnLeaves(p: Progress, item: Prepared, failOnUnavailable: bool, env: Env, e: Event)
    requires !p.raised
    ensures var q := Turn(p, item, failOnUnavailable, env);
            && (q.raised <==> Stops(item.action, item.ordinal, env, failOnUnavailable))
            && (Holds(q.events, e)
                <==> Holds(p.events, e) || Leaves(item.action, item.ordinal, e, env, failOnUnavailable))
  {
    var i, s := item.ordinal, SentFor(p, item);
    var acked := if env.reply(i).Accepted? then Acknowledged(i, env.reply(i).snapshot) else Refused(i);
    HoldsPush(p.events, Renewed, e);
    HoldsPush(p.events + [Renewed], s, e);
    HoldsPush(p.events + [Renewed] + [s], acked, e);
    HoldsPush(p.events + [Renewed] + [s] + [acked], Completed(i), e);
  }

  /** Turn j of the loop comes: no earlier one ends the apply. */
  ghost predicate Comes(prepared: seq<Prepared>, j: nat, env: Env, failOnUnavailable: bool)
    requires j <= |prepared|
  {
    forall m :: 0 <= m < j ==> !Stops(prepared[m].action, prepared[m].ordinal, env, failOnUnavailable)
  }

  ghost predicate LeftBy(prepared: seq<Prepared>, n: nat, e: Event, env: Env, failOnUnavailable: bool)
    requires n <= |prepared|
  {
    exists j: nat :: j < n && Comes(prepared, j, env, failOnUnavailable)
                     && Leaves(prepared[j].action, prepared[j].ordinal, e, env, failOnUnavailable)
  }

  lemma LeftByStep(prepared: seq<Prepared>, n: nat, e: Event, env: Env, failOnUnavailable: bool)
    requires n < |prepared|
    ensures LeftBy(prepared, n + 1, e, env, failOnUnavailable)
            <==> LeftBy(prepared, n, e, env, failOnUnavailable)
                 || (Comes(prepared, n, env, failOnUnavailable)
                     && Leaves(prepared[n].action, prepared[n].ordinal, e, env, failOnUnavailable))
  {
    if LeftBy(prepared, n + 1, e, env, failOnUnavailable) {
      var j: nat :| j < n + 1 && Comes(prepared, j, env, failOnUnavailable)
                    && Leaves(prepared[j].action, prepared[j].ordinal, e, env, failOnUnavailable);
      assert j < n ==> LeftBy(prepared, n, e, env, failOnUnavailable);
    }
  }

  lemma {:induction false} WritesLeave(start: Progress, prepared: seq<Prepared>, failOnUnavailable: bool, env: Env,
                                       n: nat, e: Event)
    requires n <= |prepared| && start.events == [] && !start.raised
    ensures var q := Writes(start, prepared, failOnUnavailable, env, n);
            && (q.raised <==> !Comes(prepared, n, env, failOnUnavailable))
            && (Holds(q.events, e) <==> LeftBy(prepared, n, e, env, failOnUnavailable))
  {
    if n > 0 {
      WritesLeave(start, prepared, failOnUnavailable, env, n - 1, e);
      LeftByStep(prepared, n - 1, e, env, failOnUnavailable);
      var p := Writes(start, prepared, failOnUnavailable, env, n - 1);
      if !p.raised {
        TurnLeaves(p, prepared[n - 1], failOnUnavailable, env, e);
      }
    }
  }

  // ---- The preflight ------------------------------------------------------------------------------------

  lemma {:induction false} PreflightIs(actions: seq<Action>, res: Resolutions, env: Env, skipUnresolved: bool, n: nat)
    requires n <= |actions|
    ensures var r := Prepare(actions, res, env, skipUnresolved, n);
            && (r.Ready? <==> forall i :: 0 <= i < n ==> !Blocks(actions, res, env, skipUnresolved, i))
            && (r.Ready? ==> Increasing(r.skipped)
                             && forall i: nat :: i in r.skipped <==> i < n && !Sendable(actions, res, env, i))
  {
    if n > 0 {
      PreflightIs(actions, res, env, skipUnresolved, n - 1);
      var before, a := Prepare(actions, res, env, skipUnresolved, n - 1), actions[n - 1];
      ChoiceIs(actions, res, env, skipUnresolved, n - 1);
      if before.Ready? && Choice(a, n - 1, res, env).Missing? {
        forall j | 0 <= j < |before.skipped| ensures before.skipped[j] < n - 1 {
          assert before.skipped[j] in before.skipped;
        }
      }
    }
  }

  lemma ChoiceIs(actions: seq<Action>, res: Resolutions, env: Env, skipUnresolved: bool, i: nat)
    requires i < |actions|
    ensures var c := Choice(actions[i], i, res, env);
            && (c.Found? <==> Sendable(actions, res, env, i))
            && (c.SearchRaised? || (c.Missing? && !skipUnresolved)
                <==> Blocks(actions, res, env, skipUnresolved, i))
  {
  }

  /** The prepared list is in plan order and holds the actions for which there is a recording. */
  ghost predicate Lists(prepared: seq<Prepared>, actions: seq<Action>, res: Resolutions, env: Env) {
    && (forall j :: 0 <= j < |prepared| ==>
          prepared[j].ordinal < |actions| && prepared[j].action == actions[prepared[j].ordinal]
          && Sendable(actions, res, env, prepared[j].ordinal))
    && (forall i, j :: 0 <= i < j < |prepared| ==> prepared[i].ordinal < prepared[j].ordinal)
    && (forall i: nat :: Sendable(actions, res, env, i) ==> PreparedHas(prepared, i))
  }

  lemma PreparedLists(actions: seq<Action>, res: Resolutions, env: Env, skipUnresolved: bool)
    requires Prepare(actions, res, env, skipUnresolved, |actions|).Ready?
    ensures Lists(Prepare(actions, res, env, skipUnresolved, |actions|).prepared, actions, res, env)
  {
    var r := Prepare(actions, res, env, skipUnresolved, |actions|);
    PreparedSplit(actions, res, env, skipUnresolved, |actions|);
    PreflightIs(actions, res, env, skipUnresolved, |actions|);
    forall j: nat | j < |r.prepared|
      ensures OfPlan(r.prepared[j], actions, res, env) && Sendable(actions, res, env, r.prepared[j].ordinal)
    {
      PreparedOfPlan(actions, res, env, skipUnresolved, |actions|, j);
      ChoiceIs(actions, res, env, skipUnresolved, r.prepared[j].ordinal);
    }
  }

  // ---- The whole apply ----------------------------------------------------------------------------------

  /** The turn of action i comes: there is a recording for it, and no earlier write ends the apply. */
  ghost predicate Reached(actions: seq<Action>, res: Resolutions, env: Env, failOnUnavailable: bool, i: nat) {
    && Sendable(actions, res, env, i)
    && forall j: nat :: j < i && Sendable(actions, res, env, j) ==> !Stops(actions[j], j, env, failOnUnavailable)
  }

  lemma ReachedIff(prepared: seq<Prepared>, actions: seq<Action>, res: Resolutions, env: Env, failOnUnavailable: bool,
                   j: nat)
    requires Lists(prepared, actions, res, env) && j < |prepared|
    ensures Comes(prepared, j, env, failOnUnavailable)
            <==> Reached(actions, res, env, failOnUnavailable, prepared[j].ordinal)
  {
    if Comes(prepared, j, env, failOnUnavailable) {
      forall i: nat | i < prepared[j].ordinal && Sendable(actions, res, env, i)
        ensures !Stops(actions[i], i, env, failOnUnavailable)
      {
        assert PreparedHas(prepared, i);
        var m :| 0 <= m < |prepared| && prepared[m].ordinal == i;
      }
    }
  }

  function OrdinalOf(e: Event): nat
    requires !e.Renewed?
  {
    match e
    case Sent(i, _, _) => i
    case Acknowledged(i, _) => i
    case Refused(i) => i
    case Completed(i) => i
  }

  lemma LeftByPlan(prepared: seq<Prepared>, actions: seq<Action>, res: Resolutions, env: Env, failOnUnavailable: bool,
                   e: Event)
    requires Lists(prepared, actions, res, env) && !e.Renewed?
    ensures LeftBy(prepared, |prepared|, e, env, failOnUnavailable)
            <==> Reached(actions, res, env, failOnUnavailable, OrdinalOf(e))
                 && Leaves(actions[OrdinalOf(e)], OrdinalOf(e), e, env, failOnUnavailable)
  {
    if LeftBy(prepared, |prepared|, e, env, failOnUnavailable) {
      var j: nat :| j < |prepared| && Comes(prepared, j, env, failOnUnavailable)
                    && Leaves(prepared[j].action, prepared[j].ordinal, e, env, failOnUnavailable);
      ReachedIff(prepared, actions, res, env, failOnUnavailable, j);
    }
    if Reached(actions, res, env, failOnUnavailable, OrdinalOf(e)) {
      assert PreparedHas(prepared, OrdinalOf(e));
      var j :| 0 <= j < |prepared| && prepared[j].ordinal == OrdinalOf(e);
      ReachedIff(prepared, actions, res, env, failOnUnavailable, j);
    }
  }

  /** An approved apply whose preflight passes leaves exactly the events that the environment makes of the actions
      it reaches; any other leaves none. */
  lemma LogIs(actions: seq<Action>, res: Resolutions, env: Env, approved: bool, skipUnresolved: bool,
              failOnUnavailable: bool, source: Option<Name>, target: Option<Name>, e: Event)
    requires !e.Renewed?
    ensures Holds(Execution(actions, res, env, approved, skipUnresolved, failOnUnavailable, source, target).events, e)
            <==> && approved && (forall i: nat :: !Blocks(actions, res, env, skipUnresolved, i))
                 && Reached(actions, res, env, failOnUnavailable, OrdinalOf(e))
                 && Leaves(actions[OrdinalOf(e)], OrdinalOf(e), e, env, failOnUnavailable)
  {
    var r := Prepare(actions, res, env, skipUnresolved, |actions|);
    PreflightIs(actions, res, env, skipUnresolved, |actions|);
    if r.Ready? {
      PreparedLists(actions, res, env, skipUnresolved);
      WritesLeave(Progress([], source, target, r.skipped, [], false), r.prepared, failOnUnavailable, env, |r.prepared|,
                  e);
      LeftByPlan(r.prepared, actions, res, env, failOnUnavailable, e);
    }
  }

  /** An apply raises exactly if it is not approved, its preflight stops at some addition, or the write of some
      action ends it. */
  lemma RaisedIff(actions: seq<Action>, res: Resolutions, env: Env, approved: bool, skipUnresolved: bool,
                  failOnUnavailable: bool, source: Option<Name>, target: Option<Name>)
    ensures Execution(actions, res, env, approved, skipUnresolved, failOnUnavailable, source, target).raised
            <==> || !approved || (exists i: nat :: Blocks(actions, res, env, skipUnresolved, i))
                 || exists i: nat :: Sendable(actions, res, env, i) && Stops(actions[i], i, env, failOnUnavailable)
  {
    var r := Prepare(actions, res, env, skipUnresolved, |actions|);
    PreflightIs(actions, res, env, skipUnresolved, |actions|);
    if r.Ready? {
      PreparedLists(actions, res, env, skipUnresolved);
      WritesLeave(Progress([], source, target, r.skipped, [], false), r.prepared, failOnUnavailable, env, |r.prepared|,
                  Renewed);
      if i: nat :| Sendable(actions, res, env, i) && Stops(actions[i], i, env, failOnUnavailable) {
        assert PreparedHas(r.prepared, i);
        var j :| 0 <= j < |r.prepared| && r.prepared[j].ordinal == i;
      }
    }
  }

  // ---- The result ----------------------------------------------------------------------------------------

  /** The refused additions so far, in plan order, follow those skipped by the preflight. */
  ghost predicate ListsRefused(start: Progress, p: Progress) {
    && p.skipped == start.skipped + p.rejected && Increasing(p.rejected)
    && forall i :: i in p.rejected <==> Refused(i) in p.events
  }

  lemma TurnListsRefused(start: Progress, p: Progress, item: Prepared, failOnUnavailable: bool, env: Env)
    requires ListsRefused(start, p) && Below(p.rejected, item.ordinal) && !p.raised
    ensures var q := Turn(p, item, failOnUnavailable, env);
            ListsRefused(start, q) && Below(q.rejected, item.ordinal + 1)
  {
    var q, i, s := Turn(p, item, failOnUnavailable, env), item.ordinal, SentFor(p, item);
    forall j ensures Refused(j) in q.events <==> Refused(j) in p.events || (j == i && q.rejected == p.rejected + [i]) {
      HoldsPush(p.events, Renewed, Refused(j));
      HoldsPush(p.events + [Renewed], s, Refused(j));
    }
  }

  lemma {:induction false} WritesListRefused(start: Progress, prepared: seq<Prepared>, failOnUnavailable: bool,
                                             env: Env, n: nat)
    requires n <= |prepared| && start.events == [] && start.rejected == [] && !start.raised
    requires forall i, j :: 0 <= i < j < |prepared| ==> prepared[i].ordinal < prepared[j].ordinal
    ensures var p := Writes(start, prepared, failOnUnavailable, env, n);
            ListsRefused(start, p) && Below(p.rejected, if n == 0 then 0 else prepared[n - 1].ordinal + 1)
  {
    if n > 0 {
      WritesListRefused(start, prepared, failOnUnavailable, env, n - 1);
      var p := Writes(start, prepared, failOnUnavailable, env, n - 1);
      if !p.raised {
        TurnListsRefused(start, p, prepared[n - 1], failOnUnavailable, env);
      }
    }
  }

  /** An apply that returns lists as skipped, in plan order, first the additions without a recording and then the
      refused ones, and the latter also as rejected. */
  lemma ResultIs(actions: seq<Action>, res: Resolutions, env: Env, approved: bool, skipUnresolved: bool,
                 failOnUnavailable: bool, source: Option<Name>, target: Option<Name>)
    returns (missing: seq<nat>)
    requires !Execution(actions, res, env, approved, skipUnresolved, failOnUnavailable, source, target).raised
    ensures var x := Execution(actions, res, env, approved, skipUnresolved, failOnUnavailable, source, target);
            && x.skipped == missing + x.rejected && Increasing(missing) && Increasing(x.rejected)
            && (forall i: nat :: i in missing <==> i < |actions| && !Sendable(actions, res, env, i))
            && (forall i: nat :: i in x.rejected
                  <==> i < |actions| && Sendable(actions, res, env, i) && env.reply(i) == Unavailable)
  {
    var r := Prepare(actions, res, env, skipUnresolved, |actions|);
    var x := Execution(actions, res, env, approved, skipUnresolved, failOnUnavailable, source, target);
    PreflightIs(actions, res, env, skipUnresolved, |actions|);
    PreparedLists(actions, res, env, skipUnresolved);
    WritesListRefused(Progress([], source, target, r.skipped, [], false), r.prepared, failOnUnavailable, env,
                      |r.prepared|);
    missing := r.skipped;
    RaisedIff(actions, res, env, approved, skipUnresolved, failOnUnavailable, source, target);
    forall i: nat
      ensures i in x.rejected <==> i < |actions| && Sendable(actions, res, env, i) && env.reply(i) == Unavailable
    {
      LogIs(actions, res, env, approved, skipUnresolved, failOnUnavailable, source, target, Refused(i));
    }
  }

  // ---- How events follow each other ------------------------------------------------------------------------

  /** What may come directly before an event: before a send a renewal, before an answer its send, before a
      completion its acknowledgement, and before a renewal nothing or the end of an earlier turn. */
  predicate MayPrecede(before: Option<Event>, e: Event) {
    match e
    case Renewed => before == None || before.value.Completed? || before.value.Refused?
    case Sent(_, _, _) => before == Some(Renewed)
    case Acknowledged(i, _) => before.Some? && before.value.Sent? && before.value.ordinal == i
    case Refused(i) => before.Some? && before.value.Sent? && before.value.ordinal == i
    case Completed(i) => before.Some? && before.value.Acknowledged? && before.value.ordinal == i
  }

  function Before(events: seq<Event>, k: nat): Option<Event>
    requires k <= |events|
  {
    if k == 0 then None else Some(events[k - 1])
  }

  predicate Follows(events: seq<Event>, k: nat) {
    k < |events| && MayPrecede(Before(events, k), events[k])
  }

  predicate Adjacent(events: seq<Event>) {
    forall k :: 0 <= k < |events| ==> Follows(events, k)
  }

  predicate SendsAscend(events: seq<Event>) {
    forall m, n :: 0 <= m < n < |events| && events[m].Sent? && events[n].Sent? ==>
      events[m].ordinal < events[n].ordinal
  }

  predicate SendsBelow(events: seq<Event>, n: nat) {
    forall k :: 0 <= k < |events| && events[k].Sent? ==> events[k].ordinal < n
  }

  lemma PushAdjacent(events: seq<Event>, e: Event)
    requires Adjacent(events) && MayPrecede(Before(events, |events|), e)
    ensures Adjacent(events + [e])
  {
    var longer := events + [e];
    forall k | 0 <= k < |longer| ensures Follows(longer, k) {
      if k < |events| {
        assert Follows(events, k);
        assert Before(longer, k) == Before(events, k);
      } else {
        assert Before(longer, k) == Before(events, |events|);
      }
    }
  }

  lemma PushAscending(events: seq<Event>, e: Event, n: nat)
    requires SendsAscend(events) && SendsBelow(events, n) && (e.Sent? ==> e.ordinal == n)
    ensures SendsAscend(events + [e]) && SendsBelow(events + [e], if e.Sent? then n + 1 else n)
  {
  }

  /** A log so far: well ordered, with sends below n only, and with this last event. */
  ghost predicate Grown(events: seq<Event>, n: nat, last: Option<Event>) {
    Adjacent(events) && SendsAscend(events) && SendsBelow(events, n) && last == Before(events, |events|)
  }

  lemma Grow(events: seq<Event>, n: nat, last: Option<Event>, e: Event)
    requires Grown(events, n, last) && MayPrecede(last, e) && (e.Sent? ==> e.ordinal == n)
    ensures Grown(events + [e], if e.Sent? then n + 1 else n, Some(e))
  {
    PushAdjacent(events, e);
    PushAscending(events, e, n);
    assert (events + [e])[|events|] == e;
  }

  /** The log of turns that did not raise ends between two turns. */
  ghost predicate AtTurn(p: Progress, n: nat) {
    exists last :: Grown(p.events, n, last) && (!p.raised ==> MayPrecede(last, Renewed))
  }

  lemma Widen(events: seq<Event>, m: nat, n: nat, last: Option<Event>)
    requires Grown(events, m, last) && m <= n
    ensures Grown(events, n, last)
  {
  }

  lemma AtTurnWiden(p: Progress, m: nat, n: nat)
    requires AtTurn(p, m) && m <= n
    ensures AtTurn(p, n)
  {
    var last :| Grown(p.events, m, last) && (!p.raised ==> MayPrecede(last, Renewed));
    Widen(p.events, m, n, last);
  }

  lemma SettleOrdered(p: Progress, item: Prepared, snapshot: Option<Name>, env: Env, n: nat, last: Event)
    requires Grown(p.events, n, Some(last)) && last.Sent? && last.ordinal == item.ordinal
    ensures AtTurn(Settle(p, item, snapshot, env), n)
  {
    var answer := Acknowledged(item.ordinal, snapshot);
    Grow(p.events, n, Some(last), answer);
    Grow(p.events + [answer], n, Some(answer), Completed(item.ordinal));
  }

  lemma TurnOrdered(p: Progress, item: Prepared, failOnUnavailable: bool, env: Env)
    requires AtTurn(p, item.ordinal) && !p.raised
    ensures AtTurn(Turn(p, item, failOnUnavailable, env), item.ordinal + 1)
  {
    var i, s := item.ordinal, SentFor(p, item);
    var last :| Grown(p.events, i, last) && MayPrecede(last, Renewed);
    Widen(p.events, i, i + 1, last);
    var armed := p.events + [Renewed];
    Grow(p.events, i, last, Renewed);
    Grow(armed, i, Some(Renewed), s);
    var sent := p.(events := p.events + [Renewed] + [s]);
    match env.reply(i)
    case Accepted(snapshot) => SettleOrdered(sent, item, snapshot, env, i + 1, s);
    case Unavailable => Grow(sent.events, i + 1, Some(s), Refused(i));
    case Broken =>
  }

  lemma {:induction false} WritesOrdered(start: Progress, prepared: seq<Prepared>, failOnUnavailable: bool, env: Env,
                                         n: nat)
    requires n <= |prepared| && start.events == [] && !start.raised
    requires forall i, j :: 0 <= i < j < |prepared| ==> prepared[i].ordinal < prepared[j].ordinal
    ensures AtTurn(Writes(start, prepared, failOnUnavailable, env, n),
                   if n == 0 then 0 else prepared[n - 1].ordinal + 1)
  {
    if n == 0 {
      assert Grown([], 0, None);
    } else {
      WritesOrdered(start, prepared, failOnUnavailable, env, n - 1);
      var p, item := Writes(start, prepared, failOnUnavailable, env, n - 1), prepared[n - 1];
      AtTurnWiden(p, if n == 1 then 0 else prepared[n - 2].ordinal + 1, item.ordinal);
      if p.raised {
        AtTurnWiden(p, item.ordinal, item.ordinal + 1);
      } else {
        TurnOrdered(p, item, failOnUnavailable, env);
      }
    }
  }

  /** Every log is a sequence of turns, the last of which may be cut short: a renewal, the send, and its refusal or
      its acknowledgement and completion; and sends are in plan order. */
  lemma LogIsWellOrdered(actions: seq<Action>, res: Resolutions, env: Env, approved: bool, skipUnresolved: bool,
                         failOnUnavailable: bool, source: Option<Name>, target: Option<Name>)
    ensures var log := Execution(actions, res, env, approved, skipUnresolved, failOnUnavailable, source, target).events;
            Adjacent(log) && SendsAscend(log)
  {
    var r := Prepare(actions, res, env, skipUnresolved, |actions|);
    if approved && r.Ready? {
      PreparedLists(actions, res, env, skipUnresolved);
      WritesOrdered(Progress([], source, target, r.skipped, [], false), r.prepared, failOnUnavailable, env,
                    |r.prepared|);
    }
  }
}
