/** Applying one approved plan: a preflight loop, then a write loop with callbacks between writes. */
module Executor {
  import opened Prelude
  import opened Playlists
  import opened Reconciliation
  import opened TrackIdentity

  /** How a provider answers one write. */
  datatype Reply = Accepted(snapshot: Option<Name>) | Unavailable | Broken

  /** What the catalogue search for an addition without a resolution leads to; it may raise. */
  datatype Search = Found(track: ProviderTrack) | Missing | SearchRaised

  /** Everything outside the executor, per ordinal of the plan. Each ordinal is tried at most once, so
      a function of the ordinal describes every environment: the lease renewals before and after the
      write, the catalogue search, the provider's reply, and whether saving (or, after a refusal,
      invalidating) the mappings and committing the journal entry succeed. */
  datatype Env = Env(renewsBefore: nat -> bool, search: nat -> Search, reply: nat -> Reply,
                     saves: nat -> bool, commits: nat -> bool, renewsAfter: nat -> bool)

  datatype Event =
    | Renewed
    | Sent(ordinal: nat, recording: ProviderTrack, snapshot: Option<Name>)
    | Acknowledged(ordinal: nat, snapshot: Option<Name>)
    | Refused(ordinal: nat)
    | Completed(ordinal: nat)

  datatype Prepared = Prepared(ordinal: nat, action: Action, recording: ProviderTrack)

  datatype Preflight = Ready(prepared: seq<Prepared>, skipped: seq<nat>) | Aborted

  /** Snapshot ids of the two sides, the log so far, and the two lists of the result. */
  datatype Progress = Progress(events: seq<Event>, source: Option<Name>, target: Option<Name>,
                               skipped: seq<nat>, rejected: seq<nat>, raised: bool)

  // ---- The rules ------------------------------------------------------------------------

  function Choice(a: Action, i: nat, res: Resolutions, env: Env): Search {
    if a.kind.RemoveTrack? then Found(Recording(a.track))
    else if i in res then Found(res[i]) else env.search(i)
  }

  function Prepare(actions: seq<Action>, res: Resolutions, env: Env, skipUnresolved: bool, n: nat): Preflight
    requires n <= |actions|
  {
    if n == 0 then Ready([], [])
    else match Prepare(actions, res, env, skipUnresolved, n - 1)
         case Aborted => Aborted
         case Ready(prepared, skipped) =>
           match Choice(actions[n - 1], n - 1, res, env)
           case Found(r) => Ready(prepared + [Prepared(n - 1, actions[n - 1], r)], skipped)
           case Missing => if skipUnresolved then Ready(prepared, skipped + [n - 1]) else Aborted
           case SearchRaised => Aborted
  }

  function SnapshotOf(p: Progress, side: Side): Option<Name> {
    if side.Source? then p.source else p.target
  }

  function WithSnapshot(p: Progress, side: Side, snapshot: Option<Name>): Progress {
    if snapshot.None? then p else if side.Source? then p.(source := snapshot) else p.(target := snapshot)
  }

  /** After a provider accepted the write: save the mappings of an add, commit the entry, renew. */
  function Settle(p: Progress, item: Prepared, snapshot: Option<Name>, env: Env): Progress {
    var i := item.ordinal;
    var acked := p.(events := p.events + [Acknowledged(i, snapshot)]);
    if item.action.kind.AddTrack? && !env.saves(i) then acked.(raised := true)
    else
      var updated := WithSnapshot(acked, item.action.side, snapshot);
      if !env.commits(i) then updated.(raised := true)
      else updated.(events := updated.events + [Completed(i)], raised := !env.renewsAfter(i))
  }

  /** After a provider refused an addition: drop the cached mapping and go on without it. */
  function Refuse(p: Progress, i: nat, env: Env): Progress {
    if !env.saves(i) then p.(raised := true)
    else p.(events := p.events + [Refused(i)], skipped := p.skipped + [i], rejected := p.rejected + [i])
  }

  function SentFor(p: Progress, item: Prepared): Event {
    Sent(item.ordinal, item.recording, if item.action.kind.RemoveTrack? then SnapshotOf(p, item.action.side) else None)
  }

  /** One turn of the write loop. */
  function Turn(p: Progress, item: Prepared, failOnUnavailable: bool, env: Env): Progress {
    var i := item.ordinal;
    if !env.renewsBefore(i) then p.(raised := true)
    else
      var sent := p.(events := p.events + [Renewed] + [SentFor(p, item)]);
      match env.reply(i)
      case Accepted(s) => Settle(sent, item, s, env)
      case Broken => sent.(raised := true)
      case Unavailable =>
        if item.action.kind.RemoveTrack? || failOnUnavailable then sent.(raised := true) else Refuse(sent, i, env)
  }

  function Writes(start: Progress, prepared: seq<Prepared>, failOnUnavailable: bool, env: Env, n: nat): Progress
    requires n <= |prepared|
  {
    if n == 0 then start
    else
      var p := Writes(start, prepared, failOnUnavailable, env, n - 1);
      if p.raised then p else Turn(p, prepared[n - 1], failOnUnavailable, env)
  }

  /** The whole of SyncExecutor.apply. A refused approval or a failed preflight sends nothing. */
  function Execution(actions: seq<Action>, res: Resolutions, env: Env, approved: bool, skipUnresolved: bool,
                     failOnUnavailable: bool, source: Option<Name>, target: Option<Name>): Progress
  {
    var nothing := Progress([], source, target, [], [], true);
    if !approved then nothing
    else match Prepare(actions, res, env, skipUnresolved, |actions|)
         case Aborted => nothing
         case Ready(prepared, skipped) =>
           Writes(Progress([], source, target, skipped, [], false), prepared, failOnUnavailable, env, |prepared|)
  }

  // ---- The program ----------------------------------------------------------------------------

  /** What the callbacks and providers have observed of one apply. */
  class ApplyLog {
    var events: seq<Event>

    constructor ()
      ensures events == []
    {
      events := [];
    }

    method Record(e: Event, p: Progress) returns (q: Progress)
      requires p.events == events
      modifies this
      ensures q == p.(events := p.events + [e]) && events == q.events
    {
      events := events + [e];
      q := p.(events := events);
    }
  }

  method RunPreflight(actions: seq<Action>, res: Resolutions, env: Env, skipUnresolved: bool) returns (r: Preflight)
    ensures r == Prepare(actions, res, env, skipUnresolved, |actions|)
  {
    var prepared: seq<Prepared>, skipped: seq<nat> := [], [];
    for index := 0 to |actions|
      invariant Ready(prepared, skipped) == Prepare(actions, res, env, skipUnresolved, index)
    {
      var action := actions[index];
      var resolved := Found(Recording(action.track));
      if action.kind.AddTrack? {
        resolved := if index in res then Found(res[index]) else env.search(index);
      }
      if resolved.Found? {
        prepared := prepared + [Prepared(index, action, resolved.track)];
      } else if resolved.Missing? && skipUnresolved {
        skipped := skipped + [index];
      } else {
        AbortedForGood(actions, res, env, skipUnresolved, index + 1);
        return Aborted;
      }
    }
    r := Ready(prepared, skipped);
  }

  lemma {:induction false} AbortedForGood(actions: seq<Action>, res: Resolutions, env: Env, skipUnresolved: bool,
                                          n: nat)
    requires n <= |actions| && Prepare(actions, res, env, skipUnresolved, n).Aborted?
    ensures Prepare(actions, res, env, skipUnresolved, |actions|).Aborted?
    decreases |actions| - n
  {
    if n < |actions| {
      AbortedForGood(actions, res, env, skipUnresolved, n + 1);
    }
  }

  /** The callbacks after a provider accepted a write. */
  method SettleOne(log: ApplyLog, item: Prepared, snapshot: Option<Name>, env: Env, p: Progress) returns (q: Progress)
    requires p.events == log.events
    modifies log
    ensures q == Settle(p, item, snapshot, env) && log.events == q.events
  {
    q := log.Record(Acknowledged(item.ordinal, snapshot), p);
    if item.action.kind.AddTrack? && !env.saves(item.ordinal) {
      q := q.(raised := true);
    } else {
      if snapshot.Some? {
        q := if item.action.side.Source? then q.(source := snapshot) else q.(target := snapshot);
      }
      if env.commits(item.ordinal) {
        q := log.Record(Completed(item.ordinal), q);
        q := q.(raised := !env.renewsAfter(item.ordinal));
      } else {
        q := q.(raised := true);
      }
    }
  }

  /** The callback after a provider refused an addition. */
  method RefuseOne(log: ApplyLog, i: nat, env: Env, p: Progress) returns (q: Progress)
    requires p.events == log.events
    modifies log
    ensures q == Refuse(p, i, env) && log.events == q.events
  {
    if env.saves(i) {
      q := log.Record(Refused(i), p);
      q := q.(skipped := q.skipped + [i], rejected := q.rejected + [i]);
    } else {
      q := p.(raised := true);
    }
  }

  /** The write of one prepared action and the callbacks around it. */
  method WriteOne(log: ApplyLog, item: Prepared, failOnUnavailable: bool, env: Env, p: Progress) returns (q: Progress)
    requires p.events == log.events
    modifies log
    ensures q == Turn(p, item, failOnUnavailable, env) && log.events == q.events
  {
    if !env.renewsBefore(item.ordinal) {
      q := p.(raised := true);
    } else {
      var snapshot := None;
      if item.action.kind.RemoveTrack? {
        snapshot := if item.action.side.Source? then p.source else p.target;
      }
      q := log.Record(Renewed, p);
      q := log.Record(Sent(item.ordinal, item.recording, snapshot), q);
      match env.reply(item.ordinal)
      case Broken =>
        q := q.(raised := true);
      case Unavailable =>
        if item.action.kind.RemoveTrack? || failOnUnavailable {
          q := q.(raised := true);
        } else {
          q := RefuseOne(log, item.ordinal, env, q);
        }
      case Accepted(s) =>
        q := SettleOne(log, item, s, env, q);
    }
  }

  method Apply(log: ApplyLog, actions: seq<Action>, res: Resolutions, env: Env, approved: bool, skipUnresolved: bool,
               failOnUnavailable: bool, source: Option<Name>, target: Option<Name>)
    returns (raised: bool, skipped: seq<nat>, rejected: seq<nat>)
    requires log.events == []
    modifies log
    ensures var x := Execution(actions, res, env, approved, skipUnresolved, failOnUnavailable, source, target);
            log.events == x.events && raised == x.raised && (!raised ==> skipped == x.skipped && rejected == x.rejected)
  {
    skipped, rejected := [], [];
    if !approved {
      return true, skipped, rejected;
    }
    var preflight := RunPreflight(actions, res, env, skipUnresolved);
    if preflight.Aborted? {
      return true, skipped, rejected;
    }
    var prepared := preflight.prepared;
    var start := Progress([], source, target, preflight.skipped, [], false);
    var p := start;
    for k := 0 to |prepared|
      invariant p == Writes(start, prepared, failOnUnavailable, env, k) && !p.raised && log.events == p.events
    {
      p := WriteOne(log, prepared[k], failOnUnavailable, env, p);
      if p.raised {
        RaisedForGood(start, prepared, failOnUnavailable, env, k + 1);
        return true, skipped, rejected;
      }
    }
    raised, skipped, rejected := false, p.skipped, p.rejected;
  }

  lemma {:induction false} RaisedForGood(start: Progress, prepared: seq<Prepared>, failOnUnavailable: bool, env: Env,
                                         n: nat)
    requires n <= |prepared| && Writes(start, prepared, failOnUnavailable, env, n).raised
    ensures Writes(start, prepared, failOnUnavailable, env, |prepared|)
              == Writes(start, prepared, failOnUnavailable, env, n)
    decreases |prepared| - n
  {
    if n < |prepared| {
      RaisedForGood(start, prepared, failOnUnavailable, env, n + 1);
    }
  }

  // ---- What every execution guarantees ------------------------------------------------------------

  /** Reading a log from the left: ordinals sent, acknowledged and completed; whether the last event
      is a renewal; whether every send so far came directly after one. */
  datatype Tally = Tally(sends: seq<nat>, acks: seq<nat>, completions: seq<nat>, armed: bool, fenced: bool)

  function Add(t: Tally, e: Event): Tally {
    match e
    case Renewed => t.(armed := true)
    case Sent(i, _, _) => t.(sends := t.sends + [i], armed := false, fenced := t.fenced && t.armed)
    case Acknowledged(i, _) => t.(acks := t.acks + [i], armed := false)
    case Refused(_) => t.(armed := false)
    case Completed(i) => t.(completions := t.completions + [i], armed := false)
  }

  function TallyOf(events: seq<Event>): Tally {
    if events == [] then Tally([], [], [], false, true)
    else Add(TallyOf(events[..|events| - 1]), events[|events| - 1])
  }

  predicate Increasing(xs: seq<nat>) {
    forall i, j :: 0 <= i < j < |xs| ==> xs[i] < xs[j]
  }

  predicate Below(xs: seq<nat>, n: nat) {
    forall i :: 0 <= i < |xs| ==> xs[i] < n
  }

  predicate AheadByAtMostOne(acks: seq<nat>, completions: seq<nat>) {
    completions <= acks && |acks| <= |completions| + 1
  }

  /** An acceptable log: sends in plan order and never twice, each right after a renewal, writes
      acknowledged once and only if sent, and at most one of them ahead of the completed entries. */
  predicate Sound(t: Tally) {
    && Increasing(t.sends) && t.fenced && Increasing(t.acks) && AheadByAtMostOne(t.acks, t.completions)
    && (forall i :: i in t.acks ==> i in t.sends)
  }

  predicate AlwaysSound(events: seq<Event>) {
    Sound(TallyOf(events)) && (events != [] ==> AlwaysSound(events[..|events| - 1]))
  }

  lemma {:induction false} SoundAtEveryMoment(events: seq<Event>, m: nat)
    requires AlwaysSound(events) && m <= |events|
    ensures Sound(TallyOf(events[..m]))
  {
    if m == |events| {
      assert events[..m] == events;
    } else {
      SoundAtEveryMoment(events[..|events| - 1], m);
      assert events[..|events| - 1][..m] == events[..m];
    }
  }

  lemma Append(events: seq<Event>, e: Event)
    ensures TallyOf(events + [e]) == Add(TallyOf(events), e)
    ensures AlwaysSound(events) && Sound(Add(TallyOf(events), e)) ==> AlwaysSound(events + [e])
  {
    assert (events + [e])[..|events|] == events;
  }

  lemma IncreasingPush(xs: seq<nat>, n: nat)
    requires Increasing(xs) && Below(xs, n)
    ensures Increasing(xs + [n]) && Below(xs + [n], n + 1)
  {
  }

  /** Between turns nothing is left open, and what is completed lies below n and was not skipped. */
  ghost predicate Between(p: Progress, n: nat) {
    var t := TallyOf(p.events);
    AlwaysSound(p.events) && t.acks == t.completions && Below(t.sends, n)
      && CompletedNotSkipped(t.completions, p.skipped, n)
  }

  predicate CompletedNotSkipped(completions: seq<nat>, skipped: seq<nat>, n: nat) {
    forall i :: 0 <= i < |completions| ==> completions[i] < n && completions[i] !in skipped
  }

  /** The write of ordinal i is in flight: it is the last send and everything before it is settled. */
  ghost predicate InFlight(p: Progress, i: nat) {
    var t := TallyOf(p.events);
    && AlwaysSound(p.events) && t.acks == t.completions && Below(t.sends, i + 1) && i in t.sends
    && CompletedNotSkipped(t.completions, p.skipped, i) && i !in p.skipped
  }

  lemma SendSound(p: Progress, e: Event)
    requires e.Sent? && Between(p, e.ordinal) && e.ordinal !in p.skipped
    ensures InFlight(p.(events := p.events + [Renewed] + [e]), e.ordinal)
    ensures TallyOf(p.events + [Renewed] + [e]).completions == TallyOf(p.events).completions
  {
    Append(p.events, Renewed);
    Append(p.events + [Renewed], e);
    IncreasingPush(TallyOf(p.events).sends, e.ordinal);
    var t := TallyOf(p.events + [Renewed] + [e]);
    assert t.sends[|t.sends| - 1] == e.ordinal;
    assert forall i :: i in TallyOf(p.events).sends ==> i in t.sends;
  }

  lemma AckSound(p: Progress, i: nat, s: Option<Name>)
    requires InFlight(p, i)
    ensures AlwaysSound(p.events + [Acknowledged(i, s)])
              && AlwaysSound(p.events + [Acknowledged(i, s)] + [Completed(i)])
    ensures TallyOf(p.events + [Acknowledged(i, s)] + [Completed(i)]) ==
            TallyOf(p.events).(acks := TallyOf(p.events).acks + [i],
                               completions := TallyOf(p.events).completions + [i], armed := false)
  {
    Append(p.events, Acknowledged(i, s));
    Append(p.events + [Acknowledged(i, s)], Completed(i));
    IncreasingPush(TallyOf(p.events).acks, i);
  }

  /** One step of the loop is sound throughout; if it does not raise, ordinal i is accounted for. */
  ghost predicate Accounted(p: Progress, q: Progress, i: nat) {
    && AlwaysSound(q.events) && p.skipped <= q.skipped
    && (!q.raised ==> (
          && Between(q, i + 1)
          && TallyOf(p.events).completions <= TallyOf(q.events).completions
          && ((i in TallyOf(q.events).completions && q.skipped == p.skipped) || q.skipped == p.skipped + [i])))
  }

  lemma SettleSound(p: Progress, item: Prepared, s: Option<Name>, env: Env)
    requires InFlight(p, item.ordinal)
    ensures Accounted(p, Settle(p, item, s, env), item.ordinal)
  {
    var i := item.ordinal;
    AckSound(p, i, s);
    var q := Settle(p, item, s, env);
    if !q.raised {
      var t := TallyOf(q.events);
      assert q.events == p.events + [Acknowledged(i, s)] + [Completed(i)];
      assert t.completions[|t.completions| - 1] == i;
    }
  }

  lemma RefuseSound(p: Progress, i: nat, env: Env)
    requires InFlight(p, i)
    ensures Accounted(p, Refuse(p, i, env), i)
  {
    Append(p.events, Refused(i));
    assert TallyOf(p.events + [Refused(i)]) == TallyOf(p.events).(armed := false);
  }

  lemma TurnSound(p: Progress, item: Prepared, failOnUnavailable: bool, env: Env)
    requires Between(p, item.ordinal) && item.ordinal !in p.skipped && !p.raised
    ensures Accounted(p, Turn(p, item, failOnUnavailable, env), item.ordinal)
  {
    var i := item.ordinal;
    SendSound(p, SentFor(p, item));
    var sent := p.(events := p.events + [Renewed] + [SentFor(p, item)]);
    RefuseSound(sent, i, env);
    if env.reply(i).Accepted? {
      SettleSound(sent, item, env.reply(i).snapshot, env);
    }
  }

  /** The preflight splits the ordinals below n into those prepared and those skipped, in plan order. */
  ghost predicate Split(r: Preflight, n: nat) {
    r.Ready? ==>
      && (forall j :: 0 <= j < |r.prepared| ==> r.prepared[j].ordinal < n && r.prepared[j].ordinal !in r.skipped)
      && (forall i, j :: 0 <= i < j < |r.prepared| ==> r.prepared[i].ordinal < r.prepared[j].ordinal)
      && Below(r.skipped, n)
      && (forall i: nat :: i < n ==> i in r.skipped || PreparedHas(r.prepared, i))
  }

  ghost predicate PreparedHas(prepared: seq<Prepared>, i: nat) {
    exists j :: 0 <= j < |prepared| && prepared[j].ordinal == i
  }

  lemma {:induction false} PreparedSplit(actions: seq<Action>, res: Resolutions, env: Env, skipUnresolved: bool, n: nat)
    requires n <= |actions|
    ensures Split(Prepare(actions, res, env, skipUnresolved, n), n)
  {
    if n > 0 {
      PreparedSplit(actions, res, env, skipUnresolved, n - 1);
      var before := Prepare(actions, res, env, skipUnresolved, n - 1);
      if before.Ready? {
        match Choice(actions[n - 1], n - 1, res, env)
        case Found(r) => SplitPrepared(before, n - 1, Prepared(n - 1, actions[n - 1], r));
        case Missing => SplitSkipped(before, n - 1);
        case SearchRaised =>
      }
    }
  }

  lemma SplitPrepared(r: Preflight, n: nat, item: Prepared)
    requires r.Ready? && Split(r, n) && item.ordinal == n
    ensures Split(Ready(r.prepared + [item], r.skipped), n + 1)
  {
    var prepared := r.prepared + [item];
    assert n !in r.skipped;
    assert prepared[|r.prepared|].ordinal == n;
    forall i: nat | i <= n ensures i in r.skipped || PreparedHas(prepared, i) {
      if i < n && i !in r.skipped {
        var j :| 0 <= j < |r.prepared| && r.prepared[j].ordinal == i;
        assert prepared[j].ordinal == i;
      }
    }
  }

  lemma SplitSkipped(r: Preflight, n: nat)
    requires r.Ready? && Split(r, n)
    ensures Split(Ready(r.prepared, r.skipped + [n]), n + 1)
  {
    var skipped := r.skipped + [n];
    assert skipped[|r.skipped|] == n;
    forall i: nat | i <= n ensures i in skipped || PreparedHas(r.prepared, i) {
      if i < n && i in r.skipped {
        assert i in skipped;
      }
    }
  }

  /** After k turns: the log was sound at every moment, and unless something was raised each of the
      first k prepared ordinals is completed or newly skipped. */
  ghost predicate Turns(p: Progress, start: Progress, prepared: seq<Prepared>, k: nat)
    requires k <= |prepared|
  {
    && AlwaysSound(p.events)
    && (!p.raised ==> (
          && Between(p, if k == 0 then 0 else prepared[k - 1].ordinal + 1)
          && (forall i :: i in start.skipped ==> i in p.skipped)
          && (forall j :: 0 <= j < k ==>
                prepared[j].ordinal in TallyOf(p.events).completions || prepared[j].ordinal in p.skipped)
          && (forall j :: k <= j < |prepared| ==> prepared[j].ordinal !in p.skipped)))
  }

  /** Prepared ordinals increase and none of them starts out skipped. */
  ghost predicate InPlanOrder(start: Progress, prepared: seq<Prepared>) {
    && (forall i, j :: 0 <= i < j < |prepared| ==> prepared[i].ordinal < prepared[j].ordinal)
    && (forall j :: 0 <= j < |prepared| ==> prepared[j].ordinal !in start.skipped)
  }

  lemma TurnsStep(p: Progress, q: Progress, start: Progress, prepared: seq<Prepared>, k: nat)
    requires k < |prepared| && InPlanOrder(start, prepared)
    requires Turns(p, start, prepared, k) && !p.raised && Accounted(p, q, prepared[k].ordinal)
    ensures Turns(q, start, prepared, k + 1)
  {
    if !q.raised {
      var c, d := TallyOf(p.events).completions, TallyOf(q.events).completions;
      assert forall x :: x in c ==> x in d;
      assert forall x :: x in p.skipped ==> x in q.skipped;
      assert q.skipped == p.skipped + [prepared[k].ordinal] ==> prepared[k].ordinal in q.skipped;
    }
  }

  lemma BetweenWiden(p: Progress, m: nat, n: nat)
    requires Between(p, m) && m <= n
    ensures Between(p, n)
  {
  }

  lemma TurnsTurn(p: Progress, start: Progress, prepared: seq<Prepared>, k: nat, failOnUnavailable: bool, env: Env)
    requires k < |prepared| && InPlanOrder(start, prepared) && Turns(p, start, prepared, k) && !p.raised
    ensures Turns(Turn(p, prepared[k], failOnUnavailable, env), start, prepared, k + 1)
  {
    var i := prepared[k].ordinal;
    BetweenWiden(p, if k == 0 then 0 else prepared[k - 1].ordinal + 1, i);
    TurnSound(p, prepared[k], failOnUnavailable, env);
    TurnsStep(p, Turn(p, prepared[k], failOnUnavailable, env), start, prepared, k);
  }

  lemma {:induction false} WritesSound(start: Progress, prepared: seq<Prepared>, failOnUnavailable: bool, env: Env,
                                       k: nat)
    requires k <= |prepared| && start.events == [] && !start.raised && InPlanOrder(start, prepared)
    ensures Turns(Writes(start, prepared, failOnUnavailable, env, k), start, prepared, k)
  {
    if k == 0 {
      assert TallyOf(start.events) == Tally([], [], [], false, true);
    } else {
      WritesSound(start, prepared, failOnUnavailable, env, k - 1);
      var p := Writes(start, prepared, failOnUnavailable, env, k - 1);
      if !p.raised {
        TurnsTurn(p, start, prepared, k - 1, failOnUnavailable, env);
      }
    }
  }

  /** Every apply, whatever the providers, the lease and the database do: at every moment the log is
      sound. So no ordinal is sent twice, each send directly follows a successful renewal, and
      acknowledged writes are at most one ahead of completed journal entries. */
  lemma EveryApplyIsSound(actions: seq<Action>, res: Resolutions, env: Env, approved: bool, skipUnresolved: bool,
                          failOnUnavailable: bool, source: Option<Name>, target: Option<Name>, m: nat)
    requires m <= |Execution(actions, res, env, approved, skipUnresolved, failOnUnavailable, source, target).events|
    ensures Sound(TallyOf(Execution(actions, res, env, approved, skipUnresolved, failOnUnavailable,
                                    source, target).events[..m]))
  {
    var x := Execution(actions, res, env, approved, skipUnresolved, failOnUnavailable, source, target);
    PreparedSplit(actions, res, env, skipUnresolved, |actions|);
    var r := Prepare(actions, res, env, skipUnresolved, |actions|);
    if approved && r.Ready? {
      WritesSound(Progress([], source, target, r.skipped, [], false), r.prepared, failOnUnavailable, env, |r.prepared|);
    }
    SoundAtEveryMoment(x.events, m);
  }

  /** An apply that returns has accounted for every ordinal exactly once: completed or skipped. */
  lemma ReturnsAccountForAll(actions: seq<Action>, res: Resolutions, env: Env, approved: bool, skipUnresolved: bool,
                             failOnUnavailable: bool, source: Option<Name>, target: Option<Name>, i: nat)
    requires !Execution(actions, res, env, approved, skipUnresolved, failOnUnavailable, source, target).raised
    requires i < |actions|
    ensures var x := Execution(actions, res, env, approved, skipUnresolved, failOnUnavailable, source, target);
            (i in TallyOf(x.events).completions) != (i in x.skipped)
  {
    PreparedSplit(actions, res, env, skipUnresolved, |actions|);
    var r := Prepare(actions, res, env, skipUnresolved, |actions|);
    var start := Progress([], source, target, r.skipped, [], false);
    WritesSound(start, r.prepared, failOnUnavailable, env, |r.prepared|);
    AccountedFor(Writes(start, r.prepared, failOnUnavailable, env, |r.prepared|), start, r, |actions|, i);
  }

  lemma AccountedFor(p: Progress, start: Progress, r: Preflight, n: nat, i: nat)
    requires r.Ready? && Split(r, n) && start.skipped == r.skipped && i < n
    requires Turns(p, start, r.prepared, |r.prepared|) && !p.raised
    ensures (i in TallyOf(p.events).completions) != (i in p.skipped)
  {
    if i !in r.skipped {
      assert PreparedHas(r.prepared, i);
      var j :| 0 <= j < |r.prepared| && r.prepared[j].ordinal == i;
    }
  }

  /** Nothing is sent unless the approval is valid, no search raises, and every addition was resolved or may
      be skipped. */
  lemma NothingBeforePreflight(actions: seq<Action>, res: Resolutions, env: Env, approved: bool, skipUnresolved: bool,
                               failOnUnavailable: bool, source: Option<Name>, target: Option<Name>, i: nat)
    requires || !approved
             || (i < |actions| && Choice(actions[i], i, res, env).SearchRaised?)
             || (i < |actions| && Choice(actions[i], i, res, env).Missing? && !skipUnresolved)
    ensures Execution(actions, res, env, approved, skipUnresolved, failOnUnavailable, source, target).events == []
  {
    if approved {
      AbortedForGood(actions, res, env, skipUnresolved, i + 1);
    }
  }

  // ---- What is sent is what was reviewed --------------------------------------------------------

  function Initial(side: Side, source: Option<Name>, target: Option<Name>): Option<Name> {
    if side.Source? then source else target
  }

  /** The newest snapshot of a side that any acknowledged write of the log returned. */
  function Newest(events: seq<Event>, actions: seq<Action>, side: Side, initial: Option<Name>): Option<Name> {
    if events == [] then initial
    else
      var e := events[|events| - 1];
      if e.Acknowledged? && e.ordinal < |actions| && actions[e.ordinal].side == side && e.snapshot.Some? then e.snapshot
      else Newest(events[..|events| - 1], actions, side, initial)
  }

  /** A send names the recording that was resolved for its ordinal, or the occurrence to remove and
      then also the newest snapshot of its side. */
  predicate AsReviewed(before: seq<Event>, e: Event, actions: seq<Action>, res: Resolutions, env: Env,
                       source: Option<Name>, target: Option<Name>)
  {
    e.Sent? ==>
      && e.ordinal < |actions| && Found(e.recording) == Choice(actions[e.ordinal], e.ordinal, res, env)
      && var a := actions[e.ordinal];
         e.snapshot == if a.kind.RemoveTrack? then Newest(before, actions, a.side, Initial(a.side, source, target))
                       else None
  }

  predicate AllAsReviewed(events: seq<Event>, actions: seq<Action>, res: Resolutions, env: Env,
                          source: Option<Name>, target: Option<Name>)
  {
    events != [] ==>
      && AllAsReviewed(events[..|events| - 1], actions, res, env, source, target)
      && AsReviewed(events[..|events| - 1], events[|events| - 1], actions, res, env, source, target)
  }

  lemma {:induction false} ReviewedAt(events: seq<Event>, actions: seq<Action>, res: Resolutions, env: Env,
                                      source: Option<Name>, target: Option<Name>, k: nat)
    requires AllAsReviewed(events, actions, res, env, source, target) && k < |events|
    ensures AsReviewed(events[..k], events[k], actions, res, env, source, target)
  {
    if k < |events| - 1 {
      ReviewedAt(events[..|events| - 1], actions, res, env, source, target, k);
      assert events[..|events| - 1][..k] == events[..k];
    }
  }

  lemma PushEvent(events: seq<Event>, e: Event, actions: seq<Action>, res: Resolutions, env: Env,
                  source: Option<Name>, target: Option<Name>)
    requires AllAsReviewed(events, actions, res, env, source, target)
               && AsReviewed(events, e, actions, res, env, source, target)
    ensures AllAsReviewed(events + [e], actions, res, env, source, target)
    ensures forall side, initial :: Newest(events + [e], actions, side, initial) ==
              if e.Acknowledged? && e.ordinal < |actions| && actions[e.ordinal].side == side && e.snapshot.Some?
              then e.snapshot
              else Newest(events, actions, side, initial)
  {
    assert (events + [e])[..|events|] == events;
  }

  /** The snapshots the loop carries are the newest ones, as long as nothing was raised. */
  ghost predicate Current(p: Progress, actions: seq<Action>, res: Resolutions, env: Env, source: Option<Name>,
                          target: Option<Name>) {
    && AllAsReviewed(p.events, actions, res, env, source, target)
    && (!p.raised ==> forall side ::
        SnapshotOf(p, side) == Newest(p.events, actions, side, Initial(side, source, target)))
  }

  /** A prepared entry belongs to the action of its ordinal and carries its resolution. */
  predicate OfPlan(item: Prepared, actions: seq<Action>, res: Resolutions, env: Env) {
    && item.ordinal < |actions| && item.action == actions[item.ordinal]
    && Found(item.recording) == Choice(item.action, item.ordinal, res, env)
  }

  lemma {:induction false} PreparedOfPlan(actions: seq<Action>, res: Resolutions, env: Env, skipUnresolved: bool,
                                          n: nat, j: nat)
    requires n <= |actions|
    requires var r := Prepare(actions, res, env, skipUnresolved, n); r.Ready? && j < |r.prepared|
    ensures OfPlan(Prepare(actions, res, env, skipUnresolved, n).prepared[j], actions, res, env)
  {
    var before := Prepare(actions, res, env, skipUnresolved, n - 1);
    if j < |before.prepared| {
      PreparedOfPlan(actions, res, env, skipUnresolved, n - 1, j);
    }
  }

  lemma AckCurrent(p: Progress, item: Prepared, s: Option<Name>, actions: seq<Action>, res: Resolutions, env: Env,
                   source: Option<Name>, target: Option<Name>)
    requires Current(p, actions, res, env, source, target) && !p.raised && OfPlan(item, actions, res, env)
    ensures Current(WithSnapshot(p.(events := p.events + [Acknowledged(item.ordinal, s)]), item.action.side, s),
                    actions, res, env, source, target)
  {
    PushEvent(p.events, Acknowledged(item.ordinal, s), actions, res, env, source, target);
  }

  lemma CompleteCurrent(p: Progress, i: nat, actions: seq<Action>, res: Resolutions, env: Env,
                        source: Option<Name>, target: Option<Name>)
    requires Current(p, actions, res, env, source, target) && !p.raised
    ensures Current(p.(events := p.events + [Completed(i)]), actions, res, env, source, target)
  {
    PushEvent(p.events, Completed(i), actions, res, env, source, target);
  }

  /** Raising afterwards changes nothing about what was sent. */
  lemma RaisedCurrent(p: Progress, q: Progress, actions: seq<Action>, res: Resolutions, env: Env,
                      source: Option<Name>, target: Option<Name>)
    requires Current(p, actions, res, env, source, target) && q.events == p.events
    requires q.raised || q == p
    ensures Current(q, actions, res, env, source, target)
  {
  }

  lemma SettleCurrent(p: Progress, item: Prepared, s: Option<Name>, actions: seq<Action>, res: Resolutions, env: Env,
                      source: Option<Name>, target: Option<Name>)
    requires Current(p, actions, res, env, source, target) && !p.raised && OfPlan(item, actions, res, env)
    ensures Current(Settle(p, item, s, env), actions, res, env, source, target)
  {
    var acked := p.(events := p.events + [Acknowledged(item.ordinal, s)]);
    var updated := WithSnapshot(acked, item.action.side, s);
    AckCurrent(p, item, s, actions, res, env, source, target);
    CompleteCurrent(updated, item.ordinal, actions, res, env, source, target);
    if item.action.kind.AddTrack? && !env.saves(item.ordinal) {
      RaisedCurrent(updated, acked.(raised := true), actions, res, env, source, target);
    } else if !env.commits(item.ordinal) {
      RaisedCurrent(updated, updated.(raised := true), actions, res, env, source, target);
    } else {
      var done := updated.(events := updated.events + [Completed(item.ordinal)]);
      RaisedCurrent(done, done.(raised := !env.renewsAfter(item.ordinal)), actions, res, env, source, target);
    }
  }

  lemma TurnCurrent(p: Progress, item: Prepared, failOnUnavailable: bool, actions: seq<Action>, res: Resolutions,
                    env: Env, source: Option<Name>, target: Option<Name>)
    requires Current(p, actions, res, env, source, target) && !p.raised && OfPlan(item, actions, res, env)
    ensures Current(Turn(p, item, failOnUnavailable, env), actions, res, env, source, target)
  {
    var i, e := item.ordinal, SentFor(p, item);
    PushEvent(p.events, Renewed, actions, res, env, source, target);
    PushEvent(p.events + [Renewed], e, actions, res, env, source, target);
    var sent := p.(events := p.events + [Renewed] + [e]);
    PushEvent(sent.events, Refused(i), actions, res, env, source, target);
    if env.reply(i).Accepted? {
      SettleCurrent(sent, item, env.reply(i).snapshot, actions, res, env, source, target);
    }
  }

  lemma {:induction false} WritesCurrent(start: Progress, prepared: seq<Prepared>, failOnUnavailable: bool, k: nat,
                                         actions: seq<Action>, res: Resolutions, env: Env)
    requires k <= |prepared| && start.events == [] && !start.raised
    requires forall j :: 0 <= j < |prepared| ==> OfPlan(prepared[j], actions, res, env)
    ensures Current(Writes(start, prepared, failOnUnavailable, env, k), actions, res, env, start.source, start.target)
  {
    if k > 0 {
      WritesCurrent(start, prepared, failOnUnavailable, k - 1, actions, res, env);
      var p := Writes(start, prepared, failOnUnavailable, env, k - 1);
      if !p.raised {
        TurnCurrent(p, prepared[k - 1], failOnUnavailable, actions, res, env, start.source, start.target);
      }
    }
  }

  lemma ExecutionAsReviewed(actions: seq<Action>, res: Resolutions, env: Env, approved: bool, skipUnresolved: bool,
                            failOnUnavailable: bool, source: Option<Name>, target: Option<Name>)
    ensures AllAsReviewed(Execution(actions, res, env, approved, skipUnresolved, failOnUnavailable,
                                    source, target).events,
                          actions, res, env, source, target)
  {
    var r := Prepare(actions, res, env, skipUnresolved, |actions|);
    if approved && r.Ready? {
      forall j: nat | j < |r.prepared| ensures OfPlan(r.prepared[j], actions, res, env) {
        PreparedOfPlan(actions, res, env, skipUnresolved, |actions|, j);
      }
      var start := Progress([], source, target, r.skipped, [], false);
      WritesCurrent(start, r.prepared, failOnUnavailable, |r.prepared|, actions, res, env);
    }
  }

  /** What a send names, in the plan's and the resolutions' own terms. A removal names the whole reviewed
      occurrence, field by field, together with the newest snapshot its side returned so far. An addition names
      its reviewed resolution if it has one, whatever a search would find, and otherwise what the search found. */
  predicate NamesReviewed(before: seq<Event>, i: nat, r: ProviderTrack, snapshot: Option<Name>, actions: seq<Action>,
                          res: Resolutions, env: Env, source: Option<Name>, target: Option<Name>)
  {
    && i < |actions|
    && var a := actions[i];
       if a.kind == RemoveTrack then
         && r.id == a.track.id && r.isrc == a.track.isrc && r.position == a.track.position && r.info == a.track.info
         && snapshot == Newest(before, actions, a.side, if a.side == Source then source else target)
       else
         snapshot == None && if i in res then r == res[i] else env.search(i) == Found(r)
  }

  /** Every send of every apply names what was reviewed. */
  lemma SendsAreReviewed(actions: seq<Action>, res: Resolutions, env: Env, approved: bool, skipUnresolved: bool,
                         failOnUnavailable: bool, source: Option<Name>, target: Option<Name>, k: nat)
    requires k < |Execution(actions, res, env, approved, skipUnresolved, failOnUnavailable, source, target).events|
    ensures var events := Execution(actions, res, env, approved, skipUnresolved, failOnUnavailable,
                                    source, target).events;
            var e := events[k];
            e.Sent? ==>
              NamesReviewed(events[..k], e.ordinal, e.recording, e.snapshot, actions, res, env, source, target)
  {
    ExecutionAsReviewed(actions, res, env, approved, skipUnresolved, failOnUnavailable, source, target);
    ReviewedAt(Execution(actions, res, env, approved, skipUnresolved, failOnUnavailable, source, target).events,
               actions, res, env, source, target, k);
  }
}
