/** Provider incidents of one account: recovery that does not depend on delivery order. Times are in seconds. */
module ProviderHealth {
  import opened Prelude

  datatype Category =
    | Authentication
    | Permissions
    | ReadOnly
    | MissingResource
    | RateLimit
    | Temporary
    | Network
    | TrackUnavailable
    | Internal

  /** `Reconnect` is the default operation of verified(); `Refresh` a token renewal; any other is named. */
  datatype Operation = Reconnect | Refresh | Other(name: Name)

  datatype Incident = Incident(pair: Option<Name>, category: Category, operation: Operation, resource: Option<Name>,
                               occurred: int, retryAt: int, resolved: bool)

  /** What is known about one failure when it is recorded: when the operation started, what went wrong, for
      which pair, the time, and how long the provider asked to wait. */
  datatype Failure = Failure(started: int, category: Category, operation: Operation, resource: Option<Name>,
                             pair: Option<Name>, now: int, retryAfter: Option<int>)

  datatype Event =
    | Verified(started: int, operation: Operation, resource: Option<Name>, authenticated: bool)
    | Failed(failure: Failure)
  {
    function Started(): int {
      if Verified? then started else failure.started
    }
  }

  /** The account's two verification timestamps and its incidents, oldest record first. */
  datatype Ledger = Ledger(verifiedAt: Option<int>, authVerifiedAt: Option<int>, incidents: seq<Incident>)

  const EMPTY := Ledger(None, None, [])

  function Later(at: Option<int>, started: int): Option<int> {
    if at.None? || at.value < started then Some(started) else at
  }

  /** Which incidents a success speaks for. */
  predicate InScope(i: Incident, e: Event)
    requires e.Verified?
  {
    || (e.authenticated && i.category.Authentication?)
    || (i.operation == e.operation && i.resource == e.resource && (e.authenticated || !i.category.Authentication?))
  }

  predicate Resolves(i: Incident, e: Event)
    requires e.Verified?
  {
    !i.resolved && i.occurred <= e.started && InScope(i, e)
  }

  function ResolveAll(incidents: seq<Incident>, e: Event): seq<Incident>
    requires e.Verified?
  {
    seq(|incidents|, n requires 0 <= n < |incidents| =>
      if Resolves(incidents[n], e) then incidents[n].(resolved := true) else incidents[n])
  }

  predicate After(at: Option<int>, started: int) {
    at.Some? && at.value > started
  }

  /** An authentication failure that a later-started success already overtook is filed as resolved. */
  predicate Recovered(l: Ledger, f: Failure) {
    f.category.Authentication? && (After(l.verifiedAt, f.started) || After(l.authVerifiedAt, f.started))
  }

  /** The open incidents of the same pair and category. */
  predicate Alike(i: Incident, f: Failure) {
    i.pair == f.pair && i.category == f.category && !i.resolved
  }

  function Prior(incidents: seq<Incident>, f: Failure): nat {
    |Filter((i: Incident) => Alike(i, f), incidents)|
  }

  function Doubled(n: nat): nat {
    if n == 0 then 1 else 2 * Doubled(n - 1)
  }

  /** One minute, doubled for each open failure of the kind, and never more than an hour. */
  function Backoff(prior: nat): nat {
    Min(3600, 60 * Doubled(Min(prior, 6)))
  }

  /** A wait of zero seconds counts as no answer. */
  function Wait(f: Failure, prior: nat): int {
    match f.category
    case Authentication => 3600
    case Permissions => 21600
    case ReadOnly => 21600
    case MissingResource => 21600
    case RateLimit => if f.retryAfter.Some? && f.retryAfter.value != 0 then Max(1, f.retryAfter.value) else 3600
    case _ => Backoff(prior)
  }

  function Filed(l: Ledger, f: Failure): Incident {
    Incident(f.pair, f.category, f.operation, f.resource, f.started, f.now + Wait(f, Prior(l.incidents, f)),
             Recovered(l, f))
  }

  function Delivered(l: Ledger, e: Event): Ledger {
    match e
    case Verified(started, operation, _, authenticated) =>
      Ledger(if authenticated && operation != Refresh then Later(l.verifiedAt, started) else l.verifiedAt,
             if authenticated && operation == Refresh then Later(l.authVerifiedAt, started) else l.authVerifiedAt,
             ResolveAll(l.incidents, e))
    case Failed(f) => l.(incidents := l.incidents + [Filed(l, f)])
  }

  // ---- What is recorded, in seconds and rows ------------------------------------------------------

  /** How long a failure asks to wait: an hour after a lost authentication; six hours if something must be changed
      by hand; after a rate limit as long as the provider said, at least a second, or an hour if it did not say;
      otherwise a minute, twice as long for every open failure of the kind, but never more than an hour. */
  predicate WaitsFor(seconds: int, f: Failure, open_: nat) {
    match f.category
    case Authentication => seconds == 3600
    case RateLimit =>
      if f.retryAfter == None || f.retryAfter == Some(0) then seconds == 3600
      else seconds >= 1 && (seconds == f.retryAfter.value || (seconds == 1 && f.retryAfter.value < 1))
    case Permissions => seconds == 21600
    case ReadOnly => seconds == 21600
    case MissingResource => seconds == 21600
    case _ => if open_ >= 6 then seconds == 3600 else seconds == [60, 120, 240, 480, 960, 1920][open_]
  }

  /** The rows of open incidents of the same pair and category. */
  function OpenRows(incidents: seq<Incident>, f: Failure): set<nat> {
    set n: nat | n < |incidents| && !incidents[n].resolved && incidents[n].pair == f.pair
                 && incidents[n].category == f.category
  }

  lemma OpenRowsCounted(incidents: seq<Incident>, f: Failure)
    ensures |OpenRows(incidents, f)| == Prior(incidents, f)
  {
    var p := (i: Incident) => Alike(i, f);
    PlacesCounted(p, incidents);
    assert OpenRows(incidents, f) == Places(p, incidents);
  }

  lemma BackoffTable(n: nat)
    ensures Backoff(n) == if n >= 6 then 3600 else [60, 120, 240, 480, 960, 1920][n]
  {
    assert Doubled(0) == 1 && Doubled(1) == 2 && Doubled(2) == 4;
    assert Doubled(3) == 8 && Doubled(4) == 16;
    assert Doubled(5) == 32 && Doubled(6) == 64;
  }

  lemma WaitIs(f: Failure, open_: nat)
    ensures WaitsFor(Wait(f, open_), f, open_)
  {
    BackoffTable(open_);
  }

  /** A success resolves the incidents that occurred by its start and that it speaks for: if it was authenticated,
      the authentication failures, and all of its own operation and resource; otherwise only of the latter those
      that are no authentication failures. */
  predicate ResolvedBy(before: Incident, after: Incident, started: int, operation: Operation, resource: Option<Name>,
                       authenticated: bool) {
    && after == before.(resolved := after.resolved)
    && (after.resolved <==>
        || before.resolved
        || (before.occurred <= started && authenticated && before.category == Authentication)
        || (before.occurred <= started && before.operation == operation && before.resource == resource
            && (before.category != Authentication || authenticated)))
  }

  /** The account row and its incident rows. */
  class AccountHealth {
    var verifiedAt: Option<int>
    var authVerifiedAt: Option<int>
    var incidents: seq<Incident>

    constructor ()
      ensures State() == EMPTY
    {
      verifiedAt, authVerifiedAt, incidents := None, None, [];
    }

    function State(): Ledger
      reads this
    {
      Ledger(verifiedAt, authVerifiedAt, incidents)
    }

    method Verify(started: int, operation: Operation, resource: Option<Name>, authenticated: bool)
      modifies this
      ensures State() == Delivered(old(State()), Verified(started, operation, resource, authenticated))
      ensures verifiedAt == if authenticated && operation != Refresh
                               && (old(verifiedAt) == None || old(verifiedAt).value < started)
                            then Some(started) else old(verifiedAt)
      ensures authVerifiedAt == if authenticated && operation == Refresh
                                   && (old(authVerifiedAt) == None || old(authVerifiedAt).value < started)
                                then Some(started) else old(authVerifiedAt)
      ensures |incidents| == |old(incidents)|
      ensures forall n :: 0 <= n < |incidents| ==>
                ResolvedBy(old(incidents)[n], incidents[n], started, operation, resource, authenticated)
    {
      if authenticated {
        if operation == Refresh {
          if authVerifiedAt.None? || authVerifiedAt.value < started { authVerifiedAt := Some(started); }
        } else {
          if verifiedAt.None? || verifiedAt.value < started { verifiedAt := Some(started); }
        }
      }
      incidents := ResolveAll(incidents, Verified(started, operation, resource, authenticated));
    }

    method RecordFailure(f: Failure)
      modifies this
      ensures State() == Delivered(old(State()), Failed(f))
      ensures verifiedAt == old(verifiedAt) && authVerifiedAt == old(authVerifiedAt)
      ensures |incidents| == |old(incidents)| + 1 && incidents[..|old(incidents)|] == old(incidents)
      ensures var i := incidents[|old(incidents)|];
              && i.pair == f.pair && i.category == f.category && i.operation == f.operation
              && i.resource == f.resource && i.occurred == f.started
              && WaitsFor(i.retryAt - f.now, f, |OpenRows(old(incidents), f)|)
              && (i.resolved <==> f.category == Authentication
                                  && ((old(verifiedAt).Some? && old(verifiedAt).value > f.started)
                                      || (old(authVerifiedAt).Some? && old(authVerifiedAt).value > f.started)))
    {
      OpenRowsCounted(incidents, f);
      WaitIs(f, Prior(incidents, f));
      var prior := Prior(incidents, f);
      var seconds;
      match f.category {
        case Authentication => seconds := 3600;
        case Permissions => seconds := 21600;
        case ReadOnly => seconds := 21600;
        case MissingResource => seconds := 21600;
        case RateLimit => seconds := 3600;
        case _ => seconds := Min(3600, 60 * Doubled(Min(prior, 6)));
      }
      if f.category.RateLimit? && f.retryAfter.Some? && f.retryAfter.value != 0 {
        seconds := Max(1, f.retryAfter.value);
      }
      var recovered := f.category.Authentication? &&
        ((verifiedAt.Some? && verifiedAt.value > f.started)
         || (authVerifiedAt.Some? && authVerifiedAt.value > f.started));
      incidents := incidents
        + [Incident(f.pair, f.category, f.operation, f.resource, f.started, f.now + seconds, recovered)];
    }
  }

  // ---- When to try again -----------------------------------------------------------------------

  /** The incidents of an account that concern a pair: open, and of that pair or of none. */
  predicate Concerns(i: Incident, pair: Name) {
    !i.resolved && (i.pair.None? || i.pair == Some(pair))
  }

  /** Some incident of one of the pair's accounts still asks to wait. */
  predicate IncidentPending(incidents: seq<Incident>, pair: Name, now: int) {
    exists n :: 0 <= n < |incidents| && Concerns(incidents[n], pair) && incidents[n].retryAt > now
  }

  predicate BacksOff(c: Category) {
    c.Temporary? || c.Network? || c.TrackUnavailable? || c.Internal?
  }

  // ---- Any delivery order -------------------------------------------------------------------

  function DeliverAll(events: seq<Event>): Ledger {
    if events == [] then EMPTY else Delivered(DeliverAll(events[..|events| - 1]), events[|events| - 1])
  }

  predicate Success(e: Event) {
    e.Verified? && e.authenticated
  }

  predicate AuthFailure(e: Event) {
    e.Failed? && e.failure.category.Authentication?
  }

  /** How many failures are among the first n events: where the next incident is filed. */
  function FailuresBefore(events: seq<Event>, n: nat): nat
    requires n <= |events|
  {
    if n == 0 then 0 else FailuresBefore(events, n - 1) + if events[n - 1].Failed? then 1 else 0
  }

  /** Some success among the first n events started after the given time. */
  ghost predicate Overtaken(events: seq<Event>, n: nat, started: int)
    requires n <= |events|
  {
    exists j: nat :: j < n && Success(events[j]) && events[j].Started() > started
  }

  lemma {:induction false} StampsAreLatest(events: seq<Event>, started: int)
    ensures var l := DeliverAll(events);
            After(l.verifiedAt, started) || After(l.authVerifiedAt, started) <==> Overtaken(events, |events|, started)
  {
    if events != [] {
      var front, last := events[..|events| - 1], events[|events| - 1];
      StampsAreLatest(front, started);
      assert forall j: nat :: j < |front| ==> front[j] == events[j];
      if Overtaken(front, |front|, started) {
        var j: nat :| j < |front| && Success(front[j]) && front[j].Started() > started;
        assert Success(events[j]);
      }
    }
  }

  /** Among the first n events an authenticated success, of a token renewal or of anything else, that started
      after the given time. */
  ghost predicate Refreshed(events: seq<Event>, n: nat, refresh: bool, started: int)
    requires n <= |events|
  {
    exists j: nat :: j < n && events[j].Verified? && events[j].authenticated
                     && (events[j].operation == Refresh <==> refresh) && events[j].started > started
  }

  lemma RefreshedStep(events: seq<Event>, refresh: bool, started: int)
    requires events != []
    ensures var front, last := events[..|events| - 1], events[|events| - 1];
            Refreshed(events, |events|, refresh, started)
            <==> Refreshed(front, |front|, refresh, started)
                 || (last.Verified? && last.authenticated && (last.operation == Refresh <==> refresh)
                     && last.started > started)
  {
    var front, last := events[..|events| - 1], events[|events| - 1];
    if Refreshed(front, |front|, refresh, started) {
      var j: nat :| j < |front| && front[j].Verified? && front[j].authenticated
                    && (front[j].operation == Refresh <==> refresh) && front[j].started > started;
      assert events[j] == front[j];
    }
    if Refreshed(events, |events|, refresh, started) {
      var j: nat :| j < |events| && events[j].Verified? && events[j].authenticated
                    && (events[j].operation == Refresh <==> refresh) && events[j].started > started;
      assert j < |front| ==> front[j] == events[j];
    }
  }

  /** After any history the two timestamps of the account are the latest starts of its successes: one of the
      token renewals, one of all others. */
  lemma {:induction false} StampsAreNewest(events: seq<Event>, started: int)
    ensures var l := DeliverAll(events);
            && (l.verifiedAt.Some? && l.verifiedAt.value > started <==> Refreshed(events, |events|, false, started))
            && (l.authVerifiedAt.Some? && l.authVerifiedAt.value > started
                <==> Refreshed(events, |events|, true, started))
  {
    if events != [] {
      StampsAreNewest(events[..|events| - 1], started);
      RefreshedStep(events, false, started);
      RefreshedStep(events, true, started);
    }
  }

  lemma {:induction false} IncidentCount(events: seq<Event>)
    ensures |DeliverAll(events).incidents| == FailuresBefore(events, |events|)
  {
    if events != [] {
      IncidentCount(events[..|events| - 1]);
      SamePrefix(events, |events| - 1);
    }
  }

  lemma {:induction false} SamePrefix(events: seq<Event>, n: nat)
    requires n <= |events|
    ensures forall m: nat :: m <= n ==> FailuresBefore(events[..n], m) == FailuresBefore(events, m)
  {
    forall m: nat | m <= n ensures FailuresBefore(events[..n], m) == FailuresBefore(events, m) {
      SamePrefixAt(events, n, m);
    }
  }

  lemma {:induction false} SamePrefixAt(events: seq<Event>, n: nat, m: nat)
    requires m <= n <= |events|
    ensures FailuresBefore(events[..n], m) == FailuresBefore(events, m)
  {
    if m > 0 {
      SamePrefixAt(events, n, m - 1);
    }
  }

  lemma {:induction false} FailuresGrow(events: seq<Event>, m: nat, n: nat)
    requires m <= n <= |events|
    ensures FailuresBefore(events, m) <= FailuresBefore(events, n)
    decreases n
  {
    if m < n {
      FailuresGrow(events, m, n - 1);
    }
  }

  // ---- How long a failure waits, after any history --------------------------------------------------------

  /** A success delivered after the failure of event i, of the same operation and resource and not started
      before it. It answers every kind of failure but authentication failures. */
  predicate Answers(events: seq<Event>, i: nat, j: nat)
    requires i < |events| && j < |events| && events[i].Failed?
  {
    && i < j && events[j].Verified? && events[j].started >= events[i].failure.started
    && events[j].operation == events[i].failure.operation && events[j].resource == events[i].failure.resource
  }

  ghost predicate Answered(events: seq<Event>, i: nat, n: nat)
    requires i < |events| && n <= |events| && events[i].Failed?
  {
    exists j: nat :: j < n && Answers(events, i, j)
  }

  /** The failure of event i is of the same pair and category, and not answered among the first n events. */
  ghost predicate OpenAlike(events: seq<Event>, i: nat, n: nat, f: Failure)
    requires i < |events| && n <= |events|
  {
    && events[i].Failed? && events[i].failure.pair == f.pair && events[i].failure.category == f.category
    && !Answered(events, i, n)
  }

  /** How many of the first m events are such failures. */
  ghost function OpenCount(events: seq<Event>, m: nat, n: nat, f: Failure): nat
    requires m <= |events| && n <= |events|
  {
    if m == 0 then 0 else OpenCount(events, m - 1, n, f) + if OpenAlike(events, m - 1, n, f) then 1 else 0
  }

  /** The failure of event i is filed as the next incident. Later events change nothing but whether it is
      resolved, and unless it is an authentication failure, it is resolved exactly when it was answered. */
  ghost predicate Recorded(events: seq<Event>, i: nat)
    requires i < |events| && events[i].Failed?
  {
    var incidents, slot, f := DeliverAll(events).incidents, FailuresBefore(events, i), events[i].failure;
    && slot < |incidents|
    && incidents[slot].(resolved := false) == Filed(DeliverAll(events[..i]), f).(resolved := false)
    && (!f.category.Authentication? ==> (incidents[slot].resolved <==> Answered(events, i, |events|)))
  }

  lemma {:induction false} EveryFailureIsRecorded(events: seq<Event>, i: nat)
    requires i < |events| && events[i].Failed?
    ensures Recorded(events, i)
    decreases |events|
  {
    if i == |events| - 1 {
      JustRecorded(events);
    } else {
      EveryFailureIsRecorded(events[..|events| - 1], i);
      StillRecorded(events, i);
    }
  }

  lemma JustRecorded(events: seq<Event>)
    requires events != [] && events[|events| - 1].Failed?
    ensures Recorded(events, |events| - 1)
  {
    var front := events[..|events| - 1];
    IncidentCount(front);
    SamePrefixAt(events, |events| - 1, |events| - 1);
  }

  lemma StillRecorded(events: seq<Event>, i: nat)
    requires i < |events| - 1 && events[i].Failed? && Recorded(events[..|events| - 1], i)
    ensures Recorded(events, i)
  {
    var front := events[..|events| - 1];
    SamePrefixAt(events, |events| - 1, i);
    assert front[..i] == events[..i];
    AnsweredLater(events, i);
  }

  lemma AnsweredLater(events: seq<Event>, i: nat)
    requires i < |events| - 1 && events[i].Failed?
    ensures var front := events[..|events| - 1];
            Answered(events, i, |events|) <==> Answered(front, i, |front|) || Answers(events, i, |events| - 1)
  {
    var front := events[..|events| - 1];
    if Answered(front, i, |front|) {
      var j: nat :| j < |front| && Answers(front, i, j);
      assert Answers(events, i, j);
    }
    if Answered(events, i, |events|) {
      var j: nat :| j < |events| && Answers(events, i, j);
      assert j < |front| ==> Answers(front, i, j);
    }
  }

  lemma OneMoreSlot(incidents: seq<Incident>, slot: nat, f: Failure)
    requires slot < |incidents|
    ensures Prior(incidents[..slot + 1], f) == Prior(incidents[..slot], f) + if Alike(incidents[slot], f) then 1 else 0
  {
    var p := (i: Incident) => Alike(i, f);
    assert incidents[..slot + 1] == incidents[..slot] + [incidents[slot]];
    FilterAppend(p, incidents[..slot], [incidents[slot]]);
    FilterOne(p, incidents[slot]);
  }

  /** The open incidents alike are the unanswered failures alike. */
  lemma {:induction false} PriorCounts(events: seq<Event>, m: nat, f: Failure)
    requires m <= |events| && !f.category.Authentication?
    ensures FailuresBefore(events, m) <= |DeliverAll(events).incidents|
    ensures Prior(DeliverAll(events).incidents[..FailuresBefore(events, m)], f) == OpenCount(events, m, |events|, f)
  {
    if m > 0 {
      PriorCounts(events, m - 1, f);
      if events[m - 1].Failed? {
        EveryFailureIsRecorded(events, m - 1);
        OneMoreSlot(DeliverAll(events).incidents, FailuresBefore(events, m - 1), f);
      }
    }
  }

  lemma PriorIs(events: seq<Event>, f: Failure)
    requires !f.category.Authentication?
    ensures Prior(DeliverAll(events).incidents, f) == OpenCount(events, |events|, |events|, f)
  {
    var incidents := DeliverAll(events).incidents;
    IncidentCount(events);
    PriorCounts(events, |events|, f);
    assert incidents[..|incidents|] == incidents;
  }

  /** After any history: a failure that backs off asks to wait one minute, doubled for each earlier failure of
      the same pair and category that no success has answered by then, and never more than an hour. Nothing
      delivered later changes that. */
  lemma WaitsDouble(events: seq<Event>, i: nat)
    requires i < |events| && events[i].Failed? && BacksOff(events[i].failure.category)
    ensures var incidents, slot, f := DeliverAll(events).incidents, FailuresBefore(events, i), events[i].failure;
            var earlier := OpenCount(events[..i], i, i, f);
            slot < |incidents|
            && incidents[slot].retryAt
               == f.now + if earlier >= 6 then 3600 else [60, 120, 240, 480, 960, 1920][earlier]
  {
    BackoffTable(OpenCount(events[..i], i, i, events[i].failure));
    EveryFailureIsRecorded(events, i);
    PriorIs(events[..i], events[i].failure);
  }

  // ---- Authentication failures and successes ------------------------------------------------------------

  /** A success settles the authentication failure delivered as event i: it started later, or at the
      same moment and was delivered after it. */
  predicate Settles(events: seq<Event>, i: nat, j: nat)
    requires i < |events| && j < |events|
  {
    Success(events[j]) && (events[j].Started() > events[i].Started()
                           || (events[j].Started() == events[i].Started() && j > i))
  }

  ghost predicate SettledBy(events: seq<Event>, i: nat, n: nat)
    requires i < |events| && n <= |events|
  {
    exists j: nat :: j < n && Settles(events, i, j)
  }

  /** The authentication failure delivered as event i is filed as the next incident, and that incident is
      resolved exactly if some success of the account settles it. */
  ghost predicate FiledRightly(events: seq<Event>, i: nat)
    requires i < |events|
  {
    var incidents, slot := DeliverAll(events).incidents, FailuresBefore(events, i);
    && slot < |incidents|
    && incidents[slot].occurred == events[i].Started()
    && incidents[slot].category == Authentication
    && (incidents[slot].resolved <==> SettledBy(events, i, |events|))
  }

  /** Exactly which authentication failures stay open, for every sequence of events whatever. */
  lemma {:induction false} OpenFailures(events: seq<Event>, i: nat)
    requires i < |events| && AuthFailure(events[i])
    ensures FiledRightly(events, i)
    decreases |events|
  {
    if i == |events| - 1 {
      NewestFailure(events);
    } else {
      OpenFailures(events[..|events| - 1], i);
      EarlierFailure(events, i);
    }
  }

  lemma NewestFailure(events: seq<Event>)
    requires events != [] && AuthFailure(events[|events| - 1])
    ensures FiledRightly(events, |events| - 1)
  {
    var front, last := events[..|events| - 1], events[|events| - 1];
    IncidentCount(front);
    SamePrefixAt(events, |events| - 1, |events| - 1);
    StampsAreLatest(front, last.Started());
    JustDelivered(events);
  }

  /** One more event keeps what is known about an earlier failure. */
  lemma EarlierFailure(events: seq<Event>, i: nat)
    requires i < |events| - 1 && AuthFailure(events[i]) && FiledRightly(events[..|events| - 1], i)
    ensures FiledRightly(events, i)
  {
    SamePrefixAt(events, |events| - 1, i);
    LastEvent(events, i);
  }

  /** The newest event is settled exactly by the successes already delivered that started later. */
  lemma JustDelivered(events: seq<Event>)
    requires events != [] && AuthFailure(events[|events| - 1])
    ensures SettledBy(events, |events| - 1, |events|)
            <==> Overtaken(events[..|events| - 1], |events| - 1, events[|events| - 1].Started())
  {
    var front, last, i := events[..|events| - 1], events[|events| - 1], |events| - 1;
    if SettledBy(events, i, |events|) {
      var j: nat :| j < |events| && Settles(events, i, j);
      assert Success(front[j]) && front[j].Started() > last.Started();
    }
    if Overtaken(front, |front|, last.Started()) {
      var j: nat :| j < |front| && Success(front[j]) && front[j].Started() > last.Started();
      assert Settles(events, i, j);
    }
  }

  lemma LastEvent(events: seq<Event>, i: nat)
    requires i < |events| - 1
    ensures var front := events[..|events| - 1];
            SettledBy(events, i, |events|) <==> SettledBy(front, i, |front|) || Settles(events, i, |events| - 1)
  {
    var front := events[..|events| - 1];
    if SettledBy(front, i, |front|) {
      var j: nat :| j < |front| && Settles(front, i, j);
      assert Settles(events, i, j);
    }
    if SettledBy(events, i, |events|) {
      var j: nat :| j < |events| && Settles(events, i, j);
      assert j < |front| ==> Settles(front, i, j);
    }
  }

  /** The failure's incident is open once everything has been delivered. */
  predicate StaysOpen(events: seq<Event>, i: nat)
    requires i < |events| && AuthFailure(events[i])
  {
    OpenFailures(events, i);
    !DeliverAll(events).incidents[FailuresBefore(events, i)].resolved
  }

  /** Some success of the account started after the failure. */
  ghost predicate LaterSuccess(events: seq<Event>, f: Event) {
    exists e :: e in events && Success(e) && e.Started() > f.Started()
  }

  /** Some success of the account started at the same moment as the failure. */
  ghost predicate TiedSuccess(events: seq<Event>, f: Event) {
    exists e :: e in events && Success(e) && e.Started() == f.Started()
  }

  /** The same events in some order, with the event in question at place j. */
  predicate Reorders(events: seq<Event>, i: nat, reordered: seq<Event>, j: nat)
    requires i < |events|
  {
    multiset(events) == multiset(reordered) && j < |reordered| && reordered[j] == events[i]
  }

  /** Every delivery order treats the failure alike. */
  ghost predicate OrderIsIrrelevant(events: seq<Event>, i: nat)
    requires i < |events| && AuthFailure(events[i])
  {
    forall reordered, j: nat :: Reorders(events, i, reordered, j) ==>
                                  (StaysOpen(reordered, j) <==> StaysOpen(events, i))
  }

  lemma OpenIffUnsettled(events: seq<Event>, i: nat)
    requires i < |events| && AuthFailure(events[i])
    ensures LaterSuccess(events, events[i]) ==> !StaysOpen(events, i)
    ensures !LaterSuccess(events, events[i]) && !TiedSuccess(events, events[i]) ==> StaysOpen(events, i)
  {
    OpenFailures(events, i);
    if e :| e in events && Success(e) && e.Started() > events[i].Started() {
      var j: nat :| j < |events| && events[j] == e;
      assert Settles(events, i, j);
    } else if SettledBy(events, i, |events|) {
      var j: nat :| j < |events| && Settles(events, i, j);
      assert events[j] in events;
    }
  }

  /** If no success started at the same moment, a failure stays open exactly when it started after every
      success. */
  lemma OpenIffNewest(events: seq<Event>, i: nat)
    requires i < |events| && AuthFailure(events[i]) && !TiedSuccess(events, events[i])
    ensures StaysOpen(events, i) <==> forall e :: e in events && Success(e) ==> e.Started() < events[i].Started()
  {
    OpenIffUnsettled(events, i);
    if !LaterSuccess(events, events[i]) {
      forall e | e in events && Success(e) ensures e.Started() < events[i].Started() {
      }
    }
  }

  lemma SameSuccesses(events: seq<Event>, reordered: seq<Event>, f: Event)
    requires multiset(events) == multiset(reordered)
    ensures LaterSuccess(events, f) <==> LaterSuccess(reordered, f)
    ensures TiedSuccess(events, f) <==> TiedSuccess(reordered, f)
  {
    forall e ensures e in events <==> e in reordered {
      assert e in multiset(events) <==> e in multiset(reordered);
    }
  }

  function Others(events: seq<Event>, i: nat): seq<Event>
    requires i < |events|
  {
    events[..i] + events[i + 1..]
  }

  lemma OthersAreTheRest(events: seq<Event>, i: nat)
    requires i < |events|
    ensures multiset(events) == multiset(Others(events, i) + [events[i]])
    ensures multiset(events) == multiset([events[i]] + Others(events, i))
  {
    assert events == events[..i] + [events[i]] + events[i + 1..];
  }

  /** Delivered after everything else, a failure that no success started after stays open. */
  lemma OpenWhenLast(events: seq<Event>, i: nat)
    requires i < |events| && AuthFailure(events[i]) && !LaterSuccess(events, events[i])
    ensures var last := Others(events, i) + [events[i]];
            Reorders(events, i, last, |events| - 1) && StaysOpen(last, |events| - 1)
  {
    var last, n: nat := Others(events, i) + [events[i]], |events| - 1;
    OthersAreTheRest(events, i);
    SameSuccesses(events, last, events[i]);
    OpenFailures(last, n);
    forall j: nat | j < |last| ensures !Settles(last, n, j) {
      assert last[j] in last;
    }
  }

  /** Delivered before everything else, a failure with a tied success is resolved. */
  lemma ResolvedWhenFirst(events: seq<Event>, i: nat)
    requires i < |events| && AuthFailure(events[i]) && TiedSuccess(events, events[i])
    ensures var first := [events[i]] + Others(events, i); Reorders(events, i, first, 0) && !StaysOpen(first, 0)
  {
    var first := [events[i]] + Others(events, i);
    OthersAreTheRest(events, i);
    SameSuccesses(events, first, events[i]);
    var e :| e in first && Success(e) && e.Started() == events[i].Started();
    var j: nat :| j < |first| && first[j] == e;
    assert Settles(first, 0, j);
    OpenFailures(first, 0);
  }

  /** Exactly when the delivery order does not matter for a failure: when some success started later, which
      resolves it in every order, or none started at the same moment. */
  lemma OrderDoesNotMatterIff(events: seq<Event>, i: nat)
    requires i < |events| && AuthFailure(events[i])
    ensures OrderIsIrrelevant(events, i) <==> LaterSuccess(events, events[i]) || !TiedSuccess(events, events[i])
  {
    if LaterSuccess(events, events[i]) || !TiedSuccess(events, events[i]) {
      OpenIffUnsettled(events, i);
      forall reordered, j: nat | Reorders(events, i, reordered, j)
        ensures StaysOpen(reordered, j) <==> StaysOpen(events, i)
      {
        SameSuccesses(events, reordered, events[i]);
        OpenIffUnsettled(reordered, j);
      }
    } else {
      OpenWhenLast(events, i);
      ResolvedWhenFirst(events, i);
    }
  }

  /** So two delivery orders leave the same such failures open. */
  lemma OrderDoesNotMatter(events: seq<Event>, reordered: seq<Event>, i: nat, j: nat)
    requires i < |events| && AuthFailure(events[i]) && Reorders(events, i, reordered, j)
    requires LaterSuccess(events, events[i]) || !TiedSuccess(events, events[i])
    ensures StaysOpen(events, i) <==> StaysOpen(reordered, j)
  {
    OrderDoesNotMatterIff(events, i);
  }

  /** With equal start times the order does matter: delivered first the failure is resolved, delivered
      second it stays open. */
  lemma TiesDependOnOrder(failure: Failure)
    requires failure.category == Authentication
    ensures var f, s := Failed(failure), Verified(failure.started, Reconnect, None, true);
            !StaysOpen([f, s], 0) && StaysOpen([s, f], 1)
  {
    var f, s := Failed(failure), Verified(failure.started, Reconnect, None, true);
    OpenFailures([f, s], 0);
    OpenFailures([s, f], 1);
    assert Settles([f, s], 0, 1);
  }
}
