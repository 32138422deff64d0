/** The per-source fixed-window login rate limiter. Times are in microseconds. */
module LoginRateLimit {
  import opened Prelude

  const SOURCE_FAILURE_LIMIT: nat := 5
  const SOURCE_WINDOW: int := 15 * 60 * 1000000

  datatype Window = Window(start: int, attempts: nat)

  /** The row after one reservation: a fresh window when there is none or it has run out. */
  function Reserved(row: Option<Window>, now: int): Window {
    if row.None? || row.value.start <= now - SOURCE_WINDOW then Window(now, 1)
    else row.value.(attempts := row.value.attempts + 1)
  }

  predicate Allowed(w: Window) {
    w.attempts <= SOURCE_FAILURE_LIMIT
  }

  class RateLimits {
    var rows: map<Name, Window>

    constructor ()
      ensures rows == map[]
    {
      rows := map[];
    }

    function Row(key: Name): Option<Window>
      reads this
    {
      if key in rows then Some(rows[key]) else None
    }

    method ReserveLoginAttempt(key: Name, now: int) returns (allowed: bool, retryAfter: int)
      modifies this
      ensures rows == old(rows)[key := Reserved(old(Row(key)), now)]
      ensures allowed <==> Allowed(Reserved(old(Row(key)), now))
      ensures rows.Keys == old(rows).Keys + {key} && forall other :: other in rows && other != key ==>
                                                        rows[other] == old(rows)[other]
      ensures rows[key] == if key !in old(rows) || now - old(rows)[key].start >= 900000000 then Window(now, 1)
                           else Window(old(rows)[key].start, old(rows)[key].attempts + 1)
      ensures allowed <==> rows[key].attempts <= 5
      ensures var w := Reserved(old(Row(key)), now);
              retryAfter == Max(1, (w.start + SOURCE_WINDOW - now) / 1000000) && w.start + SOURCE_WINDOW > now
    {
      var cutoff := now - SOURCE_WINDOW;
      if key !in rows || rows[key].start <= cutoff {
        rows := rows[key := Window(now, 1)];
      } else {
        rows := rows[key := rows[key].(attempts := rows[key].attempts + 1)];
      }
      allowed := rows[key].attempts <= SOURCE_FAILURE_LIMIT;
      retryAfter := Max(1, (rows[key].start + SOURCE_WINDOW - now) / 1000000);
    }

    /** The source starts over; every other source keeps its window. */
    method RecordSuccess(key: Name)
      modifies this
      ensures rows == old(rows) - {key}
      ensures forall other :: Row(other) == if other == key then None else old(Row(other))
    {
      rows := rows - {key};
    }
  }

  // ---- A burst of attempts from one source, with no success in between ------------------------

  ghost predicate NeverBackwards(times: seq<int>) {
    forall i, j :: 0 <= i < j < |times| ==> times[i] <= times[j]
  }

  /** The row after the first n attempts of a source that starts without one. */
  function RowAfter(times: seq<int>, n: nat): Option<Window>
    requires n <= |times|
  {
    if n == 0 then None else Some(Reserved(RowAfter(times, n - 1), times[n - 1]))
  }

  /** Whether attempt i was let through. */
  predicate Granted(times: seq<int>, i: nat)
    requires i < |times|
  {
    Allowed(RowAfter(times, i + 1).value)
  }

  /** The start of the window attempt i was counted in. */
  function WindowOf(times: seq<int>, i: nat): int
    requires i < |times|
  {
    RowAfter(times, i + 1).value.start
  }

  lemma {:induction false} CurrentWindow(times: seq<int>, n: nat)
    requires NeverBackwards(times) && 0 < n <= |times|
    ensures var w := RowAfter(times, n).value;
            w.attempts >= 1 && w.start <= times[n - 1] < w.start + SOURCE_WINDOW
  {
    if n > 1 {
      CurrentWindow(times, n - 1);
      assert times[n - 2] <= times[n - 1];
    }
  }

  /** Each new window starts at least 15 minutes after the one before it. */
  lemma {:induction false} WindowsApart(times: seq<int>, i: nat, j: nat)
    requires NeverBackwards(times) && i <= j < |times|
    ensures WindowOf(times, j) == WindowOf(times, i) || WindowOf(times, j) >= WindowOf(times, i) + SOURCE_WINDOW
    decreases j
  {
    if i < j {
      WindowsApart(times, i, j - 1);
      CurrentWindow(times, j);
      CurrentWindow(times, j + 1);
    }
  }

  /** Attempts among the first n that were counted in the window starting at w. */
  function AttemptsIn(times: seq<int>, w: int, n: nat): nat
    requires n <= |times|
  {
    if n == 0 then 0 else AttemptsIn(times, w, n - 1) + if WindowOf(times, n - 1) == w then 1 else 0
  }

  function GrantsIn(times: seq<int>, w: int, n: nat): nat
    requires n <= |times|
  {
    if n == 0 then 0
    else GrantsIn(times, w, n - 1) + if WindowOf(times, n - 1) == w && Granted(times, n - 1) then 1 else 0
  }

  lemma {:induction false} NotYetOpened(times: seq<int>, w: int, n: nat)
    requires NeverBackwards(times) && n <= |times|
    requires forall i: nat :: i < n ==> times[i] < w
    ensures AttemptsIn(times, w, n) == 0 == GrantsIn(times, w, n)
  {
    if n > 0 {
      NotYetOpened(times, w, n - 1);
      CurrentWindow(times, n);
    }
  }

  lemma {:induction false} OtherWindow(times: seq<int>, w: int, n: nat)
    requires NeverBackwards(times) && 0 < n <= |times| && WindowOf(times, n - 1) < w
    ensures AttemptsIn(times, w, n) == 0 == GrantsIn(times, w, n)
  {
    if n > 1 {
      WindowsApart(times, n - 2, n - 1);
      CurrentWindow(times, n - 1);
      OtherWindow(times, w, n - 1);
    }
  }

  /** The row's counter is the number of attempts of its window, and the window has granted exactly
      the smaller of that number and five. */
  lemma {:induction false} CounterIsExact(times: seq<int>, n: nat)
    requires NeverBackwards(times) && 0 < n <= |times|
    ensures var row := RowAfter(times, n).value;
            AttemptsIn(times, row.start, n) == row.attempts
              && GrantsIn(times, row.start, n) == Min(row.attempts, SOURCE_FAILURE_LIMIT)
  {
    var row := RowAfter(times, n).value;
    if n == 1 {
      assert AttemptsIn(times, row.start, 0) == 0 && GrantsIn(times, row.start, 0) == 0;
    } else {
      CounterIsExact(times, n - 1);
      CurrentWindow(times, n - 1);
      if RowAfter(times, n - 1).value.start != row.start {
        OtherWindow(times, row.start, n - 1);
      }
    }
  }

  /** Every window, finished or not, grants exactly min(attempts, 5). */
  lemma {:induction false} EachWindowGrantsFive(times: seq<int>, w: int, n: nat)
    requires NeverBackwards(times) && n <= |times|
    ensures GrantsIn(times, w, n) == Min(AttemptsIn(times, w, n), SOURCE_FAILURE_LIMIT)
  {
    if n > 0 {
      if WindowOf(times, n - 1) == w {
        CounterIsExact(times, n);
      } else {
        EachWindowGrantsFive(times, w, n - 1);
      }
    }
  }

  /** Granted attempts among the first n that fall in the half-open interval of 15 minutes from a. */
  function GrantsBetween(times: seq<int>, a: int, n: nat): nat
    requires n <= |times|
  {
    if n == 0 then 0
    else GrantsBetween(times, a, n - 1) +
         if a <= times[n - 1] < a + SOURCE_WINDOW && Granted(times, n - 1) then 1 else 0
  }

  /** The interval draws on at most the window open when it begins, whose first attempt is before
      the interval, and one that opens inside it. */
  lemma {:induction false} IntervalCounter(times: seq<int>, a: int, n: nat)
    requires NeverBackwards(times) && 0 < n <= |times| && times[n - 1] < a + SOURCE_WINDOW
    ensures var row := RowAfter(times, n).value;
            GrantsBetween(times, a, n)
            <= Min(row.attempts, SOURCE_FAILURE_LIMIT) + if row.start < a then -1 else SOURCE_FAILURE_LIMIT - 1
    ensures times[n - 1] < a ==> GrantsBetween(times, a, n) == 0
  {
    if n == 1 {
      assert GrantsBetween(times, a, 0) == 0;
    } else {
      assert times[n - 2] <= times[n - 1];
      IntervalCounter(times, a, n - 1);
      CurrentWindow(times, n - 1);
      CurrentWindow(times, n);
    }
  }

  /** Any half-open interval of 15 minutes lets at most nine attempts of one source through. */
  lemma {:induction false} AtMostNinePerInterval(times: seq<int>, a: int, n: nat)
    requires NeverBackwards(times) && n <= |times|
    ensures GrantsBetween(times, a, n) <= 2 * SOURCE_FAILURE_LIMIT - 1
  {
    if n > 0 {
      if times[n - 1] < a + SOURCE_WINDOW {
        IntervalCounter(times, a, n);
      } else {
        AtMostNinePerInterval(times, a, n - 1);
      }
    }
  }

  const BURST: seq<int> := [0, SOURCE_WINDOW - 1, SOURCE_WINDOW - 1, SOURCE_WINDOW - 1, SOURCE_WINDOW - 1,
                            SOURCE_WINDOW, SOURCE_WINDOW, SOURCE_WINDOW, SOURCE_WINDOW, SOURCE_WINDOW]

  /** Nine is reached: four attempts just before a window runs out and five as soon as it has. */
  lemma NineIsReached()
    ensures NeverBackwards(BURST) && GrantsBetween(BURST, SOURCE_WINDOW - 1, |BURST|) == 9
  {
    BurstRows();
    assert GrantsBetween(BURST, SOURCE_WINDOW - 1, 1) == 0;
    assert GrantsBetween(BURST, SOURCE_WINDOW - 1, 3) == 2;
    assert GrantsBetween(BURST, SOURCE_WINDOW - 1, 5) == 4;
    assert GrantsBetween(BURST, SOURCE_WINDOW - 1, 7) == 6;
    assert GrantsBetween(BURST, SOURCE_WINDOW - 1, 9) == 8;
  }

  lemma BurstRows()
    ensures forall n :: 1 <= n <= 5 ==> RowAfter(BURST, n) == Some(Window(0, n))
    ensures forall n :: 6 <= n <= 10 ==> RowAfter(BURST, n) == Some(Window(SOURCE_WINDOW, n - 5))
  {
    assert RowAfter(BURST, 1) == Some(Window(0, 1));
    assert RowAfter(BURST, 2) == Some(Window(0, 2));
    assert RowAfter(BURST, 3) == Some(Window(0, 3));
    assert RowAfter(BURST, 4) == Some(Window(0, 4));
    assert RowAfter(BURST, 5) == Some(Window(0, 5));
    assert RowAfter(BURST, 6) == Some(Window(SOURCE_WINDOW, 1));
    assert RowAfter(BURST, 7) == Some(Window(SOURCE_WINDOW, 2));
    assert RowAfter(BURST, 8) == Some(Window(SOURCE_WINDOW, 3));
    assert RowAfter(BURST, 9) == Some(Window(SOURCE_WINDOW, 4));
    assert RowAfter(BURST, 10) == Some(Window(SOURCE_WINDOW, 5));
  }

  // ---- Attempts and successes of one source ---------------------------------------------------------

  datatype Event = Attempt(at: int) | Success(at: int)

  /** The row of a source after the first n events of its history. */
  function RowOf(events: seq<Event>, n: nat): Option<Window>
    requires n <= |events|
  {
    if n == 0 || events[n - 1].Success? then None else Some(Reserved(RowOf(events, n - 1), events[n - 1].at))
  }

  predicate LetThrough(events: seq<Event>, i: nat)
    requires i < |events|
  {
    events[i].Attempt? && Allowed(RowOf(events, i + 1).value)
  }

  ghost predicate InTime(events: seq<Event>) {
    forall i, j :: 0 <= i < j < |events| ==> events[i].at <= events[j].at
  }

  /** A success wipes out all that came before it: the n attempts that follow it fare as in a history of
      their own. */
  lemma {:induction false} SuccessStartsOver(events: seq<Event>, m: nat, times: seq<int>, n: nat)
    requires m == 0 || (m <= |events| && events[m - 1].Success?)
    requires m + |times| <= |events| && forall i :: 0 <= i < |times| ==> events[m + i] == Attempt(times[i])
    requires n <= |times|
    ensures RowOf(events, m + n) == RowAfter(times, n)
    ensures n < |times| ==> (LetThrough(events, m + n) <==> Granted(times, n))
  {
    if n > 0 {
      SuccessStartsOver(events, m, times, n - 1);
    }
    if n < |times| {
      assert events[m + n] == Attempt(times[n]);
    }
  }

  predicate Inside(a: int, e: Event) {
    a <= e.at < a + SOURCE_WINDOW
  }

  function GrantsInside(events: seq<Event>, a: int, n: nat): nat
    requires n <= |events|
  {
    if n == 0 then 0
    else GrantsInside(events, a, n - 1) + if Inside(a, events[n - 1]) && LetThrough(events, n - 1) then 1 else 0
  }

  function SuccessesInside(events: seq<Event>, a: int, n: nat): nat
    requires n <= |events|
  {
    if n == 0 then 0
    else SuccessesInside(events, a, n - 1) + if Inside(a, events[n - 1]) && events[n - 1].Success? then 1 else 0
  }

  /** What the open window may still add to the interval's account. */
  function Room(row: Option<Window>, a: int): int {
    if row.None? then SOURCE_FAILURE_LIMIT - 1
    else Min(row.value.attempts, SOURCE_FAILURE_LIMIT) + if row.value.start < a then -1 else SOURCE_FAILURE_LIMIT - 1
  }

  lemma {:induction false} RowIsRecent(events: seq<Event>, n: nat)
    requires InTime(events) && 0 < n <= |events| && RowOf(events, n).Some?
    ensures RowOf(events, n).value.attempts >= 1
              && RowOf(events, n).value.start <= events[n - 1].at < RowOf(events, n).value.start + SOURCE_WINDOW
  {
    if n > 1 && RowOf(events, n - 1).Some? {
      RowIsRecent(events, n - 1);
      assert events[n - 2].at <= events[n - 1].at;
    }
  }

  lemma {:induction false} SuccessCounter(events: seq<Event>, a: int, n: nat)
    requires InTime(events) && n <= |events| && (n > 0 ==> events[n - 1].at < a + SOURCE_WINDOW)
    ensures GrantsInside(events, a, n)
              <= Room(RowOf(events, n), a) + SOURCE_FAILURE_LIMIT * SuccessesInside(events, a, n)
    ensures n > 0 && events[n - 1].at < a ==> GrantsInside(events, a, n) == 0
  {
    if n > 0 {
      if n > 1 {
        assert events[n - 2].at <= events[n - 1].at;
      }
      SuccessCounter(events, a, n - 1);
      if RowOf(events, n).Some? {
        RowIsRecent(events, n);
      }
      if n > 1 && RowOf(events, n - 1).Some? {
        RowIsRecent(events, n - 1);
      }
    }
  }

  /** With successes in between, an interval of 15 minutes lets at most nine attempts of one source through
      and five more for each success inside it. */
  lemma {:induction false} FiveMorePerSuccess(events: seq<Event>, a: int, n: nat)
    requires InTime(events) && n <= |events|
    ensures GrantsInside(events, a, n)
              <= 2 * SOURCE_FAILURE_LIMIT - 1 + SOURCE_FAILURE_LIMIT * SuccessesInside(events, a, n)
  {
    if n > 0 {
      if events[n - 1].at < a + SOURCE_WINDOW {
        SuccessCounter(events, a, n);
      } else {
        FiveMorePerSuccess(events, a, n - 1);
      }
    }
  }

  const BURST_WITH_SUCCESS: seq<Event> :=
    [Attempt(0), Attempt(SOURCE_WINDOW - 1), Attempt(SOURCE_WINDOW - 1), Attempt(SOURCE_WINDOW - 1),
     Attempt(SOURCE_WINDOW - 1), Attempt(SOURCE_WINDOW), Attempt(SOURCE_WINDOW), Attempt(SOURCE_WINDOW),
     Attempt(SOURCE_WINDOW), Attempt(SOURCE_WINDOW), Success(SOURCE_WINDOW), Attempt(SOURCE_WINDOW),
     Attempt(SOURCE_WINDOW), Attempt(SOURCE_WINDOW), Attempt(SOURCE_WINDOW), Attempt(SOURCE_WINDOW)]

  /** Fourteen are reached with one success: the burst of nine, then the success, and five more at once. */
  lemma FourteenAreReached()
    ensures InTime(BURST_WITH_SUCCESS)
    ensures SuccessesInside(BURST_WITH_SUCCESS, SOURCE_WINDOW - 1, |BURST_WITH_SUCCESS|) == 1
    ensures GrantsInside(BURST_WITH_SUCCESS, SOURCE_WINDOW - 1, |BURST_WITH_SUCCESS|) == 14
  {
    RowsBeforeSuccess();
    RowsAfterSuccess();
    OneSuccess();
    assert GrantsInside(BURST_WITH_SUCCESS, SOURCE_WINDOW - 1, 1) == 0;
    assert GrantsInside(BURST_WITH_SUCCESS, SOURCE_WINDOW - 1, 3) == 2;
    assert GrantsInside(BURST_WITH_SUCCESS, SOURCE_WINDOW - 1, 5) == 4;
    assert GrantsInside(BURST_WITH_SUCCESS, SOURCE_WINDOW - 1, 7) == 6;
    assert GrantsInside(BURST_WITH_SUCCESS, SOURCE_WINDOW - 1, 9) == 8;
    assert GrantsInside(BURST_WITH_SUCCESS, SOURCE_WINDOW - 1, 11) == 9;
    assert GrantsInside(BURST_WITH_SUCCESS, SOURCE_WINDOW - 1, 13) == 11;
    assert GrantsInside(BURST_WITH_SUCCESS, SOURCE_WINDOW - 1, 15) == 13;
  }

  lemma RowsBeforeSuccess()
    ensures forall n :: 1 <= n <= 5 ==> RowOf(BURST_WITH_SUCCESS, n) == Some(Window(0, n))
    ensures forall n :: 6 <= n <= 10 ==> RowOf(BURST_WITH_SUCCESS, n) == Some(Window(SOURCE_WINDOW, n - 5))
  {
    assert RowOf(BURST_WITH_SUCCESS, 1) == Some(Window(0, 1));
    assert RowOf(BURST_WITH_SUCCESS, 2) == Some(Window(0, 2));
    assert RowOf(BURST_WITH_SUCCESS, 3) == Some(Window(0, 3));
    assert RowOf(BURST_WITH_SUCCESS, 4) == Some(Window(0, 4));
    assert RowOf(BURST_WITH_SUCCESS, 5) == Some(Window(0, 5));
    assert RowOf(BURST_WITH_SUCCESS, 6) == Some(Window(SOURCE_WINDOW, 1));
    assert RowOf(BURST_WITH_SUCCESS, 7) == Some(Window(SOURCE_WINDOW, 2));
    assert RowOf(BURST_WITH_SUCCESS, 8) == Some(Window(SOURCE_WINDOW, 3));
    assert RowOf(BURST_WITH_SUCCESS, 9) == Some(Window(SOURCE_WINDOW, 4));
    assert RowOf(BURST_WITH_SUCCESS, 10) == Some(Window(SOURCE_WINDOW, 5));
  }

  lemma RowsAfterSuccess()
    ensures RowOf(BURST_WITH_SUCCESS, 11) == None
    ensures forall n :: 12 <= n <= 16 ==> RowOf(BURST_WITH_SUCCESS, n) == Some(Window(SOURCE_WINDOW, n - 11))
  {
    assert RowOf(BURST_WITH_SUCCESS, 12) == Some(Window(SOURCE_WINDOW, 1));
    assert RowOf(BURST_WITH_SUCCESS, 13) == Some(Window(SOURCE_WINDOW, 2));
    assert RowOf(BURST_WITH_SUCCESS, 14) == Some(Window(SOURCE_WINDOW, 3));
    assert RowOf(BURST_WITH_SUCCESS, 15) == Some(Window(SOURCE_WINDOW, 4));
    assert RowOf(BURST_WITH_SUCCESS, 16) == Some(Window(SOURCE_WINDOW, 5));
  }

  lemma OneSuccess()
    ensures SuccessesInside(BURST_WITH_SUCCESS, SOURCE_WINDOW - 1, 16) == 1
  {
    assert SuccessesInside(BURST_WITH_SUCCESS, SOURCE_WINDOW - 1, 1) == 0;
    assert SuccessesInside(BURST_WITH_SUCCESS, SOURCE_WINDOW - 1, 3) == 0;
    assert SuccessesInside(BURST_WITH_SUCCESS, SOURCE_WINDOW - 1, 5) == 0;
    assert SuccessesInside(BURST_WITH_SUCCESS, SOURCE_WINDOW - 1, 7) == 0;
    assert SuccessesInside(BURST_WITH_SUCCESS, SOURCE_WINDOW - 1, 9) == 0;
    assert SuccessesInside(BURST_WITH_SUCCESS, SOURCE_WINDOW - 1, 10) == 0;
    assert SuccessesInside(BURST_WITH_SUCCESS, SOURCE_WINDOW - 1, 11) == 1;
    assert SuccessesInside(BURST_WITH_SUCCESS, SOURCE_WINDOW - 1, 13) == 1;
    assert SuccessesInside(BURST_WITH_SUCCESS, SOURCE_WINDOW - 1, 15) == 1;
  }
}
