/** Snapshot pagination against an arbitrary server, for both providers. */
module Pagination {
  import opened Prelude

  type Item = Name
  type Token = Name

  datatype Total = NoTotal | BadTotal | Total(count: nat)

  /** The continuation field of a page: absent or empty, not a usable string, or a token. */
  datatype Next = Last | BadNext | Next(token: Token)

  /** What one request yields: an exception, a body without a readable item list, or a page. A reported
      offset that is not a number stands as a negative one, which matches no position. */
  datatype Response =
    | Failed
    | Unreadable
    | Page(items: seq<Item>, total: Total, offset: Option<int>, next: Next)

  /** An arbitrary server. What the n-th request carries is fixed by the n earlier answers, so an
      answer per request number covers every adaptive server. */
  type Server = nat -> Response

  const MAX_PAGES: nat := 1000

  /** The first n pages end to end. */
  function Items(server: Server, n: nat): seq<Item>
    requires forall i: nat :: i < n ==> server(i).Page?
  {
    if n == 0 then [] else Items(server, n - 1) + server(n - 1).items
  }

  ghost predicate Readable(server: Server, n: nat) {
    forall i: nat :: i < n ==> server(i).Page?
  }

  /** All totals among the first n pages are well formed and equal to `total` if any is given. */
  ghost predicate TotalsAgree(server: Server, n: nat, total: Option<nat>)
    requires Readable(server, n)
  {
    && (forall i: nat :: i < n ==> !server(i).total.BadTotal?)
    && (forall i: nat :: i < n && server(i).total.Total? ==> total == Some(server(i).total.count))
    && (total.Some? ==> exists i: nat :: i < n && server(i).total.Total?)
  }

  /** Each of the first n pages continues with a token no earlier page used, and is not empty. */
  ghost predicate Continues(server: Server, n: nat)
    requires Readable(server, n)
  {
    && (forall i: nat :: i < n ==> server(i).next.Next? && server(i).items != [])
    && (forall i: nat, j: nat :: i < j < n ==> server(i).next.token != server(j).next.token)
  }

  ghost predicate TokensAre(server: Server, n: nat, seen: set<Token>)
    requires Readable(server, n)
  {
    forall t :: t in seen <==> exists i: nat :: i < n && server(i).next == Next(t)
  }

  datatype Read = Complete(items: seq<Item>) | Unavailable

  /** A read that returns: n + 1 pages, the first n continuing with distinct tokens and the last one
      ending the list; all items in order; and every total that is checked equal to their number. */
  ghost predicate CompleteRead(server: Server, n: nat, items: seq<Item>, exactTotals: bool) {
    && n < MAX_PAGES && Readable(server, n + 1)
    && Continues(server, n) && server(n).next.Last?
    && items == Items(server, n + 1)
    && (exactTotals ==> forall i: nat :: i <= n ==> server(i).total == NoTotal || server(i).total == Total(|items|))
  }

  /** No read of the server can be complete. */
  ghost predicate NoCompleteRead(server: Server, exactTotals: bool) {
    forall n: nat, items :: !CompleteRead(server, n, items, exactTotals)
  }

  /** What a read knows after n pages that all continued. */
  ghost predicate Reading(server: Server, n: nat, items: seq<Item>, seen: set<Token>, expected: Option<nat>,
                          exactTotals: bool) {
    && Readable(server, n) && Continues(server, n) && TokensAre(server, n, seen)
    && items == Items(server, n)
    && (exactTotals ==> TotalsAgree(server, n, expected))
  }

  // ---- Why each early exit is right ----------------------------------------------------------

  lemma NotBefore(server: Server, n: nat, m: nat, items: seq<Item>, exact: bool)
    requires Readable(server, n) && Continues(server, n) && m < n
    ensures !CompleteRead(server, m, items, exact)
  {
    assert server(m).next.Next?;
  }

  /** The next page is unusable, or its continuation is. */
  lemma Stuck(server: Server, n: nat, seen: set<Token>, exact: bool)
    requires Readable(server, n) && Continues(server, n) && TokensAre(server, n, seen)
    requires !server(n).Page? || server(n).next.BadNext?
             || (server(n).next.Next? && (server(n).items == [] || server(n).next.token in seen))
    ensures NoCompleteRead(server, exact)
  {
    forall m: nat, items ensures !CompleteRead(server, m, items, exact) {
      if m < n {
        NotBefore(server, n, m, items, exact);
      } else if m > n && server(n).Page? && server(n).next.Next? && server(n).next.token in seen {
        var i: nat :| i < n && server(i).next == Next(server(n).next.token);
        assert Readable(server, m + 1) ==> !Continues(server, m);
      }
    }
  }

  /** A total that disagrees with one seen before, or is not a number, rules out every complete read. */
  lemma WrongTotal(server: Server, n: nat, expected: Option<nat>)
    requires Readable(server, n) && server(n).Page? && Continues(server, n) && TotalsAgree(server, n, expected)
    requires server(n).total.BadTotal?
               || (server(n).total.Total? && expected.Some? && server(n).total.count != expected.value)
    ensures NoCompleteRead(server, true)
  {
    forall m: nat, items ensures !CompleteRead(server, m, items, true) {
      if m < n {
        NotBefore(server, n, m, items, true);
      } else if server(n).total.Total? {
        var i: nat :| i < n && server(i).total.Total?;
        assert server(i).total.count != server(n).total.count;
      }
    }
  }

  lemma WrongLength(server: Server, n: nat, expected: Option<nat>)
    requires Readable(server, n + 1) && Continues(server, n) && TotalsAgree(server, n + 1, expected)
    requires server(n).next.Last? && expected.Some? && |Items(server, n + 1)| != expected.value
    ensures NoCompleteRead(server, true)
  {
    forall m: nat, items ensures !CompleteRead(server, m, items, true) {
      if m < n {
        NotBefore(server, n, m, items, true);
      } else if m == n {
        var i: nat :| i < n + 1 && server(i).total.Total?;
        assert server(i).total == Total(expected.value);
      }
    }
  }

  lemma TooManyPages(server: Server, exact: bool)
    requires Readable(server, MAX_PAGES) && Continues(server, MAX_PAGES)
    ensures NoCompleteRead(server, exact)
  {
    forall m: nat, items ensures !CompleteRead(server, m, items, exact) {
      if m < MAX_PAGES {
        NotBefore(server, MAX_PAGES, m, items, exact);
      }
    }
  }

  /** The total of page n joins those seen before. */
  lemma TotalStep(server: Server, n: nat, expected: Option<nat>)
    requires Readable(server, n + 1) && TotalsAgree(server, n, expected)
    requires server(n).total.NoTotal?
               || (server(n).total.Total? && (expected.Some? ==> server(n).total.count == expected.value))
    ensures TotalsAgree(server, n + 1, if server(n).total.NoTotal? then expected else Some(server(n).total.count))
  {
    assert server(n).total.Total? ==> n < n + 1 && server(n).total.Total?;
  }

  lemma Finished(server: Server, n: nat, items: seq<Item>, expected: Option<nat>, exact: bool)
    requires n < MAX_PAGES && Readable(server, n + 1) && Continues(server, n) && server(n).next.Last?
    requires items == Items(server, n + 1)
    requires exact ==> TotalsAgree(server, n + 1, expected) && (expected.Some? ==> |items| == expected.value)
    ensures CompleteRead(server, n, items, exact)
  {
  }

  lemma ContinueStep(server: Server, n: nat, seen: set<Token>)
    requires Readable(server, n + 1) && Continues(server, n) && TokensAre(server, n, seen)
    requires server(n).next.Next? && server(n).items != [] && server(n).next.token !in seen
    ensures Continues(server, n + 1) && TokensAre(server, n + 1, seen + {server(n).next.token})
  {
    forall i: nat, j: nat | i < j < n + 1 ensures server(i).next.token != server(j).next.token {
      if j == n {
        assert server(i).next == Next(server(i).next.token);
      }
    }
    var after := seen + {server(n).next.token};
    forall t ensures t in after <==> exists i: nat :: i < n + 1 && server(i).next == Next(t) {
      if t in seen {
        var i: nat :| i < n && server(i).next == Next(t);
        assert i < n + 1;
      }
      if t == server(n).next.token {
        assert n < n + 1 && server(n).next == Next(t);
      }
      if i: nat :| i < n + 1 && server(i).next == Next(t) {
        assert i < n ==> t in seen;
      }
    }
  }

  // ---- The checks both providers share ----------------------------------------------------------

  /** The count check of one page; false stands for the raised exception. */
  method CheckTotal(server: Server, n: nat, expected: Option<nat>) returns (ok: bool, updated: Option<nat>)
    requires Readable(server, n + 1) && Continues(server, n) && TotalsAgree(server, n, expected)
    ensures ok ==> TotalsAgree(server, n + 1, updated)
    ensures !ok ==> NoCompleteRead(server, true)
  {
    var total := server(n).total;
    updated := expected;
    if !total.NoTotal? {
      if total.BadTotal? || (expected.Some? && total.count != expected.value) {
        WrongTotal(server, n, expected);
        return false, expected;
      }
      updated := Some(total.count);
    }
    TotalStep(server, n, expected);
    ok := true;
  }

  datatype Verdict = Stop | Done | More

  /** The end of the loop body: finish, refuse, or remember the continuation. */
  method CheckNext(server: Server, n: nat, count: nat, seen: set<Token>, expected: Option<nat>, exact: bool)
    returns (verdict: Verdict, after: set<Token>)
    requires n < MAX_PAGES && Readable(server, n + 1) && Continues(server, n) && TokensAre(server, n, seen)
    requires count == |Items(server, n + 1)|
    requires if exact then TotalsAgree(server, n + 1, expected) else expected.None?
    ensures verdict.Stop? ==> NoCompleteRead(server, exact)
    ensures verdict.Done? ==> CompleteRead(server, n, Items(server, n + 1), exact)
    ensures verdict.More? ==> Continues(server, n + 1) && TokensAre(server, n + 1, after)
  {
    var page := server(n);
    after := seen;
    if page.next.Last? {
      if expected.Some? && count != expected.value {
        WrongLength(server, n, expected);
        return Stop, seen;
      }
      Finished(server, n, Items(server, n + 1), expected, exact);
      return Done, seen;
    }
    if page.next.BadNext? || page.items == [] || page.next.token in seen {
      Stuck(server, n, seen, exact);
      return Stop, seen;
    }
    ContinueStep(server, n, seen);
    verdict, after := More, seen + {page.next.token};
  }

  // ---- YouTube: _YouTubeDataApiClient._paged ------------------------------------------------

  /** What a page of a membership or discovery read leads to. */
  ghost predicate Judged(server: Server, n: nat, exact: bool, verdict: Verdict,
                         items: seq<Item>, seen: set<Token>, expected: Option<nat>)
  {
    match verdict
    case Stop => NoCompleteRead(server, exact)
    case Done => CompleteRead(server, n, items, exact)
    case More => Reading(server, n + 1, items, seen, expected, exact) && (!exact ==> expected.None?)
  }

  /** The pages before n, with or without page n. */
  ghost predicate WholePages(server: Server, n: nat, items: seq<Item>) {
    Readable(server, n) && (items == Items(server, n) || (server(n).Page? && items == Items(server, n + 1)))
  }

  /** The loop body for one page. */
  method ReadPage(server: Server, n: nat, items: seq<Item>, seen: set<Token>, expected: Option<nat>, membership: bool)
    returns (verdict: Verdict, items': seq<Item>, seen': set<Token>, expected': Option<nat>)
    requires n < MAX_PAGES && Reading(server, n, items, seen, expected, membership) && (!membership ==> expected.None?)
    ensures Judged(server, n, membership, verdict, items', seen', expected')
    ensures WholePages(server, n, items')
  {
    verdict, items', seen', expected' := Stop, items, seen, expected;
    if !server(n).Page? {
      Stuck(server, n, seen, membership);
      return;
    }
    if membership {
      var ok;
      ok, expected' := CheckTotal(server, n, expected);
      if !ok {
        return;
      }
    }
    items' := items + server(n).items;
    verdict, seen' := CheckNext(server, n, |items'|, seen, expected', membership);
  }

  /** What Paged promises: at most 1000 requests, none repeating a continuation, and success exactly
      when the server has a complete read to give. */
  ghost predicate Honest(server: Server, membership: bool, read: Read, requests: nat) {
    && 1 <= requests <= MAX_PAGES && Readable(server, requests - 1) && Continues(server, requests - 1)
    && match read
       case Complete(items) => CompleteRead(server, requests - 1, items, membership)
       case Unavailable => NoCompleteRead(server, membership)
  }

  lemma HonestStop(server: Server, n: nat, membership: bool, verdict: Verdict, items: seq<Item>, seen: set<Token>,
                   expected: Option<nat>)
    requires n < MAX_PAGES && Readable(server, n) && Continues(server, n)
    requires !verdict.More? && Judged(server, n, membership, verdict, items, seen, expected)
    ensures Honest(server, membership, if verdict.Done? then Complete(items) else Unavailable, n + 1)
  {
  }

  lemma HonestEnd(server: Server, membership: bool)
    requires Readable(server, MAX_PAGES) && Continues(server, MAX_PAGES)
    ensures Honest(server, membership, Unavailable, MAX_PAGES)
  {
    TooManyPages(server, membership);
  }

  /** `membership` is whether the endpoint is /playlistItems, the only one whose totals are exact.
      `requests` counts the requests made. */
  method Paged(server: Server, membership: bool) returns (read: Read, requests: nat)
    ensures Honest(server, membership, read, requests)
  {
    var items: seq<Item> := [];
    var seen: set<Token> := {};
    var expected: Option<nat> := None;
    for n := 0 to MAX_PAGES
      invariant Reading(server, n, items, seen, expected, membership)
      invariant !membership ==> expected.None?
    {
      var verdict;
      verdict, items, seen, expected := ReadPage(server, n, items, seen, expected, membership);
      if !verdict.More? {
        HonestStop(server, n, membership, verdict, items, seen, expected);
        return if verdict.Done? then Complete(items) else Unavailable, n + 1;
      }
    }
    HonestEnd(server, membership);
    read, requests := Unavailable, MAX_PAGES;
  }

  // ---- Spotify: SpotifyProvider._pages -----------------------------------------------------------

  /** Every reported offset equals the number of items on the pages before. */
  ghost predicate OffsetsMatch(server: Server, n: nat)
    requires Readable(server, n)
  {
    forall i: nat :: i < n && server(i).offset.Some? ==> server(i).offset.value == |Items(server, i)|
  }

  ghost predicate NoPlacedRead(server: Server) {
    forall n: nat, items :: CompleteRead(server, n, items, true) ==> !OffsetsMatch(server, n + 1)
  }

  lemma WrongOffset(server: Server, n: nat)
    requires Readable(server, n + 1) && Continues(server, n)
    requires server(n).offset.Some? && server(n).offset.value != |Items(server, n)|
    ensures NoPlacedRead(server)
  {
    forall m: nat, items | CompleteRead(server, m, items, true) ensures !OffsetsMatch(server, m + 1) {
      if m < n {
        NotBefore(server, n, m, items, true);
      }
    }
  }

  /** Reading on keeps the offsets right, and stopping rules out every rightly placed read. */
  ghost predicate Placed(server: Server, n: nat, verdict: Verdict, items: seq<Item>, seen: set<Token>,
                         expected: Option<nat>) {
    && WholePages(server, n, items)
    && if verdict.Stop? then NoPlacedRead(server)
       else
         && Judged(server, n, true, verdict, items, seen, expected)
         && Readable(server, n + 1)
         && OffsetsMatch(server, n + 1)
  }

  lemma PlacedStep(server: Server, n: nat, verdict: Verdict, items: seq<Item>, seen: set<Token>, expected: Option<nat>)
    requires Readable(server, n) && OffsetsMatch(server, n)
    requires server(n).Page? && server(n).offset.Some? ==> server(n).offset.value == |Items(server, n)|
    requires Judged(server, n, true, verdict, items, seen, expected) && WholePages(server, n, items)
    ensures Placed(server, n, verdict, items, seen, expected)
  {
  }

  lemma Misplaced(server: Server, n: nat, items: seq<Item>, seen: set<Token>, expected: Option<nat>)
    requires Reading(server, n, items, seen, expected, true) && server(n).Page?
    requires server(n).offset.Some? && server(n).offset.value != |items|
    ensures Placed(server, n, Stop, items, seen, expected)
  {
    WrongOffset(server, n);
  }

  /** The loop body for one page. The offset is checked before the count here; both raise alike. */
  method YieldPage(server: Server, n: nat, received: nat, yielded: seq<Item>, seen: set<Token>, expected: Option<nat>)
    returns (verdict: Verdict, yielded': seq<Item>, seen': set<Token>, expected': Option<nat>)
    requires n < MAX_PAGES && Reading(server, n, yielded, seen, expected, true) && OffsetsMatch(server, n)
    requires received == |yielded|
    ensures Placed(server, n, verdict, yielded', seen', expected')
  {
    if server(n).Page? && server(n).offset.Some? && server(n).offset.value != received {
      Misplaced(server, n, yielded, seen, expected);
      return Stop, yielded, seen, expected;
    }
    verdict, yielded', seen', expected' := ReadPage(server, n, yielded, seen, expected, true);
    PlacedStep(server, n, verdict, yielded', seen', expected');
  }

  /** What Pages promises. The caller made the first request; `requests` counts those made here. The
      generator has produced `yielded` when it returns or raises: whole pages, in order. */
  ghost predicate HonestPages(server: Server, ok: bool, yielded: seq<Item>, requests: nat) {
    && requests <= MAX_PAGES && Readable(server, requests) && Continues(server, requests)
    && (if ok then CompleteRead(server, requests, yielded, true) && OffsetsMatch(server, requests + 1)
        else NoPlacedRead(server))
    && WholePages(server, requests, yielded)
  }

  lemma HonestPagesStop(server: Server, n: nat, verdict: Verdict, items: seq<Item>, seen: set<Token>,
                        expected: Option<nat>)
    requires n < MAX_PAGES && Readable(server, n) && Continues(server, n)
    requires !verdict.More? && Placed(server, n, verdict, items, seen, expected)
    ensures HonestPages(server, verdict.Done?, items, n)
  {
  }

  lemma HonestPagesEnd(server: Server, items: seq<Item>)
    requires Readable(server, MAX_PAGES) && Continues(server, MAX_PAGES) && items == Items(server, MAX_PAGES)
    ensures HonestPages(server, false, items, MAX_PAGES)
  {
    TooManyPages(server, true);
  }

  /** A continuation that is not a trusted Spotify URL is a BadNext. */
  method Pages(server: Server) returns (ok: bool, yielded: seq<Item>, requests: nat)
    ensures HonestPages(server, ok, yielded, requests)
  {
    var seen: set<Token> := {};
    var expected: Option<nat> := None;
    yielded := [];
    for n := 0 to MAX_PAGES
      invariant Reading(server, n, yielded, seen, expected, true) && OffsetsMatch(server, n)
    {
      var verdict;
      verdict, yielded, seen, expected := YieldPage(server, n, |yielded|, yielded, seen, expected);
      if !verdict.More? {
        HonestPagesStop(server, n, verdict, yielded, seen, expected);
        return verdict.Done?, yielded, n;
      }
    }
    HonestPagesEnd(server, yielded);
    ok, requests := false, MAX_PAGES;
  }

  // ---- What a complete read means -------------------------------------------------------------------

  lemma {:induction false} ItemAt(server: Server, n: nat, p: nat, i: nat)
    requires Readable(server, n) && p < n && i < |server(p).items|
    ensures |Items(server, p)| + i < |Items(server, n)|
    ensures Items(server, n)[|Items(server, p)| + i] == server(p).items[i]
    decreases n
  {
    if p < n - 1 {
      ItemAt(server, n - 1, p, i);
    }
  }

  /** A returned snapshot holds each item of each page at the place its page begins plus its index. */
  lemma NothingLost(server: Server, n: nat, items: seq<Item>, exact: bool, p: nat, i: nat)
    requires CompleteRead(server, n, items, exact) && p <= n && i < |server(p).items|
    ensures |Items(server, p)| + i < |items| && items[|Items(server, p)| + i] == server(p).items[i]
  {
    ItemAt(server, n + 1, p, i);
  }
}
