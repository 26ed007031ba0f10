/**
 The three capped pagination loops of the coordinator (core/pkg/coordinator/fetch_watch_orders.go,
 find_overdue_tickets.go, find_stale_prs.go).  A server is any function of the number of the call and the cursor it is
 given; nothing is assumed about its answers.  The caps are parameters.  Each loop also returns its trail, the pages
 it fetched; the one that filters also returns how many items it examined.
 */
module Pagination {
  import opened Options

  datatype Response<+P> = Page(page: P) | ServerError

  datatype Scan<+T> = Collected(items: seq<T>, truncated: bool) | ContextError | FetchError

  /** What a page says about what comes after it; `Odd` when its two signals contradict each other. */
  datatype Signal = Clean | Odd | More

  // ---------------------------------------------------------------- what a scan should give

  /** A scan of `pages` pages holding `total` items, `before` of them on earlier pages than the last, that examined the
      first `examined` items and kept `count` of them. */
  predicate Honest(
    pages: nat, before: nat, total: nat, last: Signal, examined: nat, count: nat, truncated: bool,
    maxItems: nat, maxPages: nat)
  {
    && pages <= maxPages && count <= maxItems && before <= examined <= total
    // it says "complete" exactly when the last page was cleanly terminal and every item on it was examined
    && (!truncated <==> pages > 0 && last == Clean && examined == total)
    // it stops before the end of what the server offers only at a cap or at a contradiction
    && (examined < total ==> count == maxItems)
    && (pages == 0 || (last == More && examined == total) ==> count == maxItems || pages == maxPages)
  }

  function Filter<T>(s: seq<T>, keep: T -> bool): seq<T> {
    if s == [] then []
    else
      var front := Filter(s[..|s| - 1], keep);
      if keep(s[|s| - 1]) then front + [s[|s| - 1]] else front
  }

  lemma FilterAppend<T>(s: seq<T>, x: T, keep: T -> bool)
    ensures Filter(s + [x], keep) == Filter(s, keep) + if keep(x) then [x] else []
  {
    assert (s + [x])[..|s|] == s;
  }

  /** Whatever the flag says, the items are a prefix of everything offered that passes the filter; if it says
      "complete", they are all of it. */
  lemma FlagIsExact<T(!new)>(
    all: seq<T>, keep: T -> bool, items: seq<T>,
    pages: nat, before: nat, last: Signal, examined: nat, truncated: bool, maxItems: nat, maxPages: nat)
    requires Honest(pages, before, |all|, last, examined, |items|, truncated, maxItems, maxPages)
    requires items == Filter(all[..examined], keep)
    ensures items <= Filter(all, keep)
    ensures !truncated ==> last == Clean && items == Filter(all, keep) && forall x :: x in all && keep(x) ==> x in items
  {
    FilterPrefix(all, keep, examined);
    if !truncated {
      assert all[..examined] == all;
      forall x | x in all && keep(x)
        ensures x in items
      {
        FilterKeeps(all, keep, x);
      }
    }
  }

  lemma {:induction false} FilterKeeps<T>(s: seq<T>, keep: T -> bool, x: T)
    requires x in s && keep(x)
    ensures x in Filter(s, keep)
  {
    var n := |s| - 1;
    if s[n] != x {
      assert x in s[..n];
      FilterKeeps(s[..n], keep, x);
    }
  }

  lemma {:induction false} FilterPrefix<T>(s: seq<T>, keep: T -> bool, n: nat)
    requires n <= |s|
    ensures Filter(s[..n], keep) <= Filter(s, keep)
  {
    if n < |s| {
      FilterPrefix(s[..|s| - 1], keep, n);
      assert s[..|s| - 1][..n] == s[..n];
    } else {
      assert s[..n] == s;
    }
  }

  /** The loop over one page of an unfiltered scan: it stops right after the item that fills the cap. */
  method ReadItems<T>(page: seq<T>, maxItems: nat, room: seq<T>) returns (collected: seq<T>, read: nat)
    requires |room| < maxItems
    ensures read <= |page| && |collected| <= maxItems && (|collected| < maxItems ==> read == |page|)
    ensures collected == room + page[..read]
  {
    collected, read := room, 0;
    while read < |page|
      invariant read <= |page| && |collected| < maxItems && collected == room + page[..read]
    {
      collected := collected + [page[read]];
      read := read + 1;
      if |collected| >= maxItems {
        return;
      }
    }
  }

  // ---------------------------------------------------------------- Slack: conversations.history

  datatype HistoryPage<+T> = HistoryPage(messages: seq<T>, hasMore: bool, nextCursor: string)

  function HistorySignal<T>(p: HistoryPage<T>): Signal {
    if p.hasMore then (if p.nextCursor == "" then Odd else More)
    else if p.nextCursor == "" then Clean else Odd
  }

  function Messages<T>(trail: seq<HistoryPage<T>>): seq<T> {
    if trail == [] then [] else Messages(trail[..|trail| - 1]) + trail[|trail| - 1].messages
  }

  /** The cursor of the call after `k` pages: each call passes on what the page before it said. */
  function HistoryCursor<T>(trail: seq<HistoryPage<T>>, k: nat): string
    requires k <= |trail|
  {
    if k == 0 then "" else trail[k - 1].nextCursor
  }

  /** The trail is what the server answered, and each page but the last asked for more. */
  ghost predicate HistoryTrail<T>(
    server: (nat, string) -> Response<HistoryPage<T>>, cancelled: nat -> bool, trail: seq<HistoryPage<T>>)
  {
    forall k: nat :: k < |trail| ==> HistoryCall(server, cancelled, trail, k)
  }

  predicate HistoryCall<T(==)>(
    server: (nat, string) -> Response<HistoryPage<T>>, cancelled: nat -> bool, trail: seq<HistoryPage<T>>, k: nat)
    requires k < |trail|
  {
    && !cancelled(k) && server(k, HistoryCursor(trail, k)) == Page(trail[k])
    && (k < |trail| - 1 ==> HistorySignal(trail[k]) == More)
  }

  ghost predicate HistoryAnswer<T>(
    server: (nat, string) -> Response<HistoryPage<T>>, cancelled: nat -> bool, maxItems: nat, maxPages: nat,
    r: Scan<T>, trail: seq<HistoryPage<T>>)
  {
    && HistoryTrail(server, cancelled, trail)
    && match r
       case Collected(items, truncated) =>
         && items <= Messages(trail)
         && Honest(|trail|, if trail == [] then 0 else |Messages(trail[..|trail| - 1])|, |Messages(trail)|,
                   if trail == [] then More else HistorySignal(trail[|trail| - 1]), |items|, |items|, truncated,
                   maxItems, maxPages)
       case ContextError => HistoryWantsMore(trail, maxItems, maxPages) && cancelled(|trail|)
       case FetchError =>
         HistoryWantsMore(trail, maxItems, maxPages) && !cancelled(|trail|)
         && server(|trail|, HistoryCursor(trail, |trail|)) == ServerError
  }

  predicate HistoryWantsMore<T>(trail: seq<HistoryPage<T>>, maxItems: nat, maxPages: nat) {
    |trail| < maxPages && |Messages(trail)| < maxItems && (trail != [] ==> HistorySignal(trail[|trail| - 1]) == More)
  }

  lemma MessagesAppend<T>(trail: seq<HistoryPage<T>>, p: HistoryPage<T>)
    ensures Messages(trail + [p]) == Messages(trail) + p.messages && (trail + [p])[..|trail|] == trail
  {
    assert (trail + [p])[..|trail|] == trail;
  }

  lemma HistoryTrailGrows<T>(
    server: (nat, string) -> Response<HistoryPage<T>>, cancelled: nat -> bool, trail: seq<HistoryPage<T>>, p: HistoryPage<T>)
    requires HistoryTrail(server, cancelled, trail) && (trail != [] ==> HistorySignal(trail[|trail| - 1]) == More)
    requires !cancelled(|trail|) && server(|trail|, HistoryCursor(trail, |trail|)) == Page(p)
    ensures HistoryTrail(server, cancelled, trail + [p])
  {
    forall k: nat | k < |trail + [p]|
      ensures HistoryCall(server, cancelled, trail + [p], k)
    {
      assert k < |trail| ==> HistoryCall(server, cancelled, trail, k);
    }
  }

  /** "Not truncated" is said exactly when the last page was cleanly terminal and every item fetched was returned. */
  lemma HistoryFlag<T>(
    server: (nat, string) -> Response<HistoryPage<T>>, cancelled: nat -> bool, maxItems: nat, maxPages: nat,
    r: Scan<T>, trail: seq<HistoryPage<T>>)
    requires HistoryAnswer(server, cancelled, maxItems, maxPages, r, trail) && r.Collected?
    ensures r.items <= Messages(trail) && |r.items| <= maxItems && |trail| <= maxPages
    ensures !r.truncated <==>
      trail != [] && !trail[|trail| - 1].hasMore && trail[|trail| - 1].nextCursor == "" && r.items == Messages(trail)
    ensures r.truncated && |r.items| < maxItems && |trail| < maxPages ==>
      trail != [] && (trail[|trail| - 1].hasMore <==> trail[|trail| - 1].nextCursor == "")
  {
    if |r.items| == |Messages(trail)| { assert r.items == Messages(trail)[..|r.items|]; }
  }

  /** What a scan asked: the first page without a cursor, each later one with the cursor of the page before it, which had
      said that there was more; it never asked after a cancel.  An error is that of the next call it would have made. */
  lemma HistoryCalls<T>(
    server: (nat, string) -> Response<HistoryPage<T>>, cancelled: nat -> bool, maxItems: nat, maxPages: nat,
    r: Scan<T>, trail: seq<HistoryPage<T>>, k: nat)
    requires HistoryAnswer(server, cancelled, maxItems, maxPages, r, trail)
    ensures k < |trail| ==> !cancelled(k) && server(k, if k == 0 then "" else trail[k - 1].nextCursor) == Page(trail[k])
    ensures 0 < k < |trail| ==> trail[k - 1].hasMore && trail[k - 1].nextCursor != ""
    ensures !r.Collected? ==> |trail| < maxPages && |Messages(trail)| < maxItems && (cancelled(|trail|) <==> r.ContextError?)
    ensures r.FetchError? ==>
      server(|trail|, if trail == [] then "" else trail[|trail| - 1].nextCursor) == ServerError
  {
    if 0 < k < |trail| { assert HistoryCall(server, cancelled, trail, k - 1); }
    if k < |trail| { assert HistoryCall(server, cancelled, trail, k); }
  }

  /** A scan under way: it holds everything on the pages of its trail, and may go on. */
  ghost predicate HistoryOpen<T>(
    server: (nat, string) -> Response<HistoryPage<T>>, cancelled: nat -> bool, maxItems: nat,
    trail: seq<HistoryPage<T>>, collected: seq<T>)
  {
    && HistoryTrail(server, cancelled, trail) && (trail != [] ==> HistorySignal(trail[|trail| - 1]) == More)
    && collected == Messages(trail) && |collected| < maxItems
  }

  lemma HistoryStaysOpen<T>(
    server: (nat, string) -> Response<HistoryPage<T>>, cancelled: nat -> bool, maxItems: nat,
    trail: seq<HistoryPage<T>>, collected: seq<T>, p: HistoryPage<T>, more: seq<T>)
    requires HistoryOpen(server, cancelled, maxItems, trail, collected)
    requires !cancelled(|trail|) && server(|trail|, HistoryCursor(trail, |trail|)) == Page(p)
    requires more == collected + p.messages[..|p.messages|] && |more| < maxItems && HistorySignal(p) == More
    ensures HistoryOpen(server, cancelled, maxItems, trail + [p], more)
  {
    HistoryTrailGrows(server, cancelled, trail, p);
    MessagesAppend(trail, p);
  }

  /** A scan that ends on page `p`, at the cap or because the page asks for no other. */
  lemma HistoryEnd<T>(
    server: (nat, string) -> Response<HistoryPage<T>>, cancelled: nat -> bool, maxItems: nat, maxPages: nat,
    trail: seq<HistoryPage<T>>, collected: seq<T>, p: HistoryPage<T>, items: seq<T>, read: nat, truncated: bool)
    requires HistoryOpen(server, cancelled, maxItems, trail, collected) && |trail| < maxPages && |items| <= maxItems
    requires !cancelled(|trail|) && server(|trail|, HistoryCursor(trail, |trail|)) == Page(p)
    requires read <= |p.messages| && items == collected + p.messages[..read]
    requires |items| < maxItems ==> read == |p.messages| && (p.hasMore ==> p.nextCursor == "")
    requires truncated <==> p.hasMore || p.nextCursor != "" || read < |p.messages|
    ensures HistoryAnswer(server, cancelled, maxItems, maxPages, Collected(items, truncated), trail + [p])
  {
    HistoryTrailGrows(server, cancelled, trail, p);
    MessagesAppend(trail, p);
  }

  /** A scan whose next call is cancelled or fails. */
  lemma HistoryFails<T>(
    server: (nat, string) -> Response<HistoryPage<T>>, cancelled: nat -> bool, maxItems: nat, maxPages: nat,
    trail: seq<HistoryPage<T>>, collected: seq<T>)
    requires HistoryOpen(server, cancelled, maxItems, trail, collected) && |trail| < maxPages
    ensures cancelled(|trail|) ==> HistoryAnswer(server, cancelled, maxItems, maxPages, ContextError, trail)
    ensures !cancelled(|trail|) && server(|trail|, HistoryCursor(trail, |trail|)) == ServerError ==>
      HistoryAnswer(server, cancelled, maxItems, maxPages, FetchError, trail)
  {
  }

  /** A scan that may not ask for another page. */
  lemma HistoryCapped<T>(
    server: (nat, string) -> Response<HistoryPage<T>>, cancelled: nat -> bool, maxItems: nat, maxPages: nat,
    trail: seq<HistoryPage<T>>, collected: seq<T>)
    requires HistoryOpen(server, cancelled, maxItems, trail, collected) && |trail| == maxPages
    ensures HistoryAnswer(server, cancelled, maxItems, maxPages, Collected(collected, true), trail)
  {
  }

  method PaginateHistory<T>(
    server: (nat, string) -> Response<HistoryPage<T>>, cancelled: nat -> bool, maxItems: nat, maxPages: nat)
    returns (r: Scan<T>, trail: seq<HistoryPage<T>>)
    requires maxItems > 0
    ensures HistoryAnswer(server, cancelled, maxItems, maxPages, r, trail)
  {
    var collected: seq<T> := [];
    var cursor := "";
    trail := [];
    while |trail| < maxPages
      invariant |trail| <= maxPages && cursor == HistoryCursor(trail, |trail|)
      invariant HistoryOpen(server, cancelled, maxItems, trail, collected)
    {
      HistoryFails(server, cancelled, maxItems, maxPages, trail, collected);
      if cancelled(|trail|) {
        return ContextError, trail;
      }
      var res := server(|trail|, cursor);
      if res.ServerError? {
        return FetchError, trail;
      }
      var page := res.page;
      ghost var done, room := trail, collected;
      trail := trail + [page];
      var read;
      collected, read := ReadItems(page.messages, maxItems, collected);
      if |collected| >= maxItems {
        var truncated := page.hasMore || page.nextCursor != "" || read < |page.messages|;
        HistoryEnd(server, cancelled, maxItems, maxPages, done, room, page, collected, read, truncated);
        return Collected(collected, truncated), trail;
      }
      if !page.hasMore {
        HistoryEnd(server, cancelled, maxItems, maxPages, done, room, page, collected, read, page.nextCursor != "");
        return Collected(collected, page.nextCursor != ""), trail;
      }
      if page.nextCursor == "" {
        HistoryEnd(server, cancelled, maxItems, maxPages, done, room, page, collected, read, true);
        return Collected(collected, true), trail;
      }
      HistoryStaysOpen(server, cancelled, maxItems, done, room, page, collected);
      cursor := page.nextCursor;
    }
    HistoryCapped(server, cancelled, maxItems, maxPages, trail, collected);
    r := Collected(collected, true);
  }

  // ---------------------------------------------------------------- Jira: search

  datatype SearchPage<+T> = SearchPage(issues: seq<T>, isLast: bool, nextPageToken: string)

  function SearchSignal<T>(p: SearchPage<T>): Signal {
    if !p.isLast then More else if p.nextPageToken == "" then Clean else Odd
  }

  function Issues<T>(trail: seq<SearchPage<T>>): seq<T> {
    if trail == [] then [] else Issues(trail[..|trail| - 1]) + trail[|trail| - 1].issues
  }

  function SearchCursor<T>(trail: seq<SearchPage<T>>, k: nat): string
    requires k <= |trail|
  {
    if k == 0 then "" else trail[k - 1].nextPageToken
  }

  ghost predicate SearchTrail<T>(
    server: (nat, string) -> Response<SearchPage<T>>, cancelled: nat -> bool, trail: seq<SearchPage<T>>)
  {
    forall k: nat :: k < |trail| ==> SearchCall(server, cancelled, trail, k)
  }

  predicate SearchCall<T(==)>(
    server: (nat, string) -> Response<SearchPage<T>>, cancelled: nat -> bool, trail: seq<SearchPage<T>>, k: nat)
    requires k < |trail|
  {
    && !cancelled(k) && server(k, SearchCursor(trail, k)) == Page(trail[k])
    && (k < |trail| - 1 ==> SearchSignal(trail[k]) == More)
  }

  ghost predicate SearchAnswer<T>(
    server: (nat, string) -> Response<SearchPage<T>>, cancelled: nat -> bool, maxItems: nat, maxPages: nat,
    r: Scan<T>, trail: seq<SearchPage<T>>)
  {
    && SearchTrail(server, cancelled, trail)
    && match r
       case Collected(items, truncated) =>
         && items <= Issues(trail)
         && Honest(|trail|, if trail == [] then 0 else |Issues(trail[..|trail| - 1])|, |Issues(trail)|,
                   if trail == [] then More else SearchSignal(trail[|trail| - 1]), |items|, |items|, truncated,
                   maxItems, maxPages)
       case ContextError => SearchWantsMore(trail, maxItems, maxPages) && cancelled(|trail|)
       case FetchError =>
         SearchWantsMore(trail, maxItems, maxPages) && !cancelled(|trail|)
         && server(|trail|, SearchCursor(trail, |trail|)) == ServerError
  }

  predicate SearchWantsMore<T>(trail: seq<SearchPage<T>>, maxItems: nat, maxPages: nat) {
    |trail| < maxPages && |Issues(trail)| < maxItems && (trail != [] ==> SearchSignal(trail[|trail| - 1]) == More)
  }

  lemma IssuesAppend<T>(trail: seq<SearchPage<T>>, p: SearchPage<T>)
    ensures Issues(trail + [p]) == Issues(trail) + p.issues && (trail + [p])[..|trail|] == trail
  {
    assert (trail + [p])[..|trail|] == trail;
  }

  lemma SearchTrailGrows<T>(
    server: (nat, string) -> Response<SearchPage<T>>, cancelled: nat -> bool, trail: seq<SearchPage<T>>, p: SearchPage<T>)
    requires SearchTrail(server, cancelled, trail) && (trail != [] ==> SearchSignal(trail[|trail| - 1]) == More)
    requires !cancelled(|trail|) && server(|trail|, SearchCursor(trail, |trail|)) == Page(p)
    ensures SearchTrail(server, cancelled, trail + [p])
  {
    forall k: nat | k < |trail + [p]|
      ensures SearchCall(server, cancelled, trail + [p], k)
    {
      assert k < |trail| ==> SearchCall(server, cancelled, trail, k);
    }
  }

  /** "Not truncated" is said exactly when the last page was cleanly terminal and every item fetched was returned. */
  lemma SearchFlag<T>(
    server: (nat, string) -> Response<SearchPage<T>>, cancelled: nat -> bool, maxItems: nat, maxPages: nat,
    r: Scan<T>, trail: seq<SearchPage<T>>)
    requires SearchAnswer(server, cancelled, maxItems, maxPages, r, trail) && r.Collected?
    ensures r.items <= Issues(trail) && |r.items| <= maxItems && |trail| <= maxPages
    ensures !r.truncated <==>
      trail != [] && trail[|trail| - 1].isLast && trail[|trail| - 1].nextPageToken == "" && r.items == Issues(trail)
    ensures r.truncated && |r.items| < maxItems && |trail| < maxPages ==>
      trail != [] && trail[|trail| - 1].isLast && trail[|trail| - 1].nextPageToken != ""
  {
    if |r.items| == |Issues(trail)| { assert r.items == Issues(trail)[..|r.items|]; }
  }

  /** What a scan asked, as for Slack; here a page says with one flag that it is not the last. */
  lemma SearchCalls<T>(
    server: (nat, string) -> Response<SearchPage<T>>, cancelled: nat -> bool, maxItems: nat, maxPages: nat,
    r: Scan<T>, trail: seq<SearchPage<T>>, k: nat)
    requires SearchAnswer(server, cancelled, maxItems, maxPages, r, trail)
    ensures k < |trail| ==> !cancelled(k) && server(k, if k == 0 then "" else trail[k - 1].nextPageToken) == Page(trail[k])
    ensures 0 < k < |trail| ==> !trail[k - 1].isLast
    ensures !r.Collected? ==> |trail| < maxPages && |Issues(trail)| < maxItems && (cancelled(|trail|) <==> r.ContextError?)
    ensures r.FetchError? ==>
      server(|trail|, if trail == [] then "" else trail[|trail| - 1].nextPageToken) == ServerError
  {
    if 0 < k < |trail| { assert SearchCall(server, cancelled, trail, k - 1); }
    if k < |trail| { assert SearchCall(server, cancelled, trail, k); }
  }

  method PaginateOverdue<T>(
    server: (nat, string) -> Response<SearchPage<T>>, cancelled: nat -> bool, maxItems: nat, maxPages: nat)
    returns (r: Scan<T>, trail: seq<SearchPage<T>>)
    requires maxItems > 0
    ensures SearchAnswer(server, cancelled, maxItems, maxPages, r, trail)
  {
    var collected: seq<T> := [];
    var cursor := "";
    trail := [];
    while |trail| < maxPages
      invariant |trail| <= maxPages && SearchTrail(server, cancelled, trail)
      invariant cursor == SearchCursor(trail, |trail|)
      invariant trail != [] ==> SearchSignal(trail[|trail| - 1]) == More
      invariant collected == Issues(trail) && |collected| < maxItems
    {
      if cancelled(|trail|) {
        return ContextError, trail;
      }
      var res := server(|trail|, cursor);
      if res.ServerError? {
        return FetchError, trail;
      }
      var page := res.page;
      SearchTrailGrows(server, cancelled, trail, page);
      IssuesAppend(trail, page);
      ghost var before := Issues(trail);
      trail := trail + [page];
      var read;
      collected, read := ReadItems(page.issues, maxItems, collected);
      assert collected == before + page.issues[..read];
      if |collected| >= maxItems {
        return Collected(collected, !page.isLast || page.nextPageToken != "" || read < |page.issues|), trail;
      }
      assert collected == Issues(trail);
      if page.isLast {
        return Collected(collected, page.nextPageToken != ""), trail;
      }
      cursor := page.nextPageToken;
    }
    r := Collected(collected, true);
  }

  // ---------------------------------------------------------------- GitHub: pull requests

  type Time = int

  /** A zero UpdatedAt, from a field that is absent or does not parse, is None. */
  datatype PullRequest = PullRequest(number: nat, title: string, reviewers: seq<string>, updatedAt: Option<Time>)

  datatype PullsPage = PullsPage(pulls: seq<PullRequest>, nextPage: int)

  /** `fold` maps a login to its simple case folding: strings.EqualFold compares these. */
  ghost predicate Stale(pr: PullRequest, reviewer: string, threshold: Time, fold: string -> string) {
    pr.updatedAt.Some? && pr.updatedAt.value < threshold && Requested(pr.reviewers, reviewer, fold)
  }

  ghost predicate Requested(reviewers: seq<string>, reviewer: string, fold: string -> string) {
    exists i :: 0 <= i < |reviewers| && fold(reviewers[i]) == fold(reviewer)
  }

  ghost function StaleFilter(reviewer: string, threshold: Time, fold: string -> string): PullRequest -> bool {
    (pr: PullRequest) => Stale(pr, reviewer, threshold, fold)
  }

  method MatchesStaleFilter(pr: PullRequest, reviewer: string, threshold: Time, fold: string -> string)
    returns (matches: bool)
    ensures matches == Stale(pr, reviewer, threshold, fold)
    ensures matches <==>
      && pr.updatedAt.Some? && pr.updatedAt.value < threshold
      && exists i :: 0 <= i < |pr.reviewers| && fold(pr.reviewers[i]) == fold(reviewer)
  {
    if pr.updatedAt.None? {
      return false;
    }
    if !(pr.updatedAt.value < threshold) {
      return false;
    }
    for i := 0 to |pr.reviewers|
      invariant forall j :: 0 <= j < i ==> fold(pr.reviewers[j]) != fold(reviewer)
    {
      if fold(pr.reviewers[i]) == fold(reviewer) {
        return true;
      }
    }
    return false;
  }

  function PullsSignal(p: PullsPage): Signal {
    if p.nextPage == 0 then Clean else More
  }

  function Pulls(trail: seq<PullsPage>): seq<PullRequest> {
    if trail == [] then [] else Pulls(trail[..|trail| - 1]) + trail[|trail| - 1].pulls
  }

  /** The page number of the call after `k` pages; GitHub counts from 1. */
  function PullsCursor(trail: seq<PullsPage>, k: nat): int
    requires k <= |trail|
  {
    if k == 0 then 1 else trail[k - 1].nextPage
  }

  ghost predicate PullsTrail(server: (nat, int) -> Response<PullsPage>, cancelled: nat -> bool, trail: seq<PullsPage>) {
    forall k: nat :: k < |trail| ==> PullsCall(server, cancelled, trail, k)
  }

  predicate PullsCall(server: (nat, int) -> Response<PullsPage>, cancelled: nat -> bool, trail: seq<PullsPage>, k: nat)
    requires k < |trail|
  {
    && !cancelled(k) && server(k, PullsCursor(trail, k)) == Page(trail[k])
    && (k < |trail| - 1 ==> PullsSignal(trail[k]) == More)
  }

  ghost predicate PullsAnswer(
    server: (nat, int) -> Response<PullsPage>, cancelled: nat -> bool, keep: PullRequest -> bool,
    maxItems: nat, maxPages: nat, r: Scan<PullRequest>, trail: seq<PullsPage>, examined: nat)
  {
    && PullsTrail(server, cancelled, trail)
    && match r
       case Collected(items, truncated) =>
         PullsHonest(trail, keep, maxItems, maxPages, items, truncated, examined)
       case ContextError => PullsWantsMore(trail, keep, maxItems, maxPages) && cancelled(|trail|)
       case FetchError =>
         PullsWantsMore(trail, keep, maxItems, maxPages) && !cancelled(|trail|)
         && server(|trail|, PullsCursor(trail, |trail|)) == ServerError
  }

  ghost predicate PullsHonest(
    trail: seq<PullsPage>, keep: PullRequest -> bool, maxItems: nat, maxPages: nat,
    items: seq<PullRequest>, truncated: bool, examined: nat)
  {
    && Honest(|trail|, if trail == [] then 0 else |Pulls(trail[..|trail| - 1])|, |Pulls(trail)|,
              if trail == [] then More else PullsSignal(trail[|trail| - 1]), examined, |items|, truncated,
              maxItems, maxPages)
    && items == Filter(Pulls(trail)[..examined], keep)
  }

  /** A scan that ends on page `p`, at the cap or because the page is the last. */
  lemma PullsEnd(
    done: seq<PullsPage>, p: PullsPage, keep: PullRequest -> bool, maxItems: nat, maxPages: nat,
    items: seq<PullRequest>, read: nat)
    requires |done| < maxPages && read <= |p.pulls| && |items| <= maxItems
    requires items == Filter(Pulls(done) + p.pulls[..read], keep)
    requires |items| < maxItems ==> read == |p.pulls| && PullsSignal(p) == Clean
    ensures PullsHonest(done + [p], keep, maxItems, maxPages, items, PullsSignal(p) == More || read < |p.pulls|,
                        |Pulls(done)| + read)
  {
    PullsAppend(done, p);
    PrefixOfConcat(Pulls(done), p.pulls, read);
  }

  /** A page read to its end. */
  lemma PullsRead(done: seq<PullsPage>, p: PullsPage)
    ensures Pulls(done + [p]) == Pulls(done) + p.pulls == Pulls(done) + p.pulls[..|p.pulls|]
  {
    PullsAppend(done, p);
    PrefixOfConcat(Pulls(done), p.pulls, |p.pulls|);
  }

  ghost predicate PullsWantsMore(trail: seq<PullsPage>, keep: PullRequest -> bool, maxItems: nat, maxPages: nat) {
    |trail| < maxPages && |Filter(Pulls(trail), keep)| < maxItems
    && (trail != [] ==> PullsSignal(trail[|trail| - 1]) == More)
  }

  lemma PullsAppend(trail: seq<PullsPage>, p: PullsPage)
    ensures Pulls(trail + [p]) == Pulls(trail) + p.pulls && (trail + [p])[..|trail|] == trail
  {
    assert (trail + [p])[..|trail|] == trail;
  }

  lemma PullsTrailGrows(
    server: (nat, int) -> Response<PullsPage>, cancelled: nat -> bool, trail: seq<PullsPage>, p: PullsPage)
    requires PullsTrail(server, cancelled, trail) && (trail != [] ==> PullsSignal(trail[|trail| - 1]) == More)
    requires !cancelled(|trail|) && server(|trail|, PullsCursor(trail, |trail|)) == Page(p)
    ensures PullsTrail(server, cancelled, trail + [p])
  {
    forall k: nat | k < |trail + [p]|
      ensures PullsCall(server, cancelled, trail + [p], k)
    {
      assert k < |trail| ==> PullsCall(server, cancelled, trail, k);
    }
  }

  /** The loop over one page: it stops right after the item that fills the cap. */
  method ReadPulls(
    pulls: seq<PullRequest>, reviewer: string, threshold: Time, fold: string -> string, maxItems: nat,
    room: seq<PullRequest>, ghost before: seq<PullRequest>, ghost keep: PullRequest -> bool)
    returns (collected: seq<PullRequest>, read: nat)
    requires keep == StaleFilter(reviewer, threshold, fold)
    requires |room| < maxItems && room == Filter(before, keep)
    ensures read <= |pulls| && |collected| <= maxItems && (|collected| < maxItems ==> read == |pulls|)
    ensures collected == Filter(before + pulls[..read], keep)
  {
    collected, read := room, 0;
    assert before + pulls[..0] == before;
    while read < |pulls|
      invariant read <= |pulls| && |collected| < maxItems
      invariant collected == Filter(before + pulls[..read], keep)
    {
      var pr := pulls[read];
      var matches := MatchesStaleFilter(pr, reviewer, threshold, fold);
      assert before + pulls[..read + 1] == before + pulls[..read] + [pr];
      FilterAppend(before + pulls[..read], pr, keep);
      read := read + 1;
      if !matches {
        continue;
      }
      collected := collected + [pr];
      if |collected| >= maxItems {
        return;
      }
    }
  }

  lemma PrefixOfConcat<T>(before: seq<T>, page: seq<T>, read: nat)
    requires read <= |page|
    ensures (before + page)[..|before| + read] == before + page[..read]
    ensures read == |page| ==> before + page[..read] == before + page
  {
  }

  /** Whatever the flag says, the pull requests returned are a prefix of the stale ones fetched; "not truncated" means
      that the last page was the last and that every stale one fetched was returned. */
  lemma PullsFlag(
    server: (nat, int) -> Response<PullsPage>, cancelled: nat -> bool, keep: PullRequest -> bool,
    maxItems: nat, maxPages: nat, r: Scan<PullRequest>, trail: seq<PullsPage>, examined: nat)
    requires PullsAnswer(server, cancelled, keep, maxItems, maxPages, r, trail, examined) && r.Collected?
    ensures r.items <= Filter(Pulls(trail), keep) && |r.items| <= maxItems && |trail| <= maxPages
    ensures !r.truncated <==> trail != [] && trail[|trail| - 1].nextPage == 0 && examined == |Pulls(trail)|
    ensures examined <= |Pulls(trail)| && r.items == Filter(Pulls(trail)[..examined], keep)
    ensures !r.truncated ==> r.items == Filter(Pulls(trail), keep) && forall pr :: pr in Pulls(trail) && keep(pr) ==> pr in r.items
    ensures r.truncated ==> |r.items| == maxItems || |trail| == maxPages
  {
    FlagIsExact(Pulls(trail), keep, r.items, |trail|, if trail == [] then 0 else |Pulls(trail[..|trail| - 1])|,
                if trail == [] then More else PullsSignal(trail[|trail| - 1]), examined, r.truncated, maxItems, maxPages);
  }

  /** What a scan asked: page 1 first, then the page that the one before it named; it never asked after a cancel. */
  lemma PullsCalls(
    server: (nat, int) -> Response<PullsPage>, cancelled: nat -> bool, keep: PullRequest -> bool,
    maxItems: nat, maxPages: nat, r: Scan<PullRequest>, trail: seq<PullsPage>, examined: nat, k: nat)
    requires PullsAnswer(server, cancelled, keep, maxItems, maxPages, r, trail, examined)
    ensures k < |trail| ==> !cancelled(k) && server(k, if k == 0 then 1 else trail[k - 1].nextPage) == Page(trail[k])
    ensures 0 < k < |trail| ==> trail[k - 1].nextPage != 0
    ensures !r.Collected? ==> |trail| < maxPages && |Filter(Pulls(trail), keep)| < maxItems && (cancelled(|trail|) <==> r.ContextError?)
    ensures r.FetchError? ==>
      server(|trail|, if trail == [] then 1 else trail[|trail| - 1].nextPage) == ServerError
  {
    if 0 < k < |trail| { assert PullsCall(server, cancelled, trail, k - 1); }
    if k < |trail| { assert PullsCall(server, cancelled, trail, k); }
  }

  /** What a scan that was not cut short returns: the pull requests fetched that were last updated before the threshold
      and await the reviewer, all of them and nothing else, however they are cased. */
  lemma ReturnedAreTheStale(
    server: (nat, int) -> Response<PullsPage>, cancelled: nat -> bool, reviewer: string, threshold: Time,
    fold: string -> string, maxItems: nat, maxPages: nat, r: Scan<PullRequest>, trail: seq<PullsPage>, examined: nat,
    pr: PullRequest)
    requires PullsAnswer(server, cancelled, StaleFilter(reviewer, threshold, fold), maxItems, maxPages, r, trail, examined)
    requires r.Collected?
    ensures var stale :=
        && pr in Pulls(trail) && pr.updatedAt.Some? && pr.updatedAt.value < threshold
        && exists i :: 0 <= i < |pr.reviewers| && fold(pr.reviewers[i]) == fold(reviewer);
      && (pr in r.items ==> stale)
      && (!r.truncated ==> (pr in r.items <==> stale))
  {
    var keep := StaleFilter(reviewer, threshold, fold);
    PullsFlag(server, cancelled, keep, maxItems, maxPages, r, trail, examined);
    if pr in r.items {
      FilterHolds(Pulls(trail)[..examined], keep, pr);
      assert pr in Pulls(trail);
    }
  }

  lemma {:induction false} FilterHolds<T>(s: seq<T>, keep: T -> bool, x: T)
    requires x in Filter(s, keep)
    ensures x in s && keep(x)
  {
    var n := |s| - 1;
    if x in Filter(s[..n], keep) { FilterHolds(s[..n], keep, x); }
  }

  /** A scan under way: everything on the pages of its trail has been examined, and it may go on. */
  ghost predicate PullsOpen(
    server: (nat, int) -> Response<PullsPage>, cancelled: nat -> bool, keep: PullRequest -> bool, maxItems: nat,
    trail: seq<PullsPage>, collected: seq<PullRequest>, examined: nat)
  {
    && PullsTrail(server, cancelled, trail) && (trail != [] ==> PullsSignal(trail[|trail| - 1]) == More)
    && collected == Filter(Pulls(trail), keep) && |collected| < maxItems && examined == |Pulls(trail)|
  }

  lemma PullsStaysOpen(
    server: (nat, int) -> Response<PullsPage>, cancelled: nat -> bool, keep: PullRequest -> bool, maxItems: nat,
    trail: seq<PullsPage>, collected: seq<PullRequest>, p: PullsPage, more: seq<PullRequest>)
    requires PullsOpen(server, cancelled, keep, maxItems, trail, collected, |Pulls(trail)|)
    requires !cancelled(|trail|) && server(|trail|, PullsCursor(trail, |trail|)) == Page(p)
    requires more == Filter(Pulls(trail) + p.pulls[..|p.pulls|], keep) && |more| < maxItems && PullsSignal(p) == More
    ensures PullsOpen(server, cancelled, keep, maxItems, trail + [p], more, |Pulls(trail)| + |p.pulls|)
  {
    PullsTrailGrows(server, cancelled, trail, p);
    PullsRead(trail, p);
  }

  lemma PullsStops(
    server: (nat, int) -> Response<PullsPage>, cancelled: nat -> bool, keep: PullRequest -> bool, maxItems: nat,
    maxPages: nat, trail: seq<PullsPage>, collected: seq<PullRequest>, p: PullsPage, items: seq<PullRequest>, read: nat,
    examined: nat, truncated: bool)
    requires PullsOpen(server, cancelled, keep, maxItems, trail, collected, examined) && |trail| < maxPages
    requires !cancelled(|trail|) && server(|trail|, PullsCursor(trail, |trail|)) == Page(p)
    requires read <= |p.pulls| && |items| <= maxItems && items == Filter(Pulls(trail) + p.pulls[..read], keep)
    requires |items| < maxItems ==> read == |p.pulls| && p.nextPage == 0
    requires truncated <==> p.nextPage != 0 || read < |p.pulls|
    ensures PullsAnswer(server, cancelled, keep, maxItems, maxPages, Collected(items, truncated), trail + [p], examined + read)
  {
    PullsTrailGrows(server, cancelled, trail, p);
    PullsEnd(trail, p, keep, maxItems, maxPages, items, read);
  }

  /** A scan that ends because it may not ask for another page. */
  lemma PullsCapped(
    server: (nat, int) -> Response<PullsPage>, cancelled: nat -> bool, keep: PullRequest -> bool, maxItems: nat,
    maxPages: nat, trail: seq<PullsPage>, collected: seq<PullRequest>, examined: nat)
    requires PullsOpen(server, cancelled, keep, maxItems, trail, collected, examined) && |trail| == maxPages
    ensures PullsAnswer(server, cancelled, keep, maxItems, maxPages, Collected(collected, true), trail, examined)
  {
    assert Pulls(trail)[..|Pulls(trail)|] == Pulls(trail);
    if trail != [] { assert Pulls(trail) == Pulls(trail[..|trail| - 1]) + trail[|trail| - 1].pulls; }
  }

  /** A scan whose next call is cancelled or fails. */
  lemma PullsFails(
    server: (nat, int) -> Response<PullsPage>, cancelled: nat -> bool, keep: PullRequest -> bool, maxItems: nat,
    maxPages: nat, trail: seq<PullsPage>, collected: seq<PullRequest>, examined: nat)
    requires PullsOpen(server, cancelled, keep, maxItems, trail, collected, examined) && |trail| < maxPages
    ensures cancelled(|trail|) ==> PullsAnswer(server, cancelled, keep, maxItems, maxPages, ContextError, trail, examined)
    ensures !cancelled(|trail|) && server(|trail|, PullsCursor(trail, |trail|)) == ServerError ==>
      PullsAnswer(server, cancelled, keep, maxItems, maxPages, FetchError, trail, examined)
  {
  }

  method PaginateStalePRs(
    server: (nat, int) -> Response<PullsPage>, cancelled: nat -> bool,
    reviewer: string, threshold: Time, fold: string -> string, maxItems: nat, maxPages: nat)
    returns (r: Scan<PullRequest>, trail: seq<PullsPage>, examined: nat)
    requires maxItems > 0
    ensures PullsAnswer(server, cancelled, StaleFilter(reviewer, threshold, fold), maxItems, maxPages, r, trail, examined)
  {
    ghost var keep := StaleFilter(reviewer, threshold, fold);
    var collected: seq<PullRequest> := [];
    var page := 1;
    trail, examined := [], 0;
    while |trail| < maxPages
      invariant |trail| <= maxPages && page == PullsCursor(trail, |trail|)
      invariant PullsOpen(server, cancelled, keep, maxItems, trail, collected, examined)
    {
      PullsFails(server, cancelled, keep, maxItems, maxPages, trail, collected, examined);
      if cancelled(|trail|) {
        return ContextError, trail, examined;
      }
      var res := server(|trail|, page);
      if res.ServerError? {
        return FetchError, trail, examined;
      }
      ghost var done, room, seen := trail, collected, examined;
      trail := trail + [res.page];
      var read;
      collected, read := ReadPulls(res.page.pulls, reviewer, threshold, fold, maxItems, collected, Pulls(done), keep);
      examined := examined + read;
      if |collected| >= maxItems {
        var truncated := res.page.nextPage != 0 || read < |res.page.pulls|;
        PullsStops(server, cancelled, keep, maxItems, maxPages, done, room, res.page, collected, read, seen, truncated);
        return Collected(collected, truncated), trail, examined;
      }
      if res.page.nextPage == 0 {
        PullsStops(server, cancelled, keep, maxItems, maxPages, done, room, res.page, collected, read, seen, false);
        return Collected(collected, false), trail, examined;
      }
      PullsStaysOpen(server, cancelled, keep, maxItems, done, room, res.page, collected);
      page := res.page.nextPage;
    }
    PullsCapped(server, cancelled, keep, maxItems, maxPages, trail, collected, examined);
    return Collected(collected, true), trail, examined;
  }
}
