/** The bookkeeping of one bounded site crawl under an adversarial callback scheduler.
    URLs are fragment-free and not redirected, so a request's URL is its key in every map. */
module SiteCrawl {
  import opened Counting

  type Url = string
  type RequestId = nat

  /** A request is in flight until its outcome is counted: the counters are bumped after the lock is released. */
  datatype Phase = Requested | Merged | Errored

  datatype Request = Request(url: Url, phase: Phase)

  /** requests is history: how often each URL was let through. */
  datatype Book = Book(
    visited: set<Url>,
    pendingRetry: set<Url>,
    attempts: map<Url, nat>,
    pages: nat,
    failed: nat,
    inFlight: map<RequestId, Request>,
    requests: map<Url, nat>)

  const MAX_ATTEMPTS := 3

  predicate RetryableStatus(code: int) {
    code == 429 || code == 500 || code == 502 || code == 503 || code == 504
  }

  function At(m: map<Url, nat>, u: Url): nat {
    if u in m then m[u] else 0
  }

  // ---- callbacks on values ----

  /** OnRequest: halted or off-site requests, repeats and requests over the page cap are aborted. */
  predicate Admits(b: Book, maxPages: nat, url: Url, halted: bool) {
    !halted && url !in b.visited && b.pages + b.failed < maxPages
  }

  function Requesting(b: Book, maxPages: nat, id: RequestId, url: Url, halted: bool): Book {
    if !Admits(b, maxPages, url, halted) then b
    else b.(visited := b.visited + {url}, pendingRetry := b.pendingRetry - {url},
            inFlight := b.inFlight[id := Request(url, Requested)],
            requests := b.requests[url := At(b.requests, url) + 1])
  }

  function Responding(b: Book, id: RequestId): Book
    requires id in b.inFlight
  {
    b.(inFlight := b.inFlight[id := b.inFlight[id].(phase := Merged)])
  }

  function CountingPage(b: Book, id: RequestId): Book {
    b.(inFlight := b.inFlight - {id}, pages := b.pages + 1)
  }

  function Erring(b: Book, id: RequestId, code: int): Book
    requires id in b.inFlight
  {
    var u := b.inFlight[id].url;
    var n := At(b.attempts, u) + 1;
    if n <= MAX_ATTEMPTS && RetryableStatus(code)
    then b.(attempts := b.attempts[u := n], visited := b.visited - {u}, pendingRetry := b.pendingRetry + {u},
            inFlight := b.inFlight - {id})
    else b.(attempts := b.attempts[u := n], inFlight := b.inFlight[id := b.inFlight[id].(phase := Errored)])
  }

  function CountingFailure(b: Book, id: RequestId): Book {
    b.(inFlight := b.inFlight - {id}, failed := b.failed + 1)
  }

  function EndingRound(b: Book): Book { b.(pendingRetry := {}) }

  const EMPTY := Book({}, {}, map[], 0, 0, map[], map[])

  // ---- the callbacks in place ----

  class Site {
    var visited: set<Url>
    var pendingRetry: set<Url>
    var attempts: map<Url, nat>
    var pages: nat
    var failed: nat
    var inFlight: map<RequestId, Request>
    var requests: map<Url, nat>
    const maxPages: nat

    function Now(): Book
      reads this
    {
      Book(visited, pendingRetry, attempts, pages, failed, inFlight, requests)
    }

    constructor (maxPages: int)
      ensures Now() == EMPTY
      ensures this.maxPages == if maxPages <= 0 then 10 else maxPages
    {
      this.maxPages := if maxPages <= 0 then 10 else maxPages;
      visited, pendingRetry, attempts, pages, failed := {}, {}, map[], 0, 0;
      inFlight, requests := map[], map[];
    }

    method OnRequest(id: RequestId, url: Url, halted: bool) returns (aborted: bool)
      requires id !in inFlight
      modifies this
      ensures Now() == Requesting(old(Now()), maxPages, id, url, halted)
      ensures aborted <==> halted || url in old(visited) || old(pages) + old(failed) >= maxPages
      ensures aborted ==> Now() == old(Now())
      ensures !aborted ==> visited == old(visited) + {url} && pendingRetry == old(pendingRetry) - {url}
    {
      if halted { return true; }
      if url in visited || pages + failed >= maxPages { return true; }
      visited := visited + {url};
      pendingRetry := pendingRetry - {url};
      inFlight := inFlight[id := Request(url, Requested)];
      requests := requests[url := At(requests, url) + 1];
      return false;
    }

    method OnResponse(id: RequestId)
      requires id in inFlight && inFlight[id].phase == Requested
      modifies this
      ensures Now() == Responding(old(Now()), id)
    {
      inFlight := inFlight[id := inFlight[id].(phase := Merged)];
    }

    method CountPage(id: RequestId)
      requires id in inFlight && inFlight[id].phase == Merged
      modifies this
      ensures Now() == CountingPage(old(Now()), id)
    {
      inFlight := inFlight - {id};
      pages := pages + 1;
    }

    method OnError(id: RequestId, code: int)
      requires id in inFlight && inFlight[id].phase == Requested
      modifies this
      ensures Now() == Erring(old(Now()), id, code)
      ensures var u := old(inFlight[id].url);
        var again := old(At(attempts, u)) < 3 && code in {429, 500, 502, 503, 504};
        && At(attempts, u) == old(At(attempts, u)) + 1 && pages == old(pages) && failed == old(failed)
        && visited == (if again then old(visited) - {u} else old(visited))
        && pendingRetry == (if again then old(pendingRetry) + {u} else old(pendingRetry))
        && if again then id !in inFlight else InPhase(Now(), id, Errored)
    {
      var u := inFlight[id].url;
      attempts := attempts[u := At(attempts, u) + 1];
      var n := attempts[u];
      if n <= MAX_ATTEMPTS && RetryableStatus(code) {
        visited := visited - {u};
        pendingRetry := pendingRetry + {u};
        inFlight := inFlight - {id};
        return;
      }
      inFlight := inFlight[id := inFlight[id].(phase := Errored)];
    }

    method CountFailure(id: RequestId)
      requires id in inFlight && inFlight[id].phase == Errored
      modifies this
      ensures Now() == CountingFailure(old(Now()), id)
    {
      inFlight := inFlight - {id};
      failed := failed + 1;
    }

    /** The URLs the next round visits. */
    method EndRound() returns (pending: set<Url>)
      modifies this
      ensures Now() == EndingRound(old(Now())) && pending == old(pendingRetry) && pendingRetry == {}
    {
      pending := pendingRetry;
      pendingRetry := {};
    }
  }

  // ---- every schedule ----

  datatype Event =
    | Request_(id: RequestId, url: Url, halted: bool)
    | Response(id: RequestId)
    | PageCounted(id: RequestId)
    | Error(id: RequestId, code: int)
    | FailureCounted(id: RequestId)
    | RoundEnds

  predicate InPhase(b: Book, id: RequestId, p: Phase) {
    id in b.inFlight && b.inFlight[id].phase == p
  }

  /** width bounds how many requests the scheduler keeps open at once. */
  predicate Enabled(b: Book, width: nat, e: Event) {
    match e
    case Request_(id, _, _) => id !in b.inFlight && |b.inFlight| < width
    case Response(id) => InPhase(b, id, Requested)
    case PageCounted(id) => InPhase(b, id, Merged)
    case Error(id, _) => InPhase(b, id, Requested)
    case FailureCounted(id) => InPhase(b, id, Errored)
    case RoundEnds => true
  }

  function Step(b: Book, maxPages: nat, width: nat, e: Event): Book
    requires Enabled(b, width, e)
  {
    match e
    case Request_(id, url, halted) => Requesting(b, maxPages, id, url, halted)
    case Response(id) => Responding(b, id)
    case PageCounted(id) => CountingPage(b, id)
    case Error(id, code) => Erring(b, id, code)
    case FailureCounted(id) => CountingFailure(b, id)
    case RoundEnds => EndingRound(b)
  }

  function Play(maxPages: nat, width: nat, schedule: seq<Event>): Option<Book> {
    if schedule == [] then Some(EMPTY)
    else
      var before := Play(maxPages, width, schedule[..|schedule| - 1]);
      var e := schedule[|schedule| - 1];
      if before.Some? && Enabled(before.value, width, e) then Some(Step(before.value, maxPages, width, e)) else None
  }

  function AttemptCap(n: nat): nat { if n <= MAX_ATTEMPTS then n else MAX_ATTEMPTS }

  /** At most one request per URL is open, and open requests are visited. */
  predicate OneEach(b: Book) {
    && (forall i :: i in b.inFlight ==> b.inFlight[i].url in b.visited)
    && forall i, j :: i in b.inFlight && j in b.inFlight && i != j ==> b.inFlight[i].url != b.inFlight[j].url
  }

  predicate Accounted(b: Book) {
    && b.visited !! b.pendingRetry
    && |b.visited| == b.pages + b.failed + |b.inFlight|
  }

  predicate Retried(b: Book) {
    && (forall u :: u in b.requests ==> At(b.requests, u) <= AttemptCap(At(b.attempts, u)) + Bit(u in b.visited))
    && (forall u :: u in b.visited ==> u in b.requests)
  }

  predicate Bounded(b: Book, maxPages: nat, width: nat) {
    b.pages + b.failed + |b.inFlight| < maxPages + width && |b.inFlight| <= width
  }

  lemma OpenOne(m: map<RequestId, Request>, id: RequestId, r: Request)
    ensures id !in m ==> |m[id := r]| == |m| + 1
    ensures id in m ==> |m[id := r]| == |m| && |m - {id}| == |m| - 1
  {
    assert m[id := r].Keys == m.Keys + {id};
    assert (m - {id}).Keys == m.Keys - {id};
  }

  predicate Ok(b: Book, maxPages: nat, width: nat) {
    OneEach(b) && Accounted(b) && Retried(b) && Bounded(b, maxPages, width)
  }

  lemma RequestKeepsOk(b: Book, maxPages: nat, width: nat, id: RequestId, url: Url, halted: bool)
    requires Ok(b, maxPages, width) && id !in b.inFlight && |b.inFlight| < width
    ensures Ok(Requesting(b, maxPages, id, url, halted), maxPages, width)
  {
    OpenOne(b.inFlight, id, Request(url, Requested));
  }

  /** A retried request gives its URL back. */
  lemma RetryKeepsOk(b: Book, maxPages: nat, width: nat, id: RequestId, code: int)
    requires Ok(b, maxPages, width) && InPhase(b, id, Requested)
    requires At(b.attempts, b.inFlight[id].url) < MAX_ATTEMPTS && RetryableStatus(code)
    ensures Ok(Erring(b, id, code), maxPages, width)
  {
    var u := b.inFlight[id].url;
    OpenOne(b.inFlight, id, b.inFlight[id]);
    assert |b.visited - {u}| == |b.visited| - 1;
    assert u in b.requests;
  }

  /** A failed request keeps it for good. */
  lemma FailKeepsOk(b: Book, maxPages: nat, width: nat, id: RequestId, code: int)
    requires Ok(b, maxPages, width) && InPhase(b, id, Requested)
    requires !(At(b.attempts, b.inFlight[id].url) < MAX_ATTEMPTS && RetryableStatus(code))
    ensures Ok(Erring(b, id, code), maxPages, width)
  {
    OpenOne(b.inFlight, id, b.inFlight[id].(phase := Errored));
  }

  lemma StepKeepsOk(b: Book, maxPages: nat, width: nat, e: Event)
    requires Ok(b, maxPages, width) && Enabled(b, width, e)
    ensures Ok(Step(b, maxPages, width, e), maxPages, width)
  {
    match e
    case Request_(id, url, halted) => RequestKeepsOk(b, maxPages, width, id, url, halted);
    case Response(id) => OpenOne(b.inFlight, id, b.inFlight[id].(phase := Merged));
    case PageCounted(id) => OpenOne(b.inFlight, id, b.inFlight[id]);
    case Error(id, code) =>
      if At(b.attempts, b.inFlight[id].url) < MAX_ATTEMPTS && RetryableStatus(code) {
        RetryKeepsOk(b, maxPages, width, id, code);
      } else {
        FailKeepsOk(b, maxPages, width, id, code);
      }
    case FailureCounted(id) => OpenOne(b.inFlight, id, b.inFlight[id]);
    case RoundEnds =>
  }

  lemma {:induction false} PlayKeepsOk(maxPages: nat, width: nat, schedule: seq<Event>)
    requires maxPages > 0 && Play(maxPages, width, schedule).Some?
    ensures Ok(Play(maxPages, width, schedule).value, maxPages, width)
  {
    if schedule != [] {
      PlayKeepsOk(maxPages, width, schedule[..|schedule| - 1]);
      StepKeepsOk(Play(maxPages, width, schedule[..|schedule| - 1]).value, maxPages, width, schedule[|schedule| - 1]);
    }
  }

  /** Visited and waiting URLs never overlap, every visited URL is accounted for, and no URL is open twice
      or let through more than four times. */
  lemma CrawlIsAccounted(maxPages: nat, width: nat, schedule: seq<Event>)
    requires maxPages > 0 && Play(maxPages, width, schedule).Some?
    ensures var b := Play(maxPages, width, schedule).value;
      && b.visited !! b.pendingRetry
      && |b.visited| == b.pages + b.failed + |b.inFlight|
      && (forall i, j :: i in b.inFlight && j in b.inFlight && b.inFlight[i].url == b.inFlight[j].url ==> i == j)
      && (forall u :: u in b.requests ==> b.requests[u] <= 4)
  {
    PlayKeepsOk(maxPages, width, schedule);
    var b := Play(maxPages, width, schedule).value;
    forall u | u in b.requests ensures b.requests[u] <= 4 { assert At(b.requests, u) == b.requests[u]; }
  }

  /** The page cap is soft: it ignores open requests, so it is overshot by less than their number. */
  lemma CrawlIsBounded(maxPages: nat, width: nat, schedule: seq<Event>)
    requires maxPages > 0 && Play(maxPages, width, schedule).Some?
    ensures var b := Play(maxPages, width, schedule).value; b.pages + b.failed <= maxPages - 1 + width
  {
    PlayKeepsOk(maxPages, width, schedule);
  }

  lemma PlayAppend(maxPages: nat, width: nat, schedule: seq<Event>, e: Event)
    requires Play(maxPages, width, schedule).Some? && Enabled(Play(maxPages, width, schedule).value, width, e)
    ensures Play(maxPages, width, schedule + [e]) ==
      Some(Step(Play(maxPages, width, schedule).value, maxPages, width, e))
  {
    assert (schedule + [e])[..|schedule|] == schedule;
  }

  /** Every request finds the crawl halted. */
  predicate AllHalted(events: seq<Event>) {
    forall i :: 0 <= i < |events| ==> (events[i].Request_? ==> events[i].halted)
  }

  /** A halted crawl only finishes what is open: whatever is asked for from then on, nothing more is let through. */
  lemma {:induction false} HaltedCrawlDrains(maxPages: nat, width: nat, before: seq<Event>, rest: seq<Event>)
    requires Play(maxPages, width, before + rest).Some? && AllHalted(rest)
    ensures Play(maxPages, width, before).Some?
    ensures var b, b' := Play(maxPages, width, before).value, Play(maxPages, width, before + rest).value;
      b'.requests == b.requests && b'.inFlight.Keys <= b.inFlight.Keys
  {
    if rest == [] {
      assert before + rest == before;
    } else {
      assert (before + rest)[..|before + rest| - 1] == before + rest[..|rest| - 1];
      HaltedCrawlDrains(maxPages, width, before, rest[..|rest| - 1]);
    }
  }

  // ---- retries are made ----

  /** Nothing is open or counted, and the URL is free after `n` retryable errors. */
  predicate Free(b: Book, url: Url, n: nat) {
    && b.inFlight == map[] && b.pages == 0 && b.failed == 0
    && url !in b.visited && At(b.attempts, url) == n && At(b.requests, url) == n
  }

  ghost predicate FreeAfter(maxPages: nat, width: nat, schedule: seq<Event>, url: Url, n: nat) {
    Play(maxPages, width, schedule).Some? && Free(Play(maxPages, width, schedule).value, url, n)
  }

  /** The URL is asked for once more, and answered with an error. */
  function Try(url: Url, code: int): seq<Event> { [Request_(0, url, false), Error(0, code)] }

  lemma TryPlays(maxPages: nat, width: nat, before: seq<Event>, url: Url, n: nat, code: int)
    requires maxPages >= 1 && width >= 1 && FreeAfter(maxPages, width, before, url, n)
    ensures var b := Play(maxPages, width, before).value;
      var asked := Requesting(b, maxPages, 0, url, false);
      InPhase(asked, 0, Requested) && asked.inFlight == map[0 := Request(url, Requested)] &&
      At(asked.requests, url) == n + 1 && url in asked.visited && At(asked.attempts, url) == n &&
      Play(maxPages, width, before + Try(url, code)) == Some(Erring(asked, 0, code))
  {
    PlayAppend(maxPages, width, before, Request_(0, url, false));
    PlayAppend(maxPages, width, before + [Request_(0, url, false)], Error(0, code));
    assert before + Try(url, code) == before + [Request_(0, url, false)] + [Error(0, code)];
  }

  lemma {:induction false} FreedAgain(maxPages: nat, width: nat, url: Url, code: int, n: nat)
    returns (schedule: seq<Event>)
    requires maxPages >= 1 && width >= 1 && RetryableStatus(code) && n <= 3
    ensures FreeAfter(maxPages, width, schedule, url, n)
  {
    if n == 0 {
      schedule := [];
    } else {
      var before := FreedAgain(maxPages, width, url, code, n - 1);
      TryPlays(maxPages, width, before, url, n - 1, code);
      schedule := before + Try(url, code);
    }
  }

  /** A URL that keeps failing with a retryable error is let through four times, and then counts as one failure. */
  lemma RetriesAreUsedUp(maxPages: nat, width: nat, url: Url, code: int) returns (schedule: seq<Event>)
    requires maxPages >= 1 && width >= 1 && RetryableStatus(code)
    ensures Play(maxPages, width, schedule).Some?
    ensures var b := Play(maxPages, width, schedule).value;
      At(b.requests, url) == 4 && b.failed == 1 && b.pages == 0 && url in b.visited && b.inFlight == map[]
  {
    var before := FreedAgain(maxPages, width, url, code, 3);
    TryPlays(maxPages, width, before, url, 3, code);
    PlayAppend(maxPages, width, before + Try(url, code), FailureCounted(0));
    schedule := before + Try(url, code) + [FailureCounted(0)];
  }

  // ---- the bound is attained ----

  /** Pairwise different URLs, told apart by their length. */
  function UrlOf(n: nat): Url { seq(n, i => 'a') }

  /** k pages fetched, requests `lo` to `hi` open in the given phase, and no URL seen that is longer than those. */
  ghost predicate Shape(b: Book, k: nat, lo: nat, hi: nat, p: Phase) {
    && lo <= hi && b.pages == k && b.failed == 0 && |b.inFlight| == hi - lo
    && (forall id: nat :: id in b.inFlight <==> lo <= id < hi)
    && (forall id :: id in b.inFlight ==> b.inFlight[id].phase == p)
    && (forall u :: u in b.visited ==> |u| < hi)
  }

  lemma Opens(b: Book, maxPages: nat, k: nat, lo: nat, hi: nat)
    requires Shape(b, k, lo, hi, Requested) && k < maxPages
    ensures Shape(Requesting(b, maxPages, hi, UrlOf(hi), false), k, lo, hi + 1, Requested)
  {
    assert |UrlOf(hi)| == hi;
    OpenOne(b.inFlight, hi, Request(UrlOf(hi), Requested));
  }

  /** The shape of the crawl after a schedule. */
  ghost predicate Shaped(maxPages: nat, width: nat, schedule: seq<Event>, k: nat, lo: nat, hi: nat) {
    Play(maxPages, width, schedule).Some? && Shape(Play(maxPages, width, schedule).value, k, lo, hi, Requested)
  }

  /** One more request while the page count stays below the cap. */
  lemma OpensNext(maxPages: nat, width: nat, before: seq<Event>, k: nat, lo: nat, hi: nat)
    returns (schedule: seq<Event>)
    requires Shaped(maxPages, width, before, k, lo, hi) && hi - lo < width && k < maxPages
    ensures Shaped(maxPages, width, schedule, k, lo, hi + 1)
  {
    Opens(Play(maxPages, width, before).value, maxPages, k, lo, hi);
    PlayAppend(maxPages, width, before, Request_(hi, UrlOf(hi), false));
    schedule := before + [Request_(hi, UrlOf(hi), false)];
  }

  lemma {:induction false} OpensAll(maxPages: nat, width: nat, before: seq<Event>, k: nat, lo: nat, n: nat)
    returns (schedule: seq<Event>)
    requires Shaped(maxPages, width, before, k, lo, lo) && n <= width && k < maxPages
    ensures Shaped(maxPages, width, schedule, k, lo, lo + n)
    decreases n
  {
    if n == 0 {
      schedule := before;
    } else {
      schedule := OpensAll(maxPages, width, before, k, lo, n - 1);
      schedule := OpensNext(maxPages, width, schedule, k, lo, lo + n - 1);
    }
  }

  lemma Closes(b: Book, k: nat, lo: nat, hi: nat)
    requires Shape(b, k, lo, hi, Requested) && lo < hi
    ensures Shape(CountingPage(Responding(b, lo), lo), k + 1, lo + 1, hi, Requested)
  {
    OpenOne(b.inFlight, lo, b.inFlight[lo].(phase := Merged));
    var merged := Responding(b, lo).inFlight;
    OpenOne(merged, lo, merged[lo]);
  }

  /** The oldest open request becomes a page. */
  lemma ClosesNext(maxPages: nat, width: nat, before: seq<Event>, k: nat, lo: nat, hi: nat)
    returns (schedule: seq<Event>)
    requires Shaped(maxPages, width, before, k, lo, hi) && lo < hi
    ensures Shaped(maxPages, width, schedule, k + 1, lo + 1, hi)
  {
    PlayAppend(maxPages, width, before, Response(lo));
    PlayAppend(maxPages, width, before + [Response(lo)], PageCounted(lo));
    Closes(Play(maxPages, width, before).value, k, lo, hi);
    schedule := before + [Response(lo)] + [PageCounted(lo)];
  }

  lemma {:induction false} ClosesAll(maxPages: nat, width: nat, before: seq<Event>, k: nat, lo: nat, hi: nat)
    returns (schedule: seq<Event>)
    requires lo <= hi && Shaped(maxPages, width, before, k, lo, hi)
    ensures Shaped(maxPages, width, schedule, k + hi - lo, hi, hi)
    decreases hi - lo
  {
    if lo == hi {
      schedule := before;
    } else {
      schedule := ClosesNext(maxPages, width, before, k, lo, hi);
      schedule := ClosesAll(maxPages, width, schedule, k + 1, lo + 1, hi);
    }
  }

  /** One page after the other. */
  lemma {:induction false} Fetches(maxPages: nat, width: nat, k: nat) returns (schedule: seq<Event>)
    requires width >= 1 && k < maxPages
    ensures Shaped(maxPages, width, schedule, k, k, k)
  {
    schedule := [];
    if k > 0 {
      schedule := Fetches(maxPages, width, k - 1);
      schedule := OpensAll(maxPages, width, schedule, k - 1, k - 1, 1);
      schedule := ClosesAll(maxPages, width, schedule, k - 1, k - 1, k);
    }
  }

  /** The overshoot happens, whatever the cap and the width: just below the cap `width` requests are let through and
      all become pages. */
  lemma CapIsOvershot(maxPages: nat, width: nat) returns (schedule: seq<Event>)
    requires maxPages >= 1 && width >= 1
    ensures Play(maxPages, width, schedule).Some?
    ensures Play(maxPages, width, schedule).value.pages == maxPages - 1 + width
    ensures Play(maxPages, width, schedule).value.failed == 0
  {
    schedule := Fetches(maxPages, width, maxPages - 1);
    schedule := OpensAll(maxPages, width, schedule, maxPages - 1, maxPages - 1, width);
    schedule := ClosesAll(maxPages, width, schedule, maxPages - 1, maxPages - 1, maxPages - 1 + width);
  }

  ghost predicate WithinCap(maxPages: nat, width: nat, schedule: seq<Event>) {
    Play(maxPages, width, schedule).Some? ==>
      Play(maxPages, width, schedule).value.pages + Play(maxPages, width, schedule).value.failed <= maxPages
  }

  /** The page cap holds of every schedule exactly when requests are not open at the same time. */
  lemma CapHoldsExactly(maxPages: nat, width: nat)
    requires maxPages >= 1
    ensures (forall schedule :: WithinCap(maxPages, width, schedule)) <==> width <= 1
  {
    if width <= 1 {
      forall schedule ensures WithinCap(maxPages, width, schedule) {
        if Play(maxPages, width, schedule).Some? { CrawlIsBounded(maxPages, width, schedule); }
      }
    } else {
      var schedule := CapIsOvershot(maxPages, width);
      assert !WithinCap(maxPages, width, schedule);
    }
  }
}
