/**
 * The npm side of the stats chart: the persisted month ledger of download
 * counts, the calendar periods it is queried and windowed by, the split of
 * a maintainer's packages into scoped and unscoped names, the summing of
 * per-package counts into the current month, and the decision taken on
 * each answer of the download-point endpoint (including HTTP 429).
 */
module Npm {
  import opened Wrappers
  import opened Calendar
  import opened Decimal

  /** Milliseconds paused after each 2xx answer, and added to each usable `Retry-After` wait. */
  const MinRequestInterval: int := 2000

  // ---------------------------------------------------------------------
  // The download ledger
  // ---------------------------------------------------------------------

  /** The persisted `yyyy-MM -> count` ledger (`history.json`). */
  type Ledger = map<YearMonth, int>

  /** `{ ...history, ...recent }`: fresh values win, every other key is kept. */
  function MergeLedger(history: Ledger, recent: Ledger): (updated: Ledger)
    ensures updated.Keys == history.Keys + recent.Keys
    ensures forall k :: k in recent ==> updated[k] == recent[k]
    ensures forall k :: k in history && k !in recent ==> updated[k] == history[k]
  {
    history + recent
  }

  /** Merging the same fresh values twice leaves the ledger as merging them once. */
  lemma MergeIdempotent(history: Ledger, recent: Ledger)
    ensures MergeLedger(MergeLedger(history, recent), recent) == MergeLedger(history, recent)
  {
  }

  /** `updatedHistory[date] ?? 0`. */
  function CountOrZero(ledger: Ledger, key: YearMonth): (n: int)
    ensures key !in ledger ==> n == 0
    ensures key in ledger ==> n == ledger[key]
  {
    if key in ledger then ledger[key] else 0
  }

  // ---------------------------------------------------------------------
  // Periods
  // ---------------------------------------------------------------------

  /** A query period: its `yyyy-MM` key and its `yyyy-MM-dd` bounds. */
  datatype Period = Period(date: YearMonth, start: Date, end: Date)

  /** The current month to date: from day 1 of the month of `now` to `now`. */
  function CurrentMonthPeriod(now: Date): (p: Period)
    requires ValidDate(now)
    ensures ValidDate(p.start) && p.start.day == 1 && MonthOf(p.start) == MonthOf(now)
    ensures p.date == MonthOf(now) && p.end == now && DateAtMost(p.start, p.end)
  {
    var start := FirstDay(MonthOf(now));
    Period(MonthOf(start), start, now)
  }

  /** A period that covers the whole of month `ym`, from its first to its last day. */
  predicate IsFullMonth(p: Period, ym: YearMonth)
    requires ValidMonth(ym)
  {
    p.date == ym && p.start == FirstDay(ym) && p.end == LastDay(ym)
  }

  /**
   * The current month to date followed by the twelve previous calendar
   * months, most recent first.
   */
  method LastYearPeriods(now: Date) returns (periods: seq<Period>)
    requires ValidDate(now)
    ensures |periods| == 13
    ensures periods[0] == CurrentMonthPeriod(now)
    ensures forall i :: 1 <= i < 13 ==> IsFullMonth(periods[i], MonthsBefore(MonthOf(now), i))
  {
    periods := [CurrentMonthPeriod(now)];
    var end := now;
    var start := FirstDay(MonthOf(now));
    for i := 1 to 13
      invariant |periods| == i
      invariant periods[0] == CurrentMonthPeriod(now)
      invariant start == FirstDay(MonthsBefore(MonthOf(now), i - 1))
      invariant forall j :: 1 <= j < i ==> IsFullMonth(periods[j], MonthsBefore(MonthOf(now), j))
    {
      MonthsBeforeStep(MonthOf(now), i - 1);
      start := SubMonths(start, 1);
      end := LastDay(MonthOf(start));
      periods := periods + [Period(MonthOf(start), start, end)];
    }
  }

  function Reversed<T>(s: seq<T>): (r: seq<T>)
    ensures |r| == |s|
    ensures forall i :: 0 <= i < |s| ==> r[i] == s[|s| - 1 - i]
  {
    if s == [] then [] else Reversed(s[1..]) + [s[0]]
  }

  /**
   * Reversing the periods of `LastYearPeriods` lists the thirteen months
   * oldest first, ending with the month of `now`, in strictly increasing order.
   */
  lemma OldestFirstDates(periods: seq<Period>, now: Date)
    requires ValidDate(now)
    requires |periods| == 13 && periods[0] == CurrentMonthPeriod(now)
    requires forall i :: 1 <= i < 13 ==> IsFullMonth(periods[i], MonthsBefore(MonthOf(now), i))
    ensures forall i :: 0 <= i < 13 ==> Reversed(periods)[i].date == MonthsBefore(MonthOf(now), 12 - i)
    ensures Reversed(periods)[12].date == MonthOf(now)
    ensures forall i, j :: 0 <= i < j < 13 ==> MonthBefore(Reversed(periods)[i].date, Reversed(periods)[j].date)
  {
    var r := Reversed(periods);
    MonthIndexInjective(MonthsBefore(MonthOf(now), 0), MonthOf(now));
    forall i | 0 <= i < 13
      ensures r[i].date == MonthsBefore(MonthOf(now), 12 - i)
    {
      var k := 12 - i;
      assert r[i] == periods[k];
      if k != 0 {
        assert IsFullMonth(periods[k], MonthsBefore(MonthOf(now), k));
      }
    }
  }

  // ---------------------------------------------------------------------
  // Persisting and windowing
  // ---------------------------------------------------------------------

  /** `{ all, total }`: the windowed series, oldest month first, and its sum. */
  datatype YearDownloads = YearDownloads(all: seq<MonthlyCount>, total: int)

  /**
   * Merges the fresh counts into the ledger read from disk, returns the
   * ledger to write back, and projects it onto the thirteen months ending
   * with the month of `now`, oldest first, a missing month counting 0.
   */
  method PersistRecentDownloads(history: Ledger, recent: Ledger, now: Date)
    returns (updated: Ledger, year: YearDownloads)
    requires ValidDate(now)
    ensures updated == MergeLedger(history, recent)
    ensures |year.all| == 13
    ensures forall i :: 0 <= i < 13 ==> year.all[i].date == MonthsBefore(MonthOf(now), 12 - i)
    ensures year.all[12].date == MonthOf(now)
    ensures forall i, j :: 0 <= i < j < 13 ==> MonthBefore(year.all[i].date, year.all[j].date)
    ensures forall i :: 0 <= i < 13 ==> year.all[i].count == CountOrZero(updated, year.all[i].date)
    ensures year.total == SumCounts(year.all)
  {
    updated := MergeLedger(history, recent);
    var periods := LastYearPeriods(now);
    OldestFirstDates(periods, now);
    year := WindowDownloads(updated, Reversed(periods));
  }

  /** The loop of `PersistRecentDownloads`: one count per period, in order, and their running sum. */
  method WindowDownloads(ledger: Ledger, periods: seq<Period>) returns (year: YearDownloads)
    ensures |year.all| == |periods|
    ensures forall i :: 0 <= i < |periods| ==> year.all[i] == MonthlyCount(CountOrZero(ledger, periods[i].date), periods[i].date)
    ensures year.total == SumCounts(year.all)
  {
    var all: seq<MonthlyCount> := [];
    var total := 0;
    for i := 0 to |periods|
      invariant |all| == i
      invariant forall j :: 0 <= j < i ==> all[j] == MonthlyCount(CountOrZero(ledger, periods[j].date), periods[j].date)
      invariant total == SumCounts(all)
    {
      var date := periods[i].date;
      var monthlyDownloads := CountOrZero(ledger, date);
      assert (all + [MonthlyCount(monthlyDownloads, date)])[..i] == all;
      all := all + [MonthlyCount(monthlyDownloads, date)];
      total := total + monthlyDownloads;
    }
    year := YearDownloads(all, total);
  }

  // ---------------------------------------------------------------------
  // Packages
  // ---------------------------------------------------------------------

  /** A scoped package name (`@scope/name`). */
  predicate IsScoped(name: string) {
    |name| > 0 && name[0] == '@'
  }

  /** The scoped names of `names`, in their order. */
  function ScopedNames(names: seq<string>): seq<string> {
    if names == [] then []
    else ScopedNames(names[..|names| - 1]) + (if IsScoped(names[|names| - 1]) then [names[|names| - 1]] else [])
  }

  /** The unscoped names of `names`, in their order. */
  function UnscopedNames(names: seq<string>): seq<string> {
    if names == [] then []
    else UnscopedNames(names[..|names| - 1]) + (if IsScoped(names[|names| - 1]) then [] else [names[|names| - 1]])
  }

  /** Splits the names of a maintainer's search results into unscoped and scoped lists. */
  method PartitionPackages(names: seq<string>) returns (pkgs: seq<string>, scopedPkgs: seq<string>)
    ensures pkgs == UnscopedNames(names)
    ensures scopedPkgs == ScopedNames(names)
  {
    pkgs, scopedPkgs := [], [];
    for i := 0 to |names|
      invariant pkgs == UnscopedNames(names[..i])
      invariant scopedPkgs == ScopedNames(names[..i])
    {
      var name := names[i];
      assert names[..i + 1][..i] == names[..i];
      if IsScoped(name) {
        scopedPkgs := scopedPkgs + [name];
      } else {
        pkgs := pkgs + [name];
      }
    }
    assert names[..|names|] == names;
  }

  /** Every name lands in the right list. */
  lemma {:induction false} PartitionIsExact(names: seq<string>)
    ensures forall x :: x in ScopedNames(names) ==> IsScoped(x)
    ensures forall x :: x in UnscopedNames(names) ==> !IsScoped(x)
    ensures forall x :: x in names <==> x in ScopedNames(names) || x in UnscopedNames(names)
  {
    if names != [] {
      var front := names[..|names| - 1];
      var last := names[|names| - 1];
      PartitionIsExact(front);
      assert names == front + [last];
      assert ScopedNames(names) == ScopedNames(front) + (if IsScoped(last) then [last] else []);
      assert UnscopedNames(names) == UnscopedNames(front) + (if IsScoped(last) then [] else [last]);
    }
  }

  /** Every name lands in exactly one list: together the lists are a permutation of the input. */
  lemma {:induction false} PartitionIsPermutation(names: seq<string>)
    ensures multiset(ScopedNames(names)) + multiset(UnscopedNames(names)) == multiset(names)
  {
    if names != [] {
      var front := names[..|names| - 1];
      var last := names[|names| - 1];
      PartitionIsPermutation(front);
      assert names == front + [last];
      assert ScopedNames(names) == ScopedNames(front) + (if IsScoped(last) then [last] else []);
      assert UnscopedNames(names) == UnscopedNames(front) + (if IsScoped(last) then [] else [last]);
    }
  }

  /** Both lists keep the input order: splitting a concatenation splits each part. */
  lemma {:induction false} PartitionPreservesOrder(a: seq<string>, b: seq<string>)
    ensures ScopedNames(a + b) == ScopedNames(a) + ScopedNames(b)
    ensures UnscopedNames(a + b) == UnscopedNames(a) + UnscopedNames(b)
    decreases |b|
  {
    if b == [] {
      assert a + b == a;
    } else {
      var front := b[..|b| - 1];
      var last := b[|b| - 1];
      PartitionPreservesOrder(a, front);
      assert (a + b)[..|a + b| - 1] == a + front;
      assert (a + b)[|a + b| - 1] == last;
      assert ScopedNames(a + b) == ScopedNames(a + front) + (if IsScoped(last) then [last] else []);
      assert ScopedNames(b) == ScopedNames(front) + (if IsScoped(last) then [last] else []);
      assert UnscopedNames(a + b) == UnscopedNames(a + front) + (if IsScoped(last) then [] else [last]);
      assert UnscopedNames(b) == UnscopedNames(front) + (if IsScoped(last) then [] else [last]);
    }
  }

  // ---------------------------------------------------------------------
  // Download-point answers
  // ---------------------------------------------------------------------

  /** The `downloads` field of each package entry of an answer (`None`: null, or no such field). */
  type PointRecord = map<string, Option<int>>

  /** An answer body: one point object, or an object of point entries keyed by package name. */
  datatype PointBody = Point(downloads: Option<int>) | Bulk(entries: PointRecord)

  /** A one-package answer is keyed under that package's name; other answers are taken as they are. */
  function Unwrap(pkgs: seq<string>, body: PointBody): (r: PointRecord)
    ensures |pkgs| == 1 ==> r.Keys == {pkgs[0]}
    ensures |pkgs| == 1 && body.Point? ==> r[pkgs[0]] == body.downloads
    ensures |pkgs| != 1 && body.Bulk? ==> r == body.entries
  {
    if |pkgs| == 1 then map[pkgs[0] := if body.Point? then body.downloads else None]
    else if body.Bulk? then body.entries else map[]
  }

  /** `json[pkg]?.downloads || 0`. */
  function PackageDownloads(json: PointRecord, pkg: string): (n: int)
    ensures pkg !in json || json[pkg].None? ==> n == 0
    ensures pkg in json && json[pkg].Some? ==> n == json[pkg].value
  {
    if pkg in json && json[pkg].Some? then json[pkg].value else 0
  }

  lemma UnwrapOnePackage(pkg: string, body: PointBody)
    ensures Unwrap([pkg], body).Keys == {pkg}
    ensures PackageDownloads(Unwrap([pkg], body), pkg) == if body.Point? && body.downloads.Some? then body.downloads.value else 0
  {
  }

  lemma UnwrapManyPackages(pkgs: seq<string>, entries: PointRecord, pkg: string)
    requires |pkgs| != 1
    ensures PackageDownloads(Unwrap(pkgs, Bulk(entries)), pkg) == PackageDownloads(entries, pkg)
  {
  }

  datatype Response = Response(status: int, retryAfter: Option<string>, body: PointBody)

  datatype FetchError = RateLimitedWithoutRetryAfter | HttpError(status: int)

  /** What is done with one answer: return its body, wait and ask again, or throw. */
  datatype Decision = Accept(body: PointBody) | Wait(delayMs: int) | Throw(error: FetchError)

  /** `retryAfter ? parseInt(retryAfter, 10) * 1000 : undefined`, kept only when truthy. */
  function RetryAfterMs(header: Option<string>): (ms: Option<int>)
    ensures ms.Some? <==> header.Some? && ParseInt(header.value).Some? && ParseInt(header.value).value != 0
    ensures ms.Some? ==> ms.value == ParseInt(header.value).value * 1000
  {
    if header.None? || header.value == "" then None
    else match ParseInt(header.value)
      case None => None
      case Some(seconds) => if seconds == 0 then None else Some(seconds * 1000)
  }

  function Decide(response: Response): (d: Decision)
    ensures d.Accept? <==> 200 <= response.status < 300
    ensures d.Accept? ==> d.body == response.body
    ensures d.Wait? <==> response.status == 429 && RetryAfterMs(response.retryAfter).Some?
    ensures d.Wait? ==> d.delayMs == RetryAfterMs(response.retryAfter).value + MinRequestInterval
    ensures d.Throw? && response.status == 429 ==> d.error == RateLimitedWithoutRetryAfter
    ensures d.Throw? && response.status != 429 ==> d.error == HttpError(response.status)
  {
    if response.status == 429 then
      match RetryAfterMs(response.retryAfter)
      case None => Throw(RateLimitedWithoutRetryAfter)
      case Some(ms) => Wait(ms + MinRequestInterval)
    else if !(200 <= response.status < 300) then Throw(HttpError(response.status))
    else Accept(response.body)
  }

  /** A `Retry-After` of `n` seconds waits `n * 1000 + 2000` ms, unless `n` is 0, which throws. */
  lemma RetryAfterSeconds(n: int, body: PointBody)
    ensures Decide(Response(429, Some(IntToString(n)), body))
         == if n == 0 then Throw(RateLimitedWithoutRetryAfter) else Wait(n * 1000 + MinRequestInterval)
  {
    ParseIntOfNumeral(n);
  }

  /** A missing or non-numeric `Retry-After` throws. */
  lemma RetryAfterUnusable(header: Option<string>, body: PointBody)
    requires header.None? || ParseInt(header.value).None?
    ensures Decide(Response(429, header, body)) == Throw(RateLimitedWithoutRetryAfter)
  {
  }

  /** What the retry recursion ends in, with the waits it made on the way. */
  datatype FetchOutcome =
    | Fetched(json: PointRecord, delays: seq<int>)
    | Failed(error: FetchError, delays: seq<int>)
    | StillWaiting(delays: seq<int>)

  /**
   * Issues the same request for `pkgs` again and again while the answers
   * (`responses`, in the order the endpoint gives them) are 429s with a
   * usable `Retry-After`; there is no retry cap, so running out of
   * answers leaves the recursion still waiting.
   */
  function FetchPackagesDownloads(pkgs: seq<string>, responses: seq<Response>): (r: FetchOutcome)
    ensures |r.delays| <= |responses|
    ensures r.StillWaiting? <==> |r.delays| == |responses|
    decreases |responses|
  {
    if responses == [] then StillWaiting([])
    else match Decide(responses[0])
      case Accept(body) => Fetched(Unwrap(pkgs, body), [])
      case Throw(e) => Failed(e, [])
      case Wait(ms) =>
        var rest := FetchPackagesDownloads(pkgs, responses[1..]);
        rest.(delays := [ms] + rest.delays)
  }

  /** Every wait the recursion made is the one the answer at that position asked for. */
  lemma {:induction false} FetchWaitAt(pkgs: seq<string>, responses: seq<Response>, i: int)
    requires 0 <= i < |FetchPackagesDownloads(pkgs, responses).delays|
    ensures Decide(responses[i]) == Wait(FetchPackagesDownloads(pkgs, responses).delays[i])
    decreases i
  {
    var r := FetchPackagesDownloads(pkgs, responses);
    match Decide(responses[0])
    case Wait(ms) =>
      var tail := responses[1..];
      var rest := FetchPackagesDownloads(pkgs, tail);
      assert r.delays == [ms] + rest.delays;
      if i > 0 {
        FetchWaitAt(pkgs, tail, i - 1);
        assert responses[i] == tail[i - 1];
      }
  }

  /**
   * The answer after the last wait is the one that ended the recursion:
   * accepted and unwrapped, or thrown.
   */
  lemma {:induction false} FetchEndsOn(pkgs: seq<string>, responses: seq<Response>)
    ensures var r := FetchPackagesDownloads(pkgs, responses);
      && (r.Fetched? ==> |r.delays| < |responses| && Decide(responses[|r.delays|]).Accept? &&
                         r.json == Unwrap(pkgs, responses[|r.delays|].body))
      && (r.Failed? ==> |r.delays| < |responses| && Decide(responses[|r.delays|]) == Throw(r.error))
    decreases |responses|
  {
    if responses != [] {
      match Decide(responses[0])
      case Accept(body) =>
      case Throw(e) =>
      case Wait(ms) =>
        var tail := responses[1..];
        var rest := FetchPackagesDownloads(pkgs, tail);
        FetchEndsOn(pkgs, tail);
        var r := FetchPackagesDownloads(pkgs, responses);
        assert r == rest.(delays := [ms] + rest.delays);
        if !rest.StillWaiting? {
          assert responses[|r.delays|] == tail[|rest.delays|];
        }
    }
  }

  // ---------------------------------------------------------------------
  // Current-month total
  // ---------------------------------------------------------------------

  /** The sum of `PackageDownloads` over `pkgs` in one answer. */
  function BulkDownloads(json: PointRecord, pkgs: seq<string>): int {
    if pkgs == [] then 0 else BulkDownloads(json, pkgs[..|pkgs| - 1]) + PackageDownloads(json, pkgs[|pkgs| - 1])
  }

  /** The sum of `PackageDownloads` over `pkgs`, each read from its own answer. */
  function ScopedDownloads(reply: string -> Result<PointRecord, FetchError>, pkgs: seq<string>): int {
    if pkgs == [] then 0
    else
      var pkg := pkgs[|pkgs| - 1];
      ScopedDownloads(reply, pkgs[..|pkgs| - 1]) + (if reply(pkg).Success? then PackageDownloads(reply(pkg).value, pkg) else 0)
  }

  /**
   * Sums the current-month downloads of every package under the single
   * key of the current month: unscoped names from one batched answer
   * (`bulk`), scoped names each from its own answer (`scopedReply`).
   * The first failing answer is thrown.
   */
  method FetchRecentPackagesDownloads(pkgs: seq<string>, scopedPkgs: seq<string>, now: Date,
                                      bulk: Result<PointRecord, FetchError>,
                                      scopedReply: string -> Result<PointRecord, FetchError>)
    returns (r: Result<Ledger, FetchError>)
    requires ValidDate(now)
    ensures bulk.Failure? ==> r == Failure(bulk.error)
    ensures r.Success? ==> bulk.Success? && forall i :: 0 <= i < |scopedPkgs| ==> scopedReply(scopedPkgs[i]).Success?
    ensures bulk.Success? && (forall i :: 0 <= i < |scopedPkgs| ==> scopedReply(scopedPkgs[i]).Success?) ==>
      r == Success(if |pkgs| + |scopedPkgs| == 0 then map[]
                   else map[MonthOf(now) := BulkDownloads(bulk.value, pkgs) + ScopedDownloads(scopedReply, scopedPkgs)])
    ensures bulk.Success? && r.Failure? ==>
      exists i :: 0 <= i < |scopedPkgs| && scopedReply(scopedPkgs[i]) == Failure(r.error) &&
                  forall j :: 0 <= j < i ==> scopedReply(scopedPkgs[j]).Success?
  {
    var downloads: Ledger := map[];
    var date := CurrentMonthPeriod(now).date;
    if bulk.Failure? {
      return Failure(bulk.error);
    }
    var json := bulk.value;
    for i := 0 to |pkgs|
      invariant downloads == if i == 0 then map[] else map[date := BulkDownloads(json, pkgs[..i])]
    {
      var pkg := pkgs[i];
      var dls := PackageDownloads(json, pkg);
      assert pkgs[..i + 1][..i] == pkgs[..i];
      if date in downloads && downloads[date] != 0 {
        downloads := downloads[date := downloads[date] + dls];
      } else {
        downloads := downloads[date := dls];
      }
    }
    assert pkgs[..|pkgs|] == pkgs;
    var bulkTotal := BulkDownloads(json, pkgs);
    for i := 0 to |scopedPkgs|
      invariant forall j :: 0 <= j < i ==> scopedReply(scopedPkgs[j]).Success?
      invariant downloads == if |pkgs| + i == 0 then map[]
                             else map[date := bulkTotal + ScopedDownloads(scopedReply, scopedPkgs[..i])]
    {
      var pkg := scopedPkgs[i];
      var reply := scopedReply(pkg);
      if reply.Failure? {
        return Failure(reply.error);
      }
      var dls := PackageDownloads(reply.value, pkg);
      assert scopedPkgs[..i + 1][..i] == scopedPkgs[..i];
      if date in downloads && downloads[date] != 0 {
        downloads := downloads[date := downloads[date] + dls];
      } else {
        downloads := downloads[date := dls];
      }
    }
    assert scopedPkgs[..|scopedPkgs|] == scopedPkgs;
    return Success(downloads);
  }
}
