/**
 * The GitHub side of the stats chart: the two adjacent date ranges the
 * contribution calendar is fetched for, the in-place merge of the two
 * fetched calendars (older weeks first, totals added), and the grouping
 * of the calendar's days into one entry per run of same-month days.
 */
module GitHub {
  import opened Calendar

  datatype ContributionDay = ContributionDay(contributionCount: int, date: Date)

  datatype ContributionWeek = ContributionWeek(contributionDays: seq<ContributionDay>)

  /** The `contributionCalendar` object of one fetched range. */
  class ContributionCalendar {
    var weeks: seq<ContributionWeek>
    var totalContributions: int

    constructor (weeks: seq<ContributionWeek>, totalContributions: int)
      ensures this.weeks == weeks && this.totalContributions == totalContributions
    {
      this.weeks := weeks;
      this.totalContributions := totalContributions;
    }
  }

  /** `{ contributions, totalContributions }`. */
  datatype GitHubStats = GitHubStats(contributions: seq<MonthlyCount>, totalContributions: int)

  /** A query range `[from, to]`. */
  datatype Range = Range(from: Instant, to: Instant)

  // ---------------------------------------------------------------------
  // Days and their grouping by month
  // ---------------------------------------------------------------------

  /** The days of the calendar, week after week. */
  function Days(weeks: seq<ContributionWeek>): seq<ContributionDay> {
    if weeks == [] then [] else Days(weeks[..|weeks| - 1]) + weeks[|weeks| - 1].contributionDays
  }

  lemma {:induction false} DaysConcat(a: seq<ContributionWeek>, b: seq<ContributionWeek>)
    ensures Days(a + b) == Days(a) + Days(b)
    decreases |b|
  {
    if b == [] {
      assert a + b == a;
    } else {
      var front := b[..|b| - 1];
      var last := b[|b| - 1];
      DaysConcat(a, front);
      assert (a + b)[..|a + b| - 1] == a + front;
      assert (a + b)[|a + b| - 1] == last;
      assert Days(a + b) == Days(a + front) + last.contributionDays;
      assert Days(b) == Days(front) + last.contributionDays;
    }
  }

  /** The sum of the day counts. */
  function SumDays(days: seq<ContributionDay>): int {
    if days == [] then 0 else SumDays(days[..|days| - 1]) + days[|days| - 1].contributionCount
  }

  /** The month a day is counted under (its `yyyy-MM`). */
  function MonthKey(day: ContributionDay): YearMonth {
    MonthOf(day.date)
  }

  /** One step of the loop: start a new entry at a month change, otherwise add to the last one. */
  function Step(g: seq<MonthlyCount>, day: ContributionDay): (r: seq<MonthlyCount>)
    ensures |g| <= |r| <= |g| + 1 && r != []
  {
    if g == [] || g[|g| - 1].date != MonthKey(day) then g + [MonthlyCount(day.contributionCount, MonthKey(day))]
    else g[..|g| - 1] + [MonthlyCount(g[|g| - 1].count + day.contributionCount, g[|g| - 1].date)]
  }

  /** The entries after running the loop over `days`, starting from the entries `acc`. */
  function GroupOnto(acc: seq<MonthlyCount>, days: seq<ContributionDay>): (r: seq<MonthlyCount>)
    ensures |acc| <= |r| <= |acc| + |days|
    ensures days != [] ==> r != []
    decreases |days|
  {
    if days == [] then acc else Step(GroupOnto(acc, days[..|days| - 1]), days[|days| - 1])
  }

  /** The contribution series of a list of days: at most one entry per day, and none only for no days. */
  function GroupByMonth(days: seq<ContributionDay>): (r: seq<MonthlyCount>)
    ensures |r| <= |days|
    ensures r == [] <==> days == []
  {
    GroupOnto([], days)
  }

  /** The number of adjacent pairs of days that lie in different months. */
  function MonthChanges(days: seq<ContributionDay>): nat {
    if |days| <= 1 then 0
    else MonthChanges(days[..|days| - 1]) + (if MonthKey(days[|days| - 2]) != MonthKey(days[|days| - 1]) then 1 else 0)
  }

  /** Days in chronological order. */
  predicate Chronological(days: seq<ContributionDay>) {
    (forall i :: 0 <= i < |days| ==> ValidDate(days[i].date)) &&
    (forall i :: 0 < i < |days| ==> DateAtMost(days[i - 1].date, days[i].date))
  }

  /** Grouping keeps the sum: the entry counts add up to the day counts. */
  lemma {:induction false} GroupSum(days: seq<ContributionDay>)
    ensures SumCounts(GroupByMonth(days)) == SumDays(days)
    decreases |days|
  {
    if days != [] {
      var front := days[..|days| - 1];
      var day := days[|days| - 1];
      var g := GroupByMonth(front);
      GroupSum(front);
      if g == [] || g[|g| - 1].date != MonthKey(day) {
        assert (g + [MonthlyCount(day.contributionCount, MonthKey(day))])[..|g|] == g;
      } else {
        var last := g[|g| - 1];
        var h := g[..|g| - 1] + [MonthlyCount(last.count + day.contributionCount, last.date)];
        assert h[..|h| - 1] == g[..|g| - 1];
        assert SumCounts(g) == SumCounts(g[..|g| - 1]) + last.count;
      }
    }
  }

  /**
   * Adjacent entries never share a month, the last entry is the month of
   * the last day, and there is one entry more than there are month changes.
   */
  lemma {:induction false} GroupShape(days: seq<ContributionDay>)
    ensures var g := GroupByMonth(days);
      && |g| == (if days == [] then 0 else 1 + MonthChanges(days))
      && (days != [] ==> g[|g| - 1].date == MonthKey(days[|days| - 1]))
      && (forall i :: 0 < i < |g| ==> g[i - 1].date != g[i].date)
    decreases |days|
  {
    if days != [] {
      var front := days[..|days| - 1];
      GroupShape(front);
      if |days| > 1 {
        assert front[|front| - 1] == days[|days| - 2];
      }
    }
  }

  /** On chronologically ordered days the entries are strictly ascending by month. */
  lemma {:induction false} GroupAscending(days: seq<ContributionDay>)
    requires Chronological(days)
    ensures var g := GroupByMonth(days);
      forall i, j :: 0 <= i < j < |g| ==> MonthBefore(g[i].date, g[j].date)
    decreases |days|
  {
    if days != [] {
      var front := days[..|days| - 1];
      var day := days[|days| - 1];
      assert Chronological(front);
      GroupAscending(front);
      GroupShape(front);
      GroupShape(days);
      var g := GroupByMonth(front);
      if g != [] {
        DateAtMostMonth(front[|front| - 1].date, day.date);
        assert MonthIndex(g[|g| - 1].date) <= MonthIndex(MonthKey(day));
      }
    }
  }

  /** Days of a single month give a single entry holding their sum. */
  lemma {:induction false} GroupOneMonth(days: seq<ContributionDay>, month: YearMonth)
    requires days != []
    requires forall i :: 0 <= i < |days| ==> MonthKey(days[i]) == month
    ensures GroupByMonth(days) == [MonthlyCount(SumDays(days), month)]
    decreases |days|
  {
    var front := days[..|days| - 1];
    assert GroupByMonth(days) == Step(GroupByMonth(front), days[|days| - 1]);
    if |days| > 1 {
      GroupOneMonth(front, month);
    } else {
      assert front == [];
    }
  }

  /** Running the loop over `a + b` is running it over `a` and then over `b`. */
  lemma {:induction false} GroupOntoConcat(acc: seq<MonthlyCount>, a: seq<ContributionDay>, b: seq<ContributionDay>)
    ensures GroupOnto(acc, a + b) == GroupOnto(GroupOnto(acc, a), b)
    decreases |b|
  {
    if b == [] {
      assert a + b == a;
    } else {
      GroupOntoConcat(acc, a, b[..|b| - 1]);
      assert (a + b)[..|a + b| - 1] == a + b[..|b| - 1];
    }
  }

  /** `acc` followed by `h`, the two boundary entries joined when they are for the same month. */
  function Join(acc: seq<MonthlyCount>, h: seq<MonthlyCount>): seq<MonthlyCount>
    requires acc != [] && h != []
  {
    var last := acc[|acc| - 1];
    if last.date == h[0].date then acc[..|acc| - 1] + [MonthlyCount(last.count + h[0].count, h[0].date)] + h[1..]
    else acc + h
  }

  lemma StepJoinNewMonth(acc: seq<MonthlyCount>, h: seq<MonthlyCount>, day: ContributionDay)
    requires acc != [] && h != [] && h[|h| - 1].date != MonthKey(day)
    ensures Step(Join(acc, h), day) == Join(acc, Step(h, day))
  {
    var e := MonthlyCount(day.contributionCount, MonthKey(day));
    var j := Join(acc, h);
    assert j[|j| - 1].date == h[|h| - 1].date;
    assert (h + [e])[0] == h[0] && (h + [e])[1..] == h[1..] + [e];
  }

  lemma StepJoinSameMonth(acc: seq<MonthlyCount>, h: seq<MonthlyCount>, day: ContributionDay)
    requires acc != [] && h != [] && h[|h| - 1].date == MonthKey(day)
    ensures Step(Join(acc, h), day) == Join(acc, Step(h, day))
  {
    var last := acc[|acc| - 1];
    var m := |h|;
    var upd := MonthlyCount(h[m - 1].count + day.contributionCount, h[m - 1].date);
    var h' := h[..m - 1] + [upd];
    assert Step(h, day) == h';
    var j := Join(acc, h);
    if m > 1 {
      assert j[|j| - 1] == h[m - 1];
      assert h'[0] == h[0] && h'[1..] == h[1..m - 1] + [upd];
      if last.date == h[0].date {
        assert j[..|j| - 1] == acc[..|acc| - 1] + [MonthlyCount(last.count + h[0].count, h[0].date)] + h[1..m - 1];
      } else {
        assert j[..|j| - 1] == acc + h[..m - 1];
      }
    } else if last.date == h[0].date {
      assert j == acc[..|acc| - 1] + [MonthlyCount(last.count + h[0].count, h[0].date)];
    } else {
      assert j == acc + [h[0]];
    }
  }

  /**
   * Continuing the loop over `b` from non-empty entries `acc` gives `acc`
   * followed by the series of `b`, joining the two boundary entries when
   * they are for the same month.
   */
  lemma {:induction false} GroupOntoNonEmpty(acc: seq<MonthlyCount>, b: seq<ContributionDay>)
    requires acc != [] && b != []
    ensures GroupByMonth(b) != [] && GroupOnto(acc, b) == Join(acc, GroupByMonth(b))
    decreases |b|
  {
    var front := b[..|b| - 1];
    var day := b[|b| - 1];
    assert GroupOnto(acc, b) == Step(GroupOnto(acc, front), day);
    assert GroupByMonth(b) == Step(GroupOnto([], front), day);
    if |b| == 1 {
      assert front == [];
    } else {
      GroupOntoNonEmpty(acc, front);
      var h := GroupByMonth(front);
      if h[|h| - 1].date != MonthKey(day) {
        StepJoinNewMonth(acc, h, day);
      } else {
        StepJoinSameMonth(acc, h, day);
      }
    }
  }

  /**
   * Grouping two adjacent lists of days at once: when no month spans the
   * split (the last day of `a` and the first of `b` are in different
   * months) the series is the two series one after the other; when one
   * does, its two partial entries are joined into one holding their sum.
   */
  lemma GroupConcat(a: seq<ContributionDay>, b: seq<ContributionDay>)
    requires a != [] && b != []
    ensures GroupByMonth(a) != [] && GroupByMonth(b) != []
    ensures GroupByMonth(a)[|GroupByMonth(a)| - 1].date == MonthKey(a[|a| - 1])
    ensures GroupByMonth(b)[0].date == MonthKey(b[0])
    ensures GroupByMonth(a + b) == Join(GroupByMonth(a), GroupByMonth(b))
  {
    GroupOntoConcat([], a, b);
    GroupShape(a);
    GroupOntoNonEmpty(GroupByMonth(a), b);
    GroupFirst(b);
  }

  /** The first entry is for the month of the first day. */
  lemma {:induction false} GroupFirst(days: seq<ContributionDay>)
    requires days != []
    ensures GroupByMonth(days) != [] && GroupByMonth(days)[0].date == MonthKey(days[0])
    decreases |days|
  {
    var front := days[..|days| - 1];
    assert GroupByMonth(days) == Step(GroupOnto([], front), days[|days| - 1]);
    if |days| > 1 {
      GroupFirst(front);
      assert front[0] == days[0];
    } else {
      assert front == [];
    }
  }

  /** Grouping one more day is one more step of the loop. */
  lemma GroupSnoc(before: seq<ContributionDay>, days: seq<ContributionDay>, d: nat)
    requires d < |days|
    ensures GroupByMonth(before + days[..d + 1]) == Step(GroupByMonth(before + days[..d]), days[d])
  {
    var seen := before + days[..d + 1];
    assert seen[..|seen| - 1] == before + days[..d];
  }

  lemma DaysSnoc(weeks: seq<ContributionWeek>, w: nat)
    requires w < |weeks|
    ensures Days(weeks[..w + 1]) == Days(weeks[..w]) + weeks[w].contributionDays
  {
    assert weeks[..w + 1][..w] == weeks[..w];
  }

  // ---------------------------------------------------------------------
  // The operations
  // ---------------------------------------------------------------------

  /**
   * `dataRight`'s weeks are put in front of `dataLeft`'s and its total is
   * added to `dataLeft`'s; `dataLeft` is changed in place and returned.
   */
  method MergeContributions(dataLeft: ContributionCalendar, dataRight: ContributionCalendar)
    returns (merged: ContributionCalendar)
    modifies dataLeft
    ensures merged == dataLeft
    ensures dataLeft.weeks == old(dataRight.weeks) + old(dataLeft.weeks)
    ensures dataLeft.totalContributions == old(dataLeft.totalContributions) + old(dataRight.totalContributions)
  {
    dataLeft.weeks := dataRight.weeks + dataLeft.weeks;
    dataLeft.totalContributions := dataLeft.totalContributions + dataRight.totalContributions;
    merged := dataLeft;
  }

  /**
   * Walks the days in order, starting a new entry at the first day and at
   * every month change and adding each other day to the last entry; the
   * reported total is passed through, not recomputed.
   */
  method ParseContributions(data: ContributionCalendar) returns (stats: GitHubStats)
    ensures stats.contributions == GroupByMonth(Days(data.weeks))
    ensures SumCounts(stats.contributions) == SumDays(Days(data.weeks))
    ensures forall i :: 0 < i < |stats.contributions| ==> stats.contributions[i - 1].date != stats.contributions[i].date
    ensures stats.totalContributions == data.totalContributions
  {
    var contributions: seq<MonthlyCount> := [];
    var weeks := data.weeks;
    for w := 0 to |weeks|
      invariant contributions == GroupByMonth(Days(weeks[..w]))
    {
      var days := weeks[w].contributionDays;
      ghost var before := Days(weeks[..w]);
      assert before + days[..0] == before;
      for d := 0 to |days|
        invariant contributions == GroupByMonth(before + days[..d])
      {
        var day := days[d];
        var date := MonthOf(day.date);
        GroupSnoc(before, days, d);
        ghost var previous := contributions;
        if |contributions| == 0 || contributions[|contributions| - 1].date != date {
          contributions := contributions + [MonthlyCount(day.contributionCount, date)];
        } else {
          var last := contributions[|contributions| - 1];
          contributions := contributions[..|contributions| - 1] + [last.(count := last.count + day.contributionCount)];
        }
        assert contributions == Step(previous, day);
      }
      DaysSnoc(weeks, w);
      assert days[..|days|] == days;
      assert contributions == GroupByMonth(Days(weeks[..w + 1]));
    }
    assert weeks[..|weeks|] == weeks;
    stats := GitHubStats(contributions, data.totalContributions);
    GroupSum(Days(weeks));
    GroupShape(Days(weeks));
  }

  /**
   * The two query ranges: the first from the start of the month eleven
   * months back up to `now`, the second the whole calendar month before it.
   */
  method ContributionRanges(now: Instant) returns (first: Range, second: Range)
    requires ValidInstant(now)
    ensures first.to == now
    ensures first.from == Instant(FirstDay(MonthsBefore(MonthOf(now.date), 11)), 0)
    ensures second.from == Instant(FirstDay(MonthsBefore(MonthOf(now.date), 12)), 0)
    ensures second.to == Instant(LastDay(MonthsBefore(MonthOf(now.date), 12)), MsPerDay - 1)
    ensures InstantAtMost(first.from, first.to) && InstantBefore(second.from, second.to)
    ensures NextInstant(second.to) == first.from
  {
    var to := now;
    var from := StartOfMonthInstant(SubMonthsInstant(to, 11));
    first := Range(from, to);
    to := EndOfDay(SubDayInstant(from));
    from := StartOfMonthInstant(to);
    second := Range(from, to);

    var current := MonthOf(now.date);
    var older := MonthsBefore(current, 11);
    MonthsBeforeStep(current, 11);
    PrevDayOfFirstDay(older);
    NextDayOfLastDay(MonthsBefore(current, 12));
    MonthBeforeIsLexicographic(older, current);
    MonthsBeforeStep(current, 12);
    assert MonthsBefore(MonthsBefore(current, 12), -1) == older by {
      MonthIndexInjective(MonthsBefore(MonthsBefore(current, 12), -1), older);
    }
  }

  /**
   * Fetches the two ranges (their answers are the calendars given), merges
   * the older range in front of the newer one and groups the result once.
   */
  method FetchContributions(now: Instant, elevenMonthsData: ContributionCalendar, twelfthMonthData: ContributionCalendar)
    returns (first: Range, second: Range, stats: GitHubStats)
    requires ValidInstant(now)
    modifies elevenMonthsData
    ensures first.from == Instant(FirstDay(MonthsBefore(MonthOf(now.date), 11)), 0) && first.to == now
    ensures second.from == Instant(FirstDay(MonthsBefore(MonthOf(now.date), 12)), 0)
    ensures second.to == Instant(LastDay(MonthsBefore(MonthOf(now.date), 12)), MsPerDay - 1)
    ensures NextInstant(second.to) == first.from
    ensures stats.contributions == GroupByMonth(Days(old(twelfthMonthData.weeks)) + Days(old(elevenMonthsData.weeks)))
    ensures stats.totalContributions == old(elevenMonthsData.totalContributions) + old(twelfthMonthData.totalContributions)
  {
    first, second := ContributionRanges(now);
    var merged := MergeContributions(elevenMonthsData, twelfthMonthData);
    stats := ParseContributions(merged);
    DaysConcat(old(twelfthMonthData.weeks), old(elevenMonthsData.weeks));
  }
}
