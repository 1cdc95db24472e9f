/** SuccessRateService: request counters summed per team name over all
    days, then a guarded percentage of successful requests. */
module SuccessRate {
  import opened Wrappers
  import opened Dicts
  import opened Activity
  import opened Fetch
  import opened Teams
  import opened Rounding

  /** The three counters `team_metrics` keeps per name. */
  datatype Requests = Requests(total: nat, successful: nat, failed: nat)

  const NoRequests := Requests(0, 0, 0)

  datatype TeamSummary = TeamSummary(
    name: string,
    totalRequests: nat,
    successfulRequests: nat,
    failedRequests: nat,
    successRate: real)

  /** Which of the three kept counters, and which entity counter feeds it:
      `total_requests` is fed by `api_requests`. */
  datatype RequestCounter = Total | Successful | Failed

  function Count(r: Requests, c: RequestCounter): nat {
    match c
    case Total => r.total
    case Successful => r.successful
    case Failed => r.failed
  }

  function Source(c: RequestCounter): Counter {
    match c
    case Total => ApiRequests
    case Successful => SuccessfulRequests
    case Failed => FailedRequests
  }

  /** One day's `+=` of an entity's counters; each counter independently. */
  function Add(r: Requests, m: SpendMetrics): (s: Requests)
    ensures forall c :: Count(s, c) == Count(r, c) + Read(m, Source(c))
  {
    Requests(r.total + m.apiRequests, r.successful + m.successfulRequests, r.failed + m.failedRequests)
  }

  /** The zero-initialised `team_metrics`, keyed by display name. */
  function InitialMetrics(dir: Directory): (tm: Dict<Requests>)
    ensures Keys(tm) == Dedup(Names(dir))
    ensures forall n :: n in Keys(tm) ==> Get(tm, n) == Some(NoRequests)
  {
    FromKeys(Names(dir), NoRequests)
  }

  /** Every requested team's name is a key of `tm`. */
  predicate Covers(tm: Dict<Requests>, dir: Directory, ids: seq<string>) {
    forall k :: 0 <= k < |ids| ==> NameOf(dir, ids[k]) in Keys(tm)
  }

  /** The inner loop: one day's counters added for `ids`, in order. */
  function AddDay(tm: Dict<Requests>, dir: Directory, b: Breakdown, ids: seq<string>): (r: Dict<Requests>)
    ensures Covers(tm, dir, ids) ==> Keys(r) == Keys(tm)
  {
    if ids == [] then tm
    else
      var prev := AddDay(tm, dir, b, ids[..|ids| - 1]);
      var n := NameOf(dir, ids[|ids| - 1]);
      assert Covers(tm, dir, ids) ==> Covers(tm, dir, ids[..|ids| - 1]);
      Put(prev, n, Add(GetOr(prev, n, NoRequests), EntityMetrics(b, ids[|ids| - 1])))
  }

  /** The outer loop over the upstream days. */
  function AddDays(tm: Dict<Requests>, dir: Directory, days: seq<DailySpend>): (r: Dict<Requests>)
    ensures Covers(tm, dir, dir.ids) ==> Keys(r) == Keys(tm)
  {
    if days == [] then tm
    else AddDay(AddDays(tm, dir, days[..|days| - 1]), dir, BreakdownOf(days[|days| - 1]), dir.ids)
  }

  lemma AddDayStep(tm: Dict<Requests>, dir: Directory, b: Breakdown, ids: seq<string>, j: nat)
    requires j < |ids|
    ensures
      var prev := AddDay(tm, dir, b, ids[..j]);
      var n := NameOf(dir, ids[j]);
      AddDay(tm, dir, b, ids[..j + 1]) == Put(prev, n, Add(GetOr(prev, n, NoRequests), EntityMetrics(b, ids[j])))
  {
    assert ids[..j + 1][..j] == ids[..j];
  }

  lemma AddDaysStep(tm: Dict<Requests>, dir: Directory, days: seq<DailySpend>, i: nat)
    requires i < |days|
    ensures AddDays(tm, dir, days[..i + 1]) == AddDay(AddDays(tm, dir, days[..i]), dir, BreakdownOf(days[i]), dir.ids)
  {
    assert days[..i + 1][..i] == days[..i];
  }

  function TeamMetrics(dir: Directory, days: seq<DailySpend>): Dict<Requests> {
    AddDays(InitialMetrics(dir), dir, days)
  }

  /** `(successful / total * 100) if total > 0 else 0.0`, rounded to 2 places. */
  function Rate(successful: nat, total: nat): real {
    Round(if total > 0 then successful as real / total as real * 100.0 else 0.0, 2)
  }

  function Summary(n: string, r: Requests): TeamSummary {
    TeamSummary(n, r.total, r.successful, r.failed, Rate(r.successful, r.total))
  }

  /** The summary list, in `team_metrics` order. */
  function Summaries(tm: seq<(string, Requests)>): (s: seq<TeamSummary>)
    ensures |s| == |tm|
    ensures forall i :: 0 <= i < |tm| ==> s[i] == Summary(tm[i].0, tm[i].1)
  {
    if tm == [] then [] else Summaries(tm[..|tm| - 1]) + [Summary(tm[|tm| - 1].0, tm[|tm| - 1].1)]
  }

  /** `fetch_team_success_rate_summary`, with a missing or null breakdown or
      entities map read as empty (see the as-written variant below). */
  method FetchTeamSuccessRateSummary(dir: Directory, fetched: Result<seq<DailySpend>, Failure>)
      returns (r: Result<seq<TeamSummary>, Failure>)
    ensures fetched.Failure? ==> r == Failure(Rewrite(TokenUsagePrefix, fetched.error))
    ensures fetched.Success? ==> r == Success(Summaries(TeamMetrics(dir, fetched.value)))
  {
    if fetched.Failure? {
      return Failure(Rewrite(TokenUsagePrefix, fetched.error));
    }
    var tm := NameKeyed(dir, NoRequests);
    tm := AccumulateDays(tm, dir, fetched.value);
    var summary := Summarize(tm);
    r := Success(summary);
  }

  /** The loop over the upstream days. */
  method AccumulateDays(tm0: Dict<Requests>, dir: Directory, days: seq<DailySpend>) returns (tm: Dict<Requests>)
    ensures tm == AddDays(tm0, dir, days)
  {
    tm := tm0;
    var i := 0;
    while i < |days|
      invariant 0 <= i <= |days|
      invariant tm == AddDays(tm0, dir, days[..i])
    {
      AddDaysStep(tm0, dir, days, i);
      tm := AccumulateDay(tm, dir, BreakdownOf(days[i]));
      i := i + 1;
    }
    assert days[..|days|] == days;
  }



  /** The three `+=` of one day, for every requested team. */
  method AccumulateDay(tm: Dict<Requests>, dir: Directory, b: Breakdown) returns (acc: Dict<Requests>)
    ensures acc == AddDay(tm, dir, b, dir.ids)
  {
    acc := tm;
    var j := 0;
    while j < |dir.ids|
      invariant 0 <= j <= |dir.ids|
      invariant acc == AddDay(tm, dir, b, dir.ids[..j])
    {
      AddDayStep(tm, dir, b, dir.ids, j);
      var n := NameOf(dir, dir.ids[j]);
      acc := Put(acc, n, Add(GetOr(acc, n, NoRequests), EntityMetrics(b, dir.ids[j])));
      j := j + 1;
    }
    assert dir.ids[..|dir.ids|] == dir.ids;
  }

  /** The loop that formats `summary`. */
  method Summarize(tm: Dict<Requests>) returns (summary: seq<TeamSummary>)
    ensures summary == Summaries(tm)
  {
    summary := [];
    var s := 0;
    while s < |tm|
      invariant 0 <= s <= |tm|
      invariant summary == Summaries(tm[..s])
    {
      assert tm[..s + 1][..s] == tm[..s];
      summary := summary + [Summary(tm[s].0, tm[s].1)];
      s := s + 1;
    }
    assert tm[..|tm|] == tm;
  }

  /** A counter summed, on one day, over the requested teams named `n`. */
  function DaySum(dir: Directory, b: Breakdown, ids: seq<string>, n: string, c: RequestCounter): nat {
    if ids == [] then 0
    else
      DaySum(dir, b, ids[..|ids| - 1], n, c)
      + (if NameOf(dir, ids[|ids| - 1]) == n then Read(EntityMetrics(b, ids[|ids| - 1]), Source(c)) else 0)
  }

  /** The same over all days. */
  function TotalSum(dir: Directory, days: seq<DailySpend>, n: string, c: RequestCounter): nat {
    if days == [] then 0
    else TotalSum(dir, days[..|days| - 1], n, c) + DaySum(dir, BreakdownOf(days[|days| - 1]), dir.ids, n, c)
  }

  lemma {:induction false} AddDayCounts(tm: Dict<Requests>, dir: Directory, b: Breakdown,
                                       ids: seq<string>, n: string, c: RequestCounter)
    requires Covers(tm, dir, ids) && n in Keys(tm)
    ensures n in Keys(AddDay(tm, dir, b, ids))
    ensures Count(Get(AddDay(tm, dir, b, ids), n).value, c) == Count(Get(tm, n).value, c) + DaySum(dir, b, ids, n, c)
  {
    if ids != [] {
      var init := ids[..|ids| - 1];
      assert Covers(tm, dir, init);
      AddDayCounts(tm, dir, b, init, n, c);
    }
  }

  lemma {:induction false} AddDaysCounts(tm: Dict<Requests>, dir: Directory, days: seq<DailySpend>,
                                        n: string, c: RequestCounter)
    requires Covers(tm, dir, dir.ids) && n in Keys(tm)
    ensures Count(Get(AddDays(tm, dir, days), n).value, c) == Count(Get(tm, n).value, c) + TotalSum(dir, days, n, c)
  {
    if days != [] {
      var init := days[..|days| - 1];
      AddDaysCounts(tm, dir, init, n, c);
      AddDayCounts(AddDays(tm, dir, init), dir, BreakdownOf(days[|days| - 1]), dir.ids, n, c);
    }
  }

  lemma InitialCovers(dir: Directory)
    ensures Covers(InitialMetrics(dir), dir, dir.ids)
  {
    forall k | 0 <= k < |dir.ids| ensures NameOf(dir, dir.ids[k]) in Keys(InitialMetrics(dir)) {
      assert Names(dir)[k] == NameOf(dir, dir.ids[k]);
    }
  }

  /** The summary of `name` holds, for each counter, its sum over the days
      of the entity counter of every requested team with that name, and the
      guarded percentage of those sums. */
  predicate SummarizesName(s: TeamSummary, dir: Directory, days: seq<DailySpend>) {
    && s.totalRequests == TotalSum(dir, days, s.name, Total)
    && s.successfulRequests == TotalSum(dir, days, s.name, Successful)
    && s.failedRequests == TotalSum(dir, days, s.name, Failed)
    && s.successRate == Rate(s.successfulRequests, s.totalRequests)
  }

  /** The keys of `team_metrics` are the distinct display names, and each
      counter of a name is its sum over days and teams. */
  lemma TeamMetricsSums(dir: Directory, days: seq<DailySpend>, n: string, c: RequestCounter)
    ensures Keys(TeamMetrics(dir, days)) == Dedup(Names(dir))
    ensures n in Names(dir) ==> Count(Get(TeamMetrics(dir, days), n).value, c) == TotalSum(dir, days, n, c)
  {
    InitialCovers(dir);
    if n in Names(dir) {
      AddDaysCounts(InitialMetrics(dir), dir, days, n, c);
    }
  }

  /** One summary per distinct display name of the requested teams, in
      first-seen `team_ids` order, each summarising its name (missing teams
      and counters adding 0). */
  lemma SummaryContents(dir: Directory, days: seq<DailySpend>)
    ensures
      var s := Summaries(TeamMetrics(dir, days));
      && |s| == |Dedup(Names(dir))|
      && forall i :: 0 <= i < |s| ==> s[i].name == Dedup(Names(dir))[i] && SummarizesName(s[i], dir, days)
  {
    var tm := TeamMetrics(dir, days);
    TeamMetricsSums(dir, days, "", Total);
    forall i | 0 <= i < |tm|
      ensures tm[i].0 == Dedup(Names(dir))[i] && SummarizesName(Summary(tm[i].0, tm[i].1), dir, days)
    {
      SummaryAt(dir, days, i);
    }
  }

  lemma SummaryAt(dir: Directory, days: seq<DailySpend>, i: nat)
    requires i < |TeamMetrics(dir, days)|
    ensures
      var tm := TeamMetrics(dir, days);
      tm[i].0 == Dedup(Names(dir))[i] && SummarizesName(Summary(tm[i].0, tm[i].1), dir, days)
  {
    var tm := TeamMetrics(dir, days);
    var n := tm[i].0;
    assert Keys(tm)[i] == n;
    GetAt(tm, i);
    TeamMetricsSums(dir, days, n, Total);
    TeamMetricsSums(dir, days, n, Successful);
    TeamMetricsSums(dir, days, n, Failed);
  }

  /** With no upstream days every requested team is still listed, with
      zero counters and a zero rate. */
  lemma EmptyResults(dir: Directory)
    ensures
      var s := Summaries(TeamMetrics(dir, []));
      && |s| == |Dedup(Names(dir))|
      && forall i :: 0 <= i < |s| ==> s[i] == TeamSummary(Dedup(Names(dir))[i], 0, 0, 0, 0.0)
  {
    var tm := InitialMetrics(dir);
    forall i | 0 <= i < |tm| ensures tm[i].1 == NoRequests {
      GetAt(tm, i);
    }
    assert Round(0.0, 2) == 0.0 by {
      RoundExact(0.0, 2, 0);
    }
  }

  /** The zero guard: no requests means a 0.0 rate. */
  lemma RateWithoutRequests(successful: nat)
    ensures Rate(successful, 0) == 0.0
  {
    RoundExact(0.0, 2, 0);
  }

  /** A rate of at most as many successes as requests lies in [0, 100]. */
  lemma RateBounds(successful: nat, total: nat)
    requires successful <= total
    ensures 0.0 <= Rate(successful, total) <= 100.0
  {
    RoundExact(0.0, 2, 0);
    RoundExact(100.0, 2, 10000);
    if total > 0 {
      var x := successful as real / total as real * 100.0;
      assert successful as real / total as real <= 1.0;
      RoundMonotonic(0.0, x, 2);
      RoundMonotonic(x, 100.0, 2);
    }
  }

  /** 235 successes out of 250 requests is 94.0%. */
  lemma RateExampleExact()
    ensures Rate(235, 250) == 94.0
  {
    assert 235.0 / 250.0 * 100.0 == 94.0;
    RoundExact(94.0, 2, 9400);
  }

  /** 2 successes out of 3 requests is 66.67%. */
  lemma RateExampleRounded()
    ensures Rate(2, 3) == 66.67
  {
    var x := 2.0 / 3.0 * 100.0;
    assert Pow10(2) == 100;
    assert x * 100.0 == 20000.0 / 3.0;
    assert (20000.0 / 3.0).Floor == 6666;
    assert HalfEven(x * 100.0) == 6667;
  }

  /** A day without a breakdown adds zero to every counter of every team. */
  lemma {:induction false} AddDayWithoutBreakdown(tm: Dict<Requests>, dir: Directory, ids: seq<string>)
    requires Covers(tm, dir, ids)
    ensures AddDay(tm, dir, EmptyBreakdown, ids) == tm
  {
    if ids != [] {
      var init := ids[..|ids| - 1];
      assert Covers(tm, dir, init);
      AddDayWithoutBreakdown(tm, dir, init);
      var n := NameOf(dir, ids[|ids| - 1]);
      var r := Get(tm, n).value;
      assert EntityMetrics(EmptyBreakdown, ids[|ids| - 1]) == NoMetrics;
      assert Add(r, NoMetrics) == r;
      PutUnchanged(tm, n, r);
    }
  }

  /** Reading a null breakdown as empty: such a day leaves every sum as it
      was, as the time-series service's `or {}` guard has it. */
  lemma DayWithoutBreakdownAddsNothing(dir: Directory, days: seq<DailySpend>, day: DailySpend)
    requires day.breakdown.None?
    ensures TeamMetrics(dir, days + [day]) == TeamMetrics(dir, days)
  {
    var all := days + [day];
    assert all[..|all| - 1] == days;
    InitialCovers(dir);
    AddDayWithoutBreakdown(AddDays(InitialMetrics(dir), dir, days), dir, dir.ids);
  }

  /** A day whose fields, once serialised, hold `None` where the code then
      calls `.get`: a null breakdown, or a null entities map when there is
      a team to look up. */
  predicate DereferencesNull(e: DailySpend, ids: seq<string>) {
    e.breakdown.None? || (e.breakdown.value.entities.None? && ids != [])
  }

  /** The service as written: such a day raises `AttributeError`. */
  function SuccessRateAsWritten(dir: Directory, fetched: Result<seq<DailySpend>, Failure>)
      : Result<seq<TeamSummary>, Failure>
  {
    match fetched
    case Failure(e) => Failure(Rewrite(TokenUsagePrefix, e))
    case Success(days) =>
      if exists i :: 0 <= i < |days| && DereferencesNull(days[i], dir.ids) then Failure(AttributeError)
      else Success(Summaries(TeamMetrics(dir, days)))
  }

  /** Without a null map to dereference, the code as written returns what
      `FetchTeamSuccessRateSummary` promises: the rewritten fetch failure,
      or the summaries of the accumulated metrics. */
  lemma AsWrittenAgreesWithoutNull(dir: Directory, fetched: Result<seq<DailySpend>, Failure>)
    requires fetched.Success? ==>
      forall i :: 0 <= i < |fetched.value| ==> !DereferencesNull(fetched.value[i], dir.ids)
    ensures SuccessRateAsWritten(dir, fetched)
         == if fetched.Failure? then Failure(Rewrite(TokenUsagePrefix, fetched.error))
            else Success(Summaries(TeamMetrics(dir, fetched.value)))
  {
  }

  /** Any one day with a null map to dereference makes the code as written
      fail, whatever the other days hold. */
  lemma AsWrittenFailsOnNull(dir: Directory, days: seq<DailySpend>, i: nat)
    requires i < |days| && DereferencesNull(days[i], dir.ids)
    ensures SuccessRateAsWritten(dir, Success(days)) == Failure(AttributeError)
  {
  }

  /** One day with a null breakdown: the code as written fails, the
      corrected service reports every team with zero counters. */
  lemma AsWrittenFailsOnNullBreakdown(dir: Directory, day: DailySpend)
    requires day.breakdown.None?
    ensures SuccessRateAsWritten(dir, Success([day])) == Failure(AttributeError)
    ensures Summaries(TeamMetrics(dir, [day])) == Summaries(TeamMetrics(dir, []))
  {
    AsWrittenFailsOnNull(dir, [day], 0);
    DayWithoutBreakdownAddsNothing(dir, [], day);
  }
}
