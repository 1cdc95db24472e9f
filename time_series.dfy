/** TimeSeriesService: one row per upstream day, listing every requested
    team with that day's counters (zero when the team is absent). */
module TimeSeries {
  import opened Wrappers
  import opened Dicts
  import opened Activity
  import opened Fetch
  import opened Teams

  datatype TeamPoint = TeamPoint(
    name: string,
    tokens: nat,
    totalRequests: nat,
    successfulRequests: nat,
    failedRequests: nat)

  datatype DayRow = DayRow(date: string, teams: seq<TeamPoint>)

  /** The point of one team on a day with breakdown `b`. */
  function Point(dir: Directory, b: Breakdown, id: string): TeamPoint {
    var m := EntityMetrics(b, id);
    TeamPoint(NameOf(dir, id), m.totalTokens, m.apiRequests, m.successfulRequests, m.failedRequests)
  }

  /** The points of `ids`, in that order. */
  function Points(dir: Directory, b: Breakdown, ids: seq<string>): (ps: seq<TeamPoint>)
    ensures |ps| == |ids|
    ensures forall j :: 0 <= j < |ids| ==> ps[j] == Point(dir, b, ids[j])
  {
    if ids == [] then [] else Points(dir, b, ids[..|ids| - 1]) + [Point(dir, b, ids[|ids| - 1])]
  }

  function Row(dir: Directory, e: DailySpend): DayRow {
    DayRow(e.date, Points(dir, BreakdownOf(e), dir.ids))
  }

  /** One row per day, in upstream order. */
  function Rows(dir: Directory, days: seq<DailySpend>): (rows: seq<DayRow>)
    ensures |rows| == |days|
    ensures forall i :: 0 <= i < |days| ==> rows[i] == Row(dir, days[i])
  {
    if days == [] then [] else Rows(dir, days[..|days| - 1]) + [Row(dir, days[|days| - 1])]
  }

  lemma RowsStep(dir: Directory, days: seq<DailySpend>, i: nat)
    requires i < |days|
    ensures Rows(dir, days[..i + 1]) == Rows(dir, days[..i]) + [Row(dir, days[i])]
  {
    assert days[..i + 1][..i] == days[..i];
  }

  lemma PointsStep(dir: Directory, b: Breakdown, ids: seq<string>, j: nat)
    requires j < |ids|
    ensures Points(dir, b, ids[..j + 1]) == Points(dir, b, ids[..j]) + [Point(dir, b, ids[j])]
  {
    assert ids[..j + 1][..j] == ids[..j];
  }

  /** `fetch_daily_timeseries_per_team`, given the directory the team
      service holds and the outcome of the upstream fetch. */
  method FetchDailyTimeseriesPerTeam(dir: Directory, fetched: Result<seq<DailySpend>, Failure>)
      returns (r: Result<seq<DayRow>, Failure>)
    ensures fetched.Failure? ==> r == Failure(Rewrite(TokenUsagePrefix, fetched.error))
    ensures fetched.Success? ==> r == Success(Rows(dir, fetched.value))
  {
    if fetched.Failure? {
      return Failure(Rewrite(TokenUsagePrefix, fetched.error));
    }
    var daily := BuildRows(dir, fetched.value);
    r := Success(daily);
  }

  /** The loop over the upstream days. */
  method BuildRows(dir: Directory, days: seq<DailySpend>) returns (daily: seq<DayRow>)
    ensures daily == Rows(dir, days)
  {
    daily := [];
    var i := 0;
    while i < |days|
      invariant 0 <= i <= |days|
      invariant daily == Rows(dir, days[..i])
    {
      RowsStep(dir, days, i);
      var teams := BuildPoints(dir, BreakdownOf(days[i]));
      daily := daily + [DayRow(days[i].date, teams)];
      i := i + 1;
    }
    assert days[..|days|] == days;
  }

  /** The loop over the requested teams of one day. */
  method BuildPoints(dir: Directory, b: Breakdown) returns (teams: seq<TeamPoint>)
    ensures teams == Points(dir, b, dir.ids)
  {
    teams := [];
    var j := 0;
    while j < |dir.ids|
      invariant 0 <= j <= |dir.ids|
      invariant teams == Points(dir, b, dir.ids[..j])
    {
      PointsStep(dir, b, dir.ids, j);
      var id := dir.ids[j];
      var m := EntityMetrics(b, id);
      teams := teams + [TeamPoint(NameOf(dir, id), m.totalTokens, m.apiRequests,
                                  m.successfulRequests, m.failedRequests)];
      j := j + 1;
    }
    assert dir.ids[..|dir.ids|] == dir.ids;
  }

  /** Each row is a function of its own day only: the rows of two stretches
      of days are the rows of each, one after the other. */
  lemma {:induction false} RowsAppend(dir: Directory, a: seq<DailySpend>, b: seq<DailySpend>)
    ensures Rows(dir, a + b) == Rows(dir, a) + Rows(dir, b)
  {
    var l, r := Rows(dir, a + b), Rows(dir, a) + Rows(dir, b);
    assert |l| == |r|;
    forall i | 0 <= i < |l| ensures l[i] == r[i] {
      if i < |a| {
        assert (a + b)[i] == a[i];
      } else {
        assert (a + b)[i] == b[i - |a|];
      }
    }
  }

  /** The shape of every row: the day's own date, and one point per
      requested team, in `team_ids` order, named by the directory. */
  lemma RowShape(dir: Directory, days: seq<DailySpend>, i: nat, j: nat)
    requires i < |days| && j < |dir.ids|
    ensures Rows(dir, days)[i].date == days[i].date
    ensures |Rows(dir, days)[i].teams| == |dir.ids|
    ensures Rows(dir, days)[i].teams[j].name == NameOf(dir, dir.ids[j])
  {
  }

  /** The values of a point are the day's entity counters: tokens are
      `total_tokens` and total requests are `api_requests`. */
  lemma PointOfPresentTeam(dir: Directory, days: seq<DailySpend>, i: nat, j: nat)
    requires i < |days| && j < |dir.ids|
    requires dir.ids[j] in Keys(Entities(BreakdownOf(days[i])))
    ensures
      var u := Get(Entities(BreakdownOf(days[i])), dir.ids[j]).value;
      var p := Rows(dir, days)[i].teams[j];
      && p.tokens == u.metrics.totalTokens
      && p.totalRequests == u.metrics.apiRequests
      && p.successfulRequests == u.metrics.successfulRequests
      && p.failedRequests == u.metrics.failedRequests
  {
  }

  /** A team missing from the day's entities, or a day without a breakdown,
      gives a zero point. */
  lemma PointOfAbsentTeam(dir: Directory, days: seq<DailySpend>, i: nat, j: nat)
    requires i < |days| && j < |dir.ids|
    requires days[i].breakdown.None? || dir.ids[j] !in Keys(Entities(BreakdownOf(days[i])))
    ensures Rows(dir, days)[i].teams[j] == TeamPoint(NameOf(dir, dir.ids[j]), 0, 0, 0, 0)
  {
  }

  /** No days give no rows; no teams give rows with empty team lists. */
  lemma EmptyInputs(dir: Directory, days: seq<DailySpend>)
    ensures Rows(dir, []) == []
    ensures dir.ids == [] ==> forall i :: 0 <= i < |days| ==> Rows(dir, days)[i].teams == []
  {
  }
}
