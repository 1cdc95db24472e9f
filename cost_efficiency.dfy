/** CostEfficiencyService: tokens and spend summed per (team name, model
    group) wherever one of the team's API keys appears in the group's key
    breakdown, then a guarded cost per 1000 tokens. */
module CostEfficiency {
  import opened Wrappers
  import opened Dicts
  import opened Activity
  import opened Fetch
  import opened Teams
  import opened Rounding

  /** One `team_model_data[team][model]` accumulator. */
  datatype Acc = Acc(totalTokens: nat, totalCost: real)

  const NoAcc := Acc(0, 0.0)

  datatype CostCell = CostCell(
    team: string,
    model: string,
    costPer1kTokens: real,
    totalCost: real,
    totalTokens: nat)

  /** The keys of a team's own `api_key_breakdown` on a day, in order; none
      when the team is not among the day's entities. */
  function TeamKeys(b: Breakdown, id: string): (ks: seq<string>)
    ensures id !in Keys(Entities(b)) ==> ks == []
    ensures id in Keys(Entities(b)) ==> ks == Keys(KeyBreakdown(Get(Entities(b), id).value))
  {
    match Get(Entities(b), id)
    case Some(u) => Keys(KeyBreakdown(u))
    case None => []
  }

  /** The innermost loop: the team's keys that the group's breakdown lists
      add their tokens and spend to the group's cell, creating it at 0. */
  function AddKeys(cells: Dict<Acc>, model: string, groupKeys: Dict<KeyMetrics>, teamKeys: seq<string>)
      : Dict<Acc>
  {
    if teamKeys == [] then cells
    else AddKey(AddKeys(cells, model, groupKeys, teamKeys[..|teamKeys| - 1]), model, groupKeys, teamKeys[|teamKeys| - 1])
  }

  /** One team key: when the group's breakdown lists it, its tokens and
      spend go to the group's cell, created at 0. */
  function AddKey(cells: Dict<Acc>, model: string, groupKeys: Dict<KeyMetrics>, key: string): Dict<Acc> {
    match Get(groupKeys, key)
    case None => cells
    case Some(km) =>
      var a := GetOr(cells, model, NoAcc);
      Put(cells, model, Acc(a.totalTokens + km.metrics.totalTokens, a.totalCost + km.metrics.spend))
  }

  lemma AddKeysStep(cells: Dict<Acc>, model: string, groupKeys: Dict<KeyMetrics>, teamKeys: seq<string>, k: nat)
    requires k < |teamKeys|
    ensures AddKeys(cells, model, groupKeys, teamKeys[..k + 1])
         == AddKey(AddKeys(cells, model, groupKeys, teamKeys[..k]), model, groupKeys, teamKeys[k])
  {
    assert teamKeys[..k + 1][..k] == teamKeys[..k];
  }

  lemma AddGroupsStep(cells: Dict<Acc>, groups: seq<(string, Usage)>, teamKeys: seq<string>, g: nat)
    requires g < |groups|
    ensures AddGroups(cells, groups[..g + 1], teamKeys)
         == AddKeys(AddGroups(cells, groups[..g], teamKeys), groups[g].0, KeyBreakdown(groups[g].1), teamKeys)
  {
    assert groups[..g + 1][..g] == groups[..g];
  }

  /** The loop over the day's model groups. */
  function AddGroups(cells: Dict<Acc>, groups: seq<(string, Usage)>, teamKeys: seq<string>): Dict<Acc> {
    if groups == [] then cells
    else
      var g := groups[|groups| - 1];
      AddKeys(AddGroups(cells, groups[..|groups| - 1], teamKeys), g.0, KeyBreakdown(g.1), teamKeys)
  }

  /** The loop over the requested teams on one day; each team's entry is
      created (empty) the first time its name comes up. */
  function AddDay(tmd: Dict<Dict<Acc>>, dir: Directory, b: Breakdown, ids: seq<string>): Dict<Dict<Acc>> {
    if ids == [] then tmd
    else AddTeam(AddDay(tmd, dir, b, ids[..|ids| - 1]), NameOf(dir, ids[|ids| - 1]), b, ids[|ids| - 1])
  }

  lemma AddDayStep(tmd: Dict<Dict<Acc>>, dir: Directory, b: Breakdown, ids: seq<string>, j: nat)
    requires j < |ids|
    ensures AddDay(tmd, dir, b, ids[..j + 1]) == AddTeam(AddDay(tmd, dir, b, ids[..j]), NameOf(dir, ids[j]), b, ids[j])
  {
    assert ids[..j + 1][..j] == ids[..j];
  }

  /** One team's pass over the day's model groups, stored under its name. */
  function AddTeam(tmd: Dict<Dict<Acc>>, n: string, b: Breakdown, id: string): Dict<Dict<Acc>> {
    Put(tmd, n, AddGroups(GetOr(tmd, n, []), ModelGroups(b), TeamKeys(b, id)))
  }

  /** Only the entry of the team's own name changes. */
  lemma AddTeamEntry(tmd: Dict<Dict<Acc>>, n: string, b: Breakdown, id: string, n': string)
    ensures GetOr(AddTeam(tmd, n, b, id), n', [])
         == if n' == n then AddGroups(GetOr(tmd, n, []), ModelGroups(b), TeamKeys(b, id)) else GetOr(tmd, n', [])
  {
    var v := AddGroups(GetOr(tmd, n, []), ModelGroups(b), TeamKeys(b, id));
    var r := Put(tmd, n, v);
    if n' != n {
      PutOther(tmd, n, v, n');
    }
  }

  function AddDays(tmd: Dict<Dict<Acc>>, dir: Directory, days: seq<DailySpend>): Dict<Dict<Acc>> {
    if days == [] then tmd
    else AddDay(AddDays(tmd, dir, days[..|days| - 1]), dir, BreakdownOf(days[|days| - 1]), dir.ids)
  }

  lemma AddDaysStep(tmd: Dict<Dict<Acc>>, dir: Directory, days: seq<DailySpend>, i: nat)
    requires i < |days|
    ensures AddDays(tmd, dir, days[..i + 1]) == AddDay(AddDays(tmd, dir, days[..i]), dir, BreakdownOf(days[i]), dir.ids)
  {
    assert days[..i + 1][..i] == days[..i];
  }

  function TeamModelData(dir: Directory, days: seq<DailySpend>): Dict<Dict<Acc>> {
    AddDays([], dir, days)
  }

  /** `(total_cost / total_tokens * 1000) if total_tokens > 0 else 0.0`,
      rounded to 4 places. */
  function Per1k(a: Acc): real {
    Round(if a.totalTokens > 0 then a.totalCost / a.totalTokens as real * 1000.0 else 0.0, 4)
  }

  function MakeCell(team: string, model: string, a: Acc): CostCell {
    CostCell(team, model, Per1k(a), Round(a.totalCost, 4), a.totalTokens)
  }

  /** The cells of one team, in its models' first-seen order. */
  function ModelCells(team: string, models: seq<(string, Acc)>): (cs: seq<CostCell>)
    ensures |cs| == |models|
    ensures forall j :: 0 <= j < |models| ==> cs[j] == MakeCell(team, models[j].0, models[j].1)
  {
    if models == [] then []
    else ModelCells(team, models[..|models| - 1]) + [MakeCell(team, models[|models| - 1].0, models[|models| - 1].1)]
  }

  /** The result list: team by team, each team's models in order. */
  function Cells(tmd: seq<(string, Dict<Acc>)>): seq<CostCell> {
    if tmd == [] then [] else Cells(tmd[..|tmd| - 1]) + ModelCells(tmd[|tmd| - 1].0, tmd[|tmd| - 1].1)
  }

  lemma ModelCellsStep(team: string, models: seq<(string, Acc)>, j: nat)
    requires j < |models|
    ensures ModelCells(team, models[..j + 1]) == ModelCells(team, models[..j]) + [MakeCell(team, models[j].0, models[j].1)]
  {
    assert models[..j + 1][..j] == models[..j];
  }

  lemma CellsStep(tmd: seq<(string, Dict<Acc>)>, i: nat)
    requires i < |tmd|
    ensures Cells(tmd[..i + 1]) == Cells(tmd[..i]) + ModelCells(tmd[i].0, tmd[i].1)
  {
    assert tmd[..i + 1][..i] == tmd[..i];
  }

  /** `fetch_cost_efficiency`, given the directory the team service holds
      and the outcome of the upstream fetch. */
  method FetchCostEfficiency(dir: Directory, fetched: Result<seq<DailySpend>, Failure>)
      returns (r: Result<seq<CostCell>, Failure>)
    ensures fetched.Failure? ==> r == Failure(Rewrite(TeamDataPrefix, fetched.error))
    ensures fetched.Success? ==> r == Success(Cells(TeamModelData(dir, fetched.value)))
  {
    if fetched.Failure? {
      return Failure(Rewrite(TeamDataPrefix, fetched.error));
    }
    var tmd := AccumulateDays(dir, fetched.value);
    var cells := BuildCells(tmd);
    r := Success(cells);
  }

  /** The loop over the upstream days, from an empty `team_model_data`. */
  method AccumulateDays(dir: Directory, days: seq<DailySpend>) returns (tmd: Dict<Dict<Acc>>)
    ensures tmd == TeamModelData(dir, days)
  {
    tmd := [];
    var i := 0;
    while i < |days|
      invariant 0 <= i <= |days|
      invariant tmd == AddDays([], dir, days[..i])
    {
      AddDaysStep([], dir, days, i);
      tmd := AccumulateDay(tmd, dir, BreakdownOf(days[i]));
      i := i + 1;
    }
    assert days[..|days|] == days;
  }

  method AccumulateDay(tmd: Dict<Dict<Acc>>, dir: Directory, b: Breakdown) returns (r: Dict<Dict<Acc>>)
    ensures r == AddDay(tmd, dir, b, dir.ids)
  {
    r := tmd;
    var j := 0;
    while j < |dir.ids|
      invariant 0 <= j <= |dir.ids|
      invariant r == AddDay(tmd, dir, b, dir.ids[..j])
    {
      AddDayStep(tmd, dir, b, dir.ids, j);
      r := AccumulateTeam(r, NameOf(dir, dir.ids[j]), b, dir.ids[j]);
      j := j + 1;
    }
    assert dir.ids[..|dir.ids|] == dir.ids;
  }

  /** The body of the team loop: the team's entry, created empty when new,
      goes through the day's model groups. */
  method AccumulateTeam(tmd: Dict<Dict<Acc>>, n: string, b: Breakdown, id: string) returns (r: Dict<Dict<Acc>>)
    ensures r == AddTeam(tmd, n, b, id)
  {
    var cells := GetOr(tmd, n, []);
    var keys := TeamKeys(b, id);
    cells := AccumulateGroups(cells, ModelGroups(b), keys);
    r := Put<Dict<Acc>>(tmd, n, cells);
  }

  method AccumulateGroups(cells: Dict<Acc>, groups: Dict<Usage>, teamKeys: seq<string>) returns (r: Dict<Acc>)
    ensures r == AddGroups(cells, groups, teamKeys)
  {
    r := cells;
    var g := 0;
    while g < |groups|
      invariant 0 <= g <= |groups|
      invariant r == AddGroups(cells, groups[..g], teamKeys)
    {
      AddGroupsStep(cells, groups, teamKeys, g);
      r := AccumulateKeys(r, groups[g].0, KeyBreakdown(groups[g].1), teamKeys);
      g := g + 1;
    }
    assert groups[..|groups|] == groups;
  }

  method AccumulateKeys(cells: Dict<Acc>, model: string, groupKeys: Dict<KeyMetrics>, teamKeys: seq<string>)
      returns (r: Dict<Acc>)
    ensures r == AddKeys(cells, model, groupKeys, teamKeys)
  {
    r := cells;
    var k := 0;
    while k < |teamKeys|
      invariant 0 <= k <= |teamKeys|
      invariant r == AddKeys(cells, model, groupKeys, teamKeys[..k])
    {
      AddKeysStep(cells, model, groupKeys, teamKeys, k);
      var hit := Get(groupKeys, teamKeys[k]);
      if hit.Some? {
        var a := GetOr(r, model, NoAcc);
        r := Put(r, model, Acc(a.totalTokens + hit.value.metrics.totalTokens,
                               a.totalCost + hit.value.metrics.spend));
      }
      k := k + 1;
    }
    assert teamKeys[..|teamKeys|] == teamKeys;
  }

  method BuildCells(tmd: Dict<Dict<Acc>>) returns (cells: seq<CostCell>)
    ensures cells == Cells(tmd)
  {
    cells := [];
    var i := 0;
    while i < |tmd|
      invariant 0 <= i <= |tmd|
      invariant cells == Cells(tmd[..i])
    {
      CellsStep(tmd, i);
      cells := AppendModelCells(cells, tmd[i].0, tmd[i].1);
      i := i + 1;
    }
    assert tmd[..|tmd|] == tmd;
  }

  /** The inner loop over one team's models. */
  method AppendModelCells(cells0: seq<CostCell>, team: string, models: seq<(string, Acc)>) returns (cells: seq<CostCell>)
    ensures cells == cells0 + ModelCells(team, models)
  {
    cells := cells0;
    var j := 0;
    while j < |models|
      invariant 0 <= j <= |models|
      invariant cells == cells0 + ModelCells(team, models[..j])
    {
      ModelCellsStep(team, models, j);
      cells := cells + [MakeCell(team, models[j].0, models[j].1)];
      j := j + 1;
    }
    assert models[..|models|] == models;
  }

  // ---------------------------------------------------------------------
  // What the folds add up: a cell's totals are sums of contributions, and
  // the cell exists exactly when some key intersection contributed.
  // ---------------------------------------------------------------------

  /** Key intersections seen, and the tokens and spend they carried. */
  datatype Contrib = Contrib(hits: nat, tokens: nat, cost: real)

  const NoContrib := Contrib(0, 0, 0.0)

  function Plus(a: Contrib, b: Contrib): Contrib {
    Contrib(a.hits + b.hits, a.tokens + b.tokens, a.cost + b.cost)
  }

  /** `after` is `before` with contribution `c` added to the cell of `m`. */
  predicate Extends(before: seq<(string, Acc)>, after: seq<(string, Acc)>, m: string, c: Contrib) {
    && (m in Keys(after) <==> m in Keys(before) || c.hits > 0)
    && GetOr(after, m, NoAcc)
       == Acc(GetOr(before, m, NoAcc).totalTokens + c.tokens, GetOr(before, m, NoAcc).totalCost + c.cost)
  }

  lemma ExtendsTrans(a: seq<(string, Acc)>, b: seq<(string, Acc)>, d: seq<(string, Acc)>,
                     m: string, c1: Contrib, c2: Contrib)
    requires Extends(a, b, m, c1) && Extends(b, d, m, c2)
    ensures Extends(a, d, m, Plus(c1, c2))
  {
  }

  /** What the group's listing of the team's keys contributes. */
  function KeyContrib(groupKeys: Dict<KeyMetrics>, teamKeys: seq<string>): Contrib {
    if teamKeys == [] then NoContrib
    else
      Plus(KeyContrib(groupKeys, teamKeys[..|teamKeys| - 1]), KeyHit(groupKeys, teamKeys[|teamKeys| - 1]))
  }

  /** What one team key contributes: one hit with its tokens and spend
      when the group's breakdown lists it, nothing otherwise. */
  function KeyHit(groupKeys: Dict<KeyMetrics>, key: string): Contrib {
    match Get(groupKeys, key)
    case None => NoContrib
    case Some(km) => Contrib(1, km.metrics.totalTokens, km.metrics.spend)
  }

  /** One key adds its hit to the group's cell and leaves the other cells alone. */
  lemma AddKeyExtends(cells: Dict<Acc>, model: string, groupKeys: Dict<KeyMetrics>, key: string, m: string)
    ensures Extends(cells, AddKey(cells, model, groupKeys, key), m, if m == model then KeyHit(groupKeys, key) else NoContrib)
  {
    match Get(groupKeys, key)
    case None =>
    case Some(km) =>
      var a := GetOr(cells, model, NoAcc);
      var v := Acc(a.totalTokens + km.metrics.totalTokens, a.totalCost + km.metrics.spend);
      var after := Put(cells, model, v);
      assert after == AddKey(cells, model, groupKeys, key);
      if m != model {
        PutOther(cells, model, v, m);
        assert m in Keys(after) <==> m in Keys(cells);
        assert GetOr(after, m, NoAcc) == GetOr(cells, m, NoAcc);
      } else {
        assert GetOr(after, m, NoAcc) == v;
      }
  }

  lemma {:induction false} AddKeysExtends(cells: Dict<Acc>, model: string, groupKeys: Dict<KeyMetrics>,
                                         teamKeys: seq<string>, m: string)
    ensures Extends(cells, AddKeys(cells, model, groupKeys, teamKeys), m,
                    if m == model then KeyContrib(groupKeys, teamKeys) else NoContrib)
  {
    if teamKeys != [] {
      var init, key := teamKeys[..|teamKeys| - 1], teamKeys[|teamKeys| - 1];
      var prev := AddKeys(cells, model, groupKeys, init);
      AddKeysExtends(cells, model, groupKeys, init, m);
      AddKeyExtends(prev, model, groupKeys, key, m);
      ExtendsTrans(cells, prev, AddKey(prev, model, groupKeys, key), m,
                   if m == model then KeyContrib(groupKeys, init) else NoContrib,
                   if m == model then KeyHit(groupKeys, key) else NoContrib);
    }
  }

  /** What a day's model groups named `m` contribute through the team's keys. */
  function GroupContrib(groups: seq<(string, Usage)>, teamKeys: seq<string>, m: string): Contrib {
    if groups == [] then NoContrib
    else
      var g := groups[|groups| - 1];
      Plus(GroupContrib(groups[..|groups| - 1], teamKeys, m),
           if g.0 == m then KeyContrib(KeyBreakdown(g.1), teamKeys) else NoContrib)
  }

  lemma {:induction false} AddGroupsExtends(cells: Dict<Acc>, groups: seq<(string, Usage)>,
                                           teamKeys: seq<string>, m: string)
    ensures Extends(cells, AddGroups(cells, groups, teamKeys), m, GroupContrib(groups, teamKeys, m))
  {
    if groups != [] {
      var init := groups[..|groups| - 1];
      var g := groups[|groups| - 1];
      var prev := AddGroups(cells, init, teamKeys);
      AddGroupsExtends(cells, init, teamKeys, m);
      AddKeysExtends(prev, g.0, KeyBreakdown(g.1), teamKeys, m);
      ExtendsTrans(cells, prev, AddGroups(cells, groups, teamKeys), m, GroupContrib(init, teamKeys, m),
                   if g.0 == m then KeyContrib(KeyBreakdown(g.1), teamKeys) else NoContrib);
    }
  }

  /** What one day contributes to the cell (`n`, `m`): the teams named `n`,
      each through its own keys. */
  function DayContrib(dir: Directory, b: Breakdown, ids: seq<string>, n: string, m: string): Contrib {
    if ids == [] then NoContrib
    else
      var id := ids[|ids| - 1];
      Plus(DayContrib(dir, b, ids[..|ids| - 1], n, m),
           if NameOf(dir, id) == n then GroupContrib(ModelGroups(b), TeamKeys(b, id), m) else NoContrib)
  }

  lemma {:induction false} AddDayExtends(tmd: Dict<Dict<Acc>>, dir: Directory, b: Breakdown,
                                        ids: seq<string>, n: string, m: string)
    ensures Extends(GetOr(tmd, n, []), GetOr(AddDay(tmd, dir, b, ids), n, []), m, DayContrib(dir, b, ids, n, m))
  {
    if ids != [] {
      var init := ids[..|ids| - 1];
      var id := ids[|ids| - 1];
      var prev := AddDay(tmd, dir, b, init);
      AddDayExtends(tmd, dir, b, init, n, m);
      AddTeamEntry(prev, NameOf(dir, id), b, id, n);
      if NameOf(dir, id) == n {
        AddGroupsExtends(GetOr(prev, n, []), ModelGroups(b), TeamKeys(b, id), m);
        ExtendsTrans(GetOr(tmd, n, []), GetOr(prev, n, []), GetOr(AddDay(tmd, dir, b, ids), n, []), m,
                     DayContrib(dir, b, init, n, m), GroupContrib(ModelGroups(b), TeamKeys(b, id), m));
      } else {
        ExtendsTrans(GetOr(tmd, n, []), GetOr(prev, n, []), GetOr(AddDay(tmd, dir, b, ids), n, []), m,
                     DayContrib(dir, b, init, n, m), NoContrib);
      }
    }
  }

  /** What all days contribute to the cell (`n`, `m`). */
  function CostContrib(dir: Directory, days: seq<DailySpend>, n: string, m: string): Contrib {
    if days == [] then NoContrib
    else
      Plus(CostContrib(dir, days[..|days| - 1], n, m),
           DayContrib(dir, BreakdownOf(days[|days| - 1]), dir.ids, n, m))
  }

  lemma {:induction false} AddDaysExtends(tmd: Dict<Dict<Acc>>, dir: Directory, days: seq<DailySpend>,
                                         n: string, m: string)
    ensures Extends(GetOr(tmd, n, []), GetOr(AddDays(tmd, dir, days), n, []), m, CostContrib(dir, days, n, m))
  {
    if days != [] {
      var init := days[..|days| - 1];
      var prev := AddDays(tmd, dir, init);
      AddDaysExtends(tmd, dir, init, n, m);
      AddDayExtends(prev, dir, BreakdownOf(days[|days| - 1]), dir.ids, n, m);
      ExtendsTrans(GetOr(tmd, n, []), GetOr(prev, n, []), GetOr(AddDays(tmd, dir, days), n, []), m,
                   CostContrib(dir, init, n, m), DayContrib(dir, BreakdownOf(days[|days| - 1]), dir.ids, n, m));
    }
  }

  /** The accumulator of (`n`, `m`) exists exactly when some key
      intersection occurred (even one carrying no tokens or spend), and it
      holds the integer token sum and the spend sum of all of them. */
  lemma Accumulated(dir: Directory, days: seq<DailySpend>, n: string, m: string)
    ensures
      var cells := GetOr(TeamModelData(dir, days), n, []);
      var c := CostContrib(dir, days, n, m);
      && (m in Keys(cells) <==> c.hits > 0)
      && GetOr(cells, m, NoAcc) == Acc(c.tokens, c.cost)
  {
    AddDaysExtends([], dir, days, n, m);
  }

  lemma CellsMembership(tmd: seq<(string, Dict<Acc>)>, cell: CostCell)
    ensures cell in Cells(tmd) <==>
      exists i, j :: 0 <= i < |tmd| && 0 <= j < |tmd[i].1| && cell == MakeCell(tmd[i].0, tmd[i].1[j].0, tmd[i].1[j].1)
  {
    if cell in Cells(tmd) {
      CellsSound(tmd, cell);
    }
    if exists i, j :: 0 <= i < |tmd| && 0 <= j < |tmd[i].1| && cell == MakeCell(tmd[i].0, tmd[i].1[j].0, tmd[i].1[j].1) {
      var i, j :| 0 <= i < |tmd| && 0 <= j < |tmd[i].1| && cell == MakeCell(tmd[i].0, tmd[i].1[j].0, tmd[i].1[j].1);
      CellsComplete(tmd, i, j);
    }
  }

  lemma {:induction false} CellsSound(tmd: seq<(string, Dict<Acc>)>, cell: CostCell)
    requires cell in Cells(tmd)
    ensures exists i, j :: 0 <= i < |tmd| && 0 <= j < |tmd[i].1| && cell == MakeCell(tmd[i].0, tmd[i].1[j].0, tmd[i].1[j].1)
  {
    var init := tmd[..|tmd| - 1];
    var last := tmd[|tmd| - 1];
    if cell in Cells(init) {
      CellsSound(init, cell);
      var i, j :| 0 <= i < |init| && 0 <= j < |init[i].1| && cell == MakeCell(init[i].0, init[i].1[j].0, init[i].1[j].1);
      assert tmd[i] == init[i];
    } else {
      var j :| 0 <= j < |last.1| && ModelCells(last.0, last.1)[j] == cell;
      assert cell == MakeCell(tmd[|tmd| - 1].0, tmd[|tmd| - 1].1[j].0, tmd[|tmd| - 1].1[j].1);
    }
  }

  lemma {:induction false} CellsComplete(tmd: seq<(string, Dict<Acc>)>, i: nat, j: nat)
    requires i < |tmd| && j < |tmd[i].1|
    ensures MakeCell(tmd[i].0, tmd[i].1[j].0, tmd[i].1[j].1) in Cells(tmd)
  {
    var init := tmd[..|tmd| - 1];
    var last := tmd[|tmd| - 1];
    if i < |init| {
      assert tmd[i] == init[i];
      CellsComplete(init, i, j);
    } else {
      assert ModelCells(last.0, last.1)[j] == MakeCell(tmd[i].0, tmd[i].1[j].0, tmd[i].1[j].1);
    }
  }

  /** A cell of the result reports the accumulator of its own team and model. */
  lemma CellIdentifies(tmd: Dict<Dict<Acc>>, cell: CostCell)
    requires cell in Cells(tmd)
    ensures cell.model in Keys(GetOr(tmd, cell.team, []))
    ensures cell == MakeCell(cell.team, cell.model, GetOr(GetOr(tmd, cell.team, []), cell.model, NoAcc))
  {
    CellsSound(tmd, cell);
    var i, j :| 0 <= i < |tmd| && 0 <= j < |tmd[i].1| && cell == MakeCell(tmd[i].0, tmd[i].1[j].0, tmd[i].1[j].1);
    GetAt(tmd, i);
    GetAt(tmd[i].1, j);
    assert Keys(tmd[i].1)[j] == cell.model;
  }

  /** Every accumulator of the result becomes a cell. */
  lemma CellPresent(tmd: Dict<Dict<Acc>>, n: string, m: string)
    requires m in Keys(GetOr(tmd, n, []))
    ensures MakeCell(n, m, GetOr(GetOr(tmd, n, []), m, NoAcc)) in Cells(tmd)
  {
    var i := IndexOf(tmd, n);
    GetAt(tmd, i);
    var j := IndexOf(tmd[i].1, m);
    GetAt(tmd[i].1, j);
    CellsComplete(tmd, i, j);
  }

  /** The result has a cell for team `n` and model `m` exactly when some
      key of a team named `n` appeared in the breakdown of a group named `m`
      on some day (no zero-filled cross product), and that cell reports the
      summed tokens, the summed spend rounded to 4 places and the guarded
      cost per 1000 tokens. */
  lemma CellForTeamAndModel(dir: Directory, days: seq<DailySpend>, n: string, m: string)
    ensures
      var cells := Cells(TeamModelData(dir, days));
      var c := CostContrib(dir, days, n, m);
      && (c.hits > 0 <==> exists cell :: cell in cells && cell.team == n && cell.model == m)
      && forall cell :: cell in cells && cell.team == n && cell.model == m ==>
           cell == MakeCell(n, m, Acc(c.tokens, c.cost))
  {
    var tmd := TeamModelData(dir, days);
    var c := CostContrib(dir, days, n, m);
    Accumulated(dir, days, n, m);
    forall cell | cell in Cells(tmd) && cell.team == n && cell.model == m
      ensures cell == MakeCell(n, m, Acc(c.tokens, c.cost)) && c.hits > 0
    {
      CellIdentifies(tmd, cell);
    }
    if c.hits > 0 {
      CellPresent(tmd, n, m);
    }
  }

  /** No upstream days give no cells. */
  lemma EmptyResults(dir: Directory)
    ensures Cells(TeamModelData(dir, [])) == []
  {
  }

  /** The zero guard: no tokens means a 0.0 cost per 1000 tokens. */
  lemma Per1kWithoutTokens(cost: real)
    ensures Per1k(Acc(0, cost)) == 0.0
  {
    RoundExact(0.0, 4, 0);
  }

  /** 0.30 spent on 1000 tokens is 0.3 per 1000 tokens. */
  lemma Per1kExample()
    ensures Per1k(Acc(1000, 0.30)) == 0.3
  {
    assert 0.30 / 1000.0 * 1000.0 == 0.3;
    assert Pow10(4) == 10000;
    RoundExact(0.3, 4, 3000);
  }
}
