/** ModelUsageService: tokens summed per model display name over all days,
    zero totals dropped, sorted by tokens descending with ties kept in
    first-seen order. */
module ModelUsage {
  import opened Wrappers
  import opened Dicts
  import opened Activity
  import opened Fetch

  // ---------------------------------------------------------------------
  // The `model_totals` fold
  // ---------------------------------------------------------------------

  /** One day's `breakdown.models`, each model's `total_tokens` added to its
      display name (`get_display_name`, given as `display`). */
  function AddModels(totals: Dict<nat>, display: string -> string, models: seq<(string, Usage)>): Dict<nat> {
    if models == [] then totals
    else AddModel(AddModels(totals, display, models[..|models| - 1]), display, models[|models| - 1])
  }

  /** `model_totals[display_name] = model_totals.get(display_name, 0) + total_tokens`. */
  function AddModel(totals: Dict<nat>, display: string -> string, m: (string, Usage)): Dict<nat> {
    var n := display(m.0);
    Put<nat>(totals, n, GetOr<nat>(totals, n, 0) + m.1.metrics.totalTokens)
  }

  lemma AddModelsStep(totals: Dict<nat>, display: string -> string, models: seq<(string, Usage)>, k: nat)
    requires k < |models|
    ensures AddModels(totals, display, models[..k + 1]) == AddModel(AddModels(totals, display, models[..k]), display, models[k])
  {
    assert models[..k + 1][..k] == models[..k];
  }

  lemma AddDaysStep(totals: Dict<nat>, display: string -> string, days: seq<DailySpend>, i: nat)
    requires i < |days|
    ensures AddDays(totals, display, days[..i + 1])
         == AddModels(AddDays(totals, display, days[..i]), display, Models(BreakdownOf(days[i])))
  {
    assert days[..i + 1][..i] == days[..i];
  }

  function AddDays(totals: Dict<nat>, display: string -> string, days: seq<DailySpend>): Dict<nat> {
    if days == [] then totals
    else AddModels(AddDays(totals, display, days[..|days| - 1]), display, Models(BreakdownOf(days[|days| - 1])))
  }

  function ModelTotals(display: string -> string, days: seq<DailySpend>): Dict<nat> {
    AddDays([], display, days)
  }

  /** `fetch_model_usage`: the fetch's failure propagates unchanged. */
  method FetchModelUsage(display: string -> string, fetched: Result<seq<DailySpend>, Failure>)
      returns (r: Result<seq<(string, nat)>, Failure>)
    ensures fetched.Failure? ==> r == Failure(fetched.error)
    ensures fetched.Success? ==> r == Success(Sort(Positive(ModelTotals(display, fetched.value))))
  {
    if fetched.Failure? {
      return Failure(fetched.error);
    }
    var totals := AccumulateDays(display, fetched.value);
    r := Success(Sort(Positive(totals)));
  }

  /** The loop over the days. */
  method AccumulateDays(display: string -> string, days: seq<DailySpend>) returns (totals: Dict<nat>)
    ensures totals == ModelTotals(display, days)
  {
    totals := [];
    var i := 0;
    while i < |days|
      invariant 0 <= i <= |days|
      invariant totals == AddDays([], display, days[..i])
    {
      AddDaysStep([], display, days, i);
      totals := AccumulateModels(totals, display, Models(BreakdownOf(days[i])));
      i := i + 1;
    }
    assert days[..|days|] == days;
  }

  /** The loop over one day's models. */
  method AccumulateModels(totals0: Dict<nat>, display: string -> string, models: seq<(string, Usage)>) returns (totals: Dict<nat>)
    ensures totals == AddModels(totals0, display, models)
  {
    totals := totals0;
    var k := 0;
    while k < |models|
      invariant 0 <= k <= |models|
      invariant totals == AddModels(totals0, display, models[..k])
    {
      AddModelsStep(totals0, display, models, k);
      totals := AddModel(totals, display, models[k]);
      k := k + 1;
    }
    assert models[..|models|] == models;
  }

  /** The display names of one day's models, in order. */
  function MappedNames(display: string -> string, models: seq<(string, Usage)>): (ns: seq<string>)
    ensures |ns| == |models|
  {
    if models == [] then []
    else MappedNames(display, models[..|models| - 1]) + [display(models[|models| - 1].0)]
  }

  /** The display names of all days' models, day by day. */
  function SeenNames(display: string -> string, days: seq<DailySpend>): seq<string> {
    if days == [] then []
    else SeenNames(display, days[..|days| - 1]) + MappedNames(display, Models(BreakdownOf(days[|days| - 1])))
  }

  /** `total_tokens` summed over one day's models shown as `name`. */
  function NameSum(display: string -> string, models: seq<(string, Usage)>, name: string): nat {
    if models == [] then 0
    else
      var m := models[|models| - 1];
      NameSum(display, models[..|models| - 1], name) + (if display(m.0) == name then m.1.metrics.totalTokens else 0)
  }

  function DaysSum(display: string -> string, days: seq<DailySpend>, name: string): nat {
    if days == [] then 0
    else DaysSum(display, days[..|days| - 1], name) + NameSum(display, Models(BreakdownOf(days[|days| - 1])), name)
  }

  lemma {:induction false} AddModelsKeys(totals: Dict<nat>, display: string -> string, models: seq<(string, Usage)>)
    ensures Keys(AddModels(totals, display, models)) == Dedup(Keys(totals) + MappedNames(display, models))
  {
    var all := Keys(totals) + MappedNames(display, models);
    if models == [] {
      assert all == Keys(totals);
      DedupOfDistinct(Keys(totals));
    } else {
      var init := models[..|models| - 1];
      var m := models[|models| - 1];
      var n := display(m.0);
      var before := Keys(totals) + MappedNames(display, init);
      AddModelsKeys(totals, display, init);
      assert all == before + [n];
      var prev := AddModels(totals, display, init);
      PutDedup<nat>(prev, before, n, GetOr<nat>(prev, n, 0) + m.1.metrics.totalTokens);
    }
  }

  lemma AddModelSum(totals: Dict<nat>, display: string -> string, m: (string, Usage), name: string)
    ensures GetOr<nat>(AddModel(totals, display, m), name, 0)
         == GetOr<nat>(totals, name, 0) + (if display(m.0) == name then m.1.metrics.totalTokens else 0)
  {
    AddToEntry(totals, display(m.0), m.1.metrics.totalTokens, name);
  }

  /** Adding `t` to the entry of `n` adds `t` to that entry only. */
  lemma AddToEntry(d: Dict<nat>, n: string, t: nat, name: string)
    ensures GetOr<nat>(Put<nat>(d, n, GetOr<nat>(d, n, 0) + t), name, 0) == GetOr<nat>(d, name, 0) + (if n == name then t else 0)
  {
    var sum: nat := GetOr<nat>(d, n, 0) + t;
    if n == name {
      assert Get(Put<nat>(d, n, sum), n) == Some(sum);
    } else {
      PutOther<nat>(d, n, sum, name);
    }
  }

  lemma {:induction false} AddModelsSum(totals: Dict<nat>, display: string -> string,
                                       models: seq<(string, Usage)>, name: string)
    ensures GetOr<nat>(AddModels(totals, display, models), name, 0) == GetOr<nat>(totals, name, 0) + NameSum(display, models, name)
  {
    if models != [] {
      var init := models[..|models| - 1];
      AddModelsSum(totals, display, init, name);
      AddModelSum(AddModels(totals, display, init), display, models[|models| - 1], name);
    }
  }

  lemma {:induction false} AddDaysContents(display: string -> string, days: seq<DailySpend>, name: string)
    ensures Keys(ModelTotals(display, days)) == Dedup(SeenNames(display, days))
    ensures GetOr<nat>(ModelTotals(display, days), name, 0) == DaysSum(display, days, name)
  {
    if days != [] {
      var init := days[..|days| - 1];
      var models := Models(BreakdownOf(days[|days| - 1]));
      AddDaysContents(display, init, name);
      AddModelsKeys(ModelTotals(display, init), display, models);
      AddModelsSum(ModelTotals(display, init), display, models, name);
      DedupConcat(SeenNames(display, init), MappedNames(display, models));
    }
  }

  /** The accumulated totals: one entry per display name seen, in
      first-seen order, holding the sum over days and over the models shown
      under that name (several internal names accumulating into one). */
  lemma ModelTotalsContents(display: string -> string, days: seq<DailySpend>)
    ensures Keys(ModelTotals(display, days)) == Dedup(SeenNames(display, days))
    ensures forall p :: p in ModelTotals(display, days) ==> p.1 == DaysSum(display, days, p.0)
  {
    AddDaysContents(display, days, "");
    var totals := ModelTotals(display, days);
    forall p | p in totals ensures p.1 == DaysSum(display, days, p.0) {
      var i :| 0 <= i < |totals| && totals[i] == p;
      GetAt(totals, i);
      AddDaysContents(display, days, p.0);
    }
  }

  // ---------------------------------------------------------------------
  // The zero filter and the descending stable sort
  // ---------------------------------------------------------------------

  /** `{name: tokens for name, tokens in totals if tokens > 0}`. */
  function Positive(s: seq<(string, nat)>): (r: seq<(string, nat)>)
    ensures forall p :: p in r <==> p in s && p.1 > 0
  {
    if s == [] then [] else (if s[0].1 > 0 then [s[0]] else []) + Positive(s[1..])
  }

  /** `x` placed before the first entry with at most its tokens. */
  function Insert(x: (string, nat), s: seq<(string, nat)>): seq<(string, nat)> {
    if s == [] then [x]
    else if s[0].1 <= x.1 then [x] + s
    else [s[0]] + Insert(x, s[1..])
  }

  /** `sorted(items, key=tokens, reverse=True)`, stable. */
  function Sort(s: seq<(string, nat)>): seq<(string, nat)> {
    if s == [] then [] else Insert(s[0], Sort(s[1..]))
  }

  predicate NonIncreasing(s: seq<(string, nat)>) {
    forall i, j :: 0 <= i < j < |s| ==> s[i].1 >= s[j].1
  }

  /** The entries with exactly `v` tokens, in order. */
  function WithTokens(s: seq<(string, nat)>, v: nat): seq<(string, nat)> {
    if s == [] then [] else (if s[0].1 == v then [s[0]] else []) + WithTokens(s[1..], v)
  }

  lemma {:induction false} InsertMembers(x: (string, nat), s: seq<(string, nat)>)
    ensures forall p :: p in Insert(x, s) <==> p == x || p in s
  {
    if s != [] && s[0].1 > x.1 {
      InsertMembers(x, s[1..]);
      assert s == [s[0]] + s[1..];
    }
  }

  lemma {:induction false} InsertPermutes(x: (string, nat), s: seq<(string, nat)>)
    ensures multiset(Insert(x, s)) == multiset(s) + multiset{x}
  {
    if s != [] && s[0].1 > x.1 {
      var t := Insert(x, s[1..]);
      InsertPermutes(x, s[1..]);
      assert Insert(x, s) == [s[0]] + t;
      assert multiset([s[0]] + t) == multiset{s[0]} + multiset(t);
      assert s == [s[0]] + s[1..];
      assert multiset(s) == multiset{s[0]} + multiset(s[1..]);
    } else {
      assert Insert(x, s) == [x] + s;
      assert multiset([x] + s) == multiset{x} + multiset(s);
    }
  }

  lemma {:induction false} InsertSorted(x: (string, nat), s: seq<(string, nat)>)
    requires NonIncreasing(s)
    ensures NonIncreasing(Insert(x, s))
  {
    if s != [] && s[0].1 > x.1 {
      var t := Insert(x, s[1..]);
      InsertSorted(x, s[1..]);
      InsertMembers(x, s[1..]);
      forall p | p in t ensures p.1 <= s[0].1 {
        if p != x {
          var k :| 0 <= k < |s[1..]| && s[1..][k] == p;
          assert s[k + 1] == p;
        }
      }
      ConsSorted(s[0], t);
    }
  }

  lemma ConsSorted(h: (string, nat), t: seq<(string, nat)>)
    requires NonIncreasing(t)
    requires forall p :: p in t ==> p.1 <= h.1
    ensures NonIncreasing([h] + t)
  {
    var r := [h] + t;
    forall i, j | 0 <= i < j < |r| ensures r[i].1 >= r[j].1 {
      assert r[j] == t[j - 1] && r[j] in t;
      if i > 0 {
        assert r[i] == t[i - 1];
      }
    }
  }

  /** The sort orders by tokens, non-increasing. */
  lemma {:induction false} SortSorted(s: seq<(string, nat)>)
    ensures NonIncreasing(Sort(s))
  {
    if s != [] {
      SortSorted(s[1..]);
      InsertSorted(s[0], Sort(s[1..]));
    }
  }

  /** The sort is a permutation. */
  lemma {:induction false} SortPermutes(s: seq<(string, nat)>)
    ensures multiset(Sort(s)) == multiset(s)
  {
    if s != [] {
      SortPermutes(s[1..]);
      InsertPermutes(s[0], Sort(s[1..]));
      assert s == [s[0]] + s[1..];
    }
  }

  lemma {:induction false} SortMembers(s: seq<(string, nat)>)
    ensures forall p :: p in Sort(s) <==> p in s
  {
    if s != [] {
      SortMembers(s[1..]);
      InsertMembers(s[0], Sort(s[1..]));
      assert s == [s[0]] + s[1..];
    }
  }

  lemma {:induction false} InsertStable(x: (string, nat), s: seq<(string, nat)>, v: nat)
    ensures WithTokens(Insert(x, s), v) == (if x.1 == v then [x] else []) + WithTokens(s, v)
  {
    if s != [] && s[0].1 > x.1 {
      InsertStable(x, s[1..], v);
      assert ([s[0]] + Insert(x, s[1..]))[1..] == Insert(x, s[1..]);
    } else if s != [] {
      assert ([x] + s)[1..] == s;
    }
  }

  /** The sort is stable: the entries with any one token count keep their
      relative order. */
  lemma {:induction false} SortStable(s: seq<(string, nat)>, v: nat)
    ensures WithTokens(Sort(s), v) == WithTokens(s, v)
  {
    if s != [] {
      SortStable(s[1..], v);
      InsertStable(s[0], Sort(s[1..]), v);
    }
  }

  /** What `fetch_model_usage` returns: exactly the display names with a
      positive total, each with that total, ordered by tokens non-increasing,
      ties in first-seen order, each name once. */
  lemma ModelUsageContents(display: string -> string, days: seq<DailySpend>)
    ensures
      var totals := ModelTotals(display, days);
      var r := Sort(Positive(totals));
      && (forall p :: p in r <==> p.0 in SeenNames(display, days) && p.1 == DaysSum(display, days, p.0) && p.1 > 0)
      && NonIncreasing(r)
      && (forall v :: WithTokens(r, v) == WithTokens(Positive(totals), v))
      && DistinctKeys(r)
  {
    var totals := ModelTotals(display, days);
    var pos := Positive(totals);
    var r := Sort(pos);
    ModelTotalsContents(display, days);
    SortSorted(pos);
    SortMembers(pos);
    forall v ensures WithTokens(r, v) == WithTokens(pos, v) {
      SortStable(pos, v);
    }
    forall p ensures p in r <==> p.0 in SeenNames(display, days) && p.1 == DaysSum(display, days, p.0) && p.1 > 0 {
      if p.0 in SeenNames(display, days) {
        assert p.0 in Keys(totals);
        var i := IndexOf(totals, p.0);
        GetAt(totals, i);
        AddDaysContents(display, days, p.0);
        if p in totals {
          var k :| 0 <= k < |totals| && totals[k] == p;
          IndexOfDistinct(totals, k);
        }
      }
    }
    PositiveDistinct(totals);
    SortDistinct(pos);
  }

  lemma {:induction false} PositiveDistinct(s: seq<(string, nat)>)
    requires DistinctKeys(s)
    ensures DistinctKeys(Positive(s))
  {
    if s != [] {
      PositiveDistinct(s[1..]);
      forall p | p in Positive(s[1..]) ensures p.0 != s[0].0 {
        var k :| 0 <= k < |s[1..]| && s[1..][k] == p;
        assert s[k + 1] == p;
      }
    }
  }

  /** Sorting keeps the keys distinct. */
  lemma {:induction false} SortDistinct(s: seq<(string, nat)>)
    requires DistinctKeys(s)
    ensures DistinctKeys(Sort(s))
  {
    if s != [] {
      SortDistinct(s[1..]);
      SortMembers(s[1..]);
      var t := Sort(s[1..]);
      forall p | p in t ensures p.0 != s[0].0 {
        var k :| 0 <= k < |s[1..]| && s[1..][k] == p;
        assert s[k + 1] == p;
      }
      InsertDistinct(s[0], t);
    }
  }

  lemma {:induction false} InsertDistinct(x: (string, nat), s: seq<(string, nat)>)
    requires DistinctKeys(s)
    requires forall p :: p in s ==> p.0 != x.0
    ensures DistinctKeys(Insert(x, s))
  {
    if s != [] && s[0].1 > x.1 {
      var t := Insert(x, s[1..]);
      assert forall p :: p in s[1..] ==> p in s;
      InsertDistinct(x, s[1..]);
      InsertMembers(x, s[1..]);
      forall p | p in t ensures p.0 != s[0].0 {
        if p != x {
          var k :| 0 <= k < |s[1..]| && s[1..][k] == p;
          assert s[k + 1] == p;
        }
      }
      ConsDistinct(s[0], t);
    } else if s != [] {
      ConsDistinct(x, s);
    }
  }

  lemma ConsDistinct(h: (string, nat), t: seq<(string, nat)>)
    requires DistinctKeys(t)
    requires forall p :: p in t ==> p.0 != h.0
    ensures DistinctKeys([h] + t)
  {
    var r := [h] + t;
    forall i, j | 0 <= i < j < |r| ensures r[i].0 != r[j].0 {
      assert r[j] == t[j - 1] && r[j] in t;
      if i > 0 {
        assert r[i] == t[i - 1];
      }
    }
  }
}
