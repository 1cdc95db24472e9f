/** The upstream "daily activity" document, as the client's response models
    shape it: one `DailySpend` per day, each with an optional breakdown tree
    of entities (teams), model groups, models and API keys. Every counter
    absent upstream is 0; every optional map absent upstream (or null) is
    read as empty. */
module Activity {
  import opened Wrappers
  import opened Dicts

  /** SpendMetrics: all fields default to 0. */
  datatype SpendMetrics = SpendMetrics(
    spend: real,
    promptTokens: nat,
    completionTokens: nat,
    cacheReadInputTokens: nat,
    cacheCreationInputTokens: nat,
    totalTokens: nat,
    successfulRequests: nat,
    failedRequests: nat,
    apiRequests: nat)

  /** The metrics of a record whose `metrics` are absent or empty. */
  const NoMetrics := SpendMetrics(0.0, 0, 0, 0, 0, 0, 0, 0, 0)

  /** KeyMetricWithMetadata: one API key's metrics; `keyAlias` is
      `metadata.key_alias`, None when the metadata or the alias is absent. */
  datatype KeyMetrics = KeyMetrics(metrics: SpendMetrics, keyAlias: Option<string>)

  /** MetricWithMetadata: the metrics of an entity, model or model group,
      and which API keys contributed to them. */
  datatype Usage = Usage(metrics: SpendMetrics, apiKeyBreakdown: Option<Dict<KeyMetrics>>)

  /** BreakdownMetrics (the dimensions the services read). */
  datatype Breakdown = Breakdown(
    models: Option<Dict<Usage>>,
    modelGroups: Option<Dict<Usage>>,
    apiKeys: Option<Dict<KeyMetrics>>,
    entities: Option<Dict<Usage>>)

  const EmptyBreakdown := Breakdown(None, None, None, None)

  /** DailySpendData: one entry of the document's `results`. */
  datatype DailySpend = DailySpend(date: string, metrics: SpendMetrics, breakdown: Option<Breakdown>)

  function BreakdownOf(e: DailySpend): Breakdown {
    e.breakdown.GetOr(EmptyBreakdown)
  }

  function Entities(b: Breakdown): Dict<Usage> {
    b.entities.GetOr([])
  }

  function ModelGroups(b: Breakdown): Dict<Usage> {
    b.modelGroups.GetOr([])
  }

  function Models(b: Breakdown): Dict<Usage> {
    b.models.GetOr([])
  }

  function ApiKeys(b: Breakdown): Dict<KeyMetrics> {
    b.apiKeys.GetOr([])
  }

  function KeyBreakdown(u: Usage): Dict<KeyMetrics> {
    u.apiKeyBreakdown.GetOr([])
  }

  /** `entities.get(team_id, {}).get("metrics", {})`, with absent counters 0. */
  function EntityMetrics(b: Breakdown, teamId: string): (m: SpendMetrics)
    ensures teamId !in Keys(Entities(b)) ==> m == NoMetrics
    ensures teamId in Keys(Entities(b)) ==>
      m == Entities(b)[IndexOf(Entities(b), teamId)].1.metrics
  {
    match Get(Entities(b), teamId)
    case Some(u) => u.metrics
    case None => NoMetrics
  }

  /** The request and token counters the services read from an entity. */
  datatype Counter = TotalTokens | ApiRequests | SuccessfulRequests | FailedRequests

  function Read(m: SpendMetrics, c: Counter): nat {
    match c
    case TotalTokens => m.totalTokens
    case ApiRequests => m.apiRequests
    case SuccessfulRequests => m.successfulRequests
    case FailedRequests => m.failedRequests
  }
}

/** The one failure path of every service: the upstream fetch raising.
    Three services re-raise a `RuntimeError` with their own prefix and the
    part of the message after its first ": ". */
module Fetch {
  import opened Wrappers

  datatype Failure =
    | RuntimeError(message: string)
    | ValueError(message: string)
    /** `str(e).split(": ", 1)[1]` on a message without ": " */
    | IndexError
    /** an attribute looked up on `None` */
    | AttributeError

  const TokenUsagePrefix := "Error fetching team token usage: "
  const TeamDataPrefix := "Error fetching team data: "

  predicate SeparatorAt(s: string, i: int) {
    0 <= i && i + 1 < |s| && s[i] == ':' && s[i + 1] == ' '
  }

  /** Position of the first ": " in `s`, if any. */
  function FindSeparator(s: string, from: nat): (r: Option<nat>)
    requires from <= |s|
    decreases |s| - from
    ensures r.Some? ==>
      && from <= r.value && SeparatorAt(s, r.value)
      && forall j :: from <= j < r.value ==> !SeparatorAt(s, j)
    ensures r.None? ==> forall j :: from <= j < |s| ==> !SeparatorAt(s, j)
  {
    if from + 1 >= |s| then None
    else if SeparatorAt(s, from) then Some(from)
    else FindSeparator(s, from + 1)
  }

  /** What `except RuntimeError as e: raise RuntimeError(prefix + str(e).split(": ", 1)[1])`
      raises; any other exception passes through unchanged. */
  function Rewrite(prefix: string, e: Failure): (r: Failure)
    ensures !e.RuntimeError? ==> r == e
    ensures e.RuntimeError? ==>
      (r == IndexError <==> forall j :: 0 <= j < |e.message| ==> !SeparatorAt(e.message, j))
    ensures e.RuntimeError? && r != IndexError ==>
      exists i :: && SeparatorAt(e.message, i)
                  && (forall j :: 0 <= j < i ==> !SeparatorAt(e.message, j))
                  && r == RuntimeError(prefix + e.message[i + 2..])
  {
    match e
    case RuntimeError(m) =>
      (match FindSeparator(m, 0)
       case Some(i) => RuntimeError(prefix + m[i + 2..])
       case None => IndexError)
    case _ => e
  }

  /** The rewrite keeps exactly the text after the first ": ". */
  lemma RewriteKeepsTail(prefix: string, head: string, tail: string)
    requires forall j :: !SeparatorAt(head, j)
    ensures Rewrite(prefix, RuntimeError(head + ": " + tail)) == RuntimeError(prefix + tail)
  {
    var m := head + ": " + tail;
    assert SeparatorAt(m, |head|);
    forall j | 0 <= j < |head| ensures !SeparatorAt(m, j) {
      assert m[j] == head[j];
      if j + 1 < |head| {
        assert m[j + 1] == head[j + 1];
        assert !SeparatorAt(head, j);
      } else {
        assert m[j + 1] == ':';
      }
    }
    var r := FindSeparator(m, 0);
    assert r == Some(|head|);
    assert m[|head| + 2..] == tail;
  }

  /** A message with no ": " makes the rewrite itself fail. */
  lemma RewriteWithoutSeparator(prefix: string, m: string)
    requires forall j :: 0 <= j < |m| ==> !SeparatorAt(m, j)
    ensures Rewrite(prefix, RuntimeError(m)) == IndexError
  {
  }

  lemma ExampleHeadHasNoSeparator()
    ensures forall j :: !SeparatorAt("External API error", j)
  {
    var head := "External API error";
    assert ':' !in head;
  }

  /** The message the tests pin down: "External API error: Connection failed". */
  lemma RewriteExample(head: string, tail: string)
    requires head == "External API error" && tail == "Connection failed"
    ensures Rewrite(TokenUsagePrefix, RuntimeError(head + ": " + tail))
         == RuntimeError(TokenUsagePrefix + "Connection failed")
  {
    ExampleHeadHasNoSeparator();
    RewriteKeepsTail(TokenUsagePrefix, head, tail);
  }
}
