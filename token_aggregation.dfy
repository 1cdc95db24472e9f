/** TokenAggregationService: per team name, the total tokens over all days
    and a drill-down by API key and model group, merged day by day. */
module TokenAggregation {
  import opened Wrappers
  import opened Dicts
  import opened Activity
  import opened Fetch
  import opened Teams

  /** One `{"model_name", "total_tokens", "prompt_tokens", "completion_tokens"}` entry. */
  datatype ModelEntry = ModelEntry(modelName: string, totalTokens: nat, promptTokens: nat, completionTokens: nat)

  /** One `{"api_key", "key_alias"?, "models"}` entry; `keyAlias` is None
      when the entry has no `key_alias`. */
  datatype KeyEntry = KeyEntry(apiKey: string, keyAlias: Option<string>, models: seq<ModelEntry>)

  /** One `team_data[name]`: `total_tokens` and `breakdown["api_keys"]`. */
  datatype TeamTotal = TeamTotal(totalTokens: nat, apiKeys: seq<KeyEntry>)

  const AllModels := "All Models"

  function EntryOf(name: string, m: SpendMetrics): ModelEntry {
    ModelEntry(name, m.totalTokens, m.promptTokens, m.completionTokens)
  }

  // ---------------------------------------------------------------------
  // _extract_breakdown
  // ---------------------------------------------------------------------

  /** The entries the model groups contribute to `key`: one per group whose
      `api_key_breakdown` lists the key, in group order. */
  function GroupModels(groups: seq<(string, Usage)>, key: string): seq<ModelEntry> {
    if groups == [] then []
    else
      GroupModels(groups[..|groups| - 1], key) + GroupHit(groups[|groups| - 1], key)
  }

  /** The entry one model group contributes for `key`: one when the group's
      breakdown lists the key, none otherwise. */
  function GroupHit(g: (string, Usage), key: string): seq<ModelEntry> {
    match Get(KeyBreakdown(g.1), key)
    case Some(km) => [EntryOf(g.0, km.metrics)]
    case None => []
  }

  lemma GroupModelsStep(groups: seq<(string, Usage)>, g: nat, key: string)
    requires g < |groups|
    ensures GroupModels(groups[..g + 1], key) == GroupModels(groups[..g], key) + GroupHit(groups[g], key)
  {
    assert groups[..g + 1][..g] == groups[..g];
  }

  /** `key_alias` from the top-level `api_keys` metadata, kept only when truthy. */
  function TruthyAlias(topKeys: Dict<KeyMetrics>, key: string): Option<string> {
    match Get(topKeys, key)
    case Some(km) => if km.keyAlias.Some? && km.keyAlias.value != "" then km.keyAlias else None
    case None => None
  }

  /** The entity's own metrics for `key`: the `"All Models"` fallback. */
  function KeyTotals(entity: Usage, key: string): SpendMetrics {
    match Get(KeyBreakdown(entity), key)
    case Some(km) => km.metrics
    case None => NoMetrics
  }

  function KeyEntryFor(entity: Usage, top: Breakdown, key: string): KeyEntry {
    var models := GroupModels(ModelGroups(top), key);
    KeyEntry(key, TruthyAlias(ApiKeys(top), key),
             if models != [] then models else [EntryOf(AllModels, KeyTotals(entity, key))])
  }

  function KeyEntries(entity: Usage, top: Breakdown, keys: seq<string>): (es: seq<KeyEntry>)
    ensures |es| == |keys|
    ensures forall i :: 0 <= i < |keys| ==> es[i] == KeyEntryFor(entity, top, keys[i])
  {
    if keys == [] then []
    else KeyEntries(entity, top, keys[..|keys| - 1]) + [KeyEntryFor(entity, top, keys[|keys| - 1])]
  }

  lemma KeyEntriesStep(entity: Usage, top: Breakdown, keys: seq<string>, i: nat)
    requires i < |keys|
    ensures KeyEntries(entity, top, keys[..i + 1]) == KeyEntries(entity, top, keys[..i]) + [KeyEntryFor(entity, top, keys[i])]
  {
    assert keys[..i + 1][..i] == keys[..i];
  }

  /** The breakdown of one entity on one day: one entry per key of its
      `api_key_breakdown`, in that order. */
  function Extract(entity: Usage, top: Breakdown): seq<KeyEntry> {
    KeyEntries(entity, top, Keys(KeyBreakdown(entity)))
  }

  /** `_extract_breakdown`. `api_key_models` is kept as one list per entity
      key, position by position, since those keys are distinct. */
  method ExtractBreakdown(entity: Usage, top: Breakdown) returns (r: seq<KeyEntry>)
    ensures r == Extract(entity, top)
  {
    var keys := Keys(KeyBreakdown(entity));
    var lists := CollectGroupModels(keys, ModelGroups(top));
    r := [];
    var topKeys := ApiKeys(top);
    var i := 0;
    while i < |keys|
      invariant 0 <= i <= |keys|
      invariant r == KeyEntries(entity, top, keys[..i])
    {
      KeyEntriesStep(entity, top, keys, i);
      var entry := ExtractKey(entity, topKeys, keys[i], lists[i]);
      assert entry == KeyEntryFor(entity, top, keys[i]);
      r := r + [entry];
      i := i + 1;
    }
    assert keys[..|keys|] == keys;
  }

  /** The body of the key loop: the truthy alias, and the group entries or
      else the `"All Models"` fallback. */
  method ExtractKey(entity: Usage, topKeys: Dict<KeyMetrics>, key: string, models: seq<ModelEntry>)
      returns (entry: KeyEntry)
    ensures entry.apiKey == key && entry.keyAlias == TruthyAlias(topKeys, key)
    ensures entry.models == if models != [] then models else [EntryOf(AllModels, KeyTotals(entity, key))]
  {
    var alias := match Get(topKeys, key) case Some(km) => km.keyAlias case None => None;
    var kept := if alias.Some? && alias.value != "" then alias else None;
    if models != [] {
      entry := KeyEntry(key, kept, models);
    } else {
      var metrics := match Get(KeyBreakdown(entity), key) case Some(km) => km.metrics case None => NoMetrics;
      entry := KeyEntry(key, kept, [EntryOf(AllModels, metrics)]);
    }
  }

  /** The loop over the model groups and, inside, the team's keys. */
  method CollectGroupModels(keys: seq<string>, groups: Dict<Usage>) returns (lists: seq<seq<ModelEntry>>)
    ensures |lists| == |keys|
    ensures forall i :: 0 <= i < |keys| ==> lists[i] == GroupModels(groups, keys[i])
  {
    lists := seq(|keys|, _ => []);
    var g := 0;
    while g < |groups|
      invariant 0 <= g <= |groups|
      invariant |lists| == |keys|
      invariant forall i :: 0 <= i < |keys| ==> lists[i] == GroupModels(groups[..g], keys[i])
    {
      var modelName := groups[g].0;
      var akb := KeyBreakdown(groups[g].1);
      var i := 0;
      while i < |keys|
        invariant 0 <= i <= |keys|
        invariant |lists| == |keys|
        invariant forall k :: 0 <= k < i ==>
          lists[k] == GroupModels(groups[..g], keys[k]) + GroupHit(groups[g], keys[k])
        invariant forall k :: i <= k < |keys| ==> lists[k] == GroupModels(groups[..g], keys[k])
      {
        var hit := Get(akb, keys[i]);
        if hit.Some? {
          lists := lists[i := lists[i] + [EntryOf(modelName, hit.value.metrics)]];
        }
        i := i + 1;
      }
      forall k | 0 <= k < |keys| ensures lists[k] == GroupModels(groups[..g + 1], keys[k]) {
        GroupModelsStep(groups, g, keys[k]);
      }
      g := g + 1;
    }
    assert groups[..|groups|] == groups;
  }

  function ModelNames(ms: seq<ModelEntry>): (ns: seq<string>)
    ensures |ns| == |ms|
    ensures forall j :: 0 <= j < |ms| ==> ns[j] == ms[j].modelName
  {
    seq(|ms|, j requires 0 <= j < |ms| => ms[j].modelName)
  }

  /** `key` appears in the breakdown of the group called `name`. */
  predicate GroupListsKey(groups: seq<(string, Usage)>, name: string, key: string) {
    name in Keys(groups) && key in Keys(KeyBreakdown(Get(groups, name).value))
  }

  /** The group entries for a key are exactly the groups listing the key,
      each carrying that group's total, prompt and completion tokens for the
      key (zero when absent, zeros kept). */
  lemma {:induction false} GroupModelsContents(groups: seq<(string, Usage)>, key: string, name: string)
    requires DistinctKeys(groups)
    ensures name in ModelNames(GroupModels(groups, key)) <==> GroupListsKey(groups, name, key)
    ensures forall e :: e in GroupModels(groups, key) && e.modelName == name ==>
      e == EntryOf(name, Get(KeyBreakdown(Get(groups, name).value), key).value.metrics)
  {
    if groups != [] {
      var init := groups[..|groups| - 1];
      var g := groups[|groups| - 1];
      GroupModelsContents(init, key, name);
      var prev := GroupModels(init, key);
      var tail := GroupHit(g, key);
      assert GroupModels(groups, key) == prev + tail;
      assert ModelNames(prev + tail) == ModelNames(prev) + ModelNames(tail);
      GroupHitContents(g, key);
      if g.0 == name {
        LastGroup(groups, name);
        assert !GroupListsKey(init, name, key);
        NamesOfEntries(prev, name);
      } else {
        OtherGroup(groups, name);
      }
    }
  }

  lemma GroupHitContents(g: (string, Usage), key: string)
    ensures ModelNames(GroupHit(g, key)) == if key in Keys(KeyBreakdown(g.1)) then [g.0] else []
    ensures forall e :: e in GroupHit(g, key) ==>
      e == EntryOf(g.0, Get(KeyBreakdown(g.1), key).value.metrics)
  {
  }

  /** In a group list with distinct names, the last group's name is not
      among the others, and looking it up finds the last group. */
  lemma LastGroup(groups: seq<(string, Usage)>, name: string)
    requires DistinctKeys(groups) && groups != [] && groups[|groups| - 1].0 == name
    ensures name !in Keys(groups[..|groups| - 1])
    ensures Get(groups, name) == Some(groups[|groups| - 1].1)
  {
    var init := groups[..|groups| - 1];
    GetAt(groups, |groups| - 1);
    forall j | 0 <= j < |init| ensures init[j].0 != name {
      assert groups[j] == init[j];
    }
  }

  /** Any other name is looked up in the groups before the last. */
  lemma OtherGroup(groups: seq<(string, Usage)>, name: string)
    requires DistinctKeys(groups) && groups != [] && groups[|groups| - 1].0 != name
    ensures Get(groups, name) == Get(groups[..|groups| - 1], name)
  {
    var init := groups[..|groups| - 1];
    assert Keys(groups) == Keys(init) + [groups[|groups| - 1].0];
    if name in Keys(init) {
      var i := IndexOf(init, name);
      GetAt(init, i);
      assert groups[i] == init[i];
      GetAt(groups, i);
    }
  }

  /** An entry of a list carries one of the list's model names. */
  lemma NamesOfEntries(ms: seq<ModelEntry>, name: string)
    requires name !in ModelNames(ms)
    ensures forall e :: e in ms ==> e.modelName != name
  {
    forall e | e in ms ensures e.modelName != name {
      var j :| 0 <= j < |ms| && ms[j] == e;
      assert ModelNames(ms)[j] == e.modelName;
    }
  }

  /** Any alias on an extracted entry is the key's truthy top-level alias;
      the models are the groups listing the key or, when no group does, the
      single `"All Models"` entry with the entity's own metrics for the key. */
  lemma KeyEntryContents(entity: Usage, top: Breakdown, key: string)
    ensures
      var e := KeyEntryFor(entity, top, key);
      var groups := ModelGroups(top);
      && e.apiKey == key
      && (e.keyAlias.Some? <==>
            key in Keys(ApiKeys(top)) && Get(ApiKeys(top), key).value.keyAlias.Some?
            && Get(ApiKeys(top), key).value.keyAlias.value != "")
      && (e.keyAlias.Some? ==> e.keyAlias == Get(ApiKeys(top), key).value.keyAlias)
      && ((exists n :: GroupListsKey(groups, n, key)) ==>
            && e.models == GroupModels(groups, key)
            && forall n :: n in ModelNames(e.models) <==> GroupListsKey(groups, n, key))
      && (!(exists n :: GroupListsKey(groups, n, key)) ==>
            e.models == [EntryOf(AllModels, KeyTotals(entity, key))])
  {
    var groups := ModelGroups(top);
    var gm := GroupModels(groups, key);
    forall n ensures n in ModelNames(gm) <==> GroupListsKey(groups, n, key) {
      GroupModelsContents(groups, key, n);
    }
    if gm != [] {
      assert gm[0].modelName in ModelNames(gm);
    }
  }

  /** One entry per key of the entity's `api_key_breakdown`, in order, and
      nothing else: an entity without one yields no entries. */
  lemma ExtractContents(entity: Usage, top: Breakdown)
    ensures |Extract(entity, top)| == |KeyBreakdown(entity)|
    ensures forall i :: 0 <= i < |KeyBreakdown(entity)| ==>
      Extract(entity, top)[i] == KeyEntryFor(entity, top, KeyBreakdown(entity)[i].0)
    ensures entity.apiKeyBreakdown.None? ==> Extract(entity, top) == []
  {
  }

  // ---------------------------------------------------------------------
  // _merge_breakdown
  // ---------------------------------------------------------------------

  /** The position a dict comprehension over `ks` maps `k` to: its last. */
  function LastIndex(ks: seq<string>, k: string): (i: nat)
    requires k in ks
    ensures i < |ks| && ks[i] == k
    ensures forall j :: i < j < |ks| ==> ks[j] != k
  {
    if ks[|ks| - 1] == k then |ks| - 1 else LastIndex(ks[..|ks| - 1], k)
  }

  function KeyList(es: seq<KeyEntry>): (ks: seq<string>)
    ensures |ks| == |es|
    ensures forall j :: 0 <= j < |es| ==> ks[j] == es[j].apiKey
  {
    seq(|es|, j requires 0 <= j < |es| => es[j].apiKey)
  }

  /** The three counters added, the name of `t` kept. */
  function AddCounts(t: ModelEntry, s: ModelEntry): ModelEntry {
    ModelEntry(t.modelName, t.totalTokens + s.totalTokens, t.promptTokens + s.promptTokens,
               t.completionTokens + s.completionTokens)
  }

  /** The source models whose names are not among `names`, in order. */
  function UnseenModels(names: seq<string>, src: seq<ModelEntry>): seq<ModelEntry> {
    if src == [] then []
    else UnseenModels(names, src[..|src| - 1]) + (if src[|src| - 1].modelName in names then [] else [src[|src| - 1]])
  }

  /** The source entries whose keys are not among `keys`, in order. */
  function UnseenKeys(keys: seq<string>, src: seq<KeyEntry>): seq<KeyEntry> {
    if src == [] then []
    else UnseenKeys(keys, src[..|src| - 1]) + (if src[|src| - 1].apiKey in keys then [] else [src[|src| - 1]])
  }

  /** The models of one source key merged into an existing entry's models;
      `names` are that entry's model names when `existing_models` was built. */
  function MergeModels(names: seq<string>, acc: seq<ModelEntry>, src: seq<ModelEntry>): (r: seq<ModelEntry>)
    requires |names| == |acc|
    ensures |r| == |acc| + |UnseenModels(names, src)|
    ensures ModelNames(acc) <= ModelNames(r)
    ensures r[|acc|..] == UnseenModels(names, src)
  {
    if src == [] then acc
    else
      var prev := MergeModels(names, acc, src[..|src| - 1]);
      var sm := src[|src| - 1];
      if sm.modelName in names then
        var i := LastIndex(names, sm.modelName);
        var r := prev[i := AddCounts(prev[i], sm)];
        assert ModelNames(r) == ModelNames(prev);
        assert r[|acc|..] == prev[|acc|..];
        r
      else
        var r := prev + [sm];
        assert ModelNames(prev) <= ModelNames(r);
        assert r[|acc|..] == prev[|acc|..] + [sm];
        r
  }

  /** The source entries merged into the target entries; `keys` are the
      target keys when `existing_keys` was built. */
  function MergeKeys(keys: seq<string>, acc: seq<KeyEntry>, src: seq<KeyEntry>): (r: seq<KeyEntry>)
    requires |keys| == |acc|
    ensures |r| == |acc| + |UnseenKeys(keys, src)|
    ensures forall j :: 0 <= j < |acc| ==>
      && r[j].apiKey == acc[j].apiKey && r[j].keyAlias == acc[j].keyAlias
      && ModelNames(acc[j].models) <= ModelNames(r[j].models)
    ensures r[|acc|..] == UnseenKeys(keys, src)
  {
    if src == [] then acc
    else
      var prev := MergeKeys(keys, acc, src[..|src| - 1]);
      var se := src[|src| - 1];
      if se.apiKey in keys then
        var i := LastIndex(keys, se.apiKey);
        var entry := prev[i];
        var merged := MergeModels(ModelNames(entry.models), entry.models, se.models);
        var r := prev[i := entry.(models := merged)];
        assert r[|acc|..] == prev[|acc|..];
        r
      else
        var r := prev + [se];
        assert r[|acc|..] == prev[|acc|..] + [se];
        r
  }

  lemma MergeKeysStep(keys: seq<string>, acc: seq<KeyEntry>, src: seq<KeyEntry>, s: nat)
    requires |keys| == |acc| && s < |src|
    ensures MergeKeys(keys, acc, src[..s + 1])
         == var prev := MergeKeys(keys, acc, src[..s]);
            if src[s].apiKey in keys then
              var i := LastIndex(keys, src[s].apiKey);
              prev[i := prev[i].(models := MergeModels(ModelNames(prev[i].models), prev[i].models, src[s].models))]
            else prev + [src[s]]
  {
    assert src[..s + 1][..s] == src[..s];
  }

  lemma MergeModelsStep(names: seq<string>, acc: seq<ModelEntry>, src: seq<ModelEntry>, k: nat)
    requires |names| == |acc| && k < |src|
    ensures MergeModels(names, acc, src[..k + 1])
         == var prev := MergeModels(names, acc, src[..k]);
            if src[k].modelName in names then
              var i := LastIndex(names, src[k].modelName);
              prev[i := AddCounts(prev[i], src[k])]
            else prev + [src[k]]
  {
    assert src[..k + 1][..k] == src[..k];
  }

  /** `_merge_breakdown(target, source)` on the `api_keys` lists. */
  function Merge(target: seq<KeyEntry>, source: seq<KeyEntry>): seq<KeyEntry> {
    MergeKeys(KeyList(target), target, source)
  }

  /** `_merge_breakdown`: the target's entries are updated in place and the
      unseen source entries appended, the result being the new list. */
  method MergeBreakdown(target: seq<KeyEntry>, source: seq<KeyEntry>) returns (merged: seq<KeyEntry>)
    ensures merged == Merge(target, source)
  {
    var existing := KeyList(target);
    merged := target;
    var s := 0;
    while s < |source|
      invariant 0 <= s <= |source|
      invariant merged == MergeKeys(existing, target, source[..s])
    {
      MergeKeysStep(existing, target, source, s);
      var se := source[s];
      if se.apiKey in existing {
        var i := LastIndex(existing, se.apiKey);
        var models := MergeModelsInto(merged[i].models, se.models);
        merged := merged[i := merged[i].(models := models)];
      } else {
        merged := merged + [se];
      }
      s := s + 1;
    }
    assert source[..|source|] == source;
  }

  /** The inner loop for a key already present: `existing_models` is built
      from the entry's current models, then each source model is added to
      its namesake or appended. */
  method MergeModelsInto(models: seq<ModelEntry>, src: seq<ModelEntry>) returns (r: seq<ModelEntry>)
    ensures r == MergeModels(ModelNames(models), models, src)
  {
    var names := ModelNames(models);
    r := models;
    var k := 0;
    while k < |src|
      invariant 0 <= k <= |src|
      invariant r == MergeModels(names, models, src[..k])
    {
      MergeModelsStep(names, models, src, k);
      var sm := src[k];
      if sm.modelName in names {
        var i := LastIndex(names, sm.modelName);
        r := r[i := AddCounts(r[i], sm)];
      } else {
        r := r + [sm];
      }
      k := k + 1;
    }
    assert src[..|src|] == src;
  }

  // What a merge adds up: for every (key, model) pair, each counter of the
  // merged list is the target's plus the source's.

  datatype TokenField = TotalField | PromptField | CompletionField

  function FieldOf(m: ModelEntry, f: TokenField): nat {
    match f
    case TotalField => m.totalTokens
    case PromptField => m.promptTokens
    case CompletionField => m.completionTokens
  }

  /** Counter `f` of the entry, if it is called `name`. */
  function ModelShare(m: ModelEntry, name: string, f: TokenField): nat {
    if m.modelName == name then FieldOf(m, f) else 0
  }

  /** Counter `f` summed over the entries called `name`. */
  function ModelTally(ms: seq<ModelEntry>, name: string, f: TokenField): nat {
    if ms == [] then 0 else ModelTally(ms[..|ms| - 1], name, f) + ModelShare(ms[|ms| - 1], name, f)
  }

  /** Counter `f` of model `name` summed over the entries of `key`. */
  function KeyShare(e: KeyEntry, key: string, name: string, f: TokenField): nat {
    if e.apiKey == key then ModelTally(e.models, name, f) else 0
  }

  function Tally(es: seq<KeyEntry>, key: string, name: string, f: TokenField): nat {
    if es == [] then 0 else Tally(es[..|es| - 1], key, name, f) + KeyShare(es[|es| - 1], key, name, f)
  }

  lemma {:induction false} ModelTallyAppend(a: seq<ModelEntry>, b: seq<ModelEntry>, name: string, f: TokenField)
    ensures ModelTally(a + b, name, f) == ModelTally(a, name, f) + ModelTally(b, name, f)
  {
    if b == [] {
      assert a + b == a;
    } else {
      assert (a + b)[..|a + b| - 1] == a + b[..|b| - 1];
      assert (a + b)[|a + b| - 1] == b[|b| - 1];
      ModelTallyAppend(a, b[..|b| - 1], name, f);
    }
  }

  lemma {:induction false} ModelTallyUpdate(ms: seq<ModelEntry>, i: nat, x: ModelEntry, name: string, f: TokenField)
    requires i < |ms|
    ensures ModelTally(ms[i := x], name, f) + ModelShare(ms[i], name, f)
         == ModelTally(ms, name, f) + ModelShare(x, name, f)
  {
    var last := |ms| - 1;
    if i < last {
      assert ms[i := x][..last] == ms[..last][i := x];
      ModelTallyUpdate(ms[..last], i, x, name, f);
    } else {
      assert ms[i := x][..last] == ms[..last];
    }
  }

  lemma {:induction false} TallyAppend(a: seq<KeyEntry>, b: seq<KeyEntry>, key: string, name: string, f: TokenField)
    ensures Tally(a + b, key, name, f) == Tally(a, key, name, f) + Tally(b, key, name, f)
  {
    if b == [] {
      assert a + b == a;
    } else {
      assert (a + b)[..|a + b| - 1] == a + b[..|b| - 1];
      assert (a + b)[|a + b| - 1] == b[|b| - 1];
      TallyAppend(a, b[..|b| - 1], key, name, f);
    }
  }

  lemma {:induction false} TallyUpdate(es: seq<KeyEntry>, i: nat, x: KeyEntry, key: string, name: string, f: TokenField)
    requires i < |es|
    ensures Tally(es[i := x], key, name, f) + KeyShare(es[i], key, name, f)
         == Tally(es, key, name, f) + KeyShare(x, key, name, f)
  {
    var last := |es| - 1;
    if i < last {
      assert es[i := x][..last] == es[..last][i := x];
      TallyUpdate(es[..last], i, x, key, name, f);
    } else {
      assert es[i := x][..last] == es[..last];
    }
  }

  /** Adding a source model's counters into the target entry of that name
      adds the source model's share. */
  lemma AddCountsTally(prev: seq<ModelEntry>, i: nat, sm: ModelEntry, name: string, f: TokenField)
    requires i < |prev| && prev[i].modelName == sm.modelName
    ensures ModelTally(prev[i := AddCounts(prev[i], sm)], name, f) == ModelTally(prev, name, f) + ModelShare(sm, name, f)
  {
    ModelTallyUpdate(prev, i, AddCounts(prev[i], sm), name, f);
  }

  lemma {:induction false} MergeModelsTally(names: seq<string>, acc: seq<ModelEntry>, src: seq<ModelEntry>,
                                           name: string, f: TokenField)
    requires |names| == |acc| && ModelNames(acc) == names
    ensures ModelTally(MergeModels(names, acc, src), name, f) == ModelTally(acc, name, f) + ModelTally(src, name, f)
  {
    if src != [] {
      var init := src[..|src| - 1];
      var prev := MergeModels(names, acc, init);
      var sm := src[|src| - 1];
      MergeModelsTally(names, acc, init, name, f);
      if sm.modelName in names {
        var i := LastIndex(names, sm.modelName);
        assert ModelNames(prev)[i] == names[i];
        AddCountsTally(prev, i, sm, name, f);
      } else {
        ModelTallyAppend(prev, [sm], name, f);
      }
    }
  }

  /** Folding a source entry into the target entry with its key adds the
      source entry's share. */
  lemma MergeHitTally(prev: seq<KeyEntry>, i: nat, se: KeyEntry, key: string, name: string, f: TokenField)
    requires i < |prev| && prev[i].apiKey == se.apiKey
    ensures
      var entry := prev[i];
      Tally(prev[i := entry.(models := MergeModels(ModelNames(entry.models), entry.models, se.models))], key, name, f)
      == Tally(prev, key, name, f) + KeyShare(se, key, name, f)
  {
    var entry := prev[i];
    var merged := MergeModels(ModelNames(entry.models), entry.models, se.models);
    MergeModelsTally(ModelNames(entry.models), entry.models, se.models, name, f);
    TallyUpdate(prev, i, entry.(models := merged), key, name, f);
  }

  lemma {:induction false} MergeKeysTally(keys: seq<string>, acc: seq<KeyEntry>, src: seq<KeyEntry>,
                                         key: string, name: string, f: TokenField)
    requires |keys| == |acc| && KeyList(acc) == keys
    ensures Tally(MergeKeys(keys, acc, src), key, name, f) == Tally(acc, key, name, f) + Tally(src, key, name, f)
  {
    if src != [] {
      var init := src[..|src| - 1];
      var prev := MergeKeys(keys, acc, init);
      var se := src[|src| - 1];
      MergeKeysTally(keys, acc, init, key, name, f);
      if se.apiKey in keys {
        var i := LastIndex(keys, se.apiKey);
        assert prev[i].apiKey == acc[i].apiKey == keys[i];
        MergeHitTally(prev, i, se, key, name, f);
      } else {
        TallyAppend(prev, [se], key, name, f);
      }
    }
  }

  /** Merging adds, pair by pair: for every API key and model name, each of
      the total, prompt and completion counters of the merged list is the
      target's plus the source's, added independently. */
  lemma MergeTally(target: seq<KeyEntry>, source: seq<KeyEntry>, key: string, name: string, f: TokenField)
    ensures Tally(Merge(target, source), key, name, f) == Tally(target, key, name, f) + Tally(source, key, name, f)
  {
    MergeKeysTally(KeyList(target), target, source, key, name, f);
  }

  /** Merging never removes or renames: every target entry keeps its
      position, key, alias and models (as a prefix, under the same names),
      and exactly the source entries with unseen keys are appended, in order. */
  lemma MergeKeepsTarget(target: seq<KeyEntry>, source: seq<KeyEntry>)
    ensures |Merge(target, source)| >= |target|
    ensures forall j :: 0 <= j < |target| ==>
      && Merge(target, source)[j].apiKey == target[j].apiKey
      && Merge(target, source)[j].keyAlias == target[j].keyAlias
      && ModelNames(target[j].models) <= ModelNames(Merge(target, source)[j].models)
    ensures Merge(target, source)[|target|..] == UnseenKeys(KeyList(target), source)
  {
  }

  // The shape both lists keep: keys unique, and model names unique per key.

  predicate NamesDistinct(ms: seq<ModelEntry>) {
    forall i, j :: 0 <= i < j < |ms| ==> ms[i].modelName != ms[j].modelName
  }

  predicate WellFormed(es: seq<KeyEntry>) {
    && (forall i, j :: 0 <= i < j < |es| ==> es[i].apiKey != es[j].apiKey)
    && (forall i :: 0 <= i < |es| ==> NamesDistinct(es[i].models))
  }

  lemma {:induction false} GroupModelsDistinct(groups: seq<(string, Usage)>, key: string)
    requires DistinctKeys(groups)
    ensures NamesDistinct(GroupModels(groups, key))
  {
    if groups != [] {
      var init := groups[..|groups| - 1];
      var g := groups[|groups| - 1];
      GroupModelsDistinct(init, key);
      var prev := GroupModels(init, key);
      GroupModelsContents(init, key, g.0);
      assert g.0 !in Keys(init) by {
        forall j | 0 <= j < |init| ensures init[j].0 != g.0 {
          assert groups[j] == init[j];
        }
      }
      forall j | 0 <= j < |prev| ensures prev[j].modelName != g.0 {
        assert ModelNames(prev)[j] == prev[j].modelName;
      }
    }
  }

  /** The breakdown of an entity has unique keys and unique model names. */
  lemma ExtractWellFormed(entity: Usage, top: Breakdown)
    ensures WellFormed(Extract(entity, top))
  {
    var r := Extract(entity, top);
    var keys := Keys(KeyBreakdown(entity));
    forall i | 0 <= i < |r| ensures NamesDistinct(r[i].models) {
      GroupModelsDistinct(ModelGroups(top), keys[i]);
    }
  }

  lemma {:induction false} UnseenModelsFrom(names: seq<string>, src: seq<ModelEntry>)
    requires NamesDistinct(src)
    ensures NamesDistinct(UnseenModels(names, src))
    ensures forall e :: e in UnseenModels(names, src) ==> e in src && e.modelName !in names
  {
    if src != [] {
      var init := src[..|src| - 1];
      var last := src[|src| - 1];
      assert NamesDistinct(init);
      UnseenModelsFrom(names, init);
      var u := UnseenModels(names, init);
      LastNameUnseen(src, u);
      if last.modelName !in names {
        NamesDistinctSnoc(u, last);
      }
    }
  }

  /** Entries drawn from the front of a list with distinct names do not
      carry the name of its last entry. */
  lemma LastNameUnseen(src: seq<ModelEntry>, u: seq<ModelEntry>)
    requires NamesDistinct(src) && src != []
    requires forall e :: e in u ==> e in src[..|src| - 1]
    ensures forall e :: e in u ==> e.modelName != src[|src| - 1].modelName
  {
    var init := src[..|src| - 1];
    forall e | e in u ensures e.modelName != src[|src| - 1].modelName {
      var j :| 0 <= j < |init| && init[j] == e;
      assert src[j] == e;
    }
  }

  lemma NamesDistinctSnoc(u: seq<ModelEntry>, x: ModelEntry)
    requires NamesDistinct(u)
    requires forall e :: e in u ==> e.modelName != x.modelName
    ensures NamesDistinct(u + [x])
  {
    forall i, j | 0 <= i < j < |u + [x]| ensures (u + [x])[i].modelName != (u + [x])[j].modelName {
      if j == |u| {
        assert (u + [x])[i] == u[i];
        assert u[i] in u;
      }
    }
  }

  lemma {:induction false} UnseenKeysFrom(keys: seq<string>, src: seq<KeyEntry>)
    requires WellFormed(src)
    ensures WellFormed(UnseenKeys(keys, src))
    ensures forall e :: e in UnseenKeys(keys, src) ==> e in src && e.apiKey !in keys
  {
    if src != [] {
      var init := src[..|src| - 1];
      var last := src[|src| - 1];
      assert WellFormed(init) by {
        forall i | 0 <= i < |init| ensures init[i] == src[i] {
        }
      }
      UnseenKeysFrom(keys, init);
      var u := UnseenKeys(keys, init);
      LastKeyUnseen(src, u);
      if last.apiKey !in keys {
        assert NamesDistinct(last.models);
        forall j | 0 <= j < |u| ensures u[j].apiKey != last.apiKey {
          assert u[j] in u;
        }
        AppendWellFormed(u, last);
      }
    }
  }

  /** Entries drawn from the front of a well-formed list do not carry the
      key of its last entry. */
  lemma LastKeyUnseen(src: seq<KeyEntry>, u: seq<KeyEntry>)
    requires WellFormed(src) && src != []
    requires forall e :: e in u ==> e in src[..|src| - 1]
    ensures forall e :: e in u ==> e.apiKey != src[|src| - 1].apiKey
  {
    var init := src[..|src| - 1];
    forall e | e in u ensures e.apiKey != src[|src| - 1].apiKey {
      var j :| 0 <= j < |init| && init[j] == e;
      assert src[j] == e;
    }
  }

  lemma MergeModelsDistinct(acc: seq<ModelEntry>, src: seq<ModelEntry>)
    requires NamesDistinct(acc) && NamesDistinct(src)
    ensures NamesDistinct(MergeModels(ModelNames(acc), acc, src))
  {
    var names := ModelNames(acc);
    var r := MergeModels(names, acc, src);
    var unseen := UnseenModels(names, src);
    UnseenModelsFrom(names, src);
    assert ModelNames(r)[..|acc|] == names;
    forall i, j | 0 <= i < j < |r| ensures r[i].modelName != r[j].modelName {
      assert ModelNames(r)[i] == r[i].modelName && ModelNames(r)[j] == r[j].modelName;
      if j < |acc| {
        assert r[i].modelName == names[i] && r[j].modelName == names[j];
      } else if i < |acc| {
        assert r[j] == unseen[j - |acc|];
        assert r[j] in unseen;
        assert r[i].modelName == names[i];
      } else {
        assert r[i] == unseen[i - |acc|] && r[j] == unseen[j - |acc|];
      }
    }
  }

  lemma {:induction false} MergeKeysWellFormed(keys: seq<string>, acc: seq<KeyEntry>, src: seq<KeyEntry>)
    requires |keys| == |acc| && KeyList(acc) == keys
    requires WellFormed(acc) && WellFormed(src)
    ensures WellFormed(MergeKeys(keys, acc, src))
  {
    if src != [] {
      var init := src[..|src| - 1];
      assert WellFormed(init) by {
        forall i | 0 <= i < |init| ensures init[i] == src[i] {
        }
      }
      MergeKeysWellFormed(keys, acc, init);
      var prev := MergeKeys(keys, acc, init);
      var se := src[|src| - 1];
      var r := MergeKeys(keys, acc, src);
      if se.apiKey in keys {
        var i := LastIndex(keys, se.apiKey);
        MergeIntoWellFormed(prev, i, se);
      } else {
        UnseenKeysFrom(keys, init);
        forall j | 0 <= j < |prev| ensures prev[j].apiKey != se.apiKey {
          if j < |acc| {
            assert prev[j].apiKey == keys[j];
          } else {
            var e := prev[j];
            assert e == UnseenKeys(keys, init)[j - |acc|];
            assert e in init;
            var k :| 0 <= k < |init| && init[k] == e;
            assert src[k] == e;
          }
        }
        AppendWellFormed(prev, se);
      }
    }
  }

  lemma MergeIntoWellFormed(es: seq<KeyEntry>, i: nat, se: KeyEntry)
    requires i < |es| && WellFormed(es) && NamesDistinct(se.models)
    ensures WellFormed(es[i := es[i].(models := MergeModels(ModelNames(es[i].models), es[i].models, se.models))])
  {
    MergeModelsDistinct(es[i].models, se.models);
  }

  lemma AppendWellFormed(es: seq<KeyEntry>, se: KeyEntry)
    requires WellFormed(es) && NamesDistinct(se.models)
    requires forall j :: 0 <= j < |es| ==> es[j].apiKey != se.apiKey
    ensures WellFormed(es + [se])
  {
    forall i | 0 <= i < |es + [se]| ensures NamesDistinct((es + [se])[i].models) {
      if i < |es| {
        assert (es + [se])[i] == es[i];
      }
    }
  }

  /** Merging keeps keys unique and model names unique per key. */
  lemma MergeWellFormed(target: seq<KeyEntry>, source: seq<KeyEntry>)
    requires WellFormed(target) && WellFormed(source)
    ensures WellFormed(Merge(target, source))
  {
    MergeKeysWellFormed(KeyList(target), target, source);
  }

  // ---------------------------------------------------------------------
  // fetch_total_tokens_per_team
  // ---------------------------------------------------------------------

  const NoTotal := TeamTotal(0, [])

  /** One `(team_id, entity)` of a day: counted only when its display name
      is a key of `team_data`, i.e. the name of a requested team. */
  function AddEntity(td: Dict<TeamTotal>, dir: Directory, top: Breakdown, e: (string, Usage)): (r: Dict<TeamTotal>)
    ensures Keys(r) == Keys(td)
  {
    var n := NameOf(dir, e.0);
    match Get(td, n)
    case None => td
    case Some(t) => Put(td, n, Grow(t, top, e.1))
  }

  /** A team's entry after adding one of its entities. */
  function Grow(t: TeamTotal, top: Breakdown, u: Usage): TeamTotal {
    TeamTotal(t.totalTokens + u.metrics.totalTokens, Merge(t.apiKeys, Extract(u, top)))
  }

  function AddEntities(td: Dict<TeamTotal>, dir: Directory, top: Breakdown, es: seq<(string, Usage)>)
      : (r: Dict<TeamTotal>)
    ensures Keys(r) == Keys(td)
  {
    if es == [] then td else AddEntity(AddEntities(td, dir, top, es[..|es| - 1]), dir, top, es[|es| - 1])
  }

  function AddDays(td: Dict<TeamTotal>, dir: Directory, days: seq<DailySpend>): (r: Dict<TeamTotal>)
    ensures Keys(r) == Keys(td)
  {
    if days == [] then td
    else
      var top := BreakdownOf(days[|days| - 1]);
      AddEntities(AddDays(td, dir, days[..|days| - 1]), dir, top, Entities(top))
  }

  /** The zero-initialised `team_data`, keyed by display name. */
  function InitialTeamData(dir: Directory): (td: Dict<TeamTotal>)
    ensures Keys(td) == Dedup(Names(dir))
    ensures forall n :: n in Keys(td) ==> Get(td, n) == Some(NoTotal)
  {
    FromKeys(Names(dir), NoTotal)
  }

  lemma AddEntitiesStep(td: Dict<TeamTotal>, dir: Directory, top: Breakdown, es: seq<(string, Usage)>, k: nat)
    requires k < |es|
    ensures AddEntities(td, dir, top, es[..k + 1]) == AddEntity(AddEntities(td, dir, top, es[..k]), dir, top, es[k])
  {
    assert es[..k + 1][..k] == es[..k];
  }

  lemma AddDaysStep(td: Dict<TeamTotal>, dir: Directory, days: seq<DailySpend>, i: nat)
    requires i < |days|
    ensures AddDays(td, dir, days[..i + 1])
         == AddEntities(AddDays(td, dir, days[..i]), dir, BreakdownOf(days[i]), Entities(BreakdownOf(days[i])))
  {
    assert days[..i + 1][..i] == days[..i];
  }

  function TeamData(dir: Directory, days: seq<DailySpend>): Dict<TeamTotal> {
    AddDays(InitialTeamData(dir), dir, days)
  }

  /** `fetch_total_tokens_per_team`, given the directory the team service
      holds and the outcome of the upstream fetch. */
  method FetchTotalTokensPerTeam(dir: Directory, fetched: Result<seq<DailySpend>, Failure>)
      returns (r: Result<Dict<TeamTotal>, Failure>)
    ensures fetched.Failure? ==> r == Failure(Rewrite(TokenUsagePrefix, fetched.error))
    ensures fetched.Success? ==> r == Success(TeamData(dir, fetched.value))
  {
    if fetched.Failure? {
      return Failure(Rewrite(TokenUsagePrefix, fetched.error));
    }
    var td := NameKeyed(dir, NoTotal);
    td := AccumulateDays(td, dir, fetched.value);
    r := Success(td);
  }



  /** The loop over the upstream days. */
  method AccumulateDays(td0: Dict<TeamTotal>, dir: Directory, days: seq<DailySpend>) returns (td: Dict<TeamTotal>)
    ensures td == AddDays(td0, dir, days)
  {
    td := td0;
    var i := 0;
    while i < |days|
      invariant 0 <= i <= |days|
      invariant td == AddDays(td0, dir, days[..i])
    {
      AddDaysStep(td0, dir, days, i);
      td := AccumulateEntities(td, dir, BreakdownOf(days[i]));
      i := i + 1;
    }
    assert days[..|days|] == days;
  }

  /** The loop over one day's entities. */
  method AccumulateEntities(td0: Dict<TeamTotal>, dir: Directory, top: Breakdown) returns (td: Dict<TeamTotal>)
    ensures td == AddEntities(td0, dir, top, Entities(top))
  {
    var es := Entities(top);
    td := td0;
    var k := 0;
    while k < |es|
      invariant 0 <= k <= |es|
      invariant td == AddEntities(td0, dir, top, es[..k])
    {
      AddEntitiesStep(td0, dir, top, es, k);
      td := AccumulateEntity(td, dir, top, es[k]);
      k := k + 1;
    }
    assert es[..|es|] == es;
  }

  /** The body of the entity loop. */
  method AccumulateEntity(td: Dict<TeamTotal>, dir: Directory, top: Breakdown, e: (string, Usage))
      returns (r: Dict<TeamTotal>)
    ensures r == AddEntity(td, dir, top, e)
  {
    var n := NameOf(dir, e.0);
    r := td;
    var current := Get(td, n);
    if current.Some? {
      var t := current.value;
      var breakdown := ExtractBreakdown(e.1, top);
      var merged := MergeBreakdown(t.apiKeys, breakdown);
      var total := TeamTotal(t.totalTokens + e.1.metrics.totalTokens, merged);
      assert total == Grow(t, top, e.1);
      r := Put(td, n, total);
    }
  }

  // What the folds add up, per team name: its total tokens, and each
  // counter of each (key, model) pair of its drill-down.

  datatype Query = Tokens | KeyModel(key: string, model: string, field: TokenField)

  function Measure(t: TeamTotal, q: Query): nat {
    match q
    case Tokens => t.totalTokens
    case KeyModel(k, m, f) => Tally(t.apiKeys, k, m, f)
  }

  /** What one entity contributes to its team. */
  function EntityShare(top: Breakdown, e: (string, Usage), q: Query): nat {
    match q
    case Tokens => e.1.metrics.totalTokens
    case KeyModel(k, m, f) => Tally(Extract(e.1, top), k, m, f)
  }

  /** Summed over the day's entities whose display name is `n`. */
  function DayShare(dir: Directory, top: Breakdown, es: seq<(string, Usage)>, n: string, q: Query): nat {
    if es == [] then 0
    else
      DayShare(dir, top, es[..|es| - 1], n, q)
      + (if NameOf(dir, es[|es| - 1].0) == n then EntityShare(top, es[|es| - 1], q) else 0)
  }

  /** Summed over the days. */
  function TotalShare(dir: Directory, days: seq<DailySpend>, n: string, q: Query): nat {
    if days == [] then 0
    else
      var top := BreakdownOf(days[|days| - 1]);
      TotalShare(dir, days[..|days| - 1], n, q) + DayShare(dir, top, Entities(top), n, q)
  }

  lemma AddEntityMeasure(td: Dict<TeamTotal>, dir: Directory, top: Breakdown, e: (string, Usage), n: string, q: Query)
    requires n in Keys(td)
    ensures Measure(Get(AddEntity(td, dir, top, e), n).value, q)
         == Measure(Get(td, n).value, q) + (if NameOf(dir, e.0) == n then EntityShare(top, e, q) else 0)
  {
    var t := Get(td, NameOf(dir, e.0));
    if NameOf(dir, e.0) != n && t.Some? {
      PutOther(td, NameOf(dir, e.0), Grow(t.value, top, e.1), n);
    } else if NameOf(dir, e.0) == n && q.KeyModel? {
      MergeTally(Get(td, n).value.apiKeys, Extract(e.1, top), q.key, q.model, q.field);
    }
  }

  lemma {:induction false} AddEntitiesMeasure(td: Dict<TeamTotal>, dir: Directory, top: Breakdown,
                                             es: seq<(string, Usage)>, n: string, q: Query)
    requires n in Keys(td)
    ensures Measure(Get(AddEntities(td, dir, top, es), n).value, q) == Measure(Get(td, n).value, q) + DayShare(dir, top, es, n, q)
  {
    if es != [] {
      var init := es[..|es| - 1];
      AddEntitiesMeasure(td, dir, top, init, n, q);
      AddEntityMeasure(AddEntities(td, dir, top, init), dir, top, es[|es| - 1], n, q);
    }
  }

  lemma {:induction false} AddDaysMeasure(td: Dict<TeamTotal>, dir: Directory, days: seq<DailySpend>, n: string, q: Query)
    requires n in Keys(td)
    ensures Measure(Get(AddDays(td, dir, days), n).value, q) == Measure(Get(td, n).value, q) + TotalShare(dir, days, n, q)
  {
    if days != [] {
      var init := days[..|days| - 1];
      var top := BreakdownOf(days[|days| - 1]);
      AddDaysMeasure(td, dir, init, n, q);
      AddEntitiesMeasure(AddDays(td, dir, init), dir, top, Entities(top), n, q);
    }
  }

  /** One entry per distinct display name of the requested teams, in
      `team_ids` order; each team's `total_tokens`, and each counter of each
      (key, model) pair of its drill-down, is the sum over the days and over
      the entities carrying its name (entities of other names ignored). */
  lemma TeamDataContents(dir: Directory, days: seq<DailySpend>, n: string, q: Query)
    ensures Keys(TeamData(dir, days)) == Dedup(Names(dir))
    ensures n in Names(dir) ==> Measure(Get(TeamData(dir, days), n).value, q) == TotalShare(dir, days, n, q)
  {
    if n in Names(dir) {
      AddDaysMeasure(InitialTeamData(dir), dir, days, n, q);
    }
  }

  /** With no upstream days every team keeps zero tokens and no keys. */
  lemma EmptyResults(dir: Directory)
    ensures forall i :: 0 <= i < |TeamData(dir, [])| ==> TeamData(dir, [])[i].1 == NoTotal
  {
    var td := TeamData(dir, []);
    forall i | 0 <= i < |td| ensures td[i].1 == NoTotal {
      GetAt(td, i);
    }
  }

  predicate AllWellFormed(td: Dict<TeamTotal>) {
    forall n :: n in Keys(td) ==> WellFormed(Get(td, n).value.apiKeys)
  }

  lemma {:induction false} AddEntitiesWellFormed(td: Dict<TeamTotal>, dir: Directory, top: Breakdown, es: seq<(string, Usage)>)
    requires AllWellFormed(td)
    ensures AllWellFormed(AddEntities(td, dir, top, es))
  {
    if es != [] {
      var init := es[..|es| - 1];
      var e := es[|es| - 1];
      AddEntitiesWellFormed(td, dir, top, init);
      var prev := AddEntities(td, dir, top, init);
      var n := NameOf(dir, e.0);
      if n in Keys(prev) {
        ExtractWellFormed(e.1, top);
        MergeWellFormed(Get(prev, n).value.apiKeys, Extract(e.1, top));
      }
    }
  }

  lemma {:induction false} AddDaysWellFormed(td: Dict<TeamTotal>, dir: Directory, days: seq<DailySpend>)
    requires AllWellFormed(td)
    ensures AllWellFormed(AddDays(td, dir, days))
  {
    if days != [] {
      var top := BreakdownOf(days[|days| - 1]);
      AddDaysWellFormed(td, dir, days[..|days| - 1]);
      AddEntitiesWellFormed(AddDays(td, dir, days[..|days| - 1]), dir, top, Entities(top));
    }
  }

  /** Every team's drill-down lists each API key once, and each model at
      most once per key. */
  lemma TeamDataWellFormed(dir: Directory, days: seq<DailySpend>)
    ensures AllWellFormed(TeamData(dir, days))
  {
    AddDaysWellFormed(InitialTeamData(dir), dir, days);
  }
}
