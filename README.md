# Workshop leaderboard: the token and request aggregation core

The leaderboard backend fetches one "daily activity" document per query.
That document has one entry per day, and each day has a breakdown tree of
entities (teams), model groups, models and API keys. The services reshape
it into the views the frontend draws:

- **token aggregation** (`TokenAggregation`): total tokens per team, in
  team-id order. Each team also gets a drill-down of its API keys. Every key
  carries its alias and the models that used it. Each model entry carries
  its total, prompt and completion tokens. A day's drill-down is extracted
  from the entity's `api_key_breakdown` and the day's model groups, then
  merged into the team's running list. A key seen before has its models'
  counts added. A model seen before has its three counts added. Anything
  new is appended.
- **time series** (`TimeSeries`): one row per day. Each row has one point
  per requested team (tokens, total, successful and failed requests),
  zero when the team is absent that day.
- **success rate** (`SuccessRate`): request counters per team display name
  summed over all days, and the success percentage rounded to 2 places
  (0 when there were no requests).
- **cost efficiency** (`CostEfficiency`): per team and model, the tokens
  and spend of the team's API keys as that model group's key breakdown
  reports them. Each cell also gets the cost per 1000 tokens rounded to
  4 places. A cell exists exactly when at least one of the team's keys
  appears under that model on some day.
- **model usage** (`ModelUsage`): total tokens per display model name,
  zero totals dropped, ordered by tokens (largest first, ties in
  first-seen order).
- **team directory** (`Teams`): the team list fetched upstream once and
  then cached. It maps a team id to its alias, or to the id itself when
  the alias is absent or empty. An unknown id also maps to itself.

Python dicts whose order matters are `Dicts.Dict`: a sequence of pairs with
distinct keys, where assignment updates a pair in place or appends. The
activity document is `Activity`. The common failure path (the upstream fetch
raising, and the message rewrite most services apply) is `Fetch`. Python's
`round` is `Rounding`. Each service is a method with the source's loops,
proved equal to a function over the input; the properties are lemmas about
that function. `Teams.TeamService` is a class whose fields the fetch updates.

## Model

| member | source | states |
|---|---|---|
| Activity.EntityMetrics | backend/src/services/time_series_service.py:77-78 | a team absent from the day's entities reads as all-zero metrics; a present one reads as its own metrics |
| Fetch.FindSeparator | backend/src/services/token_aggregation_service.py:80 | finds the first position of ": " at or after the start, or reports that there is none |
| Fetch.Rewrite | backend/src/services/token_aggregation_service.py:78-81 | a non-RuntimeError passes through unchanged; a RuntimeError becomes IndexError exactly when its message has no ": ", and otherwise becomes a RuntimeError of the prefix followed by the text after the first ": " |
| Fetch.RewriteKeepsTail | backend/src/services/token_aggregation_service.py:78-81 | a RuntimeError message "head: tail" whose head has no ": " is re-raised as the prefix followed by exactly the tail |
| Fetch.RewriteWithoutSeparator | backend/src/services/token_aggregation_service.py:80 | a RuntimeError message without ": " makes the rewrite itself fail with IndexError |
| Fetch.RewriteExample | backend/src/services/token_aggregation_service.py:78-81 | "External API error: Connection failed" becomes "Error fetching team token usage: Connection failed" |
| Teams.DisplayName | backend/src/services/team_service.py:36-38 | the alias when it is present and non-empty, otherwise the team id |
| Teams.TeamIds | backend/src/services/team_service.py:35 | the ids of the fetched teams, position by position |
| Teams.NameTable | backend/src/services/team_service.py:36-38 | the name table has exactly the fetched ids as keys |
| Teams.NameTableLookup | backend/src/services/team_service.py:36-38 | a team's id maps to that team's display name when no later team repeats the id |
| Teams.NameOf | backend/src/services/team_service.py:65 | a known id resolves to its table entry, an unknown id to itself |
| Teams.Names | backend/src/services/success_rate_service.py:63-70 | defines the display names of the requested ids, in id order (`get_team_name(team_id) for team_id in team_ids`); its contract gives one name per id, the id's own |
| Teams.DirectoryOf | backend/src/services/team_service.py:34-38 | defines the cache's id list and name table built from one upstream team list; NameOfDirectory states how it resolves ids |
| Teams.NameOfDirectory | backend/src/services/team_service.py:53-65 | an id not fetched resolves to itself; a fetched id resolves to the display name of its last listing |
| Teams.NameKeyed | backend/src/services/success_rate_service.py:63-70 | the dict keyed by the display names of the requested ids, in first-seen order, each holding the initial value |
| Teams.IndexTeams | backend/src/services/team_service.py:34-38 | the loop builds exactly the id list and the name table of the fetched teams |
| Teams.TeamClient.FetchTeams | backend/src/services/team_service.py:34 | request number k answers the k-th scripted upstream outcome and counts one request, so a failure can be followed by a success |
| Teams.TeamService.constructor | backend/src/services/team_service.py:11-22 | a new service starts empty and uninitialised |
| Teams.TeamService.FetchTeams | backend/src/services/team_service.py:24-40 | once initialised it returns the cached teams with no upstream call; otherwise it makes exactly one call, caches the teams on success and stays uninitialised on failure |
| Teams.TeamService.GetTeamIds | backend/src/services/team_service.py:42-51 | succeeds exactly when the directory is initialised, and then returns the cached ids; fetches only when uninitialised; a failure is the upstream failure |
| Teams.TeamService.GetTeamName | backend/src/services/team_service.py:53-65 | succeeds exactly when the directory is initialised, and then resolves the id through the cached table; fetches only when uninitialised |
| Teams.UseDirectory | backend/src/services/team_service.py:31-32 | ids, name and two fetches on a fresh service cost one upstream call, and both fetches return the same teams |
| Teams.RetryAfterFailure | backend/src/services/team_service.py:42-51 | after a failed fetch the cache stays empty, so the next getter asks upstream again: two requests, the first getter failing with the upstream failure and the second answering the ids of the successful list |
| TimeSeries.Points | backend/src/services/time_series_service.py:75-94 | one point per requested id, in order, each with the id's display name and metrics |
| TimeSeries.Rows | backend/src/services/time_series_service.py:68-96 | one row per day, in upstream order, each built from that day alone |
| TimeSeries.FetchDailyTimeseriesPerTeam | backend/src/services/time_series_service.py:21-98 | a fetch failure is rewritten with the token-usage prefix; otherwise the result is one row per day |
| TimeSeries.BuildRows | backend/src/services/time_series_service.py:68-96 | the day loop builds exactly the rows of the days |
| TimeSeries.BuildPoints | backend/src/services/time_series_service.py:75-94 | the team loop builds exactly the points of the requested ids |
| TimeSeries.RowsAppend | backend/src/services/time_series_service.py:68-96 | rows of concatenated day lists are the rows of each part concatenated: no state carries over between days |
| TimeSeries.RowShape | backend/src/services/time_series_service.py:70-94 | each row carries its day's date and one point per requested team, in order, named by display name |
| TimeSeries.PointOfPresentTeam | backend/src/services/time_series_service.py:77-92 | a team present that day reports its entity's tokens and its total, successful and failed requests |
| TimeSeries.PointOfAbsentTeam | backend/src/services/time_series_service.py:71-84 | a team absent that day, or any team on a day without a breakdown, reports all zeros |
| TimeSeries.EmptyInputs | backend/src/services/time_series_service.py:68-98 | no days give no rows; no requested teams give rows with no points |
| TimeSeries.Point | backend/src/services/time_series_service.py:76-94 | defines one team's point: its display name and its entity's total tokens, api requests, successful and failed requests (zeros when absent); PointOfPresentTeam and PointOfAbsentTeam state both cases |
| TimeSeries.Row | backend/src/services/time_series_service.py:69-96 | defines one day's row: its date and the points of the requested ids, a null breakdown read as empty (`or {}`); RowShape states its shape |
| SuccessRate.Add | backend/src/services/success_rate_service.py:81-89 | each of the three counters grows by the entity's own counter |
| SuccessRate.InitialMetrics | backend/src/services/success_rate_service.py:63-70 | one zeroed entry per distinct display name, in first-seen order |
| SuccessRate.AddDay | backend/src/services/success_rate_service.py:76-89 | when each requested id's name has an entry, the day adds no entry |
| SuccessRate.AddDays | backend/src/services/success_rate_service.py:72-89 | when each requested id's name has an entry, the days add no entry |
| SuccessRate.Summaries | backend/src/services/success_rate_service.py:92-107 | one summary per team_metrics entry, in its order |
| SuccessRate.TeamMetrics | backend/src/services/success_rate_service.py:63-89 | defines `team_metrics`: the zeroed name-keyed dict grown by every day; TeamMetricsSums states its keys and sums |
| SuccessRate.Rate | backend/src/services/success_rate_service.py:97-105 | defines the success percentage, guarded against zero requests and rounded to 2 places; RateWithoutRequests, RateBounds and the two examples state it |
| SuccessRate.Summary | backend/src/services/success_rate_service.py:99-107 | defines one summary: the name, the three counters and their rate; SummaryContents states the summaries it yields |
| SuccessRate.FetchTeamSuccessRateSummary | backend/src/services/success_rate_service.py:23-109 | a fetch failure is rewritten with the token-usage prefix; otherwise the result is the summaries of the accumulated team metrics |
| SuccessRate.AccumulateDays | backend/src/services/success_rate_service.py:72-89 | the day loop computes the accumulated counters |
| SuccessRate.AccumulateDay | backend/src/services/success_rate_service.py:76-89 | the team loop adds exactly one day's counters |
| SuccessRate.Summarize | backend/src/services/success_rate_service.py:92-107 | the summary loop builds exactly the summaries |
| SuccessRate.AddDayCounts | backend/src/services/success_rate_service.py:76-89 | a name's counter grows by the sum of that counter over the day's teams showing that name |
| SuccessRate.AddDaysCounts | backend/src/services/success_rate_service.py:72-89 | a name's counter grows by its sum over all days |
| SuccessRate.InitialCovers | backend/src/services/success_rate_service.py:63-70 | every requested id's display name has an entry before the days are read |
| SuccessRate.TeamMetricsSums | backend/src/services/success_rate_service.py:63-89 | the keys are the distinct display names; each counter of a name is its sum over days and teams |
| SuccessRate.SummaryContents | backend/src/services/success_rate_service.py:63-107 | one summary per distinct display name in first-seen order, carrying the summed counters and their rate |
| SuccessRate.SummaryAt | backend/src/services/success_rate_service.py:92-107 | the summary at each position belongs to that position's name and carries its sums |
| SuccessRate.EmptyResults | backend/src/services/success_rate_service.py:63-109 | with no days, every team is reported with zero requests and a rate of 0 |
| SuccessRate.RateWithoutRequests | backend/src/services/success_rate_service.py:97 | no requests give a rate of 0 |
| SuccessRate.RateBounds | backend/src/services/success_rate_service.py:97-105 | when successes do not exceed requests, the rounded rate lies between 0 and 100 |
| SuccessRate.RateExampleExact | backend/src/services/success_rate_service.py:105 | 235 successful out of 250 is 94.0 |
| SuccessRate.RateExampleRounded | backend/src/services/success_rate_service.py:105 | 2 successful out of 3 is 66.67 |
| SuccessRate.AddDayWithoutBreakdown | backend/src/services/success_rate_service.py:73-74 | read as empty, a day without a breakdown changes no counter |
| SuccessRate.DayWithoutBreakdownAddsNothing | backend/src/services/success_rate_service.py:73-74 | appending a day whose breakdown is null leaves the team metrics unchanged |
| SuccessRate.SuccessRateAsWritten | backend/src/services/success_rate_service.py:72-78 | defines the code as written, failing with AttributeError when some day's breakdown is null, or its entities are null while teams are requested; the next two lemmas state how it relates to the corrected service |
| SuccessRate.AsWrittenAgreesWithoutNull | backend/src/services/success_rate_service.py:23-109 | on every input without a null map to dereference, the code as written returns what FetchTeamSuccessRateSummary promises |
| SuccessRate.AsWrittenFailsOnNull | backend/src/services/success_rate_service.py:73-78 | any one day with a null breakdown, or null entities while teams are requested, makes the code as written fail with AttributeError |
| SuccessRate.AsWrittenFailsOnNullBreakdown | backend/src/services/success_rate_service.py:73 | one day with a null breakdown makes the code as written fail, although that day contributes nothing |
| CostEfficiency.TeamKeys | backend/src/services/cost_efficiency_service.py:64-80 | a team's API keys are those of its entity's key breakdown, none when the team is absent |
| CostEfficiency.AddKey | backend/src/services/cost_efficiency_service.py:82-98 | defines one team key's step: a key the group lists creates the model's cell if needed and adds the key's tokens and spend; AddKeyExtends states it |
| CostEfficiency.AddKeys | backend/src/services/cost_efficiency_service.py:81-98 | defines the key loop over one model group; AddKeysExtends states it |
| CostEfficiency.AddGroups | backend/src/services/cost_efficiency_service.py:76-98 | defines the model-group loop for one team; AddGroupsExtends states it |
| CostEfficiency.AddTeam | backend/src/services/cost_efficiency_service.py:69-98 | defines one team's step: its name's entry created empty when first seen, then grown by the groups; AddTeamEntry states its frame |
| CostEfficiency.AddDay | backend/src/services/cost_efficiency_service.py:64-98 | defines one day's loop over the requested ids; AddDayExtends states it |
| CostEfficiency.AddDays | backend/src/services/cost_efficiency_service.py:63-98 | defines the day loop; AddDaysExtends states it |
| CostEfficiency.TeamModelData | backend/src/services/cost_efficiency_service.py:61-98 | defines `team_model_data` built from an empty dict; Accumulated states its contents |
| CostEfficiency.Per1k | backend/src/services/cost_efficiency_service.py:104-116 | defines the cost per 1000 tokens, guarded against zero tokens and rounded to 4 places; Per1kWithoutTokens and Per1kExample state it |
| CostEfficiency.MakeCell | backend/src/services/cost_efficiency_service.py:104-120 | defines one output cell: team, model, cost per 1k, spend rounded to 4 places and tokens; CellForTeamAndModel states which cells appear |
| CostEfficiency.Cells | backend/src/services/cost_efficiency_service.py:101-122 | defines the output list, team by team and model by model in dict order; CellsMembership states its contents |
| CostEfficiency.AddTeamEntry | backend/src/services/cost_efficiency_service.py:68-98 | handling one team changes only the entry of its display name |
| CostEfficiency.ModelCells | backend/src/services/cost_efficiency_service.py:103-120 | one cell per model of a team, in the team's first-seen model order |
| CostEfficiency.FetchCostEfficiency | backend/src/services/cost_efficiency_service.py:28-122 | a fetch failure is rewritten with the team-data prefix; otherwise the result is the cells of the accumulated team-model data |
| CostEfficiency.AccumulateDays | backend/src/services/cost_efficiency_service.py:63-98 | the day loop computes the team-model data |
| CostEfficiency.AccumulateDay | backend/src/services/cost_efficiency_service.py:68-98 | the team loop adds exactly one day |
| CostEfficiency.AccumulateTeam | backend/src/services/cost_efficiency_service.py:68-98 | one team's entry is created when first seen and then grown by its groups |
| CostEfficiency.AccumulateGroups | backend/src/services/cost_efficiency_service.py:76-98 | the model-group loop adds every group's hits |
| CostEfficiency.AccumulateKeys | backend/src/services/cost_efficiency_service.py:81-98 | the key loop adds every team key the group lists |
| CostEfficiency.BuildCells | backend/src/services/cost_efficiency_service.py:101-122 | the output loops build exactly the cells |
| CostEfficiency.AppendModelCells | backend/src/services/cost_efficiency_service.py:103-120 | the inner output loop appends exactly one team's cells |
| CostEfficiency.AddKeyExtends | backend/src/services/cost_efficiency_service.py:81-98 | a key listed by the group creates or grows that model's cell by its tokens and spend; other cells are untouched |
| CostEfficiency.AddKeysExtends | backend/src/services/cost_efficiency_service.py:81-98 | all the team's keys add their summed hits to that model's cell only |
| CostEfficiency.AddGroupsExtends | backend/src/services/cost_efficiency_service.py:76-98 | each model's cell grows by the hits of the groups with that name |
| CostEfficiency.AddDayExtends | backend/src/services/cost_efficiency_service.py:68-98 | a name's cells grow by the hits of all requested teams showing that name |
| CostEfficiency.AddDaysExtends | backend/src/services/cost_efficiency_service.py:63-98 | a name's cells grow by its hits over all days |
| CostEfficiency.Accumulated | backend/src/services/cost_efficiency_service.py:61-98 | a team has a model's cell exactly when some key hit it, and the cell holds the hits' summed tokens and spend |
| CostEfficiency.CellsMembership | backend/src/services/cost_efficiency_service.py:101-122 | a cell is output exactly when it is made from some team's model entry |
| CostEfficiency.CellsSound | backend/src/services/cost_efficiency_service.py:101-122 | every output cell comes from some team's model entry |
| CostEfficiency.CellsComplete | backend/src/services/cost_efficiency_service.py:101-122 | every team's model entry is output |
| CostEfficiency.CellIdentifies | backend/src/services/cost_efficiency_service.py:101-122 | an output cell is the one made from its own team and model entry |
| CostEfficiency.CellPresent | backend/src/services/cost_efficiency_service.py:101-122 | a team's model with an entry has its cell in the output |
| CostEfficiency.CellForTeamAndModel | backend/src/services/cost_efficiency_service.py:61-122 | a (team, model) cell is output exactly when some key of the team hit the model; it carries the summed tokens, the rounded spend and the rounded cost per 1k |
| CostEfficiency.EmptyResults | backend/src/services/cost_efficiency_service.py:61-122 | no days give no cells |
| CostEfficiency.Per1kWithoutTokens | backend/src/services/cost_efficiency_service.py:108-110 | a cell without tokens costs 0 per 1k |
| CostEfficiency.Per1kExample | backend/src/services/cost_efficiency_service.py:108-116 | 1000 tokens for 0.30 cost 0.3 per 1k |
| ModelUsage.FetchModelUsage | backend/src/services/SOLUTION_model_usage_service.py:28-63 | a fetch failure passes through unchanged; otherwise the positive totals are sorted by tokens |
| ModelUsage.AddModel | backend/src/services/SOLUTION_model_usage_service.py:52-59 | defines one model's step: its tokens added to its display name's total, starting from 0; AddModelSum states it |
| ModelUsage.AddModels | backend/src/services/SOLUTION_model_usage_service.py:52-59 | defines one day's model loop; AddModelsKeys and AddModelsSum state it |
| ModelUsage.AddDays | backend/src/services/SOLUTION_model_usage_service.py:48-59 | defines the day loop; AddDaysContents states it |
| ModelUsage.ModelTotals | backend/src/services/SOLUTION_model_usage_service.py:46-59 | defines `model_totals` built from an empty dict; ModelTotalsContents states its contents |
| ModelUsage.Insert | backend/src/services/SOLUTION_model_usage_service.py:63 | defines insertion into a list ordered by tokens, ahead of equal entries; the Insert lemmas state it |
| ModelUsage.Sort | backend/src/services/SOLUTION_model_usage_service.py:63 | defines the stable sort by tokens, largest first; SortSorted, SortPermutes, SortStable and SortMembers state it |
| ModelUsage.AccumulateDays | backend/src/services/SOLUTION_model_usage_service.py:48-59 | the day loop computes the per display name totals |
| ModelUsage.AccumulateModels | backend/src/services/SOLUTION_model_usage_service.py:52-59 | the model loop adds exactly one day's models |
| ModelUsage.AddModelsKeys | backend/src/services/SOLUTION_model_usage_service.py:52-59 | the keys are the distinct display names seen so far, in first-seen order |
| ModelUsage.AddModelSum | backend/src/services/SOLUTION_model_usage_service.py:53-59 | one model adds its tokens to its display name's total only |
| ModelUsage.AddToEntry | backend/src/services/SOLUTION_model_usage_service.py:57-59 | `get(name, 0) + tokens` grows that name's total and no other |
| ModelUsage.AddModelsSum | backend/src/services/SOLUTION_model_usage_service.py:52-59 | a name's total grows by the tokens of the day's models shown as that name |
| ModelUsage.AddDaysContents | backend/src/services/SOLUTION_model_usage_service.py:46-59 | the keys are the distinct display names of all days; a name's total is its sum over all days |
| ModelUsage.ModelTotalsContents | backend/src/services/SOLUTION_model_usage_service.py:46-59 | every entry holds its name's summed tokens; internal names sharing a display name accumulate into one entry |
| ModelUsage.Positive | backend/src/services/SOLUTION_model_usage_service.py:62 | exactly the entries with more than zero tokens are kept |
| ModelUsage.InsertMembers | backend/src/services/SOLUTION_model_usage_service.py:63 | inserting adds the one entry and keeps the rest |
| ModelUsage.InsertPermutes | backend/src/services/SOLUTION_model_usage_service.py:63 | inserting adds the entry's one occurrence |
| ModelUsage.InsertSorted | backend/src/services/SOLUTION_model_usage_service.py:63 | inserting into a list ordered by tokens, largest first, keeps it ordered |
| ModelUsage.InsertStable | backend/src/services/SOLUTION_model_usage_service.py:63 | the inserted entry goes ahead of every existing entry with equal tokens |
| ModelUsage.InsertDistinct | backend/src/services/SOLUTION_model_usage_service.py:63 | inserting a new name keeps names distinct |
| ModelUsage.SortSorted | backend/src/services/SOLUTION_model_usage_service.py:63 | the sorted list is ordered by tokens, largest first |
| ModelUsage.SortPermutes | backend/src/services/SOLUTION_model_usage_service.py:63 | the sorted list is a permutation of its input |
| ModelUsage.SortMembers | backend/src/services/SOLUTION_model_usage_service.py:63 | the sorted list has exactly its input's entries |
| ModelUsage.SortStable | backend/src/services/SOLUTION_model_usage_service.py:63 | entries with equal tokens keep their input order |
| ModelUsage.SortDistinct | backend/src/services/SOLUTION_model_usage_service.py:63 | sorting keeps names distinct |
| ModelUsage.PositiveDistinct | backend/src/services/SOLUTION_model_usage_service.py:62 | filtering keeps names distinct |
| ModelUsage.ModelUsageContents | backend/src/services/SOLUTION_model_usage_service.py:46-63 | the result holds exactly the seen display names with a positive sum, each with its sum, once each, ordered by tokens with ties in first-seen order |
| TokenAggregation.KeyEntries | backend/src/services/token_aggregation_service.py:200-228 | one drill-down entry per key, in order |
| TokenAggregation.GroupHit | backend/src/services/token_aggregation_service.py:184-197 | defines what one model group contributes to a key: one entry with the key's three counters when the group lists the key, none otherwise; GroupHitContents states it |
| TokenAggregation.GroupModels | backend/src/services/token_aggregation_service.py:177-197 | defines a key's model list, collected over the model groups in order; GroupModelsContents states it |
| TokenAggregation.TruthyAlias | backend/src/services/token_aggregation_service.py:202-209 | defines the alias kept for a key: the top-level key's alias when present and non-empty; KeyEntryContents states it |
| TokenAggregation.KeyTotals | backend/src/services/token_aggregation_service.py:213-215 | defines the entity's own metrics for a key, zeros when absent, used by the "All Models" fallback; KeyEntryContents states it |
| TokenAggregation.KeyEntryFor | backend/src/services/token_aggregation_service.py:200-228 | defines one key's drill-down entry; KeyEntryContents states it |
| TokenAggregation.Extract | backend/src/services/token_aggregation_service.py:168-230 | defines `_extract_breakdown`: one entry per key of the entity's key breakdown; ExtractContents and ExtractWellFormed state it |
| TokenAggregation.ExtractBreakdown | backend/src/services/token_aggregation_service.py:110-230 | the extraction loops build exactly the entity's drill-down |
| TokenAggregation.ExtractKey | backend/src/services/token_aggregation_service.py:200-228 | a key's entry carries the key, its truthy alias, and its group models or else a single "All Models" entry with the key's own totals |
| TokenAggregation.CollectGroupModels | backend/src/services/token_aggregation_service.py:177-197 | the model-group loop collects, for every key, the groups that list it |
| TokenAggregation.GroupModelsContents | backend/src/services/token_aggregation_service.py:180-197 | a model is listed for a key exactly when its group's key breakdown has the key, with that key's total, prompt and completion tokens |
| TokenAggregation.GroupHitContents | backend/src/services/token_aggregation_service.py:181-197 | one group gives one model entry for a key it lists and none otherwise |
| TokenAggregation.KeyEntryContents | backend/src/services/token_aggregation_service.py:200-228 | the alias is present exactly when the top-level key has a non-empty alias; models are the listing groups, or the "All Models" fallback when no group lists the key |
| TokenAggregation.ExtractContents | backend/src/services/token_aggregation_service.py:168-230 | one entry per key of the entity's own key breakdown, in its order; none without a key breakdown |
| TokenAggregation.LastIndex | backend/src/services/token_aggregation_service.py:242 | the position a dict comprehension keeps for a key: its last occurrence |
| TokenAggregation.MergeModels | backend/src/services/token_aggregation_service.py:249-269 | existing models keep their names and come first; the unseen source models are appended in order |
| TokenAggregation.MergeKeys | backend/src/services/token_aggregation_service.py:242-272 | existing keys keep their key, alias and models; the unseen source keys are appended in order |
| TokenAggregation.Merge | backend/src/services/token_aggregation_service.py:232-272 | defines `_merge_breakdown` as the new key list; MergeTally, MergeKeepsTarget and MergeWellFormed state it |
| TokenAggregation.MergeBreakdown | backend/src/services/token_aggregation_service.py:232-272 | the merge loops compute exactly the merged list |
| TokenAggregation.MergeModelsInto | backend/src/services/token_aggregation_service.py:249-269 | the model loop computes exactly the merged models |
| TokenAggregation.MergeModelsTally | backend/src/services/token_aggregation_service.py:253-269 | every count of every model name is the sum of the two lists' counts |
| TokenAggregation.MergeKeysTally | backend/src/services/token_aggregation_service.py:244-272 | every count of every (key, model) is the sum of the two lists' counts |
| TokenAggregation.MergeTally | backend/src/services/token_aggregation_service.py:232-272 | merging adds the source's total, prompt and completion tokens per (key, model) to the target's, losing nothing |
| TokenAggregation.MergeKeepsTarget | backend/src/services/token_aggregation_service.py:242-272 | the target's entries stay in place with their key and alias and keep their models; only unseen source keys are appended |
| TokenAggregation.GroupModelsDistinct | backend/src/services/token_aggregation_service.py:180-197 | a key's group models have distinct names |
| TokenAggregation.ExtractWellFormed | backend/src/services/token_aggregation_service.py:168-230 | an extracted drill-down has distinct keys and distinct model names per key |
| TokenAggregation.UnseenModelsFrom | backend/src/services/token_aggregation_service.py:267-269 | the appended models come from the source and are not yet present |
| TokenAggregation.UnseenKeysFrom | backend/src/services/token_aggregation_service.py:270-272 | the appended keys come from the source and are not yet present |
| TokenAggregation.MergeModelsDistinct | backend/src/services/token_aggregation_service.py:249-269 | merging keeps model names distinct |
| TokenAggregation.MergeKeysWellFormed | backend/src/services/token_aggregation_service.py:242-272 | merging keeps keys, and model names per key, distinct |
| TokenAggregation.MergeWellFormed | backend/src/services/token_aggregation_service.py:232-272 | merging two well-formed drill-downs gives a well-formed one |
| TokenAggregation.AddEntity | backend/src/services/token_aggregation_service.py:97-106 | an entity never adds a team entry |
| TokenAggregation.AddEntities | backend/src/services/token_aggregation_service.py:97-106 | a day never adds a team entry |
| TokenAggregation.AddDays | backend/src/services/token_aggregation_service.py:93-106 | the days never add a team entry |
| TokenAggregation.InitialTeamData | backend/src/services/token_aggregation_service.py:84-90 | one zeroed entry per distinct display name, in first-seen order |
| TokenAggregation.Grow | backend/src/services/token_aggregation_service.py:101-106 | defines a tracked team's step: total tokens added and the entity's extracted drill-down merged in; AddEntityMeasure states it |
| TokenAggregation.TeamData | backend/src/services/token_aggregation_service.py:84-106 | defines `team_data`: the zeroed name-keyed dict grown by every day; TeamDataContents and TeamDataWellFormed state it |
| TokenAggregation.FetchTotalTokensPerTeam | backend/src/services/token_aggregation_service.py:28-108 | a fetch failure is rewritten with the token-usage prefix; otherwise the result is the accumulated team data |
| TokenAggregation.AccumulateDays | backend/src/services/token_aggregation_service.py:93-106 | the day loop computes the accumulated team data |
| TokenAggregation.AccumulateEntities | backend/src/services/token_aggregation_service.py:97-106 | the entity loop adds exactly one day |
| TokenAggregation.AccumulateEntity | backend/src/services/token_aggregation_service.py:98-106 | one entity is added to its team when its display name is tracked |
| TokenAggregation.AddEntityMeasure | backend/src/services/token_aggregation_service.py:98-106 | a tracked name's total and drill-down counts grow by the entity's share when the entity shows that name |
| TokenAggregation.AddEntitiesMeasure | backend/src/services/token_aggregation_service.py:97-106 | a name's measures grow by the day's share of entities showing that name |
| TokenAggregation.AddDaysMeasure | backend/src/services/token_aggregation_service.py:93-106 | a name's measures grow by their sum over all days |
| TokenAggregation.TeamDataContents | backend/src/services/token_aggregation_service.py:84-106 | the keys are the distinct display names; a team's total and every per (key, model) count are sums over the entities showing its name, so other entities count for nothing |
| TokenAggregation.EmptyResults | backend/src/services/token_aggregation_service.py:84-90 | with no days, every team has zero tokens and no keys |
| TokenAggregation.AddEntitiesWellFormed | backend/src/services/token_aggregation_service.py:97-106 | a day keeps every team's drill-down well formed |
| TokenAggregation.AddDaysWellFormed | backend/src/services/token_aggregation_service.py:93-106 | the days keep every team's drill-down well formed |
| TokenAggregation.TeamDataWellFormed | backend/src/services/token_aggregation_service.py:84-106 | every team's drill-down has distinct keys and distinct model names per key |
| Rounding.HalfEven | backend/src/services/success_rate_service.py:105 | picks the floor or the next integer, whichever is within one half of its argument, and on an exact tie the even one |
| Rounding.Round | backend/src/services/success_rate_service.py:105 | defines `round(x, places)` on the exact value; RoundIsNearest, RoundExact and RoundMonotonic state it |
| Rounding.RoundIsNearest | backend/src/services/success_rate_service.py:105 | the rounded value is within half a unit in the last kept place |
| Rounding.RoundExact | backend/src/services/cost_efficiency_service.py:116-117 | a value that already has at most that many decimals is unchanged |
| Rounding.RoundMonotonic | backend/src/services/success_rate_service.py:105 | rounding never reorders two values |

## Left out

- The HTTP client, the FastAPI routes, the date handling and the wiring
  between services are not part of this model. The upstream response is an
  input: a `Result` holding either the days or the failure the fetch raised.
- Pydantic's `model_dump` and the `hasattr` duck typing are not modelled.
  The document is a value shaped like the response models, with every
  absent counter 0.
- Floating point: spend and rates are exact reals. `round` is round-half-even
  on the exact value, so a result can differ from Python's in the last
  place, where floats are binary.
- `get_display_name` of the model mapping service is a function parameter.
  Its table is not part of this model.
- TokenAggregation.ExtractBreakdown: the source walks a Python `set` of
  keys, whose order is arbitrary. The model walks the entity's key
  breakdown in its own order. The key set and every entry are as in the
  source, and the order of appended keys is one the source may produce.
- TokenAggregation.FetchTotalTokensPerTeam: a null (rather than absent)
  breakdown, entity map, key breakdown, model-group map or metadata makes
  the code raise AttributeError or TypeError. The model reads such a map as
  empty, as for the success rate under "## Findings".
- CostEfficiency.FetchCostEfficiency: a null breakdown, entity map, model
  group map or key breakdown makes the code raise. The model reads it as
  empty.
- TimeSeries.FetchDailyTimeseriesPerTeam: the code guards a null breakdown
  but not a null entity map, which raises when teams are requested. The
  model reads it as empty.
- ModelUsage.FetchModelUsage: a null breakdown or model map makes the code
  raise. The model reads it as empty.
- The key alias kept in a team's drill-down is the alias from the day the
  key was first merged. Later days never replace it, because the merge
  leaves existing entries' alias alone (TokenAggregation.MergeKeepsTarget).
- In-place mutation of nested dicts is modelled on values.
  `_merge_breakdown` mutates the target list and its entries through the
  `existing_keys` and `existing_models` views. The model addresses those
  entries by position and returns the new list. Aliasing between the views
  and other holders of the same objects is not modelled.
- A failure of the team fetch during a service call is not modelled in the
  service methods. They take the directory snapshot the cache holds
  (`Teams.Directory`), and `Teams.TeamService` models the fetch itself.
- Teams.TeamService.FetchTeams returns the team values. The `model_dump`
  copies the source returns are not modelled.

## Findings

| source | as written | input that shows it | evidently intended | confidence | as-written member | corrected member |
|---|---|---|---|---|---|---|
| backend/src/services/success_rate_service.py:73-74 | `entry.get("breakdown", {})` returns None when the dumped day has `breakdown: null`, and the next `.get` raises AttributeError | a fetched document with one day whose breakdown is null | such a day contributes nothing, as in the time series service, which guards with `or {}` | not executed | SuccessRate.AsWrittenFailsOnNullBreakdown | SuccessRate.DayWithoutBreakdownAddsNothing |
