/** The team directory: the upstream team list, cached on first use, giving
    the services their team ids and the display name of each id. */
module Teams {
  import opened Wrappers
  import opened Dicts
  import opened Fetch

  /** TeamResponse (only the two fields the services read). */
  datatype Team = Team(teamId: string, teamAlias: Option<string>)

  /** `team.team_alias or team.team_id`: a missing or empty alias falls back
      to the id, so the name is empty only when the id is. */
  function DisplayName(t: Team): (n: string)
    ensures t.teamAlias.Some? && t.teamAlias.value != "" ==> n == t.teamAlias.value
    ensures t.teamAlias.None? || t.teamAlias.value == "" ==> n == t.teamId
    ensures n == "" ==> t.teamId == ""
  {
    match t.teamAlias
    case Some(a) => if a != "" then a else t.teamId
    case None => t.teamId
  }

  /** `[team.team_id for team in teams]`. */
  function TeamIds(teams: seq<Team>): (ids: seq<string>)
    ensures |ids| == |teams|
    ensures forall i :: 0 <= i < |teams| ==> ids[i] == teams[i].teamId
  {
    if teams == [] then [] else TeamIds(teams[..|teams| - 1]) + [teams[|teams| - 1].teamId]
  }

  /** `{team.team_id: DisplayName(team) for team in teams}`: a repeated id
      takes the name of its last occurrence. */
  function NameTable(teams: seq<Team>): (m: map<string, string>)
    ensures forall id :: id in m <==> id in TeamIds(teams)
  {
    if teams == [] then map[]
    else
      var last := teams[|teams| - 1];
      assert TeamIds(teams) == TeamIds(teams[..|teams| - 1]) + [last.teamId];
      NameTable(teams[..|teams| - 1])[last.teamId := DisplayName(last)]
  }

  /** The name table maps each id to the display name of its last listing. */
  lemma {:induction false} NameTableLookup(teams: seq<Team>, i: nat)
    requires i < |teams|
    requires forall j :: i < j < |teams| ==> teams[j].teamId != teams[i].teamId
    ensures teams[i].teamId in NameTable(teams)
    ensures NameTable(teams)[teams[i].teamId] == DisplayName(teams[i])
  {
    assert TeamIds(teams)[i] == teams[i].teamId;
    if i < |teams| - 1 {
      NameTableLookup(teams[..|teams| - 1], i);
    }
  }

  /** What a service sees of the directory: `get_team_ids()` and
      `get_team_name(id)`. */
  datatype Directory = Directory(ids: seq<string>, names: map<string, string>)

  /** `get_team_name(id)`: `names.get(id, id)`. */
  function NameOf(dir: Directory, id: string): (n: string)
    ensures id in dir.names ==> n == dir.names[id]
    ensures id !in dir.names ==> n == id
  {
    if id in dir.names then dir.names[id] else id
  }

  /** The display names of `ids`, in order. */
  function NamesOf(dir: Directory, ids: seq<string>): (ns: seq<string>)
    ensures |ns| == |ids|
    ensures forall j :: 0 <= j < |ids| ==> ns[j] == NameOf(dir, ids[j])
  {
    if ids == [] then [] else NamesOf(dir, ids[..|ids| - 1]) + [NameOf(dir, ids[|ids| - 1])]
  }

  /** The display names of the requested teams, in `team_ids` order. */
  function Names(dir: Directory): (ns: seq<string>)
    ensures |ns| == |dir.ids|
    ensures forall j :: 0 <= j < |ns| ==> ns[j] == NameOf(dir, dir.ids[j])
  {
    NamesOf(dir, dir.ids)
  }

  /** `{get_team_name(tid): v for tid in team_ids}`: keyed by display name,
      in first-seen order, a repeated name keeping its first position. */
  method NameKeyed<V>(dir: Directory, v: V) returns (d: Dict<V>)
    ensures d == FromKeys(Names(dir), v)
  {
    d := [];
    var k := 0;
    while k < |dir.ids|
      invariant 0 <= k <= |dir.ids|
      invariant d == FromKeys(NamesOf(dir, dir.ids[..k]), v)
    {
      NameKeyedStep(dir, dir.ids, v, k);
      d := Put(d, NameOf(dir, dir.ids[k]), v);
      k := k + 1;
    }
    assert dir.ids[..|dir.ids|] == dir.ids;
  }

  lemma NameKeyedStep<V>(dir: Directory, ids: seq<string>, v: V, k: nat)
    requires k < |ids|
    ensures FromKeys(NamesOf(dir, ids[..k + 1]), v) == Put(FromKeys(NamesOf(dir, ids[..k]), v), NameOf(dir, ids[k]), v)
  {
    assert ids[..k + 1][..k] == ids[..k];
    FromKeysSnoc(NamesOf(dir, ids[..k]), NameOf(dir, ids[k]), v);
  }

  /** The directory a populated cache holds. */
  function DirectoryOf(teams: seq<Team>): Directory {
    Directory(TeamIds(teams), NameTable(teams))
  }

  /** `i` is the last position listing `id`. */
  predicate LastListing(teams: seq<Team>, i: int, id: string) {
    0 <= i < |teams| && teams[i].teamId == id
    && forall j :: i < j < |teams| ==> teams[j].teamId != id
  }

  /** An id the upstream list does not know resolves to itself; a listed id
      (listed once) resolves to its alias when the alias is non-empty and to
      itself otherwise. */
  lemma NameOfDirectory(teams: seq<Team>, id: string)
    ensures id !in TeamIds(teams) ==> NameOf(DirectoryOf(teams), id) == id
    ensures forall i :: LastListing(teams, i, id) ==>
      NameOf(DirectoryOf(teams), id) == DisplayName(teams[i])
  {
    forall i | LastListing(teams, i, id)
      ensures NameOf(DirectoryOf(teams), id) == DisplayName(teams[i])
    {
      NameTableLookup(teams, i);
    }
  }

  /** The loop of `fetch_teams` over the fetched list: the ids in order and
      the id-to-name table. */
  method IndexTeams(ts: seq<Team>) returns (ids: seq<string>, names: map<string, string>)
    ensures ids == TeamIds(ts) && names == NameTable(ts)
  {
    ids := [];
    names := map[];
    var i := 0;
    while i < |ts|
      invariant 0 <= i <= |ts|
      invariant ids == TeamIds(ts[..i])
      invariant names == NameTable(ts[..i])
    {
      assert ts[..i + 1][..i] == ts[..i];
      ids := ids + [ts[i].teamId];
      names := names[ts[i].teamId := DisplayName(ts[i])];
      i := i + 1;
    }
    assert ts[..|ts|] == ts;
  }

  /** The upstream `/team/list` endpoint. Request number `k` (counting from
      0) answers `outcomes[k]`, and every request after those answers
      `thereafter`; `calls` counts the requests made. */
  class TeamClient {
    const outcomes: seq<Result<seq<Team>, Failure>>
    const thereafter: Result<seq<Team>, Failure>
    var calls: nat

    constructor (outcomes: seq<Result<seq<Team>, Failure>>, thereafter: Result<seq<Team>, Failure>)
      ensures this.outcomes == outcomes && this.thereafter == thereafter && calls == 0
    {
      this.outcomes := outcomes;
      this.thereafter := thereafter;
      calls := 0;
    }

    /** What request number `k` answers. */
    function Outcome(k: nat): Result<seq<Team>, Failure> {
      if k < |outcomes| then outcomes[k] else thereafter
    }

    method FetchTeams() returns (r: Result<seq<Team>, Failure>)
      modifies this
      ensures r == Outcome(old(calls)) && calls == old(calls) + 1
    {
      r := if calls < |outcomes| then outcomes[calls] else thereafter;
      calls := calls + 1;
    }
  }

  /** TeamService: a populate-once cache of the team list. */
  class TeamService {
    const client: TeamClient
    var teams: seq<Team>
    var teamIds: seq<string>
    var teamIdToName: map<string, string>
    var initialized: bool

    ghost predicate Valid()
      reads this
    {
      && (initialized ==> teamIds == TeamIds(teams) && teamIdToName == NameTable(teams))
      && (!initialized ==> teams == [] && teamIds == [] && teamIdToName == map[])
    }

    /** The directory the cache currently answers from. */
    function Snapshot(): Directory
      reads this
    {
      Directory(teamIds, teamIdToName)
    }

    constructor (client: TeamClient)
      ensures Valid() && !initialized && this.client == client
    {
      this.client := client;
      teams, teamIds, teamIdToName := [], [], map[];
      initialized := false;
    }

    /** `fetch_teams`: asks upstream only while the cache is empty; a failed
        request leaves the cache empty and propagates. */
    method FetchTeams() returns (r: Result<seq<Team>, Failure>)
      requires Valid()
      modifies this, client
      ensures Valid()
      ensures old(initialized) ==>
        && initialized && teams == old(teams)
        && client.calls == old(client.calls) && r == Success(teams)
      ensures !old(initialized) ==>
        && client.calls == old(client.calls) + 1 && r == client.Outcome(old(client.calls))
        && (r.Success? ==> initialized && teams == r.value)
        && (r.Failure? ==> !initialized && teams == [])
    {
      if initialized {
        return Success(teams);
      }
      var fetched := client.FetchTeams();
      match fetched
      case Failure(e) =>
        r := Failure(e);
      case Success(ts) =>
        teams := ts;
        var ids, names := IndexTeams(ts);
        teamIds, teamIdToName := ids, names;
        initialized := true;
        r := Success(ts);
    }

    /** `get_team_ids`: populates the cache first if needed. */
    method GetTeamIds() returns (r: Result<seq<string>, Failure>)
      requires Valid()
      modifies this, client
      ensures Valid()
      ensures old(initialized) ==> initialized && teams == old(teams) && client.calls == old(client.calls)
      ensures !old(initialized) ==> client.calls == old(client.calls) + 1
      ensures r.Success? <==> initialized
      ensures r.Success? ==> r.value == TeamIds(teams)
      ensures initialized && !old(initialized) ==> client.Outcome(old(client.calls)) == Success(teams)
      ensures r.Failure? ==> client.Outcome(old(client.calls)) == Failure(r.error)
    {
      if !initialized {
        var fetched := FetchTeams();
        if fetched.Failure? {
          return Failure(fetched.error);
        }
      }
      r := Success(teamIds);
    }

    /** `get_team_name`: the cached display name, or the id itself when the
        directory does not know it. */
    method GetTeamName(id: string) returns (r: Result<string, Failure>)
      requires Valid()
      modifies this, client
      ensures Valid()
      ensures old(initialized) ==> initialized && teams == old(teams) && client.calls == old(client.calls)
      ensures !old(initialized) ==> client.calls == old(client.calls) + 1
      ensures r.Success? <==> initialized
      ensures r.Success? ==> r.value == NameOf(DirectoryOf(teams), id)
      ensures initialized && !old(initialized) ==> client.Outcome(old(client.calls)) == Success(teams)
      ensures r.Failure? ==> client.Outcome(old(client.calls)) == Failure(r.error)
    {
      if !initialized {
        var fetched := FetchTeams();
        if fetched.Failure? {
          return Failure(fetched.error);
        }
      }
      r := Success(if id in teamIdToName then teamIdToName[id] else id);
    }
  }

  /** A client of the cache: whatever mix of calls follows the first one,
      upstream is asked once, and repeated `fetch_teams` calls agree. */
  method UseDirectory(client: TeamClient, id: string)
      returns (ids: Result<seq<string>, Failure>, name: Result<string, Failure>,
               first: Result<seq<Team>, Failure>, second: Result<seq<Team>, Failure>)
    requires client.Outcome(client.calls).Success?
    modifies client
    ensures client.calls == old(client.calls) + 1
    ensures ids == Success(TeamIds(client.Outcome(old(client.calls)).value))
    ensures name == Success(NameOf(DirectoryOf(client.Outcome(old(client.calls)).value), id))
    ensures first == second == client.Outcome(old(client.calls))
  {
    var service := new TeamService(client);
    ids := service.GetTeamIds();
    name := service.GetTeamName(id);
    first := service.FetchTeams();
    second := service.FetchTeams();
  }

  /** A failed fetch leaves the cache empty, so the next getter asks
      upstream again: a failure followed by a success costs two requests,
      and the second getter answers from the teams of the second. */
  method RetryAfterFailure(client: TeamClient)
      returns (failed: Result<seq<string>, Failure>, retried: Result<seq<string>, Failure>)
    requires client.Outcome(client.calls).Failure?
    requires client.Outcome(client.calls + 1).Success?
    modifies client
    ensures client.calls == old(client.calls) + 2
    ensures failed == Failure(client.Outcome(old(client.calls)).error)
    ensures retried == Success(TeamIds(client.Outcome(old(client.calls) + 1).value))
  {
    var service := new TeamService(client);
    failed := service.GetTeamIds();
    retried := service.GetTeamIds();
  }
}
