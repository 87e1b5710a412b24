/** The data access of the standalone teams microservice (teams_service/app/crud.py): a team
    is a name and an optional country; updates copy the fields the client sent onto the
    stored row one by one, and delete hands back the row it removed.
    teams_service/app/models.py is not part of this model: the row holds exactly the two
    fields of the `TeamBase` schema. */
module TeamsServiceCrud {
  import opened Wrappers
  import opened Tables
  import opened Seqs

  datatype Team = Team(name: string, country: Option<string>)

  /** `TeamCreate`: `country` defaults to `None` and may be left out of the request. */
  datatype TeamCreate = TeamCreate(name: string, country: Patch<Option<string>>)

  /** The default page of `get_teams`. */
  const DefaultLimit: nat := 100

  /** `get_team`: the team with that id, or `None`. */
  function GetTeam(teams: Table<Team>, teamId: int): (r: Option<Row<Team>>)
    reads teams
    ensures r.Some? <==> teamId in teams.rows
    ensures r.Some? ==> r.value == Row(teamId, teams.rows[teamId])
  {
    if teamId in teams.rows then Some(Row(teamId, teams.rows[teamId])) else None
  }

  /** `get_teams(skip, limit)`: at most `limit` teams after skipping `skip`, in scan order. */
  function GetTeams(teams: Table<Team>, skip: nat := 0, limit: nat := DefaultLimit): (r: seq<Row<Team>>)
    reads teams
    requires teams.Valid()
    ensures |r| == if skip >= |teams.Scan()| then 0 else if |teams.Scan()| - skip < limit then |teams.Scan()| - skip else limit
    ensures forall i :: 0 <= i < |r| ==> skip + i < |teams.Scan()| && r[i] == teams.Scan()[skip + i]
  {
    Page(teams.Scan(), skip, limit)
  }

  /** `models.Team(**team.dict())`: a country left out is stored as `None`. */
  function NewTeam(t: TeamCreate): (r: Team)
    ensures r.name == t.name
    ensures t.country.Set? ==> r.country == t.country.value
    ensures t.country.Unset? ==> r.country.None?
  {
    Team(t.name, t.country.Or(None))
  }

  /** `create_team`: stores and returns the new team. */
  method CreateTeam(teams: Table<Team>, t: TeamCreate) returns (r: Row<Team>)
    requires teams.Valid()
    modifies teams
    ensures teams.Valid()
    ensures r.id !in old(teams.rows) && r.data == NewTeam(t)
    ensures teams.Scan() == old(teams.Scan()) + [r]
  {
    var data := NewTeam(t);
    var id := teams.Insert(data);
    r := Row(id, data);
  }

  // ---------------------------------------------------------------- partial update

  /** One `setattr(db_team, key, value)`. */
  datatype TeamAssignment = NameTo(name: string) | CountryTo(country: Option<string>)

  /** `team.dict(exclude_unset=True)`: the required name, and the country when it was sent. */
  function DumpedFields(t: TeamCreate): (r: seq<TeamAssignment>)
    ensures 1 <= |r| <= 2 && r[0] == NameTo(t.name)
    ensures |r| == 2 <==> t.country.Set?
    ensures t.country.Set? ==> r[1] == CountryTo(t.country.value)
  {
    [NameTo(t.name)] + if t.country.Set? then [CountryTo(t.country.value)] else []
  }

  function AssignTeam(team: Team, x: TeamAssignment): Team {
    match x
    case NameTo(v) => team.(name := v)
    case CountryTo(v) => team.(country := v)
  }

  /** The team after the loop has applied `xs`, first to last. */
  function AssignAllTeam(team: Team, xs: seq<TeamAssignment>): Team {
    if xs == [] then team else AssignTeam(AssignAllTeam(team, xs[..|xs| - 1]), xs[|xs| - 1])
  }

  /** The intended partial update: the name is always replaced, the country only when sent. */
  function MergeTeam(existing: Team, t: TeamCreate): (r: Team)
    ensures r.name == t.name
    ensures t.country.Set? ==> r.country == t.country.value
    ensures t.country.Unset? ==> r.country == existing.country
    ensures t.country.Set? ==> r == NewTeam(t)
  {
    Team(t.name, t.country.Or(existing.country))
  }

  /** Running the `setattr` loop over the dumped request gives the intended partial update. */
  lemma TeamLoopMerges(existing: Team, t: TeamCreate)
    ensures AssignAllTeam(existing, DumpedFields(t)) == MergeTeam(existing, t)
  {
    var xs := DumpedFields(t);
    assert xs[..1] == [NameTo(t.name)] && xs[..1][..0] == [];
    if t.country.Set? {
      assert AssignAllTeam(existing, xs) == AssignTeam(AssignAllTeam(existing, xs[..1]), xs[1]);
    }
  }

  /** `update_team`: the stored team with the sent fields overwritten in place; `None` and no
      change for an unknown id. */
  method UpdateTeam(teams: Table<Team>, teamId: int, t: TeamCreate) returns (r: Option<Row<Team>>)
    requires teams.Valid()
    modifies teams
    ensures teams.Valid()
    ensures r.None? <==> teamId !in old(teams.rows)
    ensures r.None? ==> unchanged(teams)
    ensures r.Some? ==> r.value == Row(teamId, MergeTeam(old(teams.rows[teamId]), t))
    ensures r.Some? ==> teams.rows == old(teams.rows)[teamId := r.value.data] && teams.order == old(teams.order)
  {
    var found := GetTeam(teams, teamId);
    if found.None? {
      return None;
    }
    var teamData := DumpedFields(t);
    var team := found.value.data;
    for i := 0 to |teamData|
      invariant team == AssignAllTeam(found.value.data, teamData[..i])
    {
      assert teamData[..i + 1][..i] == teamData[..i];
      team := AssignTeam(team, teamData[i]);
    }
    assert teamData[..|teamData|] == teamData;
    TeamLoopMerges(found.value.data, t);
    teams.Replace(teamId, team);
    r := Some(Row(teamId, team));
  }

  /** `delete_team`: removes exactly that team and returns it, or returns `None` with no
      change. */
  method DeleteTeam(teams: Table<Team>, teamId: int) returns (r: Option<Row<Team>>)
    requires teams.Valid()
    modifies teams
    ensures teams.Valid()
    ensures r == old(GetTeam(teams, teamId))
    ensures r.None? ==> unchanged(teams)
    ensures teams.rows == old(teams.rows) - {teamId} && teams.order == Excluding(old(teams.order), {teamId})
  {
    r := GetTeam(teams, teamId);
    if r.None? {
      ExcludingAbsent(teams.order, {teamId});
      return;
    }
    teams.Remove(teamId);
  }
}
