/** The team endpoints of the teams service (teams/src/api/v1/teams.py): 404 for unknown ids,
    a create that copies the request, and an update that merges the fields the client sent
    with the stored team. */
module TeamsApi {
  import opened Wrappers
  import opened Tables
  import opened Exceptions
  import opened TeamsModels
  import opened TeamSchemas
  import opened Repository
  import opened Seqs
  import opened TeamAthletes

  function TeamNotFound(id: int): Exception {
    HttpException(404, "Team with ID " + IntText(id) + " not found")
  }

  /** The team `update_team` writes: `name`, `country` and `founded_year` are required in the
      request, `city` and `logo_url` fall back to the stored team when the client left them out. */
  function MergeTeam(existing: TeamData, t: TeamCreate): (r: TeamData)
    ensures r.name == t.name && r.country == t.country && r.foundedYear == t.foundedYear
    ensures t.city.Set? ==> r.city == t.city.value
    ensures t.city.Unset? ==> r.city == existing.city
    ensures t.logoUrl.Set? ==> r.logoUrl == t.logoUrl.value
    ensures t.logoUrl.Unset? ==> r.logoUrl == existing.logoUrl
    ensures ValidTeam(existing) && ValidTeamCreate(t) ==> ValidTeam(r)
    ensures t.city.Set? && t.logoUrl.Set? ==> r == TeamFromCreate(t)
  {
    TeamData(t.name, t.country, t.city.Or(existing.city), t.foundedYear, t.logoUrl.Or(existing.logoUrl))
  }

  /** Sending the same request twice stores the same team as sending it once. */
  lemma MergeTeamIdempotent(existing: TeamData, t: TeamCreate)
    ensures MergeTeam(MergeTeam(existing, t), t) == MergeTeam(existing, t)
  {
  }

  /** `get_teams`: the repository's default page of 100. */
  method GetTeams(teams: Repository<TeamData>) returns (r: seq<Row<TeamData>>)
    requires teams.Valid()
    ensures r == Page(teams.table.Scan(), 0, DefaultLimit)
  {
    r := teams.List();
  }

  method GetTeam(teams: Repository<TeamData>, teamId: int) returns (r: Result<Row<TeamData>, Exception>)
    ensures teamId !in teams.table.rows ==> r == Err(TeamNotFound(teamId))
    ensures teamId in teams.table.rows ==> r == Ok(Row(teamId, teams.table.rows[teamId]))
  {
    var team := teams.Get(teamId);
    if team.None? {
      return Err(TeamNotFound(teamId));
    }
    r := Ok(team.value);
  }

  /** `create_team`: a new team built from the five request fields, under a fresh id. A name
      another team already has is refused by the unique index, and nothing is written. */
  method CreateTeam(teams: Repository<TeamData>, t: TeamCreate) returns (r: Result<Row<TeamData>, Exception>)
    requires teams.Valid()
    modifies teams.table
    ensures teams.Valid()
    ensures r.Err? <==> NameTaken(old(teams.table.rows), t.name, None)
    ensures r.Err? ==> r.error == IntegrityError(DuplicateKeyMessage) && unchanged(teams.table)
    ensures r.Ok? ==> r.value.data == TeamFromCreate(t) && r.value.id !in old(teams.table.rows)
    ensures r.Ok? ==> teams.table.Scan() == old(teams.table.Scan()) + [r.value]
    ensures old(UniqueNames(teams.table.rows)) ==> UniqueNames(teams.table.rows)
  {
    if NameTaken(teams.table.rows, t.name, None) {
      return Err(IntegrityError(DuplicateKeyMessage));
    }
    r := teams.Create(Entity(None, TeamFromCreate(t)));
  }

  /** `update_team`: 404 with nothing written for an unknown id; a name that another team
      has is refused by the unique index with nothing written; otherwise the merged team
      replaces the stored one under the same id. The write goes through the intended update
      `Merge`: the repository's `update` as written flushes the transient `Team` as a second
      row with the same key. */
  method UpdateTeam(teams: Repository<TeamData>, teamId: int, t: TeamCreate)
    returns (r: Result<Row<TeamData>, Exception>)
    requires teams.Valid()
    modifies teams.table
    ensures teams.Valid()
    ensures r.Err? <==> teamId !in old(teams.table.rows) || NameTaken(old(teams.table.rows), t.name, Some(teamId))
    ensures teamId !in old(teams.table.rows) ==> r == Err(TeamNotFound(teamId))
    ensures teamId in old(teams.table.rows) && r.Err? ==> r.error == IntegrityError(DuplicateKeyMessage)
    ensures r.Err? ==> unchanged(teams.table)
    ensures r.Ok? ==> r.value == Row(teamId, MergeTeam(old(teams.table.rows[teamId]), t))
    ensures r.Ok? ==> teams.table.rows == old(teams.table.rows)[teamId := r.value.data]
    ensures r.Ok? ==> teams.table.order == old(teams.table.order)
    ensures old(UniqueNames(teams.table.rows)) ==> UniqueNames(teams.table.rows)
  {
    var existing := teams.Get(teamId);
    if existing.None? {
      return Err(TeamNotFound(teamId));
    }
    if NameTaken(teams.table.rows, t.name, Some(teamId)) {
      return Err(IntegrityError(DuplicateKeyMessage));
    }
    r := teams.Merge(teamId, Entity(Some(teamId), MergeTeam(existing.value.data, t)));
  }

  /** `delete_team`: 404 for an unknown id; otherwise that team is removed, and the
      `delete-orphan` cascade on `Team.athletes` removes exactly its athletes with it. */
  method DeleteTeam(teams: Repository<TeamData>, athletes: Repository<AthleteData>, teamId: int)
    returns (r: Result<(), Exception>)
    requires teams.Valid() && athletes.Valid()
    modifies teams.table, athletes.table
    ensures teams.Valid() && athletes.Valid()
    ensures r.Err? <==> teamId !in old(teams.table.rows)
    ensures r.Err? ==> r.error == TeamNotFound(teamId) && unchanged(teams.table) && unchanged(athletes.table)
    ensures r.Ok? ==> teams.table.rows == old(teams.table.rows) - {teamId}
    ensures r.Ok? ==> teams.table.order == Excluding(old(teams.table.order), {teamId})
    ensures r.Ok? ==>
              athletes.table.rows == old(athletes.table.rows) - TeamAthleteIds(old(athletes.table.rows), teamId)
    ensures r.Ok? ==>
              athletes.table.order == Excluding(old(athletes.table.order), TeamAthleteIds(old(athletes.table.rows), teamId))
  {
    var existing := teams.Get(teamId);
    if existing.None? {
      return Err(TeamNotFound(teamId));
    }
    DeleteTeamAthletes(athletes, teamId);
    teams.Delete(teamId);
    r := Ok(());
  }
}
