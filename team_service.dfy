/** The teams facade (`TeamServiceFacade`, teams/src/services/team_service.py): whole-team
    operations over the team repository and the athlete repository. */
module TeamService {
  import opened Wrappers
  import opened Tables
  import opened Seqs
  import opened Exceptions
  import opened TeamsModels
  import opened Repository
  import opened TeamSchemas
  import opened AthleteSchemas
  import opened TeamStatistics
  import opened TeamAthletes

  /** What Python raises on `None.year`. */
  const NoYearMessage: string := "'NoneType' object has no attribute 'year'"

  /** The dict `get_team_full_info` returns. */
  datatype FullInfo = FullInfo(
    team: Row<TeamData>,
    athletes: seq<Row<AthleteData>>,
    athletesCount: nat,
    averageAge: Option<AgeMean>)

  /** The dict `get_teams_statistics` returns. */
  datatype TeamsStatistics = TeamsStatistics(
    totalTeams: nat,
    totalAthletes: nat,
    teamsByCountry: map<string, nat>,
    largestTeam: Option<TeamSize>,
    smallestTeam: Option<TeamSize>)

  /** `_calculate_average_age`, with `date.today()` passed in as `today`: `None` for no
      athletes, the sum and count of the ages otherwise; an athlete without a birth date
      makes it raise. */
  method CalculateAverageAge(athletes: seq<Row<AthleteData>>, today: Date)
    returns (r: Result<Option<AgeMean>, Exception>)
    ensures athletes == [] ==> r == Ok(None)
    ensures athletes != [] ==> (r.Ok? <==> AllBorn(athletes))
    ensures r.Err? ==> r.error == AttributeError(NoYearMessage)
    ensures r.Ok? && athletes != [] ==> r.value == Some(AgeMean(Sum(Ages(athletes, today)), |athletes|))
  {
    if athletes == [] {
      return Ok(None);
    }
    var ages: seq<int> := [];
    for i := 0 to |athletes|
      invariant AllBorn(athletes[..i])
      invariant ages == Ages(athletes[..i], today)
    {
      var dob := athletes[i].data.dateOfBirth;
      if dob.None? {
        return Err(AttributeError(NoYearMessage));
      }
      var age := today.year - dob.value.year;
      if today.month < dob.value.month || (today.month == dob.value.month && today.day < dob.value.day) {
        age := age - 1;
      }
      assert athletes[..i + 1] == athletes[..i] + [athletes[i]];
      ages := ages + [age];
    }
    assert athletes[..|athletes|] == athletes;
    r := Ok(Some(AgeMean(Sum(ages), |ages|)));
  }

  /** The `teams_by_country` loop: one key per country, counting its teams. */
  method CountTeamsByCountry(teams: seq<Row<TeamData>>) returns (byCountry: map<string, nat>)
    ensures forall c :: c in byCountry <==> CountIn(teams, c) > 0
    ensures forall c :: c in byCountry ==> byCountry[c] == CountIn(teams, c)
  {
    byCountry := map[];
    for i := 0 to |teams|
      invariant forall c :: c in byCountry <==> CountIn(teams[..i], c) > 0
      invariant forall c :: c in byCountry ==> byCountry[c] == CountIn(teams[..i], c)
    {
      assert teams[..i + 1][..i] == teams[..i];
      var country := teams[i].data.country;
      var count := if country in byCountry then byCountry[country] else 0;
      byCountry := byCountry[country := count + 1];
    }
    assert teams[..|teams|] == teams;
  }

  /** The `team_sizes` loop: one (name, number of athletes) pair per team, in order. */
  method ComputeTeamSizes(teams: seq<Row<TeamData>>, athletes: seq<Row<AthleteData>>) returns (sizes: seq<TeamSize>)
    ensures sizes == TeamSizes(teams, athletes)
  {
    sizes := [];
    for i := 0 to |teams|
      invariant |sizes| == i
      invariant forall j :: 0 <= j < i ==>
                  sizes[j] == TeamSize(teams[j].data.name, |AthletesOf(athletes, teams[j].id)|)
    {
      sizes := sizes + [TeamSize(teams[i].data.name, |AthletesOf(athletes, teams[i].id)|)];
    }
  }

  class TeamServiceFacade {
    const teams: Repository<TeamData>
    const athletes: Repository<AthleteData>

    ghost predicate Valid()
      reads teams, athletes, teams.table, athletes.table
    {
      teams.Valid() && athletes.Valid()
    }

    constructor (teams: Repository<TeamData>, athletes: Repository<AthleteData>)
      ensures this.teams == teams && this.athletes == athletes
    {
      this.teams := teams;
      this.athletes := athletes;
    }

    /** Creates the team, then one athlete per request in order, each on the new team, and
        returns the new team as read back. A name another team already has is refused by
        the unique index before anything is written. */
    method CreateTeamWithAthletes(teamData: TeamCreate, athletesData: seq<AthleteCreate>)
      returns (r: Result<Row<TeamData>, Exception>)
      requires Valid()
      modifies teams.table, athletes.table
      ensures Valid()
      ensures r.Err? <==> NameTaken(old(teams.table.rows), teamData.name, None)
      ensures r.Err? ==> r.error == IntegrityError(DuplicateKeyMessage) && unchanged(teams.table) && unchanged(athletes.table)
      ensures r.Ok? ==> r.value.data == TeamFromCreate(teamData) && r.value.id !in old(teams.table.rows)
      ensures r.Ok? ==> teams.table.Scan() == old(teams.table.Scan()) + [r.value]
      ensures r.Ok? ==> |athletes.table.Scan()| == |old(athletes.table.Scan())| + |athletesData|
      ensures r.Ok? ==> athletes.table.Scan()[..|old(athletes.table.Scan())|] == old(athletes.table.Scan())
      ensures r.Ok? ==> forall i :: 0 <= i < |athletesData| ==>
                athletes.table.Scan()[|old(athletes.table.Scan())| + i].data == AthleteFromCreate(athletesData[i], r.value.id)
    {
      if NameTaken(teams.table.rows, teamData.name, None) {
        return Err(IntegrityError(DuplicateKeyMessage));
      }
      var created := teams.Create(Entity(None, TeamFromCreate(teamData)));
      var team := created.value;
      CreateAthletesOn(team.id, athletesData);
      var readBack := teams.Get(team.id);
      r := Ok(readBack.value);
    }

    /** The loop of `create_team_with_athletes`: one athlete created per request, in order,
        each on team `teamId`. */
    method CreateAthletesOn(teamId: int, athletesData: seq<AthleteCreate>)
      requires athletes.Valid()
      modifies athletes.table
      ensures athletes.Valid()
      ensures |athletes.table.Scan()| == |old(athletes.table.Scan())| + |athletesData|
      ensures athletes.table.Scan()[..|old(athletes.table.Scan())|] == old(athletes.table.Scan())
      ensures forall i :: 0 <= i < |athletesData| ==>
                athletes.table.Scan()[|old(athletes.table.Scan())| + i].data == AthleteFromCreate(athletesData[i], teamId)
    {
      ghost var before := athletes.table.Scan();
      ghost var added: seq<Row<AthleteData>> := [];
      for i := 0 to |athletesData|
        invariant athletes.Valid()
        invariant athletes.table.Scan() == before + added
        invariant |added| == i
        invariant forall j :: 0 <= j < i ==> added[j].data == AthleteFromCreate(athletesData[j], teamId)
      {
        var a := athletes.Create(Entity(None, AthleteFromCreate(athletesData[i], teamId)));
        added := added + [a.value];
      }
      assert athletes.table.Scan()[..|before|] == before;
    }

    /** The team with its athletes, their count and their mean age; `None` for an unknown
        team. */
    method GetTeamFullInfo(teamId: int, today: Date) returns (r: Result<Option<FullInfo>, Exception>)
      requires Valid()
      ensures teamId !in teams.table.rows ==> r == Ok(None)
      ensures teamId in teams.table.rows ==>
                (r.Ok? <==> AllBorn(AthletesOf(athletes.table.Scan(), teamId)))
      ensures r.Err? ==> r.error == AttributeError(NoYearMessage)
      ensures r.Ok? && r.value.Some? ==>
                var info := r.value.value;
                && teamId in teams.table.rows
                && info.team == Row(teamId, teams.table.rows[teamId])
                && info.athletes == AthletesOf(athletes.table.Scan(), teamId)
                && DistinctIds(info.athletes)
                && RowIds(info.athletes) == TeamAthleteIds(athletes.table.rows, teamId)
                && info.athletesCount == |info.athletes| == |TeamAthleteIds(athletes.table.rows, teamId)|
                && (info.athletes == [] <==> info.averageAge.None?)
                && (info.averageAge.Some? ==>
                      info.averageAge.value == AgeMean(Sum(Ages(info.athletes, today)), |info.athletes|))
    {
      var team := teams.Get(teamId);
      if team.None? {
        return Ok(None);
      }
      var all := athletes.ListAll();
      var teamAthletes := AthletesOf(all, teamId);
      TeamAthletesOf(athletes.table, teamId);
      var averageAge := CalculateAverageAge(teamAthletes, today);
      if averageAge.Err? {
        return Err(averageAge.error);
      }
      r := Ok(Some(FullInfo(team.value, teamAthletes, |teamAthletes|, averageAge.value)));
    }

    /** Moves an athlete to another team, changing nothing else about it; `None` and no
        write when either the athlete or the team is unknown. The write goes through the
        intended update `Merge`: the repository's `update` as written raises on the detached
        instance handed to it. */
    method TransferAthlete(athleteId: int, newTeamId: int) returns (r: Option<Row<AthleteData>>)
      requires Valid()
      modifies athletes.table
      ensures Valid()
      ensures r.None? <==> athleteId !in old(athletes.table.rows) || newTeamId !in teams.table.rows
      ensures r.None? ==> unchanged(athletes.table)
      ensures r.Some? ==> r.value == Row(athleteId, old(athletes.table.rows[athleteId]).(teamId := newTeamId))
      ensures r.Some? ==> athletes.table.rows == old(athletes.table.rows)[athleteId := r.value.data]
      ensures r.Some? ==> athletes.table.order == old(athletes.table.order)
    {
      var athlete := athletes.Get(athleteId);
      if athlete.None? {
        return None;
      }
      var newTeam := teams.Get(newTeamId);
      if newTeam.None? {
        return None;
      }
      var moved := athlete.value.data.(teamId := newTeamId);
      var updated := athletes.Merge(athleteId, Entity(Some(athleteId), moved));
      r := Some(updated.value);
    }

    /** Deletes every athlete of the team, then the team; `false` and no change when the
        team is unknown. Athletes of other teams are left as they were. */
    method DeleteTeamCascade(teamId: int) returns (deleted: bool)
      requires Valid()
      modifies teams.table, athletes.table
      ensures Valid()
      ensures deleted <==> teamId in old(teams.table.rows)
      ensures !deleted ==> unchanged(teams.table) && unchanged(athletes.table)
      ensures deleted ==> teams.table.rows == old(teams.table.rows) - {teamId}
      ensures deleted ==> teams.table.order == Excluding(old(teams.table.order), {teamId})
      ensures deleted ==>
                athletes.table.rows == old(athletes.table.rows) - TeamAthleteIds(old(athletes.table.rows), teamId)
      ensures deleted ==>
                athletes.table.order == Excluding(old(athletes.table.order), TeamAthleteIds(old(athletes.table.rows), teamId))
      ensures forall k :: k in old(athletes.table.rows) && old(athletes.table.rows[k]).teamId != teamId ==>
                k in athletes.table.rows && athletes.table.rows[k] == old(athletes.table.rows[k])
    {
      var team := teams.Get(teamId);
      if team.None? {
        return false;
      }
      DeleteTeamAthletes(athletes, teamId);
      teams.Delete(teamId);
      deleted := true;
    }

    /** Team and athlete totals, teams per country, and the first largest and smallest team
        by number of athletes (`None` when there are no teams). */
    method GetTeamsStatistics() returns (s: TeamsStatistics)
      requires Valid()
      ensures s.totalTeams == |teams.table.order| && s.totalAthletes == |athletes.table.order|
      ensures forall c :: c in s.teamsByCountry <==> CountIn(teams.table.Scan(), c) > 0
      ensures forall c :: c in s.teamsByCountry ==> s.teamsByCountry[c] == CountIn(teams.table.Scan(), c)
      ensures teams.table.order == [] ==> s.largestTeam.None? && s.smallestTeam.None?
      ensures teams.table.order != [] ==>
                var sizes := TeamSizes(teams.table.Scan(), athletes.table.Scan());
                s.largestTeam == Some(sizes[MaxIndex(sizes)]) && s.smallestTeam == Some(sizes[MinIndex(sizes)])
      ensures teams.table.order != [] ==>
                var sizes := TeamSizes(teams.table.Scan(), athletes.table.Scan());
                var largest, smallest := teams.table.Scan()[MaxIndex(sizes)], teams.table.Scan()[MinIndex(sizes)];
                && s.largestTeam == Some(TeamSize(largest.data.name, |TeamAthleteIds(athletes.table.rows, largest.id)|))
                && s.smallestTeam == Some(TeamSize(smallest.data.name, |TeamAthleteIds(athletes.table.rows, smallest.id)|))
    {
      var allTeams := teams.ListAll();
      var allAthletes := athletes.ListAll();
      var byCountry := CountTeamsByCountry(allTeams);
      var largest: Option<TeamSize> := None;
      var smallest: Option<TeamSize> := None;
      if allTeams != [] {
        var sizes := ComputeTeamSizes(allTeams, allAthletes);
        TeamSizesCountAthletes(allTeams, athletes.table);
        largest := Some(sizes[MaxIndex(sizes)]);
        smallest := Some(sizes[MinIndex(sizes)]);
      }
      s := TeamsStatistics(|allTeams|, |allAthletes|, byCountry, largest, smallest);
    }
  }
}
