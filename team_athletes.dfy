/** The `Team.athletes` relationship of the teams service (teams/src/db/models.py): the
    athletes whose `team_id` is a team's id, and the `delete-orphan` cascade that deletes
    them together with their team. */
module TeamAthletes {
  import opened Tables
  import opened TeamsModels
  import opened Repository
  import opened TeamStatistics

  /** The ids of the athletes of team `teamId`. */
  function TeamAthleteIds(rows: map<int, AthleteData>, teamId: int): set<int> {
    set k | k in rows && rows[k].teamId == teamId
  }

  /** Picking a team's athletes out of a scan of the athlete table yields each of them once:
      their ids are exactly the team's athlete ids, and there are as many as there are ids. */
  lemma TeamAthletesOf(table: Table<AthleteData>, teamId: int)
    requires table.Valid()
    ensures DistinctIds(AthletesOf(table.Scan(), teamId))
    ensures RowIds(AthletesOf(table.Scan(), teamId)) == TeamAthleteIds(table.rows, teamId)
    ensures |AthletesOf(table.Scan(), teamId)| == |TeamAthleteIds(table.rows, teamId)|
  {
    var all := table.Scan();
    forall k | k in table.rows
      ensures exists i :: 0 <= i < |all| && all[i].id == k
    {
      assert k in table.order;
      var i :| 0 <= i < |table.order| && table.order[i] == k;
      assert all[i].id == k;
    }
    ScannedTeamIds(all, table.rows, teamId);
    RowIdsCount(AthletesOf(all, teamId));
  }

  /** The ids of a team's athletes picked out of a scan that lists every stored row. */
  lemma ScannedTeamIds(all: seq<Row<AthleteData>>, rows: map<int, AthleteData>, teamId: int)
    requires forall k :: k in rows ==> exists i :: 0 <= i < |all| && all[i].id == k
    requires forall i :: 0 <= i < |all| ==> all[i].id in rows && all[i].data == rows[all[i].id]
    ensures RowIds(AthletesOf(all, teamId)) == TeamAthleteIds(rows, teamId)
  {
    var mine := AthletesOf(all, teamId);
    forall k | k in TeamAthleteIds(rows, teamId)
      ensures k in RowIds(mine)
    {
      var i :| 0 <= i < |all| && all[i].id == k;
      assert all[i] in mine;
      var j :| 0 <= j < |mine| && mine[j] == all[i];
      assert mine[j].id == k;
    }
    forall k | k in RowIds(mine)
      ensures k in TeamAthleteIds(rows, teamId)
    {
      var j :| 0 <= j < |mine| && mine[j].id == k;
      assert mine[j] in all;
    }
  }

  /** The sizes behind the largest and smallest team count each team's stored athletes. */
  lemma TeamSizesCountAthletes(teams: seq<Row<TeamData>>, athletes: Table<AthleteData>)
    requires athletes.Valid()
    ensures forall i :: 0 <= i < |teams| ==>
              TeamSizes(teams, athletes.Scan())[i] == TeamSize(teams[i].data.name, |TeamAthleteIds(athletes.rows, teams[i].id)|)
  {
    forall i | 0 <= i < |teams|
      ensures TeamSizes(teams, athletes.Scan())[i].size == |TeamAthleteIds(athletes.rows, teams[i].id)|
    {
      TeamAthletesOf(athletes, teams[i].id);
    }
  }

  /** The cascade: every athlete of team `teamId` is deleted, and nothing else. */
  method DeleteTeamAthletes(athletes: Repository<AthleteData>, teamId: int)
    requires athletes.Valid()
    modifies athletes.table
    ensures athletes.Valid()
    ensures athletes.table.rows == old(athletes.table.rows) - TeamAthleteIds(old(athletes.table.rows), teamId)
    ensures athletes.table.order ==
              Excluding(old(athletes.table.order), TeamAthleteIds(old(athletes.table.rows), teamId))
  {
    var all := athletes.ListAll();
    var teamAthletes := AthletesOf(all, teamId);
    TeamAthletesOf(athletes.table, teamId);
    DeleteEach(athletes, teamAthletes);
  }

  /** Deletes the given athletes one after the other. */
  method DeleteEach(athletes: Repository<AthleteData>, victims: seq<Row<AthleteData>>)
    requires athletes.Valid()
    modifies athletes.table
    ensures athletes.Valid()
    ensures athletes.table.rows == old(athletes.table.rows) - RowIds(victims)
    ensures athletes.table.order == Excluding(old(athletes.table.order), RowIds(victims))
  {
    ghost var rows0 := athletes.table.rows;
    ghost var order0 := athletes.table.order;
    ExcludingAbsent(order0, {});
    for i := 0 to |victims|
      invariant athletes.Valid()
      invariant athletes.table.rows == rows0 - RowIds(victims[..i])
      invariant athletes.table.order == Excluding(order0, RowIds(victims[..i]))
    {
      ghost var done := RowIds(victims[..i]);
      assert victims[..i + 1] == victims[..i] + [victims[i]];
      RowIdsAppend(victims[..i], victims[i]);
      ExcludingTwice(order0, done, {victims[i].id});
      RemoveTwice(rows0, done, {victims[i].id});
      athletes.Delete(victims[i].id);
    }
    assert victims[..|victims|] == victims;
  }
}
