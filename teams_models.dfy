/** The two ORM entities of the teams service (teams/src/db/models.py): a team and an athlete.
    A record is the data of a row; its primary key is the `Row` id that holds it. */
module TeamsModels {
  import opened Wrappers

  /** A calendar date (`datetime.date`). */
  datatype Date = Date(year: int, month: int, day: int)

  datatype TeamData = TeamData(
    name: string,
    country: string,
    city: Option<string>,
    foundedYear: int,
    logoUrl: Option<string>)

  /** Whether a team other than `except` already has `name`, which the unique index on
      `teams.name` refuses. */
  predicate NameTaken(rows: map<int, TeamData>, name: string, except: Option<int>) {
    exists k | k in rows :: rows[k].name == name && except != Some(k)
  }

  /** What the unique index on `teams.name` keeps true of the table. */
  ghost predicate UniqueNames(rows: map<int, TeamData>) {
    forall j, k | j in rows && k in rows && j != k :: rows[j].name != rows[k].name
  }

  /** An athlete always belongs to a team: the handlers store one only after finding its team. */
  datatype AthleteData = AthleteData(
    firstName: string,
    lastName: string,
    dateOfBirth: Option<Date>,
    position: Option<string>,
    teamId: int)
}
