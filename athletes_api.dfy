/** The athlete endpoints of the teams service (teams/src/api/v1/athletes.py): existence checks
    that answer 404, the team check on create and on a team change, and the partial update
    that copies the fields the client sent onto the stored athlete one by one. */
module AthletesApi {
  import opened Wrappers
  import opened Tables
  import opened Exceptions
  import opened Seqs
  import opened TeamsModels
  import opened AthleteSchemas
  import opened Repository

  function AthleteNotFound(id: int): Exception {
    HttpException(404, "Athlete with ID " + IntText(id) + " not found")
  }

  /** The 404 for a team id as the request carried it; a missing id prints as "None". */
  function TeamNotFound(id: Option<int>): Exception {
    HttpException(404, "Team with ID " + OptionalIntText(id) + " not found")
  }

  /** `team_repo.get(team_id)`: a `None` id selects no row. */
  function TeamLookup(teams: Repository<TeamData>, id: Option<int>): (r: Option<Row<TeamData>>)
    reads teams.table
    ensures r.Some? <==> id.Some? && id.value in teams.table.rows
    ensures r.Some? ==> r.value == Row(id.value, teams.table.rows[id.value])
  {
    if id.Some? then teams.Find(id.value) else None
  }

  // ---------------------------------------------------------------- partial update

  /** One `setattr(athlete, key, value)` of the update loop. */
  datatype Assignment =
    | FirstNameTo(firstName: string)
    | LastNameTo(lastName: string)
    | DateOfBirthTo(dateOfBirth: Option<Date>)
    | PositionTo(position: Option<string>)
    | TeamIdTo(teamId: int)

  /** Whether a team change, if the update carries one, names an existing team. */
  predicate TeamChangeOk(teams: Repository<TeamData>, u: AthleteUpdate)
    reads teams.table
  {
    u.teamId.Set? ==> TeamLookup(teams, u.teamId.value).Some?
  }

  /** The position of an assignment's field in `AthleteUpdate`. */
  function FieldRank(x: Assignment): nat {
    match x
    case FirstNameTo(_) => 0
    case LastNameTo(_) => 1
    case DateOfBirthTo(_) => 2
    case PositionTo(_) => 3
    case TeamIdTo(_) => 4
  }

  /** Whether `x` carries the value the client sent for its field. */
  predicate Sent(u: AthleteUpdate, x: Assignment) {
    match x
    case FirstNameTo(v) => u.firstName == Set(v)
    case LastNameTo(v) => u.lastName == Set(v)
    case DateOfBirthTo(v) => u.dateOfBirth == Set(v)
    case PositionTo(v) => u.position == Set(v)
    case TeamIdTo(v) => u.teamId == Set(Some(v))
  }

  /** `model_dump(exclude_unset=True)`: one assignment per field the client sent, carrying the
      sent value, in field order. It is only reached once a sent team id has been found, so
      that id is present. */
  function UpdateData(u: AthleteUpdate): (r: seq<Assignment>)
    requires u.teamId.Set? ==> u.teamId.value.Some?
    ensures |r| <= 5
    ensures u.teamId.Set? <==> r != [] && r[|r| - 1].TeamIdTo?
  {
    var a := if u.firstName.Set? then [FirstNameTo(u.firstName.value)] else [];
    var b := if u.lastName.Set? then [LastNameTo(u.lastName.value)] else [];
    var c := if u.dateOfBirth.Set? then [DateOfBirthTo(u.dateOfBirth.value)] else [];
    var d := if u.position.Set? then [PositionTo(u.position.value)] else [];
    var e := if u.teamId.Set? then [TeamIdTo(u.teamId.value.value)] else [];
    assert forall x :: x in a + b + c + d ==> !x.TeamIdTo?;
    a + b + c + d + e
  }

  /** Assignments to fields ranked from `lo` up to (not including) `hi`, in field order. */
  ghost predicate Ranked(xs: seq<Assignment>, lo: nat, hi: nat) {
    && (forall i :: 0 <= i < |xs| ==> lo <= FieldRank(xs[i]) < hi)
    && (forall i, j :: 0 <= i < j < |xs| ==> FieldRank(xs[i]) < FieldRank(xs[j]))
  }

  lemma RankedAppend(xs: seq<Assignment>, ys: seq<Assignment>, lo: nat, mid: nat, hi: nat)
    requires lo <= mid <= hi
    requires Ranked(xs, lo, mid) && Ranked(ys, mid, hi)
    ensures Ranked(xs + ys, lo, hi)
  {
    var zs := xs + ys;
    forall i | 0 <= i < |zs|
      ensures lo <= FieldRank(zs[i]) < hi
    {
      if i >= |xs| {
        assert zs[i] == ys[i - |xs|];
      }
    }
    forall i, j | 0 <= i < j < |zs|
      ensures FieldRank(zs[i]) < FieldRank(zs[j])
    {
      if j >= |xs| {
        assert zs[j] == ys[j - |xs|];
        if i >= |xs| {
          assert zs[i] == ys[i - |xs|];
        }
      }
    }
  }

  /** The dump holds exactly the fields the client sent, each with its sent value. */
  lemma UpdateDataIsSentFields(u: AthleteUpdate)
    requires u.teamId.Set? ==> u.teamId.value.Some?
    ensures forall x | x in UpdateData(u) :: Sent(u, x)
    ensures u.firstName.Set? ==> FirstNameTo(u.firstName.value) in UpdateData(u)
    ensures u.lastName.Set? ==> LastNameTo(u.lastName.value) in UpdateData(u)
    ensures u.dateOfBirth.Set? ==> DateOfBirthTo(u.dateOfBirth.value) in UpdateData(u)
    ensures u.position.Set? ==> PositionTo(u.position.value) in UpdateData(u)
    ensures u.teamId.Set? ==> TeamIdTo(u.teamId.value.value) in UpdateData(u)
  {
    var a := if u.firstName.Set? then [FirstNameTo(u.firstName.value)] else [];
    var b := if u.lastName.Set? then [LastNameTo(u.lastName.value)] else [];
    var c := if u.dateOfBirth.Set? then [DateOfBirthTo(u.dateOfBirth.value)] else [];
    var d := if u.position.Set? then [PositionTo(u.position.value)] else [];
    var e := if u.teamId.Set? then [TeamIdTo(u.teamId.value.value)] else [];
    assert UpdateData(u) == a + b + c + d + e;
    forall x | x in a + b + c + d + e
      ensures Sent(u, x)
    {
      assert x in a || x in b || x in c || x in d || x in e;
    }
  }

  /** No assignment, or one to the field ranked `k`. */
  lemma PartRanked(xs: seq<Assignment>, k: nat)
    requires xs == [] || (|xs| == 1 && FieldRank(xs[0]) == k)
    ensures Ranked(xs, k, k + 1)
  {
  }

  /** Zero or one assignment per field, concatenated in field order. */
  lemma PartsRanked(a: seq<Assignment>, b: seq<Assignment>, c: seq<Assignment>, d: seq<Assignment>, e: seq<Assignment>)
    requires a == [] || (|a| == 1 && FieldRank(a[0]) == 0)
    requires b == [] || (|b| == 1 && FieldRank(b[0]) == 1)
    requires c == [] || (|c| == 1 && FieldRank(c[0]) == 2)
    requires d == [] || (|d| == 1 && FieldRank(d[0]) == 3)
    requires e == [] || (|e| == 1 && FieldRank(e[0]) == 4)
    ensures Ranked(a + b + c + d + e, 0, 5)
  {
    PartRanked(a, 0);
    PartRanked(b, 1);
    PartRanked(c, 2);
    PartRanked(d, 3);
    PartRanked(e, 4);
    RankedAppend(a, b, 0, 1, 2);
    RankedAppend(a + b, c, 0, 2, 3);
    RankedAppend(a + b + c, d, 0, 3, 4);
    RankedAppend(a + b + c + d, e, 0, 4, 5);
  }

  /** The dump lists its fields in field order, so no field occurs twice. */
  lemma UpdateDataInFieldOrder(u: AthleteUpdate)
    requires u.teamId.Set? ==> u.teamId.value.Some?
    ensures forall i, j :: 0 <= i < j < |UpdateData(u)| ==> FieldRank(UpdateData(u)[i]) < FieldRank(UpdateData(u)[j])
  {
    var a := if u.firstName.Set? then [FirstNameTo(u.firstName.value)] else [];
    var b := if u.lastName.Set? then [LastNameTo(u.lastName.value)] else [];
    var c := if u.dateOfBirth.Set? then [DateOfBirthTo(u.dateOfBirth.value)] else [];
    var d := if u.position.Set? then [PositionTo(u.position.value)] else [];
    var e := if u.teamId.Set? then [TeamIdTo(u.teamId.value.value)] else [];
    assert UpdateData(u) == a + b + c + d + e;
    PartsRanked(a, b, c, d, e);
    assert Ranked(UpdateData(u), 0, 5);
  }

  /** `setattr` of one field. */
  function Assign(a: AthleteData, x: Assignment): AthleteData {
    match x
    case FirstNameTo(v) => a.(firstName := v)
    case LastNameTo(v) => a.(lastName := v)
    case DateOfBirthTo(v) => a.(dateOfBirth := v)
    case PositionTo(v) => a.(position := v)
    case TeamIdTo(v) => a.(teamId := v)
  }

  /** The athlete after the loop has applied `xs`, first to last. */
  function AssignAll(a: AthleteData, xs: seq<Assignment>): AthleteData {
    if xs == [] then a else Assign(AssignAll(a, xs[..|xs| - 1]), xs[|xs| - 1])
  }

  /** The intended result of a partial update: every field the client sent is taken from the
      request, every other field is kept. */
  function ApplyAthleteUpdate(existing: AthleteData, u: AthleteUpdate): (r: AthleteData)
    requires u.teamId.Set? ==> u.teamId.value.Some?
    ensures u.firstName.Set? ==> r.firstName == u.firstName.value
    ensures u.firstName.Unset? ==> r.firstName == existing.firstName
    ensures u.lastName.Set? ==> r.lastName == u.lastName.value
    ensures u.lastName.Unset? ==> r.lastName == existing.lastName
    ensures u.dateOfBirth.Set? ==> r.dateOfBirth == u.dateOfBirth.value
    ensures u.dateOfBirth.Unset? ==> r.dateOfBirth == existing.dateOfBirth
    ensures u.position.Set? ==> r.position == u.position.value
    ensures u.position.Unset? ==> r.position == existing.position
    ensures u.teamId.Set? ==> r.teamId == u.teamId.value.value
    ensures u.teamId.Unset? ==> r.teamId == existing.teamId
    ensures ValidAthlete(existing) && ValidAthleteUpdate(u) ==> ValidAthlete(r)
  {
    AthleteData(u.firstName.Or(existing.firstName), u.lastName.Or(existing.lastName),
                u.dateOfBirth.Or(existing.dateOfBirth), u.position.Or(existing.position),
                if u.teamId.Set? then u.teamId.value.value else existing.teamId)
  }

  lemma {:induction false} AssignAllAppend(a: AthleteData, xs: seq<Assignment>, ys: seq<Assignment>)
    ensures AssignAll(a, xs + ys) == AssignAll(AssignAll(a, xs), ys)
    decreases |ys|
  {
    if ys == [] {
      assert xs + ys == xs;
    } else {
      assert (xs + ys)[..|xs + ys| - 1] == xs + ys[..|ys| - 1];
      AssignAllAppend(a, xs, ys[..|ys| - 1]);
    }
  }

  /** Running the `setattr` loop over the dumped request gives the intended partial update. */
  lemma UpdateLoopApplies(existing: AthleteData, u: AthleteUpdate)
    requires u.teamId.Set? ==> u.teamId.value.Some?
    ensures AssignAll(existing, UpdateData(u)) == ApplyAthleteUpdate(existing, u)
  {
    var f := if u.firstName.Set? then [FirstNameTo(u.firstName.value)] else [];
    var l := if u.lastName.Set? then [LastNameTo(u.lastName.value)] else [];
    var d := if u.dateOfBirth.Set? then [DateOfBirthTo(u.dateOfBirth.value)] else [];
    var p := if u.position.Set? then [PositionTo(u.position.value)] else [];
    var t := if u.teamId.Set? then [TeamIdTo(u.teamId.value.value)] else [];
    assert UpdateData(u) == f + l + d + p + t;
    AssignAllAppend(existing, f + l + d + p, t);
    AssignAllAppend(existing, f + l + d, p);
    AssignAllAppend(existing, f + l, d);
    AssignAllAppend(existing, f, l);
    assert f != [] ==> f[..0] == [];
    assert l != [] ==> l[..0] == [];
    assert d != [] ==> d[..0] == [];
    assert p != [] ==> p[..0] == [];
    assert t != [] ==> t[..0] == [];
  }

  // ---------------------------------------------------------------- endpoints

  /** `get_athletes`: the repository's default page of 100. */
  method GetAthletes(athletes: Repository<AthleteData>) returns (r: seq<Row<AthleteData>>)
    requires athletes.Valid()
    ensures r == Page(athletes.table.Scan(), 0, DefaultLimit)
  {
    r := athletes.List();
  }

  method GetAthlete(athletes: Repository<AthleteData>, athleteId: int)
    returns (r: Result<Row<AthleteData>, Exception>)
    ensures athleteId !in athletes.table.rows ==> r == Err(AthleteNotFound(athleteId))
    ensures athleteId in athletes.table.rows ==> r == Ok(Row(athleteId, athletes.table.rows[athleteId]))
  {
    var athlete := athletes.Get(athleteId);
    if athlete.None? {
      return Err(AthleteNotFound(athleteId));
    }
    r := Ok(athlete.value);
  }

  /** `create_athlete`: the team must exist; the stored athlete copies the request. */
  method CreateAthlete(athletes: Repository<AthleteData>, teams: Repository<TeamData>, a: AthleteCreate)
    returns (r: Result<Row<AthleteData>, Exception>)
    requires athletes.Valid() && teams.Valid()
    modifies athletes.table
    ensures athletes.Valid()
    ensures r.Ok? <==> TeamLookup(teams, a.teamId).Some?
    ensures r.Err? ==> r.error == TeamNotFound(a.teamId) && unchanged(athletes.table)
    ensures r.Ok? ==> r.value.data == AthleteFromCreate(a, a.teamId.value) && r.value.id !in old(athletes.table.rows)
    ensures r.Ok? ==> athletes.table.Scan() == old(athletes.table.Scan()) + [r.value]
  {
    var team := TeamLookup(teams, a.teamId);
    if team.None? {
      return Err(TeamNotFound(a.teamId));
    }
    r := athletes.Create(Entity(None, AthleteFromCreate(a, a.teamId.value)));
  }

  /** `update_athlete`: 404 for an unknown athlete or an unknown new team, with nothing
      written; otherwise the fields sent overwrite the stored athlete, in place. The write goes
      through the intended update `Merge`: the repository's `update` as written raises on the
      detached instance handed to it. */
  method UpdateAthlete(athletes: Repository<AthleteData>, teams: Repository<TeamData>, athleteId: int,
                       u: AthleteUpdate)
    returns (r: Result<Row<AthleteData>, Exception>)
    requires athletes.Valid() && teams.Valid()
    modifies athletes.table
    ensures athletes.Valid()
    ensures r.Ok? <==> athleteId in old(athletes.table.rows) && TeamChangeOk(teams, u)
    ensures athleteId !in old(athletes.table.rows) ==> r == Err(AthleteNotFound(athleteId))
    ensures athleteId in old(athletes.table.rows) && !TeamChangeOk(teams, u) ==>
              r == Err(TeamNotFound(u.teamId.value))
    ensures r.Err? ==> unchanged(athletes.table)
    ensures r.Ok? ==> r.value == Row(athleteId, ApplyAthleteUpdate(old(athletes.table.rows[athleteId]), u))
    ensures r.Ok? ==> athletes.table.rows == old(athletes.table.rows)[athleteId := r.value.data]
    ensures r.Ok? ==> athletes.table.order == old(athletes.table.order)
  {
    var existing := athletes.Get(athleteId);
    if existing.None? {
      return Err(AthleteNotFound(athleteId));
    }
    if u.teamId.Set? {
      var team := TeamLookup(teams, u.teamId.value);
      if team.None? {
        return Err(TeamNotFound(u.teamId.value));
      }
    }
    var updateData := UpdateData(u);
    var athlete := existing.value.data;
    for i := 0 to |updateData|
      invariant athlete == AssignAll(existing.value.data, updateData[..i])
    {
      assert updateData[..i + 1][..i] == updateData[..i];
      athlete := Assign(athlete, updateData[i]);
    }
    assert updateData[..|updateData|] == updateData;
    UpdateLoopApplies(existing.value.data, u);
    r := athletes.Merge(athleteId, Entity(Some(athleteId), athlete));
  }

  /** `delete_athlete`: 404 for an unknown id; otherwise exactly that athlete is removed. */
  method DeleteAthlete(athletes: Repository<AthleteData>, athleteId: int) returns (r: Result<(), Exception>)
    requires athletes.Valid()
    modifies athletes.table
    ensures athletes.Valid()
    ensures r.Err? <==> athleteId !in old(athletes.table.rows)
    ensures r.Err? ==> r.error == AthleteNotFound(athleteId) && unchanged(athletes.table)
    ensures r.Ok? ==> athletes.table.rows == old(athletes.table.rows) - {athleteId}
    ensures r.Ok? ==> athletes.table.order == Excluding(old(athletes.table.order), {athleteId})
  {
    var existing := athletes.Get(athleteId);
    if existing.None? {
      return Err(AthleteNotFound(athleteId));
    }
    athletes.Delete(athleteId);
    r := Ok(());
  }
}
