/** The athlete request and response schemas (teams/src/api/schemas/athletes.py) as
    validators, and the conversion of a validated request into a stored athlete. */
module AthleteSchemas {
  import opened Wrappers
  import opened Validation
  import opened TeamsModels
  import opened Tables

  const AthleteNameMin: nat := 1
  const AthleteNameMax: nat := 50

  /** The fields of the athlete schemas that carry a constraint. */
  datatype AthleteField = FirstNameField | LastNameField | IdField | TeamIdField

  function AthleteFieldName(f: AthleteField): string {
    match f
    case FirstNameField => "first_name"
    case LastNameField => "last_name"
    case IdField => "id"
    case TeamIdField => "team_id"
  }

  /** `AthleteCreate`: `date_of_birth`, `position` and `team_id` are optional. */
  datatype AthleteCreate = AthleteCreate(
    firstName: string,
    lastName: string,
    dateOfBirth: Option<Date>,
    position: Option<string>,
    teamId: Option<int>)

  /** `AthleteUpdate`: every field may be left unset, and only the set ones are applied. */
  datatype AthleteUpdate = AthleteUpdate(
    firstName: Patch<string>,
    lastName: Patch<string>,
    dateOfBirth: Patch<Option<Date>>,
    position: Patch<Option<string>>,
    teamId: Patch<Option<int>>)

  /** The attributes of an athlete object as `AthleteResponse` reads them; before the
      object is stored its `id` (and possibly its `team_id`) is still `None`. */
  datatype AthleteAttributes = AthleteAttributes(
    id: Option<int>,
    firstName: string,
    lastName: string,
    dateOfBirth: Option<Date>,
    position: Option<string>,
    teamId: Option<int>)

  datatype AthleteResponse = AthleteResponse(
    id: int,
    firstName: string,
    lastName: string,
    dateOfBirth: Option<Date>,
    position: Option<string>,
    teamId: int)

  predicate NameOk(s: string) {
    LengthOk(s, AthleteNameMin, AthleteNameMax)
  }

  /** The `AthleteBase` constraints on a stored athlete. */
  predicate ValidAthlete(a: AthleteData) {
    NameOk(a.firstName) && NameOk(a.lastName)
  }

  predicate ValidAthleteCreate(a: AthleteCreate) {
    NameOk(a.firstName) && NameOk(a.lastName)
  }

  /** Names that are present keep the 1..50 bound; every other field is free. */
  predicate ValidAthleteUpdate(u: AthleteUpdate) {
    && (u.firstName.Set? ==> NameOk(u.firstName.value))
    && (u.lastName.Set? ==> NameOk(u.lastName.value))
  }

  function AthleteCreateErrors(a: AthleteCreate): (r: seq<FieldError<AthleteField>>)
    ensures r == [] <==> ValidAthleteCreate(a)
    ensures Reports(r, FirstNameField) <==> !NameOk(a.firstName)
    ensures Reports(r, LastNameField) <==> !NameOk(a.lastName)
    ensures !Reports(r, IdField) && !Reports(r, TeamIdField)
  {
    var x := LengthErrors(FirstNameField, a.firstName, AthleteNameMin, AthleteNameMax);
    var y := LengthErrors(LastNameField, a.lastName, AthleteNameMin, AthleteNameMax);
    ReportsFive(x, y, [], [], [], FirstNameField, LastNameField, IdField, IdField, IdField, FirstNameField);
    ReportsFive(x, y, [], [], [], FirstNameField, LastNameField, IdField, IdField, IdField, LastNameField);
    ReportsFive(x, y, [], [], [], FirstNameField, LastNameField, IdField, IdField, IdField, IdField);
    ReportsFive(x, y, [], [], [], FirstNameField, LastNameField, IdField, IdField, IdField, TeamIdField);
    assert x + y == x + y + [] + [] + [];
    x + y
  }

  function AthleteUpdateErrors(u: AthleteUpdate): (r: seq<FieldError<AthleteField>>)
    ensures r == [] <==> ValidAthleteUpdate(u)
    ensures Reports(r, FirstNameField) <==> u.firstName.Set? && !NameOk(u.firstName.value)
    ensures Reports(r, LastNameField) <==> u.lastName.Set? && !NameOk(u.lastName.value)
  {
    var x := if u.firstName.Set? then LengthErrors(FirstNameField, u.firstName.value, AthleteNameMin, AthleteNameMax) else [];
    var y := if u.lastName.Set? then LengthErrors(LastNameField, u.lastName.value, AthleteNameMin, AthleteNameMax) else [];
    ReportsFive(x, y, [], [], [], FirstNameField, LastNameField, IdField, IdField, IdField, FirstNameField);
    ReportsFive(x, y, [], [], [], FirstNameField, LastNameField, IdField, IdField, IdField, LastNameField);
    assert x + y == x + y + [] + [] + [];
    x + y
  }

  /** Serialising an athlete object as an `AthleteResponse`: both `id` and `team_id` are
      required, and the names keep their bounds. */
  function ToResponse(a: AthleteAttributes): (r: Result<AthleteResponse, seq<FieldError<AthleteField>>>)
    ensures r.Ok? <==> a.id.Some? && a.teamId.Some? && NameOk(a.firstName) && NameOk(a.lastName)
    ensures r.Ok? ==> r.value == AthleteResponse(a.id.value, a.firstName, a.lastName, a.dateOfBirth,
                                                 a.position, a.teamId.value)
    ensures r.Err? ==> (Reports(r.error, IdField) <==> a.id.None?)
    ensures r.Err? ==> (Reports(r.error, TeamIdField) <==> a.teamId.None?)
    ensures r.Err? ==> (Reports(r.error, FirstNameField) <==> !NameOk(a.firstName))
    ensures r.Err? ==> (Reports(r.error, LastNameField) <==> !NameOk(a.lastName))
  {
    var w := RequiredErrors(IdField, a.id);
    var x := LengthErrors(FirstNameField, a.firstName, AthleteNameMin, AthleteNameMax);
    var y := LengthErrors(LastNameField, a.lastName, AthleteNameMin, AthleteNameMax);
    var z := RequiredErrors(TeamIdField, a.teamId);
    var errors := w + x + y + z + [];
    ReportsFive(w, x, y, z, [], IdField, FirstNameField, LastNameField, TeamIdField, IdField, IdField);
    ReportsFive(w, x, y, z, [], IdField, FirstNameField, LastNameField, TeamIdField, IdField, TeamIdField);
    ReportsFive(w, x, y, z, [], IdField, FirstNameField, LastNameField, TeamIdField, IdField, FirstNameField);
    ReportsFive(w, x, y, z, [], IdField, FirstNameField, LastNameField, TeamIdField, IdField, LastNameField);
    if errors == [] then
      Ok(AthleteResponse(a.id.value, a.firstName, a.lastName, a.dateOfBirth, a.position, a.teamId.value))
    else Err(errors)
  }

  /** The attributes of a stored athlete row. */
  function RowAttributes(row: Row<AthleteData>): AthleteAttributes {
    AthleteAttributes(Some(row.id), row.data.firstName, row.data.lastName, row.data.dateOfBirth,
                      row.data.position, Some(row.data.teamId))
  }

  /** A stored athlete can always be served once its names are valid: the id and the team
      id that `AthleteResponse` requires are present on every row. */
  lemma StoredAthleteServes(row: Row<AthleteData>)
    requires ValidAthlete(row.data)
    ensures ToResponse(RowAttributes(row)).Ok?
    ensures ToResponse(RowAttributes(row)).value.id == row.id
    ensures ToResponse(RowAttributes(row)).value.teamId == row.data.teamId
  {
  }

  /** The athlete built from a create request once its team is known (the handler
      `create_athlete`, and the facade's `create_team_with_athletes`). */
  function AthleteFromCreate(a: AthleteCreate, teamId: int): (r: AthleteData)
    ensures r.firstName == a.firstName && r.lastName == a.lastName
    ensures r.dateOfBirth == a.dateOfBirth && r.position == a.position
    ensures r.teamId == teamId
    ensures ValidAthleteCreate(a) ==> ValidAthlete(r)
  {
    AthleteData(a.firstName, a.lastName, a.dateOfBirth, a.position, teamId)
  }
}
