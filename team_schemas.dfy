/** The team request and response schemas (teams/src/api/schemas/teams.py) as validators,
    and the conversion of a validated request into a stored team. */
module TeamSchemas {
  import opened Wrappers
  import opened Validation
  import opened TeamsModels

  const NameMin: nat := 1
  const NameMax: nat := 100
  const CountryMin: nat := 2
  const CountryMax: nat := 50
  const CityMax: nat := 50
  const LogoUrlMax: nat := 255
  const FoundedMin: int := 1800
  const FoundedMax: int := 2024

  /** The fields of the team schemas, and their names in a request body. */
  datatype TeamField = NameField | CountryField | CityField | FoundedYearField | LogoUrlField

  function TeamFieldName(f: TeamField): string {
    match f
    case NameField => "name"
    case CountryField => "country"
    case CityField => "city"
    case FoundedYearField => "founded_year"
    case LogoUrlField => "logo_url"
  }

  /** `TeamCreate`. `city` and `logo_url` have a default, so a request may leave them unset,
      which the update handler tells apart from an explicit `null`. */
  datatype TeamCreate = TeamCreate(
    name: string,
    country: string,
    city: Patch<Option<string>>,
    foundedYear: int,
    logoUrl: Patch<Option<string>>)

  /** `TeamUpdate`: every field optional. */
  datatype TeamUpdate = TeamUpdate(
    name: Option<string>,
    country: Option<string>,
    city: Option<string>,
    foundedYear: Option<int>,
    logoUrl: Option<string>)

  /** The `TeamBase` constraints, which a stored team must meet to be served as a
      `TeamResponse`. */
  predicate ValidTeam(t: TeamData) {
    && LengthOk(t.name, NameMin, NameMax)
    && LengthOk(t.country, CountryMin, CountryMax)
    && (t.city.Some? ==> LengthOk(t.city.value, 0, CityMax))
    && FoundedMin <= t.foundedYear <= FoundedMax
    && (t.logoUrl.Some? ==> LengthOk(t.logoUrl.value, 0, LogoUrlMax))
  }

  predicate ValidTeamCreate(t: TeamCreate) {
    && LengthOk(t.name, NameMin, NameMax)
    && LengthOk(t.country, CountryMin, CountryMax)
    && (t.city.Set? && t.city.value.Some? ==> LengthOk(t.city.value.value, 0, CityMax))
    && FoundedMin <= t.foundedYear <= FoundedMax
    && (t.logoUrl.Set? && t.logoUrl.value.Some? ==> LengthOk(t.logoUrl.value.value, 0, LogoUrlMax))
  }

  /** A field that is present obeys its `TeamBase` bound; an absent one passes. */
  predicate ValidTeamUpdate(u: TeamUpdate) {
    && (u.name.Some? ==> LengthOk(u.name.value, NameMin, NameMax))
    && (u.country.Some? ==> LengthOk(u.country.value, CountryMin, CountryMax))
    && (u.city.Some? ==> LengthOk(u.city.value, 0, CityMax))
    && (u.foundedYear.Some? ==> FoundedMin <= u.foundedYear.value <= FoundedMax)
    && (u.logoUrl.Some? ==> LengthOk(u.logoUrl.value, 0, LogoUrlMax))
  }

  function FieldValue<T>(p: Patch<Option<T>>): Option<T> {
    p.Or(None)
  }

  /** The errors pydantic reports for a `TeamCreate` body, field by field: a field is
      reported exactly when its own bound fails. */
  function TeamCreateErrors(t: TeamCreate): (r: seq<FieldError<TeamField>>)
    ensures r == [] <==> ValidTeamCreate(t)
    ensures Reports(r, NameField) <==> !LengthOk(t.name, NameMin, NameMax)
    ensures Reports(r, CountryField) <==> !LengthOk(t.country, CountryMin, CountryMax)
    ensures Reports(r, CityField) <==> t.city.Set? && t.city.value.Some? && !LengthOk(t.city.value.value, 0, CityMax)
    ensures Reports(r, FoundedYearField) <==> !(FoundedMin <= t.foundedYear <= FoundedMax)
    ensures Reports(r, LogoUrlField) <==>
              t.logoUrl.Set? && t.logoUrl.value.Some? && !LengthOk(t.logoUrl.value.value, 0, LogoUrlMax)
  {
    var a := LengthErrors(NameField, t.name, NameMin, NameMax);
    var b := LengthErrors(CountryField, t.country, CountryMin, CountryMax);
    var c := OptionalLengthErrors(CityField, FieldValue(t.city), 0, CityMax);
    var d := RangeErrors(FoundedYearField, t.foundedYear, FoundedMin, FoundedMax);
    var e := OptionalLengthErrors(LogoUrlField, FieldValue(t.logoUrl), 0, LogoUrlMax);
    ReportsFive(a, b, c, d, e, NameField, CountryField, CityField, FoundedYearField, LogoUrlField, NameField);
    ReportsFive(a, b, c, d, e, NameField, CountryField, CityField, FoundedYearField, LogoUrlField, CountryField);
    ReportsFive(a, b, c, d, e, NameField, CountryField, CityField, FoundedYearField, LogoUrlField, CityField);
    ReportsFive(a, b, c, d, e, NameField, CountryField, CityField, FoundedYearField, LogoUrlField, FoundedYearField);
    ReportsFive(a, b, c, d, e, NameField, CountryField, CityField, FoundedYearField, LogoUrlField, LogoUrlField);
    a + b + c + d + e
  }

  /** The errors pydantic reports for a `TeamUpdate` body: only fields that are present can
      be reported. */
  function TeamUpdateErrors(u: TeamUpdate): (r: seq<FieldError<TeamField>>)
    ensures r == [] <==> ValidTeamUpdate(u)
    ensures Reports(r, NameField) <==> u.name.Some? && !LengthOk(u.name.value, NameMin, NameMax)
    ensures Reports(r, CountryField) <==> u.country.Some? && !LengthOk(u.country.value, CountryMin, CountryMax)
    ensures Reports(r, CityField) <==> u.city.Some? && !LengthOk(u.city.value, 0, CityMax)
    ensures Reports(r, FoundedYearField) <==>
              u.foundedYear.Some? && !(FoundedMin <= u.foundedYear.value <= FoundedMax)
    ensures Reports(r, LogoUrlField) <==> u.logoUrl.Some? && !LengthOk(u.logoUrl.value, 0, LogoUrlMax)
  {
    var a := OptionalLengthErrors(NameField, u.name, NameMin, NameMax);
    var b := OptionalLengthErrors(CountryField, u.country, CountryMin, CountryMax);
    var c := OptionalLengthErrors(CityField, u.city, 0, CityMax);
    var d := if u.foundedYear.Some? then RangeErrors(FoundedYearField, u.foundedYear.value, FoundedMin, FoundedMax) else [];
    var e := OptionalLengthErrors(LogoUrlField, u.logoUrl, 0, LogoUrlMax);
    ReportsFive(a, b, c, d, e, NameField, CountryField, CityField, FoundedYearField, LogoUrlField, NameField);
    ReportsFive(a, b, c, d, e, NameField, CountryField, CityField, FoundedYearField, LogoUrlField, CountryField);
    ReportsFive(a, b, c, d, e, NameField, CountryField, CityField, FoundedYearField, LogoUrlField, CityField);
    ReportsFive(a, b, c, d, e, NameField, CountryField, CityField, FoundedYearField, LogoUrlField, FoundedYearField);
    ReportsFive(a, b, c, d, e, NameField, CountryField, CityField, FoundedYearField, LogoUrlField, LogoUrlField);
    a + b + c + d + e
  }

  /** The same body read as a `TeamUpdate`: every field present, unset ones as `None`. */
  function AsUpdate(t: TeamCreate): TeamUpdate {
    TeamUpdate(Some(t.name), Some(t.country), FieldValue(t.city), Some(t.foundedYear), FieldValue(t.logoUrl))
  }

  /** `TeamUpdate` keeps the `TeamBase` bounds on the fields it carries: a body is a valid
      full update exactly when it is a valid create. */
  lemma UpdateKeepsCreateBounds(t: TeamCreate)
    ensures ValidTeamUpdate(AsUpdate(t)) <==> ValidTeamCreate(t)
  {
  }

  /** The team built from a create request (teams.py `create_team`, and the facade's
      `create_team_with_athletes`): the five fields copied, unset ones as `None`. */
  function TeamFromCreate(t: TeamCreate): (r: TeamData)
    ensures r.name == t.name && r.country == t.country && r.foundedYear == t.foundedYear
    ensures t.city.Set? ==> r.city == t.city.value
    ensures t.city.Unset? ==> r.city.None?
    ensures t.logoUrl.Set? ==> r.logoUrl == t.logoUrl.value
    ensures t.logoUrl.Unset? ==> r.logoUrl.None?
    ensures ValidTeamCreate(t) ==> ValidTeam(r)
  {
    TeamData(t.name, t.country, FieldValue(t.city), t.foundedYear, FieldValue(t.logoUrl))
  }
}
