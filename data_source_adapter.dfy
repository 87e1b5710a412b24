/** The data-source adapter of the teams service (teams/src/adapters/data_source_adapter.py):
    the local database and a mocked external API behind one `get_teams` / `get_team_by_id`
    interface, the adaptation of the external record format to the internal one, and the
    merge of several sources. */
module DataSourceAdapter {
  import opened Wrappers
  import opened Tables
  import opened Seqs
  import opened TeamsModels
  import opened Repository

  /** A team as the application's dict format holds it. The database source leaves out
      `source`; the adapted external records set it to "external_api". A key the external
      record lacks is `None`. */
  datatype TeamRecord = TeamRecord(
    id: Option<int>,
    name: Option<string>,
    country: Option<string>,
    city: Option<string>,
    foundedYear: Option<int>,
    logoUrl: Option<string>,
    source: Option<string>)

  /** The nested `location` object of the external format. */
  datatype Location = Location(country: Option<string>, city: Option<string>)

  /** A team in the external API's format; every key may be missing. */
  datatype ExternalTeam = ExternalTeam(
    teamId: Option<int>,
    teamName: Option<string>,
    location: Option<Location>,
    yearFounded: Option<int>,
    logoImage: Option<string>)

  /** The two implementations of the data-source interface. */
  datatype DataSource =
    | DatabaseSource(repository: Repository<TeamData>)
    | ExternalApiSource(apiUrl: string)

  /** What `get_teams` hands back: internal dicts from the database, external records from
      the API. */
  datatype RawTeams = DatabaseRecords(records: seq<TeamRecord>) | ExternalRecords(teams: seq<ExternalTeam>)

  /** What `get_team_by_id` hands back when it finds a team. */
  datatype RawTeam = DatabaseRecord(record: TeamRecord) | ExternalRecord(team: ExternalTeam)

  const DefaultApiUrl: string := "https://api.example.com"
  const ExternalSourceTag: string := "external_api"

  /** The tables a source reads. */
  function SourceTables(s: DataSource): set<object> {
    if s.DatabaseSource? then {s.repository.table} else {}
  }

  ghost predicate SourceReady(s: DataSource)
    reads SourceTables(s)
  {
    s.DatabaseSource? ==> s.repository.Valid()
  }

  /** `DatabaseDataSource._team_to_dict`: the six columns under their own names. */
  function TeamToDict(row: Row<TeamData>): (r: TeamRecord)
    ensures r.id == Some(row.id) && r.name == Some(row.data.name) && r.country == Some(row.data.country)
    ensures r.city == row.data.city && r.foundedYear == Some(row.data.foundedYear) && r.logoUrl == row.data.logoUrl
    ensures r.source.None?
  {
    TeamRecord(Some(row.id), Some(row.data.name), Some(row.data.country), row.data.city,
               Some(row.data.foundedYear), row.data.logoUrl, None)
  }

  /** `[self._team_to_dict(team) for team in teams]` */
  function TeamsToDicts(rows: seq<Row<TeamData>>): (r: seq<TeamRecord>)
    ensures |r| == |rows|
    ensures forall i :: 0 <= i < |r| ==> r[i] == TeamToDict(rows[i])
  {
    seq(|rows|, i requires 0 <= i < |rows| => TeamToDict(rows[i]))
  }

  /** The fixed response the external source stands in for an HTTP call with. */
  function MockApiResponse(): seq<ExternalTeam> {
    [ ExternalTeam(Some(1), Some("External Team 1"), Some(Location(Some("USA"), Some("New York"))),
                   Some(2000), Some("http://example.com/logo1.png")),
      ExternalTeam(Some(2), Some("External Team 2"), Some(Location(Some("UK"), Some("London"))),
                   Some(1995), Some("http://example.com/logo2.png")) ]
  }

  /** `team.get("location", {}).get(key)` */
  function LocationCountry(t: ExternalTeam): Option<string> {
    if t.location.Some? then t.location.value.country else None
  }

  function LocationCity(t: ExternalTeam): Option<string> {
    if t.location.Some? then t.location.value.city else None
  }

  /** `_adapt_external_api_team`: each external key moved to its internal name, `None` for
      a missing one, and the record tagged as coming from the external API. */
  function AdaptExternalTeam(t: ExternalTeam): (r: TeamRecord)
    ensures r.id == t.teamId && r.name == t.teamName && r.foundedYear == t.yearFounded && r.logoUrl == t.logoImage
    ensures t.location.None? ==> r.country.None? && r.city.None?
    ensures t.location.Some? ==> r.country == t.location.value.country && r.city == t.location.value.city
    ensures r.source == Some(ExternalSourceTag)
  {
    TeamRecord(t.teamId, t.teamName, LocationCountry(t), LocationCity(t), t.yearFounded, t.logoImage,
               Some(ExternalSourceTag))
  }

  /** `_adapt_external_api_format`: builds one record per input record, in order. Each record
      is the one the single-team adaptation yields for the same input. */
  method AdaptExternalApiFormat(apiData: seq<ExternalTeam>) returns (adapted: seq<TeamRecord>)
    ensures |adapted| == |apiData|
    ensures forall i :: 0 <= i < |apiData| ==> adapted[i] == AdaptExternalTeam(apiData[i])
  {
    adapted := [];
    for i := 0 to |apiData|
      invariant |adapted| == i
      invariant forall j :: 0 <= j < i ==> adapted[j] == AdaptExternalTeam(apiData[j])
    {
      var team := apiData[i];
      var location := if team.location.Some? then team.location.value else Location(None, None);
      var record := TeamRecord(team.teamId, team.teamName, location.country, location.city,
                               team.yearFounded, team.logoImage, Some(ExternalSourceTag));
      adapted := adapted + [record];
    }
  }

  /** What `fetch_teams_unified` yields for a source: the database page unchanged, or the
      adapted external records. */
  function UnifiedTeams(s: DataSource): seq<TeamRecord>
    reads SourceTables(s)
    requires SourceReady(s)
  {
    match s
    case DatabaseSource(repository) => TeamsToDicts(Page(repository.table.Scan(), 0, DefaultLimit))
    case ExternalApiSource(_) => seq(|MockApiResponse()|, i requires 0 <= i < |MockApiResponse()| =>
                                       AdaptExternalTeam(MockApiResponse()[i]))
  }

  function AllSourceTables(sources: seq<DataSource>): set<object> {
    set i, o | 0 <= i < |sources| && o in SourceTables(sources[i]) :: o
  }

  ghost predicate AllReady(sources: seq<DataSource>)
    reads AllSourceTables(sources)
  {
    forall i :: 0 <= i < |sources| ==> SourceReady(sources[i])
  }

  /** The merged list: every source's unified list, one after the other. */
  function MergedTeams(sources: seq<DataSource>): (r: seq<TeamRecord>)
    reads AllSourceTables(sources)
    requires AllReady(sources)
  {
    if sources == [] then []
    else
      var prefix := sources[..|sources| - 1];
      assert forall i :: 0 <= i < |prefix| ==> prefix[i] == sources[i];
      MergedTeams(prefix) + UnifiedTeams(sources[|sources| - 1])
  }

  function SumOfLengths(sources: seq<DataSource>): nat
    reads AllSourceTables(sources)
    requires AllReady(sources)
  {
    if sources == [] then 0
    else
      var prefix := sources[..|sources| - 1];
      assert forall i :: 0 <= i < |prefix| ==> prefix[i] == sources[i];
      SumOfLengths(prefix) + |UnifiedTeams(sources[|sources| - 1])|
  }

  /** The merge loses and invents nothing: its length is the sum of the sources' lengths. */
  lemma {:induction false} MergedLength(sources: seq<DataSource>)
    requires AllReady(sources)
    ensures |MergedTeams(sources)| == SumOfLengths(sources)
  {
    if sources != [] {
      var prefix := sources[..|sources| - 1];
      assert forall i :: 0 <= i < |prefix| ==> prefix[i] == sources[i];
      MergedLength(prefix);
    }
  }

  /** `get_teams` of either source. */
  method GetTeams(source: DataSource) returns (raw: RawTeams)
    requires SourceReady(source)
    ensures source.DatabaseSource? ==>
              raw == DatabaseRecords(TeamsToDicts(Page(source.repository.table.Scan(), 0, DefaultLimit)))
    ensures source.ExternalApiSource? ==> raw == ExternalRecords(MockApiResponse())
  {
    match source {
      case DatabaseSource(repository) =>
        var teams := repository.List();
        raw := DatabaseRecords(TeamsToDicts(teams));
      case ExternalApiSource(_) =>
        raw := ExternalRecords(MockApiResponse());
    }
  }

  /** `ExternalAPIDataSource.get_team_by_id`: the first record whose `teamId` matches. */
  method ExternalTeamById(teamId: int) returns (r: Option<ExternalTeam>)
    ensures r.None? <==> forall i :: 0 <= i < |MockApiResponse()| ==> MockApiResponse()[i].teamId != Some(teamId)
    ensures r.Some? ==> exists i :: 0 <= i < |MockApiResponse()| && MockApiResponse()[i] == r.value &&
                          r.value.teamId == Some(teamId) &&
                          forall j :: 0 <= j < i ==> MockApiResponse()[j].teamId != Some(teamId)
  {
    var teams := MockApiResponse();
    for i := 0 to |teams|
      invariant forall j :: 0 <= j < i ==> teams[j].teamId != Some(teamId)
    {
      if teams[i].teamId == Some(teamId) {
        return Some(teams[i]);
      }
    }
    return None;
  }

  /** `get_team_by_id` of either source. */
  method GetTeamById(source: DataSource, teamId: int) returns (raw: Option<RawTeam>)
    requires SourceReady(source)
    ensures source.DatabaseSource? ==>
              (raw.None? <==> teamId !in source.repository.table.rows) &&
              (raw.Some? ==> raw.value == DatabaseRecord(TeamToDict(Row(teamId, source.repository.table.rows[teamId]))))
    ensures source.ExternalApiSource? && raw.Some? ==>
              raw.value.ExternalRecord? && raw.value.team in MockApiResponse() && raw.value.team.teamId == Some(teamId)
    ensures source.ExternalApiSource? ==>
              (raw.None? <==> forall i :: 0 <= i < |MockApiResponse()| ==> MockApiResponse()[i].teamId != Some(teamId))
  {
    match source {
      case DatabaseSource(repository) =>
        var team := repository.Get(teamId);
        raw := if team.Some? then Some(DatabaseRecord(TeamToDict(team.value))) else None;
      case ExternalApiSource(_) =>
        var team := ExternalTeamById(teamId);
        raw := if team.Some? then Some(ExternalRecord(team.value)) else None;
    }
  }

  /** `DataSourceAdapter`: one source behind the unified interface. The source is fixed when
      the adapter is built and never replaced. */
  datatype DataSourceAdapter = DataSourceAdapter(dataSource: DataSource)
  {
    /** The source's teams in the internal format: database records unchanged, external
        records adapted one for one. */
    method FetchTeamsUnified() returns (r: seq<TeamRecord>)
      requires SourceReady(dataSource)
      ensures r == UnifiedTeams(dataSource)
      ensures dataSource.DatabaseSource? ==> r == TeamsToDicts(Page(dataSource.repository.table.Scan(), 0, DefaultLimit))
      ensures dataSource.ExternalApiSource? ==>
                |r| == |MockApiResponse()| &&
                forall i :: 0 <= i < |r| ==> r[i] == AdaptExternalTeam(MockApiResponse()[i])
    {
      var raw := GetTeams(dataSource);
      if dataSource.ExternalApiSource? {
        r := AdaptExternalApiFormat(raw.teams);
      } else {
        r := raw.records;
      }
    }

    /** `None` exactly when the source finds no such team; otherwise the source's record,
        adapted when it comes from the external API. */
    method FetchTeamByIdUnified(teamId: int) returns (r: Option<TeamRecord>)
      requires SourceReady(dataSource)
      ensures dataSource.DatabaseSource? ==>
                (r.None? <==> teamId !in dataSource.repository.table.rows) &&
                (r.Some? ==> r.value == TeamToDict(Row(teamId, dataSource.repository.table.rows[teamId])))
      ensures dataSource.ExternalApiSource? ==>
                (r.None? <==> forall i :: 0 <= i < |MockApiResponse()| ==> MockApiResponse()[i].teamId != Some(teamId))
      ensures dataSource.ExternalApiSource? && r.Some? ==>
                r.value.id == Some(teamId) && r.value.source == Some(ExternalSourceTag) &&
                exists i :: 0 <= i < |MockApiResponse()| && r.value == AdaptExternalTeam(MockApiResponse()[i])
    {
      var raw := GetTeamById(dataSource, teamId);
      if raw.None? {
        return None;
      }
      if dataSource.ExternalApiSource? {
        r := Some(AdaptExternalTeam(raw.value.team));
      } else {
        r := Some(raw.value.record);
      }
    }

    /** `merge_data_from_multiple_sources`: each source's unified list appended in source
        order. */
    method MergeDataFromMultipleSources(sources: seq<DataSource>) returns (all: seq<TeamRecord>)
      requires AllReady(sources)
      ensures all == MergedTeams(sources)
      ensures |all| == SumOfLengths(sources)
    {
      all := [];
      for i := 0 to |sources|
        invariant AllSourceTables(sources[..i]) <= AllSourceTables(sources)
        invariant all == MergedTeams(sources[..i])
      {
        assert SourceReady(sources[i]);
        var adapter := DataSourceAdapter(sources[i]);
        var teams := adapter.FetchTeamsUnified();
        assert sources[..i + 1][..i] == sources[..i];
        assert sources[..i + 1][i] == sources[i];
        assert AllReady(sources[..i + 1]);
        assert MergedTeams(sources[..i + 1]) == MergedTeams(sources[..i]) + UnifiedTeams(sources[i]);
        all := all + teams;
      }
      assert sources[..|sources|] == sources;
      MergedLength(sources);
    }
  }
}
