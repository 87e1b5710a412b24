# 4xbet backend: a verified model of the domain layer

This project models in Dafny the domain logic that the 4xbet betting backend layers over its
databases, and proves properties of it. The backend is a set of Python/FastAPI microservices.

The model covers:

- **Teams service**:
  - the generic repository and the logging decorator around it;
  - the data-source adapter, which puts an external team API behind the database interface;
  - the chain of error handlers that turns exceptions into JSON responses;
  - the team and athlete request schemas, seen as validators;
  - the team and athlete endpoints, with their 404 checks and partial updates;
  - the `Team.athletes` relationship and its `delete-orphan` cascade;
  - the `TeamServiceFacade`, which covers create-with-athletes, full info, transfer, cascade delete, statistics and average age.
- **Bets service**: the `create_bet` saga and the bets crud. The saga runs four steps in order: balance check, odds lookup, bet insert, wallet debit. A refused debit deletes the bet again. A debit that goes through is recorded as a transaction.
- **User service**: users with a unique email, one wallet per user, and the in-place balance change, both as written (it raises) and as intended.
- **Matches service**: matches read with their odds, match and odds creation, and the in-place overwrite of odds.
- **Standalone teams service**: the crud, including its partial update and the delete that returns the removed row.

The model represents things as follows:

- **Database tables.** Every table is a `Tables.Table`: a map from primary key to record, the scan order (insertion order), and the autoincrement counter.
- **Crud functions.** A crud function that takes a session works on the tables it touches, passed as parameters.
- **Partial updates.** A Python `setattr` loop over `model_dump(exclude_unset=True)` becomes a `for` loop over a sequence of field assignments. A lemma shows that the loop's fold equals the intended "sent fields replace, other fields stay" merge.
- **HTTP calls to other services.** `create_bet` makes three such calls. Each one has a transport outcome passed in as a parameter:
  - delivered: the other service does what its model says, with the corrections listed under "## Findings" (as written, both user-service endpoints the saga calls answer 500);
  - rejected: a non-200 status, and nothing is done;
  - unreachable: the client raises.
- **Money and dates.**
  - Money is integer cents.
  - Odds are integer hundredths.
  - Times are opaque integers.
  - `date.today()` is a parameter.
  - The bcrypt hash is a function parameter.
- **Exceptions.** Raised exceptions are values of `Exceptions.Exception`. The error-handler chain classifies exactly those values.

Where the code and its tests disagree, the model follows the code, and where the code as written cannot do what it evidently means to, the model states both (see "## Findings"):

- `create` performs no duplicate check. An explicit id that is already taken is refused only by the primary key, as an `IntegrityError`.
- `DatabaseDataSource.get_teams` calls `list()`, not `list_all()`.
- `update` in teams/src/db/repositories/base.py raises for every entity its callers hand it, while the repository and API tests expect the update to be stored. `Repository.Repository.Update` models the code; every caller uses the intended `Repository.Repository.Merge`.
- The teams facade calls `list_all`, which `BaseRepository` does not define. The model gives the repository a `ListAll` that returns every entity in scan order, because that is the behaviour the facade relies on.

## Model

| member | source | states |
|---|---|---|
| Seqs.Page | teams/src/db/repositories/base.py:27 | `LIMIT`/`OFFSET`: at most `limit` elements; the element at position i is the input's element at `offset + i`; the exact length for every offset |
| Seqs.Filter | teams/src/services/team_service.py:60 | a comprehension filter: every result element is an input element satisfying the predicate, and every such input element is in the result |
| Seqs.FilterCounts | teams/src/services/team_service.py:60 | each element satisfying the predicate occurs in the filter exactly as often as in the input, and no other element occurs |
| Seqs.FilterAppend | teams/src/services/team_service.py:60 | filtering a concatenation concatenates the filtered parts, so the input's order is kept |
| Seqs.FirstWhere | user_service/app/crud.py:13-15 | `.first()` of a filtered query: `None` iff no element qualifies, otherwise the earliest one that does |
| Repository.Repository.Find | teams/src/db/repositories/base.py:17-22 | `get(id)` is the stored entity with that id, and `None` exactly when the id is absent |
| Repository.Repository.Get | teams/src/db/repositories/base.py:17-22 | returns `Find(id)` |
| Repository.Repository.List | teams/src/db/repositories/base.py:24-29 | at most `limit` entities, the scan page after skipping `offset` |
| Repository.Repository.ListAll | teams/src/services/team_service.py:59 | every entity, in scan order |
| Repository.Repository.CreateOutcome | teams/src/db/repositories/base.py:31-36 | create fails iff an explicit id is already taken, and then with the duplicate-key `IntegrityError`; otherwise it stores the data under a fresh id, or under the explicit id when one is given |
| Repository.Repository.Create | teams/src/db/repositories/base.py:31-36 | the outcome is `CreateOutcome`; on success the entity is appended to the scan; on failure nothing is written |
| Repository.Repository.UpdateOutcome | teams/src/db/repositories/base.py:38-52 | as written, update never succeeds: an absent id gives "Entity with id {id} not found"; a different non-null entity id gives "does not match"; otherwise `session.add` of an object beside the one `session.get` loaded raises (`InvalidRequestError` for a detached object, the duplicate-key `IntegrityError` for a transient one) |
| Repository.Repository.Update | teams/src/db/repositories/base.py:38-52 | as written: the outcome is `UpdateOutcome`, and the table is never written |
| Repository.Repository.MergeOutcome | teams/src/db/repositories/base.py:38-52 | the intended update: the same two `ValueError`s, and otherwise success with the entity stored under `id` |
| Repository.Repository.UpdateFailsWhereMergeStores | teams/src/db/repositories/base.py:38-52 | the code as written and the intended update part exactly when the row exists and the entity's id fits: there the first raises the session conflict and the second stores the entity; elsewhere they raise the same error |
| Repository.Repository.Merge | teams/src/db/repositories/base.py:38-52 | the intended update: the outcome is `MergeOutcome`; on success the record is replaced in place and the scan order is kept; on failure nothing is written |
| Repository.Repository.Delete | teams/src/db/repositories/base.py:54-59 | removes exactly that id from rows and scan order; an absent id leaves the table unchanged |
| Tables.FilterKeepsIdsDistinct | teams/src/db/models.py:9 | a filtered query over rows with distinct primary keys returns rows with distinct primary keys |
| RepositoryLogging.RepositoryLoggingDecorator.constructor | teams/src/db/repositories/logging_decorator.py:23-31 | the counter starts at 0; the logging flag equals the argument, which defaults to true |
| RepositoryLogging.RepositoryLoggingDecorator.Get | teams/src/db/repositories/logging_decorator.py:37-53 | the counter rises by exactly 1, the flag is kept, and the result is the wrapped `get`'s |
| RepositoryLogging.RepositoryLoggingDecorator.List | teams/src/db/repositories/logging_decorator.py:55-70 | counter +1; `limit`/`offset` are forwarded, and the result is the wrapped page |
| RepositoryLogging.RepositoryLoggingDecorator.Create | teams/src/db/repositories/logging_decorator.py:72-88 | counter +1, even when the wrapped create fails; outcome and table effect are the wrapped create's |
| RepositoryLogging.RepositoryLoggingDecorator.Update | teams/src/db/repositories/logging_decorator.py:90-105 | counter +1, even when the wrapped update raises; outcome and table effect are those of the intended update `Merge` |
| RepositoryLogging.RepositoryLoggingDecorator.Delete | teams/src/db/repositories/logging_decorator.py:107-120 | counter +1; the table effect is the wrapped delete's |
| RepositoryLogging.RepositoryLoggingDecorator.GetStatistics | teams/src/db/repositories/logging_decorator.py:122-128 | reports the counter, the flag and the model name, and changes nothing |
| RepositoryLogging.RepositoryLoggingDecorator.EnableLogging | teams/src/db/repositories/logging_decorator.py:130-133 | the flag is true afterwards, whatever it was before, and the counter is unchanged |
| RepositoryLogging.RepositoryLoggingDecorator.DisableLogging | teams/src/db/repositories/logging_decorator.py:135-138 | the flag is false afterwards, and the counter is unchanged |
| Validation.LengthErrors | teams/src/api/schemas/teams.py:7 | `min_length`/`max_length`: no error iff the length is within bounds, otherwise one error on that field, of the right kind |
| Validation.OptionalLengthErrors | teams/src/api/schemas/teams.py:9 | an optional string passes when absent, otherwise as `LengthErrors` |
| Validation.RangeErrors | teams/src/api/schemas/teams.py:10 | `ge`/`le`: no error iff the value is within the inclusive range, otherwise one error of the violated side |
| Validation.RequiredErrors | teams/src/api/schemas/athletes.py:22-23 | a required field is reported as missing exactly when it has no value |
| TeamSchemas.TeamCreateErrors | teams/src/api/schemas/teams.py:6-14 | a `TeamCreate` body is accepted iff it is valid: name 1..100, country 2..50, city ≤ 50, founded_year in 1800..2024, logo_url ≤ 255; each field is reported iff its own bound fails |
| TeamSchemas.TeamUpdateErrors | teams/src/api/schemas/teams.py:16-21 | in `TeamUpdate` every field is optional; a field is reported iff it is present and breaks its bound |
| TeamSchemas.UpdateKeepsCreateBounds | teams/src/api/schemas/teams.py:16-21 | the same body, read as a full update, is valid iff it is a valid create |
| TeamSchemas.TeamFromCreate | teams/src/api/v1/teams.py:28-34 | the stored team copies the five request fields, with unset ones as `None`; a valid request gives a team within the `TeamBase` bounds |
| AthleteSchemas.AthleteCreateErrors | teams/src/api/schemas/athletes.py:5-12 | accepted iff both names are 1..50; each name is reported iff its bound fails; `date_of_birth`, `position` and `team_id` are never reported (optional) |
| AthleteSchemas.AthleteUpdateErrors | teams/src/api/schemas/athletes.py:14-19 | every field is optional; a name is reported iff it is present and breaks 1..50 |
| AthleteSchemas.ToResponse | teams/src/api/schemas/athletes.py:21-25 | an `AthleteResponse` is produced iff `id` and `team_id` are present and the names are valid; a missing `id` or `team_id` and an invalid first or last name are each reported, and nothing else is |
| AthleteSchemas.StoredAthleteServes | teams/src/api/schemas/athletes.py:21-23 | every stored athlete with valid names serialises, with its own id and team id |
| AthleteSchemas.AthleteFromCreate | teams/src/api/v1/athletes.py:44-50 | the stored athlete copies the four request fields plus the team id; valid names stay valid |
| TeamStatistics.AthletesOf | teams/src/services/team_service.py:60 | exactly the athletes whose `team_id` is the team's id, each as often as in the input; distinct ids stay distinct |
| TeamStatistics.CountIn | teams/src/services/team_service.py:114-116 | the number of teams in a country is at most the number of teams, and 0 iff no team is in that country |
| TeamStatistics.CountryKeysExact | teams/src/services/team_service.py:114-116 | the countries seen are distinct, and they are exactly the countries with at least one team |
| TeamStatistics.CountsSumToTotal | teams/src/services/team_service.py:106-116 | the per-country counts add up to `total_teams` |
| TeamStatistics.TeamSizes | teams/src/services/team_service.py:119-122 | one (name, number of its athletes) pair per team, in order |
| TeamStatistics.MaxIndex | teams/src/services/team_service.py:125 | `max(..., key=size)`: a pair of greatest size, and no earlier pair has that size |
| TeamStatistics.MinIndex | teams/src/services/team_service.py:126 | `min(..., key=size)`: a pair of least size, and no earlier pair has that size |
| TeamStatistics.AgeOn | teams/src/services/team_service.py:138-142 | the age is the last anniversary reached: the age-th birthday is on or before today, the next one is after |
| TeamStatistics.Ages | teams/src/services/team_service.py:136-143 | one age per athlete, in order |
| TeamService.CalculateAverageAge | teams/src/services/team_service.py:130-145 | `None` for no athletes; otherwise the sum and count of the ages; raises the `AttributeError` of `None.year` iff some athlete has no birth date |
| TeamService.CountTeamsByCountry | teams/src/services/team_service.py:114-116 | the dict has a key per country with a team, holding that country's team count, and no other keys |
| TeamService.ComputeTeamSizes | teams/src/services/team_service.py:118-123 | the loop builds exactly `TeamSizes` |
| TeamService.TeamServiceFacade.CreateTeamWithAthletes | teams/src/services/team_service.py:26-51 | a name another team has gives the unique index's `IntegrityError` with nothing written; otherwise one new team from the request, then exactly one athlete appended per input, in order, each on the new team's id, with nothing else removed or reordered |
| TeamService.TeamServiceFacade.CreateAthletesOn | teams/src/services/team_service.py:41-49 | the athletes table keeps its old rows as a prefix and gains exactly one row per input, in order, each the input's fields on the given team |
| TeamService.TeamServiceFacade.GetTeamFullInfo | teams/src/services/team_service.py:53-67 | `None` for an unknown team; otherwise the team and its athletes, each stored athlete of the team exactly once (their ids are the team's athlete ids) and no other; `athletes_count` is their number; the mean age is `None` iff the team has no athletes |
| TeamService.TeamServiceFacade.TransferAthlete | teams/src/services/team_service.py:69-84 | `None` with no write iff the athlete or the target team is missing; otherwise only `team_id` changes, to the new team, written by the intended update `Merge` |
| TeamService.TeamServiceFacade.DeleteTeamCascade | teams/src/services/team_service.py:86-99 | false with no change for an unknown team; otherwise the team and exactly its athletes are deleted, and other teams' athletes are untouched |
| TeamService.TeamServiceFacade.GetTeamsStatistics | teams/src/services/team_service.py:101-128 | totals equal the table sizes; per-country counts are exact; largest/smallest are `None` when there are no teams, otherwise the first maximal/minimal (name, size), where a team's size is the number of its stored athletes |
| TeamAthletes.TeamAthletesOf | teams/src/services/team_service.py:59-60 | the athletes picked out of a scan of the athlete table have distinct ids, those ids are exactly the team's athlete ids, and there are as many as there are such ids |
| TeamAthletes.ScannedTeamIds | teams/src/services/team_service.py:60 | over a scan listing every stored row, the picked athletes' ids are exactly the ids of the stored athletes on that team |
| TeamAthletes.TeamSizesCountAthletes | teams/src/services/team_service.py:119-122 | each (name, size) pair's size is the number of stored athletes on that team |
| TeamAthletes.DeleteTeamAthletes | teams/src/db/models.py:16 | the `delete-orphan` cascade removes exactly the team's athletes, from the rows and from the scan order |
| TeamAthletes.DeleteEach | teams/src/services/team_service.py:95-96 | deleting the visited athletes one by one removes exactly their ids |
| DataSourceAdapter.TeamToDict | teams/src/adapters/data_source_adapter.py:44-53 | the six columns appear under their own names, with no `source` key |
| DataSourceAdapter.TeamsToDicts | teams/src/adapters/data_source_adapter.py:37 | one dict per row, in order |
| DataSourceAdapter.AdaptExternalTeam | teams/src/adapters/data_source_adapter.py:190-200 | teamId→id, teamName→name, location.country/city→country/city (`None` without a location), yearFounded→founded_year, logoImage→logo_url, and source "external_api" |
| DataSourceAdapter.AdaptExternalApiFormat | teams/src/adapters/data_source_adapter.py:150-188 | one adapted record per input, in order, each equal to the single-team adaptation |
| DataSourceAdapter.MergedLength | teams/src/adapters/data_source_adapter.py:209-217 | the merged list's length is the sum of the sources' lengths |
| DataSourceAdapter.GetTeams | teams/src/adapters/data_source_adapter.py:34-89 | the database source gives its default page as dicts; the external source gives the fixed mock response |
| DataSourceAdapter.ExternalTeamById | teams/src/adapters/data_source_adapter.py:91-97 | the first mock record with a matching `teamId`; `None` iff there is none |
| DataSourceAdapter.GetTeamById | teams/src/adapters/data_source_adapter.py:39-97 | the database source: `None` iff the id is absent, otherwise that row's dict; the external source: as `ExternalTeamById` |
| DataSourceAdapter.DataSourceAdapter.FetchTeamsUnified | teams/src/adapters/data_source_adapter.py:124-134 | database data is returned unchanged; external records are adapted one for one, in order |
| DataSourceAdapter.DataSourceAdapter.FetchTeamByIdUnified | teams/src/adapters/data_source_adapter.py:136-148 | `None` exactly when the source finds no team; otherwise the source's record, adapted and tagged when external |
| DataSourceAdapter.DataSourceAdapter.MergeDataFromMultipleSources | teams/src/adapters/data_source_adapter.py:202-217 | the concatenation of each source's unified list, in source order; length is the sum |
| ErrorHandlers.Dispatch | teams/src/services/error_handlers.py:14-19 | the answer of the first handler that accepts the exception; `None` iff no handler accepts |
| ErrorHandlers.GenericLastIsTotal | teams/src/services/error_handlers.py:60-62 | a chain ending in the generic handler always answers |
| ErrorHandlers.ErrorHandler.constructor | teams/src/services/error_handlers.py:7-8 | a new handler has no successor |
| ErrorHandlers.ErrorHandler.SetNext | teams/src/services/error_handlers.py:10-12 | links the argument as the successor and returns it; the chain seen from here is this handler followed by the argument's chain |
| ErrorHandlers.ErrorHandler.Handle | teams/src/services/error_handlers.py:14-19 | a handler's answer is `Dispatch` over the kinds along its chain |
| ErrorHandlers.Classify | teams/src/services/error_handlers.py:29-68 | an `HTTPException` keeps its status and detail, even 422; other exceptions give 422 (with details) or 500, and never "Unexpected error occurred" |
| ErrorHandlers.StandardChainClassifies | teams/src/services/error_handlers.py:70-75 | the HTTP → validation → database → generic chain answers every exception exactly as `Classify` |
| ErrorHandlers.LinkForward | teams/src/services/error_handlers.py:73-75 | `set_next` chained front to back over four unlinked handlers gives one chain holding the four, in call order |
| ErrorHandlers.ErrorHandlerChain.constructor | teams/src/services/error_handlers.py:71-75 | the chain is linked in the order HTTP, validation, database, generic |
| ErrorHandlers.ErrorHandlerChain.Handle | teams/src/services/error_handlers.py:77-85 | the response is `Classify(exc)`; the "Unexpected error occurred" fallback is never produced by a non-HTTP exception |
| AthletesApi.TeamLookup | teams/src/api/v1/athletes.py:37 | `team_repo.get(team_id)`: found iff the id is present and stored; a `None` id finds nothing |
| AthletesApi.UpdateData | teams/src/api/v1/athletes.py:68 | at most five assignments; a team change is among them iff `team_id` was sent, and then it comes last |
| AthletesApi.UpdateDataIsSentFields | teams/src/api/v1/athletes.py:68 | every assignment carries a value the client sent for its field, and every sent field is assigned its sent value |
| AthletesApi.UpdateDataInFieldOrder | teams/src/api/v1/athletes.py:68 | the assignments follow the schema's field order, so no field is assigned twice |
| AthletesApi.ApplyAthleteUpdate | teams/src/api/v1/athletes.py:68-82 | every sent field is taken from the request and every other field is kept; valid names stay valid |
| AthletesApi.UpdateLoopApplies | teams/src/api/v1/athletes.py:81-82 | the `setattr` loop over the dumped request yields `ApplyAthleteUpdate` |
| AthletesApi.GetAthletes | teams/src/api/v1/athletes.py:9-14 | the repository's default page: `Page` of the scan at offset 0 and limit 100 |
| AthletesApi.GetAthlete | teams/src/api/v1/athletes.py:16-28 | 404 "Athlete with ID {id} not found" for an unknown id; otherwise the stored athlete |
| AthletesApi.CreateAthlete | teams/src/api/v1/athletes.py:30-51 | 404 "Team with ID {id} not found" and no write iff the team is unknown; otherwise one athlete copying the request is appended |
| AthletesApi.UpdateAthlete | teams/src/api/v1/athletes.py:53-84 | 404 with no write for an unknown athlete, or for a sent team that does not exist; otherwise the athlete is replaced in place by `ApplyAthleteUpdate`, written by the intended update `Merge` |
| AthletesApi.DeleteAthlete | teams/src/api/v1/athletes.py:86-100 | 404 with no delete for an unknown id; otherwise exactly that athlete is removed |
| TeamsApi.MergeTeam | teams/src/api/v1/teams.py:47-56 | name, country and founded_year come from the request; city and logo_url come from the request if sent, else from the stored team; validity is kept |
| TeamsApi.MergeTeamIdempotent | teams/src/api/v1/teams.py:47-56 | sending the same update twice stores what sending it once does |
| TeamsApi.GetTeams | teams/src/api/v1/teams.py:8-11 | the repository's default page: `Page` of the scan at offset 0 and limit 100 |
| TeamsApi.GetTeam | teams/src/api/v1/teams.py:13-22 | 404 "Team with ID {id} not found" for an unknown id; otherwise the stored team |
| TeamsApi.CreateTeam | teams/src/api/v1/teams.py:25-35 | a name another team has gives the unique index's `IntegrityError` with no write; otherwise one team built from the five request fields is appended under a fresh id; names that were unique stay unique |
| TeamsApi.UpdateTeam | teams/src/api/v1/teams.py:37-59 | 404 with no write iff the id is unknown; a name another team has gives `IntegrityError` with no write; otherwise the merged team replaces the stored one under the same id, written by the intended update `Merge`; names that were unique stay unique |
| TeamsApi.DeleteTeam | teams/src/api/v1/teams.py:61-71 | 404 with no delete iff the id is unknown; otherwise that team is removed and the ORM cascade removes exactly its athletes |
| UserCrud.NewWallet | user_service/app/models.py:31-32 | a new wallet belongs to the user and starts at balance 0 |
| UserCrud.GetUserByEmail | user_service/app/crud.py:13-15 | a user with that email, or `None` iff there is none |
| UserCrud.WalletOf | user_service/app/crud.py:37-38 | the first wallet whose `user_id` matches, or `None` iff there is none |
| UserCrud.Credit | user_service/app/crud.py:40 | the intended `+=`: the balance changes by exactly `amount`, of either sign and with no lower bound; owner and currency are kept |
| UserCrud.CreditUndo | user_service/app/crud.py:40 | crediting an amount and then its opposite restores the wallet |
| UserCrud.CreateUser | user_service/app/crud.py:18-33 | refused with no write iff the email is taken; otherwise one user holding the password's hash, then exactly one wallet for that user |
| UserCrud.UpdateWalletBalance | user_service/app/crud.py:36-43 | as written: `None` iff the user has no wallet; otherwise the `Decimal += float` raises `TypeError`; no table is ever written |
| UserCrud.CreditWallet | user_service/app/crud.py:36-43 | the intended update: `None` with no change iff the user has no wallet; otherwise that wallet is credited by `amount` in place, and nothing else changes |
| MatchesCrud.OddsOf | matches_service/app/crud.py:42-43 | the first odds row whose `match_id` is the match, or `None` iff there is none |
| MatchesCrud.GetMatch | matches_service/app/crud.py:9-15 | the match with that id and its odds, or `None` iff absent |
| MatchesCrud.GetMatches | matches_service/app/crud.py:18-22 | at most `limit` matches after skipping `skip`, in scan order, each with its odds |
| MatchesCrud.NewMatch | matches_service/app/crud.py:26 | the request fields, status "scheduled", with no result, winner or completion time |
| MatchesCrud.CreateMatch | matches_service/app/crud.py:25-30 | the new match is appended and read back with its odds |
| MatchesCrud.CreateMatchOdds | matches_service/app/crud.py:33-38 | a match that already has odds gives the unique index's `IntegrityError` with no write; otherwise a new odds row with the three prices is attached to `match_id`; at most one odds row per match stays true |
| MatchesCrud.OddsData | matches_service/app/crud.py:45 | the three prices, because `OddsCreate` requires them all: win_home, draw and win_away in field order, each with the request's value |
| MatchesCrud.OddsLoopOverwrites | matches_service/app/crud.py:45-47 | the `setattr` loop sets the three prices and keeps `match_id` |
| MatchesCrud.UpdateOdds | matches_service/app/crud.py:41-50 | `None` with nothing created iff the match has no odds row; otherwise that row's prices are overwritten in place |
| TeamsServiceCrud.GetTeam | teams_service/app/crud.py:6-8 | the team with that id, or `None` iff absent |
| TeamsServiceCrud.GetTeams | teams_service/app/crud.py:11-13 | exactly the page after skipping `skip`: its exact length for every `skip` and `limit`, and the scan's elements in order |
| TeamsServiceCrud.NewTeam | teams_service/app/crud.py:17 | the request's name, and its country, or `None` when unset |
| TeamsServiceCrud.CreateTeam | teams_service/app/crud.py:16-21 | the new team is appended under a fresh id |
| TeamsServiceCrud.DumpedFields | teams_service/app/crud.py:27 | the name first, always; then the country, with its sent value, iff it was sent |
| TeamsServiceCrud.MergeTeam | teams_service/app/crud.py:24-32 | the name is replaced; the country is replaced iff it was sent, else kept |
| TeamsServiceCrud.TeamLoopMerges | teams_service/app/crud.py:27-29 | the `setattr` loop over the dumped fields yields `MergeTeam` |
| TeamsServiceCrud.UpdateTeam | teams_service/app/crud.py:24-32 | `None` with no write iff the id is unknown; otherwise the team is overwritten in place by `MergeTeam` |
| TeamsServiceCrud.DeleteTeam | teams_service/app/crud.py:35-40 | returns the team as it was before (or `None`), and removes exactly that id |
| BetsCrud.NewBet | bets_service/app/crud.py:13-15 | the request fields, plus the caller's id and the price, with status "pending" |
| BetsCrud.CreateBet | bets_service/app/crud.py:10-19 | the new bet is appended under a fresh id |
| BetsCrud.GetBetsByUser | bets_service/app/crud.py:22-24 | every bet of that user exactly once (their ids are distinct), and no other bet |
| BetsCrud.CreateTransaction | bets_service/app/crud.py:37-42 | the transaction is stored verbatim under a fresh id |
| BetsApi.WalletReadReply | bets_service/app/crud.py:27-34 | the reply the wallet GET is meant to give: 200 with the balance iff it is delivered and the user has a wallet; any other reply fails the balance check |
| BetsApi.RejectedWalletReadRefuses | bets_service/app/main.py:27-31 | a wallet read answered with an error status (as the user service as written always answers) refuses the bet with 400, whatever the balance |
| BetsApi.MatchReadReply | bets_service/app/main.py:34-37 | the match GET answers 200 with the match and its odds iff it is delivered and the match exists |
| BetsApi.OutcomeOdds | bets_service/app/main.py:38-39 | the price of win_home, draw or win_away; any other outcome, or a match without odds, raises |
| BetsApi.Admission | bets_service/app/main.py:27-39 | 400 "Insufficient funds" iff the balance check fails; 404 "Match not found" iff it passes and the match read is refused; admitted only with a wallet covering the stake and an existing match, at the outcome's price |
| BetsApi.DebitRecord | bets_service/app/main.py:63-68 | amount is −stake, type "bet_placed", related to the bet, and the wallet id is the user's id |
| BetsApi.PatchWallet | bets_service/app/main.py:47-53 | with the intended balance update `CreditWallet`: the credited wallet iff the request is delivered and the user has a wallet; only that wallet's balance changes, by exactly the amount; otherwise nothing changes |
| BetsApi.RollBackBet | bets_service/app/main.py:54-57 | deleting the bet just stored gives back the bets table's rows and order as before the insert |
| BetsApi.PlaceBet | bets_service/app/main.py:41-71 | with the intended balance update: stores the pending bet and debits the stake; a refused debit deletes the bet again (500) with no transaction; a placed bet has exactly one debit and one transaction |
| BetsApi.CreateBet | bets_service/app/main.py:21-71 | with the intended wallet read and balance update: a refused admission writes nothing; otherwise as `PlaceBet`: success iff the debit is delivered, the wallet is debited by exactly the stake, and one "bet_placed" transaction is recorded |
| BetsApi.ReadBets | bets_service/app/main.py:74-79 | the result of `get_bets_by_user`: each stored bet of the caller, with its stored data, exactly once, and no other bet |

## Left out

- Negative `limit`, `offset` and `skip`: they are `nat` parameters. Python and SQL treat negative values in their own ways, which this model does not follow.
- Logging and execution timing: the decorator's log lines, `datetime.now()` timings, and the logger strategies. Only the counter and the flag are modelled.
- Floating point: balances, stakes and odds are integers (cents, hundredths), and rounding of `Numeric(10, 2)` is not modelled. The clash of `float` and `Decimal` in user_service/app/crud.py:40 is under "## Findings".
- TeamService.CalculateAverageAge: returns the sum and count of the ages rather than the float `sum(ages) / len(ages)`.
- Date validity: a `Date` is any (year, month, day) triple.
- Password hashing and authentication: bcrypt is a function parameter, and JWT decoding, the current-user dependency and tokens are not modelled.
- Database constraints other than primary keys, the unique columns `users.email`, `teams.name` and `odds.match_id`, and the `Team.athletes` delete cascade: foreign keys and NOT NULL. Also out:
  - the ORM identity map and session caching;
  - the sequence's behaviour after rows are inserted with explicit ids (the model keeps it above every key).
- Repository.Repository.Create: the entity passed in is not refreshed in place. The model returns the stored row instead of mutating the caller's object. The generic repository does not check the unique `teams.name`; the team endpoints and the facade check it before they call it, with the same outcome.
- TeamsApi.UpdateTeam, AthletesApi.UpdateAthlete, TeamService.TeamServiceFacade.TransferAthlete, RepositoryLogging.RepositoryLoggingDecorator.Update: the write goes through the intended `Repository.Repository.Merge`. As written, it goes through `Repository.Repository.Update`, which raises after the 404 checks pass (see "## Findings").
- Repository.Repository.Delete: removes only the row of its own table. The cascade to a team's athletes is `TeamAthletes.DeleteTeamAthletes`, which every team delete calls first.
- The team endpoints call the repository as static methods on a module-level `BaseRepository(db, Team)` object (teams/src/db/repositories/__init__.py:5-6). The model uses one repository object per table, as the concrete `TeamRepository` and `AthleteRepository` do.
- `get_model().__name__` is a plain string field of the repository.
- Request validation is modelled by the validator functions. The endpoint methods do not re-check it: they accept any request value.
- An explicit `null` for a required field of a stored team or athlete (name, country, first or last name) in a partial update is not modelled. Such a write fails at the database's NOT NULL constraint.
- teams_service/app/models.py is not part of this model. The standalone teams service's row is assumed to hold the name and country of its `TeamBase` schema.
- The error handlers' `request` argument is never read, and is dropped.
- The key order of the `teams_by_country` dict is not modelled; the result is a map.
- BetsApi.OutcomeOdds: the odds JSON also carries `id`, `match_id` and `updated_at`. Using one of those as an outcome name is modelled as a missing key, not as the value Python would read.
- BetsApi.WalletReadReply: gives the reply the user service's `read_user_wallet` is meant to give. As written (user_service/app/main.py:67-73), it reads the lazily loaded `user.wallet` inside an async session, which raises, so the endpoint answers 500. That is the `Rejected` case, and `BetsApi.RejectedWalletReadRefuses` shows that the saga then refuses every bet with 400.
- BetsApi.PatchWallet, BetsApi.PlaceBet: a delivered debit is applied by the intended `UserCrud.CreditWallet`. As written, it is answered 500 by the `TypeError` of `UserCrud.UpdateWalletBalance`, which is the `Rejected` case: the bet is deleted again (see "## Findings").
- BetsApi.CreateBet:
  - As written, no bet is ever placed: the wallet read answers 500 (refused with 400), and a delivered debit answers 500 (bet deleted). The contract describes the saga with both endpoints corrected.
  - Python reads the wallet through the token's email and debits through the user id. The model looks both up by the user id.
  - A request whose effect is applied but whose response is lost is not modelled.
  - The race between the balance check and the debit is not modelled. The model runs the saga as one atomic sequence.
- Bet settlement and payouts: no such code exists, so no match ever leaves "scheduled".
- The frontend, FastAPI routing and dependency injection, CORS, startup hooks, engine and session setup, and the `user` service's sqlmodel CRUD are not modelled.

## Findings

| source | as written | input that shows it | evidently intended | confidence | as-written member | corrected member |
|---|---|---|---|---|---|---|
| teams/src/db/repositories/base.py:40-50 | `session.get` loads the row, then `session.add(entity)` adds a different object with the same key, so the commit fails | any stored id, with the object each caller passes: a detached athlete from an earlier `get` (teams/src/api/v1/athletes.py:84, teams/src/services/team_service.py:84) raises `InvalidRequestError`; a transient `Team(id=team_id, …)` (teams/src/api/v1/teams.py:49-59) is inserted a second time and raises `IntegrityError` | the entity replaces the stored row, as `session.merge(entity)` would do | high, from reading; not executed | Repository.Repository.UpdateOutcome | Repository.Repository.MergeOutcome |
| user_service/app/crud.py:40 | `wallet.balance += amount` adds a `float` (the PATCH body's `amount`) to the `Decimal` that the `Numeric(10, 2)` column loads | any user with a wallet, `amount` = -10.0: `TypeError`, answered 500, nothing committed | the balance changes by `amount` | high, from reading; not executed | UserCrud.UpdateWalletBalance | UserCrud.CreditWallet |
