/** The matches service's data access (matches_service/app/crud.py): matches read together
    with their odds, new matches in the "scheduled" state, odds attached to a match, and the
    in-place overwrite of a match's odds. Odds are held in integer hundredths, times as an
    opaque integer timestamp. */
module MatchesCrud {
  import opened Wrappers
  import opened Tables
  import opened Seqs
  import opened Exceptions

  /** A `matches` row. */
  datatype Match = Match(
    homeTeamId: int,
    awayTeamId: int,
    startTime: int,
    status: string,
    result: Option<string>,
    winnerId: Option<int>,
    completedTime: Option<int>)

  datatype MatchCreate = MatchCreate(homeTeamId: int, awayTeamId: int, startTime: int)

  /** An `odds` row; `match_id` is a nullable column. */
  datatype Odds = Odds(matchId: Option<int>, winHome: int, draw: int, winAway: int)

  /** `OddsCreate`: all three prices are required. */
  datatype OddsCreate = OddsCreate(winHome: int, draw: int, winAway: int)

  /** A match as it is read, with its one-to-one `odds` relationship loaded. */
  datatype MatchView = MatchView(id: int, data: Match, odds: Option<Row<Odds>>)

  /** The column default of `status`. */
  const ScheduledStatus: string := "scheduled"

  /** The default page of `get_matches`. */
  const DefaultLimit: nat := 100

  /** The odds row of a match: the first one whose `match_id` is that match. */
  function OddsOf(odds: Table<Odds>, matchId: int): (r: Option<Row<Odds>>)
    reads odds
    requires odds.Valid()
    ensures r.None? <==> forall i :: 0 <= i < |odds.Scan()| ==> odds.Scan()[i].data.matchId != Some(matchId)
    ensures r.Some? ==> r.value.data.matchId == Some(matchId) && r.value.id in odds.rows
    ensures r.Some? ==> odds.rows[r.value.id] == r.value.data
  {
    FirstWhere(odds.Scan(), (o: Row<Odds>) => o.data.matchId == Some(matchId))
  }

  /** `get_match`: the match with that id and its odds, or `None`. */
  function GetMatch(matches: Table<Match>, odds: Table<Odds>, matchId: int): (r: Option<MatchView>)
    reads matches, odds
    requires matches.Valid() && odds.Valid()
    ensures r.Some? <==> matchId in matches.rows
    ensures r.Some? ==> r.value.id == matchId && r.value.data == matches.rows[matchId]
    ensures r.Some? ==> r.value.odds == OddsOf(odds, matchId)
  {
    if matchId in matches.rows then Some(MatchView(matchId, matches.rows[matchId], OddsOf(odds, matchId)))
    else None
  }

  /** `get_matches(skip, limit)`: at most `limit` matches after skipping `skip`, in scan
      order, each with its odds. */
  function GetMatches(matches: Table<Match>, odds: Table<Odds>, skip: nat := 0, limit: nat := DefaultLimit)
    : (r: seq<MatchView>)
    reads matches, odds
    requires matches.Valid() && odds.Valid()
    ensures |r| <= limit
    ensures |r| == |Page(matches.Scan(), skip, limit)|
    ensures forall i :: 0 <= i < |r| ==>
              skip + i < |matches.Scan()| && r[i].id == matches.Scan()[skip + i].id &&
              r[i].data == matches.Scan()[skip + i].data && r[i].odds == OddsOf(odds, r[i].id)
  {
    var page := Page(matches.Scan(), skip, limit);
    seq(|page|, i requires 0 <= i < |page| && odds.Valid() reads odds => MatchView(page[i].id, page[i].data, OddsOf(odds, page[i].id)))
  }

  /** The match `create_match` stores: the request, in the default state, with no result. */
  function NewMatch(m: MatchCreate): (r: Match)
    ensures r.homeTeamId == m.homeTeamId && r.awayTeamId == m.awayTeamId && r.startTime == m.startTime
    ensures r.status == ScheduledStatus
    ensures r.result.None? && r.winnerId.None? && r.completedTime.None?
  {
    Match(m.homeTeamId, m.awayTeamId, m.startTime, ScheduledStatus, None, None, None)
  }

  /** `create_match`: stores the new match and reads it back with its odds. */
  method CreateMatch(matches: Table<Match>, odds: Table<Odds>, m: MatchCreate) returns (r: MatchView)
    requires matches.Valid() && odds.Valid()
    modifies matches
    ensures matches.Valid()
    ensures r.id !in old(matches.rows) && r.data == NewMatch(m) && r.odds == OddsOf(odds, r.id)
    ensures matches.Scan() == old(matches.Scan()) + [Row(r.id, r.data)]
  {
    var id := matches.Insert(NewMatch(m));
    var stored := GetMatch(matches, odds, id);
    r := stored.value;
  }

  /** What the unique index on `odds.match_id` keeps true of the table. */
  ghost predicate OneOddsPerMatch(rows: map<int, Odds>) {
    forall j, k | j in rows && k in rows && j != k && rows[j].matchId.Some? :: rows[j].matchId != rows[k].matchId
  }

  /** `create_match_odds`: a new odds row attached to `matchId`. A match that already has
      odds is refused by the unique index on `odds.match_id`, and nothing is written. */
  method CreateMatchOdds(odds: Table<Odds>, matchId: int, o: OddsCreate) returns (r: Result<Row<Odds>, Exception>)
    requires odds.Valid()
    modifies odds
    ensures odds.Valid()
    ensures r.Err? <==> old(OddsOf(odds, matchId)).Some?
    ensures r.Err? ==> r.error == IntegrityError(DuplicateKeyMessage) && unchanged(odds)
    ensures r.Ok? ==> r.value.id !in old(odds.rows) && r.value.data == Odds(Some(matchId), o.winHome, o.draw, o.winAway)
    ensures r.Ok? ==> odds.Scan() == old(odds.Scan()) + [r.value]
    ensures old(OneOddsPerMatch(odds.rows)) ==> OneOddsPerMatch(odds.rows)
  {
    if OddsOf(odds, matchId).Some? {
      return Err(IntegrityError(DuplicateKeyMessage));
    }
    forall k | k in odds.rows
      ensures odds.rows[k].matchId != Some(matchId)
    {
      assert k in odds.order;
      var i :| 0 <= i < |odds.order| && odds.order[i] == k;
      assert odds.Scan()[i].id == k;
    }
    var data := Odds(Some(matchId), o.winHome, o.draw, o.winAway);
    var id := odds.Insert(data);
    r := Ok(Row(id, data));
  }

  // ---------------------------------------------------------------- overwriting odds

  /** One `setattr(db_odds, key, value)`. */
  datatype OddsAssignment = WinHomeTo(winHome: int) | DrawTo(draw: int) | WinAwayTo(winAway: int)

  /** `odds.dict(exclude_unset=True)`: every field of `OddsCreate` is required, so all three
      prices are always present, in field order. */
  function OddsData(o: OddsCreate): (r: seq<OddsAssignment>)
    ensures |r| == 3
    ensures r[0] == WinHomeTo(o.winHome) && r[1] == DrawTo(o.draw) && r[2] == WinAwayTo(o.winAway)
  {
    [WinHomeTo(o.winHome), DrawTo(o.draw), WinAwayTo(o.winAway)]
  }

  function AssignOdds(row: Odds, x: OddsAssignment): Odds {
    match x
    case WinHomeTo(v) => row.(winHome := v)
    case DrawTo(v) => row.(draw := v)
    case WinAwayTo(v) => row.(winAway := v)
  }

  /** The odds row after the loop has applied `xs`, first to last. */
  function AssignAllOdds(row: Odds, xs: seq<OddsAssignment>): Odds {
    if xs == [] then row else AssignOdds(AssignAllOdds(row, xs[..|xs| - 1]), xs[|xs| - 1])
  }

  /** The `setattr` loop over the dumped request sets the three prices and keeps `match_id`. */
  lemma OddsLoopOverwrites(row: Odds, o: OddsCreate)
    ensures AssignAllOdds(row, OddsData(o)) == Odds(row.matchId, o.winHome, o.draw, o.winAway)
  {
    var xs := OddsData(o);
    assert xs[..2][..1] == xs[..1] && xs[..1][..0] == [];
    calc {
      AssignAllOdds(row, xs);
      AssignOdds(AssignAllOdds(row, xs[..2]), xs[2]);
      AssignOdds(AssignOdds(AssignAllOdds(row, xs[..1]), xs[1]), xs[2]);
      AssignOdds(AssignOdds(AssignOdds(row, xs[0]), xs[1]), xs[2]);
    }
  }

  /** `update_odds`: the odds row of the match, overwritten in place; `None` and no change
      when the match has no odds row. */
  method UpdateOdds(odds: Table<Odds>, matchId: int, o: OddsCreate) returns (r: Option<Row<Odds>>)
    requires odds.Valid()
    modifies odds
    ensures odds.Valid()
    ensures r.None? <==> old(OddsOf(odds, matchId)).None?
    ensures r.None? ==> unchanged(odds)
    ensures r.Some? ==> r.value == Row(old(OddsOf(odds, matchId)).value.id,
                                       Odds(Some(matchId), o.winHome, o.draw, o.winAway))
    ensures r.Some? ==> odds.rows == old(odds.rows)[r.value.id := r.value.data]
    ensures r.Some? ==> odds.order == old(odds.order)
  {
    var found := OddsOf(odds, matchId);
    if found.None? {
      return None;
    }
    var oddsData := OddsData(o);
    var row := found.value.data;
    for i := 0 to |oddsData|
      invariant row == AssignAllOdds(found.value.data, oddsData[..i])
    {
      assert oddsData[..i + 1][..i] == oddsData[..i];
      row := AssignOdds(row, oddsData[i]);
    }
    assert oddsData[..|oddsData|] == oddsData;
    OddsLoopOverwrites(found.value.data, o);
    odds.Replace(found.value.id, row);
    r := Some(Row(found.value.id, row));
  }
}
