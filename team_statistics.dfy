/** The pure definitions behind the facade's statistics and ages
    (teams/src/services/team_service.py): athletes of a team, teams per country, the
    (name, size) pairs with their first largest and smallest entries, and the age rule. */
module TeamStatistics {
  import opened Wrappers
  import opened Tables
  import opened Seqs
  import opened TeamsModels

  /** `[a for a in all_athletes if a.team_id == team_id]` */
  function AthletesOf(athletes: seq<Row<AthleteData>>, teamId: int): (r: seq<Row<AthleteData>>)
    ensures |r| <= |athletes|
    ensures forall i :: 0 <= i < |r| ==> r[i] in athletes && r[i].data.teamId == teamId
    ensures forall i :: 0 <= i < |athletes| && athletes[i].data.teamId == teamId ==> athletes[i] in r
    ensures forall x | x in multiset(athletes) ::
              multiset(r)[x] == if x.data.teamId == teamId then multiset(athletes)[x] else 0
    ensures DistinctIds(athletes) ==> DistinctIds(r)
  {
    var onTeam := (a: Row<AthleteData>) => a.data.teamId == teamId;
    FilterCounts(athletes, onTeam);
    FilterKeepsIdsDistinct(athletes, onTeam);
    Filter(athletes, onTeam)
  }

  // ---------------------------------------------------------------- teams per country

  /** How many of `teams` are in country `c`. */
  function CountIn(teams: seq<Row<TeamData>>, c: string): (r: nat)
    ensures r <= |teams|
    ensures r == 0 <==> forall i :: 0 <= i < |teams| ==> teams[i].data.country != c
  {
    if teams == [] then 0
    else
      var last := teams[|teams| - 1];
      var prefix := teams[..|teams| - 1];
      assert forall i :: 0 <= i < |prefix| ==> prefix[i] == teams[i];
      CountIn(prefix, c) + if last.data.country == c then 1 else 0
  }

  ghost predicate Distinct<T>(s: seq<T>) {
    forall i, j :: 0 <= i < j < |s| ==> s[i] != s[j]
  }

  /** The countries of `teams` in the order a dict first sees them. */
  function CountryKeys(teams: seq<Row<TeamData>>): (r: seq<string>)
  {
    if teams == [] then []
    else
      var keys := CountryKeys(teams[..|teams| - 1]);
      var c := teams[|teams| - 1].data.country;
      if c in keys then keys else keys + [c]
  }

  /** The sum of the per-country counts over `keys`. */
  function SumCounts(keys: seq<string>, teams: seq<Row<TeamData>>): nat {
    if keys == [] then 0 else CountIn(teams, keys[0]) + SumCounts(keys[1..], teams)
  }

  /** Each country of the teams is a key exactly once, and only those are keys. */
  lemma {:induction false} CountryKeysExact(teams: seq<Row<TeamData>>)
    ensures Distinct(CountryKeys(teams))
    ensures forall c :: c in CountryKeys(teams) <==> CountIn(teams, c) > 0
  {
    if teams != [] {
      CountryKeysExact(teams[..|teams| - 1]);
    }
  }

  lemma {:induction false} SumCountsAppendKey(keys: seq<string>, c: string, teams: seq<Row<TeamData>>)
    ensures SumCounts(keys + [c], teams) == SumCounts(keys, teams) + CountIn(teams, c)
  {
    if keys != [] {
      assert (keys + [c])[1..] == keys[1..] + [c];
      SumCountsAppendKey(keys[1..], c, teams);
    }
  }

  /** Adding one team to the scan adds one to the sum exactly when its country is a key. */
  lemma {:induction false} SumCountsAppendTeam(keys: seq<string>, teams: seq<Row<TeamData>>)
    requires teams != [] && Distinct(keys)
    ensures SumCounts(keys, teams) ==
              SumCounts(keys, teams[..|teams| - 1]) + if teams[|teams| - 1].data.country in keys then 1 else 0
  {
    if keys != [] {
      assert Distinct(keys[1..]);
      assert keys[0] !in keys[1..];
      SumCountsAppendTeam(keys[1..], teams);
    }
  }

  /** The per-country counts add up to the number of teams. */
  lemma {:induction false} CountsSumToTotal(teams: seq<Row<TeamData>>)
    ensures SumCounts(CountryKeys(teams), teams) == |teams|
  {
    if teams != [] {
      var prefix := teams[..|teams| - 1];
      var c := teams[|teams| - 1].data.country;
      var keys := CountryKeys(prefix);
      CountsSumToTotal(prefix);
      CountryKeysExact(prefix);
      if c in keys {
        SumCountsAppendTeam(keys, teams);
      } else {
        SumCountsAppendKey(keys, c, teams);
        SumCountsAppendTeam(keys, teams);
        assert CountIn(prefix, c) == 0;
      }
    }
  }

  // ---------------------------------------------------------------- largest and smallest

  /** A `(team.name, len(team_athletes))` pair. */
  datatype TeamSize = TeamSize(name: string, size: nat)

  /** The pair for every team, in scan order. */
  function TeamSizes(teams: seq<Row<TeamData>>, athletes: seq<Row<AthleteData>>): (r: seq<TeamSize>)
    ensures |r| == |teams|
    ensures forall i :: 0 <= i < |r| ==>
              r[i].name == teams[i].data.name && r[i].size == |AthletesOf(athletes, teams[i].id)|
  {
    seq(|teams|, i requires 0 <= i < |teams| => TeamSize(teams[i].data.name, |AthletesOf(athletes, teams[i].id)|))
  }

  /** `max(sizes, key=...)`: the first pair of greatest size. */
  function MaxIndex(sizes: seq<TeamSize>): (r: nat)
    requires sizes != []
    ensures r < |sizes|
    ensures forall j :: 0 <= j < |sizes| ==> sizes[j].size <= sizes[r].size
    ensures forall j :: 0 <= j < r ==> sizes[j].size < sizes[r].size
  {
    if |sizes| == 1 then 0
    else
      var m := MaxIndex(sizes[..|sizes| - 1]);
      assert forall j :: 0 <= j < |sizes| - 1 ==> sizes[..|sizes| - 1][j] == sizes[j];
      if sizes[|sizes| - 1].size > sizes[m].size then |sizes| - 1 else m
  }

  /** `min(sizes, key=...)`: the first pair of least size. */
  function MinIndex(sizes: seq<TeamSize>): (r: nat)
    requires sizes != []
    ensures r < |sizes|
    ensures forall j :: 0 <= j < |sizes| ==> sizes[r].size <= sizes[j].size
    ensures forall j :: 0 <= j < r ==> sizes[r].size < sizes[j].size
  {
    if |sizes| == 1 then 0
    else
      var m := MinIndex(sizes[..|sizes| - 1]);
      assert forall j :: 0 <= j < |sizes| - 1 ==> sizes[..|sizes| - 1][j] == sizes[j];
      if sizes[|sizes| - 1].size < sizes[m].size then |sizes| - 1 else m
  }

  // ---------------------------------------------------------------- ages

  /** `a <= b` for dates, compared as (year, month, day). */
  predicate OnOrBefore(a: Date, b: Date) {
    a.year < b.year || (a.year == b.year && (a.month < b.month || (a.month == b.month && a.day <= b.day)))
  }

  /** The `n`-th anniversary of `dob`, compared by month and day like the source does. */
  function Anniversary(dob: Date, n: int): Date {
    Date(dob.year + n, dob.month, dob.day)
  }

  /** Age in completed years: the last anniversary that has been reached by `today`. */
  function AgeOn(dob: Date, today: Date): (r: int)
    ensures OnOrBefore(Anniversary(dob, r), today)
    ensures !OnOrBefore(Anniversary(dob, r + 1), today)
  {
    var age := today.year - dob.year;
    if today.month < dob.month || (today.month == dob.month && today.day < dob.day) then age - 1 else age
  }

  /** Whether every athlete has a date of birth. */
  predicate AllBorn(athletes: seq<Row<AthleteData>>) {
    forall i :: 0 <= i < |athletes| ==> athletes[i].data.dateOfBirth.Some?
  }

  /** The ages of the athletes, in order. */
  function Ages(athletes: seq<Row<AthleteData>>, today: Date): (r: seq<int>)
    requires AllBorn(athletes)
    ensures |r| == |athletes|
    ensures forall i :: 0 <= i < |r| ==> r[i] == AgeOn(athletes[i].data.dateOfBirth.value, today)
  {
    seq(|athletes|, i requires 0 <= i < |athletes| => AgeOn(athletes[i].data.dateOfBirth.value, today))
  }

  function Sum(s: seq<int>): int {
    if s == [] then 0 else Sum(s[..|s| - 1]) + s[|s| - 1]
  }

  /** The mean age `sum(ages) / len(ages)`, kept as its two integer operands. */
  datatype AgeMean = AgeMean(totalYears: int, count: nat)
}
