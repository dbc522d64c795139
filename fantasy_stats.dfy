/** The statistics endpoint of the two stand-alone scripts: the same score table and week loop as
    the API client, but every roster team is summarised, so a team with fewer than two scores makes
    the whole request fail. Any failure is caught and reported instead of the data. */
module FantasyStats {
  import opened Season
  import opened Statistics
  import opened ScoreTables

  /** The reply of the endpoint: the data, or the failure that ended the computation. */
  datatype Response = Success(data: map<string, TeamStats>) | Failure(error: Fault)

  /** `k` is the first position of `names` whose team has fewer than two scores. */
  predicate FirstShortAt(names: seq<string>, sides: seq<Side>, k: int)
  {
    && 0 <= k < |names|
    && Appearances(names[k], sides) < 2
    && forall j :: 0 <= j < k ==> Appearances(names[j], sides) >= 2
  }

  /** The first short list in the table's key order is the first roster team that played fewer
      than two times. */
  lemma ShortTeam(roster: seq<string>, weeks: Scoreboard, currentWeek: int, k: int)
    requires Tally(Blank(roster), weeks, currentWeek).Ok?
    requires
      var t := Tally(Blank(roster), weeks, currentWeek).value;
      var names := Dedup(roster);
      && 0 <= k < |names|
      && names[k] in t && |t[names[k]]| < 2
      && forall j :: 0 <= j < k ==> names[j] in t && |t[names[j]]| >= 2
    ensures FirstShortAt(Dedup(roster), Played(weeks, currentWeek), k)
  {
    TallySucceeded(roster, weeks, currentWeek);
  }

  /** It succeeds exactly when every week before the current one is available, every side names a
      roster team and every roster team played at least twice; it then reports every roster team
      with the statistics of its own points in week order. Otherwise it reports the first failure:
      an unknown team or a missing week while accumulating, or else the first roster team, in
      roster order, with fewer than two scores. */
  method GetFantasyStats(roster: seq<string>, weeks: Scoreboard, currentWeek: int) returns (resp: Response)
    ensures
      var sides := Played(weeks, currentWeek);
      resp.Success? <==>
        && WeeksBefore(currentWeek) <= |weeks|
        && OnRoster(roster, sides)
        && forall n :: n in roster ==> Appearances(n, sides) >= 2
    ensures resp.Success? ==> forall n :: n in resp.data <==> n in roster
    ensures
      var sides := Played(weeks, currentWeek);
      resp.Success? ==> forall n :: n in resp.data ==>
        |PointsOf(n, sides)| >= 2 && resp.data[n] == Summary(PointsOf(n, sides))
    ensures
      var sides := Played(weeks, currentWeek);
      resp.Failure? ==>
        || (exists k :: 0 <= k < |sides| && sides[k].name !in roster
              && (forall j :: 0 <= j < k ==> sides[j].name in roster)
              && resp.error == UnknownTeam(sides[k].name))
        || (OnRoster(roster, sides) && WeeksBefore(currentWeek) > |weeks|
              && resp.error == WeekUnavailable(|weeks| + 1))
        || (OnRoster(roster, sides) && WeeksBefore(currentWeek) <= |weeks|
              && exists k :: FirstShortAt(Dedup(roster), sides, k)
                   && resp.error == TooFewScores(Dedup(roster)[k]))
  {
    var table := new ScoreTable(roster);
    var fault := table.Accumulate(weeks, currentWeek);
    if fault.Some? {
      TallyFailed(roster, weeks, currentWeek);
      return Failure(fault.value);
    }
    TallySucceeded(roster, weeks, currentWeek);
    var r := table.ReportAll();
    if r.Err? {
      var k :| 0 <= k < |table.names| && r.error == TooFewScores(table.names[k])
        && |table.scores[table.names[k]]| < 2
        && forall j :: 0 <= j < k ==> |table.scores[table.names[j]]| >= 2;
      ShortTeam(roster, weeks, currentWeek, k);
      return Failure(r.error);
    }
    resp := Success(r.value);
  }
}
