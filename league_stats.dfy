/** The league statistics and the team list of the API client: the roster teams' weekly scores
    over the weeks before the current one, summarised for every team with at least two scores. */
module LeagueStats {
  import opened Season
  import opened Statistics
  import opened ScoreTables

  /** A roster entry as the teams listing gives it. */
  datatype RosterTeam = RosterTeam(name: string, logoUrl: string)

  /** Score table, week loop, then a summary of every team with at least two scores. The result
      is fully determined: it fails exactly when a week before the current one is missing or a
      side names a team off the roster (the earlier failure wins), and otherwise reports each
      roster team that played at least twice with the statistics of its own points in week order. */
  method GetLeagueStats(roster: seq<string>, weeks: Scoreboard, currentWeek: int)
    returns (r: Result<map<string, TeamStats>>)
    ensures
      var sides := Played(weeks, currentWeek);
      r.Ok? <==> WeeksBefore(currentWeek) <= |weeks| && OnRoster(roster, sides)
    ensures
      var sides := Played(weeks, currentWeek);
      r.Ok? ==> forall n :: n in r.value <==> n in roster && Appearances(n, sides) >= 2
    ensures
      var sides := Played(weeks, currentWeek);
      r.Ok? ==> forall n :: n in r.value ==>
        |PointsOf(n, sides)| >= 2 && r.value[n] == Summary(PointsOf(n, sides))
    ensures
      var sides := Played(weeks, currentWeek);
      r.Err? ==>
        || (OnRoster(roster, sides) && r.error == WeekUnavailable(|weeks| + 1))
        || exists k :: 0 <= k < |sides| && sides[k].name !in roster
             && (forall j :: 0 <= j < k ==> sides[j].name in roster)
             && r.error == UnknownTeam(sides[k].name)
  {
    var table := new ScoreTable(roster);
    var fault := table.Accumulate(weeks, currentWeek);
    if fault.Some? {
      TallyFailed(roster, weeks, currentWeek);
      return Err(fault.value);
    }
    TallySucceeded(roster, weeks, currentWeek);
    var results := table.ReportAtLeastTwo();
    r := Ok(results);
  }

  /** Names and logo addresses of the roster, position by position: zipping them back together
      gives the roster. */
  method TeamList(roster: seq<RosterTeam>) returns (names: seq<string>, logos: seq<string>)
    ensures |names| == |logos| == |roster|
    ensures forall i :: 0 <= i < |roster| ==> RosterTeam(names[i], logos[i]) == roster[i]
  {
    names, logos := [], [];
    for i := 0 to |roster|
      invariant |names| == |logos| == i
      invariant forall j :: 0 <= j < i ==> RosterTeam(names[j], logos[j]) == roster[j]
    {
      names := names + [roster[i].name];
      logos := logos + [roster[i].logoUrl];
    }
  }
}
