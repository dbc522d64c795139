/** The season summary of one team: the standings pass, the head-to-head pass over the weeks
    `1 .. G` (G the game count of the last standings entry), then, for every team that played,
    its "BBQ chicken" (the opponent it averaged the most points against), its "nemesis" (the
    opponent that averaged the most points against it) and how far its points were over or under
    its projection. */
module Wrapped {
  import opened Season
  import opened Statistics
  import opened Standings
  import opened Opponents

  /** The position `max` with a key picks: the first of the largest values. */
  function FirstMaxIndex(xs: seq<real>): (i: nat)
    requires |xs| > 0
    ensures i < |xs|
    ensures forall j :: 0 <= j < |xs| ==> xs[j] <= xs[i]
    ensures forall j :: 0 <= j < i ==> xs[j] < xs[i]
  {
    if |xs| == 1 then 0
    else
      var k := FirstMaxIndex(xs[..|xs| - 1]);
      if xs[|xs| - 1] > xs[k] then |xs| - 1 else k
  }

  /** Which list of a pairing a superlative ranks by. */
  datatype Column = For | Against

  function Pick(h: Head2Head, c: Column): seq<real>
  {
    if c == For then h.pointsFor else h.pointsAgainst
  }

  /** The mean of the chosen list against each opponent, in the opponents' order. */
  function Averages(L: Ledger, t: string, rs: seq<string>, c: Column): (r: seq<real>)
    requires forall i :: 0 <= i < |rs| ==> (t, rs[i]) in L.games && |Pick(L.games[(t, rs[i])], c)| > 0
    ensures |r| == |rs|
    ensures forall i :: 0 <= i < |rs| ==> r[i] == Mean(Pick(L.games[(t, rs[i])], c))
  {
    if rs == [] then [] else [Mean(Pick(L.games[(t, rs[0])], c))] + Averages(L, t, rs[1..], c)
  }

  function Abs(x: real): real
  {
    if x < 0.0 then -x else x
  }

  /** The opponent of `t` with the highest average in the chosen list; ties go to the opponent met
      first. */
  function Top(L: Ledger, t: string, c: Column): (o: string)
    requires WellFormed(L) && t in L.teams
    ensures o in L.rivals[t]
  {
    var rs := L.rivals[t];
    assert forall i :: 0 <= i < |rs| ==> rs[i] in rs;
    rs[FirstMaxIndex(Averages(L, t, rs, c))]
  }

  /** No opponent has a higher average than the one `Top` picks, and every opponent met before it
      has a strictly lower one. */
  lemma TopIsFirstBest(L: Ledger, t: string, c: Column)
    requires WellFormed(L) && t in L.teams
    ensures
      var o, rs := Top(L, t, c), L.rivals[t];
      && (forall u :: u in rs ==> Mean(Pick(L.games[(t, u)], c)) <= Mean(Pick(L.games[(t, o)], c)))
      && (forall i, j :: 0 <= i < j < |rs| && rs[j] == o ==>
            Mean(Pick(L.games[(t, rs[i])], c)) < Mean(Pick(L.games[(t, o)], c)))
  {
    var rs := L.rivals[t];
    assert forall i :: 0 <= i < |rs| ==> rs[i] in rs;
    var avg := Averages(L, t, rs, c);
    var k := FirstMaxIndex(avg);
    var o := Top(L, t, c);
    assert o == rs[k];
    forall u | u in rs
      ensures Mean(Pick(L.games[(t, u)], c)) <= Mean(Pick(L.games[(t, o)], c))
    {
      var i :| 0 <= i < |rs| && rs[i] == u;
      assert avg[i] <= avg[k];
    }
    forall i, j | 0 <= i < j < |rs| && rs[j] == o
      ensures Mean(Pick(L.games[(t, rs[i])], c)) < Mean(Pick(L.games[(t, o)], c))
    {
      assert j == k by {
        assert Distinct(rs);
      }
      assert avg[i] < avg[k];
    }
  }

  /** How far, in percent to the nearest hundredth, a team's points are over its projection. */
  function PercentOver(total: real, projected: real): real
    requires projected != 0.0
  {
    Round2((total / projected - 1.0) * 100.0)
  }

  /** The rounded percentage is positive only when the points beat the projection, always positive
      once they beat it by a ten-thousandth of it, zero when they equal it, and within half a
      hundredth of the exact percentage in size. */
  lemma PercentVerdict(total: real, projected: real)
    requires projected != 0.0
    ensures
      var q := total / projected;
      var pct := PercentOver(total, projected);
      && (pct > 0.0 ==> q > 1.0)
      && (q >= 1.0001 ==> pct > 0.0)
      && (total == projected ==> pct == 0.0)
      && -0.005 <= Abs(pct) - Abs((q - 1.0) * 100.0) <= 0.005
  {
    var q := total / projected;
    var pct := PercentOver(total, projected);
    var f := (pct * 100.0).Floor;
    assert f as real == pct * 100.0;
    if pct > 0.0 {
      assert f >= 1;
    }
    if total == projected {
      assert q == 1.0 by {
        assert q * projected == total;
      }
      assert -1 < f < 1;
    }
  }

  /** The verdict reads the rounded percentage: points four thousandths of a percent over the
      projection round to no improvement at all, so such a team is an "Under". */
  lemma BarelyOverIsUnder()
    ensures PercentOver(100.004, 100.0) == 0.0
  {
    assert (100.004 / 100.0 - 1.0) * 100.0 == 0.004;
    assert (0.4).Floor == 0;
  }

  /** The superlatives of a team that played: its BBQ chicken and nemesis with their averages to
      the nearest hundredth, and the percentage over or under its projection. */
  function SuperlativesOf(L: Ledger, total: real, t: string): Superlatives
    requires WellFormed(L) && t in L.teams && L.projected[t] != 0.0
  {
    var bbq, nemesis := Top(L, t, For), Top(L, t, Against);
    var pct := PercentOver(total, L.projected[t]);
    Superlatives(
      bbq, Round2(Mean(L.games[(t, bbq)].pointsFor)),
      nemesis, Round2(Mean(L.games[(t, nemesis)].pointsAgainst)),
      Abs(pct), if pct > 0.0 then Over else Under)
  }

  /** The BBQ chicken and the nemesis are the opponents `Top` picks, with averages within half a
      hundredth of the exact ones. The verdict is "Over" only when the points beat the projection,
      and always when they beat it by at least a hundredth of a percent; a team that scored exactly
      its projection is an "Under". */
  lemma SuperlativesMeaning(L: Ledger, total: real, t: string)
    requires WellFormed(L) && t in L.teams && L.projected[t] != 0.0
    ensures
      var s := SuperlativesOf(L, total, t);
      var x := (total / L.projected[t] - 1.0) * 100.0;
      && s.bbqChicken == Top(L, t, For) && s.nemesis == Top(L, t, Against)
      && -0.005 <= s.bbqChickenAvgPoints - Mean(L.games[(t, s.bbqChicken)].pointsFor) <= 0.005
      && -0.005 <= s.nemesisAvgPoints - Mean(L.games[(t, s.nemesis)].pointsAgainst) <= 0.005
      && s.percentageImprovement == Abs(PercentOver(total, L.projected[t])) >= 0.0
      && (s.overUnderPerformer == Over <==> PercentOver(total, L.projected[t]) > 0.0)
      && -0.005 <= s.percentageImprovement - Abs(x) <= 0.005
      && (s.overUnderPerformer == Over ==> total / L.projected[t] > 1.0)
      && (total / L.projected[t] >= 1.0001 ==> s.overUnderPerformer == Over)
      && (total == L.projected[t] ==> s.overUnderPerformer == Under)
  {
    PercentVerdict(total, L.projected[t]);
  }

  /** One pass of the superlatives loop: a team the standings do not know, or one with no
      projected points, fails; otherwise the team's summary gains its superlatives and no other
      summary changes. */
  function AnnotateTeam(m: map<string, TeamInfo>, totals: map<string, real>, L: Ledger, t: string)
    : (r: Result<map<string, TeamInfo>>)
    requires WellFormed(L) && t in L.teams && m.Keys == totals.Keys
    ensures r.Ok? <==> t in m && L.projected[t] != 0.0
    ensures r.Err? ==> r.error == if t !in m then UnknownTeam(t) else ZeroProjection(t)
    ensures r.Ok? ==> r.value.Keys == m.Keys
    ensures r.Ok? ==> forall n :: n in m ==>
      r.value[n] == if n == t then m[n].(superlatives := Some(SuperlativesOf(L, totals[n], n))) else m[n]
  {
    if t !in m then Err(UnknownTeam(t))
    else if L.projected[t] == 0.0 then Err(ZeroProjection(t))
    else Ok(m[t := m[t].(superlatives := Some(SuperlativesOf(L, totals[t], t)))])
  }

  /** The superlatives loop over the teams `ts`, in order; the first failure ends it. */
  function Annotated(info: map<string, TeamInfo>, totals: map<string, real>, L: Ledger, ts: seq<string>)
    : (r: Result<map<string, TeamInfo>>)
    requires WellFormed(L) && info.Keys == totals.Keys
    requires forall k :: 0 <= k < |ts| ==> ts[k] in L.teams
    ensures r.Ok? ==> r.value.Keys == info.Keys
  {
    if ts == [] then Ok(info)
    else
      match Annotated(info, totals, L, ts[..|ts| - 1])
      case Err(e) => Err(e)
      case Ok(m) => AnnotateTeam(m, totals, L, ts[|ts| - 1])
  }

  /** Every team of `ts` passes the loop's checks. */
  predicate Annotatable(info: map<string, TeamInfo>, L: Ledger, ts: seq<string>)
    requires forall k :: 0 <= k < |ts| ==> ts[k] in L.projected
  {
    forall k :: 0 <= k < |ts| ==> ts[k] in info && L.projected[ts[k]] != 0.0
  }

  lemma AnnotatableSnoc(info: map<string, TeamInfo>, L: Ledger, ts: seq<string>)
    requires ts != [] && forall k :: 0 <= k < |ts| ==> ts[k] in L.projected
    ensures
      var init, t := ts[..|ts| - 1], ts[|ts| - 1];
      Annotatable(info, L, ts) <==> Annotatable(info, L, init) && t in info && L.projected[t] != 0.0
  {
    assert forall k :: 0 <= k < |ts| - 1 ==> ts[..|ts| - 1][k] == ts[k];
  }

  /** The loop succeeds exactly when every team passes; it then adds its superlatives to each team
      of `ts` and leaves every other summary alone. Otherwise the failure names the first team
      that does not pass. */
  lemma {:induction false} AnnotatedClosedForm(info: map<string, TeamInfo>, totals: map<string, real>, L: Ledger, ts: seq<string>)
    requires WellFormed(L) && info.Keys == totals.Keys
    requires forall k :: 0 <= k < |ts| ==> ts[k] in L.teams
    ensures Annotated(info, totals, L, ts).Ok? <==> Annotatable(info, L, ts)
    ensures Annotated(info, totals, L, ts).Ok? ==> forall n :: n in info ==>
      Annotated(info, totals, L, ts).value[n] ==
        if n in ts then info[n].(superlatives := Some(SuperlativesOf(L, totals[n], n))) else info[n]
    ensures Annotated(info, totals, L, ts).Err? ==>
      exists k :: 0 <= k < |ts| && Annotatable(info, L, ts[..k])
        && Annotated(info, totals, L, ts).error ==
             (if ts[k] !in info then UnknownTeam(ts[k]) else ZeroProjection(ts[k]))
        && (ts[k] in info ==> L.projected[ts[k]] == 0.0)
    decreases |ts|
  {
    if ts != [] {
      var init, t := ts[..|ts| - 1], ts[|ts| - 1];
      AnnotatedClosedForm(info, totals, L, init);
      AnnotatableSnoc(info, L, ts);
      var before := Annotated(info, totals, L, init);
      if before.Err? {
        var k :| 0 <= k < |init| && Annotatable(info, L, init[..k])
          && before.error == (if init[k] !in info then UnknownTeam(init[k]) else ZeroProjection(init[k]))
          && (init[k] in info ==> L.projected[init[k]] == 0.0);
        assert init[..k] == ts[..k] && init[k] == ts[k];
      } else if Annotated(info, totals, L, ts).Err? {
        assert ts[..|init|] == init;
      } else {
        assert Annotatable(info, L, ts);
        AnnotatedValues(info, totals, L, ts);
      }
    }
  }

  /** The value step of the closed form: one more team decorated. */
  lemma AnnotatedValues(info: map<string, TeamInfo>, totals: map<string, real>, L: Ledger, ts: seq<string>)
    requires WellFormed(L) && info.Keys == totals.Keys
    requires ts != [] && forall k :: 0 <= k < |ts| ==> ts[k] in L.teams
    requires Annotated(info, totals, L, ts).Ok? && Annotatable(info, L, ts)
    requires
      var init := ts[..|ts| - 1];
      Annotated(info, totals, L, init).Ok? && forall n :: n in info ==>
        Annotated(info, totals, L, init).value[n] ==
          if n in init then info[n].(superlatives := Some(SuperlativesOf(L, totals[n], n))) else info[n]
    ensures forall n :: n in info ==>
      Annotated(info, totals, L, ts).value[n] ==
        if n in ts then info[n].(superlatives := Some(SuperlativesOf(L, totals[n], n))) else info[n]
  {
    var init, t := ts[..|ts| - 1], ts[|ts| - 1];
    var m := Annotated(info, totals, L, init).value;
    var r := Annotated(info, totals, L, ts).value;
    assert r == AnnotateTeam(m, totals, L, t).value;
    forall n | n in info
      ensures r[n] == if n in ts then info[n].(superlatives := Some(SuperlativesOf(L, totals[n], n))) else info[n]
    {
      InInitOrLast(ts, n);
      if n == t {
        assert r[n] == m[n].(superlatives := Some(SuperlativesOf(L, totals[n], n)));
      } else {
        assert r[n] == m[n];
      }
    }
  }

  /** Once the loop has failed, more teams do not change the failure. */
  lemma {:induction false} AnnotatedErrSticks(info: map<string, TeamInfo>, totals: map<string, real>, L: Ledger, ts: seq<string>, i: nat)
    requires WellFormed(L) && info.Keys == totals.Keys
    requires forall k :: 0 <= k < |ts| ==> ts[k] in L.teams
    requires i <= |ts| && Annotated(info, totals, L, ts[..i]).Err?
    ensures Annotated(info, totals, L, ts) == Annotated(info, totals, L, ts[..i])
    decreases |ts| - i
  {
    if i < |ts| {
      assert ts[..i + 1][..i] == ts[..i];
      AnnotatedErrSticks(info, totals, L, ts, i + 1);
    } else {
      assert ts[..i] == ts;
    }
  }

  lemma AnnotatedStep(info: map<string, TeamInfo>, totals: map<string, real>, L: Ledger, ts: seq<string>, i: nat)
    requires WellFormed(L) && info.Keys == totals.Keys
    requires forall k :: 0 <= k < |ts| ==> ts[k] in L.teams
    requires i < |ts| && Annotated(info, totals, L, ts[..i]).Ok?
    ensures Annotated(info, totals, L, ts[..i + 1])
      == AnnotateTeam(Annotated(info, totals, L, ts[..i]).value, totals, L, ts[i])
  {
    assert ts[..i + 1][..i] == ts[..i];
  }

  /** The superlatives loop. */
  method Annotate(info: map<string, TeamInfo>, totals: map<string, real>, L: Ledger)
    returns (r: Result<map<string, TeamInfo>>)
    requires WellFormed(L) && info.Keys == totals.Keys
    ensures r == Annotated(info, totals, L, L.teams)
  {
    var names := info;
    for i := 0 to |L.teams|
      invariant Annotated(info, totals, L, L.teams[..i]) == Ok(names)
    {
      var t := L.teams[i];
      AnnotatedStep(info, totals, L, L.teams, i);
      if t !in names {
        AnnotatedErrSticks(info, totals, L, L.teams, i + 1);
        return Err(UnknownTeam(t));
      }
      if L.projected[t] == 0.0 {
        AnnotatedErrSticks(info, totals, L, L.teams, i + 1);
        return Err(ZeroProjection(t));
      }
      names := names[t := names[t].(superlatives := Some(SuperlativesOf(L, totals[t], t)))];
    }
    assert L.teams[..|L.teams|] == L.teams;
    r := Ok(names);
  }

  /** The head-to-head tables of a successful pass are well formed. */
  lemma SeasonLedgerWellFormed(weeks: Scoreboard, games: int)
    requires SeasonLedger(weeks, games).Ok?
    ensures WellFormed(SeasonLedger(weeks, games).value)
  {
    ReplayWellFormed(MatchupsRead(weeks, games));
  }

  /** The whole summary request for `teamName`. */
  function WrappedOf(standings: seq<Standing>, weeks: Scoreboard, teamName: string): Result<TeamInfo>
  {
    match StandingsBoard(standings)
    case Err(e) => Err(e)
    case Ok(board) =>
      match SeasonLedger(weeks, board.lastGames)
      case Err(e) => Err(e)
      case Ok(L) =>
        BoardTeams(standings);
        SeasonLedgerWellFormed(weeks, board.lastGames);
        match Annotated(board.info, board.totals, L, L.teams)
        case Err(e) => Err(e)
        case Ok(info) => if teamName in info then Ok(info[teamName]) else Err(UnknownTeam(teamName))
  }

  method GetTeamWrapped(standings: seq<Standing>, weeks: Scoreboard, teamName: string) returns (r: Result<TeamInfo>)
    ensures r == WrappedOf(standings, weeks, teamName)
  {
    var board := ReadStandings(standings);
    if board.Err? {
      return Err(board.error);
    }
    var ledger := RecordSeason(weeks, board.value.lastGames);
    if ledger.Err? {
      return Err(ledger.error);
    }
    BoardTeams(standings);
    SeasonLedgerWellFormed(weeks, board.value.lastGames);
    var info := Annotate(board.value.info, board.value.totals, ledger.value);
    if info.Err? {
      return Err(info.error);
    }
    if teamName !in info.value {
      return Err(UnknownTeam(teamName));
    }
    r := Ok(info.value[teamName]);
  }

  /** The weeks read are the first G, G the game count of the LAST standings entry: whatever the
      scoreboard holds after them does not change the summary. */
  lemma WrappedReadsGamesOfLastEntry(standings: seq<Standing>, weeks: Scoreboard, teamName: string)
    requires StandingsBoard(standings).Ok?
    requires 0 <= Games(standings[|standings| - 1]) <= |weeks|
    ensures
      var g := Games(standings[|standings| - 1]);
      WrappedOf(standings, weeks, teamName) == WrappedOf(standings, weeks[..g], teamName)
  {
    var g := Games(standings[|standings| - 1]);
    assert weeks[..g][..g] == weeks[..g];
  }

  /** The matchups the head-to-head pass reads: those of the weeks `1 .. g`. */
  function MatchupsRead(weeks: Scoreboard, g: int): seq<Matchup>
    requires g <= |weeks|
  {
    SeasonMatchups(weeks[..if g > 0 then g else 0])
  }

  /** A successful summary is the team's last standings entry (its record, rank, logo and average
      points per game), with superlatives exactly when the team played in one of the weeks read. */
  lemma WrappedSummary(standings: seq<Standing>, weeks: Scoreboard, teamName: string)
    requires WrappedOf(standings, weeks, teamName).Ok?
    ensures
      var r := WrappedOf(standings, weeks, teamName).value;
      var g := StandingsBoard(standings).value.lastGames;
      var k := LastEntry(standings, teamName);
      && g <= |weeks| && 0 <= k && Games(standings[k]) != 0
      && r.(superlatives := None) == InfoOf(standings[k])
      && (r.superlatives.Some? <==> teamName in Names(MatchupSides(MatchupsRead(weeks, g))))
  {
    var board := StandingsBoard(standings).value;
    BoardTeams(standings);
    InfoTableLatest(standings);
    var ms := MatchupsRead(weeks, board.lastGames);
    var L := SeasonLedger(weeks, board.lastGames).value;
    SeasonLedgerWellFormed(weeks, board.lastGames);
    AnnotatedClosedForm(board.info, board.totals, L, L.teams);
    ReplayTeams(ms);
  }

  /** The superlatives of a team that played are worked out from the head-to-head tables of the
      weeks read: its opponents in order of first meeting, the points each side scored meeting by
      meeting, its summed projections, and its season points from the standings. */
  lemma WrappedSuperlatives(standings: seq<Standing>, weeks: Scoreboard, teamName: string)
    requires WrappedOf(standings, weeks, teamName).Ok?
    requires WrappedOf(standings, weeks, teamName).value.superlatives.Some?
    ensures
      var g := StandingsBoard(standings).value.lastGames;
      && g <= |weeks|
      && var ms := MatchupsRead(weeks, g);
         var L := Replay(Empty, ms);
         && WellFormed(L) && teamName in L.teams && L.projected[teamName] != 0.0
         && WrappedOf(standings, weeks, teamName).value.superlatives
              == Some(SuperlativesOf(L, PointsForOf(teamName, standings), teamName))
         && L.rivals[teamName] == Dedup(OpponentsMet(teamName, ms))
         && L.projected[teamName] == ProjectedOf(teamName, MatchupSides(ms))
         && forall o :: o in L.rivals[teamName] ==>
              L.games[(teamName, o)]
                == Head2Head(PointsAgainstRival(teamName, o, ms), PointsConceded(teamName, o, ms))
  {
    var board := StandingsBoard(standings).value;
    BoardTeams(standings);
    TotalsClosedForm(standings);
    var ms := MatchupsRead(weeks, board.lastGames);
    var L := SeasonLedger(weeks, board.lastGames).value;
    SeasonLedgerWellFormed(weeks, board.lastGames);
    AnnotatedClosedForm(board.info, board.totals, L, L.teams);
    InfoTableLatest(standings);
    ReplayRivals(ms, teamName);
    ReplayProjected(ms, teamName);
    forall o | o in L.rivals[teamName]
      ensures L.games[(teamName, o)]
        == Head2Head(PointsAgainstRival(teamName, o, ms), PointsConceded(teamName, o, ms))
    {
      ReplayGames(ms, teamName, o);
    }
  }
}
