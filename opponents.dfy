/** The head-to-head pass of the season summary. Every matchup of the weeks read adds each side's
    projected points to its team's projection, records the two teams as opponents of each other
    (in order of first meeting), and appends each side's points to its own "points for" list and
    to its opponent's "points against" list for that pairing. */
module Opponents {
  import opened Season

  /** The scores of one team against one opponent, one entry per meeting. */
  datatype Head2Head = Head2Head(pointsFor: seq<real>, pointsAgainst: seq<real>)

  /** The tables the pass builds: the teams in order of first appearance, each team's opponents
      in order of first meeting, the head-to-head lists by (team, opponent), and each team's
      projected points. */
  datatype Ledger = Ledger(
    teams: seq<string>,
    rivals: map<string, seq<string>>,
    games: map<(string, string), Head2Head>,
    projected: map<string, real>)

  const Empty: Ledger := Ledger([], map[], map[], map[])

  /** A side's projected points added to its team's projection, counting from zero. */
  function AddProjection(p: map<string, real>, s: Side): map<string, real>
  {
    p[s.name := (if s.name in p then p[s.name] else 0.0) + s.projected]
  }

  function RivalsOf(rivals: map<string, seq<string>>, t: string): seq<string>
  {
    if t in rivals then rivals[t] else []
  }

  function GamesOf(games: map<(string, string), Head2Head>, t: string, o: string): Head2Head
  {
    if (t, o) in games then games[(t, o)] else Head2Head([], [])
  }

  function ProjectionOf(projected: map<string, real>, t: string): real
  {
    if t in projected then projected[t] else 0.0
  }

  /** One matchup entered, step by step as the dictionaries are updated: home before away, and
      the home team's view of the pairing before the away team's. */
  function Record(L: Ledger, m: Matchup): Ledger
  {
    Ledger(EnterTeams(L.teams, m), EnterRivals(L.rivals, m), EnterGames(L.games, m),
           EnterProjections(L.projected, m))
  }

  /** Both teams become keys of the table, home first. */
  function EnterTeams(teams: seq<string>, m: Matchup): seq<string>
  {
    Enlist(Enlist(teams, m.home.name), m.away.name)
  }

  /** Each team becomes an opponent of the other, the home team's entry first. */
  function EnterRivals(rivals: map<string, seq<string>>, m: Matchup): map<string, seq<string>>
  {
    var a, b := m.home.name, m.away.name;
    var r := rivals[a := Enlist(RivalsOf(rivals, a), b)];
    r[b := Enlist(RivalsOf(r, b), a)]
  }

  /** The meeting appended to both views of the pairing, the home team's view first. */
  function EnterGames(games: map<(string, string), Head2Head>, m: Matchup): map<(string, string), Head2Head>
  {
    var a, b := m.home.name, m.away.name;
    var g := GamesOf(games, a, b);
    var next := games[(a, b) := Head2Head(g.pointsFor + [m.home.points], g.pointsAgainst + [m.away.points])];
    var h := GamesOf(next, b, a);
    next[(b, a) := Head2Head(h.pointsFor + [m.away.points], h.pointsAgainst + [m.home.points])]
  }

  /** Both sides' projected points added, home first. */
  function EnterProjections(p: map<string, real>, m: Matchup): map<string, real>
  {
    AddProjection(AddProjection(p, m.home), m.away)
  }

  /** The matchups entered in order. */
  function Replay(L: Ledger, ms: seq<Matchup>): Ledger
  {
    if ms == [] then L else Record(Replay(L, ms[..|ms| - 1]), ms[|ms| - 1])
  }

  // ---------------------------------------------------------------------------------------------
  // Reference definitions, read from the first matchup on

  /** The team names of the sides, in order. */
  function Names(sides: seq<Side>): seq<string>
  {
    if sides == [] then [] else [sides[0].name] + Names(sides[1..])
  }

  /** The opponents `t` met in one matchup. */
  function Met(t: string, m: Matchup): seq<string>
  {
    (if m.home.name == t then [m.away.name] else []) + (if m.away.name == t then [m.home.name] else [])
  }

  /** The opponents `t` met, one per meeting, in order. */
  function OpponentsMet(t: string, ms: seq<Matchup>): seq<string>
  {
    if ms == [] then [] else Met(t, ms[0]) + OpponentsMet(t, ms[1..])
  }

  /** The points `t` scored against `o` in one matchup. */
  function Earned(t: string, o: string, m: Matchup): seq<real>
  {
    (if m.home.name == t && m.away.name == o then [m.home.points] else [])
    + (if m.away.name == t && m.home.name == o then [m.away.points] else [])
  }

  /** The points `t` scored against `o`, one per meeting, in order. */
  function PointsAgainstRival(t: string, o: string, ms: seq<Matchup>): seq<real>
  {
    if ms == [] then [] else Earned(t, o, ms[0]) + PointsAgainstRival(t, o, ms[1..])
  }

  /** The points `o` scored against `t` in one matchup, as `t`'s view of the pairing records them:
      the opponent's points of `t`'s home side first, then of its away side. */
  function Conceded(t: string, o: string, m: Matchup): seq<real>
  {
    (if m.home.name == t && m.away.name == o then [m.away.points] else [])
    + (if m.away.name == t && m.home.name == o then [m.home.points] else [])
  }

  /** The points `o` scored against `t`, one per meeting, in order. */
  function PointsConceded(t: string, o: string, ms: seq<Matchup>): seq<real>
  {
    if ms == [] then [] else Conceded(t, o, ms[0]) + PointsConceded(t, o, ms[1..])
  }

  /** The projected points of the sides naming `t`, added up. */
  function ProjectedOf(t: string, sides: seq<Side>): real
  {
    if sides == [] then 0.0
    else (if sides[0].name == t then sides[0].projected else 0.0) + ProjectedOf(t, sides[1..])
  }

  // ---------------------------------------------------------------------------------------------
  // One matchup

  /** What one matchup does to the pairing (t, o): each list grows by the points of that meeting,
      if it is one. A team matched against itself gains two meetings at once. */
  lemma RecordGames(L: Ledger, m: Matchup, t: string, o: string)
    ensures
      var g := GamesOf(L.games, t, o);
      GamesOf(EnterGames(L.games, m), t, o)
        == Head2Head(g.pointsFor + Earned(t, o, m), g.pointsAgainst + Conceded(t, o, m))
  {
  }

  /** What one matchup does to a team's opponents. */
  lemma RecordRivals(L: Ledger, m: Matchup, t: string)
    ensures
      var r := RivalsOf(L.rivals, t);
      var met := Met(t, m);
      RivalsOf(EnterRivals(L.rivals, m), t)
        == if |met| == 0 then r else if |met| == 1 then Enlist(r, met[0]) else Enlist(Enlist(r, met[0]), met[1])
  {
  }

  // ---------------------------------------------------------------------------------------------
  // Snoc facts about the reference definitions

  lemma {:induction false} NamesSnoc(sides: seq<Side>, s: Side)
    ensures Names(sides + [s]) == Names(sides) + [s.name]
  {
    if sides != [] {
      assert (sides + [s])[1..] == sides[1..] + [s];
      NamesSnoc(sides[1..], s);
    }
  }

  lemma {:induction false} OpponentsMetSnoc(t: string, ms: seq<Matchup>, m: Matchup)
    ensures OpponentsMet(t, ms + [m]) == OpponentsMet(t, ms) + Met(t, m)
  {
    if ms != [] {
      assert (ms + [m])[1..] == ms[1..] + [m];
      OpponentsMetSnoc(t, ms[1..], m);
    }
  }

  lemma {:induction false} PointsAgainstRivalSnoc(t: string, o: string, ms: seq<Matchup>, m: Matchup)
    ensures PointsAgainstRival(t, o, ms + [m]) == PointsAgainstRival(t, o, ms) + Earned(t, o, m)
  {
    if ms != [] {
      assert (ms + [m])[1..] == ms[1..] + [m];
      PointsAgainstRivalSnoc(t, o, ms[1..], m);
    }
  }

  lemma {:induction false} PointsConcededSnoc(t: string, o: string, ms: seq<Matchup>, m: Matchup)
    ensures PointsConceded(t, o, ms + [m]) == PointsConceded(t, o, ms) + Conceded(t, o, m)
  {
    if ms != [] {
      assert (ms + [m])[1..] == ms[1..] + [m];
      PointsConcededSnoc(t, o, ms[1..], m);
    }
  }

  lemma {:induction false} ProjectedOfSnoc(t: string, sides: seq<Side>, s: Side)
    ensures ProjectedOf(t, sides + [s]) == ProjectedOf(t, sides) + (if s.name == t then s.projected else 0.0)
  {
    if sides != [] {
      assert (sides + [s])[1..] == sides[1..] + [s];
      ProjectedOfSnoc(t, sides[1..], s);
    }
  }

  lemma ReplaySnoc(L: Ledger, ms: seq<Matchup>, m: Matchup)
    ensures Replay(L, ms + [m]) == Record(Replay(L, ms), m)
  {
    assert (ms + [m])[..|ms|] == ms;
  }

  lemma SidesSnoc(ms: seq<Matchup>, m: Matchup)
    ensures MatchupSides(ms + [m]) == MatchupSides(ms) + [m.home] + [m.away]
  {
    assert (ms + [m])[..|ms|] == ms;
  }

  // ---------------------------------------------------------------------------------------------
  // The whole pass, in closed form

  /** The teams appear in order of first appearance on the scoreboard. */
  lemma {:induction false} ReplayTeams(ms: seq<Matchup>)
    ensures Replay(Empty, ms).teams == Dedup(Names(MatchupSides(ms)))
    decreases |ms|
  {
    if ms != [] {
      var init, m := ms[..|ms| - 1], ms[|ms| - 1];
      ReplayTeams(init);
      InitLast(ms);
      ReplaySnoc(Empty, init, m);
      SidesSnoc(init, m);
      var names := Names(MatchupSides(init));
      NamesSnoc(MatchupSides(init), m.home);
      NamesSnoc(MatchupSides(init) + [m.home], m.away);
      DedupSnoc(names, m.home.name);
      DedupSnoc(names + [m.home.name], m.away.name);
    }
  }

  /** Each team's opponents are those it met, in order of first meeting. */
  lemma {:induction false} ReplayRivals(ms: seq<Matchup>, t: string)
    ensures RivalsOf(Replay(Empty, ms).rivals, t) == Dedup(OpponentsMet(t, ms))
    decreases |ms|
  {
    if ms != [] {
      var init, m := ms[..|ms| - 1], ms[|ms| - 1];
      ReplayRivals(init, t);
      InitLast(ms);
      ReplaySnoc(Empty, init, m);
      OpponentsMetSnoc(t, init, m);
      RecordRivals(Replay(Empty, init), m, t);
      DedupAppendMet(OpponentsMet(t, init), Met(t, m));
    }
  }

  lemma DedupAppendMet(before: seq<string>, met: seq<string>)
    requires |met| <= 2
    ensures Dedup(before + met) ==
      if |met| == 0 then Dedup(before)
      else if |met| == 1 then Enlist(Dedup(before), met[0])
      else Enlist(Enlist(Dedup(before), met[0]), met[1])
  {
    if |met| == 1 {
      assert before + met == before + [met[0]];
      DedupSnoc(before, met[0]);
    } else if |met| == 2 {
      assert before + met == before + [met[0]] + [met[1]];
      DedupSnoc(before, met[0]);
      DedupSnoc(before + [met[0]], met[1]);
    } else {
      assert before + met == before;
    }
  }

  /** The lists of the pairing (t, o) hold the points `t` scored against `o` and the points `o`
      scored against `t`, meeting by meeting. */
  lemma {:induction false} ReplayGames(ms: seq<Matchup>, t: string, o: string)
    ensures GamesOf(Replay(Empty, ms).games, t, o)
      == Head2Head(PointsAgainstRival(t, o, ms), PointsConceded(t, o, ms))
    decreases |ms|
  {
    if ms != [] {
      var init, m := ms[..|ms| - 1], ms[|ms| - 1];
      ReplayGames(init, t, o);
      InitLast(ms);
      ReplaySnoc(Empty, init, m);
      RecordGames(Replay(Empty, init), m, t, o);
      PointsAgainstRivalSnoc(t, o, init, m);
      PointsConcededSnoc(t, o, init, m);
    }
  }

  /** For two different teams, what one conceded to the other is what the other scored against
      it, meeting by meeting. */
  lemma {:induction false} ConcededMirror(ms: seq<Matchup>, t: string, o: string)
    requires t != o
    ensures PointsConceded(t, o, ms) == PointsAgainstRival(o, t, ms)
  {
    if ms != [] {
      ConcededMirror(ms[1..], t, o);
    }
  }

  /** A team matched against itself sees the two scores in opposite orders on its two lists, so
      the mirror above fails for it. */
  lemma SelfPairingOrder(t: string, x: real, y: real)
    requires x != y
    ensures
      var m := Matchup(Side(t, x, 0.0), Side(t, y, 0.0));
      && PointsConceded(t, t, [m]) == [y, x]
      && PointsAgainstRival(t, t, [m]) == [x, y]
      && PointsConceded(t, t, [m]) != PointsAgainstRival(t, t, [m])
  {
    var m := Matchup(Side(t, x, 0.0), Side(t, y, 0.0));
    assert [m][1..] == [];
    assert PointsConceded(t, t, [m]) == [y, x];
    assert PointsAgainstRival(t, t, [m]) == [x, y];
    assert [y, x][0] != [x, y][0];
  }

  /** Each team's projection is the sum of the projected points of its sides. */
  lemma {:induction false} ReplayProjected(ms: seq<Matchup>, t: string)
    ensures ProjectionOf(Replay(Empty, ms).projected, t) == ProjectedOf(t, MatchupSides(ms))
    decreases |ms|
  {
    if ms != [] {
      var init, m := ms[..|ms| - 1], ms[|ms| - 1];
      ReplayProjected(init, t);
      InitLast(ms);
      ReplaySnoc(Empty, init, m);
      SidesSnoc(init, m);
      ProjectedOfSnoc(t, MatchupSides(init), m.home);
      ProjectedOfSnoc(t, MatchupSides(init) + [m.home], m.away);
      ProjectionEntered(Replay(Empty, init).projected, m, t);
    }
  }

  /** What one matchup adds to a team's projection. */
  lemma ProjectionEntered(p: map<string, real>, m: Matchup, t: string)
    ensures ProjectionOf(EnterProjections(p, m), t)
      == ProjectionOf(p, t) + (if m.home.name == t then m.home.projected else 0.0)
           + (if m.away.name == t then m.away.projected else 0.0)
  {
  }

  /** The pairing lists of two teams mirror each other. */
  lemma HeadToHeadMirror(ms: seq<Matchup>, t: string, o: string)
    requires t != o
    ensures GamesOf(Replay(Empty, ms).games, t, o).pointsAgainst
      == GamesOf(Replay(Empty, ms).games, o, t).pointsFor
  {
    ReplayGames(ms, t, o);
    ReplayGames(ms, o, t);
    ConcededMirror(ms, t, o);
  }

  // ---------------------------------------------------------------------------------------------
  // The shape the superlatives rely on

  /** The tables agree on the teams, every team has met someone, and every pairing it records
      holds at least one meeting on both lists. */
  ghost predicate WellFormed(L: Ledger)
  {
    && Distinct(L.teams)
    && (forall t :: t in L.rivals <==> t in L.teams)
    && (forall t :: t in L.projected <==> t in L.teams)
    && (forall t :: t in L.rivals ==> |L.rivals[t]| > 0 && Distinct(L.rivals[t]))
    && (forall t, o :: (t, o) in L.games <==> t in L.rivals && o in L.rivals[t])
    && (forall p :: p in L.games ==> |L.games[p].pointsFor| > 0 && |L.games[p].pointsAgainst| > 0)
  }

  /** Entering a matchup keeps the tables well formed. */
  lemma RecordWellFormed(L: Ledger, m: Matchup)
    requires WellFormed(L)
    ensures WellFormed(Record(L, m))
  {
    var a, b := m.home.name, m.away.name;
    var R := Record(L, m);
    forall t
      ensures t in R.rivals <==> t in R.teams
      ensures t in R.projected <==> t in R.teams
      ensures t in R.rivals ==> |R.rivals[t]| > 0 && Distinct(R.rivals[t])
    {
      RivalsEntered(L.rivals, m, t);
    }
    forall t, o
      ensures (t, o) in R.games <==> t in R.rivals && o in R.rivals[t]
    {
      RivalsEntered(L.rivals, m, t);
      GamesEntered(L.games, m, t, o);
    }
    forall p | p in R.games
      ensures |R.games[p].pointsFor| > 0 && |R.games[p].pointsAgainst| > 0
    {
      GamesEntered(L.games, m, p.0, p.1);
    }
  }

  /** Which opponents a team has after a matchup. */
  lemma RivalsEntered(rivals: map<string, seq<string>>, m: Matchup, t: string)
    requires forall u :: u in rivals ==> Distinct(rivals[u])
    ensures
      var a, b := m.home.name, m.away.name;
      var r := EnterRivals(rivals, m);
      && (t in r <==> t in rivals || t == a || t == b)
      && (t in r ==> Distinct(r[t]) && (t == a || t == b ==> |r[t]| > 0))
      && (t in r ==> t in rivals ==> rivals[t] <= r[t])
      && (forall o :: o in RivalsOf(r, t) <==> o in RivalsOf(rivals, t) || (t == a && o == b) || (t == b && o == a))
  {
  }

  /** Which pairings are recorded after a matchup, and that each keeps at least one meeting. */
  lemma GamesEntered(games: map<(string, string), Head2Head>, m: Matchup, t: string, o: string)
    requires forall p :: p in games ==> |games[p].pointsFor| > 0 && |games[p].pointsAgainst| > 0
    ensures
      var a, b := m.home.name, m.away.name;
      var g := EnterGames(games, m);
      && ((t, o) in g <==> (t, o) in games || (t, o) == (a, b) || (t, o) == (b, a))
      && ((t, o) in g ==> |g[(t, o)].pointsFor| > 0 && |g[(t, o)].pointsAgainst| > 0)
  {
  }

  lemma {:induction false} ReplayWellFormed(ms: seq<Matchup>)
    ensures WellFormed(Replay(Empty, ms))
    decreases |ms|
  {
    if ms != [] {
      ReplayWellFormed(ms[..|ms| - 1]);
      RecordWellFormed(Replay(Empty, ms[..|ms| - 1]), ms[|ms| - 1]);
    }
  }

  // ---------------------------------------------------------------------------------------------
  // The week loop

  /** The weeks `1 .. games` read in order; asking for a week past the scoreboard fails. */
  function SeasonLedger(weeks: Scoreboard, games: int): Result<Ledger>
  {
    if games > |weeks| then Err(WeekUnavailable(|weeks| + 1))
    else Ok(Replay(Empty, SeasonMatchups(weeks[..if games > 0 then games else 0])))
  }

  method RecordSeason(weeks: Scoreboard, games: int) returns (r: Result<Ledger>)
    ensures r == SeasonLedger(weeks, games)
  {
    var ledger := Empty;
    var week := 1;
    while week <= games
      invariant 1 <= week && (week <= games + 1 || week == 1)
      invariant week - 1 <= |weeks|
      invariant ledger == Replay(Empty, SeasonMatchups(weeks[..week - 1]))
      decreases games - week
    {
      if week > |weeks| {
        return Err(WeekUnavailable(week));
      }
      var ms := weeks[week - 1];
      ghost var before := SeasonMatchups(weeks[..week - 1]);
      assert before + ms[..0] == before;
      for i := 0 to |ms|
        invariant ledger == Replay(Empty, before + ms[..i])
      {
        SnocSlice(before, ms, i);
        ReplaySnoc(Empty, before + ms[..i], ms[i]);
        ledger := Record(ledger, ms[i]);
      }
      assert weeks[..week][..week - 1] == weeks[..week - 1];
      assert SeasonMatchups(weeks[..week]) == before + ms;
      assert ms[..|ms|] == ms;
      week := week + 1;
    }
    r := Ok(ledger);
  }
}
