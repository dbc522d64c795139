/** The decoded league data every aggregation works on, and the faults that end a computation.

    A scoreboard is the sequence of weekly matchup lists: week `w` (counted from 1) is at index `w - 1`.
    Each matchup has exactly two sides, in the order the provider lists them. */
module Season {

  datatype Option<+T> = None | Some(value: T)

  datatype Result<+T> = Ok(value: T) | Err(error: Fault)

  /** Why an aggregation stops. Each one is an exception in the Python program. */
  datatype Fault =
    | UnknownTeam(name: string)       // a dictionary lookup by team name that misses (KeyError)
    | WeekUnavailable(week: int)      // the scoreboard request for this week fails
    | TooFewScores(name: string)      // mean/median/stdev of fewer than two scores
    | ZeroGames(name: string)         // average points of a team with no games played
    | NoStandings                     // the standings list is empty, so no game count was ever read
    | ZeroProjection(name: string)    // actual over projected points with a projection of zero

  /** One team's half of a matchup: its name, its points and its projected points that week. */
  datatype Side = Side(name: string, points: real, projected: real)

  datatype Matchup = Matchup(home: Side, away: Side)

  type Scoreboard = seq<seq<Matchup>>

  /** The sides of a list of matchups, in order, home before away. */
  function MatchupSides(ms: seq<Matchup>): (r: seq<Side>)
    ensures |r| == 2 * |ms|
  {
    if ms == [] then [] else MatchupSides(ms[..|ms| - 1]) + [ms[|ms| - 1].home, ms[|ms| - 1].away]
  }

  /** All matchups of the given weeks, week by week. */
  function SeasonMatchups(weeks: Scoreboard): seq<Matchup>
  {
    if weeks == [] then [] else SeasonMatchups(weeks[..|weeks| - 1]) + weeks[|weeks| - 1]
  }

  /** All sides of the given weeks, week by week. */
  function SeasonSides(weeks: Scoreboard): seq<Side>
  {
    MatchupSides(SeasonMatchups(weeks))
  }

  lemma {:induction false} MatchupSidesAppend(a: seq<Matchup>, b: seq<Matchup>)
    ensures MatchupSides(a + b) == MatchupSides(a) + MatchupSides(b)
    decreases |b|
  {
    if b == [] {
      assert a + b == a;
    } else {
      var b' := b[..|b| - 1];
      assert (a + b)[..|a + b| - 1] == a + b';
      MatchupSidesAppend(a, b');
    }
  }

  /** A matchup is among those of the season exactly when some week holds it. */
  lemma {:induction false} SeasonMatchupsMembers(weeks: Scoreboard, m: Matchup)
    ensures m in SeasonMatchups(weeks) <==> exists w :: 0 <= w < |weeks| && m in weeks[w]
    decreases |weeks|
  {
    if weeks != [] {
      var init, last := weeks[..|weeks| - 1], weeks[|weeks| - 1];
      SeasonMatchupsMembers(init, m);
      assert forall w :: 0 <= w < |init| ==> init[w] == weeks[w];
      if m in last {
        assert m in weeks[|weeks| - 1];
      }
    }
  }

  lemma {:induction false} SeasonMatchupsPrefix(weeks: Scoreboard, i: nat, j: nat)
    requires i <= j <= |weeks|
    ensures SeasonMatchups(weeks[..i]) <= SeasonMatchups(weeks[..j])
    decreases j - i
  {
    if i < j {
      SeasonMatchupsPrefix(weeks, i + 1, j);
      assert weeks[..i + 1][..i] == weeks[..i];
    }
  }

  /** The number of weeks the range `1 .. currentWeek - 1` holds. */
  function WeeksBefore(currentWeek: int): nat
  {
    if currentWeek > 1 then currentWeek - 1 else 0
  }

  /** Week `w` is one of the weeks before `currentWeek` exactly when it is one of the first
      `WeeksBefore(currentWeek)` weeks. */
  lemma WeeksBeforeRange(currentWeek: int, w: int)
    ensures 1 <= w < currentWeek <==> 1 <= w <= WeeksBefore(currentWeek)
  {
  }

  lemma InitLast<T>(s: seq<T>)
    requires |s| > 0
    ensures s[..|s| - 1] + [s[|s| - 1]] == s
  {
  }

  lemma InInitOrLast<T>(s: seq<T>, x: T)
    requires |s| > 0
    ensures x in s <==> x in s[..|s| - 1] || x == s[|s| - 1]
  {
    InitLast(s);
  }

  lemma SnocSlice<T>(a: seq<T>, s: seq<T>, i: nat)
    requires i < |s|
    ensures a + s[..i + 1] == (a + s[..i]) + [s[i]]
  {
    assert s[..i + 1] == s[..i] + [s[i]];
  }

  /** No name occurs twice. */
  predicate Distinct(s: seq<string>)
  {
    forall i, j :: 0 <= i < j < |s| ==> s[i] != s[j]
  }

  /** `s + [x]` unless `x` is already there: the key order of a dictionary after `d[x] = ...`. */
  function Enlist(s: seq<string>, x: string): (r: seq<string>)
    ensures Distinct(s) ==> Distinct(r)
    ensures forall y :: y in r <==> y in s || y == x
    ensures s <= r && |r| <= |s| + 1
  {
    if x in s then s else s + [x]
  }

  /** The distinct names of `s` in order of first occurrence: the keys of a dictionary built from `s`. */
  function Dedup(s: seq<string>): (r: seq<string>)
    ensures Distinct(r)
    ensures forall y :: y in r <==> y in s
  {
    if s == [] then [] else Enlist(Dedup(s[..|s| - 1]), s[|s| - 1])
  }

  lemma DedupSnoc(s: seq<string>, x: string)
    ensures Dedup(s + [x]) == Enlist(Dedup(s), x)
  {
    assert (s + [x])[..|s|] == s;
  }
}
