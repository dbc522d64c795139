/** The standings pass of the season summary: for each standings entry, its logo, rank, record
    string and average points per game (rounded to two decimals), plus each team's total points;
    and the game count of the last entry, which decides how many weeks are read afterwards. */
module Standings {
  import opened Season

  /** One standings entry, decoded. */
  datatype Standing = Standing(
    name: string,
    logoUrl: string,
    rank: int,
    wins: int,
    losses: int,
    ties: int,
    pointsFor: real)

  function Games(e: Standing): int
  {
    e.wins + e.losses + e.ties
  }

  datatype Verdict = Over | Under

  /** What the season summary adds for a team that played at least one matchup. */
  datatype Superlatives = Superlatives(
    bbqChicken: string,
    bbqChickenAvgPoints: real,
    nemesis: string,
    nemesisAvgPoints: real,
    percentageImprovement: real,
    overUnderPerformer: Verdict)

  /** The summary of one team. The rank stays a number: its ordinal spelling is not modelled. */
  datatype TeamInfo = TeamInfo(
    logoUrl: string,
    rank: int,
    record: string,
    avgPoints: real,
    superlatives: Option<Superlatives>)

  // ---------------------------------------------------------------------------------------------
  // Rounding to two decimals

  /** `round(x, 2)` on an exact value: to the nearest hundredth, ties to the even hundredth. */
  function Round2(x: real): (r: real)
    ensures -0.005 <= r - x <= 0.005
    ensures (r * 100.0).Floor as real == r * 100.0
  {
    var y := x * 100.0;
    var f := y.Floor;
    var frac := y - f as real;
    var n := if frac > 0.5 then f + 1 else if frac < 0.5 then f else if f % 2 == 0 then f else f + 1;
    n as real / 100.0
  }

  /** A value that already has two decimals is left alone. */
  lemma Round2Idempotent(x: real)
    ensures Round2(Round2(x)) == Round2(x)
  {
    var r := Round2(x);
    assert (r * 100.0).Floor as real == r * 100.0;
    assert (r * 100.0) - (r * 100.0).Floor as real == 0.0;
  }

  /** A value exactly halfway between two hundredths goes to the even one of them. */
  lemma Round2HalfEven(x: real)
    requires x * 100.0 - (x * 100.0).Floor as real == 0.5
    ensures (Round2(x) * 100.0).Floor % 2 == 0
    ensures Round2(x) - x == 0.005 || x - Round2(x) == 0.005
  {
  }

  /** Any other value goes to the strictly nearest hundredth. */
  lemma Round2Nearest(x: real)
    requires x * 100.0 - (x * 100.0).Floor as real != 0.5
    ensures -0.005 < Round2(x) - x < 0.005
  {
  }

  // ---------------------------------------------------------------------------------------------
  // The record string "wins-losses-ties"

  function DigitChar(d: nat): (c: char)
    requires d < 10
    ensures '0' <= c <= '9'
  {
    ('0' as int + d) as char
  }

  function DigitValue(c: char): nat
    requires '0' <= c <= '9'
  {
    c as int - '0' as int
  }

  predicate AllDigits(s: string)
  {
    forall i :: 0 <= i < |s| ==> '0' <= s[i] <= '9'
  }

  /** The decimal digits of a natural number, most significant first. */
  function NatString(n: nat): (s: string)
    ensures |s| > 0 && AllDigits(s)
    decreases n
  {
    if n < 10 then [DigitChar(n)] else NatString(n / 10) + [DigitChar(n % 10)]
  }

  /** `str(n)`: a minus sign before the digits of a negative number. */
  function IntString(n: int): string
  {
    if n < 0 then "-" + NatString(-n) else NatString(n)
  }

  /** The number a string of decimal digits spells. */
  function ParseNat(s: string): nat
    requires AllDigits(s)
  {
    if s == [] then 0 else 10 * ParseNat(s[..|s| - 1]) + DigitValue(s[|s| - 1])
  }

  lemma {:induction false} ParseNatString(n: nat)
    ensures ParseNat(NatString(n)) == n
    decreases n
  {
    if n >= 10 {
      var s := NatString(n);
      ParseNatString(n / 10);
      assert s[..|s| - 1] == NatString(n / 10);
    }
  }

  /** The record as the summary shows it. */
  function RecordString(wins: int, losses: int, ties: int): string
  {
    IntString(wins) + "-" + IntString(losses) + "-" + IntString(ties)
  }

  /** The fields of `s` between the dashes, as `s.split("-")` gives them. */
  function SplitDash(s: string): (r: seq<string>)
    ensures |r| > 0
  {
    if '-' !in s then [s]
    else
      var i := DashIndex(s);
      [s[..i]] + SplitDash(s[i + 1..])
  }

  function DashIndex(s: string): (i: nat)
    requires '-' in s
    ensures i < |s| && s[i] == '-' && '-' !in s[..i]
  {
    if s[0] == '-' then 0 else 1 + DashIndex(s[1..])
  }

  lemma SplitDigits(a: string)
    requires AllDigits(a)
    ensures SplitDash(a) == [a]
  {
    assert '-' !in a by {
      forall i | 0 <= i < |a| ensures a[i] != '-' {
      }
    }
  }

  lemma SplitAfterDigits(a: string, rest: string)
    requires AllDigits(a)
    ensures SplitDash(a + "-" + rest) == [a] + SplitDash(rest)
  {
    var s := a + "-" + rest;
    assert s[|a|] == '-';
    assert forall j :: 0 <= j < |a| ==> s[j] == a[j];
    var i := DashIndex(s);
    assert i == |a|;
    assert s[..i] == a && s[i + 1..] == rest;
  }

  /** Reads a record string back: exactly three fields of digits. */
  function ParseRecord(s: string): Option<(nat, nat, nat)>
  {
    var f := SplitDash(s);
    if |f| == 3 && |f[0]| > 0 && |f[1]| > 0 && |f[2]| > 0
       && AllDigits(f[0]) && AllDigits(f[1]) && AllDigits(f[2])
    then Some((ParseNat(f[0]), ParseNat(f[1]), ParseNat(f[2])))
    else None
  }

  /** A record of non-negative counts reads back as the same three counts. */
  lemma RecordRoundTrip(wins: nat, losses: nat, ties: nat)
    ensures ParseRecord(RecordString(wins, losses, ties)) == Some((wins, losses, ties))
  {
    RecordFields(wins, losses, ties);
    ParseNatString(wins);
    ParseNatString(losses);
    ParseNatString(ties);
  }

  /** The record of non-negative counts splits into the digits of each count. */
  lemma RecordFields(wins: nat, losses: nat, ties: nat)
    ensures SplitDash(RecordString(wins, losses, ties)) == [NatString(wins), NatString(losses), NatString(ties)]
  {
    var w, l, t := NatString(wins), NatString(losses), NatString(ties);
    var rest := l + "-" + t;
    assert IntString(wins) == w && IntString(losses) == l && IntString(ties) == t;
    assert RecordString(wins, losses, ties) == w + "-" + rest;
    SplitAfterDigits(w, rest);
    SplitAfterDigits(l, t);
    SplitDigits(t);
  }

  // ---------------------------------------------------------------------------------------------
  // The standings loop

  /** The summary of one entry, before any superlatives. */
  function InfoOf(e: Standing): TeamInfo
    requires Games(e) != 0
  {
    TeamInfo(e.logoUrl, e.rank, RecordString(e.wins, e.losses, e.ties),
             Round2(e.pointsFor / Games(e) as real), None)
  }

  /** An entry's summary shows its own average points per game to the nearest hundredth, and its
      record reads back as its own counts. */
  lemma InfoOfEntry(e: Standing)
    requires Games(e) != 0
    ensures -0.005 <= InfoOf(e).avgPoints - e.pointsFor / Games(e) as real <= 0.005
    ensures e.wins >= 0 && e.losses >= 0 && e.ties >= 0 ==>
      ParseRecord(InfoOf(e).record) == Some((e.wins, e.losses, e.ties))
  {
    if e.wins >= 0 && e.losses >= 0 && e.ties >= 0 {
      RecordRoundTrip(e.wins, e.losses, e.ties);
    }
  }

  /** The summaries by team name after the entries, in order; a later entry for the same name
      replaces the earlier one. */
  function InfoTable(entries: seq<Standing>): map<string, TeamInfo>
    requires forall k :: 0 <= k < |entries| ==> Games(entries[k]) != 0
  {
    if entries == [] then map[]
    else
      var last := entries[|entries| - 1];
      InfoTable(entries[..|entries| - 1])[last.name := InfoOf(last)]
  }

  /** The points by team name after the entries, in order; entries for the same name add up. */
  function Totals(entries: seq<Standing>): map<string, real>
  {
    if entries == [] then map[]
    else
      AddPoints(Totals(entries[..|entries| - 1]), entries[|entries| - 1])
  }

  /** An entry's points added to its team's total, counting from zero for a new team. */
  function AddPoints(t: map<string, real>, e: Standing): map<string, real>
  {
    t[e.name := (if e.name in t then t[e.name] else 0.0) + e.pointsFor]
  }

  /** The points of the entries naming `name`, added up from the first entry on. */
  function PointsForOf(name: string, entries: seq<Standing>): real
  {
    if entries == [] then 0.0
    else (if entries[0].name == name then entries[0].pointsFor else 0.0) + PointsForOf(name, entries[1..])
  }

  predicate Named(entries: seq<Standing>, name: string)
  {
    exists k :: 0 <= k < |entries| && entries[k].name == name
  }

  lemma {:induction false} PointsForOfSnoc(name: string, entries: seq<Standing>, e: Standing)
    ensures PointsForOf(name, entries + [e]) == PointsForOf(name, entries) + (if e.name == name then e.pointsFor else 0.0)
  {
    if entries != [] {
      assert (entries + [e])[1..] == entries[1..] + [e];
      PointsForOfSnoc(name, entries[1..], e);
    }
  }

  /** Each named team's total is the sum of the points of all its entries. */
  lemma {:induction false} TotalsClosedForm(entries: seq<Standing>)
    ensures forall n :: n in Totals(entries) <==> Named(entries, n)
    ensures forall n :: n in Totals(entries) ==> Totals(entries)[n] == PointsForOf(n, entries)
  {
    if entries != [] {
      var init, last := entries[..|entries| - 1], entries[|entries| - 1];
      TotalsClosedForm(init);
      assert init + [last] == entries;
      forall n
        ensures n in Totals(entries) <==> Named(entries, n)
        ensures n in Totals(entries) ==> Totals(entries)[n] == PointsForOf(n, entries)
      {
        TotalsOfSnoc(init, last, n);
      }
    }
  }

  /** One more entry keeps a name's total equal to the sum of its entries' points. */
  lemma TotalsOfSnoc(init: seq<Standing>, last: Standing, n: string)
    requires n in Totals(init) <==> Named(init, n)
    requires n in Totals(init) ==> Totals(init)[n] == PointsForOf(n, init)
    ensures n in Totals(init + [last]) <==> Named(init + [last], n)
    ensures n in Totals(init + [last]) ==> Totals(init + [last])[n] == PointsForOf(n, init + [last])
  {
    var entries := init + [last];
    assert entries[..|entries| - 1] == init;
    assert Totals(entries) == AddPoints(Totals(init), last);
    PointsForOfSnoc(n, init, last);
    if Named(entries, n) && n != last.name {
      var k :| 0 <= k < |entries| && entries[k].name == n;
      assert init[k].name == n;
    }
    if Named(init, n) {
      var k :| 0 <= k < |init| && init[k].name == n;
      assert entries[k].name == n;
    }
    if n !in Totals(init) {
      NotNamedNoPoints(n, init);
    }
  }

  lemma {:induction false} NotNamedNoPoints(name: string, entries: seq<Standing>)
    requires !Named(entries, name)
    ensures PointsForOf(name, entries) == 0.0
  {
    if entries != [] {
      assert entries[0].name != name;
      assert !Named(entries[1..], name);
      NotNamedNoPoints(name, entries[1..]);
    }
  }

  /** The position of the last entry naming `name`, or -1 when no entry names it. */
  function LastEntry(entries: seq<Standing>, name: string): (k: int)
    ensures -1 <= k < |entries|
    ensures k >= 0 ==> entries[k].name == name
    ensures forall j :: k < j < |entries| ==> entries[j].name != name
  {
    if entries == [] then -1
    else if entries[|entries| - 1].name == name then |entries| - 1
    else LastEntry(entries[..|entries| - 1], name)
  }

  /** Each named team's summary is that of its last entry. */
  lemma {:induction false} InfoTableLatest(entries: seq<Standing>)
    requires forall k :: 0 <= k < |entries| ==> Games(entries[k]) != 0
    ensures forall n :: n in InfoTable(entries) <==> LastEntry(entries, n) >= 0
    ensures forall n :: n in InfoTable(entries) ==> InfoTable(entries)[n] == InfoOf(entries[LastEntry(entries, n)])
  {
    if entries != [] {
      var init, last := entries[..|entries| - 1], entries[|entries| - 1];
      InfoTableLatest(init);
      assert forall j :: 0 <= j < |init| ==> init[j] == entries[j];
    }
  }

  /** A name has a last entry exactly when some entry names it. */
  lemma LastEntryNamed(entries: seq<Standing>, name: string)
    ensures LastEntry(entries, name) >= 0 <==> Named(entries, name)
  {
  }

  /** The first entry with no games, or the number of entries when there is none. */
  function ZeroGamesIndex(entries: seq<Standing>): (k: nat)
    ensures k <= |entries|
    ensures forall j :: 0 <= j < k ==> Games(entries[j]) != 0
    ensures k < |entries| ==> Games(entries[k]) == 0
  {
    if entries == [] then 0
    else if Games(entries[0]) == 0 then 0
    else 1 + ZeroGamesIndex(entries[1..])
  }

  /** What the standings pass leaves: the summaries, the totals, and the game count of the last
      entry. */
  datatype Board = Board(info: map<string, TeamInfo>, totals: map<string, real>, lastGames: int)

  /** The standings pass: the first entry without games is a division by zero; an empty standings
      list leaves the game count unset, which fails as soon as it is read. */
  function StandingsBoard(entries: seq<Standing>): Result<Board>
  {
    var k := ZeroGamesIndex(entries);
    if k < |entries| then Err(ZeroGames(entries[k].name))
    else if entries == [] then Err(NoStandings)
    else Ok(Board(InfoTable(entries), Totals(entries), Games(entries[|entries| - 1])))
  }

  /** A successful standings pass knows the same teams in both tables, and they are the teams the
      entries name. */
  lemma BoardTeams(entries: seq<Standing>)
    requires StandingsBoard(entries).Ok?
    ensures StandingsBoard(entries).value.info.Keys == StandingsBoard(entries).value.totals.Keys
    ensures forall n :: n in StandingsBoard(entries).value.info <==> Named(entries, n)
  {
    InfoTableLatest(entries);
    TotalsClosedForm(entries);
    forall n {
      LastEntryNamed(entries, n);
    }
  }

  /** The standings loop. */
  method ReadStandings(entries: seq<Standing>) returns (r: Result<Board>)
    ensures r == StandingsBoard(entries)
  {
    var info: map<string, TeamInfo> := map[];
    var totals: map<string, real> := map[];
    var games := 0;
    for i := 0 to |entries|
      invariant forall k :: 0 <= k < i ==> Games(entries[k]) != 0
      invariant info == InfoTable(entries[..i]) && totals == Totals(entries[..i])
      invariant i > 0 ==> games == Games(entries[i - 1])
    {
      var e := entries[i];
      TotalsStep(entries, i);
      var record := RecordString(e.wins, e.losses, e.ties);
      if Games(e) == 0 {
        assert ZeroGamesIndex(entries) == i by {
          ZeroGamesAt(entries, i);
        }
        return Err(ZeroGames(e.name));
      }
      var avg := Round2(e.pointsFor / Games(e) as real);
      totals := AddPoints(totals, e);
      info := info[e.name := TeamInfo(e.logoUrl, e.rank, record, avg, None)];
      InfoStep(entries, i);
      games := Games(e);
    }
    assert entries[..|entries|] == entries;
    NoZeroGames(entries);
    if |entries| == 0 {
      return Err(NoStandings);
    }
    r := Ok(Board(info, totals, games));
  }

  lemma TotalsStep(entries: seq<Standing>, i: nat)
    requires i < |entries|
    ensures Totals(entries[..i + 1]) == AddPoints(Totals(entries[..i]), entries[i])
  {
    assert entries[..i + 1][..i] == entries[..i];
  }

  lemma InfoStep(entries: seq<Standing>, i: nat)
    requires i < |entries|
    requires forall k :: 0 <= k <= i ==> Games(entries[k]) != 0
    ensures InfoTable(entries[..i + 1]) == InfoTable(entries[..i])[entries[i].name := InfoOf(entries[i])]
  {
    assert entries[..i + 1][..i] == entries[..i];
  }

  lemma {:induction false} ZeroGamesAt(entries: seq<Standing>, i: nat)
    requires i < |entries| && Games(entries[i]) == 0
    requires forall k :: 0 <= k < i ==> Games(entries[k]) != 0
    ensures ZeroGamesIndex(entries) == i
  {
    if i > 0 {
      ZeroGamesAt(entries[1..], i - 1);
    }
  }

  lemma {:induction false} NoZeroGames(entries: seq<Standing>)
    requires forall k :: 0 <= k < |entries| ==> Games(entries[k]) != 0
    ensures ZeroGamesIndex(entries) == |entries|
  {
    if entries != [] {
      NoZeroGames(entries[1..]);
    }
  }
}
