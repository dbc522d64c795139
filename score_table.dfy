/** The per-team score table: every roster team starts with an empty list, and each matchup side
    played in weeks `1 .. currentWeek - 1` appends its points to its own team's list. A side whose
    team is not on the roster is a lookup failure. The same accumulation is run by the league
    statistics of the API client and by both stand-alone statistics scripts. */
module ScoreTables {
  import opened Season
  import opened Statistics

  type Table = map<string, seq<real>>

  /** Every roster team with an empty score list. */
  function Blank(roster: seq<string>): (t: Table)
    ensures forall n :: n in t <==> n in roster
    ensures forall n :: n in t ==> t[n] == []
  {
    map n | n in roster :: []
  }

  /** One side's points appended to its team's list, or the lookup failure. */
  function Credit(t: Table, side: Side): Result<Table>
  {
    if side.name in t then Ok(t[side.name := t[side.name] + [side.points]])
    else Err(UnknownTeam(side.name))
  }

  /** The sides credited one after the other; the first failure ends the run. */
  function Fold(t: Table, sides: seq<Side>): Result<Table>
  {
    if sides == [] then Ok(t)
    else
      match Fold(t, sides[..|sides| - 1])
      case Err(e) => Err(e)
      case Ok(u) => Credit(u, sides[|sides| - 1])
  }

  /** How many of the weeks `1 .. currentWeek - 1` the scoreboard holds. */
  function WeeksHeld(weeks: Scoreboard, currentWeek: int): (n: nat)
    ensures n <= |weeks| && n <= WeeksBefore(currentWeek)
    ensures n == |weeks| || n == WeeksBefore(currentWeek)
  {
    if WeeksBefore(currentWeek) <= |weeks| then WeeksBefore(currentWeek) else |weeks|
  }

  /** The sides of the weeks `1 .. currentWeek - 1` that the scoreboard holds. */
  function Played(weeks: Scoreboard, currentWeek: int): seq<Side>
  {
    SeasonSides(weeks[..WeeksHeld(weeks, currentWeek)])
  }

  /** Crediting week `week` extends the sides credited so far, within the season's sides. */
  lemma PlayedStep(weeks: Scoreboard, currentWeek: int, week: nat)
    requires 1 <= week <= WeeksHeld(weeks, currentWeek)
    ensures SeasonSides(weeks[..week]) == SeasonSides(weeks[..week - 1]) + MatchupSides(weeks[week - 1])
    ensures SeasonSides(weeks[..week]) <= Played(weeks, currentWeek)
  {
    assert weeks[..week][..week - 1] == weeks[..week - 1];
    MatchupSidesAppend(SeasonMatchups(weeks[..week - 1]), weeks[week - 1]);
    var m := WeeksHeld(weeks, currentWeek);
    SeasonMatchupsPrefix(weeks, week, m);
    var rest := SeasonMatchups(weeks[..m])[|SeasonMatchups(weeks[..week])|..];
    assert SeasonMatchups(weeks[..m]) == SeasonMatchups(weeks[..week]) + rest;
    MatchupSidesAppend(SeasonMatchups(weeks[..week]), rest);
  }

  /** Matchup `i` of a week adds its two sides after those of the matchups before it. */
  lemma MatchupStep(ms: seq<Matchup>, i: nat)
    requires i < |ms|
    ensures MatchupSides(ms[..i + 1]) == MatchupSides(ms[..i]) + [ms[i].home, ms[i].away]
  {
    assert ms[..i + 1][..i] == ms[..i];
  }

  /** The sides of a week's first matchups come first among the sides of the week. */
  lemma {:induction false} MatchupSidesPrefix(ms: seq<Matchup>, i: nat)
    requires i <= |ms|
    ensures MatchupSides(ms[..i]) <= MatchupSides(ms)
    decreases |ms| - i
  {
    if i < |ms| {
      MatchupSidesPrefix(ms, i + 1);
      MatchupStep(ms, i);
      var head := MatchupSides(ms[..i]);
      assert (head + [ms[i].home, ms[i].away])[..|head|] == head;
      PrefixTrans(head, MatchupSides(ms[..i + 1]), MatchupSides(ms));
    } else {
      assert ms[..i] == ms;
    }
  }

  /** The sides credited after matchup `i` of a week, and where they sit within the whole week. */
  lemma MatchupPrefix(done: seq<Side>, ms: seq<Matchup>, i: nat)
    requires i < |ms|
    ensures
      var sofar := done + MatchupSides(ms[..i]);
      && done + MatchupSides(ms[..i + 1]) == sofar + [ms[i].home] + [ms[i].away]
      && sofar + [ms[i].home] <= done + MatchupSides(ms)
      && sofar + [ms[i].home] + [ms[i].away] <= done + MatchupSides(ms)
  {
    var home, away := ms[i].home, ms[i].away;
    var sofar := done + MatchupSides(ms[..i]);
    var next, whole := MatchupSides(ms[..i + 1]), MatchupSides(ms);
    MatchupStep(ms, i);
    MatchupSidesPrefix(ms, i + 1);
    SnocPair(done, MatchupSides(ms[..i]), home, away);
    PrefixAppend(done, next, whole);
    PrefixTrans(sofar + [home], done + next, done + whole);
  }

  lemma SnocPair<T>(a: seq<T>, b: seq<T>, x: T, y: T)
    ensures a + (b + [x, y]) == (a + b) + [x] + [y]
    ensures (a + b) + [x] <= (a + b) + [x] + [y]
  {
    assert ((a + b) + [x] + [y])[..|a + b| + 1] == (a + b) + [x];
  }

  lemma PrefixAppend<T>(a: seq<T>, b: seq<T>, c: seq<T>)
    requires b <= c
    ensures a + b <= a + c
  {
    assert (a + c)[..|a + b|] == a + b;
  }

  lemma PrefixTrans<T>(a: seq<T>, b: seq<T>, c: seq<T>)
    requires a <= b && b <= c
    ensures a <= c
  {
    assert c[..|a|] == b[..|a|];
  }

  /** The whole accumulation: the weeks `1 .. currentWeek - 1` in order; asking for a week the
      scoreboard does not hold fails once the weeks before it are credited. */
  function Tally(t: Table, weeks: Scoreboard, currentWeek: int): Result<Table>
  {
    var r := Fold(t, Played(weeks, currentWeek));
    if r.Ok? && WeeksBefore(currentWeek) > |weeks| then Err(WeekUnavailable(|weeks| + 1)) else r
  }

  /** The points of the sides naming `name`, in the order the sides come. */
  function PointsOf(name: string, sides: seq<Side>): seq<real>
  {
    if sides == [] then []
    else
      var last := sides[|sides| - 1];
      PointsOf(name, sides[..|sides| - 1]) + (if last.name == name then [last.points] else [])
  }

  /** How many sides name `name`. */
  function Appearances(name: string, sides: seq<Side>): nat
  {
    if sides == [] then 0
    else (if sides[0].name == name then 1 else 0) + Appearances(name, sides[1..])
  }

  /** Every side names a team of the table. */
  predicate AllKnown(t: Table, sides: seq<Side>)
  {
    forall k :: 0 <= k < |sides| ==> sides[k].name in t
  }

  /** Every side names a roster team. */
  predicate OnRoster(roster: seq<string>, sides: seq<Side>)
  {
    forall k :: 0 <= k < |sides| ==> sides[k].name in roster
  }

  /** `k` is the first side whose team is not in the table. */
  predicate FirstUnknownAt(t: Table, sides: seq<Side>, k: int)
  {
    && 0 <= k < |sides|
    && sides[k].name !in t
    && forall j :: 0 <= j < k ==> sides[j].name in t
  }

  lemma {:induction false} AppearancesSnoc(name: string, sides: seq<Side>, s: Side)
    ensures Appearances(name, sides + [s]) == Appearances(name, sides) + (if s.name == name then 1 else 0)
  {
    if sides != [] {
      assert (sides + [s])[1..] == sides[1..] + [s];
      AppearancesSnoc(name, sides[1..], s);
    }
  }

  /** A team's list holds one score per side naming it. */
  lemma {:induction false} PointsOfLength(name: string, sides: seq<Side>)
    ensures |PointsOf(name, sides)| == Appearances(name, sides)
  {
    if sides != [] {
      var init := sides[..|sides| - 1];
      PointsOfLength(name, init);
      AppearancesSnoc(name, init, sides[|sides| - 1]);
      assert init + [sides[|sides| - 1]] == sides;
    }
  }

  /** Scores of later weeks come after those of earlier weeks. */
  lemma {:induction false} PointsOfAppend(name: string, a: seq<Side>, b: seq<Side>)
    ensures PointsOf(name, a + b) == PointsOf(name, a) + PointsOf(name, b)
    decreases |b|
  {
    if b == [] {
      assert a + b == a;
    } else {
      var b' := b[..|b| - 1];
      assert (a + b)[..|a + b| - 1] == a + b';
      PointsOfAppend(name, a, b');
    }
  }

  /** A team's scores come week by week: those of week `week` follow those of the weeks before. */
  lemma PointsInWeekOrder(name: string, weeks: Scoreboard, currentWeek: int, week: nat)
    requires 1 <= week <= WeeksHeld(weeks, currentWeek)
    ensures PointsOf(name, SeasonSides(weeks[..week]))
      == PointsOf(name, SeasonSides(weeks[..week - 1])) + PointsOf(name, MatchupSides(weeks[week - 1]))
  {
    PlayedStep(weeks, currentWeek, week);
    PointsOfAppend(name, SeasonSides(weeks[..week - 1]), MatchupSides(weeks[week - 1]));
  }

  /** A run succeeds exactly when every side names a team of the table. */
  lemma {:induction false} FoldSucceeds(t: Table, sides: seq<Side>)
    ensures Fold(t, sides).Ok? <==> AllKnown(t, sides)
    ensures Fold(t, sides).Ok? ==> Fold(t, sides).value.Keys == t.Keys
    decreases |sides|
  {
    if sides != [] {
      var init := sides[..|sides| - 1];
      FoldSucceeds(t, init);
      assert forall k :: 0 <= k < |init| ==> init[k] == sides[k];
    }
  }

  /** A successful run leaves each team its old list followed by its new points, in order. */
  lemma {:induction false} FoldContents(t: Table, sides: seq<Side>)
    requires Fold(t, sides).Ok?
    ensures forall n :: n in t ==> n in Fold(t, sides).value && Fold(t, sides).value[n] == t[n] + PointsOf(n, sides)
    decreases |sides|
  {
    if sides != [] {
      var init, last := sides[..|sides| - 1], sides[|sides| - 1];
      FoldContents(t, init);
      FoldSucceeds(t, init);
      var u := Fold(t, init).value;
      forall n | n in t
        ensures Fold(t, sides).value[n] == t[n] + PointsOf(n, sides)
      {
        if n == last.name {
          assert Fold(t, sides).value[n] == u[n] + [last.points];
        }
      }
    }
  }

  /** A failed run names the first side whose team is not in the table. */
  lemma {:induction false} FoldFailure(t: Table, sides: seq<Side>)
    requires Fold(t, sides).Err?
    ensures exists k :: FirstUnknownAt(t, sides, k) && Fold(t, sides).error == UnknownTeam(sides[k].name)
    decreases |sides|
  {
    var init, last := sides[..|sides| - 1], sides[|sides| - 1];
    FoldSucceeds(t, init);
    assert forall k :: 0 <= k < |init| ==> init[k] == sides[k];
    if Fold(t, init).Ok? {
      assert FirstUnknownAt(t, sides, |sides| - 1);
    } else {
      FoldFailure(t, init);
      var k :| FirstUnknownAt(t, init, k) && Fold(t, init).error == UnknownTeam(init[k].name);
      assert FirstUnknownAt(t, sides, k);
    }
  }

  lemma TallyMissingWeek(t: Table, weeks: Scoreboard, currentWeek: int, week: int, u: Table)
    requires |weeks| < week < currentWeek && week - 1 <= WeeksHeld(weeks, currentWeek)
    requires Fold(t, SeasonSides(weeks[..week - 1])) == Ok(u)
    ensures week == |weeks| + 1
    ensures Tally(t, weeks, currentWeek) == Err(WeekUnavailable(week))
  {
    assert WeeksHeld(weeks, currentWeek) == week - 1;
    assert Played(weeks, currentWeek) == SeasonSides(weeks[..week - 1]);
  }

  lemma TallyComplete(t: Table, weeks: Scoreboard, currentWeek: int, week: int, u: Table)
    requires 1 <= week && (week == currentWeek || (week == 1 && currentWeek < 1))
    requires week - 1 <= WeeksHeld(weeks, currentWeek)
    requires Fold(t, SeasonSides(weeks[..week - 1])) == Ok(u)
    ensures Tally(t, weeks, currentWeek) == Ok(u)
  {
    assert WeeksHeld(weeks, currentWeek) == week - 1;
    assert Played(weeks, currentWeek) == SeasonSides(weeks[..week - 1]);
  }

  lemma CreditKnown(t: Table, sides: seq<Side>, s: Side, u: Table)
    requires Fold(t, sides) == Ok(u) && s.name in u
    ensures Fold(t, sides + [s]) == Ok(u[s.name := u[s.name] + [s.points]])
  {
    assert (sides + [s])[..|sides|] == sides;
  }

  lemma CreditUnknown(t: Table, sides: seq<Side>, s: Side, u: Table)
    requires Fold(t, sides) == Ok(u) && s.name !in u
    ensures Fold(t, sides + [s]) == Err(UnknownTeam(s.name))
  {
    assert (sides + [s])[..|sides|] == sides;
  }

  /** Once a run has failed, more sides do not change the failure. */
  lemma {:induction false} FoldErrSticks(t: Table, a: seq<Side>, b: seq<Side>)
    requires a <= b
    requires Fold(t, a).Err?
    ensures Fold(t, b) == Fold(t, a)
    decreases |b|
  {
    if |b| > |a| {
      var b' := b[..|b| - 1];
      assert a <= b';
      FoldErrSticks(t, a, b');
    } else {
      assert a == b;
    }
  }

  /** The accumulation of a whole season from blank lists: it fails when a week is missing or a side
      names a team off the roster, and otherwise gives each roster team exactly its own points in
      week order, one per side naming it. */
  lemma TallyClosedForm(roster: seq<string>, weeks: Scoreboard, currentWeek: int)
    ensures
      var r := Tally(Blank(roster), weeks, currentWeek);
      var sides := Played(weeks, currentWeek);
      && (r.Ok? <==> WeeksBefore(currentWeek) <= |weeks| && AllKnown(Blank(roster), sides))
      && (r.Ok? ==> forall n :: n in r.value <==> n in roster)
      && (r.Ok? ==> forall n :: n in roster ==>
            r.value[n] == PointsOf(n, sides) && |r.value[n]| == Appearances(n, sides))
      && (r.Err? ==>
            || (AllKnown(Blank(roster), sides) && r.error == WeekUnavailable(|weeks| + 1))
            || exists k :: FirstUnknownAt(Blank(roster), sides, k) && r.error == UnknownTeam(sides[k].name))
  {
    var sides := Played(weeks, currentWeek);
    FoldSucceeds(Blank(roster), sides);
    if Fold(Blank(roster), sides).Ok? {
      FoldContents(Blank(roster), sides);
    } else {
      FoldFailure(Blank(roster), sides);
    }
    forall n | n in roster {
      PointsOfLength(n, sides);
    }
  }

  /** What a successful accumulation from blank lists holds, stated with the roster. */
  lemma TallySucceeded(roster: seq<string>, weeks: Scoreboard, currentWeek: int)
    requires Tally(Blank(roster), weeks, currentWeek).Ok?
    ensures WeeksBefore(currentWeek) <= |weeks| && OnRoster(roster, Played(weeks, currentWeek))
    ensures
      var r := Tally(Blank(roster), weeks, currentWeek);
      var sides := Played(weeks, currentWeek);
      forall n :: n in roster ==>
        n in r.value && r.value[n] == PointsOf(n, sides) && |r.value[n]| == Appearances(n, sides)
  {
    TallyClosedForm(roster, weeks, currentWeek);
  }

  /** Why an accumulation from blank lists failed, stated with the roster. */
  lemma TallyFailed(roster: seq<string>, weeks: Scoreboard, currentWeek: int)
    requires Tally(Blank(roster), weeks, currentWeek).Err?
    ensures
      var e := Tally(Blank(roster), weeks, currentWeek).error;
      var sides := Played(weeks, currentWeek);
      || (OnRoster(roster, sides) && WeeksBefore(currentWeek) > |weeks| && e == WeekUnavailable(|weeks| + 1))
      || exists k :: 0 <= k < |sides| && sides[k].name !in roster
           && (forall j :: 0 <= j < k ==> sides[j].name in roster)
           && e == UnknownTeam(sides[k].name)
  {
    TallyClosedForm(roster, weeks, currentWeek);
    var sides := Played(weeks, currentWeek);
    var e := Tally(Blank(roster), weeks, currentWeek).error;
    if !(OnRoster(roster, sides) && WeeksBefore(currentWeek) > |weeks| && e == WeekUnavailable(|weeks| + 1)) {
      var k :| FirstUnknownAt(Blank(roster), sides, k) && e == UnknownTeam(sides[k].name);
    }
  }

  /** One more roster name: a new key at the end, or nothing new for a repeated name. */
  lemma RosterStep(roster: seq<string>, i: nat)
    requires i < |roster|
    ensures Dedup(roster[..i + 1]) == Enlist(Dedup(roster[..i]), roster[i])
    ensures Blank(roster[..i + 1]) == Blank(roster[..i])[roster[i] := []]
    ensures roster[i] in Blank(roster[..i]) <==> roster[i] in Dedup(roster[..i])
  {
    assert roster[..i + 1][..i] == roster[..i];
    assert roster[..i + 1] == roster[..i] + [roster[i]];
  }

  /** The number of scores held by the listed teams. */
  function TotalAppearances(names: seq<string>, sides: seq<Side>): nat
  {
    if names == [] then 0 else Appearances(names[0], sides) + TotalAppearances(names[1..], sides)
  }

  /** How often `name` occurs in `names`. */
  function Occurrences(names: seq<string>, name: string): nat
  {
    if names == [] then 0 else (if names[0] == name then 1 else 0) + Occurrences(names[1..], name)
  }

  lemma {:induction false} OccursOnce(names: seq<string>, name: string)
    requires Distinct(names) && name in names
    ensures Occurrences(names, name) == 1
  {
    if names[0] != name {
      OccursOnce(names[1..], name);
    } else {
      OccursNever(names[1..], name);
    }
  }

  lemma {:induction false} OccursNever(names: seq<string>, name: string)
    requires name !in names
    ensures Occurrences(names, name) == 0
  {
    if names != [] {
      OccursNever(names[1..], name);
    }
  }

  lemma {:induction false} TotalSnoc(names: seq<string>, sides: seq<Side>, s: Side)
    ensures TotalAppearances(names, sides + [s]) == TotalAppearances(names, sides) + Occurrences(names, s.name)
  {
    if names != [] {
      AppearancesSnoc(names[0], sides, s);
      TotalSnoc(names[1..], sides, s);
    }
  }

  /** Each side is credited to exactly one team: over distinct team names that cover every side,
      the scores held add up to the number of sides. */
  lemma {:induction false} EveryScoreCounted(names: seq<string>, sides: seq<Side>)
    requires Distinct(names)
    requires forall k :: 0 <= k < |sides| ==> sides[k].name in names
    ensures TotalAppearances(names, sides) == |sides|
    decreases |sides|
  {
    if sides == [] {
      NoneCounted(names);
    } else {
      var init, last := sides[..|sides| - 1], sides[|sides| - 1];
      assert forall k :: 0 <= k < |init| ==> init[k] == sides[k];
      EveryScoreCounted(names, init);
      TotalSnoc(names, init, last);
      OccursOnce(names, last.name);
      assert init + [last] == sides;
    }
  }

  lemma {:induction false} NoneCounted(names: seq<string>)
    ensures TotalAppearances(names, []) == 0
  {
    if names != [] {
      NoneCounted(names[1..]);
    }
  }

  /** After a successful accumulation from blank lists the table holds exactly two scores per
      matchup played: no score is lost or credited twice. */
  lemma ScoresConserved(roster: seq<string>, weeks: Scoreboard, currentWeek: int)
    requires Tally(Blank(roster), weeks, currentWeek).Ok?
    ensures TotalAppearances(Dedup(roster), Played(weeks, currentWeek))
      == 2 * |SeasonMatchups(weeks[..WeeksHeld(weeks, currentWeek)])|
  {
    var sides := Played(weeks, currentWeek);
    FoldSucceeds(Blank(roster), sides);
    assert forall k :: 0 <= k < |sides| ==> sides[k].name in Dedup(roster);
    EveryScoreCounted(Dedup(roster), sides);
  }

  /** The score lists of the roster teams, in the dictionary's key order. */
  class ScoreTable {
    var names: seq<string>
    var scores: Table

    ghost predicate Valid()
      reads this
    {
      && Distinct(names)
      && forall n :: n in scores <==> n in names
    }

    /** Each roster name mapped to an empty list; a repeated name keeps its first position. */
    constructor (roster: seq<string>)
      ensures Valid()
      ensures names == Dedup(roster) && scores == Blank(roster)
    {
      var keys, lists := [], map[];
      var i := 0;
      while i < |roster|
        invariant 0 <= i <= |roster|
        invariant keys == Dedup(roster[..i]) && lists == Blank(roster[..i])
      {
        RosterStep(roster, i);
        if roster[i] !in lists {
          keys := keys + [roster[i]];
        }
        lists := lists[roster[i] := []];
        i := i + 1;
      }
      assert roster[..i] == roster;
      names, scores := keys, lists;
    }

    /** `teams[name].append(score)`: fails, changing nothing, when the name is not a key. */
    method Append(name: string, score: real) returns (ok: bool)
      requires Valid()
      modifies this
      ensures Valid() && names == old(names)
      ensures ok <==> name in old(scores)
      ensures ok ==> scores == old(scores)[name := old(scores)[name] + [score]]
      ensures !ok ==> scores == old(scores)
    {
      ok := name in scores;
      if ok {
        scores := scores[name := scores[name] + [score]];
      }
    }

    /** The week loop: every side of weeks `1 .. currentWeek - 1` appended in order. On success
        the table is what `Tally` gives; on failure the fault is `Tally`'s. */
    method Accumulate(weeks: Scoreboard, currentWeek: int) returns (fault: Option<Fault>)
      requires Valid()
      modifies this
      ensures Valid() && names == old(names)
      ensures fault.None? ==> Tally(old(scores), weeks, currentWeek) == Ok(scores)
      ensures fault.Some? ==> Tally(old(scores), weeks, currentWeek) == Err(fault.value)
    {
      fault := None;
      ghost var start := scores;
      var week := 1;
      while week < currentWeek
        invariant 1 <= week && (week <= currentWeek || week == 1)
        invariant week - 1 <= WeeksHeld(weeks, currentWeek)
        invariant Valid() && names == old(names) && fault.None?
        invariant Fold(start, SeasonSides(weeks[..week - 1])) == Ok(scores)
        decreases currentWeek - week
      {
        if week > |weeks| {
          TallyMissingWeek(start, weeks, currentWeek, week, scores);
          return Some(WeekUnavailable(week));
        }
        PlayedStep(weeks, currentWeek, week);
        fault := CreditWeek(weeks[week - 1], start, SeasonSides(weeks[..week - 1]));
        if fault.Some? {
          FoldErrSticks(start, SeasonSides(weeks[..week]), Played(weeks, currentWeek));
          return;
        }
        week := week + 1;
      }
      TallyComplete(start, weeks, currentWeek, week, scores);
    }

    /** The matchup loop of one week: both sides of each matchup appended, home first. */
    method CreditWeek(ms: seq<Matchup>, ghost start: Table, ghost done: seq<Side>) returns (fault: Option<Fault>)
      requires Valid()
      requires Fold(start, done) == Ok(scores)
      modifies this
      ensures Valid() && names == old(names)
      ensures fault.None? ==> Fold(start, done + MatchupSides(ms)) == Ok(scores)
      ensures fault.Some? ==> Fold(start, done + MatchupSides(ms)) == Err(fault.value)
    {
      var i := 0;
      assert done + MatchupSides(ms[..0]) == done;
      while i < |ms|
        invariant 0 <= i <= |ms|
        invariant Valid() && names == old(names)
        invariant Fold(start, done + MatchupSides(ms[..i])) == Ok(scores)
      {
        ghost var sofar := done + MatchupSides(ms[..i]);
        ghost var whole := done + MatchupSides(ms);
        var home, away := ms[i].home, ms[i].away;
        MatchupPrefix(done, ms, i);
        var ok := CreditSide(home, start, sofar);
        if !ok {
          FoldErrSticks(start, sofar + [home], whole);
          return Some(UnknownTeam(home.name));
        }
        ok := CreditSide(away, start, sofar + [home]);
        if !ok {
          FoldErrSticks(start, sofar + [home] + [away], whole);
          return Some(UnknownTeam(away.name));
        }
        i := i + 1;
      }
      assert ms[..i] == ms;
      return None;
    }

    /** One side's points appended to its team's list: one more step of `Fold`. */
    method CreditSide(side: Side, ghost start: Table, ghost sofar: seq<Side>) returns (ok: bool)
      requires Valid()
      requires Fold(start, sofar) == Ok(scores)
      modifies this
      ensures Valid() && names == old(names)
      ensures ok ==> Fold(start, sofar + [side]) == Ok(scores)
      ensures !ok ==> Fold(start, sofar + [side]) == Err(UnknownTeam(side.name))
    {
      ghost var before := scores;
      ok := Append(side.name, side.points);
      if ok {
        CreditKnown(start, sofar, side, before);
      } else {
        CreditUnknown(start, sofar, side, before);
      }
    }

    /** The statistics loop of the API client: teams with fewer than two scores are left out. */
    method ReportAtLeastTwo() returns (results: map<string, TeamStats>)
      requires Valid()
      ensures forall n :: n in results <==> n in scores && |scores[n]| >= 2
      ensures forall n :: n in results ==> results[n] == Summary(scores[n])
    {
      results := map[];
      for i := 0 to |names|
        invariant forall n :: n in results <==> n in names[..i] && |scores[n]| >= 2
        invariant forall n :: n in results ==> n in scores && results[n] == Summary(scores[n])
      {
        assert names[..i + 1] == names[..i] + [names[i]];
        if |scores[names[i]]| >= 2 {
          results := results[names[i] := Summary(scores[names[i]])];
        }
      }
      assert names[..|names|] == names;
    }

    /** The statistics loop of the scripts: every team is reported, and the first team (in key
        order) with fewer than two scores makes the whole loop fail. */
    method ReportAll() returns (r: Result<map<string, TeamStats>>)
      requires Valid()
      ensures r.Ok? <==> forall n :: n in scores ==> |scores[n]| >= 2
      ensures r.Ok? ==> forall n :: n in r.value <==> n in scores
      ensures r.Ok? ==> forall n :: n in r.value ==> r.value[n] == Summary(scores[n])
      ensures r.Err? ==>
        exists k :: 0 <= k < |names| && r.error == TooFewScores(names[k])
          && |scores[names[k]]| < 2
          && forall j :: 0 <= j < k ==> |scores[names[j]]| >= 2
    {
      var results := map[];
      for i := 0 to |names|
        invariant forall j :: 0 <= j < i ==> |scores[names[j]]| >= 2
        invariant forall n :: n in results <==> n in names[..i]
        invariant forall n :: n in results ==> n in scores && results[n] == Summary(scores[n])
      {
        assert names[..i + 1] == names[..i] + [names[i]];
        if |scores[names[i]]| < 2 {
          return Err(TooFewScores(names[i]));
        }
        results := results[names[i] := Summary(scores[names[i]])];
      }
      assert names[..|names|] == names;
      r := Ok(results);
    }
  }
}
