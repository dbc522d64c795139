# Season aggregation of a Yahoo fantasy league, in Dafny

This project models the part of the fantasy dashboard that turns a league's already-decoded data
into statistics and "wrapped" superlatives, and proves what those computations promise. The data
is a roster of team names, the standings entries and a scoreboard.

- The scoreboard holds one list of matchups per week; week `w` is at index `w - 1`.
- A matchup has a home side and an away side.
- Each side carries a team name, its points and its projected points.

Three computations are modelled.

- **Season statistics.** These are the API client's league statistics and the two scripts'
  statistics endpoint.
  - Every roster team starts with an empty score list (`ScoreTables.ScoreTable`).
  - Each side of each matchup in the weeks `1 .. current_week - 1` appends its points to its
    team's list.
  - A name off the roster is a lookup failure.
  - Each list is then summarised: mean, median, sample variance, max and min (`Statistics`).
  - The API client leaves out teams with fewer than two scores (`LeagueStats.GetLeagueStats`).
  - The scripts summarise every team, so one short list fails the whole request. The request
    then answers with the failure (`FantasyStats.GetFantasyStats`).
- **Team list.** The roster's names and logo addresses, as two parallel lists
  (`LeagueStats.TeamList`).
- **Wrapped summary of one team** (`Wrapped.GetTeamWrapped`).
  - The standings loop builds each team's logo, rank, record string and average points per game.
    It also adds up its season points (`Standings`).
  - A head-to-head pass over the weeks `1 .. G` follows (`Opponents`). `G` is the game count of
    the **last** standings entry read.
  - The pass records each team's opponents in order of first meeting, the points for and against
    per meeting, and the summed projections.
  - Each team that played then gets its superlatives (`Wrapped`):
    - the "BBQ chicken", the opponent it averaged the most points against;
    - the "nemesis", the opponent that averaged the most points against it;
    - ties go to the opponent met first;
    - how far its season points were over or under its projection, to a hundredth of a percent.

Each failure of the dashboard is a `Fault`:

- a missing dictionary key is `UnknownTeam`;
- a week the scoreboard does not hold is `WeekUnavailable`;
- too few scores for the statistics is `TooFewScores`;
- a division by zero games or by a zero projection is `ZeroGames` or `ZeroProjection`;
- empty standings, which leave the week count unset, is `NoStandings`.

Each loop of the source is a `method` whose `ensures` states its result, mostly through a
function that gives the result in closed form. The loops over the two sides of one matchup are
unrolled into those functions. Lemmas prove what that function means: lengths, membership, order, sums, symmetry,
argmax, rounding and sign rules.

The model follows the code where its behaviour may surprise a reader:

- the verdict reads the rounded percentage, not the raw one (`Wrapped.BarelyOverIsUnder`);
- the weeks read come from the last standings entry's game count, not from each team's own
  games;
- short score lists are dropped by one variant and fatal in the others;
- the argmax tie-break is the order of first meeting.

## Model

| member | source | states |
|---|---|---|
| Season.MatchupSides | yahoo_api.py:90-97 | every matchup contributes exactly two sides |
| Season.SeasonMatchupsMembers | yahoo_api.py:82-91 | a matchup is among the season's matchups exactly when one of the weeks read holds it |
| Season.WeeksBeforeRange | yahoo_api.py:82 | week `w` is in `range(1, current_week)` exactly when `1 <= w <= WeeksBefore(current_week)`, so the loop reads `current_week - 1` weeks, and none when the current week is 1 or less |
| Season.Enlist | yahoo_script.py:29 | adding a key to a dictionary keeps the keys distinct, adds exactly that key, and keeps the earlier keys in place |
| Season.Dedup | yahoo_script.py:29 | the keys of a dictionary built from a list of names are distinct and are exactly the names in the list |
| Statistics.Maximum | yahoo_api.py:108 | the maximum is one of the scores and no score exceeds it |
| Statistics.Minimum | yahoo_api.py:109 | the minimum is one of the scores and no score is below it |
| Statistics.Sort | yahoo_api.py:105 | sorting gives an ascending permutation of the scores |
| Statistics.InsertPermutes | yahoo_api.py:105 | inserting into the sorted list adds exactly that score |
| Statistics.InsertKeepsOrder | yahoo_api.py:105 | inserting keeps the list ascending |
| Statistics.Mean | yahoo_api.py:104 | the mean of the scores; `MeanBounds` proves it lies between the smallest and the largest score |
| Statistics.Median | yahoo_api.py:105 | the middle of the sorted scores, or the mean of the two middle ones; `MedianBounds` proves it lies between min and max |
| Statistics.SampleVariance | yahoo_api.py:106 | the squared deviations from the mean over `n - 1`; `VarianceNonNegative` proves it is never negative |
| Statistics.Summary | yahoo_api.py:103-110 | the score list is handed through unchanged; min and max are scores bracketing every score; mean and median lie between them; variance is non-negative |
| Statistics.MeanBounds | yahoo_api.py:104 | min ≤ mean ≤ max |
| Statistics.MedianBounds | yahoo_api.py:105 | min ≤ median ≤ max, for odd and even counts |
| Statistics.SortedWithin | yahoo_api.py:105 | every element of the sorted list lies between min and max |
| Statistics.VarianceNonNegative | yahoo_api.py:106 | the sample variance is never negative |
| ScoreTables.Blank | yahoo_api.py:75-79 | every roster team is a key with an empty list, and nothing else is a key |
| ScoreTables.Credit | yahoo_api.py:95-97 | one side's points appended to its own team's list, or `UnknownTeam` for a name that is not a key; `FoldContents` and `FoldFailure` state what a run of them does |
| ScoreTables.Fold | yahoo_api.py:90-97 | the sides appended one by one, stopping at the first failure; `FoldSucceeds`, `FoldContents`, `FoldFailure` and `FoldErrSticks` state its meaning |
| ScoreTables.Played | yahoo_api.py:82-96 | the sides of the weeks `1 .. current_week - 1` the scoreboard holds, week by week; `PointsInWeekOrder` states the week order |
| ScoreTables.PointsInWeekOrder | yahoo_api.py:82-97 | a team's scores of one week come after its scores of all the earlier weeks |
| ScoreTables.Tally | yahoo_api.py:82-97 | the whole accumulation, failing on a missing week once the earlier weeks are credited; `TallyClosedForm` states its meaning |
| ScoreTables.PointsOfLength | yahoo_api.py:93-97 | a team's list is as long as the number of sides naming it |
| ScoreTables.FoldSucceeds | yahoo_api.py:90-97 | appending the sides succeeds exactly when every side names a key; the keys never change |
| ScoreTables.FoldContents | yahoo_api.py:90-97 | after success each list is its old contents followed by its own team's points in order |
| ScoreTables.FoldFailure | yahoo_api.py:97 | a failure names the first side whose team is not a key |
| ScoreTables.FoldErrSticks | yahoo_api.py:97 | once an append has failed, later sides do not change the failure |
| ScoreTables.TallyMissingWeek | yahoo_api.py:82-86 | reaching a week the scoreboard lacks fails with that week once the earlier weeks are credited |
| ScoreTables.TallyClosedForm | yahoo_api.py:82-97 | the whole accumulation fails exactly on a missing week or an off-roster side, the earlier one winning; on success each roster team holds exactly its own points in week order |
| ScoreTables.TallySucceeded | yahoo_api.py:82-97 | success means every week was held and every side is on the roster; each roster team's list is its points |
| ScoreTables.TallyFailed | yahoo_api.py:82-97 | a failure is the missing week with every side on the roster, or the first off-roster side |
| ScoreTables.ScoresConserved | yahoo_api.py:90-97 | after success the lists hold exactly two scores per matchup played: none lost, none counted twice |
| ScoreTables.ScoreTable.constructor | yahoo_script.py:29 | the table's keys are the roster names in first-occurrence order, each with an empty list |
| ScoreTables.ScoreTable.Append | yahoo_script.py:43-44 | an append to a key extends only that list; an unknown name fails and changes nothing |
| ScoreTables.ScoreTable.CreditSide | yahoo_api.py:93-97 | one side appended is one more step of the accumulation, or its failure |
| ScoreTables.ScoreTable.CreditWeek | yahoo_script.py:38-44 | a week's matchups are appended home side first, matchup by matchup, or fail at the first unknown team |
| ScoreTables.ScoreTable.Accumulate | yahoo_script.py:35-44 | the week loop leaves the table, or ends with the fault, exactly as the closed-form accumulation says |
| ScoreTables.ScoreTable.ReportAtLeastTwo | yahoo_api.py:99-110 | the results are exactly the teams with at least two scores, each with the summary of its list |
| ScoreTables.ScoreTable.ReportAll | yahoo_script.py:46-56 | succeeds iff every list has at least two scores, then reports every team; otherwise fails on the first short list in key order |
| LeagueStats.GetLeagueStats | yahoo_api.py:74-112 | fails exactly on a missing week or an off-roster side; otherwise the keys are the roster teams that played at least twice, each summarising its own points in week order |
| LeagueStats.TeamList | yahoo_api.py:124-134 | two lists as long as the roster; the i-th name and i-th logo are the i-th roster entry |
| FantasyStats.ShortTeam | app.py:65-73 | the first short list in key order belongs to the first roster team that played fewer than twice |
| FantasyStats.GetFantasyStats | app.py:45-77 | success iff every week is held, every side is on the roster and every roster team played at least twice; the data then covers exactly the roster; otherwise the first failure is reported and no data |
| Standings.Round2 | yahoo_api.py:166 | rounding to two decimals moves a value by at most half a hundredth and lands on a hundredth |
| Standings.Round2Idempotent | yahoo_api.py:166 | rounding a rounded value changes nothing |
| Standings.Round2HalfEven | yahoo_api.py:166 | every value exactly halfway between two hundredths goes to the even one, half a hundredth away |
| Standings.Round2Nearest | yahoo_api.py:166 | every other value goes to the strictly nearest hundredth |
| Standings.NatString | yahoo_api.py:165 | a number prints as a non-empty string of digits |
| Standings.ParseNatString | yahoo_api.py:165 | the printed digits read back as the number |
| Standings.RecordString | yahoo_api.py:165 | `wins-losses-ties` printed; `RecordRoundTrip` and `RecordFields` prove it reads back as the three counts |
| Standings.RecordFields | yahoo_api.py:165 | the record string splits at its dashes into the three printed counts |
| Standings.RecordRoundTrip | yahoo_api.py:165 | the record string `wins-losses-ties` parses back to the three counts |
| Standings.SplitDigits | yahoo_api.py:165 | a string of digits has no dash to split at |
| Standings.SplitAfterDigits | yahoo_api.py:165 | splitting a digit string followed by a dash yields that string first |
| Standings.DashIndex | yahoo_api.py:165 | the position found is the first dash |
| Standings.InfoOf | yahoo_api.py:159-173 | one entry's logo, rank, record string and rounded average; `InfoOfEntry` states what each field means |
| Standings.InfoOfEntry | yahoo_api.py:165-166 | the average is within half a hundredth of points per game, and the record reads back as the entry's counts |
| Standings.ZeroGamesIndex | yahoo_api.py:166 | the position found is the first entry with no games |
| Standings.ZeroGamesAt | yahoo_api.py:166 | an entry with no games after entries that all have games is the first failure |
| Standings.NoZeroGames | yahoo_api.py:166 | with no entry lacking games, the standings loop does not fail |
| Standings.LastEntry | yahoo_api.py:168-173 | the position found is the last entry naming the team |
| Standings.LastEntryNamed | yahoo_api.py:168 | a team has a last entry iff some entry names it |
| Standings.InfoTable | yahoo_api.py:168-173 | the summaries written entry by entry, a later entry overwriting an earlier one; `InfoTableLatest` states the result |
| Standings.Totals | yahoo_api.py:167 | the season points added entry by entry; `TotalsClosedForm` states the result |
| Standings.InfoTableLatest | yahoo_api.py:168-173 | the summary table has exactly the named teams, each summarised from its last entry |
| Standings.PointsForOfSnoc | yahoo_api.py:167 | one more entry adds its points to its own team's total only |
| Standings.TotalsClosedForm | yahoo_api.py:167 | the totals table has exactly the named teams, each with the sum of the points of all its entries |
| Standings.NotNamedNoPoints | yahoo_api.py:167 | a team no entry names has no points |
| Standings.TotalsStep | yahoo_api.py:167 | one loop step adds one entry's points |
| Standings.InfoStep | yahoo_api.py:168-173 | one loop step overwrites the entry's team's summary |
| Standings.BoardTeams | yahoo_api.py:167-173 | both tables know the same teams, the teams the entries name |
| Standings.StandingsBoard | yahoo_api.py:158-178 | both tables and the last entry's game count, or the failure; `BoardTeams`, `InfoTableLatest`, `TotalsClosedForm` and `ZeroGamesIndex` state its parts |
| Standings.ReadStandings | yahoo_api.py:158-173 | the standings loop fails on the first entry without games or on empty standings; otherwise it yields both tables and the last entry's game count |
| Opponents.Record | yahoo_api.py:191-213 | one matchup entered into all four tables; `RecordGames`, `RecordRivals`, `ProjectionEntered` and `RecordWellFormed` state what it does |
| Opponents.EnterTeams | yahoo_api.py:198-202 | both teams become keys, home first; `ReplayTeams` states the resulting order |
| Opponents.EnterRivals | yahoo_api.py:204-208 | each team becomes an opponent of the other; `RecordRivals` states the result |
| Opponents.EnterGames | yahoo_api.py:210-213 | the meeting appended to both views of the pairing; `RecordGames` states the result |
| Opponents.EnterProjections | yahoo_api.py:191-194 | both sides' projections added; `ProjectionEntered` states the result |
| Opponents.Replay | yahoo_api.py:186-213 | the matchups entered in order; `ReplayTeams`, `ReplayRivals`, `ReplayGames` and `ReplayProjected` state the result |
| Opponents.SeasonLedger | yahoo_api.py:178-213 | the weeks `1 .. G` entered in order, or the first missing week; `RecordSeason` is the loop that computes it |
| Opponents.RecordGames | yahoo_api.py:210-213 | a matchup appends one meeting to both lists of its own pairing, two for a team matched against itself, and leaves every other pairing unchanged |
| Opponents.RecordRivals | yahoo_api.py:198-208 | a matchup adds each team to the other's opponents, keeping the first-meeting order, and changes nobody else's |
| Opponents.ProjectionEntered | yahoo_api.py:194 | a matchup adds each side's projection to its own team only |
| Opponents.ReplayTeams | yahoo_api.py:198-202 | the teams of the pass are the distinct names of the sides, in order of first appearance |
| Opponents.ReplayRivals | yahoo_api.py:204-208 | each team's opponents are the distinct teams it met, in order of first meeting |
| Opponents.ReplayGames | yahoo_api.py:210-213 | the lists of every pairing, a team's pairing with itself included, hold the points the team scored and the points it conceded there, meeting by meeting |
| Opponents.ReplayProjected | yahoo_api.py:194 | each team's projection is the sum of the projections of the sides naming it |
| Opponents.ConcededMirror | yahoo_api.py:210-213 | for two different teams, what one conceded to the other is what the other scored against it |
| Opponents.SelfPairingOrder | yahoo_api.py:210-213 | a team matched against itself records the two scores in opposite orders on its two lists, so the mirror fails for it |
| Opponents.HeadToHeadMirror | yahoo_api.py:210-213 | what a team conceded to a different opponent is what that opponent's list records it scored |
| Opponents.RecordWellFormed | yahoo_api.py:186-213 | a matchup keeps the tables consistent: the same teams everywhere, each with distinct non-empty opponents, each pairing holding at least one meeting |
| Opponents.ReplayWellFormed | yahoo_api.py:178-213 | the tables of any sequence of matchups are consistent |
| Opponents.RecordSeason | yahoo_api.py:178-213 | the week loop reads the weeks `1 .. G` in order and fails on the first week the scoreboard lacks |
| Wrapped.FirstMaxIndex | yahoo_api.py:217 | `max` with a key picks a position whose value is the largest, and every earlier position is strictly smaller |
| Wrapped.Top | yahoo_api.py:217 | the opponent picked is one the team met |
| Wrapped.TopIsFirstBest | yahoo_api.py:217-223 | no opponent has a higher average than the pick, and every opponent met before it has a strictly lower one |
| Wrapped.PercentOver | yahoo_api.py:227 | the percentage over the projection, rounded; `PercentVerdict` states its sign and size |
| Wrapped.PercentVerdict | yahoo_api.py:227-229 | the rounded percentage is positive only when points beat the projection, positive once they beat it by a ten-thousandth, zero at equality, and within half a hundredth of the exact size |
| Wrapped.BarelyOverIsUnder | yahoo_api.py:227-229 | points 0.004% over the projection round to no improvement |
| Wrapped.SuperlativesOf | yahoo_api.py:216-229 | the superlatives of one team; `SuperlativesMeaning` states what each field means |
| Wrapped.SuperlativesMeaning | yahoo_api.py:215-229 | BBQ chicken and nemesis are the first best opponents; their averages are within half a hundredth; the improvement is the absolute rounded percentage; "Over" iff that percentage is positive; equal points and projection give "Under" |
| Wrapped.AnnotateTeam | yahoo_api.py:218-229 | one team fails for an unknown name or a zero projection; otherwise only its summary changes, gaining its superlatives |
| Wrapped.Annotated | yahoo_api.py:215-229 | the superlatives loop never changes which teams have a summary |
| Wrapped.AnnotatableSnoc | yahoo_api.py:215-229 | every team passes iff the earlier ones pass and the last one does |
| Wrapped.AnnotatedClosedForm | yahoo_api.py:215-229 | the loop succeeds iff every team is known with a non-zero projection; then every team that played gains its superlatives and no other summary changes; otherwise the first failing team is named |
| Wrapped.AnnotatedValues | yahoo_api.py:215-229 | one more team decorated keeps every other summary |
| Wrapped.AnnotatedErrSticks | yahoo_api.py:215-229 | once the loop has failed, further teams do not change the failure |
| Wrapped.AnnotatedStep | yahoo_api.py:215-229 | one loop step is one team's annotation |
| Wrapped.Annotate | yahoo_api.py:215-229 | the superlatives loop ends exactly as the closed form says |
| Wrapped.SeasonLedgerWellFormed | yahoo_api.py:178-213 | the tables of a successful head-to-head pass are consistent |
| Wrapped.WrappedOf | yahoo_api.py:149-231 | the whole request in closed form; `WrappedSummary`, `WrappedSuperlatives` and `WrappedReadsGamesOfLastEntry` state its meaning |
| Wrapped.GetTeamWrapped | yahoo_api.py:149-231 | the request runs the standings loop, the week loop over `1 .. G`, the superlatives loop and the final lookup, failing exactly where they fail |
| Wrapped.WrappedReadsGamesOfLastEntry | yahoo_api.py:178 | only the weeks up to the last standings entry's game count matter; later scoreboard weeks never change the summary |
| Wrapped.WrappedSummary | yahoo_api.py:158-231 | a summary is the team's last standings entry, with superlatives exactly when the team played in a week read |
| Wrapped.WrappedSuperlatives | yahoo_api.py:175-231 | the superlatives come from the opponents in first-meeting order, the per-meeting points scored and conceded against each of them (itself included), the summed projections and the standings' season points |

## Left out

- HTTP requests, `raise_for_status`, OAuth, the token file and the Flask routes are network and
  file I/O. The model starts from decoded data, and a failed scoreboard request is
  `WeekUnavailable`.
- JSON decoding and positional indexing are not modelled. So is the `isinstance(team, dict)`
  filter: the decoded roster holds only teams.
- Matchups with other than two sides are not modelled.
- Points are exact reals, not binary floating point.
- Statistics.Summary: the `variance` field is the sample variance, the square of the reported
  standard deviation, because a square root is not available over the reals here.
- Standings.Round2: half-even rounding of exact reals; Python rounds the nearest binary float,
  which can differ at exact ties.
- Standings.InfoOf: the rank stays an integer; its ordinal spelling is a foreign library call.
- Opponents.HeadToHeadMirror: stated only for two different teams. A team matched against
  itself gets `[home, away]` points for but `[away, home]` points against, which breaks the
  mirror property (Opponents.SelfPairingOrder).
- Wrapped.SuperlativesMeaning: the averages are stated against the exact means, not against
  numpy's floating-point means.
- Failures are `Fault` values; the original exception types and message texts are not modelled.
- Key order of the returned dictionaries is kept only where it decides a result. That is the
  team whose short list fails the scripts, the argmax tie-break and the first failing team of
  the superlatives loop.
