# Verified model of the Fantasy engine and its companions

This project models four parts of the platform and proves what they promise, for every input and every run:

- **The Fantasy season**: building a squad, changing a lineup, transfers and their penalties, the life of a gameweek,
  scoring with the captain's fallback, corrections, automatic rescoring, rankings and league tables.
- **Identity verification (KYC)**: submissions, the processing task, its failure callback, the decision engine and
  manual review, interleaved in any order and with tasks delivered more than once.
- **Registration codes**: the daily limit, the cooldown between codes and the lock after failed entries.
- **The identity audit**: one pass over the users with three dictionaries, compared with looking at every pair.

`dafny verify dfyconfig.toml` checks everything.

## How it is laid out

| files | content |
|---|---|
| `Sequences`, `Sorting` | filters, exact sums, and sorting whose result is canonical |
| `FantasyModel`, `SquadRules`, `Scoring`, `Season` | the tables, the squad check, what a scoring computes, and every action as one step on the whole database |
| `FantasyStore`, `FantasyEngine` | the application: a class whose fields are the tables and whose methods loop over rows and write them as the code does, each proved to do exactly its step; `PerformAll` runs any sequence of requests |
| `SeasonFrames`, `TransferLedger`, `SeasonInvariant`, `SeasonRuns`, `SeasonLaws`, `PoolLaws` | which tables each action can touch, the invariant of every reachable database and what follows from it |
| `Acceptance`, `Requests` | when each request is accepted and what it writes, said in the columns of the rows it touches, and what follows over whole runs |
| `PointsLaws`, `ScoreLaws`, `CorrectionLaws`, `GameweekLaws`, `Freshness`, `LockedScores`, `Witnesses`, `BonusWitness` | what points and scores mean, corrections, the end of a gameweek, how long its scores stay up to date, and concrete runs where a natural claim fails |
| `Ranking`, `RegistrationOrder`, `Leaderboards`, `TableLaws` | `rank_rows`, the tables made with it, what they lose without registration times, and what they show of the stored scores |
| `KycProtocol`, `KycEffects`, `KycCase` | the attempt protocol, what each action writes, and the class whose methods follow it |
| `OtpLimits`, `OtpAcceptance`, `OtpAccount` | the limiters over whole runs, which codes and entries are accepted, and the class whose methods follow them |
| `IdentityAudit`, `IdentityTruth` | the audit and its pairwise meaning |

Exact decimals are `real`, identifiers are natural numbers, time is an integer that never runs backwards, and each
request is one atomic step. Text handling, the check services and the outcome of sending mail are parameters.
`founding`, `delivered` and `log` are history that the application does not store; they occur in statements only.

## Where the code does less than its documentation suggests

- A transition to FINALIZED checks neither the fixtures nor the scores; only the `finalize` action does. There is a run
  that finalizes a gameweek with its fixture unplayed and without a single record (`Witnesses.FinalizedUnplayed`). A
  step keeps "FINALIZED means that every fixture is over" if and only if it is not such a transition with an open
  fixture (`GameweekLaws.StepFinalMeansOver`), and the record is complete and up to date if the gameweek was scored at
  some point and nothing has fed it since (`Freshness.FinalizedUpToDate`).
- Scoring reads the squads of the moment. The score of a locked gameweek moves when it is scored again after a
  transfer (`LockedScores.LockedScoreMoves`, `Witnesses.LockedScoreMovesHere`) or a lineup
  (`LockedScores.LineupMovesLockedScore`) for a later one; both theorems say by how much, captains included, and when
  it stands.
- Two corrections of one record at the same instant are ordered by their random identifiers, so the second one can be
  without effect (`CorrectionLaws.CorrectionTakesEffect`, `Witnesses.TiedCorrectionLost`).
- The squad check of a transfer compares present prices with the initial budget, so a budget can become negative once
  a price has been lowered (`Witnesses.BudgetTurnsNegative`, `PoolLaws.TransferBudgetBound`); in runs in which no price
  is lowered none ever is (`PoolLaws.RunsStaySolvent`).
- The rows of the competition leaderboard and the league standings name the registration time differently from what
  the ranking reads, so `earlier_registration` is without effect there: of two teams level on points the one that
  registered later can come first (`Witnesses.LaterRegistrationFirst`). The published table is nevertheless the
  promised one exactly when registration was redundant (`Leaderboards.OverallTableExactly`,
  `Leaderboards.DefaultRulesExactly`).
- The failure counter on a registration code is rolled back with the transaction that raised the error, so it never
  moves (`OtpLimits.CodeCountersStayZero`): a code takes any number of wrong entries and is still accepted
  (`OtpLimits.CodeTakesAnyNumber`). What bounds the entries are the counters of the addresses, each on its own and
  together (`OtpLimits.StretchLimitHolds`, `OtpLimits.StretchLimitForAll`).

## Model

| member | source | states |
|---|---|---|
| SquadRules.ValidateAcceptsLegal | fantasy/services.py:70-125 | The fifteen checks in the order of the code accept a squad if and only if it is legal: distinct players, eligible and available or doubtful, of the competition, within budget, exactly the required positions and at most the club quota, one starting captain and another starting vice-captain, bench orders that are a bijection onto 1..bench size, and the formation limits |
| Acceptance.LegalExactly | fantasy/services.py:70-125 | The check accepts the submitted lines if and only if, column by column: the squad size, no player twice, every player of the competition, eligible and available or doubtful, the prices within the initial budget, the count of every position and the bound for every club, the sizes of lineup and bench, one starting captain and another starting vice-captain, the bench order, and every formation limit with its defaults |
| SquadRules.BenchChecked | fantasy/services.py:111-117 | Sorting the bench orders and comparing with 1..n, together with the starters having none, is the bijection; a missing order counts as a refusal |
| SquadRules.CaptaincyChecked | fantasy/services.py:103-110 | The counts of marked starters and the comparison of their players say that one starter leads and another deputises |
| SquadRules.PositionsFixSquadSize | fantasy/models.py:82-102 | In a competition that passes `clean`, the positional rules alone fix the squad size, so the starter count and the bench count imply each other |
| SquadRules.LegalPermutes | fantasy/services.py:70-125 | Whether the check accepts a squad does not depend on the order of its rows |
| Requests.CreateExactly | fantasy/serializers.py:239-263 | A team is created if and only if the competition is enabled, its registration open and its deadline, if any, ahead, the lines are a legal squad with at most one mark of each kind, and the owner has no team in it yet |
| Requests.CreateWrites | fantasy/serializers.py:255-266 | The new row holds the submitted lines, each at the player's present price, and what their prices leave of the initial budget |
| Requests.LineupExactly | fantasy/views.py:457-472 | A lineup is accepted if and only if the lowest-numbered gameweek in DRAFT or OPEN lies before its deadline and the lines are a legal squad of exactly the players held |
| Requests.LineupWrites | fantasy/services.py:147-168 | Every row keeps its player and its purchase price and takes over one of the submitted lines for that player |
| Requests.TransferExactly | fantasy/views.py:474-516 | A transfer passes the checks if and only if the gameweek is in DRAFT or OPEN and before its deadline, the outgoing player is held, the incoming one is of the competition, eligible and available or doubtful, and the squad with the exchange made is legal; it is carried out if and only if in addition the penalty does not become negative |
| Requests.ClosedForTransfers | fantasy/services.py:128-132 | From any state in which a gameweek has left DRAFT and OPEN or its deadline has come, every run leaves its transfer rows, used count and penalty as they are and no transfer for it is ever accepted |
| Requests.WithdrawnIsFrozen | fantasy/services.py:79-85 | From any state in which a player is ineligible, injured, suspended or unavailable, in every run that does not edit that player: no check accepts a squad with the player, nobody gains the player, and a team that still holds the player is exactly the team it was |
| Requests.EditWithdraws | fantasy/services.py:79-85 | So after an administrator's edit that makes a player ineligible, injured, suspended or unavailable, until the player is edited again |
| Requests.BalanceTold | fantasy/views.py:586-601 | In every reachable state the balance a team is told is the number of free transfers less the transfers it has made, or nothing |
| PointsLaws.BaseIsBreakdown | fantasy/services.py:194-206 | A record's base points are the sum of the points of its own breakdown lines |
| PointsLaws.LineExplained | fantasy/services.py:195-206 | A line stands in the breakdown if and only if some statistic of the player in a fixture of the gameweek has its type and value, an enabled, unconditional rule of the competition names the type whatever the case of its letters, no such rule after it does, and the line's points are the value times that rule's points |
| PointsLaws.LinesCounted | fantasy/services.py:195-206 | There is one line for each such statistic |
| PointsLaws.UpperMeans | fantasy/services.py:186-196 | Two types have the same upper-cased form if and only if they are the same letters up to case |
| PointsLaws.RecordColumns | fantasy/services.py:210-216 | The total is base plus correction, and it is the value of the last correction of the record by time and identifier, or the base without one; statistics count as available when there is any, named by a rule or not |
| PointsLaws.EditMovesBase | fantasy/services.py:194-206 | Editing a counted statistic from x to y moves the base by (y - x) times the points of the rule that names it, and by nothing when none does |
| PointsLaws.EditMovesStoredBase | fantasy/views.py:1406-1420 | So does the correction of a statistic move the stored base of every up-to-date gameweek with its fixture |
| PointsLaws.ScoreExplained | fantasy/services.py:219-282 | A score has one detail line for each starter with the columns stored for the player, the captain's multiplied by the competition's multiplier; its penalty is the one on the accounting row, and its total is points plus bonus less penalty |
| PointsLaws.TookPart | fantasy/services.py:171-180 | A player took part if and only if there is a statistic or a lineup row of the player in a fixture of the gameweek |
| Requests.TakingPartStays | fantasy/services.py:171-180 | Whoever has taken part in a gameweek has taken part in it in every run from there |
| Requests.AppearingCounts | fantasy/services.py:178-180 | A lineup row in one of the gameweek's fixtures makes its player one who took part |
| Requests.RecordingCounts | fantasy/services.py:174-177 | So does a new statistic |
| Requests.ScoringReaches | fantasy/services.py:190-282 | Scoring writes a record for every player and a score for every team of the gameweek's competition, and no row of any other |
| FantasyStore.Store.ScoreGameweek | fantasy/services.py:183-283 | The two loops over players and teams, in any order of rows and whatever was stored before, leave exactly the records, states and scores that the pure function `ScoreSet` gives, and touch nothing else |
| FantasyStore.AddStatistics | fantasy/services.py:194-207 | The statistic loop leaves the base points and the breakdown that the record of the player consists of; what these are is stated by `PointsLaws.BaseIsBreakdown`, `LineExplained` and `LinesCounted` |
| FantasyStore.Store.AddUp | fantasy/services.py:222-263 | The starter loop leaves the sum of the starters' points, the captain's bonus counted once, and one breakdown line a starter |
| FantasyStore.Store.ChooseCaptain | fantasy/services.py:225-236 | Nobody leads without a marked captain; with one, the first row marked captain leads, unless the rule is on, that player was absent, and the first row marked vice-captain belongs to one who was not: then the vice-captain leads and the fallback is flagged |
| ScoreLaws.ChoiceDetermined | fantasy/services.py:225-236 | This description by rows has exactly one solution, and the score uses it |
| FantasyStore.Store.ScoreAffected | fantasy/tasks.py:101-163 | The loop scores every gameweek with an affected fixture that is not FINALIZED, in any order, with the result of scoring them all at once; scored plus skipped is the number of gameweeks reached, and the third count is the number of fixtures when none was reached |
| FantasyStore.Store.ScoreEach | fantasy/views.py:1416-1420 | Scoring gameweeks one after the other, in any order, is scoring the set of them |
| FantasyStore.Store.CreateTeam | fantasy/serializers.py:227-267 | A team is created exactly when registration is open, the squad is legal and the table constraints hold; its budget is the initial one less the prices, and each row is bought at the present price |
| FantasyStore.Store.ReplaceLineup | fantasy/services.py:147-168 | Rewriting the rows by player changes the flags of each member to those submitted for it and nothing else, exactly when the squad is legal and has the same members |
| FantasyStore.Store.SetLineup | fantasy/views.py:457-472 | A lineup is accepted exactly when the lowest-numbered editable gameweek is not locked and the replacement is |
| FantasyStore.Store.MakeTransfer | fantasy/views.py:474-535 | The transfer with its row, the exchanged selection, the budget and the accounting row, carried out exactly when the machine's step is; that condition, column by column, is `Requests.TransferExactly` |
| FantasyStore.Store.PreviewTransfer | fantasy/views.py:546-604 | A preview runs the same checks, announces the penalty that confirming would charge, and at most creates the accounting row |
| FantasyStore.Store.Transition | fantasy/views.py:235-251 | The allowed transitions and nothing else change the status |
| FantasyStore.Store.Finalize | fantasy/views.py:271-289 | Only a scoring gameweek whose fixtures are all over is scored and finalized |
| FantasyStore.Store.Correct | fantasy/views.py:849-862 | The correction row with the previous total, the overwritten record, and the rescoring |
| FantasyStore.Store.EditStatistic | fantasy/views.py:1406-1420 | A corrected statistic rescores every gameweek with its fixture, finalized or not |
| Requests.TransitionExactly | fantasy/views.py:235-251 | A gameweek moves one stage on, from LOCKED also straight to SCORING, and back by one from SCORING and FINALIZED, and in no other way; nothing but the status changes |
| Requests.FinalizeExactly | fantasy/views.py:271-289 | Finalizing sets the status if and only if the gameweek is in SCORING and every fixture is over; otherwise it changes nothing |
| Requests.EndedCanBeFinalized | fantasy/views.py:271-289 | A gameweek in SCORING can be finalized once each of its fixtures has ended |
| Requests.RecalculateMoves | fantasy/views.py:264-270 | Recalculating moves a LOCKED or LIVE gameweek to SCORING and no other |
| Requests.TaskReaches | fantasy/tasks.py:101-163 | The task brings every gameweek with a listed fixture up to date unless it is FINALIZED, and leaves the rows of all others alone |
| Requests.StatisticReaches | fantasy/views.py:1402-1420 | A corrected statistic brings every gameweek with its fixture up to date with the new value |
| Requests.FactsStayUnique | discovery/models.py:563-567 | No run records the same type for the same participant of the same match twice |
| FantasyEngine.Perform | fantasy/views.py:457-535 | Any request, known or unknown identifiers, carries the store exactly to the next state of the state machine and keeps the invariant |
| FantasyEngine.PerformAll | fantasy/views.py:235-1437 | Any sequence of requests carries the store to the end of the corresponding run, so every law about runs is one about the store |
| Scoring.ScoreUnion | fantasy/services.py:183-283 | Scoring two sets of gameweeks one after the other is scoring their union |
| Scoring.ScoreIdempotent | fantasy/services.py:183-283 | Scoring twice equals scoring once |
| Scoring.ScoreCommutes | fantasy/tasks.py:142-163 | The store after rescoring does not depend on the order of the gameweeks |
| Scoring.ScoreForgets | fantasy/services.py:183-283 | Whatever earlier scorings left in the records and scores of a gameweek has no influence on scoring it again |
| Scoring.ScoreFrame | fantasy/services.py:183-283 | Scoring changes no record, state or score of another gameweek |
| ScoreLaws.ScoreDecomposes | fantasy/services.py:222-281 | The final points of the breakdown add up to player points plus captain's bonus, the total is that less the penalty, and at most one line is flagged as captain |
| ScoreLaws.FallbackExactly | fantasy/services.py:225-236 | The vice-captain leads if and only if the rule is on, the captain did not take part and the vice-captain did |
| ScoreLaws.SelectionOrderFree | fantasy/services.py:219-282 | The order in which selections are read changes no total and not the choice of captain, and arranges the same breakdown lines |
| ScoreLaws.StatisticOrderFree | fantasy/services.py:190-214 | The order of the statistics does not change a player's points |
| ScoreLaws.RuleOrderFree | fantasy/services.py:186-189 | Nor does the order of the rules, as long as no two applicable ones have the same upper-cased type |
| TransferLedger.PriceOutIsLastPrice | fantasy/views.py:519-527 | In a log that replays, every player is sold at the price of the latest earlier purchase, or at the creation price |
| TransferLedger.HoldingsExchange | fantasy/views.py:528-530 | Exchanging one selection exchanges one player and one purchase price |
| SeasonFrames.StepFramed | fantasy/views.py:235-862 | For every table, the actions that can touch it; all others leave it exactly as it is |
| SeasonRuns.StepKeeps | fantasy/views.py:235-862 | Every action keeps the invariant: foreign keys, legal squads, transfer logs that explain the teams, closed-form accounts and corrections that are in force |
| SeasonRuns.RunKeeps | fantasy/views.py:235-862 | So does every run |
| SeasonLaws.BudgetConserved | fantasy/views.py:493-535 | In every reachable state the remaining budget and the purchase prices add up to the initial budget |
| SeasonLaws.LogExplainsTeam | fantasy/views.py:493-535 | In every reachable state, replaying a team's transfer rows from its creation gives exactly its players, their purchase prices and its budget, and explains every price out |
| SeasonLaws.PenaltyClosedForm | fantasy/views.py:517-534 | After k transfers of a team in a gameweek, in any interleaving, k are used and the penalty is the fee times the excess over the free ones, which is also the sum over the rows |
| SeasonLaws.SquadsStayLegal | fantasy/models.py:277-292 | Every reachable team has a squad of legal shape with exactly one captain and one vice-captain in the whole squad, both starters and different |
| SeasonLaws.ScoresIgnoreRowOrder | fantasy/services.py:219-236 | So in every reachable state the choices made by taking the first marked starter do not depend on row order, and row order only arranges the breakdown lines |
| SeasonLaws.LockIsForever | fantasy/services.py:128-132 | Once a gameweek is locked it is locked in every later state, and its transfer rows, used count and penalty no longer change |
| PoolLaws.RunsStaySolvent | fantasy/views.py:493-531 | In every run in which no pool edit lowers a price, no budget is ever negative |
| PoolLaws.SquadsStayAcceptable | fantasy/services.py:70-125 | In every run in which no pool edit raises a price or withdraws a player, every squad would pass the whole check again |
| PoolLaws.FixedPoolKeepsSquadsValid | fantasy/services.py:70-125 | So both hold in every run without pool edits |
| PoolLaws.TransferBudgetBound | fantasy/views.py:493-516 | With edited prices the budget after a transfer is at least the squad's present value less what was paid for it, and non-negative exactly when the old budget and the price once paid cover the new player |
| CorrectionLaws.CorrectionTakesEffect | fantasy/services.py:210-214 | A correction sets the player's total if and only if no tied correction with a larger identifier outranks it with another value |
| CorrectionLaws.CorrectionSticks | fantasy/views.py:849-862 | The corrected total survives every run without a further correction of that record |
| CorrectionLaws.CorrectionsChain | fantasy/views.py:857-861 | With increasing creation times, each correction starts from the value the one before it set |
| CorrectionLaws.CorrectionIsLinear | fantasy/services.py:219-282 | In a freshly scored gameweek a correction by d moves every team by 0, d, or d times the multiplier, and no choice of captain |
| CorrectionLaws.ScoringRefreshes | fantasy/services.py:183-283 | After a scoring the stored rows are what scoring would give |
| GameweekLaws.FinalizeIsComplete | fantasy/views.py:271-289 | The finalize action leaves a gameweek whose fixtures are over and whose rows are up to date |
| GameweekLaws.TransitionChecksNothing | fantasy/views.py:239-250 | After a transition to FINALIZED the fixtures are over, and the rows up to date, exactly when they were before |
| Freshness.StepStaysFresh | fantasy/services.py:183-283 | An up-to-date gameweek stays so under every action but a team, lineup or transfer of its competition and a new statistic or appearance in its fixtures |
| Freshness.RunStaysFresh | fantasy/services.py:183-283 | And under every run without one |
| Freshness.FinalizedUpToDate | fantasy/views.py:239-250 | A bare transition to FINALIZED leaves an up-to-date record if the gameweek was scored at some point and nothing has fed it since |
| GameweekLaws.StepFinalMeansOver | fantasy/views.py:235-289 | One step keeps "FINALIZED means that all fixtures are over" if and only if it is not such a transition with an open fixture |
| GameweekLaws.FinalMeansOverInRuns | fantasy/views.py:235-289 | Hence it holds in every run without one |
| GameweekLaws.TaskSparesFinal | fantasy/tasks.py:143-149 | The rescoring task leaves every row of a FINALIZED gameweek as it is |
| GameweekLaws.FinalRowsStand | fantasy/views.py:235-289 | The rows of a FINALIZED gameweek stand in every run that does not transition, recalculate or correct it or one of its statistics |
| LockedScores.LockedScoreMoves | fantasy/services.py:219-282 | Rescoring an up-to-date locked gameweek after any transfer for another one moves the team by the difference in worth of the exchanged row and of the leader's bonus, with the leader in closed form over who took part; the score stands exactly when they cancel |
| LockedScores.UnmarkedMove | fantasy/services.py:219-282 | For a player without a mark it stands exactly when the row is on the bench or the two players earned the same |
| LockedScores.LineupMovesLockedScore | fantasy/views.py:457-472 | After a lineup for the next gameweek it moves the team by the points of those who came in, less those of who went out, and by the change of the leader's bonus |
| LockedScores.TotalIsWorth | fantasy/services.py:219-282 | The total of a led squad in closed form: the starters' points, the leader's bonus, less the penalty |
| Witnesses.FinalizedUnplayed | fantasy/views.py:239-250 | A run that finalizes a gameweek with its fixture unplayed and its rows not up to date |
| Witnesses.BudgetTurnsNegative | fantasy/views.py:493-516 | A run that leaves a team with a budget of minus three |
| Witnesses.SettledReached | fantasy/views.py:264-270 | A run to a locked, up-to-date gameweek |
| Witnesses.LockedScoreMovesHere | fantasy/services.py:219-282 | From there a transfer and a recalculation move the team's score in the locked gameweek by six |
| Witnesses.TiedCorrectionLost | fantasy/services.py:210-214 | A run in which the second of two simultaneous corrections is not applied |
| Witnesses.LaterRegistrationFirst | fantasy/views.py:147-167 | A run with two teams level on points in which the one registered later is ranked first under the default rules |
| BonusWitness.BonusDecides | fantasy/views.py:147-167 | A run with two teams whose players earned the same, in which the captain's bonus puts the one with the larger identifier first |
| TableLaws.ScoresAddUp | fantasy/services.py:264-282 | In every reachable state each stored total is player points plus captain's bonus less the transfer penalty |
| TableLaws.PublishedTable | fantasy/views.py:147-167 | In every reachable state a table has one numbered row for each of its teams; its points are the sum over the gameweeks of the stored player points and captain's bonuses, less its penalties, which are the sum of the stored ones; and each row stands before all later ones by the first configured column in which they differ, then by identifier |
| TableLaws.WhoIsShown | fantasy/views.py:147-150 | In every reachable state the leaderboard shows exactly the teams of the competition with a stored score, and a league's table exactly those of its members |
| TableLaws.RulesMean | fantasy/services.py:30-39 | The comparison, rule by rule in the columns: more points first, fewer penalties first, earlier registration first |
| TableLaws.RulesInUse | fantasy/services.py:24-28 | Unsupported rules can be struck out, supported ones stand as configured, and without any the default rules apply |
| Ranking.RankCorrect | fantasy/services.py:24-43 | The ranking is a permutation numbered 1, 2, 3, ... in which each row beats every later one: at the first configured rule that tells them apart, or by team identifier |
| Ranking.KeysMeanRanks | fantasy/services.py:30-39 | Comparing the key tuples is comparing rule by rule |
| Ranking.RankCanonical | fantasy/services.py:41-43 | The ranking does not depend on the order of its input |
| Ranking.RankPart | fantasy/services.py:24-43 | Ranking some of the rows is striking the others out of the full ranking |
| Ranking.RankCounts | fantasy/services.py:41-43 | A rank is one more than the number of rows that beat it |
| Ranking.RegistrationDecidesNothing | fantasy/services.py:37-38 | Where rows carry no creation time the rule `earlier_registration` has no influence |
| Leaderboards.StandingsAgree | fantasy/views.py:799-819 | A league's table is the competition leaderboard restricted to the league's teams, in whatever order the two queries deliver their rows |
| RegistrationOrder.DroppingExactly | fantasy/services.py:24-43 | Ranking dated rows without their times gives the same order if and only if, among rows level on the rules before `earlier_registration`, the later rules and the identifiers put the earlier one first anyway |
| RegistrationOrder.DroppingHarmless | fantasy/services.py:24-43 | Where the rule is not configured, leaving the times out changes nothing |
| Leaderboards.OverallTableExactly | fantasy/views.py:147-167 | The published leaderboard is the one registration times would give if and only if registration was redundant in this sense |
| Leaderboards.DefaultRulesExactly | fantasy/views.py:147-167 | Under the default rules: if and only if of two teams whose stored totals add up to the same the earlier one has the smaller identifier |
| Leaderboards.OverallTableIgnoresRegistration | fantasy/views.py:147-167 | In any case the published order is by the other rules and the identifiers |
| KycProtocol.RunSound | kyc/models.py:215-220 | In every run attempts are numbered 1, 2, ..., at most the allowed number, only the newest can be open, and the status says where it stands |
| KycProtocol.DecidedStands | kyc/tasks.py:70-87 | No run of task steps, for any attempt and however often delivered, changes a decided verification |
| KycProtocol.OldAttemptsAreInert | kyc/tasks.py:86-87 | In every reachable state task steps for any attempt but the newest do nothing |
| KycProtocol.RestartIsIdle | kyc/tasks.py:184-225 | A second delivery of the start changes no status |
| KycProtocol.PeopleDecide | kyc/services/decision_service.py:103-190 | A run that ends VERIFIED contains an approval or the bypass, one that ends REJECTED a rejection by a person |
| KycProtocol.RetryTold | kyc/serializers.py:121-128 | What the fan is told about another submission is exactly what the submission accepts |
| KycProtocol.RetryIsPossible | kyc/views.py:99-140 | Whoever is asked to retry, in any reachable state, can submit, and the submission adds the next attempt |
| KycProtocol.FailureExactly | kyc/tasks.py:89-124 | A task failure of an open verification asks for a retry while an attempt is left, and goes to review after the last one |
| KycProtocol.StuckExactly | kyc/views.py:99-140 | A reachable case can no longer change, short of the bypass, if and only if a person has decided it, or nothing was started and no attempt is allowed |
| KycProtocol.CanBeVerified | kyc/views.py:549-597 | From every other sound state short of a rejection ordinary actions can still lead to a verification |
| KycProtocol.StepDescends | kyc/tasks.py:172-260 | Every action changes nothing or lowers the measure of attempts left and progress of the present one |
| KycProtocol.ChangesBounded | kyc/tasks.py:172-260 | However often tasks are redelivered, a case changes at most five times the allowed attempts plus one |
| KycEffects.FirstConcernDecides | kyc/services/decision_service.py:114-190 | The first concern in the order of the code names the verdict and its reason: a retake for unusable pictures while attempts remain, review for everything else; without a concern the reason says whether the three required checks passed |
| KycProtocol.RetryExactly | kyc/services/decision_service.py:116-171 | The engine asks for a retake exactly when nothing is suspicious, a picture is unusable and attempts remain |
| KycEffects.StartExactly | kyc/tasks.py:177-225 | A start takes effect exactly on a waiting or running attempt of a pending or processing case |
| KycEffects.FailureWrites | kyc/tasks.py:59-126 | A failure takes effect exactly on the attempt with the highest number of an undecided case, closes it if it was open, and asks for a retry or, after the last attempt, for review, with the reason in the column that belongs to it and the other one empty |
| KycEffects.DecisionWrites | kyc/services/decision_service.py:20-100 | A decision takes effect exactly on an open attempt with the highest number of an undecided case; review completes the attempt, a retake fails it, and the reason stands in the column of the verdict |
| KycEffects.SubmitWrites | kyc/views.py:99-140 | A submission takes effect exactly on a new case or one to be retried with an attempt left, and adds the next attempt |
| KycEffects.JudgeWrites | kyc/views.py:549-597 | A person's judgement takes effect on a case in review only; an approval clears both reasons, and a rejection carries one with the notes |
| KycCase.Verification.Submit | kyc/views.py:92-140 | The submission view follows the protocol |
| KycCase.Verification.MarkFailed | kyc/tasks.py:59-126 | The failure callback follows the protocol |
| KycCase.Verification.Start | kyc/tasks.py:177-225 | The first transaction of the task follows the protocol |
| KycCase.Verification.Decide | kyc/services/decision_service.py:20-190 | The decision service follows the protocol, with the guards against stale workers |
| KycCase.Verification.NewerExists | kyc/tasks.py:86-87 | The search finds whether an attempt with a higher number exists |
| KycCase.Verification.MayRetry | kyc/views.py:306-343 | The retry view says yes exactly when a retry is required and an attempt is left |
| OtpLimits.DailyLimitHolds | accounts/views.py:250-258 | In every run every closed window of one day holds at most the daily number of registration codes |
| OtpLimits.CodesAreSpaced | accounts/views.py:224-249 | In every run a delivered code is followed by another one only after the cooldown, and only the newest code is unused |
| OtpLimits.FailureLimitHolds | accounts/views.py:152-197 | In every run every closed interval of the lock length holds at most the allowed number of processed failures of an address since its last success |
| OtpLimits.StretchLimitHolds | accounts/views.py:152-197 | In every run, in any stretch of the history without a success of an address, a closed interval of the lock length holds at most the allowed number of its processed failures |
| OtpLimits.StretchLimitForAll | accounts/views.py:152-197 | All addresses together: in a stretch without a success, where every entry is a failure, a closed interval of the lock length holds at most the allowed number for each address in it |
| OtpLimits.CodeTakesAnyNumber | accounts/services/otp_service.py:61-67 | For every n there is a run with n wrong entries of one unexpired code within one instant, after which the code is still accepted |
| OtpLimits.CodeCountersStayZero | accounts/services/otp_service.py:64-67 | In every run the counters on the codes themselves stay at zero |
| OtpAcceptance.ResendExactly | accounts/views.py:215-258 | Another code is sent if and only if the account is registered and not verified, no unused code is younger than the cooldown and fewer codes than the daily limit were created within the last day; the new code has its full term and all earlier ones are used |
| OtpAcceptance.EntryExactly | accounts/views.py:134-197 | An entry adds a success and verifies the account if and only if the account is registered, the address is not locked, the digits match, and the newest unused code has not expired and its counter is below the limit; an entry of an address that is not locked is otherwise a failure, and no other one is processed |
| OtpAcceptance.EntryWrites | accounts/views.py:162-197 | An accepted entry uses up its code and deletes the address's counter; a failure touches no code and adds one to the failures that still count |
| OtpAcceptance.ExpiredCodesAreDead | accounts/services/otp_service.py:56-59 | From any state whose unused codes have all expired, no run of entries verifies the account or adds a success, whatever is typed from whatever addresses |
| OtpAcceptance.VerifiedInTime | accounts/services/otp_service.py:41-70 | In every run that ends verified, the right digits were entered within the term of one of the codes |
| OtpAccount.Registration.Resend | accounts/views.py:215-258 | A code is sent exactly when the account awaits verification, no recent code is unused and the daily count is below the limit |
| OtpAccount.Registration.Enter | accounts/views.py:134-197 | An entered code follows the protocol: lock, success that deletes the counter, or failure that counts and rolls the code back |
| OtpAccount.Registration.VerifyCode | accounts/services/otp_service.py:41-70 | The code is looked up, tested and written as the protocol says; when it is accepted, column by column, is `OtpAcceptance.EntryExactly` |
| IdentityAudit.AuditRows | accounts/identity_audit.py:54-99 | The single pass with three dictionaries leaves exactly the groups and lists of the rows |
| IdentityTruth.GroupedIndexes | accounts/identity_audit.py:56-83 | Every bucket is a whole class of rows in row order, no key has two buckets and every key that occurs has one |
| IdentityTruth.GroupedInOrder | accounts/identity_audit.py:56-84 | The buckets stand in the order in which their keys first occur among the rows |
| IdentityTruth.CollisionsExactly | accounts/identity_audit.py:94-98 | The reported buckets are exactly the classes of two or more rows, one bucket a class |
| IdentityTruth.EmailCollisionsExactly | accounts/identity_audit.py:94-94 | The e-mail collisions are exactly the lists of two or more identifiers of all rows whose stripped and case-folded e-mail is the same |
| IdentityTruth.UsernameCollisionsExactly | accounts/identity_audit.py:95-95 | So are the user name collisions |
| IdentityTruth.PhoneCollisionsExactly | accounts/identity_audit.py:96-98 | And the phone collisions, of all rows whose stripped phone has the same canonical form, each under the mask of that form |
| IdentityTruth.BlockingExactly | accounts/identity_audit.py:38-51 | The audit blocks if and only if something is blank, a phone is invalid or not canonical, or two rows share an e-mail, a user name or a number |
| IdentityTruth.BlanksExactly | accounts/identity_audit.py:66-77 | The lists of identifiers name exactly the rows without an e-mail, without a user name and with an empty phone |
| IdentityTruth.InvalidExactly | accounts/identity_audit.py:78-81 | A note on an invalid phone stands for a row with a phone that has no canonical form, shown masked, and every such row has one |
| IdentityTruth.NoncanonicalExactly | accounts/identity_audit.py:83-92 | A note on a valid phone stands for a row whose stripped phone is not its canonical form, both shown masked, and every such row has one |
| IdentityAudit.MaskShows | accounts/identity_audit.py:20-24 | A mask shows stars and, of a value longer than four, the last four characters in their places |
| IdentityAudit.MaskHides | accounts/identity_audit.py:20-24 | A mask tells the length and, of longer values, the last four characters, and nothing else |

## Left out

- Requests, permissions, serialization, notifications, audit logs, mail and task queues: only acceptance and the change of state are modelled.
- KycProtocol.RestartIsIdle: says nothing of the start times that a second delivery writes again, because timestamps are not modelled.
- Rounding to the stored number of decimals, and column overflow other than a negative penalty: arithmetic is exact.
- Interleaving inside one request: every request is one atomic step, although not all of the rows it reads are locked.
- Administrators' direct edits of competitions, gameweeks, teams and rules: those fields are fixed; edits of pool rows are actions.
- The draft of a statistic row made by feeds is one action that adds a row; ingestion itself is not part of this model.
- A bench with missing and numeric orders raises a type error in the code; here it is a refusal.
- Upper-casing of statistic types is modelled for ASCII letters.
- Leagues: joining, leaving and capacity; the members of a league are a parameter of its table.
- The league members view, whose rows carry no penalties, and the gameweek leaderboard: both are instances of the ranking of arbitrary rows.
- CorrectionLaws.CorrectionsChain: is stated for increasing creation times; the tied case is decided by CorrectionLaws.CorrectionTakesEffect.
- OtpLimits.FailureLimitHolds: counts failures one after the other; requests that race for one counter row are not modelled.
- Comparison of codes, e-mail delivery and the identity check services are inputs of the actions that use them.
- Markets, wallets, ticketing, news, clubs and authentication are not part of this model.
