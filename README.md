# Poker tracker statistics engine, in Dafny

This project models the statistics engine of a PokerTH hand tracker. The tracker
reads PokerTH's SQLite hand logs (one `.pdb` file per session) and computes one
record of sixteen counters per player:

- hands played;
- VPIP and PFR hands;
- bets and calls, which give the aggression factor;
- opportunities and made counts for 3-bet, c-bet, fold to 3-bet and fold to c-bet;
- flops seen, showdowns reached and showdowns won.

Percentages are derived from the record. The counters are added into a persistent
store. A watcher follows the log of the table in play and shows `store + file −
baseline`. When tracking stops it commits only the part of the file that is not yet
in the store.

The project has seven modules:

- `Wrappers` (`wrappers.dfy`): the `Option` type.
- `Text` (`text.dfy`): ASCII lower-casing and substring containment. These model
  Python's `str.lower` / `in` on action verbs, and SQL `LIKE '%…%'`.
- `Models` (`models.dfy`): the `PlayerStats` record and its derived metrics. Metrics
  are exact `real` ratios. The aggression factor is `Finite(r)` or `Infinite`.
- `LogParser` (`log_parser.dfy`): the queries on the log's `Action` and `Player`
  tables. The tables are sequences of rows. The `Action` table is in increasing
  ActionID order, which is the order of its integer primary key. `ORDER BY` on other
  columns is an insertion sort by a total preorder.
- `Calculator` (`calculator.dfy`): the per-hand classifiers and the four counting
  loops of `calculate_player_stats`. Each loop is a method proved against a
  specification function: the number of hands (or actions) that satisfy the
  counter's predicate.
- `StatsStore` (`stats_db.dfy`): the `StatsDB` class. Its fields are the
  `player_stats` table and the `processed_logs` ledger, both as maps.
- `Watcher` (`log_watcher.dfy`): the `LogWatcher` class, with the fields the source
  updates (`current_log`, `last_action_id`, `current_table_players`, the current
  file's statistics and its baseline), and the merge protocol stated as values.

The log file being read is an input. A locked database (`OperationalError`) is a poll
that returns `None`. A file that cannot be imported is a file whose content is `None`.

Where the code and its description disagree, the model follows the code:

- Deltas are subtracted field by field without clamping. A counter can therefore
  become negative, and counters are `int`.
- The 3-bet analysis (`src/stats/calculator.py:220-231`) sets "a raise came before the
  player" for every raise verb before the player's first non-blind action. This
  includes the player's own blind posts when their text contains a raise word. It is
  not limited to raises by other seats.
- `import_all_logs` refreshes `last_action_id` of the followed file. It does not
  refresh the in-memory baseline (`src/watcher/log_watcher.py:335-337`).

## Model

| member | source | states |
|---|---|---|
| Models.NewPlayerStats | src/database/models.py:19-39 | a new record carries the given name and all sixteen counters are 0 |
| Models.NewRecordMetrics | src/database/models.py:41-102 | every percentage of a new record is 0 and its AF is `Finite(0)` |
| Models.Percent | src/database/models.py:42-46 | a guarded percentage: 0 when the denominator is 0, otherwise `r × opportunities = made × 100`, hence in [0, 100] when `0 ≤ made ≤ opportunities` |
| Models.Vpip | src/database/models.py:41-46 | 0 with no hands; otherwise vpip hands / hands × 100; in [0, 100] when the counters are ordered |
| Models.Pfr | src/database/models.py:48-53 | the same for pfr hands over hands |
| Models.ThreeBet | src/database/models.py:62-67 | the same for 3-bets made over 3-bet opportunities |
| Models.Cbet | src/database/models.py:69-74 | the same for c-bets made over c-bet opportunities |
| Models.FoldToThreeBet | src/database/models.py:76-81 | the same for folds to 3-bet over fold-to-3-bet opportunities |
| Models.FoldToCbet | src/database/models.py:83-88 | the same for folds to c-bet over fold-to-c-bet opportunities |
| Models.Wtsd | src/database/models.py:90-95 | the denominator is the flops seen, not the hands: showdowns / flops × 100, 0 with no flop |
| Models.Wsd | src/database/models.py:97-102 | the denominator is the showdowns: won / showdowns × 100, 0 with no showdown |
| Models.Af | src/database/models.py:55-60 | `Infinite` exactly when there are no calls and some bets; `Finite(0)` with no calls and no bets; otherwise bets / calls, non-negative when bets ≥ 0 |
| Models.InfiniteAboveFinite | src/database/models.py:59 | the infinite AF sorts above every finite AF |
| Models.OrderedMetricsInRange | src/database/models.py:41-102 | a record whose counters are ordered has every percentage in [0, 100] and a non-negative AF |
| Models.Sum | src/database/stats_db.py:246-267 | the field-wise sum of all sixteen counters, under the name of the added record |
| Models.Diff | src/watcher/log_watcher.py:276-282 | the field-wise difference of all sixteen counters, under the name of the first record |
| Models.SumDiffCancel | src/watcher/log_watcher.py:226-249 | subtracting the added record undoes the addition |
| LogParser.GetPlayers | src/database/log_parser.py:70-85 | the names of the `Player` table, each with exactly the set of games it appears in |
| LogParser.SeatsIn | src/database/log_parser.py:97-108 | `get_player_seats`: a game is a key exactly when the player has a row in it, and the seat stored is the seat of such a row |
| LogParser.Select | src/database/log_parser.py:123-136 | a `WHERE` filter keeps exactly the rows that satisfy every condition given, in ActionID order, and never more rows than the table |
| LogParser.ProjectMembers | src/database/log_parser.py:140-148 | projecting rows to `HandAction`s keeps exactly the projections of the rows |
| LogParser.GetActions | src/database/log_parser.py:110-148 | every action returned matches each filter given (game, hand, round), and every matching row is returned; the result is the projection of exactly the matching rows, in increasing ActionID order |
| LogParser.IncreasingDeterminedByMembers | src/database/log_parser.py:136 | two ActionID-ordered row lists with the same members are equal, so an `ORDER BY ActionID` answer is determined by its members |
| LogParser.SortBy | src/database/log_parser.py:165-170 | an `ORDER BY` result is sorted by the key and a permutation of its input |
| LogParser.SortByHand | src/database/log_parser.py:165-170 | ordering by (game, hand, ActionID) sorts the rows and keeps exactly the same rows |
| LogParser.HandOrderIsTotal | src/database/log_parser.py:169 | the (game, hand, ActionID) order is a total preorder |
| LogParser.SeatOrderIsTotal | src/database/log_parser.py:257 | the seat order is a total preorder |
| LogParser.PlayerActionRows | src/database/log_parser.py:150-215 | the player's actions are exactly the rows at the player's seat in the player's games (round 0 only for the preflop query), sorted by (game, hand, ActionID), and a permutation of that selection |
| LogParser.GetPreflopActionsByPlayer | src/database/log_parser.py:150-183 | every action yielded is preflop |
| LogParser.GetHandsPlayedByPlayer | src/database/log_parser.py:217-243 | the (game, hand) pairs with an action at the player's seat in that game, and nothing else; empty when the player has no game |
| LogParser.PlayersOfGame | src/database/log_parser.py:245-260 | the `Player` rows of one game, and only those |
| LogParser.MaxOf | src/database/log_parser.py:248-255 | `MAX(UniqueGameID)`: a member of the list that no member exceeds |
| LogParser.TablePlayerRows | src/database/log_parser.py:245-260 | no rows when there is no game; otherwise the rows of the highest game, sorted by seat, as a permutation |
| LogParser.Names | src/database/log_parser.py:260 | the name of each row, at the same position, so order and repeats carry through |
| LogParser.GetCurrentTablePlayers | src/database/log_parser.py:245-260 | empty when there is no game; otherwise the names of the highest game's `Player` rows taken in seat order, one per row |
| LogParser.GetLastProcessedActionId | src/database/log_parser.py:262-267 | 0 for an empty table; otherwise an ActionID of the table that no ActionID exceeds |
| LogParser.ActionRowsSince | src/database/log_parser.py:269-284 | exactly the rows with ActionID greater than k, in increasing ActionID order, as a suffix of the table |
| LogParser.SuffixIsSelect | src/database/log_parser.py:272-275 | the suffix after k equals the `WHERE ActionID > ? ORDER BY ActionID` selection |
| LogParser.SuffixMembers | src/database/log_parser.py:269-284 | the suffix after k holds exactly the rows with ActionID greater than k |
| LogParser.FirstAfter | src/database/log_parser.py:272-275 | the position that splits the ordered table into ActionIDs ≤ k and > k |
| LogParser.HandHasShowdown | src/database/log_parser.py:286-293 | true exactly when the hand has a round-4 action |
| LogParser.GetShowdownWinner | src/database/log_parser.py:295-306 | None exactly when no round-4 action of the hand contains "wins" (case-insensitively); otherwise the seat of such an action |
| Calculator.ScanOwnPreflop | src/stats/calculator.py:71-94 | the VPIP and PFR flags of a hand equal their definitions over the non-blind actions; PFR implies VPIP; a hand of blind posts sets neither |
| Calculator.PfrImpliesVpip | src/stats/calculator.py:14-18 | every PFR verb is a VPIP verb, so a PFR hand is a VPIP hand |
| Calculator.AnalyzeThreeBet | src/stats/calculator.py:204-245 | the loop computes the 3-bet signal: an opportunity when a raise verb comes before the player's first non-blind action, made when the player's own non-blind actions include a raise verb |
| Calculator.ScanFlopForCbet | src/stats/calculator.py:269-275 | the flop loop computes the c-bet signal |
| Calculator.AnalyzeCbet | src/stats/calculator.py:247-277 | an opportunity exactly when the flop has an action, made when the player's flop actions include a raise verb |
| Calculator.ReRaisedMonotone | src/stats/calculator.py:288-307 | once another seat has re-raised the player, it stays so for the rest of the preflop |
| Calculator.AnalyzeFoldToThreeBet | src/stats/calculator.py:279-309 | the loop computes the fold-to-3-bet signal: an opportunity when another seat raised after the player raised, made when a later non-raise action of the player after that re-raise is a fold |
| Calculator.LastOtherRaiser | src/stats/calculator.py:321-331 | None exactly when no other seat raised preflop; otherwise the seat of the last such raise, never the player's own |
| Calculator.ScanFlopForFold | src/stats/calculator.py:338-352 | the flop scan computes the signal of facing a bet from the raiser: it stops at the player's first action after that bet, and made means a fold |
| Calculator.AnalyzeFoldToCbet | src/stats/calculator.py:311-354 | no opportunity without another preflop raiser; otherwise the flop scan against the last such raiser |
| Calculator.MadeImpliesOpportunity | src/stats/calculator.py:204-354 | in each of the four analyses, made implies opportunity |
| Calculator.OfHand | src/stats/calculator.py:59-62 | the actions of one hand, kept in their order |
| Calculator.Grouped | src/stats/calculator.py:59-62 | grouping by hand: the keys are the kept hands that have an action, and each group holds exactly that hand's actions |
| Calculator.GroupByHand | src/stats/calculator.py:59-62 | the `defaultdict` loop builds the grouping of the player's preflop actions by hand |
| Calculator.GroupKept | src/stats/calculator.py:197-201 | the loop builds the grouping of the preflop actions restricted to the hands played |
| Calculator.GetAllPreflopActionsByHand | src/stats/calculator.py:193-202 | every seat's preflop actions, grouped by the hands the player played |
| Calculator.AnyAtSeat | src/stats/calculator.py:141-143 | true exactly when some action is at the seat |
| Calculator.CountedStep | src/stats/calculator.py:90-93 | visiting one more hand adds one to a counter exactly when the hand counts |
| Calculator.ClassifyPreflopHand | src/stats/calculator.py:71-107 | one hand of the first loop: VPIP, PFR and the 3-bet signal as specified, made implying opportunity |
| Calculator.TallyPreflopHand | src/stats/calculator.py:89-107 | one iteration keeps the first loop's invariant: each counter is its count over the hands visited |
| Calculator.CountPreflop | src/stats/calculator.py:71-107 | after the loop, VPIP, PFR and the 3-bet counters are the counts over the player's preflop hands, and the PFR hand set is exactly those hands |
| Calculator.ClassifyCbet | src/stats/calculator.py:113-118 | the c-bet counters' per-hand facts |
| Calculator.ClassifyFoldToThreeBet | src/stats/calculator.py:120-127 | the fold-to-3-bet counters' per-hand facts |
| Calculator.TallyRaisedHand | src/stats/calculator.py:109-127 | one iteration keeps the second loop's invariant |
| Calculator.CountRaisedHands | src/stats/calculator.py:109-127 | after the loop, the c-bet and fold-to-3-bet counters are the counts over the PFR hands |
| Calculator.ClassifySawFlop | src/stats/calculator.py:137-146 | the flop-seen fact of a hand |
| Calculator.ClassifyFoldToCbet | src/stats/calculator.py:148-155 | the fold-to-c-bet signal of a hand whose flop the player saw |
| Calculator.ClassifyShowdown | src/stats/calculator.py:157-173 | went to showdown and won, as specified; won implies showdown |
| Calculator.PlayedHolds | src/stats/calculator.py:145-155 | the flop and fold-to-c-bet counts count exactly the hands with those facts |
| Calculator.ShowdownHolds | src/stats/calculator.py:157-173 | the showdown counts count exactly the hands with those facts |
| Calculator.NoFlopNoPostflop | src/stats/calculator.py:145-173 | without the flop there is no fold-to-c-bet fact and no showdown |
| Calculator.TallyPlayedHand | src/stats/calculator.py:129-173 | one iteration keeps the third loop's invariant |
| Calculator.CountPlayedHands | src/stats/calculator.py:129-173 | after the loop, the flop, fold-to-c-bet and showdown counters are the counts over the hands played |
| Calculator.ActionsWithStep | src/stats/calculator.py:176-189 | one more action adds one to an aggression counter exactly when it is outside round 4 and its lowered text contains a word of the class |
| Calculator.CountAggression | src/stats/calculator.py:175-189 | `total_bets` and `total_calls` grow by the actions outside round 4 that contain "bets" or "is all in with", and "calls", respectively; nothing else changes |
| Calculator.PlayerStatsOf | src/stats/calculator.py:36-191 | the record carries the player's name |
| Calculator.CalculatePlayerStats | src/stats/calculator.py:36-191 | the four loops return exactly the specified record |
| Calculator.NoHandsAllZero | src/stats/calculator.py:46-53 | total hands is the number of hands played, and a player with none gets an all-zero record |
| Calculator.AllPlayerStatsOf | src/stats/calculator.py:356-362 | one record per name of the `Player` table, each under its own name |
| Calculator.CalculateAllPlayersStats | src/stats/calculator.py:356-362 | the loop over the players builds exactly that map |
| Calculator.StatsByName | src/stats/calculator.py:364-370 | one record per given name, each under its own name |
| Calculator.TablePlayerStatsOf | src/stats/calculator.py:364-370 | records for exactly the current table players |
| Calculator.StatsOfNames | src/stats/calculator.py:364-370 | the loop over the names builds exactly that map |
| Calculator.CalculateTablePlayersStats | src/stats/calculator.py:364-370 | the table players' records |
| Calculator.SubsetNoLarger | src/stats/calculator.py:110 | a subset of hands is no larger than the set |
| Calculator.CountedBelow | src/stats/calculator.py:104-107 | a counter whose facts imply another's, over a subset of its hands, is no larger |
| Calculator.CountedAtMost | src/stats/calculator.py:89-93 | no counter exceeds the number of hands it ranges over |
| Calculator.PreflopHandsPlayed | src/stats/calculator.py:49-62 | every hand with a preflop action by the player is a hand the player played |
| Calculator.PreflopFactsOrdered | src/stats/calculator.py:89-107 | per hand: PFR implies VPIP, and a 3-bet made implies its opportunity |
| Calculator.RaisedFactsOrdered | src/stats/calculator.py:115-127 | per hand: a c-bet or fold to 3-bet made implies its opportunity |
| Calculator.PlayedFactsOrdered | src/stats/calculator.py:145-173 | per hand: fold to c-bet made ⇒ opportunity ⇒ flop seen, and won ⇒ showdown ⇒ flop seen |
| Calculator.PreflopCountsOrdered | src/stats/calculator.py:89-107 | over any hands: PFR ≤ VPIP ≤ hands and 3-bets made ≤ opportunities ≤ hands |
| Calculator.RaisedCountsOrdered | src/stats/calculator.py:109-127 | over any hands: made ≤ opportunities ≤ hands for c-bet and fold to 3-bet |
| Calculator.PlayedCountsOrdered | src/stats/calculator.py:129-173 | over any hands: fold-to-c-bet made ≤ opportunities ≤ flops, and won ≤ showdowns ≤ flops ≤ hands |
| Calculator.StatsOrdered | src/stats/calculator.py:71-173 | a computed record has PFR ≤ VPIP ≤ hands, every made ≤ its opportunities, c-bet and fold-to-3-bet opportunities ≤ PFR hands, won ≤ showdowns ≤ flops ≤ hands, and no negative counter |
| Calculator.MetricsInRange | src/stats/calculator.py:36-191 | every percentage of a computed record is in [0, 100] and its AF is never negative |
| Calculator.VerbLabels | src/stats/calculator.py:13-30 | "bets", "calls" and "folds" are unchanged by lower-casing and none is a blind; "bets" is a raise, PFR and VPIP verb; "calls" is a VPIP verb but not a PFR or raise verb; "folds" is a fold verb |
| Calculator.WorkedHandCaller | src/stats/calculator.py:71-94 | in the worked hand (A bets, B calls, A bets the flop, B folds), B's call is VPIP and not PFR |
| Calculator.WorkedHandRaisedBy | src/stats/calculator.py:321-331 | in the worked hand, the last other raiser B sees is A |
| Calculator.WorkedFlopFacing | src/stats/calculator.py:338-352 | in the worked hand, B faces A's flop bet and folds |
| Calculator.WorkedHandFolder | src/stats/calculator.py:311-354 | in the worked hand, B has a fold-to-c-bet opportunity and makes it |
| Calculator.WorkedHandRaiser | src/stats/calculator.py:247-277 | in the worked hand, A's preflop bet is PFR and VPIP, and A has a c-bet opportunity and makes it |
| StatsStore.MergedInto | src/database/stats_db.py:243-270 | the table after `merge_stats(s)`: s's row is the field-wise sum with the stored row, or s itself when there is none; no other row changes |
| StatsStore.MergedIntoKeyed | src/database/stats_db.py:243-270 | merging keeps every row under its own name |
| StatsStore.MergeCommutes | src/database/stats_db.py:247-265 | merging two deltas in either order stores the same table |
| StatsStore.SumSwap | src/database/stats_db.py:247-265 | adding two records under one name to a stored row in either order gives the same row |
| StatsStore.SumCommutes | src/database/stats_db.py:268-270 | two records under one name added to an absent row give the same row in either order |
| StatsStore.MergeZeroDelta | src/database/stats_db.py:247-265 | merging an all-zero delta into a stored row leaves the table unchanged |
| StatsStore.MergedMap | src/database/stats_db.py:243-270 | merging a set of rows: the keys are the stored keys plus the merged ones |
| StatsStore.MergedMapStep | src/database/stats_db.py:243-270 | merging one more row extends the merged set by that row |
| StatsStore.MergedMapKeyed | src/database/stats_db.py:243-270 | merging rows under their own names keeps every row under its own name |
| StatsStore.MergedMapNone | src/database/stats_db.py:243-270 | merging no rows changes nothing |
| StatsStore.StatsDB.GetPlayerStats | src/database/stats_db.py:85-113 | the stored row, under the name asked for, or None when there is no row |
| StatsStore.StatsDB.GetAllPlayersStats | src/database/stats_db.py:115-140 | every stored row, each as `get_player_stats` returns it |
| StatsStore.StatsDB.SavePlayerStats | src/database/stats_db.py:142-190 | the player's row is overwritten with all sixteen given counters; nothing else changes |
| StatsStore.StatsDB.MergeStats | src/database/stats_db.py:243-270 | the table becomes `MergedInto(old table, s)`, the ledger is unchanged, and the merged row is returned |
| StatsStore.StatsDB.GetLastProcessedAction | src/database/stats_db.py:272-280 | the recorded ActionID, or 0 for an unknown path |
| StatsStore.StatsDB.SetLastProcessedAction | src/database/stats_db.py:282-293 | the ledger row of the path is overwritten; reading it back gives the ActionID and baseline just written |
| StatsStore.StatsDB.GetImportedFileStats | src/database/stats_db.py:295-306 | the stored baseline, or None for an unknown path or a row without a baseline |
| StatsStore.StatsDB.ClearAllStats | src/database/stats_db.py:308-313 | both tables become empty; every path then reads 0 and has no baseline |
| Watcher.Deltas | src/watcher/log_watcher.py:273-285 | one delta per player of the file, each under that player's name |
| Watcher.AggregateOne | src/watcher/log_watcher.py:222-255 | a player in both the store and the file shows `db + file − baseline` field-wise, a missing baseline counting as zero; a player in only one of them shows that record unchanged; a player in neither is absent |
| Watcher.AggregatedOf | src/watcher/log_watcher.py:214-257 | the view holds exactly the table players present in the store or in the file |
| Watcher.AggregatedIsCommitted | src/watcher/log_watcher.py:226-290 | when every baseline row is also in the store, a player's live view is the row the store would hold after `save_pending_stats` |
| Watcher.NoDoubleCount | src/watcher/log_watcher.py:273-290 | merging the baseline and later the deltas against it stores the same as merging the whole current file once |
| Watcher.NoDoubleCountAt | src/watcher/log_watcher.py:276-282 | the same, for one player that has a baseline row |
| Watcher.ZeroDeltasChangeNothing | src/watcher/log_watcher.py:281 | the deltas of a file against itself change nothing in a store that has its players |
| Watcher.SecondCommitAddsZero | src/watcher/log_watcher.py:281-290 | committing twice with no update in between adds nothing the second time |
| Watcher.ImportedPlayers | src/watcher/log_watcher.py:308-333 | the rows after importing the files, each under its own name |
| Watcher.ImportedLedgerPaths | src/watcher/log_watcher.py:324-327 | the ledger has a row for exactly the paths of the readable files |
| Watcher.ImportedLedgerLast | src/watcher/log_watcher.py:324-327 | the last readable occurrence of a path records that file's maximum ActionID and its statistics |
| Watcher.ImportedCount | src/watcher/log_watcher.py:303-339 | the number of files imported never exceeds the number of files |
| Watcher.ImportedNone | src/watcher/log_watcher.py:329-333 | nothing is counted exactly when no file can be read |
| Watcher.LogWatcher.constructor | src/watcher/log_watcher.py:36-60 | a new watcher follows no file and holds no statistics |
| Watcher.LogWatcher.SwitchToLog | src/watcher/log_watcher.py:120-149 | follows the path from ActionID 0 with empty file statistics and the stored baseline (empty when there is none), then processes the poll |
| Watcher.LogWatcher.ProcessUpdates | src/watcher/log_watcher.py:165-197 | no change without a followed file, when the file is locked, or when there is no action beyond `last_action_id`; otherwise the file's statistics, then `last_action_id` and the table players are updated; the baseline never changes |
| Watcher.LogWatcher.GetTableStats | src/watcher/log_watcher.py:202-212 | exactly the file's rows of the table players |
| Watcher.LogWatcher.GetAggregatedTableStats | src/watcher/log_watcher.py:214-257 | the loop builds exactly the live view, and the method writes nothing |
| Watcher.LogWatcher.SavePendingStats | src/watcher/log_watcher.py:265-290 | nothing happens without a followed file or with no statistics; otherwise each player's delta is merged, and the stored and in-memory baselines become the current statistics |
| Watcher.LogWatcher.MergeFileStats | src/watcher/log_watcher.py:321-322 | the store gains exactly the merge of the file's rows; the ledger is unchanged |
| Watcher.LogWatcher.ImportLog | src/watcher/log_watcher.py:312-333 | a readable file is merged and recorded with its maximum ActionID and baseline; a file that cannot be read changes nothing and is not counted |
| Watcher.LogWatcher.ImportLogs | src/watcher/log_watcher.py:308-333 | the loop leaves exactly the imported rows and ledger, and counts the readable files |
| Watcher.LogWatcher.ImportAllLogs | src/watcher/log_watcher.py:292-339 | both tables are cleared once, every readable file is imported, at most one count per file, and the followed file resumes from its recorded ActionID |

## Left out

- The user interface (Qt windows, overlay, settings), the command-line entry point, configuration and packaging are not part of this model.
- Qt plumbing of the watcher is not modelled: signals and their `emit`s, `QTimer`, `QFileSystemWatcher`, `start`/`stop`, the `request_*` slots, `force_refresh` and `get_current_stats`.
- `_find_current_log` picks the log by file modification time. The followed path and its content are inputs here.
- SQLite connections, WAL pragmas, schema creation, migrations, `refresh` and `close` are not modelled. A locked database (`OperationalError`) is a poll that returns `None`.
- An exception in the middle of importing a file is not modelled. A failing file is one whose content is `None`, so it is skipped before any merge.
- The import progress callback and the error message printed for a failing file are not modelled.
- The baseline is stored as a map, not as JSON text. Encoding and decoding are assumed to round-trip.
- Floating-point percentages, `round` and `to_dict` are not modelled. Metrics are exact `real` values, and AF's `float('inf')` is `Infinite`.
- `save_all_stats`, `get_session_info` and `get_player_seat` are not used by the engine and are not modelled.
- `calculate_stats_from_file` only opens a parser on a path and calls `calculate_all_players_stats`, which is `Calculator.CalculateAllPlayersStats`.
- LogParser.GetPreflopActionsByPlayer: stated only as round 0 on the projected actions. Which rows, and in what order, is stated on `PlayerActionRows`, which it projects.
- `get_all_actions_by_player`, `get_actions_since` and `get_player_seats` are plain projections of `PlayerActionRows`, `ActionRowsSince` and `SeatsIn`. Their contracts are stated on those members.
- `get_all_players_stats` returns rows ordered by `total_hands`. The model returns a map, which has no order.
- Calculator.ScanFlopForFold: requires the raiser's seat to differ from the player's. `AnalyzeFoldToCbet` only calls it with `LastOtherRaiser`, which never returns the player's seat.
