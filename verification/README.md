# A verified model of the game server's state machines

The server keeps each player's state in SQLite and changes it with deterministic reducers that run inside
transactions. This project models the reducers with the most state, branching and arithmetic in Dafny and proves what
they keep over whole runs. `dafny verify dfyconfig.toml` checks it.

Keyed lists of messages become sequences and maps of records, tables become maps and sequences of rows, and a reducer
that fails returns an error whose partial writes the enclosing transaction drops. Where the server updates something in
place the model is a class whose methods are proved equal to a specification function; the theorems are about that
function. Every lemma is marked `{:induction false}`: inductions are written out, and no proof leans on an automatic one.

| file | what it models |
|---|---|
| Prelude.dfy | options, results, 32-bit sums, counting in sequences, division |
| BattleModel.dfy, Timeline.dfy, TurnQueue.dfy | members, the turn queue as a value and as a mutable queue |
| Starvation.dfy, Roster.dfy, Panels.dfy, Opening.dfy | fairness, who is queued and who acts, the panel stream, the opening queue |
| Attack.dfy, Deeds.dfy, Commands.dfy | one action, one deed with the effect runtime around it, and what a command of the player does |
| Front.dfy | when an ally is in front, at the start of a wave and later |
| Fairness.dfy, Scheduler.dfy | how long an ally can be kept waiting; the request loop over enemies, lost turns and waves |
| Journal.dfy, Commits.dfy, Store.dfy | the transactions, what each writes table by table, and the store |
| Retention.dfy, Replay.dfy | pruning, and whole histories of requests |
| Migrations.dfy | opening a database, with crashes between commits |
| Growboard.dfy | growth boards, bulk release and reset |
| Exploration.dfy, Report.dfy | exploration runs, and what a battle reports to them |
| Housing.dfy, Odds.dfy, Dishes.dfy, Gifts.dfy, Counters.dfy | fixpoint, odds, accrual, friendship levels, counters |

Things the server calls but that are not modelled enter as parameters: the dice and damage formulas (`Roll`), the effect
runtime and enemy choices (`Fate`), the reducers inside a storage transaction (arbitrary functions), rule
tables, the clock, and which stale rows SQLite deletes first.

The effect runtime may rewrite hit points and any speed at each of the moments at which the server calls it. `Deeds.Tame` is
all that is assumed of it: members stay the same and in place, nobody dies of an effect or is revived by one, and hit
points stay between zero and the maximum; in the server effects only heal the living (src/state/combat/effects/runtime_apply.rs:302-326),
and upkeep is a separate step of the model. Where a statement also needs that no effect touches a speed it says `Deeds.Steady`.

Properties that turned out not to hold without a condition:

- The loop over turns does not always end with an ally to act. It halts for an ally that was in front before its upkeep;
  if the runtime then makes an enemy faster, every later request finds the enemy and is refused, whatever the command:
  `Scheduler.SpeedChangeCanLock`. A request finds an ally exactly when a living ally owns the least unit under the speeds
  in force (`Front.AllyFrontExactly`), and without speed changes the ally waited for is the one found (`Scheduler.SteadyAwaits`).
- A turn can be refused after its actor was chosen: exactly when, under the speeds in force at the deed, the actor no longer
  owns the least unit (`Deeds.DeedKeeps`, `Attack.TurnRefusedExactly`). Without speed changes only skills whose targets may
  include the actor can bring this about (`Deeds.SteadyDeed`).
- An ally does not always open a wave: when the fastest ally waits less than a tick and a living enemy is faster than every
  living ally, the enemy does, and only then (`Front.OpeningActorExactly`).
- A gathering step without points blocks an exploration for good: `Exploration.FinishableRoutes` has the exact condition.
- A board reset can be refused after panels that lower a number, because the walk takes the earlier ones back first:
  `Growboard.MixedSignsRefuseReset`. It can also be refused after panels paid in paid gems or character pieces, which buying
  accepts and the refund does not: `Growboard.UnreturnableRefusesReset`. `Growboard.ResetExactly` has the exact condition.
- A granted reset does not always pay back what the panels cost. Refunds are added up in 32 bits without overflow checks;
  a sum that wraps comes back short, or not at all when it wraps below one: `Growboard.WrappedRefundIsLost`. Everything comes
  back if and only if each entry of the bill fits 32 bits: `Growboard.ResetAccounts`, `Growboard.FullResetConserves`. The
  model is that of a build without overflow checks; with them the request stops instead.
- A retry is not recognised forever. It is while no prune picks its row (`Replay.RetryAnswered`), which holds for a day and
  255 further requests of the account (`Replay.RetryWithinADay`).
- A migration history may have gaps: any subset of 1..8 whose checksums match is completed.

## Model

| member | source | states |
|---|---|---|
| `Timeline.SortedPermutes` | src/state/combat/timeline.rs:549-565 | sorting yields an ordered permutation of the units |
| `Timeline.SortUnique` | src/state/combat/timeline.rs:549-565 | the sort key is total, so any library sort has one outcome |
| `Timeline.TurnKeepsSlots` | src/state/combat/timeline.rs:612-691 | a turn keeps the multiset of (member, number) placements, for the ally and the enemy rule |
| `Timeline.TurnShiftsOthers` | src/state/combat/timeline.rs:612-691 | the waits of all other members move by one common amount, so their pairwise differences stay |
| `Timeline.TurnNormalises` | src/state/combat/timeline.rs:612-691 | after a turn the queue is ordered, non-negative and its head waits 0 |
| `Timeline.PendingAhead` | src/state/combat/timeline.rs:637-675 | every unit a turn writes lands at least one tick after the acting moment |
| `Timeline.EnemyReturns` | src/state/combat/timeline.rs:637-691 | after an enemy's turn everything queued stays where it was at the acting moment, and the placement consumed comes back the skill's wait after the last of the enemy's remaining units; then all waits count from the least |
| `Timeline.AllyReturns` | src/state/combat/timeline.rs:637-691 | after an ally's turn its last unit waits the skill's wait from the acting moment, and the placement consumed comes back the default wait after the first of its units |
| `Timeline.DelayKeeps` | src/state/combat/timeline.rs:694-745 | a delay keeps placements and order and moves exactly the units of its member by exactly the delay |
| `Timeline.SlotLanding` | src/state/combat/timeline.rs:747-816 | a delay by slots is positive and lands between the neighbours it aims at; with a gap of two ticks or at the end exactly the intended units act before it |
| `Timeline.SlotDelayExactly` | src/state/combat/timeline.rs:747-790 | when a delay by slots has an answer, and that it lands half way into its gap or one tick past the last |
| `Timeline.RemovalKeeps` | src/state/combat/timeline.rs:818-839 | removal drops the units of the listed members and nobody else's |
| `TurnQueue.Queue.ConsumeTurn` | src/state/combat/timeline.rs:603-692 | refused exactly when the actor does not own the head or two to three units; otherwise the queue becomes the turn's, in which the actor comes back as EnemyReturns and AllyReturns say, and the move row names the placement consumed and where it landed |
| `TurnQueue.Queue.DelayMember` | src/state/combat/timeline.rs:694-745 | refused exactly when the member has other than two or three units; the new queue, and one reply row for each of its units in queue order, with the index it had, its placement, where that landed and its wait, not below zero |
| `TurnQueue.Queue.DelayBySlots` | src/state/combat/timeline.rs:747-816 | refused exactly where no positive landing exists; the new queue and the same reply rows |
| `TurnQueue.Queue.RemoveMembers` | src/state/combat/timeline.rs:818-839 | the loop of removals leaves the filtered queue; one reply row for each listed unit in queue order, with its placement and its index among the units left at that moment |
| `Starvation.TurnSpends` | src/state/combat/timeline.rs:603-692 | one turn of another member lowers the budget of a spared member |
| `Starvation.DelayKeepsBudget` | src/state/combat/timeline.rs:694-816 | delays of others never raise the budget of a spared member |
| `Starvation.RemovalKeepsBudget` | src/state/combat/timeline.rs:818-839 | removals of others do not either |
| `Starvation.DeathSpends` | src/state/combat/attack.rs:816-827 | removing the owner of the head, who died before acting, lowers the budget too |
| `Starvation.NoStarvation` | src/state/combat/timeline.rs:603-816 | no starvation: while a member is spared, the others take at most (their units) * (lag + 1) turns, over any mix of turns, delays, removals and speed changes |
| `Roster.NoStarvationByMember` | src/state/combat/timeline.rs:603-816 | the same in members: at most 3 * (lag + 1) * (living others) turns |
| `Fairness.ActSpends` | src/state/combat/attack.rs:35-377 | a whole accepted action of another member, with its breaks, shifts, deaths and turn, lowers the budget of a spared ally |
| `Fairness.BudgetWithinPatience` | src/state/combat/timeline.rs:603-816 | on a manned queue the budget is at most 3 * (lag + 1) * (living others) |
| `Roster.EarliestLiving` | src/state/combat/timeline.rs:841-881 | the search returns an eligible member with the least key, or nobody exactly when none is eligible |
| `Roster.EarliestPrecedes` | src/state/combat/timeline.rs:841-881 | the member found by the per-member search precedes every unit of every eligible member in the sort order |
| `Roster.CurrentActorOwnsHead` | src/state/combat/timeline.rs:841-885 | on a manned queue the current actor is the owner of the head unit |
| `Roster.TurnKeepsRoster` | src/state/combat/timeline.rs:603-692 | a turn keeps two or three units for each living member and none for the others |
| `Roster.DelayKeepsRoster` | src/state/combat/timeline.rs:694-816 | so does a delay |
| `Roster.RemovalKeepsRoster` | src/state/combat/timeline.rs:818-839 | so does removing the dead |
| `Roster.DelayKeepsHead` | src/state/combat/timeline.rs:694-816 | delaying somebody else leaves the head to its owner |
| `Roster.RemovalKeepsHead` | src/state/combat/timeline.rs:818-839 | so does removing somebody else |
| `Roster.TurnAllowedExactly` | src/state/combat/timeline.rs:612-633 | on a manned queue, under any speeds, a turn is granted exactly to the owner of the least unit |
| `Roster.SpeedChangeCanRefuse` | src/state/combat/effects/runtime_lifecycle.rs:283-292 | a speed change after the actor was chosen can make its turn refused |
| `Panels.AdvanceSlides` | src/state/combat/timeline.rs:18-68 | consuming n panels is the window opened n turns later |
| `Panels.CurrentPanelCycles` | src/state/combat/timeline.rs:3-68 | the panel of turn n of a wave is entry n of the cycle |
| `BattleModel.StatusExactly` | src/state/combat/model.rs:1001-1020 | a battle goes on while both sides have somebody alive; otherwise it is lost without allies, won without enemies |
| `Opening.InitialTimeline` | src/state/quest/lifecycle.rs:367-413 | refused exactly without a living ally; otherwise the sorted units that the opening rules ask for, and a manned queue |
| `Opening.OpeningIsManned` | src/state/quest/lifecycle.rs:367-413 | the opening gives each living member two or three distinctly numbered units with non-negative waits |
| `Attack.StrikesReported` | src/state/combat/attack.rs:68-296 | members outside the target list are untouched and each target changes as its own roll says |
| `Attack.ActionConservesHp` | src/state/combat/attack.rs:68-328 | the reported damage is the hit points lost, hit points stay in bounds, members live exactly while they have some, breaks are reported exactly when a gauge reaches zero |
| `Attack.ActionKeepsRoster` | src/state/combat/attack.rs:297-367 | an action keeps the roster; of the queue's checks only that of the turn can fire, and not when the actor is at the head and spares itself |
| `Attack.BeforeTurnKeeps` | src/state/combat/attack.rs:297-352 | hits, breaks, shifts and removals before the turn keep the roster, and the head's owner when it spares itself |
| `Attack.ActionQueue` | src/state/combat/attack.rs:297-352 | what an action without shifts leaves queued: each newly broken survivor pushed back by the offset, the dead gone, everybody else where they were |
| `Attack.ShiftsBeforeTurn` | src/state/combat/attack.rs:329-352 | with shifts: what they make of that queue for the living targets that were not missed, without the dead |
| `Attack.ShiftsInTurn` | src/state/combat/attack.rs:329-345 | shifts happen one after the other, so that a list of them is the chain of its parts |
| `Attack.TargetsInTurn` | src/state/combat/attack.rs:329-345 | so do the targets of one shift |
| `Attack.ActReturns` | src/state/combat/attack.rs:353-367 | the actor comes back by the rule of its side, at 57,600 over its speed, plus the skill's adjustment where that counts; a tool takes no turn |
| `Attack.TurnRefusedExactly` | src/state/combat/attack.rs:353-367 | the turn of an action is refused exactly when the actor does not own the least unit after its hits, shifts and removals |
| `Attack.Movable` | src/state/combat/attack.rs:329-345 | slot shifts apply once to each living target that was not missed |
| `Attack.HeadAllowed` | src/state/combat/timeline.rs:612-633 | the owner of the head of a manned queue may act |
| `Deeds.SelectTargets` | src/state/combat/timeline.rs:887-927 | refused exactly without a living member at the side aimed at, or when the one asked for is not there; single targets are the one asked for, whole-side skills take everybody living there, once |
| `Deeds.MostInjured` | src/state/combat/timeline.rs:929-946 | the living member of a side that has lost the most hit points, the least id among equals |
| `Deeds.DeedKeeps` | src/state/combat/attack.rs:862-1047 | for any speeds the runtime makes: a deed keeps roster, hit points and sides; which refusals are possible; and the turn is refused if and only if the actor was overtaken |
| `Deeds.DeedConservesHp` | src/state/combat/attack.rs:926-1010 | between what the runtime makes of the members before a deed and after it, the reported damage is what they lost, each target changes as its roll says, and nobody else does |
| `Deeds.DeedReturns` | src/state/combat/attack.rs:926-1010 | when the actor of a deed comes back, at the speeds that the runtime made before it |
| `Deeds.SteadyDeed` | src/state/combat/attack.rs:862-1047 | without speed changes only a skill that may aim at its own actor gets its turn refused |
| `Commands.CommandKeeps` | src/state/combat/attack.rs:490-742 | a skill or a series of tools keeps roster, hit points and sides; which refusals are possible, and that of the turn if and only if the actor was overtaken |
| `Commands.ToolTarget` | src/state/combat/attack.rs:560-582 | a tool for one ally goes to the most injured one, any other to the enemy that is due first; none exactly when that side has nobody alive |
| `Commands.ToolsInTurn` | src/state/combat/attack.rs:583-742 | tools are used in order, each from what the ones before it left, under an action number of its own |
| `Front.AllyFrontExactly` | src/state/combat/attack.rs:488-493 | a request finds an ally to act exactly when a living ally owns the least unit under the speeds in force |
| `Front.AllyOpens` | src/state/quest/lifecycle.rs:367-413 | when the fastest ally waits a whole tick an ally opens the wave, however speeds change before the first request |
| `Front.OpeningActorExactly` | src/state/quest/lifecycle.rs:367-413 | at the speeds the queue is built with an ally opens the wave, if and only if it is not the case that the fastest one waits less than a tick and an enemy outruns every ally |
| `Opening.AllPlaces` | src/state/quest/lifecycle.rs:367-413 | the opening queue holds exactly the units of the living: three for a boss or scaled enemy and two for anybody else, at the waits that speed, side and the fastest ally make |
| `Scheduler.SteadyAwaits` | src/state/combat/attack.rs:785-913 | without speed changes the ally that the loop halts for is in front for the next request |
| `Scheduler.SpeedChangeCanLock` | src/state/combat/attack.rs:785-913 | with them it need not be: the loop halts for an ally, and every later request is refused because an enemy is in front |
| `Scheduler.BattleState.Begin` | src/state/combat/lifecycle.rs:540-600 | a battle begins exactly when there is a living ally, a first wave with enemies and panels; it holds the entrants as the runtime leaves them, their opening queue and the first panels, and is sound, in battle, at turn 1 |
| `Scheduler.BattleState.Perform` | src/state/combat/attack.rs:862-1047 | a deed becomes the new state, or is refused with queue and panels as they were |
| `Scheduler.BattleState.EnemyTarget` | src/state/combat/attack.rs:938-952 | an enemy aims at itself, at its most injured comrade, at its provoker while an ally lives, or at the living ally that is due first; nobody exactly when that side is dead |
| `Scheduler.BattleState.ApplyAttackResults` | src/state/combat/attack.rs:35-377 | the loops over targets and shifts compute the action's specification, and store nothing when refused |
| `Scheduler.BattleState.NextWave` | src/state/combat/attack.rs:745-830 | a new wave keeps the allies as they ended the last one, and brings its enemies, panels and the queue of an opening, which is manned |
| `Scheduler.BattleState.StartTurn` | src/state/combat/attack.rs:785-860 | for any speeds: the member in front is found; a broken enemy is whole again, its gauge full, whether or not its turn is lost; hit points and life are those of the upkeep, nobody else changes, and the runtime then rewrites exactly these members; the dead leave the queue, the disabled spend their turn, and a lost turn advances the panels by one |
| `Scheduler.BattleState.TakeTurn` | src/state/combat/attack.rs:785-1047 | one pass, from what StartTurn describes: a lost turn, a halt for an ally that was in front, or the deed of the enemy by its chosen skill at the target it aims at; the state stays sound, panels advance with each turn, a spared ally comes closer, and a turn is refused only to an actor that was overtaken |
| `Scheduler.BattleState.Schedule` | src/state/combat/attack.rs:745-1047 | for any speeds the loop terminates, with the battle over or halted for an ally, and moves turns, actions and panels by the same count; in every wave a spared ally waits at most 3 * (lag + 1) * (living others) turns from the queue that the wave opened with, and the limit on actions cannot fire below their sum |
| `Scheduler.BattleState.PlayerActions` | src/state/combat/attack.rs:490-742 | the command has the outcome of its specification, where all tools are aimed before the first is used; n tools count n actions and one panel; which refusals are possible, and when the turn is refused |
| `Scheduler.BattleState.Attack` | src/state/combat/attack.rs:417-1047 | a whole request, for any speeds: refused as not an ally's turn exactly when none is in front; otherwise roster and hit points stay sound, total_turn moves by the panels consumed to 2 or more, action_number by the generated actions, and the end is a battle over or a halt for an ally, who is to act if no effect changed a speed; the waiting bound of the loop holds from what the command left |
| `Journal.ExecValid` | src/storage/battle.rs:66-156 | every transaction keeps mutation ids increasing and (account, request) unique |
| `Journal.ExecSparesOthers` | src/storage/battle.rs:66-342 | a request of one account leaves every row of every other account as it was |
| `Commits.AppliedExactly` | src/storage/battle.rs:80-156 | a request is applied if and only if its key is new and well formed, the player and the battle it needs are there, the reducer accepts and the constraints of the tables hold |
| `Commits.RefusedFor` | src/storage/battle.rs:80-120 | which error a new request is refused with, in the order of the checks |
| `Commits.KnownKey` | src/storage/battle.rs:80-97 | a known key gets the recorded reply for the same request, else a conflict |
| `Commits.CharactersUpserted` | src/storage/battle.rs:318-330 | after the upserts each listed character has the last value listed, and every other row is as it was |
| `Commits.StartsStayDistinct` | src/storage/battle.rs:120-149 | no two active battles ever share the id they were started under |
| `Journal.Lookup` | src/storage/battle.rs:80-92 | the replay query returns the row with the key, or none exactly when there is none |
| `Storage.Store.ApplyBattleStartReducer` | src/storage/battle.rs:66-156 | the transaction is exactly replay, refusal with nothing changed, or application; the tables written are stated one by one: the committed resources, home state and battle, one journal row with the reply, nothing else; and recovery then returns that reply |
| `Storage.Store.ApplyBattleAttack` | src/storage/battle.rs:159-241 | the same for attacks, which need an active battle: its blob and time, the home state and the journal row, nothing else |
| `Storage.Store.ApplyBattleFinish` | src/storage/battle.rs:244-342 | the same for finishes: the committed resources, home state and characters, the battle closed, the journal row, nothing else; a character id that is not positive fails the commit |
| `Storage.Store.ApplyGameplayReducer` | src/storage/mutations.rs:93-157 | the same for gameplay mutations: resources, characters and the journal row, nothing else |
| `Storage.Store.ApplyHomeReducer` | src/storage/mutations.rs:159-238 | the same for home mutations, with the home state; six routes are never applied during a battle |
| `Storage.Store.ApplyHomeRefreshReducer` | src/storage/mutations.rs:240-288 | a refresh succeeds exactly when the player exists, the reducer accepts and the character ids are positive; it writes resources, home state and characters, no journal row, and otherwise leaves everything as it was |
| `Storage.Store.ApplyGameplay` | src/storage/mutations.rs:291-335 | the same for precomputed mutations: the resources, a granted character with a positive id when it is new, the journal row, nothing else |
| `Storage.Store.ApplyGacha` | src/storage/gacha.rs:69-161 | the same for draws: resources, characters, one more use of the button and the journal row, nothing else |
| `Storage.Store.ApplyMemoria` | src/storage/mutations.rs:7-46 | the same over the other journal: the value of one existing character replaced and one row, nothing else |
| `Storage.Store.GameplayReplay` | src/storage/mutations.rs:48-78 | the probe answers exactly as the transaction with the same key would, for every kind of request |
| `Storage.Store.LatestBattleStartResponse` | src/storage/battle.rs:344-350 | the query returns the response of the newest start row |
| `Storage.Store.PruneExpired` | src/storage/journal.rs:22-51 | a prune removes a legal choice of stale rows from each journal and no row of any table of the model besides |
| `Storage.Store.SelectStale` | src/storage/journal.rs:22-40 | up to 128 stale rows, fewer only if there are no more |
| `Replay.RetryReplays` | src/storage/battle.rs:80-97 | after a request was applied and whatever followed, a retry changes nothing and gets the recorded reply, or a conflict if route or fingerprint differ, as long as its row is not pruned |
| `Replay.RowStays` | src/storage/journal.rs:22-51 | a journal row stays through any history until a prune picks it |
| `Replay.RetryAnswered` | src/storage/battle.rs:80-97 | an applied request is answered with its recorded reply at once, and after any history none of whose prunes picks its row |
| `Replay.RetryWithinADay` | src/storage/journal.rs:22-51 | no prune of a legal history picks that row within a day and fewer than 256 further requests of the account, so a retry is answered throughout |
| `Replay.DuplicatesDoNotMatter` | src/storage/mutations.rs:107-156 | for any trace, removing the calls answered by the journal leaves the final tables, every other answer and the legality of every prune unchanged |
| `Replay.OnlyApplicationsChange` | src/storage/gacha.rs:85-160 | replays and failures leave all tables unchanged; replies of replays come from a row with the same key |
| `Replay.RecoverySafety` | src/storage/battle.rs:109-149 | in every reachable state an account is in battle exactly when the history says so, and the recovery query returns the response written by the start of that very battle |
| `Replay.EmptyStoreRecoverable` | src/storage/battle.rs:344-350 | an empty store is a starting point for recovery safety |
| `Replay.EventValid` | src/storage/journal.rs:22-51 | every event, prunes and refreshes included, keeps the keys of both journals |
| `Replay.LatestStartDrop` | src/storage/journal.rs:25-33 | deleting any rows but the latest start leaves the recovery query as it was |
| `Replay.PinsStay` | src/storage/journal.rs:25-33 | a prune leaves the same recovery rows protected for the next one |
| `Replay.StoreConverges` | src/storage/journal.rs:22-51 | enough prunes at one moment, whatever rows they pick, leave exactly the rows under a day old and among the newest 256, and the recovery rows; 257 per account bounds it even when time is not monotone |
| `Retention.PruneTerminates` | src/storage/journal.rs:22-40 | as many prunes as rows leave nothing stale |
| `Retention.PruneConverges` | src/storage/journal.rs:22-40 | with monotone applied_at the rows left are exactly the kept ones, whatever was picked |
| `Retention.CrowdStays` | src/storage/journal.rs:34-38 | a row behind 256 newer ones stays behind 256 newer ones until it goes |
| `Retention.AccountBound` | src/storage/journal.rs:34-38 | a fully pruned journal holds at most 257 rows per account |
| `Retention.OnePinPerAccount` | src/storage/journal.rs:25-33 | each account protects at most one row |
| `Retention.KeptExactly` | src/storage/journal.rs:22-40 | in figures: protected rows stay, and rows at most 86,400 seconds old with fewer than 256 newer ones of their account |
| `Retention.PickExactly` | src/storage/journal.rs:22-40 | in figures: what one prune may take is stale rows, 128 at most, fewer only when no more are stale |
| `Migrations.Connection.Migrate` | src/storage/migrations.rs:68-168 | the loop with its commits, each of which may be the last, computes the specification of one run |
| `Migrations.Connection.RunScripts` | src/storage/migrations.rs:108-166 | the loop over the eight scripts and the final look at the history |
| `Migrations.AttemptOpens` | src/storage/migrations.rs:68-168 | one run, wherever it dies: success only from a ready database and into the final state, no failure on a ready one, readiness never changes, rows are only added |
| `Migrations.OpensExactlyWhenReady` | src/storage/migrations.rs:68-168 | a run with enough commits succeeds if and only if the database is ready |
| `Migrations.FailureExplained` | src/storage/migrations.rs:79-166 | each error names what is wrong with the database left behind: the first version whose checksum differs, an applied version without one, or the versions found; scripts do not fail |
| `Migrations.Restartable` | src/storage/migrations.rs:68-168 | any number of runs, each crashing between any two commits, end in the same final state, or keep failing |
| `Migrations.RerunChangesNothing` | src/storage/migrations.rs:108-166 | a run on a finished database commits nothing and succeeds |
| `Migrations.StartingPoints` | src/storage/migrations.rs:79-89 | fresh and complete legacy databases are ready; a partial history without checksums is rejected unchanged, however often |
| `Growboard.PayAllAmount` | src/state/gacha/draw.rs:695-764 | paying a list of costs takes exactly their sum of each resource, gems counted free and paid together |
| `Growboard.PayExactly` | src/state/gacha/draw.rs:695-764 | a cost is paid if and only if it is nothing, or of a payable kind and at hand |
| `Growboard.FreeGemsFirst` | src/state/gacha/draw.rs:722-757 | over a whole list free gems pay for kind 1 as far as they go; bought ones pay for kind 2 and the rest of kind 1, and for nothing else |
| `Growboard.BuyAllAccounts` | src/state/character/rules_and_reducers.rs:291-317 | buying panels takes exactly their prices and adds exactly their effects |
| `Growboard.OrderAddsPanels` | src/state/character/rules_and_reducers.rs:291-317 | the ownership invariant: earlier pages wholly and the current page by its bits, grown by exactly the panels bought |
| `Growboard.ReleaseMovesForward` | src/state/character/rules_and_reducers.rs:220-290 | a granted order moves forward within the limit; page release is free on a full page; EX starts at its first panel; the neo board needs both others complete |
| `Growboard.DestinationExactly` | src/state/character/rules_and_reducers.rs:220-290 | where an order leads, and when it is refused, condition by condition |
| `Growboard.LimitIs` | src/state/character/rules_and_reducers.rs:220-258 | how far each board may be opened, and when the neo board is locked |
| `Growboard.ReleaseCounts` | src/state/character/rules_and_reducers.rs:291-318 | as many purchases are reported as the board has panels more than before |
| `Growboard.NumbersApart` | src/state/character/rules_and_reducers.rs:151-207 | which panels are known, and that two of them move the same number exactly when type and status agree, and for shared rates the role |
| `Growboard.EffectMoves` | src/state/character/rules_and_reducers.rs:151-207 | an effect moves its number by the signed value, if it stays between 0 and the 32-bit maximum, and no other |
| `Growboard.BulkSplits` | src/state/character/rules_and_reducers.rs:259-318 | bulk release equals filling the page, releasing the next one and ordering again from there, granted or refused alike |
| `Growboard.BulkIsPageByPage` | src/state/character/rules_and_reducers.rs:259-318 | an order to a later page has the outcome of the whole chain of fills and page releases, granted or refused alike |
| `Growboard.ResetAccounts` | src/state/character/rules_and_reducers.rs:322-421 | a granted reset takes back every effect, and of every price of every owned panel and the experience pays back never more than is due, and all of it if and only if each entry of the bill fits 32 bits |
| `Growboard.FeeIs` | src/state/character/rules_and_reducers.rs:343-357 | one reset item from the required level on, nothing below, the level being the highest whose experience is reached |
| `Growboard.ExpCoins` | src/state/character/rules_and_reducers.rs:358-375 | the coins for experience are the rate, in hundredths and rounded down, of what the items paid back are worth |
| `Growboard.SomethingToReset` | src/state/character/rules_and_reducers.rs:332-342 | there is something to reset if there is experience or, for the full reset, a board was begun |
| `Growboard.LevelResetKeepsBoards` | src/state/character/rules_and_reducers.rs:376-396 | resetting the level alone leaves boards and numbers as they are |
| `Growboard.ResetExactly` | src/state/character/rules_and_reducers.rs:332-396 | the full reset is granted if and only if there is something to reset, the fee is at hand, no number would leave its range on the way, and the wrapped sums that are positive are of supported kinds and have room; when the amounts due fit 32 bits, that means that every owned panel is returnable and there is room for all of it |
| `Growboard.AllWrap` | src/state/character/rules_and_reducers.rs:383-388 | the unchecked sums of the walk are the amounts due modulo 2^32 |
| `Growboard.PayoutTotal` | src/state/character/rules_and_reducers.rs:383-400 | what is paid out is never more than what is due, and all of it exactly when each entry fits 32 bits |
| `Growboard.RoomFits` | src/state/combat/lifecycle.rs:108-160 | the room needed for the amounts due is that for the prices of the owned panels and the pay-back for experience, resource by resource |
| `Growboard.FullResetConserves` | src/state/character/rules_and_reducers.rs:210-421 | after any history a full reset refunds never more than the boards cost since the last one, and exactly that if and only if each entry of its bill fits 32 bits, as when the whole does; every number and shared role rate is left at its start plus what came from elsewhere |
| `Growboard.ResetGranted` | src/state/character/rules_and_reducers.rs:322-421 | with panels that raise numbers the reset is never refused for the numbers: something to reset, the fee, and kinds and room of the payout decide |
| `Growboard.MixedSignsRefuseReset` | src/state/character/rules_and_reducers.rs:376-396 | from pristine boards a page is sold that raises a number and then lowers it by less; the reset is then refused though the fee is at hand |
| `Growboard.UnreturnableRefusesReset` | src/state/combat/lifecycle.rs:108-160 | from pristine boards a panel is sold for paid gems or character pieces; the reset is then refused though the fee is at hand |
| `Growboard.WrappedRefundIsLost` | src/state/character/rules_and_reducers.rs:383-400 | from pristine boards two panels are bought whose prices fit 32 bits one by one but not together; the reset is granted and pays back no coins |
| `Growboard.UndoExactly` | src/state/character/rules_and_reducers.rs:376-396 | undoing panels in order succeeds if and only if every partial sum leaves the number between 0 and the 32-bit maximum |
| `Growboard.CreditAllExactly` | src/state/combat/lifecycle.rs:108-160 | a refund is granted exactly when every positive entry is of a kind that rewards support and every total fits 32 bits |
| `Growboard.BillByKey` | src/state/character/rules_and_reducers.rs:358-397 | a refund has one entry for each kind and id, and is paid out by kind and then by id |
| `Growboard.CreditAdds` | src/state/combat/lifecycle.rs:108-160 | a reward adds its quantity to free gems, coins or one item, new or held; bought gems are never handed out |
| `Growboard.ExpItemsExact` | src/state/character/rules_and_reducers.rs:358-369 | the items paid back for experience are worth it up to a remainder below the smallest item |
| `Growboard.Account.Spend` | src/state/character/rules_and_reducers.rs:423-444 | the loop over costs, which FreeGemsFirst and PayExactly describe |
| `Growboard.Account.PanelEffect` | src/state/character/rules_and_reducers.rs:151-207 | one panel effect, refused below zero and for unknown kinds |
| `Growboard.Account.ReleasePanels` | src/state/character/rules_and_reducers.rs:210-319 | the nested loops compute the order's specification and count the purchases |
| `Growboard.Account.Walk` | src/state/character/rules_and_reducers.rs:376-393 | the page and panel loops of a reset undo exactly the owned panels of one board and add up their prices as 32-bit sums without overflow checks |
| `Growboard.Account.CreditRewards` | src/state/combat/lifecycle.rs:108-160 | the loop over the refund |
| `Growboard.Account.ResetCharacter` | src/state/character/rules_and_reducers.rs:322-421 | the reset with its loops computes the reset's specification |
| `Exploration.ActSound` | src/state/activities/exploration.rs:291-377 | every accepted action keeps: a pending battle is the current step, gathered is a proper part of the current points, experience and coins are those of the battles passed |
| `Exploration.ActWorks` | src/state/activities/exploration.rs:291-319 | an accepted gather or win takes one unit of remaining work, nothing else does |
| `Exploration.BeginSound` | src/state/activities/exploration.rs:262-290 | a started run satisfies the invariant |
| `Exploration.BeginsFresh` | src/state/activities/exploration.rs:262-290 | a run begins at its first step that is no talk, with a gauge of 500 and nothing else |
| `Exploration.FinishableExactly` | src/state/activities/exploration.rs:320-328 | an unblocked run is finishable if and only if no work remains |
| `Exploration.WayOut` | src/state/activities/exploration.rs:291-327 | from every point of an unblocked run some sequence of requests finishes it |
| `Exploration.WholeRun` | src/state/activities/exploration.rs:262-377 | the run is finishable after exactly (points + battles) accepted gathers and wins, with exactly their experience, coins and turns, however other actions interleave |
| `Exploration.FinishableRoutes` | src/state/activities/exploration.rs:291-327 | a route can be finished if and only if no gathering step lacks points |
| `Exploration.RunShares` | src/state/activities/battle.rs:101-117 | after any history in which each win took a turn, every participant has earned exactly the run's experience |
| `Exploration.ActShares` | src/state/activities/battle.rs:101-117 | the step of that invariant |
| `Report.OfBattle` | src/state/activities/battle.rs:74-123 | what a battle reports when it ends: a win was had in two turns or more, so the premise of the share invariant always holds |
| `Exploration.NextSound` | src/state/activities/exploration.rs:127-381 | at most one run with and one without story per account, and a run is pending exactly while its battle is the active one |
| `Exploration.HistorySound` | src/state/activities/exploration.rs:127-381 | the same after any history |
| `Exploration.NextTouches` | src/state/activities/exploration.rs:127-381 | what each event of an account changes: one run at most, and the active battle only where it says so |
| `Exploration.Runner.SkipTalk` | src/state/activities/street_expedition.rs:287-291 | the loop passes exactly the talks |
| `Exploration.Runner.Explore` | src/state/activities/exploration.rs:291-319 | gathering: accepted exactly for a free point of the step that is next, in its area; the last point moves on to the next step that is no talk |
| `Exploration.Runner.BattleStart` | src/state/activities/battle.rs:4-72 | starting the battle of the current step: accepted exactly in its area and when none is pending; only the pending mark and the place on the route change |
| `Exploration.Runner.BattleFinish` | src/state/activities/battle.rs:74-123 | a win of the pending battle: hit points, tools and gauge are those of the battle, each participant earns the experience, coins, turns and the place on the route move on |
| `Exploration.Runner.RetireBattle` | src/state/activities/battle.rs:139-143 | a fled battle is no longer pending, and nothing else changes |
| `Exploration.Runner.UpdateParty` | src/state/activities/exploration.rs:353-376 | a party change, refused while a battle is pending or after turns; nothing else changes |
| `Housing.Investigate` | src/state/activities/housing.rs:45-83 | one pass per row suffices to reach the least closed set of records above the starting ones |
| `Housing.Pass` | src/state/activities/housing.rs:51-77 | one pass adds only records that every closed set holds, and adds nothing exactly when it is done |
| `Housing.RecordsJustified` | src/state/activities/housing.rs:45-83 | a record is there if and only if it was before, or a row of its id stands in the house with all its conditions recorded |
| `Housing.StandsExactly` | src/state/activities/housing.rs:51-70 | a row stands when it is for this house, its product is placed and enough furniture of each kind is |
| `Housing.FurnitureHelps` | src/state/activities/housing.rs:51-70 | more furniture never disables a row |
| `Housing.RowOrderDoesNotMatter` | src/state/activities/housing.rs:45-83 | that set does not depend on the order of the rows |
| `Housing.EarlierInvestigationsDoNotMatter` | src/state/activities/housing.rs:45-83 | investigating earlier with less furniture ends in the same records |
| `Housing.CollectingOftenIsNeutral` | src/state/activities/housing.rs:97-130 | within a day, collecting often yields as many ticks as collecting once |
| `Housing.CollectedAfter` | src/state/activities/housing.rs:97-130 | beyond a day a collection yields a day's worth and starts afresh; within one the rest of the interval counts on; before one interval nothing happens |
| `Odds.DistributeIsFair` | src/state/gacha/draw.rs:516-533 | shares add up to the total, are at least one and differ by at most one; refused exactly for no cards or too few units |
| `Odds.RowTotal` | src/state/gacha/draw.rs:547-600 | a rate row hands out exactly its basis points, whatever the wish list |
| `Odds.PickupRowDealt` | src/state/gacha/draw.rs:565-600 | in a pickup row each pickup has 1,000 units if wished for, 250 if not; every other card of the row has its shares, even to one unit; nobody else has any. Kind 4 rows take the characters, others the memoria |
| `Odds.PickupWeighs` | src/state/gacha/draw.rs:571-590 | the weights of all entries with a pickup's id add up to that |
| `Odds.PlainRowDealt` | src/state/gacha/draw.rs:547-570 | in a plain row every card has one share, in order, even to one unit |
| `Odds.RowDealtExactly` | src/state/gacha/draw.rs:547-600 | when a row can be dealt out: a valid wish list, a card somewhere for every pickup, and a unit for every other card, of which there is one |
| `Odds.RowsInOrder` | src/state/gacha/draw.rs:547-606 | the odds of a gacha are those of its rows, one after the other |
| `Odds.WishCounts` | src/state/gacha/draw.rs:197-232 | a valid wish list names pickups, each once, as many as the gacha asks for |
| `Odds.PickupTotal` | src/state/gacha/draw.rs:571-590 | pickups take 250 units each and 750 more for each selected one |
| `Odds.WishesCost` | src/state/gacha/draw.rs:571-590 | a valid wish list takes 250 units per pickup and 750 more per wish |
| `Odds.GachaOddsExactly` | src/state/gacha/draw.rs:542-606 | odds exist if and only if every row can be dealt and the rows make 10,000 basis points; then they total 100,000 and leave no card without a chance |
| `Odds.WeightedGachaCards` | src/state/gacha/draw.rs:542-606 | the loops compute the odds |
| `Odds.Select` | src/state/gacha/draw.rs:608-622 | the subtracting loop finds the entry a draw lands on |
| `Odds.LandingExactly` | src/state/activities/story.rs:255-269 | a draw below the total lands on entry i exactly when it lies in entry i's interval, so none falls through |
| `Odds.DrawsPartition` | src/state/gacha/draw.rs:608-622 | entry i wins exactly weight(i) of the draws |
| `Odds.DrawsAreFair` | src/state/service/talk_and_resources.rs:676-688 | of the accepted 32-bit numbers entry i wins its weight times one common factor |
| `Dishes.ChargesAdd` | src/state/activities/story.rs:282-292 | charges telescope over any moment in between |
| `Dishes.DayCharges` | src/state/activities/story.rs:282-292 | a day charges each minute once |
| `Dishes.ChargedOnTime` | src/state/activities/story.rs:282-292 | a dish is charged at the second that begins its minute of the day, nine hours ahead of the clock |
| `Dishes.RefreshAccounts` | src/state/activities/story.rs:271-309 | what is charged goes into the stock as far as there is room, and the rest into idleness up to its threshold |
| `Dishes.OrderTakesOne` | src/state/activities/story.rs:312-342 | an order takes one of the dishes there are after a refresh and ends idleness |
| `Dishes.RefreshTwice` | src/state/activities/story.rs:271-309 | refreshing twice is refreshing once at the later moment |
| `Dishes.RefreshPathIndependent` | src/state/activities/story.rs:271-309 | any number of refreshes at any times equal one at the latest |
| `Dishes.LooksDoNotMatter` | src/state/activities/story.rs:271-336 | mere refreshes between orders change neither which orders are served nor any later refresh |
| `Dishes.NegativeStockDiffers` | src/state/activities/story.rs:293-304 | path independence needs a stock that is not negative |
| `Dishes.Status.RefreshDishes` | src/state/activities/story.rs:271-309 | the reducer computes the refresh |
| `Dishes.Status.Dish` | src/state/activities/story.rs:312-342 | an order refreshes, takes a dish and clears idleness, or is refused |
| `Gifts.ProgressAccounts` | src/state/activities/gifts.rs:117-145 | total = thresholds passed + repetitions of the last + rest below the next threshold; the closeness is that of the last threshold passed, 1 before any, and one more for each repetition |
| `Gifts.ClosenessMonotone` | src/state/activities/gifts.rs:117-145 | closeness is monotone in the total, and smaller totals are accepted when larger ones are |
| `Gifts.GiveTwice` | src/state/activities/gifts.rs:104-166 | two requests give what one with both gains gives |
| `Gifts.GiftsPathIndependent` | src/state/activities/gifts.rs:104-166 | any split of the points into requests is accepted alike and gives the same state and rewards |
| `Gifts.EachRewardOnce` | src/state/activities/gifts.rs:146-166 | a history hands out each reward row up to the closeness exactly once |
| `Gifts.RewardsExactly` | src/state/activities/gifts.rs:146-158 | what is handed out are the rewards of exactly the rows above what was received and up to the closeness, in order |
| `Gifts.GiveExactly` | src/state/activities/gifts.rs:104-166 | the points add up, closeness and rest are those of the new total, and what was received counts on |
| `Gifts.Present.Execute` | src/state/activities/gifts.rs:104-166 | the reducer computes one step of that history |
| `Gifts.Present.Climb` | src/state/activities/gifts.rs:124-145 | the loop over the thresholds |
| `Gifts.Present.Award` | src/state/activities/gifts.rs:146-158 | the loop over the reward rows |
| `Counters.VisitSettles` | src/state/home/progression.rs:826-853 | one task's reconciliation sets it to its projection and moves nothing else |
| `Counters.PassSettles` | src/state/home/progression.rs:798-853 | after the event-less pass every projected task equals its projection and the client's copy agrees |
| `Counters.SecondPassQuiet` | src/state/home/progression.rs:798-853 | a second pass writes no task backed by items and quests alone |
| `Counters.TicksAgree` | src/state/home/progression.rs:689-758 | event ticks, with the saved totals or without them, only raise counts and keep the client's copy in agreement |
| `Counters.TickCounts` | src/state/home/progression.rs:730-757 | the count after an event: the projection where that is ahead or was reported, else the maximum or the 32-bit sum; condition 137 is never touched |
| `Counters.ProjectionIs` | src/state/home/progression.rs:653-687 | the projection: the most cleared of the listed quests, else the clipped sum of item and quest totals, else none |
| `Counters.SeenIs` | src/state/home/progression.rs:703-729 | events other than received items and cleared quests see no totals |
| `Counters.VisitMeasures` | src/state/home/progression.rs:826-836 | a task without a projection takes what is measured on the resources, and only upwards |
| `Counters.ProgressReconciles` | src/state/home/progression.rs:914-1034 | whatever ticks came before, the final pass leaves every projection exact |
| `Counters.PassSucceeds` | src/state/home/progression.rs:642-651 | the pass fails only for a task whose row is missing |
| `Counters.DoubleTickTakenBack` | src/state/home/progression.rs:745-757 | a tick on an up-to-date task overshoots and is taken back |
| `Counters.Progress.Reconciliation` | src/state/home/progression.rs:798-853 | the loop with its cached totals computes the pass, the caches agreeing throughout |
| `Counters.Progress.CounterTotal` | src/state/home/progression.rs:653-687 | the most cleared of the listed quests, or the sum over counters, None for a counter from elsewhere |

## Left out

- 32-bit saturation and overflow: waits and hit points are unbounded integers, so their checked additions never fail and their sums never saturate. The bounds kept are those of refunds, of the numbers that panels move, of damage and of counter sums.
- The effect runtime itself: which effects are active and what they do. It enters as any function that keeps members, lives and the bounds of hit points; its own refusals, and conversions of panels by effects, are left out.
- Damage, break and healing formulas, hit rolls and enemy skill choice: inputs of an action.
- `Scheduler.BattleState.Begin`: what quest, schedule, tutorial step and party have to allow before a battle is built; the party and the waves are inputs.
- `Scheduler.BattleState.PlayerActions`: gauges, tool inventory and forced targets, which can refuse a command as well.
- `Scheduler.BattleState.Attack`: the gauge-filling mode, which takes no turn.
- `Exploration.Runner.BattleStart`: refusals of the general battle start that it calls.
- Burst and party gauges, the gauge-filling mode, tool inventory, forced targets, formation checks and skill selection by type.
- The hard-coded queues of the tutorial battle, and replies, previews and setups built from the state.
- The decoding of a skill's effects into slot shifts: a shift is a natural number here.
- Home state as JSON, its version wrapper, foreign keys between tables, sessions and grants, and the other columns of memoria_deltas.
- Scripts of a migration: each adds its version row and fails only without a history table; the tables it creates are not modelled. The reported highest version is the whole set of versions found.
- Panel bits as an integer: a set of indexes, so a request with a negative or too large mask is one with an index beyond the page. Missing rows of the board, page and panel tables.
- Kinds of refusals in a reset: a refund of an unsupported kind and an invalid request are told apart, but which comes first in a list with both follows the sorted order of the refund.
- Neo boards in a reset: the server does not reset them, and neither does the model.
- `Storage.Store.PruneExpired`: deletions from auth_grants and sessions in the same transaction are not modelled.
- Exploration routes are an input; the weighted choice that draws them is `Odds.LandingExactly`. Resolving a quest from an area, charging a quest, the reward roll at the finish and the skip route.
- `Exploration.RunShares`: requires a party without duplicate characters, which the party resolution provides.
- Expedition items and supplies: their counts run to the claim time while the stored start moves by whole ticks only.
- The gift's points from tool quality; a request gains a non-negative number of points. Closeness rows of one present are taken to be distinct and to start at 1 or above.
- Eligibility of dishes and gifts by period, key quests and tasks.
- Missions, periods and reset times around the loop over total tasks, multi missions, and the battle and synthesis progress.
- The growboard and exploration calls into missions, rewards and character experience of other modules.
- HTTP, routing, encryption, assets, configuration and logging.
