# boardgame-go, modelled and proved

A Dafny 4.11 model of the boardgame-go engine and of the protocols and games built on it, with machine-checked proofs of
what they keep. `dafny verify dfyconfig.toml` checks everything.

The engine's user code (moves, hooks, EndIf predicates, turn orders, plugins) is modelled as arbitrary total functions from
what a MoveContext lets it read to what it may leave behind: a new G, queued events, pushed moves, raised blocks, dropped
players, log entries and plugin state. Every theorem about the engine therefore ranges over all deterministic games.

## Layout

| files | what they cover |
|---|---|
| `Engine`, `Transitions`, `Reducer` | the engine as functions: data, `core/transitions.go`, and `core/reducer.go` with timeouts, setup, undo, redo and replay |
| `Laws`, `Reachable` | laws a game may obey, and the invariants every call of every match then keeps |
| `SetUpRules`, `MoveRules`, `EventRules`, `EndRules` | how a match begins, and what each move, event and end rule does to it, said without the engine's own functions |
| `Gates`, `ReplayFidelity`, `CascadeFifo`, `BlockLife`, `EventDrain`, `ActiveChains`, `TurnRotation`, `UndoBlind`, `UndoRedo` | the engine's main theorems |
| `PlainGames`, `LimitExamples`, `ChainExamples`, `OnceExamples`, `UndoExamples` | concrete games and whole matches of them, most of them matches in which an expected property fails |
| `Containers`, `InPlace`, `Isolation` | the same engine as it runs, on heap maps that states may share, proved to refine the functions and to write nothing it did not allocate |
| `MoveProtocol`, `DispatchEnds`, `Dispatch` | optimistic-concurrency dispatch as interleaved steps over one stored match, and the retry loop as a run of it |
| `Entities`, `Priority`, `PassOrder`, `Effects`, `Assignment`, `Combat`, `Validators`, `Zones`, `ZoneOrder`, `CardState`, `Shuffling`, `Economy` | the card-game modules: window, stack, triggers, combat, zones, payment |
| `Hearts`, `LoveLetter`, `LoveLetterRuns`, `LoveLetterRules`, `Stackduel`, `StackduelRuns` | three complete games as whole-run state machines |
| `HeartsRules`, `LoveLetterBook`, `LoveLetterShield`, `StackduelRules` | their rule books: what each accepted move does, and over whole runs |
| `HeartsTable`, `LoveLetterTable`, `StackduelTable` | their in-place form |

## What the proofs found

Each of these is a property one would expect of the code and that fails; the model follows the code, gives a concrete
failing case and proves exactly when the property holds.

- An active-player configuration that chains one with Revert set ends in an empty, non-nil active set, and every seat is
  refused (`MatchLocksEveryoneOut`, `ChainedRevertLocksEveryoneOut`, `DrainActiveExact`).
- A Revert install overwrites an outer PendingNext chain, which goes on only if the install's own Next is that chain
  (`RevertKeepsChainExactly`, `RevertRestores`, `MatchLosesChain`).
- TurnOrderOnce never ends its phase after an elimination (`OnceNeverEnds`, `OnceEndsExactly`).
- Eliminating the current player skips their successor unless nobody else is left (`RemovingCurrentSkipsSuccessor`), and a
  turn forced onto a player outside PlayOrder, and nothing else, takes the cursor off the current player (`ForcedNextExact`,
  `EventsKeepCursor`).
- Undo pops one log entry whatever was accepted since its snapshot. It takes back exactly the last move if and only if that
  move is undoable and wrote one entry (`UndoTakesBackExactly`), and restores the log if and only if the last entry is an
  undoable move (`UndoRestoresLogExactly`). A move marked not undoable is reverted together with the last undoable one, and
  the log no longer replays to the state (`IrreversibleMoveIsUndone`). Undo is one level deep (`UndoIsSingleLevel`).
- Undo is documented as per turn, but the end of a phase leaves the undo stack alone (`EarlierTurnIsUndone`,
  `UndoReachesTurn`).
- Redo leaves out the tag and the clock: it gives a move's result back if and only if it had neither
  (`RedoGivesBackExactly`), and a redone answer meets gates the answer was exempt from (`RedoAdmittedExactly`,
  `AnswerIsNotRedone`).
- Under optimistic concurrency a move that chains another is never written when alone and overwrites another's commit when
  not (`ChainedMoveAloneExhausts`, `LostUpdateExample`, `CommitInOrderExactly`).
- Dropping a player who has passed closes a priority window over one who has not (`DropOfPasserClosesEarly`,
  `DropSoundExactly`).
- Baskets that alias a counter, which their documentation allows, reserve the same funds twice and panic in the payment
  (`AliasedPoolsPanic`); the payment panics exactly when its greedy draw overdraws a counter (`PayWithGeneric`).
- A stale zone index after Remove lets MoveTo exceed a zone's capacity (`RemoveThenMoveOverfills`, `MoveOverfillsExactly`).
- A turn ended by force in the middle of a stackduel window leaves effects pending with no window open
  (`NextTurnExactly`, `ForcedEndStalls`, `ForcedEndExample`).
- Offered entity IDs of 2^53 and more can make the two block validators disagree (`LargeIDsDisagree`); the request's validator
  is sound if and only if no pair outside the offered ones has the float64s of one inside (`SoundExactly`).

Where code and documentation differ the code is followed: Hearts sets HeartsBroken on any heart played, not only on a
discard.

## Model

| member | source | states |
|---|---|---|
| Reachable.ActiveSetsNeverEmpty | core/transitions.go:439-700 | in every state of every match of a tame game (no configuration chains, through Next, one that has Revert set) the live active-player set and every Revert frame is nil or non-empty |
| Laws.DrainActiveExact | core/transitions.go:613-633 | once the set has emptied, draining leaves the live set and every frame nil or non-empty if and only if it does not install a PendingNext configuration that has Revert set |
| ActiveChains.ChainedRevertLocksEveryoneOut | core/transitions.go:613-700 | without that hypothesis the property is false: from any state and for any two seats, a chained Revert configuration restores an emptied non-nil map, and every seat is refused |
| ChainExamples.MatchLocksEveryoneOut | core/transitions.go:613-700 | a whole match of three moves in which that happens: afterwards every request is refused |
| ActiveChains.WireRoundTrip | core/ctx.go:64-113 | the JSON write and read of ActivePlayers gives back the same set if and only if it is not an empty non-nil one |
| ActiveChains.MatchesSurviveStorage | core/ctx.go:64-113 | so every state of every match of a tame game comes back from storage with the same active set |
| ActiveChains.RevertRestores | core/transitions.go:613-700 | for every game and nesting depth: a Revert install, any operations that end no turn or phase while the stack stays above, then the one that drains it, restore the outer set, counts, limits and stack exactly; PendingNext is afterwards whatever the last install of the bracket armed |
| ActiveChains.RevertKeepsChainExactly | core/transitions.go:637-700 | a Revert install drained at once leaves the state as it was, the outer chain included, if and only if the install's own Next is the outer PendingNext |
| ActiveChains.InterruptedChainIsLost | core/transitions.go:613-700 | a chain over two seats, interrupted over the first by a Revert install for a third: the first is back, and after it the set is nil and the second never gets to move |
| ChainExamples.MatchLosesChain | core/transitions.go:637-700 | a whole match of four moves in which that happens |
| ActiveChains.ActivePlayersInOrder | core/stage.go:165-186 | the backward loop builds the chain of one-player sets, each with the rest as its Next |
| ActiveChains.OneAtATimeInOrder | core/stage.go:165-186 | after j counting moves exactly player j / max is active with j % max moves made; after the last player's last move the set is nil and the chain gone |
| ActiveChains.OnlyHeadMayMove | core/reducer.go:603-616 | while a chain runs, the authorization gate admits its head and refuses everyone else |
| Reachable.CursorHolds | core/transitions.go:216-311 | in every state of every match with built-in orders over distinct seats, whoever is forced or removed: the cursor is on a seat, NumPlayers is at least the seats left, no call panics, and CurrentPlayer is PlayOrder[PlayOrderPos] if and only if CurrentPlayer is seated at all |
| TurnRotation.EventsKeepCursor | core/transitions.go:154-208 | every event keeps CurrentPlayer at PlayOrder[PlayOrderPos], except a turn forced onto a player outside PlayOrder |
| TurnRotation.RoundRobinRotates | core/turn.go:94-141 | although NumPlayers still counts the eliminated, a round-robin order moves the cursor to (pos+1) mod the seats left, and the phase goes on |
| TurnRotation.RemovingAnotherKeepsTurn | core/transitions.go:548-599 | eliminating another seat keeps the current player, their turn number and the cursor |
| TurnRotation.RemovingCurrentSkipsSuccessor | core/transitions.go:574-590 | in every built-in order, eliminating the current player moves the cursor twice, so the successor plays next if and only if nobody else is left |
| TurnRotation.ForcedNextExact | core/transitions.go:238-247 | a forced next player keeps the cursor right if and only if they are seated |
| TurnRotation.OnceEndsExactly | core/transitions.go:264-288 | asked at the last seat, TurnOrderOnce ends the phase if and only if nobody has been eliminated; else the first seat left plays again and nothing but the cursor changes |
| TurnRotation.OnceAdvances | core/turn.go:118-127 | from every other seat it moves the cursor to the next one |
| OnceExamples.OnceNeverEnds | core/turn.go:118-127 | a whole match of three, player 1 eliminated by a move in the first turn: after any number of further turns the phase is still on, players 0 and 2 alternating |
| OnceExamples.OnceEndsWhenFull | core/turn.go:118-127 | with nobody eliminated the same phase is over after three turns |
| Transitions.Install | core/transitions.go:637-700 | installing an active set touches neither queue, blocks, log nor StateID, and of the context only the set itself |
| Transitions.DrainActive | core/transitions.go:613-633 | draining the set touches of the context only the set, and neither queue, blocks, log nor StateID |
| Transitions.EnterStage | core/transitions.go:439-454 | entering a stage changes of the context only the active set, never drops a log entry, and queues no event unless a hook does |
| Transitions.LeaveStage | core/transitions.go:476-524 | leaving a stage changes of the context only the active set, never drops a log entry, and queues no event unless a hook does |
| Transitions.Advance | core/transitions.go:264-288 | asking for the next seat ends for every game though it and endPhase call each other, keeps queue, blocks, StateID and gameover, and only grows the log |
| Transitions.LeavePhase | core/transitions.go:315-369 | ending a phase ends for every game, keeps queue, blocks, StateID and gameover, and only grows the log |
| Transitions.FinishTurn | core/transitions.go:216-259 | ending a turn keeps queue, blocks, StateID and gameover, only grows the log, and keeps or wipes the undo snapshots |
| Transitions.Eliminate | core/transitions.go:548-599 | removing a player keeps queue, blocks, StateID and gameover, only grows the log |
| Transitions.DrainEvents | core/transitions.go:154-208 | a finished drain has no event left, keeps queue and blocks, and never drops a log entry or lowers StateID |
| Transitions.RunChained | core/transitions.go:109-149 | a chained move raises StateID by at most one and leaves context, queue, blocks and Revert stack alone |
| Laws.LeaveStageKeeps | core/transitions.go:476-524 | endStage keeps every invariant a game's laws promise, through the stage's Next, the departure and the drain |
| Laws.EliminateKeeps | core/transitions.go:548-599 | removePlayer keeps the same invariants, turn end and active-set strike included |
| Laws.HandleKeeps | core/transitions.go:154-208 | every kind of event keeps the invariants of whatever laws the game obeys |
| Laws.DrainEventsKeeps | core/transitions.go:154-208 | so does a whole event drain |
| EventRules.StageSet | core/transitions.go:439-454 | SetStage: the mover enters the stage with a fresh count under their old limits, every other seat stays as it was, and the stage's OnBegin runs on the state after |
| EventRules.StageSetWithLimits | core/transitions.go:457-473 | the same with limits: one that is given replaces the mover's own, one that is not stays |
| EventRules.StageEnded | core/transitions.go:476-524 | EndStage: OnEnd, then the stage that follows with its OnBegin or, when none does, out of the set with count and limits; the last to leave brings back the saved frame, else the chain's next configuration, else the ordinary turn; with no active set nothing happens |
| EventRules.ActiveSet | core/transitions.go:637-700 | SetActivePlayers, seat by seat: stage, no move made, limits of its own or the positive common ones; all of the old set is saved if the configuration reverts, and the chain is the configuration's |
| EventRules.SpentLeave | core/reducer.go:698-730 | after a counting move exactly the seats that have made all their moves leave, and the last to leave take the set with them |
| EventRules.TurnEnded | core/transitions.go:216-259 | a forced next turn: OnEnd on the old context, the named player on turn with no move made, the turn's active set in force over an empty stack, undo and redo gone, OnBegin on the new context |
| EventRules.PhaseChanged | core/transitions.go:315-382 | a phase gives way to another, named by the event or picked by Phase.Next, under any built-in order: the hooks of both ends in order, each on the G and log the one before left, the new order's first seat, the new active set over nothing |
| EventRules.PhaseGone | core/transitions.go:315-369 | a phase nothing follows: the game's own turns go on with the next seat, with an active set and OnBegin of their own |
| EventRules.GameOverSeen | core/reducer.go:311-326 | Game.EndIf is asked for whoever moved, and its result, shown to Game.OnEnd, ends the game before anything else can |
| EventRules.GameEnded | core/transitions.go:428-436 | EndGame sets the result, shows it to Game.OnEnd, and changes nothing else |
| EventRules.PlayerRemoved | core/transitions.go:548-599 | RemovePlayer, while others are left: the seat goes and, out of turn, nothing else changes but the cursor and the active set; they may not move again, and a set that was only theirs is none at all |
| EventRules.MoveChained | core/transitions.go:109-149 | RunMove runs the bare move on the present G within a budget of 32; success leaves its G, one more StateID and an entry of its own, failure leaves the state alone; what it queued stays queued either way |
| EventRules.InOrder | core/transitions.go:154-208 | the events of a batch are handled in the order they were queued |
| EndRules.MoveEndsTurn | core/reducer.go:311-346 | an accepted move that queues nothing ends its turn if and only if the turn's EndIf says so, and then the player it names is on turn, or it is a counting move and the last MaxMoves allows, and then the next seat is; otherwise the turn goes on with one more move made |
| EndRules.CalmMoveIsDone | core/reducer.go:311-376 | once its function has run nothing refuses such a move |
| EndRules.QueuedEndTurn | core/transitions.go:154-208 | a queued EndTurn ends the turn if and only if MinMoves are made; short of that the event is dropped and only the limit can end the turn |
| EndRules.TimeOutEndsTurn | core/timeout.go:53-83 | a turn ended from outside goes to the next seat whatever the limits say, raises StateID by one, and is refused once the game is over |
| EndRules.MoveEndsGame | core/reducer.go:317-326 | a result of Game.EndIf, asked after the move is counted, ends the game there: turn and phase stay |
| EndRules.MoveEndsPhase | core/reducer.go:328-330 | a phase's EndIf, asked next, ends turn and phase and goes on to the phase it names |
| EndRules.HooksInOrder | core/reducer.go:297-346 | G through an accepted move is the move's own function, then OnMove, and if the turn ends OnEnd and then OnBegin, each once and in this order |
| LimitExamples.LimitMatch | core/reducer.go:644-659 | whole matches of two players under any MaxMoves: player 0 is on turn for exactly as many moves as the limit allows, and then player 1 is |
| Reachable.ApplyKeeps | core/reducer.go:135-376 | an accepted move keeps the invariants, writes exactly one "move" entry right after the old log and built from the request, and raises StateID by exactly one when no move is chained |
| Reachable.ForceEndTurnKeeps | core/timeout.go:53-83 | a forced turn end keeps the invariants |
| Reachable.UndoKeeps | core/undo.go:34-60 | undo keeps the invariants and never pops an empty log |
| Reachable.NewMatchKeeps | core/state.go:139-196 | a fresh match has the invariants and no "move" entry, even when its setup cascade fails |
| SetUpRules.MatchBegins | core/state.go:139-196 | a new match of a game whose hooks queue nothing, under any built-in order: numbered seats, turn 1 of the first phase, the order's first seat on turn, its active set in force, and G and log as Setup, the phase's OnBegin and the turn's, one after the other, made them |
| SetUpRules.FailedSetUp | core/state.go:183-196 | a setup whose cascade fails keeps the match as it was before the first step, with every pushed move queued and every raised block pending |
| SetUpRules.SeatsExactly | core/game.go:228-247 | the number of seats: as asked for within the game's bounds, else the nearest bound; the most or the fewest the game allows, or two, if nobody asks |
| Reachable.MatchKeeps | core/reducer.go:122-128 | over every match, any interleaving of moves, forced turn ends, undo and redo keeps the invariants of the laws the game obeys |
| Gates.AcceptedIsEntitled | core/reducer.go:135-208 | nothing is accepted once the game is over, from a player not on turn unless the move is for any player or answers a block, from a client for a server-only move, on an outdated view unless the move ignores that, or with a tag that answers no block |
| Gates.ExclusiveStageConfines | core/reducer.go:210-219 | an exclusive stage confines its players to its own moves: only a server dispatch, a move for any player, one that ignores blocks and an answer to a block that names the move get past it |
| Gates.AdmittedExactly | core/reducer.go:135-219 | which requests are admitted, for every game and state, as an if-and-only-if: before the end of the game, with an answerable tag or none, for a move that exists, from a player on turn, answering, or making a move for any player, and past the server, block, staleness and stage gates |
| Gates.RefusedExactly | core/reducer.go:135-219 | why a request is refused: each error if and only if its gate is the first in the way |
| Gates.AdmittedWith | core/reducer.go:149-226 | admission sets the clock and takes the first question the request answers off the list, and nothing else |
| Gates.FoundExactly | core/reducer.go:626-640 | a move is looked up in the stage of the player first, then in the table of the phase or the game |
| Gates.ActivatedExactly | core/transitions.go:648-667 | whom a configuration activates and in which stage: named seats first, then the current player, the others, all |
| Reducer.FindBlock | core/reducer.go:456-463 | the first block that the request's player, tag and move may answer, or none at all |
| BlockLife.KeptInOrder | core/reducer.go:382-397 | exactly the blocks of players not named are kept, every copy of each, in their order |
| BlockLife.MoveLeavesSurvivors | core/reducer.go:149-376 | an accepted move leaves the blocks it neither answers nor drops, in order, and newly raised ones follow them |
| BlockLife.TimeOutLeavesSurvivors | core/timeout.go:53-83 | so does a forced turn end, which drops the ending player's blocks |
| BlockLife.PendingBlocksGate | core/reducer.go:177-187 | while a block is pending, an accepted request answers one or is for an IgnoreBlocks move |
| BlockLife.OneCallCount | core/reducer.go:149-162 | one call takes at most one copy of any block it does not drop, and only the answered one |
| BlockLife.BlocksLeaveByAnswerOrDrop | core/reducer.go:149-376 | over every run of moves and forced turn ends: a block that is gone was answered by its own addressee with its tag and named move, or dropped for its addressee |
| CascadeFifo.DrainConserves | core/reducer.go:427-451 | executed actions followed by the remaining queue are the starting queue followed by all later pushes in push order; at most 200 steps ran; it stops with an empty queue, a pending block or game over |
| CascadeFifo.CascadeConserves | core/reducer.go:401-451 | the same for a whole cascade, the move's own pushes included |
| CascadeFifo.FullDepthRestsOrOverflows | core/reducer.go:427-451 | after the last allowed step the cascade rests or refuses with the overflow error |
| CascadeFifo.LogShowsRan | core/reducer.go:525-581 | the drain-step entries a cascade logged are exactly the actions it ran, in order |
| MoveRules.MoveRuns | core/reducer.go:224-376 | every accepted move ran once, on the stored G with the request's clock and the answered question, without an error; the log goes on with an entry whose every field is the request's or the state's, and later the move's own notes |
| MoveRules.StepRuns | core/reducer.go:525-581 | a queued move runs on G as it is when its turn comes, in its player's stage by then; its entry is next in the log, its notes last, and what it pushed is queued behind what is there and ahead of what its hooks push |
| MoveRules.PushesComeNext | core/reducer.go:401-451 | after an accepted move the queued moves the log shows to have run, then those still waiting, begin with all that was queued before and then all the move pushed, in order; each entry points at the move |
| MoveRules.OneByOne | core/reducer.go:427-451 | a cascade runs the head of the queue as long as no block is pending and the game is on, and overflows after exactly 200 |
| MoveRules.MoveFlushes | core/reducer.go:289-295 | what an accepted move leaves in the plugins' data when its cascade starts: each plugin's flush of the tables the move left, on the move's G, to which no plugin objects |
| MoveRules.StepFlushes | core/reducer.go:525-581 | the same for a queued move |
| MoveRules.TimeOutFlushes | core/timeout.go:53-83 | the same for a turn ended from outside, on the G its hooks left |
| EventDrain.QuietGamesFinish | core/transitions.go:154-208 | for every game whose lifecycle hooks queue no events, every move, forced turn end and setup finishes, each drain within 33 batches, even when chained moves queue more chained moves |
| EventDrain.DrainEnds | core/transitions.go:109-208 | such a drain ends within one batch more than the chained-move budget left: the lexicographic measure (budget, events outstanding) |
| EventDrain.AtMost32Chained | core/transitions.go:181-203 | for every game, one move's own drains attempt at most 32 chained moves, and StateID counts those that succeed |
| EventDrain.MoreRoundsApplyAlike | core/reducer.go:135-376 | the answer of a move that finishes does not depend on the batch budget the model gives it |
| EventDrain.MoreRoundsMatchAlike | core/transitions.go:154-208 | nor does that of a whole match: setup, moves, forced turn ends, undo and redo |
| ReplayFidelity.ReplayRebuilds | core/replay.go:51-79 | for every deterministic game whose custom entries are not called "move" and every run of accepted moves: the log rebuilds the identical final state, and its first n moves the state after n |
| ReplayFidelity.TrimmedAppliesAlike | core/reducer.go:174-208 | dropping StateID and FromClient from an accepted request never changes its result |
| ReplayFidelity.ReplayUntilSeeded | core/replay.go:51-79 | the loop over the log computes the replay function, and on a refused entry hands back the state so far |
| UndoRedo.UndoTakesBackExactly | core/undo.go:34-60 | in every state of every match, undo right after an accepted move gives back the state before it (but for its clock, the answered block, OnUndo's scrubbing and the older snapshots) if and only if the move is undoable and wrote exactly one log entry |
| UndoRedo.UndoRestoresLogExactly | core/undo.go:44-48 | in every state of every match, undo pops one entry however many were written since the snapshot: the restored state has its own log again if and only if one was, and if and only if the last entry of the log is an undoable move, when custom entries are not called "move" |
| UndoRedo.UndoReachesTurn | core/undo.go:25-33 | undo goes back to the turn of the log's last undoable move, when custom entries are not called "move", which is the present turn in a game without phases |
| UndoExamples.IrreversibleMoveIsUndone | core/undo.go:44-48 | an undoable move, one marked not undoable, undo: both are reverted, redo would make the second without the first, and the log no longer replays to the state |
| UndoExamples.EarlierTurnIsUndone | core/transitions.go:315-369 | a move that ends its phase is undone in the next player's turn, although undo is documented as per turn: endPhase leaves the undo stack alone |
| UndoRedo.UndoIsSingleLevel | core/undo.go:129-137 | in every state of every match, an undone state has nothing left to undo |
| UndoRedo.SnapshotsAfterMove | core/reducer.go:253-295 | after a move there is nothing to redo, and the undo stack is the old one plus the move's snapshot if undoable, or empty; in a game without phases that never reopens a finished game it is emptied if and only if the move ended the turn |
| UndoRedo.MatchStackOk | core/undo.go:129-137 | in every state of every match each snapshot's log ends right before an undoable move of the log, the last one for the top snapshot |
| UndoRedo.RedoGivesBackExactly | core/undo.go:64-82 | in every state of every match, redo right after the undo of a lone undoable move gives the move's own result back, undo and redo stacks aside, if and only if the request answered no block and carried no clock |
| UndoRedo.RedoAdmittedExactly | core/undo.go:64-82 | whether the redone request is admitted: always if it answered no block, else if and only if no other block is pending or the move ignores blocks, the player is on turn or the move is for anyone, and no exclusive stage holds it back |
| UndoRedo.RedoBlockedExactly | core/undo.go:74-81 | redo is refused as blocked if and only if a block is pending and the entry's move resolves and does not ignore blocks |
| UndoExamples.AnswerIsNotRedone | core/undo.go:64-82 | two questions, one answered, the answer undone: redo is refused as blocked |
| UndoBlind.ApplyBlind | core/undo.go:124-137 | an external move gets the same answer whatever the undo and redo stacks hold, through every transition, drain and cascade |
| Containers.OwnContainers | core/undo.go:97-122 | a copy that means the same and whose every stage map, Plugins map and Revert frame is a new object |
| Isolation.ApplyContext | core/reducer.go:122-376 | on heap states that may share containers in any way: nothing that existed before the call is written, every failure at any depth hands back the very input, and a success owns all its containers and means what the functional reducer says |
| Isolation.ForceEndTurnE | core/timeout.go:53-83 | the same for a forced turn end |
| Isolation.DrainCascade | core/reducer.go:427-451 | a cascade that fails at any step hands back exactly the state after the harvest |
| Isolation.PlayMove | core/reducer.go:224-306 | the move, its log entry, its undo snapshot on private copies, and the plugin flush, as one in-place step |
| Isolation.Undo | core/undo.go:34-60 | undo hands out the top snapshot's own containers and writes none |
| Isolation.Redo | core/undo.go:64-82 | redo is an isolated move; refused, it has only popped the undone entry |
| Isolation.AutoEnd | core/reducer.go:698-726 | the in-place loop that deletes spent seats from all four maps computes the functional rule and drains an emptied set |
| Isolation.Bump | core/reducer.go:681-693 | the in-place count raises one seat's count and allocates the map if nil |
| InPlace.Install | core/transitions.go:637-700 | allocates new maps, saves copies of the live ones on Revert, and means the functional install |
| InPlace.DrainActive | core/transitions.go:613-633 | the popped frame's own maps become the live ones, without any sharing left over |
| InPlace.LeaveStage | core/transitions.go:476-524 | in-place endStage refines the function and writes only containers it owns |
| InPlace.EnterStage | core/transitions.go:439-454 | in-place setStage refines the function and writes only containers it owns |
| InPlace.LeavePhase | core/transitions.go:315-369 | in-place endPhase refines the function, termination of the mutual recursion included |
| InPlace.FinishTurn | core/transitions.go:216-259 | in-place endTurn refines the function |
| InPlace.Eliminate | core/transitions.go:548-599 | in-place removePlayer refines the function |
| InPlace.DrainEvents | core/transitions.go:154-208 | the in-place event loop refines the functional drain |
| MoveProtocol.StoredIDCountsCommits | match/manager.go:954-1023 | for every game, any dispatches and any interleaving: the stored StateID counts the commits, no dispatch commits twice or tries more often than its Manager allows, and every committed state is its move applied to some state that was stored |
| MoveProtocol.CommitInOrderExactly | match/manager.go:990-1003 | a commit replaces the very state it was computed from if and only if its move raised StateID by one |
| MoveProtocol.NoLostUpdate | match/manager.go:954-1023 | for games that chain no moves, from any state of any match: the stored states form one serial run of Apply, each dispatch in it at most once |
| MoveProtocol.FewDispatchesNeverExhaust | match/manager.go:1012-1017 | for such games, a dispatch that races with fewer others than its Manager allows attempts never gives up |
| DispatchEnds.EveryDispatchEnds | match/manager.go:954-1017 | for every game, start and interleaving, a dispatch is over after three steps of its own per attempt, eight attempts unless configured |
| DispatchEnds.EndingsAreHonest | match/manager.go:965-1017 | over every interleaving: a dispatch reports success if and only if it committed, a refusal only if its move is refused on a state that was stored, and a conflict only with all attempts used up |
| MoveProtocol.ChainedMoveAloneExhausts | match/manager.go:990-1017 | a move whose StateID goes up by anything but one can never be written with nobody else about: it exhausts its retries against its own base |
| MoveProtocol.ChainedMoveLosesUpdate | match/manager.go:996-1003 | with one other dispatch about, it is written over the other's commit, and both report success |
| MoveProtocol.LostUpdateExample | core/transitions.go:109-149 | a concrete game and schedule in which that happens |
| Dispatch.DispatchLocked | match/manager.go:939-1023 | every execution of the retry loop, whatever the others do between its store accesses, is a run of the protocol with at most the allowed attempts |
| Dispatch.Memory.UpdateIfStateID | storage/memory.go:71-83 | writes if and only if the stored StateID is the expected one, and says which of the two errors otherwise |
| Dispatch.Memory.Update | storage/memory.go:34-42 | overwrites a known match and refuses an unknown one |
| Dispatch.Memory.Get | storage/memory.go:24-32 | the stored match, or not found |
| Priority.ConsentOverRuns | modules/ccg/priority.go:119-219 | from the closed window, over every run that drops only players who have not passed since the last action: the passers are the Passes seats before the holder, a window closed by Pass or Drop had the consent of all who were left, and the last queued configuration gates the holder |
| Priority.DropSoundExactly | modules/ccg/priority.go:191-219 | a drop is sound if and only if the dropped player has not passed since the last action |
| Priority.PassedBySeat | modules/ccg/priority.go:148-163 | who has passed can be read off the order, the holder and the count alone |
| Priority.DropOfPasserClosesEarly | modules/ccg/priority.go:205-210 | three players, two passes, a drop of one of them: the window closes over the third, who never passed |
| Priority.OnlyHolderMayMove | modules/ccg/priority.go:253-260 | once the engine installs the last queued configuration, exactly the holder is authorized to move |
| Priority.ClosingRestoresDefault | modules/ccg/priority.go:265-271 | a wired window that closes hands the move back to the current player |
| PassOrder.OpensExactly | modules/ccg/priority.go:119-140 | as a queue of the players still asked: a window opens, one at a time, over one or more different named players, the first of them gated |
| PassOrder.PassesExactly | modules/ccg/priority.go:148-163 | the holder's pass, and nobody else's, sends them to the back of the queue, or closes the window if it is the last of as many passes as there are players |
| PassOrder.ActsExactly | modules/ccg/priority.go:169-182 | an action of the holder, and nobody else's, voids the passes made; the holder stays in front or goes to the back |
| PassOrder.DropsExactly | modules/ccg/priority.go:191-219 | a drop takes one player out of the queue, whose order and passes stay; the next in line is gated only if the holder left; it closes exactly when nobody is left or all but one have passed |
| PassOrder.FullCircle | modules/ccg/priority.go:148-163 | everybody passing in turn closes the window at the last, and no sooner |
| Priority.PriorityState.OpenWindow | modules/ccg/priority.go:119-140 | opens exactly over orders without empty or repeated players, and gates the first of them |
| Priority.PriorityState.Pass | modules/ccg/priority.go:148-163 | refines the protocol step, queued events included |
| Priority.PriorityState.ActionTaken | modules/ccg/priority.go:169-182 | refines the protocol step, queued events included |
| Priority.PriorityState.Drop | modules/ccg/priority.go:191-219 | refines the protocol step, its search and cursor repair included |
| Effects.OrderTriggers | modules/ccg/trigger.go:85-102 | the nested loops over a taken array give: player by player in the order, repeated players included, each player's triggers as staged, then the rest |
| Effects.OrderingPermutes | modules/ccg/trigger.go:85-102 | ordering loses no trigger and doubles none |
| Effects.OrderedExactly | modules/ccg/trigger.go:85-102 | ordering is a stable sort: players as the order first names them, everybody else's triggers last, and each player's in the order they were staged |
| Effects.PushedAllIs | modules/ccg/trigger.go:119-133 | flushing appends the batch in order with consecutive new IDs and leaves what was pending in place |
| Effects.RemovedIs | modules/ccg/effect.go:145-154 | removing by ID takes exactly that effect and keeps IDs unique |
| Assignment.ValidateAssignment | core/assignment.go:85-139 | accepts an answer if and only if every pair is offered, none repeats and no item exceeds its cap, and hands the pairs back |
| Validators.ValidatorsAgree | modules/ccg/combat.go:191-261 | for any round whose candidates and attackers are below 2^53, any legality predicate and any answer, whatever IDs it spells: ValidateAssignment accepts against BlockRequest if and only if DeclareBlocks accepts the pairs with every blocker from the candidates |
| Validators.AgreeWhenAlone | modules/ccg/combat.go:191-261 | the same for IDs of any size, if no offered ID shares its float64 with another |
| Validators.AcceptsExactly | core/assignment.go:85-139 | under that hypothesis and for any arguments at all: the validator accepts exactly the answers that spell pairs DeclareBlocks accepts with every blocker from the candidates |
| Validators.SoundExactly | core/target.go:111-148 | for any IDs: the validator lets through nothing DeclareBlocks refuses if and only if every pair with the float64s of an offered one is offered |
| Validators.LargeIDsDisagree | core/target.go:111-148 | past 2^53 they part: the validator lets through a blocker nobody offered |
| Validators.ConversionIsExact | modules/ccg/pairs.go:63-83 | an item converts to an ID if and only if it spells it, as an integer or as a float64 that holds it exactly |
| Combat.Combat.DeclareAttacks | modules/ccg/combat.go:117-139 | records exactly non-empty lists of distinct legal attackers, once, and changes nothing otherwise |
| Combat.Combat.LegalBlocks | modules/ccg/combat.go:159-176 | lists every legal pair of a candidate and an attacker and nothing else, in attack order, blocker IDs ascending |
| Combat.Combat.DeclareBlocks | modules/ccg/combat.go:218-261 | records exactly the lists the rules and the whole-assignment hook accept, grouped by attacker in order, and keeps the round in order |
| Combat.Combat.Remove | modules/ccg/combat.go:338-354 | takes out exactly the entity, as attacker with its blockers and as blocker, and keeps the round in order |
| Combat.DeclaredOk | modules/ccg/combat.go:218-261 | after an accepted declaration blockers are globally unique, caps hold and keys are attackers |
| Combat.RemovedOk | modules/ccg/combat.go:338-354 | and after any removal they still do |
| Combat.BlockersExactly | modules/ccg/combat.go:218-261 | the blockers recorded for an attacker are those of all its pairs, in the order the pairs came |
| Combat.CapExactly | modules/ccg/combat.go:107-112 | a round accepts exactly the lists of legal pairs, no blocker twice, that give no attacker more blockers than the cap, which is one unless configured |
| Combat.RemovedExactly | modules/ccg/combat.go:338-354 | a removal takes out one entity and nothing else: as attacker with its entry, as blocker from its list, whose attacker counts as blocked still |
| Combat.Combat.Blocking | modules/ccg/combat.go:302-311 | finds the one attacker an entity blocks |
| Combat.Combat.Unblocked | modules/ccg/combat.go:316-327 | lists exactly the attacks without an entry, in declaration order, and none before blocks are declared |
| Zones.IndexAgrees | modules/ccg/zone.go:58-220 | over any run of zone operations that adds only unplaced entities, Entity.Zone and zone membership agree, without duplicates |
| Zones.InsertedKeepsExactly | modules/ccg/zone.go:58-103 | Add and InsertAt keep the index if and only if the entity stands in no zone |
| Zones.RemovedKeeps | modules/ccg/zone.go:108-120 | Remove keeps every member indexed and breaks the index exactly for the entity it took out |
| Zones.MovedKeeps | modules/ccg/zone.go:132-158 | MoveTo keeps the index, even one left stale, and says how the target grows |
| Zones.DestroyedKeeps | modules/ccg/state.go:128-149 | Destroy keeps the index |
| Zones.DrawnKeeps | modules/ccg/zone.go:165-192 | Draw keeps the index, clears it for exactly the cards drawn, and draws as many as it can |
| Zones.ShuffledKeeps | modules/ccg/zone.go:213-220 | Shuffle keeps the index and the multiset of members |
| Zones.PreflightSuffices | modules/ccg/helpers.go:15-39 | after the pre-flight check no MoveTo of the batch can fail, repeated entities included |
| Zones.TransitionAllOrNothing | modules/ccg/helpers.go:15-39 | Transition moves every listed entity and nothing else, or changes nothing |
| Zones.MoveAllKeeps | modules/ccg/helpers.go:45-77 | MoveAllTo moves exactly the entities of the listed zones, or changes nothing |
| Zones.SweepKeepsOrder | modules/ccg/helpers.go:45-77 | a sweep of distinct zones appends them in order and leaves them empty |
| ZoneOrder.DrawnExactly | modules/ccg/zone.go:165-192 | Draw takes the end of the zone card by card, as many as asked for or all there are |
| ZoneOrder.InsertedExactly | modules/ccg/zone.go:82-103 | InsertAt puts the entity at the position, the others before and behind it as they were, and never past the capacity |
| ZoneOrder.MovedExactly | modules/ccg/zone.go:132-158 | MoveTo takes the entity out of one zone, the others in order, and appends it to the other |
| ZoneOrder.BatchRefusedExactly | modules/ccg/helpers.go:15-39 | Transition is refused for an unknown zone, else for an unknown entity, else if and only if the places of the list outside the target would overfill it |
| ZoneOrder.SweepRefusedExactly | modules/ccg/helpers.go:45-77 | MoveAllTo over different zones is refused for an unknown zone, else if and only if all that lies in the others would overfill the target |
| ZoneOrder.MulliganExactly | modules/ccg/helpers.go:107-125 | a successful mulligan of different zones: the deck left, followed by the cards drawn in reverse, is the shuffle of the old deck followed by the old hand, and the drawn cards are the hand |
| ZoneOrder.MulliganErrorAlike | modules/ccg/helpers.go:107-125 | whether a mulligan succeeds does not depend on the generator |
| ZoneOrder.AnyHandMayCome | modules/ccg/helpers.go:107-125 | any n of the cards of hand and deck come out as the new hand, in any order, for some generator |
| ZoneOrder.ReshuffleExactly | modules/ccg/deckpile.go:98-106 | the new deck is the shuffle of the old deck followed by the discard, which is empty |
| ZoneOrder.MillExactly | modules/ccg/deckpile.go:56-89 | the milled cards come off the end of the deck or, if it was empty, of the shuffled discard, and go onto the discard in that order |
| Zones.MulliganConserves | modules/ccg/helpers.go:107-125 | the redrawn cards are the hand, n of them or all there were, the rest of hand and deck are the deck, and nobody else moves |
| Zones.MillConserves | modules/ccg/deckpile.go:56-106 | the milled cards, n or all there were, came off the deck, or off the discard it was refilled from, and everything else is where it was or in the deck |
| Zones.MoveOverfillsExactly | modules/ccg/zone.go:132-158 | MoveTo takes a zone past its capacity if and only if a stale index names a zone that has filled up |
| Zones.RemoveThenMoveOverfills | modules/ccg/zone.go:108-158 | two entities end up in a zone for one |
| Shuffling.Shuffle | core/random.go:136-144 | the in-place Fisher-Yates loop on a copy computes the shuffle function |
| Shuffling.ShufflePermutes | core/random.go:136-144 | whatever the generator puts out, the result is a permutation |
| Shuffling.EveryOrderReachable | core/random.go:136-144 | every rearrangement comes out for some generator output |
| CardState.State.MoveTo | modules/ccg/zone.go:132-158 | refines the move on the board, scan and error order included |
| CardState.State.Draw | modules/ccg/zone.go:165-192 | refines the draw: pops from the end, then clears the index |
| CardState.State.Transition | modules/ccg/helpers.go:15-39 | refines the batch, stopping where a move fails |
| CardState.State.MoveAllTo | modules/ccg/helpers.go:45-77 | refines the sweep on snapshots of the source zones |
| CardState.State.Mulligan | modules/ccg/helpers.go:107-125 | refines the mulligan |
| CardState.State.Mill | modules/ccg/deckpile.go:56-89 | refines the mill with its automatic refill |
| Economy.Ledger.PayWithGeneric | modules/economy/basket.go:77-110 | refuses exactly when the cost is invalid or the distinct known fallback kinds cannot cover the generic part, and then changes nothing; otherwise deducts the greedy draw, a function of basket, counters, cost and order that adds up to the total; panics if and only if that draw asks some counter for more than it holds, and never over distinct counters |
| Economy.DrawGeneric | modules/economy/basket.go:85-106 | the fallback loop succeeds if and only if the room in the distinct kinds before the first unknown one suffices, and computes the greedy draw: each kind its room, as far as the kinds before it leave anything to pay |
| Economy.Ledger.Reserve | modules/economy/basket.go:114-133 | reserves exactly the positive amounts if and only if all are affordable, and names a true reason otherwise |
| Economy.Ledger.SpendReserved | modules/economy/basket.go:140-151 | deducts per counter, and succeeds if and only if no counter is asked for more than it holds |
| Economy.DistinctPoolsFit | modules/economy/basket.go:140-151 | over distinct counters a covered draw never panics, takes exactly its amount from each kind and drives none below zero |
| Economy.AliasedPoolsPanic | modules/economy/basket.go:27-33 | two names for one counter, which the documentation allows: the cost is affordable and the draw is one the payment panics over |
| Hearts.RunKeeps | games/hearts/hearts.go:229-342 | over every run of accepted plays the table invariant holds and every play is counted |
| Hearts.Conserves | games/hearts/hearts.go:229-342 | each of the 52 cards is in exactly one hand, trick or won pile, and scores plus the points still in hands and trick total 26 |
| Hearts.SomethingIsLegal | games/hearts/hearts.go:229-289 | until the hand is over the player on turn can play something |
| Hearts.EndsAfter52 | games/hearts/hearts.go:347-368 | play ends after exactly 52 accepted plays, and then nothing is legal |
| Hearts.WinnerIsHighest | games/hearts/hearts.go:320-326 | the trick goes to the highest card of the suit led |
| HeartsRules.AcceptedExactly | games/hearts/hearts.go:229-289 | over every run, told from the cards played so far: which card of the player on turn is accepted, with the two of clubs first, no heart led before hearts are broken unless the hand is all hearts, and following suit where possible |
| HeartsRules.TrickGoesOn | games/hearts/hearts.go:229-289 | the first three cards of a trick leave piles, scores and tricks left alone and pass the turn to the next seat |
| HeartsRules.TrickTaken | games/hearts/hearts.go:320-342 | the fourth card: the player of the highest card of the suit led takes the four cards in order and their points and leads next; everybody else's pile and score stay, and one trick less is left |
| HeartsRules.CardValues | games/hearts/hearts.go:327-335 | a heart is worth 1, the queen of spades 13, every other card nothing |
| HeartsTable.Table.PlayCard | games/hearts/hearts.go:229-289 | accepts exactly the legal cards and keeps the invariant; a refused play changes nothing |
| HeartsTable.Table.Enumerate | games/hearts/hearts.go:372-412 | lists exactly the cards playCard accepts, in hand order |
| HeartsTable.Table.ResolveTrick | games/hearts/hearts.go:320-342 | the loops find the winner, move the cards and count the points as the rules say |
| HeartsTable.Table.GameEndIf | games/hearts/hearts.go:347-368 | once the tricks are over, exactly the seats with the lowest score in seat order, and the scores |
| HeartsTable.Table.constructor | games/hearts/hearts.go:110-180 | any shuffle deals thirteen cards each and a leader who holds the two of clubs |
| LoveLetterRuns.MatchInvariant | games/loveletter/loveletter.go:196-458 | for 2 to 4 players and any shuffles, every run of accepted moves keeps the sixteen cards, two in the current player's hand, one in every other live hand, none in an eliminated one, and has at most (n(T-1)+1)(15-n) moves |
| LoveLetterRuns.StepKeeps | games/loveletter/loveletter.go:276-458 | each accepted move keeps that invariant and uses up the budget of moves left |
| LoveLetterRuns.PlayedConserves | games/loveletter/loveletter.go:522-736 | every card's effect conserves the sixteen cards |
| LoveLetterRuns.PlayedSizes | games/loveletter/loveletter.go:522-736 | every card's effect leaves one card to everyone still in and puts at most one player out |
| LoveLetterRuns.RoundHasWinner | games/loveletter/loveletter.go:395-420 | a finished round has a winner |
| LoveLetterBook.PrintedGame | games/loveletter/loveletter.go:178-251 | the sixteen cards are the printed ones, and 2, 3 or 4 players play to 7, 5 or 4 tokens |
| LoveLetterBook.FirstDeal | games/loveletter/loveletter.go:196-228 | the first deal: one card burned, one each, and a second for the first player |
| LoveLetterBook.PlayedByTheBook | games/loveletter/loveletter.go:522-736 | what each of the eight cards does, as a relation between the table before and after: hands, discards, eliminations, protection, what a Priest sees, and where a Prince's new card comes from |
| LoveLetterBook.AcceptedExactly | games/loveletter/loveletter.go:750-787 | which moves of the player on turn are accepted, as an if-and-only-if |
| LoveLetterBook.WinnersExactly | games/loveletter/loveletter.go:395-420 | exactly the players still in with the highest card win a finished round, in seat order |
| LoveLetterBook.EndsExactly | games/loveletter/loveletter.go:314-349 | a round is over if and only if at most one player is left in it or the deck is empty |
| LoveLetterBook.StepByTheBook | games/loveletter/loveletter.go:276-458 | every accepted move of a match: the card's effect, then the nearest live seat draws, or tokens go to the winners and either the match is over for whoever reached the goal or the first winner starts a fresh deal |
| LoveLetterShield.StepShields | games/loveletter/loveletter.go:276-311 | one accepted move protects its player only as a Handmaid, leaves another protected player exactly as they are, and protection ends when their next turn begins or a round is dealt |
| LoveLetterShield.ProtectedExactly | games/loveletter/loveletter.go:832-835 | in every state of every match a player is protected if and only if their last move this round was a Handmaid and their next turn has not begun |
| LoveLetterShield.HandmaidProtects | games/loveletter/loveletter.go:626-638 | over any run: until their own next turn begins or a round is dealt, the player of an accepted Handmaid is protected and nothing about them changes |
| LoveLetterRuns.SomeMoveAllowed | games/loveletter/loveletter.go:750-787 | until the match is over the player on turn has an accepted move, the forced Countess included |
| LoveLetterRules.DiscardedPrincessIsOut | games/loveletter/loveletter.go:641-736 | from the deal on, in every state of every run, a player whose Princess has been discarded is out of the round |
| LoveLetterRules.ProtectedUntouched | games/loveletter/loveletter.go:832-835 | no card another player plays changes anything about a protected player |
| LoveLetterRules.GuardRule | games/loveletter/loveletter.go:522-555 | a Guard puts out exactly an unprotected target holding the named card, and nobody else |
| LoveLetterRules.BaronRule | games/loveletter/loveletter.go:590-622 | a Baron puts out exactly the lower of the two hands, and nobody on a tie or against protection |
| LoveLetterRules.KingRule | games/loveletter/loveletter.go:693-715 | a King exchanges what is left of the two hands, unless the target is protected |
| LoveLetterTable.Game.Play | games/loveletter/loveletter.go:522-736 | the eight moves accept exactly what the rules allow and do to the table what they say; a refused move changes nothing |
| LoveLetterTable.Game.OnMove | games/loveletter/loveletter.go:314-349 | the loops that find survivors and winners, award tokens and list champions refine the round-end rule |
| LoveLetterTable.Game.OnEnd | games/loveletter/loveletter.go:353-390 | the dealing loop refines the reset of a round |
| LoveLetterTable.Game.NextSeat | games/loveletter/loveletter.go:435-458 | the walk finds the next live seat, or the starter of a new round |
| LoveLetterTable.Game.Move | games/loveletter/loveletter.go:147-175 | a move with all the engine runs around it refines one step of the match |
| StackduelRuns.DuelInvariant | games/stackduel/stackduel.go:150-329 | from the opening, after any accepted moves: the window is open exactly when the stack is non-empty, no trigger is staged, and the cards in the stack zone are one-to-one with the pending effects whose source lies there |
| StackduelRuns.StepKeeps | games/stackduel/stackduel.go:260-329 | each accepted cast, response, pass and turn end keeps that invariant |
| StackduelRuns.AllPassedResolvesTop | games/stackduel/stackduel.go:293-315 | a round of passes resolves exactly the top: what lay below stays in order but for what a counter names, only new triggers come on top, and the resolved card has left the stack |
| StackduelRuns.CounterResolves | games/stackduel/stackduel.go:456-465 | a resolving counter takes itself and the effect it names off the stack; both cards, if there, go to their owners' graveyards, no other card moves, and nothing but zones and queue changes |
| StackduelRuns.SummonResolves | games/stackduel/stackduel.go:468-474 | a summoned creature leaves the stack for its controller's battlefield and no other card moves; its own trigger and the bound Glowmoths' are staged, not pushed |
| StackduelRuns.NextTurnExactly | games/stackduel/stackduel.go:317-344 | turning over the turn keeps the invariant if and only if the stack is empty |
| StackduelRuns.ForcedEndStalls | games/stackduel/stackduel.go:331-344 | after a turn ended by force mid-window exactly the casts of the new turn's player are accepted: the window is gone, the stack is not |
| StackduelRuns.ForcedEndExample | games/stackduel/stackduel.go:331-344 | from the opening, one cast and a forced end: one effect pending, no window, and nobody may pass or end the turn |
| StackduelRuns.SomebodyMayMove | games/stackduel/stackduel.go:260-329 | in every state the invariant describes some player has an accepted move |
| StackduelRuns.PaidAgrees | games/stackduel/stackduel.go:409-416 | a card is paid for if and only if the economy's basket would accept its cost, and each pool is left with what the basket's greedy draw leaves it |
| StackduelRuns.PaidIsExact | games/stackduel/stackduel.go:409-416 | mana is spent to the unit, sun before moon for the generic part, and no pool goes below zero |
| StackduelRuns.LifeAfterTop | games/stackduel/stackduel.go:431-477 | what resolving the top does to each player's life, by kind, with a floor at zero |
| StackduelRules.AcceptedExactly | games/stackduel/stackduel.go:260-425 | which of the four moves is accepted, as an if-and-only-if over whose turn it is, the window, the card, its printed cost and, for a counter, a stack to answer |
| StackduelRules.PutsOnStack | games/stackduel/stackduel.go:379-425 | an accepted Cast or Respond appends one effect with the next ID, the card as source, its player, its printed kind and amount, and as target the effect that was last if it is a counter; the card lies on the stack, its cost is paid, and nobody has passed |
| StackduelRules.PricesPaid | games/stackduel/stackduel.go:76-98 | an accepted card costs its printed price to the unit, moon mana for the generic part only once the sun pool is empty, no pool below zero, and only the three instants are accepted as responses |
| StackduelRules.PassesResolve | games/stackduel/stackduel.go:293-315 | two passes in a row are accepted and resolve one effect; the first alone only hands priority over |
| StackduelRules.SpellResolvesByPasses | games/stackduel/stackduel.go:427-455 | a spell resolved by two passes: the stack is what lay below, its card is in the graveyard, life changes by kind and amount, and the window opens again if there is more |
| StackduelRules.SpellsHit | games/stackduel/stackduel.go:427-455 | the four spells that touch life, cast on an empty stack and let through: Sunbolt takes 2 of the opponent's, Emberfall 4, Eclipse 2 of both, down to zero at most, Lunartide adds 2 to one's own |
| StackduelRules.CounterTakesLast | games/stackduel/stackduel.go:456-465 | a counter answered with and resolved by the next two passes: the stack is the one it found without its last effect, that effect's card, if on the stack, and its own are in their players' graveyards, and nothing else has changed but the payment and the window |
| StackduelRules.CreatureEntersByPasses | games/stackduel/stackduel.go:468-474 | a creature resolved by two passes stands on the battlefield, and the triggers on the stack are its own and the Glowmoths', the active player's first |
| StackduelRules.MothsExactly | games/stackduel/stackduel.go:233-253 | one trigger for each glowing Glowmoth, in the order they were bound |
| StackduelRules.TurnPassesOn | games/stackduel/stackduel.go:317-344 | an accepted EndTurn: the other player is on turn with 3 of each mana and the top card of their deck, if any, and nothing else changes |
| StackduelRules.RulesApply | games/stackduel/stackduel.go:150-329 | in every state of every match the hypotheses of these rules hold, mana and life never below zero |
| StackduelRules.SunboltHits | games/stackduel/stackduel.go:427-440 | from the opening, one Sunbolt and two passes: player 1 is at 6 |
| StackduelRules.MoonveilCounters | games/stackduel/stackduel.go:456-465 | from the opening, a Glowmoth, a pass, a Moonveil and two passes: both cards are in their players' graveyards |
| StackduelTable.Game.PutOnStack | games/stackduel/stackduel.go:379-425 | puts exactly castable cards on the stack; a refused cast changes nothing |
| StackduelTable.Game.Resolve | games/stackduel/stackduel.go:431-487 | the resolver table on the card and priority objects refines the rules |
| StackduelTable.Game.ResolveNext | modules/ccg/effect.go:232-264 | with HaltWhileOpen over PickBack: nothing while the window is open, else the top effect's resolver runs and it leaves the queue |
| StackduelTable.Game.Pass | games/stackduel/stackduel.go:293-315 | refines one pass of the duel: close, resolve, flush, reopen |
| StackduelTable.Game.Cast | games/stackduel/stackduel.go:260-275 | accepts exactly what the rules allow and refines the step |

## Left out

- The event drain takes a budget of batches (`rounds`), because a game whose hooks keep queueing events never finishes in
  the code; theorems hold for every budget, and EventDrain shows that the answer of a match that finishes does not depend on it
  and that 33 batches suffice when lifecycle hooks queue nothing.
- Go panics (an index out of range, a division by zero in a turn order) are an outcome of their own; what a half-done
  panicking call leaves in memory is not modelled.
- Context deadlines, log redaction, PlayerView, plugin internals and G itself are opaque values; spare slice capacity is not
  modelled, slices are sequences.
- NewMatch is modelled as a function only; its containers are all new, so isolation has nothing to say about it.
- The JSON codec, schema migration and DecodeG: only the rule for nil and empty ActivePlayers is modelled.
- Dispatch.DispatchLocked: match deletion during a dispatch, BeforePersist, lifecycle events and broadcasts are not
  modelled; other writers are dispatches of the same protocol. Join, Leave, Reset and AutoExpire write unconditionally and
  stay outside.
- Economy.Ledger.PayWithGeneric: counters have no subscribers, so the sorted order of deductions and the events they fire
  are not modelled; Pool.Gain, Set and Cap are left out.
- Zones: modifiers, ownership and attributes of entities, Peek, Top, Bottom and Deal; Draw with a negative count panics in
  the code and is not modelled.
- Combat.Combat.LegalBlocks: the library sort is stood in for by an insertion sort with the same result.
- Effects: ReplaceEffect, MutateEffect, PushEffectFront and InsertEffectAt, which stackduel does not use.
- StackduelTable.Game.ResolveNext: the events published before and after a resolution, and the Countered flag a subscriber may
  set on the first of them, which no stackduel subscriber does.
- Undo snapshots are not written to storage; a match reloaded from a serializing store has nothing to undo. The model speaks
  of the states in memory.
- StackduelTable.Game.Respond: called only by the holder, as the engine's exclusive stage ensures; a response admitted from
  anyone else would be refused by ActionTaken after the card had already moved.
- Game over by life totals in stackduel (endIf), which ends runs but constrains no state between moves.
- Argument decoding in the games' moves (entityArg, toInt, toString): ill-typed arguments are refused before anything
  happens.
- Love Letter's first-round shuffle and every later one are arbitrary permutations of the deck; splitmix64 itself is not
  modelled, only the Fisher-Yates loop over an arbitrary stream.
- The servers, transports, bots, storage back ends other than memory, timers and chat: they carry requests to the engine and
  states to clients, and decide nothing about a state.
- The rules of the other games under games/; each is a game in the sense of Engine.Game, so the theorems about the engine
  hold for it.
