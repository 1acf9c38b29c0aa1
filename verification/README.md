# Worms NG in Dafny

Worms NG is a board game server: worms crawl over a hexagonal lattice, lay trails, and capture the cells whose sixth
trail they draw. This project models its rules and the machinery around them and proves what they promise.

- **The rules engine** (`Geometry`, `Compass`, `HalfEdges`, `BoardScan`, `Engine`, `MoveLaws`, `Ledger`, `AutoChoice`,
  `TieBreaks`, `KnownDraws`, `Rounds`, `TurnLaws`, `Progress`, `Frames`, `EventLog`, `ReplayRefusals`, `EventSourcing`,
  `StrandedDecision`, `LegacyReplay`, `InexactReplay`, `StallTransparency`, `Masks`, `StartPositions`, `Identifiers`,
  `StateValidation`, `StartLaws`, `GameState`). `Engine` gives the meaning of one move, one turn, one round and one
  submitted decision as functions on values; each returns the next state and the events it emits. The class `State` of
  `GameState` performs the same operations in place and is proved against those functions. On top stand the ledger
  invariant, the bound on every game, event sourcing over any run, and the fact that a stalled and answered round is a
  round that never stalled.
- **The variant layer** (`Variants`, `VariantMoves`, `VariantRounds`, `VariantRuns`, `VariantEnergy`, `VariantState`,
  `EastSpoke`, `VariantFrames`, `VariantStalls`, `TerrainLaws`, `ExpiryLaws`, `VariantLaws`, `FogOfWar`): expiring
  trails, energy, weighted cells, teams and fog. The running totals are compared with a recount of the board, so the
  invariants survive deletion as well as insertion.
- **The hash-chained log** (`EventChain`, `ChainWriters`, `GameStore`, `ChainLaws`): its encoding, two verifiers, three
  concurrent writers as transactions, and redaction.
- **The drain protocol of the client** (`Drain`, `DrainLaws`): one ownership flag and two request flags, step by step
  over any number of threads.
- **The merge of rule libraries** (`RuleSharing`, `SharingLaws`).

The methods are proved against functions on values, and the functions in turn against laws that do not name them:
`Compass`, `MoveLaws`, `TieBreaks`, `KnownDraws`, `TurnLaws`, `ReplayRefusals`, `StartLaws`, `TerrainLaws`,
`ExpiryLaws`, `VariantLaws`, `ChainLaws`, `DrainLaws` and `SharingLaws` say of each operation, in terms of states,
tables, logs, records and known numbers, what it does and what it refuses.

Six-bit masks are sets of directions (`Masks.MaskOfNumber` relates them to the numbers), a rule table is a map in which
a missing mask has the array's zero value, and the direction value that means no move is `None`. `Wrappers` holds the
option and result types.

Where a claim needs a condition, the condition is stated exactly: an even height for reciprocity
(`Geometry.EvenHeightIsNecessary`), no row at or below 0 for the agreement of the two verifiers
(`EventChain.VerifiersDifferOnlyBelowOne`), no completed cell for an inserted trail
(`StateValidation.InsertedIsSoundExactly`), no owner at either end for the replay of a move
(`EventSourcing.MoveRebuildsExactly`), no trail reported at an owned cell and no stranded decision for the replay of a
run (`StrandedDecision.ReplayIsExact`), a free East spoke for the legality of a variant move
(`VariantMoves.WrittenRule`), a radius below the greatest integer or an observer on the board for fog (`FogOfWar.Sees`).

A claim starts from what it needs. The work measure, the bound on runs and the shape of a stall hold from every state
(`Rounds.Later`, `Progress.OpKeeps`); that the bound is a natural number asks for trails and live worms on a regular
board (`Rounds.Grounded`). Totality asks for a historical torus and distinct names (`Progress.Classic`) and valid
tables, stall transparency for distinct names. Replay asks for masks in sync, trails on a regular board and worms with
their own names on it (`EventSourcing.Placed`), which `InexactReplay.ValidStartIsPlaced` gets from the engine's own
`Validate`. Only the ledger facts ask for the ledger, `Ledger.Sound`: `StateValidation.ValidMeansSound` says how it
relates to `Validate`, and `StartPositions.GenerateBoard` that new games satisfy it.

In the variant layer the class `World` agrees with the functions on values on every state, and its stall transparency,
the price of a move and the bound that energy puts on a run are stated for every state too; a number for the bound asks
for energies between 0 and the limit. What is about totals asks for books in order (`Variants.Books`), what is about
live expiries for the window (`VariantRuns.Window`). New games satisfy both (`VariantEnergy.NewGameIsGood`) and every
run keeps them.

`dafny verify dfyconfig.toml` verifies the whole project.

## Findings

Three places where the code does less than its design promises. Each has its input and its exact condition.

- `internal/extension/extension.go:667` tests `s.Base.Mask(from)&1<<d != 0`. In Go `&` and `<<` have the same precedence
  and group to the left, so the test is `(Mask(from)&1)<<d`: it looks at the East spoke whatever d is
  (`Masks.GuardTestsEast`); `internal/engine/engine.go:416` has the parentheses. In a variant game no worm leaves a cell
  whose East spoke is drawn: a move to the West leaves the mover without a legal move (`EastSpoke.WestLeavesNoMove`),
  and a turn that finds a worm on such a cell kills it as blocked (`EastSpoke.EastSpokeKills`);
  `EastSpoke.WestStrandsTheLoner` is the shortest such game. The model follows the code: `Passable` is the test as
  written, `Intended` the one that was meant, and `VariantMoves.WrittenRule` and `EastSpoke.MovesAsWritten` relate them
  exactly. The ledgers, the window and the energy bound hold all the same.
- `internal/engine/engine.go:443-524` accepts an owner on a cell that is not complete. A move that draws a spoke there
  changes the mask without an event (`internal/engine/engine.go:655-676`), so replay keeps the old mask:
  `InexactReplay.OwnedCentreIsNotReplayed` is such a start, and `EventSourcing.MoveRebuildsExactly` and
  `EventSourcing.NamedReplayIsExact` give the exact conditions. No run from a new game comes there
  (`EventSourcing.ReplayFromUnownedIsExact`).
- `internal/engine/engine.go:443-524` does not look at the pending decision either. `Submit` answers it by its slot,
  while replay clears it by the worm it names (`internal/engine/engine.go:1057`) and refuses the end of a round while
  one is pending (`internal/engine/engine.go:1080`). `InexactReplay.MisnamedIsNotReplayed` is such a start;
  `StrandedDecision.ReplayIsExact` gives the exact condition for every run, and `InexactReplay.LastSlotStrands` says
  when one answer meets it. Decisions the engine itself leaves pending always name the worm of their slot.

## Model

| member | source | states |
|---|---|---|
| Geometry.WrapFormula | internal/engine/engine.go:309-321 | wrapping to the nearest whole turn is the double truncated remainder of `wrap`, for every coordinate, negative ones too |
| Geometry.Reciprocal | internal/engine/engine.go:322-355 | stepping d and then opposite(d) returns to the start on every bounded board and every torus at least 3 wide and 3 high (even height on historical rows), across both seams |
| Geometry.NeighborsDistinct | internal/engine/engine.go:322-354 | the six neighbours of a cell are six different cells, none of them the cell itself |
| Geometry.EvenHeightIsNecessary | internal/engine/engine.go:447-449 | a historical torus is reciprocal everywhere if and only if its height is even, the condition `Validate` checks |
| Geometry.SameEdge | internal/engine/engine.go:77-83 | two half-edges name the same canonical edge if and only if they are equal or each other's reciprocal |
| Geometry.NeighborStaysOnTorus | internal/engine/engine.go:322-347 | no step leaves a torus |
| Compass.StepsAcrossTheScreen | internal/engine/engine.go:322-355 | the six directions are the clockwise directions of the screen: with X twice the column plus the row's shift, East, SouthEast, SouthWest, West, NorthWest and NorthEast change X by +2, +1, −1, −2, −1, +1 and the row by 0, 1, 1, 0, −1, −1 |
| Compass.SeamsOnlyWrap | internal/engine/engine.go:309-321 | on a torus a step is that step with whole turns taken off, and differs from it only where it leaves the board |
| Compass.ListedClockwise | internal/engine/engine.go:322-354 | the directions are tried clockwise from East, and the opposite of a direction is three steps round the clock |
| Compass.TriangleOfSteps | internal/engine/engine.go:322-355 | on every regular board, seams included, the step before a direction in clock order followed by the step after it is the step in that direction |
| Compass.CornersOfTheBoard | internal/engine/engine.go:289-301 | historical cells are counted from 1 and others from 0, in both coordinates |
| Compass.EdgesAreSorted | internal/engine/engine.go:77-83 | an edge names its two ends, the one with the lesser column, or row, first |
| Compass.HistoricalSteps | internal/engine/engine.go:322-355 | ten steps of the historical board by their coordinates, four of them across seams |
| HalfEdges.HalfEdgePairing | internal/engine/geometry.go:94-110 | any set of board edges is seen from exactly twice as many half-edges |
| HalfEdges.TorusEdgeCount | internal/engine/geometry.go:128-143 | a torus of width W and height H has exactly 3·W·H distinct edges, for all sizes |
| HalfEdges.EdgeBound | internal/engine/geometry.go:128-143 | no set of edges of any regular board is larger than three per cell |
| BoardScan.Points | internal/engine/engine.go:289-301 | the scan lists every cell of the board once |
| BoardScan.AllEdges | internal/engine/geometry.go:128-143 | the scan lists every edge once and nothing else; on a torus it has length 3·W·H |
| Ledger.SpokesAfterTrail | internal/engine/engine.go:677-685 | a new trail adds exactly one spoke at each of its ends and none anywhere else |
| Ledger.FreeSpokeAtOtherEnd | internal/engine/engine.go:381-393 | a spoke free at one end of an edge is free at the other, although the masks are cached cell by cell |
| Ledger.MoveKeepsSound | internal/engine/engine.go:603-686 | a move keeps the whole ledger: cached masks equal the recomputed ones, a cell has an owner exactly when its mask is full, every score counts the cells owned, owners are worms, worms stay on the board |
| Ledger.StepKeepsSound | internal/engine/engine.go:603-654 | the same for every accepted `Step` |
| Ledger.StepIsPermanent | internal/engine/engine.go:655-676 | each accepted move makes one new trail and one tick, and a captured cell never changes again |
| Ledger.SpokeBitsTotal | internal/engine/engine.go:381-392 | over the board the spoke bits total twice the number of trails |
| Ledger.ScoresCostTrails | internal/engine/engine.go:655-676 | three times the sum of all scores is at most the number of trails, which is at most 3·W·H |
| MoveLaws.StepMovesOneWorm | internal/engine/engine.go:603-654 | an accepted move puts the first worm of that name one step on in the given direction, marks the trail with its name, and leaves every other worm and every cell but two as they were; the worm dies exactly if the cell it enters is complete |
| MoveLaws.StepSettlesTwoCells | internal/engine/engine.go:655-686 | both cells take the mover's colour unless they have an owner, a cell is won exactly when it is complete and had no owner, each cell won is one point, and the log is the trail, the cell left, the cell entered, the move and the death, in this order and with the new tick |
| MoveLaws.StepRefusals | internal/engine/engine.go:603-634 | every call is refused for the first reason of the list that applies, each read off the state, and accepted if none does |
| GameState.State.TrailMask | internal/engine/engine.go:677-685 | the mask recomputed from the trails, bit by bit |
| GameState.State.CellMask | internal/engine/engine.go:381-393 | the recomputed mask joined with the cached one |
| GameState.State.Moves | internal/engine/engine.go:407-428 | in place of the class's fields: exactly the legal directions, in order |
| GameState.State.RecolorCapture | internal/engine/engine.go:655-676 | the cell is captured, recoloured or only refreshed, with the score and the event that go with it |
| GameState.State.Step | internal/engine/engine.go:603-654 | every rejection leaves the state and its log as they were; an accepted move produces the specified state, events and returned record, which `MoveLaws` and `Compass` describe from outside |
| GameState.State.Snapshot | internal/engine/engine.go:868-885 | a detached copy of the whole state |
| AutoChoice.LegalIffSteppable | internal/engine/engine.go:407-428 | while the game is not over, the listed moves are exactly the directions `Step` accepts |
| AutoChoice.AutoIsOptimal | internal/engine/controller.go:348-393 | the automatic choice is legal and no legal direction is rated better, whatever the seed; `AutoChoice.ChoiceInPlainTerms` says what that means |
| AutoChoice.ChoiceInPlainTerms | internal/engine/controller.go:348-393 | for every legal direction, from the results of `Step` and the list of worms alone: none gains more than the chosen one; of those that gain as much none meets fewer live worms; of those none leaves more onward moves |
| AutoChoice.LegalMovesGoClockwise | internal/engine/engine.go:407-428 | legal directions are listed clockwise from East |
| TieBreaks.DrawBreaksTies | internal/engine/controller.go:384-393 | of the directions as good as the chosen one, exactly as many as the seeded draw says come before it clockwise; a direction without equals is taken without a draw |
| KnownDraws.MixedDraw | internal/engine/controller.go:389-392 | the word mixed from seed 7, round 3, tick 11 and slot 1 draws the last of five directions, in the engine and in the extension |
| KnownDraws.ZeroDraws | internal/extension/extension.go:934-941 | where the mixed word is zero the engine draws by its replacement word and the extension takes the first |
| GameState.State.Choose | internal/engine/controller.go:348-393 | the loop over trial copies computes that choice and leaves the state alone |
| GameState.State.Trial | internal/engine/controller.go:348-393 | one trial move on a copy, rated, or rejected |
| Rounds.StepIsLater | internal/engine/engine.go:603-654 | whatever the start, a move draws one trail in one tick, uses up work (free edges and live worms) and touches no controller field; on a sound start the whole ledger and every owned cell are kept |
| Rounds.TurnKeeps | internal/engine/controller.go:202-238 | whatever the start, a slot's turn uses up work and keeps what the ledger had, or stalls leaving only a pending decision that matches the board |
| Rounds.SlotsKeep | internal/engine/controller.go:183-247 | the same for the rest of a round; it ends stalled with a matching decision, or closed with the round counted and game over exactly when nobody is alive |
| TurnLaws.TurnByCases | internal/engine/controller.go:202-247 | a turn case by case, from the tables, the states and the log: dead, blocked, dying, asking, choosing, taken or malformed directions, and one step in the remembered direction; a use is counted and reported, and an automatic choice is learned and reported exactly if the worm is not frozen |
| TurnLaws.FrozenNeverLearns | internal/engine/controller.go:202-340 | along every run of `Step`, `AdvanceRound` and `Submit` a frozen worm has the same rules at the end as at the start |
| TurnLaws.RoundServesEveryone | internal/engine/controller.go:183-247 | a round serves every slot from its first on once: who is alive at its end has used exactly one rule in it, and dead worms, earlier slots and the slots from a stall on are untouched |
| TurnLaws.RoundsBegin | internal/engine/controller.go:183-202 | a round begins at the active slot, or the first, and is refused while a decision is pending and then if the game is over; its last events are the round's end and, if nobody is left, the game's, or the question it stalls on |
| TurnLaws.DecisionsAreRefused | internal/engine/controller.go:253-292 | a decision is refused for the first reason of the list that applies, each read off the state; otherwise its own move is accepted |
| TurnLaws.DecisionsArePlayed | internal/engine/controller.go:253-340 | an accepted decision is reported as learned and as used, the worm of its slot remembers it, goes one step that way and is served once, and earlier slots are untouched |
| GameState.State.ServeSlot | internal/engine/controller.go:202-238 | the body of the slot loop, branch by branch |
| GameState.State.RunSlots | internal/engine/controller.go:202-247 | the slot loop and the end of the round |
| GameState.State.AdvanceRound | internal/engine/controller.go:183-247 | in bounded and historical mode alike the call does what the specified round does, which `TurnLaws` describes from outside, and a failing call leaves the state and the log exactly as before |
| GameState.State.Submit | internal/engine/controller.go:253-340 | the submitted direction is learned, counted and played and the round resumed; a failing call changes nothing |
| GameState.State.AnswerPending | internal/engine/controller.go:283-293 | the three steps that resolve a decision |
| GameState.State.Kill | internal/engine/controller.go:248-252 | a worm dies where it is |
| Progress.CallKeeps | internal/engine/controller.go:183-340 | whatever the start, every successful call strictly lowers the measure and leaves the round closed or stalled on a matching decision |
| Progress.OpKeeps | internal/engine/controller.go:183-340 | the same for each of the three entry points, `Step` included |
| Progress.RunIsBounded | internal/engine/controller.go:183-340 | for any start and any mix of `Step`, `AdvanceRound` and `Submit`: a run is no longer than the measure it uses up; if trails and live worms are on a regular board the measure is never negative and rounds stay within free edges + live worms + 2; from a sound start the ledger is kept |
| Progress.TicksCountTrails | internal/engine/engine.go:603-686 | along every such run the tick counts the trails, at most 3·W·H; on a sound start the ledger and every owned cell are kept, three times the scores is at most the tick, and the spoke bits total twice the tick |
| Progress.FreshRun | internal/engine/controller.go:183-340 | from a new board, for any mix of the three entry points: all of that, and the round counter is at most 3·W·H + worms + 1 |
| Progress.AdvanceNeverFails | internal/engine/controller.go:183-247 | on a historical torus of any size with distinct names and valid rule tables `AdvanceRound` never fails and every table stays valid, whatever the caches, owners, scores and active slot |
| Progress.SubmitAcceptsExactly | internal/engine/controller.go:253-292 | on the same states a submitted direction is accepted exactly when a decision is pending in a slot, the game goes on, neither decision nor worm is frozen and the direction is legal for the worm; the tables stay valid exactly when the direction is free in the decision's mask |
| Progress.TeachKeepsValid | internal/engine/controller.go:109-131 | teaching a free direction keeps a table valid, forced exits included |
| Progress.GameEnds | internal/engine/controller.go:183-340 | from every position whose pending decision, if any, matches the board some run of calls reaches game over or a frozen worm's decision |
| StateValidation.Validate | internal/engine/engine.go:443-524 | `Validate` accepts exactly the states described by `Valid`, names that are not blank and at most 128 bytes long included |
| StartLaws.ValidSpelledOut | internal/engine/engine.go:443-524 | `Validate` accepts a state if and only if: a size of at least 1 by 1, even height on a historical torus, at most four worms with different proper names, live ones on the board and, outside historical rules, apart, scores that count completed cells, playable tables, completed cells owned by worms, and trails between two cells seen from both ends |
| Identifiers.ValidIdExactly | internal/engine/engine.go:431-442 | what is not empty once trimmed and has at most 128 bytes is exactly what has a character that is not white space and at most 128 bytes |
| Identifiers.CodePoints | internal/engine/engine.go:431-442 | the twenty-five white space characters, and the bytes of a character, by code point |
| StateValidation.ReciprocalOK | internal/engine/geometry.go:94-110 | accepts exactly the states whose every edge is seen from both of its ends |
| StateValidation.CheckCells | internal/engine/engine.go:502-522 | counting completed cells per owner accepts exactly the states whose scores are those counts |
| StateValidation.ValidMeansSound | internal/engine/engine.go:443-524 | for states whose cached masks are in sync, `Validate` accepts exactly those that satisfy the ledger invariant and seat their worms properly |
| StateValidation.StepKeepsValid | internal/engine/engine.go:603-654 | a move takes a valid state in sync to a valid state in sync |
| StateValidation.RunStaysValid | internal/engine/controller.go:183-340 | historical or modern, torus or bounded: along every run of calls from a valid state in sync, whose pending decision the engine has asked for, each state passes `Validate` |
| StateValidation.NewGameIsValid | internal/engine/board.go:16-62 | every new game is such a state |
| StateValidation.InsertTrail | internal/engine/geometry.go:55-79 | a trail is placed and both masks refreshed, or nothing changes |
| StateValidation.InsertedIsSoundExactly | internal/engine/geometry.go:55-79 | an inserted trail keeps the ledger if and only if it completes neither of its cells |
| StartLaws.InsertionsShow | internal/engine/geometry.go:55-79 | a trail is inserted exactly between two different cells of the board that a direction joins and no trail does; it is the owner's, both masks gain what is drawn there, and owners, colours and scores stay |
| Masks.MaskOfNumber | internal/engine/controller.go:73-78 | every mask is the mask of its six-bit number, so the 64 table entries cover all masks |
| StartLaws.BitsInClockOrder | internal/engine/engine.go:381-392 | the bits of a mask, clockwise from East, are worth 1, 2, 4, 8, 16 and 32 |
| StartPositions.InstallForced | internal/engine/controller.go:73-78 | single exits and the closed cell are forced, every other entry is kept |
| StartPositions.WithForcedAt | internal/engine/controller.go:73-78 | in the resulting table exactly the six single exits and the closed cell are forced and every other entry is the old one |
| StartPositions.InitialTableAt | internal/engine/controller.go:23-72 | the table of each kind of controller, entry by entry: where it asks, where it chooses, where it holds one of its own exits, where it keeps what it had |
| StartLaws.ControllersStart | internal/engine/controller.go:23-72 | every field of a configured worm, for every kind: new and automatic worms start unfrozen, without uses, asking or choosing wherever two directions are free; wild ones frozen, with a free direction remembered there; the others keep table, uses and flag; only sleepers are not alive |
| KnownDraws.KnownWildEntry | internal/engine/controller.go:79-99 | with seed 1 a wild worm leaves an untouched cell to the West |
| StartPositions.KindsWithOwnTablesAreValid | internal/engine/controller.go:23-72 | new, automatic and wild worms get a valid table whatever the seed |
| StartPositions.FillWild | internal/engine/controller.go:79-99 | the loop draws exactly the table that the seeded stream determines; every mask that is not full gets one of its own exits (`StartPositions.WildUpToAt`) |
| StartPositions.ValidateRules | internal/engine/controller.go:109-131 | accepts exactly the valid tables |
| StartPositions.ConfigureWorm | internal/engine/controller.go:23-72 | accepted if and only if the configured table is valid, and then every field of the worm, crix, frozen flag and use counts included, is the specified one; otherwise nothing is returned |
| StartPositions.ConfigureControllers | internal/engine/controller.go:10-22 | succeeds exactly if there is one kind per worm and every configured table is valid; then each worm is configured with its own seed, else the list is unchanged |
| StartPositions.ShuffledElements | internal/engine/board.go:54-59 | the shuffle loses no point and repeats none |
| StartPositions.ShuffleInPlace | internal/engine/board.go:54-59 | the loop over the array computes the shuffle |
| StartPositions.GenerateBoard | internal/engine/board.go:16-62 | the configurations accepted, and for each of them a start to which every theorem about runs applies; modern worms stand on the first cells of the seeded shuffle of the row-major scan, all different, and historical worms share the centre |
| StartLaws.BoardsAccepted | internal/engine/board.go:16-53 | one to four worms; 18 by 18 or an open size on historical boards; positive sizes with a cell for each worm on modern ones |
| StartLaws.NewWormsAreNamed | internal/engine/board.go:33-36 | the names of the four worms, and every field they start with |
| StartLaws.NewGamesAreBlank | internal/engine/engine.go:251-276 | in a new game every cell of the board is there, blank and unowned, nothing is drawn, and clock, round, slot and decision are at their start |
| KnownDraws.KnownShuffle | internal/engine/board.go:54-59 | the order of the starts on a two by two board under seed 1 |
| StartPositions.NewGameEnds | internal/engine/controller.go:183-340 | from a new historical game with valid tables some run reaches the end within 9·W·H + 3·worms + 2 calls |
| EventSourcing.FirstDirectionFinds | internal/engine/engine.go:1091-1108 | searching for the first matching direction finds the direction a move took |
| EventSourcing.MoveRebuilds | internal/engine/engine.go:987-1089 | applying the events of a move between cells without an owner rebuilds the state after the move |
| EventSourcing.MoveRebuildsExactly | internal/engine/engine.go:987-1089 | for masks in sync the events of one move rebuild it if and only if neither of its two cells has an owner |
| EventSourcing.SlotsFaithful | internal/engine/engine.go:987-1089 | applying a round's events gives the state after it, stalled or closed, in everything but the masks of owned cells at which one of its trails begins or ends |
| EventSourcing.SubmitFaithful | internal/engine/engine.go:987-1089 | the same for a submitted decision |
| EventSourcing.NamedReplayIsExact | internal/engine/engine.go:928-985 | if no decision is pending at the start, or the pending one names the worm of its slot, replay is exact if and only if no trail reported in the log begins or ends at a cell that had an owner at the start |
| EventSourcing.SparedExactly | internal/engine/engine.go:655-676 | whether a run has left the owned cells alone can be read off its log |
| EventSourcing.RunKeepsLedger | internal/engine/engine.go:603-686 | along every run that mixes moves, rounds and decisions, with its log: the ledger, the owned cells and the totals are kept |
| EventSourcing.ReplayFromUnownedIsExact | internal/engine/engine.go:928-985 | if moreover the start has no owner on an unfinished cell, every run is replayed exactly |
| StrandedDecision.LogFrame | internal/engine/engine.go:1051-1082 | of two starts that differ only in their pending decision and active slot, the replay of one log succeeds from both, with the same result, unless a round ends before the second decision is resolved, and then it is refused |
| StrandedDecision.RunIgnoresName | internal/engine/controller.go:253-340 | no operation reads whom a pending decision names |
| StrandedDecision.ReplayIsExact | internal/engine/engine.go:928-985 | for every start with masks in sync and distinct names and every successful run of `Step`, `AdvanceRound` and `Submit`, replaying the emitted events gives exactly the final state (rules, uses, scores, pending decision, slot, round and the log itself) if and only if no trail of the log touches a cell that had an owner at the start and the log does not strand the decision pending then; both are read off the start and the log |
| InexactReplay.ValidStartIsPlaced | internal/engine/engine.go:443-524 | every state that `Validate` accepts, with its masks in sync and room around a torus, is such a start |
| InexactReplay.ValidStartIsSound | internal/engine/engine.go:443-524 | it satisfies the whole ledger if and only if no unfinished cell has an owner |
| InexactReplay.OwnedCentreIsNotReplayed | internal/engine/engine.go:655-676 | a valid start, with an owner on the cell its worm stands on, whose one-move run is not replayed exactly |
| InexactReplay.LastSlotStrands | internal/engine/controller.go:253-340 | a decision pending in the last slot is stranded by its own answer if and only if it names another worm |
| InexactReplay.MisnamedIsNotReplayed | internal/engine/engine.go:1051-1082 | a valid start without owners, whose pending decision names another worm, whose one-answer run is not replayed |
| LegacyReplay.RecordRepeats | internal/engine/engine.go:940-975 | re-executing a bare move record repeats the move |
| LegacyReplay.TwoReplaysAgree | internal/engine/engine.go:933-984 | for every run of moves, replaying only its move records always gives the final state; replaying the full log gives the same if and only if no trail of it touches a cell that had an owner at the start, whatever is pending |
| GameState.State.ApplyEvent | internal/engine/engine.go:987-1089 | one recorded event, applied in place, with every reason for refusing it |
| ReplayRefusals.TrailEvents | internal/engine/engine.go:988-1004 | a trail event is accepted exactly on the next tick for the edge between its ends if no trail is on it, and then draws it |
| ReplayRefusals.LateEvents | internal/engine/engine.go:1005-1007 | every other event is refused outside the current tick |
| ReplayRefusals.CellEvents | internal/engine/engine.go:1009-1028 | a recoloured cell keeps the colour of its owner; a captured one takes colour and owner, and the owner the points |
| ReplayRefusals.MoveEvents | internal/engine/engine.go:1029-1040 | a move event is accepted exactly from where its live worm stands, along the edge to a neighbour |
| ReplayRefusals.DeathEvents | internal/engine/engine.go:1041-1050 | a death is accepted exactly where its worm stands |
| ReplayRefusals.RuleEvents | internal/engine/engine.go:1051-1066 | rules and uses are accepted for known worms; a learned rule resolves the pending decision with its worm and mask |
| ReplayRefusals.RoundEvents | internal/engine/engine.go:1067-1087 | a question is accepted from its worm's slot, a round's end in its turn with no question open |
| ReplayRefusals.LogsAreNumbered | internal/engine/engine.go:928-985 | a full log is accepted exactly if it is numbered on from the state's own, in versions 0 and 1, and every event fits |
| ReplayRefusals.AppliedInOrder | internal/engine/engine.go:928-985 | events are applied one after the other, and the first that does not fit ends the replay |
| ReplayRefusals.LoneMoveRecords | internal/engine/engine.go:933-984 | a lone move record is re-executed, under its own number or the one its move gets |
| GameState.State.DirectionOf | internal/engine/engine.go:1091-1108 | the direction of a recorded move, or why there is none |
| GameState.State.ReplayOnto | internal/engine/engine.go:928-985 | the version and sequence checks and both forms of replay |
| StallTransparency.SubmitResumes | internal/engine/controller.go:253-340 | for distinct names, answering a stall goes on as the turn of a worm that already knew the rule |
| StallTransparency.AnsweredStallIsTaughtRound | internal/engine/controller.go:183-340 | on every state with distinct names a stalled round that is answered equals, apart from the log and request numbers and errors included, one round from the original state with that rule already taught |
| StallTransparency.ConversationIsForetoldRound | internal/engine/controller.go:183-340 | the same for any number of stalls in one round |
| Variants.FadeRecounts | internal/extension/extension.go:980-999 | the incremental update of one end of an expired trail is the full recount of every total it touches |
| Variants.UnlayIs | internal/extension/extension.go:977-1000 | while the books are in order, taking one expired trail away incrementally is taking it away and recounting the board |
| Variants.WithoutMore | internal/extension/extension.go:973-1003 | on every state expired trails can be taken away one by one in any order with the same result |
| Variants.UnlaysCommute | internal/extension/extension.go:977-1000 | on every state two trails expire in either order with the same masks, owners, counts, scores and team scores |
| Variants.WithoutRecounts | internal/extension/extension.go:973-1003 | while the books are in order, the expiry of any set of live trails is one recount of the board without them |
| Variants.WithoutKeeps | internal/extension/extension.go:973-1003 | after any set of trails has expired masks equal the trail set, base scores count owned cells, weighted scores are the weighted sums, and team scores still agree |
| ExpiryLaws.TrailsAfterMove | internal/extension/extension.go:746-749 | an accepted move draws one trail, dated the lifetime after the new tick; every other trail is still there exactly if the new tick has not reached its expiry, and no date moves |
| ExpiryLaws.CellsAfterExpiry | internal/extension/extension.go:977-1000 | expiry takes from a cell exactly the spokes of expired trails; a cell that loses one loses its owner and with it the colour, and every other cell keeps both |
| ExpiryLaws.ScoresStayAboveZero | internal/extension/extension.go:985-989 | on every state expiry gives nobody a point and takes no count below zero |
| VariantMoves.AppliedExactly | internal/extension/extension.go:657-684 | `Apply` accepts exactly the moves that the test as written allows and whose own spoke is free, of a game that is not over; on sound positions the first implies the second; a refused call leaves only the expiry behind; `TerrainLaws.ApplyAccepts` spells the test out |
| TerrainLaws.ApplyAccepts | internal/extension/extension.go:657-709 | after the expiry a call is accepted exactly if a live worm with energy goes to a cell of the board without obstacle, hole or, outside historical rules, live worm, along a free edge, the right way of a one-way edge, from a cell whose East spoke is free, the game goes on and no stale spoke stands in the way; otherwise the error is determined |
| TerrainLaws.RunHonours | internal/extension/extension.go:657-756 | along every run of a variant game no live worm comes to stand on an obstacle or in a hole, and every move reported ends on open ground and goes the way of a one-way edge |
| VariantMoves.WrittenRule | internal/extension/extension.go:657-684 | where no spoke is cached without its trail, the test as written allows a direction if and only if the intended one does and the East spoke of the cell is free |
| Masks.GuardTestsEast | internal/extension/extension.go:667 | on the numbers, `mask & 1 << d` as it groups is non-zero exactly when the East bit is set, whatever d is |
| EastSpoke.MovesAsWritten | internal/extension/extension.go:641-684 | a live worm with energy, on a cell without a stale spoke, has its intended moves where the East spoke is free and none elsewhere |
| EastSpoke.WestLeavesNoMove | internal/extension/extension.go:657-756 | where live worms stand on a regular board, after an accepted move to the West the worm has no legal move |
| EastSpoke.EastSpokeKills | internal/extension/extension.go:862-912 | the next turn of a live worm on a cell whose East spoke is drawn kills it as blocked |
| EastSpoke.WestStrandsTheLoner | internal/extension/extension.go:667 | the game that shows it: a lone worm goes West on the empty historical board, SouthEast is free, intended and legal for the engine, yet no move is listed and the next turn kills the worm |
| VariantMoves.WeighedAfterMove | internal/extension/extension.go:712-722 | the captures reported among the new events are exactly the growth of the mover's weighted total |
| VariantMoves.DeltaIsWeight | internal/extension/extension.go:710-722 | the reported score delta is the weight of the cells captured |
| ExpiryLaws.MovesEarnWeights | internal/extension/extension.go:710-755 | where trails are permanent a move earns, for its worm and its team and nobody else, the weights of the cells it completes, 1 where none or zero is configured |
| ExpiryLaws.MovesCostEnergy | internal/extension/extension.go:723-745 | with limited energy a move costs its worm one unit and nobody else anything; the worm lives on exactly if it is not closed in and has energy left, and the game is over exactly if the last unit took the last life |
| VariantMoves.ApplyKeepsBooks | internal/extension/extension.go:685-756 | every ledger survives every `Apply`, accepted or refused, although it draws one trail and may delete others and take cells back |
| VariantRounds.ChoiceIsBest | internal/extension/extension.go:913-942 | the automatic choice is a legal direction and none that can be played is worth more, with onward moves counted by the test as written, whatever the seed |
| VariantLaws.VariantChoiceInPlainTerms | internal/extension/extension.go:913-942 | from the results of `Apply` alone: no direction that can be played gains more weight than the chosen one, none that gains as much leaves more listed moves, and a lone legal direction is taken |
| TieBreaks.VariantDrawBreaksTies | internal/extension/extension.go:934-941 | of the directions worth as much as the chosen one, exactly as many as the draw says come before it clockwise |
| TieBreaks.VariantMovesGoClockwise | internal/extension/extension.go:641-656 | the variant's legal directions are listed clockwise from East |
| VariantLaws.VariantTurnByCases | internal/extension/extension.go:862-912 | a turn of the variant case by case, with its wild fallback; an automatic choice is learned and reported exactly if the worm is not frozen |
| VariantLaws.VariantFrozenNeverLearns | internal/extension/extension.go:771-912 | along every run of a variant game a frozen worm keeps its rules, if a decision pending at the start carries its worm's flag |
| VariantLaws.VariantRoundServesEveryone | internal/extension/extension.go:862-912 | a variant round serves every slot from its first on once, and takes from other worms at most points |
| VariantLaws.VariantDecisionsArePlayed | internal/extension/extension.go:812-860 | the three refusals of a decision, and for an accepted one: learned and used, in that order, remembered by the worm of its slot, which is served once |
| VariantRounds.TurnKeepsBooks | internal/extension/extension.go:862-912 | every turn keeps the ledgers |
| VariantFrames.ApplyLooks | internal/extension/extension.go:685-756 | a move of the variant, its two expiries and all its totals read no rule table, active slot or pending decision, and touch none |
| VariantFrames.ServeLooks | internal/extension/extension.go:862-942 | a slot's turn, automatic choice and wild fallback included, reads and touches no other worm's tables |
| VariantStalls.DecideResumes | internal/extension/extension.go:812-860 | answering a stall of the variant goes on as the turn of a worm that already knew the rule |
| VariantStalls.AnsweredRoundWasKnown | internal/extension/extension.go:771-912 | stall transparency of the variant, whatever the state: an answered round equals, apart from the log and request numbers and errors included, one round with that rule already taught |
| VariantStalls.TalkIsForewarnedRound | internal/extension/extension.go:771-912 | the same for any number of stalls in one round |
| VariantRuns.ApplyEffect | internal/extension/extension.go:723-750 | what an accepted move does to the clock, the lives, the energy and the expiries |
| VariantRuns.WindowIsSmall | internal/extension/extension.go:746-749 | when expiries are distinct and within the window nothing is due and at most TTL trails are live |
| VariantRuns.WindowSlides | internal/extension/extension.go:746-749 | `Apply` keeps expiries pairwise distinct and in (tick, tick + TTL] |
| VariantRuns.AtMostOneDue | internal/extension/extension.go:973-1003 | no trail is due at the first expiry of a move and at most one at the second |
| VariantEnergy.ApplySpends | internal/extension/extension.go:723-745 | on every state an accepted move costs its worm exactly one unit of limited energy and lowers energy plus lives; books, window and energies that were in order stay so, each for itself |
| VariantEnergy.TurnSpends | internal/extension/extension.go:862-912 | on every state a live worm's turn spends energy or a life, or stalls |
| VariantEnergy.SlotsSpend | internal/extension/extension.go:862-912 | the same for the rest of a round, which ends the game when it leaves nobody alive |
| VariantEnergy.CallKeeps | internal/extension/extension.go:771-860 | on every state a successful call pays for its moves, keeps what was in order and, with limited energy, lowers the measure |
| VariantEnergy.RunFollows | internal/extension/extension.go:771-912 | the same for every run |
| VariantEnergy.RunKeepsBooks | internal/extension/extension.go:771-912 | from books in order, along every run the totals kept are the totals a recount gives and each expiring trail is drawn |
| VariantEnergy.RunKeepsWindow | internal/extension/extension.go:746-749 | from a window of expiries, along every run at most TTL trails wait to expire, each for its own tick |
| VariantEnergy.RunKeepsGood | internal/extension/extension.go:438-482 | the whole invariant of a new game is kept along every run |
| VariantEnergy.EnergyBoundsRuns | internal/extension/extension.go:771-912 | from any state whose limited energies are between 0 and the limit a run has at most 3·(limit·entries + worms) + 2 successful calls, and one more if it starts after the first slot, even though trails expire |
| VariantEnergy.EnergyBoundsGames | internal/extension/extension.go:462-475 | for energies that pass the extension's own check that is 3·(limit + 1)·worms + 2 |
| VariantEnergy.EnergyIsLessMoves | internal/extension/extension.go:726-745 | from any state every worm's energy is what it had less its moves, so it makes no more moves than it had energy for |
| VariantEnergy.EnergyIsLimitLessMoves | internal/extension/extension.go:726-745 | from full energy a worm's energy is the limit less its moves, so no worm moves more often than the limit |
| VariantEnergy.NewGameIsGood | internal/extension/extension.go:383-434 | a new variant game on a sound position satisfies the whole invariant, whatever its terrain |
| VariantState.World.IsLegal | internal/extension/extension.go:657-684 | the legality test as written, in the class's own fields |
| VariantState.World.LegalMoves | internal/extension/extension.go:641-656 | exactly the directions that test allows, in order |
| VariantState.World.ExpireOne | internal/extension/extension.go:977-1000 | one due trail, both ends in turn |
| VariantState.World.Expire | internal/extension/extension.go:973-1003 | on every state the loop over the map, in an order it does not determine, leaves the specified state |
| VariantState.World.Apply | internal/extension/extension.go:685-756 | on every state the call in place, with its state, events and returned record, and the expiry that stays when it is refused |
| VariantState.World.ChooseAuto | internal/extension/extension.go:913-942 | the loop over trial copies computes the choice |
| VariantState.World.ServeSlot | internal/extension/extension.go:862-911 | the body of the slot loop, with the wild worm's fallback |
| VariantState.World.AdvanceRound | internal/extension/extension.go:771-807 | a failed round leaves everything as it was |
| VariantState.World.Submit | internal/extension/extension.go:812-860 | a failed decision leaves everything as it was |
| FogOfWar.Distance | internal/extension/extension.go:1543-1567 | the level-by-level search returns the length of a shortest walk of neighbours on the board, or the greatest integer when there is none |
| FogOfWar.EveryCellIsReachable | internal/extension/extension.go:1543-1567 | terrain never enters the search: every cell is within the sum of its coordinate differences |
| FogOfWar.ObserveCells | internal/extension/extension.go:1138-1147 | of the whole board, column by column, exactly the cells in the ball of the configured radius are visible, and the others are counted as unknown |
| FogOfWar.ObservationShows | internal/extension/extension.go:1137-1148 | a cell is visible exactly without fog, with a negative radius, or at the end of some way of at most the radius; a visible one shows its own obstacle, hole and weight and a hidden one nothing |
| FogOfWar.Columns | internal/extension/extension.go:1130-1148 | the columns hold every cell of the board once, in order |
| FogOfWar.Sees | internal/extension/extension.go:1138-1140 | one cell's test, and the one radius at which unreachable cells would show |
| FogOfWar.FogHidesTerrain | internal/extension/extension.go:1138-1147 | two boards give the same observation if and only if their terrain agrees inside the ball |
| Drain.StepKeepsInv | internal/ui/ui.go:2015-2096 | every atomic step of every thread keeps the invariant: one owner, no lost wakeup, targets and aborts tracked |
| Drain.StepLowersMeasure | internal/ui/ui.go:2076-2096 | every step lowers a measure, so no interleaving runs forever |
| Drain.NeverTwoOwners | internal/ui/ui.go:1886-1890 | in every interleaving at most one thread owns the in-flight flag, and then the flag is up |
| Drain.FinishedMeansServed | internal/ui/ui.go:2072-2096 | when all threads have finished the flag is down, no request is stranded, and every abort asked for has been committed |
| Drain.LastPauseWins | internal/ui/ui.go:2015-2022 | if no abort occurs the last pause value committed is the last one requested |
| Drain.CanFinish | internal/ui/ui.go:2015-2096 | from every state some schedule finishes all threads |
| DrainLaws.RequestsRaiseFlags | internal/ui/ui.go:2015-2030 | whatever other threads do in between, a pause request stores its target, then raises its flag, then tries to become the owner; an abort request raises its flag and tries the same |
| DrainLaws.ActionsRunAlone | internal/ui/ui.go:1886-1890 | an action runs only as the owner and drains afterwards, and is dropped where there is an owner |
| DrainLaws.AbortsComeFirst | internal/ui/ui.go:2076-2082 | the owner takes an abort first, drops the pause request, commits and looks again |
| DrainLaws.PausesComeNext | internal/ui/ui.go:2083-2086 | then a pause, whose target it reads only after taking the request |
| DrainLaws.ThenOwnershipEnds | internal/ui/ui.go:2087 | without either it gives up ownership |
| DrainLaws.OwnersLookAgain | internal/ui/ui.go:2088-2095 | and only then looks again: it is finished without a request, and otherwise becomes the owner once more if nobody else has |
| EventChain.EncodeInjective | internal/store/store.go:352-354 | the hashed encoding is injective for NUL-free hashes and payloads, even if kinds contain NULs |
| ChainLaws.NumberReads | internal/store/store.go:352-354 | numbers are hashed in decimal without leading zeros, with a minus sign below zero |
| ChainLaws.KnownEncoding | internal/store/store.go:352-354 | the text that is hashed for two known events |
| ChainLaws.VerifiedMeans | internal/store/store.go:1359-1388 | a log verifies if and only if its rows are numbered from 1, each carries the hash before it and the hash of number, previous hash, kind and payload with NULs between, and the head is the last of them |
| ChainLaws.PageLimits | internal/store/store.go:1563-1571 | a page limit from 1 to 1000 is taken as it is, any other as 100 |
| ChainLaws.AboveExactly | internal/store/store.go:1229-1231 | the rows above a number are exactly those with a greater one, in their order |
| EventChain.VerifyEvents | internal/debug/debug.go:821-838 | the one pass accepts exactly the well-formed chains under the head all of whose events belong to the game |
| EventChain.HeadDeterminesHistory | internal/store/store.go:1359-1388 | two verified logs with the same head are equal, or exhibit a collision; with an injective hash they are equal |
| EventChain.ListEvents | internal/store/store.go:1229-1256 | a page is the next rows above a sequence, or corrupt exactly if one of them is malformed |
| EventChain.VerifyEventChain | internal/store/store.go:1359-1388 | pages of 1000 rows accept exactly what the one pass accepts on the rows above 0, with valid payloads |
| EventChain.VerifiersDifferOnlyBelowOne | internal/debug/debug.go:821-838 | on the whole table the one pass accepts exactly when it accepts the rows above 0 and there are no others |
| EventChain.RechainedVerifies | internal/debug/debug.go:1058-1107 | a verified log verifies again after its payloads are redacted and its chain rebuilt |
| EventChain.Rechain | internal/debug/debug.go:1058-1107 | the loop over the array rebuilds the chain in place |
| ChainWriters.ChainInserts | internal/store/store.go:1091-1142 | a committed append inserts exactly the rows its inputs become on top of the head |
| ChainLaws.AppendAnswers | internal/store/store.go:1091-1142 | what an append answers on a log that verifies, in the order of the checks: ended game, other head, first input without kind or with a bad payload, a hash that comes up again; or the log grown by exactly its inputs, each row written out |
| ChainLaws.SnapshotAppendAnswers | internal/store/store.go:1146-1204 | the same with a snapshot, whose payload is looked at first and whose sequence after the head, and which must be the first of its sequence |
| ChainLaws.CommitAnswers | internal/match/match.go:982-1020 | a prepared chain is committed exactly if the head is still the one it was prepared for, no row is taken and the new sequence has no snapshot; it brings its status |
| ChainLaws.StoredHashesDiffer | internal/store/store.go:1091-1204 | in every interleaving of the writers no two stored events have the same hash |
| ChainWriters.StepIsSafe | internal/match/match.go:982-1020 | a step of any writer extends the log or leaves it alone, keeps it verified, and replaces no head twice |
| ChainWriters.InterleavingsAreSafe | internal/store/store.go:1091-1204 | in every interleaving of the three writers each committed log extends the one before, every reachable log verifies, and each head is consumed by at most one non-empty commit |
| ChainWriters.ReachableLogsPassBothVerifiers | internal/store/store.go:1359-1388 | every reachable log passes the paged and the one-pass verifier |
| ChainWriters.StaleWriterIsRefused | internal/match/match.go:982-1020 | a writer that read the head before another writer's non-empty commit is refused |
| GameStore.Store.AppendGameEvents | internal/store/store.go:1091-1142 | commits the specified log, or refuses and changes nothing |
| GameStore.Store.AppendGameEventsWithSnapshot | internal/store/store.go:1146-1204 | the same with a snapshot at the new sequence |
| GameStore.Store.ReadAndChain | internal/match/match.go:982-998 | the chain built outside the transaction continues the head that was read |
| GameStore.Store.Commit | internal/match/match.go:998-1020 | commits only if the head is still the one that was read |
| RuleSharing.BuildMap | internal/sharing/sharing.go:415-423 | the first rule of a key counts |
| RuleSharing.SortedRules | internal/sharing/sharing.go:424-431 | the list in order of keys whose table is the map |
| RuleSharing.UniqueRules | internal/sharing/sharing.go:499-508 | accepts exactly the lists without repeated keys |
| RuleSharing.MergeDonors | internal/sharing/sharing.go:289-335 | the merge loop leaves each key with the first donor that has it, corrupted where drawn, else with the recipient |
| RuleSharing.HoldsMerges | internal/sharing/sharing.go:289-335 | that is the value of the least-named eligible donor, failing any the recipient's own; `SharingLaws.DonorsByPolicy` says who is eligible |
| SharingLaws.DonorsByPolicy | internal/sharing/sharing.go:278-302 | the donors listed, in byte order, are exactly: the other worms of the recipient's own non-empty team under "same_team", all other worms under "all_worms" and "seeded_noisy", nobody otherwise |
| SharingLaws.TableInPlainTerms | internal/sharing/sharing.go:301-334 | a key that a listed donor has holds the value of the first of them in byte order, garbled where noise strikes; any other key holds what it held |
| SharingLaws.CorruptGarbles | internal/sharing/sharing.go:559-577 | what garbling makes of a number, null, a text, a truth value and anything else |
| SharingLaws.DiffInPlainTerms | internal/sharing/sharing.go:347-365 | every key that is new, and every key whose value differs, is reported, with old and new value, the donor that gave it and whether noise struck; nothing else is |
| SharingLaws.AloneNothingChanges | internal/sharing/sharing.go:278-292 | under "none", and under "same_team" without a team, a recipient keeps its table and nothing is reported |
| SharingLaws.OutsidersDoNotMatter | internal/sharing/sharing.go:278-292 | under "same_team" replacing, adding or dropping sources outside the recipient's team leaves its record as it is |
| RuleSharing.DeriveOne | internal/sharing/sharing.go:266-366 | the whole derived record of one recipient meets its specification |
| RuleSharing.Derive | internal/sharing/sharing.go:255-373 | succeeds exactly for acceptable configurations whose sources all decode without repeated keys, with one specified record per source in order of names; otherwise the fault is the first one met |
| RuleSharing.ValidateConfig | internal/sharing/sharing.go:172-201 | finds no fault exactly for acceptable configurations |
| SharingLaws.AcceptedExactly | internal/sharing/sharing.go:172-205 | the configurations accepted: the four policies by name, finite rates from 0 to 1, at least one source, different non-empty names, rules or a version for each |
| SharingLaws.RecordsAreInOrder | internal/sharing/sharing.go:255-270 | the records are those of the sources, one each, in byte order of names |
| SharingLaws.RulesAreInOrder | internal/sharing/sharing.go:424-431 | the rules of a record are in byte order of their keys |
| RuleSharing.DerivedIsUnique | internal/sharing/sharing.go:255-373 | the specification leaves nothing open: one table, one diff, one donor list |
| RuleSharing.DiffIsPatch | internal/sharing/sharing.go:347-365 | applying the additions and changes to the recipient's table yields the derived one, and nothing is removed |
| RuleSharing.OutputIgnoresOrder | internal/sharing/sharing.go:255-373 | permuting the sources leaves the whole output unchanged |

## Left out

- HTTP routing, SQL text, migrations, command lines, drawing and browser hooks: input and output.
- JSON encoding and SHA-256: payloads are opaque texts with an abstract validity, and the hash is a parameter.
- Event provenance, brain identifiers and versions, territory identifiers, and the state's provenance record: carried along, never read by the rules.
- Ticks, rounds and scores are unbounded; use counters wrap at 2^32 as in the source.
- Bits six and seven of an imported territory mask: a mask is a set of the six directions.
- Index panics of the source appear as the error `Crash`; other panics are not modelled.
- `advanceAfterSubmit` repeats the slot loop of `AdvanceRound`; both are the one method `GameState.State.RunSlots`.
- The request frame, HTTP calls and retries around the drain protocol: a commit is one step, whatever it answers.
- The extension's own event list, hash-chained like the store's, and `extension.Replay`: `Apply` records an expiry before its move while `Replay` expires before applying the move, so logs with temporary trails are not replayable as written.
- `generateWorld` and the checks of a variant configuration: terrain and teams are arbitrary parameters of the variant model.
- The classic form of the extension: without features every call is the engine's, which is modelled directly.
- Totality of variant rounds: a remembered rule can point at an obstacle and raise the illegal-rule error, so only successful calls are bounded.
- `decodeRules`, `encodeRules`, lineage, provenance and hashes of the rule merge: rules enter as decoded lists, and whether a rule is corrupted is an arbitrary boolean draw of the rate, recipient, donor and key.
- StateValidation.Validate: does not model the checks of direction fields, because a heading has no other values, nor the UTF-8 test of names, because a string is a sequence of characters.
- VariantState.World.Expire: does not model the records that expiry adds to the extension's own event list.
- VariantState.World.AdvanceRound: does not model the round record in the extension's own event list.
- VariantState.World.Submit: does not model the round record in the extension's own event list.
- VariantState.World.Apply: does not model the record that a move adds to the extension's own event list.
- GameStore.Store.Commit: does not model the update of other game columns in the same transaction.
- Planner, tournament, experiment, agent sessions, protocol validation and the tick scheduler: they restate engine facts or read single branches.
