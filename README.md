# Camel race engine

A Dafny model of the game store of a browser version of the board game Camel Up
(`store/useGameState.ts`). The store holds one game: a 16-space track, seven camels
(five regular racers and two "crazy" camels, white and black, that run backwards), the
players, and one results record per round. A record holds the round's dice rolls, its
wagers, its spectator tokens and its partnerships. The model covers the store's
operations:

- rolling a die (the random draw is an input);
- moving a camel together with the camels stacked on it;
- betting on a round or on the whole race;
- forming a partnership;
- placing and moving spectator tokens;
- ending a round.

The model has six modules, one file each, plus the shared types:

- `Types` (`types.dfy`): the records of the `types/` directory as datatypes.
- `Setup` (`setup.dfy`): the initial board, camels and wager decks, the die faces,
  `initializePlayers`, and the reset record that `initializeRoundResults` appends.
- `Movement` (`movement.dfy`): `moveCamel` as a function `PlanMove` on a board and a camel
  list, and the properties of a move.
- `Tokens` (`tokens.dfy`): the spectator-token checks and updates.
- `Ledger` (`ledger.dfy`): the partnership rule.
- `Rounds` (`rounds.dfy`): the starting-player rotation and the token wipe done at the end
  of a round.
- `GameStore` (`game_state.dfy`): the store itself.
  - The store is the class `GameState`. The board and the camel list are arrays updated
    in place, and the other fields are reassigned.
  - Each method has a contract that ties the new state to the functions above. The
    `forEach` loops of `moveCamel` and `clearSpectatorTokens` are `while` loops with
    invariants.

JavaScript behaviour is written out where the store relies on it:

- `indexOf` gives -1 when the colour is absent.
- `splice` with a negative start counts from the end.
- `find` and `findIndex` return the first match.
- `players[i]` off the end of the list is `undefined` (`None` here).

Board positions of camels are 0-based. The space numbers that the spectator-token
operations take are 1-based, as in the source.

## Behaviour of the source as written

The model follows the code, including these consequences of it:

- **No camel ever moves.**
  - The initial camels stand at position 0, but no camel is put into any space's
    `camelOrderOnSpace`.
  - So `indexOf` gives -1 and `splice(-1)` of the empty stack cuts nothing. Every
    `moveCamel` from the initial state changes nothing (`Movement.NothingMovesFromStart`,
    `GameStore.MoveFromStart`).
  - In the game, a first roll of 2 should take red two spaces ahead. The code as written
    leaves every camel at 0.
  - On a board where the stacks are filled in, the code moves the mover and the camels
    above it (`Movement.BlueCarriesGreen`).
- **A mover missing from its own stack takes the top camel instead.** `splice(-1)` cuts the
  last element (`Movement.MoveGroup`).
- **The round records are indexed one past the end.**
  - `currentRound` starts at 0.
  - `initializeGameState` raises it to 1 and then appends the first record, at index 0.
  - `endRound` never raises it, but it appends a record with the same round number.
  - So `roundResults[currentRound]` is always one past the last record
    (`GameStore.RoundAfterSetup`). As written, a regular roll, a wager, a partnership and
    a successful token placement or move all fail with a `TypeError`.
  - The model makes `0 <= currentRound < |roundResults|` a precondition of those steps.
- **The last player never starts a round.** The rotation wraps once `index + 1` reaches
  `players.length - 1`, so index `players.length - 1` is skipped (`Rounds.StartRotation`).
- **The round-end `watch` cannot be set up, so the store is never created.**
  - It is registered on `roundResults[currentRound].diceResults` while `roundResults` is
    still empty (store/useGameState.ts:26).
  - `roundResults[0]` is `undefined`, so reading `.diceResults` throws a `TypeError`
    inside `useGameState` itself. As written, the store object is never returned and no
    operation can be called.
  - The model's constructor succeeds where the source fails. It builds the state of the
    `ref` at store/useGameState.ts:12-23, as if the registration had not thrown.
  - The model puts its evident intent at the end of a regular roll: once the current
    record holds five rolls, the round ends.

## Model

| member | source | states |
|---|---|---|
| Setup.InitializePlayers | store/useGameState.ts:41-48 | one player per name, in order, with id = place in the list + 1, that name, 3 coins and no wager cards; all ids differ |
| Setup.FreshRoundResults | store/useGameState.ts:294-303 | the appended record carries the given round number and has no dice, wagers, tokens or partnerships; it has one deck per regular colour and none for white or black, each with amounts 5, 3, 2, 2 |
| Movement.IndexOf | store/useGameState.ts:104 | -1 exactly when the colour is not in the stack, otherwise the index of its first occurrence |
| Movement.CamelIndex | store/useGameState.ts:88 | -1 exactly when no camel has the colour, otherwise the first camel with it |
| Movement.SpliceStart | store/useGameState.ts:105 | where `splice` cuts: at the mover's index when it is present; for -1, before the top camel, or nothing from an empty stack |
| Movement.Clamp | store/useGameState.ts:95-101 | the result lies in 0..hi; it is x when x is in range, 0 below the range and hi above it |
| Movement.Destination | store/useGameState.ts:93-101 | the landing index is on the track; regular camels go forward by the value and white and black go back; a camel that would run past the last index stops on it, and one that would run back past the start stops on 0 |
| Movement.TopCamel | store/useGameState.ts:106-115 | the shown camel is the stack's last colour when that colour has a camel; otherwise none is shown |
| Movement.PlanMove | store/useGameState.ts:86-140 | the move is missing exactly when no camel has the colour (the early return); otherwise the mover is the first camel of that colour, the origin is its position, the destination is the clamped landing index, and the origin stack splits into what stays plus the moving group |
| Movement.MoveStaysOnTrack | store/useGameState.ts:95-101 | after a move every camel is still on the track |
| Movement.MoveGroup | store/useGameState.ts:103-105 | the moving group is the suffix of the origin stack from the mover up, and the mover is not left behind; a mover missing from its stack takes the top camel, or nothing; spaces other than origin and destination are unchanged |
| Movement.MoveStacking | store/useGameState.ts:117-125 | a special camel landing on an occupied stack goes under it, and every other group goes on top in its own order; a regular camel held in place at the end leaves its stack as it was |
| Movement.MoveConserves | store/useGameState.ts:103-125 | the number of occurrences of each colour over all stacks is the same before and after a move |
| Movement.RelocatedUnique | store/useGameState.ts:134-139 | with one camel per colour, the position loop moves exactly the camels whose colour is in the group |
| Movement.MovePositions | store/useGameState.ts:133-139 | camels in the moving group are now at the destination; every other camel keeps its position |
| Movement.MoveTops | store/useGameState.ts:106-131 | when every colour has a camel, origin and destination both show the last camel of their new stack, or none when it is empty |
| Movement.MovePreservesConsistency | store/useGameState.ts:86-140 | a move from a consistent board gives a consistent board: one camel per colour, each colour in exactly one stack slot, each camel in its own space's stack, tops shown correctly |
| Movement.DesertedBoardNoMove | store/useGameState.ts:104-105 | when every stack is empty, a move cuts an empty group and changes neither the board nor the camels |
| Movement.NothingMovesFromStart | store/useGameState.ts:325-387 | from the initial board and camels, every roll leaves both unchanged |
| Movement.BlueCarriesGreen | store/useGameState.ts:103-139 | on any 16-space board with one camel per colour, blue on index 5 beneath green and index 6 empty, blue rolling 1 lands both on index 6 in the same order, leaves index 5 empty, and moves exactly the blue and green camels |
| Tokens.CanPlace | store/useGameState.ts:190-203 | a placement is allowed exactly when the target has no camel and neither neighbour on the track has a token |
| Tokens.PlaceToken | store/useGameState.ts:185-220 | when allowed, only the target space changes and it gets the token; otherwise the board is unchanged |
| Tokens.TokenSpaceOf | store/useGameState.ts:227-234 | -1 exactly when no space holds a token of the player, otherwise the first space that does |
| Tokens.MoveToken | store/useGameState.ts:222-259 | refused exactly when the player has no token on the board or the target fails the placement checks; otherwise the target gets the player's first token, its old space is emptied, and nothing else changes |
| Tokens.ListTokenIndex | store/useGameState.ts:264-267 | -1 exactly when no list entry matches the owner and value, otherwise the first entry that does |
| Tokens.PlaceKeepsSpacing | store/useGameState.ts:195-217 | if no two neighbouring spaces held tokens before a placement, none do after it |
| Tokens.MoveKeepsSpacing | store/useGameState.ts:241-259 | if no two neighbouring spaces held tokens before a successful move, none do after it |
| Tokens.CanPlaceIgnoresTarget | store/useGameState.ts:190-203 | the checks never look at the target's own token, so a token already there is overwritten |
| Tokens.RefreshKeepsEntries | store/useGameState.ts:262-272 | refreshing the round's list keeps its length and every entry's owner and value; a changed entry becomes the moved token |
| Ledger.AlreadyPartnered | store/useGameState.ts:166-172 | true exactly when some recorded partnership includes either player |
| Ledger.PartnershipBlocksBoth | store/useGameState.ts:161-183 | once A and B are partners, any later request naming A or B, on either side, is refused, whatever pairs were recorded after them |
| Ledger.AcceptedPartnershipKeepsExclusive | store/useGameState.ts:161-183 | recording only accepted pairs keeps each player in at most one partnership per round |
| Rounds.NextStartIndex | store/useGameState.ts:285-289 | the next index is 0 exactly when index + 1 reaches players.length - 1, otherwise index + 1; with two or more players it never reaches the last index |
| Rounds.ActivePlayer | store/useGameState.ts:290-291 | the player at the index, or none when the index is off the list |
| Rounds.StartCountsUp | store/useGameState.ts:284-292 | in the first players.length - 1 rounds the starting index goes up by one per round |
| Rounds.StartRotation | store/useGameState.ts:284-292 | the starting index repeats with period players.length - 1 and is never players.length - 1 |
| Rounds.ClearedTokens | store/useGameState.ts:305-309 | no space keeps a token, and every space is otherwise as it was |
| GameStore.GameState.constructor | store/useGameState.ts:12-23 | the initial store: initial board and camels, no players, index 0, round 0, no records, no final wagers; the store invariant holds (seven camels in their initial colour order, all on the track) |
| Movement.InitialColoursUnique | store/useGameState.ts:379-387 | a camel list in the initial colour order has exactly one camel per colour, and every colour is present |
| GameStore.StoreMove | store/useGameState.ts:86-140 | on a store's board and camels every roll finds its camel (the early return never happens); exactly the camels of the moving group go to the destination and all others keep their place; both touched spaces show the top of their new stack |
| GameStore.GameState.InitializeGameState | store/useGameState.ts:34-39 | the players come from the names and the first is active; the round goes up by one, and a fresh record with the new number is appended |
| GameStore.GameState.RollDice | store/useGameState.ts:50-84 | the roll is the drawn face and colour; a special roll changes nothing; a regular roll is appended to the current record and moves its camel as `PlanMove` says; on the fifth roll the round ends (tokens cleared, next starter, fresh record) |
| GameStore.GameState.MoveCamel | store/useGameState.ts:86-140 | the new board and camels are the ones `PlanMove` gives, or are unchanged when no camel has the colour; every camel stays on the track |
| GameStore.GameState.RelocateCamels | store/useGameState.ts:133-139 | the position loop gives the first camel of each moving colour the new position |
| GameStore.GameState.MakeWager | store/useGameState.ts:142-147 | only the current record changes: the wager is appended to it |
| GameStore.GameState.MakeFinalWager | store/useGameState.ts:149-159 | the final wager is appended to the game's list |
| GameStore.GameState.CreatePartnership | store/useGameState.ts:161-183 | accepted exactly when neither player is already partnered in the current round; only then is the pair appended |
| GameStore.GameState.PlaceSpectatorToken | store/useGameState.ts:185-220 | accepted exactly when `CanPlace` holds; the board becomes `PlaceToken`'s result; only on acceptance is the token appended to the current record |
| GameStore.GameState.MoveSpectatorToken | store/useGameState.ts:222-275 | a player with no token on the board is refused and nothing changes, whatever the target; otherwise accepted exactly when `MoveToken` succeeds, the board becomes its result, and only then does the round's list entry for the token get refreshed |
| GameStore.GameState.EndRound | store/useGameState.ts:277-282 | tokens are cleared, the next starting player is chosen, and a fresh record with the unchanged round number is appended |
| GameStore.GameState.DetermineNextStartingRoundPlayer | store/useGameState.ts:284-292 | the index follows `NextStartIndex`, and the active player is the player at that index, or none |
| GameStore.GameState.InitializeRoundResults | store/useGameState.ts:294-303 | a fresh record numbered with the current round is appended |
| GameStore.GameState.ClearSpectatorTokens | store/useGameState.ts:305-309 | the board becomes `ClearedTokens` of the old board |
| GameStore.MoveFromStart | store/useGameState.ts:86-105 | on a new store, moving any camel by any value leaves the initial board and camels |
| GameStore.RoundAfterSetup | store/useGameState.ts:34-39 | after setup the round number is 1 and one record exists, so the current-round index is past the end |

## Left out

- `Math.random` (store/useGameState.ts:62-74): the draw is an input to `RollDice`.
  - Whether the special die was drawn is a flag.
  - The face and the colour are indices into the source's own lists.
  - The chance of drawing the special die is not modelled.
- The Vue `watch` (store/useGameState.ts:25-32): Vue's reactivity and its scheduling are
  not modelled.
  - As written, the registration reads `.diceResults` of `roundResults[0]`, which is
    `undefined`. That throws a `TypeError` inside `useGameState` before the store is
    returned. The model's constructor does not model this failure; it builds the
    initial state.
  - Its effect, ending the round at the fifth recorded roll, is an explicit check at the
    end of `RollDice`.
- `calculateRoundScore` (store/useGameState.ts:311): its body is empty, so `EndRound`
  leaves it out.
- `isGameOver` and `winner`: the store only sets their initial values and never reads
  them, so the class has no such fields.
- plugins/dynamodb.ts: persistence is not part of this model.
- `Partnership`, `SpectatorToken` and `Board` types: `types/Partnership.ts`,
  `types/SpectatorToken.ts` and `types/Board.ts` are not part of this model. Their shapes
  are taken from how the store uses them.
- Object identity:
  - A space's `camelOnSpace` holds a reference to a camel object. The model stores that
    camel's colour.
  - The module-level initial board, camels and wager decks are shared by reference
    between stores and records. The model copies values.
  - So aliasing between stores is not captured.
- Number width: JavaScript numbers are doubles. The model's integers are unbounded;
  every count here stays small.
- Player names: neither the store nor the model checks them. Id uniqueness beyond
  `initializePlayers` is not checked either.
- GameStore.GameState.RollDice: requires `0 <= currentRound < |roundResults|` for a
  regular roll, where the source throws a `TypeError` after drawing. The throwing path is
  not modelled.
- GameStore.GameState.MakeWager: requires the current record to exist, where the source
  throws a `TypeError`.
- GameStore.GameState.CreatePartnership: requires the current record to exist, where the
  source throws a `TypeError`.
- GameStore.GameState.PlaceSpectatorToken:
  - It requires the current record to exist when the checks pass, where the source
    throws a `TypeError`.
  - It requires the space number to be 1..16. Outside that range `board[spaceIndex - 1]`
    is `undefined`, and reading its `.camelOnSpace` throws a `TypeError`
    (store/useGameState.ts:191).
- GameStore.GameState.MoveSpectatorToken:
  - It requires the current record to exist when the move succeeds. As written, the
    source throws a `TypeError` after the board has been changed.
  - It requires the target space number to be 1..16 only when the player has a token on
    the board; a player without one is refused whatever the number, as in the source
    (store/useGameState.ts:231-233). Outside that range, once the player has a token, `board[toSpaceIndex - 1]` is `undefined` and reading its
    `.camelOnSpace` throws a `TypeError` (store/useGameState.ts:237).
