/** The game-state store: one object holding the whole game, whose methods change it in
    place. Each method is proved against the value-level rules of Movement, Tokens,
    Ledger, Rounds and Setup. */
module GameStore {
  import opened Types
  import opened Setup
  import opened Movement
  import opened Tokens
  import opened Ledger
  import opened Rounds

  /** What `rollDice` hands back to its caller. */
  datatype Roll = Roll(value: DiceValue, color: CamelColor)

  /** The board and camels after `moveCamel`; both unchanged when no camel has the colour. */
  function AfterMove(board: Board, camels: seq<Camel>, value: int, color: CamelColor): (Board, seq<Camel>)
    requires OnTrack(board, camels)
  {
    match PlanMove(board, camels, value, color)
    case None => (board, camels)
    case Some(m) => (m.board, m.camels)
  }

  class GameState {
    var players: seq<Player>
    const board: array<Space>
    var currentActivePlayer: Option<Player>
    var currentActivePlayerIndex: nat
    var currentRound: int
    const camels: array<Camel>
    var roundResults: seq<RoundResults>
    var finalWagers: seq<FinalWager>

    /** Sixteen spaces, the seven camels in their initial colour order, every camel on
        the board. */
    ghost predicate Valid()
      reads this, board, camels
    {
      board.Length == TrackLength && camels.Length == |InitialCamels| &&
      Colours(camels[..]) == Colours(InitialCamels) && OnTrack(board[..], camels[..])
    }

    /** The state the store starts in, before any player joins. */
    constructor ()
      ensures Valid() && fresh(board) && fresh(camels)
      ensures board[..] == InitialBoard && camels[..] == InitialCamels
      ensures players == [] && currentActivePlayer == None && currentActivePlayerIndex == 0
      ensures currentRound == 0 && roundResults == [] && finalWagers == []
    {
      players := [];
      board := new Space[TrackLength](i => Space(i + 1, None, [], None));
      currentActivePlayer := None;
      currentActivePlayerIndex := 0;
      currentRound := 0;
      camels := new Camel[|InitialCamels|](i requires 0 <= i < |InitialCamels| => InitialCamels[i]);
      roundResults := [];
      finalWagers := [];
      new;
      assert board[..] == InitialBoard;
      assert camels[..] == InitialCamels;
    }

    /** `initializeGameState`: seat the players, make the first one active, advance the
        round counter and append a fresh round record under the new number. */
    method InitializeGameState(playerNames: seq<string>)
      modifies this`players, this`currentActivePlayer, this`currentRound, this`roundResults
      ensures players == InitializePlayers(playerNames)
      ensures currentActivePlayer == ActivePlayer(players, 0)
      ensures currentRound == old(currentRound) + 1
      ensures roundResults == old(roundResults) + [FreshRoundResults(currentRound)]
    {
      players := InitializePlayers(playerNames);
      currentActivePlayer := ActivePlayer(players, 0);
      currentRound := currentRound + 1;
      InitializeRoundResults();
    }

    /** `rollDice` with the random draw given: whether the special die was drawn, and the
        indices the draw picked in the face and colour lists. A special roll is only
        returned. A regular roll is recorded in the current round, moves its camel, and
        ends the round when it is the round's fifth recorded roll. */
    method RollDice(isSpecialDie: bool, valueIndex: nat, colorIndex: nat) returns (result: Roll)
      requires Valid()
      requires isSpecialDie ==> valueIndex < |SpecialDiceValues| && colorIndex < |SpecialColors|
      requires !isSpecialDie ==> valueIndex < |RegularDiceValues| && colorIndex < |RegularColors|
      requires !isSpecialDie ==> 0 <= currentRound < |roundResults|
      modifies this`roundResults, this`currentActivePlayerIndex, this`currentActivePlayer, board, camels
      ensures Valid()
      ensures result == if isSpecialDie then Roll(SpecialDiceValues[valueIndex], SpecialColors[colorIndex])
                        else Roll(RegularDiceValues[valueIndex], RegularColors[colorIndex])
      ensures isSpecialDie ==>
        roundResults == old(roundResults) && board[..] == old(board[..]) && camels[..] == old(camels[..]) &&
        currentActivePlayerIndex == old(currentActivePlayerIndex) && currentActivePlayer == old(currentActivePlayer)
      ensures !isSpecialDie ==>
        var round := old(roundResults[currentRound]);
        var recorded := round.(diceResults := round.diceResults + [DiceResults(Some(result.value), Some(result.color))]);
        var moved := AfterMove(old(board[..]), old(camels[..]), result.value, result.color);
        var ends := |recorded.diceResults| == 5;
        camels[..] == moved.1 &&
        board[..] == (if ends then ClearedTokens(moved.0) else moved.0) &&
        roundResults == old(roundResults)[currentRound := recorded] + (if ends then [FreshRoundResults(currentRound)] else []) &&
        currentActivePlayerIndex == (if ends then NextStartIndex(old(currentActivePlayerIndex), |players|)
                                     else old(currentActivePlayerIndex)) &&
        currentActivePlayer == (if ends then ActivePlayer(players, currentActivePlayerIndex) else old(currentActivePlayer))
    {
      if isSpecialDie {
        result := Roll(SpecialDiceValues[valueIndex], SpecialColors[colorIndex]);
      } else {
        result := Roll(RegularDiceValues[valueIndex], RegularColors[colorIndex]);
        var round := roundResults[currentRound];
        roundResults := roundResults[currentRound := round.(
          diceResults := round.diceResults + [DiceResults(Some(result.value), Some(result.color))])];
        MoveCamel(result.value, result.color);
        if |roundResults[currentRound].diceResults| == 5 {
          EndRound();
        }
      }
    }

    /** `moveCamel`: move the camel of `color` and every camel above it, as `PlanMove`
        describes; nothing happens when no camel has the colour. */
    method MoveCamel(value: DiceValue, color: CamelColor)
      requires Valid()
      modifies board, camels
      ensures Valid()
      ensures (board[..], camels[..]) == AfterMove(old(board[..]), old(camels[..]), value, color)
    {
      var k := CamelIndex(camels[..], color);
      if k < 0 {
        // Every colour has a camel in a valid store, so `find` always succeeds.
        InitialColoursUnique(camels[..]);
        assert false;
      }
      ghost var board0, camels0 := board[..], camels[..];
      assert Colours(camels0)[k] == color;
      MoveShape(board0, camels0, value, color);
      MoveStaysOnTrack(board0, camels0, value, color);
      ghost var plan := PlanMove(board0, camels0, value, color).value;
      var position := camels[k].position;
      var isSpecialCamel := color.IsSpecial();
      var moveDirection := if isSpecialCamel then -1 else 1;
      var newPosition := Clamp(position + value * moveDirection, board.Length - 1);
      assert position == plan.origin && newPosition == plan.destination;

      // Cut the mover and everything above it off the origin stack.
      var order := board[position].camelOrderOnSpace;
      var camelIndex := IndexOf(order, color);
      var cut := SpliceStart(|order|, camelIndex);
      var movingCamels := order[cut..];
      board[position] := board[position].(camelOrderOnSpace := order[..cut],
                                          camelOnSpace := TopCamel(camels[..], order[..cut]));
      ghost var afterCut := SetStack(board0, position, order[..cut], camels0);
      assert board[..] == afterCut;

      // Put the group on the destination, under the stack for a special camel.
      var newSpace := board[newPosition];
      var newOrder := if isSpecialCamel && |newSpace.camelOrderOnSpace| > 0
                      then movingCamels + newSpace.camelOrderOnSpace
                      else newSpace.camelOrderOnSpace + movingCamels;
      assert newOrder == Stacked(afterCut[newPosition].camelOrderOnSpace, movingCamels, color);
      board[newPosition] := newSpace.(camelOrderOnSpace := newOrder, camelOnSpace := TopCamel(camels[..], newOrder));
      assert board[..] == SetStack(afterCut, newPosition, newOrder, camels0);

      // Give every moving camel its new position.
      RelocateCamels(movingCamels, newPosition);
    }

    /** The `forEach` over the moving group in `moveCamel`: the first camel of each moving
        colour gets `position`. */
    method RelocateCamels(movingCamels: seq<CamelColor>, position: int)
      modifies camels
      ensures camels[..] == Relocated(old(camels[..]), movingCamels, position)
    {
      ghost var camels0 := camels[..];
      var i := 0;
      while i < |movingCamels|
        invariant 0 <= i <= |movingCamels|
        invariant camels[..] == Relocated(camels0, movingCamels[..i], position)
      {
        var j := CamelIndex(camels[..], movingCamels[i]);
        RelocatedStep(camels0, movingCamels, i, position);
        if j >= 0 {
          camels[j] := camels[j].(position := position);
        }
        i := i + 1;
      }
      assert movingCamels[..i] == movingCamels;
    }

    /** `makeWager`: append the player's round wager to the current round. */
    method MakeWager(player: Player, color: WagerCardColor)
      requires 0 <= currentRound < |roundResults|
      modifies this`roundResults
      ensures var round := old(roundResults[currentRound]);
        roundResults == old(roundResults)[currentRound := round.(wagers := round.wagers + [WagerCard(player, color)])]
    {
      var round := roundResults[currentRound];
      roundResults := roundResults[currentRound := round.(wagers := round.wagers + [WagerCard(player, color)])];
    }

    /** `makeFinalWager`: append a game-long bet on the winner or the loser. */
    method MakeFinalWager(player: Player, camelColor: WagerCardColor, kind: FinalWagerType)
      modifies this`finalWagers
      ensures finalWagers == old(finalWagers) + [FinalWager(player, camelColor, kind)]
    {
      finalWagers := finalWagers + [FinalWager(player, camelColor, kind)];
    }

    /** `createPartnership`: refuse when either player is already in a partnership of the
        current round; otherwise record the pair. */
    method CreatePartnership(player1: Player, player2: Player) returns (ok: bool)
      requires 0 <= currentRound < |roundResults|
      modifies this`roundResults
      ensures var round := old(roundResults[currentRound]);
        ok == !AlreadyPartnered(round.partnerships, player1.id, player2.id) &&
        roundResults == if ok
          then old(roundResults)[currentRound := round.(partnerships := round.partnerships + [Partnership(player1, player2)])]
          else old(roundResults)
    {
      var round := roundResults[currentRound];
      if AlreadyPartnered(round.partnerships, player1.id, player2.id) {
        return false;
      }
      roundResults := roundResults[currentRound := round.(partnerships := round.partnerships + [Partnership(player1, player2)])];
      ok := true;
    }

    /** `placeSpectatorToken` with a 1-based space index: refuse when the space has a camel
        or a neighbour has a token; otherwise record the token in the current round and
        set it on the space. */
    method PlaceSpectatorToken(player: Player, spaceIndex: int, value: TokenValue) returns (ok: bool)
      requires Valid()
      requires 1 <= spaceIndex <= board.Length
      requires CanPlace(board[..], spaceIndex) ==> 0 <= currentRound < |roundResults|
      modifies this`roundResults, board
      ensures Valid()
      ensures ok == CanPlace(old(board[..]), spaceIndex)
      ensures board[..] == PlaceToken(old(board[..]), spaceIndex, SpectatorToken(value, player))
      ensures roundResults == if ok
        then (var round := old(roundResults[currentRound]);
              old(roundResults)[currentRound := round.(
                spectatorTokens := round.spectatorTokens + [SpectatorToken(value, player)])])
        else old(roundResults)
    {
      if board[spaceIndex - 1].camelOnSpace.Some? {
        return false;
      }
      if (spaceIndex > 1 && board[spaceIndex - 2].spectatorToken.Some?) ||
         (spaceIndex < board.Length && board[spaceIndex].spectatorToken.Some?) {
        return false;
      }
      var round := roundResults[currentRound];
      roundResults := roundResults[currentRound := round.(
        spectatorTokens := round.spectatorTokens + [SpectatorToken(value, player)])];
      board[spaceIndex - 1] := board[spaceIndex - 1].(spectatorToken := Some(SpectatorToken(value, player)));
      ok := true;
    }

    /** `moveSpectatorToken` with a 1-based destination: refuse when the player has no token
        on the board or the destination fails the placement checks; otherwise move the
        player's first token there and refresh its entry in the current round's list. */
    method MoveSpectatorToken(player: Player, toSpaceIndex: int) returns (ok: bool)
      requires Valid()
      requires TokenSpaceOf(board[..], player.id) != -1 ==> 1 <= toSpaceIndex <= board.Length
      requires TokenSpaceOf(board[..], player.id) != -1 && MoveToken(board[..], player.id, toSpaceIndex).Some? ==>
        0 <= currentRound < |roundResults|
      modifies this`roundResults, board
      ensures Valid()
      ensures TokenSpaceOf(old(board[..]), player.id) == -1 ==> !ok && board[..] == old(board[..])
      ensures TokenSpaceOf(old(board[..]), player.id) != -1 ==>
        var moved := MoveToken(old(board[..]), player.id, toSpaceIndex);
        ok == moved.Some? &&
        board[..] == (if ok then moved.value else old(board[..]))
      ensures roundResults == if ok
        then (var round := old(roundResults[currentRound]);
              var token := old(board[TokenSpaceOf(board[..], player.id)]).spectatorToken.value;
              old(roundResults)[currentRound := round.(
                spectatorTokens := RefreshListToken(round.spectatorTokens, token))])
        else old(roundResults)
    {
      var currentSpaceIndex := TokenSpaceOf(board[..], player.id);
      if currentSpaceIndex == -1 {
        return false;
      }
      if board[toSpaceIndex - 1].camelOnSpace.Some? {
        return false;
      }
      if (toSpaceIndex > 1 && board[toSpaceIndex - 2].spectatorToken.Some?) ||
         (toSpaceIndex < board.Length && board[toSpaceIndex].spectatorToken.Some?) {
        return false;
      }
      ghost var was := board[..];
      var spectatorToken := board[currentSpaceIndex].spectatorToken.value;
      board[currentSpaceIndex] := board[currentSpaceIndex].(spectatorToken := None);
      board[toSpaceIndex - 1] := board[toSpaceIndex - 1].(spectatorToken := Some(spectatorToken));
      assert board[..] == MoveToken(was, player.id, toSpaceIndex).value;
      var round := roundResults[currentRound];
      var tokenIndex := ListTokenIndex(round.spectatorTokens, player.id, spectatorToken.value);
      if tokenIndex != -1 {
        roundResults := roundResults[currentRound := round.(
          spectatorTokens := round.spectatorTokens[tokenIndex := spectatorToken])];
      } else {
        assert round.spectatorTokens == RefreshListToken(round.spectatorTokens, spectatorToken);
        roundResults := roundResults[currentRound := round];
      }
      ok := true;
    }

    /** `endRound`: score the round (a no-op), clear the tokens, pick the next starting
        player and append a fresh round record under the same round number. */
    method EndRound()
      requires Valid()
      modifies this`roundResults, this`currentActivePlayerIndex, this`currentActivePlayer, board
      ensures Valid()
      ensures board[..] == ClearedTokens(old(board[..]))
      ensures currentActivePlayerIndex == NextStartIndex(old(currentActivePlayerIndex), |players|)
      ensures currentActivePlayer == ActivePlayer(players, currentActivePlayerIndex)
      ensures roundResults == old(roundResults) + [FreshRoundResults(currentRound)]
    {
      ClearSpectatorTokens();
      DetermineNextStartingRoundPlayer();
      InitializeRoundResults();
    }

    /** `determineNextStartingRoundPlayer`. */
    method DetermineNextStartingRoundPlayer()
      modifies this`currentActivePlayerIndex, this`currentActivePlayer
      ensures currentActivePlayerIndex == NextStartIndex(old(currentActivePlayerIndex), |players|)
      ensures currentActivePlayer == ActivePlayer(players, currentActivePlayerIndex)
    {
      currentActivePlayerIndex :=
        if currentActivePlayerIndex + 1 >= |players| - 1 then 0 else currentActivePlayerIndex + 1;
      currentActivePlayer := ActivePlayer(players, currentActivePlayerIndex);
    }

    /** `initializeRoundResults`: append a fresh record numbered with the current round. */
    method InitializeRoundResults()
      modifies this`roundResults
      ensures roundResults == old(roundResults) + [FreshRoundResults(currentRound)]
    {
      roundResults := roundResults + [RoundResults(currentRound, [], [], InitialAvailableWagerCards, [], [])];
    }

    /** `clearSpectatorTokens`: take the token off every space. */
    method ClearSpectatorTokens()
      modifies board
      ensures board[..] == ClearedTokens(old(board[..]))
    {
      var i := 0;
      while i < board.Length
        invariant 0 <= i <= board.Length
        invariant forall j :: 0 <= j < i ==> board[j] == old(board[j]).(spectatorToken := None)
        invariant forall j :: i <= j < board.Length ==> board[j] == old(board[j])
      {
        board[i] := board[i].(spectatorToken := None);
        i := i + 1;
      }
    }
  }

  /** In a store's board and camels (the seven colours in their initial order), every
      roll finds its camel; the camels whose colour is in the moving group go to the
      destination and all others keep their place; both touched spaces show the top of
      their new stack. */
  lemma StoreMove(board: Board, camels: seq<Camel>, value: int, color: CamelColor)
    requires OnTrack(board, camels) && Colours(camels) == Colours(InitialCamels)
    ensures PlanMove(board, camels, value, color).Some?
    ensures var m := PlanMove(board, camels, value, color).value;
      var after := AfterMove(board, camels, value, color);
      after == (m.board, m.camels) &&
      (forall i :: 0 <= i < |camels| ==>
        after.1[i] == if camels[i].color in m.moving then camels[i].(position := m.destination) else camels[i]) &&
      after.0[m.origin].camelOnSpace == Last(after.0[m.origin].camelOrderOnSpace) &&
      after.0[m.destination].camelOnSpace == Last(after.0[m.destination].camelOrderOnSpace)
  {
    InitialColoursUnique(camels);
    MovePositions(board, camels, value, color);
    MoveTops(board, camels, value, color);
  }

  /** One step of the position loop: relocating the first `i + 1` moving colours is
      relocating the first `i` and then moving the first camel of colour `moving[i]`. */
  lemma RelocatedStep(camels: seq<Camel>, moving: seq<CamelColor>, i: nat, position: int)
    requires i < |moving|
    ensures var now := Relocated(camels, moving[..i], position);
      var j := CamelIndex(camels, moving[i]);
      CamelIndex(now, moving[i]) == j &&
      Relocated(camels, moving[..i + 1], position) ==
        if j >= 0 then now[j := now[j].(position := position)] else now
  {
    var now := Relocated(camels, moving[..i], position);
    assert Colours(now) == Colours(camels);
    assert moving[..i + 1] == moving[..i] + [moving[i]];
  }

  /** A store fresh from construction, then `moveCamel` with any roll: the board and the
      camels are still the initial ones, since no camel has yet been put into a stack. */
  method MoveFromStart(value: DiceValue, color: CamelColor) returns (board: Board, camels: seq<Camel>)
    ensures board == InitialBoard && camels == InitialCamels
  {
    var game := new GameState();
    NothingMovesFromStart(value, color);
    game.MoveCamel(value, color);
    board, camels := game.board[..], game.camels[..];
  }

  /** A store fresh from construction, then `initializeGameState`: the round number is 1
      while one round record exists, so indexing the records by the round number falls off
      the end and no regular roll, wager, partnership or token placement can be recorded. */
  method RoundAfterSetup(playerNames: seq<string>) returns (round: int, records: int)
    ensures round == 1 && records == 1
  {
    var game := new GameState();
    game.InitializeGameState(playerNames);
    round, records := game.currentRound, |game.roundResults|;
  }
}
