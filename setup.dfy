/** The engine's constants (initial board, camels, wager decks, die faces) and the two
    value-building steps of game set-up: the player list and a fresh round record. */
module Setup {
  import opened Types

  const TrackLength: nat := 16

  /** Sixteen empty spaces numbered 1 to 16. */
  const InitialBoard: Board := seq(TrackLength, i => Space(i + 1, None, [], None))

  /** All seven camels at array index 0; none of them is in any space's stack. */
  const InitialCamels: seq<Camel> := [
    Camel(0, Red), Camel(0, Blue), Camel(0, Green), Camel(0, Yellow),
    Camel(0, Purple), Camel(0, White), Camel(0, Black)
  ]

  /** The full deck `[5, 3, 2, 2]` for each regular colour. */
  const FullDeck: seq<WagerCardValue> := [5, 3, 2, 2]

  const InitialAvailableWagerCards: seq<AvailableWagerCards> := [
    AvailableWagerCards(Red, FullDeck), AvailableWagerCards(Blue, FullDeck),
    AvailableWagerCards(Green, FullDeck), AvailableWagerCards(Yellow, FullDeck),
    AvailableWagerCards(Purple, FullDeck)
  ]

  /** Faces of the regular and the special die, and the colours each can show. */
  const RegularDiceValues: seq<DiceValue> := [1, 2, 3, 1, 2, 3]
  const SpecialDiceValues: seq<DiceValue> := [1, 2, 3]
  const RegularColors: seq<CamelColor> := [Red, Blue, Green, Yellow, Purple]
  const SpecialColors: seq<CamelColor> := [White, Black]

  /** Players in join order: ids 1, 2, ..., three coins each, no wager cards. */
  function InitializePlayers(playerNames: seq<string>): (players: seq<Player>)
    ensures |players| == |playerNames|
    ensures forall i :: 0 <= i < |players| ==>
      players[i].id == i + 1 && players[i].name == playerNames[i] &&
      players[i].coins == 3 && players[i].wagerCards == []
    ensures forall i, j :: 0 <= i < |players| && 0 <= j < |players| && players[i].id == players[j].id ==> i == j
  {
    seq(|playerNames|, i requires 0 <= i < |playerNames| => Player(i + 1, playerNames[i], 3, []))
  }

  /** The record `initializeRoundResults` appends: numbered `round`, nothing recorded yet,
      every regular colour's deck full. */
  function FreshRoundResults(round: int): (r: RoundResults)
    ensures r.round == round
    ensures r.diceResults == [] && r.wagers == [] && r.partnerships == [] && r.spectatorTokens == []
    ensures |r.availableWagerCards| == |RegularColors|
    ensures forall c: WagerCardColor ::
      (exists k :: 0 <= k < |r.availableWagerCards| && r.availableWagerCards[k] == AvailableWagerCards(c, [5, 3, 2, 2]))
  {
    var r := RoundResults(round, [], [], InitialAvailableWagerCards, [], []);
    assert forall c: WagerCardColor :: r.availableWagerCards[DeckSlot(c)] == AvailableWagerCards(c, [5, 3, 2, 2]);
    r
  }

  /** The slot of colour `c` in the initial deck list. */
  function DeckSlot(c: WagerCardColor): (k: nat)
    ensures k < |InitialAvailableWagerCards| && InitialAvailableWagerCards[k].color == c
  {
    match c
    case Red => 0
    case Blue => 1
    case Green => 2
    case Yellow => 3
    case Purple => 4
  }
}
