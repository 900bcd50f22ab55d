/** The record shapes of the camel-race engine: camels, board spaces, players, wagers,
    spectator tokens and the per-round results. They carry no behaviour. */
module Types {

  /** A value that may be absent; stands for the `| null` fields of the records. */
  datatype Option<+T> = None | Some(value: T)

  /** The seven camels. The colour is a camel's identity. */
  datatype CamelColor = Red | Blue | Green | Yellow | Purple | White | Black {
    /** White and black run backwards and slide under an occupied stack. */
    predicate IsSpecial() {
      this == White || this == Black
    }
  }

  /** Round and final wagers are only placed on the five regular colours. */
  type WagerCardColor = c: CamelColor | !c.IsSpecial() witness Red

  /** A die shows 1, 2 or 3. */
  type DiceValue = v: int | 1 <= v <= 3 witness 1

  /** A spectator token pays (+1) or penalises (-1). */
  type TokenValue = v: int | v == 1 || v == -1 witness 1

  /** The denominations a wager-card deck may hold. */
  type WagerCardValue = v: int | v == 5 || v == 3 || v == 2 witness 2

  /** `position` is a 0-based index into the board. */
  datatype Camel = Camel(position: int, color: CamelColor)

  datatype DiceResults = DiceResults(value: Option<DiceValue>, color: Option<CamelColor>)

  datatype Player = Player(id: int, name: string, coins: int, wagerCards: seq<WagerCard>)

  datatype WagerCard = WagerCard(player: Player, color: WagerCardColor)

  datatype FinalWagerType = FirstPlace | LastPlace

  datatype FinalWager = FinalWager(player: Player, camelColor: WagerCardColor, kind: FinalWagerType)

  datatype SpectatorToken = SpectatorToken(value: TokenValue, owner: Player)

  datatype Partnership = Partnership(player1: Player, player2: Player)

  datatype AvailableWagerCards = AvailableWagerCards(color: WagerCardColor, amounts: seq<WagerCardValue>)

  datatype RoundResults = RoundResults(
    round: int,
    diceResults: seq<DiceResults>,
    wagers: seq<WagerCard>,
    availableWagerCards: seq<AvailableWagerCards>,
    spectatorTokens: seq<SpectatorToken>,
    partnerships: seq<Partnership>)

  /** One space of the track. `index` is 1-based; `camelOrderOnSpace` lists the stack
      bottom to top; `camelOnSpace` names the camel shown on top, by its colour. */
  datatype Space = Space(
    index: int,
    camelOnSpace: Option<CamelColor>,
    camelOrderOnSpace: seq<CamelColor>,
    spectatorToken: Option<SpectatorToken>)

  type Board = seq<Space>
}
