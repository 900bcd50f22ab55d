/** The end-of-round steps: clearing the spectator tokens and choosing the next starting
    player. */
module Rounds {
  import opened Types

  /** `determineNextStartingRoundPlayer`'s index rule: wrap to 0 once `index + 1` reaches
      `playerCount - 1`, so the last player's index is never chosen. */
  function NextStartIndex(index: nat, playerCount: int): (r: nat)
    ensures r == 0 || r == index + 1
    ensures r == 0 <==> index + 1 >= playerCount - 1
    ensures playerCount >= 2 ==> r <= playerCount - 2
  {
    if index + 1 >= playerCount - 1 then 0 else index + 1
  }

  /** `players[index]`, which is `undefined` (here `None`) off the end of the list. */
  function ActivePlayer(players: seq<Player>, index: int): (r: Option<Player>)
    ensures r.Some? <==> 0 <= index < |players|
    ensures r.Some? ==> r.value == players[index]
  {
    if 0 <= index < |players| then Some(players[index]) else None
  }

  /** The starting index after `rounds` round ends, from the first player. */
  function StartAfter(rounds: nat, playerCount: int): nat {
    if rounds == 0 then 0 else NextStartIndex(StartAfter(rounds - 1, playerCount), playerCount)
  }

  /** In the first `playerCount - 1` rounds the start moves up one index per round. */
  lemma {:induction false} StartCountsUp(rounds: nat, playerCount: int)
    requires rounds < playerCount - 1
    ensures StartAfter(rounds, playerCount) == rounds
  {
    if rounds > 0 {
      StartCountsUp(rounds - 1, playerCount);
    }
  }

  /** With two or more players the start rotates over indices `0 .. playerCount - 2` with
      period `playerCount - 1`: the player at index `playerCount - 1` never starts a round. */
  lemma {:induction false} StartRotation(rounds: nat, playerCount: int)
    requires playerCount >= 2
    ensures StartAfter(rounds + (playerCount - 1), playerCount) == StartAfter(rounds, playerCount)
    ensures StartAfter(rounds, playerCount) != playerCount - 1
  {
    if rounds == 0 {
      StartCountsUp(playerCount - 2, playerCount);
    } else {
      StartRotation(rounds - 1, playerCount);
      assert rounds + (playerCount - 1) - 1 == rounds - 1 + (playerCount - 1);
    }
  }

  /** The board after `clearSpectatorTokens`: no token anywhere, stacks untouched. */
  function ClearedTokens(board: Board): (r: Board)
    ensures |r| == |board|
    ensures forall i :: 0 <= i < |board| ==>
      r[i].spectatorToken.None? && r[i] == board[i].(spectatorToken := None)
  {
    seq(|board|, i requires 0 <= i < |board| => board[i].(spectatorToken := None))
  }
}
