/** Spectator tokens: the checks `placeSpectatorToken` and `moveSpectatorToken` make, and
    the board and round-list updates they perform, stated on values. Space indices passed
    in are 1-based; the board itself is 0-based. */
module Tokens {
  import opened Types

  /** The space holds a token owned by the player with `id`. */
  predicate OwnedBy(space: Space, id: int) {
    space.spectatorToken.Some? && space.spectatorToken.value.owner.id == id
  }

  /** The checks on a 1-based target space: no camel on it, and no token on either
      neighbour that lies on the track. The target's own token is not looked at. */
  function CanPlace(board: Board, spaceIndex: int): (ok: bool)
    requires 1 <= spaceIndex <= |board|
    ensures ok <==>
      board[spaceIndex - 1].camelOnSpace.None? &&
      forall j :: 0 <= j < |board| && (j == spaceIndex - 2 || j == spaceIndex) ==> board[j].spectatorToken.None?
  {
    board[spaceIndex - 1].camelOnSpace.None?
    && !(spaceIndex > 1 && board[spaceIndex - 2].spectatorToken.Some?)
    && !(spaceIndex < |board| && board[spaceIndex].spectatorToken.Some?)
  }

  /** The board after `placeSpectatorToken`: the target space holds `token` when the checks
      pass, and nothing changes otherwise. */
  function PlaceToken(board: Board, spaceIndex: int, token: SpectatorToken): (r: Board)
    requires 1 <= spaceIndex <= |board|
    ensures |r| == |board|
    ensures CanPlace(board, spaceIndex) ==>
      r[spaceIndex - 1] == board[spaceIndex - 1].(spectatorToken := Some(token)) &&
      forall j :: 0 <= j < |board| && j != spaceIndex - 1 ==> r[j] == board[j]
    ensures !CanPlace(board, spaceIndex) ==> r == board
  {
    if CanPlace(board, spaceIndex) then
      board[spaceIndex - 1 := board[spaceIndex - 1].(spectatorToken := Some(token))]
    else board
  }

  /** `board.findIndex(space => space.spectatorToken?.owner.id === id)`. */
  function TokenSpaceOf(board: Board, id: int): (r: int)
    ensures -1 <= r < |board|
    ensures r == -1 <==> forall j :: 0 <= j < |board| ==> !OwnedBy(board[j], id)
    ensures 0 <= r ==> OwnedBy(board[r], id) && forall j :: 0 <= j < r ==> !OwnedBy(board[j], id)
  {
    if |board| == 0 then -1
    else if OwnedBy(board[0], id) then 0
    else
      var k := TokenSpaceOf(board[1..], id);
      if k == -1 then -1 else k + 1
  }

  /** The board after `moveSpectatorToken` succeeds, or `None` when it refuses: the player's
      first token is lifted off its space and set on the 1-based target space. */
  function MoveToken(board: Board, id: int, toSpaceIndex: int): (r: Option<Board>)
    requires 1 <= toSpaceIndex <= |board|
    ensures r.None? <==> TokenSpaceOf(board, id) == -1 || !CanPlace(board, toSpaceIndex)
    ensures r.Some? ==>
      var from, to := TokenSpaceOf(board, id), toSpaceIndex - 1;
      |r.value| == |board| &&
      r.value[to] == board[to].(spectatorToken := board[from].spectatorToken) &&
      (from != to ==> r.value[from] == board[from].(spectatorToken := None)) &&
      forall j :: 0 <= j < |board| && j != from && j != to ==> r.value[j] == board[j]
  {
    var from := TokenSpaceOf(board, id);
    if from == -1 || !CanPlace(board, toSpaceIndex) then None
    else
      var token := board[from].spectatorToken;
      var lifted := board[from := board[from].(spectatorToken := None)];
      Some(lifted[toSpaceIndex - 1 := lifted[toSpaceIndex - 1].(spectatorToken := token)])
  }

  /** `spectatorTokens.findIndex(t => t.owner.id === id && t.value === value)`. */
  function ListTokenIndex(tokens: seq<SpectatorToken>, id: int, value: int): (r: int)
    ensures -1 <= r < |tokens|
    ensures r == -1 <==> forall k :: 0 <= k < |tokens| ==> !(tokens[k].owner.id == id && tokens[k].value == value)
    ensures 0 <= r ==>
      tokens[r].owner.id == id && tokens[r].value == value &&
      forall k :: 0 <= k < r ==> !(tokens[k].owner.id == id && tokens[k].value == value)
  {
    if |tokens| == 0 then -1
    else if tokens[0].owner.id == id && tokens[0].value == value then 0
    else
      var k := ListTokenIndex(tokens[1..], id, value);
      if k == -1 then -1 else k + 1
  }

  /** The round's token list after a move: the first entry with the moved token's owner and
      value is overwritten by a copy of the moved token. */
  function RefreshListToken(tokens: seq<SpectatorToken>, token: SpectatorToken): seq<SpectatorToken> {
    var k := ListTokenIndex(tokens, token.owner.id, token.value);
    if k == -1 then tokens else tokens[k := token]
  }

  /** No two neighbouring spaces both hold a token. */
  predicate Spaced(board: Board) {
    forall i :: 0 <= i && i + 1 < |board| ==> board[i].spectatorToken.None? || board[i + 1].spectatorToken.None?
  }

  /** Placing keeps tokens apart: a successful placement never puts a token next to another. */
  lemma PlaceKeepsSpacing(board: Board, spaceIndex: int, token: SpectatorToken)
    requires 1 <= spaceIndex <= |board| && Spaced(board)
    ensures Spaced(PlaceToken(board, spaceIndex, token))
  {
    var r := PlaceToken(board, spaceIndex, token);
    if CanPlace(board, spaceIndex) {
      forall i | 0 <= i && i + 1 < |r|
        ensures r[i].spectatorToken.None? || r[i + 1].spectatorToken.None?
      {
        if i == spaceIndex - 1 {
          assert r[i + 1] == board[i + 1];
        } else if i + 1 == spaceIndex - 1 {
          assert r[i] == board[i];
        }
      }
    }
  }

  /** Moving keeps tokens apart as well. */
  lemma MoveKeepsSpacing(board: Board, id: int, toSpaceIndex: int)
    requires 1 <= toSpaceIndex <= |board| && Spaced(board)
    requires MoveToken(board, id, toSpaceIndex).Some?
    ensures Spaced(MoveToken(board, id, toSpaceIndex).value)
  {
    var r := MoveToken(board, id, toSpaceIndex).value;
    var from, to := TokenSpaceOf(board, id), toSpaceIndex - 1;
    forall i | 0 <= i && i + 1 < |r|
      ensures r[i].spectatorToken.None? || r[i + 1].spectatorToken.None?
    {
      if i == to {
        assert r[i + 1].spectatorToken == (if i + 1 == from then None else board[i + 1].spectatorToken);
      } else if i + 1 == to {
        assert r[i].spectatorToken == (if i == from then None else board[i].spectatorToken);
      } else {
        assert i != from ==> r[i] == board[i];
        assert i + 1 != from ==> r[i + 1] == board[i + 1];
      }
    }
  }

  /** The placement checks ignore the target's own token: a token already there, even
      another player's, is overwritten. */
  lemma CanPlaceIgnoresTarget(board: Board, spaceIndex: int, token: Option<SpectatorToken>)
    requires 1 <= spaceIndex <= |board|
    ensures CanPlace(board[spaceIndex - 1 := board[spaceIndex - 1].(spectatorToken := token)], spaceIndex)
         == CanPlace(board, spaceIndex)
  {
  }

  /** Refreshing the round's token list keeps every entry's owner and value; only a copy of
      the moved token may take the place of its first match. */
  lemma RefreshKeepsEntries(tokens: seq<SpectatorToken>, token: SpectatorToken)
    ensures var r := RefreshListToken(tokens, token);
      |r| == |tokens| &&
      forall k :: 0 <= k < |tokens| ==>
        r[k].owner.id == tokens[k].owner.id && r[k].value == tokens[k].value &&
        (r[k] != tokens[k] ==> r[k] == token)
  {
  }
}
