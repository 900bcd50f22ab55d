/** The partnership rule of the round ledger: a player joins at most one partnership per
    round. Players are identified by their `id`. */
module Ledger {
  import opened Types

  /** The partnership includes the player with `id`. */
  predicate Involves(p: Partnership, id: int) {
    p.player1.id == id || p.player2.id == id
  }

  /** `partnerships.some(...)`: some recorded partnership includes either player. */
  function AlreadyPartnered(partnerships: seq<Partnership>, id1: int, id2: int): (r: bool)
    ensures r <==> exists k :: 0 <= k < |partnerships| && (Involves(partnerships[k], id1) || Involves(partnerships[k], id2))
  {
    if |partnerships| == 0 then false
    else
      Involves(partnerships[0], id1) || Involves(partnerships[0], id2) ||
      (assert forall k :: 0 < k < |partnerships| ==> partnerships[k] == partnerships[1..][k - 1];
       AlreadyPartnered(partnerships[1..], id1, id2))
  }

  /** No player is in two partnerships of the list. */
  predicate Exclusive(partnerships: seq<Partnership>) {
    forall i, j :: 0 <= i < j < |partnerships| ==>
      !Involves(partnerships[j], partnerships[i].player1.id) && !Involves(partnerships[j], partnerships[i].player2.id)
  }

  /** Once a partnership of A and B is recorded, every later request naming A or B is
      refused, whoever the other player is and whatever pairs were recorded since. */
  lemma PartnershipBlocksBoth(partnerships: seq<Partnership>, a: Player, b: Player, rest: seq<Partnership>, other: int)
    ensures var now := partnerships + [Partnership(a, b)] + rest;
      AlreadyPartnered(now, a.id, other) && AlreadyPartnered(now, other, a.id) &&
      AlreadyPartnered(now, b.id, other) && AlreadyPartnered(now, other, b.id)
  {
    var now := partnerships + [Partnership(a, b)] + rest;
    assert now[|partnerships|] == Partnership(a, b);
    assert Involves(now[|partnerships|], a.id) && Involves(now[|partnerships|], b.id);
  }

  /** Recording only the partnerships the check lets through keeps every player in at most
      one partnership. */
  lemma AcceptedPartnershipKeepsExclusive(partnerships: seq<Partnership>, a: Player, b: Player)
    requires Exclusive(partnerships)
    requires !AlreadyPartnered(partnerships, a.id, b.id)
    ensures Exclusive(partnerships + [Partnership(a, b)])
  {
    var now := partnerships + [Partnership(a, b)];
    forall i, j | 0 <= i < j < |now|
      ensures !Involves(now[j], now[i].player1.id) && !Involves(now[j], now[i].player2.id)
    {
      if j == |partnerships| {
        assert !Involves(partnerships[i], a.id) && !Involves(partnerships[i], b.id);
      }
    }
  }
}
