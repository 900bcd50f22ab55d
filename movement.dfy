/** The camel-movement rule of `moveCamel`, stated on values: which camels move, where
    they land, how they stack, and what the board and the camel list look like afterwards.
    The `GameState.MoveCamel` method is proved against `PlanMove`. */
module Movement {
  import opened Types
  import opened Setup

  /** `Array.prototype.indexOf` on a stack: the first index holding `c`, or -1. */
  function IndexOf(s: seq<CamelColor>, c: CamelColor): (r: int)
    ensures -1 <= r < |s|
    ensures r == -1 <==> c !in s
    ensures 0 <= r ==> s[r] == c && forall j :: 0 <= j < r ==> s[j] != c
  {
    if |s| == 0 then -1
    else if s[0] == c then 0
    else
      var k := IndexOf(s[1..], c);
      if k == -1 then -1 else k + 1
  }

  /** The colours of a camel list, in order. */
  function Colours(camels: seq<Camel>): seq<CamelColor> {
    seq(|camels|, i requires 0 <= i < |camels| => camels[i].color)
  }

  /** The index `camels.find` stops at for colour `c`, or -1 when no camel has it. */
  function CamelIndex(camels: seq<Camel>, c: CamelColor): (r: int)
    ensures -1 <= r < |camels|
    ensures r == -1 <==> forall i :: 0 <= i < |camels| ==> camels[i].color != c
    ensures 0 <= r ==> camels[r].color == c && forall i :: 0 <= i < r ==> camels[i].color != c
  {
    var colours := Colours(camels);
    assert forall i :: 0 <= i < |camels| ==> colours[i] == camels[i].color;
    var r := IndexOf(colours, c);
    r
  }

  /** Where `Array.prototype.splice(start)` starts cutting a list of length `len`:
      a negative start counts back from the end. */
  function SpliceStart(len: nat, start: int): (r: nat)
    ensures r <= len
    ensures 0 <= start <= len ==> r == start
    ensures start == -1 && len > 0 ==> r == len - 1
    ensures start == -1 && len == 0 ==> r == 0
  {
    if start < 0 then (if len + start < 0 then 0 else len + start)
    else if start > len then len
    else start
  }

  /** `Math.max(0, Math.min(x, hi))`. */
  function Clamp(x: int, hi: int): (r: int)
    ensures hi >= 0 ==> 0 <= r <= hi
    ensures 0 <= x <= hi ==> r == x
    ensures x < 0 ==> r == 0
    ensures hi >= 0 && x > hi ==> r == hi
  {
    var m := if x < hi then x else hi;
    if m > 0 then m else 0
  }

  /** The space a camel at `position` reaches with `value`: forward for a regular camel,
      backward for a special one, held to the track of length `trackLength`. */
  function Destination(position: int, value: int, color: CamelColor, trackLength: int): (r: int)
    ensures trackLength > 0 ==> 0 <= r < trackLength
    ensures !color.IsSpecial() && 0 <= position + value < trackLength ==> r == position + value
    ensures color.IsSpecial() && 0 <= position - value < trackLength ==> r == position - value
    ensures trackLength > 0 && !color.IsSpecial() && position + value >= trackLength ==> r == trackLength - 1
    ensures trackLength > 0 && !color.IsSpecial() && position + value < 0 ==> r == 0
    ensures trackLength > 0 && color.IsSpecial() && position - value < 0 ==> r == 0
    ensures trackLength > 0 && color.IsSpecial() && position - value >= trackLength ==> r == trackLength - 1
  {
    var direction := if color.IsSpecial() then -1 else 1;
    Clamp(position + value * direction, trackLength - 1)
  }

  /** The camel shown on top of `stack`: its last colour, when some camel has that colour. */
  function TopCamel(camels: seq<Camel>, stack: seq<CamelColor>): (r: Option<CamelColor>)
    ensures r.Some? <==> |stack| > 0 && stack[|stack| - 1] in Colours(camels)
    ensures r.Some? ==> r.value == stack[|stack| - 1]
  {
    if |stack| > 0 then
      var top := stack[|stack| - 1];
      assert forall i :: 0 <= i < |camels| ==> Colours(camels)[i] == camels[i].color;
      if CamelIndex(camels, top) >= 0 then Some(top) else None
    else None
  }

  /** The board with space `i` holding `stack`, its top recomputed from `camels`. */
  function SetStack(board: Board, i: nat, stack: seq<CamelColor>, camels: seq<Camel>): (r: Board)
    requires i < |board|
    ensures |r| == |board|
    ensures r[i] == board[i].(camelOrderOnSpace := stack, camelOnSpace := TopCamel(camels, stack))
    ensures forall j :: 0 <= j < |board| && j != i ==> r[j] == board[j]
  {
    board[i := board[i].(camelOrderOnSpace := stack, camelOnSpace := TopCamel(camels, stack))]
  }

  /** The stack on the landing space after `moving` arrives there. */
  function Stacked(landing: seq<CamelColor>, moving: seq<CamelColor>, color: CamelColor): seq<CamelColor> {
    if color.IsSpecial() && |landing| > 0 then moving + landing else landing + moving
  }

  /** The camel list after the position loop: for every moving colour, the first camel of
      that colour gets `position`. */
  function Relocated(camels: seq<Camel>, moving: seq<CamelColor>, position: int): (r: seq<Camel>)
    ensures Colours(r) == Colours(camels)
  {
    seq(|camels|, i requires 0 <= i < |camels| =>
      if camels[i].color in moving && CamelIndex(camels, camels[i].color) == i
      then camels[i].(position := position) else camels[i])
  }

  /** Every camel stands on the board. */
  predicate OnTrack(board: Board, camels: seq<Camel>) {
    |board| > 0 && forall i :: 0 <= i < |camels| ==> 0 <= camels[i].position < |board|
  }

  /** What one move does. `origin` and `destination` are 0-based board indices; the origin
      stack was `remaining + moving` and keeps `remaining`. */
  datatype Move = Move(
    mover: nat,
    origin: nat,
    destination: nat,
    moving: seq<CamelColor>,
    remaining: seq<CamelColor>,
    board: Board,
    camels: seq<Camel>)

  /** `moveCamel({value, color})` on a board and a camel list; `None` when no camel has
      `color` (the early return). */
  function PlanMove(board: Board, camels: seq<Camel>, value: int, color: CamelColor): (r: Option<Move>)
    requires OnTrack(board, camels)
    ensures r.None? <==> color !in Colours(camels)
    ensures r.Some? ==>
      var m := r.value;
      m.mover < |camels| && camels[m.mover].color == color &&
      m.mover == CamelIndex(camels, color) &&
      m.origin == camels[m.mover].position &&
      m.destination == Destination(m.origin, value, color, |board|) && m.destination < |board| &&
      board[m.origin].camelOrderOnSpace == m.remaining + m.moving &&
      |m.board| == |board| && |m.camels| == |camels|
  {
    var k := CamelIndex(camels, color);
    if k < 0 then
      assert forall i :: 0 <= i < |camels| ==> Colours(camels)[i] != color;
      None
    else
      assert Colours(camels)[k] == color;
      var origin := camels[k].position;
      var destination := Destination(origin, value, color, |board|);
      var order := board[origin].camelOrderOnSpace;
      var start := SpliceStart(|order|, IndexOf(order, color));
      var moving := order[start..];
      var remaining := order[..start];
      assert order == remaining + moving;
      var afterCut := SetStack(board, origin, remaining, camels);
      var afterLanding := SetStack(afterCut, destination, Stacked(afterCut[destination].camelOrderOnSpace, moving, color), camels);
      Some(Move(k, origin, destination, moving, remaining, afterLanding, Relocated(camels, moving, destination)))
  }

  // ---------------------------------------------------------------------------------
  // Properties of a move

  /** No two camels share a colour. */
  predicate UniqueColours(camels: seq<Camel>) {
    forall i, j :: 0 <= i < j < |camels| ==> camels[i].color != camels[j].color
  }

  /** Each camel's colour is in the stack of the space its position names. */
  predicate Placed(board: Board, camels: seq<Camel>)
    requires OnTrack(board, camels)
  {
    forall i :: 0 <= i < |camels| ==> camels[i].color in board[camels[i].position].camelOrderOnSpace
  }

  /** The last colour of a stack, or none for an empty stack. */
  function Last(stack: seq<CamelColor>): Option<CamelColor> {
    if |stack| == 0 then None else Some(stack[|stack| - 1])
  }

  /** Every space shows the last camel of its stack on top. */
  predicate TopsAgree(board: Board) {
    forall i :: 0 <= i < |board| ==> board[i].camelOnSpace == Last(board[i].camelOrderOnSpace)
  }

  /** How many times colour `c` appears over all stacks of the board. */
  function Occurrences(board: Board, c: CamelColor): nat {
    if |board| == 0 then 0 else multiset(board[0].camelOrderOnSpace)[c] + Occurrences(board[1..], c)
  }

  /** Replacing one space changes the count of a colour by exactly that space's change. */
  lemma {:induction false} OccurrencesUpdate(board: Board, i: nat, s: Space, c: CamelColor)
    requires i < |board|
    ensures Occurrences(board[i := s], c) + multiset(board[i].camelOrderOnSpace)[c]
         == Occurrences(board, c) + multiset(s.camelOrderOnSpace)[c]
  {
    var updated := board[i := s];
    if i == 0 {
      assert updated[1..] == board[1..];
    } else {
      assert updated[0] == board[0] && board[1..][i - 1] == board[i];
      assert updated[1..] == board[1..][i - 1 := s];
      OccurrencesUpdate(board[1..], i - 1, s, c);
    }
  }

  /** The new place of the moved camels is on the track, and every camel stays on it. */
  lemma MoveStaysOnTrack(board: Board, camels: seq<Camel>, value: int, color: CamelColor)
    requires OnTrack(board, camels)
    requires color in Colours(camels)
    ensures var m := PlanMove(board, camels, value, color).value;
      0 <= m.destination < |board| && OnTrack(m.board, m.camels)
  {
  }

  /** The moving group is the top of the origin stack from the mover up; the origin keeps
      the rest. A mover missing from its own stack takes the stack's top camel instead (or
      nothing from an empty stack), as `splice(-1)` does. Only the two spaces change. */
  lemma MoveGroup(board: Board, camels: seq<Camel>, value: int, color: CamelColor)
    requires OnTrack(board, camels)
    requires color in Colours(camels)
    ensures var m := PlanMove(board, camels, value, color).value;
      var order := board[m.origin].camelOrderOnSpace;
      order == m.remaining + m.moving &&
      (color in order ==>
        m.moving == order[IndexOf(order, color)..] && m.moving[0] == color && color !in m.remaining) &&
      (color !in order ==>
        m.moving == (if |order| == 0 then [] else [order[|order| - 1]])) &&
      (m.origin != m.destination ==> m.board[m.origin].camelOrderOnSpace == m.remaining) &&
      forall j :: 0 <= j < |board| && j != m.origin && j != m.destination ==> m.board[j] == board[j]
  {
  }

  /** A special camel landing on an occupied space goes under the stack; otherwise the group
      goes on top. Either way the group keeps its order. A regular camel held in place by
      the track's end leaves its stack as it was. */
  lemma MoveStacking(board: Board, camels: seq<Camel>, value: int, color: CamelColor)
    requires OnTrack(board, camels)
    requires color in Colours(camels)
    ensures var m := PlanMove(board, camels, value, color).value;
      var landing := if m.origin == m.destination then m.remaining else board[m.destination].camelOrderOnSpace;
      (color.IsSpecial() && |landing| > 0 ==> m.board[m.destination].camelOrderOnSpace == m.moving + landing) &&
      (!color.IsSpecial() || |landing| == 0 ==> m.board[m.destination].camelOrderOnSpace == landing + m.moving) &&
      (!color.IsSpecial() && m.origin == m.destination ==>
        m.board[m.destination].camelOrderOnSpace == board[m.origin].camelOrderOnSpace)
  {
  }

  /** The two board updates a move makes, one after the other. */
  lemma MoveShape(board: Board, camels: seq<Camel>, value: int, color: CamelColor)
    requires OnTrack(board, camels)
    requires color in Colours(camels)
    ensures var m := PlanMove(board, camels, value, color).value;
      var order := board[m.origin].camelOrderOnSpace;
      var start := SpliceStart(|order|, IndexOf(order, color));
      var cut := SetStack(board, m.origin, m.remaining, camels);
      m.mover == CamelIndex(camels, color) &&
      m.moving == order[start..] && m.remaining == order[..start] &&
      m.board == SetStack(cut, m.destination, Stacked(cut[m.destination].camelOrderOnSpace, m.moving, color), camels) &&
      m.camels == Relocated(camels, m.moving, m.destination)
  {
  }

  /** Cutting `moving` off the top of space `o` and stacking it onto space `d` keeps the
      count of every colour over all stacks. */
  lemma TransferConserves(board: Board, camels: seq<Camel>, o: nat, d: nat,
                          remaining: seq<CamelColor>, moving: seq<CamelColor>, color: CamelColor, c: CamelColor)
    requires o < |board| && d < |board|
    requires board[o].camelOrderOnSpace == remaining + moving
    ensures var cut := SetStack(board, o, remaining, camels);
      Occurrences(SetStack(cut, d, Stacked(cut[d].camelOrderOnSpace, moving, color), camels), c) == Occurrences(board, c)
  {
    var cut := SetStack(board, o, remaining, camels);
    assert cut == board[o := cut[o]];
    OccurrencesUpdate(board, o, cut[o], c);
    assert multiset(board[o].camelOrderOnSpace) == multiset(remaining) + multiset(moving);
    var landing := cut[d].camelOrderOnSpace;
    var stacked := Stacked(landing, moving, color);
    assert multiset(stacked) == multiset(landing) + multiset(moving);
    var landed := SetStack(cut, d, stacked, camels);
    assert landed == cut[d := landed[d]];
    OccurrencesUpdate(cut, d, landed[d], c);
  }

  /** A move takes from the origin exactly what it puts on the destination: every colour
      appears over all stacks as often before as after. */
  lemma MoveConserves(board: Board, camels: seq<Camel>, value: int, color: CamelColor, c: CamelColor)
    requires OnTrack(board, camels)
    requires color in Colours(camels)
    ensures Occurrences(PlanMove(board, camels, value, color).value.board, c) == Occurrences(board, c)
  {
    var m := PlanMove(board, camels, value, color).value;
    MoveShape(board, camels, value, color);
    TransferConserves(board, camels, m.origin, m.destination, m.remaining, m.moving, color, c);
  }

  /** With one camel per colour, the position loop moves exactly the camels whose colour
      is in the group. */
  lemma RelocatedUnique(camels: seq<Camel>, moving: seq<CamelColor>, position: int)
    requires UniqueColours(camels)
    ensures forall i :: 0 <= i < |camels| ==>
      Relocated(camels, moving, position)[i] ==
        if camels[i].color in moving then camels[i].(position := position) else camels[i]
  {
    forall i | 0 <= i < |camels|
      ensures CamelIndex(camels, camels[i].color) == i
    {
    }
  }

  /** With one camel per colour, the moved camels are exactly those whose colour is in the
      group, each now at the destination; every other camel keeps its position. */
  lemma MovePositions(board: Board, camels: seq<Camel>, value: int, color: CamelColor)
    requires OnTrack(board, camels) && UniqueColours(camels)
    requires color in Colours(camels)
    ensures var m := PlanMove(board, camels, value, color).value;
      forall i :: 0 <= i < |camels| ==>
        m.camels[i] == if camels[i].color in m.moving then camels[i].(position := m.destination) else camels[i]
  {
    var m := PlanMove(board, camels, value, color).value;
    MoveShape(board, camels, value, color);
    RelocatedUnique(camels, m.moving, m.destination);
  }

  /** When every colour has a camel, both spaces a move touches show the last camel of their
      new stack, or nothing when the stack is empty. */
  lemma MoveTops(board: Board, camels: seq<Camel>, value: int, color: CamelColor)
    requires OnTrack(board, camels)
    requires forall c: CamelColor :: c in Colours(camels)
    requires color in Colours(camels)
    ensures var m := PlanMove(board, camels, value, color).value;
      m.board[m.origin].camelOnSpace == Last(m.board[m.origin].camelOrderOnSpace) &&
      m.board[m.destination].camelOnSpace == Last(m.board[m.destination].camelOrderOnSpace)
  {
    var m := PlanMove(board, camels, value, color).value;
    MoveShape(board, camels, value, color);
    var cut := SetStack(board, m.origin, m.remaining, camels);
    TopIsLast(camels, m.remaining);
    TopIsLast(camels, Stacked(cut[m.destination].camelOrderOnSpace, m.moving, color));
  }

  /** When every colour has a camel, the camel shown on a stack is its last colour. */
  lemma TopIsLast(camels: seq<Camel>, stack: seq<CamelColor>)
    requires forall c: CamelColor :: c in Colours(camels)
    ensures TopCamel(camels, stack) == Last(stack)
  {
  }

  /** The board invariant the game relies on: one camel per colour, every colour exactly
      once over all stacks, each camel in the stack of its own space, tops shown correctly. */
  predicate Consistent(board: Board, camels: seq<Camel>) {
    OnTrack(board, camels) && UniqueColours(camels) &&
    (forall c: CamelColor :: c in Colours(camels)) &&
    (forall c: CamelColor :: Occurrences(board, c) == 1) &&
    Placed(board, camels) && TopsAgree(board)
  }

  /** Cutting `moving` off space `o` onto space `d` and relocating those camels to `d`
      keeps every camel in the stack of its own space. */
  lemma TransferPlaced(board: Board, camels: seq<Camel>, o: nat, d: nat,
                       remaining: seq<CamelColor>, moving: seq<CamelColor>, color: CamelColor)
    requires OnTrack(board, camels) && UniqueColours(camels) && Placed(board, camels)
    requires o < |board| && d < |board|
    requires board[o].camelOrderOnSpace == remaining + moving
    ensures var cut := SetStack(board, o, remaining, camels);
      var after := SetStack(cut, d, Stacked(cut[d].camelOrderOnSpace, moving, color), camels);
      var moved := Relocated(camels, moving, d);
      OnTrack(after, moved) && Placed(after, moved)
  {
    var cut := SetStack(board, o, remaining, camels);
    var landing := cut[d].camelOrderOnSpace;
    var after := SetStack(cut, d, Stacked(landing, moving, color), camels);
    var moved := Relocated(camels, moving, d);
    RelocatedUnique(camels, moving, d);
    assert OnTrack(after, moved);
    assert forall x :: x in after[d].camelOrderOnSpace <==> x in landing || x in moving;
    forall i | 0 <= i < |moved|
      ensures moved[i].color in after[moved[i].position].camelOrderOnSpace
    {
      var c := camels[i].color;
      var p := camels[i].position;
      assert c in board[p].camelOrderOnSpace;
      if c !in moving && p == o {
        assert c in remaining;
      }
    }
  }

  /** Every space but two unchanged, the two recomputed from their stacks: when every colour
      has a camel, each space still shows the last camel of its stack. */
  lemma TransferTops(board: Board, camels: seq<Camel>, o: nat, d: nat,
                     remaining: seq<CamelColor>, moving: seq<CamelColor>, color: CamelColor)
    requires TopsAgree(board) && forall c: CamelColor :: c in Colours(camels)
    requires o < |board| && d < |board|
    ensures var cut := SetStack(board, o, remaining, camels);
      TopsAgree(SetStack(cut, d, Stacked(cut[d].camelOrderOnSpace, moving, color), camels))
  {
  }

  /** The two board updates and the relocation of a move keep the board consistent. */
  lemma TransferConsistent(board: Board, camels: seq<Camel>, o: nat, d: nat,
                           remaining: seq<CamelColor>, moving: seq<CamelColor>, color: CamelColor)
    requires Consistent(board, camels)
    requires o < |board| && d < |board|
    requires board[o].camelOrderOnSpace == remaining + moving
    ensures var cut := SetStack(board, o, remaining, camels);
      Consistent(SetStack(cut, d, Stacked(cut[d].camelOrderOnSpace, moving, color), camels),
                 Relocated(camels, moving, d))
  {
    var cut := SetStack(board, o, remaining, camels);
    var after := SetStack(cut, d, Stacked(cut[d].camelOrderOnSpace, moving, color), camels);
    var moved := Relocated(camels, moving, d);
    forall c: CamelColor ensures Occurrences(after, c) == 1 {
      TransferConserves(board, camels, o, d, remaining, moving, color, c);
    }
    TransferPlaced(board, camels, o, d, remaining, moving, color);
    TransferTops(board, camels, o, d, remaining, moving, color);
    assert Colours(moved) == Colours(camels);
  }

  /** A move keeps the board consistent. */
  lemma MovePreservesConsistency(board: Board, camels: seq<Camel>, value: int, color: CamelColor)
    requires Consistent(board, camels)
    ensures PlanMove(board, camels, value, color).Some?
    ensures var m := PlanMove(board, camels, value, color).value;
      Consistent(m.board, m.camels)
  {
    assert color in Colours(camels);
    var m := PlanMove(board, camels, value, color).value;
    MoveShape(board, camels, value, color);
    TransferConsistent(board, camels, m.origin, m.destination, m.remaining, m.moving, color);
  }

  /** Every stack empty and no camel shown. */
  predicate Deserted(board: Board) {
    forall i :: 0 <= i < |board| ==> board[i].camelOrderOnSpace == [] && board[i].camelOnSpace == None
  }

  /** On a board where no camel is in any stack, every roll cuts an empty group, so the
      board and the camels come back unchanged. */
  lemma DesertedBoardNoMove(board: Board, camels: seq<Camel>, value: int, color: CamelColor)
    requires OnTrack(board, camels) && Deserted(board)
    requires color in Colours(camels)
    ensures var m := PlanMove(board, camels, value, color);
      m.Some? && m.value.moving == [] && m.value.board == board && m.value.camels == camels
  {
    var m := PlanMove(board, camels, value, color).value;
    MoveShape(board, camels, value, color);
    var cut := SetStack(board, m.origin, m.remaining, camels);
    assert cut == board;
    assert Relocated(camels, [], m.destination) == camels;
  }

  /** From the initial board and camels nothing moves: no camel is in any stack, so every
      roll cuts an empty group and the board and camels come back unchanged. */
  lemma NothingMovesFromStart(value: int, color: CamelColor)
    ensures OnTrack(InitialBoard, InitialCamels)
    ensures var m := PlanMove(InitialBoard, InitialCamels, value, color);
      m.Some? && m.value.moving == [] && m.value.board == InitialBoard && m.value.camels == InitialCamels
  {
    assert Colours(InitialCamels) == [Red, Blue, Green, Yellow, Purple, White, Black];
    assert color in Colours(InitialCamels);
    DesertedBoardNoMove(InitialBoard, InitialCamels, value, color);
  }

  /** Blue beneath green on index 5 of a 16-space track with index 6 empty; blue rolls a 1:
      the pair lands on index 6 in the same order, index 5 is left empty, and exactly the
      blue and green camels move. */
  lemma BlueCarriesGreen(board: Board, camels: seq<Camel>)
    requires OnTrack(board, camels) && UniqueColours(camels) && |board| == TrackLength
    requires board[5].camelOrderOnSpace == [Blue, Green] && board[6].camelOrderOnSpace == []
    requires Blue in Colours(camels) && camels[CamelIndex(camels, Blue)].position == 5
    ensures var m := PlanMove(board, camels, 1, Blue);
      m.Some? && m.value.moving == [Blue, Green] && m.value.destination == 6 &&
      m.value.board[6].camelOrderOnSpace == [Blue, Green] && m.value.board[5].camelOrderOnSpace == [] &&
      forall i :: 0 <= i < |camels| ==>
        m.value.camels[i] == if camels[i].color in [Blue, Green] then camels[i].(position := 6) else camels[i]
  {
    var m := PlanMove(board, camels, 1, Blue).value;
    assert IndexOf([Blue, Green], Blue) == 0;
    MoveGroup(board, camels, 1, Blue);
    MoveStacking(board, camels, 1, Blue);
    MovePositions(board, camels, 1, Blue);
  }

  /** A camel list in the initial colour order has one camel per colour and every colour. */
  lemma InitialColoursUnique(camels: seq<Camel>)
    requires Colours(camels) == Colours(InitialCamels)
    ensures UniqueColours(camels) && forall c: CamelColor :: c in Colours(camels)
  {
    assert Colours(InitialCamels) == [Red, Blue, Green, Yellow, Purple, White, Black];
    forall i, j | 0 <= i < j < |camels|
      ensures camels[i].color != camels[j].color
    {
      assert camels[i].color == Colours(camels)[i] && camels[j].color == Colours(camels)[j];
    }
    forall c: CamelColor
      ensures c in Colours(camels)
    {
      match c
      case Red => assert Colours(camels)[0] == c;
      case Blue => assert Colours(camels)[1] == c;
      case Green => assert Colours(camels)[2] == c;
      case Yellow => assert Colours(camels)[3] == c;
      case Purple => assert Colours(camels)[4] == c;
      case White => assert Colours(camels)[5] == c;
      case Black => assert Colours(camels)[6] == c;
    }
  }
}
