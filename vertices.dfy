/** A board state of the puzzle: the box coordinates and the player coordinate.
    The search bookkeeping a vertex also carries (costs, parent) lives in the
    search engine's arena, module Search. */
module Vertices {
  import opened Coords

  datatype Board = Board(boxes: seq<Coord>, player: Coord)

  /** The vertex constructor: it clones every box coordinate into a new list, one
      at a time and in order, then clones the player coordinate. Coordinates are
      values here, so the clone is the argument itself and later changes to the
      caller's list cannot reach the new board. */
  method NewBoard(boxes: seq<Coord>, player: Coord) returns (b: Board)
    ensures |b.boxes| == |boxes|
    ensures forall i :: 0 <= i < |boxes| ==> b.boxes[i] == boxes[i]
    ensures b.player == player
  {
    var copy: seq<Coord> := [];
    for i := 0 to |boxes|
      invariant |copy| == i
      invariant forall k :: 0 <= k < i ==> copy[k] == boxes[k]
    {
      copy := copy + [Coord(boxes[i].x, boxes[i].y)];
    }
    b := Board(copy, Coord(player.x, player.y));
  }
}
