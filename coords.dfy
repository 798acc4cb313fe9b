/** Integer lattice coordinates (the game stores them in float vectors, but every
    coordinate starts as a tile index and only ever moves by one step), and the
    list query `indexOf` the move rules use on coordinate lists. */
module Coords {

  datatype Option<T> = None | Some(value: T)

  datatype Coord = Coord(x: int, y: int) {
    /** Component-wise sum, the in-place `add` of a float vector. */
    function Add(d: Coord): Coord {
      Coord(x + d.x, y + d.y)
    }

    /** The vector scaled by -1. */
    function Opposite(): Coord {
      Coord(-x, -y)
    }
  }

  /** The four axis directions, in the order the move generator tries them. */
  const Right := Coord(1, 0)
  const Left := Coord(-1, 0)
  const Up := Coord(0, 1)
  const Down := Coord(0, -1)

  predicate IsDirection(d: Coord) {
    d == Right || d == Left || d == Up || d == Down
  }

  /** The first position of `c` in `s`, or -1 when `c` does not occur (a list's `indexOf`). */
  function IndexOf(s: seq<Coord>, c: Coord): (r: int)
    ensures r == -1 <==> c !in s
    ensures r != -1 ==> 0 <= r < |s| && s[r] == c && c !in s[..r]
  {
    if s == [] then -1
    else if s[0] == c then 0
    else
      var k := IndexOf(s[1..], c);
      if k == -1 then -1 else k + 1
  }

  /** No coordinate occurs twice. */
  ghost predicate Distinct(s: seq<Coord>) {
    forall i, j :: 0 <= i < j < |s| ==> s[i] != s[j]
  }
}
