/** The move rules of the push-and-pull puzzle: from a board, the player steps
    right, left, up or down; a box in the way is pushed when the cell beyond it
    is free, and a box directly behind the player may optionally be pulled along. */
module Pukoban {
  import opened Coords
  import opened Vertices

  /** The level geometry the rules consult: the map size in tiles and the wall cells. */
  datatype Level = Level(width: int, height: int, walls: seq<Coord>)

  /** How a step in one direction interacts with the boxes. */
  datatype PlayerBoxCol = NoMove | Push | Pull | FreeSpace

  ghost predicate InBounds(level: Level, c: Coord) {
    0 <= c.x < level.width && 0 <= c.y < level.height
  }

  /** True when `c` lies off the map or on a wall. */
  function CollisionCheck(level: Level, c: Coord): (r: bool)
    ensures r <==> !InBounds(level, c) || c in level.walls
  {
    if c.x < 0 || c.y < 0 then true
    else if c.x > level.width - 1 || c.y > level.height - 1 then true
    else if c in level.walls then true
    else false
  }

  function BoxCollision(boxes: seq<Coord>, c: Coord): (r: bool)
    ensures r <==> exists i :: 0 <= i < |boxes| && boxes[i] == c
  {
    c in boxes
  }

  /** The cell two steps behind `dest` against `dir`: for `dest == player + dir`,
      the cell directly behind the player. */
  function BehindPlayer(dest: Coord, dir: Coord): Coord {
    dest.Add(dir.Opposite()).Add(dir.Opposite())
  }

  /** Classifies the step of the player to `dest` in direction `dir`. */
  function SimulatePlayerMove(level: Level, b: Board, dest: Coord, dir: Coord): (r: PlayerBoxCol)
    ensures r == Push <==>
              dest in b.boxes && !CollisionCheck(level, dest.Add(dir)) && dest.Add(dir) !in b.boxes
    ensures r == NoMove <==>
              dest in b.boxes && (CollisionCheck(level, dest.Add(dir)) || dest.Add(dir) in b.boxes)
    ensures r == Pull <==> dest !in b.boxes && BehindPlayer(dest, dir) in b.boxes
    ensures r == FreeSpace <==> dest !in b.boxes && BehindPlayer(dest, dir) !in b.boxes
  {
    var index := IndexOf(b.boxes, dest);
    if index != -1 then
      var boxCoords := b.boxes[index].Add(dir);
      if !CollisionCheck(level, boxCoords) && !BoxCollision(b.boxes, boxCoords) then Push
      else NoMove
    else
      var checkForBox := BehindPlayer(dest, dir);
      if checkForBox in b.boxes then Pull else FreeSpace
  }

  /** The box a move displaces: the one at `dest` for a push, the one behind the
      player for a pull. */
  function MovedFrom(dest: Coord, dir: Coord, isPull: bool): Coord {
    if isPull then BehindPlayer(dest, dir) else dest
  }

  /** The box list after the move: the first box at `MovedFrom(...)` advanced by `dir`. */
  function MovedBoxes(boxes: seq<Coord>, dest: Coord, dir: Coord, isPull: bool): (r: seq<Coord>)
    requires MovedFrom(dest, dir, isPull) in boxes
    ensures |r| == |boxes|
  {
    var src := MovedFrom(dest, dir, isPull);
    var index := IndexOf(boxes, src);
    boxes[index := src.Add(dir)]
  }

  /** Copies the box list, then advances the displaced box by `dir`. */
  method MoveBoxes(b: Board, dest: Coord, dir: Coord, isPull: bool) returns (tempBoxes: seq<Coord>)
    requires MovedFrom(dest, dir, isPull) in b.boxes
    ensures tempBoxes == MovedBoxes(b.boxes, dest, dir, isPull)
  {
    tempBoxes := [];
    for i := 0 to |b.boxes|
      invariant tempBoxes == b.boxes[..i]
    {
      tempBoxes := tempBoxes + [Coord(b.boxes[i].x, b.boxes[i].y)];
    }
    assert tempBoxes == b.boxes;
    if isPull {
      var oppositeDir := Coord(dir.x * -1, dir.y * -1);
      var pullBox := dest.Add(oppositeDir).Add(oppositeDir);
      var index := IndexOf(tempBoxes, pullBox);
      var newBox := tempBoxes[index].Add(dir);
      tempBoxes := tempBoxes[index := newBox];
    } else {
      var index := IndexOf(tempBoxes, dest);
      var newBox := tempBoxes[index].Add(dir);
      tempBoxes := tempBoxes[index := newBox];
    }
  }

  /** The boards one step to `dest` in direction `dir` leads to. */
  function Successors(level: Level, b: Board, dest: Coord, dir: Coord): seq<Board> {
    match SimulatePlayerMove(level, b, dest, dir)
    case Push => [Board(MovedBoxes(b.boxes, dest, dir, false), dest)]
    case Pull => [Board(MovedBoxes(b.boxes, dest, dir, true), dest), Board(b.boxes, dest)]
    case FreeSpace => [Board(b.boxes, dest)]
    case NoMove => []
  }

  method SimulatePukobanState(level: Level, b: Board, dest: Coord, dir: Coord) returns (verts: seq<Board>)
    ensures verts == Successors(level, b, dest, dir)
  {
    verts := [];
    match SimulatePlayerMove(level, b, dest, dir)
    case Push =>
      var moved := MoveBoxes(b, dest, dir, false);
      var v := NewBoard(moved, dest);
      assert v.boxes == moved;
      verts := verts + [v];
    case Pull =>
      var moved := MoveBoxes(b, dest, dir, true);
      var pulled := NewBoard(moved, dest);
      assert pulled.boxes == moved;
      verts := verts + [pulled];
      var stayed := NewBoard(b.boxes, dest);
      assert stayed.boxes == b.boxes;
      verts := verts + [stayed];
    case FreeSpace =>
      var v := NewBoard(b.boxes, dest);
      assert v.boxes == b.boxes;
      verts := verts + [v];
    case NoMove =>
  }

  /** The successors of one direction: none when the destination collides,
      otherwise those of the step. */
  function DirectionMoves(level: Level, b: Board, dir: Coord): seq<Board> {
    var dest := b.player.Add(dir);
    if CollisionCheck(level, dest) then [] else Successors(level, b, dest, dir)
  }

  /** All successor boards, direction by direction: right, left, up, down. */
  function PossibleMoves(level: Level, b: Board): seq<Board> {
    DirectionMoves(level, b, Right) + DirectionMoves(level, b, Left)
      + DirectionMoves(level, b, Up) + DirectionMoves(level, b, Down)
  }

  method CalcPossibleMoves(level: Level, b: Board) returns (moves: seq<Board>)
    ensures moves == PossibleMoves(level, b)
  {
    moves := [];
    var pCoords := b.player;
    var moveRight := Coord(pCoords.x + 1, pCoords.y);
    var moveLeft := Coord(pCoords.x - 1, pCoords.y);
    var moveUp := Coord(pCoords.x, pCoords.y + 1);
    var moveDown := Coord(pCoords.x, pCoords.y - 1);

    var validRight := !CollisionCheck(level, moveRight);
    var validLeft := !CollisionCheck(level, moveLeft);
    var validUp := !CollisionCheck(level, moveUp);
    var validDown := !CollisionCheck(level, moveDown);

    moves := AddIfValid(level, b, moves, validRight, moveRight, Coord(1, 0));
    assert moves == DirectionMoves(level, b, Right);
    moves := AddIfValid(level, b, moves, validLeft, moveLeft, Coord(-1, 0));
    moves := AddIfValid(level, b, moves, validUp, moveUp, Coord(0, 1));
    moves := AddIfValid(level, b, moves, validDown, moveDown, Coord(0, -1));
  }

  /** One `if (valid...) possibleMoves.addAll(simulatePukobanState(...))` step:
      appends the moves of direction `dir` when its destination is free. */
  method AddIfValid(level: Level, b: Board, moves: seq<Board>, valid: bool, dest: Coord, dir: Coord)
    returns (r: seq<Board>)
    requires dest == b.player.Add(dir) && valid == !CollisionCheck(level, dest)
    ensures r == moves + DirectionMoves(level, b, dir)
  {
    r := moves;
    if valid {
      var s := SimulatePukobanState(level, b, dest, dir);
      r := r + s;
    }
  }

  // ---------------------------------------------------------------------------
  // Properties of the rules

  /** Exactly one box changes: the first box at the displaced cell moves one step
      along `dir`; every other entry keeps its coordinate. */
  lemma MovedBoxesChangesOneBox(boxes: seq<Coord>, dest: Coord, dir: Coord, isPull: bool)
    requires IsDirection(dir)
    requires MovedFrom(dest, dir, isPull) in boxes
    ensures var r := MovedBoxes(boxes, dest, dir, isPull);
            var i := IndexOf(boxes, MovedFrom(dest, dir, isPull));
            && 0 <= i < |boxes| && boxes[i] == MovedFrom(dest, dir, isPull)
            && r[i] == boxes[i].Add(dir)
            && (forall k :: 0 <= k < |r| ==> (r[k] != boxes[k] <==> k == i))
  {
  }

  /** A pulled box lands in the cell the player has just left. */
  lemma PulledBoxFillsVacatedCell(b: Board, dir: Coord)
    requires BehindPlayer(b.player.Add(dir), dir) in b.boxes
    ensures var dest := b.player.Add(dir);
            MovedBoxes(b.boxes, dest, dir, true)[IndexOf(b.boxes, BehindPlayer(dest, dir))] == b.player
  {
  }

  /** The shape of one step's successors: a pull gives the pulled and the
      unpulled board, a push or a free step one board, a blocked push none; the
      player always ends on `dest`. */
  lemma SuccessorsShape(level: Level, b: Board, dest: Coord, dir: Coord)
    ensures var s := Successors(level, b, dest, dir);
            var k := SimulatePlayerMove(level, b, dest, dir);
            && |s| == (match k case Pull => 2 case Push => 1 case FreeSpace => 1 case NoMove => 0)
            && (forall i :: 0 <= i < |s| ==> s[i].player == dest)
            && (k == Pull ==> s[0].boxes == MovedBoxes(b.boxes, dest, dir, true) && s[1].boxes == b.boxes)
            && (k == Push ==> s[0].boxes == MovedBoxes(b.boxes, dest, dir, false))
            && (k == FreeSpace ==> s[0].boxes == b.boxes)
  {
  }

  /** A pushed box never lands off the map, on a wall or on another box. */
  lemma PushedBoxLandsOnFreeCell(level: Level, b: Board, dest: Coord, dir: Coord)
    requires SimulatePlayerMove(level, b, dest, dir) == Push
    ensures var r := MovedBoxes(b.boxes, dest, dir, false);
            var i := IndexOf(b.boxes, dest);
            && r[i] == dest.Add(dir)
            && !CollisionCheck(level, r[i])
            && (forall k :: 0 <= k < |b.boxes| ==> b.boxes[k] != r[i])
  {
  }

  /** A board the rules can be applied to: player and boxes on free cells, the
      player not on a box, no two boxes on one cell. */
  ghost predicate ValidBoard(level: Level, b: Board) {
    && !CollisionCheck(level, b.player)
    && b.player !in b.boxes
    && (forall i :: 0 <= i < |b.boxes| ==> !CollisionCheck(level, b.boxes[i]))
    && Distinct(b.boxes)
  }

  /** `next` is one legal player step away from `b`: the player moved by one
      axis direction, the box count is kept, and `next` is again a valid board. */
  ghost predicate ValidStep(level: Level, b: Board, next: Board) {
    && IsDirection(Coord(next.player.x - b.player.x, next.player.y - b.player.y))
    && |next.boxes| == |b.boxes|
    && ValidBoard(level, next)
  }

  /** A push from a valid board yields a valid board. */
  lemma PushKeepsBoardValid(level: Level, b: Board, dir: Coord)
    requires IsDirection(dir) && ValidBoard(level, b)
    requires !CollisionCheck(level, b.player.Add(dir))
    requires SimulatePlayerMove(level, b, b.player.Add(dir), dir) == Push
    ensures ValidStep(level, b, Board(MovedBoxes(b.boxes, b.player.Add(dir), dir, false), b.player.Add(dir)))
  {
    var dest := b.player.Add(dir);
    var r := MovedBoxes(b.boxes, dest, dir, false);
    var i := IndexOf(b.boxes, dest);
    MovedBoxesChangesOneBox(b.boxes, dest, dir, false);
    PushedBoxLandsOnFreeCell(level, b, dest, dir);
    forall p, q | 0 <= p < q < |r| ensures r[p] != r[q] {
      if p != i && q != i {
        assert r[p] == b.boxes[p] && r[q] == b.boxes[q];
      }
    }
    forall k | 0 <= k < |r| ensures r[k] != dest && !CollisionCheck(level, r[k]) {
      if k != i {
        assert b.boxes[k] != b.boxes[i];
      }
    }
  }

  /** A pull from a valid board yields a valid board. */
  lemma PullKeepsBoardValid(level: Level, b: Board, dir: Coord)
    requires IsDirection(dir) && ValidBoard(level, b)
    requires !CollisionCheck(level, b.player.Add(dir))
    requires SimulatePlayerMove(level, b, b.player.Add(dir), dir) == Pull
    ensures ValidStep(level, b, Board(MovedBoxes(b.boxes, b.player.Add(dir), dir, true), b.player.Add(dir)))
  {
    var dest := b.player.Add(dir);
    var src := BehindPlayer(dest, dir);
    var r := MovedBoxes(b.boxes, dest, dir, true);
    var i := IndexOf(b.boxes, src);
    MovedBoxesChangesOneBox(b.boxes, dest, dir, true);
    PulledBoxFillsVacatedCell(b, dir);
    assert r[i] == b.player;
    forall p, q | 0 <= p < q < |r| ensures r[p] != r[q] {
      if p != i && q != i {
        assert r[p] == b.boxes[p] && r[q] == b.boxes[q];
      } else if p == i {
        assert r[q] == b.boxes[q];
      } else {
        assert r[p] == b.boxes[p];
      }
    }
    forall k | 0 <= k < |r| ensures r[k] != dest && !CollisionCheck(level, r[k]) {
      if k != i {
        assert r[k] == b.boxes[k];
      }
    }
  }

  lemma {:induction false} DirectionMovesValid(level: Level, b: Board, dir: Coord)
    requires IsDirection(dir) && ValidBoard(level, b)
    ensures |DirectionMoves(level, b, dir)| <= 2
    ensures forall i :: 0 <= i < |DirectionMoves(level, b, dir)| ==>
              ValidStep(level, b, DirectionMoves(level, b, dir)[i])
  {
    var dest := b.player.Add(dir);
    if !CollisionCheck(level, dest) {
      match SimulatePlayerMove(level, b, dest, dir)
      case Push => PushKeepsBoardValid(level, b, dir);
      case Pull =>
        PullKeepsBoardValid(level, b, dir);
        assert ValidStep(level, b, Board(b.boxes, dest));
      case FreeSpace =>
        assert ValidStep(level, b, Board(b.boxes, dest));
      case NoMove =>
    }
  }

  /** Every successor is one step away, keeps the number of boxes and is again a
      valid board (so its player is on the map and off the walls); there are at
      most eight of them. */
  lemma {:induction false} PossibleMovesValid(level: Level, b: Board)
    requires ValidBoard(level, b)
    ensures |PossibleMoves(level, b)| <= 8
    ensures forall i :: 0 <= i < |PossibleMoves(level, b)| ==> ValidStep(level, b, PossibleMoves(level, b)[i])
  {
    DirectionMovesValid(level, b, Right);
    DirectionMovesValid(level, b, Left);
    DirectionMovesValid(level, b, Up);
    DirectionMovesValid(level, b, Down);
    var r, l, u, d := DirectionMoves(level, b, Right), DirectionMoves(level, b, Left),
                      DirectionMoves(level, b, Up), DirectionMoves(level, b, Down);
    AllValidSteps(level, b, r, l);
    AllValidSteps(level, b, r + l, u);
    AllValidSteps(level, b, r + l + u, d);
  }

  /** Whatever the board, each direction gives at most two successors, so a
      board has at most eight. */
  lemma AtMostEightMoves(level: Level, b: Board)
    ensures forall dir :: |DirectionMoves(level, b, dir)| <= 2
    ensures |PossibleMoves(level, b)| <= 8
  {
    forall dir ensures |DirectionMoves(level, b, dir)| <= 2 {
      SuccessorsShape(level, b, b.player.Add(dir), dir);
    }
  }

  /** Every board of `s` has its player on the map and off the walls. */
  ghost predicate OnFreeCells(level: Level, s: seq<Board>) {
    forall i :: 0 <= i < |s| ==> !CollisionCheck(level, s[i].player)
  }

  lemma DirectionMovesOnFreeCells(level: Level, b: Board, dir: Coord)
    ensures OnFreeCells(level, DirectionMoves(level, b, dir))
  {
    SuccessorsShape(level, b, b.player.Add(dir), dir);
  }

  lemma OnFreeCellsAppend(level: Level, x: seq<Board>, y: seq<Board>)
    requires OnFreeCells(level, x) && OnFreeCells(level, y)
    ensures OnFreeCells(level, x + y)
  {
    forall i | 0 <= i < |x + y| ensures !CollisionCheck(level, (x + y)[i].player) {
      if i >= |x| { assert (x + y)[i] == y[i - |x|]; }
    }
  }

  /** Whatever the board, every successor's player stands on the map and off
      the walls: a direction contributes only when its destination does not
      collide. */
  lemma MovesLandOnFreeCells(level: Level, b: Board)
    ensures forall i :: 0 <= i < |PossibleMoves(level, b)| ==> !CollisionCheck(level, PossibleMoves(level, b)[i].player)
  {
    DirectionMovesOnFreeCells(level, b, Right);
    DirectionMovesOnFreeCells(level, b, Left);
    DirectionMovesOnFreeCells(level, b, Up);
    DirectionMovesOnFreeCells(level, b, Down);
    var r, l, u, d := DirectionMoves(level, b, Right), DirectionMoves(level, b, Left),
                      DirectionMoves(level, b, Up), DirectionMoves(level, b, Down);
    OnFreeCellsAppend(level, r, l);
    OnFreeCellsAppend(level, r + l, u);
    OnFreeCellsAppend(level, r + l + u, d);
    assert OnFreeCells(level, PossibleMoves(level, b));
  }

  lemma AllValidSteps(level: Level, b: Board, x: seq<Board>, y: seq<Board>)
    requires forall i :: 0 <= i < |x| ==> ValidStep(level, b, x[i])
    requires forall i :: 0 <= i < |y| ==> ValidStep(level, b, y[i])
    ensures forall i :: 0 <= i < |x + y| ==> ValidStep(level, b, (x + y)[i])
  {
    forall i | 0 <= i < |x + y| ensures ValidStep(level, b, (x + y)[i]) {
      if i >= |x| { assert (x + y)[i] == y[i - |x|]; }
    }
  }

  /** Only directions whose destination is on the map and not a wall contribute. */
  lemma CollidingDirectionContributesNothing(level: Level, b: Board, dir: Coord)
    requires CollisionCheck(level, b.player.Add(dir))
    ensures DirectionMoves(level, b, dir) == []
  {
  }
}
