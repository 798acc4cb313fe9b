/** The best-first search engine. It keeps an open list, re-sorted by f after
    every expansion, and a closed set; it expands the head of the open list
    until the head passes the goal test, then follows parent links back from
    the goal.

    Vertices live in an arena (a sequence), and a parent link is an index into
    it; the open list holds arena indices and so does the closed set. Vertex
    equality, the two heuristics, the goal test and the f formula belong to the
    vertex and are not modelled: they are the functions of a `Config`. */
module Search {
  import opened Coords
  import opened Vertices
  import opened Pukoban
  import opened Ordering

  /** What the engine calls on a vertex without this model defining it. Two
      vertices are equal when their boards have the same `key`. */
  datatype Config<K(==)> = Config(
    level: Level,
    key: Board -> K,
    plainH: Board -> int,
    turnsH: (int, Board) -> int,
    isGoal: Board -> bool,
    fCost: (int, int) -> int)

  /** A search vertex: its board, path cost g, heuristic h, total cost f and
      the arena index of its parent (`None` for a root). */
  datatype Vertex = Vertex(board: Board, g: int, h: int, f: int, parent: Option<nat>)

  /** The engine's state: all vertices created so far, the open list and the
      closed set. */
  datatype EngineState = EngineState(arena: seq<Vertex>, open: seq<nat>, closed: set<nat>)

  datatype SearchOutcome = Found(path: seq<Vertex>) | NoOpenVertex | OutOfFuel

  /** The heuristic of the configured kind: with or without the turn penalty. */
  function Heuristic<K(==)>(cfg: Config<K>, useTurns: bool, turnCost: int, b: Board): int {
    if useTurns then cfg.turnsH(turnCost, b) else cfg.plainH(b)
  }

  /** Arena entry `i` exists and equals a vertex with board `b`. */
  predicate SameVertex<K(==)>(cfg: Config<K>, arena: seq<Vertex>, i: nat, b: Board) {
    i < |arena| && cfg.key(arena[i].board) == cfg.key(b)
  }

  /** Membership test of the closed set (a hash set: membership is by equality). */
  predicate InClosed<K(==)>(cfg: Config<K>, st: EngineState, b: Board) {
    exists c :: c in st.closed && SameVertex(cfg, st.arena, c, b)
  }

  /** Adding a vertex to the closed set: nothing happens when an equal one is
      already there. */
  function AddClosed<K(==)>(cfg: Config<K>, st: EngineState, i: nat): (r: set<nat>)
    requires i < |st.arena|
    ensures st.closed <= r <= st.closed + {i}
    ensures exists c :: c in r && SameVertex(cfg, st.arena, c, st.arena[i].board)
  {
    if InClosed(cfg, st, st.arena[i].board) then st.closed else st.closed + {i}
  }

  /** The position in `open` of the first vertex equal to `b`, if any (the open
      list's `contains`). */
  function FindOpen<K(==)>(cfg: Config<K>, arena: seq<Vertex>, open: seq<nat>, b: Board): (r: Option<nat>)
    ensures r.None? <==> forall j :: 0 <= j < |open| ==> !SameVertex(cfg, arena, open[j], b)
    ensures r.Some? ==> r.value < |open| && SameVertex(cfg, arena, open[r.value], b)
    ensures r.Some? ==> forall j :: 0 <= j < r.value ==> !SameVertex(cfg, arena, open[j], b)
  {
    if open == [] then None
    else if SameVertex(cfg, arena, open[0], b) then Some(0)
    else match FindOpen(cfg, arena, open[1..], b)
      case None => None
      case Some(j) => Some(j + 1)
  }

  /** The open list's `remove`: drops the first vertex equal to `b`. */
  function RemoveFirst<K(==)>(cfg: Config<K>, arena: seq<Vertex>, open: seq<nat>, b: Board): seq<nat> {
    if open == [] then []
    else if SameVertex(cfg, arena, open[0], b) then open[1..]
    else [open[0]] + RemoveFirst(cfg, arena, open[1..], b)
  }

  /** The f value of an arena index, the sort key of the open list. */
  function FKey(arena: seq<Vertex>): nat -> int {
    (i: nat) => if i < |arena| then arena[i].f else 0
  }

  /** The first loop step's bookkeeping: the vertex `cur` moves from the open
      list to the closed set. */
  function Close<K(==)>(cfg: Config<K>, st: EngineState, cur: nat): EngineState
    requires cur < |st.arena|
  {
    st.(closed := AddClosed(cfg, st, cur), open := RemoveFirst(cfg, st.arena, st.open, st.arena[cur].board))
  }

  /** Handles one successor board `b` of the vertex `cur`: ignored when it is
      closed; a new open vertex with g one more than `cur`'s when it is not
      open; otherwise the open vertex equal to it takes the f value
      `cur.g + 1 + cur.h` and parent `cur` if that is lower than its f. */
  function Relax<K(==)>(cfg: Config<K>, st: EngineState, cur: nat, b: Board, useTurns: bool, turnCost: int): (r: EngineState)
    requires cur < |st.arena|
    ensures |r.arena| >= |st.arena|
  {
    if InClosed(cfg, st, b) then st
    else
      var p := st.arena[cur];
      match FindOpen(cfg, st.arena, st.open, b)
      case None =>
        var h := Heuristic(cfg, useTurns, turnCost, b);
        var g := p.g + 1;
        st.(arena := st.arena + [Vertex(b, g, h, cfg.fCost(g, h), Some(cur))],
            open := st.open + [|st.arena|])
      case Some(j) =>
        var t := st.open[j];
        var newFCost := p.g + 1 + p.h;
        if newFCost < st.arena[t].f then
          st.(arena := st.arena[t := st.arena[t].(parent := Some(cur), f := newFCost)])
        else st
  }

  /** The handling of a successor as the code is written: in the open-list case
      the new f and parent go to the successor just generated, which is then
      dropped, so the open vertex equal to it never changes. The comparison is
      made against that successor's own f, which nothing has computed; it does
      not matter which way it goes. */
  function RelaxAsWritten<K(==)>(cfg: Config<K>, st: EngineState, cur: nat, b: Board, useTurns: bool, turnCost: int): EngineState
    requires cur < |st.arena|
  {
    if InClosed(cfg, st, b) then st
    else if FindOpen(cfg, st.arena, st.open, b).Some? then st
    else Relax(cfg, st, cur, b, useTurns, turnCost)
  }

  /** The successors handled in order, first to last. */
  function RelaxAll<K(==)>(cfg: Config<K>, st: EngineState, cur: nat, succs: seq<Board>, useTurns: bool, turnCost: int): (r: EngineState)
    requires cur < |st.arena|
    ensures |r.arena| >= |st.arena|
  {
    if succs == [] then st
    else
      var prev := RelaxAll(cfg, st, cur, succs[..|succs| - 1], useTurns, turnCost);
      Relax(cfg, prev, cur, succs[|succs| - 1], useTurns, turnCost)
  }

  /** One expansion of `cur`: close it, handle its successors, sort the open list by f. */
  function Expand<K(==)>(cfg: Config<K>, st: EngineState, cur: nat, useTurns: bool, turnCost: int): EngineState
    requires cur < |st.arena|
  {
    var closed := Close(cfg, st, cur);
    SortOpen(RelaxAll(cfg, closed, cur, PossibleMoves(cfg.level, st.arena[cur].board), useTurns, turnCost))
  }

  /** The open list sorted by f, ties kept in list order. */
  function SortOpen(st: EngineState): EngineState {
    st.(open := SortBy(st.open, FKey(st.arena)))
  }

  /** The root vertex: g = 0, no parent, appended to the open list. */
  function Seed<K(==)>(cfg: Config<K>, st: EngineState, root: Board, useTurns: bool, turnCost: int): EngineState {
    var h := Heuristic(cfg, useTurns, turnCost, root);
    st.(arena := st.arena + [Vertex(root, 0, h, cfg.fCost(0, h), None)], open := st.open + [|st.arena|])
  }

  // ---------------------------------------------------------------------------
  // Invariants of the engine's state

  /** The parent link of `i` points at an expanded vertex that was expanded
      before `i` (when `i` itself has been expanded). `rank` maps each expanded
      index to the time of its expansion. */
  ghost predicate LinkRanked(st: EngineState, rank: map<nat, nat>, i: nat)
    requires i < |st.arena|
  {
    st.arena[i].parent.Some? ==>
      var p := st.arena[i].parent.value;
      p < |st.arena| && p in rank && (i in rank ==> rank[p] < rank[i])
  }

  ghost predicate WellFormed(st: EngineState, rank: map<nat, nat>, clock: nat) {
    && (forall x :: x in st.open ==> x < |st.arena| && x !in rank)
    && (forall j :: 0 <= j < |st.open| ==> st.open[j] < |st.arena|)
    && (forall x :: multiset(st.open)[x] <= 1)
    && (forall c :: c in rank ==> c < |st.arena| && rank[c] < clock)
    && (forall i :: 0 <= i < |st.arena| ==> LinkRanked(st, rank, i))
  }

  /** `next` is, up to vertex equality, one legal move away from `from`. */
  ghost predicate Step<K>(cfg: Config<K>, from: Board, next: Board) {
    exists s :: s in PossibleMoves(cfg.level, from) && cfg.key(s) == cfg.key(next)
  }

  /** Each vertex of `path` is one legal move from the next: read back to
      front, the path is a sequence of moves. */
  ghost predicate FollowsMoves<K>(cfg: Config<K>, path: seq<Vertex>) {
    forall i :: 0 <= i < |path| - 1 ==> Step(cfg, path[i + 1].board, path[i].board)
  }

  /** Every parent link is a legal move from the parent's board. */
  ghost predicate LegalLinks<K>(cfg: Config<K>, arena: seq<Vertex>) {
    forall i :: 0 <= i < |arena| ==> LinkLegal(cfg, arena, i)
  }

  ghost predicate LinkLegal<K>(cfg: Config<K>, arena: seq<Vertex>, i: nat)
    requires i < |arena|
  {
    arena[i].parent.Some? ==>
      arena[i].parent.value < |arena| && Step(cfg, arena[arena[i].parent.value].board, arena[i].board)
  }

  /** Boards and the g and h values of existing vertices never change, and the
      arena only grows. */
  ghost predicate Extends(st: EngineState, r: EngineState) {
    && |r.arena| >= |st.arena|
    && forall i :: 0 <= i < |st.arena| ==>
         r.arena[i].board == st.arena[i].board && r.arena[i].g == st.arena[i].g && r.arena[i].h == st.arena[i].h
  }

  /** `verts` starts anywhere and follows parent links to a root. */
  ghost predicate IsParentChain(arena: seq<Vertex>, verts: seq<Vertex>) {
    && verts != []
    && (forall i :: 0 <= i < |verts| - 1 ==>
          verts[i].parent.Some? && verts[i].parent.value < |arena| && verts[i + 1] == arena[verts[i].parent.value])
    && verts[|verts| - 1].parent.None?
  }

  // ---------------------------------------------------------------------------
  // Properties of one step

  /** The three cases of handling a successor, and that none of them raises an
      f value or touches a board, g or h. */
  lemma RelaxCases<K>(cfg: Config<K>, st: EngineState, cur: nat, b: Board, useTurns: bool, turnCost: int)
    requires cur < |st.arena|
    ensures var r := Relax(cfg, st, cur, b, useTurns, turnCost);
            var p := st.arena[cur];
            var h := Heuristic(cfg, useTurns, turnCost, b);
            && Extends(st, r)
            && r.closed == st.closed
            && (forall i :: 0 <= i < |st.arena| ==> r.arena[i].f <= st.arena[i].f)
            && (InClosed(cfg, st, b) ==> r == st)
            && (!InClosed(cfg, st, b) && FindOpen(cfg, st.arena, st.open, b).None? ==>
                  && r.arena == st.arena + [Vertex(b, p.g + 1, h, cfg.fCost(p.g + 1, h), Some(cur))]
                  && r.open == st.open + [|st.arena|])
            && (!InClosed(cfg, st, b) && FindOpen(cfg, st.arena, st.open, b).Some? ==>
                  var t := st.open[FindOpen(cfg, st.arena, st.open, b).value];
                  && r.open == st.open
                  && |r.arena| == |st.arena|
                  && (forall i :: 0 <= i < |st.arena| && i != t ==> r.arena[i] == st.arena[i])
                  && (p.g + 1 + p.h < st.arena[t].f ==>
                        r.arena[t].f == p.g + 1 + p.h && r.arena[t].parent == Some(cur))
                  && (p.g + 1 + p.h >= st.arena[t].f ==> r.arena[t] == st.arena[t]))
  {
  }

  lemma RelaxKeepsWellFormed<K>(cfg: Config<K>, st: EngineState, cur: nat, b: Board, useTurns: bool, turnCost: int,
                                rank: map<nat, nat>, clock: nat)
    requires WellFormed(st, rank, clock) && cur in rank
    ensures var r := Relax(cfg, st, cur, b, useTurns, turnCost);
            WellFormed(r, rank, clock) && Extends(st, r)
  {
    var r := Relax(cfg, st, cur, b, useTurns, turnCost);
    RelaxCases(cfg, st, cur, b, useTurns, turnCost);
    if !InClosed(cfg, st, b) {
      match FindOpen(cfg, st.arena, st.open, b)
      case None =>
        var n := |st.arena|;
        assert n !in st.open;
        assert multiset(r.open) == multiset(st.open) + multiset{n};
        forall i | 0 <= i < |r.arena| ensures LinkRanked(r, rank, i) {
          if i < n { assert LinkRanked(st, rank, i); }
        }
      case Some(j) =>
        var t := st.open[j];
        assert t in st.open && t !in rank;
        forall i | 0 <= i < |r.arena| ensures LinkRanked(r, rank, i) {
          if i != t { assert LinkRanked(st, rank, i); }
        }
    }
  }

  /** A successor of `cur` is linked to `cur` only when it is one of `cur`'s moves. */
  lemma RelaxKeepsLegalLinks<K>(cfg: Config<K>, st: EngineState, cur: nat, b: Board, useTurns: bool, turnCost: int)
    requires LegalLinks(cfg, st.arena)
    requires cur < |st.arena| && b in PossibleMoves(cfg.level, st.arena[cur].board)
    ensures LegalLinks(cfg, Relax(cfg, st, cur, b, useTurns, turnCost).arena)
  {
    var r := Relax(cfg, st, cur, b, useTurns, turnCost);
    RelaxCases(cfg, st, cur, b, useTurns, turnCost);
    if !InClosed(cfg, st, b) {
      match FindOpen(cfg, st.arena, st.open, b)
      case None =>
        var n := |st.arena|;
        forall i | 0 <= i < |r.arena| ensures LinkLegal(cfg, r.arena, i) {
          if i < n {
            assert LinkLegal(cfg, st.arena, i);
          } else {
            assert r.arena[i].board == b && r.arena[cur].board == st.arena[cur].board;
          }
        }
      case Some(j) =>
        var t := st.open[j];
        forall i | 0 <= i < |r.arena| ensures LinkLegal(cfg, r.arena, i) {
          assert LinkLegal(cfg, st.arena, i);
          if r.arena[i] == st.arena[i] {
            if r.arena[i].parent.Some? {
              assert r.arena[st.arena[i].parent.value].board == st.arena[st.arena[i].parent.value].board;
            }
          } else {
            assert i == t && r.arena[i].parent == Some(cur);
            assert cfg.key(b) == cfg.key(r.arena[i].board);
          }
        }
    }
  }

  lemma {:induction false} RelaxAllKeepsWellFormed<K>(cfg: Config<K>, st: EngineState, cur: nat, succs: seq<Board>,
                                                      useTurns: bool, turnCost: int, rank: map<nat, nat>, clock: nat)
    requires WellFormed(st, rank, clock) && cur in rank
    ensures var r := RelaxAll(cfg, st, cur, succs, useTurns, turnCost);
            WellFormed(r, rank, clock) && Extends(st, r) && r.closed == st.closed
  {
    if succs != [] {
      var init := succs[..|succs| - 1];
      var prev := RelaxAll(cfg, st, cur, init, useTurns, turnCost);
      RelaxAllKeepsWellFormed(cfg, st, cur, init, useTurns, turnCost, rank, clock);
      RelaxKeepsWellFormed(cfg, prev, cur, succs[|succs| - 1], useTurns, turnCost, rank, clock);
      RelaxCases(cfg, prev, cur, succs[|succs| - 1], useTurns, turnCost);
    }
  }

  lemma {:induction false} RelaxAllKeepsLegalLinks<K>(cfg: Config<K>, st: EngineState, cur: nat, succs: seq<Board>,
                                                      useTurns: bool, turnCost: int)
    requires LegalLinks(cfg, st.arena) && cur < |st.arena|
    requires forall s :: s in succs ==> s in PossibleMoves(cfg.level, st.arena[cur].board)
    ensures var r := RelaxAll(cfg, st, cur, succs, useTurns, turnCost);
            LegalLinks(cfg, r.arena) && Extends(st, r)
  {
    if succs != [] {
      var init := succs[..|succs| - 1];
      var prev := RelaxAll(cfg, st, cur, init, useTurns, turnCost);
      RelaxAllKeepsLegalLinks(cfg, st, cur, init, useTurns, turnCost);
      assert succs[|succs| - 1] in succs;
      RelaxKeepsLegalLinks(cfg, prev, cur, succs[|succs| - 1], useTurns, turnCost);
      RelaxCases(cfg, prev, cur, succs[|succs| - 1], useTurns, turnCost);
    }
  }

  /** No handled successor raises the f value of an existing vertex. */
  lemma {:induction false} RelaxAllNeverRaisesF<K>(cfg: Config<K>, st: EngineState, cur: nat, succs: seq<Board>,
                                                      useTurns: bool, turnCost: int)
    requires cur < |st.arena|
    ensures var r := RelaxAll(cfg, st, cur, succs, useTurns, turnCost);
            forall i :: 0 <= i < |st.arena| ==> r.arena[i].f <= st.arena[i].f
  {
    if succs != [] {
      var init := succs[..|succs| - 1];
      var prev := RelaxAll(cfg, st, cur, init, useTurns, turnCost);
      RelaxAllNeverRaisesF(cfg, st, cur, init, useTurns, turnCost);
      RelaxCases(cfg, prev, cur, succs[|succs| - 1], useTurns, turnCost);
    }
  }

  /** As written, a cheaper path to an open vertex is never recorded: the open
      list and every vertex stay as they were. */
  lemma RelaxAsWrittenIgnoresOpenVertex<K>(cfg: Config<K>, st: EngineState, cur: nat, b: Board, useTurns: bool, turnCost: int)
    requires cur < |st.arena|
    requires !InClosed(cfg, st, b) && FindOpen(cfg, st.arena, st.open, b).Some?
    ensures RelaxAsWritten(cfg, st, cur, b, useTurns, turnCost) == st
  {
  }

  /** A concrete state that shows the difference, on an empty 2 by 2 level
      with f = g + h. The root (0, 0) has been expanded and so have its two
      successors A = (1, 0) (h = 0) and B = (0, 1) (h = 1); C = (1, 1) (h = 3)
      is open with g = 2 and f = 5, reached through A. Handling C again as a
      successor of B gives g + 1 + h = 3. The code as written keeps f = 5 and
      parent A; the corrected step records f = 3 and parent B. */
  lemma CheaperPathCounterexample()
    ensures var cfg := CounterexampleConfig();
            var st := CounterexampleState();
            var c := st.arena[3].board;
            && RelaxAsWritten(cfg, st, 2, c, false, 0).arena[3] == st.arena[3]
            && Relax(cfg, st, 2, c, false, 0).arena[3].f == 3
            && Relax(cfg, st, 2, c, false, 0).arena[3].parent == Some(2)
  {
    var cfg := CounterexampleConfig();
    var st := CounterexampleState();
    var c := st.arena[3].board;
    forall i | i in st.closed ensures !SameVertex(cfg, st.arena, i, c) {
    }
    assert !InClosed(cfg, st, c);
    assert FindOpen(cfg, st.arena, st.open, c) == Some(0);
  }

  /** The state is one the engine reaches on the 2 x 2 level without walls:
      A (one step right) and B (one step up) are moves from the root ... */
  lemma CounterexampleRootMoves()
    ensures var level := CounterexampleConfig().level;
            && DirectionMoves(level, Board([], Coord(0, 0)), Right) == [Board([], Coord(1, 0))]
            && DirectionMoves(level, Board([], Coord(0, 0)), Up) == [Board([], Coord(0, 1))]
  {
  }

  /** ... and C is the move up from A and the move right from B. */
  lemma CounterexampleMovesToC()
    ensures var level := CounterexampleConfig().level;
            && DirectionMoves(level, Board([], Coord(1, 0)), Up) == [Board([], Coord(1, 1))]
            && DirectionMoves(level, Board([], Coord(0, 1)), Right) == [Board([], Coord(1, 1))]
  {
  }

  function CounterexampleConfig(): Config<Board> {
    Config(Level(2, 2, []), (b: Board) => b,
           (b: Board) => if b.player == Coord(1, 1) then 3 else if b.player == Coord(0, 1) then 1 else 0,
           (t: int, b: Board) => 0, (b: Board) => false, (g: int, h: int) => g + h)
  }

  function CounterexampleState(): EngineState {
    EngineState([Vertex(Board([], Coord(0, 0)), 0, 0, 0, None),
                 Vertex(Board([], Coord(1, 0)), 1, 0, 1, Some(0)),
                 Vertex(Board([], Coord(0, 1)), 1, 1, 2, Some(0)),
                 Vertex(Board([], Coord(1, 1)), 2, 3, 5, Some(1))],
                [3], {0, 1, 2})
  }

  /** Moving the head to the closed set removes exactly the head from the open list. */
  lemma CloseHead<K>(cfg: Config<K>, st: EngineState)
    requires st.open != [] && st.open[0] < |st.arena|
    ensures Close(cfg, st, st.open[0]).open == st.open[1..]
    ensures InClosed(cfg, Close(cfg, st, st.open[0]), st.arena[st.open[0]].board)
  {
  }

  /** The root is the sole open vertex when the open list starts empty. */
  lemma SeedFromEmpty<K>(cfg: Config<K>, st: EngineState, root: Board, useTurns: bool, turnCost: int)
    requires st.open == []
    ensures var r := Seed(cfg, st, root, useTurns, turnCost);
            var n := |st.arena|;
            && r.open == [n] && |r.arena| == n + 1 && r.arena[..n] == st.arena
            && r.arena[n].board == root && r.arena[n].g == 0 && r.arena[n].parent == None
            && r.arena[n].h == Heuristic(cfg, useTurns, turnCost, root)
            && r.arena[n].f == cfg.fCost(0, r.arena[n].h)
  {
  }

  lemma SeedKeepsWellFormed<K>(cfg: Config<K>, st: EngineState, root: Board, useTurns: bool, turnCost: int,
                               rank: map<nat, nat>, clock: nat)
    requires WellFormed(st, rank, clock)
    ensures WellFormed(Seed(cfg, st, root, useTurns, turnCost), rank, clock)
  {
    var r := Seed(cfg, st, root, useTurns, turnCost);
    var n := |st.arena|;
    assert n !in st.open;
    assert multiset(r.open) == multiset(st.open) + multiset{n};
    forall i | 0 <= i < |r.arena| ensures LinkRanked(r, rank, i) {
      if i < n { assert LinkRanked(st, rank, i); }
    }
  }

  /** A root has no parent link to check. */
  lemma SeedKeepsLegalLinks<K>(cfg: Config<K>, st: EngineState, root: Board, useTurns: bool, turnCost: int)
    requires LegalLinks(cfg, st.arena)
    ensures LegalLinks(cfg, Seed(cfg, st, root, useTurns, turnCost).arena)
  {
    var r := Seed(cfg, st, root, useTurns, turnCost);
    forall i | 0 <= i < |r.arena| ensures LinkLegal(cfg, r.arena, i) {
      if i < |st.arena| { assert LinkLegal(cfg, st.arena, i); }
    }
  }

  /** Closing the head and ranking it keeps the invariant. */
  lemma CloseKeepsWellFormed(cfg: Config, st: EngineState, rank: map<nat, nat>, clock: nat)
    requires WellFormed(st, rank, clock)
    requires st.open != []
    ensures var cur := st.open[0];
            var r := Close(cfg, st, cur);
            WellFormed(r, rank[cur := clock], clock + 1) && r.arena == st.arena
  {
    var cur := st.open[0];
    assert cur in st.open;
    var r := Close(cfg, st, cur);
    var rank1 := rank[cur := clock];
    CloseHead(cfg, st);
    assert st.open == [cur] + r.open;
    assert multiset(st.open) == multiset{cur} + multiset(r.open);
    forall x | x in r.open ensures x < |r.arena| && x !in rank1 {
      assert x in st.open;
      assert multiset(st.open)[x] >= multiset{cur}[x] + 1;
    }
    forall x ensures multiset(r.open)[x] <= 1 {
      assert multiset(st.open)[x] <= 1;
    }
    forall j | 0 <= j < |r.open| ensures r.open[j] < |r.arena| {
      assert r.open[j] == st.open[j + 1];
    }
    forall c | c in rank1 ensures c < |r.arena| && rank1[c] < clock + 1 {
    }
    forall i | 0 <= i < |r.arena| ensures LinkRanked(r, rank1, i) {
      assert LinkRanked(st, rank, i);
    }
    assert WellFormed(r, rank1, clock + 1);
  }

  /** Sorting the open list keeps the invariant. */
  lemma SortOpenKeepsWellFormed(st: EngineState, rank: map<nat, nat>, clock: nat)
    requires WellFormed(st, rank, clock)
    ensures WellFormed(SortOpen(st), rank, clock)
  {
    var r := SortOpen(st);
    SortByFacts(st.open, FKey(st.arena));
    forall x | x in r.open ensures x < |r.arena| && x !in rank {
      assert x in multiset(r.open);
    }
    forall j | 0 <= j < |r.open| ensures r.open[j] < |r.arena| {
      assert r.open[j] in multiset(r.open);
    }
    forall i | 0 <= i < |r.arena| ensures LinkRanked(r, rank, i) {
      assert LinkRanked(st, rank, i);
    }
  }

  /** An expansion of the head keeps the invariant, with the head ranked as
      expanded now. */
  lemma ExpandKeepsWellFormed<K>(cfg: Config<K>, st: EngineState, useTurns: bool, turnCost: int,
                                 rank: map<nat, nat>, clock: nat)
    requires WellFormed(st, rank, clock)
    requires st.open != []
    ensures var cur := st.open[0];
            var r := Expand(cfg, st, cur, useTurns, turnCost);
            WellFormed(r, rank[cur := clock], clock + 1) && Extends(st, r)
  {
    var cur := st.open[0];
    assert cur in st.open;
    var closed := Close(cfg, st, cur);
    CloseKeepsWellFormed(cfg, st, rank, clock);
    var succs := PossibleMoves(cfg.level, st.arena[cur].board);
    RelaxAllKeepsWellFormed(cfg, closed, cur, succs, useTurns, turnCost, rank[cur := clock], clock + 1);
    var relaxed := RelaxAll(cfg, closed, cur, succs, useTurns, turnCost);
    SortOpenKeepsWellFormed(relaxed, rank[cur := clock], clock + 1);
  }

  /** Every parent link the engine ever writes is one legal move. */
  lemma ExpandKeepsLegalLinks<K>(cfg: Config<K>, st: EngineState, cur: nat, useTurns: bool, turnCost: int)
    requires LegalLinks(cfg, st.arena) && cur < |st.arena|
    ensures LegalLinks(cfg, Expand(cfg, st, cur, useTurns, turnCost).arena)
  {
    var closed := Close(cfg, st, cur);
    var succs := PossibleMoves(cfg.level, st.arena[cur].board);
    RelaxAllKeepsLegalLinks(cfg, closed, cur, succs, useTurns, turnCost);
    var relaxed := RelaxAll(cfg, closed, cur, succs, useTurns, turnCost);
  }

  /** Along a chain of parent links that starts in a legal arena, each vertex
      is one legal move from the next. */
  lemma ParentChainFollowsMoves<K>(cfg: Config<K>, arena: seq<Vertex>, verts: seq<Vertex>)
    requires LegalLinks(cfg, arena)
    requires IsParentChain(arena, verts) && verts[0] in arena
    ensures forall i :: 0 <= i < |verts| - 1 ==> Step(cfg, verts[i + 1].board, verts[i].board)
  {
    forall i | 0 <= i < |verts| - 1 ensures Step(cfg, verts[i + 1].board, verts[i].board) {
      var k :| 0 <= k < |arena| && arena[k] == verts[i] by {
        if i == 0 {
          assert verts[0] in arena;
        } else {
          assert verts[i] == arena[verts[i - 1].parent.value];
        }
      }
      assert LinkLegal(cfg, arena, k);
    }
  }

  /** A chain of parent links that ends at an arena vertex ends at the start
      board when every root has it. */
  lemma ParentChainEndsAtRoot(arena: seq<Vertex>, verts: seq<Vertex>, root: Board)
    requires RootedAt(arena, root) && IsParentChain(arena, verts)
    requires exists k :: 0 <= k < |arena| && verts[|verts| - 1] == arena[k]
    ensures verts[|verts| - 1].board == root
  {
    var k :| 0 <= k < |arena| && verts[|verts| - 1] == arena[k];
    assert arena[k].parent.None?;
  }

  /** The head of the open list has the least f among the open vertices. */
  ghost predicate HeadHasLeastF(st: EngineState) {
    st.open != [] ==>
      forall x :: x in st.open ==>
        st.open[0] < |st.arena| && x < |st.arena| && st.arena[st.open[0]].f <= st.arena[x].f
  }

  lemma SortOpenHeadLeast(st: EngineState)
    requires forall x :: x in st.open ==> x < |st.arena|
    ensures HeadHasLeastF(SortOpen(st))
  {
    var r := SortOpen(st);
    if r.open != [] {
      SortByFacts(st.open, FKey(st.arena));
      assert st.open != [];
      SortedHeadIsMinimal(st.open, FKey(st.arena));
      forall x | x in r.open ensures r.open[0] < |r.arena| && x < |r.arena| && r.arena[r.open[0]].f <= r.arena[x].f {
        assert x in multiset(st.open);
        assert r.open[0] in multiset(st.open);
        assert FKey(st.arena)(r.open[0]) <= FKey(st.arena)(x);
      }
    }
  }

  /** After an expansion the vertex to expand next has the least f. */
  lemma ExpandHeadLeast<K>(cfg: Config<K>, st: EngineState, useTurns: bool, turnCost: int,
                          rank: map<nat, nat>, clock: nat)
    requires WellFormed(st, rank, clock)
    requires st.open != []
    ensures HeadHasLeastF(Expand(cfg, st, st.open[0], useTurns, turnCost))
  {
    var cur := st.open[0];
    assert cur in st.open;
    var closed := Close(cfg, st, cur);
    CloseKeepsWellFormed(cfg, st, rank, clock);
    var succs := PossibleMoves(cfg.level, st.arena[cur].board);
    RelaxAllKeepsWellFormed(cfg, closed, cur, succs, useTurns, turnCost, rank[cur := clock], clock + 1);
    SortOpenHeadLeast(RelaxAll(cfg, closed, cur, succs, useTurns, turnCost));
  }

  /** Sorting changes only the order of the open list. */
  lemma SortOpenEffect(st: EngineState)
    ensures SortOpen(st).arena == st.arena && SortOpen(st).closed == st.closed
    ensures forall x :: x in SortOpen(st).open <==> x in st.open
  {
    SortByFacts(st.open, FKey(st.arena));
    forall x ensures x in SortOpen(st).open <==> x in st.open {
      assert x in SortOpen(st).open <==> x in multiset(SortOpen(st).open);
    }
  }

  /** After an expansion of the head the head is closed and no longer open,
      and the closed set only grew. */
  lemma ExpandClosesHead<K>(cfg: Config<K>, st: EngineState, useTurns: bool, turnCost: int,
                           rank: map<nat, nat>, clock: nat)
    requires WellFormed(st, rank, clock)
    requires st.open != []
    ensures var cur := st.open[0];
            var r := Expand(cfg, st, cur, useTurns, turnCost);
            && cur !in r.open
            && st.closed <= r.closed
            && InClosed(cfg, r, st.arena[cur].board)
  {
    var cur := st.open[0];
    assert cur in st.open;
    ExpandKeepsWellFormed(cfg, st, useTurns, turnCost, rank, clock);
    var closed := Close(cfg, st, cur);
    CloseHead(cfg, st);
    var succs := PossibleMoves(cfg.level, st.arena[cur].board);
    RelaxAllKeepsClosed(cfg, closed, cur, succs, useTurns, turnCost);
    var relaxed := RelaxAll(cfg, closed, cur, succs, useTurns, turnCost);
    SortOpenEffect(relaxed);
    var r := SortOpen(relaxed);
    assert r == Expand(cfg, st, cur, useTurns, turnCost);
    var c :| c in closed.closed && SameVertex(cfg, closed.arena, c, st.arena[cur].board);
    assert c in r.closed && SameVertex(cfg, r.arena, c, st.arena[cur].board);
  }

  /** The facts of the three lemmas above, stated of a state `r` known to be
      the expansion of the head of `st`. */
  lemma ExpandedState<K>(cfg: Config<K>, st: EngineState, useTurns: bool, turnCost: int,
                         rank: map<nat, nat>, clock: nat, r: EngineState)
    requires WellFormed(st, rank, clock)
    requires st.open != [] && r == Expand(cfg, st, st.open[0], useTurns, turnCost)
    ensures WellFormed(r, rank[st.open[0] := clock], clock + 1) && Extends(st, r)
    ensures st.open[0] !in r.open && InClosed(cfg, r, st.arena[st.open[0]].board)
    ensures HeadHasLeastF(r)
  {
    ExpandKeepsWellFormed(cfg, st, useTurns, turnCost, rank, clock);
    ExpandClosesHead(cfg, st, useTurns, turnCost, rank, clock);
    ExpandHeadLeast(cfg, st, useTurns, turnCost, rank, clock);
  }

  /** An expansion raises no f value and drops no open vertex other than the head. */
  lemma ExpandKeepsOthers<K>(cfg: Config<K>, st: EngineState, useTurns: bool, turnCost: int)
    requires st.open != [] && st.open[0] < |st.arena|
    ensures var cur := st.open[0];
            var r := Expand(cfg, st, cur, useTurns, turnCost);
            && (forall i :: 0 <= i < |st.arena| ==> r.arena[i].f <= st.arena[i].f)
            && (forall x :: x in st.open && x != cur ==> x in r.open)
  {
    var cur := st.open[0];
    var closed := Close(cfg, st, cur);
    CloseHead(cfg, st);
    var succs := PossibleMoves(cfg.level, st.arena[cur].board);
    RelaxAllNeverRaisesF(cfg, closed, cur, succs, useTurns, turnCost);
    RelaxAllKeepsOpen(cfg, closed, cur, succs, useTurns, turnCost);
    var relaxed := RelaxAll(cfg, closed, cur, succs, useTurns, turnCost);
    SortOpenEffect(relaxed);
    var r := SortOpen(relaxed);
    assert r == Expand(cfg, st, cur, useTurns, turnCost);
    forall x | x in st.open && x != cur ensures x in r.open {
      assert st.open == [cur] + st.open[1..];
      assert x in closed.open;
    }
  }

  /** Handling successors leaves the closed set alone. */
  lemma {:induction false} RelaxAllKeepsClosed<K>(cfg: Config<K>, st: EngineState, cur: nat, succs: seq<Board>,
                                                 useTurns: bool, turnCost: int)
    requires cur < |st.arena|
    ensures RelaxAll(cfg, st, cur, succs, useTurns, turnCost).closed == st.closed
  {
    if succs != [] {
      var init := succs[..|succs| - 1];
      RelaxAllKeepsClosed(cfg, st, cur, init, useTurns, turnCost);
      RelaxCases(cfg, RelaxAll(cfg, st, cur, init, useTurns, turnCost), cur, succs[|succs| - 1], useTurns, turnCost);
    }
  }

  /** Handling successors never drops a vertex from the open list. */
  lemma {:induction false} RelaxAllKeepsOpen<K>(cfg: Config<K>, st: EngineState, cur: nat, succs: seq<Board>,
                                                   useTurns: bool, turnCost: int)
    requires cur < |st.arena|
    ensures forall x :: x in st.open ==> x in RelaxAll(cfg, st, cur, succs, useTurns, turnCost).open
  {
    if succs != [] {
      var init := succs[..|succs| - 1];
      RelaxAllKeepsOpen(cfg, st, cur, init, useTurns, turnCost);
      RelaxCases(cfg, RelaxAll(cfg, st, cur, init, useTurns, turnCost), cur, succs[|succs| - 1], useTurns, turnCost);
    }
  }

  /** Every vertex without a parent has the start board `root`. */
  ghost predicate RootedAt(arena: seq<Vertex>, root: Board) {
    forall i :: 0 <= i < |arena| && arena[i].parent.None? ==> arena[i].board == root
  }

  /** Appending the start vertex keeps every root at the start board. */
  lemma SeedKeepsRooted<K>(cfg: Config<K>, st: EngineState, root: Board, useTurns: bool, turnCost: int)
    requires RootedAt(st.arena, root)
    ensures RootedAt(Seed(cfg, st, root, useTurns, turnCost).arena, root)
  {
  }

  /** Handling a successor writes only `Some` parent links and changes no board. */
  lemma RelaxKeepsRooted<K>(cfg: Config<K>, st: EngineState, cur: nat, b: Board, useTurns: bool, turnCost: int, root: Board)
    requires cur < |st.arena| && RootedAt(st.arena, root)
    ensures RootedAt(Relax(cfg, st, cur, b, useTurns, turnCost).arena, root)
  {
    RelaxCases(cfg, st, cur, b, useTurns, turnCost);
  }

  lemma {:induction false} RelaxAllKeepsRooted<K>(cfg: Config<K>, st: EngineState, cur: nat, succs: seq<Board>,
                                                  useTurns: bool, turnCost: int, root: Board)
    requires cur < |st.arena| && RootedAt(st.arena, root)
    ensures RootedAt(RelaxAll(cfg, st, cur, succs, useTurns, turnCost).arena, root)
  {
    if succs != [] {
      var init := succs[..|succs| - 1];
      RelaxAllKeepsRooted(cfg, st, cur, init, useTurns, turnCost, root);
      RelaxKeepsRooted(cfg, RelaxAll(cfg, st, cur, init, useTurns, turnCost), cur, succs[|succs| - 1],
                       useTurns, turnCost, root);
    }
  }

  /** An expansion keeps every root at the start board. */
  lemma ExpandKeepsRooted<K>(cfg: Config<K>, st: EngineState, cur: nat, useTurns: bool, turnCost: int, root: Board)
    requires cur < |st.arena| && RootedAt(st.arena, root)
    ensures RootedAt(Expand(cfg, st, cur, useTurns, turnCost).arena, root)
  {
    RelaxAllKeepsRooted(cfg, Close(cfg, st, cur), cur, PossibleMoves(cfg.level, st.arena[cur].board),
                        useTurns, turnCost, root);
  }

  /** Adding the root keeps parent links legal and every root at `root`. */
  lemma SeedKeepsLinks<K>(cfg: Config<K>, st: EngineState, root: Board, useTurns: bool, turnCost: int)
    ensures var r := Seed(cfg, st, root, useTurns, turnCost);
            LegalLinks(cfg, st.arena) && RootedAt(st.arena, root) ==>
              LegalLinks(cfg, r.arena) && RootedAt(r.arena, root)
  {
    if LegalLinks(cfg, st.arena) && RootedAt(st.arena, root) {
      SeedKeepsLegalLinks(cfg, st, root, useTurns, turnCost);
      SeedKeepsRooted(cfg, st, root, useTurns, turnCost);
    }
  }

  /** One expansion keeps both: legal parent links, and every root at whatever
      board all roots were at before. */
  lemma ExpandKeepsLinks<K>(cfg: Config<K>, st: EngineState, cur: nat, useTurns: bool, turnCost: int)
    requires cur < |st.arena|
    ensures var r := Expand(cfg, st, cur, useTurns, turnCost);
            && (LegalLinks(cfg, st.arena) ==> LegalLinks(cfg, r.arena))
            && (forall root :: RootedAt(st.arena, root) ==> RootedAt(r.arena, root))
  {
    if LegalLinks(cfg, st.arena) {
      ExpandKeepsLegalLinks(cfg, st, cur, useTurns, turnCost);
    }
    forall root | RootedAt(st.arena, root)
      ensures RootedAt(Expand(cfg, st, cur, useTurns, turnCost).arena, root)
    {
      ExpandKeepsRooted(cfg, st, cur, useTurns, turnCost, root);
    }
  }

  // ---------------------------------------------------------------------------
  // The whole search

  /** Why the main loop stopped: the fuel ran out, the open list was empty, or
      the head `goal` passed the goal test. */
  datatype Halt = FuelSpent | OpenEmpty | GoalReached(goal: nat)

  /** The main loop from state `st`: at most `fuel` rounds, each of which stops
      at an empty open list, closes the head and stops when it is a goal, or
      else expands the head. No round writes an illegal parent link or a new
      root. */
  ghost function Iterate<K>(cfg: Config<K>, st: EngineState, rank: map<nat, nat>, clock: nat,
                                useTurns: bool, turnCost: int, fuel: nat): (r: (EngineState, Halt))
    requires WellFormed(st, rank, clock)
    ensures LegalLinks(cfg, st.arena) ==> LegalLinks(cfg, r.0.arena)
    ensures forall root :: RootedAt(st.arena, root) ==> RootedAt(r.0.arena, root)
    decreases fuel
  {
    if fuel == 0 then (st, FuelSpent)
    else if st.open == [] then (st, OpenEmpty)
    else
      var cur := st.open[0];
      if cfg.isGoal(st.arena[cur].board) then (Close(cfg, st, cur), GoalReached(cur))
      else
        ExpandKeepsWellFormed(cfg, st, useTurns, turnCost, rank, clock);
        ExpandKeepsLinks(cfg, st, cur, useTurns, turnCost);
        Iterate(cfg, Expand(cfg, st, cur, useTurns, turnCost), rank[cur := clock], clock + 1,
                useTurns, turnCost, fuel - 1)
  }

  /** The whole search: the start board `root` is added to the open list and
      the main loop runs. */
  ghost function Search<K>(cfg: Config<K>, st: EngineState, rank: map<nat, nat>, clock: nat, root: Board,
                               useTurns: bool, turnCost: int, fuel: nat): (r: (EngineState, Halt))
    requires WellFormed(st, rank, clock)
    ensures LegalLinks(cfg, st.arena) && RootedAt(st.arena, root) ==>
              LegalLinks(cfg, r.0.arena) && RootedAt(r.0.arena, root)
  {
    SeedKeepsWellFormed(cfg, st, root, useTurns, turnCost, rank, clock);
    SeedKeepsLinks(cfg, st, root, useTurns, turnCost);
    Iterate(cfg, Seed(cfg, st, root, useTurns, turnCost), rank, clock, useTurns, turnCost, fuel)
  }

  /** On a search that starts with an empty arena, a chain of parent links
      from an arena vertex of the final state is a sequence of legal moves
      that ends at the start board `root`. */
  lemma FoundPathFromStart<K>(cfg: Config<K>, st: EngineState, rank: map<nat, nat>, clock: nat, root: Board,
                              useTurns: bool, turnCost: int, fuel: nat, arena: seq<Vertex>, path: seq<Vertex>)
    requires WellFormed(st, rank, clock) && st.arena == []
    requires arena == Search(cfg, st, rank, clock, root, useTurns, turnCost, fuel).0.arena
    requires IsParentChain(arena, path) && path[0] in arena
    requires exists k :: 0 <= k < |arena| && path[|path| - 1] == arena[k]
    ensures path[|path| - 1].board == root
    ensures FollowsMoves(cfg, path)
  {
    ParentChainFollowsMoves(cfg, arena, path);
    ParentChainEndsAtRoot(arena, path, root);
  }

  /** What the main loop's result promises: it stops at an empty open list
      only when that list is empty, and a goal it reports is a vertex that
      passes the goal test, is closed and is no longer open. */
  ghost predicate HaltSound<K>(cfg: Config<K>, out: (EngineState, Halt)) {
    && (out.1.OpenEmpty? ==> out.0.open == [])
    && (out.1.GoalReached? ==>
          && out.1.goal < |out.0.arena| && out.1.goal !in out.0.open
          && cfg.isGoal(out.0.arena[out.1.goal].board)
          && InClosed(cfg, out.0, out.0.arena[out.1.goal].board))
  }



  // ---------------------------------------------------------------------------
  // The engine

  class AStarAlgo<K(==)> {
    const cfg: Config<K>
    var arena: seq<Vertex>
    var openList: seq<nat>
    var closedList: set<nat>
    /** Expansion time of every expanded vertex, and the next time to hand out. */
    ghost var rank: map<nat, nat>
    ghost var clock: nat

    function State(): EngineState
      reads this
    {
      EngineState(arena, openList, closedList)
    }

    ghost predicate Valid()
      reads this
    {
      WellFormed(State(), rank, clock)
    }

    constructor (cfg: Config<K>)
      ensures Valid()
      ensures this.cfg == cfg
      ensures arena == [] && openList == [] && closedList == {}
    {
      this.cfg := cfg;
      arena, openList, closedList := [], [], {};
      rank, clock := map[], 0;
    }

    /** Follows parent links from `goal` to a root. */
    method Backtrack(goal: nat) returns (verts: seq<Vertex>)
      requires Valid() && goal < |arena|
      ensures verts != [] && verts[0] == arena[goal]
      ensures IsParentChain(arena, verts)
      ensures exists k :: 0 <= k < |arena| && verts[|verts| - 1] == arena[k]
    {
      verts := [arena[goal]];
      var currVert: nat := goal;
      while true
        invariant currVert < |arena|
        invariant verts != [] && verts[0] == arena[goal]
        invariant verts[|verts| - 1] == arena[currVert]
        invariant forall i :: 0 <= i < |verts| - 1 ==>
                    verts[i].parent.Some? && verts[i].parent.value < |arena| && verts[i + 1] == arena[verts[i].parent.value]
        decreases if currVert in rank then rank[currVert] else clock
      {
        var parent := arena[currVert].parent;
        if parent.Some? {
          assert LinkRanked(State(), rank, currVert);
          verts := verts + [arena[parent.value]];
          currVert := parent.value;
        } else {
          break;
        }
      }
    }

    /** Expands the head `cur` of the open list. */
    method DoIterations(cur: nat, useTurns: bool, turnCost: int)
      requires Valid() && openList != [] && cur == openList[0]
      modifies this
      ensures Valid()
      ensures State() == Expand(cfg, old(State()), cur, useTurns, turnCost)
      ensures rank == old(rank)[cur := old(clock)] && clock == old(clock) + 1
      ensures cur !in openList && InClosed(cfg, State(), arena[cur].board)
      ensures HeadHasLeastF(State())
    {
      ghost var st0, rank0, clock0 := State(), rank, clock;

      // Update lists
      CloseCurrent(cur);
      ghost var st1 := State();

      var nextVerts := CalcPossibleMoves(cfg.level, arena[cur].board);
      HandleSuccessors(cur, nextVerts, useTurns, turnCost);
      ghost var st2 := State();

      // Sort open list
      openList := SortBy(openList, FKey(arena));
      assert State() == SortOpen(st2);
      ExpandedState(cfg, st0, useTurns, turnCost, rank0, clock0, State());
      assert arena[cur].board == st0.arena[cur].board;
    }

    /** The loop of `doIterations`: for each possible move compute f() and add
        it to the open list. */
    method HandleSuccessors(cur: nat, nextVerts: seq<Board>, useTurns: bool, turnCost: int)
      requires cur < |arena|
      modifies this
      ensures State() == RelaxAll(cfg, old(State()), cur, nextVerts, useTurns, turnCost)
      ensures rank == old(rank) && clock == old(clock)
    {
      for i := 0 to |nextVerts|
        invariant cur < |arena|
        invariant rank == old(rank) && clock == old(clock)
        invariant State() == RelaxAll(cfg, old(State()), cur, nextVerts[..i], useTurns, turnCost)
      {
        assert nextVerts[..i + 1][..i] == nextVerts[..i];
        HandleSuccessor(cur, nextVerts[i], useTurns, turnCost);
      }
      assert nextVerts[..|nextVerts|] == nextVerts;
    }

    /** The body of the loop of `DoIterations`: handles one successor `vert` of `cur`. */
    method HandleSuccessor(cur: nat, vert: Board, useTurns: bool, turnCost: int)
      requires cur < |arena|
      modifies this
      ensures State() == Relax(cfg, old(State()), cur, vert, useTurns, turnCost)
      ensures rank == old(rank) && clock == old(clock)
    {
      // Ignore if already in closed list
      if InClosed(cfg, State(), vert) {
        return;
      }
      var found := FindOpen(cfg, arena, openList, vert);
      if found.None? {
        var h := Heuristic(cfg, useTurns, turnCost, vert);
        var g := arena[cur].g + 1;
        var n := |arena|;
        arena := arena + [Vertex(vert, g, h, cfg.fCost(g, h), Some(cur))];
        openList := openList + [n];
      } else {
        var t := openList[found.value];
        var newFCost := arena[cur].g + 1 + arena[cur].h;
        if newFCost < arena[t].f {
          arena := arena[t := arena[t].(parent := Some(cur), f := newFCost)];
        }
      }
    }

    /** Computes f of the start vertex `root` and adds it to the open list. */
    method AddRoot(root: Board, useTurns: bool, turnCost: int)
      requires Valid()
      modifies this
      ensures Valid()
      ensures State() == Seed(cfg, old(State()), root, useTurns, turnCost)
      ensures rank == old(rank) && clock == old(clock)
    {
      SeedKeepsWellFormed(cfg, State(), root, useTurns, turnCost, rank, clock);
      var h := Heuristic(cfg, useTurns, turnCost, root);
      var n := |arena|;
      arena := arena + [Vertex(root, 0, h, cfg.fCost(0, h), None)];
      openList := openList + [n];
    }

    /** Moves the head `cur` of the open list to the closed list, recording the
        time of its expansion. */
    method CloseCurrent(cur: nat)
      requires Valid() && openList != [] && cur == openList[0]
      modifies this
      ensures Valid()
      ensures State() == Close(cfg, old(State()), cur)
      ensures rank == old(rank)[cur := old(clock)] && clock == old(clock) + 1
      ensures InClosed(cfg, State(), arena[cur].board) && cur !in openList
    {
      CloseKeepsWellFormed(cfg, State(), rank, clock);
      CloseHead(cfg, State());
      closedList := AddClosed(cfg, State(), cur);
      openList := RemoveFirst(cfg, arena, openList, arena[cur].board);
      rank, clock := rank[cur := clock], clock + 1;
    }

    /** Runs the search from the board `boxes`/`player` for at most `fuel`
        expansions. */
    method RunAlgorithm(boxes: seq<Coord>, player: Coord, useTurns: bool, turnCost: int, fuel: nat)
      returns (r: SearchOutcome)
      requires Valid()
      modifies this
      ensures Valid()
      ensures var out := Search(cfg, old(State()), old(rank), old(clock), Board(boxes, player), useTurns, turnCost, fuel);
              && State() == out.0
              && (r.OutOfFuel? <==> out.1.FuelSpent?)
              && (r.NoOpenVertex? <==> out.1.OpenEmpty?)
              && (r.Found? <==> out.1.GoalReached?)
              && (r.Found? ==> out.1.goal < |arena| && out.1.goal !in openList && r.path != [] && r.path[0] == arena[out.1.goal])
      ensures r.NoOpenVertex? ==> openList == []
      ensures r.Found? ==> && IsParentChain(arena, r.path)
                           && cfg.isGoal(r.path[0].board)
                           && InClosed(cfg, State(), r.path[0].board)
      ensures old(arena) == [] && r.Found? ==>
                r.path[|r.path| - 1].board == Board(boxes, player) && FollowsMoves(cfg, r.path)
    {
      ghost var fromEmpty := arena == [];
      ghost var st0 := State();
      var rootVertex := NewBoard(boxes, player);
      assert rootVertex == Board(boxes, player);
      AddRoot(rootVertex, useTurns, turnCost);

      // Find solution
      var halt := FindGoal(useTurns, turnCost, fuel);
      match halt
      case OpenEmpty => r := NoOpenVertex;
      case FuelSpent => r := OutOfFuel;
      case GoalReached(runVert) =>
        var path := Backtrack(runVert);
        if fromEmpty {
          FoundPathFromStart(cfg, st0, old(rank), old(clock), rootVertex, useTurns, turnCost, fuel, arena, path);
        }
        r := Found(path);
    }

    /** The loop of `runAlgorithm`: expands the head of the open list at most
        `fuel` times, and stops at an empty open list or at a head that passes
        the goal test, which it closes. */
    method FindGoal(useTurns: bool, turnCost: int, fuel: nat) returns (halt: Halt)
      requires Valid()
      modifies this
      ensures Valid()
      ensures (State(), halt) == Iterate(cfg, old(State()), old(rank), old(clock), useTurns, turnCost, fuel)
      ensures HaltSound(cfg, (State(), halt))
    {
      var remaining := fuel;
      while remaining > 0
        invariant Valid()
        invariant Iterate(cfg, State(), rank, clock, useTurns, turnCost, remaining)
                  == Iterate(cfg, old(State()), old(rank), old(clock), useTurns, turnCost, fuel)
        decreases remaining
      {
        if |openList| == 0 {
          return OpenEmpty;
        }
        var runVert := openList[0];
        if cfg.isGoal(arena[runVert].board) {
          CloseCurrent(runVert);
          return GoalReached(runVert);
        }
        DoIterations(runVert, useTurns, turnCost);
        remaining := remaining - 1;
      }
      halt := FuelSpent;
    }
  }
}
