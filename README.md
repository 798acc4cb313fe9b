# Pukoban A* search, modelled in Dafny

Pukoban is a push-and-pull variant of Sokoban. The player steps right, left, up
or down on a tile map.
- A box in the way is pushed when the cell beyond it is free.
- A box directly behind the player can be pulled along, or left where it is.

A best-first (A*) search finds a sequence of boards from the start board to a
goal board.

The project models:
- the move generator: `collisionCheck`, `boxCollision`, `simulatePlayerMove`,
  `moveBoxes`, `simulatePukobanState` and `calcPossibleMoves` of `AStar`;
- the copying constructor of `MyVertex`;
- the `Expansion` record;
- the search engine `AStarAlgo`: `runAlgorithm`, `doIterations`, `backtrack`,
  its open list and closed set.

Files and modules:
- `coords.dfy` (`Coords`): integer coordinates, the four directions, and the
  list query `indexOf`.
- `vertices.dfy` (`Vertices`): a board (boxes and player) and the copying
  constructor.
- `expansion.dfy` (`Expansions`): the `Expansion` record, its getters, `equals`
  and `hashCode`.
- `pukoban.dfy` (`Pukoban`): the move rules. Each list-building method is proved
  equal to a specification function. The lemmas about those functions state
  what a step does.
- `ordering.dfy` (`Ordering`): the stable library sort used on the open list,
  written as an insertion sort.
- `search.dfy` (`Search`): the engine, as a class `AStarAlgo` with the fields
  `arena`, `openList` and `closedList`. Each method is proved against the
  specification functions `Seed`, `Close`, `Relax`, `RelaxAll` and `Expand`.
  The ghost functions `Iterate` (the main loop, bounded by fuel) and `Search`
  (seeding followed by the loop) specify `runAlgorithm` as a whole.

How the engine is represented:
- Vertices live in an arena (a sequence). A parent link is an arena index. The
  open list and the closed set hold arena indices.
- Two vertices are equal when their boards have the same `key`. This
  equivalence is what `HashSet.contains`, `LinkedList.contains` and
  `LinkedList.remove` use.
- Vertex-level operations that are not part of this model are the functions of
  a `Config` value: the two heuristics, the goal test and the f formula.
- A ghost map `rank` records when each vertex was expanded. It proves that
  following parent links from any vertex ends at a root.
- The body of the `for` loop of `doIterations` is the method
  `HandleSuccessor`. It is proved equal to `Relax`. The loop itself is the
  method `HandleSuccessors`, proved equal to `RelaxAll`, the successors handled
  one after the other.
- The `while` loop of `runAlgorithm` is the method `FindGoal`, proved equal to
  `Iterate`.
- Each guarded `addAll` of `calcPossibleMoves` is the method `AddIfValid`.
- Two steps that the code writes inline are separate methods. `AddRoot` is the
  seeding of the open list in `runAlgorithm`. `CloseCurrent` is the pair of
  list updates that both `runAlgorithm` (for the goal) and `doIterations`
  perform.

How the model departs from the code:
- The engine's relaxation step follows the evidently intended behaviour, not
  the code as written. See "## Findings".
- `runAlgorithm` reads `openList.get(0)` even after it has reported an empty
  open list. That read would throw an exception. The model instead returns
  `NoOpenVertex`.
- The unbounded `while (true)` loop of `runAlgorithm` becomes a loop of at most
  `fuel` expansions. An exhausted bound returns `OutOfFuel`.

## Model

| member | source | states |
|---|---|---|
| Coords.IndexOf | src/core/src/com/mygdx/astar/AStar.java:537-540 | -1 exactly when the coordinate is absent; otherwise the first position holding it |
| Pukoban.CollisionCheck | src/core/src/com/mygdx/astar/AStar.java:582-593 | true exactly when the cell is off the map (x or y negative, or beyond width-1 / height-1) or is a wall |
| Pukoban.BoxCollision | src/core/src/com/mygdx/astar/AStar.java:572-574 | true exactly when some box occupies the cell |
| Pukoban.SimulatePlayerMove | src/core/src/com/mygdx/astar/AStar.java:532-563 | Push iff a box is at dest and dest+dir is neither colliding nor a box; NoMove iff a box is at dest and that cell is blocked; Pull iff no box at dest and a box two cells back from dest; FreeSpace otherwise |
| Pukoban.MovedBoxes | src/core/src/com/mygdx/astar/AStar.java:453-486 | the moved box list has as many entries as the input |
| Pukoban.MoveBoxes | src/core/src/com/mygdx/astar/AStar.java:453-486 | the copy-then-overwrite loop yields exactly MovedBoxes of the input, whose own list is left as it was |
| Pukoban.MovedBoxesChangesOneBox | src/core/src/com/mygdx/astar/AStar.java:462-483 | exactly one index changes: the first box at dest (push) or at dest-2*dir (pull) moves by dir; every other entry is unchanged |
| Pukoban.PulledBoxFillsVacatedCell | src/core/src/com/mygdx/astar/AStar.java:463-473 | a pulled box ends in the cell the player has just left |
| Pukoban.SimulatePukobanState | src/core/src/com/mygdx/astar/AStar.java:497-521 | the boards it builds are exactly Successors of the step |
| Pukoban.SuccessorsShape | src/core/src/com/mygdx/astar/AStar.java:501-520 | Pull gives two boards (pulled box moved, boxes unchanged), Push and FreeSpace one, NoMove none; the player is at dest in each |
| Pukoban.PushedBoxLandsOnFreeCell | src/core/src/com/mygdx/astar/AStar.java:540-547 | a pushed box lands on a cell that is on the map, not a wall and not another box |
| Pukoban.CalcPossibleMoves | src/core/src/com/mygdx/astar/AStar.java:404-441 | the list it builds is PossibleMoves: the successors of right, left, up and down, in that order |
| Pukoban.AddIfValid | src/core/src/com/mygdx/astar/AStar.java:423-438 | one guarded `addAll` appends exactly the moves of that direction: the successors of the step when the destination is free, nothing when it collides |
| Pukoban.AtMostEightMoves | src/core/src/com/mygdx/astar/AStar.java:404-441 | on every board and level each direction yields at most two boards, so a board has at most eight successors |
| Pukoban.MovesLandOnFreeCells | src/core/src/com/mygdx/astar/AStar.java:414-438 | on every board and level, each successor's player stands on the map and not on a wall |
| Pukoban.CollidingDirectionContributesNothing | src/core/src/com/mygdx/astar/AStar.java:414-438 | a direction whose destination collides adds no successor |
| Pukoban.PushKeepsBoardValid | src/core/src/com/mygdx/astar/AStar.java:540-548 | a push from a valid board gives a valid board one step away with as many boxes |
| Pukoban.PullKeepsBoardValid | src/core/src/com/mygdx/astar/AStar.java:551-561 | a pull from a valid board gives a valid board one step away with as many boxes |
| Pukoban.DirectionMovesValid | src/core/src/com/mygdx/astar/AStar.java:423-438 | one direction yields at most two successors, each a valid board one step away |
| Pukoban.PossibleMovesValid | src/core/src/com/mygdx/astar/AStar.java:404-441 | at most eight successors; each has the player moved by one direction onto a free cell, the same number of boxes, and no two boxes sharing a cell |
| Vertices.NewBoard | src/core/src/com/mygdx/astar/MyVertex.java:13-24 | the stored box list has the argument's length and the argument's box at every index, and the stored player is the argument player |
| Expansions.GettersReturnConstructorArguments | src/core/src/com/mygdx/astar/Expansion.java:17-34 | the getters return exactly the constructor arguments |
| Expansions.Equals | src/core/src/com/mygdx/astar/Expansion.java:37-49 | a null argument fails before anything is compared; another class gives false; an Expansion gives true exactly when the coordinates match |
| Expansions.EqualsIffSameCoords | src/core/src/com/mygdx/astar/Expansion.java:37-49 | two Expansions are equal iff their coordinates are; the distance is ignored |
| Expansions.EqualsIsEquivalence | src/core/src/com/mygdx/astar/Expansion.java:37-49 | equals is reflexive, symmetric and transitive on Expansions |
| Expansions.HashConsistentWithEquals | src/core/src/com/mygdx/astar/Expansion.java:37-54 | equal Expansions have equal hash codes x + y |
| Ordering.SortByFacts | src/core/src/com/mygdx/astar/AStarAlgo.java:147 | the sort orders by key, keeps the same elements, and is stable: for every key, the elements carrying it keep their order |
| Ordering.SortedHeadIsMinimal | src/core/src/com/mygdx/astar/AStarAlgo.java:147 | after the sort the head has a key no larger than any element's |
| Search.AddClosed | src/core/src/com/mygdx/astar/AStarAlgo.java:110 | the closed set gains at most the given index, and afterwards holds a vertex equal to it |
| Search.FindOpen | src/core/src/com/mygdx/astar/AStarAlgo.java:122 | None exactly when no open vertex equals the board; otherwise the first open position that does |
| Search.RelaxCases | src/core/src/com/mygdx/astar/AStarAlgo.java:116-143 | a closed successor changes nothing; a new one is appended to the open list with g = cur.g + 1, parent cur, its own h and f = fCost(g, h); for an open one only that vertex may change, it takes f = cur.g + 1 + cur.h and parent cur exactly when that is lower, and otherwise stays; no board, g or h changes and no f rises |
| Search.RelaxKeepsWellFormed | src/core/src/com/mygdx/astar/AStarAlgo.java:116-143 | one handled successor keeps the invariant (open entries valid, unexpanded and distinct; parents expanded earlier than their children) |
| Search.RelaxAllKeepsWellFormed | src/core/src/com/mygdx/astar/AStarAlgo.java:116-144 | the successor loop keeps the invariant, leaves the closed set and every existing board, g and h alone |
| Search.RelaxKeepsLegalLinks | src/core/src/com/mygdx/astar/AStarAlgo.java:129-141 | a parent link written for a successor of cur is one legal move from cur's board |
| Search.RelaxAllKeepsLegalLinks | src/core/src/com/mygdx/astar/AStarAlgo.java:113-144 | handling cur's generated moves keeps every parent link a legal move |
| Search.RelaxAllNeverRaisesF | src/core/src/com/mygdx/astar/AStarAlgo.java:136-143 | the successor loop never raises the f of an existing vertex |
| Search.RelaxAllKeepsClosed | src/core/src/com/mygdx/astar/AStarAlgo.java:116-144 | the successor loop leaves the closed set unchanged |
| Search.RelaxAllKeepsOpen | src/core/src/com/mygdx/astar/AStarAlgo.java:116-144 | the successor loop never drops a vertex from the open list |
| Search.RelaxAsWrittenIgnoresOpenVertex | src/core/src/com/mygdx/astar/AStarAlgo.java:136-143 | as written, a successor already open leaves the whole state unchanged |
| Search.CheaperPathCounterexample | src/core/src/com/mygdx/astar/AStarAlgo.java:136-143 | on a concrete state where C is open with f = 5 through A and is generated again from B at cost 3, the code as written leaves C unchanged while the corrected step records f = 3 and parent B |
| Search.CounterexampleRootMoves | src/core/src/com/mygdx/astar/AStar.java:404-441 | in the counterexample level, A is the move right and B the move up from the start board |
| Search.CounterexampleMovesToC | src/core/src/com/mygdx/astar/AStar.java:404-441 | in the counterexample level, C is the move up from A and the move right from B, so the counterexample state is one the engine reaches |
| Search.CloseHead | src/core/src/com/mygdx/astar/AStarAlgo.java:110-111 | closing the head removes exactly the head from the open list and puts a vertex equal to it in the closed set |
| Search.CloseKeepsWellFormed | src/core/src/com/mygdx/astar/AStarAlgo.java:110-111 | closing the head, ranked as expanded now, keeps the invariant |
| Search.SeedFromEmpty | src/core/src/com/mygdx/astar/AStarAlgo.java:40-49 | from an empty open list the root is the only open vertex, with g = 0, no parent, h from the configured heuristic and f = fCost(0, h) |
| Search.SeedKeepsWellFormed | src/core/src/com/mygdx/astar/AStarAlgo.java:45-49 | adding the root keeps the invariant |
| Search.SeedKeepsLegalLinks | src/core/src/com/mygdx/astar/AStarAlgo.java:45-49 | adding the root keeps every parent link legal |
| Search.SortOpenKeepsWellFormed | src/core/src/com/mygdx/astar/AStarAlgo.java:147 | sorting the open list keeps the invariant |
| Search.SortOpenEffect | src/core/src/com/mygdx/astar/AStarAlgo.java:147 | sorting changes neither the vertices nor the closed set, and keeps exactly the same open vertices |
| Search.SortOpenHeadLeast | src/core/src/com/mygdx/astar/AStarAlgo.java:147 | after the sort the head of the open list has the least f |
| Search.ExpandKeepsWellFormed | src/core/src/com/mygdx/astar/AStarAlgo.java:107-149 | one expansion of the head keeps the invariant with the head ranked as the latest expansion |
| Search.ExpandKeepsLegalLinks | src/core/src/com/mygdx/astar/AStarAlgo.java:107-149 | one expansion keeps every parent link a legal move |
| Search.ExpandHeadLeast | src/core/src/com/mygdx/astar/AStarAlgo.java:147 | after an expansion the next vertex to expand has the least f of the open list |
| Search.ExpandClosesHead | src/core/src/com/mygdx/astar/AStarAlgo.java:110-111 | after an expansion the head is no longer open, is in the closed set, and the closed set only grew |
| Search.ExpandKeepsOthers | src/core/src/com/mygdx/astar/AStarAlgo.java:116-147 | an expansion raises no f and keeps every other open vertex open |
| Search.ExpandedState | src/core/src/com/mygdx/astar/AStarAlgo.java:107-149 | a state equal to Expand of the head keeps the invariant with the head ranked latest, extends the old state, has the head closed and no longer open, and has its new head least in f |
| Search.SeedKeepsRooted | src/core/src/com/mygdx/astar/AStarAlgo.java:39-49 | adding the start vertex keeps every vertex without a parent at the start board |
| Search.RelaxKeepsRooted | src/core/src/com/mygdx/astar/AStarAlgo.java:116-143 | handling one successor keeps every vertex without a parent at the start board |
| Search.RelaxAllKeepsRooted | src/core/src/com/mygdx/astar/AStarAlgo.java:116-144 | the successor loop keeps every vertex without a parent at the start board |
| Search.ExpandKeepsRooted | src/core/src/com/mygdx/astar/AStarAlgo.java:107-149 | one expansion keeps every vertex without a parent at the start board |
| Search.SeedKeepsLinks | src/core/src/com/mygdx/astar/AStarAlgo.java:39-49 | seeding keeps both parent links legal and every root at the start board |
| Search.ExpandKeepsLinks | src/core/src/com/mygdx/astar/AStarAlgo.java:107-149 | one expansion keeps parent links legal and keeps every root at the board all roots had before |
| Search.Iterate | src/core/src/com/mygdx/astar/AStarAlgo.java:51-62 | the main loop, run for at most fuel rounds, keeps parent links legal and adds no root at another board |
| Search.Search | src/core/src/com/mygdx/astar/AStarAlgo.java:34-62 | seeding with the start board then running the loop keeps parent links legal and every root at the start board |
| Search.ParentChainFollowsMoves | src/core/src/com/mygdx/astar/AStarAlgo.java:75-94 | along a parent chain in a legal arena each vertex is one legal move from the next |
| Search.ParentChainEndsAtRoot | src/core/src/com/mygdx/astar/AStarAlgo.java:75-94 | a parent chain ending at an arena vertex ends at the start board when every root has it |
| Search.FoundPathFromStart | src/core/src/com/mygdx/astar/AStarAlgo.java:34-94 | after a search from an empty arena, a backtracked chain ends at the start board and each of its steps is a legal move |
| Search.AStarAlgo.constructor | src/core/src/com/mygdx/astar/AStarAlgo.java:15-26 | the engine keeps the given configuration (level, heuristics, goal test, key and f formula), the open list and the closed set start empty, and the invariant holds |
| Search.AStarAlgo.Backtrack | src/core/src/com/mygdx/astar/AStarAlgo.java:75-94 | the list starts with the goal, each next element is the previous one's parent, and it ends at an arena vertex with no parent; the loop terminates |
| Search.AStarAlgo.AddRoot | src/core/src/com/mygdx/astar/AStarAlgo.java:39-49 | the new state is Seed of the old one (the root with g 0, its heuristic and f, no parent, appended to the open list) and the invariant is kept |
| Search.AStarAlgo.CloseCurrent | src/core/src/com/mygdx/astar/AStarAlgo.java:110-111 | the new state is Close of the old one, the vertex is ranked at the current time, it is in the closed set, and the invariant is kept |
| Search.AStarAlgo.HandleSuccessors | src/core/src/com/mygdx/astar/AStarAlgo.java:115-144 | the `for` loop over the generated moves leaves the engine in state RelaxAll of the old state: the successors handled one after the other, in order |
| Search.AStarAlgo.HandleSuccessor | src/core/src/com/mygdx/astar/AStarAlgo.java:118-143 | one successor leaves the engine in state Relax of the old state, so RelaxCases applies to it |
| Search.AStarAlgo.DoIterations | src/core/src/com/mygdx/astar/AStarAlgo.java:107-149 | the new state is Expand of the old one; the invariant is kept; the expanded vertex is closed and no longer open; the new head has the least f |
| Search.AStarAlgo.FindGoal | src/core/src/com/mygdx/astar/AStarAlgo.java:51-62 | the loop leaves the engine in the state Iterate computes and stops for the same reason; an empty open list is reported only when it is empty, and a reported goal passes the goal test, is closed and is no longer open |
| Search.AStarAlgo.RunAlgorithm | src/core/src/com/mygdx/astar/AStarAlgo.java:34-67 | the new state is Search of the old one and the outcome matches its halt reason; NoOpenVertex only with an empty open list; a found path starts at the goal vertex, which passes the goal test and is closed, and follows parent links; on an engine with no vertices yet the path ends at the start board and each step is a legal move |

## Left out

- The rendering, input and asset code of `AStar`, the map loader, the console debug printer and the desktop launcher. They are graphics and I/O with no search logic.
- The heuristics, the goal test, the f formula, `compareTo`, and `equals`/`hashCode` of a vertex. These are not part of this model. They are the functions of `Config`, and vertex equality is equality of `key`.
- The sort assumes the vertex ordering compares f values. `compareTo` is not part of this model; the debug print of the head's f as "Best cost" right after the sort (AStarAlgo.java:148) is the only hint of that ordering in the code.
- Float vectors are modelled as integer coordinates. Every coordinate starts as a tile index and only moves by whole steps, so the float arithmetic is exact.
- Object identity and aliasing of vectors and vertices are not modelled. Coordinates and boards are values, so the defensive copies in `MyVertex` and `moveBoxes` cannot be told apart from the original. Where the code mutates a vertex in place, the model replaces the arena entry.
- Vertices.NewBoard: "the stored boxes are fresh copies" holds by value semantics and is not stated as a separate property.
- The mismatched signatures of the sources are not modelled. `runAlgorithm` is called with three arguments but declared with two. `MyVertex` is built with an extra `this` argument. The f cost mode is referenced but never defined. The model uses the two-argument engine, and the cost mode is part of the abstract f formula.
- The engine's reference to the game object is replaced by parameters: the level geometry in `Config`, and the start boxes and player as arguments of `RunAlgorithm`.
- Search.AStarAlgo.RunAlgorithm: the unbounded loop is bounded by `fuel`, so a search that runs out returns `OutOfFuel` rather than running forever. An empty open list returns `NoOpenVertex` instead of throwing.
- Search.AStarAlgo.Backtrack: does not itself state that each step of the path is a legal move, because that fact is not part of the class invariant. `RunAlgorithm` states it for an engine that starts with no vertices, through the postconditions of `Iterate` and `Search` and the lemma `FoundPathFromStart`.
- Search.AStarAlgo.RunAlgorithm: the start-board and legal-move facts are stated only when the engine starts with no vertices, as the game does: it builds a new engine for every search (AStar.java:165-166). A reused engine may hold roots from an earlier search.
- Search.Relax: g + 1 (AStarAlgo.java:129) and g + 1 + h (AStarAlgo.java:138) are unbounded integers; Java's 32-bit `int` wrap-around is not modelled, since costs grow by one per move on a finite map.
- Pukoban.MoveBoxes: requires the displaced box to be present. The code would fail on index -1 there, and it is only called after `simulatePlayerMove` has found that box.
- Expansions.HashCode: the cast of the float sum to `int` is exact on tile coordinates, so truncation and overflow are not modelled.

## Findings

| source | as written | input that shows it | evidently intended | confidence | as-written member | corrected member |
|---|---|---|---|---|---|---|
| src/core/src/com/mygdx/astar/AStarAlgo.java:136-143 | when a successor equals a vertex already on the open list, the new f and parent are compared with and written to the freshly generated successor `vert`, which is then discarded; the open-list vertex never changes | 2 x 2 level without walls, f = g + h, h(1,0) = 0, h(0,1) = 1, h(1,1) = 3: after (0,0), A = (1,0) and B = (0,1) are expanded, C = (1,1) is open with f = 5 through A; handled again from B its cost is 3, yet C keeps f = 5 and parent A | the open-list vertex equal to the successor takes f = cur.g + 1 + cur.h and parent cur when that is lower than its f, as the doc comment of `doIterations` says | not executed | Search.RelaxAsWritten, Search.RelaxAsWrittenIgnoresOpenVertex, Search.CheaperPathCounterexample | Search.Relax, Search.RelaxCases |
