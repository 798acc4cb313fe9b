/** The frontier record of the heuristic's wave expansion: a coordinate and its
    distance from the goal the wave started at. Equality and hashing look only
    at the coordinate. */
module Expansions {
  import opened Coords

  datatype Expansion = Expansion(coords: Coord, dist: int)

  /** What `equals` may be handed: no object at all, an Expansion, or an
      instance of some other class. */
  datatype Obj = NullRef | ExpansionRef(exp: Expansion) | OtherRef

  /** A call of `equals` either returns a value or fails on a null argument,
      whose class it asks for before anything else. */
  datatype EqualsOutcome = Returned(value: bool) | NullPointer

  function GetCoords(e: Expansion): Coord {
    e.coords
  }

  function GetDist(e: Expansion): int {
    e.dist
  }

  /** True when the argument's run-time class (package and name) is Expansion. */
  predicate SameClass(obj: Obj)
    requires !obj.NullRef?
  {
    obj.ExpansionRef?
  }

  function Equals(self: Expansion, obj: Obj): (r: EqualsOutcome)
    ensures obj.NullRef? <==> r.NullPointer?
    ensures obj.OtherRef? ==> r == Returned(false)
    ensures obj.ExpansionRef? ==> r == Returned(self.coords == obj.exp.coords)
  {
    if obj.NullRef? then NullPointer
    else if SameClass(obj) then
      if self.coords == obj.exp.coords then Returned(true) else Returned(false)
    else Returned(false)
  }

  /** The hash is the sum of the two coordinates (exact on tile indices). */
  function HashCode(e: Expansion): int {
    e.coords.x + e.coords.y
  }

  lemma GettersReturnConstructorArguments(c: Coord, d: int)
    ensures GetCoords(Expansion(c, d)) == c && GetDist(Expansion(c, d)) == d
  {
  }

  /** Two expansions are equal exactly when their coordinates are; the distance
      plays no part. */
  lemma EqualsIffSameCoords(a: Expansion, b: Expansion)
    ensures Equals(a, ExpansionRef(b)) == Returned(a.coords == b.coords)
    ensures forall d :: Equals(a, ExpansionRef(b)) == Equals(a, ExpansionRef(Expansion(b.coords, d)))
  {
  }

  /** Equality is reflexive, symmetric and transitive on Expansions. */
  lemma EqualsIsEquivalence(a: Expansion, b: Expansion, c: Expansion)
    ensures Equals(a, ExpansionRef(a)) == Returned(true)
    ensures Equals(a, ExpansionRef(b)) == Equals(b, ExpansionRef(a))
    ensures (Equals(a, ExpansionRef(b)) == Returned(true) && Equals(b, ExpansionRef(c)) == Returned(true))
              ==> Equals(a, ExpansionRef(c)) == Returned(true)
  {
  }

  /** Equal expansions hash alike, so the hash agrees with `equals`. */
  lemma HashConsistentWithEquals(a: Expansion, b: Expansion)
    requires Equals(a, ExpansionRef(b)) == Returned(true)
    ensures HashCode(a) == HashCode(b)
  {
  }
}
