/** The second generation: the seed grows into six two-cube shapes, one per
    direction, and all six are the same domino up to rotation and cell order,
    so they share one fingerprint and the generation holds a single shape. */
module Dominoes {
  import opened Lattice
  import opened Shapes
  import opened Growth
  import opened Remaps
  import opened Words
  import opened Fingerprint
  import opened Generation

  const Origin := Coord(0, 0, 0)

  /** The shape `add_cube` makes from the seed in direction `d`: in the
      positive directions the new cube is appended beyond the seed; in the
      negative ones the seed moves up by one and the new cube takes the
      origin. */
  function Domino(d: Direction): Model
  {
    match d
    case PlusX => Model(Coord(1, 0, 0), [Origin, Coord(1, 0, 0)])
    case MinusX => Model(Coord(1, 0, 0), [Coord(1, 0, 0), Origin])
    case PlusY => Model(Coord(0, 1, 0), [Origin, Coord(0, 1, 0)])
    case MinusY => Model(Coord(0, 1, 0), [Coord(0, 1, 0), Origin])
    case PlusZ => Model(Coord(0, 0, 1), [Origin, Coord(0, 0, 1)])
    case MinusZ => Model(Coord(0, 0, 1), [Coord(0, 0, 1), Origin])
  }

  /** Growing the seed never fails, and gives the domino of the direction. */
  lemma SeedGrowth(d: Direction)
    ensures AddCube(Seed, Origin, d) == Some(Domino(d))
  {
    if Renormalises(Origin, d) {
      var moved := Translate(Seed, Back(d));
      assert moved.data == [Shift(Origin, Back(d))];
      assert moved.data + [Origin] == Domino(d).data;
    } else {
      var t := Shift(Origin, Step(d));
      assert t !in Seed.data;
      assert Seed.data + [t] == Domino(d).data;
      assert CoordMax(Seed.max, t) == Domino(d).max;
    }
  }

  /** The positive direction along the axis of `d`. */
  function Positive(d: Direction): Direction
  {
    match d
    case PlusX => PlusX
    case MinusX => PlusX
    case PlusY => PlusY
    case MinusY => PlusY
    case PlusZ => PlusZ
    case MinusZ => PlusZ
  }

  /** The two dominoes along one axis differ only in the order of their
      cells, so they share a fingerprint. */
  lemma ReorderedDomino(h: Coord -> U64, d: Direction)
    ensures Hash(h, Domino(d)) == Hash(h, Domino(Positive(d)))
  {
    var a, b := Domino(d), Domino(Positive(d));
    assert a.max == b.max;
    assert multiset(a.data) == multiset(b.data);
    HashIgnoresOrder(h, a, b);
  }

  /** The quarter turn `(max.y - y, x, z)` of `Model::hash` takes the
      x-domino to the y-domino. */
  lemma TurnToY()
    ensures Rotations[12] == Remap(Mirror(Y), Keep(X), Keep(Z))
    ensures Rotate(Rotations[12], Domino(PlusX)) == Domino(PlusY)
  {
    var t := Rotate(Remap(Mirror(Y), Keep(X), Keep(Z)), Domino(PlusX));
    assert t.data == [Origin, Coord(0, 1, 0)];
  }

  /** The quarter turn `(max.z - z, y, x)` of `Model::hash` takes the
      x-domino to the z-domino. */
  lemma TurnToZ()
    ensures Rotations[20] == Remap(Mirror(Z), Keep(Y), Keep(X))
    ensures Rotate(Rotations[20], Domino(PlusX)) == Domino(PlusZ)
  {
    var t := Rotate(Remap(Mirror(Z), Keep(Y), Keep(X)), Domino(PlusX));
    assert t.data == [Origin, Coord(0, 0, 1)];
  }

  lemma TurnedToY(h: Coord -> U64)
    ensures Hash(h, Domino(PlusY)) == Hash(h, Domino(PlusX))
  {
    TurnToY();
    HashRotationInvariant(h, Domino(PlusX), Rotations[12]);
  }

  lemma TurnedToZ(h: Coord -> U64)
    ensures Hash(h, Domino(PlusZ)) == Hash(h, Domino(PlusX))
  {
    TurnToZ();
    HashRotationInvariant(h, Domino(PlusX), Rotations[20]);
  }

  /** All six dominoes have the fingerprint of the x-domino. */
  lemma DominoesShareFingerprint(h: Coord -> U64, d: Direction)
    ensures Hash(h, Domino(d)) == Hash(h, Domino(PlusX))
  {
    ReorderedDomino(h, d);
    TurnedToY(h);
    TurnedToZ(h);
  }

  /** The seed's growths are the six dominoes. */
  lemma SeedGrowths()
    ensures Growths(Seed) == set d | d in Directions :: Domino(d)
  {
    forall g | g in Growths(Seed)
      ensures exists d :: d in Directions && g == Domino(d)
    {
      var c, d :| c in Seed.data && d in Directions && AttemptsOf(Seed)(c, d).Some? && g == AttemptsOf(Seed)(c, d).value;
      SeedGrowth(d);
    }
    forall d | d in Directions
      ensures Domino(d) in Growths(Seed)
    {
      SeedGrowth(d);
      assert Origin in Seed.data;
      assert AttemptsOf(Seed)(Origin, d) == Some(Domino(d));
    }
  }

  /** Generation two: every growth of the seed has the one fingerprint of
      the domino, so `next` of the seed's generation files a single shape. */
  lemma SecondGenerationKeys(h: Coord -> U64)
    ensures SuccessorKeys(h, Seed) == {Hash(h, Domino(PlusX))}
  {
    SeedGrowths();
    var v := Hash(h, Domino(PlusX));
    forall g | g in Growths(Seed)
      ensures KeyOf(h)(g) == v
    {
      var d :| d in Directions && g == Domino(d);
      DominoesShareFingerprint(h, d);
    }
    assert Domino(PlusX) in Growths(Seed);
    ImageConstant(KeyOf(h), Growths(Seed), v, Domino(PlusX));
  }

  /** The keys `next` computes for the seed's generation: exactly one, the
      domino's fingerprint. With the key clause of `Next` this makes the
      second generation a single entry. */
  lemma SecondGenerationFrontier(h: Coord -> U64)
    ensures var g1 := map[Hash(h, Seed) := Seed];
      Frontier(h, g1, g1.Keys) == {Hash(h, Domino(PlusX))}
  {
    var k0 := Hash(h, Seed);
    var g1 := map[k0 := Seed];
    assert g1.Keys == {k0};
    GatherSingle(k0, Seed, m => SuccessorKeys(h, m));
    SecondGenerationKeys(h);
  }
}
