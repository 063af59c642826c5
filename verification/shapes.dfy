/** The shape value `Model`: a far-corner bound and an ordered list of
    occupied cells, with the seed shape, translation and the invariants
    that growth keeps. */
module Shapes {
  import opened Lattice

  /** A polycube: `max` is the far corner of its bounding box (the near
      corner is the origin) and `data` lists its cells in insertion order. */
  datatype Model = Model(max: Coord, data: seq<Coord>)

  /** The single cube at the origin, from which every generation grows. */
  const Seed: Model := Model(Coord(0, 0, 0), [Coord(0, 0, 0)])

  /** Every cell, and the bound, moved by the same offset; the number and
      order of the cells are kept. */
  function Translate(m: Model, o: Offset): (r: Model)
    ensures |r.data| == |m.data|
    ensures forall i :: 0 <= i < |m.data| && NoWrap(m.data[i], o) ==>
      && r.data[i].x == m.data[i].x + o.dx
      && r.data[i].y == m.data[i].y + o.dy
      && r.data[i].z == m.data[i].z + o.dz
    ensures NoWrap(m.max, o) ==>
      r.max.x == m.max.x + o.dx && r.max.y == m.max.y + o.dy && r.max.z == m.max.z + o.dz
  {
    Model(Shift(m.max, o), ShiftAll(m.data, o))
  }

  function ShiftAll(cells: seq<Coord>, o: Offset): seq<Coord>
  {
    seq(|cells|, i requires 0 <= i < |cells| => Shift(cells[i], o))
  }

  /** No cell is listed twice. */
  predicate NoDuplicates(cells: seq<Coord>)
  {
    forall i, j :: 0 <= i < j < |cells| ==> cells[i] != cells[j]
  }

  /** Every cell lies inside the box from the origin to `max`. */
  predicate Within(m: Model)
  {
    forall i :: 0 <= i < |m.data| ==> LessEq(m.data[i], m.max)
  }

  /** On axis `a` some cell touches 0 and some cell touches the bound. */
  predicate TightOn(m: Model, a: Axis)
  {
    && (exists i :: 0 <= i < |m.data| && Get(m.data[i], a) == 0)
    && (exists i :: 0 <= i < |m.data| && Get(m.data[i], a) == Get(m.max, a))
  }

  /** The bounding box is the least one: tight on all three axes. */
  predicate Tight(m: Model)
  {
    TightOn(m, X) && TightOn(m, Y) && TightOn(m, Z)
  }

  /** Every cell after the first shares a face with an earlier one, so the
      cells form a single face-connected component. */
  predicate GrownConnected(cells: seq<Coord>)
  {
    forall i :: 0 < i < |cells| ==> TouchesEarlier(cells, i)
  }

  /** The cell at `i` shares a face with a cell listed before it. */
  predicate TouchesEarlier(cells: seq<Coord>, i: nat)
    requires i < |cells|
  {
    exists j :: 0 <= j < i && Adjacent(cells[j], cells[i])
  }

  /** The shape invariants: distinct cells inside a tight box, connected. */
  predicate WellFormed(m: Model)
  {
    NoDuplicates(m.data) && Within(m) && Tight(m) && GrownConnected(m.data)
  }

  /** A well-formed shape that can still grow by one on every axis without
      leaving the byte range. */
  predicate Growable(m: Model)
  {
    WellFormed(m) && m.max.x < 255 && m.max.y < 255 && m.max.z < 255
  }

  lemma SeedGrowable()
    ensures Growable(Seed)
  {
    assert Get(Seed.data[0], X) == 0 && Get(Seed.data[0], Y) == 0 && Get(Seed.data[0], Z) == 0;
  }

  /** Translating back by the negated offset restores the shape exactly,
      wrap-around included. */
  lemma TranslateRoundTrip(m: Model, o: Offset)
    requires o.dx != -128 && o.dy != -128 && o.dz != -128
    ensures Translate(Translate(m, o), Negate(o)) == m
  {
    var t := Translate(Translate(m, o), Negate(o));
    assert |t.data| == |m.data|;
    forall i | 0 <= i < |m.data|
      ensures t.data[i] == m.data[i]
    {
      ShiftRoundTrip(m.data[i], o);
    }
    ShiftRoundTrip(m.max, o);
  }

  lemma ShiftRoundTrip(c: Coord, o: Offset)
    requires o.dx != -128 && o.dy != -128 && o.dz != -128
    ensures Shift(Shift(c, o), Negate(o)) == c
  {
  }
}
