/** The growth operator `add_cube`: attach one cube to a face of a cell,
    renormalising the whole shape when the new cube would need a negative
    coordinate. */
module Growth {
  import opened Lattice
  import opened Shapes

  /** The direction points below 0 on an axis where the cell already sits
      at 0, so the new cube would need a negative coordinate. */
  predicate Renormalises(c: Coord, d: Direction)
  {
    var o := Step(d);
    (c.x == 0 && o.dx < 0) || (c.y == 0 && o.dy < 0) || (c.z == 0 && o.dz < 0)
  }

  /** The uniform shift growth applies to the existing cells: one step
      against `d` when renormalising, none otherwise. */
  function Renormalisation(c: Coord, d: Direction): Offset
  {
    if Renormalises(c, d) then Back(d) else Zero
  }

  /** The cube `add_cube` tries to place: at the cell's own (pre-shift)
      position when renormalising, one step along `d` otherwise. */
  function NewCell(c: Coord, d: Direction): Coord
  {
    if Renormalises(c, d) then c else Shift(c, Step(d))
  }

  /** `Model::add_cube`: grow `m` by one cube beside `c` in direction `d`,
      or `None` when that position is already occupied. */
  function AddCube(m: Model, c: Coord, d: Direction): (r: Option<Model>)
    ensures r.None? <==> NewCell(c, d) in Translate(m, Renormalisation(c, d)).data
    ensures r.Some? ==> r.value.data == Translate(m, Renormalisation(c, d)).data + [NewCell(c, d)]
  {
    if Renormalises(c, d) then
      var moved := Translate(m, Back(d));
      if c in moved.data then None else Some(Model(moved.max, moved.data + [c]))
    else
      var target := Shift(c, Step(d));
      if target in m.data then None else Some(Model(CoordMax(m.max, target), m.data + [target]))
  }

  /** The axis along which a direction points. */
  function AxisOf(d: Direction): Axis
  {
    match d
    case PlusX => X
    case MinusX => X
    case PlusY => Y
    case MinusY => Y
    case PlusZ => Z
    case MinusZ => Z
  }

  /** A coordinate raised by one on axis `a`, in plain integer arithmetic. */
  function Bump(c: Coord, a: Axis): (r: Coord)
    requires Get(c, a) < 255
    ensures Get(r, a) == Get(c, a) + 1
    ensures forall b: Axis :: b != a ==> Get(r, b) == Get(c, b)
  {
    match a
    case X => Coord(c.x + 1, c.y, c.z)
    case Y => Coord(c.x, c.y + 1, c.z)
    case Z => Coord(c.x, c.y, c.z + 1)
  }

  /** The seed grown in -x: the original cube moves to (1,0,0) and the new
      cube takes (0,0,0). */
  lemma SeedGrownMinusX()
    ensures AddCube(Seed, Coord(0, 0, 0), MinusX)
         == Some(Model(Coord(1, 0, 0), [Coord(1, 0, 0), Coord(0, 0, 0)]))
  {
    assert Renormalises(Coord(0, 0, 0), MinusX);
    assert Back(MinusX) == Offset(1, 0, 0);
    assert Shift(Coord(0, 0, 0), Offset(1, 0, 0)) == Coord(1, 0, 0);
    var moved := Translate(Seed, Back(MinusX));
    assert moved.max == Coord(1, 0, 0);
    assert moved.data == [Coord(1, 0, 0)];
    assert Coord(0, 0, 0) !in moved.data;
    assert moved.data + [Coord(0, 0, 0)] == [Coord(1, 0, 0), Coord(0, 0, 0)];
  }

  /** The renormalising branch: when the cell sits at 0 on the axis of a
      negative direction, the whole shape moves up by one on that axis, the
      new cube takes the cell's old position, and the attempt never fails. */
  lemma RenormalisingBranch(m: Model, c: Coord, d: Direction)
    requires Renormalises(c, d)
    requires Within(m) && Get(m.max, AxisOf(d)) < 255
    ensures AddCube(m, c, d).Some?
    ensures var r := AddCube(m, c, d).value;
      && |r.data| == |m.data| + 1
      && (forall i :: 0 <= i < |m.data| ==> r.data[i] == Bump(m.data[i], AxisOf(d)))
      && r.data[|m.data|] == c
      && r.max == Bump(m.max, AxisOf(d))
  {
    var a := AxisOf(d);
    var moved := Translate(m, Back(d));
    forall i | 0 <= i < |m.data|
      ensures moved.data[i] == Bump(m.data[i], a)
      ensures moved.data[i] != c
    {
      assert LessEq(m.data[i], m.max);
    }
    assert c !in moved.data;
  }

  /** The ordinary branch: the new cube is the face neighbour `c + d`, the
      attempt fails exactly when that cell is occupied, and on success the
      bound grows to cover it. */
  lemma NormalBranch(m: Model, c: Coord, d: Direction)
    requires !Renormalises(c, d)
    requires LessEq(c, m.max) && Get(m.max, AxisOf(d)) < 255
    ensures var t := Shift(c, Step(d));
      && NoWrap(c, Step(d))
      && Adjacent(c, t)
      && (AddCube(m, c, d).None? <==> t in m.data)
      && (AddCube(m, c, d).Some? ==>
            AddCube(m, c, d).value == Model(CoordMax(m.max, t), m.data + [t]))
  {
  }

  /** Growth keeps the shape invariants: a growable, well-formed shape grown
      at one of its cells gives a well-formed shape with exactly one more
      cell, whose old cells are the originals under one uniform shift and
      whose new cell touches one of them. */
  lemma AddCubePreserves(m: Model, c: Coord, d: Direction)
    requires Growable(m) && c in m.data
    requires AddCube(m, c, d).Some?
    ensures var r := AddCube(m, c, d).value;
      && WellFormed(r)
      && |r.data| == |m.data| + 1
      && r.data[..|m.data|] == Translate(m, Renormalisation(c, d)).data
      && exists j :: 0 <= j < |m.data| && Adjacent(r.data[j], r.data[|m.data|])
  {
    var n := |m.data|;
    var k :| 0 <= k < n && m.data[k] == c;
    assert LessEq(c, m.max);
    if Renormalises(c, d) {
      GrowRenormalising(m, c, d, k);
    } else {
      GrowNormal(m, c, d, k);
    }
  }

  lemma GrowRenormalising(m: Model, c: Coord, d: Direction, k: nat)
    requires Growable(m) && k < |m.data| && m.data[k] == c
    requires Renormalises(c, d)
    ensures AddCube(m, c, d).Some?
    ensures var r := AddCube(m, c, d).value;
      && WellFormed(r)
      && |r.data| == |m.data| + 1
      && Adjacent(r.data[k], r.data[|m.data|])
  {
    var a := AxisOf(d);
    RenormalisingBranch(m, c, d);
    assert Get(c, a) == 0 by { AxisOfRenormalisation(c, d); }
    BumpedWellFormed(m, a, c, k, AddCube(m, c, d).value);
  }

  lemma GrowNormal(m: Model, c: Coord, d: Direction, k: nat)
    requires Growable(m) && k < |m.data| && m.data[k] == c
    requires !Renormalises(c, d) && AddCube(m, c, d).Some?
    ensures var r := AddCube(m, c, d).value;
      && WellFormed(r)
      && |r.data| == |m.data| + 1
      && Adjacent(r.data[k], r.data[|m.data|])
  {
    assert LessEq(c, m.max);
    NormalBranch(m, c, d);
    ExtendedWellFormed(m, k, Shift(c, Step(d)), AddCube(m, c, d).value);
  }

  /** The renormalising branch fires only on the axis of the direction. */
  lemma AxisOfRenormalisation(c: Coord, d: Direction)
    requires Renormalises(c, d)
    ensures Get(c, AxisOf(d)) == 0
  {
  }

  /** A shape with every cell moved up by one on axis `a`, plus the cell
      `c` that sat at 0 on that axis, is well formed again. */
  lemma BumpedWellFormed(m: Model, a: Axis, c: Coord, k: nat, r: Model)
    requires WellFormed(m) && Get(m.max, a) < 255
    requires k < |m.data| && m.data[k] == c && Get(c, a) == 0
    requires |r.data| == |m.data| + 1
    requires forall i :: 0 <= i < |m.data| ==> r.data[i] == Bump(m.data[i], a)
    requires r.data[|m.data|] == c && r.max == Bump(m.max, a)
    ensures WellFormed(r)
    ensures Adjacent(r.data[k], r.data[|m.data|])
  {
    BumpedDistinct(m, a, c, r);
    BumpedConnected(m, a, c, k, r);
    BumpedWithin(m, a, c, r);
    BumpedTightOn(m, a, c, r, X);
    BumpedTightOn(m, a, c, r, Y);
    BumpedTightOn(m, a, c, r, Z);
  }

  lemma BumpedDistinct(m: Model, a: Axis, c: Coord, r: Model)
    requires NoDuplicates(m.data) && Within(m) && Get(m.max, a) < 255 && Get(c, a) == 0
    requires |r.data| == |m.data| + 1
    requires forall i :: 0 <= i < |m.data| ==> r.data[i] == Bump(m.data[i], a)
    requires r.data[|m.data|] == c
    ensures NoDuplicates(r.data)
  {
    var n := |m.data|;
    forall i, j | 0 <= i < j < |r.data|
      ensures r.data[i] != r.data[j]
    {
      assert LessEq(m.data[i], m.max);
      if j < n {
        assert LessEq(m.data[j], m.max);
        BumpKeepsGeometry(m.data[i], m.data[j], a);
      } else {
        assert Get(r.data[i], a) == Get(m.data[i], a) + 1;
      }
    }
  }

  lemma BumpedConnected(m: Model, a: Axis, c: Coord, k: nat, r: Model)
    requires GrownConnected(m.data) && Within(m) && Get(m.max, a) < 255
    requires k < |m.data| && m.data[k] == c && Get(c, a) == 0
    requires |r.data| == |m.data| + 1
    requires forall i :: 0 <= i < |m.data| ==> r.data[i] == Bump(m.data[i], a)
    requires r.data[|m.data|] == c
    ensures GrownConnected(r.data)
    ensures Adjacent(r.data[k], r.data[|m.data|])
  {
    var n := |m.data|;
    assert LessEq(c, m.max);
    assert Adjacent(r.data[k], r.data[n]) by {
      assert r.data[k] == Bump(c, a);
    }
    forall i | 0 < i < |r.data|
      ensures TouchesEarlier(r.data, i)
    {
      if i < n {
        assert TouchesEarlier(m.data, i);
        var j :| 0 <= j < i && Adjacent(m.data[j], m.data[i]);
        assert LessEq(m.data[i], m.max) && LessEq(m.data[j], m.max);
        BumpKeepsGeometry(m.data[j], m.data[i], a);
      }
    }
  }

  lemma BumpedWithin(m: Model, a: Axis, c: Coord, r: Model)
    requires Within(m) && Get(m.max, a) < 255 && c in m.data
    requires |r.data| == |m.data| + 1
    requires forall i :: 0 <= i < |m.data| ==> r.data[i] == Bump(m.data[i], a)
    requires r.data[|m.data|] == c && r.max == Bump(m.max, a)
    ensures Within(r)
  {
    var n := |m.data|;
    forall i | 0 <= i < |r.data|
      ensures LessEq(r.data[i], r.max)
    {
      if i < n {
        assert LessEq(m.data[i], m.max);
        BumpKeepsOrder(m.data[i], m.max, a);
      } else {
        assert LessEq(c, m.max);
        BumpKeepsOrder(c, m.max, a);
      }
    }
  }

  lemma BumpKeepsGeometry(p: Coord, q: Coord, a: Axis)
    requires Get(p, a) < 255 && Get(q, a) < 255
    ensures Bump(p, a) == Bump(q, a) <==> p == q
    ensures Adjacent(Bump(p, a), Bump(q, a)) <==> Adjacent(p, q)
  {
  }

  lemma BumpKeepsOrder(p: Coord, q: Coord, a: Axis)
    requires LessEq(p, q) && Get(q, a) < 255
    ensures LessEq(Bump(p, a), Bump(q, a))
    ensures LessEq(p, Bump(q, a))
  {
  }

  lemma BumpedTightOn(m: Model, a: Axis, c: Coord, r: Model, b: Axis)
    requires Within(m) && Tight(m) && Get(m.max, a) < 255 && Get(c, a) == 0
    requires |r.data| == |m.data| + 1
    requires forall i :: 0 <= i < |m.data| ==> r.data[i] == Bump(m.data[i], a)
    requires r.data[|m.data|] == c && r.max == Bump(m.max, a)
    requires c in m.data
    ensures TightOn(r, b)
  {
    var n := |m.data|;
    assert TightOn(m, b) by { assert b == X || b == Y || b == Z; }
    var lo :| 0 <= lo < n && Get(m.data[lo], b) == 0;
    var hi :| 0 <= hi < n && Get(m.data[hi], b) == Get(m.max, b);
    assert LessEq(m.data[hi], m.max);
    assert Get(r.data[hi], b) == Get(r.max, b);
    if b == a {
      assert Get(r.data[n], b) == 0;
    } else {
      assert LessEq(m.data[lo], m.max);
      assert Get(r.data[lo], b) == 0;
    }
  }

  /** A well-formed shape with a free face neighbour `t` of its cell `k`
      appended, and the bound widened to cover it, is well formed again. */
  lemma ExtendedWellFormed(m: Model, k: nat, t: Coord, r: Model)
    requires WellFormed(m) && k < |m.data|
    requires t !in m.data && Adjacent(m.data[k], t)
    requires r == Model(CoordMax(m.max, t), m.data + [t])
    ensures WellFormed(r)
    ensures Adjacent(r.data[k], r.data[|m.data|])
  {
    ExtendedDistinct(m.data, t);
    ExtendedConnected(m.data, k, t, r.data);
    ExtendedWithin(m, t, r);
    ExtendedTightOn(m, t, r, X);
    ExtendedTightOn(m, t, r, Y);
    ExtendedTightOn(m, t, r, Z);
  }

  lemma ExtendedDistinct(cells: seq<Coord>, t: Coord)
    requires NoDuplicates(cells) && t !in cells
    ensures NoDuplicates(cells + [t])
  {
    var s := cells + [t];
    forall i, j | 0 <= i < j < |s|
      ensures s[i] != s[j]
    {
      if j == |cells| {
        assert s[i] == cells[i];
      }
    }
  }

  lemma ExtendedConnected(cells: seq<Coord>, k: nat, t: Coord, s: seq<Coord>)
    requires GrownConnected(cells) && k < |cells| && Adjacent(cells[k], t)
    requires s == cells + [t]
    ensures GrownConnected(s)
    ensures Adjacent(s[k], s[|cells|])
  {
    var n := |cells|;
    forall i | 0 < i < |s|
      ensures TouchesEarlier(s, i)
    {
      if i == n {
        assert s[k] == cells[k] && s[i] == t;
        assert Adjacent(s[k], s[i]);
      } else {
        assert TouchesEarlier(cells, i);
        var j :| 0 <= j < i && Adjacent(cells[j], cells[i]);
        assert s[j] == cells[j] && s[i] == cells[i];
        assert Adjacent(s[j], s[i]);
      }
    }
  }

  lemma ExtendedWithin(m: Model, t: Coord, r: Model)
    requires Within(m)
    requires r == Model(CoordMax(m.max, t), m.data + [t])
    ensures Within(r)
  {
    forall i | 0 <= i < |r.data|
      ensures LessEq(r.data[i], r.max)
    {
      if i < |m.data| {
        assert LessEq(m.data[i], m.max);
      }
    }
  }

  lemma ExtendedTightOn(m: Model, t: Coord, r: Model, b: Axis)
    requires Tight(m)
    requires r == Model(CoordMax(m.max, t), m.data + [t])
    ensures TightOn(r, b)
  {
    var n := |m.data|;
    assert TightOn(m, b) by { assert b == X || b == Y || b == Z; }
    var lo :| 0 <= lo < n && Get(m.data[lo], b) == 0;
    var hi :| 0 <= hi < n && Get(m.data[hi], b) == Get(m.max, b);
    assert r.data[lo] == m.data[lo] && r.data[hi] == m.data[hi] && r.data[n] == t;
    if Get(r.max, b) != Get(m.max, b) {
      assert Get(r.data[n], b) == Get(r.max, b);
    }
  }

  /** A well-formed shape whose box already spans all 256 values on the x
      axis: the line (0,0,0) .. (255,0,0) with one cube on top of its first
      cell. */
  const WrapWitness: Model :=
    Model(Coord(255, 1, 0), seq(256, i requires 0 <= i < 256 => Coord(i, 0, 0)) + [Coord(0, 1, 0)])

  lemma WrapWitnessWellFormed()
    ensures WellFormed(WrapWitness) && !Growable(WrapWitness)
  {
    var s := WrapWitness.data;
    assert |s| == 257 && s[256] == Coord(0, 1, 0);
    assert forall i :: 0 <= i < 256 ==> s[i] == Coord(i, 0, 0);
    forall i | 0 < i < |s|
      ensures TouchesEarlier(s, i)
    {
      if i < 256 {
        assert Adjacent(s[i - 1], s[i]);
      } else {
        assert Adjacent(s[0], s[i]);
      }
    }
    assert Get(s[0], X) == 0 && Get(s[255], X) == 255;
    assert Get(s[0], Y) == 0 && Get(s[256], Y) == 1;
    assert Get(s[0], Z) == 0;
  }

  /** Without the bound below 255 growth can leave the box: growing the
      top cube in -x shifts the whole shape up by one on x, the bound's 255
      wraps to 0 while the cell at x = 254 moves to 255. */
  lemma WrapBreaksBox()
    ensures AddCube(WrapWitness, Coord(0, 1, 0), MinusX).Some?
    ensures !Within(AddCube(WrapWitness, Coord(0, 1, 0), MinusX).value)
  {
    var m := WrapWitness;
    var c := Coord(0, 1, 0);
    assert Renormalises(c, MinusX);
    var moved := Translate(m, Back(MinusX));
    assert Back(MinusX) == Offset(1, 0, 0);
    forall i | 0 <= i < |moved.data|
      ensures moved.data[i] != c
    {
      if i < 256 {
        assert m.data[i] == Coord(i, 0, 0);
      } else {
        assert m.data[i] == c;
      }
    }
    assert moved.max == Coord(0, 1, 0);
    assert m.data[254] == Coord(254, 0, 0);
    assert moved.data[254] == Coord(255, 0, 0);
    var r := AddCube(m, c, MinusX).value;
    assert r.data[254] == Coord(255, 0, 0) && r.max == Coord(0, 1, 0);
  }
}
