/** The 24 coordinate remaps of `Model::hash`. Each output component reads
    one source axis, either as is or reflected about the bound
    (`max.k - p.k`); a remap is therefore a signed axis permutation, and the
    24 listed ones are exactly the proper rotations of the cube. */
module Remaps {
  import opened Lattice
  import opened Shapes

  /** One output component: the source axis it reads and whether it
      reflects that axis about the bound. */
  datatype Pick = Pick(axis: Axis, flip: bool)

  /** A remap: the picks for output x, y and z. */
  datatype Remap = Remap(px: Pick, py: Pick, pz: Pick)

  function Keep(a: Axis): Pick { Pick(a, false) }
  function Mirror(a: Axis): Pick { Pick(a, true) }

  function PickOf(r: Remap, k: Axis): Pick
  {
    match k
    case X => r.px
    case Y => r.py
    case Z => r.pz
  }

  /** One output component of a remapped cell: `p.k` or `max.k - p.k`, the
      latter a `u8` subtraction. */
  function Read(pk: Pick, bound: Coord, p: Coord): Byte
  {
    if pk.flip then WrapSub(Get(bound, pk.axis), Get(p, pk.axis)) else Get(p, pk.axis)
  }

  function Apply(r: Remap, bound: Coord, p: Coord): Coord
  {
    Coord(Read(r.px, bound, p), Read(r.py, bound, p), Read(r.pz, bound, p))
  }

  /** The bound of a remapped shape: the bound's components permuted. */
  function PermBound(r: Remap, bound: Coord): Coord
  {
    Coord(Get(bound, r.px.axis), Get(bound, r.py.axis), Get(bound, r.pz.axis))
  }

  /** A shape seen through a remap: every cell remapped, in the same order,
      inside the permuted bound. */
  function Rotate(r: Remap, m: Model): (t: Model)
    ensures |t.data| == |m.data|
    ensures forall i :: 0 <= i < |m.data| ==> t.data[i] == Apply(r, m.max, m.data[i])
  {
    Model(PermBound(r, m.max), seq(|m.data|, i requires 0 <= i < |m.data| => Apply(r, m.max, m.data[i])))
  }

  /** The remaps of `Model::hash`, in the order it tries them. */
  const Rotations: seq<Remap> := [
    Remap(Keep(X), Keep(Y), Keep(Z)),
    Remap(Keep(X), Mirror(Z), Keep(Y)),
    Remap(Keep(X), Mirror(Y), Mirror(Z)),
    Remap(Keep(X), Keep(Z), Mirror(Y)),
    Remap(Mirror(X), Keep(Y), Mirror(Z)),
    Remap(Mirror(X), Keep(Z), Keep(Y)),
    Remap(Mirror(X), Mirror(Y), Keep(Z)),
    Remap(Mirror(X), Mirror(Z), Mirror(Y)),
    Remap(Keep(Y), Keep(X), Mirror(Z)),
    Remap(Keep(Y), Keep(Z), Keep(X)),
    Remap(Keep(Y), Mirror(X), Keep(Z)),
    Remap(Keep(Y), Mirror(Z), Mirror(X)),
    Remap(Mirror(Y), Keep(X), Keep(Z)),
    Remap(Mirror(Y), Mirror(Z), Keep(X)),
    Remap(Mirror(Y), Mirror(X), Mirror(Z)),
    Remap(Mirror(Y), Keep(Z), Mirror(X)),
    Remap(Keep(Z), Keep(Y), Mirror(X)),
    Remap(Keep(Z), Keep(X), Keep(Y)),
    Remap(Keep(Z), Mirror(Y), Keep(X)),
    Remap(Keep(Z), Mirror(X), Mirror(Y)),
    Remap(Mirror(Z), Keep(Y), Keep(X)),
    Remap(Mirror(Z), Mirror(X), Keep(Y)),
    Remap(Mirror(Z), Mirror(Y), Mirror(X)),
    Remap(Mirror(Z), Keep(X), Mirror(Y))
  ]

  /** The three outputs read three different source axes. */
  predicate IsPermutation(r: Remap)
  {
    r.px.axis != r.py.axis && r.py.axis != r.pz.axis && r.px.axis != r.pz.axis
  }

  /** The sign of the axis permutation: +1 for the cyclic ones. */
  function PermSign(r: Remap): int
  {
    var t := (r.px.axis, r.py.axis, r.pz.axis);
    if t == (X, Y, Z) || t == (Y, Z, X) || t == (Z, X, Y) then 1 else -1
  }

  function FlipSign(pk: Pick): int
  {
    if pk.flip then -1 else 1
  }

  /** The determinant of the remap's signed permutation matrix. */
  function Det(r: Remap): int
  {
    PermSign(r) * FlipSign(r.px) * FlipSign(r.py) * FlipSign(r.pz)
  }

  /** A proper rotation: a signed permutation with determinant +1. */
  predicate IsRotation(r: Remap)
  {
    IsPermutation(r) && Det(r) == 1
  }

  /** `s` after `r`: the single remap with the effect of applying `r` and
      then `s` to the remapped shape. */
  function Compose(s: Remap, r: Remap): Remap
  {
    Remap(Then(s.px, r), Then(s.py, r), Then(s.pz, r))
  }

  function Then(pk: Pick, r: Remap): Pick
  {
    var q := PickOf(r, pk.axis);
    Pick(q.axis, pk.flip != q.flip)
  }

  const Identity: Remap := Remap(Keep(X), Keep(Y), Keep(Z))

  /** The output axis that reads source axis `k`. */
  function Source(r: Remap, k: Axis): Axis
  {
    if r.px.axis == k then X else if r.py.axis == k then Y else Z
  }

  function InversePick(r: Remap, k: Axis): Pick
  {
    var i := Source(r, k);
    Pick(i, PickOf(r, i).flip)
  }

  /** The remap undoing `r`. */
  function Inverse(r: Remap): Remap
  {
    Remap(InversePick(r, X), InversePick(r, Y), InversePick(r, Z))
  }

  /** Every listed remap is a proper rotation, and there are 24 of them. */
  lemma ListedAreRotations()
    ensures |Rotations| == 24
    ensures forall k :: 0 <= k < |Rotations| ==> IsRotation(Rotations[k])
  {
  }

  /** Every proper rotation is listed: the list is the whole rotation group
      of the cube, with no reflection in it. */
  lemma RotationsAreListed(r: Remap)
    requires IsRotation(r)
    ensures r in Rotations
  {
  }

  /** The composite of two proper rotations is a proper rotation. */
  lemma ComposeRotations(s: Remap, r: Remap)
    requires IsRotation(s) && IsRotation(r)
    ensures IsRotation(Compose(s, r))
  {
  }

  /** The inverse of a proper rotation is one, and it undoes it. */
  lemma InverseRotation(r: Remap)
    requires IsRotation(r)
    ensures IsRotation(Inverse(r))
    ensures Compose(Inverse(r), r) == Identity
  {
  }

  /** The listed remaps are closed under composition. */
  lemma RotationsClosed(s: Remap, r: Remap)
    requires s in Rotations && r in Rotations
    ensures exists j :: 0 <= j < |Rotations| && Rotations[j] == Compose(s, r)
  {
    ListedAreRotations();
    ComposeRotations(s, r);
    RotationsAreListed(Compose(s, r));
  }

  /** Each listed remap has its inverse among the listed ones. */
  lemma RotationsHaveInverses(r: Remap)
    requires r in Rotations
    ensures Inverse(r) in Rotations
    ensures Compose(Inverse(r), r) == Identity
  {
    ListedAreRotations();
    InverseRotation(r);
    RotationsAreListed(Inverse(r));
  }

  /** The identity remap leaves a shape unchanged. */
  lemma RotateIdentity(m: Model)
    ensures Rotate(Identity, m) == m
  {
    var t := Rotate(Identity, m);
    assert t.data == m.data;
  }

  /** Remapping a remapped cell is remapping by the composite; the bound
      follows along. */
  lemma ApplyCompose(s: Remap, r: Remap, bound: Coord, p: Coord)
    ensures Apply(s, PermBound(r, bound), Apply(r, bound, p)) == Apply(Compose(s, r), bound, p)
    ensures PermBound(s, PermBound(r, bound)) == PermBound(Compose(s, r), bound)
  {
    ReadThen(s.px, r, bound, p);
    ReadThen(s.py, r, bound, p);
    ReadThen(s.pz, r, bound, p);
  }

  /** One output axis of a composite: reading the remapped cell through
      `pk` is reading the original through `Then(pk, r)`. */
  lemma ReadThen(pk: Pick, r: Remap, bound: Coord, p: Coord)
    ensures Read(pk, PermBound(r, bound), Apply(r, bound, p)) == Read(Then(pk, r), bound, p)
    ensures Get(PermBound(r, bound), pk.axis) == Get(bound, Then(pk, r).axis)
  {
    var q := PickOf(r, pk.axis);
    assert Get(Apply(r, bound, p), pk.axis) == Read(q, bound, p);
    assert Get(PermBound(r, bound), pk.axis) == Get(bound, q.axis);
  }

  /** Rotating a rotated shape is rotating by the composite. */
  lemma RotateCompose(s: Remap, r: Remap, m: Model)
    ensures Rotate(s, Rotate(r, m)) == Rotate(Compose(s, r), m)
  {
    var a := Rotate(s, Rotate(r, m));
    var b := Rotate(Compose(s, r), m);
    forall i | 0 <= i < |m.data|
      ensures a.data[i] == b.data[i]
    {
      ApplyCompose(s, r, m.max, m.data[i]);
    }
    ApplyCompose(s, r, m.max, Coord(0, 0, 0));
  }

  /** No `max.k - p.k` in `Model::hash` underflows when every cell lies in
      the box: each reflected component is the true difference. */
  lemma NoUnderflow(r: Remap, m: Model, i: nat, k: Axis)
    requires Within(m) && i < |m.data|
    ensures var pk := PickOf(r, k);
      pk.flip ==> && Get(m.data[i], pk.axis) <= Get(m.max, pk.axis)
                  && Read(pk, m.max, m.data[i]) == Get(m.max, pk.axis) - Get(m.data[i], pk.axis)
  {
    assert LessEq(m.data[i], m.max);
  }

  /** Each remap that permutes the axes maps the cells of a shape
      injectively into the box of the permuted bound. */
  lemma RotateIntoBox(r: Remap, m: Model)
    requires IsPermutation(r) && Within(m)
    ensures Within(Rotate(r, m))
    ensures NoDuplicates(m.data) ==> NoDuplicates(Rotate(r, m).data)
  {
    var t := Rotate(r, m);
    forall i | 0 <= i < |m.data|
      ensures LessEq(t.data[i], t.max)
    {
      assert LessEq(m.data[i], m.max);
    }
    forall i, j | 0 <= i < j < |m.data| && t.data[i] == t.data[j]
      ensures m.data[i] == m.data[j]
    {
      ApplyInjective(r, m.max, m.data[i], m.data[j]);
    }
  }

  lemma ApplyInjective(r: Remap, bound: Coord, p: Coord, q: Coord)
    requires IsPermutation(r)
    requires Apply(r, bound, p) == Apply(r, bound, q)
    ensures p == q
  {
    ReadInjective(r.px, bound, p, q);
    ReadInjective(r.py, bound, p, q);
    ReadInjective(r.pz, bound, p, q);
  }

  lemma ReadInjective(pk: Pick, bound: Coord, p: Coord, q: Coord)
    requires Read(pk, bound, p) == Read(pk, bound, q)
    ensures Get(p, pk.axis) == Get(q, pk.axis)
  {
  }
}
