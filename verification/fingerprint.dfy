/** The canonical fingerprint `Model::hash`: for each of the 24 remaps the
    XOR of a per-cell hash over the remapped cells, and the least of those
    digests. The per-cell hash (the standard library's `DefaultHasher`) is
    the parameter `h`, so every fact here holds for any per-cell hash. */
module Fingerprint {
  import opened Lattice
  import opened Shapes
  import opened Remaps
  import opened Words

  /** `hash_coords`: the per-cell hashes folded with XOR from 0, in order. */
  function HashCoords(h: Coord -> U64, coords: seq<Coord>): (r: U64)
    ensures |coords| == 0 ==> r == 0
    ensures |coords| == 1 ==> r == h(coords[0])
  {
    if |coords| == 0 then 0
    else
      XorZero(h(coords[0]));
      XorWord(HashCoords(h, coords[..|coords| - 1]), h(coords[|coords| - 1]))
  }

  /** Dropping the element at `i` removes exactly its hash from the fold. */
  lemma {:induction false} HashCoordsRemove(h: Coord -> U64, coords: seq<Coord>, i: nat)
    requires i < |coords|
    ensures HashCoords(h, coords) == XorWord(HashCoords(h, coords[..i] + coords[i + 1..]), h(coords[i]))
    decreases |coords|
  {
    var n := |coords|;
    var rest := coords[..i] + coords[i + 1..];
    if i == n - 1 {
      assert rest == coords[..n - 1];
    } else {
      var front := coords[..n - 1];
      HashCoordsRemove(h, front, i);
      assert front[..i] + front[i + 1..] == rest[..|rest| - 1];
      assert rest[|rest| - 1] == coords[n - 1];
      assert front[i] == coords[i];
      XorSwap(HashCoords(h, rest[..|rest| - 1]), h(coords[i]), h(coords[n - 1]));
    }
  }

  /** The XOR fold does not depend on the order of the coordinates: any two
      lists with the same elements, counted with multiplicity, agree. */
  lemma {:induction false} HashCoordsOrderFree(h: Coord -> U64, a: seq<Coord>, b: seq<Coord>)
    requires multiset(a) == multiset(b)
    ensures HashCoords(h, a) == HashCoords(h, b)
    decreases |a|
  {
    if |a| == 0 {
      assert |b| == |multiset(b)| == 0;
    } else {
      var n := |a|;
      var i := MatchLast(a, b);
      var b' := b[..i] + b[i + 1..];
      HashCoordsOrderFree(h, a[..n - 1], b');
      HashCoordsRemove(h, b, i);
    }
  }

  /** Removing the element at `i` removes one copy of it from the multiset. */
  lemma RemoveAt(s: seq<Coord>, i: nat)
    requires i < |s|
    ensures multiset(s[..i] + s[i + 1..]) == multiset(s) - multiset{s[i]}
  {
    assert s == s[..i] + [s[i]] + s[i + 1..];
  }

  /** The last element of `a` occurs in a permutation `b` of it, and what
      remains of either list after removing it is again a permutation. */
  lemma MatchLast(a: seq<Coord>, b: seq<Coord>) returns (i: nat)
    requires |a| > 0 && multiset(a) == multiset(b)
    ensures i < |b| && b[i] == a[|a| - 1]
    ensures multiset(a[..|a| - 1]) == multiset(b[..i] + b[i + 1..])
  {
    var n := |a|;
    assert a[n - 1] in multiset(b);
    i :| 0 <= i < |b| && b[i] == a[n - 1];
    RemoveAt(a, n - 1);
    RemoveAt(b, i);
    assert a[..n - 1] + a[n..] == a[..n - 1];
  }

  /** The digest of a shape under one remap. */
  function Digest(h: Coord -> U64, m: Model, r: Remap): U64
  {
    HashCoords(h, Rotate(r, m).data)
  }

  /** The digests of a shape under the 24 remaps, in the order tried. */
  function Digests(h: Coord -> U64, m: Model): (ds: seq<U64>)
    ensures |ds| == |Rotations|
    ensures forall k :: 0 <= k < |Rotations| ==> ds[k] == Digest(h, m, Rotations[k])
  {
    seq(|Rotations|, k requires 0 <= k < |Rotations| => Digest(h, m, Rotations[k]))
  }

  /** `Model::hash`: the least digest over all 24 remaps. */
  function Hash(h: Coord -> U64, m: Model): (r: U64)
    ensures forall k :: 0 <= k < |Rotations| ==> r <= Digest(h, m, Rotations[k])
    ensures exists k :: 0 <= k < |Rotations| && r == Digest(h, m, Rotations[k])
  {
    MinOf(Digests(h, m), |Rotations|)
  }

  /** The digest of a rotated shape under `s` is the digest of the original
      under the composite remap. */
  lemma DigestOfRotated(h: Coord -> U64, m: Model, r: Remap, s: Remap)
    ensures Digest(h, Rotate(r, m), s) == Digest(h, m, Compose(s, r))
  {
    RotateCompose(s, r, m);
  }

  /** The fingerprint is the same for a shape and for every rotation of it
      among the 24: the shape with cells `R(p)` and the permuted bound. */
  lemma HashRotationInvariant(h: Coord -> U64, m: Model, r: Remap)
    requires r in Rotations
    ensures Hash(h, Rotate(r, m)) == Hash(h, m)
  {
    var m' := Rotate(r, m);
    HashAtMostRotated(h, m, r);
    RotationsHaveInverses(r);
    RotateCompose(Inverse(r), r, m);
    RotateIdentity(m);
    HashAtMostRotated(h, m', Inverse(r));
  }

  /** Every digest of a rotated shape is a digest of the original, so the
      original's fingerprint is no larger. */
  lemma HashAtMostRotated(h: Coord -> U64, m: Model, r: Remap)
    requires r in Rotations
    ensures Hash(h, m) <= Hash(h, Rotate(r, m))
  {
    var m' := Rotate(r, m);
    var k :| 0 <= k < |Rotations| && Hash(h, m') == Digest(h, m', Rotations[k]);
    DigestOfRotated(h, m, r, Rotations[k]);
    RotationsClosed(Rotations[k], r);
    var j :| 0 <= j < |Rotations| && Rotations[j] == Compose(Rotations[k], r);
    assert Hash(h, m') == Digest(h, m, Rotations[j]);
  }

  /** The fingerprint ignores the order of the cell list. */
  lemma HashIgnoresOrder(h: Coord -> U64, a: Model, b: Model)
    requires a.max == b.max && multiset(a.data) == multiset(b.data)
    ensures Hash(h, a) == Hash(h, b)
  {
    forall k | 0 <= k < |Rotations|
      ensures Digests(h, a)[k] == Digests(h, b)[k]
    {
      var r := Rotations[k];
      RotatePreservesMultiset(r, a, b);
      HashCoordsOrderFree(h, Rotate(r, a).data, Rotate(r, b).data);
    }
    assert Digests(h, a) == Digests(h, b);
  }

  lemma RotatePreservesMultiset(r: Remap, a: Model, b: Model)
    requires a.max == b.max && multiset(a.data) == multiset(b.data)
    ensures multiset(Rotate(r, a).data) == multiset(Rotate(r, b).data)
  {
    MapPreservesMultiset(x => Apply(r, a.max, x), a.data, b.data);
    assert Rotate(r, a).data == MapCells(x => Apply(r, a.max, x), a.data);
    assert Rotate(r, b).data == MapCells(x => Apply(r, a.max, x), b.data);
  }

  function MapCells(f: Coord -> Coord, cells: seq<Coord>): seq<Coord>
  {
    seq(|cells|, i requires 0 <= i < |cells| => f(cells[i]))
  }

  /** Mapping a function over two lists that are permutations of each other
      gives two lists that are again permutations of each other. */
  lemma {:induction false} MapPreservesMultiset(f: Coord -> Coord, a: seq<Coord>, b: seq<Coord>)
    requires multiset(a) == multiset(b)
    ensures multiset(MapCells(f, a)) == multiset(MapCells(f, b))
    decreases |a|
  {
    if |a| == 0 {
      assert |b| == |multiset(b)| == 0;
    } else {
      var n := |a|;
      var i := MatchLast(a, b);
      var b' := b[..i] + b[i + 1..];
      MapPreservesMultiset(f, a[..n - 1], b');
      assert a[..n - 1] + a[n..] == a[..n - 1];
      MapAddBack(f, a, b, n - 1, i);
    }
  }

  /** The inductive step: lists that agree once the matching elements at `i`
      and `j` are removed agree once mapped. */
  lemma MapAddBack(f: Coord -> Coord, a: seq<Coord>, b: seq<Coord>, i: nat, j: nat)
    requires i < |a| && j < |b| && a[i] == b[j]
    requires multiset(MapCells(f, a[..i] + a[i + 1..])) == multiset(MapCells(f, b[..j] + b[j + 1..]))
    ensures multiset(MapCells(f, a)) == multiset(MapCells(f, b))
  {
    var fa, fb := MapCells(f, a), MapCells(f, b);
    MapRemoveAt(f, a, i);
    MapRemoveAt(f, b, j);
    RemoveAt(fa, i);
    RemoveAt(fb, j);
    AddBack(multiset(fa), multiset(fb), f(a[i]));
  }

  /** Mapping commutes with removing the element at `i`. */
  lemma MapRemoveAt(f: Coord -> Coord, s: seq<Coord>, i: nat)
    requires i < |s|
    ensures MapCells(f, s[..i] + s[i + 1..]) == MapCells(f, s)[..i] + MapCells(f, s)[i + 1..]
  {
  }

  /** Two multisets that both hold `y` and agree once one copy is removed
      are equal. */
  lemma AddBack(p: multiset<Coord>, q: multiset<Coord>, y: Coord)
    requires y in p && y in q && p - multiset{y} == q - multiset{y}
    ensures p == q
  {
    assert p == (p - multiset{y}) + multiset{y};
    assert q == (q - multiset{y}) + multiset{y};
  }
}
