# Polycube enumeration engine

A model of the polycube enumerator in `src/main.rs`. The program counts
polycubes one generation at a time. A generation is a map from a 64-bit
fingerprint to a shape. The next generation is built like this:

1. Every shape is grown by one cube on every face of every cell.
2. Each result is filed under its fingerprint.
3. Shapes that are rotations of one another get the same fingerprint, so
   they collapse into one entry.

The model has the following modules:

- `Lattice` holds byte coordinates (`Coord`), signed offsets, the six growth
  directions, and the wrapping byte arithmetic of `u8::wrapping_add_signed`
  and of `u8` subtraction.
- `Shapes` holds the shape value `Model`, which is a bound `max` plus an
  ordered cell list `data`. It also holds the seed built by `Default`,
  `translate`, and the invariants that growth keeps:
  - no duplicate cells;
  - every cell inside the box from the origin to `max`;
  - the box is tight on every axis;
  - every cell touches an earlier one.
- `Growth` holds `add_cube` with its renormalising branch and its ordinary
  branch.
- `Remaps` holds the 24 coordinate remaps of `Model::hash`. Each remap is
  an axis permutation plus a choice of reflected axes, and reads its values
  from the bound. The module also proves that these 24 remaps are exactly
  the proper rotations of the cube and that they form a group.
- `Words` holds `u64` values, exclusive or, and the running minimum.
- `Fingerprint` holds `hash_coords` and `Model::hash`.
- `Generation` holds `add_cubes`, with its `insert` closure and its
  cell-by-direction loops, and `next`.
- `Dominoes` works out the second generation: the seed's six growths all
  share one fingerprint.

Two parts of the program are parameters of the model:

- The per-cell hash (`DefaultHasher` over a coordinate) is the parameter
  `h: Coord -> U64`. Every fingerprint fact holds for every choice of `h`.
- The order in which `next` visits the previous generation (`HashMap`
  iteration order) is an unspecified choice. `Next` proves its result for
  every visiting order.

## Model

| member | source | states |
|---|---|---|
| Lattice.WrapIsModular | src/main.rs:31-33 | `wrapping_add_signed` on a byte is addition modulo 256, and `u8` subtraction without overflow checks is subtraction modulo 256 |
| Lattice.CoordMax | src/main.rs:71-75 | the componentwise `u8::max` bounds both arguments, and on each axis it equals one of them |
| Lattice.Step | src/main.rs:91-96 | each of the six offsets that `add_cubes` passes is a unit step along exactly one axis |
| Shapes.Translate | src/main.rs:28-47 | translating keeps the number and order of the cells; where nothing leaves 0..255, every cell and the bound move by exactly the offset |
| Shapes.TranslateRoundTrip | src/main.rs:28-47 | translating by an offset and then by its negation restores the shape exactly, even when some coordinate wrapped |
| Shapes.SeedGrowable | src/main.rs:18-25 | the single cube at the origin with bound (0,0,0) satisfies every shape invariant and can grow on every axis |
| Growth.SeedGrownMinusX | src/main.rs:49-58 | the seed grown in -x is `[(1,0,0),(0,0,0)]` with bound (1,0,0) |
| Growth.RenormalisingBranch | src/main.rs:49-58 | when the direction is negative on an axis where the cell is at 0, every cell and the bound move +1 on that axis, the new cube takes the cell's old position, and the `contains` check always fails, so the result is always `Some` |
| Growth.NormalBranch | src/main.rs:60-80 | otherwise the new cube is the face neighbour `c + d`; the result is `None` exactly when that cell is occupied, and is otherwise the old cells plus the neighbour, with the componentwise maximum as bound |
| Growth.AddCubePreserves | src/main.rs:48-81 | growing a well-formed shape whose bound is below 255 on every axis gives a well-formed shape with exactly one more cell; the old cells are the originals under one uniform shift, and the new cell touches one of them |
| Growth.WrapWitnessWellFormed | src/main.rs:12-16 | the 257-cube shape `Growth.WrapWitness` (a line of 256 cubes along x with one cube on its first) is well-formed, and its bound reaches 255 on x |
| Growth.WrapBreaksBox | src/main.rs:31-33 | growing the top cube of `Growth.WrapWitness` in -x wraps the bound's x to 0 while a cell moves to x = 255, so the cells leave the box |
| Remaps.ListedAreRotations | src/main.rs:103-126 | the 24 remaps of `Model::hash` are signed axis permutations with determinant +1 |
| Remaps.RotationsAreListed | src/main.rs:103-126 | every signed axis permutation with determinant +1 is one of the 24 |
| Remaps.ComposeRotations | src/main.rs:103-126 | composing two proper rotations gives a proper rotation |
| Remaps.InverseRotation | src/main.rs:103-126 | every proper rotation has an inverse that is again a proper rotation |
| Remaps.RotationsClosed | src/main.rs:103-126 | the list of 24 remaps is closed under composition |
| Remaps.RotationsHaveInverses | src/main.rs:103-126 | the list of 24 remaps contains the inverse of each of its members |
| Remaps.RotateIdentity | src/main.rs:103 | the first remap `(x, y, z)` leaves a shape unchanged |
| Remaps.RotateCompose | src/main.rs:103-126 | remapping a remapped shape, against its permuted bound, is the same as remapping once by the composite |
| Remaps.NoUnderflow | src/main.rs:104-126 | when every cell lies in the box, no `max.k - p.k` in `Model::hash` underflows, and each equals the true difference |
| Remaps.RotateIntoBox | src/main.rs:104-126 | each remap maps the cells into the box of the permuted bound, and keeps distinct cells distinct |
| Remaps.ApplyInjective | src/main.rs:104-126 | each remap is injective on cells |
| Words.XorAssociates | src/main.rs:133-141 | exclusive or is associative |
| Words.XorCommutes | src/main.rs:133-141 | exclusive or is commutative |
| Words.XorSwap | src/main.rs:133-141 | the last two operands of an exclusive-or chain can be swapped |
| Words.MinOf | src/main.rs:101-128 | the running minimum from `u64::MAX` is a lower bound of the digests seen, and after at least one digest it is one of them |
| Fingerprint.HashCoords | src/main.rs:132-142 | the fold is 0 on no coordinates, and is the coordinate's own hash on one |
| Fingerprint.HashCoordsRemove | src/main.rs:132-142 | removing any one coordinate from the list removes exactly its hash from the fold |
| Fingerprint.HashCoordsOrderFree | src/main.rs:132-142 | two lists that hold the same coordinates, counted with multiplicity, fold to the same value, so the order of the coordinates never matters |
| Fingerprint.Hash | src/main.rs:100-129 | the fingerprint is at most every one of the 24 digests and equals one of them, so it is their minimum |
| Fingerprint.DigestOfRotated | src/main.rs:103-126 | a digest of a remapped shape is a digest of the original under the composite remap |
| Fingerprint.HashAtMostRotated | src/main.rs:100-129 | the fingerprint of a shape is at most that of any of its 24 rotations |
| Fingerprint.HashRotationInvariant | src/main.rs:100-129 | a shape and each of its 24 rotations (cells `R(p)`, permuted bound) have the same fingerprint |
| Fingerprint.HashIgnoresOrder | src/main.rs:100-142 | two shapes with the same bound and the same cells in any order have the same fingerprint |
| Generation.Insert | src/main.rs:83-88 | a successful growth is filed under its key and replaces what was there; a failed one changes nothing; every other key keeps its shape |
| Generation.AddCubesKeys | src/main.rs:82-98 | after `add_cubes` the keys are the old keys plus the fingerprint of every successful `add_cube` over all cells and all six directions |
| Generation.AddCubesValues | src/main.rs:82-98 | each key that `add_cubes` files holds one of the shape's successful growths with exactly that fingerprint; every other key keeps its old shape |
| Generation.AddCubesKeyed | src/main.rs:82-98 | if every entry was filed under its shape's fingerprint before `add_cubes`, that still holds afterwards |
| Generation.GrowthsWellFormed | src/main.rs:82-98 | every successful growth of a growable shape is well-formed and has one more cell |
| Generation.SingletonKeyed | src/main.rs:147 | the one-entry map `{hash(seed) ↦ seed}` is filed under fingerprints |
| Generation.NextStep | src/main.rs:149-151 | growing one more shape of the previous generation extends the collected keys by its successors' fingerprints, and keeps every entry a growth filed under its fingerprint |
| Generation.GrowEach | src/main.rs:149-151 | after visiting every shape of the previous generation, in any order, the keys are all successor fingerprints and every entry is a growth filed under its fingerprint |
| Generation.Next | src/main.rs:144-153 | `next` of the empty map is exactly `{hash(seed) ↦ seed}`; of any other map, its keys are the fingerprints of all growths of all its shapes, each value is a growth of some earlier shape, and each is filed under its own fingerprint |
| Dominoes.SeedGrowth | src/main.rs:48-81 | the seed grows in every direction, and gives the two-cube shape of that direction |
| Dominoes.SeedGrowths | src/main.rs:90-97 | the growths of the seed are exactly the six dominoes |
| Dominoes.DominoesShareFingerprint | src/main.rs:100-129 | all six dominoes have one fingerprint, for any per-cell hash |
| Dominoes.SecondGenerationKeys | src/main.rs:82-98 | all growths of the seed have one fingerprint, the domino's, for any per-cell hash |
| Dominoes.SecondGenerationFrontier | src/main.rs:144-153 | for the first generation `{hash(seed) ↦ seed}`, the keys that `next` computes are exactly the domino's fingerprint; with `Generation.Next` the second generation is a single entry |

## Left out

- `DefaultHasher` is not modelled. The per-cell hash is the parameter `h`, so nothing depends on SipHash's values. The model does not claim the fingerprint is collision-free: `insert` files by key alone, so two shapes that are not rotations of each other can still collide and replace one another. Facts about keys hold for every `h`; facts about distinct shapes would need a collision-free `h`, which the model does not assume.
- `main`'s unbounded print loop and the benchmark's expected count after seven generations are left out. The first is output. The second depends on the concrete hash values and on running the enumeration.
- The iteration order of `HashMap` is left out. `Next` takes the shapes of the previous generation in an arbitrary order, and every property holds for all orders. Inside one `add_cubes` call the order is fixed (cells in list order, each in the six directions of lines 91-96), and the model follows it exactly. Across the calls that `next` makes for the shapes of the previous generation, the order follows `HashMap` iteration. So when growths of different shapes share a key, which one survives depends on that order. For `next` the model states which key set results and that every value is a growth filed under its own fingerprint, not which of several such growths survives.
- Growth.AddCubePreserves: requires a bound below 255 on every axis. The code has no range check: `wrapping_add_signed` silently wraps at 255. `Growth.WrapBreaksBox` exhibits a well-formed shape (`Growth.WrapWitness`, 257 cubes) whose growth then leaves its box. The model keeps the wrapping arithmetic exactly and states the invariant under the bound. Reaching the bound takes shapes of more than 255 cubes, far beyond any generation the program can enumerate.
- Growth.RenormalisingBranch: needs every cell inside the box and a bound below 255 on the growth axis, for the same reason.
- `u8` subtraction in `Model::hash` is modelled with overflow checks off, as in a release build: it wraps modulo 256. `Remaps.NoUnderflow` shows that no such subtraction underflows for a shape whose cells lie in its box, so a debug build's overflow panic cannot occur there.
- Reflections are not part of the fingerprint. The program's 24 remaps are exactly the proper rotations (`Remaps.ListedAreRotations`, `Remaps.RotationsAreListed`). Mirror images therefore get different fingerprints in general, and the program counts polycubes up to rotation only. This matches the benchmark's expected 1023 shapes of seven cubes, the number of seven-cube polycubes up to rotation.
