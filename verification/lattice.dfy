/** Lattice coordinates of the polycube engine: byte triples, signed byte
    offsets, the byte arithmetic the engine uses, and the six face
    directions. */
module Lattice {

  /** The optional result of a growth attempt (Rust `Option`). */
  datatype Option<+T> = None | Some(value: T)

  /** An unsigned byte (Rust `u8`), the width of one coordinate axis. */
  type Byte = x: int | 0 <= x < 256

  /** A signed byte (Rust `i8`), the width of one offset component. */
  type SByte = x: int | -128 <= x < 128

  /** A lattice position; the far corner of a bounding box is one as well. */
  datatype Coord = Coord(x: Byte, y: Byte, z: Byte)

  /** A signed displacement of a coordinate. */
  datatype Offset = Offset(dx: SByte, dy: SByte, dz: SByte)

  datatype Axis = X | Y | Z

  function Get(c: Coord, a: Axis): Byte
  {
    match a
    case X => c.x
    case Y => c.y
    case Z => c.z
  }

  function Delta(o: Offset, a: Axis): SByte
  {
    match a
    case X => o.dx
    case Y => o.dy
    case Z => o.dz
  }

  /** `u8::wrapping_add_signed`: the sum reduced modulo 256. The sum lies in
      -128..382, so one correction by 256 suffices. */
  function WrapAdd(a: Byte, o: SByte): Byte
  {
    if a + o < 0 then a + o + 256
    else if 256 <= a + o then a + o - 256
    else a + o
  }

  /** Subtraction of two `u8` values with overflow checks off: the
      difference reduced modulo 256. */
  function WrapSub(a: Byte, b: Byte): Byte
  {
    if a < b then a - b + 256 else a - b
  }

  /** Both wrapping operations are arithmetic modulo 256. */
  lemma WrapIsModular(a: Byte, b: Byte, o: SByte)
    ensures WrapAdd(a, o) == (a + o) % 256
    ensures WrapSub(a, b) == (a - b) % 256
  {
  }

  /** A coordinate moved by an offset, each axis wrapping independently. */
  function Shift(c: Coord, o: Offset): Coord
  {
    Coord(WrapAdd(c.x, o.dx), WrapAdd(c.y, o.dy), WrapAdd(c.z, o.dz))
  }

  /** Moving `c` by `o` leaves 0..255 on no axis. */
  predicate NoWrap(c: Coord, o: Offset)
  {
    && 0 <= c.x + o.dx < 256
    && 0 <= c.y + o.dy < 256
    && 0 <= c.z + o.dz < 256
  }

  /** Componentwise order of coordinates. */
  predicate LessEq(a: Coord, b: Coord)
  {
    a.x <= b.x && a.y <= b.y && a.z <= b.z
  }

  /** Componentwise maximum (`u8::max` on each axis). */
  function CoordMax(a: Coord, b: Coord): (r: Coord)
    ensures LessEq(a, r) && LessEq(b, r)
    ensures forall k: Axis :: Get(r, k) == Get(a, k) || Get(r, k) == Get(b, k)
  {
    Coord(if a.x < b.x then b.x else a.x,
          if a.y < b.y then b.y else a.y,
          if a.z < b.z then b.z else a.z)
  }

  function Abs(n: int): nat
  {
    if n < 0 then -n else n
  }

  /** Two cells share a face: they differ by exactly one on exactly one axis. */
  predicate Adjacent(a: Coord, b: Coord)
  {
    Abs(a.x - b.x) + Abs(a.y - b.y) + Abs(a.z - b.z) == 1
  }

  /** The six unit directions in which `add_cubes` grows a cell. */
  datatype Direction = PlusX | MinusX | PlusY | MinusY | PlusZ | MinusZ

  /** The directions in the order `add_cubes` tries them. */
  const Directions: seq<Direction> := [PlusX, MinusX, PlusY, MinusY, PlusZ, MinusZ]

  /** The `i8` triple passed to `add_cube` for a direction. */
  function Step(d: Direction): (o: Offset)
    ensures Abs(o.dx) + Abs(o.dy) + Abs(o.dz) == 1
  {
    match d
    case PlusX => Offset(1, 0, 0)
    case MinusX => Offset(-1, 0, 0)
    case PlusY => Offset(0, 1, 0)
    case MinusY => Offset(0, -1, 0)
    case PlusZ => Offset(0, 0, 1)
    case MinusZ => Offset(0, 0, -1)
  }

  /** The componentwise negation `(-xo, -yo, -zo)` of a direction's step. */
  function Back(d: Direction): Offset
  {
    var s := Step(d);
    Offset(-s.dx, -s.dy, -s.dz)
  }

  /** The offset that undoes `o`; every component but -128 has one. */
  function Negate(o: Offset): Offset
    requires o.dx != -128 && o.dy != -128 && o.dz != -128
  {
    Offset(-o.dx, -o.dy, -o.dz)
  }

  const Zero := Offset(0, 0, 0)
}
