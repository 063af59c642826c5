/** One generation step: `add_cubes` grows a shape at every cell in every
    direction and files each result under its fingerprint, and `next`
    builds generation n + 1 from generation n. */
module Generation {
  import opened Lattice
  import opened Shapes
  import opened Growth
  import opened Words
  import opened Fingerprint

  /** A generation: shapes filed under their fingerprint (`HashMap<u64, Model>`). */
  type Store = map<U64, Model>

  /** Every shape is filed under its own fingerprint. */
  predicate KeyedByHash(h: Coord -> U64, s: Store)
  {
    forall k :: k in s ==> Hash(h, s[k]) == k
  }

  /** The `insert` closure of `add_cubes`, for any way `key` of computing
      the fingerprint: a successful growth is filed under its key, replacing
      whatever was filed there; a failed one changes nothing. */
  function Insert(key: Model -> U64, s: Store, o: Option<Model>): (r: Store)
    ensures o.None? ==> r == s
    ensures o.Some? ==> r.Keys == s.Keys + {key(o.value)} && r[key(o.value)] == o.value
    ensures forall k :: k in s && (o.None? || k != key(o.value)) ==> r[k] == s[k]
  {
    match o
    case None => s
    case Some(m) => s[key(m) := m]
  }

  /** The inner loop of `add_cubes`: the attempts `grow(c, d)` at cell `c`,
      for `d` in the order of `dirs`. */
  function GrowDirs(key: Model -> U64, grow: (Coord, Direction) -> Option<Model>, c: Coord,
                    dirs: seq<Direction>, s: Store): Store
    decreases |dirs|
  {
    if |dirs| == 0 then s
    else GrowDirs(key, grow, c, dirs[1..], Insert(key, s, grow(c, dirs[0])))
  }

  /** The outer loop of `add_cubes`: every cell of `cells` in order, each in
      the six directions. */
  function GrowCells(key: Model -> U64, grow: (Coord, Direction) -> Option<Model>,
                     cells: seq<Coord>, s: Store): Store
    decreases |cells|
  {
    if |cells| == 0 then s
    else GrowCells(key, grow, cells[1..], GrowDirs(key, grow, cells[0], Directions, s))
  }

  /** The fingerprint as a function value. */
  function KeyOf(h: Coord -> U64): Model -> U64
  {
    g => Hash(h, g)
  }

  /** The growth attempts of `m` as a function value. */
  function AttemptsOf(m: Model): (Coord, Direction) -> Option<Model>
  {
    (c, d) => AddCube(m, c, d)
  }

  /** `Model::add_cubes`: every growth of `m` filed into `s` under its
      fingerprint. */
  function AddCubes(h: Coord -> U64, m: Model, s: Store): Store
  {
    GrowCells(KeyOf(h), AttemptsOf(m), m.data, s)
  }

  /** The results of the successful attempts at `c` in the directions `dirs`. */
  function Made(grow: (Coord, Direction) -> Option<Model>, c: Coord, dirs: seq<Direction>): set<Model>
  {
    set d | d in dirs && grow(c, d).Some? :: grow(c, d).value
  }

  /** The results of the successful attempts at the cells of `cells`, in
      all six directions. */
  function MadeAll(grow: (Coord, Direction) -> Option<Model>, cells: seq<Coord>): set<Model>
  {
    set c, d | c in cells && d in Directions && grow(c, d).Some? :: grow(c, d).value
  }

  /** The keys of a set of shapes. */
  function Image(key: Model -> U64, gs: set<Model>): set<U64>
  {
    set g | g in gs :: key(g)
  }

  /** The shapes one growth step makes from `m`: each successful attempt at
      one of its cells in one of the six directions. */
  function Growths(m: Model): set<Model>
  {
    MadeAll(AttemptsOf(m), m.data)
  }

  /** The fingerprints of the shapes one growth step makes from `m`. */
  function SuccessorKeys(h: Coord -> U64, m: Model): set<U64>
  {
    Image(KeyOf(h), Growths(m))
  }

  lemma ImageUnion(key: Model -> U64, a: set<Model>, b: set<Model>)
    ensures Image(key, a + b) == Image(key, a) + Image(key, b)
  {
    forall k | k in Image(key, a + b)
      ensures k in Image(key, a) + Image(key, b)
    {
      var g :| g in a + b && k == key(g);
    }
  }

  /** A key function constant on a non-empty set has one key there. */
  lemma ImageConstant(key: Model -> U64, gs: set<Model>, v: U64, g0: Model)
    requires g0 in gs
    requires forall g :: g in gs ==> key(g) == v
    ensures Image(key, gs) == {v}
  {
    assert key(g0) in Image(key, gs);
  }

  /** An element of a list other than its head is in its tail. */
  lemma InTail<T>(s: seq<T>, x: T)
    requires x in s && |s| > 0 && x != s[0]
    ensures x in s[1..]
  {
    var i :| 0 <= i < |s| && s[i] == x;
    assert s[1..][i - 1] == x;
  }

  /** The attempt in the first direction and those in the rest. */
  lemma MadeSplit(grow: (Coord, Direction) -> Option<Model>, c: Coord, dirs: seq<Direction>)
    requires |dirs| > 0
    ensures Made(grow, c, dirs) == Made(grow, c, dirs[1..]) + Made(grow, c, [dirs[0]])
  {
    forall g | g in Made(grow, c, dirs)
      ensures g in Made(grow, c, dirs[1..]) + Made(grow, c, [dirs[0]])
    {
      var d :| d in dirs && grow(c, d).Some? && g == grow(c, d).value;
      if d != dirs[0] {
        InTail(dirs, d);
      }
    }
    forall g | g in Made(grow, c, dirs[1..])
      ensures g in Made(grow, c, dirs)
    {
      var d :| d in dirs[1..] && grow(c, d).Some? && g == grow(c, d).value;
      assert d in dirs;
    }
    assert dirs[0] in dirs;
  }

  /** The attempts at the first cell and those at the rest. */
  lemma MadeAllSplit(grow: (Coord, Direction) -> Option<Model>, cells: seq<Coord>)
    requires |cells| > 0
    ensures MadeAll(grow, cells) == Made(grow, cells[0], Directions) + MadeAll(grow, cells[1..])
  {
    forall g | g in MadeAll(grow, cells)
      ensures g in Made(grow, cells[0], Directions) + MadeAll(grow, cells[1..])
    {
      var c, d :| c in cells && d in Directions && grow(c, d).Some? && g == grow(c, d).value;
      if c != cells[0] {
        InTail(cells, c);
      }
    }
    forall g | g in Made(grow, cells[0], Directions)
      ensures g in MadeAll(grow, cells)
    {
      var d :| d in Directions && grow(cells[0], d).Some? && g == grow(cells[0], d).value;
      assert cells[0] in cells;
    }
    forall g | g in MadeAll(grow, cells[1..])
      ensures g in MadeAll(grow, cells)
    {
      var c, d :| c in cells[1..] && d in Directions && grow(c, d).Some? && g == grow(c, d).value;
      assert c in cells;
    }
  }

  /** Filing one attempt adds its key, if it succeeded, and nothing else. */
  lemma InsertKeys(key: Model -> U64, grow: (Coord, Direction) -> Option<Model>, c: Coord, d: Direction, s: Store)
    ensures Insert(key, s, grow(c, d)).Keys == s.Keys + Image(key, Made(grow, c, [d]))
  {
    if grow(c, d).Some? {
      assert Made(grow, c, [d]) == {grow(c, d).value};
      assert Image(key, {grow(c, d).value}) == {key(grow(c, d).value)};
    } else {
      assert Made(grow, c, [d]) == {};
    }
  }

  lemma {:induction false} GrowDirsKeys(key: Model -> U64, grow: (Coord, Direction) -> Option<Model>,
                                        c: Coord, dirs: seq<Direction>, s: Store)
    ensures GrowDirs(key, grow, c, dirs, s).Keys == s.Keys + Image(key, Made(grow, c, dirs))
    decreases |dirs|
  {
    if |dirs| > 0 {
      var s' := Insert(key, s, grow(c, dirs[0]));
      InsertKeys(key, grow, c, dirs[0], s);
      GrowDirsKeys(key, grow, c, dirs[1..], s');
      MadeSplit(grow, c, dirs);
      ImageUnion(key, Made(grow, c, dirs[1..]), Made(grow, c, [dirs[0]]));
    }
  }

  lemma {:induction false} GrowCellsKeys(key: Model -> U64, grow: (Coord, Direction) -> Option<Model>,
                                         cells: seq<Coord>, s: Store)
    ensures GrowCells(key, grow, cells, s).Keys == s.Keys + Image(key, MadeAll(grow, cells))
    decreases |cells|
  {
    if |cells| > 0 {
      var s' := GrowDirs(key, grow, cells[0], Directions, s);
      GrowDirsKeys(key, grow, cells[0], Directions, s);
      GrowCellsKeys(key, grow, cells[1..], s');
      MadeAllSplit(grow, cells);
      ImageUnion(key, Made(grow, cells[0], Directions), MadeAll(grow, cells[1..]));
    }
  }

  /** `add_cubes` files exactly the fingerprints of the growths of `m`, on
      top of what the store already held. */
  lemma AddCubesKeys(h: Coord -> U64, m: Model, s: Store)
    ensures AddCubes(h, m, s).Keys == s.Keys + SuccessorKeys(h, m)
  {
    GrowCellsKeys(KeyOf(h), AttemptsOf(m), m.data, s);
  }

  /** After the attempts at `c`, a key some attempt produced holds the
      result of one of them, filed under its own key; every other key holds
      what it held before. */
  lemma {:induction false} GrowDirsValues(key: Model -> U64, grow: (Coord, Direction) -> Option<Model>,
                                          c: Coord, dirs: seq<Direction>, s: Store)
    ensures var r := GrowDirs(key, grow, c, dirs, s);
      forall k :: k in r ==>
        if k in Image(key, Made(grow, c, dirs)) then r[k] in Made(grow, c, dirs) && key(r[k]) == k
        else k in s && r[k] == s[k]
    decreases |dirs|
  {
    if |dirs| > 0 {
      var s' := Insert(key, s, grow(c, dirs[0]));
      var r := GrowDirs(key, grow, c, dirs, s);
      GrowDirsValues(key, grow, c, dirs[1..], s');
      MadeSplit(grow, c, dirs);
      ImageUnion(key, Made(grow, c, dirs[1..]), Made(grow, c, [dirs[0]]));
      InsertKeys(key, grow, c, dirs[0], s);
      forall k | k in r
        ensures if k in Image(key, Made(grow, c, dirs)) then r[k] in Made(grow, c, dirs) && key(r[k]) == k
                else k in s && r[k] == s[k]
      {
        if k !in Image(key, Made(grow, c, dirs[1..])) && grow(c, dirs[0]).Some? && k == key(grow(c, dirs[0]).value) {
          assert r[k] in Made(grow, c, [dirs[0]]);
        }
      }
    }
  }

  /** After the attempts at every cell of `cells`, a key some attempt
      produced holds the result of one of them, filed under its own key;
      every other key holds what it held before. */
  lemma {:induction false} GrowCellsValues(key: Model -> U64, grow: (Coord, Direction) -> Option<Model>,
                                           cells: seq<Coord>, s: Store)
    ensures var r := GrowCells(key, grow, cells, s);
      forall k :: k in r ==>
        if k in Image(key, MadeAll(grow, cells)) then r[k] in MadeAll(grow, cells) && key(r[k]) == k
        else k in s && r[k] == s[k]
    decreases |cells|
  {
    if |cells| > 0 {
      var s' := GrowDirs(key, grow, cells[0], Directions, s);
      GrowDirsValues(key, grow, cells[0], Directions, s);
      GrowCellsValues(key, grow, cells[1..], s');
      MadeAllSplit(grow, cells);
      ImageUnion(key, Made(grow, cells[0], Directions), MadeAll(grow, cells[1..]));
    }
  }

  /** `add_cubes` files each growth of `m` under its fingerprint and leaves
      every other key of the store as it was. */
  lemma AddCubesValues(h: Coord -> U64, m: Model, s: Store)
    ensures var r := AddCubes(h, m, s);
      forall k :: k in r ==>
        if k in SuccessorKeys(h, m) then r[k] in Growths(m) && Hash(h, r[k]) == k
        else k in s && r[k] == s[k]
  {
    GrowCellsValues(KeyOf(h), AttemptsOf(m), m.data, s);
  }

  /** `add_cubes` keeps every shape filed under its own fingerprint. */
  lemma AddCubesKeyed(h: Coord -> U64, m: Model, s: Store)
    requires KeyedByHash(h, s)
    ensures KeyedByHash(h, AddCubes(h, m, s))
  {
    AddCubesValues(h, m, s);
  }

  /** Every growth of a growable shape is well formed and has one cell more. */
  lemma GrowthsWellFormed(m: Model, g: Model)
    requires Growable(m) && g in Growths(m)
    ensures WellFormed(g) && |g.data| == |m.data| + 1
  {
    var c, d :| c in m.data && d in Directions && AttemptsOf(m)(c, d).Some? && g == AttemptsOf(m)(c, d).value;
    AddCubePreserves(m, c, d);
  }

  /** Everything `succ` yields for the shapes filed under the keys `ks`. */
  function Gather(prev: Store, ks: set<U64>, succ: Model -> set<U64>): set<U64>
  {
    set k, x | k in ks && k in prev && x in succ(prev[k]) :: x
  }

  lemma GatherStep(prev: Store, ks: set<U64>, succ: Model -> set<U64>, k: U64)
    requires k in prev
    ensures Gather(prev, ks + {k}, succ) == Gather(prev, ks, succ) + succ(prev[k])
  {
    forall x | x in Gather(prev, ks + {k}, succ)
      ensures x in Gather(prev, ks, succ) + succ(prev[k])
    {
      var j :| j in ks + {k} && j in prev && x in succ(prev[j]);
    }
  }

  /** A store with a single entry yields exactly that entry's successors. */
  lemma GatherSingle(k: U64, m: Model, succ: Model -> set<U64>)
    ensures Gather(map[k := m], {k}, succ) == succ(m)
  {
    var prev := map[k := m];
    forall x | x in succ(m)
      ensures x in Gather(prev, {k}, succ)
    {
      assert k in {k} && k in prev && x in succ(prev[k]);
    }
  }

  /** The fingerprints of the growths of the shapes filed under the keys `ks`. */
  function Frontier(h: Coord -> U64, prev: Store, ks: set<U64>): set<U64>
  {
    Gather(prev, ks, m => SuccessorKeys(h, m))
  }

  lemma SingletonKeyed(h: Coord -> U64, m: Model)
    ensures KeyedByHash(h, map[Hash(h, m) := m])
  {
  }

  /** `next` part way through a non-empty generation: the shapes filed
      under `done` have been grown into `next`. */
  predicate Partial(h: Coord -> U64, prev: Store, done: set<U64>, next: Store)
  {
    && next.Keys == Frontier(h, prev, done)
    && (forall k :: k in next ==> exists j :: j in prev && next[k] in Growths(prev[j]))
    && KeyedByHash(h, next)
  }

  lemma NextStep(h: Coord -> U64, prev: Store, done: set<U64>, next: Store, k: U64)
    requires Partial(h, prev, done, next) && k in prev
    ensures Partial(h, prev, done + {k}, AddCubes(h, prev[k], next))
  {
    AddCubesKeys(h, prev[k], next);
    AddCubesValues(h, prev[k], next);
    AddCubesKeyed(h, prev[k], next);
    GatherStep(prev, done, m => SuccessorKeys(h, m), k);
  }

  /** `next`: generation n + 1 from generation n. The empty generation is
      followed by the seed alone; otherwise every shape of `prev` is grown in
      every way and each result is filed under its fingerprint. */
  method Next(h: Coord -> U64, prev: Store) returns (next: Store)
    ensures prev == map[] ==> next == map[Hash(h, Seed) := Seed]
    ensures prev != map[] ==> next.Keys == Frontier(h, prev, prev.Keys)
    ensures prev != map[] ==> forall k :: k in next ==> exists j :: j in prev && next[k] in Growths(prev[j])
    ensures KeyedByHash(h, next)
  {
    if prev == map[] {
      next := map[Hash(h, Seed) := Seed];
      SingletonKeyed(h, Seed);
    } else {
      next := GrowEach(h, prev);
    }
  }

  /** The loop of `next` over the shapes of `prev`, taken in an order the
      hash map leaves unspecified. */
  method GrowEach(h: Coord -> U64, prev: Store) returns (next: Store)
    ensures Partial(h, prev, prev.Keys, next)
  {
    next := map[];
    var todo, done := prev.Keys, {};
    assert Frontier(h, prev, done) == {};
    while todo != {}
      invariant todo + done == prev.Keys
      invariant Partial(h, prev, done, next)
      decreases |todo|
    {
      var k :| k in todo;
      NextStep(h, prev, done, next, k);
      next := AddCubes(h, prev[k], next);
      todo, done := todo - {k}, done + {k};
    }
    assert done == prev.Keys;
  }
}
