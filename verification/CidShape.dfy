/**
 The three-level CID table as a shape: a tagged root and directories of block addresses. The table
 agrees with a flat array of leaf addresses, through every single pointer store that grows it, and
 a lock-free lookup whose reads fall at different moments still answers as that array does.
 */
module CidShape {
  import opened Basics
  import opened Arithmetic

  /** Entry counts of the three levels; the driver asserts that their product is 1 << 24. */
  datatype Geometry = Geometry(l0: nat, l1: nat, l2: nat)
  {
    predicate Valid() {
      l0 > 0 && l1 > 0 && l2 > 0 && MaxL2() == 0x100_0000
    }
    function MaxL0(): nat { l0 }
    function MaxL1(): nat { l1 * l0 }
    function MaxL2(): nat { l2 * l1 * l0 }
  }

  /** A block's address; 0 is NULL. */
  type Ref = nat

  datatype Level = L0 | L1 | L2

  /**
   `leaves` are the allocated level 0 blocks and `dirs` the level 1 and 2 blocks with their slots;
   `place` records which ids a leaf or level 1 block was allocated for: stretch `p` of the ids is
   served by one level 1 block, whose slot `j` holds the leaf for part `j` of the stretch.
   */
  datatype Shape = Shape(level: Level, root: Ref, leaves: set<Ref>, dirs: map<Ref, seq<Ref>>, place: map<Ref, Place>)

  datatype Place = Stretch(p: nat) | Part(p: nat, j: nat)

  /** An entry's address: leaf and index in it. */
  datatype Entry = Entry(leaf: Ref, index: nat)

  // ---- well-formed shapes ----

  ghost predicate LeafOk(s: Shape, r: Ref, p: nat, j: nat) {
    r != 0 && r in s.leaves && r !in s.dirs && r in s.place && s.place[r] == Part(p, j)
  }

  /** A level 1 block for the p-th stretch: every slot is NULL or the leaf for its ids. */
  ghost predicate Dir1Ok(g: Geometry, s: Shape, d: Ref, p: nat) {
    && d != 0 && d in s.dirs && d !in s.leaves && d in s.place && s.place[d] == Stretch(p)
    && |s.dirs[d]| == g.l1
    && forall j :: 0 <= j < g.l1 ==> s.dirs[d][j] == 0 || LeafOk(s, s.dirs[d][j], p, j)
  }

  ghost predicate Dir2Ok(g: Geometry, s: Shape, d: Ref) {
    && d != 0 && d in s.dirs && d !in s.leaves && d !in s.place
    && |s.dirs[d]| == g.l2
    && forall p :: 0 <= p < g.l2 ==> s.dirs[d][p] == 0 || Dir1Ok(g, s, s.dirs[d][p], p)
  }

  ghost predicate RootOk(g: Geometry, s: Shape) {
    match s.level
    case L0 => LeafOk(s, s.root, 0, 0)
    case L1 => Dir1Ok(g, s, s.root, 0)
    case L2 => Dir2Ok(g, s, s.root)
  }

  /** Every leaf is stored where it was allocated for. */
  ghost predicate LeavesReachable(g: Geometry, s: Shape) {
    && 0 !in s.leaves
    && forall r :: r in s.leaves ==>
      r in s.place && s.place[r].Part? && s.place[r].j < g.l1 && LeafAt(s, s.place[r].p, s.place[r].j) == r
  }

  ghost predicate DirsReachable(s: Shape) {
    && 0 !in s.dirs
    && forall d :: d in s.dirs ==> d == s.root || (s.level.L2? && d in s.place && Slot(s, s.root, s.place[d].p) == d)
  }

  /** A tree of blocks with no sharing and no leak. */
  ghost predicate WellFormed(g: Geometry, s: Shape) {
    g.Valid() && RootOk(g, s) && LeavesReachable(g, s) && DirsReachable(s)
  }

  /** The flat array of leaf addresses, indexed by stretch and part. */
  function LeafAt(s: Shape, p: nat, j: nat): Ref {
    match s.level
    case L0 => if p == 0 && j == 0 then s.root else 0
    case L1 => if p == 0 then Slot(s, s.root, j) else 0
    case L2 => Slot(s, Slot(s, s.root, p), j)
  }

  function Slot(s: Shape, d: Ref, i: nat): Ref {
    if d in s.dirs && i < |s.dirs[d]| then s.dirs[d][i] else 0
  }

  /** An id's stretch, its part of the stretch and its offset in the leaf. */
  function StretchIndex(g: Geometry, id: nat): nat
    requires g.l0 > 0 && g.l1 > 0
  {
    id / g.l0 / g.l1
  }

  function PartIndex(g: Geometry, id: nat): (n: nat)
    requires g.l0 > 0 && g.l1 > 0
    ensures n < g.l1
  {
    id / g.l0 % g.l1
  }

  function OffsetIndex(g: Geometry, id: nat): (n: nat)
    requires g.l0 > 0 && g.l1 > 0
    ensures n < g.l0
  {
    id % g.l0
  }

  /** The flat array of entries. */
  function Find(g: Geometry, s: Shape, id: nat): Option<Entry>
    requires g.l0 > 0 && g.l1 > 0
  {
    var leaf := LeafAt(s, StretchIndex(g, id), PartIndex(g, id));
    if leaf == 0 then None else Some(Entry(leaf, OffsetIndex(g, id)))
  }

  // ---- index arithmetic ----

  /** The two ways of splitting an id agree: by level 1 stretch then leaf, or by leaf then stretch. */
  lemma SplitAgrees(id: nat, l0: nat, l1: nat)
    requires l0 > 0 && l1 > 0
    ensures l1 * l0 > 0
    ensures id / (l1 * l0) == id / l0 / l1
    ensures id % (l1 * l0) / l0 == id / l0 % l1
    ensures id % (l1 * l0) % l0 == id % l0
  {
    var q := id / l0;
    Recombine(id, l0, l1, q, id % l0, q / l1, q % l1);
  }

  lemma Recombine(id: nat, l0: nat, l1: nat, q: nat, r: nat, p: nat, j: nat)
    requires l0 > 0 && l1 > 0
    requires id == q * l0 + r && r < l0 && q == p * l1 + j && j < l1
    ensures l1 * l0 > 0
    ensures id / (l1 * l0) == p
    ensures id % (l1 * l0) / l0 == j
    ensures id % (l1 * l0) % l0 == r
  {
    IndexBound(j, l1, r, l0);
    Regroup(p, j, r, l0, l1);
    DivModUnique(id, l1 * l0, p, j * l0 + r);
    DivModUnique(j * l0 + r, l0, j, r);
  }

  lemma Regroup(p: nat, j: nat, r: nat, l0: nat, l1: nat)
    ensures (p * l1 + j) * l0 + r == p * (l1 * l0) + (j * l0 + r)
  {
  }

  /** The indices the code computes are the id's stretch, part and offset, and its range checks are on those. */
  lemma IndexAgrees(g: Geometry, id: nat)
    requires g.Valid()
    ensures g.MaxL1() > 0
    ensures id / g.MaxL1() == StretchIndex(g, id)
    ensures id % g.MaxL1() / g.MaxL0() == PartIndex(g, id)
    ensures id % g.MaxL1() % g.MaxL0() == OffsetIndex(g, id)
    ensures id < g.MaxL0() <==> StretchIndex(g, id) == 0 && PartIndex(g, id) == 0
    ensures id < g.MaxL0() ==> OffsetIndex(g, id) == id
    ensures id % g.MaxL0() == OffsetIndex(g, id)
    ensures id < g.MaxL1() <==> StretchIndex(g, id) == 0
    ensures id < g.MaxL1() ==> id / g.MaxL0() == PartIndex(g, id)
    ensures id < g.MaxL2() <==> StretchIndex(g, id) < g.l2
  {
    SplitAgrees(id, g.l0, g.l1);
    DivBound(id, 1, g.MaxL1());
    assert g.MaxL2() == g.l2 * g.MaxL1();
    DivBound(id, g.l2, g.MaxL1());
    DivBound(id, 1, g.l0);
    var q := id / g.l0;
    DivBound(q, 1, g.l1);
    if q < g.l1 {
      DivModUnique(q, g.l1, 0, q);
    }
    if id < g.l0 {
      DivModUnique(id, g.l0, 0, id);
    }
  }

  // ---- the lookup, with each of its reads at its own moment ----

  /**
   What a lookup returns when its root read sees `root`, its first slot read sees `first` and its
   second slot read sees `second`.
   */
  function Lookup(g: Geometry, root: Shape, first: Shape, second: Shape, id: nat): Option<Entry>
    requires g.Valid() && g.MaxL1() > 0
  {
    LookupIndexed(g, root, first, second, id,
                  id / g.MaxL0(), id % g.MaxL0(),
                  id / g.MaxL1(), id % g.MaxL1() / g.MaxL0(), id % g.MaxL1() % g.MaxL0())
  }

  /** `i1`, `o1` index a level 1 root; `i2`, `j2`, `o2` index a level 2 root. */
  function LookupIndexed(g: Geometry, root: Shape, first: Shape, second: Shape,
                         id: nat, i1: nat, o1: nat, i2: nat, j2: nat, o2: nat): Option<Entry>
  {
    match root.level
    case L0 =>
      if id >= g.MaxL0() then None else Some(Entry(root.root, id))
    case L1 =>
      if id >= g.MaxL1() then None
      else
        var leaf := Slot(first, root.root, i1);
        if leaf == 0 then None else Some(Entry(leaf, o1))
    case L2 =>
      if id >= g.MaxL2() then None
      else
        var dir := Slot(first, root.root, i2);
        if dir == 0 then None
        else
          var leaf := Slot(second, dir, j2);
          if leaf == 0 then None else Some(Entry(leaf, o2))
  }

  /** The same lookup on the id's stretch `p`, part `n` and offset `o`. */
  function LookupAt(g: Geometry, root: Shape, first: Shape, second: Shape, p: nat, n: nat, o: nat): Option<Entry> {
    match root.level
    case L0 => if p == 0 && n == 0 then Some(Entry(root.root, o)) else None
    case L1 =>
      var leaf := Slot(first, root.root, n);
      if p != 0 || leaf == 0 then None else Some(Entry(leaf, o))
    case L2 =>
      var dir := Slot(first, root.root, p);
      if p >= g.l2 || dir == 0 then None
      else
        var leaf := Slot(second, dir, n);
        if leaf == 0 then None else Some(Entry(leaf, o))
  }

  lemma LookupByIndex(g: Geometry, root: Shape, first: Shape, second: Shape, id: nat)
    requires g.Valid() && g.MaxL1() > 0
    ensures Lookup(g, root, first, second, id)
         == LookupAt(g, root, first, second, StretchIndex(g, id), PartIndex(g, id), OffsetIndex(g, id))
  {
    IndexAgrees(g, id);
    IndexedAgrees(g, root, first, second, id, id / g.MaxL0(), StretchIndex(g, id), PartIndex(g, id), OffsetIndex(g, id));
    hide LookupIndexed, LookupAt;
  }

  lemma IndexedAgrees(g: Geometry, root: Shape, first: Shape, second: Shape, id: nat, q: nat, p: nat, n: nat, o: nat)
    requires id < g.MaxL0() <==> p == 0 && n == 0
    requires id < g.MaxL0() ==> o == id
    requires id < g.MaxL1() <==> p == 0
    requires id < g.MaxL1() ==> q == n
    requires id < g.MaxL2() <==> p < g.l2
    ensures LookupIndexed(g, root, first, second, id, q, o, p, n, o) == LookupAt(g, root, first, second, p, n, o)
  {
    hide Geometry.MaxL1, Geometry.MaxL2;
  }

  /** With all reads at one moment the lookup is the flat array, and every index is in bounds. */
  lemma LookupIsFind(g: Geometry, s: Shape, id: nat)
    requires WellFormed(g, s) && g.MaxL1() > 0
    ensures Lookup(g, s, s, s, id) == Find(g, s, id)
    ensures s.level.L1? && id < g.MaxL1() ==> id / g.MaxL0() < |s.dirs[s.root]|
    ensures s.level.L2? && id < g.MaxL2() ==>
      id / g.MaxL1() < |s.dirs[s.root]| && id % g.MaxL1() / g.MaxL0() < g.l1 && id % g.MaxL1() % g.MaxL0() < g.l0
  {
    LookupByIndex(g, s, s, s, id);
    IndexAgrees(g, id);
    FindByIndex(g, s, StretchIndex(g, id), PartIndex(g, id), OffsetIndex(g, id));
    hide Geometry.Valid, Geometry.MaxL1, Geometry.MaxL2, Slot, LookupAt, Lookup;
  }

  lemma FindByIndex(g: Geometry, s: Shape, p: nat, n: nat, o: nat)
    requires WellFormed(g, s)
    ensures LookupAt(g, s, s, s, p, n, o) == if LeafAt(s, p, n) == 0 then None else Some(Entry(LeafAt(s, p, n), o))
    ensures s.level.L1? ==> |s.dirs[s.root]| == g.l1
    ensures s.level.L2? ==> |s.dirs[s.root]| == g.l2
  {
    assert Slot(s, 0, n) == 0;
  }

  // ---- growth: the single pointer stores an expansion makes ----

  ghost predicate Fresh(s: Shape, r: Ref) {
    r != 0 && r !in s.leaves && r !in s.dirs && r !in s.place
  }

  function Zeroed(n: nat): seq<Ref> {
    seq(n, _ => 0)
  }

  function SetSlot(slots: seq<Ref>, j: nat, r: Ref): seq<Ref>
    requires j < |slots|
  {
    slots[j := r]
  }

  /** One pointer store: publish a taller root over the old one, fill an empty slot, or change nothing. */
  ghost predicate Grow(g: Geometry, s: Shape, s': Shape) {
    || s' == s
    || (exists d :: Publish1(g, s, s', d))
    || (exists d :: Publish2(g, s, s', d))
    || (exists d, p: nat, j: nat, r :: FillLeaf(g, s, s', d, p, j, r))
    || (exists p: nat, d :: FillDir(g, s, s', p, d))
  }

  ghost predicate Publish1(g: Geometry, s: Shape, s': Shape, d: Ref) {
    s.level.L0? && g.l1 > 0 && Fresh(s, d)
    && s' == Shape(L1, d, s.leaves, s.dirs[d := SetSlot(Zeroed(g.l1), 0, s.root)], s.place[d := Stretch(0)])
  }

  ghost predicate Publish2(g: Geometry, s: Shape, s': Shape, d: Ref) {
    s.level.L1? && g.l2 > 0 && Fresh(s, d)
    && s' == Shape(L2, d, s.leaves, s.dirs[d := SetSlot(Zeroed(g.l2), 0, s.root)], s.place)
  }

  /** Directory `d` is the level 1 block for stretch `p`. */
  ghost predicate IsDir1(g: Geometry, s: Shape, d: Ref, p: nat) {
    (s.level.L1? && d == s.root && p == 0) || (s.level.L2? && p < g.l2 && d != 0 && Slot(s, s.root, p) == d)
  }

  ghost predicate FillLeaf(g: Geometry, s: Shape, s': Shape, d: Ref, p: nat, j: nat, r: Ref) {
    && IsDir1(g, s, d, p) && d in s.dirs && j < |s.dirs[d]| && s.dirs[d][j] == 0 && Fresh(s, r)
    && s' == s.(leaves := s.leaves + {r}, dirs := s.dirs[d := SetSlot(s.dirs[d], j, r)], place := s.place[r := Part(p, j)])
  }

  ghost predicate FillDir(g: Geometry, s: Shape, s': Shape, p: nat, d: Ref) {
    && s.level.L2? && s.root in s.dirs && p < |s.dirs[s.root]| && s.dirs[s.root][p] == 0 && Fresh(s, d)
    && s' == s.(dirs := s.dirs[d := Zeroed(g.l1)][s.root := SetSlot(s.dirs[s.root], p, d)], place := s.place[d := Stretch(p)])
  }

  /** What growth never takes back: every leaf, level 1 block and level 2 root stays where it is. */
  ghost predicate Extends(g: Geometry, s: Shape, s': Shape) {
    && s.leaves <= s'.leaves
    && (s.level.L2? ==> s'.level.L2? && s'.root == s.root)
    && (forall d, p {:trigger IsDir1(g, s, d, p)} :: IsDir1(g, s, d, p) ==> IsDir1(g, s', d, p))
    && (forall p, j {:trigger LeafAt(s', p, j)} {:trigger LeafAt(s, p, j)} ::
          LeafAt(s, p, j) != 0 ==> LeafAt(s', p, j) == LeafAt(s, p, j))
  }

  ghost predicate SameLeaves(s: Shape, s': Shape) {
    forall p, j :: LeafAt(s', p, j) == LeafAt(s, p, j)
  }

  lemma Publish1Keeps(g: Geometry, s: Shape, s': Shape, d: Ref)
    requires WellFormed(g, s) && Publish1(g, s, s', d)
    ensures WellFormed(g, s') && Extends(g, s, s') && SameLeaves(s, s')
  {
  }

  lemma Publish2Keeps(g: Geometry, s: Shape, s': Shape, d: Ref)
    requires WellFormed(g, s) && Publish2(g, s, s', d)
    ensures WellFormed(g, s') && Extends(g, s, s') && SameLeaves(s, s')
  {
    assert Dir1Ok(g, s', s.root, 0);
    forall i: nat ensures Slot(s', 0, i) == 0 {
    }
  }

  /** The stretch a level 1 block serves: its slots are the flat array there. */
  lemma StretchOf(g: Geometry, s: Shape, d: Ref, p: nat, j: nat)
    requires WellFormed(g, s) && IsDir1(g, s, d, p)
    ensures Dir1Ok(g, s, d, p) && LeafAt(s, p, j) == Slot(s, d, j)
  {
  }

  /** A level 1 block serves one stretch, and is not the root directory over it. */
  lemma OneStretch(g: Geometry, s: Shape, d: Ref, p: nat)
    requires WellFormed(g, s) && IsDir1(g, s, d, p)
    ensures forall p' :: s.level.L2? && Slot(s, s.root, p') == d ==> p' == p
    ensures s.level.L2? ==> d != s.root
  {
    StretchOf(g, s, d, p, 0);
    forall p': nat | s.level.L2? && Slot(s, s.root, p') == d ensures p' == p {
      StretchOf(g, s, d, p', 0);
    }
  }

  lemma FillLeafSlots(g: Geometry, s: Shape, s': Shape, d: Ref, p: nat, j: nat, r: Ref)
    requires FillLeaf(g, s, s', d, p, j, r)
    ensures forall e, i :: Slot(s', e, i) == if e == d && i == j then r else Slot(s, e, i)
  {
  }

  lemma FillLeafMoves(g: Geometry, s: Shape, s': Shape, d: Ref, p: nat, j: nat, r: Ref)
    requires WellFormed(g, s) && FillLeaf(g, s, s', d, p, j, r)
    ensures forall p', j' :: LeafAt(s', p', j') == if p' == p && j' == j then r else LeafAt(s, p', j')
  {
    OneStretch(g, s, d, p);
    FillLeafSlots(g, s, s', d, p, j, r);
    hide WellFormed, Slot;
  }

  lemma FillLeafKeepsDir(g: Geometry, s: Shape, s': Shape, d: Ref, p: nat, j: nat, r: Ref, e: Ref, u: nat)
    requires WellFormed(g, s) && FillLeaf(g, s, s', d, p, j, r)
    requires Dir1Ok(g, s, e, u)
    ensures Dir1Ok(g, s', e, u)
  {
    StretchOf(g, s, d, p, j);
    hide WellFormed, Dir2Ok;
  }

  lemma FillLeafRoot(g: Geometry, s: Shape, s': Shape, d: Ref, p: nat, j: nat, r: Ref)
    requires WellFormed(g, s) && FillLeaf(g, s, s', d, p, j, r)
    ensures s.level.L1? ==> Dir1Ok(g, s', s.root, 0)
    ensures s.level.L2? ==> Dir2Ok(g, s', s.root)
  {
    if s.level.L1? {
      FillLeafKeepsDir(g, s, s', d, p, j, r, s.root, 0);
    } else {
      OneStretch(g, s, d, p);
      forall u | 0 <= u < g.l2 && s.dirs[s.root][u] != 0 ensures Dir1Ok(g, s', s.dirs[s.root][u], u) {
        FillLeafKeepsDir(g, s, s', d, p, j, r, s.dirs[s.root][u], u);
      }
    }
  }

  lemma FillLeafExtends(g: Geometry, s: Shape, s': Shape, d: Ref, p: nat, j: nat, r: Ref)
    requires WellFormed(g, s) && FillLeaf(g, s, s', d, p, j, r)
    ensures Extends(g, s, s')
  {
    StretchOf(g, s, d, p, j);
    FillLeafMoves(g, s, s', d, p, j, r);
    FillLeafSlots(g, s, s', d, p, j, r);
    hide LeafAt, Slot, WellFormed, Dir1Ok;
  }

  lemma FillLeafReaches(g: Geometry, s: Shape, s': Shape, d: Ref, p: nat, j: nat, r: Ref)
    requires WellFormed(g, s) && FillLeaf(g, s, s', d, p, j, r)
    ensures LeavesReachable(g, s') && DirsReachable(s')
  {
    StretchOf(g, s, d, p, j);
    OneStretch(g, s, d, p);
    FillLeafMoves(g, s, s', d, p, j, r);
    FillLeafSlots(g, s, s', d, p, j, r);
    hide LeafAt, Slot, RootOk;
    assert j < g.l1;
    assert LeavesReachable(g, s');
  }

  lemma FillLeafKeeps(g: Geometry, s: Shape, s': Shape, d: Ref, p: nat, j: nat, r: Ref)
    requires WellFormed(g, s) && FillLeaf(g, s, s', d, p, j, r)
    ensures WellFormed(g, s') && Extends(g, s, s')
  {
    FillLeafExtends(g, s, s', d, p, j, r);
    FillLeafRoot(g, s, s', d, p, j, r);
    FillLeafReaches(g, s, s', d, p, j, r);
    hide LeafAt, Dir1Ok, Dir2Ok, Slot, Extends, LeavesReachable, DirsReachable;
  }

  lemma FillDirSlots(g: Geometry, s: Shape, s': Shape, p: nat, d: Ref)
    requires WellFormed(g, s) && FillDir(g, s, s', p, d)
    ensures Dir2Ok(g, s', s.root)
    ensures forall e, i :: Slot(s', e, i) == if e == s.root && i == p then d else Slot(s, e, i)
  {
    assert Dir1Ok(g, s', d, p);
    forall u | 0 <= u < g.l2 && u != p && s.dirs[s.root][u] != 0 ensures Dir1Ok(g, s', s.dirs[s.root][u], u) {
      assert Dir1Ok(g, s, s.dirs[s.root][u], u);
    }
  }

  lemma FillDirKeeps(g: Geometry, s: Shape, s': Shape, p: nat, d: Ref)
    requires WellFormed(g, s) && FillDir(g, s, s', p, d)
    ensures WellFormed(g, s') && Extends(g, s, s') && SameLeaves(s, s')
  {
    FillDirSlots(g, s, s', p, d);
    assert forall i :: Slot(s, 0, i) == 0 && Slot(s, d, i) == 0;
    assert forall u :: Slot(s, s.root, u) != s.root by {
      forall u: nat | Slot(s, s.root, u) != 0 ensures Slot(s, s.root, u) != s.root {
        assert Dir1Ok(g, s, Slot(s, s.root, u), u);
      }
    }
    hide Dir1Ok, Dir2Ok, Slot;
    assert SameLeaves(s, s');
  }

  /** Every store keeps the table well formed and takes nothing back. */
  lemma GrowKeeps(g: Geometry, s: Shape, s': Shape)
    requires WellFormed(g, s) && Grow(g, s, s')
    ensures WellFormed(g, s') && Extends(g, s, s')
  {
    hide WellFormed, LeafAt, IsDir1;
    if s' == s {
    } else if d :| Publish1(g, s, s', d) {
      Publish1Keeps(g, s, s', d);
    } else if d :| Publish2(g, s, s', d) {
      Publish2Keeps(g, s, s', d);
    } else if d, p: nat, j: nat, r :| FillLeaf(g, s, s', d, p, j, r) {
      FillLeafKeeps(g, s, s', d, p, j, r);
    } else {
      var p: nat, d :| FillDir(g, s, s', p, d);
      FillDirKeeps(g, s, s', p, d);
    }
  }

  // ---- histories ----

  /** The shapes a table goes through, one store at a time. */
  ghost predicate History(g: Geometry, h: seq<Shape>) {
    h != [] && WellFormed(g, h[0]) && forall i {:trigger h[i]} :: 0 <= i < |h| - 1 ==> Grow(g, h[i], h[i + 1])
  }

  lemma {:induction false} HistoryGrows(g: Geometry, h: seq<Shape>, i: nat, j: nat)
    requires History(g, h) && i <= j < |h|
    ensures WellFormed(g, h[i]) && WellFormed(g, h[j]) && Extends(g, h[i], h[j])
    decreases j
  {
    hide WellFormed, Grow, LeafAt, IsDir1;
    if i < j {
      HistoryGrows(g, h, i, j - 1);
      GrowKeeps(g, h[j - 1], h[j - 1 + 1]);
    } else if i > 0 {
      HistoryGrows(g, h, i - 1, i - 1);
      GrowKeeps(g, h[i - 1], h[i - 1 + 1]);
    }
  }

  /** Once an id has an entry it keeps that entry for ever. */
  lemma EntryIsForever(g: Geometry, h: seq<Shape>, i: nat, j: nat, id: nat)
    requires g.Valid() && History(g, h) && i <= j < |h| && Find(g, h[i], id).Some?
    ensures Find(g, h[j], id) == Find(g, h[i], id)
  {
    hide WellFormed, History, LeafAt, IsDir1;
    HistoryGrows(g, h, i, j);
  }

  /** A stored leaf knows the one place it serves. */
  lemma LeafPlaced(g: Geometry, s: Shape, p: nat, j: nat)
    requires WellFormed(g, s) && LeafAt(s, p, j) != 0
    ensures LeafOk(s, LeafAt(s, p, j), p, j)
  {
    if s.level.L2? {
      assert Slot(s, 0, j) == 0;
      StretchOf(g, s, Slot(s, s.root, p), p, j);
    }
  }

  lemma RebuildId(id: nat, id': nat, l0: nat, l1: nat)
    requires l0 > 0 && l1 > 0
    requires id / l0 / l1 == id' / l0 / l1 && id / l0 % l1 == id' / l0 % l1 && id % l0 == id' % l0
    ensures id == id'
  {
    assert id / l0 == id / l0 / l1 * l1 + id / l0 % l1;
    assert id' / l0 == id' / l0 / l1 * l1 + id' / l0 % l1;
  }

  /** Two ids never share an entry, at any two moments. */
  lemma EntriesDistinct(g: Geometry, h: seq<Shape>, i: nat, j: nat, id: nat, id': nat)
    requires g.Valid() && History(g, h) && i < |h| && j < |h|
    requires Find(g, h[i], id).Some? && Find(g, h[i], id) == Find(g, h[j], id')
    ensures id == id'
  {
    var k := if i <= j then j else i;
    EntryIsForever(g, h, i, k, id);
    EntryIsForever(g, h, j, k, id');
    HistoryGrows(g, h, k, k);
    EntryDistinct(g, h[k], id, id');
  }

  lemma EntryDistinct(g: Geometry, s: Shape, id: nat, id': nat)
    requires g.Valid() && WellFormed(g, s) && Find(g, s, id).Some? && Find(g, s, id) == Find(g, s, id')
    ensures id == id'
  {
    hide WellFormed, LeafAt;
    LeafPlaced(g, s, StretchIndex(g, id), PartIndex(g, id));
    LeafPlaced(g, s, StretchIndex(g, id'), PartIndex(g, id'));
    RebuildId(id, id', g.l0, g.l1);
  }

  /** A lock-free lookup racing with growth answers as the flat array did at one of the moments it read. */
  lemma LookupLinearizes(g: Geometry, h: seq<Shape>, i: nat, j: nat, k: nat, id: nat) returns (m: nat)
    requires g.Valid() && g.MaxL1() > 0 && History(g, h) && i <= j <= k < |h|
    ensures i <= m <= k
    ensures Lookup(g, h[i], h[j], h[k], id) == Find(g, h[m], id)
  {
    hide Geometry.MaxL2, StretchIndex, PartIndex, OffsetIndex;
    HistoryGrows(g, h, i, j);
    HistoryGrows(g, h, j, k);
    LookupByIndex(g, h[i], h[j], h[k], id);
    m := LastRead(g, h, i, j, k, StretchIndex(g, id), PartIndex(g, id), OffsetIndex(g, id));
    hide WellFormed, History, LeafAt, Extends, LookupAt, Lookup;
  }

  /** A level 1 block once seen is still there, at full length, at every later moment. */
  lemma DirStays(g: Geometry, s: Shape, s': Shape, d: Ref, p: nat)
    requires Extends(g, s, s') && WellFormed(g, s') && IsDir1(g, s, d, p)
    ensures d in s'.dirs && |s'.dirs[d]| == g.l1
  {
    assert IsDir1(g, s', d, p);
    hide LeafAt, LeavesReachable, DirsReachable;
  }

  lemma Root2Stays(g: Geometry, s: Shape, s': Shape)
    requires Extends(g, s, s') && WellFormed(g, s') && s.level.L2?
    ensures s.root in s'.dirs && |s'.dirs[s.root]| == g.l2
    ensures forall p: nat :: p < g.l2 && s'.dirs[s.root][p] != 0 ==> IsDir1(g, s', s'.dirs[s.root][p], p)
  {
  }

  /** Each read of a racing lookup is inside a block that is allocated when it is made. */
  lemma RacingReadsInBounds(g: Geometry, h: seq<Shape>, i: nat, j: nat, k: nat, id: nat)
    requires g.Valid() && g.MaxL1() > 0 && History(g, h) && i <= j <= k < |h|
    ensures
      var s, first, second := h[i], h[j], h[k];
      && (s.level.L1? && id < g.MaxL1() ==> s.root in first.dirs && id / g.MaxL0() < |first.dirs[s.root]|)
      && (s.level.L2? && id < g.MaxL2() ==>
            && s.root in first.dirs && id / g.MaxL1() < |first.dirs[s.root]|
            && var d := first.dirs[s.root][id / g.MaxL1()];
              d != 0 ==> d in second.dirs && id % g.MaxL1() / g.MaxL0() < |second.dirs[d]|)
    ensures
      var entry := Lookup(g, h[i], h[j], h[k], id);
      entry.Some? ==> entry.value.leaf in h[k].leaves && entry.value.index < g.l0
  {
    var s, first, second := h[i], h[j], h[k];
    HistoryGrows(g, h, i, j);
    HistoryGrows(g, h, j, k);
    IndexAgrees(g, id);
    hide Geometry.MaxL1, Geometry.MaxL2, StretchIndex, WellFormed, History, LeafAt, Lookup, Extends;
    if s.level.L1? && id < g.MaxL1() {
      DirStays(g, s, first, s.root, 0);
    }
    if s.level.L2? && id < g.MaxL2() {
      Root2Stays(g, s, first);
      var p := id / g.MaxL1();
      var d := first.dirs[s.root][p];
      if d != 0 {
        DirStays(g, first, second, d, p);
      }
    }
    EntryInBounds(g, h, i, j, k, id);
  }

  lemma EntryInBounds(g: Geometry, h: seq<Shape>, i: nat, j: nat, k: nat, id: nat)
    requires g.Valid() && g.MaxL1() > 0 && History(g, h) && i <= j <= k < |h|
    ensures
      var entry := Lookup(g, h[i], h[j], h[k], id);
      entry.Some? ==> entry.value.leaf in h[k].leaves && entry.value.index < g.l0
  {
    var m := LookupLinearizes(g, h, i, j, k, id);
    HistoryGrows(g, h, m, k);
    hide Lookup, Geometry.MaxL1, History;
    if Find(g, h[m], id).Some? {
      LeafPlaced(g, h[m], StretchIndex(g, id), PartIndex(g, id));
    }
  }

  lemma LastRead(g: Geometry, h: seq<Shape>, i: nat, j: nat, k: nat, p: nat, n: nat, o: nat) returns (m: nat)
    requires i <= j <= k < |h|
    requires WellFormed(g, h[i]) && WellFormed(g, h[j]) && WellFormed(g, h[k])
    requires Extends(g, h[i], h[j]) && Extends(g, h[j], h[k])
    ensures i <= m <= k
    ensures LookupAt(g, h[i], h[j], h[k], p, n, o)
         == if LeafAt(h[m], p, n) == 0 then None else Some(Entry(LeafAt(h[m], p, n), o))
  {
    hide WellFormed, LeafAt, Extends, LookupAt;
    ReadsAgree(g, h[i], h[j], h[k], p, n, o);
    if h[i].level.L0? || (h[i].level.L1? && p > 0) || (h[i].level.L2? && p >= g.l2) {
      m := i;
    } else if h[i].level.L1? || Slot(h[j], h[i].root, p) == 0 {
      m := j;
    } else {
      m := k;
    }
  }

  /** The reads of a lookup at three moments give the flat array's answer at the last of them it needed. */
  lemma ReadsAgree(g: Geometry, s: Shape, s': Shape, s'': Shape, p: nat, n: nat, o: nat)
    requires WellFormed(g, s) && WellFormed(g, s') && WellFormed(g, s'')
    requires Extends(g, s, s') && Extends(g, s', s'')
    ensures
      var last := if s.level.L0? || (s.level.L1? && p > 0) || (s.level.L2? && p >= g.l2) then s
                  else if s.level.L1? || Slot(s', s.root, p) == 0 then s' else s'';
      LookupAt(g, s, s', s'', p, n, o)
        == if LeafAt(last, p, n) == 0 then None else Some(Entry(LeafAt(last, p, n), o))
  {
    FindByIndex(g, s, p, n, o);
    if s.level.L1? {
      SlotRead1(g, s, s', n);
    } else if s.level.L2? && p < g.l2 {
      SlotRead2(g, s, s', s'', p, n, Slot(s', s.root, p));
    }
    hide WellFormed, LeafAt, Extends;
  }

  /** A slot of a captured level 1 root still is the flat array's value when it is read. */
  lemma SlotRead1(g: Geometry, s: Shape, s': Shape, n: nat)
    requires WellFormed(g, s) && WellFormed(g, s') && Extends(g, s, s') && s.level.L1?
    ensures Slot(s', s.root, n) == LeafAt(s', 0, n)
  {
    assert IsDir1(g, s, s.root, 0);
    StretchOf(g, s', s.root, 0, n);
  }

  lemma SlotRead2(g: Geometry, s: Shape, s': Shape, s'': Shape, p: nat, n: nat, d: Ref)
    requires WellFormed(g, s') && WellFormed(g, s'')
    requires Extends(g, s, s') && Extends(g, s', s'')
    requires s.level.L2? && p < g.l2 && d == Slot(s', s.root, p)
    ensures d == 0 ==> LeafAt(s', p, n) == 0
    ensures d != 0 ==> Slot(s'', d, n) == LeafAt(s'', p, n)
  {
    if d == 0 {
      assert Slot(s', 0, n) == 0;
    } else {
      assert IsDir1(g, s', d, p);
      hide WellFormed, LeafAt;
      StretchOf(g, s'', d, p, n);
    }
  }
}
