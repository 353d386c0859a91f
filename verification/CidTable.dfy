/** The CID table itself: blocks overwritten in place under the table's lock, read without it. */
module CidTable {
  import opened Basics
  import opened Arithmetic
  import opened CidShape

  /** An entry's object; 0 is no object. */
  type Obj = nat

  /** The low two bits of a CID carry nothing. */
  function CidToId(cid: nat): nat {
    cid / 4
  }

  /** The entry of a CID: that of the id whose four CIDs it is among. */
  ghost predicate EntryOf(g: Geometry, s: Shape, cid: nat, entry: Option<Entry>)
    requires g.l0 > 0 && g.l1 > 0
  {
    forall id: nat :: 4 * id <= cid < 4 * id + 4 ==> entry == Find(g, s, id)
  }

  lemma FindIsEntryOf(g: Geometry, s: Shape, cid: nat, entry: Option<Entry>)
    requires g.l0 > 0 && g.l1 > 0
    ensures EntryOf(g, s, cid, entry) <==> entry == Find(g, s, CidToId(cid))
  {
    hide Find;
    var n := CidToId(cid);
    assert 4 * n <= cid < 4 * n + 4;
    assert EntryOf(g, s, cid, entry) ==> entry == Find(g, s, n);
  }

  /**
   Two CIDs have the same entry, at any two moments of the table's life, exactly if they differ in
   their low two bits only.
   */
  lemma EntriesByCid(g: Geometry, h: seq<Shape>, i: nat, j: nat, cid: nat, cid': nat, e: Entry, e': Entry)
    requires g.Valid() && History(g, h) && i < |h| && j < |h|
    requires EntryOf(g, h[i], cid, Some(e)) && EntryOf(g, h[j], cid', Some(e'))
    ensures e == e' <==> cid - cid % 4 == cid' - cid' % 4
    ensures cid % 4 == cid' % 4 == 0 ==> (e == e' <==> cid == cid')
  {
    FindIsEntryOf(g, h[i], cid, Some(e));
    FindIsEntryOf(g, h[j], cid', Some(e'));
    hide Find, History;
    if e == e' {
      EntriesDistinct(g, h, i, j, CidToId(cid), CidToId(cid'));
    } else if CidToId(cid) == CidToId(cid') {
      EntryIsForever(g, h, if i <= j then i else j, if i <= j then j else i, CidToId(cid));
    }
  }

  lemma CidRange(g: Geometry, cid: nat)
    ensures CidToId(cid) < g.MaxL2() <==> cid < 4 * g.MaxL2()
  {
    hide Geometry.MaxL2;
  }

  class Table {
    const g: Geometry
    var level: Level
    var root: Ref
    var leaves: map<Ref, seq<Obj>>
    var dirs: map<Ref, seq<Ref>>
    /** The next address the allocator hands out. */
    var next: Ref
    ghost var place: map<Ref, Place>
    /** Every shape readers could have seen, oldest first. */
    ghost var history: seq<Shape>
    /** Allocations that have failed so far. */
    ghost var failures: nat
    /** Objects the enumeration under way has referenced, and dereferenced, so far. */
    ghost var taken: seq<Obj>
    ghost var released: seq<Obj>

    ghost function Now(): Shape
      reads this
    {
      Shape(level, root, leaves.Keys, dirs, place)
    }

    ghost predicate Valid()
      reads this
    {
      && g.Valid() && g.MaxL1() > 0
      && WellFormed(g, Now())
      && History(g, history) && history[|history| - 1] == Now()
      && 0 < next
      && (forall r :: r in leaves || r in dirs || r in place ==> r < next)
      && (forall r :: r in leaves ==> |leaves[r]| == g.l0)
    }

    /** Every block allocated so far is in the table. */
    ghost predicate NoLeak()
      reads this
    {
      forall r :: 0 < r < next ==> r in leaves || r in dirs
    }

    constructor (g: Geometry)
      requires g.Valid() && g.MaxL1() > 0
      ensures Valid() && NoLeak() && this.g == g && level == L0 && fresh(this)
      ensures forall r :: r in leaves ==> leaves[r] == Zeroed(g.l0)
    {
      this.g := g;
      level, root, next := L0, 1, 2;
      leaves, dirs, place := map[1 := Zeroed(g.l0)], map[], map[1 := Part(0, 0)];
      history := [Shape(L0, 1, {1}, map[], map[1 := Part(0, 0)])];
      failures, taken, released := 0, [], [];
    }

    /** A zeroed block of some level, or NULL; the block's contents appear when it is stored. */
    method AllocateTable() returns (r: Ref)
      requires next > 0
      modifies this`next, this`failures
      ensures if r == 0 then next == old(next) else r == old(next) && next == r + 1
      ensures failures == old(failures) + if r == 0 then 1 else 0
    {
      if * {
        r, failures := 0, failures + 1;
      } else {
        r, next := next, next + 1;
      }
    }

    /** A new table, unless its first leaf cannot be had. */
    static method Create(g: Geometry, available: bool) returns (table: Table?)
      requires g.Valid() && g.MaxL1() > 0
      ensures table != null <==> available
      ensures table != null ==> fresh(table) && table.Valid() && table.NoLeak() && table.g == g && table.level == L0
      ensures table != null ==> forall r :: r in table.leaves ==> table.leaves[r] == Zeroed(g.l0)
    {
      if !available {
        return null;
      }
      table := new Table(g);
    }

    method LookupEntry(cid: nat) returns (entry: Option<Entry>)
      requires Valid()
      ensures EntryOf(g, Now(), cid, entry)
    {
      entry := LookupId(CidToId(cid));
      FindIsEntryOf(g, Now(), cid, entry);
    }

    method LookupId(id: nat) returns (entry: Option<Entry>)
      requires Valid()
      ensures entry == Find(g, Now(), id)
    {
      IndexAgrees(g, id);
      LookupIsFind(g, Now(), id);
      hide WellFormed, History, Find;
      match level
      case L0 =>
        if id >= g.MaxL0() {
          return None;
        }
        return Some(Entry(root, id));
      case L1 =>
        if id >= g.MaxL1() {
          return None;
        }
        var leaf := dirs[root][id / g.MaxL0()];
        if leaf == 0 {
          return None;
        }
        return Some(Entry(leaf, id % g.MaxL0()));
      case L2 =>
        if id >= g.MaxL2() {
          return None;
        }
        var dir := dirs[root][id / g.MaxL1()];
        if dir == 0 {
          return None;
        }
        var leaf := dirs[dir][id % g.MaxL1() / g.MaxL0()];
        if leaf == 0 {
          return None;
        }
        return Some(Entry(leaf, id % g.MaxL1() % g.MaxL0()));
    }

    /** Blocks handed out so far and not yet part of the table are above every block in it. */
    ghost predicate Free(r: Ref)
      reads this
    {
      r != 0 && r < next && r !in leaves && r !in dirs && r !in place
    }

    /** The one store every expansion step ends with: what it must establish to be recorded. */
    ghost method Record(before: Shape)
      requires g.Valid() && g.MaxL1() > 0 && WellFormed(g, before) && History(g, history)
      requires history[|history| - 1] == before && Grow(g, before, Now())
      requires 0 < next && forall r :: r in leaves || r in dirs || r in place ==> r < next
      requires forall r :: r in leaves ==> |leaves[r]| == g.l0
      modifies this`history
      ensures Valid() && history == old(history) + [Now()] && Extends(g, before, Now())
    {
      GrowKeeps(g, before, Now());
      history := history + [Now()];
      hide WellFormed, Grow, Extends;
    }

    method PublishLevel1(d: Ref)
      requires Valid() && Free(d) && level == L0
      modifies this`level, this`root, this`dirs, this`place, this`history
      ensures Valid() && history == old(history) + [Now()] && level == L1
      ensures Extends(g, old(Now()), Now()) && Publish1(g, old(Now()), Now(), d)
    {
      ghost var before := Now();
      dirs := dirs[d := SetSlot(Zeroed(g.l1), 0, root)];
      place := place[d := Stretch(0)];
      level, root := L1, d;
      assert Publish1(g, before, Now(), d);
      hide WellFormed, History;
      Record(before);
    }

    method PublishLevel2(d: Ref)
      requires Valid() && Free(d) && level == L1
      modifies this`level, this`root, this`dirs, this`history
      ensures Valid() && history == old(history) + [Now()] && level == L2
      ensures Extends(g, old(Now()), Now()) && Publish2(g, old(Now()), Now(), d)
    {
      ghost var before := Now();
      dirs := dirs[d := SetSlot(Zeroed(g.l2), 0, root)];
      level, root := L2, d;
      assert Publish2(g, before, Now(), d);
      hide WellFormed, History;
      Record(before);
    }

    /** Store a new leaf in the empty slot `j` of directory `d`, the level 1 block for stretch `p`. */
    method StoreLeaf(d: Ref, j: nat, r: Ref, ghost p: nat)
      requires Valid() && Free(r) && IsDir1(g, Now(), d, p)
      requires d in dirs && j < |dirs[d]| && dirs[d][j] == 0
      modifies this`leaves, this`dirs, this`place, this`history
      ensures Valid() && history == old(history) + [Now()]
      ensures leaves == old(leaves)[r := Zeroed(g.l0)] && dirs.Keys == old(dirs).Keys
      ensures LeafAt(Now(), p, j) == r
      ensures Extends(g, old(Now()), Now()) && FillLeaf(g, old(Now()), Now(), d, p, j, r)
    {
      ghost var before := Now();
      leaves := leaves[r := Zeroed(g.l0)];
      dirs := dirs[d := SetSlot(dirs[d], j, r)];
      place := place[r := Part(p, j)];
      assert Now().leaves == before.leaves + {r};
      assert FillLeaf(g, before, Now(), d, p, j, r);
      FillLeafMoves(g, before, Now(), d, p, j, r);
      hide WellFormed, History, LeafAt;
      Record(before);
    }

    /** Allocate a leaf and store it in the empty slot; NULL if there was no memory. */
    method NewLeaf(d: Ref, j: nat, ghost p: nat) returns (r: Ref)
      requires Valid() && IsDir1(g, Now(), d, p) && d in dirs && j < |dirs[d]| && dirs[d][j] == 0
      modifies this`failures, this`next, this`leaves, this`dirs, this`place, this`history
      ensures old(NoLeak()) ==> NoLeak()
      ensures Valid() && OnlyGrew(g, old(history), old(leaves), history, leaves)
      ensures r == 0 ==> Now() == old(Now())
      ensures r != 0 ==> LeafAt(Now(), p, j) == r
      ensures failures == old(failures) + if r == 0 then 1 else 0
    {
      hide WellFormed, History, LeafAt, IsDir1, FillLeaf, Extends, Geometry.Valid, Geometry.MaxL1;
      r := AllocateTable();
      if r != 0 {
        StoreLeaf(d, j, r, p);
      }
    }

    method StoreDir(p: nat, d: Ref)
      requires Valid() && Free(d) && level == L2
      requires root in dirs && p < |dirs[root]| && dirs[root][p] == 0
      modifies this`dirs, this`place, this`history
      ensures Valid() && history == old(history) + [Now()] && level == L2 && root == old(root)
      ensures Extends(g, old(Now()), Now()) && FillDir(g, old(Now()), Now(), p, d)
    {
      ghost var before := Now();
      dirs := dirs[d := Zeroed(g.l1)][root := SetSlot(dirs[root], p, d)];
      place := place[d := Stretch(p)];
      assert FillDir(g, before, Now(), p, d);
      hide WellFormed, History;
      Record(before);
    }

    /** Level 1 root, id in its range: one leaf to allocate. */
    method ExpandLevel1(id: nat) returns (entry: Option<Entry>)
      requires Valid() && level == L1 && id < g.MaxL1() && Find(g, Now(), id) == None
      modifies this
      ensures old(NoLeak()) ==> NoLeak()
      ensures Valid() && entry == Find(g, Now(), id)
      ensures OnlyGrew(g, old(history), old(leaves), history, leaves)
      ensures failures == old(failures) + if entry.None? then 1 else 0
    {
      IndexAgrees(g, id);
      SlotIsEmpty1(g, Now(), id);
      hide WellFormed, History, LeafAt, Slot, Geometry.Valid, Geometry.MaxL1, Geometry.MaxL2, StretchIndex, PartIndex;
      hide OffsetIndex, OnlyGrew, Find;
      var j := id / g.MaxL0();
      assert dirs[root][j] == 0;
      var r := NewLeaf(root, j, 0);
      if r == 0 {
        return None;
      }
      LeafHoldsEntry(g, Now(), id, 0, j, r, id % g.MaxL0());
      entry := Some(Entry(r, id % g.MaxL0()));
    }

    /** Level 2 root: one or two blocks to allocate. */
    method ExpandLevel2(id: nat) returns (entry: Option<Entry>)
      requires Valid() && level == L2 && id < g.MaxL2() && Find(g, Now(), id) == None
      modifies this
      ensures old(NoLeak()) ==> NoLeak()
      ensures Valid() && entry == Find(g, Now(), id)
      ensures OnlyGrew(g, old(history), old(leaves), history, leaves)
      ensures failures == old(failures) + if entry.None? then 1 else 0
    {
      var dir := LevelOneFor(id);
      hide WellFormed, History, Find, IsDir1, PartIndex, StretchIndex, Geometry.Valid, Geometry.MaxL1;
      if dir == 0 {
        return None;
      }
      entry := StoreLastLeaf(id, StretchIndex(g, id), dir);
    }

    /** The level 1 block for the id's stretch, allocated if the stretch has none; NULL if that failed. */
    method LevelOneFor(id: nat) returns (dir: Ref)
      requires Valid() && level == L2 && id < g.MaxL2() && Find(g, Now(), id) == None
      modifies this
      ensures Valid() && g.l0 > 0 && g.l1 > 0 && leaves == old(leaves) && old(history) <= history
      ensures Find(g, Now(), id) == None
      ensures dir != 0 ==>
        IsDir1(g, Now(), dir, StretchIndex(g, id)) && dir in dirs && PartIndex(g, id) < |dirs[dir]|
        && dirs[dir][PartIndex(g, id)] == 0
      ensures old(NoLeak()) ==> NoLeak()
      ensures failures == old(failures) + if dir == 0 then 1 else 0
    {
      IndexAgrees(g, id);
      SlotsAreEmpty2(g, Now(), id);
      hide WellFormed, History, LeafAt, Find, Geometry.Valid, Geometry.MaxL1, Geometry.MaxL2, StretchIndex, PartIndex;
      hide OffsetIndex, Extends, IsDir1;
      var p := id / g.MaxL1();
      dir := dirs[root][p];
      if dir == 0 {
        dir := NewDir(p, id);
      }
    }

    /** Allocate and store the level 1 block of stretch `p`. */
    method NewDir(p: nat, ghost id: nat) returns (dir: Ref)
      requires Valid() && level == L2 && p < g.l2 && root in dirs && p < |dirs[root]| && dirs[root][p] == 0
      modifies this
      ensures Valid() && g.l0 > 0 && g.l1 > 0 && leaves == old(leaves) && old(history) <= history
      ensures Find(g, Now(), id) == old(Find(g, Now(), id))
      ensures dir != 0 ==> IsDir1(g, Now(), dir, p) && dir in dirs && dirs[dir] == Zeroed(g.l1)
      ensures old(NoLeak()) ==> NoLeak()
      ensures failures == old(failures) + if dir == 0 then 1 else 0
    {
      hide WellFormed, History, LeafAt, Geometry.MaxL1, Geometry.MaxL2, Find, Extends;
      ghost var before := Now();
      dir := AllocateTable();
      if dir != 0 {
        StoreDir(p, dir);
        FillDirFinds(g, before, Now(), p, dir, id);
      }
    }

    method StoreLastLeaf(id: nat, ghost p: nat, dir: Ref) returns (entry: Option<Entry>)
      requires Valid() && g.l0 > 0 && g.l1 > 0 && p == StretchIndex(g, id) && Find(g, Now(), id) == None
      requires IsDir1(g, Now(), dir, p) && dir in dirs && PartIndex(g, id) < |dirs[dir]|
      requires dirs[dir][PartIndex(g, id)] == 0
      modifies this
      ensures old(NoLeak()) ==> NoLeak()
      ensures Valid() && entry == Find(g, Now(), id)
      ensures OnlyGrew(g, old(history), old(leaves), history, leaves)
      ensures failures == old(failures) + if entry.None? then 1 else 0
    {
      IndexAgrees(g, id);
      hide WellFormed, History, LeafAt, Geometry.Valid, Geometry.MaxL1, Geometry.MaxL2, StretchIndex, PartIndex;
      hide OffsetIndex, OnlyGrew, Slot, Find;
      var j := id % g.MaxL1() / g.MaxL0();
      assert dirs[dir][j] == 0;
      var r := NewLeaf(dir, j, p);
      if r == 0 {
        return None;
      }
      LeafHoldsEntry(g, Now(), id, p, j, r, id % g.MaxL1() % g.MaxL0());
      entry := Some(Entry(r, id % g.MaxL1() % g.MaxL0()));
    }

    /** Put a level 1 root over the level 0 table; no entry moves. */
    method MigrateToLevel1(ghost id: nat) returns (ok: bool)
      requires Valid() && g.l0 > 0 && g.l1 > 0 && level == L0
      modifies this`failures, this`next, this`level, this`root, this`dirs, this`place, this`history
      ensures old(NoLeak()) ==> NoLeak()
      ensures Valid() && old(history) <= history && Find(g, Now(), id) == Find(g, old(Now()), id)
      ensures ok ==> level == L1
      ensures failures == old(failures) + if ok then 0 else 1
    {
      ghost var before := Now();
      var d := AllocateTable();
      if d == 0 {
        return false;
      }
      PublishLevel1(d);
      Publish1Finds(g, before, Now(), d, id);
      hide WellFormed, History, Find, Extends, Publish1;
      ok := true;
    }

    /** Put a level 2 root over the level 1 table; no entry moves. */
    method MigrateToLevel2(ghost id: nat) returns (ok: bool)
      requires Valid() && g.l0 > 0 && g.l1 > 0 && level == L1
      modifies this`failures, this`next, this`level, this`root, this`dirs, this`history
      ensures old(NoLeak()) ==> NoLeak()
      ensures Valid() && old(history) <= history && Find(g, Now(), id) == Find(g, old(Now()), id)
      ensures ok ==> level == L2
      ensures failures == old(failures) + if ok then 0 else 1
    {
      ghost var before := Now();
      var d := AllocateTable();
      if d == 0 {
        return false;
      }
      PublishLevel2(d);
      Publish2Finds(g, before, Now(), d, id);
      hide WellFormed, History, Find, Extends, Publish2;
      ok := true;
    }

    /**
     Expand the table for a CID, under the lock. The entry returned is the one every later lookup
     will find; NULL is returned exactly for a CID out of range or when an allocation failed, and then
     too every earlier entry stands.
     */
    method ExpandTableFor(cid: nat) returns (entry: Option<Entry>)
      requires Valid()
      modifies this
      ensures old(NoLeak()) ==> NoLeak()
      ensures Valid() && EntryOf(g, Now(), cid, entry)
      ensures OnlyGrew(g, old(history), old(leaves), history, leaves)
      ensures cid >= 4 * g.MaxL2() ==> entry == None && Now() == old(Now()) && failures == old(failures)
      ensures cid < 4 * g.MaxL2() ==> failures == old(failures) + if entry.None? then 1 else 0
    {
      CidRange(g, cid);
      entry := ExpandId(CidToId(cid));
      hide WellFormed, History, Find, Geometry.MaxL2, OnlyGrew;
      FindIsEntryOf(g, Now(), cid, entry);
    }

    method ExpandId(id: nat) returns (entry: Option<Entry>)
      requires Valid()
      modifies this
      ensures old(NoLeak()) ==> NoLeak()
      ensures Valid() && entry == Find(g, Now(), id)
      ensures OnlyGrew(g, old(history), old(leaves), history, leaves)
      ensures id >= g.MaxL2() ==> entry == None && Now() == old(Now()) && failures == old(failures)
      ensures id < g.MaxL2() ==> failures == old(failures) + if entry.None? then 1 else 0
    {
      if id >= g.MaxL2() {
        OutOfRange(g, Now(), id);
        return None;
      }
      entry := LookupId(id);
      if entry.Some? {
        return;
      }
      if level == L0 {
        Level0Full(g, Now(), id);
        assert id >= g.MaxL0();
      }
      hide WellFormed, History, Find, Geometry.MaxL1, Geometry.MaxL2;
      entry := ExpandMissing(id);
    }

    /** The promotions still needed, then the leaf. */
    method ExpandMissing(id: nat) returns (entry: Option<Entry>)
      requires Valid() && g.l0 > 0 && g.l1 > 0 && id < g.MaxL2() && Find(g, Now(), id) == None
      requires level == L0 ==> id >= g.MaxL0()
      modifies this
      ensures old(NoLeak()) ==> NoLeak()
      ensures Valid() && entry == Find(g, Now(), id)
      ensures OnlyGrew(g, old(history), old(leaves), history, leaves)
      ensures failures == old(failures) + if entry.None? then 1 else 0
    {
      hide WellFormed, History, Find, Geometry.MaxL1, Geometry.MaxL2;
      if level == L0 {
        var ok := MigrateToLevel1(id);
        if !ok {
          return None;
        }
      }
      if level == L1 {
        if id < g.MaxL1() {
          entry := ExpandLevel1(id);
          return;
        }
        var ok := MigrateToLevel2(id);
        if !ok {
          return None;
        }
      }
      entry := ExpandLevel2(id);
    }

    /** A lock-free lookup, then the expansion if it found nothing. */
    method GetEntry(cid: nat) returns (entry: Option<Entry>)
      requires Valid()
      modifies this
      ensures old(NoLeak()) ==> NoLeak()
      ensures Valid() && EntryOf(g, Now(), cid, entry)
      ensures OnlyGrew(g, old(history), old(leaves), history, leaves)
      ensures entry == None <==> cid >= 4 * g.MaxL2() || failures > old(failures)
    {
      FindIsEntryOf(g, Now(), cid, None);
      CidRange(g, cid);
      if CidToId(cid) >= g.MaxL2() {
        OutOfRange(g, Now(), CidToId(cid));
      }
      hide WellFormed, History, Find, Geometry.MaxL2, Geometry.MaxL1, Geometry.Valid;
      entry := LookupEntry(cid);
      FindIsEntryOf(g, Now(), cid, entry);
      if entry.None? {
        entry := ExpandTableFor(cid);
      }
    }

    /**
     One reference is given up for each object seen: the one taken to show it to the callback, or
     (rundown) the one the entry owned.
     */
    ghost predicate Released(callback: Option<Callback>, seen: seq<Item>)
      reads this
    {
      released == Objects(seen) && taken == if callback.Some? then Objects(seen) else []
    }

    /** Invoke the callback on one entry, or (rundown) empty the entry; TRUE stops the enumeration. */
    method InvokeCallback(r: Ref, p: nat, j: nat, k: nat, callback: Option<Callback>, seen: seq<Item>)
        returns (seen': seq<Item>, res: bool)
      requires r in leaves && k < |leaves[r]| && Released(callback, seen)
      modifies this`leaves, this`taken, this`released
      ensures seen' == SeenAfter(old(leaves)[r][k], p, j, k, seen)
      ensures res == StopsAfter(old(leaves)[r][k], callback, seen')
      ensures leaves == LeavesAfter(old(leaves), callback, r, k)
      ensures Released(callback, seen')
    {
      seen', res := seen, false;
      var obj := leaves[r][k];
      if callback.Some? {
        if obj != 0 {
          taken := taken + [obj];
          seen' := seen + [Item(p, j, k, obj)];
          res := callback.value(seen');
          released := released + [obj];
        }
      } else {
        leaves := leaves[r := SetObj(leaves[r], k, 0)];
        if obj != 0 {
          seen' := seen + [Item(p, j, k, obj)];
          released := released + [obj];
        }
      }
    }

    /** Where an enumeration stands: everything before the cursor visited, and in rundown emptied. */
    ghost predicate Walking(before: map<Ref, seq<Obj>>, callback: Option<Callback>, seen: seq<Item>, p: nat, j: nat, k: nat)
      reads this
    {
      Valid() && Walked(g, Now(), before, leaves, callback, seen, p, j, k) && Released(callback, seen)
    }

    /** Where an enumeration stands that the callback has ended. */
    ghost predicate Stopped(before: map<Ref, seq<Obj>>, callback: Option<Callback>, seen: seq<Item>)
      reads this
    {
      && Valid() && callback.Some? && leaves == before && Released(callback, seen)
      && StopsAt(g, Now(), before, callback.value, seen)
    }

    method WalkEntry(r: Ref, p: nat, j: nat, k: nat, callback: Option<Callback>, seen: seq<Item>,
                     ghost before: map<Ref, seq<Obj>>)
        returns (seen': seq<Item>, stop: bool)
      requires Walking(before, callback, seen, p, j, k)
      requires j < g.l1 && k < g.l0 && r != 0 && LeafAt(Now(), p, j) == r
      modifies this`leaves, this`taken, this`released
      ensures Valid() && Now() == old(Now())
      ensures WalkedOn(g, Now(), before, leaves, callback, seen', stop, p, j, k + 1) && Released(callback, seen')
    {
      hide WellFormed, History, LeafAt, Walked, WalkedOn, SeenAfter, StopsAfter;
      EntryWalked(g, Now(), before, leaves, callback, seen, r, p, j, k);
      SameBlocks(leaves, callback, r, k);
      hide LeavesAfter;
      seen', stop := InvokeCallback(r, p, j, k, callback, seen);
    }

    method WalkLeaf(r: Ref, p: nat, j: nat, callback: Option<Callback>, seen: seq<Item>, ghost before: map<Ref, seq<Obj>>)
        returns (seen': seq<Item>, stop: bool)
      requires Walking(before, callback, seen, p, j, 0)
      requires j < g.l1 && r != 0 && LeafAt(Now(), p, j) == r
      modifies this`leaves, this`taken, this`released
      ensures Now() == old(Now())
      ensures if stop then Stopped(before, callback, seen') else Walking(before, callback, seen', p, j + 1, 0)
    {
      hide WellFormed, History, Walked, StopsAt;
      seen', stop := seen, false;
      var k := 0;
      while k < g.l0
        invariant 0 <= k <= g.l0
        invariant Now() == old(Now())
        invariant Walking(before, callback, seen', p, j, k)
      {
        seen', stop := WalkEntry(r, p, j, k, callback, seen', before);
        if stop {
          return;
        }
        k := k + 1;
      }
      CursorCarries(g, Now(), before, leaves, callback, seen', p, j);
    }

    /** A level 1 block: every leaf it has, in order. */
    method WalkLevel1(d: Ref, p: nat, callback: Option<Callback>, seen: seq<Item>, ghost before: map<Ref, seq<Obj>>)
        returns (seen': seq<Item>, stop: bool)
      requires Walking(before, callback, seen, p, 0, 0)
      requires IsDir1(g, Now(), d, p) && d in dirs && |dirs[d]| == g.l1
      modifies this`leaves, this`taken, this`released
      ensures Now() == old(Now())
      ensures if stop then Stopped(before, callback, seen') else Walking(before, callback, seen', p + 1, 0, 0)
    {
      hide WellFormed, History, Walked, StopsAt, LeafAt;
      seen', stop := seen, false;
      var j := 0;
      while j < g.l1
        invariant 0 <= j <= g.l1
        invariant Now() == old(Now())
        invariant Walking(before, callback, seen', p, j, 0)
      {
        var r := dirs[d][j];
        StretchOf(g, Now(), d, p, j);
        if r != 0 {
          seen', stop := WalkLeaf(r, p, j, callback, seen', before);
          if stop {
            return;
          }
        } else {
          EmptyLeafSkipped(g, Now(), before, leaves, callback, seen', p, j);
        }
        j := j + 1;
      }
      StretchDone(g, Now(), before, leaves, callback, seen', p);
    }

    /**
     Call back on every object in the table; without a callback, run the table down by moving every
     object out. A callback's TRUE ends the enumeration there; a rundown is never ended early.
     */
    method Enumerate(callback: Option<Callback>) returns (seen: seq<Item>, stop: bool)
      requires Valid()
      modifies this`leaves, this`taken, this`released
      ensures Valid() && Now() == old(Now())
      ensures callback.Some? ==> leaves == old(leaves)
      ensures !stop ==> VisitedAll(g, Now(), old(leaves), seen) && (callback.Some? ==> NeverStops(callback.value, seen))
      ensures stop ==> callback.Some? && StopsAt(g, Now(), old(leaves), callback.value, seen)
      ensures Released(callback, seen)
      ensures callback.None? ==> !stop && forall r :: r in leaves ==> forall k :: 0 <= k < g.l0 ==> leaves[r][k] == 0
    {
      ghost var before := leaves;
      taken, released := [], [];
      WalkStarts(g, Now(), before, callback);
      hide WellFormed, History, Walked, StopsAt, LeafAt, VisitedAll, NeverStops;
      seen, stop := WalkTable(callback, before);
      if !stop {
        EndIsPast(g, Now());
        WalkComplete(g, Now(), before, leaves, callback, seen, EndStretch(g, level), EndPart(level));
        WalkedUnstopped(g, Now(), before, leaves, callback, seen, EndStretch(g, level), EndPart(level));
      }
    }

    /** The whole table, whatever its level. */
    method WalkTable(callback: Option<Callback>, ghost before: map<Ref, seq<Obj>>) returns (seen: seq<Item>, stop: bool)
      requires Walking(before, callback, [], 0, 0, 0)
      modifies this`leaves, this`taken, this`released
      ensures Now() == old(Now())
      ensures if stop then Stopped(before, callback, seen)
              else Walking(before, callback, seen, EndStretch(g, level), EndPart(level), 0)
    {
      RootStarts(g, Now());
      hide WellFormed, History, Walked, StopsAt, LeafAt, Slot, IsDir1;
      match level
      case L0 => seen, stop := WalkLeaf(root, 0, 0, callback, [], before);
      case L1 => seen, stop := WalkLevel1(root, 0, callback, [], before);
      case L2 => seen, stop := WalkLevel2(callback, before);
    }

    method WalkLevel2(callback: Option<Callback>, ghost before: map<Ref, seq<Obj>>) returns (seen: seq<Item>, stop: bool)
      requires level == L2 && Walking(before, callback, [], 0, 0, 0)
      modifies this`leaves, this`taken, this`released
      ensures Now() == old(Now())
      ensures if stop then Stopped(before, callback, seen) else Walking(before, callback, seen, g.l2, 0, 0)
    {
      ghost var s := Now();
      hide WellFormed, History, Walked, StopsAt, LeafAt, IsDir1, Slot;
      seen, stop := [], false;
      var p := 0;
      while p < g.l2
        invariant 0 <= p <= g.l2
        invariant Now() == s
        invariant Walking(before, callback, seen, p, 0, 0)
      {
        DirAt(g, s, p);
        var d := dirs[root][p];
        if d != 0 {
          seen, stop := WalkLevel1(d, p, callback, seen, before);
          if stop {
            return;
          }
        } else {
          EmptyStretchSkipped(g, s, before, leaves, callback, seen, p);
        }
        p := p + 1;
      }
    }

    /** Free every block, each once; under NoLeak that is every block ever allocated. */
    method Delete() returns (freed: seq<Ref>)
      requires Valid()
      ensures Distinct(freed) && forall r :: r in freed <==> r in leaves || r in dirs
      ensures NoLeak() ==> forall r :: r in freed <==> 0 < r < next
    {
      ghost var s := Now();
      RootCovers(g, s);
      FreeStarts(g, s);
      hide WellFormed, History, LeafAt, Slot, FreedTo;
      match level
      case L0 =>
        FreeLeaf(g, s, [], 0, 0, root);
        freed := [root];
        FreeComplete(g, s, freed, 0, 1);
      case L1 =>
        freed := DeleteLevel1(root, 0, []);
        FreeComplete(g, s, freed, 1, 0);
      case L2 =>
        freed := DeleteLevel2();
    }

    /** The leaves of a level 1 block, then the block. */
    method DeleteLevel1(d: Ref, p: nat, freed: seq<Ref>) returns (freed': seq<Ref>)
      requires Valid() && FreedTo(Now(), freed, p, 0)
      requires IsDir1(g, Now(), d, p) && d in dirs && |dirs[d]| == g.l1
      ensures FreedTo(Now(), freed', p + 1, 0)
    {
      hide WellFormed, History, FreedTo, LeafAt;
      freed' := freed;
      var j := 0;
      while j < g.l1
        invariant 0 <= j <= g.l1
        invariant FreedTo(Now(), freed', p, j)
      {
        var r := dirs[d][j];
        StretchOf(g, Now(), d, p, j);
        if r != 0 {
          FreeLeaf(g, Now(), freed', p, j, r);
          freed' := freed' + [r];
        } else {
          SkipLeaf(g, Now(), freed', p, j);
        }
        j := j + 1;
      }
      FreeDir(g, Now(), freed', p, d);
      freed' := freed' + [d];
    }

    method DeleteLevel2() returns (freed: seq<Ref>)
      requires Valid() && level == L2 && FreedTo(Now(), [], 0, 0)
      ensures Distinct(freed) && forall r :: r in freed <==> r in leaves || r in dirs
    {
      ghost var s := Now();
      hide WellFormed, History, FreedTo, LeafAt, IsDir1, Slot;
      freed := [];
      var p := 0;
      while p < g.l2
        invariant 0 <= p <= g.l2
        invariant FreedTo(Now(), freed, p, 0)
      {
        DirAt(g, s, p);
        var d := dirs[root][p];
        if d != 0 {
          freed := DeleteLevel1(d, p, freed);
        } else {
          SkipDir(g, s, freed, p);
        }
        p := p + 1;
      }
      FreeRoot(g, s, freed);
      freed := freed + [root];
    }
  }

  // ---- what a deletion frees ----

  /** The blocks of every stretch and part before (p, j). */
  ghost predicate FreedTo(s: Shape, freed: seq<Ref>, p: nat, j: nat) {
    Distinct(freed) && forall r :: r in freed <==> PlacedBefore(s, r, p, j)
  }

  predicate PlacedBefore(s: Shape, r: Ref, p: nat, j: nat) {
    && r in s.place
    && match s.place[r]
       case Part(p', j') => r in s.leaves && (p' < p || (p' == p && j' < j))
       case Stretch(p') => r in s.dirs && p' < p
  }

  lemma FreeStarts(g: Geometry, s: Shape)
    ensures FreedTo(s, [], 0, 0)
  {
  }

  lemma FreeOneMore(freed: seq<Ref>, r: Ref)
    requires Distinct(freed) && r !in freed
    ensures Distinct(freed + [r]) && forall x :: x in freed + [r] <==> x in freed || x == r
  {
    assert (freed + [r])[|freed|] == r;
  }

  lemma FreeLeaf(g: Geometry, s: Shape, freed: seq<Ref>, p: nat, j: nat, r: Ref)
    requires WellFormed(g, s) && LeafAt(s, p, j) == r != 0 && FreedTo(s, freed, p, j)
    ensures FreedTo(s, freed + [r], p, j + 1)
  {
    OnePlace(g, s, p, j);
    hide WellFormed, LeafAt;
    FreeOneMore(freed, r);
  }

  lemma SkipLeaf(g: Geometry, s: Shape, freed: seq<Ref>, p: nat, j: nat)
    requires WellFormed(g, s) && LeafAt(s, p, j) == 0 && FreedTo(s, freed, p, j)
    ensures FreedTo(s, freed, p, j + 1)
  {
    assert forall r :: r in s.leaves && r in s.place ==> s.place[r] != Part(p, j);
    hide WellFormed, LeafAt;
  }

  lemma FreeDir(g: Geometry, s: Shape, freed: seq<Ref>, p: nat, d: Ref)
    requires WellFormed(g, s) && IsDir1(g, s, d, p) && FreedTo(s, freed, p, g.l1)
    ensures FreedTo(s, freed + [d], p + 1, 0)
  {
    StretchOf(g, s, d, p, 0);
    assert forall r :: r in s.leaves ==> r in s.place && s.place[r].Part? && s.place[r].j < g.l1;
    assert forall r :: r in s.dirs && r in s.place && s.place[r] == Stretch(p) ==> r == d;
    hide WellFormed, LeafAt, IsDir1;
    FreeOneMore(freed, d);
  }

  lemma SkipDir(g: Geometry, s: Shape, freed: seq<Ref>, p: nat)
    requires WellFormed(g, s) && s.level.L2? && Slot(s, s.root, p) == 0 && FreedTo(s, freed, p, 0)
    ensures FreedTo(s, freed, p + 1, 0)
  {
    assert forall j :: LeafAt(s, p, j) == 0;
    assert forall r :: r in s.leaves && r in s.place ==> !(s.place[r].Part? && s.place[r].p == p);
    assert forall r :: r in s.dirs && r in s.place ==> s.place[r] != Stretch(p);
    hide WellFormed, LeafAt;
  }

  lemma FreeComplete(g: Geometry, s: Shape, freed: seq<Ref>, p: nat, j: nat)
    requires WellFormed(g, s) && FreedTo(s, freed, p, j)
    requires (s.level.L0? && p == 0 && j == 1) || (s.level.L1? && p == 1 && j == 0)
    ensures Distinct(freed) && forall r :: r in freed <==> r in s.leaves || r in s.dirs
  {
    forall r | r in s.leaves ensures r in freed {
      assert LeafAt(s, s.place[r].p, s.place[r].j) == r;
    }
  }

  lemma FreeRoot(g: Geometry, s: Shape, freed: seq<Ref>)
    requires WellFormed(g, s) && s.level.L2? && FreedTo(s, freed, g.l2, 0)
    ensures Distinct(freed + [s.root]) && forall r :: r in freed + [s.root] <==> r in s.leaves || r in s.dirs
  {
    RootCovers(g, s);
    assert forall r :: r in s.leaves ==> r in s.place && s.place[r].Part? && s.place[r].p < g.l2;
    assert forall d :: d in s.dirs && d != s.root ==> d in s.place && s.place[d].Stretch? && s.place[d].p < g.l2;
    assert s.root in s.dirs && s.root !in s.place && s.root !in s.leaves;
    hide WellFormed, LeafAt, Slot;
    FreeOneMore(freed, s.root);
  }

  // ---- ids in the order of their stretches, parts and offsets ----

  function IdAt(g: Geometry, p: nat, j: nat, k: nat): nat {
    (p * g.l1 + j) * g.l0 + k
  }

  lemma IdAtSplits(g: Geometry, p: nat, j: nat, k: nat)
    requires g.Valid() && j < g.l1 && k < g.l0
    ensures StretchIndex(g, IdAt(g, p, j, k)) == p
    ensures PartIndex(g, IdAt(g, p, j, k)) == j
    ensures OffsetIndex(g, IdAt(g, p, j, k)) == k
  {
    DivModUnique(IdAt(g, p, j, k), g.l0, p * g.l1 + j, k);
    DivModUnique(p * g.l1 + j, g.l1, p, j);
  }

  lemma SplitRebuilds(g: Geometry, id: nat)
    requires g.Valid()
    ensures IdAt(g, StretchIndex(g, id), PartIndex(g, id), OffsetIndex(g, id)) == id
  {
    var q := id / g.l0;
    assert q == q / g.l1 * g.l1 + q % g.l1;
    assert id == q * g.l0 + id % g.l0;
  }

  lemma BeforeIsSmaller(g: Geometry, p: nat, j: nat, k: nat, p': nat, j': nat, k': nat)
    requires j < g.l1 && k < g.l0 && Before(p, j, k, p', j', k')
    ensures IdAt(g, p, j, k) < IdAt(g, p', j', k')
  {
    if p < p' {
      IndexBound(j, g.l1, 0, 1);
      Scale(p + 1, p', g.l1);
      Scale(p * g.l1 + j + 1, p' * g.l1 + j', g.l0);
    } else if j < j' {
      Scale(p * g.l1 + j + 1, p' * g.l1 + j', g.l0);
    }
  }

  lemma Scale(a: nat, b: nat, d: nat)
    requires a <= b
    ensures a * d <= b * d
    ensures a > 0 ==> a * d == (a - 1) * d + d
  {
  }

  /** The object a lookup of the id would reach. */
  function ObjectOf(g: Geometry, s: Shape, leaves: map<Ref, seq<Obj>>, id: nat): Obj
    requires g.Valid()
  {
    match Find(g, s, id)
    case None => 0
    case Some(entry) => if entry.leaf in leaves && entry.index < |leaves[entry.leaf]| then leaves[entry.leaf][entry.index] else 0
  }

  /** In terms of ids: an enumeration that ran to its end shows each occupied id's object once, ids ascending. */
  lemma EnumeratesByIds(g: Geometry, s: Shape, leaves: map<Ref, seq<Obj>>, seen: seq<Item>)
    requires g.Valid() && WellFormed(g, s) && VisitedAll(g, s, leaves, seen) && 0 !in leaves
    ensures forall a, b :: 0 <= a < b < |seen| ==>
      IdAt(g, seen[a].p, seen[a].j, seen[a].k) < IdAt(g, seen[b].p, seen[b].j, seen[b].k)
    ensures forall a :: 0 <= a < |seen| ==>
      seen[a].obj == ObjectOf(g, s, leaves, IdAt(g, seen[a].p, seen[a].j, seen[a].k)) != 0
    ensures forall id: nat :: ObjectOf(g, s, leaves, id) != 0 ==>
      exists a :: 0 <= a < |seen| && IdAt(g, seen[a].p, seen[a].j, seen[a].k) == id
  {
    hide WellFormed, LeafAt, IdAt, StretchIndex, PartIndex, OffsetIndex;
    forall a, b | 0 <= a < b < |seen|
      ensures IdAt(g, seen[a].p, seen[a].j, seen[a].k) < IdAt(g, seen[b].p, seen[b].j, seen[b].k)
    {
      assert Stored(g, s, leaves, seen[a]);
      BeforeIsSmaller(g, seen[a].p, seen[a].j, seen[a].k, seen[b].p, seen[b].j, seen[b].k);
    }
    forall a | 0 <= a < |seen|
      ensures seen[a].obj == ObjectOf(g, s, leaves, IdAt(g, seen[a].p, seen[a].j, seen[a].k)) != 0
    {
      assert Stored(g, s, leaves, seen[a]);
      IdAtSplits(g, seen[a].p, seen[a].j, seen[a].k);
    }
    forall id: nat | ObjectOf(g, s, leaves, id) != 0
      ensures exists a :: 0 <= a < |seen| && IdAt(g, seen[a].p, seen[a].j, seen[a].k) == id
    {
      var p, j, k := StretchIndex(g, id), PartIndex(g, id), OffsetIndex(g, id);
      SplitRebuilds(g, id);
      assert ObjAt(s, leaves, p, j, k) == ObjectOf(g, s, leaves, id);
      var a :| 0 <= a < |seen| && seen[a] == Item(p, j, k, ObjAt(s, leaves, p, j, k));
    }
  }

  // ---- what an enumeration sees ----

  datatype Item = Item(p: nat, j: nat, k: nat, obj: Obj)

  /** A callback decides on everything it has been shown so far, the current object last. */
  type Callback = seq<Item> -> bool

  function Objects(seen: seq<Item>): seq<Obj> {
    seq(|seen|, i requires 0 <= i < |seen| => seen[i].obj)
  }

  function SetObj(entries: seq<Obj>, k: nat, obj: Obj): seq<Obj>
    requires k < |entries|
  {
    entries[k := obj]
  }

  /** The object at stretch `p`, part `j`, offset `k`; 0 if there is none. */
  function ObjAt(s: Shape, leaves: map<Ref, seq<Obj>>, p: nat, j: nat, k: nat): Obj {
    var r := LeafAt(s, p, j);
    if r in leaves && k < |leaves[r]| then leaves[r][k] else 0
  }

  predicate Before(p: nat, j: nat, k: nat, p': nat, j': nat, k': nat) {
    p < p' || (p == p' && (j < j' || (j == j' && k < k')))
  }

  ghost predicate Ascending(seen: seq<Item>) {
    forall a, b :: 0 <= a < b < |seen| ==> Before(seen[a].p, seen[a].j, seen[a].k, seen[b].p, seen[b].j, seen[b].k)
  }

  /** `seen` is exactly the objects before the cursor, each once, ascending. */
  ghost predicate VisitedTo(g: Geometry, s: Shape, leaves: map<Ref, seq<Obj>>, seen: seq<Item>, p: nat, j: nat, k: nat) {
    && Ascending(seen)
    && (forall a {:trigger seen[a]} :: 0 <= a < |seen| ==> Visits(g, s, leaves, seen[a], p, j, k))
    && (forall p': nat, j': nat, k': nat {:trigger ObjAt(s, leaves, p', j', k')} ::
          j' < g.l1 && k' < g.l0 && Before(p', j', k', p, j, k) && ObjAt(s, leaves, p', j', k') != 0 ==>
            Item(p', j', k', ObjAt(s, leaves, p', j', k')) in seen)
  }

  /** `seen` is every object in the table, once each, ascending. */
  ghost predicate VisitedAll(g: Geometry, s: Shape, leaves: map<Ref, seq<Obj>>, seen: seq<Item>) {
    && Ascending(seen)
    && (forall a {:trigger seen[a]} :: 0 <= a < |seen| ==> Stored(g, s, leaves, seen[a]))
    && (forall p: nat, j: nat, k: nat {:trigger ObjAt(s, leaves, p, j, k)} ::
          j < g.l1 && k < g.l0 && ObjAt(s, leaves, p, j, k) != 0 ==> Item(p, j, k, ObjAt(s, leaves, p, j, k)) in seen)
  }

  ghost predicate Stored(g: Geometry, s: Shape, leaves: map<Ref, seq<Obj>>, it: Item) {
    it.obj != 0 && it.j < g.l1 && it.k < g.l0 && ObjAt(s, leaves, it.p, it.j, it.k) == it.obj
  }

  ghost predicate Visits(g: Geometry, s: Shape, leaves: map<Ref, seq<Obj>>, it: Item, p: nat, j: nat, k: nat) {
    && Stored(g, s, leaves, it)
    && Before(it.p, it.j, it.k, p, j, k)
  }

  lemma VisitOne(g: Geometry, s: Shape, leaves: map<Ref, seq<Obj>>, seen: seq<Item>, p: nat, j: nat, k: nat)
    requires VisitedTo(g, s, leaves, seen, p, j, k) && j < g.l1 && k < g.l0
    ensures
      var obj := ObjAt(s, leaves, p, j, k);
      VisitedTo(g, s, leaves, if obj == 0 then seen else seen + [Item(p, j, k, obj)], p, j, k + 1)
  {
    hide ObjAt;
    var obj := ObjAt(s, leaves, p, j, k);
    var seen' := if obj == 0 then seen else seen + [Item(p, j, k, obj)];
    forall p': nat, j': nat, k': nat | j' < g.l1 && k' < g.l0 && Before(p', j', k', p, j, k + 1)
                                       && ObjAt(s, leaves, p', j', k') != 0
      ensures Item(p', j', k', ObjAt(s, leaves, p', j', k')) in seen'
    {
      if (p', j', k') == (p, j, k) {
        assert seen'[|seen|] == Item(p, j, k, obj);
      } else {
        assert Item(p', j', k', ObjAt(s, leaves, p', j', k')) in seen;
      }
    }
  }

  /** A stored leaf is the only one allocated for its place. */
  lemma OnePlace(g: Geometry, s: Shape, p: nat, j: nat)
    requires WellFormed(g, s) && LeafAt(s, p, j) != 0
    ensures LeafOk(s, LeafAt(s, p, j), p, j)
    ensures forall r :: r in s.leaves && s.place[r] == Part(p, j) ==> r == LeafAt(s, p, j)
  {
    LeafPlaced(g, s, p, j);
    hide LeafAt;
  }

  /** Rundown so far: every entry before the cursor is empty, every other one as it was. */
  ghost predicate ClearedTo(g: Geometry, place: map<Ref, Place>, before: map<Ref, seq<Obj>>, after: map<Ref, seq<Obj>>,
                            p: nat, j: nat, k: nat) {
    && before.Keys == after.Keys
    && forall r :: r in before ==>
        && |after[r]| == |before[r]|
        && forall i :: 0 <= i < |before[r]| ==>
            after[r][i] == if r in place && place[r].Part? && Before(place[r].p, place[r].j, i, p, j, k) then 0
                           else before[r][i]
  }

  /** Past a leaf's last entry the cursor stands at the next part. */
  lemma CursorCarries(g: Geometry, s: Shape, before: map<Ref, seq<Obj>>, now: map<Ref, seq<Obj>>,
                      callback: Option<Callback>, seen: seq<Item>, p: nat, j: nat)
    requires Walked(g, s, before, now, callback, seen, p, j, g.l0)
    ensures Walked(g, s, before, now, callback, seen, p, j + 1, 0)
  {
    hide ObjAt;
  }

  lemma EmptyLeafSkipped(g: Geometry, s: Shape, before: map<Ref, seq<Obj>>, now: map<Ref, seq<Obj>>,
                         callback: Option<Callback>, seen: seq<Item>, p: nat, j: nat)
    requires WellFormed(g, s) && LeafAt(s, p, j) == 0
    requires Walked(g, s, before, now, callback, seen, p, j, 0)
    ensures Walked(g, s, before, now, callback, seen, p, j + 1, 0)
  {
    assert forall k :: ObjAt(s, before, p, j, k) == 0;
    assert forall r :: r in before && r in s.place ==> s.place[r] != Part(p, j);
    hide ObjAt, LeafAt, WellFormed;
  }

  /** Past a stretch's last part the cursor stands at the next stretch. */
  lemma StretchDone(g: Geometry, s: Shape, before: map<Ref, seq<Obj>>, now: map<Ref, seq<Obj>>,
                    callback: Option<Callback>, seen: seq<Item>, p: nat)
    requires WellFormed(g, s) && Walked(g, s, before, now, callback, seen, p, g.l1, 0)
    ensures Walked(g, s, before, now, callback, seen, p + 1, 0, 0)
  {
    assert forall r :: r in before && r in s.place && s.place[r].Part? ==> s.place[r].j < g.l1;
    hide ObjAt, LeafAt, WellFormed;
  }

  /** A stretch without a level 1 block has no entries. */
  lemma EmptyStretchSkipped(g: Geometry, s: Shape, before: map<Ref, seq<Obj>>, now: map<Ref, seq<Obj>>,
                            callback: Option<Callback>, seen: seq<Item>, p: nat)
    requires WellFormed(g, s) && s.level.L2? && Slot(s, s.root, p) == 0
    requires Walked(g, s, before, now, callback, seen, p, 0, 0)
    ensures Walked(g, s, before, now, callback, seen, p + 1, 0, 0)
  {
    assert forall j :: LeafAt(s, p, j) == 0;
    assert forall j, k :: ObjAt(s, before, p, j, k) == 0;
    assert forall r :: r in before && r in s.place ==> !(s.place[r].Part? && s.place[r].p == p);
    hide ObjAt, LeafAt, WellFormed;
  }

  /** A level 2 root's slot is empty or a level 1 block for its stretch. */
  lemma DirAt(g: Geometry, s: Shape, p: nat)
    requires WellFormed(g, s) && s.level.L2? && p < g.l2
    ensures s.root in s.dirs && |s.dirs[s.root]| == g.l2 && s.dirs[s.root][p] == Slot(s, s.root, p)
    ensures
      var d := s.dirs[s.root][p];
      d != 0 ==> IsDir1(g, s, d, p) && d in s.dirs && |s.dirs[d]| == g.l1
  {
  }

  lemma WalkStarts(g: Geometry, s: Shape, before: map<Ref, seq<Obj>>, callback: Option<Callback>)
    requires s.leaves == before.Keys && forall r :: r in before ==> |before[r]| == g.l0
    ensures Walked(g, s, before, before, callback, [], 0, 0, 0)
  {
  }

  /** Every leaf lies in the stretches and parts the root covers. */
  /** Where a cursor that has passed the whole table stands. */
  function EndStretch(g: Geometry, level: Level): nat {
    match level
    case L0 => 0
    case L1 => 1
    case L2 => g.l2
  }

  function EndPart(level: Level): nat {
    if level.L0? then 1 else 0
  }

  lemma EndIsPast(g: Geometry, s: Shape)
    requires WellFormed(g, s)
    ensures forall p: nat, j: nat :: LeafAt(s, p, j) != 0 ==>
      p < EndStretch(g, s.level) || (p == EndStretch(g, s.level) && j < EndPart(s.level))
  {
    RootCovers(g, s);
    hide WellFormed, LeafAt;
  }

  lemma RootStarts(g: Geometry, s: Shape)
    requires WellFormed(g, s)
    ensures s.level.L0? ==> LeafAt(s, 0, 0) == s.root != 0
    ensures s.level.L1? ==> IsDir1(g, s, s.root, 0) && s.root in s.dirs && |s.dirs[s.root]| == g.l1
  {
  }

  lemma RootCovers(g: Geometry, s: Shape)
    requires WellFormed(g, s)
    ensures s.level.L0? ==> LeafAt(s, 0, 0) == s.root != 0
    ensures s.level.L1? ==> IsDir1(g, s, s.root, 0) && s.root in s.dirs && |s.dirs[s.root]| == g.l1
    ensures forall p: nat, j: nat :: LeafAt(s, p, j) != 0 ==>
      match s.level
      case L0 => p == 0 && j == 0
      case L1 => p == 0
      case L2 => p < g.l2
  {
    assert forall j :: Slot(s, 0, j) == 0;
  }

  /** Past the last stretch the enumeration is complete: every id's object, and in rundown every entry empty. */
  lemma WalkedUnstopped(g: Geometry, s: Shape, before: map<Ref, seq<Obj>>, now: map<Ref, seq<Obj>>,
                        callback: Option<Callback>, seen: seq<Item>, p: nat, j: nat)
    requires Walked(g, s, before, now, callback, seen, p, j, 0)
    ensures callback.Some? ==> now == before && NeverStops(callback.value, seen)
  {
  }

  lemma WalkComplete(g: Geometry, s: Shape, before: map<Ref, seq<Obj>>, now: map<Ref, seq<Obj>>,
                     callback: Option<Callback>, seen: seq<Item>, p: nat, j: nat)
    requires WellFormed(g, s) && Walked(g, s, before, now, callback, seen, p, j, 0)
    requires forall p': nat, j': nat :: LeafAt(s, p', j') != 0 ==> p' < p || (p' == p && j' < j)
    ensures VisitedAll(g, s, before, seen)
    ensures callback.None? ==>
      now.Keys == before.Keys && forall r :: r in now ==> |now[r]| == g.l0 && forall k :: 0 <= k < g.l0 ==> now[r][k] == 0
  {
    forall p': nat, j': nat, k': nat | j' < g.l1 && k' < g.l0 && ObjAt(s, before, p', j', k') != 0
      ensures Item(p', j', k', ObjAt(s, before, p', j', k')) in seen
    {
      assert LeafAt(s, p', j') != 0;
      assert Before(p', j', k', p, j, 0);
    }
    if callback.None? {
      forall r | r in before ensures r in s.place && s.place[r].Part? && forall k :: 0 <= k < g.l0 ==> Before(s.place[r].p, s.place[r].j, k, p, j, 0) {
        assert LeafAt(s, s.place[r].p, s.place[r].j) == r;
      }
    }
  }

  lemma ClearOne(g: Geometry, place: map<Ref, Place>, before: map<Ref, seq<Obj>>, after: map<Ref, seq<Obj>>,
                 r: Ref, p: nat, j: nat, k: nat)
    requires ClearedTo(g, place, before, after, p, j, k)
    requires r in place && place[r] == Part(p, j) && r in before && k < |before[r]|
    requires forall r' :: r' in before ==> r' in place && (place[r'] == Part(p, j) ==> r' == r)
    ensures ClearedTo(g, place, before, after[r := SetObj(after[r], k, 0)], p, j, k + 1)
  {
  }

  ghost predicate NeverStops(callback: Callback, seen: seq<Item>) {
    forall n :: 0 < n <= |seen| ==> !callback(seen[..n])
  }

  lemma NeverStopsNext(callback: Callback, seen: seq<Item>, seen': seq<Item>)
    requires NeverStops(callback, seen) && !(seen' != seen && callback(seen'))
    requires seen' == seen || (seen' != [] && seen'[..|seen'| - 1] == seen)
    ensures NeverStops(callback, seen')
  {
    forall n | 0 < n <= |seen'| ensures !callback(seen'[..n]) {
      if n <= |seen| {
        assert seen'[..n] == seen[..n];
      } else {
        assert seen'[..n] == seen';
      }
    }
  }

  /** The state of an enumeration at a cursor, given the entries `before` it started and `now`. */
  ghost predicate Walked(g: Geometry, s: Shape, before: map<Ref, seq<Obj>>, now: map<Ref, seq<Obj>>,
                         callback: Option<Callback>, seen: seq<Item>, p: nat, j: nat, k: nat) {
    && VisitedTo(g, s, before, seen, p, j, k)
    && s.leaves == before.Keys
    && (forall r :: r in before ==> |before[r]| == g.l0)
    && (match callback
        case Some(stop) => now == before && NeverStops(stop, seen)
        case None => ClearedTo(g, s.place, before, now, p, j, k))
  }

  /** The first call that returned TRUE was the last call made, and nothing before it was skipped. */
  ghost predicate StopsAt(g: Geometry, s: Shape, leaves: map<Ref, seq<Obj>>, callback: Callback, seen: seq<Item>) {
    && seen != [] && callback(seen) && NeverStops(callback, seen[..|seen| - 1])
    && exists p, j, k :: VisitedTo(g, s, leaves, seen, p, j, k)
  }


  /** What has been seen after an entry with object `obj`, and whether the callback then stops. */
  function SeenAfter(obj: Obj, p: nat, j: nat, k: nat, seen: seq<Item>): seq<Item> {
    if obj == 0 then seen else seen + [Item(p, j, k, obj)]
  }

  predicate StopsAfter(obj: Obj, callback: Option<Callback>, seen: seq<Item>) {
    callback.Some? && obj != 0 && callback.value(seen)
  }

  function LeavesAfter(leaves: map<Ref, seq<Obj>>, callback: Option<Callback>, r: Ref, k: nat): map<Ref, seq<Obj>>
    requires r in leaves && k < |leaves[r]|
  {
    if callback.Some? then leaves else leaves[r := SetObj(leaves[r], k, 0)]
  }

  lemma SameBlocks(leaves: map<Ref, seq<Obj>>, callback: Option<Callback>, r: Ref, k: nat)
    requires r in leaves && k < |leaves[r]|
    ensures LeavesAfter(leaves, callback, r, k).Keys == leaves.Keys
    ensures forall x :: x in leaves ==> |LeavesAfter(leaves, callback, r, k)[x]| == |leaves[x]|
  {
  }

  /** The enumeration went on to the cursor, or the callback stopped it. */
  ghost predicate WalkedOn(g: Geometry, s: Shape, before: map<Ref, seq<Obj>>, now: map<Ref, seq<Obj>>,
                           callback: Option<Callback>, seen: seq<Item>, stop: bool, p: nat, j: nat, k: nat) {
    if stop then callback.Some? && now == before && StopsAt(g, s, before, callback.value, seen)
    else Walked(g, s, before, now, callback, seen, p, j, k)
  }

  /** One entry further, or stopped by the callback. */
  /** A callback that let the enumeration go on so far decides about one more object. */
  lemma ShownNext(obj: Obj, callback: Callback, p: nat, j: nat, k: nat, seen: seq<Item>)
    requires NeverStops(callback, seen)
    ensures
      var seen' := SeenAfter(obj, p, j, k, seen);
      if StopsAfter(obj, Some(callback), seen') then
        seen' != [] && callback(seen') && NeverStops(callback, seen'[..|seen'| - 1])
      else NeverStops(callback, seen')
  {
    hide NeverStops;
    var seen' := SeenAfter(obj, p, j, k, seen);
    assert obj != 0 ==> seen'[..|seen'| - 1] == seen;
    if !StopsAfter(obj, Some(callback), seen') {
      NeverStopsNext(callback, seen, seen');
    }
  }

  lemma EntryWalked(g: Geometry, s: Shape, before: map<Ref, seq<Obj>>, now: map<Ref, seq<Obj>>,
                    callback: Option<Callback>, seen: seq<Item>, r: Ref, p: nat, j: nat, k: nat)
    requires WellFormed(g, s) && Walked(g, s, before, now, callback, seen, p, j, k)
    requires j < g.l1 && k < g.l0 && r != 0 && LeafAt(s, p, j) == r
    ensures r in now && k < |now[r]|
    ensures
      var seen' := SeenAfter(now[r][k], p, j, k, seen);
      WalkedOn(g, s, before, LeavesAfter(now, callback, r, k), callback, seen', StopsAfter(now[r][k], callback, seen'), p, j, k + 1)
  {
    OnePlace(g, s, p, j);
    assert r in now && now[r][k] == before[r][k] == ObjAt(s, before, p, j, k);
    VisitOne(g, s, before, seen, p, j, k);
    hide WellFormed, LeafAt, VisitedTo, ObjAt, NeverStops;
    match callback
    case None =>
      ClearOne(g, s.place, before, now, r, p, j, k);
    case Some(stop) =>
      ShownNext(now[r][k], stop, p, j, k, seen);
  }

  /** The history is continued, no leaf's contents changed, and every new leaf is zeroed. */
  ghost predicate OnlyGrew(g: Geometry, h: seq<Shape>, leaves: map<Ref, seq<Obj>>, h': seq<Shape>, leaves': map<Ref, seq<Obj>>) {
    && h <= h'
    && leaves.Keys <= leaves'.Keys
    && forall r :: r in leaves' ==> leaves'[r] == if r in leaves then leaves[r] else Zeroed(g.l0)
  }

  /** A leaf at the id's place holds the id's entry, at its offset. */
  lemma LeafHoldsEntry(g: Geometry, s: Shape, id: nat, p: nat, j: nat, r: Ref, o: nat)
    requires g.l0 > 0 && g.l1 > 0 && p == StretchIndex(g, id) && j == PartIndex(g, id) && o == OffsetIndex(g, id)
    requires LeafAt(s, p, j) == r && r != 0
    ensures Find(g, s, id) == Some(Entry(r, o))
  {
  }

  /** The level 1 slot of an id without an entry is empty. */
  lemma SlotIsEmpty1(g: Geometry, s: Shape, id: nat)
    requires g.Valid() && WellFormed(g, s) && s.level.L1? && StretchIndex(g, id) == 0 && Find(g, s, id) == None
    ensures IsDir1(g, s, s.root, 0)
    ensures s.root in s.dirs && PartIndex(g, id) < |s.dirs[s.root]| && s.dirs[s.root][PartIndex(g, id)] == 0
  {
    FindByIndex(g, s, 0, PartIndex(g, id), OffsetIndex(g, id));
  }

  lemma SlotsAreEmpty2(g: Geometry, s: Shape, id: nat)
    requires g.Valid() && WellFormed(g, s) && s.level.L2? && StretchIndex(g, id) < g.l2 && Find(g, s, id) == None
    ensures s.root in s.dirs && StretchIndex(g, id) < |s.dirs[s.root]|
    ensures
      var d := s.dirs[s.root][StretchIndex(g, id)];
      d != 0 ==>
        IsDir1(g, s, d, StretchIndex(g, id)) && d in s.dirs && PartIndex(g, id) < |s.dirs[d]|
        && s.dirs[d][PartIndex(g, id)] == 0
  {
    FindByIndex(g, s, StretchIndex(g, id), PartIndex(g, id), OffsetIndex(g, id));
    var d := s.dirs[s.root][StretchIndex(g, id)];
    if d != 0 {
      StretchOf(g, s, d, StretchIndex(g, id), PartIndex(g, id));
    }
  }

  /** Beyond the maximum no id has an entry. */
  lemma OutOfRange(g: Geometry, s: Shape, id: nat)
    requires g.Valid() && g.MaxL1() > 0 && WellFormed(g, s) && id >= g.MaxL2()
    ensures Find(g, s, id) == None
  {
    IndexAgrees(g, id);
    LookupByIndex(g, s, s, s, id);
    FindByIndex(g, s, StretchIndex(g, id), PartIndex(g, id), OffsetIndex(g, id));
    hide Lookup;
  }

  lemma Level0Full(g: Geometry, s: Shape, id: nat)
    requires g.Valid() && WellFormed(g, s) && s.level.L0? && Find(g, s, id) == None
    ensures id >= g.MaxL0()
  {
    IndexAgrees(g, id);
  }

  lemma Publish1Finds(g: Geometry, s: Shape, s': Shape, d: Ref, id: nat)
    requires g.Valid() && WellFormed(g, s) && Publish1(g, s, s', d)
    ensures Find(g, s', id) == Find(g, s, id)
  {
    Publish1Keeps(g, s, s', d);
  }

  lemma FillDirFinds(g: Geometry, s: Shape, s': Shape, p: nat, d: Ref, id: nat)
    requires g.Valid() && WellFormed(g, s) && FillDir(g, s, s', p, d)
    ensures Find(g, s', id) == Find(g, s, id)
  {
    FillDirKeeps(g, s, s', p, d);
  }

  lemma Publish2Finds(g: Geometry, s: Shape, s': Shape, d: Ref, id: nat)
    requires g.Valid() && WellFormed(g, s) && Publish2(g, s, s', d)
    ensures Find(g, s', id) == Find(g, s, id)
  {
    Publish2Keeps(g, s, s', d);
  }
}
