/**
 Which bytes of a mapped file each hash is fed. The file is copied and hashed chunk by chunk, and an
 authenticode hash only sees the parts of a chunk inside its regions ("Calculating the PE Image
 Hash", Windows Authenticode Portable Executable Signature Format).
 */
module HashRegions {
  import opened Basics
  import opened Arithmetic

  /** Half open; a Start of NULL ends the list of regions. */
  datatype Region = Region(start: nat, end: nat)

  /** A file mapped at `base`. */
  datatype View = View(base: nat, bytes: seq<Byte>)
  {
    function End(): nat { base + |bytes| }

    /** The bytes from address `lo` up to `hi`, nothing if they are reversed. */
    function Slice(lo: nat, hi: nat): seq<Byte>
      requires base <= lo && hi <= End()
    {
      if lo < hi then bytes[lo - base..hi - base] else []
    }
  }

  // ---- regions ----

  predicate ValidRegion(v: View, r: Region) {
    v.base <= r.start <= r.end <= v.End()
  }

  /** Regions that are used: those before the first NULL start. */
  function Used(regions: seq<Region>): seq<Region> {
    if regions == [] || regions[0].start == 0 then [] else [regions[0]] + Used(regions[1..])
  }

  predicate AllValid(v: View, regions: seq<Region>) {
    forall i :: 0 <= i < |regions| ==> ValidRegion(v, regions[i])
  }

  /** In order, without overlap, inside the view. */
  ghost predicate Ordered(v: View, regions: seq<Region>) {
    && AllValid(v, regions)
    && (forall i, j :: 0 <= i < j < |regions| ==> regions[i].end <= regions[j].start)
  }

  /** All bytes of the regions below address `x`, region by region. */
  function Covered(v: View, regions: seq<Region>, x: nat): seq<Byte>
    requires AllValid(v, regions)
  {
    if regions == [] then [] else
    v.Slice(regions[0].start, Min(regions[0].end, x)) + Covered(v, regions[1..], x)
  }

  function RegionBytes(v: View, regions: seq<Region>): seq<Byte>
    requires AllValid(v, regions)
  {
    Covered(v, regions, v.End())
  }

  // ---- what one chunk feeds ----

  predicate StartsAt(r: Region, e: nat) {
    r.start == e < r.end
  }

  /** A region's part of the chunk [u, e); a region that starts right at the chunk's end gets the whole chunk. */
  function Piece(v: View, r: Region, u: nat, e: nat): seq<Byte>
    requires v.base <= u <= e <= v.End() && ValidRegion(v, r)
  {
    if StartsAt(r, e) then v.Slice(u, e) else v.Slice(Max(r.start, u), Min(r.end, e))
  }

  function ChunkFeeds(v: View, regions: seq<Region>, u: nat, e: nat): seq<Byte>
    requires v.base <= u <= e <= v.End() && AllValid(v, regions)
  {
    if regions == [] then [] else Piece(v, regions[0], u, e) + ChunkFeeds(v, regions[1..], u, e)
  }

  function FileFeeds(v: View, regions: seq<Region>, size: nat, x: nat): seq<Byte>
    requires v.base <= x <= v.End() && size > 0 && AllValid(v, regions)
    decreases v.End() - x
  {
    if x == v.End() then [] else
    var e := Min(x + size, v.End());
    ChunkFeeds(v, regions, x, e) + FileFeeds(v, regions, size, e)
  }

  // ---- the bytes fed are the regions' bytes ----

  lemma {:induction false} NothingBelow(v: View, regions: seq<Region>, x: nat)
    requires Ordered(v, regions) && forall i :: 0 <= i < |regions| ==> x <= regions[i].start
    ensures Covered(v, regions, x) == []
  {
    if regions != [] {
      NothingBelow(v, regions[1..], x);
    }
  }

  lemma PieceExtends(v: View, r: Region, u: nat, e: nat)
    requires ValidRegion(v, r) && v.base <= u <= e <= v.End() && !StartsAt(r, e)
    ensures v.Slice(r.start, Min(r.end, u)) + Piece(v, r, u, e) == v.Slice(r.start, Min(r.end, e))
    ensures r.end <= u ==> Piece(v, r, u, e) == []
  {
  }

  lemma Regroup<T>(a: seq<T>, b: seq<T>, c: seq<T>, d: seq<T>)
    requires b == [] || c == []
    ensures (a + b) + (c + d) == (a + c) + (b + d)
  {
  }

  /** A chunk at whose end no region starts extends the regions' bytes below it to those below its end. */
  lemma {:induction false} ChunkExtends(v: View, regions: seq<Region>, u: nat, e: nat)
    requires Ordered(v, regions) && v.base <= u <= e <= v.End()
    requires forall i :: 0 <= i < |regions| ==> !StartsAt(regions[i], e)
    ensures Covered(v, regions, u) + ChunkFeeds(v, regions, u, e) == Covered(v, regions, e)
  {
    if regions != [] {
      var r, rest := regions[0], regions[1..];
      ChunkExtends(v, rest, u, e);
      PieceExtends(v, r, u, e);
      if r.end > u {
        NothingBelow(v, rest, u);
      }
      hide View.Slice, Piece;
      Regroup(v.Slice(r.start, Min(r.end, u)), Covered(v, rest, u), Piece(v, r, u, e), ChunkFeeds(v, rest, u, e));
    }
  }

  /** A whole extra chunk for every region that starts at the chunk's end. */
  function Extra(regions: seq<Region>, u: nat, e: nat): nat
    requires u <= e
  {
    if regions == [] then 0 else (if StartsAt(regions[0], e) then e - u else 0) + Extra(regions[1..], u, e)
  }

  lemma PieceLength(v: View, r: Region, u: nat, e: nat)
    requires ValidRegion(v, r) && v.base <= u <= e <= v.End()
    ensures |v.Slice(r.start, Min(r.end, u))| + |Piece(v, r, u, e)|
         == |v.Slice(r.start, Min(r.end, e))| + (if StartsAt(r, e) then e - u else 0)
  {
  }

  /** Every region that starts at the chunk's end costs one whole extra chunk. */
  lemma {:induction false} ChunkLength(v: View, regions: seq<Region>, u: nat, e: nat)
    requires Ordered(v, regions) && v.base <= u <= e <= v.End()
    ensures |Covered(v, regions, u)| + |ChunkFeeds(v, regions, u, e)|
         == |Covered(v, regions, e)| + Extra(regions, u, e)
  {
    if regions != [] {
      ChunkLength(v, regions[1..], u, e);
      PieceLength(v, regions[0], u, e);
      hide View.Slice, Piece, Ordered;
    }
  }

  // ---- the whole file ----

  predicate Multiple(x: nat, size: nat)
    requires size > 0
  {
    x % size == 0
  }

  /** A region that starts where a chunk of `size` bytes ends, with bytes of its own. */
  predicate OnBoundary(v: View, r: Region, size: nat)
    requires size > 0
  {
    v.base < r.start < r.end && Multiple(r.start - v.base, size)
  }

  /** Without a region on a chunk boundary, the rest of the file feeds the rest of the regions' bytes. */
  lemma {:induction false} FileExtends(v: View, regions: seq<Region>, size: nat, x: nat)
    requires Ordered(v, regions) && size > 0 && v.base <= x <= v.End()
    requires x < v.End() ==> Multiple(x - v.base, size)
    requires forall i :: 0 <= i < |regions| ==> !OnBoundary(v, regions[i], size)
    ensures Covered(v, regions, x) + FileFeeds(v, regions, size, x) == RegionBytes(v, regions)
    decreases v.End() - x
  {
    if x < v.End() {
      var e := Min(x + size, v.End());
      NoStartAt(v, regions, size, x, e);
      hide Multiple, Covered, ChunkFeeds, View.Slice, StartsAt, OnBoundary, Ordered, Min;
      ChunkExtends(v, regions, x, e);
      FileExtends(v, regions, size, e);
      hide AllValid;
      Associate(Covered(v, regions, x), ChunkFeeds(v, regions, x, e), FileFeeds(v, regions, size, e));
    }
  }

  lemma NoStartAt(v: View, regions: seq<Region>, size: nat, x: nat, e: nat)
    requires AllValid(v, regions) && size > 0 && v.base <= x < v.End() && e == Min(x + size, v.End())
    requires Multiple(x - v.base, size)
    requires forall i :: 0 <= i < |regions| ==> !OnBoundary(v, regions[i], size)
    ensures x < e <= v.End() && (e < v.End() ==> Multiple(e - v.base, size))
    ensures forall i :: 0 <= i < |regions| ==> !StartsAt(regions[i], e)
  {
    NextChunk(v, x, e, size);
    hide Multiple;
    forall i | 0 <= i < |regions| ensures !StartsAt(regions[i], e) {
      assert !OnBoundary(v, regions[i], size);
    }
  }

  lemma Associate<T>(a: seq<T>, b: seq<T>, c: seq<T>)
    ensures a + (b + c) == (a + b) + c
  {
  }

  lemma ExtraPositive(regions: seq<Region>, u: nat, e: nat, i: nat)
    requires i < |regions| && StartsAt(regions[i], e) && u < e
    ensures Extra(regions, u, e) > 0
  {
    if i > 0 {
      ExtraPositive(regions[1..], u, e, i - 1);
    }
  }

  /** Never too few bytes; too many as soon as a region ahead lies on a chunk boundary. */
  lemma {:induction false} FileLength(v: View, regions: seq<Region>, size: nat, x: nat, i: nat)
    requires Ordered(v, regions) && size > 0 && v.base <= x <= v.End()
    requires x < v.End() ==> Multiple(x - v.base, size)
    ensures |Covered(v, regions, x)| + |FileFeeds(v, regions, size, x)| >= |RegionBytes(v, regions)|
    ensures i < |regions| && OnBoundary(v, regions[i], size) && x < regions[i].start ==>
      |Covered(v, regions, x)| + |FileFeeds(v, regions, size, x)| > |RegionBytes(v, regions)|
    decreases v.End() - x
  {
    if x < v.End() {
      var e := Min(x + size, v.End());
      NextChunk(v, x, e, size);
      if i < |regions| && OnBoundary(v, regions[i], size) && x < regions[i].start {
        BoundaryAhead(v, regions[i], size, x, e);
        if StartsAt(regions[i], e) {
          ExtraPositive(regions, x, e, i);
        }
      }
      hide ChunkFeeds, Covered, View.Slice, Extra, Multiple, OnBoundary, Min, StartsAt, Ordered;
      ChunkLength(v, regions, x, e);
      FileLength(v, regions, size, e, i);
    }
  }

  lemma NextChunk(v: View, x: nat, e: nat, size: nat)
    requires size > 0 && v.base <= x < v.End() && e == Min(x + size, v.End()) && Multiple(x - v.base, size)
    ensures x < e <= v.End() && (e < v.End() ==> Multiple(e - v.base, size))
  {
    StepMultiple(x - v.base, size);
    assert e < v.End() ==> e - v.base == x - v.base + size;
  }

  /** A boundary ahead of a chunk is the chunk's end or lies beyond it. */
  lemma BoundaryAhead(v: View, r: Region, size: nat, x: nat, e: nat)
    requires size > 0 && v.base <= x < v.End() && e == Min(x + size, v.End()) && Multiple(x - v.base, size)
    requires ValidRegion(v, r) && OnBoundary(v, r, size) && x < r.start
    ensures StartsAt(r, e) || e < r.start
  {
    NextMultiple(x - v.base, r.start - v.base, size);
  }

  /**
   The bytes fed over all chunks are exactly the regions' bytes if and only if no region with bytes
   of its own starts where a chunk ends.
   */
  lemma FedAreRegionBytes(v: View, regions: seq<Region>, size: nat)
    requires Ordered(v, regions) && size > 0
    ensures FileFeeds(v, regions, size, v.base) == RegionBytes(v, regions)
       <==> forall i :: 0 <= i < |regions| ==> !OnBoundary(v, regions[i], size)
  {
    NothingBelow(v, regions, v.base);
    if i :| 0 <= i < |regions| && OnBoundary(v, regions[i], size) {
      FileLength(v, regions, size, v.base, i);
    } else {
      FileExtends(v, regions, size, v.base);
    }
  }

  /** Six bytes in chunks of four with a region from the fifth byte on: the first chunk is fed as well. */
  lemma BoundaryExample()
    ensures
      var v := View(100, [1, 2, 3, 4, 5, 6]);
      var regions := [Region(104, 106)];
      && Ordered(v, regions)
      && RegionBytes(v, regions) == [5, 6]
      && FileFeeds(v, regions, 4, v.base) == [1, 2, 3, 4, 5, 6]
  {
    var v := View(100, [1, 2, 3, 4, 5, 6]);
    var regions := [Region(104, 106)];
    assert regions[1..] == [];
    assert ChunkFeeds(v, regions, 100, 104) == [1, 2, 3, 4];
    assert ChunkFeeds(v, regions, 104, 106) == [5, 6];
    assert FileFeeds(v, regions, 4, 106) == [];
    assert FileFeeds(v, regions, 4, 104) == [5, 6];
  }
}
