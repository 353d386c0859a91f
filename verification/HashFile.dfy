/**
 The hashing context: the buffer every chunk is copied to, the authenticode regions, and per
 algorithm the bytes fed so far (a digest is a function of those bytes).
 */
module HashFile {
  import opened Basics
  import opened HashRegions
  import Ea = EaList

  const ALGORITHMS: nat := Ea.ALGORITHMS

  predicate IsAuthenticode(i: nat) {
    i == 2 || i == 4
  }

  /** The algorithms fed by regions are those whose digests are cached under an authenticode name. */
  lemma AuthenticodeByName(i: nat)
    ensures IsAuthenticode(i) <==> Ea.NamedAuthenticode(i)
  {
  }

  // ---- the image headers ----

  /**
   The optional header's address, its size and the fields read from it; `securityAddress` and
   `securitySize` are the security entry of the data directory.
   */
  datatype Image =
    | NoHeaders
    | Image(optional: nat, size: nat, magic: nat, directories: nat, securityAddress: nat, securitySize: nat)

  const MAGIC32: nat := 0x10b
  const MAGIC64: nat := 0x20b

  /** Offsets in the optional header. */
  const CHECKSUM: nat := 64
  const SUBSYSTEM: nat := 68

  function DirectoriesOffset(image: Image): nat
    requires image.Image?
  {
    if image.magic == MAGIC32 then 92 else 108
  }

  /** The address of the security entry: the fifth of 8 bytes each. */
  function SecurityEntry(image: Image): nat
    requires image.Image?
  {
    image.optional + DirectoriesOffset(image) + 4 + 4 * 8
  }

  predicate HasMagic(image: Image)
    requires image.Image?
  {
    2 <= image.size
  }

  predicate HasChecksum(image: Image)
    requires image.Image?
  {
    HasMagic(image) && CHECKSUM + 4 <= image.size
  }

  predicate HasSecurityEntry(image: Image)
    requires image.Image?
  {
    HasChecksum(image) && DirectoriesOffset(image) + 4 <= image.size && image.directories > 4
  }

  predicate HasCertificates(image: Image)
    requires image.Image?
  {
    HasSecurityEntry(image) && image.securityAddress != 0 && image.securitySize != 0
  }

  /** The security entry is at this offset of the PE32 or PE32+ optional header; a field beyond the header's size is not there. */
  predicate SecurityEntryAt(image: Image, offset: nat)
    requires image.Image?
  {
    && image.directories >= 5
    && (if image.magic == 0x10b then offset == 128 && image.size >= 96 else offset == 144 && image.size >= 112)
  }

  /** The certificates it locates. */
  predicate CertificatesAt(v: View, image: Image, start: nat, end: nat)
    requires image.Image?
  {
    && (SecurityEntryAt(image, 128) || SecurityEntryAt(image, 144))
    && start == v.base + image.securityAddress && end == start + image.securitySize
    && image.securityAddress > 0 && image.securitySize > 0
  }

  /**
   An address that "Calculating the PE Image Hash" leaves out: in the checksum, in the security entry
   of the data directory, or in the certificates.
   */
  predicate Excluded(v: View, image: Image, a: nat)
    requires image.Image?
  {
    || (image.size >= 68 && image.optional + 64 <= a < image.optional + 68)
    || (SecurityEntryAt(image, 128) && image.optional + 128 <= a < image.optional + 136)
    || (SecurityEntryAt(image, 144) && image.optional + 144 <= a < image.optional + 152)
    || (var start, end := v.base + image.securityAddress, v.base + image.securityAddress + image.securitySize;
        CertificatesAt(v, image, start, end) && start <= a < end)
  }

  /** A known format, and every part the hash leaves out lies in the view, in order. */
  predicate Acceptable(v: View, image: Image) {
    && image.Image?
    && (image.size >= 2 ==> image.magic == 0x10b || image.magic == 0x20b)
    && (image.size >= 68 ==> v.base <= image.optional + 64 && image.optional + 68 <= v.End())
    && (SecurityEntryAt(image, 128) ==> image.optional + 136 <= v.End())
    && (SecurityEntryAt(image, 144) ==> image.optional + 152 <= v.End())
    && (var start, end := v.base + image.securityAddress, v.base + image.securityAddress + image.securitySize;
        CertificatesAt(v, image, start, end) ==>
          image.optional + (if image.magic == 0x10b then 136 else 152) <= start && end <= v.End())
  }

  function AuthenticodeRegions(v: View, image: Image): seq<Region>
    requires image.Image?
  {
    if !HasChecksum(image) then [Region(v.base, v.End())]
    else
      var head := Region(v.base, image.optional + CHECKSUM);
      var second := image.optional + SUBSYSTEM;
      if !HasSecurityEntry(image) then [head, Region(second, v.End())]
      else
        var entry := SecurityEntry(image);
        if !HasCertificates(image) then [head, Region(second, entry), Region(entry + 8, v.End())]
        else
          var certificates := v.base + image.securityAddress;
          [head, Region(second, entry), Region(entry + 8, certificates)]
          + if certificates + image.securitySize < v.End() then [Region(certificates + image.securitySize, v.End())] else []
  }

  predicate InRegions(regions: seq<Region>, a: nat) {
    exists i :: 0 <= i < |regions| && regions[i].start <= a < regions[i].end
  }

  lemma InUpToFour(regions: seq<Region>, a: nat)
    requires |regions| <= 4
    ensures InRegions(regions, a) <==>
      || (|regions| > 0 && regions[0].start <= a < regions[0].end)
      || (|regions| > 1 && regions[1].start <= a < regions[1].end)
      || (|regions| > 2 && regions[2].start <= a < regions[2].end)
      || (|regions| > 3 && regions[3].start <= a < regions[3].end)
  {
    if i :| 0 <= i < |regions| && regions[i].start <= a < regions[i].end {
      assert i == 0 || i == 1 || i == 2 || i == 3;
    }
  }

  /** On an acceptable image the regions are ordered and leave out exactly the excluded addresses. */
  lemma RegionsSkipExactly(v: View, image: Image)
    requires Acceptable(v, image)
    ensures Ordered(v, AuthenticodeRegions(v, image))
    ensures forall a: nat :: v.base <= a < v.End() ==>
      (InRegions(AuthenticodeRegions(v, image), a) <==> !Excluded(v, image, a))
  {
    var regions := AuthenticodeRegions(v, image);
    forall a: nat | v.base <= a < v.End() ensures InRegions(regions, a) <==> !Excluded(v, image, a) {
      InUpToFour(regions, a);
      hide InRegions;
    }
  }

  /** The bytes below address `x` that the authenticode hash must cover, in order. */
  function Kept(v: View, image: Image, x: nat): seq<Byte>
    requires image.Image? && v.base <= x <= v.End()
    decreases x
  {
    if x == v.base then []
    else Kept(v, image, x - 1) + if Excluded(v, image, x - 1) then [] else [v.bytes[x - 1 - v.base]]
  }

  /** Below the first address of the remaining regions there is nothing to add. */
  lemma NothingAt(v: View, regions: seq<Region>, x: nat)
    requires Ordered(v, regions) && v.base <= x < v.End() && forall i :: 0 <= i < |regions| ==> x < regions[i].start
    ensures Covered(v, regions, x) == Covered(v, regions, x + 1) == [] && !InRegions(regions, x)
  {
    hide Covered;
    NothingBelow(v, regions, x);
    NothingBelow(v, regions, x + 1);
  }

  /** One more address: the regions' bytes grow by its byte exactly if it is in a region. */
  lemma {:induction false} CoveredNext(v: View, regions: seq<Region>, x: nat)
    requires Ordered(v, regions) && v.base <= x < v.End()
    ensures Covered(v, regions, x + 1) == Covered(v, regions, x) + if InRegions(regions, x) then [v.bytes[x - v.base]] else []
  {
    hide View.Slice;
    if regions != [] {
      var r, rest := regions[0], regions[1..];
      InFirstOrRest(regions, x);
      SliceNext(v, r, x);
      hide InRegions;
      if x < r.end {
        NothingAt(v, rest, x);
      } else {
        CoveredNext(v, rest, x);
        hide Ordered;
        Associate(v.Slice(r.start, Min(r.end, x)), Covered(v, rest, x), if InRegions(rest, x) then [v.bytes[x - v.base]] else []);
      }
    }
  }

  lemma SliceNext(v: View, r: Region, x: nat)
    requires ValidRegion(v, r) && v.base <= x < v.End()
    ensures v.Slice(r.start, Min(r.end, x + 1))
         == v.Slice(r.start, Min(r.end, x)) + if r.start <= x < r.end then [v.bytes[x - v.base]] else []
  {
  }

  lemma InFirstOrRest(regions: seq<Region>, a: nat)
    requires regions != []
    ensures InRegions(regions, a) <==> regions[0].start <= a < regions[0].end || InRegions(regions[1..], a)
  {
    if InRegions(regions[1..], a) {
      var i :| 0 <= i < |regions[1..]| && regions[1..][i].start <= a < regions[1..][i].end;
      assert regions[i + 1].start <= a < regions[i + 1].end;
    }
    if i :| 0 < i < |regions| && regions[i].start <= a < regions[i].end {
      assert regions[1..][i - 1] == regions[i];
    }
  }

  lemma {:induction false} CoveredByKept(v: View, image: Image, regions: seq<Region>, x: nat)
    requires image.Image? && Ordered(v, regions) && v.base <= x <= v.End()
    requires forall a: nat :: v.base <= a < v.End() ==> (InRegions(regions, a) <==> !Excluded(v, image, a))
    ensures Covered(v, regions, x) == Kept(v, image, x)
    decreases x
  {
    hide Excluded, Covered, InRegions;
    if x == v.base {
      assert forall i :: 0 <= i < |regions| ==> x <= regions[i].start;
      NothingBelow(v, regions, x);
    } else {
      var a := x - 1;
      CoveredByKept(v, image, regions, a);
      CoveredNext(v, regions, a);
      hide Ordered;
      assert InRegions(regions, a) <==> !Excluded(v, image, a);
    }
  }

  /** Up to any address, the regions hold the bytes the hash must cover and no others. */
  lemma CoveredIsKept(v: View, image: Image, x: nat)
    requires Acceptable(v, image) && v.base <= x <= v.End()
    ensures AllValid(v, AuthenticodeRegions(v, image)) && Covered(v, AuthenticodeRegions(v, image), x) == Kept(v, image, x)
  {
    RegionsSkipExactly(v, image);
    CoveredByKept(v, image, AuthenticodeRegions(v, image), x);
  }

  /**
   The authenticode hash of an acceptable image is fed exactly the bytes it must cover if and only if
   no region with bytes of its own starts where a chunk ends.
   */
  lemma AuthenticodeFed(v: View, image: Image, size: nat)
    requires Acceptable(v, image) && size > 0
    ensures
      var regions := AuthenticodeRegions(v, image);
      && AllValid(v, regions)
      && (FileFeeds(v, regions, size, v.base) == Kept(v, image, v.End())
          <==> forall i :: 0 <= i < |regions| ==> !OnBoundary(v, regions[i], size))
  {
    RegionsSkipExactly(v, image);
    CoveredIsKept(v, image, v.End());
    FedAreRegionBytes(v, AuthenticodeRegions(v, image), size);
  }

  /** The checks made on the regions accept exactly the acceptable images. */
  lemma VerifiedIsAcceptable(v: View, image: Image)
    requires image.Image? && (HasMagic(image) ==> image.magic == MAGIC32 || image.magic == MAGIC64)
    ensures Acceptable(v, image) <==>
      && AllValid(v, AuthenticodeRegions(v, image))
      && (HasCertificates(image) ==>
            ValidRegion(v, Region(v.base + image.securityAddress, v.base + image.securityAddress + image.securitySize)))
  {
    var regions := AuthenticodeRegions(v, image);
    if AllValid(v, regions) {
      assert ValidRegion(v, regions[0]);
      assert |regions| > 1 ==> ValidRegion(v, regions[1]);
      assert |regions| > 2 ==> ValidRegion(v, regions[2]);
    }
  }

  lemma UsedOfFour(a: Region, b: Region, c: Region, d: Region)
    ensures Used([a, b, c, d]) ==
      if a.start == 0 then []
      else if b.start == 0 then [a]
      else if c.start == 0 then [a, b]
      else if d.start == 0 then [a, b, c]
      else [a, b, c, d]
  {
    assert [a, b, c, d][1..] == [b, c, d] && [b, c, d][1..] == [c, d] && [c, d][1..] == [d] && [d][1..] == [];
    assert Used([d]) == if d.start == 0 then [] else [d];
    assert Used([c, d]) == if c.start == 0 then [] else [c] + Used([d]);
    assert Used([b, c, d]) == if b.start == 0 then [] else [b] + Used([c, d]);
  }

  lemma UsedStep(regions: seq<Region>)
    requires regions != [] && regions[0].start != 0
    ensures Used(regions)[0] == regions[0] && Used(regions)[1..] == Used(regions[1..])
  {
  }

  /** The part of a region in the chunk [u, e), by the pointer comparisons the driver makes; NULL for none. */
  method ClipRegion(ghost v: View, r: Region, u: nat, e: nat) returns (start: nat, end: nat)
    requires 0 < v.base <= u < e <= v.End() && ValidRegion(v, r)
    ensures start == 0 ==> Piece(v, r, u, e) == []
    ensures start != 0 ==> u <= start <= end <= e && v.Slice(start, end) == Piece(v, r, u, e)
  {
    if u >= r.start && u < r.end {
      start := u;
    } else if r.start >= u && r.start < e {
      start := r.start;
    } else {
      start := 0;
    }
    if e >= r.start && e < r.end {
      end := e;
    } else if r.end >= u && r.end < e {
      end := r.end;
    } else {
      end := 0;
    }
    if start != 0 && end == 0 {
      end := e;
    } else if start == 0 && end != 0 {
      start := u;
    }
  }

  /** An algorithm fed `fed` has been fed the view up to address `x`, in chunks of `size`. */
  ghost predicate FedTo(v: View, regions: seq<Region>, size: nat, i: nat, fed: seq<Byte>, x: nat)
    requires AllValid(v, regions) && size > 0 && v.base <= x <= v.End()
  {
    if Ea.NamedAuthenticode(i)
    then fed + FileFeeds(v, regions, size, x) == FileFeeds(v, regions, size, v.base)
    else fed == v.Slice(v.base, x)
  }

  lemma FeedsOn(v: View, regions: seq<Region>, size: nat, x: nat, e: nat, before: seq<Byte>)
    requires AllValid(v, regions) && size > 0 && v.base <= x < v.End() && e == Min(x + size, v.End())
    ensures before + ChunkFeeds(v, regions, x, e) + FileFeeds(v, regions, size, e) == before + FileFeeds(v, regions, size, x)
  {
    Associate(before, ChunkFeeds(v, regions, x, e), FileFeeds(v, regions, size, e));
  }

  lemma SubSlice(v: View, chunk: seq<Byte>, u: nat, e: nat, start: nat, end: nat)
    requires v.base <= u <= start <= end <= e <= v.End() && chunk == v.Slice(u, e)
    ensures end - u <= |chunk| && chunk[start - u..end - u] == v.Slice(start, end)
  {
    var lo, hi := start - v.base, end - v.base;
    if u < e {
      assert chunk == v.bytes[u - v.base..e - v.base];
      assert v.bytes[lo..hi] == chunk[start - u..end - u];
    }
  }

  lemma SliceOn(v: View, x: nat, e: nat)
    requires v.base <= x <= e <= v.End()
    ensures v.Slice(v.base, x) + v.Slice(x, e) == v.Slice(v.base, e)
  {
  }

  lemma FedAtStart(v: View, regions: seq<Region>, size: nat)
    requires AllValid(v, regions) && size > 0
    ensures forall i :: FedTo(v, regions, size, i, [], v.base)
  {
    assert [] + FileFeeds(v, regions, size, v.base) == FileFeeds(v, regions, size, v.base);
  }

  lemma FedAtEnd(v: View, regions: seq<Region>, size: nat)
    requires AllValid(v, regions) && size > 0
    ensures forall i, fed :: FedTo(v, regions, size, i, fed, v.End()) ==>
      fed == if Ea.NamedAuthenticode(i) then FileFeeds(v, regions, size, v.base) else v.bytes
  {
    forall i, fed | FedTo(v, regions, size, i, fed, v.End())
      ensures fed == if Ea.NamedAuthenticode(i) then FileFeeds(v, regions, size, v.base) else v.bytes
    {
      assert fed + [] == fed;
    }
  }

  /** The next chunk [x, e) takes an algorithm from `x` to `e`. */
  lemma FedNext(v: View, regions: seq<Region>, size: nat, i: nat, before: seq<Byte>, x: nat, e: nat)
    requires AllValid(v, regions) && size > 0 && v.base <= x < v.End() && e == Min(x + size, v.End())
    requires FedTo(v, regions, size, i, before, x)
    ensures FedTo(v, regions, size, i,
                  before + (if Ea.NamedAuthenticode(i) then ChunkFeeds(v, regions, x, e) else v.Slice(x, e)), e)
  {
    FeedsOn(v, regions, size, x, e, before);
    SliceOn(v, x, e);
    hide View.Slice, ChunkFeeds, FileFeeds;
  }

  /** Without regions nothing is fed. */
  lemma {:induction false} NothingFed(v: View, size: nat, x: nat)
    requires v.base <= x <= v.End() && size > 0
    ensures FileFeeds(v, [], size, x) == []
    decreases v.End() - x
  {
    if x < v.End() {
      NothingFed(v, size, Min(x + size, v.End()));
    }
  }

  class Context {
    const buffer: array<Byte>
    var regions: seq<Region>
    /** Per algorithm: hashing was started and the digest is not yet complete. */
    var active: seq<bool>
    var fed: seq<seq<Byte>>
    /** Failures of the hash provider and of memory accesses so far. */
    ghost var failures: nat

    ghost predicate Valid()
      reads this
    {
      |active| == |fed| == ALGORITHMS && |regions| == 4 && buffer.Length > 0
    }

    /** What a chunk adds to algorithm `i`. */
    ghost function Adds(v: View, i: nat, u: nat, e: nat): seq<Byte>
      requires v.base <= u <= e <= v.End() && AllValid(v, Used(regions)) && Valid() && i < ALGORITHMS
      reads this
    {
      if !active[i] then []
      else if Ea.NamedAuthenticode(i) then ChunkFeeds(v, Used(regions), u, e)
      else v.Slice(u, e)
    }

    /** Feed the buffered chunk [u, u + length) to algorithm `k`, or stop where the hash provider fails. */
    method UpdateHash(ghost v: View, k: nat, authenticode: bool, u: nat, length: nat) returns (ok: bool)
      requires Valid() && k < ALGORITHMS && 0 < length <= buffer.Length && 0 < v.base <= u && u + length <= v.End()
      requires buffer[..length] == v.Slice(u, u + length) && AllValid(v, Used(regions))
      modifies this`fed, this`failures
      ensures Valid() && forall i :: 0 <= i < ALGORITHMS && i != k ==> fed[i] == old(fed)[i]
      ensures ok && authenticode ==> fed[k] == old(fed)[k] + ChunkFeeds(v, Used(regions), u, u + length)
      ensures ok && !authenticode ==> fed[k] == old(fed)[k] + v.Slice(u, u + length)
      ensures failures == old(failures) + if ok then 0 else 1
    {
      hide View.Slice;
      if !authenticode {
        ok := HashData(k, 0, length);
        return;
      }
      ghost var e := u + length;
      var i := 0;
      assert regions[0..] == regions;
      while i < |regions|
        invariant 0 <= i <= |regions| && Valid() && AllValid(v, Used(regions[i..])) && failures == old(failures)
        invariant forall j :: 0 <= j < ALGORITHMS && j != k ==> fed[j] == old(fed)[j]
        invariant fed[k] + ChunkFeeds(v, Used(regions[i..]), u, e) == old(fed)[k] + ChunkFeeds(v, Used(regions), u, e)
      {
        if regions[i].start == 0 {
          break;
        }
        UsedStep(regions[i..]);
        assert regions[i..][1..] == regions[i + 1..];
        ghost var before, rest := fed[k], Used(regions[i + 1..]);
        ok := FeedRegion(v, k, regions[i], u, length);
        if !ok {
          return;
        }
        assert AllValid(v, rest) by {
          assert forall j :: 0 <= j < |rest| ==> rest[j] == Used(regions[i..])[j + 1];
        }
        Associate(before, Piece(v, regions[i], u, e), ChunkFeeds(v, rest, u, e));
        i := i + 1;
      }
      ok := true;
    }

    /** Feed one region's part of the buffered chunk. */
    method FeedRegion(ghost v: View, k: nat, r: Region, u: nat, length: nat) returns (ok: bool)
      requires Valid() && k < ALGORITHMS && 0 < length <= buffer.Length && 0 < v.base <= u && u + length <= v.End()
      requires buffer[..length] == v.Slice(u, u + length) && ValidRegion(v, r)
      modifies this`fed, this`failures
      ensures Valid() && forall i :: 0 <= i < ALGORITHMS && i != k ==> fed[i] == old(fed)[i]
      ensures ok ==> fed[k] == old(fed)[k] + Piece(v, r, u, u + length)
      ensures failures == old(failures) + if ok then 0 else 1
    {
      hide View.Slice, Piece;
      var start, end := ClipRegion(v, r, u, u + length);
      if start == 0 {
        assert fed[k] + [] == fed[k];
        return true;
      }
      ghost var chunk := buffer[..length];
      SubSlice(v, chunk, u, u + length, start, end);
      assert buffer[start - u..end - u] == chunk[start - u..end - u];
      ok := HashData(k, start - u, end - start);
    }

    /** Hash `length` bytes of the buffer from `offset`; the hash provider may fail. */
    method HashData(k: nat, offset: nat, length: nat) returns (ok: bool)
      requires Valid() && k < ALGORITHMS && offset + length <= buffer.Length
      modifies this`fed, this`failures
      ensures Valid() && fed == if ok then old(fed)[k := old(fed)[k] + buffer[offset..offset + length]] else old(fed)
      ensures failures == old(failures) + if ok then 0 else 1
    {
      ok := *;
      if !ok {
        failures := failures + 1;
      } else {
        fed := fed[k := fed[k] + buffer[offset..offset + length]];
      }
    }

    /** Feed the buffered chunk to every algorithm that is being hashed. */
    method UpdateHashes(ghost v: View, u: nat, length: nat) returns (ok: bool)
      requires Valid() && 0 < length <= buffer.Length && 0 < v.base <= u && u + length <= v.End()
      requires buffer[..length] == v.Slice(u, u + length) && AllValid(v, Used(regions))
      modifies this`fed, this`failures
      ensures Valid()
      ensures ok ==> forall i :: 0 <= i < ALGORITHMS ==> fed[i] == old(fed)[i] + Adds(v, i, u, u + length)
      ensures failures == old(failures) + if ok then 0 else 1
    {
      var i := 0;
      while i < ALGORITHMS
        invariant 0 <= i <= ALGORITHMS && Valid() && failures == old(failures)
        invariant forall j :: 0 <= j < i ==> fed[j] == old(fed)[j] + Adds(v, j, u, u + length)
        invariant forall j :: i <= j < ALGORITHMS ==> fed[j] == old(fed)[j]
      {
        if active[i] {
          AuthenticodeByName(i);
          ok := UpdateHash(v, i, IsAuthenticode(i), u, length);
          if !ok {
            return;
          }
        }
        i := i + 1;
      }
      ok := true;
    }

    /** Copy and hash the whole view, chunk by chunk. Reading a page of the view may fail. */
    method HashView(v: View) returns (ok: bool)
      requires Valid() && 0 < v.base && AllValid(v, Used(regions)) && forall i :: 0 <= i < ALGORITHMS ==> fed[i] == []
      modifies this`fed, this`failures, buffer
      ensures Valid()
      ensures ok ==> forall i :: 0 <= i < ALGORITHMS && active[i] ==>
        fed[i] == if Ea.NamedAuthenticode(i) then FileFeeds(v, Used(regions), buffer.Length, v.base) else v.bytes
      ensures failures == old(failures) + if ok then 0 else 1
    {
      hide View.Slice, FedTo, FileFeeds, ChunkFeeds, Used;
      var offset := 0;
      FedAtStart(v, Used(regions), buffer.Length);
      while offset < |v.bytes|
        invariant 0 <= offset <= |v.bytes| && Valid() && failures == old(failures)
        invariant forall i :: 0 <= i < ALGORITHMS && active[i] ==> FedTo(v, Used(regions), buffer.Length, i, fed[i], v.base + offset)
      {
        var size := if |v.bytes| - offset < buffer.Length then |v.bytes| - offset else buffer.Length;
        var readable: bool := *;
        if !readable {
          failures := failures + 1;
          return false;
        }
        CopyChunk(v, offset, size);
        ok := HashChunk(v, v.base + offset, size);
        if !ok {
          return;
        }
        offset := offset + size;
      }
      ok := true;
      assert v.base + offset == v.End();
      FedAtEnd(v, Used(regions), buffer.Length);
    }

    /**
     Hash a mapped file: work out the regions if an authenticode hash is wanted, whether or not that
     succeeds, then hash the view. Touching the headers may fail as well.
     */
    method HashMapped(v: View, image: Image) returns (ok: bool)
      requires Valid() && 0 < v.base && Used(regions) == [] && forall i :: 0 <= i < ALGORITHMS ==> fed[i] == []
      modifies this`regions, this`fed, this`failures, buffer
      ensures Valid()
      ensures ok ==> forall i :: 0 <= i < ALGORITHMS && active[i] && !Ea.NamedAuthenticode(i) ==> fed[i] == v.bytes
      ensures ok && !Acceptable(v, image) ==> forall i :: 0 <= i < ALGORITHMS && active[i] && Ea.NamedAuthenticode(i) ==> fed[i] == []
      ensures ok && Acceptable(v, image) ==> forall i :: 0 <= i < ALGORITHMS && active[i] && Ea.NamedAuthenticode(i) ==>
        (fed[i] == Kept(v, image, v.End())
         <==> forall k :: 0 <= k < |AuthenticodeRegions(v, image)| ==>
                !OnBoundary(v, AuthenticodeRegions(v, image)[k], buffer.Length))
      ensures failures == old(failures) + if ok then 0 else 1
    {
      hide AuthenticodeRegions, Acceptable, OnBoundary, Kept;
      forall i: nat ensures IsAuthenticode(i) <==> Ea.NamedAuthenticode(i) { AuthenticodeByName(i); }
      hide Ea.NamedAuthenticode;
      if active[2] || active[4] {
        if * {
          failures := failures + 1;
          return false;
        }
        var status := InitializeAuthenticode(v, image);
        if status {
          AuthenticodeFed(v, image, buffer.Length);
        }
      }
      assert AllValid(v, Used(regions));
      hide Used;
      ok := HashView(v);
      NothingFed(v, buffer.Length, v.base);
    }

    method HashChunk(ghost v: View, u: nat, size: nat) returns (ok: bool)
      requires Valid() && 0 < v.base <= u < v.End() && AllValid(v, Used(regions)) && 0 < size <= buffer.Length
      requires u + size == Min(u + buffer.Length, v.End()) && buffer[..size] == v.Slice(u, u + size)
      requires forall i :: 0 <= i < ALGORITHMS && active[i] ==> FedTo(v, Used(regions), buffer.Length, i, fed[i], u)
      modifies this`fed, this`failures
      ensures Valid()
      ensures ok ==>
        forall i :: 0 <= i < ALGORITHMS && active[i] ==> FedTo(v, Used(regions), buffer.Length, i, fed[i], u + size)
      ensures failures == old(failures) + if ok then 0 else 1
    {
      hide ChunkFeeds, Used, ValidRegion, FileFeeds, View.Slice, FedTo;
      ghost var before := fed;
      ok := UpdateHashes(v, u, size);
      if ok {
        forall i | 0 <= i < ALGORITHMS && active[i] ensures FedTo(v, Used(regions), buffer.Length, i, fed[i], u + size) {
          FedNext(v, Used(regions), buffer.Length, i, before[i], u, u + size);
        }
      }
    }

    method CopyChunk(v: View, offset: nat, size: nat)
      requires Valid() && offset + size <= |v.bytes| && size <= buffer.Length
      modifies buffer
      ensures buffer[..size] == v.Slice(v.base + offset, v.base + offset + size)
    {
      forall i | 0 <= i < size {
        buffer[i] := v.bytes[offset + i];
      }
    }

    /** Every used region lies in the view and is not reversed. */
    method VerifyRegions(v: View) returns (ok: bool)
      ensures ok <==> AllValid(v, Used(regions))
    {
      var i := 0;
      assert regions[0..] == regions;
      while i < |regions|
        invariant 0 <= i <= |regions|
        invariant AllValid(v, Used(regions[i..])) <==> AllValid(v, Used(regions))
      {
        if regions[i].start == 0 {
          break;
        }
        UsedStep(regions[i..]);
        assert regions[i..][1..] == regions[i + 1..];
        if !ValidRegion(v, regions[i]) {
          return false;
        }
        i := i + 1;
      }
      ok := true;
    }

    /** Work out the regions from the image headers; a failure leaves no region at all. */
    method InitializeAuthenticode(v: View, image: Image) returns (ok: bool)
      requires Valid() && 0 < v.base
      modifies this`regions
      ensures Valid() && (ok <==> Acceptable(v, image))
      ensures Used(regions) == if ok then AuthenticodeRegions(v, image) else []
    {
      if image.NoHeaders? || (HasMagic(image) && image.magic != MAGIC32 && image.magic != MAGIC64) {
        ClearRegions();
        return false;
      }
      SetRegions(v, image);
      VerifiedIsAcceptable(v, image);
      hide AuthenticodeRegions, Acceptable, Used;
      ok := VerifyRegions(v);
      if ok && HasCertificates(image) {
        var certificates := v.base + image.securityAddress;
        ok := ValidRegion(v, Region(certificates, certificates + image.securitySize));
      }
      if !ok {
        ClearRegions();
      }
    }

    method ClearRegions()
      requires Valid()
      modifies this`regions
      ensures Valid() && Used(regions) == []
    {
      regions := [Region(0, 0), Region(0, 0), Region(0, 0), Region(0, 0)];
    }

    /** The regions between the parts that are left out, before they are verified. */
    method SetRegions(v: View, image: Image)
      requires Valid() && 0 < v.base && image.Image?
      requires HasMagic(image) ==> image.magic == MAGIC32 || image.magic == MAGIC64
      modifies this`regions
      ensures Valid() && Used(regions) == AuthenticodeRegions(v, image)
    {
      hide Used;
      var none := Region(0, 0);
      regions := [none, none, none, none];
      if !HasMagic(image) {
        regions := regions[0 := Region(v.base, v.End())];
      } else {
        if CHECKSUM + 4 > image.size {
          regions := regions[0 := Region(v.base, v.End())];
        } else {
          regions := regions[0 := Region(v.base, image.optional + CHECKSUM)];
          if DirectoriesOffset(image) + 4 > image.size || image.directories <= 4 {
            regions := regions[1 := Region(image.optional + SUBSYSTEM, v.End())];
          } else {
            regions := regions[1 := Region(image.optional + SUBSYSTEM, SecurityEntry(image))];
            if image.securityAddress == 0 || image.securitySize == 0 {
              regions := regions[2 := Region(SecurityEntry(image) + 8, v.End())];
            } else {
              var certificates := v.base + image.securityAddress;
              regions := regions[2 := Region(SecurityEntry(image) + 8, certificates)];
              if certificates + image.securitySize < v.End() {
                regions := regions[3 := Region(certificates + image.securitySize, v.End())];
              }
            }
          }
        }
      }
      UsedOfFour(regions[0], regions[1], regions[2], regions[3]);
      assert regions == [regions[0], regions[1], regions[2], regions[3]];
    }
  }
}
