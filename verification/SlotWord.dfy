/**
 The machine word of an atomic object reference (64-bit layout): bits 0-2 count shared holders,
 bit 3 is the exclusive lock, the rest is the object's address.
 */
module SlotWord {

  /** An object's address. */
  datatype Ptr = Ptr(address: bv64)

  const NULL: Ptr := Ptr(0)
  const SHARED_MAX: bv64 := 7
  const EXCLUSIVE_FLAG: bv64 := 8
  const LOCK_MASK: bv64 := 0xf
  const OBJECT_MASK: bv64 := 0xffff_ffff_ffff_fff0

  predicate Aligned(p: Ptr) {
    p.address & LOCK_MASK == 0
  }

  /** What a word means. */
  datatype Lock = Lock(obj: Ptr, exclusive: bool, shared: nat)

  function SharedCount(w: bv64): (n: nat)
    ensures n <= 7
  {
    var c := w & SHARED_MAX;
    if c == 0 then 0 else if c == 1 then 1 else if c == 2 then 2 else if c == 3 then 3
    else if c == 4 then 4 else if c == 5 then 5 else if c == 6 then 6 else 7
  }

  function Unpack(w: bv64): Lock {
    Lock(Ptr(w & OBJECT_MASK), w & EXCLUSIVE_FLAG != 0, SharedCount(w))
  }

  function CountBits(n: nat): bv64
    requires n <= 7
  {
    if n == 0 then 0 else if n == 1 then 1 else if n == 2 then 2 else if n == 3 then 3
    else if n == 4 then 4 else if n == 5 then 5 else if n == 6 then 6 else 7
  }

  lemma CountBitsInverse(w: bv64)
    ensures CountBits(SharedCount(w)) == w & SHARED_MAX
  {
  }

  lemma Reassemble(w: bv64)
    ensures w == (w & OBJECT_MASK) | (w & EXCLUSIVE_FLAG) | (w & SHARED_MAX)
  {
  }

  /** A word is determined by its meaning, so a successful compare-exchange compares meanings. */
  lemma UnpackInjective(a: bv64, b: bv64)
    requires Unpack(a) == Unpack(b)
    ensures a == b
  {
    CountBitsInverse(a);
    CountBitsInverse(b);
    Reassemble(a);
    Reassemble(b);
    ExclusiveBit(a);
    ExclusiveBit(b);
  }

  lemma ExclusiveBit(w: bv64)
    ensures w & EXCLUSIVE_FLAG == if Unpack(w).exclusive then EXCLUSIVE_FLAG else 0
  {
  }

  /** The guard of the shared acquire refuses exactly a held exclusive lock and a full count. */
  lemma SharedGuard(w: bv64)
    ensures w & LOCK_MASK >= SHARED_MAX <==> Unpack(w).exclusive || Unpack(w).shared == 7
  {
  }

  /** Under that guard adding one never carries into the exclusive bit or the address. */
  lemma IncrementShared(w: bv64)
    requires w & LOCK_MASK < SHARED_MAX
    ensures Unpack(w + 1) == Unpack(w).(shared := Unpack(w).shared + 1)
  {
    assert (w + 1) & OBJECT_MASK == w & OBJECT_MASK;
    assert (w + 1) & EXCLUSIVE_FLAG == w & EXCLUSIVE_FLAG;
    assert (w + 1) & SHARED_MAX == (w & SHARED_MAX) + 1;
  }

  /** With a holder counted, subtracting one never borrows. */
  lemma DecrementShared(w: bv64)
    requires Unpack(w).shared > 0
    ensures Unpack(w - 1) == Unpack(w).(shared := Unpack(w).shared - 1)
    ensures (w - 1) & SHARED_MAX < SHARED_MAX
  {
    assert w & SHARED_MAX != 0;
    assert (w - 1) & OBJECT_MASK == w & OBJECT_MASK;
    assert (w - 1) & EXCLUSIVE_FLAG == w & EXCLUSIVE_FLAG;
    assert (w - 1) & SHARED_MAX == (w & SHARED_MAX) - 1;
  }

  lemma SetExclusive(w: bv64)
    ensures Unpack(w | EXCLUSIVE_FLAG) == Unpack(w).(exclusive := true)
  {
    assert (w | EXCLUSIVE_FLAG) & OBJECT_MASK == w & OBJECT_MASK;
    assert (w | EXCLUSIVE_FLAG) & SHARED_MAX == w & SHARED_MAX;
  }

  lemma ResetExclusive(w: bv64)
    ensures Unpack(w & !EXCLUSIVE_FLAG) == Unpack(w).(exclusive := false)
  {
    assert (w & !EXCLUSIVE_FLAG) & OBJECT_MASK == w & OBJECT_MASK;
    assert (w & !EXCLUSIVE_FLAG) & SHARED_MAX == w & SHARED_MAX;
  }

  lemma DrainGuard(w: bv64)
    ensures w & SHARED_MAX != 0 <==> Unpack(w).shared != 0
  {
  }

  lemma StoreWord(p: Ptr)
    requires Aligned(p)
    ensures Unpack(p.address | EXCLUSIVE_FLAG) == Lock(p, true, 0)
  {
    assert (p.address | EXCLUSIVE_FLAG) & OBJECT_MASK == p.address;
    assert (p.address | EXCLUSIVE_FLAG) & SHARED_MAX == 0;
  }
}
