/**
 The digest cache in a file's extended attributes: the list of FILE_FULL_EA_INFORMATION records the
 driver writes into a byte buffer, and the walk that loads digests from such a list.
 */
module EaList {
  import opened Basics

  const ALGORITHMS: nat := 7
  /** The buffer both directions use. */
  const BUFFER_SIZE: nat := 16384

  /** An attribute: its name and value. */
  datatype Item = Item(name: seq<Byte>, value: seq<Byte>)

  /** A digest slot of the hashing context. */
  datatype Slot = Slot(complete: bool, hash: seq<Byte>)

  /** "$KERNEL.PURGE.SI." */
  const PREFIX: seq<Byte> := [36, 75, 69, 82, 78, 69, 76, 46, 80, 85, 82, 71, 69, 46, 83, 73, 46]

  /** "MD5", "SHA1", "SHA1A", "SHA256", "SHA256A", "SHA384", "SHA512" */
  function Suffix(i: nat): seq<Byte>
    requires i < ALGORITHMS
  {
    match i
    case 0 => [77, 68, 53]
    case 1 => [83, 72, 65, 49]
    case 2 => [83, 72, 65, 49, 65]
    case 3 => [83, 72, 65, 50, 53, 54]
    case 4 => [83, 72, 65, 50, 53, 54, 65]
    case 5 => [83, 72, 65, 51, 56, 52]
    case _ => [83, 72, 65, 53, 49, 50]
  }

  function Name(i: nat): seq<Byte>
    requires i < ALGORITHMS
  {
    PREFIX + Suffix(i)
  }

  function DigestSize(i: nat): nat
    requires i < ALGORITHMS
  {
    match i
    case 0 => 16
    case 1 => 20
    case 2 => 20
    case 3 => 32
    case 4 => 32
    case 5 => 48
    case _ => 64
  }

  /** The characters of an ASCII string as bytes. */
  function Ascii(text: string): (b: seq<Byte>)
    requires forall i :: 0 <= i < |text| ==> text[i] as int < 128
  {
    seq(|text|, i requires 0 <= i < |text| => text[i] as int)
  }

  lemma Md5Row()
    ensures Name(0) == Ascii("$KERNEL.PURGE.SI.MD5") && 8 * DigestSize(0) == 128
  {
  }

  lemma Sha1Row()
    ensures Name(1) == Ascii("$KERNEL.PURGE.SI.SHA1") && 8 * DigestSize(1) == 160
  {
  }

  lemma Sha1aRow()
    ensures Name(2) == Ascii("$KERNEL.PURGE.SI.SHA1A") && 8 * DigestSize(2) == 160
  {
  }

  lemma Sha256Row()
    ensures Name(3) == Ascii("$KERNEL.PURGE.SI.SHA256") && 8 * DigestSize(3) == 256
  {
  }

  lemma Sha256aRow()
    ensures Name(4) == Ascii("$KERNEL.PURGE.SI.SHA256A") && 8 * DigestSize(4) == 256
  {
  }

  lemma Sha384Row()
    ensures Name(5) == Ascii("$KERNEL.PURGE.SI.SHA384") && 8 * DigestSize(5) == 384
  {
  }

  lemma Sha512Row()
    ensures Name(6) == Ascii("$KERNEL.PURGE.SI.SHA512") && 8 * DigestSize(6) == 512
  {
  }

  /** Each algorithm by its attribute's name, and its digest's size in bits. */
  lemma AlgorithmTable()
    ensures Name(0) == Ascii("$KERNEL.PURGE.SI.MD5") && 8 * DigestSize(0) == 128
    ensures Name(1) == Ascii("$KERNEL.PURGE.SI.SHA1") && 8 * DigestSize(1) == 160
    ensures Name(2) == Ascii("$KERNEL.PURGE.SI.SHA1A") && 8 * DigestSize(2) == 160
    ensures Name(3) == Ascii("$KERNEL.PURGE.SI.SHA256") && 8 * DigestSize(3) == 256
    ensures Name(4) == Ascii("$KERNEL.PURGE.SI.SHA256A") && 8 * DigestSize(4) == 256
    ensures Name(5) == Ascii("$KERNEL.PURGE.SI.SHA384") && 8 * DigestSize(5) == 384
    ensures Name(6) == Ascii("$KERNEL.PURGE.SI.SHA512") && 8 * DigestSize(6) == 512
  {
    hide Name, Ascii, DigestSize;
    Md5Row();
    Sha1Row();
    Sha1aRow();
    Sha256Row();
    Sha256aRow();
    Sha384Row();
    Sha512Row();
  }

  /** The digest is an authenticode one: its attribute's name says so with a final "A". */
  predicate NamedAuthenticode(i: nat) {
    i < ALGORITHMS && Name(i)[|Name(i)| - 1] == 'A' as int
  }

  lemma NamesDistinct(i: nat, j: nat)
    requires i < ALGORITHMS && j < ALGORITHMS && Name(i) == Name(j)
    ensures i == j
  {
    assert Suffix(i) == Name(i)[|PREFIX|..] && Suffix(j) == Name(j)[|PREFIX|..];
    assert |Suffix(i)| == 6 ==> Suffix(i)[3] == Suffix(j)[3];
  }

  // ---- bytes ----

  /** Two bytes, low one first. */
  function Pair(low: int, high: int): int {
    low + high * 256
  }

  function Short(v: nat): (b: seq<Byte>)
    requires v < 0x1_0000
    ensures |b| == 2 && Pair(b[0], b[1]) == v
  {
    [v % 256, v / 256]
  }

  function Long(v: nat): (b: seq<Byte>)
    requires v < 0x1_0000_0000
    ensures |b| == 4 && Pair(b[0], b[1]) + Pair(b[2], b[3]) * 0x1_0000 == v
  {
    Short(v % 0x1_0000) + Short(v / 0x1_0000)
  }

  function ShortAt(b: seq<Byte>, pos: nat): nat
    requires pos + 2 <= |b|
  {
    Pair(b[pos], b[pos + 1])
  }

  function LongAt(b: seq<Byte>, pos: nat): nat
    requires pos + 4 <= |b|
  {
    Pair(b[pos], b[pos + 1]) + Pair(b[pos + 2], b[pos + 3]) * 0x1_0000
  }

  predicate Matches(b: seq<Byte>, pos: nat, xs: seq<Byte>) {
    pos + |xs| <= |b| && b[pos..pos + |xs|] == xs
  }

  predicate Aligned(n: nat) {
    n % 4 == 0
  }

  lemma AlignedSum(a: nat, b: nat)
    requires Aligned(a) && Aligned(b)
    ensures Aligned(a + b)
  {
  }

  function AlignUp(n: nat): (r: nat)
    ensures Aligned(r) && n <= r < n + 4
  {
    (n + 3) / 4 * 4
  }

  /** The length of a record, padded so that the next one is aligned. */
  function RecordLength(x: Item): (r: nat)
    ensures Aligned(r) && 9 + |x.name| + |x.value| <= r < 13 + |x.name| + |x.value|
  {
    AlignUp(8 + |x.name| + 1 + |x.value|)
  }

  function Total(items: seq<Item>): nat {
    if items == [] then 0 else RecordLength(items[0]) + Total(items[1..])
  }

  lemma {:induction false} TotalAligned(items: seq<Item>)
    ensures Aligned(Total(items))
  {
    if items != [] {
      TotalAligned(items[1..]);
      AlignedSum(RecordLength(items[0]), Total(items[1..]));
    }
  }

  /** The record at `pos` holds the attribute: flags, name length, value length, name, NUL, value. */
  ghost predicate RecordAt(b: seq<Byte>, pos: nat, x: Item) {
    && |x.name| < 256 && |x.value| < 0x1_0000
    && Matches(b, pos + 4, [0]) && Matches(b, pos + 5, [|x.name|]) && Matches(b, pos + 6, Short(|x.value|))
    && Matches(b, pos + 8, x.name) && Matches(b, pos + 8 + |x.name|, [0]) && Matches(b, pos + 9 + |x.name|, x.value)
  }

  /** Records one after the other, every one pointing to the next. */
  ghost predicate Chain(b: seq<Byte>, pos: nat, items: seq<Item>)
    decreases |items|
  {
    items == [] ||
    (&& RecordAt(b, pos, items[0]) && pos + RecordLength(items[0]) <= |b|
     && LongAt(b, pos) == RecordLength(items[0])
     && Chain(b, pos + RecordLength(items[0]), items[1..]))
  }

  /** A list as the file system takes and gives it: any aligned distance between records, 0 at the last. */
  ghost predicate ListAt(b: seq<Byte>, pos: nat, items: seq<Item>)
    decreases |items|
  {
    && items != [] && Aligned(pos) && RecordAt(b, pos, items[0])
    && if |items| == 1 then LongAt(b, pos) == 0
       else LongAt(b, pos) >= RecordLength(items[0]) && ListAt(b, pos + LongAt(b, pos), items[1..])
  }

  // ---- writing into the buffer ----

  function Patch(b: seq<Byte>, pos: nat, xs: seq<Byte>): (r: seq<Byte>)
    requires pos + |xs| <= |b|
    ensures |r| == |b|
  {
    b[..pos] + xs + b[pos + |xs|..]
  }

  lemma PatchMatches(b: seq<Byte>, pos: nat, xs: seq<Byte>)
    requires pos + |xs| <= |b|
    ensures Matches(Patch(b, pos, xs), pos, xs)
  {
  }

  lemma PatchNext(b: seq<Byte>, pos: nat, xs: seq<Byte>, i: nat)
    requires pos + |xs| <= |b| && i < |xs|
    ensures Patch(b, pos, xs[..i + 1]) == Patch(b, pos, xs[..i])[pos + i := xs[i]]
  {
  }

  lemma PatchElsewhere(b: seq<Byte>, pos: nat, xs: seq<Byte>, p: nat, ys: seq<Byte>)
    requires pos + |xs| <= |b| && Matches(b, p, ys) && (p + |ys| <= pos || pos + |xs| <= p)
    ensures Matches(Patch(b, pos, xs), p, ys)
  {
    var r := Patch(b, pos, xs);
    forall k | 0 <= k < |ys| ensures r[p..p + |ys|][k] == ys[k] {
      assert ys[k] == b[p..p + |ys|][k] == b[p + k];
      assert r[p + k] == b[p + k];
    }
  }

  method PutBytes(b: array<Byte>, pos: nat, xs: seq<Byte>)
    requires pos + |xs| <= b.Length
    modifies b
    ensures b[..] == Patch(old(b[..]), pos, xs)
  {
    var i := 0;
    assert Patch(b[..], pos, []) == b[..];
    while i < |xs|
      invariant 0 <= i <= |xs|
      invariant b[..] == Patch(old(b[..]), pos, xs[..i])
    {
      hide Patch;
      PatchNext(old(b[..]), pos, xs, i);
      ghost var before := b[..];
      b[pos + i] := xs[i];
      assert b[..] == before[pos + i := xs[i]];
      i := i + 1;
    }
    assert xs[..i] == xs;
  }

  /** The fixed part of a record after its Next field: flags, name length, value length. */
  function Head(x: Item): (r: seq<Byte>)
    requires |x.name| < 256 && |x.value| < 0x1_0000
    ensures |r| == 4
  {
    [0] + [|x.name|] + Short(|x.value|)
  }

  /** The rest of it: name, NUL, value. */
  function Body(x: Item): (r: seq<Byte>)
    ensures |r| == |x.name| + 1 + |x.value|
  {
    x.name + [0] + x.value
  }

  lemma MatchesParts(b: seq<Byte>, pos: nat, xs: seq<Byte>, ys: seq<Byte>)
    requires Matches(b, pos, xs + ys)
    ensures Matches(b, pos, xs) && Matches(b, pos + |xs|, ys)
  {
    assert (xs + ys)[..|xs|] == xs && (xs + ys)[|xs|..] == ys;
    var both := b[pos..pos + |xs + ys|];
    assert both == xs + ys;
    assert b[pos..pos + |xs|] == both[..|xs|];
    assert b[pos + |xs|..pos + |xs| + |ys|] == both[|xs|..];
  }

  lemma MatchesWhole(b: seq<Byte>, pos: nat, xs: seq<Byte>, ys: seq<Byte>)
    requires Matches(b, pos, xs) && Matches(b, pos + |xs|, ys)
    ensures Matches(b, pos, xs + ys)
  {
    assert b[pos..pos + |xs| + |ys|] == b[pos..pos + |xs|] + b[pos + |xs|..pos + |xs| + |ys|];
  }

  lemma HeadParts(b: seq<Byte>, pos: nat, x: Item)
    requires |x.name| < 256 && |x.value| < 0x1_0000 && Matches(b, pos + 4, Head(x))
    ensures Matches(b, pos + 4, [0]) && Matches(b, pos + 5, [|x.name|]) && Matches(b, pos + 6, Short(|x.value|))
  {
    var flags: seq<Byte> := [0];
    hide Matches;
    MatchesParts(b, pos + 4, flags + [|x.name|], Short(|x.value|));
    MatchesParts(b, pos + 4, flags, [|x.name|]);
  }

  lemma BodyParts(b: seq<Byte>, pos: nat, x: Item)
    requires Matches(b, pos + 8, Body(x))
    ensures Matches(b, pos + 8, x.name) && Matches(b, pos + 8 + |x.name|, [0]) && Matches(b, pos + 9 + |x.name|, x.value)
  {
    var nul: seq<Byte> := [0];
    hide Matches;
    MatchesParts(b, pos + 8, x.name + nul, x.value);
    MatchesParts(b, pos + 8, x.name, nul);
  }

  /** Write `xs` right after `acc`, leaving that and everything before it alone. */
  method PutAfter(b: array<Byte>, pos: nat, ghost acc: seq<Byte>, at: nat, xs: seq<Byte>)
    requires Matches(b[..], pos, acc) && at == pos + |acc| && at + |xs| <= b.Length
    modifies b
    ensures Matches(b[..], pos, acc + xs) && b[..pos] == old(b[..pos])
  {
    ghost var before := b[..];
    PutBytes(b, at, xs);
    PatchMatches(before, at, xs);
    PatchElsewhere(before, at, xs, pos, acc);
    MatchesWhole(b[..], pos, acc, xs);
    assert b[..pos] == b[..][..pos] == before[..pos];
  }

  /** One record, its Next field set to its own padded length. */
  method WriteRecord(b: array<Byte>, pos: nat, x: Item)
    requires |x.name| < 256 && |x.value| < 0x1_0000 && pos + RecordLength(x) <= b.Length
    modifies b
    ensures RecordAt(b[..], pos, x) && LongAt(b[..], pos) == RecordLength(x)
    ensures b[..pos] == old(b[..pos])
  {
    hide Matches, Head, Body, LongAt, Patch, Long, RecordLength;
    WriteHead(b, pos, x);
    WriteBody(b, pos, x);
    ghost var before := b[..];
    PutBytes(b, pos, Long(RecordLength(x)));
    WrittenRecord(before, b[..], pos, x);
  }

  lemma WrittenRecord(before: seq<Byte>, after: seq<Byte>, pos: nat, x: Item)
    requires |x.name| < 256 && |x.value| < 0x1_0000 && pos + 4 <= |before|
    requires Matches(before, pos + 4, Head(x)) && Matches(before, pos + 8, Body(x))
    requires after == Patch(before, pos, Long(RecordLength(x)))
    ensures RecordAt(after, pos, x) && LongAt(after, pos) == RecordLength(x)
    ensures after[..pos] == before[..pos]
  {
    var next := Long(RecordLength(x));
    PatchMatches(before, pos, next);
    LongMatches(after, pos, RecordLength(x));
    PatchPrefix(before, pos, next);
    hide Matches, Head, Body, LongAt, Patch, RecordLength, Long;
    PatchElsewhere(before, pos, next, pos + 4, Head(x));
    PatchElsewhere(before, pos, next, pos + 8, Body(x));
    HeadParts(after, pos, x);
    BodyParts(after, pos, x);
  }

  method WriteHead(b: array<Byte>, pos: nat, x: Item)
    requires |x.name| < 256 && |x.value| < 0x1_0000 && pos + 8 <= b.Length
    modifies b
    ensures Matches(b[..], pos + 4, Head(x)) && b[..pos] == old(b[..pos])
  {
    var flags: seq<Byte> := [0];
    assert Matches(b[..], pos + 4, []);
    assert [] + flags == flags;
    hide Matches;
    PutAfter(b, pos + 4, [], pos + 4, flags);
    PutAfter(b, pos + 4, flags, pos + 5, [|x.name|]);
    PutAfter(b, pos + 4, flags + [|x.name|], pos + 6, Short(|x.value|));
    assert b[..pos] == b[..pos + 4][..pos];
  }

  method WriteBody(b: array<Byte>, pos: nat, x: Item)
    requires |x.name| < 256 && |x.value| < 0x1_0000 && pos + 9 + |x.name| + |x.value| <= b.Length
    requires Matches(b[..], pos + 4, Head(x))
    modifies b
    ensures Matches(b[..], pos + 4, Head(x)) && Matches(b[..], pos + 8, Body(x)) && b[..pos] == old(b[..pos])
  {
    var n := |x.name|;
    var nul: seq<Byte> := [0];
    ghost var before := b[..];
    assert Matches(b[..], pos + 8, []);
    assert [] + x.name == x.name;
    hide Matches, Head;
    PutAfter(b, pos + 8, [], pos + 8, x.name);
    PutAfter(b, pos + 8, x.name, pos + 8 + n, nul);
    PutAfter(b, pos + 8, x.name + nul, pos + 9 + n, x.value);
    assert b[..][..pos + 8] == b[..pos + 8] == before[..pos + 8];
    MatchesPrefix(before, b[..], pos + 8, pos + 4, Head(x));
    assert b[..pos] == b[..pos + 8][..pos];
  }

  lemma LongMatches(b: seq<Byte>, pos: nat, v: nat)
    requires v < 0x1_0000_0000 && Matches(b, pos, Long(v))
    ensures LongAt(b, pos) == v
  {
    var xs := b[pos..pos + 4];
    assert xs[0] == b[pos] && xs[1] == b[pos + 1] && xs[2] == b[pos + 2] && xs[3] == b[pos + 3];
  }

  // ---- chains of records ----

  lemma MatchesPrefix(b: seq<Byte>, c: seq<Byte>, n: nat, pos: nat, xs: seq<Byte>)
    requires n <= |b| && n <= |c| && b[..n] == c[..n] && Matches(b, pos, xs) && pos + |xs| <= n
    ensures Matches(c, pos, xs)
  {
    assert b[pos..pos + |xs|] == b[..n][pos..pos + |xs|];
    assert c[pos..pos + |xs|] == c[..n][pos..pos + |xs|];
  }

  lemma RecordPrefix(b: seq<Byte>, c: seq<Byte>, n: nat, pos: nat, x: Item)
    requires n <= |b| && n <= |c| && b[..n] == c[..n] && RecordAt(b, pos, x) && pos + RecordLength(x) <= n
    ensures RecordAt(c, pos, x) && LongAt(c, pos) == LongAt(b, pos)
  {
    hide Matches;
    MatchesPrefix(b, c, n, pos + 4, [0]);
    MatchesPrefix(b, c, n, pos + 5, [|x.name|]);
    MatchesPrefix(b, c, n, pos + 6, Short(|x.value|));
    MatchesPrefix(b, c, n, pos + 8, x.name);
    MatchesPrefix(b, c, n, pos + 8 + |x.name|, [0]);
    MatchesPrefix(b, c, n, pos + 9 + |x.name|, x.value);
    assert b[pos] == b[..n][pos] && b[pos + 1] == b[..n][pos + 1] && b[pos + 2] == b[..n][pos + 2] && b[pos + 3] == b[..n][pos + 3];
    assert c[pos] == c[..n][pos] && c[pos + 1] == c[..n][pos + 1] && c[pos + 2] == c[..n][pos + 2] && c[pos + 3] == c[..n][pos + 3];
  }

  lemma {:induction false} ChainPrefix(b: seq<Byte>, c: seq<Byte>, pos: nat, items: seq<Item>)
    requires Chain(b, pos, items) && pos + Total(items) <= |b| && pos + Total(items) <= |c|
    requires b[..pos + Total(items)] == c[..pos + Total(items)]
    ensures Chain(c, pos, items)
    decreases |items|
  {
    if items != [] {
      hide RecordAt, RecordLength, LongAt;
      RecordPrefix(b, c, pos + Total(items), pos, items[0]);
      ChainPrefix(b, c, pos + RecordLength(items[0]), items[1..]);
    }
  }

  lemma {:induction false} ChainAppend(b: seq<Byte>, pos: nat, items: seq<Item>, x: Item)
    requires Chain(b, pos, items) && RecordAt(b, pos + Total(items), x) && pos + Total(items) + RecordLength(x) <= |b|
    requires LongAt(b, pos + Total(items)) == RecordLength(x)
    ensures Chain(b, pos, items + [x]) && Total(items + [x]) == Total(items) + RecordLength(x)
    decreases |items|
  {
    hide RecordAt, RecordLength, LongAt;
    if items == [] {
      assert items + [x] == [x];
    } else {
      assert (items + [x])[1..] == items[1..] + [x];
      ChainAppend(b, pos + RecordLength(items[0]), items[1..], x);
    }
  }

  lemma ChainFirst(b: seq<Byte>, pos: nat, items: seq<Item>)
    requires Chain(b, pos, items) && items != []
    ensures RecordAt(b, pos, items[0]) && pos + RecordLength(items[0]) <= |b| && LongAt(b, pos) == RecordLength(items[0])
    ensures Chain(b, pos + RecordLength(items[0]), items[1..])
  {
  }

  lemma ListFirst(b: seq<Byte>, pos: nat, items: seq<Item>)
    requires |items| > 1 && Aligned(pos) && RecordAt(b, pos, items[0]) && LongAt(b, pos) == RecordLength(items[0])
    requires ListAt(b, pos + RecordLength(items[0]), items[1..])
    ensures ListAt(b, pos, items)
  {
    hide RecordAt, LongAt, RecordLength, Aligned;
  }

  function LastLength(items: seq<Item>): nat
    requires items != []
  {
    RecordLength(items[|items| - 1])
  }

  lemma LastOfRest(items: seq<Item>)
    requires |items| > 1
    ensures LastLength(items[1..]) == LastLength(items) && Total(items) == RecordLength(items[0]) + Total(items[1..])
  {
  }

  /** Zeroing the Next field of the last record turns the chain into a list. */
  lemma {:induction false} ChainCloses(b: seq<Byte>, c: seq<Byte>, pos: nat, items: seq<Item>, last: nat)
    requires items != [] && Chain(b, pos, items) && Aligned(pos)
    requires last + LastLength(items) == pos + Total(items) && last + 4 <= |b|
    requires c == Patch(b, last, Long(0))
    ensures ListAt(c, pos, items)
    decreases |items|
  {
    hide RecordAt, LongAt, Patch, RecordLength, Aligned, Chain, ListAt, Total, LastLength, Long;
    TotalOfRest(items);
    ChainFirst(b, pos, items);
    if |items| == 1 {
      SingleTotal(items);
      LastCloses(b, pos, items[0]);
      ListSingle(c, pos, items);
    } else {
      LastOfRest(items);
      AlignedSum(pos, RecordLength(items[0]));
      PatchPrefix(b, last, Long(0));
      RecordPrefix(b, c, last, pos, items[0]);
      ChainCloses(b, c, pos + RecordLength(items[0]), items[1..], last);
      ListFirst(c, pos, items);
    }
  }

  lemma SingleTotal(items: seq<Item>)
    requires |items| == 1
    ensures Total(items) == LastLength(items)
  {
  }

  lemma ListSingle(b: seq<Byte>, pos: nat, items: seq<Item>)
    requires |items| == 1 && Aligned(pos) && RecordAt(b, pos, items[0]) && LongAt(b, pos) == 0
    ensures ListAt(b, pos, items)
  {
  }

  lemma PatchPrefix(b: seq<Byte>, pos: nat, xs: seq<Byte>)
    requires pos + |xs| <= |b|
    ensures Patch(b, pos, xs)[..pos] == b[..pos]
  {
  }

  /** Writing a record's first four bytes leaves the rest of it. */
  lemma LinkKeepsRecord(b: seq<Byte>, pos: nat, link: seq<Byte>, x: Item)
    requires RecordAt(b, pos, x) && |link| == 4 && pos + 4 <= |b|
    ensures RecordAt(Patch(b, pos, link), pos, x)
  {
    hide Patch, Matches, Short;
    PatchElsewhere(b, pos, link, pos + 4, [0]);
    PatchElsewhere(b, pos, link, pos + 5, [|x.name|]);
    PatchElsewhere(b, pos, link, pos + 6, Short(|x.value|));
    PatchElsewhere(b, pos, link, pos + 8, x.name);
    PatchElsewhere(b, pos, link, pos + 8 + |x.name|, [0]);
    PatchElsewhere(b, pos, link, pos + 9 + |x.name|, x.value);
  }

  lemma LastCloses(b: seq<Byte>, pos: nat, x: Item)
    requires RecordAt(b, pos, x)
    ensures RecordAt(Patch(b, pos, Long(0)), pos, x) && LongAt(Patch(b, pos, Long(0)), pos) == 0
  {
    var zero := Long(0);
    LinkKeepsRecord(b, pos, zero, x);
    hide RecordAt, Patch, Matches, LongAt, Long;
    PatchMatches(b, pos, zero);
    LongMatches(Patch(b, pos, zero), pos, 0);
  }

  lemma {:induction false} TotalOfRest(items: seq<Item>)
    requires items != []
    ensures Total(items) >= LastLength(items)
    ensures |items| > 1 ==> Total(items) - LastLength(items) >= RecordLength(items[0])
  {
    if |items| > 1 {
      LastOfRest(items);
      TotalOfRest(items[1..]);
      hide RecordLength, LastLength;
    }
  }

  // ---- the writer ----

  /** The attributes written: those of the first `n` algorithms that were hashed, in order. */
  function Items(handle: seq<bool>, digests: seq<seq<Byte>>, n: nat): seq<Item>
    requires n <= ALGORITHMS == |handle| == |digests|
  {
    if n == 0 then []
    else Items(handle, digests, n - 1) + if handle[n - 1] then [Item(Name(n - 1), digests[n - 1])] else []
  }

  lemma ItemsStep(handle: seq<bool>, digests: seq<seq<Byte>>, i: nat)
    requires i < ALGORITHMS == |handle| == |digests|
    ensures Items(handle, digests, i + 1) ==
      Items(handle, digests, i) + if handle[i] then [Item(Name(i), digests[i])] else []
  {
  }

  /** The room the driver reserves for the first `n` attributes: every value at its longest. */
  function MaxLength(n: nat): nat
    requires n <= ALGORITHMS
  {
    if n == 0 then 0 else MaxLength(n - 1) + AlignUp(8 + |Name(n - 1)| + 1 + 64)
  }

  lemma MaxLengthFits()
    ensures MaxLength(ALGORITHMS) <= BUFFER_SIZE
  {
    assert MaxLength(1) <= 100;
    assert MaxLength(2) <= 200;
    assert MaxLength(3) <= 300;
    assert MaxLength(4) <= 400;
    assert MaxLength(5) <= 500;
    assert MaxLength(6) <= 600;
  }

  lemma {:induction false} MaxLengthGrows(n: nat, m: nat)
    requires n <= m <= ALGORITHMS
    ensures MaxLength(n) <= MaxLength(m)
  {
    hide AlignUp, Name;
    if n < m {
      MaxLengthGrows(n, m - 1);
    }
  }

  lemma RecordFits(i: nat, digest: seq<Byte>)
    requires i < ALGORITHMS && |digest| == DigestSize(i)
    ensures RecordLength(Item(Name(i), digest)) <= MaxLength(i + 1) - MaxLength(i)
    ensures |Name(i)| < 256 && |digest| < 0x1_0000
  {
  }

  ghost predicate Sized(digests: seq<seq<Byte>>) {
    |digests| == ALGORITHMS && forall i :: 0 <= i < ALGORITHMS ==> |digests[i]| == DigestSize(i)
  }

  /**
   Finish the hashes that were started and, when the cache may be used, lay out the attribute list.
   `finishes`: what the hash provider answers; `caching`: the cache file is still open at the start;
   `unbroken`: it still is at the end.
   */
  method FinishHashes(handle: seq<bool>, finishes: seq<bool>, digests: seq<seq<Byte>>, slots: array<Slot>, buffer: array<Byte>,
                      caching: bool, unbroken: bool)
      returns (ok: bool, written: nat)
    requires |handle| == |finishes| == ALGORITHMS == slots.Length == |digests| && Sized(digests) && buffer.Length == BUFFER_SIZE
    modifies slots, buffer
    ensures ok <==> forall i :: 0 <= i < ALGORITHMS && handle[i] ==> finishes[i]
    ensures ok ==> SlotsTo(handle, digests, old(slots[..]), slots[..], ALGORITHMS)
    ensures ok && caching ==> written == Total(Items(handle, digests, ALGORITHMS)) <= MaxLength(ALGORITHMS) && Aligned(written)
    ensures ok && caching && unbroken && written != 0 ==>
      written <= buffer.Length && ListAt(buffer[..written], 0, Items(handle, digests, ALGORITHMS))
  {
    hide Cached, Sized, Open, ListAt, Aligned, Items, MaxLength, Total;
    var pos := 0;
    written := 0;
    if caching {
      OpenList(buffer);
      NothingCached(handle, digests, buffer[..]);
    }
    assert SlotsTo(handle, digests, old(slots[..]), slots[..], 0);
    hide SlotsTo;
    var i := 0;
    while i < ALGORITHMS
      invariant 0 <= i <= ALGORITHMS && forall j :: 0 <= j < i && handle[j] ==> finishes[j]
      invariant SlotsTo(handle, digests, old(slots[..]), slots[..], i)
      invariant caching ==> Cached(handle, digests, buffer[..], pos, written, i)
    {
      ok, pos, written := FinishOne(handle, finishes[i], digests, slots, buffer, caching, i, pos, written, old(slots[..]));
      if !ok {
        return;
      }
      i := i + 1;
    }
    ok := true;
    if caching {
      CachedMeans(handle, digests, buffer[..], pos, written);
      TotalAligned(Items(handle, digests, ALGORITHMS));
      MaxLengthFits();
      if written != 0 && unbroken {
        CloseList(buffer, pos, Items(handle, digests, ALGORITHMS));
      }
    }
  }

  /** The slots after the first `n` algorithms were finished. */
  ghost predicate SlotsTo(handle: seq<bool>, digests: seq<seq<Byte>>, before: seq<Slot>, after: seq<Slot>, n: nat)
    requires |handle| == |digests| == |before| == |after| == ALGORITHMS
  {
    forall j :: 0 <= j < ALGORITHMS ==> after[j] == if j < n && handle[j] then Slot(true, digests[j]) else before[j]
  }

  /** The buffer after the first `n` algorithms were finished. */
  ghost predicate Cached(handle: seq<bool>, digests: seq<seq<Byte>>, b: seq<Byte>, pos: nat, written: nat, n: nat)
    requires |handle| == |digests| == ALGORITHMS && n <= ALGORITHMS
  {
    Open(b, pos, Items(handle, digests, n)) && written == Total(Items(handle, digests, n)) <= MaxLength(n)
  }

  lemma NothingCached(handle: seq<bool>, digests: seq<seq<Byte>>, b: seq<Byte>)
    requires |handle| == |digests| == ALGORITHMS && Open(b, 0, [])
    ensures Cached(handle, digests, b, 0, 0, 0)
  {
  }

  lemma CachedMeans(handle: seq<bool>, digests: seq<seq<Byte>>, b: seq<Byte>, pos: nat, written: nat)
    requires |handle| == |digests| == ALGORITHMS && Cached(handle, digests, b, pos, written, ALGORITHMS)
    ensures
      var items := Items(handle, digests, ALGORITHMS);
      Open(b, pos, items) && written == Total(items) <= MaxLength(ALGORITHMS) && (written != 0 ==> items != [])
  {
    hide Open;
  }

  method FinishOne(handle: seq<bool>, finishes: bool, digests: seq<seq<Byte>>, slots: array<Slot>, buffer: array<Byte>,
                   caching: bool, i: nat, pos: nat, written: nat, ghost before: seq<Slot>)
      returns (ok: bool, pos': nat, written': nat)
    requires |handle| == ALGORITHMS == slots.Length && Sized(digests) && buffer.Length == BUFFER_SIZE
    requires i < ALGORITHMS && |before| == ALGORITHMS && SlotsTo(handle, digests, before, slots[..], i)
    requires caching ==> Cached(handle, digests, buffer[..], pos, written, i)
    modifies slots, buffer
    ensures ok <==> (handle[i] ==> finishes)
    ensures ok ==> SlotsTo(handle, digests, before, slots[..], i + 1)
    ensures ok && caching ==> Cached(handle, digests, buffer[..], pos', written', i + 1)
  {
    hide Open, Name, DigestSize, Items, MaxLength, Total;
    ok, pos', written' := true, pos, written;
    ItemsStep(handle, digests, i);
    MaxLengthGrows(i, i + 1);
    if !handle[i] {
      assert Items(handle, digests, i) + [] == Items(handle, digests, i);
      return;
    }
    if !finishes {
      ok := false;
      return;
    }
    slots[i] := Slot(true, digests[i]);
    if caching {
      pos', written' := CacheDigest(buffer, i, digests[i], pos, written, Items(handle, digests, i));
    }
  }

  /** Append algorithm `i`'s attribute. */
  method CacheDigest(buffer: array<Byte>, i: nat, digest: seq<Byte>, pos: nat, written: nat, ghost items: seq<Item>)
      returns (pos': nat, written': nat)
    requires i < ALGORITHMS && |digest| == DigestSize(i) && buffer.Length == BUFFER_SIZE
    requires Open(buffer[..], pos, items) && written == Total(items) <= MaxLength(i)
    modifies buffer
    ensures Open(buffer[..], pos', items + [Item(Name(i), digest)])
    ensures written' == Total(items + [Item(Name(i), digest)]) <= MaxLength(i + 1)
  {
    hide Open, RecordLength, Aligned, Total;
    RecordFits(i, digest);
    MaxLengthFits();
    MaxLengthGrows(i + 1, ALGORITHMS);
    hide Name, DigestSize, MaxLength;
    var length;
    pos', length := AppendRecord(buffer, pos, items, Item(Name(i), digest));
    written' := written + length;
  }

  /** Records for `items`, the last of them at `pos`, where its Next field leads to the next free place. */
  ghost predicate Open(b: seq<Byte>, pos: nat, items: seq<Item>) {
    && pos + 4 <= |b| && pos + LongAt(b, pos) == Total(items) && Chain(b, 0, items)
    && (items != [] ==> pos + LastLength(items) == Total(items))
  }

  method OpenList(buffer: array<Byte>)
    requires buffer.Length == BUFFER_SIZE
    modifies buffer
    ensures Open(buffer[..], 0, [])
  {
    PutBytes(buffer, 0, Long(0));
    LongMatches(buffer[..], 0, 0);
  }

  lemma PatchWithin(b: seq<Byte>, n: nat, pos: nat, xs: seq<Byte>)
    requires pos + |xs| <= n <= |b|
    ensures Patch(b, pos, xs)[..n] == Patch(b[..n], pos, xs)
  {
  }

  /** Zeroing the last Next field leaves the list within the bytes written, whatever follows them. */
  lemma ClosesWithin(b: seq<Byte>, pos: nat, items: seq<Item>)
    requires Open(b, pos, items) && items != [] && Total(items) <= |b|
    ensures ListAt(Patch(b, pos, Long(0))[..Total(items)], 0, items)
  {
    var n, zero := Total(items), Long(0);
    assert LastLength(items) >= 4;
    hide Chain, ListAt, RecordAt, LongAt, Patch, Total, RecordLength, LastLength, Long;
    assert b[..n][..n] == b[..n];
    ChainPrefix(b, b[..n], 0, items);
    PatchWithin(b, n, pos, zero);
    ChainCloses(b[..n], Patch(b[..n], pos, zero), 0, items, pos);
  }

  method CloseList(buffer: array<Byte>, pos: nat, ghost items: seq<Item>)
    requires Open(buffer[..], pos, items) && items != [] && Total(items) <= buffer.Length
    modifies buffer
    ensures ListAt(buffer[..Total(items)], 0, items)
  {
    ghost var chained := buffer[..];
    hide Chain, ListAt, Patch;
    PutBytes(buffer, pos, Long(0));
    ClosesWithin(chained, pos, items);
    assert buffer[..][..Total(items)] == buffer[..Total(items)];
  }

  /** Advance by the last record's Next field and write one more record there. */
  method AppendRecord(buffer: array<Byte>, pos: nat, ghost items: seq<Item>, x: Item) returns (at: nat, length: nat)
    requires Open(buffer[..], pos, items) && Total(items) + RecordLength(x) <= buffer.Length
    requires |x.name| < 256 && |x.value| < 0x1_0000
    modifies buffer
    ensures Open(buffer[..], at, items + [x])
    ensures length == RecordLength(x) && Total(items + [x]) == Total(items) + RecordLength(x)
  {
    hide Chain, RecordAt, LongAt, Aligned, RecordLength, Total;
    at := pos + LongAt(buffer[..], pos);
    length := AppendAt(buffer, at, items, x);
    assert LastLength(items + [x]) == RecordLength(x);
  }

  method AppendAt(buffer: array<Byte>, at: nat, ghost items: seq<Item>, x: Item) returns (length: nat)
    requires Chain(buffer[..], 0, items) && at == Total(items) && at + RecordLength(x) <= buffer.Length
    requires |x.name| < 256 && |x.value| < 0x1_0000
    modifies buffer
    ensures Chain(buffer[..], 0, items + [x]) && Total(items + [x]) == Total(items) + RecordLength(x)
    ensures at + 4 <= buffer.Length && length == LongAt(buffer[..], at) == RecordLength(x)
  {
    hide Chain, RecordAt, LongAt;
    ghost var before := buffer[..];
    WriteRecord(buffer, at, x);
    length := LongAt(buffer[..], at);
    assert buffer[..][..at] == buffer[..at] == before[..at];
    ChainPrefix(before, buffer[..], 0, items);
    ChainAppend(buffer[..], 0, items, x);
  }

  // ---- the reader ----

  /** One attribute into the slot of the first algorithm it fits by value length and name. */
  function LoadFrom(x: Item, slots: seq<Slot>, i: nat): (r: seq<Slot>)
    requires i <= ALGORITHMS == |slots|
    ensures |r| == ALGORITHMS
    decreases ALGORITHMS - i
  {
    if i == ALGORITHMS then slots
    else if |x.value| == DigestSize(i) && x.name == Name(i) then slots[i := Slot(true, x.value)]
    else LoadFrom(x, slots, i + 1)
  }

  function Loaded(items: seq<Item>, slots: seq<Slot>): (r: seq<Slot>)
    requires |slots| == ALGORITHMS
    ensures |r| == ALGORITHMS
  {
    if items == [] then slots else Loaded(items[1..], LoadFrom(items[0], slots, 0))
  }

  lemma RecordReads(b: seq<Byte>, pos: nat, x: Item)
    requires RecordAt(b, pos, x)
    ensures pos + 9 + |x.name| + |x.value| <= |b| && b[pos + 5] == |x.name| && ShortAt(b, pos + 6) == |x.value|
    ensures b[pos + 8..pos + 8 + |x.name|] == x.name
    ensures b[pos + 9 + |x.name|..pos + 9 + |x.name| + |x.value|] == x.value
  {
    assert b[pos + 5..pos + 6][0] == b[pos + 5];
    assert b[pos + 6..pos + 8][0] == b[pos + 6] && b[pos + 6..pos + 8][1] == b[pos + 7];
  }

  method LoadRecord(buffer: array<Byte>, pos: nat, slots: array<Slot>, ghost x: Item)
    requires slots.Length == ALGORITHMS && RecordAt(buffer[..], pos, x)
    modifies slots
    ensures slots[..] == LoadFrom(x, old(slots[..]), 0)
  {
    RecordReads(buffer[..], pos, x);
    hide RecordAt, Name, DigestSize;
    var n: nat := buffer[pos + 5];
    var m := ShortAt(buffer[..], pos + 6);
    var name, value := buffer[pos + 8..pos + 8 + n], buffer[pos + 9 + n..pos + 9 + n + m];
    assert name == x.name && value == x.value;
    var i := 0;
    while i < ALGORITHMS
      invariant 0 <= i <= ALGORITHMS
      invariant slots[..] == old(slots[..])
      invariant LoadFrom(x, old(slots[..]), 0) == LoadFrom(x, old(slots[..]), i)
    {
      if m == DigestSize(i) && name == Name(i) {
        slots[i] := Slot(true, value);
        assert slots[..] == old(slots[..])[i := Slot(true, value)];
        return;
      }
      i := i + 1;
    }
  }

  lemma ListStep(b: seq<Byte>, pos: nat, items: seq<Item>)
    requires ListAt(b, pos, items)
    ensures items != [] && RecordAt(b, pos, items[0]) && pos + 4 <= |b|
    ensures LongAt(b, pos) == 0 ==> items[1..] == []
    ensures LongAt(b, pos) != 0 ==> ListAt(b, pos + LongAt(b, pos), items[1..])
  {
  }

  /** Walk the list the file system returned and load every digest in it. */
  method LoadHashes(buffer: array<Byte>, slots: array<Slot>, ghost items: seq<Item>)
    requires slots.Length == ALGORITHMS && ListAt(buffer[..], 0, items)
    modifies slots
    ensures slots[..] == Loaded(items, old(slots[..]))
  {
    hide ListAt, RecordAt, LoadFrom, LongAt;
    var pos := 0;
    ghost var rest := items;
    while true
      invariant ListAt(buffer[..], pos, rest)
      invariant Loaded(rest, slots[..]) == Loaded(items, old(slots[..]))
      decreases |rest|
    {
      ghost var before := slots[..];
      ListStep(buffer[..], pos, rest);
      LoadRecord(buffer, pos, slots, rest[0]);
      assert Loaded(rest, before) == Loaded(rest[1..], slots[..]);
      hide Loaded;
      var next := LongAt(buffer[..], pos);
      if next == 0 {
        break;
      }
      pos, rest := pos + next, rest[1..];
    }
  }

  // ---- round trip ----

  lemma {:induction false} LoadKnown(i: nat, value: seq<Byte>, slots: seq<Slot>, j: nat)
    requires j <= i < ALGORITHMS == |slots| && |value| == DigestSize(i)
    ensures LoadFrom(Item(Name(i), value), slots, j) == slots[i := Slot(true, value)]
    decreases i - j
  {
    hide Name, DigestSize;
    if j < i {
      if Name(i) == Name(j) {
        NamesDistinct(i, j);
      }
      LoadKnown(i, value, slots, j + 1);
    }
  }

  lemma {:induction false} LoadMisfit(i: nat, value: seq<Byte>, slots: seq<Slot>, j: nat)
    requires i < ALGORITHMS == |slots| && j <= ALGORITHMS && |value| != DigestSize(i)
    ensures LoadFrom(Item(Name(i), value), slots, j) == slots
    decreases ALGORITHMS - j
  {
    hide Name, DigestSize;
    if j < ALGORITHMS {
      if Name(i) == Name(j) {
        NamesDistinct(i, j);
      }
      LoadMisfit(i, value, slots, j + 1);
    }
  }

  lemma {:induction false} LoadedAppend(items: seq<Item>, x: Item, slots: seq<Slot>)
    requires |slots| == ALGORITHMS
    ensures Loaded(items + [x], slots) == LoadFrom(x, Loaded(items, slots), 0)
  {
    hide LoadFrom;
    if items == [] {
      assert items + [x] == [x];
    } else {
      assert (items + [x])[1..] == items[1..] + [x];
      LoadedAppend(items[1..], x, LoadFrom(items[0], slots, 0));
    }
  }

  /** Loading the list that was written restores exactly the digests written, for every subset of algorithms. */
  lemma {:induction false} ReadBack(handle: seq<bool>, digests: seq<seq<Byte>>, slots: seq<Slot>, n: nat)
    requires n <= ALGORITHMS == |handle| == |slots| && Sized(digests)
    ensures SlotsTo(handle, digests, slots, Loaded(Items(handle, digests, n), slots), n)
  {
    hide Name, DigestSize, LoadFrom;
    if n > 0 {
      ReadBack(handle, digests, slots, n - 1);
      if handle[n - 1] {
        var items := Items(handle, digests, n - 1);
        LoadedAppend(items, Item(Name(n - 1), digests[n - 1]), slots);
        LoadKnown(n - 1, digests[n - 1], Loaded(items, slots), 0);
      } else {
        assert Items(handle, digests, n) == Items(handle, digests, n - 1);
      }
    }
  }

  /** A file's attributes after setting those of a list. */
  function SetAttributes(file: map<seq<Byte>, seq<Byte>>, items: seq<Item>): map<seq<Byte>, seq<Byte>> {
    if items == [] then file
    else SetAttributes(file, items[..|items| - 1])[items[|items| - 1].name := items[|items| - 1].value]
  }

  /** The file system's answer to a query for the first `n` names: absent attributes come with no value. */
  function Query(file: map<seq<Byte>, seq<Byte>>, n: nat): seq<Item>
    requires n <= ALGORITHMS
  {
    if n == 0 then []
    else Query(file, n - 1) + [Item(Name(n - 1), if Name(n - 1) in file then file[Name(n - 1)] else [])]
  }

  lemma {:induction false} SetSome(file: map<seq<Byte>, seq<Byte>>, handle: seq<bool>, digests: seq<seq<Byte>>, n: nat, i: nat)
    requires n <= ALGORITHMS == |handle| == |digests| && i < ALGORITHMS
    ensures
      var after := SetAttributes(file, Items(handle, digests, n));
      if i < n && handle[i] then Name(i) in after && after[Name(i)] == digests[i]
      else (Name(i) in after <==> Name(i) in file) && (Name(i) in file ==> after[Name(i)] == file[Name(i)])
  {
    hide Name;
    if n > 0 {
      SetSome(file, handle, digests, n - 1, i);
      var items := Items(handle, digests, n - 1);
      if handle[n - 1] {
        var x := Item(Name(n - 1), digests[n - 1]);
        assert (items + [x])[..|items|] == items && (items + [x])[|items|] == x;
        if i != n - 1 && Name(i) == Name(n - 1) {
          NamesDistinct(i, n - 1);
        }
      } else {
        assert Items(handle, digests, n) == items;
      }
    }
  }

  /** What a slot holds after loading a file's answer. */
  function FromFile(file: map<seq<Byte>, seq<Byte>>, slots: seq<Slot>, i: nat): Slot
    requires i < ALGORITHMS == |slots|
  {
    if Name(i) in file && |file[Name(i)]| == DigestSize(i) then Slot(true, file[Name(i)]) else slots[i]
  }

  lemma {:induction false} LoadQuery(file: map<seq<Byte>, seq<Byte>>, slots: seq<Slot>, n: nat)
    requires n <= ALGORITHMS == |slots|
    ensures forall i :: 0 <= i < ALGORITHMS ==> Loaded(Query(file, n), slots)[i] == if i < n then FromFile(file, slots, i) else slots[i]
  {
    if n > 0 {
      var i := n - 1;
      var value := if Name(i) in file then file[Name(i)] else [];
      var before := Loaded(Query(file, i), slots);
      assert DigestSize(i) > 0;
      hide Name, DigestSize, LoadFrom, Loaded;
      LoadQuery(file, slots, i);
      LoadedAppend(Query(file, i), Item(Name(i), value), slots);
      if |value| == DigestSize(i) {
        LoadKnown(i, value, before, 0);
      } else {
        LoadMisfit(i, value, before, 0);
      }
    }
  }

  /**
   Through the file: after the list was set, a later query and load finds the digests written, and
   for every other algorithm what the file held before.
   */
  lemma CacheRoundTrip(file: map<seq<Byte>, seq<Byte>>, handle: seq<bool>, digests: seq<seq<Byte>>, slots: seq<Slot>, i: nat)
    requires |handle| == |slots| == ALGORITHMS && Sized(digests) && i < ALGORITHMS
    ensures
      var after := SetAttributes(file, Items(handle, digests, ALGORITHMS));
      Loaded(Query(after, ALGORITHMS), slots)[i] == if handle[i] then Slot(true, digests[i]) else FromFile(file, slots, i)
  {
    hide Name, DigestSize, LoadFrom;
    SetSome(file, handle, digests, ALGORITHMS, i);
    LoadQuery(SetAttributes(file, Items(handle, digests, ALGORITHMS)), slots, ALGORITHMS);
  }
}
