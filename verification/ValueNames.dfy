/**
 Registry names: an object name put together from a key's name and a relative name, and the list of
 value names, each followed by a NUL and the list by one more. Lengths are in bytes, two a character.
 */
module ValueNames {
  import opened Basics

  /** A UTF-16 code unit. */
  type Wide = w: int | 0 <= w < 0x1_0000

  type Name = seq<Wide>

  /** UNICODE_STRING_MAX_BYTES */
  const MAX_BYTES: nat := 65534
  const MAX_ULONG: nat := 0xffff_ffff
  const NUL: Wide := 0
  const BACKSLASH: Wide := 92

  /** "(Default)" */
  const DEFAULT: Name := [40, 68, 101, 102, 97, 117, 108, 116, 41]

  function Bytes(name: Name): nat {
    2 * |name|
  }

  // ---- strings over a fixed buffer ----

  /** A counted string: `length` of the buffer's `maximum` bytes are in use. */
  class WideString {
    const buffer: array<Wide>
    const maximum: nat
    var length: nat

    ghost predicate Valid()
      reads this
    {
      maximum == 2 * buffer.Length && length % 2 == 0 && length <= maximum
    }

    ghost function Text(): Name
      reads this, buffer
      requires Valid()
    {
      buffer[..length / 2]
    }

    constructor (bytes: nat)
      requires bytes % 2 == 0
      ensures Valid() && Text() == [] && maximum == bytes && fresh(buffer)
    {
      buffer := new Wide[bytes / 2](_ => 0);
      maximum := bytes;
      length := 0;
    }

    /** Append a string if all of it fits. */
    method Append(name: Name) returns (ok: bool)
      requires Valid()
      modifies this`length, buffer
      ensures Valid() && (ok <==> Bytes(old(Text())) + Bytes(name) <= maximum)
      ensures Text() == if ok then old(Text()) + name else old(Text())
    {
      if length + Bytes(name) > maximum {
        return false;
      }
      var start := length / 2;
      ghost var text := buffer[..start];
      var i := 0;
      while i < |name|
        invariant 0 <= i <= |name| && length == old(length)
        invariant buffer[..start + i] == text + name[..i]
      {
        buffer[start + i] := name[i];
        assert buffer[..start + i + 1] == buffer[..start + i] + [name[i]];
        assert name[..i + 1] == name[..i] + [name[i]];
        i := i + 1;
      }
      assert name[..i] == name;
      length := length + Bytes(name);
      ok := true;
    }

    /** Append a single character if there is room for it. */
    method AppendChar(c: Wide) returns (ok: bool)
      requires Valid()
      modifies this`length, buffer
      ensures Valid() && (ok <==> Bytes(old(Text())) + 2 <= maximum)
      ensures Text() == if ok then old(Text()) + [c] else old(Text())
    {
      if maximum - length < 2 {
        return false;
      }
      buffer[length / 2] := c;
      length := length + 2;
      ok := true;
    }
  }

  // ---- the list of value names ----

  /** The characters of a text as code units. */
  function Units(text: string): (r: Name)
    requires forall i :: 0 <= i < |text| ==> text[i] as int < 0x1_0000
  {
    seq(|text|, i requires 0 <= i < |text| => text[i] as int)
  }

  lemma DefaultIs()
    ensures DEFAULT == Units("(Default)")
  {
  }

  /** A value's name as it is listed. */
  function Shown(name: Name): (r: Name)
    ensures r != [] && (name != [] ==> r == name)
  {
    if name == [] then DEFAULT else name
  }

  function Terminated(names: seq<Name>): Name {
    if names == [] then [] else Terminated(names[..|names| - 1]) + Shown(names[|names| - 1]) + [NUL]
  }

  function Encode(names: seq<Name>): Name {
    Terminated(names) + [NUL]
  }

  lemma TerminatedNext(names: seq<Name>, i: nat)
    requires i < |names|
    ensures Terminated(names[..i + 1]) == Terminated(names[..i]) + Shown(names[i]) + [NUL]
  {
    assert names[..i + 1][..i] == names[..i];
  }

  lemma {:induction false} TerminatedGrows(names: seq<Name>, i: nat)
    requires i <= |names|
    ensures |Terminated(names[..i])| <= |Terminated(names)|
    decreases |names| - i
  {
    if i < |names| {
      TerminatedNext(names, i);
      TerminatedGrows(names, i + 1);
    } else {
      assert names[..i] == names;
    }
  }

  /** First pass: the bytes the list takes, or nothing if a sum overflows 32 bits. */
  method Measure(names: seq<Name>) returns (length: Option<nat>)
    ensures length == if Bytes(Encode(names)) <= MAX_ULONG then Some(Bytes(Encode(names))) else None
  {
    var sum := 2;
    var i := 0;
    assert names[..0] == [];
    while i < |names|
      invariant 0 <= i <= |names|
      invariant sum == Bytes(Terminated(names[..i])) + 2 <= MAX_ULONG
    {
      TerminatedNext(names, i);
      TerminatedGrows(names, i + 1);
      var valueLength := if names[i] != [] then Bytes(names[i]) + 2 else Bytes(DEFAULT) + 2;
      if sum + valueLength > MAX_ULONG {
        return None;
      }
      sum := sum + valueLength;
      i := i + 1;
    }
    assert names[..i] == names;
    length := Some(sum);
  }

  /** Second pass: fill the string, giving up as soon as something does not fit. */
  method Fill(s: WideString, names: seq<Name>) returns (ok: bool)
    requires s.Valid() && s.Text() == []
    modifies s, s.buffer
    ensures s.Valid() && s.length <= s.maximum
    ensures ok <==> Bytes(Encode(names)) <= s.maximum
    ensures ok ==> s.Text() == Encode(names)
  {
    var i := 0;
    assert names[..0] == [];
    while i < |names|
      invariant 0 <= i <= |names| && s.Valid()
      invariant s.Text() == Terminated(names[..i])
    {
      TerminatedNext(names, i);
      TerminatedGrows(names, i + 1);
      ok := s.Append(if names[i] == [] then DEFAULT else names[i]);
      if !ok {
        return;
      }
      ok := s.AppendChar(NUL);
      if !ok {
        return;
      }
      i := i + 1;
    }
    assert names[..i] == names;
    ok := s.AppendChar(NUL);
  }

  /**
   The names as read by the first and by the second pass; they live in memory that may change in
   between, or become unreadable in either pass. `fits` tells whether a list has room in the message.
   The result is the list as added to the message, if it is. When nothing changed, the list is exactly
   the encoding and it fills the buffer.
   */
  method CopyMultipleValueNames(first: seq<Name>, second: seq<Name>, readable: (bool, bool), canAllocate: bool,
                                fits: Name -> bool)
      returns (list: Option<Name>)
    requires |first| == |second|
    ensures list.Some? <==>
      && first != [] && readable.0 && readable.1 && canAllocate && fits(Encode(second))
      && Bytes(Encode(first)) <= MAX_BYTES && Bytes(Encode(second)) <= Bytes(Encode(first))
    ensures list.Some? ==> list.value == Encode(second) && Bytes(list.value) <= Bytes(Encode(first)) <= MAX_BYTES
    ensures list.Some? && first == second ==> Bytes(list.value) == Bytes(Encode(first))
  {
    if first == [] || !readable.0 {
      return None;
    }
    var length := Measure(first);
    if length.None? || length.value > MAX_BYTES || !canAllocate {
      return None;
    }
    var s := new WideString(length.value);
    if !readable.1 {
      return None;
    }
    var ok := Fill(s, second);
    if !ok {
      return None;
    }
    var n := s.length / 2;
    list := if fits(s.buffer[..n]) then Some(s.buffer[..n]) else None;
  }

  // ---- reading the list back ----

  function FirstNul(s: Name): (k: nat)
    ensures k <= |s| && (k < |s| ==> s[k] == NUL) && forall i :: 0 <= i < k ==> s[i] != NUL
  {
    if s == [] || s[0] == NUL then 0 else 1 + FirstNul(s[1..])
  }

  /** The strings of a NUL-separated list up to the empty one that ends it. */
  function Decode(s: Name): seq<Name>
    decreases |s|
  {
    var k := FirstNul(s);
    if k == 0 || k == |s| then [] else [s[..k]] + Decode(s[k + 1..])
  }

  predicate NoNul(name: Name) {
    forall i :: 0 <= i < |name| ==> name[i] != NUL
  }

  function ShownAll(names: seq<Name>): seq<Name> {
    if names == [] then [] else [Shown(names[0])] + ShownAll(names[1..])
  }

  lemma {:induction false} TerminatedFirst(names: seq<Name>)
    requires names != []
    ensures Terminated(names) == Shown(names[0]) + [NUL] + Terminated(names[1..])
  {
    var n := |names| - 1;
    if n > 0 {
      TerminatedFirst(names[..n]);
      assert names[..n][1..] == names[1..][..n - 1];
      assert Terminated(names[1..]) == Terminated(names[1..][..n - 1]) + Shown(names[n]) + [NUL];
    }
  }

  lemma FirstNulIs(a: Name, rest: Name)
    requires NoNul(a)
    ensures FirstNul(a + [NUL] + rest) == |a|
  {
    var s := a + [NUL] + rest;
    assert s[|a|] == NUL;
    assert forall i :: 0 <= i < |a| ==> s[i] == a[i];
  }

  lemma DecodeFirst(a: Name, rest: Name)
    requires a != [] && NoNul(a)
    ensures Decode(a + [NUL] + rest) == [a] + Decode(rest)
  {
    FirstNulIs(a, rest);
    assert (a + [NUL] + rest)[..|a|] == a && (a + [NUL] + rest)[|a| + 1..] == rest;
  }

  lemma {:induction false} ShownEach(names: seq<Name>)
    ensures |ShownAll(names)| == |names|
    ensures forall i :: 0 <= i < |names| ==> ShownAll(names)[i] == Shown(names[i])
  {
    if names != [] {
      ShownEach(names[1..]);
    }
  }

  /** Names without NULs come back in order and whole, the empty ones as "(Default)". */
  lemma DecodeReturnsNames(names: seq<Name>)
    requires forall i :: 0 <= i < |names| ==> NoNul(names[i])
    ensures |Decode(Encode(names))| == |names|
    ensures forall i :: 0 <= i < |names| ==>
      Decode(Encode(names))[i] == if |names[i]| == 0 then Units("(Default)") else names[i]
  {
    DecodeEncode(names);
    ShownEach(names);
    DefaultIs();
  }

  lemma {:induction false} DecodeEncode(names: seq<Name>)
    requires forall i :: 0 <= i < |names| ==> NoNul(names[i])
    ensures Decode(Encode(names)) == ShownAll(names)
    decreases |names|
  {
    if names == [] {
      assert Encode(names) == [NUL];
    } else {
      var a, rest := Shown(names[0]), Encode(names[1..]);
      TerminatedFirst(names);
      assert Encode(names) == a + [NUL] + rest;
      assert NoNul(a);
      hide Encode, Shown, NoNul;
      DecodeEncode(names[1..]);
      DecodeFirst(a, rest);
    }
  }

  // ---- object names ----

  predicate EndsWithSeparator(name: Name) {
    name != [] && name[|name| - 1] == BACKSLASH
  }

  predicate StartsWithSeparator(name: Name) {
    name != [] && name[0] == BACKSLASH
  }

  function Joined(root: Name, relative: Name): Name {
    if root != [] && relative != [] && !EndsWithSeparator(root) && !StartsWithSeparator(relative)
    then root + [BACKSLASH] + relative
    else root + relative
  }

  /** Join a key's name, if it can be looked up, and a relative name; the result fills its buffer exactly. */
  method MakeObjectName(root: Option<Name>, relative: Name, canAllocate: bool) returns (name: Option<Name>)
    ensures name.Some? <==> root.Some? && canAllocate && Bytes(Joined(root.value, relative)) <= MAX_BYTES
    ensures name.Some? ==> name.value == Joined(root.value, relative)
  {
    if root.None? {
      return None;
    }
    var rootName := root.value;
    var length := Bytes(rootName) + Bytes(relative);
    var needsSeparator := false;
    if Bytes(rootName) >= 2 && rootName[|rootName| - 1] != BACKSLASH && Bytes(relative) >= 2 && relative[0] != BACKSLASH {
      needsSeparator := true;
      length := length + 2;
    }
    if length > MAX_BYTES || !canAllocate {
      return None;
    }
    assert length == Bytes(Joined(rootName, relative));
    var s := new WideString(length);
    JoinParts(s, rootName, needsSeparator, relative);
    var n := s.length / 2;
    name := Some(s.buffer[..n]);
  }

  method JoinParts(s: WideString, root: Name, separated: bool, relative: Name)
    requires s.Valid() && s.Text() == []
    requires s.maximum == Bytes(root) + Bytes(relative) + if separated then 2 else 0
    modifies s, s.buffer
    ensures s.Valid() && s.Text() == root + (if separated then [BACKSLASH] else []) + relative
  {
    var ok := s.Append(root);
    assert [] + root == root && root + [] == root;
    if separated {
      ok := s.AppendChar(BACKSLASH);
    }
    assert s.Text() == root + if separated then [BACKSLASH] else [];
    ok := s.Append(relative);
  }

  /** Root and relative name are kept whole, with one separator added between two parts that have none there. */
  lemma JunctionSeparated(root: Name, relative: Name)
    ensures
      var name := Joined(root, relative);
      && |name| == |root| + |relative| + (if |root| > 0 && |relative| > 0 && root[|root| - 1] != 92 && relative[0] != 92 then 1 else 0)
      && name[..|root|] == root && name[|name| - |relative|..] == relative
      && (|root| > 0 && |relative| > 0 ==> name[|root| - 1] == 92 || name[|root|] == 92)
  {
  }
}
