/** Riven NAME resources (engines/mohawk/riven_stack.cpp, RivenNameList): a table of names
    read from a resource, and the case-insensitive binary search that maps a name back to
    its id through the resource's sorted index. */
module RivenNameLists {
  import opened Streams

  /** `tolower` in the C locale: only 'A'..'Z' change. */
  function ToLower(c: char): (r: char)
    ensures r == NUL <==> c == NUL
    ensures 'A' <= c <= 'Z' ==> r as int == c as int + 32
  {
    if 'A' <= c <= 'Z' then (c as int + 32) as char else c
  }

  /** Character `i` of a C string: NUL past the end. */
  function CharAt(s: string, i: nat): char { if i < |s| then s[i] else NUL }

  /** `scumm_stricmp`: walk both C strings until the lower-cased characters differ or both
      end; the result is the difference of the lower-cased characters there. */
  function StriCmp(a: string, b: string): int
    decreases |a|
  {
    var l1, l2 := ToLower(CharAt(a, 0)), ToLower(CharAt(b, 0));
    if l1 != l2 then l1 as int - l2 as int
    else if l1 == NUL then 0
    else StriCmp(a[1..], b[1..])
  }

  function LowerAll(s: string): (r: string)
    ensures |r| == |s|
  {
    if s == [] then [] else [ToLower(s[0])] + LowerAll(s[1..])
  }

  /** Comparing ignoring case is exactly comparing the lower-cased C strings. */
  lemma {:induction false} StriCmpZeroIff(a: string, b: string)
    ensures StriCmp(a, b) == 0 <==> LowerAll(CString(a)) == LowerAll(CString(b))
    decreases |a|
  {
    var l1, l2 := ToLower(CharAt(a, 0)), ToLower(CharAt(b, 0));
    if l1 != l2 {
      if CString(a) == [] || CString(b) == [] {
        assert CString(a) == [] <==> l1 == NUL;
        assert CString(b) == [] <==> l2 == NUL;
        assert |LowerAll(CString(a))| != |LowerAll(CString(b))|;
      } else {
        assert LowerAll(CString(a))[0] == l1 && LowerAll(CString(b))[0] == l2;
      }
    } else if l1 == NUL {
      assert CString(a) == [] && CString(b) == [];
    } else {
      StriCmpZeroIff(a[1..], b[1..]);
      var ra, rb := CString(a[1..]), CString(b[1..]);
      assert CString(a) == [a[0]] + ra && ([a[0]] + ra)[1..] == ra;
      assert CString(b) == [b[0]] + rb && ([b[0]] + rb)[1..] == rb;
      assert LowerAll(CString(a)) == [l1] + LowerAll(ra);
      assert LowerAll(CString(b)) == [l2] + LowerAll(rb);
      assert ([l1] + LowerAll(ra))[1..] == LowerAll(ra);
      assert ([l2] + LowerAll(rb))[1..] == LowerAll(rb);
    }
  }

  /** Swapping the operands negates the comparison. */
  lemma {:induction false} StriCmpAntisymmetric(a: string, b: string)
    ensures StriCmp(b, a) == -StriCmp(a, b)
    decreases |a|
  {
    var l1, l2 := ToLower(CharAt(a, 0)), ToLower(CharAt(b, 0));
    if l1 == l2 && l1 != NUL {
      StriCmpAntisymmetric(a[1..], b[1..]);
    }
  }

  /** The comparison is transitive, and strictly so when either step is strict. */
  lemma {:induction false} StriCmpTransitive(a: string, b: string, c: string)
    requires StriCmp(a, b) <= 0 && StriCmp(b, c) <= 0
    ensures StriCmp(a, c) <= 0
    ensures StriCmp(a, b) < 0 || StriCmp(b, c) < 0 ==> StriCmp(a, c) < 0
    decreases |a|
  {
    var la, lb, lc := ToLower(CharAt(a, 0)), ToLower(CharAt(b, 0)), ToLower(CharAt(c, 0));
    if la == lb && lb == lc && la != NUL {
      StriCmpTransitive(a[1..], b[1..], c[1..]);
    }
  }

  /** The 16-bit id as the source's `int16` return value sees it. */
  function AsInt16(x: u16): (r: int)
    ensures -0x8000 <= r < 0x8000
    ensures r >= 0 ==> r == x
    ensures r == -1 ==> x == 0xFFFF
  {
    if x < 0x8000 then x else x - 0x1_0000
  }

  // The NAME resource layout: a big-endian count n, n big-endian string offsets, n big-endian
  // index entries, then the NUL-terminated names, each at (start of name data + its offset).

  function NamesCount(resource: seq<byte>): u16 { BE16At(resource, 0) }

  function StringOffset(resource: seq<byte>, i: nat): u16 { BE16At(resource, 2 + 2 * i) }

  function IndexEntry(resource: seq<byte>, i: nat): u16
  {
    BE16At(resource, 2 + 2 * NamesCount(resource) + 2 * i)
  }

  /** Where the name data begins: the stream position after the two tables. */
  function NamesStart(resource: seq<byte>): nat
  {
    Min(2 + 4 * NamesCount(resource), |resource|)
  }

  /** The bytes from position `p` up to, not including, the first zero byte (or the end). */
  function CStringAt(resource: seq<byte>, p: nat): (r: string)
    ensures NUL !in r
    decreases |resource| - p
  {
    if p >= |resource| || resource[p] == 0 then [] else [resource[p] as char] + CStringAt(resource, p + 1)
  }

  function ParsedIndex(resource: seq<byte>): (ix: seq<u16>)
  {
    seq(NamesCount(resource), i requires 0 <= i => IndexEntry(resource, i))
  }

  function ParsedNames(resource: seq<byte>): (ns: seq<string>)
  {
    seq(NamesCount(resource), i requires 0 <= i => CStringAt(resource, NamesStart(resource) + StringOffset(resource, i)))
  }

  ghost predicate NoNul(names: seq<string>)
  {
    forall i :: 0 <= i < |names| ==> NUL !in names[i]
  }

  /** Every index entry names an existing name. */
  predicate IndexInRange(names: seq<string>, index: seq<u16>)
  {
    forall k :: 0 <= k < |index| ==> index[k] < |names|
  }

  /** `index` lists the names in case-insensitive ascending order. */
  ghost predicate SortedIgnoringCase(names: seq<string>, index: seq<u16>)
    requires IndexInRange(names, index)
  {
    forall i, j :: 0 <= i < j < |index| ==> StriCmp(names[index[i]], names[index[j]]) <= 0
  }

  // Building a NAME resource: the inverse of the parser, used to state its round trip.

  predicate IsNameChar(c: char) { 0 < c as int < 0x100 }

  /** Every character of `s` is a non-zero byte. */
  ghost predicate IsNameText(s: string)
  {
    forall i :: 0 <= i < |s| ==> IsNameChar(s[i])
  }

  ghost predicate AllNameText(names: seq<string>)
  {
    forall i :: 0 <= i < |names| ==> IsNameText(names[i])
  }

  function TextBytes(s: string): (r: seq<byte>)
    requires IsNameText(s)
    ensures |r| == |s|
  {
    if s == [] then [] else [s[0] as int] + TextBytes(s[1..])
  }

  /** The name data: each name's bytes followed by a zero byte. */
  function NameData(names: seq<string>): seq<byte>
    requires AllNameText(names)
  {
    if names == [] then [] else TextBytes(names[0]) + [0] + NameData(names[1..])
  }

  /** The offset of each name within the name data. */
  function NameOffsets(names: seq<string>): (r: seq<nat>)
    requires AllNameText(names)
    ensures |r| == |names|
    ensures forall i :: 0 <= i < |names| ==> r[i] + |names[i]| < |NameData(names)|
  {
    if names == [] then []
    else
      var rest := NameOffsets(names[1..]);
      [0] + seq(|rest|, i requires 0 <= i < |rest| => rest[i] + |names[0]| + 1)
  }

  function Offsets16(names: seq<string>): (r: seq<u16>)
    requires AllNameText(names) && |NameData(names)| <= 0x1_0000
    ensures |r| == |names| && forall i :: 0 <= i < |names| ==> r[i] == NameOffsets(names)[i]
  {
    var offsets := NameOffsets(names);
    seq(|names|, i requires 0 <= i < |names| => offsets[i] as u16)
  }

  /** A NAME resource listing `names` with the given index table. */
  function EncodeNameList(names: seq<string>, index: seq<u16>): (r: seq<byte>)
    requires |names| == |index| < 0x1_0000 && AllNameText(names)
    requires |NameData(names)| <= 0x1_0000
  {
    NameResource(Offsets16(names), index, NameData(names))
  }

  lemma {:induction false} CStringAtShift(pre: seq<byte>, data: seq<byte>, p: nat)
    ensures CStringAt(pre + data, |pre| + p) == CStringAt(data, p)
    decreases |data| - p
  {
    if p < |data| && data[p] != 0 {
      assert (pre + data)[|pre| + p] == data[p];
      CStringAtShift(pre, data, p + 1);
    }
  }

  lemma {:induction false} CStringAtText(s: string, rest: seq<byte>)
    requires IsNameText(s)
    ensures CStringAt(TextBytes(s) + [0] + rest, 0) == s
    decreases |s|
  {
    var data := TextBytes(s) + [0] + rest;
    if s == [] {
      assert data[0] == 0;
    } else {
      var tail := TextBytes(s[1..]) + [0] + rest;
      assert data == [s[0] as int] + tail;
      CStringAtText(s[1..], rest);
      CStringAtShift([s[0] as int], tail, 0);
      assert CStringAt(data, 0) == [s[0]] + CStringAt(data, 1);
    }
  }

  /** Each name reads back from its offset in the name data. */
  lemma {:induction false} NameDataAt(names: seq<string>, i: nat)
    requires AllNameText(names) && i < |names|
    ensures CStringAt(NameData(names), NameOffsets(names)[i]) == names[i]
    decreases |names|
  {
    var head := TextBytes(names[0]) + [0];
    assert NameData(names) == head + NameData(names[1..]);
    if i == 0 {
      CStringAtText(names[0], NameData(names[1..]));
      assert NameData(names) == TextBytes(names[0]) + [0] + NameData(names[1..]);
    } else {
      NameDataAt(names[1..], i - 1);
      CStringAtShift(head, NameData(names[1..]), NameOffsets(names[1..])[i - 1]);
    }
  }

  /** The count and the two tables that open a NAME resource. */
  function NameTables(offsets: seq<u16>, index: seq<u16>): (r: seq<byte>)
    requires |offsets| == |index| < 0x1_0000
    ensures |r| == 2 + 4 * |offsets|
  {
    BE16Bytes(|offsets|) + BE16Words(offsets) + BE16Words(index)
  }

  /** The resource layout around arbitrary tables and name data. */
  function NameResource(offsets: seq<u16>, index: seq<u16>, data: seq<byte>): seq<byte>
    requires |offsets| == |index| < 0x1_0000
  {
    NameTables(offsets, index) + data
  }

  /** The count, offset and index words of the tables read back. */
  lemma {:induction false} NameTablesAt(offsets: seq<u16>, index: seq<u16>, i: nat)
    requires |offsets| == |index| < 0x1_0000 && i < |offsets|
    ensures var t := NameTables(offsets, index);
      BE16At(t, 0) == |offsets| && BE16At(t, 2 + 2 * i) == offsets[i]
      && BE16At(t, 2 + 2 * |offsets| + 2 * i) == index[i]
  {
    var n := |offsets|;
    var header, wo, wi := BE16Bytes(n), BE16Words(offsets), BE16Words(index);
    var hw := header + wo;
    Word16AtLeft(header, wo, 0);
    Word16AtLeft(hw, wi, 0);
    WordsAtRight(header, wo, 2 * i);
    BE16WordsAt(offsets, i);
    Word16AtLeft(hw, wi, 2 + 2 * i);
    WordsAtRight(hw, wi, 2 * i);
    BE16WordsAt(index, i);
  }

  /** The count, offset and index words of a laid-out resource read back. */
  lemma NameResourceTablesAt(offsets: seq<u16>, index: seq<u16>, data: seq<byte>, i: nat)
    requires |offsets| == |index| < 0x1_0000 && i < |offsets|
    ensures var r := NameResource(offsets, index, data);
      NamesCount(r) == |offsets| && StringOffset(r, i) == offsets[i] && IndexEntry(r, i) == index[i]
  {
    var t := NameTables(offsets, index);
    NameTablesAt(offsets, index, i);
    Word16AtLeft(t, data, 0);
    Word16AtLeft(t, data, 2 + 2 * i);
    Word16AtLeft(t, data, 2 + 2 * |offsets| + 2 * i);
  }

  /** The count of a laid-out resource reads back, and its name data starts after the tables. */
  lemma NameResourceCount(offsets: seq<u16>, index: seq<u16>, data: seq<byte>, r: seq<byte>)
    requires |offsets| == |index| < 0x1_0000
    requires r == NameResource(offsets, index, data)
    ensures NamesCount(r) == |offsets| && NamesStart(r) == 2 + 4 * |offsets|
  {
    var t := NameTables(offsets, index);
    Word16AtLeft(BE16Bytes(|offsets|), BE16Words(offsets), 0);
    Word16AtLeft(BE16Bytes(|offsets|) + BE16Words(offsets), BE16Words(index), 0);
    Word16AtLeft(t, data, 0);
  }

  /** Entry `i` of a laid-out resource: its name is read from its offset in the name data. */
  lemma NameResourceEntry(offsets: seq<u16>, index: seq<u16>, data: seq<byte>, r: seq<byte>, i: nat)
    requires |offsets| == |index| < 0x1_0000 && i < |offsets|
    requires r == NameResource(offsets, index, data)
    ensures CStringAt(r, NamesStart(r) + StringOffset(r, i)) == CStringAt(data, offsets[i])
    ensures IndexEntry(r, i) == index[i]
  {
    var t := NameTables(offsets, index);
    NameResourceTablesAt(offsets, index, data, i);
    NameResourceCount(offsets, index, data, r);
    CStringAtShift(t, data, offsets[i]);
  }

  /** Every entry of a laid-out resource: the name comes from its offset in the name data. */
  lemma NameResourceEntries(offsets: seq<u16>, index: seq<u16>, data: seq<byte>, r: seq<byte>)
    requires |offsets| == |index| < 0x1_0000
    requires r == NameResource(offsets, index, data)
    ensures NamesCount(r) == |offsets|
    ensures forall i :: 0 <= i < |offsets| ==>
      CStringAt(r, NamesStart(r) + StringOffset(r, i)) == CStringAt(data, offsets[i])
      && IndexEntry(r, i) == index[i]
  {
    NameResourceCount(offsets, index, data, r);
    forall i: nat | i < |offsets| {
      NameResourceEntry(offsets, index, data, r, i);
    }
  }

  /** Every name reads back from its 16-bit offset in the name data. */
  lemma NameDataEntries(names: seq<string>)
    requires AllNameText(names) && |NameData(names)| <= 0x1_0000
    ensures forall i :: 0 <= i < |names| ==> CStringAt(NameData(names), Offsets16(names)[i]) == names[i]
  {
    forall i: nat | i < |names| {
      NameDataAt(names, i);
    }
  }

  /** A resource whose entries read back as `names` and `index` parses to them. */
  lemma ParsedFromLayout(resource: seq<byte>, offsets: seq<u16>, index: seq<u16>, data: seq<byte>, names: seq<string>)
    requires NamesCount(resource) == |offsets| == |index| == |names|
    requires forall i :: 0 <= i < |offsets| ==>
      CStringAt(resource, NamesStart(resource) + StringOffset(resource, i)) == CStringAt(data, offsets[i])
      && IndexEntry(resource, i) == index[i]
    requires forall i :: 0 <= i < |names| ==> CStringAt(data, offsets[i]) == names[i]
    ensures ParsedNames(resource) == names && ParsedIndex(resource) == index
  {
  }

  /** Parsing an encoded NAME resource gives back its names and its index. */
  lemma NameListRoundTrip(names: seq<string>, index: seq<u16>)
    requires |names| == |index| < 0x1_0000 && AllNameText(names)
    requires |NameData(names)| <= 0x1_0000
    ensures ParsedNames(EncodeNameList(names, index)) == names
    ensures ParsedIndex(EncodeNameList(names, index)) == index
  {
    var offsets, data := Offsets16(names), NameData(names);
    var r := NameResource(offsets, index, data);
    NameResourceEntries(offsets, index, data, r);
    NameDataEntries(names);
    ParsedFromLayout(r, offsets, index, data, names);
  }

  /** A name list loaded from a NAME resource. */
  class RivenNameList {
    var names: seq<string>
    var index: seq<u16>

    ghost predicate Valid()
      reads this
    {
      |names| == |index| < 0x1_0000 && NoNul(names)
    }

    /** The default constructor: an empty list. */
    constructor ()
      ensures Valid() && names == [] && index == []
    {
      names := [];
      index := [];
    }

    /** `loadResource`: read the count, the offsets and the index, then each name by seeking
        to its offset past the tables and reading bytes up to a zero byte. */
    method LoadResource(resource: seq<byte>)
      modifies this
      ensures Valid()
      ensures |names| == |index| == NamesCount(resource)
      ensures names == ParsedNames(resource) && index == ParsedIndex(resource)
    {
      var stream := new ByteStream(resource);
      var namesCount := stream.ReadUint16BE(0);
      var stringOffsets := ReadWords(stream, namesCount, 2);
      var newIndex := ReadWords(stream, namesCount, 2 + 2 * namesCount as int);
      var curNamesPos := stream.pos;
      var newNames := ReadNames(stream, curNamesPos, stringOffsets);
      assert curNamesPos == NamesStart(resource);
      assert newIndex == ParsedIndex(resource);
      assert newNames == ParsedNames(resource) by {
        forall k | 0 <= k < namesCount
          ensures newNames[k] == ParsedNames(resource)[k]
        {
          assert stringOffsets[k] == StringOffset(resource, k);
        }
      }
      assert NoNul(newNames) by {
        forall k | 0 <= k < namesCount
          ensures NUL !in newNames[k]
        {
        }
      }
      names, index := newNames, newIndex;
    }

    /** `getName`: the name with the given id (the array access asserts the id is in range). */
    function GetName(nameId: nat): (r: string)
      reads this
      requires Valid() && nameId < |names|
      ensures NUL !in r
    {
      names[nameId]
    }

    /** `getNameId`: binary search for `name`, ignoring case, through the sorted index. The
        result is the matching name's id as an `int16`, or -1. */
    method GetNameId(name: string) returns (r: int)
      requires Valid() && IndexInRange(names, index)
      ensures r != -1 ==> exists k :: 0 <= k < |index| && r == AsInt16(index[k]) && StriCmp(name, names[index[k]]) == 0
      ensures r >= 0 ==> r < |names| && StriCmp(name, names[r]) == 0
      ensures SortedIgnoringCase(names, index) ==>
                (r == -1 <==> forall k :: 0 <= k < |index| ==> StriCmp(name, names[index[k]]) != 0)
    {
      var low := 0;
      var high := |index| - 1;
      while low <= high
        invariant 0 <= low <= high + 1 <= |index|
        invariant SortedIgnoringCase(names, index) ==>
                    forall k :: 0 <= k < low ==> StriCmp(name, names[index[k]]) > 0
        invariant SortedIgnoringCase(names, index) ==>
                    forall k :: high < k < |index| ==> StriCmp(name, names[index[k]]) < 0
        decreases high - low
      {
        var midpoint := low + (high - low) / 2;
        var comparison := StriCmp(name, names[index[midpoint]]);
        if comparison == 0 {
          assert AsInt16(index[midpoint]) != -1;
          return AsInt16(index[midpoint]);
        } else if comparison < 0 {
          if SortedIgnoringCase(names, index) {
            forall k | midpoint < k < |index|
              ensures StriCmp(name, names[index[k]]) < 0
            {
              StriCmpTransitive(name, names[index[midpoint]], names[index[k]]);
            }
          }
          high := midpoint - 1;
        } else {
          if SortedIgnoringCase(names, index) {
            forall k | 0 <= k < midpoint
              ensures StriCmp(name, names[index[k]]) > 0
            {
              StriCmpAntisymmetric(name, names[index[midpoint]]);
              StriCmpTransitive(names[index[k]], names[index[midpoint]], name);
              StriCmpAntisymmetric(names[index[k]], name);
            }
          }
          low := midpoint + 1;
        }
      }
      return -1;
    }
  }

  /** `count` big-endian words read one after the other from `start` (the two table loops). */
  method ReadWords(stream: ByteStream, count: nat, ghost start: nat) returns (words: seq<u16>)
    requires stream.Valid() && stream.pos == Min(start, |stream.data|)
    modifies stream
    ensures stream.Valid() && stream.pos == Min(start + 2 * count, |stream.data|)
    ensures words == seq(count, k requires 0 <= k => BE16At(stream.data, start + 2 * k))
  {
    words := [];
    var i := 0;
    while i < count
      invariant 0 <= i <= count && stream.Valid()
      invariant stream.pos == Min(start + 2 * i, |stream.data|)
      invariant words == seq(i, k requires 0 <= k => BE16At(stream.data, start + 2 * k))
    {
      var w := stream.ReadUint16BE(start + 2 * i);
      words := words + [w];
      i := i + 1;
    }
  }

  /** The names loop: name `k` is the C string at `base + offsets[k]`, each read after a seek. */
  method ReadNames(stream: ByteStream, base: nat, offsets: seq<u16>) returns (names: seq<string>)
    requires stream.Valid()
    modifies stream
    ensures stream.Valid()
    ensures names == seq(|offsets|, k requires 0 <= k < |offsets| => CStringAt(stream.data, base + offsets[k]))
  {
    names := [];
    var i := 0;
    while i < |offsets|
      invariant 0 <= i <= |offsets| && stream.Valid()
      invariant names == seq(i, k requires 0 <= k < i => CStringAt(stream.data, base + offsets[k]))
    {
      var start := base + offsets[i];
      stream.Seek(start);
      var name := ReadCString(stream, start);
      names := names + [name];
      i := i + 1;
    }
  }

  /** The inner loop of `loadResource`: append bytes until a zero byte is read. */
  method ReadCString(stream: ByteStream, ghost start: nat) returns (name: string)
    requires stream.Valid() && stream.pos == Min(start, |stream.data|)
    modifies stream
    ensures stream.Valid()
    ensures name == CStringAt(stream.data, start)
  {
    ghost var at := start;
    var c := stream.ReadByte(at);
    name := [];
    while c != 0
      invariant stream.Valid() && stream.pos == Min(at + 1, |stream.data|)
      invariant c == ByteAt(stream.data, at)
      invariant CStringAt(stream.data, start) == name + CStringAt(stream.data, at)
      decreases |stream.data| - at
    {
      name := name + [c as char];
      at := at + 1;
      c := stream.ReadByte(at);
    }
  }
}
