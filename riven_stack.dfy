/** A Riven stack (engines/mohawk/riven_stack.cpp, RivenStack): its five name lists, the
    RMAP table that maps the stack's card ids to global card ids, the combination-digit
    helper, and the mouse and keyboard latches the input handlers keep. */
module RivenStack {
  import opened Streams
  import opened RivenNameLists

  /** The five NAME resources a stack loads. */
  datatype NameResource = VariableNames | ExternalCommandNames | StackNames | CardNames | HotspotNames

  /** A screen position (`Common::Point`). */
  datatype Point = Point(x: int, y: int)

  /** `Common::KEYCODE_INVALID`: no key is held. */
  const KeyInvalid: int := 0

  // The RMAP resource: a run of big-endian 32-bit global card ids, one per card.

  /** The card-id map `loadCardIdMap` reads: one big-endian word per whole 4 bytes. */
  function CardIdMap(rmap: seq<byte>): (ids: seq<u32>)
    ensures |ids| == |rmap| / 4
  {
    seq(|rmap| / 4, i requires 0 <= i => BE32At(rmap, 4 * i))
  }

  /** Encoding ids as words, followed by fewer than four stray bytes, reads back as the ids. */
  lemma CardIdMapRoundTrip(ids: seq<u32>, tail: seq<byte>)
    requires |tail| < 4
    ensures CardIdMap(BE32Words(ids) + tail) == ids
  {
    var rmap := BE32Words(ids) + tail;
    forall i | 0 <= i < |ids|
      ensures CardIdMap(rmap)[i] == ids[i]
    {
      BE32WordsAt(ids, i);
      WordsAtLeft(BE32Words(ids), tail, 4 * i);
    }
  }

  /** Bytes past the last whole word do not change the map. */
  lemma CardIdMapIgnoresTail(rmap: seq<byte>)
    ensures CardIdMap(rmap) == CardIdMap(rmap[..4 * (|rmap| / 4)])
  {
    var whole := rmap[..4 * (|rmap| / 4)];
    forall i | 0 <= i < |rmap| / 4
      ensures CardIdMap(rmap)[i] == CardIdMap(whole)[i]
    {
      assert rmap == whole + rmap[4 * (|rmap| / 4)..];
      WordsAtLeft(whole, rmap[4 * (|rmap| / 4)..], 4 * i);
    }
  }

  /** The last position of `x` in `s`, or -1 when `x` does not occur. */
  function LastIndexOf<T(==)>(s: seq<T>, x: T): (r: int)
    ensures -1 <= r < |s|
    ensures r == -1 <==> x !in s
    ensures r >= 0 ==> s[r] == x && forall j :: r < j < |s| ==> s[j] != x
  {
    if s == [] then -1
    else if s[|s| - 1] == x then |s| - 1
    else LastIndexOf(s[..|s| - 1], x)
  }

  /** In a map without repeated ids, each card is found again from its own global id. */
  lemma {:induction false} LastIndexOfDistinct<T>(s: seq<T>, k: nat)
    requires k < |s|
    requires forall i, j :: 0 <= i < j < |s| ==> s[i] != s[j]
    ensures LastIndexOf(s, s[k]) == k
  {
    if k != |s| - 1 {
      assert s[|s| - 1] != s[k];
      var init := s[..|s| - 1];
      assert init[k] == s[k];
      LastIndexOfDistinct(init, k);
    }
  }

  /** The id `getCardStackId` keeps in its `int16` local: the last match, as a signed 16-bit value. */
  function StoredIndex(m: seq<u32>, globalId: u32): (index: int)
    requires |m| < 0x1_0000
    ensures index < 0 <==> globalId !in m || LastIndexOf(m, globalId) >= 0x8000
    ensures index >= 0 ==> index == LastIndexOf(m, globalId)
  {
    var last := LastIndexOf(m, globalId);
    if last == -1 then -1 else AsInt16(last)
  }

  /** `getComboDigit`'s table of powers of ten. */
  const Powers: seq<nat> := [100000, 10000, 1000, 100, 10, 1]

  /** `getComboDigit`: digit `digit` of the five-digit combination, most significant first. The
      table lookup `powers[digit + 1]` needs `digit <= 4`. */
  function GetComboDigit(correctCombo: u32, digit: nat): (r: u16)
    requires digit <= 4
    ensures r < 10
  {
    assert Powers[digit] == 10 * Powers[digit + 1];
    (correctCombo % Powers[digit]) / Powers[digit + 1]
  }

  /** The last digit is the combination's remainder by ten. */
  lemma ComboLastDigit(correctCombo: u32)
    ensures GetComboDigit(correctCombo, 4) == correctCombo % 10
  {
  }

  /** The five digits spell the combination (below 100000) back out in decimal. */
  lemma ComboDigitsSpell(correctCombo: u32)
    ensures correctCombo % 100000 ==
      GetComboDigit(correctCombo, 0) * 10000 + GetComboDigit(correctCombo, 1) * 1000
      + GetComboDigit(correctCombo, 2) * 100 + GetComboDigit(correctCombo, 3) * 10
      + GetComboDigit(correctCombo, 4)
  {
    var c := correctCombo;
    assert c % 100000 == (c % 100000) / 10000 * 10000 + c % 10000;
    assert c % 10000 == (c % 10000) / 1000 * 1000 + c % 1000;
    assert c % 1000 == (c % 1000) / 100 * 100 + c % 100;
    assert c % 100 == (c % 100) / 10 * 10 + c % 10;
  }

  class RivenStack {
    const id: u16
    const varNames: RivenNameList
    const externalCommandNames: RivenNameList
    const stackNames: RivenNameList
    const cardNames: RivenNameList
    const hotspotNames: RivenNameList
    var cardIdMap: seq<u32>
    var mouseIsDown: bool
    var mousePosition: Point
    var mouseDragStartPosition: Point
    var keyPressed: int

    /** The list a name resource selects. */
    function List(nameResource: NameResource): RivenNameList
    {
      match nameResource
      case VariableNames => varNames
      case ExternalCommandNames => externalCommandNames
      case StackNames => stackNames
      case CardNames => cardNames
      case HotspotNames => hotspotNames
    }

    ghost predicate Valid()
      reads varNames, externalCommandNames, stackNames, cardNames, hotspotNames
    {
      varNames.Valid() && externalCommandNames.Valid() && stackNames.Valid()
      && cardNames.Valid() && hotspotNames.Valid()
    }

    /** The constructor: load the five name lists and the card-id map; no mouse button and no
        key is held. `nameResource` and `rmap` stand for the resources the engine fetches. */
    constructor (stackId: u16, nameResource: NameResource -> seq<byte>, rmap: seq<byte>)
      ensures Valid() && id == stackId
      ensures forall r :: List(r).names == ParsedNames(nameResource(r)) && List(r).index == ParsedIndex(nameResource(r))
      ensures cardIdMap == CardIdMap(rmap)
      ensures !mouseIsDown && keyPressed == KeyInvalid
    {
      var vars := LoadList(nameResource(VariableNames));
      var commands := LoadList(nameResource(ExternalCommandNames));
      var stacks := LoadList(nameResource(StackNames));
      var cards := LoadList(nameResource(CardNames));
      var hotspots := LoadList(nameResource(HotspotNames));
      id := stackId;
      varNames, externalCommandNames, stackNames, cardNames, hotspotNames := vars, commands, stacks, cards, hotspots;
      mouseIsDown := false;
      keyPressed := KeyInvalid;
      mousePosition, mouseDragStartPosition := Point(0, 0), Point(0, 0);
      new;
      LoadCardIdMap(rmap);
      forall r: NameResource
        ensures List(r).names == ParsedNames(nameResource(r)) && List(r).index == ParsedIndex(nameResource(r))
      {
        match r
        case VariableNames =>
        case ExternalCommandNames =>
        case StackNames =>
        case CardNames =>
        case HotspotNames =>
      }
    }

    /** `loadCardIdMap`: read `size / 4` big-endian words, in file order. */
    method LoadCardIdMap(rmap: seq<byte>)
      modifies this
      ensures cardIdMap == CardIdMap(rmap)
      ensures mouseIsDown == old(mouseIsDown) && keyPressed == old(keyPressed)
      ensures mousePosition == old(mousePosition) && mouseDragStartPosition == old(mouseDragStartPosition)
    {
      var stream := new ByteStream(rmap);
      var count := |rmap| / 4;
      var ids: seq<u32> := [];
      var i := 0;
      while i < count
        invariant 0 <= i <= count && stream.Valid() && stream.data == rmap
        invariant stream.pos == 4 * i
        invariant ids == CardIdMap(rmap)[..i]
        modifies stream
      {
        var w := stream.ReadUint32BE(4 * i);
        ids := ids + [w];
        i := i + 1;
      }
      cardIdMap := ids;
    }

    /** `getCardStackId`: scan the whole map, keeping the last index whose global id matches in
        an `int16`. No match, or a last match at 0x8000 or above (negative as an `int16`), is
        fatal. The `uint16` loop counter would never reach a map size of 0x10000 or more. */
    method GetCardStackId(globalId: u32) returns (r: Result<u16>)
      requires |cardIdMap| < 0x1_0000
      ensures r.Success? <==> 0 <= LastIndexOf(cardIdMap, globalId) < 0x8000
      ensures r.Success? ==> r.value == LastIndexOf(cardIdMap, globalId)
      ensures r.Success? ==> r.value < |cardIdMap| && GetCardGlobalId(r.value) == globalId
    {
      var index := -1;
      var i := 0;
      while i < |cardIdMap|
        invariant 0 <= i <= |cardIdMap|
        invariant index == StoredIndex(cardIdMap[..i], globalId)
      {
        assert cardIdMap[..i + 1][..i] == cardIdMap[..i];
        if cardIdMap[i] == globalId {
          index := AsInt16(i);
        }
        i := i + 1;
      }
      assert cardIdMap[..i] == cardIdMap;
      if index < 0 {
        return Failure("Could not match RMAP code");
      }
      return Success(index);
    }

    /** `getCardGlobalId`: the global id of a card of this stack. */
    function GetCardGlobalId(cardId: nat): (g: u32)
      reads this
      requires cardId < |cardIdMap|
      ensures LastIndexOf(cardIdMap, g) >= cardId
    {
      cardIdMap[cardId]
    }

    /** `getName`: the name with id `nameId` in the selected list. */
    function GetName(nameResource: NameResource, nameId: nat): (r: string)
      reads varNames, externalCommandNames, stackNames, cardNames, hotspotNames
      requires Valid() && nameId < |List(nameResource).names|
      ensures NUL !in r
    {
      List(nameResource).GetName(nameId)
    }

    /** `getIdFromName`: the case-insensitive binary search of the selected list. */
    method GetIdFromName(nameResource: NameResource, name: string) returns (r: int)
      requires Valid()
      requires IndexInRange(List(nameResource).names, List(nameResource).index)
      ensures var l := List(nameResource);
        r != -1 ==> exists k :: 0 <= k < |l.index| && r == AsInt16(l.index[k]) && StriCmp(name, l.names[l.index[k]]) == 0
      ensures var l := List(nameResource);
        r >= 0 ==> r < |l.names| && StriCmp(name, l.names[r]) == 0
      ensures var l := List(nameResource);
        SortedIgnoringCase(l.names, l.index) ==>
          (r == -1 <==> forall k :: 0 <= k < |l.index| ==> StriCmp(name, l.names[l.index[k]]) != 0)
    {
      r := List(nameResource).GetNameId(name);
    }

    /** `mouseForceUp`: forget that the button is held. */
    method MouseForceUp()
      modifies this
      ensures !mouseIsDown
      ensures cardIdMap == old(cardIdMap) && keyPressed == old(keyPressed)
      ensures mousePosition == old(mousePosition) && mouseDragStartPosition == old(mouseDragStartPosition)
    {
      mouseIsDown := false;
    }

    /** `keyForceUp`: forget the held key. */
    method KeyForceUp()
      modifies this
      ensures keyPressed == KeyInvalid
      ensures cardIdMap == old(cardIdMap) && mouseIsDown == old(mouseIsDown)
      ensures mousePosition == old(mousePosition) && mouseDragStartPosition == old(mouseDragStartPosition)
    {
      keyPressed := KeyInvalid;
    }

    /** `onKeyPressed`: latch the key. */
    method OnKeyPressed(keyCode: int)
      modifies this
      ensures keyPressed == keyCode
      ensures cardIdMap == old(cardIdMap) && mouseIsDown == old(mouseIsDown)
      ensures mousePosition == old(mousePosition) && mouseDragStartPosition == old(mouseDragStartPosition)
    {
      keyPressed := keyCode;
    }

    /** `onMouseDown`: latch the button and the position; the drag starts here only when a
        card is shown and no script is queued (`cardIdle`), which is also when the card's
        script would run. */
    method OnMouseDown(mouse: Point, cardIdle: bool)
      modifies this
      ensures mouseIsDown && mousePosition == mouse
      ensures mouseDragStartPosition == (if cardIdle then mouse else old(mouseDragStartPosition))
      ensures cardIdMap == old(cardIdMap) && keyPressed == old(keyPressed)
    {
      mouseIsDown := true;
      mousePosition := mouse;
      if cardIdle {
        mouseDragStartPosition := mouse;
      }
    }

    /** `onMouseUp`: release the button and latch the position. */
    method OnMouseUp(mouse: Point)
      modifies this
      ensures !mouseIsDown && mousePosition == mouse
      ensures cardIdMap == old(cardIdMap) && keyPressed == old(keyPressed)
      ensures mouseDragStartPosition == old(mouseDragStartPosition)
    {
      mouseIsDown := false;
      mousePosition := mouse;
    }

    /** `onMouseMove`: latch the position. */
    method OnMouseMove(mouse: Point)
      modifies this
      ensures mousePosition == mouse
      ensures cardIdMap == old(cardIdMap) && keyPressed == old(keyPressed) && mouseIsDown == old(mouseIsDown)
      ensures mouseDragStartPosition == old(mouseDragStartPosition)
    {
      mousePosition := mouse;
    }
  }

  /** A fresh name list loaded from a NAME resource. */
  method LoadList(resource: seq<byte>) returns (l: RivenNameList)
    ensures fresh(l) && l.Valid()
    ensures l.names == ParsedNames(resource) && l.index == ParsedIndex(resource)
  {
    l := new RivenNameList();
    l.LoadResource(resource);
  }
}
