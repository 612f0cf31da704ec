/** The rule hooks of OO-Topos (engines/comprehend/game_oo.cpp, ComprehendEngineOOTopos): a room
    that is dark unless the flashlight is on, a bright room unless goggles are worn, and the
    redraw requests when either changes. */
module ComprehendOOTopos {
  import opened Streams
  import opened ComprehendEngine

  const FlagRoomDark: bv8 := 0x02
  const FlagWearingGoggles: nat := 0x1b
  const FlagFlashlightOn: nat := 0x27
  const RoomBrightRoom: nat := 0x19

  const MainDataFile: string := "G0"
  const RoomImageFiles: seq<string> := ["RA", "RB", "RC", "RD", "RE"]
  const ObjectImageFiles: seq<string> := ["OA", "OB", "OC", "OD"]
  /** The strings are stored in the game binary. */
  const StringFiles: seq<StringFile> := [
    StringFile("NOVEL.EXE", 0x16564, 0x17640),
    StringFile("NOVEL.EXE", 0x17702, 0x18600),
    StringFile("NOVEL.EXE", 0x186b2, 0x19b80),
    StringFile("NOVEL.EXE", 0x19c62, 0x1a590),
    StringFile("NOVEL.EXE", 0x1a634, 0x1b080)]

  /** The title's cached view of the two flags, and the engine's update bits. */
  datatype TurnState = TurnState(flashlightOn: bool, wearingGoggles: bool, updateFlags: bv32)

  /** Or the redraw bits into `u`. */
  function Redraw(u: bv32): (r: bv32)
    ensures r & u == u && r & UpdateGraphics != 0 && r & UpdateRoomDesc != 0
  {
    u | UpdateGraphics | UpdateRoomDesc
  }

  /** What `beforeTurn` makes of `t` in a room with flag byte `roomFlags`, given the current
      flashlight and goggles flags. Both checks test the room bit 0x02. */
  function BeforeTurnOf(roomFlags: bv8, flashlightFlag: bool, gogglesFlag: bool, t: TurnState): TurnState
  {
    var t1 := if flashlightFlag != t.flashlightOn && roomFlags & FlagRoomDark != 0
              then t.(flashlightOn := flashlightFlag, updateFlags := Redraw(t.updateFlags))
              else t;
    if gogglesFlag != t1.wearingGoggles && roomFlags & RoomBrightBit != 0
    then t1.(wearingGoggles := gogglesFlag, updateFlags := Redraw(t1.updateFlags))
    else t1
  }

  /** Redrawing twice is redrawing once. */
  lemma RedrawTwice(u: bv32)
    ensures Redraw(Redraw(u)) == Redraw(u)
  {
  }

  /** `beforeTurn` only sets bits, and only the graphics and room-description bits. */
  lemma BeforeTurnOnlySetsBits(roomFlags: bv8, flashlightFlag: bool, gogglesFlag: bool, t: TurnState)
    ensures var u := BeforeTurnOf(roomFlags, flashlightFlag, gogglesFlag, t).updateFlags;
      u == t.updateFlags || u == Redraw(t.updateFlags)
  {
    RedrawTwice(t.updateFlags);
  }

  /** Where the room has bit 0x02, both caches end up equal to their flags; where it has not,
      nothing changes even if the flags did. */
  lemma BeforeTurnResynchronises(roomFlags: bv8, flashlightFlag: bool, gogglesFlag: bool, t: TurnState)
    ensures roomFlags & FlagRoomDark != 0 ==>
      var r := BeforeTurnOf(roomFlags, flashlightFlag, gogglesFlag, t);
      r.flashlightOn == flashlightFlag && r.wearingGoggles == gogglesFlag
    ensures roomFlags & FlagRoomDark == 0 ==> BeforeTurnOf(roomFlags, flashlightFlag, gogglesFlag, t) == t
  {
  }

  /** A change of either flag in a room with bit 0x02 asks for the room to be redrawn. */
  lemma BeforeTurnRequestsRedraw(roomFlags: bv8, flashlightFlag: bool, gogglesFlag: bool, t: TurnState)
    requires roomFlags & FlagRoomDark != 0
    requires flashlightFlag != t.flashlightOn || gogglesFlag != t.wearingGoggles
    ensures var u := BeforeTurnOf(roomFlags, flashlightFlag, gogglesFlag, t).updateFlags;
      u & UpdateGraphics != 0 && u & UpdateRoomDesc != 0
  {
    BeforeTurnOnlySetsBits(roomFlags, flashlightFlag, gogglesFlag, t);
  }

  /** A second `beforeTurn` with the flags unchanged does nothing more. */
  lemma BeforeTurnIdempotent(roomFlags: bv8, flashlightFlag: bool, gogglesFlag: bool, t: TurnState)
    ensures var r := BeforeTurnOf(roomFlags, flashlightFlag, gogglesFlag, t);
      BeforeTurnOf(roomFlags, flashlightFlag, gogglesFlag, r) == r
  {
    RedrawTwice(t.updateFlags);
  }

  class OOTopos {
    const engine: Engine
    /** `_flashlightOn`. */
    var flashlightOn: bool
    /** `_wearingGoggles`. */
    var wearingGoggles: bool

    constructor (e: Engine)
      ensures engine == e && !flashlightOn && !wearingGoggles
    {
      engine := e;
      flashlightOn := false;
      wearingGoggles := false;
    }

    /** The game state the hooks read: a current room that exists and both flags. */
    ghost predicate Valid()
      reads this, engine
    {
      engine.currentRoom < |engine.rooms| && engine.flags.Length > FlagFlashlightOn
    }

    /** `roomType`: dark when the current room (whatever `roomIndex` is) has the dark bit and the
        flashlight is off; otherwise bright in room 0x19 without goggles; otherwise normal. */
    function RoomType(roomIndex: nat): (r: int)
      reads this, engine, engine.flags
      requires Valid()
      ensures r == RoomNormal || r == RoomDark || r == RoomBright
      ensures var dark := engine.rooms[engine.currentRoom].flags & RoomDarkBit != 0
                          && !engine.flags[FlagFlashlightOn];
        (r == RoomDark <==> dark)
        && (r == RoomBright <==> !dark && roomIndex == RoomBrightRoom && !engine.flags[FlagWearingGoggles])
    {
      if engine.rooms[engine.currentRoom].flags & RoomDarkBit != 0 && !engine.flags[FlagFlashlightOn] then
        RoomDark
      else if roomIndex == RoomBrightRoom && !engine.flags[FlagWearingGoggles] then
        RoomBright
      else
        RoomNormal
    }

    /** `beforeTurn`: resynchronise the cached flashlight and goggles state and request a
        redraw, as `BeforeTurnOf` describes. */
    method BeforeTurn()
      requires Valid()
      modifies this, engine
      ensures Valid()
      ensures TurnState(flashlightOn, wearingGoggles, engine.updateFlags)
        == BeforeTurnOf(old(engine.rooms[engine.currentRoom].flags), engine.flags[FlagFlashlightOn],
                        engine.flags[FlagWearingGoggles],
                        TurnState(old(flashlightOn), old(wearingGoggles), old(engine.updateFlags)))
      ensures engine.currentRoom == old(engine.currentRoom) && engine.rooms == old(engine.rooms)
    {
      var curRoom := engine.rooms[engine.currentRoom];
      if engine.flags[FlagFlashlightOn] != flashlightOn && curRoom.flags & FlagRoomDark != 0 {
        flashlightOn := engine.flags[FlagFlashlightOn];
        engine.updateFlags := Redraw(engine.updateFlags);
      }
      if engine.flags[FlagWearingGoggles] != wearingGoggles && curRoom.flags & RoomBrightBit != 0 {
        wearingGoggles := engine.flags[FlagWearingGoggles];
        engine.updateFlags := Redraw(engine.updateFlags);
      }
    }

    /** `handleSpecialOpcode`: game over, game complete, restart, save and restore are all
        recognised and none does anything. */
    function HandleSpecialOpcode(operand: byte): (r: Request)
      ensures r == NoRequest
    {
      match operand
      case 0x03 => NoRequest
      case 0x05 => NoRequest
      case 0x04 => NoRequest
      case 0x06 => NoRequest
      case 0x07 => NoRequest
      case _ => NoRequest
    }
  }
}
