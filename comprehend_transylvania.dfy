/** The rule hooks of Transylvania (engines/comprehend/comprehend_transylvania.cpp,
    ComprehendEngineTransylvania): one dark room, and a special opcode that shows a splash
    screen and then asks for the graphics to be redrawn. */
module ComprehendTransylvania {
  import opened Streams
  import opened ComprehendEngine

  const DarkRoom: nat := 0x28

  const MainDataFile: string := "TR.GDA"
  const RoomImageFiles: seq<string> := ["RA.MS1", "RB.MS1", "RC.MS1"]
  const ObjectImageFiles: seq<string> := ["OA.MS1", "OB.MS1", "OC.MS1"]
  /** The end offsets are left out of the table and so are zero. */
  const StringFiles: seq<StringFile> := [
    StringFile("MA.MS1", 0x88, 0),
    StringFile("MB.MS1", 0x88, 0),
    StringFile("MC.MS1", 0x88, 0),
    StringFile("MD.MS1", 0x88, 0),
    StringFile("ME.MS1", 0x88, 0)]

  class Transylvania {
    const engine: Engine

    constructor (e: Engine)
      ensures engine == e
    {
      engine := e;
    }

    /** `roomType`: room 0x28 is dark, every other room normal; nothing else is consulted. */
    function RoomType(roomIndex: nat): (r: int)
      ensures r == RoomDark <==> roomIndex == DarkRoom
      ensures r != RoomDark ==> r == RoomNormal
    {
      if roomIndex == DarkRoom then RoomDark else RoomNormal
    }

    /** `handleSpecialOpcode`: operand 0x09 (the splash screen) replaces the update bits with
        exactly the graphics bit; every other operand changes nothing. */
    method HandleSpecialOpcode(operand: byte)
      modifies engine
      ensures engine.updateFlags == if operand == 0x09 then UpdateGraphics else old(engine.updateFlags)
      ensures engine.currentRoom == old(engine.currentRoom) && engine.rooms == old(engine.rooms)
    {
      match operand {
        case 0x01 =>
        case 0x02 =>
        case 0x06 =>
        case 0x07 =>
        case 0x03 =>
        case 0x05 =>
        case 0x09 =>
          engine.updateFlags := UpdateGraphics;
        case _ =>
      }
    }
  }
}
