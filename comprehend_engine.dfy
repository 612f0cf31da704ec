/** The engine state the Comprehend title hooks work on (engines/comprehend/comprehend.h): the
    update-flag bits, the room-type values, the current room, and the game data's rooms and
    flags. */
module ComprehendEngine {
  import opened Streams

  // `kUpdate*`: which parts of the screen to redraw after a turn.
  const UpdateNone: bv32 := 0
  const UpdateGraphics: bv32 := 1
  const UpdateGraphicsObjects: bv32 := 2
  const UpdateRoomDesc: bv32 := 4
  const UpdateObjectList: bv32 := 8
  const UpdateAll: bv32 := 0xFFFF_FFFF

  // Room types, also used as room-flag bits.
  const RoomNormal: int := 0
  const RoomDark: int := 1
  const RoomBright: int := 2
  /** `kRoomDark` and `kRoomBright` where they are tested against a room's flag byte. */
  const RoomDarkBit: bv8 := 1
  const RoomBrightBit: bv8 := 2

  /** A room of the game data; only its flag byte matters here. */
  datatype Room = Room(flags: bv8)

  /** A dictionary entry, as the interpreter refers to it. */
  type WordRef = nat

  /** What a special-opcode hook asks of the bytecode interpreter, which is not part of this
      model: nothing, or to evaluate a function of the game data with a verb and a noun (null
      as `None`). */
  datatype Request = NoRequest | EvalFunction(functionIndex: nat, verb: Option<WordRef>, noun: Option<WordRef>)

  /** `struct StringFile`: a file holding compressed strings and the byte range they occupy. */
  datatype StringFile = StringFile(filename: string, baseOffset: nat, endOffset: nat)

  /** The state of a running game the hooks read and write. */
  class Engine {
    /** `_updateFlags`. */
    var updateFlags: bv32
    /** `_currentRoom`. */
    var currentRoom: nat
    /** The game data's rooms. */
    var rooms: seq<Room>
    /** The game data's flags. */
    const flags: array<bool>

    constructor (flagCount: nat, initialRooms: seq<Room>, room: nat)
      ensures updateFlags == UpdateNone && currentRoom == room && rooms == initialRooms
      ensures flags.Length == flagCount && fresh(flags)
      ensures forall i :: 0 <= i < flagCount ==> !flags[i]
    {
      updateFlags := UpdateNone;
      currentRoom := room;
      rooms := initialRooms;
      flags := new bool[flagCount](_ => false);
    }
  }
}
