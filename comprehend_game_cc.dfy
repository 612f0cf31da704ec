/** The rule hooks of Crimson Crown (engines/comprehend/game_cc.cpp,
    ComprehendEngineCrimsonCrown): the two companions' action flags are cleared before each
    turn, and one special opcode enters the vampire's throne room. */
module ComprehendCrimsonCrown {
  import opened Streams
  import opened ComprehendEngine

  const FlagSabrinaAction: nat := 0xa
  const FlagErikAction: nat := 0xb
  const FuncVampireRoom: nat := 0xe

  const MainDataFile: string := "CC1.GDA"
  const RoomImageFiles: seq<string> := ["RA.MS1", "RB.MS1", "RC.MS1"]
  const ObjectImageFiles: seq<string> := ["OA.MS1", "OB.MS1"]
  const StringFiles: seq<StringFile> := [StringFile("MA.MS1", 0x89, 0x0)]

  /** The flags after `beforeTurn`: both action flags cleared, every other flag kept. */
  function ClearActionFlags(flags: seq<bool>): (r: seq<bool>)
    requires |flags| > FlagErikAction
    ensures |r| == |flags| && !r[FlagSabrinaAction] && !r[FlagErikAction]
    ensures forall i :: 0 <= i < |flags| && i != FlagSabrinaAction && i != FlagErikAction ==> r[i] == flags[i]
  {
    flags[FlagSabrinaAction := false][FlagErikAction := false]
  }

  /** Clearing the action flags twice is clearing them once. */
  lemma ClearActionFlagsIdempotent(flags: seq<bool>)
    requires |flags| > FlagErikAction
    ensures ClearActionFlags(ClearActionFlags(flags)) == ClearActionFlags(flags)
  {
  }

  class CrimsonCrown {
    const engine: Engine

    constructor (e: Engine)
      ensures engine == e
    {
      engine := e;
    }

    /** `beforeTurn`: clear Sabrina's and Erik's action flags. */
    method BeforeTurn()
      requires engine.flags.Length > FlagErikAction
      modifies engine.flags
      ensures engine.flags[..] == ClearActionFlags(old(engine.flags[..]))
    {
      engine.flags[FlagSabrinaAction] := false;
      engine.flags[FlagErikAction] := false;
    }

    /** `handleSpecialOpcode`: operand 0x01 evaluates the vampire-room function with neither
        verb nor noun; game over, win, save and restore, and every other operand, do nothing. */
    function HandleSpecialOpcode(operand: byte): (r: Request)
      ensures r != NoRequest <==> operand == 0x01
      ensures operand == 0x01 ==> r == EvalFunction(FuncVampireRoom, None, None)
    {
      match operand
      case 0x01 => EvalFunction(FuncVampireRoom, None, None)
      case 0x03 => NoRequest
      case 0x05 => NoRequest
      case 0x06 => NoRequest
      case 0x07 => NoRequest
      case _ => NoRequest
    }
  }
}
