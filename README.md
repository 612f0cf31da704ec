# Riven stacks and Comprehend headers, rules and sentences in Dafny

This project models two pieces of a ScummVM tree, with a proof of what each one promises.

**Riven (Mohawk engine), `engines/mohawk/riven_stack.cpp`.**
- A stack's five NAME resources are parsed into name lists, and names are looked up again by a case-insensitive binary search through each list's sorted index.
- The RMAP resource maps the stack's card ids to global card ids, and `getCardStackId` searches that map in reverse.
- `getComboDigit` extracts one decimal digit of the telescope combination.
- The table of stack names is searched both ways: id to name and name to id.
- The mouse and keyboard latches are modelled as fields of the stack.

**Comprehend, `engines/comprehend/`.**
- The game-data header reader, with its biased action-table addresses.
- The image-file offset table, in its old and new layouts.
- The sentence builder, which tokenises the player's input and keeps the first four dictionary lookups.
- The rule hooks of the three titles: OO-Topos, Crimson Crown and Transylvania.

**How the model is built.**
- Code that changes state in place is a `class` whose methods are proved against pure specification functions. These are `RivenNameList`, `RivenStack`, `GameData`, `ImageFile`, the tokenizer and the title hooks.
- Each specification function has lemmas beside it. They give an inverse, in the form of an encoder and a round trip, or an invariant the operation keeps.
- Resources and files are parameters:
  - a Riven resource is a `seq<byte>`;
  - the Comprehend files the engine can open are a `map<string, seq<byte>>`.
- The read stream is `Streams.ByteStream`. Its cursor stays inside the data, and a byte read past the end is 0, which is what `readByte` returns at end of stream.
- A fatal `error()` is a `Failure` result, and on that path nothing is changed.
- `int16` and `uint16` arithmetic is written out:
  - `AsInt16` is the signed view of a 16-bit value;
  - `NormalizeAddress` and `Add16` wrap modulo 2^16.

**Behaviour of the source that the contracts make explicit.**
- `getCardStackId` keeps the last match in an `int16`. A map whose last match for a global id sits at index 0x8000 or above therefore ends in the same fatal error as a missing id. `GetCardStackId` states this exactly.
- `getNameId` returns the `uint16` index entry as an `int16`, so a match through an entry of 0x8000 or above comes back negative. A match never reads as -1: there are at most 0xFFFF names, so an entry of 0xFFFF fails the bounds check before any comparison. `GetNameId` states both: any result other than -1 is the `int16` of a matching entry.
- `loadGameData` opens `"TR.GDA"` whatever the title. Crimson Crown names `"CC1.GDA"` as its main data file, and OO-Topos names `"G0"`, but `loadGameData` does not use them.
- OO-Topos tests two different room bits:
  - `roomType` calls a room dark by the room-flag bit 0x01 (`kRoomDark`);
  - `beforeTurn` resynchronises the flashlight by bit 0x02 (`kFlagRoomDark`), and the goggles by `kRoomBright`, taken to be 2 (see "## Left out").
  - So in a room that is dark only by bit 0x01, switching the flashlight does not ask for a redraw. `BeforeTurnResynchronises` states what happens.
- An image file in the newer layout whose first offset is 0x1000 is read as an old-layout file (`NewTableWithMarkerOffset`).
- Parts of the Comprehend format are not in the code modelled here: dictionary matching rules and action matching. `readString` stores whatever the dictionary lookup returns and does no matching. The model follows the code: the lookup is an uninterpreted function of the parser.

## Model

| member | source | states |
|---|---|---|
| RivenNameLists.StriCmpZeroIff | engines/mohawk/riven_stack.cpp:429 | comparing two names ignoring case gives 0 exactly when their lower-cased C strings are equal |
| RivenNameLists.StriCmpAntisymmetric | engines/mohawk/riven_stack.cpp:429-436 | swapping the operands of the case-insensitive comparison negates it, so the search can turn a "greater" into a "less" |
| RivenNameLists.StriCmpTransitive | engines/mohawk/riven_stack.cpp:429-436 | the comparison is transitive, strictly when either step is strict, so one probe rules out a whole half of a sorted index |
| RivenNameLists.AsInt16 | engines/mohawk/riven_stack.cpp:418-431 | the `int16` view of an index entry lies in -0x8000..0x7FFF, equals the entry when non-negative, and is -1 only for 0xFFFF |
| RivenNameLists.CStringAt | engines/mohawk/riven_stack.cpp:404-406 | a name read from a position holds no zero byte (it stops at the first one or at the end) |
| RivenNameLists.NameListRoundTrip | engines/mohawk/riven_stack.cpp:382-412 | parsing a NAME resource built from names and an index gives back exactly those names and that index |
| RivenNameLists.NameResourceEntry | engines/mohawk/riven_stack.cpp:385-406 | in a laid-out resource, entry i's offset and index words read back, and its name is read from its offset past the two tables |
| RivenNameLists.NameDataAt | engines/mohawk/riven_stack.cpp:402-406 | each name reads back from its offset in the NUL-separated name data |
| RivenNameLists.RivenNameList.constructor | engines/mohawk/riven_stack.cpp:370-372 | a default name list is empty |
| RivenNameLists.RivenNameList.LoadResource | engines/mohawk/riven_stack.cpp:382-412 | after loading, names and index both have the resource's count of entries; index i is the i-th index word, name i is the bytes from (end of the tables + offset i) up to the first zero byte |
| RivenNameLists.ReadWords | engines/mohawk/riven_stack.cpp:389-397 | each table loop reads `count` consecutive big-endian words from its start and leaves the cursor just past them (or at the end) |
| RivenNameLists.ReadNames | engines/mohawk/riven_stack.cpp:401-409 | name k is the C string at the start of the name data plus offset k, each read after a seek |
| RivenNameLists.ReadCString | engines/mohawk/riven_stack.cpp:404-406 | the inner loop reads exactly the bytes from the seek position up to, not including, the first zero byte or the end |
| RivenNameLists.RivenNameList.GetName | engines/mohawk/riven_stack.cpp:414-416 | the name with an in-range id, which contains no zero byte |
| RivenNameLists.RivenNameList.GetNameId | engines/mohawk/riven_stack.cpp:418-440 | a result other than -1 is the `int16` of some index entry whose name matches ignoring case; a non-negative result is the id of a matching name; over a sorted index the result is -1 exactly when no name matches |
| RivenStack.CardIdMap | engines/mohawk/riven_stack.cpp:103-114 | the map has one entry per whole four bytes of the RMAP resource |
| RivenStack.CardIdMapRoundTrip | engines/mohawk/riven_stack.cpp:103-114 | ids written as big-endian words, followed by up to three stray bytes, read back as the same ids in file order |
| RivenStack.CardIdMapIgnoresTail | engines/mohawk/riven_stack.cpp:106-111 | bytes past the last whole word do not change the map |
| RivenStack.LastIndexOf | engines/mohawk/riven_stack.cpp:117-122 | the scan's last match: -1 exactly when the id is absent, else a position holding the id with no later one |
| RivenStack.LastIndexOfDistinct | engines/mohawk/riven_stack.cpp:116-140 | in a map without repeated ids, card k is found again from its own global id |
| RivenStack.StoredIndex | engines/mohawk/riven_stack.cpp:117-125 | the `int16` local is negative exactly when the id is absent or its last match is at 0x8000 or above, and otherwise is that last match |
| RivenStack.GetComboDigit | engines/mohawk/riven_stack.cpp:175-178 | for digit 0..4, (combo mod 10^(5-d)) / 10^(4-d), always below 10 |
| RivenStack.ComboLastDigit | engines/mohawk/riven_stack.cpp:175-178 | digit 4 is the combination modulo 10 |
| RivenStack.ComboDigitsSpell | engines/mohawk/riven_stack.cpp:175-178 | the five digits, most significant first, spell the combination modulo 100000 in decimal |
| RivenStack.RivenStack.constructor | engines/mohawk/riven_stack.cpp:39-51 | the five lists hold the parsed NAME resources, the card map the parsed RMAP resource, and no button or key is held |
| RivenStack.LoadList | engines/mohawk/riven_stack.cpp:61-67 | each list of `loadResourceNames` is a fresh list loaded from its resource |
| RivenStack.RivenStack.LoadCardIdMap | engines/mohawk/riven_stack.cpp:103-114 | the card map becomes `CardIdMap` of the resource; the latches are untouched |
| RivenStack.RivenStack.GetCardStackId | engines/mohawk/riven_stack.cpp:116-128 | success exactly when the id's last match is below 0x8000, and then the result is that last match, whose global id is the one asked for |
| RivenStack.RivenStack.GetCardGlobalId | engines/mohawk/riven_stack.cpp:138-140 | the global id of an in-range card, whose last occurrence is at or after the card, so it maps back to that card when ids are unique |
| RivenStack.RivenStack.GetName | engines/mohawk/riven_stack.cpp:69-84 | the name of the selected list with an in-range id, free of zero bytes |
| RivenStack.RivenStack.GetIdFromName | engines/mohawk/riven_stack.cpp:86-101 | the selected list's search: any result other than -1 is the `int16` of an index entry naming a match, and a non-negative id names a match; over a sorted index, -1 exactly when nothing matches |
| RivenStack.RivenStack.MouseForceUp | engines/mohawk/riven_stack.cpp:274-276 | the button is released and nothing else changes |
| RivenStack.RivenStack.KeyForceUp | engines/mohawk/riven_stack.cpp:302-304 | the key becomes `KEYCODE_INVALID` and nothing else changes |
| RivenStack.RivenStack.OnKeyPressed | engines/mohawk/riven_stack.cpp:306-308 | the key is latched and nothing else changes |
| RivenStack.RivenStack.OnMouseDown | engines/mohawk/riven_stack.cpp:230-243 | button down and position latched; the drag start moves only when a card is idle |
| RivenStack.RivenStack.OnMouseUp | engines/mohawk/riven_stack.cpp:245-256 | button up and position latched; drag start, key and map unchanged |
| RivenStack.RivenStack.OnMouseMove | engines/mohawk/riven_stack.cpp:258-268 | only the position changes |
| RivenStacks.GetName | engines/mohawk/riven_stack.cpp:455-460 | the name of a stack id below 9, non-empty and free of zero bytes |
| RivenStacks.FirstMatch | engines/mohawk/riven_stack.cpp:462-470 | the first table entry equal to the name ignoring case, or `kStackUnknown` when none is |
| RivenStacks.GetId | engines/mohawk/riven_stack.cpp:462-470 | the scan with early return gives `FirstMatch` |
| RivenStacks.NamesDistinctIgnoringCase | engines/mohawk/riven_stack.cpp:443-453 | the nine stack names are pairwise different ignoring case |
| RivenStacks.GetIdOfName | engines/mohawk/riven_stack.cpp:443-470 | looking up the name of any stack id gives that id back |
| ComprehendGameData.NormalizeAddress | engines/comprehend/game_data.cpp:15-21 | the stored address is raw - 0x5a00 + 4 with 16-bit wrap-around (raw 0x5a00 gives 4) |
| ComprehendGameData.DenormalizeAddress | engines/comprehend/game_data.cpp:20 | the raw word for an address is address + 0x5a00 - 4 with 16-bit wrap-around |
| ComprehendGameData.NormalizeDenormalize | engines/comprehend/game_data.cpp:20 | normalising the raw word of an address gives the address |
| ComprehendGameData.DenormalizeNormalize | engines/comprehend/game_data.cpp:20 | the raw word is recovered from its normalised address |
| ComprehendGameData.NormalizeInjective | engines/comprehend/game_data.cpp:20 | different raw words give different addresses |
| ComprehendGameData.HeaderRead | engines/comprehend/game_data.cpp:27-40 | the magic is word 0 as read, without the bias removed; every room, item, dictionary, word-map, string and function field is untouched |
| ComprehendGameData.HeaderRoundTrip | engines/comprehend/game_data.cpp:27-40 | a header written as magic, any unknown word and eight biased addresses reads back to that magic and those addresses in the order VVNN, VVN, VNJN, VJN, VDN, VNN, VN, V, with every other field unchanged |
| ComprehendGameData.GameData.constructor | engines/comprehend/game_data.cpp:9-10 | a fresh game data has no file open |
| ComprehendGameData.GameData.ReadHeaderAddress | engines/comprehend/game_data.cpp:15-21 | reads the next little-endian word, advances two bytes, and returns it normalised |
| ComprehendGameData.GameData.LoadGameData | engines/comprehend/game_data.cpp:23-45 | fails, changing nothing, exactly when TR.GDA is missing; otherwise the file stays open, exactly 20 bytes are consumed and the header is `HeaderRead` of the old header |
| ComprehendImageFile.Add16 | engines/comprehend/image_file.cpp:37 | 16-bit unsigned addition wraps past 0xFFFF |
| ComprehendImageFile.ImageOffsetTable | engines/comprehend/image_file.cpp:27-38 | 16 entries; with the 0x1000 marker entry i is the word at 4 + 2i plus 4, otherwise the word at 2i as read (so the first word itself is entry 0) |
| ComprehendImageFile.OldTableRoundTrip | engines/comprehend/image_file.cpp:27-38 | a marked table written four bytes in, each offset less 4, reads back as the offsets |
| ComprehendImageFile.NewTableRoundTrip | engines/comprehend/image_file.cpp:27-38 | an unmarked table whose first offset is not 0x1000 reads back as the offsets |
| ComprehendImageFile.NewTableWithMarkerOffset | engines/comprehend/image_file.cpp:27-29 | an unmarked table whose first offset is 0x1000 is mistaken for a marked one |
| ComprehendImageFile.ImageFile.constructor | engines/comprehend/image_file.cpp:9-11 | an image file of the given name with no file open and 16 slots |
| ComprehendImageFile.ImageFile.LoadHeader | engines/comprehend/image_file.cpp:17-39 | fails, changing nothing, exactly when the file is missing; otherwise the file stays open and the 16 offsets are `ImageOffsetTable` of its contents |
| Streams.CString | engines/comprehend/parser.cpp:18 | the input as a C string: a prefix without a NUL that ends at the end of the input or at its first NUL, so it is the longest such prefix |
| ComprehendParser.SkipDelimiters | engines/comprehend/parser.cpp:18-26 | the start of the next token: at or after the position, and either the end or a character that is neither space nor comma |
| ComprehendParser.SkipDelimitersSkipsDelimiters | engines/comprehend/parser.cpp:18-26 | every character skipped before the next token is a space or comma |
| ComprehendParser.TokenEnd | engines/comprehend/parser.cpp:18-26 | the end of a token: at or after its start, and either the end or a space or comma |
| ComprehendParser.TokenEndSpansNoDelimiter | engines/comprehend/parser.cpp:18-26 | no character of a token is a space or comma |
| ComprehendParser.NoTokensIff | engines/comprehend/parser.cpp:25 | there is no token left exactly when only spaces and commas remain |
| ComprehendParser.TokensAreWords | engines/comprehend/parser.cpp:18-28 | every token is a non-empty run of characters that are neither space nor comma |
| ComprehendParser.TokensOfJoinedWords | engines/comprehend/parser.cpp:18-28 | words joined by single spaces split back into exactly those words, in order |
| ComprehendParser.StringTokenizer.Empty | engines/comprehend/parser.cpp:25 | true exactly when no token remains |
| ComprehendParser.StringTokenizer.NextToken | engines/comprehend/parser.cpp:26 | returns the next token, left to right, and leaves the rest to come |
| ComprehendParser.NewSentence | engines/comprehend/parser.cpp:31-34 | a sentence of four slots whose first min(4, n) hold the words in order and the rest null |
| ComprehendParser.Parser.ReadString | engines/comprehend/parser.cpp:17-36 | appends exactly one sentence, keeping the earlier ones in order; it holds min(4, tokens) words, slot i the lookup of token i, the other slots null |
| ComprehendOOTopos.Redraw | engines/comprehend/game_oo.cpp:87 | ORing in the redraw request keeps every bit set and sets the graphics and room-description bits |
| ComprehendOOTopos.RedrawTwice | engines/comprehend/game_oo.cpp:87-93 | requesting a redraw twice is requesting it once |
| ComprehendOOTopos.BeforeTurnOnlySetsBits | engines/comprehend/game_oo.cpp:85-94 | the update bits either stay as they were or gain exactly the graphics and room-description bits; none is cleared |
| ComprehendOOTopos.BeforeTurnResynchronises | engines/comprehend/game_oo.cpp:85-94 | in a room with bit 0x02 both caches end equal to their flags; in a room without it nothing changes even when a flag did |
| ComprehendOOTopos.BeforeTurnRequestsRedraw | engines/comprehend/game_oo.cpp:85-94 | a changed flashlight or goggles flag in a room with bit 0x02 requests a graphics and room-description redraw |
| ComprehendOOTopos.BeforeTurnIdempotent | engines/comprehend/game_oo.cpp:85-94 | a second turn hook with unchanged flags changes nothing more |
| ComprehendOOTopos.OOTopos.RoomType | engines/comprehend/game_oo.cpp:45-59 | dark exactly when the current room (not the argument) has bit 0x01 and the flashlight flag is clear; bright exactly when not dark, the argument is room 0x19 and the goggles flag is clear; normal otherwise |
| ComprehendOOTopos.OOTopos.BeforeTurn | engines/comprehend/game_oo.cpp:81-95 | the caches and update bits become `BeforeTurnOf` of their old values in the current room; room and rooms unchanged |
| ComprehendOOTopos.OOTopos.HandleSpecialOpcode | engines/comprehend/game_oo.cpp:61-79 | no operand asks for anything |
| ComprehendCrimsonCrown.ClearActionFlags | engines/comprehend/game_cc.cpp:65-68 | flags 0xa and 0xb become clear and every other flag is kept |
| ComprehendCrimsonCrown.ClearActionFlagsIdempotent | engines/comprehend/game_cc.cpp:65-68 | clearing twice is clearing once |
| ComprehendCrimsonCrown.CrimsonCrown.BeforeTurn | engines/comprehend/game_cc.cpp:65-68 | the flag array becomes `ClearActionFlags` of its old contents |
| ComprehendCrimsonCrown.CrimsonCrown.HandleSpecialOpcode | engines/comprehend/game_cc.cpp:39-63 | operand 0x01 alone asks to evaluate function 0xe with null verb and noun; every other operand asks nothing |
| ComprehendTransylvania.Transylvania.RoomType | engines/comprehend/comprehend_transylvania.cpp:34-38 | dark exactly for room 0x28, normal for every other room |
| ComprehendTransylvania.Transylvania.HandleSpecialOpcode | engines/comprehend/comprehend_transylvania.cpp:40-71 | operand 0x09 replaces the update bits with exactly the graphics bit; any other operand leaves them; room and rooms unchanged |

The file tables are constants beside these members:
- `ComprehendCrimsonCrown.MainDataFile` and `StringFiles`: game_cc.cpp:19-25.
- `ComprehendTransylvania.StringFiles`: comprehend_transylvania.cpp:10-16.
- `ComprehendOOTopos.StringFiles`: game_oo.cpp:18-31.

## Left out

- The ScummVM read stream and `Common::File` are not part of this model. `Streams.ByteStream` assumes the following:
  - seeking past the end stops at the end;
  - a byte past the end reads as 0;
  - a multi-byte read that runs off the end counts the missing bytes as 0.
- `getResource`, `File::open` and the resources themselves come from the engine. They are parameters: the bytes of a resource, or a map from file name to bytes.
- `scumm_stricmp` and `String::compareToIgnoreCase` are not part of this model. `StriCmp` takes them to lower-case with C-locale `tolower` and stop at the first NUL. Bytes become `char`s 0..255, with no character encoding.
- `Common::StringTokenizer` is not part of this model. `SkipDelimiters`, `TokenEnd` and `TokensFrom` take it to skip delimiters and then read up to the next one.
- RivenStack behaviour left out, all of it video, sound, dialogs, timers, script dispatch or engine state:
  - `runCredits`, `runEndGame`, `pageTurn`, `runDemoBoundaryDialog`, `onFrame`, `dump`;
  - `runCommand`, `registerCommand`, `xflies`;
  - `installTimer`, `checkTimer`, `removeTimer`, `installCardTimer`;
  - `setCurrentStackVariable` and `getCurrentCardGlobalId`;
  - the card scripts `onMouseDown`, `onMouseUp` and `onMouseMove` run.
- The accessors `getId`, `mouseIsDown`, `keyGetPressed`, `getMousePosition` and `getMouseDragStartPosition` each return one field. They are the fields themselves.
- RivenStack.RivenStack.OnMouseDown: "a card is shown and no script is queued" is the parameter `cardIdle`.
- RivenStack.RivenStack.GetCardStackId: requires fewer than 0x10000 cards. With more, the source's `uint16` loop counter wraps before it reaches the size, and the loop never ends.
- RivenNameLists.RivenNameList.GetNameId: requires every index entry to name an existing name. The source's array access asserts this.
- RivenNameLists.RivenNameList.GetName, RivenStack.RivenStack.GetName, RivenStack.RivenStack.GetCardGlobalId and RivenStacks.GetName: require an id in range, as the source's array accesses and `assert` do.
- The Comprehend engine lifecycle, detection, the image manager, the renderer, the console, and the Wage GUI declarations.
- `evalFunction`, `evalInstruction` and `lookupDictionaryWord` are declared but not implemented here:
  - `evalFunction` is the `EvalFunction` request a hook returns;
  - `lookupDictionaryWord` is the parser's `lookup` function.
- ComprehendParser.Parser.ReadString: the caller's array of sentence pointers is a sequence passed in and returned. The update in place, and the allocation of the sentence, are not captured.
- ComprehendTransylvania.Transylvania.HandleSpecialOpcode: the drawing of room image 41 and the wait for a key in case 0x09 are left out.
- The `debug` output of `loadGameData` and of Crimson Crown's `handleSpecialOpcode` is left out.
- Neither the game data's rooms and flags, nor OO-Topos's `_flashlightOn` and `_wearingGoggles`, are declared in the headers here.
  - `ComprehendEngine.Engine` holds rooms as flag bytes and flags as a `bool` array of any length.
  - ComprehendOOTopos.OOTopos.constructor starts both caches as false, which is an assumption.
- ComprehendGameData.GameData.constructor: `GameData::GameData()` leaves `_header` uninitialised. The model starts it as `EmptyHeader`, with every field 0, which is an assumption.
- `kRoomBright` is not declared in the headers here (`comprehend.h` lists only `kRoomNormal` and `kRoomDark`). `ComprehendEngine.RoomBright` and `RoomBrightBit` take it to be 2, the next enumerator.
- RivenStack.RivenStack.GetName and RivenStack.RivenStack.GetIdFromName: the closed `NameResource` datatype has only the five lists. The source's `default:` branch, which ends in a fatal "Unknown name resource" error for any other value, cannot be reached in the model.
- ComprehendOOTopos.OOTopos.RoomType and ComprehendOOTopos.OOTopos.BeforeTurn: require the current room to exist and the flag array to reach flag 0x27, as the source's indexing does.
- ComprehendCrimsonCrown.CrimsonCrown.BeforeTurn: requires the flag array to reach flag 0xb, as the source's indexing does.
- `getRoomImageFiles` and `getObjectImageFiles` of the three titles are constants, with no behaviour to prove.
