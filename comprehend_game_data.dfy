/** The Comprehend game-data header (engines/comprehend/game_data.cpp, GameData): a run of
    little-endian 16-bit words at the start of the main data file, the action-table addresses
    among them stored with the file's load bias removed. */
module ComprehendGameData {
  import opened Streams

  /** The file `loadGameData` opens, whatever the title. */
  const MainDataFileName: string := "TR.GDA"

  /** `NR_DIRECTIONS`. */
  const DirectionCount: nat := 8

  /** `GameData::Header`. Only `magic` and the eight action addresses are read by
      `loadGameData`; the other fields keep whatever they held. */
  datatype Header = Header(
    magic: u16,
    actionsVVNN: u16, actionsVVN: u16, actionsVNJN: u16, actionsVJN: u16,
    actionsVDN: u16, actionsVNN: u16, actionsVN: u16, actionsV: u16,
    roomDescTable: u16, roomDirectionTable: seq<u16>, roomFlagsTable: u16, roomGraphicsTable: u16,
    itemLocations: u16, itemFlags: u16, itemWords: u16, itemStrings: u16, itemGraphics: u16,
    dictionary: u16, wordMap: u16, strings: u16, stringsEnd: u16, functions: u16)

  /** The header of a fresh `GameData`, before anything is read. */
  const EmptyHeader: Header :=
    Header(0, 0, 0, 0, 0, 0, 0, 0, 0, 0, seq(DirectionCount, _ => 0), 0, 0, 0, 0, 0, 0, 0, 0, 0, 0, 0, 0)

  /** `readHeaderAddress`'s arithmetic: remove the bias 0x5a00 - 4 in 16-bit unsigned arithmetic. */
  function NormalizeAddress(raw: u16): (addr: u16)
    ensures raw >= 0x5a00 - 4 ==> addr == raw - (0x5a00 - 4)
    ensures raw < 0x5a00 - 4 ==> addr == raw + 0x1_0000 - (0x5a00 - 4)
  {
    (raw - 0x5a00 + 4) % 0x1_0000
  }

  /** The address as stored in the file: put the bias back. */
  function DenormalizeAddress(addr: u16): (raw: u16)
    ensures addr < 0x1_0000 - (0x5a00 - 4) ==> raw == addr + (0x5a00 - 4)
    ensures addr >= 0x1_0000 - (0x5a00 - 4) ==> raw == addr - (0x1_0000 - (0x5a00 - 4))
  {
    (addr + 0x5a00 - 4) % 0x1_0000
  }

  lemma NormalizeDenormalize(addr: u16)
    ensures NormalizeAddress(DenormalizeAddress(addr)) == addr
  {
  }

  lemma DenormalizeNormalize(raw: u16)
    ensures DenormalizeAddress(NormalizeAddress(raw)) == raw
  {
  }

  /** Normalisation is one-to-one, so no two stored addresses collide. */
  lemma NormalizeInjective(a: u16, b: u16)
    requires NormalizeAddress(a) == NormalizeAddress(b)
    ensures a == b
  {
    DenormalizeNormalize(a);
    DenormalizeNormalize(b);
  }

  /** The header after `loadGameData` read `data` into `h`: word 0 raw as the magic, word 1
      skipped, words 2..9 normalised into the eight action addresses, in this order. */
  function HeaderRead(h: Header, data: seq<byte>): (r: Header)
    ensures r.magic == LE16At(data, 0)
    ensures r.roomDescTable == h.roomDescTable && r.roomDirectionTable == h.roomDirectionTable
    ensures r.roomFlagsTable == h.roomFlagsTable && r.roomGraphicsTable == h.roomGraphicsTable
    ensures r.itemLocations == h.itemLocations && r.itemFlags == h.itemFlags && r.itemWords == h.itemWords
    ensures r.itemStrings == h.itemStrings && r.itemGraphics == h.itemGraphics
    ensures r.functions == h.functions && r.dictionary == h.dictionary && r.wordMap == h.wordMap
    ensures r.strings == h.strings && r.stringsEnd == h.stringsEnd
  {
    h.(magic := LE16At(data, 0),
       actionsVVNN := NormalizeAddress(LE16At(data, 4)),
       actionsVVN := NormalizeAddress(LE16At(data, 6)),
       actionsVNJN := NormalizeAddress(LE16At(data, 8)),
       actionsVJN := NormalizeAddress(LE16At(data, 10)),
       actionsVDN := NormalizeAddress(LE16At(data, 12)),
       actionsVNN := NormalizeAddress(LE16At(data, 14)),
       actionsVN := NormalizeAddress(LE16At(data, 16)),
       actionsV := NormalizeAddress(LE16At(data, 18)))
  }

  /** The eight action addresses of a header, in file order. */
  function Actions(h: Header): seq<u16>
  {
    [h.actionsVVNN, h.actionsVVN, h.actionsVNJN, h.actionsVJN,
     h.actionsVDN, h.actionsVNN, h.actionsVN, h.actionsV]
  }

  /** The 20 header bytes that store `magic`, an unknown word and the eight action addresses. */
  function EncodeHeader(magic: u16, unknown: u16, actions: seq<u16>): (r: seq<byte>)
    requires |actions| == 8
    ensures |r| == 20
  {
    LE16Words([magic, unknown] + seq(8, i requires 0 <= i < 8 => DenormalizeAddress(actions[i])))
  }

  /** Reading an encoded header gives back the magic and the action addresses, whatever follows
      the header and whatever the unknown word is; the other fields are untouched. */
  lemma HeaderRoundTrip(h: Header, magic: u16, unknown: u16, actions: seq<u16>, rest: seq<byte>)
    requires |actions| == 8
    ensures var r := HeaderRead(h, EncodeHeader(magic, unknown, actions) + rest);
      r.magic == magic && Actions(r) == actions
      && r == h.(magic := r.magic, actionsVVNN := r.actionsVVNN, actionsVVN := r.actionsVVN,
                 actionsVNJN := r.actionsVNJN, actionsVJN := r.actionsVJN, actionsVDN := r.actionsVDN,
                 actionsVNN := r.actionsVNN, actionsVN := r.actionsVN, actionsV := r.actionsV)
  {
    var words := [magic, unknown] + seq(8, i requires 0 <= i < 8 => DenormalizeAddress(actions[i]));
    var bytes := LE16Words(words);
    var r := HeaderRead(h, bytes + rest);
    forall k | 0 <= k < 10
      ensures LE16At(bytes + rest, 2 * k) == words[k]
    {
      LE16WordsAt(words, k);
      Word16AtLeft(bytes, rest, 2 * k);
    }
    forall k | 0 <= k < 8
      ensures Actions(r)[k] == actions[k]
    {
      assert LE16At(bytes + rest, 4 + 2 * k) == words[2 + k];
      NormalizeDenormalize(actions[k]);
    }
  }

  class GameData {
    var header: Header
    /** `_mainFile`: null until `loadGameData` opens it. */
    var mainFile: ByteStream?

    constructor ()
      ensures header == EmptyHeader && mainFile == null
    {
      header := EmptyHeader;
      mainFile := null;
    }

    /** `readHeaderAddress`: the next little-endian word, normalised. */
    method ReadHeaderAddress(ghost at: nat) returns (addr: u16)
      requires mainFile != null && mainFile.Valid() && mainFile.pos == Min(at, |mainFile.data|)
      modifies mainFile
      ensures mainFile.Valid() && mainFile.pos == Min(at + 2, |mainFile.data|)
      ensures addr == NormalizeAddress(LE16At(mainFile.data, at))
    {
      var raw := mainFile.ReadUint16LE(at);
      addr := NormalizeAddress(raw);
    }

    /** `loadGameData`: open the main data file (fatal when it is missing, before anything is
        read) and read the header's first 20 bytes. `files` stands for the files the engine can
        open, by name. */
    method LoadGameData(files: map<string, seq<byte>>) returns (r: Result<()>)
      modifies this
      ensures r.Failure? <==> MainDataFileName !in files
      ensures r.Failure? ==> header == old(header) && mainFile == old(mainFile)
      ensures r.Success? ==> mainFile != null && fresh(mainFile) && mainFile.Valid()
      ensures r.Success? ==> mainFile.data == files[MainDataFileName]
      ensures r.Success? ==> mainFile.pos == Min(20, |mainFile.data|)
      ensures r.Success? ==> header == HeaderRead(old(header), files[MainDataFileName])
    {
      if MainDataFileName !in files {
        return Failure("File not found: TR.GDA");
      }
      var file := new ByteStream(files[MainDataFileName]);
      mainFile := file;
      var magic := file.ReadUint16LE(0);
      var _ := file.ReadUint16LE(2);
      var vvnn := ReadHeaderAddress(4);
      var vvn := ReadHeaderAddress(6);
      var vnjn := ReadHeaderAddress(8);
      var vjn := ReadHeaderAddress(10);
      var vdn := ReadHeaderAddress(12);
      var vnn := ReadHeaderAddress(14);
      var vn := ReadHeaderAddress(16);
      var v := ReadHeaderAddress(18);
      header := header.(magic := magic, actionsVVNN := vvnn, actionsVVN := vvn, actionsVNJN := vnjn,
                        actionsVJN := vjn, actionsVDN := vdn, actionsVNN := vnn, actionsVN := vn,
                        actionsV := v);
      return Success(());
    }
  }
}
