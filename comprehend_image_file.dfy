/** The header of a Comprehend image file (engines/comprehend/image_file.cpp, ImageFile): a
    table of 16 little-endian image offsets, either at the start of the file or, in files of
    earlier versions marked by a first word 0x1000, four bytes in and relative to that point. */
module ComprehendImageFile {
  import opened Streams

  /** `kImagesPerFile`. */
  const ImagesPerFile: nat := 16

  /** The first word that marks a file of an earlier version. */
  const OldVersionMarker: u16 := 0x1000

  /** 16-bit unsigned addition, as `_imageOffsets[i] += 4` does it. */
  function Add16(a: u16, b: u16): (r: u16)
    ensures a + b < 0x1_0000 ==> r == a + b
    ensures a + b >= 0x1_0000 ==> r == a + b - 0x1_0000
  {
    (a + b) % 0x1_0000
  }

  /** The offset table `loadHeader` reads from `data`. */
  function ImageOffsetTable(data: seq<byte>): (offsets: seq<u16>)
    ensures |offsets| == ImagesPerFile
    ensures LE16At(data, 0) == OldVersionMarker ==>
      forall i :: 0 <= i < ImagesPerFile ==> offsets[i] == Add16(LE16At(data, 4 + 2 * i), 4)
    ensures LE16At(data, 0) != OldVersionMarker ==>
      forall i :: 0 <= i < ImagesPerFile ==> offsets[i] == LE16At(data, 2 * i)
  {
    if LE16At(data, 0) == OldVersionMarker then
      seq(ImagesPerFile, i requires 0 <= i => Add16(LE16At(data, 4 + 2 * i), 4))
    else
      seq(ImagesPerFile, i requires 0 <= i => LE16At(data, 2 * i))
  }

  /** A file of the newer layout: the offsets from byte 0. */
  function EncodeNewTable(offsets: seq<u16>): (r: seq<byte>)
    requires |offsets| == ImagesPerFile
    ensures |r| == 2 * ImagesPerFile
  {
    LE16Words(offsets)
  }

  /** A file of the earlier layout: the marker, a word that is skipped, then each offset less 4. */
  function EncodeOldTable(skipped: u16, offsets: seq<u16>): (r: seq<byte>)
    requires |offsets| == ImagesPerFile
    ensures |r| == 4 + 2 * ImagesPerFile
  {
    LE16Words([OldVersionMarker, skipped] + seq(ImagesPerFile, i requires 0 <= i < ImagesPerFile => Add16(offsets[i], 0x1_0000 - 4)))
  }

  /** The earlier layout reads back, whatever follows it. */
  lemma OldTableRoundTrip(skipped: u16, offsets: seq<u16>, rest: seq<byte>)
    requires |offsets| == ImagesPerFile
    ensures ImageOffsetTable(EncodeOldTable(skipped, offsets) + rest) == offsets
  {
    var words := [OldVersionMarker, skipped] + seq(ImagesPerFile, i requires 0 <= i < ImagesPerFile => Add16(offsets[i], 0x1_0000 - 4));
    var bytes := LE16Words(words);
    forall k | 0 <= k < |words|
      ensures LE16At(bytes + rest, 2 * k) == words[k]
    {
      LE16WordsAt(words, k);
      Word16AtLeft(bytes, rest, 2 * k);
    }
    assert LE16At(bytes + rest, 0) == OldVersionMarker;
    forall i | 0 <= i < ImagesPerFile
      ensures ImageOffsetTable(bytes + rest)[i] == offsets[i]
    {
      assert LE16At(bytes + rest, 4 + 2 * i) == words[2 + i];
    }
  }

  /** The newer layout reads back, whatever follows it, unless its first offset happens to be
      the marker. */
  lemma NewTableRoundTrip(offsets: seq<u16>, rest: seq<byte>)
    requires |offsets| == ImagesPerFile && offsets[0] != OldVersionMarker
    ensures ImageOffsetTable(EncodeNewTable(offsets) + rest) == offsets
  {
    var bytes := LE16Words(offsets);
    forall k | 0 <= k < ImagesPerFile
      ensures LE16At(bytes + rest, 2 * k) == offsets[k]
    {
      LE16WordsAt(offsets, k);
      Word16AtLeft(bytes, rest, 2 * k);
    }
  }

  /** A newer-layout table whose first image sits at offset 0x1000 is read as an earlier-layout
      one: its offsets are taken from the wrong place. */
  lemma NewTableWithMarkerOffset(offsets: seq<u16>, rest: seq<byte>)
    requires |offsets| == ImagesPerFile && offsets[0] == OldVersionMarker
    ensures ImageOffsetTable(EncodeNewTable(offsets) + rest)[0] == Add16(offsets[2], 4)
  {
    var bytes := LE16Words(offsets);
    LE16WordsAt(offsets, 0);
    Word16AtLeft(bytes, rest, 0);
    LE16WordsAt(offsets, 2);
    Word16AtLeft(bytes, rest, 4);
  }

  class ImageFile {
    const filename: string
    /** `_file`: null until `loadHeader` opens it. */
    var file: ByteStream?
    const imageOffsets: array<u16>

    ghost predicate Valid()
      reads this
    {
      imageOffsets.Length == ImagesPerFile
    }

    constructor (name: string)
      ensures Valid() && filename == name && file == null
    {
      filename := name;
      file := null;
      imageOffsets := new u16[ImagesPerFile](_ => 0);
    }

    /** `loadHeader`: open the file (fatal when it is missing, before anything is read), read
        the first word, seek to the table and read the 16 offsets, adding 4 to each when the
        marker was seen. `files` stands for the files the engine can open, by name. */
    method LoadHeader(files: map<string, seq<byte>>) returns (r: Result<()>)
      requires Valid()
      modifies this, imageOffsets
      ensures Valid()
      ensures r.Failure? <==> filename !in files
      ensures r.Failure? ==> file == old(file) && imageOffsets[..] == old(imageOffsets[..])
      ensures r.Success? ==> file != null && fresh(file) && file.Valid() && file.data == files[filename]
      ensures r.Success? ==> imageOffsets[..] == ImageOffsetTable(files[filename])
    {
      if filename !in files {
        return Failure("Failed to open file");
      }
      var f := new ByteStream(files[filename]);
      file := f;
      var firstWord := f.ReadUint16LE(0);
      var start := if firstWord == OldVersionMarker then 4 else 0;
      f.Seek(start);
      var i := 0;
      while i < ImagesPerFile
        invariant 0 <= i <= ImagesPerFile && f.Valid() && f.data == files[filename]
        invariant f.pos == Min(start + 2 * i, |f.data|)
        invariant forall k :: 0 <= k < i ==> imageOffsets[k] == ImageOffsetTable(f.data)[k]
        modifies f, imageOffsets
      {
        var offset := f.ReadUint16LE(start + 2 * i);
        if firstWord == OldVersionMarker {
          offset := Add16(offset, 4);
        }
        imageOffsets[i] := offset;
        i := i + 1;
      }
      return Success(());
    }
  }
}
