/** The texture converter script (dds_converter.py): the uncompressed DDS file it writes
    when the image library cannot save DDS itself, and the argument checks and result
    report of its entry point. Pixel data is an opaque byte sequence; the image library,
    the file system and standard output are replaced by parameters and return values. */
module DdsConverter {
  import opened Nullable

  newtype byte = x: int | 0 <= x < 256

  /** One more than the largest value a DWORD can hold. */
  const DWordRange: nat := 0x1_0000_0000

  /** "DDS " */
  const Magic: seq<byte> := [0x44, 0x44, 0x53, 0x20]

  /** Size of DDS_HEADER, written as its own first field. */
  const HeaderSize: nat := 124

  /** Magic plus DDS_HEADER: where the pixel data begins in the file. */
  const FileHeaderLength: nat := 128

  /** Size of DDS_PIXELFORMAT, written as its own first field. */
  const PixelFormatSize: nat := 32

  /** Header flags the converter sets: DDSD_CAPS, DDSD_HEIGHT, DDSD_WIDTH,
      DDSD_PIXELFORMAT, DDSD_MIPMAPCOUNT and DDSD_LINEARSIZE. */
  const HeaderFlags: nat := 0x1 + 0x2 + 0x4 + 0x1000 + 0x20000 + 0x80000

  /** Pixel format flags: DDPF_ALPHAPIXELS and DDPF_RGB. */
  const PixelFlags: nat := 0x41

  /** Caps the converter sets: DDSCAPS_COMPLEX and DDSCAPS_TEXTURE. */
  const Caps: nat := 0x1008

  // ---------------------------------------------------------------- DWORD codec

  /** The four bytes of `n`, least significant first: `n & 0xFF`, `(n >> 8) & 0xFF`,
      `(n >> 16) & 0xFF`, `(n >> 24) & 0xFF`. Bits above the 32nd are dropped. */
  function EncodeLE32(n: nat): (r: seq<byte>)
    ensures |r| == 4
    ensures DecodeLE32(r) == n % DWordRange
  {
    var q1 := n / 256;
    var q2 := q1 / 256;
    var q3 := q2 / 256;
    var q4 := q3 / 256;
    var s := n % 256 + 256 * (q1 % 256) + 65536 * (q2 % 256) + 16777216 * (q3 % 256);
    assert n == s + DWordRange * q4;
    ModOfSplit(n, s, q4);
    [(n % 256) as byte, (q1 % 256) as byte, (q2 % 256) as byte, (q3 % 256) as byte]
  }

  /** The value of four bytes read least significant first. */
  function DecodeLE32(b: seq<byte>): (r: nat)
    requires |b| == 4
    ensures r < DWordRange
  {
    DWordAt(b, 0)
  }

  lemma ModOfSplit(n: nat, s: nat, q: nat)
    requires s < DWordRange && n == s + DWordRange * q
    ensures n % DWordRange == s
  {
  }

  /** `n` split into its lowest byte and the rest. */
  lemma DivMod256(n: nat, r: nat, q: nat)
    requires r < 256 && n == r + 256 * q
    ensures n / 256 == q && n % 256 == r
  {
  }

  /** Decoding four bytes and encoding the value again gives the same bytes, so a
      DWORD value determines its bytes. */
  lemma DecodeEncode(b: seq<byte>)
    requires |b| == 4
    ensures EncodeLE32(DecodeLE32(b)) == b
  {
    var n := DecodeLE32(b);
    var q2 := b[2] as nat + 256 * b[3] as nat;
    var q1 := b[1] as nat + 256 * q2;
    DivMod256(n, b[0] as nat, q1);
    DivMod256(q1, b[1] as nat, q2);
    DivMod256(q2, b[2] as nat, b[3] as nat);
    DivMod256(b[3] as nat, b[3] as nat, 0);
    var e := EncodeLE32(n);
    assert e[0] == b[0] && e[1] == b[1] && e[2] == b[2] && e[3] == b[3];
  }

  /** The DWORD stored at byte offset `off`. */
  function DWordAt(h: seq<byte>, off: nat): nat
    requires off + 4 <= |h|
  {
    h[off] as nat + 256 * h[off + 1] as nat + 65536 * h[off + 2] as nat + 16777216 * h[off + 3] as nat
  }

  /** Two byte strings with the same DWORD at `off` agree on its four bytes. */
  lemma SameDWord(h: seq<byte>, h': seq<byte>, off: nat)
    requires off + 4 <= |h| && off + 4 <= |h'| && DWordAt(h, off) == DWordAt(h', off)
    ensures forall i :: off <= i < off + 4 ==> h[i] == h'[i]
  {
    assert DWordAt(h, off) == DecodeLE32(h[off..off + 4]);
    assert DWordAt(h', off) == DecodeLE32(h'[off..off + 4]);
    DecodeEncode(h[off..off + 4]);
    DecodeEncode(h'[off..off + 4]);
    assert h[off..off + 4] == h'[off..off + 4];
    forall i | off <= i < off + 4 ensures h[i] == h'[i] {
      assert h[i] == h[off..off + 4][i - off];
    }
  }

  // ---------------------------------------------------------------- header

  /** The first 32 bytes: the magic, then the DDS_HEADER fields size, flags, height,
      width, pitch or linear size, depth and mipmap count. */
  ghost predicate IsRgba8Head(head: seq<byte>, width: nat, height: nat)
  {
    && |head| == 32
    && head[..4] == Magic
    && DWordAt(head, 4) == HeaderSize
    && DWordAt(head, 8) == HeaderFlags
    && DWordAt(head, 12) == height % DWordRange
    && DWordAt(head, 16) == width % DWordRange
    && DWordAt(head, 20) == 0
    && DWordAt(head, 24) == 0
    && DWordAt(head, 28) == 0
  }

  /** DDS_PIXELFORMAT for uncompressed 32-bit pixels with alpha: size, flags, FourCC,
      RGB bit count, then the red, green, blue and alpha masks. */
  ghost predicate IsRgba8PixelFormat(pf: seq<byte>)
  {
    && |pf| == PixelFormatSize
    && DWordAt(pf, 0) == PixelFormatSize
    && DWordAt(pf, 4) == PixelFlags
    && DWordAt(pf, 8) == 0
    && DWordAt(pf, 12) == 32
    && DWordAt(pf, 16) == 0x00FF0000
    && DWordAt(pf, 20) == 0x0000FF00
    && DWordAt(pf, 24) == 0x000000FF
    && DWordAt(pf, 28) == 0xFF000000
  }

  /** The last 20 bytes: caps, then caps2, caps3, caps4 and a reserved DWORD, all zero. */
  ghost predicate IsRgba8Caps(tail: seq<byte>)
  {
    && |tail| == 20
    && DWordAt(tail, 0) == Caps
    && forall i :: 4 <= i < 20 ==> tail[i] == 0
  }

  /** A 128-byte file header laid out as the DirectDraw Surface format places the fields
      of DDS_HEADER and DDS_PIXELFORMAT: the head, eleven zero reserved DWORDs at
      offsets 32..75, the pixel format at 76..107 and the caps at 108..127. */
  ghost predicate IsRgba8Header(h: seq<byte>, width: nat, height: nat)
  {
    && |h| == FileHeaderLength
    && IsRgba8Head(h[..32], width, height)
    && (forall i :: 32 <= i < 76 ==> h[i] == 0)
    && IsRgba8PixelFormat(h[76..108])
    && IsRgba8Caps(h[108..])
  }

  /** The first bytes of the script's bytearray: magic, size 124, flags, height and
      width in little-endian order, then zero pitch, depth and mipmap count. */
  function HeadBytes(width: nat, height: nat): (r: seq<byte>)
    ensures IsRgba8Head(r, width, height)
  {
    var ht, wd := EncodeLE32(height), EncodeLE32(width);
    var r: seq<byte> :=
      [0x44, 0x44, 0x53, 0x20] +
      [0x7C, 0x00, 0x00, 0x00] +
      [0x07, 0x10, 0x0A, 0x00] +
      [ht[0], ht[1], ht[2], ht[3]] +
      [wd[0], wd[1], wd[2], wd[3]] +
      [0x00, 0x00, 0x00, 0x00] +
      [0x00, 0x00, 0x00, 0x00] +
      [0x00, 0x00, 0x00, 0x00];
    assert r[..4] == Magic;
    r
  }

  /** The DDS_PIXELFORMAT bytes the script appends. */
  function PixelFormatBytes(): (r: seq<byte>)
    ensures IsRgba8PixelFormat(r)
  {
    [0x20, 0x00, 0x00, 0x00] +
    [0x41, 0x00, 0x00, 0x00] +
    [0x00, 0x00, 0x00, 0x00] +
    [0x20, 0x00, 0x00, 0x00] +
    [0x00, 0x00, 0xFF, 0x00] +
    [0x00, 0xFF, 0x00, 0x00] +
    [0xFF, 0x00, 0x00, 0x00] +
    [0x00, 0x00, 0x00, 0xFF]
  }

  /** The caps bytes the script appends last. */
  function CapsBytes(): (r: seq<byte>)
    ensures IsRgba8Caps(r)
  {
    [0x08, 0x10, 0x00, 0x00] +
    [0x00, 0x00, 0x00, 0x00] +
    [0x00, 0x00, 0x00, 0x00] +
    [0x00, 0x00, 0x00, 0x00] +
    [0x00, 0x00, 0x00, 0x00]
  }

  /** The header of the fallback branch of `png_to_dds`, grown the way the script grows
      its bytearray: the head, then 44 reserved zero bytes, then the pixel format, then
      the caps. */
  method BuildHeader(width: nat, height: nat) returns (h: seq<byte>)
    ensures IsRgba8Header(h, width, height)
  {
    var head, pixelFormat, caps := HeadBytes(width, height), PixelFormatBytes(), CapsBytes();
    h := head;
    h := h + seq(44, _ => 0x00);
    h := h + pixelFormat;
    h := h + caps;
    assert h[..32] == head && h[76..108] == pixelFormat && h[108..] == caps;
  }

  /** The fallback file: the header, then the pixel data unchanged. */
  method FallbackFile(width: nat, height: nat, data: seq<byte>) returns (file: seq<byte>)
    ensures |file| == FileHeaderLength + |data|
    ensures IsRgba8Header(file[..FileHeaderLength], width, height)
    ensures file[FileHeaderLength..] == data
  {
    var header := BuildHeader(width, height);
    file := header;
    file := file + data;
    assert file[..FileHeaderLength] == header;
  }

  /** Two byte strings of the same length that hold the same DWORD at every offset
      in `offs` agree on all bytes the offsets cover. */
  lemma SameDWords(a: seq<byte>, b: seq<byte>, offs: set<nat>)
    requires |a| == |b| && forall off :: off in offs ==> off + 4 <= |a| && DWordAt(a, off) == DWordAt(b, off)
    ensures forall i, off :: off in offs && off <= i < off + 4 ==> a[i] == b[i]
  {
    forall off | off in offs {
      SameDWord(a, b, off);
    }
  }

  lemma HeadUnique(a: seq<byte>, b: seq<byte>, width: nat, height: nat)
    requires IsRgba8Head(a, width, height) && IsRgba8Head(b, width, height)
    ensures a == b
  {
    SameDWords(a, b, {4, 8, 12, 16, 20, 24, 28});
    forall i | 0 <= i < 32 ensures a[i] == b[i] {
      if i < 4 {
        assert a[i] == a[..4][i] && b[i] == b[..4][i];
      } else {
        assert i - i % 4 in {4, 8, 12, 16, 20, 24, 28};
      }
    }
  }

  lemma PixelFormatUnique(a: seq<byte>, b: seq<byte>)
    requires IsRgba8PixelFormat(a) && IsRgba8PixelFormat(b)
    ensures a == b
  {
    SameDWords(a, b, {0, 4, 8, 12, 16, 20, 24, 28});
    forall i | 0 <= i < 32 ensures a[i] == b[i] {
      assert i - i % 4 in {0, 4, 8, 12, 16, 20, 24, 28};
    }
  }

  lemma CapsUnique(a: seq<byte>, b: seq<byte>)
    requires IsRgba8Caps(a) && IsRgba8Caps(b)
    ensures a == b
  {
    SameDWord(a, b, 0);
  }

  /** The header description fixes every byte: two headers for the same size agree. */
  lemma Rgba8HeaderUnique(h: seq<byte>, h': seq<byte>, width: nat, height: nat)
    requires IsRgba8Header(h, width, height) && IsRgba8Header(h', width, height)
    ensures h == h'
  {
    HeadUnique(h[..32], h'[..32], width, height);
    PixelFormatUnique(h[76..108], h'[76..108]);
    CapsUnique(h[108..], h'[108..]);
    forall i | 0 <= i < FileHeaderLength ensures h[i] == h'[i] {
      if i < 32 {
        assert h[i] == h[..32][i] && h'[i] == h'[..32][i];
      } else if 76 <= i < 108 {
        assert h[i] == h[76..108][i - 76] && h'[i] == h'[76..108][i - 76];
      } else if 108 <= i {
        assert h[i] == h[108..][i - 108] && h'[i] == h'[108..][i - 108];
      }
    }
  }

  /** A DWORD read inside a slice is the DWORD at the shifted offset of the whole. */
  lemma DWordAtSlice(h: seq<byte>, lo: nat, hi: nat, off: nat)
    requires lo <= hi <= |h| && off + 4 <= hi - lo
    ensures DWordAt(h[lo..hi], off) == DWordAt(h, lo + off)
  {
  }

  /** The fields a reader of the file looks at, by absolute offset: "DDS " at 0..3, the
      header size 124 at 4, the height at 12 and the width at 16 (both modulo 2^32),
      eleven zero reserved DWORDs at 32..75, the pixel format size 32 at 76 and the RGB
      bit count 32 at 88. */
  lemma Rgba8HeaderOffsets(h: seq<byte>, width: nat, height: nat)
    requires IsRgba8Header(h, width, height)
    ensures |h| == 128 && h[0] == 0x44 && h[1] == 0x44 && h[2] == 0x53 && h[3] == 0x20
    ensures DWordAt(h, 4) == 124
    ensures DWordAt(h, 12) == height % DWordRange && DWordAt(h, 16) == width % DWordRange
    ensures forall i :: 32 <= i < 76 ==> h[i] == 0
    ensures DWordAt(h, 76) == 32 && DWordAt(h, 88) == 32
  {
    assert h[..32][..4] == Magic;
    DWordAtSlice(h, 0, 32, 4);
    DWordAtSlice(h, 0, 32, 12);
    DWordAtSlice(h, 0, 32, 16);
    DWordAtSlice(h, 76, 108, 0);
    DWordAtSlice(h, 76, 108, 12);
  }

  // ---------------------------------------------------------------- entry point

  datatype Operation = ToPng | ToDds

  /** The operation named on the command line; anything but the two names is invalid. */
  function ParseOperation(s: string): (r: Option<Operation>)
    ensures r == Some(ToPng) <==> s == "to-png"
    ensures r == Some(ToDds) <==> s == "to-dds"
  {
    if s == "to-png" then Some(ToPng) else if s == "to-dds" then Some(ToDds) else None
  }

  /** The dictionary behind the `RESULT:` line. */
  datatype Report = Converted(output: string, size: nat) | NotConverted(error: string)

  /** One line on standard output: a log record or the final result. */
  datatype Printed = LogLine(level: string, message: string) | ResultLine(report: Report)

  /** What one run of the script does: which conversion it started (if any), what it
      printed last, and its exit code. */
  datatype Run = Run(started: Option<Operation>, printed: Printed, exitCode: int)

  const Usage: string := "Usage: dds_converter.py <to-png|to-dds> <input> <output>"

  /** `main`. `argv` is `sys.argv`, the script name first; `existing` is the set of paths
      that exist; `toPngOk` and `toDdsOk` are what the two conversions return, and
      `outputSize` is the size of the output file afterwards. The checks run in order:
      argument count, input existence, operation name. */
  function Main(argv: seq<string>, existing: set<string>, toPngOk: bool, toDdsOk: bool, outputSize: nat): (r: Run)
    ensures r.exitCode == 0 || r.exitCode == 1
    ensures r.exitCode == 0 <==> r.printed.ResultLine? && r.printed.report.Converted?
    ensures r.started.Some? <==> |argv| == 4 && argv[2] in existing && ParseOperation(argv[1]).Some?
    ensures r.printed.ResultLine? <==> r.started.Some?
    ensures |argv| != 4 ==> r.printed == LogLine("ERROR", Usage)
    ensures |argv| == 4 && argv[2] !in existing ==> r.printed == LogLine("ERROR", "Input file not found: " + argv[2])
    ensures r.started.Some? ==> r.started == ParseOperation(argv[1])
    ensures r.printed.ResultLine? && r.printed.report.Converted? ==>
      r.printed.report == Converted(argv[3], outputSize)
    ensures r.printed.ResultLine? && r.printed.report.NotConverted? ==>
      r.printed.report == NotConverted("Conversion failed")
  {
    if |argv| != 4 then Run(None, LogLine("ERROR", Usage), 1)
    else
      var operation, inputPath, outputPath := argv[1], argv[2], argv[3];
      if inputPath !in existing then
        Run(None, LogLine("ERROR", "Input file not found: " + inputPath), 1)
      else
        match ParseOperation(operation)
        case None => Run(None, LogLine("ERROR", "Invalid operation: " + operation), 1)
        case Some(op) =>
          var success := if op == ToPng then toPngOk else toDdsOk;
          if success then Run(Some(op), ResultLine(Converted(outputPath, outputSize)), 0)
          else Run(Some(op), ResultLine(NotConverted("Conversion failed")), 1)
  }

  /** A missing input is reported before a bad operation name is noticed. */
  lemma MissingInputFirst(argv: seq<string>, existing: set<string>, toPngOk: bool, toDdsOk: bool, size: nat)
    requires |argv| == 4 && argv[2] !in existing && ParseOperation(argv[1]).None?
    ensures Main(argv, existing, toPngOk, toDdsOk, size).printed.message == "Input file not found: " + argv[2]
  {
  }

  /** The run succeeds exactly when the requested conversion succeeds. */
  lemma ExitMirrorsConversion(argv: seq<string>, existing: set<string>, toPngOk: bool, toDdsOk: bool, size: nat)
    requires |argv| == 4 && argv[2] in existing
    ensures argv[1] == "to-png" ==> (Main(argv, existing, toPngOk, toDdsOk, size).exitCode == 0 <==> toPngOk)
    ensures argv[1] == "to-dds" ==> (Main(argv, existing, toPngOk, toDdsOk, size).exitCode == 0 <==> toDdsOk)
    ensures argv[1] != "to-png" && argv[1] != "to-dds" ==>
      Main(argv, existing, toPngOk, toDdsOk, size) == Run(None, LogLine("ERROR", "Invalid operation: " + argv[1]), 1)
  {
  }
}
