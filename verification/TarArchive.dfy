/** The bug report's archive writer (src/main.rs) and a reader for the ustar
    interchange format (IEEE Std 1003.1, `pax` utility). */
module TarArchive {
  import opened Wrappers

  type Byte = b: nat | b < 256

  /** One section of the report; `mtime` is the clock reading taken for it. */
  datatype File = File(name: seq<Byte>, body: seq<Byte>, mtime: nat)

  function Zeros(n: nat): (r: seq<Byte>)
    ensures |r| == n && forall i :: 0 <= i < n ==> r[i] == 0
  {
    seq(n, _ => 0)
  }

  // ---- Octal ----

  /** Octal digits, padded with zeros to at least `width` of them. */
  function Octal(n: nat, width: nat): (r: seq<Byte>)
    ensures |r| >= width
    decreases n + width
  {
    if n < 8 && width <= 1 then [48 + n]
    else Octal(n / 8, if width == 0 then 0 else width - 1) + [48 + n % 8]
  }

  function Power8(k: nat): (r: nat)
    ensures r >= 1
  {
    if k == 0 then 1 else 8 * Power8(k - 1)
  }

  /** The value of a field of octal digits. */
  function ReadOctal(s: seq<Byte>): (r: Option<nat>)
  {
    if s == [] then Some(0)
    else
      var last := s[|s| - 1];
      match ReadOctal(s[..|s| - 1])
      case None => None
      case Some(high) => if 48 <= last < 56 then Some(high * 8 + (last - 48)) else None
  }

  /** A number prints in exactly `width` digits if and only if it is below 8^width. */
  lemma {:induction false} OctalFitsIff(n: nat, width: nat)
    requires width >= 1
    ensures |Octal(n, width)| == width <==> n < Power8(width)
    decreases n + width
  {
    if width == 1 {
      assert Power8(1) == 8 * Power8(0) == 8;
      if n >= 8 {
        OctalNotEmpty(n / 8, 0);
      }
    } else {
      OctalFitsIff(n / 8, width - 1);
    }
  }

  lemma {:induction false} OctalNotEmpty(n: nat, width: nat)
    ensures Octal(n, width) != []
  {
  }

  lemma {:induction false} OctalReadsBack(n: nat, width: nat)
    ensures ReadOctal(Octal(n, width)) == Some(n)
    decreases n + width
  {
    var s := Octal(n, width);
    if n < 8 && width <= 1 {
      assert s[..0] == [];
    } else {
      var w := if width == 0 then 0 else width - 1;
      OctalReadsBack(n / 8, w);
      assert s[..|s| - 1] == Octal(n / 8, w);
    }
  }

  lemma ElevenDigits(n: nat)
    requires n < Power8(11)
    ensures |Octal(n, 11)| == 11 && ReadOctal(Octal(n, 11)) == Some(n)
  {
    OctalFitsIff(n, 11);
    OctalReadsBack(n, 11);
  }

  // ---- Checksums ----

  function Sum(s: seq<Byte>): (r: nat)
  {
    if s == [] then 0 else Sum(s[..|s| - 1]) + s[|s| - 1]
  }

  lemma {:induction false} SumBound(s: seq<Byte>)
    ensures Sum(s) <= 255 * |s|
  {
    if s != [] {
      SumBound(s[..|s| - 1]);
    }
  }

  lemma {:induction false} SumConcat(a: seq<Byte>, b: seq<Byte>)
    ensures Sum(a + b) == Sum(a) + Sum(b)
    decreases |b|
  {
    if b == [] {
      assert a + b == a;
    } else {
      assert (a + b)[..|a + b| - 1] == a + b[..|b| - 1];
      SumConcat(a, b[..|b| - 1]);
    }
  }

  /** The sum of a block's bytes always fits the six digits kept for it. */
  lemma ChecksumFits(block: seq<Byte>)
    requires |block| == 512
    ensures |Octal(Sum(block), 6)| == 6 && ReadOctal(Octal(Sum(block), 6)) == Some(Sum(block))
  {
    SumBound(block);
    assert Power8(6) == 262144;
    OctalFitsIff(Sum(block), 6);
    OctalReadsBack(Sum(block), 6);
  }

  // ---- Headers ----

  const MODE: seq<Byte> := [48, 48, 48, 48, 54, 52, 52]
  const NOBODY: seq<Byte> := [48, 48, 48, 48, 48, 48, 48]
  const SPACES: seq<Byte> := [32, 32, 32, 32, 32, 32, 32, 32]
  const USTAR: seq<Byte> := [117, 115, 116, 97, 114]
  const VERSION: seq<Byte> := [48, 48]

  /** `s` in a field of `width` bytes. */
  function Field(s: seq<Byte>, width: nat): (r: seq<Byte>)
    requires |s| <= width
    ensures |r| == width
  {
    s + Zeros(width - |s|)
  }

  /** The first hundred bytes of a name are kept. */
  function Kept(name: seq<Byte>): (r: seq<Byte>)
    ensures |r| <= 100
  {
    if |name| <= 100 then name else name[..100]
  }

  predicate Fits(file: File)
  {
    |file.body| < Power8(11) && file.mtime < Power8(11)
  }

  function Front(file: File): (r: seq<Byte>)
    ensures |r| == 124
  {
    Field(Kept(file.name), 100) + Field(MODE, 8) + Field(NOBODY, 8) + Field(NOBODY, 8)
  }

  function Times(file: File): (r: seq<Byte>)
    requires Fits(file)
    ensures |r| == 24
  {
    ElevenDigits(|file.body|);
    ElevenDigits(file.mtime);
    Field(Octal(|file.body|, 11), 12) + Field(Octal(file.mtime, 11), 12)
  }

  function Back(): (r: seq<Byte>)
    ensures |r| == 356
  {
    Field([48], 101) + Field(USTAR, 6) + VERSION + Zeros(247)
  }

  /** The header while the checksum field still holds spaces. */
  function Blank(file: File): (r: seq<Byte>)
    requires Fits(file)
    ensures |r| == 512
  {
    Front(file) + Times(file) + SPACES + Back()
  }

  function ChecksumField(sum: nat): (r: seq<Byte>)
  {
    Octal(sum, 6) + [0, 32]
  }

  function Header(file: File): (r: seq<Byte>)
    requires Fits(file)
    ensures |r| == 512
  {
    ChecksumFits(Blank(file));
    Front(file) + Times(file) + ChecksumField(Sum(Blank(file))) + Back()
  }

  // ---- Filling the header in place ----

  /** `s` written over the bytes of `h` from `at` on. */
  function Over(h: seq<Byte>, at: nat, s: seq<Byte>): (r: seq<Byte>)
    requires at + |s| <= |h|
    ensures |r| == |h|
  {
    h[..at] + s + h[at + |s|..]
  }

  method CopyInto(header: array<Byte>, at: nat, s: seq<Byte>)
    requires at + |s| <= header.Length
    modifies header
    ensures header[..] == Over(old(header[..]), at, s)
  {
    forall i | at <= i < at + |s| {
      header[i] := s[i - at];
    }
  }

  /** A header of which the first bytes are `filled` and the rest is still zero. */
  function Partial(filled: seq<Byte>): (r: seq<Byte>)
    requires |filled| <= 512
    ensures |r| == 512
  {
    filled + Zeros(512 - |filled|)
  }

  /** Writing the next field moves the finished part on by the field's width. */
  lemma NextField(filled: seq<Byte>, s: seq<Byte>, width: nat)
    requires |s| <= width && |filled| + width <= 512
    ensures Over(Partial(filled), |filled|, s) == Partial(filled + Field(s, width))
  {
  }

  /** One field into the header, whose finished part `filled` it extends. */
  method PutField(header: array<Byte>, at: nat, s: seq<Byte>, width: nat, ghost filled: seq<Byte>)
    returns (ghost more: seq<Byte>)
    requires header.Length == 512 && |s| <= width && |filled| + width <= 512 && at == |filled|
    requires header[..] == Partial(filled)
    modifies header
    ensures more == filled + Field(s, width) && header[..] == Partial(more)
  {
    CopyInto(header, at, s);
    NextField(filled, s, width);
    more := filled + Field(s, width);
  }

  /** The fields go in one after the other; the checksum is taken over the
      header with spaces in its place and then written there. */
  method FillHeader(file: File) returns (header: array<Byte>)
    requires Fits(file)
    ensures fresh(header) && header.Length == 512
    ensures header[..] == Header(file)
  {
    hide Over, Partial, Field, Sum, Octal;
    ElevenDigits(|file.body|);
    ElevenDigits(file.mtime);
    header := new Byte[512](_ => 0);
    NothingFilled(header[..]);
    ghost var filled := PutField(header, 0, Kept(file.name), 100, []);
    assert [] + Field(Kept(file.name), 100) == Field(Kept(file.name), 100);
    filled := PutField(header, 100, MODE, 8, filled);
    filled := PutField(header, 108, NOBODY, 8, filled);
    filled := PutField(header, 116, NOBODY, 8, filled);
    assert filled == Front(file);
    filled := PutField(header, 124, Octal(|file.body|, 11), 12, filled);
    filled := PutField(header, 136, Octal(file.mtime, 11), 12, filled);
    ghost var front := Front(file) + Times(file);
    assert filled == front;
    filled := PutField(header, 148, SPACES, 8, filled);
    filled := PutField(header, 156, [48], 101, filled);
    filled := PutField(header, 257, USTAR, 6, filled);
    filled := PutField(header, 263, VERSION, 2, filled);
    AllFilled(front);
    assert header[..] == Blank(file);
    var checksum := Total(header);
    ChecksumFits(header[..]);
    CopyInto(header, 148, ChecksumField(checksum));
    ReplaceSpaces(front, ChecksumField(checksum));
  }

  method Total(header: array<Byte>) returns (sum: nat)
    ensures sum == Sum(header[..])
  {
    sum := 0;
    for i := 0 to header.Length
      invariant sum == Sum(header[..i])
    {
      assert header[..i + 1][..i] == header[..i];
      sum := sum + header[i];
    }
    assert header[..header.Length] == header[..];
  }

  lemma NothingFilled(header: seq<Byte>)
    requires |header| == 512 && forall i :: 0 <= i < 512 ==> header[i] == 0
    ensures header == Partial([])
  {
  }

  lemma AllFilled(front: seq<Byte>)
    requires |front| == 148
    ensures Partial(front + Field(SPACES, 8) + Field([48], 101) + Field(USTAR, 6) + Field(VERSION, 2))
         == front + SPACES + Back()
  {
    hide Field;
    assert Field(SPACES, 8) == SPACES && Field(VERSION, 2) == VERSION by {
      FullField(SPACES);
      FullField(VERSION);
    }
  }

  lemma FullField(s: seq<Byte>)
    ensures Field(s, |s|) == s
  {
  }

  lemma ReplaceSpaces(front: seq<Byte>, checksum: seq<Byte>)
    requires |front| == 148 && |checksum| == 8
    ensures Over(front + SPACES + Back(), 148, checksum) == front + checksum + Back()
  {
    hide Back;
  }

  // ---- The archive ----

  function Padding(length: nat): (r: nat)
  {
    (512 - length % 512) % 512
  }

  function Entry(file: File): (r: seq<Byte>)
    requires Fits(file)
  {
    Header(file) + file.body + Zeros(Padding(|file.body|))
  }

  function Entries(files: seq<File>): (r: seq<Byte>)
    requires forall i :: 0 <= i < |files| ==> Fits(files[i])
  {
    if files == [] then [] else Entry(files[0]) + Entries(files[1..])
  }

  function Archive(files: seq<File>): (r: seq<Byte>)
    requires forall i :: 0 <= i < |files| ==> Fits(files[i])
  {
    Entries(files) + Zeros(1024)
  }

  method WriteEntry(buffer: seq<Byte>, file: File) returns (written: seq<Byte>)
    requires Fits(file)
    ensures written == buffer + Entry(file)
  {
    hide Header, Fits;
    var header := FillHeader(file);
    written := buffer + header[..];
    written := written + file.body;
    var pad := (512 - |file.body| % 512) % 512;
    if pad > 0 {
      written := written + Zeros(pad);
    }
  }

  method WriteArchive(files: seq<File>) returns (written: seq<Byte>)
    requires forall i :: 0 <= i < |files| ==> Fits(files[i])
    ensures written == Archive(files)
  {
    hide Fits, Entry;
    written := [];
    assert files[..0] == [];
    for i := 0 to |files|
      invariant written == Entries(files[..i])
    {
      written := WriteEntry(written, files[i]);
      EntriesSnoc(files[..i], files[i]);
      assert files[..i] + [files[i]] == files[..i + 1];
    }
    assert files[..|files|] == files;
    written := written + Zeros(1024);
  }

  lemma {:induction false} EntriesSnoc(files: seq<File>, file: File)
    requires Fits(file) && forall i :: 0 <= i < |files| ==> Fits(files[i])
    ensures Entries(files + [file]) == Entries(files) + Entry(file)
  {
    hide Entry, Fits;
    if files == [] {
      assert [] + [file] == [file];
    } else {
      assert (files + [file])[1..] == files[1..] + [file];
      EntriesSnoc(files[1..], file);
    }
  }

  // ---- The reader ----

  datatype Member = Member(name: seq<Byte>, body: seq<Byte>, mtime: nat, mode: nat, owner: nat, group: nat)

  /** A name field ends at its first zero byte, or fills the field. */
  function BeforeZero(s: seq<Byte>): (r: seq<Byte>)
    ensures |r| <= |s|
  {
    if s == [] || s[0] == 0 then [] else [s[0]] + BeforeZero(s[1..])
  }

  predicate AllZero(s: seq<Byte>)
  {
    forall i :: 0 <= i < |s| ==> s[i] == 0
  }

  /** The recorded checksum is the sum with spaces in the checksum field. */
  predicate Verifies(header: seq<Byte>)
    requires |header| == 512
  {
    ReadOctal(header[148..154]) == Some(Sum(Over(header, 148, SPACES)))
  }

  datatype Fields = Fields(name: seq<Byte>, size: nat, mtime: nat, mode: nat, owner: nat, group: nat)

  function ReadHeader(header: seq<Byte>): (r: Option<Fields>)
    requires |header| == 512
  {
    var mode, owner, group := ReadOctal(header[100..107]), ReadOctal(header[108..115]), ReadOctal(header[116..123]);
    var size, mtime := ReadOctal(header[124..135]), ReadOctal(header[136..147]);
    if Verifies(header) && header[156] == 48 && header[257..263] == [117, 115, 116, 97, 114, 0] && header[263..265] == [48, 48]
       && size.Some? && mtime.Some? && mode.Some? && owner.Some? && group.Some?
    then Some(Fields(BeforeZero(header[..100]), size.value, mtime.value, mode.value, owner.value, group.value))
    else None
  }

  /** Reads members until two blocks of zeros; refuses anything malformed. */
  function ReadArchive(bytes: seq<Byte>): (r: Option<seq<Member>>)
    decreases |bytes|
  {
    if |bytes| < 1024 then None
    else if AllZero(bytes[..512]) then if AllZero(bytes[512..1024]) then Some([]) else None
    else
      match ReadHeader(bytes[..512])
      case None => None
      case Some(fields) =>
        var end := 512 + fields.size;
        var next := end + Padding(fields.size);
        if next > |bytes| then None
        else
          match ReadArchive(bytes[next..])
          case None => None
          case Some(rest) => Some([Member(fields.name, bytes[512..end], fields.mtime, fields.mode, fields.owner, fields.group)] + rest)
  }

  // ---- Round trip ----

  lemma HeaderSlices(file: File)
    requires Fits(file)
    ensures var h := Header(file);
      && h[..100] == Field(Kept(file.name), 100)
      && h[100..107] == MODE && h[108..115] == NOBODY && h[116..123] == NOBODY
      && h[124..135] == Octal(|file.body|, 11)
      && h[136..147] == Octal(file.mtime, 11)
      && h[148..156] == ChecksumField(Sum(Blank(file)))
      && h[156..] == Back()
  {
    hide Field, Octal, Sum, Back, Blank;
    ChecksumFits(Blank(file));
    ElevenDigits(|file.body|);
    ElevenDigits(file.mtime);
    assert Times(file)[..11] == Octal(|file.body|, 11) && Times(file)[12..23] == Octal(file.mtime, 11) by {
      FieldStarts(Octal(|file.body|, 11), 12);
      FieldStarts(Octal(file.mtime, 11), 12);
    }
    var h := Header(file);
    var front := Front(file);
    assert h[..124] == front && h[124..148] == Times(file);
    assert h[..100] == front[..100];
    FieldStarts(MODE, 8);
    FieldStarts(NOBODY, 8);
    assert front[100..108] == Field(MODE, 8) && front[108..116] == Field(NOBODY, 8) && front[116..124] == Field(NOBODY, 8);
    assert h[100..107] == front[100..108][..7] && h[108..115] == front[108..116][..7] && h[116..123] == front[116..124][..7];
    assert h[124..135] == h[124..148][..11] && h[136..147] == h[124..148][12..23];
  }

  lemma FieldStarts(s: seq<Byte>, width: nat)
    requires |s| <= width
    ensures Field(s, width)[..|s|] == s
  {
  }

  lemma BackSlices()
    ensures Back()[0] == 48 && Back()[101..107] == USTAR + [0] && Back()[107..109] == VERSION
  {
  }

  /** Every header's checksum verifies. */
  lemma HeaderVerifies(file: File)
    requires Fits(file)
    ensures Verifies(Header(file))
  {
    hide Octal, ReadOctal, Sum, Front, Times, Back;
    ChecksumFits(Blank(file));
    var sum := Sum(Blank(file));
    var h := Header(file);
    HeaderSlices(file);
    assert h[148..154] == h[148..156][..6] == Octal(sum, 6);
    assert Over(h, 148, SPACES) == Blank(file);
  }

  lemma {:induction false} NameReadsBack(s: seq<Byte>, width: nat)
    requires |s| <= width
    ensures BeforeZero(Field(s, width)) == BeforeZero(s)
    decreases |s|
  {
    var f := Field(s, width);
    if s == [] {
    } else if s[0] != 0 {
      assert f[1..] == Field(s[1..], width - 1);
      NameReadsBack(s[1..], width - 1);
    }
  }

  /** The fixed fields say 0644, owner 0 and group 0. */
  lemma FixedFieldsRead()
    ensures ReadOctal(MODE) == Some(6 * 64 + 4 * 8 + 4) && ReadOctal(NOBODY) == Some(0)
  {
    assert MODE == Octal(420, 7) by {
      assert Octal(0, 1) == [48] && Octal(0, 2) == [48, 48] && Octal(0, 3) == [48, 48, 48] && Octal(0, 4) == [48, 48, 48, 48];
      assert Octal(6, 5) == Octal(0, 4) + [54] && Octal(52, 6) == Octal(6, 5) + [52] && Octal(420, 7) == Octal(52, 6) + [52];
    }
    assert NOBODY == Octal(0, 7) by {
      assert Octal(0, 1) == [48] && Octal(0, 2) == [48, 48] && Octal(0, 3) == [48, 48, 48] && Octal(0, 4) == [48, 48, 48, 48];
      assert Octal(0, 5) == Octal(0, 4) + [48] && Octal(0, 6) == Octal(0, 5) + [48] && Octal(0, 7) == Octal(0, 6) + [48];
    }
    OctalReadsBack(420, 7);
    OctalReadsBack(0, 7);
  }

  lemma HeaderReadsBack(file: File)
    requires Fits(file)
    ensures ReadHeader(Header(file)) == Some(Fields(BeforeZero(Kept(file.name)), |file.body|, file.mtime, 0x1A4, 0, 0))
    ensures !AllZero(Header(file))
  {
    hide Octal, ReadOctal, Sum, Verifies, Back, BeforeZero, Header;
    var h := Header(file);
    HeaderVerifies(file);
    HeaderSlices(file);
    BackSlices();
    ElevenDigits(|file.body|);
    ElevenDigits(file.mtime);
    NameReadsBack(Kept(file.name), 100);
    assert ReadOctal(MODE) == Some(0x1A4) && ReadOctal(NOBODY) == Some(0) by {
      FixedFieldsRead();
    }
    assert h[156] == h[156..][0];
    assert h[257..263] == h[156..][101..107] && h[263..265] == h[156..][107..109];
  }

  /** What a reader finds of a file: its body and time, its name up to a hundred bytes
      or the first zero byte, and mode 0644 with owner and group 0. */
  function AsMember(file: File): (r: Member)
  {
    Member(BeforeZero(Kept(file.name)), file.body, file.mtime, 0x1A4, 0, 0)
  }

  function AsMembers(files: seq<File>): (r: seq<Member>)
  {
    seq(|files|, i requires 0 <= i < |files| => AsMember(files[i]))
  }

  lemma PaddingAligns(n: nat)
    ensures (n + Padding(n)) % 512 == 0
  {
  }

  /** Every entry, and so every header, starts at a multiple of 512. */
  lemma {:induction false} EntriesAligned(files: seq<File>)
    requires forall i :: 0 <= i < |files| ==> Fits(files[i])
    ensures |Entries(files)| % 512 == 0
  {
    hide Header, Fits, Padding;
    if files != [] {
      EntriesAligned(files[1..]);
      PaddingAligns(|files[0].body|);
    }
  }

  /** Reading an archive gives back its files, whatever bytes they hold. */
  lemma {:induction false} ArchiveReadsBack(files: seq<File>)
    requires forall i :: 0 <= i < |files| ==> Fits(files[i])
    ensures |Archive(files)| % 512 == 0
    ensures ReadArchive(Archive(files)) == Some(AsMembers(files))
    decreases |files|
  {
    hide Entry, ReadArchive, Fits, AsMember;
    EntriesAligned(files);
    if files == [] {
      assert Archive(files) == Zeros(1024);
      TerminatorReads();
      assert AsMembers(files) == [];
    } else {
      var file, rest := files[0], files[1..];
      ArchiveReadsBack(rest);
      EntryReadsBack(file, Archive(rest));
      assert Archive(files) == Entry(file) + Archive(rest);
      assert AsMembers(files) == [AsMember(file)] + AsMembers(rest);
    }
  }

  lemma TerminatorReads()
    ensures ReadArchive(Zeros(1024)) == Some([])
  {
    hide ReadHeader, Padding;
  }

  lemma EntryReadsBack(file: File, rest: seq<Byte>)
    requires Fits(file) && |rest| >= 512 && ReadArchive(rest).Some?
    ensures ReadArchive(Entry(file) + rest) == Some([AsMember(file)] + ReadArchive(rest).value)
  {
    hide Header, ReadHeader, Fits, BeforeZero, Padding, AllZero, Kept;
    HeaderReadsBack(file);
    var bytes := Entry(file) + rest;
    EntryParts(file, rest);
    assert |bytes| >= 1024;
  }

  lemma EntryParts(file: File, rest: seq<Byte>)
    requires Fits(file)
    ensures var bytes, end := Entry(file) + rest, 512 + |file.body|;
      && |bytes| == end + Padding(|file.body|) + |rest|
      && bytes[..512] == Header(file)
      && bytes[512..end] == file.body
      && bytes[end + Padding(|file.body|)..] == rest
  {
    hide Header, Fits, Padding;
  }

  /** A name without zero bytes that is not too long comes back whole. */
  lemma {:induction false} NameComesBackIff(name: seq<Byte>)
    ensures BeforeZero(Kept(name)) == name <==> |name| <= 100 && 0 !in name
  {
    if |name| <= 100 {
      WholeIff(name);
    }
  }

  lemma {:induction false} WholeIff(s: seq<Byte>)
    ensures BeforeZero(s) == s <==> 0 !in s
  {
    if s != [] {
      WholeIff(s[1..]);
      assert s == [s[0]] + s[1..];
    }
  }

  /** One changed byte anywhere outside the checksum field is noticed. */
  lemma ChecksumCatchesOneByte(file: File, i: nat, b: Byte)
    requires Fits(file) && i < 512 && !(148 <= i < 156) && b != Header(file)[i]
    ensures !Verifies(Header(file)[i := b])
  {
    hide Sum, Header, ReadOctal;
    var h := Header(file);
    HeaderVerifies(file);
    var was, now := Over(h, 148, SPACES), Over(h[i := b], 148, SPACES);
    assert h[i := b][148..154] == h[148..154];
    assert now == was[i := b];
    SumUpdate(was, i, b);
  }

  lemma SumUpdate(s: seq<Byte>, i: nat, b: Byte)
    requires i < |s|
    ensures Sum(s[i := b]) == Sum(s) - s[i] + b
  {
    var low, high := s[..i], s[i + 1..];
    assert s == low + [s[i]] + high && s[i := b] == low + [b] + high;
    SumConcat(low + [s[i]], high);
    SumConcat(low + [b], high);
    assert (low + [b])[..i] == low && (low + [s[i]])[..i] == low;
  }
}
