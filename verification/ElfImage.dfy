/** ELF images as the format prints them: headers are fields one after the other, so where a field stands follows from
    the fields before it.  The reader of NoteWalker is compared with these images.
 */
module ElfImage {
  import opened NoteWalker

  // ---- fields one after the other ------------------------------------------------------------------------------

  datatype Field = Field(width: nat, value: nat)

  predicate Fits(fields: seq<Field>) {
    forall f | f in fields :: f.value < Pow256(f.width)
  }

  function Offset(fields: seq<Field>, k: nat): nat
    requires k <= |fields|
  {
    if k == 0 then 0 else Offset(fields, k - 1) + fields[k - 1].width
  }

  function Print(fields: seq<Field>): (s: Bytes)
    ensures |s| == Offset(fields, |fields|)
  {
    if fields == [] then []
    else
      var n := |fields| - 1;
      OffsetOfFirst(fields, n, n);
      Print(fields[..n]) + Encode(fields[n].value, fields[n].width)
  }

  lemma {:induction false} OffsetOfFirst(fields: seq<Field>, n: nat, k: nat)
    requires k <= n <= |fields|
    ensures Offset(fields[..n], k) == Offset(fields, k)
    decreases k
  {
    if k > 0 { OffsetOfFirst(fields, n, k - 1); }
  }

  /** A piece of an image. */
  predicate Contains(data: Bytes, at: nat, piece: Bytes) {
    at + |piece| <= |data| && data[at..at + |piece|] == piece
  }

  lemma {:induction false} OffsetGrows(fields: seq<Field>, j: nat, k: nat)
    requires j <= k <= |fields|
    ensures Offset(fields, j) <= Offset(fields, k)
    decreases k - j
  {
    if j < k { OffsetGrows(fields, j, k - 1); }
  }

  /** A field is read where the fields before it end. */
  lemma {:induction false} FieldAt(data: Bytes, at: nat, fields: seq<Field>, k: nat)
    requires Contains(data, at, Print(fields)) && Fits(fields) && k < |fields|
    ensures at + Offset(fields, k) + fields[k].width <= |data|
    ensures Number(data, at + Offset(fields, k), fields[k].width) == fields[k].value
    decreases |fields|
  {
    var n := |fields| - 1;
    var front, last := Print(fields[..n]), Encode(fields[n].value, fields[n].width);
    assert Print(fields) == front + last;
    OffsetOfFirst(fields, n, n);
    SliceOfSlice(data, at, at + |front + last|, 0, |front|);
    SliceOfSlice(data, at, at + |front + last|, |front|, |front + last|);
    assert (front + last)[..|front|] == front && (front + last)[|front|..] == last;
    if k == n {
      assert fields[n] in fields;
      NumberEncoded(data, at + |front|, fields[n].value, fields[n].width);
    } else {
      OffsetOfFirst(fields, n, k);
      FieldAt(data, at, fields[..n], k);
    }
  }

  // ---- the headers of the format -------------------------------------------------------------------------------

  datatype Class = Elf32 | Elf64

  /** The size of an address or offset. */
  function Word(c: Class): nat {
    if c.Elf64? then 8 else 4
  }

  /** The identification: the magic number, the class, little-endian data, and ten bytes that are not looked at. */
  function Ident(c: Class, rest: Bytes): (s: Bytes)
    requires |rest| == 10
    ensures |s| == 16
  {
    MAGIC + [if c.Elf64? then 2 else 1, 1] + rest
  }

  datatype FileHeader = FileHeader(
    kind: nat, machine: nat, version: nat, entry: nat, phoff: nat, shoff: nat, flags: nat, ehsize: nat,
    phentsize: nat, phnum: nat, shentsize: nat, shnum: nat, shstrndx: nat)

  /** What follows the identification. */
  function HeaderFields(c: Class, h: FileHeader): seq<Field> {
    var w := Word(c);
    [Field(2, h.kind), Field(2, h.machine), Field(4, h.version), Field(w, h.entry), Field(w, h.phoff),
     Field(w, h.shoff), Field(4, h.flags), Field(2, h.ehsize), Field(2, h.phentsize), Field(2, h.phnum),
     Field(2, h.shentsize), Field(2, h.shnum), Field(2, h.shstrndx)]
  }

  datatype ProgramHeader = ProgramHeader(
    kind: nat, flags: nat, offset: nat, vaddr: nat, paddr: nat, filesz: nat, memsz: nat, alignment: nat)

  /** A program header, whose flags stand in different places in the two classes. */
  function ProgramFields(c: Class, p: ProgramHeader): seq<Field> {
    match c
    case Elf64 =>
      [Field(4, p.kind), Field(4, p.flags), Field(8, p.offset), Field(8, p.vaddr), Field(8, p.paddr),
       Field(8, p.filesz), Field(8, p.memsz), Field(8, p.alignment)]
    case Elf32 =>
      [Field(4, p.kind), Field(4, p.offset), Field(4, p.vaddr), Field(4, p.paddr), Field(4, p.filesz),
       Field(4, p.memsz), Field(4, p.flags), Field(4, p.alignment)]
  }

  datatype SectionHeader = SectionHeader(
    name: nat, kind: nat, flags: nat, addr: nat, offset: nat, size: nat, link: nat, info: nat, addralign: nat,
    entsize: nat)

  function SectionFields(c: Class, s: SectionHeader): seq<Field> {
    var w := Word(c);
    [Field(4, s.name), Field(4, s.kind), Field(w, s.flags), Field(w, s.addr), Field(w, s.offset), Field(w, s.size),
     Field(4, s.link), Field(4, s.info), Field(w, s.addralign), Field(w, s.entsize)]
  }

  /** The fields of the file header the reader looks at, and the header's size. */
  lemma {:induction false} HeaderOffsets(c: Class, h: FileHeader)
    ensures var f, w := HeaderFields(c, h), Word(c);
            && Offset(f, 4) == 8 + w && Offset(f, 5) == 8 + 2 * w && Offset(f, 8) == 14 + 3 * w
            && Offset(f, 9) == 16 + 3 * w && Offset(f, 13) == 24 + 3 * w
  {
    var f := HeaderFields(c, h);
    assert Offset(f, 1) == 2;
    assert Offset(f, 2) == 4;
    assert Offset(f, 3) == 8;
    assert Offset(f, 4) == 8 + Word(c);
    assert Offset(f, 6) == 8 + 3 * Word(c);
    assert Offset(f, 8) == 14 + 3 * Word(c);
    assert Offset(f, 10) == 18 + 3 * Word(c);
    assert Offset(f, 12) == 22 + 3 * Word(c);
  }

  /** The place of a field among the program header's: kind, offset, size and alignment. */
  function OffsetField(c: Class): nat {
    if c.Elf64? then 2 else 1
  }

  function SizeField(c: Class): nat {
    if c.Elf64? then 5 else 4
  }

  lemma {:induction false} ProgramOffsets(c: Class, p: ProgramHeader)
    ensures var f := ProgramFields(c, p);
            && |f| == 8 && f[OffsetField(c)] == Field(Word(c), p.offset) && f[SizeField(c)] == Field(Word(c), p.filesz)
            && f[7] == Field(Word(c), p.alignment) && f[0] == Field(4, p.kind)
    ensures var f, elf64 := ProgramFields(c, p), c.Elf64?;
            && Offset(f, 0) == 0 && Offset(f, OffsetField(c)) == (if elf64 then 8 else 4)
            && Offset(f, SizeField(c)) == (if elf64 then 32 else 16) && Offset(f, 7) == (if elf64 then 48 else 28)
            && Offset(f, 8) == (if elf64 then 56 else 32)
  {
    var f := ProgramFields(c, p);
    assert Offset(f, 1) == 4;
    assert Offset(f, 2) == 8;
    assert Offset(f, 4) == if c.Elf64? then 24 else 16;
    assert Offset(f, 5) == if c.Elf64? then 32 else 20;
    assert Offset(f, 7) == if c.Elf64? then 48 else 28;
  }

  lemma {:induction false} SectionOffsets(c: Class, s: SectionHeader)
    ensures var f := SectionFields(c, s); f[7] == Field(4, s.info) && Offset(f, 7) == 12 + 4 * Word(c)
  {
    var f := SectionFields(c, s);
    assert Offset(f, 1) == 4;
    assert Offset(f, 2) == 8;
    assert Offset(f, 3) == 8 + Word(c);
    assert Offset(f, 4) == 8 + 2 * Word(c);
    assert Offset(f, 6) == 8 + 4 * Word(c);
  }

  /** Where the reader looks for fields in an image of the class. */
  function LayoutOf(c: Class): Layout {
    if c.Elf64? then ELF64 else ELF32
  }

  // ---- images --------------------------------------------------------------------------------------------------

  /** A program header with the notes of its segment, if it is one of notes. */
  datatype Segment = Segment(header: ProgramHeader, printed: Printed)

  /** The alignment of the notes of a segment. */
  function AlignmentOf(p: ProgramHeader): (a: nat)
    ensures NoteAlignment(a)
  {
    if p.alignment == 8 then 8 else 4
  }

  function NotesOf(s: Segment): Bytes {
    Serialize(s.printed.notes, AlignmentOf(s.header), s.printed.padLast)
  }

  datatype Elf = Elf(bits: Class, ident: Bytes, header: FileHeader, first: SectionHeader, segments: seq<Segment>)

  /** The program header fits in its fields, and the notes can be printed. */
  ghost predicate CanBePrinted(c: Class, s: Segment) {
    Fits(ProgramFields(c, s.header)) && AllPrintable(s.printed.notes)
  }

  /** All values fit in their fields. */
  ghost predicate FieldsFit(elf: Elf) {
    && |elf.ident| == 10 && Fits(HeaderFields(elf.bits, elf.header)) && Fits(SectionFields(elf.bits, elf.first))
    && forall s | s in elf.segments :: CanBePrinted(elf.bits, s)
  }

  /** The file header says how many program headers there are, and how far apart; from 0xffff on, the number is in the
      first section header.
   */
  predicate Numbered(elf: Elf) {
    && elf.header.phentsize >= LayoutOf(elf.bits).phdrSize
    && (elf.header.phnum == |elf.segments| < PN_XNUM
        || (elf.header.phnum == PN_XNUM && elf.first.info == |elf.segments|))
  }

  ghost predicate WellFormed(elf: Elf) {
    FieldsFit(elf) && Numbered(elf)
  }

  function HeaderBytes(elf: Elf): Bytes
    requires |elf.ident| == 10
  {
    Ident(elf.bits, elf.ident) + Print(HeaderFields(elf.bits, elf.header))
  }

  /** The place of a program header in the table. */
  function EntryPlace(elf: Elf, i: nat): nat {
    elf.header.phoff + i * elf.header.phentsize
  }

  /** The segment's program header is in the table, and its notes are where the program header says. */
  predicate HasSegment(data: Bytes, elf: Elf, i: nat)
    requires i < |elf.segments|
  {
    var s := elf.segments[i];
    && Contains(data, EntryPlace(elf, i), Print(ProgramFields(elf.bits, s.header)))
    && (s.header.kind == PT_NOTE ==> s.header.filesz == |NotesOf(s)| && Contains(data, s.header.offset, NotesOf(s)))
  }

  /** The data is an image of this file, wherever its parts are and whatever else it contains. */
  ghost predicate IsImage(data: Bytes, elf: Elf) {
    && WellFormed(elf) && Contains(data, 0, HeaderBytes(elf))
    && EntryPlace(elf, |elf.segments|) <= |data|
    && (elf.header.phnum == PN_XNUM ==>
          Contains(data, elf.header.shoff, Print(SectionFields(elf.bits, elf.first))))
    && forall i: nat | i < |elf.segments| :: HasSegment(data, elf, i)
  }

  /** The metadata records among the notes of the first n segments. */
  function Metadata(segments: seq<Segment>, n: nat): seq<Bytes>
    requires n <= |segments|
  {
    if n == 0 then []
    else
      Metadata(segments, n - 1)
      + if segments[n - 1].header.kind == PT_NOTE then MetadataOf(segments[n - 1].printed.notes) else []
  }

  // ---- the reader on images ------------------------------------------------------------------------------------

  lemma {:induction false} HeaderContained(data: Bytes, elf: Elf)
    requires |elf.ident| == 10 && Contains(data, 0, HeaderBytes(elf))
    ensures |data| >= 40 + 3 * Word(elf.bits) && Contains(data, 0, Ident(elf.bits, elf.ident))
    ensures Contains(data, 16, Print(HeaderFields(elf.bits, elf.header)))
  {
    HeaderOffsets(elf.bits, elf.header);
    var ident, rest := Ident(elf.bits, elf.ident), Print(HeaderFields(elf.bits, elf.header));
    assert (ident + rest)[..16] == ident && (ident + rest)[16..] == rest;
    SliceOfSlice(data, 0, |ident + rest|, 0, 16);
    SliceOfSlice(data, 0, |ident + rest|, 16, |ident + rest|);
  }

  /** The reader recognizes the class. */
  lemma {:induction false} Identified(data: Bytes, elf: Elf)
    requires |elf.ident| == 10 && Contains(data, 0, Ident(elf.bits, elf.ident))
    ensures Recognized(data, elf.bits)
  {
    var ident := Ident(elf.bits, elf.ident);
    assert data[..4] == data[0..16][..4] == ident[..4] == MAGIC;
    assert data[4] == data[0..16][4] && data[5] == data[0..16][5];
  }

  /** What the reader finds in a file header. */
  predicate HeaderFound(data: Bytes, c: Class, h: FileHeader) {
    var l := LayoutOf(c);
    && |data| >= l.headerSize
    && Number(data, l.phoffAt, l.word) == h.phoff && Number(data, l.shoffAt, l.word) == h.shoff
    && Number(data, l.phentsizeAt, 2) == h.phentsize && Number(data, l.phnumAt, 2) == h.phnum
  }

  /** The fields of a file header are where the reader looks for them. */
  predicate HeaderPlaced(c: Class, h: FileHeader, f: seq<Field>) {
    var w := Word(c);
    && |f| == 13 && f[4] == Field(w, h.phoff) && f[5] == Field(w, h.shoff) && f[8] == Field(2, h.phentsize)
    && f[9] == Field(2, h.phnum)
    && Offset(f, 4) == 8 + w && Offset(f, 5) == 8 + 2 * w && Offset(f, 8) == 14 + 3 * w
    && Offset(f, 9) == 16 + 3 * w && Offset(f, 13) == 24 + 3 * w
  }

  /** The reader finds the fields of the file header. */
  lemma {:induction false} HeaderRead(data: Bytes, c: Class, h: FileHeader, f: seq<Field>)
    requires HeaderPlaced(c, h, f) && Fits(f) && Contains(data, 16, Print(f))
    ensures HeaderFound(data, c, h)
  {
    FieldAt(data, 16, f, 4);
    FieldAt(data, 16, f, 5);
    FieldAt(data, 16, f, 8);
    FieldAt(data, 16, f, 9);
  }

  lemma {:induction false} HeaderStands(data: Bytes, elf: Elf)
    requires |elf.ident| == 10 && Fits(HeaderFields(elf.bits, elf.header)) && Contains(data, 0, HeaderBytes(elf))
    ensures Recognized(data, elf.bits) && HeaderFound(data, elf.bits, elf.header)
  {
    HeaderContained(data, elf);
    Identified(data, elf);
    HeaderOffsets(elf.bits, elf.header);
    HeaderRead(data, elf.bits, elf.header, HeaderFields(elf.bits, elf.header));
  }

  /** The reader finds the number of program headers that does not fit in the file header. */
  lemma {:induction false} InfoRead(data: Bytes, elf: Elf)
    requires WellFormed(elf) && Contains(data, elf.header.shoff, Print(SectionFields(elf.bits, elf.first)))
    ensures elf.header.shoff + LayoutOf(elf.bits).infoAt + 4 <= |data|
    ensures Number(data, elf.header.shoff + LayoutOf(elf.bits).infoAt, 4) == elf.first.info
  {
    SectionOffsets(elf.bits, elf.first);
    SectionRead(data, elf.header.shoff, elf.bits, elf.first, SectionFields(elf.bits, elf.first));
  }

  lemma {:induction false} SectionRead(data: Bytes, at: nat, c: Class, s: SectionHeader, f: seq<Field>)
    requires |f| == 10 && f[7] == Field(4, s.info) && Offset(f, 7) == LayoutOf(c).infoAt
    requires Fits(f) && Contains(data, at, Print(f))
    ensures at + LayoutOf(c).infoAt + 4 <= |data| && Number(data, at + LayoutOf(c).infoAt, 4) == s.info
  {
    FieldAt(data, at, f, 7);
  }

  /** The data begins like an image of the class. */
  predicate Recognized(data: Bytes, c: Class) {
    |data| >= 16 && data[..4] == MAGIC && data[5] == 1 && data[4] == if c.Elf64? then 2 else 1
  }

  /** The table the reader finds behind a file header, n being the number in the first section header. */
  lemma {:induction false} TableFound(data: Bytes, c: Class, h: FileHeader, n: nat)
    requires Recognized(data, c) && HeaderFound(data, c, h) && h.phnum != 0
    requires h.phnum == PN_XNUM && h.shoff + LayoutOf(c).infoAt + 4 <= |data| ==>
      Number(data, h.shoff + LayoutOf(c).infoAt, 4) == n
    ensures var l, phnum := LayoutOf(c), if h.phnum == PN_XNUM then n else h.phnum;
            ProgramHeaders(data)
            == if (h.phnum == PN_XNUM && h.shoff + l.infoAt + 4 > |data|)
                  || h.phentsize < l.phdrSize || h.phoff + phnum * h.phentsize > |data| then BadTable
               else Table(l, h.phoff, h.phentsize, phnum)
  {
  }

  /** The reader finds the table of program headers; without entries there is none to look at. */
  lemma {:induction false} TableRead(data: Bytes, elf: Elf)
    requires IsImage(data, elf)
    ensures var h := elf.header;
            ProgramHeaders(data) == if h.phnum == 0 then NoTable
                                    else Table(LayoutOf(elf.bits), h.phoff, h.phentsize, |elf.segments|)
  {
    HeaderStands(data, elf);
    if elf.header.phnum == PN_XNUM { InfoRead(data, elf); }
    if elf.header.phnum != 0 { TableFound(data, elf.bits, elf.header, |elf.segments|); }
  }

  /** The reader finds the fields of a program header. */
  lemma {:induction false} ProgramRead(data: Bytes, at: nat, c: Class, p: ProgramHeader)
    requires Contains(data, at, Print(ProgramFields(c, p))) && Fits(ProgramFields(c, p))
    ensures var l := LayoutOf(c);
            && at + l.phdrSize <= |data| && Number(data, at, 4) == p.kind
            && Number(data, at + l.offsetAt, l.word) == p.offset && Number(data, at + l.sizeAt, l.word) == p.filesz
            && Number(data, at + l.alignAt, l.word) == p.alignment
  {
    var f := ProgramFields(c, p);
    ProgramOffsets(c, p);
    FieldAt(data, at, f, 0);
    FieldAt(data, at, f, OffsetField(c));
    FieldAt(data, at, f, SizeField(c));
    FieldAt(data, at, f, 7);
  }

  /** The table of the file's program headers. */
  predicate IsTable(data: Bytes, elf: Elf, t: Table) {
    && t == Table(LayoutOf(elf.bits), elf.header.phoff, elf.header.phentsize, |elf.segments|)
    && TableOf(data, t)
  }

  lemma {:induction false} EntryRead(data: Bytes, elf: Elf, t: Table, i: nat)
    requires IsTable(data, elf, t) && i < |elf.segments| && HasSegment(data, elf, i)
    requires Fits(ProgramFields(elf.bits, elf.segments[i].header))
    ensures var p := elf.segments[i].header;
            EntryAt(data, t, i) == Entry(p.kind == PT_NOTE, p.offset, p.filesz, AlignmentOf(p))
  {
    ProgramRead(data, EntryPlace(elf, i), elf.bits, elf.segments[i].header);
  }

  /** Every segment is in the table, and can be read. */
  ghost predicate AllThere(data: Bytes, elf: Elf) {
    forall i: nat | i < |elf.segments| ::
      HasSegment(data, elf, i) && CanBePrinted(elf.bits, elf.segments[i])
  }

  lemma {:induction false} ImageHasAll(data: Bytes, elf: Elf)
    requires IsImage(data, elf)
    ensures AllThere(data, elf)
  {
    forall i: nat | i < |elf.segments|
      ensures CanBePrinted(elf.bits, elf.segments[i])
    {
      assert elf.segments[i] in elf.segments;
    }
  }

  lemma {:induction false} EntryThere(data: Bytes, elf: Elf, t: Table, i: nat)
    requires IsTable(data, elf, t) && AllThere(data, elf) && i < |elf.segments|
    ensures var p := elf.segments[i].header;
            EntryAt(data, t, i) == Entry(p.kind == PT_NOTE, p.offset, p.filesz, AlignmentOf(p))
  {
    assert HasSegment(data, elf, i);
    EntryRead(data, elf, t, i);
  }

  function PrintedOf(segments: seq<Segment>): (printed: seq<Printed>)
    ensures |printed| == |segments| && forall i | 0 <= i < |segments| :: printed[i] == segments[i].printed
  {
    seq(|segments|, i requires 0 <= i < |segments| => segments[i].printed)
  }

  lemma {:induction false} SegmentsArePrinted(data: Bytes, elf: Elf, t: Table)
    requires IsTable(data, elf, t) && AllThere(data, elf)
    ensures AllPrinted(data, t, PrintedOf(elf.segments))
  {
    forall i | 0 <= i < t.phnum && EntryAt(data, t, i).isNote
      ensures var e := EntryAt(data, t, i);
              && AllPrintable(elf.segments[i].printed.notes) && e.offset + e.size <= |data|
              && data[e.offset..e.offset + e.size] == NotesOf(elf.segments[i])
              && e.alignment == AlignmentOf(elf.segments[i].header)
    {
      assert HasSegment(data, elf, i);
      EntryRead(data, elf, t, i);
    }
  }

  /** The table and the file agree on which segments hold notes. */
  predicate NotesAgree(data: Bytes, t: Table, segments: seq<Segment>) {
    && TableOf(data, t) && t.phnum == |segments|
    && forall i: nat | i < |segments| :: EntryAt(data, t, i).isNote <==> segments[i].header.kind == PT_NOTE
  }

  lemma {:induction false} MetadataRead(data: Bytes, t: Table, segments: seq<Segment>, n: nat)
    requires NotesAgree(data, t, segments) && n <= |segments|
    ensures PrintedMetadata(data, t, PrintedOf(segments), n) == Metadata(segments, n)
  {
    if n > 0 { MetadataRead(data, t, segments, n - 1); }
  }

  lemma {:induction false} TableAgrees(data: Bytes, elf: Elf, t: Table)
    requires IsTable(data, elf, t) && AllThere(data, elf)
    ensures NotesAgree(data, t, elf.segments)
  {
    forall i: nat | i < |elf.segments|
      ensures EntryAt(data, t, i).isNote <==> elf.segments[i].header.kind == PT_NOTE
    {
      EntryThere(data, elf, t, i);
    }
  }

  /** From every image of a file, of either class, the reader gets the one metadata record among its notes, nothing if
      there is none, and an error if there are several.
   */
  lemma {:induction false} ImageIsRead(data: Bytes, elf: Elf)
    requires IsImage(data, elf)
    ensures ModuleInfo(data) == Single(Metadata(elf.segments, |elf.segments|))
  {
    TableRead(data, elf);
    if elf.header.phnum != 0 {
      var t := ProgramHeaders(data);
      ImageHasAll(data, elf);
      SegmentsArePrinted(data, elf, t);
      ReaderInvertsPrinter(data, PrintedOf(elf.segments));
      TableAgrees(data, elf, t);
      MetadataRead(data, t, elf.segments, |elf.segments|);
    }
  }

  // ---- truncated images ----------------------------------------------------------------------------------------

  lemma {:induction false} NumberInPrefix(data: Bytes, k: nat, at: nat, n: nat)
    requires at + n <= k <= |data|
    ensures Number(data[..k], at, n) == Number(data, at, n)
    decreases n
  {
    if n > 0 { NumberInPrefix(data, k, at + 1, n - 1); }
  }

  lemma {:induction false} HeaderInPrefix(data: Bytes, elf: Elf, k: nat)
    requires WellFormed(elf) && Contains(data, 0, HeaderBytes(elf)) && LayoutOf(elf.bits).headerSize <= k <= |data|
    ensures HeaderFound(data[..k], elf.bits, elf.header)
  {
    var l := LayoutOf(elf.bits);
    HeaderStands(data, elf);
    NumberInPrefix(data, k, l.phoffAt, l.word);
    NumberInPrefix(data, k, l.shoffAt, l.word);
    NumberInPrefix(data, k, l.phentsizeAt, 2);
    NumberInPrefix(data, k, l.phnumAt, 2);
  }

  /** The table the reader finds in data with the file's header: nothing readable, or all of it. */
  lemma {:induction false} TableInCut(cut: Bytes, elf: Elf)
    requires Recognized(cut, elf.bits) && HeaderFound(cut, elf.bits, elf.header) && elf.segments != []
    requires elf.header.phnum == |elf.segments| || elf.header.phnum == PN_XNUM
    requires elf.header.phnum == PN_XNUM && elf.header.shoff + LayoutOf(elf.bits).infoAt + 4 <= |cut| ==>
      Number(cut, elf.header.shoff + LayoutOf(elf.bits).infoAt, 4) == |elf.segments|
    ensures
      || ProgramHeaders(cut).BadTable?
      || (EntryPlace(elf, |elf.segments|) <= |cut| && IsTable(cut, elf, ProgramHeaders(cut)))
  {
    TableFound(cut, elf.bits, elf.header, |elf.segments|);
  }

  /** The number in the first section header, if it is still there. */
  lemma {:induction false} InfoInPrefix(data: Bytes, elf: Elf, k: nat)
    requires WellFormed(elf) && Contains(data, elf.header.shoff, Print(SectionFields(elf.bits, elf.first)))
    requires k <= |data| && elf.header.shoff + LayoutOf(elf.bits).infoAt + 4 <= k
    ensures Number(data[..k], elf.header.shoff + LayoutOf(elf.bits).infoAt, 4) == elf.first.info
  {
    InfoRead(data, elf);
    NumberInPrefix(data, k, elf.header.shoff + LayoutOf(elf.bits).infoAt, 4);
  }

  /** What is left of an image's table: nothing readable, or all of it. */
  lemma {:induction false} TableInPrefix(data: Bytes, elf: Elf, k: nat)
    requires IsImage(data, elf) && elf.segments != [] && 16 <= k <= |data|
    ensures
      || ProgramHeaders(data[..k]).BadTable?
      || (EntryPlace(elf, |elf.segments|) <= k && IsTable(data[..k], elf, ProgramHeaders(data[..k])))
  {
    HeaderStands(data, elf);
    var cut := data[..k];
    assert cut[..4] == data[..4] && cut[4] == data[4] && cut[5] == data[5];
    if k >= LayoutOf(elf.bits).headerSize {
      HeaderInPrefix(data, elf, k);
      if elf.header.phnum == PN_XNUM && elf.header.shoff + LayoutOf(elf.bits).infoAt + 4 <= k {
        InfoInPrefix(data, elf, k);
      }
      TableInCut(cut, elf);
    }
  }

  /** The entry of a segment in what is left of an image. */
  lemma {:induction false} EntryInPrefix(data: Bytes, elf: Elf, k: nat, t: Table, i: nat)
    requires k <= |data| && IsTable(data[..k], elf, t) && i < |elf.segments| && HasSegment(data, elf, i)
    requires Fits(ProgramFields(elf.bits, elf.segments[i].header))
    ensures var p := elf.segments[i].header;
            EntryAt(data[..k], t, i) == Entry(p.kind == PT_NOTE, p.offset, p.filesz, AlignmentOf(p))
  {
    var l, at := LayoutOf(elf.bits), EntryPlace(elf, i);
    EntryInTable(data[..k], t, i);
    ProgramRead(data, at, elf.bits, elf.segments[i].header);
    NumberInPrefix(data, k, at, 4);
    NumberInPrefix(data, k, at + l.offsetAt, l.word);
    NumberInPrefix(data, k, at + l.sizeAt, l.word);
    NumberInPrefix(data, k, at + l.alignAt, l.word);
  }

  /** The table or the notes of segment i are not all there any more. */
  predicate CutOff(elf: Elf, k: nat, i: nat)
    requires i < |elf.segments|
  {
    var p := elf.segments[i].header;
    k < EntryPlace(elf, |elf.segments|) || (p.kind == PT_NOTE && k < p.offset + p.filesz)
  }

  lemma {:induction false} NotesCutOff(data: Bytes, elf: Elf, k: nat, t: Table, i: nat)
    requires k <= |data| && IsTable(data[..k], elf, t) && i < |elf.segments| && HasSegment(data, elf, i)
    requires Fits(ProgramFields(elf.bits, elf.segments[i].header))
    requires var p := elf.segments[i].header; p.kind == PT_NOTE && k < p.offset + p.filesz
    ensures RecordsOf(data[..k], t, t.phnum).ValueError?
  {
    EntryInPrefix(data, elf, k, t, i);
    assert EntryRecords(data[..k], EntryAt(data[..k], t, i)).ValueError?;
    ErrorStays(data[..k], t, i + 1, t.phnum);
  }

  /** An image that was cut off is an error as soon as any of its program headers or notes is lost; without its
      identification it is no image.
   */
  lemma {:induction false} TruncatedImage(data: Bytes, elf: Elf, k: nat, i: nat)
    requires IsImage(data, elf) && i < |elf.segments| && k <= |data| && CutOff(elf, k, i)
    ensures ModuleInfo(data[..k]) == if k < 16 then Ok([]) else ValueError
  {
    if k >= 16 {
      TableInPrefix(data, elf, k);
      if ProgramHeaders(data[..k]).Table? {
        ImageHasAll(data, elf);
        assert HasSegment(data, elf, i);
        NotesCutOff(data, elf, k, ProgramHeaders(data[..k]), i);
      }
    }
  }

  // ---- an image printed from its parts -------------------------------------------------------------------------

  /** A segment to be printed: its notes, or the bytes of another one; where they are is for the printer to say. */
  datatype Part = Part(header: ProgramHeader, printed: Printed, bytes: Bytes)

  function Body(p: Part): Bytes {
    if p.header.kind == PT_NOTE then Serialize(p.printed.notes, AlignmentOf(p.header), p.printed.padLast) else p.bytes
  }

  function Bodies(parts: seq<Part>): Bytes {
    if parts == [] then [] else Bodies(parts[..|parts| - 1]) + Body(parts[|parts| - 1])
  }

  /** A segment whose body is put behind those before it. */
  function Placed(parts: seq<Part>, start: nat, i: nat): Segment
    requires i < |parts|
  {
    Segment(parts[i].header.(offset := start + |Bodies(parts[..i])|, filesz := |Body(parts[i])|), parts[i].printed)
  }

  function Segments(parts: seq<Part>, start: nat): (segments: seq<Segment>)
    ensures |segments| == |parts| && forall i | 0 <= i < |parts| :: segments[i] == Placed(parts, start, i)
  {
    seq(|parts|, i requires 0 <= i < |parts| => Placed(parts, start, i))
  }

  predicate IsPlaced(segments: seq<Segment>, parts: seq<Part>, start: nat, i: nat) {
    i < |segments| && i < |parts| && segments[i] == Placed(parts, start, i)
  }

  predicate AllPlaced(segments: seq<Segment>, parts: seq<Part>, start: nat) {
    |segments| == |parts| && forall i: nat | i < |parts| :: IsPlaced(segments, parts, start, i)
  }

  /** The length of a table of n program headers. */
  function TableLength(c: Class, n: nat): nat {
    if n == 0 then 0 else TableLength(c, n - 1) + LayoutOf(c).phdrSize
  }

  lemma {:induction false} TableLengthIs(c: Class, n: nat)
    ensures TableLength(c, n) == n * LayoutOf(c).phdrSize
  {
    if n > 0 { TableLengthIs(c, n - 1); }
  }

  function ProgramTable(c: Class, segments: seq<Segment>): (table: Bytes)
    ensures |table| == TableLength(c, |segments|)
  {
    if segments == [] then []
    else
      var n := |segments| - 1;
      ProgramOffsets(c, segments[n].header);
      ProgramTable(c, segments[..n]) + Print(ProgramFields(c, segments[n].header))
  }

  /** A piece stays a piece. */
  lemma {:induction false} ContainedInMiddle(before: Bytes, middle: Bytes, after: Bytes, at: nat, piece: Bytes)
    requires Contains(middle, at, piece)
    ensures Contains(before + middle + after, |before| + at, piece)
  {
    var data := before + middle + after;
    assert data[|before|..|before| + |middle|] == middle;
    SliceOfSlice(data, |before|, |before| + |middle|, at, at + |piece|);
  }

  lemma {:induction false} ContainedInFront(front: Bytes, last: Bytes, at: nat, piece: Bytes)
    requires Contains(front, at, piece)
    ensures Contains(front + last, at, piece)
  {
    ContainedInMiddle([], front, last, at, piece);
    assert [] + front + last == front + last;
  }

  lemma {:induction false} ContainedAtEnd(front: Bytes, last: Bytes)
    ensures Contains(front + last, |front|, last)
  {
  }

  lemma {:induction false} TableContains(c: Class, segments: seq<Segment>, i: nat)
    requires i < |segments|
    ensures Contains(ProgramTable(c, segments), TableLength(c, i), Print(ProgramFields(c, segments[i].header)))
    decreases |segments|
  {
    var n := |segments| - 1;
    var front, last := ProgramTable(c, segments[..n]), Print(ProgramFields(c, segments[n].header));
    if i == n {
      ContainedAtEnd(front, last);
    } else {
      TableContains(c, segments[..n], i);
      ContainedInFront(front, last, TableLength(c, i), Print(ProgramFields(c, segments[i].header)));
    }
  }

  lemma {:induction false} BodiesContain(parts: seq<Part>, i: nat)
    requires i < |parts|
    ensures Contains(Bodies(parts), |Bodies(parts[..i])|, Body(parts[i]))
    decreases |parts|
  {
    var n := |parts| - 1;
    var front, last := Bodies(parts[..n]), Body(parts[n]);
    if i == n {
      ContainedAtEnd(front, last);
    } else {
      assert parts[..n][..i] == parts[..i];
      BodiesContain(parts[..n], i);
      ContainedInFront(front, last, |Bodies(parts[..i])|, Body(parts[i]));
    }
  }

  lemma {:induction false} HeaderLengths(c: Class, ident: Bytes, h: FileHeader, first: SectionHeader)
    requires |ident| == 10
    ensures |Ident(c, ident) + Print(HeaderFields(c, h))| == LayoutOf(c).headerSize
    ensures |Print(SectionFields(c, first))| == 16 + 6 * Word(c)
  {
    HeaderOffsets(c, h);
    SectionOffsets(c, first);
    var f := SectionFields(c, first);
    assert Offset(f, 8) == 16 + 4 * Word(c);
    assert Offset(f, 9) == 16 + 5 * Word(c);
  }

  /** The pieces of the file are in the data. */
  predicate Laid(data: Bytes, elf: Elf, parts: seq<Part>, start: nat)
    requires |elf.ident| == 10
  {
    && AllPlaced(elf.segments, parts, start) && elf.header.phentsize == LayoutOf(elf.bits).phdrSize
    && start == elf.header.phoff + TableLength(elf.bits, |parts|)
    && Contains(data, 0, HeaderBytes(elf))
    && Contains(data, elf.header.shoff, Print(SectionFields(elf.bits, elf.first)))
    && Contains(data, elf.header.phoff, ProgramTable(elf.bits, elf.segments)) && Contains(data, start, Bodies(parts))
  }

  lemma {:induction false} PiecesInOrder(a: Bytes, b: Bytes, c: Bytes, d: Bytes)
    ensures Contains(a + b + c + d, 0, a) && Contains(a + b + c + d, |a|, b)
    ensures Contains(a + b + c + d, |a| + |b|, c) && Contains(a + b + c + d, |a| + |b| + |c|, d)
  {
    var data := a + b + c + d;
    assert data[0..|a|] == a && data[|a|..|a| + |b|] == b && data[|a| + |b|..|a| + |b| + |c|] == c;
    assert data[|a| + |b| + |c|..|data|] == d;
  }

  lemma {:induction false} ContainedTwice(data: Bytes, at: nat, middle: Bytes, i: nat, piece: Bytes)
    requires Contains(data, at, middle) && Contains(middle, i, piece)
    ensures Contains(data, at + i, piece)
  {
    SliceOfSlice(data, at, at + |middle|, i, i + |piece|);
  }

  /** The program header of a segment is in the table. */
  lemma {:induction false} ProgramPlaced(data: Bytes, c: Class, phoff: nat, segments: seq<Segment>, i: nat)
    requires i < |segments| && Contains(data, phoff, ProgramTable(c, segments))
    ensures Contains(data, phoff + i * LayoutOf(c).phdrSize, Print(ProgramFields(c, segments[i].header)))
  {
    TableContains(c, segments, i);
    TableLengthIs(c, i);
    ContainedTwice(data, phoff, ProgramTable(c, segments), TableLength(c, i),
                   Print(ProgramFields(c, segments[i].header)));
  }

  /** The body of a segment is where its program header says. */
  lemma {:induction false} BodyPlaced(data: Bytes, parts: seq<Part>, start: nat, i: nat)
    requires i < |parts| && Contains(data, start, Bodies(parts))
    ensures var p := Placed(parts, start, i).header;
            p.filesz == |Body(parts[i])| && Contains(data, p.offset, Body(parts[i]))
  {
    BodiesContain(parts, i);
    ContainedTwice(data, start, Bodies(parts), |Bodies(parts[..i])|, Body(parts[i]));
  }

  lemma {:induction false} SegmentPlaced(data: Bytes, elf: Elf, parts: seq<Part>, start: nat, i: nat)
    requires i < |parts| == |elf.segments| && elf.segments[i] == Placed(parts, start, i)
    requires elf.header.phentsize == LayoutOf(elf.bits).phdrSize
    requires Contains(data, EntryPlace(elf, i), Print(ProgramFields(elf.bits, elf.segments[i].header)))
    requires var p := Placed(parts, start, i).header;
             p.filesz == |Body(parts[i])| && Contains(data, p.offset, Body(parts[i]))
    ensures HasSegment(data, elf, i)
  {
  }

  lemma {:induction false} SegmentsPlaced(data: Bytes, elf: Elf, parts: seq<Part>, start: nat)
    requires AllPlaced(elf.segments, parts, start) && elf.header.phentsize == LayoutOf(elf.bits).phdrSize
    requires Contains(data, elf.header.phoff, ProgramTable(elf.bits, elf.segments))
    requires Contains(data, start, Bodies(parts))
    ensures forall i: nat | i < |elf.segments| :: HasSegment(data, elf, i)
  {
    forall i: nat | i < |elf.segments|
      ensures HasSegment(data, elf, i)
    {
      ProgramPlaced(data, elf.bits, elf.header.phoff, elf.segments, i);
      BodyPlaced(data, parts, start, i);
      assert IsPlaced(elf.segments, parts, start, i);
      SegmentPlaced(data, elf, parts, start, i);
    }
  }

  /** What was put together is an image, and is read as one. */
  lemma {:induction false} LaidIsRead(data: Bytes, elf: Elf, parts: seq<Part>, start: nat)
    requires WellFormed(elf)
    ensures Laid(data, elf, parts, start) ==>
      IsImage(data, elf) && ModuleInfo(data) == Single(Metadata(elf.segments, |elf.segments|))
  {
    if Laid(data, elf, parts, start) {
      SegmentsPlaced(data, elf, parts, start);
      TableLengthIs(elf.bits, |parts|);
      ImageIsRead(data, elf);
    }
  }

  /** The metadata records among the notes that were printed. */
  function MetadataOfParts(parts: seq<Part>): seq<Bytes> {
    if parts == [] then []
    else
      var p := parts[|parts| - 1];
      MetadataOfParts(parts[..|parts| - 1]) + if p.header.kind == PT_NOTE then MetadataOf(p.printed.notes) else []
  }

  lemma {:induction false} MetadataPrinted(segments: seq<Segment>, parts: seq<Part>, start: nat, n: nat)
    requires AllPlaced(segments, parts, start) && n <= |parts|
    ensures Metadata(segments, n) == MetadataOfParts(parts[..n])
    decreases n
  {
    if n > 0 {
      MetadataPrinted(segments, parts, start, n - 1);
      assert IsPlaced(segments, parts, start, n - 1) && parts[..n][..n - 1] == parts[..n - 1];
    }
  }

  /** The header fields the printer does not choose are those it was given. */
  predicate SameFile(a: Elf, b: Elf) {
    && a.bits == b.bits && a.ident == b.ident
    && a.header == b.header.(phoff := a.header.phoff, shoff := a.header.shoff, phentsize := a.header.phentsize,
                             phnum := a.header.phnum)
    && a.first == b.first.(info := a.first.info)
  }

  /** Puts the parts of a file one after the other: the file header, the first section header, the program headers, and
      the segments.
   */
  function Arranged(file: Elf, parts: seq<Part>): (elf: Elf)
    ensures SameFile(elf, file) && Numbered(elf)
    ensures elf.header.shoff == LayoutOf(file.bits).headerSize
    ensures elf.header.phoff == elf.header.shoff + 16 + 6 * Word(file.bits)
    ensures elf.header.phentsize == LayoutOf(elf.bits).phdrSize
    ensures AllPlaced(elf.segments, parts, elf.header.phoff + TableLength(elf.bits, |parts|))
  {
    var n, shoff := |parts|, LayoutOf(file.bits).headerSize;
    var phoff := shoff + 16 + 6 * Word(file.bits);
    Elf(file.bits, file.ident,
        file.header.(phoff := phoff, shoff := shoff, phentsize := LayoutOf(file.bits).phdrSize,
                     phnum := if n < PN_XNUM then n else PN_XNUM),
        file.first.(info := n), Segments(parts, phoff + TableLength(file.bits, n)))
  }

  /** The printer of whole images, of both classes and with any number of program headers. */
  method PrintImage(file: Elf, parts: seq<Part>) returns (data: Bytes, elf: Elf)
    requires |file.ident| == 10
    ensures SameFile(elf, file) && Numbered(elf)
    ensures Laid(data, elf, parts, elf.header.phoff + TableLength(elf.bits, |parts|))
  {
    elf := Arranged(file, parts);
    HeaderLengths(elf.bits, elf.ident, elf.header, elf.first);
    PiecesInOrder(HeaderBytes(elf), Print(SectionFields(elf.bits, elf.first)), ProgramTable(elf.bits, elf.segments),
                  Bodies(parts));
    data := HeaderBytes(elf) + Print(SectionFields(elf.bits, elf.first)) + ProgramTable(elf.bits, elf.segments)
            + Bodies(parts);
  }

  lemma {:induction false} AllMetadata(segments: seq<Segment>, parts: seq<Part>, start: nat)
    requires AllPlaced(segments, parts, start)
    ensures Metadata(segments, |segments|) == MetadataOfParts(parts)
  {
    MetadataPrinted(segments, parts, start, |parts|);
    assert parts[..|parts|] == parts;
  }

  method ReadLaid(data: Bytes, ghost elf: Elf, ghost parts: seq<Part>, ghost start: nat) returns (r: Result<Bytes>)
    ensures WellFormed(elf) && Laid(data, elf, parts, start) ==> r == Single(MetadataOfParts(parts))
  {
    if WellFormed(elf) && AllPlaced(elf.segments, parts, start) {
      LaidIsRead(data, elf, parts, start);
      AllMetadata(elf.segments, parts, start);
    }
    r := ReadModuleInfo(data);
  }

  /** The reader inverts the printer: if the values the printer has chosen fit in their fields, it gets the one metadata
      record among the notes that were printed, nothing if there is none, and an error if there are several.
   */
  method PrintAndRead(file: Elf, parts: seq<Part>) returns (elf: Elf, r: Result<Bytes>)
    requires |file.ident| == 10
    ensures SameFile(elf, file)
    ensures FieldsFit(elf) ==> r == Single(MetadataOfParts(parts))
  {
    var data;
    data, elf := PrintImage(file, parts);
    r := ReadLaid(data, elf, parts, elf.header.phoff + TableLength(elf.bits, |parts|));
  }
}
