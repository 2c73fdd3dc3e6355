/** The check of AOT module metadata in packages (debian/preserve-aot-metadata.py): finding the metadata record in the
    ELF notes of a module, and comparing the records before and after an ELF editing command.
 */
module NoteWalker {
  type Byte = b: int | 0 <= b < 256

  type Bytes = seq<Byte>

  datatype Result<+T> = Ok(value: T) | ValueError

  /** b"Qore\0" */
  const NOTE_NAME: Bytes := [0x51, 0x6f, 0x72, 0x65, 0]
  const NOTE_TYPE := 0x494D4151
  const PT_NOTE := 4
  const PN_XNUM := 0xFFFF

  // ---- little-endian numbers -----------------------------------------------------------------------------------

  function Pow256(n: nat): (p: nat)
    ensures p > 0
  {
    if n == 0 then 1 else 256 * Pow256(n - 1)
  }

  /** The number in n bytes of the data. */
  function Number(data: Bytes, at: nat, n: nat): nat
    requires at + n <= |data|
    decreases |data| - at
  {
    if n == 0 then 0 else data[at] + 256 * Number(data, at + 1, n - 1)
  }

  function Encode(v: nat, n: nat): (s: Bytes)
    ensures |s| == n
  {
    if n == 0 then [] else [v % 256] + Encode(v / 256, n - 1)
  }

  lemma {:induction false} NumberEncoded(data: Bytes, at: nat, v: nat, n: nat)
    requires v < Pow256(n) && at + n <= |data| && data[at..at + n] == Encode(v, n)
    ensures Number(data, at, n) == v
    decreases n
  {
    if n > 0 {
      var rest := Encode(v / 256, n - 1);
      assert Encode(v, n) == [v % 256] + rest;
      assert data[at] == data[at..at + n][0];
      assert data[at + 1..at + n] == data[at..at + n][1..] == rest;
      NumberEncoded(data, at + 1, v / 256, n - 1);
    }
  }

  // ---- the notes of a segment ----------------------------------------------------------------------------------

  /** The alignments of note segments. */
  predicate NoteAlignment(alignment: nat) {
    alignment == 4 || alignment == 8
  }

  predicate Aligned(value: nat, alignment: nat)
    requires NoteAlignment(alignment)
  {
    if alignment == 4 then value % 4 == 0 else value % 8 == 0
  }

  /** _align(): the next multiple of the alignment */
  function Align(value: nat, alignment: nat): (r: nat)
    requires NoteAlignment(alignment)
    ensures Aligned(r, alignment) && value <= r < value + alignment
  {
    if alignment == 4 then (value + 3) / 4 * 4 else (value + 7) / 8 * 8
  }

  function Min(a: nat, b: nat): nat {
    if a < b then a else b
  }

  /** A note found at a position: the record it holds, if any, and where the next note starts. */
  datatype Found = Nothing | Found(records: seq<Bytes>, next: nat)

  function NoteFound(segment: Bytes, alignment: nat, position: nat): (f: Found)
    requires NoteAlignment(alignment) && position <= |segment|
    ensures f.Found? ==> position + 12 <= f.next <= |segment|
  {
    if |segment| - position < 12 then Nothing
    else
      var nameSize, descSize := Number(segment, position, 4), Number(segment, position + 4, 4);
      var name := position + 12;
      var desc := Align(name + nameSize, alignment);
      if desc + descSize > |segment| then Nothing
      else
        var wanted := Number(segment, position + 8, 4) == NOTE_TYPE && segment[name..name + nameSize] == NOTE_NAME;
        Found(if wanted then [segment[desc..desc + descSize]] else [],
              Min(Align(desc + descSize, alignment), |segment|))
  }

  /** The records of the notes from the position on. */
  function Walk(segment: Bytes, alignment: nat, position: nat): seq<Bytes>
    requires NoteAlignment(alignment) && position <= |segment|
    decreases |segment| - position
  {
    var f := NoteFound(segment, alignment, position);
    if f.Nothing? then [] else f.records + Walk(segment, alignment, f.next)
  }

  lemma WalkOn(segment: Bytes, alignment: nat, position: nat, done: seq<Bytes>)
    requires NoteAlignment(alignment) && position <= |segment| && NoteFound(segment, alignment, position).Found?
    ensures var f := NoteFound(segment, alignment, position);
            done + Walk(segment, alignment, position) == done + f.records + Walk(segment, alignment, f.next)
  {
  }

  /** One note of the walk. */
  method ReadNote(segment: Bytes, alignment: nat, position: nat) returns (f: Found)
    requires NoteAlignment(alignment) && position + 12 <= |segment|
    ensures f == NoteFound(segment, alignment, position)
  {
    var nameSize, descSize := Number(segment, position, 4), Number(segment, position + 4, 4);
    var noteType := Number(segment, position + 8, 4);
    var name := position + 12;
    var desc := Align(name + nameSize, alignment);
    if desc + descSize > |segment| { return Nothing; }
    var records := [];
    if noteType == NOTE_TYPE && segment[name..name + nameSize] == NOTE_NAME {
      records := records + [segment[desc..desc + descSize]];
    }
    f := Found(records, Min(Align(desc + descSize, alignment), |segment|));
  }

  /** The note walk of read_module_info(); it advances by at least 12 bytes per note. */
  method WalkNotes(segment: Bytes, alignment: nat) returns (records: seq<Bytes>)
    requires NoteAlignment(alignment)
    ensures records == Walk(segment, alignment, 0)
  {
    records := [];
    var position := 0;
    while |segment| - position >= 12
      invariant position <= |segment|
      invariant records + Walk(segment, alignment, position) == Walk(segment, alignment, 0)
      decreases |segment| - position
    {
      var f := ReadNote(segment, alignment, position);
      if f.Nothing? { break; }
      WalkOn(segment, alignment, position, records);
      records := records + f.records;
      position := f.next;
    }
  }

  // ---- the printer ---------------------------------------------------------------------------------------------

  datatype Note = Note(name: Bytes, desc: Bytes, noteType: nat)

  predicate Printable(n: Note) {
    |n.name| < Pow256(4) && |n.desc| < Pow256(4) && n.noteType < Pow256(4)
  }

  function Zeros(n: nat): (s: Bytes)
    ensures |s| == n
  {
    seq(n, i => 0)
  }

  /** The padding after k bytes. */
  function Padding(k: nat, alignment: nat): Bytes
    requires NoteAlignment(alignment)
  {
    Zeros(Align(k, alignment) - k)
  }

  function Header(n: Note): (s: Bytes)
    ensures |s| == 12
  {
    Encode(|n.name|, 4) + Encode(|n.desc|, 4) + Encode(n.noteType, 4)
  }

  /** A note without the padding after its description. */
  function NoteBytes(n: Note, alignment: nat): (s: Bytes)
    requires NoteAlignment(alignment)
    ensures |s| == Align(12 + |n.name|, alignment) + |n.desc|
  {
    Header(n) + n.name + Padding(12 + |n.name|, alignment) + n.desc
  }

  function Padded(n: Note, alignment: nat): (s: Bytes)
    requires NoteAlignment(alignment)
    ensures Aligned(|s|, alignment)
  {
    NoteBytes(n, alignment) + Padding(|NoteBytes(n, alignment)|, alignment)
  }

  /** A segment of notes; the last one may go without padding. */
  function Serialize(notes: seq<Note>, alignment: nat, padLast: bool): Bytes
    requires NoteAlignment(alignment)
  {
    if notes == [] then []
    else
      if |notes| == 1 && !padLast then NoteBytes(notes[0], alignment)
      else Padded(notes[0], alignment) + Serialize(notes[1..], alignment, padLast)
  }

  /** The descriptions of the notes that hold a module's metadata. */
  function MetadataOf(notes: seq<Note>): seq<Bytes> {
    if notes == [] then []
    else
      (if notes[0].noteType == NOTE_TYPE && notes[0].name == NOTE_NAME then [notes[0].desc] else [])
      + MetadataOf(notes[1..])
  }

  lemma AlignShift(position: nat, k: nat, alignment: nat)
    requires NoteAlignment(alignment) && Aligned(position, alignment)
    ensures Align(position + k, alignment) == position + Align(k, alignment)
  {
    if alignment == 4 {
      var q := position / 4;
      assert position == 4 * q;
      assert (4 * q + (k + 3)) / 4 == q + (k + 3) / 4;
    } else {
      var q := position / 8;
      assert position == 8 * q;
      assert (8 * q + (k + 7)) / 8 == q + (k + 7) / 8;
    }
  }

  /** A printed note stands at the position. */
  predicate StandsAt(s: Bytes, p: nat, n: Note, alignment: nat)
    requires NoteAlignment(alignment)
  {
    p + |NoteBytes(n, alignment)| <= |s| && s[p..p + |NoteBytes(n, alignment)|] == NoteBytes(n, alignment)
  }

  lemma SliceOfSlice(s: Bytes, p: nat, q: nat, i: nat, j: nat)
    requires p <= q <= |s| && i <= j <= q - p
    ensures s[p..q][i..j] == s[p + i..p + j]
  {
    forall k | 0 <= k < j - i
      ensures s[p..q][i..j][k] == s[p + i..p + j][k]
    {
    }
  }

  lemma HeaderAt(s: Bytes, p: nat, n: Note)
    requires Printable(n) && p + 12 <= |s| && s[p..p + 12] == Header(n)
    ensures Number(s, p, 4) == |n.name| && Number(s, p + 4, 4) == |n.desc| && Number(s, p + 8, 4) == n.noteType
  {
    var h := Header(n);
    assert h[..4] == Encode(|n.name|, 4) && h[4..8] == Encode(|n.desc|, 4) && h[8..] == Encode(n.noteType, 4);
    SliceOfSlice(s, p, p + 12, 0, 4);
    SliceOfSlice(s, p, p + 12, 4, 8);
    SliceOfSlice(s, p, p + 12, 8, 12);
    NumberEncoded(s, p, |n.name|, 4);
    NumberEncoded(s, p + 4, |n.desc|, 4);
    NumberEncoded(s, p + 8, n.noteType, 4);
  }

  /** The parts of a note where the walk looks for them. */
  lemma PartsAt(s: Bytes, p: nat, n: Note, alignment: nat)
    requires NoteAlignment(alignment) && StandsAt(s, p, n, alignment)
    ensures var d := p + Align(12 + |n.name|, alignment);
            && p + 12 + |n.name| <= d <= d + |n.desc| <= |s|
            && s[p..p + 12] == Header(n) && s[p + 12..p + 12 + |n.name|] == n.name && s[d..d + |n.desc|] == n.desc
  {
    var note := NoteBytes(n, alignment);
    var d := Align(12 + |n.name|, alignment);
    assert note[..12] == Header(n);
    assert note[12..12 + |n.name|] == n.name;
    assert note[d..] == n.desc;
    SliceOfSlice(s, p, p + |note|, 0, 12);
    SliceOfSlice(s, p, p + |note|, 12, 12 + |n.name|);
    SliceOfSlice(s, p, p + |note|, d, |note|);
  }

  lemma MetadataOfOne(n: Note)
    ensures MetadataOf([n]) == if n.noteType == NOTE_TYPE && n.name == NOTE_NAME then [n.desc] else []
  {
    assert MetadataOf([n][1..]) == [];
  }

  /** The walk finds the name of a printed note. */
  lemma NameStands(s: Bytes, p: nat, n: Note, alignment: nat)
    requires NoteAlignment(alignment) && Printable(n) && StandsAt(s, p, n, alignment)
    ensures p + 12 + |n.name| <= |s| && s[p + 12..p + 12 + |n.name|] == n.name
    ensures Number(s, p, 4) == |n.name| && Number(s, p + 4, 4) == |n.desc| && Number(s, p + 8, 4) == n.noteType
  {
    PartsAt(s, p, n, alignment);
    HeaderAt(s, p, n);
  }

  /** The walk finds the description of a printed note. */
  lemma DescStands(s: Bytes, p: nat, n: Note, alignment: nat)
    requires NoteAlignment(alignment) && Aligned(p, alignment) && StandsAt(s, p, n, alignment)
    ensures var d := Align(p + 12 + |n.name|, alignment);
            && d + |n.desc| <= |s| && s[d..d + |n.desc|] == n.desc
            && Align(d + |n.desc|, alignment) == p + Align(|NoteBytes(n, alignment)|, alignment)
  {
    PartsAt(s, p, n, alignment);
    AlignShift(p, 12 + |n.name|, alignment);
    AlignShift(p, |NoteBytes(n, alignment)|, alignment);
  }

  /** What the walk finds where a note's header, name and description stand. */
  lemma FoundWith(s: Bytes, alignment: nat, p: nat, n: Note, d: nat, next: nat)
    requires NoteAlignment(alignment) && p + 12 + |n.name| <= |s| && s[p + 12..p + 12 + |n.name|] == n.name
    requires Number(s, p, 4) == |n.name| && Number(s, p + 4, 4) == |n.desc| && Number(s, p + 8, 4) == n.noteType
    requires d == Align(p + 12 + |n.name|, alignment) && d + |n.desc| <= |s| && s[d..d + |n.desc|] == n.desc
    requires next == Align(d + |n.desc|, alignment)
    ensures NoteFound(s, alignment, p) == Found(MetadataOf([n]), Min(next, |s|))
  {
    MetadataOfOne(n);
  }

  /** What the walk finds at a printed note. */
  lemma FoundAt(s: Bytes, p: nat, n: Note, alignment: nat)
    requires NoteAlignment(alignment) && Printable(n) && Aligned(p, alignment) && StandsAt(s, p, n, alignment)
    ensures NoteFound(s, alignment, p)
            == Found(MetadataOf([n]), Min(p + Align(|NoteBytes(n, alignment)|, alignment), |s|))
  {
    NameStands(s, p, n, alignment);
    DescStands(s, p, n, alignment);
    FoundWith(s, alignment, p, n, Align(p + 12 + |n.name|, alignment),
              p + Align(|NoteBytes(n, alignment)|, alignment));
  }

  lemma WalkPast(s: Bytes, p: nat, n: Note, alignment: nat) returns (next: nat)
    requires NoteAlignment(alignment) && Printable(n) && Aligned(p, alignment) && StandsAt(s, p, n, alignment)
    ensures next == Min(p + Align(|NoteBytes(n, alignment)|, alignment), |s|)
    ensures Walk(s, alignment, p) == MetadataOf([n]) + Walk(s, alignment, next)
  {
    FoundAt(s, p, n, alignment);
    next := Min(p + Align(|NoteBytes(n, alignment)|, alignment), |s|);
  }

  lemma WalkEnds(s: Bytes, alignment: nat)
    requires NoteAlignment(alignment)
    ensures Walk(s, alignment, |s|) == []
  {
  }

  lemma MetadataSplit(notes: seq<Note>)
    requires notes != []
    ensures MetadataOf(notes) == MetadataOf([notes[0]]) + MetadataOf(notes[1..])
  {
    MetadataOfOne(notes[0]);
  }

  /** The notes are what the segment holds from the position on. */
  predicate Holds(s: Bytes, p: nat, notes: seq<Note>, alignment: nat, padLast: bool)
    requires NoteAlignment(alignment)
  {
    p <= |s| && s[p..] == Serialize(notes, alignment, padLast) && (Aligned(p, alignment) || notes == [])
  }

  lemma FirstStands(s: Bytes, p: nat, notes: seq<Note>, alignment: nat, padLast: bool)
    requires NoteAlignment(alignment) && notes != [] && Holds(s, p, notes, alignment, padLast)
    ensures StandsAt(s, p, notes[0], alignment)
  {
    var note := NoteBytes(notes[0], alignment);
    assert s[p..][..|note|] == note;
    assert s[p..p + |note|] == s[p..][..|note|];
  }

  lemma RestFollows(s: Bytes, p: nat, notes: seq<Note>, alignment: nat, padLast: bool, next: nat)
    requires NoteAlignment(alignment) && notes != [] && Holds(s, p, notes, alignment, padLast)
    requires next == Min(p + Align(|NoteBytes(notes[0], alignment)|, alignment), |s|)
    ensures Holds(s, next, notes[1..], alignment, padLast)
  {
    var note := NoteBytes(notes[0], alignment);
    if |notes| == 1 && !padLast {
      assert |s| == p + |note|;
    } else {
      var padded := Padded(notes[0], alignment);
      AlignShift(p, |note|, alignment);
      assert s[p..][|padded|..] == Serialize(notes[1..], alignment, padLast);
      assert s[p + |padded|..] == s[p..][|padded|..];
    }
  }

  ghost predicate AllPrintable(notes: seq<Note>) {
    forall n | n in notes :: Printable(n)
  }

  lemma TailPrintable(notes: seq<Note>)
    requires AllPrintable(notes) && notes != []
    ensures Printable(notes[0]) && AllPrintable(notes[1..])
  {
    assert notes[0] in notes;
  }

  /** Walking printed notes returns the metadata among them, wherever in a segment they stand. */
  lemma {:induction false} WalkSerialized(s: Bytes, p: nat, notes: seq<Note>, alignment: nat, padLast: bool)
    requires NoteAlignment(alignment) && Holds(s, p, notes, alignment, padLast) && AllPrintable(notes)
    ensures Walk(s, alignment, p) == MetadataOf(notes)
    decreases |notes|
  {
    if notes == [] {
      assert p == |s| by { assert |s[p..]| == 0; }
      WalkEnds(s, alignment);
    } else {
      TailPrintable(notes);
      FirstStands(s, p, notes, alignment, padLast);
      var next := WalkPast(s, p, notes[0], alignment);
      RestFollows(s, p, notes, alignment, padLast, next);
      WalkSerialized(s, next, notes[1..], alignment, padLast);
      MetadataSplit(notes);
    }
  }

  // ---- the program headers of an ELF image ---------------------------------------------------------------------

  /** Where the fields are in a 32-bit and a 64-bit image; word is the size of an offset. */
  datatype Layout = Layout(
    word: nat, headerSize: nat, phoffAt: nat, shoffAt: nat, phentsizeAt: nat, phnumAt: nat, infoAt: nat,
    phdrSize: nat, offsetAt: nat, sizeAt: nat, alignAt: nat)

  const ELF32 := Layout(4, 52, 28, 32, 42, 44, 28, 32, 4, 16, 28)
  const ELF64 := Layout(8, 64, 32, 40, 54, 56, 44, 56, 8, 32, 48)

  const MAGIC: Bytes := [0x7f, 0x45, 0x4c, 0x46]

  /** The program headers: none to look at, not readable, or a table that lies inside the data. */
  datatype Table = NoTable | BadTable | Table(layout: Layout, phoff: nat, phentsize: nat, phnum: nat)

  function ProgramHeaders(data: Bytes): (t: Table)
    ensures t.Table? ==> (t.layout == ELF32 || t.layout == ELF64) && t.layout.phdrSize <= t.phentsize
                         && t.phoff + t.phnum * t.phentsize <= |data|
  {
    if |data| < 16 || data[..4] != MAGIC || data[5] != 1 || (data[4] != 1 && data[4] != 2) then NoTable
    else
      var l := if data[4] == 2 then ELF64 else ELF32;
      if |data| < l.headerSize then BadTable
      else
        var phoff, shoff := Number(data, l.phoffAt, l.word), Number(data, l.shoffAt, l.word);
        var phentsize, number := Number(data, l.phentsizeAt, 2), Number(data, l.phnumAt, 2);
        if number == 0 then NoTable
        else if number == PN_XNUM && shoff + l.infoAt + 4 > |data| then BadTable
        else
          var phnum := if number == PN_XNUM then Number(data, shoff + l.infoAt, 4) else number;
          if phentsize < l.phdrSize || phoff + phnum * phentsize > |data| then BadTable
          else Table(l, phoff, phentsize, phnum)
  }

  predicate TableOf(data: Bytes, t: Table) {
    && t.Table? && (t.layout == ELF32 || t.layout == ELF64) && t.layout.phdrSize <= t.phentsize
    && t.phoff + t.phnum * t.phentsize <= |data|
  }

  lemma EntryInTable(data: Bytes, t: Table, index: nat)
    requires TableOf(data, t) && index < t.phnum
    ensures t.phoff + index * t.phentsize + t.layout.phdrSize <= |data|
  {
    var behind := t.phnum - index - 1;
    assert t.phnum * t.phentsize == index * t.phentsize + t.phentsize + behind * t.phentsize;
    assert behind * t.phentsize >= 0;
  }

  /** An entry of the table. */
  datatype Entry = Entry(isNote: bool, offset: nat, size: nat, alignment: nat)

  function EntryAt(data: Bytes, t: Table, index: nat): (e: Entry)
    requires TableOf(data, t) && index < t.phnum
    ensures NoteAlignment(e.alignment)
  {
    EntryInTable(data, t, index);
    var at, l := t.phoff + index * t.phentsize, t.layout;
    Entry(Number(data, at, 4) == PT_NOTE, Number(data, at + l.offsetAt, l.word), Number(data, at + l.sizeAt, l.word),
          if Number(data, at + l.alignAt, l.word) == 8 then 8 else 4)
  }

  /** The records of an entry: none unless it is a note segment, which has to lie inside the data. */
  function EntryRecords(data: Bytes, e: Entry): Result<seq<Bytes>>
    requires NoteAlignment(e.alignment)
  {
    if !e.isNote then Ok([])
    else if e.offset + e.size > |data| then ValueError
    else Ok(Walk(data[e.offset..e.offset + e.size], e.alignment, 0))
  }

  function Join(a: Result<seq<Bytes>>, b: Result<seq<Bytes>>): Result<seq<Bytes>> {
    if a.Ok? && b.Ok? then Ok(a.value + b.value) else ValueError
  }

  /** The records of the first n entries; ValueError if one of them is not inside the data. */
  function RecordsOf(data: Bytes, t: Table, n: nat): Result<seq<Bytes>>
    requires TableOf(data, t) && n <= t.phnum
  {
    if n == 0 then Ok([]) else Join(RecordsOf(data, t, n - 1), EntryRecords(data, EntryAt(data, t, n - 1)))
  }

  lemma {:induction false} ErrorStays(data: Bytes, t: Table, n: nat, m: nat)
    requires TableOf(data, t) && n <= m <= t.phnum && RecordsOf(data, t, n).ValueError?
    ensures RecordsOf(data, t, m).ValueError?
    decreases m - n
  {
    if n < m {
      ErrorStays(data, t, n, m - 1);
    }
  }

  /** The one record there may be. */
  function Single(records: seq<Bytes>): Result<Bytes> {
    if |records| > 1 then ValueError else if |records| == 1 then Ok(records[0]) else Ok([])
  }

  function ModuleInfo(data: Bytes): Result<Bytes> {
    match ProgramHeaders(data)
    case NoTable => Ok([])
    case BadTable => ValueError
    case Table(l, phoff, phentsize, phnum) =>
      var records := RecordsOf(data, Table(l, phoff, phentsize, phnum), phnum);
      if records.ValueError? then ValueError else Single(records.value)
  }

  /** The first part of read_module_info(): the header and the place of the program headers. */
  method FindProgramHeaders(data: Bytes) returns (t: Table)
    ensures t == ProgramHeaders(data)
  {
    if |data| < 16 || data[..4] != MAGIC || data[5] != 1 || (data[4] != 1 && data[4] != 2) { return NoTable; }
    var l := if data[4] == 2 then ELF64 else ELF32;
    if |data| < l.headerSize { return BadTable; }
    var phoff, shoff := Number(data, l.phoffAt, l.word), Number(data, l.shoffAt, l.word);
    var phentsize, phnum := Number(data, l.phentsizeAt, 2), Number(data, l.phnumAt, 2);
    if phnum == 0 { return NoTable; }
    if phnum == PN_XNUM {
      var infoOffset := shoff + l.infoAt;
      if infoOffset + 4 > |data| { return BadTable; }
      phnum := Number(data, infoOffset, 4);
    }
    if phentsize < l.phdrSize || phoff + phnum * phentsize > |data| { return BadTable; }
    t := Table(l, phoff, phentsize, phnum);
  }

  /** One program header. */
  method ReadEntry(data: Bytes, e: Entry) returns (r: Result<seq<Bytes>>)
    requires NoteAlignment(e.alignment)
    ensures r == EntryRecords(data, e)
  {
    if !e.isNote { return Ok([]); }
    if e.offset + e.size > |data| { return ValueError; }
    var found := WalkNotes(data[e.offset..e.offset + e.size], e.alignment);
    r := Ok(found);
  }

  /** The loop of read_module_info() over the program headers. */
  method ReadRecords(data: Bytes, t: Table) returns (r: Result<seq<Bytes>>)
    requires TableOf(data, t)
    ensures r == RecordsOf(data, t, t.phnum)
  {
    var records := [];
    for index := 0 to t.phnum
      invariant RecordsOf(data, t, index) == Ok(records)
    {
      var found := ReadEntry(data, EntryAt(data, t, index));
      if found.ValueError? {
        ErrorStays(data, t, index + 1, t.phnum);
        return ValueError;
      }
      records := records + found.value;
    }
    r := Ok(records);
  }

  /** read_module_info() */
  method ReadModuleInfo(data: Bytes) returns (r: Result<Bytes>)
    ensures r == ModuleInfo(data)
  {
    var t := FindProgramHeaders(data);
    if t.NoTable? { return Ok([]); }
    if t.BadTable? { return ValueError; }
    var records := ReadRecords(data, t);
    if records.ValueError? { return ValueError; }
    if |records.value| > 1 { return ValueError; }
    r := Ok(if records.value != [] then records.value[0] else []);
  }

  /** What a note segment was printed from. */
  datatype Printed = Printed(notes: seq<Note>, padLast: bool)

  /** Every note segment of the table was printed from its notes. */
  ghost predicate AllPrinted(data: Bytes, t: Table, printed: seq<Printed>)
    requires TableOf(data, t)
  {
    && |printed| == t.phnum
    && forall i | 0 <= i < t.phnum && EntryAt(data, t, i).isNote ::
         var e := EntryAt(data, t, i);
         && AllPrintable(printed[i].notes)
         && e.offset + e.size <= |data|
         && data[e.offset..e.offset + e.size] == Serialize(printed[i].notes, e.alignment, printed[i].padLast)
  }

  /** The metadata in the note segments among the first n entries. */
  function PrintedMetadata(data: Bytes, t: Table, printed: seq<Printed>, n: nat): seq<Bytes>
    requires TableOf(data, t) && n <= t.phnum == |printed|
  {
    if n == 0 then []
    else PrintedMetadata(data, t, printed, n - 1)
         + if EntryAt(data, t, n - 1).isNote then MetadataOf(printed[n - 1].notes) else []
  }

  lemma EntryIsPrinted(data: Bytes, t: Table, printed: seq<Printed>, i: nat)
    requires TableOf(data, t) && AllPrinted(data, t, printed) && i < t.phnum
    ensures var e := EntryAt(data, t, i);
            EntryRecords(data, e) == Ok(if e.isNote then MetadataOf(printed[i].notes) else [])
  {
    var e := EntryAt(data, t, i);
    if e.isNote {
      var segment := Serialize(printed[i].notes, e.alignment, printed[i].padLast);
      assert segment[0..] == segment;
      WalkSerialized(segment, 0, printed[i].notes, e.alignment, printed[i].padLast);
    }
  }

  lemma {:induction false} RecordsArePrinted(data: Bytes, t: Table, printed: seq<Printed>, n: nat)
    requires TableOf(data, t) && AllPrinted(data, t, printed) && n <= t.phnum
    ensures RecordsOf(data, t, n) == Ok(PrintedMetadata(data, t, printed, n))
  {
    if n > 0 {
      RecordsArePrinted(data, t, printed, n - 1);
      EntryIsPrinted(data, t, printed, n - 1);
    }
  }

  /** The reader inverts the printer: from an image whose note segments were printed, whatever else it contains, it gets
      the one metadata record, nothing if there is none, and an error if there are several.
   */
  lemma ReaderInvertsPrinter(data: Bytes, printed: seq<Printed>)
    requires ProgramHeaders(data).Table? && AllPrinted(data, ProgramHeaders(data), printed)
    ensures ModuleInfo(data)
            == Single(PrintedMetadata(data, ProgramHeaders(data), printed, ProgramHeaders(data).phnum))
  {
    RecordsArePrinted(data, ProgramHeaders(data), printed, ProgramHeaders(data).phnum);
  }
}
