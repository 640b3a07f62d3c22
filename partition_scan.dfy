/** The partition-table scan of `createAndUpload`: it walks the table's lines
    in order with a running "previous end" cursor and stops at the first line
    that mentions the selected filesystem, giving the image's start address
    and size in flash. */
module PartitionScan {

  import opened Wrappers
  import opened JavaText
  import opened SizeLiteral
  import opened Filesystem

  /** The start and size texts cut out of one data line */
  datatype Fields = Fields(start: string, size: string)

  /** How the scan cuts a line: drop three comma-terminated fields (a
      `substring(indexOf(",") + 1)` each, which keeps the text whole when no
      comma is left), strip leading spaces, then read the start and size.
      None where a `substring(0, indexOf(","))` throws. */
  function CutFields(line: string): Option<Fields> {
    StartAndSize(DropSpaces(After(After(After(line, ','), ','), ',')))
  }

  /** Up to the next comma is the start; after it, past leading spaces and up
      to the following comma, is the size. */
  function StartAndSize(rest: string): Option<Fields> {
    match Before(rest, ',')
    case None => None
    case Some(start) =>
      match Before(DropSpaces(After(rest, ',')), ',')
      case None => None
      case Some(size) => Some(Fields(start, size))
  }

  /** A flash region in bytes */
  datatype Region = Region(start: int, size: int)

  /** What a line, or a run of lines, does to the scan: move on with the
      cursor, stop at the matching partition, or throw. */
  datatype Step = Next(cursor: int) | Found(region: Region) | Broken

  /** One pass of the scan loop over `line` with cursor `spiPrevEnd`. */
  function ScanLine(line: string, k: FsKind, cursor: int): (r: Step)
    ensures r.Found? ==> Contains(line, Marker(k))
  {
    if line == [] then Broken  // substring(0, 1) of an empty line throws
    else if line[0] == '#' then Next(cursor)
    else
      match CutFields(line)
      case None => Broken
      case Some(f) =>
        if Contains(line, Marker(k)) then MatchStep(f, k, cursor) else CursorStep(f, cursor)
  }

  /** The matching line: its start (the cursor when blank) and size, moved
      past the filesystem's sector offset. */
  function MatchStep(f: Fields, k: FsKind, cursor: int): Step {
    var start := if IsBlank(f.start) then Some(cursor) else ParseSize(f.start);
    var size := ParseSize(f.size);
    if start.None? || size.None? then Broken
    else Found(Region(start.value + SectorOffset(k), size.value - SectorOffset(k)))
  }

  /** Any other data line: a blank size keeps the cursor, a blank start adds
      the size to it, otherwise the line's end becomes the cursor. */
  function CursorStep(f: Fields, cursor: int): (r: Step)
    ensures !r.Found?
  {
    if IsBlank(f.size) then Next(cursor)
    else if IsBlank(f.start) then
      match ParseSize(f.size)
      case None => Broken
      case Some(z) => Next(cursor + z)
    else
      match ParseSize(f.start)
      case None => Broken
      case Some(s) =>
        match ParseSize(f.size)
        case None => Broken
        case Some(z) => Next(s + z)
  }

  /** The scan of a run of lines from a cursor: Next(c) when every line was
      consumed (c is the final cursor). */
  function Locate(lines: seq<string>, k: FsKind, cursor: int): (r: Step)
    ensures r.Found? ==> exists i :: 0 <= i < |lines| && Contains(lines[i], Marker(k))
    decreases |lines|
  {
    if lines == [] then Next(cursor)
    else
      match ScanLine(lines[0], k, cursor)
      case Next(c) => Locate(lines[1..], k, c)
      case other => other
  }

  /** A data line that names the filesystem always ends the scan: it is
      the match, or it throws. */
  lemma {:induction false} MarkerLineStops(line: string, k: FsKind, cursor: int)
    requires line != [] && line[0] != '#' && Contains(line, Marker(k))
    ensures !ScanLine(line, k, cursor).Next?
  {
  }

  /** A run of lines the scan passed over holds no data line that names the
      filesystem: no such line is ever skipped. */
  lemma {:induction false} PassedRunHasNoMarker(lines: seq<string>, k: FsKind, cursor: int)
    requires Locate(lines, k, cursor).Next?
    ensures forall i :: 0 <= i < |lines| && lines[i] != [] && lines[i][0] != '#' ==> !Contains(lines[i], Marker(k))
    decreases |lines|
  {
    if lines != [] {
      if lines[0] != [] && lines[0][0] != '#' && Contains(lines[0], Marker(k)) {
        MarkerLineStops(lines[0], k, cursor);
      }
      var c := ScanLine(lines[0], k, cursor).cursor;
      PassedRunHasNoMarker(lines[1..], k, c);
      assert forall i :: 1 <= i < |lines| ==> lines[i] == lines[1..][i - 1];
    }
  }

  /** Why a layout cannot be had: an exception inside the scan (a line that
      cannot be cut or a number that cannot be decoded), or a size of 0. */
  datatype LayoutError = TableUnreadable | SizeNotFound

  /** The layout the whole `try` block yields: the scan from cursor 0, then
      the `spiSize == 0` check. */
  function ResolveLayout(lines: seq<string>, k: FsKind): (r: Result<Region, LayoutError>)
    ensures r.Success? ==> r.value.size != 0
  {
    match Locate(lines, k, 0)
    case Broken => Failure(TableUnreadable)
    case Next(_) => Failure(SizeNotFound)
    case Found(r) => if r.size == 0 then Failure(SizeNotFound) else Success(r)
  }

  /** The statements that cut the start and size fields out of a line. */
  method CutLine(line: string) returns (f: Option<Fields>)
    ensures f == CutFields(line)
  {
    var rest := line;
    rest := After(rest, ',');
    rest := After(rest, ',');
    rest := After(rest, ',');
    rest := StripLeadingSpaces(rest);
    if ',' !in rest {
      return None;
    }
    var pStart := rest[..IndexOf(rest, ',')];
    rest := After(rest, ',');
    rest := StripLeadingSpaces(rest);
    if ',' !in rest {
      return None;
    }
    var pSize := rest[..IndexOf(rest, ',')];
    return Some(Fields(pStart, pSize));
  }

  /** One pass of the loop body: the comment test, the match test on the
      raw line, the field cutting, then either the resolved region of the
      matching line or the cursor update of any other line. */
  method ScanOne(line: string, k: FsKind, spiPrevEnd: int) returns (step: Step)
    ensures step == ScanLine(line, k, spiPrevEnd)
  {
    if |line| == 0 {
      return Broken;
    }
    if line[0] == '#' {
      return Next(spiPrevEnd);
    }
    var isDataLine := Contains(line, Marker(k));
    var fields := CutLine(line);
    if fields.None? {
      return Broken;
    }
    if isDataLine {
      step := ResolveMatch(fields.value, k, spiPrevEnd);
    } else {
      step := AdvanceCursor(fields.value, spiPrevEnd);
    }
  }

  /** The statements run on the matching line. */
  method ResolveMatch(f: Fields, k: FsKind, spiPrevEnd: int) returns (step: Step)
    ensures step == MatchStep(f, k, spiPrevEnd)
  {
    var spiOffset := SectorOffset(k);
    var spiStart;
    if IsBlank(f.start) {
      spiStart := spiPrevEnd + spiOffset;
    } else {
      var v := ParseSize(f.start);
      if v.None? {
        return Broken;
      }
      spiStart := v.value + spiOffset;
    }
    var z := ParseSize(f.size);
    if z.None? {
      return Broken;
    }
    return Found(Region(spiStart, z.value - spiOffset));
  }

  /** The statements run on any other data line. */
  method AdvanceCursor(f: Fields, spiPrevEnd: int) returns (step: Step)
    ensures step == CursorStep(f, spiPrevEnd)
  {
    var prevEnd := spiPrevEnd;
    if !IsBlank(f.size) {
      if IsBlank(f.start) {
        var z := ParseSize(f.size);
        if z.None? {
          return Broken;
        }
        prevEnd := prevEnd + z.value;
      } else {
        var v := ParseSize(f.start);
        var z := ParseSize(f.size);
        if v.None? || z.None? {
          return Broken;
        }
        prevEnd := v.value + z.value;
      }
    }
    return Next(prevEnd);
  }

  /** The scan loop: line after line until the matching one, then the
      `spiSize == 0` check. */
  method ScanPartitions(lines: seq<string>, k: FsKind) returns (r: Result<Region, LayoutError>)
    ensures r == ResolveLayout(lines, k)
  {
    var spiStart, spiSize := 0, 0;
    var spiPrevEnd := 0;
    var i := 0;
    while i < |lines|
      invariant 0 <= i <= |lines|
      invariant spiSize == 0
      invariant Locate(lines, k, 0) == Locate(lines[i..], k, spiPrevEnd)
    {
      assert lines[i..][0] == lines[i] && lines[i..][1..] == lines[i + 1..];
      var step := ScanOne(lines[i], k, spiPrevEnd);
      match step {
        case Broken =>
          return Failure(TableUnreadable);
        case Found(region) =>
          spiStart, spiSize := region.start, region.size;
          break;
        case Next(cursor) =>
          spiPrevEnd := cursor;
          spiSize := 0;
      }
      i := i + 1;
    }
    if spiSize == 0 {
      return Failure(SizeNotFound);
    }
    return Success(Region(spiStart, spiSize));
  }

  /* ---------------- The line format ---------------- */

  /** A data line of the table: name, type, subtype, offset, size, flags */
  datatype Row = Row(name: string, kind: string, subtype: string, start: string, size: string, flags: string)

  predicate Spaces(s: string) {
    forall i :: 0 <= i < |s| ==> s[i] == ' '
  }

  /** The first five fields hold no comma, the name does not open a comment,
      and the offset and size do not themselves start with a space. */
  predicate WellFormed(r: Row) {
    ',' !in r.name && ',' !in r.kind && ',' !in r.subtype && ',' !in r.start && ',' !in r.size
    && (r.name == [] || r.name[0] != '#')
    && (r.start == [] || r.start[0] != ' ')
    && (r.size == [] || r.size[0] != ' ')
  }

  /** The row as one CSV line, with padding before the offset and the size */
  function RowLine(r: Row, pad1: string, pad2: string): string {
    r.name + "," + r.kind + "," + r.subtype + "," + pad1 + r.start + "," + pad2 + r.size + "," + r.flags
  }

  /** The same line cut off right after the size, with no comma behind it */
  function Unterminated(r: Row, pad1: string, pad2: string): string {
    r.name + "," + r.kind + "," + r.subtype + "," + pad1 + r.start + "," + pad2 + r.size
  }

  /** The three leading fields are skipped whole. */
  lemma {:induction false} SkipThree(r: Row, tail: string)
    requires WellFormed(r)
    ensures After(After(After(r.name + [','] + r.kind + [','] + r.subtype + [','] + tail, ','), ','), ',') == tail
  {
    var tail2 := r.subtype + [','] + tail;
    var tail1 := r.kind + [','] + tail2;
    assert r.name + [','] + r.kind + [','] + r.subtype + [','] + tail == r.name + [','] + tail1;
    CutAtFirst(r.name, ',', tail1);
    CutAtFirst(r.kind, ',', tail2);
    CutAtFirst(r.subtype, ',', tail);
  }

  /** The start, then past the padding the size, each up to its comma */
  lemma {:induction false} ReadStartAndSize(r: Row, pad2: string)
    requires WellFormed(r) && Spaces(pad2)
    ensures StartAndSize(r.start + [','] + (pad2 + (r.size + [','] + r.flags))) == Some(Fields(r.start, r.size))
  {
    var rest3 := r.size + [','] + r.flags;
    CutAtFirst(r.start, ',', pad2 + rest3);
    DropSpacesPad(pad2, rest3);
    CutAtFirst(r.size, ',', r.flags);
  }

  /** The offset and size come back out of a row's line, without the padding. */
  lemma {:induction false} CutRow(r: Row, pad1: string, pad2: string)
    requires WellFormed(r) && Spaces(pad1) && Spaces(pad2)
    ensures CutFields(RowLine(r, pad1, pad2)) == Some(Fields(r.start, r.size))
  {
    var rest := r.start + [','] + (pad2 + (r.size + [','] + r.flags));
    assert RowLine(r, pad1, pad2) == r.name + [','] + r.kind + [','] + r.subtype + [','] + (pad1 + rest);
    SkipThree(r, pad1 + rest);
    DropSpacesPad(pad1, rest);
    ReadStartAndSize(r, pad2);
  }

  /** A line that ends right after the size field cannot be cut: the size's
      `substring(0, indexOf(","))` throws. */
  lemma {:induction false} CutUnterminated(r: Row, pad1: string, pad2: string)
    requires WellFormed(r) && Spaces(pad1) && Spaces(pad2)
    ensures CutFields(Unterminated(r, pad1, pad2)) == None
  {
    var rest2 := pad2 + r.size;
    var rest := r.start + [','] + rest2;
    assert Unterminated(r, pad1, pad2) == r.name + [','] + r.kind + [','] + r.subtype + [','] + (pad1 + rest);
    SkipThree(r, pad1 + rest);
    assert rest[0] == if r.start == [] then ',' else r.start[0];
    DropSpacesPad(pad1, rest);
    CutAtFirst(r.start, ',', rest2);
    DropSpacesPad(pad2, r.size);
  }

  /* ---------------- One line ---------------- */

  /** A row's line is a data line whose fields cut cleanly. */
  lemma {:induction false} RowIsDataLine(r: Row, pad1: string, pad2: string)
    requires WellFormed(r) && Spaces(pad1) && Spaces(pad2)
    ensures RowLine(r, pad1, pad2) != [] && RowLine(r, pad1, pad2)[0] != '#'
    ensures CutFields(RowLine(r, pad1, pad2)) == Some(Fields(r.start, r.size))
  {
    CutRow(r, pad1, pad2);
    assert RowLine(r, pad1, pad2)[0] == if r.name == [] then ',' else r.name[0];
  }

  /** A line opening with '#' leaves the cursor where it was. */
  lemma {:induction false} CommentKeepsCursor(line: string, k: FsKind, cursor: int)
    requires line != [] && line[0] == '#'
    ensures ScanLine(line, k, cursor) == Next(cursor)
  {
  }

  /** An empty line throws (its first character cannot be read). */
  lemma {:induction false} EmptyLineThrows(k: FsKind, cursor: int)
    ensures ScanLine("", k, cursor) == Broken
  {
  }

  /** A data line that does not mention the filesystem moves the cursor: not
      at all when its size is blank, by its size when its offset is blank,
      and to offset plus size otherwise; a size or offset that cannot be
      decoded throws. */
  lemma {:induction false} OtherLineCursor(line: string, f: Fields, k: FsKind, cursor: int)
    requires line != [] && line[0] != '#' && CutFields(line) == Some(f)
    requires !Contains(line, Marker(k))
    ensures IsBlank(f.size) ==> ScanLine(line, k, cursor) == Next(cursor)
    ensures !IsBlank(f.size) && IsBlank(f.start) ==>
      ScanLine(line, k, cursor) ==
        if ParseSize(f.size).Some? then Next(cursor + ParseSize(f.size).value) else Broken
    ensures !IsBlank(f.size) && !IsBlank(f.start) ==>
      ScanLine(line, k, cursor) ==
        if ParseSize(f.start).Some? && ParseSize(f.size).Some?
        then Next(ParseSize(f.start).value + ParseSize(f.size).value)
        else Broken
  {
  }

  /** The same for a row's line, whatever its padding. */
  /** A blank field ends in a space or control character. */
  lemma {:induction false} BlankEnd(s: string)
    requires IsBlank(s) && s != []
    ensures s[|s| - 1] <= ' '
    decreases |s|
  {
    if |s| > 1 {
      BlankEnd(s[1..]);
    }
  }

  /** A blank field is not a size: the loop tests blankness before parsing, and the parser would refuse it anyway. */
  lemma {:induction false} BlankSizeRejected(s: string)
    requires IsBlank(s)
    ensures ParseSize(s).None?
  {
    if s != [] {
      BlankEnd(s);
      assert s == s[..|s| - 1] + [s[|s| - 1]];
      TrailingNonDigit(s[..|s| - 1], s[|s| - 1]);
    }
  }

  /** A data row without the marker whose size is positive moves the cursor strictly forward when its offset is blank or not behind the cursor. */
  lemma {:induction false} CursorAdvances(line: string, k: FsKind, cursor: int)
    requires line != [] && line[0] != '#' && CutFields(line).Some?
    requires !Contains(line, Marker(k))
    requires ParseSize(CutFields(line).value.size).Some? && ParseSize(CutFields(line).value.size).value > 0
    requires IsBlank(CutFields(line).value.start) || (ParseSize(CutFields(line).value.start).Some? && ParseSize(CutFields(line).value.start).value >= cursor)
    ensures ScanLine(line, k, cursor).Next? && ScanLine(line, k, cursor).cursor > cursor
  {
    var f := CutFields(line).value;
    assert !IsBlank(f.size) by {
      if IsBlank(f.size) {
        BlankSizeRejected(f.size);
      }
    }
    OtherLineCursor(line, f, k, cursor);
  }

  /** A line that lays out another partition after the previous one: positive size, blank offset, no marker. */
  predicate Appended(line: string, k: FsKind) {
    && line != [] && line[0] != '#' && CutFields(line).Some?
    && !Contains(line, Marker(k))
    && IsBlank(CutFields(line).value.start)
    && ParseSize(CutFields(line).value.size).Some? && ParseSize(CutFields(line).value.size).value > 0
  }

  /** A run of appended partitions moves the cursor at least one byte per line. */
  lemma {:induction false} RunAdvances(lines: seq<string>, k: FsKind, cursor: int)
    requires forall i :: 0 <= i < |lines| ==> Appended(lines[i], k)
    ensures Locate(lines, k, cursor).Next? && Locate(lines, k, cursor).cursor >= cursor + |lines|
    decreases |lines|
  {
    if lines != [] {
      assert Appended(lines[0], k);
      CursorAdvances(lines[0], k, cursor);
      var c := ScanLine(lines[0], k, cursor).cursor;
      assert forall i :: 0 <= i < |lines[1..]| ==> lines[1..][i] == lines[i + 1];
      RunAdvances(lines[1..], k, c);
    }
  }

  lemma {:induction false} OtherRowCursor(r: Row, pad1: string, pad2: string, k: FsKind, cursor: int)
    requires WellFormed(r) && Spaces(pad1) && Spaces(pad2)
    requires !Contains(RowLine(r, pad1, pad2), Marker(k))
    ensures IsBlank(r.size) ==> ScanLine(RowLine(r, pad1, pad2), k, cursor) == Next(cursor)
    ensures !IsBlank(r.size) && IsBlank(r.start) ==>
      ScanLine(RowLine(r, pad1, pad2), k, cursor) ==
        if ParseSize(r.size).Some? then Next(cursor + ParseSize(r.size).value) else Broken
    ensures !IsBlank(r.size) && !IsBlank(r.start) ==>
      ScanLine(RowLine(r, pad1, pad2), k, cursor) ==
        if ParseSize(r.start).Some? && ParseSize(r.size).Some?
        then Next(ParseSize(r.start).value + ParseSize(r.size).value)
        else Broken
  {
    RowIsDataLine(r, pad1, pad2);
    OtherLineCursor(RowLine(r, pad1, pad2), Fields(r.start, r.size), k, cursor);
  }

  /** The data line that mentions the filesystem is the one found: its offset
      (or the cursor when the offset is blank) plus the filesystem's sector
      offset, and its size less that offset. */
  lemma {:induction false} MatchingLineFound(line: string, f: Fields, k: FsKind, cursor: int)
    requires line != [] && line[0] != '#' && CutFields(line) == Some(f)
    requires Contains(line, Marker(k))
    requires IsBlank(f.start) || ParseSize(f.start).Some?
    requires ParseSize(f.size).Some?
    ensures ScanLine(line, k, cursor) ==
      Found(Region((if IsBlank(f.start) then cursor else ParseSize(f.start).value) + SectorOffset(k),
                   ParseSize(f.size).value - SectorOffset(k)))
  {
  }

  /** The same for a row's line, whatever its padding. */
  lemma {:induction false} MatchingRowFound(r: Row, pad1: string, pad2: string, k: FsKind, cursor: int)
    requires WellFormed(r) && Spaces(pad1) && Spaces(pad2)
    requires Contains(RowLine(r, pad1, pad2), Marker(k))
    requires IsBlank(r.start) || ParseSize(r.start).Some?
    requires ParseSize(r.size).Some?
    ensures ScanLine(RowLine(r, pad1, pad2), k, cursor) ==
      Found(Region((if IsBlank(r.start) then cursor else ParseSize(r.start).value) + SectorOffset(k),
                   ParseSize(r.size).value - SectorOffset(k)))
  {
    RowIsDataLine(r, pad1, pad2);
    MatchingLineFound(RowLine(r, pad1, pad2), Fields(r.start, r.size), k, cursor);
  }

  /* ---------------- The whole table ---------------- */

  /** Scanning a + b is scanning a, then, if a was consumed without a hit,
      scanning b from the cursor a left behind. */
  lemma {:induction false} LocateAppend(a: seq<string>, b: seq<string>, k: FsKind, cursor: int)
    ensures Locate(a + b, k, cursor) ==
      match Locate(a, k, cursor)
      case Next(c) => Locate(b, k, c)
      case other => other
    decreases |a|
  {
    if a == [] {
      assert a + b == b;
    } else {
      assert (a + b)[0] == a[0] && (a + b)[1..] == a[1..] + b;
      match ScanLine(a[0], k, cursor)
      case Next(c) => LocateAppend(a[1..], b, k, c);
      case Found(_) =>
      case Broken =>
    }
  }

  /** Only the first matching line counts: what follows it is never read. */
  lemma {:induction false} FirstMatchWins(a: seq<string>, b: seq<string>, k: FsKind)
    requires Locate(a, k, 0).Found?
    ensures ResolveLayout(a + b, k) == ResolveLayout(a, k)
  {
    LocateAppend(a, b, k, 0);
  }

  /** Inserting a comment line anywhere changes nothing. */
  lemma {:induction false} CommentsIgnored(a: seq<string>, comment: string, b: seq<string>, k: FsKind)
    requires comment != [] && comment[0] == '#'
    ensures ResolveLayout(a + [comment] + b, k) == ResolveLayout(a + b, k)
  {
    LocateAppend(a, [comment] + b, k, 0);
    LocateAppend(a, b, k, 0);
    assert a + [comment] + b == a + ([comment] + b);
    if Locate(a, k, 0).Next? {
      var c := Locate(a, k, 0).cursor;
      assert ([comment] + b)[0] == comment && ([comment] + b)[1..] == b;
      assert Locate([comment] + b, k, c) == Locate(b, k, c);
    }
  }

  /** An empty line reached before any match makes the table unreadable. */
  lemma {:induction false} EmptyLineBeforeMatch(a: seq<string>, b: seq<string>, k: FsKind)
    requires Locate(a, k, 0).Next?
    ensures ResolveLayout(a + [""] + b, k) == Failure(TableUnreadable)
  {
    LocateAppend(a, [""] + b, k, 0);
    assert a + [""] + b == a + ([""] + b);
    assert ([""] + b)[0] == "";
  }

  /** Without a line mentioning the filesystem the scan never stops on a
      match. */
  lemma {:induction false} NoMarkerNoMatch(lines: seq<string>, k: FsKind, cursor: int)
    requires forall i :: 0 <= i < |lines| ==> !Contains(lines[i], Marker(k))
    ensures !Locate(lines, k, cursor).Found?
    decreases |lines|
  {
    if lines != [] {
      match ScanLine(lines[0], k, cursor)
      case Next(c) =>
        assert forall i :: 0 <= i < |lines[1..]| ==> lines[1..][i] == lines[i + 1];
        NoMarkerNoMatch(lines[1..], k, c);
      case Found(_) =>
      case Broken =>
    }
  }

  /** ... so no layout can be had. */
  lemma {:induction false} NoMarkerNoLayout(lines: seq<string>, k: FsKind)
    requires forall i :: 0 <= i < |lines| ==> !Contains(lines[i], Marker(k))
    ensures ResolveLayout(lines, k).Failure?
  {
    NoMarkerNoMatch(lines, k, 0);
  }

  /** A matching row reached after lines that moved the cursor to c decides
      the layout: its region, unless the size left after the sector offset
      is exactly 0 (only 0 is refused; a negative size goes through). */
  lemma {:induction false} MatchingRowDecides(a: seq<string>, r: Row, pad1: string, pad2: string, b: seq<string>, k: FsKind, c: int)
    requires WellFormed(r) && Spaces(pad1) && Spaces(pad2)
    requires Locate(a, k, 0) == Next(c)
    requires Contains(RowLine(r, pad1, pad2), Marker(k))
    requires IsBlank(r.start) || ParseSize(r.start).Some?
    requires ParseSize(r.size).Some?
    ensures var start := (if IsBlank(r.start) then c else ParseSize(r.start).value) + SectorOffset(k);
            var size := ParseSize(r.size).value - SectorOffset(k);
            ResolveLayout(a + [RowLine(r, pad1, pad2)] + b, k) ==
              if size == 0 then Failure(SizeNotFound) else Success(Region(start, size))
  {
    var line := RowLine(r, pad1, pad2);
    LocateAppend(a, [line] + b, k, 0);
    assert a + [line] + b == a + ([line] + b);
    assert ([line] + b)[0] == line;
    MatchingRowFound(r, pad1, pad2, k, c);
  }

  /** A matching line whose size parseInt rejects makes the scan throw. */
  lemma {:induction false} BadSizeLineBreaks(line: string, f: Fields, k: FsKind, cursor: int)
    requires line != [] && line[0] != '#' && CutFields(line) == Some(f)
    requires Contains(line, Marker(k))
    requires ParseSize(f.size).None?
    ensures ScanLine(line, k, cursor) == Broken
  {
  }

  /** A line that breaks the scan, reached after a run that did not, makes the table unreadable. */
  lemma {:induction false} BrokenLineStops(a: seq<string>, line: string, b: seq<string>, k: FsKind)
    requires Locate(a, k, 0).Next?
    requires ScanLine(line, k, Locate(a, k, 0).cursor) == Broken
    ensures ResolveLayout(a + [line] + b, k) == Failure(TableUnreadable)
  {
    LocateAppend(a, [line] + b, k, 0);
    assert a + [line] + b == a + ([line] + b);
    assert ([line] + b)[0] == line;
  }

  /** A matching row whose size ends in a character that is neither digit
      nor letter (a space before the comma, say) makes parseInt throw, and
      the whole scan with it. */
  lemma {:induction false} StraySizeCharacterBreaks(a: seq<string>, r: Row, pad1: string, pad2: string, b: seq<string>, k: FsKind)
    requires WellFormed(r) && Spaces(pad1) && Spaces(pad2)
    requires Locate(a, k, 0).Next?
    requires Contains(RowLine(r, pad1, pad2), Marker(k))
    requires r.size != [] && DigitValue(r.size[|r.size| - 1]).None?
    ensures ResolveLayout(a + [RowLine(r, pad1, pad2)] + b, k) == Failure(TableUnreadable)
  {
    var line := RowLine(r, pad1, pad2);
    var n := |r.size|;
    assert r.size == r.size[..n - 1] + [r.size[n - 1]];
    TrailingNonDigit(r.size[..n - 1], r.size[n - 1]);
    RowIsDataLine(r, pad1, pad2);
    BadSizeLineBreaks(line, Fields(r.start, r.size), k, Locate(a, k, 0).cursor);
    BrokenLineStops(a, line, b, k);
  }

  /** A FatFS partition of one 4096-byte sector leaves nothing after the
      sector offset: the run stops as if no size had been found. */
  lemma {:induction false} FatSectorOnly(a: seq<string>, r: Row, b: seq<string>)
    requires Locate(a, FatFS, 0).Next?
    requires WellFormed(r) && Contains(RowLine(r, "", ""), Marker(FatFS))
    requires IsBlank(r.start) || ParseSize(r.start).Some?
    requires r.size == "4096" || r.size == "4K" || r.size == "0x1000"
    ensures ResolveLayout(a + [RowLine(r, "", "")] + b, FatFS) == Failure(SizeNotFound)
  {
    FourKiBSpellings();
    MatchingRowDecides(a, r, "", "", b, FatFS, Locate(a, FatFS, 0).cursor);
  }

  /** Only a size of exactly 0 is refused: a FatFS partition smaller than its
      sector offset goes through with a negative image size. */
  lemma {:induction false} FatUndersizedAccepted(a: seq<string>, r: Row, b: seq<string>)
    requires Locate(a, FatFS, 0).Next?
    requires WellFormed(r) && Contains(RowLine(r, "", ""), Marker(FatFS))
    requires IsBlank(r.start) || ParseSize(r.start).Some?
    requires r.size == "0x800"
    ensures ResolveLayout(a + [RowLine(r, "", "")] + b, FatFS).Success?
    ensures ResolveLayout(a + [RowLine(r, "", "")] + b, FatFS).value.size == -0x800
  {
    assert NumberText(0x800, true) == "0x800";
    NumberTextScales(0x800, true);
    MatchingRowDecides(a, r, "", "", b, FatFS, Locate(a, FatFS, 0).cursor);
  }
}
