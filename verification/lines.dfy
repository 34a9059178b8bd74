/** The four line shapes of a CSA record the reader recognises, each an
    anchored pattern over the whole line, and the classifier that tags a
    line with the first shape it matches. Each shape has a formatter, and
    the round-trip lemmas show the classifier accepts exactly the
    formatters' outputs and reads back what they wrote. */
module Lines {
  import opened Text
  import opened Pieces

  /** A move line `[+-]SSDDKK`: source square (00 for a drop), destination
      square and a two-character kind code. */
  datatype Move = Move(side: Side, source: nat, destination: nat, piece: string) {
    predicate Valid() {
      && source < 100
      && destination < 100
      && |piece| == 2
      && IsWordChar(piece[0])
      && IsWordChar(piece[1])
    }

    predicate IsDrop() {
      source == 0
    }
  }

  /** The six numbers of an end-time line, as read (no calendar check). */
  datatype EndTime = EndTime(year: nat, month: nat, day: nat, hour: nat, minute: nat, second: nat) {
    predicate Valid() {
      year < 10000 && month < 100 && day < 100 && hour < 100 && minute < 100 && second < 100
    }
  }

  datatype Line =
    | PositionRow(rank: nat, cells: seq<string>)
    | MoveLine(move: Move)
    | EndTimeLine(time: EndTime)
    | Other

  /** Nine cells of three characters, none a newline (`.` in the pattern). */
  predicate ValidCells(cells: seq<string>) {
    && |cells| == 9
    && forall j :: 0 <= j < 9 ==> |cells[j]| == 3 && '\n' !in cells[j]
  }

  /** `^(V[\d\.]+)$` */
  predicate IsVersion(line: string) {
    && |line| >= 2
    && line[0] == 'V'
    && forall i :: 1 <= i < |line| ==> IsDigit(line[i]) || line[i] == '.'
  }

  /** `^P(\d)(.{3})` nine times `$` */
  predicate IsPositionRow(line: string) {
    && |line| == 29
    && line[0] == 'P'
    && IsDigit(line[1])
    && forall i :: 2 <= i < 29 ==> line[i] != '\n'
  }

  /** The nine three-character groups of a position row, leftmost first. */
  function RowCells(line: string): (cells: seq<string>)
    requires |line| == 29
    ensures |cells| == 9
  {
    seq(9, j requires 0 <= j < 9 => line[2 + 3 * j .. 5 + 3 * j])
  }

  /** `^([+-])(\d{2})(\d{2})(\w{2})$` */
  predicate IsMoveLine(line: string) {
    && |line| == 7
    && (line[0] == '+' || line[0] == '-')
    && AllDigits(line[1..5])
    && IsWordChar(line[5])
    && IsWordChar(line[6])
  }

  const EndTimeTag: string := "'$END_TIME:"

  /** `(\d{w})S(\d{2})S(\d{2})` for a separator S: the date part (w = 4,
      S = '/') and the clock part (w = 2, S = ':') of an end-time line. */
  predicate IsTriple(s: string, w: nat, sep: char) {
    && |s| == w + 6
    && AllDigits(s[..w]) && s[w] == sep
    && AllDigits(s[w + 1 .. w + 3]) && s[w + 3] == sep
    && AllDigits(s[w + 4 ..])
  }

  /** `^'\$END_TIME:(\d{4})/(\d{2})/(\d{2}) (\d{2}):(\d{2}):(\d{2})$` */
  predicate IsEndTimeLine(line: string) {
    && |line| == 30
    && line[..11] == EndTimeTag
    && IsTriple(line[11..21], 4, '/')
    && line[21] == ' '
    && IsTriple(line[22..30], 2, ':')
  }

  function SideOfSign(c: char): Side {
    if c == '+' then Black else White
  }

  /** Tags a line with the first pattern it matches, in the reader's order:
      position row, move, end time; anything else is `Other`. */
  function Classify(line: string): (r: Line)
    ensures r.PositionRow? <==> IsPositionRow(line)
    ensures r.MoveLine? <==> !IsPositionRow(line) && IsMoveLine(line)
    ensures r.EndTimeLine? <==> !IsPositionRow(line) && !IsMoveLine(line) && IsEndTimeLine(line)
    ensures r.PositionRow? ==> r.rank <= 9 && ValidCells(r.cells)
    ensures r.MoveLine? ==> r.move.Valid()
    ensures r.EndTimeLine? ==> r.time.Valid()
  {
    if IsPositionRow(line) then ReadRow(line)
    else if IsMoveLine(line) then MoveLine(ReadMove(line))
    else if IsEndTimeLine(line) then EndTimeLine(ReadEndTime(line))
    else Other
  }

  function ReadRow(line: string): (r: Line)
    requires IsPositionRow(line)
    ensures r.PositionRow? && r.rank <= 9 && ValidCells(r.cells)
  {
    var cells := RowCells(line);
    assert ValidCells(cells) by {
      forall j | 0 <= j < 9 ensures |cells[j]| == 3 && '\n' !in cells[j] {
        assert forall k :: 0 <= k < 3 ==> cells[j][k] == line[2 + 3 * j + k];
      }
    }
    PositionRow(DigitValue(line[1]), cells)
  }

  function ReadMove(line: string): (m: Move)
    requires IsMoveLine(line)
    ensures m.Valid()
  {
    assert AllDigits(line[1..3]) && AllDigits(line[3..5]) by {
      assert forall k :: 0 <= k < 2 ==> line[1..3][k] == line[1..5][k] && line[3..5][k] == line[1..5][k + 2];
    }
    Move(SideOfSign(line[0]), ParseNat(line[1..3]), ParseNat(line[3..5]), line[5..7])
  }

  function ReadTriple(s: string, w: nat, sep: char): (nat, nat, nat)
    requires IsTriple(s, w, sep)
  {
    (ParseNat(s[..w]), ParseNat(s[w + 1 .. w + 3]), ParseNat(s[w + 4 ..]))
  }

  function ReadEndTime(line: string): (t: EndTime)
    requires IsEndTimeLine(line)
    ensures t.Valid()
  {
    var (year, month, day) := ReadTriple(line[11..21], 4, '/');
    var (hour, minute, second) := ReadTriple(line[22..30], 2, ':');
    EndTime(year, month, day, hour, minute, second)
  }

  /** The version line never matches a dispatched shape, so after the
      line-0 check it changes nothing. */
  lemma VersionIsOther(line: string)
    requires IsVersion(line)
    ensures Classify(line) == Other
  {
  }

  // ---- Formatters -------------------------------------------------------

  function Flatten(cells: seq<string>): string {
    if |cells| == 0 then "" else cells[0] + Flatten(cells[1..])
  }

  function FormatRow(rank: nat, cells: seq<string>): string
    requires rank <= 9 && ValidCells(cells)
  {
    "P" + [DigitChar(rank)] + Flatten(cells)
  }

  function FormatMove(m: Move): string
    requires m.Valid()
  {
    [Sign(m.side)] + PadNat(m.source, 2) + PadNat(m.destination, 2) + m.piece
  }

  function FormatTriple(a: nat, b: nat, c: nat, w: nat, sep: char): string {
    PadNat(a, w) + [sep] + PadNat(b, 2) + [sep] + PadNat(c, 2)
  }

  function FormatEndTime(t: EndTime): string
    requires t.Valid()
  {
    EndTimeTag + FormatTriple(t.year, t.month, t.day, 4, '/')
      + " " + FormatTriple(t.hour, t.minute, t.second, 2, ':')
  }

  /** A formatted triple is read back as the three numbers. */
  lemma TripleFormatRead(a: nat, b: nat, c: nat, w: nat, sep: char)
    requires a < Pow10(w) && b < 100 && c < 100
    ensures IsTriple(FormatTriple(a, b, c, w, sep), w, sep)
    ensures ReadTriple(FormatTriple(a, b, c, w, sep), w, sep) == (a, b, c)
  {
    var pa, pb, pc := PadNat(a, w), PadNat(b, 2), PadNat(c, 2);
    var s := FormatTriple(a, b, c, w, sep);
    assert s == pa + [sep] + pb + [sep] + pc;
    SliceThree(pa, pb, pc, sep);
    ParsePad(a, w);
    ParsePad(b, 2);
    ParsePad(c, 2);
  }

  /** The three fields of `x S y S z` sit where `IsTriple` looks for them. */
  lemma SliceThree(x: string, y: string, z: string, sep: char)
    requires |y| == 2 && |z| == 2
    ensures var s := x + [sep] + y + [sep] + z;
      && |s| == |x| + 6 && s[..|x|] == x && s[|x|] == sep
      && s[|x| + 1 .. |x| + 3] == y && s[|x| + 3] == sep && s[|x| + 4 ..] == z
  {
  }

  /** A triple is its own formatting. */
  lemma TripleReadFormat(s: string, w: nat, sep: char)
    requires IsTriple(s, w, sep)
    ensures var (a, b, c) := ReadTriple(s, w, sep); FormatTriple(a, b, c, w, sep) == s
  {
    PadParse(s[..w]);
    PadParse(s[w + 1 .. w + 3]);
    PadParse(s[w + 4 ..]);
    assert s == s[..w] + [s[w]] + s[w + 1 .. w + 3] + [s[w + 3]] + s[w + 4 ..];
  }

  /** Character `i` of a flattened list of three-character cells. */
  lemma {:induction false} FlattenIndex(cells: seq<string>)
    requires forall j :: 0 <= j < |cells| ==> |cells[j]| == 3
    ensures |Flatten(cells)| == 3 * |cells|
    ensures forall i :: 0 <= i < 3 * |cells| ==> Flatten(cells)[i] == cells[i / 3][i % 3]
  {
    if |cells| > 0 {
      var rest := cells[1..];
      FlattenIndex(rest);
      forall i | 3 <= i < 3 * |cells|
        ensures Flatten(cells)[i] == cells[i / 3][i % 3]
      {
        assert Flatten(cells)[i] == Flatten(rest)[i - 3];
        assert (i - 3) / 3 + 1 == i / 3 && (i - 3) % 3 == i % 3;
      }
    }
  }

  // ---- Round trips: every formatted line is read back exactly ----------

  lemma ClassifyFormatRow(rank: nat, cells: seq<string>)
    requires rank <= 9 && ValidCells(cells)
    ensures Classify(FormatRow(rank, cells)) == PositionRow(rank, cells)
  {
    var line := FormatRow(rank, cells);
    FlattenIndex(cells);
    assert forall i :: 2 <= i < 29 ==> line[i] == Flatten(cells)[i - 2];
    assert IsPositionRow(line) by {
      forall i | 2 <= i < 29 ensures line[i] != '\n' {
        assert line[i] == cells[(i - 2) / 3][(i - 2) % 3];
      }
    }
    var read := RowCells(line);
    forall j | 0 <= j < 9 ensures read[j] == cells[j] {
      forall k | 0 <= k < 3 ensures read[j][k] == cells[j][k] {
        assert read[j][k] == Flatten(cells)[3 * j + k];
        assert (3 * j + k) / 3 == j && (3 * j + k) % 3 == k;
      }
    }
  }

  lemma ClassifyFormatMove(m: Move)
    requires m.Valid()
    ensures Classify(FormatMove(m)) == MoveLine(m)
  {
    var line := FormatMove(m);
    var src, dst := PadNat(m.source, 2), PadNat(m.destination, 2);
    assert line[1..3] == src && line[3..5] == dst && line[5..7] == m.piece;
    assert line[1..5] == src + dst;
    ParsePad(m.source, 2);
    ParsePad(m.destination, 2);
  }

  lemma ClassifyFormatEndTime(t: EndTime)
    requires t.Valid()
    ensures Classify(FormatEndTime(t)) == EndTimeLine(t)
  {
    var date := FormatTriple(t.year, t.month, t.day, 4, '/');
    var clock := FormatTriple(t.hour, t.minute, t.second, 2, ':');
    var line := FormatEndTime(t);
    TripleFormatRead(t.year, t.month, t.day, 4, '/');
    TripleFormatRead(t.hour, t.minute, t.second, 2, ':');
    assert line == EndTimeTag + date + " " + clock;
    SliceEndTime(date, clock);
    assert IsEndTimeLine(line);
    assert !IsPositionRow(line) && !IsMoveLine(line);
    assert ReadEndTime(line) == t;
  }

  /** The tag, date and clock of an end-time line sit where
      `IsEndTimeLine` looks for them. */
  lemma SliceEndTime(date: string, clock: string)
    requires |date| == 10 && |clock| == 8
    ensures var line := EndTimeTag + date + " " + clock;
      && |line| == 30 && line[0] == '\'' && line[..11] == EndTimeTag
      && line[11..21] == date && line[21] == ' ' && line[22..30] == clock
  {
  }

  // ---- ... and every classified line is its own formatting --------------

  lemma FormatClassifiedRow(line: string)
    requires Classify(line).PositionRow?
    ensures FormatRow(Classify(line).rank, Classify(line).cells) == line
  {
    var cells := RowCells(line);
    var out := FormatRow(DigitValue(line[1]), cells);
    FlattenIndex(cells);
    forall i | 0 <= i < 29 ensures out[i] == line[i] {
      if i >= 2 {
        var j, k := (i - 2) / 3, (i - 2) % 3;
        assert out[i] == cells[j][k];
        assert cells[j][k] == line[2 + 3 * j + k];
      }
    }
  }

  lemma FormatClassifiedMove(line: string)
    requires Classify(line).MoveLine?
    ensures FormatMove(Classify(line).move) == line
  {
    FormatReadMove(line);
  }

  lemma FormatReadMove(line: string)
    requires IsMoveLine(line)
    ensures FormatMove(ReadMove(line)) == line
  {
    var m := ReadMove(line);
    var src, dst := line[1..3], line[3..5];
    assert AllDigits(src) && AllDigits(dst) by {
      assert forall k :: 0 <= k < 2 ==> src[k] == line[1..5][k] && dst[k] == line[1..5][k + 2];
    }
    PadParse(src);
    PadParse(dst);
    assert PadNat(m.source, 2) == src && PadNat(m.destination, 2) == dst;
    assert Sign(m.side) == line[0];
    SliceMove(line);
  }

  /** A move line is its sign, two squares and a kind, end to end. */
  lemma SliceMove(line: string)
    requires |line| == 7
    ensures line == [line[0]] + line[1..3] + line[3..5] + line[5..7]
  {
  }

  lemma FormatClassifiedEndTime(line: string)
    requires Classify(line).EndTimeLine?
    ensures FormatEndTime(Classify(line).time) == line
  {
    FormatReadEndTime(line);
  }

  lemma FormatReadEndTime(line: string)
    requires IsEndTimeLine(line)
    ensures FormatEndTime(ReadEndTime(line)) == line
  {
    TripleReadFormat(line[11..21], 4, '/');
    TripleReadFormat(line[22..30], 2, ':');
    assert line == line[..11] + line[11..21] + [line[21]] + line[22..30];
  }
}
