/** `CsaFile.load` without the fetch: line 0 must be a version line, then
    every line (line 0 included) is dispatched by shape and folded into the
    state, and finally the score is swept off the board. Any error aborts
    the load and no record is produced. */
module Loader {
  import opened Text
  import opened Pieces
  import opened Lines
  import opened Errors
  import opened Board
  import opened Score

  /** What the fold carries from line to line. */
  datatype State = State(pos: Position, endTime: Option<EndTime>) {
    predicate Valid() {
      pos.Valid()
    }
  }

  /** The loaded record. `score` is `[0, black, white]`. */
  datatype CsaFile = CsaFile(
    tournament: string,
    url: string,
    board: seq<string>,
    hands: seq<int>,
    endTime: Option<EndTime>,
    score: seq<int>)

  function Start(): (st: State)
    ensures st.Valid()
  {
    State(Initial(), None)
  }

  /** One line folded into the state. Only a move line can fail; a position
      row touches only the board, an end-time line only the end time, and
      any other line nothing at all. */
  function Step(st: State, line: string): (r: Result<State>)
    requires st.Valid()
    ensures r.Ok? ==> r.value.Valid()
    ensures r.Err? ==> Classify(line).MoveLine? && !r.error.NotCsa?
    ensures r.Ok? && !Classify(line).EndTimeLine? ==> r.value.endTime == st.endTime
    ensures r.Ok? && !Classify(line).MoveLine? ==> r.value.pos.hands == st.pos.hands
    ensures r.Ok? && !Classify(line).PositionRow? && !Classify(line).MoveLine? ==> r.value.pos == st.pos
    ensures Classify(line).Other? ==> r == Ok(st)
  {
    match Classify(line)
    case PositionRow(rank, cells) => Ok(st.(pos := PutRow(st.pos, rank, cells)))
    case MoveLine(m) =>
      (match ApplyMove(st.pos, m)
       case Ok(p) => Ok(st.(pos := p))
       case Err(e) => Err(e))
    case EndTimeLine(t) => Ok(st.(endTime := Some(t)))
    case Other => Ok(st)
  }

  /** The state after every line, folded from the first; the first error
      stops the fold. */
  function Replay(lines: seq<string>): (r: Result<State>)
    ensures r.Ok? ==> r.value.Valid()
    ensures r.Err? ==> !r.error.NotCsa?
  {
    if |lines| == 0 then Ok(Start())
    else
      match Replay(lines[..|lines| - 1])
      case Err(e) => Err(e)
      case Ok(st) => Step(st, lines[|lines| - 1])
  }

  /** The whole load over the lines of a record. */
  function Load(tournament: string, url: string, lines: seq<string>): (r: Result<CsaFile>)
    ensures r.Err? && r.error.NotCsa? <==> |lines| == 0 || !IsVersion(lines[0])
    ensures r.Ok? <==> |lines| > 0 && IsVersion(lines[0]) && Replay(lines).Ok?
    ensures r.Ok? ==>
      && r.value.tournament == tournament && r.value.url == url
      && |r.value.board| == BoardSize && |r.value.hands| == HandSize
      && r.value.score == Scores(r.value.board)
  {
    if |lines| == 0 then Err(NotCsa(""))
    else if !IsVersion(lines[0]) then Err(NotCsa(lines[0]))
    else
      match Replay(lines)
      case Err(e) => Err(e)
      case Ok(st) =>
        Ok(CsaFile(tournament, url, st.pos.board, st.pos.hands, st.endTime, Scores(st.pos.board)))
  }

  /** The load over a whole text, split at newlines. */
  function LoadText(tournament: string, url: string, text: string): (r: Result<CsaFile>)
    ensures r.Err? && r.error.NotCsa? <==> !IsVersion(Split(text)[0])
  {
    Load(tournament, url, Split(text))
  }

  /** Loading the text of newline-free lines is loading those lines. */
  lemma LoadJoined(tournament: string, url: string, lines: seq<string>)
    requires |lines| >= 1
    requires forall i :: 0 <= i < |lines| ==> '\n' !in lines[i]
    ensures LoadText(tournament, url, Join(lines)) == Load(tournament, url, lines)
  {
    SplitJoin(lines);
  }

  // ---- The fold, line by line -------------------------------------------

  lemma ReplayAppendOk(lines: seq<string>, line: string)
    requires Replay(lines).Ok?
    ensures Replay(lines + [line]) == Step(Replay(lines).value, line)
  {
    assert (lines + [line])[..|lines|] == lines;
  }

  lemma ReplayAppendErr(lines: seq<string>, line: string)
    requires Replay(lines).Err?
    ensures Replay(lines + [line]) == Replay(lines)
  {
    assert (lines + [line])[..|lines|] == lines;
  }

  /** A line of no recognised shape (a comment, a time annotation, the
      version line itself) changes nothing. */
  lemma IgnoredLine(lines: seq<string>, line: string)
    requires Classify(line).Other?
    ensures Replay(lines + [line]) == Replay(lines)
  {
    if Replay(lines).Ok? {
      ReplayAppendOk(lines, line);
    } else {
      ReplayAppendErr(lines, line);
    }
  }

  /** Once a line has failed, no later line can bring the load back. */
  lemma {:induction false} ErrorIsFinal(lines: seq<string>, more: seq<string>)
    requires Replay(lines).Err?
    ensures Replay(lines + more) == Replay(lines)
  {
    if |more| > 0 {
      var init, last := more[..|more| - 1], more[|more| - 1];
      var prefix := lines + init;
      ErrorIsFinal(lines, init);
      assert Replay(prefix) == Replay(lines);
      assert lines + more == prefix + [last];
      ReplayAppendErr(prefix, last);
    } else {
      assert lines + more == lines;
    }
  }

  /** A move out of a square holding the blank code fails the whole load,
      whatever follows it, with no record produced. */
  lemma BlankSourceAborts(t: string, u: string, lines: seq<string>, line: string, rest: seq<string>)
    requires |lines| > 0 && IsVersion(lines[0]) && Replay(lines).Ok?
    requires Classify(line).MoveLine? && !Classify(line).move.IsDrop()
    requires Replay(lines).value.pos.board[Classify(line).move.source] == Blank
    ensures Load(t, u, lines + [line] + rest) == Err(EmptySource(Classify(line).move))
  {
    ReplayAppendOk(lines, line);
    ErrorIsFinal(lines + [line], rest);
    assert (lines + [line] + rest)[0] == lines[0];
  }

  // ---- End time ----------------------------------------------------------

  /** The time of the last end-time line, if any. */
  function LastEndTime(lines: seq<string>): Option<EndTime> {
    if |lines| == 0 then None
    else if Classify(lines[|lines| - 1]).EndTimeLine? then Some(Classify(lines[|lines| - 1]).time)
    else LastEndTime(lines[..|lines| - 1])
  }

  /** Each end-time line overwrites the previous one: the record keeps the
      last. */
  lemma {:induction false} EndTimeIsLast(lines: seq<string>)
    requires Replay(lines).Ok?
    ensures Replay(lines).value.endTime == LastEndTime(lines)
  {
    if |lines| > 0 {
      EndTimeIsLast(lines[..|lines| - 1]);
    }
  }

  // ---- Records without moves ----------------------------------------------

  predicate NoMoves(lines: seq<string>) {
    forall i :: 0 <= i < |lines| ==> !Classify(lines[i]).MoveLine?
  }

  /** Cell `i` after `line`, when it held `prev` before: a position row
      for the cell's rank overwrites it, any other line leaves it. */
  function CellAfter(line: string, i: nat, prev: string): string {
    match Classify(line)
    case PositionRow(rank, cells) =>
      if 10 <= i < BoardSize && i % 10 == rank then cells[9 - i / 10] else prev
    case _ => prev
  }

  /** What a run of position rows leaves in cell `i`: the cell of the last
      row for rank `i % 10` that covers `i`, or "" if no row did. */
  function LastRowCell(lines: seq<string>, i: nat): string {
    if |lines| == 0 then ""
    else CellAfter(lines[|lines| - 1], i, LastRowCell(lines[..|lines| - 1], i))
  }

  /** One line that is not a move: it succeeds, keeps the counters and
      changes each cell as `CellAfter` says. */
  lemma RowStep(st: State, line: string)
    requires st.Valid() && !Classify(line).MoveLine?
    ensures Step(st, line).Ok? && Step(st, line).value.pos.hands == st.pos.hands
    ensures forall i :: 0 <= i < BoardSize ==>
      Step(st, line).value.pos.board[i] == CellAfter(line, i, st.pos.board[i])
  {
    match Classify(line)
    case PositionRow(rank, cells) =>
      var board := Step(st, line).value.pos.board;
      forall i | 0 <= i < BoardSize ensures board[i] == CellAfter(line, i, st.pos.board[i]) {
        if 10 <= i && i % 10 == rank {
          assert i == Square(i / 10, rank);
        }
      }
    case _ =>
  }

  /** Without move lines nothing can fail, no counter moves off zero, and
      every cell holds what the last position row for its rank put there. */
  lemma {:induction false} RowsOnly(lines: seq<string>)
    requires NoMoves(lines)
    ensures Replay(lines).Ok?
    ensures Replay(lines).value.pos.hands == Initial().hands
    ensures forall i :: 0 <= i < BoardSize ==> Replay(lines).value.pos.board[i] == LastRowCell(lines, i)
  {
    if |lines| > 0 {
      var init := lines[..|lines| - 1];
      var line := lines[|lines| - 1];
      assert NoMoves(init) by {
        forall i | 0 <= i < |init| ensures !Classify(init[i]).MoveLine? {
          assert init[i] == lines[i];
        }
      }
      RowsOnly(init);
      assert lines == init + [line];
      ReplayAppendOk(init, line);
      RowStep(Replay(init).value, line);
    }
  }

  /** The formatted position rows P1 .. Pn for the given rows of cells,
      row `r` on rank `r + 1`. */
  function RowLines(rows: seq<seq<string>>): (lines: seq<string>)
    requires |rows| <= 9
    requires forall r :: 0 <= r < |rows| ==> ValidCells(rows[r])
    ensures |lines| == |rows|
    ensures forall r :: 0 <= r < |rows| ==> Classify(lines[r]) == PositionRow(r + 1, rows[r])
  {
    if |rows| == 0 then []
    else
      var init := RowLines(rows[..|rows| - 1]);
      ClassifyFormatRow(|rows|, rows[|rows| - 1]);
      init + [FormatRow(|rows|, rows[|rows| - 1])]
  }

  /** A version line followed by the rows P1 .. P9. */
  function BlockLines(version: string, rows: seq<seq<string>>): (lines: seq<string>)
    requires IsVersion(version)
    requires |rows| == 9 && forall r :: 0 <= r < 9 ==> ValidCells(rows[r])
    ensures |lines| == 10 && lines[0] == version
    ensures NoMoves(lines)
    ensures forall i :: 0 <= i < |lines| ==> !Classify(lines[i]).EndTimeLine?
  {
    var lines := [version] + RowLines(rows);
    VersionIsOther(version);
    assert forall i :: 1 <= i < |lines| ==> lines[i] == RowLines(rows)[i - 1];
    lines
  }

  /** The cell a complete block of rows puts at index `i`: row `r`'s cells
      on rank `r`, and "" on rank 0 and on the file-0 indices below 10. */
  function BlockCellValue(rows: seq<seq<string>>, i: nat): string
    requires |rows| == 9 && forall r :: 0 <= r < 9 ==> ValidCells(rows[r])
    requires i < BoardSize
  {
    if 10 <= i && i % 10 != 0 then
      var file, rank := i / 10, i % 10;
      assert 1 <= file <= 9 && 1 <= rank <= 9;
      assert ValidCells(rows[rank - 1]);
      rows[rank - 1][9 - file]
    else ""
  }

  /** The board a position block replays to, cell by cell. */
  lemma BlockBoard(version: string, rows: seq<seq<string>>)
    requires IsVersion(version)
    requires |rows| == 9 && forall r :: 0 <= r < 9 ==> ValidCells(rows[r])
    ensures Replay(BlockLines(version, rows)).Ok?
    ensures forall i :: 0 <= i < BoardSize ==>
      Replay(BlockLines(version, rows)).value.pos.board[i] == BlockCellValue(rows, i)
  {
    var lines := BlockLines(version, rows);
    RowsOnly(lines);
    assert lines == [version] + RowLines(rows)[..9];
    forall i | 0 <= i < BoardSize
      ensures LastRowCell(lines, i) == BlockCellValue(rows, i)
    {
      BlockCell(version, rows, 9, i);
    }
  }

  /** What a successful load hands back: the replayed state and its score. */
  lemma LoadedRecord(t: string, u: string, lines: seq<string>)
    requires |lines| > 0 && IsVersion(lines[0]) && Replay(lines).Ok?
    ensures var st := Replay(lines).value;
      Load(t, u, lines) == Ok(CsaFile(t, u, st.pos.board, st.pos.hands, st.endTime, Scores(st.pos.board)))
  {
  }

  /** A position block replays without error, with no counter moved and
      no end time. */
  lemma BlockHands(version: string, rows: seq<seq<string>>)
    requires IsVersion(version)
    requires |rows| == 9 && forall r :: 0 <= r < 9 ==> ValidCells(rows[r])
    ensures var r := Replay(BlockLines(version, rows));
      r.Ok? && r.value.pos.hands == Initial().hands && r.value.endTime == None
  {
    var lines := BlockLines(version, rows);
    RowsOnly(lines);
    EndTimeIsLast(lines);
    NoEndTimeInBlock(lines);
  }

  /** The board a position block replays to. */
  lemma BlockCells(version: string, rows: seq<seq<string>>)
    requires IsVersion(version)
    requires |rows| == 9 && forall r :: 0 <= r < 9 ==> ValidCells(rows[r])
    ensures Replay(BlockLines(version, rows)).Ok?
    ensures var board := Replay(BlockLines(version, rows)).value.pos.board;
      && (forall f, k :: 1 <= f <= 9 && 1 <= k <= 9 ==> board[Square(f, k)] == rows[k - 1][9 - f])
      && (forall i :: 0 <= i < BoardSize && (i < 10 || i % 10 == 0) ==> board[i] == "")
  {
    BlockBoard(version, rows);
    var board := Replay(BlockLines(version, rows)).value.pos.board;
    forall f, k | 1 <= f <= 9 && 1 <= k <= 9
      ensures board[Square(f, k)] == rows[k - 1][9 - f]
    {
      SquareParts(f, k);
      assert board[Square(f, k)] == BlockCellValue(rows, Square(f, k));
    }
    forall i | 0 <= i < BoardSize && (i < 10 || i % 10 == 0)
      ensures board[i] == ""
    {
      assert board[i] == BlockCellValue(rows, i);
    }
  }

  /** Reading back a position block: a version line followed by the rows
      P1 .. P9 puts row `r`'s cells on rank `r`, leftmost cell at file 9,
      leaves every other cell "", every counter zero and no end time. */
  lemma PositionBlockReadBack(t: string, u: string, version: string, rows: seq<seq<string>>)
    requires IsVersion(version)
    requires |rows| == 9 && forall r :: 0 <= r < 9 ==> ValidCells(rows[r])
    ensures var r := Load(t, u, BlockLines(version, rows));
      && r.Ok?
      && r.value.hands == Initial().hands
      && r.value.endTime == None
      && (forall f, k :: 1 <= f <= 9 && 1 <= k <= 9 ==> r.value.board[Square(f, k)] == rows[k - 1][9 - f])
      && (forall i :: 0 <= i < BoardSize && (i < 10 || i % 10 == 0) ==> r.value.board[i] == "")
  {
    BlockHands(version, rows);
    BlockCells(version, rows);
    LoadedRecord(t, u, BlockLines(version, rows));
  }

  /** No line of a position block is an end-time line. */
  lemma {:induction false} NoEndTimeInBlock(lines: seq<string>)
    requires forall i :: 0 <= i < |lines| ==> !Classify(lines[i]).EndTimeLine?
    ensures LastEndTime(lines) == None
  {
    if |lines| > 0 {
      var init := lines[..|lines| - 1];
      assert forall i :: 0 <= i < |init| ==> init[i] == lines[i];
      NoEndTimeInBlock(init);
    }
  }

  /** Cell `i` after the version line and the first `n` rows of a block. */
  lemma {:induction false} BlockCell(version: string, rows: seq<seq<string>>, n: nat, i: nat)
    requires IsVersion(version)
    requires n <= |rows| == 9 && forall r :: 0 <= r < 9 ==> ValidCells(rows[r])
    requires i < BoardSize
    ensures LastRowCell([version] + RowLines(rows)[..n], i) ==
      if 10 <= i && 1 <= i % 10 <= n then rows[i % 10 - 1][9 - i / 10] else ""
  {
    var all := RowLines(rows);
    var lines := [version] + all[..n];
    if n == 0 {
      VersionIsOther(version);
      assert lines[..0] == [];
    } else {
      assert lines[..|lines| - 1] == [version] + all[..n - 1];
      assert lines[|lines| - 1] == all[n - 1];
      assert Classify(all[n - 1]) == PositionRow(n, rows[n - 1]);
      BlockCell(version, rows, n - 1, i);
    }
  }
}
