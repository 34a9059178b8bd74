# CSA record replay — a Dafny model

This project models the record-replay engine of `CsaFile.load` from the
entering-king score viewer. The engine reads a shogi game record in CSA
format and rebuilds three things: the final board, the captured-piece
counters and the entering-king score. The model starts from the record's
lines, already fetched and decoded. It covers:

- **Line classification** (`Lines`). Four anchored patterns are recognised:
  - the version line `V[\d.]+`;
  - the position row `P<rank>` followed by nine 3-character cells;
  - the move line `[+-]SSDDKK`;
  - the end-time line `'$END_TIME:YYYY/MM/DD hh:mm:ss`.

  A line is tagged with the first shape it matches, and a line of no
  shape is ignored. Each shape has a formatter, and round-trip lemmas in
  both directions show that the classifier accepts exactly what the
  formatters write and reads it back.
- **Position rows** (`Board.PutRow`). A row overwrites the nine cells of
  one rank. Its leftmost cell goes to file 9 and its rightmost to file 1.
- **Moves** (`Board.ApplyMove`). A move is applied in three steps, in the
  code's order:
  1. Drop accounting: a drop of one of the seven holdable kinds takes one
     from the mover's counter, with no check against zero. Any other
     dropped kind fails.
  2. Capture accounting: capturing an opponent piece other than the king
     adds one to the mover's counter for that piece's base kind.
  3. Relocation: the source cell becomes `" * "` and the destination gets
     the piece. Slot 0 also becomes `" * "` after a drop.

  A board move from a cell holding exactly `" * "` fails. A cell no row
  wrote still holds `""`, and a move out of it goes through.
- **The score sweep** (`Score`). A single pass over the 100 cells gives the
  score `[0, black, white]`:
  - a Black piece in ranks 1-3 earns 1, or 5 for a bishop or rook in either
    state;
  - a White piece in ranks 7-9 earns the same, mirrored;
  - a king earns nothing, and nothing else counts.
- **The load** (`Loader`). The load runs in three stages:
  1. Line 0 must be a version line, otherwise the load fails with no record.
  2. Every line, line 0 included, is folded through `Step`. The first
     error aborts the whole load.
  3. The score is swept off the final board.

The board is a `seq<string>` of 100 cells indexed `file * 10 + rank`. The
counters are a `seq<int>` of 15 slots: slot 0 is unused, slots 1-7 hold
Black's HI, KA, KI, GI, KE, KY, FU, and slots 8-14 hold the same kinds for
White. Errors are values of `Errors.LoadError`, not exceptions:
`NotCsa(line)`, `EmptySource(move)` and `UnknownDrop(side, kind)`.

**Where the code and the format description disagree, the model follows
the code.** The record format's description says a board move places the
notated piece, so a promotion would take effect. The code instead writes
the piece read from the source square (csa_file.py:114, :201), so the
notated kind of a board move is never consulted. `Pieces.PromotionKeepsPoints`
and `Pieces.CaptureSlot` show why this goes unnoticed in the score and the
counters: a promoted piece and its base piece earn the same points and
demote to the same counter.

Modules: `Text` (digits, `int()`, `split`/`join`), `Pieces` (codes,
counter slots, demotion, points), `Errors`, `Lines`, `Board`, `Score`,
`Loader`.

## Model

| member | source | states |
|---|---|---|
| Text.JoinSplit | csa_file.py:81 | splitting the text at newlines loses nothing: joining the pieces gives the text back |
| Text.SplitJoin | csa_file.py:81 | splitting the join of newline-free lines gives exactly those lines |
| Text.ParsePad | csa_file.py:111-112 | `int()` of a zero-padded square number reads back the number |
| Text.PadParse | csa_file.py:111-112 | a digit string is the padding of its own value, so two different two-digit fields never name the same square |
| Pieces.DropSlot | csa_file.py:121-157 | a drop has a counter exactly when the kind is one of HI, KA, KI, GI, KE, KY, FU; that counter lies in the mover's range (1-7 Black, 8-14 White), in that kind order |
| Pieces.Demote | csa_file.py:160-193 | a base kind reverts to itself, TO to FU, NY to KY, NK to KE, NG to GI, UM to KA and RY to HI; the king and any other code have none |
| Pieces.CaptureSlot | csa_file.py:160-193 | a capture adds to a counter exactly when the target is an opponent piece whose kind demotes; that counter is the mover's drop counter for the demoted kind |
| Pieces.PointsByBaseKind | csa_file.py:228-245 | a piece of the scoring side is worth 5 when its base kind is bishop or rook, 1 for any other holdable kind; the king and non-pieces are worth 0 |
| Pieces.PromotionKeepsPoints | csa_file.py:230-242 | a promoted code and its base code earn the same points |
| Lines.Classify | csa_file.py:92-219 | the tag is a position row iff the row pattern matches; a move iff the move pattern matches and the row pattern does not; an end time iff only the end-time pattern matches; the values read are in range |
| Lines.VersionIsOther | csa_file.py:82-92 | a version line matches none of the dispatched shapes, so line 0 falls through the dispatch unchanged |
| Lines.ClassifyFormatRow | csa_file.py:20 | a formatted position row is classified as that rank and those nine cells |
| Lines.ClassifyFormatMove | csa_file.py:25 | a formatted move is classified as that move |
| Lines.ClassifyFormatEndTime | csa_file.py:29 | a formatted end time is classified as that time |
| Lines.FormatClassifiedRow | csa_file.py:20 | every line classified as a row is the formatting of what was read |
| Lines.FormatClassifiedMove | csa_file.py:25 | every line classified as a move is the formatting of what was read |
| Lines.FormatClassifiedEndTime | csa_file.py:29 | every line classified as an end time is the formatting of what was read |
| Lines.TripleFormatRead | csa_file.py:212-218 | the three padded fields of a date or clock part read back as the three numbers |
| Lines.TripleReadFormat | csa_file.py:212-218 | a date or clock part is the padding of the three numbers read from it |
| Board.Initial | csa_file.py:48-51 | the state before the first line has 100 cells and 15 counters |
| Board.PutRow | csa_file.py:92-105 | a row for rank r writes cell j to file 9-j of rank r; every other cell and every counter is unchanged |
| Board.ApplyMove | csa_file.py:108-206 | fails iff a board move's source holds `" * "` or a dropped kind is not holdable, with the matching error; otherwise the destination gets the source's piece (or the dropped code), a distinct source becomes `" * "`, all other cells are unchanged, and each counter moves by exactly its capture gain minus its drop cost |
| Board.DropTakesOne | csa_file.py:121-157 | a drop with nothing to capture takes exactly one from the mover's counter for the kind and places the mover's code for the kind |
| Board.CaptureAddsBaseKind | csa_file.py:160-193 | capturing an opponent's non-king piece adds one to the mover's counter for its base kind and changes no other counter |
| Board.NoCaptureKeepsHands | csa_file.py:160-193 | a board move onto a blank, an unwritten cell, an own piece or the opponent's king leaves every counter alone |
| Board.SelfMoveKeepsBoard | csa_file.py:197-201 | a board move whose source equals its destination leaves the board unchanged |
| Board.UnwrittenSourceMoves | csa_file.py:114-118 | a move out of a cell still holding `""` succeeds and carries `""` to the destination |
| Board.DropFromEmptyHand | csa_file.py:124-125 | a Black pawn drop from an empty hand leaves that counter at -1 |
| Score.Tally | csa_file.py:225-247 | one cell adds its zone points to Black's slot and to White's slot, and slot 0 is untouched |
| Score.Sweep | csa_file.py:224-247 | after n cells slot 0 is 0 and each side's score lies between 0 and 5n |
| Score.Scores | csa_file.py:42 | the score has three slots, slot 0 stays 0 and both scores are non-negative |
| Score.SweepIsZoneSum | csa_file.py:224-247 | each side's score is the sum over all cells of the points the cell earns in that side's zone |
| Score.NoPointsNoScore | csa_file.py:224-247 | a side that no cell earns a point scores zero |
| Score.SweepUpdate | csa_file.py:224-247 | rewriting one cell changes each side's score by exactly that cell's change in points |
| Score.NeutralRankIgnored | csa_file.py:246-247 | what stands in ranks 0 and 4-6 never changes the score |
| Score.UnwrittenBoardScoresZero | csa_file.py:48 | the initial board of empty strings scores `[0, 0, 0]` |
| Score.PawnAndRookExample | csa_file.py:228-233 | a Black pawn on rank 2 and a Black rook on rank 1, with no other scoring cell, score `[0, 6, 0]` |
| Loader.Step | csa_file.py:91-221 | only a move line can fail; a row changes only the board, an end time only the end time, and an unmatched line nothing |
| Loader.Replay | csa_file.py:81-221 | the fold keeps a well-formed state and never produces the not-a-record error |
| Loader.Load | csa_file.py:81-249 | fails as not a record iff there is no line 0 or it is not a version line; succeeds iff line 0 is a version line and the replay succeeds; the record carries the tournament, the url, a 100-cell board, 15 counters and the score of its own board |
| Loader.LoadText | csa_file.py:81-89 | a text fails as not a record iff its first line is not a version line |
| Loader.LoadJoined | csa_file.py:81 | loading the text of newline-free lines is loading those lines |
| Loader.LoadedRecord | csa_file.py:66-68 | a successful load returns the replayed board, counters and end time with the given tournament and url |
| Loader.IgnoredLine | csa_file.py:221 | a line of no recognised shape changes nothing |
| Loader.ErrorIsFinal | csa_file.py:117-118 | once a line has failed, no later lines change the outcome |
| Loader.BlankSourceAborts | csa_file.py:117-118 | a move out of a `" * "` cell fails the whole load with that move's error, whatever follows |
| Loader.EndTimeIsLast | csa_file.py:209-219 | the recorded end time is the one on the last end-time line, or none |
| Loader.RowStep | csa_file.py:92-105 | a line that is not a move succeeds, keeps the counters and rewrites only the cells its row covers |
| Loader.RowsOnly | csa_file.py:92-105 | with no move lines the replay succeeds, every counter stays 0 and each cell holds what the last row for its rank wrote there |
| Loader.BlockHands | csa_file.py:51 | a version line and rows P1-P9 replay with every counter at 0 and no end time |
| Loader.BlockCells | csa_file.py:92-105 | after rows P1-P9, row k's cell j stands at file 9-j of rank k, and the rank-0 and low cells stay `""` |
| Loader.PositionBlockReadBack | csa_file.py:92-105 | loading a version line and rows P1-P9 gives that board, zero counters and no end time |

## Left out

- The fetch and decode (csa_file.py:71-79) are network I/O and a character-set choice. The model takes the decoded lines, or the decoded text in `Loader.LoadText`.
- `printBoard` (csa_file.py:284-412) only renders to the console.
- main.py is a polling loop around sleeping, clearing the screen and printing.
- Loader.Step: an end-time line never fails here. The code builds a `datetime`, which raises on an impossible calendar date (month 13, day 0, year 0). The time is kept as six raw numbers with no calendar check.
- The `hands` property (csa_file.py:274-277) zeroes the counters and returns nothing, so it is not an accessor. The model exposes the counters directly as `CsaFile.hands`.
- The `_version` field (csa_file.py:39) is never written by the load, so it is not part of the record.
- The phase error at csa_file.py:194-195 cannot be reached, because the move pattern admits only `+` and `-`.
- Exception message texts are not modelled. Each error carries the data its message shows.
- Loader.Load: an empty list of lines fails as not a record with an empty found line, as the text "" does. The code's own loop would return a record for an empty list, but splitting a text never yields one.
- Lines.Classify: `\d` and `\w` are taken on ASCII characters only. Python's Unicode digits and word characters are not modelled.
- Lines.Classify: `$` matching before a final newline is not modelled, because no line produced by the split contains a newline.
