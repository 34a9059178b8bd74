/** The entering-king score: one sweep over all 100 cells of the final
    board. A Black piece in ranks 1-3 and a White piece in ranks 7-9 earn
    their side points (king 0, bishop and rook in either state 5, anything
    else 1); ranks 0 and 4-6 earn nothing. The result keeps the reader's
    three-slot layout `[0, black, white]`. */
module Score {
  import opened Pieces
  import opened Board

  predicate InBlackZone(sq: nat) {
    0 < sq % 10 <= 3
  }

  predicate InWhiteZone(sq: nat) {
    6 < sq % 10 <= 9
  }

  /** What the cell at `sq` holding `code` adds to `side`'s score. */
  function CellPoints(side: Side, sq: nat, code: string): nat {
    if side == Black then (if InBlackZone(sq) then BlackPoints(code) else 0)
    else (if InWhiteZone(sq) then WhitePoints(code) else 0)
  }

  /** One cell of the sweep: a cell in ranks 1-3 can only add to Black, one
      in ranks 7-9 only to White, any other cell to neither. */
  function Tally(s: seq<int>, sq: nat, pc: string): (t: seq<int>)
    requires |s| == 3
    ensures |t| == 3 && t[0] == s[0]
    ensures t[1] == s[1] + CellPoints(Black, sq, pc)
    ensures t[2] == s[2] + CellPoints(White, sq, pc)
  {
    var rank := sq % 10;
    if 0 < rank <= 3 then [s[0], s[1] + BlackPoints(pc), s[2]]
    else if 6 < rank <= 9 then [s[0], s[1], s[2] + WhitePoints(pc)]
    else s
  }

  /** The sweep over cells `0 .. n-1`, in the reader's order. */
  function Sweep(board: seq<string>, n: nat): (s: seq<int>)
    requires n <= |board|
    ensures |s| == 3 && s[0] == 0
    ensures 0 <= s[1] <= 5 * n && 0 <= s[2] <= 5 * n
  {
    if n == 0 then [0, 0, 0] else Tally(Sweep(board, n - 1), n - 1, board[n - 1])
  }

  /** Slot of `side` in the score list. */
  function Slot(side: Side): nat {
    if side == Black then 1 else 2
  }

  function Scores(board: seq<string>): (s: seq<int>)
    requires |board| == BoardSize
    ensures |s| == 3 && s[0] == 0 && s[1] >= 0 && s[2] >= 0
  {
    Sweep(board, BoardSize)
  }

  /** `side`'s points summed over cells `0 .. n-1`, one cell at a time. */
  function ZoneSum(board: seq<string>, side: Side, n: nat): nat
    requires n <= |board|
  {
    if n == 0 then 0 else ZoneSum(board, side, n - 1) + CellPoints(side, n - 1, board[n - 1])
  }

  /** The sweep's branch chain adds up exactly each side's zone points. */
  lemma {:induction false} SweepIsZoneSum(board: seq<string>, n: nat, side: Side)
    requires n <= |board|
    ensures Sweep(board, n)[Slot(side)] == ZoneSum(board, side, n)
  {
    if n > 0 {
      SweepIsZoneSum(board, n - 1, side);
    }
  }

  /** A side scores nothing when none of the swept cells earns it a point. */
  lemma {:induction false} NoPointsNoScore(board: seq<string>, n: nat, side: Side)
    requires n <= |board|
    requires forall sq :: 0 <= sq < n ==> CellPoints(side, sq, board[sq]) == 0
    ensures Sweep(board, n)[Slot(side)] == 0
  {
    if n > 0 {
      NoPointsNoScore(board, n - 1, side);
      assert CellPoints(side, n - 1, board[n - 1]) == 0;
    }
  }

  /** Rewriting one cell changes each side's score by exactly the change in
      that cell's points: the sweep is a sum of independent cell values. */
  lemma {:induction false} SweepUpdate(board: seq<string>, n: nat, i: nat, code: string, side: Side)
    requires i < n <= |board|
    ensures Sweep(board[i := code], n)[Slot(side)] ==
      Sweep(board, n)[Slot(side)] - CellPoints(side, i, board[i]) + CellPoints(side, i, code)
  {
    var b := board[i := code];
    if i == n - 1 {
      SweepPrefix(board, b, n - 1);
      assert Sweep(b, n) == Tally(Sweep(board, n - 1), i, code);
      assert Sweep(board, n) == Tally(Sweep(board, n - 1), i, board[i]);
    } else {
      SweepUpdate(board, n - 1, i, code, side);
      assert Sweep(b, n) == Tally(Sweep(b, n - 1), n - 1, board[n - 1]);
    }
  }

  /** The sweep of the first `n` cells reads only those cells. */
  lemma {:induction false} SweepPrefix(a: seq<string>, b: seq<string>, n: nat)
    requires n <= |a| && n <= |b|
    requires forall sq :: 0 <= sq < n ==> a[sq] == b[sq]
    ensures Sweep(a, n) == Sweep(b, n)
  {
    if n > 0 {
      SweepPrefix(a, b, n - 1);
    }
  }

  /** Ranks 0 and 4-6 are outside both zones: what stands there never
      changes the score. */
  lemma NeutralRankIgnored(board: seq<string>, i: nat, code: string)
    requires |board| == BoardSize && i < BoardSize
    requires !InBlackZone(i) && !InWhiteZone(i)
    ensures Scores(board[i := code]) == Scores(board)
  {
    SweepUpdate(board, BoardSize, i, code, Black);
    SweepUpdate(board, BoardSize, i, code, White);
  }

  /** A board whose cells are all the empty string scores zero for both. */
  lemma UnwrittenBoardScoresZero()
    ensures Scores(Initial().board) == [0, 0, 0]
  {
    var b := Initial().board;
    NoPointsNoScore(b, BoardSize, Black);
    NoPointsNoScore(b, BoardSize, White);
  }

  /** A Black pawn on rank 2 and a Black rook on rank 1, with no other
      cell earning either side a point: 1 + 5 for Black, none for White. */
  lemma PawnAndRookExample(board: seq<string>, pawn: nat, rook: nat)
    requires |board| == BoardSize && pawn < BoardSize && rook < BoardSize
    requires pawn % 10 == 2 && rook % 10 == 1
    requires board[pawn] == "+FU" && board[rook] == "+HI"
    requires forall sq :: 0 <= sq < BoardSize && sq != pawn && sq != rook ==>
      CellPoints(Black, sq, board[sq]) == 0
    requires forall sq :: 0 <= sq < BoardSize ==> CellPoints(White, sq, board[sq]) == 0
    ensures Scores(board) == [0, 6, 0]
  {
    var b0 := board[pawn := ""][rook := ""];
    var b1 := b0[pawn := "+FU"];
    assert forall sq :: 0 <= sq < BoardSize ==> CellPoints(Black, sq, b0[sq]) == 0;
    assert forall sq :: 0 <= sq < BoardSize ==> CellPoints(White, sq, b0[sq]) == 0;
    NoPointsNoScore(b0, BoardSize, Black);
    NoPointsNoScore(b0, BoardSize, White);
    SweepUpdate(b0, BoardSize, pawn, "+FU", Black);
    SweepUpdate(b0, BoardSize, pawn, "+FU", White);
    SweepUpdate(b1, BoardSize, rook, "+HI", Black);
    SweepUpdate(b1, BoardSize, rook, "+HI", White);
    assert b1[rook := "+HI"] == board;
  }
}
