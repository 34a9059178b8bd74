/** The mutable state of a load: a flat board of 100 cells indexed
    `file * 10 + rank` (only files and ranks 1-9 are written by position
    rows, but a move may name any two-digit square) and fifteen hand
    counters. Position rows overwrite one rank; a move does drop
    accounting, capture accounting and relocation, in that order. */
module Board {
  import opened Pieces
  import opened Lines
  import opened Errors

  const BoardSize: nat := 100

  datatype Position = Position(board: seq<string>, hands: seq<int>) {
    predicate Valid() {
      |board| == BoardSize && |hands| == HandSize
    }
  }

  function Square(file: nat, rank: nat): nat {
    file * 10 + rank
  }

  /** A square's file and rank are read back by `/ 10` and `% 10`. */
  lemma SquareParts(file: nat, rank: nat)
    requires rank < 10
    ensures Square(file, rank) / 10 == file && Square(file, rank) % 10 == rank
  {
  }

  /** The state before the first line: every cell the empty string (not the
      blank code) and every counter zero. */
  function Initial(): (p: Position)
    ensures p.Valid()
  {
    Position(seq(BoardSize, _ => ""), seq(HandSize, _ => 0))
  }

  // ---- Position rows ----------------------------------------------------

  /** A position row for `rank`: the leftmost cell is file 9, the rightmost
      file 1. Only the nine squares of that rank with files 1-9 change. */
  function PutRow(p: Position, rank: nat, cells: seq<string>): (r: Position)
    requires p.Valid() && rank <= 9 && |cells| == 9
    ensures r.Valid() && r.hands == p.hands
    ensures forall f :: 1 <= f <= 9 ==> r.board[Square(f, rank)] == cells[9 - f]
    ensures forall i :: 0 <= i < BoardSize && (i < 10 || i % 10 != rank) ==> r.board[i] == p.board[i]
  {
    var board := seq(BoardSize, i requires 0 <= i < BoardSize =>
      if 10 <= i && i % 10 == rank then cells[9 - i / 10] else p.board[i]);
    assert forall f :: 1 <= f <= 9 ==> board[Square(f, rank)] == cells[9 - f] by {
      forall f | 1 <= f <= 9 ensures board[Square(f, rank)] == cells[9 - f] {
        SquareParts(f, rank);
      }
    }
    p.(board := board)
  }

  // ---- Moves ------------------------------------------------------------

  /** The code written to the destination: for a drop, the mover's sign and
      the notated kind; for a board move, whatever the source square held
      (the notated kind, and with it any promotion, is not consulted). */
  function MovedPiece(p: Position, m: Move): string
    requires p.Valid() && m.Valid()
  {
    if m.IsDrop() then [Sign(m.side)] + m.piece else p.board[m.source]
  }

  /** 1 at the counter a drop takes from, 0 elsewhere. */
  function DropCost(m: Move, slot: nat): int {
    if m.IsDrop() && DropSlot(m.side, m.piece) == Some(slot) then 1 else 0
  }

  /** 1 at the counter a capture of `target` by `mover` adds to, 0 elsewhere. */
  function CaptureGain(mover: Side, target: string, slot: nat): int {
    if CaptureSlot(mover, target) == Some(slot) then 1 else 0
  }

  /** Adds `delta` to one counter when `slot` is present. */
  function Bump(hands: seq<int>, slot: Option<nat>, delta: int): (h: seq<int>)
    requires slot.Some? ==> slot.value < |hands|
    ensures |h| == |hands|
    ensures forall k :: 0 <= k < |h| ==> h[k] == hands[k] + (if slot == Some(k) then delta else 0)
  {
    if slot.Some? then hands[slot.value := hands[slot.value] + delta] else hands
  }

  /** One move line applied to the position. */
  function ApplyMove(p: Position, m: Move): (r: Result<Position>)
    requires p.Valid() && m.Valid()
    ensures r.Err? <==>
      || (!m.IsDrop() && p.board[m.source] == Blank)
      || (m.IsDrop() && m.piece !in HandKinds)
    ensures r.Err? ==>
      r.error == if m.IsDrop() then UnknownDrop(m.side, m.piece) else EmptySource(m)
    ensures r.Ok? ==> r.value.Valid()
    ensures r.Ok? ==> r.value.board[m.destination] == MovedPiece(p, m)
    ensures r.Ok? && m.source != m.destination ==> r.value.board[m.source] == Blank
    ensures r.Ok? ==> forall i :: 0 <= i < BoardSize && i != m.source && i != m.destination ==>
      r.value.board[i] == p.board[i]
    ensures r.Ok? ==> forall k :: 0 <= k < HandSize ==>
      r.value.hands[k] == p.hands[k] - DropCost(m, k) + CaptureGain(m.side, p.board[m.destination], k)
  {
    if !m.IsDrop() && p.board[m.source] == Blank then
      Err(EmptySource(m))
    else if m.IsDrop() && DropSlot(m.side, m.piece).None? then
      Err(UnknownDrop(m.side, m.piece))
    else
      var dropped := if m.IsDrop() then Bump(p.hands, DropSlot(m.side, m.piece), -1) else p.hands;
      var target := p.board[m.destination];
      var hands := Bump(dropped, CaptureSlot(m.side, target), 1);
      var placed := MovedPiece(p, m);
      var board := p.board[m.source := Blank][m.destination := placed];
      Ok(Position(board, hands))
  }

  // ---- Consequences ------------------------------------------------------

  /** A drop of a holdable kind onto a square that holds no capturable
      piece takes exactly one from the mover's counter for that kind,
      whatever its value (there is no check against zero), and puts a fresh
      piece of the mover's sign there. */
  lemma DropTakesOne(p: Position, m: Move)
    requires p.Valid() && m.Valid() && m.IsDrop() && m.piece in HandKinds
    requires CaptureSlot(m.side, p.board[m.destination]).None?
    ensures ApplyMove(p, m).Ok?
    ensures var slot := DropSlot(m.side, m.piece).value;
      ApplyMove(p, m).value.hands == p.hands[slot := p.hands[slot] - 1]
    ensures ApplyMove(p, m).value.board[m.destination] == [Sign(m.side)] + m.piece
  {
    var r := ApplyMove(p, m).value;
    var slot := DropSlot(m.side, m.piece).value;
    assert forall k :: 0 <= k < HandSize ==> r.hands[k] == p.hands[slot := p.hands[slot] - 1][k];
  }

  /** Moving onto an opponent piece other than the king adds one to the
      mover's counter for the captured piece's base kind, and to no other. */
  lemma CaptureAddsBaseKind(p: Position, m: Move)
    requires p.Valid() && m.Valid() && !m.IsDrop() && p.board[m.source] != Blank
    requires IsHoldable(Opponent(m.side), p.board[m.destination])
    ensures ApplyMove(p, m).Ok?
    ensures var slot := DropSlot(m.side, Demote(p.board[m.destination][1..]).value).value;
      ApplyMove(p, m).value.hands == p.hands[slot := p.hands[slot] + 1]
  {
    var r := ApplyMove(p, m).value;
    var slot := DropSlot(m.side, Demote(p.board[m.destination][1..]).value).value;
    assert forall k :: 0 <= k < HandSize ==> r.hands[k] == p.hands[slot := p.hands[slot] + 1][k];
  }

  /** A board move onto a blank, an empty-string cell, the mover's own
      piece or the opponent's king leaves every counter alone. */
  lemma NoCaptureKeepsHands(p: Position, m: Move)
    requires p.Valid() && m.Valid() && !m.IsDrop() && p.board[m.source] != Blank
    requires !IsHoldable(Opponent(m.side), p.board[m.destination])
    ensures ApplyMove(p, m).Ok? && ApplyMove(p, m).value.hands == p.hands
  {
    var r := ApplyMove(p, m).value;
    assert forall k :: 0 <= k < HandSize ==> r.hands[k] == p.hands[k];
  }

  /** The source is cleared before the destination is written, so a board
      move whose source and destination coincide leaves the board as it was. */
  lemma SelfMoveKeepsBoard(p: Position, m: Move)
    requires p.Valid() && m.Valid() && !m.IsDrop() && m.source == m.destination
    requires p.board[m.source] != Blank
    ensures ApplyMove(p, m).Ok? && ApplyMove(p, m).value.board == p.board
  {
    var r := ApplyMove(p, m).value;
    assert forall i :: 0 <= i < BoardSize ==> r.board[i] == p.board[i];
  }

  /** The emptiness check looks for the blank code only: a move out of a
      cell no position row wrote (still "") goes through and carries "". */
  lemma UnwrittenSourceMoves(p: Position, m: Move)
    requires p.Valid() && m.Valid() && !m.IsDrop() && p.board[m.source] == ""
    ensures ApplyMove(p, m).Ok? && ApplyMove(p, m).value.board[m.destination] == ""
  {
  }

  /** Counters can go negative: a Black pawn drop from an empty hand. */
  lemma DropFromEmptyHand()
    ensures var r := ApplyMove(Initial(), Move(Black, 0, 55, "FU"));
      r.Ok? && r.value.hands[7] == -1
  {
    var m := Move(Black, 0, 55, "FU");
    assert "" != Blank;
    assert CaptureSlot(Black, "") == None;
  }
}
