/** Piece codes as the record writes them: a side sign followed by a
    two-letter kind ("+FU", "-RY"), the blank cell " * ", the fifteen
    hand-counter slots and the entering-king point values. */
module Pieces {

  /** A value that may be absent: a counter slot or a kind that may not exist. */
  datatype Option<T> = None | Some(value: T)

  /** The mover of a line: `+` is Black (sente), `-` is White (gote). */
  datatype Side = Black | White

  function Sign(side: Side): char {
    if side == Black then '+' else '-'
  }

  function Opponent(side: Side): Side {
    if side == Black then White else Black
  }

  /** The code a position row uses for an empty square. */
  const Blank: string := " * "

  /** Number of hand-counter slots: slot 0 is unused, 1-7 are Black's, 8-14 White's. */
  const HandSize: nat := 15

  /** The seven kinds that can be held, in slot order. */
  const HandKinds: seq<string> := ["HI", "KA", "KI", "GI", "KE", "KY", "FU"]

  /** Slot of `HandKinds[0]` minus one, for each side. */
  function SlotBase(side: Side): nat {
    if side == Black then 0 else 7
  }

  /** The counter a drop of `piece` by `side` takes from; None when the
      kind cannot be dropped. */
  function DropSlot(side: Side, piece: string): (slot: Option<nat>)
    ensures slot.Some? <==> piece in HandKinds
    ensures slot.Some? ==>
      && SlotBase(side) < slot.value <= SlotBase(side) + 7
      && HandKinds[slot.value - SlotBase(side) - 1] == piece
  {
    var base := SlotBase(side);
    if piece == "FU" then Some(base + 7)
    else if piece == "KY" then Some(base + 6)
    else if piece == "KE" then Some(base + 5)
    else if piece == "GI" then Some(base + 4)
    else if piece == "KI" then Some(base + 3)
    else if piece == "KA" then Some(base + 2)
    else if piece == "HI" then Some(base + 1)
    else None
  }

  /** The six promoted kinds. */
  const PromotedKinds: seq<string> := ["TO", "NY", "NK", "NG", "UM", "RY"]

  /** The base kind a captured piece reverts to; None for the king and for
      anything that is not a kind code. */
  function Demote(kind: string): (base: Option<string>)
    ensures base.Some? ==> base.value in HandKinds
    ensures base.None? <==> kind !in HandKinds && kind !in PromotedKinds
    ensures kind in HandKinds ==> base == Some(kind)
    ensures && (kind == "TO" ==> base == Some("FU"))
            && (kind == "NY" ==> base == Some("KY"))
            && (kind == "NK" ==> base == Some("KE"))
            && (kind == "NG" ==> base == Some("GI"))
            && (kind == "UM" ==> base == Some("KA"))
            && (kind == "RY" ==> base == Some("HI"))
  {
    if kind in HandKinds then Some(kind)
    else if kind == "TO" then Some("FU")
    else if kind == "NY" then Some("KY")
    else if kind == "NK" then Some("KE")
    else if kind == "NG" then Some("GI")
    else if kind == "UM" then Some("KA")
    else if kind == "RY" then Some("HI")
    else None
  }

  /** `code` is a piece of `side` whose kind demotes to a holdable kind. */
  predicate IsHoldable(side: Side, code: string) {
    |code| == 3 && code[0] == Sign(side) && Demote(code[1..]).Some?
  }

  /** The counter a move by `mover` onto a square holding `target` adds to;
      None when nothing is captured into hand (a blank, the mover's own
      piece, the opponent's king, or an unknown code). */
  function CaptureSlot(mover: Side, target: string): (slot: Option<nat>)
    ensures slot.Some? <==> IsHoldable(Opponent(mover), target)
    ensures slot.Some? ==> slot == DropSlot(mover, Demote(target[1..]).value)
  {
    if |target| != 3 || target[0] != Sign(Opponent(mover)) then None
    else
      var kind := target[1..];
      var base := SlotBase(mover);
      if kind == "FU" || kind == "TO" then Some(base + 7)
      else if kind == "KY" || kind == "NY" then Some(base + 6)
      else if kind == "KE" || kind == "NK" then Some(base + 5)
      else if kind == "GI" || kind == "NG" then Some(base + 4)
      else if kind == "KI" then Some(base + 3)
      else if kind == "KA" || kind == "UM" then Some(base + 2)
      else if kind == "HI" || kind == "RY" then Some(base + 1)
      else None
  }

  /** Entering-king points of a Black piece standing in ranks 1-3. */
  function BlackPoints(code: string): (p: nat)
    ensures p <= 5
  {
    if code in {"+FU", "+KY", "+KE", "+GI", "+KI", "+TO", "+NY", "+NK", "+NG"} then 1
    else if code in {"+KA", "+HI", "+UM", "+RY"} then 5
    else 0
  }

  /** Entering-king points of a White piece standing in ranks 7-9. */
  function WhitePoints(code: string): (p: nat)
    ensures p <= 5
  {
    if code in {"-FU", "-KY", "-KE", "-GI", "-KI", "-TO", "-NY", "-NK", "-NG"} then 1
    else if code in {"-KA", "-HI", "-UM", "-RY"} then 5
    else 0
  }

  function Points(side: Side, code: string): nat {
    if side == Black then BlackPoints(code) else WhitePoints(code)
  }

  /** The entering-king rule stated through demotion: a piece is worth 5
      when it is a bishop or rook in either state, 1 for any other
      holdable kind, and the king or a non-piece is worth nothing. */
  lemma PointsByBaseKind(side: Side, code: string)
    ensures Points(side, code) ==
      if !IsHoldable(side, code) then 0
      else if Demote(code[1..]).value in {"KA", "HI"} then 5
      else 1
  {
    if |code| == 3 {
      var kind := code[1..];
      assert code == [code[0]] + kind;
      if code[0] == Sign(side) {
        KindPoints(side, kind);
      }
    }
  }

  /** The points of `side`'s code for `kind`, one kind at a time. */
  lemma KindPoints(side: Side, kind: string)
    ensures Points(side, [Sign(side)] + kind) ==
      if Demote(kind).None? then 0
      else if Demote(kind).value in {"KA", "HI"} then 5
      else 1
  {
    if |kind| == 2 {
      var code := [Sign(side)] + kind;
      assert code == [Sign(side), kind[0], kind[1]];
      assert kind == [kind[0], kind[1]];
      if side == Black {
        assert code == ['+', kind[0], kind[1]];
      } else {
        assert code == ['-', kind[0], kind[1]];
      }
    }
  }

  /** Promotion is invisible to the score: a promoted code and its base
      code earn the same points. */
  lemma PromotionKeepsPoints(side: Side, promoted: string)
    requires Demote(promoted).Some?
    ensures Points(side, [Sign(side)] + promoted) == Points(side, [Sign(side)] + Demote(promoted).value)
  {
    KindPoints(side, promoted);
    KindPoints(side, Demote(promoted).value);
  }
}
