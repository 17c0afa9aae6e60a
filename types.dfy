/** The value types the position engine works with: colours, squares, piece
    types and pieces, bitboards, hands, moves and the precomputed attack
    tables. In the repository these live in their own modules (colour,
    square, piece, bitboard, hand, move, tables); here they are given just
    the behaviour the engine relies on. */
module Types {

  datatype Option<T> = None | Some(value: T)

  datatype Color = Black | White

  /** `!c`: the other side. */
  function Opp(c: Color): Color
  {
    if c == Black then White else Black
  }

  /** `Color::index`: the slot of a colour in a per-colour array. */
  function CI(c: Color): nat
  {
    if c == Black then 0 else 1
  }

  const COLOR_NUM: nat := 2

  /** `Color::ALL`, in iteration order. */
  const COLORS: seq<Color> := [Black, White]

  /** A square of the 9x9 board, numbered file by file: SQ11 is 0, SQ12 is 1, ..., SQ99 is 80. */
  type Square = i: int | 0 <= i < 81

  /** A square given by its file and rank, both counted from 1, as in `SQ76`. */
  function Sq(file: int, rank: int): Square
    requires 1 <= file <= 9 && 1 <= rank <= 9
  {
    (file - 1) * 9 + (rank - 1)
  }

  /** The squares occupied by some family of pieces: one bit per square. */
  type Bitboard = set<Square>

  /** The fourteen kinds of piece, unpromoted first. */
  datatype PieceType = FU | KY | KE | GI | KI | KA | HI | OU | TO | NY | NK | NG | UM | RY

  /** The slot of the synthetic OCCUPIED aggregate in the per-type bitboard array. */
  const OCCUPIED: nat := 0
  const PT_NUM: nat := 15

  /** `PieceType::index`: the slot of a piece type in the per-type bitboard array. */
  function PI(pt: PieceType): (i: nat)
    ensures OCCUPIED < i < PT_NUM
    ensures KindAt(i) == pt
  {
    match pt
    case FU => 1 case KY => 2 case KE => 3 case GI => 4 case KI => 5 case KA => 6 case HI => 7
    case OU => 8 case TO => 9 case NY => 10 case NK => 11 case NG => 12 case UM => 13 case RY => 14
  }

  /** The piece type stored in slot `i` (slot 0, OCCUPIED, read as FU); the inverse of PI. */
  function KindAt(i: nat): PieceType
  {
    if i <= 1 then FU else if i == 2 then KY else if i == 3 then KE else if i == 4 then GI
    else if i == 5 then KI else if i == 6 then KA else if i == 7 then HI else if i == 8 then OU
    else if i == 9 then TO else if i == 10 then NY else if i == 11 then NK else if i == 12 then NG
    else if i == 13 then UM else RY
  }

  /** `PieceType::ALL_HAND`: the piece types a hand can hold, in their fixed order. */
  const ALL_HAND: seq<PieceType> := [FU, KY, KE, GI, KI, KA, HI]

  /** The position of a hand type in ALL_HAND; -1 for the other types. */
  function HandSlot(pt: PieceType): int
  {
    match pt
    case FU => 0 case KY => 1 case KE => 2 case GI => 3 case KI => 4 case KA => 5 case HI => 6
    case _ => -1
  }

  lemma HandSlotOf(i: int)
    requires 0 <= i < |ALL_HAND|
    ensures HandSlot(ALL_HAND[i]) == i
    ensures DemotedType(ALL_HAND[i]) == ALL_HAND[i]
  {
    if i == 0 {} else if i == 1 {} else if i == 2 {} else if i == 3 {} else if i == 4 {} else if i == 5 {} else {}
  }

  function PromotedType(pt: PieceType): PieceType
  {
    match pt
    case FU => TO case KY => NY case KE => NK case GI => NG case KA => UM case HI => RY
    case _ => pt
  }

  function DemotedType(pt: PieceType): PieceType
  {
    match pt
    case TO => FU case NY => KY case NK => KE case NG => GI case UM => KA case RY => HI
    case _ => pt
  }

  /** A square's content: empty, or a piece of some colour and type. */
  datatype Piece = EMP | Pc(color: Color, kind: PieceType)

  function Promoted(p: Piece): Piece
  {
    match p
    case EMP => EMP
    case Pc(c, k) => Pc(c, PromotedType(k))
  }

  function Demoted(p: Piece): Piece
  {
    match p
    case EMP => EMP
    case Pc(c, k) => Pc(c, DemotedType(k))
  }

  /** A hand: how many pieces of each type a side holds off the board. */
  type Hand = multiset<PieceType>

  /** `Hand::num`. */
  function Num(h: Hand, pt: PieceType): nat
  {
    h[pt]
  }

  /** `Hand::increment`: a captured piece enters the hand as its base type. */
  function Increment(h: Hand, pt: PieceType): Hand
  {
    h + multiset{DemotedType(pt)}
  }

  /** `Hand::decrement`. */
  function Decrement(h: Hand, pt: PieceType): Hand
  {
    h - multiset{DemotedType(pt)}
  }

  /** A captured piece can be handed back: decrementing undoes incrementing. */
  lemma HandRoundTrip(h: Hand, pt: PieceType)
    ensures Decrement(Increment(h, pt), pt) == h
    ensures forall q :: Num(Increment(h, pt), q) == Num(h, q) + (if q == DemotedType(pt) then 1 else 0)
  {
  }

  /** A dropped piece can be taken back: incrementing undoes decrementing a held type. */
  lemma HandRefill(h: Hand, pt: PieceType)
    requires Num(h, DemotedType(pt)) > 0
    ensures Increment(Decrement(h, pt), pt) == h
    ensures forall q :: Num(Decrement(h, pt), q) == Num(h, q) - (if q == DemotedType(pt) then 1 else 0)
  {
  }

  /** A move value carries everything undo needs: the origin (absent for a
      drop), the destination, the promotion flag, the moving piece and the
      piece it captures (EMP when it captures nothing). */
  datatype Move =
    | Normal(from: Square, to: Square, promotion: bool, piece: Piece, captured: Piece)
    | Drop(to: Square, piece: Piece)

  /** The precomputed tables the engine queries but does not build.
      `attack(pt, sq, c, occ)`: squares a piece of type pt and colour c on sq attacks, given the occupancy.
      `pseudoAttack(pt, sq, c)`: the same on an empty board.
      `between(a, b)`: the squares strictly between a and b on a shared line. */
  datatype Tables = Tables(
    attack: (PieceType, Square, Color, Bitboard) -> Bitboard,
    pseudoAttack: (PieceType, Square, Color) -> Bitboard,
    between: (Square, Square) -> Bitboard)

  /** A pair indexed by colour, as `[T; Color::NUM]`. */
  datatype ByColor<T> = ByColor(black: T, white: T)
  {
    function Get(c: Color): T
    {
      if c == Black then black else white
    }

    function With(c: Color, v: T): ByColor<T>
    {
      if c == Black then this.(black := v) else this.(white := v)
    }
  }
}
