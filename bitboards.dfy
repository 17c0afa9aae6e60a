/** The bitboard index kept beside the board array: one bitboard per colour
    (`c_bb`), one per piece type plus the OCCUPIED aggregate (`pt_bb`), the
    invariant tying them to the array, and the read-only queries over them
    (`pieces_ps`, `king`, `attackers_to`). */
module Bitboards {
  import opened Types

  predicate Sized(cbb: seq<Bitboard>, ptbb: seq<Bitboard>)
  {
    |cbb| == COLOR_NUM && |ptbb| == PT_NUM
  }

  /** At square `sq` the bitboards say exactly what the board array says. */
  ghost predicate AgreesAt(board: seq<Piece>, cbb: seq<Bitboard>, ptbb: seq<Bitboard>, sq: Square)
    requires |board| == 81 && Sized(cbb, ptbb)
  {
    && (forall c: Color :: sq in cbb[CI(c)] <==> board[sq].Pc? && board[sq].color == c)
    && (forall pt: PieceType :: sq in ptbb[PI(pt)] <==> board[sq].Pc? && board[sq].kind == pt)
    && (sq in ptbb[OCCUPIED] <==> board[sq] != EMP)
  }

  /** The array is the truth and every bitboard agrees with it at every square. */
  ghost predicate Consistent(board: seq<Piece>, cbb: seq<Bitboard>, ptbb: seq<Bitboard>)
    requires |board| == 81 && Sized(cbb, ptbb)
  {
    forall sq: Square :: AgreesAt(board, cbb, ptbb, sq)
  }

  /** `bb ^= sq`: flips the one bit of `sq`. */
  function Toggle(bb: Bitboard, sq: Square): (r: Bitboard)
    ensures forall x :: x in r <==> (x in bb <==> x != sq)
  {
    if sq in bb then bb - {sq} else bb + {sq}
  }

  /** `pieces_ps`: the fold that ORs the bitboards of several piece types, in list order. */
  function UnionOf(ptbb: seq<Bitboard>, pts: seq<PieceType>): (r: Bitboard)
    requires |ptbb| == PT_NUM
    ensures forall i :: 0 <= i < |pts| ==> ptbb[PI(pts[i])] <= r
    ensures pts == [] ==> r == {}
    decreases |pts|
  {
    if pts == [] then {}
    else
      var init, last := pts[..|pts| - 1], pts[|pts| - 1];
      assert forall i :: 0 <= i < |pts| - 1 ==> pts[i] == init[i];
      UnionOf(ptbb, init) + ptbb[PI(last)]
  }

  /** A square is in the fold exactly when it is in the bitboard of one of the listed types. */
  lemma {:induction false} UnionOfMembers(ptbb: seq<Bitboard>, pts: seq<PieceType>, sq: Square)
    requires |ptbb| == PT_NUM
    ensures sq in UnionOf(ptbb, pts) <==> exists pt :: pt in pts && sq in ptbb[PI(pt)]
    decreases |pts|
  {
    if pts != [] {
      var init, last := pts[..|pts| - 1], pts[|pts| - 1];
      UnionOfMembers(ptbb, init, sq);
      assert forall pt :: pt in pts <==> pt in init || pt == last;
    }
  }

  /** On a consistent board the fold holds exactly the squares whose piece has one of the types. */
  lemma UnionOfOnBoard(board: seq<Piece>, cbb: seq<Bitboard>, ptbb: seq<Bitboard>, pts: seq<PieceType>)
    requires |board| == 81 && Sized(cbb, ptbb) && Consistent(board, cbb, ptbb)
    ensures forall sq: Square :: sq in UnionOf(ptbb, pts) <==> board[sq].Pc? && board[sq].kind in pts
  {
    forall sq: Square
      ensures sq in UnionOf(ptbb, pts) <==> board[sq].Pc? && board[sq].kind in pts
    {
      assert AgreesAt(board, cbb, ptbb, sq);
      UnionOfMembers(ptbb, pts, sq);
      if board[sq].Pc? && board[sq].kind in pts {
        assert sq in ptbb[PI(board[sq].kind)];
      }
    }
  }

  /** `Bitboard::next`: the lowest square of `bb` numbered `from` or above. */
  function FirstSquare(bb: Bitboard, from: nat): (r: Option<Square>)
    ensures r.Some? ==> r.value in bb && from <= r.value
    ensures r.Some? ==> forall x :: x in bb && from <= x ==> r.value <= x
    ensures r.None? ==> forall x :: x in bb ==> x < from
    decreases 81 - from
  {
    if from >= 81 then None
    else if from in bb then Some(from)
    else FirstSquare(bb, from + 1)
  }

  /** `king(c)`: the first square holding a king of colour `c`, if any. */
  function KingOf(cbb: seq<Bitboard>, ptbb: seq<Bitboard>, c: Color): (r: Option<Square>)
    requires Sized(cbb, ptbb)
    ensures r.Some? ==> r.value in cbb[CI(c)] && r.value in ptbb[PI(OU)]
    ensures r.None? ==> cbb[CI(c)] * ptbb[PI(OU)] == {}
  {
    FirstSquare(cbb[CI(c)] * ptbb[PI(OU)], 0)
  }

  /** On a consistent board `KingOf` finds the lowest square holding that colour's king,
      and finds nothing exactly when that colour has no king. */
  lemma KingOnBoard(board: seq<Piece>, cbb: seq<Bitboard>, ptbb: seq<Bitboard>, c: Color)
    requires |board| == 81 && Sized(cbb, ptbb) && Consistent(board, cbb, ptbb)
    ensures KingOf(cbb, ptbb, c).Some? ==> board[KingOf(cbb, ptbb, c).value] == Pc(c, OU)
    ensures KingOf(cbb, ptbb, c).Some? ==>
      forall sq: Square :: board[sq] == Pc(c, OU) ==> KingOf(cbb, ptbb, c).value <= sq
    ensures KingOf(cbb, ptbb, c).None? <==> forall sq: Square :: board[sq] != Pc(c, OU)
  {
    var k := KingOf(cbb, ptbb, c);
    if k.Some? {
      assert AgreesAt(board, cbb, ptbb, k.value);
    }
    forall sq: Square | board[sq] == Pc(c, OU)
      ensures sq in cbb[CI(c)] * ptbb[PI(OU)]
    {
      assert AgreesAt(board, cbb, ptbb, sq);
    }
  }

  /** `attackers_to(c, to)`: the pieces of colour `c` that attack `to`. Each
      family of piece is found by asking the attack table what a piece of
      that family standing on `to`, of the opposite colour, would attack. */
  function Attackers(t: Tables, cbb: seq<Bitboard>, ptbb: seq<Bitboard>, c: Color, to: Square): (r: Bitboard)
    requires Sized(cbb, ptbb)
    ensures r <= cbb[CI(c)]
  {
    var opp := Opp(c);
    var occ := ptbb[OCCUPIED];
    (   (t.attack(FU, to, opp, occ) * ptbb[PI(FU)])
      + (t.attack(KY, to, opp, occ) * ptbb[PI(KY)])
      + (t.attack(KE, to, opp, occ) * ptbb[PI(KE)])
      + (t.attack(GI, to, opp, occ) * UnionOf(ptbb, [GI, RY, OU]))
      + (t.attack(KA, to, opp, occ) * UnionOf(ptbb, [KA, UM]))
      + (t.attack(HI, to, opp, occ) * UnionOf(ptbb, [HI, RY]))
      + (t.attack(KI, to, opp, occ) * UnionOf(ptbb, [KI, TO, NY, NK, NG, UM, OU]))
    ) * cbb[CI(c)]
  }

  /** Per kind of piece: the squares from which a piece of that kind reaches
      `to`, read off the attack table as a piece of colour `side` on `to`.
      A dragon moves as rook and silver, a horse as bishop and gold, a king
      as silver and gold, the promoted minor pieces as gold. */
  function ReachedFrom(t: Tables, kind: PieceType, to: Square, side: Color, occ: Bitboard): Bitboard
  {
    match kind
    case FU => t.attack(FU, to, side, occ)
    case KY => t.attack(KY, to, side, occ)
    case KE => t.attack(KE, to, side, occ)
    case GI => t.attack(GI, to, side, occ)
    case KI => t.attack(KI, to, side, occ)
    case KA => t.attack(KA, to, side, occ)
    case HI => t.attack(HI, to, side, occ)
    case OU => t.attack(GI, to, side, occ) + t.attack(KI, to, side, occ)
    case TO => t.attack(KI, to, side, occ)
    case NY => t.attack(KI, to, side, occ)
    case NK => t.attack(KI, to, side, occ)
    case NG => t.attack(KI, to, side, occ)
    case UM => t.attack(KA, to, side, occ) + t.attack(KI, to, side, occ)
    case RY => t.attack(HI, to, side, occ) + t.attack(GI, to, side, occ)
  }

  /** On a consistent board, a square is among the attackers exactly when it
      holds a piece of colour `c` whose own kind reaches `to`. */
  lemma AttackersOnBoard(t: Tables, board: seq<Piece>, cbb: seq<Bitboard>, ptbb: seq<Bitboard>, c: Color, to: Square)
    requires |board| == 81 && Sized(cbb, ptbb) && Consistent(board, cbb, ptbb)
    ensures forall sq: Square :: sq in Attackers(t, cbb, ptbb, c, to) <==>
      board[sq].Pc? && board[sq].color == c && sq in ReachedFrom(t, board[sq].kind, to, Opp(c), ptbb[OCCUPIED])
  {
    forall sq: Square
      ensures sq in Attackers(t, cbb, ptbb, c, to) <==>
        board[sq].Pc? && board[sq].color == c && sq in ReachedFrom(t, board[sq].kind, to, Opp(c), ptbb[OCCUPIED])
    {
      AttackerAt(t, board, cbb, ptbb, c, to, sq);
    }
  }

  /** One square of AttackersOnBoard. */
  lemma AttackerAt(t: Tables, board: seq<Piece>, cbb: seq<Bitboard>, ptbb: seq<Bitboard>, c: Color, to: Square, sq: Square)
    requires |board| == 81 && Sized(cbb, ptbb) && AgreesAt(board, cbb, ptbb, sq)
    ensures sq in Attackers(t, cbb, ptbb, c, to) <==>
      board[sq].Pc? && board[sq].color == c && sq in ReachedFrom(t, board[sq].kind, to, Opp(c), ptbb[OCCUPIED])
  {
    match board[sq]
    case EMP =>
      assert sq !in cbb[CI(c)];
    case Pc(col, k) =>
      AttackerOfKind(t, cbb, ptbb, c, to, sq, col, k);
  }

  /** A square holding a piece of colour `col` and kind `k` is among the
      attackers of `to` exactly when `col` is `c` and that kind reaches `to`. */
  lemma AttackerOfKind(t: Tables, cbb: seq<Bitboard>, ptbb: seq<Bitboard>, c: Color, to: Square, sq: Square, col: Color, k: PieceType)
    requires Sized(cbb, ptbb)
    requires forall pt: PieceType :: sq in ptbb[PI(pt)] <==> pt == k
    requires sq in cbb[CI(c)] <==> col == c
    ensures sq in Attackers(t, cbb, ptbb, c, to) <==> col == c && sq in ReachedFrom(t, k, to, Opp(c), ptbb[OCCUPIED])
  {
    AttackerBits(t, cbb, ptbb, c, to, sq);
    match k
    case FU =>
      assert sq in ptbb[PI(FU)];
    case KY =>
      assert sq in ptbb[PI(KY)];
    case KE =>
      assert sq in ptbb[PI(KE)];
    case GI =>
      assert sq in ptbb[PI(GI)];
    case KI =>
      assert sq in ptbb[PI(KI)];
    case KA =>
      assert sq in ptbb[PI(KA)];
    case HI =>
      assert sq in ptbb[PI(HI)];
    case OU =>
      assert sq in ptbb[PI(OU)];
    case TO =>
      assert sq in ptbb[PI(TO)];
    case NY =>
      assert sq in ptbb[PI(NY)];
    case NK =>
      assert sq in ptbb[PI(NK)];
    case NG =>
      assert sq in ptbb[PI(NG)];
    case UM =>
      assert sq in ptbb[PI(UM)];
    case RY =>
      assert sq in ptbb[PI(RY)];
  }

  /** Membership in `attackers_to` as a formula over single bits. */
  lemma AttackerBits(t: Tables, cbb: seq<Bitboard>, ptbb: seq<Bitboard>, c: Color, to: Square, sq: Square)
    requires Sized(cbb, ptbb)
    ensures var opp, occ := Opp(c), ptbb[OCCUPIED];
      sq in Attackers(t, cbb, ptbb, c, to) <==> (sq in cbb[CI(c)] && (
        || (sq in t.attack(FU, to, opp, occ) && sq in ptbb[PI(FU)])
        || (sq in t.attack(KY, to, opp, occ) && sq in ptbb[PI(KY)])
        || (sq in t.attack(KE, to, opp, occ) && sq in ptbb[PI(KE)])
        || (sq in t.attack(GI, to, opp, occ) && (sq in ptbb[PI(GI)] || sq in ptbb[PI(RY)] || sq in ptbb[PI(OU)]))
        || (sq in t.attack(KA, to, opp, occ) && (sq in ptbb[PI(KA)] || sq in ptbb[PI(UM)]))
        || (sq in t.attack(HI, to, opp, occ) && (sq in ptbb[PI(HI)] || sq in ptbb[PI(RY)]))
        || (sq in t.attack(KI, to, opp, occ) && (sq in ptbb[PI(KI)] || sq in ptbb[PI(TO)] || sq in ptbb[PI(NY)]
              || sq in ptbb[PI(NK)] || sq in ptbb[PI(NG)] || sq in ptbb[PI(UM)] || sq in ptbb[PI(OU)]))))
  {
    var opp, occ := Opp(c), ptbb[OCCUPIED];
    AttackersByFamily(t, cbb, ptbb, c, to);
    FamilyMembers(t.attack(FU, to, opp, occ), t.attack(KY, to, opp, occ), t.attack(KE, to, opp, occ),
      t.attack(GI, to, opp, occ), t.attack(KA, to, opp, occ), t.attack(HI, to, opp, occ),
      t.attack(KI, to, opp, occ), ptbb, cbb[CI(c)], sq);
  }

  /** Membership in the family-by-family union, one set at a time. */
  lemma FamilyMembers(fu: Bitboard, ky: Bitboard, ke: Bitboard, gi: Bitboard, ka: Bitboard, hi: Bitboard,
                      ki: Bitboard, ptbb: seq<Bitboard>, own: Bitboard, sq: Square)
    requires |ptbb| == PT_NUM
    ensures sq in
      (   (fu * ptbb[PI(FU)]) + (ky * ptbb[PI(KY)]) + (ke * ptbb[PI(KE)])
        + (gi * (ptbb[PI(GI)] + ptbb[PI(RY)] + ptbb[PI(OU)]))
        + (ka * (ptbb[PI(KA)] + ptbb[PI(UM)]))
        + (hi * (ptbb[PI(HI)] + ptbb[PI(RY)]))
        + (ki * (ptbb[PI(KI)] + ptbb[PI(TO)] + ptbb[PI(NY)] + ptbb[PI(NK)] + ptbb[PI(NG)] + ptbb[PI(UM)] + ptbb[PI(OU)]))
      ) * own
      <==> (sq in own && (
        || (sq in fu && sq in ptbb[PI(FU)])
        || (sq in ky && sq in ptbb[PI(KY)])
        || (sq in ke && sq in ptbb[PI(KE)])
        || (sq in gi && (sq in ptbb[PI(GI)] || sq in ptbb[PI(RY)] || sq in ptbb[PI(OU)]))
        || (sq in ka && (sq in ptbb[PI(KA)] || sq in ptbb[PI(UM)]))
        || (sq in hi && (sq in ptbb[PI(HI)] || sq in ptbb[PI(RY)]))
        || (sq in ki && (sq in ptbb[PI(KI)] || sq in ptbb[PI(TO)] || sq in ptbb[PI(NY)]
              || sq in ptbb[PI(NK)] || sq in ptbb[PI(NG)] || sq in ptbb[PI(UM)] || sq in ptbb[PI(OU)]))))
  {
  }

  /** `attackers_to` with each family's union written out. */
  lemma AttackersByFamily(t: Tables, cbb: seq<Bitboard>, ptbb: seq<Bitboard>, c: Color, to: Square)
    requires Sized(cbb, ptbb)
    ensures var opp, occ := Opp(c), ptbb[OCCUPIED];
      Attackers(t, cbb, ptbb, c, to) ==
      (   (t.attack(FU, to, opp, occ) * ptbb[PI(FU)])
        + (t.attack(KY, to, opp, occ) * ptbb[PI(KY)])
        + (t.attack(KE, to, opp, occ) * ptbb[PI(KE)])
        + (t.attack(GI, to, opp, occ) * (ptbb[PI(GI)] + ptbb[PI(RY)] + ptbb[PI(OU)]))
        + (t.attack(KA, to, opp, occ) * (ptbb[PI(KA)] + ptbb[PI(UM)]))
        + (t.attack(HI, to, opp, occ) * (ptbb[PI(HI)] + ptbb[PI(RY)]))
        + (t.attack(KI, to, opp, occ) * (ptbb[PI(KI)] + ptbb[PI(TO)] + ptbb[PI(NY)]
             + ptbb[PI(NK)] + ptbb[PI(NG)] + ptbb[PI(UM)] + ptbb[PI(OU)]))
      ) * cbb[CI(c)]
  {
    SilverFamily(ptbb);
    BishopFamily(ptbb);
    RookFamily(ptbb);
    GoldFamily(ptbb);
  }

  lemma SilverFamily(ptbb: seq<Bitboard>)
    requires |ptbb| == PT_NUM
    ensures UnionOf(ptbb, [GI, RY, OU]) == ptbb[PI(GI)] + ptbb[PI(RY)] + ptbb[PI(OU)]
  {
    assert [GI, RY, OU][..2] == [GI, RY] && [GI, RY][..1] == [GI] && [GI][..0] == [];
  }

  lemma BishopFamily(ptbb: seq<Bitboard>)
    requires |ptbb| == PT_NUM
    ensures UnionOf(ptbb, [KA, UM]) == ptbb[PI(KA)] + ptbb[PI(UM)]
  {
    assert [KA, UM][..1] == [KA] && [KA][..0] == [];
  }

  lemma RookFamily(ptbb: seq<Bitboard>)
    requires |ptbb| == PT_NUM
    ensures UnionOf(ptbb, [HI, RY]) == ptbb[PI(HI)] + ptbb[PI(RY)]
  {
    assert [HI, RY][..1] == [HI] && [HI][..0] == [];
  }

  lemma GoldFamily(ptbb: seq<Bitboard>)
    requires |ptbb| == PT_NUM
    ensures UnionOf(ptbb, [KI, TO, NY, NK, NG, UM, OU]) ==
      ptbb[PI(KI)] + ptbb[PI(TO)] + ptbb[PI(NY)] + ptbb[PI(NK)] + ptbb[PI(NG)] + ptbb[PI(UM)] + ptbb[PI(OU)]
  {
    UnionOfSnoc(ptbb, [KI, TO, NY, NK, NG, UM], OU);
    UnionOfSnoc(ptbb, [KI, TO, NY, NK, NG], UM);
    UnionOfSnoc(ptbb, [KI, TO, NY, NK], NG);
    UnionOfSnoc(ptbb, [KI, TO, NY], NK);
    UnionOfSnoc(ptbb, [KI, TO], NY);
    UnionOfSnoc(ptbb, [KI], TO);
    UnionOfSnoc(ptbb, [], KI);
    assert [KI, TO, NY, NK, NG, UM] + [OU] == [KI, TO, NY, NK, NG, UM, OU];
    assert [KI, TO, NY, NK, NG] + [UM] == [KI, TO, NY, NK, NG, UM];
    assert [KI, TO, NY, NK] + [NG] == [KI, TO, NY, NK, NG];
    assert [KI, TO, NY] + [NK] == [KI, TO, NY, NK];
    assert [KI, TO] + [NY] == [KI, TO, NY];
    assert [KI] + [TO] == [KI, TO];
    assert [] + [KI] == [KI];
  }

  /** One step of the fold. */
  lemma UnionOfSnoc(ptbb: seq<Bitboard>, pts: seq<PieceType>, pt: PieceType)
    requires |ptbb| == PT_NUM
    ensures UnionOf(ptbb, pts + [pt]) == UnionOf(ptbb, pts) + ptbb[PI(pt)]
  {
    assert (pts + [pt])[..|pts|] == pts;
  }

  /** On a consistent board every bitboard reads as the board says, at every square. */
  lemma BitsOnBoard(board: seq<Piece>, cbb: seq<Bitboard>, ptbb: seq<Bitboard>)
    requires |board| == 81 && Sized(cbb, ptbb) && Consistent(board, cbb, ptbb)
    ensures forall c: Color, sq: Square :: sq in cbb[CI(c)] <==> board[sq].Pc? && board[sq].color == c
    ensures forall pt: PieceType, sq: Square :: sq in ptbb[PI(pt)] <==> board[sq].Pc? && board[sq].kind == pt
    ensures forall sq: Square :: sq in ptbb[OCCUPIED] <==> board[sq] != EMP
  {
    forall c: Color, sq: Square
      ensures sq in cbb[CI(c)] <==> board[sq].Pc? && board[sq].color == c
    {
      assert AgreesAt(board, cbb, ptbb, sq);
    }
    forall pt: PieceType, sq: Square
      ensures sq in ptbb[PI(pt)] <==> board[sq].Pc? && board[sq].kind == pt
    {
      assert AgreesAt(board, cbb, ptbb, sq);
    }
    forall sq: Square
      ensures sq in ptbb[OCCUPIED] <==> board[sq] != EMP
    {
      assert AgreesAt(board, cbb, ptbb, sq);
    }
  }
}
