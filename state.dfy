/** The derived snapshot pushed on every move (`State`): the squares giving
    check and, per colour, the pinned squares, with `calculate_pinned`. */
module Snapshot {
  import opened Types
  import opened Bitboards

  datatype State = State(checkers: Bitboard, pinned: ByColor<Bitboard>)

  /** The sliders of colour `c` that would reach the king square `k` on an
      empty board: lances, bishops and horses, rooks and dragons. The lance
      ray is asked of the table for colour `c` itself. */
  function Snipers(t: Tables, cbb: seq<Bitboard>, ptbb: seq<Bitboard>, c: Color, k: Square): (r: Bitboard)
    requires Sized(cbb, ptbb)
    ensures r <= cbb[CI(c)]
  {
    (   (t.pseudoAttack(KY, k, c) * ptbb[PI(KY)])
      + (t.pseudoAttack(KA, k, c) * (ptbb[PI(KA)] + ptbb[PI(UM)]))
      + (t.pseudoAttack(HI, k, c) * (ptbb[PI(HI)] + ptbb[PI(RY)]))
    ) * cbb[CI(c)]
  }

  /** The ray a slider of kind `kind` and colour `c` would need to reach `k`
      on an empty board (empty for a piece that is no sniper). */
  function SliderRay(t: Tables, kind: PieceType, k: Square, c: Color): Bitboard
  {
    match kind
    case KY => t.pseudoAttack(KY, k, c)
    case KA => t.pseudoAttack(KA, k, c)
    case UM => t.pseudoAttack(KA, k, c)
    case HI => t.pseudoAttack(HI, k, c)
    case RY => t.pseudoAttack(HI, k, c)
    case _ => {}
  }

  /** The occupied squares strictly between `k` and `s`, kept only when there is exactly one. */
  function LoneBlocker(t: Tables, k: Square, s: Square, occ: Bitboard): (r: Bitboard)
    ensures r <= occ && r <= t.between(k, s)
    ensures r == {} || |r| == 1
  {
    var blockers := t.between(k, s) * occ;
    if |blockers| == 1 then blockers else {}
  }

  /** The lone blockers of all the given snipers. */
  function PinsAmong(t: Tables, k: Square, snipers: Bitboard, occ: Bitboard): Bitboard
  {
    set s, b | s in snipers && b in LoneBlocker(t, k, s, occ) :: b
  }

  /** `calculate_pinned(..)[c]`: the pieces pinned by the sliders of `c`
      against the king of the other colour; nothing when that king is absent. */
  function PinnedBy(t: Tables, cbb: seq<Bitboard>, ptbb: seq<Bitboard>, c: Color): (r: Bitboard)
    requires Sized(cbb, ptbb)
    ensures r <= ptbb[OCCUPIED]
  {
    match KingOf(cbb, ptbb, Opp(c))
    case None => {}
    case Some(k) => PinsAmong(t, k, Snipers(t, cbb, ptbb, c, k), ptbb[OCCUPIED])
  }

  /** The whole result of `calculate_pinned`, indexed by the snipers' colour. */
  function PinnedOf(t: Tables, cbb: seq<Bitboard>, ptbb: seq<Bitboard>): (r: ByColor<Bitboard>)
    requires Sized(cbb, ptbb)
    ensures forall c: Color :: r.Get(c) == PinnedBy(t, cbb, ptbb, c)
    ensures r.black <= ptbb[OCCUPIED] && r.white <= ptbb[OCCUPIED]
  {
    ByColor(PinnedBy(t, cbb, ptbb, Black), PinnedBy(t, cbb, ptbb, White))
  }

  /** `State::calculate_pinned`: for each colour, find the other colour's
      king, then walk the snipers and keep every lone blocker. */
  method CalculatePinned(t: Tables, cbb: seq<Bitboard>, ptbb: seq<Bitboard>) returns (bbs: ByColor<Bitboard>)
    requires Sized(cbb, ptbb)
    ensures bbs == PinnedOf(t, cbb, ptbb)
  {
    bbs := ByColor({}, {});
    for i := 0 to |COLORS|
      invariant forall j :: 0 <= j < i ==> bbs.Get(COLORS[j]) == PinnedBy(t, cbb, ptbb, COLORS[j])
      invariant forall j :: i <= j < |COLORS| ==> bbs.Get(COLORS[j]) == {}
    {
      var c := COLORS[i];
      var pins := PinsFor(t, cbb, ptbb, c);
      bbs := bbs.With(c, bbs.Get(c) + pins);
    }
    assert COLORS[0] == Black && COLORS[1] == White;
  }

  /** One colour's turn of `calculate_pinned`: find the other colour's king
      and, if there is one, collect the lone blockers of the snipers. */
  method PinsFor(t: Tables, cbb: seq<Bitboard>, ptbb: seq<Bitboard>, c: Color) returns (pins: Bitboard)
    requires Sized(cbb, ptbb)
    ensures pins == PinnedBy(t, cbb, ptbb, c)
  {
    pins := {};
    var king := FirstSquare(cbb[CI(Opp(c))] * ptbb[PI(OU)], 0);
    if king.Some? {
      var sq := king.value;
      pins := CollectPins(t, sq, Snipers(t, cbb, ptbb, c, sq), ptbb[OCCUPIED]);
    }
  }

  /** The inner loop of `calculate_pinned`: OR together the lone blocker of every sniper. */
  method CollectPins(t: Tables, sq: Square, snipers: Bitboard, occ: Bitboard) returns (pins: Bitboard)
    ensures pins == PinsAmong(t, sq, snipers, occ)
  {
    pins := {};
    var rest := snipers;
    while rest != {}
      invariant rest <= snipers
      invariant pins == PinsAmong(t, sq, snipers - rest, occ)
      decreases |rest|
    {
      var sniper :| sniper in rest;
      var blockers := t.between(sq, sniper) * occ;
      PinsAmongNext(t, sq, snipers, rest, sniper, occ);
      if |blockers| == 1 {
        pins := pins + blockers;
      }
      rest := rest - {sniper};
    }
    assert snipers - rest == snipers;
  }

  /** Taking one more sniper out of the rest adds exactly its lone blocker. */
  lemma PinsAmongNext(t: Tables, k: Square, snipers: Bitboard, rest: Bitboard, s: Square, occ: Bitboard)
    requires s in rest && rest <= snipers
    ensures PinsAmong(t, k, snipers - (rest - {s}), occ) == PinsAmong(t, k, snipers - rest, occ) + LoneBlocker(t, k, s, occ)
  {
    assert snipers - (rest - {s}) == (snipers - rest) + {s};
  }

  /** A square is pinned for `c` exactly when the king of the other colour
      exists and the square is the one and only occupied square strictly
      between that king and some sniper of `c`. Without that king nothing
      is pinned. */
  lemma PinnedCharacterised(t: Tables, cbb: seq<Bitboard>, ptbb: seq<Bitboard>, c: Color, b: Square)
    requires Sized(cbb, ptbb)
    ensures KingOf(cbb, ptbb, Opp(c)).None? ==> PinnedBy(t, cbb, ptbb, c) == {}
    ensures b in PinnedBy(t, cbb, ptbb, c) <==>
      (KingOf(cbb, ptbb, Opp(c)).Some? &&
       var k := KingOf(cbb, ptbb, Opp(c)).value;
       exists s :: s in Snipers(t, cbb, ptbb, c, k) && t.between(k, s) * ptbb[OCCUPIED] == {b})
  {
    var king := KingOf(cbb, ptbb, Opp(c));
    if king.Some? {
      var k, occ := king.value, ptbb[OCCUPIED];
      var snipers := Snipers(t, cbb, ptbb, c, k);
      if b in PinnedBy(t, cbb, ptbb, c) {
        var s :| s in snipers && b in LoneBlocker(t, k, s, occ);
        Singleton(t.between(k, s) * occ, b);
      }
      forall s | s in snipers && t.between(k, s) * occ == {b}
        ensures b in PinnedBy(t, cbb, ptbb, c)
      {
        assert b in LoneBlocker(t, k, s, occ);
      }
    }
  }

  /** A one-element set holding `b` is `{b}`. */
  lemma Singleton(bb: Bitboard, b: Square)
    requires |bb| == 1 && b in bb
    ensures bb == {b}
  {
    assert |bb - {b}| == 0;
  }

  /** On a consistent board the snipers of `c` against a king on `k` are the
      pieces of colour `c` whose slider ray reaches `k`. */
  lemma SnipersOnBoard(t: Tables, board: seq<Piece>, cbb: seq<Bitboard>, ptbb: seq<Bitboard>, c: Color, k: Square, s: Square)
    requires |board| == 81 && Sized(cbb, ptbb) && Consistent(board, cbb, ptbb)
    ensures s in Snipers(t, cbb, ptbb, c, k) <==>
      board[s].Pc? && board[s].color == c && s in SliderRay(t, board[s].kind, k, c)
  {
    assert AgreesAt(board, cbb, ptbb, s);
    if board[s].Pc? {
      assert s in ptbb[PI(board[s].kind)];
    }
  }
}
