/** The position as a value, and what each mutating operation of the
    position does to it. The class in position.dfy is proved to perform
    exactly these changes; the properties of the changes are proved here. */
module Moves {
  import opened Types
  import opened Bitboards
  import opened Snapshot

  /** The fields of a position: the board array, the hands, the side to
      move, the two bitboard indexes and the stack of snapshots. */
  datatype Pos = Pos(board: seq<Piece>, hands: seq<Hand>, color: Color,
                     cbb: seq<Bitboard>, ptbb: seq<Bitboard>, states: seq<State>)
  {
    predicate Shaped()
    {
      |board| == 81 && |hands| == COLOR_NUM && Sized(cbb, ptbb)
    }

    /** The data invariant: every bitboard agrees with the board array. */
    ghost predicate Valid()
    {
      Shaped() && Consistent(board, cbb, ptbb)
    }
  }

  /** `xor_bbs(c, pt, sq)`: flips `sq` in the colour bitboard of `c`, in
      OCCUPIED and in the bitboard of `pt`; nothing else changes. */
  function Xored(s: Pos, c: Color, pt: PieceType, sq: Square): (r: Pos)
    requires s.Shaped()
    ensures r.Shaped()
    ensures r.board == s.board && r.hands == s.hands && r.color == s.color && r.states == s.states
  {
    s.(cbb := s.cbb[CI(c) := Toggle(s.cbb[CI(c)], sq)],
       ptbb := s.ptbb[OCCUPIED := Toggle(s.ptbb[OCCUPIED], sq)][PI(pt) := Toggle(s.ptbb[PI(pt)], sq)])
  }

  /** `xor_bbs` flips the membership of `sq` in exactly three bitboards:
      the colour's, OCCUPIED and the piece type's. Every other bit of every
      bitboard stays as it was. */
  lemma XoredBits(s: Pos, c: Color, pt: PieceType, sq: Square)
    requires s.Shaped()
    ensures var r := Xored(s, c, pt, sq);
      forall col: Color, x: Square :: x in r.cbb[CI(col)] <==> (x in s.cbb[CI(col)] <==> !(col == c && x == sq))
    ensures var r := Xored(s, c, pt, sq);
      forall i, x: Square :: 0 <= i < PT_NUM ==>
        (x in r.ptbb[i] <==> (x in s.ptbb[i] <==> !((i == OCCUPIED || i == PI(pt)) && x == sq)))
  {
  }

  /** `put_piece(sq, p)`: the bits of `p` flip at `sq` and the board holds `p` there. */
  function Placed(s: Pos, sq: Square, p: Piece): (r: Pos)
    requires s.Shaped() && p.Pc?
    ensures r.Shaped()
    ensures r.board == s.board[sq := p] && r.hands == s.hands && r.color == s.color && r.states == s.states
    ensures sq in r.ptbb[OCCUPIED] <==> sq !in s.ptbb[OCCUPIED]
  {
    Xored(s, p.color, p.kind, sq).(board := s.board[sq := p])
  }

  /** `remove_piece(sq, p)`: the bits of `p` flip at `sq` and the board is empty there. */
  function Cleared(s: Pos, sq: Square, p: Piece): (r: Pos)
    requires s.Shaped() && p.Pc?
    ensures r.Shaped()
    ensures r.board == s.board[sq := EMP] && r.hands == s.hands && r.color == s.color && r.states == s.states
    ensures sq in r.ptbb[OCCUPIED] <==> sq !in s.ptbb[OCCUPIED]
  {
    Xored(s, p.color, p.kind, sq).(board := s.board[sq := EMP])
  }

  /** On a consistent position, putting a piece keeps the bitboards in
      agreement exactly when the square was vacant. */
  lemma PlacedValid(s: Pos, sq: Square, p: Piece)
    requires s.Valid() && p.Pc?
    ensures Placed(s, sq, p).Valid() <==> s.board[sq] == EMP
    ensures Placed(s, sq, p).board[sq] == p
  {
    var r := Placed(s, sq, p);
    XoredBits(s, p.color, p.kind, sq);
    assert AgreesAt(s.board, s.cbb, s.ptbb, sq);
    if s.board[sq] == EMP {
      forall x: Square
        ensures AgreesAt(r.board, r.cbb, r.ptbb, x)
      {
        assert AgreesAt(s.board, s.cbb, s.ptbb, x);
      }
    } else {
      assert sq !in r.ptbb[OCCUPIED];
      assert !AgreesAt(r.board, r.cbb, r.ptbb, sq);
    }
  }

  /** On a consistent position, removing a piece keeps the bitboards in
      agreement exactly when that piece is the one on the square. */
  lemma ClearedValid(s: Pos, sq: Square, p: Piece)
    requires s.Valid() && p.Pc?
    ensures Cleared(s, sq, p).Valid() <==> s.board[sq] == p
    ensures Cleared(s, sq, p).board[sq] == EMP
  {
    var r := Cleared(s, sq, p);
    XoredBits(s, p.color, p.kind, sq);
    assert AgreesAt(s.board, s.cbb, s.ptbb, sq);
    if s.board[sq] == p {
      forall x: Square
        ensures AgreesAt(r.board, r.cbb, r.ptbb, x)
      {
        assert AgreesAt(s.board, s.cbb, s.ptbb, x);
      }
    } else if s.board[sq] == EMP {
      assert sq in r.ptbb[OCCUPIED];
      assert !AgreesAt(r.board, r.cbb, r.ptbb, sq);
    } else if s.board[sq].kind != p.kind {
      assert sq in r.ptbb[PI(p.kind)];
      assert !AgreesAt(r.board, r.cbb, r.ptbb, sq);
    } else {
      assert sq in r.cbb[CI(p.color)];
      assert !AgreesAt(r.board, r.cbb, r.ptbb, sq);
    }
  }

  /** The capture step of `do_normal_move`: the captured piece's bits are
      flipped as a piece of the opponent's colour, and it enters the mover's
      hand. The board square itself is overwritten by the following put. */
  function Captured(s: Pos, to: Square): (r: Pos)
    requires s.Shaped() && s.board[to].Pc?
    ensures r.Shaped() && r.board == s.board && r.color == s.color && r.states == s.states
    ensures r.hands[CI(s.color)] == Increment(s.hands[CI(s.color)], s.board[to].kind)
    ensures r.hands[CI(Opp(s.color))] == s.hands[CI(Opp(s.color))]
    ensures to in r.cbb[CI(Opp(s.color))] <==> to !in s.cbb[CI(Opp(s.color))]
  {
    var c, pt := s.color, s.board[to].kind;
    Xored(s, Opp(c), pt, to).(hands := s.hands[CI(c) := Increment(s.hands[CI(c)], pt)])
  }

  /** `do_normal_move` on board, bitboards and hands: lift the piece off
      `from`, capture whatever stands on `to`, put the piece (promoted if
      asked) on `to`. */
  function AfterNormal(s: Pos, from: Square, to: Square, promotion: bool): (r: Pos)
    requires s.Shaped() && s.board[from].Pc?
    ensures r.Shaped() && r.color == s.color && r.states == s.states
    ensures r.board == s.board[from := EMP][to := if promotion then Promoted(s.board[from]) else s.board[from]]
    ensures r.hands == if from != to && s.board[to].Pc?
      then s.hands[CI(s.color) := Increment(s.hands[CI(s.color)], s.board[to].kind)] else s.hands
  {
    var pFrom := s.board[from];
    var s1 := Cleared(s, from, pFrom);
    var s2 := if s1.board[to].Pc? then Captured(s1, to) else s1;
    Placed(s2, to, if promotion then Promoted(pFrom) else pFrom)
  }

  /** The checkers `do_normal_move` records: the mover's attackers of the
      other king, or none when that king is absent. */
  function NormalCheckers(t: Tables, r: Pos, c: Color): (bb: Bitboard)
    requires r.Shaped()
    ensures bb <= r.cbb[CI(c)]
    ensures KingOf(r.cbb, r.ptbb, Opp(c)).None? ==> bb == {}
  {
    match KingOf(r.cbb, r.ptbb, Opp(c))
    case None => {}
    case Some(k) => Attackers(t, r.cbb, r.ptbb, c, k)
  }

  /** `do_drop_move` on board, bitboards and hands: put the piece and take one from the mover's hand. */
  function AfterDrop(s: Pos, to: Square, p: Piece): (r: Pos)
    requires s.Shaped() && p.Pc?
    ensures r.Shaped() && r.color == s.color && r.states == s.states
    ensures r.board == s.board[to := p]
    ensures r.hands == s.hands[CI(s.color) := Decrement(s.hands[CI(s.color)], p.kind)]
  {
    var c := s.color;
    Placed(s, to, p).(hands := s.hands[CI(c) := Decrement(s.hands[CI(c)], p.kind)])
  }

  /** The checkers `do_drop_move` records: the dropped piece alone, when it
      attacks the other king from `to`; none otherwise. */
  function DropCheckers(t: Tables, r: Pos, c: Color, to: Square, pt: PieceType): (bb: Bitboard)
    requires r.Shaped()
    ensures bb == {} || bb == {to}
    ensures bb != {} ==> KingOf(r.cbb, r.ptbb, Opp(c)).Some?
  {
    match KingOf(r.cbb, r.ptbb, Opp(c))
    case None => {}
    case Some(k) => if k in t.attack(pt, to, c, r.ptbb[OCCUPIED]) then {to} else {}
  }

  /** What `do_move` needs not to panic: a piece on `from`, or a real piece to drop. */
  predicate CanDo(s: Pos, m: Move)
  {
    s.Shaped() && (if m.Normal? then s.board[m.from].Pc? else m.piece.Pc?)
  }

  /** `do_move`: change the board, push the new snapshot, pass the turn. */
  function AfterMove(t: Tables, s: Pos, m: Move): (r: Pos)
    requires CanDo(s, m)
    ensures r.Shaped()
    ensures |r.states| == |s.states| + 1 && r.states[..|s.states|] == s.states
    ensures r.color == Opp(s.color)
  {
    var (moved, checkers) := match m
      case Normal(from, to, promotion, _, _) =>
        var r := AfterNormal(s, from, to, promotion);
        (r, NormalCheckers(t, r, s.color))
      case Drop(to, p) =>
        var r := AfterDrop(s, to, p);
        (r, DropCheckers(t, r, s.color, to, p.kind));
    moved.(states := s.states + [State(checkers, PinnedOf(t, moved.cbb, moved.ptbb))], color := Opp(s.color))
  }

  /** `do_move` is the board change followed by pushing its snapshot and passing the turn. */
  lemma MoveSnapshot(t: Tables, s: Pos, m: Move, moved: Pos, st: State)
    requires CanDo(s, m)
    requires m.Normal? ==> (moved == AfterNormal(s, m.from, m.to, m.promotion)
      && st == State(NormalCheckers(t, moved, s.color), PinnedOf(t, moved.cbb, moved.ptbb)))
    requires m.Drop? ==> (moved == AfterDrop(s, m.to, m.piece)
      && st == State(DropCheckers(t, moved, s.color, m.to, m.piece.kind), PinnedOf(t, moved.cbb, moved.ptbb)))
    ensures AfterMove(t, s, m) == moved.(states := s.states + [st], color := Opp(s.color))
  {
  }

  /** What `undo_move` needs not to panic: a piece on the move's destination. */
  predicate CanUndo(s: Pos, m: Move)
  {
    s.Shaped() && s.board[m.to].Pc?
  }

  /** The capture step of `undo_move`: the captured piece returns to `to`
      and leaves the hand of the side that made the move. */
  function Uncaptured(s: Pos, to: Square, p: Piece): (r: Pos)
    requires s.Shaped() && p.Pc?
    ensures r.Shaped() && r.board == s.board[to := p] && r.color == s.color && r.states == s.states
    ensures r.hands[CI(Opp(s.color))] == Decrement(s.hands[CI(Opp(s.color))], p.kind)
    ensures r.hands[CI(s.color)] == s.hands[CI(s.color)]
  {
    var mover := Opp(s.color);
    Placed(s, to, p).(hands := s.hands[CI(mover) := Decrement(s.hands[CI(mover)], p.kind)])
  }

  /** `undo_move`: lift the piece off `to`; for a normal move put back the
      captured piece and return the (demoted, if it promoted) piece to
      `from`; for a drop return the piece to the hand; pass the turn back
      and pop the snapshot (popping an empty stack leaves it empty). */
  function AfterUndo(s: Pos, m: Move): (r: Pos)
    requires CanUndo(s, m)
    ensures r.Shaped()
    ensures r.states == if s.states == [] then [] else s.states[..|s.states| - 1]
    ensures r.color == Opp(s.color)
  {
    var pTo := s.board[m.to];
    var s1 := Cleared(s, m.to, pTo);
    var s3 := match m
      case Normal(from, to, promotion, _, captured) =>
        var s2 := if captured.Pc? then Uncaptured(s1, to, captured) else s1;
        Placed(s2, from, if promotion then Demoted(pTo) else pTo)
      case Drop(to, _) =>
        var mover := Opp(s.color);
        s1.(hands := s1.hands[CI(mover) := Increment(s1.hands[CI(mover)], pTo.kind)]);
    s3.(color := Opp(s.color), states := if s.states == [] then [] else s.states[..|s.states| - 1])
  }

  /** `undo_move` is the board change followed by passing the turn back and popping the stack. */
  lemma UnmoveSnapshot(s: Pos, m: Move, moved: Pos)
    requires CanUndo(s, m)
    requires var pTo := s.board[m.to];
      var s1 := Cleared(s, m.to, pTo);
      match m
      case Normal(from, to, promotion, _, captured) =>
        moved == Placed(if captured.Pc? then Uncaptured(s1, to, captured) else s1, from, if promotion then Demoted(pTo) else pTo)
      case Drop(_, _) =>
        moved == s1.(hands := s1.hands[CI(Opp(s.color)) := Increment(s1.hands[CI(Opp(s.color))], pTo.kind)])
    ensures AfterUndo(s, m) == moved.(color := Opp(s.color), states := if s.states == [] then [] else s.states[..|s.states| - 1])
  {
  }

  /** A move `undo_move` can take back exactly: a normal move leaves its
      origin for a different square, `captured` records what stood on `to`,
      a captured piece belongs to the opponent, a promotion demotes back to
      the moving piece, and a drop goes onto an empty square from a hand that
      holds such a piece. */
  predicate Reversible(s: Pos, m: Move)
  {
    && s.Shaped()
    && match m
       case Normal(from, to, promotion, _, captured) =>
         && from != to
         && s.board[from].Pc?
         && captured == s.board[to]
         && (captured.Pc? ==> captured.color == Opp(s.color))
         && (promotion ==> Demoted(Promoted(s.board[from])) == s.board[from])
       case Drop(to, p) =>
         && p.Pc?
         && s.board[to] == EMP
         && Num(s.hands[CI(s.color)], DemotedType(p.kind)) > 0
  }

  /** Taking back a move restores every field: board, hands, side to move,
      both bitboard indexes and the snapshot stack. */
  lemma RoundTrip(t: Tables, s: Pos, m: Move)
    requires Reversible(s, m)
    ensures CanUndo(AfterMove(t, s, m), m)
    ensures AfterUndo(AfterMove(t, s, m), m) == s
  {
    if m.Normal? {
      RoundTripNormal(t, s, m);
    } else {
      RoundTripDrop(t, s, m);
    }
  }

  lemma RoundTripNormal(t: Tables, s: Pos, m: Move)
    requires Reversible(s, m) && m.Normal?
    ensures CanUndo(AfterMove(t, s, m), m)
    ensures AfterUndo(AfterMove(t, s, m), m) == s
  {
    var d := AfterMove(t, s, m);
    assert d.board[m.to] == if m.promotion then Promoted(s.board[m.from]) else s.board[m.from];
    NormalBitsBack(t, s, m);
    NormalPiecesBack(t, s, m);
    assert s.states + [d.states[|d.states| - 1]] == d.states;
  }

  lemma NormalBitsBack(t: Tables, s: Pos, m: Move)
    requires Reversible(s, m) && m.Normal?
    ensures CanUndo(AfterMove(t, s, m), m)
    ensures AfterUndo(AfterMove(t, s, m), m).cbb == s.cbb
    ensures AfterUndo(AfterMove(t, s, m), m).ptbb == s.ptbb
  {
    var from, to, cap := m.from, m.to, m.captured;
    var pF := s.board[from];
    var pT := if m.promotion then Promoted(pF) else pF;
    var s1 := Cleared(s, from, pF);
    var s2 := if cap.Pc? then Captured(s1, to) else s1;
    var d := AfterMove(t, s, m);
    assert d.cbb == Placed(s2, to, pT).cbb && d.ptbb == Placed(s2, to, pT).ptbb;
    var u1 := Cleared(d, to, pT);
    var u2 := if cap.Pc? then Uncaptured(u1, to, cap) else u1;
    XoredTwice(s2, d, pT.color, pT.kind, to);
    if cap.Pc? {
      XoredTwice(s1, u1, cap.color, cap.kind, to);
    }
    XoredTwice(s, u2, pF.color, pF.kind, from);
  }

  lemma NormalPiecesBack(t: Tables, s: Pos, m: Move)
    requires Reversible(s, m) && m.Normal?
    ensures CanUndo(AfterMove(t, s, m), m)
    ensures AfterUndo(AfterMove(t, s, m), m).board == s.board
    ensures AfterUndo(AfterMove(t, s, m), m).hands == s.hands
  {
    BoardAfterMove(t, s, m);
    var d := AfterMove(t, s, m);
    UndoneSquares(s, m, d.board);
    BoardAfterUndo(d, m);
    var u := AfterUndo(d, m);
    PiecesRestored(s, d, m, u.board, u.hands);
  }

  /** Undoing a normal move on the pieces it left restores the board and the hands. */
  lemma PiecesRestored(s: Pos, d: Pos, m: Move, board: seq<Piece>, hands: seq<Hand>)
    requires Reversible(s, m) && m.Normal? && d.Shaped() && d.color == Opp(s.color)
    requires MovedPieces(s, m, d.board, d.hands)
    requires CanUndo(d, m) && UnmovedPieces(d, m, board, hands)
    ensures board == s.board && hands == s.hands
  {
    UndoneSquares(s, m, d.board);
    if m.captured.Pc? {
      HandRoundTrip(s.hands[CI(s.color)], m.captured.kind);
    }
  }

  /** Putting back the captured piece and the moved piece restores the squares. */
  lemma UndoneSquares(s: Pos, m: Move, board: seq<Piece>)
    requires Reversible(s, m) && m.Normal?
    requires board == s.board[m.from := EMP][m.to := if m.promotion then Promoted(s.board[m.from]) else s.board[m.from]]
    ensures board[m.to].Pc?
    ensures board[m.to := m.captured][m.from := if m.promotion then Demoted(board[m.to]) else board[m.to]] == s.board
  {
    var from, to := m.from, m.to;
    assert board[to := m.captured][from := s.board[from]] == s.board;
  }

  /** Flipping the same three bits twice restores the bitboards. */
  lemma XoredTwice(a: Pos, b: Pos, c: Color, pt: PieceType, sq: Square)
    requires a.Shaped() && b.Shaped()
    requires b.cbb == Xored(a, c, pt, sq).cbb && b.ptbb == Xored(a, c, pt, sq).ptbb
    ensures Xored(b, c, pt, sq).cbb == a.cbb && Xored(b, c, pt, sq).ptbb == a.ptbb
  {
    var r := Xored(b, c, pt, sq);
    XoredBits(a, c, pt, sq);
    XoredBits(b, c, pt, sq);
    forall i | 0 <= i < COLOR_NUM
      ensures r.cbb[i] == a.cbb[i]
    {
      assert i == CI(Black) || i == CI(White);
    }
    forall i | 0 <= i < PT_NUM
      ensures r.ptbb[i] == a.ptbb[i]
    {
    }
  }

  lemma RoundTripDrop(t: Tables, s: Pos, m: Move)
    requires Reversible(s, m) && m.Drop?
    ensures CanUndo(AfterMove(t, s, m), m)
    ensures AfterUndo(AfterMove(t, s, m), m) == s
  {
    var to, p := m.to, m.piece;
    var d := AfterMove(t, s, m);
    assert d.board[to] == p;
    XoredTwice(s, d, p.color, p.kind, to);
    HandRefill(s.hands[CI(s.color)], p.kind);
    var u := AfterUndo(d, m);
    assert u.board == s.board;
    assert u.hands == s.hands;
    assert s.states + [d.states[|d.states| - 1]] == d.states;
  }

  /** A move that keeps the bitboards in agreement: a piece leaves `from`
      and lands on its own square, an empty square or an opponent's piece;
      a drop lands on an empty square. */
  predicate KeepsConsistent(s: Pos, m: Move)
  {
    && s.Shaped()
    && match m
       case Normal(from, to, _, _, _) =>
         s.board[from].Pc? && (from == to || s.board[to] == EMP || s.board[to].color == Opp(s.color))
       case Drop(to, p) =>
         p.Pc? && s.board[to] == EMP
  }

  /** `do_move` preserves the data invariant. */
  lemma DoMoveValid(t: Tables, s: Pos, m: Move)
    requires s.Valid() && KeepsConsistent(s, m)
    ensures AfterMove(t, s, m).Valid()
  {
    var c := s.color;
    var moved := if m.Normal? then AfterNormal(s, m.from, m.to, m.promotion) else AfterDrop(s, m.to, m.piece);
    var checkers := if m.Normal? then NormalCheckers(t, moved, c) else DropCheckers(t, moved, c, m.to, m.piece.kind);
    MoveSnapshot(t, s, m, moved, State(checkers, PinnedOf(t, moved.cbb, moved.ptbb)));
    MovedValid(s, m);
  }

  /** The board change of `do_move` keeps the bitboards in agreement with the board. */
  lemma MovedValid(s: Pos, m: Move)
    requires s.Valid() && KeepsConsistent(s, m)
    ensures (if m.Normal? then AfterNormal(s, m.from, m.to, m.promotion) else AfterDrop(s, m.to, m.piece)).Valid()
  {
    match m
    case Normal(from, to, promotion, _, _) =>
      var pF := s.board[from];
      var pT := if promotion then Promoted(pF) else pF;
      var s1 := Cleared(s, from, pF);
      ClearedValid(s, from, pF);
      if s1.board[to].Pc? {
        var s2 := Cleared(s1, to, s1.board[to]);
        ClearedValid(s1, to, s1.board[to]);
        PlacedValid(s2, to, pT);
        assert s1.board[to := EMP][to := pT] == s1.board[to := pT];
      } else {
        PlacedValid(s1, to, pT);
      }
    case Drop(to, p) =>
      PlacedValid(s, to, p);
  }

  /** A move `undo_move` can take back without breaking the invariant: a
      piece stands on `to`, and for a normal move `from` is vacant (or is
      `to` itself, with nothing captured). */
  predicate UndoFits(s: Pos, m: Move)
  {
    && CanUndo(s, m)
    && (m.Normal? ==> if m.from == m.to then m.captured == EMP else s.board[m.from] == EMP)
  }

  /** `undo_move` preserves the data invariant. */
  lemma UndoMoveValid(s: Pos, m: Move)
    requires s.Valid() && UndoFits(s, m)
    ensures AfterUndo(s, m).Valid()
  {
    var pTo := s.board[m.to];
    var u1 := Cleared(s, m.to, pTo);
    ClearedValid(s, m.to, pTo);
    match m
    case Normal(from, to, promotion, _, cap) =>
      var u2 := if cap.Pc? then Uncaptured(u1, to, cap) else u1;
      if cap.Pc? {
        PlacedValid(u1, to, cap);
      }
      PlacedValid(u2, from, if promotion then Demoted(pTo) else pTo);
    case Drop(_, _) =>
  }

  /** The board and hands `do_move` leaves behind on `s`: a normal move
      empties `from` and puts the (promoted, if it promotes) piece on `to`,
      the piece it captures going to the mover's hand as its base type; a
      drop puts the piece on `to` and takes one from the mover's hand. */
  predicate MovedPieces(s: Pos, m: Move, board: seq<Piece>, hands: seq<Hand>)
    requires CanDo(s, m)
  {
    var c := s.color;
    match m
    case Normal(from, to, promotion, _, _) =>
      && board == s.board[from := EMP][to := if promotion then Promoted(s.board[from]) else s.board[from]]
      && hands == if from != to && s.board[to].Pc? then s.hands[CI(c) := Increment(s.hands[CI(c)], s.board[to].kind)] else s.hands
    case Drop(to, p) =>
      && board == s.board[to := p]
      && hands == s.hands[CI(c) := Decrement(s.hands[CI(c)], p.kind)]
  }

  /** `do_move` leaves exactly those pieces on the board and in the hands. */
  lemma BoardAfterMove(t: Tables, s: Pos, m: Move)
    requires CanDo(s, m)
    ensures MovedPieces(s, m, AfterMove(t, s, m).board, AfterMove(t, s, m).hands)
  {
  }

  /** The board and hands `undo_move` leaves behind on `s`: a normal move
      puts the captured piece (or nothing) back on `to` and the (demoted, if
      it promoted) piece back on `from`, taking the captured piece out of
      the mover's hand; a drop empties `to` and returns the piece to the
      mover's hand. The mover is the side not to move. */
  predicate UnmovedPieces(s: Pos, m: Move, board: seq<Piece>, hands: seq<Hand>)
    requires CanUndo(s, m)
  {
    var mover, pTo := Opp(s.color), s.board[m.to];
    match m
    case Normal(from, to, promotion, _, captured) =>
      && board == s.board[to := captured][from := if promotion then Demoted(pTo) else pTo]
      && hands == if captured.Pc? then s.hands[CI(mover) := Decrement(s.hands[CI(mover)], captured.kind)] else s.hands
    case Drop(to, _) =>
      && board == s.board[to := EMP]
      && hands == s.hands[CI(mover) := Increment(s.hands[CI(mover)], pTo.kind)]
  }

  /** `undo_move` leaves exactly those pieces on the board and in the hands. */
  lemma BoardAfterUndo(s: Pos, m: Move)
    requires CanUndo(s, m)
    ensures UnmovedPieces(s, m, AfterUndo(s, m).board, AfterUndo(s, m).hands)
  {
    if m.Normal? && !m.captured.Pc? {
      assert s.board[m.to := EMP] == s.board[m.to := m.captured];
    }
  }

  /** A capture adds one piece of the captured piece's base type to the
      mover's hand; no other count and no other hand changes. */
  lemma HandsAfterNormal(t: Tables, s: Pos, m: Move)
    requires CanDo(s, m) && m.Normal?
    ensures var r, c := AfterMove(t, s, m), s.color;
      && r.hands[CI(Opp(c))] == s.hands[CI(Opp(c))]
      && forall pt :: Num(r.hands[CI(c)], pt) == Num(s.hands[CI(c)], pt) +
           (if m.from != m.to && s.board[m.to].Pc? && pt == DemotedType(s.board[m.to].kind) then 1 else 0)
  {
    BoardAfterMove(t, s, m);
    var r := AfterMove(t, s, m);
    CapturedIntoHand(s, m, r.board, r.hands);
  }

  lemma CapturedIntoHand(s: Pos, m: Move, board: seq<Piece>, hands: seq<Hand>)
    requires CanDo(s, m) && m.Normal? && MovedPieces(s, m, board, hands)
    ensures var c := s.color;
      && hands[CI(Opp(c))] == s.hands[CI(Opp(c))]
      && forall pt :: Num(hands[CI(c)], pt) == Num(s.hands[CI(c)], pt) +
           (if m.from != m.to && s.board[m.to].Pc? && pt == DemotedType(s.board[m.to].kind) then 1 else 0)
  {
    var c := s.color;
    if m.from != m.to && s.board[m.to].Pc? {
      HandRoundTrip(s.hands[CI(c)], s.board[m.to].kind);
    }
  }

  /** A drop takes one piece of the dropped base type from the mover's hand
      (a count already at zero stays zero); nothing else changes. */
  lemma HandsAfterDrop(t: Tables, s: Pos, m: Move)
    requires CanDo(s, m) && m.Drop?
    ensures var r, c := AfterMove(t, s, m), s.color;
      && r.hands[CI(Opp(c))] == s.hands[CI(Opp(c))]
      && forall pt :: Num(r.hands[CI(c)], pt) ==
           if pt == DemotedType(m.piece.kind) && Num(s.hands[CI(c)], pt) > 0 then Num(s.hands[CI(c)], pt) - 1
           else Num(s.hands[CI(c)], pt)
  {
  }

  /** Undoing gives the mover (the side not to move) back exactly what the
      move took: a captured piece leaves that hand, a dropped piece returns
      to it; the other hand is untouched. */
  lemma HandsAfterUndo(s: Pos, m: Move)
    requires CanUndo(s, m)
    ensures var r, mover := AfterUndo(s, m), Opp(s.color);
      && r.hands[CI(s.color)] == s.hands[CI(s.color)]
      && (m.Normal? ==>
            forall pt :: Num(r.hands[CI(mover)], pt) ==
              if m.captured.Pc? && pt == DemotedType(m.captured.kind) && Num(s.hands[CI(mover)], pt) > 0
              then Num(s.hands[CI(mover)], pt) - 1 else Num(s.hands[CI(mover)], pt))
      && (m.Drop? ==>
            forall pt :: Num(r.hands[CI(mover)], pt) ==
              Num(s.hands[CI(mover)], pt) + (if pt == DemotedType(s.board[m.to].kind) then 1 else 0))
  {
  }

  /** The base type a square's piece counts as, or nothing for an empty square. */
  function Material(p: Piece): multiset<PieceType>
  {
    if p.Pc? then multiset{DemotedType(p.kind)} else multiset{}
  }

  /** The base types of the pieces on the board, with repetition. */
  function OnBoard(board: seq<Piece>): multiset<PieceType>
    decreases |board|
  {
    if board == [] then multiset{} else Material(board[0]) + OnBoard(board[1..])
  }

  /** All the material of a position, by base type: the board and both hands. */
  function AllMaterial(board: seq<Piece>, hands: seq<Hand>): multiset<PieceType>
    requires |hands| == COLOR_NUM
  {
    OnBoard(board) + hands[CI(Black)] + hands[CI(White)]
  }

  /** Writing `p` on square `i` trades the old piece's material for `p`'s. */
  lemma {:induction false} OnBoardUpdate(board: seq<Piece>, i: int, p: Piece)
    requires 0 <= i < |board|
    ensures OnBoard(board[i := p]) + Material(board[i]) == OnBoard(board) + Material(p)
    decreases |board|
  {
    var b := board[i := p];
    if i == 0 {
      assert b[1..] == board[1..];
    } else {
      var rest := board[1..];
      OnBoardUpdate(rest, i - 1, p);
      assert b[1..] == rest[i - 1 := p];
      forall q ensures (OnBoard(b) + Material(board[i]))[q] == (OnBoard(board) + Material(p))[q] {
        assert OnBoard(b)[q] == Material(board[0])[q] + OnBoard(rest[i - 1 := p])[q];
        assert (OnBoard(rest[i - 1 := p]) + Material(rest[i - 1]))[q] == (OnBoard(rest) + Material(p))[q];
      }
    }
  }

  /** Promoting or demoting a piece does not change its base type. */
  lemma SameBase(p: Piece)
    ensures Material(Promoted(p)) == Material(p) && Material(Demoted(p)) == Material(p)
  {
    if p.Pc? {
      match p.kind
      case FU => case KY => case KE => case GI => case KI => case KA => case HI =>
      case OU => case TO => case NY => case NK => case NG => case UM => case RY =>
    }
  }

  /** Piece conservation for `do_move`: for every base type, the pieces on
      the board and in both hands keep their number. A capture moves a piece
      from the board into a hand, a drop from a hand holding its type onto an
      empty square. */
  lemma MoveConservesMaterial(t: Tables, s: Pos, m: Move)
    requires CanDo(s, m)
    requires m.Drop? ==> s.board[m.to] == EMP && Num(s.hands[CI(s.color)], DemotedType(m.piece.kind)) > 0
    ensures AllMaterial(AfterMove(t, s, m).board, AfterMove(t, s, m).hands) == AllMaterial(s.board, s.hands)
  {
    BoardAfterMove(t, s, m);
    var r := AfterMove(t, s, m);
    MovedMaterial(s, m, r.board, r.hands);
  }

  /** Material over a board where `gone` left and `came` arrived, and a hand
      that gained what left the board and gave up what arrived. */
  lemma Traded(board0: seq<Piece>, hands0: seq<Hand>, board: seq<Piece>, hands: seq<Hand>,
               c: Color, gone: multiset<PieceType>, came: multiset<PieceType>)
    requires |hands0| == COLOR_NUM && |hands| == COLOR_NUM
    requires OnBoard(board) + gone == OnBoard(board0) + came
    requires hands == hands0[CI(c) := hands[CI(c)]]
    requires hands[CI(c)] + came == hands0[CI(c)] + gone
    ensures AllMaterial(board, hands) == AllMaterial(board0, hands0)
  {
    var k := CI(Opp(c));
    assert hands[k] == hands0[k];
    forall q ensures AllMaterial(board, hands)[q] == AllMaterial(board0, hands0)[q] {
      assert (OnBoard(board) + gone)[q] == (OnBoard(board0) + came)[q];
      assert (hands[CI(c)] + came)[q] == (hands0[CI(c)] + gone)[q];
    }
  }

  /** Lifting the piece on `from` and putting `q`, of the same base type, on
      `to` takes off the board only what stood on `to`. */
  lemma PlayedBoard(board: seq<Piece>, from: Square, to: Square, q: Piece)
    requires |board| == 81
    requires Material(q) == Material(board[from])
    ensures OnBoard(board[from := EMP][to := q]) + (if from == to then multiset{} else Material(board[to]))
         == OnBoard(board)
  {
    var b1 := board[from := EMP];
    OnBoardUpdate(board, from, EMP);
    OnBoardUpdate(b1, to, q);
    assert Material(b1[to]) == if from == to then multiset{} else Material(board[to]);
    forall k ensures (OnBoard(b1[to := q]) + Material(b1[to]))[k] == OnBoard(board)[k] {
      assert (OnBoard(b1[to := q]) + Material(b1[to]))[k] == (OnBoard(b1) + Material(q))[k];
      assert (OnBoard(b1) + Material(board[from]))[k] == (OnBoard(board) + Material(EMP))[k];
    }
  }

  /** MoveConservesMaterial over the pieces the move leaves. */
  lemma MovedMaterial(s: Pos, m: Move, board: seq<Piece>, hands: seq<Hand>)
    requires CanDo(s, m) && |hands| == COLOR_NUM && MovedPieces(s, m, board, hands)
    requires m.Drop? ==> s.board[m.to] == EMP && Num(s.hands[CI(s.color)], DemotedType(m.piece.kind)) > 0
    ensures AllMaterial(board, hands) == AllMaterial(s.board, s.hands)
  {
    if m.Normal? {
      MovedNormal(s, m, board, hands);
    } else {
      var h, p := s.hands[CI(s.color)], m.piece;
      OnBoardUpdate(s.board, m.to, p);
      HandRefill(h, p.kind);
      Traded(s.board, s.hands, board, hands, s.color, multiset{}, Material(p));
    }
  }

  /** MovedMaterial for a normal move: a captured piece goes from the board
      into the mover's hand. */
  lemma MovedNormal(s: Pos, m: Move, board: seq<Piece>, hands: seq<Hand>)
    requires m.Normal? && CanDo(s, m) && |hands| == COLOR_NUM && MovedPieces(s, m, board, hands)
    ensures AllMaterial(board, hands) == AllMaterial(s.board, s.hands)
  {
    var c, pF := s.color, s.board[m.from];
    SameBase(pF);
    PlayedBoard(s.board, m.from, m.to, if m.promotion then Promoted(pF) else pF);
    var gone := if m.from == m.to then multiset{} else Material(s.board[m.to]);
    assert hands[CI(c)] == s.hands[CI(c)] + gone;
    Traded(s.board, s.hands, board, hands, c, gone, multiset{});
  }

  /** Piece conservation for `undo_move`, when the origin is vacant and the
      mover's hand still holds the captured piece: the captured piece goes
      from the hand back onto the board, a dropped piece back into the hand. */
  lemma UndoConservesMaterial(s: Pos, m: Move)
    requires UndoFits(s, m)
    requires m.Normal? && m.captured.Pc? ==> Num(s.hands[CI(Opp(s.color))], DemotedType(m.captured.kind)) > 0
    ensures AllMaterial(AfterUndo(s, m).board, AfterUndo(s, m).hands) == AllMaterial(s.board, s.hands)
  {
    BoardAfterUndo(s, m);
    var r := AfterUndo(s, m);
    UnmovedMaterial(s, m, r.board, r.hands);
  }

  /** Putting `cap` back on `to` and the moved piece back on a vacant `from`
      adds exactly `cap` to the board. */
  lemma UnplayedBoard(board: seq<Piece>, from: Square, to: Square, cap: Piece, back: Piece)
    requires |board| == 81
    requires Material(back) == Material(board[to])
    requires if from == to then cap == EMP else board[from] == EMP
    ensures OnBoard(board[to := cap][from := back]) == OnBoard(board) + Material(cap)
  {
    var b1 := board[to := cap];
    OnBoardUpdate(board, to, cap);
    OnBoardUpdate(b1, from, back);
    assert Material(b1[from]) == multiset{};
    forall q ensures OnBoard(b1[from := back])[q] == (OnBoard(board) + Material(cap))[q] {
      assert (OnBoard(b1[from := back]) + Material(b1[from]))[q] == (OnBoard(b1) + Material(back))[q];
      assert (OnBoard(b1) + Material(board[to]))[q] == (OnBoard(board) + Material(cap))[q];
    }
  }

  /** UndoConservesMaterial over the pieces the undo leaves. */
  lemma UnmovedMaterial(s: Pos, m: Move, board: seq<Piece>, hands: seq<Hand>)
    requires UndoFits(s, m) && |hands| == COLOR_NUM && UnmovedPieces(s, m, board, hands)
    requires m.Normal? && m.captured.Pc? ==> Num(s.hands[CI(Opp(s.color))], DemotedType(m.captured.kind)) > 0
    ensures AllMaterial(board, hands) == AllMaterial(s.board, s.hands)
  {
    if m.Normal? {
      UnmovedNormal(s, m, board, hands);
    } else {
      OnBoardUpdate(s.board, m.to, EMP);
      Traded(s.board, s.hands, board, hands, Opp(s.color), Material(s.board[m.to]), multiset{});
    }
  }

  /** UnmovedMaterial for a normal move: the captured piece, if any, goes
      from the mover's hand back onto the board. */
  lemma UnmovedNormal(s: Pos, m: Move, board: seq<Piece>, hands: seq<Hand>)
    requires m.Normal? && UndoFits(s, m) && |hands| == COLOR_NUM && UnmovedPieces(s, m, board, hands)
    requires m.captured.Pc? ==> Num(s.hands[CI(Opp(s.color))], DemotedType(m.captured.kind)) > 0
    ensures AllMaterial(board, hands) == AllMaterial(s.board, s.hands)
  {
    var mover, pTo, cap := Opp(s.color), s.board[m.to], m.captured;
    var h := s.hands[CI(mover)];
    SameBase(pTo);
    UnplayedBoard(s.board, m.from, m.to, cap, if m.promotion then Demoted(pTo) else pTo);
    if cap.Pc? {
      HandRefill(h, cap.kind);
      assert hands[CI(mover)] + Material(cap) == h;
    } else {
      assert hands == s.hands;
      assert hands[CI(mover)] + Material(cap) == h;
    }
    Traded(s.board, s.hands, board, hands, mover, multiset{}, Material(cap));
  }

  /** `in_check`: the latest snapshot records at least one checker. */
  function InCheck(states: seq<State>): (b: bool)
    requires states != []
    ensures b <==> |states[|states| - 1].checkers| > 0
  {
    states[|states| - 1].checkers != {}
  }

  /** `k` is where `king(c)` points: the lowest square holding the king of `c`. */
  ghost predicate FirstKing(board: seq<Piece>, c: Color, k: Square)
    requires |board| == 81
  {
    board[k] == Pc(c, OU) && forall sq: Square :: board[sq] == Pc(c, OU) ==> k <= sq
  }

  /** After a drop the only possible checker is the dropped piece: the
      snapshot records `{to}` exactly when the other king exists and the
      attack table, asked for the dropped type on `to` for the mover,
      reaches it. The pinned squares are recomputed on the new board. */
  lemma DropCheckersAre(t: Tables, s: Pos, m: Move)
    requires s.Valid() && KeepsConsistent(s, m) && m.Drop?
    ensures var r := AfterMove(t, s, m);
      var top := r.states[|s.states|];
      && (top.checkers == {} || top.checkers == {m.to})
      && (InCheck(r.states) <==>
            exists k: Square :: FirstKing(r.board, Opp(s.color), k) &&
              k in t.attack(m.piece.kind, m.to, s.color, r.ptbb[OCCUPIED]))
      && top.pinned == PinnedOf(t, r.cbb, r.ptbb)
  {
    var r := AfterMove(t, s, m);
    DoMoveValid(t, s, m);
    PushedSnapshot(t, s, m);
    DropSnapshot(t, r, s.color, m.to, m.piece.kind, r.states[|s.states|]);
  }

  /** The snapshot `do_move` pushes, read off the position it produces. */
  lemma PushedSnapshot(t: Tables, s: Pos, m: Move)
    requires CanDo(s, m)
    ensures var r := AfterMove(t, s, m);
      r.states[|s.states|] == State(
        if m.Normal? then NormalCheckers(t, r, s.color) else DropCheckers(t, r, s.color, m.to, m.piece.kind),
        PinnedOf(t, r.cbb, r.ptbb))
  {
  }

  /** The drop checkers on a consistent position: `{to}` exactly when the
      first king of the other side is attacked from `to`. */
  lemma DropSnapshot(t: Tables, r: Pos, c: Color, to: Square, pt: PieceType, top: State)
    requires r.Valid() && top == State(DropCheckers(t, r, c, to, pt), PinnedOf(t, r.cbb, r.ptbb))
    ensures top.checkers == {} || top.checkers == {to}
    ensures top.checkers != {} <==>
      exists k: Square :: FirstKing(r.board, Opp(c), k) && k in t.attack(pt, to, c, r.ptbb[OCCUPIED])
  {
    KingOnBoard(r.board, r.cbb, r.ptbb, Opp(c));
    var king := KingOf(r.cbb, r.ptbb, Opp(c));
    if king.Some? {
      assert FirstKing(r.board, Opp(c), king.value);
    }
  }

  /** After a normal move the checkers are the mover's pieces whose own
      kind reaches the other side's king, read on the new board; with that
      king absent there are none. */
  lemma NormalCheckersAre(t: Tables, s: Pos, m: Move)
    requires s.Valid() && KeepsConsistent(s, m) && m.Normal?
    ensures var r, c := AfterMove(t, s, m), s.color;
      var top := r.states[|s.states|];
      && top.checkers <= r.cbb[CI(c)]
      && (forall sq: Square :: sq in top.checkers <==>
            exists k: Square :: FirstKing(r.board, Opp(c), k) &&
              r.board[sq].Pc? && r.board[sq].color == c &&
              sq in ReachedFrom(t, r.board[sq].kind, k, Opp(c), r.ptbb[OCCUPIED]))
      && top.pinned == PinnedOf(t, r.cbb, r.ptbb)
  {
    var r := AfterMove(t, s, m);
    DoMoveValid(t, s, m);
    PushedSnapshot(t, s, m);
    NormalSnapshot(t, r, s.color, r.states[|s.states|]);
  }

  /** The normal-move checkers on a consistent position: the pieces of `c`
      whose kind reaches the first king of the other side. */
  lemma NormalSnapshot(t: Tables, r: Pos, c: Color, top: State)
    requires r.Valid() && top == State(NormalCheckers(t, r, c), PinnedOf(t, r.cbb, r.ptbb))
    ensures top.checkers <= r.cbb[CI(c)]
    ensures forall sq: Square :: sq in top.checkers <==>
      exists k: Square :: FirstKing(r.board, Opp(c), k) &&
        r.board[sq].Pc? && r.board[sq].color == c &&
        sq in ReachedFrom(t, r.board[sq].kind, k, Opp(c), r.ptbb[OCCUPIED])
  {
    KingOnBoard(r.board, r.cbb, r.ptbb, Opp(c));
    var king := KingOf(r.cbb, r.ptbb, Opp(c));
    if king.Some? {
      var k := king.value;
      assert FirstKing(r.board, Opp(c), k);
      AttackersOnBoard(t, r.board, r.cbb, r.ptbb, c, k);
      forall k': Square | FirstKing(r.board, Opp(c), k')
        ensures k' == k
      {
      }
    }
  }

  /** The side just put in check after a normal move is in check exactly
      when some piece of the mover reaches its king. */
  lemma InCheckAfterNormal(t: Tables, s: Pos, m: Move)
    requires s.Valid() && KeepsConsistent(s, m) && m.Normal?
    ensures var r, c := AfterMove(t, s, m), s.color;
      InCheck(r.states) <==>
        exists k: Square, sq: Square :: FirstKing(r.board, Opp(c), k) &&
          r.board[sq].Pc? && r.board[sq].color == c &&
          sq in ReachedFrom(t, r.board[sq].kind, k, Opp(c), r.ptbb[OCCUPIED])
  {
    var r, c := AfterMove(t, s, m), s.color;
    NormalCheckersAre(t, s, m);
    var top := r.states[|s.states|];
    if InCheck(r.states) {
      var sq :| sq in top.checkers;
    }
  }

  /** One call on a position: `do_move(m)` or `undo_move(m)`. */
  datatype Step = Apply(m: Move) | Revert(m: Move)

  /** The position after one call, or None if the call would panic. */
  function Run(t: Tables, s: Pos, step: Step): (r: Option<Pos>)
    ensures r.Some? ==> r.value.color == Opp(s.color)
    ensures r.Some? && step.Apply? ==> |r.value.states| == |s.states| + 1
    ensures r.Some? && step.Revert? ==> |r.value.states| == if s.states == [] then 0 else |s.states| - 1
  {
    match step
    case Apply(m) => if CanDo(s, m) then Some(AfterMove(t, s, m)) else None
    case Revert(m) => if CanUndo(s, m) then Some(AfterUndo(s, m)) else None
  }

  /** The position after a sequence of calls, or None if some call would panic. */
  function Replay(t: Tables, s: Pos, steps: seq<Step>): Option<Pos>
    decreases |steps|
  {
    if steps == [] then Some(s)
    else match Run(t, s, steps[0])
      case None => None
      case Some(s1) => Replay(t, s1, steps[1..])
  }

  /** A replay that succeeds runs its first call and then the rest. */
  lemma ReplayStep(t: Tables, s: Pos, steps: seq<Step>)
    requires steps != [] && Replay(t, s, steps).Some?
    ensures Run(t, s, steps[0]).Some?
    ensures Replay(t, s, steps) == Replay(t, Run(t, s, steps[0]).value, steps[1..])
  {
  }

  function Applied(steps: seq<Step>): nat
  {
    if steps == [] then 0 else (if steps[0].Apply? then 1 else 0) + Applied(steps[1..])
  }

  function Reverted(steps: seq<Step>): nat
  {
    if steps == [] then 0 else (if steps[0].Revert? then 1 else 0) + Reverted(steps[1..])
  }

  /** No undo is issued while the stack of height `h` is empty. */
  predicate NeverUnderflows(h: nat, steps: seq<Step>)
    decreases |steps|
  {
    steps == [] ||
    if steps[0].Apply? then NeverUnderflows(h + 1, steps[1..])
    else h > 0 && NeverUnderflows(h - 1, steps[1..])
  }

  /** Stack bookkeeping: every do pushes one snapshot and every undo pops one. */
  lemma {:induction false} ReplayHeight(t: Tables, s: Pos, steps: seq<Step>)
    requires Replay(t, s, steps).Some? && NeverUnderflows(|s.states|, steps)
    ensures |Replay(t, s, steps).value.states| == |s.states| + Applied(steps) - Reverted(steps)
    decreases |steps|
  {
    if steps != [] {
      ReplayStep(t, s, steps);
      var s1 := Run(t, s, steps[0]).value;
      assert |s1.states| == if steps[0].Apply? then |s.states| + 1 else |s.states| - 1;
      ReplayHeight(t, s1, steps[1..]);
    }
  }

  /** Running `a` then `b` is running `a + b`. */
  lemma {:induction false} ReplayAppend(t: Tables, s: Pos, a: seq<Step>, b: seq<Step>)
    ensures Replay(t, s, a + b) == match Replay(t, s, a) case None => None case Some(x) => Replay(t, x, b)
    decreases |a|
  {
    if a != [] {
      assert (a + b)[0] == a[0] && (a + b)[1..] == a[1..] + b;
      if Run(t, s, a[0]).Some? {
        ReplayAppend(t, Run(t, s, a[0]).value, a[1..], b);
      }
    } else {
      assert a + b == b;
    }
  }

  /** Every move of `ms` is reversible on the position it is played on. */
  predicate AllReversible(t: Tables, s: Pos, ms: seq<Move>)
    decreases |ms|
  {
    ms == [] || (Reversible(s, ms[0]) && AllReversible(t, AfterMove(t, s, ms[0]), ms[1..]))
  }

  function Applies(ms: seq<Move>): seq<Step>
  {
    seq(|ms|, i requires 0 <= i < |ms| => Apply(ms[i]))
  }

  /** A sequence is reversible when its first move is and the rest are from where it leads. */
  lemma AllReversibleStep(t: Tables, s: Pos, ms: seq<Move>)
    requires ms != [] && Reversible(s, ms[0]) && AllReversible(t, AfterMove(t, s, ms[0]), ms[1..])
    ensures AllReversible(t, s, ms)
  {
  }

  /** Replaying do calls runs the first move and then the rest. */
  lemma ReplayApplies(t: Tables, s: Pos, ms: seq<Move>)
    requires ms != [] && CanDo(s, ms[0])
    ensures Replay(t, s, Applies(ms)) == Replay(t, AfterMove(t, s, ms[0]), Applies(ms[1..]))
  {
    assert Applies(ms)[1..] == Applies(ms[1..]);
  }

  /** Undo calls for `ms` taken in reverse order. */
  function RevertsBackwards(ms: seq<Move>): seq<Step>
  {
    seq(|ms|, i requires 0 <= i < |ms| => Revert(ms[|ms| - 1 - i]))
  }

  /** Playing a sequence of reversible moves and undoing them last to first
      gives back the starting position, field for field. */
  lemma {:induction false} ReplayRestores(t: Tables, s: Pos, ms: seq<Move>)
    requires AllReversible(t, s, ms)
    ensures Replay(t, s, Applies(ms) + RevertsBackwards(ms)) == Some(s)
    decreases |ms|
  {
    if ms != [] {
      var m, rest := ms[0], ms[1..];
      var s1 := AfterMove(t, s, m);
      RoundTrip(t, s, m);
      ReplayRestores(t, s1, rest);
      var inner := Applies(rest) + RevertsBackwards(rest);
      SplitSteps(ms);
      ReplayAppend(t, s1, inner, [Revert(m)]);
      assert Replay(t, s1, [Revert(m)]) == Some(s) by {
        assert [Revert(m)][1..] == [];
      }
      assert ([Apply(m)] + (inner + [Revert(m)]))[1..] == inner + [Revert(m)];
    }
  }

  /** The calls for `ms` nest: do the first move, run the rest, undo the first move. */
  lemma SplitSteps(ms: seq<Move>)
    requires ms != []
    ensures Applies(ms) + RevertsBackwards(ms) ==
      [Apply(ms[0])] + (Applies(ms[1..]) + RevertsBackwards(ms[1..]) + [Revert(ms[0])])
  {
    var rest := ms[1..];
    var whole := Applies(ms) + RevertsBackwards(ms);
    var split := [Apply(ms[0])] + (Applies(rest) + RevertsBackwards(rest) + [Revert(ms[0])]);
    assert |whole| == |split|;
    forall i | 0 <= i < |whole|
      ensures whole[i] == split[i]
    {
      if i == 0 {
      } else if i < |ms| {
        assert whole[i] == Apply(ms[i]);
        assert split[i] == Applies(rest)[i - 1];
      } else if i < 2 * |ms| - 1 {
        assert whole[i] == Revert(ms[2 * |ms| - 1 - i]);
        assert split[i] == RevertsBackwards(rest)[i - |ms|];
      } else {
        assert whole[i] == Revert(ms[0]);
      }
    }
  }
}
