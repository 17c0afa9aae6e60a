/** `Position`: the board array, the hands, the side to move, the two
    bitboard indexes and the snapshot stack, updated in place. Every
    mutating method is proved to change the fields exactly as the matching
    function of module Moves says, so the properties proved there hold of
    the object. */
module Positions {
  import opened Types
  import opened Bitboards
  import opened Snapshot
  import opened Moves

  /** A hand count as passed to the constructor (`u8`). */
  type U8 = n: int | 0 <= n < 256

  /** The hand holding `nums[i]` pieces of `ALL_HAND[i]` for each listed type and nothing else. */
  function HandOf(nums: seq<U8>): (h: Hand)
    requires |nums| <= |ALL_HAND|
    ensures forall i :: 0 <= i < |nums| ==> Num(h, ALL_HAND[i]) == nums[i]
    ensures forall pt :: pt !in ALL_HAND[..|nums|] ==> Num(h, pt) == 0
  {
    if nums == [] then multiset{}
    else
      var k := |nums| - 1;
      var init := HandOf(nums[..k]);
      assert forall i :: 0 <= i < k ==> ALL_HAND[i] != ALL_HAND[k] by {
        HandSlotOf(k);
        forall i | 0 <= i < k
          ensures ALL_HAND[i] != ALL_HAND[k]
        {
          HandSlotOf(i);
        }
      }
      assert forall i :: 0 <= i < k ==> nums[..k][i] == nums[i];
      assert ALL_HAND[k] !in ALL_HAND[..k];
      assert Num(init, ALL_HAND[k]) == 0;
      var h := init + multiset{}[ALL_HAND[k] := nums[k]];
      assert forall pt :: pt !in ALL_HAND[..k + 1] ==> Num(h, pt) == 0 by {
        forall pt | pt !in ALL_HAND[..k + 1]
          ensures Num(h, pt) == 0
        {
          assert pt !in ALL_HAND[..k] && pt != ALL_HAND[k];
        }
      }
      h
  }

  /** The bitboards index exactly the squares of `board` below `n`: they
      agree with it there and hold nothing from `n` on. */
  ghost predicate IndexedBelow(board: seq<Piece>, cbb: seq<Bitboard>, ptbb: seq<Bitboard>, n: int)
    requires |board| == 81 && Sized(cbb, ptbb)
  {
    && (forall x: Square :: x < n ==> AgreesAt(board, cbb, ptbb, x))
    && (forall i, x: Square :: 0 <= i < COLOR_NUM && n <= x ==> x !in cbb[i])
    && (forall i, x: Square :: 0 <= i < PT_NUM && n <= x ==> x !in ptbb[i])
  }

  /** Adding square `sq`'s piece (if any) to its colour, OCCUPIED and its
      type extends the index by one square. */
  lemma IndexedOneMore(board: seq<Piece>, cb0: seq<Bitboard>, pb0: seq<Bitboard>,
                       cbb: seq<Bitboard>, ptbb: seq<Bitboard>, sq: Square)
    requires |board| == 81 && Sized(cb0, pb0) && IndexedBelow(board, cb0, pb0, sq)
    requires board[sq] == EMP ==> cbb == cb0 && ptbb == pb0
    requires board[sq].Pc? ==> (var p := board[sq];
      && cbb == cb0[CI(p.color) := cb0[CI(p.color)] + {sq}]
      && ptbb == pb0[OCCUPIED := pb0[OCCUPIED] + {sq}][PI(p.kind) := pb0[PI(p.kind)] + {sq}])
    ensures Sized(cbb, ptbb) && IndexedBelow(board, cbb, ptbb, sq + 1)
  {
    assert AgreesAt(board, cbb, ptbb, sq);
    forall x: Square | x < sq
      ensures AgreesAt(board, cbb, ptbb, x)
    {
      assert AgreesAt(board, cb0, pb0, x);
    }
  }

  /** The board loop of `Position::new`: OR each occupied square into its
      colour's bitboard, OCCUPIED and its type's bitboard. */
  method IndexBoard(board: seq<Piece>) returns (cbb: array<Bitboard>, ptbb: array<Bitboard>)
    requires |board| == 81
    ensures fresh(cbb) && fresh(ptbb) && cbb.Length == COLOR_NUM && ptbb.Length == PT_NUM
    ensures Consistent(board, cbb[..], ptbb[..])
  {
    cbb := new Bitboard[COLOR_NUM](_ => {});
    ptbb := new Bitboard[PT_NUM](_ => {});
    for sq := 0 to 81
      invariant IndexedBelow(board, cbb[..], ptbb[..], sq)
    {
      ghost var cb0, pb0 := cbb[..], ptbb[..];
      var piece := board[sq];
      if piece.Pc? {
        cbb[CI(piece.color)] := cbb[CI(piece.color)] + {sq};
      }
      if piece.Pc? {
        ptbb[OCCUPIED] := ptbb[OCCUPIED] + {sq};
        ptbb[PI(piece.kind)] := ptbb[PI(piece.kind)] + {sq};
      }
      IndexedOneMore(board, cb0, pb0, cbb[..], ptbb[..], sq);
    }
  }

  /** The hand loops of `Position::new`: for each colour, fill its hand from its counts. */
  method FillHands(handNums: seq<seq<U8>>) returns (hs: array<Hand>)
    requires |handNums| == COLOR_NUM && forall i :: 0 <= i < COLOR_NUM ==> |handNums[i]| == |ALL_HAND|
    ensures fresh(hs) && hs.Length == COLOR_NUM
    ensures forall i :: 0 <= i < COLOR_NUM ==> hs[i] == HandOf(handNums[i])
  {
    hs := new Hand[COLOR_NUM](_ => multiset{});
    for ci := 0 to COLOR_NUM
      invariant forall j :: 0 <= j < ci ==> hs[j] == HandOf(handNums[j])
    {
      hs[ci] := FillHand(handNums[ci]);
    }
  }

  /** One colour's hand: increment each hand type as many times as its count says. */
  method FillHand(nums: seq<U8>) returns (h: Hand)
    requires |nums| == |ALL_HAND|
    ensures h == HandOf(nums)
  {
    h := multiset{};
    for i := 0 to |ALL_HAND|
      invariant h == HandOf(nums[..i])
    {
      var pt := ALL_HAND[i];
      var num := nums[i];
      assert nums[..i + 1][..i] == nums[..i];
      HandSlotOf(i);
      h := IncrementTimes(h, pt, num);
    }
    assert nums[..|ALL_HAND|] == nums;
  }

  /** The innermost hand loop: `num` increments of a hand type add `num` pieces of it. */
  method IncrementTimes(h0: Hand, pt: PieceType, num: U8) returns (h: Hand)
    requires DemotedType(pt) == pt
    ensures h == h0 + multiset{}[pt := num]
  {
    h := h0;
    for k := 0 to num
      invariant h == h0 + multiset{}[pt := k]
    {
      assert multiset{}[pt := k] + multiset{pt} == multiset{}[pt := k + 1];
      h := Increment(h, pt);
    }
  }

  /** The opening layout `Default` passes to `new`, one column per file from file 1 to file 9. */
  const DEFAULT_FILES: seq<seq<Piece>> := [
    [Pc(White, KY), EMP, Pc(White, FU), EMP, EMP, EMP, Pc(Black, FU), EMP, Pc(Black, KY)],
    [Pc(White, KE), Pc(White, KA), Pc(White, FU), EMP, EMP, EMP, Pc(Black, FU), Pc(Black, HI), Pc(Black, KE)],
    [Pc(White, GI), EMP, Pc(White, FU), EMP, EMP, EMP, Pc(Black, FU), EMP, Pc(Black, GI)],
    [Pc(White, KI), EMP, Pc(White, FU), EMP, EMP, EMP, Pc(Black, FU), EMP, Pc(Black, KI)],
    [Pc(White, OU), EMP, Pc(White, FU), EMP, EMP, EMP, Pc(Black, FU), EMP, Pc(Black, OU)],
    [Pc(White, KI), EMP, Pc(White, FU), EMP, EMP, EMP, Pc(Black, FU), EMP, Pc(Black, KI)],
    [Pc(White, GI), EMP, Pc(White, FU), EMP, EMP, EMP, Pc(Black, FU), EMP, Pc(Black, GI)],
    [Pc(White, KE), Pc(White, HI), Pc(White, FU), EMP, EMP, EMP, Pc(Black, FU), Pc(Black, KA), Pc(Black, KE)],
    [Pc(White, KY), EMP, Pc(White, FU), EMP, EMP, EMP, Pc(Black, FU), EMP, Pc(Black, KY)]
  ]

  const DEFAULT_BOARD: seq<Piece> := Flatten(DEFAULT_FILES)

  /** The files laid end to end. */
  function Flatten(files: seq<seq<Piece>>): seq<Piece>
  {
    if files == [] then [] else files[0] + Flatten(files[1..])
  }

  /** Square `9 * f + r` of the flattened board is rank r of file f. */
  lemma {:induction false} FlattenAt(files: seq<seq<Piece>>, f: int, r: int)
    requires forall i | 0 <= i < |files| :: |files[i]| == 9
    requires 0 <= f < |files| && 0 <= r < 9
    ensures |Flatten(files)| == 9 * |files|
    ensures Flatten(files)[9 * f + r] == files[f][r]
  {
    if f == 0 {
      FlattenLength(files[1..]);
    } else {
      FlattenAt(files[1..], f - 1, r);
    }
  }

  lemma {:induction false} FlattenLength(files: seq<seq<Piece>>)
    requires forall i | 0 <= i < |files| :: |files[i]| == 9
    ensures |Flatten(files)| == 9 * |files|
  {
    if files != [] {
      FlattenLength(files[1..]);
    }
  }

  /** The back-rank piece on a file, as both sides line up. */
  function BackRank(file: int): PieceType
  {
    if file == 1 || file == 9 then KY else if file == 2 || file == 8 then KE
    else if file == 3 || file == 7 then GI else if file == 4 || file == 6 then KI else OU
  }

  /** The opening layout as the repository's own test spells it out, rank by rank. */
  function ExpectedDefault(file: int, rank: int): Piece
  {
    if rank == 7 then Pc(Black, FU)
    else if rank == 9 then Pc(Black, BackRank(file))
    else if rank == 8 && file == 8 then Pc(Black, KA)
    else if rank == 8 && file == 2 then Pc(Black, HI)
    else if rank == 3 then Pc(White, FU)
    else if rank == 1 then Pc(White, BackRank(file))
    else if rank == 2 && file == 2 then Pc(White, KA)
    else if rank == 2 && file == 8 then Pc(White, HI)
    else EMP
  }

  /** One square of the columns agrees with the expected layout. */
  lemma FileLayout(file: int, rank: int)
    requires 1 <= file <= 9 && 1 <= rank <= 9
    ensures DEFAULT_FILES[file - 1][rank - 1] == ExpectedDefault(file, rank)
  {
    var column := DEFAULT_FILES[file - 1];
    if rank == 1 {} else if rank == 2 {} else if rank == 3 {} else if rank == 4 {} else if rank == 5 {}
    else if rank == 6 {} else if rank == 7 {} else if rank == 8 {} else {}
  }

  /** Every file of the opening layout has nine ranks. */
  lemma DefaultFilesShape()
    ensures |DEFAULT_FILES| == 9 && forall i | 0 <= i < 9 :: |DEFAULT_FILES[i]| == 9
  {
  }

  /** The opening board covers the 81 squares. */
  lemma DefaultBoardSize()
    ensures |DEFAULT_BOARD| == 81
  {
    DefaultFilesShape();
    FlattenLength(DEFAULT_FILES);
  }

  /** One square of the opening board holds what the repository's test expects there. */
  lemma DefaultSquare(file: int, rank: int)
    requires 1 <= file <= 9 && 1 <= rank <= 9
    ensures |DEFAULT_BOARD| == 81
    ensures DEFAULT_BOARD[Sq(file, rank)] == ExpectedDefault(file, rank)
  {
    DefaultFilesShape();
    FlattenAt(DEFAULT_FILES, file - 1, rank - 1);
    FileLayout(file, rank);
  }

  /** The opening layout is the one the repository's test expects on every square. */
  lemma DefaultLayout()
    ensures |DEFAULT_BOARD| == 81
    ensures forall file, rank | 1 <= file <= 9 && 1 <= rank <= 9 ::
      DEFAULT_BOARD[Sq(file, rank)] == ExpectedDefault(file, rank)
  {
    DefaultSquare(1, 1);
    forall file, rank | 1 <= file <= 9 && 1 <= rank <= 9
      ensures DEFAULT_BOARD[Sq(file, rank)] == ExpectedDefault(file, rank)
    {
      DefaultSquare(file, rank);
    }
  }

  /** The hand counts `Default` passes: none of any type. */
  const NO_PIECES: seq<U8> := [0, 0, 0, 0, 0, 0, 0]

  /** A hand built from zero counts is empty. */
  lemma EmptyHand()
    ensures HandOf(NO_PIECES) == multiset{}
  {
    var h := HandOf(NO_PIECES);
    assert ALL_HAND[..|NO_PIECES|] == ALL_HAND;
    forall pt
      ensures h[pt] == 0
    {
      if pt in ALL_HAND {
        var i :| 0 <= i < |ALL_HAND| && ALL_HAND[i] == pt;
        assert Num(h, ALL_HAND[i]) == NO_PIECES[i];
      }
    }
  }

  /** The five moves the repository's do/undo test plays from the opening:
      two pawn pushes, a bishop exchange on SQ22 that promotes, the silver
      recapture, and a bishop drop on SQ33. */
  const DO_UNDO_MOVES: seq<Move> := [
    Normal(Sq(7, 7), Sq(7, 6), false, Pc(Black, FU), EMP),
    Normal(Sq(3, 3), Sq(3, 4), false, Pc(White, FU), EMP),
    Normal(Sq(8, 8), Sq(2, 2), true, Pc(Black, UM), Pc(White, KA)),
    Normal(Sq(3, 1), Sq(2, 2), false, Pc(White, GI), Pc(Black, UM)),
    Drop(Sq(3, 3), Pc(Black, KA))
  ]

  /** The squares and hands the do/undo scenario touches. */
  datatype Watched = Watched(
    side: Color, sq77: Piece, sq76: Piece, sq33: Piece, sq34: Piece, sq88: Piece, sq22: Piece, sq31: Piece,
    black: Hand, white: Hand)

  function Watch(s: Pos): Watched
    requires s.Shaped()
  {
    Watched(s.color, s.board[Sq(7, 7)], s.board[Sq(7, 6)], s.board[Sq(3, 3)], s.board[Sq(3, 4)],
                        s.board[Sq(8, 8)], s.board[Sq(2, 2)], s.board[Sq(3, 1)], s.hands[CI(Black)], s.hands[CI(White)])
  }

  /** What the watched squares and hands hold after `k` of the scenario's moves. */
  function Stage(k: nat): Watched
  {
    var b := Pc(Black, FU);
    var w := Pc(White, FU);
    if k == 0 then Watched(Black, b, EMP, w, EMP, Pc(Black, KA), Pc(White, KA), Pc(White, GI), multiset{}, multiset{})
    else if k == 1 then Watched(White, EMP, b, w, EMP, Pc(Black, KA), Pc(White, KA), Pc(White, GI), multiset{}, multiset{})
    else if k == 2 then Watched(Black, EMP, b, EMP, w, Pc(Black, KA), Pc(White, KA), Pc(White, GI), multiset{}, multiset{})
    else if k == 3 then Watched(White, EMP, b, EMP, w, EMP, Pc(Black, UM), Pc(White, GI), multiset{KA}, multiset{})
    else if k == 4 then Watched(Black, EMP, b, EMP, w, EMP, Pc(White, GI), EMP, multiset{KA}, multiset{KA})
    else Watched(White, EMP, b, Pc(Black, KA), w, EMP, Pc(White, GI), EMP, multiset{}, multiset{KA})
  }

  /** The position is at stage `k` of the scenario. */
  predicate ScenarioAt(k: nat, s: Pos)
  {
    s.Shaped() && Watch(s) == Stage(k)
  }

  /** Move `k` of the scenario can be taken back and leads to the next stage. */
  lemma ScenarioStep(t: Tables, k: nat, s: Pos)
    requires k < |DO_UNDO_MOVES| && ScenarioAt(k, s)
    ensures Reversible(s, DO_UNDO_MOVES[k])
    ensures ScenarioAt(k + 1, AfterMove(t, s, DO_UNDO_MOVES[k]))
  {
    var m := DO_UNDO_MOVES[k];
    StageReversible(k, s);
    BoardAfterMove(t, s, m);
    var d := AfterMove(t, s, m);
    if k == 0 { StepPush(s, d); } else if k == 1 { StepReply(s, d); } else if k == 2 { StepExchange(s, d); }
    else if k == 3 { StepRecapture(s, d); } else { StepDrop(s, d); }
  }

  /** Each move of the scenario finds its piece, its capture and its hand as it expects. */
  lemma StageReversible(k: nat, s: Pos)
    requires k < |DO_UNDO_MOVES| && ScenarioAt(k, s)
    ensures Reversible(s, DO_UNDO_MOVES[k])
  {
    if k == 4 {
      assert Num(s.hands[CI(Black)], KA) == 1;
    }
  }

  /** Taking a bishop or a horse puts one bishop in an empty hand; dropping it empties the hand again. */
  lemma BishopInHand()
    ensures Increment(multiset{}, KA) == multiset{KA} && Increment(multiset{}, UM) == multiset{KA}
    ensures Decrement(multiset{KA}, KA) == multiset{}
  {
    assert DemotedType(UM) == KA;
  }

  /** 7g7f: Black's pawn steps forward. */
  lemma StepPush(s: Pos, d: Pos)
    requires ScenarioAt(0, s) && d.Shaped() && d.color == Opp(s.color)
    requires MovedPieces(s, DO_UNDO_MOVES[0], d.board, d.hands)
    ensures ScenarioAt(1, d)
  {
  }

  /** 3c3d: White's pawn steps forward, opening the bishop's diagonal. */
  lemma StepReply(s: Pos, d: Pos)
    requires ScenarioAt(1, s) && d.Shaped() && d.color == Opp(s.color)
    requires MovedPieces(s, DO_UNDO_MOVES[1], d.board, d.hands)
    ensures ScenarioAt(2, d)
  {
  }

  /** 8h2b+: Black's bishop takes White's and promotes; Black holds a bishop. */
  lemma StepExchange(s: Pos, d: Pos)
    requires ScenarioAt(2, s) && d.Shaped() && d.color == Opp(s.color)
    requires MovedPieces(s, DO_UNDO_MOVES[2], d.board, d.hands)
    ensures ScenarioAt(3, d)
  {
    BishopInHand();
  }

  /** 3a2b: White's silver takes the promoted bishop; White holds a bishop. */
  lemma StepRecapture(s: Pos, d: Pos)
    requires ScenarioAt(3, s) && d.Shaped() && d.color == Opp(s.color)
    requires MovedPieces(s, DO_UNDO_MOVES[3], d.board, d.hands)
    ensures ScenarioAt(4, d)
  {
    BishopInHand();
  }

  /** B*3c: Black drops its bishop; Black's hand is empty again. */
  lemma StepDrop(s: Pos, d: Pos)
    requires ScenarioAt(4, s) && d.Shaped() && d.color == Opp(s.color)
    requires MovedPieces(s, DO_UNDO_MOVES[4], d.board, d.hands)
    ensures ScenarioAt(5, d)
  {
    BishopInHand();
  }

  /** The remaining moves from stage `k` can all be taken back. */
  lemma {:induction false} ScenarioReversible(t: Tables, k: nat, s: Pos, ms: seq<Move>)
    requires k <= |DO_UNDO_MOVES| && ms == DO_UNDO_MOVES[k..] && ScenarioAt(k, s)
    ensures AllReversible(t, s, ms)
    decreases |ms|
  {
    if ms != [] {
      ScenarioStep(t, k, s);
      ScenarioReversible(t, k + 1, AfterMove(t, s, ms[0]), ms[1..]);
      AllReversibleStep(t, s, ms);
    }
  }

  /** Playing the remaining moves from stage `k` reaches the last stage. */
  lemma {:induction false} ScenarioPlayed(t: Tables, k: nat, s: Pos)
    requires k <= |DO_UNDO_MOVES| && ScenarioAt(k, s)
    ensures var r := Replay(t, s, Applies(DO_UNDO_MOVES[k..])); r.Some? && ScenarioAt(5, r.value)
    decreases |DO_UNDO_MOVES| - k
  {
    var ms := DO_UNDO_MOVES[k..];
    if k < |DO_UNDO_MOVES| {
      ScenarioStep(t, k, s);
      ScenarioPlayed(t, k + 1, AfterMove(t, s, ms[0]));
      assert ms[1..] == DO_UNDO_MOVES[k + 1..];
      ReplayApplies(t, s, ms);
    } else {
      assert ms == [];
    }
  }

  /** The do phase of the repository's do/undo test, from a position with
      the opening board, empty hands and Black to move: after the five moves
      SQ22 holds White's silver, SQ31 and SQ77 are empty, SQ33 holds Black's
      bishop, SQ76 Black's pawn, Black's hand is empty, White holds the
      bishop and White is to move. */
  lemma DoUndoPlayed(t: Tables, s: Pos)
    requires s.Shaped() && s.board == DEFAULT_BOARD && s.color == Black
    requires s.hands == [multiset{}, multiset{}]
    ensures var r := Replay(t, s, Applies(DO_UNDO_MOVES));
      && r.Some? && r.value.Shaped()
      && r.value.board[Sq(2, 2)] == Pc(White, GI) && r.value.board[Sq(3, 1)] == EMP
      && r.value.board[Sq(3, 3)] == Pc(Black, KA) && r.value.board[Sq(7, 6)] == Pc(Black, FU)
      && r.value.board[Sq(7, 7)] == EMP
      && r.value.hands[CI(Black)] == multiset{} && r.value.hands[CI(White)] == multiset{KA}
      && r.value.color == White
  {
    OpeningSquares(s);
    ScenarioPlayed(t, 0, s);
    assert DO_UNDO_MOVES[0..] == DO_UNDO_MOVES;
    LastStage(Replay(t, s, Applies(DO_UNDO_MOVES)).value);
  }

  /** What the last stage of the scenario says about the squares, the hands and the side. */
  lemma LastStage(r: Pos)
    requires ScenarioAt(5, r)
    ensures r.board[Sq(2, 2)] == Pc(White, GI) && r.board[Sq(3, 1)] == EMP
    ensures r.board[Sq(3, 3)] == Pc(Black, KA) && r.board[Sq(7, 6)] == Pc(Black, FU)
    ensures r.board[Sq(7, 7)] == EMP
    ensures r.hands[CI(Black)] == multiset{} && r.hands[CI(White)] == multiset{KA}
    ensures r.color == White
  {
  }

  /** The undo phase of the same test: every move of the scenario can be
      taken back, and undoing them last to first gives the starting position
      back, field for field. */
  lemma DoUndoRestores(t: Tables, s: Pos)
    requires s.Shaped() && s.board == DEFAULT_BOARD && s.color == Black
    requires s.hands == [multiset{}, multiset{}]
    ensures AllReversible(t, s, DO_UNDO_MOVES)
    ensures Replay(t, s, Applies(DO_UNDO_MOVES) + RevertsBackwards(DO_UNDO_MOVES)) == Some(s)
  {
    OpeningSquares(s);
    ScenarioReversible(t, 0, s, DO_UNDO_MOVES);
    assert DO_UNDO_MOVES[0..] == DO_UNDO_MOVES;
    ReplayRestores(t, s, DO_UNDO_MOVES);
  }

  /** The opening squares the do/undo scenario touches. */
  lemma OpeningSquares(s: Pos)
    requires s.board == DEFAULT_BOARD
    ensures s.board[Sq(7, 7)] == Pc(Black, FU) && s.board[Sq(7, 6)] == EMP
    ensures s.board[Sq(3, 3)] == Pc(White, FU) && s.board[Sq(3, 4)] == EMP
    ensures s.board[Sq(8, 8)] == Pc(Black, KA) && s.board[Sq(2, 2)] == Pc(White, KA)
    ensures s.board[Sq(3, 1)] == Pc(White, GI)
  {
    DefaultLayout();
    assert ExpectedDefault(7, 7) == Pc(Black, FU) && ExpectedDefault(7, 6) == EMP;
    assert ExpectedDefault(3, 3) == Pc(White, FU) && ExpectedDefault(3, 4) == EMP;
    assert ExpectedDefault(8, 8) == Pc(Black, KA) && ExpectedDefault(2, 2) == Pc(White, KA);
    assert ExpectedDefault(3, 1) == Pc(White, GI);
  }

  class Position {
    const board: array<Piece>
    const hands: array<Hand>
    var color: Color
    const cBB: array<Bitboard>
    const ptBB: array<Bitboard>
    var states: seq<State>

    /** The arrays have their fixed sizes and the two bitboard arrays are distinct. */
    ghost predicate Shaped()
      reads this
    {
      board.Length == 81 && hands.Length == COLOR_NUM && cBB.Length == COLOR_NUM
      && ptBB.Length == PT_NUM && cBB != ptBB
    }

    /** The fields as a value. */
    ghost function Abstract(): (s: Pos)
      reads this, board, hands, cBB, ptBB
      requires Shaped()
      ensures s.Shaped()
    {
      Pos(board[..], hands[..], color, cBB[..], ptBB[..], states)
    }

    /** The data invariant: every bitboard agrees with the board array. */
    ghost predicate Valid()
      reads this, board, hands, cBB, ptBB
    {
      Shaped() && Abstract().Valid()
    }

    /** `Position::new`: index the board into bitboards square by square,
        fill the hands count by count, and start the stack with a snapshot
        that has no checkers and the pinned squares of the new board. */
    constructor (t: Tables, boardIn: seq<Piece>, handNums: seq<seq<U8>>, sideToMove: Color)
      requires |boardIn| == 81
      requires |handNums| == COLOR_NUM && forall i :: 0 <= i < COLOR_NUM ==> |handNums[i]| == |ALL_HAND|
      ensures Valid()
      ensures board[..] == boardIn && color == sideToMove
      ensures forall i :: 0 <= i < COLOR_NUM ==> hands[i] == HandOf(handNums[i])
      ensures states == [State({}, PinnedOf(t, cBB[..], ptBB[..]))]
      ensures fresh(board) && fresh(hands) && fresh(cBB) && fresh(ptBB)
    {
      var cbb, ptbb := IndexBoard(boardIn);
      var hs := FillHands(handNums);
      var pinned := CalculatePinned(t, cbb[..], ptbb[..]);
      board := new Piece[81](i => if 0 <= i < |boardIn| then boardIn[i] else EMP);
      hands := hs;
      color := sideToMove;
      cBB := cbb;
      ptBB := ptbb;
      states := [State({}, pinned)];
      new;
      assert board[..] == boardIn;
    }

    /** `pieces_cp`: the squares holding the piece of that colour and type. */
    function PiecesCP(c: Color, pt: PieceType): (r: Bitboard)
      reads this, board, hands, cBB, ptBB
      requires Shaped()
      ensures Valid() ==> forall sq: Square :: sq in r <==> board[sq] == Pc(c, pt)
    {
      var r := PiecesC(c) * PiecesP(pt);
      assert Valid() ==> forall sq: Square :: sq in r <==> board[sq] == Pc(c, pt) by {
        if Valid() {
          BitsOnBoard(board[..], cBB[..], ptBB[..]);
        }
      }
      r
    }

    /** `pieces_c`: the squares holding a piece of colour `c`. */
    function PiecesC(c: Color): (r: Bitboard)
      reads this, board, hands, cBB, ptBB
      requires Shaped()
      ensures Valid() ==> forall sq: Square :: sq in r <==> board[sq].Pc? && board[sq].color == c
    {
      assert Valid() ==> forall sq: Square :: sq in cBB[CI(c)] <==> board[sq].Pc? && board[sq].color == c by {
        if Valid() {
          BitsOnBoard(board[..], cBB[..], ptBB[..]);
        }
      }
      cBB[CI(c)]
    }

    /** `pieces_p`: the squares holding a piece of type `pt`. */
    function PiecesP(pt: PieceType): (r: Bitboard)
      reads this, board, hands, cBB, ptBB
      requires Shaped()
      ensures Valid() ==> forall sq: Square :: sq in r <==> board[sq].Pc? && board[sq].kind == pt
    {
      assert Valid() ==> forall sq: Square :: sq in ptBB[PI(pt)] <==> board[sq].Pc? && board[sq].kind == pt by {
        if Valid() {
          BitsOnBoard(board[..], cBB[..], ptBB[..]);
        }
      }
      ptBB[PI(pt)]
    }

    /** `pieces_ps`: the squares holding a piece of any of the types `pts`. */
    function PiecesPs(pts: seq<PieceType>): (r: Bitboard)
      reads this, board, hands, cBB, ptBB
      requires Shaped()
      ensures Valid() ==> forall sq: Square :: sq in r <==> board[sq].Pc? && board[sq].kind in pts
    {
      assert Valid() ==> forall sq: Square :: sq in UnionOf(ptBB[..], pts) <==> board[sq].Pc? && board[sq].kind in pts by {
        if Valid() {
          UnionOfOnBoard(board[..], cBB[..], ptBB[..], pts);
        }
      }
      UnionOf(ptBB[..], pts)
    }

    /** `occupied`: the squares holding any piece. */
    function Occupied(): (r: Bitboard)
      reads this, board, hands, cBB, ptBB
      requires Shaped()
      ensures Valid() ==> forall sq: Square :: sq in r <==> board[sq] != EMP
    {
      assert Valid() ==> forall sq: Square :: sq in ptBB[OCCUPIED] <==> board[sq] != EMP by {
        if Valid() {
          BitsOnBoard(board[..], cBB[..], ptBB[..]);
        }
      }
      ptBB[OCCUPIED]
    }

    /** `king(c)`: the lowest square holding the king of `c`, if there is one. */
    function King(c: Color): (r: Option<Square>)
      reads this, board, hands, cBB, ptBB
      requires Shaped()
      ensures Valid() ==> (r.Some? ==> FirstKing(board[..], c, r.value))
      ensures Valid() ==> (r.None? <==> forall sq: Square :: board[sq] != Pc(c, OU))
    {
      var r := FirstSquare(PiecesCP(c, OU), 0);
      assert Valid() ==>
        (r.Some? ==> FirstKing(board[..], c, r.value)) && (r.None? <==> forall sq: Square :: board[sq] != Pc(c, OU)) by {
        if Valid() {
          KingOnBoard(board[..], cBB[..], ptBB[..], c);
        }
      }
      r
    }

    /** `attackers_to(c, to)`: the attackers of `to` among the pieces of colour `c`. */
    function AttackersTo(t: Tables, c: Color, to: Square): (r: Bitboard)
      reads this, cBB, ptBB
      requires Shaped()
      ensures r <= PiecesC(c)
    {
      Attackers(t, cBB[..], ptBB[..], c, to)
    }

    /** On a consistent position the attackers of `to` are exactly the
        pieces of colour `c` whose kind reaches `to` from where they stand. */
    lemma AttackersToOnBoard(t: Tables, c: Color, to: Square)
      requires Valid()
      ensures forall sq: Square :: sq in AttackersTo(t, c, to) <==>
        board[sq].Pc? && board[sq].color == c && sq in ReachedFrom(t, board[sq].kind, to, Opp(c), ptBB[OCCUPIED])
    {
      AttackersOnBoard(t, board[..], cBB[..], ptBB[..], c, to);
    }

    /** `checkers`: the checkers of the latest snapshot (panics on an empty stack). */
    function Checkers(): (r: Bitboard)
      reads this
      requires states != []
      ensures r == states[|states| - 1].checkers
    {
      states[|states| - 1].checkers
    }

    /** `pinned`: the pinned squares of the latest snapshot (panics on an empty stack). */
    function Pinned(): (r: ByColor<Bitboard>)
      reads this
      requires states != []
      ensures r == states[|states| - 1].pinned
    {
      states[|states| - 1].pinned
    }

    /** `in_check`: the latest snapshot records a checker. */
    function InCheck(): (b: bool)
      reads this
      requires states != []
      ensures b <==> |states[|states| - 1].checkers| > 0
    {
      Moves.InCheck(states)
    }

    /** `xor_bbs`. */
    method XorBbs(c: Color, pt: PieceType, sq: Square)
      requires Shaped()
      modifies cBB, ptBB
      ensures Abstract() == Xored(old(Abstract()), c, pt, sq)
    {
      cBB[CI(c)] := Toggle(cBB[CI(c)], sq);
      ptBB[OCCUPIED] := Toggle(ptBB[OCCUPIED], sq);
      ptBB[PI(pt)] := Toggle(ptBB[PI(pt)], sq);
    }

    /** `put_piece` (a piece with no colour or type panics). */
    method PutPiece(sq: Square, p: Piece)
      requires Shaped() && p.Pc?
      modifies board, cBB, ptBB
      ensures Abstract() == Placed(old(Abstract()), sq, p)
      ensures old(Valid()) ==> (Valid() <==> old(board[sq]) == EMP)
    {
      if Valid() {
        PlacedValid(Abstract(), sq, p);
      }
      XorBbs(p.color, p.kind, sq);
      board[sq] := p;
    }

    /** `remove_piece` (a piece with no colour or type panics). */
    method RemovePiece(sq: Square, p: Piece)
      requires Shaped() && p.Pc?
      modifies board, cBB, ptBB
      ensures Abstract() == Cleared(old(Abstract()), sq, p)
      ensures old(Valid()) ==> (Valid() <==> old(board[sq]) == p)
    {
      if Valid() {
        ClearedValid(Abstract(), sq, p);
      }
      XorBbs(p.color, p.kind, sq);
      board[sq] := EMP;
    }

    /** `do_normal_move`: returns the snapshot to push. */
    method DoNormalMove(t: Tables, from: Square, to: Square, promotion: bool) returns (st: State)
      requires Shaped() && board[from].Pc?
      modifies board, hands, cBB, ptBB
      ensures Abstract() == AfterNormal(old(Abstract()), from, to, promotion)
      ensures st == State(NormalCheckers(t, Abstract(), color), PinnedOf(t, cBB[..], ptBB[..]))
    {
      var c := color;
      MovePiece(from, to, promotion);
      var king := King(Opp(c));
      var checkers := if king.Some? then AttackersTo(t, c, king.value) else {};
      var pinned := CalculatePinned(t, cBB[..], ptBB[..]);
      st := State(checkers, pinned);
    }

    /** The board half of `do_normal_move`: lift the piece off `from`,
        capture whatever stands on `to`, put the piece (promoted if asked)
        on `to`. */
    method MovePiece(from: Square, to: Square, promotion: bool)
      requires Shaped() && board[from].Pc?
      modifies board, hands, cBB, ptBB
      ensures Abstract() == AfterNormal(old(Abstract()), from, to, promotion)
    {
      var pFrom := board[from];
      RemovePiece(from, pFrom);
      if board[to].Pc? {
        Capture(to);
      }
      var pTo := if promotion then Promoted(pFrom) else pFrom;
      PutPiece(to, pTo);
    }

    /** The capture step of `do_normal_move`: the captured piece's bits go
        and the mover's hand gains its base type (the board square is
        overwritten next). */
    method Capture(to: Square)
      requires Shaped() && board[to].Pc?
      modifies hands, cBB, ptBB
      ensures Abstract() == Captured(old(Abstract()), to)
    {
      var pt := board[to].kind;
      XorBbs(Opp(color), pt, to);
      hands[CI(color)] := Increment(hands[CI(color)], pt);
    }

    /** `do_drop_move`: returns the snapshot to push (a piece with no type panics). */
    method DoDropMove(t: Tables, to: Square, p: Piece) returns (st: State)
      requires Shaped() && p.Pc?
      modifies board, hands, cBB, ptBB
      ensures Abstract() == AfterDrop(old(Abstract()), to, p)
      ensures st == State(DropCheckers(t, Abstract(), color, to, p.kind), PinnedOf(t, cBB[..], ptBB[..]))
    {
      var c := color;
      var pt := p.kind;
      PutPiece(to, p);
      hands[CI(c)] := Decrement(hands[CI(c)], pt);
      var king := King(Opp(c));
      var checkers := if king.Some? && king.value in t.attack(pt, to, c, Occupied()) then {to} else {};
      var pinned := CalculatePinned(t, cBB[..], ptBB[..]);
      st := State(checkers, pinned);
    }

    /** `do_move`. */
    method DoMove(t: Tables, m: Move)
      requires Shaped() && CanDo(Abstract(), m)
      modifies this, board, hands, cBB, ptBB
      ensures Shaped()
      ensures Abstract() == AfterMove(t, old(Abstract()), m)
      ensures old(Valid()) && KeepsConsistent(old(Abstract()), m) ==> Valid()
    {
      ghost var s0 := Abstract();
      if Valid() && KeepsConsistent(s0, m) {
        DoMoveValid(t, s0, m);
      }
      var state;
      if m.Normal? {
        state := DoNormalMove(t, m.from, m.to, m.promotion);
      } else {
        state := DoDropMove(t, m.to, m.piece);
      }
      MoveSnapshot(t, s0, m, Abstract(), state);
      PushAndPass(state);
    }

    /** The tail of `do_move`: push the snapshot and pass the turn. */
    method PushAndPass(st: State)
      requires Shaped()
      modifies this
      ensures Shaped()
      ensures Abstract() == old(Abstract()).(states := old(states) + [st], color := Opp(old(color)))
    {
      states := states + [st];
      color := Opp(color);
    }

    /** `undo_move` (a move whose destination is empty panics). */
    method UndoMove(m: Move)
      requires Shaped() && CanUndo(Abstract(), m)
      modifies this, board, hands, cBB, ptBB
      ensures Shaped()
      ensures Abstract() == AfterUndo(old(Abstract()), m)
      ensures old(Valid()) && UndoFits(old(Abstract()), m) ==> Valid()
    {
      ghost var s0 := Abstract();
      if Valid() && UndoFits(s0, m) {
        UndoMoveValid(s0, m);
      }
      var c := color;
      var to := m.to;
      var pTo := board[to];
      RemovePiece(to, pTo);
      if m.Normal? {
        PutBack(m, pTo);
      } else {
        Refill(Opp(c), pTo.kind);
      }
      UnmoveSnapshot(s0, m, Abstract());
      PassAndPop();
    }

    /** The tail of `undo_move`: pass the turn back and pop the snapshot
        (popping an empty stack leaves it empty). */
    method PassAndPop()
      requires Shaped()
      modifies this
      ensures Shaped()
      ensures Abstract() == old(Abstract()).(color := Opp(old(color)),
        states := if old(states) == [] then [] else old(states)[..|old(states)| - 1])
    {
      color := Opp(color);
      if states != [] {
        states := states[..|states| - 1];
      }
    }

    /** The drop half of `undo_move`, once the piece is off its square: it
        returns to the hand of `c`. */
    method Refill(c: Color, pt: PieceType)
      requires Shaped()
      modifies hands
      ensures Abstract() == old(Abstract()).(hands := old(hands[..])[CI(c) := Increment(old(hands[CI(c)]), pt)])
    {
      hands[CI(c)] := Increment(hands[CI(c)], pt);
    }

    /** The normal-move half of `undo_move`, once the piece is off `to`: put
        the captured piece back (leaving the mover's hand) and return the
        piece, demoted if it promoted, to `from`. */
    method PutBack(m: Move, pTo: Piece)
      requires Shaped() && m.Normal? && pTo.Pc?
      modifies board, hands, cBB, ptBB
      ensures var s2 := if m.captured.Pc? then Uncaptured(old(Abstract()), m.to, m.captured) else old(Abstract());
        Abstract() == Placed(s2, m.from, if m.promotion then Demoted(pTo) else pTo)
    {
      var c := color;
      if m.captured.Pc? {
        PutPiece(m.to, m.captured);
        hands[CI(Opp(c))] := Decrement(hands[CI(Opp(c))], m.captured.kind);
      }
      var pFrom := if m.promotion then Demoted(pTo) else pTo;
      PutPiece(m.from, pFrom);
    }

    /** `Default`: the opening layout, empty hands, Black to move, no check. */
    static method Default(t: Tables) returns (p: Position)
      ensures p.Valid() && fresh(p)
      ensures fresh(p.board) && fresh(p.hands) && fresh(p.cBB) && fresh(p.ptBB)
      ensures p.board[..] == DEFAULT_BOARD && p.color == Black
      ensures forall i :: 0 <= i < COLOR_NUM ==> p.hands[i] == multiset{}
      ensures p.states == [State({}, PinnedOf(t, p.cBB[..], p.ptBB[..]))] && !p.InCheck()
    {
      DefaultBoardSize();
      p := NoneInHand(t, DEFAULT_BOARD, Black);
    }

    /** `Position::new` with a count of zero for every hand type of both sides. */
    static method NoneInHand(t: Tables, boardIn: seq<Piece>, sideToMove: Color) returns (p: Position)
      requires |boardIn| == 81
      ensures p.Valid() && fresh(p)
      ensures fresh(p.board) && fresh(p.hands) && fresh(p.cBB) && fresh(p.ptBB)
      ensures p.board[..] == boardIn && p.color == sideToMove
      ensures forall i :: 0 <= i < COLOR_NUM ==> p.hands[i] == multiset{}
      ensures p.states == [State({}, PinnedOf(t, p.cBB[..], p.ptBB[..]))] && !p.InCheck()
    {
      EmptyHand();
      p := new Position(t, boardIn, [NO_PIECES, NO_PIECES], sideToMove);
    }
  }
}
