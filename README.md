# Shogi position engine (yasai `src/position.rs`) in Dafny

This project models the position-state engine of the yasai shogi library: a
9x9 board array, the two hands of captured pieces, the side to move, two
redundant bitboard indexes (one bitboard per colour, one per piece type plus
the OCCUPIED aggregate) and a stack of snapshots (`State`: the squares giving
check and the pinned squares per colour).

- `types.dfy` (module `Types`): colours, squares (numbered file by file,
  SQ11 = 0 ... SQ99 = 80), piece types and pieces, hands as multisets, the
  self-describing move value, and the attack and between tables as a
  parameter `Tables`.
- `bitboards.dfy` (module `Bitboards`): bitboards as sets of squares, the
  consistency invariant between the board array and the bitboards, the
  `pieces_ps` fold, `king` and `attackers_to`.
- `state.dfy` (module `Snapshot`): the snapshot and `State::calculate_pinned`,
  both as a specification function and as the source's loops.
- `moves.dfy` (module `Moves`): the position as a value `Pos` and what
  `xor_bbs`, `put_piece`, `remove_piece`, `do_move` and `undo_move` do to it.
  The properties are proved here: the round trip, the invariant, the hands,
  the checkers, the stack height over any sequence of calls, and undoing a
  whole sequence of moves.
- `position.dfy` (module `Positions`): the class `Position`. Its arrays and
  fields are updated in place, and each method is proved to change them
  exactly as the matching function of `Moves` says. The module also holds
  `Position::new` with its loops, `Default` with the opening layout, and the
  repository's two tests as lemmas.

The model follows the code:

- `do_normal_move` captures whatever piece stands on the destination. It
  does not check that the piece belongs to the opponent. Its bits are always
  flipped as the opponent's.

## Model

| member | source | states |
|---|---|---|
| Types.HandRoundTrip | src/position.rs:158-162 | undo's decrement of the captured type takes back exactly the capture's increment; the count of the base type rises by one and no other count changes |
| Types.HandRefill | src/position.rs:173-176 | undo's increment after a drop restores the hand when the dropped type was held; the drop lowers that one count by one |
| Bitboards.Toggle | src/position.rs:234-238 | `bb ^= sq` flips membership of `sq` and of no other square |
| Bitboards.UnionOf | src/position.rs:112-115 | the `pieces_ps` fold contains the bitboard of every listed type, and is empty for an empty list |
| Bitboards.UnionOfMembers | src/position.rs:112-115 | a square is in the `pieces_ps` fold iff it is in the bitboard of one of the listed types |
| Bitboards.UnionOfOnBoard | src/position.rs:112-115 | on a consistent position the fold holds exactly the squares whose piece has one of the listed types |
| Bitboards.FirstSquare | src/position.rs:129 | `next` returns a member at or above the start that is below every other such member, and None only when there is none |
| Bitboards.KingOf | src/position.rs:128-130 | the square found holds a king of that colour in the bitboards; None means the colour and king bitboards do not meet |
| Bitboards.KingOnBoard | src/position.rs:128-130 | on a consistent position `king(c)` is the lowest square holding c's king, and None exactly when c has no king |
| Bitboards.Attackers | src/position.rs:240-251 | the attackers of a square are a subset of `pieces_c(c)` |
| Bitboards.AttackersOnBoard | src/position.rs:240-251 | on a consistent position a square is an attacker iff it holds a piece of colour c whose own kind (dragon = rook + silver, horse = bishop + gold, king = silver + gold, promoted minors = gold) reaches the target by the opposite-colour table lookup |
| Bitboards.AttackersByFamily | src/position.rs:243-250 | the source's seven family terms, with each `pieces_ps` list written out as a union of type bitboards |
| Bitboards.BitsOnBoard | src/position.rs:106-118 | on a consistent position `pieces_c`, `pieces_p` and `occupied` read exactly as the board array says, square by square |
| Snapshot.Snipers | src/position.rs:25-29 | the snipers are pieces of colour c |
| Snapshot.LoneBlocker | src/position.rs:31-35 | a sniper contributes only occupied squares strictly between it and the king, and at most one of them |
| Snapshot.PinnedBy | src/position.rs:20-40 | the pinned squares for a colour are occupied squares |
| Snapshot.PinnedOf | src/position.rs:20-40 | `calculate_pinned` holds, for each colour, that colour's pinned squares, all of them occupied |
| Snapshot.CalculatePinned | src/position.rs:20-40 | the two loops compute, for both colours, exactly the pinned squares of the specification |
| Snapshot.PinsFor | src/position.rs:22-37 | one colour's turn finds the other king and collects the lone blockers of the snipers, or nothing without that king |
| Snapshot.CollectPins | src/position.rs:30-36 | the inner loop ORs in the lone blocker of every sniper, whatever order the snipers are visited in |
| Snapshot.PinsAmongNext | src/position.rs:30-36 | visiting one more sniper adds exactly its lone blocker |
| Snapshot.PinnedCharacterised | src/position.rs:20-40 | b is pinned for c iff the king of !c exists and b is the one and only occupied square strictly between it and some sniper of c; without that king nothing is pinned |
| Snapshot.SnipersOnBoard | src/position.rs:25-29 | on a consistent position the snipers are exactly the pieces of colour c whose slider ray (lance, bishop/horse, rook/dragon) reaches the king square |
| Moves.Xored | src/position.rs:234-238 | `xor_bbs` leaves the board, the hands, the side to move and the stack unchanged |
| Moves.XoredBits | src/position.rs:234-238 | `xor_bbs` flips `sq` in exactly `c_bb[c]`, OCCUPIED and `pt_bb[pt]`; every other bit of every bitboard is kept |
| Moves.Placed | src/position.rs:218-225 | `put_piece` writes `p` on the square and flips its occupancy; hands, side to move and stack are unchanged |
| Moves.Cleared | src/position.rs:226-233 | `remove_piece` empties the square and flips its occupancy; hands, side to move and stack are unchanged |
| Moves.Captured | src/position.rs:187-190 | a capture leaves the board as is, flips the destination out of the opponent's colour bitboard and adds the captured base type to the mover's hand only |
| Moves.AfterNormal | src/position.rs:182-192 | the origin becomes empty and the (promoted) piece stands on the destination; the mover's hand gains the base type of a captured piece and nothing else changes in the hands |
| Moves.NormalCheckers | src/position.rs:193-197 | the checkers are pieces of the mover, and none when the other king is missing |
| Moves.AfterDrop | src/position.rs:201-205 | the dropped piece stands on the destination and the mover's hand holds one fewer of its type |
| Moves.DropCheckers | src/position.rs:206-212 | the checkers are empty or exactly the destination, and the destination only when the other king exists |
| Moves.Uncaptured | src/position.rs:158-162 | the captured piece is back on the destination and leaves the mover's hand; the other hand is untouched |
| Moves.InCheck | src/position.rs:119-121 | in check iff the latest snapshot has at least one checker |
| Moves.PlacedValid | src/position.rs:218-225 | on a consistent position `put_piece` keeps consistency iff the square was vacant, and leaves `p` on the square |
| Moves.ClearedValid | src/position.rs:226-233 | on a consistent position `remove_piece(sq, p)` keeps consistency iff `p` is the piece on the square, and leaves it empty |
| Moves.AfterMove | src/position.rs:142-150 | `do_move` pushes exactly one snapshot, keeps the older ones, and passes the turn |
| Moves.AfterUndo | src/position.rs:151-180 | `undo_move` pops exactly one snapshot (an empty stack stays empty) and passes the turn back |
| Moves.RoundTrip | src/position.rs:142-214 | for a reversible move, `undo_move(m)` after `do_move(m)` restores the board, the hands, the side to move, both bitboard indexes and the stack |
| Moves.RoundTripNormal | src/position.rs:182-199 | the round trip for a normal move, with or without capture and promotion |
| Moves.RoundTripDrop | src/position.rs:201-214 | the round trip for a drop |
| Moves.NormalBitsBack | src/position.rs:182-199 | undoing a normal move flips back every bit the move flipped |
| Moves.NormalPiecesBack | src/position.rs:156-170 | undoing a normal move restores the board and the hands |
| Moves.PiecesRestored | src/position.rs:156-170 | the pieces undo leaves behind after a normal move are the original board and hands |
| Moves.UndoneSquares | src/position.rs:164-169 | putting back the captured piece and the (demoted) moved piece restores every square |
| Moves.XoredTwice | src/position.rs:234-238 | flipping the same three bits twice restores both bitboard indexes |
| Moves.DoMoveValid | src/position.rs:142-214 | `do_move` preserves the consistency invariant for a move that leaves a piece's square and lands on a vacant or opposing square |
| Moves.MovedValid | src/position.rs:182-214 | the board change of either half of `do_move` keeps the bitboards in agreement with the board |
| Moves.UndoMoveValid | src/position.rs:151-180 | `undo_move` preserves the consistency invariant when a piece stands on the destination and the origin is vacant |
| Moves.BoardAfterMove | src/position.rs:182-214 | after `do_move` the board and hands are exactly: origin empty, (promoted) piece on the destination, captured base type added to the mover's hand; or for a drop, the piece on the destination and one fewer in hand |
| Moves.BoardAfterUndo | src/position.rs:151-177 | after `undo_move` the board and hands are exactly: captured piece back on the destination, (demoted) piece back on the origin, captured type out of the mover's hand; or for a drop, the destination empty and the piece back in hand |
| Moves.HandsAfterNormal | src/position.rs:187-190 | a capture adds one of the captured piece's base type to the mover's hand; no other count and not the other hand changes |
| Moves.CapturedIntoHand | src/position.rs:187-190 | the same count-by-count statement over the pieces a normal move leaves |
| Moves.HandsAfterDrop | src/position.rs:205 | a drop takes one of the dropped base type from the mover's hand (a zero count stays zero); nothing else changes |
| Moves.HandsAfterUndo | src/position.rs:156-177 | undo takes the captured type out of the mover's hand or returns the dropped piece to it; the other hand is untouched |
| Moves.OnBoardUpdate | src/position.rs:218-233 | writing a square trades the material of the piece that stood there for the material of the new piece |
| Moves.MoveConservesMaterial | src/position.rs:182-214 | `do_move` keeps the pieces on the board plus both hands, counted by base type, for every normal move and for a drop onto an empty square from a hand holding that type |
| Moves.UndoConservesMaterial | src/position.rs:151-180 | `undo_move` keeps the pieces on the board plus both hands, counted by base type, when the origin is vacant and the mover's hand holds the captured type |
| Moves.DropCheckersAre | src/position.rs:201-214 | after a drop the checkers are empty or exactly the destination; in check iff the other king exists and the dropped piece's attack from the destination reaches it; pinned squares recomputed on the new board |
| Moves.DropSnapshot | src/position.rs:206-212 | the drop checkers are `{to}` exactly when the first king of the other side is attacked from `to`, and empty otherwise |
| Moves.NormalCheckersAre | src/position.rs:193-198 | after a normal move the checkers are exactly the mover's pieces whose kind reaches the other king on the new board, none without that king; pinned squares recomputed |
| Moves.NormalSnapshot | src/position.rs:193-197 | `attackers_to(c, king(!c))` read on a consistent board, or empty without that king |
| Moves.InCheckAfterNormal | src/position.rs:119-121 | after a normal move the side to move is in check iff some piece of the mover reaches its king |
| Moves.Run | src/position.rs:142-180 | each call passes the turn, `do_move` adds one snapshot and `undo_move` removes one (none from an empty stack) |
| Moves.ReplayHeight | src/position.rs:142-180 | after any sequence of calls that never undoes on an empty stack, the stack height is the start plus the moves applied minus the moves undone |
| Moves.ReplayAppend | src/position.rs:142-180 | running two sequences of calls one after the other is running their concatenation |
| Moves.ReplayRestores | src/position.rs:379-387 | playing reversible moves and undoing them last to first gives the starting position back, field for field |
| Positions.HandOf | src/position.rs:74-81 | the hand built from counts holds `nums[i]` pieces of `ALL_HAND[i]` and nothing of any other type |
| Positions.IndexedOneMore | src/position.rs:63-72 | one more square of the board loop extends the index by exactly that square |
| Positions.IndexBoard | src/position.rs:61-72 | the board loop of `new` leaves bitboards consistent with the board |
| Positions.FillHands | src/position.rs:74-81 | the hand loops of `new` give each colour the hand its counts describe |
| Positions.FillHand | src/position.rs:76-80 | one colour's loop over the hand types builds the hand its counts describe |
| Positions.IncrementTimes | src/position.rs:77-79 | `num` increments add exactly `num` pieces of that type |
| Positions.DefaultSquare | src/position.rs:320-339 | one square of the opening layout holds what the repository's test expects |
| Positions.DefaultLayout | src/position.rs:318-340 | every square of the opening layout holds what the repository's test expects |
| Positions.EmptyHand | src/position.rs:268 | zero counts give an empty hand |
| Positions.ScenarioStep | src/position.rs:353-363 | each move of the do/undo test is reversible where it is played and leads to the next stage of the watched squares and hands |
| Positions.ScenarioReversible | src/position.rs:379-381 | every remaining move of the test can be taken back |
| Positions.ScenarioPlayed | src/position.rs:361-363 | playing the test's remaining moves reaches its last stage |
| Positions.DoUndoPlayed | src/position.rs:360-376 | after the five moves: SQ22 White silver, SQ31 and SQ77 empty, SQ33 Black bishop, SQ76 Black pawn, Black's hand empty, White holds a bishop, White to move |
| Positions.DoUndoRestores | src/position.rs:378-387 | undoing the five moves last to first restores the opening position exactly, including side to move and check status |
| Positions.Position.constructor | src/position.rs:55-99 | `new` leaves a consistent position with the given board, side and hands, and one snapshot with no checkers and the pinned squares of the board |
| Positions.Position.PiecesCP | src/position.rs:103-105 | on a consistent position, exactly the squares holding that colour's piece of that type |
| Positions.Position.PiecesC | src/position.rs:106-108 | on a consistent position, exactly the squares holding a piece of that colour |
| Positions.Position.PiecesP | src/position.rs:109-111 | on a consistent position, exactly the squares holding a piece of that type |
| Positions.Position.PiecesPs | src/position.rs:112-115 | on a consistent position, exactly the squares holding a piece of one of the listed types |
| Positions.Position.Occupied | src/position.rs:116-118 | on a consistent position, exactly the non-empty squares |
| Positions.Position.King | src/position.rs:128-130 | on a consistent position, the lowest square of that colour's king, None exactly when there is none |
| Positions.Position.AttackersTo | src/position.rs:240-251 | the attackers are among `pieces_c(c)` |
| Positions.Position.AttackersToOnBoard | src/position.rs:240-251 | on a consistent position the attackers are exactly c's pieces whose kind reaches the target |
| Positions.Position.Checkers | src/position.rs:122-124 | the checkers of the top snapshot; an empty stack is excluded because the source panics |
| Positions.Position.Pinned | src/position.rs:125-127 | the pinned squares of the top snapshot; an empty stack is excluded because the source panics |
| Positions.Position.InCheck | src/position.rs:119-121 | in check iff the top snapshot has at least one checker |
| Positions.Position.XorBbs | src/position.rs:234-238 | the arrays change exactly as `Moves.Xored` says |
| Positions.Position.PutPiece | src/position.rs:218-225 | the arrays change exactly as `Moves.Placed` says; on a consistent position the result is consistent iff the square was vacant; a piece without colour or type is excluded (panic) |
| Positions.Position.RemovePiece | src/position.rs:226-233 | the arrays change exactly as `Moves.Cleared` says; on a consistent position the result is consistent iff `p` stood on the square; a piece without colour or type is excluded (panic) |
| Positions.Position.DoNormalMove | src/position.rs:182-199 | the arrays change as `Moves.AfterNormal` says and the returned snapshot is the normal-move checkers and the new pinned squares |
| Positions.Position.MovePiece | src/position.rs:184-192 | lift, capture and put change the arrays exactly as `Moves.AfterNormal` says |
| Positions.Position.Capture | src/position.rs:187-190 | the captured piece's bits flip as the opponent's and the mover's hand gains its base type |
| Positions.Position.DoDropMove | src/position.rs:201-214 | the arrays change as `Moves.AfterDrop` says and the returned snapshot is the drop checkers and the new pinned squares |
| Positions.Position.DoMove | src/position.rs:142-150 | the object changes exactly as `Moves.AfterMove` says, and stays consistent for a move that lands on a vacant or opposing square |
| Positions.Position.PushAndPass | src/position.rs:148-149 | push the snapshot and pass the turn, nothing else |
| Positions.Position.UndoMove | src/position.rs:151-180 | the object changes exactly as `Moves.AfterUndo` says, and stays consistent when the origin is vacant; an empty destination is excluded (panic) |
| Positions.Position.PassAndPop | src/position.rs:178-179 | pass the turn back and pop (an empty stack stays empty), nothing else |
| Positions.Position.Refill | src/position.rs:173-176 | the dropped piece returns to the mover's hand, nothing else changes |
| Positions.Position.PutBack | src/position.rs:156-170 | put back the captured piece (out of the mover's hand) and the demoted or unchanged piece on the origin |
| Positions.Position.Default | src/position.rs:254-270 | a new consistent position, with new arrays the caller may update, holding the opening board, empty hands, Black to move, and a stack of one snapshot with no checkers and the pinned squares of the opening board |
| Positions.Position.NoneInHand | src/position.rs:268 | `new` with zero hand counts: a new consistent position with new arrays the caller may update, the given board and side, empty hands, and a stack of one snapshot with no checkers and the board's pinned squares |

## Left out

- The `fmt::Display` rendering and `legal_moves` are not modelled. The first is text output. The second delegates to the move generator, which is not part of this model.
- The contents of the attack and between tables are not modelled. `Tables` holds three arbitrary functions, so no property of real shogi movement is assumed.
- The bit layout of `Bitboard`, the storage of `Hand` and the bit packing of `Move` are not part of this model.
  - Bitboards are sets of squares, hands are multisets of piece types, and moves are a datatype.
  - Squares are numbered file by file.
  - `Bitboard::next` is taken to return the lowest square.
  - `Hand::increment` and `Hand::decrement` are taken to act on the base type, and decrementing a zero count leaves zero.
  - Hand counts are unbounded, so there is no `u8` overflow in the hands.
- The promotion and demotion tables come from the standard shogi pieces. `src/piece.rs` is not part of this model.
- The constructor records no checkers, as the source does (its check detection is a TODO). A position that starts in check therefore has empty checkers.
- Panics become preconditions:
  - querying `checkers` or `pinned` on an empty stack;
  - putting or removing a piece with no colour or type;
  - undoing onto an empty destination;
  - playing a move from an empty origin or dropping an empty piece.
- The accessors `piece_on`, `hand`, `side_to_move` and `state` are plain field reads. The class exposes these fields directly.
- Positions.DoUndoPlayed: does not state that White is in check after the five moves (line 377 of the test). That depends on the attack table contents.
- Moves.ReplayHeight: counts stack height over a sequence of calls. The side to move over a sequence is not stated; `Run` proves that each single call passes the turn.
- Moves.DoMoveValid: holds for moves whose destination is vacant, the origin itself or an opposing piece. The source does not check this; it trusts its move generator.
- Moves.UndoMoveValid: holds when the origin is vacant before the undo. The source does not check this either.
- Moves.RoundTrip: holds for moves with these properties:
  - a normal move's origin differs from its destination (undoing a move that stays on its square and records a capture puts two pieces on that square, so its bits flip once too often);
  - the recorded capture matches the destination;
  - the captured piece belongs to the opponent;
  - a promotion demotes back to the moving piece;
  - a drop goes onto an empty square from a hand holding that type.
  Other moves are outside the source's own contract.
- Moves.MoveConservesMaterial: holds for every normal move, and for a drop onto an empty square from a hand that holds the type. The source does not check these drop conditions; it trusts its move generator.
- Moves.UndoConservesMaterial: holds when the origin is vacant and the mover's hand holds the captured type, as it does right after the move.
