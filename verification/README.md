# A Dafny model of a Rust chess engine's move generation and board state

This project models two independent generations of one chess program. It does not follow the rules of chess where the code departs from them.

**The bitboard engine** (`engine/src`). Each square is a bit of a 64-bit word (`bv64`), at position `rank * 8 + file`. The model covers:

- the square packing `rank << 3 | file` (`EngineLocation`);
- the slot numbering of a player's sixteen pieces (`EnginePiece`, `EnginePlayer`);
- rank and file masks and the 64-bit mirror `invert` (`BitUtils`);
- the occupancy snapshot `Positions` and the one-square slot masks `Bitfields`;
- the carry-propagation sliders `Rook`, `Bishop` and `Queen`;
- the template leapers `Knight` and `King`;
- the pawn capture shifts (`Pawn`);
- the per-turn `MoveCache`;
- the packed castle and en-passant byte (`Metadata`);
- the 32-entry starting layout (`EngineBoard`);
- the integer material evaluation (`Heuristic`);
- the integer alpha-beta search (`Search`);
- the `PieceTracker`, which keeps a list of occupied squares per colour in step with a square table.

Rust's wrapping `u64` arithmetic is modelled by Dafny's `bv64` operations, which wrap.

**The square-table board** (`src`). It is an 8 by 8 table of optional pieces with:

- the side to move;
- both sides' castle rights;
- an en-passant square.

The modules are:

- `ChessPiece` and `ChessMoves` for pieces, colours, positions and plays;
- `ChessBoard` for table access, ray walks, the per-kind move generators, the self-capture filter, the castle check and `check`;
- `ChessApply` for the unchecked move, its castle, promotion and en-passant bookkeeping, and the checked `apply`;
- `StartBoard` for the initial position;
- `PlayTable` for the older board of `src/table.rs`, which labels each destination as a defence, a capture or a plain move.

**Conventions.**

- Every operation is a pure function; where the source mutates in place, the model returns a new value.
- A panic of the source is `None` (or `Panicked`) where the input can trigger it.
- Where the panic comes only from a caller's misuse (unwrapping an empty square, indexing off the board), it is a precondition.
- Helpers that the shown code calls but does not define have minimal stand-ins, each marked in its doc comment:
  - `Location::pos`;
  - `Location::invert`;
  - `Location::is_queen`;
  - the `Player` record;
  - `Position::validate`;
  - `Color::promotion_rank`;
  - `invert_u64`, which engine/src/moves/rook.rs imports but engine/src/moves/utils.rs does not define: `Rook.RankPositions` and `Rook.FilePositions` take it to be `invert` (`BitUtils.Invert`), and with that reading `Rook.RankFixture`, `Rook.FileFixture` and `Rook.RookFixture` give the values of the tests in rook.rs.

Where the code and its comments or tests disagree, the model follows the code. Six such places are listed under "## Findings". Each has a model of the code as written, a lemma exhibiting the input that shows the problem, and a corrected definition with the intended property proved.

## Model

| member | source | states |
|---|---|---|
| EngineLocation.Rank | engine/src/location.rs:9-11 | the rank of any location byte is below 8 |
| EngineLocation.File | engine/src/location.rs:12-14 | the file of any location byte is below 8 |
| EngineLocation.FromPair | engine/src/location.rs:28-32 | packing an on-board (rank, file) and reading rank and file back gives the pair again |
| EngineLocation.Loc | engine/src/location.rs:17-19 | `loc(rank, file)` reads back the rank and file it was built from |
| EngineLocation.WithLocation | engine/src/location.rs:21-26 | or-ing a piece with (rank, file) keeps the piece and a location that reads back as (rank, file) |
| EngineLocation.FromPairInjective | engine/src/location.rs:28-32 | two on-board pairs pack to the same location only when they are the same pair |
| EnginePiece.SlotKind | engine/src/piece.rs:27-32 | the slot constants split slots 0..16 into consecutive runs, one per kind, whose lengths are the player's array sizes (1, 1, 2, 2, 2, 8) |
| EnginePiece.Next | engine/src/piece.rs:36-38 | `next` adds one to the slot and saturates at 255 |
| EnginePiece.AtLeast | engine/src/piece.rs:45-47 | `at_least` raises the slot to the low byte of `val` and never lowers it |
| EnginePiece.NextNFromKing | engine/src/piece.rs:36-38 | n calls of `next` from `KING` reach slot min(n, 255) |
| EnginePiece.FinishedAfterSixteen | engine/src/piece.rs:36-42 | walking the slots with `next` from `KING` is `finished` exactly from the sixteenth step on |
| EngineBoard.DefaultLayout | engine/src/board.rs:13-54 | entry j of the default board is present, with colour, kind, rank and file given by its block of eight and j mod 8 |
| EngineBoard.DefaultDistinct | engine/src/board.rs:13-54 | no two entries of the default board stand on the same square |
| EngineBoard.DefaultCounts | engine/src/board.rs:13-54 | the default board holds sixteen pieces of each colour and the default metadata |
| EngineBoard.CountAppend | engine/src/board.rs:9 | the count of a colour's entries is additive over concatenation |
| EngineBoard.Default | engine/src/board.rs:13-54 | the starting layout fills all 32 entries, and exactly the entries from 16 on are pawns |
| Metadata.Turn | engine/src/metadata.rs:18-20 | the turn reads White exactly when bit 1 (a castle bit) is set and no colour otherwise |
| Metadata.TurnIsKingsideBit | engine/src/metadata.rs:18-25 | the turn never reads Black, agrees with the kingside right, reads White by default and is lost with the kingside right |
| Metadata.KingsideCastle | engine/src/metadata.rs:22-25 | either colour's kingside right is bit 1 of the byte |
| Metadata.QueensideCastle | engine/src/metadata.rs:27-30 | either colour's queenside right is bit 3 of the byte |
| Metadata.LoseKingside | engine/src/metadata.rs:32-34 | clears bit 1, sets no bit, changes no bit outside the kingside mask and keeps the en-passant flag |
| Metadata.LoseQueenside | engine/src/metadata.rs:36-39 | clears bit 3, sets no bit, changes no bit outside the queenside mask and keeps the en-passant flag |
| Metadata.SetPassant | engine/src/metadata.rs:40-47 | leaves the byte unchanged and sets the flag exactly when a file is given |
| Metadata.PassantFile | engine/src/metadata.rs:48-55 | yields a file exactly when the flag is set, and that file is below 8 |
| Metadata.Default | engine/src/metadata.rs:58-62 | by default both colours hold both castle rights and there is no en-passant file |
| Metadata.RightsShared | engine/src/metadata.rs:22-39 | both colours read the same right, and one colour losing a right loses it for the other as well |
| Metadata.LoseKeepsOther | engine/src/metadata.rs:32-55 | losing one side's right keeps the other side's right and the en-passant file |
| Metadata.LoseMonotone | engine/src/metadata.rs:32-39 | neither `lose_*` gives a lost right back |
| Metadata.PassantIgnoresFile | engine/src/metadata.rs:40-55 | after `set_passant(Some(f))` the file read back does not depend on f; after `None` there is none |
| Metadata.PassantFromDefault | engine/src/metadata.rs:40-62 | from the default byte every en-passant file reads back as file 0 |
| BitUtils.FileMaskBit | engine/src/moves/utils.rs:3-6 | `file(n)` holds exactly the squares whose file is n |
| BitUtils.RankMaskBit | engine/src/moves/utils.rs:8-11 | `rank(n)` holds exactly the squares whose rank is n |
| BitUtils.FileMask | engine/src/moves/utils.rs:3-6 | a file mask repeats every eight squares from its bottom square `n` upwards |
| BitUtils.RankMask | engine/src/moves/utils.rs:8-11 | the mask of rank `n` holds all eight squares of that rank and nothing below or above it |
| BitUtils.Invert | engine/src/moves/utils.rs:13-32 | the mirror swaps the lowest and the highest square, and a board is empty exactly when its mirror is |
| BitUtils.InvertU8 | engine/src/moves/utils.rs:34-44 | the byte mirror swaps bit 0 and bit 7, and a byte is zero exactly when its mirror is |
| BitUtils.OrAll | engine/src/moves/positions.rs:23-29 | the union of the bitboards is empty exactly when every one of them is |
| BitUtils.FileConstants | engine/src/moves/utils.rs:3-6 | the edge-file constants are `file(7)` and `file(0)` |
| BitUtils.FileRankMeet | engine/src/moves/utils.rs:3-11 | `file(n) & rank(m)` is the single square m * 8 + n |
| BitUtils.InvertBit | engine/src/moves/utils.rs:13-32 | the five swap rounds of `invert` move bit 63 - i to bit i, for every i |
| BitUtils.InvertInvolution | engine/src/moves/utils.rs:13-32 | inverting twice gives the bitboard back |
| BitUtils.InvertSquare | engine/src/moves/utils.rs:13-32 | the inverse of square i is square 63 - i |
| BitUtils.InvertRank | engine/src/moves/utils.rs:8-32 | the inverse of `rank(n)` is `rank(7 - n)` |
| BitUtils.InvertFile | engine/src/moves/utils.rs:3-32 | the inverse of `file(n)` is `file(7 - n)` |
| BitUtils.InvertApart | engine/src/moves/utils.rs:13-32 | a board disjoint from the mirror of p mirrors to one disjoint from p |
| BitUtils.InvertU8Bit | engine/src/moves/utils.rs:34-44 | the three rounds of `invert_u8` move bit 7 - i to bit i |
| BitUtils.InvertU8Involution | engine/src/moves/utils.rs:34-44 | inverting a byte twice gives it back |
| BitUtils.OrAllBit | engine/src/moves/positions.rs:23-29 | a square is in the OR of a list of bitboards exactly when one of them holds it |
| BitUtils.OrAllAppend | engine/src/moves/positions.rs:23-29 | the OR of a concatenation is the OR of the two ORs |
| BitUtils.AndCount | engine/src/moves/pawn.rs:13-25 | masking a bitboard never raises its number of set squares |
| BitUtils.ShrOne | engine/src/moves/pawn.rs:13-25 | a right shift by one never raises the number of set squares |
| BitUtils.ShlOne | engine/src/moves/pawn.rs:13-25 | a left shift by one never raises the number of set squares |
| Bitfields.BitfieldSquare | engine/src/moves/bitfields.rs:14-17 | an absent slot has the empty mask, a present one exactly the square where its file meets its rank, so at most one bit |
| Bitfields.New | engine/src/moves/bitfields.rs:13-34 | every field of the result is the mask of the same slot of the player, index by index |
| Bitfields.NewSingleBits | engine/src/moves/bitfields.rs:13-34 | every field of `Bitfields::new` has at most one square set |
| Positions.New | engine/src/moves/positions.rs:41-51 | keeps mine and opponent and stores their bit-reversed mirrors |
| Positions.InvertPositions | engine/src/moves/positions.rs:53-61 | swaps each plain field with its mirrored field |
| Positions.InvertInvertPositions | engine/src/moves/positions.rs:53-61 | inverting a snapshot twice gives it back |
| Positions.InvertKeepsCoherent | engine/src/moves/positions.rs:41-61 | the inverse of a coherent snapshot is coherent and equals `new` of the mirrored occupancies |
| Positions.FromBitfields | engine/src/moves/positions.rs:23-39 | mine is the OR of all sixteen of my slot masks, opponent the OR of the opponent's, and the snapshot is coherent |
| Positions.FromBitfieldsUnion | engine/src/moves/positions.rs:23-30 | the source's grouping of the OR (royalty, knights, pawns, rooks, bishops) equals the OR in slot order |
| Positions.FromBitfieldsSquare | engine/src/moves/positions.rs:23-39 | a square is mine exactly when one of my sixteen slot masks holds it |
| Rook.RankLeftside | engine/src/moves/rook.rs:30-63 | the left-side run stays inside the rook's rank |
| Rook.FileDownwards | engine/src/moves/rook.rs:65-91 | the downward run stays inside the rook's file |
| Rook.RankPositions | engine/src/moves/rook.rs:15-20 | both rank runs together stay inside the rank and never include the rook's square |
| Rook.FilePositions | engine/src/moves/rook.rs:21-26 | both file runs together stay inside the file (the rook's square is not removed here) |
| Rook.RookMoves | engine/src/moves/rook.rs:10-14 | the result lies on the rook's rank or file and never includes the rook's square |
| Rook.LeftsideSound | engine/src/moves/rook.rs:30-63 | every square of the left-side run is on the rank, at or past the rook, with no own piece on the way and no shifted opponent piece before it |
| Rook.LeftsideComplete | engine/src/moves/rook.rs:30-63 | every square of the rank at or past the rook with a clear way (no own piece, no shifted opponent piece) is in the run |
| Rook.LeftsideRef | engine/src/moves/rook.rs:30-63 | the left-side run is exactly the rank squares from `loc` on whose way `loc..i` holds no own piece and no opponent one square back: the first opponent piece is a capture, the first own piece stops the run |
| Rook.DownwardsSound | engine/src/moves/rook.rs:65-91 | every square of the downward run is on the file, at or past the rook, with no own piece and no opponent piece one rank back on the way |
| Rook.DownwardsComplete | engine/src/moves/rook.rs:65-91 | every file square at or past the rook with a clear way is in the downward run |
| Rook.DownwardsRef | engine/src/moves/rook.rs:65-91 | the downward run is exactly the file squares from `loc` on with no own piece on `loc..i` and no opponent piece one rank before any of them |
| Rook.RankFixture | engine/src/moves/rook.rs:93-107 | the source's rank test: rook on (1, 4), mine on 14 and 15, opponent on 8 and 9, gives `0b00101110 << 8` |
| Rook.FileFixture | engine/src/moves/rook.rs:109-126 | the source's file test gives 2260630401189888, a value that still holds the rook's own square |
| Rook.RookFixture | engine/src/moves/rook.rs:128-145 | the source's rook test gives 4521260802387472 |
| Rook.SelfBlocked | engine/src/moves/rook.rs:52-55 | with the rook's own square among `mine` (as on a real board) a lone rook on a1 gets no move at all |
| Rook.BehindBlocked | engine/src/moves/rook.rs:57-62 | an opponent piece just behind the rook on its rank shifts onto the rook's square and hides the squares ahead (f2 for a rook on e2, pawn on d2) |
| Rook.RankLeftsideFixed | engine/src/moves/rook.rs:30-63 | the corrected run stays inside the rank and never holds the rook's square |
| Rook.FileDownwardsFixed | engine/src/moves/rook.rs:65-91 | the corrected run stays inside the file and never holds the rook's square |
| Rook.LeftsideFixedRef | engine/src/moves/rook.rs:30-63 | the corrected left-side run is exactly the rank squares past the rook with no own piece on `loc+1..i` and no opponent piece on `loc..i-1` |
| Rook.LeftsideFixedSound | engine/src/moves/rook.rs:30-63 | every square of the corrected left-side run is on the rank past the rook, with no own piece and no shifted opponent piece on its way |
| Rook.LeftsideFixedComplete | engine/src/moves/rook.rs:30-63 | every rank square past the rook whose way holds no own piece and no shifted opponent piece is in the corrected left-side run |
| Rook.DownwardsFixedRef | engine/src/moves/rook.rs:65-91 | the corrected downward run is exactly the file squares past the rook with no own piece on `loc+8..i` and no opponent piece on `loc..i-8` |
| Rook.DownwardsFixedSound | engine/src/moves/rook.rs:65-91 | every square of the corrected downward run is on the file past the rook, with no own piece and no opponent piece one rank back on its way |
| Rook.DownwardsFixedComplete | engine/src/moves/rook.rs:65-91 | every file square past the rook whose way holds no own piece and no opponent piece one rank back is in the corrected downward run |
| Rook.RankPositionsFixed | engine/src/moves/rook.rs:15-20 | the corrected rank runs stay in the rank and exclude the rook's square |
| Rook.FilePositionsFixed | engine/src/moves/rook.rs:21-26 | the corrected file runs stay in the file |
| Rook.RookMovesFixed | engine/src/moves/rook.rs:10-14 | the corrected moves lie on the rook's lines and exclude its square |
| Rook.LoneRookFixed | engine/src/moves/rook.rs:10-91 | corrected, a lone rook on a1 with its own square marked as mine reaches all of rank 1 and file a |
| Rook.RookFixtureFixed | engine/src/moves/rook.rs:128-145 | corrected, the source's rook test gives the same value, also with the rook's own square marked as mine |
| Rook.BehindFixed | engine/src/moves/rook.rs:57-62 | corrected, the opponent pawn behind the rook no longer hides f2 |
| Bishop.RightDiagonalBit | engine/src/moves/bishop.rs:51-58 | `right_diagonal(loc)` holds exactly the squares whose rank minus file equals that of `loc` |
| Bishop.LeftDiagonalBit | engine/src/moves/bishop.rs:60-66 | `left_diagonal(loc)` holds exactly the squares whose rank plus file equals that of `loc` |
| Bishop.CutBit | engine/src/moves/bishop.rs:27-30 | `diag >> 8 * rank << 8 * rank` keeps exactly the squares of the diagonal on the bishop's rank or above |
| Bishop.DiagonalMoves | engine/src/moves/bishop.rs:25-47 | a stroke never leaves the cut diagonal and never holds the bishop's square |
| Bishop.RightsideMoves | engine/src/moves/bishop.rs:15-18 | the right-side stroke lies on the right diagonal |
| Bishop.LeftsideMoves | engine/src/moves/bishop.rs:20-23 | the left-side stroke lies on the left diagonal |
| Bishop.BishopMoves | engine/src/moves/bishop.rs:7-13 | the bishop is never offered its own square |
| Bishop.BishopFixture | engine/src/moves/bishop.rs:68-80 | the source's test: bishop on (2, 2), opponent on 8 and 9, mine on 4, 54 and 55, gives 35257554307584 |
| Bishop.OvershootsCapture | engine/src/moves/bishop.rs:41-44 | moving the opponent up a whole rank overshoots on the left stroke: a bishop on e1 with an opponent on d2 is offered c3, behind the capture |
| Bishop.ReachesOwnPiece | engine/src/moves/bishop.rs:36-39 | subtracting one keeps the squares past the first own piece: a bishop on c3 with own pieces on d4 and e5 is offered e5 |
| Bishop.DiagonalMovesFixed | engine/src/moves/bishop.rs:25-47 | the corrected stroke never leaves the cut diagonal and never holds the bishop's square |
| Bishop.BelowLowestSound | engine/src/moves/bishop.rs:36-44 | a square kept by subtract-one-and-clear has no square of the mask at or below it |
| Bishop.BelowLowestComplete | engine/src/moves/bishop.rs:36-44 | every square with no square of the mask at or below it is kept by subtract-one-and-clear |
| Bishop.StrokeFixedRef | engine/src/moves/bishop.rs:25-47 | the corrected stroke is exactly the diagonal squares other than the bishop's with no other own piece at or below them and no opponent piece strictly below them: it stops on the first capture and just before the first own piece |
| Bishop.FixedOnStroke | engine/src/moves/bishop.rs:46 | a corrected stroke square is a diagonal square other than the bishop's |
| Bishop.FixedMineClear | engine/src/moves/bishop.rs:36-39 | below a corrected stroke square there is no own piece of the stroke |
| Bishop.FixedOpponentClear | engine/src/moves/bishop.rs:41-44 | below a corrected stroke square (shifted by one) there is no opponent piece of the stroke |
| Bishop.FixedComplete | engine/src/moves/bishop.rs:25-47 | a diagonal square other than the bishop's with no own piece at or below it and no opponent piece strictly below it is in the corrected stroke |
| Bishop.StrokeOverApprox | engine/src/moves/bishop.rs:25-47 | the stroke as written holds every square of the corrected stroke: the two defects only add squares |
| Bishop.DiagonalOverApprox | engine/src/moves/bishop.rs:25-47 | `diagonal_moves` as written holds every square of the corrected stroke |
| Bishop.RightsideMovesFixed | engine/src/moves/bishop.rs:15-18 | the corrected right-side stroke lies on the right diagonal |
| Bishop.LeftsideMovesFixed | engine/src/moves/bishop.rs:20-23 | the corrected left-side stroke lies on the left diagonal |
| Bishop.RightsideFixedOnDiagonal | engine/src/moves/bishop.rs:15-18 | a corrected right-side square has the bishop's rank minus file and a higher rank |
| Bishop.LeftsideFixedOnDiagonal | engine/src/moves/bishop.rs:20-23 | a corrected left-side square has the bishop's rank plus file and a higher rank |
| Bishop.BishopFixedExamples | engine/src/moves/bishop.rs:68-80 | the corrected bishop keeps the source's test value, captures d2 from e1 without passing to c3, and no longer reaches its own e5 from c3 |
| Bishop.BishopMovesFixed | engine/src/moves/bishop.rs:7-13 | the corrected bishop is never offered its own square either |
| Queen.QueenMoves | engine/src/moves/queen.rs:5-7 | the queen's squares include every bishop square and every rook square and never the queen's own square |
| Queen.QueenFixture | engine/src/moves/queen.rs:9-27 | the source's queen test gives 0x40424150e7b0e04 |
| Queen.QueenSelfBlocked | engine/src/moves/queen.rs:5-7 | with its own square marked as mine the queen keeps only the bishop's squares and loses its rank |
| Queen.QueenMovesFixed | engine/src/moves/queen.rs:5-7 | the corrected queen includes every corrected bishop and rook square and never its own square |
| Queen.QueenFixedExamples | engine/src/moves/queen.rs:9-27 | corrected, the queen test keeps its value, also with the queen's square marked as mine, and the queen slides along its rank again |
| Knight.FilesMasks | engine/src/moves/knight.rs:7-8 | `LEFT_FILES` is files 0 and 1 and `RIGHT_FILES` files 6 and 7 |
| BitUtils.SaturatingSub | engine/src/moves/knight.rs:11-14 | `saturating_sub` is the difference when it is not negative and 0 otherwise |
| Knight.KnightMovesJumps | engine/src/moves/knight.rs:10-19 | the knight's squares are the shifted template minus my pieces |
| Knight.JumpsRef | engine/src/moves/knight.rs:5-19 | the shifted and edge-masked template holds exactly the on-board squares one knight jump away; nothing wraps around an edge |
| Knight.JumpsSound | engine/src/moves/knight.rs:5-19 | every square of the shifted template is a knight jump away |
| Knight.JumpsCompleteWide | engine/src/moves/knight.rs:5-19 | every square one rank and two files away is in the shifted template |
| Knight.JumpsCompleteTall | engine/src/moves/knight.rs:5-19 | every square two ranks and one file away is in the shifted template |
| Knight.JumpsMineRef | engine/src/moves/knight.rs:18 | removing my pieces keeps exactly the jumps onto squares that are not mine |
| Knight.KnightRef | engine/src/moves/knight.rs:10-19 | the knight may go exactly to the squares a jump away that are not mine |
| Knight.KnightMoves | engine/src/moves/knight.rs:10-19 | no destination holds one of the mover's own pieces, and the knight's own square is never one |
| Knight.KnightFixture | engine/src/moves/knight.rs:21-25 | the source's test: from (6, 6) on an empty board the knight gets 0x100010a000000000 |
| King.KingMovesSteps | engine/src/moves/king.rs:7-16 | the king's squares are the shifted template minus my pieces, whatever order the masks are applied in |
| King.StepsSound | engine/src/moves/king.rs:5-16 | every square of the shifted template is a neighbour of the king |
| King.StepsComplete | engine/src/moves/king.rs:5-16 | every neighbour of the king is in the shifted template |
| King.StepsMineSound | engine/src/moves/king.rs:15 | every kept square is a neighbour that is not mine |
| King.StepsMineComplete | engine/src/moves/king.rs:15 | every neighbour that is not mine is kept |
| King.KingRef | engine/src/moves/king.rs:7-16 | the king may go exactly to the neighbouring squares that are not mine |
| King.KingMoves | engine/src/moves/king.rs:7-16 | no destination holds one of the mover's own pieces, and the king's own square is never one |
| King.KingExample | engine/src/moves/king.rs:22-28 | the source's example square (3, 0) on an empty board has five neighbours and none on file 7 |
| Pawn.LeftCapturesFormula | engine/src/moves/pawn.rs:13-18 | the branch-free `>> 9 * white << 9 * black` is a shift down by 9 for White and up by 9 for Black |
| Pawn.RightCapturesFormula | engine/src/moves/pawn.rs:20-25 | the branch-free `>> 7 * white << 7 * black` is a shift down by 7 for White and up by 7 for Black |
| Pawn.LeftCaptures | engine/src/moves/pawn.rs:13-18 | there are never more left-capture squares than pawns |
| Pawn.RightCaptures | engine/src/moves/pawn.rs:20-25 | there are never more right-capture squares than pawns |
| Pawn.CapturesIgnorePositions | engine/src/moves/pawn.rs:13-25 | the occupancy snapshot plays no part in either capture |
| Pawn.LeftCapturesBit | engine/src/moves/pawn.rs:13-18 | a square is a left capture exactly when a pawn stands 9 squares behind it in the mover's direction |
| Pawn.RightCapturesBit | engine/src/moves/pawn.rs:20-25 | a square is a right capture exactly when a pawn stands 7 squares behind it in the mover's direction |
| Pawn.CapturesWrap | engine/src/moves/pawn.rs:13-25 | without an edge mask a White pawn on (6, 0) is given (4, 7) as a left capture and one on (6, 7) is given (6, 0), its own rank |
| Pawn.LeftFixedBit | engine/src/moves/pawn.rs:13-18 | with the edge file masked, a square is a left capture exactly when a pawn stands one rank back and one file over on the board (White from (r+1, f+1), Black from (r-1, f-1)) |
| Pawn.RightFixedBit | engine/src/moves/pawn.rs:20-25 | with the edge file masked, a square is a right capture exactly when a pawn stands one rank back and one file over the other way |
| Pawn.CapturesFixedExamples | engine/src/moves/pawn.rs:13-25 | corrected, the two wrapped squares of CapturesWrap are gone and an ordinary capture remains |
| MoveCache.Entry | engine/src/moves/move_cache.rs:43-76 | an empty slot contributes no destination |
| MoveCache.Entries | engine/src/moves/move_cache.rs:51-76 | the entries of a slot array keep its length and follow it index by index |
| MoveCache.Get | engine/src/moves/move_cache.rs:29-33 | offset n of the `#[repr(C)]` record reads slot n below 16, then `all`, the two halves and the four quarters in row order |
| MoveCache.GetLoc | engine/src/moves/move_cache.rs:35-38 | offset n of the player reads king, queen, bishops, knights, rooks and pawns in that order |
| MoveCache.New | engine/src/moves/move_cache.rs:40-76 | a new cache remembers the player it was built for, and every slot holds the destinations of the piece in the same slot of that player, computed by the generator of that slot's kind (the bishop's for knights, the queen's for a promoted pawn) |
| MoveCache.AllQuarters | engine/src/moves/move_cache.rs:78-91 | `halves[1]` ORs the first pawn quarter with itself, so `all` is the union of every quarter but the king, queen and bishop one |
| MoveCache.LoneKingEntry | engine/src/moves/move_cache.rs:43-46 | a lone king on a1 has the entry b1, a2, b2 |
| MoveCache.LoneKingAll | engine/src/moves/move_cache.rs:78-91 | yet that cache's `all` is empty |
| Heuristic.CenterSeeking | engine/src/heuristic.rs:29-33 | the centre score lies between 68 and 100 and is 100 exactly on square (4, 4) |
| Heuristic.SumValue | engine/src/heuristic.rs:14-20 | the pair's sum lies between 0 and 200 and is 0 exactly when both slots are empty |
| Heuristic.Value | engine/src/heuristic.rs:17-18 | an empty slot is dropped (0) and a live one scores its centre score |
| Heuristic.Count | engine/src/heuristic.rs:22-27 | the count lies between 0 and 2, is 0 exactly for two empty slots and 2 exactly for two live ones |
| Heuristic.PawnValue | engine/src/heuristic.rs:39-48 | an empty pawn slot scores 0, a promoted pawn 9000 and any other pawn its centre score |
| Heuristic.PawnsValue | engine/src/heuristic.rs:36-49 | the pawn sum is not negative and at most 9000 per slot |
| Heuristic.PlayerMaterial | engine/src/heuristic.rs:35-57 | a player's material is never negative |
| Heuristic.MaterialAntisymmetric | engine/src/heuristic.rs:6-8 | swapping the players negates the evaluation, and equal players evaluate to 0 |
| Heuristic.Material | engine/src/heuristic.rs:6-8 | two equal sides score 0 |
| Heuristic.RoyaltyWeights | engine/src/heuristic.rs:51-52 | a live king adds exactly 9000 and a live queen exactly 900, wherever they stand |
| Heuristic.RookWeight | engine/src/heuristic.rs:53 | each live rook adds exactly 5, whatever its square |
| Heuristic.PawnsUpdate | engine/src/heuristic.rs:36-49 | replacing one pawn slot changes the pawn sum by the difference of that slot's scores |
| Heuristic.PawnWeight | engine/src/heuristic.rs:39-49 | a promoted pawn adds 9000 over an empty slot, an unpromoted one its centre score |
| Heuristic.BishopScaling | engine/src/heuristic.rs:54 | the bishop term is scaled by 35 and then divided by 10: two centre bishops give 700, one corner bishop 238 |
| Search.Insert | engine/src/search.rs:17-19 | inserting an index adds exactly that index to the multiset of indices |
| Search.Range | engine/src/search.rs:15 | the first n indices, in order |
| Search.SortIndices | engine/src/search.rs:17-19 | the sorted indices are a permutation of the children's indices |
| Search.InsertSorted | engine/src/search.rs:17-19 | inserting an index larger than every index present keeps the (key, index) order |
| Search.SortIndicesBelow | engine/src/search.rs:17-19 | the sorted indices of n children are all below n |
| Search.SortStep | engine/src/search.rs:17-19 | each insertion step keeps the (key, index) order |
| Search.SortIndicesSorted | engine/src/search.rs:17-19 | the indices end up ordered by key and, among equal keys, by original position: the order `sort_by_cached_key` gives |
| Search.Permute | engine/src/search.rs:15-22 | rearranging the children by a list of indices keeps that list's length |
| Search.Keys | engine/src/search.rs:17-19 | one sort key per child |
| Search.OrderedPermutes | engine/src/search.rs:15-19 | from `sort_depth` on the children are searched in a permuted order with the mover's best material first, and below it in their own order |
| Search.FoldMaxAtLeast | engine/src/search.rs:21-25 | White's plain value over a list is never below the running best |
| Search.FoldMinAtMost | engine/src/search.rs:38-42 | Black's plain value over a list is never above the running best |
| Search.Minimax | engine/src/search.rs:7-48 | at depth 0 or below the score is `material(board)` whatever the window; above depth 0, a side with no children scores `i32::MIN` when White is to move and `i32::MAX` when Black is |
| Search.MaxLoop | engine/src/search.rs:13-29 | White's loop never returns less than the best score so far |
| Search.MinLoop | engine/src/search.rs:31-46 | Black's loop never returns more than the best score so far |
| Search.Value | engine/src/search.rs:7-48 | the unpruned reference value is `material(board)` at depth 0 or below, and a forced move passes its only child's value up unchanged |
| Search.AlphaBeta | engine/src/search.rs:7-48 | the search is exact when its result falls strictly inside (alpha, beta), an upper bound on the plain minimax value at or below alpha and a lower bound at or above beta |
| Search.MaxLoopSound | engine/src/search.rs:12-29 | White's loop, which raises `max` and `alpha` and stops once `beta <= alpha`, keeps that guarantee against the plain maximum |
| Search.MinLoopSound | engine/src/search.rs:30-47 | Black's loop, which lowers `min` and `beta` and stops once `beta <= alpha`, keeps that guarantee against the plain minimum |
| Search.FullWindow | engine/src/search.rs:7-48 | with the window (`i32::MIN`, `i32::MAX`) the search returns the plain minimax value |
| PieceTracker.WithPieces | engine/src/piece_tracker.rs:19-24 | writing through `pieces_mut` replaces the chosen colour's list and keeps the other's |
| PieceTracker.FindPosition | engine/src/piece_tracker.rs:32-36 | `find_position` gives no index exactly when the target is absent, and otherwise the first index holding it |
| PieceTracker.SwapRemove | engine/src/piece_tracker.rs:37-38 | `swap_remove` shortens the list by one and removes exactly one copy of the removed entry from its multiset |
| PieceTracker.SwapRemoveCount | engine/src/piece_tracker.rs:37-38 | moving the last entry into the gap and dropping the tail removes exactly the entry at the index |
| PieceTracker.Remove | engine/src/piece_tracker.rs:32-40 | `remove` keeps the other colour, drops one copy of the target from the colour's multiset, shortens the list when the target was tracked and changes nothing when it was not |
| PieceTracker.Mov | engine/src/piece_tracker.rs:41-49 | `mov` keeps the other colour and the list's length, replaces one copy of `from` by `to` in the multiset, leaves entries other than `from` alone and changes nothing when `from` is untracked |
| PieceTracker.MovFirst | engine/src/piece_tracker.rs:41-49 | `mov` rewrites exactly the first entry equal to `from` |
| PieceTracker.TrackedFromStart | engine/src/piece_tracker.rs:138-148 | the scan from the first square checks every piece of the board |
| PieceTracker.OccupiedBoth | engine/src/piece_tracker.rs:149-153 | every entry holds a piece exactly when both colours' lists pass the entry check |
| PieceTracker.SyncConsistent | engine/src/piece_tracker.rs:137-155 | a tracker in step with its board passes both halves of `_check_pieces` |
| PieceTracker.CheckSquares | engine/src/piece_tracker.rs:138-148 | the table scan passes exactly when every piece from that square on is in its colour's list, and an error names a piece missing from its list |
| PieceTracker.CheckEntries | engine/src/piece_tracker.rs:149-153 | the list scan passes exactly when every entry holds a piece, and an error names an entry of that colour on an empty square |
| PieceTracker.CheckPieces | engine/src/piece_tracker.rs:137-155 | `_check_pieces` passes exactly when every piece is tracked and every entry of both lists holds a piece; an error names an untracked piece or an entry on an empty square |
| PieceTracker.CheckPiecesConsistent | engine/src/piece_tracker.rs:137-155 | `_check_pieces` passes exactly on a consistent tracker |
| PieceTracker.ColoredFromOnce | engine/src/piece_tracker.rs:56-64 | the rank-major scan from square s lists each square from s on holding a piece of the colour exactly once, and nothing else |
| PieceTracker.InitPieceTracker | engine/src/piece_tracker.rs:55-74 | each colour's list holds a square exactly when that square holds a piece of the colour |
| PieceTracker.InitInSync | engine/src/piece_tracker.rs:55-74 | a freshly built tracker is in step with its board: each colour's list holds each of its pieces' squares once and nothing else |
| PieceTracker.InitSyncColor | engine/src/piece_tracker.rs:55-74 | InitInSync for one colour |
| PieceTracker.InitCounts | engine/src/piece_tracker.rs:55-64 | the built list counts each square of the colour once and every other square zero times |
| PieceTracker.CountsSync | engine/src/piece_tracker.rs:55-74 | those counts are what being in step means |
| PieceTracker.ColoredPiecesOnce | engine/src/piece_tracker.rs:56-64 | the full scan lists each square holding a piece of the colour exactly once, and nothing else |
| PieceTracker.TrackedDefaultChecks | engine/src/piece_tracker.rs:158-184 | the start position's tracker passes `_check_pieces` and lists sixteen squares per colour, the state the source's test starts from |
| PieceTracker.MoveNoncapture | engine/src/piece_tracker.rs:86-97 | the moved piece is the one on `from`, it now stands on `to`, `from` is empty, no other square changes, and the tracker entry follows the move |
| PieceTracker.MoveCapture | engine/src/piece_tracker.rs:101-112 | returns the moved piece and whatever stood on `to` before the move |
| PieceTracker.MoveCaptureInSync | engine/src/piece_tracker.rs:101-112 | a move or capture between two different squares keeps an in-step tracker in step, which is what the source's test checks after every move |
| PieceTracker.CaptureClears | engine/src/piece_tracker.rs:102-107 | dropping the captured piece's entry leaves both lists in step everywhere but on `to`, which neither list holds |
| PieceTracker.NoncaptureSync | engine/src/piece_tracker.rs:86-97 | moving onto a square neither list holds, from an occupied one, brings both lists back in step |
| PieceTracker.NoncaptureMoverCounts | engine/src/piece_tracker.rs:86-97 | the mover's list loses `from` and gains `to`, as its pieces do |
| PieceTracker.NoncaptureOtherCounts | engine/src/piece_tracker.rs:86-97 | the other colour's list and its pieces both stay as they were |
| PieceTracker.RemovePiece | engine/src/piece_tracker.rs:114-119 | `remove_piece` keeps the table, returns the piece on the square, removes its tracker entry and changes nothing on an empty square |
| PieceTracker.RemovePieceDesyncs | engine/src/piece_tracker.rs:114-119 | on an in-step tracker `remove_piece` of an occupied square leaves a tracker that fails `_check_pieces`: the piece stays on the table untracked |
| PieceTracker.TrackedColoredPieces | engine/src/piece_tracker.rs:121-135 | `colored_pieces` gives one pair per tracked square, in tracker order, with the piece that stands there |
| PieceTracker.TrackedColoredPiecesExact | engine/src/piece_tracker.rs:121-135 | on an in-step tracker the listed squares are exactly the squares holding a piece of that colour |
| ChessPiece.With | src/piece.rs:33-38 | or-ing a colour with a kind gives the piece of that kind and colour |
| ChessPiece.Opposite | src/piece.rs:41-46 | the opposite colour differs from the colour |
| ChessPiece.OppositeInvolution | src/piece.rs:41-46 | taking the opposite twice gives the colour back |
| ChessPiece.PawnDir | src/piece.rs:59-64 | a pawn walks one rank at a time, towards higher ranks exactly for Black |
| ChessPiece.PawnStart | src/piece.rs:53-58 | pawns start on an inner rank |
| ChessPiece.PawnBlockingRank | src/piece.rs:47-52 | the blocking rank is an inner rank |
| ChessPiece.PawnRanks | src/piece.rs:47-64 | the blocking rank is one step in front of the start, the two colours' starts mirror across the board, and their directions are opposite |
| ChessMoves.FromPair | src/moves.rs:45-52 | the first component becomes the rank and the second the file |
| ChessMoves.Playable | src/moves.rs:24-26 | a play is playable exactly when it is not a defence |
| ChessMoves.Relative | src/moves.rs:34-43 | `relative` yields no more positions than offsets, all on the board |
| ChessMoves.RelativeMembers | src/moves.rs:34-43 | a position comes out of `relative` exactly when it is on the board and among the offsets |
| ChessMoves.RelativeAppend | src/moves.rs:34-43 | `relative` keeps the input order: it distributes over concatenation |
| ChessMoves.RelativeExample | src/moves.rs:34-43 | offsets off the board in either coordinate are dropped and the rest keep their order |
| ChessBoard.Empty | src/board.rs:69-77 | the empty board has White to move, no en-passant square and every castle right |
| ChessBoard.EmptyIsEmpty | src/board.rs:69-77 | the empty board has no piece on any square |
| ChessBoard.Set | src/board.rs:725-730 | writing a square changes that square only and leaves turn, rights and en-passant square alone |
| ChessBoard.Get | src/board.rs:412-419 | `get` answers exactly for on-board squares, with their contents |
| ChessBoard.RelativeMove | src/board.rs:681-690 | the relative move exists exactly when the shifted square is on the board, and goes there from `from` |
| ChessBoard.MovesOnly | src/board.rs:660-667 | a push exists exactly when the shifted square is on the board and empty |
| ChessBoard.CaptureOnly | src/board.rs:676-679 | a capture step exists exactly when the shifted square is on the board and occupied, whatever the colour |
| ChessBoard.RayLinear | src/board.rs:698-699 | stepping `i` times by (rank, file) lands on `init + i*(rank, file)`, the square the source computes directly |
| ChessBoard.WalkFromTargets | src/board.rs:692-716 | the walk's `k`-th move goes from the piece to the `(i+k)`-th square of the ray, and the walk stops by index 7 |
| ChessBoard.WalkFromClear | src/board.rs:703-714 | every square the walk passes over is empty |
| ChessBoard.WalkFromMaximal | src/board.rs:698-714 | a walk that stops early stops at the edge or right after an occupied square: it never stops too soon |
| ChessBoard.WalkShape | src/board.rs:692-716 | `walk` yields the squares `init + k*(rank, file)` in order, passes only over empty squares, and ends at the edge, at index 7 or on the first occupied square |
| ChessBoard.Walk | src/board.rs:692-716 | every move of a walk starts on the walker's square and lands on the board |
| ChessBoard.BishopMoves | src/board.rs:530-535 | bishop moves start at the bishop and land on the board |
| ChessBoard.RookMoves | src/board.rs:538-543 | rook moves start at the rook and land on the board |
| ChessBoard.QueenMoves | src/board.rs:549-552 | the queen moves exactly where a bishop or a rook on its square would |
| ChessBoard.Jumps | src/board.rs:641-651 | a one-step move is produced exactly when its offset is listed and its target is on the board |
| ChessBoard.KnightMoves | src/board.rs:641-651 | knight moves start at the knight and land on the board |
| ChessBoard.KingCastleTargets | src/board.rs:576-600 | the castle moves are file+2 exactly with the mover's kingside right and files 5 and 6 empty, and file-3 exactly with the queenside right and files 1 to 3 empty |
| ChessBoard.KingCastleMoves | src/board.rs:576-600 | every castle move starts on the king's square and lands on the board |
| ChessBoard.KingMoves | src/board.rs:558-568 | king moves start at the king and land on the board |
| ChessBoard.PawnPassant | src/board.rs:627-639 | the en-passant move exists exactly when the recorded square is on the pawn's rank in an adjacent file, and goes one step forward into that file |
| ChessBoard.PawnDoubleBlocked | src/board.rs:616-623 | a pawn whose blocking square is occupied has no double step |
| ChessBoard.PawnTargets | src/board.rs:610-625 | a pawn moves one rank forward, or two from its start rank, and at most one file sideways |
| ChessBoard.PawnMoves | src/board.rs:610-625 | every pawn move starts on the pawn's square and lands on the board |
| ChessBoard.UnfilteredMovesForPiece | src/board.rs:480-527 | an empty square has no moves, and a piece's moves start on its square |
| ChessBoard.KeepNotOwn | src/board.rs:472-476 | the filter keeps exactly the moves not landing on the mover's own colour |
| ChessBoard.MovesForPiece | src/board.rs:469-477 | a piece's moves are exactly its unfiltered moves minus self-captures |
| ChessBoard.NoSelfCapture | src/board.rs:469-477 | no move of `moves_for_piece` lands on a piece of the mover's colour |
| ChessBoard.ColoredFrom | src/board.rs:425-431 | the scan from the `s`-th square finds exactly the squares from there on holding `color` |
| ChessBoard.ColoredPieces | src/board.rs:425-435 | `colored_pieces` lists exactly the squares holding a piece of `color` |
| ChessBoard.MovesForAll | src/board.rs:455-459 | the concatenated moves are exactly the moves of one of the listed pieces |
| ChessBoard.MovesFor | src/board.rs:455-459 | a move is `player`'s exactly when it is a filtered move of one of `player`'s pieces |
| ChessBoard.CastlePath | src/board.rs:365-370 | the checked squares are those of the king's rank from its file to the target's, none for a leftward move |
| ChessBoard.IsAnyAttacked | src/board.rs:377-380 | some listed square is attacked exactly when a piece of the attacker has a move onto it, self-captures filtered out |
| ChessBoard.CheckCastle | src/board.rs:358-375 | anything but a long king move passes the castle check |
| ChessBoard.CastlePathMembers | src/board.rs:365-370 | a square is checked exactly when it is on the king's rank between its file and the target's, both included |
| ChessBoard.CheckCastleMeaning | src/board.rs:358-380 | a long king move passes exactly when no move of the opponent lands on the crossed squares |
| ChessBoard.QueensideNeverRefused | src/board.rs:365-374 | a leftward castle crosses no checked square and is never refused |
| ChessBoard.FindFrom | src/board.rs:305-316 | the result is the first holder of `color` from the `s`-th square on, and `None` only when there is none |
| ChessBoard.FindKing | src/board.rs:305-316 | `find_king` gives the first square holding `color`; it panics only when `color` has no piece at all |
| ChessBoard.FindKingNotKing | src/board.rs:305-316 | `find_king` picks the first piece of the colour, so a pawn ahead of the king is taken for the king |
| ChessBoard.IsCheck | src/board.rs:318-322 | `is_check` panics exactly when `find_king` does, and otherwise says whether an opponent move lands on the found square |
| ChessBoard.Check | src/board.rs:323-331 | `check` reports White when White is attacked, Black only when White is not, and none when neither is |
| ChessBoard.CheckPrefersWhite | src/board.rs:323-331 | when White is in check, `check` reports White whatever Black's state, even with no Black piece |
| ChessApply.Stripped | src/board.rs:220-236 | a right is lost exactly on a back-rank move leaving that corner file, or reaching it when no earlier arm matched |
| ChessApply.RemoveCastleRights | src/board.rs:219-237 | only the side to move loses rights; squares, turn, en-passant square and the other side's rights stay |
| ChessApply.CaptureKeepsVictimRight | src/board.rs:229-233 | White capturing on Black's kingside corner clears White's own kingside right and keeps Black's |
| ChessApply.RemoveCastleRightsFixed | src/board.rs:219-237 | the mover loses the right of a corner it leaves, the other side that of a corner that is captured on |
| ChessApply.FixedClearsVictimRight | src/board.rs:229-233 | with the correction, landing on a back-rank corner takes the opponent's right for it, and rights are only ever taken away |
| ChessApply.CornerCaptureKeepsRight | src/board.rs:225-228 | a rook from one corner to the other keeps the right of the corner it reaches and clears the one it left |
| ChessApply.RookLeg | src/board.rs:85-91 | the castling rook moves on the king's ranks, 0 to 2 for a leftward jump and 7 to 5 otherwise |
| ChessApply.UncheckedRights | src/board.rs:265-283 | `apply_unchecked` keeps the side to move and never grants a castle right |
| ChessApply.KingMoveLosesRights | src/board.rs:275-278 | after any king move the side to move has no castle right |
| ChessApply.KingMoveRights | src/board.rs:84-98 | `apply_king_move` keeps the side to move, grants no right and clears the mover's rights |
| ChessApply.ApplyKingMove | src/board.rs:84-98 | a king's move that completes puts the king on the target, takes both castle rights from the side to move and does not pass the turn |
| ChessApply.ApplyPawnMove | src/board.rs:240-260 | a pawn's move fails exactly when the target is empty and the square behind it is off the board (the index panic); otherwise it keeps the turn and the rights, records the target as en-passant square after a two-rank step towards higher ranks and keeps the old one otherwise, puts the pawn or, on the promotion rank, a queen of the side to move on the target, empties the square behind an empty target, and changes no other square |
| ChessApply.MovePiece | src/board.rs:269-280 | moving the lifted piece does not pass the turn, and only a pawn's move or a king's castle jump can fail |
| ChessApply.ApplyUnchecked | src/board.rs:265-283 | a move that completes had a piece on `from`, and it does not pass the turn |
| ChessApply.MovePieceLands | src/board.rs:254-259 | the mover lands on the target, a pawn on the promotion rank of the side to move turning into that side's queen |
| ChessApply.MovePiecePassant | src/board.rs:243-245 | the en-passant square is the target after a pawn's step two ranks up, unchanged after other pawn moves, and cleared after any other piece's |
| ChessApply.UncheckedEffect | src/board.rs:265-283 | `apply_unchecked` places the mover or its promotion on the target, sets the en-passant square by kind, and empties `from` unless it castles |
| ChessApply.UncheckedPassantCapture | src/board.rs:246-253 | a pawn moving onto an empty square fails exactly when the square behind the target is off the board, and otherwise leaves that square empty |
| ChessApply.UncheckedFrame | src/board.rs:265-283 | short of a castle, a completed move changes no square but `from`, `to` and, for a pawn moving onto an empty square, the square behind the target |
| ChessApply.CastleMovesRook | src/board.rs:84-98 | a castle from file 4 puts the king on the target and the corner rook beside it, empties both start squares, clears the mover's rights and changes no other square |
| ChessApply.Apply | src/board.rs:285-303 | `apply` refuses exactly when the piece is not the mover's, the move is not among its moves, or the castle check fails, and otherwise plays it unchecked |
| ChessApply.ApplyKeepsPassantOk | src/board.rs:240-245 | a played move keeps the en-passant square on the board and on ranks 1 to 6 |
| StartBoard.Default | src/start_board.rs:6-60 | the initial board keeps the empty board's turn, rights and en-passant square |
| StartBoard.DefaultFields | src/start_board.rs:6-60 | White moves first, with no en-passant square and every castle right |
| StartBoard.DefaultBackRanks | src/start_board.rs:11-54 | rank 0 holds Black's back row and rank 7 White's, in the order rook, knight, bishop, queen, king, bishop, knight, rook |
| StartBoard.DefaultPawns | src/start_board.rs:21-44 | rank 1 holds Black's pawns and rank 6 White's |
| StartBoard.DefaultMiddleEmpty | src/start_board.rs:31-34 | ranks 2 to 5 are empty |
| StartBoard.DefaultHolders | src/start_board.rs:10-55 | a square holds White exactly on ranks 6-7 and Black exactly on ranks 0-1 |
| StartBoard.DefaultSixteen | src/start_board.rs:6-60 | each side starts with sixteen pieces, all on its own two ranks |
| PlayTable.Set | src/table.rs:267-271 | writing a square changes that square only and keeps both castle records |
| PlayTable.SameBoard | src/table.rs:10-15 | a board is determined by its 64 squares and its two castle records |
| PlayTable.Get | src/table.rs:48-56 | `get` answers exactly for on-board squares, with their contents |
| PlayTable.Apply | src/table.rs:28-31 | the piece from `from` lands on `to`, `from` is left empty, and every other square and both castle records stay |
| PlayTable.ApplyUndo | src/table.rs:28-31 | a move onto an empty square is undone by the move back |
| PlayTable.ColoredFrom | src/table.rs:58-67 | the scan from a square yields only pieces of `color` standing at the given squares, at or after the start |
| PlayTable.ColoredFromComplete | src/table.rs:58-67 | every piece of `color` at or after the start square is found by the scan |
| PlayTable.ColoredPiecesExact | src/table.rs:58-67 | a (piece, square) pair comes out of `colored_pieces` exactly when that piece of `color` stands on that square |
| PlayTable.ColoredPiecesSorted | src/table.rs:62-63 | `colored_pieces` runs in rank-major order, so no square comes twice |
| PlayTable.ClassifyKinds | src/table.rs:223-227 | a play onto one's own piece is a defence, onto the opponent's a capture, onto an empty square a plain move, and a defence or capture carries the piece found there |
| PlayTable.Relative | src/table.rs:217-229 | `relative` is `None` exactly off the board, and otherwise the play onto the shifted square, plain exactly when the square is empty |
| PlayTable.MovesOnly | src/table.rs:194-200 | a push exists exactly when the shifted square is on the board and empty |
| PlayTable.CaptureOnly | src/table.rs:209-215 | a capture step exists exactly when the shifted square is occupied, and it is a capture exactly when the piece there is the opponent's |
| PlayTable.IsCaptureRelative | src/table.rs:186-190 | `is_capture` holds exactly when `relative` onto that square gives a capture |
| PlayTable.Walk | src/table.rs:231-258 | the walk as written has at most seven plays, all from the piece and classified by what stands on their square |
| PlayTable.WalkReach | src/table.rs:238-249 | the walk as written reaches its `k`-th square exactly when the squares up to it are on the board and each one before it is occupied |
| PlayTable.WalkOnBeyond | src/table.rs:238-242 | every square the walk as written yields lies beyond the piece in the walk's direction |
| PlayTable.WalkStopsAfterFree | src/table.rs:243-249 | as written, a piece whose first square ahead is empty gets only that square, even when the next one is on the board |
| PlayTable.WalkFixed | src/table.rs:231-258 | the corrected walk has at most seven plays, all from the piece and classified by what stands on their square |
| PlayTable.WalkFixedReach | src/table.rs:238-249 | the corrected walk reaches its `k`-th square exactly when the squares up to it are on the board and each one strictly between the piece and it is empty |
| PlayTable.WalkFixedBeyond | src/table.rs:238-242 | every square the corrected walk yields lies beyond the piece in the walk's direction |
| PlayTable.WalkFixedPassesFree | src/table.rs:243-249 | where the walk as written stops after one empty square, the corrected walk goes on to the second |
| PlayTable.WalkSquares | src/table.rs:231-258 | the `k`-th play of the walk as written goes from the piece to the `(k + 1)`-th square of its ray |
| PlayTable.WalkFixedSquares | src/table.rs:231-258 | the `k`-th play of the corrected walk goes from the piece to the `(k + 1)`-th square of its ray |
| PlayTable.BishopMoves | src/table.rs:125-129 | the bishop gets at most 21 plays, seven per diagonal walked, each from its square onto the board and classified by what stands there |
| PlayTable.RookMoves | src/table.rs:132-137 | the rook gets at most 28 plays, each from its square onto the board and classified by what stands there |
| PlayTable.QueenMoves | src/table.rs:143-146 | the queen gets at most 49 plays, each from its square onto the board and classified by what stands there |
| PlayTable.BishopMovesFixed | src/table.rs:125-129 | on the corrected walk, the bishop gets at most 21 plays, each from its square onto the board and classified |
| PlayTable.RookMovesFixed | src/table.rs:132-137 | on the corrected walk, the rook gets at most 28 plays, each from its square onto the board and classified |
| PlayTable.QueenMovesFixed | src/table.rs:143-146 | on the corrected walk, the queen gets at most 49 plays, each from its square onto the board and classified |
| PlayTable.RookMovesStraight | src/table.rs:132-137 | every play of the rook, on the walk as written, goes along its rank or its file |
| PlayTable.BishopMovesDiagonal | src/table.rs:125-129 | every play of the bishop, on the walk as written, is diagonal, and none goes towards higher ranks and files at once |
| PlayTable.QueenMovesLines | src/table.rs:143-146 | every play of the queen, on the walk as written, is straight or along one of the bishop's three diagonals |
| PlayTable.RookMovesFixedStraight | src/table.rs:132-137 | on the corrected walk too, every rook play goes along its rank or its file |
| PlayTable.BishopMovesFixedDiagonal | src/table.rs:125-129 | on the corrected walk too, every bishop play keeps to the three diagonals |
| PlayTable.QueenMovesFixedLines | src/table.rs:143-146 | on the corrected walk too, every queen play is straight or along one of the three diagonals |
| PlayTable.StepsMembers | src/table.rs:152-162 | a play is among the steps exactly when `relative` gives it for one listed offset |
| PlayTable.KingMoves | src/table.rs:152-162 | the king gets at most eight plays, each from its square onto the board and classified by what stands there |
| PlayTable.KingMovesNeighbours | src/table.rs:152-162 | the king's plays are exactly the classified plays onto its on-board neighbours |
| PlayTable.KingMovesShape | src/table.rs:152-162 | every king play goes to a neighbouring square of the board and is classified by what stands there |
| PlayTable.PawnMoves | src/table.rs:172-184 | a pawn gets at most four plays, each from its square onto the board and classified by what stands there |
| PlayTable.PawnMovesShape | src/table.rs:172-184 | a pawn's plain moves go straight forward onto an empty square, one step or two from its start rank; its other plays go one step diagonally forward onto an occupied square; each is classified by what stands there |
| PlayTable.PawnMovesAll | src/table.rs:172-184 | all of a pawn's plays have that shape at once |
| PlayTable.PawnJumpsOver | src/table.rs:177-183 | from its start rank a pawn jumps two squares even over an occupied square |
| PlayTable.MovesFor | src/table.rs:74-122 | an empty square has no plays; every play of a piece goes where its kind moves as written (three diagonals for the bishop, its rank or file for the rook, either for the queen, a neighbouring square for the king and the knight alike, a pawn's step for the pawn) and is classified from the piece's side |
| PlayTable.KnightMovesAsKing | src/table.rs:95-99 | a knight gets exactly the king's plays |
| PlayTable.MovesEach | src/table.rs:68-72 | one list of plays per listed piece, each that piece's plays |
| PlayTable.MovesMembers | src/table.rs:68-72 | a play is among `turn`'s exactly when it is a play of one of `turn`'s pieces |
| PlayTable.Moves | src/table.rs:68-72 | every play of `turn` starts on a square holding one of `turn`'s pieces and is classified from `turn`'s side |
| PlayTable.LoneRookWalks | src/table.rs:243-249 | as written, a lone rook in the corner walks one square along its rank |
| PlayTable.LoneRookWalksFixed | src/table.rs:243-249 | with the corrected walk, the lone rook reaches all seven squares of its rank |
| PlayTable.LoneRookWalksOff | src/table.rs:231-242 | the lone rook's walks off the board, up and to the left, yield nothing |
| PlayTable.LoneRookWalksDown | src/table.rs:243-249 | as written, the lone rook also walks one square down its file |
| PlayTable.LoneRookMoves | src/table.rs:74-137 | as written, the lone rook in the corner gets exactly two plays, onto (0, 1) and (1, 0) |
| PlayTable.LoneRookWalksFixedDown | src/table.rs:243-249 | with the corrected walk, the lone rook reaches all seven squares of its file |
| PlayTable.LoneRookMovesFixed | src/table.rs:132-137 | with the corrected walk, the lone rook gets fourteen plays |

## Left out

- Floating-point scoring and search of `src/board.rs` (`heuristic`, `h_children`, `h_*`, `minimax`, `play_with`) and `src/heuristic.rs`, `src/minimax.rs`, `src/game.rs`, parameters and tuning: `f32` arithmetic with infinities and tuned weights.
- `children`, `children_moves`, `highlighted_squares`, `playable_moves`, `advance_turn` and `unfiltered_moves_for` of `src/board.rs`: thin iterator plumbing over the modelled generators that no modelled operation depends on.
- The user interface, settings, command-line handling, training harness and `main` of both crates: rendering, file I/O, randomness and parallelism.
- The `Display` impls and `debug` printing: text rendering only.
- `pawn_moves` of `engine/src/moves/pawn.rs` and `is_check` of `engine/src/moves/king.rs` are `todo!()`. The move cache takes `pawn_moves` as a parameter, and `is_check` has no model. `moves` in `engine/src/moves.rs` always returns `None` and is not modelled.
- `engine/src/lib.rs` and `engine/src/main.rs`: module wiring only.
- `MoveCache::get` and `get_loc` read fields by raw pointer offset. They are modelled as explicit accessors over the `#[repr(C)]` field order; offsets past the structure are excluded by a precondition.
- `Metadata.Turn`: the source transmutes 0 into `Color`, which is undefined; the model returns `None` there.
- ChessBoard.ColoredPieces: `colored_pieces` in `src/board.rs` sorts the pieces with an `Ord` on `Piece` that is not shown. The model keeps rank-major order and states membership only, so the order of `moves_for` and `moves` is not pinned down.
- ChessBoard.ColoredPieces and PieceTracker.InitPieceTracker: the 16-entry `ArrayVec` the source collects into (src/board.rs:426, engine/src/piece_tracker.rs:14-15) is not a limit in the model, and neither member requires it. Given a table with more than sixteen pieces of one colour, both return every one of them where the source panics. The start position has sixteen per colour (`StartBoard.DefaultSixteen`), and a move only moves, promotes or removes pieces, so boards reached by play from the start stay within the limit; that count is not stated as a lemma.
- The 128-entry `ArrayVec` of `moves_for` and `children` (src/board.rs:99-114, 338) is not a limit in the model: `ChessBoard.MovesFor` returns every move however many there are.
- The 3-entry `ArrayVec` of castle squares (src/board.rs:370, 377) is a precondition, not a panic: `ChessBoard.CheckCastle`, `ChessApply.Apply` and `ChessApply.ApplyKeepsPassantOk` require that a long king move goes at most two files to the right, so the checked path has at most three squares.
- `Board::children` of the engine and `Board::me`: the search takes the children, the side to move and the evaluation as parameters, and the move cache takes the player to move directly.
- Heuristic: the source computes in `i32`. Every sum the model forms is far inside that range, so it uses unbounded integers without wrap-around. The search does use the `i32` bounds `i32::MIN` and `i32::MAX`.
- The engine piece tracker's `init_piece_tracker` sorts by a piece order that is not shown; the model keeps rank-major order.
- The shared iterator helpers (`cast`, `Either` piping) are rendered as sequence concatenation.

## Findings

| source | as written | input that shows it | evidently intended | confidence | as-written member | corrected member |
|---|---|---|---|---|---|---|
| engine/src/moves/rook.rs:52-62 | the left-side run starts at the rook's own square, so a `mine` bit on that square (as in every snapshot of a full board) blocks the run, and an opponent piece just behind the rook is shifted onto it | a lone rook on a1 with its own square in `mine` gets no move at all; a rook on e2 with an opponent on d2 is not offered f2 | the run starts one square past the rook, and only blockers on that run count | not executed | Rook.SelfBlocked, Rook.BehindBlocked | Rook.LeftsideFixedRef, Rook.DownwardsFixedRef, Rook.LoneRookFixed, Rook.BehindFixed |
| engine/src/moves/bishop.rs:41-44 | the opponent is moved up a whole rank (8 squares), while a left-hand diagonal advances 7 squares per rank | a bishop on e1 with an opponent on d2 is offered c3, beyond the capture | the opponent is moved up one square along the diagonal, so the stroke stops on the captured piece | not executed | Bishop.OvershootsCapture | Bishop.StrokeFixedRef, Bishop.BishopFixedExamples |
| engine/src/moves/bishop.rs:36-39 | `mine - 1` keeps every own piece past the first, so squares beyond the first blocker that hold own pieces survive | a bishop on c3 with own pieces on d4 and e5 is offered e5 | only the squares strictly below the lowest own piece are kept | not executed | Bishop.ReachesOwnPiece | Bishop.StrokeFixedRef, Bishop.BishopFixedExamples |
| engine/src/moves/pawn.rs:13-25 | the whole pawn bitboard is shifted by 9 or 7 without masking the edge file first, so a pawn on an edge file wraps to the other side | a White pawn on (6, 0) is given (4, 7) as a left capture; one on (6, 7) is given (6, 0), on its own rank, as a right capture | the file the shift would leave is cleared before shifting | not executed | Pawn.CapturesWrap | Pawn.LeftFixedBit, Pawn.RightFixedBit, Pawn.CapturesFixedExamples |
| src/table.rs:243-249 | a square is yielded only while the square before it holds a piece, so the walk stops after the first empty square | a lone rook on (0, 0) walking along its rank gets only (0, 1), and two plays in all | a square is yielded while every square between the piece and it is empty, as `src/board.rs` writes it | not executed | PlayTable.WalkStopsAfterFree, PlayTable.LoneRookWalks, PlayTable.LoneRookMoves | PlayTable.WalkFixedReach, PlayTable.WalkFixedPassesFree, PlayTable.LoneRookWalksFixed, PlayTable.RookMovesFixed, PlayTable.LoneRookMovesFixed |
| src/board.rs:229-233 | the arms meant for a captured rook clear the right of the side to move, not the captured side's, and only when no earlier arm matched | White moving from (3, 3) onto the corner (0, 7) keeps Black's kingside right and loses its own | a move onto a back-rank corner clears the opponent's right for that corner | not executed | ChessApply.CaptureKeepsVictimRight | ChessApply.RemoveCastleRightsFixed, ChessApply.FixedClearsVictimRight |

The corrected sliders are combined in `Queen.QueenMovesFixed`. `MoveCache` deliberately keeps the generators as written, because its own quirks (knights computed with the bishop generator, the missing first quarter in `all`) are properties of the code as written. In the older board, `PlayTable.BishopMoves`, `PlayTable.RookMoves` and `PlayTable.QueenMoves`, and through them `PlayTable.MovesFor` and `PlayTable.Moves`, are built on the walk as written; the corrected walk is used only by `PlayTable.BishopMovesFixed`, `PlayTable.RookMovesFixed` and `PlayTable.QueenMovesFixed`.
