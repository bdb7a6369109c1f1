# Clawfish: a verified model of the chess core

This project models the parts of the clawfish chess engine in which a fast, redundant or concurrent
form has to agree with a simple one, and proves that it does.

* **Transitions** (`Rules`, `Soundness`, `Zobrist`, `Evaluation`, `Positions`, `Scratch`, `Transition`,
  `Runs`). A position is a mutable object with a mailbox, eight bitboards, a king cache, castling
  rights, en passant target, clocks, two incremental hashes and an incremental evaluation triple.
  `Positions.Position.Valid` says that every redundant field equals its recomputation from the board,
  and that the position is sound. Making a move of any of the fourteen flags keeps the former, and the
  latter exactly when the move takes no king; unmaking restores every field; any run of makes, unmakes,
  null moves and null unmakes behaves like a stack of whole positions.
* **FEN** (`Text`, `Placement`, `Fen`, `FenIo`, `Games`). The grammar of section 16.1 of the Portable
  Game Notation Specification as the code reads it, the parser as it runs (cursors, pieces placed one
  by one), the printer as it runs, and the round trips in both directions, also along games.
* **Attacks** (`Bits`, `Bitboards`, `Subsets`, `SlowAttacks`, `Magics`, `Lookups`). The subset
  enumeration by carry, the ray walk, the table build with its zero sentinel and collision check, the
  lookup, and the leaper tables.
* **Move generation** (`Lines`, `Words`, `Checks`, `Legality`, `Segments`, `Masks`, `Filters`,
  `Generation`, `Movegen`, `Lapses`, `Stale`). `Movegen.GenerateMoves` is the code's sequence: checkers, pins and
  pin rays, evasion masks, king danger, then the emitters. It is proved to produce the list
  `Generation.Gen`, which holds each legal move once on every fair position; `Legality.PassesExactly`
  says what it lets through besides on all others. `Lapses` gives examples, and `Stale` what follows from them.
* **Moves** (`Moves`). The sixteen-bit packing, the pseudo-legality of a move, and the coordinate
  notation, whose texts name at most one pseudo-legal move.
* **Consumers** (`Perft`, `Divide`, `Categories`, `Symmetry`, `Draining`, `Fills`). Leaf counting by
  generating, making and unmaking on one board, the colour symmetry of the evaluation, and the bitboard
  primitives.
* **Orchestration** (`Engine`, `EngineSafety`, `EngineRuns`, `Sessions`). Reader, orchestrator and
  search workers as interleaved steps, and the game state set by `position`.

`Chess`, `Folds` and `Wrappers` hold shared vocabulary: squares, pieces, boards, folds over a board.

The specification itself is held to references that share no definition with it:

* `Book` states the laws of chess in files and ranks: how pieces go and strike, what the board is after a
  move, when a king is struck. `Book.GenIsByTheBook` and `Book.NextIsByTheBook` tie generation and the
  successor to it, `Playouts.LeavesArePlayouts` makes perft a count of games, `Edges.EdgeLaw` says what each
  category counts, and `Opening` works out the first move.
* `Laws` does the same for castling, the en passant target, rights, clock and turn; `Terms` for the parts of
  the evaluation; `Layout` for the numbers of the keys; `EngineHandlers` for what each command achieves.
* `Texts` gives letters, numbers and whole FEN texts by value; `Refusals` says which error a refused text gets.

How a claim is built: `Rules.Next` gives the position after a move in one expression for all flags;
`Transition.MakeMove` is the code's own sequence of writes, proved equal to it; `Soundness` and
`Zobrist` prove what the source promises about `Next`.

Three conditions on a position are told apart. `Rules.Sound` is what the parser enforces: one king a
side, no pawn on a back rank, castling rights with king and rook at home, a target the sanitizer keeps.
`Legality.Guarded` adds that the side to move does not attack the idle king. `Legality.Fair` adds that
with an en passant target set no piece but the pushed pawn checks by a leap. Legal play from a fair
position stays fair (`Legality.StaysFair`), the starting position is fair (`Lapses.StartIsFair`), and a
caller can test both conditions.

What is assumed of the surroundings, always as an explicit parameter or hypothesis: the Zobrist keys,
piece-square tables and magic constants are arbitrary tables; the attack tables in use are ready
(`Lookups.Ready`), which `Lookups.BuildAll` achieves exactly when the magic constants do not clash and
their masks are those of the ray walk (`src/magic.rs:212-228` checks the latter of the committed ones).

## Results that differ from the source's own words

* The move counter is a 16-bit number incremented without a guard (`src/mov.rs:701-705`). The release
  profile (`Cargo.toml:90-94`) does not turn overflow checks on, so it wraps to 0, and the parser rejects a move
  number 0. FEN therefore does not record every reachable position: `Games.CounterWraps` gives one.
* The parser does not ask whether the idle king is attacked (`src/position.rs:609-669`), and move generation has no
  filter for king captures (`src/movegen/masks.rs:98-99`). From `4k3/8/8/8/8/8/8/K3R3 w - - 0 1` it emits e1e8, the
  text e1e8 is accepted, and the position left has no black king (`Texts.OpenFileText`, `Games.KingTakenLine`, `Lapses.OpenFilePasses`,
  `Lapses.OpenFileFollowed`). Making and unmaking remain inverse even then (`Transition.UnmakeMove`), the caches
  remain consistent (`Transition.MakeMove`), but the text of such a position is refused (`Games.KinglessText`).
  `Lapses.GenStaysSound` says exactly when generation stays among sound positions.
* So two conditions are needed for a position reached by play to be recorded by its text, and together they are
  exact: the counter is not zero, and no king was taken (`Fen.RecordedExactly`, `Games.PlayedRoundTrips`). From a fair
  base the second always holds (`Lapses.FairPlayRoundTrips`).
* After e1e8 the king cache still names e8, and moves are generated for whatever stands there: `Stale.OpenFileSteps`
  gives e8d7 and e8f7. `handle_position` (`src/engine.rs:318-334`) reads further texts against such moves. A list that goes
  on after a king was taken is therefore outside of what `Sessions` promises; `Sessions.BeyondExactly` says which lists
  these are, and `Stale.OpenFileBeyond` gives one, e1e8 a1a2. No list is of this kind from a fair base.
* In a release build plain and bulk counting do not agree everywhere (`src/perft.rs:54-65`), nor does counting always leave
  its working board as it was. In `3k4/4P3/8/8/8/8/8/K7 w - - 0 1`, at depth 2, the pawn takes the king and becomes a knight on d8, and the
  stale king square makes the knight's square the one Black moves from. `make_move` takes the mover's colour from the
  board and `unmake_move` from the turn, so that a move and its undoing restore the turn exactly when the piece belongs to
  the side to move (`Stale.UndoneExactly`). The turn is left with White, undoing the promotion sets a black pawn on e7,
  and plain counting goes on from there; bulk counting makes no move at the last ply and restores the board
  (`Stale.PawnTakesGenerated`, `Stale.PlainCountCorrupts`). The four promotions on d8 add 10 to the bulk count and 14 to
  the plain one (`Stale.CountsDiffer`). What is proved of the counts is proved of the trees in which
  no line takes a king before the last ply, and of no others (`Perft.Tame`, `Perft.TameExactly`). `Legality.Fair` is the
  condition a caller can check: it grants this at every depth (`Perft.FairIsTame`).
* Generation is documented to need no legality filter (`src/movegen.rs:15-19`). A comment (`src/movegen/pawn.rs:127-135`)
  grants one exception, an en passant target together with a check by a knight. There are two: an en passant capture
  out of a check by any leaper other than the pushed pawn, another pawn included, and any move that leaves the kings
  side by side where they already were (`Legality.PassesExactly`, on every well-formed position). For the latter
  `Stale.NeighboursPass` gives the move a2a3 in `8/8/8/8/8/8/P3k3/4K3 w - - 0 1`. For the former
  `Lapses.PassingGenerated` gives an accepted text, and `Lapses.PassingFollowed` a line from it that
  takes a king although the idle king was not attacked at the start. Legal play never leads there (`Legality.StaysFair`).
* `is_kbkb_same_color` and the bishop pair look at square shades, which the mirror swaps; the results
  are symmetric all the same (`Symmetry.MaterialMirrors`, `Symmetry.PairMirrors`).
* In the categorised counts a castling that gives check counts as a discovery, because the checker is
  not on the king's target square; `Categories.Classify` keeps that.

## Model

| member | source | states |
|---|---|---|
| `Rules.BuildCastlingMask` | src/mov.rs:513-528 | the table filled by the constant initialiser, which `make_move` indexes, holds for every square the rights that survive a move touching it |
| `Soundness.NextBoardAt` | src/mov.rs:621-661 | square by square what a move leaves behind, for all fourteen flags, including the en passant victim and the castling rook |
| `Book.NextIsByTheBook` | src/mov.rs:621-661 | after an allowed move the board is the one the laws of chess give in files and ranks: the mover or what it became, the pawn taken in passing, the rook brought along |
| `Laws.CastledLaw` | src/mov.rs:621-661 | after castling the king stands two squares off its home, the rook on the square the king crossed, and both homes are empty |
| `Laws.PassingLaw` | src/mov.rs:572-602 | a capture in passing removes the enemy pawn beside the mover on the target's file, and the mover lands on an empty square |
| `Soundness.VictimIsEnemy` | src/mov.rs:572-602 | the capture square never is the origin, holds an enemy piece, and for en passant an enemy pawn off the target square |
| `Soundness.KingsAfter` | src/mov.rs:621-661 | each side still has exactly one king after any applicable move that takes none |
| `Soundness.KingGone` | src/mov.rs:621-661 | after the capture of a king its side has none |
| `Soundness.PawnsAfter` | src/mov.rs:621-661 | no pawn is left on a back rank |
| `Soundness.RightsSurvive` | src/mov.rs:664-666 | a right survives exactly when it was held and neither end of the move is masked for it |
| `Laws.RightsLaw` | src/mov.rs:509-528 | a right is lost exactly by a move from or to its king's or its rook's home |
| `Soundness.CastlingAfter` | src/mov.rs:509-528 | every right still held after a move has its king and rook at home: masking both ends is enough |
| `Soundness.EpAfter` | src/mov.rs:668-691 | the target a move sets is one the parser's sanitizer would keep |
| `Laws.TargetLaw` | src/mov.rs:668-691 | a move leaves a target exactly if it is a double push past an enemy pawn on the same rank one file away; the target is the square between its ends |
| `Laws.TargetIsMaximal` | src/mov.rs:668-691 | the target of a double push is what the parser's sanitizer makes of the square passed over, no less |
| `Laws.ClockLaw` | src/mov.rs:693-699 | after any line the clock is the number of half-moves since the last pawn move or capture, those the line began with included, and stays at 255 |
| `Laws.TurnLaw` | src/mov.rs:707 | the turn alternates along every line |
| `Soundness.NextSound` | src/mov.rs:562-763 | every applicable move that takes no king keeps well-formedness: kings, pawns, castling rights, en passant target |
| `Soundness.NextSoundUnlessKingTaken` | src/mov.rs:562-763 | an applicable move keeps well-formedness exactly when it takes no king |
| `Soundness.NextNullSound` | src/mov.rs:921-978 | a null move keeps well-formedness |
| `Zobrist.PieceKeysAfter` | src/mov.rs:1039-1060 | the key fold over the new board is the old one with the move's few keys toggled; with all pieces or with pawns alone |
| `Zobrist.CastlingToggles` | src/mov.rs:1062-1078 | toggling the keys of the rights that changed turns the keys of the old rights into those of the new |
| `Zobrist.HashAfter` | src/mov.rs:1022-1095 | the incremental hash of every applicable move is the hash of the new position computed from nothing, the en passant key read before and after included |
| `Zobrist.HashAfterNull` | src/mov.rs:921-951 | the same for a null move |
| `Layout.HashSelects` | src/zobrist.rs:63-105 | the hash of a sound position is made of the keys the format assigns: 64 for each piece from black pawn to white king, 768 to 771 for the rights, 772 to 779 for the target's file, 780 for White to move |
| `Layout.PawnHashSelects` | src/zobrist.rs:215-224 | the pawn hash is made of the first 128 of them |
| `Layout.TargetCounts` | src/zobrist.rs:130-159 | on a sound position a target is hashed whenever there is one |
| `Layout.KeysDetermine` | src/zobrist.rs:63-105 | sound positions that use the same keys have the same board, turn, target and rights: no two features share a key |
| `Layout.KeysAfterNull` | src/mov.rs:921-951 | passing the turn drops the target's key, toggles the turn key, and leaves every other key as it was |
| `Evaluation.SumAfter` | src/mov.rs:1134-1232 | for any table, the fold over the board changes by exactly the entries a move adds and removes |
| `Evaluation.PhaseFitsByte` | src/mov.rs:1222-1231 | the phase never exceeds 62 times 4 with both kings on the board, nor 63 times 4 with one, so the cast to a byte loses nothing |
| `Terms.PhaseLaw` | src/eval/data.rs:463-466 | setting a piece down raises the phase by one for a minor piece, two for a rook, four for a queen, nothing for pawn and king |
| `Terms.StartPhase` | src/eval/data.rs:463-466 | the starting position has phase 24 |
| `Evaluation.ScoreFitsWord` | src/eval.rs:104-123 | with entries below 2^24 in size the folds stay inside 32-bit integers |
| `Positions.ValidDetermined` | src/position.rs:341-405 | two valid positions with the same recorded fields agree in every redundant field |
| `Positions.Position.SetPiece` | src/position.rs:419-440 | placing a piece changes one square of the mailbox, keeps bitboards and mailbox in step, moves the king cache only for kings |
| `Positions.Position.ClearSquare` | src/position.rs:462-476 | clearing a square empties it and nothing else, bitboards included |
| `Positions.Position.PiecesColoredAt` | src/position.rs:317-319 | the intersection of the two bitboards holds exactly the squares of that piece |
| `Positions.Position.EpFile` | src/zobrist.rs:130-159 | intersecting the mover's pawns with the squares beside the pushed pawn finds a capturer exactly when one stands there |
| `Scratch.SumByPiece` | src/eval.rs:104-123 | summing piece kind by piece kind gives the fold square by square |
| `Scratch.SumPiece` | src/eval.rs:110-115 | draining one bitboard adds up all three tables over exactly the squares of that piece |
| `Scratch.EvalStateFromScratch` | src/eval.rs:104-123 | the recomputed triple is the fold of the two tables and of the phase weights over the board, and the phase fits a byte |
| `Scratch.PawnsByColor` | src/zobrist.rs:215-224 | the two sides' pawn keys together are the fold over all squares restricted to pawns |
| `Scratch.PawnHashFromScratch` | src/zobrist.rs:215-224 | draining both pawn bitboards yields the pawn-only hash |
| `Scratch.HashFromScratch` | src/zobrist.rs:175-202 | the recomputed hash is the key fold with castling, en passant and turn keys |
| `Transition.CaptureSquareOf` | src/mov.rs:572-585 | the square the code computes for the victim is the one the rules give |
| `Transition.EpTargetAfter` | src/mov.rs:668-691 | the loop-free test by bitboards computes the target that `Laws.TargetLaw` describes: a double push sets one exactly when an enemy pawn stands beside the pushed pawn |
| `Transition.MoveMen` | src/mov.rs:621-661 | the flag-by-flag board writes leave the board of the rules, bitboards in step |
| `Transition.MoveAndAux` | src/mov.rs:621-707 | board, castling rights, target and clocks become those of the successor; the king cache follows a king |
| `Transition.UpdateHash` | src/mov.rs:1022-1095 | the running exclusive-or toggles exactly the keys the move changes |
| `Transition.UpdatePawnHash` | src/mov.rs:1097-1125 | three conditional toggles, without looking at the flag, account for every pawn the move touches |
| `Transition.PawnCells` | src/mov.rs:1097-1124 | of the cells any move touches, only the mover's two and the victim's can hold a pawn |
| `Transition.TableDelta` | src/mov.rs:1149-1220 | the flag-by-flag score change is the change of the fold |
| `Transition.PhaseDelta` | src/mov.rs:1149-1231 | the flag-by-flag phase change is the change of the phase fold |
| `Transition.UpdateEval` | src/mov.rs:1134-1232 | the stored triple becomes the fold over the new board |
| `Transition.MakeMove` | src/mov.rs:562-763 | from a valid position every applicable move gives the successor of the rules (its board, rights, target, clock and turn are those of `Book.NextIsByTheBook`, `Laws.RightsLaw`, `Laws.TargetLaw`, `Laws.ClockLaw`, `Laws.TurnLaw`) with all caches consistent, valid exactly when no king was taken, and a token holding what the move destroys |
| `Transition.UnmovedBoard` | src/mov.rs:787-844 | putting back the mover, the victim or the rook on the new board gives the old board |
| `Transition.UnmoveMen` | src/mov.rs:770-844 | the reverse writes restore the old board, bitboards in step |
| `Transition.FullmoveRestored` | src/mov.rs:846-852 | the counter comes back even across the wrap |
| `Transition.UnmakeMove` | src/mov.rs:767-899 | unmaking restores every field, the king cache and both hashes included, also after the capture of a king |
| `Transition.MakeNullMove` | src/mov.rs:921-978 | a null move keeps validity and gives the successor of the rules |
| `Transition.UnmakeNullMove` | src/mov.rs:981-1010 | undoing a null move restores every field |
| `Runs.Execute` | src/mov.rs:562-1010 | one make, unmake, null make or null unmake keeps the object in step with a stack of whole positions |
| `Runs.Run` | src/mov.rs:562-1010 | any run of such steps, of any length, ends in the position the stack machine holds, caches consistent, valid unless the last move took a king |
| `Runs.ReturnsToStart` | src/mov.rs:453-505 | popping all tokens of a line in reverse order leads back to where it began |
| `Runs.WalkAndReturn` | src/mov.rs:453-1010 | any line of moves and null moves undone in reverse restores every field of the object |
| `Text.SplitJoined` | src/fen.rs:97-104 | splitting at a separator undoes joining |
| `Text.DecimalValue` | src/fen.rs:432-433 | a printed number is all digits and has the value printed |
| `Text.ReadDecimal` | src/fen.rs:122-143 | the digit loop accepts exactly the digit strings whose value fits, leading zeros included |
| `Text.SquareNames` | src/square.rs:184-212 | a text names a square exactly when it is that square's own name |
| `Placement.PieceLetters` | src/piece.rs:143-170 | a letter denotes a piece exactly when it is that piece's own letter |
| `Placement.ScanAll` | src/fen.rs:168-242 | from any cursor the scan succeeds exactly when the rest of the text fits the grammar, and then fills exactly the squares it denotes |
| `Placement.PlacementAccepted` | src/fen.rs:168-242 | the scan accepts exactly the texts of eight ranks of eight files without back-rank pawns, and returns the board the text denotes |
| `Placement.AcceptedPawns` | src/fen.rs:221-226 | an accepted placement has no pawn on a back rank |
| `Placement.RowOfText` | src/fen.rs:394-417 | a printed rank denotes the cells printed |
| `Placement.PrintedDenotes` | src/fen.rs:393-418 | a printed placement is grammatical and denotes the board printed, whenever no pawn is on a back rank |
| `Fen.CastlingExact` | src/fen.rs:252-293 | each set of castling rights has exactly one accepted text: other orders and repeats are rejected |
| `Fen.EpReads` | src/fen.rs:295-307 | a target on rank 3 or 6, or none, is read back from its text |
| `Fen.KingsCounted` | src/position.rs:610-621 | the count is one exactly when there is exactly one king of that colour |
| `Fen.Validated` | src/position.rs:609-669 | the checks after parsing pass exactly when both kings are unique and every right has its king and rook at home |
| `Fen.SanitizeTwice` | src/fen.rs:330-353 | sanitizing a target is idempotent |
| `Fen.ParsedIsSound` | src/fen.rs:97-166 | every accepted text denotes a well-formed position with a nonzero move number |
| `Texts.LettersByValue` | src/piece.rs:142-166 | the twelve piece letters by value |
| `Texts.SidesByValue` | src/fen.rs:244-250 | the text w is White and b is Black, in both directions |
| `Texts.RightsByValue` | src/fen.rs:252-293 | the castling texts K, Q, k, q, KQkq and the dash by value |
| `Texts.StartText` | src/fen.rs:97-166 | the text every game begins with denotes the starting position, and is what that position prints |
| `Texts.MixedText` | src/fen.rs:97-166 | a text with Black to move, one right a side, a target and clocks of two digits denotes the position it should |
| `Refusals.FieldRefused` | src/fen.rs:97-166 | a text with other than five blanks is refused by its number of fields; else the first field that cannot be read is blamed and quoted, in the order placement, side, rights, target, clock, number; else what is wrong with kings or rights |
| `Refusals.PlacementRefused` | src/fen.rs:168-242 | a placement is refused as a whole, or for a pawn, which it then contains, on a named square of a back rank |
| `Refusals.KingsRefused` | src/position.rs:609-669 | no king is reported missing, two kings as too many, and one king not at all |
| `Refusals.CheckRefused` | src/position.rs:609-669 | White's kings are reported before Black's, and these before the first right without king and rook at home |
| `Refusals.MoveRefused` | src/mov.rs:303-366 | a move text is read exactly if a listed move prints so; otherwise 0000, a bad shape, a bad promotion letter and an unlisted move are told apart, in this order |
| `Fen.PrintedReads` | src/fen.rs:97-166 | the printed text of any position without back-rank pawns and with a sanitized target reads back up to the final checks |
| `Fen.FormatSplits` | src/fen.rs:392-436 | the printed text splits into the six fields printed |
| `Fen.FormatParses` | src/fen.rs:97-166 | the printed text of a well-formed position reads back as that position, every field; with a zero move number it is rejected for that |
| `Fen.RecordedExactly` | src/fen.rs:97-166 | the printed text reads back as the position, every field, exactly for well-formed positions with a nonzero move number |
| `Fen.ParseNormalizes` | src/fen.rs:97-166 | printing what any accepted text denotes and reading it again changes nothing |
| `FenIo.ReadPlacement` | src/fen.rs:168-242 | the cursor loop places exactly the denoted board, with the same error on the same texts, bitboards in step |
| `FenIo.ReadCastling` | src/fen.rs:252-293 | the letter loop computes the rights the grammar gives, or the error |
| `FenIo.CheckKing` | src/position.rs:610-621 | counting the king bitboard gives the king error of the board |
| `FenIo.CheckFields` | src/position.rs:609-669 | the checks of the object are the checks of the recorded fields, errors included |
| `FenIo.ReadFen` | src/fen.rs:97-166 | reading succeeds exactly on the accepted texts, with the error of `Refusals.FieldRefused` otherwise, and yields a valid position whose caches are all consistent; `Texts.StartText` and `Texts.MixedText` give texts and positions by value |
| `FenIo.WriteRank` | src/fen.rs:395-414 | the loop with a run of empties prints the rank's canonical text |
| `FenIo.WritePlacement` | src/fen.rs:393-418 | eight ranks from the top, separated by slashes |
| `FenIo.WriteFen` | src/fen.rs:392-436 | the printed text of a position, which reads back as the position (`FenIo.RoundTrip`) and is given by value in `Texts.StartText` |
| `FenIo.RoundTrip` | src/fen.rs:97-436 | printing and reading a valid position gives an equal one in every field, caches included, exactly when the move number is not zero |
| `Games.CounterCounts` | src/mov.rs:701-705 | along any line the counter is the starting number plus Black's half-moves, modulo 2^16 |
| `Games.PlayedRoundTrips` | src/fen.rs:313-353 | a position reached by any play from any accepted text is recorded faithfully by its own text exactly when the counter has not wrapped to zero and the last move took no king |
| `Games.CounterWraps` | src/mov.rs:701-705 | a concrete recordable position and a king move in it after which the printed text is refused |
| `Games.KinglessText` | src/position.rs:609-627 | after the capture of a king the printed text is refused, for the missing king, or for the counter if that wrapped |
| `Games.KingTakenLine` | src/position.rs:609-627 | a concrete accepted text and a move from it after which the text is refused with the counter at 1 |
| `Subsets.StepContains` | src/magic.rs:94-97 | one step clears the subset below its lowest gap, fills the gap, keeps the rest |
| `Subsets.StepRank` | src/magic.rs:94-97 | one step stays within the mask and adds one to the subset's rank |
| `Subsets.RankInjective` | src/magic.rs:74-82 | different subsets of a mask have different ranks |
| `Subsets.EnumerationComplete` | src/magic.rs:74-100 | from the empty set each subset is visited exactly once, and the enumeration is back at zero after 2^n steps, not before |
| `Subsets.VisitedAscends` | src/magic.rs:74-100 | the subsets come in increasing numeric order |
| `SlowAttacks.RayAttackSees` | src/slow_attacks.rs:7-41 | a ray attack holds exactly the squares of the ray with nothing strictly between, first blocker included |
| `SlowAttacks.AttacksSee` | src/slow_attacks.rs:84-104 | a slider attacks exactly what it sees along one of its four rays |
| `SlowAttacks.WalkAttack` | src/slow_attacks.rs:22-41 | the stepping loop computes the ray attack |
| `SlowAttacks.WalkMask` | src/slow_attacks.rs:44-65 | the stepping loop computes the ray without its last square |
| `SlowAttacks.SlowAttack` | src/slow_attacks.rs:89-104 | four walks joined give the slider's attack set |
| `SlowAttacks.SlowMask` | src/slow_attacks.rs:72-82 | four walks joined give the slider's mask |
| `SlowAttacks.RayDependsOnMask` | src/slow_attacks.rs:67-82 | two occupancies that agree on the ray mask give the same ray attack |
| `SlowAttacks.MaskedBlockersSuffice` | src/slow_attacks.rs:67-82 | blockers outside the mask never change an attack set |
| `Lines.MaskLaw` | src/slow_attacks.rs:67-82 | a mask holds exactly the squares with another one behind them in line, which are those where a blocker alone on the board changes the attacks: no bit is spent in vain |
| `SlowAttacks.NeverEmpty` | src/magic.rs:77-80 | an attack set is never empty, so zero is a sound mark of an unfilled slot |
| `Magics.FillKeeps` | src/magic.rs:83-93 | filling an unfilled slot disturbs no filled one |
| `Magics.FilledIsHarmless` | src/magic.rs:83-93 | a filled table shows that no two entries clashed |
| `Magics.FillSquare` | src/magic.rs:71-100 | the loop over all subsets terminates and fills one square's part, or stops at a genuine clash |
| `Magics.BuildTable` | src/magic.rs:69-136 | the build goes through exactly when all slots are in range and no slot is asked for two attack sets; then every subset of every mask finds its attack set |
| `Magics.Lookup` | src/magic.rs:40-58 | one multiplication and one read give the ray-walk attack set for every occupancy of the whole board |
| `Magics.IndexByValue` | src/magic.rs:40-58 | three table indices by value, two of them from products that exceed 64 bits |
| `Magics.LookupQueen` | src/magic.rs:62-64 | the queen attacks what either slider attacks |
| `Lookups.BuildKnights` | src/movegen/masks.rs:271-303 | the offset loops, cut at the edges, build for each square the knight jumps from it |
| `Lookups.BuildKings` | src/movegen/masks.rs:305-337 | the same for the king steps |
| `Lookups.BuildPawns` | src/movegen/masks.rs:236-269 | the edge tests build for each square the two diagonals ahead of it, without wrap |
| `Lookups.BuildAll` | src/magic.rs:66-136 | all tables are built exactly when neither slider's magics clash, and are then ready exactly when the masks are those of the ray walk |
| `Moves.SlidesAreAttacks` | src/slow_attacks.rs:84-104 | what a slider can reach over a board is its attack set for that board's occupancy |
| `Moves.FlagDetermined` | src/mov.rs:303-367 | two pseudo-legal moves with the same origin, target and promotion are the same move, flag included |
| `Moves.EncodingExact` | src/mov.rs:117-267 | a 16-bit word decodes to a move exactly when it is that move's encoding; the capture and promotion bits say what the flag says |
| `Moves.UciExact` | src/mov.rs:303-432 | among pseudo-legal moves, king captures included, a text is read as a move exactly when it is in the list and prints as that text |
| `Texts.MovesByValue` | src/mov.rs:413-432 | move texts by value: a double push, a castling move, and the four promotion letters |
| `Lines.AttacksAlongLines` | src/slow_attacks.rs:84-104 | a slider attacks a square exactly when it is in line with it and nothing stands between |
| `Checks.SafeByMasks` | src/movegen/masks.rs:55-125 | after a move of a piece other than the king, the king is unchecked exactly when every check before was answered on the target and every pin on the mover kept: the reason masks suffice |
| `Segments.BetweenBb` | src/movegen/masks.rs:342-378 | the walk between two squares collects exactly the squares strictly between them, none if they are not in line |
| `Segments.LineBb` | src/movegen/masks.rs:387-431 | the two sweeps collect the whole line through both squares, to the edges |
| `Masks.CheckersOf` | src/movegen/masks.rs:138-158 | the checkers are exactly the pieces other than the king that attack the king's square |
| `Masks.AttackedSquares` | src/movegen/masks.rs:166-206 | the danger set is exactly what the other side attacks once the king is lifted, its own king included |
| `Masks.AllPins` | src/movegen/masks.rs:62-95 | the two loops find exactly the pinned pieces, each with the line it may move on |
| `Masks.EvasionMasks` | src/movegen/masks.rs:97-110 | by the number of checkers the two masks admit exactly the targets that answer every check |
| `Masks.ComputeMasks` | src/movegen/masks.rs:55-125 | all six fields of the mask bundle mean what the rules of chess ask of them |
| `Legality.GuardedKeepsKing` | src/movegen/masks.rs:97-110 | with the idle king unattacked no pseudo-legal move takes it |
| `Legality.CastleLegal` | src/movegen/king.rs:41-127 | for castling the tests on the danger set, computed with the king lifted, are the rules: not out of, through or into an attack, where the square crossed is the one strictly between (`Laws.CastlingLaw`) |
| `Laws.CastlingLaw` | src/movegen/king.rs:41-127 | on every sound position castling is generated, and is legal, exactly when the right is held, every square strictly between king and rook home is empty, and no square the king leaves, crosses or reaches is attacked |
| `Laws.CastlingSafe` | src/movegen/king.rs:41-127 | a castling move that is otherwise possible is legal exactly when no square from origin to target is attacked on the board as it stands |
| `Legality.EpSafe` | src/movegen/pawn.rs:99-168 | the tests of an en passant capture leave the king unchecked exactly when no leaper but the captured pawn gave check |
| `Legality.PassesExactly` | src/movegen.rs:15-19 | on every well-formed position a move is legal exactly when generation lets it through and it is neither an en passant capture that leaves a leaper's check nor a move that leaves the kings side by side |
| `Legality.PassesIsLegal` | src/movegen.rs:15-19 | on fair positions exactly the legal moves pass |
| `Legality.StaysFair` | src/movegen/pawn.rs:127-135 | legal play leads from fair positions to fair ones: the exceptions are not reached from a game |
| `Generation.GenHas` | src/movegen.rs:30-52 | the emitted list holds exactly the moves that pass the tests, each of them once, on every well-formed position |
| `Generation.GenIsLegal` | src/movegen.rs:15-19 | on fair positions the emitted list is the set of legal moves, each once; `Book.AllowedIsLegal` gives legality in other words |
| `Book.AllowedIsLegal` | src/movegen.rs:15-19 | on every sound position, with either king in check or not, legal moves are those of the laws of chess in files and ranks |
| `Book.GenIsByTheBook` | src/movegen.rs:15-19 | on fair positions the emitted list holds exactly the moves those laws allow, each once |
| `Book.GuardedByTheBook` | src/movegen/masks.rs:98-99 | the condition on the idle king is that no piece strikes it |
| `Opening.OpeningMoves` | src/movegen.rs:11-13 | from the starting position exactly sixteen pawn moves and four knight moves, given by their squares, are generated |
| `Opening.TwentyLeaves` | src/perft.rs:344 | they are twenty, and so many leaves has the tree of depth one |
| `Filters.KingPasses` | src/movegen/king.rs:29-39 | a king step passes exactly when the danger set does not hold its target |
| `Filters.OfficerPasses` | src/movegen/sliders.rs:19-42 | a move of a knight or slider passes exactly when it is attacked, not our own, in an evasion mask and on the pin ray |
| `Filters.PushPasses` | src/movegen/pawn.rs:43-58 | a single push passes exactly by emptiness, push mask and pin ray, with the four promotions on the last rank |
| `Filters.DoublePasses` | src/movegen/pawn.rs:60-79 | a double push needs no test of its own target for emptiness: the push mask holds only empty squares |
| `Filters.PawnCapturePasses` | src/movegen/pawn.rs:81-97 | a pawn capture passes exactly by attack, enemy, capture mask and pin ray |
| `Filters.DoubleCheckKingOnly` | src/movegen.rs:46-50 | with two checkers no move but the king's passes, en passant included |
| `Movegen.PinnedKnight` | src/movegen/knight.rs:19-23 | a pinned knight has no move |
| `Movegen.EmitKnights` | src/movegen/knight.rs:13-37 | the knight loops append exactly the knights' part of the list |
| `Movegen.EmitKind` | src/movegen/sliders.rs:19-42 | one pass of the slider loop appends exactly one kind's part of the list |
| `Movegen.EmitCastles` | src/movegen/king.rs:41-127 | the castling blocks append exactly the castling moves that pass, which `Laws.CastlingLaw` describes |
| `Movegen.EmitPawns` | src/movegen/pawn.rs:33-97 | the pawn loop appends exactly the pawns' part of the list |
| `Movegen.EpSliders` | src/movegen/pawn.rs:142-163 | the two attack tests on the occupancy after the capture find a slider exactly when one sees the king |
| `Movegen.EmitEnPassants` | src/movegen/pawn.rs:99-168 | the en passant block appends exactly the captures that pass, when there is at most one checker |
| `Movegen.GenerateMoves` | src/movegen.rs:37-52 | from every valid position the whole sequence of loops emits exactly the list `Generation.Gen`, in order, and changes nothing |
| `Lapses.GenStaysSound` | src/movegen/masks.rs:97-110 | generated moves all lead to well-formed positions exactly when no piece of the mover attacks the idle king from where it may leave |
| `Lapses.GuardedStaysSound` | src/movegen/masks.rs:97-110 | they do whenever the idle king is not attacked |
| `Lapses.FairLine` | src/movegen.rs:15-19 | play by generated moves from a fair position never takes a king and stays fair |
| `Lapses.FairPlayRoundTrips` | src/fen.rs:313-353 | from a fair accepted text, generated play is recorded by its text exactly when the counter is not zero |
| `Lapses.StartIsFair` | src/position.rs:223-246 | the starting position is fair |
| `Lapses.OpenFilePasses` | src/movegen/masks.rs:97-110 | in a concrete accepted position the capture of the king is generated |
| `Lapses.OpenFileFollowed` | src/engine.rs:318-334 | the text of that capture is accepted by `position` and leaves no black king |
| `Lapses.PassingGenerated` | src/movegen/pawn.rs:127-135 | a concrete accepted position with the idle king unattacked in which an illegal en passant capture is generated |
| `Texts.OpenFileText` | src/fen.rs:97-166 | the first example is the position of the text given above |
| `Texts.KnightCheckText` | src/fen.rs:97-166 | so is the second |
| `Texts.PawnTakesText` | src/fen.rs:97-166 | and the one in which a pawn takes the king |
| `Texts.NeighboursText` | src/fen.rs:97-166 | and the one with adjacent kings |
| `Lapses.PassingFollowed` | src/movegen/pawn.rs:127-135 | two texts accepted from there, the second of which takes a king |
| `Stale.UndoneExactly` | src/mov.rs:562-899 | making and unmaking any move of one piece gives the board back, and the turn to the piece's owner: all is as before exactly when the piece belongs to the side to move |
| `Stale.MadeIsNext` | src/mov.rs:562-899 | on well-formed positions these makes and unmakes are the moves of the rules and their undoing |
| `Stale.StepsPass` | src/movegen/king.rs:29-39 | with right king caches the emitter's test, cached squares and toggled occupancy included, is that of a king move that passes |
| `Stale.LeavesTurn` | src/perft.rs:46-50 | the loop at the last ply over moves of one colour's pieces leaves the board, and the turn with that colour |
| `Stale.PawnTakesGenerated` | src/movegen/pawn.rs:81-97 | in a concrete accepted position the four promotions that take the king are generated, so that a king is taken before the second ply |
| `Stale.PlainCountCorrupts` | src/perft.rs:36-52 | there the last ply of plain counting, whatever steps from the stale square it tries, ends with a black pawn where White's stood; without that ply the board comes back |
| `Stale.CountsDiffer` | src/perft.rs:36-65 | there, over these four moves, bulk counting adds 10 and plain counting 14 |
| `Stale.OpenFileSteps` | src/movegen/king.rs:29-39 | after the king on e8 was taken, the steps emitted for Black are e8d7 and e8f7 |
| `Stale.OpenFileBeyond` | src/engine.rs:318-334 | a concrete list of texts that goes on after a king was taken |
| `Stale.NeighboursPass` | src/movegen.rs:15-19 | a concrete accepted position with the kings side by side in which an illegal pawn move is generated |
| `Perft.LeavesAtOne` | src/perft.rs:42-44 | one ply above the leaves the count is the number of moves, which justifies the bulk shortcut |
| `Playouts.LeavesArePlayouts` | src/perft.rs:36-65 | from a fair position the leaves are as many as there are sequences of so many moves, each allowed by the laws of chess where it is played |
| `Perft.FairIsTame` | src/perft.rs:36-52 | from a fair position no king is ever taken, so the counts below apply at every depth |
| `Perft.TameExactly` | src/perft.rs:36-52 | the trees the counts below speak of are exactly those in which no line of generated moves takes a king before the last ply |
| `Perft.SameLeaves` | src/perft.rs:67-71 | two generators that emit the same moves in whatever order, at every ply, count the same leaves |
| `Perft.PerftInner` | src/perft.rs:36-52 | over the code's own generator, with or without the shortcut, in trees that take no king before the last ply, the result is the number of leaves in 64-bit arithmetic, and the board is as before |
| `Perft.CountLeaves` | src/perft.rs:54-65 | the public counts, taken on a working copy, for the same trees |
| `Perft.PerftBoth` | src/perft.rs:54-65 | plain and bulk counting agree wherever no king is taken before the last ply |
| `Divide.SortInOrder` | src/perft.rs:109-114 | the sort puts entries in ascending order of their texts |
| `Divide.BeforeLaw` | src/perft.rs:109-114 | a text comes before another exactly if it is a proper beginning of it or has the smaller character where they first differ |
| `Divide.OrderDetermined` | src/perft.rs:67-71 | entries with distinct texts have only one ascending order |
| `Divide.TalliedTotal` | src/perft.rs:92-115 | the counts of the moves add up to perft |
| `Divide.DistinctTexts` | src/perft.rs:67-71 | two pseudo-legal moves of one position never share a text |
| `Divide.DivideAnyOrder` | src/perft.rs:67-71 | two generators that emit the same moves in whatever order, at every ply, give the same sorted entries |
| `Divide.SortedAscends` | src/perft.rs:109-114 | the sorted output ascends strictly |
| `Divide.DivideAt` | src/perft.rs:92-115 | for the same trees: each generated move once with its leaf count, strictly ascending by text; the counts sum to perft; the board is only read |
| `Categories.TwoCheckersDiscover` | src/perft.rs:185-193 | of two checkers at least one is not on the target square |
| `Edges.EdgeLaw` | src/perft.rs:160-243 | on fair positions each generated move counts as a capture, en passant capture, castling or promotion by what happens on the board, as a check by the pieces that strike the king after it, as discovered by one that is not the mover, as double by there being two of them, and as mate by there being no allowed reply |
| `Categories.TreeCounts` | src/perft.rs:117-140 | in every tree double checks, discoveries and checks nest, mates are checks, en passant is capture, and nodes are perft's leaves |
| `Categories.MateIsMate` | src/perft.rs:195-206 | on a fair position a check without a generated move is checkmate: the king is attacked and no legal move exists |
| `Categories.CategorizeInner` | src/perft.rs:160-243 | over the code's own generator and check detection, in trees that take no king, the recursion adds to the counters exactly the edges of the tree and leaves the board as before |
| `Categories.PerftCategorized` | src/perft.rs:145-158 | in trees that take no king the nodes equal perft and the counters nest |
| `Symmetry.FlipIsXor` | src/eval.rs:70-84 | turning a square over is exclusive-or with 56 |
| `Symmetry.SumMirrors` | src/eval.rs:104-123 | a fold with mirrored tables over the mirrored board is the fold over the board, or its negation |
| `Symmetry.BuildPsqt` | src/eval.rs:70-84 | the loops build, for any input tables, a pair of tables that mirror each other with opposite sign |
| `Symmetry.PairMirrors` | src/eval.rs:163-173 | the bishop-pair term changes sign under the mirror |
| `Symmetry.MaterialMirrors` | src/eval.rs:131-157 | insufficient material is seen alike from both sides |
| `Symmetry.OneBishopOneShade` | src/eval.rs:148-157 | a side's only bishop stands on exactly one shade, so comparing the light-square tests compares the shades |
| `Symmetry.BlendMirrors` | src/eval.rs:349-351 | the truncating blend of the two phases is odd; `Terms.BlendEnds` tells the phases apart |
| `Terms.BlendEnds` | src/eval.rs:349-351 | with phase 24 or more the blend is the middlegame sum, with phase 0 the endgame sum, and equal sums blend to themselves |
| `Terms.BlendLeans` | src/eval.rs:349-351 | the blend lies between the sums and moves towards the middlegame sum as the phase grows |
| `Terms.PairLaw` | src/eval.rs:163-173 | the pair term is its value for White if White alone has two bishops an odd number of steps apart, its negation if Black alone has, else nothing |
| `Terms.CentreLaw` | src/eval.rs:177-184 | the centre distance is the least number of file and rank steps to one of d4, e4, d5, e5 |
| `Terms.KingsLaw` | src/eval.rs:187-195 | the kings' distance is the number of king's moves between them on an empty board |
| `Terms.MopUpLaw` | src/eval.rs:200-224 | the mop-up term is nothing with phase 5 or more or an advantage within 100, and otherwise favours the side ahead |
| `Terms.DriveLaw` | src/eval.rs:200-224 | it grows as the losing king leaves the centre and as the winner's king comes nearer |
| `Terms.ScoreLaw` | src/eval.rs:233-365 | unscaled, the score is for White the middlegame sum of all terms with all pieces on, and the endgame sum with none |
| `Terms.PointOfView` | src/eval.rs:353-365 | the score is White's negated when Black is to move, and 0 on a draw by material |
| `Terms.PieceCountIs` | src/eval.rs:131-145 | the sum of the six counts is the number of occupied squares |
| `Terms.MaterialLaw` | src/eval.rs:131-157 | the material is insufficient exactly for bare kings, one minor piece beside them, or one bishop a side on squares an even number of steps apart |
| `Symmetry.MopUpMirrors` | src/eval.rs:200-224 | the mop-up term changes sign under the mirror |
| `Symmetry.CachesMirror` | src/eval.rs:104-123 | whenever the cached triple and king squares of a position and of its mirror are right, as in valid positions, they mirror each other |
| `Symmetry.EvaluationSymmetric` | src/eval.rs:233-365 | the evaluation seen by the side to move is the same for a position and its mirror; `Terms.ScoreLaw` says what it is at either end |
| `Draining.Squares.Next` | src/bitboard.rs:119-127 | popping returns the least member and removes exactly it |
| `Draining.Drain` | src/bitboard.rs:332-340 | iterating yields every member once, in ascending order, as many as the population count |
| `Draining.WalkDetermined` | src/bitboard.rs:129-133 | ascending order and membership leave one possible sequence |
| `Fills.Moves` | src/bitboard.rs:136-189 | a shift by any distance moves every member as many squares, off the board or not at all |
| `Fills.ShiftSteps` | src/bitboard.rs:136-189 | each of the eight shifts moves every member one step and loses those at the edge, none wrapping |
| `Fills.FillReaches` | src/bitboard.rs:201-215 | three shifts fill exactly the squares on a member's file, at or beyond it |
| `Fills.FileFillReaches` | src/bitboard.rs:217-221 | the file fill is exactly the files of the members |
| `Fills.FileFillTwice` | src/bitboard.rs:217-221 | filling files is idempotent |
| `Fills.FrontSpanReaches` | src/bitboard.rs:223-236 | a front span is exactly what lies strictly ahead of a member on its file |
| `Fills.AttackSpanReaches` | src/bitboard.rs:238-249 | an attack span is exactly what lies strictly ahead on the member's or an adjacent file, without wrap |
| `Fills.SpansMirror` | src/bitboard.rs:238-249 | Black's attack spans are White's in the mirror |
| `Engine.ReaderLoop` | src/engine.rs:929-947 | what reaches the channel is what was received before the first read error, up to the first quit, closed by exactly one quit |
| `Engine.SentInOrder` | src/engine.rs:929-947 | the commands before the closing quit are those read, in order, none skipped or added; fewer than all only if a quit came first |
| `EngineSafety.HandlersDisciplined` | src/engine.rs:339-887 | every handler, on every path, joins before it touches shared state, sets stop before it waits, and clears it before it searches; what each achieves is said by the laws that follow |
| `EngineHandlers.OutlookKept` | src/engine.rs:230-259 | replies, touches of shared state, searches started and debug mode that a handler has still to bring about are kept by every step but the receipt of a command |
| `EngineHandlers.StopLaw` | src/engine.rs:423-428 | once the handler of a received `stop` has run out, the flag is up and every search has ended with exactly one best move |
| `EngineHandlers.QuitLaw` | src/engine.rs:844-863 | after `quit` the same holds and `run` has returned |
| `EngineHandlers.GoLaw` | src/engine.rs:339-421 | after `go` one more search was started, the flag is down, and all searches before it have ended with exactly one best move |
| `EngineHandlers.NewGameLaw` | src/engine.rs:880-887 | after `ucinewgame` table and search have been reset, in this order, every search has ended with its best move, and the flag is down |
| `EngineHandlers.OptionLaw` | src/engine.rs:434-710 | an accepted table size clears the table and an accepted seed or window resets the search, both with no search in flight; other options touch nothing |
| `EngineHandlers.TalkLaw` | src/engine.rs:271-298 | `isready` prints one reply and `uci` thirteen; no other command of the kind touches search, table or flag, and only `debug` changes debug mode |
| `EngineHandlers.BenchLaw` | src/engine.rs:744-842 | `bench` resets before each position, prints a line for each and two more, and leaves no search in flight |
| `EngineSafety.StepInv` | src/engine.rs:230-257 | every step of every thread keeps the invariant that ties program, handle, lock, flag, workers and output |
| `EngineRuns.OneWorkerInFlight` | src/engine.rs:339-421 | after any interleaving at most one worker is in flight |
| `EngineRuns.OutputOrderly` | src/engine.rs:398-419 | all output of one search comes before any output of a later one, its best move last |
| `EngineRuns.EveryGoAnswered` | src/engine.rs:844-855 | when `run` has returned, each `go` received has exactly one best move and no worker is left |
| `EngineRuns.SharedStateGuarded` | src/engine.rs:865-887 | the orchestrator takes the search lock, touches the table or the search, and spawns only with no worker in flight; it waits only with stop set; it starts a search only with stop clear |
| `EngineRuns.MutexExclusive` | src/engine.rs:407-410 | a worker searches exactly while it holds the search lock |
| `EngineRuns.NeverStuck` | src/engine.rs:423-428 | in every reachable state before `run` returns some step is possible, even if no search does more than it must: no deadlock |
| `EngineRuns.WorkersEnd` | src/engine.rs:857-870 | once stop is set the workers can take only boundedly many steps, so every join ends |
| `EngineRuns.OwnStepsBounded` | src/engine.rs:230-257 | reader and orchestrator together take boundedly many steps for any input |
| `EngineRuns.JoinEnds` | src/engine.rs:857-870 | while a join is awaited stop is set, and every run that does not reach the join is no longer than the worker's remaining work and the reads left |
| `EngineRuns.RunsAreBounded` | src/engine.rs:230-257 | if no search takes more than a given number of steps before stop, nor after, every run of all threads is bounded by the work of the commands and that of one search for each `go` |
| `EngineRuns.PacedGoesOn` | src/engine.rs:423-428 | such a run that has not returned can go on without breaking that pace, so the maximal ones have all returned |
| `EngineRuns.RunReturns` | src/engine.rs:844-855 | every such run can be carried on until `run` returns |
| `EngineRuns.HaltedIsFinal` | src/engine.rs:844-855 | once it has returned no thread has a step left |
| `Sessions.ReadsExactly` | src/mov.rs:303-367 | a text is read as a move exactly when that move is generated and prints as that text |
| `Sessions.TextsReplay` | src/engine.rs:318-334 | the texts of any playable line of generated moves replay to the same positions, and lose a king exactly when the line does |
| `Sessions.AcceptedLines` | src/engine.rs:318-334 | a move list is followed to its end, with no king taken before its last move, exactly when it is the text of a playable line, one of generated moves of which only the last may take a king |
| `Sessions.BeyondExactly` | src/engine.rs:318-334 | a list goes on after the taking of a king exactly when some of its first texts, but not all, come to that |
| `Sessions.FairKeepsKings` | src/engine.rs:318-334 | from a fair position no king is lost, neither by the last text nor before, whatever the texts |
| `Sessions.Replay` | src/engine.rs:316-334 | the loop generates, reads and makes the moves named, stops at the first bad one, and collects the hash of each position from scratch; it ends without a king exactly when the last text took one; of lists that go on after that nothing is said |
| `Sessions.Session.SetPosition` | src/engine.rs:304-337 | a bad text changes nothing, a bad move leaves the base, otherwise position and history describe the whole line, and the position is valid exactly when its last move took no king; all this unless the list goes on after a king was taken; from a fair base, or without moves, it is always valid |

## Left out

- `MoveList` (`src/movegen/move_list.rs`): the model's list is unbounded; pushing a 257th move, which panics, is not modelled.
- Search, transposition table, pawn hash table, static exchange, time management, corpus and tuning code.
- The pawn, mobility, king-safety and tier-1 evaluation terms and the scale factor: arguments of
  `Symmetry.Evaluate`, taken to be odd and even respectively.
- Debug assertions: they check in debug builds what is proved here for all inputs.
- `Position::starting_position` as an object: `Lapses.StartPosition` gives its recorded fields; every result starts from
  any accepted text or any valid position.
- UCI line parsing, option ranges and the wording of replies; a reply is one `Say`.
- Zobrist keys, piece-square numbers and magic constants: arbitrary tables. The committed numbers are not entered, so
  that the build of `Lookups.BuildAll` goes through for them is not proved; the exact condition is.
- Evaluation.SumAfter: sums are unbounded integers, where the code has 32-bit ones; `Evaluation.ScoreFitsWord` gives a
  range in which the two agree.
- Movegen.GenerateMoves: says nothing of positions without a king, for which the code reads a stale king square.
- Perft.PerftInner: for the same reason, asks that no king is taken before the last ply (`Perft.Tame`), which every fair
  position grants; outside of this the property fails in the code (`Stale.PlainCountCorrupts`).
- Perft.PerftBoth: the same.
- Sessions.Replay: promises nothing of a list that goes on after a king was taken (`Trail.Beyond`): the code reads the rest
  against the moves of a stale king square, on boards that making and unmaking no longer keep in order. The model's loop is
  abandoned there.
- Sessions.Session.SetPosition: the same.
- Sessions.AcceptedLines: the same; such lists may be accepted or rejected by the code.
- Stale.UndoneExactly: boards and turns only, for moves of one piece; castling and en passant captures are not among the
  moves of a stale king square.
- Stale.CountsDiffer: the replies are those of the king emitter, the sides having no other piece and no right to castle.
- Perft.CountLeaves: the same; and totals are kept modulo 2^64, as in a release build; debug builds would stop at an overflow.
- Categories.PerftCategorized: asks it one ply further, because it looks for replies at its leaves; counters are unbounded, and are passed and returned instead of updated through a reference.
- Divide.DivideAt: asks it like `Perft.PerftInner`; the library sort with cached keys is an insertion sort on the same keys; distinct keys leave only one
  result (`Divide.OrderDetermined`).
- Magics.BuildTable: a panic of the code is the result `None`.
- Subsets.VisitedAscends: the number a word spells is the sum of the powers of its set bits, not a conversion to `int`.
- Fen.ParsedIsSound: texts are sequences of characters, where the code has UTF-8 bytes; a text with a non-ASCII character
  is rejected in both, with the offending field in the error.
- Rules.SanitizeEp: targets off ranks 3 and 6 are dropped; the code marks them unreachable, since `parse_ep` rejects them.
- EngineRuns.NeverStuck: a worker may take any finite number of steps after it sees stop (its `patience`); a panic inside a
  search, a poisoned lock and a closed channel are not modelled.
- EngineRuns.RunsAreBounded: a search that is never stopped, as after `go infinite`, has no bound; the bound is a hypothesis.
- EngineRuns.SharedStateGuarded: one printed line is one atomic step, and a bench search is one step of the orchestrator;
  a bench position whose text fails to parse is not modelled, and `VirtualClock` and the trivial options only print.
- Sessions.Session: the constructor takes the starting position as an argument, and `startpos` is any text given.
