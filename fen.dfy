/**
 * The position-string front end: a scanner of Forsyth-Edwards Notation that reads the
 * piece placement, the active colour and the en passant target square into a `State`,
 * then asks the evaluator.
 *
 * `Step` is what one character does, `Run` folds it over a string and `Scan` starts the
 * fold from the scanner's initial state; `IsDeadFen` is the character loop, proved to
 * end in the scanned state.  A placement whose square index would be negative is a
 * negative shift count, on which Go panics: the scanner records it as `faulted`, and
 * `IsDeadFen` is only defined for strings that never reach it.
 */
module Fen {
  import opened Bitboard
  import opened Evaluator

  /** The verdict on a position string, with whether it holds pawns and bishops. */
  datatype Result = Result(dead: bool, hasPawns: bool, hasBishops: bool)

  /** The scanner between two characters: the position read so far, the rank and file
      cursors, the index of the current space-separated field, whether a piece other
      than a king, bishop or pawn was seen, and whether a square index went negative. */
  datatype Scanner = Scanner(state: State, rank: int, file: int, part: nat,
                             hasOtherPieces: bool, faulted: bool)

  const EMPTY_STATE := State(0, 0, 0, 0, 0, 0, 0)

  /** Rank 8, file a, the first field, nothing seen. */
  const START := Scanner(EMPTY_STATE, 7, 0, 0, false, false)

  /** The bit index of the square at `rank` and `file`. */
  function SquareIndex(rank: int, file: int): int {
    rank * 8 + 7 - file
  }

  /** The mask of one square index; an index of 64 or more shifts the bit out. */
  function Bit(index: int): bv64
    requires 0 <= index
  {
    if index < 64 then Mask(index as Square) else 0
  }

  /** Sets the bit of square `index` in `mask`. */
  function Put(mask: bv64, index: int): bv64
    requires 0 <= index
  {
    mask | Bit(index)
  }

  /** The pieces the scanner records. */
  predicate IsRecordedPiece(c: char) {
    c in {'K', 'k', 'B', 'b', 'P', 'p'}
  }

  /** Adds the square `index` to the mask of piece `c`. */
  function AddPiece(s: State, c: char, index: int): State
    requires IsRecordedPiece(c) && 0 <= index
  {
    match c
    case 'K' => s.(whiteKings := Put(s.whiteKings, index))
    case 'k' => s.(blackKings := Put(s.blackKings, index))
    case 'B' => s.(whiteBishops := Put(s.whiteBishops, index))
    case 'b' => s.(blackBishops := Put(s.blackBishops, index))
    case 'P' => s.(whitePawns := Put(s.whitePawns, index))
    case 'p' => s.(blackPawns := Put(s.blackPawns, index))
  }

  /** One character of the piece placement field. */
  function Placement(sc: Scanner, c: char): Scanner {
    if c == '/' then
      sc.(rank := sc.rank - 1, file := 0)
    else if '1' <= c <= '8' then
      sc.(file := sc.file + (c as int - '0' as int))
    else if IsRecordedPiece(c) then
      var index := SquareIndex(sc.rank, sc.file);
      if index < 0 then sc.(faulted := true)
      else sc.(state := AddPiece(sc.state, c, index), file := sc.file + 1)
    else
      sc.(file := sc.file + 1, hasOtherPieces := true)
  }

  /** One character of the active colour field. */
  function ActiveColour(sc: Scanner, c: char): Scanner {
    if c == 'w' then sc.(state := sc.state.(turn := 0))
    else if c == 'b' then sc.(state := sc.state.(turn := 1))
    else sc
  }

  /** One character of the en passant field: a file letter moves the file cursor, a rank
      digit moves the rank cursor and puts a pawn of the side that just moved on the
      target square (a black one when white is to move). */
  function EnPassant(sc: Scanner, c: char): Scanner {
    if 'a' <= c <= 'h' then
      sc.(file := c as int - 'a' as int)
    else if '1' <= c <= '8' then
      var rank := c as int - '1' as int;
      var index := SquareIndex(rank, sc.file);
      if index < 0 then sc.(rank := rank, faulted := true)
      else if sc.state.turn == 0 then
        sc.(rank := rank, state := sc.state.(blackPawns := Put(sc.state.blackPawns, index)))
      else
        sc.(rank := rank, state := sc.state.(whitePawns := Put(sc.state.whitePawns, index)))
    else
      sc
  }

  /** One character of the string.  A space starts the next field; the castling field,
      the clocks and anything after them are ignored.  Nothing changes once faulted. */
  function Step(sc: Scanner, c: char): Scanner {
    if sc.faulted then sc
    else if c == ' ' then sc.(part := sc.part + 1)
    else if sc.part == 0 then Placement(sc, c)
    else if sc.part == 1 then ActiveColour(sc, c)
    else if sc.part == 3 then EnPassant(sc, c)
    else sc
  }

  /** The scanner after reading `cs` from `sc`. */
  function Run(sc: Scanner, cs: seq<char>): Scanner
    decreases |cs|
  {
    if |cs| == 0 then sc else Run(Step(sc, cs[0]), cs[1..])
  }

  function Scan(fen: seq<char>): Scanner {
    Run(START, fen)
  }

  /** Reads `fen` character by character into a `State` and evaluates it. */
  method IsDeadFen(fen: string) returns (r: Result)
    requires !Scan(fen).faulted
    ensures r.dead == (!Scan(fen).hasOtherPieces && Dead(Scan(fen).state))
    ensures r.hasPawns == (Scan(fen).state.whitePawns != 0 || Scan(fen).state.blackPawns != 0)
    ensures r.hasBishops == (Scan(fen).state.whiteBishops != 0 || Scan(fen).state.blackBishops != 0)
  {
    var s := EMPTY_STATE;
    var rank := 7;
    var file := 0;
    var part: nat := 0;
    var hasOtherPieces := false;
    var i := 0;
    while i < |fen|
      invariant 0 <= i <= |fen|
      invariant Run(Scanner(s, rank, file, part, hasOtherPieces, false), fen[i..]) == Scan(fen)
    {
      ghost var before := Scanner(s, rank, file, part, hasOtherPieces, false);
      assert fen[i..] == [fen[i]] + fen[i + 1..];
      FaultsPersist(Step(before, fen[i]), fen[i + 1..]);
      s, rank, file, part, hasOtherPieces := ReadChar(s, rank, file, part, hasOtherPieces, fen[i]);
      i := i + 1;
    }
    var hasPawns := s.whitePawns != 0 || s.blackPawns != 0;
    var hasBishops := s.whiteBishops != 0 || s.blackBishops != 0;
    if hasOtherPieces {
      return Result(false, hasPawns, hasBishops);
    }
    var dead := IsDead(s);
    return Result(dead, hasPawns, hasBishops);
  }

  /** The body of the character loop: what `c` does to the cursors and the masks. */
  method ReadChar(s: State, rank: int, file: int, part: nat, hasOtherPieces: bool, c: char)
    returns (s': State, rank': int, file': int, part': nat, hasOtherPieces': bool)
    requires !Step(Scanner(s, rank, file, part, hasOtherPieces, false), c).faulted
    ensures Scanner(s', rank', file', part', hasOtherPieces', false) ==
            Step(Scanner(s, rank, file, part, hasOtherPieces, false), c)
  {
    s', rank', file', part', hasOtherPieces' := s, rank, file, part, hasOtherPieces;
    if c == ' ' {
      part' := part + 1;
    } else if part == 0 {
      if c == '/' {
        rank' := rank - 1;
        file' := 0;
      } else if '1' <= c <= '8' {
        file' := file + (c as int - '0' as int);
      } else if c == 'K' {
        s' := s.(whiteKings := Put(s.whiteKings, SquareIndex(rank, file)));
        file' := file + 1;
      } else if c == 'k' {
        s' := s.(blackKings := Put(s.blackKings, SquareIndex(rank, file)));
        file' := file + 1;
      } else if c == 'B' {
        s' := s.(whiteBishops := Put(s.whiteBishops, SquareIndex(rank, file)));
        file' := file + 1;
      } else if c == 'b' {
        s' := s.(blackBishops := Put(s.blackBishops, SquareIndex(rank, file)));
        file' := file + 1;
      } else if c == 'P' {
        s' := s.(whitePawns := Put(s.whitePawns, SquareIndex(rank, file)));
        file' := file + 1;
      } else if c == 'p' {
        s' := s.(blackPawns := Put(s.blackPawns, SquareIndex(rank, file)));
        file' := file + 1;
      } else {
        file' := file + 1;
        hasOtherPieces' := true;
      }
    } else if part == 1 {
      if c == 'w' {
        s' := s.(turn := 0);
      } else if c == 'b' {
        s' := s.(turn := 1);
      }
    } else if part == 3 {
      if 'a' <= c <= 'h' {
        file' := c as int - 'a' as int;
      }
      if '1' <= c <= '8' {
        rank' := c as int - '1' as int;
        if s.turn == 0 {
          s' := s.(blackPawns := Put(s.blackPawns, SquareIndex(rank', file')));
        } else {
          s' := s.(whitePawns := Put(s.whitePawns, SquareIndex(rank', file')));
        }
      }
    }
  }

  /** A faulted scanner stays as it is. */
  lemma {:induction false} FaultsPersist(sc: Scanner, cs: seq<char>)
    ensures sc.faulted ==> Run(sc, cs) == sc
    decreases |cs|
  {
    if |cs| > 0 && sc.faulted {
      FaultsPersist(Step(sc, cs[0]), cs[1..]);
    }
  }

  /** Reading `a` then `b` is reading `a + b`. */
  lemma {:induction false} RunAppend(sc: Scanner, a: seq<char>, b: seq<char>)
    ensures Run(sc, a + b) == Run(Run(sc, a), b)
    decreases |a|
  {
    if |a| > 0 {
      assert (a + b)[0] == a[0];
      assert (a + b)[1..] == a[1..] + b;
      RunAppend(Step(sc, a[0]), a[1..], b);
    } else {
      assert a + b == b;
    }
  }

  /** The rank cursor never rises above rank 8 and the file cursor never goes below the
      a-file, so no square index exceeds 63. */
  lemma {:induction false} CursorsStayInRange(sc: Scanner, cs: seq<char>)
    requires sc.rank <= 7 && sc.file >= 0
    ensures Run(sc, cs).rank <= 7 && Run(sc, cs).file >= 0
    decreases |cs|
  {
    if |cs| > 0 {
      CursorsStayInRange(Step(sc, cs[0]), cs[1..]);
    }
  }

  lemma SquareIndexAtMost63(fen: seq<char>)
    ensures SquareIndex(Scan(fen).rank, Scan(fen).file) <= 63
  {
    CursorsStayInRange(START, fen);
  }

  /** Once a piece other than a king, bishop or pawn has been seen, it stays seen. */
  lemma {:induction false} OtherPiecesStaySeen(sc: Scanner, cs: seq<char>)
    requires sc.hasOtherPieces
    ensures Run(sc, cs).hasOtherPieces
    decreases |cs|
  {
    if |cs| > 0 {
      OtherPiecesStaySeen(Step(sc, cs[0]), cs[1..]);
    }
  }

  /** The characters with a meaning of their own in the placement field. */
  predicate IsPlacementSymbol(c: char) {
    c == '/' || '1' <= c <= '8' || IsRecordedPiece(c)
  }

  /** Any other character in the placement field marks the position, so `IsDeadFen`
      calls it not dead. */
  lemma OtherPieceMarksPosition(fen: seq<char>, k: nat)
    requires k < |fen| && !Scan(fen).faulted
    requires Scan(fen[..k]).part == 0 && fen[k] != ' ' && !IsPlacementSymbol(fen[k])
    ensures Scan(fen).hasOtherPieces
  {
    assert fen == fen[..k] + ([fen[k]] + fen[k + 1..]);
    RunAppend(START, fen[..k], [fen[k]] + fen[k + 1..]);
    var before := Scan(fen[..k]);
    FaultsPersist(before, [fen[k]] + fen[k + 1..]);
    OtherPiecesStaySeen(Step(before, fen[k]), fen[k + 1..]);
  }

  /** The castling field, and every field after the en passant one, changes nothing. */
  lemma {:induction false} IgnoredFields(sc: Scanner, cs: seq<char>)
    requires sc.part == 2 || sc.part >= 4
    requires forall j :: 0 <= j < |cs| ==> cs[j] != ' '
    ensures Run(sc, cs) == sc
    decreases |cs|
  {
    if |cs| > 0 {
      IgnoredFields(Step(sc, cs[0]), cs[1..]);
    }
  }

  /** The side to move after the colour characters `cs`: the last `w` or `b` decides. */
  function TurnAfter(turn: int, cs: seq<char>): int
    decreases |cs|
  {
    if |cs| == 0 then turn
    else TurnAfter(if cs[0] == 'w' then 0 else if cs[0] == 'b' then 1 else turn, cs[1..])
  }

  /** The active colour field changes the side to move and nothing else. */
  lemma {:induction false} ColourFieldSetsTurn(sc: Scanner, cs: seq<char>)
    requires sc.part == 1 && !sc.faulted
    requires forall j :: 0 <= j < |cs| ==> cs[j] != ' '
    ensures Run(sc, cs) == sc.(state := sc.state.(turn := TurnAfter(sc.state.turn, cs)))
    decreases |cs|
  {
    if |cs| > 0 {
      var turn := if cs[0] == 'w' then 0 else if cs[0] == 'b' then 1 else sc.state.turn;
      var next := sc.(state := sc.state.(turn := turn));
      assert Step(sc, cs[0]) == next;
      ColourFieldSetsTurn(next, cs[1..]);
    }
  }

  /** Only 0 and 1 are ever chosen. */
  lemma {:induction false} TurnAfterChoices(turn: int, cs: seq<char>)
    ensures TurnAfter(turn, cs) in {turn, 0, 1}
    decreases |cs|
  {
    if |cs| > 0 {
      TurnAfterChoices(if cs[0] == 'w' then 0 else if cs[0] == 'b' then 1 else turn, cs[1..]);
    }
  }

  /** In the placement field, `/` moves to the start of the next rank down, a digit skips
      that many files, a king, bishop or pawn is put on the cursor's square and the cursor
      moves on, and any other character moves the cursor on and marks the position. */
  lemma PlacementCharacters(sc: Scanner, c: char)
    requires !sc.faulted && sc.part == 0 && c != ' '
    ensures c == '/' ==> Step(sc, c) == sc.(rank := sc.rank - 1, file := 0)
    ensures '1' <= c <= '8' ==> Step(sc, c) == sc.(file := sc.file + (c as int - '0' as int))
    ensures IsRecordedPiece(c) && SquareIndex(sc.rank, sc.file) >= 0 ==>
      Step(sc, c) == sc.(state := AddPiece(sc.state, c, SquareIndex(sc.rank, sc.file)), file := sc.file + 1)
    ensures !IsPlacementSymbol(c) ==> Step(sc, c) == sc.(file := sc.file + 1, hasOtherPieces := true)
  {
  }

  /** A space moves to the next field and changes nothing else. */
  lemma SpaceStartsNextField(sc: Scanner)
    requires !sc.faulted
    ensures Step(sc, ' ') == sc.(part := sc.part + 1)
  {
  }

  /** In the en passant field, `-` changes nothing, and a square adds a pawn of the side
      that just moved on it. */
  lemma EnPassantField(sc: Scanner, letter: char, digit: char)
    requires !sc.faulted && sc.part == 3
    requires 'a' <= letter <= 'h' && '1' <= digit <= '8'
    ensures Step(sc, '-') == sc
    ensures var square := SquareIndex(digit as int - '1' as int, letter as int - 'a' as int);
      var after := Run(sc, [letter, digit]);
      0 <= square < 64 &&
      after.file == letter as int - 'a' as int && after.rank == digit as int - '1' as int &&
      after.state == (if sc.state.turn == 0
                      then sc.state.(blackPawns := Put(sc.state.blackPawns, square))
                      else sc.state.(whitePawns := Put(sc.state.whitePawns, square)))
  {
    var first := sc.(file := letter as int - 'a' as int);
    assert Step(sc, letter) == first;
    assert [letter, digit][1..] == [digit];
    assert Run(sc, [letter, digit]) == Run(first, [digit]);
    assert [digit][1..] == [];
    assert Run(first, [digit]) == Step(first, digit);
  }

  /** The en passant field, one character at a time: a file letter only moves the file
      cursor, a rank digit sets the rank cursor and adds a pawn of the side not to move
      on the square of the two cursors (whatever the file cursor holds), and any other
      character changes nothing. */
  lemma EnPassantCharacters(sc: Scanner, c: char)
    requires !sc.faulted && sc.part == 3 && c != ' '
    ensures 'a' <= c <= 'h' ==> Step(sc, c) == sc.(file := c as int - 'a' as int)
    ensures '1' <= c <= '8' && SquareIndex(c as int - '1' as int, sc.file) >= 0 ==>
      var square := SquareIndex(c as int - '1' as int, sc.file);
      Step(sc, c) == sc.(rank := c as int - '1' as int,
                         state := if sc.state.turn == 0
                                  then sc.state.(blackPawns := Put(sc.state.blackPawns, square))
                                  else sc.state.(whitePawns := Put(sc.state.whitePawns, square)))
    ensures '1' <= c <= '8' && SquareIndex(c as int - '1' as int, sc.file) < 0 ==> Step(sc, c).faulted
    ensures !('a' <= c <= 'h') && !('1' <= c <= '8') ==> Step(sc, c) == sc
  {
  }

  /** A rank digit with no file letter before it uses the file cursor the placement
      left behind: after a full placement that cursor is 8, so a lone `3` puts a black
      pawn on a2. */
  lemma LoneRankDigitAddsPawn()
    ensures Scan("8/8/8/8/8/8/8/8 w - 3") == Scanner(EMPTY_STATE.(blackPawns := A2), 2, 8, 3, false, false)
  {
    assert "8/8/8/8/8/8/8/8 w - 3" == "8/8/8/8/8/8/8/" + "8 w - 3";
    RunAppend(START, "8/8/8/8/8/8/8/", "8 w - 3");
    EmptyRanks();
    LoneRankDigitField();
  }

  /** Seven empty ranks leave the cursor at the start of rank 1. */
  lemma EmptyRanks()
    ensures Run(START, "8/8/8/8/8/8/8/") == Scanner(EMPTY_STATE, 0, 0, 0, false, false)
  {
    var rank := "8/";
    assert "8/8/8/8/8/8/8/" == rank + (rank + (rank + (rank + (rank + (rank + rank)))));
    EmptyRank(START, rank + (rank + (rank + (rank + (rank + rank)))));
    EmptyRank(START.(rank := 6), rank + (rank + (rank + (rank + rank))));
    EmptyRank(START.(rank := 5), rank + (rank + (rank + rank)));
    EmptyRank(START.(rank := 4), rank + (rank + rank));
    EmptyRank(START.(rank := 3), rank + rank);
    EmptyRank(START.(rank := 2), rank);
    assert rank == rank + [];
    EmptyRank(START.(rank := 1), []);
  }

  /** The last rank leaves the file cursor at 8, and the lone digit of the en passant
      field then names square 15, which is a2. */
  lemma LoneRankDigitField()
    ensures Run(Scanner(EMPTY_STATE, 0, 0, 0, false, false), "8 w - 3") ==
      Scanner(EMPTY_STATE.(blackPawns := A2), 2, 8, 3, false, false)
  {
    var sc := Scanner(EMPTY_STATE, 0, 0, 0, false, false);
    var filled := sc.(file := 8);
    var colour := filled.(part := 1);
    var castling := colour.(part := 2);
    var enPassant := colour.(part := 3);
    ReadThen(sc, '8', " w - 3", filled);
    ReadThen(filled, ' ', "w - 3", colour);
    ReadThen(colour, 'w', " - 3", colour);
    ReadThen(colour, ' ', "- 3", castling);
    ReadThen(castling, '-', " 3", castling);
    ReadThen(castling, ' ', "3", enPassant);
    PutOnA2();
    ReadThen(enPassant, '3', "", enPassant.(rank := 2, state := EMPTY_STATE.(blackPawns := A2)));
  }

  lemma PutOnA2()
    ensures SquareIndex(2, 8) == 15 && Put(0, 15) == A2
  {
  }

  lemma ReadThen(sc: Scanner, c: char, rest: seq<char>, next: Scanner)
    requires Step(sc, c) == next
    ensures Run(sc, [c] + rest) == Run(next, rest)
  {
    assert ([c] + rest)[1..] == rest;
  }

  /** An empty rank followed by `/` moves the cursor to the start of the rank below. */
  lemma EmptyRank(sc: Scanner, rest: seq<char>)
    requires !sc.faulted && sc.part == 0 && sc.file == 0
    ensures Run(sc, "8/" + rest) == Run(sc.(rank := sc.rank - 1), rest)
  {
    RunAppend(sc, "8/", rest);
    RunFirst(sc, "8/");
    RunFirst(Step(sc, '8'), "/");
  }

  lemma RunFirst(sc: Scanner, cs: seq<char>)
    requires |cs| > 0
    ensures Run(sc, cs) == Run(Step(sc, cs[0]), cs[1..])
  {
  }
}
