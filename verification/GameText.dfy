/** The two text forms of a game: the board shown to users and the moves they type. */
module GameText {
  import opened Basics
  import opened Games

  /* ---------- the board ---------- */

  function CellChar(r: Role): char {
    match r case NullRole => ' ' case First => 'X' case Second => 'O'
  }

  /** The first n cells of the row starting at cell start, with bars between cells. */
  function RowPart(b: Board, start: nat, n: nat): string
    requires start + 3 <= 9 && n <= 3
  {
    if n == 0 then "" else RowPart(b, start, n - 1) + [CellChar(b[start + n - 1])] + (if n < 3 then "|" else "")
  }

  const FLOOR := "\n-----\n"
  const TO_MOVE := " to move\n"

  function StateText(b: Board, current: Role): string {
    RowPart(b, 0, 3) + FLOOR + RowPart(b, 3, 3) + FLOOR + RowPart(b, 6, 3) + "\n"
    + (if current == First then "X" else "O") + TO_MOVE
  }

  /** Read a cell back: rows are 12 characters apart, cells 2. */
  function ReadCell(t: string, cell: nat): Role
    requires |t| == 40 && cell < 9
  {
    var c := t[12 * (cell / 3) + 2 * (cell % 3)];
    if c == 'X' then First else if c == 'O' then Second else NullRole
  }

  function ReadBoard(t: string): Board
    requires |t| == 40
  {
    seq(9, cell requires 0 <= cell < 9 => ReadCell(t, cell))
  }

  function ReadXToMove(t: string): bool
    requires |t| == 40
  {
    t[30] == 'X'
  }

  lemma RowChars(b: Board, start: nat)
    requires start + 3 <= 9
    ensures RowPart(b, start, 3)
            == [CellChar(b[start]), '|', CellChar(b[start + 1]), '|', CellChar(b[start + 2])]
  {
    assert RowPart(b, start, 1) == [CellChar(b[start]), '|'];
    assert RowPart(b, start, 2) == [CellChar(b[start]), '|', CellChar(b[start + 1]), '|'];
  }

  lemma Layout(r0: string, r1: string, r2: string, mover: string)
    requires |r0| == 5 && |r1| == 5 && |r2| == 5 && |mover| == 1
    ensures var t := r0 + FLOOR + r1 + FLOOR + r2 + "\n" + mover + TO_MOVE;
            && |t| == 40 && t[30] == mover[0]
            && forall k :: 0 <= k < 5 ==> t[k] == r0[k] && t[12 + k] == r1[k] && t[24 + k] == r2[k]
  {
    assert |FLOOR| == 7 && |TO_MOVE| == 9;
  }

  /** The text is 40 characters and determines the board and whether X is to move. */
  lemma StateRoundTrip(b: Board, current: Role)
    ensures |StateText(b, current)| == 40
    ensures ReadBoard(StateText(b, current)) == b
    ensures ReadXToMove(StateText(b, current)) <==> current == First
  {
    hide RowPart, ReadBoard, ReadXToMove;
    var r0, r1, r2 := RowPart(b, 0, 3), RowPart(b, 3, 3), RowPart(b, 6, 3);
    var mover := if current == First then "X" else "O";
    RowChars(b, 0);
    RowChars(b, 3);
    RowChars(b, 6);
    Layout(r0, r1, r2, mover);
    var t := r0 + FLOOR + r1 + FLOOR + r2 + "\n" + mover + TO_MOVE;
    assert t == StateText(b, current);
    CellsRead(b, t);
    MoverRead(t);
  }

  lemma MoverRead(t: string)
    requires |t| == 40
    ensures ReadXToMove(t) <==> t[30] == 'X'
  {
  }

  lemma CellsRead(b: Board, t: string)
    requires |t| == 40
    requires forall k: nat :: k < 3 ==>
               t[2 * k] == CellChar(b[k]) && t[12 + 2 * k] == CellChar(b[3 + k]) && t[24 + 2 * k] == CellChar(b[6 + k])
    ensures ReadBoard(t) == b
  {
    forall cell: nat | cell < 9
      ensures ReadCell(t, cell) == b[cell]
    {
      var row, col := cell / 3, cell % 3;
      assert cell == 3 * row + col;
      if row == 0 {
        assert t[2 * col] == CellChar(b[col]);
      } else if row == 1 {
        assert t[12 + 2 * col] == CellChar(b[3 + col]);
      } else {
        assert t[24 + 2 * col] == CellChar(b[6 + col]);
      }
    }
  }

  /** How a board is shown: a cell's character is where its row and column put it, X for the first
      player and O for the second, and the last line says who is to move. */
  lemma StateShows(b: Board, current: Role)
    ensures var t := StateText(b, current);
            && |t| == 40
            && (forall cell: nat :: cell < 9 ==>
                  t[12 * (cell / 3) + 2 * (cell % 3)]
                  == if b[cell] == First then 'X' else if b[cell] == Second then 'O' else ' ')
            && t[30] == (if current == First then 'X' else 'O')
  {
    hide RowPart;
    var r0, r1, r2 := RowPart(b, 0, 3), RowPart(b, 3, 3), RowPart(b, 6, 3);
    RowChars(b, 0);
    RowChars(b, 3);
    RowChars(b, 6);
    Layout(r0, r1, r2, if current == First then "X" else "O");
    var t := r0 + FLOOR + r1 + FLOOR + r2 + "\n" + (if current == First then "X" else "O") + TO_MOVE;
    assert t == StateText(b, current);
    forall cell: nat | cell < 9
      ensures t[12 * (cell / 3) + 2 * (cell % 3)] == CellChar(b[cell])
    {
      ShownAt(b, t, r0, r1, r2, cell / 3, cell % 3);
    }
  }

  lemma ShownAt(b: Board, t: string, r0: string, r1: string, r2: string, row: nat, col: nat)
    requires |t| == 40 && |r0| == 5 && |r1| == 5 && |r2| == 5 && row < 3 && col < 3
    requires forall k :: 0 <= k < 5 ==> t[k] == r0[k] && t[12 + k] == r1[k] && t[24 + k] == r2[k]
    requires r0 == [CellChar(b[0]), '|', CellChar(b[1]), '|', CellChar(b[2])]
    requires r1 == [CellChar(b[3]), '|', CellChar(b[4]), '|', CellChar(b[5])]
    requires r2 == [CellChar(b[6]), '|', CellChar(b[7]), '|', CellChar(b[8])]
    ensures t[12 * row + 2 * col] == CellChar(b[3 * row + col])
  {
    hide CellChar;
    if row == 0 {
      assert t[2 * col] == r0[2 * col];
    } else if row == 1 {
      assert t[12 + 2 * col] == r1[2 * col];
    } else {
      assert t[24 + 2 * col] == r2[2 * col];
    }
    assert col == 0 || col == 1 || col == 2;
  }

  /** The first board as it is sent. */
  lemma FirstBoardText()
    ensures StateText(EMPTY, First) == " | | \n-----\n | | \n-----\n | | \nX to move\n"
  {
    hide RowPart;
    EmptyRow(0);
    EmptyRow(3);
    EmptyRow(6);
  }

  lemma EmptyRow(start: nat)
    requires start + 3 <= 9
    ensures RowPart(EMPTY, start, 3) == " | | "
  {
    hide RowPart;
    RowChars(EMPTY, start);
  }

  /** Write one row into the buffer at the given place. */
  method PutRow(game: Game, buffer: array<char>, place: nat, start: nat) returns (next: nat)
    requires game.Valid() && start + 3 <= 9
    requires place + 5 <= buffer.Length
    modifies buffer
    ensures next == place + 5
    ensures buffer[..next] == old(buffer[..place]) + RowPart(game.rows[..], start, 3)
  {
    ghost var b: Board := game.rows[..];
    next := place;
    var i := start;
    while i < start + 3
      invariant start <= i <= start + 3
      invariant next == place + 2 * (i - start) - (if i == start + 3 then 1 else 0)
      invariant buffer[..next] == old(buffer[..place]) + RowPart(b, start, i - start)
    {
      ghost var before := buffer[..next];
      if game.rows[i] == NullRole {
        buffer[next] := ' ';
      } else if game.rows[i] == First {
        buffer[next] := 'X';
      } else {
        buffer[next] := 'O';
      }
      next := next + 1;
      assert buffer[..next] == before + [CellChar(b[i])];
      if i != start + 2 {
        buffer[next] := '|';
        next := next + 1;
        assert buffer[..next] == before + [CellChar(b[i])] + "|";
      }
      i := i + 1;
    }
  }

  /** Append a fixed text to the buffer. */
  method PutText(buffer: array<char>, place: nat, text: string) returns (next: nat)
    requires place + |text| <= buffer.Length
    modifies buffer
    ensures next == place + |text|
    ensures buffer[..next] == old(buffer[..place]) + text
  {
    next := place;
    for i := 0 to |text|
      invariant next == place + i
      invariant buffer[..next] == old(buffer[..place]) + text[..i]
    {
      buffer[next] := text[i];
      next := next + 1;
      assert buffer[..next] == buffer[..next - 1] + [text[i]];
    }
  }

  /** game_unparse_state: everything written, the terminator included, stays inside the
      50-byte buffer. */
  method UnparseState(game: Game) returns (buffer: array<char>, length: nat)
    requires game.Valid()
    ensures length < buffer.Length == 50
    ensures buffer[..length] == StateText(game.Rec().board, game.Rec().current)
    ensures buffer[length] == '\0'
  {
    buffer := new char[50];
    ghost var b: Board := game.rows[..];
    length := PutRow(game, buffer, 0, 0);
    assert buffer[..length] == RowPart(b, 0, 3);
    length := PutText(buffer, length, FLOOR);
    length := PutRow(game, buffer, length, 3);
    length := PutText(buffer, length, FLOOR);
    length := PutRow(game, buffer, length, 6);
    length := PutText(buffer, length, "\n");
    length := PutText(buffer, length, if game.currentPlayer == First then "X" else "O");
    length := PutText(buffer, length, TO_MOVE);
    buffer[length] := '\0';
    assert buffer[..length] == StateText(b, game.currentPlayer);
  }

  /* ---------- moves ---------- */

  datatype GameMove = GameMove(cell: nat, role: Role)

  predicate IsDigit(c: char) {
    '0' <= c <= '9'
  }

  predicate IsSpace(c: char) {
    c in {' ', '\t', '\n', '\U{0B}', '\U{0C}', '\r'}
  }

  function DigitsValue(s: string, value: nat): nat {
    if s == "" || !IsDigit(s[0]) then value
    else DigitsValue(s[1..], 10 * value + (s[0] as int - '0' as int))
  }

  /** The C library's atoi: blanks, an optional sign, then digits up to the first other character. */
  function Atoi(s: string): int {
    if s == "" then 0
    else if IsSpace(s[0]) then Atoi(s[1..])
    else if s[0] == '-' then 0 - DigitsValue(s[1..], 0)
    else if s[0] == '+' then DigitsValue(s[1..], 0)
    else DigitsValue(s, 0)
  }

  function CheckedMove(s: string, role: Role): (m: Option<GameMove>)
    ensures m.Some? ==> m.value.cell < 9 && m.value.role == role
  {
    var cell := Atoi(s) - 1;
    if cell < 0 || cell > 8 then None else Some(GameMove(cell, role))
  }

  /** game_parse_move. */
  function ParseMove(current: Role, role: Role, s: string): (m: Option<GameMove>)
    ensures m.Some? ==> m.value.cell < 9 && m.value.role == role
  {
    if |s| == 1 then CheckedMove(s, role)
    else if |s| == 4 then
      if s[1] != '<' || s[2] != '-' then None
      else if s[3] == 'X' && current != First then None
      else if s[3] == 'O' && current != Second then None
      else CheckedMove(s, role)
    else None
  }

  function UnparseMove(m: GameMove): string
    requires m.cell < 9
  {
    [(m.cell + 1 + '0' as int) as char]
  }

  /** The number read from a digit that no digit follows, or from any other character
      that is followed by no digit. */
  lemma AtoiOfOne(s: string)
    requires |s| == 1 || (|s| == 4 && s[1] == '<')
    ensures Atoi(s) == if IsDigit(s[0]) then s[0] as int - '0' as int else 0
  {
    var rest := s[1..];
    assert rest == "" || rest[0] == '<';
    assert forall v: nat :: DigitsValue(rest, v) == v;
    assert Atoi(rest) == 0;
    if IsDigit(s[0]) {
      assert DigitsValue(s, 0) == DigitsValue(rest, s[0] as int - '0' as int);
    }
  }

  /** Exactly which strings are moves, over every string. */
  lemma ParseIsExact(current: Role, role: Role, s: string)
    ensures ParseMove(current, role, s).Some? <==>
              && (|s| == 1 || (|s| == 4 && s[1..3] == "<-"))
              && '1' <= s[0] <= '9'
              && (|s| == 4 && s[3] == 'X' ==> current == First)
              && (|s| == 4 && s[3] == 'O' ==> current == Second)
    ensures ParseMove(current, role, s).Some? ==>
              ParseMove(current, role, s).value == GameMove(s[0] as int - '1' as int, role)
  {
    if |s| == 4 {
      assert s[1..3] == [s[1], s[2]];
    }
    if |s| == 1 || (|s| == 4 && s[1] == '<') {
      AtoiOfOne(s);
    }
  }

  /** A move's text parses back to the move, in any game. */
  lemma MoveRoundTrip(current: Role, m: GameMove)
    requires m.cell < 9
    ensures ParseMove(current, m.role, UnparseMove(m)) == Some(m)
    ensures |UnparseMove(m)| == 1 && UnparseMove(m)[0] as int - '1' as int == m.cell
  {
    ParseIsExact(current, m.role, UnparseMove(m));
  }

  /** The documentation requires the parser to reject a player who is not on the move.  It does
      so exactly for an explicit X or O suffix that names the player not on the move; every
      other out-of-turn text parses, and then applying it changes nothing. */
  lemma OutOfTurn(g: GameRec, role: Role, s: string)
    requires role != NullRole && role != g.current && '1' <= (if s == "" then '0' else s[0]) <= '9'
    requires |s| == 1 || (|s| == 4 && s[1..3] == "<-")
    ensures ParseMove(g.current, role, s).None? <==>
              |s| == 4 && ((s[3] == 'X' && g.current != First) || (s[3] == 'O' && g.current != Second))
    ensures ParseMove(g.current, role, s).Some? ==> Apply(g, ParseMove(g.current, role, s).value.cell, role) == g
  {
    ParseIsExact(g.current, role, s);
  }
}
