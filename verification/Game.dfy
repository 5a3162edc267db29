/** Tic-tac-toe as the server plays it: the rules as functions on a game record,
    the facts every play keeps, and the mutable GAME object proved against them. */
module Games {

  /** NullRole also marks an empty cell and, as a winner, a draw. */
  datatype Role = NullRole | First | Second

  function Code(r: Role): (n: int)
    ensures 0 <= n <= 2
  {
    match r case NullRole => 0 case First => 1 case Second => 2
  }

  /** The values of GAME_ROLE, which are also the result codes. */
  lemma CodeNames(r: Role)
    ensures (Code(r) == 0 <==> r == NullRole) && (Code(r) == 1 <==> r == First) && (Code(r) == 2 <==> r == Second)
  {
  }

  function Other(r: Role): Role {
    if r == First then Second else First
  }

  type Board = b: seq<Role> | |b| == 9 witness [NullRole, NullRole, NullRole, NullRole, NullRole, NullRole, NullRole, NullRole, NullRole]

  const EMPTY: Board := [NullRole, NullRole, NullRole, NullRole, NullRole, NullRole, NullRole, NullRole, NullRole]

  datatype GameRec = GameRec(board: Board, current: Role, winner: Role, over: bool, ref: int)

  const NEW_GAME := GameRec(EMPTY, First, NullRole, false, 1)

  /* ---------- lines ---------- */

  /** The eight lines in the order in which game_is_over scans them. */
  const LINES: seq<(nat, nat, nat)> :=
    [(0, 1, 2), (3, 4, 5), (6, 7, 8), (0, 3, 6), (1, 4, 7), (2, 5, 8), (0, 4, 8), (2, 4, 6)]

  /** The role owning all three cells, or NullRole. */
  function LineAt(b: Board, i: nat, j: nat, k: nat): Role
    requires i < 9 && j < 9 && k < 9
  {
    if b[i] == b[j] && b[j] == b[k] then b[i] else NullRole
  }

  function LineOf(b: Board, n: nat): Role
    requires n < 8
  {
    LineAt(b, LINES[n].0, LINES[n].1, LINES[n].2)
  }

  /** The owner of the first owned line at position n or later. */
  function FirstLineFrom(b: Board, n: nat): Role
    requires n <= 8
    decreases 8 - n
  {
    if n == 8 then NullRole
    else if LineOf(b, n) != NullRole then LineOf(b, n)
    else FirstLineFrom(b, n + 1)
  }

  predicate HasLine(b: Board, r: Role) {
    exists n: nat :: n < 8 && LineOf(b, n) == r
  }

  predicate Full(b: Board) {
    forall k :: 0 <= k < 9 ==> b[k] != NullRole
  }

  lemma {:induction false} FirstLineFinds(b: Board, n: nat)
    requires n <= 8
    ensures FirstLineFrom(b, n) != NullRole ==> exists m: nat :: n <= m < 8 && LineOf(b, m) == FirstLineFrom(b, n)
    ensures FirstLineFrom(b, n) == NullRole ==> forall m: nat :: n <= m < 8 ==> LineOf(b, m) == NullRole
    decreases 8 - n
  {
    if n < 8 && LineOf(b, n) == NullRole {
      FirstLineFinds(b, n + 1);
    }
  }

  predicate OwnsRow(b: Board, i: nat, r: Role)
    requires i < 3
  {
    b[3 * i] == r && b[3 * i + 1] == r && b[3 * i + 2] == r
  }

  predicate OwnsColumn(b: Board, j: nat, r: Role)
    requires j < 3
  {
    b[j] == r && b[3 + j] == r && b[6 + j] == r
  }

  /** The lines are the three rows, the three columns and the two diagonals. */
  lemma LinesOnTheBoard(b: Board, r: Role)
    requires r != NullRole
    ensures HasLine(b, r) <==>
              || (exists i: nat :: i < 3 && OwnsRow(b, i, r))
              || (exists j: nat :: j < 3 && OwnsColumn(b, j, r))
              || (b[0] == b[4] == b[8] == r)
              || (b[2] == b[4] == b[6] == r)
  {
    LinesAre(b, r);
  }

  lemma LinesAre(b: Board, r: Role)
    requires r != NullRole
    ensures LineOf(b, 0) == r <==> OwnsRow(b, 0, r)
    ensures LineOf(b, 1) == r <==> OwnsRow(b, 1, r)
    ensures LineOf(b, 2) == r <==> OwnsRow(b, 2, r)
    ensures LineOf(b, 3) == r <==> OwnsColumn(b, 0, r)
    ensures LineOf(b, 4) == r <==> OwnsColumn(b, 1, r)
    ensures LineOf(b, 5) == r <==> OwnsColumn(b, 2, r)
    ensures LineOf(b, 6) == r <==> b[0] == b[4] == b[8] == r
    ensures LineOf(b, 7) == r <==> b[2] == b[4] == b[6] == r
  {
  }

  /** The owner of three cells, if one role has them all. */
  function Owner(x: Role, y: Role, z: Role): Role {
    if x == y == z then x else NullRole
  }

  /** Where both players own lines the winner is found row by row, then column by column, then on the
      falling and last on the rising diagonal. */
  lemma ScanOrder(b: Board)
    ensures FirstLineFrom(b, 0)
         == if Owner(b[0], b[1], b[2]) != NullRole then Owner(b[0], b[1], b[2])
            else if Owner(b[3], b[4], b[5]) != NullRole then Owner(b[3], b[4], b[5])
            else if Owner(b[6], b[7], b[8]) != NullRole then Owner(b[6], b[7], b[8])
            else if Owner(b[0], b[3], b[6]) != NullRole then Owner(b[0], b[3], b[6])
            else if Owner(b[1], b[4], b[7]) != NullRole then Owner(b[1], b[4], b[7])
            else if Owner(b[2], b[5], b[8]) != NullRole then Owner(b[2], b[5], b[8])
            else if Owner(b[0], b[4], b[8]) != NullRole then Owner(b[0], b[4], b[8])
            else Owner(b[2], b[4], b[6])
  {
    ScanLast(b);
    assert FirstLineFrom(b, 5) == if Owner(b[2], b[5], b[8]) != NullRole then Owner(b[2], b[5], b[8]) else FirstLineFrom(b, 6);
    assert FirstLineFrom(b, 4) == if Owner(b[1], b[4], b[7]) != NullRole then Owner(b[1], b[4], b[7]) else FirstLineFrom(b, 5);
    assert FirstLineFrom(b, 3) == if Owner(b[0], b[3], b[6]) != NullRole then Owner(b[0], b[3], b[6]) else FirstLineFrom(b, 4);
    assert FirstLineFrom(b, 2) == if Owner(b[6], b[7], b[8]) != NullRole then Owner(b[6], b[7], b[8]) else FirstLineFrom(b, 3);
    assert FirstLineFrom(b, 1) == if Owner(b[3], b[4], b[5]) != NullRole then Owner(b[3], b[4], b[5]) else FirstLineFrom(b, 2);
  }

  lemma ScanLast(b: Board)
    ensures FirstLineFrom(b, 6)
         == if Owner(b[0], b[4], b[8]) != NullRole then Owner(b[0], b[4], b[8]) else Owner(b[2], b[4], b[6])
  {
    assert FirstLineFrom(b, 8) == NullRole;
    assert FirstLineFrom(b, 7) == Owner(b[2], b[4], b[6]);
  }

  /* ---------- the operations on a record ---------- */

  /** What game_is_over leaves behind. */
  function Judge(g: GameRec): GameRec {
    if FirstLineFrom(g.board, 0) != NullRole then g.(winner := FirstLineFrom(g.board, 0), over := true)
    else if Full(g.board) then g.(winner := NullRole, over := true)
    else g
  }

  predicate CanApply(g: GameRec, cell: nat, role: Role)
    requires cell < 9
  {
    g.current == role && g.board[cell] == NullRole
  }

  function Apply(g: GameRec, cell: nat, role: Role): GameRec
    requires cell < 9
  {
    if CanApply(g, cell, role)
    then Judge(g.(board := g.board[cell := role], current := Other(g.current)))
    else g
  }

  predicate CanResign(g: GameRec) {
    g.winner == NullRole
  }

  function ResignBy(g: GameRec, role: Role): GameRec {
    if CanResign(g) then g.(current := NullRole, over := true, winner := Other(role)) else g
  }

  /* ---------- counting marks ---------- */

  function Count(b: seq<Role>, r: Role): nat {
    if |b| == 0 then 0 else Count(b[1..], r) + (if b[0] == r then 1 else 0)
  }

  lemma {:induction false} CountUpdate(b: seq<Role>, k: nat, v: Role, r: Role)
    requires k < |b| && b[k] != v
    ensures Count(b[k := v], r) == Count(b, r) + (if v == r then 1 else 0) - (if b[k] == r then 1 else 0)
  {
    if k == 0 {
      assert b[k := v][1..] == b[1..];
    } else {
      assert b[k := v][1..] == b[1..][k - 1 := v];
      CountUpdate(b[1..], k - 1, v, r);
    }
  }

  lemma {:induction false} CountAll(b: seq<Role>)
    ensures Count(b, NullRole) + Count(b, First) + Count(b, Second) == |b|
  {
    if |b| > 0 {
      CountAll(b[1..]);
    }
  }

  /* ---------- what every play keeps ---------- */

  predicate HasResigned(g: GameRec) {
    g.current == NullRole
  }

  /** The facts that hold of a game after any play that stops once it is over. */
  ghost predicate GameInv(g: GameRec) {
    && !(HasLine(g.board, First) && HasLine(g.board, Second))
    && (HasResigned(g) ==>
          && g.over && g.winner != NullRole
          && !HasLine(g.board, First) && !HasLine(g.board, Second) && !Full(g.board)
          && 0 <= Count(g.board, First) - Count(g.board, Second) <= 1)
    && (!HasResigned(g) ==>
          && (g.over <==> HasLine(g.board, First) || HasLine(g.board, Second) || Full(g.board))
          && (forall r :: r != NullRole ==> (g.winner == r <==> HasLine(g.board, r)))
          && Count(g.board, First) - Count(g.board, Second) == (if g.current == First then 0 else 1)
          && (g.winner != NullRole ==> g.winner == Other(g.current)))
  }

  lemma NewGameInv()
    ensures GameInv(NEW_GAME)
  {
    assert forall n: nat :: n < 8 ==> LineOf(EMPTY, n) == NullRole;
    assert EMPTY[0] == NullRole;
  }

  /** A mark adds no line for the other role and destroys none of the mover's. */
  lemma MarkLines(b: Board, cell: nat, role: Role)
    requires cell < 9 && b[cell] == NullRole && role != NullRole
    ensures forall r :: r != NullRole && r != role ==> HasLine(b[cell := role], r) ==> HasLine(b, r)
    ensures forall r :: r != NullRole && HasLine(b, r) ==> HasLine(b[cell := role], r)
  {
    var b': Board := b[cell := role];
    forall n: nat | n < 8
      ensures LineOf(b', n) != NullRole && LineOf(b', n) != role ==> LineOf(b, n) == LineOf(b', n)
      ensures LineOf(b, n) != NullRole ==> LineOf(b', n) == LineOf(b, n)
    {
    }
  }

  lemma FirstLineIsTheLine(b: Board)
    requires !(HasLine(b, First) && HasLine(b, Second))
    ensures forall r :: r != NullRole ==> (FirstLineFrom(b, 0) == r <==> HasLine(b, r))
  {
    FirstLineFinds(b, 0);
  }

  /** One attempted move by a player on an unfinished game. */
  lemma ApplyKeeps(g: GameRec, cell: nat, role: Role)
    requires GameInv(g) && !g.over && cell < 9 && role != NullRole
    ensures GameInv(Apply(g, cell, role))
    ensures CanApply(g, cell, role) ==> Apply(g, cell, role).winner in {NullRole, role}
    ensures forall r :: r != NullRole ==>
              Count(Apply(g, cell, role).board, r)
              == Count(g.board, r) + (if CanApply(g, cell, role) && r == role then 1 else 0)
    ensures !HasResigned(Apply(g, cell, role))
  {
    if CanApply(g, cell, role) {
      var b': Board := g.board[cell := role];
      MarkLines(g.board, cell, role);
      CountUpdate(g.board, cell, role, First);
      CountUpdate(g.board, cell, role, Second);
      assert !HasLine(b', Other(role));
      FirstLineIsTheLine(b');
    }
  }

  /** A move in an unfinished game is accepted exactly from the player whose turn it is by the marks on
      the board, the first player when both have as many, and on an empty cell. */
  lemma AcceptsExactly(g: GameRec, cell: nat, role: Role)
    requires GameInv(g) && !g.over && cell < 9 && role != NullRole
    ensures CanApply(g, cell, role) <==>
              g.board[cell] == NullRole && (role == First <==> Count(g.board, First) == Count(g.board, Second))
    ensures Apply(g, cell, role).board == if CanApply(g, cell, role) then g.board[cell := role] else g.board
  {
    hide Count;
  }

  /** Resigning an unfinished game always succeeds and makes the other role the winner. */
  lemma ResignByKeeps(g: GameRec, role: Role)
    requires GameInv(g) && !g.over && role != NullRole
    ensures CanResign(g) && GameInv(ResignBy(g, role))
    ensures ResignBy(g, role).winner == Other(role) && HasResigned(ResignBy(g, role))
  {
    var h := ResignBy(g, role);
    if HasLine(g.board, First) || HasLine(g.board, Second) {
      assert false;
    }
  }

  /** After a resignation neither player can move, and judging again changes nothing. */
  lemma ResignedIsFinal(g: GameRec, cell: nat, role: Role)
    requires GameInv(g) && HasResigned(g) && cell < 9 && role != NullRole
    ensures Apply(g, cell, role) == g && ResignBy(g, role) == g && Judge(g) == g
  {
    FirstLineFinds(g.board, 0);
  }

  /** game_is_over is idempotent on every record, and on a game in play it reports
      exactly a line, a full board or a resignation. */
  lemma JudgeIsExact(g: GameRec)
    ensures Judge(Judge(g)) == Judge(g)
    ensures GameInv(g) ==> Judge(g) == g
    ensures GameInv(g) ==>
              (Judge(g).over <==> HasLine(g.board, First) || HasLine(g.board, Second) || Full(g.board) || HasResigned(g))
  {
    FirstLineFinds(g.board, 0);
    if GameInv(g) {
      FirstLineIsTheLine(g.board);
      assert g.winner != NullRole && !HasResigned(g) ==> HasLine(g.board, g.winner);
    }
  }

  /** The documentation has a resignation of any terminated game fail.  The code lets one
      through exactly when the game was drawn. */
  lemma ResignAfterEnd(g: GameRec)
    requires GameInv(g) && g.over
    ensures CanResign(g) <==> Full(g.board) && !HasLine(g.board, First) && !HasLine(g.board, Second)
  {
    if HasResigned(g) {
    } else {
      assert CanResign(g) <==> !HasLine(g.board, First) && !HasLine(g.board, Second);
    }
  }

  lemma {:induction false} LeastLine(b: Board, n: nat) returns (m: nat)
    requires n <= 8 && FirstLineFrom(b, n) != NullRole
    ensures n <= m < 8 && LineOf(b, m) == FirstLineFrom(b, n) && forall k: nat :: n <= k < m ==> LineOf(b, k) == NullRole
    decreases 8 - n
  {
    m := n;
    if LineOf(b, n) == NullRole {
      m := LeastLine(b, n + 1);
    }
  }

  /** What holds of a game after any moves and resignations, made after its end or before: unless it
      was resigned its winner is the first line in the order of game_is_over, and it is over exactly
      when there is one or the board is full. */
  ghost predicate Judged(g: GameRec) {
    if HasResigned(g) then g.over && g.winner != NullRole
    else g.winner == FirstLineFrom(g.board, 0) && (g.over <==> g.winner != NullRole || Full(g.board))
  }

  lemma NewGameJudged()
    ensures Judged(NEW_GAME)
  {
    assert forall n: nat :: n < 8 ==> LineOf(EMPTY, n) == NullRole;
    FirstLineFinds(EMPTY, 0);
    assert EMPTY[0] == NullRole;
  }

  lemma ApplyJudged(g: GameRec, cell: nat, role: Role)
    requires Judged(g) && cell < 9 && role != NullRole
    ensures Judged(Apply(g, cell, role))
    ensures g.over ==> Apply(g, cell, role).over
  {
    hide FirstLineFrom, LineOf;
    if CanApply(g, cell, role) {
      var b: Board := g.board[cell := role];
      LinesAfterMark(g.board, cell, role);
      FirstLineFinds(g.board, 0);
      FirstLineFinds(b, 0);
    }
  }

  lemma ResignJudged(g: GameRec, role: Role)
    requires Judged(g) && role != NullRole
    ensures Judged(ResignBy(g, role))
    ensures g.over ==> ResignBy(g, role).over
  {
  }

  /** Whether a mark completes a line of the mover that comes before every line of the winner in the
      order in which game_is_over scans them. */
  ghost predicate TakesOver(g: GameRec, cell: nat, role: Role)
    requires cell < 9
  {
    var b: Board := g.board[cell := role];
    role != g.winner && exists n: nat :: n < 8 && LineOf(b, n) == role && forall m: nat :: m < n ==> LineOf(g.board, m) != g.winner
  }

  /** game_apply_move does not ask whether the game is over.  A mark made after the last one changes
      the winner exactly when it takes over, even where both players own a line. */
  lemma MoveAfterEnd(g: GameRec, cell: nat, role: Role)
    requires g.winner == FirstLineFrom(g.board, 0) && g.winner != NullRole
    requires cell < 9 && role != NullRole && CanApply(g, cell, role)
    ensures Apply(g, cell, role).winner != g.winner <==> TakesOver(g, cell, role)
  {
    hide LineOf, FirstLineFrom, Full, Apply;
    var b: Board := g.board[cell := role];
    LinesAfterMark(g.board, cell, role);
    var k := LeastLine(g.board, 0);
    assert LineOf(b, k) == g.winner;
    FirstLineFinds(b, 0);
    ApplyWinner(g, cell, role);
    var m := LeastLine(b, 0);
    assert m <= k;
    if m < k {
      assert LineOf(g.board, m) == NullRole;
      assert LineOf(b, m) == role;
    } else {
      assert LineOf(g.board, k) == g.winner;
    }
  }

  lemma ApplyWinner(g: GameRec, cell: nat, role: Role)
    requires cell < 9 && CanApply(g, cell, role) && FirstLineFrom(g.board[cell := role], 0) != NullRole
    ensures Apply(g, cell, role).winner == FirstLineFrom(g.board[cell := role], 0)
  {
    hide FirstLineFrom, Full;
  }

  /** Of a game that is over every move is refused exactly when it was resigned or the board is full;
      any other still takes moves. */
  lemma RefusesAfterEnd(g: GameRec)
    requires Judged(g) && g.over
    ensures (forall cell: nat, role: Role :: cell < 9 && role != NullRole ==> !CanApply(g, cell, role))
            <==> HasResigned(g) || Full(g.board)
  {
    if !HasResigned(g) && !Full(g.board) {
      var k :| 0 <= k < 9 && g.board[k] == NullRole;
      assert CanApply(g, k, g.current);
    }
  }

  /** A mark keeps every line and adds only lines of the mover. */
  lemma LinesAfterMark(b: Board, cell: nat, role: Role)
    requires cell < 9 && b[cell] == NullRole && role != NullRole
    ensures forall n: nat :: n < 8 && LineOf(b, n) != NullRole ==> LineOf(b[cell := role], n) == LineOf(b, n)
    ensures forall n: nat :: n < 8 && LineOf(b[cell := role], n) != NullRole && LineOf(b[cell := role], n) != role
              ==> LineOf(b, n) == LineOf(b[cell := role], n)
  {
  }

  /* ---------- whole plays ---------- */

  datatype Action = TryMove(cell: nat, role: Role) | TryResign(role: Role)

  /** An attempt by one of the two players; a cell is always in range (game_parse_move). */
  type Attempt = a: Action | a.role != NullRole && (a.TryMove? ==> a.cell < 9) witness TryResign(First)

  function Play(g: GameRec, a: Attempt): GameRec
  {
    if g.over then g
    else match a
      case TryMove(cell, role) => Apply(g, cell, role)
      case TryResign(role) => ResignBy(g, role)
  }

  function PlayAll(g: GameRec, acts: seq<Attempt>): GameRec
    decreases |acts|
  {
    if acts == [] then g else PlayAll(Play(g, acts[0]), acts[1..])
  }

  /** How many of the attempted moves were accepted. */
  function Accepted(g: GameRec, acts: seq<Attempt>): nat
    decreases |acts|
  {
    if acts == [] then 0
    else
      (if !g.over && acts[0].TryMove? && CanApply(g, acts[0].cell, acts[0].role) then 1 else 0)
      + Accepted(Play(g, acts[0]), acts[1..])
  }

  function Marks(g: GameRec): nat {
    Count(g.board, First) + Count(g.board, Second)
  }

  lemma {:induction false} PlayKeeps(g: GameRec, acts: seq<Attempt>)
    requires GameInv(g)
    ensures GameInv(PlayAll(g, acts))
    ensures Marks(PlayAll(g, acts)) == Marks(g) + Accepted(g, acts)
    decreases |acts|
  {
    if acts != [] {
      var a := acts[0];
      if !g.over {
        match a
        case TryMove(cell, role) => ApplyKeeps(g, cell, role);
        case TryResign(role) => ResignByKeeps(g, role);
      }
      PlayKeeps(Play(g, a), acts[1..]);
    }
  }

  /** Every play from the start, whatever is attempted: the marks alternate, the two sides
      never both own a line, a line's owner moved last, and at most nine moves are accepted. */
  lemma EveryPlay(acts: seq<Attempt>)
    ensures GameInv(PlayAll(NEW_GAME, acts))
    ensures Marks(PlayAll(NEW_GAME, acts)) == Accepted(NEW_GAME, acts) <= 9
  {
    hide GameInv, Count;
    NewGameInv();
    PlayKeeps(NEW_GAME, acts);
    CountAll(PlayAll(NEW_GAME, acts).board);
    NoMarks();
  }

  lemma NoMarks()
    ensures Marks(NEW_GAME) == 0
  {
    CountEmpty(EMPTY, First);
    CountEmpty(EMPTY, Second);
  }

  lemma CountEmpty(b: seq<Role>, r: Role)
    requires r != NullRole && forall k :: 0 <= k < |b| ==> b[k] == NullRole
    ensures Count(b, r) == 0
  {
  }

  /* ---------- a drawn game ---------- */

  const DRAWN: Board := [First, Second, First, First, Second, Second, Second, First, First]

  /** The cells of a drawn game in the order in which they are taken. */
  const TAKEN: seq<nat> := [0, 1, 2, 4, 3, 5, 7, 6, 8]

  /** When a cell is taken. */
  function TurnOf(cell: nat): nat {
    if cell == 3 then 4 else if cell == 4 then 3 else if cell == 6 then 7 else if cell == 7 then 6 else cell
  }

  function RoleAt(n: nat): Role {
    if n % 2 == 0 then First else Second
  }

  /** The game after n of the nine moves. */
  function Drawing(n: nat): GameRec {
    GameRec(seq(9, cell requires 0 <= cell < 9 => if TurnOf(cell) < n then DRAWN[cell] else NullRole), RoleAt(n), NullRole, n >= 9, 1)
  }

  lemma DrawnHasNoLine()
    ensures Full(DRAWN)
    ensures forall n: nat :: n < 8 ==> LineOf(DRAWN, n) == NullRole
  {
  }

  /** Part of a drawn board has no line. */
  lemma PartHasNoLine(b: Board, k: nat)
    requires k < 8 && forall cell: nat :: cell < 9 ==> b[cell] == NullRole || b[cell] == DRAWN[cell]
    ensures LineOf(b, k) == NullRole
  {
    hide LineOf;
    DrawnHasNoLine();
    LinePart(b, LINES[k].0, LINES[k].1, LINES[k].2, k);
  }

  lemma LinePart(b: Board, i: nat, j: nat, l: nat, k: nat)
    requires k < 8 && LINES[k] == (i, j, l) && LineOf(DRAWN, k) == NullRole
    requires forall cell: nat :: cell < 9 ==> b[cell] == NullRole || b[cell] == DRAWN[cell]
    ensures LineOf(b, k) == NullRole
  {
  }

  lemma NoLineYet(n: nat)
    ensures FirstLineFrom(Drawing(n).board, 0) == NullRole
  {
    hide TurnOf, LineOf;
    var b := Drawing(n).board;
    forall k: nat | k < 8
      ensures LineOf(b, k) == NullRole
    {
      PartHasNoLine(b, k);
    }
    FirstLineFinds(b, 0);
  }

  lemma NextTaken(n: nat)
    requires n < 9
    ensures TurnOf(TAKEN[n]) == n && TAKEN[n] < 9 && DRAWN[TAKEN[n]] == RoleAt(n)
    ensures forall cell: nat :: cell < 9 && TurnOf(cell) == n ==> cell == TAKEN[n]
  {
  }

  lemma DrawingStep(n: nat)
    requires n < 9
    ensures Apply(Drawing(n), TAKEN[n], RoleAt(n)) == Drawing(n + 1)
  {
    NextTaken(n);
    NoLineYet(n + 1);
    var b: Board := Drawing(n).board[TAKEN[n] := RoleAt(n)];
    assert b == Drawing(n + 1).board;
    if n < 8 {
      assert b[8] == NullRole;
    } else {
      assert Full(b);
    }
  }

  function DrawingMoves(n: nat): seq<Attempt>
    requires n <= 9
    decreases 9 - n
  {
    if n == 9 then [] else NextTaken(n); [TryMove(TAKEN[n], RoleAt(n))] + DrawingMoves(n + 1)
  }

  lemma {:induction false} DrawingPlays(n: nat)
    requires n <= 9
    ensures PlayAll(Drawing(n), DrawingMoves(n)) == Drawing(9)
    decreases 9 - n
  {
    hide Apply;
    if n < 9 {
      NextTaken(n);
      DrawingStep(n);
      DrawingPlays(n + 1);
      var moves := DrawingMoves(n);
      assert moves[0] == TryMove(TAKEN[n], RoleAt(n)) && moves[1..] == DrawingMoves(n + 1);
      assert Play(Drawing(n), moves[0]) == Drawing(n + 1);
    }
  }

  /** Nine moves from the start draw the game, and yet it can be resigned: the other role wins. */
  lemma ResignOfDrawnGameSucceeds()
    ensures var g := PlayAll(NEW_GAME, DrawingMoves(0));
            && g == GameRec(DRAWN, Second, NullRole, true, 1) && GameInv(g)
            && CanResign(g) && ResignBy(g, First).winner == Second
  {
    DrawingPlays(0);
    assert Drawing(0).board == EMPTY;
    assert Drawing(9).board == DRAWN;
    EveryPlay(DrawingMoves(0));
  }

  /* ---------- the mutable GAME ---------- */

  class Game {
    const rows: array<Role>
    var refCount: int
    var isOver: bool
    var currentPlayer: Role
    var winner: Role

    ghost predicate Valid()
      reads this, rows
    {
      rows.Length == 9
    }

    ghost function Rec(): GameRec
      requires Valid()
      reads this, rows
    {
      GameRec(rows[..], currentPlayer, winner, isOver, refCount)
    }

    constructor ()
      ensures Valid() && fresh(rows) && Rec() == NEW_GAME
    {
      var cells := new Role[9];
      for i := 0 to 9
        invariant forall k :: 0 <= k < i ==> cells[k] == NullRole
      {
        cells[i] := NullRole;
      }
      rows := cells;
      winner := NullRole;
      currentPlayer := First;
      refCount := 0;
      isOver := false;
      new;
      refCount := refCount + 1;
      assert rows[..] == EMPTY;
    }

    /** The owner of the line through three cells is recorded as the winner, if there is one. */
    method FinishLine(i: nat, j: nat, k: nat) returns (done: bool)
      requires Valid() && i < 9 && j < 9 && k < 9
      modifies this`winner, this`isOver
      ensures Valid()
      ensures done == (LineAt(rows[..], i, j, k) != NullRole)
      ensures Rec() == if done then old(Rec()).(winner := LineAt(rows[..], i, j, k), over := true) else old(Rec())
    {
      done := rows[i] == rows[j] && rows[j] == rows[k] && rows[i] != NullRole;
      if done {
        if rows[i] == First {
          winner := First;
        } else {
          winner := Second;
        }
        isOver := true;
      }
    }

    method EmptyCells() returns (empty: nat)
      requires Valid()
      ensures empty == 0 <==> Full(rows[..])
    {
      empty := 0;
      for i := 0 to 9
        invariant empty == 0 <==> forall k :: 0 <= k < i ==> rows[k] != NullRole
      {
        if rows[i] == NullRole {
          empty := empty + 1;
        }
      }
    }

    /** The rows, which are the first three lines. */
    method ScanRows() returns (done: bool)
      requires Valid()
      modifies this`winner, this`isOver
      ensures Valid()
      ensures if done then FirstLineFrom(rows[..], 0) != NullRole
                           && Rec() == old(Rec()).(winner := FirstLineFrom(rows[..], 0), over := true)
              else Rec() == old(Rec()) && FirstLineFrom(rows[..], 0) == FirstLineFrom(rows[..], 3)
    {
      ghost var b: Board := rows[..];
      done := false;
      var i := 0;
      while i < 9
        invariant 0 <= i <= 9 && i % 3 == 0
        invariant Rec() == old(Rec()) && !done
        invariant FirstLineFrom(b, 0) == FirstLineFrom(b, i / 3)
      {
        assert LINES[i / 3] == (i, i + 1, i + 2);
        done := FinishLine(i, i + 1, i + 2);
        if done {
          return;
        }
        i := i + 3;
      }
    }

    /** The columns, which are the next three. */
    method ScanColumns() returns (done: bool)
      requires Valid()
      modifies this`winner, this`isOver
      ensures Valid()
      ensures if done then FirstLineFrom(rows[..], 3) != NullRole
                           && Rec() == old(Rec()).(winner := FirstLineFrom(rows[..], 3), over := true)
              else Rec() == old(Rec()) && FirstLineFrom(rows[..], 3) == FirstLineFrom(rows[..], 6)
    {
      ghost var b: Board := rows[..];
      done := false;
      var i := 0;
      while i < 3
        invariant 0 <= i <= 3
        invariant Rec() == old(Rec()) && !done
        invariant FirstLineFrom(b, 3) == FirstLineFrom(b, 3 + i)
      {
        assert LINES[3 + i] == (i, i + 3, i + 6);
        done := FinishLine(i, i + 3, i + 6);
        if done {
          return;
        }
        i := i + 1;
      }
    }

    /** game_is_over: rows, columns, the two diagonals, then a count of the empty cells. */
    method IsOver() returns (r: bool)
      requires Valid()
      modifies this`winner, this`isOver
      ensures Valid() && Rec() == Judge(old(Rec())) && r == Rec().over
    {
      hide LineAt, Full;
      ghost var b: Board := rows[..];
      var done := ScanRows();
      if done {
        return isOver;
      }
      done := ScanColumns();
      if done {
        return isOver;
      }
      done := FinishLine(0, 4, 8);
      if done {
        return isOver;
      }
      done := FinishLine(2, 4, 6);
      if done {
        return isOver;
      }
      var empty := EmptyCells();
      if empty == 0 {
        winner := NullRole;
        isOver := true;
      }
      return isOver;
    }

    method ApplyMove(cell: nat, role: Role) returns (ok: bool)
      requires Valid() && cell < 9
      modifies this, rows
      ensures Valid()
      ensures Rec() == Apply(old(Rec()), cell, role)
      ensures ok == CanApply(old(Rec()), cell, role)
    {
      if currentPlayer != role {
        return false;
      }
      if rows[cell] != NullRole {
        return false;
      }
      rows[cell] := role;
      currentPlayer := if currentPlayer == First then Second else First;
      assert rows[..] == old(rows[..])[cell := role];
      var _ := IsOver();
      return true;
    }

    method Resign(role: Role) returns (ok: bool)
      requires Valid()
      modifies this
      ensures Valid()
      ensures Rec() == ResignBy(old(Rec()), role)
      ensures ok == CanResign(old(Rec()))
    {
      if winner != NullRole {
        return false;
      }
      currentPlayer := NullRole;
      isOver := true;
      winner := if role == First then Second else First;
      return true;
    }
  }
}
