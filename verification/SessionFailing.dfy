/** Runs from the start in which a promise of the documentation fails. */
module FailingRuns {
  import opened Basics
  import opened Games
  import opened GameText
  import opened Players
  import opened PlayerRegistries
  import opened Clients
  import opened ClientRegistries
  import opened Sessions
  import opened References
  import opened Steps
  import opened Runs
  import opened Lifecycle
  import opened WrongSide
  import opened Stories
  import opened Scoring
  import opened Winners
  import opened Outcomes

  /* ---------- closing from the wrong side ---------- */

  /** Two clients connect, log in as two players, and the first invites the second. */
  function Meeting(a: Client, b: Client, p: Player, q: Player, i: Invitation): seq<Step> {
    [SConnect(a), SConnect(b), SLogin(a, p), SLogin(b, q), SInvite(a, q.name, First, i, true)]
  }

  function Invited(a: Client, b: Client, p: Player, q: Player, i: Invitation): State {
    State(map[a := ClientRec(2, p, true, [Entry(0, i)]), b := ClientRec(2, q, true, [Entry(0, i)])], [a, b],
          map[i := InvRec(InvOpen, 2, a, b, null, Second, First)], map[],
          map[p := PlayerRec(2, INITIAL_RATING), q := PlayerRec(2, INITIAL_RATING)], [p, q],
          [Sent(b, InvitedPkt(First), 0, i, p.name)])
  }

  function Connected(a: Client, b: Client): State {
    State(map[a := ClientRec(1, null, false, []), b := ClientRec(1, null, false, [])], [a, b], map[], map[], map[], [], [])
  }

  function FirstLoggedIn(a: Client, b: Client, p: Player): State {
    State(map[a := ClientRec(1, p, true, []), b := ClientRec(1, null, false, [])], [a, b], map[], map[],
          map[p := PlayerRec(2, INITIAL_RATING)], [p], [])
  }

  function BothLoggedIn(a: Client, b: Client, p: Player, q: Player): State {
    State(map[a := ClientRec(1, p, true, []), b := ClientRec(1, q, true, [])], [a, b], map[], map[],
          map[p := PlayerRec(2, INITIAL_RATING), q := PlayerRec(2, INITIAL_RATING)], [p, q], [])
  }

  lemma FirstLogin(a: Client, b: Client, p: Player)
    requires a != b && p.name != ""
    ensures Login(Connected(a, b), a, p).0 == FirstLoggedIn(a, b, p)
  {
    var s := Connected(a, b);
    assert s.registry[1..] == [b];
    assert LookupUser(s, [b], p.name) == null;
  }

  lemma SecondLogin(a: Client, b: Client, p: Player, q: Player)
    requires a != b && p.name != q.name && q.name != ""
    ensures Login(FirstLoggedIn(a, b, p), b, q).0 == BothLoggedIn(a, b, p, q)
  {
    var s := FirstLoggedIn(a, b, p);
    assert s.registry[1..] == [b];
    assert LookupUser(s, [b], q.name) == null;
    assert FindName([p], q.name) == 1;
  }

  lemma FirstInvite(a: Client, b: Client, p: Player, q: Player, i: Invitation)
    requires a != b && p.name != q.name
    ensures Invite(BothLoggedIn(a, b, p, q), a, q.name, First, i, true).0 == Invited(a, b, p, q, i)
  {
    var s := BothLoggedIn(a, b, p, q);
    assert s.registry[1..] == [b];
    assert LookupUser(s, [b], q.name) == b;
    assert Ids([]) == {};
    assert LeastFree({}) == 0;
    assert [Entry(0, i)] + [] == [Entry(0, i)];
    var (s', t) := (Invite(s, a, q.name, First, i, true).0, Invited(a, b, p, q, i));
    assert s'.clients[a] == t.clients[a] && s'.clients[b] == t.clients[b];
    assert s'.clients == t.clients;
    assert s'.invs == t.invs;
    assert s'.log == t.log;
  }

  lemma MeetingRuns(a: Client, b: Client, p: Player, q: Player, i: Invitation, rest: seq<Step>, pow: int -> PosReal)
    requires a != b && p.name != q.name && p.name != "" && q.name != ""
    ensures RunFrom(INITIAL, Meeting(a, b, p, q, i) + rest, pow) == RunFrom(Invited(a, b, p, q, i), rest, pow)
  {
    hide Login, Invite;
    var run := Meeting(a, b, p, q, i) + rest;
    FirstLogin(a, b, p);
    SecondLogin(a, b, p, q);
    FirstInvite(a, b, p, q, i);
    OneStep(INITIAL, run, State(map[a := ClientRec(1, null, false, [])], [a], map[], map[], map[], [], []), pow);
    OneStep(State(map[a := ClientRec(1, null, false, [])], [a], map[], map[], map[], [], []), run[1..], Connected(a, b), pow);
    OneStep(Connected(a, b), run[1..][1..], FirstLoggedIn(a, b, p), pow);
    OneStep(FirstLoggedIn(a, b, p), run[1..][1..][1..], BothLoggedIn(a, b, p, q), pow);
    OneStep(BothLoggedIn(a, b, p, q), run[1..][1..][1..][1..], Invited(a, b, p, q, i), pow);
    assert run[1..][1..][1..][1..][1..] == rest;
  }

  lemma OneStep(s: State, steps: seq<Step>, s1: State, pow: int -> PosReal)
    requires steps != [] && Enabled(s, steps[0]) && Ready(s, steps[0]) && Next(s, steps[0], pow) == s1
    ensures RunFrom(s, steps, pow) == RunFrom(s1, steps[1..], pow)
  {
  }

  /** The state after the second client, the target, has revoked. */
  function WronglyRevoked(a: Client, b: Client, p: Player, q: Player, i: Invitation): State {
    State(map[a := ClientRec(2, p, true, [Entry(0, i)]), b := ClientRec(2, q, true, [])], [a, b],
          map[i := InvRec(InvClosed, 1, a, b, null, Second, First)], map[],
          map[p := PlayerRec(2, INITIAL_RATING), q := PlayerRec(2, INITIAL_RATING)], [p, q],
          [Sent(b, InvitedPkt(First), 0, i, p.name), Sent(b, RevokedPkt, 0, i, "")])
  }

  lemma WrongRevoke(a: Client, b: Client, p: Player, q: Player, i: Invitation)
    requires a != b && p != q
    ensures Revoke(Invited(a, b, p, q, i), b, 0, true).0 == WronglyRevoked(a, b, p, q, i)
  {
    assert Cut([Entry(0, i)], 0) == [];
    assert Without([Entry(0, i)], i) == [];
    assert Find([], i) == 0;
  }

  /** The documentation has revoking fail for anyone but the source.  The code lets the target
      through: this run leaves the invitation closed and still in the source's list, and there it
      stays whatever comes after. */
  lemma TargetRevokes(a: Client, b: Client, p: Player, q: Player, i: Invitation, rest: seq<Step>, pow: int -> PosReal)
    requires a != b && p.name != q.name && p.name != "" && q.name != ""
    ensures RunFrom(INITIAL, Meeting(a, b, p, q, i) + [SRevoke(b, 0, true)], pow) == Some(WronglyRevoked(a, b, p, q, i))
    ensures !NoneStranded(WronglyRevoked(a, b, p, q, i)) && Stuck(WronglyRevoked(a, b, p, q, i), i)
    ensures var r := RunFrom(WronglyRevoked(a, b, p, q, i), rest, pow);
            r.Some? ==> StaysStuck(WronglyRevoked(a, b, p, q, i), r.value, i)
  {
    hide RunFrom, Meeting, Revoke, CoreInv;
    var steps := [SRevoke(b, 0, true)];
    MeetingRuns(a, b, p, q, i, steps, pow);
    WrongRevoke(a, b, p, q, i);
    LastStep(Invited(a, b, p, q, i), SRevoke(b, 0, true), WronglyRevoked(a, b, p, q, i), pow);
    assert !LiveOk(WronglyRevoked(a, b, p, q, i), i);
    EveryRun(Meeting(a, b, p, q, i) + steps, pow);
    StuckForEver(WronglyRevoked(a, b, p, q, i), rest, i, pow);
  }

  /** The state after the first client, the source, has declined. */
  function WronglyDeclined(a: Client, b: Client, p: Player, q: Player, i: Invitation): State {
    State(map[a := ClientRec(2, p, true, []), b := ClientRec(2, q, true, [Entry(0, i)])], [a, b],
          map[i := InvRec(InvClosed, 1, a, b, null, Second, First)], map[],
          map[p := PlayerRec(2, INITIAL_RATING), q := PlayerRec(2, INITIAL_RATING)], [p, q],
          [Sent(b, InvitedPkt(First), 0, i, p.name), Sent(a, DeclinedPkt, 0, i, "")])
  }

  lemma WrongDecline(a: Client, b: Client, p: Player, q: Player, i: Invitation)
    requires a != b && p != q
    ensures Decline(Invited(a, b, p, q, i), a, 0, true).0 == WronglyDeclined(a, b, p, q, i)
  {
    assert Cut([Entry(0, i)], 0) == [];
    assert Without([Entry(0, i)], i) == [];
    assert Find([], i) == 0;
  }

  /** The same for declining, which the documentation has fail for anyone but the target: the
      invitation ends closed and, for good, still in the target's list. */
  lemma SourceDeclines(a: Client, b: Client, p: Player, q: Player, i: Invitation, rest: seq<Step>, pow: int -> PosReal)
    requires a != b && p.name != q.name && p.name != "" && q.name != ""
    ensures RunFrom(INITIAL, Meeting(a, b, p, q, i) + [SDecline(a, 0, true)], pow) == Some(WronglyDeclined(a, b, p, q, i))
    ensures !NoneStranded(WronglyDeclined(a, b, p, q, i)) && Stuck(WronglyDeclined(a, b, p, q, i), i)
    ensures var r := RunFrom(WronglyDeclined(a, b, p, q, i), rest, pow);
            r.Some? ==> StaysStuck(WronglyDeclined(a, b, p, q, i), r.value, i)
  {
    hide RunFrom, Meeting, Decline, CoreInv;
    var steps := [SDecline(a, 0, true)];
    MeetingRuns(a, b, p, q, i, steps, pow);
    WrongDecline(a, b, p, q, i);
    LastStep(Invited(a, b, p, q, i), SDecline(a, 0, true), WronglyDeclined(a, b, p, q, i), pow);
    assert !LiveOk(WronglyDeclined(a, b, p, q, i), i);
    EveryRun(Meeting(a, b, p, q, i) + steps, pow);
    StuckForEver(WronglyDeclined(a, b, p, q, i), rest, i, pow);
  }

  lemma LastStep(s: State, t: Step, s1: State, pow: int -> PosReal)
    requires Enabled(s, t) && Ready(s, t) && Next(s, t, pow) == s1
    ensures RunFrom(s, [t], pow) == Some(s1)
  {
    OneStep(s, [t], s1, pow);
    assert [t][1..] == [];
    NoSteps(s1, pow);
  }

  lemma NoSteps(s: State, pow: int -> PosReal)
    ensures RunFrom(s, [], pow) == Some(s)
  {
  }

  /* ---------- a winner who resigns ---------- */

  /** The invitation is accepted and its game has come to rec, with everything told in log. */
  function Playing(a: Client, b: Client, p: Player, q: Player, i: Invitation, g: Game, rec: GameRec, log: seq<Event>): State {
    State(map[a := ClientRec(2, p, true, [Entry(0, i)]), b := ClientRec(2, q, true, [Entry(0, i)])], [a, b],
          map[i := InvRec(InvAccepted, 2, a, b, g, Second, First)], map[g := rec],
          map[p := PlayerRec(2, INITIAL_RATING), q := PlayerRec(2, INITIAL_RATING)], [p, q], log)
  }

  lemma Accepting(a: Client, b: Client, p: Player, q: Player, i: Invitation, g: Game)
    requires a != b
    ensures var s := Invited(a, b, p, q, i);
            Accept(s, b, 0, g, true).0 == Playing(a, b, p, q, i, g, NEW_GAME, s.log + [Sent(a, AcceptedPkt, 0, i, "")])
  {
  }

  const BOARD_1: Board := [NullRole, NullRole, NullRole, NullRole, NullRole, NullRole, First, NullRole, NullRole]
  const BOARD_2: Board := [Second, NullRole, NullRole, NullRole, NullRole, NullRole, First, NullRole, NullRole]
  const BOARD_3: Board := [Second, NullRole, NullRole, NullRole, NullRole, NullRole, First, First, NullRole]
  const BOARD_4: Board := [Second, Second, NullRole, NullRole, NullRole, NullRole, First, First, NullRole]
  const BOARD_5: Board := [Second, Second, NullRole, NullRole, NullRole, NullRole, First, First, First]

  /** The two players' marks in turn, until the first player has the bottom row and the second two
      thirds of the top row. */
  function At(n: nat): GameRec {
    if n == 0 then NEW_GAME
    else if n == 1 then GameRec(BOARD_1, Second, NullRole, false, 1)
    else if n == 2 then GameRec(BOARD_2, First, NullRole, false, 1)
    else if n == 3 then GameRec(BOARD_3, Second, NullRole, false, 1)
    else if n == 4 then GameRec(BOARD_4, First, NullRole, false, 1)
    else GameRec(BOARD_5, Second, First, true, 1)
  }

  function CellOf(n: nat): nat {
    if n == 0 then 6 else if n == 1 then 0 else if n == 2 then 7 else if n == 3 then 1 else 8
  }

  lemma NoLine(b: Board)
    requires forall n: nat :: n < 8 ==> LineOf(b, n) == NullRole
    ensures FirstLineFrom(b, 0) == NullRole
  {
    FirstLineFinds(b, 0);
  }

  lemma Quiet(n: nat)
    requires 1 <= n <= 4
    ensures FirstLineFrom(At(n).board, 0) == NullRole && !Full(At(n).board)
  {
    assert At(n).board[2] == NullRole;
    NoLine(At(n).board);
  }

  lemma BottomRow()
    ensures FirstLineFrom(BOARD_5, 0) == First
  {
    assert LineOf(BOARD_5, 0) == NullRole && LineOf(BOARD_5, 1) == NullRole && LineOf(BOARD_5, 2) == First;
    assert FirstLineFrom(BOARD_5, 2) == First;
    assert FirstLineFrom(BOARD_5, 1) == First;
  }

  lemma NextMark(n: nat)
    requires n < 5
    ensures CanApply(At(n), CellOf(n), At(n).current)
    ensures Apply(At(n), CellOf(n), At(n).current) == At(n + 1)
  {
    var b: Board := At(n).board[CellOf(n) := At(n).current];
    assert b == At(n + 1).board;
    if n < 4 {
      Quiet(n + 1);
    } else {
      BottomRow();
    }
  }

  function TextOf(n: nat): string {
    if n == 0 then "7" else if n == 1 then "1" else if n == 2 then "8" else if n == 3 then "2" else "9"
  }

  lemma Typed(n: nat, current: Role, role: Role)
    ensures ParseMove(current, role, TextOf(n)) == Some(GameMove(CellOf(n), role))
  {
    ParseIsExact(current, role, TextOf(n));
  }

  function Mover(a: Client, b: Client, n: nat): Client {
    if n % 2 == 0 then b else a
  }

  /** What the opponent is told of mark n. */
  function Told(a: Client, b: Client, i: Invitation, n: nat): Event {
    Sent(Mover(a, b, n + 1), MovedPkt, 0, i, StateText(At(n + 1).board, At(n + 1).current))
  }

  /** One mark that does not end the game, all packets sent. */
  lemma MarkFrom(a: Client, b: Client, p: Player, q: Player, i: Invitation, g: Game, c: Client, text: string, cell: nat,
                 rec: GameRec, rec1: GameRec, log: seq<Event>, pow: int -> PosReal)
    requires a != b && (c == a || c == b) && rec.current == (if c == b then First else Second) && cell < 9
    requires ParseMove(rec.current, rec.current, text) == Some(GameMove(cell, rec.current))
    requires CanApply(rec, cell, rec.current) && Apply(rec, cell, rec.current) == rec1 && Judge(rec1) == rec1 && !rec1.over
    ensures var s := Playing(a, b, p, q, i, g, rec, log);
            && Resolves(s, c, 0)
            && MakeMove(s, c, 0, text, true, true, true, pow).0
               == Playing(a, b, p, q, i, g, rec1,
                          log + [Sent(if c == a then b else a, MovedPkt, 0, i, StateText(rec1.board, rec1.current))])
  {
    hide Apply, ParseMove, CanApply, StateText, Judge;
    var s := Playing(a, b, p, q, i, g, rec, log);
    assert MakeMove(s, c, 0, text, true, true, true, pow).0.games == map[g := rec1];
  }

  /** The n-th mark. */
  lemma Marking(a: Client, b: Client, p: Player, q: Player, i: Invitation, g: Game, n: nat, log: seq<Event>, pow: int -> PosReal)
    requires a != b && n < 4
    ensures var (s, c) := (Playing(a, b, p, q, i, g, At(n), log), Mover(a, b, n));
            && Resolves(s, c, 0)
            && MakeMove(s, c, 0, TextOf(n), true, true, true, pow).0
               == Playing(a, b, p, q, i, g, At(n + 1), log + [Told(a, b, i, n)])
  {
    hide Apply, ParseMove, CanApply, StateText, Judge, MakeMove, At, TextOf, Playing;
    NextMark(n);
    Typed(n, At(n).current, At(n).current);
    JudgedAlready(n + 1);
    Turns(n);
    MarkFrom(a, b, p, q, i, g, Mover(a, b, n), TextOf(n), CellOf(n), At(n), At(n + 1), log, pow);
  }

  lemma Turns(n: nat)
    requires n < 4
    ensures At(n).current == (if n % 2 == 0 then First else Second) && !At(n + 1).over
  {
  }

  lemma JudgedAlready(n: nat)
    requires 1 <= n <= 5
    ensures Judge(At(n)) == At(n)
  {
    if n < 5 {
      Quiet(n);
    } else {
      BottomRow();
    }
  }

  /** The last mark: the winner's own ENDED packet is not sent. */
  lemma LastMark(a: Client, b: Client, p: Player, q: Player, i: Invitation, g: Game, log: seq<Event>, pow: int -> PosReal)
    requires a != b
    ensures var s := Playing(a, b, p, q, i, g, At(4), log);
            && Resolves(s, b, 0)
            && MakeMove(s, b, 0, TextOf(4), true, true, false, pow).0
               == Playing(a, b, p, q, i, g, At(5), log + [Told(a, b, i, 4)] + [Sent(a, EndedPkt(First), 0, i, "")])
  {
    hide Apply, ParseMove, CanApply, StateText;
    var s := Playing(a, b, p, q, i, g, At(4), log);
    NextMark(4);
    Typed(4, First, First);
    JudgedAlready(5);
    assert MakeMove(s, b, 0, TextOf(4), true, true, false, pow).0.games == map[g := At(5)];
  }

  /** Acceptance and the five marks. */
  function Play(a: Client, b: Client, g: Game): seq<Step> {
    [SAccept(b, 0, g, true), SMove(b, 0, "7", true, true, true), SMove(a, 0, "1", true, true, true),
     SMove(b, 0, "8", true, true, true), SMove(a, 0, "2", true, true, true), SMove(b, 0, "9", true, true, false)]
  }

  function Won(a: Client, b: Client, p: Player, q: Player, i: Invitation, g: Game): State {
    Playing(a, b, p, q, i, g, At(5),
            Invited(a, b, p, q, i).log + [Sent(a, AcceptedPkt, 0, i, "")] + [Told(a, b, i, 0)] + [Told(a, b, i, 1)]
            + [Told(a, b, i, 2)] + [Told(a, b, i, 3)] + [Told(a, b, i, 4)] + [Sent(a, EndedPkt(First), 0, i, "")])
  }

  lemma PlayRuns(a: Client, b: Client, p: Player, q: Player, i: Invitation, g: Game, rest: seq<Step>, pow: int -> PosReal)
    requires a != b
    ensures RunFrom(Invited(a, b, p, q, i), Play(a, b, g) + rest, pow) == RunFrom(Won(a, b, p, q, i, g), rest, pow)
  {
    hide RunFrom, MakeMove, Accept, At, Told;
    var run := Play(a, b, g) + rest;
    var log := Invited(a, b, p, q, i).log + [Sent(a, AcceptedPkt, 0, i, "")];
    Accepting(a, b, p, q, i, g);
    StartOf();
    OneStep(Invited(a, b, p, q, i), run, Playing(a, b, p, q, i, g, At(0), log), pow);
    OneMark(a, b, p, q, i, g, 0, log, run[1..], pow);
    OneMark(a, b, p, q, i, g, 1, log + [Told(a, b, i, 0)], run[2..], pow);
    OneMark(a, b, p, q, i, g, 2, log + [Told(a, b, i, 0)] + [Told(a, b, i, 1)], run[3..], pow);
    OneMark(a, b, p, q, i, g, 3, log + [Told(a, b, i, 0)] + [Told(a, b, i, 1)] + [Told(a, b, i, 2)], run[4..], pow);
    var last := log + [Told(a, b, i, 0)] + [Told(a, b, i, 1)] + [Told(a, b, i, 2)] + [Told(a, b, i, 3)];
    LastMark(a, b, p, q, i, g, last, pow);
    OneStep(Playing(a, b, p, q, i, g, At(4), last), run[5..], Won(a, b, p, q, i, g), pow);
    assert run[1..][1..] == run[2..] && run[2..][1..] == run[3..] && run[3..][1..] == run[4..] && run[4..][1..] == run[5..];
    assert run[5..][1..] == rest;
  }

  lemma StartOf()
    ensures At(0) == NEW_GAME
  {
  }

  lemma OneMark(a: Client, b: Client, p: Player, q: Player, i: Invitation, g: Game, n: nat, log: seq<Event>, run: seq<Step>,
                pow: int -> PosReal)
    requires a != b && n < 4 && run != [] && run[0] == SMove(Mover(a, b, n), 0, TextOf(n), true, true, true)
    ensures RunFrom(Playing(a, b, p, q, i, g, At(n), log), run, pow)
         == RunFrom(Playing(a, b, p, q, i, g, At(n + 1), log + [Told(a, b, i, n)]), run[1..], pow)
  {
    hide RunFrom, MakeMove, At, Told;
    Marking(a, b, p, q, i, g, n, log, pow);
    OneStep(Playing(a, b, p, q, i, g, At(n), log), run, Playing(a, b, p, q, i, g, At(n + 1), log + [Told(a, b, i, n)]), pow);
  }

  lemma WonIs(a: Client, b: Client, p: Player, q: Player, i: Invitation, g: Game)
    requires a != b
    ensures var s := Won(a, b, p, q, i, g);
            && Active(s, b) && b in s.clients && Resolves(s, b, 0) && Lookup(s.clients[b].entries, 0) == i
            && s.invs[i].state == InvAccepted && s.invs[i].game == g && s.invs[i].ref == 2 && RoleOf(s.invs[i], b) == First
            && Opponent(s.invs[i], b) == a && s.games[g].winner == First && Linked(s, i)
            && RoleOf(s.invs[i], a) == Second
            && Contestants(s, s.invs[i]) == (q, p) && Seats(s, b, a, First) == (q, p)
  {
  }

  /** The invitation has left the lists, its game records First as the winner, and the one result
      posted, between q as first player and p, says that Second has won. */
  ghost predicate ScoredAgainstTheWinner(s: State, i: Invitation, g: Game, p: Player, q: Player) {
    && Linked(s, i) && s.invs[i].ref == 0 && s.invs[i].game == g && s.games[g].winner == First
    && Contestants(s, s.invs[i]) == (q, p) && ScoredWith(s, i, Code(Second))
  }

  lemma WonResigned(s: State, s': State, b: Client, i: Invitation, g: Game, p: Player, q: Player, pow: int -> PosReal)
    requires Linked(s, i) && IsPlayed(s.invs[i], b) && s.invs[i].game == g && s.games[g].winner == First
    requires RoleOf(s.invs[i], b) == First && RoleOf(s.invs[i], Opponent(s.invs[i], b)) == Second && p != q
    requires Seats(s, b, Opponent(s.invs[i], b), First) == (q, p) && Scores(s.log, i) == []
    requires Steps.Resigned(s, s', b, i, true, pow) && Linked(s', i) && Contestants(s', s'.invs[i]) == (q, p)
    ensures ScoredAgainstTheWinner(s', i, g, p, q)
  {
    hide Rated, Scores;
    var d := Opponent(s.invs[i], b);
    var packet := Sent(d, ResignedPkt, IdOf(s.clients[d].entries, i), i, "");
    var score := Scored(i, q, p, Code(Second));
    assert [packet] + [score] == [packet, score];
    ResultsOne(s, s', i, [packet], score);
  }

  lemma WonThenResigned(a: Client, b: Client, p: Player, q: Player, i: Invitation, g: Game, pow: int -> PosReal)
    requires a != b && p != q && CoreInv(Won(a, b, p, q, i, g)) && Fair(Won(a, b, p, q, i, g), pow)
    ensures var s := Won(a, b, p, q, i, g);
            Resolves(s, b, 0) && ScoredAgainstTheWinner(Sessions.Resign(s, b, 0, true, pow).0, i, g, p, q)
  {
    hide CoreInv, Fair, Refs, Won, Sessions.Resign, Touches, Rated, Scores, ScoredAgainstTheWinner, Steps.Resigned;
    WonIs(a, b, p, q, i, g);
    var s := Won(a, b, p, q, i, g);
    var s' := Sessions.Resign(s, b, 0, true, pow).0;
    ResignKeeps(s, b, 0, true, pow);
    CoreRefs(s');
    TouchedEnds(s, s', i);
    RefsAt(s', i);
    SameContestants(s, s', i);
    NothingYet(s, i, pow);
    WonResigned(s, s', b, i, g, p, q, pow);
  }

  /** The documentation has the result of a game posted for its winner.  In this run the winner's
      ENDED packet is lost and the winner resigns: the invitation leaves the lists, the game goes on
      recording the winner, and the one result posted is the other's win. */
  lemma WinnerResigns(a: Client, b: Client, p: Player, q: Player, i: Invitation, g: Game, pow: int -> PosReal)
    requires a != b && p.name != q.name && p.name != "" && q.name != ""
    ensures var r := RunFrom(INITIAL, Meeting(a, b, p, q, i) + (Play(a, b, g) + [SResign(b, 0, true)]), pow);
            r.Some? && ScoredAgainstTheWinner(r.value, i, g, p, q)
  {
    hide RunFrom, Meeting, Play, Won, CoreInv, Sessions.Resign, Fair, ScoredAgainstTheWinner;
    var s := Won(a, b, p, q, i, g);
    WonReached(a, b, p, q, i, g, [SResign(b, 0, true)], pow);
    WonIs(a, b, p, q, i, g);
    LastStep(s, SResign(b, 0, true), Sessions.Resign(s, b, 0, true, pow).0, pow);
    WonThenResigned(a, b, p, q, i, g, pow);
  }

  /* ---------- a move after the end ---------- */

  const BOARD_6: Board := [Second, Second, Second, NullRole, NullRole, NullRole, First, First, First]
  const BOARD_7: Board := [Second, Second, NullRole, Second, NullRole, NullRole, First, First, First]

  /** The second player completes the top row, which comes before the bottom row in the scan. */
  lemma TopRow()
    ensures CanApply(At(5), 2, Second) && Apply(At(5), 2, Second) == GameRec(BOARD_6, First, Second, true, 1)
    ensures TakesOver(At(5), 2, Second)
  {
    var b: Board := At(5).board[2 := Second];
    assert b == BOARD_6;
    assert LineOf(b, 0) == Second;
    assert FirstLineFrom(b, 0) == Second;
  }

  /** The second player marks a cell that completes nothing. */
  lemma OtherCell()
    ensures CanApply(At(5), 3, Second) && Apply(At(5), 3, Second) == GameRec(BOARD_7, First, First, true, 1)
  {
    var b: Board := At(5).board[3 := Second];
    assert b == BOARD_7;
    assert LineOf(b, 0) == NullRole && LineOf(b, 1) == NullRole && LineOf(b, 2) == First;
    assert FirstLineFrom(b, 2) == First;
    assert FirstLineFrom(b, 1) == First;
  }

  /** The invitation has left the lists after its game, won by First, has been overwritten: it records
      Second, and so says the one result posted. */
  ghost predicate Overwritten(s: State, s': State, i: Invitation, g: Game, p: Player, q: Player) {
    && g in s.games && s.games[g].over && s.games[g].winner == First
    && Linked(s', i) && s'.invs[i].ref == 0 && s'.invs[i].game == g && s'.games[g].winner == Second
    && Contestants(s', s'.invs[i]) == (q, p) && ScoredWith(s', i, Code(Second))
  }

  lemma LegalAfterEnd(a: Client, b: Client, p: Player, q: Player, i: Invitation, g: Game)
    requires a != b
    ensures var s := Won(a, b, p, q, i, g);
            && Active(s, a) && a in s.clients && Resolves(s, a, 0) && Lookup(s.clients[a].entries, 0) == i && Linked(s, i)
            && s.invs[i].game == g && IsPlayed(s.invs[i], a) && s.games[g] == At(5) && s.games[g].over
            && RoleOf(s.invs[i], a) == Second && Seats(s, a, b, Second) == (q, p) && Opponent(s.invs[i], a) == b
            && LegalMove(s, a, i, "3") == Some(GameMove(2, Second))
  {
    hide ParseMove, At, Told, Apply, TakesOver, StateText;
    EndIs();
    TopRow();
    ParseIsExact(Second, Second, "3");
  }

  lemma EndIs()
    ensures At(5) == GameRec(BOARD_5, Second, First, true, 1)
  {
  }

  lemma WonThenMoved(a: Client, b: Client, p: Player, q: Player, i: Invitation, g: Game, pow: int -> PosReal)
    requires a != b && p != q && CoreInv(Won(a, b, p, q, i, g)) && Fair(Won(a, b, p, q, i, g), pow)
    ensures var (s, t) := (Won(a, b, p, q, i, g), SMove(a, 0, "3", true, true, true));
            && Enabled(s, t) && Ready(s, t) && Honest(s, t) && !Harmless(s, t)
            && Overwritten(s, Next(s, t, pow), i, g, p, q)
  {
    hide CoreInv, Fair, Refs, Won, MakeMove, Touches, Rated, Scores, Overwritten, Moved, At, Apply, TakesOver, LegalMove, Lookup;
    var s := Won(a, b, p, q, i, g);
    WonIs(a, b, p, q, i, g);
    LegalAfterEnd(a, b, p, q, i, g);
    TopRow();
    var s' := MakeMove(s, a, 0, "3", true, true, true, pow).0;
    MoveKeeps(s, a, 0, "3", true, true, true, pow);
    CoreRefs(s');
    TouchedEnds(s, s', i);
    RefsAt(s', i);
    SameContestants(s, s', i);
    NothingYet(s, i, pow);
    MovedOver(s, s', a, i, g, p, q, Apply(At(5), 2, Second), pow);
  }

  lemma MovedOver(s: State, s': State, a: Client, i: Invitation, g: Game, p: Player, q: Player, g1: GameRec, pow: int -> PosReal)
    requires Linked(s, i) && IsPlayed(s.invs[i], a) && s.invs[i].game == g && s.games[g].over && s.games[g].winner == First
    requires RoleOf(s.invs[i], a) == Second && p != q && g1.over && g1.winner == Second
    requires Seats(s, a, Opponent(s.invs[i], a), Second) == (q, p) && Scores(s.log, i) == []
    requires Moved(s, s', a, 0, i, g1, true, true, true, pow) && Linked(s', i) && Contestants(s', s'.invs[i]) == (q, p)
    ensures Overwritten(s, s', i, g, p, q)
  {
    hide Rated, Scores, MoveNotes;
    var notes := MoveNotes(s, a, i, 0, g1, true, true, true);
    NotesArePackets(s, a, i, 0, g1, true, true, true);
    var score := Scored(i, q, p, Code(Second));
    assert s.log + notes + [score] == s.log + (notes + [score]);
    ResultsOne(s, s', i, notes, score);
  }

  /** What the run up to the end of the game gives. */
  lemma WonReached(a: Client, b: Client, p: Player, q: Player, i: Invitation, g: Game, rest: seq<Step>, pow: int -> PosReal)
    requires a != b && p.name != q.name && p.name != "" && q.name != ""
    ensures CoreInv(Won(a, b, p, q, i, g)) && Fair(Won(a, b, p, q, i, g), pow)
    ensures RunFrom(INITIAL, Meeting(a, b, p, q, i) + (Play(a, b, g) + rest), pow) == RunFrom(Won(a, b, p, q, i, g), rest, pow)
  {
    hide RunFrom, Meeting, Play, Won, CoreInv, Fair;
    var (run, s) := (Meeting(a, b, p, q, i) + Play(a, b, g), Won(a, b, p, q, i, g));
    MeetingRuns(a, b, p, q, i, Play(a, b, g), pow);
    PlayRuns(a, b, p, q, i, g, [], pow);
    NoSteps(s, pow);
    assert Play(a, b, g) + [] == Play(a, b, g);
    EveryRun(run, pow);
    InitialFair(pow);
    InitialCore();
    FairRunFrom(INITIAL, run, pow);
    MeetingRuns(a, b, p, q, i, Play(a, b, g) + rest, pow);
    PlayRuns(a, b, p, q, i, g, rest, pow);
  }

  /** The documentation makes a move in a game that is not in progress an error.  In this run the
      winner's ENDED packet is lost and the other player moves once more: the move completes an
      earlier line of the scan, and the game that First had won is recorded and scored as Second's. */
  lemma LoserMovesOn(a: Client, b: Client, p: Player, q: Player, i: Invitation, g: Game, pow: int -> PosReal)
    requires a != b && p.name != q.name && p.name != "" && q.name != ""
    ensures RunFrom(INITIAL, Meeting(a, b, p, q, i) + (Play(a, b, g) + []), pow) == Some(Won(a, b, p, q, i, g))
    ensures var r := RunFrom(INITIAL, Meeting(a, b, p, q, i) + (Play(a, b, g) + [SMove(a, 0, "3", true, true, true)]), pow);
            r.Some? && Overwritten(Won(a, b, p, q, i, g), r.value, i, g, p, q)
  {
    hide RunFrom, Meeting, Play, Won, CoreInv, Fair, Next, Overwritten, Honest, Harmless;
    var (s, t) := (Won(a, b, p, q, i, g), SMove(a, 0, "3", true, true, true));
    WonReached(a, b, p, q, i, g, [], pow);
    NoSteps(s, pow);
    WonReached(a, b, p, q, i, g, [t], pow);
    WonThenMoved(a, b, p, q, i, g, pow);
    LastStep(s, t, Next(s, t, pow), pow);
  }

  /* ---------- a move after the opponent has left ---------- */

  /** The winner has left, and the RESIGNED packet was not sent: the invitation is closed and still in
      both lists. */
  function Abandoned(a: Client, b: Client, p: Player, q: Player, i: Invitation, g: Game): State {
    State(map[a := ClientRec(2, p, true, [Entry(0, i)]), b := ClientRec(1, q, false, [Entry(0, i)])], [a],
          map[i := InvRec(InvClosed, 2, a, b, g, Second, First)], map[g := At(5)],
          map[p := PlayerRec(2, INITIAL_RATING), q := PlayerRec(1, INITIAL_RATING)], [p, q], Won(a, b, p, q, i, g).log)
  }

  lemma Abandoning(a: Client, b: Client, p: Player, q: Player, i: Invitation, g: Game, pow: int -> PosReal)
    requires a != b && p != q
    ensures Known(Won(a, b, p, q, i, g), b) && Exit(Won(a, b, p, q, i, g), b, {i}, pow) == Abandoned(a, b, p, q, i, g)
  {
    hide Told;
    var s := Won(a, b, p, q, i, g);
    var s1 := Sessions.Resign(s, b, 0, false, pow).0;
    assert s1 == s.(invs := s.invs[i := s.invs[i].(state := InvClosed)]) by { UnsentResign(a, b, p, q, i, g, pow); }
    assert [Entry(0, i)][1..] == [];
    assert LogoutAll(s1, b, [], {i}, pow) == s1;
    assert LogoutAll(s, b, [Entry(0, i)], {i}, pow) == s1;
    assert FindClient([a, b], b) == 1;
    assert Left([a, b], b) == [a];
  }

  lemma UnsentResign(a: Client, b: Client, p: Player, q: Player, i: Invitation, g: Game, pow: int -> PosReal)
    requires a != b && p != q
    ensures var s := Won(a, b, p, q, i, g);
            && Resolves(s, b, 0)
            && Sessions.Resign(s, b, 0, false, pow).0 == s.(invs := s.invs[i := s.invs[i].(state := InvClosed)])
  {
    hide Told;
    var s := Won(a, b, p, q, i, g);
    assert s.games[g := At(5)] == s.games;
  }

  /** A client that only an invitation closed in both lists leads to, and a legal move of the other end:
      the removals that follow do not spare the client. */
  ghost predicate MoveReleases(s: State, a: Client, b: Client, i: Invitation, text: string, pow: int -> PosReal) {
    && Active(s, a) && Resolves(s, a, 0) && Lookup(s.clients[a].entries, 0) == i && Linked(s, i)
    && s.invs[i].game != null && IsPlayed(s.invs[i], a) && b == Opponent(s.invs[i], a)
    && s.invs[i].state == InvClosed && LegalMove(s, a, i, text).Some?
    && var g1 := Apply(s.games[s.invs[i].game], LegalMove(s, a, i, text).value.cell, RoleOf(s.invs[i], a));
       g1.over && !LiveThroughRemovals(BeforeRemovals(s, a, 0, i, g1, pow), a, b, i)
  }

  lemma AbandonedIs(a: Client, b: Client, p: Player, q: Player, i: Invitation, g: Game)
    requires a != b && p != q
    ensures var s := Abandoned(a, b, p, q, i, g);
            && Active(s, a) && Resolves(s, a, 0) && Lookup(s.clients[a].entries, 0) == i && Linked(s, i) && i in s.invs
            && s.invs[i].game == g && IsPlayed(s.invs[i], a) && b == Opponent(s.invs[i], a) && s.invs[i].state == InvClosed
            && s.invs[i].ref == 2 && s.games[g] == At(5) && RoleOf(s.invs[i], a) == Second
            && Held(s, a, i) && Held(s, b, i) && !OtherwiseReached(s, b, i)
  {
    hide Told, At;
    var s := Abandoned(a, b, p, q, i, g);
    assert s.clients[a].entries[0].inv == i && s.clients[b].entries[0].inv == i;
    assert Entry(0, i) in s.clients[a].entries && Entry(0, i) in s.clients[b].entries;
  }

  lemma AbandonedMove(a: Client, b: Client, p: Player, q: Player, i: Invitation, g: Game, pow: int -> PosReal)
    requires a != b && p != q && CoreInv(Abandoned(a, b, p, q, i, g))
    ensures MoveReleases(Abandoned(a, b, p, q, i, g), a, b, i, "4", pow)
  {
    hide CoreInv, Refs, Abandoned, Apply, CanApply, ParseMove, At, LiveThroughRemovals, OtherwiseReached, Held;
    var s := Abandoned(a, b, p, q, i, g);
    AbandonedIs(a, b, p, q, i, g);
    CoreRefs(s);
    RefsAt(s, i);
    EndIs();
    OtherCell();
    ParseIsExact(Second, Second, "4");
    var g1 := Apply(At(5), 3, Second);
    MoveReleasesExactly(s, a, 0, i, g1, pow);
  }

  /** In this run the winner's ENDED packet is lost, the winner leaves with the RESIGNED packet lost,
      and the other player moves once more with everything sent.  client_make_move does not look at the
      state of the invitation: the second of its removals drops the last reference to the winner's
      client, and then gives back an ID in that client's pool. */
  lemma LoserOutlastsWinner(a: Client, b: Client, p: Player, q: Player, i: Invitation, g: Game, pow: int -> PosReal)
    requires a != b && p.name != q.name && p.name != "" && q.name != ""
    ensures RunFrom(INITIAL, Meeting(a, b, p, q, i) + (Play(a, b, g) + [SExit(b, {i})]), pow) == Some(Abandoned(a, b, p, q, i, g))
    ensures Enabled(Abandoned(a, b, p, q, i, g), SMove(a, 0, "4", true, true, true))
    ensures MoveReleases(Abandoned(a, b, p, q, i, g), a, b, i, "4", pow)
  {
    hide RunFrom, Meeting, Play, Won, CoreInv, Fair, Exit, Abandoned, MoveReleases;
    var t := SExit(b, {i});
    WonReached(a, b, p, q, i, g, [t], pow);
    WonIs(a, b, p, q, i, g);
    Abandoning(a, b, p, q, i, g, pow);
    LastStep(Won(a, b, p, q, i, g), t, Abandoned(a, b, p, q, i, g), pow);
    EveryRun(Meeting(a, b, p, q, i) + (Play(a, b, g) + [t]), pow);
    AbandonedMove(a, b, p, q, i, g, pow);
    AbandonedIs(a, b, p, q, i, g);
  }
}
