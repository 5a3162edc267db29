/** Whether a finished game keeps the outcome with which it first ended, and is scored with it. */
module Outcomes {
  import opened Basics
  import opened Games
  import opened Clients
  import opened Sessions
  import opened References
  import opened Steps
  import opened Joining
  import opened Leaving
  import opened Runs
  import opened Lifecycle
  import opened Stories
  import opened Winners

  /* ---------- the games of a state ---------- */

  /** The game of an invitation, if it has one, is judged as game_is_over judges it unless it was
      resigned, and it is over once the invitation has left the lists. */
  ghost predicate JudgedGame(s: State, i: Invitation)
    requires i in s.invs
  {
    var r := s.invs[i];
    r.game != null ==> r.game in s.games && Judged(s.games[r.game]) && (r.ref <= 0 ==> s.games[r.game].over)
  }

  ghost predicate GamesJudged(s: State) {
    forall i <- s.invs :: JudgedGame(s, i)
  }

  /** Whether the game of an invitation is over. */
  predicate Over(s: State, i: Invitation) {
    i in s.invs && s.invs[i].game != null && s.invs[i].game in s.games && s.games[s.invs[i].game].over
  }

  predicate KeepsOutcome(s: State, s': State, i: Invitation) {
    Over(s, i) ==> Over(s', i) && s'.games[s'.invs[i].game].winner == s.games[s.invs[i].game].winner
  }

  /** Every finished game stays finished with the same winner. */
  ghost predicate KeepsAll(s: State, s': State) {
    forall i <- s.invs :: KeepsOutcome(s, s', i)
  }

  lemma OnlyOutcome(s: State, s': State, i: Invitation)
    requires GamesJudged(s) && Only(s, s', i) && i in s'.invs && JudgedGame(s', i)
    requires forall j <- s'.invs :: j in s.invs || j == i
    ensures GamesJudged(s')
    ensures KeepsAll(s, s') <==> KeepsOutcome(s, s', i)
  {
    hide Judged;
    forall j <- s'.invs | j != i
      ensures JudgedGame(s', j) && KeepsOutcome(s, s', j)
    {
      assert JudgedGame(s, j) && SameInv(s, s', j);
    }
  }

  /** A step that leaves invitations and games alone. */
  lemma SameOutcome(s: State, s': State)
    requires GamesJudged(s) && s'.invs == s.invs && s'.games == s.games
    ensures GamesJudged(s') && KeepsAll(s, s')
  {
    hide Judged;
    forall j <- s'.invs
      ensures JudgedGame(s', j)
    {
      assert JudgedGame(s, j);
    }
  }

  lemma GameOf(s: State, i: Invitation)
    requires GamesJudged(s) && i in s.invs
    ensures JudgedGame(s, i)
  {
  }

  /** Its reference count is no part of a game's judgement. */
  lemma JudgedRef(g: GameRec, n: int)
    ensures Judged(g.(ref := n)) <==> Judged(g)
  {
  }

  /* ---------- what resigning and moving do to a finished game ---------- */

  /** Resigning changes the outcome of a finished game exactly when it was drawn. */
  predicate HarmlessResign(s: State, i: Invitation) {
    Over(s, i) && s.invs[i].state == InvAccepted ==> s.games[s.invs[i].game].winner != NullRole
  }

  /** A legal move changes the outcome of a finished game exactly when it takes over. */
  ghost predicate HarmlessMove(s: State, c: Client, i: Invitation, text: string)
    requires Linked(s, i) && s.invs[i].game != null
  {
    var (g, m) := (s.games[s.invs[i].game], LegalMove(s, c, i, text));
    g.over && m.Some? ==> !TakesOver(g, m.value.cell, RoleOf(s.invs[i], c))
  }

  lemma ResignedGame(s: State, s': State, c: Client, i: Invitation, ok: bool, pow: int -> PosReal)
    requires Linked(s, i) && JudgedGame(s, i) && InvOk(s, i) && IsPlayed(s.invs[i], c) && s.invs[i].game != null
    requires s.invs[i].state == InvAccepted && Steps.Resigned(s, s', c, i, ok, pow)
    ensures i in s'.invs && JudgedGame(s', i) && (KeepsOutcome(s, s', i) <==> HarmlessResign(s, i))
  {
    hide Judged, Rated, Held;
    var (g, role) := (s.games[s.invs[i].game], RoleOf(s.invs[i], c));
    ResignJudged(g, role);
    JudgedRef(ResignBy(g, role), s'.games[s.invs[i].game].ref);
    ResignWinner(g, role);
  }

  lemma ResignWinner(g: GameRec, role: Role)
    requires role != NullRole && Judged(g)
    ensures ResignBy(g, role).over
    ensures ResignBy(g, role).winner == g.winner <==> g.winner != NullRole
  {
  }

  lemma MovedGame(s: State, s': State, c: Client, id: int, i: Invitation, text: string,
                  ok1: bool, ok2: bool, ok3: bool, pow: int -> PosReal)
    requires Linked(s, i) && JudgedGame(s, i) && InvOk(s, i) && IsPlayed(s.invs[i], c) && s.invs[i].game != null
    requires LegalMove(s, c, i, text).Some?
    requires var g1 := Apply(s.games[s.invs[i].game], LegalMove(s, c, i, text).value.cell, RoleOf(s.invs[i], c));
             Moved(s, s', c, id, i, g1, ok1, ok2, ok3, pow)
    ensures i in s'.invs && JudgedGame(s', i) && (KeepsOutcome(s, s', i) <==> HarmlessMove(s, c, i, text))
  {
    hide Judged, Rated, Held, MoveNotes, Apply, CanApply, LegalMove, TakesOver;
    var (g, cell, role) := (s.games[s.invs[i].game], LegalMove(s, c, i, text).value.cell, RoleOf(s.invs[i], c));
    LegalIs(s, c, i, text);
    ApplyJudged(g, cell, role);
    JudgedRef(Apply(g, cell, role), s'.games[s.invs[i].game].ref);
    if g.over {
      OverWithRoom(g, cell, role);
      MoveAfterEnd(g, cell, role);
    }
  }

  lemma LegalIs(s: State, c: Client, i: Invitation, text: string)
    requires Linked(s, i) && s.invs[i].game != null && LegalMove(s, c, i, text).Some?
    ensures LegalMove(s, c, i, text).value.cell < 9
    ensures CanApply(s.games[s.invs[i].game], LegalMove(s, c, i, text).value.cell, RoleOf(s.invs[i], c))
  {
  }

  /** A finished game that takes a move was won by a line. */
  lemma OverWithRoom(g: GameRec, cell: nat, role: Role)
    requires Judged(g) && g.over && cell < 9 && role != NullRole && CanApply(g, cell, role)
    ensures g.winner == FirstLineFrom(g.board, 0) && g.winner != NullRole
  {
  }

  /* ---------- every operation ---------- */

  lemma RevokeOutcome(s: State, c: Client, id: int, ok: bool)
    requires CoreInv(s) && GamesJudged(s) && c in s.clients && Resolves(s, c, id)
    ensures GamesJudged(Revoke(s, c, id, ok).0) && KeepsAll(s, Revoke(s, c, id, ok).0)
  {
    hide CoreInv, GamesJudged, KeepsAll, Only, SamePeople, Shrinks, Revoke, InvOk, HeldOk, Held, Lookup, IdOf;
    RevokeKeeps(s, c, id, ok);
    RequestResolves(s, c, id);
    var i := Lookup(s.clients[c].entries, id);
    if i == null || !CanClose(s.invs[i], NullRole) {
      SameOutcome(s, s);
    } else {
      OnlyOutcome(s, Revoke(s, c, id, ok).0, i);
    }
  }

  lemma DeclineOutcome(s: State, c: Client, id: int, ok: bool)
    requires CoreInv(s) && GamesJudged(s) && c in s.clients && Resolves(s, c, id)
    ensures GamesJudged(Decline(s, c, id, ok).0) && KeepsAll(s, Decline(s, c, id, ok).0)
  {
    hide CoreInv, GamesJudged, KeepsAll, Only, SamePeople, Shrinks, Decline, InvOk, HeldOk, Held, Lookup, IdOf;
    DeclineKeeps(s, c, id, ok);
    RequestResolves(s, c, id);
    var i := Lookup(s.clients[c].entries, id);
    if i == null || !CanClose(s.invs[i], NullRole) {
      SameOutcome(s, s);
    } else {
      OnlyOutcome(s, Decline(s, c, id, ok).0, i);
    }
  }

  lemma AcceptOutcome(s: State, c: Client, id: int, g: Game, ok: bool)
    requires CoreInv(s) && GamesJudged(s) && c in s.clients && Resolves(s, c, id) && g !in s.games
    ensures GamesJudged(Accept(s, c, id, g, ok).0) && KeepsAll(s, Accept(s, c, id, g, ok).0)
  {
    hide CoreInv, Refs, GamesJudged, KeepsAll, Only, SamePeople, Accept, AcceptedStep, HeldOk, Held, Lookup, IdOf, Judged;
    AcceptKeeps(s, c, id, g, ok);
    RequestResolves(s, c, id);
    var i := Lookup(s.clients[c].entries, id);
    if i == null || s.invs[i].target != c || s.invs[i].state != InvOpen {
      SameOutcome(s, s);
    } else {
      AcceptedOutcome(s, Accept(s, c, id, g, ok).0, i, g);
    }
  }

  lemma AcceptedOutcome(s: State, s': State, i: Invitation, g: Game)
    requires GamesJudged(s) && AcceptedStep(s, s', i, g) && Only(s, s', i) && s.invs[i].ref > 0 && s.invs[i].game == null
    ensures GamesJudged(s') && KeepsAll(s, s')
  {
    hide GamesJudged, KeepsAll, Only, Judged;
    NewGameJudged();
    OnlyOutcome(s, s', i);
  }

  lemma InviteOutcome(s: State, c: Client, name: string, role: Role, i: Invitation, ok: bool)
    requires CoreInv(s) && GamesJudged(s) && Active(s, c) && s.clients[c].player != null && i !in s.invs
    ensures GamesJudged(Invite(s, c, name, role, i, ok).0) && KeepsAll(s, Invite(s, c, name, role, i, ok).0)
  {
    hide CoreInv, GamesJudged, KeepsAll, Only, SamePeople, Invite;
    InviteKeeps(s, c, name, role, i, ok);
    InviteIs(s, c, name, role, i, ok);
    var d := LookupUser(s, s.registry, name);
    if d == null || d == c || role == NullRole {
      SameOutcome(s, s);
    } else {
      OnlyOutcome(s, Invite(s, c, name, role, i, ok).0, i);
    }
  }

  lemma ResigningOutcome(s: State, c: Client, id: int, ok: bool, pow: int -> PosReal)
    requires CoreInv(s) && GamesJudged(s) && c in s.clients && Resolves(s, c, id)
    ensures var (s', i) := (Sessions.Resign(s, c, id, ok, pow).0, Lookup(s.clients[c].entries, id));
            GamesJudged(s') && (KeepsAll(s, s') <==> (i != null ==> HarmlessResign(s, i)))
  {
    hide CoreInv, GamesJudged, KeepsAll, Only, SamePeople, Shrinks, Sessions.Resign, Steps.Resigned, HeldOk, Held, Lookup, IdOf;
    ResignKeeps(s, c, id, ok, pow);
    RequestResolves(s, c, id);
    var i := Lookup(s.clients[c].entries, id);
    if i == null || s.invs[i].state != InvAccepted {
      SameOutcome(s, s);
    } else {
      GameOf(s, i);
      ResignedGame(s, Sessions.Resign(s, c, id, ok, pow).0, c, i, ok, pow);
      OnlyOutcome(s, Sessions.Resign(s, c, id, ok, pow).0, i);
    }
  }

  lemma MoveOutcome(s: State, c: Client, id: int, text: string, ok1: bool, ok2: bool, ok3: bool, pow: int -> PosReal)
    requires CoreInv(s) && GamesJudged(s) && c in s.clients && Resolves(s, c, id)
    ensures var (s', i) := (MakeMove(s, c, id, text, ok1, ok2, ok3, pow).0, Lookup(s.clients[c].entries, id));
            && GamesJudged(s')
            && (KeepsAll(s, s') <==> (i != null && s.invs[i].game != null ==> HarmlessMove(s, c, i, text)))
  {
    hide CoreInv, GamesJudged, KeepsAll, Only, SamePeople, Shrinks, MakeMove, Moved, HeldOk, Held, Lookup, IdOf, Apply, LegalMove, TakesOver;
    MoveKeeps(s, c, id, text, ok1, ok2, ok3, pow);
    RequestResolves(s, c, id);
    var i := Lookup(s.clients[c].entries, id);
    if i == null || s.invs[i].game == null || LegalMove(s, c, i, text).None? {
      SameOutcome(s, s);
    } else {
      GameOf(s, i);
      MovedGame(s, MakeMove(s, c, id, text, ok1, ok2, ok3, pow).0, c, id, i, text, ok1, ok2, ok3, pow);
      OnlyOutcome(s, MakeMove(s, c, id, text, ok1, ok2, ok3, pow).0, i);
    }
  }

  /* ---------- leaving ---------- */

  lemma TurnOutcome(s: State, c: Client, e: Entry, lost: set<Invitation>, pow: int -> PosReal)
    requires CoreInv(s) && GamesJudged(s) && c in s.clients && e in s.clients[c].entries && Sole(s.clients[c].entries, e)
    requires e.inv in s.invs && Resolves(s, c, e.id)
    ensures var s' := LogoutOne(s, c, e, lost, pow);
            GamesJudged(s') && (KeepsAll(s, s') <==> HarmlessResign(s, e.inv))
  {
    hide CoreInv, GamesJudged, KeepsAll, Revoke, Decline, Sessions.Resign, Lookup;
    var ok := e.inv !in lost;
    SoleLookup(s.clients[c].entries, e);
    RequestResolves(s, c, e.id);
    ResigningOutcome(s, c, e.id, ok, pow);
    RevokeOutcome(s, c, e.id, ok);
    DeclineOutcome(s, c, e.id, ok);
  }

  /** A turn is about its own invitation only. */
  lemma TurnKeepsOthers(s: State, s1: State, e: Entry)
    requires e.inv in s.invs && s1.invs.Keys == s.invs.Keys
    requires forall j <- s.invs :: j != e.inv ==> Spared(s, s1, j)
    ensures forall j <- s.invs :: j != e.inv ==> KeepsOutcome(s, s1, j)
    ensures KeepsAll(s, s1) <==> KeepsOutcome(s, s1, e.inv)
  {
    forall j <- s.invs | j != e.inv
      ensures KeepsOutcome(s, s1, j)
    {
      SparedOutcome(s, s1, j);
    }
  }

  lemma SparedOutcome(s: State, s': State, j: Invitation)
    requires Spared(s, s', j)
    ensures KeepsOutcome(s, s', j)
    ensures Over(s, j) ==> Over(s', j)
    ensures j in s.invs && (s.invs[j].game != null ==> s.invs[j].game in s.games) ==>
              (Over(s', j) <==> Over(s, j)) && (HarmlessResign(s', j) <==> HarmlessResign(s, j))
  {
  }

  lemma {:induction false} LoopOutcome(s: State, c: Client, orig: seq<Entry>, todo: seq<Entry>, lost: set<Invitation>, pow: int -> PosReal)
    requires CoreInv(s) && GamesJudged(s) && c in s.clients && Distinct(orig) && Distinct(todo)
    requires forall x <- s.clients[c].entries :: x in orig
    requires forall e <- todo :: e in orig && e in s.clients[c].entries && e.inv in s.invs
    requires Pending(s, c, todo)
    ensures var s' := LogoutAll(s, c, todo, lost, pow);
            && GamesJudged(s') && s'.invs.Keys == s.invs.Keys
            && (forall e <- todo :: KeepsOutcome(s, s', e.inv) <==> HarmlessResign(s, e.inv))
    decreases |todo|
  {
    hide CoreInv, GamesJudged, KeepsAll, SamePeople, Pending, LogoutOne, Spared, Shrinks, TurnDone, ClosesOnly,
         HarmlessResign, KeepsOutcome, Distinct, Sole, LogoutAll, Resolves;
    if todo == [] {
      NoTurns(s, c, lost, pow);
    } else {
      var (e0, rest) := (todo[0], todo[1..]);
      SoleIn(s.clients[c].entries, orig, e0);
      RequestResolves(s, c, e0.id);
      EntriesKnown(s, c);
      var s1 := LogoutOne(s, c, e0, lost, pow);
      OneTurn(s, c, todo, lost, pow);
      LogoutOneKeeps(s, c, e0, lost, pow);
      PendingNext(s, s1, c, todo);
      AfterTurn(s, s1, c, e0.inv, orig);
      TailsDiffer(todo);
      TurnOutcome(s, c, e0, lost, pow);
      TurnKeepsOthers(s, s1, e0);
      RestStays(s, s1, c, e0.inv, rest);
      LoopOutcome(s1, c, orig, rest, lost, pow);
      LogoutAllKeeps(s1, c, orig, rest, lost, pow);
      LoopOnward(s, s1, LogoutAll(s1, c, rest, lost, pow), e0, rest);
    }
  }

  lemma NoTurns(s: State, c: Client, lost: set<Invitation>, pow: int -> PosReal)
    ensures LogoutAll(s, c, [], lost, pow) == s
  {
  }

  lemma OneTurn(s: State, c: Client, todo: seq<Entry>, lost: set<Invitation>, pow: int -> PosReal)
    requires todo != [] && todo[0].inv in s.invs && Resolves(s, c, todo[0].id)
    ensures LogoutAll(s, c, todo, lost, pow) == LogoutAll(LogoutOne(s, c, todo[0], lost, pow), c, todo[1..], lost, pow)
  {
    hide LogoutOne, Resolves;
  }

  /** Entries that still wait for their turn are there and as they were. */
  lemma RestStays(s: State, s1: State, c: Client, i: Invitation, rest: seq<Entry>)
    requires GamesJudged(s) && c in s.clients && c in s1.clients && s1.invs.Keys == s.invs.Keys
    requires forall j <- s.invs :: j != i ==> Spared(s, s1, j)
    requires forall e <- rest :: e.inv != i && e in s.clients[c].entries && e.inv in s.invs
    ensures forall e <- rest :: e in s1.clients[c].entries && e.inv in s1.invs
    ensures forall e <- rest :: HarmlessResign(s1, e.inv) <==> HarmlessResign(s, e.inv)
  {
    hide Spared, HarmlessResign, GamesJudged, Judged;
    forall e <- rest
      ensures e in s1.clients[c].entries && e.inv in s1.invs
      ensures HarmlessResign(s1, e.inv) <==> HarmlessResign(s, e.inv)
    {
      GameOf(s, e.inv);
      SparedOutcome(s, s1, e.inv);
      CarefulLater(s, s1, c, e, {});
    }
  }

  lemma OutcomeThen(s: State, s1: State, s2: State, i: Invitation)
    requires i in s.invs && s1.invs.Keys == s.invs.Keys && Spared(s, s1, i) && (s.invs[i].game != null ==> s.invs[i].game in s.games)
    ensures KeepsOutcome(s, s2, i) <==> KeepsOutcome(s1, s2, i)
  {
  }

  lemma ThenSpared(s: State, s1: State, s2: State, i: Invitation)
    requires i in s1.invs && Spared(s1, s2, i) && (s1.invs[i].game != null ==> s1.invs[i].game in s1.games)
    ensures KeepsOutcome(s, s2, i) <==> KeepsOutcome(s, s1, i)
  {
  }

  lemma LoopOnward(s: State, s1: State, s2: State, e0: Entry, rest: seq<Entry>)
    requires GamesJudged(s) && GamesJudged(s1) && s1.invs.Keys == s.invs.Keys && e0.inv in s.invs
    requires forall j <- s.invs :: j != e0.inv ==> Spared(s, s1, j)
    requires forall j <- s1.invs :: (forall e <- rest :: e.inv != j) ==> Spared(s1, s2, j)
    requires forall e <- rest :: e.inv != e0.inv && e.inv in s.invs
    ensures KeepsOutcome(s, s2, e0.inv) <==> KeepsOutcome(s, s1, e0.inv)
    ensures forall e <- rest :: KeepsOutcome(s, s2, e.inv) <==> KeepsOutcome(s1, s2, e.inv)
  {
    hide Spared, KeepsOutcome, GamesJudged, Judged;
    GameOf(s1, e0.inv);
    ThenSpared(s, s1, s2, e0.inv);
    forall e <- rest
      ensures KeepsOutcome(s, s2, e.inv) <==> KeepsOutcome(s1, s2, e.inv)
    {
      GameOf(s, e.inv);
      OutcomeThen(s, s1, s2, e.inv);
    }
  }

  /** Every turn of a departure is harmless. */
  predicate HarmlessExit(s: State, c: Client) {
    c in s.clients && s.clients[c].loggedIn ==> forall e <- s.clients[c].entries :: HarmlessResign(s, e.inv)
  }

  lemma ExitOutcome(s: State, c: Client, lost: set<Invitation>, pow: int -> PosReal)
    requires CoreInv(s) && GamesJudged(s) && c in s.registry && Known(s, c)
    requires s.clients[c].loggedIn <==> s.clients[c].player != null
    ensures GamesJudged(Exit(s, c, lost, pow)) && (KeepsAll(s, Exit(s, c, lost, pow)) <==> HarmlessExit(s, c))
  {
    hide CoreInv, GamesJudged, Exit, LeaveStep, SamePeople, Pending, LogoutAll, HarmlessResign, KeepsOutcome, Shrinks, ClosesOnly, Spared;
    var (s1, s') := (AfterLoop(s, c, lost, pow), Exit(s, c, lost, pow));
    ExitKeeps(s, c, lost, pow);
    LoopKeeps(s, c, lost, pow);
    LeaveSame(s1, s', c);
    if s.clients[c].loggedIn {
      var es := s.clients[c].entries;
      EntriesKnown(s, c);
      PendingAll(s, c);
      LoopOutcome(s, c, es, es, lost, pow);
      forall j <- s.invs | !Held(s, c, j)
        ensures KeepsOutcome(s, s1, j)
      {
        SparedOutcome(s, s1, j);
      }
    } else {
      SameOutcome(s, s);
    }
    SameOutcome(s1, s');
    GamesSame(s, s1, s');
  }

  lemma LeaveSame(s: State, s': State, c: Client)
    requires LeaveStep(s, s', c)
    ensures s'.invs == s.invs && s'.games == s.games
  {
  }

  lemma GamesSame(s: State, s1: State, s': State)
    requires s'.invs == s1.invs && s'.games == s1.games
    ensures forall j <- s.invs :: KeepsOutcome(s, s', j) <==> KeepsOutcome(s, s1, j)
  {
  }

  /* ---------- every step ---------- */

  /** A step that resigns no drawn game and makes no move that takes a finished one over. */
  ghost predicate Harmless(s: State, t: Step)
    requires Ready(s, t)
  {
    match t
    case SResign(c, id, _) =>
      var i := Lookup(s.clients[c].entries, id);
      i != null ==> HarmlessResign(s, i)
    case SMove(c, id, text, _, _, _) =>
      var i := Lookup(s.clients[c].entries, id);
      i != null && s.invs[i].game != null ==> HarmlessMove(s, c, i, text)
    case SExit(c, _) => HarmlessExit(s, c)
    case SConnect(_) => true
    case SLogin(_, _) => true
    case SInvite(_, _, _, _, _) => true
    case SRevoke(_, _, _) => true
    case SDecline(_, _, _) => true
    case SAccept(_, _, _, _) => true
  }

  /** Whatever is sent and whichever side asks, a step keeps the winner of every finished game if and
      only if it neither resigns the accepted invitation of a drawn one nor completes, in one that
      is won, an earlier line of the scan for the other side. */
  lemma OutcomesExactly(s: State, t: Step, pow: int -> PosReal)
    requires CoreInv(s) && GamesJudged(s) && Enabled(s, t) && Ready(s, t)
    ensures GamesJudged(Next(s, t, pow))
    ensures KeepsAll(s, Next(s, t, pow)) <==> Harmless(s, t)
  {
    hide CoreInv, GamesJudged, KeepsAll, Revoke, Decline, Accept, Sessions.Resign, MakeMove, Exit, Invite,
         HarmlessResign, HarmlessMove, HarmlessExit;
    match t
    case SConnect(c) => SameOutcome(s, Connect(s, c));
    case SLogin(c, p) => SameOutcome(s, Login(s, c, p).0);
    case SInvite(c, name, role, i, ok) => InviteOutcome(s, c, name, role, i, ok);
    case SRevoke(c, id, ok) => RevokeOutcome(s, c, id, ok);
    case SDecline(c, id, ok) => DeclineOutcome(s, c, id, ok);
    case SAccept(c, id, g, ok) => AcceptOutcome(s, c, id, g, ok);
    case SResign(c, id, ok) => ResigningOutcome(s, c, id, ok, pow);
    case SMove(c, id, text, ok1, ok2, ok3) => MoveOutcome(s, c, id, text, ok1, ok2, ok3, pow);
    case SExit(c, lost) =>
      RegisteredClient(s, c);
      ExitOutcome(s, c, lost, pow);
  }

  lemma {:induction false} JudgedRunFrom(s: State, steps: seq<Step>, pow: int -> PosReal)
    requires CoreInv(s) && GamesJudged(s)
    ensures RunFrom(s, steps, pow).Some? ==> GamesJudged(RunFrom(s, steps, pow).value)
    decreases |steps|
  {
    hide CoreInv, GamesJudged, KeepsAll, Next, Harmless;
    if steps != [] && Enabled(s, steps[0]) && Ready(s, steps[0]) {
      NextKeeps(s, steps[0], pow);
      OutcomesExactly(s, steps[0], pow);
      JudgedRunFrom(Next(s, steps[0], pow), steps[1..], pow);
    }
  }

  /** In every run every unresigned game is as game_is_over judges it, and every game whose
      invitation has left the lists is over. */
  lemma JudgedRun(steps: seq<Step>, pow: int -> PosReal)
    ensures RunFrom(INITIAL, steps, pow).Some? ==> GamesJudged(RunFrom(INITIAL, steps, pow).value)
  {
    hide CoreInv, RunFrom;
    InitialCore();
    JudgedRunFrom(INITIAL, steps, pow);
  }

  /* ---------- whole runs ---------- */

  /** The outcomes with which games have first ended, after a step. */
  ghost function Record(ends: map<Invitation, Role>, s: State): map<Invitation, Role> {
    map i | i in s.invs.Keys + ends.Keys && (i in ends || Over(s, i)) ::
      if i in ends then ends[i] else s.games[s.invs[i].game].winner
  }

  /** For each invitation, the winner with which its game was first over in a run. */
  ghost function FirstEnds(s: State, steps: seq<Step>, pow: int -> PosReal, ends: map<Invitation, Role>): map<Invitation, Role>
    decreases |steps|
  {
    if steps == [] || !Enabled(s, steps[0]) || !Ready(s, steps[0]) then ends
    else FirstEnds(Next(s, steps[0], pow), steps[1..], pow, Record(ends, Next(s, steps[0], pow)))
  }

  /** The games that are over are those recorded, each with its recorded outcome. */
  ghost predicate EndsAre(s: State, ends: map<Invitation, Role>) {
    && (forall i <- ends :: Over(s, i) && ends[i] == s.games[s.invs[i].game].winner)
    && (forall i <- s.invs :: Over(s, i) ==> i in ends)
  }

  lemma EndsNext(s: State, s': State, ends: map<Invitation, Role>)
    requires EndsAre(s, ends) && KeepsAll(s, s')
    ensures EndsAre(s', Record(ends, s'))
  {
    forall i <- ends
      ensures Over(s', i) && ends[i] == s'.games[s'.invs[i].game].winner
    {
      assert KeepsOutcome(s, s', i);
    }
  }

  /** Every step of a run is honest and harmless when its turn comes. */
  ghost predicate AllFaithful(s: State, steps: seq<Step>, pow: int -> PosReal)
    decreases |steps|
  {
    steps != [] && Enabled(s, steps[0]) && Ready(s, steps[0]) ==>
      Honest(s, steps[0]) && Harmless(s, steps[0]) && AllFaithful(Next(s, steps[0], pow), steps[1..], pow)
  }

  lemma {:induction false} FaithfulFrom(s: State, steps: seq<Step>, ends: map<Invitation, Role>, pow: int -> PosReal)
    requires CoreInv(s) && GamesJudged(s) && EndsAre(s, ends) && AllFaithful(s, steps, pow)
    ensures AllHonest(s, steps, pow)
    ensures RunFrom(s, steps, pow).Some? ==>
              var s' := RunFrom(s, steps, pow).value; GamesJudged(s') && EndsAre(s', FirstEnds(s, steps, pow, ends))
    decreases |steps|
  {
    hide CoreInv, GamesJudged, EndsAre, KeepsAll, Next, Honest, Harmless, Record;
    if steps != [] && Enabled(s, steps[0]) && Ready(s, steps[0]) {
      var s1 := Next(s, steps[0], pow);
      NextKeeps(s, steps[0], pow);
      OutcomesExactly(s, steps[0], pow);
      EndsNext(s, s1, ends);
      FaithfulFrom(s1, steps[1..], Record(ends, s1), pow);
    }
  }

  lemma NoEnds()
    ensures GamesJudged(INITIAL) && EndsAre(INITIAL, map[])
  {
  }

  /** A game that was played out is scored with the outcome with which it first ended. */
  ghost predicate ScoredAsEnded(s: State, i: Invitation, ends: map<Invitation, Role>) {
    && i in s.invs && Linked(s, i)
    && if s.invs[i].game != null && s.invs[i].ref == 0 then i in ends && ScoredWith(s, i, Code(ends[i])) else Scores(s.log, i) == []
  }

  lemma PlayedOutIsOver(s: State, i: Invitation, ends: map<Invitation, Role>)
    requires GamesJudged(s) && EndsAre(s, ends) && i in s.invs && s.invs[i].game != null && s.invs[i].ref == 0
    ensures i in ends && s.invs[i].game in s.games && ends[i] == s.games[s.invs[i].game].winner
  {
    assert JudgedGame(s, i);
  }

  /** Over every run whose steps are honest and harmless, whatever is lost, the one result posted for
      an accepted invitation that has left the lists is the outcome with which its game first ended. */
  lemma FaithfulRun(steps: seq<Step>, i: Invitation, pow: int -> PosReal)
    requires RunFrom(INITIAL, steps, pow).Some? && i in RunFrom(INITIAL, steps, pow).value.invs
    requires AllFaithful(INITIAL, steps, pow)
    ensures ScoredAsEnded(RunFrom(INITIAL, steps, pow).value, i, FirstEnds(INITIAL, steps, pow, map[]))
  {
    hide CoreInv, GamesJudged, EndsAre, RunFrom, AllFaithful, AllHonest, FirstEnds, ScoredWith, Scores, Judged;
    InitialCore();
    NoEnds();
    FaithfulFrom(INITIAL, steps, map[], pow);
    HonestRun(steps, i, pow);
    var s := RunFrom(INITIAL, steps, pow).value;
    if s.invs[i].game != null && s.invs[i].ref == 0 {
      PlayedOutIsOver(s, i, FirstEnds(INITIAL, steps, pow, map[]));
    }
  }

  /* ---------- careful runs ---------- */

  lemma UnfinishedIsHarmless(s: State, i: Invitation)
    requires NoneStranded(s) && i in s.invs && s.invs[i].ref > 0
    ensures !Over(s, i) || s.invs[i].game == null || s.invs[i].state == InvOpen
  {
    hide GameInv;
    LiveOkAt(s, i);
  }

  lemma UnstrandedIsHarmless(s: State, t: Step)
    requires CoreInv(s) && NoneStranded(s) && Enabled(s, t) && Ready(s, t)
    ensures Harmless(s, t)
  {
    hide CoreInv, NoneStranded, TakesOver, LegalMove, Held, HeldOk;
    match t
    case SResign(c, id, ok) =>
      RequestResolves(s, c, id);
      var i := Lookup(s.clients[c].entries, id);
      if i != null {
        UnfinishedIsHarmless(s, i);
      }
    case SMove(c, id, text, _, _, _) =>
      RequestResolves(s, c, id);
      var i := Lookup(s.clients[c].entries, id);
      if i != null {
        UnfinishedIsHarmless(s, i);
      }
    case SExit(c, lost) =>
      if c in s.clients {
        EntriesKnown(s, c);
        forall e <- s.clients[c].entries
          ensures HarmlessResign(s, e.inv)
        {
          UnfinishedIsHarmless(s, e.inv);
        }
      }
    case _ =>
  }

  lemma {:induction false} CarefulIsFaithful(s: State, steps: seq<Step>, pow: int -> PosReal)
    requires CoreInv(s) && NoneStranded(s) && AllCareful(s, steps, pow)
    ensures AllFaithful(s, steps, pow)
    decreases |steps|
  {
    hide CoreInv, NoneStranded, Next, Careful, Honest, Harmless;
    if steps != [] {
      UnstrandedIsHonest(s, steps[0]);
      UnstrandedIsHarmless(s, steps[0]);
      NextKeeps(s, steps[0], pow);
      StrandedExactly(s, steps[0], pow);
      CarefulIsFaithful(Next(s, steps[0], pow), steps[1..], pow);
    }
  }

  /** So it is over every run of careful steps. */
  lemma CarefulOutcomes(steps: seq<Step>, i: Invitation, pow: int -> PosReal)
    requires AllCareful(INITIAL, steps, pow)
    ensures RunFrom(INITIAL, steps, pow).Some?
    ensures var s := RunFrom(INITIAL, steps, pow).value;
            i in s.invs ==> ScoredAsEnded(s, i, FirstEnds(INITIAL, steps, pow, map[]))
  {
    hide CoreInv, NoneStranded, RunFrom, AllCareful, AllFaithful, ScoredAsEnded, FirstEnds;
    InitialCore();
    InitialStories();
    CarefulRun(INITIAL, steps, pow);
    CarefulIsFaithful(INITIAL, steps, pow);
    if i in RunFrom(INITIAL, steps, pow).value.invs {
      FaithfulRun(steps, i, pow);
    }
  }
}
