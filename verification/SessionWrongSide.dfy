/** What becomes of an invitation that was closed without leaving the lists. */
module WrongSide {
  import opened Basics
  import opened Games
  import opened Clients
  import opened Sessions
  import opened References
  import opened Steps
  import opened Joining
  import opened Leaving
  import opened Runs

  /** Closed without a game, and still in a list. */
  predicate Stuck(s: State, i: Invitation) {
    i in s.invs && s.invs[i].state == InvClosed && s.invs[i].game == null && s.invs[i].ref > 0
  }

  predicate StaysStuck(s: State, s': State, i: Invitation)
    requires i in s.invs
  {
    Stuck(s', i) && s'.invs[i] == s.invs[i]
  }

  lemma NotAbout(s: State, s': State, i: Invitation, j: Invitation)
    requires Stuck(s, i) && Only(s, s', j) && j != i
    ensures StaysStuck(s, s', i)
  {
    assert SameInv(s, s', i);
  }

  lemma TouchesOnly(s: State, s': State, j: Invitation)
    requires Touches(s, s', j)
    ensures Only(s, s', j)
  {
  }

  lemma RevokeLeavesStuck(s: State, c: Client, id: int, ok: bool, i: Invitation)
    requires CoreInv(s) && c in s.clients && Resolves(s, c, id) && Stuck(s, i)
    ensures StaysStuck(s, Revoke(s, c, id, ok).0, i)
  {
    hide CoreInv, Only, Touches, Revoke;
    RevokeKeeps(s, c, id, ok);
    RequestResolves(s, c, id);
    var j := Lookup(s.clients[c].entries, id);
    if j != null && CanClose(s.invs[j], NullRole) {
      TouchesOnly(s, Revoke(s, c, id, ok).0, j);
      NotAbout(s, Revoke(s, c, id, ok).0, i, j);
    }
  }

  lemma DeclineLeavesStuck(s: State, c: Client, id: int, ok: bool, i: Invitation)
    requires CoreInv(s) && c in s.clients && Resolves(s, c, id) && Stuck(s, i)
    ensures StaysStuck(s, Decline(s, c, id, ok).0, i)
  {
    hide CoreInv, Only, Touches, Decline;
    DeclineKeeps(s, c, id, ok);
    RequestResolves(s, c, id);
    var j := Lookup(s.clients[c].entries, id);
    if j != null && CanClose(s.invs[j], NullRole) {
      TouchesOnly(s, Decline(s, c, id, ok).0, j);
      NotAbout(s, Decline(s, c, id, ok).0, i, j);
    }
  }

  lemma ResignLeavesStuck(s: State, c: Client, id: int, ok: bool, i: Invitation, pow: int -> PosReal)
    requires CoreInv(s) && c in s.clients && Resolves(s, c, id) && Stuck(s, i)
    ensures StaysStuck(s, Sessions.Resign(s, c, id, ok, pow).0, i)
  {
    hide CoreInv, Only, Touches, Sessions.Resign, Resigned;
    ResignKeeps(s, c, id, ok, pow);
    RequestResolves(s, c, id);
    var j := Lookup(s.clients[c].entries, id);
    if j != null && s.invs[j].state == InvAccepted {
      TouchesOnly(s, Sessions.Resign(s, c, id, ok, pow).0, j);
      NotAbout(s, Sessions.Resign(s, c, id, ok, pow).0, i, j);
    }
  }

  lemma MoveLeavesStuck(s: State, c: Client, id: int, text: string, ok1: bool, ok2: bool, ok3: bool, i: Invitation, pow: int -> PosReal)
    requires CoreInv(s) && c in s.clients && Resolves(s, c, id) && Stuck(s, i)
    ensures StaysStuck(s, MakeMove(s, c, id, text, ok1, ok2, ok3, pow).0, i)
  {
    hide CoreInv, Only, Touches, MakeMove, Moved, Apply;
    MoveKeeps(s, c, id, text, ok1, ok2, ok3, pow);
    RequestResolves(s, c, id);
    var j := Lookup(s.clients[c].entries, id);
    var s' := MakeMove(s, c, id, text, ok1, ok2, ok3, pow).0;
    if s' != s {
      TouchesOnly(s, s', j);
      NotAbout(s, s', i, j);
    }
  }

  lemma AcceptLeavesStuck(s: State, c: Client, id: int, g: Game, ok: bool, i: Invitation)
    requires CoreInv(s) && c in s.clients && Resolves(s, c, id) && g !in s.games && Stuck(s, i)
    ensures StaysStuck(s, Accept(s, c, id, g, ok).0, i)
  {
    hide CoreInv, Accept;
    AcceptIs(s, c, id, g, ok);
  }

  lemma InviteLeavesStuck(s: State, c: Client, name: string, role: Role, j: Invitation, ok: bool, i: Invitation)
    requires CoreInv(s) && Active(s, c) && s.clients[c].player != null && j !in s.invs && Stuck(s, i)
    ensures StaysStuck(s, Invite(s, c, name, role, j, ok).0, i)
  {
    hide CoreInv, Only, Invite, SamePeople;
    InviteKeeps(s, c, name, role, j, ok);
    if Invite(s, c, name, role, j, ok).0 != s {
      NotAbout(s, Invite(s, c, name, role, j, ok).0, i, j);
    }
  }

  lemma TurnLeavesStuck(s: State, c: Client, e: Entry, lost: set<Invitation>, i: Invitation, pow: int -> PosReal)
    requires CoreInv(s) && Stuck(s, i) && c in s.clients && e.inv in s.invs && Resolves(s, c, e.id)
    ensures StaysStuck(s, LogoutOne(s, c, e, lost, pow), i)
  {
    hide CoreInv, Stuck, StaysStuck, Revoke, Decline, Sessions.Resign;
    ResignLeavesStuck(s, c, e.id, e.inv !in lost, i, pow);
    RevokeLeavesStuck(s, c, e.id, e.inv !in lost, i);
    DeclineLeavesStuck(s, c, e.id, e.inv !in lost, i);
  }

  lemma {:induction false} LoopLeavesStuck(s: State, c: Client, orig: seq<Entry>, todo: seq<Entry>, lost: set<Invitation>, i: Invitation, pow: int -> PosReal)
    requires CoreInv(s) && Stuck(s, i) && c in s.clients && Distinct(orig)
    requires forall x <- s.clients[c].entries :: x in orig
    requires forall e <- todo :: e in orig && e.inv in s.invs
    requires Pending(s, c, todo)
    ensures StaysStuck(s, LogoutAll(s, c, todo, lost, pow), i)
    decreases |todo|
  {
    hide CoreInv, SamePeople, Pending, Spared, Shrinks, TurnDone, ClosesOnly, LogoutOne, Distinct, Sole;
    if todo != [] {
      var e := todo[0];
      SoleIn(s.clients[c].entries, orig, e);
      RequestResolves(s, c, e.id);
      EntriesKnown(s, c);
      var s1 := LogoutOne(s, c, e, lost, pow);
      LogoutOneKeeps(s, c, e, lost, pow);
      PendingNext(s, s1, c, todo);
      AfterTurn(s, s1, c, e.inv, orig);
      TurnLeavesStuck(s, c, e, lost, i, pow);
      LoopLeavesStuck(s1, c, orig, todo[1..], lost, i, pow);
    }
  }

  lemma ExitLeavesStuck(s: State, c: Client, lost: set<Invitation>, i: Invitation, pow: int -> PosReal)
    requires CoreInv(s) && Stuck(s, i) && c in s.registry && Known(s, c)
    requires s.clients[c].loggedIn <==> s.clients[c].player != null
    ensures StaysStuck(s, Exit(s, c, lost, pow), i)
  {
    hide CoreInv, Exit, SamePeople, Pending, LogoutAll;
    ExitKeeps(s, c, lost, pow);
    if s.clients[c].loggedIn {
      EntriesKnown(s, c);
      PendingAll(s, c);
      LoopLeavesStuck(s, c, s.clients[c].entries, s.clients[c].entries, lost, i, pow);
    }
  }

  lemma NextLeavesStuck(s: State, t: Step, i: Invitation, pow: int -> PosReal)
    requires CoreInv(s) && Stuck(s, i) && Enabled(s, t) && Ready(s, t)
    ensures StaysStuck(s, Next(s, t, pow), i)
  {
    hide CoreInv, Revoke, Decline, Accept, Sessions.Resign, MakeMove, Exit, Invite;
    match t
    case SConnect(c) =>
    case SLogin(c, p) =>
    case SInvite(c, name, role, j, ok) => InviteLeavesStuck(s, c, name, role, j, ok, i);
    case SRevoke(c, id, ok) => RevokeLeavesStuck(s, c, id, ok, i);
    case SDecline(c, id, ok) => DeclineLeavesStuck(s, c, id, ok, i);
    case SAccept(c, id, g, ok) => AcceptLeavesStuck(s, c, id, g, ok, i);
    case SResign(c, id, ok) => ResignLeavesStuck(s, c, id, ok, i, pow);
    case SMove(c, id, text, ok1, ok2, ok3) => MoveLeavesStuck(s, c, id, text, ok1, ok2, ok3, i, pow);
    case SExit(c, lost) =>
      RegisteredClient(s, c);
      ExitLeavesStuck(s, c, lost, i, pow);
  }

  /** Once an invitation without a game is closed and yet in a list, no run takes it out again; so
      its clients are never released. */
  lemma {:induction false} StuckForEver(s: State, steps: seq<Step>, i: Invitation, pow: int -> PosReal)
    requires CoreInv(s) && Stuck(s, i)
    ensures RunFrom(s, steps, pow).Some? ==>
              var s' := RunFrom(s, steps, pow).value;
              && StaysStuck(s, s', i)
              && s.invs[i].source in s'.clients && s'.clients[s.invs[i].source].ref > 0
              && s.invs[i].target in s'.clients && s'.clients[s.invs[i].target].ref > 0
    decreases |steps|
  {
    hide CoreInv, Next;
    if steps == [] {
      EndsAreHeld(s, i);
    } else if Enabled(s, steps[0]) && Ready(s, steps[0]) {
      var s1 := Next(s, steps[0], pow);
      NextKeeps(s, steps[0], pow);
      NextLeavesStuck(s, steps[0], i, pow);
      StuckForEver(s1, steps[1..], i, pow);
    }
  }

  lemma EndsAreHeld(s: State, i: Invitation)
    requires CoreInv(s) && Stuck(s, i)
    ensures s.invs[i].source in s.clients && s.clients[s.invs[i].source].ref > 0
    ensures s.invs[i].target in s.clients && s.clients[s.invs[i].target].ref > 0
  {
    hide CoreInv;
    ReleasedExactly(s);
    LinkedInCore(s, i);
  }

  lemma LinkedInCore(s: State, i: Invitation)
    requires CoreInv(s) && i in s.invs
    ensures Linked(s, i)
  {
  }
}
