/** The life of invitations: how they change over runs, and exactly when a step strands one. */
module Lifecycle {
  import opened Basics
  import opened Games
  import opened Clients
  import opened Sessions
  import opened References
  import opened Steps
  import opened Joining
  import opened Leaving
  import opened Runs

  /* ---------- how an invitation evolves ---------- */

  function Rank(st: InvState): nat {
    match st case InvOpen => 0 case InvAccepted => 1 case InvClosed => 2
  }

  /** The ends and roles never change, the state only moves on, a game appears only
      as an open invitation stops being open, and is never replaced. */
  predicate Evolves(a: InvRec, b: InvRec) {
    && a.source == b.source && a.target == b.target && a.sourceRole == b.sourceRole && a.targetRole == b.targetRole
    && Rank(a.state) <= Rank(b.state)
    && (a.game != null ==> b.game == a.game)
    && (a.game == null && b.game != null ==> a.state == InvOpen && b.state != InvOpen)
  }

  ghost predicate AllEvolve(s: State, s': State) {
    forall i <- s.invs :: i in s'.invs && Evolves(s.invs[i], s'.invs[i])
  }

  lemma OnlyEvolves(s: State, s': State, i: Invitation)
    requires Only(s, s', i) && (i in s.invs ==> Evolves(s.invs[i], s'.invs[i]))
    ensures AllEvolve(s, s')
  {
    forall j <- s.invs
      ensures j in s'.invs && Evolves(s.invs[j], s'.invs[j])
    {
      if j != i {
        assert SameInv(s, s', j);
      }
    }
  }

  /** A step that touches i and closes it at most. */
  lemma TouchEvolves(s: State, s': State, i: Invitation)
    requires Touches(s, s', i) && (s'.invs[i].state == s.invs[i].state || s'.invs[i].state == InvClosed)
    ensures AllEvolve(s, s')
  {
    hide Only;
    OnlyEvolves(s, s', i);
  }

  lemma ExitEvolves(s: State, c: Client, lost: set<Invitation>, pow: int -> PosReal)
    requires CoreInv(s) && c in s.registry && Known(s, c) && (s.clients[c].loggedIn <==> s.clients[c].player != null)
    ensures AllEvolve(s, Exit(s, c, lost, pow))
  {
    hide CoreInv, Exit, AfterLoop, SamePeople, Pending, Spared, Shrinks;
    LoopKeeps(s, c, lost, pow);
    ExitKeeps(s, c, lost, pow);
    var (s1, s') := (AfterLoop(s, c, lost, pow), Exit(s, c, lost, pow));
    forall i <- s.invs
      ensures i in s'.invs && Evolves(s.invs[i], s'.invs[i])
    {
      assert ClosesOnly(s.invs[i], s1.invs[i]);
    }
  }

  /** Every step, whatever its sends do. */
  lemma StepEvolves(s: State, t: Step, pow: int -> PosReal)
    requires CoreInv(s) && Enabled(s, t) && Ready(s, t)
    ensures AllEvolve(s, Next(s, t, pow))
  {
    hide CoreInv, Touches, Only, AllEvolve, Revoke, Decline, Accept, Sessions.Resign, MakeMove, Exit, Invite, Steps.Resigned, Moved;
    var s' := Next(s, t, pow);
    match t
    case SConnect(c) => SameEvolves(s, s');
    case SLogin(c, p) => SameEvolves(s, s');
    case SInvite(c, name, role, i, ok) =>
      InviteKeeps(s, c, name, role, i, ok);
      if s' == s { SameEvolves(s, s'); } else { OnlyEvolves(s, s', i); }
    case SRevoke(c, id, ok) =>
      RevokeKeeps(s, c, id, ok);
      if s' == s { SameEvolves(s, s'); } else { TouchEvolves(s, s', Lookup(s.clients[c].entries, id)); }
    case SDecline(c, id, ok) =>
      DeclineKeeps(s, c, id, ok);
      if s' == s { SameEvolves(s, s'); } else { TouchEvolves(s, s', Lookup(s.clients[c].entries, id)); }
    case SAccept(c, id, g, ok) => AcceptEvolves(s, c, id, g, ok);
    case SResign(c, id, ok) => ResignEvolves(s, c, id, ok, pow);
    case SMove(c, id, text, ok1, ok2, ok3) => MoveEvolves(s, c, id, text, ok1, ok2, ok3, pow);
    case SExit(c, lost) =>
      RegisteredClient(s, c);
      ExitEvolves(s, c, lost, pow);
  }

  lemma SameEvolves(s: State, s': State)
    requires s'.invs == s.invs
    ensures AllEvolve(s, s')
  {
  }

  lemma AcceptEvolves(s: State, c: Client, id: int, g: Game, ok: bool)
    requires CoreInv(s) && c in s.clients && Resolves(s, c, id) && g !in s.games
    ensures AllEvolve(s, Accept(s, c, id, g, ok).0)
  {
    hide AcceptedStep, AllEvolve, Accept;
    AcceptIs(s, c, id, g, ok);
    RequestResolves(s, c, id);
    var i := Lookup(s.clients[c].entries, id);
    var s' := Accept(s, c, id, g, ok).0;
    if i == null || s.invs[i].target != c || s.invs[i].state != InvOpen {
      SameEvolves(s, s');
    } else {
      AcceptedEvolves(s, s', i, g);
    }
  }

  lemma AcceptedEvolves(s: State, s': State, i: Invitation, g: Game)
    requires AcceptedStep(s, s', i, g) && s.invs[i].game == null
    ensures AllEvolve(s, s')
  {
  }

  lemma ResignEvolves(s: State, c: Client, id: int, ok: bool, pow: int -> PosReal)
    requires CoreInv(s) && c in s.clients && Resolves(s, c, id)
    ensures AllEvolve(s, Sessions.Resign(s, c, id, ok, pow).0)
  {
    hide CoreInv, Touches, AllEvolve, Sessions.Resign;
    ResignKeeps(s, c, id, ok, pow);
    var i := Lookup(s.clients[c].entries, id);
    var s' := Sessions.Resign(s, c, id, ok, pow).0;
    if i == null || s.invs[i].state != InvAccepted { SameEvolves(s, s'); } else { TouchEvolves(s, s', i); }
  }

  lemma MoveEvolves(s: State, c: Client, id: int, text: string, ok1: bool, ok2: bool, ok3: bool, pow: int -> PosReal)
    requires CoreInv(s) && c in s.clients && Resolves(s, c, id)
    ensures AllEvolve(s, MakeMove(s, c, id, text, ok1, ok2, ok3, pow).0)
  {
    hide CoreInv, Touches, AllEvolve, MakeMove, MoveNotes, Apply;
    MoveKeeps(s, c, id, text, ok1, ok2, ok3, pow);
    var i := Lookup(s.clients[c].entries, id);
    var s' := MakeMove(s, c, id, text, ok1, ok2, ok3, pow).0;
    if i == null || s.invs[i].game == null || LegalMove(s, c, i, text).None? {
      SameEvolves(s, s');
    } else {
      TouchEvolves(s, s', i);
    }
  }

  lemma EvolvesTrans(s: State, s1: State, s2: State)
    requires AllEvolve(s, s1) && AllEvolve(s1, s2)
    ensures AllEvolve(s, s2)
  {
  }

  lemma {:induction false} RunEvolves(s: State, steps: seq<Step>, pow: int -> PosReal)
    requires CoreInv(s)
    ensures RunFrom(s, steps, pow).Some? ==> AllEvolve(s, RunFrom(s, steps, pow).value)
    decreases |steps|
  {
    hide CoreInv, Next;
    if steps != [] && Enabled(s, steps[0]) && Ready(s, steps[0]) {
      var s1 := Next(s, steps[0], pow);
      NextKeeps(s, steps[0], pow);
      StepEvolves(s, steps[0], pow);
      RunEvolves(s1, steps[1..], pow);
      if RunFrom(s, steps, pow).Some? {
        EvolvesTrans(s, s1, RunFrom(s, steps, pow).value);
      }
    } else {
      SameEvolves(s, s);
    }
  }

  /* ---------- invitations in progress ---------- */

  /** A live invitation is open, or accepted with an unfinished game. */
  ghost predicate LiveOk(s: State, i: Invitation)
    requires i in s.invs
  {
    var r := s.invs[i];
    r.ref > 0 ==>
      || r.state == InvOpen
      || (r.state == InvAccepted && r.game != null && r.game in s.games
          && GameInv(s.games[r.game]) && !s.games[r.game].over)
  }

  /** No invitation is stranded: closed or finished, yet still in a list. */
  ghost predicate NoneStranded(s: State) {
    forall i <- s.invs :: LiveOk(s, i)
  }

  /** The two lists agree: a live invitation is in both, exactly once in each; a released one
      is in none; and it names no other client. */
  lemma ListsAgree(s: State, i: Invitation, c: Client)
    requires CoreInv(s) && NoneStranded(s) && i in s.invs && c in s.clients
    ensures Held(s, c, i) <==> s.invs[i].ref > 0 && IsPlayed(s.invs[i], c)
    ensures Distinct(s.clients[c].entries)
    ensures s.invs[i].ref == 2 || s.invs[i].ref == 0
  {
    hide CoreInv, NoneStranded;
    LiveOkAt(s, i);
    CoreAt(s, i, c);
    AgreeAt(s, i, c);
  }

  lemma CoreAt(s: State, i: Invitation, c: Client)
    requires CoreInv(s) && i in s.invs && c in s.clients
    ensures Linked(s, i) && InvOk(s, i) && ClientOk(s, c) && HeldOk(s, i)
  {
  }

  lemma AgreeAt(s: State, i: Invitation, c: Client)
    requires i in s.invs && c in s.clients && LiveOk(s, i)
    requires Linked(s, i) && InvOk(s, i) && ClientOk(s, c) && HeldOk(s, i)
    ensures Held(s, c, i) <==> s.invs[i].ref > 0 && IsPlayed(s.invs[i], c)
    ensures Distinct(s.clients[c].entries)
    ensures s.invs[i].ref == 2 || s.invs[i].ref == 0
  {
  }

  /** Among invitations that were there before, only i's standing can have changed. */
  lemma StrandedOnly(s: State, s': State, i: Invitation)
    requires NoneStranded(s) && Only(s, s', i) && i in s'.invs
    requires forall j <- s'.invs :: j in s.invs || j == i
    ensures NoneStranded(s') <==> LiveOk(s', i)
  {
    forall j <- s'.invs | j != i
      ensures LiveOk(s', j)
    {
      assert LiveOk(s, j) && SameInv(s, s', j);
    }
  }

  /** The side and the sends that keep a step from stranding an invitation.  Revoking is for the
      source and declining for the target; a failed send matters wherever it makes the operation
      return early after the invitation has been closed or its game finished. */
  predicate Careful(s: State, t: Step)
    requires Ready(s, t)
  {
    match t
    case SRevoke(c, id, ok) =>
      var i := Lookup(s.clients[c].entries, id);
      i != null && s.invs[i].state == InvOpen ==> s.invs[i].source == c && ok
    case SDecline(c, id, _) =>
      var i := Lookup(s.clients[c].entries, id);
      i != null && s.invs[i].state == InvOpen ==> s.invs[i].target == c
    case SResign(c, id, ok) =>
      var i := Lookup(s.clients[c].entries, id);
      i != null && s.invs[i].state == InvAccepted ==> ok
    case SMove(c, id, text, ok1, ok2, ok3) => LastMove(s, c, id, text) ==> ok1 && ok2 && ok3
    case SExit(c, lost) =>
      s.clients[c].loggedIn ==> forall e <- s.clients[c].entries :: CarefulEntry(s, c, e, lost)
    case SConnect(_) => true
    case SLogin(_, _) => true
    case SInvite(_, _, _, _, _) => true
    case SAccept(_, _, _, _) => true
  }

  /** Whether a request to move is legal and finishes the game. */
  predicate LastMove(s: State, c: Client, id: int, text: string)
    requires Resolves(s, c, id)
  {
    var i := Lookup(s.clients[c].entries, id);
    && i != null && s.invs[i].game != null && LegalMove(s, c, i, text).Some?
    && Apply(s.games[s.invs[i].game], LegalMove(s, c, i, text).value.cell, RoleOf(s.invs[i], c)).over
  }

  predicate CarefulEntry(s: State, c: Client, e: Entry, lost: set<Invitation>) {
    e.inv in s.invs && (e.inv !in lost || (s.invs[e.inv].state == InvOpen && s.invs[e.inv].target == c))
  }

  lemma RevokeStrands(s: State, c: Client, id: int, ok: bool)
    requires CoreInv(s) && NoneStranded(s) && c in s.clients && Resolves(s, c, id)
    ensures var i := Lookup(s.clients[c].entries, id);
            NoneStranded(Revoke(s, c, id, ok).0)
            <==> (i != null && s.invs[i].state == InvOpen ==> s.invs[i].source == c && ok)
  {
    hide CoreInv, NoneStranded, Only, SamePeople, Shrinks, Revoke;
    RevokeKeeps(s, c, id, ok);
    RequestResolves(s, c, id);
    var i := Lookup(s.clients[c].entries, id);
    if i != null && CanClose(s.invs[i], NullRole) {
      StrandedOnly(s, Revoke(s, c, id, ok).0, i);
    }
  }

  lemma DeclineStrands(s: State, c: Client, id: int, ok: bool)
    requires CoreInv(s) && NoneStranded(s) && c in s.clients && Resolves(s, c, id)
    ensures var i := Lookup(s.clients[c].entries, id);
            NoneStranded(Decline(s, c, id, ok).0)
            <==> (i != null && s.invs[i].state == InvOpen ==> s.invs[i].target == c)
  {
    hide CoreInv, NoneStranded, Only, SamePeople, Shrinks, Decline;
    DeclineKeeps(s, c, id, ok);
    RequestResolves(s, c, id);
    var i := Lookup(s.clients[c].entries, id);
    if i != null && CanClose(s.invs[i], NullRole) {
      StrandedOnly(s, Decline(s, c, id, ok).0, i);
    }
  }

  lemma ResignStrands(s: State, c: Client, id: int, ok: bool, pow: int -> PosReal)
    requires CoreInv(s) && NoneStranded(s) && c in s.clients && Resolves(s, c, id)
    ensures var i := Lookup(s.clients[c].entries, id);
            NoneStranded(Sessions.Resign(s, c, id, ok, pow).0) <==> (i != null && s.invs[i].state == InvAccepted ==> ok)
  {
    hide CoreInv, NoneStranded, Only, SamePeople, Shrinks, Sessions.Resign, Steps.Resigned, LiveOk, Lookup, InvOk, HeldOk, Held;
    ResignKeeps(s, c, id, ok, pow);
    RequestResolves(s, c, id);
    var i := Lookup(s.clients[c].entries, id);
    if i != null && s.invs[i].state == InvAccepted {
      ResignedStays(s, Sessions.Resign(s, c, id, ok, pow).0, c, i, ok, pow);
      StrandedOnly(s, Sessions.Resign(s, c, id, ok, pow).0, i);
    }
  }

  lemma ResignedStays(s: State, s': State, c: Client, i: Invitation, ok: bool, pow: int -> PosReal)
    requires Linked(s, i) && IsPlayed(s.invs[i], c) && s.invs[i].game != null && Steps.Resigned(s, s', c, i, ok, pow)
    ensures i in s'.invs && (LiveOk(s', i) <==> ok)
  {
    hide Rated;
  }

  /** The game invariant does not mention the reference count. */
  lemma GameInvRef(g: GameRec, n: int)
    requires GameInv(g)
    ensures GameInv(g.(ref := n))
  {
  }

  /** A legal move in an invitation in progress is in an unfinished game and leads to a proper one. */
  lemma MoveInProgress(s: State, c: Client, i: Invitation, text: string)
    requires Linked(s, i) && InvOk(s, i) && LiveOk(s, i) && s.invs[i].ref > 0 && s.invs[i].game != null
    requires LegalMove(s, c, i, text).Some?
    ensures var g1 := Apply(s.games[s.invs[i].game], LegalMove(s, c, i, text).value.cell, RoleOf(s.invs[i], c));
            && s.invs[i].state == InvAccepted && !s.games[s.invs[i].game].over
            && GameInv(g1) && forall n: int :: GameInv(g1.(ref := n))
  {
    var (g, role, cell) := (s.games[s.invs[i].game], RoleOf(s.invs[i], c), LegalMove(s, c, i, text).value.cell);
    ApplyKeeps(g, cell, role);
    var g1 := Apply(g, cell, role);
    forall n: int
      ensures GameInv(g1.(ref := n))
    {
      GameInvRef(g1, n);
    }
  }

  lemma MoveStrands(s: State, c: Client, id: int, text: string, ok1: bool, ok2: bool, ok3: bool, pow: int -> PosReal)
    requires CoreInv(s) && NoneStranded(s) && c in s.clients && Resolves(s, c, id)
    ensures NoneStranded(MakeMove(s, c, id, text, ok1, ok2, ok3, pow).0)
            <==> (LastMove(s, c, id, text) ==> ok1 && ok2 && ok3)
  {
    hide CoreInv, NoneStranded, Only, SamePeople, Shrinks, MakeMove, GameInv, Apply, MoveNotes;
    MoveKeeps(s, c, id, text, ok1, ok2, ok3, pow);
    RequestResolves(s, c, id);
    var i := Lookup(s.clients[c].entries, id);
    if i != null && s.invs[i].game != null && LegalMove(s, c, i, text).Some? {
      LiveOkAt(s, i);
      MoveInProgress(s, c, i, text);
      StrandedOnly(s, MakeMove(s, c, id, text, ok1, ok2, ok3, pow).0, i);
    }
  }

  lemma LiveOkAt(s: State, i: Invitation)
    requires NoneStranded(s) && i in s.invs
    ensures LiveOk(s, i)
  {
  }

  lemma AcceptStrands(s: State, c: Client, id: int, g: Game, ok: bool)
    requires CoreInv(s) && NoneStranded(s) && c in s.clients && Resolves(s, c, id) && g !in s.games
    ensures NoneStranded(Accept(s, c, id, g, ok).0)
  {
    hide CoreInv, NoneStranded, Only, SamePeople, Accept;
    AcceptKeeps(s, c, id, g, ok);
    AcceptIs(s, c, id, g, ok);
    var i := Lookup(s.clients[c].entries, id);
    if i != null && s.invs[i].target == c && s.invs[i].state == InvOpen {
      NewGameInv();
      StrandedOnly(s, Accept(s, c, id, g, ok).0, i);
    }
  }

  lemma InviteStrands(s: State, c: Client, name: string, role: Role, i: Invitation, ok: bool)
    requires CoreInv(s) && NoneStranded(s) && Active(s, c) && s.clients[c].player != null && i !in s.invs
    ensures NoneStranded(Invite(s, c, name, role, i, ok).0)
  {
    hide CoreInv, NoneStranded, Only, SamePeople, Invite;
    InviteKeeps(s, c, name, role, i, ok);
    InviteIs(s, c, name, role, i, ok);
    var s' := Invite(s, c, name, role, i, ok).0;
    if s' != s {
      StrandedOnly(s, s', i);
    }
  }

  /** Connecting and logging in leave invitations and games alone. */
  lemma SameStrands(s: State, s': State)
    requires s'.invs == s.invs && s'.games == s.games
    ensures NoneStranded(s') <==> NoneStranded(s)
  {
    if NoneStranded(s) {
      forall i <- s'.invs
        ensures LiveOk(s', i)
      {
        assert LiveOk(s, i);
      }
    }
    if NoneStranded(s') {
      forall i <- s.invs
        ensures LiveOk(s, i)
      {
        assert LiveOk(s', i);
      }
    }
  }

  /* ---------- leaving ---------- */

  /** One node's turn in the loop closes its invitation, and releases it exactly when nothing
      is lost on the way. */
  lemma TurnStrands(s: State, c: Client, e: Entry, lost: set<Invitation>, pow: int -> PosReal)
    requires CoreInv(s) && c in s.clients && e in s.clients[c].entries && Sole(s.clients[c].entries, e)
    requires Resolves(s, c, e.id) && e.inv in s.invs && LiveOk(s, e.inv)
    ensures var s' := LogoutOne(s, c, e, lost, pow);
            && TurnDone(s, s', c, e.inv) && s'.invs[e.inv].state == InvClosed
            && (s'.invs[e.inv].ref == 0 <==> CarefulEntry(s, c, e, lost))
  {
    hide CoreInv, TurnDone, Only, SamePeople, Shrinks, Revoke, Decline, Sessions.Resign;
    var ok := e.inv !in lost;
    LogoutOneKeeps(s, c, e, lost, pow);
    SoleLookup(s.clients[c].entries, e);
    RequestResolves(s, c, e.id);
    RevokeKeeps(s, c, e.id, ok);
    DeclineKeeps(s, c, e.id, ok);
    ResignKeeps(s, c, e.id, ok, pow);
  }

  lemma CarefulLater(s: State, s1: State, c: Client, e: Entry, lost: set<Invitation>)
    requires Spared(s, s1, e.inv)
    ensures CarefulEntry(s1, c, e, lost) <==> CarefulEntry(s, c, e, lost)
    ensures LiveOk(s, e.inv) ==> LiveOk(s1, e.inv)
    ensures c in s.clients && e in s.clients[c].entries ==> c in s1.clients && e in s1.clients[c].entries
  {
  }

  /** After the loop every entry's invitation is closed, and released exactly when it was dealt
      with carefully. */
  lemma {:induction false} LoopStrands(s: State, c: Client, orig: seq<Entry>, todo: seq<Entry>, lost: set<Invitation>, pow: int -> PosReal)
    requires CoreInv(s) && c in s.clients && Distinct(orig) && Distinct(todo)
    requires forall x <- s.clients[c].entries :: x in orig
    requires forall e <- todo :: e in orig && e in s.clients[c].entries && e.inv in s.invs && LiveOk(s, e.inv)
    requires Pending(s, c, todo)
    ensures var s' := LogoutAll(s, c, todo, lost, pow);
            forall e <- todo :: e.inv in s'.invs && s'.invs[e.inv].state == InvClosed
                                && (s'.invs[e.inv].ref == 0 <==> CarefulEntry(s, c, e, lost))
    decreases |todo|
  {
    hide CoreInv, SamePeople, Pending, LogoutOne, Spared, Shrinks, TurnDone, ClosesOnly, CarefulEntry, LiveOk, Distinct, Sole;
    if todo != [] {
      var (e0, rest) := (todo[0], todo[1..]);
      SoleIn(s.clients[c].entries, orig, e0);
      RequestResolves(s, c, e0.id);
      EntriesKnown(s, c);
      TurnStrands(s, c, e0, lost, pow);
      var s1 := LogoutOne(s, c, e0, lost, pow);
      PendingNext(s, s1, c, todo);
      AfterTurn(s, s1, c, e0.inv, orig);
      TailsDiffer(todo);
      RestLater(s, s1, c, e0.inv, rest, lost);
      LoopStrands(s1, c, orig, rest, lost, pow);
      LogoutAllKeeps(s1, c, orig, rest, lost, pow);
      SparedRecord(s1, LogoutAll(s1, c, rest, lost, pow), e0.inv);
    }
  }

  lemma RestLater(s: State, s1: State, c: Client, i: Invitation, rest: seq<Entry>, lost: set<Invitation>)
    requires c in s.clients && c in s1.clients && s1.invs.Keys == s.invs.Keys
    requires forall j <- s.invs :: j != i ==> Spared(s, s1, j)
    requires forall e <- rest :: e.inv != i && e in s.clients[c].entries && e.inv in s.invs && LiveOk(s, e.inv)
    ensures forall e <- rest :: e in s1.clients[c].entries && e.inv in s1.invs && LiveOk(s1, e.inv)
    ensures forall e <- rest :: CarefulEntry(s1, c, e, lost) <==> CarefulEntry(s, c, e, lost)
  {
    hide Spared, LiveOk, CarefulEntry;
    forall e <- rest
      ensures e in s1.clients[c].entries && e.inv in s1.invs && LiveOk(s1, e.inv)
      ensures CarefulEntry(s1, c, e, lost) <==> CarefulEntry(s, c, e, lost)
    {
      CarefulLater(s, s1, c, e, lost);
    }
  }

  lemma TailsDiffer(todo: seq<Entry>)
    requires Distinct(todo) && todo != []
    ensures Distinct(todo[1..]) && (forall e <- todo[1..] :: e in todo && e.inv != todo[0].inv)
    ensures forall e <- todo :: e == todo[0] || e in todo[1..]
  {
    assert todo == [todo[0]] + todo[1..];
    forall e <- todo[1..]
      ensures e in todo && e.inv != todo[0].inv
    {
      var k :| 0 <= k < |todo[1..]| && todo[1..][k] == e;
      assert todo[k + 1] == e;
    }
  }

  lemma SparedRecord(s: State, s': State, j: Invitation)
    requires Spared(s, s', j)
    ensures j in s'.invs && s'.invs[j] == s.invs[j]
  {
  }

  /** What the loop does to the session as a whole. */
  lemma LoopLeavesNone(s: State, c: Client, lost: set<Invitation>, pow: int -> PosReal)
    requires CoreInv(s) && NoneStranded(s) && Known(s, c) && (s.clients[c].loggedIn <==> s.clients[c].player != null)
    ensures NoneStranded(AfterLoop(s, c, lost, pow))
            <==> (s.clients[c].loggedIn ==> forall e <- s.clients[c].entries :: CarefulEntry(s, c, e, lost))
  {
    hide CoreInv, SamePeople, Pending, Shrinks, ClosesOnly, Spared, LogoutAll, CarefulEntry;
    var es := s.clients[c].entries;
    var s1 := AfterLoop(s, c, lost, pow);
    LoopKeeps(s, c, lost, pow);
    EntriesKnown(s, c);
    if s.clients[c].loggedIn {
      PendingAll(s, c);
      LoopStrands(s, c, es, es, lost, pow);
      forall j <- s.invs | !Held(s, c, j)
        ensures LiveOk(s1, j)
      {
        CarefulLater(s, s1, c, Entry(0, j), lost);
      }
      forall e <- es
        ensures LiveOk(s1, e.inv) <==> CarefulEntry(s, c, e, lost)
      {
        RefNonNegative(s1, e.inv);
      }
      assert NoneStranded(s1) ==> forall e <- es :: LiveOk(s1, e.inv);
    }
  }

  lemma RefNonNegative(s: State, i: Invitation)
    requires CoreInv(s) && i in s.invs
    ensures s.invs[i].ref >= 0
  {
    assert InvOk(s, i);
  }

  lemma ExitStrands(s: State, c: Client, lost: set<Invitation>, pow: int -> PosReal)
    requires CoreInv(s) && NoneStranded(s) && c in s.registry && Known(s, c)
    requires s.clients[c].loggedIn <==> s.clients[c].player != null
    ensures NoneStranded(Exit(s, c, lost, pow))
            <==> (s.clients[c].loggedIn ==> forall e <- s.clients[c].entries :: CarefulEntry(s, c, e, lost))
  {
    hide CoreInv, NoneStranded, Exit, AfterLoop, CarefulEntry, SamePeople, Pending;
    LoopLeavesNone(s, c, lost, pow);
    ExitKeeps(s, c, lost, pow);
    SameStrands(AfterLoop(s, c, lost, pow), Exit(s, c, lost, pow));
  }

  /* ---------- every step, every run ---------- */

  /** A step strands an invitation exactly when it is not careful. */
  lemma StrandedExactly(s: State, t: Step, pow: int -> PosReal)
    requires CoreInv(s) && NoneStranded(s) && Enabled(s, t) && Ready(s, t)
    ensures NoneStranded(Next(s, t, pow)) <==> Careful(s, t)
  {
    hide CoreInv, NoneStranded, Revoke, Decline, Accept, Sessions.Resign, MakeMove, Exit, Invite, LastMove, CarefulEntry;
    match t
    case SConnect(c) => SameStrands(s, Next(s, t, pow));
    case SLogin(c, p) => SameStrands(s, Next(s, t, pow));
    case SInvite(c, name, role, i, ok) => InviteStrands(s, c, name, role, i, ok);
    case SRevoke(c, id, ok) => RevokeStrands(s, c, id, ok);
    case SDecline(c, id, ok) => DeclineStrands(s, c, id, ok);
    case SAccept(c, id, g, ok) => AcceptStrands(s, c, id, g, ok);
    case SResign(c, id, ok) => ResignStrands(s, c, id, ok, pow);
    case SMove(c, id, text, ok1, ok2, ok3) => MoveStrands(s, c, id, text, ok1, ok2, ok3, pow);
    case SExit(c, lost) =>
      RegisteredClient(s, c);
      ExitStrands(s, c, lost, pow);
  }

  /** Every step of a run is careful when its turn comes. */
  predicate AllCareful(s: State, steps: seq<Step>, pow: int -> PosReal)
    decreases |steps|
  {
    steps == []
    || (Enabled(s, steps[0]) && Ready(s, steps[0]) && Careful(s, steps[0])
        && AllCareful(Next(s, steps[0], pow), steps[1..], pow))
  }

  lemma {:induction false} CarefulRun(s: State, steps: seq<Step>, pow: int -> PosReal)
    requires CoreInv(s) && NoneStranded(s) && AllCareful(s, steps, pow)
    ensures RunFrom(s, steps, pow).Some?
    ensures CoreInv(RunFrom(s, steps, pow).value) && NoneStranded(RunFrom(s, steps, pow).value)
    decreases |steps|
  {
    hide CoreInv, NoneStranded, Next, Careful;
    if steps != [] {
      NextKeeps(s, steps[0], pow);
      StrandedExactly(s, steps[0], pow);
      CarefulRun(Next(s, steps[0], pow), steps[1..], pow);
    }
  }

  /* ---------- leaving for good ---------- */

  /** What a careful departure leaves: an empty list, a released client, every invitation it had
      closed, released and in nobody's list, and everyone else's invitations as they were. */
  ghost predicate Departed(s: State, s': State, c: Client) {
    && c in s.clients && c in s'.clients && c !in s'.registry
    && s'.clients[c].entries == [] && s'.clients[c].ref == 0 && !s'.clients[c].loggedIn
    && (forall e <- s.clients[c].entries :: Ended(s', e.inv))
    && forall i <- s.invs :: !Held(s, c, i) ==> Spared(s, s', i)
  }

  ghost predicate Ended(s: State, i: Invitation) {
    && i in s.invs && s.invs[i].state == InvClosed && s.invs[i].ref == 0
    && forall d <- s.clients :: !Held(s, d, i)
  }

  lemma LeaveSpares(s: State, s1: State, s': State, c: Client, i: Invitation)
    requires Spared(s, s1, i) && LeaveStep(s1, s', c)
    ensures Spared(s, s', i)
  {
    forall x <- s.clients
      ensures x in s'.clients && SameEntry(s.clients[x].entries, s'.clients[x].entries, i)
    {
      assert SameEntry(s.clients[x].entries, s1.clients[x].entries, i);
    }
  }

  lemma NoLiveEntries(s: State, c: Client)
    requires CoreInv(s) && c in s.clients && forall e <- s.clients[c].entries :: e.inv in s.invs && s.invs[e.inv].ref == 0
    ensures s.clients[c].entries == []
  {
    hide CoreInv;
    EntriesKnown(s, c);
    if s.clients[c].entries != [] {
      HasEntry(s.clients[c].entries);
    }
  }

  lemma HasEntry(es: seq<Entry>)
    requires es != []
    ensures exists e :: e in es
  {
    assert es[0] in es;
  }

  lemma NoneHolds(s: State, i: Invitation)
    requires CoreInv(s) && i in s.invs && s.invs[i].ref == 0
    ensures forall d <- s.clients :: !Held(s, d, i)
  {
    hide CoreInv;
    forall d <- s.clients
      ensures !Held(s, d, i)
    {
      EntriesKnown(s, d);
    }
  }

  /** Nothing leads to a client without entries that is not registered. */
  lemma NothingLeads(s: State, c: Client)
    requires CoreInv(s) && NoneStranded(s) && c in s.clients && c !in s.registry && s.clients[c].entries == []
    ensures s.clients[c].ref == 0
  {
    hide CoreInv, NoneStranded;
    forall i <- s.invs
      ensures i !in Naming(s, c)
    {
      ListsAgree(s, i, c);
    }
    CountAt(s, c);
  }

  lemma CountAt(s: State, c: Client)
    requires CoreInv(s) && c in s.clients
    ensures s.clients[c].ref == One(c in s.registry) + |Naming(s, c)|
  {
    assert ClientOk(s, c);
  }

  /** A logged-in client that leaves while its packets are sent is gone for good. */
  lemma ExitDeparts(s: State, c: Client, lost: set<Invitation>, pow: int -> PosReal)
    requires CoreInv(s) && NoneStranded(s) && c in s.registry && Known(s, c)
    requires s.clients[c].loggedIn && s.clients[c].player != null
    requires forall e <- s.clients[c].entries :: CarefulEntry(s, c, e, lost)
    ensures Departed(s, Exit(s, c, lost, pow), c)
  {
    hide CoreInv, NoneStranded, SamePeople, Pending, Shrinks, ClosesOnly, Spared, LogoutAll, CarefulEntry, LiveOk, Exit;
    var es := s.clients[c].entries;
    var (s1, s') := (AfterLoop(s, c, lost, pow), Exit(s, c, lost, pow));
    LoopKeeps(s, c, lost, pow);
    ExitKeeps(s, c, lost, pow);
    ExitStrands(s, c, lost, pow);
    EntriesKnown(s, c);
    PendingAll(s, c);
    forall e <- es
      ensures LiveOk(s, e.inv)
    {
      LiveOkAt(s, e.inv);
    }
    LoopStrands(s, c, es, es, lost, pow);
    ShrunkList(s, s1, c);
    NoLiveEntries(s1, c);
    NothingLeads(s', c);
    forall e <- es
      ensures Ended(s', e.inv)
    {
      NoneHolds(s', e.inv);
    }
    forall i <- s.invs | !Held(s, c, i)
      ensures Spared(s, s', i)
    {
      LeaveSpares(s, s1, s', c, i);
    }
  }

  lemma ShrunkList(s: State, s': State, c: Client)
    requires Shrinks(s, s') && c in s.clients
    ensures c in s'.clients && forall e <- s'.clients[c].entries :: e in s.clients[c].entries
  {
  }
}
