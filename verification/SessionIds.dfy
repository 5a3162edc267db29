/** Invitation IDs: which ID every packet carries, and when the 8-bit header field is enough. */
module InvitationIds {
  import opened Basics
  import opened Games
  import opened Players
  import opened Clients
  import opened Sessions
  import opened References
  import opened Steps
  import opened Joining
  import opened Leaving
  import opened Runs
  import opened Protocol

  /** A client's list holds an invitation under an ID. */
  ghost predicate HeldAs(s: State, c: Client, i: Invitation, id: int) {
    id >= 0 && c in s.clients && Entry(id, i) in s.clients[c].entries
  }

  lemma HeldAsIdOf(s: State, c: Client, i: Invitation)
    requires c in s.clients && Held(s, c, i)
    ensures HeldAs(s, c, i, IdOf(s.clients[c].entries, i))
  {
    FindHolds(s.clients[c].entries, i);
    var k := Find(s.clients[c].entries, i);
    assert s.clients[c].entries[k] == Entry(IdOf(s.clients[c].entries, i), i);
  }

  /** Packets carry the ID under which the recipient's list held the invitation before or after
      the step that sent them. */
  ghost predicate Addressed(s: State, s': State, events: seq<Event>) {
    forall e <- events :: e.Sent? ==> HeldAs(s, e.to, e.inv, e.id) || HeldAs(s', e.to, e.inv, e.id)
  }

  /** Lists only lose entries, except for a new invitation, whose ID is at most the number of
      entries already there. */
  ghost predicate ListStep(s: State, s': State) {
    && s.clients.Keys <= s'.clients.Keys && s.invs.Keys <= s'.invs.Keys
    && forall c <- s'.clients :: forall e <- s'.clients[c].entries ::
         || (c in s.clients && e in s.clients[c].entries)
         || (e.inv !in s.invs && e.inv in s'.invs && e.id < |s'.clients[c].entries|)
  }

  ghost predicate About(s: State, events: seq<Event>) {
    forall e <- events :: e.inv in s.invs
  }

  ghost predicate IdStep(s: State, s': State, events: seq<Event>) {
    s'.log == s.log + events && Addressed(s, s', events) && About(s', events) && ListStep(s, s')
  }

  lemma QuietIdStep(s: State, s': State)
    requires s'.log == s.log && s.clients.Keys <= s'.clients.Keys && s'.invs == s.invs
    requires forall c <- s'.clients :: s'.clients[c].entries == if c in s.clients then s.clients[c].entries else []
    ensures IdStep(s, s', [])
  {
  }

  lemma TouchIdStep(s: State, s': State, i: Invitation, events: seq<Event>)
    requires Touches(s, s', i) && s'.log == s.log + events && Addressed(s, s, events) && About(s, events)
    ensures IdStep(s, s', events)
  {
    hide Only;
  }

  ghost function Packet(to: Client, kind: Kind, id: int, i: Invitation, text: string, ok: bool): seq<Event> {
    if ok then [Sent(to, kind, id, i, text)] else []
  }

  /** A packet to a client that holds the invitation, under the ID of its list. */
  lemma PacketAddressed(s: State, d: Client, kind: Kind, i: Invitation, text: string, ok: bool)
    requires d in s.clients && Held(s, d, i) && i in s.invs
    ensures Addressed(s, s, Packet(d, kind, IdOf(s.clients[d].entries, i), i, text, ok))
    ensures About(s, Packet(d, kind, IdOf(s.clients[d].entries, i), i, text, ok))
  {
    HeldAsIdOf(s, d, i);
  }

  lemma ScoreAddressed(s: State, i: Invitation, p1: Player, p2: Player, result: int, events: seq<Event>)
    requires Addressed(s, s, events) && About(s, events) && i in s.invs
    ensures Addressed(s, s, events + [Scored(i, p1, p2, result)]) && About(s, events + [Scored(i, p1, p2, result)])
  {
  }

  lemma RevokeIds(s: State, c: Client, id: int, ok: bool) returns (events: seq<Event>)
    requires CoreInv(s) && c in s.clients && Resolves(s, c, id)
    ensures IdStep(s, Revoke(s, c, id, ok).0, events)
  {
    hide CoreInv, IdStep, Touches, Revoke, Addressed, About;
    RevokeKeeps(s, c, id, ok);
    RequestResolves(s, c, id);
    var i := Lookup(s.clients[c].entries, id);
    if i == null || !CanClose(s.invs[i], NullRole) {
      events := [];
      QuietIdStep(s, s);
    } else {
      var d := s.invs[i].target;
      events := Packet(d, RevokedPkt, IdOf(s.clients[d].entries, i), i, "", ok);
      PacketAddressed(s, d, RevokedPkt, i, "", ok);
      TouchIdStep(s, Revoke(s, c, id, ok).0, i, events);
    }
  }

  lemma DeclineIds(s: State, c: Client, id: int, ok: bool) returns (events: seq<Event>)
    requires CoreInv(s) && c in s.clients && Resolves(s, c, id)
    ensures IdStep(s, Decline(s, c, id, ok).0, events)
  {
    hide CoreInv, IdStep, Touches, Decline, Addressed, About;
    DeclineKeeps(s, c, id, ok);
    RequestResolves(s, c, id);
    var i := Lookup(s.clients[c].entries, id);
    if i == null || !CanClose(s.invs[i], NullRole) {
      events := [];
      QuietIdStep(s, s);
    } else {
      var d := s.invs[i].source;
      events := Packet(d, DeclinedPkt, IdOf(s.clients[d].entries, i), i, "", ok);
      PacketAddressed(s, d, DeclinedPkt, i, "", ok);
      TouchIdStep(s, Decline(s, c, id, ok).0, i, events);
    }
  }

  lemma AcceptIds(s: State, c: Client, id: int, g: Game, ok: bool) returns (events: seq<Event>)
    requires CoreInv(s) && c in s.clients && Resolves(s, c, id) && g !in s.games
    ensures IdStep(s, Accept(s, c, id, g, ok).0, events)
  {
    hide CoreInv, Accept, IdStep, Addressed, About;
    AcceptIs(s, c, id, g, ok);
    RequestResolves(s, c, id);
    var i := Lookup(s.clients[c].entries, id);
    if i == null || s.invs[i].target != c || s.invs[i].state != InvOpen {
      events := [];
      QuietIdStep(s, s);
    } else {
      var d := s.invs[i].source;
      var text := if s.invs[i].targetRole == First then "" else FIRST_BOARD;
      events := Packet(d, AcceptedPkt, IdOf(s.clients[d].entries, i), i, text, ok);
      PacketAddressed(s, d, AcceptedPkt, i, text, ok);
      AcceptIdStep(s, Accept(s, c, id, g, ok).0, i, g, events);
    }
  }

  lemma AcceptIdStep(s: State, s': State, i: Invitation, g: Game, events: seq<Event>)
    requires AcceptedStep(s, s', i, g) && s'.log == s.log + events && Addressed(s, s, events) && About(s, events)
    ensures IdStep(s, s', events)
  {
  }

  lemma ResignIds(s: State, c: Client, id: int, ok: bool, pow: int -> PosReal) returns (events: seq<Event>)
    requires CoreInv(s) && c in s.clients && Resolves(s, c, id)
    ensures IdStep(s, Sessions.Resign(s, c, id, ok, pow).0, events)
  {
    hide CoreInv, IdStep, Touches, Sessions.Resign, Addressed, About;
    ResignKeeps(s, c, id, ok, pow);
    RequestResolves(s, c, id);
    var i := Lookup(s.clients[c].entries, id);
    if i == null || s.invs[i].state != InvAccepted {
      events := [];
      QuietIdStep(s, s);
    } else {
      events := ResignIdStep(s, Sessions.Resign(s, c, id, ok, pow).0, c, i, ok, pow);
    }
  }

  lemma ResignIdStep(s: State, s': State, c: Client, i: Invitation, ok: bool, pow: int -> PosReal) returns (events: seq<Event>)
    requires Linked(s, i) && IsPlayed(s.invs[i], c) && s.invs[i].game != null && BothHold(s, i)
    requires Touches(s, s', i) && Steps.Resigned(s, s', c, i, ok, pow)
    ensures IdStep(s, s', events)
  {
    hide IdStep, Touches, Addressed, About, Rated;
    var d := Opponent(s.invs[i], c);
    var (p1, p2) := Seats(s, c, d, RoleOf(s.invs[i], c));
    var packet := Packet(d, ResignedPkt, IdOf(s.clients[d].entries, i), i, "", ok);
    PacketAddressed(s, d, ResignedPkt, i, "", ok);
    events := packet;
    if ok {
      events := packet + [Scored(i, p1, p2, Code(RoleOf(s.invs[i], d)))];
      ScoreAddressed(s, i, p1, p2, Code(RoleOf(s.invs[i], d)), packet);
    }
    TouchIdStep(s, s', i, events);
  }

  lemma MoveIds(s: State, c: Client, id: int, text: string, ok1: bool, ok2: bool, ok3: bool, pow: int -> PosReal)
    returns (events: seq<Event>)
    requires CoreInv(s) && c in s.clients && Resolves(s, c, id)
    ensures IdStep(s, MakeMove(s, c, id, text, ok1, ok2, ok3, pow).0, events)
  {
    hide CoreInv, IdStep, Touches, MakeMove, Moved, Apply, Addressed, About;
    MoveKeeps(s, c, id, text, ok1, ok2, ok3, pow);
    RequestResolves(s, c, id);
    var i := Lookup(s.clients[c].entries, id);
    if i == null || s.invs[i].game == null || LegalMove(s, c, i, text).None? {
      events := [];
      QuietIdStep(s, s);
    } else {
      var g1 := Apply(s.games[s.invs[i].game], LegalMove(s, c, i, text).value.cell, RoleOf(s.invs[i], c));
      var s' := MakeMove(s, c, id, text, ok1, ok2, ok3, pow).0;
      events := MoveIdStep(s, s', c, id, i, g1, ok1, ok2, ok3, pow);
    }
  }

  lemma MoveIdStep(s: State, s': State, c: Client, id: int, i: Invitation, g1: GameRec,
                   ok1: bool, ok2: bool, ok3: bool, pow: int -> PosReal) returns (events: seq<Event>)
    requires Linked(s, i) && IsPlayed(s.invs[i], c) && s.invs[i].game != null && BothHold(s, i)
    requires IdOf(s.clients[c].entries, i) == id
    requires Touches(s, s', i) && Moved(s, s', c, id, i, g1, ok1, ok2, ok3, pow)
    ensures IdStep(s, s', events)
  {
    hide IdStep, Touches, Addressed, About, Rated, MoveNotes;
    var d := Opponent(s.invs[i], c);
    HeldAsIdOf(s, d, i);
    HeldAsIdOf(s, c, i);
    NotesAddressed(s, c, i, id, g1, ok1, ok2, ok3);
    var notes := MoveNotes(s, c, i, id, g1, ok1, ok2, ok3);
    var (p1, p2) := Seats(s, c, d, RoleOf(s.invs[i], c));
    events := notes;
    if Finishes(g1, ok1, ok2, ok3) {
      events := notes + [Scored(i, p1, p2, Code(g1.winner))];
      ScoreAddressed(s, i, p1, p2, Code(g1.winner), notes);
      assert (s.log + notes) + [Scored(i, p1, p2, Code(g1.winner))] == s.log + events;
    } else {
      assert (s.log + notes) + [] == s.log + events;
    }
    TouchIdStep(s, s', i, events);
  }

  lemma NotesAddressed(s: State, c: Client, i: Invitation, id: int, g1: GameRec, ok1: bool, ok2: bool, ok3: bool)
    requires Linked(s, i) && HeldAs(s, c, i, id)
    requires HeldAs(s, Opponent(s.invs[i], c), i, IdOf(s.clients[Opponent(s.invs[i], c)].entries, i))
    ensures Addressed(s, s, MoveNotes(s, c, i, id, g1, ok1, ok2, ok3))
    ensures About(s, MoveNotes(s, c, i, id, g1, ok1, ok2, ok3))
  {
  }

  lemma InviteIds(s: State, c: Client, name: string, role: Role, i: Invitation, ok: bool) returns (events: seq<Event>)
    requires CoreInv(s) && Active(s, c) && s.clients[c].player != null && i !in s.invs
    ensures IdStep(s, Invite(s, c, name, role, i, ok).0, events)
  {
    hide Refs, People, OpenHeld, Invite;
    InviteIs(s, c, name, role, i, ok);
    var d := LookupUser(s, s.registry, name);
    if d == null || d == c || role == NullRole {
      events := [];
      QuietIdStep(s, s);
    } else {
      var id := LeastFree(Ids(s.clients[d].entries));
      events := if ok then [Sent(d, InvitedPkt(role), id, i, s.clients[c].player.name)] else [];
      var s' := Invite(s, c, name, role, i, ok).0;
      assert s'.clients[d].entries[0] == Entry(id, i);
      MadeLists(s, s', c, d, i, Other(role), role);
    }
  }

  /** A new entry's ID is at most the number of entries that were there. */
  lemma MadeLists(s: State, s': State, c: Client, d: Client, i: Invitation, cRole: Role, dRole: Role)
    requires CoreInv(s) && MakeStep(s, s', c, d, i, cRole, dRole)
    ensures ListStep(s, s')
  {
    hide CoreInv;
    forall x <- s'.clients, e <- s'.clients[x].entries
      ensures || (x in s.clients && e in s.clients[x].entries)
              || (e.inv !in s.invs && e.inv in s'.invs && e.id < |s'.clients[x].entries|)
    {
      EntriesKnown(s, x);
      IdCount(s.clients[x].entries);
      LeastFreeBound(Ids(s.clients[x].entries));
    }
  }

  /* ---------- leaving ---------- */

  lemma ShrinkTrans(s: State, s1: State, s2: State, e1: seq<Event>, e2: seq<Event>)
    requires IdStep(s, s1, e1) && IdStep(s1, s2, e2) && Shrinks(s, s1) && Shrinks(s1, s2)
    requires s1.invs.Keys == s.invs.Keys && s2.invs.Keys == s.invs.Keys && s2.clients.Keys == s.clients.Keys == s1.clients.Keys
    ensures IdStep(s, s2, e1 + e2)
  {
    assert (s.log + e1) + e2 == s.log + (e1 + e2);
    forall e <- e1 + e2 | e.Sent?
      ensures HeldAs(s, e.to, e.inv, e.id)
    {
      assert e in e1 || e in e2;
    }
  }

  lemma TurnIds(s: State, c: Client, e: Entry, lost: set<Invitation>, pow: int -> PosReal) returns (events: seq<Event>)
    requires CoreInv(s) && c in s.clients && e.inv in s.invs && Resolves(s, c, e.id)
    ensures IdStep(s, LogoutOne(s, c, e, lost, pow), events)
  {
    hide CoreInv, IdStep, Revoke, Decline, Sessions.Resign;
    var ok := e.inv !in lost;
    if s.invs[e.inv].game != null {
      events := ResignIds(s, c, e.id, ok, pow);
    } else if s.invs[e.inv].source == c {
      events := RevokeIds(s, c, e.id, ok);
    } else {
      events := DeclineIds(s, c, e.id, ok);
    }
  }

  lemma {:induction false} LoopIds(s: State, c: Client, orig: seq<Entry>, todo: seq<Entry>, lost: set<Invitation>, pow: int -> PosReal)
    returns (events: seq<Event>)
    requires CoreInv(s) && c in s.clients && Distinct(orig)
    requires forall x <- s.clients[c].entries :: x in orig
    requires forall e <- todo :: e in orig && e.inv in s.invs
    requires Pending(s, c, todo)
    ensures IdStep(s, LogoutAll(s, c, todo, lost, pow), events)
    decreases |todo|
  {
    hide CoreInv, Only, SamePeople, Pending, LogoutOne, Spared, Shrinks, TurnDone, ClosesOnly, IdStep;
    if todo == [] {
      events := [];
      QuietIdStep(s, s);
    } else {
      var e := todo[0];
      SoleIn(s.clients[c].entries, orig, e);
      RequestResolves(s, c, e.id);
      EntriesKnown(s, c);
      var s1 := LogoutOne(s, c, e, lost, pow);
      LogoutOneKeeps(s, c, e, lost, pow);
      PendingNext(s, s1, c, todo);
      AfterTurn(s, s1, c, e.inv, orig);
      var e1 := TurnIds(s, c, e, lost, pow);
      LogoutAllKeeps(s1, c, orig, todo[1..], lost, pow);
      var e2 := LoopIds(s1, c, orig, todo[1..], lost, pow);
      var s2 := LogoutAll(s1, c, todo[1..], lost, pow);
      SameKeys(s, s1);
      SameKeys(s1, s2);
      ShrinkTrans(s, s1, s2, e1, e2);
      events := e1 + e2;
    }
  }

  lemma SameKeys(s: State, s': State)
    requires SamePeople(s, s')
    ensures s'.clients.Keys == s.clients.Keys
  {
  }

  lemma LeaveIds(s: State, s1: State, s': State, c: Client, events: seq<Event>)
    requires IdStep(s, s1, events) && LeaveStep(s1, s', c)
    ensures IdStep(s, s', events)
  {
  }

  lemma ExitIds(s: State, c: Client, lost: set<Invitation>, pow: int -> PosReal) returns (events: seq<Event>)
    requires CoreInv(s) && c in s.registry && Known(s, c) && (s.clients[c].loggedIn <==> s.clients[c].player != null)
    ensures IdStep(s, Exit(s, c, lost, pow), events)
  {
    hide CoreInv, IdStep, Exit, LeaveStep, SamePeople, Pending, LogoutAll;
    ExitKeeps(s, c, lost, pow);
    if s.clients[c].loggedIn {
      var es := s.clients[c].entries;
      EntriesKnown(s, c);
      PendingAll(s, c);
      events := LoopIds(s, c, es, es, lost, pow);
    } else {
      events := [];
      QuietIdStep(s, s);
    }
    LeaveIds(s, AfterLoop(s, c, lost, pow), Exit(s, c, lost, pow), c, events);
  }

  /** Every packet of every step is addressed under the ID of the recipient's own list. */
  lemma StepIds(s: State, t: Step, pow: int -> PosReal) returns (events: seq<Event>)
    requires CoreInv(s) && Enabled(s, t) && Ready(s, t)
    ensures IdStep(s, Next(s, t, pow), events)
  {
    hide CoreInv, IdStep, Revoke, Decline, Accept, Sessions.Resign, MakeMove, Exit, Invite;
    match t
    case SConnect(c) =>
      events := [];
      QuietIdStep(s, Connect(s, c));
    case SLogin(c, p) =>
      events := [];
      QuietIdStep(s, Login(s, c, p).0);
    case SInvite(c, name, role, i, ok) => events := InviteIds(s, c, name, role, i, ok);
    case SRevoke(c, id, ok) => events := RevokeIds(s, c, id, ok);
    case SDecline(c, id, ok) => events := DeclineIds(s, c, id, ok);
    case SAccept(c, id, g, ok) => events := AcceptIds(s, c, id, g, ok);
    case SResign(c, id, ok) => events := ResignIds(s, c, id, ok, pow);
    case SMove(c, id, text, ok1, ok2, ok3) => events := MoveIds(s, c, id, text, ok1, ok2, ok3, pow);
    case SExit(c, lost) =>
      RegisteredClient(s, c);
      events := ExitIds(s, c, lost, pow);
  }

  /* ---------- over whole runs ---------- */

  /** Everything logged is about a known invitation; a packet's ID is the one its recipient's
      list holds the invitation under for as long as it does; and all packets to one client about
      one invitation carry the same ID. */
  ghost predicate IdsFaithful(s: State) {
    && (forall e <- s.log :: e.inv in s.invs)
    && (forall e <- s.log :: e.Sent? ==> e.to in s.clients && forall x <- s.clients[e.to].entries :: x.inv == e.inv ==> x.id == e.id)
    && (forall e, f :: e in s.log && f in s.log && e.Sent? && f.Sent? && e.to == f.to && e.inv == f.inv ==> e.id == f.id)
  }

  lemma FaithfulNext(s: State, s': State, events: seq<Event>)
    requires IdsFaithful(s) && IdStep(s, s', events) && CoreInv(s) && CoreInv(s')
    ensures IdsFaithful(s')
  {
    hide CoreInv;
    assert forall e <- s'.log :: e in s.log || e in events;
    forall e <- s'.log | e.Sent?
      ensures e.to in s'.clients && forall x <- s'.clients[e.to].entries :: x.inv == e.inv ==> x.id == e.id
    {
      OneIdEach(s, s', events, e);
    }
    forall e, f | e in s'.log && f in s'.log && e.Sent? && f.Sent? && e.to == f.to && e.inv == f.inv
      ensures e.id == f.id
    {
      SameIds(s, s', events, e, f);
    }
  }

  lemma EntryOnce(s: State, c: Client, i: Invitation, id1: int, id2: int)
    requires CoreInv(s) && HeldAs(s, c, i, id1) && HeldAs(s, c, i, id2)
    ensures id1 == id2 && i in s.invs
  {
    assert ClientOk(s, c);
    var es := s.clients[c].entries;
    EntryLookup(es, Entry(id1, i));
    EntryLookup(es, Entry(id2, i));
  }

  lemma OneIdEach(s: State, s': State, events: seq<Event>, e: Event)
    requires IdsFaithful(s) && IdStep(s, s', events) && CoreInv(s) && CoreInv(s') && (e in s.log || e in events) && e.Sent?
    ensures e.to in s'.clients && forall x <- s'.clients[e.to].entries :: x.inv == e.inv ==> x.id == e.id
  {
    hide CoreInv;
    forall x | e.to in s'.clients && x in s'.clients[e.to].entries && x.inv == e.inv
      ensures x.id == e.id
    {
      assert HeldAs(s', e.to, x.inv, x.id);
      if e in events {
        NewHeld(s, s', events, e);
        if e.inv in s.invs {
          EntryOnce(s, e.to, e.inv, e.id, x.id);
        } else {
          EntryOnce(s', e.to, e.inv, e.id, x.id);
        }
      }
    }
  }

  lemma SameIds(s: State, s': State, events: seq<Event>, e: Event, f: Event)
    requires IdsFaithful(s) && IdStep(s, s', events) && CoreInv(s) && CoreInv(s')
    requires (e in s.log || e in events) && (f in s.log || f in events) && e.Sent? && f.Sent? && e.to == f.to && e.inv == f.inv
    ensures e.id == f.id
  {
    hide CoreInv;
    if e in s.log && f in s.log {
    } else if e in s.log {
      OldAndNew(s, s', events, e, f);
    } else if f in s.log {
      OldAndNew(s, s', events, f, e);
    } else {
      BothNew(s, s', events, e, f);
    }
  }

  lemma OldAndNew(s: State, s': State, events: seq<Event>, e: Event, f: Event)
    requires IdsFaithful(s) && IdStep(s, s', events) && CoreInv(s) && CoreInv(s')
    requires e in s.log && f in events && e.Sent? && f.Sent? && e.to == f.to && e.inv == f.inv
    ensures e.id == f.id
  {
    hide CoreInv;
    NewHeld(s, s', events, f);
    assert Entry(f.id, f.inv) in s.clients[e.to].entries;
  }

  lemma BothNew(s: State, s': State, events: seq<Event>, e: Event, f: Event)
    requires IdsFaithful(s) && IdStep(s, s', events) && CoreInv(s) && CoreInv(s')
    requires e in events && f in events && e.Sent? && f.Sent? && e.to == f.to && e.inv == f.inv
    ensures e.id == f.id
  {
    hide CoreInv, IdsFaithful;
    NewHeld(s, s', events, e);
    NewHeld(s, s', events, f);
    if e.inv in s.invs {
      EntryOnce(s, e.to, e.inv, e.id, f.id);
    } else {
      EntryOnce(s', e.to, e.inv, e.id, f.id);
    }
  }

  lemma NewHeld(s: State, s': State, events: seq<Event>, e: Event)
    requires CoreInv(s) && IdStep(s, s', events) && e in events && e.Sent?
    ensures if e.inv in s.invs then HeldAs(s, e.to, e.inv, e.id) else HeldAs(s', e.to, e.inv, e.id)
  {
    hide CoreInv;
    if HeldAs(s, e.to, e.inv, e.id) {
      EntryOnce(s, e.to, e.inv, e.id, e.id);
    }
  }

  /* ---------- the 8-bit header field ---------- */

  /** Every ID in every list is below n. */
  ghost predicate IdsBelow(s: State, n: nat) {
    forall c <- s.clients :: forall e <- s.clients[c].entries :: e.id < n
  }

  /** No client holds more than n invitations. */
  ghost predicate ListsWithin(s: State, n: nat) {
    forall c <- s.clients :: |s.clients[c].entries| <= n
  }

  lemma BelowNext(s: State, s': State, events: seq<Event>, n: nat)
    requires IdsBelow(s, n) && IdStep(s, s', events) && ListsWithin(s', n)
    ensures IdsBelow(s', n)
  {
  }

  /** No client ever holds more than n invitations in a run. */
  ghost predicate RunWithin(s: State, steps: seq<Step>, pow: int -> PosReal, n: nat)
    decreases |steps|
  {
    ListsWithin(s, n)
    && (steps != [] && Enabled(s, steps[0]) && Ready(s, steps[0]) ==> RunWithin(Next(s, steps[0], pow), steps[1..], pow, n))
  }

  lemma {:induction false} RunBelow(s: State, steps: seq<Step>, pow: int -> PosReal, n: nat)
    requires CoreInv(s) && IdsBelow(s, n) && RunWithin(s, steps, pow, n)
    ensures RunFrom(s, steps, pow).Some? ==> IdsBelow(RunFrom(s, steps, pow).value, n)
    decreases |steps|
  {
    hide CoreInv, Next, IdsBelow, IdStep, ListsWithin;
    if steps != [] && Enabled(s, steps[0]) && Ready(s, steps[0]) {
      var s1 := Next(s, steps[0], pow);
      NextKeeps(s, steps[0], pow);
      var events := StepIds(s, steps[0], pow);
      assert ListsWithin(s1, n);
      BelowNext(s, s1, events, n);
      RunBelow(s1, steps[1..], pow, n);
    }
  }

  /** The ID a client reads off the wire leads back to the same invitation exactly when it fits
      the field; a larger one is read as the ID of another invitation or of none. */
  lemma WireExact(es: seq<Entry>, e: Entry)
    requires Distinct(es) && e in es
    ensures Lookup(es, Octet(e.id)) == e.inv <==> e.id < 256
  {
    EntryLookup(es, e);
    var k := FindId(es, Octet(e.id));
    if k < |es| && e.id >= 256 {
      var j :| 0 <= j < |es| && es[j] == e;
      assert es[k].id != es[j].id;
    }
  }

  /** As long as no client ever holds more than 256 invitations at once, every invitation in
      every reachable state is found again under the ID sent for it. */
  lemma WireFaithful(steps: seq<Step>, pow: int -> PosReal, c: Client, e: Entry)
    requires RunWithin(INITIAL, steps, pow, 256) && RunFrom(INITIAL, steps, pow).Some?
    requires var s := RunFrom(INITIAL, steps, pow).value; c in s.clients && e in s.clients[c].entries
    ensures Lookup(RunFrom(INITIAL, steps, pow).value.clients[c].entries, Octet(e.id)) == e.inv
  {
    hide CoreInv, RunWithin, RunFrom;
    var s := RunFrom(INITIAL, steps, pow).value;
    EveryRun(steps, pow);
    InitialCore();
    RunBelow(INITIAL, steps, pow, 256);
    EntriesKnown(s, c);
    WireExact(s.clients[c].entries, e);
  }

  /** In every run, whatever is delivered and whichever side asks, packet IDs are faithful. */
  lemma {:induction false} RunIds(s: State, steps: seq<Step>, pow: int -> PosReal)
    requires CoreInv(s) && IdsFaithful(s)
    ensures RunFrom(s, steps, pow).Some? ==> IdsFaithful(RunFrom(s, steps, pow).value)
    decreases |steps|
  {
    hide CoreInv, Next, IdsFaithful, IdStep;
    if steps != [] && Enabled(s, steps[0]) && Ready(s, steps[0]) {
      var s1 := Next(s, steps[0], pow);
      NextKeeps(s, steps[0], pow);
      var events := StepIds(s, steps[0], pow);
      FaithfulNext(s, s1, events);
      RunIds(s1, steps[1..], pow);
    }
  }
}
