/** Every operation keeps the invariant, whatever its sends do and whichever side asks, and
    leaves the invitation it is about in the state described here. */
module Steps {
  import opened Basics
  import opened Games
  import opened GameText
  import opened Clients
  import opened Sessions
  import opened References

  /* ---------- closing ---------- */

  /** i is closed, its game resigned if it has one, and some events follow. */
  ghost predicate ClosedStep(s: State, s2: State, i: Invitation, role: Role, events: seq<Event>) {
    && RecordStep(s, s2, i) && s2.roster == s.roster && s2.players == s.players
    && s2.invs == s.invs[i := s.invs[i].(state := InvClosed)]
    && s2.log == s.log + events
    && Linked(s2, i) && s.invs[i].game == s2.invs[i].game
    && (s.invs[i].game != null ==>
          s.invs[i].game in s.games && s2.games[s.invs[i].game] == ResignBy(s.games[s.invs[i].game], role))
  }

  lemma ClosedAndSent(s: State, i: Invitation, role: Role, to: Client, kind: Kind, id: int, ok: bool)
    requires Linked(s, i) && InvOk(s, i) && CanClose(s.invs[i], role)
    ensures ClosedStep(s, Send(CloseInv(s, i, role), to, kind, id, i, "", ok), i, role,
                       if ok then [Sent(to, kind, id, i, "")] else [])
  {
  }

  /** An invitation that can be closed or played is in both lists. */
  lemma NotClosed(s: State, i: Invitation)
    requires CoreInv(s) && i in s.invs && s.invs[i].ref > 0 && s.invs[i].state != InvClosed
    ensures Linked(s, i) && InvOk(s, i) && BothHold(s, i) && BothIn(s, i) && s.invs[i].ref == 2
  {
    assert HeldOk(s, i);
  }

  lemma RevokeKeeps(s: State, c: Client, id: int, ok: bool)
    requires CoreInv(s) && c in s.clients && Resolves(s, c, id)
    ensures var (s', r) := Revoke(s, c, id, ok);
            var i := Lookup(s.clients[c].entries, id);
            && CoreInv(s')
            && if i == null || !CanClose(s.invs[i], NullRole) then s' == s && r == -1
               else
                 && Touches(s, s', i) && s'.players == s.players && s'.invs[i].state == InvClosed
                 && s'.invs[i].ref == (if !ok then 2 else if c == s.invs[i].source then 0 else 1)
                 && r == (if ok && c == s.invs[i].source then 0 else -1)
                 && s'.log == s.log + (if ok then [Sent(s.invs[i].target, RevokedPkt,
                                         IdOf(s.clients[s.invs[i].target].entries, i), i, "")] else [])
  {
    RequestResolves(s, c, id);
    var i := Lookup(s.clients[c].entries, id);
    if i != null && CanClose(s.invs[i], NullRole) {
      NotClosed(s, i);
      var d := s.invs[i].target;
      ClosedAndSent(s, i, NullRole, d, RevokedPkt, IdOf(s.clients[d].entries, i), ok);
      var s2 := Send(CloseInv(s, i, NullRole), d, RevokedPkt, IdOf(s.clients[d].entries, i), i, "", ok);
      RecordTouches(s, s2, i);
      if ok {
        RemoveBothKeeps(s2, c, d, i);
        TouchesTrans(s, s2, RemoveBoth(s2, c, d, i).0, i);
      }
      CoreKept(s, Revoke(s, c, id, ok).0, i);
    }
  }

  lemma DeclineKeeps(s: State, c: Client, id: int, ok: bool)
    requires CoreInv(s) && c in s.clients && Resolves(s, c, id)
    ensures var (s', r) := Decline(s, c, id, ok);
            var i := Lookup(s.clients[c].entries, id);
            && CoreInv(s')
            && if i == null || !CanClose(s.invs[i], NullRole) then s' == s && r == -1
               else
                 && Touches(s, s', i) && s'.players == s.players && s'.invs[i].state == InvClosed
                 && s'.invs[i].ref == (if c == s.invs[i].target then 0 else 1) && r == 0
                 && s'.log == s.log + (if ok then [Sent(s.invs[i].source, DeclinedPkt,
                                         IdOf(s.clients[s.invs[i].source].entries, i), i, "")] else [])
  {
    RequestResolves(s, c, id);
    var i := Lookup(s.clients[c].entries, id);
    if i != null && CanClose(s.invs[i], NullRole) {
      NotClosed(s, i);
      var d := s.invs[i].source;
      ClosedAndSent(s, i, NullRole, d, DeclinedPkt, IdOf(s.clients[d].entries, i), ok);
      var s2 := Send(CloseInv(s, i, NullRole), d, DeclinedPkt, IdOf(s.clients[d].entries, i), i, "", ok);
      RecordTouches(s, s2, i);
      RemoveOne(s2, c, i);
      RemoveBothIs(s2, c, d, i);
      RemoveBothKeeps(s2, c, d, i);
      TouchesTrans(s, s2, RemoveBoth(s2, c, d, i).0, i);
      CoreKept(s, RemoveBoth(s2, c, d, i).0, i);
    }
  }

  /* ---------- accepting ---------- */

  /** An open invitation becomes accepted with a new game of its own. */
  ghost predicate AcceptedStep(s: State, s': State, i: Invitation, g: Game) {
    && i in s.invs && s.invs[i].state == InvOpen && g !in s.games
    && s'.clients == s.clients && s'.registry == s.registry && s'.players == s.players && s'.roster == s.roster
    && s'.invs == s.invs[i := s.invs[i].(state := InvAccepted, game := g)] && s'.games == s.games[g := NEW_GAME]
  }

  lemma AcceptIs(s: State, c: Client, id: int, g: Game, ok: bool)
    requires Resolves(s, c, id) && g !in s.games
    ensures var (s', r) := Accept(s, c, id, g, ok);
            var i := Lookup(s.clients[c].entries, id);
            if i == null || s.invs[i].target != c || s.invs[i].state != InvOpen then s' == s && r == -1
            else
              && AcceptedStep(s, s', i, g) && r == (if ok then 0 else -1)
              && s'.log == s.log + (if ok then [Sent(s.invs[i].source, AcceptedPkt,
                                      IdOf(s.clients[s.invs[i].source].entries, i), i,
                                      if s.invs[i].targetRole == First then "" else FIRST_BOARD)] else [])
  {
  }

  lemma AcceptKeeps(s: State, c: Client, id: int, g: Game, ok: bool)
    requires CoreInv(s) && c in s.clients && Resolves(s, c, id) && g !in s.games
    ensures var (s', r) := Accept(s, c, id, g, ok);
            var i := Lookup(s.clients[c].entries, id);
            && CoreInv(s')
            && if i == null || s.invs[i].target != c || s.invs[i].state != InvOpen then s' == s && r == -1
               else Only(s, s', i) && SamePeople(s, s') && AcceptedStep(s, s', i, g) && r == (if ok then 0 else -1)
  {
    AcceptIs(s, c, id, g, ok);
    RequestResolves(s, c, id);
    var i := Lookup(s.clients[c].entries, id);
    if i != null && s.invs[i].target == c && s.invs[i].state == InvOpen {
      AcceptedKeeps(s, Accept(s, c, id, g, ok).0, i, g);
    }
  }

  lemma AcceptedInv(s: State, s': State, i: Invitation, g: Game, j: Invitation)
    requires AcceptedStep(s, s', i, g) && j in s.invs && Linked(s, j) && InvOk(s, j) && s.invs[i].ref > 0
    requires HeldOk(s, j)
    ensures Linked(s', j) && InvOk(s', j) && HeldOk(s', j)
  {
  }

  lemma AcceptedApart(s: State, s': State, i: Invitation, g: Game)
    requires AcceptedStep(s, s', i, g) && GamesApart(s) && forall j <- s.invs :: Linked(s, j)
    ensures GamesApart(s')
  {
    forall j, k | j in s'.invs && k in s'.invs && j != k
      ensures Apart(s'.invs[j], s'.invs[k])
    {
      assert Apart(s.invs[j], s.invs[k]) && Linked(s, j) && Linked(s, k);
    }
  }

  lemma AcceptedClients(s: State, s': State, i: Invitation, g: Game)
    requires AcceptedStep(s, s', i, g) && forall c <- s.clients :: ClientOk(s, c)
    ensures forall c <- s'.clients :: ClientOk(s', c)
  {
    forall c <- s.clients
      ensures ClientOk(s', c)
    {
      assert Naming(s', c) == Naming(s, c);
      ClientKept(s, s', c);
    }
  }

  lemma AcceptedOnly(s: State, s': State, i: Invitation, g: Game)
    requires AcceptedStep(s, s', i, g)
    ensures Only(s, s', i) && SamePeople(s, s')
  {
  }

  lemma AcceptedRefs(s: State, s': State, i: Invitation, g: Game)
    requires Refs(s) && OpenHeld(s) && AcceptedStep(s, s', i, g) && s.invs[i].ref > 0
    ensures Refs(s') && OpenHeld(s')
  {
    AcceptedClients(s, s', i, g);
    AcceptedApart(s, s', i, g);
    forall j <- s'.invs
      ensures Linked(s', j) && InvOk(s', j) && HeldOk(s', j)
    {
      AcceptedInv(s, s', i, g, j);
    }
  }

  lemma AcceptedKeeps(s: State, s': State, i: Invitation, g: Game)
    requires CoreInv(s) && AcceptedStep(s, s', i, g) && s.invs[i].ref > 0
    ensures CoreInv(s') && Only(s, s', i) && SamePeople(s, s')
  {
    AcceptedRefs(s, s', i, g);
    AcceptedOnly(s, s', i, g);
    PeopleKept(s, s');
  }

  /* ---------- scoring ---------- */

  /** Posting a result between two different players changes their two ratings and the log. */
  lemma PostKeeps(s: State, c: Client, d: Client, role: Role, winner: Role, i: Invitation, pow: int -> PosReal)
    requires i in s.invs && Known(s, c) && Known(s, d)
    requires s.clients[c].player != null && s.clients[d].player != null && s.clients[c].player != s.clients[d].player
    ensures var s' := Post(s, c, d, role, winner, i, pow);
            var (p1, p2) := Seats(s, c, d, role);
            && RecordStep(s, s', i) && s'.roster == s.roster && s'.invs == s.invs && s'.games == s.games
            && (forall p <- s.players :: s'.players[p].ref == s.players[p].ref)
            && s'.log == s.log + [Scored(i, p1, p2, Code(winner))]
            && s'.players == Rated(s.players, p1, p2, Code(winner), pow)
  {
  }

  /** The end of a game: one effective result, and the invitation leaves both lists. */
  lemma SettleKeeps(s: State, c: Client, d: Client, role: Role, winner: Role, i: Invitation, pow: int -> PosReal)
    requires Refs(s) && Linked(s, i) && Known(s, c) && Known(s, d) && c != d && Held(s, c, i) && Held(s, d, i)
    requires s.clients[c].player != null && s.clients[d].player != null && s.clients[c].player != s.clients[d].player
    requires s.invs[i].ref == 2 && s.invs[i].game != null
    ensures var (s', r) := Settle(s, c, d, role, winner, i, pow);
            var (p1, p2) := Seats(s, c, d, role);
            && Refs(s') && Touches(s, s', i) && i in s'.invs && s'.invs[i] == s.invs[i].(ref := 0)
            && SamePlay(s, s', s.invs[i].game) && r == 0
            && s'.log == s.log + [Scored(i, p1, p2, Code(winner))]
            && s'.players == Rated(s.players, p1, p2, Code(winner), pow)
  {
    var s1 := Post(s, c, d, role, winner, i, pow);
    PostKeeps(s, c, d, role, winner, i, pow);
    RecordTouches(s, s1, i);
    RemoveBothKeeps(s1, c, d, i);
    TouchesTrans(s, s1, RemoveBoth(s1, c, d, i).0, i);
  }

  /* ---------- resigning and moving ---------- */

  lemma ResignIs(s: State, c: Client, id: int, ok: bool, pow: int -> PosReal)
    requires Resolves(s, c, id)
    ensures var i := Lookup(s.clients[c].entries, id);
            if i == null || !IsPlayed(s.invs[i], c) || !CanClose(s.invs[i], RoleOf(s.invs[i], c))
            then Sessions.Resign(s, c, id, ok, pow) == (s, -1)
            else
              var (role, d) := (RoleOf(s.invs[i], c), Opponent(s.invs[i], c));
              var s2 := Send(CloseInv(s, i, role), d, ResignedPkt, IdOf(s.clients[d].entries, i), i, "", ok);
              Sessions.Resign(s, c, id, ok, pow)
              == if !ok || s.clients[c].player == null || s.clients[d].player == null then (s2, -1)
                 else Settle(s2, c, d, role, RoleOf(s.invs[i], d), i, pow)
  {
  }

  /** What resigning the game of i leaves: i closed and its game resigned; when the packet is
      sent, also the result posted and i out of both lists. */
  ghost predicate Resigned(s: State, s': State, c: Client, i: Invitation, ok: bool, pow: int -> PosReal)
    requires Linked(s, i) && IsPlayed(s.invs[i], c) && s.invs[i].game != null
  {
    var (rec, d) := (s.invs[i], Opponent(s.invs[i], c));
    var (p1, p2) := Seats(s, c, d, RoleOf(rec, c));
    var packet := Sent(d, ResignedPkt, IdOf(s.clients[d].entries, i), i, "");
    && i in s'.invs && s'.invs[i] == rec.(state := InvClosed, ref := if ok then 0 else 2)
    && rec.game in s'.games
    && s'.games[rec.game] == ResignBy(s.games[rec.game], RoleOf(rec, c)).(ref := s'.games[rec.game].ref)
    && p1 in s.players && p2 in s.players
    && s'.log == s.log + (if ok then [packet, Scored(i, p1, p2, Code(RoleOf(rec, d)))] else [])
    && s'.players == if ok then Rated(s.players, p1, p2, Code(RoleOf(rec, d)), pow) else s.players
  }

  lemma ResignKeeps(s: State, c: Client, id: int, ok: bool, pow: int -> PosReal)
    requires CoreInv(s) && c in s.clients && Resolves(s, c, id)
    ensures var (s', r) := Sessions.Resign(s, c, id, ok, pow);
            var i := Lookup(s.clients[c].entries, id);
            if i == null || s.invs[i].state != InvAccepted then s' == s && r == -1
            else CoreInv(s') && Touches(s, s', i) && r == (if ok then 0 else -1)
                 && s.invs[i].ref > 0 && IsPlayed(s.invs[i], c) && s.invs[i].game != null
                 && Resigned(s, s', c, i, ok, pow)
  {
    ResignIs(s, c, id, ok, pow);
    RequestResolves(s, c, id);
    var i := Lookup(s.clients[c].entries, id);
    if i != null && s.invs[i].state == InvAccepted {
      NotClosed(s, i);
      var (role, d) := (RoleOf(s.invs[i], c), Opponent(s.invs[i], c));
      var packetId := IdOf(s.clients[d].entries, i);
      ClosedAndSent(s, i, role, d, ResignedPkt, packetId, ok);
      var s2 := Send(CloseInv(s, i, role), d, ResignedPkt, packetId, i, "", ok);
      if ok {
        ResignSent(s, s2, c, i, pow);
      } else {
        ResignUnsent(s, s2, c, i, pow);
      }
    }
  }

  /** The outcome from what the two halves of the operation did. */
  lemma ResignOutcome(s: State, s2: State, s': State, c: Client, i: Invitation, ok: bool, pow: int -> PosReal)
    requires Linked(s, i) && IsPlayed(s.invs[i], c) && s.invs[i].game != null && s.invs[i].ref == 2
    requires ClosedStep(s, s2, i, RoleOf(s.invs[i], c), ResignNote(s, c, i, ok))
    requires var (rec, d) := (s.invs[i], Opponent(s.invs[i], c));
             var (p1, p2) := Seats(s, c, d, RoleOf(rec, c));
             && p1 in s.players && p2 in s.players
             && if !ok then s' == s2
                else
                  && i in s'.invs && s'.invs[i] == s2.invs[i].(ref := 0) && SamePlay(s2, s', rec.game)
                  && s'.log == s2.log + [Scored(i, p1, p2, Code(RoleOf(rec, d)))]
                  && s'.players == Rated(s2.players, p1, p2, Code(RoleOf(rec, d)), pow)
    ensures Resigned(s, s', c, i, ok, pow)
  {
  }

  /** The packet of a resignation, if it is sent. */
  ghost function ResignNote(s: State, c: Client, i: Invitation, ok: bool): seq<Event>
    requires Linked(s, i)
  {
    var d := Opponent(s.invs[i], c);
    if ok then [Sent(d, ResignedPkt, IdOf(s.clients[d].entries, i), i, "")] else []
  }

  /** An invitation with a game that both its clients hold. */
  ghost predicate InPlay(s: State, i: Invitation) {
    Linked(s, i) && InvOk(s, i) && BothHold(s, i) && s.invs[i].game != null && s.invs[i].ref == 2
  }

  lemma ResignUnsent(s: State, s2: State, c: Client, i: Invitation, pow: int -> PosReal)
    requires CoreInv(s) && Refs(s) && InPlay(s, i) && IsPlayed(s.invs[i], c)
    requires ClosedStep(s, s2, i, RoleOf(s.invs[i], c), ResignNote(s, c, i, false))
    ensures CoreInv(s2) && Touches(s, s2, i) && Resigned(s, s2, c, i, false, pow)
  {
    hide CoreInv, Refs, People, OpenHeld, Only, SamePeople, Touches, Resigned;
    RecordTouches(s, s2, i);
    CoreKept(s, s2, i);
    ResignOutcome(s, s2, s2, c, i, false, pow);
  }

  lemma ResignSent(s: State, s2: State, c: Client, i: Invitation, pow: int -> PosReal)
    requires CoreInv(s) && Refs(s) && InPlay(s, i) && IsPlayed(s.invs[i], c)
    requires ClosedStep(s, s2, i, RoleOf(s.invs[i], c), ResignNote(s, c, i, true))
    ensures var (role, d) := (RoleOf(s.invs[i], c), Opponent(s.invs[i], c));
            Linked(s2, i) && Known(s2, c) && Known(s2, d) &&
            var (s', r) := Settle(s2, c, d, role, RoleOf(s.invs[i], d), i, pow);
            CoreInv(s') && Touches(s, s', i) && r == 0 && Resigned(s, s', c, i, true, pow)
  {
    hide CoreInv, Refs, People, OpenHeld, Only, SamePeople, Touches, Resigned, Settle;
    var (role, d) := (RoleOf(s.invs[i], c), Opponent(s.invs[i], c));
    RecordTouches(s, s2, i);
    SettleKeeps(s2, c, d, role, RoleOf(s.invs[i], d), i, pow);
    var s' := Settle(s2, c, d, role, RoleOf(s.invs[i], d), i, pow).0;
    TouchesTrans(s, s2, s', i);
    CoreKept(s, s', i);
    ResignOutcome(s, s2, s', c, i, true, pow);
  }

  /** The state with a move applied and some packets sent. */
  ghost function AfterMove(s: State, g: Game, g1: GameRec, notes: seq<Event>): State {
    s.(games := s.games[g := g1], log := s.log + notes)
  }

  /** The packets that follow a finished game's MOVED packet. */
  ghost function EndNotes(s: State, c: Client, i: Invitation, id: int, winner: Role, ok2: bool, ok3: bool): seq<Event>
    requires Linked(s, i)
  {
    var d := Opponent(s.invs[i], c);
    var ended := Sent(d, EndedPkt(winner), IdOf(s.clients[d].entries, i), i, "");
    if !ok2 then [] else if !ok3 then [ended] else [ended, Sent(c, EndedPkt(winner), id, i, "")]
  }

  /** The packets of an applied move that leads to game g1. */
  ghost function MoveNotes(s: State, c: Client, i: Invitation, id: int, g1: GameRec, ok1: bool, ok2: bool, ok3: bool): seq<Event>
    requires Linked(s, i)
  {
    var d := Opponent(s.invs[i], c);
    var moved := Sent(d, MovedPkt, IdOf(s.clients[d].entries, i), i, StateText(g1.board, g1.current));
    if !ok1 then [] else if !g1.over then [moved] else [moved] + EndNotes(s, c, i, id, g1.winner, ok2, ok3)
  }

  /** The move a text describes for a client, if it is legal. */
  function LegalMove(s: State, c: Client, i: Invitation, text: string): (m: Option<GameMove>)
    requires Linked(s, i) && s.invs[i].game != null
    ensures m.Some? ==> m.value.cell < 9 && CanApply(s.games[s.invs[i].game], m.value.cell, RoleOf(s.invs[i], c))
  {
    var (g, role) := (s.games[s.invs[i].game], RoleOf(s.invs[i], c));
    var m := ParseMove(g.current, role, text);
    if m.Some? && CanApply(g, m.value.cell, role) then m else None
  }

  predicate Finishes(g1: GameRec, ok1: bool, ok2: bool, ok3: bool) {
    ok1 && g1.over && ok2 && ok3
  }

  lemma EndGameIs(s: State, c: Client, id: int, i: Invitation, ok2: bool, ok3: bool, pow: int -> PosReal)
    requires Known(s, c) && Linked(s, i) && s.invs[i].game != null
    ensures var winner := s.games[s.invs[i].game].winner;
            var s2 := s.(log := s.log + EndNotes(s, c, i, id, winner, ok2, ok3));
            EndGame(s, c, id, i, ok2, ok3, pow)
            == if ok2 && ok3 then Settle(s2, c, Opponent(s.invs[i], c), RoleOf(s.invs[i], c), winner, i, pow) else (s2, -1)
  {
    var d := Opponent(s.invs[i], c);
    var winner := s.games[s.invs[i].game].winner;
    var ended := Sent(d, EndedPkt(winner), IdOf(s.clients[d].entries, i), i, "");
    assert s.log + [] == s.log;
    assert (s.log + [ended]) + [Sent(c, EndedPkt(winner), id, i, "")]
        == s.log + [ended, Sent(c, EndedPkt(winner), id, i, "")];
  }

  lemma MoveIs(s: State, c: Client, id: int, text: string, ok1: bool, ok2: bool, ok3: bool, pow: int -> PosReal)
    requires Resolves(s, c, id)
    ensures var i := Lookup(s.clients[c].entries, id);
            if i == null || s.invs[i].game == null || !IsPlayed(s.invs[i], c) || LegalMove(s, c, i, text).None?
            then MakeMove(s, c, id, text, ok1, ok2, ok3, pow) == (s, -1)
            else
              var g1 := Apply(s.games[s.invs[i].game], LegalMove(s, c, i, text).value.cell, RoleOf(s.invs[i], c));
              MakeMove(s, c, id, text, ok1, ok2, ok3, pow) == MoveTail(s, c, id, i, g1, ok1, ok2, ok3, pow)
  {
    var i := Lookup(s.clients[c].entries, id);
    if i != null && s.invs[i].game != null && IsPlayed(s.invs[i], c) && LegalMove(s, c, i, text).Some? {
      var (g, role, cell) := (s.games[s.invs[i].game], RoleOf(s.invs[i], c), LegalMove(s, c, i, text).value.cell);
      JudgeIsExact(g.(board := g.board[cell := role], current := Other(g.current)));
    }
  }

  /** client_make_move after a legal move has been applied to give game g1. */
  ghost function MoveTail(s: State, c: Client, id: int, i: Invitation, g1: GameRec,
                          ok1: bool, ok2: bool, ok3: bool, pow: int -> PosReal): (State, int)
    requires Known(s, c) && Linked(s, i) && s.invs[i].game != null
  {
    var (rec, d) := (s.invs[i], Opponent(s.invs[i], c));
    var s1 := SetGame(s, rec.game, g1);
    var s2 := Send(s1, d, MovedPkt, IdOf(s.clients[d].entries, i), i, StateText(g1.board, g1.current), ok1);
    if !ok1 then (s2, -1)
    else
      var s3 := SetGame(s2, rec.game, g1);
      if !g1.over then (s3, 0) else EndGame(s3, c, id, i, ok2, ok3, pow)
  }

  lemma MoveTailIs(s: State, c: Client, id: int, i: Invitation, g1: GameRec,
                   ok1: bool, ok2: bool, ok3: bool, pow: int -> PosReal)
    requires Known(s, c) && Linked(s, i) && s.invs[i].game != null
    ensures var s2 := AfterMove(s, s.invs[i].game, g1, MoveNotes(s, c, i, id, g1, ok1, ok2, ok3));
            MoveTail(s, c, id, i, g1, ok1, ok2, ok3, pow)
            == if Finishes(g1, ok1, ok2, ok3)
               then Settle(s2, c, Opponent(s.invs[i], c), RoleOf(s.invs[i], c), g1.winner, i, pow)
               else (s2, if ok1 && !g1.over then 0 else -1)
  {
    var (rec, d) := (s.invs[i], Opponent(s.invs[i], c));
    var moved := Sent(d, MovedPkt, IdOf(s.clients[d].entries, i), i, StateText(g1.board, g1.current));
    assert s.log + [] == s.log;
    if ok1 {
      var s3 := AfterMove(s, rec.game, g1, [moved]);
      assert SetGame(s3, rec.game, g1) == s3;
      EndGameIs(s3, c, id, i, ok2, ok3, pow);
      var notes := EndNotes(s, c, i, id, g1.winner, ok2, ok3);
      assert (s.log + [moved]) + notes == s.log + ([moved] + notes);
    }
  }

  /** What a legal move that leads to game g1 leaves; once everything is sent after the last
      move, the result is posted and i is out of both lists. */
  ghost predicate Moved(s: State, s': State, c: Client, id: int, i: Invitation, g1: GameRec,
                        ok1: bool, ok2: bool, ok3: bool, pow: int -> PosReal)
    requires Linked(s, i) && IsPlayed(s.invs[i], c) && s.invs[i].game != null
  {
    var (rec, d) := (s.invs[i], Opponent(s.invs[i], c));
    var (p1, p2) := Seats(s, c, d, RoleOf(rec, c));
    var done := Finishes(g1, ok1, ok2, ok3);
    && i in s'.invs && s'.invs[i] == rec.(ref := if done then 0 else 2)
    && rec.game in s'.games && s'.games[rec.game] == g1.(ref := s'.games[rec.game].ref)
    && p1 in s.players && p2 in s.players
    && s'.log == s.log + MoveNotes(s, c, i, id, g1, ok1, ok2, ok3)
                 + (if done then [Scored(i, p1, p2, Code(g1.winner))] else [])
    && s'.players == if done then Rated(s.players, p1, p2, Code(g1.winner), pow) else s.players
  }

  lemma AfterMoveStep(s: State, i: Invitation, g1: GameRec, notes: seq<Event>)
    requires Linked(s, i) && s.invs[i].game != null && g1.ref == s.games[s.invs[i].game].ref
    ensures var s2 := AfterMove(s, s.invs[i].game, g1, notes);
            RecordStep(s, s2, i) && s2.roster == s.roster && Linked(s2, i)
  {
  }

  lemma MovedNotDone(s: State, c: Client, id: int, i: Invitation, g1: GameRec,
                     ok1: bool, ok2: bool, ok3: bool, pow: int -> PosReal)
    requires CoreInv(s) && Refs(s) && InPlay(s, i) && HeldOk(s, i) && IsPlayed(s.invs[i], c)
    requires g1.ref == s.games[s.invs[i].game].ref && !Finishes(g1, ok1, ok2, ok3)
    ensures var s2 := AfterMove(s, s.invs[i].game, g1, MoveNotes(s, c, i, id, g1, ok1, ok2, ok3));
            CoreInv(s2) && Touches(s, s2, i) && Moved(s, s2, c, id, i, g1, ok1, ok2, ok3, pow)
  {
    hide CoreInv, Refs, People, OpenHeld, Only, SamePeople, MoveNotes;
    var s2 := AfterMove(s, s.invs[i].game, g1, MoveNotes(s, c, i, id, g1, ok1, ok2, ok3));
    AfterMoveStep(s, i, g1, MoveNotes(s, c, i, id, g1, ok1, ok2, ok3));
    RecordTouches(s, s2, i);
    CoreKept(s, s2, i);
  }

  lemma MovedDone(s: State, s2: State, c: Client, id: int, i: Invitation, g1: GameRec, pow: int -> PosReal)
    requires CoreInv(s) && Refs(s) && InPlay(s, i) && IsPlayed(s.invs[i], c)
    requires g1.ref == s.games[s.invs[i].game].ref && g1.over
    requires s2 == AfterMove(s, s.invs[i].game, g1, MoveNotes(s, c, i, id, g1, true, true, true))
    ensures var (role, d) := (RoleOf(s.invs[i], c), Opponent(s.invs[i], c));
            && Linked(s2, i) && Known(s2, c) && Known(s2, d)
            && var (s', r) := Settle(s2, c, d, role, g1.winner, i, pow);
               CoreInv(s') && Touches(s, s', i) && r == 0 && Moved(s, s', c, id, i, g1, true, true, true, pow)
  {
    hide CoreInv, Refs, People, OpenHeld, Only, SamePeople, MoveNotes, Settle;
    var (role, d) := (RoleOf(s.invs[i], c), Opponent(s.invs[i], c));
    AfterMoveStep(s, i, g1, MoveNotes(s, c, i, id, g1, true, true, true));
    RecordTouches(s, s2, i);
    SettleKeeps(s2, c, d, role, g1.winner, i, pow);
    var s' := Settle(s2, c, d, role, g1.winner, i, pow).0;
    TouchesTrans(s, s2, s', i);
    CoreKept(s, s', i);
  }

  lemma MoveTailKeeps(s: State, c: Client, id: int, i: Invitation, g1: GameRec,
                      ok1: bool, ok2: bool, ok3: bool, pow: int -> PosReal)
    requires CoreInv(s) && Refs(s) && InPlay(s, i) && HeldOk(s, i) && IsPlayed(s.invs[i], c) && Known(s, c)
    requires g1.ref == s.games[s.invs[i].game].ref
    ensures var (s', r) := MoveTail(s, c, id, i, g1, ok1, ok2, ok3, pow);
            && CoreInv(s') && Touches(s, s', i)
            && r == (if Finishes(g1, ok1, ok2, ok3) || (ok1 && !g1.over) then 0 else -1)
            && Moved(s, s', c, id, i, g1, ok1, ok2, ok3, pow)
  {
    hide CoreInv, Refs, Touches, Moved, MoveTail, MoveNotes, Settle;
    MoveTailIs(s, c, id, i, g1, ok1, ok2, ok3, pow);
    if Finishes(g1, ok1, ok2, ok3) {
      MovedDone(s, AfterMove(s, s.invs[i].game, g1, MoveNotes(s, c, i, id, g1, true, true, true)), c, id, i, g1, pow);
    } else {
      MovedNotDone(s, c, id, i, g1, ok1, ok2, ok3, pow);
    }
  }

  lemma MoveKeeps(s: State, c: Client, id: int, text: string, ok1: bool, ok2: bool, ok3: bool, pow: int -> PosReal)
    requires CoreInv(s) && c in s.clients && Resolves(s, c, id)
    ensures var (s', r) := MakeMove(s, c, id, text, ok1, ok2, ok3, pow);
            var i := Lookup(s.clients[c].entries, id);
            if i == null || s.invs[i].game == null || LegalMove(s, c, i, text).None? then s' == s && r == -1
            else
              var g1 := Apply(s.games[s.invs[i].game], LegalMove(s, c, i, text).value.cell, RoleOf(s.invs[i], c));
              && CoreInv(s') && Touches(s, s', i) && InPlay(s, i) && IsPlayed(s.invs[i], c)
              && r == (if Finishes(g1, ok1, ok2, ok3) || (ok1 && !g1.over) then 0 else -1)
              && Moved(s, s', c, id, i, g1, ok1, ok2, ok3, pow)
  {
    hide CoreInv, Refs, Touches, Moved, MakeMove, MoveTail;
    MoveIs(s, c, id, text, ok1, ok2, ok3, pow);
    RequestResolves(s, c, id);
    var i := Lookup(s.clients[c].entries, id);
    if i != null && s.invs[i].game != null && LegalMove(s, c, i, text).Some? {
      var g1 := Apply(s.games[s.invs[i].game], LegalMove(s, c, i, text).value.cell, RoleOf(s.invs[i], c));
      MoveTailKeeps(s, c, id, i, g1, ok1, ok2, ok3, pow);
    }
  }
}
