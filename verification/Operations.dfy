/** The operations of the server on its objects, in the order in which the server takes its steps.
    Each is proved to change the state exactly as the session model says. */
module Operations {
  import opened Basics
  import opened Games
  import opened GameText
  import opened Players
  import opened PlayerRegistries
  import opened Clients
  import opened ClientRegistries
  import opened Sessions
  import opened References
  import opened Steps
  import opened Joining
  import opened Leaving
  import opened Worlds

  /* ---------- invitations ---------- */

  /** client_revoke_invitation. */
  method RevokeInvitation(w: World, client: Client, id: int, sent: bool) returns (r: int)
    requires w.Valid() && Resolves(w.st, client, id)
    modifies w`st, w`lists, w.repr
    ensures w.Valid() && w.repr == old(w.repr) && Thinner(old(w.lists), w.lists)
    ensures (w.st, r) == Revoke(old(w.st), client, id, sent)
  {
    hide w.Valid, Remove;
    var inv := w.GetInvitation(client, id);
    if inv == null {
      return -1;
    }
    var closed := w.Close(inv, NullRole);
    if !closed {
      return -1;
    }
    w.InvHere(inv);
    var target := inv.target;
    var targetId := w.GetInvitationId(target, inv);
    w.SendPacket(target, RevokedPkt, targetId, inv, "", sent);
    if !sent {
      return -1;
    }
    r := RemoveFromBoth(w, client, target, inv);
  }

  /** The two removals that end an operation. */
  method RemoveFromBoth(w: World, client: Client, other: Client, inv: Invitation) returns (r: int)
    requires w.Valid() && client in w.st.clients && other in w.st.clients && Linked(w.st, inv)
    modifies w`st, w`lists, w.repr
    ensures w.Valid() && w.repr == old(w.repr) && Thinner(old(w.lists), w.lists)
    ensures (w.st, r) == RemoveBoth(old(w.st), client, other, inv)
  {
    hide w.Valid, Remove;
    r := w.RemoveInvitation(client, inv);
    if r == -1 {
      return -1;
    }
    r := w.RemoveInvitation(other, inv);
    return if r == -1 then -1 else 0;
  }

  /** client_decline_invitation. */
  method DeclineInvitation(w: World, client: Client, id: int, sent: bool) returns (r: int)
    requires w.Valid() && Resolves(w.st, client, id)
    modifies w`st, w`lists, w.repr
    ensures w.Valid() && w.repr == old(w.repr) && Thinner(old(w.lists), w.lists)
    ensures (w.st, r) == Decline(old(w.st), client, id, sent)
  {
    hide w.Valid, Remove;
    var inv := w.GetInvitation(client, id);
    if inv == null {
      return -1;
    }
    var closed := w.Close(inv, NullRole);
    if !closed {
      return -1;
    }
    w.InvHere(inv);
    var source := inv.source;
    var sourceId := w.GetInvitationId(source, inv);
    w.SendPacket(source, DeclinedPkt, sourceId, inv, "", sent);
    var _ := w.RemoveInvitation(client, inv);
    var _ := w.RemoveInvitation(source, inv);
    return 0;
  }

  /** client_accept_invitation: g is the game it creates, if it accepts, and text what strp points
      to. */
  method AcceptInvitation(w: World, client: Client, id: int, sent: bool) returns (r: int, text: Option<string>, ghost g: Game?)
    requires w.Valid() && Resolves(w.st, client, id)
    modifies w`st, w`repr, w.repr
    ensures w.Valid() && fresh(w.repr - old(w.repr))
    ensures var i := Lookup(old(w.st).clients[client].entries, id);
            if i == null || old(w.st).invs[i].target != client || old(w.st).invs[i].state != InvOpen
            then g == null && w.st == old(w.st) && r == -1
            else
              && g != null && g !in old(w.st).games && (w.st, r) == Accept(old(w.st), client, id, g, sent)
              && text == if old(w.st).invs[i].targetRole == First then Some(FIRST_BOARD) else None
  {
    hide w.Valid;
    text, g := None, null;
    var inv := w.GetInvitation(client, id);
    if inv == null {
      return -1, text, g;
    }
    w.InvHere(inv);
    if inv.target != client {
      return -1, text, g;
    }
    var accepted := w.AcceptInvitation(inv);
    if !accepted {
      return -1, text, g;
    }
    w.InvHere(inv);
    var game := inv.game;
    g := game;
    w.GameHere(game);
    var source := inv.source;
    var sourceId := w.GetInvitationId(source, inv);
    var buffer, length := UnparseState(game);
    var sourceText := "";
    if inv.targetRole != First {
      sourceText := buffer[..length];
    } else {
      text := Some(buffer[..length]);
    }
    w.SendPacket(source, AcceptedPkt, sourceId, inv, sourceText, sent);
    r := if sent then 0 else -1;
  }

  /** The state once a new invitation is in both lists and still held by its maker. */
  function Added(s: State, c: Client, d: Client, cRole: Role, dRole: Role, i: Invitation): State
    requires c in s.clients && d in s.clients
  {
    s.(invs := s.invs[i := InvRec(InvOpen, 3, c, d, null, cRole, dRole)],
       clients := s.clients[c := Joined(s.clients[c], i)][d := Joined(s.clients[d], i)])
  }

  /** The first half of client_make_invitation: create the invitation and add it to both lists. */
  method CreateAndAdd(w: World, source: Client, target: Client, sourceRole: Role, targetRole: Role)
    returns (inv: Invitation, sourceId: int, targetId: int)
    requires w.Valid() && source in w.st.clients && target in w.st.clients && source != target
    requires forall e <- w.st.clients[source].entries + w.st.clients[target].entries :: e.inv in w.st.invs
    modifies w`st, w`lists, w`repr, w.repr
    ensures w.Valid() && fresh(w.repr - old(w.repr)) && inv !in old(w.st).invs
    ensures w.st == Added(old(w.st), source, target, sourceRole, targetRole, inv)
    ensures sourceId == LeastFree(Ids(old(w.st).clients[source].entries))
    ensures targetId == LeastFree(Ids(old(w.st).clients[target].entries))
  {
    hide w.Valid, LeastFree, Ids, Add, Holds, Created, Ref, Added;
    ghost var s := w.st;
    inv := w.NewInvitation(source, target, sourceRole, targetRole);
    NotHeld(s, source, target, inv);
    CreatedIs(s, source, target, sourceRole, targetRole, inv);
    AddedTwice(s, source, target, sourceRole, targetRole, inv);
    sourceId := w.AddInvitation(source, inv);
    targetId := w.AddInvitation(target, inv);
  }

  /** client_make_invitation. */
  method MakeInvitation(w: World, source: Client, target: Client, sourceRole: Role, targetRole: Role, sent: bool)
    returns (id: int, ghost inv: Invitation)
    requires w.Valid() && Known(w.st, source) && Known(w.st, target) && source != target
    requires w.st.clients[source].player != null
    requires forall e <- w.st.clients[source].entries + w.st.clients[target].entries :: e.inv in w.st.invs
    modifies w`st, w`lists, w`repr, w.repr
    ensures w.Valid() && fresh(w.repr - old(w.repr)) && inv !in old(w.st).invs
    ensures (w.st, id) == Make(old(w.st), source, target, sourceRole, targetRole, inv, sent)
  {
    hide w.Valid, LeastFree, Ids, UnrefInv, Make, Linked;
    ghost var s := w.st;
    var invite, sourceId, targetId := CreateAndAdd(w, source, target, sourceRole, targetRole);
    inv, id := invite, sourceId;
    w.ClientHere(source);
    w.SendPacket(target, InvitedPkt(targetRole), targetId, invite, source.player.name, sent);
    MakeSteps(s, source, target, sourceRole, targetRole, invite, sent);
    w.InvUnref(invite);
  }

  lemma NotHeld(s: State, c: Client, d: Client, i: Invitation)
    requires c in s.clients && d in s.clients && i !in s.invs
    requires forall e <- s.clients[c].entries + s.clients[d].entries :: e.inv in s.invs
    ensures !Holds(s.clients[c].entries, i) && !Holds(s.clients[d].entries, i)
  {
    var all := s.clients[c].entries + s.clients[d].entries;
    assert forall e <- s.clients[c].entries :: e in all;
    assert forall e <- s.clients[d].entries :: e in all;
  }

  /** The state after inv_create. */
  function Created(s: State, c: Client, d: Client, cRole: Role, dRole: Role, i: Invitation): State
    requires c in s.clients && d in s.clients
  {
    s.(invs := s.invs[i := InvRec(InvOpen, 1, c, d, null, cRole, dRole)], clients := Ref(Ref(s.clients, c), d))
  }

  /** The two additions do not get in each other's way. */
  lemma CreatedIs(s: State, c: Client, d: Client, cRole: Role, dRole: Role, i: Invitation)
    requires c in s.clients && d in s.clients && c != d
    ensures var s1 := Created(s, c, d, cRole, dRole, i);
            && s1 == s.(invs := s.invs[i := InvRec(InvOpen, 1, c, d, null, cRole, dRole)], clients := Ref(Ref(s.clients, c), d))
            && i in s1.invs && c in s1.clients && d in s1.clients
            && s1.clients[c].entries == s.clients[c].entries
            && i in Add(s1, c, i).invs && d in Add(s1, c, i).clients
            && Add(s1, c, i).clients[d].entries == s.clients[d].entries
  {
  }

  lemma AddedTwice(s: State, c: Client, d: Client, cRole: Role, dRole: Role, i: Invitation)
    requires c in s.clients && d in s.clients && c != d
    ensures var s1 := Created(s, c, d, cRole, dRole, i);
            && i in s1.invs && c in s1.clients && d in Add(s1, c, i).clients
            && Add(Add(s1, c, i), d, i) == Added(s, c, d, cRole, dRole, i)
  {
    hide LeastFree, Ids, Joined;
    var s1 := Created(s, c, d, cRole, dRole, i);
    AddedClients(s.clients, c, d, i);
    assert Add(Add(s1, c, i), d, i).invs == s.invs[i := InvRec(InvOpen, 3, c, d, null, cRole, dRole)];
  }

  lemma AddedClients(clients: map<Client, ClientRec>, c: Client, d: Client, i: Invitation)
    requires c in clients && d in clients && c != d
    ensures var m := Ref(Ref(clients, c), d);
            var m1 := m[c := m[c].(entries := [Entry(LeastFree(Ids(m[c].entries)), i)] + m[c].entries)];
            var m2 := m1[d := m1[d].(entries := [Entry(LeastFree(Ids(m1[d].entries)), i)] + m1[d].entries)];
            m2 == clients[c := Joined(clients[c], i)][d := Joined(clients[d], i)]
  {
    hide LeastFree, Ids;
  }

  /** Together with the reference given back at the end the steps are those of the model. */
  lemma MakeSteps(s: State, c: Client, d: Client, cRole: Role, dRole: Role, i: Invitation, ok: bool)
    requires Known(s, c) && Known(s, d) && c != d && s.clients[c].player != null
    ensures var s4 := Send(Added(s, c, d, cRole, dRole, i), d, InvitedPkt(dRole), LeastFree(Ids(s.clients[d].entries)), i,
                           s.clients[c].player.name, ok);
            Linked(s4, i) && UnrefInv(s4, i) == Make(s, c, d, cRole, dRole, i, ok).0
    ensures Make(s, c, d, cRole, dRole, i, ok).1 == LeastFree(Ids(s.clients[c].entries))
  {
    hide LeastFree, Ids;
  }

  /** process_invite: the reference that creg_lookup returns is given back at once. */
  method Invite(w: World, client: Client, name: string, role: Role, sent: bool) returns (id: int, ghost inv: Invitation?)
    requires w.Valid() && CoreInv(w.st) && Active(w.st, client)
    modifies w`st, w`lists, w`repr, w.repr
    ensures w.Valid() && fresh(w.repr - old(w.repr))
    ensures var d := LookupUser(old(w.st), old(w.st).registry, name);
            if d == null || d == client || role == NullRole then inv == null && w.st == old(w.st) && id == -1
            else inv != null && inv !in old(w.st).invs && (w.st, id) == Sessions.Invite(old(w.st), client, name, role, inv, sent)
  {
    hide w.Valid, CoreInv, Make;
    inv := null;
    RegistryKnown(w.st);
    EntriesKnown(w.st, client);
    var invitee := w.LookupClient(name);
    if invitee == null {
      return -1, inv;
    }
    RefUnref(old(w.st).clients, invitee);
    w.ClientUnref(invitee);
    assert w.st == old(w.st);
    if invitee == client || role == NullRole {
      return -1, inv;
    }
    EntriesKnown(w.st, invitee);
    if role == First {
      id, inv := MakeInvitation(w, client, invitee, Second, First, sent);
    } else {
      id, inv := MakeInvitation(w, client, invitee, First, Second, sent);
    }
  }

  lemma RefUnref(clients: map<Client, ClientRec>, c: Client)
    requires c in clients
    ensures c in Ref(clients, c) && Unref(Ref(clients, c), c) == clients
  {
  }

  lemma RegistryKnown(s: State)
    requires CoreInv(s)
    ensures forall c <- s.registry :: Known(s, c)
    ensures forall c: Client :: Active(s, c) ==> s.clients[c].player != null
    ensures forall p: Player :: p in s.roster <==> p in s.players
  {
  }

  /* ---------- games ---------- */

  /** client_resign_game. */
  method ResignGame(w: World, client: Client, id: int, sent: bool, pow: int -> PosReal) returns (r: int)
    requires w.Valid() && Resolves(w.st, client, id)
    requires var i := Lookup(w.st.clients[client].entries, id); i != null ==> w.st.invs[i].source != w.st.invs[i].target
    modifies w`st, w`lists, w.repr
    ensures w.Valid() && w.repr == old(w.repr) && Thinner(old(w.lists), w.lists)
    ensures (w.st, r) == Sessions.Resign(old(w.st), client, id, sent, pow)
  {
    hide w.Valid, Sessions.Resign, CloseInv, Settle;
    ResignIs(w.st, client, id, sent, pow);
    var inv := w.GetInvitation(client, id);
    if inv == null {
      return -1;
    }
    w.InvHere(inv);
    if client == inv.source {
      r := CloseAndSettle(w, client, inv.target, inv.sourceRole, inv.targetRole, inv, sent, pow);
    } else if client == inv.target {
      r := CloseAndSettle(w, client, inv.source, inv.targetRole, inv.sourceRole, inv, sent, pow);
    } else {
      return -1;
    }
  }

  /** client_resign_game once the opponent and the two roles are known. */
  method CloseAndSettle(w: World, client: Client, opponent: Client, role: Role, opponentRole: Role, inv: Invitation,
                        sent: bool, pow: int -> PosReal) returns (r: int)
    requires w.Valid() && Known(w.st, client) && Known(w.st, opponent) && Linked(w.st, inv)
    modifies w`st, w`lists, w.repr
    ensures w.Valid() && w.repr == old(w.repr) && Thinner(old(w.lists), w.lists)
    ensures if !CanClose(old(w.st).invs[inv], role) then (w.st, r) == (old(w.st), -1)
            else
              var s2 := Send(CloseInv(old(w.st), inv, role), opponent, ResignedPkt,
                             IdOf(old(w.st).clients[opponent].entries, inv), inv, "", sent);
              && Linked(s2, inv) && Known(s2, client) && Known(s2, opponent)
              && (w.st, r) == if !sent || old(w.st).clients[client].player == null || old(w.st).clients[opponent].player == null
                              then (s2, -1) else Settle(s2, client, opponent, role, opponentRole, inv, pow)
  {
    hide w.Valid, CloseInv, Settle;
    var closed := w.Close(inv, role);
    if !closed {
      return -1;
    }
    CloseLeaves(old(w.st), inv, role);
    var opponentId := w.GetInvitationId(opponent, inv);
    w.SendPacket(opponent, ResignedPkt, opponentId, inv, "", sent);
    if !sent {
      return -1;
    }
    var posted;
    posted, r := PostAndRemove(w, client, opponent, role, opponentRole, inv, pow);
  }

  /** The rest of client_resign_game: post the result, then remove the invitation. */
  method PostAndRemove(w: World, client: Client, opponent: Client, role: Role, winner: Role, inv: Invitation, pow: int -> PosReal)
    returns (posted: bool, r: int)
    requires w.Valid() && Known(w.st, client) && Known(w.st, opponent) && Linked(w.st, inv)
    modifies w`st, w`lists, w.repr
    ensures w.Valid() && w.repr == old(w.repr) && Thinner(old(w.lists), w.lists)
    ensures posted == (old(w.st).clients[client].player != null && old(w.st).clients[opponent].player != null)
    ensures (w.st, r) == if posted then Settle(old(w.st), client, opponent, role, winner, inv, pow) else (old(w.st), -1)
  {
    hide w.Valid, Post, RemoveBoth;
    PostLeaves(w.st, client, opponent, role, winner, inv, pow);
    posted := w.PostResults(client, opponent, role, winner, inv, pow);
    if !posted {
      return posted, -1;
    }
    r := RemoveFromBoth(w, client, opponent, inv);
  }

  /** Closing keeps every reference known and the clients as they are. */
  lemma CloseLeaves(s: State, i: Invitation, role: Role)
    requires Linked(s, i) && CanClose(s.invs[i], role)
    ensures var s' := CloseInv(s, i, role);
            Linked(s', i) && s'.clients == s.clients && s'.players == s.players
  {
  }

  /** Posting a result leaves clients and invitations alone, and does nothing without two players. */
  lemma PostLeaves(s: State, c: Client, d: Client, role: Role, winner: Role, i: Invitation, pow: int -> PosReal)
    requires Known(s, c) && Known(s, d) && Linked(s, i)
    ensures var s' := Post(s, c, d, role, winner, i, pow);
            && Linked(s', i) && s'.clients == s.clients && s'.invs == s.invs
            && (s.clients[c].player == null || s.clients[d].player == null ==> s' == s)
  {
  }

  /** client_make_move; sent1, sent2 and sent3 are the outcomes of its three sends. */
  method MakeMove(w: World, client: Client, id: int, move: string, sent1: bool, sent2: bool, sent3: bool, pow: int -> PosReal)
    returns (r: int)
    requires w.Valid() && Resolves(w.st, client, id)
    modifies w`st, w`lists, w.repr
    ensures w.Valid() && w.repr == old(w.repr) && Thinner(old(w.lists), w.lists)
    ensures (w.st, r) == Sessions.MakeMove(old(w.st), client, id, move, sent1, sent2, sent3, pow)
  {
    hide w.Valid, Sessions.TellMove, Apply, ParseMove, GameAt;
    var inv := w.GetInvitation(client, id);
    if inv == null {
      return -1;
    }
    w.InvHere(inv);
    var game := inv.game;
    if game == null {
      return -1;
    }
    w.GameHere(game);
    var role, opponent := NullRole, client;
    if client == inv.source {
      role, opponent := inv.sourceRole, inv.target;
    } else if client == inv.target {
      role, opponent := inv.targetRole, inv.source;
    } else {
      return -1;
    }
    var m := ParseMove(game.currentPlayer, role, move);
    if m.None? {
      return -1;
    }
    var applied := w.ApplyMove(game, m.value.cell, role);
    if !applied {
      NotApplied(old(w.st), game, m.value.cell, role);
      return -1;
    }
    r := TellMove(w, client, id, opponent, role, inv, game, sent1, sent2, sent3, pow);
  }

  /** client_make_move once the move has been applied. */
  method TellMove(w: World, client: Client, id: int, opponent: Client, role: Role, inv: Invitation, game: Game,
                  sent1: bool, sent2: bool, sent3: bool, pow: int -> PosReal) returns (r: int)
    requires w.Valid() && Known(w.st, client) && Linked(w.st, inv) && w.st.invs[inv].game == game
    requires opponent == Opponent(w.st.invs[inv], client) && role == RoleOf(w.st.invs[inv], client)
    modifies w`st, w`lists, w.repr
    ensures w.Valid() && w.repr == old(w.repr) && Thinner(old(w.lists), w.lists)
    ensures (w.st, r) == Sessions.TellMove(old(w.st), client, id, inv, sent1, sent2, sent3, pow)
  {
    hide w.Valid, EndGame, Judge, GameAt;
    w.GameHere(game);
    var buffer, length := UnparseState(game);
    var opponentId := w.GetInvitationId(opponent, inv);
    w.SendPacket(opponent, MovedPkt, opponentId, inv, buffer[..length], sent1);
    if !sent1 {
      return -1;
    }
    var over := w.IsOver(game);
    if !over {
      return 0;
    }
    r := FinishGame(w, client, id, opponent, role, inv, opponentId, sent2, sent3, pow);
  }

  lemma NotApplied(s: State, g: Game, cell: nat, role: Role)
    requires g in s.games && cell < 9 && !CanApply(s.games[g], cell, role)
    ensures SetGame(s, g, Apply(s.games[g], cell, role)) == s
  {
  }

  /** The end of client_make_move once the game is over; a result that cannot be posted is ignored. */
  method FinishGame(w: World, client: Client, id: int, opponent: Client, role: Role, inv: Invitation, opponentId: int,
                    sent2: bool, sent3: bool, pow: int -> PosReal) returns (r: int)
    requires w.Valid() && Known(w.st, client) && Linked(w.st, inv) && w.st.invs[inv].game != null
    requires opponent == Opponent(w.st.invs[inv], client) && role == RoleOf(w.st.invs[inv], client)
    requires opponentId == IdOf(w.st.clients[opponent].entries, inv)
    modifies w`st, w`lists, w.repr
    ensures w.Valid() && w.repr == old(w.repr) && Thinner(old(w.lists), w.lists)
    ensures (w.st, r) == EndGame(old(w.st), client, id, inv, sent2, sent3, pow)
  {
    hide w.Valid, Post, RemoveBoth, GameAt;
    w.InvHere(inv);
    w.GameHere(inv.game);
    var winner := inv.game.winner;
    w.SendPacket(opponent, EndedPkt(winner), opponentId, inv, "", sent2);
    if !sent2 {
      return -1;
    }
    w.SendPacket(client, EndedPkt(winner), id, inv, "", sent3);
    if !sent3 {
      return -1;
    }
    PostLeaves(w.st, client, opponent, role, winner, inv, pow);
    var _ := w.PostResults(client, opponent, role, winner, inv, pow);
    r := RemoveFromBoth(w, client, opponent, inv);
  }

  /* ---------- coming ---------- */

  /** creg_register, for a thread that has been admitted. */
  method RegisterClient(w: World) returns (client: Client?)
    requires w.Valid() && CoreInv(w.st)
    modifies w`st, w`lists, w`repr, w.repr
    ensures w.Valid() && fresh(w.repr - old(w.repr))
    ensures if |old(w.st).registry| >= MAX_CLIENTS then client == null && w.st == old(w.st)
            else client != null && client !in old(w.st).clients && w.st == Connect(old(w.st), client)
  {
    hide w.Valid, CoreInv;
    RegistryKnown(w.st);
    w.RegistryHere(0);
    if w.registry.length >= MAX_CLIENTS {
      return null;
    }
    client := w.CreateClient();
    w.InsertClient(client);
  }

  /** The name is taken exactly when a player of that name is in the list. */
  lemma {:induction false} TakenIs(s: State, cs: seq<Client>, name: string)
    requires forall c <- cs :: Known(s, c)
    ensures LookupUser(s, cs, name) != null <==> exists p <- PlayersIn(s, cs) :: p.name == name
    ensures forall p <- PlayersIn(s, cs) :: p in s.players
    decreases |cs|
  {
    if cs != [] {
      var (init, last) := (cs[..|cs| - 1], cs[|cs| - 1]);
      TakenIs(s, init, name);
      assert cs == init + [last];
      assert last in cs;
      var ps := PlayersIn(s, cs);
      assert IsUser(s, last, name) ==> s.clients[last].player in ps;
      if LookupUser(s, cs, name) == null {
        assert forall c <- init :: c in cs;
        assert LookupUser(s, init, name) == null;
      }
    }
  }

  lemma {:induction false} LookupSame(s: State, s': State, cs: seq<Client>, name: string)
    requires s'.clients == s.clients
    ensures LookupUser(s', cs, name) == LookupUser(s, cs, name)
  {
    if cs != [] {
      LookupSame(s, s', cs[1..], name);
    }
  }

  /** client_login. */
  method ClientLogin(w: World, client: Client, player: Player) returns (r: int)
    requires w.Valid() && client in w.st.clients && player in w.st.players && forall c <- w.st.registry :: Known(w.st, c)
    modifies w`st, w.repr
    ensures w.Valid() && w.repr == old(w.repr)
    ensures if old(w.st).clients[client].loggedIn || LookupUser(old(w.st), old(w.st).registry, player.name) != null
            then w.st == old(w.st) && r == -1
            else r == 0 && w.st == LoggingIn(old(w.st), client, player)
  {
    hide w.Valid, LookupUser, ClientAt, RefAll, AddRef, PlayersIn;
    w.ClientHere(client);
    if client.loggedIn {
      return -1;
    }
    TakenIs(w.st, w.st.registry, player.name);
    var players := w.AllPlayers();
    RefAllNone(old(w.st).players);
    assert players[0..] == players && players[|players|..] == [];
    var name := player.name;
    var taken := false;
    var k := 0;
    while k < |players|
      invariant 0 <= k <= |players| && w.Valid() && w.repr == old(w.repr)
      invariant w.st == old(w.st).(players := RefAll(old(w.st).players, players[k..]))
      invariant taken <==> exists j :: 0 <= j < k && players[j].name == name
    {
      if players[k].name == name {
        taken := true;
      }
      RefAllKeys(old(w.st).players, players[k..]);
      RefAllBack(old(w.st).players, players[k..]);
      assert players[k..][1..] == players[k + 1..];
      w.PlayerCount(players[k], -1);
      k := k + 1;
    }
    if taken {
      return -1;
    }
    LoggingInCounts(old(w.st), client, player);
    w.SetPlayer(client, player);
    return 0;
  }

  lemma LoggingInCounts(s: State, c: Client, p: Player)
    requires c in s.clients && p in s.players
    ensures LoggingIn(s, c, p).players == AddRef(s.players, p, 1)
  {
  }

  lemma RefAllNone(players: map<Player, PlayerRec>)
    ensures RefAll(players, []) == players
  {
  }

  /** process_login; q is the player of the name, known or new. */
  method Login(w: World, client: Client, name: string) returns (r: int, ghost q: Player?)
    requires w.Valid() && CoreInv(w.st) && client in w.st.clients
    modifies w`st, w`repr, w.repr
    ensures w.Valid() && fresh(w.repr - old(w.repr))
    ensures if old(w.st).clients[client].player != null || name == "" then q == null && r == -1 && w.st == old(w.st)
            else q != null && q.name == name && (w.st, r) == Sessions.Login(old(w.st), client, q)
  {
    hide w.Valid, CoreInv, Answer, Registered, LookupUser;
    q := null;
    RegistryKnown(w.st);
    w.ClientHere(client);
    if client.player != null {
      return -1, q;
    }
    if name == "" {
      return -1, q;
    }
    var player := w.EnrollPlayer(name);
    q := player;
    LookupSame(old(w.st), w.st, w.st.registry, name);
    LoginSteps(old(w.st), client, player);
    var _ := ClientLogin(w, client, player);
    w.PlayerCount(player, -1);
    return 1, q;
  }

  /** The reference taken on registration is given back, whether or not the login succeeds. */
  lemma LoginSteps(s: State, c: Client, q: Player)
    requires c in s.clients && s.clients[c].player == null && q.name != "" && q == Answer(s.roster, q)
    ensures var s1 := Enrolled(s, q);
            && c in s1.clients && q in s1.players
            && Sessions.Login(s, c, q).0
               == if LookupUser(s, s.registry, q.name) != null || s.clients[c].loggedIn
                  then s1.(players := AddRef(s1.players, q, -1))
                  else LoggingIn(s1, c, q).(players := AddRef(LoggingIn(s1, c, q).players, q, -1))
  {
    hide Registered, LookupUser;
  }

  /* ---------- leaving ---------- */

  /** A list that has lost an invitation at most. */
  predicate Thinned(es: seq<Entry>, es': seq<Entry>, i: Invitation) {
    es' == es || es' == Without(es, i)
  }

  lemma RemoveThins(s: State, c: Client, i: Invitation, x: Client)
    requires c in s.clients && x in s.clients && Linked(s, i)
    ensures Thinned(s.clients[x].entries, Remove(s, c, i).0.clients[x].entries, i)
  {
    hide Without;
  }

  lemma ThinnedTwice(es: seq<Entry>, es1: seq<Entry>, es2: seq<Entry>, i: Invitation)
    requires Distinct(es) && Thinned(es, es1, i) && Thinned(es1, es2, i)
    ensures Thinned(es, es2, i)
  {
    WithoutEntries(es, i);
    FindHolds(Without(es, i), i);
  }

  lemma RemoveBothThins(s: State, c: Client, d: Client, i: Invitation, x: Client)
    requires c in s.clients && d in s.clients && x in s.clients && Linked(s, i) && Distinct(s.clients[x].entries)
    ensures var s1 := Remove(s, c, i).0;
            && Thinned(s.clients[x].entries, Remove(s1, d, i).0.clients[x].entries, i)
            && Thinned(s.clients[x].entries, RemoveBoth(s, c, d, i).0.clients[x].entries, i)
  {
    hide Distinct, Remove, Thinned;
    var s1 := Remove(s, c, i).0;
    RemoveThins(s, c, i, x);
    RemoveThins(s1, d, i, x);
    ThinnedTwice(s.clients[x].entries, s1.clients[x].entries, Remove(s1, d, i).0.clients[x].entries, i);
  }

  lemma RemoveBothKeys(s: State, c: Client, d: Client, i: Invitation)
    requires c in s.clients && d in s.clients && Linked(s, i)
    ensures RemoveBoth(s, c, d, i).0.clients.Keys == s.clients.Keys
  {
    hide Remove;
  }

  /** A node's turn takes at most its own entry out of the client's list. */
  lemma TurnThins(s: State, c: Client, e: Entry, lost: set<Invitation>, pow: int -> PosReal)
    requires c in s.clients && e.inv in s.invs && Resolves(s, c, e.id) && Distinct(s.clients[c].entries)
    requires Lookup(s.clients[c].entries, e.id) == e.inv
    ensures c in LogoutOne(s, c, e, lost, pow).clients
    ensures Thinned(s.clients[c].entries, LogoutOne(s, c, e, lost, pow).clients[c].entries, e.inv)
  {
    hide Distinct, Remove, Thinned, RemoveBoth, Post, CloseInv, Lookup;
    var (i, ok) := (e.inv, e.inv !in lost);
    assert Thinned(s.clients[c].entries, s.clients[c].entries, i) by { ThinnedSame(s.clients[c].entries, i); }
    if s.invs[i].game != null {
      ResignThins(s, c, e.id, ok, pow);
    } else if s.invs[i].source == c {
      if CanClose(s.invs[i], NullRole) {
        CloseLeaves(s, i, NullRole);
        var d := s.invs[i].target;
        var s2 := Send(CloseInv(s, i, NullRole), d, RevokedPkt, IdOf(s.clients[d].entries, i), i, "", ok);
        RemoveBothThins(s2, c, d, i, c);
        RemoveBothKeys(s2, c, d, i);
      }
    } else {
      if CanClose(s.invs[i], NullRole) {
        CloseLeaves(s, i, NullRole);
        var d := s.invs[i].source;
        RemoveBothThins(Send(CloseInv(s, i, NullRole), d, DeclinedPkt, IdOf(s.clients[d].entries, i), i, "", ok), c, d, i, c);
      }
    }
  }

  lemma ThinnedSame(es: seq<Entry>, i: Invitation)
    ensures Thinned(es, es, i)
  {
  }

  lemma ResignThins(s: State, c: Client, id: int, ok: bool, pow: int -> PosReal)
    requires Resolves(s, c, id) && Distinct(s.clients[c].entries) && Lookup(s.clients[c].entries, id) != null
    ensures c in Sessions.Resign(s, c, id, ok, pow).0.clients
    ensures Thinned(s.clients[c].entries, Sessions.Resign(s, c, id, ok, pow).0.clients[c].entries,
                    Lookup(s.clients[c].entries, id))
  {
    hide Distinct, Remove, Thinned, RemoveBoth, Post, CloseInv, Lookup;
    var i := Lookup(s.clients[c].entries, id);
    ThinnedSame(s.clients[c].entries, i);
    if IsPlayed(s.invs[i], c) && CanClose(s.invs[i], RoleOf(s.invs[i], c)) {
      var (role, d) := (RoleOf(s.invs[i], c), Opponent(s.invs[i], c));
      CloseLeaves(s, i, role);
      var s2 := Send(CloseInv(s, i, role), d, ResignedPkt, IdOf(s.clients[d].entries, i), i, "", ok);
      PostLeaves(s2, c, d, role, RoleOf(s.invs[i], d), i, pow);
      RemoveBothThins(Post(s2, c, d, role, RoleOf(s.invs[i], d), i, pow), c, d, i, c);
      RemoveBothKeys(Post(s2, c, d, role, RoleOf(s.invs[i], d), i, pow), c, d, i);
    }
  }

  /** The nodes that remain are those of the entries that remain. */
  lemma NodesFollow(es: seq<Entry>, ns: seq<Node>, es': seq<Entry>, ns': seq<Node>, k: nat)
    requires |ns| == |es| && |ns'| == |es'| && Distinct(es) && k < |es|
    requires forall j :: 0 <= j < |ns| ==> es[j] == Entry(ns[j].id, ns[j].invitation)
    requires forall j :: 0 <= j < |ns'| ==> es'[j] == Entry(ns'[j].id, ns'[j].invitation)
    requires forall n <- ns' :: n in ns
    requires es' == es || es' == Cut(es, k)
    ensures ns' == if es' == es then ns else Cut(ns, k)
  {
    forall j | 0 <= j < |ns'|
      ensures ns'[j] == ns[if es' == es || j < k then j else j + 1]
    {
      assert ns'[j] in ns;
      var m :| 0 <= m < |ns| && ns[m] == ns'[j];
      assert es[m] == es'[j];
    }
    assert es' != es ==> |ns'| == |ns| - 1;
  }

  /** What a node's turn does: resign, revoke or decline. */
  method LetGo(w: World, client: Client, node: Node, lost: set<Invitation>, pow: int -> PosReal)
    requires w.Valid() && node.invitation in w.st.invs && Resolves(w.st, client, node.id)
    requires Lookup(w.st.clients[client].entries, node.id) == node.invitation
    requires w.st.invs[node.invitation].source != w.st.invs[node.invitation].target
    modifies w`st, w`lists, w.repr
    ensures w.Valid() && w.repr == old(w.repr) && Thinner(old(w.lists), w.lists)
    ensures w.st == LogoutOne(old(w.st), client, Entry(node.id, node.invitation), lost, pow)
  {
    hide w.Valid, Revoke, Decline, Sessions.Resign, Thinner;
    var inv := node.invitation;
    w.InvHere(inv);
    if inv.game != null {
      var _ := ResignGame(w, client, node.id, inv !in lost, pow);
    } else if inv.source == client {
      var _ := RevokeInvitation(w, client, node.id, inv !in lost);
    } else {
      var _ := DeclineInvitation(w, client, node.id, inv !in lost);
    }
  }

  /** One pass of the loop in client_logout.  The saved next node is still in the list
      afterwards. */
  method LogoutTurn(w: World, client: Client, node: Node, ghost k: nat, lost: set<Invitation>, pow: int -> PosReal)
    returns (next: Node?, ghost k': nat)
    requires w.Valid() && CoreInv(w.st) && client in w.st.clients && client in w.lists
    requires k < |w.lists[client]| && node == w.lists[client][k] && k < |w.st.clients[client].entries|
    modifies w`st, w`lists, w.repr
    ensures w.Valid() && w.repr == old(w.repr)
    ensures var e := old(w.st).clients[client].entries[k];
            e.inv in old(w.st).invs && Resolves(old(w.st), client, e.id) && w.st == LogoutOne(old(w.st), client, e, lost, pow)
    ensures client in w.st.clients && client in w.lists && k' <= |w.st.clients[client].entries|
    ensures next == Nth(w.lists[client], k') && w.st.clients[client].entries[k'..] == old(w.st).clients[client].entries[k + 1..]
  {
    hide w.Valid, CoreInv, LogoutOne, Thinned, Thinner;
    ghost var (es, ns) := (w.st.clients[client].entries, w.lists[client]);
    w.NodeHere(client, k);
    w.NodesHere(client);
    ghost var e := es[k];
    TurnReady(w.st, client, e);
    TurnThins(w.st, client, e, lost, pow);
    next := node.next;
    LetGo(w, client, node, lost, pow);
    ThinnerAt(old(w.lists), w.lists, client);
    k' := AfterThinning(w, client, es, ns, k, next);
  }

  lemma ThinnerAt(lists: map<Client, seq<Node>>, lists': map<Client, seq<Node>>, c: Client)
    requires Thinner(lists, lists') && c in lists
    ensures c in lists' && forall n <- lists'[c] :: n in lists[c]
  {
  }

  lemma TurnReady(s: State, c: Client, e: Entry)
    requires CoreInv(s) && c in s.clients && e in s.clients[c].entries
    ensures Distinct(s.clients[c].entries) && Lookup(s.clients[c].entries, e.id) == e.inv
    ensures e.inv in s.invs && Resolves(s, c, e.id) && s.invs[e.inv].source != s.invs[e.inv].target
  {
    hide CoreInv;
    EntriesKnown(s, c);
    EntryLookup(s.clients[c].entries, e);
    RequestResolves(s, c, e.id);
  }

  /** Where the loop goes on. */
  lemma AfterThinning(w: World, client: Client, es: seq<Entry>, ns: seq<Node>, k: nat, next: Node?) returns (k': nat)
    requires w.Valid() && client in w.st.clients && k < |es| == |ns| && Distinct(es)
    requires client in w.lists && Thinned(es, w.st.clients[client].entries, es[k].inv)
    requires forall n <- w.lists[client] :: n in ns
    requires forall j :: 0 <= j < |ns| ==> es[j] == Entry(ns[j].id, ns[j].invitation)
    requires next == Nth(ns, k + 1)
    ensures k' <= |w.st.clients[client].entries|
    ensures next == Nth(w.lists[client], k') && w.st.clients[client].entries[k'..] == es[k + 1..]
  {
    hide w.Valid;
    var (es', ns') := (w.st.clients[client].entries, w.lists[client]);
    w.NodesHere(client);
    assert Find(es, es[k].inv) == k;
    NodesFollow(es, ns, es', ns', k);
    k' := if es' == es then k + 1 else k;
  }

  /** What is left of the list when the loop in client_logout stands before node k. */
  ghost predicate LoopAt(w: World, client: Client, orig: seq<Entry>, node: Node?, k: nat)
    reads w, w.repr
  {
    && w.Valid() && CoreInv(w.st) && client in w.st.clients && client in w.lists && Distinct(orig)
    && k <= |w.st.clients[client].entries| == |w.lists[client]| && node == Nth(w.lists[client], k)
    && (forall x <- w.st.clients[client].entries :: x in orig)
    && Pending(w.st, client, w.st.clients[client].entries[k..])
  }

  lemma LoopStarts(w: World, client: Client)
    requires w.Valid() && CoreInv(w.st) && client in w.st.clients
    ensures LoopAt(w, client, w.st.clients[client].entries, client.invites.head, 0)
  {
    hide w.Valid, CoreInv;
    w.NodeHere(client, 0);
    EntriesKnown(w.st, client);
    assert w.st.clients[client].entries[0..] == w.st.clients[client].entries;
  }

  lemma LoopGoesOn(s: State, s': State, c: Client, orig: seq<Entry>, k: nat, lost: set<Invitation>, pow: int -> PosReal)
    requires CoreInv(s) && c in s.clients && k < |s.clients[c].entries| && Distinct(orig)
    requires forall x <- s.clients[c].entries :: x in orig
    requires Pending(s, c, s.clients[c].entries[k..])
    requires s.clients[c].entries[k].inv in s.invs && Resolves(s, c, s.clients[c].entries[k].id)
    requires s' == LogoutOne(s, c, s.clients[c].entries[k], lost, pow)
    ensures CoreInv(s') && c in s'.clients && (forall x <- s'.clients[c].entries :: x in orig)
    ensures Pending(s', c, s.clients[c].entries[k + 1..])
    ensures LogoutAll(s, c, s.clients[c].entries[k..], lost, pow) == LogoutAll(s', c, s.clients[c].entries[k + 1..], lost, pow)
  {
    hide CoreInv, LogoutOne, Pending, TurnDone, SamePeople, Shrinks, ClosesOnly, Spared;
    var es := s.clients[c].entries;
    EntriesKnown(s, c);
    SoleIn(es, orig, es[k]);
    LogoutOneKeeps(s, c, es[k], lost, pow);
    assert es[k..][1..] == es[k + 1..];
    PendingNext(s, s', c, es[k..]);
    AfterTurn(s, s', c, es[k].inv, orig);
  }

  /** What the rest of the loop makes of the state. */
  ghost function Rest(w: World, client: Client, k: nat, lost: set<Invitation>, pow: int -> PosReal): State
    requires client in w.st.clients && k <= |w.st.clients[client].entries|
    reads w
  {
    LogoutAll(w.st, client, w.st.clients[client].entries[k..], lost, pow)
  }

  /** One pass takes the loop one node on, and leaves what the rest of it makes of the state. */
  method LogoutPass(w: World, client: Client, ghost orig: seq<Entry>, node: Node, ghost k: nat,
                    lost: set<Invitation>, pow: int -> PosReal) returns (next: Node?, ghost k': nat)
    requires LoopAt(w, client, orig, node, k)
    modifies w`st, w`lists, w.repr
    ensures w.repr == old(w.repr) && LoopAt(w, client, orig, next, k')
    ensures Rest(w, client, k', lost, pow) == old(Rest(w, client, k, lost, pow))
    ensures |w.st.clients[client].entries| - k' < old(|w.st.clients[client].entries|) - k
  {
    hide w.Valid, CoreInv, LogoutAll, LogoutOne, Pending, Distinct;
    ghost var s := w.st;
    next, k' := LogoutTurn(w, client, node, k, lost, pow);
    LoopGoesOn(s, w.st, client, orig, k, lost, pow);
    w.NodesHere(client);
    assert |w.st.clients[client].entries[k'..]| == |s.clients[client].entries[k + 1..]|;
  }

  /** client_logout: the loop visits every node that was in the list when it began, and stops. */
  method Logout(w: World, client: Client, lost: set<Invitation>, pow: int -> PosReal) returns (r: int)
    requires w.Valid() && CoreInv(w.st) && Known(w.st, client)
    modifies w`st, w`lists, w.repr
    ensures w.Valid() && w.repr == old(w.repr)
    ensures (w.st, r) == Sessions.Logout(old(w.st), client, lost, pow)
  {
    hide w.Valid, CoreInv, LogoutOne, Pending, Distinct;
    w.ClientHere(client);
    if !client.loggedIn {
      return -1;
    }
    ghost var orig := w.st.clients[client].entries;
    LoopStarts(w, client);
    var node := client.invites.head;
    ghost var k: nat := 0;
    assert orig[0..] == orig;
    while node != null
      invariant w.repr == old(w.repr) && LoopAt(w, client, orig, node, k)
      invariant Rest(w, client, k, lost, pow) == LogoutAll(old(w.st), client, orig, lost, pow)
      decreases |w.st.clients[client].entries| - k
    {
      node, k := LogoutPass(w, client, orig, node, k, lost, pow);
    }
    assert w.st.clients[client].entries[k..] == [];
    StillLoggedIn(old(w.st), client, lost, pow);
    w.LeavePlayer(client);
    return 0;
  }

  lemma StillLoggedIn(s: State, c: Client, lost: set<Invitation>, pow: int -> PosReal)
    requires CoreInv(s) && Known(s, c) && s.clients[c].loggedIn
    ensures var s' := LogoutAll(s, c, s.clients[c].entries, lost, pow);
            Known(s', c) && s'.clients[c].player != null
  {
    hide CoreInv, LogoutAll, Pending, Shrinks, ClosesOnly, Spared;
    LoggedInHasPlayer(s, c);
    LoopKeeps(s, c, lost, pow);
  }

  lemma LoggedInHasPlayer(s: State, c: Client)
    requires CoreInv(s) && c in s.clients && s.clients[c].loggedIn
    ensures s.clients[c].player != null && c in s.registry
  {
  }

  /** creg_unregister, for a client that has been logged out. */
  method Unregister(w: World, client: Client) returns (r: int)
    requires w.Valid() && client in w.st.clients
    modifies w`st, w.repr
    ensures w.Valid() && w.repr == old(w.repr)
    ensures (w.st, r) == Sessions.Unregister(old(w.st), client)
  {
    hide w.Valid, Left;
    var found := w.TakeOutClient(client);
    if !found {
      NotThere(old(w.st).registry, client);
      return -1;
    }
    w.ClientUnref(client);
    return 0;
  }

  lemma NotThere(cs: seq<Client>, c: Client)
    requires c !in cs
    ensures Left(cs, c) == cs
  {
  }

  /** The end of jeux_client_service: log out, whether or not logged in, then unregister. */
  method EndService(w: World, client: Client, lost: set<Invitation>, pow: int -> PosReal)
    requires w.Valid() && CoreInv(w.st) && client in w.st.registry && Known(w.st, client)
    modifies w`st, w`lists, w.repr
    ensures w.Valid() && w.repr == old(w.repr) && w.st == Exit(old(w.st), client, lost, pow)
  {
    hide w.Valid, CoreInv, Sessions.Logout, Sessions.Unregister;
    LogoutKnown(w.st, client, lost, pow);
    var _ := Logout(w, client, lost, pow);
    var _ := Unregister(w, client);
  }

  lemma LogoutKnown(s: State, c: Client, lost: set<Invitation>, pow: int -> PosReal)
    requires CoreInv(s) && Known(s, c)
    ensures c in Sessions.Logout(s, c, lost, pow).0.clients
  {
    hide CoreInv, LogoutAll;
    if s.clients[c].loggedIn {
      StillLoggedIn(s, c, lost, pow);
    }
  }
}
