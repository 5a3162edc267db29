/** The whole session as one state, and every operation on it as a function of that state.
    Object references play the part of addresses.  A released object stays in its map with
    reference count 0. */
module Sessions {
  import opened Basics
  import opened Games
  import opened GameText
  import opened Players
  import opened PlayerRegistries
  import opened Clients
  import opened ClientRegistries

  /** The asynchronous notifications of the protocol. */
  datatype Kind =
    | InvitedPkt(role: Role)
    | RevokedPkt
    | AcceptedPkt
    | DeclinedPkt
    | MovedPkt
    | ResignedPkt
    | EndedPkt(winner: Role)

  /** What happened, in order: packets sent, and results that changed ratings. */
  datatype Event =
    | Sent(to: Client, kind: Kind, id: int, inv: Invitation, text: string)
    | Scored(inv: Invitation, player1: Player, player2: Player, result: int)

  datatype State = State(
    clients: map<Client, ClientRec>, registry: seq<Client>,
    invs: map<Invitation, InvRec>, games: map<Game, GameRec>,
    players: map<Player, PlayerRec>, roster: seq<Player>,
    log: seq<Event>)

  const INITIAL := State(map[], [], map[], map[], map[], [], [])

  /* ---------- references ---------- */

  predicate Known(s: State, c: Client) {
    c in s.clients && (s.clients[c].player != null ==> s.clients[c].player in s.players)
  }

  /** The clients and the game of an invitation are known. */
  predicate Linked(s: State, i: Invitation) {
    && i in s.invs && Known(s, s.invs[i].source) && Known(s, s.invs[i].target)
    && (s.invs[i].game != null ==> s.invs[i].game in s.games)
  }

  /** What a client's request refers to is known. */
  predicate Resolves(s: State, c: Client, id: int) {
    Known(s, c) && var i := Lookup(s.clients[c].entries, id); i != null ==> Linked(s, i)
  }

  /* ---------- reference counts ---------- */

  /** client_unref, on the table of clients. */
  function Unref(clients: map<Client, ClientRec>, c: Client): map<Client, ClientRec>
    requires c in clients
  {
    clients[c := clients[c].(ref := clients[c].ref - 1)]
  }

  /** game_unref, on the table of games. */
  function UnrefGame(games: map<Game, GameRec>, g: Game): map<Game, GameRec>
    requires g in games
  {
    games[g := games[g].(ref := games[g].ref - 1)]
  }

  /** inv_unref: the last reference releases the game and the two clients too. */
  function UnrefInv(s: State, i: Invitation): State
    requires Linked(s, i)
  {
    var r := s.invs[i];
    var invs := s.invs[i := r.(ref := r.ref - 1)];
    if r.ref - 1 != 0 then s.(invs := invs)
    else
      s.(invs := invs,
         games := if r.game == null then s.games else UnrefGame(s.games, r.game),
         clients := Unref(Unref(s.clients, r.source), r.target))
  }

  function SetEntries(s: State, c: Client, es: seq<Entry>): State
    requires c in s.clients
  {
    s.(clients := s.clients[c := s.clients[c].(entries := es)])
  }

  /** client_remove_invitation. */
  function Remove(s: State, c: Client, i: Invitation): (r: (State, int))
    requires c in s.clients && Linked(s, i)
    ensures r.0.clients.Keys == s.clients.Keys && Linked(r.0, i)
  {
    var es := s.clients[c].entries;
    var k := Find(es, i);
    if k == |es| then (s, -1 as int) else (UnrefInv(SetEntries(s, c, Without(es, i)), i), es[k].id as int)
  }

  /* ---------- the steps the operations share ---------- */

  function Send(s: State, to: Client, kind: Kind, id: int, i: Invitation, text: string, ok: bool): State {
    if ok then s.(log := s.log + [Sent(to, kind, id, i, text)]) else s
  }

  function SetGame(s: State, g: Game, rec: GameRec): State {
    s.(games := s.games[g := rec])
  }

  /** inv_close on an invitation that can be closed. */
  function CloseInv(s: State, i: Invitation, role: Role): State
    requires Linked(s, i) && CanClose(s.invs[i], role)
  {
    var r := s.invs[i];
    var s1 := s.(invs := s.invs[i := r.(state := InvClosed)]);
    if r.state == InvAccepted then SetGame(s1, r.game, ResignBy(s.games[r.game], role)) else s1
  }

  predicate IsPlayed(r: InvRec, c: Client) {
    c == r.source || c == r.target
  }

  function RoleOf(r: InvRec, c: Client): Role {
    if c == r.source then r.sourceRole else r.targetRole
  }

  function Opponent(r: InvRec, c: Client): Client {
    if c == r.source then r.target else r.source
  }

  /** The players that post_player_results puts first and second. */
  function Seats(s: State, c: Client, d: Client, role: Role): (Player?, Player?)
    requires c in s.clients && d in s.clients
  {
    if role == First then (s.clients[c].player, s.clients[d].player)
    else (s.clients[d].player, s.clients[c].player)
  }

  /** The players after a result between two of them. */
  function Rated(players: map<Player, PlayerRec>, p1: Player, p2: Player, result: int, pow: int -> PosReal): map<Player, PlayerRec>
    requires p1 in players && p2 in players && IsResult(result)
  {
    var (r1, r2) := (players[p1].rating, players[p2].rating);
    var (n1, n2) := NewRatings(r1, r2, result, pow(r2 - r1));
    players[p1 := players[p1].(rating := n1)][p2 := players[p2].(rating := n2)]
  }

  /** post_player_results. */
  function Post(s: State, c: Client, d: Client, role: Role, winner: Role, i: Invitation, pow: int -> PosReal): State
    requires Known(s, c) && Known(s, d)
  {
    var (p1, p2) := Seats(s, c, d, role);
    if !Effective(p1, p2, Code(winner)) then s
    else
      s.(players := Rated(s.players, p1, p2, Code(winner), pow),
         log := s.log + [Scored(i, p1, p2, Code(winner))])
  }

  /** The removal from both lists that ends every operation, with the operation's result. */
  function RemoveBoth(s: State, c: Client, d: Client, i: Invitation): (State, int)
    requires c in s.clients && d in s.clients && Linked(s, i)
  {
    var (s1, r1) := Remove(s, c, i);
    if r1 == -1 then (s1, -1)
    else
      var (s2, r2) := Remove(s1, d, i);
      (s2, if r2 == -1 then -1 else 0)
  }

  /** The end of client_resign_game and client_make_move: post the result, then remove the
      invitation. */
  function Settle(s: State, c: Client, d: Client, role: Role, winner: Role, i: Invitation, pow: int -> PosReal): (State, int)
    requires Known(s, c) && Known(s, d) && Linked(s, i)
  {
    RemoveBoth(Post(s, c, d, role, winner, i, pow), c, d, i)
  }

  /* ---------- invitations ---------- */

  /** client_add_invitation, with the reference that the invitation takes on the client. */
  function Joined(rec: ClientRec, i: Invitation): ClientRec {
    rec.(ref := rec.ref + 1, entries := [Entry(LeastFree(Ids(rec.entries)), i)] + rec.entries)
  }

  /** client_make_invitation by one client to another. */
  function Make(s: State, c: Client, d: Client, cRole: Role, dRole: Role, i: Invitation, ok: bool): (State, int)
    requires c in s.clients && d in s.clients && c != d && s.clients[c].player != null
  {
    var (rc, rd) := (s.clients[c], s.clients[d]);
    var (ci, di) := (LeastFree(Ids(rc.entries)), LeastFree(Ids(rd.entries)));
    var s1 := s.(invs := s.invs[i := InvRec(InvOpen, 2, c, d, null, cRole, dRole)],
                 clients := s.clients[c := Joined(rc, i)][d := Joined(rd, i)]);
    (Send(s1, d, InvitedPkt(dRole), di, i, rc.player.name, ok), ci)
  }

  /** Whether a client is logged in under a name. */
  predicate IsUser(s: State, c: Client, name: string) {
    c in s.clients && s.clients[c].player != null && s.clients[c].player.name == name
  }

  /** The first of the given clients with a name: creg_lookup. */
  function LookupUser(s: State, cs: seq<Client>, name: string): (d: Client?)
    ensures d != null ==> d in cs && IsUser(s, d, name)
    ensures d == null ==> forall c <- cs :: !IsUser(s, c, name)
  {
    if cs == [] then null
    else if IsUser(s, cs[0], name) then cs[0]
    else LookupUser(s, cs[1..], name)
  }

  /** process_invite: the role in the header is the one the target is to play. */
  function Invite(s: State, c: Client, name: string, role: Role, i: Invitation, ok: bool): (State, int)
    requires c in s.clients && s.clients[c].player != null
  {
    var d := LookupUser(s, s.registry, name);
    if d == null || d == c || role == NullRole then (s, -1)
    else Make(s, c, d, Other(role), role, i, ok)
  }

  /** client_revoke_invitation. */
  function Revoke(s: State, c: Client, id: int, ok: bool): (State, int)
    requires Resolves(s, c, id)
  {
    var i := Lookup(s.clients[c].entries, id);
    if i == null || !CanClose(s.invs[i], NullRole) then (s, -1)
    else
      var d := s.invs[i].target;
      var s1 := CloseInv(s, i, NullRole);
      var s2 := Send(s1, d, RevokedPkt, IdOf(s.clients[d].entries, i), i, "", ok);
      if !ok then (s2, -1) else RemoveBoth(s2, c, d, i)
  }

  /** client_decline_invitation: a failed send or removal is only reported. */
  function Decline(s: State, c: Client, id: int, ok: bool): (State, int)
    requires Resolves(s, c, id)
  {
    var i := Lookup(s.clients[c].entries, id);
    if i == null || !CanClose(s.invs[i], NullRole) then (s, -1)
    else
      var d := s.invs[i].source;
      var s1 := CloseInv(s, i, NullRole);
      var s2 := Send(s1, d, DeclinedPkt, IdOf(s.clients[d].entries, i), i, "", ok);
      (Remove(Remove(s2, c, i).0, d, i).0, 0)
  }

  /** The initial board goes to whoever moves first: in the ACCEPTED packet to the source, or
      back to the accepting target. */
  const FIRST_BOARD := StateText(EMPTY, First)

  /** client_accept_invitation, where g is the game it creates. */
  function Accept(s: State, c: Client, id: int, g: Game, ok: bool): (State, int)
    requires Resolves(s, c, id)
  {
    var i := Lookup(s.clients[c].entries, id);
    if i == null || s.invs[i].target != c || s.invs[i].state != InvOpen then (s, -1)
    else
      var rec := s.invs[i];
      var s1 := s.(invs := s.invs[i := rec.(state := InvAccepted, game := g)], games := s.games[g := NEW_GAME]);
      var text := if rec.targetRole == First then "" else FIRST_BOARD;
      (Send(s1, rec.source, AcceptedPkt, IdOf(s.clients[rec.source].entries, i), i, text, ok), if ok then 0 else -1)
  }

  /* ---------- games ---------- */

  /** client_resign_game. */
  function Resign(s: State, c: Client, id: int, ok: bool, pow: int -> PosReal): (State, int)
    requires Resolves(s, c, id)
  {
    var i := Lookup(s.clients[c].entries, id);
    if i == null || !IsPlayed(s.invs[i], c) || !CanClose(s.invs[i], RoleOf(s.invs[i], c)) then (s, -1)
    else
      var rec := s.invs[i];
      var (role, d) := (RoleOf(rec, c), Opponent(rec, c));
      var s1 := CloseInv(s, i, role);
      var s2 := Send(s1, d, ResignedPkt, IdOf(s.clients[d].entries, i), i, "", ok);
      if !ok || s.clients[c].player == null || s.clients[d].player == null then (s2, -1)
      else Settle(s2, c, d, role, RoleOf(rec, d), i, pow)
  }

  /** The tail of client_make_move once the game is over. */
  function EndGame(s: State, c: Client, id: int, i: Invitation, ok2: bool, ok3: bool, pow: int -> PosReal): (State, int)
    requires Known(s, c) && Linked(s, i) && s.invs[i].game != null
  {
    var rec := s.invs[i];
    var d := Opponent(rec, c);
    var winner := s.games[rec.game].winner;
    var s1 := Send(s, d, EndedPkt(winner), IdOf(s.clients[d].entries, i), i, "", ok2);
    if !ok2 then (s1, -1)
    else
      var s2 := Send(s1, c, EndedPkt(winner), id, i, "", ok3);
      if !ok3 then (s2, -1) else Settle(s2, c, d, RoleOf(rec, c), winner, i, pow)
  }

  /** client_make_move once the move has been applied. */
  function TellMove(s: State, c: Client, id: int, i: Invitation, ok1: bool, ok2: bool, ok3: bool, pow: int -> PosReal): (State, int)
    requires Known(s, c) && Linked(s, i) && s.invs[i].game != null
  {
    var rec := s.invs[i];
    var (d, g) := (Opponent(rec, c), s.games[rec.game]);
    var s1 := Send(s, d, MovedPkt, IdOf(s.clients[d].entries, i), i, StateText(g.board, g.current), ok1);
    if !ok1 then (s1, -1)
    else
      var s2 := SetGame(s1, rec.game, Judge(g));
      if !Judge(g).over then (s2, 0) else EndGame(s2, c, id, i, ok2, ok3, pow)
  }

  /** client_make_move; ok1, ok2 and ok3 are the outcomes of its three sends. */
  function MakeMove(s: State, c: Client, id: int, text: string, ok1: bool, ok2: bool, ok3: bool, pow: int -> PosReal): (State, int)
    requires Resolves(s, c, id)
  {
    var i := Lookup(s.clients[c].entries, id);
    if i == null || s.invs[i].game == null || !IsPlayed(s.invs[i], c) then (s, -1)
    else
      var rec := s.invs[i];
      var (role, g) := (RoleOf(rec, c), s.games[rec.game]);
      var m := ParseMove(g.current, role, text);
      if m.None? || !CanApply(g, m.value.cell, role) then (s, -1)
      else TellMove(SetGame(s, rec.game, Apply(g, m.value.cell, role)), c, id, i, ok1, ok2, ok3, pow)
  }

  /* ---------- connections ---------- */

  /** creg_register. */
  function Connect(s: State, c: Client): State {
    if |s.registry| >= MAX_CLIENTS then s
    else s.(clients := s.clients[c := ClientRec(1, null, false, [])], registry := s.registry + [c])
  }

  /** process_login, where p is the player that would be created for a new name. */
  function Login(s: State, c: Client, p: Player): (State, int)
    requires c in s.clients
  {
    if s.clients[c].player != null || p.name == "" then (s, -1)
    else
      var q := Answer(s.roster, p);
      var players := if q in s.players then s.players else s.players[q := PlayerRec(1, INITIAL_RATING)];
      var s1 := s.(roster := Registered(s.roster, p), players := players);
      if LookupUser(s, s.registry, p.name) != null || s.clients[c].loggedIn then (s1, 1)
      else
        (s1.(clients := s.clients[c := s.clients[c].(player := q, loggedIn := true)],
             players := players[q := players[q].(ref := players[q].ref + 1)]), 1)
  }

  /** One node of the loop in client_logout; lost holds the invitations whose packet is not sent. */
  function LogoutOne(s: State, c: Client, e: Entry, lost: set<Invitation>, pow: int -> PosReal): State
    requires e.inv in s.invs && Resolves(s, c, e.id)
  {
    if s.invs[e.inv].game != null then Resign(s, c, e.id, e.inv !in lost, pow).0
    else if s.invs[e.inv].source == c then Revoke(s, c, e.id, e.inv !in lost).0
    else Decline(s, c, e.id, e.inv !in lost).0
  }

  /** The loop in client_logout, over the nodes that were in the list when it began.  The guard
      is never false in a reachable state (Operations.LogoutTurn). */
  function LogoutAll(s: State, c: Client, todo: seq<Entry>, lost: set<Invitation>, pow: int -> PosReal): State
    decreases |todo|
  {
    if todo == [] || todo[0].inv !in s.invs || !Resolves(s, c, todo[0].id) then s
    else LogoutAll(LogoutOne(s, c, todo[0], lost, pow), c, todo[1..], lost, pow)
  }

  /** client_logout. */
  function Logout(s: State, c: Client, lost: set<Invitation>, pow: int -> PosReal): (State, int)
    requires Known(s, c)
  {
    if !s.clients[c].loggedIn then (s, -1)
    else
      (DropPlayer(LogoutAll(s, c, s.clients[c].entries, lost, pow), c), 0)
  }

  /** The end of client_logout; the player stays recorded in the client. */
  function DropPlayer(s: State, c: Client): State {
    if !Known(s, c) || s.clients[c].player == null then s
    else
      var p := s.clients[c].player;
      s.(players := s.players[p := s.players[p].(ref := s.players[p].ref - 1)],
         clients := s.clients[c := s.clients[c].(loggedIn := false)])
  }

  /** creg_unregister of a client that has been logged out, or was never logged in. */
  function Unregister(s: State, c: Client): (State, int)
    requires c in s.clients
  {
    if c !in s.registry then (s, -1)
    else (s.(registry := Left(s.registry, c), clients := Unref(s.clients, c)), 0)
  }

  /** The end of the service thread: log out, then unregister. */
  function Exit(s: State, c: Client, lost: set<Invitation>, pow: int -> PosReal): State
    requires Known(s, c)
  {
    var s1 := Logout(s, c, lost, pow).0;
    if c in s1.clients then Unregister(s1, c).0 else s1
  }

  /* ---------- steps and runs ---------- */

  datatype Step =
    | SConnect(c: Client)
    | SLogin(c: Client, p: Player)
    | SInvite(c: Client, name: string, role: Role, i: Invitation, ok: bool)
    | SRevoke(c: Client, id: int, ok: bool)
    | SDecline(c: Client, id: int, ok: bool)
    | SAccept(c: Client, id: int, g: Game, ok: bool)
    | SResign(c: Client, id: int, ok: bool)
    | SMove(c: Client, id: int, text: string, ok1: bool, ok2: bool, ok3: bool)
    | SExit(c: Client, lost: set<Invitation>)

  /** New objects are new, requests come from registered clients, and everything but connecting
      and logging in is asked by a client that is logged in or leaving. */
  predicate Enabled(s: State, t: Step) {
    match t
    case SConnect(c) => c !in s.clients
    case SLogin(c, _) => c in s.registry
    case SExit(c, _) => c in s.registry
    case SInvite(c, _, _, i, _) => Active(s, c) && i !in s.invs
    case SAccept(c, _, g, _) => Active(s, c) && g !in s.games
    case SRevoke(c, _, _) => Active(s, c)
    case SDecline(c, _, _) => Active(s, c)
    case SResign(c, _, _) => Active(s, c)
    case SMove(c, _, _, _, _, _) => Active(s, c)
  }

  predicate Active(s: State, c: Client) {
    c in s.registry && c in s.clients && s.clients[c].loggedIn
  }
}
