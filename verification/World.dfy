/** All objects of a running server together, and the small steps its operations are made of.
    st is the abstract state of the objects; each step changes the objects and says how st changes. */
module Worlds {
  import opened Basics
  import opened Games
  import opened Players
  import opened PlayerRegistries
  import opened Clients
  import opened ClientRegistries
  import opened Sessions

  /** The objects that belong to a client. */
  ghost function Parts(c: Client): set<object>
    reads c.pool, c.invites
  {
    {c, c.pool, c.pool.availableIds, c.invites} + c.invites.footprint
  }

  /** The objects of a client are in repr and hold what the record says. */
  ghost predicate ClientAt(c: Client, r: ClientRec, repr: set<object>)
    reads repr
  {
    c in repr && c.pool in repr && c.invites in repr && Parts(c) <= repr && c.Valid() && c.Rec() == r
  }

  ghost predicate GameAt(g: Game, r: GameRec, repr: set<object>)
    reads repr
  {
    g in repr && g.rows in repr && g.Valid() && g.Rec() == r
  }

  /* ---------- the effect of the small steps ---------- */

  /** client_ref, on the table of clients. */
  function Ref(clients: map<Client, ClientRec>, c: Client): map<Client, ClientRec>
    requires c in clients
  {
    clients[c := clients[c].(ref := clients[c].ref + 1)]
  }

  function RefInv(s: State, i: Invitation): State
    requires i in s.invs
  {
    s.(invs := s.invs[i := s.invs[i].(ref := s.invs[i].ref + 1)])
  }

  /** client_add_invitation. */
  function Add(s: State, c: Client, i: Invitation): State
    requires c in s.clients && i in s.invs
  {
    var es := s.clients[c].entries;
    RefInv(SetEntries(s, c, [Entry(LeastFree(Ids(es)), i)] + es), i)
  }

  function AddRef(players: map<Player, PlayerRec>, p: Player, n: int): map<Player, PlayerRec> {
    if p in players then players[p := players[p].(ref := players[p].ref + n)] else players
  }

  /** A reference to each of some players. */
  function RefAll(players: map<Player, PlayerRec>, ps: seq<Player>): map<Player, PlayerRec> {
    if ps == [] then players else AddRef(RefAll(players, ps[1..]), ps[0], 1)
  }

  lemma {:induction false} RefAllKeys(players: map<Player, PlayerRec>, ps: seq<Player>)
    ensures RefAll(players, ps).Keys == players.Keys
  {
    if ps != [] {
      RefAllKeys(players, ps[1..]);
    }
  }

  lemma {:induction false} RefAllSnoc(players: map<Player, PlayerRec>, ps: seq<Player>, p: Player)
    ensures RefAll(players, ps + [p]) == AddRef(RefAll(players, ps), p, 1)
  {
    if ps == [] {
      assert ps + [p] == [p];
    } else {
      assert (ps + [p])[1..] == ps[1..] + [p];
      RefAllSnoc(players, ps[1..], p);
    }
  }

  /** Giving the first of the references back. */
  lemma RefAllBack(players: map<Player, PlayerRec>, ps: seq<Player>)
    requires ps != []
    ensures AddRef(RefAll(players, ps), ps[0], -1) == RefAll(players, ps[1..])
  {
  }

  /** The players of those of the clients that have one. */
  function PlayersIn(s: State, cs: seq<Client>): seq<Player> {
    if cs == [] then []
    else
      PlayersIn(s, cs[..|cs| - 1])
      + var c := cs[|cs| - 1];
        if c in s.clients && s.clients[c].player != null then [s.clients[c].player] else []
  }

  /** preg_register, with the reference it returns. */
  function Enrolled(s: State, q: Player): State {
    s.(roster := Registered(s.roster, q),
       players := if q in s.players then AddRef(s.players, q, 1) else s.players[q := PlayerRec(2, INITIAL_RATING)])
  }

  /** The nodes of every client's list, after some have been unlinked. */
  ghost predicate Thinner(lists: map<Client, seq<Node>>, lists': map<Client, seq<Node>>) {
    lists'.Keys == lists.Keys && forall c <- lists :: forall n <- lists'[c] :: n in lists[c]
  }

  class World {
    const registry: ClientRegistry
    const roster: PlayerRegistry
    ghost var st: State
    /** The nodes of every client's list. */
    ghost var lists: map<Client, seq<Node>>
    ghost var repr: set<object>

    ghost predicate RegistriesAt()
      reads this, repr
    {
      && registry in repr && registry.clients in repr && registry.Valid() && registry.contents == st.registry
      && roster in repr && roster.footprint <= repr && roster.Valid() && roster.roster == st.roster
    }

    ghost predicate ClientsAt()
      reads this, repr
    {
      && (forall c <- st.clients :: ClientAt(c, st.clients[c], repr))
      && lists.Keys == st.clients.Keys && (forall c <- st.clients :: c.invites.nodes == lists[c])
      && (forall c, d :: c in st.clients && d in st.clients && c != d ==> Parts(c) !! Parts(d))
    }

    ghost predicate GamesAt()
      reads this, repr
    {
      && (forall g <- st.games :: GameAt(g, st.games[g], repr))
      && (forall g, h :: g in st.games && h in st.games && g != h ==> g.rows != h.rows)
    }

    ghost predicate InvsAt()
      reads this, repr
    {
      forall i <- st.invs :: i in repr && i.Rec() == st.invs[i]
    }

    ghost predicate PlayersAt()
      reads this, repr
    {
      forall p <- st.players :: p in repr && p.Rec() == st.players[p]
    }

    ghost predicate Valid()
      reads this, repr
    {
      this !in repr && RegistriesAt() && ClientsAt() && GamesAt() && InvsAt() && PlayersAt()
    }

    constructor ()
      ensures Valid() && fresh(repr) && st == INITIAL && lists == map[]
    {
      registry := new ClientRegistry();
      roster := new PlayerRegistry();
      st := INITIAL;
      lists := map[];
      new;
      repr := {registry, registry.clients, roster};
    }

    lemma ClientHere(c: Client)
      requires Valid() && c in st.clients
      ensures ClientAt(c, st.clients[c], repr) && c in repr && c.Rec() == st.clients[c]
      ensures c.invites.entries == st.clients[c].entries && c in lists && c.invites.nodes == lists[c]
    {
    }

    /** A client without invitations has every ID free. */
    lemma PoolIsFree(c: Client)
      requires Valid() && c in st.clients && st.clients[c].entries == []
      ensures c.pool.idUsage == 0
      ensures forall k: nat :: k < c.pool.availableIds.Length ==> c.pool.availableIds[k] == k
    {
      ClientHere(c);
    }

    lemma NodeHere(c: Client, k: nat)
      requires Valid() && c in st.clients
      ensures c in lists && |lists[c]| == |st.clients[c].entries| && c.invites.head == Nth(lists[c], 0)
      ensures k < |lists[c]| ==>
                && lists[c][k].next == Nth(lists[c], k + 1)
                && st.clients[c].entries[k] == Entry(lists[c][k].id, lists[c][k].invitation)
    {
      hide RegistriesAt, GamesAt, InvsAt, PlayersAt, IdPool.Valid;
    }

    lemma NodesHere(c: Client)
      requires Valid() && c in st.clients
      ensures c in lists && |lists[c]| == |st.clients[c].entries|
      ensures forall k :: 0 <= k < |lists[c]| ==> st.clients[c].entries[k] == Entry(lists[c][k].id, lists[c][k].invitation)
    {
      hide Valid;
      NodeHere(c, 0);
      forall k | 0 <= k < |lists[c]|
        ensures st.clients[c].entries[k] == Entry(lists[c][k].id, lists[c][k].invitation)
      {
        NodeHere(c, k);
      }
    }

    lemma RegistryHere(k: nat)
      requires Valid()
      ensures registry.length == |st.registry| <= registry.clients.Length
      ensures k < |st.registry| ==> registry.clients[k] == st.registry[k]
    {
    }

    lemma RosterHere()
      requires Valid()
      ensures roster in repr && roster.footprint <= repr && roster.Valid() && roster.roster == st.roster && this !in repr
    {
    }

    lemma PartsHere(c: Client)
      requires Valid() && c in st.clients
      ensures Parts(c) <= repr && this !in repr
    {
    }

    lemma InvHere(i: Invitation)
      requires Valid() && i in st.invs
      ensures i in repr && i.Rec() == st.invs[i]
    {
    }

    lemma GameHere(g: Game)
      requires Valid() && g in st.games
      ensures GameAt(g, st.games[g], repr) && g.Valid() && g.Rec() == st.games[g]
    {
    }

    lemma PlayerHere(p: Player)
      requires Valid() && p in st.players
      ensures p in repr && p.Rec() == st.players[p] && this !in repr
    {
    }

    /* ---------- what a change leaves alone ---------- */

    /** Of the objects there were, only some have changed. */
    twostate predicate Frame(new mods: set<object>)
      reads this, repr
    {
      old(repr) <= repr && this !in repr && forall o <- old(repr) :: o !in mods ==> unchanged(o)
    }

    twostate lemma SameRegistries(new mods: set<object>)
      requires old(RegistriesAt()) && Frame(mods) && st.registry == old(st.registry) && st.roster == old(st.roster)
      requires registry !in mods && registry.clients !in mods && roster !in mods && old(roster.footprint) !! mods
      ensures RegistriesAt()
    {
      hide ClientRegistry.Valid, PlayerRegistry.Valid;
    }

    twostate lemma SameClients(new mods: set<object>)
      requires old(ClientsAt()) && Frame(mods) && st.clients == old(st.clients) && lists == old(lists)
      requires forall d <- st.clients :: old(Parts(d)) !! mods
      ensures ClientsAt()
    {
      hide Client.Valid;
    }

    /** A client may own objects it did not own before, if they are new. */
    twostate predicate OwnsNew(new c: Client)
      reads this, c.pool, c.invites
    {
      forall o <- Parts(c) :: o !in old(repr) || (c in old(st.clients) && o in old(Parts(c)))
    }

    twostate lemma PartsApart(c: Client)
      requires old(ClientsAt()) && c in old(st.clients)
      ensures forall d <- old(st.clients) :: d != c ==> old(Parts(d)) !! old(Parts(c))
    {
    }

    twostate lemma OtherClient(new mods: set<object>, d: Client)
      requires old(ClientsAt()) && Frame(mods) && d in old(st.clients) && d in st.clients && st.clients[d] == old(st.clients)[d]
      requires old(Parts(d)) !! mods
      ensures ClientAt(d, st.clients[d], repr) && Parts(d) == old(Parts(d)) && Parts(d) <= old(repr)
      ensures d in old(lists) && d.invites.nodes == old(lists)[d]
    {
      hide Client.Valid;
    }

    twostate lemma ChangedClients(new mods: set<object>, new c: Client)
      requires old(ClientsAt()) && Frame(mods)
      requires c in st.clients && st.clients == old(st.clients)[c := st.clients[c]]
      requires lists == old(lists)[c := c.invites.nodes]
      requires forall d <- old(st.clients) :: d != c ==> old(Parts(d)) !! mods
      requires ClientAt(c, st.clients[c], repr) && OwnsNew(c)
      ensures ClientsAt()
    {
      hide ClientAt, Frame, Parts;
      forall d <- st.clients | d != c
        ensures ClientAt(d, st.clients[d], repr) && Parts(d) == old(Parts(d)) && Parts(d) <= old(repr)
        ensures d in old(lists) && d.invites.nodes == old(lists)[d]
      {
        OtherClient(mods, d);
      }
    }

    twostate lemma SameGames(new mods: set<object>)
      requires old(GamesAt()) && Frame(mods) && st.games == old(st.games)
      requires forall h <- st.games :: h !in mods && h.rows !in mods
      ensures GamesAt()
    {
    }

    twostate lemma RowsApart(new g: Game)
      requires old(GamesAt()) && (g in old(st.games) || g.rows !in old(repr))
      ensures forall h <- old(st.games) :: h != g ==> h.rows != g.rows
    {
    }

    twostate lemma ChangedGames(new mods: set<object>, new g: Game)
      requires old(GamesAt()) && Frame(mods) && (g.rows !in old(repr) || g in old(st.games))
      requires g in st.games && st.games == old(st.games)[g := st.games[g]]
      requires forall h <- st.games :: h != g ==> h !in mods && h.rows !in mods
      requires GameAt(g, st.games[g], repr)
      ensures GamesAt()
    {
    }

    twostate lemma KeepInvs(new mods: set<object>)
      requires old(InvsAt()) && Frame(mods)
      requires forall i <- st.invs ::
                 if i in mods then i in repr && i.Rec() == st.invs[i]
                 else i in old(st.invs) && st.invs[i] == old(st.invs)[i]
      ensures InvsAt()
    {
    }

    twostate lemma KeepPlayers(new mods: set<object>)
      requires old(PlayersAt()) && Frame(mods)
      requires forall p <- st.players ::
                 if p in mods then p in repr && p.Rec() == st.players[p]
                 else p in old(st.players) && st.players[p] == old(st.players)[p]
      ensures PlayersAt()
    {
    }

    /** Only what belongs to one client has changed. */
    twostate lemma OneClient(c: Client)
      requires old(Valid()) && c in old(st.clients) && Frame(old(Parts(c)))
      requires st == old(st).(clients := st.clients) && c in st.clients
      requires st.clients == old(st).clients[c := st.clients[c]] && lists == old(lists)[c := c.invites.nodes]
      requires ClientAt(c, st.clients[c], repr) && OwnsNew(c)
      ensures Valid()
    {
      hide ClientAt, RegistriesAt, ClientsAt, GamesAt, InvsAt, PlayersAt, OwnsNew;
      var mods := old(Parts(c));
      PartsApart(c);
      SameRegistries(mods);
      ChangedClients(mods, c);
      SameGames(mods);
      KeepInvs(mods);
      KeepPlayers(mods);
    }

    /** Only one invitation has changed, or is new. */
    twostate lemma OneInv(new i: Invitation)
      requires old(Valid()) && Frame({i})
      requires lists == old(lists) && st == old(st).(invs := st.invs) && i in st.invs && st.invs == old(st).invs[i := st.invs[i]]
      requires i in repr && i.Rec() == st.invs[i]
      ensures Valid()
    {
      hide ClientAt, GameAt, RegistriesAt, GamesAt, ClientsAt, InvsAt, PlayersAt;
      var mods: set<object> := {i};
      SameRegistries(mods);
      SameClients(mods);
      SameGames(mods);
      KeepInvs(mods);
      KeepPlayers(mods);
    }

    /** Only one game has changed. */
    twostate lemma OneGame(g: Game)
      requires old(Valid()) && Frame({g, g.rows}) && g in old(st.games)
      requires lists == old(lists) && st == old(st).(games := st.games) && g in st.games && st.games == old(st).games[g := st.games[g]]
      requires GameAt(g, st.games[g], repr)
      ensures Valid()
    {
      hide ClientAt, GameAt, RegistriesAt, ClientsAt, InvsAt, PlayersAt;
      var mods: set<object> := {g, g.rows};
      SameRegistries(mods);
      SameClients(mods);
      ChangedGames(mods, g);
      KeepInvs(mods);
      KeepPlayers(mods);
    }

    /** One invitation has changed, and its game has changed or is new. */
    twostate lemma InvAndGame(i: Invitation, new g: Game)
      requires old(Valid()) && Frame({i, g, g.rows}) && i in old(st.invs) && (g in old(st.games) || g.rows !in old(repr))
      requires lists == old(lists) && st == old(st).(invs := st.invs, games := st.games)
      requires i in st.invs && st.invs == old(st).invs[i := st.invs[i]] && i in repr && i.Rec() == st.invs[i]
      requires g in st.games && st.games == old(st).games[g := st.games[g]] && GameAt(g, st.games[g], repr)
      ensures Valid()
    {
      hide ClientAt, GameAt, RegistriesAt, ClientsAt, GamesAt, InvsAt, PlayersAt;
      var mods: set<object> := {i, g, g.rows};
      RowsApart(g);
      SameRegistries(mods);
      SameClients(mods);
      ChangedGames(mods, g);
      KeepInvs(mods);
      KeepPlayers(mods);
    }

    /** Only players that were there have changed, and the log. */
    twostate lemma SomePlayers(mods: set<Player>)
      requires old(Valid()) && Frame(mods)
      requires lists == old(lists) && st == old(st).(players := st.players, log := st.log) && st.players.Keys == old(st).players.Keys
      requires forall p <- st.players :: if p in mods then p.Rec() == st.players[p] else st.players[p] == old(st).players[p]
      ensures Valid()
    {
      hide ClientAt, GameAt, RegistriesAt, GamesAt, ClientsAt, InvsAt;
      SameRegistries(mods);
      SameClients(mods);
      SameGames(mods);
      KeepInvs(mods);
      KeepPlayers(mods);
    }

    /** Nothing but the log has changed. */
    twostate lemma OnlyLog()
      requires old(Valid()) && Frame({}) && lists == old(lists) && st == old(st).(log := st.log)
      ensures Valid()
    {
      hide ClientAt, GameAt, RegistriesAt, GamesAt, ClientsAt, InvsAt, PlayersAt;
      var mods: set<object> := {};
      SameRegistries(mods);
      SameClients(mods);
      SameGames(mods);
      KeepInvs(mods);
      KeepPlayers(mods);
    }

    /** A client is new. */
    twostate lemma NewClient(new c: Client)
      requires old(Valid()) && Frame({}) && c !in old(st.clients) && Parts(c) !! old(repr)
      requires st == old(st).(clients := st.clients) && c in st.clients
      requires st.clients == old(st).clients[c := st.clients[c]] && lists == old(lists)[c := c.invites.nodes]
      requires ClientAt(c, st.clients[c], repr)
      ensures Valid()
    {
      hide ClientAt, RegistriesAt, ClientsAt, GamesAt, InvsAt, PlayersAt;
      var mods: set<object> := {};
      SameRegistries(mods);
      ChangedClients(mods, c);
      SameGames(mods);
      KeepInvs(mods);
      KeepPlayers(mods);
    }

    /** Only the client registry has changed. */
    twostate lemma OneRegistry()
      requires old(Valid()) && Frame({registry, registry.clients}) && lists == old(lists) && st == old(st).(registry := st.registry)
      requires registry.Valid() && registry.contents == st.registry
      ensures Valid()
    {
      hide ClientAt, GameAt, ClientsAt, GamesAt, InvsAt, PlayersAt, ClientRegistry.Valid, PlayerRegistry.Valid;
      var mods: set<object> := {registry, registry.clients};
      SameClients(mods);
      SameGames(mods);
      KeepInvs(mods);
      KeepPlayers(mods);
    }

    /** Only the player registry and one player have changed. */
    twostate lemma OneRoster(new q: Player)
      requires old(Valid()) && Frame({roster, q} + old(roster.footprint)) && lists == old(lists)
      requires st == old(st).(roster := st.roster, players := st.players)
      requires roster.Valid() && roster.roster == st.roster && roster.footprint <= repr
      requires q in repr && q in st.players && q.Rec() == st.players[q] && st.players == old(st).players[q := st.players[q]]
      ensures Valid()
    {
      hide ClientAt, GameAt, ClientsAt, GamesAt, InvsAt, PlayersAt, ClientRegistry.Valid, PlayerRegistry.Valid;
      var mods: set<object> := {roster, q} + old(roster.footprint);
      SameClients(mods);
      SameGames(mods);
      KeepInvs(mods);
      KeepPlayers(mods);
    }

    /* ---------- counts ---------- */

    /** client_ref. */
    method ClientRef(c: Client)
      requires Valid() && c in st.clients
      modifies this`st, repr
      ensures Valid() && repr == old(repr) && lists == old(lists) && st == old(st).(clients := Ref(old(st).clients, c))
    {
      hide RegistriesAt, ClientsAt, GamesAt, InvsAt, PlayersAt, Client.Valid;
      ClientHere(c);
      c.refCount := c.refCount + 1;
      st := st.(clients := Ref(st.clients, c));
      assert lists == lists[c := c.invites.nodes];
      OneClient(c);
    }

    /** client_unref.  The logout it starts when it releases a client that is logged in is not
        reached: such a client is registered. */
    method ClientUnref(c: Client)
      requires Valid() && c in st.clients
      modifies this`st, repr
      ensures Valid() && repr == old(repr) && lists == old(lists) && st == old(st).(clients := Unref(old(st).clients, c))
    {
      hide RegistriesAt, ClientsAt, GamesAt, InvsAt, PlayersAt, Client.Valid;
      ClientHere(c);
      c.refCount := c.refCount - 1;
      st := st.(clients := Unref(st.clients, c));
      assert lists == lists[c := c.invites.nodes];
      OneClient(c);
    }

    /** game_unref. */
    method GameUnref(g: Game)
      requires Valid() && g in st.games
      modifies this`st, repr
      ensures Valid() && repr == old(repr) && lists == old(lists) && st == old(st).(games := UnrefGame(old(st).games, g))
    {
      hide RegistriesAt, ClientsAt, GamesAt, InvsAt, PlayersAt;
      GameHere(g);
      g.refCount := g.refCount - 1;
      st := st.(games := UnrefGame(st.games, g));
      OneGame(g);
    }

    /** player_ref (n is 1) and player_unref (n is -1). */
    method PlayerCount(p: Player, n: int)
      requires Valid() && p in st.players
      modifies this`st, repr
      ensures Valid() && repr == old(repr) && lists == old(lists) && st == old(st).(players := AddRef(old(st).players, p, n))
    {
      hide RegistriesAt, ClientsAt, GamesAt, InvsAt, PlayersAt;
      PlayerHere(p);
      p.refCount := p.refCount + n;
      st := st.(players := AddRef(st.players, p, n));
      SomePlayers({p});
    }

    /** inv_ref. */
    method InvRef(inv: Invitation)
      requires Valid() && inv in st.invs
      modifies this`st, repr
      ensures Valid() && repr == old(repr) && lists == old(lists) && st == RefInv(old(st), inv)
    {
      hide RegistriesAt, ClientsAt, GamesAt, InvsAt, PlayersAt;
      InvHere(inv);
      inv.refCount := inv.refCount + 1;
      st := RefInv(st, inv);
      OneInv(inv);
    }

    method InvDrop(inv: Invitation)
      requires Valid() && inv in st.invs
      modifies this`st, repr
      ensures Valid() && repr == old(repr) && lists == old(lists)
      ensures st == old(st).(invs := old(st).invs[inv := old(st).invs[inv].(ref := old(st).invs[inv].ref - 1)])
    {
      hide RegistriesAt, ClientsAt, GamesAt, InvsAt, PlayersAt;
      InvHere(inv);
      inv.refCount := inv.refCount - 1;
      st := st.(invs := st.invs[inv := st.invs[inv].(ref := st.invs[inv].ref - 1)]);
      OneInv(inv);
    }

    /** inv_unref: the last reference releases the game and the two clients too. */
    method InvUnref(inv: Invitation)
      requires Valid() && Linked(st, inv)
      modifies this`st, repr
      ensures Valid() && repr == old(repr) && lists == old(lists) && st == UnrefInv(old(st), inv)
    {
      hide World.Valid;
      InvDrop(inv);
      InvHere(inv);
      if inv.refCount == 0 {
        if inv.game != null {
          GameUnref(inv.game);
          InvHere(inv);
        }
        ClientUnref(inv.source);
        ClientUnref(inv.target);
      }
    }

    /* ---------- lists ---------- */

    /** client_get_invitation. */
    method GetInvitation(c: Client, id: int) returns (inv: Invitation?)
      requires Valid() && c in st.clients
      ensures inv == Lookup(st.clients[c].entries, id)
    {
      hide RegistriesAt, ClientsAt, GamesAt, InvsAt, PlayersAt;
      ClientHere(c);
      inv := c.invites.GetInvitation(id);
    }

    /** client_get_invitation_id. */
    method GetInvitationId(c: Client, inv: Invitation) returns (id: int)
      requires Valid() && c in st.clients
      ensures id == IdOf(st.clients[c].entries, inv)
    {
      hide RegistriesAt, ClientsAt, GamesAt, InvsAt, PlayersAt;
      ClientHere(c);
      id := c.invites.GetInvitationId(inv);
    }

    /** The unlinking in client_remove_invitation, and the ID's return to the pool. */
    method Unlist(c: Client, inv: Invitation) returns (id: int)
      requires Valid() && c in st.clients
      modifies this`st, this`lists, repr
      ensures Valid() && repr == old(repr) && Thinner(old(lists), lists)
      ensures id == IdOf(old(st).clients[c].entries, inv)
      ensures st == SetEntries(old(st), c, Without(old(st).clients[c].entries, inv))
    {
      hide RegistriesAt, ClientsAt, GamesAt, InvsAt, PlayersAt, Client.Valid, Holds, LeastFree, Ids, Without, IdOf;
      ClientHere(c);
      id := c.RemoveInvitation(inv);
      st := SetEntries(st, c, Without(st.clients[c].entries, inv));
      lists := lists[c := c.invites.nodes];
      OneClient(c);
    }

    /** client_remove_invitation. */
    method RemoveInvitation(c: Client, inv: Invitation) returns (id: int)
      requires Valid() && c in st.clients && Linked(st, inv)
      modifies this`st, this`lists, repr
      ensures Valid() && repr == old(repr) && Thinner(old(lists), lists) && (st, id) == Remove(old(st), c, inv)
    {
      hide World.Valid;
      id := Unlist(c, inv);
      if id != -1 {
        InvUnref(inv);
      } else {
        assert st == old(st);
      }
    }

    /** The linking in client_add_invitation under the least free ID, on the client's own objects. */
    method Link(c: Client, inv: Invitation) returns (id: nat)
      requires Valid() && c in st.clients && !Holds(st.clients[c].entries, inv)
      modifies repr
      ensures id == LeastFree(Ids(st.clients[c].entries))
      ensures ClientAt(c, st.clients[c].(entries := [Entry(id, inv)] + st.clients[c].entries), repr + Parts(c))
      ensures fresh(Parts(c) - old(Parts(c))) && forall o <- repr :: o !in old(Parts(c)) ==> unchanged(o)
    {
      hide RegistriesAt, ClientsAt, GamesAt, InvsAt, PlayersAt, Client.Valid, Holds, LeastFree, Ids;
      ClientHere(c);
      id := c.AddInvitation(inv);
    }

    /** The same on the whole state. */
    method Enlist(c: Client, inv: Invitation) returns (id: nat)
      requires Valid() && c in st.clients && !Holds(st.clients[c].entries, inv)
      modifies this`st, this`lists, this`repr, repr
      ensures Valid() && fresh(repr - old(repr))
      ensures id == LeastFree(Ids(old(st).clients[c].entries))
      ensures st == SetEntries(old(st), c, [Entry(id, inv)] + old(st).clients[c].entries)
    {
      hide World.Valid, Parts, ClientAt, Holds, LeastFree, Ids;
      ClientHere(c);
      PartsHere(c);
      id := Link(c, inv);
      repr := repr + Parts(c);
      st := SetEntries(st, c, [Entry(id, inv)] + st.clients[c].entries);
      lists := lists[c := c.invites.nodes];
      OneClient(c);
    }

    /** client_add_invitation. */
    method AddInvitation(c: Client, inv: Invitation) returns (id: nat)
      requires Valid() && c in st.clients && inv in st.invs && !Holds(st.clients[c].entries, inv)
      modifies this`st, this`lists, this`repr, repr
      ensures Valid() && fresh(repr - old(repr))
      ensures id == LeastFree(Ids(old(st).clients[c].entries)) && st == Add(old(st), c, inv)
    {
      hide World.Valid;
      id := Enlist(c, inv);
      InvRef(inv);
    }

    /* ---------- invitations and games ---------- */

    /** inv_create. */
    method NewInvitation(source: Client, target: Client, sourceRole: Role, targetRole: Role) returns (inv: Invitation)
      requires Valid() && source in st.clients && target in st.clients
      modifies this`st, this`repr, repr
      ensures Valid() && fresh(inv) && fresh(repr - old(repr)) && lists == old(lists)
      ensures inv !in old(st).invs
      ensures st == old(st).(invs := old(st).invs[inv := InvRec(InvOpen, 1, source, target, null, sourceRole, targetRole)],
                             clients := Ref(Ref(old(st).clients, source), target))
    {
      hide RegistriesAt, ClientsAt, GamesAt, PlayersAt;
      inv := new Invitation(source, target, sourceRole, targetRole);
      assert inv !in st.invs;
      st := st.(invs := st.invs[inv := InvRec(InvOpen, 1, source, target, null, sourceRole, targetRole)]);
      repr := repr + {inv};
      OneInv(inv);
      ClientRef(source);
      ClientRef(target);
    }

    /** inv_accept. */
    method AcceptInvitation(inv: Invitation) returns (ok: bool)
      requires Valid() && inv in st.invs
      modifies this`st, this`repr, repr
      ensures Valid() && fresh(repr - old(repr)) && lists == old(lists)
      ensures ok == (old(st).invs[inv].state == InvOpen)
      ensures if !ok then st == old(st)
              else
                && inv.game != null && inv.game !in old(st).games
                && st == old(st).(invs := old(st).invs[inv := old(st).invs[inv].(state := InvAccepted, game := inv.game)],
                                  games := old(st).games[inv.game := NEW_GAME])
    {
      hide RegistriesAt, ClientsAt, InvsAt, PlayersAt;
      InvHere(inv);
      ok := inv.Accept();
      if ok {
        assert inv.game !in st.games;
        st := st.(invs := st.invs[inv := st.invs[inv].(state := InvAccepted, game := inv.game)],
                  games := st.games[inv.game := NEW_GAME]);
        repr := repr + {inv.game, inv.game.rows};
        InvAndGame(inv, inv.game);
      } else {
        assert st.invs == st.invs[inv := st.invs[inv]];
        OneInv(inv);
      }
    }

    /** inv_close. */
    method Close(inv: Invitation, role: Role) returns (ok: bool)
      requires Valid() && Linked(st, inv)
      modifies this`st, repr
      ensures Valid() && repr == old(repr) && lists == old(lists) && ok == CanClose(old(st).invs[inv], role)
      ensures st == if ok then CloseInv(old(st), inv, role) else old(st)
    {
      hide RegistriesAt, ClientsAt, GamesAt, InvsAt, PlayersAt;
      InvHere(inv);
      if inv.game != null {
        GameHere(inv.game);
      }
      ok := inv.Close(role);
      if ok {
        st := CloseInv(st, inv, role);
      }
      if inv.game != null {
        assert old(st).games == old(st).games[inv.game := old(st).games[inv.game]];
        assert old(st).invs == old(st).invs[inv := old(st).invs[inv]];
        InvAndGame(inv, inv.game);
      } else {
        assert old(st).invs == old(st).invs[inv := old(st).invs[inv]];
        OneInv(inv);
      }
    }

    /** game_apply_move. */
    method ApplyMove(g: Game, cell: nat, role: Role) returns (ok: bool)
      requires Valid() && g in st.games && cell < 9
      modifies this`st, repr
      ensures Valid() && repr == old(repr) && lists == old(lists) && ok == CanApply(old(st).games[g], cell, role)
      ensures st == SetGame(old(st), g, Apply(old(st).games[g], cell, role))
    {
      hide RegistriesAt, ClientsAt, GamesAt, InvsAt, PlayersAt, Apply;
      GameHere(g);
      ok := g.ApplyMove(cell, role);
      st := SetGame(st, g, Apply(st.games[g], cell, role));
      OneGame(g);
    }

    /** game_is_over. */
    method IsOver(g: Game) returns (over: bool)
      requires Valid() && g in st.games
      modifies this`st, repr
      ensures Valid() && repr == old(repr) && lists == old(lists) && over == Judge(old(st).games[g]).over
      ensures st == SetGame(old(st), g, Judge(old(st).games[g]))
    {
      hide RegistriesAt, ClientsAt, GamesAt, InvsAt, PlayersAt, Judge;
      GameHere(g);
      over := g.IsOver();
      st := SetGame(st, g, Judge(st.games[g]));
      OneGame(g);
    }

    /** client_send_packet: sent is whether the system takes the whole packet. */
    method SendPacket(to: Client, kind: Kind, id: int, inv: Invitation, text: string, sent: bool)
      requires Valid()
      modifies this`st
      ensures Valid() && st == Send(old(st), to, kind, id, inv, text, sent)
    {
      hide RegistriesAt, ClientsAt, GamesAt, InvsAt, PlayersAt;
      st := Send(st, to, kind, id, inv, text, sent);
      OnlyLog();
    }

    /* ---------- players ---------- */

    /** player_post_result. */
    method Rate(player1: Player, player2: Player, result: int, inv: Invitation, pow: int -> PosReal)
      requires Valid() && player1 in st.players && player2 in st.players && IsResult(result)
      modifies this`st, repr
      ensures Valid() && repr == old(repr) && lists == old(lists)
      ensures st == if player1 == player2 then old(st)
                    else old(st).(players := Rated(old(st).players, player1, player2, result, pow),
                                  log := old(st).log + [Scored(inv, player1, player2, result)])
    {
      hide World.Valid, NewRatings;
      PlayerHere(player1);
      PlayerHere(player2);
      PostResult(player1, player2, result, pow);
      if player1 != player2 {
        st := st.(players := Rated(st.players, player1, player2, result, pow),
                  log := st.log + [Scored(inv, player1, player2, result)]);
      }
      SomePlayers({player1, player2});
    }

    /** post_player_results. */
    method PostResults(c: Client, d: Client, role: Role, winner: Role, inv: Invitation, pow: int -> PosReal) returns (ok: bool)
      requires Valid() && Known(st, c) && Known(st, d)
      modifies this`st, repr
      ensures Valid() && repr == old(repr) && lists == old(lists)
      ensures ok == (old(st).clients[c].player != null && old(st).clients[d].player != null)
      ensures st == Post(old(st), c, d, role, winner, inv, pow)
    {
      hide World.Valid, Rated, ClientAt;
      ClientHere(c);
      ClientHere(d);
      var player1, player2: Player? := null, null;
      if role == First {
        player1, player2 := c.player, d.player;
      } else {
        player1, player2 := d.player, c.player;
      }
      if player1 == null || player2 == null {
        return false;
      }
      Rate(player1, player2, Code(winner), inv, pow);
      return true;
    }

    /** creg_lookup: the client found carries one more reference. */
    method LookupClient(name: string) returns (d: Client?)
      requires Valid() && forall c <- st.registry :: Known(st, c)
      modifies this`st, repr
      ensures Valid() && repr == old(repr) && lists == old(lists) && d == LookupUser(old(st), old(st).registry, name)
      ensures st == if d == null then old(st) else old(st).(clients := Ref(old(st).clients, d))
    {
      hide World.Valid, ClientAt;
      RegistryHere(0);
      var i := 0;
      while i < registry.length
        invariant Valid() && repr == old(repr) && lists == old(lists) && st == old(st)
        invariant 0 <= i <= registry.length == |st.registry|
        invariant LookupUser(st, st.registry, name) == LookupUser(st, st.registry[i..], name)
      {
        assert st.registry[i..][1..] == st.registry[i + 1..];
        RegistryHere(i);
        var c := registry.clients[i];
        if c != null {
          assert c in st.registry;
          ClientHere(c);
          if c.player != null && c.player.name == name {
            ClientRef(c);
            return c;
          }
        }
        i := i + 1;
      }
      return null;
    }

    /** creg_all_players: every player in the list carries one more reference. */
    method AllPlayers() returns (ps: seq<Player>)
      requires Valid() && forall c <- st.registry :: Known(st, c)
      modifies this`st, repr
      ensures Valid() && repr == old(repr) && lists == old(lists) && ps == PlayersIn(old(st), old(st).registry)
      ensures st == old(st).(players := RefAll(old(st).players, ps))
    {
      hide World.Valid, ClientAt;
      ps := [];
      RegistryHere(0);
      var i := 0;
      ghost var reg := st.registry;
      while i < registry.length
        invariant Valid() && repr == old(repr) && lists == old(lists) && 0 <= i <= registry.length == |reg|
        invariant ps == PlayersIn(old(st), reg[..i])
        invariant st == old(st).(players := RefAll(old(st).players, ps))
      {
        assert reg[..i + 1][..i] == reg[..i];
        RefAllKeys(old(st).players, ps);
        RegistryHere(i);
        var c := registry.clients[i];
        if c != null {
          assert c in st.registry;
          ClientHere(c);
          var p := c.player;
          if p != null {
            RefAllSnoc(old(st).players, ps, p);
            PlayerCount(p, 1);
            RegistryHere(0);
            ps := ps + [p];
          }
        }
        i := i + 1;
      }
      assert reg[..|reg|] == reg;
    }

    /** preg_register. */
    method EnrollPlayer(name: string) returns (q: Player)
      requires Valid() && forall p: Player :: p in st.roster <==> p in st.players
      modifies this`st, this`repr, repr
      ensures Valid() && fresh(repr - old(repr)) && lists == old(lists) && q.name == name
      ensures q == Answer(old(st).roster, q) && st == Enrolled(old(st), q) && (q !in old(st).players ==> fresh(q))
    {
      hide RegistriesAt, ClientsAt, GamesAt, InvsAt, PlayersAt, PlayerRegistry.Valid, Registered;
      RosterHere();
      forall p <- st.players
        ensures p in repr && p.Rec() == st.players[p]
      {
        PlayerHere(p);
      }
      q := roster.Register(name);
      st := Enrolled(st, q);
      repr := repr + roster.footprint + {q};
      OneRoster(q);
    }

    /** The end of a successful client_login. */
    method SetPlayer(c: Client, p: Player)
      requires Valid() && c in st.clients && p in st.players
      modifies this`st, repr
      ensures Valid() && repr == old(repr) && lists == old(lists)
      ensures st == old(st).(clients := old(st).clients[c := old(st).clients[c].(player := p, loggedIn := true)],
                             players := AddRef(old(st).players, p, 1))
    {
      hide RegistriesAt, ClientsAt, GamesAt, InvsAt, PlayersAt, Client.Valid;
      ClientHere(c);
      c.player := p;
      c.loggedIn := true;
      st := st.(clients := st.clients[c := st.clients[c].(player := p, loggedIn := true)]);
      assert lists == lists[c := c.invites.nodes];
      OneClient(c);
      PlayerCount(p, 1);
    }

    /** The end of client_logout. */
    method LeavePlayer(c: Client)
      requires Valid() && Known(st, c) && st.clients[c].player != null
      modifies this`st, repr
      ensures Valid() && repr == old(repr) && lists == old(lists) && st == DropPlayer(old(st), c)
    {
      hide RegistriesAt, ClientsAt, GamesAt, InvsAt, PlayersAt, Client.Valid;
      ClientHere(c);
      PlayerCount(c.player, -1);
      ClientHere(c);
      MarkLoggedOut(c);
    }

    method MarkLoggedOut(c: Client)
      requires Valid() && c in st.clients
      modifies this`st, repr
      ensures Valid() && repr == old(repr) && lists == old(lists)
      ensures st == old(st).(clients := old(st).clients[c := old(st).clients[c].(loggedIn := false)])
    {
      hide RegistriesAt, ClientsAt, GamesAt, InvsAt, PlayersAt, Client.Valid;
      ClientHere(c);
      c.loggedIn := false;
      st := st.(clients := st.clients[c := st.clients[c].(loggedIn := false)]);
      assert lists == lists[c := c.invites.nodes];
      OneClient(c);
    }

    /* ---------- the client registry ---------- */

    /** client_create. */
    method CreateClient() returns (c: Client)
      requires Valid()
      modifies this`st, this`lists, this`repr
      ensures Valid() && fresh(repr - old(repr)) && fresh(c) && c !in old(st).clients
      ensures st == old(st).(clients := old(st).clients[c := ClientRec(1, null, false, [])])
    {
      hide RegistriesAt, GamesAt, InvsAt, PlayersAt, Client.Valid;
      c := new Client();
      assert c !in st.clients;
      st := st.(clients := st.clients[c := ClientRec(1, null, false, [])]);
      lists := lists[c := c.invites.nodes];
      repr := repr + Parts(c);
      NewClient(c);
    }

    /** The locked part of creg_register. */
    method InsertClient(c: Client)
      requires Valid() && |st.registry| < MAX_CLIENTS && c !in st.registry
      modifies this`st, repr
      ensures Valid() && repr == old(repr) && lists == old(lists)
      ensures st == old(st).(registry := old(st).registry + [c])
    {
      hide ClientsAt, GamesAt, InvsAt, PlayersAt, PlayerRegistry.Valid;
      registry.Insert(c);
      st := st.(registry := st.registry + [c]);
      OneRegistry();
    }

    /** The removal in creg_unregister. */
    method TakeOutClient(c: Client) returns (found: bool)
      requires Valid()
      modifies this`st, repr
      ensures Valid() && repr == old(repr) && lists == old(lists) && found == (c in old(st).registry)
      ensures st == old(st).(registry := Left(old(st).registry, c))
    {
      hide ClientsAt, GamesAt, InvsAt, PlayersAt, PlayerRegistry.Valid, Left;
      found := registry.Remove(c);
      st := st.(registry := Left(st.registry, c));
      OneRegistry();
    }
  }
}
