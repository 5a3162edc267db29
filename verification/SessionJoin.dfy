/** Invitations are made, clients connect, log in and leave: each keeps the invariant. */
module Joining {
  import opened Basics
  import opened Games
  import opened Players
  import opened PlayerRegistries
  import opened Clients
  import opened ClientRegistries
  import opened Sessions
  import opened References

  /* ---------- making an invitation ---------- */

  /** A new open invitation from c to d is in both lists under each list's least free ID. */
  ghost predicate MakeStep(s: State, s': State, c: Client, d: Client, i: Invitation, cRole: Role, dRole: Role) {
    && c != d && c in s.clients && d in s.clients && i !in s.invs
    && s'.invs == s.invs[i := InvRec(InvOpen, 2, c, d, null, cRole, dRole)]
    && s'.registry == s.registry && s'.games == s.games && s'.players == s.players && s'.roster == s.roster
    && s'.clients.Keys == s.clients.Keys
    && forall x <- s.clients :: s'.clients[x] == if x == c || x == d then Joined(s.clients[x], i) else s.clients[x]
  }

  lemma MadeClient(s: State, s': State, c: Client, d: Client, i: Invitation, cRole: Role, dRole: Role, x: Client)
    requires MakeStep(s, s', c, d, i, cRole, dRole) && x in s.clients && ClientOk(s, x)
    ensures ClientOk(s', x) && SameElsewhere(s.clients[x].entries, s'.clients[x].entries, i)
    ensures Held(s', x, i) <==> x == c || x == d
    ensures forall j :: j != i ==> (Held(s', x, j) <==> Held(s, x, j))
  {
    var es := s.clients[x].entries;
    assert !Holds(es, i);
    if x == c || x == d {
      assert Naming(s', x) == Naming(s, x) + {i};
      PrependEntries(es, Entry(LeastFree(Ids(es)), i));
    } else {
      assert Naming(s', x) == Naming(s, x);
    }
  }

  lemma MadeInv(s: State, s': State, c: Client, d: Client, i: Invitation, cRole: Role, dRole: Role, j: Invitation)
    requires MakeStep(s, s', c, d, i, cRole, dRole) && j in s.invs && Linked(s, j) && InvOk(s, j) && HeldOk(s, j)
    requires forall x <- s.clients :: Held(s', x, j) <==> Held(s, x, j)
    ensures Linked(s', j) && InvOk(s', j) && HeldOk(s', j) && SameInv(s, s', j)
  {
  }

  lemma MadeNew(s: State, s': State, c: Client, d: Client, i: Invitation, cRole: Role, dRole: Role)
    requires MakeStep(s, s', c, d, i, cRole, dRole) && Known(s, c) && Known(s, d)
    requires Held(s', c, i) && Held(s', d, i)
    requires s.clients[c].loggedIn && s.clients[d].loggedIn
    requires s.clients[c].player != null && s.clients[d].player != null && s.clients[c].player != s.clients[d].player
    requires (cRole == First && dRole == Second) || (cRole == Second && dRole == First)
    ensures Linked(s', i) && InvOk(s', i) && HeldOk(s', i)
  {
  }

  lemma MadeApart(s: State, s': State, c: Client, d: Client, i: Invitation, cRole: Role, dRole: Role)
    requires MakeStep(s, s', c, d, i, cRole, dRole) && GamesApart(s)
    ensures GamesApart(s')
  {
    forall j, k | j in s'.invs && k in s'.invs && j != k
      ensures Apart(s'.invs[j], s'.invs[k])
    {
      if j != i && k != i {
        assert Apart(s.invs[j], s.invs[k]);
      }
    }
  }

  lemma MadeClients(s: State, s': State, c: Client, d: Client, i: Invitation, cRole: Role, dRole: Role)
    requires Refs(s) && MakeStep(s, s', c, d, i, cRole, dRole)
    ensures forall x <- s'.clients :: ClientOk(s', x) && (Held(s', x, i) <==> x == c || x == d)
    ensures forall x <- s.clients :: SameElsewhere(s.clients[x].entries, s'.clients[x].entries, i)
    ensures forall x, j :: x in s.clients && j != i ==> (Held(s', x, j) <==> Held(s, x, j))
  {
    forall x <- s.clients
      ensures ClientOk(s', x) && SameElsewhere(s.clients[x].entries, s'.clients[x].entries, i)
      ensures Held(s', x, i) <==> x == c || x == d
      ensures forall j :: j != i ==> (Held(s', x, j) <==> Held(s, x, j))
    {
      MadeClient(s, s', c, d, i, cRole, dRole, x);
    }
  }

  lemma MadeRefs(s: State, s': State, c: Client, d: Client, i: Invitation, cRole: Role, dRole: Role)
    requires Refs(s) && OpenHeld(s) && MakeStep(s, s', c, d, i, cRole, dRole) && Known(s, c) && Known(s, d)
    requires s.clients[c].loggedIn && s.clients[d].loggedIn
    requires s.clients[c].player != null && s.clients[d].player != null && s.clients[c].player != s.clients[d].player
    requires (cRole == First && dRole == Second) || (cRole == Second && dRole == First)
    ensures Refs(s') && OpenHeld(s') && Only(s, s', i)
  {
    MadeClients(s, s', c, d, i, cRole, dRole);
    forall j <- s.invs
      ensures Linked(s', j) && InvOk(s', j) && HeldOk(s', j) && SameInv(s, s', j)
    {
      assert HeldOk(s, j);
      MadeInv(s, s', c, d, i, cRole, dRole, j);
    }
    MadeNew(s, s', c, d, i, cRole, dRole);
    MadeApart(s, s', c, d, i, cRole, dRole);
  }

  lemma MadePeople(s: State, s': State, c: Client, d: Client, i: Invitation, cRole: Role, dRole: Role)
    requires People(s) && MakeStep(s, s', c, d, i, cRole, dRole)
    ensures People(s') && SamePeople(s, s')
  {
    PeopleKept(s, s');
  }

  /** Two logged-in clients have different players. */
  lemma DifferentPlayers(s: State, c: Client, d: Client)
    requires People(s) && c in s.clients && d in s.clients && c != d && s.clients[c].loggedIn && s.clients[d].loggedIn
    ensures s.clients[c].player != null && s.clients[d].player != null && s.clients[c].player != s.clients[d].player
    ensures Known(s, c) && Known(s, d)
  {
  }

  lemma MadeKeeps(s: State, s': State, c: Client, d: Client, i: Invitation, cRole: Role, dRole: Role)
    requires CoreInv(s) && MakeStep(s, s', c, d, i, cRole, dRole)
    requires s.clients[c].loggedIn && s.clients[d].loggedIn
    requires (cRole == First && dRole == Second) || (cRole == Second && dRole == First)
    ensures CoreInv(s') && Only(s, s', i) && SamePeople(s, s')
  {
    hide Refs, People, OpenHeld, Only, SamePeople;
    DifferentPlayers(s, c, d);
    MadeRefs(s, s', c, d, i, cRole, dRole);
    MadePeople(s, s', c, d, i, cRole, dRole);
  }

  lemma InviteIs(s: State, c: Client, name: string, role: Role, i: Invitation, ok: bool)
    requires c in s.clients && s.clients[c].player != null && i !in s.invs
    ensures var (s', r) := Invite(s, c, name, role, i, ok);
            var d := LookupUser(s, s.registry, name);
            if d == null || d == c || role == NullRole then (s', r) == (s, -1)
            else
              && MakeStep(s, s', c, d, i, Other(role), role)
              && r == LeastFree(Ids(s.clients[c].entries))
              && s'.log == s.log + if ok then [Sent(d, InvitedPkt(role), LeastFree(Ids(s.clients[d].entries)), i,
                                                    s.clients[c].player.name)] else []
  {
  }

  /** An invitation is made exactly when the name belongs to another logged-in client and the
      role is a player's; otherwise nothing changes. */
  lemma InviteKeeps(s: State, c: Client, name: string, role: Role, i: Invitation, ok: bool)
    requires CoreInv(s) && Active(s, c) && s.clients[c].player != null && i !in s.invs
    ensures var (s', r) := Invite(s, c, name, role, i, ok);
            var d := LookupUser(s, s.registry, name);
            && CoreInv(s')
            && if d == null || d == c || role == NullRole then s' == s && r == -1
               else
                 && Only(s, s', i) && SamePeople(s, s') && r == IdOf(s'.clients[c].entries, i)
                 && i in s'.invs && s'.invs[i] == InvRec(InvOpen, 2, c, d, null, Other(role), role)
                 && BothHold(s', i)
  {
    InviteIs(s, c, name, role, i, ok);
    var d := LookupUser(s, s.registry, name);
    if d != null && d != c && role != NullRole {
      MadeKeeps(s, Invite(s, c, name, role, i, ok).0, c, d, i, Other(role), role);
      MadeIsListed(s, Invite(s, c, name, role, i, ok).0, c, d, i, Other(role), role);
    }
  }

  /** The new invitation is at the head of both lists, under the least free ID of each. */
  lemma MadeIsListed(s: State, s': State, c: Client, d: Client, i: Invitation, cRole: Role, dRole: Role)
    requires MakeStep(s, s', c, d, i, cRole, dRole) && Known(s, c) && Known(s, d)
    ensures Linked(s', i) && BothHold(s', i) && IdOf(s'.clients[c].entries, i) == LeastFree(Ids(s.clients[c].entries))
  {
    hide LeastFree, Ids;
    assert s'.clients[c].entries[0].inv == i && s'.clients[d].entries[0].inv == i;
    assert s'.clients[c].entries[0] in s'.clients[c].entries && s'.clients[d].entries[0] in s'.clients[d].entries;
  }

  /* ---------- clients come and go ---------- */

  /** An invitation whose record, game and two clients' lists and players are unchanged. */
  lemma InvKept(s: State, s': State, j: Invitation)
    requires Linked(s, j) && InvOk(s, j) && HeldOk(s, j) && j in s'.invs && s'.invs[j] == s.invs[j]
    requires EndKept(s, s', s.invs[j].source) && EndKept(s, s', s.invs[j].target)
    requires s'.games == s.games && s.players.Keys <= s'.players.Keys
    requires s.invs[j].ref > 0 && s.invs[j].state != InvClosed ==>
               s'.clients[s.invs[j].source].loggedIn && s'.clients[s.invs[j].target].loggedIn
    ensures Linked(s', j) && InvOk(s', j) && HeldOk(s', j)
  {
  }

  predicate EndKept(s: State, s': State, c: Client) {
    && c in s.clients && c in s'.clients
    && s'.clients[c].entries == s.clients[c].entries && s'.clients[c].player == s.clients[c].player
  }

  /** Invitations are what they were: so the clients they name are named as before. */
  lemma ClientUnmoved(s: State, s': State, x: Client)
    requires s'.invs == s.invs && x in s.clients && x in s'.clients && ClientOk(s, x)
    requires s'.clients[x].entries == s.clients[x].entries
    requires s'.clients[x].ref - One(x in s'.registry) == s.clients[x].ref - One(x in s.registry)
    ensures ClientOk(s', x)
  {
    assert Naming(s', x) == Naming(s, x);
  }

  /* ---------- connecting ---------- */

  lemma NewcomerUnnamed(s: State, c: Client)
    requires c !in s.clients && (forall j <- s.invs :: Linked(s, j)) && |s.registry| < MAX_CLIENTS
    ensures ClientOk(Connect(s, c), c)
  {
    assert Naming(Connect(s, c), c) == {};
  }

  lemma LinkedAll(s: State)
    requires Refs(s)
    ensures forall j <- s.invs :: Linked(s, j)
    ensures forall x <- s.clients :: ClientOk(s, x)
  {
  }

  lemma ConnectClients(s: State, c: Client)
    requires Refs(s) && c !in s.clients && c !in s.registry && |s.registry| < MAX_CLIENTS
    ensures forall x <- Connect(s, c).clients :: ClientOk(Connect(s, c), x)
  {
    hide Refs, ClientOk, Linked;
    var s' := Connect(s, c);
    LinkedAll(s);
    NewcomerUnnamed(s, c);
    forall x <- s'.clients | x != c
      ensures ClientOk(s', x)
    {
      ClientUnmoved(s, s', x);
    }
  }

  lemma ConnectInv(s: State, c: Client, j: Invitation)
    requires Linked(s, j) && InvOk(s, j) && HeldOk(s, j) && c !in s.clients && |s.registry| < MAX_CLIENTS
    ensures Linked(Connect(s, c), j) && InvOk(Connect(s, c), j) && HeldOk(Connect(s, c), j)
  {
    InvKept(s, Connect(s, c), j);
  }

  lemma ApartSame(s: State, s': State)
    requires GamesApart(s) && s'.invs == s.invs
    ensures GamesApart(s')
  {
  }

  lemma ConnectRefs(s: State, c: Client)
    requires Refs(s) && OpenHeld(s) && c !in s.clients && c !in s.registry && |s.registry| < MAX_CLIENTS
    ensures Refs(Connect(s, c)) && OpenHeld(Connect(s, c))
  {
    hide InvOk, HeldOk, ClientOk, GamesApart;
    var s' := Connect(s, c);
    ConnectClients(s, c);
    ApartSame(s, s');
    forall j <- s'.invs
      ensures Linked(s', j) && InvOk(s', j) && HeldOk(s', j)
    {
      ConnectInv(s, c, j);
    }
  }

  lemma ConnectPeople(s: State, c: Client)
    requires People(s) && c !in s.clients && |s.registry| < MAX_CLIENTS
    ensures People(Connect(s, c))
  {
    var s' := Connect(s, c);
    forall p <- s.players
      ensures Users(s', p) == Users(s, p)
    {
    }
    assert s'.registry == s.registry + [c];
    assert c !in s.registry;
  }

  /** A connection is registered, behind all others, exactly while fewer than 64 are. */
  lemma ConnectExactly(s: State, c: Client)
    requires CoreInv(s) && c !in s.clients
    ensures var s' := Connect(s, c);
            && (c in s'.registry <==> |s.registry| < 64)
            && (c in s'.registry ==> s'.registry == s.registry + [c] && s'.clients == s.clients[c := ClientRec(1, null, false, [])])
            && (c !in s'.registry ==> s' == s)
  {
    NotYetRegistered(s, c);
  }

  lemma NotYetRegistered(s: State, c: Client)
    requires CoreInv(s) && c !in s.clients
    ensures c !in s.registry
  {
  }

  lemma ConnectKeeps(s: State, c: Client)
    requires CoreInv(s) && c !in s.clients
    ensures CoreInv(Connect(s, c))
  {
    hide Refs, OpenHeld;
    if |s.registry| < MAX_CLIENTS {
      ConnectRefs(s, c);
      ConnectPeople(s, c);
    }
  }

  /* ---------- logging in ---------- */

  /** Only who the clients are changes: a client without a player may get one. */
  ghost predicate LoginStep(s: State, s': State, c: Client) {
    && c in s.clients && s.clients[c].player == null
    && s'.invs == s.invs && s'.games == s.games && s'.registry == s.registry
    && s.players.Keys <= s'.players.Keys && s'.clients.Keys == s.clients.Keys
    && s'.clients[c].entries == s.clients[c].entries && s'.clients[c].ref == s.clients[c].ref
    && (s'.clients[c].player != null ==> s'.clients[c].player in s'.players)
    && forall x <- s.clients :: x != c ==> s'.clients[x] == s.clients[x]
  }

  lemma LoginClients(s: State, s': State, c: Client)
    requires Refs(s) && LoginStep(s, s', c)
    ensures forall x <- s'.clients :: ClientOk(s', x)
  {
    forall x <- s'.clients
      ensures ClientOk(s', x)
    {
      ClientUnmoved(s, s', x);
    }
  }

  lemma LoginInv(s: State, s': State, c: Client, j: Invitation)
    requires Linked(s, j) && InvOk(s, j) && HeldOk(s, j) && LoginStep(s, s', c)
    ensures Linked(s', j) && InvOk(s', j) && HeldOk(s', j)
  {
    InvKept(s, s', j);
  }

  lemma LoginRefs(s: State, s': State, c: Client)
    requires Refs(s) && OpenHeld(s) && LoginStep(s, s', c)
    ensures Refs(s') && OpenHeld(s')
  {
    hide InvOk, HeldOk, ClientOk, GamesApart;
    LoginClients(s, s', c);
    ApartSame(s, s');
    forall j <- s'.invs
      ensures Linked(s', j) && InvOk(s', j) && HeldOk(s', j)
    {
      LoginInv(s, s', c, j);
    }
  }

  /** The state after the registration in process_login. */
  function Registering(s: State, p: Player): State {
    var q := Answer(s.roster, p);
    s.(roster := Registered(s.roster, p),
       players := if q in s.players then s.players else s.players[q := PlayerRec(1, INITIAL_RATING)])
  }

  /** The state after a successful login. */
  function LoggingIn(s: State, c: Client, q: Player): State
    requires c in s.clients && q in s.players
  {
    s.(clients := s.clients[c := s.clients[c].(player := q, loggedIn := true)],
       players := s.players[q := s.players[q].(ref := s.players[q].ref + 1)])
  }

  lemma LoginIs(s: State, c: Client, p: Player)
    requires c in s.clients
    ensures var (s', q, s1) := (Login(s, c, p).0, Answer(s.roster, p), Registering(s, p));
            if s.clients[c].player != null || p.name == "" then s' == s
            else
              && q in s1.players && c in s1.clients && LoginStep(s, s1, c)
              && if LookupUser(s, s.registry, p.name) != null || s.clients[c].loggedIn then s' == s1
                 else s' == LoggingIn(s1, c, q) && LoginStep(s1, s', c)
  {
    hide Answer, Registered, LookupUser;
  }

  /** A registered player is known, and the one of a new name is not. */
  lemma RegisteredKnown(s: State, p: Player)
    requires CoreInv(s)
    ensures FindName(s.roster, p.name) < |s.roster| <==> Answer(s.roster, p) in s.players
    ensures forall q <- s.players :: q in s.roster
  {
    var k := FindName(s.roster, p.name);
    if k < |s.roster| {
      assert s.roster[k] in s.roster;
    } else {
      assert p !in s.roster;
    }
  }

  /** The name gets its player. */
  lemma RegisterPeople(s: State, p: Player)
    requires People(s)
    ensures People(Registering(s, p))
  {
    var q := Answer(s.roster, p);
    var s' := Registering(s, p);
    var k := FindName(s.roster, p.name);
    if k < |s.roster| {
      assert s.roster[k] in s.roster;
    } else {
      assert q == p && p !in s.roster;
      assert Users(s', p) == {};
      forall r <- s.players
        ensures Users(s', r) == Users(s, r) && r in s'.roster
      {
      }
    }
  }

  /** The login itself: nobody is logged in under the name. */
  lemma LoginPeople(s: State, c: Client, q: Player)
    requires People(s) && c in s.registry && s.clients[c].player == null && q in s.players
    requires forall d <- s.clients :: s.clients[d].loggedIn ==> s.clients[d].player != q
    ensures People(LoggingIn(s, c, q))
  {
    hide NamesUnique, NoRepeat;
    LoginUsers(s, c, q);
  }

  lemma LoginUsers(s: State, c: Client, q: Player)
    requires c in s.clients && s.clients[c].player == null && q in s.players
    requires forall p <- s.players :: s.players[p].ref == 1 + |Users(s, p)|
    ensures var s' := LoggingIn(s, c, q);
            forall p <- s'.players :: s'.players[p].ref == 1 + |Users(s', p)|
  {
    var s' := LoggingIn(s, c, q);
    forall p <- s'.players
      ensures s'.players[p].ref == 1 + |Users(s', p)|
    {
      if p == q {
        assert Users(s', q) == Users(s, q) + {c};
      } else {
        assert Users(s', p) == Users(s, p);
      }
    }
  }

  /** A name that no registered client uses is nobody's player. */
  lemma NameFree(s: State, name: string, q: Player)
    requires People(s) && LookupUser(s, s.registry, name) == null && q.name == name
    ensures forall d <- s.clients :: s.clients[d].loggedIn ==> s.clients[d].player != q
  {
    forall d <- s.clients | s.clients[d].loggedIn
      ensures s.clients[d].player != q
    {
      assert d in s.registry && !IsUser(s, d, name);
    }
  }

  /** The result of process_login, which tells a request that is turned away from one that is tried, but
      not whether the login succeeded; and who is logged in by it: a client without a player, exactly
      when the name is not empty and no registered client has a player of that name.  A name that is
      new starts at 1500 points. */
  lemma LoginExactly(s: State, c: Client, p: Player)
    requires CoreInv(s) && c in s.registry && c in s.clients
    ensures var (s', r) := Login(s, c, p);
            && (r == -1 <==> s.clients[c].player != null || p.name == "") && (r == 1 <==> r != -1)
            && (r == -1 ==> s' == s) && c in s'.clients
            && (s.clients[c].player == null ==>
                  (s'.clients[c].loggedIn <==> p.name != "" && forall d <- s.registry :: !IsUser(s, d, p.name)))
            && (s.clients[c].player == null && s'.clients[c].loggedIn ==>
                  s'.clients[c].player != null && s'.clients[c].player.name == p.name && s'.clients[c].player in s'.roster)
            && (forall q <- s'.players :: if q in s.players then s'.players[q].rating == s.players[q].rating
                                          else q.name == p.name && s'.players[q].rating == 1500)
  {
    hide CoreInv, Registered, FindName;
    FreshlyIn(s, c);
    AnswerIn(s.roster, p);
    var d := LookupUser(s, s.registry, p.name);
  }

  lemma FreshlyIn(s: State, c: Client)
    requires CoreInv(s) && c in s.registry && c in s.clients
    ensures s.clients[c].player == null ==> !s.clients[c].loggedIn
  {
  }

  lemma AnswerIn(roster: seq<Player>, p: Player)
    ensures Answer(roster, p) in Registered(roster, p) && Answer(roster, p).name == p.name
  {
  }

  lemma LoginKeeps(s: State, c: Client, p: Player)
    requires CoreInv(s) && c in s.registry && c in s.clients
    ensures CoreInv(Login(s, c, p).0)
  {
    hide Refs, OpenHeld, People, Login, LoginStep, Registering, LoggingIn;
    LoginIs(s, c, p);
    if s.clients[c].player == null && p.name != "" {
      var (q, s1) := (Answer(s.roster, p), Registering(s, p));
      RegisterPeople(s, p);
      LoginRefs(s, s1, c);
      if LookupUser(s, s.registry, p.name) == null && !s.clients[c].loggedIn {
        NameFree(s, p.name, q);
        RegisteringClients(s, p);
        LoginPeople(s1, c, q);
        LoginRefs(s1, Login(s, c, p).0, c);
      }
    }
  }

  lemma RegisteringClients(s: State, p: Player)
    ensures Registering(s, p).clients == s.clients && Registering(s, p).registry == s.registry
  {
  }
}
