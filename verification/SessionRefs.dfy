/** Exact reference counts, list and pool agreement and unique logins: what every operation
    keeps whatever the network does and whichever side asks. */
module References {
  import opened Basics
  import opened Games
  import opened Players
  import opened PlayerRegistries
  import opened Clients
  import opened ClientRegistries
  import opened Sessions

  /* ---------- the invariant ---------- */

  /** The live invitations that name a client. */
  ghost function Naming(s: State, c: Client): set<Invitation> {
    set i | i in s.invs && s.invs[i].ref > 0 && IsPlayed(s.invs[i], c)
  }

  /** The clients logged in as a player. */
  ghost function Users(s: State, p: Player): set<Client> {
    set c | c in s.clients && s.clients[c].loggedIn && s.clients[c].player == p
  }

  ghost predicate Held(s: State, c: Client, i: Invitation)
    requires c in s.clients
  {
    Holds(s.clients[c].entries, i)
  }

  function One(b: bool): int {
    if b then 1 else 0
  }

  /** A client is referenced by the registry and by every live invitation naming it; its list
      holds live invitations that name it, none twice. */
  ghost predicate ClientOk(s: State, c: Client)
    requires c in s.clients
  {
    && s.clients[c].ref == One(c in s.registry) + |Naming(s, c)|
    && Distinct(s.clients[c].entries)
    && forall e <- s.clients[c].entries ::
         e.inv in s.invs && s.invs[e.inv].ref > 0 && IsPlayed(s.invs[e.inv], c)
  }

  ghost predicate Complementary(r: InvRec) {
    (r.sourceRole == First && r.targetRole == Second) || (r.sourceRole == Second && r.targetRole == First)
  }

  /** An invitation is referenced by the list nodes that hold it, and its game by it alone. */
  ghost predicate InvOk(s: State, i: Invitation)
    requires Linked(s, i)
  {
    var r := s.invs[i];
    && r.source != r.target && Complementary(r)
    && s.clients[r.source].player != null && s.clients[r.target].player != null
    && s.clients[r.source].player != s.clients[r.target].player
    && (r.state == InvOpen ==> r.game == null)
    && (r.state == InvAccepted ==> r.game != null)
    && r.ref == One(Held(s, r.source, i)) + One(Held(s, r.target, i))
    && (r.game != null ==> s.games[r.game].ref == One(r.ref > 0))
  }

  ghost predicate GamesApart(s: State) {
    forall i, j :: i in s.invs && j in s.invs && i != j ==> Apart(s.invs[i], s.invs[j])
  }

  predicate Apart(a: InvRec, b: InvRec) {
    a.game != null ==> a.game != b.game
  }

  ghost predicate Refs(s: State) {
    && (forall c <- s.clients :: ClientOk(s, c))
    && (forall i <- s.invs :: Linked(s, i) && InvOk(s, i))
    && GamesApart(s)
  }

  /** A player is referenced by the registry and by the clients logged in as it; names are unique,
      and no two registered clients have the same player. */
  ghost predicate People(s: State) {
    && (forall p <- s.players :: s.players[p].ref == 1 + |Users(s, p)|)
    && (forall p <- s.players :: p in s.roster)
    && (forall p <- s.roster :: p in s.players)
    && NamesUnique(s.roster)
    && NoRepeat(s.registry) && |s.registry| <= MAX_CLIENTS
    && (forall c <- s.registry :: c in s.clients)
    && (forall c <- s.clients :: s.clients[c].loggedIn <==> c in s.registry && s.clients[c].player != null)
    && (forall c <- s.clients :: s.clients[c].player != null ==> s.clients[c].player in s.players)
    && LoginsUnique(s)
  }

  ghost predicate LoginsUnique(s: State) {
    forall c, d :: c in s.clients && d in s.clients && s.clients[c].loggedIn && s.clients[d].loggedIn && c != d
      ==> s.clients[c].player != s.clients[d].player
  }

  ghost predicate BothHold(s: State, i: Invitation)
    requires Linked(s, i)
  {
    Held(s, s.invs[i].source, i) && Held(s, s.invs[i].target, i)
  }

  ghost predicate BothIn(s: State, i: Invitation)
    requires Linked(s, i)
  {
    s.clients[s.invs[i].source].loggedIn && s.clients[s.invs[i].target].loggedIn
  }

  /** A live invitation that is not closed, or has a game, is in both lists; while it is not
      closed both its clients are logged in. */
  ghost predicate HeldOk(s: State, i: Invitation)
    requires i in s.invs
  {
    s.invs[i].ref > 0 ==>
      && (s.invs[i].state != InvClosed || s.invs[i].game != null ==> Linked(s, i) && BothHold(s, i))
      && (s.invs[i].state != InvClosed ==> Linked(s, i) && BothIn(s, i))
  }

  ghost predicate OpenHeld(s: State) {
    forall i <- s.invs :: HeldOk(s, i)
  }

  ghost predicate CoreInv(s: State) {
    Refs(s) && People(s) && OpenHeld(s)
  }

  /* ---------- one invitation at a time ---------- */

  /** Two lists with the same entries, IDs included, except possibly for i. */
  ghost predicate SameElsewhere(es: seq<Entry>, es': seq<Entry>, i: Invitation) {
    && (forall e <- es :: e.inv != i ==> e in es')
    && (forall e <- es' :: e.inv != i ==> e in es)
  }

  /** Two states that differ, among invitations, in i alone: every other invitation keeps its
      record, its game and its IDs in every list. */
  ghost predicate Only(s: State, s': State, i: Invitation) {
    && s.clients.Keys <= s'.clients.Keys && s.invs.Keys <= s'.invs.Keys
    && (forall j <- s.invs :: j != i ==> SameInv(s, s', j))
    && (forall c <- s.clients :: SameElsewhere(s.clients[c].entries, s'.clients[c].entries, i))
  }

  ghost predicate SameInv(s: State, s': State, j: Invitation)
    requires j in s.invs && j in s'.invs
  {
    && s'.invs[j] == s.invs[j]
    && (s.invs[j].game != null && s.invs[j].game in s.games ==>
          s.invs[j].game in s'.games && s'.games[s.invs[j].game] == s.games[s.invs[j].game])
  }

  lemma OnlyTrans(s: State, s1: State, s2: State, i: Invitation)
    requires Only(s, s1, i) && Only(s1, s2, i)
    ensures Only(s, s2, i)
  {
    forall j <- s.invs | j != i
      ensures SameInv(s, s2, j)
    {
      assert SameInv(s, s1, j) && SameInv(s1, s2, j);
    }
    forall c <- s.clients
      ensures SameElsewhere(s.clients[c].entries, s2.clients[c].entries, i)
    {
      assert SameElsewhere(s.clients[c].entries, s1.clients[c].entries, i);
      assert SameElsewhere(s1.clients[c].entries, s2.clients[c].entries, i);
    }
  }

  predicate SameEnds(a: InvRec, b: InvRec) {
    && a.source == b.source && a.target == b.target && a.game == b.game
    && a.sourceRole == b.sourceRole && a.targetRole == b.targetRole
  }

  /** Lists only lose entries. */
  ghost predicate Shrinks(s: State, s': State) {
    forall c <- s.clients :: c in s'.clients && forall e <- s'.clients[c].entries :: e in s.clients[c].entries
  }

  /** A step about i that involves nobody's login, adds to no list and leaves i's ends and game
      as they were. */
  ghost predicate Touches(s: State, s': State, i: Invitation) {
    && i in s.invs && s'.invs.Keys == s.invs.Keys && SameEnds(s.invs[i], s'.invs[i])
    && Only(s, s', i) && SamePeople(s, s') && Shrinks(s, s')
  }

  lemma TouchesTrans(s: State, s1: State, s2: State, i: Invitation)
    requires Touches(s, s1, i) && Touches(s1, s2, i)
    ensures Touches(s, s2, i)
  {
    hide Only;
    OnlyTrans(s, s1, s2, i);
  }

  lemma OnlyHeld(s: State, s': State, i: Invitation, c: Client, j: Invitation)
    requires Only(s, s', i) && c in s.clients && j != i
    ensures Held(s', c, j) <==> Held(s, c, j)
  {
    assert SameElsewhere(s.clients[c].entries, s'.clients[c].entries, i);
  }

  /* ---------- transitions that keep the counts ---------- */

  /** People do not depend on invitations, games, lists, ratings or the log. */
  ghost predicate SamePeople(s: State, s': State) {
    && s'.clients.Keys == s.clients.Keys && s'.players.Keys == s.players.Keys
    && s'.registry == s.registry && s'.roster == s.roster
    && (forall c <- s.clients :: s'.clients[c].player == s.clients[c].player && s'.clients[c].loggedIn == s.clients[c].loggedIn)
    && (forall p <- s.players :: s'.players[p].ref == s.players[p].ref)
  }

  lemma PeopleKept(s: State, s': State)
    requires People(s) && SamePeople(s, s')
    ensures People(s')
  {
    forall p <- s.players
      ensures Users(s', p) == Users(s, p)
    {
    }
  }

  /** A client whose list and count are unchanged and whom the same live invitations name. */
  lemma ClientKept(s: State, s': State, c: Client)
    requires c in s.clients && c in s'.clients && ClientOk(s, c)
    requires s'.clients[c].entries == s.clients[c].entries && s'.clients[c].ref == s.clients[c].ref
    requires c in s'.registry <==> c in s.registry
    requires Naming(s', c) == Naming(s, c)
    ensures ClientOk(s', c)
  {
    forall e <- s'.clients[c].entries
      ensures e.inv in s'.invs && s'.invs[e.inv].ref > 0 && IsPlayed(s'.invs[e.inv], c)
    {
      assert e.inv in Naming(s, c);
    }
  }

  /** The states of i and of its game may differ, the counts not. */
  ghost predicate RecordStep(s: State, s': State, i: Invitation) {
    && i in s.invs
    && s'.clients == s.clients && s'.registry == s.registry && s'.players.Keys == s.players.Keys
    && (s'.invs == s.invs || s'.invs == s.invs[i := s.invs[i].(state := InvClosed)])
    && (|| s'.games == s.games
        || (&& s.invs[i].game != null && s.invs[i].game in s.games && s.invs[i].game in s'.games
            && s'.games == s.games[s.invs[i].game := s'.games[s.invs[i].game]]
            && s'.games[s.invs[i].game].ref == s.games[s.invs[i].game].ref))
  }

  lemma RecordInv(s: State, s': State, i: Invitation, j: Invitation)
    requires RecordStep(s, s', i) && j in s.invs && Linked(s, j) && InvOk(s, j)
    requires j != i ==> Apart(s.invs[i], s.invs[j])
    ensures j in s'.invs && Linked(s', j) && InvOk(s', j)
  {
  }

  lemma RecordOnly(s: State, s': State, i: Invitation)
    requires RecordStep(s, s', i) && GamesApart(s)
    ensures Only(s, s', i)
  {
    forall j <- s.invs | j != i
      ensures SameInv(s, s', j)
    {
      assert Apart(s.invs[i], s.invs[j]);
    }
  }

  lemma RecordNaming(s: State, s': State, i: Invitation, c: Client)
    requires RecordStep(s, s', i)
    ensures Naming(s', c) == Naming(s, c)
  {
  }

  lemma RecordApart(s: State, s': State, i: Invitation)
    requires RecordStep(s, s', i) && GamesApart(s)
    ensures GamesApart(s')
  {
    forall j, k | j in s'.invs && k in s'.invs && j != k
      ensures Apart(s'.invs[j], s'.invs[k])
    {
      assert Apart(s.invs[j], s.invs[k]);
    }
  }

  /** Closing an invitation, moving or resigning in its game, posting a result and sending
      packets change no count. */
  lemma RecordKeeps(s: State, s': State, i: Invitation)
    requires Refs(s) && RecordStep(s, s', i)
    ensures Refs(s')
  {
    forall c <- s.clients
      ensures ClientOk(s', c)
    {
      RecordNaming(s, s', i, c);
      ClientKept(s, s', c);
    }
    forall j <- s'.invs
      ensures Linked(s', j) && InvOk(s', j)
    {
      assert j in s.invs;
      RecordInv(s, s', i, j);
    }
    RecordApart(s, s', i);
  }

  /* ---------- leaving a list ---------- */

  /** The effect of removing i from c's list: one reference less, and with the last one the
      game's reference and those on the two clients. */
  ghost predicate RemoveStep(s: State, s': State, c: Client, i: Invitation) {
    && c in s.clients && i in s.invs
    && s'.registry == s.registry && s'.players == s.players && s'.roster == s.roster && s'.log == s.log
    && s'.invs == s.invs[i := s.invs[i].(ref := s.invs[i].ref - 1)]
    && (if s.invs[i].ref == 1 && s.invs[i].game != null
        then s.invs[i].game in s.games
             && s'.games == s.games[s.invs[i].game := s.games[s.invs[i].game].(ref := s.games[s.invs[i].game].ref - 1)]
        else s'.games == s.games)
    && s'.clients.Keys == s.clients.Keys
    && forall d <- s.clients :: s'.clients[d] == AfterRemove(s, c, i, d)
  }

  function AfterRemove(s: State, c: Client, i: Invitation, d: Client): ClientRec
    requires i in s.invs && d in s.clients
  {
    var rec := s.clients[d];
    rec.(entries := if d == c then Without(rec.entries, i) else rec.entries,
         ref := rec.ref - One(s.invs[i].ref == 1 && IsPlayed(s.invs[i], d)))
  }

  lemma ReleaseEffect(clients: map<Client, ClientRec>, r: InvRec, d: Client)
    requires r.source in clients && r.target in clients && r.source != r.target && d in clients
    ensures Unref(Unref(clients, r.source), r.target)[d] == clients[d].(ref := clients[d].ref - One(IsPlayed(r, d)))
  {
  }

  lemma RemoveIs(s: State, c: Client, i: Invitation)
    requires c in s.clients && Linked(s, i) && Held(s, c, i)
    ensures var s1 := SetEntries(s, c, Without(s.clients[c].entries, i));
            && Linked(s1, i) && Remove(s, c, i) == (UnrefInv(s1, i), IdOf(s.clients[c].entries, i))
            && IdOf(s.clients[c].entries, i) >= 0
  {
    FindHolds(s.clients[c].entries, i);
  }

  lemma RemoveEffect(s: State, c: Client, i: Invitation)
    requires c in s.clients && Linked(s, i) && Held(s, c, i) && s.invs[i].source != s.invs[i].target
    ensures RemoveStep(s, Remove(s, c, i).0, c, i)
    ensures Remove(s, c, i).1 == IdOf(s.clients[c].entries, i) >= 0
  {
    hide Remove, Held, Without, IdOf;
    RemoveIs(s, c, i);
    var s1 := SetEntries(s, c, Without(s.clients[c].entries, i));
    forall d <- s.clients
      ensures Remove(s, c, i).0.clients[d] == AfterRemove(s, c, i, d)
    {
      ReleaseEffect(s1.clients, s.invs[i], d);
    }
  }

  /** Removing what is not there changes nothing. */
  lemma RemoveNothing(s: State, c: Client, i: Invitation)
    requires c in s.clients && Linked(s, i) && !Held(s, c, i)
    ensures Remove(s, c, i) == (s, -1)
  {
    FindHolds(s.clients[c].entries, i);
  }

  lemma RemoveNaming(s: State, s': State, c: Client, i: Invitation, d: Client)
    requires RemoveStep(s, s', c, i) && s.invs[i].ref >= 1 && d in s.clients
    ensures Naming(s', d) == if s.invs[i].ref == 1 then Naming(s, d) - {i} else Naming(s, d)
    ensures |Naming(s', d)| == |Naming(s, d)| - One(s.invs[i].ref == 1 && IsPlayed(s.invs[i], d))
  {
    assert i in Naming(s, d) <==> IsPlayed(s.invs[i], d);
  }

  lemma RemoveClient(s: State, s': State, c: Client, i: Invitation, d: Client)
    requires RemoveStep(s, s', c, i) && d in s.clients && ClientOk(s, d) && ClientOk(s, c)
    requires Linked(s, i) && InvOk(s, i) && Held(s, c, i)
    ensures ClientOk(s', d)
  {
    RemoveNaming(s, s', c, i, d);
    WithoutEntries(s.clients[c].entries, i);
    forall e <- s'.clients[d].entries
      ensures e.inv in s'.invs && s'.invs[e.inv].ref > 0 && IsPlayed(s'.invs[e.inv], d)
    {
      assert e in s.clients[d].entries;
      if e.inv == i {
        assert d != c && Held(s, d, i);
      }
    }
  }

  lemma RemoveInv(s: State, s': State, c: Client, i: Invitation, j: Invitation)
    requires RemoveStep(s, s', c, i) && j in s.invs && Linked(s, j) && InvOk(s, j) && Distinct(s.clients[c].entries)
    requires Linked(s, i) && InvOk(s, i) && Held(s, c, i) && IsPlayed(s.invs[i], c)
    requires j != i ==> Apart(s.invs[i], s.invs[j])
    ensures Linked(s', j) && InvOk(s', j)
  {
    WithoutEntries(s.clients[c].entries, i);
    RemoveHeld(s, s', c, i, s.invs[j].source, j);
    RemoveHeld(s, s', c, i, s.invs[j].target, j);
  }

  lemma RemoveHeld(s: State, s': State, c: Client, i: Invitation, d: Client, j: Invitation)
    requires RemoveStep(s, s', c, i) && d in s.clients && Distinct(s.clients[c].entries)
    ensures Held(s', d, j) <==> Held(s, d, j) && !(d == c && j == i)
  {
    WithoutEntries(s.clients[c].entries, i);
  }

  lemma RemoveOnly(s: State, s': State, c: Client, i: Invitation)
    requires RemoveStep(s, s', c, i) && GamesApart(s) && Distinct(s.clients[c].entries)
    ensures Only(s, s', i) && GamesApart(s')
  {
    WithoutEntries(s.clients[c].entries, i);
    forall j <- s.invs | j != i
      ensures SameInv(s, s', j)
    {
      assert Apart(s.invs[i], s.invs[j]);
    }
    forall j, k | j in s'.invs && k in s'.invs && j != k
      ensures Apart(s'.invs[j], s'.invs[k])
    {
      assert Apart(s.invs[j], s.invs[k]);
    }
  }

  /** Removing an invitation from a list that holds it keeps every count exact. */
  lemma RemoveKeeps(s: State, c: Client, i: Invitation)
    requires Refs(s) && c in s.clients && i in s.invs && Held(s, c, i)
    ensures Refs(Remove(s, c, i).0) && Only(s, Remove(s, c, i).0, i)
    ensures RemoveStep(s, Remove(s, c, i).0, c, i)
  {
    assert Linked(s, i) && InvOk(s, i);
    RemoveEffect(s, c, i);
    var s' := Remove(s, c, i).0;
    assert ClientOk(s, c);
    forall d <- s'.clients
      ensures ClientOk(s', d)
    {
      RemoveClient(s, s', c, i, d);
    }
    forall j <- s'.invs
      ensures Linked(s', j) && InvOk(s', j)
    {
      assert j != i ==> Apart(s.invs[i], s.invs[j]);
      RemoveInv(s, s', c, i, j);
    }
    RemoveOnly(s, s', c, i);
  }

  lemma RefsAt(s: State, i: Invitation)
    requires Refs(s) && i in s.invs
    ensures Linked(s, i) && InvOk(s, i) && GamesApart(s)
    ensures forall c <- s.clients :: ClientOk(s, c)
  {
  }

  lemma DistinctAt(s: State, c: Client)
    requires c in s.clients && ClientOk(s, c)
    ensures Distinct(s.clients[c].entries)
  {
  }

  lemma RecordTouches(s: State, s': State, i: Invitation)
    requires Refs(s) && RecordStep(s, s', i) && s'.roster == s.roster
    requires forall p <- s.players :: s'.players[p].ref == s.players[p].ref
    ensures Refs(s') && Touches(s, s', i)
  {
    hide Refs, Only;
    RefsAt(s, i);
    RecordKeeps(s, s', i);
    RecordOnly(s, s', i);
  }

  /** A game that differs at most in its reference count. */
  predicate SamePlay(s: State, s': State, g: Game) {
    g in s.games && g in s'.games && s'.games[g] == s.games[g].(ref := s'.games[g].ref)
  }

  lemma RemoveOne(s: State, c: Client, i: Invitation)
    requires Refs(s) && c in s.clients && i in s.invs && Held(s, c, i)
    ensures var (s', r) := Remove(s, c, i);
            && Refs(s') && Touches(s, s', i) && r == IdOf(s.clients[c].entries, i) >= 0
            && s'.invs[i] == s.invs[i].(ref := s.invs[i].ref - 1) && s'.log == s.log && s'.players == s.players
            && (s.invs[i].game != null ==> SamePlay(s, s', s.invs[i].game))
            && forall d <- s.clients :: Held(s', d, i) <==> Held(s, d, i) && d != c
  {
    hide Refs, Only, ClientOk, Remove;
    RefsAt(s, i);
    var s' := Remove(s, c, i).0;
    RemoveKeeps(s, c, i);
    RemoveEffect(s, c, i);
    DistinctAt(s, c);
    forall d <- s.clients
      ensures Held(s', d, i) <==> Held(s, d, i) && d != c
    {
      RemoveHeld(s, s', c, i, d, i);
    }
  }

  lemma RemoveBothIs(s: State, c: Client, d: Client, i: Invitation)
    requires c in s.clients && d in s.clients && Linked(s, i) && Remove(s, c, i).1 >= 0
    ensures var (s2, r2) := Remove(Remove(s, c, i).0, d, i);
            RemoveBoth(s, c, d, i) == (s2, if r2 == -1 then -1 else 0)
  {
  }

  /** Removal from both lists: complete when the two clients are the two ends of an invitation
      that both hold; otherwise only the first list is left. */
  lemma RemoveBothKeeps(s: State, c: Client, d: Client, i: Invitation)
    requires Refs(s) && c in s.clients && d in s.clients && Linked(s, i) && Held(s, c, i)
    ensures var (s', r) := RemoveBoth(s, c, d, i);
            && Refs(s') && Touches(s, s', i)
            && s'.log == s.log && s'.players == s.players && !Held(s', c, i)
            && (s.invs[i].game != null ==> SamePlay(s, s', s.invs[i].game))
            && (if c != d && Held(s, d, i)
                then r == 0 && s'.invs[i] == s.invs[i].(ref := s.invs[i].ref - 2) && !Held(s', d, i)
                else r == -1 && s'.invs[i] == s.invs[i].(ref := s.invs[i].ref - 1))
  {
    RemoveOne(s, c, i);
    RemoveBothIs(s, c, d, i);
    var s1 := Remove(s, c, i).0;
    if c != d && Held(s, d, i) {
      RemoveOne(s1, d, i);
      var s2 := Remove(s1, d, i).0;
      TouchesTrans(s, s1, s2, i);
    } else {
      RemoveNothing(s1, d, i);
    }
  }

  lemma HeldElsewhere(s: State, s': State, i: Invitation, j: Invitation)
    requires Only(s, s', i) && SamePeople(s, s') && j in s.invs && j != i && HeldOk(s, j) && Linked(s', j)
    ensures HeldOk(s', j)
  {
    assert SameInv(s, s', j);
    if s.invs[j].source in s.clients && s.invs[j].target in s.clients {
      OnlyHeld(s, s', i, s.invs[j].source, j);
      OnlyHeld(s, s', i, s.invs[j].target, j);
    }
  }

  /** What remains to be shown of the invitation a step was about. */
  lemma CoreKept(s: State, s': State, i: Invitation)
    requires CoreInv(s) && Refs(s') && Touches(s, s', i) && HeldOk(s', i)
    ensures CoreInv(s')
  {
    PeopleKept(s, s');
    forall j <- s'.invs
      ensures HeldOk(s', j)
    {
      if j != i {
        HeldElsewhere(s, s', i, j);
      }
    }
  }

  /** Everything a request refers to is known and live. */
  lemma RequestResolves(s: State, c: Client, id: int)
    requires CoreInv(s) && c in s.clients
    ensures Resolves(s, c, id) && Refs(s)
    ensures var i := Lookup(s.clients[c].entries, id);
            i != null ==> i in s.invs && s.invs[i].ref > 0 && IsPlayed(s.invs[i], c) && Held(s, c, i) && InvOk(s, i) && HeldOk(s, i)
                          && IdOf(s.clients[c].entries, i) == id
  {
    assert ClientOk(s, c);
    var es := s.clients[c].entries;
    var i := Lookup(es, id);
    if i != null {
      var k := FindId(es, id);
      assert es[k] in es;
      EntryLookup(es, es[k]);
    }
  }
}
