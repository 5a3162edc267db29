/** A client leaves: logging out closes everything in its list, then the registry forgets it. */
module Leaving {
  import opened Basics
  import opened Clients
  import opened ClientRegistries
  import opened Sessions
  import opened References
  import opened Steps
  import opened Joining

  /* ---------- logging out ---------- */

  /** e is the only entry of the list with its invitation or its ID, if it is there at all. */
  ghost predicate Sole(es: seq<Entry>, e: Entry) {
    forall x <- es :: x.inv == e.inv || x.id == e.id ==> x == e
  }

  lemma SoleLookup(es: seq<Entry>, e: Entry)
    requires Sole(es, e)
    ensures Lookup(es, e.id) == if e in es then e.inv else null
    ensures e !in es ==> !Holds(es, e.inv)
  {
    var k := FindId(es, e.id);
    if k < |es| {
      assert es[k] in es;
    }
  }

  /** What one node's turn leaves. */
  ghost predicate TurnDone(s: State, s': State, c: Client, i: Invitation) {
    && CoreInv(s') && i in s.invs && s'.invs.Keys == s.invs.Keys && c in s.clients && c in s'.clients
    && Only(s, s', i) && SamePeople(s, s') && Shrinks(s, s')
    && (Held(s', c, i) ==> s'.invs[i].state == InvClosed)
    && ClosesOnly(s.invs[i], s'.invs[i])
  }

  /** Same ends, roles and game; the state is unchanged or closed. */
  predicate ClosesOnly(a: InvRec, b: InvRec) {
    SameEnds(a, b) && (b.state == a.state || b.state == InvClosed)
  }

  lemma NoTurn(s: State, c: Client, i: Invitation)
    requires CoreInv(s) && c in s.clients && i in s.invs
    requires Held(s, c, i) ==> s.invs[i].state == InvClosed
    ensures TurnDone(s, s, c, i)
  {
    hide CoreInv;
  }

  lemma Turn(s: State, s': State, c: Client, i: Invitation)
    requires CoreInv(s') && Touches(s, s', i) && c in s.clients
    requires s'.invs[i].state == InvClosed
    ensures TurnDone(s, s', c, i)
  {
    hide CoreInv, Only;
  }

  /** Each node is resigned, revoked or declined; afterwards its invitation is closed or gone. */
  lemma LogoutOneKeeps(s: State, c: Client, e: Entry, lost: set<Invitation>, pow: int -> PosReal)
    requires CoreInv(s) && c in s.clients && e.inv in s.invs && Sole(s.clients[c].entries, e) && Resolves(s, c, e.id)
    ensures TurnDone(s, LogoutOne(s, c, e, lost, pow), c, e.inv)
  {
    hide CoreInv, Refs, Touches, TurnDone, Resigned, Revoke, Decline, Sessions.Resign;
    var ok := e.inv !in lost;
    SoleLookup(s.clients[c].entries, e);
    RequestResolves(s, c, e.id);
    RevokeKeeps(s, c, e.id, ok);
    DeclineKeeps(s, c, e.id, ok);
    ResignKeeps(s, c, e.id, ok, pow);
    var s' := LogoutOne(s, c, e, lost, pow);
    if s' == s {
      NoTurn(s, c, e.inv);
    } else {
      Turn(s, s', c, e.inv);
    }
  }

  /** Every entry still in c's list is waiting for its turn or belongs to a closed invitation. */
  ghost predicate Pending(s: State, c: Client, todo: seq<Entry>) {
    && c in s.clients
    && forall x <- s.clients[c].entries :: x in todo || (x.inv in s.invs && s.invs[x.inv].state == InvClosed)
  }

  lemma PendingAll(s: State, c: Client)
    requires c in s.clients
    ensures Pending(s, c, s.clients[c].entries)
  {
  }

  lemma PendingNext(s: State, s': State, c: Client, todo: seq<Entry>)
    requires todo != [] && Pending(s, c, todo) && TurnDone(s, s', c, todo[0].inv)
    requires forall x <- s.clients[c].entries :: x.inv in s.invs
    ensures Pending(s', c, todo[1..])
  {
    hide CoreInv, SamePeople;
    assert todo == [todo[0]] + todo[1..];
    forall x <- s'.clients[c].entries | x !in todo[1..]
      ensures x.inv in s'.invs && s'.invs[x.inv].state == InvClosed
    {
      assert x in s.clients[c].entries;
      if x.inv == todo[0].inv {
        assert Held(s', c, x.inv);
      } else {
        assert SameInv(s, s', x.inv);
      }
    }
  }

  lemma SoleIn(es: seq<Entry>, orig: seq<Entry>, e: Entry)
    requires Distinct(orig) && e in orig && forall x <- es :: x in orig
    ensures Sole(es, e)
  {
    forall x <- es | x.inv == e.inv || x.id == e.id
      ensures x == e
    {
      var j, k :| 0 <= j < |orig| && 0 <= k < |orig| && orig[j] == x && orig[k] == e;
      assert j == k;
    }
  }

  lemma EntriesKnown(s: State, c: Client)
    requires CoreInv(s) && c in s.clients
    ensures Distinct(s.clients[c].entries) && forall x <- s.clients[c].entries :: x.inv in s.invs && s.invs[x.inv].ref > 0
  {
    assert ClientOk(s, c);
  }

  /** The loop of client_logout: every entry gets its turn, whatever the sends do. */
  lemma {:induction false} LogoutAllKeeps(s: State, c: Client, orig: seq<Entry>, todo: seq<Entry>, lost: set<Invitation>, pow: int -> PosReal)
    requires CoreInv(s) && c in s.clients && Distinct(orig)
    requires forall x <- s.clients[c].entries :: x in orig
    requires forall e <- todo :: e in orig && e.inv in s.invs
    requires Pending(s, c, todo)
    ensures var s' := LogoutAll(s, c, todo, lost, pow);
            && CoreInv(s') && SamePeople(s, s') && s'.invs.Keys == s.invs.Keys && Pending(s', c, []) && Shrinks(s, s')
            && (forall j <- s.invs :: ClosesOnly(s.invs[j], s'.invs[j]))
            && (forall j <- s.invs :: (forall e <- todo :: e.inv != j) ==> Spared(s, s', j))
    decreases |todo|
  {
    hide CoreInv, Only, SamePeople, Pending, LogoutOne, Spared, Shrinks, TurnDone, ClosesOnly;
    if todo == [] {
      SamePeopleRefl(s);
    } else {
      var e := todo[0];
      SoleIn(s.clients[c].entries, orig, e);
      RequestResolves(s, c, e.id);
      EntriesKnown(s, c);
      var s1 := LogoutOne(s, c, e, lost, pow);
      LogoutOneKeeps(s, c, e, lost, pow);
      PendingNext(s, s1, c, todo);
      AfterTurn(s, s1, c, e.inv, orig);
      LogoutAllKeeps(s1, c, orig, todo[1..], lost, pow);
      SparedTrans(s, s1, LogoutAll(s1, c, todo[1..], lost, pow), e.inv, todo);
    }
  }

  /** An invitation that keeps its record, its game and its entry, ID included, in every list. */
  ghost predicate Spared(s: State, s': State, j: Invitation) {
    && j in s.invs && j in s'.invs && SameInv(s, s', j)
    && forall x <- s.clients :: x in s'.clients && SameEntry(s.clients[x].entries, s'.clients[x].entries, j)
  }

  ghost predicate SameEntry(es: seq<Entry>, es': seq<Entry>, j: Invitation) {
    && (forall e <- es :: e.inv == j ==> e in es')
    && (forall e <- es' :: e.inv == j ==> e in es)
  }

  lemma SamePeopleRefl(s: State)
    ensures SamePeople(s, s) && Shrinks(s, s)
    ensures forall j <- s.invs :: ClosesOnly(s.invs[j], s.invs[j]) && Spared(s, s, j)
  {
  }

  /** A turn in the loop, seen from the whole loop. */
  lemma AfterTurn(s: State, s1: State, c: Client, i: Invitation, orig: seq<Entry>)
    requires TurnDone(s, s1, c, i) && forall x <- s.clients[c].entries :: x in orig
    ensures CoreInv(s1) && SamePeople(s, s1) && Shrinks(s, s1) && s1.invs.Keys == s.invs.Keys && c in s1.clients
    ensures forall x <- s1.clients[c].entries :: x in orig
    ensures forall j <- s.invs :: ClosesOnly(s.invs[j], s1.invs[j])
    ensures forall j <- s.invs :: j != i ==> Spared(s, s1, j)
  {
    hide CoreInv;
    forall j <- s.invs
      ensures ClosesOnly(s.invs[j], s1.invs[j])
      ensures j != i ==> Spared(s, s1, j)
    {
      if j != i {
        assert SameInv(s, s1, j);
        forall x <- s.clients
          ensures SameEntry(s.clients[x].entries, s1.clients[x].entries, j)
        {
          assert SameElsewhere(s.clients[x].entries, s1.clients[x].entries, i);
        }
      }
    }
  }

  lemma SamePeopleTrans(s: State, s1: State, s2: State)
    requires SamePeople(s, s1) && SamePeople(s1, s2)
    ensures SamePeople(s, s2)
  {
  }

  lemma SpareTrans(s: State, s1: State, s2: State, j: Invitation)
    requires Spared(s, s1, j) && Spared(s1, s2, j)
    ensures Spared(s, s2, j)
  {
    forall x <- s.clients
      ensures x in s2.clients && SameEntry(s.clients[x].entries, s2.clients[x].entries, j)
    {
      assert SameEntry(s.clients[x].entries, s1.clients[x].entries, j);
    }
  }

  lemma SparedTrans(s: State, s1: State, s2: State, i: Invitation, todo: seq<Entry>)
    requires todo != [] && todo[0].inv == i
    requires SamePeople(s, s1) && SamePeople(s1, s2) && Shrinks(s, s1) && Shrinks(s1, s2)
    requires s1.invs.Keys == s.invs.Keys && s2.invs.Keys == s.invs.Keys
    requires forall j <- s.invs :: ClosesOnly(s.invs[j], s1.invs[j])
    requires forall j <- s.invs :: ClosesOnly(s1.invs[j], s2.invs[j])
    requires forall j <- s.invs :: j != i ==> Spared(s, s1, j)
    requires forall j <- s.invs :: (forall e <- todo[1..] :: e.inv != j) ==> Spared(s1, s2, j)
    ensures SamePeople(s, s2) && Shrinks(s, s2)
    ensures forall j <- s.invs :: ClosesOnly(s.invs[j], s2.invs[j])
    ensures forall j <- s.invs :: (forall e <- todo :: e.inv != j) ==> Spared(s, s2, j)
  {
    hide Spared, SamePeople;
    SamePeopleTrans(s, s1, s2);
    forall j <- s.invs | forall e <- todo :: e.inv != j
      ensures Spared(s, s2, j)
    {
      assert todo[0] in todo;
      assert forall e <- todo[1..] :: e in todo;
      SpareTrans(s, s1, s2, j);
    }
  }

  /* ---------- leaving the registry ---------- */

  /** The client is neither logged in nor registered any more. */
  ghost predicate LeaveStep(s: State, s': State, c: Client) {
    && c in s.clients && c in s.registry
    && s'.registry == Left(s.registry, c)
    && s'.invs == s.invs && s'.games == s.games && s'.roster == s.roster && s'.log == s.log
    && s'.clients == s.clients[c := s.clients[c].(loggedIn := false, ref := s.clients[c].ref - 1)]
    && if s.clients[c].loggedIn
       then s.clients[c].player != null && s.clients[c].player in s.players
            && s'.players == s.players[s.clients[c].player :=
                                         s.players[s.clients[c].player].(ref := s.players[s.clients[c].player].ref - 1)]
       else s'.players == s.players
  }

  lemma LeaveClients(s: State, s': State, c: Client)
    requires Refs(s) && LeaveStep(s, s', c) && NoRepeat(s.registry)
    ensures forall x <- s'.clients :: ClientOk(s', x)
  {
    LeftKeepsOrder(s.registry, c);
    forall x <- s'.clients
      ensures ClientOk(s', x)
    {
      ClientUnmoved(s, s', x);
    }
  }

  lemma PendingClosed(s: State, c: Client, j: Invitation)
    requires Pending(s, c, []) && Held(s, c, j)
    ensures j in s.invs && s.invs[j].state == InvClosed
  {
  }

  lemma LeaveInv(s: State, s': State, c: Client, j: Invitation)
    requires Linked(s, j) && InvOk(s, j) && HeldOk(s, j) && LeaveStep(s, s', c)
    requires Held(s, c, j) ==> s.invs[j].state == InvClosed
    ensures Linked(s', j) && InvOk(s', j) && HeldOk(s', j)
  {
    InvKept(s, s', j);
  }

  lemma LeaveRefs(s: State, s': State, c: Client)
    requires Refs(s) && OpenHeld(s) && LeaveStep(s, s', c) && NoRepeat(s.registry) && Pending(s, c, [])
    ensures Refs(s') && OpenHeld(s')
  {
    hide InvOk, HeldOk, ClientOk, Pending, Held, GamesApart, NoRepeat;
    LeaveClients(s, s', c);
    ApartSame(s, s');
    forall j <- s'.invs
      ensures Linked(s', j) && InvOk(s', j) && HeldOk(s', j)
    {
      if Held(s, c, j) {
        PendingClosed(s, c, j);
      }
      LeaveInv(s, s', c, j);
    }
  }

  lemma LeaveUsers(s: State, s': State, c: Client)
    requires LeaveStep(s, s', c) && forall p <- s.players :: s.players[p].ref == 1 + |Users(s, p)|
    ensures forall p <- s'.players :: s'.players[p].ref == 1 + |Users(s', p)|
  {
    forall p <- s'.players
      ensures s'.players[p].ref == 1 + |Users(s', p)|
    {
      if s.clients[c].loggedIn && s.clients[c].player == p {
        assert Users(s', p) == Users(s, p) - {c};
      } else {
        assert Users(s', p) == Users(s, p);
      }
    }
  }

  lemma LeavePeople(s: State, s': State, c: Client)
    requires People(s) && LeaveStep(s, s', c)
    ensures People(s')
  {
    LeaveUsers(s, s', c);
    LeftKeepsOrder(s.registry, c);
  }

  lemma LeaveKeeps(s: State, s': State, c: Client)
    requires CoreInv(s) && LeaveStep(s, s', c) && Pending(s, c, [])
    ensures CoreInv(s')
  {
    hide Refs, OpenHeld, LeaveStep, Pending;
    LeavePeople(s, s', c);
    LeaveRefs(s, s', c);
  }

  /** A client with an invitation has logged in. */
  lemma ListedHasPlayer(s: State, c: Client)
    requires CoreInv(s) && c in s.clients && s.clients[c].entries != []
    ensures s.clients[c].player != null
  {
    assert ClientOk(s, c);
    var e := s.clients[c].entries[0];
    assert e in s.clients[c].entries;
    assert Linked(s, e.inv) && InvOk(s, e.inv);
  }

  /** The state after the loop of client_logout, if the client is logged in. */
  function AfterLoop(s: State, c: Client, lost: set<Invitation>, pow: int -> PosReal): State
    requires Known(s, c)
  {
    if s.clients[c].loggedIn then LogoutAll(s, c, s.clients[c].entries, lost, pow) else s
  }

  lemma ExitIs(s: State, c: Client, lost: set<Invitation>, pow: int -> PosReal)
    requires c in s.registry && Known(s, c) && (s.clients[c].loggedIn <==> s.clients[c].player != null)
    requires SamePeople(s, AfterLoop(s, c, lost, pow))
    ensures LeaveStep(AfterLoop(s, c, lost, pow), Exit(s, c, lost, pow), c)
  {
    hide LogoutAll;
  }

  lemma LoopKeeps(s: State, c: Client, lost: set<Invitation>, pow: int -> PosReal)
    requires CoreInv(s) && Known(s, c) && (s.clients[c].loggedIn <==> s.clients[c].player != null)
    ensures var s1 := AfterLoop(s, c, lost, pow);
            && CoreInv(s1) && SamePeople(s, s1) && Pending(s1, c, []) && s1.invs.Keys == s.invs.Keys && Shrinks(s, s1)
            && (forall j <- s.invs :: ClosesOnly(s.invs[j], s1.invs[j]))
            && (forall j <- s.invs :: !Held(s, c, j) ==> Spared(s, s1, j))
  {
    hide CoreInv, SamePeople, Shrinks, ClosesOnly, Spared, LogoutAll;
    var es := s.clients[c].entries;
    if s.clients[c].loggedIn {
      EntriesKnown(s, c);
      LogoutAllKeeps(s, c, es, es, lost, pow);
    } else {
      SamePeopleRefl(s);
      if es != [] {
        ListedHasPlayer(s, c);
      }
    }
  }

  /** The end of a service thread, whatever the sends do. */
  lemma ExitKeeps(s: State, c: Client, lost: set<Invitation>, pow: int -> PosReal)
    requires CoreInv(s) && c in s.registry && Known(s, c)
    requires s.clients[c].loggedIn <==> s.clients[c].player != null
    ensures var s1 := AfterLoop(s, c, lost, pow);
            CoreInv(s1) && SamePeople(s, s1) && Pending(s1, c, []) && LeaveStep(s1, Exit(s, c, lost, pow), c)
    ensures CoreInv(Exit(s, c, lost, pow)) && c !in Exit(s, c, lost, pow).registry
  {
    hide CoreInv, Exit, AfterLoop, LeaveStep, Pending;
    LoopKeeps(s, c, lost, pow);
    ExitIs(s, c, lost, pow);
    var s1 := AfterLoop(s, c, lost, pow);
    LeaveKeeps(s1, Exit(s, c, lost, pow), c);
    LeftBehind(s1, Exit(s, c, lost, pow), c);
  }

  lemma LeftBehind(s: State, s': State, c: Client)
    requires CoreInv(s) && LeaveStep(s, s', c)
    ensures c !in s'.registry
  {
    GoneFromRegistry(s, c);
  }

  lemma GoneFromRegistry(s: State, c: Client)
    requires CoreInv(s) && c in s.registry
    ensures c !in Left(s.registry, c)
  {
    LeftKeepsOrder(s.registry, c);
  }

  /** client_logout succeeds exactly for a client that is logged in; it is not logged in afterwards, its
      player field stays, and the player has lost that client's reference. */
  lemma LogoutExactly(s: State, c: Client, lost: set<Invitation>, pow: int -> PosReal)
    requires CoreInv(s) && Known(s, c)
    ensures var (s', r) := Logout(s, c, lost, pow);
            && (r == 0 <==> s.clients[c].loggedIn) && (r == -1 <==> !s.clients[c].loggedIn) && (r == -1 ==> s' == s)
            && c in s'.clients && !s'.clients[c].loggedIn && s'.clients[c].player == s.clients[c].player
            && (r == 0 ==> s.clients[c].player in s'.players
                           && s'.players[s.clients[c].player].ref == s.players[s.clients[c].player].ref - 1)
  {
    hide CoreInv, LogoutAll, Pending, Shrinks, ClosesOnly, Spared;
    if s.clients[c].loggedIn {
      InHasPlayer(s, c);
      LoopKeeps(s, c, lost, pow);
    }
  }

  lemma InHasPlayer(s: State, c: Client)
    requires CoreInv(s) && c in s.clients && s.clients[c].loggedIn
    ensures s.clients[c].player != null && s.clients[c].player in s.players
  {
  }

  /** creg_unregister succeeds exactly for a registered client; the others stay, and the client has lost
      the registry's reference. */
  lemma UnregisterExactly(s: State, c: Client)
    requires CoreInv(s) && c in s.clients
    ensures var (s', r) := Unregister(s, c);
            && (r == 0 <==> c in s.registry) && (r == -1 <==> c !in s.registry) && (r == -1 ==> s' == s)
            && (forall d :: d in s'.registry <==> d in s.registry && d != c)
            && (r == 0 ==> s'.clients[c].ref == s.clients[c].ref - 1)
  {
    hide CoreInv;
    RegistryDistinct(s);
    if c in s.registry {
      LeftKeepsOrder(s.registry, c);
    }
  }

  lemma RegistryDistinct(s: State)
    requires CoreInv(s)
    ensures NoRepeat(s.registry)
  {
  }
}
