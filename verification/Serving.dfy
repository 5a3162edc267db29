/** The server at work: any sequence of requests, performed on the objects, is a run. */
module Serving {
  import opened Basics
  import opened Games
  import opened Clients
  import opened ClientRegistries
  import opened Sessions
  import opened References
  import opened Runs
  import opened Worlds
  import opened Operations

  /** What a thread may do next, with the outcomes of its sends; an exit loses the packets about
      the invitations with the given IDs. */
  datatype Request =
    | Arrive
    | LogIn(name: string)
    | Propose(name: string, role: Role, sent: bool)
    | Withdraw(id: int, sent: bool)
    | Refuse(id: int, sent: bool)
    | Agree(id: int, sent: bool)
    | GiveUp(id: int, sent: bool)
    | Play(id: int, move: string, sent1: bool, sent2: bool, sent3: bool)
    | Depart(lostIds: set<int>)

  function LostOf(es: seq<Entry>, ids: set<int>): set<Invitation> {
    set e | e in es && e.id in ids :: e.inv
  }

  /** The packets lost are those about the entries with the given IDs. */
  lemma LostExactly(es: seq<Entry>, ids: set<int>, e: Entry)
    requires Distinct(es) && e in es
    ensures e.inv in LostOf(es, ids) <==> e.id in ids
  {
    forall f | f in es && f.inv == e.inv
      ensures f == e
    {
      EntryLookup(es, e);
      EntryLookup(es, f);
    }
  }

  /** Whether a step is the one a client's request asks for; the objects it creates may be any new
      ones. */
  predicate IsStep(s: State, c: Client?, q: Request, t: Step) {
    match q
    case Arrive => t.SConnect?
    case LogIn(name) => t.SLogin? && t.c == c && t.p.name == name
    case Propose(name, role, sent) => t.SInvite? && t.c == c && t.name == name && t.role == role && t.ok == sent
    case Withdraw(id, sent) => t.SRevoke? && t.c == c && t.id == id && t.ok == sent
    case Refuse(id, sent) => t.SDecline? && t.c == c && t.id == id && t.ok == sent
    case Agree(id, sent) => t.SAccept? && t.c == c && t.id == id && t.ok == sent
    case GiveUp(id, sent) => t.SResign? && t.c == c && t.id == id && t.ok == sent
    case Play(id, move, sent1, sent2, sent3) =>
      t.SMove? && t.c == c && t.id == id && t.text == move && t.ok1 == sent1 && t.ok2 == sent2 && t.ok3 == sent3
    case Depart(ids) => t.SExit? && t.c == c && c in s.clients && t.lost == LostOf(s.clients[c].entries, ids)
  }

  /** Who may ask: registered clients, and for all but logging in and leaving logged-in ones. */
  predicate MayAsk(s: State, c: Client?, q: Request) {
    q.Arrive? || (c != null && if q.LogIn? || q.Depart? then c in s.registry else Active(s, c))
  }

  /** A request may be made exactly by those for whom some step it could be is enabled: there is no step
      for anyone else, and only a new object's being new stands between the others and theirs. */
  lemma AsksExactly(s: State, c: Client?, q: Request, t: Step)
    requires IsStep(s, c, q, t)
    ensures Enabled(s, t) ==> MayAsk(s, c, q)
    ensures MayAsk(s, c, q) ==>
              (Enabled(s, t) <==> (t.SConnect? ==> t.c !in s.clients) && (t.SInvite? ==> t.i !in s.invs) && (t.SAccept? ==> t.g !in s.games))
  {
  }

  /** The requests that are refused before anything is created. */
  predicate Refused(s: State, c: Client?, q: Request) {
    match q
    case Arrive => |s.registry| >= MAX_CLIENTS
    case LogIn(name) => c in s.clients && (s.clients[c].player != null || name == "")
    case Propose(name, role, _) => var d := LookupUser(s, s.registry, name); d == null || d == c || role == NullRole
    case Agree(id, _) =>
      c in s.clients &&
      var i := Lookup(s.clients[c].entries, id);
      i == null || (i in s.invs && (s.invs[i].target != c || s.invs[i].state != InvOpen))
    case _ => false
  }

  /** Whatever step a refused request could be, it leaves the state as it is. */
  lemma RefusedIsIdle(s: State, c: Client?, q: Request, t: Step, pow: int -> PosReal)
    requires Refused(s, c, q) && IsStep(s, c, q, t) && Enabled(s, t) && Ready(s, t)
    ensures Next(s, t, pow) == s
  {
  }

  /** From one state to the next by the step the request asks for, or not at all if it is refused. */
  ghost predicate Served(s: State, s': State, c: Client?, q: Request, step: Option<Step>, pow: int -> PosReal) {
    match step
    case Some(t) => IsStep(s, c, q, t) && Enabled(s, t) && Ready(s, t) && s' == Next(s, t, pow)
    case None => s' == s && Refused(s, c, q)
  }

  lemma ServedStep(s: State, s': State, c: Client?, q: Request, t: Step, pow: int -> PosReal)
    requires CoreInv(s) && IsStep(s, c, q, t) && Enabled(s, t)
    requires Ready(s, t) ==> s' == Next(s, t, pow)
    ensures Served(s, s', c, q, Some(t), pow) && CoreInv(s')
  {
    hide CoreInv, Next;
    NeverDangling(s, t);
    NextKeeps(s, t, pow);
  }

  /** The invitations that a departing client's lost packets are about. */
  method LostIn(w: World, client: Client, ids: set<int>) returns (lost: set<Invitation>)
    requires w.Valid() && client in w.st.clients
    ensures lost == LostOf(w.st.clients[client].entries, ids)
  {
    hide w.Valid;
    lost := {};
    ghost var es := w.st.clients[client].entries;
    w.NodesHere(client);
    w.NodeHere(client, 0);
    var node := client.invites.head;
    ghost var k := 0;
    while node != null
      invariant 0 <= k <= |es| == |w.lists[client]| && node == Nth(w.lists[client], k)
      invariant lost == LostOf(es[..k], ids)
      decreases |es| - k
    {
      w.NodeHere(client, k);
      assert es[..k + 1] == es[..k] + [es[k]];
      if node.id in ids {
        lost := lost + {node.invitation};
      }
      node := node.next;
      k := k + 1;
    }
    assert es[..k] == es;
  }

  /** A new connection. */
  method ServeArrival(w: World, client: Client?, pow: int -> PosReal) returns (ghost step: Option<Step>)
    requires w.Valid() && CoreInv(w.st)
    modifies w`st, w`lists, w`repr, w.repr
    ensures w.Valid() && CoreInv(w.st) && fresh(w.repr - old(w.repr))
    ensures Served(old(w.st), w.st, client, Arrive, step, pow)
  {
    hide w.Valid, CoreInv;
    var c := RegisterClient(w);
    if c != null {
      step := Some(SConnect(c));
      ServedStep(old(w.st), w.st, client, Arrive, SConnect(c), pow);
    } else {
      step := None;
    }
  }

  method ServeLogin(w: World, client: Client, name: string, pow: int -> PosReal) returns (ghost step: Option<Step>)
    requires w.Valid() && CoreInv(w.st) && client in w.st.registry
    modifies w`st, w`lists, w`repr, w.repr
    ensures w.Valid() && CoreInv(w.st) && fresh(w.repr - old(w.repr))
    ensures Served(old(w.st), w.st, client, LogIn(name), step, pow)
  {
    hide w.Valid, CoreInv;
    RegisteredClient(w.st, client);
    var r;
    ghost var q;
    r, q := Operations.Login(w, client, name);
    if q != null {
      step := Some(SLogin(client, q));
      ServedStep(old(w.st), w.st, client, LogIn(name), SLogin(client, q), pow);
    } else {
      step := None;
    }
  }

  method ServeProposal(w: World, client: Client, name: string, role: Role, sent: bool, pow: int -> PosReal)
    returns (ghost step: Option<Step>)
    requires w.Valid() && CoreInv(w.st) && Active(w.st, client)
    modifies w`st, w`lists, w`repr, w.repr
    ensures w.Valid() && CoreInv(w.st) && fresh(w.repr - old(w.repr))
    ensures Served(old(w.st), w.st, client, Propose(name, role, sent), step, pow)
  {
    hide w.Valid, CoreInv, Make;
    var id;
    ghost var i;
    id, i := Operations.Invite(w, client, name, role, sent);
    if i != null {
      step := Some(SInvite(client, name, role, i, sent));
      ServedStep(old(w.st), w.st, client, Propose(name, role, sent), SInvite(client, name, role, i, sent), pow);
    } else {
      step := None;
    }
  }

  method ServeAgreement(w: World, client: Client, id: int, sent: bool, pow: int -> PosReal) returns (ghost step: Option<Step>)
    requires w.Valid() && CoreInv(w.st) && Active(w.st, client)
    modifies w`st, w`lists, w`repr, w.repr
    ensures w.Valid() && CoreInv(w.st) && fresh(w.repr - old(w.repr))
    ensures Served(old(w.st), w.st, client, Agree(id, sent), step, pow)
  {
    hide w.Valid, CoreInv, Accept, Lookup, Served;
    RequestReady(w.st, client, id);
    var r, text;
    ghost var g;
    r, text, g := AcceptInvitation(w, client, id, sent);
    if g != null {
      step := Some(SAccept(client, id, g, sent));
      ServedStep(old(w.st), w.st, client, Agree(id, sent), SAccept(client, id, g, sent), pow);
    } else {
      step := None;
      NotAgreed(old(w.st), client, id, sent, pow);
    }
  }

  lemma NotAgreed(s: State, c: Client, id: int, sent: bool, pow: int -> PosReal)
    requires Resolves(s, c, id)
    requires var i := Lookup(s.clients[c].entries, id); i == null || s.invs[i].target != c || s.invs[i].state != InvOpen
    ensures Served(s, s, c, Agree(id, sent), None, pow)
  {
  }

  /** The requests that create nothing. */
  method ServeRest(w: World, client: Client, q: Request, pow: int -> PosReal) returns (ghost step: Option<Step>)
    requires w.Valid() && CoreInv(w.st) && MayAsk(w.st, client, q)
    requires q.Withdraw? || q.Refuse? || q.GiveUp? || q.Play?
    modifies w`st, w`lists, w.repr
    ensures w.Valid() && CoreInv(w.st) && w.repr == old(w.repr)
    ensures Served(old(w.st), w.st, client, q, step, pow)
  {
    hide w.Valid, CoreInv, Revoke, Decline, Sessions.Resign, Sessions.MakeMove, Thinner, InvOk, HeldOk, Held, Linked, Served;
    var r;
    RequestReady(w.st, client, q.id);
    match q {
      case Withdraw(id, sent) =>
        r := RevokeInvitation(w, client, id, sent);
        step := Some(SRevoke(client, id, sent));
      case Refuse(id, sent) =>
        r := DeclineInvitation(w, client, id, sent);
        step := Some(SDecline(client, id, sent));
      case GiveUp(id, sent) =>
        r := ResignGame(w, client, id, sent, pow);
        step := Some(SResign(client, id, sent));
      case Play(id, move, sent1, sent2, sent3) =>
        r := Operations.MakeMove(w, client, id, move, sent1, sent2, sent3, pow);
        step := Some(SMove(client, id, move, sent1, sent2, sent3));
    }
    ServedStep(old(w.st), w.st, client, q, step.value, pow);
  }

  lemma RequestReady(s: State, c: Client, id: int)
    requires CoreInv(s) && c in s.clients
    ensures Resolves(s, c, id)
    ensures var i := Lookup(s.clients[c].entries, id); i != null ==> i in s.invs && s.invs[i].source != s.invs[i].target
  {
    hide CoreInv, Held, HeldOk;
    RequestResolves(s, c, id);
  }

  method ServeDeparture(w: World, client: Client, ids: set<int>, pow: int -> PosReal) returns (ghost step: Option<Step>)
    requires w.Valid() && CoreInv(w.st) && client in w.st.registry
    modifies w`st, w`lists, w.repr
    ensures w.Valid() && CoreInv(w.st) && w.repr == old(w.repr)
    ensures Served(old(w.st), w.st, client, Depart(ids), step, pow)
  {
    hide w.Valid, CoreInv, Exit;
    RegisteredClient(w.st, client);
    var lost := LostIn(w, client, ids);
    EndService(w, client, lost, pow);
    step := Some(SExit(client, lost));
    ServedStep(old(w.st), w.st, client, Depart(ids), SExit(client, lost), pow);
  }

  /** Any request of a client that may make it takes the objects from one state to the next exactly
      as its step takes the abstract state. */
  method Serve(w: World, client: Client?, q: Request, pow: int -> PosReal) returns (ghost step: Option<Step>)
    requires w.Valid() && CoreInv(w.st) && MayAsk(w.st, client, q)
    modifies w`st, w`lists, w`repr, w.repr
    ensures w.Valid() && CoreInv(w.st) && fresh(w.repr - old(w.repr))
    ensures Served(old(w.st), w.st, client, q, step, pow)
  {
    hide w.Valid, CoreInv, Served;
    match q {
      case Arrive => step := ServeArrival(w, client, pow);
      case LogIn(name) => step := ServeLogin(w, client, name, pow);
      case Propose(name, role, sent) => step := ServeProposal(w, client, name, role, sent, pow);
      case Agree(id, sent) => step := ServeAgreement(w, client, id, sent, pow);
      case Depart(ids) => step := ServeDeparture(w, client, ids, pow);
      case _ => step := ServeRest(w, client, q, pow);
    }
  }

  lemma {:induction false} RunSnoc(s: State, steps: seq<Step>, t: Step, pow: int -> PosReal)
    requires RunFrom(s, steps, pow).Some?
    requires var s1 := RunFrom(s, steps, pow).value; Enabled(s1, t) && Ready(s1, t)
    ensures RunFrom(s, steps + [t], pow) == Some(Next(RunFrom(s, steps, pow).value, t, pow))
    decreases |steps|
  {
    hide Next;
    if steps == [] {
      assert steps + [t] == [t];
    } else {
      assert (steps + [t])[1..] == steps[1..] + [t];
      RunSnoc(Next(s, steps[0], pow), steps[1..], t, pow);
    }
  }

  /** The client at a place in the registry, if there is one. */
  function At(s: State, who: nat): Client? {
    if who < |s.registry| then s.registry[who] else null
  }

  /** The registered client in a place, and whether it may make a request, as the server can tell. */
  method Asker(w: World, who: nat, q: Request) returns (client: Client?, may: bool)
    requires w.Valid() && CoreInv(w.st)
    ensures client == At(w.st, who) && may == MayAsk(w.st, client, q)
  {
    hide w.Valid, CoreInv;
    w.RegistryHere(who);
    if who >= w.registry.length {
      return null, q.Arrive?;
    }
    client := w.registry.clients[who];
    RegisteredClient(w.st, w.st.registry[who]);
    w.ClientHere(client);
    may := q.Arrive? || q.LogIn? || q.Depart? || client.loggedIn;
  }

  /** What one request makes of a state: if its client may make it, it is served; otherwise nothing. */
  ghost predicate Answered(s: State, s': State, who: nat, q: Request, step: Option<Step>, pow: int -> PosReal) {
    if MayAsk(s, At(s, who), q) then Served(s, s', At(s, who), q, step, pow) else s' == s
  }

  /** The states of a server as it answers requests one after the other. */
  ghost predicate History(states: seq<State>, taken: seq<Option<Step>>, requests: seq<(nat, Request)>, pow: int -> PosReal) {
    && |states| == |requests| + 1 && |taken| == |requests| && states[0] == INITIAL
    && forall n :: 0 <= n < |requests| ==> Answered(states[n], states[n + 1], requests[n].0, requests[n].1, taken[n], pow)
  }

  lemma HistoryGrows(states: seq<State>, taken: seq<Option<Step>>, requests: seq<(nat, Request)>, n: nat, s: State,
                     step: Option<Step>, pow: int -> PosReal)
    requires n < |requests| && History(states, taken, requests[..n], pow)
    requires Answered(states[n], s, requests[n].0, requests[n].1, step, pow)
    ensures History(states + [s], taken + [step], requests[..n + 1], pow)
  {
    hide Answered;
    var (ss, ts) := (states + [s], taken + [step]);
    forall k | 0 <= k < n + 1
      ensures Answered(ss[k], ss[k + 1], requests[..n + 1][k].0, requests[..n + 1][k].1, ts[k], pow)
    {
      if k < n {
        assert requests[..n][k] == requests[k];
        assert Answered(states[k], states[k + 1], requests[..n][k].0, requests[..n][k].1, taken[k], pow);
      }
    }
  }

  /** A new server, and any requests by threads named by their place in the registry.  Each request is
      served in its turn, or passed over if it may not be made; the states in between are the history.
      Whatever is asked, the objects are in the last of them, which a run of the steps reaches, and so
      in one that keeps the invariant. */
  method ServeAll(requests: seq<(nat, Request)>, pow: int -> PosReal)
    returns (w: World, ghost steps: seq<Step>, ghost states: seq<State>, ghost taken: seq<Option<Step>>)
    ensures w.Valid() && RunFrom(INITIAL, steps, pow) == Some(w.st) && CoreInv(w.st)
    ensures History(states, taken, requests, pow) && states[|requests|] == w.st
  {
    hide World.Valid, CoreInv, Served, RunFrom, MayAsk, History;
    w := new World();
    steps, states, taken := [], [INITIAL], [];
    InitialCore();
    NoStepsYet(pow);
    NoHistory(requests, pow);
    for n := 0 to |requests|
      invariant w.Valid() && fresh(w) && fresh(w.repr)
      invariant RunFrom(INITIAL, steps, pow) == Some(w.st) && CoreInv(w.st)
      invariant |states| == n + 1 && states[n] == w.st && History(states, taken, requests[..n], pow)
    {
      var (who, q) := requests[n];
      ghost var s := w.st;
      ghost var step := None;
      var client, may := Asker(w, who, q);
      if may {
        step := Serve(w, client, q, pow);
        steps := RunGoesOn(s, w.st, steps, client, q, step, pow);
      }
      HistoryGrows(states, taken, requests, n, w.st, step, pow);
      states, taken := states + [w.st], taken + [step];
    }
    assert requests[..|requests|] == requests;
  }

  lemma NoHistory(requests: seq<(nat, Request)>, pow: int -> PosReal)
    ensures History([INITIAL], [], requests[..0], pow)
  {
  }

  lemma RunGoesOn(s: State, s': State, steps: seq<Step>, c: Client?, q: Request, step: Option<Step>, pow: int -> PosReal)
    returns (more: seq<Step>)
    requires RunFrom(INITIAL, steps, pow) == Some(s) && Served(s, s', c, q, step, pow)
    ensures RunFrom(INITIAL, more, pow) == Some(s')
  {
    hide RunFrom, Refused, Next;
    more := steps;
    if step.Some? {
      RunSnoc(INITIAL, steps, step.value, pow);
      more := steps + [step.value];
    }
  }

  lemma NoStepsYet(pow: int -> PosReal)
    ensures RunFrom(INITIAL, [], pow) == Some(INITIAL)
  {
  }
}
