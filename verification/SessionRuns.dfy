/** Runs of the whole server, and what holds in every state they reach whatever the network
    does and whichever side asks. */
module Runs {
  import opened Basics
  import opened Games
  import opened Clients
  import opened Sessions
  import opened References
  import opened Steps
  import opened Joining
  import opened Leaving

  /** Every reference that a step follows leads to a known object. */
  predicate Ready(s: State, t: Step) {
    match t
    case SConnect(_) => true
    case SLogin(c, _) => c in s.clients
    case SInvite(c, _, _, _, _) => c in s.clients && s.clients[c].player != null
    case SRevoke(c, id, _) => Resolves(s, c, id)
    case SDecline(c, id, _) => Resolves(s, c, id)
    case SAccept(c, id, _, _) => Resolves(s, c, id)
    case SResign(c, id, _) => Resolves(s, c, id)
    case SMove(c, id, _, _, _, _) => Resolves(s, c, id)
    case SExit(c, _) => Known(s, c)
  }

  function Next(s: State, t: Step, pow: int -> PosReal): State
    requires Ready(s, t)
  {
    match t
    case SConnect(c) => Connect(s, c)
    case SLogin(c, p) => Login(s, c, p).0
    case SInvite(c, name, role, i, ok) => Invite(s, c, name, role, i, ok).0
    case SRevoke(c, id, ok) => Revoke(s, c, id, ok).0
    case SDecline(c, id, ok) => Decline(s, c, id, ok).0
    case SAccept(c, id, g, ok) => Accept(s, c, id, g, ok).0
    case SResign(c, id, ok) => Sessions.Resign(s, c, id, ok, pow).0
    case SMove(c, id, text, ok1, ok2, ok3) => MakeMove(s, c, id, text, ok1, ok2, ok3, pow).0
    case SExit(c, lost) => Exit(s, c, lost, pow)
  }

  /** The state after a list of steps, if each is enabled when its turn comes. */
  function RunFrom(s: State, steps: seq<Step>, pow: int -> PosReal): Option<State>
    decreases |steps|
  {
    if steps == [] then Some(s)
    else if Enabled(s, steps[0]) && Ready(s, steps[0]) then RunFrom(Next(s, steps[0], pow), steps[1..], pow)
    else None
  }

  lemma InitialCore()
    ensures CoreInv(INITIAL)
  {
  }

  /** A registered client is logged in exactly when it has a player. */
  lemma RegisteredClient(s: State, c: Client)
    requires CoreInv(s) && c in s.registry
    ensures c in s.clients && Known(s, c) && (s.clients[c].loggedIn <==> s.clients[c].player != null)
  {
  }

  /** An enabled step never follows a dangling reference. */
  lemma NeverDangling(s: State, t: Step)
    requires CoreInv(s) && Enabled(s, t)
    ensures Ready(s, t)
  {
    if !t.SConnect? {
      hide CoreInv;
      RegisteredClient(s, t.c);
      match t
      case SRevoke(c, id, _) => RequestResolves(s, c, id);
      case SDecline(c, id, _) => RequestResolves(s, c, id);
      case SAccept(c, id, _, _) => RequestResolves(s, c, id);
      case SResign(c, id, _) => RequestResolves(s, c, id);
      case SMove(c, id, _, _, _, _) => RequestResolves(s, c, id);
      case _ =>
    }
  }

  lemma NextKeeps(s: State, t: Step, pow: int -> PosReal)
    requires CoreInv(s) && Enabled(s, t) && Ready(s, t)
    ensures CoreInv(Next(s, t, pow))
  {
    hide CoreInv, Revoke, Decline, Accept, Sessions.Resign, MakeMove, Exit, Login, Connect, Invite;
    match t
    case SConnect(c) => ConnectKeeps(s, c);
    case SLogin(c, p) => LoginKeeps(s, c, p);
    case SInvite(c, name, role, i, ok) => InviteKeeps(s, c, name, role, i, ok);
    case SRevoke(c, id, ok) => RevokeKeeps(s, c, id, ok);
    case SDecline(c, id, ok) => DeclineKeeps(s, c, id, ok);
    case SAccept(c, id, g, ok) => AcceptKeeps(s, c, id, g, ok);
    case SResign(c, id, ok) => ResignKeeps(s, c, id, ok, pow);
    case SMove(c, id, text, ok1, ok2, ok3) => MoveKeeps(s, c, id, text, ok1, ok2, ok3, pow);
    case SExit(c, lost) =>
      RegisteredClient(s, c);
      ExitKeeps(s, c, lost, pow);
  }

  lemma {:induction false} RunKeeps(s: State, steps: seq<Step>, pow: int -> PosReal)
    requires CoreInv(s)
    ensures RunFrom(s, steps, pow).Some? ==> CoreInv(RunFrom(s, steps, pow).value)
    decreases |steps|
  {
    hide CoreInv, Next;
    if steps != [] && Enabled(s, steps[0]) && Ready(s, steps[0]) {
      NextKeeps(s, steps[0], pow);
      RunKeeps(Next(s, steps[0], pow), steps[1..], pow);
    }
  }

  /** The invariant holds in every reachable state. */
  lemma EveryRun(steps: seq<Step>, pow: int -> PosReal)
    ensures RunFrom(INITIAL, steps, pow).Some? ==> CoreInv(RunFrom(INITIAL, steps, pow).value)
  {
    InitialCore();
    RunKeeps(INITIAL, steps, pow);
  }

  /* ---------- what the invariant says ---------- */

  /** An invitation's count is the number of clients whose list holds it, and each of those is
      one of its two ends. */
  lemma InvitationCount(s: State, i: Invitation)
    requires CoreInv(s) && i in s.invs
    ensures var holders := set c | c in s.clients && Held(s, c, i);
            s.invs[i].ref == |holders| && holders <= {s.invs[i].source, s.invs[i].target}
  {
    RefsAt(s, i);
    HoldersAre(s, i);
  }

  lemma HoldersAre(s: State, i: Invitation)
    requires Linked(s, i) && InvOk(s, i) && forall c <- s.clients :: ClientOk(s, c)
    ensures var holders := set c | c in s.clients && Held(s, c, i);
            s.invs[i].ref == |holders| && holders <= {s.invs[i].source, s.invs[i].target}
  {
    hide ClientOk, Held, Complementary;
    var (a, b) := (s.invs[i].source, s.invs[i].target);
    var holders := set c | c in s.clients && Held(s, c, i);
    forall c <- holders
      ensures IsPlayed(s.invs[i], c)
    {
      HolderIsEnd(s, i, c);
    }
    TwoAtMost(holders, a, b);
  }

  lemma TwoAtMost(holders: set<Client>, a: Client, b: Client)
    requires a != b && holders <= {a, b}
    ensures |holders| == One(a in holders) + One(b in holders)
  {
    assert holders == (if a in holders then {a} else {}) + (if b in holders then {b} else {});
  }

  lemma HolderIsEnd(s: State, i: Invitation, c: Client)
    requires i in s.invs && c in s.clients && ClientOk(s, c) && Held(s, c, i)
    ensures IsPlayed(s.invs[i], c)
  {
  }

  /** Whether anything still leads to a client: the registry or a live invitation. */
  ghost predicate Reached(s: State, c: Client) {
    c in s.registry || exists i <- s.invs :: s.invs[i].ref > 0 && IsPlayed(s.invs[i], c)
  }

  lemma ClientReleased(s: State, c: Client)
    requires c in s.clients && ClientOk(s, c)
    ensures s.clients[c].ref > 0 <==> Reached(s, c)
    ensures s.clients[c].ref >= 0
  {
    if Naming(s, c) != {} {
      var i :| i in Naming(s, c);
    }
    assert forall i <- s.invs :: s.invs[i].ref > 0 && IsPlayed(s.invs[i], c) ==> i in Naming(s, c);
  }

  lemma GameReleased(s: State, i: Invitation)
    requires Linked(s, i) && InvOk(s, i)
    ensures s.invs[i].game != null ==> s.games[s.invs[i].game].ref == One(s.invs[i].ref > 0)
  {
  }

  /** A client is released exactly when nothing leads to it, a game exactly when its invitation
      is, and a player never. */
  lemma ReleasedExactly(s: State)
    requires CoreInv(s)
    ensures forall c <- s.clients :: s.clients[c].ref > 0 <==> Reached(s, c)
    ensures forall i <- s.invs :: s.invs[i].game != null ==>
              s.invs[i].game in s.games && s.games[s.invs[i].game].ref == One(s.invs[i].ref > 0)
    ensures forall p <- s.players :: s.players[p].ref >= 1
  {
    hide Reached, Held, OpenHeld;
    forall c <- s.clients
      ensures s.clients[c].ref > 0 <==> Reached(s, c)
    {
      ClientReleased(s, c);
    }
    forall i <- s.invs | s.invs[i].game != null
      ensures s.invs[i].game in s.games && s.games[s.invs[i].game].ref == One(s.invs[i].ref > 0)
    {
      GameReleased(s, i);
    }
  }

  /** A request reaches nothing that has been released: neither the client that asks, nor the
      invitation its ID leads to, nor that invitation's clients, game and players. */
  lemma ReachesOnlyLive(s: State, c: Client, id: int)
    requires CoreInv(s) && c in s.registry && c in s.clients
    ensures s.clients[c].ref > 0
    ensures var i := Lookup(s.clients[c].entries, id);
            i != null ==>
              && Linked(s, i) && s.invs[i].ref > 0
              && s.clients[s.invs[i].source].ref > 0 && s.clients[s.invs[i].target].ref > 0
              && (s.invs[i].game != null ==> s.games[s.invs[i].game].ref == 1)
              && (s.clients[s.invs[i].source].player != null ==> s.players[s.clients[s.invs[i].source].player].ref > 0)
              && (s.clients[s.invs[i].target].player != null ==> s.players[s.clients[s.invs[i].target].player].ref > 0)
  {
    hide CoreInv, InvOk, Held, HeldOk, Refs;
    ReleasedExactly(s);
    RequestResolves(s, c, id);
  }

  /** No two registered clients hold the same player, and a name finds the one client that is
      logged in under it. */
  lemma LoginsAreUnique(s: State, c: Client, d: Client)
    requires CoreInv(s) && c in s.registry && d in s.registry
    requires s.clients[c].player != null && s.clients[d].player != null
             && s.clients[c].player.name == s.clients[d].player.name
    ensures c == d && LookupUser(s, s.registry, s.clients[c].player.name) == c
  {
    SameNameSame(s, c, d);
    var e := LookupUser(s, s.registry, s.clients[c].player.name);
    if e != null {
      SameNameSame(s, c, e);
    }
  }

  lemma SameNameSame(s: State, c: Client, d: Client)
    requires CoreInv(s) && c in s.registry && d in s.registry
    requires s.clients[c].player != null && s.clients[d].player != null
             && s.clients[c].player.name == s.clients[d].player.name
    ensures c == d
  {
    var (p, q) := (s.clients[c].player, s.clients[d].player);
    var j, k :| 0 <= j < |s.roster| && 0 <= k < |s.roster| && s.roster[j] == p && s.roster[k] == q;
    assert j == k;
  }

  /* ---------- during an operation ---------- */

  /** Two clients that have not been released. */
  ghost predicate BothLive(s: State, c: Client, d: Client) {
    c in s.clients && d in s.clients && s.clients[c].ref > 0 && s.clients[d].ref > 0
  }

  /** Two clients live through the two removals that end an operation: before them, between them and
      after them, when the node's ID is still to be given back. */
  ghost predicate LiveThroughRemovals(s: State, c: Client, d: Client, i: Invitation) {
    && BothLive(s, c, d) && Linked(s, i)
    && var s1 := Remove(s, c, i).0;
       BothLive(s1, c, d) && BothLive(Remove(s1, d, i).0, c, d)
  }

  lemma RegisteredIsLive(s: State, c: Client)
    requires Refs(s) && c in s.registry && c in s.clients
    ensures s.clients[c].ref > 0
  {
    assert ClientOk(s, c);
  }

  lemma RemoveLeavesLive(s: State, c: Client, i: Invitation)
    requires Refs(s) && c in s.clients && Linked(s, i)
    ensures var s' := Remove(s, c, i).0;
            Refs(s') && s'.registry == s.registry && s'.clients.Keys == s.clients.Keys && Linked(s', i)
  {
    hide Refs, Remove, Only, Shrinks;
    if Held(s, c, i) {
      RemoveOne(s, c, i);
      RefsAt(Remove(s, c, i).0, i);
    } else {
      RemoveNothing(s, c, i);
    }
  }

  lemma RegisteredLiveThrough(s: State, c: Client, d: Client, i: Invitation)
    requires Refs(s) && c in s.registry && d in s.registry && c in s.clients && d in s.clients && Linked(s, i)
    ensures LiveThroughRemovals(s, c, d, i)
  {
    hide Refs, Remove;
    var s1 := Remove(s, c, i).0;
    RemoveLeavesLive(s, c, i);
    RemoveLeavesLive(s1, d, i);
    forall x | x == c || x == d
      ensures s.clients[x].ref > 0 && s1.clients[x].ref > 0 && Remove(s1, d, i).0.clients[x].ref > 0
    {
      RegisteredIsLive(s, x);
      RegisteredIsLive(s1, x);
      RegisteredIsLive(Remove(s1, d, i).0, x);
    }
  }

  /** Whether something other than i still leads to a client. */
  ghost predicate OtherwiseReached(s: State, c: Client, i: Invitation) {
    c in s.registry || exists j <- s.invs :: j != i && s.invs[j].ref > 0 && IsPlayed(s.invs[j], c)
  }

  lemma OtherwiseCount(s: State, c: Client, i: Invitation)
    requires c in s.clients && ClientOk(s, c) && i in s.invs && s.invs[i].ref > 0 && IsPlayed(s.invs[i], c)
    ensures s.clients[c].ref > 1 <==> OtherwiseReached(s, c, i)
  {
    assert i in Naming(s, c);
    var others := Naming(s, c) - {i};
    assert Naming(s, c) == others + {i} && |Naming(s, c)| == |others| + 1;
    if others != {} {
      var j :| j in others;
      assert j in s.invs && j != i;
    }
    assert forall j <- s.invs :: j != i && s.invs[j].ref > 0 && IsPlayed(s.invs[j], c) ==> j in others;
  }

  /** Both ends of an invitation in both lists live through its removal from them exactly when each
      is registered or has another live invitation. */
  lemma LiveThroughExactly(s: State, c: Client, d: Client, i: Invitation)
    requires Refs(s) && c in s.clients && d in s.clients && Linked(s, i) && c != d
    requires Held(s, c, i) && Held(s, d, i) && s.invs[i].ref == 2
    ensures IsPlayed(s.invs[i], c) && IsPlayed(s.invs[i], d)
    ensures LiveThroughRemovals(s, c, d, i) <==> OtherwiseReached(s, c, i) && OtherwiseReached(s, d, i)
  {
    hide Refs, Remove, Touches, OtherwiseReached, Held;
    RefsAt(s, i);
    HolderIsEnd(s, i, c);
    HolderIsEnd(s, i, d);
    OtherwiseCount(s, c, i);
    OtherwiseCount(s, d, i);
    RemoveOne(s, c, i);
    RemoveEffect(s, c, i);
    var s1 := Remove(s, c, i).0;
    RefsAt(s1, i);
    RemoveEffect(s1, d, i);
  }

  lemma EndsRegistered(s: State, i: Invitation)
    requires CoreInv(s) && i in s.invs && s.invs[i].ref > 0 && s.invs[i].state != InvClosed
    ensures Linked(s, i) && s.invs[i].source in s.registry && s.invs[i].target in s.registry
  {
    NotClosed(s, i);
  }

  /** The two ends of an invitation that is open or accepted when an operation begins live through
      its removals, whatever it has done to the invitation, its game and the ratings before them. */
  lemma RemovalsReleaseNoClient(s: State, s2: State, c: Client, d: Client, i: Invitation)
    requires CoreInv(s) && i in s.invs && s.invs[i].ref > 0 && s.invs[i].state != InvClosed
    requires IsPlayed(s.invs[i], c) && IsPlayed(s.invs[i], d) && Refs(s2) && Touches(s, s2, i)
    ensures LiveThroughRemovals(s2, c, d, i)
  {
    hide CoreInv, Refs, Only, Shrinks, LiveThroughRemovals;
    EndsRegistered(s, i);
    RefsAt(s2, i);
    RegisteredLiveThrough(s2, c, d, i);
  }

  /** So it is in client_revoke_invitation and client_decline_invitation, from either side, and in
      client_resign_game before its result is posted. */
  lemma CloseReleasesNoClient(s: State, c: Client, d: Client, i: Invitation, role: Role, to: Client, kind: Kind, id: int)
    requires CoreInv(s) && i in s.invs && s.invs[i].ref > 0 && IsPlayed(s.invs[i], c) && IsPlayed(s.invs[i], d)
    requires CanClose(s.invs[i], role)
    ensures Linked(s, i) && LiveThroughRemovals(Send(CloseInv(s, i, role), to, kind, id, i, "", true), c, d, i)
    ensures Refs(Send(CloseInv(s, i, role), to, kind, id, i, "", true))
    ensures Touches(s, Send(CloseInv(s, i, role), to, kind, id, i, "", true), i)
  {
    hide CoreInv, Refs, Touches, LiveThroughRemovals, BothHold, BothIn, CloseInv;
    NotClosed(s, i);
    CoreHasRefs(s);
    ClosedAndSent(s, i, role, to, kind, id, true);
    var s2 := Send(CloseInv(s, i, role), to, kind, id, i, "", true);
    RecordTouches(s, s2, i);
    RemovalsReleaseNoClient(s, s2, c, d, i);
  }

  lemma CoreHasRefs(s: State)
    requires CoreInv(s)
    ensures Refs(s)
  {
  }

  /** And so it is once a result has been posted, in client_resign_game and client_make_move. */
  lemma PostReleasesNoClient(s: State, s2: State, c: Client, d: Client, i: Invitation, role: Role, winner: Role, pow: int -> PosReal)
    requires CoreInv(s) && i in s.invs && s.invs[i].ref > 0 && s.invs[i].state != InvClosed
    requires IsPlayed(s.invs[i], c) && d == Opponent(s.invs[i], c) && Refs(s2) && Touches(s, s2, i)
    ensures Known(s2, c) && Known(s2, d) && LiveThroughRemovals(Post(s2, c, d, role, winner, i, pow), c, d, i)
  {
    hide CoreInv, Refs, Touches, LiveThroughRemovals, BothHold, BothIn, Post, Rated;
    NotClosed(s, i);
    TouchedIs(s, s2, i);
    RefsAt(s2, i);
    PostKeeps(s2, c, d, role, winner, i, pow);
    var s3 := Post(s2, c, d, role, winner, i, pow);
    RecordTouches(s2, s3, i);
    TouchesTrans(s, s2, s3, i);
    RemovalsReleaseNoClient(s, s3, c, d, i);
  }

  lemma TouchedIs(s: State, s': State, i: Invitation)
    requires Touches(s, s', i)
    ensures i in s'.invs && SameEnds(s.invs[i], s'.invs[i])
  {
  }

  lemma OtherwiseSame(s: State, s': State, c: Client, i: Invitation)
    requires s'.registry == s.registry && s'.invs == s.invs
    ensures OtherwiseReached(s', c, i) <==> OtherwiseReached(s, c, i)
  {
  }

  /** What client_make_move has when it comes to its removals after g1, with everything sent. */
  ghost function BeforeRemovals(s: State, c: Client, id: int, i: Invitation, g1: GameRec, pow: int -> PosReal): State
    requires Linked(s, i) && s.invs[i].game != null && Known(s, c)
  {
    var s2 := AfterMove(s, s.invs[i].game, g1, MoveNotes(s, c, i, id, g1, true, true, true));
    Post(s2, c, Opponent(s.invs[i], c), RoleOf(s.invs[i], c), g1.winner, i, pow)
  }

  /** A move that ends, whatever the state of its invitation: client_make_move does not look at it.
      Its removals spare the opponent exactly when something else leads to the opponent; otherwise
      the last one releases it before giving back the ID in its list. */
  lemma MoveReleasesExactly(s: State, c: Client, id: int, i: Invitation, g1: GameRec, pow: int -> PosReal)
    requires CoreInv(s) && InPlay(s, i) && IsPlayed(s.invs[i], c) && c in s.registry && c in s.clients
    requires g1.ref == s.games[s.invs[i].game].ref
    ensures Known(s, c)
    ensures var d := Opponent(s.invs[i], c);
            LiveThroughRemovals(BeforeRemovals(s, c, id, i, g1, pow), c, d, i) <==> OtherwiseReached(s, d, i)
  {
    hide CoreInv, Refs, Touches, LiveThroughRemovals, OtherwiseReached, MoveNotes, Post, Rated;
    CoreHasRefs(s);
    var d := Opponent(s.invs[i], c);
    var notes := MoveNotes(s, c, i, id, g1, true, true, true);
    AfterMoveStep(s, i, g1, notes);
    var s2 := AfterMove(s, s.invs[i].game, g1, notes);
    RecordTouches(s, s2, i);
    PostKeeps(s2, c, d, RoleOf(s.invs[i], c), g1.winner, i, pow);
    var s3 := BeforeRemovals(s, c, id, i, g1, pow);
    RecordTouches(s2, s3, i);
    LiveThroughExactly(s3, c, d, i);
    OtherwiseSame(s, s3, d, i);
    OtherwiseSame(s, s3, c, i);
    RegisteredOtherwise(s, c, i);
  }

  /** That is the state from which client_make_move removes the invitation. */
  lemma MoveRemoves(s: State, c: Client, id: int, text: string, pow: int -> PosReal)
    requires Resolves(s, c, id)
    requires var i := Lookup(s.clients[c].entries, id);
             && i != null && s.invs[i].game != null && IsPlayed(s.invs[i], c) && LegalMove(s, c, i, text).Some?
             && Apply(s.games[s.invs[i].game], LegalMove(s, c, i, text).value.cell, RoleOf(s.invs[i], c)).over
    ensures var i := Lookup(s.clients[c].entries, id);
            var g1 := Apply(s.games[s.invs[i].game], LegalMove(s, c, i, text).value.cell, RoleOf(s.invs[i], c));
            && Linked(BeforeRemovals(s, c, id, i, g1, pow), i)
            && MakeMove(s, c, id, text, true, true, true, pow)
               == RemoveBoth(BeforeRemovals(s, c, id, i, g1, pow), c, Opponent(s.invs[i], c), i)
  {
    hide MakeMove, MoveTail, MoveNotes, Apply, LegalMove, RemoveBoth, Post, Settle;
    var i := Lookup(s.clients[c].entries, id);
    MoveIs(s, c, id, text, true, true, true, pow);
    var g1 := Apply(s.games[s.invs[i].game], LegalMove(s, c, i, text).value.cell, RoleOf(s.invs[i], c));
    MoveTailIs(s, c, id, i, g1, true, true, true, pow);
    BeforeLinked(s, c, id, i, g1, pow);
  }

  lemma BeforeLinked(s: State, c: Client, id: int, i: Invitation, g1: GameRec, pow: int -> PosReal)
    requires Linked(s, i) && s.invs[i].game != null && Known(s, c) && IsPlayed(s.invs[i], c)
    ensures var (s3, d) := (BeforeRemovals(s, c, id, i, g1, pow), Opponent(s.invs[i], c));
            var s2 := AfterMove(s, s.invs[i].game, g1, MoveNotes(s, c, i, id, g1, true, true, true));
            && Linked(s3, i) && c in s3.clients && d in s3.clients && Known(s2, c) && Known(s2, d) && Linked(s2, i)
            && Settle(s2, c, d, RoleOf(s.invs[i], c), g1.winner, i, pow) == RemoveBoth(s3, c, d, i)
  {
    hide MoveNotes, RemoveBoth;
  }

  lemma RegisteredOtherwise(s: State, c: Client, i: Invitation)
    requires c in s.registry
    ensures OtherwiseReached(s, c, i)
  {
  }

  /** The state in which client_make_move posts its result. */
  lemma MoveReleasesNoClient(s: State, c: Client, id: int, i: Invitation, g1: GameRec, winner: Role, pow: int -> PosReal)
    requires CoreInv(s) && i in s.invs && s.invs[i].ref > 0 && s.invs[i].state != InvClosed && IsPlayed(s.invs[i], c)
    requires Linked(s, i) && s.invs[i].game != null && g1.ref == s.games[s.invs[i].game].ref
    ensures var s2 := AfterMove(s, s.invs[i].game, g1, MoveNotes(s, c, i, id, g1, true, true, true));
            var d := Opponent(s.invs[i], c);
            && Known(s2, c) && Known(s2, d)
            && LiveThroughRemovals(Post(s2, c, d, RoleOf(s.invs[i], c), winner, i, pow), c, d, i)
  {
    hide CoreInv, Refs, Touches, LiveThroughRemovals, MoveNotes, Post;
    CoreHasRefs(s);
    var notes := MoveNotes(s, c, i, id, g1, true, true, true);
    AfterMoveStep(s, i, g1, notes);
    var s2 := AfterMove(s, s.invs[i].game, g1, notes);
    RecordTouches(s, s2, i);
    PostReleasesNoClient(s, s2, c, Opponent(s.invs[i], c), i, RoleOf(s.invs[i], c), winner, pow);
  }
}
