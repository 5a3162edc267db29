/** Whether posted results name the right players and the right winner, in every run. */
module Winners {
  import opened Basics
  import opened Games
  import opened Players
  import opened PlayerRegistries
  import opened Clients
  import opened Sessions
  import opened References
  import opened Steps
  import opened Joining
  import opened Leaving
  import opened Runs
  import opened Lifecycle
  import opened Stories
  import opened Scoring

  /* ---------- one resignation ---------- */

  /** What is posted and recorded when c resigns the game of i.  The code posted is the winner the
      game records afterwards exactly when c had not won it; an outcome the game already had is the
      one posted exactly when the other had won it, so a draw never is; and the game keeps its
      recorded winner exactly when it had one. */
  ghost predicate ResignedOutcome(s: State, s': State, i: Invitation, c: Client) {
    && i in s.invs && s.invs[i].game != null && s.invs[i].game in s.games && s.invs[i].game in s'.games
    && |s'.log| == |s.log| + 2 && s'.log[|s.log| + 1].Scored? && s'.log[|s.log| + 1].inv == i
    && var (before, after) := (s.games[s.invs[i].game].winner, s'.games[s.invs[i].game].winner);
       var (role, result) := (RoleOf(s.invs[i], c), s'.log[|s.log| + 1].result);
       && (result == Code(after) <==> before != role)
       && (result == Code(before) <==> before == Other(role))
       && (after == before <==> before != NullRole)
  }

  /** A sent resignation of an accepted invitation, whatever state its game is in. */
  lemma ResignationScored(s: State, c: Client, id: int, pow: int -> PosReal)
    requires CoreInv(s) && c in s.clients && Resolves(s, c, id)
    requires var i := Lookup(s.clients[c].entries, id); i != null && s.invs[i].state == InvAccepted
    ensures ResignedOutcome(s, Sessions.Resign(s, c, id, true, pow).0, Lookup(s.clients[c].entries, id), c)
  {
    hide CoreInv, Refs, Touches, Sessions.Resign, Rated, HeldOk, Held, Steps.Resigned, ResignedOutcome;
    RequestResolves(s, c, id);
    ResignKeeps(s, c, id, true, pow);
    OutcomeOf(s, Sessions.Resign(s, c, id, true, pow).0, c, Lookup(s.clients[c].entries, id), pow);
  }

  lemma OutcomeOf(s: State, s': State, c: Client, i: Invitation, pow: int -> PosReal)
    requires Linked(s, i) && InvOk(s, i) && IsPlayed(s.invs[i], c) && s.invs[i].game != null
    requires Steps.Resigned(s, s', c, i, true, pow)
    ensures ResignedOutcome(s, s', i, c)
  {
    hide Rated, Held;
  }

  /* ---------- right players, right winner ---------- */

  /** Results posted for an invitation name its two different players, the first role's first. */
  ghost predicate Seated(s: State, i: Invitation) {
    Linked(s, i) &&
    var (p1, p2) := Contestants(s, s.invs[i]);
    forall e <- Scores(s.log, i) :: e.Scored? && e.inv == i && e.player1 == p1 && e.player2 == p2 && p1 != p2
  }

  /** Results posted for an invitation carry the winner that its game records. */
  ghost predicate Rightly(s: State, i: Invitation) {
    Linked(s, i) &&
    forall e <- Scores(s.log, i) :: e.Scored? && s.invs[i].game != null && e.result == Code(s.games[s.invs[i].game].winner)
  }

  ghost predicate AllSeated(s: State) {
    forall i <- s.invs :: Seated(s, i)
  }

  ghost predicate AllRight(s: State) {
    forall i <- s.invs :: Rightly(s, i)
  }

  /** A result has been posted that is not the recorded winner's. */
  ghost predicate Wrong(s: State, i: Invitation) {
    i in s.invs && s.invs[i].ref <= 0 && !Rightly(s, i)
  }

  /** An invitation whose record, game, players and results are as they were. */
  ghost predicate SameStanding(s: State, s': State, j: Invitation) {
    && Linked(s, j) && Linked(s', j) && s'.invs[j] == s.invs[j]
    && (s.invs[j].game != null ==> s'.games[s.invs[j].game].winner == s.games[s.invs[j].game].winner)
    && Contestants(s', s.invs[j]) == Contestants(s, s.invs[j])
    && Scores(s'.log, j) == Scores(s.log, j)
  }

  lemma StandingKept(s: State, s': State, j: Invitation)
    requires SameStanding(s, s', j)
    ensures Seated(s', j) <==> Seated(s, j)
    ensures Rightly(s', j) <==> Rightly(s, j)
    ensures Wrong(s', j) <==> Wrong(s, j)
  {
    hide Scores;
  }

  /** What a step makes of the results: the players stay right, a wrong winner stays wrong, and the
      winners stay right exactly under a condition. */
  ghost predicate Verdict(s: State, s': State, honest: bool) {
    && (AllSeated(s) ==> AllSeated(s'))
    && (AllRight(s) ==> (AllRight(s') <==> honest))
    && (forall j <- s.invs :: Wrong(s, j) ==> Wrong(s', j))
  }

  /** A step about one invitation, which is new or live; all others keep their standing. */
  ghost predicate AboutOne(s: State, s': State, i: Invitation) {
    && i in s'.invs && (i in s.invs ==> s.invs[i].ref > 0)
    && (forall j <- s'.invs :: j in s.invs || j == i)
    && (forall j <- s.invs :: j in s'.invs && (j != i ==> SameStanding(s, s', j)))
  }

  lemma VerdictOne(s: State, s': State, i: Invitation)
    requires AboutOne(s, s', i) && (AllSeated(s) ==> Seated(s', i))
    ensures Verdict(s, s', Rightly(s', i))
  {
    hide Seated, Rightly, SameStanding;
    forall j <- s.invs | j != i
      ensures Seated(s', j) <==> Seated(s, j)
      ensures Rightly(s', j) <==> Rightly(s, j)
      ensures Wrong(s', j) <==> Wrong(s, j)
    {
      StandingKept(s, s', j);
    }
  }

  lemma VerdictNone(s: State, s': State)
    requires s'.invs.Keys == s.invs.Keys && forall j <- s.invs :: SameStanding(s, s', j)
    ensures Verdict(s, s', true)
  {
    hide Seated, Rightly, SameStanding;
    forall j <- s.invs
      ensures Seated(s', j) <==> Seated(s, j)
      ensures Rightly(s', j) <==> Rightly(s, j)
      ensures Wrong(s', j) <==> Wrong(s, j)
    {
      StandingKept(s, s', j);
    }
  }

  /** What is not right is wrong for good, in a state where nothing in a list has been scored. */
  lemma NotRightIsWrong(s: State, pow: int -> PosReal) returns (j: Invitation)
    requires CoreInv(s) && Fair(s, pow) && !AllRight(s)
    ensures j in s.invs && Wrong(s, j)
  {
    hide CoreInv, Scores;
    j :| j in s.invs && !Rightly(s, j);
    CoreRefs(s);
    RefsAt(s, j);
    assert ScoredOnce(s, j);
  }

  lemma VerdictThen(s: State, s1: State, s2: State, h1: bool, h2: bool, pow: int -> PosReal)
    requires Verdict(s, s1, h1) && Verdict(s1, s2, h2) && CoreInv(s1) && Fair(s1, pow)
    requires s1.invs.Keys == s.invs.Keys
    ensures Verdict(s, s2, h1 && h2)
  {
    hide CoreInv, Fair, Seated, Rightly;
    if AllRight(s) && !h1 {
      var j := NotRightIsWrong(s1, pow);
      assert Wrong(s2, j);
    }
  }

  /* ---------- steps about one invitation ---------- */

  lemma OtherStanding(s: State, s': State, i: Invitation, j: Invitation, events: seq<Event>)
    requires Only(s, s', i) && SamePeople(s, s') && Linked(s, j) && Linked(s', j) && j != i
    requires s'.log == s.log + events && forall e <- events :: e.inv == i
    ensures SameStanding(s, s', j)
  {
    assert SameInv(s, s', j);
    TraceAppend(s.log, events, s.invs[j].source, j);
    TraceElsewhere(events, s.invs[j].source, j);
  }

  lemma About(s: State, s': State, i: Invitation, events: seq<Event>)
    requires Refs(s) && Refs(s') && Only(s, s', i) && SamePeople(s, s')
    requires i in s'.invs && (i in s.invs ==> s.invs[i].ref > 0) && forall j <- s'.invs :: j in s.invs || j == i
    requires s'.log == s.log + events && forall e <- events :: e.inv == i
    ensures AboutOne(s, s', i)
  {
    hide Refs, SamePeople, SameStanding;
    OnlyKeys(s, s', i);
    forall j <- s.invs | j != i
      ensures SameStanding(s, s', j)
    {
      RefsAt(s, j);
      RefsAt(s', j);
      OtherStanding(s, s', i, j, events);
    }
  }

  lemma OnlyKeys(s: State, s': State, i: Invitation)
    requires Only(s, s', i)
    ensures s.invs.Keys <= s'.invs.Keys
  {
  }

  /** A step that posts nothing. */
  lemma PacketsVerdict(s: State, s': State, i: Invitation, notes: seq<Event>, pow: int -> PosReal)
    requires CoreInv(s) && Fair(s, pow) && CoreInv(s') && Only(s, s', i) && SamePeople(s, s')
    requires i in s'.invs && (i in s.invs ==> s.invs[i].ref > 0) && forall j <- s'.invs :: j in s.invs || j == i
    requires s'.log == s.log + notes && forall e <- notes :: e.Sent? && e.inv == i
    ensures Verdict(s, s', true)
  {
    hide CoreInv, Refs, Only, SamePeople, Verdict, AboutOne;
    CoreRefs(s);
    CoreRefs(s');
    About(s, s', i, notes);
    RefsAt(s', i);
    NothingYet(s, i, pow);
    ResultsSame(s, s', i, notes);
    VerdictOne(s, s', i);
  }

  /** Nothing has been posted for an invitation that is new or live. */
  lemma NothingYet(s: State, i: Invitation, pow: int -> PosReal)
    requires Fair(s, pow) && (i in s.invs ==> s.invs[i].ref > 0)
    ensures Scores(s.log, i) == []
  {
    if i in s.invs {
      assert ScoredOnce(s, i);
    } else {
      NeverScored(s.log, i);
    }
  }

  lemma {:induction false} NeverScored(log: seq<Event>, i: Invitation)
    requires forall e <- log :: e.inv != i
    ensures Scores(log, i) == []
  {
    if log != [] {
      NeverScored(log[1..], i);
    }
  }

  lemma ResultsSame(s: State, s': State, i: Invitation, notes: seq<Event>)
    requires Linked(s', i) && Scores(s.log, i) == [] && s'.log == s.log + notes && forall e <- notes :: e.Sent?
    ensures Scores(s'.log, i) == [] && Seated(s', i) && Rightly(s', i)
  {
    PacketsScoreNothing(notes, i);
    TraceAppend(s.log, notes, s'.invs[i].source, i);
  }

  /** A step that ends with the result of one invitation. */
  lemma ScoreVerdict(s: State, s': State, i: Invitation, notes: seq<Event>, p1: Player, p2: Player, result: int, pow: int -> PosReal)
    requires CoreInv(s) && Fair(s, pow) && CoreInv(s') && Touches(s, s', i) && s.invs[i].ref > 0 && s.invs[i].game != null
    requires s'.log == s.log + (notes + [Scored(i, p1, p2, result)]) && forall e <- notes :: e.Sent? && e.inv == i
    requires Linked(s, i) && Contestants(s, s.invs[i]) == (p1, p2) && p1 != p2
    ensures Linked(s', i) && s'.invs[i].game != null
    ensures Verdict(s, s', result == Code(s'.games[s'.invs[i].game].winner))
  {
    hide CoreInv, Refs, Only, SamePeople, Verdict, AboutOne, Shrinks, Fair;
    CoreRefs(s);
    CoreRefs(s');
    About(s, s', i, notes + [Scored(i, p1, p2, result)]);
    RefsAt(s', i);
    NothingYet(s, i, pow);
    ResultsOne(s, s', i, notes, Scored(i, p1, p2, result));
    SameContestants(s, s', i);
    VerdictOne(s, s', i);
  }

  lemma ResultsOne(s: State, s': State, i: Invitation, notes: seq<Event>, score: Event)
    requires Linked(s', i) && Scores(s.log, i) == [] && score.Scored? && score.inv == i
    requires s'.log == s.log + (notes + [score]) && forall e <- notes :: e.Sent?
    ensures Scores(s'.log, i) == [score]
  {
    PacketsScoreNothing(notes, i);
    TraceOne(score, s'.invs[i].source, i);
    TraceAppend(notes, [score], s'.invs[i].source, i);
    TraceAppend(s.log, notes + [score], s'.invs[i].source, i);
  }

  /** An unchanged state. */
  lemma VerdictSame(s: State)
    requires CoreInv(s)
    ensures Verdict(s, s, true)
  {
    hide CoreInv, Refs, SameStanding;
    CoreRefs(s);
    forall j <- s.invs
      ensures SameStanding(s, s, j)
    {
      RefsAt(s, j);
      StandsStill(s, j);
    }
    VerdictNone(s, s);
  }

  lemma StandsStill(s: State, j: Invitation)
    requires Linked(s, j)
    ensures SameStanding(s, s, j)
  {
  }

  /* ---------- every operation ---------- */

  lemma RevokeVerdict(s: State, c: Client, id: int, ok: bool, pow: int -> PosReal)
    requires CoreInv(s) && Fair(s, pow) && c in s.clients && Resolves(s, c, id)
    ensures Verdict(s, Revoke(s, c, id, ok).0, true)
  {
    hide CoreInv, Refs, Fair, Verdict, Only, SamePeople, Shrinks, Revoke, InvOk, HeldOk, Held, Lookup, IdOf;
    RevokeKeeps(s, c, id, ok);
    RequestResolves(s, c, id);
    var i := Lookup(s.clients[c].entries, id);
    if i == null || !CanClose(s.invs[i], NullRole) {
      VerdictSame(s);
    } else {
      var d := s.invs[i].target;
      PacketsVerdict(s, Revoke(s, c, id, ok).0, i, PacketIf(ok, Sent(d, RevokedPkt, IdOf(s.clients[d].entries, i), i, "")), pow);
    }
  }

  lemma DeclineVerdict(s: State, c: Client, id: int, ok: bool, pow: int -> PosReal)
    requires CoreInv(s) && Fair(s, pow) && c in s.clients && Resolves(s, c, id)
    ensures Verdict(s, Decline(s, c, id, ok).0, true)
  {
    hide CoreInv, Refs, Fair, Verdict, Only, SamePeople, Shrinks, Decline, InvOk, HeldOk, Held, Lookup, IdOf;
    DeclineKeeps(s, c, id, ok);
    RequestResolves(s, c, id);
    var i := Lookup(s.clients[c].entries, id);
    if i == null || !CanClose(s.invs[i], NullRole) {
      VerdictSame(s);
    } else {
      var d := s.invs[i].source;
      PacketsVerdict(s, Decline(s, c, id, ok).0, i, PacketIf(ok, Sent(d, DeclinedPkt, IdOf(s.clients[d].entries, i), i, "")), pow);
    }
  }

  lemma AcceptVerdict(s: State, c: Client, id: int, g: Game, ok: bool, pow: int -> PosReal)
    requires CoreInv(s) && Fair(s, pow) && c in s.clients && Resolves(s, c, id) && g !in s.games
    ensures Verdict(s, Accept(s, c, id, g, ok).0, true)
  {
    hide CoreInv, Refs, Fair, Verdict, Only, SamePeople, Accept, InvOk, HeldOk, Held, Lookup, IdOf;
    AcceptKeeps(s, c, id, g, ok);
    AcceptIs(s, c, id, g, ok);
    RequestResolves(s, c, id);
    var i := Lookup(s.clients[c].entries, id);
    if i == null || s.invs[i].target != c || s.invs[i].state != InvOpen {
      VerdictSame(s);
    } else {
      var text := if s.invs[i].targetRole == First then "" else FIRST_BOARD;
      var packet := Sent(s.invs[i].source, AcceptedPkt, IdOf(s.clients[s.invs[i].source].entries, i), i, text);
      PacketsVerdict(s, Accept(s, c, id, g, ok).0, i, PacketIf(ok, packet), pow);
    }
  }

  lemma InviteVerdict(s: State, c: Client, name: string, role: Role, i: Invitation, ok: bool, pow: int -> PosReal)
    requires CoreInv(s) && Fair(s, pow) && Active(s, c) && s.clients[c].player != null && i !in s.invs
    ensures Verdict(s, Invite(s, c, name, role, i, ok).0, true)
  {
    hide CoreInv, Fair, Verdict, Only, SamePeople, Invite, LeastFree, Ids;
    InviteIs(s, c, name, role, i, ok);
    var d := LookupUser(s, s.registry, name);
    if d == null || d == c || role == NullRole {
      VerdictSame(s);
    } else {
      var s' := Invite(s, c, name, role, i, ok).0;
      FoundIsIn(s, d, name);
      MadeKeeps(s, s', c, d, i, Other(role), role);
      var packet := Sent(d, InvitedPkt(role), LeastFree(Ids(s.clients[d].entries)), i, s.clients[c].player.name);
      PacketsVerdict(s, s', i, PacketIf(ok, packet), pow);
    }
  }

  /** A resignation posts the right winner unless the one who resigns has won the game. */
  predicate HonestResign(s: State, i: Invitation, c: Client, ok: bool) {
    i in s.invs && s.invs[i].state == InvAccepted && s.invs[i].game != null && s.invs[i].game in s.games && ok
    ==> s.games[s.invs[i].game].winner != RoleOf(s.invs[i], c)
  }

  lemma ResignVerdict(s: State, c: Client, id: int, ok: bool, pow: int -> PosReal)
    requires CoreInv(s) && Fair(s, pow) && c in s.clients && Resolves(s, c, id)
    ensures var i := Lookup(s.clients[c].entries, id);
            Verdict(s, Sessions.Resign(s, c, id, ok, pow).0, i != null ==> HonestResign(s, i, c, ok))
  {
    hide CoreInv, Refs, Fair, Verdict, Touches, Sessions.Resign, HeldOk, Held, Lookup, IdOf, Rated, Steps.Resigned;
    ResignKeeps(s, c, id, ok, pow);
    RequestResolves(s, c, id);
    var i := Lookup(s.clients[c].entries, id);
    if i == null || s.invs[i].state != InvAccepted {
      VerdictSame(s);
    } else {
      ResignedVerdict(s, Sessions.Resign(s, c, id, ok, pow).0, c, i, ok, pow);
    }
  }

  lemma ResignedVerdict(s: State, s': State, c: Client, i: Invitation, ok: bool, pow: int -> PosReal)
    requires CoreInv(s) && Fair(s, pow) && CoreInv(s') && Touches(s, s', i) && s.invs[i].ref > 0 && s.invs[i].state == InvAccepted
    requires Linked(s, i) && InvOk(s, i) && IsPlayed(s.invs[i], c) && s.invs[i].game != null
    requires Steps.Resigned(s, s', c, i, ok, pow)
    ensures Verdict(s, s', HonestResign(s, i, c, ok))
  {
    hide CoreInv, Fair, Verdict, Only, SamePeople, Shrinks, Rated, Held;
    var d := Opponent(s.invs[i], c);
    if ok {
      SeatsAgree(s, i, c);
      Opponents(s, i, c);
      var (p1, p2) := Contestants(s, s.invs[i]);
      var packet := Sent(d, ResignedPkt, IdOf(s.clients[d].entries, i), i, "");
      var result := Code(RoleOf(s.invs[i], d));
      assert [packet] + [Scored(i, p1, p2, result)] == [packet, Scored(i, p1, p2, result)];
      ScoreVerdict(s, s', i, [packet], p1, p2, result, pow);
    } else {
      PacketsVerdict(s, s', i, [], pow);
    }
  }

  lemma MoveVerdict(s: State, c: Client, id: int, text: string, ok1: bool, ok2: bool, ok3: bool, pow: int -> PosReal)
    requires CoreInv(s) && Fair(s, pow) && c in s.clients && Resolves(s, c, id)
    ensures Verdict(s, MakeMove(s, c, id, text, ok1, ok2, ok3, pow).0, true)
  {
    hide CoreInv, Refs, Fair, Verdict, Touches, MakeMove, HeldOk, Held, Lookup, IdOf, Rated, Moved, Apply;
    MoveKeeps(s, c, id, text, ok1, ok2, ok3, pow);
    RequestResolves(s, c, id);
    var i := Lookup(s.clients[c].entries, id);
    if i == null || s.invs[i].game == null || LegalMove(s, c, i, text).None? {
      VerdictSame(s);
    } else {
      var g1 := Apply(s.games[s.invs[i].game], LegalMove(s, c, i, text).value.cell, RoleOf(s.invs[i], c));
      MovedVerdict(s, MakeMove(s, c, id, text, ok1, ok2, ok3, pow).0, c, id, i, g1, ok1, ok2, ok3, pow);
    }
  }

  lemma MovedVerdict(s: State, s': State, c: Client, id: int, i: Invitation, g1: GameRec,
                     ok1: bool, ok2: bool, ok3: bool, pow: int -> PosReal)
    requires CoreInv(s) && Fair(s, pow) && CoreInv(s') && Touches(s, s', i) && s.invs[i].ref > 0
    requires Linked(s, i) && InvOk(s, i) && IsPlayed(s.invs[i], c) && s.invs[i].game != null
    requires Moved(s, s', c, id, i, g1, ok1, ok2, ok3, pow)
    ensures Verdict(s, s', true)
  {
    hide CoreInv, Fair, Verdict, Only, SamePeople, Shrinks, Rated, Held, MoveNotes;
    var notes := MoveNotes(s, c, i, id, g1, ok1, ok2, ok3);
    NotesArePackets(s, c, i, id, g1, ok1, ok2, ok3);
    if Finishes(g1, ok1, ok2, ok3) {
      SeatsAgree(s, i, c);
      Opponents(s, i, c);
      var (p1, p2) := Contestants(s, s.invs[i]);
      var score := Scored(i, p1, p2, Code(g1.winner));
      assert s.log + notes + [score] == s.log + (notes + [score]);
      ScoreVerdict(s, s', i, notes, p1, p2, Code(g1.winner), pow);
    } else {
      assert s.log + notes + [] == s.log + notes;
      PacketsVerdict(s, s', i, notes, pow);
    }
  }

  /** Coming and leaving touch no invitation, game or result, and no player of an invitation. */
  lemma QuietVerdict(s: State, s': State)
    requires CoreInv(s) && CoreInv(s') && s'.invs == s.invs && s'.games == s.games && s'.log == s.log
    requires forall c <- s.clients :: c in s'.clients && (s.clients[c].player != null ==> s'.clients[c].player == s.clients[c].player)
    ensures Verdict(s, s', true)
  {
    hide CoreInv, Refs, SameStanding, Verdict;
    CoreRefs(s);
    CoreRefs(s');
    forall j <- s.invs
      ensures SameStanding(s, s', j)
    {
      RefsAt(s, j);
      RefsAt(s', j);
      QuietStanding(s, s', j);
    }
    VerdictNone(s, s');
  }

  lemma QuietStanding(s: State, s': State, j: Invitation)
    requires Linked(s, j) && InvOk(s, j) && Linked(s', j) && s'.invs == s.invs && s'.games == s.games && s'.log == s.log
    requires forall c <- s.clients :: c in s'.clients && (s.clients[c].player != null ==> s'.clients[c].player == s.clients[c].player)
    ensures SameStanding(s, s', j)
  {
  }

  lemma LoginVerdict(s: State, c: Client, p: Player)
    requires CoreInv(s) && c in s.registry && c in s.clients
    ensures Verdict(s, Login(s, c, p).0, true)
  {
    hide CoreInv, Verdict, Answer, Registered, LookupUser;
    LoginKeeps(s, c, p);
    QuietVerdict(s, Login(s, c, p).0);
  }

  lemma ConnectVerdict(s: State, c: Client)
    requires CoreInv(s) && c !in s.clients
    ensures Verdict(s, Connect(s, c), true)
  {
    hide CoreInv, Verdict;
    ConnectKeeps(s, c);
    QuietVerdict(s, Connect(s, c));
  }

  /* ---------- leaving ---------- */

  lemma TurnVerdict(s: State, c: Client, e: Entry, lost: set<Invitation>, pow: int -> PosReal)
    requires CoreInv(s) && Fair(s, pow) && c in s.clients && e in s.clients[c].entries && Sole(s.clients[c].entries, e)
    requires e.inv in s.invs && Resolves(s, c, e.id)
    ensures Verdict(s, LogoutOne(s, c, e, lost, pow), HonestResign(s, e.inv, c, e.inv !in lost))
  {
    hide CoreInv, Fair, Verdict, Revoke, Decline, Sessions.Resign, Lookup;
    var ok := e.inv !in lost;
    SoleLookup(s.clients[c].entries, e);
    RequestResolves(s, c, e.id);
    ResignVerdict(s, c, e.id, ok, pow);
    RevokeVerdict(s, c, e.id, ok, pow);
    DeclineVerdict(s, c, e.id, ok, pow);
  }

  lemma HonestLater(s: State, s1: State, c: Client, e: Entry, ok: bool)
    requires Linked(s, e.inv) && Linked(s1, e.inv) && Spared(s, s1, e.inv)
    ensures HonestResign(s1, e.inv, c, ok) <==> HonestResign(s, e.inv, c, ok)
    ensures c in s.clients && e in s.clients[c].entries ==> c in s1.clients && e in s1.clients[c].entries
  {
  }

  lemma RestHonest(s: State, s1: State, c: Client, i: Invitation, rest: seq<Entry>, lost: set<Invitation>)
    requires CoreInv(s) && CoreInv(s1) && c in s.clients && c in s1.clients && s1.invs.Keys == s.invs.Keys
    requires forall j <- s.invs :: j != i ==> Spared(s, s1, j)
    requires forall e <- rest :: e.inv != i && e in s.clients[c].entries && e.inv in s.invs
    ensures forall e <- rest :: e in s1.clients[c].entries && e.inv in s1.invs
    ensures forall e <- rest :: HonestResign(s1, e.inv, c, e.inv !in lost) <==> HonestResign(s, e.inv, c, e.inv !in lost)
  {
    hide CoreInv, Refs, Spared, HonestResign;
    CoreRefs(s);
    CoreRefs(s1);
    forall e <- rest
      ensures e in s1.clients[c].entries && e.inv in s1.invs
      ensures HonestResign(s1, e.inv, c, e.inv !in lost) <==> HonestResign(s, e.inv, c, e.inv !in lost)
    {
      RefsAt(s, e.inv);
      RefsAt(s1, e.inv);
      HonestLater(s, s1, c, e, e.inv !in lost);
    }
  }

  lemma {:induction false} LoopVerdict(s: State, c: Client, orig: seq<Entry>, todo: seq<Entry>, lost: set<Invitation>, pow: int -> PosReal)
    requires CoreInv(s) && Fair(s, pow) && c in s.clients && Distinct(orig) && Distinct(todo)
    requires forall x <- s.clients[c].entries :: x in orig
    requires forall e <- todo :: e in orig && e in s.clients[c].entries && e.inv in s.invs
    requires Pending(s, c, todo)
    ensures Verdict(s, LogoutAll(s, c, todo, lost, pow), forall e <- todo :: HonestResign(s, e.inv, c, e.inv !in lost))
    decreases |todo|
  {
    hide CoreInv, Fair, Verdict, SamePeople, Pending, LogoutOne, Spared, Shrinks, TurnDone, ClosesOnly, HonestResign, Distinct, Sole;
    if todo == [] {
      VerdictSame(s);
    } else {
      var (e0, rest) := (todo[0], todo[1..]);
      SoleIn(s.clients[c].entries, orig, e0);
      RequestResolves(s, c, e0.id);
      EntriesKnown(s, c);
      var s1 := LogoutOne(s, c, e0, lost, pow);
      LogoutOneKeeps(s, c, e0, lost, pow);
      PendingNext(s, s1, c, todo);
      AfterTurn(s, s1, c, e0.inv, orig);
      TailsDiffer(todo);
      RestHonest(s, s1, c, e0.inv, rest, lost);
      TurnVerdict(s, c, e0, lost, pow);
      TurnFair(s, c, e0, lost, pow);
      LoopVerdict(s1, c, orig, rest, lost, pow);
      VerdictThen(s, s1, LogoutAll(s1, c, rest, lost, pow), HonestResign(s, e0.inv, c, e0.inv !in lost),
                  forall e <- rest :: HonestResign(s1, e.inv, c, e.inv !in lost), pow);
    }
  }

  /** Every turn of a departure is an honest resignation. */
  predicate HonestExit(s: State, c: Client, lost: set<Invitation>) {
    c in s.clients && s.clients[c].loggedIn ==> forall e <- s.clients[c].entries :: HonestResign(s, e.inv, c, e.inv !in lost)
  }

  lemma ExitVerdict(s: State, c: Client, lost: set<Invitation>, pow: int -> PosReal)
    requires CoreInv(s) && Fair(s, pow) && c in s.registry && Known(s, c)
    requires s.clients[c].loggedIn <==> s.clients[c].player != null
    ensures Verdict(s, Exit(s, c, lost, pow), HonestExit(s, c, lost))
  {
    hide CoreInv, Fair, Verdict, Exit, LeaveStep, SamePeople, Pending, LogoutAll, HonestResign, Shrinks, ClosesOnly, Spared;
    var (s1, s') := (AfterLoop(s, c, lost, pow), Exit(s, c, lost, pow));
    ExitKeeps(s, c, lost, pow);
    LoopKeeps(s, c, lost, pow);
    LeaveVerdict(s1, s', c);
    if s.clients[c].loggedIn {
      var es := s.clients[c].entries;
      EntriesKnown(s, c);
      PendingAll(s, c);
      LoopVerdict(s, c, es, es, lost, pow);
      LoopFair(s, c, es, es, lost, pow);
      VerdictThen(s, s1, s', HonestExit(s, c, lost), true, pow);
    }
  }

  lemma LeaveVerdict(s: State, s': State, c: Client)
    requires CoreInv(s) && CoreInv(s') && LeaveStep(s, s', c)
    ensures Verdict(s, s', true)
  {
    hide CoreInv, Verdict;
    QuietVerdict(s, s');
  }

  /* ---------- whole runs ---------- */

  /** No one resigns, or leaves, a game that is recorded as won by that very client. */
  predicate Honest(s: State, t: Step)
    requires Ready(s, t)
  {
    match t
    case SResign(c, id, ok) =>
      var i := Lookup(s.clients[c].entries, id);
      i != null ==> HonestResign(s, i, c, ok)
    case SExit(c, lost) => HonestExit(s, c, lost)
    case SConnect(_) => true
    case SLogin(_, _) => true
    case SInvite(_, _, _, _, _) => true
    case SRevoke(_, _, _) => true
    case SDecline(_, _, _) => true
    case SAccept(_, _, _, _) => true
    case SMove(_, _, _, _, _, _) => true
  }

  lemma StepVerdict(s: State, t: Step, pow: int -> PosReal)
    requires CoreInv(s) && Fair(s, pow) && Enabled(s, t) && Ready(s, t)
    ensures Verdict(s, Next(s, t, pow), Honest(s, t))
  {
    hide CoreInv, Fair, Verdict, Revoke, Decline, Accept, Sessions.Resign, MakeMove, Exit, Login, Connect, Invite, HonestResign, HonestExit;
    match t
    case SConnect(c) => ConnectVerdict(s, c);
    case SLogin(c, p) => LoginVerdict(s, c, p);
    case SInvite(c, name, role, i, ok) => InviteVerdict(s, c, name, role, i, ok, pow);
    case SRevoke(c, id, ok) => RevokeVerdict(s, c, id, ok, pow);
    case SDecline(c, id, ok) => DeclineVerdict(s, c, id, ok, pow);
    case SAccept(c, id, g, ok) => AcceptVerdict(s, c, id, g, ok, pow);
    case SResign(c, id, ok) => ResignVerdict(s, c, id, ok, pow);
    case SMove(c, id, text, ok1, ok2, ok3) => MoveVerdict(s, c, id, text, ok1, ok2, ok3, pow);
    case SExit(c, lost) =>
      RegisteredClient(s, c);
      ExitVerdict(s, c, lost, pow);
  }

  /** In a reachable state where every posted result is the recorded winner's, the next step keeps
      it so if and only if it is honest, whatever is lost on the way. */
  lemma WinnersExactly(s: State, t: Step, pow: int -> PosReal)
    requires CoreInv(s) && Fair(s, pow) && AllRight(s) && Enabled(s, t) && Ready(s, t)
    ensures AllRight(Next(s, t, pow)) <==> Honest(s, t)
  {
    hide CoreInv, Fair, AllRight, AllSeated, Next, Honest;
    StepVerdict(s, t, pow);
  }

  /** The one result of an accepted invitation that has left the lists: its two different players
      in role order, and a code. */
  ghost predicate ScoredWith(s: State, i: Invitation, result: int)
    requires Linked(s, i)
  {
    var (p1, p2) := Contestants(s, s.invs[i]);
    p1 != null && p2 != null && p1 != p2 && Scores(s.log, i) == [Scored(i, p1, p2, result)]
  }

  lemma {:induction false} SeatedRunFrom(s: State, steps: seq<Step>, pow: int -> PosReal)
    requires CoreInv(s) && Fair(s, pow) && AllSeated(s)
    ensures RunFrom(s, steps, pow).Some? ==> AllSeated(RunFrom(s, steps, pow).value)
    decreases |steps|
  {
    hide CoreInv, Fair, AllSeated, AllRight, Next, Honest;
    if steps != [] && Enabled(s, steps[0]) && Ready(s, steps[0]) {
      NextKeeps(s, steps[0], pow);
      FairNext(s, steps[0], pow);
      StepVerdict(s, steps[0], pow);
      SeatedRunFrom(Next(s, steps[0], pow), steps[1..], pow);
    }
  }

  /** Every step of a run is honest when its turn comes. */
  ghost predicate AllHonest(s: State, steps: seq<Step>, pow: int -> PosReal)
    decreases |steps|
  {
    steps != [] && Enabled(s, steps[0]) && Ready(s, steps[0]) ==>
      Honest(s, steps[0]) && AllHonest(Next(s, steps[0], pow), steps[1..], pow)
  }

  lemma {:induction false} RightRunFrom(s: State, steps: seq<Step>, pow: int -> PosReal)
    requires CoreInv(s) && Fair(s, pow) && AllRight(s)
    ensures RunFrom(s, steps, pow).Some? && AllHonest(s, steps, pow) ==> AllRight(RunFrom(s, steps, pow).value)
    decreases |steps|
  {
    hide CoreInv, Fair, AllRight, AllSeated, Next, Honest;
    if steps != [] && Enabled(s, steps[0]) && Ready(s, steps[0]) && Honest(s, steps[0]) {
      NextKeeps(s, steps[0], pow);
      FairNext(s, steps[0], pow);
      WinnersExactly(s, steps[0], pow);
      RightRunFrom(Next(s, steps[0], pow), steps[1..], pow);
    }
  }

  lemma InitialWinners()
    ensures AllSeated(INITIAL) && AllRight(INITIAL)
  {
  }

  lemma OneResult(s: State, i: Invitation, pow: int -> PosReal)
    requires CoreInv(s) && Fair(s, pow) && AllSeated(s) && i in s.invs
    ensures Linked(s, i)
    ensures if s.invs[i].game != null && s.invs[i].ref == 0
            then exists result :: ScoredWith(s, i, result) && (Rightly(s, i) ==> result == Code(s.games[s.invs[i].game].winner))
            else Scores(s.log, i) == []
  {
    hide CoreInv, Refs, Scores;
    assert ScoredOnce(s, i) && Seated(s, i);
    RefNonNegative(s, i);
    if s.invs[i].game != null && s.invs[i].ref == 0 {
      var score := Scores(s.log, i)[0];
      assert score in Scores(s.log, i);
      assert Scores(s.log, i) == [score];
      assert ScoredWith(s, i, score.result);
    }
  }

  /** In every run, whatever is lost and whichever side asks, an accepted invitation that has left
      the lists has exactly one result, between its two different players in role order, and every
      other invitation has none. */
  lemma OneResultEach(steps: seq<Step>, i: Invitation, pow: int -> PosReal)
    requires RunFrom(INITIAL, steps, pow).Some? && i in RunFrom(INITIAL, steps, pow).value.invs
    ensures var s := RunFrom(INITIAL, steps, pow).value;
            && Linked(s, i)
            && if s.invs[i].game != null && s.invs[i].ref == 0 then exists result :: ScoredWith(s, i, result)
               else Scores(s.log, i) == []
  {
    hide CoreInv, Fair, AllSeated, AllRight, RunFrom, Rightly, ScoredWith, Scores;
    InitialCore();
    InitialFair(pow);
    InitialWinners();
    EveryRun(steps, pow);
    FairRunFrom(INITIAL, steps, pow);
    SeatedRunFrom(INITIAL, steps, pow);
    OneResult(RunFrom(INITIAL, steps, pow).value, i, pow);
  }

  /** In every run of honest steps that one result carries the winner the game records. */
  lemma HonestRun(steps: seq<Step>, i: Invitation, pow: int -> PosReal)
    requires RunFrom(INITIAL, steps, pow).Some? && i in RunFrom(INITIAL, steps, pow).value.invs
    requires AllHonest(INITIAL, steps, pow)
    ensures var s := RunFrom(INITIAL, steps, pow).value;
            && Linked(s, i)
            && if s.invs[i].game != null && s.invs[i].ref == 0 then ScoredWith(s, i, Code(s.games[s.invs[i].game].winner))
               else Scores(s.log, i) == []
  {
    hide CoreInv, Fair, AllSeated, RunFrom, Rightly, AllHonest, ScoredWith, Scores;
    InitialCore();
    InitialFair(pow);
    InitialWinners();
    EveryRun(steps, pow);
    FairRunFrom(INITIAL, steps, pow);
    SeatedRunFrom(INITIAL, steps, pow);
    RightRunFrom(INITIAL, steps, pow);
    OneResult(RunFrom(INITIAL, steps, pow).value, i, pow);
  }

  /* ---------- careful runs ---------- */

  /** Where nothing is stranded no game in a list is finished, so every step is honest. */
  lemma UnstrandedIsHonest(s: State, t: Step)
    requires CoreInv(s) && NoneStranded(s) && Enabled(s, t) && Ready(s, t)
    ensures Honest(s, t)
  {
    hide CoreInv, NoneStranded, HonestResign;
    match t
    case SResign(c, id, ok) =>
      RequestResolves(s, c, id);
      var i := Lookup(s.clients[c].entries, id);
      if i != null {
        UnfinishedIsHonest(s, i, c, ok);
      }
    case SExit(c, lost) =>
      if c in s.clients {
        EntriesKnown(s, c);
        forall e <- s.clients[c].entries
          ensures HonestResign(s, e.inv, c, e.inv !in lost)
        {
          UnfinishedIsHonest(s, e.inv, c, e.inv !in lost);
        }
      }
    case _ =>
  }

  lemma UnfinishedIsHonest(s: State, i: Invitation, c: Client, ok: bool)
    requires CoreInv(s) && NoneStranded(s) && i in s.invs && s.invs[i].ref > 0
    ensures HonestResign(s, i, c, ok)
  {
    hide CoreInv, Refs, NoneStranded, GameInv, Held;
    CoreRefs(s);
    RefsAt(s, i);
    LiveOkAt(s, i);
    if s.invs[i].state == InvAccepted {
      NoWinnerYet(s.games[s.invs[i].game]);
    }
  }

  lemma NoWinnerYet(g: GameRec)
    requires GameInv(g) && !g.over
    ensures g.winner == NullRole
  {
  }

  lemma {:induction false} CarefulIsHonest(s: State, steps: seq<Step>, pow: int -> PosReal)
    requires CoreInv(s) && NoneStranded(s) && AllCareful(s, steps, pow)
    ensures AllHonest(s, steps, pow)
    decreases |steps|
  {
    hide CoreInv, NoneStranded, Next, Careful, Honest;
    if steps != [] {
      UnstrandedIsHonest(s, steps[0]);
      NextKeeps(s, steps[0], pow);
      StrandedExactly(s, steps[0], pow);
      CarefulIsHonest(Next(s, steps[0], pow), steps[1..], pow);
    }
  }

  /** Exactly-once scoring with the recorded winner over careful runs: revoking and declining from
      the right side, and no send lost that makes an operation return early.  Any other packet may
      be lost. */
  lemma CarefulScores(steps: seq<Step>, i: Invitation, pow: int -> PosReal)
    requires AllCareful(INITIAL, steps, pow)
    ensures RunFrom(INITIAL, steps, pow).Some?
    ensures var s := RunFrom(INITIAL, steps, pow).value;
            i in s.invs ==>
              && Linked(s, i)
              && if s.invs[i].game != null && s.invs[i].ref == 0 then ScoredWith(s, i, Code(s.games[s.invs[i].game].winner))
                 else Scores(s.log, i) == []
  {
    hide CoreInv, NoneStranded, RunFrom, AllCareful, AllHonest, ScoredWith, Scores;
    InitialCore();
    InitialStories();
    CarefulRun(INITIAL, steps, pow);
    CarefulIsHonest(INITIAL, steps, pow);
    if i in RunFrom(INITIAL, steps, pow).value.invs {
      HonestRun(steps, i, pow);
    }
  }

  /* ---------- what a result says and pays ---------- */

  /** Every result posted for an invitation has the player of the client that plays First before that of
      the client that plays Second, and is 1, 2 or 0 exactly as the game records First, Second or
      nobody as the winner. */
  ghost predicate NamesWinner(s: State, i: Invitation) {
    && i in s.invs && Linked(s, i)
    && var r := s.invs[i];
       var (first, second) := if r.sourceRole == First then (r.source, r.target) else (r.target, r.source);
       forall e <- s.log :: e.Scored? && e.inv == i ==>
         && r.game != null && e.player1 == s.clients[first].player && e.player2 == s.clients[second].player
         && (e.result == 1 <==> s.games[r.game].winner == First)
         && (e.result == 2 <==> s.games[r.game].winner == Second)
         && (e.result == 0 <==> s.games[r.game].winner == NullRole)
  }

  lemma {:induction false} InScores(log: seq<Event>, i: Invitation, e: Event)
    requires e in log && e.Scored? && e.inv == i
    ensures e in Scores(log, i)
  {
    if log[0] != e {
      InScores(log[1..], i, e);
    }
  }

  lemma NamedIn(s: State, i: Invitation)
    requires i in s.invs && Linked(s, i)
    requires if s.invs[i].game != null && s.invs[i].ref == 0 then ScoredWith(s, i, Code(s.games[s.invs[i].game].winner))
             else Scores(s.log, i) == []
    ensures NamesWinner(s, i)
  {
    hide Scores;
    forall e <- s.log | e.Scored? && e.inv == i
      ensures e in Scores(s.log, i)
    {
      InScores(s.log, i, e);
    }
    if s.invs[i].game != null {
      CodeNames(s.games[s.invs[i].game].winner);
    }
  }

  /** So it is over every run of honest steps. */
  lemma ResultsNameWinners(steps: seq<Step>, i: Invitation, pow: int -> PosReal)
    requires RunFrom(INITIAL, steps, pow).Some? && i in RunFrom(INITIAL, steps, pow).value.invs
    requires AllHonest(INITIAL, steps, pow)
    ensures NamesWinner(RunFrom(INITIAL, steps, pow).value, i)
  {
    hide RunFrom, AllHonest, ScoredWith, Scores, NamesWinner;
    HonestRun(steps, i, pow);
    NamedIn(RunFrom(INITIAL, steps, pow).value, i);
  }

  /** The ratings after the game of an invitation ended with the winner it now records: the player of the
      client with the winner's role has not lost points nor the other gained any; between equals the win
      is worth sixteen points and a draw none; and nobody else's rating has changed. */
  ghost predicate Paid(s: State, s': State, i: Invitation, pow: int -> PosReal) {
    && i in s.invs && Linked(s, i) && s.invs[i].game != null && s.invs[i].game in s'.games && s.players.Keys == s'.players.Keys
    && var r := s.invs[i];
       var (p, q, winner) := (s.clients[r.source].player, s.clients[r.target].player, s'.games[r.game].winner);
       && p != null && q != null
       && PaidTo(s, s', p, q, winner, r.sourceRole, r.targetRole)
       && (forall o <- s.players :: o != p && o != q ==> s'.players[o].rating == s.players[o].rating)
       && (pow(0) == 1.0 && s.players[p].rating == s.players[q].rating ==>
             EvenlyPaid(s.players[p].rating, s'.players[p].rating, s'.players[q].rating, winner, r.sourceRole, r.targetRole))
  }

  ghost predicate PaidTo(s: State, s': State, p: Player, q: Player, winner: Role, role1: Role, role2: Role)
    requires p in s.players && q in s.players && p in s'.players && q in s'.players
  {
    && (winner == role1 ==> s'.players[p].rating >= s.players[p].rating && s'.players[q].rating <= s.players[q].rating)
    && (winner == role2 ==> s'.players[p].rating <= s.players[p].rating && s'.players[q].rating >= s.players[q].rating)
  }

  predicate EvenlyPaid(n: int, n1: int, n2: int, winner: Role, role1: Role, role2: Role) {
    && (winner == role1 ==> n1 == n + 16 && n2 == n - 16)
    && (winner == role2 ==> n1 == n - 16 && n2 == n + 16)
    && (winner == NullRole ==> n1 == n && n2 == n)
  }

  lemma RatedPays(s: State, s': State, i: Invitation, p1: Player, p2: Player, winner: Role, pow: int -> PosReal)
    requires Linked(s, i) && InvOk(s, i) && s.invs[i].game != null && s.invs[i].game in s'.games
    requires winner == s'.games[s.invs[i].game].winner && Contestants(s, s.invs[i]) == (p1, p2)
    requires p1 in s.players && p2 in s.players && s'.players == Rated(s.players, p1, p2, Code(winner), pow)
    ensures Paid(s, s', i, pow)
  {
    hide NewRatings, Held;
    var (r1, r2) := (s.players[p1].rating, s.players[p2].rating);
    MovesAreBounded(r1, r2, Code(winner), pow(r2 - r1));
    EvenMatch(r1);
    CodeNames(winner);
    RatedAt(s.players, p1, p2, Code(winner), p1, pow);
    RatedAt(s.players, p1, p2, Code(winner), p2, pow);
    forall o <- s.players | o != p1 && o != p2
      ensures s'.players[o].rating == s.players[o].rating
    {
      RatedAt(s.players, p1, p2, Code(winner), o, pow);
    }
  }

  /** A sent resignation of a game that the one who resigns has not won pays the winner. */
  lemma ResignPays(s: State, c: Client, id: int, pow: int -> PosReal)
    requires CoreInv(s) && c in s.clients && Resolves(s, c, id)
    requires var i := Lookup(s.clients[c].entries, id); i != null && s.invs[i].state == InvAccepted && HonestResign(s, i, c, true)
    ensures Paid(s, Sessions.Resign(s, c, id, true, pow).0, Lookup(s.clients[c].entries, id), pow)
  {
    hide CoreInv, Refs, Touches, Sessions.Resign, Rated, HeldOk, Held, Paid, Lookup, Steps.Resigned;
    RequestResolves(s, c, id);
    ResignKeeps(s, c, id, true, pow);
    ResignedPays(s, Sessions.Resign(s, c, id, true, pow).0, c, Lookup(s.clients[c].entries, id), pow);
  }

  lemma ResignedPays(s: State, s': State, c: Client, i: Invitation, pow: int -> PosReal)
    requires Linked(s, i) && InvOk(s, i) && IsPlayed(s.invs[i], c) && s.invs[i].game != null && s.invs[i].state == InvAccepted
    requires HonestResign(s, i, c, true) && Steps.Resigned(s, s', c, i, true, pow)
    ensures Paid(s, s', i, pow)
  {
    hide Rated, Held, Paid;
    SeatsAgree(s, i, c);
    var (p1, p2) := Contestants(s, s.invs[i]);
    RatedPays(s, s', i, p1, p2, RoleOf(s.invs[i], Opponent(s.invs[i], c)), pow);
  }

  /** A last move pays the winner once everything is sent. */
  lemma MovePays(s: State, c: Client, id: int, text: string, pow: int -> PosReal)
    requires CoreInv(s) && c in s.clients && Resolves(s, c, id) && LastMove(s, c, id, text)
    ensures Paid(s, MakeMove(s, c, id, text, true, true, true, pow).0, Lookup(s.clients[c].entries, id), pow)
  {
    hide CoreInv, Refs, Touches, MakeMove, Rated, HeldOk, Held, Paid, Lookup, Moved, Apply, LegalMove;
    RequestResolves(s, c, id);
    MoveKeeps(s, c, id, text, true, true, true, pow);
    var i := Lookup(s.clients[c].entries, id);
    var g1 := Apply(s.games[s.invs[i].game], LegalMove(s, c, i, text).value.cell, RoleOf(s.invs[i], c));
    MovedPays(s, MakeMove(s, c, id, text, true, true, true, pow).0, c, id, i, g1, pow);
  }

  lemma MovedPays(s: State, s': State, c: Client, id: int, i: Invitation, g1: GameRec, pow: int -> PosReal)
    requires Linked(s, i) && InvOk(s, i) && IsPlayed(s.invs[i], c) && s.invs[i].game != null && g1.over
    requires Moved(s, s', c, id, i, g1, true, true, true, pow)
    ensures Paid(s, s', i, pow)
  {
    hide Rated, Held, Paid, MoveNotes;
    SeatsAgree(s, i, c);
    var (p1, p2) := Contestants(s, s.invs[i]);
    RatedPays(s, s', i, p1, p2, g1.winner, pow);
  }

  /** Whether pow takes a player who is not behind to at least one, as powers of ten do. */
  ghost predicate Increasing(pow: int -> PosReal) {
    forall d: int :: (d >= 0 ==> pow(d) >= 1.0) && (d <= 0 ==> pow(d) <= 1.0)
  }

  /** A draw takes points from the higher-rated player, if from anyone, and gives them to the lower. */
  lemma DrawLevels(players: map<Player, PlayerRec>, p1: Player, p2: Player, pow: int -> PosReal)
    requires p1 in players && p2 in players && p1 != p2 && Increasing(pow)
    ensures var after := Rated(players, p1, p2, 0, pow);
            && (players[p1].rating <= players[p2].rating ==>
                  after[p1].rating >= players[p1].rating && after[p2].rating <= players[p2].rating)
            && (players[p1].rating >= players[p2].rating ==>
                  after[p1].rating <= players[p1].rating && after[p2].rating >= players[p2].rating)
  {
    var (r1, r2) := (players[p1].rating, players[p2].rating);
    DrawHelpsTheWeaker(r1, r2, pow(r2 - r1));
    RatedAt(players, p1, p2, 0, p1, pow);
    RatedAt(players, p1, p2, 0, p2, pow);
  }
}
