/** What each side of an invitation is told, in order, and how its game is scored. */
module Stories {
  import opened Basics
  import opened Games
  import opened GameText
  import opened Players
  import opened Clients
  import opened Sessions
  import opened References
  import opened Steps
  import opened Joining
  import opened Leaving
  import opened Runs
  import opened Lifecycle

  /* ---------- reading the log ---------- */

  /** The notifications about an invitation that were sent to a client. */
  ghost function Trace(log: seq<Event>, c: Client, i: Invitation): seq<Kind> {
    if log == [] then []
    else (if log[0].Sent? && log[0].to == c && log[0].inv == i then [log[0].kind] else []) + Trace(log[1..], c, i)
  }

  /** The results posted for an invitation. */
  ghost function Scores(log: seq<Event>, i: Invitation): seq<Event> {
    if log == [] then []
    else (if log[0].Scored? && log[0].inv == i then [log[0]] else []) + Scores(log[1..], i)
  }

  lemma {:induction false} TraceAppend(log: seq<Event>, more: seq<Event>, c: Client, i: Invitation)
    ensures Trace(log + more, c, i) == Trace(log, c, i) + Trace(more, c, i)
    ensures Scores(log + more, i) == Scores(log, i) + Scores(more, i)
  {
    if log == [] {
      assert log + more == more;
    } else {
      assert (log + more)[0] == log[0] && (log + more)[1..] == log[1..] + more;
      TraceAppend(log[1..], more, c, i);
      var rest := log[1..] + more;
      assert Trace(log + more, c, i)
          == (if log[0].Sent? && log[0].to == c && log[0].inv == i then [log[0].kind] else []) + Trace(rest, c, i);
      assert Scores(log + more, i) == (if log[0].Scored? && log[0].inv == i then [log[0]] else []) + Scores(rest, i);
    }
  }

  lemma {:induction false} TraceElsewhere(more: seq<Event>, c: Client, i: Invitation)
    requires forall e <- more :: e.inv != i
    ensures Trace(more, c, i) == [] && Scores(more, i) == []
  {
    if more != [] {
      TraceElsewhere(more[1..], c, i);
    }
  }

  lemma TraceOne(e: Event, c: Client, i: Invitation)
    ensures Trace([e], c, i) == if e.Sent? && e.to == c && e.inv == i then [e.kind] else []
    ensures Scores([e], i) == if e.Scored? && e.inv == i then [e] else []
  {
  }

  /** Adding one event to the log. */
  lemma TraceSnoc(log: seq<Event>, e: Event, c: Client, i: Invitation)
    ensures Trace(log + [e], c, i) == Trace(log, c, i) + if e.Sent? && e.to == c && e.inv == i then [e.kind] else []
    ensures Scores(log + [e], i) == Scores(log, i) + if e.Scored? && e.inv == i then [e] else []
  {
    TraceAppend(log, [e], c, i);
    TraceOne(e, c, i);
  }

  function Moves(n: nat): (ks: seq<Kind>)
    ensures |ks| == n && forall k <- ks :: k == MovedPkt
  {
    if n == 0 then [] else Moves(n - 1) + [MovedPkt]
  }

  /* ---------- the story of an invitation ---------- */

  /** The players of the two ends, first role first. */
  function Contestants(s: State, r: InvRec): (Player?, Player?)
    requires r.source in s.clients && r.target in s.clients
  {
    Seats(s, r.source, r.target, r.sourceRole)
  }

  /** What the source and the target have been told, and what has been posted, when the
      invitation never led to a game. */
  ghost predicate NoGameStory(r: InvRec, src: seq<Kind>, tgt: seq<Kind>, scores: seq<Event>) {
    && scores == []
    && if r.ref > 0 then src == [] && tgt == [InvitedPkt(r.targetRole)]
       else || (src == [] && tgt == [InvitedPkt(r.targetRole), RevokedPkt])
            || (src == [DeclinedPkt] && tgt == [InvitedPkt(r.targetRole)])
  }

  /** The last notification to the side with the given role, once the game is over. */
  ghost function LastWord(g: GameRec, role: Role): seq<Kind> {
    if !HasResigned(g) then [EndedPkt(g.winner)] else if g.winner == role then [ResignedPkt] else []
  }

  /** The same once a game exists: each side has been told of every mark of the other; while the
      game goes on nothing is posted, and when the invitation leaves the lists exactly one result
      has been, with the winner the game records. */
  ghost predicate GameStory(r: InvRec, g: GameRec, players: (Player?, Player?), i: Invitation,
                            src: seq<Kind>, tgt: seq<Kind>, scores: seq<Event>) {
    && GameInv(g)
    && var (s0, t0) := ([AcceptedPkt] + Moves(Count(g.board, r.targetRole)),
                        [InvitedPkt(r.targetRole)] + Moves(Count(g.board, r.sourceRole)));
       if r.ref > 0 then scores == [] && src == s0 && tgt == t0
       else
         && g.over && players.0 != null && players.1 != null && players.0 != players.1
         && scores == [Scored(i, players.0, players.1, Code(g.winner))]
         && src == s0 + LastWord(g, r.sourceRole) && tgt == t0 + LastWord(g, r.targetRole)
  }

  ghost predicate Story(s: State, i: Invitation)
    requires Linked(s, i)
  {
    var r := s.invs[i];
    var (src, tgt, scores) := (Trace(s.log, r.source, i), Trace(s.log, r.target, i), Scores(s.log, i));
    if r.game == null then NoGameStory(r, src, tgt, scores)
    else GameStory(r, s.games[r.game], Contestants(s, r), i, src, tgt, scores)
  }

  ghost predicate LogKnown(s: State) {
    forall e <- s.log :: e.inv in s.invs
  }

  ghost predicate Stories(s: State) {
    LogKnown(s) && forall i <- s.invs :: Linked(s, i) && Story(s, i)
  }

  /** An invitation that a step is not about keeps its story. */
  lemma StoryKept(s: State, s': State, j: Invitation, events: seq<Event>)
    requires Linked(s, j) && Story(s, j) && Linked(s', j) && s'.invs[j] == s.invs[j]
    requires s.invs[j].game != null ==> s'.games[s.invs[j].game] == s.games[s.invs[j].game]
    requires s'.clients[s.invs[j].source].player == s.clients[s.invs[j].source].player
    requires s'.clients[s.invs[j].target].player == s.clients[s.invs[j].target].player
    requires s'.log == s.log + events && forall e <- events :: e.inv != j
    ensures Story(s', j)
  {
    TraceAppend(s.log, events, s.invs[j].source, j);
    TraceAppend(s.log, events, s.invs[j].target, j);
    TraceElsewhere(events, s.invs[j].source, j);
    TraceElsewhere(events, s.invs[j].target, j);
  }

  /** A step about i keeps every story but i's. */
  lemma StoriesOnly(s: State, s': State, i: Invitation, events: seq<Event>)
    requires Stories(s) && Only(s, s', i) && SamePeople(s, s') && i in s'.invs
    requires forall j <- s'.invs :: Linked(s', j) && (j in s.invs || j == i)
    requires s'.log == s.log + events && forall e <- events :: e.inv == i
    requires Story(s', i)
    ensures Stories(s')
  {
    forall j <- s'.invs | j != i
      ensures Story(s', j)
    {
      assert SameInv(s, s', j);
      StoryKept(s, s', j, events);
    }
    forall e <- s'.log
      ensures e.inv in s'.invs
    {
      assert e in s.log || e in events;
    }
  }

  lemma TouchStories(s: State, s': State, i: Invitation, events: seq<Event>)
    requires Stories(s) && Touches(s, s', i) && Refs(s')
    requires s'.log == s.log + events && forall e <- events :: e.inv == i
    requires i in s'.invs && Linked(s', i) && Story(s', i)
    ensures Stories(s')
  {
    hide Story, Only, SamePeople, Stories, Shrinks;
    forall j <- s'.invs
      ensures Linked(s', j)
    {
      RefsAt(s', j);
    }
    StoriesOnly(s, s', i, events);
  }

  lemma StoryAt(s: State, i: Invitation)
    requires Stories(s) && i in s.invs
    ensures Linked(s, i) && Story(s, i)
  {
  }

  /* ---------- open invitations ---------- */

  lemma RevokedStory(s: State, s': State, i: Invitation, id: int)
    requires Linked(s, i) && InvOk(s, i) && Story(s, i) && s.invs[i].game == null && s.invs[i].ref > 0
    requires Linked(s', i) && SameEnds(s.invs[i], s'.invs[i]) && s'.invs[i].ref == 0
    requires s'.log == s.log + [Sent(s.invs[i].target, RevokedPkt, id, i, "")]
    ensures Story(s', i)
  {
    var e := Sent(s.invs[i].target, RevokedPkt, id, i, "");
    TraceSnoc(s.log, e, s.invs[i].source, i);
    TraceSnoc(s.log, e, s.invs[i].target, i);
  }

  lemma DeclinedStory(s: State, s': State, i: Invitation, id: int)
    requires Linked(s, i) && InvOk(s, i) && Story(s, i) && s.invs[i].game == null && s.invs[i].ref > 0
    requires Linked(s', i) && SameEnds(s.invs[i], s'.invs[i]) && s'.invs[i].ref == 0
    requires s'.log == s.log + [Sent(s.invs[i].source, DeclinedPkt, id, i, "")]
    ensures Story(s', i)
  {
    var e := Sent(s.invs[i].source, DeclinedPkt, id, i, "");
    TraceSnoc(s.log, e, s.invs[i].source, i);
    TraceSnoc(s.log, e, s.invs[i].target, i);
  }

  lemma AcceptedStory(s: State, s': State, i: Invitation, g: Game, id: int, text: string)
    requires Linked(s, i) && Story(s, i) && AcceptedStep(s, s', i, g) && Linked(s', i) && s.invs[i].ref > 0
    requires s.invs[i].source != s.invs[i].target && s.invs[i].game == null && Complementary(s.invs[i])
    requires s'.log == s.log + [Sent(s.invs[i].source, AcceptedPkt, id, i, text)]
    ensures Story(s', i)
  {
    hide GameInv, Trace, Scores, Count;
    var e := Sent(s.invs[i].source, AcceptedPkt, id, i, text);
    TraceSnoc(s.log, e, s.invs[i].source, i);
    TraceSnoc(s.log, e, s.invs[i].target, i);
    NewGameInv();
    CountEmpty(EMPTY, First);
    CountEmpty(EMPTY, Second);
  }

  lemma MadeStory(s: State, s': State, c: Client, d: Client, i: Invitation, cRole: Role, dRole: Role, id: int, name: string)
    requires LogKnown(s) && MakeStep(s, s', c, d, i, cRole, dRole) && Linked(s', i)
    requires s'.log == s.log + [Sent(d, InvitedPkt(dRole), id, i, name)]
    ensures Story(s', i)
  {
    TraceElsewhere(s.log, c, i);
    TraceElsewhere(s.log, d, i);
    TraceSnoc(s.log, Sent(d, InvitedPkt(dRole), id, i, name), c, i);
    TraceSnoc(s.log, Sent(d, InvitedPkt(dRole), id, i, name), d, i);
  }

  /* ---------- games ---------- */

  /** Whichever end acts, the result is posted with the same player first. */
  lemma SeatsAgree(s: State, i: Invitation, c: Client)
    requires Linked(s, i) && InvOk(s, i) && IsPlayed(s.invs[i], c)
    ensures Seats(s, c, Opponent(s.invs[i], c), RoleOf(s.invs[i], c)) == Contestants(s, s.invs[i])
    ensures Opponent(s.invs[i], c) != c && IsPlayed(s.invs[i], Opponent(s.invs[i], c))
    ensures RoleOf(s.invs[i], c) != NullRole
    ensures RoleOf(s.invs[i], Opponent(s.invs[i], c)) == Other(RoleOf(s.invs[i], c))
  {
  }

  /** The trace of one end as GameStory wants it: the client's opening packet, then one MOVED for
      every mark of the other role. */
  ghost function Opening(r: InvRec, c: Client): Kind {
    if c == r.source then AcceptedPkt else InvitedPkt(r.targetRole)
  }

  ghost predicate SideStory(log: seq<Event>, r: InvRec, g: GameRec, i: Invitation, c: Client, last: seq<Kind>) {
    Trace(log, c, i) == [Opening(r, c)] + Moves(Count(g.board, Other(RoleOf(r, c)))) + last
  }

  /** GameStory of a live invitation, seen from an end and its opponent. */
  lemma LiveSides(s: State, i: Invitation, c: Client)
    requires Linked(s, i) && InvOk(s, i) && Story(s, i) && s.invs[i].game != null && s.invs[i].ref > 0
    requires IsPlayed(s.invs[i], c)
    ensures var (r, g, d) := (s.invs[i], s.games[s.invs[i].game], Opponent(s.invs[i], c));
            SideStory(s.log, r, g, i, c, []) && SideStory(s.log, r, g, i, d, []) && Scores(s.log, i) == [] && GameInv(g)
  {
  }

  /** The way back, for a live and for a finished game. */
  lemma StoryFromSides(s: State, i: Invitation, c: Client)
    requires Linked(s, i) && InvOk(s, i) && s.invs[i].game != null && IsPlayed(s.invs[i], c)
    requires var (r, g, d) := (s.invs[i], s.games[s.invs[i].game], Opponent(s.invs[i], c));
             && GameInv(g)
             && if r.ref > 0
                then SideStory(s.log, r, g, i, c, []) && SideStory(s.log, r, g, i, d, []) && Scores(s.log, i) == []
                else && g.over
                     && SideStory(s.log, r, g, i, c, LastWord(g, RoleOf(r, c)))
                     && SideStory(s.log, r, g, i, d, LastWord(g, RoleOf(r, d)))
                     && Contestants(s, r).0 != null && Contestants(s, r).1 != null
                     && Scores(s.log, i) == [Scored(i, Contestants(s, r).0, Contestants(s, r).1, Code(g.winner))]
    ensures Story(s, i)
  {
    SeatsAgree(s, i, c);
    var (r, g) := (s.invs[i], s.games[s.invs[i].game]);
    var d := Opponent(r, c);
    assert SideStory(s.log, r, g, i, r.source, if r.ref > 0 then [] else LastWord(g, r.sourceRole)) by {
      assert c == r.source || d == r.source;
    }
    assert SideStory(s.log, r, g, i, r.target, if r.ref > 0 then [] else LastWord(g, r.targetRole)) by {
      assert c == r.target || d == r.target;
    }
  }

  /** The RESIGNED packet and the result of a resigned game. */
  lemma ResignedSides(s: State, log: seq<Event>, c: Client, i: Invitation, g: GameRec, g': GameRec, packet: Event, score: Event)
    requires Linked(s, i) && InvOk(s, i) && IsPlayed(s.invs[i], c)
    requires HasResigned(g') && g'.board == g.board && g'.winner == RoleOf(s.invs[i], Opponent(s.invs[i], c))
    requires var (r, d) := (s.invs[i], Opponent(s.invs[i], c));
             && SideStory(log, r, g, i, c, []) && SideStory(log, r, g, i, d, []) && Scores(log, i) == []
             && packet.Sent? && packet.to == d && packet.kind == ResignedPkt && packet.inv == i
             && score.Scored? && score.inv == i
    ensures var (r, d) := (s.invs[i], Opponent(s.invs[i], c));
            var log' := log + [packet] + [score];
            && SideStory(log', r, g', i, c, LastWord(g', RoleOf(r, c)))
            && SideStory(log', r, g', i, d, LastWord(g', RoleOf(r, d)))
            && Scores(log', i) == [score]
  {
    hide InvOk, Trace, Scores, Count;
    SeatsAgree(s, i, c);
    var d := Opponent(s.invs[i], c);
    TraceSnoc(log, packet, c, i);
    TraceSnoc(log, packet, d, i);
    TraceSnoc(log + [packet], score, c, i);
    TraceSnoc(log + [packet], score, d, i);
  }

  /** A resignation: the opponent is told, the result is posted, and the opponent is the winner. */
  lemma ResignedStory(s: State, s': State, c: Client, i: Invitation, pow: int -> PosReal)
    requires Linked(s, i) && InvOk(s, i) && Story(s, i) && LiveOk(s, i) && s.invs[i].ref > 0 && s.invs[i].game != null
    requires s.invs[i].state == InvAccepted && IsPlayed(s.invs[i], c) && Steps.Resigned(s, s', c, i, true, pow)
    requires Linked(s', i) && InvOk(s', i)
    requires Contestants(s', s'.invs[i]) == Contestants(s, s.invs[i])
    ensures Story(s', i)
  {
    hide Rated, Story, LiveOk, InvOk, GameInv, SideStory, Trace, Scores, Count, LastWord;
    var (r, g) := (s.invs[i], s.games[s.invs[i].game]);
    var d := Opponent(r, c);
    SeatsAgree(s, i, c);
    LiveSides(s, i, c);
    LiveGame(s, i);
    var (g1, g') := (ResignBy(g, RoleOf(r, c)), s'.games[r.game]);
    ResignByKeeps(g, RoleOf(r, c));
    GameInvRef(g1, g'.ref);
    var packet := Sent(d, ResignedPkt, IdOf(s.clients[d].entries, i), i, "");
    var (p1, p2) := Seats(s, c, d, RoleOf(r, c));
    var score := Scored(i, p1, p2, Code(RoleOf(r, d)));
    assert (s.log + [packet]) + [score] == s.log + [packet, score];
    ResignedSides(s, s.log, c, i, g, g1, packet, score);
    SameWords(g1, g', RoleOf(r, c));
    SameWords(g1, g', RoleOf(r, d));
    SideSame(s'.log, r, s'.invs[i], g1, g', i, c, LastWord(g1, RoleOf(r, c)));
    SideSame(s'.log, r, s'.invs[i], g1, g', i, d, LastWord(g1, RoleOf(r, d)));
    StoryFromSides(s', i, c);
  }

  lemma SameWords(g: GameRec, g': GameRec, role: Role)
    requires g' == g.(ref := g'.ref)
    ensures LastWord(g', role) == LastWord(g, role)
  {
  }

  lemma LiveGame(s: State, i: Invitation)
    requires i in s.invs && LiveOk(s, i) && s.invs[i].ref > 0 && s.invs[i].state == InvAccepted
    ensures s.invs[i].game != null && s.invs[i].game in s.games
    ensures GameInv(s.games[s.invs[i].game]) && !s.games[s.invs[i].game].over
  {
  }

  /** The opponent of the mover has one more mark to hear of, and is told of it. */
  lemma MovedSides(s: State, log: seq<Event>, c: Client, i: Invitation, g: GameRec, g1: GameRec, moved: Event)
    requires Linked(s, i) && InvOk(s, i) && IsPlayed(s.invs[i], c)
    requires var (r, d) := (s.invs[i], Opponent(s.invs[i], c));
             && SideStory(log, r, g, i, c, []) && SideStory(log, r, g, i, d, [])
             && moved.Sent? && moved.to == d && moved.kind == MovedPkt && moved.inv == i
    requires forall r: Role :: r != NullRole ==>
               Count(g1.board, r) == Count(g.board, r) + (if r == RoleOf(s.invs[i], c) then 1 else 0)
    ensures var (r, d) := (s.invs[i], Opponent(s.invs[i], c));
            && SideStory(log + [moved], r, g1, i, c, []) && SideStory(log + [moved], r, g1, i, d, [])
            && Scores(log + [moved], i) == Scores(log, i)
  {
    hide InvOk, Trace, Scores, Count;
    SeatsAgree(s, i, c);
    TraceSnoc(log, moved, c, i);
    TraceSnoc(log, moved, Opponent(s.invs[i], c), i);
  }

  /** The ENDED packets and the result of a finished game. */
  lemma EndedSides(s: State, log: seq<Event>, c: Client, i: Invitation, g: GameRec, e1: Event, e2: Event, score: Event)
    requires Linked(s, i) && InvOk(s, i) && IsPlayed(s.invs[i], c) && !HasResigned(g)
    requires var (r, d) := (s.invs[i], Opponent(s.invs[i], c));
             && SideStory(log, r, g, i, c, []) && SideStory(log, r, g, i, d, []) && Scores(log, i) == []
             && e1.Sent? && e1.to == d && e1.kind == EndedPkt(g.winner) && e1.inv == i
             && e2.Sent? && e2.to == c && e2.kind == EndedPkt(g.winner) && e2.inv == i
             && score.Scored? && score.inv == i
    ensures var (r, d) := (s.invs[i], Opponent(s.invs[i], c));
            var log' := log + [e1] + [e2] + [score];
            && SideStory(log', r, g, i, c, LastWord(g, RoleOf(r, c)))
            && SideStory(log', r, g, i, d, LastWord(g, RoleOf(r, d)))
            && Scores(log', i) == [score]
  {
    hide InvOk, Trace, Scores, Count;
    SeatsAgree(s, i, c);
    var d := Opponent(s.invs[i], c);
    TraceSnoc(log, e1, c, i);
    TraceSnoc(log, e1, d, i);
    TraceSnoc(log + [e1], e2, c, i);
    TraceSnoc(log + [e1], e2, d, i);
    TraceSnoc(log + [e1] + [e2], score, c, i);
    TraceSnoc(log + [e1] + [e2], score, d, i);
  }

  /** A side's story does not depend on the state or count of the invitation, nor on the count
      of the game. */
  lemma SideSame(log: seq<Event>, r: InvRec, r': InvRec, g: GameRec, g': GameRec, i: Invitation, c: Client, last: seq<Kind>)
    requires SameEnds(r, r') && g'.board == g.board
    ensures SideStory(log, r', g', i, c, last) <==> SideStory(log, r, g, i, c, last)
  {
  }

  lemma MovedStory(s: State, s': State, c: Client, id: int, i: Invitation, cell: nat,
                   ok2: bool, ok3: bool, pow: int -> PosReal)
    requires Linked(s, i) && InvOk(s, i) && Story(s, i) && LiveOk(s, i) && s.invs[i].ref == 2 && s.invs[i].game != null
    requires s.invs[i].state == InvAccepted && IsPlayed(s.invs[i], c)
    requires cell < 9 && CanApply(s.games[s.invs[i].game], cell, RoleOf(s.invs[i], c))
    requires var g1 := Apply(s.games[s.invs[i].game], cell, RoleOf(s.invs[i], c));
             Moved(s, s', c, id, i, g1, true, ok2, ok3, pow) && (g1.over ==> ok2 && ok3)
    requires Linked(s', i) && InvOk(s', i) && Contestants(s', s'.invs[i]) == Contestants(s, s.invs[i])
    ensures Story(s', i)
  {
    hide Rated, Story, LiveOk, InvOk, GameInv, Apply, MoveNotes, Trace, Scores, SideStory, Count, CanApply;
    var (r, g) := (s.invs[i], s.games[s.invs[i].game]);
    var d := Opponent(r, c);
    var g1 := Apply(g, cell, RoleOf(r, c));
    SeatsAgree(s, i, c);
    LiveSides(s, i, c);
    LiveGame(s, i);
    ApplyKeeps(g, cell, RoleOf(r, c));
    var g' := s'.games[r.game];
    GameInvRef(g1, g'.ref);
    var packetId := IdOf(s.clients[d].entries, i);
    var moved := Sent(d, MovedPkt, packetId, i, StateText(g1.board, g1.current));
    MovedSides(s, s.log, c, i, g, g1, moved);
    if g1.over {
      var (p1, p2) := Seats(s, c, d, RoleOf(r, c));
      var e1 := Sent(d, EndedPkt(g1.winner), packetId, i, "");
      var e2 := Sent(c, EndedPkt(g1.winner), id, i, "");
      var score := Scored(i, p1, p2, Code(g1.winner));
      EndedSides(s, s.log + [moved], c, i, g1, e1, e2, score);
      NotesAre(s, c, i, id, g1);
      assert s.log + [moved, e1, e2] + [score] == s.log + [moved] + [e1] + [e2] + [score];
      SideSame(s'.log, r, s'.invs[i], g1, g', i, c, LastWord(g1, RoleOf(r, c)));
      SideSame(s'.log, r, s'.invs[i], g1, g', i, d, LastWord(g1, RoleOf(r, d)));
    } else {
      NotesMoved(s, c, i, id, g1, ok2, ok3);
      assert s.log + [moved] + [] == s.log + [moved];
      SideSame(s'.log, r, s'.invs[i], g1, g', i, c, []);
      SideSame(s'.log, r, s'.invs[i], g1, g', i, d, []);
    }
    StoryFromSides(s', i, c);
  }

  lemma NotesAre(s: State, c: Client, i: Invitation, id: int, g1: GameRec)
    requires Linked(s, i) && g1.over
    ensures var d := Opponent(s.invs[i], c);
            var packetId := IdOf(s.clients[d].entries, i);
            MoveNotes(s, c, i, id, g1, true, true, true)
            == [Sent(d, MovedPkt, packetId, i, StateText(g1.board, g1.current)),
                Sent(d, EndedPkt(g1.winner), packetId, i, ""), Sent(c, EndedPkt(g1.winner), id, i, "")]
  {
  }

  lemma NotesMoved(s: State, c: Client, i: Invitation, id: int, g1: GameRec, ok2: bool, ok3: bool)
    requires Linked(s, i) && !g1.over
    ensures var d := Opponent(s.invs[i], c);
            MoveNotes(s, c, i, id, g1, true, ok2, ok3)
            == [Sent(d, MovedPkt, IdOf(s.clients[d].entries, i), i, StateText(g1.board, g1.current))]
  {
  }

  /* ---------- every operation ---------- */

  /** The players of the two ends are those a step about the invitation found. */
  lemma SameContestants(s: State, s': State, i: Invitation)
    requires Linked(s, i) && Touches(s, s', i) && Linked(s', i)
    ensures Contestants(s', s'.invs[i]) == Contestants(s, s.invs[i])
  {
    hide Only, Shrinks;
  }

  lemma RevokeStories(s: State, c: Client, id: int, ok: bool)
    requires CoreInv(s) && Stories(s) && c in s.clients && Resolves(s, c, id)
    requires var i := Lookup(s.clients[c].entries, id);
             i != null && s.invs[i].state == InvOpen ==> s.invs[i].source == c && ok
    ensures Stories(Revoke(s, c, id, ok).0)
  {
    hide CoreInv, Stories, Story, Touches, Refs, Revoke;
    RevokeKeeps(s, c, id, ok);
    RequestResolves(s, c, id);
    var i := Lookup(s.clients[c].entries, id);
    if i != null && CanClose(s.invs[i], NullRole) {
      var s' := Revoke(s, c, id, ok).0;
      StoryAt(s, i);
      TouchedEnds(s, s', i);
      CoreRefs(s');
      RefsAt(s', i);
      RevokedStory(s, s', i, IdOf(s.clients[s.invs[i].target].entries, i));
      TouchStories(s, s', i, [Sent(s.invs[i].target, RevokedPkt, IdOf(s.clients[s.invs[i].target].entries, i), i, "")]);
    }
  }

  lemma CoreRefs(s: State)
    requires CoreInv(s)
    ensures Refs(s)
  {
  }

  lemma TouchedEnds(s: State, s': State, i: Invitation)
    requires Touches(s, s', i)
    ensures i in s.invs && i in s'.invs && SameEnds(s.invs[i], s'.invs[i])
  {
  }

  lemma DeclineStories(s: State, c: Client, id: int, ok: bool)
    requires CoreInv(s) && Stories(s) && c in s.clients && Resolves(s, c, id)
    requires var i := Lookup(s.clients[c].entries, id);
             i != null && s.invs[i].state == InvOpen ==> s.invs[i].target == c && ok
    ensures Stories(Decline(s, c, id, ok).0)
  {
    hide CoreInv, Stories, Story, Touches, Refs, Decline;
    DeclineKeeps(s, c, id, ok);
    RequestResolves(s, c, id);
    var i := Lookup(s.clients[c].entries, id);
    if i != null && CanClose(s.invs[i], NullRole) {
      var s' := Decline(s, c, id, ok).0;
      StoryAt(s, i);
      TouchedEnds(s, s', i);
      CoreRefs(s');
      RefsAt(s', i);
      DeclinedStory(s, s', i, IdOf(s.clients[s.invs[i].source].entries, i));
      TouchStories(s, s', i, [Sent(s.invs[i].source, DeclinedPkt, IdOf(s.clients[s.invs[i].source].entries, i), i, "")]);
    }
  }

  lemma AcceptStories(s: State, c: Client, id: int, g: Game)
    requires CoreInv(s) && Stories(s) && c in s.clients && Resolves(s, c, id) && g !in s.games
    ensures Stories(Accept(s, c, id, g, true).0)
  {
    hide CoreInv, Stories, Story, Only, SamePeople, Refs, Accept;
    AcceptKeeps(s, c, id, g, true);
    AcceptIs(s, c, id, g, true);
    RequestResolves(s, c, id);
    var i := Lookup(s.clients[c].entries, id);
    if i != null && s.invs[i].target == c && s.invs[i].state == InvOpen {
      var s' := Accept(s, c, id, g, true).0;
      var packetId := IdOf(s.clients[s.invs[i].source].entries, i);
      var text := if s.invs[i].targetRole == First then "" else FIRST_BOARD;
      StoryAt(s, i);
      CoreRefs(s');
      AllLinked(s');
      AcceptedStory(s, s', i, g, packetId, text);
      StoriesOnly(s, s', i, [Sent(s.invs[i].source, AcceptedPkt, packetId, i, text)]);
    }
  }

  lemma AllLinked(s: State)
    requires Refs(s)
    ensures forall i <- s.invs :: Linked(s, i)
  {
  }

  lemma InviteStories(s: State, c: Client, name: string, role: Role, i: Invitation)
    requires CoreInv(s) && Stories(s) && Active(s, c) && s.clients[c].player != null && i !in s.invs
    ensures Stories(Invite(s, c, name, role, i, true).0)
  {
    hide CoreInv, Story, Only, SamePeople, Refs, Invite;
    InviteIs(s, c, name, role, i, true);
    var d := LookupUser(s, s.registry, name);
    if d != null && d != c && role != NullRole {
      var s' := Invite(s, c, name, role, i, true).0;
      FoundIsIn(s, d, name);
      MadeKeeps(s, s', c, d, i, Other(role), role);
      CoreRefs(s');
      AllLinked(s');
      var id := LeastFree(Ids(s.clients[d].entries));
      MadeStory(s, s', c, d, i, Other(role), role, id, s.clients[c].player.name);
      StoriesOnly(s, s', i, [Sent(d, InvitedPkt(role), id, i, s.clients[c].player.name)]);
    }
  }

  lemma FoundIsIn(s: State, d: Client, name: string)
    requires CoreInv(s) && d in s.registry && IsUser(s, d, name)
    ensures s.clients[d].loggedIn
  {
  }

  lemma ResignStories(s: State, c: Client, id: int, ok: bool, pow: int -> PosReal)
    requires CoreInv(s) && Stories(s) && NoneStranded(s) && c in s.clients && Resolves(s, c, id)
    requires var i := Lookup(s.clients[c].entries, id); i != null && s.invs[i].state == InvAccepted ==> ok
    ensures Stories(Sessions.Resign(s, c, id, ok, pow).0)
  {
    hide CoreInv, Stories, Story, Touches, Refs, Sessions.Resign, NoneStranded, LiveOk, Rated;
    ResignKeeps(s, c, id, ok, pow);
    RequestResolves(s, c, id);
    var i := Lookup(s.clients[c].entries, id);
    if i != null && s.invs[i].state == InvAccepted {
      var s' := Sessions.Resign(s, c, id, ok, pow).0;
      StoryAt(s, i);
      LiveOkAt(s, i);
      TouchedEnds(s, s', i);
      CoreRefs(s');
      RefsAt(s', i);
      SameContestants(s, s', i);
      ResignedStory(s, s', c, i, pow);
      var d := Opponent(s.invs[i], c);
      var (p1, p2) := Seats(s, c, d, RoleOf(s.invs[i], c));
      TouchStories(s, s', i, [Sent(d, ResignedPkt, IdOf(s.clients[d].entries, i), i, ""),
                              Scored(i, p1, p2, Code(RoleOf(s.invs[i], d)))]);
    }
  }

  lemma MoveStories(s: State, c: Client, id: int, text: string, pow: int -> PosReal)
    requires CoreInv(s) && Stories(s) && NoneStranded(s) && c in s.clients && Resolves(s, c, id)
    ensures Stories(MakeMove(s, c, id, text, true, true, true, pow).0)
  {
    hide CoreInv, Stories, Story, Touches, Refs, MakeMove, NoneStranded, LiveOk, Rated, Apply, Moved;
    MoveKeeps(s, c, id, text, true, true, true, pow);
    RequestResolves(s, c, id);
    var i := Lookup(s.clients[c].entries, id);
    if i != null && s.invs[i].game != null && LegalMove(s, c, i, text).Some? {
      var s' := MakeMove(s, c, id, text, true, true, true, pow).0;
      var cell := LegalMove(s, c, i, text).value.cell;
      var g1 := Apply(s.games[s.invs[i].game], cell, RoleOf(s.invs[i], c));
      StoryAt(s, i);
      LiveOkAt(s, i);
      MoveInProgress(s, c, i, text);
      TouchedEnds(s, s', i);
      CoreRefs(s');
      RefsAt(s', i);
      SameContestants(s, s', i);
      MovedStory(s, s', c, id, i, cell, true, true, pow);
      MoveEvents(s, s', c, id, i, g1, pow);
      TouchStories(s, s', i, s'.log[|s.log|..]);
    }
  }

  lemma MoveEvents(s: State, s': State, c: Client, id: int, i: Invitation, g1: GameRec, pow: int -> PosReal)
    requires Linked(s, i) && IsPlayed(s.invs[i], c) && s.invs[i].game != null && Moved(s, s', c, id, i, g1, true, true, true, pow)
    ensures s.log <= s'.log && s'.log == s.log + s'.log[|s.log|..] && forall e <- s'.log[|s.log|..] :: e.inv == i
  {
    hide Rated;
  }

  /* ---------- coming and leaving ---------- */

  lemma QuietStory(s: State, s': State, i: Invitation)
    requires Linked(s, i) && Story(s, i) && Linked(s', i)
    requires s'.invs == s.invs && s'.games == s.games && s'.log == s.log
    requires s'.clients[s.invs[i].source].player == s.clients[s.invs[i].source].player
    requires s'.clients[s.invs[i].target].player == s.clients[s.invs[i].target].player
    ensures Story(s', i)
  {
    hide Story;
    assert s.log + [] == s.log;
    StoryKept(s, s', i, []);
  }

  /** A step that touches no invitation, game or packet, nor the player of any client with an
      invitation. */
  lemma QuietStories(s: State, s': State)
    requires Stories(s) && s'.invs == s.invs && s'.games == s.games && s'.log == s.log
    requires s.players.Keys <= s'.players.Keys && s.clients.Keys <= s'.clients.Keys
    requires forall i <- s.invs :: Linked(s', i)
    requires forall i <- s.invs :: s'.clients[s.invs[i].source].player == s.clients[s.invs[i].source].player
                                   && s'.clients[s.invs[i].target].player == s.clients[s.invs[i].target].player
    ensures Stories(s')
  {
    hide Story, Linked;
    assert LogKnown(s');
    forall i <- s'.invs
      ensures Linked(s', i) && Story(s', i)
    {
      StoryAt(s, i);
      QuietStory(s, s', i);
    }
  }

  lemma ConnectStories(s: State, c: Client)
    requires CoreInv(s) && Stories(s) && c !in s.clients
    ensures Stories(Connect(s, c))
  {
    hide CoreInv, Refs, Stories, Story;
    ConnectKeeps(s, c);
    CoreRefs(s);
    CoreRefs(Connect(s, c));
    AllLinked(s);
    AllLinked(Connect(s, c));
    QuietStories(s, Connect(s, c));
  }

  lemma EndsHavePlayers(s: State)
    requires Refs(s)
    ensures forall i <- s.invs :: Linked(s, i) && s.clients[s.invs[i].source].player != null && s.clients[s.invs[i].target].player != null
  {
  }

  lemma LoginStories(s: State, c: Client, p: Player)
    requires CoreInv(s) && Stories(s) && c in s.registry && c in s.clients
    ensures Stories(Login(s, c, p).0)
  {
    hide CoreInv, Refs, Stories, Story;
    LoginKeeps(s, c, p);
    CoreRefs(s);
    CoreRefs(Login(s, c, p).0);
    EndsHavePlayers(s);
    EndsHavePlayers(Login(s, c, p).0);
    QuietStories(s, Login(s, c, p).0);
  }

  lemma LeaveStories(s: State, s': State, c: Client)
    requires Stories(s) && LeaveStep(s, s', c) && Refs(s')
    ensures Stories(s')
  {
    hide Refs, Stories, Story;
    AllLinked(s');
    QuietStories(s, s');
  }

  /** One node's turn in the loop of client_logout, when its packet is sent. */
  lemma TurnStories(s: State, c: Client, e: Entry, lost: set<Invitation>, pow: int -> PosReal)
    requires CoreInv(s) && Stories(s) && NoneStranded(s) && c in s.clients && Sole(s.clients[c].entries, e)
    requires e.inv in s.invs && Resolves(s, c, e.id) && e.inv !in lost
    ensures Stories(LogoutOne(s, c, e, lost, pow)) && NoneStranded(LogoutOne(s, c, e, lost, pow))
  {
    hide CoreInv, Stories, NoneStranded, Revoke, Decline, Sessions.Resign;
    SoleLookup(s.clients[c].entries, e);
    RequestResolves(s, c, e.id);
    if s.invs[e.inv].game != null {
      ResignStories(s, c, e.id, true, pow);
      ResignStrands(s, c, e.id, true, pow);
    } else if s.invs[e.inv].source == c {
      RevokeStories(s, c, e.id, true);
      RevokeStrands(s, c, e.id, true);
    } else {
      DeclineStories(s, c, e.id, true);
      DeclineStrands(s, c, e.id, true);
    }
  }

  lemma {:induction false} LoopStories(s: State, c: Client, orig: seq<Entry>, todo: seq<Entry>, lost: set<Invitation>, pow: int -> PosReal)
    requires CoreInv(s) && Stories(s) && NoneStranded(s) && c in s.clients && Distinct(orig)
    requires forall x <- s.clients[c].entries :: x in orig
    requires forall e <- todo :: e in orig && e.inv in s.invs && e.inv !in lost
    requires Pending(s, c, todo)
    ensures Stories(LogoutAll(s, c, todo, lost, pow))
    decreases |todo|
  {
    hide CoreInv, Stories, NoneStranded, SamePeople, Pending, LogoutOne, Spared, Shrinks, TurnDone, ClosesOnly;
    if todo != [] {
      var e := todo[0];
      SoleIn(s.clients[c].entries, orig, e);
      RequestResolves(s, c, e.id);
      EntriesKnown(s, c);
      var s1 := LogoutOne(s, c, e, lost, pow);
      LogoutOneKeeps(s, c, e, lost, pow);
      PendingNext(s, s1, c, todo);
      AfterTurn(s, s1, c, e.inv, orig);
      TurnStories(s, c, e, lost, pow);
      LoopStories(s1, c, orig, todo[1..], lost, pow);
    }
  }

  lemma ExitStories(s: State, c: Client, lost: set<Invitation>, pow: int -> PosReal)
    requires CoreInv(s) && Stories(s) && NoneStranded(s) && c in s.registry && Known(s, c)
    requires s.clients[c].loggedIn <==> s.clients[c].player != null
    requires s.clients[c].loggedIn ==> forall e <- s.clients[c].entries :: e.inv !in lost
    ensures Stories(Exit(s, c, lost, pow))
  {
    hide CoreInv, Stories, NoneStranded, Exit, LeaveStep, SamePeople, Pending, LogoutAll;
    ExitKeeps(s, c, lost, pow);
    if s.clients[c].loggedIn {
      EntriesKnown(s, c);
      PendingAll(s, c);
      LoopStories(s, c, s.clients[c].entries, s.clients[c].entries, lost, pow);
    }
    CoreRefs(Exit(s, c, lost, pow));
    LeaveStories(AfterLoop(s, c, lost, pow), Exit(s, c, lost, pow), c);
  }

  /* ---------- whole runs ---------- */

  /** A careful step all of whose packets are sent. */
  predicate Delivered(s: State, t: Step)
    requires Ready(s, t)
  {
    && Careful(s, t)
    && match t
       case SInvite(_, _, _, _, ok) => ok
       case SDecline(_, _, ok) => ok
       case SAccept(_, _, _, ok) => ok
       case SMove(_, _, _, ok1, ok2, ok3) => ok1 && ok2 && ok3
       case SExit(c, lost) => forall e <- s.clients[c].entries :: e.inv !in lost
       case SConnect(_) => true
       case SLogin(_, _) => true
       case SRevoke(_, _, _) => true
       case SResign(_, _, _) => true
  }

  lemma InitialStories()
    ensures Stories(INITIAL) && NoneStranded(INITIAL)
  {
  }

  lemma StoryNext(s: State, t: Step, pow: int -> PosReal)
    requires CoreInv(s) && NoneStranded(s) && Stories(s) && Enabled(s, t) && Ready(s, t) && Delivered(s, t)
    ensures Stories(Next(s, t, pow))
  {
    hide CoreInv, NoneStranded, Stories, Revoke, Decline, Accept, Sessions.Resign, MakeMove, Exit, Login, Connect, Invite;
    match t
    case SConnect(c) => ConnectStories(s, c);
    case SLogin(c, p) => LoginStories(s, c, p);
    case SInvite(c, name, role, i, ok) => InviteStories(s, c, name, role, i);
    case SRevoke(c, id, ok) => RevokeStories(s, c, id, ok);
    case SDecline(c, id, ok) => DeclineStories(s, c, id, ok);
    case SAccept(c, id, g, ok) => AcceptStories(s, c, id, g);
    case SResign(c, id, ok) => ResignStories(s, c, id, ok, pow);
    case SMove(c, id, text, ok1, ok2, ok3) => MoveStories(s, c, id, text, pow);
    case SExit(c, lost) =>
      RegisteredClient(s, c);
      ExitStories(s, c, lost, pow);
  }

  /** Every step of a run is enabled and delivered when its turn comes. */
  ghost predicate AllDelivered(s: State, steps: seq<Step>, pow: int -> PosReal)
    decreases |steps|
  {
    steps == []
    || (Enabled(s, steps[0]) && Ready(s, steps[0]) && Delivered(s, steps[0])
        && AllDelivered(Next(s, steps[0], pow), steps[1..], pow))
  }

  lemma {:induction false} StoryRunFrom(s: State, steps: seq<Step>, pow: int -> PosReal)
    requires CoreInv(s) && NoneStranded(s) && Stories(s) && AllDelivered(s, steps, pow)
    ensures RunFrom(s, steps, pow).Some?
    ensures var s' := RunFrom(s, steps, pow).value; CoreInv(s') && NoneStranded(s') && Stories(s')
    decreases |steps|
  {
    hide CoreInv, NoneStranded, Stories, Next, Careful;
    if steps != [] {
      NextKeeps(s, steps[0], pow);
      StrandedExactly(s, steps[0], pow);
      StoryNext(s, steps[0], pow);
      StoryRunFrom(Next(s, steps[0], pow), steps[1..], pow);
    }
  }

  /** In every state reached by careful steps whose packets are sent, each invitation has its
      story: what its two ends were told, in order, and the results posted for it. */
  lemma StoryRun(steps: seq<Step>, pow: int -> PosReal)
    requires AllDelivered(INITIAL, steps, pow)
    ensures RunFrom(INITIAL, steps, pow).Some?
    ensures var s := RunFrom(INITIAL, steps, pow).value; CoreInv(s) && NoneStranded(s) && Stories(s)
  {
    hide CoreInv, NoneStranded, Stories, AllDelivered, RunFrom;
    InitialCore();
    InitialStories();
    StoryRunFrom(INITIAL, steps, pow);
  }
}
