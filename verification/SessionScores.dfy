/** Scoring and ratings over every run, whatever the network does and whichever side asks. */
module Scoring {
  import opened Basics
  import opened Games
  import opened Players
  import opened PlayerRegistries
  import opened Clients
  import opened Sessions
  import opened References
  import opened Steps
  import opened Joining
  import opened Leaving
  import opened Runs
  import opened Lifecycle
  import opened Stories

  /* ---------- adding up the ratings ---------- */

  function Surplus(players: map<Player, PlayerRec>, p: Player): int {
    if p in players then players[p].rating - INITIAL_RATING else 0
  }

  /** How far the ratings of all registered players are from where they started, in total. */
  function Off(players: map<Player, PlayerRec>, roster: seq<Player>): int {
    if roster == [] then 0 else Surplus(players, roster[0]) + Off(players, roster[1..])
  }

  lemma {:induction false} OffSame(a: map<Player, PlayerRec>, b: map<Player, PlayerRec>, roster: seq<Player>)
    requires forall p <- roster :: Surplus(a, p) == Surplus(b, p)
    ensures Off(a, roster) == Off(b, roster)
  {
    if roster != [] {
      assert forall p <- roster[1..] :: p in roster;
      assert roster[0] in roster;
      OffSame(a, b, roster[1..]);
    }
  }

  /** A player occurs at most once in the roster, so a changed rating counts at most once. */
  lemma {:induction false} OffUpdate(a: map<Player, PlayerRec>, b: map<Player, PlayerRec>, roster: seq<Player>, p: Player)
    requires NamesUnique(roster)
    requires forall q <- roster :: q != p ==> Surplus(a, q) == Surplus(b, q)
    ensures Off(b, roster) - Off(a, roster) == if p in roster then Surplus(b, p) - Surplus(a, p) else 0
  {
    if roster != [] {
      var rest := roster[1..];
      assert roster == [roster[0]] + rest;
      if roster[0] == p {
        forall q <- rest
          ensures Surplus(a, q) == Surplus(b, q)
        {
          var k :| 0 <= k < |rest| && rest[k] == q;
          assert roster[k + 1] == q;
        }
        OffSame(a, b, rest);
      } else {
        OffUpdate(a, b, rest, p);
      }
    }
  }

  lemma {:induction false} OffAppend(players: map<Player, PlayerRec>, roster: seq<Player>, p: Player)
    ensures Off(players, roster + [p]) == Off(players, roster) + Surplus(players, p)
  {
    if roster == [] {
      assert roster + [p] == [p];
    } else {
      assert (roster + [p])[1..] == roster[1..] + [p];
      OffAppend(players, roster[1..], p);
    }
  }

  /** One result between two registered players moves the total by at most one. */
  lemma RatedOff(players: map<Player, PlayerRec>, roster: seq<Player>, p1: Player, p2: Player, result: int, pow: int -> PosReal)
    requires NamesUnique(roster) && p1 in roster && p2 in roster && p1 != p2
    requires p1 in players && p2 in players && IsResult(result)
    ensures -1 <= Off(Rated(players, p1, p2, result, pow), roster) - Off(players, roster) <= 1
  {
    var (r1, r2) := (players[p1].rating, players[p2].rating);
    Drift(r1, r2, result, pow(r2 - r1));
    var n1 := NewRatings(r1, r2, result, pow(r2 - r1)).0;
    var half := players[p1 := players[p1].(rating := n1)];
    OffUpdate(players, half, roster, p1);
    OffUpdate(half, Rated(players, p1, p2, result, pow), roster, p2);
  }

  /* ---------- counting results ---------- */

  /** The number of results posted. */
  function Results(log: seq<Event>): nat {
    if log == [] then 0 else (if log[0].Scored? then 1 else 0) + Results(log[1..])
  }

  lemma {:induction false} ResultsAppend(log: seq<Event>, more: seq<Event>)
    ensures Results(log + more) == Results(log) + Results(more)
  {
    if log == [] {
      assert log + more == more;
    } else {
      assert (log + more)[1..] == log[1..] + more;
      ResultsAppend(log[1..], more);
    }
  }

  lemma {:induction false} PacketsScoreNothing(notes: seq<Event>, i: Invitation)
    requires forall e <- notes :: e.Sent?
    ensures Scores(notes, i) == [] && Results(notes) == 0
  {
    if notes != [] {
      assert notes[0] in notes;
      PacketsScoreNothing(notes[1..], i);
    }
  }

  /** An accepted invitation that has left the lists. */
  predicate PlayedOut(r: InvRec) {
    r.game != null && r.ref <= 0
  }

  /** An invitation is scored exactly once if it was accepted and has left the lists, and otherwise
      not at all. */
  ghost predicate ScoredOnce(s: State, i: Invitation)
    requires i in s.invs
  {
    |Scores(s.log, i)| == if PlayedOut(s.invs[i]) then 1 else 0
  }

  /** The total of the ratings is within the number of results posted of 1500 for each player. */
  ghost predicate RatingsWithin(s: State) {
    -(Results(s.log) as int) <= Off(s.players, s.roster) <= Results(s.log)
  }

  /* ---------- replaying the log ---------- */

  /** A player's rating after the results in the log, everyone having started with 1500. */
  function RatingAfter(log: seq<Event>, p: Player, pow: int -> PosReal): int
    decreases |log|
  {
    if log == [] then INITIAL_RATING
    else
      var (before, e) := (log[..|log| - 1], log[|log| - 1]);
      if !e.Scored? || !IsResult(e.result) || (p != e.player1 && p != e.player2) then RatingAfter(before, p, pow)
      else
        var (r1, r2) := (RatingAfter(before, e.player1, pow), RatingAfter(before, e.player2, pow));
        var (n1, n2) := NewRatings(r1, r2, e.result, pow(r2 - r1));
        if p == e.player2 then n2 else n1
  }

  /** Every rating is what the posted results make it, and nothing else has touched it. */
  ghost predicate Replayed(s: State, pow: int -> PosReal) {
    && (forall e <- s.log :: e.Scored? ==> e.player1 in s.players && e.player2 in s.players)
    && forall p <- s.players :: s.players[p].rating == RatingAfter(s.log, p, pow)
  }

  lemma {:induction false} PacketsRateNothing(log: seq<Event>, notes: seq<Event>, p: Player, pow: int -> PosReal)
    requires forall e <- notes :: e.Sent?
    ensures RatingAfter(log + notes, p, pow) == RatingAfter(log, p, pow)
    decreases |notes|
  {
    if notes == [] {
      assert log + notes == log;
    } else {
      var n := |notes| - 1;
      assert (log + notes)[..|log + notes| - 1] == log + notes[..n];
      assert (log + notes)[|log + notes| - 1] == notes[n] && notes[n] in notes;
      PacketsRateNothing(log, notes[..n], p, pow);
    }
  }

  /** Who has not played has the rating of a beginner. */
  lemma {:induction false} BeginnerRating(log: seq<Event>, p: Player, pow: int -> PosReal)
    requires forall e <- log :: e.Scored? ==> e.player1 != p && e.player2 != p
    ensures RatingAfter(log, p, pow) == INITIAL_RATING
    decreases |log|
  {
    if log != [] {
      assert log[|log| - 1] in log;
      BeginnerRating(log[..|log| - 1], p, pow);
    }
  }

  lemma ReplayPackets(s: State, s': State, notes: seq<Event>, pow: int -> PosReal)
    requires Replayed(s, pow) && s'.log == s.log + notes && s'.players == s.players && forall e <- notes :: e.Sent?
    ensures Replayed(s', pow)
  {
    forall p <- s.players
      ensures s'.players[p].rating == RatingAfter(s'.log, p, pow)
    {
      PacketsRateNothing(s.log, notes, p, pow);
    }
    assert forall e <- s'.log :: e in s.log || e in notes;
  }

  /** What one more result does to each rating. */
  lemma RatingNext(log: seq<Event>, i: Invitation, p1: Player, p2: Player, result: int, p: Player, pow: int -> PosReal)
    requires IsResult(result)
    ensures var (r1, r2) := (RatingAfter(log, p1, pow), RatingAfter(log, p2, pow));
            var (n1, n2) := NewRatings(r1, r2, result, pow(r2 - r1));
            RatingAfter(log + [Scored(i, p1, p2, result)], p, pow)
            == if p == p2 then n2 else if p == p1 then n1 else RatingAfter(log, p, pow)
  {
    hide NewRatings;
    var next := log + [Scored(i, p1, p2, result)];
    assert next[..|next| - 1] == log && next[|next| - 1] == Scored(i, p1, p2, result);
  }

  lemma RatedAt(players: map<Player, PlayerRec>, p1: Player, p2: Player, result: int, p: Player, pow: int -> PosReal)
    requires p1 in players && p2 in players && p in players && IsResult(result) && p1 != p2
    ensures var (r1, r2) := (players[p1].rating, players[p2].rating);
            var (n1, n2) := NewRatings(r1, r2, result, pow(r2 - r1));
            Rated(players, p1, p2, result, pow)[p].rating == if p == p2 then n2 else if p == p1 then n1 else players[p].rating
    ensures Rated(players, p1, p2, result, pow).Keys == players.Keys
  {
    hide NewRatings;
  }

  lemma ReplayScore(s: State, s': State, notes: seq<Event>, i: Invitation, p1: Player, p2: Player, result: int, pow: int -> PosReal)
    requires Replayed(s, pow) && s'.log == s.log + (notes + [Scored(i, p1, p2, result)]) && forall e <- notes :: e.Sent?
    requires p1 in s.players && p2 in s.players && p1 != p2 && IsResult(result)
    requires s'.players == Rated(s.players, p1, p2, result, pow)
    ensures Replayed(s', pow)
  {
    hide NewRatings, RatingAfter, Rated, IsResult;
    var score := Scored(i, p1, p2, result);
    assert s'.log == (s.log + notes) + [score];
    PacketsRateNothing(s.log, notes, p1, pow);
    PacketsRateNothing(s.log, notes, p2, pow);
    RatedAt(s.players, p1, p2, result, p1, pow);
    forall p <- s'.players
      ensures s'.players[p].rating == RatingAfter(s'.log, p, pow)
    {
      PacketsRateNothing(s.log, notes, p, pow);
      RatingNext(s.log + notes, i, p1, p2, result, p, pow);
      RatedAt(s.players, p1, p2, result, p, pow);
    }
    assert forall e <- s'.log :: e in s.log || e in notes || e == score;
  }

  lemma ReplaySame(s: State, s': State, pow: int -> PosReal)
    requires Replayed(s, pow) && s'.log == s.log
    requires forall p <- s.players :: p in s'.players && s'.players[p].rating == s.players[p].rating
    requires forall p <- s'.players :: p in s.players || s'.players[p].rating == INITIAL_RATING
    ensures Replayed(s', pow)
  {
    forall p <- s'.players
      ensures s'.players[p].rating == RatingAfter(s'.log, p, pow)
    {
      if p !in s.players {
        BeginnerRating(s.log, p, pow);
      }
    }
  }

  ghost predicate Fair(s: State, pow: int -> PosReal) {
    LogKnown(s) && (forall i <- s.invs :: ScoredOnce(s, i)) && RatingsWithin(s) && Replayed(s, pow)
  }

  /* ---------- what a step adds ---------- */

  lemma ScoredKept(s: State, s': State, j: Invitation, events: seq<Event>)
    requires j in s.invs && ScoredOnce(s, j) && j in s'.invs && s'.log == s.log + events
    requires Scores(events, j) == [] && (PlayedOut(s'.invs[j]) <==> PlayedOut(s.invs[j]))
    ensures ScoredOnce(s', j)
  {
    TraceAppend(s.log, events, s.invs[j].source, j);
  }

  lemma LogKept(s: State, s': State, events: seq<Event>)
    requires LogKnown(s) && s'.log == s.log + events && s.invs.Keys <= s'.invs.Keys && forall e <- events :: e.inv in s'.invs
    ensures LogKnown(s')
  {
    forall e <- s'.log
      ensures e.inv in s'.invs
    {
      assert e in s.log || e in events;
    }
  }

  /** A step about a live invitation that sends packets only; the invitation stays in a list or has
      no game. */
  lemma QuietFair(s: State, s': State, i: Invitation, notes: seq<Event>, pow: int -> PosReal)
    requires Fair(s, pow) && Touches(s, s', i) && s.invs[i].ref > 0
    requires s.invs[i].game == null || s'.invs[i].ref > 0
    requires s'.log == s.log + notes && forall e <- notes :: e.Sent? && e.inv == i
    requires s'.players == s.players
    ensures Fair(s', pow)
  {
    ResultsAppend(s.log, notes);
    LogKept(s, s', notes);
    forall j <- s'.invs
      ensures ScoredOnce(s', j)
    {
      PacketsScoreNothing(notes, j);
      assert j != i ==> SameInv(s, s', j);
      ScoredKept(s, s', j, notes);
    }
    PacketsScoreNothing(notes, i);
    ReplayPackets(s, s', notes, pow);
  }

  lemma ScoreIsNew(s: State, s': State, i: Invitation, notes: seq<Event>, score: Event, j: Invitation)
    requires i in s.invs && s.invs[i].ref > 0 && j in s.invs && ScoredOnce(s, j) && j in s'.invs
    requires i in s'.invs && s'.invs[i].ref == 0 && s'.invs[i].game != null && (j != i ==> s'.invs[j] == s.invs[j])
    requires s'.log == s.log + (notes + [score]) && (forall e <- notes :: e.Sent? && e.inv == i) && score.Scored? && score.inv == i
    ensures ScoredOnce(s', j)
  {
    PacketsScoreNothing(notes, j);
    TraceAppend(notes, [score], s.invs[i].source, j);
    TraceOne(score, s.invs[i].source, j);
    TraceAppend(s.log, notes + [score], s.invs[i].source, j);
  }

  lemma OthersSame(s: State, s': State, i: Invitation, j: Invitation)
    requires Touches(s, s', i) && j in s'.invs
    ensures i in s'.invs && j in s.invs && (j != i ==> s'.invs[j] == s.invs[j])
    ensures s'.roster == s.roster && s'.invs.Keys == s.invs.Keys
  {
    assert j in s.invs && j != i ==> SameInv(s, s', j);
  }

  /** A step that ends with the result of a live invitation, which leaves the lists. */
  lemma ScoredFair(s: State, s': State, i: Invitation, notes: seq<Event>, p1: Player, p2: Player, result: int, pow: int -> PosReal)
    requires Fair(s, pow) && Touches(s, s', i) && s.invs[i].ref > 0 && s'.invs[i].ref == 0 && s.invs[i].game != null
    requires s'.log == s.log + (notes + [Scored(i, p1, p2, result)]) && forall e <- notes :: e.Sent? && e.inv == i
    requires NamesUnique(s.roster) && p1 in s.roster && p2 in s.roster && p1 != p2
    requires p1 in s.players && p2 in s.players && IsResult(result)
    requires s'.players == Rated(s.players, p1, p2, result, pow)
    ensures Fair(s', pow)
  {
    hide Rated, Touches, LogKnown, ScoredOnce, Off, NamesUnique, Scores, Replayed;
    ReplayScore(s, s', notes, i, p1, p2, result, pow);
    var score := Scored(i, p1, p2, result);
    TouchedEnds(s, s', i);
    OthersSame(s, s', i, i);
    ResultsAppend(s.log, notes + [score]);
    ResultsAppend(notes, [score]);
    PacketsScoreNothing(notes, i);
    RatedOff(s.players, s.roster, p1, p2, result, pow);
    LogKept(s, s', notes + [score]);
    forall j <- s'.invs
      ensures ScoredOnce(s', j)
    {
      OthersSame(s, s', i, j);
      ScoreIsNew(s, s', i, notes, score, j);
    }
  }

  /** A step that leaves live invitations, ratings and the log alone. */
  lemma StillFair(s: State, s': State, pow: int -> PosReal)
    requires Fair(s, pow) && s'.invs == s.invs && s'.log == s.log && Off(s'.players, s'.roster) == Off(s.players, s.roster)
    requires forall p <- s.players :: p in s'.players && s'.players[p].rating == s.players[p].rating
    requires forall p <- s'.players :: p in s.players || s'.players[p].rating == INITIAL_RATING
    ensures Fair(s', pow)
  {
    ReplaySame(s, s', pow);
    forall i <- s'.invs
      ensures ScoredOnce(s', i)
    {
      assert ScoredOnce(s, i);
    }
  }

  /* ---------- every operation ---------- */

  lemma RevokeFair(s: State, c: Client, id: int, ok: bool, pow: int -> PosReal)
    requires CoreInv(s) && Fair(s, pow) && c in s.clients && Resolves(s, c, id)
    ensures Fair(Revoke(s, c, id, ok).0, pow)
  {
    hide CoreInv, Refs, Fair, Touches, Revoke, InvOk, HeldOk, Held, Lookup, IdOf;
    RevokeKeeps(s, c, id, ok);
    RequestResolves(s, c, id);
    var i := Lookup(s.clients[c].entries, id);
    if i != null && CanClose(s.invs[i], NullRole) {
      var d := s.invs[i].target;
      QuietFair(s, Revoke(s, c, id, ok).0, i, PacketIf(ok, Sent(d, RevokedPkt, IdOf(s.clients[d].entries, i), i, "")), pow);
    }
  }

  function PacketIf(ok: bool, packet: Event): seq<Event> {
    if ok then [packet] else []
  }

  lemma DeclineFair(s: State, c: Client, id: int, ok: bool, pow: int -> PosReal)
    requires CoreInv(s) && Fair(s, pow) && c in s.clients && Resolves(s, c, id)
    ensures Fair(Decline(s, c, id, ok).0, pow)
  {
    hide CoreInv, Refs, Fair, Touches, Decline, InvOk, HeldOk, Held, Lookup, IdOf;
    DeclineKeeps(s, c, id, ok);
    RequestResolves(s, c, id);
    var i := Lookup(s.clients[c].entries, id);
    if i != null && CanClose(s.invs[i], NullRole) {
      var d := s.invs[i].source;
      QuietFair(s, Decline(s, c, id, ok).0, i, PacketIf(ok, Sent(d, DeclinedPkt, IdOf(s.clients[d].entries, i), i, "")), pow);
    }
  }

  /** The two players of an invitation are registered and different. */
  lemma Opponents(s: State, i: Invitation, c: Client)
    requires CoreInv(s) && i in s.invs && Linked(s, i) && IsPlayed(s.invs[i], c)
    ensures var (p1, p2) := Seats(s, c, Opponent(s.invs[i], c), RoleOf(s.invs[i], c));
            p1 != null && p2 != null && p1 in s.roster && p2 in s.roster && p1 != p2
    ensures NamesUnique(s.roster)
  {
    assert InvOk(s, i);
  }

  lemma ResignFair(s: State, c: Client, id: int, ok: bool, pow: int -> PosReal)
    requires CoreInv(s) && Fair(s, pow) && c in s.clients && Resolves(s, c, id)
    ensures Fair(Sessions.Resign(s, c, id, ok, pow).0, pow)
  {
    hide CoreInv, Fair, Touches, Sessions.Resign, Steps.Resigned;
    ResignKeeps(s, c, id, ok, pow);
    RequestResolves(s, c, id);
    var i := Lookup(s.clients[c].entries, id);
    if i != null && s.invs[i].state == InvAccepted {
      ResignedFair(s, Sessions.Resign(s, c, id, ok, pow).0, c, i, ok, pow);
    }
  }

  lemma ResignedFair(s: State, s': State, c: Client, i: Invitation, ok: bool, pow: int -> PosReal)
    requires CoreInv(s) && Fair(s, pow) && Linked(s, i) && IsPlayed(s.invs[i], c) && s.invs[i].game != null && s.invs[i].ref > 0
    requires Touches(s, s', i) && Steps.Resigned(s, s', c, i, ok, pow)
    ensures Fair(s', pow)
  {
    hide CoreInv, Fair, Touches, Rated, NamesUnique;
    if ok {
      Opponents(s, i, c);
      var d := Opponent(s.invs[i], c);
      var (p1, p2) := Seats(s, c, d, RoleOf(s.invs[i], c));
      var packet := Sent(d, ResignedPkt, IdOf(s.clients[d].entries, i), i, "");
      var result := Code(RoleOf(s.invs[i], d));
      assert [packet] + [Scored(i, p1, p2, result)] == [packet, Scored(i, p1, p2, result)];
      ScoredFair(s, s', i, [packet], p1, p2, result, pow);
    } else {
      QuietFair(s, s', i, [], pow);
    }
  }

  lemma NotesArePackets(s: State, c: Client, i: Invitation, id: int, g1: GameRec, ok1: bool, ok2: bool, ok3: bool)
    requires Linked(s, i)
    ensures forall e <- MoveNotes(s, c, i, id, g1, ok1, ok2, ok3) :: e.Sent? && e.inv == i
  {
  }

  lemma MoveFair(s: State, c: Client, id: int, text: string, ok1: bool, ok2: bool, ok3: bool, pow: int -> PosReal)
    requires CoreInv(s) && Fair(s, pow) && c in s.clients && Resolves(s, c, id)
    ensures Fair(MakeMove(s, c, id, text, ok1, ok2, ok3, pow).0, pow)
  {
    hide CoreInv, Fair, Touches, MakeMove, Rated, NamesUnique, Apply, MoveNotes;
    MoveKeeps(s, c, id, text, ok1, ok2, ok3, pow);
    RequestResolves(s, c, id);
    var i := Lookup(s.clients[c].entries, id);
    if i != null && s.invs[i].game != null && LegalMove(s, c, i, text).Some? {
      var s' := MakeMove(s, c, id, text, ok1, ok2, ok3, pow).0;
      var g1 := Apply(s.games[s.invs[i].game], LegalMove(s, c, i, text).value.cell, RoleOf(s.invs[i], c));
      MovedFair(s, s', c, id, i, g1, ok1, ok2, ok3, pow);
    }
  }

  lemma MovedFair(s: State, s': State, c: Client, id: int, i: Invitation, g1: GameRec,
                  ok1: bool, ok2: bool, ok3: bool, pow: int -> PosReal)
    requires CoreInv(s) && Fair(s, pow) && Linked(s, i) && IsPlayed(s.invs[i], c) && s.invs[i].game != null && s.invs[i].ref > 0
    requires Touches(s, s', i) && Moved(s, s', c, id, i, g1, ok1, ok2, ok3, pow)
    ensures Fair(s', pow)
  {
    hide CoreInv, Fair, Touches, Rated, NamesUnique, MoveNotes;
    var notes := MoveNotes(s, c, i, id, g1, ok1, ok2, ok3);
    NotesArePackets(s, c, i, id, g1, ok1, ok2, ok3);
    if Finishes(g1, ok1, ok2, ok3) {
      Opponents(s, i, c);
      var (p1, p2) := Seats(s, c, Opponent(s.invs[i], c), RoleOf(s.invs[i], c));
      var score := Scored(i, p1, p2, Code(g1.winner));
      assert s.log + notes + [score] == s.log + (notes + [score]);
      ScoredFair(s, s', i, notes, p1, p2, Code(g1.winner), pow);
    } else {
      assert s.log + notes + [] == s.log + notes;
      QuietFair(s, s', i, notes, pow);
    }
  }

  /** A step that adds an invitation or leaves it as live as it was, and sends one packet at most. */
  lemma NewsFair(s: State, s': State, i: Invitation, notes: seq<Event>, pow: int -> PosReal)
    requires Fair(s, pow) && Only(s, s', i) && i in s'.invs && (forall j <- s'.invs :: j in s.invs || j == i)
    requires s'.invs[i].ref > 0 && (i in s.invs ==> s.invs[i].ref > 0)
    requires s'.log == s.log + notes && forall e <- notes :: e.Sent? && e.inv == i
    requires s'.players == s.players && s'.roster == s.roster
    ensures Fair(s', pow)
  {
    ResultsAppend(s.log, notes);
    LogKept(s, s', notes);
    forall j <- s'.invs
      ensures ScoredOnce(s', j)
    {
      PacketsScoreNothing(notes, j);
      if j in s.invs {
        assert j != i ==> SameInv(s, s', j);
        ScoredKept(s, s', j, notes);
      } else {
        TraceElsewhere(s.log, s'.invs[i].source, i);
        TraceAppend(s.log, notes, s'.invs[i].source, i);
      }
    }
    PacketsScoreNothing(notes, i);
    ReplayPackets(s, s', notes, pow);
  }

  lemma AcceptFair(s: State, c: Client, id: int, g: Game, ok: bool, pow: int -> PosReal)
    requires CoreInv(s) && Fair(s, pow) && c in s.clients && Resolves(s, c, id) && g !in s.games
    ensures Fair(Accept(s, c, id, g, ok).0, pow)
  {
    hide CoreInv, Refs, Fair, Only, SamePeople, Accept, AcceptedStep, InvOk, HeldOk, Held, Lookup, IdOf;
    AcceptKeeps(s, c, id, g, ok);
    AcceptIs(s, c, id, g, ok);
    RequestResolves(s, c, id);
    var i := Lookup(s.clients[c].entries, id);
    if i != null && s.invs[i].target == c && s.invs[i].state == InvOpen {
      var text := if s.invs[i].targetRole == First then "" else FIRST_BOARD;
      var packet := Sent(s.invs[i].source, AcceptedPkt, IdOf(s.clients[s.invs[i].source].entries, i), i, text);
      AcceptedFair(s, Accept(s, c, id, g, ok).0, i, g, PacketIf(ok, packet), pow);
    }
  }

  lemma AcceptedFair(s: State, s': State, i: Invitation, g: Game, notes: seq<Event>, pow: int -> PosReal)
    requires Fair(s, pow) && Only(s, s', i) && AcceptedStep(s, s', i, g) && s.invs[i].ref > 0
    requires s'.log == s.log + notes && forall e <- notes :: e.Sent? && e.inv == i
    ensures Fair(s', pow)
  {
    hide Fair, Only;
    NewsFair(s, s', i, notes, pow);
  }

  lemma InviteFair(s: State, c: Client, name: string, role: Role, i: Invitation, ok: bool, pow: int -> PosReal)
    requires CoreInv(s) && Fair(s, pow) && Active(s, c) && s.clients[c].player != null && i !in s.invs
    ensures Fair(Invite(s, c, name, role, i, ok).0, pow)
  {
    hide CoreInv, Fair, Only, SamePeople, Invite;
    InviteIs(s, c, name, role, i, ok);
    var d := LookupUser(s, s.registry, name);
    if d != null && d != c && role != NullRole {
      var s' := Invite(s, c, name, role, i, ok).0;
      FoundIsIn(s, d, name);
      MadeKeeps(s, s', c, d, i, Other(role), role);
      NewsFair(s, s', i,
               if ok then [Sent(d, InvitedPkt(role), LeastFree(Ids(s.clients[d].entries)), i, s.clients[c].player.name)] else [], pow);
    }
  }

  /** Registration adds at most one player, who starts with the initial rating. */
  lemma RegisteringFair(s: State, p: Player, pow: int -> PosReal)
    requires Fair(s, pow) && CoreInv(s)
    ensures Fair(Registering(s, p), pow)
  {
    hide Fair, CoreInv;
    RegisteredKnown(s, p);
    var s' := Registering(s, p);
    OffSame(s.players, s'.players, s.roster);
    OffAppend(s'.players, s.roster, p);
    StillFair(s, s', pow);
  }

  lemma LoggingInFair(s: State, c: Client, q: Player, pow: int -> PosReal)
    requires Fair(s, pow) && c in s.clients && q in s.players
    ensures Fair(LoggingIn(s, c, q), pow)
  {
    hide Fair;
    var s' := LoggingIn(s, c, q);
    OffSame(s.players, s'.players, s.roster);
    StillFair(s, s', pow);
  }

  lemma LoginFair(s: State, c: Client, p: Player, pow: int -> PosReal)
    requires Fair(s, pow) && CoreInv(s) && c in s.clients
    ensures Fair(Login(s, c, p).0, pow)
  {
    hide Fair, CoreInv, Login, LoginStep, Registering, LoggingIn;
    LoginIs(s, c, p);
    RegisteringFair(s, p, pow);
    if s.clients[c].player == null && p.name != "" {
      LoggingInFair(Registering(s, p), c, Answer(s.roster, p), pow);
    }
  }

  lemma LeaveFair(s: State, s': State, c: Client, pow: int -> PosReal)
    requires Fair(s, pow) && LeaveStep(s, s', c)
    ensures Fair(s', pow)
  {
    hide Fair;
    OffSame(s.players, s'.players, s.roster);
    StillFair(s, s', pow);
  }

  lemma TurnFair(s: State, c: Client, e: Entry, lost: set<Invitation>, pow: int -> PosReal)
    requires CoreInv(s) && Fair(s, pow) && c in s.clients && e.inv in s.invs && Resolves(s, c, e.id)
    ensures Fair(LogoutOne(s, c, e, lost, pow), pow)
  {
    hide CoreInv, Fair, Revoke, Decline, Sessions.Resign;
    var ok := e.inv !in lost;
    ResignFair(s, c, e.id, ok, pow);
    RevokeFair(s, c, e.id, ok, pow);
    DeclineFair(s, c, e.id, ok, pow);
  }

  lemma {:induction false} LoopFair(s: State, c: Client, orig: seq<Entry>, todo: seq<Entry>, lost: set<Invitation>, pow: int -> PosReal)
    requires CoreInv(s) && Fair(s, pow) && c in s.clients && Distinct(orig)
    requires forall x <- s.clients[c].entries :: x in orig
    requires forall e <- todo :: e in orig && e.inv in s.invs
    requires Pending(s, c, todo)
    ensures Fair(LogoutAll(s, c, todo, lost, pow), pow)
    decreases |todo|
  {
    hide CoreInv, Fair, SamePeople, Pending, LogoutOne, Spared, Shrinks, TurnDone, ClosesOnly;
    if todo != [] {
      var e := todo[0];
      SoleIn(s.clients[c].entries, orig, e);
      RequestResolves(s, c, e.id);
      EntriesKnown(s, c);
      var s1 := LogoutOne(s, c, e, lost, pow);
      LogoutOneKeeps(s, c, e, lost, pow);
      PendingNext(s, s1, c, todo);
      AfterTurn(s, s1, c, e.inv, orig);
      TurnFair(s, c, e, lost, pow);
      LoopFair(s1, c, orig, todo[1..], lost, pow);
    }
  }

  lemma ExitFair(s: State, c: Client, lost: set<Invitation>, pow: int -> PosReal)
    requires CoreInv(s) && Fair(s, pow) && c in s.registry && Known(s, c)
    requires s.clients[c].loggedIn <==> s.clients[c].player != null
    ensures Fair(Exit(s, c, lost, pow), pow)
  {
    hide CoreInv, Fair, Exit, LeaveStep, SamePeople, Pending, LogoutAll;
    ExitKeeps(s, c, lost, pow);
    if s.clients[c].loggedIn {
      EntriesKnown(s, c);
      PendingAll(s, c);
      LoopFair(s, c, s.clients[c].entries, s.clients[c].entries, lost, pow);
    }
    LeaveFair(AfterLoop(s, c, lost, pow), Exit(s, c, lost, pow), c, pow);
  }

  /* ---------- whole runs ---------- */

  lemma FairNext(s: State, t: Step, pow: int -> PosReal)
    requires CoreInv(s) && Fair(s, pow) && Enabled(s, t) && Ready(s, t)
    ensures Fair(Next(s, t, pow), pow)
  {
    hide CoreInv, Fair, Revoke, Decline, Accept, Sessions.Resign, MakeMove, Exit, Login, Invite;
    match t
    case SConnect(c) => StillFair(s, Connect(s, c), pow);
    case SLogin(c, p) => LoginFair(s, c, p, pow);
    case SInvite(c, name, role, i, ok) => InviteFair(s, c, name, role, i, ok, pow);
    case SRevoke(c, id, ok) => RevokeFair(s, c, id, ok, pow);
    case SDecline(c, id, ok) => DeclineFair(s, c, id, ok, pow);
    case SAccept(c, id, g, ok) => AcceptFair(s, c, id, g, ok, pow);
    case SResign(c, id, ok) => ResignFair(s, c, id, ok, pow);
    case SMove(c, id, text, ok1, ok2, ok3) => MoveFair(s, c, id, text, ok1, ok2, ok3, pow);
    case SExit(c, lost) =>
      RegisteredClient(s, c);
      ExitFair(s, c, lost, pow);
  }

  lemma {:induction false} FairRunFrom(s: State, steps: seq<Step>, pow: int -> PosReal)
    requires CoreInv(s) && Fair(s, pow)
    ensures RunFrom(s, steps, pow).Some? ==> Fair(RunFrom(s, steps, pow).value, pow)
    decreases |steps|
  {
    hide CoreInv, Fair, Next;
    if steps != [] && Enabled(s, steps[0]) && Ready(s, steps[0]) {
      NextKeeps(s, steps[0], pow);
      FairNext(s, steps[0], pow);
      FairRunFrom(Next(s, steps[0], pow), steps[1..], pow);
    }
  }

  /** In every reachable state, whatever was lost on the way, an invitation has been scored exactly
      once if it was accepted and has left the lists, and otherwise not at all; every rating is
      what replaying the posted results gives; and the total of the ratings is within the number
      of results posted of 1500 for each registered player. */
  lemma FairRun(steps: seq<Step>, pow: int -> PosReal)
    ensures RunFrom(INITIAL, steps, pow).Some? ==>
              var s := RunFrom(INITIAL, steps, pow).value;
              && (forall i <- s.invs :: |Scores(s.log, i)| == if s.invs[i].game != null && s.invs[i].ref == 0 then 1 else 0)
              && (forall p <- s.players :: s.players[p].rating == RatingAfter(s.log, p, pow))
              && -(Results(s.log) as int) <= Off(s.players, s.roster) <= Results(s.log)
  {
    hide RunFrom, CoreInv, Scores, RatingAfter;
    InitialCore();
    InitialFair(pow);
    FairRunFrom(INITIAL, steps, pow);
    EveryRun(steps, pow);
    if RunFrom(INITIAL, steps, pow).Some? {
      var s := RunFrom(INITIAL, steps, pow).value;
      assert Fair(s, pow);
      forall i <- s.invs
        ensures |Scores(s.log, i)| == if s.invs[i].game != null && s.invs[i].ref == 0 then 1 else 0
      {
        assert ScoredOnce(s, i);
        RefNonNegative(s, i);
      }
    }
  }

  lemma InitialFair(pow: int -> PosReal)
    ensures Fair(INITIAL, pow)
  {
  }
}
