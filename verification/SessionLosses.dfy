/** Careful runs in which packets are lost: what each side is told is its story with gaps. */
module Losses {
  import opened Basics
  import opened Games
  import opened GameText
  import opened Players
  import opened Clients
  import opened ClientRegistries
  import opened Sessions
  import opened References
  import opened Steps
  import opened Leaving
  import opened Runs
  import opened Lifecycle
  import opened Stories

  /* ---------- gaps ---------- */

  /** A sequence with some elements left out. */
  ghost predicate Sub(a: seq<Kind>, b: seq<Kind>)
    decreases |b|
  {
    if b == [] then a == []
    else
      var n := |b| - 1;
      Sub(a, b[..n]) || (a != [] && a[|a| - 1] == b[n] && Sub(a[..|a| - 1], b[..n]))
  }

  /** A log with some of its packets left out, and none of its results. */
  ghost predicate Losing(a: seq<Event>, b: seq<Event>)
    decreases |b|
  {
    if b == [] then a == []
    else
      var n := |b| - 1;
      (b[n].Sent? && Losing(a, b[..n])) || (a != [] && a[|a| - 1] == b[n] && Losing(a[..|a| - 1], b[..n]))
  }

  lemma LosingBoth(a: seq<Event>, b: seq<Event>, e: Event)
    requires Losing(a, b)
    ensures Losing(a + [e], b + [e])
  {
    assert (a + [e])[..|a|] == a && (b + [e])[..|b|] == b;
  }

  lemma LosingOne(a: seq<Event>, b: seq<Event>, e: Event)
    requires Losing(a, b) && e.Sent?
    ensures Losing(a, b + [e])
  {
    assert (b + [e])[..|b|] == b;
  }

  lemma {:induction false} LosingAll(a: seq<Event>, b: seq<Event>, more: seq<Event>)
    requires Losing(a, b)
    ensures Losing(a + more, b + more)
    decreases |more|
  {
    if more == [] {
      assert a + more == a && b + more == b;
    } else {
      LosingBoth(a, b, more[0]);
      LosingAll(a + [more[0]], b + [more[0]], more[1..]);
      assert a + [more[0]] + more[1..] == a + more && b + [more[0]] + more[1..] == b + more;
    }
  }

  lemma SubBoth(a: seq<Kind>, b: seq<Kind>, k: Kind)
    requires Sub(a, b)
    ensures Sub(a + [k], b + [k]) && Sub(a, b + [k])
  {
    assert (a + [k])[..|a|] == a && (b + [k])[..|b|] == b;
  }

  /** What a client was told about an invitation has gaps; the results are all there. */
  lemma {:induction false} LosingTraces(a: seq<Event>, b: seq<Event>, c: Client, i: Invitation)
    requires Losing(a, b)
    ensures Sub(Trace(a, c, i), Trace(b, c, i)) && Scores(a, i) == Scores(b, i)
    decreases |b|
  {
    hide Trace, Scores;
    if b == [] {
      Nothing(c, i);
    } else {
      var (n, e) := (|b| - 1, b[|b| - 1]);
      assert b == b[..n] + [e];
      TraceSnoc(b[..n], e, c, i);
      assert Trace(b[..n], c, i) + [] == Trace(b[..n], c, i) && Scores(b[..n], i) + [] == Scores(b[..n], i);
      if e.Sent? && Losing(a, b[..n]) {
        LosingTraces(a, b[..n], c, i);
        SubBoth(Trace(a, c, i), Trace(b[..n], c, i), e.kind);
      } else {
        var a1 := a[..|a| - 1];
        assert a == a1 + [e];
        TraceSnoc(a1, e, c, i);
        assert Trace(a1, c, i) + [] == Trace(a1, c, i) && Scores(a1, i) + [] == Scores(a1, i);
        LosingTraces(a1, b[..n], c, i);
        if e.Sent? {
          SubBoth(Trace(a1, c, i), Trace(b[..n], c, i), e.kind);
        }
      }
    }
  }

  lemma Nothing(c: Client, i: Invitation)
    ensures Trace([], c, i) == [] && Scores([], i) == [] && Sub([], [])
  {
  }

  /* ---------- two states that differ in lost packets ---------- */

  ghost predicate Lossy(s: State, s2: State) {
    s2 == s.(log := s2.log) && Losing(s.log, s2.log)
  }

  lemma SendLossy(s: State, s2: State, to: Client, kind: Kind, id: int, i: Invitation, text: string, ok: bool)
    requires Lossy(s, s2)
    ensures Lossy(Send(s, to, kind, id, i, text, ok), Send(s2, to, kind, id, i, text, true))
  {
    hide Losing;
    LosingBoth(s.log, s2.log, Sent(to, kind, id, i, text));
    LosingOne(s.log, s2.log, Sent(to, kind, id, i, text));
  }

  lemma CloseLossy(s: State, s2: State, i: Invitation, role: Role)
    requires Lossy(s, s2) && Linked(s, i) && CanClose(s.invs[i], role)
    ensures Linked(s2, i) && Lossy(CloseInv(s, i, role), CloseInv(s2, i, role))
    ensures Linked(CloseInv(s, i, role), i) && CloseInv(s, i, role).clients == s.clients
    ensures CloseInv(s, i, role).players.Keys == s.players.Keys
  {
    hide Losing;
  }

  lemma PostLossy(s: State, s2: State, c: Client, d: Client, role: Role, winner: Role, i: Invitation, pow: int -> PosReal)
    requires Lossy(s, s2) && Known(s, c) && Known(s, d) && Linked(s, i)
    ensures Known(s2, c) && Known(s2, d) && Lossy(Post(s, c, d, role, winner, i, pow), Post(s2, c, d, role, winner, i, pow))
    ensures Linked(Post(s, c, d, role, winner, i, pow), i) && Post(s, c, d, role, winner, i, pow).clients == s.clients
  {
    hide Losing;
    var (p1, p2) := Seats(s, c, d, role);
    if Effective(p1, p2, Code(winner)) {
      LosingBoth(s.log, s2.log, Scored(i, p1, p2, Code(winner)));
    }
  }

  lemma RemoveLossy(s: State, s2: State, c: Client, i: Invitation)
    requires Lossy(s, s2) && c in s.clients && Linked(s, i)
    ensures Linked(s2, i) && Lossy(Remove(s, c, i).0, Remove(s2, c, i).0) && Remove(s, c, i).1 == Remove(s2, c, i).1
  {
    hide Losing, Without, Find;
  }

  lemma RemoveBothLossy(s: State, s2: State, c: Client, d: Client, i: Invitation)
    requires Lossy(s, s2) && c in s.clients && d in s.clients && Linked(s, i)
    ensures Linked(s2, i)
    ensures Lossy(Remove(Remove(s, c, i).0, d, i).0, Remove(Remove(s2, c, i).0, d, i).0)
    ensures Lossy(RemoveBoth(s, c, d, i).0, RemoveBoth(s2, c, d, i).0)
  {
    hide Losing, Remove;
    RemoveLossy(s, s2, c, i);
    RemoveLossy(Remove(s, c, i).0, Remove(s2, c, i).0, d, i);
  }

  lemma SettleLossy(s: State, s2: State, c: Client, d: Client, role: Role, winner: Role, i: Invitation, pow: int -> PosReal)
    requires Lossy(s, s2) && Known(s, c) && Known(s, d) && Linked(s, i)
    ensures Known(s2, c) && Known(s2, d) && Linked(s2, i)
    ensures Lossy(Settle(s, c, d, role, winner, i, pow).0, Settle(s2, c, d, role, winner, i, pow).0)
  {
    hide Losing, Post, RemoveBoth;
    PostLossy(s, s2, c, d, role, winner, i, pow);
    RemoveBothLossy(Post(s, c, d, role, winner, i, pow), Post(s2, c, d, role, winner, i, pow), c, d, i);
  }

  lemma LossyResolves(s: State, s2: State, c: Client, id: int)
    requires Lossy(s, s2) && Resolves(s, c, id)
    ensures Resolves(s2, c, id) && s2.clients == s.clients && s2.invs == s.invs && s2.games == s.games
  {
    hide Losing;
  }

  /* ---------- every operation ---------- */

  lemma RevokeLossy(s: State, s2: State, c: Client, id: int, ok: bool)
    requires Lossy(s, s2) && Resolves(s, c, id)
    requires var i := Lookup(s.clients[c].entries, id); i != null && CanClose(s.invs[i], NullRole) ==> ok
    ensures Resolves(s2, c, id) && Lossy(Revoke(s, c, id, ok).0, Revoke(s2, c, id, true).0)
  {
    hide Lossy, CloseInv, RemoveBoth, Send, Lookup, IdOf;
    LossyResolves(s, s2, c, id);
    var i := Lookup(s.clients[c].entries, id);
    if i != null && CanClose(s.invs[i], NullRole) {
      var d := s.invs[i].target;
      var packetId := IdOf(s.clients[d].entries, i);
      CloseLossy(s, s2, i, NullRole);
      SendLossy(CloseInv(s, i, NullRole), CloseInv(s2, i, NullRole), d, RevokedPkt, packetId, i, "", true);
      SendLinked(CloseInv(s, i, NullRole), d, RevokedPkt, packetId, i, "", true);
      RemoveBothLossy(Send(CloseInv(s, i, NullRole), d, RevokedPkt, packetId, i, "", true),
                      Send(CloseInv(s2, i, NullRole), d, RevokedPkt, packetId, i, "", true), c, d, i);
    }
  }

  lemma SendLinked(s: State, to: Client, kind: Kind, id: int, i: Invitation, text: string, ok: bool)
    requires Linked(s, i)
    ensures Linked(Send(s, to, kind, id, i, text, ok), i) && Send(s, to, kind, id, i, text, ok).clients == s.clients
    ensures Send(s, to, kind, id, i, text, ok).players == s.players
  {
  }

  lemma DeclineLossy(s: State, s2: State, c: Client, id: int, ok: bool)
    requires Lossy(s, s2) && Resolves(s, c, id)
    ensures Resolves(s2, c, id) && Lossy(Decline(s, c, id, ok).0, Decline(s2, c, id, true).0)
  {
    hide Lossy, CloseInv, Remove, Send, Lookup, IdOf;
    LossyResolves(s, s2, c, id);
    var i := Lookup(s.clients[c].entries, id);
    if i != null && CanClose(s.invs[i], NullRole) {
      var d := s.invs[i].source;
      var packetId := IdOf(s.clients[d].entries, i);
      CloseLossy(s, s2, i, NullRole);
      SendLossy(CloseInv(s, i, NullRole), CloseInv(s2, i, NullRole), d, DeclinedPkt, packetId, i, "", ok);
      SendLinked(CloseInv(s, i, NullRole), d, DeclinedPkt, packetId, i, "", ok);
      RemoveBothLossy(Send(CloseInv(s, i, NullRole), d, DeclinedPkt, packetId, i, "", ok),
                      Send(CloseInv(s2, i, NullRole), d, DeclinedPkt, packetId, i, "", true), c, d, i);
    }
  }

  lemma AcceptLossy(s: State, s2: State, c: Client, id: int, g: Game, ok: bool)
    requires Lossy(s, s2) && Resolves(s, c, id)
    ensures Resolves(s2, c, id) && Lossy(Accept(s, c, id, g, ok).0, Accept(s2, c, id, g, true).0)
  {
    hide Losing, Send, Lookup, IdOf;
    LossyResolves(s, s2, c, id);
    var i := Lookup(s.clients[c].entries, id);
    if i != null && s.invs[i].target == c && s.invs[i].state == InvOpen {
      var rec := s.invs[i];
      var s1 := s.(invs := s.invs[i := rec.(state := InvAccepted, game := g)], games := s.games[g := NEW_GAME]);
      SendLossy(s1, s1.(log := s2.log), rec.source, AcceptedPkt, IdOf(s.clients[rec.source].entries, i), i,
                if rec.targetRole == First then "" else FIRST_BOARD, ok);
    }
  }

  lemma {:induction false} LookupLossy(s: State, s2: State, cs: seq<Client>, name: string)
    requires s2.clients == s.clients
    ensures LookupUser(s2, cs, name) == LookupUser(s, cs, name)
  {
    if cs != [] {
      LookupLossy(s, s2, cs[1..], name);
    }
  }

  lemma InviteLossy(s: State, s2: State, c: Client, name: string, role: Role, i: Invitation, ok: bool)
    requires Lossy(s, s2) && c in s.clients && s.clients[c].player != null
    ensures c in s2.clients && s2.clients[c].player != null
    ensures Lossy(Invite(s, c, name, role, i, ok).0, Invite(s2, c, name, role, i, true).0)
  {
    hide Losing, Send, LookupUser, LeastFree, Ids, Joined;
    LookupLossy(s, s2, s.registry, name);
    var d := LookupUser(s, s.registry, name);
    if d != null && d != c && role != NullRole {
      var s1 := s.(invs := s.invs[i := InvRec(InvOpen, 2, c, d, null, Other(role), role)],
                   clients := s.clients[c := Joined(s.clients[c], i)][d := Joined(s.clients[d], i)]);
      SendLossy(s1, s1.(log := s2.log), d, InvitedPkt(role), LeastFree(Ids(s.clients[d].entries)), i, s.clients[c].player.name, ok);
    }
  }

  lemma ResignLossy(s: State, s2: State, c: Client, id: int, ok: bool, pow: int -> PosReal)
    requires Lossy(s, s2) && Resolves(s, c, id)
    requires var i := Lookup(s.clients[c].entries, id);
             i != null && IsPlayed(s.invs[i], c) && CanClose(s.invs[i], RoleOf(s.invs[i], c)) ==> ok
    ensures Resolves(s2, c, id) && Lossy(Sessions.Resign(s, c, id, ok, pow).0, Sessions.Resign(s2, c, id, true, pow).0)
  {
    hide Lossy, CloseInv, Settle, Send, Lookup, IdOf, Sessions.Resign;
    LossyResolves(s, s2, c, id);
    ResignIs(s, c, id, ok, pow);
    ResignIs(s2, c, id, true, pow);
    var i := Lookup(s.clients[c].entries, id);
    if i != null && IsPlayed(s.invs[i], c) && CanClose(s.invs[i], RoleOf(s.invs[i], c)) {
      var (role, d) := (RoleOf(s.invs[i], c), Opponent(s.invs[i], c));
      var packetId := IdOf(s.clients[d].entries, i);
      CloseLossy(s, s2, i, role);
      SendLossy(CloseInv(s, i, role), CloseInv(s2, i, role), d, ResignedPkt, packetId, i, "", true);
      SendLinked(CloseInv(s, i, role), d, ResignedPkt, packetId, i, "", true);
      SettleLossy(Send(CloseInv(s, i, role), d, ResignedPkt, packetId, i, "", true),
                  Send(CloseInv(s2, i, role), d, ResignedPkt, packetId, i, "", true), c, d, role, RoleOf(s.invs[i], d), i, pow);
    }
  }

  /** The state with a move applied and its packets sent, or some of them lost. */
  lemma NotesLossy(s: State, s2: State, c: Client, i: Invitation, id: int, g1: GameRec, ok1: bool, ok2: bool, ok3: bool)
    requires Lossy(s, s2) && Linked(s, i) && s.invs[i].game != null && Linked(s2, i)
    requires g1.over ==> ok1 && ok2 && ok3
    ensures Lossy(AfterMove(s, s.invs[i].game, g1, MoveNotes(s, c, i, id, g1, ok1, ok2, ok3)),
                  AfterMove(s2, s2.invs[i].game, g1, MoveNotes(s2, c, i, id, g1, true, true, true)))
  {
    hide Losing, MoveNotes;
    if g1.over {
      NotesSame(s, s2, c, i, id, g1);
      LosingAll(s.log, s2.log, MoveNotes(s, c, i, id, g1, true, true, true));
    } else {
      NotesQuiet(s, c, i, id, g1, ok1, ok2, ok3);
      NotesQuiet(s2, c, i, id, g1, true, true, true);
      var d := Opponent(s.invs[i], c);
      var moved := Sent(d, MovedPkt, IdOf(s.clients[d].entries, i), i, StateText(g1.board, g1.current));
      assert s.log + [] == s.log;
      LosingBoth(s.log, s2.log, moved);
      LosingOne(s.log, s2.log, moved);
    }
  }

  lemma NotesSame(s: State, s2: State, c: Client, i: Invitation, id: int, g1: GameRec)
    requires Linked(s, i) && Linked(s2, i) && s2.clients == s.clients && s2.invs == s.invs
    ensures MoveNotes(s2, c, i, id, g1, true, true, true) == MoveNotes(s, c, i, id, g1, true, true, true)
  {
  }

  lemma NotesQuiet(s: State, c: Client, i: Invitation, id: int, g1: GameRec, ok1: bool, ok2: bool, ok3: bool)
    requires Linked(s, i) && !g1.over
    ensures var d := Opponent(s.invs[i], c);
            MoveNotes(s, c, i, id, g1, ok1, ok2, ok3)
            == if ok1 then [Sent(d, MovedPkt, IdOf(s.clients[d].entries, i), i, StateText(g1.board, g1.current))] else []
  {
  }

  lemma MoveLossy(s: State, s2: State, c: Client, id: int, text: string, ok1: bool, ok2: bool, ok3: bool, pow: int -> PosReal)
    requires Lossy(s, s2) && Resolves(s, c, id) && (LastMove(s, c, id, text) ==> ok1 && ok2 && ok3)
    requires var i := Lookup(s.clients[c].entries, id); i != null ==> IsPlayed(s.invs[i], c)
    ensures Resolves(s2, c, id)
    ensures Lossy(MakeMove(s, c, id, text, ok1, ok2, ok3, pow).0, MakeMove(s2, c, id, text, true, true, true, pow).0)
  {
    hide Lossy, MakeMove, MoveTail, Lookup, LegalMove, Apply;
    LossyResolves(s, s2, c, id);
    MoveIs(s, c, id, text, ok1, ok2, ok3, pow);
    MoveIs(s2, c, id, text, true, true, true, pow);
    var i := Lookup(s.clients[c].entries, id);
    if i != null && s.invs[i].game != null {
      LegalSame(s, s2, c, i, text);
      if LegalMove(s, c, i, text).Some? {
        var g1 := Apply(s.games[s.invs[i].game], LegalMove(s, c, i, text).value.cell, RoleOf(s.invs[i], c));
        TailLossy(s, s2, c, id, i, g1, ok1, ok2, ok3, pow);
      }
    }
  }

  lemma LegalSame(s: State, s2: State, c: Client, i: Invitation, text: string)
    requires Linked(s, i) && Linked(s2, i) && s2.invs == s.invs && s2.games == s.games && s.invs[i].game != null
    ensures LegalMove(s2, c, i, text) == LegalMove(s, c, i, text)
  {
  }

  lemma TailLossy(s: State, s2: State, c: Client, id: int, i: Invitation, g1: GameRec,
                  ok1: bool, ok2: bool, ok3: bool, pow: int -> PosReal)
    requires Lossy(s, s2) && Known(s, c) && Linked(s, i) && s.invs[i].game != null && IsPlayed(s.invs[i], c)
    requires Known(s2, c) && Linked(s2, i) && s2.invs == s.invs && (g1.over ==> ok1 && ok2 && ok3)
    ensures Lossy(MoveTail(s, c, id, i, g1, ok1, ok2, ok3, pow).0, MoveTail(s2, c, id, i, g1, true, true, true, pow).0)
  {
    hide Lossy, MoveTail, MoveNotes, Settle;
    MoveTailIs(s, c, id, i, g1, ok1, ok2, ok3, pow);
    MoveTailIs(s2, c, id, i, g1, true, true, true, pow);
    NotesLossy(s, s2, c, i, id, g1, ok1, ok2, ok3);
    if g1.over {
      SettleLossy(AfterMove(s, s.invs[i].game, g1, MoveNotes(s, c, i, id, g1, true, true, true)),
                  AfterMove(s2, s2.invs[i].game, g1, MoveNotes(s2, c, i, id, g1, true, true, true)),
                  c, Opponent(s.invs[i], c), RoleOf(s.invs[i], c), g1.winner, i, pow);
    }
  }

  /* ---------- coming and leaving ---------- */

  lemma QuietLossy(s: State, s2: State, s': State, s2': State)
    requires Lossy(s, s2) && s'.log == s.log && s2' == s'.(log := s2.log)
    ensures Lossy(s', s2')
  {
  }

  lemma LoginLossy(s: State, s2: State, c: Client, p: Player)
    requires Lossy(s, s2) && c in s.clients
    ensures c in s2.clients && Lossy(Login(s, c, p).0, Login(s2, c, p).0)
  {
    hide Losing, LookupUser;
    LookupLossy(s, s2, s.registry, p.name);
    QuietLossy(s, s2, Login(s, c, p).0, Login(s2, c, p).0);
  }

  lemma TurnLossy(s: State, s2: State, c: Client, e: Entry, lost: set<Invitation>, pow: int -> PosReal)
    requires CoreInv(s) && Lossy(s, s2) && c in s.clients && e in s.clients[c].entries && Sole(s.clients[c].entries, e)
    requires Resolves(s, c, e.id) && e.inv in s.invs && CarefulEntry(s, c, e, lost)
    ensures e.inv in s2.invs && Resolves(s2, c, e.id)
    ensures Lossy(LogoutOne(s, c, e, lost, pow), LogoutOne(s2, c, e, {}, pow))
  {
    hide CoreInv, Lossy, Revoke, Decline, Sessions.Resign, Lookup, Held, HeldOk;
    SoleLookup(s.clients[c].entries, e);
    RequestResolves(s, c, e.id);
    LossyResolves(s, s2, c, e.id);
    var ok := e.inv !in lost;
    if s.invs[e.inv].game != null {
      ResignLossy(s, s2, c, e.id, ok, pow);
    } else if s.invs[e.inv].source == c {
      RevokeLossy(s, s2, c, e.id, ok);
    } else {
      DeclineLossy(s, s2, c, e.id, ok);
    }
  }

  lemma {:induction false} LoopLossy(s: State, s2: State, c: Client, orig: seq<Entry>, todo: seq<Entry>, lost: set<Invitation>,
                                     pow: int -> PosReal)
    requires CoreInv(s) && Lossy(s, s2) && c in s.clients && Distinct(orig) && Distinct(todo)
    requires forall x <- s.clients[c].entries :: x in orig
    requires forall e <- todo :: e in orig && e in s.clients[c].entries && e.inv in s.invs && LiveOk(s, e.inv)
    requires forall e <- todo :: CarefulEntry(s, c, e, lost)
    requires Pending(s, c, todo)
    ensures Lossy(LogoutAll(s, c, todo, lost, pow), LogoutAll(s2, c, todo, {}, pow))
    decreases |todo|
  {
    hide CoreInv, Lossy, SamePeople, Pending, LogoutOne, Spared, Shrinks, TurnDone, ClosesOnly, CarefulEntry, LiveOk, Distinct, Sole;
    if todo != [] {
      var (e0, rest) := (todo[0], todo[1..]);
      SoleIn(s.clients[c].entries, orig, e0);
      RequestResolves(s, c, e0.id);
      EntriesKnown(s, c);
      var s1 := LogoutOne(s, c, e0, lost, pow);
      LogoutOneKeeps(s, c, e0, lost, pow);
      PendingNext(s, s1, c, todo);
      AfterTurn(s, s1, c, e0.inv, orig);
      TailsDiffer(todo);
      RestLater(s, s1, c, e0.inv, rest, lost);
      TurnLossy(s, s2, c, e0, lost, pow);
      LoopLossy(s1, LogoutOne(s2, c, e0, {}, pow), c, orig, rest, lost, pow);
    }
  }

  lemma LeaveLossy(s: State, s2: State, c: Client)
    requires Lossy(s, s2) && Known(s, c)
    ensures Known(s2, c) && Lossy(DropPlayer(s, c), DropPlayer(s2, c))
    ensures c in DropPlayer(s, c).clients && c in DropPlayer(s2, c).clients
    ensures Lossy(Unregister(s, c).0, Unregister(s2, c).0)
  {
    hide Losing, Left;
  }

  lemma ExitLossy(s: State, s2: State, c: Client, lost: set<Invitation>, pow: int -> PosReal)
    requires CoreInv(s) && NoneStranded(s) && Lossy(s, s2) && c in s.registry && Known(s, c)
    requires s.clients[c].loggedIn <==> s.clients[c].player != null
    requires s.clients[c].loggedIn ==> forall e <- s.clients[c].entries :: CarefulEntry(s, c, e, lost)
    ensures Known(s2, c) && Lossy(Exit(s, c, lost, pow), Exit(s2, c, {}, pow))
  {
    hide CoreInv, NoneStranded, LogoutAll, Pending, SamePeople, Shrinks, ClosesOnly, Spared, CarefulEntry, LiveOk, Losing,
         DropPlayer, Unregister;
    LeaveLossy(s, s2, c);
    LoopKeeps(s, c, lost, pow);
    if s.clients[c].loggedIn {
      var es := s.clients[c].entries;
      EntriesKnown(s, c);
      PendingAll(s, c);
      forall e <- es
        ensures LiveOk(s, e.inv)
      {
        LiveOkAt(s, e.inv);
      }
      LoopLossy(s, s2, c, es, es, lost, pow);
      var (s1, t1) := (LogoutAll(s, c, es, lost, pow), LogoutAll(s2, c, es, {}, pow));
      StillKnown(s, s1, c);
      LeaveLossy(s1, t1, c);
      DroppedKnown(s1, c);
      LeaveLossy(DropPlayer(s1, c), DropPlayer(t1, c), c);
    }
  }

  lemma StillKnown(s: State, s': State, c: Client)
    requires SamePeople(s, s') && Known(s, c)
    ensures Known(s', c)
  {
  }

  lemma DroppedKnown(s: State, c: Client)
    requires Known(s, c)
    ensures Known(DropPlayer(s, c), c)
  {
  }

  /* ---------- every step ---------- */

  /** The same step with nothing lost. */
  function Deliver(t: Step): Step {
    match t
    case SInvite(c, name, role, i, _) => SInvite(c, name, role, i, true)
    case SRevoke(c, id, _) => SRevoke(c, id, true)
    case SDecline(c, id, _) => SDecline(c, id, true)
    case SAccept(c, id, g, _) => SAccept(c, id, g, true)
    case SResign(c, id, _) => SResign(c, id, true)
    case SMove(c, id, text, _, _, _) => SMove(c, id, text, true, true, true)
    case SExit(c, _) => SExit(c, {})
    case SConnect(c) => t
    case SLogin(c, p) => t
  }

  function DeliverAll(steps: seq<Step>): seq<Step> {
    if steps == [] then [] else [Deliver(steps[0])] + DeliverAll(steps[1..])
  }

  lemma DeliverReady(s: State, s2: State, t: Step)
    requires CoreInv(s) && Lossy(s, s2) && Enabled(s, t) && Ready(s, t) && Careful(s, t)
    ensures Enabled(s2, Deliver(t)) && Ready(s2, Deliver(t)) && Delivered(s2, Deliver(t))
  {
    hide Losing, CoreInv, Lookup, LastMove;
    if t.SExit? && s.clients[t.c].loggedIn {
      EntriesKnown(s, t.c);
    }
  }

  lemma NextLossy(s: State, s2: State, t: Step, pow: int -> PosReal)
    requires CoreInv(s) && NoneStranded(s) && Lossy(s, s2) && Enabled(s, t) && Ready(s, t) && Careful(s, t)
    requires Ready(s2, Deliver(t))
    ensures Lossy(Next(s, t, pow), Next(s2, Deliver(t), pow))
  {
    hide CoreInv, NoneStranded, Lossy, Revoke, Decline, Accept, Sessions.Resign, MakeMove, Exit, Login, Invite, Lookup, LastMove,
         CarefulEntry, Held, HeldOk;
    match t
    case SConnect(c) => ConnectLossy(s, s2, c);
    case SLogin(c, p) => LoginLossy(s, s2, c, p);
    case SInvite(c, name, role, i, ok) => InviteLossy(s, s2, c, name, role, i, ok);
    case SRevoke(c, id, ok) => RevokeLossy(s, s2, c, id, ok);
    case SDecline(c, id, ok) => DeclineLossy(s, s2, c, id, ok);
    case SAccept(c, id, g, ok) => AcceptLossy(s, s2, c, id, g, ok);
    case SResign(c, id, ok) =>
      RequestResolves(s, c, id);
      ResignLossy(s, s2, c, id, ok, pow);
    case SMove(c, id, text, ok1, ok2, ok3) =>
      RequestResolves(s, c, id);
      MoveLossy(s, s2, c, id, text, ok1, ok2, ok3, pow);
    case SExit(c, lost) =>
      RegisteredClient(s, c);
      ExitLossy(s, s2, c, lost, pow);
  }

  lemma ConnectLossy(s: State, s2: State, c: Client)
    requires Lossy(s, s2)
    ensures Lossy(Connect(s, c), Connect(s2, c))
  {
    hide Losing;
  }

  /* ---------- whole runs ---------- */

  lemma {:induction false} LossyRunFrom(s: State, s2: State, steps: seq<Step>, pow: int -> PosReal)
    requires CoreInv(s) && NoneStranded(s) && Lossy(s, s2) && AllCareful(s, steps, pow)
    ensures AllDelivered(s2, DeliverAll(steps), pow)
    ensures RunFrom(s, steps, pow).Some? && RunFrom(s2, DeliverAll(steps), pow).Some?
    ensures Lossy(RunFrom(s, steps, pow).value, RunFrom(s2, DeliverAll(steps), pow).value)
    decreases |steps|
  {
    hide CoreInv, NoneStranded, Lossy, Next, Careful, Delivered, Deliver;
    if steps != [] {
      var t := steps[0];
      var all := DeliverAll(steps);
      assert all[0] == Deliver(t) && all[1..] == DeliverAll(steps[1..]);
      DeliverReady(s, s2, t);
      NextLossy(s, s2, t, pow);
      NextKeeps(s, t, pow);
      StrandedExactly(s, t, pow);
      LossyRunFrom(Next(s, t, pow), Next(s2, Deliver(t), pow), steps[1..], pow);
    }
  }

  /** The story of an invitation, told with gaps: what its source and its target were told are
      parts, in order, of what the story would have them told. */
  ghost predicate ToldWithGaps(s: State, i: Invitation, src: seq<Kind>, tgt: seq<Kind>)
    requires Linked(s, i)
  {
    var (r, scores) := (s.invs[i], Scores(s.log, i));
    && Sub(Trace(s.log, r.source, i), src) && Sub(Trace(s.log, r.target, i), tgt)
    && if r.game == null then NoGameStory(r, src, tgt, scores)
       else GameStory(r, s.games[r.game], Contestants(s, r), i, src, tgt, scores)
  }

  lemma GapsFrom(s: State, s2: State, i: Invitation)
    requires Lossy(s, s2) && Linked(s2, i) && Story(s2, i)
    ensures Linked(s, i) && ToldWithGaps(s, i, Trace(s2.log, s.invs[i].source, i), Trace(s2.log, s.invs[i].target, i))
  {
    hide Losing, Trace, Scores, Sub, NoGameStory, GameStory;
    LosingTraces(s.log, s2.log, s.invs[i].source, i);
    LosingTraces(s.log, s2.log, s.invs[i].target, i);
  }

  /** Over every run of careful steps, whatever else is lost: packets may be missing, but what arrives
      is in the order of the story, and nothing that does not belong to it ever arrives. */
  lemma CarefulStories(steps: seq<Step>, i: Invitation, pow: int -> PosReal) returns (src: seq<Kind>, tgt: seq<Kind>)
    requires AllCareful(INITIAL, steps, pow)
    ensures RunFrom(INITIAL, steps, pow).Some?
    ensures var s := RunFrom(INITIAL, steps, pow).value;
            i in s.invs ==> Linked(s, i) && ToldWithGaps(s, i, src, tgt)
  {
    hide CoreInv, NoneStranded, Stories.Stories, RunFrom, AllCareful, AllDelivered, Story, ToldWithGaps, Lossy;
    src, tgt := [], [];
    InitialCore();
    InitialStories();
    StartsLossless();
    LossyRunFrom(INITIAL, INITIAL, steps, pow);
    StoryRun(DeliverAll(steps), pow);
    var (s, s2) := (RunFrom(INITIAL, steps, pow).value, RunFrom(INITIAL, DeliverAll(steps), pow).value);
    if i in s.invs {
      LossyInvs(s, s2);
      StoryAt(s2, i);
      GapsFrom(s, s2, i);
      src, tgt := Trace(s2.log, s.invs[i].source, i), Trace(s2.log, s.invs[i].target, i);
    }
  }

  lemma StartsLossless()
    ensures Lossy(INITIAL, INITIAL)
  {
  }

  lemma LossyInvs(s: State, s2: State)
    requires Lossy(s, s2)
    ensures s2.invs == s.invs
  {
  }
}
