/** What the texts in packets say to those who read them. */
module Payloads {
  import opened Basics
  import opened Games
  import opened GameText
  import opened Clients
  import opened Sessions
  import opened References
  import opened Steps
  import opened Joining

  /** A text that shows a board and whose turn it is. */
  ghost predicate Shows(text: string, b: Board, current: Role) {
    |text| == 40 && ReadBoard(text) == b && (ReadXToMove(text) <==> current == First)
  }

  /** An empty board with X to move. */
  lemma FirstBoardShows()
    ensures FIRST_BOARD == " | | \n-----\n | | \n-----\n | | \nX to move\n"
    ensures Shows(FIRST_BOARD, EMPTY, First) && forall cell: nat :: cell < 9 ==> EMPTY[cell] == NullRole
  {
    hide StateText, ReadBoard, ReadXToMove;
    FirstBoardText();
    StateRoundTrip(EMPTY, First);
  }

  /** The ACCEPTED packet goes to the source; it shows the empty board with X to move exactly when the
      source is to move first, and otherwise has no payload. */
  lemma AcceptedSays(s: State, c: Client, id: int, g: Game)
    requires Resolves(s, c, id) && g !in s.games && Accept(s, c, id, g, true).1 == 0
    ensures var (s', i) := (Accept(s, c, id, g, true).0, Lookup(s.clients[c].entries, id));
            && i != null && |s'.log| == |s.log| + 1
            && var e := s'.log[|s.log|];
               && e.Sent? && e.to == s.invs[i].source && e.kind == AcceptedPkt && e.inv == i
               && (s.invs[i].targetRole == First ==> e.text == "")
               && (s.invs[i].targetRole != First ==> Shows(e.text, EMPTY, First))
  {
    AcceptIs(s, c, id, g, true);
    FirstBoardShows();
  }

  /** The INVITED packet goes to the invited client and has the inviter's name and the role to play. */
  lemma InvitedSays(s: State, c: Client, name: string, role: Role, i: Invitation)
    requires CoreInv(s) && Active(s, c) && s.clients[c].player != null && i !in s.invs
    requires Invite(s, c, name, role, i, true).1 != -1
    ensures var s' := Invite(s, c, name, role, i, true).0;
            && |s'.log| == |s.log| + 1
            && var e := s'.log[|s.log|];
               && e.Sent? && IsUser(s, e.to, name) && e.to != c && e.kind == InvitedPkt(role) && e.inv == i
               && e.text == s.clients[c].player.name
  {
    hide CoreInv, LeastFree, Ids;
    InviteIs(s, c, name, role, i, true);
  }

  /** The MOVED packet goes to the opponent and shows the board as the move has left it. */
  lemma MovedSays(s: State, c: Client, id: int, text: string, ok2: bool, ok3: bool, pow: int -> PosReal)
    requires CoreInv(s) && c in s.clients && Resolves(s, c, id)
    requires var i := Lookup(s.clients[c].entries, id); i != null && s.invs[i].game != null && LegalMove(s, c, i, text).Some?
    ensures var (s', i) := (MakeMove(s, c, id, text, true, ok2, ok3, pow).0, Lookup(s.clients[c].entries, id));
            && |s'.log| > |s.log| && s.invs[i].game in s'.games
            && var e := s'.log[|s.log|];
               && e.Sent? && e.to == (if c == s.invs[i].source then s.invs[i].target else s.invs[i].source)
               && e.kind == MovedPkt && e.inv == i
               && Shows(e.text, s'.games[s.invs[i].game].board, s'.games[s.invs[i].game].current)
  {
    hide CoreInv, Refs, Touches, MakeMove, Moved, Apply, LegalMove, Lookup, Held, HeldOk, Shows, StateText;
    MoveKeeps(s, c, id, text, true, ok2, ok3, pow);
    RequestResolves(s, c, id);
    var i := Lookup(s.clients[c].entries, id);
    var g1 := Apply(s.games[s.invs[i].game], LegalMove(s, c, i, text).value.cell, RoleOf(s.invs[i], c));
    MovedShows(s, MakeMove(s, c, id, text, true, ok2, ok3, pow).0, c, id, i, g1, ok2, ok3, pow);
  }

  lemma MovedShows(s: State, s': State, c: Client, id: int, i: Invitation, g1: GameRec, ok2: bool, ok3: bool, pow: int -> PosReal)
    requires Linked(s, i) && IsPlayed(s.invs[i], c) && s.invs[i].game != null
    requires Moved(s, s', c, id, i, g1, true, ok2, ok3, pow)
    ensures |s'.log| > |s.log| && s.invs[i].game in s'.games
    ensures var e := s'.log[|s.log|];
            && e.Sent? && e.to == Opponent(s.invs[i], c) && e.kind == MovedPkt && e.inv == i
            && Shows(e.text, s'.games[s.invs[i].game].board, s'.games[s.invs[i].game].current)
  {
    hide Rated, Held, StateText, EndNotes, ReadBoard, ReadXToMove;
    StateRoundTrip(g1.board, g1.current);
    var notes := MoveNotes(s, c, i, id, g1, true, ok2, ok3);
    assert s'.log[|s.log|] == notes[0];
  }
}
