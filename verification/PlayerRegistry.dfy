/** The player registry: an append-only linked list that maps each user name to one player. */
module PlayerRegistries {
  import opened Basics
  import opened Players

  predicate NamesUnique(roster: seq<Player>) {
    forall j, k :: 0 <= j < k < |roster| ==> roster[j].name != roster[k].name
  }

  /** The position of the first player with a name, or the length. */
  function FindName(roster: seq<Player>, name: string): (k: nat)
    ensures k <= |roster|
    ensures k < |roster| ==> roster[k].name == name
    ensures forall j :: 0 <= j < k ==> roster[j].name != name
  {
    if roster == [] then 0 else if roster[0].name == name then 0 else 1 + FindName(roster[1..], name)
  }

  /** The roster after a registration, where p is the player created if the name is new. */
  function Registered(roster: seq<Player>, p: Player): seq<Player> {
    if FindName(roster, p.name) < |roster| then roster else roster + [p]
  }

  /** The player a registration returns. */
  function Answer(roster: seq<Player>, p: Player): (q: Player)
    ensures q.name == p.name
  {
    var k := FindName(roster, p.name);
    if k < |roster| then roster[k] else p
  }

  function RegisteredAll(roster: seq<Player>, ps: seq<Player>): seq<Player>
    decreases |ps|
  {
    if ps == [] then roster else RegisteredAll(Registered(roster, ps[0]), ps[1..])
  }

  /** Names stay unique and the roster only grows at its end. */
  lemma {:induction false} RosterGrows(roster: seq<Player>, ps: seq<Player>)
    requires NamesUnique(roster)
    ensures NamesUnique(RegisteredAll(roster, ps))
    ensures roster <= RegisteredAll(roster, ps)
    ensures forall p <- ps :: FindName(RegisteredAll(roster, ps), p.name) < |RegisteredAll(roster, ps)|
    decreases |ps|
  {
    if ps != [] {
      var next := Registered(roster, ps[0]);
      RosterGrows(next, ps[1..]);
      var last := RegisteredAll(next, ps[1..]);
      var k := FindName(next, ps[0].name);
      assert k < |next| && next[k] == last[k] by {
        if FindName(roster, ps[0].name) == |roster| {
          assert next[|roster|] == ps[0];
        }
      }
      assert FindName(last, ps[0].name) <= k;
      forall p | p in ps
        ensures FindName(last, p.name) < |last|
      {
        assert p == ps[0] || p in ps[1..];
      }
    }
  }

  /** A name once registered yields the same player on every later call, whatever else is
      registered in between and whatever player the call would have created. */
  lemma SamePlayerEver(roster: seq<Player>, p: Player, ps: seq<Player>, p': Player)
    requires NamesUnique(roster) && p'.name == p.name
    ensures Answer(RegisteredAll(Registered(roster, p), ps), p') == Answer(roster, p)
  {
    var first := Registered(roster, p);
    var k := FindName(roster, p.name);
    assert first[k] == Answer(roster, p);
    assert NamesUnique(first);
    RosterGrows(first, ps);
    var last := RegisteredAll(first, ps);
    assert last[k] == first[k];
    assert FindName(last, p.name) == k;
  }

  /** A name that is found gives its player and leaves the roster alone. */
  lemma FoundIsAnswer(roster: seq<Player>, name: string)
    ensures var k := FindName(roster, name);
            k < |roster| ==>
              && roster[k].name == name && roster[k] in roster
              && Registered(roster, roster[k]) == roster && Answer(roster, roster[k]) == roster[k]
    ensures FindName(roster, name) <= |roster|
  {
  }

  /** A name that is not found gives the new player, at the end of the roster. */
  lemma NewIsAnswer(roster: seq<Player>, p: Player)
    requires NamesUnique(roster) && FindName(roster, p.name) == |roster|
    ensures NamesUnique(roster + [p]) && Registered(roster, p) == roster + [p] && Answer(roster, p) == p
  {
  }

  lemma NamesDiffer(roster: seq<Player>)
    requires NamesUnique(roster)
    ensures NoRepeat(roster)
  {
  }

  /* ---------- the linked list ---------- */

  class PlayerNode {
    const player: Player
    var next: PlayerNode?

    constructor (player: Player)
      ensures this.player == player && next == null
    {
      this.player := player;
      next := null;
    }
  }

  function NodeAt(nodes: seq<PlayerNode>, k: nat): PlayerNode? {
    if k < |nodes| then nodes[k] else null
  }

  class PlayerRegistry {
    var head: PlayerNode?
    var length: int
    ghost var nodes: seq<PlayerNode>
    ghost var footprint: set<PlayerNode>
    ghost var roster: seq<Player>

    ghost predicate Valid()
      reads this, footprint
    {
      && head == NodeAt(nodes, 0)
      && length == |nodes| == |roster|
      && (forall k :: 0 <= k < |nodes| ==> nodes[k] in footprint)
      && (forall k :: 0 <= k < |nodes| ==> roster[k] == nodes[k].player)
      && (forall k :: 0 <= k < |nodes| ==> nodes[k].next == NodeAt(nodes, k + 1))
      && NoRepeat(nodes)
      && NamesUnique(roster)
    }

    constructor ()
      ensures Valid() && roster == [] && footprint == {}
    {
      head := null;
      length := 0;
      nodes, footprint, roster := [], {}, [];
    }

    /** The search in preg_register; last is the last node when the name is not found. */
    method FindNode(name: string) returns (current: PlayerNode?, last: PlayerNode?)
      requires Valid()
      ensures current == NodeAt(nodes, FindName(roster, name))
      ensures current == null ==> last == if nodes == [] then null else nodes[|nodes| - 1]
    {
      hide NamesUnique, NoRepeat;
      current, last := head, null;
      ghost var k := 0;
      while current != null
        invariant 0 <= k <= |nodes| && current == NodeAt(nodes, k)
        invariant forall j :: 0 <= j < k ==> roster[j].name != name
        invariant last == if k == |nodes| && k > 0 then nodes[k - 1] else null
        decreases |nodes| - k
      {
        if current.player.name == name {
          return;
        }
        if current.next == null {
          last := current;
        }
        current := current.next;
        k := k + 1;
      }
    }

    /** Link a new node after the last one. */
    method Append(last: PlayerNode?, player: Player)
      requires Valid() && NamesUnique(roster + [player])
      requires last == if nodes == [] then null else nodes[|nodes| - 1]
      modifies this, footprint
      ensures Valid() && fresh(footprint - old(footprint)) && roster == old(roster) + [player]
    {
      var node := new PlayerNode(player);
      if last == null {
        head := node;
      } else {
        last.next := node;
      }
      nodes := nodes + [node];
      footprint := footprint + {node};
      roster := roster + [player];
      length := length + 1;
    }

    /** preg_register: the returned player carries one more reference for the caller. */
    method Register(name: string) returns (player: Player)
      requires Valid()
      modifies this, footprint, (set p <- roster)`refCount
      ensures Valid() && fresh(footprint - old(footprint))
      ensures player.name == name && roster == Registered(old(roster), player)
      ensures player == Answer(old(roster), player)
      ensures player in old(roster) ==> player.refCount == old(player.refCount) + 1
      ensures player !in old(roster) ==> fresh(player) && player.Rec() == PlayerRec(2, INITIAL_RATING)
      ensures forall p <- old(roster) :: p != player ==> p.refCount == old(p.refCount)
    {
      hide NamesUnique, FindName, Registered, Answer;
      ghost var was := roster;
      var current, last := FindNode(name);
      if current != null {
        player := current.player;
        FoundIsAnswer(was, name);
        player.refCount := player.refCount + 1;
        return;
      }
      player := new Player(name);
      NewIsAnswer(was, player);
      Append(last, player);
      player.refCount := player.refCount + 1;
    }

    /** preg_fini: one reference of every registered player is dropped. */
    method Fini()
      requires Valid()
      modifies this, (set p <- roster)`refCount
      ensures length == 0
      ensures forall p <- old(roster) :: p.refCount == old(p.refCount) - 1
    {
      hide NamesUnique;
      NamesDiffer(roster);
      var current := head;
      ghost var k := 0;
      while current != null
        invariant 0 <= k <= |nodes| && current == NodeAt(nodes, k)
        invariant nodes == old(nodes) && roster == old(roster) && length == |nodes| - k
        invariant forall j :: 0 <= j < k ==> roster[j].refCount == old(roster[j].refCount) - 1
        invariant forall j :: k <= j < |nodes| ==> roster[j].refCount == old(roster[j].refCount)
        decreases |nodes| - k
      {
        var next := current.next;
        current.player.refCount := current.player.refCount - 1;
        length := length - 1;
        current := next;
        k := k + 1;
      }
    }
  }
}
