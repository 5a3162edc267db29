/** The objects of a session: clients, with their invitation list and pool of invitation IDs,
    and the invitations themselves. */
module Clients {
  import opened Basics
  import opened Games
  import opened Players

  datatype InvState = InvOpen | InvAccepted | InvClosed

  /** One node of a client's invitation list. */
  datatype Entry = Entry(id: nat, inv: Invitation)

  datatype ClientRec = ClientRec(ref: int, player: Player?, loggedIn: bool, entries: seq<Entry>)

  datatype InvRec = InvRec(state: InvState, ref: int, source: Client, target: Client, game: Game?,
                           sourceRole: Role, targetRole: Role)

  /* ---------- invitation lists ---------- */

  predicate Holds(es: seq<Entry>, inv: Invitation) {
    exists e :: e in es && e.inv == inv
  }

  /** No invitation and no ID occurs twice. */
  predicate Distinct(es: seq<Entry>) {
    forall j, k :: 0 <= j < k < |es| ==> es[j].inv != es[k].inv && es[j].id != es[k].id
  }

  function Ids(es: seq<Entry>): set<nat> {
    set e | e in es :: e.id
  }

  /** The position of the first entry for an invitation, or the length. */
  function Find(es: seq<Entry>, inv: Invitation): (k: nat)
    ensures k <= |es|
    ensures k < |es| ==> es[k].inv == inv
    ensures forall j :: 0 <= j < k ==> es[j].inv != inv
  {
    if es == [] then 0 else if es[0].inv == inv then 0 else 1 + Find(es[1..], inv)
  }

  /** The position of the first entry with an ID, or the length. */
  function FindId(es: seq<Entry>, id: int): (k: nat)
    ensures k <= |es|
    ensures k < |es| ==> es[k].id == id
    ensures forall j :: 0 <= j < k ==> es[j].id != id
  {
    if es == [] then 0 else if es[0].id == id then 0 else 1 + FindId(es[1..], id)
  }

  /** client_get_invitation. */
  function Lookup(es: seq<Entry>, id: int): (inv: Invitation?)
    ensures inv != null ==> Holds(es, inv)
  {
    var k := FindId(es, id);
    if k < |es| then es[k].inv else null
  }

  /** client_get_invitation_id. */
  function IdOf(es: seq<Entry>, inv: Invitation): int {
    var k := Find(es, inv);
    if k < |es| then es[k].id else -1
  }

  /** A sequence without its element at k. */
  function Cut<T>(s: seq<T>, k: nat): (r: seq<T>)
    requires k < |s|
    ensures |r| == |s| - 1
    ensures forall j :: 0 <= j < k ==> r[j] == s[j]
    ensures forall j :: k <= j < |r| ==> r[j] == s[j + 1]
  {
    s[..k] + s[k + 1..]
  }

  /** The list after client_remove_invitation. */
  function Without(es: seq<Entry>, inv: Invitation): (ws: seq<Entry>)
    ensures forall e <- ws :: e in es
  {
    var k := Find(es, inv);
    if k < |es| then Cut(es, k) else es
  }

  lemma FindHolds(es: seq<Entry>, inv: Invitation)
    ensures Holds(es, inv) <==> Find(es, inv) < |es|
    ensures Holds(es, inv) ==> es[Find(es, inv)] in es
  {
    var k := Find(es, inv);
    if k < |es| {
      assert es[k] in es;
      assert es[k] == Entry(es[k].id, inv);
    }
  }

  /** In a list without repetitions an entry determines both lookups. */
  lemma EntryLookup(es: seq<Entry>, e: Entry)
    requires Distinct(es) && e in es
    ensures Lookup(es, e.id) == e.inv && IdOf(es, e.inv) == e.id && Holds(es, e.inv)
  {
    var k :| 0 <= k < |es| && es[k] == e;
    assert FindId(es, e.id) == k;
    assert Find(es, e.inv) == k;
  }

  lemma WithoutMembers(es: seq<Entry>, inv: Invitation, e: Entry)
    requires Distinct(es)
    ensures e in Without(es, inv) <==> e in es && e.inv != inv
  {
    var k := Find(es, inv);
    var ws := Without(es, inv);
    if k < |es| {
      if e in es && e.inv != inv {
        var j :| 0 <= j < |es| && es[j] == e;
        assert if j < k then ws[j] == e else ws[j - 1] == e;
      }
      if e in ws {
        var j :| 0 <= j < |ws| && ws[j] == e;
        assert es[if j < k then j else j + 1] == e;
      }
    }
  }

  lemma WithoutDistinct(es: seq<Entry>, inv: Invitation)
    requires Distinct(es)
    ensures Distinct(Without(es, inv))
  {
    var k := Find(es, inv);
    var ws := Without(es, inv);
    if k < |es| {
      assert forall j :: 0 <= j < |ws| ==> ws[j] == es[if j < k then j else j + 1];
    }
  }

  /** Removing an invitation removes its entry and keeps every other entry, ID included. */
  lemma WithoutEntries(es: seq<Entry>, inv: Invitation)
    requires Distinct(es)
    ensures Distinct(Without(es, inv))
    ensures forall e :: e in Without(es, inv) <==> e in es && e.inv != inv
    ensures forall other :: Holds(Without(es, inv), other) <==> Holds(es, other) && other != inv
  {
    WithoutDistinct(es, inv);
    forall e
      ensures e in Without(es, inv) <==> e in es && e.inv != inv
    {
      WithoutMembers(es, inv, e);
    }
  }

  lemma PrependEntries(es: seq<Entry>, e: Entry)
    requires Distinct(es) && !Holds(es, e.inv) && e.id !in Ids(es)
    ensures Distinct([e] + es)
    ensures forall f :: f in [e] + es <==> f == e || f in es
    ensures forall other :: Holds([e] + es, other) <==> Holds(es, other) || other == e.inv
  {
    var xs := [e] + es;
    assert xs[0] == e && xs[1..] == es;
    forall j, k | 0 <= j < k < |xs|
      ensures xs[j].inv != xs[k].inv && xs[j].id != xs[k].id
    {
      assert xs[k] == es[k - 1] && es[k - 1] in es;
    }
    forall other | Holds(es, other) || other == e.inv
      ensures Holds(xs, other)
    {
      if other == e.inv {
        assert e in xs;
      } else {
        var f :| f in es && f.inv == other;
        assert f in xs;
      }
    }
  }

  lemma PrependIds(es: seq<Entry>, e: Entry)
    requires Distinct(es) && !Holds(es, e.inv) && e.id !in Ids(es)
    ensures Distinct([e] + es) && Ids([e] + es) == Ids(es) + {e.id}
  {
    PrependEntries(es, e);
    IdsCons(e, es);
  }

  /* ---------- least free IDs ---------- */

  function AtLeast(used: set<nat>, n: nat): set<nat> {
    set u | u in used && u >= n
  }

  function FreeFrom(used: set<nat>, n: nat): (id: nat)
    ensures id >= n && id !in used
    ensures forall k :: n <= k < id ==> k in used
    decreases AtLeast(used, n)
  {
    if n !in used then n
    else
      assert n in AtLeast(used, n) && n !in AtLeast(used, n + 1);
      FreeFrom(used, n + 1)
  }

  /** The least ID not in use. */
  function LeastFree(used: set<nat>): (id: nat)
    ensures id !in used
    ensures forall k :: 0 <= k < id ==> k in used
  {
    FreeFrom(used, 0)
  }

  function UpTo(n: nat): (low: set<nat>)
    ensures |low| == n
    ensures forall k: nat :: k in low <==> k < n
  {
    if n == 0 then {} else UpTo(n - 1) + {n - 1}
  }

  /** A fresh ID never exceeds the number of IDs in use. */
  lemma LeastFreeBound(used: set<nat>)
    ensures LeastFree(used) <= |used|
  {
    SubsetSize(UpTo(LeastFree(used)), used);
  }

  lemma {:induction false} SubsetSize<T>(a: set<T>, b: set<T>)
    requires a <= b
    ensures |a| <= |b|
    decreases a
  {
    if a != {} {
      var x :| x in a;
      SubsetSize(a - {x}, b - {x});
    }
  }

  /** A list without repeated IDs uses as many IDs as it has entries. */
  lemma {:induction false} IdCount(es: seq<Entry>)
    requires Distinct(es)
    ensures |Ids(es)| == |es|
  {
    if es != [] {
      assert es == [es[0]] + es[1..];
      IdCount(es[1..]);
      IdsCons(es[0], es[1..]);
    }
  }

  lemma IdsCons(e: Entry, es: seq<Entry>)
    requires Distinct([e] + es)
    ensures Ids([e] + es) == Ids(es) + {e.id} && e.id !in Ids(es)
  {
    var xs := [e] + es;
    assert xs[0] == e;
    forall f | f in es
      ensures f.id != e.id
    {
      var k :| 0 <= k < |es| && es[k] == f;
      assert xs[k + 1] == f;
    }
    assert forall f :: f in xs <==> f == e || f in es;
  }

  /* ---------- objects ---------- */

  class Invitation {
    var state: InvState
    var refCount: int
    const source: Client
    const target: Client
    var game: Game?
    const sourceRole: Role
    const targetRole: Role

    ghost function Rec(): InvRec
      reads this
    {
      InvRec(state, refCount, source, target, game, sourceRole, targetRole)
    }

    /** inv_create, without the references it takes on the two clients. */
    constructor (source: Client, target: Client, sourceRole: Role, targetRole: Role)
      ensures Rec() == InvRec(InvOpen, 1, source, target, null, sourceRole, targetRole)
    {
      state := InvOpen;
      refCount := 0;
      this.source := source;
      this.target := target;
      game := null;
      this.sourceRole := sourceRole;
      this.targetRole := targetRole;
      new;
      refCount := refCount + 1;
    }

    /** inv_accept. */
    method Accept() returns (ok: bool)
      modifies this`state, this`game
      ensures ok == (old(state) == InvOpen)
      ensures ok ==> game != null && fresh(game) && game.Valid() && fresh(game.rows) && game.Rec() == NEW_GAME
      ensures Rec() == if ok then old(Rec()).(state := InvAccepted, game := game) else old(Rec())
    {
      if state != InvOpen {
        return false;
      }
      state := InvAccepted;
      game := new Game();
      return true;
    }

    /** inv_close. */
    method Close(role: Role) returns (ok: bool)
      requires game != null ==> game.Valid()
      modifies this`state, game
      ensures ok == CanClose(old(Rec()), role)
      ensures Rec() == if ok then old(Rec()).(state := InvClosed) else old(Rec())
      ensures game != null ==>
                game.Valid()
                && game.Rec() == if ok && old(state) == InvAccepted then ResignBy(old(game.Rec()), role) else old(game.Rec())
    {
      if state != InvOpen && state != InvAccepted {
        return false;
      }
      if state == InvAccepted {
        if game == null {
          return false;
        }
        if role == NullRole {
          return false;
        }
        var _ := game.Resign(role);
      }
      if state == InvOpen {
        if role != NullRole {
          return false;
        }
        if game != null {
          return false;
        }
      }
      state := InvClosed;
      return true;
    }
  }

  /** Whether inv_close succeeds. */
  predicate CanClose(r: InvRec, role: Role) {
    || (r.state == InvOpen && role == NullRole && r.game == null)
    || (r.state == InvAccepted && role != NullRole && r.game != null)
  }

  class Node {
    const id: nat
    const invitation: Invitation
    var next: Node?

    constructor (id: nat, invitation: Invitation, next: Node?)
      ensures this.id == id && this.invitation == invitation && this.next == next
    {
      this.id := id;
      this.invitation := invitation;
      this.next := next;
    }
  }

  lemma CutNoRepeat(nodes: seq<Node>, k: nat)
    requires NoRepeat(nodes) && k < |nodes|
    ensures NoRepeat(Cut(nodes, k))
  {
  }

  lemma PushNoRepeat(node: Node, nodes: seq<Node>)
    requires NoRepeat(nodes) && node !in nodes
    ensures NoRepeat([node] + nodes)
    ensures forall k :: 1 <= k <= |nodes| ==> ([node] + nodes)[k] == nodes[k - 1]
  {
  }

  /** The k-th node, or null past the end. */
  function Nth(nodes: seq<Node>, k: nat): Node? {
    if k < |nodes| then nodes[k] else null
  }

  /** The ID pool of a client: available_ids, id_usage and current_id_size. */
  class IdPool {
    var availableIds: array<int>
    var idUsage: int
    var currentIdSize: int
    ghost var used: set<nat>

    /** Slot k holds k, or -1 exactly when ID k is in use. */
    ghost predicate Valid()
      reads this, availableIds
    {
      && availableIds.Length == currentIdSize > 0
      && idUsage == |used|
      && (forall k <- used :: k < currentIdSize)
      && (forall k: nat :: k < currentIdSize ==> availableIds[k] == if k in used then -1 else k)
    }

    constructor ()
      ensures Valid() && fresh(availableIds) && used == {} && availableIds.Length == 100
    {
      currentIdSize := 100;
      var ids := new int[100];
      for i := 0 to 100
        invariant forall k :: 0 <= k < i ==> ids[k] == k
      {
        ids[i] := i;
      }
      availableIds := ids;
      idUsage := 0;
      used := {};
    }

    /** The reallocation in get_available_id: twice as many slots, the new ones free. */
    method Double()
      requires Valid()
      modifies this`availableIds, this`currentIdSize
      ensures Valid() && fresh(availableIds) && currentIdSize == 2 * old(currentIdSize)
    {
      var size := currentIdSize;
      var larger := new int[2 * size];
      for i := 0 to size
        modifies larger
        invariant forall k :: 0 <= k < i ==> larger[k] == availableIds[k]
      {
        larger[i] := availableIds[i];
      }
      currentIdSize := 2 * size;
      for i := size to 2 * size
        modifies larger
        invariant forall k :: 0 <= k < size ==> larger[k] == availableIds[k]
        invariant forall k :: size <= k < i ==> larger[k] == k
      {
        larger[i] := i;
      }
      availableIds := larger;
    }

    /** The scan in get_available_id for the first slot that is not -1. */
    method FirstFree() returns (i: nat)
      requires Valid() && idUsage < currentIdSize
      ensures i == LeastFree(used) < currentIdSize
    {
      LeastFreeBound(used);
      i := 0;
      while availableIds[i] == -1
        invariant 0 <= i <= LeastFree(used) < currentIdSize
        decreases currentIdSize - i
      {
        i := i + 1;
      }
    }

    /** get_available_id: double the pool when it is used up, then take the least free ID. */
    method GetAvailableId() returns (id: nat)
      requires Valid()
      modifies this`availableIds, this`idUsage, this`currentIdSize, this`used, availableIds
      ensures Valid() && (availableIds == old(availableIds) || fresh(availableIds))
      ensures id == LeastFree(old(used)) && used == old(used) + {id}
    {
      SubsetSize(used, UpTo(currentIdSize));
      if idUsage >= currentIdSize {
        Double();
      }
      id := FirstFree();
      availableIds[id] := -1;
      idUsage := idUsage + 1;
      used := used + {id};
    }

    /** purge_id. */
    method PurgeId(id: nat)
      requires Valid() && (id < currentIdSize ==> id in used)
      modifies this`idUsage, this`used, availableIds
      ensures Valid() && used == old(used) - {id}
    {
      if id >= currentIdSize {
        return;
      }
      availableIds[id] := id;
      idUsage := idUsage - 1;
      used := used - {id};
    }
  }

  /** The linked list of a client's invitations, from invite_head. */
  class InviteList {
    var head: Node?
    ghost var nodes: seq<Node>
    ghost var footprint: set<Node>
    ghost var entries: seq<Entry>

    ghost predicate Valid()
      reads this, footprint
    {
      && head == Nth(nodes, 0)
      && |entries| == |nodes|
      && (forall k :: 0 <= k < |nodes| ==> nodes[k] in footprint)
      && (forall k :: 0 <= k < |nodes| ==> entries[k] == Entry(nodes[k].id, nodes[k].invitation))
      && (forall k :: 0 <= k < |nodes| ==> nodes[k].next == Nth(nodes, k + 1))
      && NoRepeat(nodes)
    }

    constructor ()
      ensures Valid() && entries == [] && footprint == {}
    {
      head := null;
      nodes, footprint, entries := [], {}, [];
    }

    /** client_get_invitation_id. */
    method GetInvitationId(inv: Invitation) returns (id: int)
      requires Valid()
      ensures id == IdOf(entries, inv)
    {
      var prev, node, k := FindNode(inv);
      return if node == null then -1 else node.id;
    }

    /** client_get_invitation. */
    method GetInvitation(id: int) returns (inv: Invitation?)
      requires Valid()
      ensures inv == Lookup(entries, id)
    {
      var node := head;
      ghost var k := 0;
      while node != null
        invariant 0 <= k <= |nodes| && node == Nth(nodes, k)
        invariant forall j :: 0 <= j < k ==> entries[j].id != id
        decreases |nodes| - k
      {
        if node.id == id {
          assert FindId(entries, id) == k;
          return node.invitation;
        }
        node := node.next;
        k := k + 1;
      }
      return null;
    }

    /** Put a new node at the head of the list. */
    method Prepend(id: nat, inv: Invitation)
      requires Valid()
      modifies this`head, this`nodes, this`footprint, this`entries
      ensures Valid() && fresh(footprint - old(footprint))
      ensures entries == [Entry(id, inv)] + old(entries)
    {
      var node := new Node(id, inv, head);
      PushNoRepeat(node, nodes);
      head := node;
      nodes := [node] + nodes;
      footprint := footprint + {node};
      entries := [Entry(id, inv)] + entries;
    }

    /** The first node holding an invitation, with its predecessor. */
    method FindNode(inv: Invitation) returns (prev: Node?, node: Node?, ghost k: nat)
      requires Valid()
      ensures k == Find(entries, inv) && node == Nth(nodes, k)
      ensures prev == if k == 0 then null else nodes[k - 1]
    {
      node := head;
      prev := null;
      k := 0;
      while node != null
        invariant 0 <= k <= |nodes| && node == Nth(nodes, k)
        invariant prev == if k == 0 then null else nodes[k - 1]
        invariant forall j :: 0 <= j < k ==> entries[j].inv != inv
        decreases |nodes| - k
      {
        if node.invitation == inv {
          return;
        }
        prev := node;
        node := node.next;
        k := k + 1;
      }
    }

    /** Unlink node k, whose predecessor is prev. */
    method UnlinkAt(prev: Node?, node: Node, ghost k: nat)
      requires Valid() && k < |nodes| && node == nodes[k]
      requires prev == if k == 0 then null else nodes[k - 1]
      modifies this`head, this`nodes, this`entries, if prev == null then {} else {prev}
      ensures Valid() && entries == Cut(old(entries), k) && nodes == Cut(old(nodes), k)
    {
      if prev == null {
        head := node.next;
      } else {
        prev.next := node.next;
      }
      ghost var ns := nodes;
      CutNoRepeat(nodes, k);
      nodes := Cut(nodes, k);
      entries := Cut(entries, k);
      forall j | 0 <= j < |nodes|
        ensures nodes[j].next == Nth(nodes, j + 1)
      {
        if j + 1 == k {
          assert nodes[j] == prev;
        } else {
          var i := if j < k then j else j + 1;
          assert nodes[j] == ns[i] && ns[i] != prev;
        }
      }
    }

    /** Unlink the first node holding an invitation and report its ID. */
    method Unlink(inv: Invitation) returns (id: int)
      requires Valid()
      modifies this`head, this`nodes, this`entries, footprint
      ensures Valid() && id == IdOf(old(entries), inv) && entries == Without(old(entries), inv)
      ensures forall n <- nodes :: n in old(nodes)
    {
      var prev, node, k := FindNode(inv);
      if node == null {
        return -1;
      }
      UnlinkAt(prev, node, k);
      return node.id;
    }
  }

  class Client {
    var refCount: int
    var player: Player?
    var loggedIn: bool
    const pool: IdPool
    const invites: InviteList

    ghost function Rec(): ClientRec
      reads this, invites
    {
      ClientRec(refCount, player, loggedIn, invites.entries)
    }

    /** The pool and the list agree: the IDs in use are those of the entries. */
    ghost predicate Valid()
      reads pool, pool.availableIds, invites, invites.footprint
    {
      && pool.Valid() && invites.Valid()
      && Distinct(invites.entries) && pool.used == Ids(invites.entries)
    }

    constructor ()
      ensures Valid() && fresh(pool) && fresh(pool.availableIds) && fresh(invites) && invites.footprint == {}
      ensures Rec() == ClientRec(1, null, false, [])
    {
      loggedIn := false;
      refCount := 0;
      player := null;
      pool := new IdPool();
      invites := new InviteList();
      new;
      refCount := refCount + 1;
    }

    /** client_add_invitation, without the reference it takes: the invitation gets the least free
        ID and goes to the head of the list. */
    method AddInvitation(inv: Invitation) returns (id: nat)
      requires Valid() && !Holds(invites.entries, inv)
      modifies pool, pool.availableIds, invites
      ensures Valid() && (pool.availableIds == old(pool.availableIds) || fresh(pool.availableIds))
      ensures fresh(invites.footprint - old(invites.footprint))
      ensures id == LeastFree(Ids(old(invites.entries))) && invites.entries == [Entry(id, inv)] + old(invites.entries)
    {
      ghost var es := invites.entries;
      id := pool.GetAvailableId();
      PrependIds(es, Entry(id, inv));
      invites.Prepend(id, inv);
    }

    /** client_remove_invitation, without the release of the invitation itself: the first node
        holding the invitation is unlinked and its ID returned to the pool. */
    method RemoveInvitation(inv: Invitation) returns (id: int)
      requires Valid()
      modifies pool, pool.availableIds, invites, invites.footprint
      ensures pool.availableIds == old(pool.availableIds) && invites.footprint == old(invites.footprint)
      ensures Valid() && id == IdOf(old(invites.entries), inv)
      ensures invites.entries == Without(old(invites.entries), inv)
      ensures forall n <- invites.nodes :: n in old(invites.nodes)
    {
      ghost var es := invites.entries;
      WithoutDistinct(es, inv);
      id := invites.Unlink(inv);
      if id == -1 {
        return;
      }
      IdsWithout(es, inv, Find(es, inv));
      assert es[Find(es, inv)] in es;
      pool.PurgeId(id);
    }
  }

  lemma IdsWithout(es: seq<Entry>, inv: Invitation, k: nat)
    requires Distinct(es) && k < |es| && Find(es, inv) == k
    ensures Ids(Without(es, inv)) == Ids(es) - {es[k].id}
  {
    WithoutEntries(es, inv);
    forall e | e in es && e.inv != inv
      ensures e.id != es[k].id
    {
      var j :| 0 <= j < |es| && es[j] == e;
      assert j != k;
    }
    forall e | e in es && e.inv == inv
      ensures e == es[k]
    {
      var j :| 0 <= j < |es| && es[j] == e;
    }
  }
}
