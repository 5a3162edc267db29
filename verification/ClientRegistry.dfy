/** The client registry: a fixed array of at most 64 clients guarded by a counting semaphore. */
module ClientRegistries {
  import opened Basics
  import opened Clients

  const MAX_CLIENTS := 64

  /** The position of a client, or the length. */
  function FindClient(cs: seq<Client>, c: Client): (k: nat)
    ensures k <= |cs|
    ensures k < |cs| ==> cs[k] == c
    ensures forall j :: 0 <= j < k ==> cs[j] != c
  {
    if cs == [] then 0 else if cs[0] == c then 0 else 1 + FindClient(cs[1..], c)
  }

  /** The registered clients after one leaves. */
  function Left(cs: seq<Client>, c: Client): seq<Client> {
    var k := FindClient(cs, c);
    if k < |cs| then Cut(cs, k) else cs
  }

  /** The others stay, each once and in their original order. */
  lemma LeftKeepsOrder(cs: seq<Client>, c: Client)
    requires NoRepeat(cs) && c in cs
    ensures NoRepeat(Left(cs, c)) && |Left(cs, c)| == |cs| - 1
    ensures forall d :: d in Left(cs, c) <==> d in cs && d != c
    ensures forall a, b :: a in Left(cs, c) && b in Left(cs, c) ==>
              (FindClient(Left(cs, c), a) < FindClient(Left(cs, c), b) <==> FindClient(cs, a) < FindClient(cs, b))
  {
    var k := FindClient(cs, c);
    var ls := Left(cs, c);
    forall d
      ensures d in ls <==> d in cs && d != c
      ensures d in ls ==> FindClient(cs, d) == FindClient(ls, d) + (if FindClient(ls, d) < k then 0 else 1)
    {
      LeftMember(cs, c, d);
    }
  }

  lemma LeftMember(cs: seq<Client>, c: Client, d: Client)
    requires NoRepeat(cs) && c in cs
    ensures d in Left(cs, c) <==> d in cs && d != c
    ensures d in Left(cs, c) ==>
              FindClient(cs, d) == FindClient(Left(cs, c), d) + (if FindClient(Left(cs, c), d) < FindClient(cs, c) then 0 else 1)
  {
    var k := FindClient(cs, c);
    var ls := Left(cs, c);
    if d in cs && d != c {
      var j := FindClient(cs, d);
      assert if j < k then ls[j] == d else ls[j - 1] == d;
    }
    if d in ls {
      var j := FindClient(ls, d);
      assert cs[if j < k then j else j + 1] == d;
    }
  }

  class ClientRegistry {
    const clients: array<Client?>
    var length: nat
    /** Free places: the semaphore login_queue. */
    var loginQueue: nat
    /** Times the registry became empty: the semaphore sem. */
    var emptied: nat
    ghost var contents: seq<Client>

    ghost predicate Valid()
      reads this, clients
    {
      && clients.Length == MAX_CLIENTS
      && length == |contents| <= MAX_CLIENTS
      && (forall k :: 0 <= k < length ==> clients[k] == contents[k])
      && NoRepeat(contents)
    }

    constructor ()
      ensures Valid() && fresh(clients) && contents == [] && loginQueue == MAX_CLIENTS && emptied == 0
    {
      clients := new Client?[MAX_CLIENTS](_ => null);
      length := 0;
      loginQueue := MAX_CLIENTS;
      emptied := 0;
      contents := [];
    }

    /** The locked part of creg_register.  That there is room is the admission invariant
        (Admission.InsertInBounds). */
    method Insert(client: Client)
      requires Valid() && length < MAX_CLIENTS && client !in contents
      modifies this`length, this`contents, clients
      ensures Valid() && contents == old(contents) + [client]
    {
      clients[length] := client;
      length := length + 1;
      contents := contents + [client];
    }

    /** creg_unregister without the logout and the release of the client: clear the slot, shift
        the later clients down and free one place. */
    method Remove(client: Client) returns (found: bool)
      requires Valid()
      modifies this, clients
      ensures Valid() && found == (client in old(contents))
      ensures contents == Left(old(contents), client)
      ensures loginQueue == old(loginQueue) + (if found then 1 else 0)
      ensures emptied == old(emptied) + (if found && length == 0 then 1 else 0)
    {
      ghost var cs := contents;
      var i := Find(client);
      if i == length {
        return false;
      }
      LeftKeepsOrder(cs, client);
      Shift(i);
      length := length - 1;
      contents := Left(cs, client);
      loginQueue := loginQueue + 1;
      if length == 0 {
        emptied := emptied + 1;
      }
      return true;
    }

    /** The search loop of creg_unregister. */
    method Find(client: Client) returns (i: nat)
      requires Valid()
      ensures i == FindClient(contents, client)
    {
      i := 0;
      while i < length
        invariant 0 <= i <= length
        invariant forall k :: 0 <= k < i ==> contents[k] != client
      {
        if clients[i] == client {
          return;
        }
        i := i + 1;
      }
    }

    /** Clear slot i and move every later client one slot down. */
    method Shift(i: nat)
      requires clients.Length == MAX_CLIENTS && i < length <= MAX_CLIENTS
      modifies clients
      ensures forall k :: 0 <= k < i ==> clients[k] == old(clients[k])
      ensures forall k :: i <= k < length - 1 ==> clients[k] == old(clients[k + 1])
    {
      clients[i] := null;
      var j := i;
      while j < length - 1
        invariant i <= j <= length - 1
        invariant forall k :: 0 <= k < i ==> clients[k] == old(clients[k])
        invariant forall k :: i <= k < j ==> clients[k] == old(clients[k + 1])
        invariant forall k :: j < k < length ==> clients[k] == old(clients[k])
      {
        clients[j] := clients[j + 1];
        j := j + 1;
      }
    }
  }
}
