/** Registration and departure as threads interleave them: creg_register checks the length
    without a lock, waits for a place, and inserts under the mutex; creg_unregister takes a client
    out under the mutex and then posts its place. */
module Admission {
  import opened Basics
  import opened Clients
  import opened ClientRegistries

  /** Each thread serves one client.  waiting: past the check; holding: has a place but is not
      inserted yet; posting: has been taken out, with the mutex still held. */
  datatype Hall = Hall(
    free: int, closed: bool, waiting: set<Client>, holding: set<Client>, registry: seq<Client>, posting: Option<Client>,
    arrivals: seq<Client>, gone: set<Client>)

  const OPENED := Hall(MAX_CLIENTS, false, {}, {}, [], None, [], {})

  datatype Act =
    | Check(c: Client)
    | Wait(c: Client)
    | Insert(c: Client)
    | TakeOut(c: Client)
    | PostPlace(c: Client)
    | Shutdown

  predicate Seen(h: Hall, c: Client) {
    c in h.waiting || c in h.holding || c in h.arrivals
  }

  /** The semaphore blocks at zero; the mutex is free except between TakeOut and PostPlace. */
  predicate CanAct(h: Hall, a: Act) {
    match a
    case Check(c) => !Seen(h, c)
    case Wait(c) => c in h.waiting && h.free > 0
    case Insert(c) => c in h.holding && h.posting == None
    case TakeOut(c) => c in h.registry && h.posting == None
    case PostPlace(c) => h.posting == Some(c)
    case Shutdown => h.posting == None
  }

  /** The array after an insertion: slot length is overwritten, wherever that is. */
  function AfterAct(h: Hall, a: Act): Hall {
    match a
    case Check(c) => if |h.registry| >= MAX_CLIENTS || h.closed then h else h.(waiting := h.waiting + {c})
    case Wait(c) => h.(free := h.free - 1, waiting := h.waiting - {c}, holding := h.holding + {c})
    case Insert(c) => h.(holding := h.holding - {c}, registry := h.registry + [c], arrivals := h.arrivals + [c])
    case TakeOut(c) => h.(registry := Left(h.registry, c), posting := Some(c), gone := h.gone + {c})
    case PostPlace(c) => h.(free := h.free + 1, posting := None)
    case Shutdown => h.(closed := true)
  }

  function ActAll(h: Hall, acts: seq<Act>): Option<Hall>
    decreases |acts|
  {
    if acts == [] then Some(h) else if CanAct(h, acts[0]) then ActAll(AfterAct(h, acts[0]), acts[1..]) else None
  }

  /** The clients of a sequence that are not in a set, in their order. */
  function Staying(cs: seq<Client>, gone: set<Client>): seq<Client> {
    if cs == [] then [] else if cs[0] in gone then Staying(cs[1..], gone) else [cs[0]] + Staying(cs[1..], gone)
  }

  /** Every place is free, held by a thread about to insert, taken by a registered client, or
      about to be posted; and the registered clients are those that arrived and have not gone, in
      the order in which they arrived. */
  ghost predicate Orderly(h: Hall) {
    && h.free >= 0
    && h.free + |h.holding| + |h.registry| + (if h.posting.Some? then 1 else 0) == MAX_CLIENTS
    && h.waiting !! h.holding
    && (forall c <- h.arrivals :: c !in h.waiting && c !in h.holding)
    && (forall c <- h.gone :: c in h.arrivals)
    && NoRepeat(h.arrivals)
    && h.registry == Staying(h.arrivals, h.gone)
  }

  /* ---------- who stays ---------- */

  lemma {:induction false} StayingIs(cs: seq<Client>, gone: set<Client>)
    ensures forall c :: c in Staying(cs, gone) <==> c in cs && c !in gone
    ensures NoRepeat(cs) ==> NoRepeat(Staying(cs, gone))
  {
    if cs != [] {
      var rest := cs[1..];
      assert cs == [cs[0]] + rest;
      StayingIs(rest, gone);
      if NoRepeat(cs) {
        NoRepeatTail(cs);
        if cs[0] !in gone {
          NoRepeatCons(cs[0], Staying(rest, gone));
        }
      }
    }
  }

  lemma StaysIn(cs: seq<Client>, gone: set<Client>, c: Client)
    ensures c in Staying(cs, gone) <==> c in cs && c !in gone
  {
    StayingIs(cs, gone);
  }

  lemma NoRepeatTail(cs: seq<Client>)
    requires NoRepeat(cs) && cs != []
    ensures NoRepeat(cs[1..]) && cs[0] !in cs[1..]
  {
  }

  lemma NoRepeatCons(c: Client, cs: seq<Client>)
    requires NoRepeat(cs) && c !in cs
    ensures NoRepeat([c] + cs)
  {
  }

  lemma {:induction false} StayingAppend(cs: seq<Client>, c: Client, gone: set<Client>)
    requires c !in gone
    ensures Staying(cs + [c], gone) == Staying(cs, gone) + [c]
  {
    if cs == [] {
      assert cs + [c] == [c];
    } else {
      assert (cs + [c])[1..] == cs[1..] + [c];
      StayingAppend(cs[1..], c, gone);
    }
  }

  lemma {:induction false} StayingSame(cs: seq<Client>, c: Client, gone: set<Client>)
    requires c !in cs
    ensures Staying(cs, gone + {c}) == Staying(cs, gone)
  {
    if cs != [] {
      StayingSame(cs[1..], c, gone);
    }
  }

  /** Shifting the later clients down is leaving the gone one out. */
  lemma {:induction false} StayingLeft(cs: seq<Client>, c: Client, gone: set<Client>)
    requires NoRepeat(cs) && c in cs && c !in gone
    ensures Staying(cs, gone + {c}) == Left(Staying(cs, gone), c)
  {
    hide NoRepeat, Left;
    var rest := cs[1..];
    NoRepeatTail(cs);
    if cs[0] == c {
      StayingSame(rest, c, gone);
      LeftFirst(c, Staying(rest, gone));
    } else {
      StayingLeft(rest, c, gone);
      StaysIn(rest, gone, c);
      LeftCons(cs[0], Staying(rest, gone), c);
    }
  }

  lemma LeftFirst(c: Client, cs: seq<Client>)
    ensures Left([c] + cs, c) == cs
  {
    assert FindClient([c] + cs, c) == 0;
  }

  lemma LeftCons(d: Client, cs: seq<Client>, c: Client)
    requires d != c && c in cs
    ensures Left([d] + cs, c) == [d] + Left(cs, c)
  {
    var xs := [d] + cs;
    assert xs[1..] == cs;
    var k := FindClient(cs, c);
    assert FindClient(xs, c) == k + 1;
    if k < |cs| {
      assert Left(xs, c) == [d] + Left(cs, c);
    }
  }

  /* ---------- every interleaving ---------- */

  lemma TakenOut(h: Hall, c: Client)
    requires Orderly(h) && c in h.registry
    ensures c in h.arrivals && c !in h.gone && NoRepeat(h.registry)
    ensures |Left(h.registry, c)| == |h.registry| - 1
    ensures Left(h.registry, c) == Staying(h.arrivals, h.gone + {c})
  {
    StayingIs(h.arrivals, h.gone);
    StayingLeft(h.arrivals, c, h.gone);
    LeftKeepsOrder(h.registry, c);
  }

  lemma ActKeeps(h: Hall, a: Act)
    requires Orderly(h) && CanAct(h, a)
    ensures Orderly(AfterAct(h, a))
  {
    match a
    case Insert(c) =>
      StayingAppend(h.arrivals, c, h.gone);
    case TakeOut(c) =>
      TakenOut(h, c);
    case _ =>
  }

  lemma {:induction false} ActAllKeeps(h: Hall, acts: seq<Act>)
    requires Orderly(h)
    ensures ActAll(h, acts).Some? ==> Orderly(ActAll(h, acts).value)
    decreases |acts|
  {
    hide Orderly;
    if acts != [] && CanAct(h, acts[0]) {
      ActKeeps(h, acts[0]);
      ActAllKeeps(AfterAct(h, acts[0]), acts[1..]);
    }
  }

  /** In every interleaving the places add up, and the array holds those that came and stayed, in
      the order of their coming. */
  lemma AlwaysOrderly(acts: seq<Act>)
    ensures ActAll(OPENED, acts).Some? ==> Orderly(ActAll(OPENED, acts).value)
  {
    ActAllKeeps(OPENED, acts);
  }

  /** Whenever a thread can insert there is a slot for it, although the length was checked
      without a lock and any number of threads have come in since. */
  lemma InsertInBounds(acts: seq<Act>, c: Client)
    requires ActAll(OPENED, acts).Some? && CanAct(ActAll(OPENED, acts).value, Insert(c))
    ensures |ActAll(OPENED, acts).value.registry| < MAX_CLIENTS && c !in ActAll(OPENED, acts).value.registry
  {
    AlwaysOrderly(acts);
    var h := ActAll(OPENED, acts).value;
    assert c in h.holding;
    StayingIs(h.arrivals, h.gone);
  }

  /** A thread past the check is held up exactly while every place is taken. */
  lemma WaitsExactlyWhenFull(acts: seq<Act>, c: Client)
    requires ActAll(OPENED, acts).Some? && c in ActAll(OPENED, acts).value.waiting
    ensures var h := ActAll(OPENED, acts).value;
            !CanAct(h, Wait(c)) <==> |h.holding| + |h.registry| + (if h.posting.Some? then 1 else 0) == MAX_CLIENTS
  {
    AlwaysOrderly(acts);
  }

  /* ---------- who is let in ---------- */

  /** What a new client's thread does: it checks, waits and inserts. */
  function Coming(c: Client): seq<Act> {
    [Check(c), Wait(c), Insert(c)]
  }

  lemma {:induction false} ActAllAppend(h: Hall, acts: seq<Act>, more: seq<Act>)
    requires ActAll(h, acts).Some?
    ensures ActAll(h, acts + more) == ActAll(ActAll(h, acts).value, more)
    decreases |acts|
  {
    if acts == [] {
      assert acts + more == more;
    } else {
      assert (acts + more)[0] == acts[0] && (acts + more)[1..] == acts[1..] + more;
      ActAllAppend(AfterAct(h, acts[0]), acts[1..], more);
    }
  }

  /** A new client that finds nobody in its way gets in, behind all others, exactly when fewer than 64
      are registered, the registry is not shut down and a place is free; it is turned away at once
      exactly when one of the first two fails. */
  lemma AdmitsExactly(acts: seq<Act>, c: Client)
    requires ActAll(OPENED, acts).Some?
    requires var h := ActAll(OPENED, acts).value; !Seen(h, c) && h.posting == None
    ensures var (h, r) := (ActAll(OPENED, acts).value, ActAll(ActAll(OPENED, acts).value, Coming(c)));
            && (r.Some? <==> |h.registry| < 64 && !h.closed && h.free > 0)
            && (r.Some? ==> r.value.registry == h.registry + [c])
            && (c in AfterAct(h, Check(c)).waiting <==> |h.registry| < 64 && !h.closed)
            && ((|h.registry| >= 64 || h.closed) ==> AfterAct(h, Check(c)) == h)
  {
    var h := ActAll(OPENED, acts).value;
    var (h1, run) := (AfterAct(h, Check(c)), Coming(c));
    assert run[1..] == [Wait(c), Insert(c)] && run[1..][1..] == [Insert(c)] && run[1..][1..][1..] == [];
    if CanAct(h1, Wait(c)) {
      var h2 := AfterAct(h1, Wait(c));
      assert ActAll(h2, [Insert(c)]) == ActAll(AfterAct(h2, Insert(c)), []);
      assert ActAll(h1, run[1..]) == ActAll(h2, [Insert(c)]);
    } else {
      assert ActAll(h1, run[1..]) == None;
    }
    assert ActAll(h, run) == ActAll(h1, run[1..]);
  }

  /** Nothing opens the registry again. */
  lemma {:induction false} ClosedForGood(h: Hall, acts: seq<Act>)
    requires h.closed || Shutdown in acts
    ensures ActAll(h, acts).Some? ==> ActAll(h, acts).value.closed
    decreases |acts|
  {
    if acts != [] && CanAct(h, acts[0]) {
      assert Shutdown in acts ==> acts[0] == Shutdown || Shutdown in acts[1..];
      ClosedForGood(AfterAct(h, acts[0]), acts[1..]);
    }
  }

  lemma {:induction false} StaysUnseen(h: Hall, acts: seq<Act>, c: Client)
    requires h.closed && !Seen(h, c)
    ensures ActAll(h, acts).Some? ==> !Seen(ActAll(h, acts).value, c)
    decreases |acts|
  {
    if acts != [] && CanAct(h, acts[0]) {
      StaysUnseen(AfterAct(h, acts[0]), acts[1..], c);
    }
  }

  /** A client that has not passed the check when the registry is shut down is registered in no later
      state of any run. */
  lemma ShutOut(before: seq<Act>, after: seq<Act>, c: Client)
    requires ActAll(OPENED, before).Some? && Shutdown in before && !Seen(ActAll(OPENED, before).value, c)
    ensures ActAll(OPENED, before + after).Some? ==> c !in ActAll(OPENED, before + after).value.registry
  {
    hide Orderly;
    var h := ActAll(OPENED, before).value;
    ClosedForGood(OPENED, before);
    ActAllAppend(OPENED, before, after);
    StaysUnseen(h, after, c);
    if ActAll(OPENED, before + after).Some? {
      AlwaysOrderly(before + after);
      if c in ActAll(OPENED, before + after).value.registry {
        RegisteredArrived(ActAll(OPENED, before + after).value, c);
      }
    }
  }

  lemma RegisteredArrived(h: Hall, c: Client)
    requires Orderly(h) && c in h.registry
    ensures c in h.arrivals
  {
    StayingIs(h.arrivals, h.gone);
  }
}
