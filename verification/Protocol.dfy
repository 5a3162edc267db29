/** Packets on the wire: the fixed-size header, and sending and receiving over a socket that may
    move any number of the bytes asked for, or fail, at every call. */
module Protocol {
  import opened Basics

  type Byte = b: int | 0 <= b < 256
  type Word = w: int | 0 <= w < 0x1_0000
  type Long = l: int | 0 <= l < 0x1_0000_0000

  const HEADER_SIZE: nat := 16

  /* ---------- the header ---------- */

  /** The fields in host byte order. */
  datatype Header = Header(kind: Byte, id: Byte, role: Byte, size: Word, sec: Long, nsec: Long)

  function Be16(w: Word): seq<Byte> {
    [w / 256, w % 256]
  }

  function Be32(l: Long): seq<Byte> {
    Be16(l / 0x1_0000) + Be16(l % 0x1_0000)
  }

  /** The header as it lies in memory: a byte of padding aligns the size and two more the
      timestamps, all zero. */
  function HeaderBytes(h: Header): (bs: seq<Byte>)
    ensures |bs| == HEADER_SIZE
  {
    [h.kind, h.id, h.role, 0] + Be16(h.size) + [0, 0] + Be32(h.sec) + Be32(h.nsec)
  }

  /** What ntohs reads from the size field. */
  function SizeIn(bs: seq<Byte>): (n: Word)
    requires |bs| == HEADER_SIZE
  {
    (bs[4] as int) * 256 + bs[5]
  }

  function ParseHeader(bs: seq<Byte>): Header
    requires |bs| == HEADER_SIZE
  {
    Header(bs[0], bs[1], bs[2], SizeIn(bs), Long4(bs[8], bs[9], bs[10], bs[11]), Long4(bs[12], bs[13], bs[14], bs[15]))
  }

  function Long4(a: Byte, b: Byte, c: Byte, d: Byte): Long {
    (a * 256 + b) * 0x1_0000 + (c * 256 + d)
  }

  lemma Long4Be32(l: Long)
    ensures Long4(Be32(l)[0], Be32(l)[1], Be32(l)[2], Be32(l)[3]) == l
  {
  }

  /** The wire form loses nothing. */
  lemma HeaderRoundTrip(h: Header)
    ensures ParseHeader(HeaderBytes(h)) == h && SizeIn(HeaderBytes(h)) == h.size
  {
    Long4Be32(h.sec);
    Long4Be32(h.nsec);
    var bs := HeaderBytes(h);
    assert bs[8..12] == Be32(h.sec) && bs[12..16] == Be32(h.nsec);
    assert bs[8] == bs[8..12][0] && bs[9] == bs[8..12][1] && bs[10] == bs[8..12][2] && bs[11] == bs[8..12][3];
    assert bs[12] == bs[12..16][0] && bs[13] == bs[12..16][1] && bs[14] == bs[12..16][2] && bs[15] == bs[12..16][3];
  }

  /** An int stored in a uint8_t. */
  function Octet(n: int): Byte {
    n % 256
  }

  /** create_header: every argument is narrowed to the width of its field. */
  function CreateHeader(kind: int, id: int, role: int, size: int, sec: int, nsec: int): Header {
    Header(Octet(kind), Octet(id), Octet(role), size % 0x1_0000, sec % 0x1_0000_0000, nsec % 0x1_0000_0000)
  }

  /** What arrives is what was asked for exactly when every argument fits its field. */
  lemma ArrivesIntact(kind: int, id: int, role: int, size: int, sec: int, nsec: int)
    ensures var h := ParseHeader(HeaderBytes(CreateHeader(kind, id, role, size, sec, nsec)));
            && ((h.kind == kind && h.id == id && h.role == role && h.size == size)
                <==> (0 <= kind < 256 && 0 <= id < 256 && 0 <= role < 256 && 0 <= size < 0x1_0000))
            && (h.sec == sec <==> 0 <= sec < 0x1_0000_0000) && (h.nsec == nsec <==> 0 <= nsec < 0x1_0000_0000)
  {
    hide ParseHeader, HeaderBytes;
    HeaderRoundTrip(CreateHeader(kind, id, role, size, sec, nsec));
    Narrowed(size, 0x1_0000);
    Narrowed(sec, 0x1_0000_0000);
    Narrowed(nsec, 0x1_0000_0000);
  }

  lemma Narrowed(n: int, bound: nat)
    requires bound > 0
    ensures n % bound == n <==> 0 <= n < bound
  {
  }

  /** The sixteen bytes: type, ID and role, then the size at the fourth byte and the times at the eighth
      and the twelfth, the most significant byte first. */
  lemma HeaderLayout(h: Header)
    ensures HEADER_SIZE == 16
    ensures var bs := HeaderBytes(h);
            && bs[0] == h.kind && bs[1] == h.id && bs[2] == h.role && bs[3] == bs[6] == bs[7] == 0
            && 256 * (bs[4] as int) + bs[5] == h.size
            && 0x100_0000 * (bs[8] as int) + 0x1_0000 * (bs[9] as int) + 256 * (bs[10] as int) + bs[11] == h.sec
            && 0x100_0000 * (bs[12] as int) + 0x1_0000 * (bs[13] as int) + 256 * (bs[14] as int) + bs[15] == h.nsec
  {
    LongBytes(h.sec);
    LongBytes(h.nsec);
    var bs := HeaderBytes(h);
    assert bs[8..12] == Be32(h.sec) && bs[12..16] == Be32(h.nsec);
    assert bs[8] == bs[8..12][0] && bs[9] == bs[8..12][1] && bs[10] == bs[8..12][2] && bs[11] == bs[8..12][3];
    assert bs[12] == bs[12..16][0] && bs[13] == bs[12..16][1] && bs[14] == bs[12..16][2] && bs[15] == bs[12..16][3];
  }

  lemma LongBytes(l: Long)
    ensures var b := Be32(l);
            |b| == 4 && 0x100_0000 * (b[0] as int) + 0x1_0000 * (b[1] as int) + 256 * (b[2] as int) + b[3] == l
  {
  }

  /* ---------- transfers ---------- */

  /** What the system does at each call: an error or end of file, or at most so many bytes. */
  type System = nat -> int

  function Least(a: int, b: int): int {
    if a < b then a else b
  }

  /** Moving n bytes while at most avail can be moved: how many are moved, and the time after. */
  function Move(n: nat, avail: nat, sys: System, t: nat): (r: (nat, nat))
    ensures r.0 <= n && r.0 <= avail
    decreases n
  {
    if n == 0 then (0, t)
    else
      var k := sys(t);
      if k <= 0 || avail == 0 then (0, t + 1)
      else
        var m := Least(k, Least(n, avail));
        var (moved, t') := Move(n - m, avail - m, sys, t + 1);
        (m + moved, t')
  }

  /** The system always moves at least one byte if there is one. */
  ghost predicate Live(sys: System) {
    forall t: nat :: sys(t) > 0
  }

  /** However the bytes are split, all of them are moved unless there are too few. */
  lemma {:induction false} LiveMoves(n: nat, avail: nat, sys: System, t: nat)
    requires Live(sys)
    ensures Move(n, avail, sys, t).0 == Least(n, avail)
    decreases n
  {
    if n > 0 && avail > 0 {
      var m := Least(sys(t), Least(n, avail));
      LiveMoves(n - m, avail - m, sys, t + 1);
    }
  }

  /* ---------- packets ---------- */

  /** A packet as the sender passes it: the header's bytes and the payload, if any. */
  datatype Packet = Packet(header: seq<Byte>, payload: Option<seq<Byte>>)

  predicate IsPacket(p: Packet) {
    |p.header| == HEADER_SIZE && (p.payload.Some? ==> |p.payload.value| >= SizeIn(p.header))
  }

  /** The size field says whether there is a payload, and how long it is. */
  predicate Proper(p: Packet) {
    && |p.header| == HEADER_SIZE
    && (p.payload == None <==> SizeIn(p.header) == 0)
    && (p.payload.Some? ==> |p.payload.value| == SizeIn(p.header))
  }

  function Encode(p: Packet): seq<Byte> {
    p.header + (if p.payload.Some? then p.payload.value else [])
  }

  /** What proto_send_packet writes, its result, and the time after. */
  function Send(p: Packet, sys: System, t: nat): (seq<Byte>, int, nat)
    requires IsPacket(p)
  {
    var (k, t1) := Move(HEADER_SIZE, HEADER_SIZE, sys, t);
    var size := SizeIn(p.header);
    if k < HEADER_SIZE then (p.header[..k], -1, t1)
    else if p.payload == None then (p.header, if size == 0 then 0 else -1, t1)
    else if size == 0 then (p.header, -1, t1)
    else
      var (k2, t2) := Move(size, size, sys, t1);
      (p.header + p.payload.value[..k2], if k2 == size then 0 else -1, t2)
  }

  datatype Received = Received(result: int, header: seq<Byte>, payload: Option<seq<Byte>>, rest: seq<Byte>, time: nat)

  /** What proto_recv_packet makes of the bytes that are to arrive. */
  function Receive(bytes: seq<Byte>, sys: System, t: nat): Received {
    var (k, t1) := Move(HEADER_SIZE, |bytes|, sys, t);
    if k < HEADER_SIZE then Received(-1, bytes[..k], None, bytes[k..], t1)
    else
      var header := bytes[..k];
      var size := SizeIn(header);
      if size == 0 then Received(0, header, None, bytes[k..], t1)
      else
        var (k2, t2) := Move(size, |bytes| - k, sys, t1);
        if k2 < size then Received(-1, header, None, bytes[k + k2..], t2)
        else Received(0, header, Some(bytes[k..k + k2]), bytes[k + k2..], t2)
  }

  /** When the system keeps moving bytes, a packet is sent successfully exactly when its size
      field says whether there is a payload; otherwise only its header goes out. */
  lemma SendSucceeds(p: Packet, sys: System, t: nat)
    requires IsPacket(p) && Live(sys)
    ensures Send(p, sys, t).1 == 0 <==> (p.payload == None <==> SizeIn(p.header) == 0)
    ensures Send(p, sys, t).1 != 0 ==> Send(p, sys, t).0 == p.header
    ensures Send(p, sys, t).1 == 0 && p.payload.Some? ==> Send(p, sys, t).0 == p.header + p.payload.value[..SizeIn(p.header)]
    ensures Proper(p) ==> Send(p, sys, t).0 == Encode(p)
  {
    LiveMoves(HEADER_SIZE, HEADER_SIZE, sys, t);
    var t1 := Move(HEADER_SIZE, HEADER_SIZE, sys, t).1;
    LiveMoves(SizeIn(p.header), SizeIn(p.header), sys, t1);
    if Proper(p) && p.payload.Some? {
      assert p.payload.value[..SizeIn(p.header)] == p.payload.value;
    }
  }

  /** Whatever the system does, what goes out is a prefix of the packet, and all of it exactly
      when the send succeeds. */
  lemma SendsPrefix(p: Packet, sys: System, t: nat)
    requires Proper(p)
    ensures Send(p, sys, t).0 <= Encode(p)
    ensures Send(p, sys, t).1 == 0 <==> Send(p, sys, t).0 == Encode(p)
    ensures Send(p, sys, t).1 in {0, -1}
  {
    var k := Move(HEADER_SIZE, HEADER_SIZE, sys, t).0;
    assert p.header[..HEADER_SIZE] == p.header;
    if p.payload.Some? {
      var value := p.payload.value;
      assert value[..|value|] == value;
      assert forall j :: 0 <= j <= |value| ==> p.header + value[..j] <= p.header + value;
    }
  }

  /** A packet is received from its bytes, however reads are split, and nothing else is consumed. */
  lemma ReceiveOne(p: Packet, tail: seq<Byte>, sys: System, t: nat)
    requires Proper(p) && Live(sys)
    ensures var r := Receive(Encode(p) + tail, sys, t);
            r.result == 0 && r.header == p.header && r.payload == p.payload && r.rest == tail
  {
    var bytes := Encode(p) + tail;
    LiveMoves(HEADER_SIZE, |bytes|, sys, t);
    var t1 := Move(HEADER_SIZE, |bytes|, sys, t).1;
    assert bytes[..HEADER_SIZE] == p.header;
    var size := SizeIn(p.header);
    LiveMoves(size, |bytes| - HEADER_SIZE, sys, t1);
    if size > 0 {
      assert bytes[HEADER_SIZE..HEADER_SIZE + size] == p.payload.value;
      assert bytes[HEADER_SIZE + size..] == tail;
    } else {
      assert bytes[HEADER_SIZE..] == tail;
    }
  }

  /** A packet that is cut short is never taken for a whole one. */
  lemma ReceiveCut(p: Packet, bytes: seq<Byte>, sys: System, t: nat)
    requires Proper(p) && Live(sys) && bytes <= Encode(p) && bytes != Encode(p)
    ensures Receive(bytes, sys, t).result == -1 && Receive(bytes, sys, t).rest == []
  {
    LiveMoves(HEADER_SIZE, |bytes|, sys, t);
    if |bytes| >= HEADER_SIZE {
      assert bytes[..HEADER_SIZE] == Encode(p)[..HEADER_SIZE] == p.header;
      var t1 := Move(HEADER_SIZE, |bytes|, sys, t).1;
      LiveMoves(SizeIn(p.header), |bytes| - HEADER_SIZE, sys, t1);
    }
  }

  /* ---------- many packets ---------- */

  predicate AllProper(ps: seq<Packet>) {
    forall k :: 0 <= k < |ps| ==> Proper(ps[k])
  }

  /** Sending packets in turn until one fails: the bytes written and how many succeeded. */
  function SendAll(ps: seq<Packet>, sys: System, t: nat): (r: (seq<Byte>, nat))
    requires AllProper(ps)
    ensures r.1 <= |ps|
  {
    if ps == [] then ([], 0)
    else
      var (bytes, result, t1) := Send(ps[0], sys, t);
      if result != 0 then (bytes, 0)
      else
        var (more, n) := SendAll(ps[1..], sys, t1);
        (bytes + more, n + 1)
  }

  /** Receiving until a receive fails, and the bytes that are left. */
  function ReceiveAll(bytes: seq<Byte>, sys: System, t: nat): (seq<Packet>, seq<Byte>)
    decreases |bytes|
  {
    var r := Receive(bytes, sys, t);
    if r.result != 0 then ([], r.rest)
    else
      var (more, rest) := ReceiveAll(r.rest, sys, r.time);
      ([Packet(r.header, r.payload)] + more, rest)
  }

  lemma NothingToReceive(sys: System, t: nat)
    ensures Receive([], sys, t).result == -1 && Receive([], sys, t).rest == []
  {
  }

  /** However writes and reads are split, and whenever writing breaks off, the packets received
      are exactly those that were sent successfully, in order, and every byte is consumed. */
  lemma {:induction false} Framing(ps: seq<Packet>, out: System, t: nat, inc: System, u: nat)
    requires AllProper(ps) && Live(inc)
    ensures var (bytes, n) := SendAll(ps, out, t);
            ReceiveAll(bytes, inc, u) == (ps[..n], [])
    decreases |ps|
  {
    hide Receive, Send, Encode;
    if ps == [] {
      NothingToReceive(inc, u);
    } else {
      var (bytes, result, t1) := Send(ps[0], out, t);
      SendsPrefix(ps[0], out, t);
      if result != 0 {
        ReceiveCut(ps[0], bytes, inc, u);
      } else {
        var (more, n) := SendAll(ps[1..], out, t1);
        ReceiveOne(ps[0], more, inc, u);
        Framing(ps[1..], out, t1, inc, Receive(bytes + more, inc, u).time);
        assert ps[..n + 1] == [ps[0]] + ps[1..][..n];
      }
    }
  }

  /** When the system keeps moving bytes, all packets arrive. */
  lemma {:induction false} AllArrive(ps: seq<Packet>, out: System, t: nat)
    requires AllProper(ps) && Live(out)
    ensures SendAll(ps, out, t).1 == |ps|
    decreases |ps|
  {
    if ps != [] {
      SendSucceeds(ps[0], out, t);
      AllArrive(ps[1..], out, Send(ps[0], out, t).2);
    }
  }

  lemma FramingWhole(ps: seq<Packet>, out: System, t: nat, inc: System, u: nat)
    requires AllProper(ps) && Live(out) && Live(inc)
    ensures ReceiveAll(SendAll(ps, out, t).0, inc, u) == (ps, [])
  {
    Framing(ps, out, t, inc, u);
    AllArrive(ps, out, t);
    assert ps[..|ps|] == ps;
  }

  /* ---------- the loops ---------- */

  /** One call: it ends the transfer, or the rest of the transfer follows. */
  lemma MoveOn(n: nat, avail: nat, sys: System, t: nat)
    requires n > 0
    ensures var m := Least(sys(t), Least(n, avail));
            Move(n, avail, sys, t)
            == if sys(t) <= 0 || avail == 0 then (0, t + 1)
               else (m + Move(n - m, avail - m, sys, t + 1).0, Move(n - m, avail - m, sys, t + 1).1)
  {
  }

  lemma MoveNothing(avail: nat, sys: System, t: nat)
    ensures Move(0, avail, sys, t) == (0, t)
  {
  }

  /** A buffer into which the first k bytes of the input have gone at a place. */
  lemma BufferIs(b: seq<Byte>, was: seq<Byte>, input: seq<Byte>, off: nat, k: nat)
    requires |b| == |was| && off + k <= |b| && k <= |input|
    requires forall i :: 0 <= i < |b| && !(off <= i < off + k) ==> b[i] == was[i]
    requires forall i :: 0 <= i < k ==> b[off + i] == input[i]
    ensures b == was[..off] + input[..k] + was[off + k..]
  {
    forall i | 0 <= i < |b|
      ensures b[i] == (was[..off] + input[..k] + was[off + k..])[i]
    {
      if off <= i < off + k {
        assert b[off + (i - off)] == input[i - off];
      }
    }
  }

  /** The first bytes of the buffer have come from the input, and the rest of it is to come. */
  ghost predicate Came(input: seq<Byte>, start: seq<Byte>, got: nat, rest: seq<Byte>, buf: seq<Byte>) {
    got <= |input| && got <= |start| && rest == input[got..] && buf == input[..got] + start[got..]
  }

  lemma CameNone(input: seq<Byte>, start: seq<Byte>)
    ensures Came(input, start, 0, input, start)
  {
  }

  lemma CameMore(input: seq<Byte>, start: seq<Byte>, got: nat, rest: seq<Byte>, buf: seq<Byte>, k: nat)
    requires Came(input, start, got, rest, buf) && got + k <= |start| && k <= |rest|
    ensures |buf| == |start| && Came(input, start, got + k, rest[k..], buf[..got] + rest[..k] + buf[got + k..])
  {
    assert buf[..got] == input[..got] && buf[got + k..] == start[got + k..];
    assert input[..got] + input[got..][..k] == input[..got + k];
  }

  lemma Arrived(input: seq<Byte>, start: seq<Byte>, got: nat, rest: seq<Byte>, buf: seq<Byte>)
    requires Came(input, start, got, rest, buf)
    ensures got <= |input| && got <= |start| && rest == input[got..] && buf == input[..got] + start[got..]
  {
  }

  lemma CameSize(input: seq<Byte>, start: seq<Byte>, got: nat, rest: seq<Byte>, buf: seq<Byte>)
    requires Came(input, start, got, rest, buf)
    ensures got <= |input| && |rest| == |input| - got && |buf| == |start|
  {
  }

  /** One end of a connection: the bytes written so far, the bytes still to arrive, and what the
      system will do. */
  class Socket {
    ghost var written: seq<Byte>
    var incoming: seq<Byte>
    const sys: System
    var time: nat

    constructor (sys: System, incoming: seq<Byte>)
      ensures this.sys == sys && this.incoming == incoming && written == [] && time == 0
    {
      this.sys := sys;
      this.incoming := incoming;
      written := [];
      time := 0;
    }

    /** write. */
    method Write(buf: array<Byte>, off: nat, n: nat) returns (k: int)
      requires off + n <= buf.Length
      modifies this`written, this`time
      ensures time == old(time) + 1
      ensures k == if sys(old(time)) <= 0 then sys(old(time)) else Least(sys(old(time)), n)
      ensures written == old(written) + if k > 0 then buf[off..off + k] else []
    {
      k := sys(time);
      time := time + 1;
      if k > 0 {
        k := Least(k, n);
        written := written + buf[off..off + k];
      }
    }

    /** read: nothing is read at the end of the input. */
    method Read(buf: array<Byte>, off: nat, n: nat) returns (k: int)
      requires off + n <= buf.Length
      modifies this`incoming, this`time, buf
      ensures time == old(time) + 1
      ensures k == if sys(old(time)) <= 0 then sys(old(time)) else Least(sys(old(time)), Least(n, |old(incoming)|))
      ensures if k > 0
              then incoming == old(incoming)[k..] && buf[..] == old(buf[..])[..off] + old(incoming)[..k] + old(buf[..])[off + k..]
              else incoming == old(incoming) && buf[..] == old(buf[..])
    {
      k := sys(time);
      time := time + 1;
      if k > 0 {
        k := Least(k, Least(n, |incoming|));
        for j := 0 to k
          modifies buf
          invariant forall i :: 0 <= i < buf.Length && !(off <= i < off + j) ==> buf[i] == old(buf[i])
          invariant forall i :: 0 <= i < j ==> buf[off + i] == incoming[i]
        {
          buf[off + j] := incoming[j];
        }
        BufferIs(buf[..], old(buf[..]), incoming, off, k);
        incoming := incoming[k..];
      }
    }

    /** The loop of proto_send_packet, once for the header and once for the payload. */
    method WriteAll(buf: array<Byte>, n: nat) returns (ok: bool)
      requires n <= buf.Length
      modifies this`written, this`time
      ensures var (k, t) := Move(n, n, sys, old(time));
              && time == t && ok == (k == n) && written == old(written) + buf[..k]
    {
      hide Move;
      var sent, left := 0, n;
      while sent < n
        invariant 0 <= sent <= n && left == n - sent
        invariant written == old(written) + buf[..sent]
        invariant var (k, t) := Move(n, n, sys, old(time)); (k, t) == (sent + Move(left, left, sys, time).0, Move(left, left, sys, time).1)
      {
        var k := Write(buf, sent, left);
        MoveOn(left, left, sys, time - 1);
        if k <= 0 {
          return false;
        }
        assert buf[..sent + k] == buf[..sent] + buf[sent..sent + k];
        sent := sent + k;
        left := left - k;
      }
      MoveNothing(0, sys, time);
      return true;
    }

    /** The loop of proto_recv_packet, once for the header and once for the payload. */
    method ReadAll(buf: array<Byte>, n: nat) returns (ok: bool)
      requires n <= buf.Length
      modifies this`incoming, this`time, buf
      ensures var (k, t) := Move(n, |old(incoming)|, sys, old(time));
              && time == t && ok == (k == n) && incoming == old(incoming)[k..]
              && buf[..] == old(incoming)[..k] + old(buf[k..])
    {
      hide Move, Came;
      ghost var (input, start) := (incoming, buf[..]);
      CameNone(input, start);
      var got, left := 0, n;
      while got < n
        invariant 0 <= got <= n && left == n - got && got <= |input|
        invariant Came(input, start, got, incoming, buf[..])
        invariant Move(n, |input|, sys, old(time))
                  == (got + Move(left, |input| - got, sys, time).0, Move(left, |input| - got, sys, time).1)
      {
        ghost var (rest, was) := (incoming, buf[..]);
        CameSize(input, start, got, rest, was);
        var k := Read(buf, got, left);
        MoveOn(left, |input| - got, sys, time - 1);
        if k <= 0 {
          Arrived(input, start, got, rest, was);
          return false;
        }
        CameMore(input, start, got, rest, was, k);
        got := got + k;
        left := left - k;
      }
      MoveNothing(|input| - got, sys, time);
      Arrived(input, start, got, incoming, buf[..]);
      return true;
    }

    /** proto_send_packet. */
    method SendPacket(hdr: array<Byte>, data: array?<Byte>) returns (r: int)
      requires hdr.Length == HEADER_SIZE
      requires data != null ==> data.Length >= SizeIn(hdr[..])
      modifies this`written, this`time
      ensures var p := Packet(hdr[..], if data == null then None else Some(data[..]));
              var (bytes, result, t) := Send(p, sys, old(time));
              written == old(written) + bytes && r == result && time == t
    {
      var ok := WriteAll(hdr, HEADER_SIZE);
      if !ok {
        return -1;
      }
      assert hdr[..HEADER_SIZE] == hdr[..];
      var size := SizeIn(hdr[..]);
      if size == 0 && data == null {
        return 0;
      }
      if size > 0 && data == null {
        return -1;
      }
      if size == 0 && data != null {
        return -1;
      }
      ok := WriteAll(data, size);
      return if ok then 0 else -1;
    }

    /** proto_recv_packet: the payload buffer has one more byte, which stays zero. */
    method RecvPacket(hdr: array<Byte>) returns (r: int, payload: array?<Byte>)
      requires hdr.Length == HEADER_SIZE
      modifies this`incoming, this`time, hdr
      ensures var e := Receive(old(incoming), sys, old(time));
              && r == e.result && incoming == e.rest && time == e.time
              && |e.header| <= HEADER_SIZE && hdr[..|e.header|] == e.header
              && (payload == null <==> e.payload == None)
              && (payload != null ==> fresh(payload) && payload[..] == e.payload.value + [0])
    {
      payload := null;
      var ok := ReadAll(hdr, HEADER_SIZE);
      if !ok {
        return -1, null;
      }
      assert hdr[..] == old(incoming)[..HEADER_SIZE];
      var size: nat := SizeIn(hdr[..]);
      if size <= 0 {
        return 0, null;
      }
      var buf := new Byte[size + 1](_ => 0);
      ghost var (input, now) := (incoming, time);
      ok := ReadAll(buf, size);
      assert input == old(incoming)[HEADER_SIZE..];
      ghost var k := Move(size, |input|, sys, now).0;
      assert incoming == old(incoming)[HEADER_SIZE + k..];
      if !ok {
        return -1, null;
      }
      assert input[..k] == old(incoming)[HEADER_SIZE..HEADER_SIZE + k];
      return 0, buf;
    }
  }
}
