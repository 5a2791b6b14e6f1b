/** Packets over a byte stream: `Send`, `ReceivePacket` and the two-party FIFO they form. */
module Framing {
  import opened Bytes
  import opened PacketHeader
  import opened Sequences

  /** The largest byte array the runtime allocates. */
  const MAX_ARRAY := 0x7FFF_FFC7

  datatype AnyFrame = Frame(action: ushort, encryption: ushort, sentAt: int64, body: seq<byte>)

  /** A frame that `Send` can build: header and body share one array. */
  type Frame = f: AnyFrame | HEADER_SIZE + |f.body| <= MAX_ARRAY witness Frame(EMPTY, NONE, 0, [])

  predicate Fits(body: seq<byte>) {
    HEADER_SIZE + |body| <= MAX_ARRAY
  }

  function HeaderOf(f: Frame): Header {
    Header(|f.body|, f.action, BINARY, f.encryption, f.sentAt)
  }

  function EncodeFrame(f: Frame): (s: seq<byte>)
    ensures |s| == HEADER_SIZE + |f.body|
  {
    PacketHeader.Encode(HeaderOf(f)) + f.body
  }

  function EncodeAll(fs: seq<Frame>): seq<byte> {
    if fs == [] then [] else EncodeFrame(fs[0]) + EncodeAll(fs[1..])
  }

  lemma {:induction false} EncodeAllConcat(fs: seq<Frame>, gs: seq<Frame>)
    ensures EncodeAll(fs + gs) == EncodeAll(fs) + EncodeAll(gs)
  {
    hide EncodeFrame;
    if fs == [] {
      assert fs + gs == gs;
      assert [] + EncodeAll(gs) == EncodeAll(gs);
    } else {
      EncodeAllConcat(fs[1..], gs);
      assert (fs + gs)[0] == fs[0] && (fs + gs)[1..] == fs[1..] + gs;
      Assoc(EncodeFrame(fs[0]), EncodeAll(fs[1..]), EncodeAll(gs));
    }
  }

  /** The names of actions and encryptions as they lie on the wire, behind the length and around the binary encoding. */
  lemma {:induction false} NamesOnTheWire(f: Frame)
    ensures var s := EncodeFrame(f);
            && s[6..8] == [3, 0] && s[18..] == f.body
            && (f.action in {EMPTY, PING, PONG, SYN, SYNACK, ACK, READY} ==>
                  s[4..6] == [if f.action == EMPTY then 0 else if f.action == PING then 1 else if f.action == PONG then 2
                              else if f.action == SYN then 3 else if f.action == SYNACK then 4
                              else if f.action == ACK then 5 else 6, 0])
            && (f.encryption in {NONE, RSA, CHACHA} ==>
                  s[8..10] == [if f.encryption == NONE then 0 else if f.encryption == RSA then 2 else 3, 0])
  {
    var h, s := HeaderOf(f), EncodeFrame(f);
    forall k | 0 <= k < HEADER_SIZE
      ensures s[k] == PacketHeader.Encode(h)[k]
    {
    }
    HeaderLayout(h, 4);
    HeaderLayout(h, 5);
    HeaderLayout(h, 6);
    HeaderLayout(h, 7);
    HeaderLayout(h, 8);
    HeaderLayout(h, 9);
    assert Pow256(0) == 1 && Pow256(1) == 0x100;
    hide Pow256, PacketHeader.Encode;
    assert s[4..6] == [s[4], s[5]] && s[6..8] == [s[6], s[7]] && s[8..10] == [s[8], s[9]];
  }

  // ---------------------------------------------------------------- one poll

  datatype Outcome = Nothing | Packet(header: Header, body: seq<byte>) | Throws

  datatype Polled = Polled(outcome: Outcome, rest: seq<byte>)

  function Zeros(n: nat): (z: seq<byte>)
    ensures |z| == n
  {
    seq(n, _ => 0)
  }

  function Min(a: int, b: int): int {
    if a < b then a else b
  }

  /** One `ReceivePacket` on `avail`, the bytes that have arrived. The body is one read, which returns what is there;
      only when nothing is there does it block, until the bytes `late` arrive (none when the peer has closed).
      A length no array can have throws. */
  function Receive(avail: seq<byte>, late: seq<byte>): Polled {
    if |avail| < HEADER_SIZE then
      Polled(Nothing, avail)
    else
      var h := Decode(avail[..HEADER_SIZE]);
      var rest := avail[HEADER_SIZE..];
      if h.byteLength < 0 || h.byteLength > MAX_ARRAY then Polled(Throws, rest)
      else if h.byteLength == 0 then Polled(Packet(h, []), rest)
      else
        var source := if rest == [] then late else rest;
        var got := Min(|source|, h.byteLength);
        Polled(Packet(h, if got == 0 then [] else source[..got] + Zeros(h.byteLength - got)), source[got..])
  }

  /** Every case of a poll: too few bytes, a length no array can have, no body, and a body read that gets all of it, part of
      it, which is padded with zeros, or nothing, as from a peer that has closed. */
  lemma {:induction false} PollCases(avail: seq<byte>, late: seq<byte>)
    ensures var p := Receive(avail, late);
            if |avail| < 18 then p == Polled(Nothing, avail)
            else
              var n, rest := ReadInt(avail[0..4]), avail[18..];
              var source := if rest == [] then late else rest;
              if n < 0 || n > 0x7FFF_FFC7 then p == Polled(Throws, rest)
              else
                && p.outcome.Packet? && Some(p.outcome.header) == ValidateHeader(avail[..18])
                && (n == 0 ==> p.outcome.body == [] && p.rest == rest)
                && (0 < n <= |source| ==> p.outcome.body + p.rest == source && |p.outcome.body| == n)
                && (0 < |source| < n ==> |p.outcome.body| == n && source < p.outcome.body && p.rest == []
                                         && forall k :: |source| <= k < n ==> p.outcome.body[k] == 0)
                && (n > 0 && source == [] ==> p.outcome.body == [] && p.rest == [])
  {
    if |avail| >= 18 {
      assert avail[..18][0..4] == avail[0..4];
      var n, rest := ReadInt(avail[0..4]), avail[18..];
      var source := if rest == [] then late else rest;
      if 0 < n <= |source| {
        assert source[..n] + Zeros(0) == source[..n];
        assert source[..n] + source[n..] == source;
      }
    }
  }

  /** The body read blocks: a header has arrived and nothing behind it, and a body is due. */
  predicate Blocks(avail: seq<byte>) {
    |avail| == HEADER_SIZE && 0 < Decode(avail).byteLength <= MAX_ARRAY
  }

  /** Not even a header has arrived, or its whole body has too, or the read that blocks for the body gets all of it. */
  predicate BodyReady(avail: seq<byte>, late: seq<byte>) {
    |avail| >= HEADER_SIZE ==>
      var n := Decode(avail[..HEADER_SIZE]).byteLength;
      0 <= n && HEADER_SIZE + n <= |avail| + if Blocks(avail) then |late| else 0
  }

  /** The part of `head + body + more` between the head and `upto`, when it reaches past the body. */
  lemma {:induction false} BodyWithin(head: seq<byte>, body: seq<byte>, more: seq<byte>, upto: nat)
    requires |head| + |body| <= upto <= |head + body + more|
    ensures var s := head + body + more;
            var source := s[|head|..upto];
            source[..|body|] == body && source[|body|..] + s[upto..] == more
  {
    var s := head + body + more;
    var source := s[|head|..upto];
    assert s[|head| + |body|..] == more;
    assert source[|body|..] == s[|head| + |body|..upto];
  }

  /** Exactly when a poll that sees a header delivers that frame and leaves the stream at the next frame:
      when its whole body has arrived, or none of it has and the read that blocks gets all of it. */
  lemma {:induction false} ReceiveAligned(f: Frame, more: seq<byte>, n: nat, m: nat)
    requires HEADER_SIZE <= n <= m <= |EncodeFrame(f) + more|
    ensures var s := EncodeFrame(f) + more;
            var p := Receive(s[..n], s[n..m]);
            var blocked := n == HEADER_SIZE && f.body != [];
            var unread := p.rest + (if blocked then s[m..] else s[n..]);
            (p.outcome == Packet(HeaderOf(f), f.body) && unread == more)
            <==> HEADER_SIZE + |f.body| <= if blocked then m else n
  {
    var s := EncodeFrame(f) + more;
    assert s[..n][..HEADER_SIZE] == PacketHeader.Encode(HeaderOf(f));
    ValidateInvertsWrite(HeaderOf(f));
    var p := Receive(s[..n], s[n..m]);
    var blocked := n == HEADER_SIZE && f.body != [];
    var upto := if blocked then m else n;
    var source := s[HEADER_SIZE..upto];
    assert source == if blocked then s[n..m] else s[..n][HEADER_SIZE..];
    if HEADER_SIZE + |f.body| <= upto {
      BodyWithin(PacketHeader.Encode(HeaderOf(f)), f.body, more, upto);
      assert f.body + Zeros(0) == f.body;
    } else {
      assert p.rest == [];
      assert |p.rest + s[upto..]| == |s| - upto > |more|;
    }
  }

  /** What the unlooped body read does to a body of which only part has arrived: the tail reads as zeros,
      and the true tail is left at the head of the stream to be taken for a header. */
  lemma {:induction false} PartialBodyCorrupts(f: Frame, more: seq<byte>, n: nat, late: seq<byte>)
    requires HEADER_SIZE < n < HEADER_SIZE + |f.body|
    ensures var s := EncodeFrame(f) + more;
            var k := n - HEADER_SIZE;
            Receive(s[..n], late) == Polled(Packet(HeaderOf(f), f.body[..k] + Zeros(|f.body| - k)), [])
            && s[n..] == f.body[k..] + more
  {
    var s := EncodeFrame(f) + more;
    assert s[..n][..HEADER_SIZE] == PacketHeader.Encode(HeaderOf(f));
    ValidateInvertsWrite(HeaderOf(f));
    var k := n - HEADER_SIZE;
    assert s[..n][HEADER_SIZE..] == f.body[..k];
    assert f.body[..k][..k] == f.body[..k] && f.body[..k][k..] == [];
    assert s[n..] == f.body[k..] + more;
  }

  /** The hypothesis on polls is exactly `ReceiveAligned`'s condition. */
  lemma {:induction false} ReadyIsAligned(f: Frame, more: seq<byte>, n: nat, m: nat)
    requires n <= m <= |EncodeFrame(f) + more|
    ensures var s := EncodeFrame(f) + more;
            BodyReady(s[..n], s[n..m])
            <==> n < 18 || 18 + |f.body| <= if n == 18 && f.body != [] then m else n
  {
    var s := EncodeFrame(f) + more;
    if n >= HEADER_SIZE {
      assert s[..n][..HEADER_SIZE] == PacketHeader.Encode(HeaderOf(f));
      if n == HEADER_SIZE {
        assert s[..n] == s[..n][..HEADER_SIZE];
      }
      ValidateInvertsWrite(HeaderOf(f));
    }
  }

  // ---------------------------------------------------------------- the FIFO

  /** The frames a stream holds, read as polls with every byte present would read them. */
  function Parse(s: seq<byte>): seq<Frame> {
    if |s| < HEADER_SIZE then []
    else
      var h := Decode(s[..HEADER_SIZE]);
      if 0 <= h.byteLength <= MAX_ARRAY - HEADER_SIZE && HEADER_SIZE + h.byteLength <= |s| then
        var f: Frame := Frame(h.action, h.encryption, h.sentAt, s[HEADER_SIZE..][..h.byteLength]);
        [f] + Parse(s[HEADER_SIZE + h.byteLength..])
      else []
  }

  lemma {:induction false} ParseHead(f: Frame, tail: seq<byte>)
    ensures Parse(EncodeFrame(f) + tail) == [f] + Parse(tail)
  {
    var s := EncodeFrame(f) + tail;
    assert s[..HEADER_SIZE] == PacketHeader.Encode(HeaderOf(f));
    ValidateInvertsWrite(HeaderOf(f));
    assert s[HEADER_SIZE..][..|f.body|] == f.body;
    assert s[HEADER_SIZE + |f.body|..] == tail;
  }

  /** Parsing inverts sending: whatever follows, the frames come back first and whole. */
  lemma {:induction false} ParseInvertsEncode(fs: seq<Frame>, tail: seq<byte>)
    ensures Parse(EncodeAll(fs) + tail) == fs + Parse(tail)
  {
    hide EncodeFrame;
    if fs == [] {
      assert EncodeAll(fs) + tail == tail;
    } else {
      ParseInvertsEncode(fs[1..], tail);
      ParseHead(fs[0], EncodeAll(fs[1..]) + tail);
      Assoc(EncodeFrame(fs[0]), EncodeAll(fs[1..]), tail);
      assert [fs[0]] + fs[1..] == fs;
      Assoc([fs[0]], fs[1..], Parse(tail));
    }
  }

  /** One direction of a connection: bytes in flight, and bytes that have arrived but are unread. */
  datatype Link = Link(wire: seq<byte>, avail: seq<byte>) {
    function Stream(): seq<byte> { avail + wire }

    function Write(fs: seq<Frame>): Link { Link(wire + EncodeAll(fs), avail) }

    function Arrive(n: nat): Link {
      var k := Min(n, |wire|);
      Link(wire[k..], avail + wire[..k])
    }

    /** What arrives while a read blocks, when it blocks until `n` bytes have. */
    function Late(n: nat): seq<byte> { wire[..Min(n, |wire|)] }

    /** A poll; its body read, if it blocks, gets the next `n` bytes. */
    function Poll(n: nat): (Outcome, Link) {
      var p := Receive(avail, Late(n));
      (p.outcome, Link(if Blocks(avail) then wire[Min(n, |wire|)..] else wire, p.rest))
    }

    /** The stream is whole frames: what every run of senders puts there. */
    ghost predicate Whole() { EncodeAll(Parse(Stream())) == Stream() }

    function Frames(): seq<Frame> { Parse(Stream()) }
  }

  lemma {:induction false} ParseAll(fs: seq<Frame>)
    ensures Parse(EncodeAll(fs)) == fs
  {
    ParseInvertsEncode(fs, []);
    assert EncodeAll(fs) + [] == EncodeAll(fs);
    assert Parse([]) == [];
  }

  lemma {:induction false} WriteAppends(l: Link, fs: seq<Frame>)
    requires l.Whole()
    ensures l.Write(fs).Whole() && l.Write(fs).Frames() == l.Frames() + fs
  {
    var gs := l.Frames();
    Assoc(l.avail, l.wire, EncodeAll(fs));
    EncodeAllConcat(gs, fs);
    assert l.Write(fs).Stream() == EncodeAll(gs + fs);
    ParseAll(gs + fs);
  }

  lemma {:induction false} ArriveKeeps(l: Link, n: nat)
    ensures l.Arrive(n).Stream() == l.Stream()
  {
    var k := Min(n, |l.wire|);
    assert l.avail + l.wire == (l.avail + l.wire[..k]) + l.wire[k..];
  }

  /** An arrival moves the next bytes in flight, at most as many as there are; a blocked read gets the same. */
  lemma {:induction false} ArriveMoves(l: Link, n: nat)
    ensures var k := if n < |l.wire| then n else |l.wire|;
            l.Arrive(n).avail == l.avail + l.wire[..k] && l.Arrive(n).wire == l.wire[k..] && l.Late(n) == l.wire[..k]
  {
  }

  /** A poll that gets the body of its header takes exactly the head frame; one that finds no header takes nothing. */
  lemma {:induction false} PollTakesHead(l: Link, k: nat)
    requires l.Whole() && BodyReady(l.avail, l.Late(k))
    ensures var (o, l') := l.Poll(k);
            l'.Whole()
            && (|l.avail| < HEADER_SIZE ==> o == Nothing && l' == l)
            && (|l.avail| >= HEADER_SIZE ==>
                  l.Frames() != [] && o == Packet(HeaderOf(l.Frames()[0]), l.Frames()[0].body)
                  && l'.Frames() == l.Frames()[1..])
  {
    if |l.avail| >= HEADER_SIZE {
      var fs, s := l.Frames(), l.Stream();
      HeadHeader(l);
      var f, tail := fs[0], EncodeAll(fs[1..]);
      var n, m := |l.avail|, |l.avail| + |l.Late(k)|;
      assert l.avail == s[..n] && l.wire == s[n..];
      assert l.Late(k) == s[n..m] && l.wire[Min(k, |l.wire|)..] == s[m..];
      ReceiveAligned(f, tail, n, m);
      assert l.Poll(k).1.Stream() == tail;
      ParseAll(fs[1..]);
    }
  }

  /** The header that has arrived is the head frame's. */
  lemma {:induction false} HeadHeader(l: Link)
    requires l.Whole() && |l.avail| >= HEADER_SIZE
    ensures var fs := l.Frames();
            fs != [] && l.Stream() == EncodeFrame(fs[0]) + EncodeAll(fs[1..])
            && Decode(l.avail[..HEADER_SIZE]) == HeaderOf(fs[0])
  {
    var fs, s := l.Frames(), l.Stream();
    assert s[..HEADER_SIZE] == l.avail[..HEADER_SIZE];
    assert |EncodeAll(fs)| >= HEADER_SIZE;
    assert fs != [];
    assert s[..HEADER_SIZE] == PacketHeader.Encode(HeaderOf(fs[0]));
    ValidateInvertsWrite(HeaderOf(fs[0]));
  }

  datatype Event = Sent(f: Frame) | Arrived(n: nat) | Poll(late: nat)

  datatype Fifo = Fifo(link: Link, sent: seq<Frame>, delivered: seq<Outcome>)

  const EMPTY_FIFO := Fifo(Link([], []), [], [])

  function StepFifo(s: Fifo, e: Event): Fifo {
    match e
    case Sent(f) => s.(link := s.link.Write([f]), sent := s.sent + [f])
    case Arrived(n) => s.(link := s.link.Arrive(n))
    case Poll(k) =>
      var (o, l') := s.link.Poll(k);
      s.(link := l', delivered := if o == Nothing then s.delivered else s.delivered + [o])
  }

  function RunFifo(s: Fifo, es: seq<Event>): Fifo
    decreases |es|
  {
    if es == [] then s else RunFifo(StepFifo(s, es[0]), es[1..])
  }

  predicate PollsReady(s: Fifo, e: Event) {
    e.Poll? ==> BodyReady(s.link.avail, s.link.Late(e.late))
  }

  /** No poll of the run gets a header without its body. */
  predicate BodiesReady(s: Fifo, es: seq<Event>)
    decreases |es|
  {
    es == [] || (PollsReady(s, es[0]) && BodiesReady(StepFifo(s, es[0]), es[1..]))
  }

  function AsPackets(fs: seq<Frame>): (ps: seq<Outcome>)
    ensures |ps| == |fs|
  {
    seq(|fs|, i requires 0 <= i < |fs| => Packet(HeaderOf(fs[i]), fs[i].body))
  }

  /** What has been delivered, followed by what the unread bytes still hold, is what was sent. */
  ghost predicate InOrder(s: Fifo) {
    s.link.Whole() && s.delivered + AsPackets(s.link.Frames()) == AsPackets(s.sent)
  }

  lemma {:induction false} AsPacketsConcat(fs: seq<Frame>, gs: seq<Frame>)
    ensures AsPackets(fs + gs) == AsPackets(fs) + AsPackets(gs)
  {
  }

  lemma {:induction false} StepKeepsOrder(s: Fifo, e: Event)
    requires InOrder(s)
    requires PollsReady(s, e)
    ensures InOrder(StepFifo(s, e))
  {
    var fs := s.link.Frames();
    match e
    case Sent(f) =>
      WriteAppends(s.link, [f]);
      AsPacketsConcat(fs, [f]);
      AsPacketsConcat(s.sent, [f]);
      Assoc(s.delivered, AsPackets(fs), AsPackets([f]));
    case Arrived(n) =>
      ArriveKeeps(s.link, n);
    case Poll(k) =>
      PollTakesHead(s.link, k);
      if |s.link.avail| >= HEADER_SIZE {
        var head := AsPackets([fs[0]]);
        assert head == [s.link.Poll(k).0];
        AsPacketsConcat([fs[0]], fs[1..]);
        assert [fs[0]] + fs[1..] == fs;
        Assoc(s.delivered, head, AsPackets(fs[1..]));
      }
  }

  /** Framing refines a FIFO of packets, over every interleaving of sends, partial arrivals and polls. */
  lemma {:induction false} FramingIsFifo(s: Fifo, es: seq<Event>)
    requires InOrder(s)
    requires BodiesReady(s, es)
    ensures InOrder(RunFifo(s, es))
    decreases |es|
  {
    if es != [] {
      StepKeepsOrder(s, es[0]);
      FramingIsFifo(StepFifo(s, es[0]), es[1..]);
    }
  }

  /** From an empty stream: what was delivered is what was sent first, and once no byte is unread it is all of it. */
  lemma {:induction false} DeliveredInOrder(es: seq<Event>)
    requires BodiesReady(EMPTY_FIFO, es)
    ensures var s := RunFifo(EMPTY_FIFO, es);
            s.delivered <= AsPackets(s.sent) && (s.link.Stream() == [] ==> s.delivered == AsPackets(s.sent))
  {
    FramingIsFifo(EMPTY_FIFO, es);
    assert Parse([]) == [] && AsPackets([]) == [];
  }

  function PollAll(n: nat): (es: seq<Event>)
    ensures |es| == n
  {
    seq(n, _ => Poll(0))
  }

  /** With everything arrived, a poll for each frame delivers them all. */
  lemma {:induction false} PollsDeliver(s: Fifo)
    requires InOrder(s) && s.link.wire == []
    ensures var es := PollAll(|s.link.Frames()|);
            BodiesReady(s, es) && RunFifo(s, es).delivered == AsPackets(s.sent)
    decreases |s.link.Frames()|
  {
    var fs := s.link.Frames();
    if fs == [] {
      assert s.delivered + AsPackets([]) == s.delivered;
    } else {
      ArrivedWhole(s.link);
      StepKeepsOrder(s, Poll(0));
      PollTakesHead(s.link, 0);
      var s1 := StepFifo(s, Poll(0));
      hide StepFifo, PollsReady, InOrder;
      assert PollAll(|fs|)[0] == Poll(0) && PollAll(|fs|)[1..] == PollAll(|fs| - 1);
      PollsDeliver(s1);
    }
  }

  /** When nothing is in flight, the head frame has arrived whole. */
  lemma {:induction false} ArrivedWhole(l: Link)
    requires l.Whole() && l.wire == [] && l.Frames() != []
    ensures |l.avail| >= HEADER_SIZE && BodyReady(l.avail, l.Late(0))
  {
    var f, s := l.Frames()[0], l.Stream();
    assert l.avail == s;
    assert s[..HEADER_SIZE] == PacketHeader.Encode(HeaderOf(f));
    ValidateInvertsWrite(HeaderOf(f));
  }

  /** From every state of a run, an arrival and polls are enough to deliver all that was sent. */
  lemma {:induction false} AllDelivered(s: Fifo)
    requires InOrder(s)
    ensures exists es :: BodiesReady(s, es) && RunFifo(s, es).delivered == AsPackets(s.sent) == AsPackets(RunFifo(s, es).sent)
  {
    var e := Arrived(|s.link.wire|);
    var s1 := StepFifo(s, e);
    StepKeepsOrder(s, e);
    var es := PollAll(|s1.link.Frames()|);
    PollsDeliver(s1);
    PollsSend(s1, es);
    assert ([e] + es)[0] == e && ([e] + es)[1..] == es;
    assert BodiesReady(s, [e] + es) && RunFifo(s, [e] + es) == RunFifo(s1, es);
  }

  lemma {:induction false} PollsSend(s: Fifo, es: seq<Event>)
    requires forall i :: 0 <= i < |es| ==> es[i].Poll?
    ensures RunFifo(s, es).sent == s.sent
    decreases |es|
  {
    if es != [] {
      PollsSend(StepFifo(s, es[0]), es[1..]);
    }
  }

  // ---------------------------------------------------------------- the socket object

  datatype SendResult = BytesSent(n: nat) | Threw

  class Socket {
    var sent: seq<byte>       // everything handed to the transport so far
    var available: seq<byte>  // bytes that have arrived and have not been read
    var open: bool

    constructor ()
      ensures sent == [] && available == [] && open
    {
      sent, available, open := [], [], true;
    }

    /** The transport delivers a chunk. */
    method Arrive(chunk: seq<byte>)
      modifies `available
      ensures available == old(available) + chunk
    {
      available := available + chunk;
    }

    /** Builds header and body in one buffer and hands it over. Null data throws once the header, of length -1, is built. */
    method Send(bytes: Option<seq<byte>>, action: ushort, encryption: ushort, now: int64) returns (r: SendResult)
      modifies this
      ensures available == old(available) && open == old(open)
      ensures r == if bytes.Some? && open && Fits(bytes.value) then BytesSent(HEADER_SIZE + |bytes.value|) else Threw
      ensures sent == old(sent) + if r.Threw? then [] else EncodeFrame(Frame(action, encryption, now, bytes.value))
    {
      var size := if bytes.Some? then |bytes.value| else 0;
      if HEADER_SIZE + size > MAX_ARRAY {
        return Threw;
      }
      if bytes.None? {
        var headerOnly := new byte[HEADER_SIZE](_ => 0);
        WriteTo(Header(-1, action, BINARY, encryption, now), headerOnly);
        return Threw;
      }
      var data := bytes.value;
      var safeBuffer := new byte[HEADER_SIZE + |data|](_ => 0);
      WriteTo(Header(|data|, action, BINARY, encryption, now), safeBuffer);
      forall k | 0 <= k < |data| {
        safeBuffer[HEADER_SIZE + k] := data[k];
      }
      assert safeBuffer[..HEADER_SIZE] == PacketHeader.Encode(HeaderOf(Frame(action, encryption, now, data)));
      assert safeBuffer[HEADER_SIZE..] == data;
      if !open {
        return Threw;
      }
      sent := sent + safeBuffer[..];
      assert safeBuffer[..] == safeBuffer[..HEADER_SIZE] + safeBuffer[HEADER_SIZE..];
      r := BytesSent(HEADER_SIZE + |data|);
    }

    /** Whether the peer has closed. If so a poll would find nothing; and a readable socket otherwise has bytes to read. */
    method IsGracefulShutdown(readable: bool) returns (r: bool)
      ensures r ==> forall late :: Receive(available, late) == Polled(Nothing, available)
      ensures readable && !r ==> |available| > 0
    {
      r := readable && available == [];
    }

    /** One poll; `late` is what arrives if the body read blocks. The shutdown test makes no difference to it. */
    method ReceivePacket(readable: bool, late: seq<byte>) returns (o: Outcome)
      modifies `available
      ensures Polled(o, available) == Receive(old(available), late)
    {
      var shutdown := IsGracefulShutdown(readable);
      if shutdown || |available| < HEADER_SIZE {
        return Nothing;
      }
      var header := Decode(available[..HEADER_SIZE]);
      available := available[HEADER_SIZE..];
      if header.byteLength < 0 || header.byteLength > MAX_ARRAY {
        return Throws;
      }
      if header.byteLength == 0 {
        return Packet(header, []);
      }
      var buffer := new byte[header.byteLength](_ => 0);
      if available == [] {
        available := late;
      }
      var got := Min(|available|, header.byteLength);
      forall k | 0 <= k < got {
        buffer[k] := available[k];
      }
      assert buffer[..] == available[..got] + Zeros(header.byteLength - got);
      available := available[got..];
      o := Packet(header, if got > 0 then buffer[..] else []);
    }
  }
}
