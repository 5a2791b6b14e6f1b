/** The SYN / SYNAck / ACK / Ready handshake and the dispatch loops behind it, at each end of one connection. */
module Handshake {
  import opened Bytes
  import opened PacketHeader
  import opened Framing
  import opened Packets
  import opened Sequences
  import Pulse = HeartBeat

  datatype Role = ClientSide | ServerSide

  datatype Message = Message(action: ushort, data: seq<byte>)

  /** One end: its keys, its two authentication flags, whether an exception ended its task, and what it has passed on. */
  datatype Endpoint = Endpoint(keys: Keys, authenticating: bool, authenticated: bool, faulted: bool, received: seq<Message>)

  datatype Reaction = Reaction(node: Endpoint, out: seq<Frame>)

  /** The UTF-8 text `<READY>`. */
  const READY_TEXT: seq<byte> := [60, 82, 69, 65, 68, 89, 62]

  function Ignore(node: Endpoint): Reaction { Reaction(node, []) }

  function Fault(node: Endpoint): Reaction { Reaction(node.(faulted := true), []) }

  /** What the client does before its loop: generates the ChaCha key and sends its id. */
  function ClientStart(j: Json, id: seq<byte>, node: Endpoint, secret: seq<byte>, m: Moment): Reaction {
    var keys := node.keys.(chacha := Secret(secret));
    Reaction(node.(keys := keys, authenticating := true),
             PacketFor(j, keys, None, j.write(PeerIdDoc(id)), SYN, false, NONE, m).Frames())
  }

  /** One packet through the client's handshake loop; `pair` is the RSA pair it would generate. */
  function ClientHandshake(j: Json, node: Endpoint, f: AnyFrame, pair: nat, m: Moment): Reaction {
    if f.action == SYNACK then
      match j.read(f.body)
      case Some(AuthDoc(_, keyData)) =>
        if !keyData.PublicKey? then Fault(node.(keys := node.keys.(remoteRsa := keyData)))
        else
          var keys := node.keys.(remoteRsa := keyData, local := Some(pair));
          var s := Encrypted(j, keys, j.write(AuthDoc(CHACHA, keys.chacha)), RSA, ACK, false, m);
          Reaction(node.(keys := keys, faulted := node.faulted || s.Faulted?), s.Frames())
      case _ => Ignore(node)
    else if f.action == ACK then
      match j.read(f.body)
      case Some(EnvelopeDoc(kind, box)) =>
        (match DecryptInto(j, kind, box, node.keys.chacha)
         case IntoThrows => Fault(node)
         case Found(AuthDoc(_, keyData)) =>
           if keyData == node.keys.chacha then
             Reaction(node, PacketFor(j, node.keys, None, READY_TEXT, READY, false, NONE, m).Frames())
           else Ignore(node)
         case _ => Ignore(node))
      case _ => Ignore(node)
    else if f.action == READY then
      Reaction(node.(authenticated := true, authenticating := false), [])
    else
      Ignore(node)
  }

  /** One packet through the server's handshake loop. */
  function ServerHandshake(j: Json, node: Endpoint, f: AnyFrame, m: Moment): Reaction {
    if f.action == SYN then
      match j.read(f.body)
      case Some(PeerIdDoc(_)) =>
        if node.keys.local.None? then Fault(node)
        else
          var auth := AuthDoc(RSA, PublicKey(node.keys.local.value));
          Reaction(node, PacketFor(j, node.keys, None, j.write(auth), SYNACK, false, NONE, m).Frames())
      case _ => Ignore(node)
    else if f.action == ACK then
      match j.read(f.body)
      case Some(EnvelopeDoc(kind, box)) =>
        if node.keys.local.None? then Fault(node)
        else
          (match DecryptInto(j, kind, box, PrivateKey(node.keys.local.value))
           case IntoThrows => Fault(node)
           case Found(AuthDoc(k, keyData)) =>
             var keys := node.keys.(chacha := keyData);
             Reaction(node.(keys := keys),
                      PacketFor(j, keys, None, j.write(AuthDoc(k, keyData)), ACK, true, CHACHA, m).Frames())
           case _ => Ignore(node))
      case _ => Ignore(node)
    else if f.action == READY then
      Reaction(node.(authenticated := true, authenticating := false),
               PacketFor(j, node.keys, None, READY_TEXT, READY, false, NONE, m).Frames())
    else
      Ignore(node)
  }

  /** The client's start stores the key it drew, sets the authenticating flag and says its id in the plain. */
  lemma {:induction false} ClientStartIs(j: Json, id: seq<byte>, node: Endpoint, secret: seq<byte>, m: Moment)
    ensures var r := ClientStart(j, id, node, secret, m);
            && r.node == Endpoint(Keys(node.keys.local, node.keys.remoteRsa, Secret(secret)), true, node.authenticated,
                                  node.faulted, node.received)
            && r.out == Framed(j.write(PeerIdDoc(id)), SYN, NONE, m)
  {
  }

  // What the two handshakes make of any packet, field by field. Only a Ready touches the flags, and clears the one as it
  // sets the other; only an authentication in a SYNAck touches the client's keys, only one in an ACK the server's.

  lemma {:induction false} ClientFlags(j: Json, node: Endpoint, f: AnyFrame, pair: nat, m: Moment)
    ensures var n := ClientHandshake(j, node, f, pair, m).node;
            && (n.authenticated <==> node.authenticated || f.action == READY)
            && (n.authenticating <==> node.authenticating && f.action != READY)
            && n.received == node.received
  {
  }

  lemma {:induction false} ServerFlags(j: Json, node: Endpoint, f: AnyFrame, m: Moment)
    ensures var n := ServerHandshake(j, node, f, m).node;
            && (n.authenticated <==> node.authenticated || f.action == READY)
            && (n.authenticating <==> node.authenticating && f.action != READY)
            && n.received == node.received
  {
  }

  /** The client stores any key of a SYNAck's authentication; to a public one it answers with its ChaCha key, sealed for
      the owner, and any other, or an answer that cannot go out, is an exception. */
  lemma {:induction false} ClientOnSynAck(j: Json, node: Endpoint, f: AnyFrame, pair: nat, m: Moment)
    requires Lawful(j) && f.action == SYNACK
    ensures var r := ClientHandshake(j, node, f, pair, m);
            match j.read(f.body)
            case Some(AuthDoc(_, key)) =>
              && r.node.keys == Keys(if key.PublicKey? then Some(pair) else node.keys.local, key, node.keys.chacha)
              && r.out == (if key.PublicKey? then Framed(j.write(OfferDoc(j, key.pair, node.keys.chacha)), ACK, RSA, m) else [])
              && r.node.faulted == (node.faulted || r.out == [])
            case _ => r == Reaction(node, [])
  {
  }

  /** The client answers Ready to an ACK that, opened with its ChaCha key, brings the same key back; one sealed with
      another is an exception, and any other is ignored. */
  lemma {:induction false} ClientOnAck(j: Json, node: Endpoint, f: AnyFrame, pair: nat, m: Moment)
    requires Lawful(j) && f.action == ACK && node.keys.chacha.Secret?
    ensures var r := ClientHandshake(j, node, f, pair, m);
            match j.read(f.body)
            case Some(EnvelopeDoc(kind, box)) =>
              var mine := kind == CHACHA && box.ChaChaBox? && box.key == node.keys.chacha && |box.key.bytes| == 32;
              && r.node == node.(faulted := node.faulted || (kind == CHACHA && !mine))
              && r.out == if mine && (exists k :: j.read(box.message) == Some(AuthDoc(k, node.keys.chacha)))
                          then Framed([60, 82, 69, 65, 68, 89, 62], READY, NONE, m) else []
            case _ => r == Reaction(node, [])
  {
  }

  lemma {:induction false} ClientOnOther(j: Json, node: Endpoint, f: AnyFrame, pair: nat, m: Moment)
    requires f.action != SYNACK && f.action != ACK
    ensures var r := ClientHandshake(j, node, f, pair, m);
            r.out == [] && r.node.keys == node.keys && r.node.faulted == node.faulted
  {
  }

  /** The server answers a peer's id with its public key; without a pair that is an exception. */
  lemma {:induction false} ServerOnSyn(j: Json, node: Endpoint, f: AnyFrame, m: Moment)
    requires f.action == SYN
    ensures var r := ServerHandshake(j, node, f, m);
            if j.read(f.body).Some? && j.read(f.body).value.PeerIdDoc? then
              match node.keys.local
              case None => r == Reaction(node.(faulted := true), [])
              case Some(pair) => r == Reaction(node, Framed(j.write(AuthDoc(RSA, PublicKey(pair))), SYNACK, NONE, m))
            else r == Reaction(node, [])
  {
  }

  /** The server stores the key of an authentication that its private key opens, and sends the same authentication back
      under that key if it has 32 bytes, in the plain if it has none, and not at all if it has any other number. A ChaCha
      envelope, or one at all without a pair, is an exception. */
  lemma {:induction false} ServerOnAck(j: Json, node: Endpoint, f: AnyFrame, m: Moment)
    requires Lawful(j) && f.action == ACK
    ensures var r := ServerHandshake(j, node, f, m);
            match j.read(f.body)
            case Some(EnvelopeDoc(kind, box)) =>
              var inner :=
                if kind == RSA && box.RsaBox? && node.keys.local.Some? && box.pub == PublicKey(node.keys.local.value)
                then j.read(box.message) else None;
              && r.node.faulted == (node.faulted || node.keys.local == None || kind == CHACHA)
              && (match inner
                  case Some(AuthDoc(k, key)) =>
                    var auth := j.write(AuthDoc(k, key));
                    && r.node.keys == Keys(node.keys.local, node.keys.remoteRsa, key)
                    && r.out == if key == NoKey || key == Secret([]) then Framed(auth, ACK, NONE, m)
                                else if key.Secret? && |key.bytes| == 32 then
                                  Framed(j.write(EnvelopeDoc(CHACHA, ChaChaBox(key, m.nonce, auth))), ACK, CHACHA, m)
                                else []
                  case _ => r.node.keys == node.keys && r.out == [])
            case _ => r == Reaction(node, [])
  {
  }

  /** And whatever it is given, the server answers a Ready with a Ready. */
  lemma {:induction false} ServerOnOther(j: Json, node: Endpoint, f: AnyFrame, m: Moment)
    requires f.action != SYN && f.action != ACK
    ensures var r := ServerHandshake(j, node, f, m);
            && r.node.keys == node.keys && r.node.faulted == node.faulted
            && r.out == if f.action == READY then Framed([60, 82, 69, 65, 68, 89, 62], READY, NONE, m) else []
  {
  }

  /** Before authentication an end makes of a packet what its handshake does, after it what its dispatch does, which is to
      append what it opens; after an exception, nothing. */
  lemma {:induction false} ReactIs(role: Role, j: Json, node: Endpoint, f: AnyFrame, pair: nat, m: Moment)
    ensures var r := React(role, j, node, f, pair, m);
            && (node.faulted ==> r == Reaction(node, []))
            && (!node.faulted && !node.authenticated ==>
                  r == if role == ClientSide then ClientHandshake(j, node, f, pair, m) else ServerHandshake(j, node, f, m))
            && (!node.faulted && node.authenticated ==>
                  && r.out == [] && r.node == node.(received := r.node.received, faulted := r.node.faulted)
                  && (r.node.faulted <==> Opened(j, node.keys, f) == Crashed)
                  && r.node.received == node.received + match Opened(j, node.keys, f)
                                                        case Delivered(action, data) => [Message(action, data)]
                                                        case _ => [])
  {
  }

  /** One packet through either dispatch loop. */
  function Dispatched(j: Json, node: Endpoint, f: AnyFrame): Endpoint {
    match Opened(j, node.keys, f)
    case Delivered(action, data) => node.(received := node.received + [Message(action, data)])
    case Dropped => node
    case Crashed => node.(faulted := true)
  }

  function React(role: Role, j: Json, node: Endpoint, f: AnyFrame, pair: nat, m: Moment): Reaction {
    if node.faulted then Ignore(node)
    else if node.authenticated then Ignore(Dispatched(j, node, f))
    else if role == ClientSide then ClientHandshake(j, node, f, pair, m)
    else ServerHandshake(j, node, f, m)
  }

  // ---------------------------------------------------------------- the loops over a byte stream

  /** One turn of a loop. What arrives before it polls; whether the shutdown test finds the socket readable; what arrives
      if its body read blocks; the pair it draws and its size, and the nonce and stamp of what it answers with; and, in the
      dispatch loop, the readings of its heartbeat call, the nonce and stamp of its ping, and the clock its handlers
      read. */
  datatype Turn = Turn(arrived: seq<byte>, readable: bool, late: seq<byte>, pair: nat, size: int, nonce: Nonce,
                       now: int64, call: Pulse.Call, pingNonce: Nonce, pingNow: int64, handledAt: int)

  /** What does not change while a loop runs. */
  datatype Side = Side(role: Role, j: Json, settings: Option<Settings>, open: bool)

  /** `ended`: the heartbeat has found the peer gone and the task has returned. `crashed`: a handler's exception has
      ended it. */
  datatype Loop = Loop(node: Endpoint, beat: Pulse.Beat, ended: bool, crashed: bool, avail: seq<byte>) {
    predicate Running() { !node.faulted && !ended && !crashed }
  }

  datatype Served = Served(loop: Loop, out: seq<Frame>)

  function Ping(side: Side, node: Endpoint, t: Turn): Sending {
    Pulse.PingSending(side.j, node.keys, side.settings, Moment(t.pingNonce, t.pingNow, side.open))
  }

  /** The heartbeat call of a dispatch turn, with the outcome of the ping it may send. */
  function PulseOf(side: Side, node: Endpoint, t: Turn): Pulse.Turn {
    Pulse.Turn([], t.call.(sends := Ping(side, node, t).Emitted?))
  }

  /** The outer loop goes round without a poll while the authenticating flag is set. */
  predicate Waits(node: Endpoint) {
    node.authenticated && node.authenticating
  }

  predicate Dispatches(node: Endpoint) {
    node.authenticated && !node.authenticating
  }

  predicate Pings(side: Side, l: Loop, t: Turn) {
    Dispatches(l.node) && Pulse.Due(l.beat, t.call.now)
  }

  /** Whether a reply ends the task. The client's test lacks the negation of the server's. */
  predicate Ends(role: Role, r: Pulse.Reply, after: Pulse.Beat) {
    (if role == ClientSide then r.sent else !r.sent) && r.isDisconnected && !after.firstBeat
  }

  predicate TimesOut(side: Side, l: Loop, t: Turn) {
    var p := PulseOf(side, l.node, t);
    Dispatches(l.node) && Ends(side.role, Pulse.ReplyTo(l.beat, p), Pulse.After(l.beat, p))
  }

  /** The heartbeat of a dispatch turn; the authentication loop has none. */
  function Beats(side: Side, l: Loop, t: Turn): Served {
    if !Dispatches(l.node) then Served(l, [])
    else
      Served(l.(beat := Pulse.After(l.beat, PulseOf(side, l.node, t)), ended := TimesOut(side, l, t)),
             if Pings(side, l, t) then Ping(side, l.node, t).Frames() else [])
  }

  /** A turn without a poll. */
  predicate Skips(side: Side, l: Loop, t: Turn) {
    Waits(l.node) || Beats(side, l, t).loop.ended
  }

  /** The poll of a turn and what the loop makes of its outcome. */
  function PollTurn(side: Side, l: Loop, t: Turn): Served {
    var p := Receive(l.avail + t.arrived, t.late);
    match p.outcome
    case Nothing => Served(l.(avail := p.rest), [])
    case Throws => Served(l.(node := l.node.(faulted := true), avail := p.rest), [])
    case Packet(h, body) =>
      var f := Frame(h.action, h.encryption, h.sentAt, body);
      var r := React(side.role, side.j, l.node, f, t.pair, Moment(t.nonce, t.now, side.open));
      Served(l.(node := r.node, avail := p.rest), r.out)
  }

  // What the handlers of `OnDataReceived` make of a packet that is passed on.

  /** What a handler makes of a message; the client's leaves an empty one. */
  function Given(role: Role, action: ushort, data: seq<byte>): Option<Message> {
    if role == ClientSide && data == [] then None else Some(Message(action, data))
  }

  /** The message of a packet that the handlers are given. */
  function Handed(side: Side, node: Endpoint, f: AnyFrame): Option<Message> {
    match Opened(side.j, node.keys, f)
    case Delivered(action, data) => Given(side.role, action, data)
    case _ => None
  }

  predicate IsPing(m: Option<Message>) {
    m.Some? && m.value.action == PING
  }

  /** A ping stamped outside the calendar throws. */
  predicate CrashesOn(m: Option<Message>, sentAt: int64, t: Turn) {
    IsPing(m) && Pulse.Answer(sentAt, t.handledAt).None?
  }

  /** The tracker any other ping is answered with. */
  function PongTo(m: Option<Message>, sentAt: int64, t: Turn): Option<Pulse.Tracker> {
    if IsPing(m) then Pulse.Answer(sentAt, t.handledAt) else None
  }

  function PongOut(side: Side, keys: Keys, m: Option<Message>, sentAt: int64, t: Turn): seq<Frame> {
    match PongTo(m, sentAt, t)
    case Some(tracker) =>
      Pulse.PongSending(side.j, keys, side.settings, tracker, Moment(t.nonce, t.now, side.open)).Frames()
    case None => []
  }

  /** The heartbeat once a pong has been handled. */
  function BeatAfter(j: Json, m: Option<Message>, beat: Pulse.Beat, t: Turn): Pulse.Beat {
    if m.Some? && m.value.action == PONG && Pulse.Returned(j, m.value.data, t.handledAt).Some? then
      beat.(pulseAt := Pulse.Interval(Pulse.Returned(j, m.value.data, t.handledAt).value.Latency()))
    else beat
  }

  /** A packet that is not handed on has no such effects. */
  lemma {:induction false} NotHanded(side: Side, keys: Keys, sentAt: int64, beat: Pulse.Beat, t: Turn)
    ensures !CrashesOn(None, sentAt, t) && PongOut(side, keys, None, sentAt, t) == []
    ensures BeatAfter(side.j, None, beat, t) == beat
  {
  }

  /** The packet a turn's poll takes, if any, that goes to the dispatch branch. */
  function Dispatching(l: Loop, t: Turn): Option<AnyFrame> {
    match Receive(l.avail + t.arrived, t.late).outcome
    case Packet(h, body) =>
      if l.node.authenticated then Some(Frame(h.action, h.encryption, h.sentAt, body)) else None
    case _ => None
  }

  /** The poll of a turn, with what the handlers make of a packet passed on. */
  function TakeTurn(side: Side, l: Loop, t: Turn): Served {
    var p := PollTurn(side, l, t);
    match Dispatching(l, t)
    case Some(f) =>
      var m := Handed(side, l.node, f);
      Served(p.loop.(beat := BeatAfter(side.j, m, l.beat, t), crashed := CrashesOn(m, f.sentAt, t)),
             p.out + PongOut(side, l.node.keys, m, f.sentAt, t))
    case None => p
  }

  function ServeTurn(side: Side, l: Loop, t: Turn): Served {
    var b := Beats(side, l, t);
    if Skips(side, l, t) then Served(b.loop.(avail := l.avail + t.arrived), b.out)
    else
      var p := TakeTurn(side, b.loop, t);
      Served(p.loop, b.out + p.out)
  }

  /** A turn of the authentication loop is its poll, and what the handshake makes of a packet. */
  lemma {:induction false} AuthenticationTurnIs(side: Side, l: Loop, t: Turn)
    requires l.Running() && !l.node.authenticated
    ensures var p := Receive(l.avail + t.arrived, t.late);
            var m := Moment(t.nonce, t.now, side.open);
            ServeTurn(side, l, t)
            == match p.outcome
               case Nothing => Served(l.(avail := p.rest), [])
               case Throws => Served(l.(node := l.node.(faulted := true), avail := p.rest), [])
               case Packet(h, body) =>
                 var f := Frame(h.action, h.encryption, h.sentAt, body);
                 var r := if side.role == ClientSide then ClientHandshake(side.j, l.node, f, t.pair, m)
                          else ServerHandshake(side.j, l.node, f, m);
                 Served(l.(node := r.node, avail := p.rest), r.out)
  {
    hide ClientHandshake, ServerHandshake, Receive;
    assert [] + PollTurn(side, l, t).out == PollTurn(side, l, t).out;
  }

  /** A whole run of one end: every turn in order, until an exception or the heartbeat ends the task. */
  function Serve(side: Side, l: Loop, turns: seq<Turn>): Served
    decreases |turns|
  {
    if turns == [] || !l.Running() then Served(l, [])
    else
      var one := ServeTurn(side, l, turns[0]);
      var rest := Serve(side, one.loop, turns[1..]);
      Served(rest.loop, one.out + rest.out)
  }

  /** A run in two parts: the second goes on from where the first left off. */
  lemma {:induction false} ServeConcat(side: Side, l: Loop, ts: seq<Turn>, us: seq<Turn>)
    ensures var s := Serve(side, l, ts);
            var r := Serve(side, s.loop, us);
            Serve(side, l, ts + us) == Served(r.loop, s.out + r.out)
    decreases |ts|
  {
    hide ServeTurn;
    var all := ts + us;
    if ts == [] {
      assert all == us;
      assert [] + Serve(side, l, us).out == Serve(side, l, us).out;
    } else if l.Running() {
      assert all[0] == ts[0] && all[1..] == ts[1..] + us;
      var first := ServeTurn(side, l, ts[0]);
      ServeConcat(side, first.loop, ts[1..], us);
      var s := Serve(side, first.loop, ts[1..]);
      Assoc(first.out, s.out, Serve(side, s.loop, us).out);
    }
  }

  lemma {:induction false} ServeOne(side: Side, l: Loop, t: Turn)
    requires l.Running()
    ensures Serve(side, l, [t]) == ServeTurn(side, l, t)
  {
    hide ServeTurn;
    assert [t][1..] == [];
    var one := ServeTurn(side, l, t);
    assert one.out + [] == one.out;
  }

  /** Turns appended one at a time. */
  lemma {:induction false} ServeSnoc(side: Side, l: Loop, ts: seq<Turn>, t: Turn)
    requires Serve(side, l, ts).loop.Running()
    ensures var s := Serve(side, l, ts);
            var one := ServeTurn(side, s.loop, t);
            Serve(side, l, ts + [t]) == Served(one.loop, s.out + one.out)
  {
    ServeConcat(side, l, ts, [t]);
    ServeOne(side, Serve(side, l, ts).loop, t);
  }

  // ---------------------------------------------------------------- what a turn does

  /** While the authenticating flag is set behind authentication, a turn only lets bytes arrive. */
  lemma {:induction false} WaitingTurn(side: Side, l: Loop, t: Turn)
    requires l.node.authenticated && l.node.authenticating && !l.ended
    ensures ServeTurn(side, l, t) == Served(l.(avail := l.avail + t.arrived), [])
  {
  }

  /** A server's turn ends its task exactly when it dispatches and its ping is due and does not go out, or it is not due
      and, behind the first beat, the socket is shut down or the last beat is 120 seconds old. */
  lemma {:induction false} ServerEndsIff(side: Side, l: Loop, t: Turn)
    requires side.role == ServerSide && l.Running()
    ensures var ping := PacketFor(side.j, l.node.keys, side.settings, [60, 80, 73, 78, 71, 62], PING, true, NONE,
                                  Moment(t.pingNonce, t.pingNow, side.open));
            var due := t.call.now >= l.beat.lastBeatAt + l.beat.pulseAt && t.call.now >= l.beat.lastPulseAt + 100_000_000;
            ServeTurn(side, l, t).loop.ended
            <==> l.node.authenticated && !l.node.authenticating
                 && if due then !ping.Emitted?
                    else !l.beat.firstBeat && (t.call.shutdown || t.call.checked >= l.beat.lastBeatAt + 1_200_000_000)
  {
    hide Receive, React, PacketFor, BeatAfter, PongOut;
  }

  /** What a dispatch turn that is not ended makes of a packet its poll takes and its dispatch passes on: the message is
      recorded; a ping is answered with its stamp and the handler's clock, or is an exception outside the calendar; a
      pong that brings a tracker back sets the interval by its latency; the client's handler leaves an empty message. */
  lemma {:induction false} TurnHandles(side: Side, l: Loop, t: Turn, h: Header, body: seq<byte>, data: seq<byte>)
    requires l.Running() && l.node.authenticated && !l.node.authenticating && !ServeTurn(side, l, t).loop.ended
    requires Receive(l.avail + t.arrived, t.late).outcome == Packet(h, body)
    requires Opened(side.j, l.node.keys, Frame(h.action, h.encryption, h.sentAt, body)) == Delivered(h.action, data)
    ensures var s := ServeTurn(side, l, t).loop;
            var handled := side.role == ServerSide || data != [];
            var inCalendar := -62_135_596_800_000 <= h.sentAt <= 253_402_300_799_999;
            var back := if handled && h.action == PONG then side.j.read(data) else None;
            && s.node == l.node.(received := l.node.received + [Message(h.action, data)])
            && (s.crashed <==> handled && h.action == PING && !inCalendar)
            && s.beat.pulseAt == match back
                                 case Some(TrackerDoc(sentAt, _, _)) => Pulse.Interval(t.handledAt - sentAt)
                                 case _ => l.beat.pulseAt
    ensures var out := ServeTurn(side, l, t).out;
            var handled := side.role == ServerSide || data != [];
            var inCalendar := -62_135_596_800_000 <= h.sentAt <= 253_402_300_799_999;
            var tracker := TrackerDoc(h.sentAt * 10_000, t.handledAt, -621_355_968_000_000_000);
            var due := t.call.now >= l.beat.lastBeatAt + l.beat.pulseAt && t.call.now >= l.beat.lastPulseAt + 100_000_000;
            var ping := PacketFor(side.j, l.node.keys, side.settings, [60, 80, 73, 78, 71, 62], PING, true, NONE,
                                  Moment(t.pingNonce, t.pingNow, side.open));
            var pong := PacketFor(side.j, l.node.keys, side.settings, side.j.write(tracker), PONG, true, NONE,
                                  Moment(t.nonce, t.now, side.open));
            out == (if due then ping.Frames() else [])
                   + if handled && h.action == PING && inCalendar then pong.Frames() else []
  {
    hide Receive, Opened, PacketFor;
    var f := AnyFrame.Frame(h.action, h.encryption, h.sentAt, body);
    var b := Beats(side, l, t).loop;
    assert PollTurn(side, b, t).out == [];
    var pong := PongOut(side, l.node.keys, Handed(side, l.node, f), h.sentAt, t);
    assert [] + pong == pong;
  }

  /** What it makes of anything else its poll gets: of a packet that is not passed on nothing, or the exception of a
      missing pair; of no packet nothing; of a header with an impossible length an exception. */
  lemma {:induction false} TurnDrops(side: Side, l: Loop, t: Turn)
    requires l.Running() && l.node.authenticated && !l.node.authenticating && !ServeTurn(side, l, t).loop.ended
    ensures var s, p := ServeTurn(side, l, t).loop, Receive(l.avail + t.arrived, t.late);
            && s.avail == p.rest
            && (p.outcome == Nothing ==> s.node == l.node && !s.crashed)
            && (p.outcome == Throws ==> s.node == l.node.(faulted := true))
            && (p.outcome.Packet? ==>
                  var o := Opened(side.j, l.node.keys, Frame(p.outcome.header.action, p.outcome.header.encryption,
                                                             p.outcome.header.sentAt, p.outcome.body));
                  !o.Delivered? ==> s.node == l.node.(faulted := o == Crashed) && !s.crashed)
  {
    hide Receive, Opened, PacketFor;
  }

  /** The heartbeat's stamps move as its call moves them, whatever is polled; no ping goes out but the one that is due. */
  lemma {:induction false} TurnBeats(side: Side, l: Loop, t: Turn)
    requires l.Running() && l.node.authenticated && !l.node.authenticating
    ensures var s := ServeTurn(side, l, t);
            var ping := PacketFor(side.j, l.node.keys, side.settings, [60, 80, 73, 78, 71, 62], PING, true, NONE,
                                  Moment(t.pingNonce, t.pingNow, side.open));
            var b := Pulse.TrySend(l.beat, t.call.(sends := ping.Emitted?)).0;
            && s.loop.beat.(pulseAt := 0) == b.(pulseAt := 0)
            && (s.loop.ended ==> s.loop.node == l.node && s.loop.avail == l.avail + t.arrived && !s.loop.crashed)
            && ((forall f :: f in s.out ==> f.action != PONG) ==>
                  s.out == if Pulse.Due(l.beat, t.call.now) then ping.Frames() else [])
  {
    hide Receive, Opened;
    var b := Beats(side, l, t).loop;
    assert PollTurn(side, b, t).out == [];
  }

  // ---------------------------------------------------------------- who ends

  /** Clocks that never go back, calls that are prompt, pings that go out and no shutdown, in every dispatch turn. */
  predicate Healthy(side: Side, l: Loop, turns: seq<Turn>, from: int, gap: int, drift: int)
    decreases |turns|
  {
    turns == [] || !l.Running()
    || (var t := turns[0];
        && (Dispatches(l.node) ==>
              && from <= t.call.now && Pulse.Ordered(t.call) && Pulse.Prompt(t.call, gap, drift)
              && Ping(side, l.node, t).Emitted? && !t.call.shutdown)
        && Healthy(side, ServeTurn(side, l, t).loop, turns[1..], if Dispatches(l.node) then t.call.end else from, gap, drift))
  }

  lemma {:induction false} HealthyTurn(side: Side, l: Loop, t: Turn, from: int, gap: int, drift: int)
    requires Pulse.Tight(l.beat, gap) && l.Running() && gap + drift <= Pulse.TIMEOUT_AFTER - Pulse.COOLDOWN
    requires Healthy(side, l, [t], from, gap, drift)
    ensures var s := ServeTurn(side, l, t).loop;
            Pulse.Tight(s.beat, gap) && !s.ended
  {
    hide Receive, React, PacketFor, Opened;
    assert [t][0] == t;
    if Dispatches(l.node) {
      BeatKept(side, l, t, gap, drift);
    }
  }

  lemma {:induction false} BeatKept(side: Side, l: Loop, t: Turn, gap: int, drift: int)
    requires Pulse.Tight(l.beat, gap) && l.Running() && gap + drift <= Pulse.TIMEOUT_AFTER - Pulse.COOLDOWN
    requires Dispatches(l.node) && Pulse.Ordered(t.call) && Pulse.Prompt(t.call, gap, drift)
    requires Ping(side, l.node, t).Emitted? && !t.call.shutdown
    ensures var b := Beats(side, l, t).loop;
            Pulse.Tight(b.beat, gap) && !b.ended
  {
    Pulse.TrySendIs(l.beat, PulseOf(side, l.node, t).c);
  }

  /** However long its peer is silent, a server that is healthy in this sense is not ended by its heartbeat. */
  lemma {:induction false} HealthyNeverEnds(side: Side, l: Loop, turns: seq<Turn>, from: int, gap: int, drift: int)
    requires Pulse.Tight(l.beat, gap) && !l.ended && gap + drift <= Pulse.TIMEOUT_AFTER - Pulse.COOLDOWN
    requires Healthy(side, l, turns, from, gap, drift)
    ensures !Serve(side, l, turns).loop.ended
    decreases |turns|
  {
    if turns != [] && l.Running() {
      var t := turns[0];
      assert Healthy(side, l, [t], from, gap, drift) by {
        assert [t][1..] == [];
      }
      HealthyTurn(side, l, t, from, gap, drift);
      hide ServeTurn;
      HealthyNeverEnds(side, ServeTurn(side, l, t).loop, turns[1..], if Dispatches(l.node) then t.call.end else from, gap, drift);
    }
  }

  /** The client's task never ends by its heartbeat. */
  lemma {:induction false} ClientNeverEnds(side: Side, l: Loop, turns: seq<Turn>)
    requires side.role == ClientSide && !l.ended
    ensures !Serve(side, l, turns).loop.ended
    decreases |turns|
  {
    if turns != [] && l.Running() {
      var t := turns[0];
      if Dispatches(l.node) {
        Pulse.ClientNeverTimesOut(l.beat, PulseOf(side, l.node, t));
      }
      ClientNeverEnds(side, ServeTurn(side, l, t).loop, turns[1..]);
    }
  }
}
