/** One connection as two ends and two FIFO queues of frames: agreement, no loss, progress. */
module Session {
  import opened Bytes
  import opened PacketHeader
  import opened Framing
  import opened Packets
  import opened Sequences
  import opened Handshake

  /** `chosen` is the key the client generated; `clientOpen` says it has sent its Ready. `fromClient` and `fromServer`
      record what each end has sent since its own Ready, apart from what no dispatch loop can pass on. */
  datatype Session = Session(client: Endpoint, server: Endpoint, toServer: seq<Frame>, toClient: seq<Frame>,
                             chosen: Key, clientOpen: bool, fromClient: seq<Message>, fromServer: seq<Message>) {
    predicate Started() { client.authenticating || client.authenticated }
  }

  /** A connection that has just been accepted; `pair` is the server's RSA pair. */
  function Accepted(pair: nat): Session {
    Session(Endpoint(NO_KEYS, false, false, false, []), Endpoint(Keys(Some(pair), NoKey, NoKey), true, false, false, []),
            [], [], NoKey, false, [], [])
  }

  /** A send by code outside the handshake: a ping, a `PeerJoin`, a message of the application. */
  datatype Request = Request(settings: Option<Settings>, data: seq<byte>, action: ushort, enabled: bool, kind: ushort)

  datatype Step =
    | Start(secret: seq<byte>, m: Moment)
    | ClientSend(r: Request, m: Moment)
    | ServerSend(r: Request, m: Moment)
    | ClientReceive(pair: nat, m: Moment)
    | ServerReceive(m: Moment)

  predicate IsHandshake(action: ushort) {
    action == SYN || action == SYNACK || action == ACK || action == READY
  }

  /** A request no dispatch loop can pass on: action `Empty`, or RSA, whose box is tried with the wrong key. */
  predicate Lost(keys: Keys, r: Request) {
    r.action == EMPTY || (Effective(r.settings, r.enabled, r.kind) == RSA && HasBytes(keys.remoteRsa))
  }

  function Sends(j: Json, keys: Keys, r: Request, m: Moment): Sending {
    PacketFor(j, keys, r.settings, r.data, r.action, r.enabled, r.kind, m)
  }

  function Logged(j: Json, keys: Keys, r: Request, m: Moment): seq<Message> {
    if Sends(j, keys, r, m).Emitted? && !Lost(keys, r) then [Message(r.action, r.data)] else []
  }

  /** Until an end is authenticated nothing outside its handshake loop sends a handshake action. */
  predicate Enabled(s: Session, step: Step) {
    match step
    case Start(secret, m) => !s.Started() && |secret| == 32 && m.open
    case ClientSend(r, m) => m.open && (s.client.authenticated || !IsHandshake(r.action))
    case ServerSend(r, m) => m.open && (s.server.authenticated || !IsHandshake(r.action))
    case ClientReceive(_, m) => s.Started() && !s.client.faulted && s.toClient != [] && m.open
    case ServerReceive(m) => !s.server.faulted && s.toServer != [] && m.open
  }

  function Next(j: Json, id: seq<byte>, s: Session, step: Step): Session
    requires Enabled(s, step)
  {
    match step
    case Start(secret, m) =>
      var r := ClientStart(j, id, s.client, secret, m);
      s.(client := r.node, toServer := s.toServer + r.out, chosen := Secret(secret))
    case ClientSend(r, m) =>
      s.(toServer := s.toServer + Sends(j, s.client.keys, r, m).Frames(),
         fromClient := s.fromClient + if s.clientOpen then Logged(j, s.client.keys, r, m) else [])
    case ServerSend(r, m) =>
      s.(toClient := s.toClient + Sends(j, s.server.keys, r, m).Frames(),
         fromServer := s.fromServer + if s.server.authenticated then Logged(j, s.server.keys, r, m) else [])
    case ClientReceive(pair, m) =>
      var r := React(ClientSide, j, s.client, s.toClient[0], pair, m);
      s.(client := r.node, toClient := s.toClient[1..], toServer := s.toServer + r.out,
         clientOpen := s.clientOpen || (r.out != [] && r.out[0].action == READY))
    case ServerReceive(m) =>
      var r := React(ServerSide, j, s.server, s.toServer[0], 0, m);
      s.(server := r.node, toServer := s.toServer[1..], toClient := s.toClient + r.out)
  }

  /** Other code may send anything but the handshake's own actions at any time, and anything once its end is authenticated. */
  lemma {:induction false} OutsideMaySend(s: Session, r: Request, m: Moment)
    requires m.open
    ensures r.action !in {SYN, SYNACK, ACK, READY} ==> Enabled(s, ClientSend(r, m)) && Enabled(s, ServerSend(r, m))
    ensures s.client.authenticated ==> Enabled(s, ClientSend(r, m))
    ensures s.server.authenticated ==> Enabled(s, ServerSend(r, m))
  {
  }

  // ---------------------------------------------------------------- what the queues hold

  function Handshakes(q: seq<Frame>): seq<Frame> {
    if q == [] then [] else (if IsHandshake(q[0].action) then [q[0]] else []) + Handshakes(q[1..])
  }

  /** What follows the first handshake frame. */
  function Behind(q: seq<Frame>): seq<Frame> {
    if q == [] then [] else if IsHandshake(q[0].action) then q[1..] else Behind(q[1..])
  }

  function PassedOn(j: Json, keys: Keys, f: Frame): seq<Message> {
    match Opened(j, keys, f)
    case Delivered(action, data) => [Message(action, data)]
    case _ => []
  }

  /** The messages a dispatch loop with these keys will pass on from the queue. */
  function Pending(j: Json, keys: Keys, q: seq<Frame>): seq<Message> {
    if q == [] then [] else PassedOn(j, keys, q[0]) + Pending(j, keys, q[1..])
  }

  lemma {:induction false} HandshakesConcat(q: seq<Frame>, p: seq<Frame>)
    ensures Handshakes(q + p) == Handshakes(q) + Handshakes(p)
  {
    if q == [] {
      assert q + p == p;
    } else {
      HandshakesConcat(q[1..], p);
      assert (q + p)[1..] == q[1..] + p;
      Assoc(if IsHandshake(q[0].action) then [q[0]] else [], Handshakes(q[1..]), Handshakes(p));
    }
  }

  lemma {:induction false} BehindConcat(q: seq<Frame>, p: seq<Frame>)
    ensures Behind(q + p) == if Handshakes(q) != [] then Behind(q) + p else Behind(p)
  {
    if q == [] {
      assert q + p == p;
    } else {
      BehindConcat(q[1..], p);
      assert (q + p)[1..] == q[1..] + p;
    }
  }

  lemma {:induction false} PendingConcat(j: Json, keys: Keys, q: seq<Frame>, p: seq<Frame>)
    ensures Pending(j, keys, q + p) == Pending(j, keys, q) + Pending(j, keys, p)
  {
    hide PassedOn;
    if q == [] {
      assert q + p == p;
    } else {
      PendingConcat(j, keys, q[1..], p);
      assert (q + p)[1..] == q[1..] + p;
      Assoc(PassedOn(j, keys, q[0]), Pending(j, keys, q[1..]), Pending(j, keys, p));
    }
  }

  // ---------------------------------------------------------------- the invariant

  datatype Phase = Idle | SynSent | SynAckSent | KeySent | KeyEchoed | ClientReady | ServerReady | Done | Stalled

  predicate HeadIs(q: seq<Frame>, action: ushort) {
    Handshakes(q) != [] && Handshakes(q)[0].action == action
  }

  function PhaseOf(s: Session): Phase {
    if s.client.authenticated then Done
    else if s.server.authenticated then ServerReady
    else if s.clientOpen then ClientReady
    else if !s.Started() then Idle
    else if HeadIs(s.toServer, SYN) then SynSent
    else if HeadIs(s.toClient, SYNACK) then SynAckSent
    else if HeadIs(s.toServer, ACK) then KeySent
    else if HeadIs(s.toClient, ACK) then KeyEchoed
    else Stalled
  }

  /** The one handshake frame in flight, at the head of its kind in its queue. */
  predicate Alone(q: seq<Frame>, other: seq<Frame>, action: ushort) {
    |Handshakes(q)| == 1 && Handshakes(q)[0].action == action && Handshakes(other) == []
  }

  /** The body of the frame in flight, phase by phase. */
  predicate At(j: Json, id: seq<byte>, s: Session, pair: nat) {
    var q, r := s.toServer, s.toClient;
    match PhaseOf(s)
    case Idle => Handshakes(q) == [] && Handshakes(r) == []
    case SynSent => Alone(q, r, SYN) && Handshakes(q)[0].body == j.write(PeerIdDoc(id))
    case SynAckSent => Alone(r, q, SYNACK) && Handshakes(r)[0].body == j.write(AuthDoc(RSA, PublicKey(pair)))
    case KeySent => Alone(q, r, ACK) && Handshakes(q)[0].body == j.write(OfferDoc(j, pair, s.chosen))
    case KeyEchoed =>
      Alone(r, q, ACK) && EchoOf(j, s.chosen, Handshakes(r)[0]) && s.server.keys.chacha == s.chosen
    case ClientReady =>
      Alone(q, r, READY) && s.server.keys.chacha == s.chosen
      && Pending(j, s.server.keys, Behind(q)) == s.fromClient
    case ServerReady =>
      HeadIs(r, READY) && s.server.keys.chacha == s.chosen && s.clientOpen
      && s.server.received + Pending(j, s.server.keys, q) == s.fromClient
      && Pending(j, s.client.keys, Behind(r)) == s.fromServer
    case Done =>
      s.server.authenticated && s.server.keys.chacha == s.chosen && s.clientOpen
      && s.server.received + Pending(j, s.server.keys, q) == s.fromClient
      && s.client.received + Pending(j, s.client.keys, r) == s.fromServer
    case Stalled => Handshakes(q) == [] && Handshakes(r) == []
  }

  predicate Inv(j: Json, id: seq<byte>, s: Session, pair: nat) {
    && At(j, id, s, pair)
    && s.server.keys.local == Some(pair)
    && (s.server.authenticated || s.clientOpen ==> s.Started())
    && (if PhaseOf(s) == Idle then s.client.keys == NO_KEYS && s.chosen == NoKey
        else s.client.keys.chacha == s.chosen && Usable(s.chosen))
    && (PhaseOf(s) in {Idle, SynSent, SynAckSent} ==> s.server.keys.chacha == NoKey)
    && (PhaseOf(s) in {KeySent, KeyEchoed, ClientReady, ServerReady, Done} ==> s.client.keys.local.Some?)
    && (PhaseOf(s) != Stalled ==> !s.client.faulted && !s.server.faulted)
    && (!s.clientOpen ==> s.fromClient == [])
    && (!s.server.authenticated ==> s.fromServer == [] && s.server.received == [])
    && (!s.client.authenticated ==> s.client.received == [])
    && (s.client.authenticated ==> !s.client.authenticating)
    && (s.server.authenticating <==> !s.server.authenticated)
  }

  lemma {:induction false} AcceptedInv(j: Json, id: seq<byte>, pair: nat)
    ensures Inv(j, id, Accepted(pair), pair)
  {
  }

  /** What a receiver holding the chosen key makes of one outside send. */
  lemma {:induction false} SendPending(j: Json, sender: Keys, receiver: Keys, r: Request, m: Moment)
    requires Lawful(j)
    requires receiver.local.Some? && receiver.chacha == sender.chacha
    ensures Pending(j, receiver, Sends(j, sender, r, m).Frames()) == Logged(j, sender, r, m)
  {
    var s := Sends(j, sender, r, m);
    if s.Emitted? {
      HeaderNamesEnvelope(j, sender, r.settings, r.data, r.action, r.enabled, r.kind, m);
      assert Pending(j, receiver, []) == [];
      if r.data != [] && r.action != EMPTY {
        SendReceiveTransparent(j, sender, receiver, r.settings, r.data, r.action, r.enabled, r.kind, m);
      }
      assert [s.f][1..] == [];
    }
  }

  lemma {:induction false} SendHandshakes(j: Json, keys: Keys, r: Request, m: Moment)
    requires Lawful(j)
    requires !IsHandshake(r.action)
    ensures Handshakes(Sends(j, keys, r, m).Frames()) == []
  {
    HeaderNamesEnvelope(j, keys, r.settings, r.data, r.action, r.enabled, r.kind, m);
  }

  lemma {:induction false} ToServerKeeps(j: Json, id: seq<byte>, s: Session, pair: nat, out: seq<Frame>,
      log: seq<Message>)
    requires Inv(j, id, s, pair)
    requires s.client.authenticated || Handshakes(out) == []
    requires s.clientOpen ==> Pending(j, s.server.keys, out) == log
    requires !s.clientOpen ==> log == []
    ensures var s' := s.(toServer := s.toServer + out, fromClient := s.fromClient + log);
            Inv(j, id, s', pair) && PhaseOf(s') == PhaseOf(s)
  {
    hide Handshakes, Behind, Pending, EchoOf, OfferDoc;
    HandshakesConcat(s.toServer, out);
    BehindConcat(s.toServer, out);
    PendingConcat(j, s.server.keys, s.toServer, out);
    PendingConcat(j, s.server.keys, Behind(s.toServer), out);
    Assoc(s.server.received, Pending(j, s.server.keys, s.toServer), Pending(j, s.server.keys, out));
  }

  lemma {:induction false} ToClientKeeps(j: Json, id: seq<byte>, s: Session, pair: nat, out: seq<Frame>,
      log: seq<Message>)
    requires Inv(j, id, s, pair)
    requires s.server.authenticated || Handshakes(out) == []
    requires s.server.authenticated ==> Pending(j, s.client.keys, out) == log
    requires !s.server.authenticated ==> log == []
    ensures var s' := s.(toClient := s.toClient + out, fromServer := s.fromServer + log);
            Inv(j, id, s', pair) && PhaseOf(s') == PhaseOf(s)
  {
    hide Handshakes, Behind, Pending, EchoOf, OfferDoc;
    HandshakesConcat(s.toClient, out);
    BehindConcat(s.toClient, out);
    PendingConcat(j, s.client.keys, s.toClient, out);
    PendingConcat(j, s.client.keys, Behind(s.toClient), out);
    Assoc(s.client.received, Pending(j, s.client.keys, s.toClient), Pending(j, s.client.keys, out));
  }

  lemma {:induction false} ClientSendKeeps(j: Json, id: seq<byte>, s: Session, pair: nat, r: Request, m: Moment)
    requires Lawful(j) && Inv(j, id, s, pair) && Enabled(s, ClientSend(r, m))
    ensures Inv(j, id, Next(j, id, s, ClientSend(r, m)), pair)
    ensures PhaseOf(Next(j, id, s, ClientSend(r, m))) == PhaseOf(s)
  {
    var keys := s.client.keys;
    if !s.client.authenticated {
      SendHandshakes(j, keys, r, m);
    }
    if s.clientOpen {
      SendPending(j, keys, s.server.keys, r, m);
    }
    ToServerKeeps(j, id, s, pair, Sends(j, keys, r, m).Frames(), if s.clientOpen then Logged(j, keys, r, m) else []);
  }

  lemma {:induction false} ServerSendKeeps(j: Json, id: seq<byte>, s: Session, pair: nat, r: Request, m: Moment)
    requires Lawful(j) && Inv(j, id, s, pair) && Enabled(s, ServerSend(r, m))
    ensures Inv(j, id, Next(j, id, s, ServerSend(r, m)), pair)
    ensures PhaseOf(Next(j, id, s, ServerSend(r, m))) == PhaseOf(s)
  {
    var keys := s.server.keys;
    if !s.server.authenticated {
      SendHandshakes(j, keys, r, m);
    } else {
      SendPending(j, keys, s.client.keys, r, m);
    }
    ToClientKeeps(j, id, s, pair, Sends(j, keys, r, m).Frames(),
                  if s.server.authenticated then Logged(j, keys, r, m) else []);
  }

  lemma {:induction false} StartKeeps(j: Json, id: seq<byte>, s: Session, pair: nat, secret: seq<byte>, m: Moment)
    requires Inv(j, id, s, pair) && Enabled(s, Start(secret, m))
    ensures var s' := Next(j, id, s, Start(secret, m));
            Inv(j, id, s', pair)
            && (Roomy(j, id, pair, Secret(secret)) ==>
                  PhaseOf(s') == SynSent && Potential(s') == Potential(s))
  {
    var out := ClientStart(j, id, s.client, secret, m).out;
    HandshakesConcat(s.toServer, out);
    assert Handshakes(out) == out;
  }

  // ---------------------------------------------------------------- receiving

  lemma {:induction false} HandshakesHead(q: seq<Frame>)
    requires q != []
    ensures IsHandshake(q[0].action) ==> Handshakes(q) == [q[0]] + Handshakes(q[1..]) && Behind(q) == q[1..]
    ensures !IsHandshake(q[0].action) ==> Handshakes(q) == Handshakes(q[1..]) && Behind(q) == Behind(q[1..])
  {
  }

  /** The four bodies the handshake sends fit in a frame. */
  ghost predicate Roomy(j: Json, id: seq<byte>, pair: nat, chosen: Key) {
    var auth := j.write(AuthDoc(CHACHA, chosen));
    && Fits(j.write(PeerIdDoc(id)))
    && Fits(j.write(AuthDoc(RSA, PublicKey(pair))))
    && Fits(j.write(EnvelopeDoc(RSA, RsaBox(PublicKey(pair), auth))))
    && forall n: Nonce :: Fits(j.write(EnvelopeDoc(CHACHA, ChaChaBox(chosen, n, auth))))
  }

  function Remaining(p: Phase): nat {
    match p
    case Idle => 6
    case SynSent => 6
    case SynAckSent => 5
    case KeySent => 4
    case KeyEchoed => 3
    case ClientReady => 2
    case ServerReady => 1
    case Done => 0
    case Stalled => 0
  }

  function InFlight(p: Phase): nat {
    if p in {Idle, Done, Stalled} then 0 else 1
  }

  /** Receives still to come: the handshake's own, and one for every other frame in the queues. */
  function Potential(s: Session): int {
    Remaining(PhaseOf(s)) + |s.toServer| + |s.toClient| - InFlight(PhaseOf(s))
  }

  ghost predicate Fell(j: Json, id: seq<byte>, s: Session, s': Session, pair: nat) {
    PhaseOf(s) != Stalled && Roomy(j, id, pair, s.chosen) ==>
      PhaseOf(s') != Stalled && Potential(s') == Potential(s) - 1
  }

  lemma {:induction false} ServerIgnores(j: Json, id: seq<byte>, s: Session, pair: nat, m: Moment)
    requires Inv(j, id, s, pair) && Enabled(s, ServerReceive(m))
    requires !s.server.authenticated && !IsHandshake(s.toServer[0].action)
    ensures var s' := Next(j, id, s, ServerReceive(m));
            Inv(j, id, s', pair) && Fell(j, id, s, s', pair)
  {
    HandshakesHead(s.toServer);
    assert s.toClient + [] == s.toClient;
  }

  lemma {:induction false} ServerDispatches(j: Json, id: seq<byte>, s: Session, pair: nat, m: Moment)
    requires Inv(j, id, s, pair) && Enabled(s, ServerReceive(m)) && s.server.authenticated
    ensures var s' := Next(j, id, s, ServerReceive(m));
            Inv(j, id, s', pair) && Fell(j, id, s, s', pair)
  {
    var q, keys := s.toServer, s.server.keys;
    var s' := Next(j, id, s, ServerReceive(m));
    assert s'.server.received == s.server.received + PassedOn(j, keys, q[0]);
    Assoc(s.server.received, PassedOn(j, keys, q[0]), Pending(j, keys, q[1..]));
    assert s.toClient + [] == s.toClient;
  }

  // Each handshake receive in two parts: what the loop answers, and what that does to the invariant.

  function Answer(action: ushort, kind: ushort, now: int64, body: seq<byte>): seq<Frame> {
    if Fits(body) then [Frame(action, kind, now, body)] else []
  }

  lemma {:induction false} SynReaction(j: Json, id: seq<byte>, node: Endpoint, f: AnyFrame, pair: nat, m: Moment)
    requires Lawful(j) && m.open && !node.faulted && !node.authenticated && node.keys.local == Some(pair)
    requires f.action == SYN && f.body == j.write(PeerIdDoc(id))
    ensures React(ServerSide, j, node, f, 0, m)
            == Reaction(node, Answer(SYNACK, NONE, m.now, j.write(AuthDoc(RSA, PublicKey(pair)))))
  {
    assert j.read(f.body) == Some(PeerIdDoc(id));
  }

  lemma {:induction false} OfferReaction(j: Json, node: Endpoint, f: AnyFrame, pair: nat, chosen: Key, m: Moment)
    requires Lawful(j) && m.open && !node.faulted && !node.authenticated && node.keys.local == Some(pair)
    requires f.action == ACK && f.body == j.write(OfferDoc(j, pair, chosen)) && Usable(chosen)
    ensures React(ServerSide, j, node, f, 0, m)
            == Reaction(node.(keys := node.keys.(chacha := chosen)),
                        Answer(ACK, CHACHA, m.now, j.write(EchoDoc(j, chosen, m.nonce))))
  {
    var auth := AuthDoc(CHACHA, chosen);
    assert j.read(f.body) == Some(EnvelopeDoc(RSA, RsaBox(PublicKey(pair), j.write(auth))));
    assert j.read(j.write(auth)) == Some(auth);
  }

  lemma {:induction false} SynAckReaction(j: Json, node: Endpoint, f: AnyFrame, pair: nat, local: nat, m: Moment)
    requires Lawful(j) && m.open && !node.faulted && !node.authenticated
    requires f.action == SYNACK && f.body == j.write(AuthDoc(RSA, PublicKey(pair)))
    ensures var keys := node.keys.(remoteRsa := PublicKey(pair), local := Some(local));
            var body := j.write(OfferDoc(j, pair, node.keys.chacha));
            React(ClientSide, j, node, f, local, m)
            == Reaction(node.(keys := keys, faulted := !Fits(body)), Answer(ACK, RSA, m.now, body))
  {
    assert j.read(f.body) == Some(AuthDoc(RSA, PublicKey(pair)));
  }

  lemma {:induction false} EchoReaction(j: Json, node: Endpoint, f: AnyFrame, local: nat, m: Moment)
    requires Lawful(j) && m.open && !node.faulted && !node.authenticated && Usable(node.keys.chacha)
    requires f.action == ACK && EchoOf(j, node.keys.chacha, f)
    ensures React(ClientSide, j, node, f, local, m) == Reaction(node, [Frame(READY, NONE, m.now, READY_TEXT)])
  {
    var auth := AuthDoc(CHACHA, node.keys.chacha);
    assert j.read(j.write(auth)) == Some(auth);
  }

  lemma {:induction false} EchoIsEcho(j: Json, chosen: Key, nonce: Nonce, f: AnyFrame)
    requires Lawful(j) && f.body == j.write(EchoDoc(j, chosen, nonce))
    ensures EchoOf(j, chosen, f)
  {
    var doc := EchoDoc(j, chosen, nonce);
    assert j.read(j.write(doc)) == Some(doc);
  }

  /** Appending an answer, if there is one. */
  lemma {:induction false} Appended(q: seq<Frame>, out: seq<Frame>)
    requires |out| <= 1 && (out != [] ==> IsHandshake(out[0].action))
    ensures Handshakes(q + out) == Handshakes(q) + out
    ensures Handshakes(q) == [] && out != [] ==> Behind(q + out) == []
  {
    HandshakesConcat(q, out);
    BehindConcat(q, out);
    if out != [] {
      assert out[1..] == [];
      assert Handshakes(out) == [out[0]] + [];
    }
  }

  lemma {:induction false} SynAnswered(j: Json, id: seq<byte>, s: Session, pair: nat, out: seq<Frame>)
    requires Inv(j, id, s, pair) && PhaseOf(s) == SynSent && s.toServer != [] && IsHandshake(s.toServer[0].action)
    requires |out| <= 1
    requires out != [] ==> out[0].action == SYNACK && out[0].body == j.write(AuthDoc(RSA, PublicKey(pair)))
    ensures var s' := s.(toServer := s.toServer[1..], toClient := s.toClient + out);
            Inv(j, id, s', pair) && PhaseOf(s') == if out == [] then Stalled else SynAckSent
  {
    HandshakesHead(s.toServer);
    Appended(s.toClient, out);
  }

  lemma {:induction false} ServerTakesSyn(j: Json, id: seq<byte>, s: Session, pair: nat, m: Moment)
    requires Lawful(j) && Inv(j, id, s, pair) && Enabled(s, ServerReceive(m))
    requires PhaseOf(s) == SynSent && IsHandshake(s.toServer[0].action)
    ensures var s' := Next(j, id, s, ServerReceive(m));
            Inv(j, id, s', pair) && Fell(j, id, s, s', pair)
  {
    SynReaction(j, id, s.server, Handshakes(s.toServer)[0], pair, m);
    HandshakesHead(s.toServer);
    SynAnswered(j, id, s, pair, Answer(SYNACK, NONE, m.now, j.write(AuthDoc(RSA, PublicKey(pair)))));
  }

  lemma {:induction false} KeyStored(j: Json, id: seq<byte>, s: Session, pair: nat, out: seq<Frame>)
    requires Inv(j, id, s, pair) && PhaseOf(s) == KeySent && s.toServer != [] && IsHandshake(s.toServer[0].action)
    requires |out| <= 1
    requires out != [] ==> out[0].action == ACK && EchoOf(j, s.chosen, out[0])
    ensures var s' := s.(server := s.server.(keys := s.server.keys.(chacha := s.chosen)),
                         toServer := s.toServer[1..], toClient := s.toClient + out);
            Inv(j, id, s', pair) && PhaseOf(s') == if out == [] then Stalled else KeyEchoed
  {
    HandshakesHead(s.toServer);
    Appended(s.toClient, out);
  }

  lemma {:induction false} ServerTakesKey(j: Json, id: seq<byte>, s: Session, pair: nat, m: Moment)
    requires Lawful(j) && Inv(j, id, s, pair) && Enabled(s, ServerReceive(m))
    requires PhaseOf(s) == KeySent && IsHandshake(s.toServer[0].action)
    ensures var s' := Next(j, id, s, ServerReceive(m));
            Inv(j, id, s', pair) && Fell(j, id, s, s', pair)
  {
    var body := j.write(EchoDoc(j, s.chosen, m.nonce));
    OfferReaction(j, s.server, Handshakes(s.toServer)[0], pair, s.chosen, m);
    HandshakesHead(s.toServer);
    EchoIsEcho(j, s.chosen, m.nonce, AnyFrame.Frame(ACK, CHACHA, m.now, body));
    KeyStored(j, id, s, pair, Answer(ACK, CHACHA, m.now, body));
  }

  lemma {:induction false} ServerReadied(j: Json, id: seq<byte>, s: Session, pair: nat, out: seq<Frame>)
    requires Inv(j, id, s, pair) && PhaseOf(s) == ClientReady && s.toServer != [] && IsHandshake(s.toServer[0].action)
    requires |out| == 1 && out[0].action == READY
    ensures var s' := s.(server := s.server.(authenticated := true, authenticating := false),
                         toServer := s.toServer[1..], toClient := s.toClient + out);
            Inv(j, id, s', pair) && PhaseOf(s') == ServerReady
  {
    HandshakesHead(s.toServer);
    Appended(s.toClient, out);
    assert [] + Pending(j, s.server.keys, s.toServer[1..]) == Pending(j, s.server.keys, s.toServer[1..]);
  }

  lemma {:induction false} ServerTakesReady(j: Json, id: seq<byte>, s: Session, pair: nat, m: Moment)
    requires Lawful(j) && Inv(j, id, s, pair) && Enabled(s, ServerReceive(m))
    requires PhaseOf(s) == ClientReady && IsHandshake(s.toServer[0].action)
    ensures var s' := Next(j, id, s, ServerReceive(m));
            Inv(j, id, s', pair) && Fell(j, id, s, s', pair)
  {
    var out := [Frame(READY, NONE, m.now, READY_TEXT)];
    HandshakesHead(s.toServer);
    assert React(ServerSide, j, s.server, s.toServer[0], 0, m)
           == Reaction(s.server.(authenticated := true, authenticating := false), out);
    ServerReadied(j, id, s, pair, out);
  }

  lemma {:induction false} ServerReceiveKeeps(j: Json, id: seq<byte>, s: Session, pair: nat, m: Moment)
    requires Lawful(j) && Inv(j, id, s, pair) && Enabled(s, ServerReceive(m))
    ensures var s' := Next(j, id, s, ServerReceive(m));
            Inv(j, id, s', pair) && Fell(j, id, s, s', pair)
  {
    if s.server.authenticated {
      ServerDispatches(j, id, s, pair, m);
    } else if !IsHandshake(s.toServer[0].action) {
      ServerIgnores(j, id, s, pair, m);
    } else {
      HandshakesHead(s.toServer);
      match PhaseOf(s)
      case SynSent => ServerTakesSyn(j, id, s, pair, m);
      case KeySent => ServerTakesKey(j, id, s, pair, m);
      case ClientReady => ServerTakesReady(j, id, s, pair, m);
      case _ => assert false;
    }
  }

  lemma {:induction false} ClientIgnores(j: Json, id: seq<byte>, s: Session, pair: nat, local: nat, m: Moment)
    requires Inv(j, id, s, pair) && Enabled(s, ClientReceive(local, m))
    requires !s.client.authenticated && !IsHandshake(s.toClient[0].action)
    ensures var s' := Next(j, id, s, ClientReceive(local, m));
            Inv(j, id, s', pair) && Fell(j, id, s, s', pair)
  {
    HandshakesHead(s.toClient);
    assert s.toServer + [] == s.toServer;
  }

  lemma {:induction false} ClientDispatches(j: Json, id: seq<byte>, s: Session, pair: nat, local: nat, m: Moment)
    requires Inv(j, id, s, pair) && Enabled(s, ClientReceive(local, m)) && s.client.authenticated
    ensures var s' := Next(j, id, s, ClientReceive(local, m));
            Inv(j, id, s', pair) && Fell(j, id, s, s', pair)
  {
    var q, keys := s.toClient, s.client.keys;
    var s' := Next(j, id, s, ClientReceive(local, m));
    assert s'.client.received == s.client.received + PassedOn(j, keys, q[0]);
    Assoc(s.client.received, PassedOn(j, keys, q[0]), Pending(j, keys, q[1..]));
    assert s.toServer + [] == s.toServer;
  }

  lemma {:induction false} KeyOffered(j: Json, id: seq<byte>, s: Session, pair: nat, local: nat, out: seq<Frame>)
    requires Inv(j, id, s, pair) && PhaseOf(s) == SynAckSent && s.toClient != [] && IsHandshake(s.toClient[0].action)
    requires |out| <= 1
    requires out != [] ==> out[0].action == ACK && out[0].body == j.write(OfferDoc(j, pair, s.chosen))
    ensures var keys := s.client.keys.(remoteRsa := PublicKey(pair), local := Some(local));
            var s' := s.(client := s.client.(keys := keys, faulted := out == []),
                         toClient := s.toClient[1..], toServer := s.toServer + out);
            Inv(j, id, s', pair) && PhaseOf(s') == if out == [] then Stalled else KeySent
  {
    HandshakesHead(s.toClient);
    Appended(s.toServer, out);
  }

  lemma {:induction false} ClientTakesSynAck(j: Json, id: seq<byte>, s: Session, pair: nat, local: nat, m: Moment)
    requires Lawful(j) && Inv(j, id, s, pair) && Enabled(s, ClientReceive(local, m))
    requires PhaseOf(s) == SynAckSent && IsHandshake(s.toClient[0].action)
    ensures var s' := Next(j, id, s, ClientReceive(local, m));
            Inv(j, id, s', pair) && Fell(j, id, s, s', pair)
  {
    var body := j.write(OfferDoc(j, pair, s.chosen));
    SynAckReaction(j, s.client, Handshakes(s.toClient)[0], pair, local, m);
    HandshakesHead(s.toClient);
    KeyOffered(j, id, s, pair, local, Answer(ACK, RSA, m.now, body));
  }

  lemma {:induction false} EchoAccepted(j: Json, id: seq<byte>, s: Session, pair: nat, out: seq<Frame>)
    requires Inv(j, id, s, pair) && PhaseOf(s) == KeyEchoed && s.toClient != [] && IsHandshake(s.toClient[0].action)
    requires |out| == 1 && out[0].action == READY
    ensures var s' := s.(toClient := s.toClient[1..], toServer := s.toServer + out, clientOpen := true);
            Inv(j, id, s', pair) && PhaseOf(s') == ClientReady
  {
    HandshakesHead(s.toClient);
    Appended(s.toServer, out);
  }

  lemma {:induction false} ClientTakesEcho(j: Json, id: seq<byte>, s: Session, pair: nat, local: nat, m: Moment)
    requires Lawful(j) && Inv(j, id, s, pair) && Enabled(s, ClientReceive(local, m))
    requires PhaseOf(s) == KeyEchoed && IsHandshake(s.toClient[0].action)
    ensures var s' := Next(j, id, s, ClientReceive(local, m));
            Inv(j, id, s', pair) && Fell(j, id, s, s', pair)
  {
    EchoReaction(j, s.client, Handshakes(s.toClient)[0], local, m);
    HandshakesHead(s.toClient);
    EchoAccepted(j, id, s, pair, [Frame(READY, NONE, m.now, READY_TEXT)]);
  }

  lemma {:induction false} ClientTakesReady(j: Json, id: seq<byte>, s: Session, pair: nat, local: nat, m: Moment)
    requires Lawful(j) && Inv(j, id, s, pair) && Enabled(s, ClientReceive(local, m))
    requires PhaseOf(s) == ServerReady && IsHandshake(s.toClient[0].action)
    ensures var s' := Next(j, id, s, ClientReceive(local, m));
            Inv(j, id, s', pair) && Fell(j, id, s, s', pair)
  {
    HandshakesHead(s.toClient);
    assert s.toServer + [] == s.toServer;
  }

  lemma {:induction false} ClientReceiveKeeps(j: Json, id: seq<byte>, s: Session, pair: nat, local: nat, m: Moment)
    requires Lawful(j) && Inv(j, id, s, pair) && Enabled(s, ClientReceive(local, m))
    ensures var s' := Next(j, id, s, ClientReceive(local, m));
            Inv(j, id, s', pair) && Fell(j, id, s, s', pair)
  {
    if s.client.authenticated {
      ClientDispatches(j, id, s, pair, local, m);
    } else if !IsHandshake(s.toClient[0].action) {
      ClientIgnores(j, id, s, pair, local, m);
    } else {
      HandshakesHead(s.toClient);
      match PhaseOf(s)
      case SynAckSent => ClientTakesSynAck(j, id, s, pair, local, m);
      case KeyEchoed => ClientTakesEcho(j, id, s, pair, local, m);
      case ServerReady => ClientTakesReady(j, id, s, pair, local, m);
      case _ => assert false;
    }
  }

  // ---------------------------------------------------------------- whole runs

  predicate ValidRun(j: Json, id: seq<byte>, s: Session, steps: seq<Step>)
    decreases |steps|
  {
    steps == [] || (Enabled(s, steps[0]) && ValidRun(j, id, Next(j, id, s, steps[0]), steps[1..]))
  }

  function Run(j: Json, id: seq<byte>, s: Session, steps: seq<Step>): Session
    requires ValidRun(j, id, s, steps)
    decreases |steps|
  {
    if steps == [] then s else Run(j, id, Next(j, id, s, steps[0]), steps[1..])
  }

  function Receives(steps: seq<Step>): nat {
    if steps == [] then 0
    else (if steps[0].ClientReceive? || steps[0].ServerReceive? then 1 else 0) + Receives(steps[1..])
  }

  function Emits(j: Json, s: Session, step: Step): nat {
    match step
    case ClientSend(r, m) => |Sends(j, s.client.keys, r, m).Frames()|
    case ServerSend(r, m) => |Sends(j, s.server.keys, r, m).Frames()|
    case _ => 0
  }

  /** How many frames code outside the handshake put on the two streams. */
  function Outside(j: Json, id: seq<byte>, s: Session, steps: seq<Step>): nat
    requires ValidRun(j, id, s, steps)
    decreases |steps|
  {
    if steps == [] then 0
    else Emits(j, s, steps[0]) + Outside(j, id, Next(j, id, s, steps[0]), steps[1..])
  }

  lemma {:induction false} NextKeeps(j: Json, id: seq<byte>, s: Session, pair: nat, step: Step)
    requires Lawful(j) && Inv(j, id, s, pair) && Enabled(s, step)
    ensures Inv(j, id, Next(j, id, s, step), pair)
  {
    match step
    case Start(secret, m) => StartKeeps(j, id, s, pair, secret, m);
    case ClientSend(r, m) => ClientSendKeeps(j, id, s, pair, r, m);
    case ServerSend(r, m) => ServerSendKeeps(j, id, s, pair, r, m);
    case ClientReceive(local, m) => ClientReceiveKeeps(j, id, s, pair, local, m);
    case ServerReceive(m) => ServerReceiveKeeps(j, id, s, pair, m);
  }

  lemma {:induction false} RunKeeps(j: Json, id: seq<byte>, s: Session, pair: nat, steps: seq<Step>)
    requires Lawful(j) && Inv(j, id, s, pair) && ValidRun(j, id, s, steps)
    ensures Inv(j, id, Run(j, id, s, steps), pair)
    decreases |steps|
  {
    if steps != [] {
      NextKeeps(j, id, s, pair, steps[0]);
      RunKeeps(j, id, Next(j, id, s, steps[0]), pair, steps[1..]);
    }
  }

  /** The chosen key is one the client generated at a start of the run. */
  ghost predicate Generated(steps: seq<Step>, chosen: Key) {
    exists i :: 0 <= i < |steps| && steps[i].Start? && Secret(steps[i].secret) == chosen
  }

  lemma {:induction false} ChosenIsGenerated(j: Json, id: seq<byte>, s: Session, steps: seq<Step>)
    requires ValidRun(j, id, s, steps)
    ensures Run(j, id, s, steps).chosen == s.chosen || Generated(steps, Run(j, id, s, steps).chosen)
    decreases |steps|
  {
    if steps != [] {
      var s1 := Next(j, id, s, steps[0]);
      ChosenIsGenerated(j, id, s1, steps[1..]);
      var chosen := Run(j, id, s, steps).chosen;
      if Generated(steps[1..], chosen) {
        var i :| 0 <= i < |steps[1..]| && steps[1..][i].Start? && Secret(steps[1..][i].secret) == chosen;
        assert steps[i + 1].Start? && Secret(steps[i + 1].secret) == chosen;
      } else if steps[0].Start? {
        assert Secret(steps[0].secret) == s1.chosen;
      }
    }
  }

  /** Key agreement, over every interleaving and any amount of unrelated traffic. */
  lemma {:induction false} Agreement(j: Json, id: seq<byte>, pair: nat, steps: seq<Step>)
    requires Lawful(j) && ValidRun(j, id, Accepted(pair), steps)
    ensures var s := Run(j, id, Accepted(pair), steps);
            && (s.client.authenticated ==> s.server.authenticated)
            && (s.server.authenticated ==>
                  s.client.keys.chacha == s.server.keys.chacha == s.chosen
                  && Usable(s.chosen) && Generated(steps, s.chosen))
            && (!s.server.authenticated ==> |Handshakes(s.toServer)| + |Handshakes(s.toClient)| <= 1)
            && (s.client.authenticated ==> !s.client.authenticating)
            && (s.server.authenticating <==> !s.server.authenticated)
  {
    AcceptedInv(j, id, pair);
    RunKeeps(j, id, Accepted(pair), pair, steps);
    ChosenIsGenerated(j, id, Accepted(pair), steps);
  }

  /** Nothing sent behind a Ready is swallowed, reordered or altered: what the peer has passed on, followed by what its
      dispatch loop will make of the frames still queued, is what was sent. */
  lemma {:induction false} NoLoss(j: Json, id: seq<byte>, pair: nat, steps: seq<Step>)
    requires Lawful(j) && ValidRun(j, id, Accepted(pair), steps)
    ensures var s := Run(j, id, Accepted(pair), steps);
            && (s.client.authenticated ==> s.clientOpen)
            && s.server.received <= s.fromClient
            && s.client.received <= s.fromServer
            && (s.server.authenticated && s.toServer == [] ==> s.server.received == s.fromClient)
            && (s.client.authenticated && s.toClient == [] ==> s.client.received == s.fromServer)
            && (s.server.authenticated ==>
                  s.fromClient == s.server.received + Pending(j, s.server.keys, s.toServer))
            && (s.client.authenticated ==>
                  s.fromServer == s.client.received + Pending(j, s.client.keys, s.toClient))
            && (s.server.authenticated && !s.client.authenticated ==>
                  s.fromServer == Pending(j, s.client.keys, Behind(s.toClient)))
  {
    AcceptedInv(j, id, pair);
    RunKeeps(j, id, Accepted(pair), pair, steps);
  }

  ghost predicate RoomyRun(j: Json, id: seq<byte>, pair: nat, steps: seq<Step>) {
    forall i :: 0 <= i < |steps| && steps[i].Start? ==> Roomy(j, id, pair, Secret(steps[i].secret))
  }

  ghost predicate OnTrack(j: Json, id: seq<byte>, s: Session, pair: nat) {
    Inv(j, id, s, pair) && PhaseOf(s) != Stalled && (PhaseOf(s) != Idle ==> Roomy(j, id, pair, s.chosen))
  }

  lemma {:induction false} NextAccounts(j: Json, id: seq<byte>, s: Session, pair: nat, step: Step)
    requires Lawful(j) && OnTrack(j, id, s, pair) && Enabled(s, step)
    requires step.Start? ==> Roomy(j, id, pair, Secret(step.secret))
    ensures var s' := Next(j, id, s, step);
            OnTrack(j, id, s', pair)
            && Potential(s') + Receives([step]) == Potential(s) + Emits(j, s, step)
  {
    assert Receives([step][1..]) == 0;
    hide Inv, Potential, Roomy, Next;
    match step
    case Start(secret, m) => StartKeeps(j, id, s, pair, secret, m);
    case ClientSend(r, m) => ClientSendKeeps(j, id, s, pair, r, m);
    case ServerSend(r, m) => ServerSendKeeps(j, id, s, pair, r, m);
    case ClientReceive(local, m) => ClientReceiveKeeps(j, id, s, pair, local, m);
    case ServerReceive(m) =>
      ServerReceiveKeeps(j, id, s, pair, m);
      if PhaseOf(s) == Idle {
        ServerIgnores(j, id, s, pair, m);
      }
  }

  lemma {:induction false} RunAccounts(j: Json, id: seq<byte>, s: Session, pair: nat, steps: seq<Step>)
    requires Lawful(j) && OnTrack(j, id, s, pair) && ValidRun(j, id, s, steps) && RoomyRun(j, id, pair, steps)
    ensures var s' := Run(j, id, s, steps);
            OnTrack(j, id, s', pair)
            && Potential(s') + Receives(steps) == Potential(s) + Outside(j, id, s, steps)
    decreases |steps|
  {
    hide Next, Potential, Emits, OnTrack, Enabled;
    if steps != [] {
      var step := steps[0];
      NextAccounts(j, id, s, pair, step);
      assert Receives([step][1..]) == 0;
      RunAccounts(j, id, Next(j, id, s, step), pair, steps[1..]);
    }
  }

  /** Until both ends are authenticated, a start or a receive is enabled. */
  lemma {:induction false} Movable(j: Json, id: seq<byte>, s: Session, pair: nat, m: Moment)
    requires OnTrack(j, id, s, pair) && m.open && !(s.client.authenticated && s.server.authenticated)
    ensures !s.Started() || Enabled(s, ServerReceive(m)) || Enabled(s, ClientReceive(0, m))
  {
    assert |Handshakes(s.toServer)| > 0 ==> s.toServer != [];
    assert |Handshakes(s.toClient)| > 0 ==> s.toClient != [];
  }

  lemma {:induction false} PotentialBounds(j: Json, id: seq<byte>, s: Session, pair: nat)
    requires OnTrack(j, id, s, pair)
    ensures 0 <= Potential(s)
    ensures Potential(s) == 0 ==> s.client.authenticated && s.server.authenticated
  {
    assert |Handshakes(s.toServer)| > 0 ==> s.toServer != [];
    assert |Handshakes(s.toClient)| > 0 ==> s.toClient != [];
  }

  /** Progress. The receives done and the receives still to come always add up to six plus the frames from outside;
      nobody faults; and until both ends are authenticated a start or a receive is enabled. */
  lemma {:induction false} Progress(j: Json, id: seq<byte>, pair: nat, steps: seq<Step>, m: Moment)
    requires Lawful(j) && ValidRun(j, id, Accepted(pair), steps) && RoomyRun(j, id, pair, steps)
    requires m.open
    ensures var s := Run(j, id, Accepted(pair), steps);
            var budget := 6 + Outside(j, id, Accepted(pair), steps);
            && !s.client.faulted && !s.server.faulted
            && Receives(steps) + Potential(s) == budget
            && Receives(steps) <= budget
            && (Receives(steps) == budget ==> s.client.authenticated && s.server.authenticated)
            && (!(s.client.authenticated && s.server.authenticated) ==>
                  !s.Started() || Enabled(s, ServerReceive(m)) || Enabled(s, ClientReceive(0, m)))
  {
    AcceptedInv(j, id, pair);
    RunAccounts(j, id, Accepted(pair), pair, steps);
    var s := Run(j, id, Accepted(pair), steps);
    PotentialBounds(j, id, s, pair);
    if !(s.client.authenticated && s.server.authenticated) {
      Movable(j, id, s, pair, m);
    }
  }

  /** A started handshake that is not complete has a frame for an end that is still in its authentication loop. */
  lemma {:induction false} Awaited(j: Json, id: seq<byte>, pair: nat, steps: seq<Step>)
    requires Lawful(j) && ValidRun(j, id, Accepted(pair), steps) && RoomyRun(j, id, pair, steps)
    ensures var s := Run(j, id, Accepted(pair), steps);
            s.Started() && !(s.client.authenticated && s.server.authenticated) ==>
              || (!s.client.authenticated && !s.client.faulted && s.toClient != [])
              || (!s.server.authenticated && !s.server.faulted && s.toServer != [])
  {
    AcceptedInv(j, id, pair);
    RunAccounts(j, id, Accepted(pair), pair, steps);
    var s := Run(j, id, Accepted(pair), steps);
    assert |Handshakes(s.toServer)| > 0 ==> s.toServer != [];
    assert |Handshakes(s.toClient)| > 0 ==> s.toClient != [];
  }

  predicate Finishes(j: Json, id: seq<byte>, s: Session, more: seq<Step>) {
    ValidRun(j, id, s, more)
    && Run(j, id, s, more).client.authenticated && Run(j, id, s, more).server.authenticated
  }

  /** A start or a receive that leads on: a start when there has been none, else a receive, which uses one up. */
  lemma {:induction false} Advance(j: Json, id: seq<byte>, s: Session, pair: nat, secret: seq<byte>) returns (step: Step)
    requires Lawful(j) && OnTrack(j, id, s, pair) && !(s.client.authenticated && s.server.authenticated)
    requires |secret| == 32 && Roomy(j, id, pair, Secret(secret))
    ensures Enabled(s, step) && OnTrack(j, id, Next(j, id, s, step), pair) && Next(j, id, s, step).Started()
    ensures s.Started() ==> 0 <= Potential(Next(j, id, s, step)) < Potential(s)
  {
    var m := Moment(0, 0, true);
    Movable(j, id, s, pair, m);
    step :=
      if !s.Started() then Start(secret, m)
      else if Enabled(s, ServerReceive(m)) then ServerReceive(m)
      else ClientReceive(0, m);
    StartedStays(j, id, s, step);
    NextAccounts(j, id, s, pair, step);
    hide Next, OnTrack, Roomy, Potential;
    PotentialBounds(j, id, Next(j, id, s, step), pair);
    assert Receives([step][1..]) == 0;
  }

  lemma {:induction false} StartedStays(j: Json, id: seq<byte>, s: Session, step: Step)
    requires Enabled(s, step) && (s.Started() || step.Start?)
    ensures Next(j, id, s, step).Started()
  {
    hide PacketFor, Encrypted, DecryptInto, Opened;
  }

  /** From every state on track, starts and receives alone lead to a state where both ends are authenticated. */
  lemma {:induction false} CanFinish(j: Json, id: seq<byte>, s: Session, pair: nat, secret: seq<byte>)
    requires Lawful(j) && OnTrack(j, id, s, pair)
    requires |secret| == 32 && Roomy(j, id, pair, Secret(secret))
    ensures exists more :: Finishes(j, id, s, more)
    decreases !s.Started(), Potential(s)
  {
    hide Next, OnTrack, Roomy, Potential, Enabled;
    if s.client.authenticated && s.server.authenticated {
      assert Finishes(j, id, s, []);
    } else {
      var step := Advance(j, id, s, pair, secret);
      var s' := Next(j, id, s, step);
      CanFinish(j, id, s', pair, secret);
      var more :| Finishes(j, id, s', more);
      var all := [step] + more;
      assert all[0] == step && all[1..] == more;
      assert Finishes(j, id, s, all);
    }
  }

  /** No run paints itself into a corner: whatever has been interleaved so far, the handshake can still complete. */
  lemma {:induction false} EveryRunCanFinish(j: Json, id: seq<byte>, pair: nat, steps: seq<Step>, secret: seq<byte>)
    requires Lawful(j) && ValidRun(j, id, Accepted(pair), steps) && RoomyRun(j, id, pair, steps)
    requires |secret| == 32 && Roomy(j, id, pair, Secret(secret))
    ensures exists more :: Finishes(j, id, Run(j, id, Accepted(pair), steps), more)
  {
    AcceptedInv(j, id, pair);
    RunAccounts(j, id, Accepted(pair), pair, steps);
    CanFinish(j, id, Run(j, id, Accepted(pair), steps), pair, secret);
  }
}
