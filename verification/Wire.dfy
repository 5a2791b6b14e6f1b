/** The same connection over bytes: two links on which chunks arrive, refining the session of frames. */
module Wire {
  import opened Bytes
  import opened PacketHeader
  import opened Framing
  import opened Packets
  import opened Handshake
  import opened Session

  /** `up` carries bytes to the server, `down` to the client; `log` is the session's record of what was sent. */
  datatype Wired = Wired(client: Endpoint, server: Endpoint, up: Link, down: Link,
                         chosen: Key, clientOpen: bool, fromClient: seq<Message>, fromServer: seq<Message>)

  function AcceptedWire(pair: nat): Wired {
    var s := Accepted(pair);
    Wired(s.client, s.server, Link([], []), Link([], []), s.chosen, s.clientOpen, s.fromClient, s.fromServer)
  }

  /** A start or a send; a poll, with the number of bytes its body read gets if it blocks; or an arrival. */
  datatype WireStep =
    | Act(step: Step)
    | PollUp(late: nat, m: Moment)
    | PollDown(late: nat, local: nat, m: Moment)
    | ArriveUp(n: nat)
    | ArriveDown(n: nat)

  /** The session whose queues are the frames on the links, arrived or not. */
  function Abstract(w: Wired): Session {
    Session(w.client, w.server, w.up.Frames(), w.down.Frames(), w.chosen, w.clientOpen, w.fromClient, w.fromServer)
  }

  /** A poll takes whatever has arrived, header or not, but never a header without its body. */
  predicate WireEnabled(w: Wired, step: WireStep) {
    match step
    case Act(step) => !step.ClientReceive? && !step.ServerReceive? && Enabled(Abstract(w), step)
    case PollUp(late, m) => !w.server.faulted && m.open && BodyReady(w.up.avail, w.up.Late(late))
    case PollDown(late, _, m) =>
      (w.client.authenticating || w.client.authenticated) && !w.client.faulted && m.open
      && BodyReady(w.down.avail, w.down.Late(late))
    case ArriveUp(_) => true
    case ArriveDown(_) => true
  }

  /** One poll of a loop and what the loop does with its outcome. */
  function Polls(role: Role, j: Json, node: Endpoint, l: Link, late: nat, local: nat, m: Moment): (Reaction, Link) {
    var (o, l') := l.Poll(late);
    match o
    case Nothing => (Ignore(node), l')
    case Throws => (Fault(node), l')
    case Packet(h, body) => (React(role, j, node, Frame(h.action, h.encryption, h.sentAt, body), local, m), l')
  }

  function WireNext(j: Json, id: seq<byte>, w: Wired, step: WireStep): Wired
    requires WireEnabled(w, step)
  {
    match step
    case ArriveUp(n) => w.(up := w.up.Arrive(n))
    case ArriveDown(n) => w.(down := w.down.Arrive(n))
    case Act(Start(secret, m)) =>
      var r := ClientStart(j, id, w.client, secret, m);
      w.(client := r.node, up := w.up.Write(r.out), chosen := Secret(secret))
    case Act(ClientSend(r, m)) =>
      w.(up := w.up.Write(Sends(j, w.client.keys, r, m).Frames()),
         fromClient := w.fromClient + if w.clientOpen then Logged(j, w.client.keys, r, m) else [])
    case Act(ServerSend(r, m)) =>
      w.(down := w.down.Write(Sends(j, w.server.keys, r, m).Frames()),
         fromServer := w.fromServer + if w.server.authenticated then Logged(j, w.server.keys, r, m) else [])
    case PollDown(late, local, m) =>
      var (r, l) := Polls(ClientSide, j, w.client, w.down, late, local, m);
      w.(client := r.node, down := l, up := w.up.Write(r.out),
         clientOpen := w.clientOpen || (r.out != [] && r.out[0].action == READY))
    case PollUp(late, m) =>
      var (r, l) := Polls(ServerSide, j, w.server, w.up, late, 0, m);
      w.(server := r.node, up := l, down := w.down.Write(r.out))
  }

  ghost predicate WholeLinks(w: Wired) {
    w.up.Whole() && w.down.Whole()
  }

  /** The frame-level steps a byte-level step stands for: one, or none for an arrival or a poll too early. */
  function Stands(w: Wired, step: WireStep): seq<Step> {
    match step
    case ArriveUp(_) => []
    case ArriveDown(_) => []
    case PollDown(_, local, m) => if |w.down.avail| < HEADER_SIZE then [] else [ClientReceive(local, m)]
    case PollUp(_, m) => if |w.up.avail| < HEADER_SIZE then [] else [ServerReceive(m)]
    case Act(step) => [step]
  }

  lemma {:induction false} WriteNothing(l: Link)
    ensures l.Write([]) == l
  {
  }

  lemma {:induction false} ClientReceiveRefines(j: Json, id: seq<byte>, w: Wired, late: nat, local: nat, m: Moment)
    requires WholeLinks(w) && WireEnabled(w, PollDown(late, local, m))
    ensures var w' := WireNext(j, id, w, PollDown(late, local, m));
            WholeLinks(w')
            && (|w.down.avail| < HEADER_SIZE ==> w' == w)
            && (|w.down.avail| >= HEADER_SIZE ==>
                  Enabled(Abstract(w), ClientReceive(local, m))
                  && Abstract(w') == Next(j, id, Abstract(w), ClientReceive(local, m)))
  {
    PollTakesHead(w.down, late);
    var (r, l) := Polls(ClientSide, j, w.client, w.down, late, local, m);
    WriteAppends(w.up, r.out);
    WriteNothing(w.up);
  }

  lemma {:induction false} ServerReceiveRefines(j: Json, id: seq<byte>, w: Wired, late: nat, m: Moment)
    requires WholeLinks(w) && WireEnabled(w, PollUp(late, m))
    ensures var w' := WireNext(j, id, w, PollUp(late, m));
            WholeLinks(w')
            && (|w.up.avail| < HEADER_SIZE ==> w' == w)
            && (|w.up.avail| >= HEADER_SIZE ==>
                  Enabled(Abstract(w), ServerReceive(m))
                  && Abstract(w') == Next(j, id, Abstract(w), ServerReceive(m)))
  {
    PollTakesHead(w.up, late);
    var (r, l) := Polls(ServerSide, j, w.server, w.up, late, 0, m);
    WriteAppends(w.down, r.out);
    WriteNothing(w.down);
  }

  /** The frame-level steps that a byte-level step stands for lead where it does. */
  ghost predicate Refines(j: Json, id: seq<byte>, w: Wired, step: WireStep)
    requires WireEnabled(w, step)
  {
    var steps := Stands(w, step);
    var a := Abstract(WireNext(j, id, w, step));
    if steps == [] then a == Abstract(w)
    else Enabled(Abstract(w), steps[0]) && a == Next(j, id, Abstract(w), steps[0])
  }

  lemma {:induction false} ActRefines(j: Json, id: seq<byte>, w: Wired, step: Step)
    requires WholeLinks(w) && WireEnabled(w, Act(step))
    ensures WholeLinks(WireNext(j, id, w, Act(step))) && Refines(j, id, w, Act(step))
  {
    hide ClientStart, Sends, Logged;
    match step
    case Start(secret, m) => WriteAppends(w.up, ClientStart(j, id, w.client, secret, m).out);
    case ClientSend(r, m) => WriteAppends(w.up, Sends(j, w.client.keys, r, m).Frames());
    case ServerSend(r, m) => WriteAppends(w.down, Sends(j, w.server.keys, r, m).Frames());
  }

  /** Every byte-level step is a frame-level step or changes nothing a frame-level observer sees. */
  lemma {:induction false} StepRefines(j: Json, id: seq<byte>, w: Wired, step: WireStep)
    requires WholeLinks(w) && WireEnabled(w, step)
    ensures WholeLinks(WireNext(j, id, w, step)) && Refines(j, id, w, step)
  {
    match step
    case ArriveUp(n) => ArriveKeeps(w.up, n);
    case ArriveDown(n) => ArriveKeeps(w.down, n);
    case Act(act) => ActRefines(j, id, w, act);
    case PollDown(late, local, m) => ClientReceiveRefines(j, id, w, late, local, m);
    case PollUp(late, m) => ServerReceiveRefines(j, id, w, late, m);
  }

  predicate WireRunValid(j: Json, id: seq<byte>, w: Wired, steps: seq<WireStep>)
    decreases |steps|
  {
    steps == [] || (WireEnabled(w, steps[0]) && WireRunValid(j, id, WireNext(j, id, w, steps[0]), steps[1..]))
  }

  function WireRun(j: Json, id: seq<byte>, w: Wired, steps: seq<WireStep>): Wired
    requires WireRunValid(j, id, w, steps)
    decreases |steps|
  {
    if steps == [] then w else WireRun(j, id, WireNext(j, id, w, steps[0]), steps[1..])
  }

  function FrameSteps(j: Json, id: seq<byte>, w: Wired, steps: seq<WireStep>): seq<Step>
    requires WireRunValid(j, id, w, steps)
    decreases |steps|
  {
    if steps == [] then []
    else Stands(w, steps[0]) + FrameSteps(j, id, WireNext(j, id, w, steps[0]), steps[1..])
  }

  /** Every byte-level run is the frame-level run of the steps it stands for. */
  lemma {:induction false} WireRunRefines(j: Json, id: seq<byte>, w: Wired, steps: seq<WireStep>)
    requires WholeLinks(w) && WireRunValid(j, id, w, steps)
    ensures WholeLinks(WireRun(j, id, w, steps))
    ensures ValidRun(j, id, Abstract(w), FrameSteps(j, id, w, steps))
    ensures Run(j, id, Abstract(w), FrameSteps(j, id, w, steps)) == Abstract(WireRun(j, id, w, steps))
    decreases |steps|
  {
    if steps != [] {
      StepRefines(j, id, w, steps[0]);
      var w1 := WireNext(j, id, w, steps[0]);
      WireRunRefines(j, id, w1, steps[1..]);
      var rest := FrameSteps(j, id, w1, steps[1..]);
      var all := FrameSteps(j, id, w, steps);
      if Stands(w, steps[0]) == [] {
        assert all == rest;
      } else {
        assert all[0] == Stands(w, steps[0])[0] && all[1..] == rest;
      }
    }
  }

  /** Agreement and no loss, from the bytes up: any interleaving of sends, partial arrivals and polls. */
  lemma {:induction false} WireSafety(j: Json, id: seq<byte>, pair: nat, steps: seq<WireStep>)
    requires Lawful(j) && WireRunValid(j, id, AcceptedWire(pair), steps)
    ensures var w := WireRun(j, id, AcceptedWire(pair), steps);
            && (w.client.authenticated ==> w.server.authenticated && w.clientOpen && !w.client.authenticating)
            && (w.server.authenticating <==> !w.server.authenticated)
            && (w.server.authenticated ==>
                  w.client.keys.chacha == w.server.keys.chacha == w.chosen && Usable(w.chosen))
            && w.server.received <= w.fromClient
            && w.client.received <= w.fromServer
            && (w.server.authenticated && w.up.Stream() == [] ==> w.server.received == w.fromClient)
            && (w.client.authenticated && w.down.Stream() == [] ==> w.client.received == w.fromServer)
  {
    var w0 := AcceptedWire(pair);
    assert Abstract(w0) == Accepted(pair);
    WireRunRefines(j, id, w0, steps);
    Agreement(j, id, pair, FrameSteps(j, id, w0, steps));
    NoLoss(j, id, pair, FrameSteps(j, id, w0, steps));
  }

  /** Once everything sent has arrived, a link that is not empty can be polled and the poll takes a frame. */
  lemma {:induction false} ArrivedIsReady(l: Link)
    requires l.Whole() && l.Frames() != []
    ensures var a := l.Arrive(|l.wire|).avail;
            HEADER_SIZE <= |a| && BodyReady(a, [])
  {
    var f, s := l.Frames()[0], l.Stream();
    assert l.Arrive(|l.wire|).avail == s;
    assert s[..HEADER_SIZE] == PacketHeader.Encode(HeaderOf(f));
    ValidateInvertsWrite(HeaderOf(f));
  }

  /** The frame receives of a byte-level run are bounded by six plus the frames from outside, and a run that reaches the
      bound has authenticated both ends. */
  lemma {:induction false} WireBudget(j: Json, id: seq<byte>, pair: nat, steps: seq<WireStep>)
    requires Lawful(j) && WireRunValid(j, id, AcceptedWire(pair), steps)
    requires RoomyRun(j, id, pair, FrameSteps(j, id, AcceptedWire(pair), steps))
    ensures var w := WireRun(j, id, AcceptedWire(pair), steps);
            var frames := FrameSteps(j, id, AcceptedWire(pair), steps);
            && ValidRun(j, id, Accepted(pair), frames)
            && Receives(frames) <= 6 + Outside(j, id, Accepted(pair), frames)
            && (Receives(frames) == 6 + Outside(j, id, Accepted(pair), frames) ==>
                  w.client.authenticated && w.server.authenticated)
  {
    var w0 := AcceptedWire(pair);
    assert Abstract(w0) == Accepted(pair);
    WireRunRefines(j, id, w0, steps);
    Progress(j, id, pair, FrameSteps(j, id, w0, steps), Moment(0, 0, true));
  }

  /** A poll takes a frame once all bytes in flight have arrived. */
  predicate CanReceive(w: Wired, m: Moment) {
    var up := w.(up := w.up.Arrive(|w.up.wire|));
    var down := w.(down := w.down.Arrive(|w.down.wire|));
    || (WireEnabled(up, PollUp(0, m)) && Stands(up, PollUp(0, m)) != [])
    || (WireEnabled(down, PollDown(0, 0, m)) && Stands(down, PollDown(0, 0, m)) != [])
  }

  lemma {:induction false} CanReceiveUp(w: Wired, m: Moment)
    requires WholeLinks(w) && w.up.Frames() != [] && !w.server.faulted && m.open
    ensures CanReceive(w, m)
  {
    ArrivedIsReady(w.up);
  }

  lemma {:induction false} CanReceiveDown(w: Wired, m: Moment)
    requires WholeLinks(w) && w.down.Frames() != [] && Abstract(w).Started() && !w.client.faulted && m.open
    ensures CanReceive(w, m)
  {
    ArrivedIsReady(w.down);
  }

  /** Until both ends are authenticated the client can start or, once the bytes in flight have arrived, some poll takes
      a frame. */
  lemma {:induction false} WireProgress(j: Json, id: seq<byte>, pair: nat, steps: seq<WireStep>, m: Moment)
    requires Lawful(j) && WireRunValid(j, id, AcceptedWire(pair), steps) && m.open
    requires RoomyRun(j, id, pair, FrameSteps(j, id, AcceptedWire(pair), steps))
    ensures var w := WireRun(j, id, AcceptedWire(pair), steps);
            (w.client.authenticated && w.server.authenticated) || !Abstract(w).Started() || CanReceive(w, m)
  {
    var w0 := AcceptedWire(pair);
    assert Abstract(w0) == Accepted(pair);
    WireRunRefines(j, id, w0, steps);
    Awaited(j, id, pair, FrameSteps(j, id, w0, steps));
    var w := WireRun(j, id, w0, steps);
    hide CanReceive, WholeLinks;
    if w.up.Frames() != [] && !w.server.faulted {
      CanReceiveUp(w, m);
    } else if w.down.Frames() != [] && Abstract(w).Started() && !w.client.faulted {
      CanReceiveDown(w, m);
    }
  }
}
