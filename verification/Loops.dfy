/** The two objects' loops on one connection: their joint runs are runs of the wire, and each end's part is its own run. */
module Loops {
  import opened Bytes
  import opened PacketHeader
  import opened Framing
  import opened Packets
  import opened Handshake
  import opened Sequences
  import opened Session
  import opened Wire
  import Pulse = HeartBeat

  /** The client's id, and each end's settings. */
  datatype Ends = Ends(j: Json, id: seq<byte>, client: Option<Settings>, server: Option<Settings>) {
    function ClientEnd(): Side { Side(ClientSide, j, client, true) }
    function ServerEnd(): Side { Side(ServerSide, j, server, true) }
  }

  /** A task's heartbeat, and whether it or a handler has ended the task. */
  datatype Beating = Beating(beat: Pulse.Beat, ended: bool, crashed: bool)

  datatype Joint = Joint(w: Wired, client: Beating, server: Beating) {
    function ClientLoop(): Loop { Loop(w.client, client.beat, client.ended, client.crashed, w.down.avail) }
    function ServerLoop(): Loop { Loop(w.server, server.beat, server.ended, server.crashed, w.up.avail) }
  }

  /** A turn of either end's loop; or a start, or a send by code outside the loops. */
  datatype LoopStep = ClientTurn(t: Turn) | ServerTurn(t: Turn) | Other(step: Step)

  /** A turn's bytes are the next ones on the link, and its poll, unless the heartbeat ends the task first, does not get a
      header without its body. */
  predicate Fed(side: Side, l: Loop, link: Link, t: Turn) {
    && t.arrived <= link.wire
    && t.late <= link.wire[|t.arrived|..]
    && (!Skips(side, l, t) ==> BodyReady(link.avail + t.arrived, t.late))
  }

  predicate LoopEnabled(e: Ends, c: Joint, step: LoopStep) {
    match step
    case ClientTurn(t) =>
      (c.w.client.authenticating || c.w.client.authenticated) && c.ClientLoop().Running()
      && Fed(e.ClientEnd(), c.ClientLoop(), c.w.down, t)
    case ServerTurn(t) => c.ServerLoop().Running() && Fed(e.ServerEnd(), c.ServerLoop(), c.w.up, t)
    case Other(step) => WireEnabled(c.w, Act(step))
  }

  /** The link a turn leaves behind. */
  function Left(side: Side, l: Loop, link: Link, t: Turn): Link
    requires Fed(side, l, link, t)
  {
    var wire := link.wire[|t.arrived|..];
    var blocked := !Skips(side, l, t) && Blocks(link.avail + t.arrived);
    Link(if blocked then wire[|t.late|..] else wire, ServeTurn(side, l, t).loop.avail)
  }

  function PingRequest(side: Side): Request {
    Request(side.settings, Pulse.PING_TEXT, PING, true, NONE)
  }

  function PingMoment(t: Turn): Moment { Moment(t.pingNonce, t.pingNow, true) }

  /** What the record of sends gains by a turn: its ping, if one goes out. */
  function PingLogged(side: Side, l: Loop, t: Turn): seq<Message> {
    if Pings(side, l, t) then Logged(side.j, l.node.keys, PingRequest(side), PingMoment(t)) else []
  }

  /** The tracker a turn answers a ping with. */
  function Answering(side: Side, l: Loop, t: Turn): Option<Pulse.Tracker> {
    if Skips(side, l, t) then None
    else
      match Dispatching(l, t)
      case Some(f) => PongTo(Handed(side, l.node, f), f.sentAt, t)
      case None => None
  }

  function PongRequest(side: Side, tracker: Pulse.Tracker): Request {
    Request(side.settings, side.j.write(tracker.Doc()), PONG, true, NONE)
  }

  function TurnMoment(t: Turn): Moment { Moment(t.nonce, t.now, true) }

  /** What it gains by the turn's pong. */
  function PongLogged(side: Side, l: Loop, t: Turn): seq<Message> {
    match Answering(side, l, t)
    case Some(tracker) => Logged(side.j, l.node.keys, PongRequest(side, tracker), TurnMoment(t))
    case None => []
  }

  function LoopNext(e: Ends, c: Joint, step: LoopStep): Joint
    requires LoopEnabled(e, c, step)
  {
    match step
    case ClientTurn(t) =>
      var side, l := e.ClientEnd(), c.ClientLoop();
      var s := ServeTurn(side, l, t);
      c.(w := c.w.(client := s.loop.node, down := Left(side, l, c.w.down, t), up := c.w.up.Write(s.out),
                   clientOpen := c.w.clientOpen || (!l.node.authenticated && s.out != [] && s.out[0].action == READY),
                   fromClient := c.w.fromClient
                                 + if c.w.clientOpen then PingLogged(side, l, t) + PongLogged(side, l, t) else []),
         client := Beating(s.loop.beat, s.loop.ended, s.loop.crashed))
    case ServerTurn(t) =>
      var side, l := e.ServerEnd(), c.ServerLoop();
      var s := ServeTurn(side, l, t);
      c.(w := c.w.(server := s.loop.node, up := Left(side, l, c.w.up, t), down := c.w.down.Write(s.out),
                   fromServer := c.w.fromServer + (PingLogged(side, l, t) + PongLogged(side, l, t))),
         server := Beating(s.loop.beat, s.loop.ended, s.loop.crashed))
    case Other(step) => c.(w := WireNext(e.j, e.id, c.w, Act(step)))
  }

  /** The wire steps of a turn: its ping if one is due, its arrival, its poll unless the task has ended, and its pong if
      the poll took a ping. */
  function Unfold(e: Ends, c: Joint, step: LoopStep): seq<WireStep> {
    match step
    case ClientTurn(t) =>
      var side, l := e.ClientEnd(), c.ClientLoop();
      (if Pings(side, l, t) then [Act(ClientSend(PingRequest(side), PingMoment(t)))] else [])
      + [ArriveDown(|t.arrived|)]
      + (if Skips(side, l, t) then [] else [PollDown(|t.late|, t.pair, TurnMoment(t))])
      + (if Answering(side, l, t).None? then []
         else [Act(ClientSend(PongRequest(side, Answering(side, l, t).value), TurnMoment(t)))])
    case ServerTurn(t) =>
      var side, l := e.ServerEnd(), c.ServerLoop();
      (if Pings(side, l, t) then [Act(ServerSend(PingRequest(side), PingMoment(t)))] else [])
      + [ArriveUp(|t.arrived|)]
      + (if Skips(side, l, t) then [] else [PollUp(|t.late|, TurnMoment(t))])
      + (if Answering(side, l, t).None? then []
         else [Act(ServerSend(PongRequest(side, Answering(side, l, t).value), TurnMoment(t)))])
    case Other(step) => [Act(step)]
  }

  // ---------------------------------------------------------------- a turn on the wire

  lemma {:induction false} WireRunConcat(j: Json, id: seq<byte>, w: Wired, xs: seq<WireStep>, ys: seq<WireStep>)
    requires WireRunValid(j, id, w, xs) && WireRunValid(j, id, WireRun(j, id, w, xs), ys)
    ensures WireRunValid(j, id, w, xs + ys)
    ensures WireRun(j, id, w, xs + ys) == WireRun(j, id, WireRun(j, id, w, xs), ys)
    decreases |xs|
  {
    hide WireNext, WireEnabled;
    var all := xs + ys;
    if xs == [] {
      assert all == ys;
    } else {
      assert all[0] == xs[0] && all[1..] == xs[1..] + ys;
      WireRunConcat(j, id, WireNext(j, id, w, xs[0]), xs[1..], ys);
    }
  }

  lemma {:induction false} WireOne(j: Json, id: seq<byte>, w: Wired, x: WireStep)
    requires WireEnabled(w, x)
    ensures WireRunValid(j, id, w, [x]) && WireRun(j, id, w, [x]) == WireNext(j, id, w, x)
  {
    hide WireNext, WireEnabled;
    assert [x][1..] == [];
    assert WireRunValid(j, id, WireNext(j, id, w, x), []);
  }

  lemma {:induction false} WireTwoMore(j: Json, id: seq<byte>, w: Wired, xs: seq<WireStep>, y: WireStep, z: WireStep)
    requires WireRunValid(j, id, w, xs) && WireEnabled(WireRun(j, id, w, xs), y)
    requires WireEnabled(WireNext(j, id, WireRun(j, id, w, xs), y), z)
    ensures WireRunValid(j, id, w, xs + [y] + [z])
    ensures WireRun(j, id, w, xs + [y] + [z]) == WireNext(j, id, WireNext(j, id, WireRun(j, id, w, xs), y), z)
  {
    hide WireNext, WireEnabled;
    var w1 := WireRun(j, id, w, xs);
    WireOne(j, id, w1, y);
    WireRunConcat(j, id, w, xs, [y]);
    WireOne(j, id, WireNext(j, id, w1, y), z);
    WireRunConcat(j, id, w, xs + [y], [z]);
  }

  lemma {:induction false} WriteTwice(l: Link, a: seq<Frame>, b: seq<Frame>)
    ensures l.Write(a).Write(b) == l.Write(a + b)
  {
    EncodeAllConcat(a, b);
    Assoc(l.wire, EncodeAll(a), EncodeAll(b));
  }

  /** An arrival and a poll, as the turn sees them. */
  lemma {:induction false} ArriveAndPoll(link: Link, arrived: seq<byte>, late: seq<byte>)
    requires arrived <= link.wire && late <= link.wire[|arrived|..]
    ensures var a := link.Arrive(|arrived|);
            var p := Receive(link.avail + arrived, late);
            var wire := link.wire[|arrived|..];
            a == Link(wire, link.avail + arrived) && a.Late(|late|) == late
            && a.Poll(|late|) == (p.outcome, Link(if Blocks(a.avail) then wire[|late|..] else wire, p.rest))
  {
    assert link.wire[..|arrived|] == arrived;
    assert link.wire[|arrived|..][..|late|] == late;
  }

  /** The poll of a turn is the wire's poll of the link, once the turn's bytes have arrived. */
  lemma {:induction false} PollMatches(side: Side, l: Loop, link: Link, t: Turn)
    requires Fed(side, l, link, t) && !Skips(side, l, t) && l.avail == link.avail && side.open
    ensures var p := PollTurn(side, Beats(side, l, t).loop, t);
            var a := link.Arrive(|t.arrived|);
            var local := if side.role == ClientSide then t.pair else 0;
            BodyReady(a.avail, a.Late(|t.late|))
            && Polls(side.role, side.j, l.node, a, |t.late|, local, TurnMoment(t))
               == (Reaction(p.loop.node, p.out), Left(side, l, link, t))
  {
    ArriveAndPoll(link, t.arrived, t.late);
    var p := Receive(l.avail + t.arrived, t.late);
    if p.outcome.Packet? {
      var f := AnyFrame.Frame(p.outcome.header.action, p.outcome.header.encryption, p.outcome.header.sentAt, p.outcome.body);
      PairUnused(side.j, l.node, f, t.pair, TurnMoment(t));
    }
    hide React;
  }

  /** The server draws no pair. */
  lemma {:induction false} PairUnused(j: Json, node: Endpoint, f: AnyFrame, pair: nat, m: Moment)
    ensures React(ServerSide, j, node, f, pair, m) == React(ServerSide, j, node, f, 0, m)
  {
  }

  lemma {:induction false} ServerPing(e: Ends, c: Joint, t: Turn) returns (w1: Wired, xs: seq<WireStep>)
    requires LoopEnabled(e, c, ServerTurn(t))
    ensures var side, l := e.ServerEnd(), c.ServerLoop();
            xs == (if Pings(side, l, t) then [Act(ServerSend(PingRequest(side), PingMoment(t)))] else [])
            && w1 == c.w.(down := c.w.down.Write(Beats(side, l, t).out), fromServer := c.w.fromServer + PingLogged(side, l, t))
            && WireRunValid(e.j, e.id, c.w, xs) && WireRun(e.j, e.id, c.w, xs) == w1
  {
    var side, l := e.ServerEnd(), c.ServerLoop();
    w1 := c.w.(down := c.w.down.Write(Beats(side, l, t).out), fromServer := c.w.fromServer + PingLogged(side, l, t));
    xs := [];
    if Pings(side, l, t) {
      var x := Act(ServerSend(PingRequest(side), PingMoment(t)));
      xs := [x];
      WireOne(e.j, e.id, c.w, x);
    } else {
      WriteNothing(c.w.down);
    }
  }

  lemma {:induction false} ServerPoll(e: Ends, c: Joint, t: Turn, w1: Wired)
    requires LoopEnabled(e, c, ServerTurn(t)) && !Skips(e.ServerEnd(), c.ServerLoop(), t)
    requires w1.server == c.w.server && w1.up == c.w.up
    ensures var side, l := e.ServerEnd(), c.ServerLoop();
            var w2 := w1.(up := w1.up.Arrive(|t.arrived|));
            var x := PollUp(|t.late|, TurnMoment(t));
            var p := PollTurn(side, Beats(side, l, t).loop, t);
            WireEnabled(w2, x)
            && WireNext(e.j, e.id, w2, x)
               == w1.(server := p.loop.node, up := Left(side, l, c.w.up, t), down := w1.down.Write(p.out))
  {
    PollMatches(e.ServerEnd(), c.ServerLoop(), c.w.up, t);
    hide Polls, PollTurn, Left, BodyReady;
  }

  lemma {:induction false} WriteThrice(l: Link, a: seq<Frame>, b: seq<Frame>, c: seq<Frame>)
    ensures l.Write(a).Write(b).Write(c) == l.Write(a + (b + c))
  {
    WriteTwice(l, a, b);
    WriteTwice(l, a + b, c);
    Assoc(a, b, c);
  }

  lemma {:induction false} ServerPong(e: Ends, c: Joint, t: Turn, w: Wired) returns (w1: Wired, xs: seq<WireStep>)
    requires LoopEnabled(e, c, ServerTurn(t))
    requires Answering(e.ServerEnd(), c.ServerLoop(), t).Some? ==>
               w.server.authenticated && w.server.keys == c.w.server.keys
    ensures var side, l := e.ServerEnd(), c.ServerLoop();
            var a := Answering(side, l, t);
            xs == (if a.None? then [] else [Act(ServerSend(PongRequest(side, a.value), TurnMoment(t)))])
            && w1 == w.(down := w.down.Write(PongFrames(side, l, t)), fromServer := w.fromServer + PongLogged(side, l, t))
            && WireRunValid(e.j, e.id, w, xs) && WireRun(e.j, e.id, w, xs) == w1
  {
    var side, l := e.ServerEnd(), c.ServerLoop();
    w1 := w.(down := w.down.Write(PongFrames(side, l, t)), fromServer := w.fromServer + PongLogged(side, l, t));
    xs := [];
    match Answering(side, l, t)
    case Some(tracker) =>
      var x := Act(ServerSend(PongRequest(side, tracker), TurnMoment(t)));
      xs := [x];
      WireOne(e.j, e.id, w, x);
    case None =>
      WriteNothing(w.down);
  }

  /** The frames of a turn's pong. */
  function PongFrames(side: Side, l: Loop, t: Turn): seq<Frame> {
    match Answering(side, l, t)
    case Some(tracker) =>
      Pulse.PongSending(side.j, l.node.keys, side.settings, tracker, Moment(t.nonce, t.now, side.open)).Frames()
    case None => []
  }

  /** A turn that is not ended sends its ping, what its poll answers and its pong; keys change in no dispatch turn. */
  lemma {:induction false} TurnOut(side: Side, l: Loop, t: Turn)
    requires !Skips(side, l, t)
    ensures var b := Beats(side, l, t);
            var p := PollTurn(side, b.loop, t);
            var s := ServeTurn(side, l, t);
            && s.out == b.out + (p.out + PongFrames(side, l, t))
            && s.loop.node == p.loop.node && s.loop.avail == p.loop.avail
            && (Answering(side, l, t).Some? ==>
                  l.node.authenticated && p.loop.node.authenticated && p.loop.node.keys == l.node.keys)
  {
    hide Receive, Opened;
    var b := Beats(side, l, t);
    assert Dispatching(b.loop, t) == Dispatching(l, t);
    assert PollTurn(side, b.loop, t).out + [] == PollTurn(side, b.loop, t).out;
  }

  /** A turn of the server's loop is its wire steps. */
  lemma {:induction false} ServerTurnUnfolds(e: Ends, c: Joint, t: Turn)
    requires LoopEnabled(e, c, ServerTurn(t))
    ensures var xs := Unfold(e, c, ServerTurn(t));
            WireRunValid(e.j, e.id, c.w, xs) && WireRun(e.j, e.id, c.w, xs) == LoopNext(e, c, ServerTurn(t)).w
  {
    var side, l := e.ServerEnd(), c.ServerLoop();
    var b := Beats(side, l, t);
    var w1, ping := ServerPing(e, c, t);
    var arrive := ArriveUp(|t.arrived|);
    ArriveAndPoll(c.w.up, t.arrived, t.late);
    if Skips(side, l, t) {
      WireOne(e.j, e.id, w1, arrive);
      WireRunConcat(e.j, e.id, c.w, ping, [arrive]);
      assert ping + [arrive] + [] + [] == ping + [arrive];
      assert PingLogged(side, l, t) + [] == PingLogged(side, l, t);
    } else {
      var poll := PollUp(|t.late|, TurnMoment(t));
      TurnOut(side, l, t);
      ServerPoll(e, c, t, w1);
      WireTwoMore(e.j, e.id, c.w, ping, arrive, poll);
      var w2, pong := ServerPong(e, c, t, WireRun(e.j, e.id, c.w, ping + [arrive] + [poll]));
      WireRunConcat(e.j, e.id, c.w, ping + [arrive] + [poll], pong);
      WriteThrice(c.w.down, b.out, PollTurn(side, b.loop, t).out, PongFrames(side, l, t));
      Assoc(c.w.fromServer, PingLogged(side, l, t), PongLogged(side, l, t));
    }
    hide Left, Beats, PollTurn, PingLogged, PongLogged, PongFrames, Answering, ServeTurn, BodyReady, WireRunValid,
      WireRun, Fed;
  }

  lemma {:induction false} ClientPing(e: Ends, c: Joint, t: Turn) returns (w1: Wired, xs: seq<WireStep>)
    requires LoopEnabled(e, c, ClientTurn(t))
    ensures var side, l := e.ClientEnd(), c.ClientLoop();
            xs == (if Pings(side, l, t) then [Act(ClientSend(PingRequest(side), PingMoment(t)))] else [])
            && w1 == c.w.(up := c.w.up.Write(Beats(side, l, t).out),
                          fromClient := c.w.fromClient + if c.w.clientOpen then PingLogged(side, l, t) else [])
            && WireRunValid(e.j, e.id, c.w, xs) && WireRun(e.j, e.id, c.w, xs) == w1
  {
    var side, l := e.ClientEnd(), c.ClientLoop();
    w1 := c.w.(up := c.w.up.Write(Beats(side, l, t).out),
               fromClient := c.w.fromClient + if c.w.clientOpen then PingLogged(side, l, t) else []);
    xs := [];
    if Pings(side, l, t) {
      var x := Act(ClientSend(PingRequest(side), PingMoment(t)));
      xs := [x];
      WireOne(e.j, e.id, c.w, x);
    } else {
      WriteNothing(c.w.up);
    }
  }

  lemma {:induction false} ClientPoll(e: Ends, c: Joint, t: Turn, w1: Wired)
    requires LoopEnabled(e, c, ClientTurn(t)) && !Skips(e.ClientEnd(), c.ClientLoop(), t)
    requires w1.client == c.w.client && w1.down == c.w.down
    ensures var side, l := e.ClientEnd(), c.ClientLoop();
            var w2 := w1.(down := w1.down.Arrive(|t.arrived|));
            var x := PollDown(|t.late|, t.pair, TurnMoment(t));
            var p := PollTurn(side, Beats(side, l, t).loop, t);
            WireEnabled(w2, x)
            && WireNext(e.j, e.id, w2, x)
               == w1.(client := p.loop.node, down := Left(side, l, c.w.down, t), up := w1.up.Write(p.out),
                      clientOpen := w1.clientOpen || (p.out != [] && p.out[0].action == READY))
  {
    PollMatches(e.ClientEnd(), c.ClientLoop(), c.w.down, t);
    hide Polls, PollTurn, Left, BodyReady;
  }

  lemma {:induction false} ClientPong(e: Ends, c: Joint, t: Turn, w: Wired) returns (w1: Wired, xs: seq<WireStep>)
    requires LoopEnabled(e, c, ClientTurn(t))
    requires Answering(e.ClientEnd(), c.ClientLoop(), t).Some? ==>
               w.client.authenticated && w.client.keys == c.w.client.keys && w.clientOpen == c.w.clientOpen
    ensures var side, l := e.ClientEnd(), c.ClientLoop();
            var a := Answering(side, l, t);
            xs == (if a.None? then [] else [Act(ClientSend(PongRequest(side, a.value), TurnMoment(t)))])
            && w1 == w.(up := w.up.Write(PongFrames(side, l, t)),
                        fromClient := w.fromClient + if c.w.clientOpen then PongLogged(side, l, t) else [])
            && WireRunValid(e.j, e.id, w, xs) && WireRun(e.j, e.id, w, xs) == w1
  {
    var side, l := e.ClientEnd(), c.ClientLoop();
    w1 := w.(up := w.up.Write(PongFrames(side, l, t)),
             fromClient := w.fromClient + if c.w.clientOpen then PongLogged(side, l, t) else []);
    xs := [];
    match Answering(side, l, t)
    case Some(tracker) =>
      var x := Act(ClientSend(PongRequest(side, tracker), TurnMoment(t)));
      xs := [x];
      WireOne(e.j, e.id, w, x);
    case None =>
      WriteNothing(w.up);
  }

  lemma {:induction false} SkipsOut(e: Ends, c: Joint, t: Turn)
    requires LoopEnabled(e, c, ClientTurn(t)) && Skips(e.ClientEnd(), c.ClientLoop(), t)
    ensures c.w.client.authenticated
    ensures var s := ServeTurn(e.ClientEnd(), c.ClientLoop(), t);
            s.loop.node == c.w.client && s.loop.avail == c.w.down.avail + t.arrived
            && s.out == Beats(e.ClientEnd(), c.ClientLoop(), t).out
  {
  }

  /** Only a turn before authentication sends a Ready. */
  lemma {:induction false} ClientOut(e: Ends, c: Joint, t: Turn)
    requires LoopEnabled(e, c, ClientTurn(t)) && !Skips(e.ClientEnd(), c.ClientLoop(), t)
    ensures var side, l := e.ClientEnd(), c.ClientLoop();
            var b := Beats(side, l, t);
            var out, all := PollTurn(side, b.loop, t).out, ServeTurn(side, l, t).out;
            (out != [] && out[0].action == READY) <==>
              !l.node.authenticated && all != [] && all[0].action == READY
  {
    if c.w.client.authenticated {
      assert PollTurn(e.ClientEnd(), Beats(e.ClientEnd(), c.ClientLoop(), t).loop, t).out == [];
    } else {
      hide PollTurn;
    }
  }

  lemma {:induction false} ClientSkipUnfolds(e: Ends, c: Joint, t: Turn)
    requires LoopEnabled(e, c, ClientTurn(t)) && Skips(e.ClientEnd(), c.ClientLoop(), t)
    ensures var xs := Unfold(e, c, ClientTurn(t));
            WireRunValid(e.j, e.id, c.w, xs) && WireRun(e.j, e.id, c.w, xs) == LoopNext(e, c, ClientTurn(t)).w
  {
    var side, l := e.ClientEnd(), c.ClientLoop();
    var w1, ping := ClientPing(e, c, t);
    var arrive := ArriveDown(|t.arrived|);
    ArriveAndPoll(c.w.down, t.arrived, t.late);
    SkipsOut(e, c, t);
    WireOne(e.j, e.id, w1, arrive);
    WireRunConcat(e.j, e.id, c.w, ping, [arrive]);
    assert ping + [arrive] + [] + [] == ping + [arrive];
    assert PingLogged(side, l, t) + [] == PingLogged(side, l, t);
    hide Beats, PingLogged, ServeTurn, BodyReady, WireRunValid, WireRun, Fed;
  }

  lemma {:induction false} ClientTakeUnfolds(e: Ends, c: Joint, t: Turn)
    requires LoopEnabled(e, c, ClientTurn(t)) && !Skips(e.ClientEnd(), c.ClientLoop(), t)
    ensures var xs := Unfold(e, c, ClientTurn(t));
            WireRunValid(e.j, e.id, c.w, xs) && WireRun(e.j, e.id, c.w, xs) == LoopNext(e, c, ClientTurn(t)).w
  {
    var side, l := e.ClientEnd(), c.ClientLoop();
    var b := Beats(side, l, t);
    var w1, ping := ClientPing(e, c, t);
    ArriveAndPoll(c.w.down, t.arrived, t.late);
    ClientPoll(e, c, t, w1);
    ClientOut(e, c, t);
    TurnOut(side, l, t);
    var arrive, poll := ArriveDown(|t.arrived|), PollDown(|t.late|, t.pair, TurnMoment(t));
    WireTwoMore(e.j, e.id, c.w, ping, arrive, poll);
    var w2, pong := ClientPong(e, c, t, WireRun(e.j, e.id, c.w, ping + [arrive] + [poll]));
    WireRunConcat(e.j, e.id, c.w, ping + [arrive] + [poll], pong);
    WriteThrice(c.w.up, b.out, PollTurn(side, b.loop, t).out, PongFrames(side, l, t));
    Assoc(c.w.fromClient, PingLogged(side, l, t), PongLogged(side, l, t));
    hide Left, Beats, Skips, PollTurn, PingLogged, PongLogged, PongFrames, Answering, ServeTurn, BodyReady,
      WireRunValid, WireRun, Fed;
  }

  /** A turn of the client's loop is its wire steps. */
  lemma {:induction false} ClientTurnUnfolds(e: Ends, c: Joint, t: Turn)
    requires LoopEnabled(e, c, ClientTurn(t))
    ensures var xs := Unfold(e, c, ClientTurn(t));
            WireRunValid(e.j, e.id, c.w, xs) && WireRun(e.j, e.id, c.w, xs) == LoopNext(e, c, ClientTurn(t)).w
  {
    if Skips(e.ClientEnd(), c.ClientLoop(), t) {
      ClientSkipUnfolds(e, c, t);
    } else {
      ClientTakeUnfolds(e, c, t);
    }
  }

  lemma {:induction false} StepUnfolds(e: Ends, c: Joint, step: LoopStep)
    requires LoopEnabled(e, c, step)
    ensures var xs := Unfold(e, c, step);
            WireRunValid(e.j, e.id, c.w, xs) && WireRun(e.j, e.id, c.w, xs) == LoopNext(e, c, step).w
  {
    match step
    case ClientTurn(t) => ClientTurnUnfolds(e, c, t);
    case ServerTurn(t) => ServerTurnUnfolds(e, c, t);
    case Other(step) => WireOne(e.j, e.id, c.w, Act(step));
  }

  // ---------------------------------------------------------------- whole runs

  predicate LoopRunValid(e: Ends, c: Joint, steps: seq<LoopStep>)
    decreases |steps|
  {
    steps == [] || (LoopEnabled(e, c, steps[0]) && LoopRunValid(e, LoopNext(e, c, steps[0]), steps[1..]))
  }

  function LoopRun(e: Ends, c: Joint, steps: seq<LoopStep>): Joint
    requires LoopRunValid(e, c, steps)
    decreases |steps|
  {
    if steps == [] then c else LoopRun(e, LoopNext(e, c, steps[0]), steps[1..])
  }

  function UnfoldAll(e: Ends, c: Joint, steps: seq<LoopStep>): seq<WireStep>
    requires LoopRunValid(e, c, steps)
    decreases |steps|
  {
    if steps == [] then []
    else Unfold(e, c, steps[0]) + UnfoldAll(e, LoopNext(e, c, steps[0]), steps[1..])
  }

  /** Every run of the loops is the wire run of the steps its turns are made of. */
  lemma {:induction false} LoopsAreWire(e: Ends, c: Joint, steps: seq<LoopStep>)
    requires LoopRunValid(e, c, steps)
    ensures WireRunValid(e.j, e.id, c.w, UnfoldAll(e, c, steps))
    ensures WireRun(e.j, e.id, c.w, UnfoldAll(e, c, steps)) == LoopRun(e, c, steps).w
    decreases |steps|
  {
    hide LoopNext, LoopEnabled, Unfold;
    if steps != [] {
      var c1 := LoopNext(e, c, steps[0]);
      StepUnfolds(e, c, steps[0]);
      LoopsAreWire(e, c1, steps[1..]);
      WireRunConcat(e.j, e.id, c.w, Unfold(e, c, steps[0]), UnfoldAll(e, c1, steps[1..]));
    }
  }

  /** The steps of the session of frames that a run of the loops stands for. */
  function SessionSteps(e: Ends, c: Joint, steps: seq<LoopStep>): seq<Step>
    requires LoopRunValid(e, c, steps)
  {
    LoopsAreWire(e, c, steps);
    FrameSteps(e.j, e.id, c.w, UnfoldAll(e, c, steps))
  }

  function ServerTurns(steps: seq<LoopStep>): seq<Turn> {
    if steps == [] then [] else (if steps[0].ServerTurn? then [steps[0].t] else []) + ServerTurns(steps[1..])
  }

  function ClientTurns(steps: seq<LoopStep>): seq<Turn> {
    if steps == [] then [] else (if steps[0].ClientTurn? then [steps[0].t] else []) + ClientTurns(steps[1..])
  }

  /** Nothing but its own turns moves the server's loop. */
  lemma {:induction false} ServerMoves(e: Ends, c: Joint, step: LoopStep)
    requires LoopEnabled(e, c, step)
    ensures var l' := LoopNext(e, c, step).ServerLoop();
            l' == if step.ServerTurn? then ServeTurn(e.ServerEnd(), c.ServerLoop(), step.t).loop else c.ServerLoop()
  {
  }

  lemma {:induction false} ClientMoves(e: Ends, c: Joint, step: LoopStep)
    requires LoopEnabled(e, c, step)
    ensures var l' := LoopNext(e, c, step).ClientLoop();
            l' == match step
                  case ClientTurn(t) => ServeTurn(e.ClientEnd(), c.ClientLoop(), t).loop
                  case Other(Start(secret, m)) => c.ClientLoop().(node := ClientStart(e.j, e.id, c.w.client, secret, m).node)
                  case _ => c.ClientLoop()
  {
  }

  /** The server's part of a joint run is its own run of its own turns. */
  lemma {:induction false} ServerServes(e: Ends, c: Joint, steps: seq<LoopStep>)
    requires LoopRunValid(e, c, steps)
    ensures LoopRun(e, c, steps).ServerLoop() == Serve(e.ServerEnd(), c.ServerLoop(), ServerTurns(steps)).loop
    decreases |steps|
  {
    hide LoopNext, ServeTurn, Fed;
    if steps != [] {
      var rest := ServerTurns(steps[1..]);
      ServerMoves(e, c, steps[0]);
      ServerServes(e, LoopNext(e, c, steps[0]), steps[1..]);
      if steps[0].ServerTurn? {
        assert ([steps[0].t] + rest)[1..] == rest;
      } else {
        assert [] + rest == rest;
      }
    }
  }

  /** The client's loop once it has started: as it is, or as the run's start leaves it. */
  function Begun(e: Ends, c: Joint, steps: seq<LoopStep>): Loop {
    if c.w.client.authenticating || c.w.client.authenticated || steps == [] then c.ClientLoop()
    else
      match steps[0]
      case Other(Start(secret, m)) => c.ClientLoop().(node := ClientStart(e.j, e.id, c.w.client, secret, m).node)
      case _ => Begun(e, c, steps[1..])
  }

  lemma {:induction false} NoTurnsBefore(e: Ends, c: Joint, d: Joint, steps: seq<LoopStep>)
    requires c.ClientLoop() == d.ClientLoop()
    ensures Begun(e, c, steps) == Begun(e, d, steps)
    decreases |steps|
  {
    if steps != [] {
      NoTurnsBefore(e, c, d, steps[1..]);
    }
  }

  /** The client's part of a joint run is its own run of its own turns, from where its start left it. */
  lemma {:induction false} ClientServes(e: Ends, c: Joint, steps: seq<LoopStep>)
    requires LoopRunValid(e, c, steps)
    ensures LoopRun(e, c, steps).ClientLoop() == Serve(e.ClientEnd(), Begun(e, c, steps), ClientTurns(steps)).loop
    decreases |steps|
  {
    hide LoopNext, ServeTurn, Fed;
    if steps != [] {
      var c1, rest := LoopNext(e, c, steps[0]), ClientTurns(steps[1..]);
      ClientMoves(e, c, steps[0]);
      ClientServes(e, c1, steps[1..]);
      if steps[0].ClientTurn? {
        ReactKeepsStarted(e.ClientEnd(), c.ClientLoop(), steps[0].t);
        assert ([steps[0].t] + rest)[1..] == rest;
      } else {
        assert [] + rest == rest;
        if !(steps[0].Other? && steps[0].step.Start?) {
          NoTurnsBefore(e, c, c1, steps[1..]);
        }
      }
    }
  }

  lemma {:induction false} ReactKeepsStarted(side: Side, l: Loop, t: Turn)
    requires side.role == ClientSide && (l.node.authenticating || l.node.authenticated)
    ensures var n := ServeTurn(side, l, t).loop.node;
            n.authenticating || n.authenticated
  {
    hide Receive, PacketFor, Encrypted, DecryptInto, Opened;
  }

  // ---------------------------------------------------------------- what the loops promise

  function AcceptedJoint(pair: nat, client: Pulse.Beat, server: Pulse.Beat): Joint {
    Joint(AcceptedWire(pair), Beating(client, false, false), Beating(server, false, false))
  }

  /** Agreement and no loss for the objects' own loops, heartbeats and all: each end's state is what `Serve`, and so the
      object, makes of its turns, and the two states agree and lose nothing. */
  lemma {:induction false} LoopSafety(e: Ends, pair: nat, b1: Pulse.Beat, b2: Pulse.Beat, steps: seq<LoopStep>)
    requires Lawful(e.j) && LoopRunValid(e, AcceptedJoint(pair, b1, b2), steps)
    ensures var c0 := AcceptedJoint(pair, b1, b2);
            var c := LoopRun(e, c0, steps);
            var client := Serve(e.ClientEnd(), Begun(e, c0, steps), ClientTurns(steps)).loop;
            var server := Serve(e.ServerEnd(), c0.ServerLoop(), ServerTurns(steps)).loop;
            && c.ClientLoop() == client && c.ServerLoop() == server
            && (client.node.authenticated ==> server.node.authenticated && !client.node.authenticating)
            && (server.node.authenticating <==> !server.node.authenticated)
            && (server.node.authenticated ==>
                  client.node.keys.chacha == server.node.keys.chacha == c.w.chosen && Usable(c.w.chosen))
            && server.node.received <= c.w.fromClient
            && client.node.received <= c.w.fromServer
            && (server.node.authenticated && c.w.up.Stream() == [] ==> server.node.received == c.w.fromClient)
            && (client.node.authenticated && c.w.down.Stream() == [] ==> client.node.received == c.w.fromServer)
  {
    var c0 := AcceptedJoint(pair, b1, b2);
    LoopsAreWire(e, c0, steps);
    ServerServes(e, c0, steps);
    ClientServes(e, c0, steps);
    WireSafety(e.j, e.id, pair, UnfoldAll(e, c0, steps));
  }

  /** The turn's poll takes a frame. */
  predicate Takes(side: Side, l: Loop, t: Turn) {
    !Skips(side, l, t) && |l.avail + t.arrived| >= HEADER_SIZE
  }

  /** A turn before which everything in flight arrives, at a moment at which no ping is due and nothing has timed out. */
  function FullTurn(l: Loop, link: Link): Turn {
    var now, checked := l.beat.lastPulseAt, l.beat.lastBeatAt;
    Turn(link.wire, true, [], 0, 0, 0, 0, Pulse.Call(now, now, now, now, now, now, checked, now, false, false), 0, 0, 0)
  }

  lemma {:induction false} FullTurnTakes(side: Side, l: Loop, link: Link)
    requires link.Whole() && link.Frames() != [] && l.avail == link.avail && l.Running() && !Waits(l.node)
    ensures Fed(side, l, link, FullTurn(l, link)) && Takes(side, l, FullTurn(l, link))
  {
    ArrivedIsReady(link);
    assert link.wire[..|link.wire|] == link.wire;
    hide BodyReady, PacketFor;
  }

  /** Only a dispatch loop ends, and the client's not by its heartbeat. */
  predicate EndedIsServing(c: Joint) {
    && !c.client.ended && (c.client.crashed ==> c.w.client.authenticated)
    && (c.server.ended || c.server.crashed ==> c.w.server.authenticated)
  }

  lemma {:induction false} AuthenticationStands(side: Side, l: Loop, t: Turn)
    requires l.node.authenticated
    ensures ServeTurn(side, l, t).loop.node.authenticated
  {
  }

  lemma {:induction false} EndedStays(e: Ends, c: Joint, step: LoopStep)
    requires EndedIsServing(c) && LoopEnabled(e, c, step)
    ensures EndedIsServing(LoopNext(e, c, step))
  {
    ServerMoves(e, c, step);
    ClientMoves(e, c, step);
    if step.ClientTurn? && c.w.client.authenticated {
      Pulse.ClientNeverTimesOut(c.client.beat, PulseOf(e.ClientEnd(), c.w.client, step.t));
      AuthenticationStands(e.ClientEnd(), c.ClientLoop(), step.t);
    }
    if step.ServerTurn? && c.w.server.authenticated {
      AuthenticationStands(e.ServerEnd(), c.ServerLoop(), step.t);
    }
    hide LoopNext;
  }

  lemma {:induction false} EndedRun(e: Ends, c: Joint, steps: seq<LoopStep>)
    requires EndedIsServing(c) && LoopRunValid(e, c, steps)
    ensures EndedIsServing(LoopRun(e, c, steps))
    decreases |steps|
  {
    hide LoopNext, LoopEnabled, EndedIsServing;
    if steps != [] {
      EndedStays(e, c, steps[0]);
      EndedRun(e, LoopNext(e, c, steps[0]), steps[1..]);
    }
  }

  /** Progress for the objects' own loops: the frames their polls take never exceed six plus the frames from outside the
      handshake, a run that takes as many has authenticated both ends, and until both are authenticated the client can
      start or there is a turn whose poll takes a frame. */
  lemma {:induction false} LoopProgress(e: Ends, pair: nat, b1: Pulse.Beat, b2: Pulse.Beat, steps: seq<LoopStep>)
    requires Lawful(e.j) && LoopRunValid(e, AcceptedJoint(pair, b1, b2), steps)
    requires RoomyRun(e.j, e.id, pair, SessionSteps(e, AcceptedJoint(pair, b1, b2), steps))
    ensures var c := LoopRun(e, AcceptedJoint(pair, b1, b2), steps);
            var frames := SessionSteps(e, AcceptedJoint(pair, b1, b2), steps);
            && ValidRun(e.j, e.id, Accepted(pair), frames)
            && Receives(frames) <= 6 + Outside(e.j, e.id, Accepted(pair), frames)
            && (Receives(frames) == 6 + Outside(e.j, e.id, Accepted(pair), frames) ==>
                  c.w.client.authenticated && c.w.server.authenticated)
            && (!(c.w.client.authenticated && c.w.server.authenticated) && Abstract(c.w).Started() ==>
                  ClientTakes(e, c) || ServerTakes(e, c))
  {
    var c0 := AcceptedJoint(pair, b1, b2);
    LoopsAreWire(e, c0, steps);
    var xs := UnfoldAll(e, c0, steps);
    var m := Moment(0, 0, true);
    WireBudget(e.j, e.id, pair, xs);
    var c := LoopRun(e, c0, steps);
    if !(c.w.client.authenticated && c.w.server.authenticated) && Abstract(c.w).Started() {
      EndedRun(e, c0, steps);
      SomeoneTakes(e, pair, c, xs);
    }
  }

  ghost predicate ClientTakes(e: Ends, c: Joint) {
    exists t :: LoopEnabled(e, c, ClientTurn(t)) && Takes(e.ClientEnd(), c.ClientLoop(), t)
  }

  ghost predicate ServerTakes(e: Ends, c: Joint) {
    exists t :: LoopEnabled(e, c, ServerTurn(t)) && Takes(e.ServerEnd(), c.ServerLoop(), t)
  }

  lemma {:induction false} ClientCanTake(e: Ends, c: Joint)
    requires WholeLinks(c.w) && Abstract(c.w).Started()
    requires c.ClientLoop().Running() && !Waits(c.w.client) && c.w.down.Frames() != []
    ensures ClientTakes(e, c)
  {
    var t := FullTurn(c.ClientLoop(), c.w.down);
    FullTurnTakes(e.ClientEnd(), c.ClientLoop(), c.w.down);
    assert LoopEnabled(e, c, ClientTurn(t)) && Takes(e.ClientEnd(), c.ClientLoop(), t);
  }

  lemma {:induction false} ServerCanTake(e: Ends, c: Joint)
    requires WholeLinks(c.w)
    requires c.ServerLoop().Running() && !Waits(c.w.server) && c.w.up.Frames() != []
    ensures ServerTakes(e, c)
  {
    var t := FullTurn(c.ServerLoop(), c.w.up);
    FullTurnTakes(e.ServerEnd(), c.ServerLoop(), c.w.up);
    assert LoopEnabled(e, c, ServerTurn(t)) && Takes(e.ServerEnd(), c.ServerLoop(), t);
  }

  /** In every reachable state, a loop that is running and has frames on their way to it has a turn whose poll takes one:
      nothing that was sent to it stays unread for want of a turn, before authentication or behind it. */
  lemma {:induction false} LoopDelivers(e: Ends, pair: nat, b1: Pulse.Beat, b2: Pulse.Beat, steps: seq<LoopStep>)
    requires Lawful(e.j) && LoopRunValid(e, AcceptedJoint(pair, b1, b2), steps)
    ensures var c := LoopRun(e, AcceptedJoint(pair, b1, b2), steps);
            && (c.ServerLoop().Running() && c.w.up.Frames() != [] ==> ServerTakes(e, c))
            && (c.ClientLoop().Running() && Abstract(c.w).Started() && c.w.down.Frames() != [] ==> ClientTakes(e, c))
  {
    var c0, w0 := AcceptedJoint(pair, b1, b2), AcceptedWire(pair);
    LoopsAreWire(e, c0, steps);
    var xs := UnfoldAll(e, c0, steps);
    assert Abstract(w0) == Accepted(pair);
    WireRunRefines(e.j, e.id, w0, xs);
    Agreement(e.j, e.id, pair, FrameSteps(e.j, e.id, w0, xs));
    hide LoopEnabled, Takes, WholeLinks, ServerTakes, ClientTakes;
    var c := LoopRun(e, c0, steps);
    if c.ServerLoop().Running() && c.w.up.Frames() != [] {
      ServerCanTake(e, c);
    }
    if c.ClientLoop().Running() && Abstract(c.w).Started() && c.w.down.Frames() != [] {
      ClientCanTake(e, c);
    }
  }

  lemma {:induction false} SomeoneTakes(e: Ends, pair: nat, c: Joint, xs: seq<WireStep>)
    requires Lawful(e.j) && WireRunValid(e.j, e.id, AcceptedWire(pair), xs)
    requires RoomyRun(e.j, e.id, pair, FrameSteps(e.j, e.id, AcceptedWire(pair), xs))
    requires c.w == WireRun(e.j, e.id, AcceptedWire(pair), xs) && EndedIsServing(c)
    requires !(c.w.client.authenticated && c.w.server.authenticated) && Abstract(c.w).Started()
    ensures ClientTakes(e, c) || ServerTakes(e, c)
  {
    var w0 := AcceptedWire(pair);
    assert Abstract(w0) == Accepted(pair);
    WireRunRefines(e.j, e.id, w0, xs);
    Awaited(e.j, e.id, pair, FrameSteps(e.j, e.id, w0, xs));
    hide LoopEnabled, Takes, WholeLinks, ServerTakes, ClientTakes;
    if !c.w.client.authenticated && !c.w.client.faulted && c.w.down.Frames() != [] {
      ClientCanTake(e, c);
    } else {
      ServerCanTake(e, c);
    }
  }
}
