/** The client and server objects: their authentication loops, their dispatch loops, and the run the two make up. */
module Endpoints {
  import opened Bytes
  import opened PacketHeader
  import opened Framing
  import opened Packets
  import opened Handshake
  import opened Sequences
  import Pulse = HeartBeat

  class BaseTCPClient {
    const peerId: seq<byte>
    const packer: PacketHelper
    const heartBeat: Pulse.HeartBeat
    var isAuthenticating: bool
    var isAuthenticated: bool
    var faulted: bool            // an exception has ended the task
    var ended: bool              // the heartbeat has ended the task
    var crashed: bool            // an exception of a handler has ended it
    var received: seq<Message>   // what OnDataReceived has been raised with

    function View(): Endpoint
      reads this, packer.keys
    {
      Endpoint(packer.keys.View(), isAuthenticating, isAuthenticated, faulted, received)
    }

    function State(): Loop
      reads this, packer.keys, packer.connection, heartBeat
    {
      Loop(View(), heartBeat.View(), ended, crashed, packer.connection.available)
    }

    function SideOf(j: Json): Side
      reads packer, packer.connection
    {
      Side(ClientSide, j, packer.settings, packer.connection.open)
    }

    constructor (peerId: seq<byte>, packer: PacketHelper, heartBeat: Pulse.HeartBeat)
      ensures this.peerId == peerId && this.packer == packer && this.heartBeat == heartBeat && !ended && !crashed
      ensures View() == Endpoint(packer.keys.View(), false, false, false, [])
    {
      this.peerId, this.packer, this.heartBeat := peerId, packer, heartBeat;
      isAuthenticating, isAuthenticated, faulted, ended, crashed, received := false, false, false, false, false, [];
    }

    /** Key generation and SYN, ahead of the authentication loop. */
    method BeginAuthentication(j: Json, secret: seq<byte>, nonce: Nonce, now: int64)
      modifies this, packer.keys, packer.connection
      ensures SideOf(j) == old(SideOf(j))
      ensures packer.connection.available == old(packer.connection.available) && ended == old(ended) && crashed == old(crashed)
      ensures var r := ClientStart(j, peerId, old(View()), secret, Moment(nonce, now, old(packer.connection.open)));
              View() == r.node && packer.connection.sent == old(packer.connection.sent) + EncodeAll(r.out)
    {
      isAuthenticating := true;
      packer.keys.SetChaChaKey(Secret(secret));
      var _ := packer.SendPacket(j, j.write(PeerIdDoc(peerId)), SYN, false, NONE, nonce, now);
    }

    method OnHandshakePacket(j: Json, f: AnyFrame, pair: nat, size: int, nonce: Nonce, now: int64)
      modifies this, packer.keys, packer.connection
      ensures SideOf(j) == old(SideOf(j))
      ensures packer.connection.available == old(packer.connection.available) && ended == old(ended) && crashed == old(crashed)
      ensures var r := ClientHandshake(j, old(View()), f, pair, Moment(nonce, now, old(packer.connection.open)));
              View() == r.node && packer.connection.sent == old(packer.connection.sent) + EncodeAll(r.out)
    {
      if f.action == SYNACK {
        match j.read(f.body)
        case Some(AuthDoc(_, keyData)) =>
          packer.keys.SetRemoteRsaKey(keyData);
          if !keyData.PublicKey? {
            faulted := true;
            return;
          }
          packer.keys.UpdateLocalRsaKeys(size, pair);
          var auth := j.write(AuthDoc(CHACHA, packer.keys.chacha));
          var sent := packer.SendEncryptedPacket(j, auth, RSA, ACK, false, nonce, now);
          if sent.None? {
            faulted := true;
          }
        case _ =>
      } else if f.action == ACK {
        match j.read(f.body)
        case Some(EnvelopeDoc(kind, box)) =>
          match DecryptInto(j, kind, box, packer.keys.chacha) {
            case IntoThrows =>
              faulted := true;
            case Found(AuthDoc(_, keyData)) =>
              if keyData == packer.keys.chacha {
                var _ := packer.SendPacket(j, READY_TEXT, READY, false, NONE, nonce, now);
              }
            case _ =>
          }
        case _ =>
      } else if f.action == READY {
        isAuthenticated := true;
        isAuthenticating := false;
      }
    }

    /** One turn of the authentication loop. */
    method AuthenticationTurn(j: Json, t: Turn)
      requires State().Running() && !isAuthenticated
      modifies this, packer.keys, packer.connection
      ensures SideOf(j) == old(SideOf(j)) && !ended && !crashed
      ensures var s := ServeTurn(old(SideOf(j)), old(State()), t);
              State() == s.loop && packer.connection.sent == old(packer.connection.sent) + EncodeAll(s.out)
    {
      AuthenticationTurnIs(SideOf(j), State(), t);
      hide ServeTurn, ClientHandshake, ServerHandshake, Receive;
      packer.connection.Arrive(t.arrived);
      var o := packer.connection.ReceivePacket(t.readable, t.late);
      match o
      case Packet(h, body) =>
        OnHandshakePacket(j, Frame(h.action, h.encryption, h.sentAt, body), t.pair, t.size, t.nonce, t.now);
      case Throws =>
        faulted := true;
      case Nothing =>
    }

    /** The heartbeat of a dispatch turn. */
    method Beat(j: Json, t: Turn)
      requires State().Running() && isAuthenticated && !isAuthenticating
      modifies this, heartBeat, packer.connection
      ensures SideOf(j) == old(SideOf(j))
      ensures var s := Beats(old(SideOf(j)), old(State()), t);
              State() == s.loop && packer.connection.sent == old(packer.connection.sent) + EncodeAll(s.out)
    {
      var r := heartBeat.TrySendHeartBeat(j, packer, t.call, t.pingNonce, t.pingNow);
      var first := heartBeat.firstBeat;
      ended := r.sent && r.isDisconnected && !first;
    }

    /** What `OnDataReceived` sets off: the message is passed on, and a ping or pong goes to the heartbeat. */
    method OnDataReceived(j: Json, h: Header, data: seq<byte>, t: Turn)
      requires State().Running()
      modifies this, heartBeat, packer.connection
      ensures SideOf(j) == old(SideOf(j)) && ended == old(ended)
      ensures packer.connection.available == old(packer.connection.available)
      ensures View() == old(View()).(received := old(received) + [Message(h.action, data)])
      ensures var side, m := old(SideOf(j)), Given(ClientSide, h.action, data);
              && crashed == CrashesOn(m, h.sentAt, t)
              && heartBeat.View() == BeatAfter(j, m, old(heartBeat.View()), t)
              && packer.connection.sent
                 == old(packer.connection.sent) + EncodeAll(PongOut(side, old(packer.keys.View()), m, h.sentAt, t))
    {
      received := received + [Message(h.action, data)];
      if |data| == 0 {
        return;
      }
      if h.action == PING || h.action == PONG {
        crashed := heartBeat.HandleHeartBeatActions(j, h, data, packer, t.handledAt, t.nonce, t.now);
      }
    }

    /** The dispatch loop's branch on one packet. */
    method OnPacket(j: Json, h: Header, body: seq<byte>, t: Turn)
      requires State().Running() && isAuthenticated
      modifies this, heartBeat, packer.connection
      ensures SideOf(j) == old(SideOf(j)) && ended == old(ended)
      ensures packer.connection.available == old(packer.connection.available)
      ensures var side, node, f := old(SideOf(j)), old(View()), AnyFrame.Frame(h.action, h.encryption, h.sentAt, body);
              && View() == Dispatched(j, node, f)
              && var m := Handed(side, node, f);
              && crashed == CrashesOn(m, h.sentAt, t)
              && heartBeat.View() == BeatAfter(j, m, old(heartBeat.View()), t)
              && packer.connection.sent
                 == old(packer.connection.sent) + EncodeAll(PongOut(side, node.keys, m, h.sentAt, t))
    {
      NotHanded(SideOf(j), packer.keys.View(), h.sentAt, heartBeat.View(), t);
      hide CrashesOn, BeatAfter, PongOut, EncodeFrame, Decrypt;
      if h.action == EMPTY {
        return;
      }
      if h.encryption == NONE {
        OnDataReceived(j, h, body, t);
        return;
      }
      match j.read(body)
      case Some(EnvelopeDoc(kind, box)) =>
        var key := KeyFor(packer.keys.View(), kind, false, false);
        if key.None? {
          faulted := true;
          return;
        }
        var decrypted := TryDecrypt(kind, box, key.value);
        if decrypted.Some? {
          OnDataReceived(j, h, decrypted.value, t);
        }
      case _ =>
    }

    /** The poll of a dispatch turn. */
    method Dispatch(j: Json, t: Turn)
      requires State().Running() && isAuthenticated
      modifies this, heartBeat, packer.connection
      ensures SideOf(j) == old(SideOf(j))
      ensures var s := TakeTurn(old(SideOf(j)), old(State()), t);
              State() == s.loop && packer.connection.sent == old(packer.connection.sent) + EncodeAll(s.out)
    {
      hide Receive, Opened, Handed, EncodeFrame, PongOut, BeatAfter, CrashesOn;
      packer.connection.Arrive(t.arrived);
      var o := packer.connection.ReceivePacket(t.readable, t.late);
      match o
      case Packet(h, body) =>
        OnPacket(j, h, body, t);
        ghost var f := AnyFrame.Frame(h.action, h.encryption, h.sentAt, body);
        ghost var out := PongOut(old(SideOf(j)), old(packer.keys.View()), Handed(old(SideOf(j)), old(View()), f), h.sentAt, t);
        assert [] + out == out;
      case Throws =>
        faulted := true;
      case Nothing =>
    }

    /** One turn of the dispatch loop, idle while authenticating: the heartbeat, whose test for the end never holds, and the poll. */
    method DispatchTurn(j: Json, t: Turn)
      requires State().Running() && isAuthenticated
      modifies this, heartBeat, packer.connection
      ensures SideOf(j) == old(SideOf(j)) && isAuthenticated
      ensures var s := ServeTurn(old(SideOf(j)), old(State()), t);
              State() == s.loop && packer.connection.sent == old(packer.connection.sent) + EncodeAll(s.out)
    {
      if isAuthenticating {
        packer.connection.Arrive(t.arrived);
        return;
      }
      Beat(j, t);
      ghost var out := Beats(old(SideOf(j)), old(State()), t).out;
      ghost var p := TakeTurn(old(SideOf(j)), State(), t);
      hide Beats, TakeTurn, EncodeAll;
      Dispatch(j, t);
      EncodeAllConcat(out, p.out);
      Assoc(old(packer.connection.sent), EncodeAll(out), EncodeAll(p.out));
    }

    /** `while (!IsAuthenticated)`: `n` is the number of turns the loop took of those the run gives it. */
    method HandleAuthentication(j: Json, turns: seq<Turn>) returns (n: nat)
      requires State().Running()
      modifies this, packer.keys, packer.connection
      ensures SideOf(j) == old(SideOf(j)) && !ended && !crashed
      ensures n <= |turns| && (n < |turns| ==> isAuthenticated || faulted)
      ensures var s := Serve(old(SideOf(j)), old(State()), turns[..n]);
              State() == s.loop && packer.connection.sent == old(packer.connection.sent) + EncodeAll(s.out)
    {
      hide ServeTurn, Serve, EncodeAll, EncodeFrame;
      n := 0;
      ghost var side, l, sent := SideOf(j), State(), packer.connection.sent;
      ghost var s := Begin(side, l, turns, sent);
      while !isAuthenticated && !faulted && n < |turns|
        invariant n <= |turns| && SideOf(j) == side && !ended && !crashed
        invariant s == Serve(side, l, turns[..n])
        invariant State() == s.loop && packer.connection.sent == sent + EncodeAll(s.out)
      {
        ghost var one := ServeTurn(side, s.loop, turns[n]);
        AuthenticationTurn(j, turns[n]);
        s := Extend(side, l, turns, n, s, one, sent);
        n := n + 1;
      }
    }

    /** The dispatch loop, until the turns run out or something ends the task. */
    method DispatchLoop(j: Json, turns: seq<Turn>) returns (n: nat)
      requires State().Running() && isAuthenticated
      modifies this, heartBeat, packer.connection
      ensures SideOf(j) == old(SideOf(j))
      ensures n <= |turns| && (n < |turns| ==> !State().Running())
      ensures var s := Serve(old(SideOf(j)), old(State()), turns[..n]);
              State() == s.loop && packer.connection.sent == old(packer.connection.sent) + EncodeAll(s.out)
    {
      hide ServeTurn, Serve, EncodeAll, EncodeFrame;
      n := 0;
      ghost var side, l, sent := SideOf(j), State(), packer.connection.sent;
      ghost var s := Begin(side, l, turns, sent);
      while !faulted && !ended && !crashed && n < |turns|
        invariant n <= |turns| && SideOf(j) == side && isAuthenticated
        invariant s == Serve(side, l, turns[..n])
        invariant State() == s.loop && packer.connection.sent == sent + EncodeAll(s.out)
      {
        ghost var one := ServeTurn(side, s.loop, turns[n]);
        DispatchTurn(j, turns[n]);
        s := Extend(side, l, turns, n, s, one, sent);
        n := n + 1;
      }
    }

    /** The connected task: authentication first, then dispatch, turn by turn. */
    method HandleConnected(j: Json, turns: seq<Turn>) returns (n: nat)
      requires State().Running()
      modifies this, heartBeat, packer.keys, packer.connection
      ensures SideOf(j) == old(SideOf(j))
      ensures n <= |turns| && (n < |turns| ==> !State().Running())
      ensures var s := Serve(old(SideOf(j)), old(State()), turns[..n]);
              State() == s.loop && packer.connection.sent == old(packer.connection.sent) + EncodeAll(s.out)
    {
      hide ServeTurn, Serve;
      n := HandleAuthentication(j, turns);
      if !faulted && n < |turns| {
        var more := DispatchLoop(j, turns[n..]);
        Resume(old(SideOf(j)), old(State()), turns, n, more, old(packer.connection.sent));
        n := n + more;
      }
    }
  }

  class BaseTCPServer {
    const packer: PacketHelper
    const heartBeat: Pulse.HeartBeat
    var isAuthenticating: bool
    var isAuthenticated: bool
    var faulted: bool            // an exception has ended the task
    var ended: bool              // the heartbeat has ended the task
    var crashed: bool            // an exception of a handler has ended it
    var received: seq<Message>   // what OnDataReceived has been raised with

    function View(): Endpoint
      reads this, packer.keys
    {
      Endpoint(packer.keys.View(), isAuthenticating, isAuthenticated, faulted, received)
    }

    function State(): Loop
      reads this, packer.keys, packer.connection, heartBeat
    {
      Loop(View(), heartBeat.View(), ended, crashed, packer.connection.available)
    }

    function SideOf(j: Json): Side
      reads packer, packer.connection
    {
      Side(ServerSide, j, packer.settings, packer.connection.open)
    }

    /** As `HandleClientConnected` leaves it when it raises the authentication event. */
    constructor (packer: PacketHelper, heartBeat: Pulse.HeartBeat)
      ensures this.packer == packer && this.heartBeat == heartBeat && !ended && !crashed
      ensures View() == Endpoint(packer.keys.View(), true, false, false, [])
    {
      this.packer, this.heartBeat := packer, heartBeat;
      isAuthenticating, isAuthenticated, faulted, ended, crashed, received := true, false, false, false, false, [];
    }

    method OnHandshakePacket(j: Json, f: AnyFrame, nonce: Nonce, now: int64)
      modifies this, packer.keys, packer.connection
      ensures SideOf(j) == old(SideOf(j))
      ensures packer.connection.available == old(packer.connection.available) && ended == old(ended) && crashed == old(crashed)
      ensures var r := ServerHandshake(j, old(View()), f, Moment(nonce, now, old(packer.connection.open)));
              View() == r.node && packer.connection.sent == old(packer.connection.sent) + EncodeAll(r.out)
    {
      if f.action == SYN {
        match j.read(f.body)
        case Some(PeerIdDoc(_)) =>
          if packer.keys.local.None? {
            faulted := true;
            return;
          }
          var auth := j.write(AuthDoc(RSA, PublicKey(packer.keys.local.value)));
          var _ := packer.SendPacket(j, auth, SYNACK, false, NONE, nonce, now);
        case _ =>
      } else if f.action == ACK {
        match j.read(f.body)
        case Some(EnvelopeDoc(kind, box)) =>
          if packer.keys.local.None? {
            faulted := true;
            return;
          }
          match DecryptInto(j, kind, box, PrivateKey(packer.keys.local.value)) {
            case IntoThrows =>
              faulted := true;
            case Found(AuthDoc(k, keyData)) =>
              packer.keys.SetChaChaKey(keyData);
              var _ := packer.SendPacket(j, j.write(AuthDoc(k, keyData)), ACK, true, CHACHA, nonce, now);
            case _ =>
          }
        case _ =>
      } else if f.action == READY {
        var _ := packer.SendPacket(j, READY_TEXT, READY, false, NONE, nonce, now);
        isAuthenticated := true;
        isAuthenticating := false;
      }
    }

    /** One turn of the authentication loop. */
    method AuthenticationTurn(j: Json, t: Turn)
      requires State().Running() && !isAuthenticated
      modifies this, packer.keys, packer.connection
      ensures SideOf(j) == old(SideOf(j)) && !ended && !crashed
      ensures var s := ServeTurn(old(SideOf(j)), old(State()), t);
              State() == s.loop && packer.connection.sent == old(packer.connection.sent) + EncodeAll(s.out)
    {
      AuthenticationTurnIs(SideOf(j), State(), t);
      hide ServeTurn, ClientHandshake, ServerHandshake, Receive;
      packer.connection.Arrive(t.arrived);
      var o := packer.connection.ReceivePacket(t.readable, t.late);
      match o
      case Packet(h, body) =>
        OnHandshakePacket(j, Frame(h.action, h.encryption, h.sentAt, body), t.nonce, t.now);
      case Throws =>
        faulted := true;
      case Nothing =>
    }

    /** The heartbeat of a dispatch turn. */
    method Beat(j: Json, t: Turn)
      requires State().Running() && isAuthenticated && !isAuthenticating
      modifies this, heartBeat, packer.connection
      ensures SideOf(j) == old(SideOf(j))
      ensures var s := Beats(old(SideOf(j)), old(State()), t);
              State() == s.loop && packer.connection.sent == old(packer.connection.sent) + EncodeAll(s.out)
    {
      var r := heartBeat.TrySendHeartBeat(j, packer, t.call, t.pingNonce, t.pingNow);
      var first := heartBeat.firstBeat;
      ended := !r.sent && r.isDisconnected && !first;
    }

    /** What `OnDataReceived` sets off: the message is passed on, and a ping or pong goes to the heartbeat. */
    method OnDataReceived(j: Json, h: Header, data: seq<byte>, t: Turn)
      requires State().Running()
      modifies this, heartBeat, packer.connection
      ensures SideOf(j) == old(SideOf(j)) && ended == old(ended)
      ensures packer.connection.available == old(packer.connection.available)
      ensures View() == old(View()).(received := old(received) + [Message(h.action, data)])
      ensures var side, m := old(SideOf(j)), Given(ServerSide, h.action, data);
              && crashed == CrashesOn(m, h.sentAt, t)
              && heartBeat.View() == BeatAfter(j, m, old(heartBeat.View()), t)
              && packer.connection.sent
                 == old(packer.connection.sent) + EncodeAll(PongOut(side, old(packer.keys.View()), m, h.sentAt, t))
    {
      received := received + [Message(h.action, data)];
      if h.action == PING || h.action == PONG {
        crashed := heartBeat.HandleHeartBeatActions(j, h, data, packer, t.handledAt, t.nonce, t.now);
      }
    }

    /** The dispatch loop's branch on one packet. */
    method OnPacket(j: Json, h: Header, body: seq<byte>, t: Turn)
      requires State().Running() && isAuthenticated
      modifies this, heartBeat, packer.connection
      ensures SideOf(j) == old(SideOf(j)) && ended == old(ended)
      ensures packer.connection.available == old(packer.connection.available)
      ensures var side, node, f := old(SideOf(j)), old(View()), AnyFrame.Frame(h.action, h.encryption, h.sentAt, body);
              && View() == Dispatched(j, node, f)
              && var m := Handed(side, node, f);
              && crashed == CrashesOn(m, h.sentAt, t)
              && heartBeat.View() == BeatAfter(j, m, old(heartBeat.View()), t)
              && packer.connection.sent
                 == old(packer.connection.sent) + EncodeAll(PongOut(side, node.keys, m, h.sentAt, t))
    {
      NotHanded(SideOf(j), packer.keys.View(), h.sentAt, heartBeat.View(), t);
      hide CrashesOn, BeatAfter, PongOut, EncodeFrame, Decrypt;
      if h.action == EMPTY {
        return;
      }
      if h.encryption == NONE {
        OnDataReceived(j, h, body, t);
        return;
      }
      match j.read(body)
      case Some(EnvelopeDoc(kind, box)) =>
        var key := KeyFor(packer.keys.View(), kind, false, false);
        if key.None? {
          faulted := true;
          return;
        }
        var decrypted := TryDecrypt(kind, box, key.value);
        if decrypted.Some? {
          OnDataReceived(j, h, decrypted.value, t);
        }
      case _ =>
    }

    /** The poll of a dispatch turn. */
    method Dispatch(j: Json, t: Turn)
      requires State().Running() && isAuthenticated
      modifies this, heartBeat, packer.connection
      ensures SideOf(j) == old(SideOf(j))
      ensures var s := TakeTurn(old(SideOf(j)), old(State()), t);
              State() == s.loop && packer.connection.sent == old(packer.connection.sent) + EncodeAll(s.out)
    {
      hide Receive, Opened, Handed, EncodeFrame, PongOut, BeatAfter, CrashesOn;
      packer.connection.Arrive(t.arrived);
      var o := packer.connection.ReceivePacket(t.readable, t.late);
      match o
      case Packet(h, body) =>
        OnPacket(j, h, body, t);
        ghost var f := AnyFrame.Frame(h.action, h.encryption, h.sentAt, body);
        ghost var out := PongOut(old(SideOf(j)), old(packer.keys.View()), Handed(old(SideOf(j)), old(View()), f), h.sentAt, t);
        assert [] + out == out;
      case Throws =>
        faulted := true;
      case Nothing =>
    }

    /** One turn of the dispatch loop, idle while authenticating: the heartbeat, and the poll unless it ended the task. */
    method DispatchTurn(j: Json, t: Turn)
      requires State().Running() && isAuthenticated
      modifies this, heartBeat, packer.connection
      ensures SideOf(j) == old(SideOf(j)) && isAuthenticated
      ensures var s := ServeTurn(old(SideOf(j)), old(State()), t);
              State() == s.loop && packer.connection.sent == old(packer.connection.sent) + EncodeAll(s.out)
    {
      if isAuthenticating {
        packer.connection.Arrive(t.arrived);
        return;
      }
      Beat(j, t);
      ghost var out := Beats(old(SideOf(j)), old(State()), t).out;
      if ended {
        packer.connection.Arrive(t.arrived);
      } else {
        ghost var p := TakeTurn(old(SideOf(j)), State(), t);
        hide Beats, TakeTurn, EncodeAll;
        Dispatch(j, t);
        EncodeAllConcat(out, p.out);
        Assoc(old(packer.connection.sent), EncodeAll(out), EncodeAll(p.out));
      }
    }

    /** `while (!IsAuthenticated)`: `n` is the number of turns the loop took of those the run gives it. */
    method HandleAuthentication(j: Json, turns: seq<Turn>) returns (n: nat)
      requires State().Running()
      modifies this, packer.keys, packer.connection
      ensures SideOf(j) == old(SideOf(j)) && !ended && !crashed
      ensures n <= |turns| && (n < |turns| ==> isAuthenticated || faulted)
      ensures var s := Serve(old(SideOf(j)), old(State()), turns[..n]);
              State() == s.loop && packer.connection.sent == old(packer.connection.sent) + EncodeAll(s.out)
    {
      hide ServeTurn, Serve, EncodeAll, EncodeFrame;
      n := 0;
      ghost var side, l, sent := SideOf(j), State(), packer.connection.sent;
      ghost var s := Begin(side, l, turns, sent);
      while !isAuthenticated && !faulted && n < |turns|
        invariant n <= |turns| && SideOf(j) == side && !ended && !crashed
        invariant s == Serve(side, l, turns[..n])
        invariant State() == s.loop && packer.connection.sent == sent + EncodeAll(s.out)
      {
        ghost var one := ServeTurn(side, s.loop, turns[n]);
        AuthenticationTurn(j, turns[n]);
        s := Extend(side, l, turns, n, s, one, sent);
        n := n + 1;
      }
    }

    /** The dispatch loop, until the turns run out or something ends the task. */
    method DispatchLoop(j: Json, turns: seq<Turn>) returns (n: nat)
      requires State().Running() && isAuthenticated
      modifies this, heartBeat, packer.connection
      ensures SideOf(j) == old(SideOf(j))
      ensures n <= |turns| && (n < |turns| ==> !State().Running())
      ensures var s := Serve(old(SideOf(j)), old(State()), turns[..n]);
              State() == s.loop && packer.connection.sent == old(packer.connection.sent) + EncodeAll(s.out)
    {
      hide ServeTurn, Serve, EncodeAll, EncodeFrame;
      n := 0;
      ghost var side, l, sent := SideOf(j), State(), packer.connection.sent;
      ghost var s := Begin(side, l, turns, sent);
      while !faulted && !ended && !crashed && n < |turns|
        invariant n <= |turns| && SideOf(j) == side && isAuthenticated
        invariant s == Serve(side, l, turns[..n])
        invariant State() == s.loop && packer.connection.sent == sent + EncodeAll(s.out)
      {
        ghost var one := ServeTurn(side, s.loop, turns[n]);
        DispatchTurn(j, turns[n]);
        s := Extend(side, l, turns, n, s, one, sent);
        n := n + 1;
      }
    }

    /** A client's whole service: authentication first, then dispatch, turn by turn. */
    method HandleClientConnected(j: Json, turns: seq<Turn>) returns (n: nat)
      requires State().Running()
      modifies this, heartBeat, packer.keys, packer.connection
      ensures SideOf(j) == old(SideOf(j))
      ensures n <= |turns| && (n < |turns| ==> !State().Running())
      ensures var s := Serve(old(SideOf(j)), old(State()), turns[..n]);
              State() == s.loop && packer.connection.sent == old(packer.connection.sent) + EncodeAll(s.out)
    {
      hide ServeTurn, Serve;
      n := HandleAuthentication(j, turns);
      if !faulted && n < |turns| {
        var more := DispatchLoop(j, turns[n..]);
        Resume(old(SideOf(j)), old(State()), turns, n, more, old(packer.connection.sent));
        n := n + more;
      }
    }
  }

  lemma {:induction false} Begin(side: Side, l: Loop, turns: seq<Turn>, sent: seq<byte>) returns (s: Served)
    ensures s == Served(l, []) == Serve(side, l, turns[..0]) && sent + EncodeAll(s.out) == sent
  {
    s := Served(l, []);
  }

  lemma {:induction false} Extend(side: Side, l: Loop, turns: seq<Turn>, n: nat, s: Served, one: Served, sent: seq<byte>)
    returns (next: Served)
    requires n < |turns|
    requires s == Serve(side, l, turns[..n]) && s.loop.Running()
    requires one == ServeTurn(side, s.loop, turns[n])
    ensures next == Serve(side, l, turns[..n + 1]) && next.loop == one.loop
    ensures sent + EncodeAll(s.out) + EncodeAll(one.out) == sent + EncodeAll(next.out)
  {
    hide ServeTurn, Serve;
    ServeSnoc(side, l, turns[..n], turns[n]);
    assert turns[..n + 1] == turns[..n] + [turns[n]];
    next := Serve(side, l, turns[..n + 1]);
    EncodeAllConcat(s.out, one.out);
    Assoc(sent, EncodeAll(s.out), EncodeAll(one.out));
  }

  lemma {:induction false} Resume(side: Side, l: Loop, turns: seq<Turn>, n: nat, more: nat, sent: seq<byte>)
    requires n + more <= |turns|
    ensures var s := Serve(side, l, turns[..n]);
            var r := Serve(side, s.loop, turns[n..][..more]);
            var all := Serve(side, l, turns[..n + more]);
            all.loop == r.loop
            && sent + EncodeAll(s.out) + EncodeAll(r.out) == sent + EncodeAll(all.out)
  {
    hide ServeTurn, Serve;
    var s := Serve(side, l, turns[..n]);
    var r := Serve(side, s.loop, turns[n..][..more]);
    ServeConcat(side, l, turns[..n], turns[n..][..more]);
    assert turns[..n + more] == turns[..n] + turns[n..][..more];
    EncodeAllConcat(s.out, r.out);
    Assoc(sent, EncodeAll(s.out), EncodeAll(r.out));
  }
}
