/** The older handshake: two step functions, with a key drawn afresh at every SYNAck and a SYN that may be sent again. */
module TlsV2 {
  import opened Bytes
  import opened PacketHeader
  import opened Framing
  import opened Packets

  /** One end; `authorized` is the flag its caller keeps between calls. */
  datatype Party = Party(keys: Keys, authorized: bool)

  /** What a call leaves behind; `threw` when it ended in an exception, and its caller's flags stayed as they were. */
  datatype Move = Move(party: Party, threw: bool, out: seq<Frame>)

  /** What one call draws: an RSA pair, the 32 bytes of a key, the peer's settings and the moment. */
  datatype Draw = Draw(pair: nat, secret: seq<byte>, settings: Option<Settings>, m: Moment)

  function Stay(p: Party): Move { Move(p, false, []) }

  function Throw(p: Party): Move { Move(p, true, []) }

  /** One call of the client's step on the packet its poll found. */
  function ClientStep(j: Json, p: Party, f: AnyFrame, d: Draw): Move {
    if f.action == SYN then
      match j.read(f.body)
      case Some(AuthDoc(kind, keyData)) =>
        if kind != RSA then Stay(p)
        else if !keyData.PublicKey? then Throw(p.(keys := p.keys.(remoteRsa := keyData)))
        else
          var keys := p.keys.(remoteRsa := keyData, local := Some(d.pair));
          var auth := j.write(AuthDoc(RSA, PublicKey(d.pair)));
          Move(p.(keys := keys), false, PacketFor(j, keys, d.settings, auth, SYNACK, true, NONE, d.m).Frames())
      case _ => Stay(p)
    else if f.action == SYNACK then
      match j.read(f.body)
      case Some(EnvelopeDoc(kind, box)) =>
        if kind != RSA then Stay(p)
        else if p.keys.local.None? then Throw(p)
        else
          (match j.read(Decrypt(RSA, box, PrivateKey(p.keys.local.value)).value)
           case Some(FlagDoc(_)) =>
             var keys := p.keys.(chacha := Secret(d.secret));
             var s := TryEncryptSend(j, keys, j.write(AuthDoc(CHACHA, keys.chacha)), RSA, ACK, d.m);
             Move(p.(keys := keys), s.Faulted?, s.Frames())
           case _ => Stay(p))
      case _ => Stay(p)
    else if f.action == ACK && f.encryption == CHACHA then
      match j.read(f.body)
      case Some(EnvelopeDoc(kind, box)) =>
        (match DecryptInto(j, kind, box, p.keys.chacha)
         case IntoThrows => Throw(p)
         case Found(AuthDoc(_, keyData)) => Stay(p.(authorized := p.authorized || keyData == p.keys.chacha))
         case _ => Stay(p))
      case _ => Throw(p)
    else Stay(p)
  }

  datatype ServerMove = ServerMove(party: Party, hasSentSyn: bool, threw: bool, out: seq<Frame>)

  /** The SYN a server that has not sent one opens its call with. */
  function Opening(j: Json, keys: Keys, d: Draw): seq<Frame>
    requires keys.local.Some?
  {
    var auth := j.write(AuthDoc(RSA, PublicKey(keys.local.value)));
    PacketFor(j, keys, d.settings, auth, SYN, true, NONE, d.m).Frames()
  }

  /** What the server makes of a packet, its SYN being out. */
  function ServerTakes(j: Json, p: Party, f: AnyFrame, d: Draw): ServerMove {
    var nothing := ServerMove(p, true, false, []);
    if f.action == SYNACK then
      match j.read(f.body)
      case Some(AuthDoc(kind, keyData)) =>
        if kind != RSA then nothing
        else
          var keys := p.keys.(remoteRsa := keyData);
          var s := TryEncryptSend(j, keys, j.write(FlagDoc(true)), RSA, SYNACK, d.m);
          ServerMove(p.(keys := keys), true, s.Faulted?, s.Frames())
      case _ => nothing
    else if f.action == ACK && f.encryption == RSA then
      match j.read(f.body)
      case Some(EnvelopeDoc(kind, box)) =>
        if p.keys.local.None? then nothing.(threw := true)
        else
          (match DecryptInto(j, kind, box, PrivateKey(p.keys.local.value))
           case IntoThrows => nothing.(threw := true)
           case Found(AuthDoc(k, keyData)) =>
             if k != CHACHA then nothing
             else
               var keys := p.keys.(chacha := keyData);
               var s := TryEncryptSend(j, keys, j.write(AuthDoc(CHACHA, keyData)), CHACHA, ACK, d.m);
               // a send that reports failure restarts the whole process
               ServerMove(Party(keys, p.authorized || s.Emitted?), !s.Refused?, s.Faulted?, s.Frames())
           case _ => nothing)
      case _ => nothing
    else nothing
  }

  /** One call of the server's step; `f` is what its poll found, if anything. */
  function ServerStep(j: Json, p: Party, hasSentSyn: bool, f: Option<AnyFrame>, d: Draw): ServerMove {
    if hasSentSyn && p.authorized then ServerMove(p, true, false, [])
    else if !hasSentSyn && p.keys.local.None? then ServerMove(p, hasSentSyn, true, [])
    else
      var opening := if hasSentSyn then [] else Opening(j, p.keys, d);
      if f.None? then ServerMove(p, true, false, opening)
      else
        var r := ServerTakes(j, p, f.value, d);
        r.(out := opening + r.out, hasSentSyn := if r.threw then hasSentSyn else r.hasSentSyn)
  }

  // What one call makes of any packet. The flags and keys not named stay.

  lemma {:induction false} ClientOnSyn(j: Json, p: Party, f: AnyFrame, d: Draw)
    requires f.action == SYN
    ensures var r := ClientStep(j, p, f, d);
            match j.read(f.body)
            case Some(AuthDoc(kind, key)) =>
              if kind != RSA then r == Move(p, false, [])
              else if key.PublicKey? then
                var keys := Keys(Some(d.pair), key, p.keys.chacha);
                r == Move(Party(keys, p.authorized), false,
                          PacketFor(j, keys, d.settings, j.write(AuthDoc(RSA, PublicKey(d.pair))), SYNACK, true, NONE, d.m)
                          .Frames())
              else r == Move(Party(Keys(p.keys.local, key, p.keys.chacha), p.authorized), true, [])
            case _ => r == Move(p, false, [])
  {
  }

  /** A flag that opens with the client's private key makes it draw a key and offer it, sealed for the server; without a
      pair, or when an offer there is a key for cannot go out, the call throws, with the new key stored in the latter case. */
  lemma {:induction false} ClientOnSynAck(j: Json, p: Party, f: AnyFrame, d: Draw)
    requires Lawful(j) && f.action == SYNACK
    ensures var r := ClientStep(j, p, f, d);
            match j.read(f.body)
            case Some(EnvelopeDoc(kind, box)) =>
              var mine := box.RsaBox? && p.keys.local.Some? && box.pub == PublicKey(p.keys.local.value);
              if kind != RSA then r == Move(p, false, [])
              else if p.keys.local == None then r == Move(p, true, [])
              else if mine && j.read(box.message).Some? && j.read(box.message).value.FlagDoc? then
                var remote := p.keys.remoteRsa;
                var auth := j.write(AuthDoc(CHACHA, Secret(d.secret)));
                var offer := EnvelopeDoc(RSA, if remote.PublicKey? then RsaBox(remote, auth) else NoBox);
                && r.party == Party(Keys(p.keys.local, remote, Secret(d.secret)), p.authorized)
                && r.out == (if remote == NoKey then [] else Framed(j.write(offer), ACK, RSA, d.m))
                && (r.threw <==> remote != NoKey && r.out == [])
              else r == Move(p, false, [])
            case _ => r == Move(p, false, [])
  {
    var auth := j.write(AuthDoc(CHACHA, Secret(d.secret)));
    assert auth != [];
  }

  /** Only an ACK under a ChaCha header, and in an envelope that opens with the client's key to that same key, authorizes. */
  lemma {:induction false} ClientOnAck(j: Json, p: Party, f: AnyFrame, d: Draw)
    requires Lawful(j) && f.action == ACK && p.keys.chacha.Secret?
    ensures var r := ClientStep(j, p, f, d);
            && r.out == [] && r.party.keys == p.keys
            && if f.encryption != CHACHA then r == Move(p, false, [])
               else match j.read(f.body)
                    case Some(EnvelopeDoc(kind, box)) =>
                      var mine := kind == CHACHA && box.ChaChaBox? && box.key == p.keys.chacha && |box.key.bytes| == 32;
                      && (r.threw <==> kind == CHACHA && !mine)
                      && (r.party.authorized <==>
                            p.authorized || (mine && exists k :: j.read(box.message) == Some(AuthDoc(k, p.keys.chacha))))
                    case _ => r == Move(p, true, [])
  {
  }

  /** The server stores the key of a plain RSA authentication and seals a flag for it, if it can: not for a null key, and
      an empty one gives an envelope without a box. */
  lemma {:induction false} ServerOnSynAck(j: Json, p: Party, f: AnyFrame, d: Draw)
    requires Lawful(j) && f.action == SYNACK
    ensures var r := ServerTakes(j, p, f, d);
            match j.read(f.body)
            case Some(AuthDoc(kind, key)) =>
              if kind != RSA then r == ServerMove(p, true, false, [])
              else
                var box := if key.PublicKey? then RsaBox(key, j.write(FlagDoc(true))) else NoBox;
                && r.party == Party(Keys(p.keys.local, key, p.keys.chacha), p.authorized) && r.hasSentSyn
                && r.out == (if key == NoKey then [] else Framed(j.write(EnvelopeDoc(RSA, box)), SYNACK, RSA, d.m))
                && (r.threw <==> key != NoKey && r.out == [])
            case _ => r == ServerMove(p, true, false, [])
  {
  }

  /** The server stores the ChaCha key of an authentication that its private key opens, and is authorized when the echo
      under that key goes out; a null key restarts the process, and any other echo that does not go out throws. */
  lemma {:induction false} ServerOnAck(j: Json, p: Party, f: AnyFrame, d: Draw)
    requires Lawful(j) && f.action == ACK && f.encryption == RSA && p.keys.local.Some?
    ensures var r := ServerTakes(j, p, f, d);
            match j.read(f.body)
            case Some(EnvelopeDoc(kind, box)) =>
              var offer :=
                if kind == RSA && box.RsaBox? && box.pub == PublicKey(p.keys.local.value) then j.read(box.message) else None;
              (match offer
               case Some(AuthDoc(k, key)) =>
                 if k != CHACHA then r == ServerMove(p, true, false, [])
                 else
                   && r.party.keys == Keys(p.keys.local, p.keys.remoteRsa, key)
                   && r.out == (if key.Secret? && |key.bytes| == 32 then
                                  Framed(j.write(EchoDoc(j, key, d.m.nonce)), ACK, CHACHA, d.m) else [])
                   && (r.party.authorized <==> p.authorized || r.out != [])
                   && (r.hasSentSyn <==> key != NoKey) && (r.threw <==> key != NoKey && r.out == [])
               case _ => r == ServerMove(p, true, kind == CHACHA, []))
            case _ => r == ServerMove(p, true, false, [])
  {
  }

  lemma {:induction false} OthersIgnored(j: Json, p: Party, f: AnyFrame, d: Draw)
    ensures f.action !in {SYN, SYNACK, ACK} ==> ClientStep(j, p, f, d) == Move(p, false, [])
    ensures f.action != SYNACK && (f.action != ACK || f.encryption != RSA) ==>
              ServerTakes(j, p, f, d) == ServerMove(p, true, false, [])
  {
  }

  /** A server without a pair throws where it needs one: before its SYN, and on an ACK in an envelope. */
  lemma {:induction false} WithoutPair(j: Json, p: Party, hasSentSyn: bool, f: Option<AnyFrame>, d: Draw)
    requires p.keys.local == None
    ensures !hasSentSyn ==> ServerStep(j, p, hasSentSyn, f, d) == ServerMove(p, false, true, [])
    ensures f.Some? && f.value.action == ACK && f.value.encryption == RSA ==>
              ServerTakes(j, p, f.value, d)
              == ServerMove(p, true, j.read(f.value.body).Some? && j.read(f.value.body).value.EnvelopeDoc?, [])
  {
  }

  /** The server's call: nothing once it is done; else its SYN unless one is out, and what it makes of a packet, if there is
      one. When the call throws, the caller's flag for the SYN stays as it was. */
  lemma {:induction false} ServerStepIs(j: Json, p: Party, hasSentSyn: bool, f: Option<AnyFrame>, d: Draw)
    requires p.keys.local.Some?
    ensures var r := ServerStep(j, p, hasSentSyn, f, d);
            if hasSentSyn && p.authorized then r == ServerMove(p, true, false, [])
            else
              var auth := j.write(AuthDoc(RSA, PublicKey(p.keys.local.value)));
              var syn := PacketFor(j, p.keys, d.settings, auth, SYN, true, NONE, d.m).Frames();
              var taken := if f.None? then ServerMove(p, true, false, []) else ServerTakes(j, p, f.value, d);
              && r.party == taken.party && (r.threw <==> taken.threw)
              && (r.hasSentSyn <==> if r.threw then hasSentSyn else taken.hasSentSyn)
              && r.out == if hasSentSyn then taken.out else syn + taken.out
  {
    if f.Some? {
      assert [] + ServerTakes(j, p, f.value, d).out == ServerTakes(j, p, f.value, d).out;
    }
  }

  // ---------------------------------------------------------------- the two of them

  datatype System = System(client: Party, server: Party, hasSentSyn: bool, toServer: seq<Frame>, toClient: seq<Frame>)

  function Fresh(pair: nat): System {
    System(Party(NO_KEYS, false), Party(Keys(Some(pair), NoKey, NoKey), false), false, [], [])
  }

  /** `idle`: the poll finds nothing although something may be in flight. */
  datatype Step =
    | ClientCalls(idle: bool, d: Draw)
    | ServerCalls(idle: bool, d: Draw)
    | ServerRestarts
    | ClientSends(f: Frame)
    | ServerSends(f: Frame)

  predicate IsHandshake(action: ushort) {
    action == SYN || action == SYNACK || action == ACK
  }

  /** Either end may call its step at any time, after an exception and after authorization too. The server's flags are its
      caller's, who may start over while the connection is not authorized. Other code sends no handshake actions. */
  predicate Enabled(s: System, step: Step) {
    match step
    case ClientCalls(_, d) => |d.secret| == 32
    case ServerCalls(_, _) => true
    case ServerRestarts => !s.server.authorized
    case ClientSends(f) => !IsHandshake(f.action)
    case ServerSends(f) => !IsHandshake(f.action)
  }

  function Next(j: Json, s: System, step: Step): System
    requires Enabled(s, step)
  {
    match step
    case ClientCalls(idle, d) =>
      if idle || s.toClient == [] then s
      else
        var r := ClientStep(j, s.client, s.toClient[0], d);
        s.(client := r.party, toClient := s.toClient[1..], toServer := s.toServer + r.out)
    case ServerCalls(idle, d) =>
      var takes := !idle && s.toServer != [] && !(s.hasSentSyn && s.server.authorized)
                   && (s.hasSentSyn || s.server.keys.local.Some?);
      var r := ServerStep(j, s.server, s.hasSentSyn, if takes then Some(s.toServer[0]) else None, d);
      s.(server := r.party, hasSentSyn := r.hasSentSyn, toClient := s.toClient + r.out,
         toServer := if takes then s.toServer[1..] else s.toServer)
    case ServerRestarts => s.(hasSentSyn := false)
    case ClientSends(f) => s.(toServer := s.toServer + [f])
    case ServerSends(f) => s.(toClient := s.toClient + [f])
  }

  predicate ValidRun(j: Json, s: System, steps: seq<Step>)
    decreases |steps|
  {
    steps == [] || (Enabled(s, steps[0]) && ValidRun(j, Next(j, s, steps[0]), steps[1..]))
  }

  function Run(j: Json, s: System, steps: seq<Step>): System
    requires ValidRun(j, s, steps)
    decreases |steps|
  {
    if steps == [] then s else Run(j, Next(j, s, steps[0]), steps[1..])
  }

  // ---------------------------------------------------------------- safety

  /** Every ACK on its way to the client echoes the server's key and has no handshake frame behind it; a server that has
      echoed a key is done; and an authorized client has no handshake frame to come. */
  predicate Inv(j: Json, s: System) {
    && (s.server.authorized ==> s.hasSentSyn && Usable(s.server.keys.chacha))
    && (forall i :: 0 <= i < |s.toClient| && s.toClient[i].action == ACK ==>
          s.server.authorized && EchoOf(j, s.server.keys.chacha, s.toClient[i]))
    && (forall i, k :: 0 <= i < k < |s.toClient| && s.toClient[i].action == ACK ==> !IsHandshake(s.toClient[k].action))
    && (s.client.authorized ==>
          s.server.authorized && s.client.keys.chacha == s.server.keys.chacha
          && forall i :: 0 <= i < |s.toClient| ==> !IsHandshake(s.toClient[i].action))
  }

  /** What a server that is not authorized may send: a SYN or a SYNAck anywhere, an ACK only as the last frame, under the
      key it is then authorized with. */
  predicate Sound(j: Json, r: ServerMove) {
    && (r.party.authorized ==> r.hasSentSyn && Usable(r.party.keys.chacha))
    && forall i :: 0 <= i < |r.out| && r.out[i].action != SYN && r.out[i].action != SYNACK ==>
         i == |r.out| - 1 && r.out[i].action == ACK && r.party.authorized && EchoOf(j, r.party.keys.chacha, r.out[i])
  }

  lemma {:induction false} PacketAction(j: Json, keys: Keys, settings: Option<Settings>, data: seq<byte>,
      action: ushort, enabled: bool, kind: ushort, m: Moment)
    ensures var out := PacketFor(j, keys, settings, data, action, enabled, kind, m).Frames();
            |out| <= 1 && (out != [] ==> out[0].action == action)
  {
  }

  lemma {:induction false} EchoSent(j: Json, keys: Keys, m: Moment)
    requires Lawful(j)
    ensures var s := TryEncryptSend(j, keys, j.write(AuthDoc(CHACHA, keys.chacha)), CHACHA, ACK, m);
            s.Emitted? ==> s.f.action == ACK && Usable(keys.chacha) && EchoOf(j, keys.chacha, s.f)
  {
    var auth := j.write(AuthDoc(CHACHA, keys.chacha));
    var doc := EnvelopeDoc(CHACHA, ChaChaBox(keys.chacha, m.nonce, auth));
    assert j.read(j.write(doc)) == Some(doc);
  }

  lemma {:induction false} TakesSoundly(j: Json, p: Party, f: AnyFrame, d: Draw)
    requires Lawful(j) && !p.authorized
    ensures var r := ServerTakes(j, p, f, d);
            Sound(j, r) && |r.out| <= 1 && (r.threw ==> !r.party.authorized)
  {
    EchoSent(j, ServerTakes(j, p, f, d).party.keys, d.m);
  }

  lemma {:induction false} StepsSoundly(j: Json, p: Party, hasSentSyn: bool, f: Option<AnyFrame>, d: Draw)
    requires Lawful(j) && !p.authorized
    ensures Sound(j, ServerStep(j, p, hasSentSyn, f, d))
  {
    if f.Some? {
      TakesSoundly(j, p, f.value, d);
    }
    if p.keys.local.Some? {
      PacketAction(j, p.keys, d.settings, j.write(AuthDoc(RSA, PublicKey(p.keys.local.value))), SYN, true, NONE, d.m);
    }
    hide ServerTakes;
  }

  /** Sound frames behind a queue that holds no ACK yet. */
  lemma {:induction false} ServerMoved(j: Json, s: System, r: ServerMove, toServer: seq<Frame>)
    requires Inv(j, s) && !s.server.authorized && Sound(j, r)
    ensures Inv(j, s.(server := r.party, hasSentSyn := r.hasSentSyn, toClient := s.toClient + r.out, toServer := toServer))
  {
    var q := s.toClient + r.out;
    assert forall i :: 0 <= i < |s.toClient| ==> s.toClient[i].action != ACK;
    forall i | 0 <= i < |q| && q[i].action == ACK
      ensures i == |q| - 1 && r.party.authorized && EchoOf(j, r.party.keys.chacha, q[i])
    {
      assert q[i] == r.out[i - |s.toClient|];
    }
  }

  lemma {:induction false} ServerCallsKeep(j: Json, s: System, idle: bool, d: Draw)
    requires Lawful(j) && Inv(j, s) && Enabled(s, ServerCalls(idle, d))
    ensures Inv(j, Next(j, s, ServerCalls(idle, d)))
  {
    if s.server.authorized {
      assert Next(j, s, ServerCalls(idle, d)).toClient == s.toClient;
    } else {
      var s' := Next(j, s, ServerCalls(idle, d));
      var takes := !idle && s.toServer != [] && (s.hasSentSyn || s.server.keys.local.Some?);
      var f := if takes then Some(s.toServer[0]) else None;
      StepsSoundly(j, s.server, s.hasSentSyn, f, d);
      ServerMoved(j, s, ServerStep(j, s.server, s.hasSentSyn, f, d), s'.toServer);
    }
  }

  /** A client is authorized only by an echo of its own key; one that already is meets no handshake frame. */
  lemma {:induction false} ClientCallsKeep(j: Json, s: System, idle: bool, d: Draw)
    requires Lawful(j) && Inv(j, s) && Enabled(s, ClientCalls(idle, d))
    ensures Inv(j, Next(j, s, ClientCalls(idle, d)))
  {
    if !idle && s.toClient != [] {
      var f, rest := s.toClient[0], s.toClient[1..];
      assert forall i :: 0 <= i < |rest| ==> rest[i] == s.toClient[i + 1];
      if f.action == ACK {
        var auth := AuthDoc(CHACHA, s.server.keys.chacha);
        assert j.read(j.write(auth)) == Some(auth);
      }
    }
  }

  lemma {:induction false} StepKeeps(j: Json, s: System, step: Step)
    requires Lawful(j) && Inv(j, s) && Enabled(s, step)
    ensures Inv(j, Next(j, s, step))
  {
    match step
    case ClientCalls(idle, d) => ClientCallsKeep(j, s, idle, d);
    case ServerCalls(idle, d) => ServerCallsKeep(j, s, idle, d);
    case ServerRestarts =>
    case ClientSends(f) =>
    case ServerSends(f) =>
  }

  lemma {:induction false} RunKeeps(j: Json, s: System, steps: seq<Step>)
    requires Lawful(j) && Inv(j, s) && ValidRun(j, s, steps)
    ensures Inv(j, Run(j, s, steps))
    decreases |steps|
  {
    hide Next, Enabled, Inv;
    if steps != [] {
      StepKeeps(j, s, steps[0]);
      RunKeeps(j, Next(j, s, steps[0]), steps[1..]);
    }
  }

  /** However often the client re-keys, the server's caller starts over and calls end in exceptions: an authorized
      client's current key is the server's, and stays so however the run goes on. */
  lemma {:induction false} Safety(j: Json, pair: nat, steps: seq<Step>)
    requires Lawful(j) && ValidRun(j, Fresh(pair), steps)
    ensures var s := Run(j, Fresh(pair), steps);
            s.client.authorized ==>
              s.server.authorized && s.client.keys.chacha == s.server.keys.chacha && Usable(s.server.keys.chacha)
  {
    RunKeeps(j, Fresh(pair), steps);
  }

  // ---------------------------------------------------------------- restarts

  /** An ACK that offers the server a null key. */
  predicate OffersNull(j: Json, p: Party, f: AnyFrame) {
    && f.action == ACK && f.encryption == RSA && p.keys.local.Some?
    && match j.read(f.body)
       case Some(EnvelopeDoc(kind, box)) =>
         DecryptInto(j, kind, box, PrivateKey(p.keys.local.value)) == Found(AuthDoc(CHACHA, NoKey))
       case _ => false
  }

  /** The server's own code restarts the process exactly when it is offered a null key: any other echo that does not go
      out throws. The restart's SYN then goes out in the plain, and the client takes it. */
  lemma {:induction false} RestartIsNull(j: Json, p: Party, f: AnyFrame, d: Draw)
    requires Lawful(j)
    ensures var r := ServerTakes(j, p, f, d);
            && (!r.threw && !r.hasSentSyn <==> OffersNull(j, p, f))
            && (OffersNull(j, p, f) ==> r.party == p.(keys := p.keys.(chacha := NoKey)) && r.out == [])
  {
  }

  lemma {:induction false} RestartIsTaken(j: Json, p: Party, f: AnyFrame, d: Draw, client: Party, d2: Draw)
    requires Lawful(j) && OffersNull(j, p, f) && d2.settings == Some(DEFAULT_SETTINGS)
    requires Opening(j, ServerTakes(j, p, f, d).party.keys, d2) != []
    ensures var r := ClientStep(j, client, Opening(j, ServerTakes(j, p, f, d).party.keys, d2)[0], d2);
            !r.threw && r.party.keys.remoteRsa == PublicKey(p.keys.local.value) && r.party.keys.local == Some(d2.pair)
  {
    RestartIsNull(j, p, f, d);
    SynUnderstood(j, ServerTakes(j, p, f, d).party.keys, client, d2);
    hide ServerTakes, ClientStep;
  }

  /** Under the default settings, the client takes a SYN exactly when the server that sends it stores no key: under a
      stored key it goes out as an envelope, which the client's SYN branch drops. */
  lemma {:induction false} SynUnderstood(j: Json, server: Keys, client: Party, d: Draw)
    requires Lawful(j) && server.local.Some? && d.settings == Some(DEFAULT_SETTINGS)
    requires Opening(j, server, d) != []
    ensures var r := ClientStep(j, client, Opening(j, server, d)[0], d);
            if HasBytes(server.chacha) then r == Stay(client)
            else !r.threw && r.party.keys.remoteRsa == PublicKey(server.local.value) && r.party.keys.local == Some(d.pair)
  {
    var auth := AuthDoc(RSA, PublicKey(server.local.value));
    HeaderNamesEnvelope(j, server, d.settings, j.write(auth), SYN, true, NONE, d.m);
    assert j.read(j.write(auth)) == Some(auth);
  }

  /** And the server takes the client's answer exactly when the client stores no key, for the same reason. */
  lemma {:induction false} AnswerUnderstood(j: Json, client: Party, server: Party, syn: AnyFrame, d: Draw, d2: Draw)
    requires Lawful(j) && d.settings == Some(DEFAULT_SETTINGS)
    requires syn.action == SYN && ClientStep(j, client, syn, d).out != []
    ensures var r := ServerTakes(j, server, ClientStep(j, client, syn, d).out[0], d2);
            if HasBytes(client.keys.chacha) then r == ServerMove(server, true, false, [])
            else r.party.keys.remoteRsa == PublicKey(d.pair)
  {
    var auth := AuthDoc(RSA, PublicKey(d.pair));
    HeaderNamesEnvelope(j, ClientStep(j, client, syn, d).party.keys, d.settings, j.write(auth), SYNACK, true, NONE, d.m);
    assert j.read(j.write(auth)) == Some(auth);
  }

  // ---------------------------------------------------------------- runs that do restart

  predicate Uses(steps: seq<Step>, settings: Option<Settings>) {
    forall i :: 0 <= i < |steps| && (steps[i].ClientCalls? || steps[i].ServerCalls?) ==> steps[i].d.settings == settings
  }

  /** Some run, every call of which finds these settings, leads from `s` to `t`. */
  ghost predicate Reaches(j: Json, settings: Option<Settings>, s: System, t: System) {
    exists steps :: ValidRun(j, s, steps) && Uses(steps, settings) && Run(j, s, steps) == t
  }

  lemma {:induction false} RunSnoc(j: Json, s: System, steps: seq<Step>, step: Step)
    requires ValidRun(j, s, steps) && Enabled(Run(j, s, steps), step)
    ensures ValidRun(j, s, steps + [step]) && Run(j, s, steps + [step]) == Next(j, Run(j, s, steps), step)
    decreases |steps|
  {
    hide Next, Enabled;
    var all := steps + [step];
    if steps == [] {
      assert all == [step] && [step][1..] == [];
      assert ValidRun(j, Next(j, s, step), []);
    } else {
      assert all[0] == steps[0] && all[1..] == steps[1..] + [step];
      RunSnoc(j, Next(j, s, steps[0]), steps[1..], step);
    }
  }

  lemma {:induction false} Further(j: Json, settings: Option<Settings>, s: System, t: System, step: Step)
    requires Reaches(j, settings, s, t) && Enabled(t, step) && Uses([step], settings)
    ensures Reaches(j, settings, s, Next(j, t, step))
  {
    hide Next, Enabled;
    var steps :| ValidRun(j, s, steps) && Uses(steps, settings) && Run(j, s, steps) == t;
    RunSnoc(j, s, steps, step);
    assert [step][0] == step;
    assert Uses(steps + [step], settings);
  }

  lemma {:induction false} Here(j: Json, settings: Option<Settings>, s: System)
    ensures Reaches(j, settings, s, s)
  {
    assert ValidRun(j, s, []) && Uses([], settings) && Run(j, s, []) == s;
  }

  const NOW := Moment(0, 0, true)
  const DOWN := Moment(0, 0, false)

  function FlagEnvelope(j: Json, p: nat): Doc {
    EnvelopeDoc(RSA, RsaBox(PublicKey(p), j.write(FlagDoc(true))))
  }

  /** Every body of one pass of the handshake fits in a frame. */
  predicate RoomyPass(j: Json, pair: nat, p: nat, secret: seq<byte>) {
    && Fits(j.write(AuthDoc(RSA, PublicKey(pair))))
    && Fits(j.write(AuthDoc(RSA, PublicKey(p))))
    && Fits(j.write(FlagEnvelope(j, p)))
    && Fits(j.write(OfferDoc(j, pair, Secret(secret))))
    && Fits(j.write(EchoDoc(j, Secret(secret), 0)))
  }

  /** What a request that names no encryption of its own ends in. */
  function Default(settings: Option<Settings>): ushort { Effective(settings, true, NONE) }

  /** An end with these keys sends its SYN or SYNAck in the plain: the settings ask for nothing it holds a key for. */
  predicate Plain(settings: Option<Settings>, keys: Keys) {
    Default(settings) != RSA && (Default(settings) == CHACHA ==> !HasBytes(keys.chacha))
  }

  /** No frame of the handshake is in flight. */
  predicate Calm(q: seq<Frame>) {
    forall i :: 0 <= i < |q| ==> !IsHandshake(q[i].action)
  }

  /** Nobody authorized, nothing on its way to the client, nothing of the handshake to the server, which will send a SYN. */
  predicate AtStart(s: System, pair: nat) {
    && Calm(s.toServer) && s.toClient == [] && !s.client.authorized && !s.server.authorized && !s.hasSentSyn
    && s.server.keys.local == Some(pair)
  }

  function SynSent(j: Json, s: System, pair: nat): System
    requires Fits(j.write(AuthDoc(RSA, PublicKey(pair))))
  {
    s.(hasSentSyn := true, toClient := [Frame(SYN, NONE, 0, j.write(AuthDoc(RSA, PublicKey(pair))))])
  }

  function SynAnswered(j: Json, s: System, pair: nat, p: nat): System
    requires Fits(j.write(AuthDoc(RSA, PublicKey(p))))
  {
    s.(client := s.client.(keys := s.client.keys.(remoteRsa := PublicKey(pair), local := Some(p))), hasSentSyn := true,
       toServer := [Frame(SYNACK, NONE, 0, j.write(AuthDoc(RSA, PublicKey(p))))])
  }

  function Approached(j: Json, s: System, pair: nat, p: nat): System
    requires Fits(j.write(FlagEnvelope(j, p)))
  {
    s.(client := s.client.(keys := s.client.keys.(remoteRsa := PublicKey(pair), local := Some(p))),
       server := s.server.(keys := s.server.keys.(remoteRsa := PublicKey(p))),
       hasSentSyn := true, toServer := [], toClient := [Frame(SYNACK, RSA, 0, j.write(FlagEnvelope(j, p)))])
  }

  lemma {:induction false} SendsSyn(j: Json, s: System, pair: nat, d: Draw)
    requires Lawful(j) && AtStart(s, pair) && d.m == NOW && Plain(d.settings, s.server.keys)
    requires Fits(j.write(AuthDoc(RSA, PublicKey(pair))))
    ensures Next(j, s, ServerCalls(true, d)) == SynSent(j, s, pair)
  {
    var syn := SynSent(j, s, pair).toClient;
    assert [] + syn == syn;
  }

  lemma {:induction false} AnswersSyn(j: Json, s: System, pair: nat, d: Draw)
    requires Lawful(j) && AtStart(s, pair) && s.toServer == []
    requires d.m == NOW && |d.secret| == 32 && Plain(d.settings, s.client.keys)
    requires Fits(j.write(AuthDoc(RSA, PublicKey(pair)))) && Fits(j.write(AuthDoc(RSA, PublicKey(d.pair))))
    ensures Next(j, SynSent(j, s, pair), ClientCalls(false, d)) == SynAnswered(j, s, pair, d.pair)
  {
    var auth := AuthDoc(RSA, PublicKey(pair));
    assert j.read(j.write(auth)) == Some(auth);
  }

  lemma {:induction false} SendsFlag(j: Json, s: System, pair: nat, p: nat, d: Draw)
    requires Lawful(j) && AtStart(s, pair) && s.toServer == [] && d.m == NOW
    requires Fits(j.write(AuthDoc(RSA, PublicKey(p)))) && Fits(j.write(FlagEnvelope(j, p)))
    ensures Next(j, SynAnswered(j, s, pair, p), ServerCalls(false, d)) == Approached(j, s, pair, p)
  {
    var auth := AuthDoc(RSA, PublicKey(p));
    assert j.read(j.write(auth)) == Some(auth);
  }

  /** Calls of the server's step that take what is not of the handshake change nothing else. */
  lemma {:induction false} DrainServer(j: Json, settings: Option<Settings>, s0: System, s: System)
    requires Reaches(j, settings, s0, s) && Calm(s.toServer) && s.hasSentSyn && !s.server.authorized
    ensures Reaches(j, settings, s0, s.(toServer := []))
    decreases |s.toServer|
  {
    if s.toServer == [] {
      assert s.(toServer := []) == s;
    } else {
      var d := Draw(0, [], settings, NOW);
      var s1 := s.(toServer := s.toServer[1..]);
      assert !IsHandshake(s.toServer[0].action);
      assert s.toClient + [] == s.toClient;
      assert Next(j, s, ServerCalls(false, d)) == s1;
      Further(j, settings, s0, s, ServerCalls(false, d));
      hide Next, Reaches, Enabled;
      DrainServer(j, settings, s0, s1);
    }
  }

  lemma {:induction false} DrainClient(j: Json, settings: Option<Settings>, s0: System, s: System, secret: seq<byte>)
    requires Reaches(j, settings, s0, s) && Calm(s.toClient) && |secret| == 32
    ensures Reaches(j, settings, s0, s.(toClient := []))
    decreases |s.toClient|
  {
    if s.toClient == [] {
      assert s.(toClient := []) == s;
    } else {
      var d := Draw(0, secret, settings, NOW);
      var s1 := s.(toClient := s.toClient[1..]);
      assert !IsHandshake(s.toClient[0].action);
      assert s.toServer + [] == s.toServer;
      assert Next(j, s, ClientCalls(false, d)) == s1;
      Further(j, settings, s0, s, ClientCalls(false, d));
      hide Next, Reaches, Enabled;
      DrainClient(j, settings, s0, s1, secret);
    }
  }

  /** From a start, SYN and both SYNAcks: the client is about to draw a key. */
  lemma {:induction false} Approach(j: Json, settings: Option<Settings>, s0: System, s: System, pair: nat, p: nat,
      secret: seq<byte>)
    requires Lawful(j) && RoomyPass(j, pair, p, secret) && |secret| == 32
    requires Reaches(j, settings, s0, s) && AtStart(s, pair)
    requires Plain(settings, s.server.keys) && Plain(settings, s.client.keys)
    ensures Reaches(j, settings, s0, Approached(j, s, pair, p))
  {
    var d, calm := Draw(p, secret, settings, NOW), s.(toServer := []);
    SendsSyn(j, s, pair, d);
    AnswersSyn(j, calm, pair, d);
    SendsFlag(j, calm, pair, p, d);
    hide Next, Reaches, Lawful;
    Further(j, settings, s0, s, ServerCalls(true, d));
    DrainServer(j, settings, s0, SynSent(j, s, pair));
    assert SynSent(j, s, pair).(toServer := []) == SynSent(j, calm, pair);
    Further(j, settings, s0, SynSent(j, calm, pair), ClientCalls(false, d));
    Further(j, settings, s0, SynAnswered(j, calm, pair, p), ServerCalls(false, d));
    assert Approached(j, calm, pair, p) == Approached(j, s, pair, p);
  }

  function Drawn(s: System, secret: seq<byte>): System {
    s.(client := s.client.(keys := s.client.keys.(chacha := Secret(secret))), toClient := [])
  }

  /** The client draws a key; its ACK goes out, or throws, as the transport is up or down. */
  lemma {:induction false} DrawsKey(j: Json, settings: Option<Settings>, s0: System, s: System,
      pair: nat, p: nat, secret: seq<byte>, m: Moment)
    requires Lawful(j) && RoomyPass(j, pair, p, secret) && |secret| == 32 && (m == NOW || m == DOWN)
    requires Reaches(j, settings, s0, Approached(j, s, pair, p)) && AtStart(s, pair)
    ensures var t := Drawn(Approached(j, s, pair, p), secret);
            var offer := Frame(ACK, RSA, 0, j.write(OfferDoc(j, pair, Secret(secret))));
            Reaches(j, settings, s0, if m.open then t.(toServer := [offer]) else t)
  {
    var a, d := Approached(j, s, pair, p), Draw(p, secret, settings, m);
    var flag := FlagEnvelope(j, p);
    assert j.read(j.write(flag)) == Some(flag) && j.read(j.write(FlagDoc(true))) == Some(FlagDoc(true));
    var t := Drawn(a, secret);
    var offer := j.write(OfferDoc(j, pair, Secret(secret)));
    assert Next(j, a, ClientCalls(false, d)) == if m.open then t.(toServer := [Frame(ACK, RSA, 0, offer)]) else t;
    Further(j, settings, s0, a, ClientCalls(false, d));
  }

  /** The server stores the key offered; its echo goes out and authorizes it, or throws. */
  lemma {:induction false} StoresKey(j: Json, settings: Option<Settings>, s0: System, s: System,
      pair: nat, p: nat, secret: seq<byte>, m: Moment)
    requires Lawful(j) && RoomyPass(j, pair, p, secret) && |secret| == 32 && (m == NOW || m == DOWN)
    requires s.server.keys.local == Some(pair) && s.hasSentSyn && !s.server.authorized && s.toClient == []
    requires s.toServer == [Frame(ACK, RSA, 0, j.write(OfferDoc(j, pair, Secret(secret))))] && Reaches(j, settings, s0, s)
    ensures var t := s.(server := Party(s.server.keys.(chacha := Secret(secret)), m.open), toServer := []);
            var echo := Frame(ACK, CHACHA, 0, j.write(EchoDoc(j, Secret(secret), 0)));
            Reaches(j, settings, s0, if m.open then t.(toClient := [echo]) else t)
  {
    var d := Draw(p, secret, settings, m);
    var offer, auth := OfferDoc(j, pair, Secret(secret)), AuthDoc(CHACHA, Secret(secret));
    assert j.read(j.write(offer)) == Some(offer) && j.read(j.write(auth)) == Some(auth);
    var t := s.(server := Party(s.server.keys.(chacha := Secret(secret)), m.open), toServer := []);
    var echo := j.write(EchoDoc(j, Secret(secret), 0));
    assert Next(j, s, ServerCalls(false, d)) == if m.open then t.(toClient := [Frame(ACK, CHACHA, 0, echo)]) else t;
    Further(j, settings, s0, s, ServerCalls(false, d));
  }

  lemma {:induction false} Authorizes(j: Json, settings: Option<Settings>, s0: System, s: System, secret: seq<byte>)
    requires Lawful(j) && |secret| == 32 && s.client.keys.chacha == Secret(secret)
    requires Fits(j.write(EchoDoc(j, Secret(secret), 0))) && Reaches(j, settings, s0, s)
    requires s.toClient == [Frame(ACK, CHACHA, 0, j.write(EchoDoc(j, Secret(secret), 0)))]
    ensures Reaches(j, settings, s0, s.(client := s.client.(authorized := true), toClient := []))
  {
    var d := Draw(0, secret, settings, NOW);
    var echo, auth := EchoDoc(j, Secret(secret), 0), AuthDoc(CHACHA, Secret(secret));
    assert j.read(j.write(echo)) == Some(echo) && j.read(j.write(auth)) == Some(auth);
    assert Next(j, s, ClientCalls(false, d)) == s.(client := s.client.(authorized := true), toClient := []);
    Further(j, settings, s0, s, ClientCalls(false, d));
  }

  predicate Complete(s: System, secret: seq<byte>) {
    s.client.authorized && s.server.authorized && s.client.keys.chacha == Secret(secret) == s.server.keys.chacha
  }

  /** A pass of the handshake from a start, to the end. */
  lemma {:induction false} Passes(j: Json, settings: Option<Settings>, s0: System, s: System, pair: nat, p: nat,
      secret: seq<byte>)
    requires Lawful(j) && RoomyPass(j, pair, p, secret) && |secret| == 32
    requires Reaches(j, settings, s0, s) && AtStart(s, pair)
    requires Plain(settings, s.server.keys) && Plain(settings, s.client.keys)
    ensures exists t :: Reaches(j, settings, s0, t) && Complete(t, secret)
  {
    Approach(j, settings, s0, s, pair, p, secret);
    DrawsKey(j, settings, s0, s, pair, p, secret, NOW);
    hide Reaches, Lawful;
    var a := Drawn(Approached(j, s, pair, p), secret)
             .(toServer := [Frame(ACK, RSA, 0, j.write(OfferDoc(j, pair, Secret(secret))))]);
    StoresKey(j, settings, s0, a, pair, p, secret, NOW);
    var b := a.(server := Party(a.server.keys.(chacha := Secret(secret)), true), toServer := [],
                toClient := [Frame(ACK, CHACHA, 0, j.write(EchoDoc(j, Secret(secret), 0)))]);
    Authorizes(j, settings, s0, b, secret);
    assert Complete(b.(client := b.client.(authorized := true), toClient := []), secret);
  }

  /** A pass whose ACK throws. */
  lemma {:induction false} OfferFails(j: Json, settings: Option<Settings>, pair: nat, p: nat, secret: seq<byte>)
    requires Lawful(j) && RoomyPass(j, pair, p, secret) && |secret| == 32 && Default(settings) != RSA
    ensures var s := Drawn(Approached(j, Fresh(pair), pair, p), secret);
            Reaches(j, settings, Fresh(pair), s)
  {
    Here(j, settings, Fresh(pair));
    Approach(j, settings, Fresh(pair), Fresh(pair), pair, p, secret);
    DrawsKey(j, settings, Fresh(pair), Fresh(pair), pair, p, secret, DOWN);
  }

  /** Re-keying is real, under all settings that encrypt by neither RSA nor ChaCha: after a first key whose ACK did not go
      out and a start over, the client draws a second key and both ends are authorized with it. */
  lemma {:induction false} RekeyedRun(j: Json, settings: Option<Settings>, pair: nat, p1: nat, p2: nat,
      k1: seq<byte>, k2: seq<byte>)
    requires Lawful(j) && RoomyPass(j, pair, p1, k1) && RoomyPass(j, pair, p2, k2) && |k1| == |k2| == 32
    requires Default(settings) != RSA && Default(settings) != CHACHA
    ensures exists mid, end ::
              && Reaches(j, settings, Fresh(pair), mid) && mid.client.keys.chacha == Secret(k1)
              && Reaches(j, settings, mid, end) && Complete(end, k2)
  {
    OfferFails(j, settings, pair, p1, k1);
    var mid := Drawn(Approached(j, Fresh(pair), pair, p1), k1);
    Here(j, settings, mid);
    Further(j, settings, mid, mid, ServerRestarts);
    Passes(j, settings, mid, mid.(hasSentSyn := false), pair, p2, k2);
    var end :| Reaches(j, settings, mid, end) && Complete(end, k2);
  }

  // ---------------------------------------------------------------- when starting over can complete

  predicate Sealed(j: Json, f: AnyFrame) {
    j.read(f.body).Some? && j.read(f.body).value.EnvelopeDoc?
  }

  /** Nobody is authorized, and of the handshake there are only SYNs on their way to the client and answers in envelopes to
      the server; and either the client's answers are sealed, or all those SYNs are, and the server's. */
  predicate Blocked(j: Json, settings: Option<Settings>, s: System) {
    && !s.client.authorized && !s.server.authorized
    && (forall i :: 0 <= i < |s.toServer| && IsHandshake(s.toServer[i].action) ==>
          s.toServer[i].action == SYNACK && Sealed(j, s.toServer[i]))
    && (forall i :: 0 <= i < |s.toClient| && IsHandshake(s.toClient[i].action) ==> s.toClient[i].action == SYN)
    && (Plain(settings, s.client.keys) ==>
          !Plain(settings, s.server.keys)
          && forall i :: 0 <= i < |s.toClient| && IsHandshake(s.toClient[i].action) ==> Sealed(j, s.toClient[i]))
  }

  lemma {:induction false} OpeningIs(j: Json, keys: Keys, d: Draw)
    requires Lawful(j) && keys.local.Some?
    ensures var out := Opening(j, keys, d);
            |out| <= 1 && (out != [] ==> out[0].action == SYN)
            && (out != [] && Default(d.settings) == CHACHA && HasBytes(keys.chacha) ==> Sealed(j, out[0]))
  {
    HeaderNamesEnvelope(j, keys, d.settings, j.write(AuthDoc(RSA, PublicKey(keys.local.value))), SYN, true, NONE, d.m);
  }

  /** What a client makes of a SYN: a sealed one is dropped; the answer to any other is sealed unless the client is plain. */
  lemma {:induction false} AnswerIs(j: Json, p: Party, f: AnyFrame, d: Draw)
    requires Lawful(j) && f.action == SYN
    ensures var r := ClientStep(j, p, f, d);
            && r.party.authorized == p.authorized && r.party.keys.chacha == p.keys.chacha
            && (Sealed(j, f) ==> r == Stay(p))
            && forall g :: g in r.out ==> g.action == SYNACK && (!Plain(d.settings, p.keys) ==> Sealed(j, g))
  {
    match j.read(f.body)
    case Some(AuthDoc(kind, PublicKey(n))) =>
      var keys := p.keys.(remoteRsa := PublicKey(n), local := Some(d.pair));
      HeaderNamesEnvelope(j, keys, d.settings, j.write(AuthDoc(RSA, PublicKey(d.pair))), SYNACK, true, NONE, d.m);
    case _ =>
  }

  lemma {:induction false} BlockedServer(j: Json, settings: Option<Settings>, s: System, idle: bool, d: Draw)
    requires Lawful(j) && Blocked(j, settings, s) && d.settings == settings
    ensures Blocked(j, settings, Next(j, s, ServerCalls(idle, d)))
  {
    if s.server.keys.local.Some? {
      OpeningIs(j, s.server.keys, d);
    }
    hide Opening;
    var s' := Next(j, s, ServerCalls(idle, d));
    assert s'.server == s.server && s'.client == s.client;
  }

  lemma {:induction false} BlockedClient(j: Json, settings: Option<Settings>, s: System, idle: bool, d: Draw)
    requires Lawful(j) && Blocked(j, settings, s) && d.settings == settings && |d.secret| == 32
    ensures Blocked(j, settings, Next(j, s, ClientCalls(idle, d)))
  {
    if !idle && s.toClient != [] {
      var f, rest := s.toClient[0], s.toClient[1..];
      assert forall i :: 0 <= i < |rest| ==> rest[i] == s.toClient[i + 1];
      if IsHandshake(f.action) {
        AnswerIs(j, s.client, f, d);
        hide ClientStep, Sealed;
        var out, q := ClientStep(j, s.client, f, d).out, s.toServer;
        assert forall i :: |q| <= i < |q + out| ==> (q + out)[i] in out;
      }
    }
  }

  lemma {:induction false} BlockedStays(j: Json, settings: Option<Settings>, s: System, step: Step)
    requires Lawful(j) && Blocked(j, settings, s) && Enabled(s, step) && Uses([step], settings)
    ensures Blocked(j, settings, Next(j, s, step))
  {
    assert [step][0] == step;
    match step
    case ClientCalls(idle, d) => BlockedClient(j, settings, s, idle, d);
    case ServerCalls(idle, d) => BlockedServer(j, settings, s, idle, d);
    case ServerRestarts =>
    case ClientSends(f) =>
    case ServerSends(f) =>
  }

  lemma {:induction false} BlockedForever(j: Json, settings: Option<Settings>, s: System, steps: seq<Step>)
    requires Lawful(j) && Blocked(j, settings, s) && ValidRun(j, s, steps) && Uses(steps, settings)
    ensures Blocked(j, settings, Run(j, s, steps))
    decreases |steps|
  {
    hide Next, Enabled, Blocked;
    if steps != [] {
      assert Uses([steps[0]], settings) by {
        assert [steps[0]][0] == steps[0];
      }
      BlockedStays(j, settings, s, steps[0]);
      BlockedForever(j, settings, Next(j, s, steps[0]), steps[1..]);
    }
  }

  /** A server that is authorized says no more, and a client with no echo to come is not authorized any more. */
  predicate Past(s: System) {
    s.server.authorized && s.hasSentSyn && !s.client.authorized && Calm(s.toClient)
  }

  lemma {:induction false} PastForever(j: Json, s: System, steps: seq<Step>)
    requires Past(s) && ValidRun(j, s, steps)
    ensures Past(Run(j, s, steps))
    decreases |steps|
  {
    if steps != [] {
      PastStays(j, s, steps[0]);
      hide Next, Enabled, Past;
      PastForever(j, Next(j, s, steps[0]), steps[1..]);
    }
  }

  lemma {:induction false} PastStays(j: Json, s: System, step: Step)
    requires Past(s) && Enabled(s, step)
    ensures Past(Next(j, s, step))
  {
    match step
    case ClientCalls(idle, d) =>
      if !idle && s.toClient != [] {
        assert !IsHandshake(s.toClient[0].action);
      }
    case ServerCalls(idle, d) =>
      assert s.toClient + [] == s.toClient;
    case ServerRestarts =>
    case ClientSends(f) =>
    case ServerSends(f) =>
  }

  lemma {:induction false} PairStays(j: Json, s: System, steps: seq<Step>)
    requires ValidRun(j, s, steps)
    ensures Run(j, s, steps).server.keys.local == s.server.keys.local
    decreases |steps|
  {
    if steps != [] {
      PairStaysOnce(j, s, steps[0]);
      hide Next, Enabled;
      PairStays(j, Next(j, s, steps[0]), steps[1..]);
    }
  }

  lemma {:induction false} PairStaysOnce(j: Json, s: System, step: Step)
    requires Enabled(s, step)
    ensures Next(j, s, step).server.keys.local == s.server.keys.local
  {
  }

  ghost predicate CanComplete(j: Json, settings: Option<Settings>, s: System) {
    exists t :: Reaches(j, settings, s, t) && t.client.authorized && t.server.authorized
  }

  lemma {:induction false} CompletesFrom(j: Json, settings: Option<Settings>, s: System, pair: nat, p: nat,
      secret: seq<byte>)
    requires Lawful(j) && RoomyPass(j, pair, p, secret) && |secret| == 32
    requires Calm(s.toServer) && Calm(s.toClient) && !s.client.authorized && !s.server.authorized
    requires s.server.keys.local == Some(pair) && Plain(settings, s.client.keys) && Plain(settings, s.server.keys)
    ensures CanComplete(j, settings, s)
  {
    var s1 := s.(toClient := []);
    var s2 := s1.(hasSentSyn := false);
    assert Next(j, s1, ServerRestarts) == s2;
    hide Next, Reaches, Lawful;
    Here(j, settings, s);
    DrainClient(j, settings, s, s, secret);
    Further(j, settings, s, s1, ServerRestarts);
    Passes(j, settings, s, s2, pair, p, secret);
  }

  lemma {:induction false} NeverFrom(j: Json, settings: Option<Settings>, s: System)
    requires Lawful(j) && (Blocked(j, settings, s) || Past(s))
    ensures !CanComplete(j, settings, s)
  {
    if CanComplete(j, settings, s) {
      var t :| Reaches(j, settings, s, t) && t.client.authorized && t.server.authorized;
      var steps :| ValidRun(j, s, steps) && Uses(steps, settings) && Run(j, s, steps) == t;
      if Blocked(j, settings, s) {
        BlockedForever(j, settings, s, steps);
      } else {
        PastForever(j, s, steps);
      }
    }
  }

  /** From every reachable state with nothing of the handshake in flight, under any settings, the handshake can be
      completed, by starting over as often as it takes, exactly when it is complete, or nobody is authorized and neither
      end would seal what it says: the settings do not end in RSA, nor in ChaCha while either end stores a key. */
  lemma {:induction false} CanCompleteIff(j: Json, settings: Option<Settings>, pair: nat, steps: seq<Step>, p: nat,
      secret: seq<byte>)
    requires Lawful(j) && RoomyPass(j, pair, p, secret) && |secret| == 32 && ValidRun(j, Fresh(pair), steps)
    requires var s := Run(j, Fresh(pair), steps); Calm(s.toServer) && Calm(s.toClient)
    ensures var s := Run(j, Fresh(pair), steps);
            CanComplete(j, settings, s)
            <==> if s.server.authorized then s.client.authorized
                 else Plain(settings, s.client.keys) && Plain(settings, s.server.keys)
  {
    RunKeeps(j, Fresh(pair), steps);
    PairStays(j, Fresh(pair), steps);
    var s := Run(j, Fresh(pair), steps);
    if s.server.authorized {
      if s.client.authorized {
        Here(j, settings, s);
      } else {
        NeverFrom(j, settings, s);
      }
    } else if Plain(settings, s.client.keys) && Plain(settings, s.server.keys) {
      CompletesFrom(j, settings, s, pair, p, secret);
    } else {
      NeverFrom(j, settings, s);
    }
  }

  // ---------------------------------------------------------------- the two ways there

  /** Settings that end in ChaCha, as the default ones do, lead to a state, the client's ACK having thrown, in which the
      client alone stores a key: the restart's SYN is taken, its answer is not, and the handshake never completes. */
  lemma {:induction false} FailedOfferIsFinal(j: Json, settings: Option<Settings>, pair: nat, p: nat, secret: seq<byte>)
    requires Lawful(j) && RoomyPass(j, pair, p, secret) && |secret| == 32 && Default(settings) == CHACHA
    ensures exists s ::
              && Reaches(j, settings, Fresh(pair), s)
              && s.client.keys.chacha == Secret(secret) && s.server.keys.chacha == NoKey
              && !CanComplete(j, settings, s)
  {
    OfferFails(j, settings, pair, p, secret);
    var s := Drawn(Approached(j, Fresh(pair), pair, p), secret);
    assert Blocked(j, settings, s);
    NeverFrom(j, settings, s);
  }

  /** And to one, the server's echo having thrown, in which both do: not even the restart's SYN is taken. */
  lemma {:induction false} FailedEchoIsFinal(j: Json, settings: Option<Settings>, pair: nat, p: nat, secret: seq<byte>)
    requires Lawful(j) && RoomyPass(j, pair, p, secret) && |secret| == 32 && Default(settings) == CHACHA
    ensures exists s ::
              && Reaches(j, settings, Fresh(pair), s)
              && s.client.keys.chacha == s.server.keys.chacha == Secret(secret)
              && !CanComplete(j, settings, s)
  {
    Here(j, settings, Fresh(pair));
    Approach(j, settings, Fresh(pair), Fresh(pair), pair, p, secret);
    DrawsKey(j, settings, Fresh(pair), Fresh(pair), pair, p, secret, NOW);
    var a := Drawn(Approached(j, Fresh(pair), pair, p), secret)
             .(toServer := [Frame(ACK, RSA, 0, j.write(OfferDoc(j, pair, Secret(secret))))]);
    StoresKey(j, settings, Fresh(pair), a, pair, p, secret, DOWN);
    var s := a.(server := Party(a.server.keys.(chacha := Secret(secret)), false), toServer := []);
    assert Blocked(j, settings, s);
    NeverFrom(j, settings, s);
  }
}
