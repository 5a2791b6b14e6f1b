/** Keys, envelopes and the branching send path, with ideal cryptography and an ideal JSON codec. */
module Packets {
  import opened Bytes
  import opened PacketHeader
  import opened Framing

  // ---------------------------------------------------------------- keys, boxes, documents

  /** `NoKey` is null; `Secret([])` is the empty array. RSA keys name the pair they belong to. */
  datatype Key = NoKey | Secret(bytes: seq<byte>) | PublicKey(pair: nat) | PrivateKey(pair: nat)

  predicate HasBytes(k: Key) {
    k != NoKey && k != Secret([])
  }

  /** AEAD_CHACHA20_POLY1305 (section 2.8 of RFC 8439) takes 32-byte keys; the runtime throws on any other. */
  predicate Usable(k: Key) {
    k.Secret? && |k.bytes| == 32
  }

  /** ChaCha20-Poly1305 nonces are 12 bytes. */
  type Nonce = n: nat | n < 0x1_0000_0000_0000_0000_0000_0000

  /** Ideal ciphertexts: only the matching key opens one. `NoBox` is missing or empty `encryptedData`. */
  datatype Box = NoBox | RsaBox(pub: Key, message: seq<byte>) | ChaChaBox(key: Key, nonce: Nonce, message: seq<byte>)

  datatype Doc =
    | PeerIdDoc(id: seq<byte>)
    | AuthDoc(kind: ushort, keyData: Key)
    | EnvelopeDoc(kind: ushort, box: Box)
    | FlagDoc(flag: bool)
    | TrackerDoc(pingSentAt: int, pingReceivedAt: int, pongReceivedAt: int)

  /** A JSON codec: any one whose reader inverts its writer, and finds nothing in no text, will do. */
  datatype Json = Json(write: Doc -> seq<byte>, read: seq<byte> -> Option<Doc>)

  ghost predicate Lawful(j: Json) {
    j.read([]) == None && forall d :: j.write(d) != [] && j.read(j.write(d)) == Some(d)
  }

  /** `SecurityKey`'s fields; `local` is the pair held in `LocalRSAKeys`, if any. */
  datatype Keys = Keys(local: Option<nat>, remoteRsa: Key, chacha: Key)

  const NO_KEYS := Keys(None, NoKey, NoKey)

  /** `GetSecurityKey`; `None` is the null dereference of absent local RSA keys. */
  function KeyFor(keys: Keys, kind: ushort, isRemote: bool, isPrivate: bool): Option<Key> {
    if kind == RSA then
      if isRemote then Some(keys.remoteRsa)
      else if keys.local.None? then None
      else Some(if isPrivate then PrivateKey(keys.local.value) else PublicKey(keys.local.value))
    else if kind == CHACHA then Some(keys.chacha)
    else Some(Secret([]))
  }

  // ---------------------------------------------------------------- envelopes

  /** `EncryptUT8Bytes`; `None` is the exception a ChaCha key of the wrong length ends in. */
  function Encrypt(j: Json, data: seq<byte>, key: Key, kind: ushort, nonce: Nonce): Option<seq<byte>> {
    if key == NoKey then Some([])
    else if kind == RSA then
      Some(j.write(EnvelopeDoc(RSA, if key.PublicKey? then RsaBox(key, data) else NoBox)))
    else if kind == CHACHA then
      if Usable(key) then Some(j.write(EnvelopeDoc(CHACHA, ChaChaBox(key, nonce, data)))) else None
    else Some(j.write(EnvelopeDoc(kind, NoBox)))
  }

  /** `Decrypt`; `None` is the null a failed ChaCha decryption gives, where a failed RSA one gives no bytes. */
  function Decrypt(kind: ushort, box: Box, key: Key): Option<seq<byte>> {
    if kind == RSA then
      Some(if box.RsaBox? && key.PrivateKey? && box.pub == PublicKey(key.pair) then box.message else [])
    else if kind == CHACHA then
      if box.ChaChaBox? && Usable(key) && box.key == key then Some(box.message) else None
    else Some([])
  }

  function TryDecrypt(kind: ushort, box: Box, key: Key): Option<seq<byte>> {
    var d := Decrypt(kind, box, key);
    if d.None? || d.value == [] then None else d
  }

  /** `TryDecryptInto`; decoding the null of a failed ChaCha decryption throws. */
  datatype Into = Found(doc: Doc) | NotFound | IntoThrows

  function DecryptInto(j: Json, kind: ushort, box: Box, key: Key): Into {
    match Decrypt(kind, box, key)
    case None => IntoThrows
    case Some(m) =>
      match j.read(m)
      case Some(doc) => Found(doc)
      case None => NotFound
  }

  /** The envelope that offers a ChaCha key to the owner of an RSA pair. */
  function OfferDoc(j: Json, pair: nat, chosen: Key): Doc {
    EnvelopeDoc(RSA, RsaBox(PublicKey(pair), j.write(AuthDoc(CHACHA, chosen))))
  }

  /** The envelope that echoes a ChaCha key under itself. */
  function EchoDoc(j: Json, chosen: Key, nonce: Nonce): Doc {
    EnvelopeDoc(CHACHA, ChaChaBox(chosen, nonce, j.write(AuthDoc(CHACHA, chosen))))
  }

  /** An envelope that echoes `key` under itself, with whatever nonce. */
  predicate EchoOf(j: Json, key: Key, f: AnyFrame) {
    match j.read(f.body)
    case Some(EnvelopeDoc(kind, ChaChaBox(k, _, message))) =>
      kind == CHACHA && k == key && message == j.write(AuthDoc(CHACHA, key))
    case _ => false
  }

  // ---------------------------------------------------------------- sending

  datatype Settings = Settings(enabled: bool, kind: ushort)

  const DEFAULT_SETTINGS := Settings(true, CHACHA)

  /** What a send draws from outside: a nonce, the clock, and whether the transport still accepts bytes. */
  datatype Moment = Moment(nonce: Nonce, now: int64, open: bool)

  datatype Sending = Emitted(f: Frame) | Refused | Faulted {
    function Frames(): seq<Frame> { if Emitted? then [f] else [] }

    /** The count the callers see; -1 when nothing went out. */
    function Count(): int { if Emitted? then HEADER_SIZE + |f.body| else -1 }

    function Caught(): Sending { if Faulted? then Refused else this }
  }

  function Raw(data: seq<byte>, action: ushort, kind: ushort, m: Moment): Sending {
    if m.open && Fits(data) then Emitted(Frame(action, kind, m.now, data)) else Faulted
  }

  function StoredKey(keys: Keys, kind: ushort): Key {
    if kind == RSA then keys.remoteRsa else if kind == CHACHA then keys.chacha else Secret([])
  }

  function Encrypted(j: Json, keys: Keys, data: seq<byte>, kind: ushort, action: ushort, already: bool, m: Moment): Sending {
    if data == [] then Refused
    else if already then Raw(data, action, kind, m)
    else
      var key := StoredKey(keys, kind);
      if HasBytes(key) then
        match Encrypt(j, data, key, kind, m.nonce)
        case None => Faulted
        case Some(d) => Raw(d, action, kind, m)
      else Raw(data, action, NONE, m)
  }

  /** The encryption a request ends up asking for: its own, else the settings', else none. */
  function Effective(settings: Option<Settings>, enabled: bool, kind: ushort): ushort {
    if !enabled then NONE
    else if kind != NONE then kind
    else if settings.Some? && settings.value.enabled then settings.value.kind
    else NONE
  }

  function PacketFor(j: Json, keys: Keys, settings: Option<Settings>, data: seq<byte>, action: ushort,
                      enabled: bool, kind: ushort, m: Moment): Sending
  {
    var e := Effective(settings, enabled, kind);
    (if e != NONE then Encrypted(j, keys, data, e, action, false, m) else Raw(data, action, NONE, m)).Caught()
  }

  /** `TryEncryptSend`: encrypts with the stored key and sends under the encryption's name. */
  function TryEncryptSend(j: Json, keys: Keys, data: seq<byte>, kind: ushort, action: ushort, m: Moment): Sending {
    if kind != RSA && kind != CHACHA then Refused
    else
      match Encrypt(j, data, StoredKey(keys, kind), kind, m.nonce)
      case None => Faulted
      case Some(d) => Encrypted(j, keys, d, kind, action, true, m)
  }

  // ---------------------------------------------------------------- receiving after the handshake

  datatype Dispatch = Delivered(action: ushort, data: seq<byte>) | Dropped | Crashed

  /** The branch both dispatch loops run on a packet. */
  function Opened(j: Json, keys: Keys, f: AnyFrame): Dispatch {
    if f.action == EMPTY then Dropped
    else if f.encryption == NONE then Delivered(f.action, f.body)
    else
      match j.read(f.body)
      case Some(EnvelopeDoc(kind, box)) =>
        (match KeyFor(keys, kind, false, false)
         case None => Crashed
         case Some(key) =>
           match TryDecrypt(kind, box, key)
           case Some(d) => Delivered(f.action, d)
           case None => Dropped)
      case _ => Dropped
  }

  /** The encryption `e` that a request asks for: its own, else that of settings that are there and switched on; none when
      the caller forbids it. */
  predicate Asks(settings: Option<Settings>, enabled: bool, kind: ushort, e: ushort) {
    if e == NONE then
      !enabled || (kind == NONE && (settings == None || !settings.value.enabled || settings.value.kind == NONE))
    else
      enabled && (kind == e || (kind == NONE && settings == Some(Settings(true, e))))
  }

  lemma {:induction false} EffectiveIsAsked(settings: Option<Settings>, enabled: bool, kind: ushort, e: ushort)
    ensures Effective(settings, enabled, kind) == e <==> Asks(settings, enabled, kind, e)
  {
  }

  /** What a send puts on the wire, request by request and key by key. No bytes means nothing went out. */
  lemma {:induction false} SendRule(j: Json, keys: Keys, settings: Option<Settings>, data: seq<byte>, action: ushort,
      enabled: bool, kind: ushort, m: Moment, e: ushort)
    requires Lawful(j) && Asks(settings, enabled, kind, e)
    ensures var out := PacketFor(j, keys, settings, data, action, enabled, kind, m).Frames();
            var key := if e == CHACHA then keys.chacha else if e == RSA then keys.remoteRsa else NoKey;
            if e == NONE then out == Plainly(data, action, m)
            else if data == [] then out == []
            else if key == NoKey || key == Secret([]) then out == Plainly(data, action, m)
            else if e == CHACHA then
              (if key.Secret? && |key.bytes| == 32 then
                 out == Framed(j.write(EnvelopeDoc(CHACHA, ChaChaBox(key, m.nonce, data))), action, CHACHA, m)
               else out == [])
            else
              out == Framed(j.write(EnvelopeDoc(RSA, if key.PublicKey? then RsaBox(key, data) else NoBox)), action, RSA, m)
  {
  }

  /** The count a caller sees: the bytes that went out, or -1. */
  lemma {:induction false} CountIs(s: Sending)
    ensures s.Count() == if s.Frames() == [] then -1 else 18 + |s.Frames()[0].body|
  {
  }

  function Framed(body: seq<byte>, action: ushort, encryption: ushort, m: Moment): seq<Frame> {
    if m.open && 18 + |body| <= 0x7FFF_FFC7 then [Frame(action, encryption, m.now, body)] else []
  }

  function Plainly(data: seq<byte>, action: ushort, m: Moment): seq<Frame> {
    Framed(data, action, NONE, m)
  }

  /** Of the keys an end can ask for, only its own private key opens what was sealed for its pair, and only what it asks
      for as remote seals for the other's. */
  lemma {:induction false} KeyForFits(keys: Keys, isRemote: bool, isPrivate: bool, pair: nat, message: seq<byte>)
    requires !keys.remoteRsa.PrivateKey? && message != []
    ensures var key := KeyFor(keys, RSA, isRemote, isPrivate);
            && (key == None <==> !isRemote && keys.local == None)
            && (key.Some? ==>
                  (TryDecrypt(RSA, RsaBox(PublicKey(pair), message), key.value) == Some(message)
                   <==> !isRemote && isPrivate && keys.local == Some(pair)))
            && (key == Some(PublicKey(pair)) <==>
                  if isRemote then keys.remoteRsa == PublicKey(pair) else !isPrivate && keys.local == Some(pair))
    ensures KeyFor(keys, CHACHA, isRemote, isPrivate) == Some(keys.chacha)
    ensures KeyFor(keys, NONE, isRemote, isPrivate) == Some(Secret([]))
  {
  }

  /** Exactly what a dispatch loop passes on: a plain packet as it is, or the message, if there is one, of a ChaCha
      envelope sealed with its own 32-byte key; an RSA envelope ends the task of an end without a pair. */
  lemma {:induction false} OpenedIff(j: Json, keys: Keys, f: AnyFrame, action: ushort, data: seq<byte>)
    ensures Opened(j, keys, f) == Delivered(action, data)
            <==> action == f.action != EMPTY
                 && if f.encryption == NONE then data == f.body
                    else match j.read(f.body)
                         case Some(EnvelopeDoc(kind, ChaChaBox(key, _, message))) =>
                           kind == CHACHA && key == keys.chacha && key.Secret? && |key.bytes| == 32 && message == data != []
                         case _ => false
    ensures Opened(j, keys, f) == Crashed
            <==> f.action != EMPTY && f.encryption != NONE && keys.local == None
                 && j.read(f.body).Some? && j.read(f.body).value.EnvelopeDoc? && j.read(f.body).value.kind == RSA
  {
  }

  /** A frame's header names the encryption its envelope was made with; a plaintext fallback says NONE. */
  lemma {:induction false} HeaderNamesEnvelope(j: Json, keys: Keys, settings: Option<Settings>, data: seq<byte>,
      action: ushort, enabled: bool, kind: ushort, m: Moment)
    requires Lawful(j)
    ensures var s := PacketFor(j, keys, settings, data, action, enabled, kind, m);
            s.Emitted? ==>
              s.f.action == action
              && (s.f.encryption == NONE <==> !HasBytes(StoredKey(keys, Effective(settings, enabled, kind))))
              && (s.f.encryption == NONE ==> s.f.body == data)
              && (s.f.encryption != NONE ==>
                    j.read(s.f.body).Some? && j.read(s.f.body).value.EnvelopeDoc?
                    && j.read(s.f.body).value.kind == s.f.encryption == Effective(settings, enabled, kind))
  {
    var e := Effective(settings, enabled, kind);
    var key := StoredKey(keys, e);
    var s := PacketFor(j, keys, settings, data, action, enabled, kind, m);
    if s.Emitted? && e != NONE && HasBytes(key) {
      var d := Encrypt(j, data, key, e, m.nonce).value;
      assert s.f.body == d;
    }
  }

  /** A request that ends in this encryption is read by this receiver: it is not RSA under a stored key, and what is
      ChaCha under a stored key meets that key. */
  predicate Carries(sender: Keys, receiver: Keys, effective: ushort) {
    && !(effective == RSA && HasBytes(sender.remoteRsa))
    && (effective == CHACHA && HasBytes(sender.chacha) ==> receiver.chacha == sender.chacha)
  }

  /** Sending is transparent exactly when the receiver reads what the request ends in. */
  lemma {:induction false} SendReceiveTransparent(j: Json, sender: Keys, receiver: Keys, settings: Option<Settings>,
      data: seq<byte>, action: ushort, enabled: bool, kind: ushort, m: Moment)
    requires Lawful(j)
    requires data != [] && action != EMPTY
    requires PacketFor(j, sender, settings, data, action, enabled, kind, m).Emitted?
    ensures var f := PacketFor(j, sender, settings, data, action, enabled, kind, m).f;
            Opened(j, receiver, f) == Delivered(action, data)
            <==> Carries(sender, receiver, Effective(settings, enabled, kind))
  {
    HeaderNamesEnvelope(j, sender, settings, data, action, enabled, kind, m);
    var f := PacketFor(j, sender, settings, data, action, enabled, kind, m).f;
    var e := Effective(settings, enabled, kind);
    if e == CHACHA && HasBytes(sender.chacha) {
      var doc := EnvelopeDoc(CHACHA, ChaChaBox(sender.chacha, m.nonce, data));
      assert f.body == j.write(doc);
      assert j.read(f.body) == Some(doc);
    }
  }

  // ---------------------------------------------------------------- the objects

  /** `GetRSASecurityLevel`: the sizes the enumeration names, and zero for any other. */
  function SecurityLevel(size: int): (level: int)
    ensures level == size || level == 0
    ensures level != 0 <==> size % 1024 == 0 && size / 1024 in {1, 2, 3, 4, 8}
  {
    if size in {1024, 2048, 3072, 4096, 8192} then size else 0
  }

  class SecurityKey {
    var rsaKeySize: int
    var local: Option<nat>
    var remoteRsa: Key
    var chacha: Key

    function View(): Keys
      reads this
    {
      Keys(local, remoteRsa, chacha)
    }

    constructor ()
      ensures View() == NO_KEYS && rsaKeySize == 0
    {
      rsaKeySize, local, remoteRsa, chacha := 0, None, NoKey, NoKey;
    }

    constructor WithPair(size: int, pair: nat)
      ensures View() == Keys(Some(pair), NoKey, NoKey) && rsaKeySize == size
    {
      rsaKeySize, local, remoteRsa, chacha := size, Some(pair), NoKey, NoKey;
    }

    method SetRemoteRsaKey(key: Key)
      modifies this
      ensures View() == old(View()).(remoteRsa := key) && rsaKeySize == old(rsaKeySize)
    {
      remoteRsa := key;
    }

    method UpdateLocalRsaKeys(size: int, pair: nat)
      modifies this
      ensures View() == old(View()).(local := Some(pair)) && rsaKeySize == SecurityLevel(size)
    {
      rsaKeySize := SecurityLevel(size);
      local := Some(pair);
    }

    method SetChaChaKey(key: Key)
      modifies this
      ensures View() == old(View()).(chacha := key) && rsaKeySize == old(rsaKeySize)
    {
      chacha := key;
    }

    /** `TryGetKey` says yes exactly when the selected key has bytes. */
    method TryGetKey(kind: ushort, isRemote: bool, isPrivate: bool) returns (ok: bool, key: Option<Key>)
      ensures key == KeyFor(View(), kind, isRemote, isPrivate)
      ensures ok <==> key.Some? && HasBytes(key.value)
    {
      key := KeyFor(View(), kind, isRemote, isPrivate);
      ok := key.Some? && key.value != NoKey && key.value != Secret([]);
    }
  }

  class PacketHelper {
    const connection: Socket
    const keys: SecurityKey
    var settings: Option<Settings>

    constructor (connection: Socket, keys: SecurityKey)
      ensures this.connection == connection && this.keys == keys && settings == Some(DEFAULT_SETTINGS)
    {
      this.connection, this.keys, settings := connection, keys, Some(DEFAULT_SETTINGS);
    }

    /** `None` is an exception; a count of -1 is a refusal. */
    method SendEncryptedPacket(j: Json, data: seq<byte>, kind: ushort, action: ushort, already: bool, nonce: Nonce, now: int64)
      returns (bytesSent: Option<int>)
      modifies connection
      ensures connection.available == old(connection.available) && connection.open == old(connection.open)
      ensures var s := Encrypted(j, old(keys.View()), data, kind, action, already, Moment(nonce, now, old(connection.open)));
              connection.sent == old(connection.sent) + EncodeAll(s.Frames())
              && bytesSent == if s.Faulted? then None else Some(s.Count())
    {
      if data == [] {
        return Some(-1);
      }
      var body, sentKind := data, kind;
      if !already {
        var key := StoredKey(keys.View(), kind);
        if HasBytes(key) {
          var encrypted := Encrypt(j, data, key, kind, nonce);
          if encrypted.None? {
            return None;
          }
          body := encrypted.value;
        } else {
          sentKind := NONE;
        }
      }
      var r := connection.Send(Some(body), action, sentKind, now);
      bytesSent := if r.Threw? then None else Some(r.n);
      ghost var m := Moment(nonce, now, old(connection.open));
      ghost var s := Encrypted(j, old(keys.View()), data, kind, action, already, m);
      assert s == Raw(body, action, sentKind, m);
      if s.Emitted? {
        assert EncodeAll([s.f]) == EncodeFrame(s.f);
      }
    }

    method SendPacket(j: Json, data: seq<byte>, action: ushort, enabled: bool, kind: ushort, nonce: Nonce, now: int64)
      returns (bytesSent: int)
      modifies connection
      ensures connection.available == old(connection.available) && connection.open == old(connection.open)
      ensures var s := PacketFor(j, old(keys.View()), old(settings), data, action, enabled, kind,
                                          Moment(nonce, now, old(connection.open)));
              connection.sent == old(connection.sent) + EncodeAll(s.Frames()) && bytesSent == s.Count()
    {
      var attempt: Option<int>;
      if enabled && kind != NONE {
        attempt := SendEncryptedPacket(j, data, kind, action, false, nonce, now);
      } else if enabled && settings.Some? && settings.value.enabled && settings.value.kind != NONE {
        attempt := SendEncryptedPacket(j, data, settings.value.kind, action, false, nonce, now);
      } else {
        var r := connection.Send(Some(data), action, NONE, now);
        attempt := if r.Threw? then None else Some(r.n);
        ghost var s := Raw(data, action, NONE, Moment(nonce, now, old(connection.open)));
        if s.Emitted? {
          assert EncodeAll([s.f]) == EncodeFrame(s.f);
        }
      }
      bytesSent := if attempt.None? then -1 else attempt.value;
    }
  }
}
