/** One codec that meets the hypotheses the session theorems put on JSON, so that none of them is about nothing. */
module ReferenceCodec {
  import opened Bytes
  import opened PacketHeader
  import opened Framing
  import opened Packets
  import opened Session
  import opened Sequences
  import TlsV2

  function EncNat(n: nat): seq<byte> {
    seq(n, _ => 1) + [0]
  }

  function EncInt(n: int): seq<byte> {
    if n < 0 then [1] + EncNat(-n) else [0] + EncNat(n)
  }

  function EncBytes(b: seq<byte>): seq<byte> {
    EncNat(|b|) + b
  }

  function EncKey(k: Key): seq<byte> {
    match k
    case NoKey => [0]
    case Secret(b) => [1] + EncBytes(b)
    case PublicKey(n) => [2] + EncNat(n)
    case PrivateKey(n) => [3] + EncNat(n)
  }

  function EncBox(b: Box): seq<byte> {
    match b
    case NoBox => [0]
    case RsaBox(pub, message) => [1] + (EncKey(pub) + EncBytes(message))
    case ChaChaBox(key, nonce, message) => [2] + (EncKey(key) + (Le(nonce, 12) + EncBytes(message)))
  }

  function Write(d: Doc): (b: seq<byte>)
    ensures b != []
  {
    match d
    case PeerIdDoc(id) => [0] + EncBytes(id)
    case AuthDoc(kind, key) => [1] + (Le(kind, 2) + EncKey(key))
    case EnvelopeDoc(kind, box) => [2] + (Le(kind, 2) + EncBox(box))
    case FlagDoc(flag) => [3, if flag then 1 else 0]
    case TrackerDoc(a, b, c) => [4] + (EncInt(a) + (EncInt(b) + EncInt(c)))
  }

  ghost function Reader(b: seq<byte>): Option<Doc> {
    if exists d :: Write(d) == b then
      var d :| Write(d) == b;
      Some(d)
    else None
  }

  // Each encoding says where it ends: what follows it does not matter.

  lemma {:induction false} NatUnique(n: nat, m: nat, s: seq<byte>, t: seq<byte>)
    requires EncNat(n) + s == EncNat(m) + t
    ensures n == m && s == t
  {
    var x, y := EncNat(n) + s, EncNat(m) + t;
    assert x[n] == 0 && y[m] == 0;
    assert forall i :: 0 <= i < n ==> x[i] == 1;
    assert forall i :: 0 <= i < m ==> y[i] == 1;
    assert n == m;
    assert s == x[n + 1..] && t == y[m + 1..];
  }

  lemma {:induction false} BytesUnique(a: seq<byte>, b: seq<byte>, s: seq<byte>, t: seq<byte>)
    requires EncBytes(a) + s == EncBytes(b) + t
    ensures a == b && s == t
  {
    Assoc(EncNat(|a|), a, s);
    Assoc(EncNat(|b|), b, t);
    NatUnique(|a|, |b|, a + s, b + t);
    assert a == (a + s)[..|a|] && b == (b + t)[..|b|];
    assert s == (a + s)[|a|..] && t == (b + t)[|b|..];
  }

  lemma {:induction false} LeUnique(x: nat, y: nat, n: nat, s: seq<byte>, t: seq<byte>)
    requires x < Pow256(n) && y < Pow256(n)
    requires Le(x, n) + s == Le(y, n) + t
    ensures x == y && s == t
  {
    assert Le(x, n) == (Le(x, n) + s)[..n] && Le(y, n) == (Le(y, n) + t)[..n];
    assert s == (Le(x, n) + s)[n..] && t == (Le(y, n) + t)[n..];
    UnLeOfLe(x, n);
    UnLeOfLe(y, n);
  }

  lemma {:induction false} TagUnique(a: byte, b: byte, s: seq<byte>, t: seq<byte>)
    requires [a] + s == [b] + t
    ensures a == b && s == t
  {
    assert ([a] + s)[0] == a && ([b] + t)[0] == b;
    assert s == ([a] + s)[1..] && t == ([b] + t)[1..];
  }

  lemma {:induction false} IntUnique(n: int, m: int, s: seq<byte>, t: seq<byte>)
    requires EncInt(n) + s == EncInt(m) + t
    ensures n == m && s == t
  {
    var a, b := if n < 0 then -n else n, if m < 0 then -m else m;
    var x, y := if n < 0 then 1 else 0, if m < 0 then 1 else 0;
    Assoc([x], EncNat(a), s);
    Assoc([y], EncNat(b), t);
    TagUnique(x, y, EncNat(a) + s, EncNat(b) + t);
    NatUnique(a, b, s, t);
  }

  function KeyTag(k: Key): byte {
    match k case NoKey => 0 case Secret(_) => 1 case PublicKey(_) => 2 case PrivateKey(_) => 3
  }

  function KeyBody(k: Key): seq<byte> {
    match k case NoKey => [] case Secret(b) => EncBytes(b) case PublicKey(n) => EncNat(n) case PrivateKey(n) => EncNat(n)
  }

  lemma {:induction false} KeyUnique(k: Key, l: Key, s: seq<byte>, t: seq<byte>)
    requires EncKey(k) + s == EncKey(l) + t
    ensures k == l && s == t
  {
    assert EncKey(k) == [KeyTag(k)] + KeyBody(k) && EncKey(l) == [KeyTag(l)] + KeyBody(l);
    Assoc([KeyTag(k)], KeyBody(k), s);
    Assoc([KeyTag(l)], KeyBody(l), t);
    TagUnique(KeyTag(k), KeyTag(l), KeyBody(k) + s, KeyBody(l) + t);
    match (k, l)
    case (NoKey, NoKey) => assert [] + s == s && [] + t == t;
    case (Secret(a), Secret(b)) => BytesUnique(a, b, s, t);
    case (PublicKey(n), PublicKey(m)) => NatUnique(n, m, s, t);
    case (PrivateKey(n), PrivateKey(m)) => NatUnique(n, m, s, t);
    case _ =>
  }

  lemma {:induction false} NonceWidth()
    ensures Pow256(12) == 0x1_0000_0000_0000_0000_0000_0000
  {
    Widths();
    assert Pow256(9) == 0x100 * Pow256(8);
    assert Pow256(10) == 0x100 * Pow256(9);
    assert Pow256(11) == 0x100 * Pow256(10);
    assert Pow256(12) == 0x100 * Pow256(11);
  }

  lemma {:induction false} WholeBytes(a: seq<byte>, b: seq<byte>)
    requires EncBytes(a) == EncBytes(b)
    ensures a == b
  {
    assert EncBytes(a) + [] == EncBytes(b) + [];
    BytesUnique(a, b, [], []);
  }

  lemma {:induction false} BoxUnique(a: Box, b: Box)
    requires EncBox(a) == EncBox(b)
    ensures a == b
  {
    assert EncBox(a)[0] == EncBox(b)[0];
    match (a, b)
    case (NoBox, NoBox) =>
    case (RsaBox(k, m), RsaBox(l, n)) =>
      TagUnique(1, 1, EncKey(k) + EncBytes(m), EncKey(l) + EncBytes(n));
      KeyUnique(k, l, EncBytes(m), EncBytes(n));
      WholeBytes(m, n);
    case (ChaChaBox(k, x, m), ChaChaBox(l, y, n)) =>
      NonceWidth();
      TagUnique(2, 2, EncKey(k) + (Le(x, 12) + EncBytes(m)), EncKey(l) + (Le(y, 12) + EncBytes(n)));
      KeyUnique(k, l, Le(x, 12) + EncBytes(m), Le(y, 12) + EncBytes(n));
      LeUnique(x, y, 12, EncBytes(m), EncBytes(n));
      WholeBytes(m, n);
    case _ =>
  }

  lemma {:induction false} WriteUnique(d: Doc, e: Doc)
    requires Write(d) == Write(e)
    ensures d == e
  {
    Widths();
    assert Write(d)[0] == Write(e)[0];
    match (d, e)
    case (PeerIdDoc(a), PeerIdDoc(b)) =>
      TagUnique(0, 0, EncBytes(a), EncBytes(b));
      WholeBytes(a, b);
    case (AuthDoc(x, k), AuthDoc(y, l)) =>
      TagUnique(1, 1, Le(x, 2) + EncKey(k), Le(y, 2) + EncKey(l));
      LeUnique(x, y, 2, EncKey(k), EncKey(l));
      assert EncKey(k) + [] == EncKey(l) + [];
      KeyUnique(k, l, [], []);
    case (EnvelopeDoc(x, a), EnvelopeDoc(y, b)) =>
      TagUnique(2, 2, Le(x, 2) + EncBox(a), Le(y, 2) + EncBox(b));
      LeUnique(x, y, 2, EncBox(a), EncBox(b));
      BoxUnique(a, b);
    case (FlagDoc(f), FlagDoc(g)) =>
      assert Write(d)[1] == Write(e)[1];
    case (TrackerDoc(a, b, c), TrackerDoc(x, y, z)) =>
      TagUnique(4, 4, EncInt(a) + (EncInt(b) + EncInt(c)), EncInt(x) + (EncInt(y) + EncInt(z)));
      IntUnique(a, x, EncInt(b) + EncInt(c), EncInt(y) + EncInt(z));
      IntUnique(b, y, EncInt(c), EncInt(z));
      assert EncInt(c) + [] == EncInt(z) + [];
      IntUnique(c, z, [], []);
    case _ =>
  }

  ghost function Codec(): Json { Json(Write, Reader) }

  lemma {:induction false} CodecLawful()
    ensures Lawful(Codec())
  {
    forall d
      ensures Codec().write(d) != [] && Codec().read(Codec().write(d)) == Some(d)
    {
      var e := Reader(Write(d)).value;
      WriteUnique(d, e);
    }
  }

  /** There is a codec that inverts itself on every document and keeps every handshake body within a frame. */
  lemma {:induction false} HypothesesAreMet()
    ensures exists j ::
              && Lawful(j)
              && (forall id: seq<byte>, pair: nat, secret: seq<byte> ::
                    |id| == 16 && pair <= 1_000_000 && |secret| == 32 ==> Roomy(j, id, pair, Secret(secret)))
              && (forall pair: nat, p: nat, secret: seq<byte> ::
                    pair <= 1_000_000 && p <= 1_000_000 && |secret| == 32 ==> TlsV2.RoomyPass(j, pair, p, secret))
  {
    CodecLawful();
    var j := Codec();
    forall id: seq<byte>, pair: nat, secret: seq<byte> | |id| == 16 && pair <= 1_000_000 && |secret| == 32
      ensures Roomy(j, id, pair, Secret(secret))
    {
    }
    forall pair: nat, p: nat, secret: seq<byte> | pair <= 1_000_000 && p <= 1_000_000 && |secret| == 32
      ensures TlsV2.RoomyPass(j, pair, p, secret)
    {
    }
  }
}
