/** The text form of a 16-byte identifier: the hex-and-dash format of section 4 of RFC 9562. */
module GuidText {
  import opened Bytes
  import opened Sequences

  type Guid = b: seq<byte> | |b| == 16 witness [0, 0, 0, 0, 0, 0, 0, 0, 0, 0, 0, 0, 0, 0, 0, 0]

  const ZERO: Guid := [0, 0, 0, 0, 0, 0, 0, 0, 0, 0, 0, 0, 0, 0, 0, 0]

  // ---------------------------------------------------------------- hex digits

  function HexDigit(n: int): (c: char)
    requires 0 <= n < 16
  {
    if n < 10 then '0' + n as char else 'a' + (n - 10) as char
  }

  predicate IsValidHexChar(ch: char) {
    '/' < ch < ':' || '`' < ch < 'g' || '@' < ch < 'G'
  }

  function HexDigitToChar(ch: char): (n: int)
    ensures 0 <= n < 16
  {
    if '/' < ch < ':' then ch as int - 48
    else if '`' < ch < 'g' then ch as int - 87
    else if '@' < ch < 'G' then ch as int - 55
    else 0
  }

  function HexPairToChar(a: char, b: char): byte {
    HexDigitToChar(a) * 16 + HexDigitToChar(b)
  }

  /** The two digits `%02x` prints. */
  function Pair(b: byte): (s: string)
    ensures |s| == 2
  {
    [HexDigit(b / 16), HexDigit(b % 16)]
  }

  function Lower(ch: char): char {
    if '@' < ch < 'G' then ch - 'A' + 'a' else ch
  }

  lemma {:induction false} DigitRoundTrip(n: int)
    requires 0 <= n < 16
    ensures IsValidHexChar(HexDigit(n)) && HexDigitToChar(HexDigit(n)) == n && HexDigit(n) != '-'
  {
  }

  lemma {:induction false} DigitLower(ch: char)
    requires IsValidHexChar(ch)
    ensures HexDigit(HexDigitToChar(ch)) == Lower(ch)
  {
  }

  // ---------------------------------------------------------------- printing

  // The digits, written out: which characters are digits, of what value, what is printed for a value, and in which lower
  // case.

  lemma {:induction false} ValidAre(ch: char)
    ensures IsValidHexChar(ch) <==> ch in "0123456789abcdefABCDEF"
    ensures Lower(ch) == if ch in "ABCDEF" then "0123456789abcdef"[HexDigitToChar(ch)] else ch
  {
  }

  lemma {:induction false} PrintedAre(n: int)
    requires 0 <= n < 16
    ensures HexDigit(n) == "0123456789abcdef"[n]
  {
  }

  lemma {:induction false} ValuesAre(ch: char, n: int)
    requires 0 <= n < 16 && IsValidHexChar(ch)
    ensures HexDigitToChar(ch) == n <==> ch == "0123456789abcdef"[n] || ch == "0123456789ABCDEF"[n]
  {
  }

  lemma {:induction false} NoDigitIsZero(ch: char)
    requires ch !in "0123456789abcdefABCDEF"
    ensures HexDigitToChar(ch) == 0
  {
  }

  /** What one `snprintf` prints of a group of bytes. */
  function Digits(b: seq<byte>): string {
    if b == [] then "" else Pair(b[0]) + Digits(b[1..])
  }

  function Str(g: Guid): string {
    var sep := "-";
    var out := Digits(g[0..4]);
    var out := out + (sep + Digits(g[4..6]));
    var out := out + (sep + Digits(g[6..8]));
    var out := out + (sep + Digits(g[8..10]));
    out + (sep + Digits(g[10..16]))
  }

  /** The stream insertion, two digits at a time. */
  function Inserted(g: Guid): string {
    Pair(g[0]) + Pair(g[1]) + Pair(g[2]) + Pair(g[3]) + "-" + Pair(g[4]) + Pair(g[5]) + "-" + Pair(g[6]) + Pair(g[7])
    + "-" + Pair(g[8]) + Pair(g[9]) + "-" + Pair(g[10]) + Pair(g[11]) + Pair(g[12]) + Pair(g[13]) + Pair(g[14]) + Pair(g[15])
  }

  predicate DashAt(i: nat) {
    i == 4 || i == 6 || i == 8 || i == 10
  }

  function Dash(i: nat): string {
    if DashAt(i) then "-" else ""
  }

  /** The text from byte `i` on: the reference form the two printers are compared with. */
  function TextFrom(g: Guid, i: nat): string
    requires i <= 16
    decreases 16 - i
  {
    if i == 16 then "" else Dash(i) + Pair(g[i]) + TextFrom(g, i + 1)
  }

  lemma {:induction false} Group(g: Guid, i: nat, k: nat)
    requires i < k <= 16
    requires forall n :: i < n < k ==> !DashAt(n)
    ensures TextFrom(g, i) == Dash(i) + Digits(g[i..k]) + TextFrom(g, k)
    decreases k - i
  {
    var p, rest, text := Pair(g[i]), Digits(g[i + 1..k]), TextFrom(g, k);
    assert Digits(g[i..k]) == p + rest by {
      assert g[i..k][1..] == g[i + 1..k];
    }
    if i + 1 == k {
      assert rest == "" && p + rest == p;
    } else {
      Group(g, i + 1, k);
      assert TextFrom(g, i + 1) == rest + text by {
        assert "" + rest == rest;
      }
      Assoc(Dash(i) + p, rest, text);
      Assoc(Dash(i), p, rest);
    }
  }

  lemma {:induction false} FiveGroups(a: string, b: string, c: string, d: string, e: string)
    ensures a + ("-" + b) + ("-" + c) + ("-" + d) + ("-" + e)
            == "" + a + ("-" + b + ("-" + c + ("-" + d + ("-" + e + ""))))
  {
  }

  lemma {:induction false} StrIsText(g: Guid)
    ensures Str(g) == TextFrom(g, 0)
  {
    Group(g, 0, 4);
    Group(g, 4, 6);
    Group(g, 6, 8);
    Group(g, 8, 10);
    Group(g, 10, 16);
    FiveGroups(Digits(g[0..4]), Digits(g[4..6]), Digits(g[6..8]), Digits(g[8..10]), Digits(g[10..16]));
  }

  lemma {:induction false} DigitsTwo(a: byte, b: byte)
    ensures Digits([a, b]) == Pair(a) + Pair(b)
  {
    assert [a, b][1..] == [b] && [b][1..] == [];
    assert Digits([b]) == Pair(b) + "" == Pair(b);
  }

  lemma {:induction false} DigitsFour(a: byte, b: byte, c: byte, d: byte)
    ensures Digits([a, b, c, d]) == Pair(a) + Pair(b) + Pair(c) + Pair(d)
  {
    DigitsTwo(c, d);
    assert [a, b, c, d][1..] == [b, c, d] && [b, c, d][1..] == [c, d];
    assert Digits([b, c, d]) == Pair(b) + (Pair(c) + Pair(d));
  }

  lemma {:induction false} DigitsSix(a: byte, b: byte, c: byte, d: byte, e: byte, f: byte)
    ensures Digits([a, b, c, d, e, f]) == Pair(a) + Pair(b) + Pair(c) + Pair(d) + Pair(e) + Pair(f)
  {
    DigitsFour(c, d, e, f);
    assert [a, b, c, d, e, f][1..] == [b, c, d, e, f] && [b, c, d, e, f][1..] == [c, d, e, f];
    assert Digits([b, c, d, e, f]) == Pair(b) + (Pair(c) + Pair(d) + Pair(e) + Pair(f));
  }

  lemma {:induction false} GlueTwo(out: string, a: string, b: string)
    ensures out + "-" + a + b == out + ("-" + (a + b))
  {
  }

  lemma {:induction false} GlueSix(out: string, a: string, b: string, c: string, d: string, e: string, f: string)
    ensures out + "-" + a + b + c + d + e + f == out + ("-" + (a + b + c + d + e + f))
  {
  }

  /** Both printers write the same text. */
  lemma {:induction false} InsertionIsStr(g: Guid)
    ensures Inserted(g) == Str(g)
  {
    hide Pair, Digits;
    DigitsFour(g[0], g[1], g[2], g[3]);
    assert g[0..4] == [g[0], g[1], g[2], g[3]];
    DigitsTwo(g[4], g[5]);
    assert g[4..6] == [g[4], g[5]];
    DigitsTwo(g[6], g[7]);
    assert g[6..8] == [g[6], g[7]];
    DigitsTwo(g[8], g[9]);
    assert g[8..10] == [g[8], g[9]];
    DigitsSix(g[10], g[11], g[12], g[13], g[14], g[15]);
    assert g[10..16] == [g[10], g[11], g[12], g[13], g[14], g[15]];
    var one := Digits(g[0..4]);
    GlueTwo(one, Pair(g[4]), Pair(g[5]));
    var two := one + ("-" + Digits(g[4..6]));
    GlueTwo(two, Pair(g[6]), Pair(g[7]));
    var three := two + ("-" + Digits(g[6..8]));
    GlueTwo(three, Pair(g[8]), Pair(g[9]));
    var four := three + ("-" + Digits(g[8..10]));
    GlueSix(four, Pair(g[10]), Pair(g[11]), Pair(g[12]), Pair(g[13]), Pair(g[14]), Pair(g[15]));
  }

  /** Where the digits of byte `i` stand: behind the dashes ahead of them. */
  function Place(i: nat): nat {
    2 * i + (if i >= 4 then 1 else 0) + (if i >= 6 then 1 else 0) + (if i >= 8 then 1 else 0) + (if i >= 10 then 1 else 0)
  }

  lemma {:induction false} PlaceNext(i: nat)
    requires 0 < i <= 16
    ensures Place(i) - |Dash(i)| == Place(i - 1) + 2
  {
  }

  lemma {:induction false} Ahead(g: Guid, i: nat) returns (head: string)
    requires i <= 16
    ensures TextFrom(g, 0) == head + TextFrom(g, i) && |head| == Place(i) - |Dash(i)|
  {
    if i == 0 {
      head := "";
      assert "" + TextFrom(g, 0) == TextFrom(g, 0);
    } else {
      var before := Ahead(g, i - 1);
      var own, rest := Dash(i - 1) + Pair(g[i - 1]), TextFrom(g, i);
      assert TextFrom(g, i - 1) == own + rest;
      PlaceNext(i);
      hide Place, Dash, TextFrom;
      head := before + own;
      Assoc(before, own, rest);
    }
  }

  lemma {:induction false} PieceAt(head: string, own: string, rest: string, k: nat)
    requires k < |own|
    ensures (head + (own + rest))[|head| + k] == own[k]
  {
  }

  lemma {:induction false} OwnDigits(dash: string, pair: string)
    requires |pair| == 2
    ensures (dash + pair)[|dash|] == pair[0] && (dash + pair)[|dash| + 1] == pair[1]
    ensures dash == "-" ==> (dash + pair)[0] == '-'
  {
  }

  lemma {:induction false} LengthIs(g: Guid)
    ensures |Str(g)| == 36
  {
    StrIsText(g);
    var all := Ahead(g, 16);
    assert TextFrom(g, 16) == "";
  }

  lemma {:induction false} PieceIs(s: string, head: string, dash: string, pair: string, rest: string)
    requires s == head + (dash + pair + rest) && |pair| == 2
    ensures var at := |head| + |dash|;
            |s| >= at + 2 && s[at] == pair[0] && s[at + 1] == pair[1] && (dash == "-" ==> s[at - 1] == '-')
  {
    OwnDigits(dash, pair);
    PieceAt(head, dash + pair, rest, |dash|);
    PieceAt(head, dash + pair, rest, |dash| + 1);
    if dash == "-" {
      PieceAt(head, dash + pair, rest, 0);
    }
  }

  lemma {:induction false} GroupAt(g: Guid, i: nat)
    requires i < 16
    ensures |Str(g)| == 36 && Place(i) < 35
    ensures Str(g)[Place(i)] == HexDigit(g[i] / 16) && Str(g)[Place(i) + 1] == HexDigit(g[i] % 16)
    ensures DashAt(i) ==> Place(i) > 0 && Str(g)[Place(i) - 1] == '-'
  {
    StrIsText(g);
    LengthIs(g);
    var head := Ahead(g, i);
    var dash, pair, rest := Dash(i), Pair(g[i]), TextFrom(g, i + 1);
    assert TextFrom(g, i) == dash + pair + rest;
    assert pair[0] == HexDigit(g[i] / 16) && pair[1] == HexDigit(g[i] % 16);
    assert DashAt(i) ==> dash == "-";
    assert Place(i) < 35;
    hide TextFrom, Str, Dash, Pair, HexDigit, Place, DashAt;
    PieceIs(Str(g), head, dash, pair, rest);
  }

  /** The text, character by character: 36 of them, dashes in the ninth, fourteenth, nineteenth and twenty-fourth place. */
  lemma {:induction false} StrLayout(g: Guid, i: nat)
    requires i < 16
    ensures var s := Str(g);
            && |s| == 36 && s[8] == s[13] == s[18] == s[23] == '-'
            && s[Place(i)] == "0123456789abcdef"[g[i] / 16] && s[Place(i) + 1] == "0123456789abcdef"[g[i] % 16]
  {
    GroupAt(g, i);
    GroupAt(g, 4);
    GroupAt(g, 6);
    GroupAt(g, 8);
    GroupAt(g, 10);
    PrintedAre(g[i] / 16);
    PrintedAre(g[i] % 16);
    hide Str;
  }

  // ---------------------------------------------------------------- parsing

  function Undash(s: string): string {
    if s == [] then [] else (if s[0] == '-' then [] else [s[0]]) + Undash(s[1..])
  }

  predicate AllHex(d: string) {
    forall i :: 0 <= i < |d| ==> IsValidHexChar(d[i])
  }

  /** Exactly the strings that are 32 hex digits once their dashes are gone. */
  predicate Accepts(s: string) {
    |Undash(s)| == 32 && AllHex(Undash(s))
  }

  function Pairs(d: string): (b: seq<byte>)
    ensures |b| == |d| / 2
  {
    if |d| < 2 then [] else [HexPairToChar(d[0], d[1])] + Pairs(d[2..])
  }

  function Parse(s: string): Guid {
    if Accepts(s) then Pairs(Undash(s)) else ZERO
  }

  lemma {:induction false} UndashConcat(s: string, t: string)
    ensures Undash(s + t) == Undash(s) + Undash(t)
  {
    if s == [] {
      assert s + t == t;
    } else {
      UndashConcat(s[1..], t);
      assert (s + t)[1..] == s[1..] + t;
      Assoc(if s[0] == '-' then [] else [s[0]], Undash(s[1..]), Undash(t));
    }
  }

  lemma {:induction false} UndashChar(ch: char)
    ensures Undash([ch]) == if ch == '-' then "" else [ch]
    ensures Undash("") == ""
  {
    assert [ch][1..] == [];
  }

  lemma {:induction false} PairsSnoc(d: string, a: char, b: char)
    requires |d| % 2 == 0
    ensures Pairs(d + [a, b]) == Pairs(d) + [HexPairToChar(a, b)]
  {
    if d == [] {
      assert d + [a, b] == [a, b];
      assert Pairs([a, b][2..]) == [];
    } else {
      PairsSnoc(d[2..], a, b);
      assert (d + [a, b])[2..] == d[2..] + [a, b];
    }
  }

  /** Where the loop stands at character `i`: `pairs` are the digits already turned into bytes, `held` a digit waiting for
      its partner. */
  ghost predicate Read(s: string, i: nat, pairs: string, held: Option<char>) {
    && i <= |s| && |pairs| % 2 == 0 && |pairs| <= 32 && AllHex(pairs)
    && (held.Some? ==> |pairs| < 32 && IsValidHexChar(held.value))
    && Undash(s) == Digested(pairs, held) + Undash(s[i..])
  }

  function Digested(pairs: string, held: Option<char>): string {
    if held.Some? then pairs + [held.value] else pairs
  }

  lemma {:induction false} ReadNothing(s: string)
    ensures Read(s, 0, [], None) && Pairs([]) == []
  {
    assert s[0..] == s && [] + Undash(s) == Undash(s);
  }

  lemma {:induction false} ReadDash(s: string, i: nat, pairs: string, held: Option<char>)
    requires Read(s, i, pairs, held) && i < |s| && s[i] == '-'
    ensures Read(s, i + 1, pairs, held)
  {
    assert s[i..][1..] == s[i + 1..];
    assert "" + Undash(s[i + 1..]) == Undash(s[i + 1..]);
  }

  /** What the loop has taken once it takes the character at `i`, which is no dash. */
  lemma {:induction false} ReadDigit(s: string, i: nat, pairs: string, held: Option<char>)
    requires Read(s, i, pairs, held) && i < |s| && s[i] != '-'
    ensures Undash(s) == Digested(pairs, held) + [s[i]] + Undash(s[i + 1..])
  {
    assert s[i..][1..] == s[i + 1..];
    Assoc(Digested(pairs, held), [s[i]], Undash(s[i + 1..]));
  }

  /** A character the loop bails out on settles that the string is not accepted. */
  lemma {:induction false} BailOut(s: string, i: nat, pairs: string, held: Option<char>)
    requires Read(s, i, pairs, held) && i < |s| && s[i] != '-'
    requires |pairs| == 32 || !IsValidHexChar(s[i])
    ensures !Accepts(s)
  {
    ReadDigit(s, i, pairs, held);
    assert Undash(s)[|Digested(pairs, held)|] == s[i];
  }

  lemma {:induction false} UndashNothing(s: string)
    ensures Undash(s[|s|..]) == []
  {
  }

  lemma {:induction false} ReadWhole(s: string, pairs: string, held: Option<char>)
    requires Read(s, |s|, pairs, held)
    ensures Undash(s) == Digested(pairs, held)
  {
    UndashNothing(s);
  }

  lemma {:induction false} Judge(u: string, pairs: string, held: Option<char>)
    requires |pairs| % 2 == 0 && |pairs| <= 32 && AllHex(pairs) && (held.Some? ==> |pairs| < 32)
    requires u == Digested(pairs, held)
    ensures |u| == 32 && AllHex(u) <==> |pairs| == 32
    ensures |pairs| == 32 ==> u == pairs
  {
  }

  lemma {:induction false} ReadAll(s: string, pairs: string, held: Option<char>)
    requires Read(s, |s|, pairs, held)
    ensures Accepts(s) <==> |pairs| == 32
    ensures Accepts(s) ==> Undash(s) == pairs
  {
    ReadWhole(s, pairs, held);
    Judge(Undash(s), pairs, held);
  }

  lemma {:induction false} ReadSecond(s: string, i: nat, pairs: string, held: char)
    requires Read(s, i, pairs, Some(held)) && i < |s| && s[i] != '-' && IsValidHexChar(s[i])
    ensures Read(s, i + 1, pairs + [held, s[i]], None)
    ensures Pairs(pairs + [held, s[i]]) == Pairs(pairs) + [HexPairToChar(held, s[i])]
  {
    ReadDigit(s, i, pairs, Some(held));
    PairsSnoc(pairs, held, s[i]);
    assert pairs + [held] + [s[i]] == pairs + [held, s[i]];
  }

  /** The string constructor. The array starts with arbitrary contents, and every byte of it is decided by the string. */
  method FromString(s: string) returns (bytes: array<byte>)
    ensures fresh(bytes) && bytes.Length == 16 && bytes[..] == Parse(s)
  {
    bytes := new byte[16];
    var charOne := '\0';
    var lookingForFirstChar := true;
    var nextByte := 0;
    ghost var pairs: string, held := [], None;
    ReadNothing(s);
    hide Read, Accepts, Undash, Pairs, AllHex, HexPairToChar;
    for i := 0 to |s|
      invariant nextByte <= 16 && Read(s, i, pairs, held) && |pairs| == 2 * nextByte
      invariant bytes[..nextByte] == Pairs(pairs)
      invariant held == if lookingForFirstChar then None else Some(charOne)
    {
      var ch := s[i];
      if ch == '-' {
        ReadDash(s, i, pairs, held);
        continue;
      }
      if nextByte >= 16 || !IsValidHexChar(ch) {
        BailOut(s, i, pairs, held);
        Zeroify(bytes);
        return;
      }
      if lookingForFirstChar {
        ReadDigit(s, i, pairs, held);
        charOne, held := ch, Some(ch);
        lookingForFirstChar := false;
      } else {
        ReadSecond(s, i, pairs, charOne);
        pairs, held := pairs + [charOne, ch], None;
        bytes[nextByte] := HexPairToChar(charOne, ch);
        nextByte := nextByte + 1;
        lookingForFirstChar := true;
      }
    }
    ReadAll(s, pairs, held);
    if nextByte < 16 {
      Zeroify(bytes);
    } else {
      assert bytes[..] == bytes[..16];
    }
  }

  method Zeroify(bytes: array<byte>)
    requires bytes.Length == 16
    modifies bytes
    ensures bytes[..] == ZERO
  {
    forall i | 0 <= i < 16 {
      bytes[i] := 0;
    }
  }

  // ---------------------------------------------------------------- round trips

  lemma {:induction false} DigitsAreHex(b: seq<byte>)
    ensures |Digits(b)| == 2 * |b| && AllHex(Digits(b))
  {
    if b != [] {
      DigitsAreHex(b[1..]);
      DigitRoundTrip(b[0] / 16);
      DigitRoundTrip(b[0] % 16);
    }
  }

  lemma {:induction false} PairsOfDigits(b: seq<byte>)
    ensures Pairs(Digits(b)) == b
  {
    if b != [] {
      PairsOfDigits(b[1..]);
      DigitRoundTrip(b[0] / 16);
      DigitRoundTrip(b[0] % 16);
      assert Digits(b)[2..] == Digits(b[1..]);
      assert [b[0]] + b[1..] == b;
    }
  }

  lemma {:induction false} UndashPair(b: byte, rest: string)
    ensures Undash(Pair(b) + rest) == Pair(b) + Undash(rest)
  {
    DigitRoundTrip(b / 16);
    DigitRoundTrip(b % 16);
    var s := Pair(b) + rest;
    assert s[1..][1..] == rest;
    assert Undash(s[1..]) == [s[1]] + Undash(rest);
  }

  lemma {:induction false} TextDigits(g: Guid, i: nat)
    requires i <= 16
    ensures Undash(TextFrom(g, i)) == Digits(g[i..])
    decreases 16 - i
  {
    if i < 16 {
      TextDigits(g, i + 1);
      var p, rest := Pair(g[i]), TextFrom(g, i + 1);
      UndashPair(g[i], rest);
      assert Digits(g[i..]) == p + Digits(g[i + 1..]) by {
        assert g[i..][1..] == g[i + 1..];
      }
      if DashAt(i) {
        Assoc("-", p, rest);
        assert ("-" + (p + rest))[1..] == p + rest;
        assert "" + Undash(p + rest) == Undash(p + rest);
      } else {
        assert "" + p == p;
      }
    }
  }

  /** Parsing what was printed gives the identifier back. */
  lemma {:induction false} ParseInvertsStr(g: Guid)
    ensures Accepts(Str(g)) && Parse(Str(g)) == g
  {
    StrIsText(g);
    TextDigits(g, 0);
    assert g[0..] == g;
    DigitsAreHex(g);
    PairsOfDigits(g);
  }

  function LowerAll(d: string): string {
    if d == [] then [] else [Lower(d[0])] + LowerAll(d[1..])
  }

  lemma {:induction false} LowerTwo(a: char, b: char, rest: string)
    ensures LowerAll([a, b] + rest) == [Lower(a), Lower(b)] + LowerAll(rest)
  {
    var d := [a, b] + rest;
    assert d[1..][1..] == rest;
    assert LowerAll(d[1..]) == [Lower(b)] + LowerAll(rest);
  }

  lemma {:induction false} PairBack(a: char, b: char)
    requires IsValidHexChar(a) && IsValidHexChar(b)
    ensures Pair(HexPairToChar(a, b)) == [Lower(a), Lower(b)]
  {
    DigitLower(a);
    DigitLower(b);
    var x, y := HexDigitToChar(a), HexDigitToChar(b);
    assert (x * 16 + y) / 16 == x && (x * 16 + y) % 16 == y;
  }

  lemma {:induction false} PairsBack(d: string)
    requires |d| % 2 == 0 && AllHex(d)
    ensures Digits(Pairs(d)) == LowerAll(d)
  {
    if d != [] {
      PairsBack(d[2..]);
      PairBack(d[0], d[1]);
      LowerTwo(d[0], d[1], d[2..]);
      assert d == [d[0], d[1]] + d[2..];
      assert Pairs(d)[1..] == Pairs(d[2..]);
    }
  }

  /** Printing an accepted parse keeps its digits, in lower case. */
  lemma {:induction false} StrOfParse(s: string)
    requires Accepts(s)
    ensures Undash(Str(Parse(s))) == LowerAll(Undash(s))
  {
    StrIsText(Parse(s));
    TextDigits(Parse(s), 0);
    assert Parse(s)[0..] == Parse(s);
    PairsBack(Undash(s));
  }

  lemma {:induction false} LowerAt(d: string, i: nat)
    requires i < |d|
    ensures |LowerAll(d)| == |d| && LowerAll(d)[i] == Lower(d[i])
  {
    LowerLength(d);
    if i > 0 {
      LowerAt(d[1..], i - 1);
    }
  }

  lemma {:induction false} LowerLength(d: string)
    ensures |LowerAll(d)| == |d|
  {
    if d != [] {
      LowerLength(d[1..]);
    }
  }

  lemma {:induction false} LowerHex(d: string)
    ensures AllHex(LowerAll(d)) <==> AllHex(d)
  {
    LowerLength(d);
    forall i | 0 <= i < |d|
      ensures IsValidHexChar(LowerAll(d)[i]) <==> IsValidHexChar(d[i])
    {
      LowerAt(d, i);
    }
  }

  lemma {:induction false} LowerTwice(b: seq<byte>)
    ensures LowerAll(Digits(b)) == Digits(b)
  {
    if b != [] {
      LowerTwice(b[1..]);
      LowerTwo(Pair(b[0])[0], Pair(b[0])[1], Digits(b[1..]));
      assert Pair(b[0]) == [Pair(b[0])[0], Pair(b[0])[1]];
    }
  }

  /** Every way to write an identifier, with capitals or without and with dashes anywhere, is accepted and parsed to it. */
  lemma {:induction false} VariantsParse(t: string, g: Guid)
    requires LowerAll(Undash(t)) == Undash(Str(g))
    ensures Accepts(t) && Parse(t) == g
  {
    StrIsText(g);
    TextDigits(g, 0);
    assert g[0..] == g;
    DigitsAreHex(g);
    LowerHex(Undash(t));
    LowerLength(Undash(t));
    PairsBack(Undash(t));
    PairsOfDigits(g);
    PairsOfDigits(Pairs(Undash(t)));
  }

  /** And nothing else is: the accepted strings are exactly those. */
  lemma {:induction false} AcceptsIff(t: string)
    ensures Accepts(t) <==> exists g: Guid :: LowerAll(Undash(t)) == Undash(Str(g))
    ensures !Accepts(t) ==> Parse(t) == [0, 0, 0, 0, 0, 0, 0, 0, 0, 0, 0, 0, 0, 0, 0, 0]
  {
    if Accepts(t) {
      StrOfParse(t);
      assert LowerAll(Undash(t)) == Undash(Str(Parse(t)));
    }
    if g: Guid :| LowerAll(Undash(t)) == Undash(Str(g)) {
      VariantsParse(t, g);
    }
  }

  /** The bytes an accepted text gives, digit by digit. */
  lemma {:induction false} ParseAt(t: string, i: nat, high: int, low: int)
    requires Accepts(t) && i < 16 && 0 <= high < 16 && 0 <= low < 16
    ensures Parse(t)[i] == 16 * high + low
            <==> var d := Undash(t);
                 && (d[2 * i] == "0123456789abcdef"[high] || d[2 * i] == "0123456789ABCDEF"[high])
                 && (d[2 * i + 1] == "0123456789abcdef"[low] || d[2 * i + 1] == "0123456789ABCDEF"[low])
  {
    var d := Undash(t);
    PairsAt(d, i);
    ValuesAre(d[2 * i], high);
    ValuesAre(d[2 * i + 1], low);
    var x, y := HexDigitToChar(d[2 * i]), HexDigitToChar(d[2 * i + 1]);
    assert 16 * x + y == 16 * high + low <==> x == high && y == low;
    hide Pairs, Undash, HexDigitToChar;
  }

  lemma {:induction false} PairsAt(d: string, i: nat)
    requires 2 * i + 1 < |d|
    ensures Pairs(d)[i] == 16 * HexDigitToChar(d[2 * i]) + HexDigitToChar(d[2 * i + 1])
  {
    if i > 0 {
      PairsAt(d[2..], i - 1);
      assert Pairs(d)[i] == Pairs(d[2..])[i - 1];
    }
  }

  /** Two accepted texts name the same identifier exactly when their digits agree up to case. */
  lemma {:induction false} ParseIdentifies(s: string, t: string)
    requires Accepts(s) && Accepts(t)
    ensures Parse(s) == Parse(t) <==> LowerAll(Undash(s)) == LowerAll(Undash(t))
  {
    PairsBack(Undash(s));
    PairsBack(Undash(t));
    PairsOfDigits(Parse(s));
    PairsOfDigits(Parse(t));
  }

  // ---------------------------------------------------------------- order

  /** `std::array`'s lexicographic order. */
  predicate Less(a: seq<byte>, b: seq<byte>) {
    b != [] && (a == [] || a[0] < b[0] || (a[0] == b[0] && Less(a[1..], b[1..])))
  }

  /** `std::string`'s. */
  predicate TextLess(s: string, t: string) {
    t != [] && (s == [] || s[0] < t[0] || (s[0] == t[0] && TextLess(s[1..], t[1..])))
  }

  /** The first difference decides. */
  lemma {:induction false} LessIff(a: seq<byte>, b: seq<byte>)
    ensures Less(a, b) <==>
              exists k :: 0 <= k <= |a| && k < |b| && a[..k] == b[..k] && (k == |a| || a[k] < b[k])
  {
    if b == [] {
    } else if a == [] {
      assert a[..0] == b[..0];
    } else {
      LessIff(a[1..], b[1..]);
      if a[0] < b[0] {
        assert a[..0] == b[..0];
      }
      if a[0] == b[0] {
        if k :| 0 <= k <= |a[1..]| && k < |b[1..]| && a[1..][..k] == b[1..][..k] && (k == |a[1..]| || a[1..][k] < b[1..][k]) {
          assert a[..k + 1] == [a[0]] + a[1..][..k] && b[..k + 1] == [b[0]] + b[1..][..k];
        }
      }
      if k :| 0 <= k <= |a| && k < |b| && a[..k] == b[..k] && (k == |a| || a[k] < b[k]) {
        if k > 0 {
          assert a[..k][0] == a[0] && b[..k][0] == b[0];
          assert a[1..][..k - 1] == a[..k][1..] && b[1..][..k - 1] == b[..k][1..];
        }
      }
    }
  }

  lemma {:induction false} TextLessIff(s: string, t: string)
    ensures TextLess(s, t) <==>
              exists k :: 0 <= k <= |s| && k < |t| && s[..k] == t[..k] && (k == |s| || s[k] < t[k])
  {
    if t == [] {
    } else if s == [] {
      assert s[..0] == t[..0];
    } else {
      TextLessIff(s[1..], t[1..]);
      if s[0] < t[0] {
        assert s[..0] == t[..0];
      }
      if s[0] == t[0] {
        if k :| 0 <= k <= |s[1..]| && k < |t[1..]| && s[1..][..k] == t[1..][..k] && (k == |s[1..]| || s[1..][k] < t[1..][k]) {
          assert s[..k + 1] == [s[0]] + s[1..][..k] && t[..k + 1] == [t[0]] + t[1..][..k];
        }
      }
      if k :| 0 <= k <= |s| && k < |t| && s[..k] == t[..k] && (k == |s| || s[k] < t[k]) {
        if k > 0 {
          assert s[..k][0] == s[0] && t[..k][0] == t[0];
          assert s[1..][..k - 1] == s[..k][1..] && t[1..][..k - 1] == t[..k][1..];
        }
      }
    }
  }

  lemma {:induction false} PairLess(x: byte, y: byte, s: string, t: string)
    ensures TextLess(Pair(x) + s, Pair(y) + t) <==> x < y || (x == y && TextLess(s, t))
  {
    var p, q := Pair(x) + s, Pair(y) + t;
    assert p[1..][1..] == s && q[1..][1..] == t;
    assert p[0] == HexDigit(x / 16) && q[0] == HexDigit(y / 16);
    assert p[1..][0] == HexDigit(x % 16) && q[1..][0] == HexDigit(y % 16);
  }

  lemma {:induction false} DashLess(s: string, t: string)
    ensures TextLess("-" + s, "-" + t) <==> TextLess(s, t)
  {
    assert ("-" + s)[1..] == s && ("-" + t)[1..] == t;
  }

  lemma {:induction false} TextOrder(a: Guid, b: Guid, i: nat)
    requires i <= 16
    ensures TextLess(TextFrom(a, i), TextFrom(b, i)) <==> Less(a[i..], b[i..])
    decreases 16 - i
  {
    if i < 16 {
      TextOrder(a, b, i + 1);
      var s, t := TextFrom(a, i + 1), TextFrom(b, i + 1);
      PairLess(a[i], b[i], s, t);
      assert Less(a[i..], b[i..]) <==> a[i] < b[i] || (a[i] == b[i] && Less(a[i + 1..], b[i + 1..])) by {
        assert a[i..][1..] == a[i + 1..] && b[i..][1..] == b[i + 1..];
      }
      Assoc("-", Pair(a[i]), s);
      Assoc("-", Pair(b[i]), t);
      DashLess(Pair(a[i]) + s, Pair(b[i]) + t);
      assert "" + Pair(a[i]) == Pair(a[i]) && "" + Pair(b[i]) == Pair(b[i]);
    }
  }

  /** The byte order of identifiers is the alphabetical order of their texts. */
  lemma {:induction false} OrderEmbeds(a: Guid, b: Guid)
    ensures Less(a, b) <==> TextLess(Str(a), Str(b))
  {
    StrIsText(a);
    StrIsText(b);
    TextOrder(a, b, 0);
    assert a[0..] == a && b[0..] == b;
  }
}
