/** The heartbeat of one connection, driven by clock readings in ticks of 100 ns. */
module HeartBeat {
  import opened Bytes
  import opened PacketHeader
  import opened Framing
  import opened Packets

  const MILLISECOND := 10_000
  const SECOND := 10_000_000
  const TIMEOUT_AFTER := 120 * SECOND
  const COOLDOWN := 10 * SECOND

  datatype Beat = Beat(lastBeatAt: int, lastPulseAt: int, pulseAt: int, firstBeat: bool)

  /** Everything one `TrySendHeartBeat` reads from outside, in the order of the program text: the clock on entry; the two
      reads of the first-beat reset; the stamp of the ping's header; the two reads after a ping; the read of `IsTimeout`;
      the clock on return; whether the ping went out; whether the socket has been shut down. */
  datatype Call = Call(now: int, reset1: int, reset2: int, stamped: int, after1: int, after2: int, checked: int, end: int,
                       sends: bool, shutdown: bool)

  datatype Reply = Reply(sent: bool, isDisconnected: bool)

  /** A non-decreasing clock within one call. */
  predicate Ordered(c: Call) {
    c.now <= c.reset1 <= c.reset2 <= c.stamped <= c.after1 <= c.after2 <= c.end && c.now <= c.checked <= c.end
  }

  predicate Due(b: Beat, now: int) {
    now >= b.lastBeatAt + b.pulseAt && now >= b.lastPulseAt + COOLDOWN
  }

  predicate TimedOut(b: Beat, t: int) {
    !b.firstBeat && t >= b.lastBeatAt + TIMEOUT_AFTER
  }

  function TrySend(b: Beat, c: Call): (Beat, Reply) {
    if Due(b, c.now) then
      var b1 := if b.firstBeat then Beat(c.reset1, c.reset2, b.pulseAt, false) else b;
      if c.sends then (b1.(lastBeatAt := c.after1, lastPulseAt := c.after2), Reply(true, false))
      else (b1, Reply(false, true))
    else (b, Reply(false, c.shutdown || TimedOut(b, c.checked)))
  }

  /** What a call does, on its readings: a ping is due once the interval since the last beat and ten seconds since the last
      pulse are over, and then only its sending decides; otherwise a shutdown, or 120 seconds since the last beat after
      the first one, is a disconnection. A ping that goes out, or the first one due, moves both stamps. */
  lemma {:induction false} TrySendIs(b: Beat, c: Call)
    ensures var (b', r) := TrySend(b, c);
            var due := c.now >= b.lastBeatAt + b.pulseAt && c.now >= b.lastPulseAt + 100_000_000;
            && (r.sent <==> due && c.sends)
            && (r.isDisconnected <==>
                  if due then !c.sends else c.shutdown || (!b.firstBeat && c.checked >= b.lastBeatAt + 1_200_000_000))
            && b'.pulseAt == b.pulseAt && (b'.firstBeat <==> b.firstBeat && !due)
            && (b'.lastBeatAt, b'.lastPulseAt)
               == (if r.sent then (c.after1, c.after2)
                   else if due && b.firstBeat then (c.reset1, c.reset2)
                   else (b.lastBeatAt, b.lastPulseAt))
  {
  }

  function Interval(latency: int): int {
    if latency > 200 * MILLISECOND then 1 * SECOND
    else if latency < 50 * MILLISECOND then 10 * SECOND
    else 5 * SECOND
  }

  /** The slower the link the shorter the interval: a second above 200 ms, ten below 50, five between. */
  lemma {:induction false} IntervalIs(l1: int, l2: int)
    ensures l1 <= l2 ==> Interval(l1) >= Interval(l2)
    ensures Interval(2_000_001) == 10_000_000 && Interval(2_000_000) == Interval(500_000) == 50_000_000
    ensures Interval(499_999) == 100_000_000
    ensures Interval(l1) == 10_000_000 <==> l1 > 2_000_000
    ensures Interval(l1) == 100_000_000 <==> l1 < 500_000
  {
  }

  /** The UTF-8 text `<PING>`. */
  const PING_TEXT: seq<byte> := [60, 80, 73, 78, 71, 62]

  /** The ping a heartbeat sends: under the settings' encryption, as any message of the application. */
  function PingSending(j: Json, keys: Keys, settings: Option<Settings>, m: Moment): Sending {
    PacketFor(j, keys, settings, PING_TEXT, PING, true, NONE, m)
  }

  // ---------------------------------------------------------------- trackers

  /** `DateTime.MinValue`, in ticks since the Unix epoch. */
  const MIN_TIME := -621_355_968_000_000_000

  /** `PingTracker`, in ticks since the Unix epoch. */
  datatype Tracker = Tracker(pingSentAt: int, pingReceivedAt: int, pongReceivedAt: int) {
    function Latency(): int { pongReceivedAt - pingSentAt }

    function Doc(): Doc { TrackerDoc(pingSentAt, pingReceivedAt, pongReceivedAt) }
  }

  /** The tracker a ping is answered with; `FromUnixTimeMilliseconds` throws outside the years 1 to 9999. */
  function Answer(sentAt: int64, now: int): Option<Tracker> {
    if -62_135_596_800_000 <= sentAt <= 253_402_300_799_999 then
      Some(Tracker(sentAt * MILLISECOND, now, MIN_TIME))
    else None
  }

  function PongSending(j: Json, keys: Keys, settings: Option<Settings>, t: Tracker, m: Moment): Sending {
    PacketFor(j, keys, settings, j.write(t.Doc()), PONG, true, NONE, m)
  }

  /** The tracker a pong brings back, completed at `now`. */
  function Returned(j: Json, data: seq<byte>, now: int): Option<Tracker> {
    match j.read(data)
    case Some(TrackerDoc(sentAt, receivedAt, _)) => Some(Tracker(sentAt, receivedAt, now))
    case _ => None
  }

  /** The state once pongs with these latencies have been handled. */
  function Pongs(b: Beat, latencies: seq<int>): Beat {
    if latencies == [] then b else b.(pulseAt := Interval(latencies[|latencies| - 1]))
  }

  /** A ping is answered exactly when its stamp lies in the years 1 to 9999. */
  lemma {:induction false} AnswerIff(sentAt: int64, now: int)
    ensures Answer(sentAt, now)
            == if -62_135_596_800_000 <= sentAt <= 253_402_300_799_999 then
                 Some(Tracker(sentAt * 10_000, now, -621_355_968_000_000_000))
               else None
  {
  }

  /** Pings and pongs are sealed as the settings ask, whenever there is a key for it. */
  lemma {:induction false} BeatsAreSealed(j: Json, keys: Keys, settings: Settings, t: Tracker, m: Moment)
    requires Lawful(j) && settings.enabled && settings.kind == CHACHA && Usable(keys.chacha)
    ensures PingSending(j, keys, Some(settings), m).Frames()
            == Framed(j.write(EnvelopeDoc(CHACHA, ChaChaBox(keys.chacha, m.nonce, [60, 80, 73, 78, 71, 62]))), PING, CHACHA, m)
    ensures PongSending(j, keys, Some(settings), t, m).Frames()
            == Framed(j.write(EnvelopeDoc(CHACHA, ChaChaBox(keys.chacha, m.nonce,
                        j.write(TrackerDoc(t.pingSentAt, t.pingReceivedAt, t.pongReceivedAt))))), PONG, CHACHA, m)
  {
    SendRule(j, keys, Some(settings), PING_TEXT, PING, true, NONE, m, CHACHA);
    SendRule(j, keys, Some(settings), j.write(t.Doc()), PONG, true, NONE, m, CHACHA);
  }

  // ---------------------------------------------------------------- the object

  class HeartBeat {
    var lastBeatAt: int
    var lastPulseAt: int
    var pulseAt: int
    var firstBeat: bool
    var lastLatency: int
    var pingLog: seq<Tracker>

    function View(): Beat
      reads this
    {
      Beat(lastBeatAt, lastPulseAt, pulseAt, firstBeat)
    }

    constructor (t1: int, t2: int)
      ensures View() == Beat(t1, t2, 10 * SECOND, true) && pingLog == []
    {
      lastBeatAt, lastPulseAt, pulseAt, firstBeat := t1, t2, 10 * SECOND, true;
      lastLatency, pingLog := 0, [];
    }

    method IsTimeout(t: int) returns (r: bool)
      ensures r <==> TimedOut(View(), t)
    {
      if firstBeat {
        return false;
      }
      r := t >= lastBeatAt + TIMEOUT_AFTER;
    }

    method SetLastBeat(t1: int, t2: int)
      modifies this
      ensures View() == old(View()).(lastBeatAt := t1, lastPulseAt := t2)
      ensures pingLog == old(pingLog) && lastLatency == old(lastLatency)
    {
      lastBeatAt := t1;
      lastPulseAt := t2;
    }

    /** Sends the ping; `c.after1` and `c.after2` are read only when it went out. */
    method SendPing(j: Json, helper: PacketHelper, c: Call, nonce: Nonce, stamp: int64) returns (r: Reply)
      modifies this, helper.connection
      ensures helper.connection.available == old(helper.connection.available)
      ensures helper.connection.open == old(helper.connection.open)
      ensures pingLog == old(pingLog) && lastLatency == old(lastLatency)
      ensures var m := Moment(nonce, stamp, old(helper.connection.open));
              var s := PingSending(j, old(helper.keys.View()), old(helper.settings), m);
              r == Reply(s.Emitted?, !s.Emitted?)
              && helper.connection.sent == old(helper.connection.sent) + EncodeAll(s.Frames())
              && View() == if s.Emitted? then old(View()).(lastBeatAt := c.after1, lastPulseAt := c.after2) else old(View())
    {
      var bytesSent := helper.SendPacket(j, PING_TEXT, PING, true, NONE, nonce, stamp);
      if bytesSent > 0 {
        SetLastBeat(c.after1, c.after2);
        r := Reply(true, false);
      } else {
        r := Reply(false, true);
      }
    }

    method TrySendHeartBeat(j: Json, helper: PacketHelper, c: Call, nonce: Nonce, stamp: int64) returns (r: Reply)
      modifies this, helper.connection
      ensures helper.connection.available == old(helper.connection.available)
      ensures helper.connection.open == old(helper.connection.open)
      ensures pingLog == old(pingLog) && lastLatency == old(lastLatency)
      ensures var m := Moment(nonce, stamp, old(helper.connection.open));
              var s := PingSending(j, old(helper.keys.View()), old(helper.settings), m);
              (View(), r) == TrySend(old(View()), c.(sends := s.Emitted?))
              && helper.connection.sent
                 == old(helper.connection.sent) + EncodeAll(if Due(old(View()), c.now) then s.Frames() else [])
    {
      if c.now >= lastBeatAt + pulseAt && c.now >= lastPulseAt + COOLDOWN {
        if firstBeat {
          SetLastBeat(c.reset1, c.reset2);
          firstBeat := false;
        }
        r := SendPing(j, helper, c, nonce, stamp);
        return;
      }
      var timeout := IsTimeout(c.checked);
      r := Reply(false, c.shutdown || timeout);
    }

    method UpdateLatency(latency: int)
      modifies this
      ensures View() == old(View()).(pulseAt := Interval(latency))
      ensures lastLatency == latency && pingLog == old(pingLog)
    {
      lastLatency := latency;
      if latency > 200 * MILLISECOND {
        pulseAt := 1 * SECOND;
      } else if latency < 50 * MILLISECOND {
        pulseAt := 10 * SECOND;
      } else {
        pulseAt := 5 * SECOND;
      }
    }

    /** Answers a ping with a tracker, and takes the latency from one a pong brings back. */
    method HandleHeartBeatActions(j: Json, header: Header, data: seq<byte>, helper: PacketHelper, now: int,
                                  nonce: Nonce, stamp: int64) returns (threw: bool)
      modifies this, helper.connection
      ensures helper.connection.available == old(helper.connection.available)
      ensures helper.connection.open == old(helper.connection.open)
      ensures threw <==> header.action == PING && Answer(header.sentAt, now).None?
      ensures var m := Moment(nonce, stamp, old(helper.connection.open));
              helper.connection.sent == old(helper.connection.sent) + EncodeAll(
                if header.action != PING || threw then []
                else PongSending(j, old(helper.keys.View()), old(helper.settings), Answer(header.sentAt, now).value, m).Frames())
      ensures if header.action == PONG && Returned(j, data, now).Some? then
                var t := Returned(j, data, now).value;
                View() == old(View()).(pulseAt := Interval(t.Latency())) && lastLatency == t.Latency()
                && pingLog == old(pingLog) + [t]
              else View() == old(View()) && lastLatency == old(lastLatency) && pingLog == old(pingLog)
    {
      threw := false;
      if header.action == PING {
        var pinger := Answer(header.sentAt, now);
        if pinger.None? {
          return true;
        }
        var _ := helper.SendPacket(j, j.write(pinger.value.Doc()), PONG, true, NONE, nonce, stamp);
      } else if header.action == PONG {
        match j.read(data)
        case Some(TrackerDoc(sentAt, receivedAt, _)) =>
          var ping := Tracker(sentAt, receivedAt, now);
          UpdateLatency(ping.Latency());
          pingLog := pingLog + [ping];
        case _ =>
      }
    }
  }

  // ---------------------------------------------------------------- whole runs

  /** One turn of a connection's loop: the pongs handled since the last heartbeat call, then the call. */
  datatype Turn = Turn(latencies: seq<int>, c: Call)

  function After(b: Beat, t: Turn): Beat { TrySend(Pongs(b, t.latencies), t.c).0 }

  function ReplyTo(b: Beat, t: Turn): Reply { TrySend(Pongs(b, t.latencies), t.c).1 }

  function Replies(b: Beat, turns: seq<Turn>): (rs: seq<Reply>)
    ensures |rs| == |turns|
    decreases |turns|
  {
    if turns == [] then [] else [ReplyTo(b, turns[0])] + Replies(After(b, turns[0]), turns[1..])
  }

  function Final(b: Beat, turns: seq<Turn>): Beat
    decreases |turns|
  {
    if turns == [] then b else Final(After(b, turns[0]), turns[1..])
  }

  /** A clock that never goes back, within the calls and between them. */
  predicate Clocked(from: int, turns: seq<Turn>)
    decreases |turns|
  {
    turns == [] || (from <= turns[0].c.now && Ordered(turns[0].c) && Clocked(turns[0].c.end, turns[1..]))
  }

  predicate Inv(b: Beat) {
    b.lastBeatAt <= b.lastPulseAt && b.pulseAt <= COOLDOWN
  }

  /** Of several pongs the last decides. */
  lemma {:induction false} PongsIs(b: Beat, latencies: seq<int>, last: int)
    ensures Pongs(b, []) == b && Pongs(b, latencies + [last]) == b.(pulseAt := Interval(last))
  {
  }

  lemma {:induction false} AfterKeeps(b: Beat, t: Turn)
    requires Inv(b) && Ordered(t.c)
    ensures Inv(After(b, t))
  {
  }

  /** In every state a run reaches, the cooldown alone decides when a ping is due. */
  lemma {:induction false} CooldownDecides(b: Beat, latencies: seq<int>, now: int)
    requires Inv(b)
    ensures Due(Pongs(b, latencies), now) <==> now >= b.lastPulseAt + COOLDOWN
  {
  }

  /** The adaptive interval is inert: two runs with the same clock readings, send results and shutdowns reply alike,
      whatever pongs each of them handled and when. */
  lemma {:induction false} LatencyIsInert(b1: Beat, b2: Beat, ts1: seq<Turn>, ts2: seq<Turn>, from: int)
    requires Inv(b1) && Inv(b2) && b1.(pulseAt := 0) == b2.(pulseAt := 0)
    requires |ts1| == |ts2| && forall i :: 0 <= i < |ts1| ==> ts1[i].c == ts2[i].c
    requires Clocked(from, ts1)
    ensures Replies(b1, ts1) == Replies(b2, ts2)
    ensures Final(b1, ts1).(pulseAt := 0) == Final(b2, ts2).(pulseAt := 0)
    decreases |ts1|
  {
    if ts1 != [] {
      var t1, t2 := ts1[0], ts2[0];
      assert t1.c == t2.c;
      CooldownDecides(b1, t1.latencies, t1.c.now);
      CooldownDecides(b2, t2.latencies, t2.c.now);
      AfterKeeps(b1, t1);
      assert Ordered(t2.c);
      AfterKeeps(b2, t2);
      LatencyIsInert(After(b1, t1), After(b2, t2), ts1[1..], ts2[1..], t1.c.end);
    }
  }

  // ---------------------------------------------------------------- the ping rate

  /** The stamps of the pings that went out. */
  function PingTimes(b: Beat, turns: seq<Turn>): seq<int>
    decreases |turns|
  {
    if turns == [] then []
    else (if ReplyTo(b, turns[0]).sent then [turns[0].c.stamped] else []) + PingTimes(After(b, turns[0]), turns[1..])
  }

  /** Every element is at least `gap` after the one before it, and the first at or after `from`. */
  predicate Spaced(ps: seq<int>, from: int, gap: int) {
    ps == [] || (ps[0] >= from && Spaced(ps[1..], ps[0] + gap, gap))
  }

  /** So any two are as many gaps apart as their places. */
  lemma {:induction false} SpacedApart(ps: seq<int>, from: int, gap: nat, i: nat, k: nat)
    requires Spaced(ps, from, gap) && i <= k < |ps|
    ensures from <= ps[0] && ps[i] + (k - i) * gap <= ps[k]
  {
    if i > 0 {
      SpacedApart(ps[1..], ps[0] + gap, gap, i - 1, k - 1);
    } else if k > 0 {
      SpacedApart(ps[1..], ps[0] + gap, gap, 0, k - 1);
      assert k * gap == (k - 1) * gap + gap;
    }
  }

  lemma {:induction false} SpacedFromEarlier(ps: seq<int>, from: int, earlier: int, gap: int)
    requires Spaced(ps, from, gap) && earlier <= from
    ensures Spaced(ps, earlier, gap)
  {
  }

  /** A ping that goes out comes a cooldown after the last one, and its own cooldown starts no earlier than its stamp. */
  lemma {:induction false} PulseMoves(b: Beat, t: Turn)
    requires Inv(b) && Ordered(t.c)
    ensures if ReplyTo(b, t).sent then b.lastPulseAt + COOLDOWN <= t.c.stamped <= After(b, t).lastPulseAt
            else b.lastPulseAt <= After(b, t).lastPulseAt
  {
    CooldownDecides(b, t.latencies, t.c.now);
  }

  lemma {:induction false} PingsAreSpaced(b: Beat, turns: seq<Turn>, from: int)
    requires Inv(b) && Clocked(from, turns)
    ensures Spaced(PingTimes(b, turns), b.lastPulseAt + COOLDOWN, COOLDOWN)
    decreases |turns|
  {
    if turns != [] {
      var t := turns[0];
      var b' := After(b, t);
      AfterKeeps(b, t);
      PulseMoves(b, t);
      PingsAreSpaced(b', turns[1..], t.c.end);
      hide After, ReplyTo, Inv;
      var rest := PingTimes(b', turns[1..]);
      if ReplyTo(b, t).sent {
        SpacedFromEarlier(rest, b'.lastPulseAt + COOLDOWN, t.c.stamped + COOLDOWN, COOLDOWN);
        assert ([t.c.stamped] + rest)[1..] == rest;
      } else {
        SpacedFromEarlier(rest, b'.lastPulseAt + COOLDOWN, b.lastPulseAt + COOLDOWN, COOLDOWN);
        assert [] + rest == rest;
      }
    }
  }

  function CountWithin(ps: seq<int>, lo: int, hi: int): nat {
    if ps == [] then 0 else (if lo <= ps[0] <= hi then 1 else 0) + CountWithin(ps[1..], lo, hi)
  }

  lemma {:induction false} NoneWithin(ps: seq<int>, from: int, gap: nat, lo: int, hi: int)
    requires Spaced(ps, from, gap) && hi < from
    ensures CountWithin(ps, lo, hi) == 0
    decreases |ps|
  {
    if ps != [] {
      NoneWithin(ps[1..], ps[0] + gap, gap, lo, hi);
    }
  }

  lemma {:induction false} SpacedCount(ps: seq<int>, from: int, lo: int, hi: int)
    requires Spaced(ps, from, COOLDOWN) && lo <= hi
    ensures CountWithin(ps, lo, hi) <= (hi - lo) / COOLDOWN + 1
    ensures from <= hi && lo <= from ==> CountWithin(ps, lo, hi) <= (hi - from) / COOLDOWN + 1
    decreases |ps|
  {
    if ps != [] {
      var p := ps[0];
      if p > hi {
        NoneWithin(ps[1..], p + COOLDOWN, COOLDOWN, lo, hi);
      } else if p < lo {
        SpacedCount(ps[1..], p + COOLDOWN, lo, hi);
      } else if p + COOLDOWN > hi {
        NoneWithin(ps[1..], p + COOLDOWN, COOLDOWN, lo, hi);
      } else {
        SpacedCount(ps[1..], p + COOLDOWN, lo, hi);
        assert (hi - (p + COOLDOWN)) / COOLDOWN + 1 == (hi - p) / COOLDOWN;
      }
    }
  }

  /** Any `window` ticks hold at most one ping for each whole cooldown in them and one more, under every latency history. */
  lemma {:induction false} PingRate(t1: int, t2: int, turns: seq<Turn>, lo: int, window: nat)
    requires t1 <= t2 && Clocked(t2, turns)
    ensures var pings := PingTimes(Beat(t1, t2, 10 * SECOND, true), turns);
            CountWithin(pings, lo, lo + window) <= window / COOLDOWN + 1
            && (forall i :: 0 <= i < |pings| ==> t2 + 100_000_000 <= pings[i])
            && (forall i, k :: 0 <= i <= k < |pings| ==> pings[i] + (k - i) * 100_000_000 <= pings[k])
  {
    var b := Beat(t1, t2, 10 * SECOND, true);
    PingsAreSpaced(b, turns, t2);
    var pings := PingTimes(b, turns);
    SpacedCount(pings, t2 + COOLDOWN, lo, lo + window);
    forall i, k | 0 <= i <= k < |pings|
      ensures t2 + 100_000_000 <= pings[i] && pings[i] + (k - i) * 100_000_000 <= pings[k]
    {
      SpacedApart(pings, t2 + COOLDOWN, COOLDOWN, i, k);
      SpacedApart(pings, t2 + COOLDOWN, COOLDOWN, 0, i);
    }
  }

  // ---------------------------------------------------------------- what a disconnect means

  /** The two writes of `SetLastBeat` are at most `gap` apart, and `IsTimeout` reads at most `drift` after the call began. */
  predicate Prompt(c: Call, gap: int, drift: int) {
    c.reset2 - c.reset1 <= gap && c.after2 - c.after1 <= gap && c.checked - c.now <= drift
  }

  predicate Tight(b: Beat, gap: int) {
    Inv(b) && (!b.firstBeat ==> b.lastPulseAt - b.lastBeatAt <= gap)
  }

  /** Why a call may say the peer is gone: its ping failed, or the socket was shut down. */
  predicate Explained(b: Beat, t: Turn) {
    (Due(Pongs(b, t.latencies), t.c.now) && !t.c.sends) || t.c.shutdown
  }

  predicate AllExplained(b: Beat, turns: seq<Turn>)
    decreases |turns|
  {
    turns == []
    || ((ReplyTo(b, turns[0]).isDisconnected ==> Explained(b, turns[0]) && !ReplyTo(b, turns[0]).sent)
        && AllExplained(After(b, turns[0]), turns[1..]))
  }

  lemma {:induction false} DisconnectsExplained(b: Beat, turns: seq<Turn>, from: int, gap: int, drift: int)
    requires Tight(b, gap) && Clocked(from, turns)
    requires forall i :: 0 <= i < |turns| ==> Prompt(turns[i].c, gap, drift)
    requires gap + drift <= TIMEOUT_AFTER - COOLDOWN
    ensures AllExplained(b, turns)
    decreases |turns|
  {
    if turns != [] {
      var t := turns[0];
      assert Prompt(t.c, gap, drift);
      CooldownDecides(b, t.latencies, t.c.now);
      DisconnectsExplained(After(b, t), turns[1..], t.c.end, gap, drift);
    }
  }

  /** However long the peer stays silent, a run whose calls are prompt never reports a timeout. */
  lemma {:induction false} SilenceIsNotDetected(t1: int, t2: int, turns: seq<Turn>, gap: int, drift: int)
    requires t1 <= t2 && Clocked(t2, turns)
    requires forall i :: 0 <= i < |turns| ==> Prompt(turns[i].c, gap, drift) && turns[i].c.sends && !turns[i].c.shutdown
    requires gap + drift <= TIMEOUT_AFTER - COOLDOWN
    ensures forall i :: 0 <= i < |turns| ==> !Replies(Beat(t1, t2, 10 * SECOND, true), turns)[i].isDisconnected
  {
    var b := Beat(t1, t2, 10 * SECOND, true);
    DisconnectsExplained(b, turns, t2, gap, drift);
    NoneDisconnected(b, turns);
  }

  lemma {:induction false} NoneDisconnected(b: Beat, turns: seq<Turn>)
    requires AllExplained(b, turns)
    requires forall i :: 0 <= i < |turns| ==> turns[i].c.sends && !turns[i].c.shutdown
    ensures forall i :: 0 <= i < |turns| ==> !Replies(b, turns)[i].isDisconnected
    decreases |turns|
  {
    if turns != [] {
      NoneDisconnected(After(b, turns[0]), turns[1..]);
      var rs := Replies(b, turns);
      forall i | 0 <= i < |turns|
        ensures !rs[i].isDisconnected
      {
        if i > 0 {
          assert rs[i] == Replies(After(b, turns[0]), turns[1..])[i - 1];
        }
      }
    }
  }

  /** The bound is the best there is: one tick more, however split, and a run of two calls reports a timeout although
      its ping went out and nothing was shut down. */
  lemma {:induction false} PromptnessIsNeeded(gap: nat, drift: nat)
    requires gap + drift == TIMEOUT_AFTER - COOLDOWN + 1
    ensures exists turns: seq<Turn> ::
              Clocked(0, turns)
              && (forall i :: 0 <= i < |turns| ==>
                    Prompt(turns[i].c, gap, drift) && turns[i].c.sends && !turns[i].c.shutdown)
              && !AllExplained(Beat(0, 0, 10 * SECOND, true), turns)
  {
    var start := COOLDOWN;
    var done := start + gap;
    var later := done + COOLDOWN - 1;
    var c1 := Call(start, start, start, start, start, done, start, done, true, false);
    var c2 := Call(later, later, later, later, later, later, later + drift, later + drift, true, false);
    var turns := [Turn([], c1), Turn([], c2)];
    var b := Beat(0, 0, 10 * SECOND, true);
    assert turns[1..] == [Turn([], c2)] && turns[1..][1..] == [];
    assert Clocked(start, turns[1..]) && Clocked(0, turns);
    assert After(b, turns[0]) == Beat(start, done, 10 * SECOND, false);
    assert ReplyTo(Beat(start, done, 10 * SECOND, false), turns[1]).isDisconnected;
    assert !AllExplained(Beat(start, done, 10 * SECOND, false), turns[1..]);
  }

  /** The client ends its task on "sent, and disconnected, and not the first beat": no state and no call satisfies it. */
  lemma {:induction false} ClientNeverTimesOut(b: Beat, t: Turn)
    ensures !(ReplyTo(b, t).sent && ReplyTo(b, t).isDisconnected && !After(b, t).firstBeat)
  {
  }

  // ---------------------------------------------------------------- latency

  /** What a dispatch loop hands on of a frame that came in with this action: the header as read, and the data. */
  function Taken(j: Json, keys: Keys, f: Frame, action: ushort): Option<(Header, seq<byte>)> {
    match Opened(j, keys, f)
    case Delivered(a, data) =>
      if a == action then Some((ValidateHeader(PacketHeader.Encode(HeaderOf(f))).value, data)) else None
    case _ => None
  }

  /** One end of a ping: its keys and its settings. */
  datatype Pinger = Pinger(keys: Keys, settings: Option<Settings>)

  /** A ping frame on its way through the responder and back; each end reads its own clock. */
  function RoundTrip(j: Json, origin: Pinger, responder: Pinger, ping: Frame, responderNow: int, pm: Moment, received: int)
    : Option<Tracker>
  {
    match Taken(j, responder.keys, ping, PING)
    case None => None
    case Some((header, _)) =>
      match Answer(header.sentAt, responderNow)
      case None => None
      case Some(t) =>
        var pong := PongSending(j, responder.keys, responder.settings, t, pm);
        if !pong.Emitted? then None
        else
          match Taken(j, origin.keys, pong.f, PONG)
          case None => None
          case Some((_, data)) => Returned(j, data, received)
  }

  /** Whether `to` reads what `from` sends under its settings. */
  predicate Hears(to: Pinger, from: Pinger) {
    Carries(from.keys, to.keys, Effective(from.settings, true, NONE))
  }

  lemma {:induction false} PongComesBack(j: Json, origin: Pinger, responder: Pinger, t: Tracker, pm: Moment, received: int)
    requires Lawful(j) && Hears(origin, responder)
    requires PongSending(j, responder.keys, responder.settings, t, pm).Emitted?
    ensures var pong := PongSending(j, responder.keys, responder.settings, t, pm).f;
            Taken(j, origin.keys, pong, PONG) == Some((HeaderOf(pong), j.write(t.Doc())))
            && Returned(j, j.write(t.Doc()), received) == Some(t.(pongReceivedAt := received))
  {
    var text := j.write(t.Doc());
    SendReceiveTransparent(j, responder.keys, origin.keys, responder.settings, text, PONG, true, NONE, pm);
    var pong := PongSending(j, responder.keys, responder.settings, t, pm).f;
    ValidateInvertsWrite(HeaderOf(pong));
    assert j.read(text) == Some(t.Doc());
  }

  lemma {:induction false} PingArrives(j: Json, origin: Pinger, responder: Pinger, m: Moment)
    requires Lawful(j) && Hears(responder, origin)
    requires PingSending(j, origin.keys, origin.settings, m).Emitted?
    ensures var ping := PingSending(j, origin.keys, origin.settings, m).f;
            Taken(j, responder.keys, ping, PING) == Some((HeaderOf(ping), PING_TEXT)) && ping.sentAt == m.now
  {
    SendReceiveTransparent(j, origin.keys, responder.keys, origin.settings, PING_TEXT, PING, true, NONE, m);
    ValidateInvertsWrite(HeaderOf(PingSending(j, origin.keys, origin.settings, m).f));
  }

  /** Through the ping's frame, the responder's clock, the text of the pong and its frame, whichever way either is
      encrypted: the latency is the originator's own elapsed time, up to the millisecond the stamp was cut to. The
      responder's clock is in the tracker and not in the latency. */
  lemma {:induction false} LatencyIsSkewFree(j: Json, origin: Pinger, responder: Pinger, sent: nat, received: int,
      responderNow: int, m: Moment, pm: Moment)
    requires Lawful(j) && Hears(responder, origin) && Hears(origin, responder)
    requires m.now == sent / MILLISECOND <= 253_402_300_799_999
    requires PingSending(j, origin.keys, origin.settings, m).Emitted?
    requires PongSending(j, responder.keys, responder.settings,
                         Tracker(m.now * MILLISECOND, responderNow, MIN_TIME), pm).Emitted?
    ensures var ping := PingSending(j, origin.keys, origin.settings, m).f;
            var back := RoundTrip(j, origin, responder, ping, responderNow, pm, received);
            && back.Some?
            && back.value.pingReceivedAt == responderNow
            && received - sent <= back.value.Latency() < received - sent + MILLISECOND
            && (sent <= received ==> 0 <= back.value.Latency())
            && (back.value.Latency() == received - sent <==> sent % MILLISECOND == 0)
  {
    PingArrives(j, origin, responder, m);
    PongComesBack(j, origin, responder, Tracker(m.now * MILLISECOND, responderNow, MIN_TIME), pm, received);
    hide Taken, PingSending, PongSending, Returned, Hears, Lawful;
  }
}
