/** The playback queue: voice chunks wait out a delay and are then fed to the playback buffer. */
module AudioQueue {
  import opened Bytes
  import opened Sequences

  /** 1 ms in ticks of 100 ns. */
  const DELAY := 10_000

  /** A queue entry. It is a record: two are equal when they hold the same array (`buffer` tells arrays apart) and the same
      time of arrival. */
  datatype Item = Item(buffer: nat, chunk: seq<byte>, received: int)

  predicate Ripe(item: Item, t: int) {
    t > item.received + DELAY
  }

  function IfRipe(item: Item, t: int): seq<Item> {
    if Ripe(item, t) then [item] else []
  }

  /** The items a scan keeps; each is tested at its own reading of the clock. */
  function Scan(q: seq<Item>, clock: seq<int>): seq<Item>
    requires |q| <= |clock|
  {
    if q == [] then [] else IfRipe(q[0], clock[0]) + Scan(q[1..], clock[1..])
  }

  function RemoveEach(q: seq<Item>, xs: seq<Item>): seq<Item>
    decreases |xs|
  {
    if xs == [] then q else RemoveEach(RemoveFirst(q, xs[0]), xs[1..])
  }

  function Concat(parts: seq<seq<byte>>): seq<byte> {
    if parts == [] then [] else Concat(parts[..|parts| - 1]) + parts[|parts| - 1]
  }

  /** A part alone is itself, and parts in a row are joined in that row. */
  lemma {:induction false} ConcatJoins(a: seq<seq<byte>>, b: seq<seq<byte>>)
    ensures Concat(a + b) == Concat(a) + Concat(b)
    ensures |a| == 1 ==> Concat(a) == a[0]
  {
    if |a| == 1 {
      assert a[..0] == [] && [] + a[0] == a[0];
    }
    if b == [] {
      assert a + b == a && Concat(a) + [] == Concat(a);
    } else {
      var init, last := b[..|b| - 1], b[|b| - 1];
      ConcatJoins(a, init);
      assert (a + b)[..|a + b| - 1] == a + init;
      Assoc(Concat(a), Concat(init), last);
    }
  }

  function Chunks(q: seq<Item>): (parts: seq<seq<byte>>)
    ensures |parts| == |q| && forall i :: 0 <= i < |q| ==> parts[i] == q[i].chunk
  {
    seq(|q|, i requires 0 <= i < |q| => q[i].chunk)
  }

  function BytesOf(q: seq<Item>): seq<byte> { Concat(Chunks(q)) }

  lemma {:induction false} BytesJoin(a: seq<Item>, b: seq<Item>)
    ensures BytesOf(a + b) == BytesOf(a) + BytesOf(b)
  {
    assert Chunks(a + b) == Chunks(a) + Chunks(b);
    ConcatJoins(Chunks(a), Chunks(b));
  }

  datatype Player = Player(queue: seq<Item>, played: seq<Item>)

  function Enqueue(p: Player, buffer: nat, chunk: seq<byte>, now: int): Player {
    if chunk == [] then p else p.(queue := p.queue + [Item(buffer, chunk, now)])
  }

  /** One turn of the background loop: a first scan chooses what to play, a second, over the chosen, what to remove. */
  function Drain(p: Player, first: seq<int>, second: seq<int>): Player
    requires |p.queue| <= |first| <= |second|
  {
    var safe := Scan(p.queue, first);
    ScanLength(p.queue, first);
    Player(RemoveEach(p.queue, Scan(safe, second)), p.played + safe)
  }

  lemma {:induction false} ScanLength(q: seq<Item>, clock: seq<int>)
    requires |q| <= |clock|
    ensures |Scan(q, clock)| <= |q|
  {
    if q != [] {
      ScanLength(q[1..], clock[1..]);
    }
  }

  class Audio {
    var betterQueue: seq<Item>
    var samples: seq<byte>          // everything handed to the playback buffer
    ghost var played: seq<Item>     // the items it came from
    var isRunning: bool

    ghost function View(): Player
      reads this
    {
      Player(betterQueue, played)
    }

    /** Every byte handed over is of the items played, in their order, and none is missing. */
    ghost predicate Fed()
      reads this
    {
      samples == Concat(Chunks(played))
    }

    constructor ()
      ensures View() == Player([], []) && samples == [] && !isRunning && Fed()
    {
      betterQueue, samples, played, isRunning := [], [], [], false;
    }

    method Init()
      modifies this
      ensures isRunning && View() == old(View()) && samples == old(samples) && (old(Fed()) ==> Fed())
    {
      isRunning := true;
    }

    method Stop()
      modifies this
      ensures !isRunning && View() == old(View()) && samples == old(samples) && (old(Fed()) ==> Fed())
    {
      isRunning := false;
    }

    /** Throws before playback has been initialized. */
    method QueueAudio(buffer: nat, chunk: seq<byte>, now: int) returns (threw: bool)
      modifies this
      ensures threw <==> !old(isRunning)
      ensures View() == if threw then old(View()) else Enqueue(old(View()), buffer, chunk, now)
      ensures samples == old(samples) && isRunning == old(isRunning) && (old(Fed()) ==> Fed())
    {
      if !isRunning {
        return true;
      }
      threw := false;
      if |chunk| == 0 {
        return;
      }
      betterQueue := betterQueue + [Item(buffer, chunk, now)];
    }

    /** The removal loop: each chosen item is tested again, at a later reading. */
    method RemovePlayed(safeQueue: seq<Item>, second: seq<int>)
      requires |safeQueue| <= |second|
      modifies this
      ensures View() == Player(RemoveEach(old(betterQueue), Scan(safeQueue, second)), old(played))
      ensures samples == old(samples) && isRunning == old(isRunning)
    {
      ghost var done: seq<Item> := [];
      var n := 0;
      while n < |safeQueue|
        invariant n <= |safeQueue|
        invariant done == Scan(safeQueue[..n], second[..n])
        invariant betterQueue == RemoveEach(old(betterQueue), done)
        invariant samples == old(samples) && played == old(played) && isRunning == old(isRunning)
      {
        var item := safeQueue[n];
        ScanSnoc(safeQueue[..n], item, second[..n], second[n]);
        assert safeQueue[..n + 1] == safeQueue[..n] + [item] && second[..n + 1] == second[..n] + [second[n]];
        if Ripe(item, second[n]) {
          betterQueue := RemoveFirst(betterQueue, item);
          RemoveEachSnoc(old(betterQueue), done, item);
          done := done + [item];
        }
        n := n + 1;
      }
      assert safeQueue[..n] == safeQueue;
      ScanReads(safeQueue, second);
    }

    method ProcessQueueOnce(first: seq<int>, second: seq<int>)
      requires |betterQueue| <= |first| <= |second|
      modifies this
      ensures View() == Drain(old(View()), first, second)
      ensures samples == old(samples) + BytesOf(Scan(old(betterQueue), first)) && isRunning == old(isRunning)
      ensures old(Fed()) ==> Fed()
    {
      var safeQueue := Scan(betterQueue, first);
      ScanLength(betterQueue, first);
      RemovePlayed(safeQueue, second);
      BytesJoin(played, safeQueue);
      samples := samples + Concat(Chunks(safeQueue));
      played := played + safeQueue;
    }
  }

  lemma {:induction false} ScanSnoc(q: seq<Item>, x: Item, clock: seq<int>, t: int)
    requires |q| == |clock|
    ensures Scan(q + [x], clock + [t]) == Scan(q, clock) + if t > x.received + 10_000 then [x] else []
  {
    assert IfRipe(x, t) == if t > x.received + 10_000 then [x] else [];
    hide IfRipe;
    if q == [] {
      assert q + [x] == [x] && clock + [t] == [t];
      assert [x][1..] == [] && [t][1..] == [];
      assert IfRipe(x, t) + [] == [] + IfRipe(x, t);
    } else {
      ScanSnoc(q[1..], x, clock[1..], t);
      assert (q + [x])[1..] == q[1..] + [x] && (clock + [t])[1..] == clock[1..] + [t];
      Assoc(IfRipe(q[0], clock[0]), Scan(q[1..], clock[1..]), IfRipe(x, t));
    }
  }

  /** Readings past the items are not used. */
  lemma {:induction false} ScanReads(q: seq<Item>, clock: seq<int>)
    requires |q| <= |clock|
    ensures Scan(q, clock[..|q|]) == Scan(q, clock)
  {
    if q != [] {
      ScanReads(q[1..], clock[1..]);
      assert clock[..|q|][1..] == clock[1..][..|q[1..]|];
    }
  }

  lemma {:induction false} RemoveEachSnoc(q: seq<Item>, xs: seq<Item>, x: Item)
    ensures RemoveEach(q, xs + [x]) == RemoveFirst(RemoveEach(q, xs), x)
    decreases |xs|
  {
    if xs == [] {
      assert xs + [x] == [x];
      assert [x][1..] == [];
    } else {
      RemoveEachSnoc(RemoveFirst(q, xs[0]), xs[1..], x);
      assert (xs + [x])[1..] == xs[1..] + [x];
    }
  }

  // ---------------------------------------------------------------- conservation

  lemma {:induction false} RemoveEachMultiset(q: seq<Item>, xs: seq<Item>)
    requires multiset(xs) <= multiset(q)
    ensures multiset(RemoveEach(q, xs)) == multiset(q) - multiset(xs)
    decreases |xs|
  {
    if xs != [] {
      assert xs == [xs[0]] + xs[1..];
      assert xs[0] in multiset(xs);
      assert xs[0] in q;
      RemoveFirstMultiset(q, xs[0]);
      RemoveEachMultiset(RemoveFirst(q, xs[0]), xs[1..]);
    }
  }

  lemma {:induction false} ScanMultiset(q: seq<Item>, clock: seq<int>)
    requires |q| <= |clock|
    ensures multiset(Scan(q, clock)) <= multiset(q)
  {
    if q != [] {
      ScanMultiset(q[1..], clock[1..]);
      assert q == [q[0]] + q[1..];
    }
  }

  /** No reading of the second scan is before one of the first. */
  predicate NotBefore(first: seq<int>, second: seq<int>) {
    forall i, k :: 0 <= i < |first| && 0 <= k < |second| ==> first[i] <= second[k]
  }

  /** Everything the first scan chose is still ripe at the second. */
  lemma {:induction false} SecondScanAgrees(q: seq<Item>, first: seq<int>, second: seq<int>)
    requires |q| <= |first| && |Scan(q, first)| <= |second|
    requires NotBefore(first, second)
    ensures Scan(Scan(q, first), second) == Scan(q, first)
    decreases |q|
  {
    if q != [] {
      var rest := Scan(q[1..], first[1..]);
      if Ripe(q[0], first[0]) {
        assert first[0] <= second[0];
        SecondScanAgrees(q[1..], first[1..], second[1..]);
        assert Scan(q, first)[1..] == rest;
      } else {
        assert Scan(q, first) == rest;
        SecondScanAgrees(q[1..], first[1..], second);
      }
    }
  }

  datatype Step = Arrives(buffer: nat, chunk: seq<byte>, now: int) | Drains(first: seq<int>, second: seq<int>)

  predicate Enabled(p: Player, step: Step) {
    step.Drains? ==> |p.queue| <= |step.first| <= |step.second| && NotBefore(step.first, step.second)
  }

  function Next(p: Player, step: Step): Player
    requires Enabled(p, step)
  {
    match step
    case Arrives(buffer, chunk, now) => Enqueue(p, buffer, chunk, now)
    case Drains(first, second) => Drain(p, first, second)
  }

  predicate ValidRun(p: Player, steps: seq<Step>)
    decreases |steps|
  {
    steps == [] || (Enabled(p, steps[0]) && ValidRun(Next(p, steps[0]), steps[1..]))
  }

  function Run(p: Player, steps: seq<Step>): Player
    requires ValidRun(p, steps)
    decreases |steps|
  {
    if steps == [] then p else Run(Next(p, steps[0]), steps[1..])
  }

  /** The non-empty chunks of a run, in the order they arrived. */
  function Arrivals(steps: seq<Step>): seq<Item> {
    if steps == [] then []
    else (if steps[0].Arrives? && steps[0].chunk != [] then [Item(steps[0].buffer, steps[0].chunk, steps[0].now)] else [])
         + Arrivals(steps[1..])
  }

  /** A turn, whatever its readings: it plays what its first scan chooses, and takes from the queue what the second agrees
      to; so a clock that goes back in between leaves items in the queue that have been played. */
  lemma {:induction false} DrainIs(p: Player, first: seq<int>, second: seq<int>)
    requires |p.queue| <= |first| <= |second|
    ensures var p', safe := Drain(p, first, second), Scan(p.queue, first);
            && p'.played == p.played + safe && multiset(safe) <= multiset(p.queue) && |safe| <= |second|
            && multiset(Scan(safe, second)) <= multiset(safe)
            && multiset(p'.queue) == multiset(p.queue) - multiset(Scan(safe, second))
  {
    var safe := Scan(p.queue, first);
    ScanLength(p.queue, first);
    ScanMultiset(p.queue, first);
    ScanMultiset(safe, second);
    RemoveEachMultiset(p.queue, Scan(safe, second));
  }

  lemma {:induction false} DrainConserves(p: Player, first: seq<int>, second: seq<int>)
    requires Enabled(p, Drains(first, second))
    ensures var p' := Drain(p, first, second);
            multiset(p'.played) + multiset(p'.queue) == multiset(p.played) + multiset(p.queue)
  {
    var safe := Scan(p.queue, first);
    ScanLength(p.queue, first);
    SecondScanAgrees(p.queue, first, second);
    ScanMultiset(p.queue, first);
    RemoveEachMultiset(p.queue, safe);
  }

  /** Whatever the readings, each non-empty chunk has been played once or is still queued. */
  lemma {:induction false} Conservation(p: Player, steps: seq<Step>)
    requires ValidRun(p, steps)
    ensures var r := Run(p, steps);
            multiset(r.played) + multiset(r.queue)
            == multiset(p.played) + multiset(p.queue) + multiset(Arrivals(steps))
    decreases |steps|
  {
    if steps != [] {
      var p1 := Next(p, steps[0]);
      Conservation(p1, steps[1..]);
      if steps[0].Drains? {
        DrainConserves(p, steps[0].first, steps[0].second);
        assert Arrivals(steps) == Arrivals(steps[1..]);
      } else if steps[0].chunk != [] {
        var x := Item(steps[0].buffer, steps[0].chunk, steps[0].now);
        assert multiset(p1.queue) == multiset(p.queue) + multiset{x};
        assert multiset(Arrivals(steps)) == multiset{x} + multiset(Arrivals(steps[1..]));
      } else {
        assert Arrivals(steps) == Arrivals(steps[1..]);
      }
    }
  }

  // ---------------------------------------------------------------- order

  /** What has been played, followed by what is queued, is what there was, followed by what arrived, in order. */
  predicate InOrder(p: Player, r: Player, arrivals: seq<Item>) {
    r.played + r.queue == p.played + p.queue + arrivals
  }

  lemma {:induction false} RemovePrefix(q: seq<Item>, xs: seq<Item>)
    requires xs <= q
    ensures xs + RemoveEach(q, xs) == q
    decreases |xs|
  {
    if xs != [] {
      assert RemoveFirst(q, xs[0]) == q[1..];
      RemovePrefix(q[1..], xs[1..]);
      assert xs == [xs[0]] + xs[1..] && q == [q[0]] + q[1..];
    }
  }

  /** Once a turn has played something else than the front, no later turn restores the order. */
  lemma {:induction false} OrderLost(p: Player, r: Player, safe: seq<Item>, arrivals: seq<Item>)
    requires p.played + safe <= r.played && |safe| <= |p.queue| && InOrder(p, r, arrivals)
    ensures safe <= p.queue
  {
    var all, n := r.played + r.queue, |p.played|;
    assert all[n..n + |safe|] == safe;
    assert (p.played + p.queue + arrivals)[n..n + |safe|] == p.queue[..|safe|];
  }

  /** A turn keeps the order exactly when what its first scan chooses is the front of the queue. */
  lemma {:induction false} DrainOrder(p: Player, first: seq<int>, second: seq<int>)
    requires Enabled(p, Drains(first, second))
    ensures InOrder(p, Drain(p, first, second), []) <==> Scan(p.queue, first) <= p.queue
  {
    var p', safe := Drain(p, first, second), Scan(p.queue, first);
    ScanLength(p.queue, first);
    SecondScanAgrees(p.queue, first, second);
    assert p'.played == p.played + safe && p'.queue == RemoveEach(p.queue, safe);
    if safe <= p.queue {
      RemovePrefix(p.queue, safe);
      Assoc(p.played, safe, p'.queue);
      assert p.played + p.queue + [] == p.played + p.queue;
    }
    if InOrder(p, p', []) {
      OrderLost(p, p', safe, []);
    }
  }

  /** Every turn of the run plays the front of its queue. */
  predicate FrontsPlayed(p: Player, steps: seq<Step>)
    requires ValidRun(p, steps)
    decreases |steps|
  {
    steps == []
    || ((steps[0].Drains? ==> Scan(p.queue, steps[0].first) <= p.queue) && FrontsPlayed(Next(p, steps[0]), steps[1..]))
  }

  lemma {:induction false} PlayedGrows(p: Player, steps: seq<Step>)
    requires ValidRun(p, steps)
    ensures p.played <= Run(p, steps).played
    decreases |steps|
  {
    if steps != [] {
      PlayedGrows(Next(p, steps[0]), steps[1..]);
    }
  }

  /** Chunks are played in the order they arrived if and only if every turn plays the front of its queue. */
  lemma {:induction false} OrderKept(p: Player, steps: seq<Step>)
    requires ValidRun(p, steps)
    ensures InOrder(p, Run(p, steps), Arrivals(steps)) <==> FrontsPlayed(p, steps)
    decreases |steps|
  {
    if steps == [] {
      assert p.played + p.queue + [] == p.played + p.queue;
    } else {
      var p1, rest := Next(p, steps[0]), Arrivals(steps[1..]);
      OrderKept(p1, steps[1..]);
      match steps[0]
      case Arrives(buffer, chunk, now) =>
        var added := if chunk != [] then [Item(buffer, chunk, now)] else [];
        assert p1.queue == p.queue + added;
        Assoc(p.played, p.queue, added);
        Assoc(p.played + p.queue, added, rest);
      case Drains(first, second) =>
        var safe := Scan(p.queue, first);
        DrainOrder(p, first, second);
        assert [] + rest == rest && p.played + p.queue + [] == p.played + p.queue;
        if !(safe <= p.queue) && InOrder(p, Run(p, steps), rest) {
          ScanLength(p.queue, first);
          PlayedGrows(p1, steps[1..]);
          OrderLost(p, Run(p, steps), safe, rest);
        }
    }
  }

  /** At the readings of a scan, no item that is still unripe stands ahead of a ripe one. */
  predicate NoneOvertaken(q: seq<Item>, clock: seq<int>)
    requires |q| <= |clock|
  {
    forall i, k :: 0 <= i < k < |q| && Ripe(q[k], clock[k]) ==> Ripe(q[i], clock[i])
  }

  lemma {:induction false} OvertakenTail(q: seq<Item>, clock: seq<int>)
    requires 0 < |q| <= |clock|
    ensures NoneOvertaken(q, clock) <==>
              NoneOvertaken(q[1..], clock[1..])
              && (Ripe(q[0], clock[0]) || forall k :: 1 <= k < |q| ==> !Ripe(q[k], clock[k]))
  {
    var t, c := q[1..], clock[1..];
    assert forall k :: 0 <= k < |t| ==> t[k] == q[k + 1] && c[k] == clock[k + 1];
    if NoneOvertaken(t, c) && (Ripe(q[0], clock[0]) || forall k :: 1 <= k < |q| ==> !Ripe(q[k], clock[k])) {
      forall i, k | 0 <= i < k < |q| && Ripe(q[k], clock[k])
        ensures Ripe(q[i], clock[i])
      {
        assert t[k - 1] == q[k] && c[k - 1] == clock[k];
        if i > 0 {
          assert t[i - 1] == q[i] && c[i - 1] == clock[i];
        }
      }
    }
    if NoneOvertaken(q, clock) {
      forall i, k | 0 <= i < k < |t| && Ripe(t[k], c[k])
        ensures Ripe(t[i], c[i])
      {
        assert Ripe(q[k + 1], clock[k + 1]);
      }
    }
  }

  lemma {:induction false} ScanChooses(q: seq<Item>, clock: seq<int>)
    requires |q| <= |clock|
    ensures Scan(q, clock) == [] <==> forall k :: 0 <= k < |q| ==> !Ripe(q[k], clock[k])
    ensures forall x :: x in Scan(q, clock) ==> x in q
  {
    if q != [] {
      ScanChooses(q[1..], clock[1..]);
      assert forall k :: 1 <= k < |q| ==> q[k] == q[1..][k - 1] && clock[k] == clock[1..][k - 1];
      assert forall k :: 0 <= k < |q[1..]| ==> q[1..][k] == q[k + 1] && clock[1..][k] == clock[k + 1];
    }
  }

  lemma {:induction false} FrontStep(x: Item, chosen: seq<Item>, t: seq<Item>)
    ensures [x] + chosen <= [x] + t <==> chosen <= t
    ensures chosen != [] && chosen <= [x] + t ==> chosen[0] == x
  {
    if [x] + chosen <= [x] + t {
      assert ([x] + chosen)[1..] == chosen && ([x] + t)[1..] == t;
    }
  }

  /** A scan that overtakes nothing chooses the front. */
  lemma {:induction false} ScanIsFront(q: seq<Item>, clock: seq<int>)
    requires |q| <= |clock| && NoneOvertaken(q, clock)
    ensures Scan(q, clock) <= q
  {
    if q != [] {
      var t, c := q[1..], clock[1..];
      OvertakenTail(q, clock);
      ScanIsFront(t, c);
      FrontStep(q[0], Scan(t, c), t);
      assert q == [q[0]] + t;
      if !Ripe(q[0], clock[0]) {
        ScanChooses(q, clock);
      }
      hide NoneOvertaken;
    }
  }

  predicate Apart(q: seq<Item>) {
    forall i, k :: 0 <= i < k < |q| ==> q[i] != q[k]
  }

  lemma {:induction false} ApartTail(q: seq<Item>)
    requires q != [] && Apart(q)
    ensures Apart(q[1..]) && q[0] !in q[1..]
  {
  }

  /** When no item is queued twice, no other scan does. */
  lemma {:induction false} FrontOvertakesNone(q: seq<Item>, clock: seq<int>)
    requires |q| <= |clock| && Scan(q, clock) <= q && Apart(q)
    ensures NoneOvertaken(q, clock)
  {
    hide NoneOvertaken, Apart;
    if q == [] {
      NoneRipe(q, clock);
    } else {
      var t, c := q[1..], clock[1..];
      assert q == [q[0]] + t;
      ApartTail(q);
      FrontStep(q[0], Scan(t, c), t);
      ScanChooses(t, c);
      if Ripe(q[0], clock[0]) {
        FrontOvertakesNone(t, c);
      } else {
        assert Scan(q, clock) == Scan(t, c);
        assert Scan(t, c) == [];
        NoneRipe(t, c);
      }
      assert forall k :: 1 <= k < |q| ==> q[k] == t[k - 1] && clock[k] == c[k - 1];
      OvertakenTail(q, clock);
    }
  }

  lemma {:induction false} NoneRipe(q: seq<Item>, clock: seq<int>)
    requires |q| <= |clock| && forall k :: 0 <= k < |q| ==> !Ripe(q[k], clock[k])
    ensures NoneOvertaken(q, clock)
  {
  }

  /** No item is queued twice, now or later: the same array never arrives twice at the same time. */
  ghost predicate Once(q: seq<Item>, arrivals: seq<Item>) {
    forall x :: multiset(q)[x] + multiset(arrivals)[x] <= 1
  }

  /** No scan of the run overtakes. */
  predicate NeverOvertakes(p: Player, steps: seq<Step>)
    requires ValidRun(p, steps)
    decreases |steps|
  {
    steps == []
    || ((steps[0].Drains? ==> NoneOvertaken(p.queue, steps[0].first)) && NeverOvertakes(Next(p, steps[0]), steps[1..]))
  }

  lemma {:induction false} OnceApart(q: seq<Item>, arrivals: seq<Item>)
    requires Once(q, arrivals)
    ensures Apart(q)
  {
    forall i, k | 0 <= i < k < |q|
      ensures q[i] != q[k]
    {
      assert q == q[..k] + q[k..];
      assert q[k] in q[k..];
      assert multiset(q)[q[k]] == multiset(q[..k])[q[k]] + multiset(q[k..])[q[k]];
      assert q[k] !in multiset(q[..k]);
      assert q[i] == q[..k][i];
    }
  }

  lemma {:induction false} OnceNext(p: Player, steps: seq<Step>)
    requires steps != [] && Enabled(p, steps[0]) && Once(p.queue, Arrivals(steps))
    ensures Once(Next(p, steps[0]).queue, Arrivals(steps[1..]))
  {
    match steps[0]
    case Arrives(buffer, chunk, now) =>
      if chunk == [] {
        assert Arrivals(steps) == Arrivals(steps[1..]);
      }
    case Drains(first, second) =>
      assert Arrivals(steps) == Arrivals(steps[1..]);
      ScanLength(p.queue, first);
      SecondScanAgrees(p.queue, first, second);
      ScanMultiset(p.queue, first);
      RemoveEachMultiset(p.queue, Scan(p.queue, first));
  }

  lemma {:induction false} FrontsAreReadings(p: Player, steps: seq<Step>)
    requires ValidRun(p, steps)
    ensures NeverOvertakes(p, steps) ==> FrontsPlayed(p, steps)
    ensures Once(p.queue, Arrivals(steps)) && FrontsPlayed(p, steps) ==> NeverOvertakes(p, steps)
    decreases |steps|
  {
    if steps != [] {
      FrontsAreReadings(Next(p, steps[0]), steps[1..]);
      if steps[0].Drains? {
        if NoneOvertaken(p.queue, steps[0].first) {
          ScanIsFront(p.queue, steps[0].first);
        }
      }
      if Once(p.queue, Arrivals(steps)) {
        OnceNext(p, steps);
        OnceApart(p.queue, Arrivals(steps));
        if steps[0].Drains? && Scan(p.queue, steps[0].first) <= p.queue {
          FrontOvertakesNone(p.queue, steps[0].first);
        }
      }
    }
  }

  /** The order is kept if and only if no scan's readings leave an unripe item ahead of a ripe one. */
  lemma {:induction false} OrderKeptExactly(p: Player, steps: seq<Step>)
    requires ValidRun(p, steps) && Once(p.queue, Arrivals(steps))
    ensures InOrder(p, Run(p, steps), Arrivals(steps)) <==> NeverOvertakes(p, steps)
  {
    OrderKept(p, steps);
    FrontsAreReadings(p, steps);
  }

  /** Then the bytes too: those of what was played, then those queued, are those there were and those that arrived. */
  lemma {:induction false} BytesInOrder(p: Player, r: Player, arrivals: seq<Item>)
    requires InOrder(p, r, arrivals)
    ensures BytesOf(r.played) + BytesOf(r.queue) == BytesOf(p.played) + BytesOf(p.queue) + BytesOf(arrivals)
  {
    BytesJoin(r.played, r.queue);
    BytesJoin(p.played, p.queue);
    BytesJoin(p.played + p.queue, arrivals);
  }

  /** One clock value for the whole first scan. */
  predicate OneReading(first: seq<int>, t: int) {
    forall i :: 0 <= i < |first| ==> first[i] == t
  }

  predicate UpTo(q: seq<Item>, now: int) {
    (forall i, k :: 0 <= i < k < |q| ==> q[i].received <= q[k].received)
    && forall i :: 0 <= i < |q| ==> q[i].received <= now
  }

  /** The clock of the arrivals never goes back, and each turn reads it once for its first scan. */
  predicate Steady(from: int, steps: seq<Step>)
    decreases |steps|
  {
    steps == []
    || (match steps[0]
        case Arrives(_, _, now) => from <= now && Steady(now, steps[1..])
        case Drains(first, _) => (first == [] || OneReading(first, first[0])) && Steady(from, steps[1..]))
  }

  lemma {:induction false} OneReadingFront(q: seq<Item>, first: seq<int>, from: int)
    requires |q| <= |first| && UpTo(q, from) && (first == [] || OneReading(first, first[0]))
    ensures Scan(q, first) <= q
  {
    assert NoneOvertaken(q, first);
    ScanIsFront(q, first);
  }

  lemma {:induction false} DrainSuffix(p: Player, first: seq<int>, second: seq<int>)
    requires Enabled(p, Drains(first, second)) && Scan(p.queue, first) <= p.queue
    ensures Drain(p, first, second).queue == p.queue[|Scan(p.queue, first)|..]
  {
    ScanLength(p.queue, first);
    SecondScanAgrees(p.queue, first, second);
    RemovePrefix(p.queue, Scan(p.queue, first));
  }

  lemma {:induction false} SteadyFronts(p: Player, steps: seq<Step>, from: int)
    requires ValidRun(p, steps) && Steady(from, steps) && UpTo(p.queue, from)
    ensures FrontsPlayed(p, steps)
    decreases |steps|
  {
    if steps != [] {
      var p1 := Next(p, steps[0]);
      match steps[0]
      case Arrives(_, _, now) =>
        SteadyFronts(p1, steps[1..], now);
      case Drains(first, second) =>
        OneReadingFront(p.queue, first, from);
        DrainSuffix(p, first, second);
        hide Drain, NotBefore, OneReading;
        SteadyFronts(p1, steps[1..], from);
    }
  }

  /** With one clock value a scan, chunks are played in the order they arrived. */
  lemma {:induction false} PlayedInOrder(p: Player, steps: seq<Step>, from: int)
    requires ValidRun(p, steps) && Steady(from, steps) && UpTo(p.queue, from)
    ensures InOrder(p, Run(p, steps), Arrivals(steps))
    ensures var r := Run(p, steps);
            BytesOf(r.played) + BytesOf(r.queue) == BytesOf(p.played) + BytesOf(p.queue) + BytesOf(Arrivals(steps))
  {
    SteadyFronts(p, steps, from);
    OrderKept(p, steps);
    BytesInOrder(p, Run(p, steps), Arrivals(steps));
  }

  /** A clock that crosses the delay in the middle of a scan: the second of two chunks that arrived together is played and
      the first is left for the next turn. */
  lemma {:induction false} ScanCanReorder(a: Item, b: Item)
    requires a != b && a.received == b.received
    ensures var p := Player([a, b], []);
            var t := a.received + 10_000;
            var turn := Drains([t, t + 1], [t + 1, t + 1]);
            Enabled(p, turn) && Next(p, turn) == Player([a], [b]) && !InOrder(p, Next(p, turn), [])
  {
    var p, t := Player([a, b], []), a.received + DELAY;
    assert p.queue[1..] == [b] && [t, t + 1][1..] == [t + 1] && [b][1..] == [];
    var safe := Scan(p.queue, [t, t + 1]);
    assert Scan([b], [t + 1]) == [b] + [];
    assert safe == [b];
    assert Scan(safe, [t + 1, t + 1]) == [b] + [];
    assert RemoveFirst([b], b) == [];
    assert RemoveFirst(p.queue, b) == [a] + [];
    assert RemoveEach(p.queue, [b]) == [a];
    assert ([b] + [a])[0] == b;
  }

  // ---------------------------------------------------------------- chunked playback

  /** Feeds a recording in pieces of at most 1024 bytes: none is empty, all but the last are full, and together they are
      the recording. */
  method PlayAudio(audioBytes: seq<byte>) returns (fed: seq<seq<byte>>)
    ensures Concat(fed) == audioBytes
    ensures forall i :: 0 <= i < |fed| ==> 0 < |fed[i]| <= 1024
    ensures forall i :: 0 <= i < |fed| - 1 ==> |fed[i]| == 1024
  {
    fed := [];
    var chunkSize := 1024;
    var offset := 0;
    while offset < |audioBytes|
      invariant offset <= |audioBytes| && Concat(fed) == audioBytes[..offset]
      invariant forall i :: 0 <= i < |fed| ==> 0 < |fed[i]| <= 1024
      invariant offset < |audioBytes| ==> forall i :: 0 <= i < |fed| ==> |fed[i]| == 1024
      invariant forall i :: 0 <= i < |fed| - 1 ==> |fed[i]| == 1024
    {
      var bytesToWrite := if chunkSize < |audioBytes| - offset then chunkSize else |audioBytes| - offset;
      var part := audioBytes[offset..offset + bytesToWrite];
      assert (fed + [part])[..|fed|] == fed;
      assert audioBytes[..offset] + part == audioBytes[..offset + bytesToWrite];
      fed := fed + [part];
      offset := offset + bytesToWrite;
    }
    assert audioBytes[..offset] == audioBytes;
  }
}
