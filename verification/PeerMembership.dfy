/** Which peers a node holds: multicast joins and registrations add them, timed-out connections remove them. */
module PeerMembership {
  import opened Bytes
  import opened Sequences

  /** An entry of `ConnectedPeers`: the object, told apart by reference, the id it carries, and whether it has the packet
      helper of a server-side connection. */
  datatype Entry = Entry(ref: nat, peerId: nat, hasHelper: bool)

  /** A client of the node's server: the handle, told apart by reference, and its id. */
  datatype Handle = Handle(ref: nat, id: nat)

  /** `new Guid()`, the id a handle starts with. */
  const EMPTY_ID: nat := 0

  function IdOf(e: Entry): nat { e.peerId }

  function HandleId(h: Handle): nat { h.id }

  datatype Mode = ServerMode | PeerMode

  /** `Distinct()` on references. */
  function Distinct(es: seq<Entry>): seq<Entry> {
    if es == [] then []
    else
      var rest := Distinct(es[..|es| - 1]);
      if es[|es| - 1] in es[..|es| - 1] then rest else rest + [es[|es| - 1]]
  }

  predicate Knows(es: seq<Entry>, id: nat) {
    exists i :: 0 <= i < |es| && es[i].peerId == id
  }

  lemma {:induction false} KnowsBag(es: seq<Entry>, id: nat)
    ensures Knows(es, id) <==> id in Bag(es, IdOf)
  {
    BagHolds(es, id, IdOf);
    if Knows(es, id) {
      var i :| 0 <= i < |es| && es[i].peerId == id;
      assert es[i] in es && IdOf(es[i]) == id;
    }
    if id in Bag(es, IdOf) {
      var e :| e in es && IdOf(e) == id;
      assert exists i :: 0 <= i < |es| && es[i] == e;
    }
  }

  predicate Serves(hs: seq<Handle>, id: nat) {
    exists i :: 0 <= i < |hs| && hs[i].id == id
  }

  lemma {:induction false} ServesBag(hs: seq<Handle>, id: nat)
    ensures Serves(hs, id) <==> id in Bag(hs, HandleId)
  {
    BagHolds(hs, id, HandleId);
    if Serves(hs, id) {
      var i :| 0 <= i < |hs| && hs[i].id == id;
      assert hs[i] in hs && HandleId(hs[i]) == id;
    }
    if id in Bag(hs, HandleId) {
      var h :| h in hs && HandleId(h) == id;
      assert exists i :: 0 <= i < |hs| && hs[i] == h;
    }
  }

  // ---------------------------------------------------------------- joins

  /** What became of the address and the connection attempt of a Join packet. A port that is missing, no number or out of
      range is an exception. */
  datatype Attempt = Malformed | NotConnected | Connected(ref: nat)

  /** How the packet was taken: `Announced` with the peers shared with the new one in a `PeerJoin`. */
  datatype Taken = AlreadyKnown | Threw | Unreached | Announced(shared: seq<Entry>)

  function Join(self: nat, es: seq<Entry>, sender: nat, attempt: Attempt): seq<Entry> {
    var unique := Distinct(es);
    if Knows(unique, sender) || self == sender then unique
    else if attempt.Connected? then unique + [Entry(attempt.ref, sender, false)]
    else unique
  }

  function TakenAs(self: nat, es: seq<Entry>, sender: nat, attempt: Attempt): Taken {
    var unique := Distinct(es);
    if Knows(unique, sender) || self == sender then AlreadyKnown
    else
      match attempt
      case Malformed => Threw
      case NotConnected => Unreached
      case Connected(_) => Announced(unique)
  }

  /** How a join is taken, for a table with distinct ids: known senders and the node itself are not looked at, a malformed
      address throws, and a sender that connects, and only such a one, is told of everybody there was and then added. */
  lemma {:induction false} TakenIs(self: nat, es: seq<Entry>, sender: nat, attempt: Attempt)
    requires Inv(self, es)
    ensures var taken := TakenAs(self, es, sender, attempt);
            var looked := !Knows(es, sender) && sender != self;
            && (taken == AlreadyKnown <==> !looked)
            && (taken == Threw <==> looked && attempt == Malformed)
            && (taken == Unreached <==> looked && attempt == NotConnected)
            && (taken == Announced(es) <==> looked && attempt.Connected?)
            && (Join(self, es, sender, attempt) != es <==> taken.Announced?)
            && (taken.Announced? ==> Join(self, es, sender, attempt) == es + [Entry(attempt.ref, sender, false)])
  {
    DistinctIsIdle(es);
  }

  /** `Distinct()` keeps of every entry its first occurrence, in order. */
  lemma {:induction false} DistinctIs(es: seq<Entry>, n: nat)
    requires n <= |es|
    ensures var d := Distinct(es);
            && (forall i, k :: 0 <= i < k < |d| ==> d[i] != d[k])
            && (forall e :: e in d <==> e in es)
            && Distinct(es[..n]) <= d
  {
    if es != [] {
      var init := es[..|es| - 1];
      assert es == init + [es[|es| - 1]];
      DistinctIs(init, if n < |es| then n else |init|);
      if n < |es| {
        assert init[..n] == es[..n];
      } else {
        assert es[..n] == es;
      }
    }
  }

  // ---------------------------------------------------------------- timeouts

  datatype Table = Table(peers: seq<Entry>, clients: seq<Handle>)

  /** The server takes a connection. */
  function Connect(t: Table, ref: nat): Table {
    t.(clients := t.clients + [Handle(ref, EMPTY_ID)])
  }

  /** The handle's id, wherever the handle is listed. */
  function Named(hs: seq<Handle>, ref: nat, id: nat): seq<Handle> {
    if hs == [] then [] else [if hs[0].ref == ref then Handle(ref, id) else hs[0]] + Named(hs[1..], ref, id)
  }

  /** `AddPeer`: names the connection's handle, and appends an entry and the handle with no test for either. */
  function Register(t: Table, ref: nat, entry: nat, id: nat): Table {
    Table(t.peers + [Entry(entry, id, true)], Named(t.clients, ref, id) + [Handle(ref, id)])
  }

  lemma {:induction false} NamedAt(hs: seq<Handle>, ref: nat, id: nat, i: nat)
    requires i < |hs|
    ensures |Named(hs, ref, id)| == |hs|
    ensures Named(hs, ref, id)[i] == if hs[i].ref == ref then Handle(ref, id) else hs[i]
  {
    NamedLength(hs, ref, id);
    if i > 0 {
      NamedAt(hs[1..], ref, id, i - 1);
    }
  }

  lemma {:induction false} NamedLength(hs: seq<Handle>, ref: nat, id: nat)
    ensures |Named(hs, ref, id)| == |hs|
  {
    if hs != [] {
      NamedLength(hs[1..], ref, id);
    }
  }

  /** A registration appends an entry with the id and a packet helper, names that connection's handle and no other, and
      lists it once more; a connection appends a handle with the empty id. */
  lemma {:induction false} RegisterIs(t: Table, ref: nat, entry: nat, id: nat)
    ensures var t' := Register(t, ref, entry, id);
            && t'.peers == t.peers + [Entry(entry, id, true)]
            && |t'.clients| == |t.clients| + 1 && t'.clients[|t.clients|] == Handle(ref, id)
            && forall i :: 0 <= i < |t.clients| ==>
                 t'.clients[i] == if t.clients[i].ref == ref then Handle(ref, id) else t.clients[i]
    ensures Connect(t, ref) == Table(t.peers, t.clients + [Handle(ref, 0)])
  {
    NamedLength(t.clients, ref, id);
    forall i | 0 <= i < |t.clients|
      ensures Named(t.clients, ref, id)[i] == if t.clients[i].ref == ref then Handle(ref, id) else t.clients[i]
    {
      NamedAt(t.clients, ref, id, i);
    }
  }

  function OperationMode(es: seq<Entry>): Mode {
    if |es| == 0 then ServerMode else PeerMode
  }

  /** The entry and the handle of an id, if there are both. */
  function FindPeerById(t: Table, id: nat): (r: Option<(Handle, Entry)>)
    ensures r.Some? <==> Knows(t.peers, id) && Serves(t.clients, id)
    ensures r.Some? ==>
              r.value.0 in t.clients && r.value.1 in t.peers && r.value.0.id == id == r.value.1.peerId
              && exists i :: 0 <= i < |t.peers| && t.peers[i] == r.value.1
                             && forall k :: 0 <= k < i ==> t.peers[k].peerId != id
  {
    var peer := Find(t.peers, (e: Entry) => e.peerId == id);
    var client := Find(t.clients, (h: Handle) => h.id == id);
    if peer.Some? && client.Some? then Some((client.value, peer.value)) else None
  }

  /** The peers told of a departure: each in order, up to the first that has no packet helper, which throws. */
  function Told(es: seq<Entry>): seq<Entry> {
    if es == [] || !es[0].hasHelper then [] else [es[0]] + Told(es[1..])
  }

  datatype Departure = Departure(table: Table, told: seq<Entry>, threw: bool)

  /** The removal a timed-out connection ends in; the server looks for its client's id, the client for its own. */
  function TimeOut(t: Table, id: nat): Departure {
    if OperationMode(t.peers) == PeerMode then
      match FindPeerById(t, id)
      case Some((h, e)) =>
        var rest := RemoveFirst(t.peers, e);
        Departure(Table(rest, RemoveFirst(t.clients, h)), Told(rest), Told(rest) != rest)
      case None => Departure(t, [], false)
    else Departure(t, [], false)
  }

  // ---------------------------------------------------------------- the object

  class Peer {
    const peerId: nat
    var connectedPeers: seq<Entry>
    var clients: seq<Handle>

    function View(): Table
      reads this
    {
      Table(connectedPeers, clients)
    }

    constructor (peerId: nat)
      ensures this.peerId == peerId && View() == Table([], [])
    {
      this.peerId, connectedPeers, clients := peerId, [], [];
    }

    /** What `HandleClientConnected` does first: a new handle has the empty id. */
    method AddClient(ref: nat)
      modifies this
      ensures View() == Connect(old(View()), ref)
    {
      clients := clients + [Handle(ref, EMPTY_ID)];
    }

    /** Registers the peer behind a connection; `shared` is what it is told of. */
    method AddPeer(ref: nat, entry: nat, id: nat) returns (shared: seq<Entry>)
      modifies this
      ensures View() == Register(old(View()), ref, entry, id) && shared == old(connectedPeers)
    {
      shared := connectedPeers;
      clients := Named(clients, ref, id);
      connectedPeers := connectedPeers + [Entry(entry, id, true)];
      clients := clients + [Handle(ref, id)];
    }

    /** The Join case of `HandleOnMulticastMessage`. */
    method HandleJoin(sender: nat, attempt: Attempt) returns (r: Taken)
      modifies this
      ensures View() == old(View()).(peers := Join(peerId, old(connectedPeers), sender, attempt))
      ensures r == TakenAs(peerId, old(connectedPeers), sender, attempt)
    {
      connectedPeers := Distinct(connectedPeers);
      if Knows(connectedPeers, sender) || peerId == sender {
        return AlreadyKnown;
      }
      match attempt
      case Malformed =>
        r := Threw;
      case NotConnected =>
        r := Unreached;
      case Connected(o) =>
        r := Announced(connectedPeers);
        connectedPeers := connectedPeers + [Entry(o, sender, false)];
    }

    method HandleTimeout(id: nat) returns (told: seq<Entry>, threw: bool)
      modifies this
      ensures Departure(View(), told, threw) == TimeOut(old(View()), id)
    {
      told, threw := [], false;
      if OperationMode(connectedPeers) == PeerMode {
        var found := FindPeerById(View(), id);
        if found.Some? {
          clients := RemoveFirst(clients, found.value.0);
          connectedPeers := RemoveFirst(connectedPeers, found.value.1);
          told, threw := Announce();
        }
      }
    }

    /** Tells every peer of a departure, until one has no packet helper to tell it with. */
    method Announce() returns (told: seq<Entry>, threw: bool)
      ensures told == Told(connectedPeers) && (threw <==> told != connectedPeers)
    {
      told := [];
      for i := 0 to |connectedPeers|
        invariant told == connectedPeers[..i] && Told(connectedPeers) == told + Told(connectedPeers[i..])
      {
        var rest := connectedPeers[i..];
        if !connectedPeers[i].hasHelper {
          assert Told(rest) == [];
          return told, true;
        }
        assert rest[1..] == connectedPeers[i + 1..];
        Assoc(told, [connectedPeers[i]], Told(rest[1..]));
        told := told + [connectedPeers[i]];
      }
      threw := false;
    }
  }

  // ---------------------------------------------------------------- the invariant

  predicate Inv(self: nat, es: seq<Entry>) {
    && (forall i, k :: 0 <= i < k < |es| ==> es[i].peerId != es[k].peerId)
    && !Knows(es, self)
  }

  /** The invariant, on the ids alone. */
  lemma {:induction false} InvIds(self: nat, es: seq<Entry>)
    ensures Inv(self, es) <==> (forall id :: Bag(es, IdOf)[id] <= 1) && self !in Bag(es, IdOf)
    ensures forall id :: Knows(es, id) <==> id in Bag(es, IdOf)
  {
    BagApart(es, IdOf);
    forall id
      ensures Knows(es, id) <==> id in Bag(es, IdOf)
    {
      KnowsBag(es, id);
    }
  }

  lemma {:induction false} DistinctIsIdle(es: seq<Entry>)
    requires forall i, k :: 0 <= i < k < |es| ==> es[i].peerId != es[k].peerId
    ensures Distinct(es) == es
  {
    if es != [] {
      var init, last := es[..|es| - 1], es[|es| - 1];
      DistinctIsIdle(init);
      assert es == init + [last];
      assert forall i :: 0 <= i < |init| ==> init[i] == es[i];
      assert last !in init;
    }
  }

  /** A join adds exactly its sender, and only one that connected and is neither known nor the node itself. */
  lemma {:induction false} JoinKeeps(self: nat, es: seq<Entry>, sender: nat, attempt: Attempt)
    requires Inv(self, es)
    ensures var es' := Join(self, es, sender, attempt);
            Inv(self, es') && es <= es'
            && var added := attempt.Connected? && sender != self && !Knows(es, sender);
               Bag(es', IdOf) == Bag(es, IdOf) + if added then multiset{sender} else multiset{}
  {
    DistinctIsIdle(es);
    InvIds(self, es);
    if attempt.Connected? {
      BagSnoc(es, Entry(attempt.ref, sender, false), IdOf);
    }
    InvIds(self, Join(self, es, sender, attempt));
  }

  lemma {:induction false} RemovalKeeps(self: nat, es: seq<Entry>, e: Entry)
    requires Inv(self, es) && e in es
    ensures Inv(self, RemoveFirst(es, e)) && Bag(RemoveFirst(es, e), IdOf) == Bag(es, IdOf) - multiset{e.peerId}
  {
    InvIds(self, es);
    BagRemoved(es, e, IdOf);
    InvIds(self, RemoveFirst(es, e));
    hide Inv, Bag, RemoveFirst, Knows;
    assert IdOf(e) == e.peerId;
  }

  /** A registration keeps the invariant exactly when the id is unknown and not the node's own: it tests neither. */
  lemma {:induction false} RegisterKeepsIff(self: nat, t: Table, ref: nat, entry: nat, id: nat)
    requires Inv(self, t.peers)
    ensures var t' := Register(t, ref, entry, id);
            (Inv(self, t'.peers) <==> !Knows(t.peers, id) && id != self)
            && Bag(t'.peers, IdOf) == Bag(t.peers, IdOf) + multiset{id}
  {
    var e := Entry(entry, id, true);
    InvIds(self, t.peers);
    BagSnoc(t.peers, e, IdOf);
    InvIds(self, t.peers + [e]);
    assert IdOf(e) == id;
    hide Inv, Knows, Bag;
    assert forall x :: (Bag(t.peers, IdOf) + multiset{id})[x] == Bag(t.peers, IdOf)[x] + if x == id then 1 else 0;
  }

  /** Without the first handle of that id. */
  function DropFirst(hs: seq<Handle>, id: nat): seq<Handle> {
    if hs == [] then [] else if hs[0].id == id then hs[1..] else [hs[0]] + DropFirst(hs[1..], id)
  }

  lemma {:induction false} FoundIsFirst(hs: seq<Handle>, id: nat)
    ensures var h := Find(hs, (h: Handle) => h.id == id);
            h.Some? ==> RemoveFirst(hs, h.value) == DropFirst(hs, id)
  {
    if hs != [] && hs[0].id != id {
      FoundIsFirst(hs[1..], id);
    }
  }

  /** A timeout removes exactly one entry and one handle, those of the id it was looking for, if there are both. */
  lemma {:induction false} TimeOutKeeps(self: nat, t: Table, id: nat)
    requires Inv(self, t.peers)
    ensures var t' := TimeOut(t, id).table;
            var found := FindPeerById(t, id).Some?;
            Inv(self, t'.peers)
            && Bag(t'.peers, IdOf) == Bag(t.peers, IdOf) - (if found then multiset{id} else multiset{})
            && t'.clients == if found then DropFirst(t.clients, id) else t.clients
  {
    FoundIsFirst(t.clients, id);
    hide Inv, Bag, RemoveFirst, Knows, Serves, DropFirst;
    var found := FindPeerById(t, id);
    if found.Some? {
      RemovalKeeps(self, t.peers, found.value.1);
    }
    hide FindPeerById;
  }

  lemma {:induction false} ToldStops(es: seq<Entry>)
    ensures Told(es) <= es && (Told(es) == es <==> forall e :: e in es ==> e.hasHelper)
    ensures forall e :: e in Told(es) ==> e.hasHelper
    ensures Told(es) != es ==> !es[|Told(es)|].hasHelper
  {
    if es != [] {
      ToldStops(es[1..]);
      assert es == [es[0]] + es[1..];
      if es[0].hasHelper {
        assert ([es[0]] + Told(es[1..]))[1..] == Told(es[1..]);
      }
    }
  }

  predicate FirstEntry(es: seq<Entry>, id: nat, i: nat) {
    i < |es| && es[i].peerId == id && forall k :: 0 <= k < i ==> es[k].peerId != id
  }

  predicate FirstHandle(hs: seq<Handle>, id: nat, i: nat) {
    i < |hs| && hs[i].id == id && forall k :: 0 <= k < i ==> hs[k].id != id
  }

  lemma {:induction false} EntryFound(t: Table, id: nat) returns (i: nat)
    requires FindPeerById(t, id).Some?
    ensures FirstEntry(t.peers, id, i) && t.peers[i] == FindPeerById(t, id).value.1
  {
    i :| 0 <= i < |t.peers| && t.peers[i] == FindPeerById(t, id).value.1 && forall k :: 0 <= k < i ==> t.peers[k].peerId != id;
  }

  lemma {:induction false} HandleFound(t: Table, id: nat) returns (i: nat)
    requires FindPeerById(t, id).Some?
    ensures FirstHandle(t.clients, id, i) && t.clients[i] == FindPeerById(t, id).value.0
  {
    var h := Find(t.clients, (h: Handle) => h.id == id);
    i :| 0 <= i < |t.clients| && t.clients[i] == h.value && t.clients[i].id == id
         && forall k :: 0 <= k < i ==> t.clients[k].id != id;
  }

  /** What a timeout does to any table: with an entry and a handle of the id it takes out the first of each and tells those
      left, in order, up to the first without a packet helper; without, nothing. */
  lemma {:induction false} TimeOutIs(t: Table, id: nat)
    ensures var d := TimeOut(t, id);
            if Knows(t.peers, id) && Serves(t.clients, id) then
              && (exists i: nat :: FirstEntry(t.peers, id, i) && d.table.peers == t.peers[..i] + t.peers[i + 1..])
              && (exists i: nat :: FirstHandle(t.clients, id, i) && d.table.clients == t.clients[..i] + t.clients[i + 1..])
              && d.told <= d.table.peers && (forall e :: e in d.told ==> e.hasHelper)
              && (d.threw <==> d.told != d.table.peers) && (d.threw ==> !d.table.peers[|d.told|].hasHelper)
            else d == Departure(t, [], false)
  {
    var found := FindPeerById(t, id);
    if found.Some? {
      var i := EntryFound(t, id);
      var k := HandleFound(t, id);
      RemovedAt(t.peers, i);
      RemovedAt(t.clients, k);
      ToldStops(RemoveFirst(t.peers, found.value.1));
    }
    hide FindPeerById, RemoveFirst, Told;
  }

  /** The first occurrence of an element is what is removed. */
  lemma {:induction false} RemovedAt<T>(q: seq<T>, i: nat)
    requires i < |q| && forall k :: 0 <= k < i ==> q[k] != q[i]
    ensures RemoveFirst(q, q[i]) == q[..i] + q[i + 1..]
  {
    assert q == q[..i] + [q[i]] + q[i + 1..];
    RemoveFirstIs(q[..i], q[i], q[i + 1..]);
  }

  /** The announcement of a departure throws exactly when some peer that is left has no packet helper. */
  lemma {:induction false} AnnouncementThrowsIff(t: Table, id: nat)
    ensures var d := TimeOut(t, id);
            d.threw <==> FindPeerById(t, id).Some? && exists e :: e in d.table.peers && !e.hasHelper
  {
    ToldStops(TimeOut(t, id).table.peers);
    hide Told, FindPeerById, RemoveFirst;
  }

  // ---------------------------------------------------------------- runs

  datatype Step =
    | Joins(sender: nat, attempt: Attempt)
    | Connects(ref: nat)
    | Registers(ref: nat, entry: nat, id: nat)
    | TimesOut(id: nat)

  function Next(self: nat, t: Table, step: Step): Table {
    match step
    case Joins(sender, attempt) => t.(peers := Join(self, t.peers, sender, attempt))
    case Connects(ref) => Connect(t, ref)
    case Registers(ref, entry, id) => Register(t, ref, entry, id)
    case TimesOut(id) => TimeOut(t, id).table
  }

  function Run(self: nat, t: Table, steps: seq<Step>): Table
    decreases |steps|
  {
    if steps == [] then t else Run(self, Next(self, t, steps[0]), steps[1..])
  }

  /** Every registration of the run is of an id then unknown, and not the node's own. */
  predicate Careful(self: nat, t: Table, steps: seq<Step>)
    decreases |steps|
  {
    steps == []
    || ((steps[0].Registers? ==> !Knows(t.peers, steps[0].id) && steps[0].id != self)
        && Careful(self, Next(self, t, steps[0]), steps[1..]))
  }

  predicate AlwaysInv(self: nat, t: Table, steps: seq<Step>)
    decreases |steps|
  {
    Inv(self, t.peers) && (steps == [] || AlwaysInv(self, Next(self, t, steps[0]), steps[1..]))
  }

  lemma {:induction false} NextInvIff(self: nat, t: Table, step: Step)
    requires Inv(self, t.peers)
    ensures Inv(self, Next(self, t, step).peers)
            <==> (step.Registers? ==> !Knows(t.peers, step.id) && step.id != self)
  {
    match step
    case Joins(sender, attempt) => JoinKeeps(self, t.peers, sender, attempt);
    case Connects(ref) =>
    case Registers(ref, entry, id) => RegisterKeepsIff(self, t, ref, entry, id);
    case TimesOut(id) => TimeOutKeeps(self, t, id);
  }

  /** Ids stay distinct and foreign throughout a run exactly when its registrations are careful. */
  lemma {:induction false} InvIffCareful(self: nat, t: Table, steps: seq<Step>)
    requires Inv(self, t.peers)
    ensures AlwaysInv(self, t, steps) <==> Careful(self, t, steps)
    decreases |steps|
  {
    hide Next, Inv, Knows;
    if steps != [] {
      var t1 := Next(self, t, steps[0]);
      NextInvIff(self, t, steps[0]);
      if Inv(self, t1.peers) {
        InvIffCareful(self, t1, steps[1..]);
      }
    }
  }

  /** What the table is meant to hold: the members as a set, and the handles. */
  datatype Members = Members(ids: set<nat>, clients: seq<Handle>)

  function Meant(self: nat, m: Members, step: Step): Members {
    match step
    case Joins(sender, attempt) => if attempt.Connected? && sender != self then m.(ids := m.ids + {sender}) else m
    case Connects(ref) => m.(clients := m.clients + [Handle(ref, EMPTY_ID)])
    case Registers(ref, _, id) =>
      var named := seq(|m.clients|, i requires 0 <= i < |m.clients| =>
                         if m.clients[i].ref == ref then Handle(ref, id) else m.clients[i]);
      Members(m.ids + {id}, named + [Handle(ref, id)])
    case TimesOut(id) =>
      if id in m.ids && Serves(m.clients, id) then Members(m.ids - {id}, DropFirst(m.clients, id)) else m
  }

  function MeantBy(self: nat, m: Members, steps: seq<Step>): Members
    decreases |steps|
  {
    if steps == [] then m else MeantBy(self, Meant(self, m, steps[0]), steps[1..])
  }

  /** The table holds each member once. */
  predicate Holds(t: Table, m: Members) {
    Bag(t.peers, IdOf) == multiset(m.ids) && t.clients == m.clients
  }

  lemma {:induction false} SetPlus(ids: set<nat>, id: nat)
    ensures multiset(ids + {id}) == multiset(ids) + if id in ids then multiset{} else multiset{id}
  {
    if id in ids {
      assert ids + {id} == ids;
    }
  }

  lemma {:induction false} SetMinus(ids: set<nat>, id: nat)
    requires id in ids
    ensures multiset(ids - {id}) == multiset(ids) - multiset{id}
  {
  }

  lemma {:induction false} JoinHolds(self: nat, t: Table, m: Members, sender: nat, attempt: Attempt)
    requires Inv(self, t.peers) && Holds(t, m)
    ensures Holds(Next(self, t, Joins(sender, attempt)), Meant(self, m, Joins(sender, attempt)))
  {
    JoinKeeps(self, t.peers, sender, attempt);
    KnowsBag(t.peers, sender);
    SetPlus(m.ids, sender);
    hide Join, Inv, Bag, Knows;
    assert Knows(t.peers, sender) <==> sender in m.ids;
  }

  lemma {:induction false} RegisterHolds(self: nat, t: Table, m: Members, ref: nat, entry: nat, id: nat)
    requires Inv(self, t.peers) && Holds(t, m) && !Knows(t.peers, id)
    ensures Holds(Next(self, t, Registers(ref, entry, id)), Meant(self, m, Registers(ref, entry, id)))
  {
    RegisterKeepsIff(self, t, ref, entry, id);
    KnowsBag(t.peers, id);
    SetPlus(m.ids, id);
    RegisterIs(t, ref, entry, id);
    hide Inv, Bag, Knows, Named;
    assert Register(t, ref, entry, id).clients == Meant(self, m, Registers(ref, entry, id)).clients;
  }

  lemma {:induction false} TimeOutHolds(self: nat, t: Table, m: Members, id: nat)
    requires Inv(self, t.peers) && Holds(t, m)
    ensures Holds(Next(self, t, TimesOut(id)), Meant(self, m, TimesOut(id)))
  {
    TimeOutKeeps(self, t, id);
    KnowsBag(t.peers, id);
    hide TimeOut, Inv, Bag, Knows, Serves, DropFirst;
    assert FindPeerById(t, id).Some? <==> id in m.ids && Serves(m.clients, id);
    hide FindPeerById;
    if id in m.ids {
      SetMinus(m.ids, id);
    }
  }

  /** The list refines the set of members, in every run whose registrations are careful. */
  lemma {:induction false} TableIsASet(self: nat, t: Table, m: Members, steps: seq<Step>)
    requires Inv(self, t.peers) && Holds(t, m) && Careful(self, t, steps)
    ensures var r := Run(self, t, steps);
            Inv(self, r.peers) && Holds(r, MeantBy(self, m, steps))
    decreases |steps|
  {
    hide Inv, Holds, Knows;
    if steps != [] {
      NextInvIff(self, t, steps[0]);
      match steps[0] {
        case Joins(sender, attempt) => JoinHolds(self, t, m, sender, attempt);
        case Connects(ref) => ConnectHolds(self, t, m, ref);
        case Registers(ref, entry, id) => RegisterHolds(self, t, m, ref, entry, id);
        case TimesOut(id) => TimeOutHolds(self, t, m, id);
      }
      hide Next, Meant;
      TableIsASet(self, Next(self, t, steps[0]), Meant(self, m, steps[0]), steps[1..]);
    }
  }

  lemma {:induction false} ConnectHolds(self: nat, t: Table, m: Members, ref: nat)
    requires Holds(t, m)
    ensures Holds(Next(self, t, Connects(ref)), Meant(self, m, Connects(ref)))
  {
  }

  const NOBODY := Table([], [])

  /** From an empty table, with careful registrations: no id twice, never the node's own, Peer mode exactly when somebody
      is a member; and the client's search for its own id finds nobody, so its timeout removes nobody. */
  lemma {:induction false} PeerTable(self: nat, steps: seq<Step>)
    requires Careful(self, NOBODY, steps)
    ensures var r := Run(self, NOBODY, steps);
            var m := MeantBy(self, Members({}, []), steps);
            && Inv(self, r.peers)
            && |r.peers| == |m.ids|
            && (forall id :: Knows(r.peers, id) <==> id in m.ids)
            && (OperationMode(r.peers) == PeerMode <==> m.ids != {})
            && FindPeerById(r, self) == None
            && TimeOut(r, self) == Departure(r, [], false)
  {
    TableIsASet(self, NOBODY, Members({}, []), steps);
    var r := Run(self, NOBODY, steps);
    InvIds(self, r.peers);
    BagCount(r.peers, IdOf);
  }

  // ---------------------------------------------------------------- who can leave

  predicate Registered(steps: seq<Step>, id: nat) {
    exists k :: 0 <= k < |steps| && steps[k].Registers? && steps[k].id == id
  }

  predicate Joined(steps: seq<Step>, id: nat) {
    exists k :: 0 <= k < |steps| && steps[k].Joins? && steps[k].sender == id && steps[k].attempt.Connected?
  }

  lemma {:induction false} KnowsSnoc(es: seq<Entry>, e: Entry, id: nat)
    ensures Knows(es + [e], id) <==> Knows(es, id) || e.peerId == id
  {
    assert (es + [e])[|es|] == e;
    if Knows(es, id) {
      var i :| 0 <= i < |es| && es[i].peerId == id;
      assert (es + [e])[i].peerId == id;
    }
  }

  lemma {:induction false} DistinctKnows(es: seq<Entry>, id: nat)
    ensures Knows(Distinct(es), id) <==> Knows(es, id)
  {
    if es != [] {
      var init, last := es[..|es| - 1], es[|es| - 1];
      DistinctKnows(init, id);
      assert es == init + [last];
      KnowsSnoc(init, last, id);
      KnowsSnoc(Distinct(init), last, id);
      if last in init {
        var i :| 0 <= i < |init| && init[i] == last;
        assert Knows(init, last.peerId);
      }
    }
  }

  lemma {:induction false} RemovedKnows(es: seq<Entry>, e: Entry, id: nat)
    requires e in es && e.peerId != id
    ensures Knows(RemoveFirst(es, e), id) <==> Knows(es, id)
  {
    KnowsBag(es, id);
    BagRemoved(es, e, IdOf);
    KnowsBag(RemoveFirst(es, e), id);
    hide Bag, RemoveFirst, Knows;
    assert IdOf(e) == e.peerId;
  }

  lemma {:induction false} NamedServes(hs: seq<Handle>, ref: nat, name: nat, id: nat)
    requires name != id && !Serves(hs, id)
    ensures !Serves(Named(hs, ref, name) + [Handle(ref, name)], id)
  {
    if hs == [] {
      assert Named(hs, ref, name) + [Handle(ref, name)] == [Handle(ref, name)];
    } else {
      assert hs[0].id != id;
      assert forall i :: 0 <= i < |hs[1..]| ==> hs[1..][i] == hs[i + 1];
      NamedServes(hs[1..], ref, name, id);
      var rest := Named(hs[1..], ref, name) + [Handle(ref, name)];
      var first := if hs[0].ref == ref then Handle(ref, name) else hs[0];
      assert Named(hs, ref, name) + [Handle(ref, name)] == [first] + rest;
    }
  }

  lemma {:induction false} DroppedServes(hs: seq<Handle>, h: Handle, id: nat)
    requires !Serves(hs, id)
    ensures !Serves(RemoveFirst(hs, h), id)
  {
    RemovedFrom(hs, h);
    forall i | 0 <= i < |RemoveFirst(hs, h)|
      ensures RemoveFirst(hs, h)[i].id != id
    {
      assert RemoveFirst(hs, h)[i] in hs;
    }
  }

  lemma {:induction false} RemovedFrom<T>(q: seq<T>, x: T)
    ensures forall y :: y in RemoveFirst(q, x) ==> y in q
  {
    if q != [] && q[0] != x {
      RemovedFrom(q[1..], x);
    }
  }

  /** One step, for an id that no handle has and the step does not register. */
  lemma {:induction false} UnservedStep(self: nat, t: Table, step: Step, id: nat)
    requires id != EMPTY_ID && !Serves(t.clients, id) && (step.Registers? ==> step.id != id)
    ensures var t' := Next(self, t, step);
            !Serves(t'.clients, id)
            && (Knows(t'.peers, id) <==>
                  Knows(t.peers, id) || (step.Joins? && step.sender == id && step.attempt.Connected? && id != self))
  {
    match step
    case Joins(sender, attempt) =>
      DistinctKnows(t.peers, id);
      if attempt.Connected? {
        KnowsSnoc(Distinct(t.peers), Entry(attempt.ref, sender, false), id);
      }
    case Connects(ref) =>
      assert forall i :: 0 <= i < |t.clients| ==> (t.clients + [Handle(ref, EMPTY_ID)])[i] == t.clients[i];
    case Registers(ref, entry, name) =>
      NamedServes(t.clients, ref, name, id);
      KnowsSnoc(t.peers, Entry(entry, name, true), id);
    case TimesOut(gone) =>
      var found := FindPeerById(t, gone);
      if found.Some? {
        DroppedServes(t.clients, found.value.0, id);
        RemovedKnows(t.peers, found.value.1, id);
      }
  }

  /** A peer whose id no registration gave to a handle never leaves: in every run it is a member exactly when it joined,
      and its timeout changes nothing. */
  lemma {:induction false} UnregisteredStay(self: nat, t: Table, steps: seq<Step>, id: nat)
    requires id != EMPTY_ID && !Serves(t.clients, id) && !Registered(steps, id)
    ensures var r := Run(self, t, steps);
            && (Knows(r.peers, id) <==> Knows(t.peers, id) || (id != self && Joined(steps, id)))
            && TimeOut(r, id) == Departure(r, [], false)
    decreases |steps|
  {
    if steps != [] {
      var step, rest := steps[0], steps[1..];
      assert forall k :: 0 <= k < |rest| ==> rest[k] == steps[k + 1];
      assert forall k :: 1 <= k < |steps| ==> steps[k] == rest[k - 1];
      assert step.Registers? ==> step.id != id;
      UnservedStep(self, t, step, id);
      UnregisteredStay(self, Next(self, t, step), rest, id);
      hide Next, Run, Knows, Serves, TimeOut;
      JoinedFirst(steps, id);
    }
  }

  lemma {:induction false} JoinedFirst(steps: seq<Step>, id: nat)
    requires steps != []
    ensures Joined(steps, id) <==>
              (steps[0].Joins? && steps[0].sender == id && steps[0].attempt.Connected?) || Joined(steps[1..], id)
  {
    if Joined(steps[1..], id) {
      var k :| 0 <= k < |steps[1..]| && steps[1..][k].Joins? && steps[1..][k].sender == id && steps[1..][k].attempt.Connected?;
      assert steps[k + 1] == steps[1..][k];
    }
    if Joined(steps, id) {
      var k :| 0 <= k < |steps| && steps[k].Joins? && steps[k].sender == id && steps[k].attempt.Connected?;
      if k > 0 {
        assert steps[1..][k - 1] == steps[k];
      }
    }
  }

  /** A member that joined by multicast, and another that was registered: when the registered one's connection times out,
      it leaves, nobody is told, the announcement throws, and its handle, which was listed twice, is still listed. */
  lemma {:induction false} RegisteredDeparts(self: nat, x: nat, y: nat, ref: nat, a: nat, b: nat)
    requires x != self && y != self && x != y
    ensures var steps := [Joins(x, Connected(a)), Connects(ref), Registers(ref, b, y)];
            var t := Table([Entry(a, x, false)], [Handle(ref, y)]);
            Careful(self, NOBODY, steps) && TimeOut(Run(self, NOBODY, steps), y) == Departure(t, [], true)
  {
    var first, second := Entry(a, x, false), Entry(b, y, true);
    var t1, t2 := Table([first], []), Table([first], [Handle(ref, EMPTY_ID)]);
    var t3 := Table([first, second], [Handle(ref, y), Handle(ref, y)]);
    Joining(self, [], x, a);
    assert [] + [first] == [first];
    assert Named(t2.clients, ref, y) == [Handle(ref, y)] + [];
    assert Next(self, t1, Connects(ref)) == t2 && Next(self, t2, Registers(ref, b, y)) == t3;
    assert !Knows(t2.peers, y);
    hide Next, Inv, Knows, TimeOut, Run, Careful;
    RunOfThree(self, Joins(x, Connected(a)), Connects(ref), Registers(ref, b, y));
    LeavesSecond(first, second, Handle(ref, y), [Handle(ref, y)]);
  }

  lemma {:induction false} Joining(self: nat, es: seq<Entry>, sender: nat, ref: nat)
    requires (es == [] || (Inv(self, es) && !Knows(es, sender))) && sender != self
    ensures Next(self, Table(es, []), Joins(sender, Connected(ref))) == Table(es + [Entry(ref, sender, false)], [])
  {
    DistinctIsIdle(es);
  }

  /** A run of three steps, of which only the last may register. */
  lemma {:induction false} RunOfThree(self: nat, a: Step, b: Step, c: Step)
    requires !a.Registers? && !b.Registers?
    ensures var t2 := Next(self, Next(self, NOBODY, a), b);
            Run(self, NOBODY, [a, b, c]) == Next(self, t2, c)
            && (Careful(self, NOBODY, [a, b, c]) <==> (c.Registers? ==> !Knows(t2.peers, c.id) && c.id != self))
  {
    hide Next, Knows;
    assert [a, b, c][1..] == [b, c] && [b, c][1..] == [c] && [c][1..] == [];
    var t1 := Next(self, NOBODY, a);
    var t2 := Next(self, t1, b);
    assert Careful(self, Next(self, t2, c), []);
    assert Careful(self, t2, [c]) <==> (c.Registers? ==> !Knows(t2.peers, c.id) && c.id != self);
    assert Careful(self, t1, [b, c]) <==> Careful(self, t2, [c]);
    assert Run(self, t2, [c]) == Next(self, t2, c);
    assert Run(self, t1, [b, c]) == Run(self, t2, [c]);
  }

  lemma {:induction false} LeavesSecond(first: Entry, second: Entry, h: Handle, rest: seq<Handle>)
    requires first.peerId != second.peerId == h.id && !first.hasHelper
    ensures TimeOut(Table([first, second], [h] + rest), h.id) == Departure(Table([first], rest), [], true)
  {
    var t := Table([first, second], [h] + rest);
    assert t.peers[1].peerId == h.id && t.clients[0].id == h.id;
    assert FindPeerById(t, h.id).Some? && FindPeerById(t, h.id).value == (h, second);
    hide FindPeerById;
    assert t.peers[1..] == [second];
    assert RemoveFirst(t.peers, second) == [first] + [];
    assert t.clients[1..] == rest;
  }

  /** Where nobody registers, every handle has the empty id, and no entry a packet helper: a departure is of a peer that
      joined with the empty id, it is told to nobody, and its announcement throws exactly when somebody is left. */
  lemma {:induction false} OnlyTheNamelessLeave(self: nat, steps: seq<Step>, id: nat)
    requires forall k :: 0 <= k < |steps| ==> !steps[k].Registers?
    ensures var t := Run(self, NOBODY, steps);
            var d := TimeOut(t, id);
            && (d.table != t <==> id == EMPTY_ID && Knows(t.peers, EMPTY_ID) && t.clients != [])
            && d.told == [] && (d.threw <==> d.table != t && |t.peers| > 1)
  {
    var t, d := Run(self, NOBODY, steps), TimeOut(Run(self, NOBODY, steps), id);
    NamelessRun(self, NOBODY, steps);
    ToldStops(d.table.peers);
    var found := FindPeerById(t, id);
    if found.Some? {
      RemovedFrom(t.peers, found.value.1);
      RemovedOne(t.peers, found.value.1);
      RemovedOne(t.clients, found.value.0);
      if d.table.peers != [] {
        assert d.table.peers[0] in t.peers;
      }
    }
    if id == EMPTY_ID && t.clients != [] {
      assert t.clients[0] in t.clients;
    }
  }

  lemma {:induction false} RemovedOne<T>(q: seq<T>, x: T)
    requires x in q
    ensures |RemoveFirst(q, x)| == |q| - 1
  {
    if q[0] != x {
      RemovedOne(q[1..], x);
    }
  }

  predicate Nameless(t: Table) {
    (forall e :: e in t.peers ==> !e.hasHelper) && (forall h :: h in t.clients ==> h.id == EMPTY_ID)
  }

  lemma {:induction false} NamelessStep(self: nat, t: Table, step: Step)
    requires Nameless(t) && !step.Registers?
    ensures Nameless(Next(self, t, step))
  {
    DistinctFrom(t.peers);
    if step.TimesOut? && FindPeerById(t, step.id).Some? {
      RemovedFrom(t.peers, FindPeerById(t, step.id).value.1);
      RemovedFrom(t.clients, FindPeerById(t, step.id).value.0);
    }
  }

  lemma {:induction false} NamelessRun(self: nat, t: Table, steps: seq<Step>)
    requires Nameless(t) && forall k :: 0 <= k < |steps| ==> !steps[k].Registers?
    ensures Nameless(Run(self, t, steps))
    decreases |steps|
  {
    if steps != [] {
      assert forall k :: 0 <= k < |steps[1..]| ==> steps[1..][k] == steps[k + 1];
      NamelessStep(self, t, steps[0]);
      hide Next, Nameless;
      NamelessRun(self, Next(self, t, steps[0]), steps[1..]);
    }
  }

  lemma {:induction false} DistinctFrom(es: seq<Entry>)
    ensures forall e :: e in Distinct(es) ==> e in es
  {
    if es != [] {
      DistinctFrom(es[..|es| - 1]);
    }
  }

  lemma {:induction false} TwoJoin(self: nat, x: nat, y: nat, a: nat, b: nat)
    requires x != y && x != self && y != self
    ensures var t1 := Next(self, NOBODY, Joins(x, Connected(a)));
            Next(self, t1, Joins(y, Connected(b))) == Table([Entry(a, x, false), Entry(b, y, false)], [])
  {
    var first, second := Entry(a, x, false), Entry(b, y, false);
    assert [] + [first] == [first] && [first] + [second] == [first, second];
    assert Inv(self, [first]) && !Knows([first], y);
    hide Next, Inv, Knows;
    Joining(self, [], x, a);
    Joining(self, [first], y, b);
  }

  lemma {:induction false} Connecting(self: nat, es: seq<Entry>, ref: nat)
    ensures Next(self, Table(es, []), Connects(ref)) == Table(es, [Handle(ref, EMPTY_ID)])
  {
  }

  /** Such a departure: two peers join, the first with the empty id, and a connection times out. */
  lemma {:induction false} NamelessDeparts(self: nat, x: nat, ref: nat, a: nat, b: nat)
    requires self != EMPTY_ID && x != self && x != EMPTY_ID
    ensures var steps := [Joins(EMPTY_ID, Connected(a)), Joins(x, Connected(b)), Connects(ref)];
            TimeOut(Run(self, NOBODY, steps), EMPTY_ID) == Departure(Table([Entry(b, x, false)], []), [], true)
  {
    var first, second := Entry(a, EMPTY_ID, false), Entry(b, x, false);
    hide Next, Inv, Knows, TimeOut, Run, Careful, Join;
    TwoJoin(self, EMPTY_ID, x, a, b);
    Connecting(self, [first, second], ref);
    RunOfThree(self, Joins(EMPTY_ID, Connected(a)), Joins(x, Connected(b)), Connects(ref));
    LeavesFirst(first, second, Handle(ref, EMPTY_ID));
  }

  lemma {:induction false} LeavesFirst(first: Entry, second: Entry, h: Handle)
    requires first.peerId == h.id && !second.hasHelper
    ensures TimeOut(Table([first, second], [h]), h.id) == Departure(Table([second], []), [], true)
  {
    var t := Table([first, second], [h]);
    assert t.peers[0].peerId == h.id && t.clients[0].id == h.id;
    assert FindPeerById(t, h.id).Some? && FindPeerById(t, h.id).value == (h, first);
    hide FindPeerById;
    assert t.peers[1..] == [second];
    assert t.clients[1..] == [];
  }
}
