/** The outbound side of a connection in terms of the packets that the server submits: which of them is
    where, whatever the interleaving. */
module Submissions {
  import opened Wrappers
  import opened Bytes
  import opened Protocol
  import opened Seqs
  import opened LatestUpdates
  import opened Outbound

  type SmallPacket = p: Packet | |p.data| + 1 <= I16_MAX witness DEFAULT_PACKET

  /** A packet handed to `send`, or to `send_realtime_update`. */
  datatype Submission = Submission(p: SmallPacket, realtime: bool)

  /** Superseded by newer ones of its object: an UPDATE_OBJECT with an object id, sent as realtime. */
  predicate Replaceable(x: Submission) {
    x.realtime && x.p.action == UPDATE_OBJECT && |x.p.data| >= 4
  }

  /** Neither replaceable nor a server time. */
  predicate Reliable(x: Submission) {
    !Replaceable(x) && x.p.action != SERVER_TIME
  }

  function RouteOf(x: Submission): Route {
    if Replaceable(x) then Latest else if Reliable(x) then Queue else Slot
  }

  /** What a run submits, in order. */
  function Submitted(s: State, es: seq<Event>): seq<Submission>
    requires IsRun(s, es)
    decreases es
  {
    if es == [] then []
    else SubmittedBy(s, es[0]) + Submitted(Next(s, es[0]), es[1..])
  }

  function SubmittedBy(s: State, e: Event): seq<Submission>
    requires Enabled(s, e)
  {
    match e
    case DoSend(p) => [Submission(p, false)]
    case DoSendRealtime(p) => [Submission(p, true)]
    case _ => []
  }

  // ---- every item is a submitted packet ----

  /** The item is the packet that was submitted at its stamp, on the route of that packet. */
  predicate Genuine(x: Item, subs: seq<Submission>) {
    x.stamp < |subs| && x == ItemOf(x.stamp, RouteOf(subs[x.stamp]), subs[x.stamp].p)
  }

  ghost predicate AllGenuine(xs: seq<Item>, subs: seq<Submission>) {
    forall i :: 0 <= i < |xs| ==> Genuine(xs[i], subs)
  }

  ghost predicate HeldGenuine(s: State, subs: seq<Submission>) {
    && (s.slot.Some? ==> Genuine(s.slot.value, subs))
    && (s.server.Sending? ==> Genuine(s.server.item, subs))
    && (s.writer.Writing? ==> Genuine(s.writer.item, subs))
    && (forall i :: 0 <= i < |s.updates| ==> Genuine(s.updates[i].data, subs))
  }

  /** Every reliable packet went the reliable way. */
  ghost predicate AllTaken(s: State, subs: seq<Submission>) {
    forall k :: 0 <= k < |subs| && Reliable(subs[k]) ==> ItemOf(k, Queue, subs[k].p) in s.submitted
  }

  function CountOf(subs: seq<Submission>, route: Route): nat {
    if subs == [] then 0
    else
      var k := |subs| - 1;
      CountOf(subs[..k], route) + if RouteOf(subs[k]) == route then 1 else 0
  }

  /** The state is that of a connection to which `subs` were submitted. */
  ghost predicate Traced(s: State, subs: seq<Submission>) {
    && s.clock == |subs|
    && AllGenuine(s.queue, subs) && AllGenuine(s.fallback, subs) && AllGenuine(s.wire, subs) && AllGenuine(s.lost, subs)
    && HeldGenuine(s, subs) && AllTaken(s, subs)
    && s.stats.updatesPending == CountOf(subs, Latest) && s.stats.serverTimePending == CountOf(subs, Slot)
  }

  lemma StillGenuine(xs: seq<Item>, subs: seq<Submission>, x: Submission)
    requires AllGenuine(xs, subs)
    ensures AllGenuine(xs, subs + [x])
  {
    forall i | 0 <= i < |xs| ensures Genuine(xs[i], subs + [x]) {
      assert Genuine(xs[i], subs);
    }
  }

  lemma CountOfSnoc(subs: seq<Submission>, x: Submission, route: Route)
    ensures CountOf(subs + [x], route) == CountOf(subs, route) + if RouteOf(x) == route then 1 else 0
  {
    assert (subs + [x])[..|subs|] == subs;
  }

  /** What a submission leaves of the trace. */
  lemma TraceGrows(s: State, subs: seq<Submission>, x: Submission)
    requires Traced(s, subs)
    ensures AllGenuine(s.queue, subs + [x]) && AllGenuine(s.fallback, subs + [x])
    ensures AllGenuine(s.wire, subs + [x]) && AllGenuine(s.lost, subs + [x]) && HeldGenuine(s, subs + [x])
    ensures forall k :: 0 <= k < |subs| && Reliable(subs[k]) ==> ItemOf(k, Queue, (subs + [x])[k].p) in s.submitted
    ensures Genuine(ItemOf(s.clock, RouteOf(x), x.p), subs + [x])
  {
    StillGenuine(s.queue, subs, x);
    StillGenuine(s.fallback, subs, x);
    StillGenuine(s.wire, subs, x);
    StillGenuine(s.lost, subs, x);
    forall i | 0 <= i < |s.updates| ensures Genuine(s.updates[i].data, subs + [x]) {
      assert Genuine(s.updates[i].data, subs);
    }
  }

  lemma DroppedGenuine(es: seq<Entry<Item>>, id: u32, subs: seq<Submission>)
    requires UniqueIds(es)
    requires forall i :: 0 <= i < |es| ==> Genuine(es[i].data, subs)
    ensures forall i :: 0 <= i < |Drop(es, id)| ==> Genuine(Drop(es, id)[i].data, subs)
  {
    DropMembers(es, id);
    forall i | 0 <= i < |Drop(es, id)| ensures Genuine(Drop(es, id)[i].data, subs) {
      assert Drop(es, id)[i] in es;
      var j :| 0 <= j < |es| && es[j] == Drop(es, id)[i];
    }
  }

  lemma UpdatesStillGenuine(s: State, p: SmallPacket, subs: seq<Submission>)
    requires Fresh(s) && HeldGenuine(s, subs)
    ensures HeldGenuine(WithoutPendingUpdate(s, p), subs)
  {
    if ObjectOf(p).Some? {
      DroppedGenuine(s.updates, ObjectOf(p).value, subs);
    }
  }

  lemma TracedReliable(s: State, p: SmallPacket, realtime: bool, subs: seq<Submission>, stats: Stats)
    requires Traced(s, subs) && Fresh(s) && s.server.Idle? && Reliable(Submission(p, realtime))
    requires stats.updatesPending == s.stats.updatesPending && stats.serverTimePending == s.stats.serverTimePending
    ensures Traced(SendReliable(s, p).(stats := stats), subs + [Submission(p, realtime)])
  {
    var x := Submission(p, realtime);
    TraceGrows(s, subs, x);
    CountOfSnoc(subs, x, Latest);
    CountOfSnoc(subs, x, Slot);
    UpdatesStillGenuine(s, p, subs + [x]);
  }

  lemma TracedServerTime(s: State, p: SmallPacket, realtime: bool, subs: seq<Submission>)
    requires Traced(s, subs) && p.action == SERVER_TIME
    ensures Traced(SendLatestServerTime(s, p), subs + [Submission(p, realtime)])
  {
    var x := Submission(p, realtime);
    TraceGrows(s, subs, x);
    CountOfSnoc(subs, x, Latest);
    CountOfSnoc(subs, x, Slot);
  }

  lemma PutGenuine(es: seq<Entry<Item>>, id: u32, x: Item, subs: seq<Submission>)
    requires UniqueIds(es) && Genuine(x, subs) && forall i :: 0 <= i < |es| ==> Genuine(es[i].data, subs)
    ensures forall i :: 0 <= i < |Put(es, id, x)| ==> Genuine(Put(es, id, x)[i].data, subs)
  {
    var updates := Put(es, id, x);
    PutMembers(es, id, x);
    forall i | 0 <= i < |updates| ensures Genuine(updates[i].data, subs) {
      assert updates[i] in updates;
      if updates[i] != Entry(id, x) {
        var j :| 0 <= j < |es| && es[j] == updates[i];
      }
    }
  }

  lemma TracedUpdate(s: State, p: SmallPacket, subs: seq<Submission>)
    requires Traced(s, subs) && Fresh(s) && Replaceable(Submission(p, true))
    ensures Traced(SendRealtimeUpdate(s, p), subs + [Submission(p, true)])
  {
    var x := Submission(p, true);
    TraceGrows(s, subs, x);
    CountOfSnoc(subs, x, Latest);
    CountOfSnoc(subs, x, Slot);
    PutGenuine(s.updates, ObjectOf(p).value, ItemOf(s.clock, Latest, p), subs + [x]);
  }

  /** The three ways of a submission. */
  lemma WayOf(s: State, e: Event, x: Submission)
    requires Enabled(s, e) && (e.DoSend? || e.DoSendRealtime?) && [x] == SubmittedBy(s, e)
    ensures x.p == e.p
    ensures Replaceable(x) ==> x == Submission(x.p, true) && Next(s, e) == SendRealtimeUpdate(s, x.p)
    ensures RouteOf(x) == Slot ==> Next(s, e) == SendLatestServerTime(s, x.p)
    ensures Reliable(x) ==> s.server.Idle? && Next(s, e) == SendReliable(s, x.p).(stats := Next(s, e).stats)
  {
  }

  lemma TracedSend(s: State, e: Event, subs: seq<Submission>)
    requires Traced(s, subs) && Fresh(s) && Enabled(s, e) && (e.DoSend? || e.DoSendRealtime?)
    ensures Traced(Next(s, e), subs + SubmittedBy(s, e))
  {
    var x := SubmittedBy(s, e)[0];
    WayOf(s, e, x);
    if Reliable(x) {
      SameCounts(s, e);
    }
    TracedWay(s, Next(s, e), x, subs);
  }

  lemma SameCounts(s: State, e: Event)
    requires Enabled(s, e) && (e.DoSend? || e.DoSendRealtime?) && Reliable(SubmittedBy(s, e)[0])
    ensures var t := Next(s, e).stats;
            t.updatesPending == s.stats.updatesPending && t.serverTimePending == s.stats.serverTimePending
  {
  }

  lemma TracedWay(s: State, t: State, x: Submission, subs: seq<Submission>)
    requires Traced(s, subs) && Fresh(s)
    requires Replaceable(x) ==> x == Submission(x.p, true) && t == SendRealtimeUpdate(s, x.p)
    requires RouteOf(x) == Slot ==> t == SendLatestServerTime(s, x.p)
    requires Reliable(x) ==>
               && s.server.Idle? && t == SendReliable(s, x.p).(stats := t.stats)
               && t.stats.updatesPending == s.stats.updatesPending
               && t.stats.serverTimePending == s.stats.serverTimePending
    ensures Traced(t, subs + [x])
  {
    if Replaceable(x) {
      TracedUpdate(s, x.p, subs);
    } else if Reliable(x) {
      TracedReliable(s, x.p, x.realtime, subs, t.stats);
    } else {
      TracedServerTime(s, x.p, x.realtime, subs);
    }
  }

  lemma GenuineWithout(xs: seq<Item>, i: nat, subs: seq<Submission>)
    requires AllGenuine(xs, subs) && i < |xs|
    ensures Genuine(xs[i], subs) && AllGenuine(xs[..i] + xs[i + 1..], subs)
  {
    assert Genuine(xs[i], subs);
  }

  lemma GenuineSnoc(xs: seq<Item>, x: Item, subs: seq<Submission>)
    requires AllGenuine(xs, subs) && Genuine(x, subs)
    ensures AllGenuine(xs + [x], subs)
  {
  }

  lemma TracedFallback(s: State, i: nat, subs: seq<Submission>)
    requires Traced(s, subs) && i < |s.fallback|
    ensures Traced(Fallback(s, i), subs)
  {
    GenuineWithout(s.fallback, i, subs);
    GenuineSnoc(s.queue, s.fallback[i], subs);
    GenuineSnoc(s.lost, s.fallback[i], subs);
  }

  lemma TracedWrite(s: State, ok: bool, subs: seq<Submission>)
    requires Traced(s, subs) && s.writer.Writing?
    ensures Traced(Write(s, ok), subs)
  {
  }

  lemma TracedTrySend(s: State, full: bool, subs: seq<Submission>)
    requires Traced(s, subs) && s.server.Sending?
    ensures Traced(TrySend(s, full), subs)
  {
  }

  lemma TracedTakeQueued(s: State, subs: seq<Submission>)
    requires Traced(s, subs) && s.queue != []
    ensures Traced(s.(queue := s.queue[1..], writer := Writing(s.queue[0])), subs)
  {
    assert Genuine(s.queue[0], subs);
  }

  lemma TracedTakeUpdate(s: State, subs: seq<Submission>)
    requires Traced(s, subs)
    ensures Traced(TakeUpdate(s), subs)
  {
    if s.updates != [] {
      assert Genuine(s.updates[0].data, subs);
    }
  }

  lemma TracedMove(s: State, writer: Writer, closed: bool, gone: bool, subs: seq<Submission>)
    requires Traced(s, subs) && !writer.Writing?
    ensures Traced(s.(writer := writer, queueClosed := closed), subs) && Traced(s.(sendersGone := gone), subs)
  {
  }

  lemma TracedWriterStep(s: State, e: Event, subs: seq<Submission>)
    requires Traced(s, subs) && Enabled(s, e)
    requires e.DoTakeServerTime? || e.DoTryRecv? || e.DoTakeUpdate? || e.Wake? || e.DoRecvWaiting?
    ensures Traced(Next(s, e), subs)
  {
    if e.DoTakeUpdate? {
      TracedTakeUpdate(s, subs);
    } else if !e.DoTakeServerTime? && Next(s, e).writer.Writing? {
      TracedTakeQueued(s, subs);
    } else if !Next(s, e).writer.Writing? {
      TracedMove(s, Next(s, e).writer, Next(s, e).queueClosed, false, subs);
    }
  }

  /** Every step keeps the trace. */
  lemma TracedStep(s: State, e: Event, subs: seq<Submission>)
    requires Traced(s, subs) && Fresh(s) && Enabled(s, e)
    ensures Traced(Next(s, e), subs + SubmittedBy(s, e))
  {
    if e.DoSend? || e.DoSendRealtime? {
      TracedSend(s, e, subs);
    } else {
      assert subs + [] == subs;
      match e
      case DoTrySend(full) => TracedTrySend(s, full, subs);
      case DoFallback(i) => TracedFallback(s, i, subs);
      case DoWrite(ok) => TracedWrite(s, ok, subs);
      case DropSenders => TracedMove(s, AtSlot, false, true, subs);
      case _ => TracedWriterStep(s, e, subs);
    }
  }

  lemma SubmittedFirst(s: State, es: seq<Event>, subs: seq<Submission>)
    requires IsRun(s, es) && es != []
    ensures subs + Submitted(s, es) == subs + SubmittedBy(s, es[0]) + Submitted(Next(s, es[0]), es[1..])
  {
    var first, rest := SubmittedBy(s, es[0]), Submitted(Next(s, es[0]), es[1..]);
    assert subs + (first + rest) == subs + first + rest;
  }

  lemma {:induction false} TracedRun(s: State, es: seq<Event>, subs: seq<Submission>)
    requires Traced(s, subs) && Fresh(s) && IsRun(s, es)
    ensures Traced(Run(s, es), subs + Submitted(s, es))
    decreases es
  {
    if es == [] {
      assert subs + [] == subs;
    } else {
      TracedStep(s, es[0], subs);
      FreshStep(s, es[0]);
      SubmittedFirst(s, es, subs);
      TracedRun(Next(s, es[0]), es[1..], subs + SubmittedBy(s, es[0]));
    }
  }

  /** After any run of a new connection every item, wherever it is, is a packet that was submitted, byte for
      byte, and each counter of pending packets has counted exactly the packets of its kind. */
  lemma EverythingIsSubmitted(es: seq<Event>)
    requires IsRun(INITIAL, es)
    ensures Traced(Run(INITIAL, es), Submitted(INITIAL, es))
  {
    TracedRun(INITIAL, es, []);
    assert [] + Submitted(INITIAL, es) == Submitted(INITIAL, es);
  }

  // ---- every packet is in at most one place ----

  /** How many items with this stamp there are anywhere. */
  function Places(s: State, q: Query): nat {
    Gone(s, q) + Queued(s, q) + (if s.slot.Some? then Hits(q, s.slot.value) else 0) + Count(Datas(s.updates), q)
  }

  lemma {:induction false} DatasAppend(xs: seq<Entry<Item>>, ys: seq<Entry<Item>>)
    ensures Datas(xs + ys) == Datas(xs) + Datas(ys)
  {
    if xs == [] {
      assert xs + ys == ys;
    } else {
      DatasAppend(xs[1..], ys);
      assert (xs + ys)[1..] == xs[1..] + ys;
      assert [xs[0].data] + (Datas(xs[1..]) + Datas(ys)) == [xs[0].data] + Datas(xs[1..]) + Datas(ys);
    }
  }

  lemma CountBefore(x: Item, rest: seq<Item>, q: Query)
    ensures Count([x] + rest, q) == Hits(q, x) + Count(rest, q)
  {
    assert ([x] + rest)[1..] == rest;
  }

  lemma {:induction false} PutCount(es: seq<Entry<Item>>, id: u32, x: Item, q: Query)
    ensures Count(Datas(Put(es, id, x)), q) <= Count(Datas(es), q) + Hits(q, x)
  {
    if es == [] {
      assert Put(es, id, x)[1..] == [];
      CountBefore(x, [], q);
    } else if es[0].id == id {
      assert Put(es, id, x)[1..] == es[1..];
      CountBefore(x, Datas(es[1..]), q);
      CountBefore(es[0].data, Datas(es[1..]), q);
    } else {
      PutCount(es[1..], id, x, q);
      assert Put(es, id, x)[1..] == Put(es[1..], id, x);
      CountBefore(es[0].data, Datas(es[1..]), q);
      CountBefore(es[0].data, Datas(Put(es[1..], id, x)), q);
    }
  }

  lemma CountAround(a: seq<Entry<Item>>, e: Entry<Item>, b: seq<Entry<Item>>, q: Query)
    ensures Count(Datas(a + [e] + b), q) == Count(Datas(a + b), q) + Hits(q, e.data)
  {
    DatasAppend(a, b);
    DatasAppend(a, [e] + b);
    assert a + [e] + b == a + ([e] + b) && ([e] + b)[1..] == b;
    CountAppend(Datas(a), Datas(b), q);
    CountAppend(Datas(a), [e.data] + Datas(b), q);
    CountBefore(e.data, Datas(b), q);
  }

  lemma DropCount(es: seq<Entry<Item>>, id: u32, q: Query)
    requires UniqueIds(es)
    ensures Count(Datas(Drop(es, id)), q) <= Count(Datas(es), q)
  {
    if Has(es, id) {
      var k :| 0 <= k < |es| && es[k].id == id;
      DropExisting(es, id, k);
      assert es == es[..k] + [es[k]] + es[k + 1..];
      CountAround(es[..k], es[k], es[k + 1..], q);
    } else {
      DropMissing(es, id);
    }
  }

  lemma PlacesOfReliable(s: State, p: SmallPacket, stats: Stats, q: Query)
    requires Fresh(s) && s.server.Idle?
    ensures Places(SendReliable(s, p).(stats := stats), q) <= Places(s, q) + Hits(q, ItemOf(s.clock, Queue, p))
  {
    if ObjectOf(p).Some? {
      DropCount(s.updates, ObjectOf(p).value, q);
    }
  }

  lemma PlacesOfServerTime(s: State, p: SmallPacket, q: Query)
    ensures Places(SendLatestServerTime(s, p), q) <= Places(s, q) + Hits(q, ItemOf(s.clock, Slot, p))
  {
  }

  lemma PlacesOfUpdate(s: State, p: SmallPacket, q: Query)
    requires Replaceable(Submission(p, true))
    ensures Places(SendRealtimeUpdate(s, p), q) <= Places(s, q) + Hits(q, ItemOf(s.clock, Latest, p))
  {
    PutCount(s.updates, ObjectOf(p).value, ItemOf(s.clock, Latest, p), q);
  }

  lemma PlacesOfSend(s: State, e: Event, k: nat)
    requires Fresh(s) && Enabled(s, e) && (e.DoSend? || e.DoSendRealtime?)
    ensures Places(Next(s, e), Stamped(k)) <= Places(s, Stamped(k)) + if k == s.clock then 1 else 0
  {
    if Replaceable(SubmittedBy(s, e)[0]) {
      PlacesOfUpdate(s, e.p, Stamped(k));
    } else if e.p.action == SERVER_TIME {
      PlacesOfServerTime(s, e.p, Stamped(k));
    } else {
      PlacesOfReliable(s, e.p, Next(s, e).stats, Stamped(k));
    }
  }

  /** Items leave one place for another. */
  lemma PlacesMoved(s: State, t: State, q: Query)
    requires Gone(t, q) + Queued(t, q) == Gone(s, q) + Queued(s, q) && t.slot == s.slot && t.updates == s.updates
    ensures Places(t, q) == Places(s, q)
  {
  }

  lemma TrySendRefused(s: State, full: bool, q: Query)
    requires s.server.Sending? && s.writer.Stopped?
    ensures Gone(TrySend(s, full), q) + Queued(TrySend(s, full), q) == Gone(s, q) + Queued(s, q)
  {
    CountSnoc(s.lost, s.server.item, q);
  }

  lemma TrySendTaken(s: State, full: bool, q: Query)
    requires s.server.Sending? && !s.writer.Stopped?
    ensures Gone(TrySend(s, full), q) == Gone(s, q) && Queued(TrySend(s, full), q) == Queued(s, q)
  {
    if full {
      CountSnoc(s.fallback, s.server.item, q);
    } else {
      CountSnoc(s.queue, s.server.item, q);
    }
  }

  lemma PlacesOfTrySend(s: State, full: bool, q: Query)
    requires s.server.Sending?
    ensures Places(TrySend(s, full), q) == Places(s, q)
  {
    if s.writer.Stopped? {
      TrySendRefused(s, full, q);
    } else {
      TrySendTaken(s, full, q);
    }
    PlacesMoved(s, TrySend(s, full), q);
  }

  lemma PlacesOfQueued(s: State, rest: seq<Item>, x: Item, q: Query)
    requires Count(s.fallback, q) == Count(rest, q) + Hits(q, x)
    ensures Places(s.(fallback := rest, queue := s.queue + [x]), q) == Places(s, q)
  {
    CountSnoc(s.queue, x, q);
  }

  lemma PlacesOfRefused(s: State, rest: seq<Item>, x: Item, stats: Stats, q: Query)
    requires Count(s.fallback, q) == Count(rest, q) + Hits(q, x)
    ensures Places(s.(fallback := rest, lost := s.lost + [x], stats := stats), q) == Places(s, q)
  {
    CountSnoc(s.lost, x, q);
  }

  lemma PlacesOfFallback(s: State, i: nat, q: Query)
    requires i < |s.fallback|
    ensures Places(Fallback(s, i), q) == Places(s, q)
  {
    var rest := s.fallback[..i] + s.fallback[i + 1..];
    CountWithout(s.fallback, i, q);
    PlacesOfQueued(s, rest, s.fallback[i], q);
    PlacesOfRefused(s, rest, s.fallback[i], Fallback(s, i).stats, q);
  }

  lemma PlacesOfStop(s: State, q: Query)
    requires !s.writer.Writing?
    ensures Places(Stop(s), q) == Places(s, q)
  {
    CountAppend(s.lost, s.queue, q);
  }

  lemma PlacesOfWritten(s: State, q: Query)
    requires s.writer.Writing?
    ensures Places(Write(s, true), q) == Places(s, q)
  {
    CountSnoc(s.wire, s.writer.item, q);
    PlacesMoved(s, Write(s, true), q);
  }

  lemma HandToLost(s: State, t: State, q: Query)
    requires s.writer.Writing? && t == s.(lost := s.lost + [s.writer.item], writer := AtSlot, stats := t.stats)
    ensures Gone(t, q) == Gone(s, q) && Queued(t, q) == Queued(s, q)
  {
    CountSnoc(s.lost, s.writer.item, q);
  }

  lemma PlacesOfLost(s: State, q: Query)
    requires s.writer.Writing?
    ensures Places(Write(s, false), q) == Places(s, q)
  {
    var t := s.(lost := s.lost + [s.writer.item], writer := AtSlot,
                stats := s.stats.(writeErrors := s.stats.writeErrors + 1));
    HandToLost(s, t, q);
    PlacesMoved(s, t, q);
    PlacesOfStop(t, q);
    assert Write(s, false) == Stop(t);
  }

  lemma PlacesOfWrite(s: State, ok: bool, q: Query)
    requires s.writer.Writing?
    ensures Places(Write(s, ok), q) == Places(s, q)
  {
    if ok {
      PlacesOfWritten(s, q);
    } else {
      PlacesOfLost(s, q);
    }
  }

  lemma PlacesOfTakeUpdate(s: State, q: Query)
    requires !s.writer.Writing?
    ensures Places(TakeUpdate(s), q) == Places(s, q)
  {
    if s.updates != [] {
      CountBefore(s.updates[0].data, Datas(s.updates[1..]), q);
    } else {
      PlacesOfStop(s, q);
    }
  }

  lemma PlacesOfTakeQueued(s: State, q: Query)
    requires !s.writer.Writing? && s.queue != []
    ensures Places(s.(queue := s.queue[1..], writer := Writing(s.queue[0])), q) == Places(s, q)
  {
  }

  lemma PlacesOfMove(s: State, writer: Writer, closed: bool, q: Query)
    requires !s.writer.Writing? && !writer.Writing?
    ensures Places(s.(writer := writer, queueClosed := closed), q) == Places(s, q)
  {
  }

  lemma PlacesOfTake(s: State, e: Event, q: Query)
    requires Enabled(s, e) && (e.DoTakeServerTime? || e.DoTryRecv? || e.DoTakeUpdate? || e.Wake? || e.DoRecvWaiting?)
    ensures Places(Next(s, e), q) == Places(s, q)
  {
    if e.DoTakeUpdate? {
      PlacesOfTakeUpdate(s, q);
    } else if !e.DoTakeServerTime? && Next(s, e).writer.Writing? {
      PlacesOfTakeQueued(s, q);
    } else if !Next(s, e).writer.Writing? {
      PlacesOfMove(s, Next(s, e).writer, Next(s, e).queueClosed, q);
    }
  }

  lemma PlacesOfQuiet(s: State, e: Event, q: Query)
    requires Enabled(s, e) && !e.DoSend? && !e.DoSendRealtime?
    ensures Places(Next(s, e), q) == Places(s, q)
  {
    match e
    case DoTrySend(full) => PlacesOfTrySend(s, full, q);
    case DoFallback(i) => PlacesOfFallback(s, i, q);
    case DoWrite(ok) => PlacesOfWrite(s, ok, q);
    case DropSenders =>
    case _ => PlacesOfTake(s, e, q);
  }

  lemma ClockStep(s: State, e: Event)
    requires Enabled(s, e)
    ensures Next(s, e).clock == s.clock + if e.DoSend? || e.DoSendRealtime? then 1 else 0
  {
  }

  lemma PlacesStep(s: State, e: Event, k: nat)
    requires Fresh(s) && Enabled(s, e)
    requires Places(s, Stamped(k)) <= if k < s.clock then 1 else 0
    ensures Places(Next(s, e), Stamped(k)) <= if k < Next(s, e).clock then 1 else 0
  {
    ClockStep(s, e);
    if e.DoSend? || e.DoSendRealtime? {
      PlacesOfSend(s, e, k);
    } else {
      PlacesOfQuiet(s, e, Stamped(k));
    }
  }

  lemma {:induction false} PlacesRun(s: State, es: seq<Event>, k: nat)
    requires Fresh(s) && IsRun(s, es)
    requires Places(s, Stamped(k)) <= if k < s.clock then 1 else 0
    ensures Places(Run(s, es), Stamped(k)) <= if k < Run(s, es).clock then 1 else 0
    decreases es
  {
    if es != [] {
      FreshStep(s, es[0]);
      PlacesStep(s, es[0], k);
      PlacesRun(Next(s, es[0]), es[1..], k);
    }
  }

  // ---- only a superseded packet is in none ----

  /** A later server time supersedes an earlier one; a later replaceable update, or a deletion or hiding, of
      an object an earlier replaceable update of it. */
  predicate Supersedes(y: Submission, x: Submission) {
    || (RouteOf(x) == Slot && RouteOf(y) == Slot)
    || (Replaceable(x) && Removes(y, FromLe32(x.p.data)))
    || (Replaceable(x) && Replaceable(y) && FromLe32(y.p.data) == FromLe32(x.p.data))
  }

  /** A packet that deletes or hides the object, in whatever way it was submitted. */
  predicate Removes(x: Submission, id: u32) {
    (x.p.action == DELETE_OBJECT || x.p.action == HIDE_OBJECT) && |x.p.data| >= 4 && FromLe32(x.p.data) == id
  }

  ghost predicate Superseded(subs: seq<Submission>, k: nat)
    requires k < |subs|
  {
    exists j :: k < j < |subs| && Supersedes(subs[j], subs[k])
  }

  lemma SupersededSnoc(subs: seq<Submission>, x: Submission, k: nat)
    requires k < |subs| && !Superseded(subs + [x], k)
    ensures !Superseded(subs, k) && !Supersedes(x, subs[k])
  {
    assert (subs + [x])[|subs|] == x;
    assert forall j :: 0 <= j < |subs| ==> (subs + [x])[j] == subs[j];
  }

  /** A packet that is not superseded is somewhere. */
  ghost predicate Kept(s: State, subs: seq<Submission>, k: nat) {
    k < |subs| && !Superseded(subs, k) ==> Places(s, Stamped(k)) >= 1
  }

  /** The entry of an id holds an update of that object. */
  lemma EntryOf(s: State, subs: seq<Submission>, i: nat)
    requires Traced(s, subs) && Fresh(s) && i < |s.updates|
    ensures var x := s.updates[i].data;
            x.stamp < |subs| && Replaceable(subs[x.stamp]) && FromLe32(subs[x.stamp].p.data) == s.updates[i].id
  {
    assert Genuine(s.updates[i].data, subs);
    assert s.updates[i] in s.updates && PendingOk(s.clock, s.submitted, s.updates[i]);
  }

  lemma DropOther(es: seq<Entry<Item>>, id: u32, q: Query)
    requires UniqueIds(es) && forall i :: 0 <= i < |es| && es[i].id == id ==> Hits(q, es[i].data) == 0
    ensures Count(Datas(Drop(es, id)), q) == Count(Datas(es), q)
  {
    if Has(es, id) {
      var k :| 0 <= k < |es| && es[k].id == id;
      DropExisting(es, id, k);
      assert es == es[..k] + [es[k]] + es[k + 1..];
      CountAround(es[..k], es[k], es[k + 1..], q);
    } else {
      DropMissing(es, id);
    }
  }

  lemma PutOther(es: seq<Entry<Item>>, id: u32, x: Item, q: Query)
    requires UniqueIds(es) && forall i :: 0 <= i < |es| && es[i].id == id ==> Hits(q, es[i].data) == 0
    ensures Count(Datas(Put(es, id, x)), q) == Count(Datas(es), q) + Hits(q, x)
  {
    if Has(es, id) {
      var k :| 0 <= k < |es| && es[k].id == id;
      PutExisting(es, id, x, k);
      assert es == es[..k] + [es[k]] + es[k + 1..];
      assert Put(es, id, x) == es[..k] + [Entry(id, x)] + es[k + 1..];
      CountAround(es[..k], es[k], es[k + 1..], q);
      CountAround(es[..k], Entry(id, x), es[k + 1..], q);
    } else {
      PutNew(es, id, x);
      assert es + [Entry(id, x)] == es + [Entry(id, x)] + [] && es + [] == es;
      CountAround(es, Entry(id, x), [], q);
    }
  }

  /** No entry of the id holds the packet. */
  lemma NotUnder(s: State, subs: seq<Submission>, id: u32, k: nat)
    requires Traced(s, subs) && Fresh(s) && k <= |subs|
    requires k < |subs| && Replaceable(subs[k]) ==> FromLe32(subs[k].p.data) != id
    ensures forall i :: 0 <= i < |s.updates| && s.updates[i].id == id ==> Hits(Stamped(k), s.updates[i].data) == 0
  {
    forall i | 0 <= i < |s.updates| && s.updates[i].id == id ensures Hits(Stamped(k), s.updates[i].data) == 0 {
      EntryOf(s, subs, i);
    }
  }

  lemma KeptByDrop(s: State, p: SmallPacket, subs: seq<Submission>, k: nat)
    requires Traced(s, subs) && Fresh(s) && k <= |subs|
    requires k < |subs| && Replaceable(subs[k]) ==> !Removes(Submission(p, false), FromLe32(subs[k].p.data))
    ensures Count(Datas(WithoutPendingUpdate(s, p).updates), Stamped(k)) == Count(Datas(s.updates), Stamped(k))
  {
    if p.action in {DELETE_OBJECT, HIDE_OBJECT} && ObjectOf(p).Some? {
      NotUnder(s, subs, ObjectOf(p).value, k);
      DropOther(s.updates, ObjectOf(p).value, Stamped(k));
    }
  }

  lemma PlacesWithSender(s: State, t: State, x: Item, q: Query)
    requires s.server.Idle? && t == s.(server := Sending(x), updates := t.updates, submitted := t.submitted,
                                       clock := t.clock, stats := t.stats)
    requires Count(Datas(t.updates), q) == Count(Datas(s.updates), q)
    ensures Places(t, q) == Places(s, q) + Hits(q, x)
  {
  }

  lemma KeptByReliable(s: State, p: SmallPacket, subs: seq<Submission>, stats: Stats, k: nat)
    requires Traced(s, subs) && Fresh(s) && s.server.Idle? && k <= |subs|
    requires k < |subs| && Replaceable(subs[k]) ==> !Removes(Submission(p, false), FromLe32(subs[k].p.data))
    ensures Places(SendReliable(s, p).(stats := stats), Stamped(k))
            == Places(s, Stamped(k)) + if k == s.clock then 1 else 0
  {
    KeptByDrop(s, p, subs, k);
    PlacesWithSender(s, SendReliable(s, p).(stats := stats), ItemOf(s.clock, Queue, p), Stamped(k));
  }

  lemma KeptByServerTime(s: State, p: SmallPacket, subs: seq<Submission>, k: nat)
    requires Traced(s, subs) && Fresh(s) && k <= |subs| && (k < |subs| ==> RouteOf(subs[k]) != Slot)
    ensures Places(SendLatestServerTime(s, p), Stamped(k)) == Places(s, Stamped(k)) + if k == s.clock then 1 else 0
  {
    assert s.slot.Some? ==> Genuine(s.slot.value, subs);
  }

  lemma PlacesWithUpdates(s: State, t: State, x: Item, q: Query)
    requires t == s.(updates := t.updates, clock := t.clock, stats := t.stats)
    requires Count(Datas(t.updates), q) == Count(Datas(s.updates), q) + Hits(q, x)
    ensures Places(t, q) == Places(s, q) + Hits(q, x)
  {
  }

  lemma KeptByUpdate(s: State, p: SmallPacket, subs: seq<Submission>, k: nat)
    requires Traced(s, subs) && Fresh(s) && k <= |subs| && Replaceable(Submission(p, true))
    requires k < |subs| && Replaceable(subs[k]) ==> FromLe32(subs[k].p.data) != FromLe32(p.data)
    ensures Places(SendRealtimeUpdate(s, p), Stamped(k)) == Places(s, Stamped(k)) + if k == s.clock then 1 else 0
  {
    NotUnder(s, subs, ObjectOf(p).value, k);
    PutOther(s.updates, ObjectOf(p).value, ItemOf(s.clock, Latest, p), Stamped(k));
    PlacesWithUpdates(s, SendRealtimeUpdate(s, p), ItemOf(s.clock, Latest, p), Stamped(k));
  }

  lemma NotSuperseded(x: Submission, y: Submission)
    requires !Supersedes(y, x)
    ensures Replaceable(x) ==> !Removes(y, FromLe32(x.p.data))
    ensures y.p.action == SERVER_TIME && !Replaceable(y) ==> RouteOf(x) != Slot
    ensures Replaceable(x) && Replaceable(y) ==> FromLe32(x.p.data) != FromLe32(y.p.data)
  {
  }

  /** A submission supersedes what it should, and nothing else. */
  lemma KeptBySend(s: State, t: State, x: Submission, subs: seq<Submission>, k: nat)
    requires Traced(s, subs) && Fresh(s) && k <= |subs| && (k < |subs| ==> !Supersedes(x, subs[k]))
    requires Replaceable(x) ==> x == Submission(x.p, true) && t == SendRealtimeUpdate(s, x.p)
    requires RouteOf(x) == Slot ==> t == SendLatestServerTime(s, x.p)
    requires Reliable(x) ==> s.server.Idle? && t == SendReliable(s, x.p).(stats := t.stats)
    ensures Places(t, Stamped(k)) == Places(s, Stamped(k)) + if k == s.clock then 1 else 0
  {
    if k < |subs| {
      NotSuperseded(subs[k], x);
    }
    if Replaceable(x) {
      KeptByUpdate(s, x.p, subs, k);
    } else if Reliable(x) {
      KeptByReliable(s, x.p, subs, t.stats, k);
    } else {
      KeptByServerTime(s, x.p, subs, k);
    }
  }

  lemma KeptStep(s: State, e: Event, subs: seq<Submission>, k: nat)
    requires Traced(s, subs) && Fresh(s) && Enabled(s, e) && Kept(s, subs, k)
    ensures Kept(Next(s, e), subs + SubmittedBy(s, e), k)
  {
    if e.DoSend? || e.DoSendRealtime? {
      var x := SubmittedBy(s, e)[0];
      if k <= |subs| && !Superseded(subs + [x], k) {
        if k < |subs| {
          SupersededSnoc(subs, x, k);
          assert (subs + [x])[k] == subs[k];
        }
        WayOf(s, e, x);
        KeptBySend(s, Next(s, e), x, subs, k);
      }
    } else {
      assert subs + [] == subs;
      PlacesOfQuiet(s, e, Stamped(k));
    }
  }

  lemma {:induction false} KeptRun(s: State, es: seq<Event>, subs: seq<Submission>, k: nat)
    requires Traced(s, subs) && Fresh(s) && IsRun(s, es) && Kept(s, subs, k)
    ensures Kept(Run(s, es), subs + Submitted(s, es), k)
    decreases es
  {
    if es == [] {
      assert subs + [] == subs;
    } else {
      TracedStep(s, es[0], subs);
      FreshStep(s, es[0]);
      KeptStep(s, es[0], subs, k);
      SubmittedFirst(s, es, subs);
      KeptRun(Next(s, es[0]), es[1..], subs + SubmittedBy(s, es[0]), k);
    }
  }

  lemma {:induction false} CountGenuine(xs: seq<Item>, subs: seq<Submission>, k: nat, route: Route)
    requires k < |subs| && RouteOf(subs[k]) != route
    requires AllGenuine(xs, subs) && forall i :: 0 <= i < |xs| ==> xs[i].route == route
    ensures Count(xs, Stamped(k)) == 0
  {
    if xs != [] {
      assert Genuine(xs[0], subs);
      assert forall i :: 0 <= i < |xs[1..]| ==> xs[1..][i] == xs[i + 1];
      CountGenuine(xs[1..], subs, k, route);
    }
  }

  lemma {:induction false} DatasAt(es: seq<Entry<Item>>)
    ensures |Datas(es)| == |es| && forall i :: 0 <= i < |es| ==> Datas(es)[i] == es[i].data
  {
    if es != [] {
      DatasAt(es[1..]);
    }
  }

  /** A reliable packet is not in the slot or among the pending updates. */
  lemma NotAside(s: State, subs: seq<Submission>, k: nat)
    requires Traced(s, subs) && Fresh(s) && k < |subs| && Reliable(subs[k])
    ensures Places(s, Stamped(k)) == Gone(s, Stamped(k)) + Queued(s, Stamped(k))
  {
    DatasAt(s.updates);
    forall i | 0 <= i < |s.updates| ensures Genuine(Datas(s.updates)[i], subs) && Datas(s.updates)[i].route == Latest {
      assert Genuine(s.updates[i].data, subs);
      EntryOf(s, subs, i);
    }
    CountGenuine(Datas(s.updates), subs, k, Latest);
    assert s.slot.Some? ==> Genuine(s.slot.value, subs);
  }

  /** Whatever the interleaving: no submitted packet is in two places, be it pending, queued, with the
      writer, written or lost; one that is not superseded is in exactly one; and one that is neither a
      server time nor a replaceable update is always in exactly one place of the reliable way. */
  lemma EveryPacketHasItsPlace(es: seq<Event>, k: nat)
    requires IsRun(INITIAL, es) && k < |Submitted(INITIAL, es)|
    ensures var s, subs := Run(INITIAL, es), Submitted(INITIAL, es);
            && Places(s, Stamped(k)) <= 1
            && (!Superseded(subs, k) ==> Places(s, Stamped(k)) == 1)
            && (Reliable(subs[k]) ==> Gone(s, Stamped(k)) + Queued(s, Stamped(k)) == 1)
  {
    var s, subs := Run(INITIAL, es), Submitted(INITIAL, es);
    assert [] + subs == subs;
    EverythingIsSubmitted(es);
    FreshRun(INITIAL, es);
    PlacesRun(INITIAL, es, k);
    KeptRun(INITIAL, es, [], k);
    if Reliable(subs[k]) {
      NotAside(s, subs, k);
    }
  }

  /** Only server times are ever in the slot, and only replaceable updates among the pending ones. */
  lemma SlotHoldsServerTimes(es: seq<Event>)
    requires IsRun(INITIAL, es)
    ensures var s, subs := Run(INITIAL, es), Submitted(INITIAL, es);
            && (s.slot.Some? ==> s.slot.value.stamp < |subs| && subs[s.slot.value.stamp].p.action == SERVER_TIME)
            && (forall e :: e in s.updates ==>
                  e.data.stamp < |subs| && Replaceable(subs[e.data.stamp])
                  && FromLe32(subs[e.data.stamp].p.data) == e.id)
  {
    var s, subs := Run(INITIAL, es), Submitted(INITIAL, es);
    EverythingIsSubmitted(es);
    FreshRun(INITIAL, es);
    forall e | e in s.updates
      ensures e.data.stamp < |subs| && Replaceable(subs[e.data.stamp])
              && FromLe32(subs[e.data.stamp].p.data) == e.id
    {
      var i :| 0 <= i < |s.updates| && s.updates[i] == e;
      assert Genuine(s.updates[i].data, subs) && PendingOk(s.clock, s.submitted, e);
    }
  }

  /** No replaceable update of an object is written after a deletion or hiding of it that was submitted
      later. */
  lemma NoUpdateAfterRemoval(es: seq<Event>, i: nat, j: nat)
    requires IsRun(INITIAL, es) && i < j < |Run(INITIAL, es).wire|
    ensures var wire, subs := Run(INITIAL, es).wire, Submitted(INITIAL, es);
            && wire[i].stamp < |subs| && wire[j].stamp < |subs|
            && wire[i].bytes == AsBytes(subs[wire[i].stamp].p) && wire[j].bytes == AsBytes(subs[wire[j].stamp].p)
            && var update, removal := subs[wire[j].stamp], subs[wire[i].stamp];
               !(Replaceable(update) && Removes(removal, FromLe32(update.p.data)) && wire[j].stamp < wire[i].stamp)
  {
    var wire, subs := Run(INITIAL, es).wire, Submitted(INITIAL, es);
    EverythingIsSubmitted(es);
    NoStaleUpdateAfterDeletion(es);
    assert Genuine(wire[i], subs) && Genuine(wire[j], subs);
    assert !Outdated(wire[j], wire[i]);
  }

  /** Of the replaceable updates, each is replaced by a newer one, dropped by a deletion, pending, with the
      writer, written or lost; of the server times, each is replaced, pending, with the writer, written or
      lost. */
  lemma ReplaceableAccount(es: seq<Event>)
    requires IsRun(INITIAL, es)
    ensures var s, subs := Run(INITIAL, es), Submitted(INITIAL, es);
            && CountOf(subs, Latest) == s.stats.updatesReplaced + s.stats.updatesDroppedByLifecycle
                                        + Gone(s, OfRoute(Latest)) + |s.updates|
            && CountOf(subs, Slot) == s.stats.serverTimeReplaced + Gone(s, OfRoute(Slot))
                                      + (if s.slot.Some? then 1 else 0)
  {
    EverythingIsSubmitted(es);
    ConservationFromStart(es, Item(0, Queue, UNKNOWN, None, []));
  }

  // ---- order ----

  predicate Queueable(x: Item) {
    x.route == Queue
  }

  function InHand(s: State): seq<Item> {
    if s.writer.Writing? && Queueable(s.writer.item) then [s.writer.item] else []
  }

  function InServer(s: State): seq<Item> {
    if s.server.Sending? then [s.server.item] else []
  }

  /** The reliable packets: written, with the writer, queued, about to be queued. */
  function Line(s: State): seq<Item> {
    Filter(s.wire, Queueable) + InHand(s) + s.queue + InServer(s)
  }

  ghost predicate Ascending(xs: seq<Item>, clock: nat) {
    && (forall i, j :: 0 <= i < j < |xs| ==> xs[i].stamp < xs[j].stamp)
    && (forall i :: 0 <= i < |xs| ==> xs[i].stamp < clock)
  }

  /** Nothing has overflowed, and the reliable packets stand in line as they were submitted. */
  ghost predicate InOrder(s: State) {
    s.fallback == [] && Ascending(Line(s), s.clock)
  }

  lemma AscendingCut(a: seq<Item>, b: seq<Item>, c: seq<Item>, clock: nat)
    requires Ascending(a + b + c, clock)
    ensures Ascending(a + c, clock)
  {
    forall i | 0 <= i < |a + c| ensures (a + c)[i] == (a + b + c)[if i < |a| then i else i + |b|] {
    }
  }

  lemma OrderedSend(s: State, t: State, x: Item)
    requires InOrder(s) && s.server.Idle? && x.stamp == s.clock < t.clock
    requires t.wire == s.wire && t.writer == s.writer && t.queue == s.queue && t.fallback == s.fallback
    requires t.server == Sending(x) || t.server == Idle
    ensures InOrder(t)
  {
    assert InServer(s) == [];
    assert Line(s) + [] == Line(s);
    if t.server.Sending? {
      assert Line(t) == Line(s) + [x];
    } else {
      assert Line(t) == Line(s);
    }
  }

  lemma OrderedTrySend(s: State)
    requires InOrder(s) && s.server.Sending?
    ensures InOrder(TrySend(s, false))
  {
    var t, head := TrySend(s, false), Filter(s.wire, Queueable) + InHand(s);
    if s.writer.Stopped? {
      AscendingCut(head + s.queue, [s.server.item], [], s.clock);
      assert head + s.queue + [s.server.item] + [] == Line(s);
      assert Line(t) == head + s.queue + [];
    } else {
      assert Line(t) == head + (s.queue + [s.server.item]) + [];
      assert Line(t) == Line(s);
    }
  }

  lemma EmptyHanded(s: State)
    requires !s.writer.Writing?
    ensures Line(s) == Filter(s.wire, Queueable) + s.queue + InServer(s)
  {
    assert Filter(s.wire, Queueable) + [] == Filter(s.wire, Queueable);
  }

  lemma OrderedStop(s: State)
    requires InOrder(s) && !s.writer.Writing?
    ensures InOrder(Stop(s))
  {
    var head := Filter(s.wire, Queueable);
    EmptyHanded(s);
    EmptyHanded(Stop(s));
    AscendingCut(head, s.queue, InServer(s), s.clock);
    assert head + [] == head;
  }

  lemma FilterSnoc(xs: seq<Item>, x: Item)
    ensures Filter(xs + [x], Queueable) == Filter(xs, Queueable) + if Queueable(x) then [x] else []
  {
    assert (xs + [x])[..|xs|] == xs;
  }

  lemma OrderedWritten(s: State)
    requires InOrder(s) && s.writer.Writing?
    ensures InOrder(Write(s, true))
  {
    FilterSnoc(s.wire, s.writer.item);
    EmptyHanded(Write(s, true));
    assert Line(s) == Filter(s.wire + [s.writer.item], Queueable) + s.queue + InServer(s);
  }

  lemma Regrouped(a: seq<Item>, b: seq<Item>, c: seq<Item>, d: seq<Item>)
    ensures a + b + c + d == a + b + (c + d) && a + (c + d) == a + c + d
  {
  }

  lemma HandDropped(s: State, t: State)
    requires InOrder(s) && !t.writer.Writing? && t.fallback == s.fallback && t.clock == s.clock
    requires t.wire == s.wire && t.queue == s.queue && t.server == s.server
    ensures InOrder(t)
  {
    var head := Filter(s.wire, Queueable);
    Regrouped(head, InHand(s), s.queue, InServer(s));
    AscendingCut(head, InHand(s), s.queue + InServer(s), s.clock);
    EmptyHanded(t);
  }

  lemma OrderedLost(s: State)
    requires InOrder(s) && s.writer.Writing?
    ensures InOrder(Write(s, false))
  {
    var t := s.(lost := s.lost + [s.writer.item], writer := AtSlot,
                stats := s.stats.(writeErrors := s.stats.writeErrors + 1));
    HandDropped(s, t);
    OrderedStop(t);
    assert Write(s, false) == Stop(t);
  }

  lemma FirstOfQueue(head: seq<Item>, queue: seq<Item>, tail: seq<Item>)
    requires queue != []
    ensures head + queue + tail == head + [queue[0]] + queue[1..] + tail
  {
    assert queue == [queue[0]] + queue[1..];
  }

  lemma OrderedTakeQueued(s: State)
    requires InOrder(s) && !s.writer.Writing? && s.queue != [] && s.queue[0].route == Queue
    ensures InOrder(s.(queue := s.queue[1..], writer := Writing(s.queue[0])))
  {
    EmptyHanded(s);
    FirstOfQueue(Filter(s.wire, Queueable), s.queue, InServer(s));
    assert Line(s.(queue := s.queue[1..], writer := Writing(s.queue[0]))) == Line(s);
  }

  lemma OrderedMove(s: State, writer: Writer, slot: Option<Item>, updates: seq<Entry<Item>>, closed: bool)
    requires InOrder(s) && !s.writer.Writing? && (writer.Writing? ==> !Queueable(writer.item))
    ensures InOrder(s.(writer := writer, slot := slot, updates := updates, queueClosed := closed))
  {
    assert Line(s.(writer := writer, slot := slot, updates := updates, queueClosed := closed)) == Line(s);
  }

  lemma OrderedWriterStep(s: State, e: Event)
    requires InOrder(s) && Fresh(s) && Enabled(s, e)
    requires e.DoTakeServerTime? || e.DoTryRecv? || e.DoTakeUpdate? || e.Wake? || e.DoRecvWaiting?
    ensures InOrder(Next(s, e))
  {
    var t := Next(s, e);
    FreshIsRouted(s);
    if t.writer.Stopped? {
      OrderedStop(s);
    } else if t.queue != s.queue {
      OrderedTakeQueued(s);
    } else {
      OrderedMove(s, t.writer, t.slot, t.updates, t.queueClosed);
    }
  }

  lemma OrderedSubmission(s: State, e: Event)
    requires InOrder(s) && Enabled(s, e) && (e.DoSend? || e.DoSendRealtime?)
    ensures InOrder(Next(s, e))
  {
    OrderedSend(s, Next(s, e), ItemOf(s.clock, Queue, e.p));
  }

  lemma OrderedWrite(s: State, ok: bool)
    requires InOrder(s) && s.writer.Writing?
    ensures InOrder(Write(s, ok))
  {
    if ok {
      OrderedWritten(s);
    } else {
      OrderedLost(s);
    }
  }

  lemma OrderedDrop(s: State)
    requires InOrder(s)
    ensures InOrder(s.(sendersGone := true))
  {
    assert Line(s.(sendersGone := true)) == Line(s);
  }

  lemma OrderedStep(s: State, e: Event)
    requires InOrder(s) && Fresh(s) && Enabled(s, e) && e != DoTrySend(true)
    ensures InOrder(Next(s, e))
  {
    if e.DoSend? || e.DoSendRealtime? {
      OrderedSubmission(s, e);
    } else if e.DoTrySend? {
      OrderedTrySend(s);
    } else if e.DoWrite? {
      OrderedWrite(s, e.ok);
    } else if e.DropSenders? {
      OrderedDrop(s);
    } else if !e.DoFallback? {
      OrderedWriterStep(s, e);
    }
  }

  lemma {:induction false} OrderedRun(s: State, es: seq<Event>)
    requires InOrder(s) && Fresh(s) && IsRun(s, es) && DoTrySend(true) !in es
    ensures InOrder(Run(s, es))
    decreases es
  {
    if es != [] {
      assert es[0] in es && forall e :: e in es[1..] ==> e in es;
      FreshStep(s, es[0]);
      OrderedStep(s, es[0]);
      OrderedRun(Next(s, es[0]), es[1..]);
    }
  }

  /** As long as the queue never overflows, reliable packets are written in the order in which they were
      submitted. */
  lemma WrittenInOrder(es: seq<Event>)
    requires IsRun(INITIAL, es) && DoTrySend(true) !in es
    ensures var written := Filter(Run(INITIAL, es).wire, Queueable);
            forall i, j :: 0 <= i < j < |written| ==> written[i].stamp < written[j].stamp
  {
    OrderedRun(INITIAL, es);
    var s := Run(INITIAL, es);
    var written := Filter(s.wire, Queueable);
    forall i, j | 0 <= i < j < |written| ensures written[i].stamp < written[j].stamp {
      assert Line(s)[i] == written[i] && Line(s)[j] == written[j];
    }
  }

  // ---- losses and the other counters ----

  function CountMalformed(subs: seq<Submission>): nat {
    if subs == [] then 0
    else
      var k := |subs| - 1;
      CountMalformed(subs[..k]) + if Malformed(subs[k]) then 1 else 0
  }

  /** While the writer is at work nothing is lost, no error is counted, and each reliable packet is counted as
      queued or as overflowed. */
  ghost predicate Counted(s: State, subs: seq<Submission>) {
    && s.stats.malformedFallbacks == CountMalformed(subs)
    && (!s.writer.Stopped? ==>
          && s.lost == [] && s.stats.reliableSendFailed == 0 && s.stats.writeErrors == 0
          && s.stats.reliableQueued + s.stats.reliableFallbackSpawned + |InServer(s)| == CountOf(subs, Queue))
  }

  lemma CountMalformedSnoc(subs: seq<Submission>, x: Submission)
    ensures CountMalformed(subs + [x])
            == CountMalformed(subs) + if Malformed(x) then 1 else 0
  {
    assert (subs + [x])[..|subs|] == subs;
  }

  predicate Malformed(x: Submission) {
    x.realtime && x.p.action == UPDATE_OBJECT && |x.p.data| < 4
  }

  /** What a submission counts. */
  lemma SendCounts(s: State, e: Event, x: Submission)
    requires Enabled(s, e) && (e.DoSend? || e.DoSendRealtime?) && [x] == SubmittedBy(s, e)
    ensures var t := Next(s, e);
            && t.writer == s.writer && t.lost == s.lost && (t.server.Sending? <==> Reliable(x))
            && t.stats.malformedFallbacks == s.stats.malformedFallbacks + (if Malformed(x) then 1 else 0)
            && t.stats.reliableSendFailed == s.stats.reliableSendFailed && t.stats.writeErrors == s.stats.writeErrors
            && t.stats.reliableQueued == s.stats.reliableQueued
            && t.stats.reliableFallbackSpawned == s.stats.reliableFallbackSpawned
  {
  }

  lemma CountedSend(s: State, e: Event, subs: seq<Submission>)
    requires Counted(s, subs) && Enabled(s, e) && (e.DoSend? || e.DoSendRealtime?)
    ensures Counted(Next(s, e), subs + SubmittedBy(s, e))
  {
    var x := SubmittedBy(s, e)[0];
    SendCounts(s, e, x);
    CountedMore(s, Next(s, e), x, subs);
  }

  lemma CountedMore(s: State, t: State, x: Submission, subs: seq<Submission>)
    requires Counted(s, subs) && s.server.Idle?
    requires t.writer == s.writer && t.lost == s.lost && (t.server.Sending? <==> Reliable(x))
    requires t.stats.malformedFallbacks == s.stats.malformedFallbacks + (if Malformed(x) then 1 else 0)
    requires t.stats.reliableSendFailed == s.stats.reliableSendFailed && t.stats.writeErrors == s.stats.writeErrors
    requires t.stats.reliableQueued == s.stats.reliableQueued
    requires t.stats.reliableFallbackSpawned == s.stats.reliableFallbackSpawned
    ensures Counted(t, subs + [x])
  {
    CountMalformedSnoc(subs, x);
    CountOfSnoc(subs, x, Queue);
  }

  lemma CountedQuiet(s: State, e: Event, subs: seq<Submission>)
    requires Counted(s, subs) && Enabled(s, e) && !e.DoSend? && !e.DoSendRealtime?
    ensures Counted(Next(s, e), subs)
  {
  }

  lemma CountedStep(s: State, e: Event, subs: seq<Submission>)
    requires Counted(s, subs) && Enabled(s, e)
    ensures Counted(Next(s, e), subs + SubmittedBy(s, e))
  {
    if e.DoSend? || e.DoSendRealtime? {
      CountedSend(s, e, subs);
    } else {
      CountedQuiet(s, e, subs);
      assert subs + [] == subs;
    }
  }

  lemma {:induction false} CountedRun(s: State, es: seq<Event>, subs: seq<Submission>)
    requires Counted(s, subs) && IsRun(s, es)
    ensures Counted(Run(s, es), subs + Submitted(s, es))
    decreases es
  {
    if es == [] {
      assert subs + [] == subs;
    } else {
      CountedStep(s, es[0], subs);
      SubmittedFirst(s, es, subs);
      CountedRun(Next(s, es[0]), es[1..], subs + SubmittedBy(s, es[0]));
    }
  }

  /** As long as no write fails and the connection is not given up, nothing is lost. */
  lemma NothingLostAtWork(es: seq<Event>)
    requires IsRun(INITIAL, es)
    ensures Counted(Run(INITIAL, es), Submitted(INITIAL, es))
  {
    CountedRun(INITIAL, es, []);
    assert [] + Submitted(INITIAL, es) == Submitted(INITIAL, es);
  }

  /** Once the writer has stopped, every packet that is lost is counted as one that could not be sent. */
  lemma {:induction false} FailuresCounted(s: State, es: seq<Event>)
    requires s.writer.Stopped? && IsRun(s, es)
    ensures var t := Run(s, es);
            t.writer.Stopped? && t.wire == s.wire
            && |t.lost| - |s.lost| == t.stats.reliableSendFailed - s.stats.reliableSendFailed
    decreases es
  {
    if es != [] {
      FailuresCounted(Next(s, es[0]), es[1..]);
    }
  }

  // ---- order with overflow ----

  /** Written, with the writer, queued: the reliable packets that are past the overflow. */
  function Path(s: State): seq<Item> {
    Filter(s.wire, Queueable) + InHand(s) + s.queue
  }

  ghost predicate Absent(xs: seq<Item>, k: nat) {
    forall i :: 0 <= i < |xs| ==> xs[i].stamp != k
  }

  ghost predicate Precedes(xs: seq<Item>, a: nat, b: nat) {
    exists i :: 0 <= i < |xs| && xs[i].stamp == a && Absent(xs[..i], b)
  }

  /** The one comes before the other, or the other never comes. */
  ghost predicate Ahead(s: State, a: nat, b: nat) {
    Precedes(Path(s), a, b) || (s.writer.Stopped? && Absent(Path(s), b))
  }

  lemma PrecedesLonger(xs: seq<Item>, more: seq<Item>, a: nat, b: nat)
    requires Precedes(xs, a, b)
    ensures Precedes(xs + more, a, b)
  {
    var i :| 0 <= i < |xs| && xs[i].stamp == a && Absent(xs[..i], b);
    assert (xs + more)[..i] == xs[..i] && (xs + more)[i] == xs[i];
  }

  lemma PrecedesShorter(xs: seq<Item>, more: seq<Item>, a: nat, b: nat)
    requires Precedes(xs + more, a, b)
    ensures Precedes(xs, a, b) || Absent(xs, b)
  {
    var i :| 0 <= i < |xs + more| && (xs + more)[i].stamp == a && Absent((xs + more)[..i], b);
    if i < |xs| {
      assert xs[..i] == (xs + more)[..i];
    } else {
      forall j | 0 <= j < |xs| ensures xs[j].stamp != b {
        assert (xs + more)[..i][j] == xs[j];
      }
    }
  }

  lemma PathWithoutHand(s: State)
    requires !s.writer.Writing?
    ensures Path(s) == Filter(s.wire, Queueable) + s.queue
  {
    assert Filter(s.wire, Queueable) + [] == Filter(s.wire, Queueable);
  }

  /** Losing what is behind the written packets. */
  lemma AheadOfLost(s: State, t: State, a: nat, b: nat)
    requires Ahead(s, a, b) && t.writer.Stopped? && t.wire == s.wire && t.queue == []
    ensures Ahead(t, a, b)
  {
    var written := Filter(s.wire, Queueable);
    PathWithoutHand(t);
    assert written + [] == written && Path(s) == written + (InHand(s) + s.queue);
    if Precedes(Path(s), a, b) {
      PrecedesShorter(written, InHand(s) + s.queue, a, b);
    } else {
      forall j | 0 <= j < |written| ensures written[j].stamp != b {
        assert Path(s)[j] == written[j];
      }
    }
  }

  lemma AheadOfMore(s: State, t: State, more: seq<Item>, a: nat, b: nat)
    requires Ahead(s, a, b) && Path(t) == Path(s) + more
    requires if s.writer.Stopped? then t.writer.Stopped? && more == [] else true
    ensures Ahead(t, a, b)
  {
    if Precedes(Path(s), a, b) {
      PrecedesLonger(Path(s), more, a, b);
    } else {
      assert Path(s) + [] == Path(s);
    }
  }

  lemma PathOfWritten(s: State)
    requires s.writer.Writing?
    ensures Path(Write(s, true)) == Path(s)
  {
    FilterSnoc(s.wire, s.writer.item);
    PathWithoutHand(Write(s, true));
  }

  lemma PathOfTakeQueued(s: State)
    requires !s.writer.Writing? && s.queue != [] && Queueable(s.queue[0])
    ensures Path(s.(queue := s.queue[1..], writer := Writing(s.queue[0]))) == Path(s)
  {
    PathWithoutHand(s);
    assert s.queue == [s.queue[0]] + s.queue[1..];
  }

  lemma PathOfMove(s: State, writer: Writer, slot: Option<Item>, updates: seq<Entry<Item>>, closed: bool)
    requires !s.writer.Writing? && (writer.Writing? ==> !Queueable(writer.item))
    ensures Path(s.(writer := writer, slot := slot, updates := updates, queueClosed := closed)) == Path(s)
  {
  }

  lemma AheadWriterStep(s: State, e: Event, a: nat, b: nat)
    requires Ahead(s, a, b) && Fresh(s) && Enabled(s, e)
    requires e.DoTakeServerTime? || e.DoTryRecv? || e.DoTakeUpdate? || e.Wake? || e.DoRecvWaiting?
    ensures Ahead(Next(s, e), a, b)
  {
    var t := Next(s, e);
    FreshIsRouted(s);
    if t.writer.Stopped? {
      AheadOfLost(s, t, a, b);
    } else {
      if t.queue != s.queue {
        PathOfTakeQueued(s);
      } else {
        PathOfMove(s, t.writer, t.slot, t.updates, t.queueClosed);
      }
      assert Path(s) + [] == Path(s);
      AheadOfMore(s, t, [], a, b);
    }
  }

  lemma AheadAppend(s: State, t: State, x: Item, a: nat, b: nat)
    requires Ahead(s, a, b) && t.writer == s.writer && t.wire == s.wire
    requires t.queue == if s.writer.Stopped? then s.queue else s.queue + [x]
    ensures Ahead(t, a, b)
  {
    var head := Filter(s.wire, Queueable) + InHand(s);
    if s.writer.Stopped? {
      assert Path(t) == Path(s) + [];
      AheadOfMore(s, t, [], a, b);
    } else {
      assert head + (s.queue + [x]) == head + s.queue + [x];
      AheadOfMore(s, t, [x], a, b);
    }
  }

  lemma AheadSame(s: State, t: State, a: nat, b: nat)
    requires Ahead(s, a, b) && t.writer == s.writer && t.wire == s.wire && t.queue == s.queue
    ensures Ahead(t, a, b)
  {
    assert Path(t) == Path(s) + [];
    AheadOfMore(s, t, [], a, b);
  }

  lemma AheadWrite(s: State, ok: bool, a: nat, b: nat)
    requires Ahead(s, a, b) && s.writer.Writing?
    ensures Ahead(Write(s, ok), a, b)
  {
    if ok {
      PathOfWritten(s);
      assert Path(s) + [] == Path(s);
      AheadOfMore(s, Write(s, true), [], a, b);
    } else {
      AheadOfLost(s, Write(s, false), a, b);
    }
  }

  lemma AheadServerStep(s: State, e: Event, a: nat, b: nat)
    requires Ahead(s, a, b) && Enabled(s, e)
    requires e.DoSend? || e.DoSendRealtime? || e.DoTrySend? || e.DoFallback? || e.DropSenders?
    ensures Ahead(Next(s, e), a, b)
  {
    if e.DoTrySend? && !e.full {
      AheadAppend(s, Next(s, e), s.server.item, a, b);
    } else if e.DoFallback? {
      AheadAppend(s, Next(s, e), s.fallback[e.i], a, b);
    } else {
      AheadSame(s, Next(s, e), a, b);
    }
  }

  lemma AheadStep(s: State, e: Event, a: nat, b: nat)
    requires Ahead(s, a, b) && Fresh(s) && Enabled(s, e)
    ensures Ahead(Next(s, e), a, b)
  {
    if e.DoWrite? {
      AheadWrite(s, e.ok, a, b);
    } else if e.DoSend? || e.DoSendRealtime? || e.DoTrySend? || e.DoFallback? || e.DropSenders? {
      AheadServerStep(s, e, a, b);
    } else {
      AheadWriterStep(s, e, a, b);
    }
  }

  /** Overflow or not: a packet that is queued while another is not yet queued stays ahead of it. If the
      other is ever written, the first was written before. */
  lemma {:induction false} QueuedFirst(s: State, es: seq<Event>, a: nat, b: nat)
    requires Fresh(s) && IsRun(s, es) && Ahead(s, a, b)
    ensures Ahead(Run(s, es), a, b)
    decreases es
  {
    if es != [] {
      FreshStep(s, es[0]);
      AheadStep(s, es[0], a, b);
      QueuedFirst(Next(s, es[0]), es[1..], a, b);
    }
  }

  lemma QueuedBefore(s: State, i: nat, b: nat)
    requires i < |s.queue| && Absent(Path(s), b)
    ensures Ahead(s, s.queue[i].stamp, b)
  {
    var at := |Filter(s.wire, Queueable) + InHand(s)| + i;
    assert Path(s)[at] == s.queue[i];
    assert Absent(Path(s)[..at], b);
  }
}
