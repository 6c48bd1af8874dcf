/** The outbound side of a connection: what the server submits, and the concurrent writer task
    that drains it, as a machine whose steps interleave freely. */
module Outbound {
  import opened Wrappers
  import opened Bytes
  import opened Protocol
  import opened LatestUpdates

  /** The bound of the reliable channel. */
  const CAPACITY := 1000

  datatype Route = Slot | Queue | Latest

  /** Queued bytes. `stamp` numbers submissions; it is there to state order. */
  datatype Item = Item(stamp: nat, route: Route, action: Action, target: Option<u32>, bytes: seq<byte>)

  datatype Stats = Stats(
    reliableQueued: nat, reliableFallbackSpawned: nat, reliableSendFailed: nat,
    serverTimePending: nat, serverTimeReplaced: nat,
    updatesPending: nat, updatesReplaced: nat, updatesDroppedByLifecycle: nat,
    malformedFallbacks: nat, packetsWritten: nat, bytesWritten: nat, writeErrors: nat)

  /** Where the writer task is in its loop. */
  datatype Writer = AtSlot | AtQueue | AtMap | Waiting | Writing(item: Item) | Stopped

  /** The server is between two handlers, or inside `send_reliable` before its `try_send`. */
  datatype Server = Idle | Sending(item: Item)

  datatype State = State(
    slot: Option<Item>, queue: seq<Item>, fallback: seq<Item>, updates: seq<Entry<Item>>,
    writer: Writer, server: Server, queueClosed: bool, sendersGone: bool,
    wire: seq<Item>, lost: seq<Item>, submitted: seq<Item>, clock: nat, stats: Stats)

  const NO_STATS := Stats(0, 0, 0, 0, 0, 0, 0, 0, 0, 0, 0, 0)

  const INITIAL := State(None, [], [], [], AtSlot, Idle, false, false, [], [], [], 0, NO_STATS)

  function ObjectOf(p: Packet): Option<u32> {
    if |p.data| >= 4 then Some(FromLe32(p.data)) else None
  }

  function ItemOf(clock: nat, route: Route, p: Packet): Item
    requires |p.data| + 1 <= I16_MAX
  {
    Item(clock, route, p.action, ObjectOf(p), AsBytes(p))
  }

  // ---- the server's steps ----

  /** A deletion or hiding drops the pending update of its object. */
  function WithoutPendingUpdate(s: State, p: Packet): State {
    var target := ObjectOf(p);
    if p.action in {DELETE_OBJECT, HIDE_OBJECT} && target.Some? && Has(s.updates, target.value) then
      s.(updates := Drop(s.updates, target.value),
         stats := s.stats.(updatesDroppedByLifecycle := s.stats.updatesDroppedByLifecycle + 1))
    else s
  }

  /** Up to its `try_send`. */
  function SendReliable(s: State, p: Packet): State
    requires |p.data| + 1 <= I16_MAX
  {
    var item := ItemOf(s.clock, Queue, p);
    WithoutPendingUpdate(s, p).(
      server := Sending(item), submitted := s.submitted + [item], clock := s.clock + 1)
  }

  function SendLatestServerTime(s: State, p: Packet): State
    requires |p.data| + 1 <= I16_MAX
  {
    s.(slot := Some(ItemOf(s.clock, Slot, p)), clock := s.clock + 1,
       stats := s.stats.(serverTimePending := s.stats.serverTimePending + 1,
                         serverTimeReplaced := s.stats.serverTimeReplaced + if s.slot.Some? then 1 else 0))
  }

  function Send(s: State, p: Packet): State
    requires |p.data| + 1 <= I16_MAX
  {
    if p.action == SERVER_TIME then SendLatestServerTime(s, p) else SendReliable(s, p)
  }

  function SendRealtimeUpdate(s: State, p: Packet): State
    requires |p.data| + 1 <= I16_MAX
  {
    if p.action != UPDATE_OBJECT then Send(s, p)
    else
      match ObjectOf(p)
      case None => SendReliable(s, p).(stats := s.stats.(malformedFallbacks := s.stats.malformedFallbacks + 1))
      case Some(id) =>
        s.(updates := Put(s.updates, id, ItemOf(s.clock, Latest, p)), clock := s.clock + 1,
           stats := s.stats.(updatesPending := s.stats.updatesPending + 1,
                             updatesReplaced := s.stats.updatesReplaced + if Has(s.updates, id) then 1 else 0))
  }

  /** `try_send`. It may find the channel full while fallback senders hold its free permits. */
  function TrySend(s: State, full: bool): State
    requires s.server.Sending?
  {
    var t, item := s.(server := Idle), s.server.item;
    if s.writer.Stopped? then
      t.(lost := s.lost + [item], stats := s.stats.(reliableSendFailed := s.stats.reliableSendFailed + 1))
    else if full then
      t.(fallback := s.fallback + [item],
         stats := s.stats.(reliableFallbackSpawned := s.stats.reliableFallbackSpawned + 1))
    else
      t.(queue := s.queue + [item], stats := s.stats.(reliableQueued := s.stats.reliableQueued + 1))
  }

  /** Fallback task number `i` runs to its end. */
  function Fallback(s: State, i: nat): State
    requires i < |s.fallback|
  {
    var t, item := s.(fallback := s.fallback[..i] + s.fallback[i + 1..]), s.fallback[i];
    if s.writer.Stopped? then
      t.(lost := s.lost + [item], stats := s.stats.(reliableSendFailed := s.stats.reliableSendFailed + 1))
    else t.(queue := s.queue + [item])
  }

  // ---- the writer's steps ----

  function TakeServerTime(s: State): State {
    match s.slot
    case Some(item) => s.(slot := None, writer := Writing(item))
    case None => s.(writer := AtQueue)
  }

  function TryRecv(s: State): State {
    if s.queueClosed then s.(writer := AtMap)
    else if s.queue != [] then s.(queue := s.queue[1..], writer := Writing(s.queue[0]))
    else s.(writer := AtMap, queueClosed := s.sendersGone)
  }

  function TakeUpdate(s: State): State {
    if s.updates != [] then s.(updates := s.updates[1..], writer := Writing(s.updates[0].data))
    else if s.queueClosed then Stop(s)
    else s.(writer := Waiting)
  }

  function RecvWaiting(s: State): State {
    if s.queue != [] then s.(queue := s.queue[1..], writer := Writing(s.queue[0]))
    else s.(writer := AtSlot, queueClosed := true)
  }

  function Write(s: State, ok: bool): State
    requires s.writer.Writing?
  {
    var item := s.writer.item;
    if ok then
      s.(writer := AtSlot, wire := s.wire + [item],
         stats := s.stats.(packetsWritten := s.stats.packetsWritten + 1,
                           bytesWritten := s.stats.bytesWritten + |item.bytes|))
    else
      Stop(s.(lost := s.lost + [item], stats := s.stats.(writeErrors := s.stats.writeErrors + 1)))
  }

  /** The writer task ends and drops its receiver with what is still queued. */
  function Stop(s: State): State {
    s.(writer := Stopped, lost := s.lost + s.queue, queue := [])
  }

  // ---- interleavings ----

  datatype Event =
    | DoSend(p: Packet) | DoSendRealtime(p: Packet) | DoTrySend(full: bool) | DoFallback(i: nat) | DropSenders
    | DoTakeServerTime | DoTryRecv | DoTakeUpdate | Wake | DoRecvWaiting | DoWrite(ok: bool)

  predicate Enabled(s: State, e: Event) {
    match e
    case DoSend(p) => s.server.Idle? && !s.sendersGone && |p.data| + 1 <= I16_MAX
    case DoSendRealtime(p) => s.server.Idle? && !s.sendersGone && |p.data| + 1 <= I16_MAX
    case DoTrySend(full) =>
      s.server.Sending? && if full then |s.queue| == CAPACITY || s.fallback != [] else |s.queue| < CAPACITY
    case DoFallback(i) => i < |s.fallback| && (s.writer.Stopped? || |s.queue| < CAPACITY)
    case DropSenders => s.server.Idle? && s.fallback == []
    case DoTakeServerTime => s.writer.AtSlot?
    case DoTryRecv => s.writer.AtQueue?
    case DoTakeUpdate => s.writer.AtMap?
    case Wake => s.writer.Waiting?
    case DoRecvWaiting => s.writer.Waiting? && (s.queue != [] || s.sendersGone)
    case DoWrite(_) => s.writer.Writing?
  }

  function Next(s: State, e: Event): State
    requires Enabled(s, e)
  {
    match e
    case DoSend(p) => Send(s, p)
    case DoSendRealtime(p) => SendRealtimeUpdate(s, p)
    case DoTrySend(full) => TrySend(s, full)
    case DoFallback(i) => Fallback(s, i)
    case DropSenders => s.(sendersGone := true)
    case DoTakeServerTime => TakeServerTime(s)
    case DoTryRecv => TryRecv(s)
    case DoTakeUpdate => TakeUpdate(s)
    case Wake => s.(writer := AtSlot)
    case DoRecvWaiting => RecvWaiting(s)
    case DoWrite(ok) => Write(s, ok)
  }

  predicate IsRun(s: State, es: seq<Event>)
    decreases es
  {
    es == [] || (Enabled(s, es[0]) && IsRun(Next(s, es[0]), es[1..]))
  }

  function Run(s: State, es: seq<Event>): State
    requires IsRun(s, es)
    decreases es
  {
    if es == [] then s else Run(Next(s, es[0]), es[1..])
  }

  // ---- no stale update after a deletion ----

  predicate Lifecycle(l: Item) {
    l.route == Queue && l.action in {DELETE_OBJECT, HIDE_OBJECT} && l.target.Some?
  }

  /** `u` is a realtime update that was submitted before the deletion or hiding `l` of its object. */
  predicate Outdated(u: Item, l: Item) {
    u.route == Latest && Lifecycle(l) && u.target == l.target && u.stamp < l.stamp
  }

  /** No update was written after a lifecycle packet that was submitted after it. */
  ghost predicate NoStaleWrite(wire: seq<Item>) {
    forall i, j :: 0 <= i < j < |wire| ==> !Outdated(wire[j], wire[i])
  }

  ghost predicate PendingOk(clock: nat, submitted: seq<Item>, e: Entry<Item>) {
    && e.data.route == Latest && e.data.target == Some(e.id) && e.data.stamp < clock
    && forall l :: l in submitted ==> !Outdated(e.data, l)
  }

  /** What every interleaving keeps: a pending update is newer than every deletion of its object
      submitted so far, and one in the writer's hands is newer than every one written so far. */
  ghost predicate Fresh(s: State) {
    && UniqueIds(s.updates)
    && (forall e :: e in s.updates ==> PendingOk(s.clock, s.submitted, e))
    && (forall l :: l in s.submitted ==> l.route == Queue && l.stamp < s.clock)
    && (forall l :: l in s.queue || l in s.fallback ==> l in s.submitted)
    && (s.server.Sending? ==> s.server.item in s.submitted)
    && (s.slot.Some? ==> s.slot.value.route == Slot)
    && (s.writer.Writing? ==> HandOk(s, s.writer.item))
    && (forall l :: l in s.wire && l.route == Queue ==> l in s.submitted)
    && NoStaleWrite(s.wire)
  }

  ghost predicate HandOk(s: State, item: Item) {
    && (item.route == Queue ==> item in s.submitted)
    && forall l :: l in s.wire ==> !Outdated(item, l)
  }

  lemma FreshSendReliable(s: State, p: Packet)
    requires Fresh(s) && s.server.Idle? && |p.data| + 1 <= I16_MAX
    ensures Fresh(SendReliable(s, p))
  {
    var t, item := SendReliable(s, p), ItemOf(s.clock, Queue, p);
    if item.target.Some? {
      DropMembers(s.updates, item.target.value);
      DropMissingIf(s.updates, item.target.value);
    }
    forall e | e in t.updates ensures PendingOk(t.clock, t.submitted, e) {
      assert e in s.updates && PendingOk(s.clock, s.submitted, e);
      assert !Outdated(e.data, item);
    }
  }

  lemma DropMissingIf(es: seq<Entry<Item>>, id: u32)
    ensures !Has(es, id) ==> forall e :: e in es ==> e.id != id
  {
  }

  lemma FreshRealtime(s: State, id: u32, item: Item, stats: Stats)
    requires Fresh(s) && item.route == Latest && item.target == Some(id) && item.stamp == s.clock
    ensures Fresh(s.(updates := Put(s.updates, id, item), clock := s.clock + 1, stats := stats))
  {
    var t := s.(updates := Put(s.updates, id, item), clock := s.clock + 1, stats := stats);
    PutMembers(s.updates, id, item);
    forall e | e in t.updates ensures PendingOk(t.clock, t.submitted, e) {
      assert e == Entry(id, item) || PendingOk(s.clock, s.submitted, e);
    }
  }

  lemma FreshTrySend(s: State, full: bool)
    requires Fresh(s) && s.server.Sending?
    ensures Fresh(TrySend(s, full))
  {
  }

  lemma FreshFallback(s: State, i: nat)
    requires Fresh(s) && i < |s.fallback|
    ensures Fresh(Fallback(s, i))
  {
    assert s.fallback[i] in s.fallback;
    assert forall l :: l in s.fallback[..i] + s.fallback[i + 1..] ==> l in s.fallback;
  }

  lemma FreshTakeQueued(s: State)
    requires Fresh(s) && s.queue != []
    ensures Fresh(s.(queue := s.queue[1..], writer := Writing(s.queue[0])))
  {
    assert s.queue[0] in s.queue;
    assert forall l :: l in s.queue[1..] ==> l in s.queue;
  }

  lemma FreshMove(s: State, writer: Writer, closed: bool, gone: bool)
    requires Fresh(s) && (writer == s.writer || !writer.Writing?)
    ensures Fresh(s.(writer := writer, queueClosed := closed, sendersGone := gone))
  {
  }

  lemma FreshTakeServerTime(s: State)
    requires Fresh(s) && s.slot.Some?
    ensures Fresh(TakeServerTime(s))
  {
  }

  lemma FreshTakeUpdate(s: State)
    requires Fresh(s)
    ensures Fresh(TakeUpdate(s))
  {
    if s.updates != [] {
      assert s.updates[0] in s.updates;
      assert HandOk(s, s.updates[0].data);
      assert forall e :: e in s.updates[1..] ==> e in s.updates;
    }
  }

  lemma FreshWrite(s: State, ok: bool)
    requires Fresh(s) && s.writer.Writing?
    ensures Fresh(Write(s, ok))
  {
  }

  lemma FreshSend(s: State, p: Packet)
    requires Fresh(s) && s.server.Idle? && |p.data| + 1 <= I16_MAX
    ensures Fresh(Send(s, p))
  {
    FreshSendReliable(s, p);
  }

  lemma FreshSendRealtime(s: State, p: Packet)
    requires Fresh(s) && s.server.Idle? && |p.data| + 1 <= I16_MAX
    ensures Fresh(SendRealtimeUpdate(s, p))
  {
    if p.action == UPDATE_OBJECT && ObjectOf(p).Some? {
      FreshRealtime(s, ObjectOf(p).value, ItemOf(s.clock, Latest, p), SendRealtimeUpdate(s, p).stats);
    } else {
      FreshSend(s, p);
      FreshSendReliable(s, p);
    }
  }

  lemma FreshServerStep(s: State, e: Event)
    requires Fresh(s) && Enabled(s, e)
    requires e.DoSend? || e.DoSendRealtime? || e.DoTrySend? || e.DoFallback?
    ensures Fresh(Next(s, e))
  {
    match e
    case DoSend(p) => FreshSend(s, p);
    case DoSendRealtime(p) => FreshSendRealtime(s, p);
    case DoTrySend(full) => FreshTrySend(s, full);
    case DoFallback(i) => FreshFallback(s, i);
  }

  lemma FreshStep(s: State, e: Event)
    requires Fresh(s) && Enabled(s, e)
    ensures Fresh(Next(s, e))
  {
    if e.DoSend? || e.DoSendRealtime? || e.DoTrySend? || e.DoFallback? {
      FreshServerStep(s, e);
    } else if e.DoTakeUpdate? {
      FreshTakeUpdate(s);
    } else if e.DoWrite? {
      FreshWrite(s, e.ok);
    } else if e.DoTakeServerTime? && s.slot.Some? {
      FreshTakeServerTime(s);
    } else if ((e.DoTryRecv? && !s.queueClosed) || e.DoRecvWaiting?) && s.queue != [] {
      FreshTakeQueued(s);
    } else {
      var t := Next(s, e);
      FreshMove(s, t.writer, t.queueClosed, t.sendersGone);
    }
  }

  lemma {:induction false} FreshRun(s: State, es: seq<Event>)
    requires Fresh(s) && IsRun(s, es)
    ensures Fresh(Run(s, es))
    decreases es
  {
    if es != [] {
      FreshStep(s, es[0]);
      FreshRun(Next(s, es[0]), es[1..]);
    }
  }

  /** In every interleaving of server, fallback and writer steps, no realtime update reaches the
      wire after a deletion or hiding of its object that was submitted later. */
  lemma NoStaleUpdateAfterDeletion(es: seq<Event>)
    requires IsRun(INITIAL, es)
    ensures NoStaleWrite(Run(INITIAL, es).wire)
  {
    FreshRun(INITIAL, es);
  }

  // ---- nothing is lost, nothing is duplicated ----

  datatype Query = OfRoute(route: Route) | Exactly(item: Item) | Stamped(stamp: nat)

  function Hits(q: Query, x: Item): nat {
    match q
    case OfRoute(route) => if x.route == route then 1 else 0
    case Exactly(item) => if x == item then 1 else 0
    case Stamped(stamp) => if x.stamp == stamp then 1 else 0
  }

  function Count(xs: seq<Item>, q: Query): nat {
    if xs == [] then 0 else Hits(q, xs[0]) + Count(xs[1..], q)
  }

  lemma {:induction false} CountAppend(xs: seq<Item>, ys: seq<Item>, q: Query)
    ensures Count(xs + ys, q) == Count(xs, q) + Count(ys, q)
  {
    if xs == [] {
      assert xs + ys == ys;
    } else {
      CountAppend(xs[1..], ys, q);
      assert (xs + ys)[1..] == xs[1..] + ys;
    }
  }

  lemma CountSnoc(xs: seq<Item>, x: Item, q: Query)
    ensures Count(xs + [x], q) == Count(xs, q) + Hits(q, x)
  {
    CountAppend(xs, [x], q);
    assert Count([x], q) == Hits(q, x) + Count([x][1..], q);
  }

  lemma CountWithout(xs: seq<Item>, i: nat, q: Query)
    requires i < |xs|
    ensures Count(xs, q) == Count(xs[..i] + xs[i + 1..], q) + Hits(q, xs[i])
  {
    assert xs == xs[..i] + ([xs[i]] + xs[i + 1..]);
    CountAppend(xs[..i], [xs[i]] + xs[i + 1..], q);
    assert ([xs[i]] + xs[i + 1..])[1..] == xs[i + 1..];
    CountAppend(xs[..i], xs[i + 1..], q);
  }

  lemma {:induction false} CountMiss(xs: seq<Item>, q: Query)
    requires forall i :: 0 <= i < |xs| ==> Hits(q, xs[i]) == 0
    ensures Count(xs, q) == 0
  {
    if xs != [] {
      CountMiss(xs[1..], q);
    }
  }

  /** What the writer has taken: written, in its hands, or lost with a failed write; and what
      was lost on the way to it. */
  function Gone(s: State, q: Query): nat {
    Count(s.wire, q) + Count(s.lost, q) + if s.writer.Writing? then Hits(q, s.writer.item) else 0
  }

  function Queued(s: State, q: Query): nat {
    Count(s.queue, q) + Count(s.fallback, q) + if s.server.Sending? then Hits(q, s.server.item) else 0
  }

  function TotalBytes(xs: seq<Item>): nat {
    if xs == [] then 0 else |xs[0].bytes| + TotalBytes(xs[1..])
  }

  /** The counters account for every submission: a realtime update or server time was replaced by
      a newer one, dropped by a deletion, taken, or is pending; a reliable item is in one place. */
  ghost predicate Conserved(s: State, x: Item) {
    Balanced(s) && Located(s, x)
  }

  ghost predicate Balanced(s: State) {
    && s.stats.updatesPending ==
       s.stats.updatesReplaced + s.stats.updatesDroppedByLifecycle + Gone(s, OfRoute(Latest)) + |s.updates|
    && s.stats.serverTimePending ==
       s.stats.serverTimeReplaced + Gone(s, OfRoute(Slot)) + (if s.slot.Some? then 1 else 0)
    && s.stats.packetsWritten == |s.wire| && s.stats.bytesWritten == TotalBytes(s.wire)
  }

  ghost predicate Located(s: State, x: Item) {
    && (x.route == Queue ==> Count(s.submitted, Exactly(x)) == Gone(s, Exactly(x)) + Queued(s, Exactly(x)))
    && Count(s.submitted, Exactly(x)) <= 1
  }

  lemma CountSnocAll(xs: seq<Item>, y: Item, x: Item)
    ensures Count(xs + [y], OfRoute(Latest)) == Count(xs, OfRoute(Latest)) + Hits(OfRoute(Latest), y)
    ensures Count(xs + [y], OfRoute(Slot)) == Count(xs, OfRoute(Slot)) + Hits(OfRoute(Slot), y)
    ensures Count(xs + [y], Exactly(x)) == Count(xs, Exactly(x)) + Hits(Exactly(x), y)
  {
    CountSnoc(xs, y, OfRoute(Latest));
    CountSnoc(xs, y, OfRoute(Slot));
    CountSnoc(xs, y, Exactly(x));
  }

  lemma BalancedSendReliable(s: State, p: Packet)
    requires Fresh(s) && Balanced(s) && |p.data| + 1 <= I16_MAX
    ensures Balanced(SendReliable(s, p))
  {
    if ObjectOf(p).Some? {
      DropMembers(s.updates, ObjectOf(p).value);
    }
  }

  lemma ConservedSendReliable(s: State, p: Packet, x: Item)
    requires Fresh(s) && Conserved(s, x) && s.server.Idle? && |p.data| + 1 <= I16_MAX
    ensures Conserved(SendReliable(s, p), x)
  {
    var item := ItemOf(s.clock, Queue, p);
    BalancedSendReliable(s, p);
    CountSnoc(s.submitted, item, Exactly(x));
    if x == item {
      forall i | 0 <= i < |s.submitted| ensures s.submitted[i] != x {
        assert s.submitted[i] in s.submitted;
      }
      CountMiss(s.submitted, Exactly(x));
    }
  }

  lemma ConservedServerTime(s: State, p: Packet, x: Item)
    requires Conserved(s, x) && |p.data| + 1 <= I16_MAX
    ensures Conserved(SendLatestServerTime(s, p), x)
  {
  }

  lemma ConservedSend(s: State, p: Packet, x: Item)
    requires Fresh(s) && Conserved(s, x) && s.server.Idle? && |p.data| + 1 <= I16_MAX
    ensures Conserved(SendReliable(s, p), x) && Conserved(SendLatestServerTime(s, p), x)
  {
    ConservedSendReliable(s, p, x);
    ConservedServerTime(s, p, x);
  }

  lemma ConservedRealtime(s: State, p: Packet, x: Item)
    requires Fresh(s) && Conserved(s, x) && s.server.Idle? && |p.data| + 1 <= I16_MAX
    ensures Conserved(SendRealtimeUpdate(s, p), x)
  {
    if p.action != UPDATE_OBJECT || ObjectOf(p).None? {
      ConservedSend(s, p, x);
    } else {
      PutMembers(s.updates, ObjectOf(p).value, ItemOf(s.clock, Latest, p));
    }
  }

  /** Every place holds items of its own route. */
  ghost predicate Routed(s: State) {
    && (forall i :: 0 <= i < |s.queue| ==> s.queue[i].route == Queue)
    && (forall i :: 0 <= i < |s.fallback| ==> s.fallback[i].route == Queue)
    && (s.server.Sending? ==> s.server.item.route == Queue)
    && (s.slot.Some? ==> s.slot.value.route == Slot)
    && (s.updates != [] ==> s.updates[0].data.route == Latest)
  }

  lemma FreshIsRouted(s: State)
    requires Fresh(s)
    ensures Routed(s)
  {
    if s.updates != [] {
      assert s.updates[0] in s.updates;
    }
    forall i | 0 <= i < |s.queue| ensures s.queue[i].route == Queue {
      assert s.queue[i] in s.queue;
    }
    forall i | 0 <= i < |s.fallback| ensures s.fallback[i].route == Queue {
      assert s.fallback[i] in s.fallback;
    }
  }

  lemma ConservedRefused(s: State, full: bool, x: Item)
    requires Routed(s) && Conserved(s, x) && s.server.Sending? && s.writer.Stopped?
    ensures Conserved(TrySend(s, full), x)
  {
    CountSnocAll(s.lost, s.server.item, x);
  }

  lemma ConservedOverflow(s: State, x: Item)
    requires Routed(s) && Conserved(s, x) && s.server.Sending? && !s.writer.Stopped?
    ensures Conserved(TrySend(s, true), x)
  {
    CountSnoc(s.fallback, s.server.item, Exactly(x));
  }

  lemma ConservedQueued(s: State, x: Item)
    requires Routed(s) && Conserved(s, x) && s.server.Sending? && !s.writer.Stopped?
    ensures Conserved(TrySend(s, false), x)
  {
    CountSnoc(s.queue, s.server.item, Exactly(x));
  }

  lemma ConservedTrySend(s: State, full: bool, x: Item)
    requires Routed(s) && Conserved(s, x) && s.server.Sending?
    ensures Conserved(TrySend(s, full), x)
  {
    if s.writer.Stopped? {
      ConservedRefused(s, full, x);
    } else if full {
      ConservedOverflow(s, x);
    } else {
      ConservedQueued(s, x);
    }
  }

  lemma ConservedFallback(s: State, i: nat, x: Item)
    requires Routed(s) && Conserved(s, x) && i < |s.fallback|
    ensures Conserved(Fallback(s, i), x)
  {
    CountWithout(s.fallback, i, Exactly(x));
    if s.writer.Stopped? {
      CountSnocAll(s.lost, s.fallback[i], x);
    } else {
      CountSnoc(s.queue, s.fallback[i], Exactly(x));
    }
  }

  lemma ConservedTake(s: State, x: Item)
    requires Routed(s) && Conserved(s, x) && !s.writer.Writing?
    ensures s.queue != [] ==> Conserved(s.(queue := s.queue[1..], writer := Writing(s.queue[0])), x)
    ensures s.updates != [] ==> Conserved(s.(updates := s.updates[1..], writer := Writing(s.updates[0].data)), x)
    ensures s.slot.Some? ==> Conserved(s.(slot := None, writer := Writing(s.slot.value)), x)
  {
  }

  lemma ConservedStop(s: State, x: Item)
    requires Routed(s) && Conserved(s, x) && !s.writer.Writing?
    ensures Conserved(Stop(s), x)
  {
    CountAppend(s.lost, s.queue, OfRoute(Latest));
    CountAppend(s.lost, s.queue, OfRoute(Slot));
    CountAppend(s.lost, s.queue, Exactly(x));
    CountMiss(s.queue, OfRoute(Latest));
    CountMiss(s.queue, OfRoute(Slot));
  }

  lemma {:induction false} TotalBytesSnoc(xs: seq<Item>, y: Item)
    ensures TotalBytes(xs + [y]) == TotalBytes(xs) + |y.bytes|
  {
    if xs == [] {
      assert TotalBytes([y]) == |y.bytes| + TotalBytes([y][1..]);
    } else {
      TotalBytesSnoc(xs[1..], y);
      assert (xs + [y])[1..] == xs[1..] + [y];
    }
  }

  lemma ConservedWritten(s: State, x: Item)
    requires Routed(s) && Conserved(s, x) && s.writer.Writing?
    ensures Conserved(Write(s, true), x)
  {
    CountSnocAll(s.wire, s.writer.item, x);
    TotalBytesSnoc(s.wire, s.writer.item);
  }

  lemma ConservedLost(s: State, x: Item)
    requires Routed(s) && Conserved(s, x) && s.writer.Writing?
    ensures Conserved(Write(s, false), x)
  {
    var item := s.writer.item;
    var t := s.(writer := AtSlot, lost := s.lost + [item], stats := s.stats.(writeErrors := s.stats.writeErrors + 1));
    CountSnocAll(s.lost, item, x);
    ConservedStop(t, x);
  }

  lemma ConservedWrite(s: State, ok: bool, x: Item)
    requires Routed(s) && Conserved(s, x) && s.writer.Writing?
    ensures Conserved(Write(s, ok), x)
  {
    if ok {
      ConservedWritten(s, x);
    } else {
      ConservedLost(s, x);
    }
  }

  lemma ConservedMove(s: State, writer: Writer, closed: bool, x: Item)
    requires Conserved(s, x) && !s.writer.Writing? && !writer.Writing?
    ensures Conserved(s.(writer := writer, queueClosed := closed), x)
  {
  }

  lemma ConservedWriterStep(s: State, e: Event, x: Item)
    requires Routed(s) && Conserved(s, x) && Enabled(s, e)
    requires e.DoTakeServerTime? || e.DoTryRecv? || e.DoTakeUpdate? || e.Wake? || e.DoRecvWaiting?
    ensures Conserved(Next(s, e), x)
  {
    if e.DoTakeUpdate? && s.updates == [] && s.queueClosed {
      ConservedStop(s, x);
    } else if Next(s, e).writer.Writing? {
      ConservedTake(s, x);
    } else {
      ConservedMove(s, Next(s, e).writer, Next(s, e).queueClosed, x);
    }
  }

  lemma ConservedStep(s: State, e: Event, x: Item)
    requires Fresh(s) && Conserved(s, x) && Enabled(s, e)
    ensures Conserved(Next(s, e), x)
  {
    if e.DoSend? {
      ConservedSend(s, e.p, x);
    } else if e.DoSendRealtime? {
      ConservedRealtime(s, e.p, x);
    } else {
      FreshIsRouted(s);
      match e
      case DoTrySend(full) => ConservedTrySend(s, full, x);
      case DoFallback(i) => ConservedFallback(s, i, x);
      case DoWrite(ok) => ConservedWrite(s, ok, x);
      case DropSenders =>
      case _ => ConservedWriterStep(s, e, x);
    }
  }

  /** After any interleaving, for every item `x`: the books balance, and a reliable item is
      written, in the writer's hands, lost, or still queued - in exactly one of these places. */
  lemma {:induction false} Conservation(s: State, es: seq<Event>, x: Item)
    requires Fresh(s) && Conserved(s, x) && IsRun(s, es)
    ensures Conserved(Run(s, es), x)
    decreases es
  {
    if es != [] {
      FreshStep(s, es[0]);
      ConservedStep(s, es[0], x);
      Conservation(Next(s, es[0]), es[1..], x);
    }
  }

  lemma ConservationFromStart(es: seq<Event>, x: Item)
    requires IsRun(INITIAL, es)
    ensures Conserved(Run(INITIAL, es), x)
  {
    Conservation(INITIAL, es, x);
  }

  // ---- draining ----

  /** A step of the writer alone, when writes succeed. */
  function QuietStep(s: State): State
    requires !s.writer.Stopped?
  {
    match s.writer
    case AtSlot => TakeServerTime(s)
    case AtQueue => TryRecv(s)
    case AtMap => TakeUpdate(s)
    case Waiting => RecvWaiting(s)
    case Writing(_) => Write(s, true)
  }

  function PendingItems(s: State): nat {
    (if s.slot.Some? then 1 else 0) + |s.queue| + |s.updates|
  }

  function Rank(w: Writer): nat {
    match w
    case Writing(_) => 5
    case AtSlot => 4
    case AtQueue => 3
    case AtMap => 2
    case Waiting => 1
    case Stopped => 0
  }

  /** The writer alone, run to its end. It gets there once the senders of the queue are gone. */
  function Drain(s: State): (r: State)
    requires s.sendersGone && (s.writer.Waiting? ==> !s.queueClosed)
    ensures r.writer.Stopped?
    decreases PendingItems(s), !s.queueClosed, Rank(s.writer)
  {
    if s.writer.Stopped? then s else Drain(QuietStep(s))
  }

  /** One turn of the writer's loop; `ok` is what becomes of its write. */
  function Turn(s: State, ok: bool): State
    requires s.writer.AtSlot?
  {
    if s.slot.Some? then Write(TakeServerTime(s), ok)
    else
      var q := TryRecv(s);
      if q.writer.Writing? then Write(q, ok)
      else
        var u := TakeUpdate(q);
        if u.writer.Writing? then Write(u, ok) else u
  }

  lemma TurnDrains(s: State)
    requires s.writer.AtSlot? && s.sendersGone
    ensures Turn(s, true).sendersGone && (Turn(s, true).writer.AtSlot? || Turn(s, true).writer.Stopped?)
    ensures Turn(s, true).writer.AtSlot? ==> PendingItems(Turn(s, true)) < PendingItems(s)
    ensures Drain(s) == Drain(Turn(s, true))
  {
    var a := TakeServerTime(s);
    assert Drain(s) == Drain(a);
    if s.slot.Some? {
      assert Drain(a) == Drain(Write(a, true));
    } else {
      var q := TryRecv(a);
      assert q == TryRecv(s).(writer := q.writer) && Drain(a) == Drain(q);
      if q.writer.Writing? {
        assert Drain(q) == Drain(Write(q, true));
      } else {
        var u := TakeUpdate(q);
        assert Drain(q) == Drain(u);
        if u.writer.Writing? {
          assert Drain(u) == Drain(Write(u, true));
        }
      }
    }
  }

  function Written(s: State, item: Item): State {
    s.(writer := AtSlot, wire := s.wire + [item],
       stats := s.stats.(packetsWritten := s.stats.packetsWritten + 1,
                         bytesWritten := s.stats.bytesWritten + |item.bytes|))
  }

  /** The four ways a turn can go. */
  lemma TurnCases(s: State)
    requires s.writer.AtSlot? && s.sendersGone && (s.queueClosed ==> s.queue == [])
    ensures s.slot.Some? ==> Turn(s, true) == Written(s.(slot := None), s.slot.value)
    ensures s.slot.None? && s.queue != [] ==> Turn(s, true) == Written(s.(queue := s.queue[1..]), s.queue[0])
    ensures s.slot.None? && s.queue == [] && s.updates != [] ==>
              Turn(s, true) == Written(s.(updates := s.updates[1..], queueClosed := true), s.updates[0].data)
    ensures s.slot.None? && s.queue == [] && s.updates == [] ==>
              Turn(s, true) == s.(writer := Stopped, queueClosed := true)
  {
    assert s.queue == [] ==> s.lost + s.queue == s.lost;
  }

  function Slots(slot: Option<Item>): seq<Item> {
    if slot.Some? then [slot.value] else []
  }

  function Datas(es: seq<Entry<Item>>): seq<Item> {
    if es == [] then [] else [es[0].data] + Datas(es[1..])
  }

  /** With no new submissions and no failing write, the writer ends after writing the pending
      server time, then the queue in order, then every pending update once, oldest first. */
  lemma {:induction false} DrainWritesEverything(s: State)
    requires s.writer.AtSlot? && s.sendersGone && (s.queueClosed ==> s.queue == [])
    ensures var r := Drain(s);
            && r.wire == s.wire + Slots(s.slot) + s.queue + Datas(s.updates)
            && r.slot == None && r.queue == [] && r.updates == [] && r.lost == s.lost
    decreases PendingItems(s)
  {
    var t := Turn(s, true);
    TurnDrains(s);
    TurnCases(s);
    if t.writer.AtSlot? {
      DrainWritesEverything(t);
      if s.slot.None? && s.queue != [] {
        assert s.queue == [s.queue[0]] + s.queue[1..];
      }
    }
  }

  // ---- draining from anywhere in the loop ----

  /** What the writer takes before it comes back to the top of its loop. */
  predicate TakesQueued(s: State) {
    s.queue != [] && (s.writer.AtQueue? || s.writer.Waiting? || (s.writer.AtMap? && s.updates == []))
  }

  predicate TakesUpdate(s: State) {
    s.updates != [] && (s.writer.AtMap? || (s.writer.AtQueue? && s.queue == []))
  }

  /** The writer has looked at the slot already and will find no reason to come back to it. */
  predicate MissesSlot(s: State) {
    s.updates == [] && ((s.writer.AtQueue? && s.queue == []) || (s.writer.AtMap? && s.queueClosed))
  }

  function First(s: State): seq<Item> {
    if s.writer.Writing? then [s.writer.item]
    else if TakesQueued(s) then [s.queue[0]]
    else if TakesUpdate(s) then [s.updates[0].data]
    else []
  }

  function SlotLeft(s: State): Option<Item> {
    if MissesSlot(s) then None else s.slot
  }

  function QueueLeft(s: State): seq<Item> {
    if TakesQueued(s) then s.queue[1..] else s.queue
  }

  function UpdatesLeft(s: State): seq<Entry<Item>> {
    if TakesUpdate(s) then s.updates[1..] else s.updates
  }

  /** Once the queue is closed it is empty, and nothing new comes in after the senders are gone. */
  predicate ClosingOk(s: State) {
    && (s.queueClosed ==> s.sendersGone && s.queue == [])
    && (s.sendersGone ==> s.server.Idle? && s.fallback == [])
    && (s.writer.Waiting? ==> !s.queueClosed)
  }

  lemma ClosingOkStep(s: State, e: Event)
    requires ClosingOk(s) && Enabled(s, e)
    ensures ClosingOk(Next(s, e))
  {
  }

  lemma {:induction false} ClosingOkRun(s: State, es: seq<Event>)
    requires ClosingOk(s) && IsRun(s, es)
    ensures ClosingOk(Run(s, es))
    decreases es
  {
    if es != [] {
      ClosingOkStep(s, es[0]);
      ClosingOkRun(Next(s, es[0]), es[1..]);
    }
  }

  /** What draining comes to, for a writer in any position. */
  ghost predicate DrainsInTurn(s: State, r: State) {
    && r.wire == s.wire + First(s) + Slots(SlotLeft(s)) + QueueLeft(s) + Datas(UpdatesLeft(s))
    && r.queue == [] && r.updates == [] && r.lost == s.lost
    && r.slot == if MissesSlot(s) then s.slot else None
  }

  lemma DrainAtSlot(s: State)
    requires s.writer.AtSlot? && s.sendersGone && ClosingOk(s)
    ensures DrainsInTurn(s, Drain(s))
  {
    DrainWritesEverything(s);
    assert s.wire + [] == s.wire;
  }

  lemma DrainWriting(s: State)
    requires s.writer.Writing? && s.sendersGone && ClosingOk(s)
    ensures DrainsInTurn(s, Drain(s))
  {
    DrainAtSlot(Write(s, true));
    assert Drain(s) == Drain(Write(s, true));
    assert s.wire + [s.writer.item] + [] == s.wire + [s.writer.item];
  }

  lemma DrainTaken(s: State, t: State)
    requires s.sendersGone && ClosingOk(s) && !s.writer.Writing? && (s.writer.Waiting? ==> !s.queueClosed)
    requires t.writer.Writing? && t.sendersGone && ClosingOk(t) && Drain(s) == Drain(t)
    requires First(s) == [t.writer.item] && !MissesSlot(s) && s.wire == t.wire && s.lost == t.lost && s.slot == t.slot
    requires QueueLeft(s) == t.queue && UpdatesLeft(s) == t.updates
    ensures DrainsInTurn(s, Drain(s))
  {
    DrainWriting(t);
  }

  lemma DrainAtMap(s: State)
    requires s.writer.AtMap? && s.sendersGone && ClosingOk(s)
    ensures DrainsInTurn(s, Drain(s))
  {
    var t := TakeUpdate(s);
    assert Drain(s) == Drain(t);
    if s.updates != [] {
      DrainTaken(s, t);
    } else if s.queueClosed {
      assert Drain(t) == t && s.lost + s.queue == s.lost;
      assert s.wire + [] + [] + [] + [] == s.wire;
    } else {
      DrainWaiting(t);
    }
  }

  lemma DrainWaiting(s: State)
    requires s.writer.Waiting? && s.sendersGone && ClosingOk(s)
    ensures DrainsInTurn(s, Drain(s))
  {
    var t := RecvWaiting(s);
    assert Drain(s) == Drain(t);
    if s.queue != [] {
      DrainTaken(s, t);
    } else {
      DrainAtSlot(t);
    }
  }

  lemma DrainAtQueue(s: State)
    requires s.writer.AtQueue? && s.sendersGone && ClosingOk(s)
    ensures DrainsInTurn(s, Drain(s))
  {
    var t := TryRecv(s);
    assert Drain(s) == Drain(t);
    if s.queue != [] {
      DrainTaken(s, t);
    } else {
      DrainAtMap(t);
    }
  }

  /** After any run, wherever the writer is when the senders are gone: without new submissions and
      failing writes it ends, and has written first what it was about to take, then the server time, the
      queue and the pending updates in order. Only one thing can be left: a server time that was
      submitted after the writer looked at the slot, when nothing else brings it back there. */
  lemma DrainFromAnywhere(es: seq<Event>)
    requires IsRun(INITIAL, es) && Run(INITIAL, es).sendersGone && !Run(INITIAL, es).writer.Stopped?
    ensures var s := Run(INITIAL, es);
            && (s.writer.Waiting? ==> !s.queueClosed)
            && DrainsInTurn(s, Drain(s))
  {
    ClosingOkRun(INITIAL, es);
    var s := Run(INITIAL, es);
    match s.writer
    case AtSlot => DrainAtSlot(s);
    case AtQueue => DrainAtQueue(s);
    case AtMap => DrainAtMap(s);
    case Waiting => DrainWaiting(s);
    case Writing(_) => DrainWriting(s);
  }

  /** Such a server time exists: the writer finds the slot empty, a server time is submitted, and the
      connection is given up before the writer looks at the queue. */
  lemma ServerTimeCanBeLeft(p: Packet)
    requires p.action == SERVER_TIME && |p.data| + 1 <= I16_MAX
    ensures var es := [DoTakeServerTime, DoSend(p), DropSenders];
            && IsRun(INITIAL, es) && Run(INITIAL, es).sendersGone && Run(INITIAL, es).writer.AtQueue?
            && Drain(Run(INITIAL, es)).slot.Some?
  {
    var es := [DoTakeServerTime, DoSend(p), DropSenders];
    var s1 := Next(INITIAL, es[0]);
    var s2 := Next(s1, es[1]);
    var s3 := Next(s2, es[2]);
    assert es[1..] == [DoSend(p), DropSenders] && es[1..][1..] == [DropSenders] && es[1..][1..][1..] == [];
    assert IsRun(s3, []) && Run(s3, []) == s3;
    assert IsRun(s2, es[1..][1..]) && Run(s2, es[1..][1..]) == s3;
    assert IsRun(s1, es[1..]) && Run(s1, es[1..]) == s3;
    DrainFromAnywhere(es);
  }
}
