/** The server's handle of a connection and its writer task, as they run: shared slot, queue and
    map updated in place. */
module Connections {
  import opened Wrappers
  import opened Bytes
  import opened Protocol
  import opened LatestUpdates
  import opened Outbound

  /** The end of a `send_reliable` that nothing interrupts. */
  function Settled(s: State, waiters: bool): State {
    if s.server.Idle? then s
    else TrySend(s, |s.queue| >= CAPACITY || (waiters && s.fallback != []))
  }

  class Client {
    var slot: Option<Item>
    var queue: seq<Item>
    var fallback: seq<Item>
    const updates: LatestObjectUpdates<Item>
    var stats: Stats
    var rxServerClosed: bool
    var sendersGone: bool
    var writer: Writer
    var server: Server
    var wire: seq<Item>
    var lost: seq<Item>
    var submitted: seq<Item>
    var clock: nat

    ghost predicate Valid()
      reads this, updates
    {
      updates.Valid()
    }

    ghost function Model(): State
      reads this, updates
    {
      State(slot, queue, fallback, updates.Contents(), writer, server, rxServerClosed, sendersGone,
            wire, lost, submitted, clock, stats)
    }

    constructor ()
      ensures Valid() && Model() == INITIAL && fresh(updates)
    {
      slot, queue, fallback, stats := None, [], [], NO_STATS;
      updates := new LatestObjectUpdates();
      rxServerClosed, sendersGone, writer, server := false, false, AtSlot, Idle;
      wire, lost, submitted, clock := [], [], [], 0;
    }

    method Send(p: Packet, waiters: bool)
      requires Valid() && server.Idle? && |p.data| + 1 <= I16_MAX
      modifies this, updates
      ensures Valid()
      ensures Model() == Settled(Outbound.Send(old(Model()), p), waiters)
    {
      if p.action == SERVER_TIME {
        SendLatestServerTime(p);
      } else {
        SendReliable(p, waiters);
      }
    }

    method SendReliable(p: Packet, waiters: bool)
      requires Valid() && server.Idle? && |p.data| + 1 <= I16_MAX
      modifies this, updates
      ensures Valid()
      ensures Model() == Settled(Outbound.SendReliable(old(Model()), p), waiters)
    {
      DropPendingUpdate(p);
      var item := ItemOf(clock, Queue, p);
      submitted, clock, server := submitted + [item], clock + 1, Sending(item);
      assert Model() == Outbound.SendReliable(old(Model()), p);
      TrySend(item, waiters);
    }

    /** The first half of `send_reliable`: a deletion or hiding drops the pending update. */
    method DropPendingUpdate(p: Packet)
      requires Valid()
      modifies this`stats, updates
      ensures Valid()
      ensures Model() == WithoutPendingUpdate(old(Model()), p)
    {
      if p.action == DELETE_OBJECT || p.action == HIDE_OBJECT {
        var id := ObjectOf(p);
        if id.Some? {
          var removed := updates.Remove(id.value);
          if removed {
            stats := stats.(updatesDroppedByLifecycle := stats.updatesDroppedByLifecycle + 1);
          } else {
            DropMissing(old(updates.Contents()), id.value);
          }
        }
      }
    }

    /** The second half. */
    method TrySend(item: Item, waiters: bool)
      requires server == Sending(item)
      modifies this
      ensures Model() == Settled(old(Model()), waiters)
      ensures Valid() == old(Valid())
    {
      server := Idle;
      if writer.Stopped? {
        stats := stats.(reliableSendFailed := stats.reliableSendFailed + 1);
        lost := lost + [item];
      } else if |queue| >= CAPACITY || (waiters && fallback != []) {
        stats := stats.(reliableFallbackSpawned := stats.reliableFallbackSpawned + 1);
        fallback := fallback + [item];
      } else {
        queue := queue + [item];
        stats := stats.(reliableQueued := stats.reliableQueued + 1);
      }
    }

    method SendRealtimeUpdate(p: Packet, waiters: bool)
      requires Valid() && server.Idle? && |p.data| + 1 <= I16_MAX
      modifies this, updates
      ensures Valid()
      ensures Model() == Settled(Outbound.SendRealtimeUpdate(old(Model()), p), waiters)
    {
      if p.action != UPDATE_OBJECT {
        Send(p, waiters);
        return;
      }
      var id := ObjectOf(p);
      if id.None? {
        SendMalformed(p, waiters);
      } else {
        PendLatest(id.value, p);
      }
    }

    /** An update without an object id is counted and goes through the queue. */
    method SendMalformed(p: Packet, waiters: bool)
      requires Valid() && server.Idle? && |p.data| + 1 <= I16_MAX && p.action == UPDATE_OBJECT && ObjectOf(p).None?
      modifies this, updates
      ensures Valid()
      ensures Model() == Settled(Outbound.SendRealtimeUpdate(old(Model()), p), waiters)
    {
      stats := stats.(malformedFallbacks := stats.malformedFallbacks + 1);
      SendReliable(p, waiters);
    }

    /** Makes the update the pending one of its object. */
    method PendLatest(id: u32, p: Packet)
      requires Valid() && server.Idle? && |p.data| + 1 <= I16_MAX
      requires p.action == UPDATE_OBJECT && ObjectOf(p) == Some(id)
      modifies this`stats, this`clock, updates
      ensures Valid()
      ensures Model() == Outbound.SendRealtimeUpdate(old(Model()), p)
    {
      var replaced := updates.Replace(id, ItemOf(clock, Latest, p));
      clock := clock + 1;
      stats := stats.(updatesPending := stats.updatesPending + 1);
      if replaced {
        stats := stats.(updatesReplaced := stats.updatesReplaced + 1);
      }
    }

    method SendLatestServerTime(p: Packet)
      requires Valid() && server.Idle? && |p.data| + 1 <= I16_MAX
      modifies this
      ensures Valid()
      ensures Model() == Outbound.SendLatestServerTime(old(Model()), p)
    {
      var replaced := slot.Some?;
      slot, clock := Some(ItemOf(clock, Slot, p)), clock + 1;
      stats := stats.(serverTimePending := stats.serverTimePending + 1);
      if replaced {
        stats := stats.(serverTimeReplaced := stats.serverTimeReplaced + 1);
      }
    }

    /** `ok`: the socket takes the bytes. If it does not, the writer stops and its receiver goes. */
    method WriteClientPacket(item: Item, ok: bool) returns (written: bool)
      requires writer == Writing(item)
      modifies this`wire, this`lost, this`queue, this`writer, this`stats
      ensures Model() == Write(old(Model()), ok) && written == ok
    {
      if !ok {
        stats := stats.(writeErrors := stats.writeErrors + 1);
        lost := lost + [item];
        StopWriting();
        return false;
      }
      wire := wire + [item];
      stats := stats.(packetsWritten := stats.packetsWritten + 1, bytesWritten := stats.bytesWritten + |item.bytes|);
      writer := AtSlot;
      return true;
    }

    /** The end of the writer task; what is still queued goes with its receiver. */
    method StopWriting()
      modifies this`lost, this`queue, this`writer
      ensures Model() == Stop(old(Model()))
    {
      lost, queue, writer := lost + queue, [], Stopped;
    }

    /** One turn of the writer's loop, up to its next turn, its end or its `select!`. */
    method WriterTurn(ok: bool)
      requires Valid() && writer.AtSlot? && (rxServerClosed ==> queue == [])
      modifies this, updates
      ensures Valid() && (writer.AtSlot? || writer.Waiting? || writer.Stopped?)
      ensures Model() == Turn(old(Model()), ok)
    {
      if slot.Some? {
        var item := slot.value;
        slot, writer := None, Writing(item);
        var written := WriteClientPacket(item, ok);
        return;
      }
      TurnToQueue(ok);
    }

    method TurnToQueue(ok: bool)
      requires Valid() && writer.AtSlot? && slot.None? && (rxServerClosed ==> queue == [])
      modifies this, updates
      ensures Valid() && (writer.AtSlot? || writer.Waiting? || writer.Stopped?)
      ensures Model() == Turn(old(Model()), ok)
    {
      if !rxServerClosed {
        if queue != [] {
          var item := queue[0];
          queue, writer := queue[1..], Writing(item);
          var written := WriteClientPacket(item, ok);
          return;
        }
        rxServerClosed := sendersGone;
      }
      writer := AtMap;
      TurnToMap(ok);
    }

    method TurnToMap(ok: bool)
      requires Valid() && writer.AtMap?
      modifies this, updates
      ensures Valid() && (writer.AtSlot? || writer.Waiting? || writer.Stopped?)
      ensures var u := TakeUpdate(old(Model()));
              Model() == if u.writer.Writing? then Write(u, ok) else u
    {
      var next := updates.TakeNext();
      if next.Some? {
        writer := Writing(next.value);
        var written := WriteClientPacket(next.value, ok);
      } else if rxServerClosed {
        StopWriting();
      } else {
        writer := Waiting;
      }
    }

    /** The `select!`: a notification brings the writer back to the top; otherwise the queue has
        something, or has lost its senders. */
    method WriterWait(notified: bool, ok: bool)
      requires Valid() && writer.Waiting? && (notified || queue != [] || sendersGone)
      modifies this
      ensures Valid() && (writer.AtSlot? || writer.Stopped?)
      ensures var m := RecvWaiting(old(Model()));
              Model() == if notified then old(Model()).(writer := AtSlot)
                         else if m.writer.Writing? then Write(m, ok) else m
    {
      if notified {
        writer := AtSlot;
      } else if queue != [] {
        var item := queue[0];
        queue, writer := queue[1..], Writing(item);
        var written := WriteClientPacket(item, ok);
      } else {
        rxServerClosed, writer := true, AtSlot;
      }
    }

    /** The writer task from the top of its loop, when the senders of the queue are gone, nothing
        new is submitted and writes succeed. */
    method WriterLoop()
      requires Valid() && writer.AtSlot? && sendersGone && (rxServerClosed ==> queue == [])
      modifies this, updates
      ensures Valid()
      ensures Model() == Drain(old(Model()))
      ensures writer.Stopped? && slot == None && queue == [] && updates.Contents() == [] && lost == old(lost)
      ensures wire == old(wire) + Slots(old(slot)) + old(queue) + Datas(old(updates.Contents()))
    {
      while writer.AtSlot?
        invariant Valid() && sendersGone && (rxServerClosed ==> queue == [])
        invariant writer.AtSlot? || writer.Stopped?
        invariant Drain(Model()) == Drain(old(Model()))
        decreases writer.AtSlot?, PendingItems(Model())
      {
        TurnDrains(Model());
        TurnCases(Model());
        WriterTurn(true);
      }
      DrainWritesEverything(old(Model()));
    }
  }
}
