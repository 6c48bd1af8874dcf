/** The three answers computed from a whole game: the snapshot of a world, the id counters a new
    player starts from, and the list of players. The first two come from walks of a hash map,
    and do not depend on its order. */
module Snapshots {
  import opened Bytes
  import opened Seqs
  import opened Vanjects
  import opened Games
  import opened Handlers
  import opened Steps

  // ---- world snapshot ----

  /** Lexicographic in the rank of the type and the id as a signed integer. */
  predicate Before(a: Vanject, b: Vanject) {
    SnapshotOrder(a) < SnapshotOrder(b)
    || (SnapshotOrder(a) == SnapshotOrder(b) && Signed32(ToRaw(a.id)) < Signed32(ToRaw(b.id)))
  }

  lemma KeyOrder(a: Vanject, b: Vanject)
    ensures SnapshotKey(a) < SnapshotKey(b) <==> Before(a, b)
    ensures SnapshotKey(a) == SnapshotKey(b) ==> a.id == b.id
  {
    SignedOrder(ToRaw(a.id));
    SignedOrder(ToRaw(b.id));
    IdToRawToId(a.id);
    IdToRawToId(b.id);
    if SnapshotKey(a) == SnapshotKey(b) {
      assert SnapshotOrder(a) == SnapshotOrder(b);
      SignedRankInjective(a.id, b.id);
    }
  }

  function Wanted(t: map<Id, Vanject>, world: int, bind: byte, walk: seq<Id>): seq<Vanject>
    requires forall i :: 0 <= i < |walk| ==> walk[i] in t
  {
    ShownOf(Values(t, walk), world, bind)
  }

  lemma WalkInside(t: map<Id, Vanject>, walk: seq<Id>)
    requires Lists(walk, t.Keys)
    ensures forall i :: 0 <= i < |walk| ==> walk[i] in t
  {
    assert forall i :: 0 <= i < |walk| ==> walk[i] in walk;
  }

  lemma WantedMembers(t: map<Id, Vanject>, world: int, bind: byte, walk: seq<Id>)
    requires TableOk(t) && Lists(walk, t.Keys)
    requires forall i :: 0 <= i < |walk| ==> walk[i] in t
    ensures forall v :: v in Wanted(t, world, bind, walk)
                        <==> v.id in t && t[v.id] == v && InSnapshot(v, world, bind)
    ensures Distinct(Wanted(t, world, bind, walk), SnapshotKey)
  {
    var vs := Values(t, walk);
    FilterMembers(vs, (v: Vanject) => InSnapshot(v, world, bind));
    forall v: Vanject | v.id in t && t[v.id] == v ensures v in vs {
      assert v.id in walk;
      var i :| 0 <= i < |walk| && walk[i] == v.id;
      assert vs[i] == v;
    }
    forall i, j | 0 <= i < j < |vs| ensures SnapshotKey(vs[i]) != SnapshotKey(vs[j]) {
      assert vs[i].id == walk[i] && vs[j].id == walk[j];
      KeyOrder(vs[i], vs[j]);
    }
    FilterKeepsDistinct(vs, (v: Vanject) => InSnapshot(v, world, bind), SnapshotKey);
  }

  /** A snapshot holds exactly the stored objects that the filter accepts, each once, vangers first,
      then slots, devices, shells and lying items, each group by id. */
  lemma SnapshotContents(t: map<Id, Vanject>, world: int, bind: byte, walk: seq<Id>)
    requires TableOk(t) && Lists(walk, t.Keys)
    requires forall i :: 0 <= i < |walk| ==> walk[i] in t
    ensures var s := Snapshot(t, world, bind, walk);
            && (forall v :: v in s <==> v.id in t && t[v.id] == v && InSnapshot(v, world, bind))
            && (forall i, j :: 0 <= i < j < |s| ==> Before(s[i], s[j]) && s[i].id != s[j].id)
  {
    WantedMembers(t, world, bind, walk);
    SortByKeyAscends(Wanted(t, world, bind, walk), SnapshotKey);
    var s := Snapshot(t, world, bind, walk);
    forall i, j | 0 <= i < j < |s| ensures Before(s[i], s[j]) && s[i].id != s[j].id {
      KeyOrder(s[i], s[j]);
    }
  }

  /** What a snapshot is for, in terms of the raw id: lying items of the world, and the vangers, slots,
      devices and shells that others have there. */
  predicate ShownByCode(v: Vanject, world: int, bind: byte) {
    var raw := ToRaw(v.id);
    && GetWorld(raw) as int == world
    && (GetVanjectType(raw) == 0xB_0000
        || (GetVanjectType(raw) in {0x9_0000, 0x2_0000, 0x1_0000, 0x3_0000} && v.owner != bind))
  }

  /** The type codes, in the order in which a snapshot sends the groups: vangers, slots, devices, shells,
      lying items. */
  const GROUPS: seq<u32> := [0x9_0000, 0x2_0000, 0x1_0000, 0x3_0000, 0xB_0000]

  /** Of an earlier group, or of the same one with a smaller id as a signed integer. */
  predicate BeforeByCode(a: Vanject, b: Vanject) {
    exists i, j :: 0 <= i <= j < |GROUPS|
                   && GetVanjectType(ToRaw(a.id)) == GROUPS[i] && GetVanjectType(ToRaw(b.id)) == GROUPS[j]
                   && (i == j ==> Signed32(ToRaw(a.id)) < Signed32(ToRaw(b.id)))
  }

  lemma TypeCode(id: Id)
    ensures GetVanjectType(ToRaw(id)) == id.kind * 0x1_0000 && GetWorld(ToRaw(id)) == id.world
    ensures GetStation(ToRaw(id)) == id.station
  {
    IdToRawToId(id);
  }

  lemma FilterByCode(v: Vanject, world: int, bind: byte)
    ensures InSnapshot(v, world, bind) <==> ShownByCode(v, world, bind)
  {
    TypeCode(v.id);
  }

  lemma OrderByCode(a: Vanject, b: Vanject, world: int, bind: byte)
    requires InSnapshot(a, world, bind) && InSnapshot(b, world, bind) && Before(a, b)
    ensures BeforeByCode(a, b)
  {
    TypeCode(a.id);
    TypeCode(b.id);
    var i, j := GroupOf(a), GroupOf(b);
    assert GetVanjectType(ToRaw(a.id)) == GROUPS[i] && GetVanjectType(ToRaw(b.id)) == GROUPS[j];
  }

  function GroupOf(v: Vanject): (i: nat)
    requires v.id.kind in {VANGER, SLOT, DEVICE, SHELL, STUFF}
    ensures i < |GROUPS| && GROUPS[i] == v.id.kind * 0x1_0000
  {
    if v.id.kind == VANGER then 0
    else if v.id.kind == SLOT then 1
    else if v.id.kind == DEVICE then 2
    else if v.id.kind == SHELL then 3
    else 4
  }

  /** A snapshot holds exactly the stored objects that it is for, by type code, each once, group after
      group and each group by id. */
  lemma SnapshotByCode(t: map<Id, Vanject>, world: int, bind: byte, walk: seq<Id>)
    requires TableOk(t) && Lists(walk, t.Keys)
    requires forall i :: 0 <= i < |walk| ==> walk[i] in t
    ensures var s := Snapshot(t, world, bind, walk);
            && (forall v :: v in s <==> v.id in t && t[v.id] == v && ShownByCode(v, world, bind))
            && (forall i, j :: 0 <= i < j < |s| ==> BeforeByCode(s[i], s[j]) && s[i].id != s[j].id)
  {
    SnapshotContents(t, world, bind, walk);
    var s := Snapshot(t, world, bind, walk);
    forall v ensures v in s <==> v.id in t && t[v.id] == v && ShownByCode(v, world, bind) {
      FilterByCode(v, world, bind);
    }
    forall i, j | 0 <= i < j < |s| ensures BeforeByCode(s[i], s[j]) && s[i].id != s[j].id {
      assert s[i] in s && s[j] in s;
      OrderByCode(s[i], s[j], world, bind);
    }
  }

  /** Any two walks of the table give the same snapshot. */
  lemma SnapshotUnordered(t: map<Id, Vanject>, world: int, bind: byte, walk: seq<Id>, other: seq<Id>)
    requires TableOk(t) && Lists(walk, t.Keys) && Lists(other, t.Keys)
    requires forall i :: 0 <= i < |walk| ==> walk[i] in t
    requires forall i :: 0 <= i < |other| ==> other[i] in t
    ensures Snapshot(t, world, bind, walk) == Snapshot(t, world, bind, other)
  {
    WantedMembers(t, world, bind, walk);
    WantedMembers(t, world, bind, other);
    SortByKeyAscends(Wanted(t, world, bind, walk), SnapshotKey);
    SortByKeyAscends(Wanted(t, world, bind, other), SnapshotKey);
    AscendingUnique(Snapshot(t, world, bind, walk), Snapshot(t, world, bind, other),
                    SnapshotKey);
  }

  lemma NextShown(vs: seq<Vanject>, world: int, bind: byte, i: nat)
    requires i < |vs|
    ensures ShownOf(vs[..i + 1], world, bind)
            == ShownOf(vs[..i], world, bind) + if InSnapshot(vs[i], world, bind) then [vs[i]] else []
  {
    assert vs[..i + 1][..i] == vs[..i];
  }

  /** Puts an object behind all those that do not come after it. */
  method InsertInOrder(v: Vanject, vs: seq<Vanject>) returns (r: seq<Vanject>)
    ensures r == Insert(v, vs, SnapshotKey)
  {
    var k := 0;
    while k < |vs| && SnapshotKey(vs[k]) <= SnapshotKey(v)
      invariant k <= |vs| && Insert(v, vs, SnapshotKey) == vs[..k] + Insert(v, vs[k..], SnapshotKey)
    {
      assert vs[k..][1..] == vs[k + 1..] && vs[..k + 1] == vs[..k] + [vs[k]];
      k := k + 1;
    }
    r := vs[..k] + [v] + vs[k..];
  }

  /** The filter and the stable sort of SET_WORLD, over a walk of the table. */
  method BuildSnapshot(t: map<Id, Vanject>, world: int, bind: byte, walk: seq<Id>) returns (vs: seq<Vanject>)
    requires forall i :: 0 <= i < |walk| ==> walk[i] in t
    ensures vs == Snapshot(t, world, bind, walk)
  {
    ghost var all := Values(t, walk);
    var wanted: seq<Vanject> := [];
    for i := 0 to |walk|
      invariant wanted == ShownOf(all[..i], world, bind)
    {
      NextShown(all, world, bind, i);
      var v := t[walk[i]];
      if InSnapshot(v, world, bind) {
        wanted := wanted + [v];
      }
    }
    assert all[..|walk|] == all;
    vs := [];
    for i := 0 to |wanted|
      invariant vs == SortByKey(wanted[..i], SnapshotKey)
    {
      assert wanted[..i + 1][..i] == wanted[..i];
      vs := InsertInOrder(wanted[i], vs);
    }
    assert wanted[..|wanted|] == wanted;
  }

  // ---- fresh ids ----

  predicate Matches(id: Id, station: int, kind: int) {
    id.station as int == station && id.kind as int == kind
  }

  lemma {:induction false} MaxCounterBounds(walk: seq<Id>, station: int, kind: int)
    ensures forall id :: id in walk && Matches(id, station, kind) ==> id.counter <= MaxCounter(walk, station, kind)
    ensures MaxCounter(walk, station, kind) > 0 ==>
              exists id :: id in walk && Matches(id, station, kind) && id.counter == MaxCounter(walk, station, kind)
  {
    if walk != [] {
      var n := |walk| - 1;
      MaxCounterBounds(walk[..n], station, kind);
      assert walk == walk[..n] + [walk[n]];
      assert walk[n] in walk;
    }
  }

  /** The offsets do not depend on the order of the walk. */
  lemma OffsetsUnordered(walk: seq<Id>, other: seq<Id>, ids: set<Id>, station: int)
    requires Lists(walk, ids) && Lists(other, ids)
    ensures Offsets(walk, station) == Offsets(other, station)
  {
    forall kind | 0 <= kind < 16 ensures MaxCounter(walk, station, kind) == MaxCounter(other, station, kind) {
      MaxCounterBounds(walk, station, kind);
      MaxCounterBounds(other, station, kind);
    }
  }

  /** The counter a client starts from; 0 stands for 1. */
  function FirstFree(offset: u16): int {
    if offset == 0 then 1 else offset
  }

  /** No stored id of the station and type has a counter at or above the offered one exactly when none
      has the last counter, 65535, after which the 16-bit offset wraps. */
  lemma FreshIds(walk: seq<Id>, ids: set<Id>, station: int, kind: Bits4)
    requires Lists(walk, ids)
    ensures (forall id :: id in ids && Matches(id, station, kind) ==>
              id.counter as int < FirstFree(Offsets(walk, station)[kind]))
            <==> (forall id :: id in ids && Matches(id, station, kind) ==> id.counter != 0xFFFF)
  {
    MaxCounterBounds(walk, station, kind);
    var max := MaxCounter(walk, station, kind);
    if max == 0xFFFF {
      var id :| id in walk && Matches(id, station, kind) && id.counter == max;
    }
  }

  // ---- list of players ----

  lemma {:induction false} RecordCounts(players: seq<Player>, removed: seq<RemovedPlayer>)
    ensures |PlayerRecords(players)| <= |players| && |RemovedRecords(removed)| == |removed|
  {
    if players != [] {
      RecordCounts(players[..|players| - 1], removed);
    } else if removed != [] {
      RecordCounts(players, removed[..|removed| - 1]);
    }
  }

  /** The one-byte count in front of the list is exact. */
  lemma PlayerCountExact(g: Game)
    requires GameOk(g)
    ensures TotalPlayersData(g)[0] as int == |PlayerRecords(g.players)| + |RemovedRecords(g.removed)| <= 30
  {
    RecordCounts(g.players, g.removed);
    AtMostThirtyPlayers(g);
  }

  /** The data so far: a byte for the count, then the records. */
  ghost predicate Collected(data: seq<byte>, count: byte, records: seq<seq<byte>>) {
    |data| >= 1 && data[1..] == Flatten(records) && count as int == |records| % 0x100
  }

  lemma Collect(data: seq<byte>, count: byte, records: seq<seq<byte>>, record: seq<byte>)
    requires Collected(data, count, records)
    ensures Collected(data + record, (count + 1) % 0x100, records + [record])
  {
    assert (records + [record])[..|records|] == records;
    assert (data + record)[1..] == data[1..] + record;
  }

  lemma NextPlayerRecord(players: seq<Player>, i: nat)
    requires i < |players|
    ensures PlayerRecords(players[..i + 1])
            == PlayerRecords(players[..i]) + if players[i].body.Some? then [PlayerRecord(players[i])] else []
  {
    assert players[..i + 1][..i] == players[..i];
  }

  lemma NextRemovedRecord(live: seq<seq<byte>>, removed: seq<RemovedPlayer>, i: nat)
    requires i < |removed|
    ensures live + RemovedRecords(removed[..i + 1]) == live + RemovedRecords(removed[..i]) + [RemovedRecord(removed[i])]
  {
    assert removed[..i + 1][..i] == removed[..i];
  }

  /** `total_players_data_packet`: appends the records, counting in one byte, and patches the count
      into the first byte. */
  method BuildTotalPlayersData(g: Game) returns (data: seq<byte>)
    ensures data == TotalPlayersData(g)
  {
    data := [(|g.players| + |g.removed|) % 0x100];
    var count: byte := 0;
    ghost var records: seq<seq<byte>> := [];
    for i := 0 to |g.players|
      invariant records == PlayerRecords(g.players[..i]) && Collected(data, count, records)
    {
      NextPlayerRecord(g.players, i);
      if g.players[i].body.Some? {
        var record := PlayerRecord(g.players[i]);
        Collect(data, count, records, record);
        data, count := data + record, (count + 1) % 0x100;
        records := records + [record];
      }
    }
    assert g.players[..|g.players|] == g.players;
    ghost var live := records;
    for i := 0 to |g.removed|
      invariant records == live + RemovedRecords(g.removed[..i]) && Collected(data, count, records)
    {
      NextRemovedRecord(live, g.removed, i);
      var record := RemovedRecord(g.removed[i]);
      Collect(data, count, records, record);
      data, count := data + record, (count + 1) % 0x100;
      records := records + [record];
    }
    assert g.removed[..|g.removed|] == g.removed;
    data := [count] + data[1..];
  }

  /** The scan for offsets: one pass over the table with an array of 16 counters. */
  method BuildOffsets(order: seq<Id>, station: byte) returns (offsets: seq<u16>)
    requires forall i :: 0 <= i < |order| && order[i].station as int == station as int ==> order[i].kind < 16
    ensures offsets == Offsets(order, station as int)
  {
    var counters := new u16[16](_ => 0);
    for i := 0 to |order|
      invariant forall kind :: 0 <= kind < 16 ==> counters[kind] == MaxCounter(order[..i], station as int, kind)
    {
      var id := order[i];
      assert order[..i + 1][..i] == order[..i] && order[..i + 1][i] == id;
      if id.station as int == station as int && counters[id.kind] < id.counter {
        counters[id.kind] := id.counter;
      }
    }
    assert order[..|order|] == order;
    offsets := seq(16, kind requires 0 <= kind < 16 reads counters => OffsetOf(counters[kind]));
  }
}
