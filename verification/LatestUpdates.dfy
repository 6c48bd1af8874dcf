/** The coalescing map of pending realtime updates: at most one per object, oldest object first. */
module LatestUpdates {
  import opened Wrappers
  import opened Bytes
  import opened Seqs

  datatype Entry<+T> = Entry(id: u32, data: T)

  // ---- the map as an association list in insertion order ----

  function Put<T>(es: seq<Entry<T>>, id: u32, data: T): (r: seq<Entry<T>>) {
    if es == [] then [Entry(id, data)]
    else if es[0].id == id then [Entry(id, data)] + es[1..]
    else [es[0]] + Put(es[1..], id, data)
  }

  function Drop<T(!new)>(es: seq<Entry<T>>, id: u32): (r: seq<Entry<T>>) {
    Filter(es, (e: Entry<T>) => e.id != id)
  }

  predicate Has<T>(es: seq<Entry<T>>, id: u32) {
    exists i :: 0 <= i < |es| && es[i].id == id
  }

  ghost predicate UniqueIds<T>(es: seq<Entry<T>>) {
    forall i, j :: 0 <= i < j < |es| ==> es[i].id != es[j].id
  }

  /** Replacing keeps the position. */
  lemma {:induction false} PutExisting<T>(es: seq<Entry<T>>, id: u32, data: T, k: nat)
    requires UniqueIds(es) && k < |es| && es[k].id == id
    ensures Put(es, id, data) == es[k := Entry(id, data)]
  {
    if k > 0 {
      PutExisting(es[1..], id, data, k - 1);
    }
  }

  /** A new id goes to the end. */
  lemma {:induction false} PutNew<T>(es: seq<Entry<T>>, id: u32, data: T)
    requires !Has(es, id)
    ensures Put(es, id, data) == es + [Entry(id, data)]
  {
    if es != [] {
      assert es[0].id != id;
      assert forall i :: 0 <= i < |es| - 1 ==> es[1..][i] == es[i + 1];
      PutNew(es[1..], id, data);
    }
  }

  /** Dropping deletes the one entry of an id. */
  lemma DropExisting<T(!new)>(es: seq<Entry<T>>, id: u32, k: nat)
    requires UniqueIds(es) && k < |es| && es[k].id == id
    ensures Drop(es, id) == es[..k] + es[k + 1..]
  {
    FilterOne(es, (e: Entry<T>) => e.id != id, k);
  }

  lemma DropMissing<T(!new)>(es: seq<Entry<T>>, id: u32)
    requires !Has(es, id)
    ensures Drop(es, id) == es
  {
    FilterAll(es, (e: Entry<T>) => e.id != id);
  }

  lemma {:induction false} PutMembers<T(!new)>(es: seq<Entry<T>>, id: u32, data: T)
    requires UniqueIds(es)
    ensures UniqueIds(Put(es, id, data))
    ensures forall e :: e in Put(es, id, data) ==> e == Entry(id, data) || (e in es && e.id != id)
    ensures |Put(es, id, data)| == |es| + if Has(es, id) then 0 else 1
  {
    if Has(es, id) {
      var k :| 0 <= k < |es| && es[k].id == id;
      PutExisting(es, id, data, k);
    } else {
      PutNew(es, id, data);
    }
  }

  lemma DropMembers<T(!new)>(es: seq<Entry<T>>, id: u32)
    requires UniqueIds(es)
    ensures UniqueIds(Drop(es, id))
    ensures forall e :: e in Drop(es, id) <==> e in es && e.id != id
    ensures |Drop(es, id)| == |es| - if Has(es, id) then 1 else 0
  {
    FilterKeepsDistinct(es, (e: Entry<T>) => e.id != id, (e: Entry<T>) => e.id);
    FilterMembers(es, (e: Entry<T>) => e.id != id);
    if Has(es, id) {
      var k :| 0 <= k < |es| && es[k].id == id;
      DropExisting(es, id, k);
    } else {
      DropMissing(es, id);
    }
  }

  // ---- fairness over any run of operations ----

  datatype Op<+T> = PutOp(id: u32, data: T) | TakeOp | DropOp(id: u32)

  function Apply<T(!new)>(es: seq<Entry<T>>, op: Op<T>): seq<Entry<T>> {
    match op
    case PutOp(id, data) => Put(es, id, data)
    case TakeOp => if es == [] then [] else es[1..]
    case DropOp(id) => Drop(es, id)
  }

  function ApplyAll<T(!new)>(es: seq<Entry<T>>, ops: seq<Op<T>>): seq<Entry<T>>
    decreases ops
  {
    if ops == [] then es else ApplyAll(Apply(es, ops[0]), ops[1..])
  }

  function Takes<T>(ops: seq<Op<T>>): nat {
    if ops == [] then 0 else (if ops[0].TakeOp? then 1 else 0) + Takes(ops[1..])
  }

  /** The newest data for `id` after `ops`, starting from `data`. */
  function Newest<T>(data: T, ops: seq<Op<T>>, id: u32): T {
    if ops == [] then data
    else Newest(if ops[0].PutOp? && ops[0].id == id then ops[0].data else data, ops[1..], id)
  }

  lemma PutLeaves<T>(es: seq<Entry<T>>, id: u32, data: T, k: nat)
    requires UniqueIds(es) && k < |es|
    ensures k < |Put(es, id, data)|
    ensures Put(es, id, data)[k] == if es[k].id == id then Entry(id, data) else es[k]
  {
    if Has(es, id) {
      var i :| 0 <= i < |es| && es[i].id == id;
      PutExisting(es, id, data, i);
    } else {
      PutNew(es, id, data);
    }
  }

  lemma DropLeaves<T(!new)>(es: seq<Entry<T>>, id: u32, k: nat) returns (j: nat)
    requires UniqueIds(es) && k < |es| && es[k].id != id
    ensures UniqueIds(Drop(es, id))
    ensures j <= k && j < |Drop(es, id)| && Drop(es, id)[j] == es[k]
  {
    j := k;
    if Has(es, id) {
      var i :| 0 <= i < |es| && es[i].id == id;
      DropExisting(es, id, i);
      j := if k < i then k else k - 1;
    } else {
      DropMissing(es, id);
    }
  }

  /** An update at position `k` that no lifecycle packet drops is taken by one of the next
      `k + 1` takes, with the newest data, however many replacements arrive meanwhile. */
  lemma {:induction false} TakenInTurn<T(!new)>(es: seq<Entry<T>>, ops: seq<Op<T>>, k: nat) returns (at: nat)
    requires UniqueIds(es) && k < |es| && k < Takes(ops)
    requires forall op :: op in ops ==> !(op.DropOp? && op.id == es[k].id)
    ensures at < |ops| && ops[at].TakeOp? && Takes(ops[..at]) <= k
    ensures ApplyAll(es, ops[..at]) != []
    ensures ApplyAll(es, ops[..at])[0] == Entry(es[k].id, Newest(es[k].data, ops[..at], es[k].id))
    decreases ops
  {
    var op, id := ops[0], es[k].id;
    if op.TakeOp? && k == 0 {
      at := 0;
    } else {
      var j := k;
      match op {
        case TakeOp => j := k - 1;
        case PutOp(i, d) =>
          PutMembers(es, i, d);
          PutLeaves(es, i, d, k);
        case DropOp(i) =>
          assert op in ops;
          j := DropLeaves(es, i, k);
      }
      var next := TakenInTurn(Apply(es, op), ops[1..], j);
      at := next + 1;
      assert ops[..at][1..] == ops[1..][..next];
    }
  }

  // ---- the two-structure implementation ----

  class LatestObjectUpdates<T(!new)> {
    var order: seq<u32>
    var packets: map<u32, T>

    /** `order` lists exactly the keys of `packets`, each once. */
    ghost predicate Valid()
      reads this
    {
      Lists(order, packets.Keys)
    }

    /** What draining alone needs; it tolerates ids of `order` that are gone from `packets`. */
    ghost predicate Drainable()
      reads this
    {
      Distinct(order, i => i) && forall id :: id in packets ==> id in order
    }

    ghost function Contents(): (es: seq<Entry<T>>)
      reads this
    {
      Pending(order, packets)
    }

    constructor ()
      ensures Valid() && Contents() == []
    {
      order, packets := [], map[];
    }

    method Replace(id: u32, data: T) returns (replaced: bool)
      requires Valid()
      modifies this
      ensures Valid()
      ensures Contents() == Put(old(Contents()), id, data)
      ensures replaced <==> Has(old(Contents()), id)
    {
      PendingHas(order, packets, id);
      replaced := id in packets;
      if replaced {
        ghost var k :| 0 <= k < |order| && order[k] == id;
        PendingPutExisting(order, packets, id, data, k);
      } else {
        PendingPutNew(order, packets, id, data);
      }
      packets := packets[id := data];
      if !replaced {
        order := order + [id];
      }
    }

    method TakeNext() returns (r: Option<T>)
      requires Drainable()
      modifies this
      ensures Drainable() && (old(Valid()) ==> Valid())
      ensures old(Contents()) == [] ==> r == None && Contents() == []
      ensures old(Contents()) != [] ==> r == Some(old(Contents())[0].data) && Contents() == old(Contents())[1..]
    {
      while order != []
        invariant Drainable() && (old(Valid()) ==> Valid())
        invariant Contents() == old(Contents())
        decreases |order|
      {
        var id := order[0];
        PendingFirst(order, packets);
        order := order[1..];
        if id in packets {
          var data := packets[id];
          packets := packets - {id};
          return Some(data);
        }
      }
      return None;
    }

    method Remove(id: u32) returns (removed: bool)
      requires Valid()
      modifies this
      ensures Valid()
      ensures Contents() == Drop(old(Contents()), id)
      ensures removed <==> Has(old(Contents()), id)
    {
      PendingHas(order, packets, id);
      removed := id in packets;
      if removed {
        ghost var k :| 0 <= k < |order| && order[k] == id;
        PendingDrop(order, packets, id, k);
        ListsWithout(order, packets.Keys, k);
        FilterOne(order, i => i != id, k);
        packets := packets - {id};
        order := Filter(order, i => i != id);
      } else {
        DropMissing(Contents(), id);
      }
    }
  }

  /** The entries of `packets` in the order in which `order` names them. */
  ghost function Pending<T>(order: seq<u32>, packets: map<u32, T>): (es: seq<Entry<T>>) {
    if order == [] then []
    else (if order[0] in packets then [Entry(order[0], packets[order[0]])] else []) + Pending(order[1..], packets)
  }

  lemma {:induction false} PendingAt<T>(order: seq<u32>, packets: map<u32, T>)
    requires forall i :: 0 <= i < |order| ==> order[i] in packets
    ensures |Pending(order, packets)| == |order|
    ensures forall i :: 0 <= i < |order| ==>
              order[i] in packets && Pending(order, packets)[i] == Entry(order[i], packets[order[i]])
    ensures Distinct(order, i => i) ==> UniqueIds(Pending(order, packets))
  {
    if order != [] {
      PendingAt(order[1..], packets);
      forall i | 0 <= i < |order|
        ensures order[i] in packets && Pending(order, packets)[i] == Entry(order[i], packets[order[i]])
      {
        assert i > 0 ==> order[i] == order[1..][i - 1];
      }
    }
  }

  lemma PendingHas<T>(order: seq<u32>, packets: map<u32, T>, id: u32)
    requires Lists(order, packets.Keys)
    ensures Has(Pending(order, packets), id) <==> id in packets
  {
    PendingAt(order, packets);
    var es := Pending(order, packets);
    if id in packets {
      var i :| 0 <= i < |order| && order[i] == id;
      assert es[i].id == id;
    }
  }

  lemma PendingPutExisting<T>(order: seq<u32>, packets: map<u32, T>, id: u32, data: T, k: nat)
    requires forall i :: 0 <= i < |order| ==> order[i] in packets
    requires Distinct(order, i => i) && k < |order| && order[k] == id
    ensures Pending(order, packets[id := data]) == Put(Pending(order, packets), id, data)
  {
    PendingAt(order, packets);
    PendingAt(order, packets[id := data]);
    PutExisting(Pending(order, packets), id, data, k);
  }

  lemma PendingPutNew<T>(order: seq<u32>, packets: map<u32, T>, id: u32, data: T)
    requires forall i :: 0 <= i < |order| ==> order[i] in packets
    requires !Has(Pending(order, packets), id)
    ensures Pending(order + [id], packets[id := data]) == Put(Pending(order, packets), id, data)
  {
    PendingAt(order, packets);
    PendingAt(order + [id], packets[id := data]);
    var es := Pending(order, packets);
    PutNew(es, id, data);
    forall i | 0 <= i < |order| ensures order[i] != id {
      assert es[i].id == order[i];
    }
    assert Pending(order + [id], packets[id := data]) == es + [Entry(id, data)];
  }

  lemma {:induction false} PendingWithout<T>(order: seq<u32>, packets: map<u32, T>, id: u32)
    requires id !in order
    ensures Pending(order, packets - {id}) == Pending(order, packets)
  {
    if order != [] {
      PendingWithout(order[1..], packets, id);
    }
  }

  /** What is pending once the first id is taken off. */
  lemma PendingFirst<T>(order: seq<u32>, packets: map<u32, T>)
    requires Distinct(order, i => i) && order != []
    ensures order[0] !in order[1..] && order == [order[0]] + order[1..] && Distinct(order[1..], i => i)
    ensures var rest := Pending(order[1..], packets - {order[0]});
            && rest == Pending(order[1..], packets)
            && Pending(order, packets)
               == if order[0] in packets then [Entry(order[0], packets[order[0]])] + rest else rest
  {
    assert order[0] !in order[1..];
    PendingWithout(order[1..], packets, order[0]);
  }

  lemma PendingDrop<T(!new)>(order: seq<u32>, packets: map<u32, T>, id: u32, k: nat)
    requires forall i :: 0 <= i < |order| ==> order[i] in packets
    requires Distinct(order, i => i) && k < |order| && order[k] == id
    ensures Pending(order[..k] + order[k + 1..], packets - {id}) == Drop(Pending(order, packets), id)
  {
    var es, order' := Pending(order, packets), order[..k] + order[k + 1..];
    PendingAt(order, packets);
    DropExisting(es, id, k);
    forall j | 0 <= j < |order'| ensures order'[j] in packets - {id} {
      assert order'[j] == order[if j < k then j else j + 1];
    }
    PendingAt(order', packets - {id});
    assert Pending(order', packets - {id}) == es[..k] + es[k + 1..];
  }

  lemma ListsWithout(order: seq<u32>, s: set<u32>, k: nat)
    requires Lists(order, s) && k < |order|
    ensures Lists(order[..k] + order[k + 1..], s - {order[k]})
  {
    var order' := order[..k] + order[k + 1..];
    forall x ensures x in order' <==> x in s - {order[k]} {
      if x in s && x != order[k] {
        var j :| 0 <= j < |order| && order[j] == x;
        assert order'[if j < k then j else j - 1] == x;
      }
      if x in order' {
        var j :| 0 <= j < |order'| && order'[j] == x;
        assert x == order[if j < k then j else j + 1];
      }
    }
  }
}
