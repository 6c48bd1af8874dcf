/** What the players are sent about objects, byte for byte and by the raw ids: who hears of what a player
    does, and in whose words. */
module Relays {
  import opened Wrappers
  import opened Bytes
  import opened Vanjects
  import opened Messages
  import opened Games
  import opened Handlers
  import opened Steps
  import opened Snapshots
  import opened Departures

  /** Another player of the game hears of an object that is global, or in its own world. */
  ghost predicate Hears(g: Game, q: ClientId, sender: ClientId, raw: u32) {
    && HasClient(g, q) && q != sender
    && (IsNonGlobalVanject(raw) ==>
          PlayerOf(g, q).world.Some? && PlayerOf(g, q).world.value as int == GetWorld(raw) as int)
  }

  lemma HearsInWorld(g: Game, world: int, sender: ClientId, q: ClientId)
    requires GameOk(g)
    ensures q in InWorld(g, world, sender)
            <==> HasClient(g, q) && q != sender
                 && PlayerOf(g, q).world.Some? && PlayerOf(g, q).world.value as int == world
  {
    if q in InWorld(g, world, sender) {
      var p :| p in g.players && p.world.Some? && p.world.value as int == world && p.client != sender && p.client == q;
      var i :| 0 <= i < |g.players| && g.players[i] == p;
      PlayerAt(g, q, i);
    }
    if HasClient(g, q) {
      assert PlayerOf(g, q) in g.players;
    }
  }

  lemma AudienceByBits(g: Game, id: Id, sender: ClientId, q: ClientId)
    requires GameOk(g)
    ensures q in Audience(g, id, sender) <==> Hears(g, q, sender, ToRaw(id))
  {
    HearsInWorld(g, id.world as int, sender, q);
    OthersInGame(g, sender, q);
    IdToRawToId(id);
    Classifiers(ToRaw(id));
    TypeCode(id);
  }

  predicate IsItemCode(raw: u32) {
    GetVanjectType(raw) == 0x1_0000 || GetVanjectType(raw) == 0xB_0000
  }

  /** The message carries these bytes of an object: bare, or as the state of an item. */
  predicate Carries(m: Message, raw: u32, bytes: seq<byte>) {
    if IsItemCode(raw) then
      m.ItemState? && Payload(m) == [if GetVanjectType(raw) == 0x1_0000 then 1 else 2, 0, 0, 0, 0] + bytes
    else m.ObjectUpdate? && Payload(m) == bytes
  }

  lemma AnnounceCarries(v: Vanject)
    ensures Carries(Announce(v), ToRaw(v.id), ToVangersByte(v))
  {
    IdToRawToId(v.id);
    TypeCode(v.id);
    StateByteFits(v);
    assert ToVangersByte(AsSent(v)) == ToVangersByte(v);
    assert ToLe32(ToRaw(NO_ID)) == [0, 0, 0, 0];
  }

  // ---- UPDATE_OBJECT ----

  /** An accepted update is passed on to whoever hears of the object, as its sender sent it, with the
      sender's slot put in; of a refused one nobody hears. */
  lemma UpdateRelayed(g: Game, e: Event, q: ClientId)
    requires GameOk(g) && e.Update? && Possible(g, e)
    ensures Step(g, e).outcome.Failed? ==> Step(g, e).notices == []
    ensures Step(g, e).outcome.Done? ==>
              var raw, data, slot := FromLe32(e.data), e.data, PlayerOf(g, e.client).bind;
              var skip := if GetVanjectType(raw) == 0x9_0000 then 14 else 12;
              && |data| >= skip && |Step(g, e).notices| == 1
              && (q in Step(g, e).notices[0].to <==> Hears(g, q, e.client, raw))
              && Carries(Step(g, e).notices[0].message, raw, data[..4] + [slot] + data[4..12] + data[skip..])
  {
    if Step(g, e).outcome.Done? {
      var id, slot := FromRaw(FromLe32(e.data)), PlayerOf(g, e.client).bind;
      var v := g.vanjects[id];
      UpdateIsRelayed(v, e.data, slot);
      var v' := UpdateFromSlice(v, e.data).value.(owner := slot);
      RawToIdToRaw(FromLe32(e.data));
      AudienceByBits(g, id, e.client, q);
      AnnounceCarries(v');
      TypeCode(id);
    }
  }

  // ---- CREATE_OBJECT ----

  /** A creation is refused exactly if it is of an item whose bytes name a stored item, and then that one is
      reported. */
  lemma CreateRefused(g: Game, e: Event)
    requires GameOk(g) && e.Create? && Possible(g, e)
    ensures var v := e.v;
            Step(g, e).outcome.Failed? <==>
              && v.id !in g.vanjects && IsItemCode(ToRaw(v.id)) && |v.body| >= 5
              && IsItemCode(FromLe32(v.body[1..])) && FromRaw(FromLe32(v.body[1..])) in g.vanjects
    ensures Step(g, e).outcome.Failed? ==>
              && Step(g, e).game == g && Step(g, e).notices == []
              && Step(g, e).outcome == Failed(PairedItemAlreadyExists(e.v.id, FromRaw(FromLe32(e.v.body[1..]))))
  {
    TypeCode(e.v.id);
    if |e.v.body| >= 5 {
      RawToIdToRaw(FromLe32(e.v.body[1..]));
      TypeCode(FromRaw(FromLe32(e.v.body[1..])));
    }
  }

  /** A new object is passed on to whoever hears of it, as its creator sent it, with the creator's slot put
      in and the radius left out. Nobody hears of a vanger with less than 25 bytes of body. */
  lemma CreateRelayed(g: Game, e: Event, slice: seq<byte>, q: ClientId)
    requires GameOk(g) && e.Create? && Possible(g, e) && CreateFromSlice(slice) == Ok(e.v)
    requires e.v.id !in g.vanjects && Step(g, e).outcome.Done?
    ensures var raw, slot := FromLe32(slice), PlayerOf(g, e.client).bind;
            var vanger := GetVanjectType(raw) == 0x9_0000;
            if vanger && |slice| < 16 + 25 then Step(g, e).notices == []
            else
              && |Step(g, e).notices| == 1
              && (q in Step(g, e).notices[0].to <==> Hears(g, q, e.client, raw))
              && Carries(Step(g, e).notices[0].message, raw,
                         slice[..4] + [slot] + slice[4..12] + slice[if vanger then 16 else 14..])
  {
    var slot := PlayerOf(g, e.client).bind;
    CreationIsRelayed(slice, slot);
    RawToIdToRaw(FromLe32(slice));
    AudienceByBits(g, e.v.id, e.client, q);
    AnnounceCarries(e.v.(owner := slot));
    TypeCode(e.v.id);
  }

  /** A new vanger gives its creator a position and, with at least 25 bytes, a body; the creation of
      anything else leaves the player as it was. */
  lemma VangerMakesPlayer(g: Game, e: Event, slice: seq<byte>)
    requires GameOk(g) && e.Create? && Possible(g, e) && CreateFromSlice(slice) == Ok(e.v)
    requires e.v.id !in g.vanjects && Step(g, e).outcome.Done?
    ensures HasClient(After(g, e), e.client)
    ensures var p, p' := PlayerOf(g, e.client), PlayerOf(After(g, e), e.client);
            if GetVanjectType(FromLe32(slice)) == 0x9_0000 then
              p' == p.(x := FromLe16(slice[8..]), y := FromLe16(slice[10..]),
                       body := if |slice| >= 16 + 25 then Some(slice[16..]) else None)
            else p' == p
  {
    RawToIdToRaw(FromLe32(slice));
    TypeCode(e.v.id);
    if e.v.id.kind == VANGER {
      OwnUpdated(g, e, PlayerOf(g, e.client).(x := e.v.x, y := e.v.y, body := BodyOf(e.v.body)));
    } else {
      SamePlayers(After(g, e), g, e.client);
    }
  }

  /** The creation of a stored object changes nothing; its sender, and nobody else, is told what is stored
      and, of a vanger, whose it is and where. */
  lemma CreateAgain(g: Game, e: Event)
    requires GameOk(g) && e.Create? && Possible(g, e) && e.v.id in g.vanjects
    ensures var v, raw, r := g.vanjects[e.v.id], ToRaw(e.v.id), Step(g, e);
            && r.game == g && r.outcome.Done? && (forall i :: 0 <= i < |r.notices| ==> r.notices[i].to == {e.client})
            && |r.notices| == (if GetVanjectType(raw) == 0x9_0000 then 2 else 1)
            && Carries(r.notices[0].message, raw, ToVangersByte(v))
            && (|r.notices| == 2 ==> r.notices[1].message == PlayersPosition(v.owner, v.x, v.y))
  {
    AnnounceCarries(g.vanjects[e.v.id]);
    TypeCode(e.v.id);
  }

  // ---- DELETE_OBJECT ----

  /** An accepted deletion is passed on to whoever hears of the object: of an item with the id in its bytes,
      and of anything else, stored or not, in the sender's words behind the sender's slot. */
  lemma DeleteRelayed(g: Game, e: Event, q: ClientId)
    requires GameOk(g) && e.Delete? && Possible(g, e)
    ensures Step(g, e).outcome.Failed? ==> Step(g, e).notices == []
    ensures Step(g, e).outcome.Done? ==>
              var raw, slot, stored := ToRaw(e.id), PlayerOf(g, e.client).bind, e.id in g.vanjects;
              && |Step(g, e).notices| == 1
              && (q in Step(g, e).notices[0].to <==> Hears(g, q, e.client, raw))
              && var m := Step(g, e).notices[0].message;
                 if stored && IsItemCode(raw) then
                   var body := g.vanjects[e.id].body;
                   m.ItemRemoved?
                   && Payload(m) == ToLe32(raw) + (if |body| >= 5 then body[1..5] else [0, 0, 0, 0]) + [1]
                 else m.ObjectDelete? && Payload(m) == ToLe32(raw) + [slot] + e.rest
  {
    if Step(g, e).outcome.Done? {
      AudienceByBits(g, e.id, e.client, q);
      TypeCode(e.id);
      if e.id in g.vanjects && IsItem(e.id) && |g.vanjects[e.id].body| >= 5 {
        IdBytes(g.vanjects[e.id].body[1..]);
      }
      assert ToLe32(ToRaw(NO_ID)) == [0, 0, 0, 0];
    }
  }

  // ---- ITEM_TRANSFER ----

  /** The bytes of the new form. */
  lemma TransferredBytes(data: seq<byte>, t: Transfer, slot: byte)
    requires CheckTransfer(data) == Ok(t)
    ensures |data| >= 24
    ensures ToVangersByte(t.v.(owner := slot)) == data[10..14] + [slot] + data[14..22] + data[24..]
    ensures ToRaw(t.v.id) == FromLe32(data[10..]) && ToLe32(ToRaw(t.oldId)) == data[1..5]
  {
    var slice := data[10..];
    CreationIsRelayed(slice, slot);
    RawToIdToRaw(FromLe32(slice));
    IdBytes(data[1..]);
    assert data[1..][..4] == data[1..5];
    assert slice[..4] == data[10..14] && slice[4..12] == data[14..22] && slice[14..] == data[24..];
  }

  lemma TransferState(data: seq<byte>, t: Transfer, slot: byte)
    requires CheckTransfer(data) == Ok(t)
    ensures data[0] in {1, 2} && ItemStateOf(t.v.(owner := slot)) == data[0]
  {
  }

  /** An accepted transfer is passed on to the others in the item's world: state 1 for a pickup and 2 for a
      drop, the old id, and the new form as its sender sent it, with the sender's slot put in. */
  lemma TransferRelayed(g: Game, e: Event, data: seq<byte>, q: ClientId)
    requires GameOk(g) && e.TransferItem? && Possible(g, e) && CheckTransfer(data) == Ok(e.t)
    ensures Step(g, e).outcome.Failed? ==> Step(g, e).notices == []
    ensures Step(g, e).outcome.Done? ==>
              && |data| >= 24 && data[0] in {1, 2} && |Step(g, e).notices| == 1
              && (q in Step(g, e).notices[0].to <==> Hears(g, q, e.client, FromLe32(data[10..])))
              && Step(g, e).notices[0].message.ItemState?
              && Payload(Step(g, e).notices[0].message)
                 == [data[0]] + data[1..5] + (data[10..14] + [PlayerOf(g, e.client).bind] + data[14..22] + data[24..])
  {
    if Step(g, e).outcome.Done? {
      var slot := PlayerOf(g, e.client).bind;
      TransferredBytes(data, e.t, slot);
      TransferState(data, e.t, slot);
      AudienceByBits(g, e.t.v.id, e.client, q);
      assert ToVangersByte(AsSent(e.t.v.(owner := slot))) == ToVangersByte(e.t.v.(owner := slot));
    }
  }
}
