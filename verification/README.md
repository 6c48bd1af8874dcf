# Verification model of vangers-srv

vangers-srv is a game server. Clients join games, move between worlds, and create, update, delete and
hand over objects; the server keeps one table of objects per game and relays every change to the
players it concerns. This project models three cooperating parts of it in Dafny and proves what they
promise:

* **the game state machine** (`Vanjects`, `Games`, `Handlers`, `Steps`, `Tables`, `Inventory`, `Items`,
  `Snapshots`, `Departures`, `Lifecycle`, `Replica`, `Relays`, `Answers`, `Rosters`, `PlayerLists`, `Servers`,
  `Runs`, `Sessions`, `Presence`, `MainLoop`): every message handler is one
  step, because the server handles one message at a time. `Handlers` says what a message does to the game
  of its sender and which packets it submits to whom. `Servers` and `Runs` are the whole server as a state
  machine: many games, connections that come and go, messages, broken connections and ticks in any order.
  `MainLoop.Server` is the server object: its methods update the games in place, send as they go, and are
  proved against those functions. What the functions promise is then stated on raw ids, type codes and
  packet bytes. `Examples` are short runs in which something goes wrong;
* **the outbound scheduler** of a connection (`LatestUpdates`, `Outbound`, `Submissions`, `Connections`): a slot for the
  latest server time, a bounded queue with overflow tasks, and a coalescing ordered map, drained by a
  concurrent writer. The steps of server, overflow tasks and writer interleave freely;
* **the inbound framer and the packet codec** (`Protocol`, `Framer`, `Messages`): the in-place buffer that
  cuts a TCP stream into packets, and the packets' byte forms.

`Bytes`, `Seqs` and `Wrappers` hold little-endian integers, `retain`/`sort_by_key`/hash-map walks, and
`Option`/`Result`.

`dafny verify dfyconfig.toml` checks everything.

## Main results

* `Replica.ReplicaAgreement`: a client that enters a world with an empty view and replays what is
  addressed to it holds, in every later state, exactly the objects of that world that the server
  would show it, *if and only if* nobody else creates a vanger with a body of less than 25 bytes there
  (`create_object` stores such a vanger and tells nobody; `Examples.SilentExample` is a run from a new game).
* `Sessions.ServerReplica`: the same on the whole server, from any state that it ever reaches and for what it
  really submits to the client's connection, while other connections come, play here and elsewhere, break,
  expire and return. `SubmissionsTell`: for a client that only watches, the packets submitted to it since
  its SET_WORLD alone, replayed from nothing, are the table of its world. `EverythingIsSeen` says by type
  codes what that means: every vanger, slot, device and shell of another player there, and all that lies there.
* `Presence.ServerTellsWhoPlays`: on the whole server, of every slot on which somebody has started to play since
  a player was there to hear of it, what is submitted to that player tells whether somebody plays on it now,
  and in which world (`Rosters` is the same for one game).
* `Departures.DepartureByBits`, `DepartureTellsByBits`: on raw ids, exactly which objects go with a player that
  leaves, moves or closes, and that every other player is sent exactly their deletions.
* `Relays`: who is sent what about an object, byte for byte in the sender's own words. `Answers`: when SET_WORLD
  and ATTACH_TO_GAME are accepted, and the whole answers in order. `PlayerLists.ListReadsBack`: the list of
  players is read back field by field.
* `Items.NoItemTwice`, `HonestGame`, `TransferConserves`, `PickupAccount`, `CarriedStaysCarried`: an item is
  never stored in both its forms exactly when no creation duplicates one, transfers neither make nor
  lose items, and over any run, whatever the clients do, at most one pickup of a lying item is granted
  between two times that it is put down.
* `Inventory.NoOrphanInventory`: carried objects always belong to a live player in a world, exactly when
  they are created only by players in worlds. The code does not ask for that: in `Examples.OrphanExample` a
  new connection gets the slot of one that closed, and with it a device that it never created.
* `Tables.OwnerKept`, `OwnerChanges`, `InventoryLeaves`: who can change the owner of an object and who can
  make a carried one disappear, in both directions.
* `Steps.ReachableGameOk`, `Games.GetUniqPlayerId`, `FullGame`: slots are in 1..30, each held once by a live
  or a removed player; the gap scan finds the least free slot, and none exactly when 30 are taken.
* `MainLoop.Server.ExpireDisconnectedPlayers`, `Runs.ReachableServer`, `BrokenExpires`, `RestoredSurvives`,
  `RestoreAnswer`: a tick removes exactly the players whose deadline has come, and none of them is connected;
  a player whose connection breaks keeps its slot for 60 seconds, until the first tick after that; a connection that restores a
  slot plays there through every later tick and through the late disconnection of the connection it
  replaced, and it is told 1 exactly if it does.
* `Submissions.EveryPacketHasItsPlace`: in every interleaving of server, overflow tasks and writer, each packet
  that is not superseded (by a newer server time, a newer update or a deletion of its object) is in exactly
  one place; none is ever in two. `NoUpdateAfterRemoval`: an update that was submitted before a deletion of its
  object is never written after it. `WrittenInOrder`, `QueuedFirst`: reliable packets are written in order
  unless the queue overflows, and even then in the order in which they were queued.
  `LatestUpdates.TakenInTurn`: no object starves. `Outbound.DrainFromAnywhere`: what is written once the senders
  are gone. Everything is, except a server time that comes between the writer's look at the slot and its end
  (`ServerTimeCanBeLeft`).
* `Framer.ReadIsFaithful`: one read delivers exactly the new frames and keeps exactly the tail, if and only
  if it does not end in a harmful way between the two bytes of a header; `FaithfulReads` is the same
  condition for whole connections, and `Framer.OnStream` and `WireRoundTrip` follow. The code looks at the
  second byte before it has arrived: `SplitHeaderCanHarm` is a connection whose second read loses its tail.

## Assumptions on the environment

These are written as `requires` clauses or as `Possible`, because the code does not check them.

* Connection ids are never reused (they are random 64-bit numbers), a connection is not listed after it was
  reported broken, and it sends ATTACH_TO_GAME or RESTORE_CONNECTION only while it has no player.
* Packets are long enough for the slices that a handler takes unchecked (SET_WORLD: three bytes,
  DELETE_OBJECT: four, eight where it is echoed); packets that are built have at most 32766 data bytes.
  Beyond that the program panics.
* ATTACH_TO_GAME indexes an array of 16 by the type of every stored id of the new player's station, so these
  types must be below 16 (`OffsetsInBounds`).
* Arithmetic wraps as in a release build, which is what the Dockerfile makes.
* Clocks, random numbers and the order in which a hash map is walked are parameters.

## Where the code and its documentation differ

The architecture document gives protocol versions 1 and 2; the code accepts only 6. It lists the worlds
of a game as at most 15; the code sets no bound. `Packet::event_size` is said to keep the first two bytes
of a slice of any length; slices of less than three bytes become the default packet. The model follows
the code.

## Model

| member | source | states |
|---|---|---|
| Vanjects.RawToIdToRaw | vangers-srv/src/vanject.rs:26-75 | the bit fields of an id cover all 32 bits: no id is lost by decoding |
| Vanjects.IdToRawToId | vangers-srv/src/vanject.rs:26-75 | the fields do not overlap: every combination of them is some id |
| Vanjects.Classifiers | vangers-srv/src/vanject.rs:44-75 | each mask test (player's, private, non-global, non-static, type) is a condition on one decoded field |
| Vanjects.SignedOrder | vangers-srv/src/server/callback/set_world.rs:114 | the order of ids as `i32`, static ids first, in terms of the fields |
| Vanjects.SignedRankInjective | vangers-srv/src/server/callback/set_world.rs:114 | no two ids tie in that order |
| Vanjects.BroadcastRoundTrip | vangers-srv/src/vanject.rs:329-339 | a client reads back every field of a broadcast object but the radius |
| Vanjects.CreationIsRelayed | vangers-srv/src/vanject.rs:269-297 | the radius is taken from the creator's bytes, and what is broadcast is byte for byte what the creator sent, with the owner put in and the radius left out |
| Vanjects.UpdateIsRelayed | vangers-srv/src/vanject.rs:299-327 | what is broadcast of an updated object is byte for byte what the sender sent, without a vanger's two extra bytes; the radius is kept |
| Bytes.Le32RoundTrip | vangers-srv/src/protocol.rs:129-144 | little-endian integers read back, whatever follows them |
| Protocol.ActionCodes | vangers-srv/src/protocol.rs:26-78 | every action is read back from its code |
| Protocol.CodeOfKnownAction | vangers-srv/src/protocol.rs:26-78 | no two codes mean the same action |
| Protocol.BuiltPacketsAreConsistent | vangers-srv/src/protocol.rs:152-175 | packets from `new` and `create_answer` carry the size and the raw code that their bytes will show |
| Protocol.PacketRoundTrip | vangers-srv/src/protocol.rs:129-206 | a consistent packet is read back from its bytes, unknown actions included |
| Protocol.FrameRoundTrip | vangers-srv/src/protocol.rs:129-206 | a frame whose size field is right is written back byte for byte |
| Framer.CutCovers | vangers-srv/src/client.rs:286-330 | consumed frames and then the tail are all bytes received |
| Framer.TailFits | vangers-srv/src/client.rs:260-263 | the tail of a well-formed stream is shorter than the buffer, so no read is issued on an empty slice |
| Framer.CutAppend | vangers-srv/src/client.rs:286-330 | cutting a stream that arrives in two parts is cutting the first and then its tail with the second |
| Framer.ReadIsFaithful | vangers-srv/src/client.rs:286-330 | a read delivers exactly the new complete frames and keeps exactly the tail, if and only if it does not end harmfully inside a header |
| Framer.FaithfulReads | vangers-srv/src/client.rs:260-331 | over a whole connection, from any buffer, every read delivers exactly the new frames and keeps exactly the tail, if and only if none ends harmfully inside a header |
| Framer.CleanReadsAreHarmless | vangers-srv/src/client.rs:260-331 | in particular when no read ends inside a header, whatever the buffer holds behind its tail |
| Framer.SplitHeaderCanHarm | vangers-srv/src/client.rs:292-293 | two reads into a new buffer, the second of which ends inside a header: its last byte is not kept |
| Framer.WireRoundTrip | vangers-srv/src/protocol.rs:129-206 | packets written one after the other are framed and delivered unchanged and in order, with nothing left over |
| Framer.Framer.OnRead | vangers-srv/src/client.rs:275-331 | one read, in place, is the parse of the filled buffer |
| Framer.Framer.TakeFrames | vangers-srv/src/client.rs:288-330 | the inner loop terminates and refines the parse function |
| Framer.Framer.SaveTail | vangers-srv/src/client.rs:308-311 | the tail is moved to the front and zeros follow it |
| Framer.Framer.ReadNext | vangers-srv/src/client.rs:262-331 | one turn of the read loop: a read that is parsed as a piece of the stream delivers its frames behind those before, and leaves its tail in the buffer |
| Framer.Framer.OnStream | vangers-srv/src/client.rs:260-331 | over a whole connection none of whose reads ends harmfully inside a header, every read has room in the buffer, the packets delivered are the stream cut into frames and the buffer holds its tail, however the reads cut it |
| LatestUpdates.LatestObjectUpdates.Replace | vangers-srv/src/client.rs:400-406 | refines an association list in insertion order: a replaced entry keeps its place; reports whether there was one |
| LatestUpdates.LatestObjectUpdates.TakeNext | vangers-srv/src/client.rs:408-415 | takes the oldest entry with its newest data |
| LatestUpdates.LatestObjectUpdates.Remove | vangers-srv/src/client.rs:417-423 | removes the one entry of the id; reports whether there was one |
| LatestUpdates.TakenInTurn | vangers-srv/src/client.rs:393-423 | an update at position k that is not dropped is taken by one of the next k+1 takes, with the newest data, however many replacements arrive |
| Outbound.FreshStep | vangers-srv/src/client.rs:66-199 | every step of server, overflow task and writer keeps pending updates newer than all deletions of their objects |
| Outbound.ConservedStep | vangers-srv/src/client.rs:66-199 | every step keeps the accounts of submissions balanced |
| Outbound.Conservation | vangers-srv/src/client.rs:527-626 | realtime updates submitted = replaced + dropped + taken + pending, likewise for server times; a reliable packet is in exactly one place: queue, overflow task, hands of the writer, wire or lost |
| Outbound.ConservationFromStart | vangers-srv/src/client.rs:350-380 | every run of a new connection balances: submitted = replaced + dropped + taken + pending, and a reliable packet is in exactly one place |
| Submissions.EverythingIsSubmitted | vangers-srv/src/client.rs:59-199 | after any run of a new connection every item, wherever it is, is a submitted packet byte for byte, on the route of its action, and the counters of pending packets count exactly the submitted ones of their kind |
| Submissions.EveryPacketHasItsPlace | vangers-srv/src/client.rs:66-199 | in every interleaving a submitted packet is in at most one place; in exactly one unless a newer server time, a newer update or a deletion of its object superseded it; and, if it is neither a server time nor a replaceable update, always in one of server, queue, overflow, writer, wire or lost |
| Submissions.SlotHoldsServerTimes | vangers-srv/src/client.rs:182-199 | only server times are ever in the slot, and only replaceable updates, each under its own object, among the pending ones |
| Submissions.NoUpdateAfterRemoval | vangers-srv/src/client.rs:66-133 | in every interleaving no replaceable update of an object is written after a DELETE_OBJECT or HIDE_OBJECT of it that was submitted later, in whatever way |
| Submissions.ReplaceableAccount | vangers-srv/src/client.rs:383-448 | replaceable updates submitted = replaced + dropped + taken + pending, server times likewise, over the submitted packets |
| Submissions.WrittenInOrder | vangers-srv/src/client.rs:66-133 | unless the queue overflows, reliable packets are written in the order of their submission |
| Submissions.QueuedFirst | vangers-srv/src/client.rs:95-121 | even with overflow, a packet that is ahead of another stays ahead: if the other is ever written, it was written before |
| Submissions.QueuedBefore | vangers-srv/src/client.rs:95-121 | a packet in the queue is ahead of every one that is not past the overflow yet |
| Submissions.NothingLostAtWork | vangers-srv/src/client.rs:89-133 | while the writer is at work nothing is lost, no error is counted, and each reliable packet is counted once, as queued or as overflowed |
| Submissions.FailuresCounted | vangers-srv/src/client.rs:104-133 | once the writer has stopped nothing more is written, and every packet that is lost is counted as one that could not be sent |
| Outbound.TurnDrains | vangers-srv/src/client.rs:542-597 | a turn of the writer's loop is a run of fine-grained steps, and makes progress |
| Outbound.DrainFromAnywhere | vangers-srv/src/client.rs:540-597 | after any run, with the writer in any position, once the senders are gone it ends, having written what it was about to take, then the server time, the queue in order and each pending update once, oldest first; a server time is left exactly if the writer is past the slot and nothing else is there to bring it back |
| Outbound.ServerTimeCanBeLeft | vangers-srv/src/client.rs:540-597 | a run after which the last server time is never written |
| Connections.Client.Send | vangers-srv/src/client.rs:59-64 | server times go to the slot, everything else to the queue; what becomes of the packets is in `Submissions` |
| Connections.Client.SendReliable | vangers-srv/src/client.rs:66-134 | drops the pending update of an object that is deleted or hidden, then queues, overflows or fails |
| Connections.Client.DropPendingUpdate | vangers-srv/src/client.rs:67-85 | drops exactly the entry of the packet's object, and counts it if there was one |
| Connections.Client.TrySend | vangers-srv/src/client.rs:89-133 | the packet ends up in one of queue, overflow task and lost, and is counted there |
| Connections.Client.SendRealtimeUpdate | vangers-srv/src/client.rs:136-180 | the update becomes the pending one of its object; without an object id it goes through the queue |
| Connections.Client.SendLatestServerTime | vangers-srv/src/client.rs:182-199 | the newest server time is the pending one |
| Connections.Client.WriteClientPacket | vangers-srv/src/client.rs:603-626 | a successful write appends to the wire and counts packet and bytes; a failed one is counted, and ends the writer with all that is queued |
| Connections.Client.WriterTurn | vangers-srv/src/client.rs:542-597 | one turn, in place, with a write that succeeds or fails, is a turn of the model, and ends at the next turn, in the `select!` or with the writer stopped |
| Connections.Client.WriterWait | vangers-srv/src/client.rs:577-595 | the `select!`, whichever branch wakes the writer |
| Connections.Client.WriterLoop | vangers-srv/src/client.rs:540-597 | once the senders are gone, with writes that succeed, terminates with slot, queue and map empty and everything written in order |
| Messages.ObjectPacketsRoundTrip | vangers-srv/src/server/callback/item_transfer.rs:228-248 | a client reads UPDATE_OBJECT, ITEM_STATE, DELETE_OBJECT and ITEM_REMOVED packets as they were meant; it refuses an item whose state contradicts its id |
| Messages.StateByteOnWire | vangers-srv/src/server/callback/item_transfer.rs:228-282 | in the bytes of an ITEM_STATE packet the state is 1 exactly if the type field of the id at offset 5 is a device's, and 2 exactly if it is a lying item's |
| Messages.NoticePacketsRoundTrip | vangers-srv/src/server/callback/attach_to_game.rs:82-118 | every other packet that the handlers send is read as it was meant, field by field |
| Messages.AnswersAreMessages | vangers-srv/src/protocol.rs:152-175 | the answers to SET_WORLD, ATTACH_TO_GAME and TOTAL_PLAYERS_DATA_QUERY are those that `create_answer` makes |
| Messages.CodesOnWire | vangers-srv/src/protocol.rs:26-78 | the third byte of every packet that the handlers send |
| Games.GetUniqPlayerId | vangers-srv/src/game/game.rs:84-103 | the sort-and-scan loop finds the least slot in 1..30 that no player holds |
| Games.ScanForGap | vangers-srv/src/game/game.rs:92-102 | the scan of the sorted slots stops at the first gap |
| Games.FullGame | vangers-srv/src/game/game.rs:84-103 | at most 30 players; there is no free slot exactly when there are 30 |
| Steps.PlayersAppended | vangers-srv/src/game/game.rs:204-215 | a new player's slot is new among the live, and no removed player keeps it |
| Steps.CloseParts | vangers-srv/src/server/callback/close_socket.rs:30-90 | what closing leaves: players without the sender, one removed record of its slot, the table without what it carried |
| Steps.SetWorldParts | vangers-srv/src/server/callback/set_world.rs:48-113 | SET_WORLD is a departure, kept even when the sizes then disagree, and an arrival |
| Steps.GameOkStep | vangers-srv/src/server/callback/mod.rs:130-178 | every message keeps slots, removed players, keys and owners in order |
| Steps.ReachableGameOk | vangers-srv/src/game/game.rs:204-215 | in every reachable state slots are in 1..30, live and removed ones are distinct and disjoint, table keys are the stored ids, owners are slots, and there are at most 30 players, live and removed |
| Steps.AtMostThirtyPlayers | vangers-srv/src/server/callback/total_players_data_query.rs:42 | live and removed players together are at most 30 |
| Steps.OtherPlayerKept | vangers-srv/src/server/callback/mod.rs:130-178 | no message changes the record of another player, except a restored connection that takes its slot |
| Steps.OwnPlayerKept | vangers-srv/src/server/callback/mod.rs:130-178 | a player keeps its slot; in which world and with which deadline each of its messages leaves it |
| Tables.CreateMakes | vangers-srv/src/server/callback/create_object.rs:38-198 | a creation adds the object, owned by its sender, exactly when its id is new and the counterpart it names is not stored |
| Tables.UpdateMakes | vangers-srv/src/server/callback/update_object.rs:41-216 | an accepted update rewrites one stored object |
| Tables.DeleteMakes | vangers-srv/src/server/callback/delete_object.rs:39-200 | a deletion removes one object of its sender or nothing |
| Tables.TransferMakes | vangers-srv/src/server/callback/item_transfer.rs:70-225 | an accepted transfer replaces one form of an item by the other |
| Departures.DepartureByBits | vangers-srv/src/server/callback/leave_world.rs:12-29 | who leaves, moves to another world or closes takes exactly these stored objects along, on the raw id: non-global ones of the player kind that it owns, and private ones of its station; all others stay as they were |
| Departures.NoVangerRemains | vangers-srv/src/server/callback/leave_world.rs:24-28 | no vanger of the player's station remains, whoever owns it |
| Departures.DepartureTellsByBits | vangers-srv/src/server/callback/leave_world.rs:79-206 | every other player of the game is sent the deletion of a stored object, with its time, exactly if it goes |
| Tables.StepMakes | vangers-srv/src/server/callback/mod.rs:130-178 | every message makes one of five guarded changes to the table |
| Tables.UpdateGranted | vangers-srv/src/server/callback/update_object.rs:71-141 | exactly who may update an object |
| Tables.DeleteGranted | vangers-srv/src/server/callback/delete_object.rs:76-192 | exactly which deletions are accepted, and that refused ones change nothing |
| Tables.TransferGranted | vangers-srv/src/server/callback/item_transfer.rs:85-193 | exactly which well-formed transfers are accepted, and that refused ones change nothing |
| Tables.OwnerChanges | vangers-srv/src/server/callback/update_object.rs:114-141 | the owner of a stored object changes exactly when another player updates a global or static one |
| Tables.OwnerKept | vangers-srv/src/server/callback/update_object.rs:114-141 | over any run a non-global non-static object keeps its owner for as long as it stays |
| Tables.InventoryLeaves | vangers-srv/src/server/callback/leave_world.rs:12-29 | a carried object leaves the table exactly when its owner deletes it, drops it or gives up its world |
| Inventory.SeatSurvives | vangers-srv/src/server/callback/leave_world.rs:77-78 | the holder of a slot stays in a world unless it gives it up itself |
| Inventory.OrphanStep | vangers-srv/src/server/callback/create_object.rs:122-198 | a message orphans a carried object exactly when it creates one outside of all worlds |
| Inventory.NoOrphanInventory | vangers-srv/src/server/callback/leave_world.rs:12-29 | no state of a run holds an orphaned carried object exactly when carried objects are created only by players in worlds |
| Inventory.RecycledSlotIsEmpty | vangers-srv/src/game/game.rs:204-215 | a player that joins, on whatever slot, starts with nothing to carry |
| Examples.OrphanExample | vangers-srv/src/server/callback/create_object.rs:122-198 | from a new game: a device created before entering any world outlives its owner, and belongs to the next connection that gets the slot |
| Items.TransferWellFormed | vangers-srv/src/server/callback/item_transfer.rs:285-360 | a transfer packet passes its validations exactly when its two ids and its link name the two forms of one item, the way its kind says |
| Items.TwinStep | vangers-srv/src/server/callback/create_object.rs:99-121 | a message stores an item twice exactly when it is an accepted creation of an item that is stored already |
| Items.NoItemTwice | vangers-srv/src/server/callback/create_object.rs:99-121 | no state of a run holds an item twice exactly when no creation duplicates one |
| Items.HonestStep | vangers-srv/src/server/callback/create_object.rs:99-121 | clients that name an item's counterpart and leave the static bit clear cannot duplicate it |
| Items.HonestRun | vangers-srv/src/server/callback/item_transfer.rs:75-205 | over whole runs of such clients no item is stored twice and no item id is static |
| Items.HonestGame | vangers-srv/src/server/callback/item_transfer.rs:75-205 | no game of such clients ever stores a device together with its lying form |
| Items.DuplicateExample | vangers-srv/src/server/callback/create_object.rs:99-121 | a creation whose link names something else gets the second form accepted |
| Items.TransferConserves | vangers-srv/src/server/callback/item_transfer.rs:182-205 | an accepted transfer keeps the size of the table, its set of items and every other object |
| Items.PickupGranted | vangers-srv/src/server/callback/item_transfer.rs:85-205 | a pickup by a player in the world is granted exactly when the item still lies there |
| Items.OnePickupWins | vangers-srv/src/server/callback/item_transfer.rs:85-205 | of several pickups of one lying item exactly one is granted |
| Items.PickupAccount | vangers-srv/src/server/callback/item_transfer.rs:85-205 | over any run, whatever the clients do: a lying item was there or was put down exactly as often as it was picked up, was deleted or is there in the end |
| Items.OnePickupBetweenDrops | vangers-srv/src/server/callback/item_transfer.rs:85-205 | over any run in which a lying item is not put down at most one pickup of it is granted, and none unless it lay there |
| Items.CarriedStaysCarried | vangers-srv/src/server/callback/item_transfer.rs:85-205 | over any run without a duplicating creation, while the carried form stays no pickup of the lying form is granted |
| Snapshots.SnapshotByCode | vangers-srv/src/server/callback/set_world.rs:214-241 | a snapshot holds, by the codes of the raw ids, exactly what lies in the world and the vangers, slots, devices and shells that others have there, each once, vangers first, then slots, devices, shells and lying items, each group by id as `i32` |
| Snapshots.SnapshotUnordered | vangers-srv/src/server/callback/set_world.rs:109-114 | any two walks of the hash map give the same snapshot |
| Snapshots.BuildSnapshot | vangers-srv/src/server/callback/set_world.rs:109-114 | the filter loop and the stable insertion sort over a walk of the table compute the snapshot |
| Snapshots.OffsetsUnordered | vangers-srv/src/server/callback/attach_to_game.rs:66-80 | the offsets do not depend on the order of the walk |
| Snapshots.FreshIds | vangers-srv/src/server/callback/attach_to_game.rs:62-80 | no stored id of the station and type is at or above the offered counter, exactly when none has the last counter 65535 |
| Snapshots.BuildOffsets | vangers-srv/src/server/callback/attach_to_game.rs:66-79 | the loop over the table, in an array of 16, computes the offset of the largest counter of every type |
| Snapshots.PlayerCountExact | vangers-srv/src/server/callback/total_players_data_query.rs:41-103 | the one-byte count in front of the list of players is the number of records |
| Snapshots.BuildTotalPlayersData | vangers-srv/src/server/callback/total_players_data_query.rs:41-106 | the two loops and the patched first byte build the counted list |
| PlayerLists.ListReadsBack | vangers-srv/src/server/callback/total_players_data_query.rs:41-106 | a client that knows the length of a body reads back every live player with a body and every removed one, field by field, and nothing else |
| PlayerLists.UndefinedReads | vangers-srv/src/server/callback/total_players_data_query.rs:58 | the name of a player without one reads [UNDEFINED] |
| Lifecycle.ClientsStep | vangers-srv/src/server/callback/mod.rs:130-178 | only attaching and restoring give a connection a player, and closing takes it away |
| Lifecycle.RestoreTakesOver | vangers-srv/src/server/callback/restore_connection.rs:37-54 | a restored connection holds the slot without a deadline; the replaced one holds nothing |
| Lifecycle.DeadlineStep | vangers-srv/src/server/server.rs:141-145 | no message gives a player a deadline: only the loss of its connection does |
| Lifecycle.ClosedIsRemembered | vangers-srv/src/game/game.rs:249-267 | a player with a name and a body that closes is remembered, as finished if it was playing |
| Lifecycle.RemovedIsKept | vangers-srv/src/game/game.rs:204-215 | a removed player is forgotten exactly when its slot is taken again |
| Replica.OwnUpdateIsStored | vangers-srv/src/vanject.rs:299-327 | an accepted update stores what its sender already knows |
| Replica.ReplayDeparture | vangers-srv/src/server/callback/leave_world.rs:193-201 | the deletions sent when a player departs keep every other player's view in agreement |
| Replica.SnapshotAgrees | vangers-srv/src/server/callback/set_world.rs:114-194 | replaying a snapshot makes the view of the world the server's, whatever the client held that is not gone |
| Replica.AgreeByCode | vangers-srv/src/server/callback/set_world.rs:223-241 | agreement means, by type codes and object by object, that what is to be seen is in the view as it is stored, and that what the view shows is stored |
| Replica.AfterOwnEntry | vangers-srv/src/server/callback/set_world.rs:48-194 | after the whole answer to SET_WORLD, replayed in order, the sender's view of the new world is the server's |
| Replica.AfterCreate | vangers-srv/src/server/callback/create_object.rs:64-198 | a creation keeps the agreement of every player in the world, exactly unless it is a vanger with a body of less than 25 bytes |
| Replica.AfterUpdate | vangers-srv/src/server/callback/update_object.rs:169-213 | after an update by anybody, the view of a player in the world is still the server's |
| Replica.AfterDelete | vangers-srv/src/server/callback/delete_object.rs:144-198 | after a deletion by anybody, of a stored object or of one that is not, the view of a player in the world is still the server's |
| Replica.AfterTransfer | vangers-srv/src/server/callback/item_transfer.rs:201-222 | after a transfer by anybody, the view of a player in the world is still the server's |
| Replica.AfterLeave | vangers-srv/src/server/callback/leave_world.rs:193-201 | after another player leaves, the view of a player in the world is still the server's |
| Replica.AfterClose | vangers-srv/src/server/callback/close_socket.rs:30-90 | after another player closes or expires, the view of a player in the world is still the server's |
| Replica.AfterEntryOfOther | vangers-srv/src/server/callback/set_world.rs:48-194 | after another player enters a world or fails to, the view of a player in the world is still the server's |
| Replica.AgreeStep | vangers-srv/src/server/callback/mod.rs:130-178 | every message keeps the agreement of a player that stays, exactly unless it is such a silent creation |
| Replica.ReplicaAgreement | vangers-srv/src/server/callback/set_world.rs:109-194 | from entering a world with an empty view on, the replayed view is the server's table of that world in every state, exactly when no creation is silent |
| Relays.CreateRelayed | vangers-srv/src/server/callback/create_object.rs:122-194 | a new object is sent to whoever hears of it (its world, or the whole game if it is global), byte for byte as its creator sent it with the slot put in; a vanger with less than 25 bytes of body to nobody |
| Relays.CreateRefused | vangers-srv/src/server/callback/create_object.rs:99-121 | a creation is refused exactly if it is of an item whose bytes name a stored item, which is reported |
| Relays.CreateAgain | vangers-srv/src/server/callback/create_object.rs:64-98 | the creation of a stored object changes nothing and tells the sender alone what is stored and, of a vanger, whose it is and where |
| Relays.VangerMakesPlayer | vangers-srv/src/server/callback/create_object.rs:149-160 | a new vanger gives its creator a position and, with at least 25 bytes, a body; nothing else changes a player |
| Relays.UpdateRelayed | vangers-srv/src/server/callback/update_object.rs:141-213 | an accepted update is sent to whoever hears of the object as its sender sent it, a refused one to nobody |
| Relays.DeleteRelayed | vangers-srv/src/server/callback/delete_object.rs:144-198 | a deletion is sent to whoever hears of the object: of an item with the linked id in its bytes, of anything else, stored or not, in the sender's words |
| Relays.TransferRelayed | vangers-srv/src/server/callback/item_transfer.rs:201-239 | an accepted transfer is sent to the others in the world: state 1 for a pickup and 2 for a drop, the old id, and the new form as its sender sent it |
| Answers.EntryAccepted | vangers-srv/src/server/callback/set_world.rs:55-122 | SET_WORLD is accepted exactly if the game's world of that id, if any, has the given size; then the sender plays in it, and otherwise it is out of every other world |
| Answers.EntryAnswer | vangers-srv/src/server/callback/set_world.rs:119-194 | the whole answer to SET_WORLD in order: playing, the world with 1 exactly if it is new, and between the marks the list of players and the objects; a refused one is not answered |
| Answers.WorldsRun | vangers-srv/src/server/callback/set_world.rs:67-86 | over any run the worlds of a game have different ids and keep their sizes |
| Answers.AttachAccepted | vangers-srv/src/server/callback/attach_to_game.rs:50-60 | ATTACH_TO_GAME is refused exactly if there are 30 players; otherwise the sender gets the least free slot and plays nowhere yet |
| Answers.AttachAnswer | vangers-srv/src/server/callback/attach_to_game.rs:82-118 | the whole answer to ATTACH_TO_GAME, to the sender alone: game, slot and counters, the time, and the global objects |
| Answers.GlobalsByBits | vangers-srv/src/server/callback/attach_to_game.rs:96-102 | these are exactly the stored objects whose raw id is global, each once |
| Answers.DeletionRefusals | vangers-srv/src/server/callback/delete_object.rs:76-142 | a deletion is refused only of another's object, or of one's own item with the marker of an old transfer |
| Answers.UpdateRefusals | vangers-srv/src/server/callback/update_object.rs:49-75 | an update of an unknown object, or with too few bytes, is refused for that reason |
| Answers.MoveRefusals | vangers-srv/src/server/callback/leave_world.rs:54-78 | leaving is refused exactly outside of all worlds, closing never, attaching for a full game, entering for a world of another size, which is reported |
| Answers.SettingsStep | vangers-srv/src/server/callback/set_game_data.rs:40-68 | a game stays configured once it is; names, bodies and positions are as their owner sets them |
| Rosters.RosterStep | vangers-srv/src/server/callback/mod.rs:130-178 | every message keeps what a player knows about the other slots right, and who starts to play becomes known |
| Rosters.StatusStep | vangers-srv/src/game/game.rs:185-200 | in every state nobody is finished and still there, and only who plays is in a world |
| Rosters.WhoPlaysWhere | vangers-srv/src/server/callback/set_world.rs:119-150 | from any state of a game on, the notices that a player is sent tell of every slot on which somebody has started to play since whether somebody plays there, and in which world |
| Examples.SilentExample | vangers-srv/src/server/callback/create_object.rs:149-157 | from a new game: two players enter a world, one small vanger body breaks the agreement of the other |
| Servers.SubmittedIsAddressed | vangers-srv/src/server/server.rs:170-302 | of several notices a connected client is submitted exactly the messages of those addressed to it, in order, and a connection that is not listed nothing |
| Servers.ReplayAddressed | vangers-srv/src/server/server.rs:170-302 | replaying those messages is replaying the notices, packet by packet |
| Servers.EventKeepsGames | vangers-srv/src/server/callback/mod.rs:130-178 | every message keeps all games in order and non-empty, with no connection in two of them |
| Servers.CreatingKeepsOrder | vangers-srv/src/server/callback/create_object.rs:38-198 | a creation, malformed or not, keeps all games in order and non-empty |
| Servers.UpdatingKeepsOrder | vangers-srv/src/server/callback/update_object.rs:41-216 | so does an update, short packets included |
| Servers.DeletingKeepsOrder | vangers-srv/src/server/callback/delete_object.rs:39-200 | so does a deletion |
| Servers.TransferringKeepsOrder | vangers-srv/src/server/callback/item_transfer.rs:70-225 | so does a transfer, malformed or not |
| Servers.MovesKeepOrder | vangers-srv/src/server/callback/close_socket.rs:30-90 | leaving, entering and closing keep all games in order and non-empty: a game without players is removed |
| Servers.AttachingKeepsOrder | vangers-srv/src/server/callback/attach_to_game.rs:32-118 | a game made for a new player is never left empty |
| Servers.RestoringKeepsOrder | vangers-srv/src/server/callback/restore_connection.rs:25-68 | restoring a connection keeps games in order, no connection in two games, and the list of connections without repetition |
| Servers.DisconnectingKeepsOrder | vangers-srv/src/server/server.rs:141-145 | a broken connection keeps games in order and the list of connections without repetition |
| Servers.ClosingRemoves | vangers-srv/src/server/callback/close_socket.rs:76-86 | closing removes the sender's player and no other, from any game |
| Runs.MessageActs | vangers-srv/src/server/callback/mod.rs:130-178 | every message but a restoring one makes one possible step of one game, or none and fails: games, list of connections, submissions and outcome are those of that step |
| Runs.RestoreActs | vangers-srv/src/server/callback/restore_connection.rs:25-68 | RESTORE_CONNECTION makes one step of the game it names, or none, and tells the sender alone whether a player held the slot |
| Runs.RestoreAnswer | vangers-srv/src/server/callback/restore_connection.rs:37-66 | five bytes are answered, once and to the sender alone, with 1 exactly if a player of the named game holds the slot, and exactly if afterwards the sender plays there on it; exactly the connection that held the slot is no longer listed |
| Runs.AttachById | vangers-srv/src/server/callback/attach_to_game.rs:36-60 | attaching with an id succeeds, and makes the connection a player there, exactly if the game is listed and has fewer than 30 players; a refusal changes nothing |
| Runs.AttachTouchesOne | vangers-srv/src/server/callback/attach_to_game.rs:36-60 | attaching with an id touches no other game |
| Runs.AttachToNew | vangers-srv/src/server/callback/attach_to_game.rs:40-60 | attaching with id 0 opens an empty game under the next id, with the sender on slot 1 |
| Runs.RefusedChangesNothing | vangers-srv/src/server/callback/mod.rs:130-178 | a refused message changes nothing and is not answered, except that SET_WORLD may have left and asking for a new game may use up an id |
| Runs.MalformedIsReported | vangers-srv/src/server/callback/update_object.rs:41-60 | packets of a wrong size and senders without a player are refused for that reason, the size first |
| Runs.OrderStep | vangers-srv/src/server/server.rs:347-390 | whatever happens (a message, a tick, a connection that comes or breaks), games stay in order and non-empty, with no connection in two of them or listed twice |
| Runs.ReachableServer | vangers-srv/src/server/server.rs:347-390 | in every state that a new server reaches this holds, and no player whose connection is listed has a deadline |
| Runs.HoldsHappening | vangers-srv/src/server/server.rs:347-390 | a player keeps game, slot and deadline, if it has one, through everything but its own close, its own disconnection, a restored connection on its slot and a tick at or after that deadline |
| Runs.BrokenExpires | vangers-srv/src/server/server.rs:141-168 | a player whose connection breaks at a time t keeps its slot through every tick before t + 60 seconds, and the first tick from then on removes it, unless it closed or was restored |
| Runs.GoneHappening | vangers-srv/src/server/callback/mod.rs:130-178 | a connection without a player gets none unless it attaches or restores |
| Runs.RestoredSurvives | vangers-srv/src/server/callback/restore_connection.rs:37-60 | whatever deadline the player had: through any later run, with every tick and the late disconnection of the replaced connection, the restored connection plays in the game on the slot, and the replaced one has no player unless it joins again |
| Sessions.StaysInGame | vangers-srv/src/server/server.rs:170-302 | what happens in a game is submitted to its players and to the sender only |
| Sessions.SentGrows | vangers-srv/src/server/server.rs:170-302 | nothing that was submitted is taken back |
| Sessions.MessageSeen | vangers-srv/src/server/callback/mod.rs:130-178 | what a connection is submitted because of a message changes its view as the step of the game does |
| Sessions.AgreeHappening | vangers-srv/src/server/server.rs:347-390 | whatever happens anywhere on the server, a player that stays is stationed as before and its view is the server's, exactly unless another player silently creates a vanger in its world |
| Sessions.ServerReplica | vangers-srv/src/server/callback/set_world.rs:109-194 | from any reached state of the server: after entering a world with an empty view, the view made of the client's own accepted commands and of what is submitted to it is the server's table of that world in every state, exactly when no creation there is silent |
| Sessions.SubmissionsTell | vangers-srv/src/server/callback/set_world.rs:109-194 | all that was submitted to a client that only watches since its SET_WORLD, replayed from nothing, is the server's table of its world |
| Sessions.EverythingIsSeen | vangers-srv/src/server/callback/set_world.rs:223-241 | at the end of any such run, by type codes, every vanger, slot, device and shell of another player in the world, and everything that lies there, is in the view as it is stored |
| Sessions.OnlyVangersAreRealtime | vangers-srv/src/server/callback/update_object.rs:219-221 | of all that the server submits, exactly the updates of vangers, by their type code, may be superseded |
| Presence.InformedStep | vangers-srv/src/server/server.rs:347-390 | whatever happens anywhere on the server, what a connected player knows of the slots of its game stays right, and who starts to play there becomes known |
| Presence.ServerTellsWhoPlays | vangers-srv/src/server/server.rs:347-390 | on any reached server, what is submitted to a connected player tells, of every slot of its game on which somebody has started to play since, whether somebody plays there now and in which world |
| MainLoop.Server.FindGame | vangers-srv/src/server/games.rs:26-30 | the walk of the games finds the one the connection plays in |
| MainLoop.Server.Notify | vangers-srv/src/server/server.rs:170-302 | sends to each connected recipient once, in the order of the connections |
| MainLoop.Server.ClientsInWorld | vangers-srv/src/server/server.rs:397-415 | the loop over the players finds the recipients in a world, without the sender |
| MainLoop.Server.NotifyAbout | vangers-srv/src/server/server.rs:170-302 | an object's packets go to its world, a global one's to the whole game |
| MainLoop.Server.CreateObject | vangers-srv/src/server/callback/create_object.rs:38-198 | the handler, updating in place and sending as it goes, ends in the state, with the submissions and the error of the model, in the code's order of checks, and keeps the server in order |
| MainLoop.Server.UpdateObject | vangers-srv/src/server/callback/update_object.rs:41-216 | the handler refines the model, short packets included; vanger updates are submitted as replaceable ones and no others |
| MainLoop.Server.Refuses | vangers-srv/src/server/callback/update_object.rs:78-136 | by cases, in both directions: world empty exactly if the object is not global and the player in no world; wrong world exactly if it is in another one; not owner exactly if it is in this one and the object is not static and another's; nothing else |
| MainLoop.Server.DeleteObject | vangers-srv/src/server/callback/delete_object.rs:39-200 | the handler refines the model: owner, then legacy marker, then removal, with the packet of the object's kind |
| MainLoop.Server.ItemTransfer | vangers-srv/src/server/callback/item_transfer.rs:70-225 | the handler refines the model; errors of the packet precede a missing player |
| MainLoop.Server.RefusesTransfer | vangers-srv/src/server/callback/item_transfer.rs:85-193 | by cases, in both directions: each of the six refusals is given exactly under its condition and that of none before it, with the id and the worlds it reports |
| MainLoop.Server.LeaveWorld | vangers-srv/src/server/callback/leave_world.rs:54-206 | the handler refines the model for the order in which it walked the deletions |
| MainLoop.Server.CollectDeletions | vangers-srv/src/server/callback/leave_world.rs:79-120 | the loop over the table finds exactly the objects that go, with the deletion to send for each |
| MainLoop.Server.Retain | vangers-srv/src/server/callback/leave_world.rs:193 | the retaining loop keeps every other object as it was |
| MainLoop.Server.SetWorld | vangers-srv/src/server/callback/set_world.rs:40-211 | the handler refines the model: it leaves another world first, also when the sizes then disagree, and sends the snapshot for the order in which it walked the table |
| MainLoop.Server.CloseSocket | vangers-srv/src/server/callback/close_socket.rs:32-90 | the handler refines the model: it ignores that a player is in no world, and removes a game that it empties |
| MainLoop.Server.AttachToGame | vangers-srv/src/server/callback/attach_to_game.rs:32-118 | the handler refines the model: id 0 asks for a new game, an unknown id, a full game and a malformed packet are refused |
| MainLoop.Server.RestoreConnection | vangers-srv/src/server/callback/restore_connection.rs:25-68 | the handler refines the model: the slot changes hands, the replaced connection is forgotten, and the answer says whether it worked |
| MainLoop.Server.Disconnected | vangers-srv/src/server/server.rs:366-371 | a broken connection gives its player, if any, a deadline and is forgotten |
| MainLoop.Server.Connected | vangers-srv/src/server/server.rs:353-355 | a new connection is listed |
| MainLoop.Server.CollectDue | vangers-srv/src/server/server.rs:147-158 | lists exactly the connections of players whose deadline has come |
| MainLoop.Server.ExpireDisconnectedPlayers | vangers-srv/src/server/server.rs:147-168 | a tick closes the connections of the due players one after the other; after it exactly the players whose deadline had come are gone, from every game, and no game is empty |

## Left out

- Sockets, the tokio runtime, TCP shutdown, the handshake in `auth`, command line, logging and tracing: foreign runtime or no state that matters. Notify permits are modelled as wake-ups that may come at any time.
- REGISTER_NAME, SET_PLAYER_DATA, SET_POSITION and SET_GAME_DATA appear as steps (`Profile`, `Configure`) that may change name, body, position and the configured flag of the sender in any way; their packets, passwords and the CP866 texts are not modelled.
- DIRECT_SENDING, GAMES_LIST_QUERY, GET_GAME_DATA, SERVER_TIME_QUERY and TOP_LIST_QUERY: they change nothing modelled here; the last one sorts floating-point ratings.
- The layout of `Body` and of game configurations: a body is its bytes, kept if there are at least 25.
- `PlayerNotBind` errors: `attach_player` always sets the slot and `bind_reset` is never called, so a player without a slot does not occur.
- The `BorrowWorld` error: it needs a world that is borrowed across a handler, which the single-threaded server never does.
- Panics on short packets, oversized packets and out-of-range types are `requires` clauses or `Possible`, not outcomes.
- The game client itself is not part of this model; a replica follows only the replay rules in `Replica.Replay` and `Replica.Apply`. A `previous_id` of 0 in ITEM_STATE stands for none.
- Replicas are about packets as submitted. A realtime update may overtake a reliable packet submitted before it in the writer, so what is on the wire may differ for a while.
- Wall clock times are integers in seconds; `Instant` arithmetic does not overflow.
- Framer.Framer.OnStream: is about streams whose size fields are at most 32765; larger ones make the computed size negative.
- Connections.Client.WriterLoop: runs the writer only after the senders are gone and with writes that succeed, because with senders it ends only when they let it; `WriterTurn` and `WriterWait` are its turns in every case.
- Snapshots.FreshIds: `FirstFree` reads an offset of 0 as counter 1, which is what a client does; the client is not part of this model.
- `MainLoop.Server` keeps its connections as ids and logs what it submits; the connection objects with their queues are `Connections.Client`.
