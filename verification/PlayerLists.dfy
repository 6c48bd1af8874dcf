/** The list of players, as a client reads it that knows how long a body is in its kind of game. */
module PlayerLists {
  import opened Wrappers
  import opened Bytes
  import opened Games
  import opened Handlers
  import opened Steps
  import opened Snapshots

  datatype Listed = Listed(
    bind: byte, status: byte, world: byte, x: u16, y: u16, name: seq<byte>, body: seq<byte>)

  // ---- how a client reads the list ----

  /** A C string behind which there may be more. */
  function NameOf(s: seq<byte>): Option<seq<byte>> {
    if s == [] then None
    else if s[0] == 0 then Some([s[0]])
    else
      match NameOf(s[1..])
      case None => None
      case Some(rest) => Some([s[0]] + rest)
  }

  /** Slot, status, world, two coordinates, a C string, and a body of `n` bytes. */
  function ReadRecord(s: seq<byte>, n: nat): (r: Option<Listed>)
    ensures r.Some? ==> 7 + |r.value.name| + n <= |s| && |r.value.body| == n
  {
    if |s| < 7 then None
    else
      match NameOf(s[7..])
      case None => None
      case Some(name) =>
        var at := 7 + |name|;
        if |s| < at + n then None
        else Some(Listed(s[0], s[1], s[2], FromLe16(s[3..]), FromLe16(s[5..]), name, s[at..at + n]))
  }

  function ReadRecords(s: seq<byte>, count: nat, n: nat): Option<seq<Listed>> {
    if count == 0 then (if s == [] then Some([]) else None)
    else
      match ReadRecord(s, n)
      case None => None
      case Some(first) =>
        match ReadRecords(s[7 + |first.name| + n..], count - 1, n)
        case None => None
        case Some(rest) => Some([first] + rest)
  }

  function ReadList(data: seq<byte>, n: nat): Option<seq<Listed>> {
    if data == [] then None else ReadRecords(data[1..], data[0] as int, n)
  }

  // ---- what is listed ----

  function StatusByte(s: Status): byte {
    if s == INITIAL then 0 else if s == GAMING then 1 else 2
  }

  /** A player that has a body; one without a name is listed as `[UNDEFINED]`. */
  function ListedPlayer(p: Player): Listed
    requires p.body.Some?
  {
    Listed(p.bind, StatusByte(p.status), if p.world.Some? then p.world.value else 0, p.x, p.y,
           if p.name.Some? then p.name.value else UNDEFINED, p.body.value)
  }

  function ListedRemoved(r: RemovedPlayer): Listed {
    Listed(r.bind, StatusByte(r.status), r.world, r.x, r.y, r.name, r.body)
  }

  function AllListed(players: seq<Player>): seq<Listed> {
    if players == [] then []
    else (if players[0].body.Some? then [ListedPlayer(players[0])] else []) + AllListed(players[1..])
  }

  function AllRemoved(removed: seq<RemovedPlayer>): seq<Listed> {
    if removed == [] then [] else [ListedRemoved(removed[0])] + AllRemoved(removed[1..])
  }

  /** The name that stands for none reads `[UNDEFINED]`. */
  lemma UndefinedReads()
    ensures var text := "[UNDEFINED]";
            |UNDEFINED| == |text| + 1 && UNDEFINED[|text|] == 0
            && forall i :: 0 <= i < |text| ==> UNDEFINED[i] == text[i] as int
  {
  }

  // ---- the list reads back ----

  /** A C string with its end. */
  predicate IsName(s: seq<byte>) {
    s != [] && s[|s| - 1] == 0 && forall i :: 0 <= i < |s| - 1 ==> s[i] != 0
  }

  lemma {:induction false} NameReads(name: seq<byte>, rest: seq<byte>)
    requires IsName(name)
    ensures NameOf(name + rest) == Some(name)
  {
    if |name| == 1 {
      assert (name + rest)[0] == 0 && name == [name[0]];
    } else {
      NameReads(name[1..], rest);
      assert (name + rest)[1..] == name[1..] + rest;
      assert name == [name[0]] + name[1..];
    }
  }

  /** The bytes of a record. */
  function BytesOf(l: Listed): seq<byte> {
    [l.bind, l.status, l.world] + ToLe16(l.x) + ToLe16(l.y) + l.name + l.body
  }

  lemma RecordReads(l: Listed, rest: seq<byte>)
    requires IsName(l.name)
    ensures ReadRecord(BytesOf(l) + rest, |l.body|) == Some(l)
    ensures (BytesOf(l) + rest)[7 + |l.name| + |l.body|..] == rest
  {
    var s := BytesOf(l) + rest;
    assert s[7..] == l.name + (l.body + rest);
    NameReads(l.name, l.body + rest);
    assert s[3] == l.x % 0x100 && s[4] == l.x / 0x100 && s[5] == l.y % 0x100 && s[6] == l.y / 0x100;
    assert s[7 + |l.name|..7 + |l.name| + |l.body|] == l.body;
  }

  function Joined(ls: seq<Listed>): seq<byte> {
    if ls == [] then [] else BytesOf(ls[0]) + Joined(ls[1..])
  }

  ghost predicate Readable(ls: seq<Listed>, n: nat) {
    forall i :: 0 <= i < |ls| ==> IsName(ls[i].name) && |ls[i].body| == n
  }

  lemma {:induction false} RecordsRead(ls: seq<Listed>, n: nat)
    requires Readable(ls, n)
    ensures ReadRecords(Joined(ls), |ls|, n) == Some(ls)
  {
    if ls != [] {
      RecordReads(ls[0], Joined(ls[1..]));
      RecordsRead(ls[1..], n);
      assert ls == [ls[0]] + ls[1..];
    }
  }

  lemma {:induction false} JoinedAppend(ls: seq<Listed>, ms: seq<Listed>)
    ensures Joined(ls + ms) == Joined(ls) + Joined(ms)
  {
    if ls == [] {
      assert ls + ms == ms;
    } else {
      JoinedAppend(ls[1..], ms);
      JoinedStep(ls, ms, BytesOf(ls[0]), Joined(ls[1..]), Joined(ms));
    }
  }

  lemma JoinedStep(ls: seq<Listed>, ms: seq<Listed>, first: seq<byte>, rest: seq<byte>, more: seq<byte>)
    requires ls != [] && first == BytesOf(ls[0]) && Joined(ls[1..] + ms) == rest + more
    ensures Joined(ls + ms) == first + rest + more
  {
    assert (ls + ms)[0] == ls[0] && (ls + ms)[1..] == ls[1..] + ms;
    assert first + (rest + more) == first + rest + more;
  }

  lemma FlattenSnoc(parts: seq<seq<byte>>, part: seq<byte>)
    ensures Flatten(parts + [part]) == Flatten(parts) + part
  {
    assert (parts + [part])[..|parts|] == parts;
  }

  lemma {:induction false} FlattenAppend(a: seq<seq<byte>>, b: seq<seq<byte>>)
    ensures Flatten(a + b) == Flatten(a) + Flatten(b)
    decreases b
  {
    if b == [] {
      assert a + b == a;
    } else {
      var k := |b| - 1;
      FlattenAppend(a, b[..k]);
      assert a + b == (a + b[..k]) + [b[k]];
      FlattenSnoc(a + b[..k], b[k]);
    }
  }

  lemma {:induction false} AllListedAppend(players: seq<Player>, p: Player)
    ensures AllListed(players + [p]) == AllListed(players) + if p.body.Some? then [ListedPlayer(p)] else []
  {
    if players == [] {
      assert [p][1..] == [];
    } else {
      AllListedAppend(players[1..], p);
      assert (players + [p])[1..] == players[1..] + [p];
    }
  }

  lemma {:induction false} AllRemovedAppend(removed: seq<RemovedPlayer>, r: RemovedPlayer)
    ensures AllRemoved(removed + [r]) == AllRemoved(removed) + [ListedRemoved(r)]
  {
    if removed == [] {
      assert [r][1..] == [];
    } else {
      AllRemovedAppend(removed[1..], r);
      assert (removed + [r])[1..] == removed[1..] + [r];
    }
  }

  lemma RecordBytes(p: Player)
    requires p.body.Some?
    ensures PlayerRecord(p) == BytesOf(ListedPlayer(p))
  {
  }

  lemma JoinedOne(l: Listed)
    ensures Joined([l]) == BytesOf(l)
  {
    assert Joined([l]) == BytesOf(l) + Joined([l][1..]);
  }

  lemma {:induction false} LiveRecords(players: seq<Player>)
    ensures Flatten(PlayerRecords(players)) == Joined(AllListed(players))
    ensures |PlayerRecords(players)| == |AllListed(players)|
    decreases players
  {
    if players != [] {
      var k := |players| - 1;
      LiveRecords(players[..k]);
      AllListedAppend(players[..k], players[k]);
      assert players[..k] + [players[k]] == players;
      if players[k].body.Some? {
        FlattenSnoc(PlayerRecords(players[..k]), PlayerRecord(players[k]));
        RecordBytes(players[k]);
        JoinedOne(ListedPlayer(players[k]));
        JoinedAppend(AllListed(players[..k]), [ListedPlayer(players[k])]);
      } else {
        assert PlayerRecords(players) == PlayerRecords(players[..k]);
        assert AllListed(players) == AllListed(players[..k]);
      }
    }
  }

  lemma {:induction false} GoneRecords(removed: seq<RemovedPlayer>)
    ensures Flatten(RemovedRecords(removed)) == Joined(AllRemoved(removed))
    ensures |RemovedRecords(removed)| == |AllRemoved(removed)|
    decreases removed
  {
    if removed != [] {
      var k := |removed| - 1;
      GoneRecords(removed[..k]);
      AllRemovedAppend(removed[..k], removed[k]);
      assert removed[..k] + [removed[k]] == removed;
      FlattenSnoc(RemovedRecords(removed[..k]), RemovedRecord(removed[k]));
      assert RemovedRecord(removed[k]) == BytesOf(ListedRemoved(removed[k]));
      JoinedOne(ListedRemoved(removed[k]));
      JoinedAppend(AllRemoved(removed[..k]), [ListedRemoved(removed[k])]);
    }
  }

  /** Names are C strings, as REGISTER_NAME takes them, and all bodies are of one length. */
  ghost predicate Uniform(g: Game, n: nat) {
    && (forall i :: 0 <= i < |g.players| ==>
          && (g.players[i].name.Some? ==> IsName(g.players[i].name.value))
          && (g.players[i].body.Some? ==> |g.players[i].body.value| == n))
    && (forall i :: 0 <= i < |g.removed| ==> IsName(g.removed[i].name) && |g.removed[i].body| == n)
  }

  lemma {:induction false} LiveReadable(players: seq<Player>, n: nat)
    requires forall i :: 0 <= i < |players| ==>
               && (players[i].name.Some? ==> IsName(players[i].name.value))
               && (players[i].body.Some? ==> |players[i].body.value| == n)
    ensures Readable(AllListed(players), n)
  {
    if players != [] {
      LiveReadable(players[1..], n);
      assert IsName(UNDEFINED);
    }
  }

  lemma {:induction false} GoneReadable(removed: seq<RemovedPlayer>, n: nat)
    requires forall i :: 0 <= i < |removed| ==> IsName(removed[i].name) && |removed[i].body| == n
    ensures Readable(AllRemoved(removed), n)
  {
    if removed != [] {
      GoneReadable(removed[1..], n);
    }
  }

  lemma ListBytes(g: Game)
    requires GameOk(g)
    ensures var ls, data := AllListed(g.players) + AllRemoved(g.removed), TotalPlayersData(g);
            data[0] as int == |ls| && data[1..] == Joined(ls)
  {
    LiveRecords(g.players);
    GoneRecords(g.removed);
    FlattenAppend(PlayerRecords(g.players), RemovedRecords(g.removed));
    JoinedAppend(AllListed(g.players), AllRemoved(g.removed));
    PlayerCountExact(g);
  }

  /** A client reads the list back: every live player with a body and then every removed one, field by
      field, and nothing else. */
  lemma ListReadsBack(g: Game, n: nat)
    requires GameOk(g) && Uniform(g, n)
    ensures ReadList(TotalPlayersData(g), n) == Some(AllListed(g.players) + AllRemoved(g.removed))
  {
    ListBytes(g);
    LiveReadable(g.players, n);
    GoneReadable(g.removed, n);
    RecordsRead(AllListed(g.players) + AllRemoved(g.removed), n);
  }
}
