/** Games, played from their creation on, in which something goes wrong. */
module Examples {
  import opened Wrappers
  import opened Seqs
  import opened Vanjects
  import opened Games
  import opened Handlers
  import opened Steps
  import opened Inventory
  import opened Replica

  /** Connections 7 and 8 have attached, on slots 1 and 2. */
  function TwoPlayers(): Game {
    NewGame(1).(players := [NewPlayer(7, 1), NewPlayer(8, 2)])
  }

  lemma RunFromTwo(g: Game, e: Event, f: Event, es: seq<Event>)
    requires Possible(g, e) && Possible(After(g, e), f) && IsRun(After(After(g, e), f), es)
    ensures IsRun(g, [e, f] + es) && Run(g, [e, f] + es) == Run(After(After(g, e), f), es)
  {
    RunFrom(After(g, e), f, es);
    RunFrom(g, e, [f] + es);
    assert [e, f] + es == [e] + ([f] + es);
  }

  lemma FirstAttaches()
    ensures Possible(NewGame(1), AttachTo(7, 0, 0, []))
    ensures After(NewGame(1), AttachTo(7, 0, 0, [])) == NewGame(1).(players := [NewPlayer(7, 1)])
  {
    assert !Used([], 1);
  }

  lemma SecondAttaches()
    ensures var g := NewGame(1).(players := [NewPlayer(7, 1)]);
            Possible(g, AttachTo(8, 0, 0, [])) && After(g, AttachTo(8, 0, 0, [])) == TwoPlayers()
  {
    var g := NewGame(1).(players := [NewPlayer(7, 1)]);
    assert g.players[0].bind == 1 && Used(g.players, 1) && !Used(g.players, 2);
    assert g.players + [NewPlayer(8, 2)] == TwoPlayers().players;
  }

  /** Both attach, and then `es` happens. */
  lemma AfterBothAttach(es: seq<Event>)
    requires IsRun(TwoPlayers(), es)
    ensures var all := [AttachTo(7, 0, 0, []), AttachTo(8, 0, 0, [])] + es;
            IsRun(NewGame(1), all) && Run(NewGame(1), all) == Run(TwoPlayers(), es)
  {
    FirstAttaches();
    SecondAttaches();
    RunFromTwo(NewGame(1), AttachTo(7, 0, 0, []), AttachTo(8, 0, 0, []), es);
  }

  // ---- an orphaned device ----

  const DEVICE_OF_SEVEN := Vanject(Id(false, 1, 1, DEVICE, 1), 0, 0, 0, 0, 0, [])

  /** 8 enters world 1, 7 creates a device without entering any world, and closes. */
  function EightAlone(): Game {
    NewGame(1).(players := [Placed(NewPlayer(8, 2), 1)], worlds := [World(1, 500)],
                vanjects := map[DEVICE_OF_SEVEN.id := DEVICE_OF_SEVEN.(owner := 1)])
  }

  function EightInWorld(): Game {
    NewGame(1).(players := [NewPlayer(7, 1), Placed(NewPlayer(8, 2), 1)], worlds := [World(1, 500)])
  }

  lemma EightEnters()
    ensures Possible(TwoPlayers(), EnterWorld(8, 1, 500, [], []))
    ensures After(TwoPlayers(), EnterWorld(8, 1, 500, [], [])) == EightInWorld()
  {
    var g := TwoPlayers();
    assert g.players[1] == NewPlayer(8, 2) && g.players[0] == NewPlayer(7, 1);
    PlayerAt(g, 8, 1);
    assert !Switches(g, 8, 1);
    assert IndexOf(g.players, 8) == Some(1);
    assert g.players[1 := Placed(NewPlayer(8, 2), 1)] == EightInWorld().players;
  }

  lemma SevenCreates()
    ensures Possible(EightInWorld(), Create(7, DEVICE_OF_SEVEN))
    ensures After(EightInWorld(), Create(7, DEVICE_OF_SEVEN))
            == EightInWorld().(vanjects := map[DEVICE_OF_SEVEN.id := DEVICE_OF_SEVEN.(owner := 1)])
  {
    PlayerAt(EightInWorld(), 7, 0);
  }

  lemma SevenCloses()
    ensures var g := EightInWorld().(vanjects := map[DEVICE_OF_SEVEN.id := DEVICE_OF_SEVEN.(owner := 1)]);
            Possible(g, Close(7, [])) && After(g, Close(7, [])) == EightAlone()
  {
    var g := EightInWorld().(vanjects := map[DEVICE_OF_SEVEN.id := DEVICE_OF_SEVEN.(owner := 1)]);
    PlayerAt(g, 7, 0);
    CloseParts(g, 7, []);
    FilterOne(g.players, (o: Player) => o.client != 7, 0);
    assert g.players[..0] + g.players[1..] == EightAlone().players;
  }

  lemma NineAttaches()
    ensures var e := AttachTo(9, 0, 0, [DEVICE_OF_SEVEN.id]);
            && Possible(EightAlone(), e)
            && After(EightAlone(), e) == EightAlone().(players := EightAlone().players + [NewPlayer(9, 1)])
  {
    var g := EightAlone();
    assert g.players[0].bind == 2 && !Used(g.players, 1);
  }

  lemma OrphanRunGoesOn()
    ensures var g := EightInWorld().(vanjects := map[DEVICE_OF_SEVEN.id := DEVICE_OF_SEVEN.(owner := 1)]);
            var es := [Close(7, []), AttachTo(9, 0, 0, [DEVICE_OF_SEVEN.id])];
            IsRun(g, es) && Run(g, es) == EightAlone().(players := EightAlone().players + [NewPlayer(9, 1)])
  {
    SevenCloses();
    NineAttaches();
    RunOfTwo(EightInWorld().(vanjects := map[DEVICE_OF_SEVEN.id := DEVICE_OF_SEVEN.(owner := 1)]),
             Close(7, []), AttachTo(9, 0, 0, [DEVICE_OF_SEVEN.id]));
  }

  /** The code does not ask that a creator is in a world. A player that has just attached creates a
      device and closes; the next connection gets its slot, and owns a device that it never created. */
  lemma OrphanExample()
    ensures var es := [AttachTo(7, 0, 0, []), AttachTo(8, 0, 0, [])]
                      + ([EnterWorld(8, 1, 500, [], []), Create(7, DEVICE_OF_SEVEN)]
                         + [Close(7, []), AttachTo(9, 0, 0, [DEVICE_OF_SEVEN.id])]);
            && IsRun(NewGame(1), es)
            && var g := Run(NewGame(1), es);
               && HasClient(g, 8) && HasClient(g, 9) && !HasClient(g, 7) && !NoOrphans(g)
               && DEVICE_OF_SEVEN.id in g.vanjects
               && g.vanjects[DEVICE_OF_SEVEN.id].owner == PlayerOf(g, 9).bind
  {
    EightEnters();
    SevenCreates();
    OrphanRunGoesOn();
    var es := [EnterWorld(8, 1, 500, [], []), Create(7, DEVICE_OF_SEVEN)];
    var more := [Close(7, []), AttachTo(9, 0, 0, [DEVICE_OF_SEVEN.id])];
    RunFromTwo(TwoPlayers(), es[0], es[1], more);
    AfterBothAttach(es + more);
    OrphanOfNine(Run(TwoPlayers(), es + more));
  }

  lemma OrphanOfNine(g: Game)
    requires g == EightAlone().(players := EightAlone().players + [NewPlayer(9, 1)])
    ensures HasClient(g, 8) && HasClient(g, 9) && !HasClient(g, 7) && !NoOrphans(g)
    ensures DEVICE_OF_SEVEN.id in g.vanjects && g.vanjects[DEVICE_OF_SEVEN.id].owner == PlayerOf(g, 9).bind
  {
    assert g.players[0] == Placed(NewPlayer(8, 2), 1) && g.players[1] == NewPlayer(9, 1);
    PlayerAt(g, 8, 0);
    PlayerAt(g, 9, 1);
    assert !Seated(g.players, 1);
    assert g.vanjects[DEVICE_OF_SEVEN.id].owner == 1 && IsInventory(DEVICE_OF_SEVEN.id);
  }

  // ---- a silent creation ----

  const SMALL_VANGER := Vanject(Id(false, 1, 1, VANGER, 1), 0, 0, 0, 0, 0, [])

  function BothInWorld(): Game {
    NewGame(1).(players := [Placed(NewPlayer(7, 1), 1), Placed(NewPlayer(8, 2), 1)], worlds := [World(1, 500)])
  }

  lemma SevenEnters()
    ensures Possible(EightInWorld(), EnterWorld(7, 1, 500, [], []))
    ensures After(EightInWorld(), EnterWorld(7, 1, 500, [], [])) == BothInWorld()
  {
    var g := EightInWorld();
    PlayerAt(g, 7, 0);
    assert !Switches(g, 7, 1);
    assert g.players[0 := Placed(NewPlayer(7, 1), 1)] == BothInWorld().players;
  }

  /** What 8 knows before 7 creates its vanger. */
  ghost function EightKnows(): View {
    EightEnters();
    SevenEnters();
    var alone := Seen(map[], TwoPlayers(), EnterWorld(8, 1, 500, [], []), 8, 2);
    Seen(alone, EightInWorld(), EnterWorld(7, 1, 500, [], []), 8, 2)
  }

  lemma EightFollowsAlone(view: View)
    requires Possible(TwoPlayers(), EnterWorld(8, 1, 500, [], []))
    requires view == Seen(map[], TwoPlayers(), EnterWorld(8, 1, 500, [], []), 8, 2)
    ensures Follows(view, EightInWorld(), 8, 1, 2)
  {
    EightEnters();
    EightIsPresent();
    PlayerAt(TwoPlayers(), 8, 1);
    SizesAgree(TwoPlayers(), EnterWorld(8, 1, 500, [], []));
    AfterOwnEntry(map[], TwoPlayers(), EnterWorld(8, 1, 500, [], []), 8, 2);
  }

  lemma EightIsPresent()
    ensures GameOk(TwoPlayers()) && GameOk(EightInWorld()) && Present(EightInWorld(), 8, 1, 2)
  {
    PlayerAt(EightInWorld(), 8, 1);
  }

  lemma SizesAgree(g: Game, e: Event)
    requires e.EnterWorld? && Possible(g, e) && WorldOf(AfterSwitch(g, e.client, e.world).worlds, e.world).None?
    ensures Step(g, e).outcome.Done?
  {
  }

  lemma EightStillFollows(view: View)
    requires Follows(view, EightInWorld(), 8, 1, 2)
    requires Possible(EightInWorld(), EnterWorld(7, 1, 500, [], []))
    ensures Follows(Seen(view, EightInWorld(), EnterWorld(7, 1, 500, [], []), 8, 2), BothInWorld(), 8, 1, 2)
  {
    var g, e := EightInWorld(), EnterWorld(7, 1, 500, [], []);
    SevenEnters();
    AfterEntryOfOther(view, g, e, 8, 1, 2);
    GameOkStep(g, e);
    PresentStep(g, e, 8, 1, 2);
  }

  lemma EightFollows()
    ensures Follows(EightKnows(), BothInWorld(), 8, 1, 2)
  {
    EightEnters();
    SevenEnters();
    EightFollowsAlone(Seen(map[], TwoPlayers(), EnterWorld(8, 1, 500, [], []), 8, 2));
    EightStillFollows(Seen(map[], TwoPlayers(), EnterWorld(8, 1, 500, [], []), 8, 2));
  }

  lemma SevenCreatesSilently(view: View)
    requires Follows(view, BothInWorld(), 8, 1, 2)
    ensures var e := Create(7, SMALL_VANGER);
            && Possible(BothInWorld(), e) && Undisturbed(e, 8, 1, 2)
            && !Agree(Seen(view, BothInWorld(), e, 8, 2), After(BothInWorld(), e).vanjects, 1, 2)
  {
    PlayerAt(BothInWorld(), 7, 0);
    AfterCreate(view, BothInWorld(), Create(7, SMALL_VANGER), 8, 1, 2);
  }

  /** Two players attach and enter a world; one small vanger body breaks the agreement of the other. */
  lemma SilentExample()
    ensures var e := Create(7, SMALL_VANGER);
            var es := [AttachTo(7, 0, 0, []), AttachTo(8, 0, 0, [])]
                      + [EnterWorld(8, 1, 500, [], []), EnterWorld(7, 1, 500, [], [])];
            && IsRun(NewGame(1), es) && Run(NewGame(1), es) == BothInWorld()
            && Follows(EightKnows(), BothInWorld(), 8, 1, 2)
            && Possible(BothInWorld(), e) && Undisturbed(e, 8, 1, 2)
            && !Agree(Seen(EightKnows(), BothInWorld(), e, 8, 2), After(BothInWorld(), e).vanjects, 1, 2)
  {
    EightEnters();
    SevenEnters();
    RunOfTwo(TwoPlayers(), EnterWorld(8, 1, 500, [], []), EnterWorld(7, 1, 500, [], []));
    AfterBothAttach([EnterWorld(8, 1, 500, [], []), EnterWorld(7, 1, 500, [], [])]);
    EightFollows();
    SevenCreatesSilently(EightKnows());
  }
}
