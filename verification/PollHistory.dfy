/** The poll cycles of a dashboard pod, one after the other, finished or cut short:
    what every history of cycles keeps. */
module PollHistory {
  import opened Ordering
  import opened PollCycle
  import opened PollKeys
  import opened PollOutcome
  import opened PollPool
  import opened PollRefresh
  import opened PollerState
  import opened Store

  /** What outlives a cycle. */
  datatype Kept = Kept(labels: set<string>, exported: set<Series>, cards: Cards, memory: Memory)

  /** A cycle stops at one of its first two lookups, or runs in some interleaving of its
      tasks until it has finished. */
  datatype Turn = Stopped | Ran(input: Input, events: seq<Event>)

  function Pool0(x: Input, kept: Kept): Pool {
    First(Main(x), kept.labels, kept.exported, kept.cards, kept.memory)
  }

  ghost predicate Possible(interval: int, kept: Kept, turn: Turn) {
    turn.Ran? ==>
      && Runs(interval, Pool0(turn.input, kept), turn.events)
      && End(interval, Pool0(turn.input, kept), turn.events).phase.Finished?
  }

  ghost function AfterTurn(interval: int, kept: Kept, turn: Turn): Kept
    requires Possible(interval, kept, turn)
  {
    match turn
    case Stopped => kept
    case Ran(x, events) =>
      var s := End(interval, Pool0(x, kept), events);
      Kept(s.labels, s.data.exported, s.data.cards, s.data.memory)
  }

  ghost predicate History(interval: int, turns: seq<Turn>)
    decreases |turns|, 0
  {
    turns != [] ==>
      var n := |turns| - 1;
      History(interval, turns[..n]) && Possible(interval, KeptAfter(interval, turns[..n]), turns[n])
  }

  /** From a new pod on. */
  ghost function KeptAfter(interval: int, turns: seq<Turn>): Kept
    requires History(interval, turns)
    decreases |turns|, 1
  {
    if turns == [] then Kept({}, {}, map[], Memory(map[], {}))
    else AfterTurn(interval, KeptAfter(interval, turns[..|turns| - 1]), turns[|turns| - 1])
  }

  lemma PoolBegins(x: Input, kept: Kept)
    requires Boundary(kept.cards, kept.memory)
    ensures Begins(Pool0(x, kept))
  {
    MainIsSound(x);
  }

  /** Between cycles, finished or stopped, every widget with a remembered poll time has
      a stored card; so the next cycle starts well. */
  lemma {:induction false} EveryBoundary(interval: int, turns: seq<Turn>)
    requires History(interval, turns)
    ensures Boundary(KeptAfter(interval, turns).cards, KeptAfter(interval, turns).memory)
  {
    if turns != [] {
      var n := |turns| - 1;
      var kept := KeptAfter(interval, turns[..n]);
      EveryBoundary(interval, turns[..n]);
      if turns[n].Ran? {
        PoolBegins(turns[n].input, kept);
        CardsAreTheKeptOnes(interval, Pool0(turns[n].input, kept), turns[n].events);
      }
    }
  }

  /** After a finished cycle the store holds a card for exactly the keys that should be
      shown, whatever was stored before and in whatever order the tasks ran. */
  lemma StoreShowsWhatItShould(interval: int, turns: seq<Turn>, turn: Turn, k: string)
    requires History(interval, turns) && Possible(interval, KeptAfter(interval, turns), turn) && turn.Ran?
    ensures k in AfterTurn(interval, KeptAfter(interval, turns), turn).cards <==> ShouldShow(turn.input, k)
  {
    var kept := KeptAfter(interval, turns);
    EveryBoundary(interval, turns);
    PoolBegins(turn.input, kept);
    CardsAreTheKeptOnes(interval, Pool0(turn.input, kept), turn.events);
    MainMarks(turn.input, k, ("", ""));
  }

  /** The keys a cycle asked about and turned down as not due. */
  ghost function Skipped(interval: int, kept: Kept, turn: Turn): set<string>
    requires Possible(interval, kept, turn) && turn.Ran?
  {
    End(interval, Pool0(turn.input, kept), turn.events).data.skipped
  }

  lemma CycleFinishes(interval: int, kept: Kept, turn: Turn)
    requires Possible(interval, kept, turn) && turn.Ran? && Boundary(kept.cards, kept.memory)
    ensures Finishes(interval, Pool0(turn.input, kept), turn.events)
  {
    PoolBegins(turn.input, kept);
  }

  /** After a finished cycle every card, but for those of keys that were turned down, is what
      the objects found in it call for, and nothing of an earlier cycle. */
  lemma CardsAreExpected(interval: int, turns: seq<Turn>, turn: Turn, k: string)
    requires History(interval, turns) && Possible(interval, KeptAfter(interval, turns), turn) && turn.Ran?
    ensures
      var kept := KeptAfter(interval, turns);
      var after := AfterTurn(interval, kept, turn).cards;
      k in after && k !in Skipped(interval, kept, turn) ==> Expected(turn.input, k, after[k])
  {
    var kept := KeptAfter(interval, turns);
    EveryBoundary(interval, turns);
    CycleFinishes(interval, kept, turn);
    hide Main, Left, Runs, End, Expected, Built, Finishes;
    CardsAreBuilt(interval, Pool0(turn.input, kept), turn.events, k);
    if k in AfterTurn(interval, kept, turn).cards && k !in Skipped(interval, kept, turn) {
      BuiltIsExpected(turn.input, k, AfterTurn(interval, kept, turn).cards[k]);
    }
  }

  /** A widget or header widget in every history: it is turned down if and only if it has a
      poll interval of its own, was polled before, and at the moment it is asked about not
      both that and the poller's interval have gone by; otherwise the cycle leaves exactly
      what its own poll came to, and with an interval of its own the time of it. */
  lemma {:induction false} PolledShowsItsOwn(interval: int, turns: seq<Turn>, turn: Turn, o: Origin,
                                             override: Option<int>, polled: Card)
    returns (since: int, now: int)
    requires History(interval, turns) && Possible(interval, KeptAfter(interval, turns), turn) && turn.Ran?
    requires WellNamed(turn.input) && IsPolled(turn.input, o, override, polled) && Clear(turn.input, o)
    ensures Reads(turn.events, since, now)
    ensures
      var kept, k := KeptAfter(interval, turns), Key(turn.input.home, o);
      var after, last := AfterTurn(interval, kept, turn), kept.memory.lastPolled;
      && k in after.cards
      && (k in Skipped(interval, kept, turn) <==>
            && override.Some? && override.value > 0 && k in last
            && (since - last[k] < override.value * 1_000_000_000 || since - last[k] < interval))
      && (k !in Skipped(interval, kept, turn) ==>
            && after.cards[k] == polled.(key := k)
            && (override.Some? && override.value > 0 ==>
                  k in after.memory.lastPolled && after.memory.lastPolled[k] == now))
  {
    var kept, x, k := KeptAfter(interval, turns), turn.input, Key(turn.input.home, o);
    EveryBoundary(interval, turns);
    CycleFinishes(interval, kept, turn);
    CardsAreExpected(interval, turns, turn, k);
    var due := PolledIsAsked(x, o, override, polled);
    hide Main, Left, Runs, End, Expected, Finishes, Key, OneDue, WellNamed, IsPolled, Clear, Reads;
    since, now := AskedKeyIsDecided(interval, Pool0(x, kept), turn.events, k, due);
    if k !in Skipped(interval, kept, turn) {
      ExpectedIsOwn(x, o, override, polled, AfterTurn(interval, kept, turn).cards[k]);
    }
  }

  lemma SkippedIsAsked(interval: int, kept: Kept, turn: Turn, k: string) returns (due: Action)
    requires Possible(interval, kept, turn) && turn.Ran? && Boundary(kept.cards, kept.memory) && WellNamed(turn.input)
    requires k in Skipped(interval, kept, turn)
    ensures due in Left(Main(turn.input)) && IsDueOf(due, k)
  {
    PoolBegins(turn.input, kept);
    EveryKeyHasOneDue(turn.input, k);
    hide Main, Left, Begins, OneDue, StoryIs, StoryOf, Shown;
    due := StoryOfTurnedDown(interval, Pool0(turn.input, kept), turn.events, k);
  }

  /** An entry that has a status and no widget shows its own bare card, fresh in every cycle. */
  lemma {:induction false} MonitorShowsItsOwn(interval: int, turns: seq<Turn>, turn: Turn, e: Entry)
    requires History(interval, turns) && Possible(interval, KeptAfter(interval, turns), turn) && turn.Ran?
    requires WellNamed(turn.input) && e in turn.input.entries && e.widgets == [] && e.visible
    requires Clear(turn.input, MonitorOrigin(e.card, e.index))
    ensures
      var k := Key(turn.input.home, MonitorOrigin(e.card, e.index));
      var after := AfterTurn(interval, KeptAfter(interval, turns), turn).cards;
      k in after && after[k] == e.bare.(key := k)
  {
    var kept, x, k := KeptAfter(interval, turns), turn.input, Key(turn.input.home, MonitorOrigin(e.card, e.index));
    EveryBoundary(interval, turns);
    assert EntryHasCard(x.home, e, k);
    StoreShowsWhatItShould(interval, turns, turn, k);
    CardsAreExpected(interval, turns, turn, k);
    hide Main, Left, Expected, Key, WellNamed, Clear;
    if k in Skipped(interval, kept, turn) {
      var due := SkippedIsAsked(interval, kept, turn, k);
      NobodyAsksAboutBare(x, e, due);
    }
    ExpectedIsBare(x, e, AfterTurn(interval, kept, turn).cards[k]);
  }

  /** And so does a discovered service, in a Dashboard outside a namespace "discovery". */
  lemma {:induction false} DiscoveredShowsItsOwn(interval: int, turns: seq<Turn>, turn: Turn, d: Discovered)
    requires History(interval, turns) && Possible(interval, KeptAfter(interval, turns), turn) && turn.Ran?
    requires WellNamed(turn.input) && d in turn.input.discovered
    requires d.origin.IngressOrigin? || turn.input.home != "discovery"
    requires forall d' :: d' in turn.input.discovered && d'.origin == d.origin ==> d' == d
    ensures
      var k := Key(turn.input.home, d.origin);
      var after := AfterTurn(interval, KeptAfter(interval, turns), turn).cards;
      k in after && after[k] == d.polled.(key := k)
  {
    var kept, x, k := KeptAfter(interval, turns), turn.input, Key(turn.input.home, d.origin);
    EveryBoundary(interval, turns);
    StoreShowsWhatItShould(interval, turns, turn, k);
    CardsAreExpected(interval, turns, turn, k);
    hide Main, Left, Expected, Key, WellNamed;
    if k in Skipped(interval, kept, turn) {
      var due := SkippedIsAsked(interval, kept, turn, k);
      NobodyAsksAboutDiscovered(x, d, due);
    }
    ExpectedIsDiscovered(x, d, AfterTurn(interval, kept, turn).cards[k]);
  }

  /** The cycle turned down the poll of `o` as not due. */
  ghost predicate NotDue(interval: int, kept: Kept, turn: Turn, o: Origin) {
    && turn.Ran? && Possible(interval, kept, turn)
    && WellNamed(turn.input) && PlainNames(turn.input.home, o) && Polled(o)
    && Key(turn.input.home, o) in Skipped(interval, kept, turn)
  }

  lemma NotDueIsTurnedDown(interval: int, kept: Kept, turn: Turn, o: Origin)
    requires NotDue(interval, kept, turn, o) && Boundary(kept.cards, kept.memory)
    ensures TurnedDown(interval, Pool0(turn.input, kept), turn.events, Key(turn.input.home, o))
    ensures OneDue(Left(Main(turn.input)), Key(turn.input.home, o))
  {
    PoolBegins(turn.input, kept);
    EveryKeyHasOneDue(turn.input, Key(turn.input.home, o));
  }

  /** What the cycle merges into the card of a widget that is not due; None for a header
      widget, which is left alone. */
  ghost predicate IsRefreshFor(x: Input, o: Origin, r: Option<Refresh>) {
    match o
    case WidgetOrigin(_, _, i) =>
      exists e :: e in x.entries && OfEntry(e, o) && i < |e.widgets|
        && r == Some(e.widgets[i].refresh.(blank := e.widgets[i].refresh.blank.(key := Key(x.home, o))))
    case _ => r.None?
  }

  /** A widget that a cycle turned down as not due keeps its card, refreshed by the
      monitor: `RefreshKeeps` says what that changes. Nothing may take its key. */
  lemma {:induction false} NotDueKeepsItsContent(interval: int, turns: seq<Turn>, turn: Turn,
                                                 o: Origin) returns (r: Option<Refresh>)
    requires History(interval, turns) && NotDue(interval, KeptAfter(interval, turns), turn, o) && Clear(turn.input, o)
    ensures IsRefreshFor(turn.input, o, r)
    ensures
      var kept, k := KeptAfter(interval, turns), Key(turn.input.home, o);
      var after := AfterTurn(interval, kept, turn).cards;
      k in kept.cards && k in after
        && after[k] == if r.Some? then Refreshed(Some(kept.cards[k]), r.value) else kept.cards[k]
  {
    var kept, x, k := KeptAfter(interval, turns), turn.input, Key(turn.input.home, o);
    EveryBoundary(interval, turns);
    NotDueIsTurnedDown(interval, kept, turn, o);
    forall c ensures !Rival(Left(Main(x)), k, c) {
      ClearHasNoRival(x, o, c);
    }
    hide Left, Main, Key, TurnedDown, OneDue, NotDue, Runs, End, Boundary;
    var due := SkippedKeepsItsCard(interval, Pool0(x, kept), turn.events, k);
    DueIsItsOwn(x, o, due);
    r := due.fallback;
  }

  lemma ClearHasNoRival(x: Input, o: Origin, c: Card)
    requires WellNamed(x) && PlainNames(x.home, o) && Polled(o) && Clear(x, o)
    ensures !Rival(Left(Main(x)), Key(x.home, o), c)
  {
    hide Left, Main, Key;
    RivalsAreDiscovered(x, o, c);
    if d :| d in x.discovered && Key(x.home, d.origin) == Key(x.home, o) {
      KeysClash(x.home, o, d.origin);
    }
  }

  /** If discovered HTTPRoutes take the key, the order of the accesses to the store
      decides. When all of them are stored between the read and the write of the merge,
      the widget's card comes back; otherwise the page shows a route, possibly with the
      result of the widget's monitor. */
  lemma {:induction false} NotDueAgainstRoute(interval: int, turns: seq<Turn>, turn: Turn, o: Origin)
    returns (r: Refresh)
    requires History(interval, turns) && NotDue(interval, KeptAfter(interval, turns), turn, o) && !Clear(turn.input, o)
    ensures IsRefreshFor(turn.input, o, Some(r))
    ensures
      var kept, k := KeptAfter(interval, turns), Key(turn.input.home, o);
      var after := AfterTurn(interval, kept, turn).cards;
      var s := StoryOf(End(interval, Pool0(turn.input, kept), turn.events).data.log, k);
      && k in after && Stored(s) != []
      && if s.before == [] && s.after == [] then k in kept.cards && after[k] == Refreshed(Some(kept.cards[k]), r)
         else
           exists c ::
             && IsDiscovered(turn.input.home, turn.input.discovered, k, c)
             && (after[k] == c || after[k] == Refreshed(Some(c), r))
    ensures
      var kept, k := KeptAfter(interval, turns), Key(turn.input.home, o);
      var after := AfterTurn(interval, kept, turn).cards;
      var s := StoryOf(End(interval, Pool0(turn.input, kept), turn.events).data.log, k);
      && k in kept.cards
      && (forall c :: IsDiscovered(turn.input.home, turn.input.discovered, k, c) ==> !SameButMerged(c, kept.cards[k]))
      ==>
        (SameButMerged(after[k], kept.cards[k]) <==> s.before == [] && s.after == [])
  {
    var kept, x, k := KeptAfter(interval, turns), turn.input, Key(turn.input.home, o);
    EveryBoundary(interval, turns);
    NotDueIsTurnedDown(interval, kept, turn, o);
    hide Left, Main, Key, TurnedDown, OneDue, NotDue, Runs, End, Boundary, StoryOf, Refreshed, IsDiscovered, Rival;
    var due := StoryOfTurnedDown(interval, Pool0(x, kept), turn.events, k);
    var due' := RivalsAgainstMerge(interval, Pool0(x, kept), turn.events, k);
    SameDueCheck(x, k, due, due');
    DueIsItsOwn(x, o, due);
    ClashNeedsWidget(x, o);
    r := due.fallback.value;
    var rival := RouteIsRival(x, o);
    var after := AfterTurn(interval, kept, turn).cards;
    forall b, r' ensures SameButMerged(Refreshed(Some(b), r'), b) {
      RefreshKeeps(b, r');
    }
    if c :| Rival(Left(Main(x)), k, c) && (after[k] == c || after[k] == Refreshed(Some(c), r)) {
      RivalsAreDiscovered(x, o, c);
      RivalHasKey(x, k, c);
    }
  }

  lemma SameDueCheck(x: Input, k: string, a: Action, b: Action)
    requires OneDue(Left(Main(x)), k) && a in Left(Main(x)) && b in Left(Main(x)) && IsDueOf(a, k) && IsDueOf(b, k)
    ensures a == b
  {
  }

  lemma ClashNeedsWidget(x: Input, o: Origin)
    requires Polled(o) && !Clear(x, o)
    ensures o.WidgetOrigin?
  {
  }

  lemma RivalHasKey(x: Input, k: string, c: Card)
    requires Rival(Left(Main(x)), k, c)
    ensures c.key == k
  {
  }

  lemma RouteIsRival(x: Input, o: Origin) returns (c: Card)
    requires WellNamed(x) && PlainNames(x.home, o) && Polled(o) && !Clear(x, o)
    ensures Rival(Left(Main(x)), Key(x.home, o), c)
  {
    hide Left, Main, Key;
    var d :| d in x.discovered && Clash(x.home, o, d.origin);
    KeysClash(x.home, o, d.origin);
    c := WithKey(d.polled, Key(x.home, o));
    RivalsAreDiscovered(x, o, c);
  }

  /** In every history, at every point of every cycle, a task about to merge a monitor
      result finds a stored card. */
  lemma {:induction false} MergesFindTheirCards(interval: int, turns: seq<Turn>, x: Input, events: seq<Event>, i: nat,
                                                r: Refresh)
    requires History(interval, turns) && WellNamed(x)
    requires Runs(interval, Pool0(x, KeptAfter(interval, turns)), events)
    requires AboutToMerge(End(interval, Pool0(x, KeptAfter(interval, turns)), events), i, r)
    ensures r.blank.key in End(interval, Pool0(x, KeptAfter(interval, turns)), events).data.cards
  {
    var kept := KeptAfter(interval, turns);
    EveryBoundary(interval, turns);
    PoolBegins(x, kept);
    EveryKeyHasOneDue(x, r.blank.key);
    MergeFindsItsCard(interval, Pool0(x, kept), events, i, r);
  }

  function MetricCycle(turn: Turn): Cycle {
    match turn
    case Stopped => Aborted
    case Ran(x, _) => Completed(Reported(Left(Main(x))))
  }

  function MetricCycles(turns: seq<Turn>): seq<Cycle> {
    seq(|turns|, i requires 0 <= i < |turns| => MetricCycle(turns[i]))
  }

  lemma {:induction false} MetricsFollow(interval: int, turns: seq<Turn>)
    requires History(interval, turns)
    ensures MetricsAfter(MetricCycles(turns)) ==
      Metrics(KeptAfter(interval, turns).labels, KeptAfter(interval, turns).exported)
  {
    if turns != [] {
      var n := |turns| - 1;
      var kept := KeptAfter(interval, turns[..n]);
      MetricsFollow(interval, turns[..n]);
      EveryBoundary(interval, turns[..n]);
      var cycles := MetricCycles(turns);
      assert cycles[..n] == MetricCycles(turns[..n]);
      assert cycles[n] == MetricCycle(turns[n]);
      if turns[n].Ran? {
        PoolBegins(turns[n].input, kept);
        SeriesAreTheReportedOnes(interval, Pool0(turns[n].input, kept), turns[n].events);
      }
    }
  }

  /** Some cycle reported `p`. */
  ghost predicate EverProbed(turns: seq<Turn>, p: Series) {
    exists i :: 0 <= i < |turns| && turns[i].Ran? && WasProbed(turns[i].input, p)
  }

  ghost predicate IsLastRan(turns: seq<Turn>, i: int) {
    0 <= i < |turns| && turns[i].Ran? && forall j :: i < j < |turns| ==> turns[j].Stopped?
  }

  /** The last cycle that was not stopped reported `p`. */
  ghost predicate LastProbed(turns: seq<Turn>, p: Series) {
    exists i :: IsLastRan(turns, i) && WasProbed(turns[i].input, p)
  }

  /** At every boundary the exported series are those the last full cycle's monitors
      reported, plus, exactly, every series ever reported for a name with a unit
      separator in it. */
  lemma ExportedIsProbed(interval: int, turns: seq<Turn>, p: Series)
    requires History(interval, turns)
    ensures p in KeptAfter(interval, turns).exported <==>
      LastProbed(turns, p) || (EverProbed(turns, p) && SEPARATOR in p.0)
  {
    MetricsFollow(interval, turns);
    MetricsArePlain(turns);
    ExportedSeries(MetricCycles(turns), p);
    LatestIsLastProbed(turns, p);
    EverRecordedIsEverProbed(turns, p);
  }

  lemma MetricsArePlain(turns: seq<Turn>)
    ensures AllPlain(MetricCycles(turns))
  {
    var cycles := MetricCycles(turns);
    forall i | 0 <= i < |cycles| && cycles[i].Completed? ensures PlainSources(cycles[i].recorded) {
      assert cycles[i] == MetricCycle(turns[i]);
      MainIsSound(turns[i].input);
    }
  }

  lemma {:induction false} LatestIsLastProbed(turns: seq<Turn>, p: Series)
    ensures p in Latest(MetricCycles(turns)) <==> LastProbed(turns, p)
  {
    if turns != [] {
      var n := |turns| - 1;
      var cycles := MetricCycles(turns);
      assert cycles[..n] == MetricCycles(turns[..n]);
      assert cycles[n] == MetricCycle(turns[n]);
      if turns[n].Ran? {
        MainMarks(turns[n].input, "", p);
      } else {
        LatestIsLastProbed(turns[..n], p);
        LastProbedExtends(turns, p);
      }
    }
  }

  lemma LastProbedExtends(turns: seq<Turn>, p: Series)
    requires turns != [] && turns[|turns| - 1].Stopped?
    ensures LastProbed(turns, p) <==> LastProbed(turns[..|turns| - 1], p)
  {
    hide WasProbed;
    var before := turns[..|turns| - 1];
    forall i ensures IsLastRan(before, i) <==> IsLastRan(turns, i) {
      SameLastRan(turns, i);
    }
    hide IsLastRan;
    assert forall i :: 0 <= i < |before| ==> before[i] == turns[i];
    LastRanBounds(turns);
    LastRanBounds(before);
  }

  lemma SameLastRan(turns: seq<Turn>, i: int)
    requires turns != [] && turns[|turns| - 1].Stopped?
    ensures IsLastRan(turns[..|turns| - 1], i) <==> IsLastRan(turns, i)
  {
    var before := turns[..|turns| - 1];
    if IsLastRan(before, i) {
      forall j | i < j < |turns| ensures turns[j].Stopped? {
        assert j < |before| ==> before[j] == turns[j];
      }
    }
  }

  lemma LastRanBounds(turns: seq<Turn>)
    ensures forall i :: IsLastRan(turns, i) ==> 0 <= i < |turns| && turns[i].Ran?
  {
  }

  lemma EverRecordedIsEverProbed(turns: seq<Turn>, p: Series)
    ensures EverRecorded(MetricCycles(turns), p) <==> EverProbed(turns, p)
  {
    var cycles := MetricCycles(turns);
    forall i | 0 <= i < |turns|
      ensures cycles[i].Completed? && p in cycles[i].recorded <==> turns[i].Ran? && WasProbed(turns[i].input, p)
    {
      assert cycles[i] == MetricCycle(turns[i]);
      if turns[i].Ran? {
        MainMarks(turns[i].input, "", p);
      }
    }
  }
}
