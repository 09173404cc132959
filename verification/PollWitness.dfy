/** Two histories of two cycles each, step by step. In both a widget is not due and a
    discovered HTTPRoute has its key; in one the widget's card survives the cycle, in
    the other the route takes its place. They differ in the order of two accesses to the
    store and in nothing else. */
module PollWitness {
  import opened Ordering
  import opened PollCycle
  import opened PollHistory
  import opened PollKeys
  import opened PollPool
  import opened PollRefresh
  import opened PollerState
  import opened Store
  import opened Text

  // ----------------------------------------------------------------- stepping

  ghost predicate Leads(interval: int, s: Pool, events: seq<Event>, t: Pool) {
    Runs(interval, s, events) && End(interval, s, events) == t
  }

  lemma LeadsNowhere(interval: int, s: Pool)
    ensures Leads(interval, s, [], s)
  {
  }

  lemma Before(interval: int, s: Pool, e: Event, t: Pool, rest: seq<Event>, u: Pool) returns (events: seq<Event>)
    requires Enabled(s, e) && Next(interval, s, e) == t && Leads(interval, t, rest, u)
    ensures Leads(interval, s, events, u)
  {
    events := [e] + rest;
    assert events[1..] == rest;
  }

  lemma {:induction false} Join(interval: int, s: Pool, a: seq<Event>, t: Pool, b: seq<Event>, u: Pool)
    returns (events: seq<Event>)
    requires Leads(interval, s, a, t) && Leads(interval, t, b, u)
    ensures Leads(interval, s, events, u)
    decreases |a|
  {
    if a == [] {
      events := b;
    } else {
      events := Join(interval, Next(interval, s, a[0]), a[1..], t, b, u);
      events := Before(interval, s, a[0], Next(interval, s, a[0]), events, u);
    }
  }

  /** A pool whose counters are right. */
  function Balanced(main: Program, waiting: seq<Program>, running: seq<Program>, exiting: nat, finished: nat,
                    labels: set<string>, d: Data): Pool {
    Pool(main, waiting, running, exiting, finished, |waiting| + |running| + exiting, |running|, labels, d, Polling)
  }

  // -------------------------------------------------- what the tasks are made of

  const HOME := "discovery"

  /** What the pod monitor of the entry reports. */
  const SERIES: Series := (HOME + "/" + "httproute" + "/" + "Plex", "pods")

  const STEP := TaskStep(0, 0, 0)

  /** The second cycle comes later than the first, but before the widget is due again. */
  const LATER: int := 20 * SECOND

  const LATER_STEP := TaskStep(0, LATER, LATER)

  /** A widget's task, the task of its entry, and the task of the route. */
  function WidgetBody(due: Action): Program { [Do(due)] }

  function EntryBody(k: string, due: Action): Program { [Do(Report(SERIES)), Do(Mark(k)), Submit(WidgetBody(due))] }

  function RouteBody(card: Card): Program { [Do(Put(card))] }

  /** The entry's monitor has been probed and its widget's key marked. */
  function Entered(k: string, d: Data): Data {
    d.(exported := d.exported + {SERIES}, recorded := d.recorded + {SERIES}, keep := d.keep + {k})
  }

  /** The entry's task is submitted, runs, reports the pod monitor's series, marks the key
      and submits the widget's task. */
  lemma EntryRuns(interval: int, main: Program, k: string, due: Action, labels: set<string>,
                  d: Data) returns (events: seq<Event>)
    ensures Leads(interval, Balanced([Submit(EntryBody(k, due))] + main, [], [], 0, 0, labels, d), events,
                  Balanced(main, [WidgetBody(due)], [], 0, 1, labels, Entered(k, d)))
  {
    var body, d' := EntryBody(k, due), Entered(k, d);
    var probed := d.(exported := d.exported + {SERIES}, recorded := d.recorded + {SERIES});
    var s0 := Balanced([Submit(body)] + main, [], [], 0, 0, labels, d);
    var s1 := Balanced(main, [body], [], 0, 0, labels, d);
    var s2 := Balanced(main, [], [body], 0, 0, labels, d);
    var s2' := Balanced(main, [], [body[1..]], 0, 0, labels, probed);
    var s3 := Balanced(main, [], [[Submit(WidgetBody(due))]], 0, 0, labels, d');
    var s4 := Balanced(main, [WidgetBody(due)], [[]], 0, 0, labels, d');
    var s5 := Balanced(main, [WidgetBody(due)], [], 1, 0, labels, d');
    var s6 := Balanced(main, [WidgetBody(due)], [], 0, 1, labels, d');
    assert Doing([]) + body[1..] == body[1..] == [Do(Mark(k)), Submit(WidgetBody(due))];
    assert Doing([]) + body[1..][1..] == [Submit(WidgetBody(due))];
    LeadsNowhere(interval, s6);
    hide Leads;
    events := Before(interval, s5, Leave, s6, [], s6);
    events := Before(interval, s4, Release(0), s5, events, s6);
    events := Before(interval, s3, STEP, s4, events, s6);
    events := Before(interval, s2', STEP, s3, events, s6);
    events := Before(interval, s2, STEP, s2', events, s6);
    events := Before(interval, s1, Start(0), s2, events, s6);
    events := Before(interval, s0, MainStep(0, 0), s1, events, s6);
  }

  /** The data after the prunes. */
  function AllPruned(labels: set<string>, d: Data): Data {
    d.(cards := Pruned(d.cards, d.keep),
       exported := d.exported - Stale(labels, Keys(d.recorded)),
       memory := Forget(d.memory, d.keep))
  }

  function AllDone(finished: nat, labels: set<string>, d: Data): Pool {
    Pool([], [], [], 0, finished, 0, 0, Keys(d.recorded), AllPruned(labels, d), Finished(d))
  }

  /** The wait and the prunes. */
  lemma CycleCloses(interval: int, finished: nat, labels: set<string>, d: Data) returns (events: seq<Event>)
    ensures Leads(interval, Balanced([], [], [], 0, finished, labels, d), events, AllDone(finished, labels, d))
  {
    var s0, s4 := Balanced([], [], [], 0, finished, labels, d), AllDone(finished, labels, d);
    var s1 := s0.(phase := Waited(d));
    var s2 := Next(interval, s1, PruneCards);
    var s3 := Next(interval, s2, PruneSeries);
    LeadsNowhere(interval, s4);
    hide Leads, Pruned, Stale, Keys, Forget;
    events := Before(interval, s3, PruneMemory, s4, [], s4);
    events := Before(interval, s2, PruneSeries, s3, events, s4);
    events := Before(interval, s1, PruneCards, s2, events, s4);
    events := Before(interval, s0, Wait, s1, events, s4);
  }

  // ----------------------------------------------------------- the first cycle

  /** The widget is due and its card is stored. */
  lemma WidgetPolls(interval: int, due: Action, labels: set<string>, d: Data) returns (events: seq<Event>)
    requires due.Due? && IsDue(d.memory, interval, due.key, due.override, 0)
    ensures
      var d' := Set(d.(memory := Remember(d.memory, interval, due.key, due.override, 0, 0)), Put(due.outcome));
      Leads(interval, Balanced([], [WidgetBody(due)], [], 0, 1, labels, d), events,
        Balanced([], [], [], 0, 2, labels, d'))
  {
    var polled := d.(memory := Remember(d.memory, interval, due.key, due.override, 0, 0));
    var d' := Set(polled, Put(due.outcome));
    var s0 := Balanced([], [WidgetBody(due)], [], 0, 1, labels, d);
    var s1 := Balanced([], [], [WidgetBody(due)], 0, 1, labels, d);
    var s2 := Balanced([], [], [[Do(Put(due.outcome))]], 0, 1, labels, polled);
    var s3 := Balanced([], [], [[]], 0, 1, labels, d');
    var s4 := Balanced([], [], [], 1, 1, labels, d');
    var s5 := Balanced([], [], [], 0, 2, labels, d');
    assert Doing([Put(due.outcome)]) + WidgetBody(due)[1..] == [Do(Put(due.outcome))];
    assert Doing([]) + [Do(Put(due.outcome))][1..] == [];
    LeadsNowhere(interval, s5);
    hide Leads, Remember, IsDue, Set;
    events := Before(interval, s4, Leave, s5, [], s5);
    events := Before(interval, s3, Release(0), s4, events, s5);
    events := Before(interval, s2, STEP, s3, events, s5);
    events := Before(interval, s1, STEP, s2, events, s5);
    events := Before(interval, s0, Start(0), s1, events, s5);
  }

  // ---------------------------------------------------------- the second cycle

  /** The route's task is submitted; both tasks get a slot; the widget is turned down and
      its task reads the stored card. */
  lemma WidgetReads(interval: int, k: string, due: Action, route: Card, labels: set<string>, d: Data)
    returns (events: seq<Event>, read: Data)
    requires due.Due? && due.fallback.Some? && !IsDue(d.memory, interval, due.key, due.override, LATER)
    ensures
      var r := due.fallback.value;
      && read == d.(keep := d.keep + {k},
                    memory := Remember(d.memory, interval, due.key, due.override, LATER, LATER),
                    skipped := d.skipped + {due.key},
                    log := d.log + [Merge(r)])
      && var c := Refreshed(At(d.cards, r.blank.key), r);
         Leads(interval,
               Balanced([Do(Mark(k)), Submit(RouteBody(route))], [WidgetBody(due)], [], 0, 1, labels, d), events,
               Balanced([], [], [[Do(Update(c))], RouteBody(route)], 0, 1, labels, read))
  {
    var r := due.fallback.value;
    var c := Refreshed(At(d.cards, r.blank.key), r);
    var marked := d.(keep := d.keep + {k});
    var turned := marked.(memory := Remember(d.memory, interval, due.key, due.override, LATER, LATER),
                          skipped := d.skipped + {due.key});
    read := turned.(log := d.log + [Merge(r)]);
    var s0 := Balanced([Do(Mark(k)), Submit(RouteBody(route))], [WidgetBody(due)], [], 0, 1, labels, d);
    var s1 := Balanced([Submit(RouteBody(route))], [WidgetBody(due)], [], 0, 1, labels, marked);
    var s2 := Balanced([], [WidgetBody(due), RouteBody(route)], [], 0, 1, labels, marked);
    var s3 := Balanced([], [RouteBody(route)], [WidgetBody(due)], 0, 1, labels, marked);
    var s4 := Balanced([], [], [WidgetBody(due), RouteBody(route)], 0, 1, labels, marked);
    var s5 := Balanced([], [], [[Do(Merge(r))], RouteBody(route)], 0, 1, labels, turned);
    var s6 := Balanced([], [], [[Do(Update(c))], RouteBody(route)], 0, 1, labels, read);
    assert Doing([]) + [Do(Mark(k)), Submit(RouteBody(route))][1..] == [Submit(RouteBody(route))];
    assert Doing([Merge(r)]) + WidgetBody(due)[1..] == [Do(Merge(r))];
    assert Doing([Update(c)]) + [Do(Merge(r))][1..] == [Do(Update(c))];
    LeadsNowhere(interval, s6);
    hide Leads, Remember, IsDue, Refreshed;
    events := Before(interval, s5, LATER_STEP, s6, [], s6);
    events := Before(interval, s4, LATER_STEP, s5, events, s6);
    events := Before(interval, s3, Start(0), s4, events, s6);
    events := Before(interval, s2, Start(0), s3, events, s6);
    events := Before(interval, s1, MainStep(0, 0), s2, events, s6);
    events := Before(interval, s0, MainStep(0, 0), s1, events, s6);
  }

  /** Both tasks store their cards, the route's first or last, and leave. */
  lemma BothStore(interval: int, c: Card, route: Card, routeFirst: bool, labels: set<string>,
                  d: Data) returns (events: seq<Event>)
    ensures
      var d' := if routeFirst then Set(Set(d, Put(route)), Update(c)) else Set(Set(d, Update(c)), Put(route));
      Leads(interval, Balanced([], [], [[Do(Update(c))], RouteBody(route)], 0, 1, labels, d), events,
        Balanced([], [], [], 0, 3, labels, d'))
  {
    var d' := if routeFirst then Set(Set(d, Put(route)), Update(c)) else Set(Set(d, Update(c)), Put(route));
    var s0 := Balanced([], [], [[Do(Update(c))], RouteBody(route)], 0, 1, labels, d);
    var s1 := if routeFirst then Balanced([], [], [[Do(Update(c))], []], 0, 1, labels, Set(d, Put(route)))
              else Balanced([], [], [[], RouteBody(route)], 0, 1, labels, Set(d, Update(c)));
    var s2 := Balanced([], [], [[], []], 0, 1, labels, d');
    var s3 := Balanced([], [], [[]], 1, 1, labels, d');
    var s4 := Balanced([], [], [], 2, 1, labels, d');
    var s5 := Balanced([], [], [], 1, 2, labels, d');
    var s6 := Balanced([], [], [], 0, 3, labels, d');
    assert Doing([]) + [Do(Update(c))][1..] == [];
    assert Doing([]) + RouteBody(route)[1..] == [];
    LeadsNowhere(interval, s6);
    hide Leads, Set;
    events := Before(interval, s5, Leave, s6, [], s6);
    events := Before(interval, s4, Leave, s5, events, s6);
    events := Before(interval, s3, Release(0), s4, events, s6);
    events := Before(interval, s2, Release(0), s3, events, s6);
    var first, second := if routeFirst then TaskStep(1, 0, 0) else STEP, if routeFirst then STEP else TaskStep(1, 0, 0);
    events := Before(interval, s1, second, s2, events, s6);
    events := Before(interval, s0, first, s1, events, s6);
  }

  // -------------------------------------------------------------- the histories

  const INTERVAL: int := 15 * SECOND

  const ORIGIN := WidgetOrigin("httproute", 0, 0)

  function Plain(group: string, service: string, content: string): Card {
    Card("", group, None, service, "", content, "", false)
  }

  const WIDGET := WidgetPoll(
    Some(60),
    Plain("Media", "Plex", "plex widget").(err := "timeout"),
    Refresh(Plain("Media", "Plex", ""), "Down", "namespace not allowed", false))

  const ENTRY := Entry("httproute", 0, "Plex", false, true, true, Plain("Media", "Plex", ""), [WIDGET])

  const ROUTE := Discovered(RouteOrigin("0", "0"), false, Plain("Discovered", "zero", ""))

  const ALONE := Input(HOME, [ENTRY], [], [])

  const TOGETHER := Input(HOME, [ENTRY], [ROUTE], [])

  function K(): string { Key(HOME, ORIGIN) }

  function DueCheck(): Action { WidgetTask(K(), WIDGET)[0].action }

  lemma Names()
    ensures WellNamed(ALONE) && WellNamed(TOGETHER) && PlainNames(HOME, ORIGIN) && Polled(ORIGIN)
    ensures !Clear(TOGETHER, ORIGIN) && Key(HOME, ROUTE.origin) == K()
  {
    assert ROUTE in TOGETHER.discovered;
    assert Decimal(0) == "0";
    assert Clash(HOME, ORIGIN, ROUTE.origin);
    KeysClash(HOME, ORIGIN, ROUTE.origin);
  }

  lemma EntryTaskIs()
    ensures EntryTask(HOME, ENTRY) == EntryBody(K(), DueCheck())
  {
    hide Key;
    assert Probe(HOME, ENTRY) == [Do(Report(SERIES))];
    assert FanOut(HOME, ENTRY, 1) == [];
    assert FanOut(HOME, ENTRY, 0) == EntryBody(K(), DueCheck())[1..];
  }

  lemma MainsAre()
    ensures Main(ALONE) == [Submit(EntryBody(K(), DueCheck()))] + []
    ensures Main(TOGETHER) == [Submit(EntryBody(K(), DueCheck()))]
      + [Do(Mark(K())), Submit(RouteBody(WithKey(ROUTE.polled, K())))]
  {
    EntryTaskIs();
    Names();
    hide Key, EntryTask;
    assert SubmitEntries(HOME, [ENTRY]) == [Submit(EntryTask(HOME, ENTRY))] + SubmitEntries(HOME, [ENTRY][1..]);
    assert DiscoveredTask(K(), ROUTE) == RouteBody(WithKey(ROUTE.polled, K()));
    assert SubmitDiscovered(HOME, [ROUTE]) == [Do(Mark(K())), Submit(DiscoveredTask(K(), ROUTE))]
      + SubmitDiscovered(HOME, [ROUTE][1..]);
  }

  /** The first cycle, and what it leaves: the widget's card and the time of its poll. */
  lemma FirstTurn() returns (turn: Turn)
    ensures History(INTERVAL, [turn])
    ensures
      var kept := KeptAfter(INTERVAL, [turn]);
      && K() in kept.cards && kept.cards[K()] == WithKey(WIDGET.polled, K())
      && K() in kept.memory.lastPolled && kept.memory.lastPolled[K()] == 0
  {
    hide Key, Main;
    var d := Data({}, {}, {}, map[], Memory(map[], {}), {}, {}, []);
    MainsAre();
    var marked := Entered(K(), d);
    var a := EntryRuns(INTERVAL, [], K(), DueCheck(), {}, d);
    var b := WidgetPolls(INTERVAL, DueCheck(), {}, marked);
    var polled :=
      Set(marked.(memory := Remember(marked.memory, INTERVAL, K(), Some(60), 0, 0)), Put(DueCheck().outcome));
    var c := CycleCloses(INTERVAL, 2, {}, polled);
    var first := Pool0(ALONE, Kept({}, {}, map[], Memory(map[], {})));
    assert first == Balanced(Main(ALONE), [], [], 0, 0, {}, d);
    b := Join(INTERVAL, Balanced([], [WidgetBody(DueCheck())], [], 0, 1, {}, marked), b,
              Balanced([], [], [], 0, 2, {}, polled), c, AllDone(2, {}, polled));
    a := Join(INTERVAL, first, a, Balanced([], [WidgetBody(DueCheck())], [], 0, 1, {}, marked), b,
      AllDone(2, {}, polled));
    turn := Ran(ALONE, a);
    OneTurn(turn);
  }

  lemma OneTurn(turn: Turn)
    requires Possible(INTERVAL, Kept({}, {}, map[], Memory(map[], {})), turn)
    ensures History(INTERVAL, [turn])
    ensures KeptAfter(INTERVAL, [turn]) == AfterTurn(INTERVAL, Kept({}, {}, map[], Memory(map[], {})), turn)
  {
    assert [turn][..0] == [];
    assert History(INTERVAL, []);
  }

  /** The second cycle, with the route stored before or after the widget's card. */
  lemma SecondTurn(kept: Kept, routeFirst: bool) returns (turn: Turn)
    requires K() in kept.cards && kept.cards[K()] == WithKey(WIDGET.polled, K())
    requires K() in kept.memory.lastPolled && kept.memory.lastPolled[K()] == 0
    ensures turn.Ran? && turn.input == TOGETHER && NotDue(INTERVAL, kept, turn, ORIGIN)
    ensures
      var after := AfterTurn(INTERVAL, kept, turn).cards;
      && K() in after
      && after[K()] ==
           if routeFirst then Refreshed(Some(kept.cards[K()]), DueCheck().fallback.value)
           else WithKey(ROUTE.polled, K())
  {
    hide Key, Main, WellNamed, PlainNames;
    var d := Data({}, {}, kept.exported, kept.cards, kept.memory, {}, {}, []);
    MainsAre();
    Names();
    var route, r := WithKey(ROUTE.polled, K()), DueCheck().fallback.value;
    var c := Refreshed(Some(kept.cards[K()]), r);
    var marked := Entered(K(), d);
    var a := EntryRuns(INTERVAL, [Do(Mark(K())), Submit(RouteBody(route))], K(), DueCheck(), kept.labels, d);
    var b, read := WidgetReads(INTERVAL, K(), DueCheck(), route, kept.labels, marked);
    var stored := if routeFirst then Set(Set(read, Put(route)), Update(c)) else Set(Set(read, Update(c)), Put(route));
    var e := BothStore(INTERVAL, c, route, routeFirst, kept.labels, read);
    var f := CycleCloses(INTERVAL, 3, kept.labels, stored);
    var first, last := Pool0(TOGETHER, kept), AllDone(3, kept.labels, stored);
    var s1 := Balanced([Do(Mark(K())), Submit(RouteBody(route))], [WidgetBody(DueCheck())], [], 0, 1, kept.labels,
      marked);
    var s2 := Balanced([], [], [[Do(Update(c))], RouteBody(route)], 0, 1, kept.labels, read);
    assert first == Balanced(Main(TOGETHER), [], [], 0, 0, kept.labels, d);
    e := Join(INTERVAL, s2, e, Balanced([], [], [], 0, 3, kept.labels, stored), f, last);
    b := Join(INTERVAL, s1, b, s2, e, last);
    a := Join(INTERVAL, first, a, s1, b, last);
    turn := Ran(TOGETHER, a);
  }

  /** After one and the same first cycle, one and the same input, polled twenty seconds
      later while the widget asks for sixty, leads to the widget's card, with its content
      but the monitor's error, or to the route's. */
  lemma OrderDecides() returns (first: Turn, survives: Turn, loses: Turn)
    ensures History(INTERVAL, [first]) && survives.Ran? && loses.Ran? && survives.input == loses.input == TOGETHER
    ensures
      var kept := KeptAfter(INTERVAL, [first]);
      && NotDue(INTERVAL, kept, survives, ORIGIN) && NotDue(INTERVAL, kept, loses, ORIGIN) && !Clear(TOGETHER, ORIGIN)
      && var here, there := AfterTurn(INTERVAL, kept, survives).cards, AfterTurn(INTERVAL, kept, loses).cards;
      && K() in kept.cards && K() in here && K() in there
      && here[K()].content == kept.cards[K()].content == "plex widget"
      && kept.cards[K()].err == "timeout" && here[K()].err == "namespace not allowed"
      && there[K()].serviceName == "zero"
  {
    hide Key, History, KeptAfter, AfterTurn, NotDue;
    first := FirstTurn();
    var kept := KeptAfter(INTERVAL, [first]);
    survives := SecondTurn(kept, true);
    loses := SecondTurn(kept, false);
    Names();
  }
}
