/** One poll cycle, in every interleaving.

    The main goroutine submits tasks to a pool; a task runs once it gets one of eight
    slots, and may submit further tasks while it holds its slot. When the wait group
    is back to zero the main goroutine prunes what the cycle did not confirm. What a
    poll brings back from the network is arbitrary; the tasks differ only in the
    actions they take on the shared state. */
module PollPool {
  import opened Ordering
  import opened PollerState
  import opened Store

  /** `maxConcurrentPolls`. */
  const SLOTS: nat := 8

  // -------------------------------------------------------- what a task may do

  /** What a merge brings: the card to build if none is stored, the monitor's result and
      error, and whether the entry hides errors. */
  datatype Refresh = Refresh(blank: Card, monitor: string, problem: string, hideErrors: bool)

  datatype Action =
    | Report(series: Series)                       // set the gauge, record the label
    | Mark(key: string)                            // markKeep
    | Due(key: string, override: Option<int>, outcome: Card, fallback: Option<Refresh>)
                                                   // duePoll, and what follows either answer
    | Put(card: Card)                              // Store.Set of a freshly built card
    | Merge(refresh: Refresh)                      // the Store.Get of mergeMonitorIntoStoredCard
    | Update(card: Card)                           // and its Store.Set

  datatype Statement = Do(action: Action) | Submit(body: seq<Statement>)

  type Program = seq<Statement>

  /** Everything the tasks share. `written`, `skipped` and `log` are observations: the
      keys given to Store.Set in this cycle, the keys duePoll turned down, and every
      access to the store, in order. */
  datatype Data = Data(
    keep: set<string>,
    recorded: set<Series>,
    exported: set<Series>,
    cards: Cards,
    memory: Memory,
    written: set<string>,
    skipped: set<string>,
    log: seq<Action>)

  /** What a merge makes of the card it read. An error of the monitor replaces whatever
      error the card had; without one the card's error stays. */
  function Refreshed(stored: Option<Card>, r: Refresh): Card {
    var card := if stored.Some? then stored.value else r.blank;
    card.(monitor := r.monitor,
          hideErrors := r.hideErrors,
          err := if r.problem != "" && !r.hideErrors then r.problem else card.err)
  }

  function Set(d: Data, a: Action): Data
    requires a.Put? || a.Update?
  {
    d.(cards := d.cards[a.card.key := a.card], written := d.written + {a.card.key}, log := d.log + [a])
  }

  /** The effect of an action, and the actions that follow it in the same task. */
  function Perform(interval: int, d: Data, a: Action, since: int, now: int): (Data, seq<Action>) {
    match a
    case Report(s) => (d.(exported := d.exported + {s}, recorded := d.recorded + {s}), [])
    case Mark(k) => (d.(keep := d.keep + {k}), [])
    case Due(k, override, outcome, fallback) =>
      var memory := Remember(d.memory, interval, k, override, since, now);
      if IsDue(d.memory, interval, k, override, since) then (d.(memory := memory), [Put(outcome)])
      else (d.(memory := memory, skipped := d.skipped + {k}), if fallback.Some? then [Merge(fallback.value)] else [])
    case Put(_) => (Set(d, a), [])
    case Merge(r) => (d.(log := d.log + [a]), [Update(Refreshed(At(d.cards, r.blank.key), r))])
    case Update(_) => (Set(d, a), [])
  }

  // ------------------------------------------------------------------ the pool

  /** The main goroutine's last steps keep the state it found when the wait returned. */
  datatype Phase = Polling | Waited(at: Data) | CardsPruned(at: Data) | SeriesPruned(at: Data) | Finished(at: Data)

  datatype Pool = Pool(
    main: Program,             // what the main goroutine has still to submit
    waiting: seq<Program>,     // submitted, without a slot
    running: seq<Program>,     // holding a slot; the rest of their bodies
    exiting: nat,              // slot given back, not yet counted out
    finished: nat,
    wg: nat,
    slots: nat,                // slots taken
    labels: set<string>,       // the poller's monitorLabels
    data: Data,
    phase: Phase)

  datatype Event =
    | MainStep(since: int, now: int)
    | Start(i: nat)
    | TaskStep(i: nat, since: int, now: int)
    | Release(i: nat)
    | Leave
    | Wait
    | PruneCards
    | PruneSeries
    | PruneMemory

  function RemoveAt<T>(s: seq<T>, i: nat): seq<T>
    requires i < |s|
  {
    s[..i] + s[i + 1..]
  }

  function Doing(actions: seq<Action>): Program {
    seq(|actions|, i requires 0 <= i < |actions| => Do(actions[i]))
  }

  predicate Enabled(s: Pool, e: Event) {
    match e
    case MainStep(since, now) => s.phase == Polling && s.main != [] && since <= now
    case Start(i) => i < |s.waiting| && s.slots < SLOTS
    case TaskStep(i, since, now) => i < |s.running| && s.running[i] != [] && since <= now
    case Release(i) => i < |s.running| && s.running[i] == [] && s.slots > 0
    case Leave => s.exiting > 0 && s.wg > 0
    case Wait => s.phase == Polling && s.main == [] && s.wg == 0
    case PruneCards => s.phase.Waited?
    case PruneSeries => s.phase.CardsPruned?
    case PruneMemory => s.phase.SeriesPruned?
  }

  /** Run the first statement of a body: the rest of the body, what it submitted, and
      the shared state. */
  function RunHead(interval: int, d: Data, body: Program, since: int, now: int): (Program, seq<Program>, Data)
    requires body != []
  {
    match body[0]
    case Submit(task) => (body[1..], [task], d)
    case Do(a) =>
      var (d', next) := Perform(interval, d, a, since, now);
      (Doing(next) + body[1..], [], d')
  }

  function Next(interval: int, s: Pool, e: Event): Pool
    requires Enabled(s, e)
  {
    match e
    case MainStep(since, now) =>
      var (rest, tasks, d) := RunHead(interval, s.data, s.main, since, now);
      s.(main := rest, waiting := s.waiting + tasks, wg := s.wg + |tasks|, data := d)
    case Start(i) =>
      s.(waiting := RemoveAt(s.waiting, i), running := s.running + [s.waiting[i]], slots := s.slots + 1)
    case TaskStep(i, since, now) =>
      var (rest, tasks, d) := RunHead(interval, s.data, s.running[i], since, now);
      s.(running := s.running[i := rest], waiting := s.waiting + tasks, wg := s.wg + |tasks|, data := d)
    case Release(i) =>
      s.(running := RemoveAt(s.running, i), slots := s.slots - 1, exiting := s.exiting + 1)
    case Leave =>
      s.(exiting := s.exiting - 1, finished := s.finished + 1, wg := s.wg - 1)
    case Wait => s.(phase := Waited(s.data))
    case PruneCards => s.(data := s.data.(cards := Pruned(s.data.cards, s.data.keep)), phase := CardsPruned(s.phase.at))
    case PruneSeries =>
      s.(data := s.data.(exported := s.data.exported - Stale(s.labels, Keys(s.data.recorded))),
         labels := Keys(s.data.recorded), phase := SeriesPruned(s.phase.at))
    case PruneMemory => s.(data := s.data.(memory := Forget(s.data.memory, s.data.keep)), phase := Finished(s.phase.at))
  }

  // -------------------------------------------------------- what is left to do

  /** The actions a body will take, its submitted tasks' included. */
  function Left(body: Program): multiset<Action> {
    if body == [] then multiset{}
    else
      (match body[0]
       case Do(a) => multiset{a}
       case Submit(task) => Left(task))
      + Left(body[1..])
  }

  function LeftIn(bodies: seq<Program>): multiset<Action> {
    if bodies == [] then multiset{} else Left(bodies[0]) + LeftIn(bodies[1..])
  }

  function Remaining(s: Pool): multiset<Action> {
    Left(s.main) + LeftIn(s.waiting) + LeftIn(s.running)
  }

  /** The tasks a body will submit, directly or through its tasks. */
  function Tasks(body: Program): nat {
    if body == [] then 0
    else (if body[0].Submit? then 1 + Tasks(body[0].body) else 0) + Tasks(body[1..])
  }

  /** The most steps an action can lead to, itself included. */
  function ActionEffort(a: Action): nat {
    if a.Due? then 3 else if a.Merge? then 2 else 1
  }

  /** A bound on the steps a body can still take. */
  function Effort(body: Program): nat {
    if body == [] then 0
    else
      (match body[0]
       case Submit(task) => 4 + Effort(task)
       case Do(a) => ActionEffort(a))
      + Effort(body[1..])
  }

  function Sum(bodies: seq<Program>, f: Program -> nat): nat {
    if bodies == [] then 0 else f(bodies[0]) + Sum(bodies[1..], f)
  }

  lemma {:induction false} SumAppend(a: seq<Program>, b: seq<Program>, f: Program -> nat)
    ensures Sum(a + b, f) == Sum(a, f) + Sum(b, f)
  {
    if a == [] {
      assert a + b == b;
    } else {
      assert (a + b)[1..] == a[1..] + b;
      SumAppend(a[1..], b, f);
    }
  }

  lemma SumOne(body: Program, f: Program -> nat)
    ensures Sum([body], f) == f(body)
  {
    assert [body][1..] == [];
  }

  lemma SumWithout(bodies: seq<Program>, i: nat, f: Program -> nat)
    requires i < |bodies|
    ensures Sum(bodies, f) == f(bodies[i]) + Sum(RemoveAt(bodies, i), f)
  {
    hide Sum;
    assert bodies == bodies[..i] + ([bodies[i]] + bodies[i + 1..]);
    SumAppend(bodies[..i], [bodies[i]] + bodies[i + 1..], f);
    SumAppend([bodies[i]], bodies[i + 1..], f);
    SumAppend(bodies[..i], bodies[i + 1..], f);
    SumOne(bodies[i], f);
  }

  lemma SumUpdate(bodies: seq<Program>, i: nat, body: Program, f: Program -> nat)
    requires i < |bodies|
    ensures Sum(bodies[i := body], f) + f(bodies[i]) == Sum(bodies, f) + f(body)
  {
    SumWithout(bodies, i, f);
    SumWithout(bodies[i := body], i, f);
    assert RemoveAt(bodies[i := body], i) == RemoveAt(bodies, i);
  }

  lemma {:induction false} LeftAppend(a: Program, b: Program)
    ensures Left(a + b) == Left(a) + Left(b)
  {
    if a == [] {
      assert a + b == b;
    } else {
      assert (a + b)[1..] == a[1..] + b;
      LeftAppend(a[1..], b);
    }
  }

  lemma {:induction false} LeftInAppend(a: seq<Program>, b: seq<Program>)
    ensures LeftIn(a + b) == LeftIn(a) + LeftIn(b)
  {
    if a == [] {
      assert a + b == b;
    } else {
      assert (a + b)[1..] == a[1..] + b;
      LeftInAppend(a[1..], b);
    }
  }

  lemma LeftInWithout(bodies: seq<Program>, i: nat)
    requires i < |bodies|
    ensures LeftIn(bodies) == Left(bodies[i]) + LeftIn(RemoveAt(bodies, i))
  {
    hide LeftIn, Left;
    assert bodies == bodies[..i] + ([bodies[i]] + bodies[i + 1..]);
    LeftInAppend(bodies[..i], [bodies[i]] + bodies[i + 1..]);
    LeftInAppend([bodies[i]], bodies[i + 1..]);
    LeftInAppend(bodies[..i], bodies[i + 1..]);
    LeftInOne(bodies[i]);
  }

  lemma LeftInOne(body: Program)
    ensures LeftIn([body]) == Left(body)
  {
    assert [body][1..] == [];
  }

  lemma LeftInUpdate(bodies: seq<Program>, i: nat, body: Program)
    requires i < |bodies|
    ensures LeftIn(bodies[i := body]) == LeftIn(bodies) - Left(bodies[i]) + Left(body)
    ensures Left(bodies[i]) <= LeftIn(bodies)
  {
    LeftInWithout(bodies, i);
    LeftInWithout(bodies[i := body], i);
    assert RemoveAt(bodies[i := body], i) == RemoveAt(bodies, i);
  }

  // ------------------------------------------------------------- the pool works

  /** The wait group counts the tasks not finished, the channel the bodies that run. */
  ghost predicate PoolInv(s: Pool, total: nat) {
    && s.wg == |s.waiting| + |s.running| + s.exiting
    && s.slots == |s.running| <= SLOTS
    && s.finished + s.wg + Tasks(s.main) + Sum(s.waiting, Tasks) + Sum(s.running, Tasks) == total
    && (s.phase != Polling ==> s.main == [] && s.wg == 0)
  }

  lemma HeadTasks(interval: int, d: Data, body: Program, since: int, now: int)
    requires body != []
    ensures
      var (rest, tasks, d') := RunHead(interval, d, body, since, now);
      Tasks(body) == Tasks(rest) + |tasks| + Sum(tasks, Tasks)
  {
    match body[0]
    case Submit(task) =>
      assert Sum([task], Tasks) == Tasks(task) + Sum([task][1..], Tasks);
    case Do(a) =>
      var next := Perform(interval, d, a, since, now).1;
      DoingHasNoTasks(next, body[1..]);
  }

  lemma DoingHasNoTasks(next: seq<Action>, body: Program)
    requires |next| <= 1
    ensures Tasks(Doing(next) + body) == Tasks(body)
  {
    if next == [] {
      assert Doing(next) + body == body;
    } else {
      assert (Doing(next) + body)[1..] == body;
    }
  }

  lemma StepKeepsPoolInv(interval: int, s: Pool, e: Event, total: nat)
    requires PoolInv(s, total) && Enabled(s, e)
    ensures PoolInv(Next(interval, s, e), total)
  {
    hide RunHead, Tasks;
    match e
    case MainStep(since, now) =>
      HeadTasks(interval, s.data, s.main, since, now);
      SumAppend(s.waiting, RunHead(interval, s.data, s.main, since, now).1, Tasks);
    case Start(i) =>
      SumWithout(s.waiting, i, Tasks);
      SumAppend(s.running, [s.waiting[i]], Tasks);
      SumOne(s.waiting[i], Tasks);
    case TaskStep(i, since, now) =>
      var (rest, tasks, d) := RunHead(interval, s.data, s.running[i], since, now);
      HeadTasks(interval, s.data, s.running[i], since, now);
      SumAppend(s.waiting, tasks, Tasks);
      SumUpdate(s.running, i, rest, Tasks);
    case Release(i) =>
      SumWithout(s.running, i, Tasks);
      NoTasks();
    case Leave =>
    case Wait =>
    case PruneCards =>
    case PruneSeries =>
    case PruneMemory =>
  }

  lemma NoTasks()
    ensures Tasks([]) == 0
  {
  }

  function PhaseRank(p: Phase): nat {
    match p
    case Polling => 4
    case Waited(_) => 3
    case CardsPruned(_) => 2
    case SeriesPruned(_) => 1
    case Finished(_) => 0
  }

  /** A bound on the steps the cycle can still take. */
  function StepsLeft(s: Pool): nat {
    Effort(s.main) + Sum(s.waiting, Effort) + 3 * |s.waiting| + Sum(s.running, Effort) + 2 * |s.running| + s.exiting
    + PhaseRank(s.phase)
  }

  lemma DoingEffort(next: seq<Action>, body: Program)
    requires |next| <= 1
    ensures Effort(Doing(next) + body) == Effort(body) + if next == [] then 0 else ActionEffort(next[0])
  {
    if next == [] {
      assert Doing(next) + body == body;
    } else {
      assert (Doing(next) + body)[1..] == body;
    }
  }

  lemma NextIsEasier(interval: int, d: Data, a: Action, since: int, now: int)
    ensures
      var next := Perform(interval, d, a, since, now).1;
      |next| <= 1 && (next != [] ==> ActionEffort(next[0]) < ActionEffort(a))
  {
    hide IsDue, Remember, Refreshed;
  }

  lemma HeadEffort(interval: int, d: Data, body: Program, since: int, now: int)
    requires body != []
    ensures
      var (rest, tasks, d') := RunHead(interval, d, body, since, now);
      Effort(rest) + Sum(tasks, Effort) + 3 * |tasks| < Effort(body)
  {
    match body[0]
    case Submit(task) =>
      SumOne(task, Effort);
    case Do(a) =>
      hide Perform;
      NextIsEasier(interval, d, a, since, now);
      DoingEffort(Perform(interval, d, a, since, now).1, body[1..]);
  }

  /** Every step brings the end of the cycle nearer, whichever it is. */
  lemma StepsRunOut(interval: int, s: Pool, e: Event)
    requires Enabled(s, e)
    ensures StepsLeft(Next(interval, s, e)) < StepsLeft(s)
  {
    hide RunHead, Effort;
    match e
    case MainStep(since, now) =>
      HeadEffort(interval, s.data, s.main, since, now);
      SumAppend(s.waiting, RunHead(interval, s.data, s.main, since, now).1, Effort);
    case Start(i) =>
      SumWithout(s.waiting, i, Effort);
      SumAppend(s.running, [s.waiting[i]], Effort);
      SumOne(s.waiting[i], Effort);
    case TaskStep(i, since, now) =>
      var (rest, tasks, d) := RunHead(interval, s.data, s.running[i], since, now);
      HeadEffort(interval, s.data, s.running[i], since, now);
      SumAppend(s.waiting, tasks, Effort);
      SumUpdate(s.running, i, rest, Effort);
    case Release(i) =>
      SumWithout(s.running, i, Effort);
    case Leave =>
    case Wait =>
    case PruneCards =>
    case PruneSeries =>
    case PruneMemory =>
  }

  /** Some step is possible until the cycle is over: a task that submits tasks while
      it holds its slot never waits for them, so the pool cannot block itself. */
  lemma NeverStuck(s: Pool, total: nat)
    requires PoolInv(s, total) && !s.phase.Finished?
    ensures exists e :: Enabled(s, e)
  {
    if s.phase == Polling {
      if s.main != [] {
        assert Enabled(s, MainStep(0, 0));
      } else if |s.running| > 0 {
        if s.running[0] == [] {
          assert Enabled(s, Release(0));
        } else {
          assert Enabled(s, TaskStep(0, 0, 0));
        }
      } else if |s.waiting| > 0 {
        assert Enabled(s, Start(0));
      } else if s.exiting > 0 {
        assert Enabled(s, Leave);
      } else {
        assert Enabled(s, Wait);
      }
    } else {
      match s.phase
      case Waited(_) => assert Enabled(s, PruneCards);
      case CardsPruned(_) => assert Enabled(s, PruneSeries);
      case SeriesPruned(_) => assert Enabled(s, PruneMemory);
    }
  }

  // --------------------------------------------- what the cycle does to the data

  predicate Writer(a: Action) {
    a.Due? || a.Put? || a.Merge? || a.Update?
  }

  /** The card an action may write. */
  function KeyOf(a: Action): string
    requires Writer(a)
  {
    match a
    case Due(k, _, _, _) => k
    case Put(card) => card.key
    case Merge(refresh) => refresh.blank.key
    case Update(card) => card.key
  }

  function WriteKeys(actions: multiset<Action>): set<string> {
    set a | a in actions && Writer(a) :: KeyOf(a)
  }

  function PutKeys(actions: multiset<Action>): set<string> {
    set a | a in actions && a.Put? :: a.card.key
  }

  function MarkKeys(actions: multiset<Action>): set<string> {
    set a | a in actions && a.Mark? :: a.key
  }

  function Reported(actions: multiset<Action>): set<Series> {
    set a | a in actions && a.Report? :: a.series
  }

  /** What the code of a cycle looks like from here: a due check goes with the card of
      its own key, and the keys marked are the keys that may be written. */
  ghost predicate Sound(all: multiset<Action>) {
    && (forall a :: a in all && a.Due? ==> DueIsSound(a))
    && MarkKeys(all) == WriteKeys(all)
    && (forall a :: a in all ==> !a.Merge? && !a.Update?)
  }

  predicate DueIsSound(a: Action)
    requires a.Due?
  {
    a.outcome.key == a.key && (a.fallback.Some? ==> a.fallback.value.blank.key == a.key)
  }

  /** `all` is what the cycle had to do, `left` what it has still to do, `was` the data
      at its start and `d` the data now. */
  ghost predicate DataInv(all: multiset<Action>, was: Data, left: multiset<Action>, d: Data) {
    && (forall a :: a in left && a.Due? ==> DueIsSound(a))
    && d.keep + MarkKeys(left) == MarkKeys(all)
    && WriteKeys(all) <= d.cards.Keys + WriteKeys(left)
    && d.written + d.skipped + WriteKeys(left) <= WriteKeys(all)
    && d.written <= d.cards.Keys
    && d.memory.lastPolled.Keys <= d.cards.Keys + PutKeys(left)
    && d.recorded + Reported(left) == Reported(all)
    && d.exported == was.exported + d.recorded
    && Keyed(d.cards)
  }

  /** After an action: it is gone, and what follows it has come. */
  function Replace(left: multiset<Action>, a: Action, next: seq<Action>): multiset<Action> {
    left - multiset{a} + multiset(next)
  }

  lemma TakeKeys(left: multiset<Action>, a: Action)
    requires a in left
    ensures
      var rest := left - multiset{a};
      && WriteKeys(left) == WriteKeys(rest) + (if Writer(a) then {KeyOf(a)} else {})
      && PutKeys(left) == PutKeys(rest) + (if a.Put? then {a.card.key} else {})
      && MarkKeys(left) == MarkKeys(rest) + (if a.Mark? then {a.key} else {})
      && Reported(left) == Reported(rest) + (if a.Report? then {a.series} else {})
  {
    var rest := left - multiset{a};
    assert forall x :: x in left <==> x == a || x in rest;
  }

  lemma ReplaceKeys(left: multiset<Action>, a: Action, next: seq<Action>)
    requires a in left && |next| <= 1
    ensures
      var rest := left - multiset{a};
      var left' := Replace(left, a, next);
      && (forall x :: x in left' <==> x in rest || x in next)
      && (next == [] ==> left' == rest)
      && (next != [] ==>
          var b := next[0];
          && WriteKeys(left') == WriteKeys(rest) + (if Writer(b) then {KeyOf(b)} else {})
          && PutKeys(left') == PutKeys(rest) + (if b.Put? then {b.card.key} else {})
          && MarkKeys(left') == MarkKeys(rest) + (if b.Mark? then {b.key} else {})
          && Reported(left') == Reported(rest) + (if b.Report? then {b.series} else {}))
  {
    var rest := left - multiset{a};
    if next != [] {
      var left' := Replace(left, a, next);
      assert next == [next[0]];
      assert left' - multiset{next[0]} == rest;
      TakeKeys(left', next[0]);
    }
  }

  lemma ReportKeepsDataInv(all: multiset<Action>, was: Data, left: multiset<Action>, d: Data, a: Action)
    requires DataInv(all, was, left, d) && a in left && (a.Report? || a.Mark?)
    ensures DataInv(all, was, Replace(left, a, []), Perform(0, d, a, 0, 0).0)
  {
    hide WriteKeys, PutKeys, MarkKeys, Reported, Replace;
    TakeKeys(left, a);
    ReplaceKeys(left, a, []);
  }

  lemma WriteKeepsDataInv(all: multiset<Action>, was: Data, left: multiset<Action>, d: Data, a: Action)
    requires DataInv(all, was, left, d) && a in left && (a.Put? || a.Update?)
    ensures DataInv(all, was, Replace(left, a, []), Perform(0, d, a, 0, 0).0)
  {
    hide WriteKeys, PutKeys, MarkKeys, Reported, Replace;
    TakeKeys(left, a);
    ReplaceKeys(left, a, []);
    assert Set(d, a).cards.Keys == d.cards.Keys + {a.card.key};
  }

  lemma MergeKeepsDataInv(all: multiset<Action>, was: Data, left: multiset<Action>, d: Data, a: Action)
    requires DataInv(all, was, left, d) && a in left && a.Merge?
    ensures
      var (d', next) := Perform(0, d, a, 0, 0);
      DataInv(all, was, Replace(left, a, next), d')
  {
    hide WriteKeys, PutKeys, MarkKeys, Reported, Replace;
    TakeKeys(left, a);
    ReplaceKeys(left, a, Perform(0, d, a, 0, 0).1);
    assert KeyOf(Perform(0, d, a, 0, 0).1[0]) == KeyOf(a);
  }

  lemma DueKeepsDataInv(interval: int, all: multiset<Action>, was: Data, left: multiset<Action>, d: Data, a: Action,
                        since: int, now: int)
    requires DataInv(all, was, left, d) && a in left && a.Due?
    ensures
      var (d', next) := Perform(interval, d, a, since, now);
      DataInv(all, was, Replace(left, a, next), d')
  {
    hide WriteKeys, PutKeys, MarkKeys, Reported, Replace;
    var (d', next) := Perform(interval, d, a, since, now);
    TakeKeys(left, a);
    ReplaceKeys(left, a, next);
    assert DueIsSound(a);
    if IsDue(d.memory, interval, a.key, a.override, since) {
      assert next == [Put(a.outcome)];
    } else {
      assert a.key in d.memory.lastPolled.Keys;
      assert PutKeys(left - multiset{a}) <= WriteKeys(left - multiset{a}) by {
        PutsAreWrites(left - multiset{a});
      }
    }
  }

  lemma PutsAreWrites(actions: multiset<Action>)
    ensures PutKeys(actions) <= WriteKeys(actions)
  {
    forall a | a in actions && a.Put? ensures a.card.key in WriteKeys(actions) {
      assert KeyOf(a) == a.card.key;
    }
  }

  lemma ActionKeepsDataInv(interval: int, all: multiset<Action>, was: Data, left: multiset<Action>, d: Data, a: Action,
                           since: int, now: int)
    requires DataInv(all, was, left, d) && a in left
    ensures
      var (d', next) := Perform(interval, d, a, since, now);
      DataInv(all, was, Replace(left, a, next), d')
  {
    hide DataInv, Replace;
    match a
    case Report(_) => ReportKeepsDataInv(all, was, left, d, a);
    case Mark(_) => ReportKeepsDataInv(all, was, left, d, a);
    case Due(_, _, _, _) => DueKeepsDataInv(interval, all, was, left, d, a, since, now);
    case Put(_) => WriteKeepsDataInv(all, was, left, d, a);
    case Merge(_) => MergeKeepsDataInv(all, was, left, d, a);
    case Update(_) => WriteKeepsDataInv(all, was, left, d, a);
  }

  // ---------------------------------------------------------------- whole runs

  lemma DoingLeft(next: seq<Action>)
    requires |next| <= 1
    ensures Left(Doing(next)) == multiset(next)
  {
    if next != [] {
      assert next == [next[0]];
      assert Doing(next)[1..] == [];
    }
  }

  lemma SubmitLeft(interval: int, d: Data, body: Program, since: int, now: int)
    requires body != [] && body[0].Submit?
    ensures
      var (rest, tasks, d') := RunHead(interval, d, body, since, now);
      d' == d && Left(rest) + LeftIn(tasks) == Left(body)
  {
    LeftInOne(body[0].body);
  }

  lemma DoLeft(interval: int, d: Data, body: Program, since: int, now: int)
    requires body != [] && body[0].Do?
    ensures
      var a := body[0].action;
      var (rest, tasks, d') := RunHead(interval, d, body, since, now);
      var (d'', next) := Perform(interval, d, a, since, now);
      && a in Left(body) && tasks == [] && d' == d'' && |next| <= 1
      && Left(rest) == Replace(Left(body), a, next)
  {
    var a := body[0].action;
    var next := Perform(interval, d, a, since, now).1;
    assert |next| <= 1;
    hide Perform;
    var rest := body[1..];
    assert Left(body) == multiset{a} + Left(rest);
    LeftAppend(Doing(next), rest);
    DoingLeft(next);
    hide Left, Doing;
    MoveAction(Left(rest), a, next);
  }

  lemma MoveAction(rest: multiset<Action>, a: Action, next: seq<Action>)
    ensures Replace(multiset{a} + rest, a, next) == multiset(next) + rest
  {
  }

  /** The statement a step runs, if it runs one. */
  function HeadOf(s: Pool, e: Event): Option<Statement>
    requires Enabled(s, e)
  {
    match e
    case MainStep(_, _) => Some(s.main[0])
    case TaskStep(i, _, _) => Some(s.running[i][0])
    case _ => None
  }

  /** The step takes action `a`, wherever it stands; every other step leaves the
      actions that remain as they are. */
  ghost predicate Takes(interval: int, s: Pool, s': Pool, a: Action, since: int, now: int) {
    && a in Remaining(s)
    && Remaining(s') == Replace(Remaining(s), a, Perform(interval, s.data, a, since, now).1)
    && s'.data == Perform(interval, s.data, a, since, now).0
  }

  ghost predicate StepIsUnderstood(interval: int, s: Pool, e: Event)
    requires Enabled(s, e)
  {
    var s' := Next(interval, s, e);
    match HeadOf(s, e)
    case Some(Do(a)) => s'.phase == s.phase && s'.labels == s.labels && Takes(interval, s, s', a, e.since, e.now)
    case _ =>
      && Remaining(s') == Remaining(s)
      && (s'.data == s.data || e.PruneCards? || e.PruneSeries? || e.PruneMemory?)
  }

  /** An action taken from one place is taken from the whole. */
  lemma ReplaceInPlace(place: multiset<Action>, others: multiset<Action>, a: Action, next: seq<Action>)
    requires a in place
    ensures Replace(place, a, next) + others == Replace(place + others, a, next)
  {
  }

  /** Running the head of `body` in the midst of `others`. */
  lemma HeadIsUnderstood(interval: int, s: Pool, s': Pool, body: Program, others: multiset<Action>, since: int,
                         now: int)
    requires body != []
    requires Remaining(s) == Left(body) + others
    requires
      var (rest, tasks, d) := RunHead(interval, s.data, body, since, now);
      s'.data == d && Remaining(s') == Left(rest) + LeftIn(tasks) + others
    ensures body[0].Submit? ==> Remaining(s') == Remaining(s) && s'.data == s.data
    ensures body[0].Do? ==> Takes(interval, s, s', body[0].action, since, now)
  {
    hide Left, RunHead, Perform, Replace, Remaining;
    if body[0].Submit? {
      SubmitLeft(interval, s.data, body, since, now);
    } else {
      var a := body[0].action;
      DoLeft(interval, s.data, body, since, now);
      ReplaceInPlace(Left(body), others, a, Perform(interval, s.data, a, since, now).1);
    }
  }

  lemma MainStepIsUnderstood(interval: int, s: Pool, e: Event)
    requires Enabled(s, e) && e.MainStep?
    ensures StepIsUnderstood(interval, s, e)
  {
    hide Left, LeftIn, RunHead, Perform, Replace, Takes;
    LeftInAppend(s.waiting, RunHead(interval, s.data, s.main, e.since, e.now).1);
    HeadIsUnderstood(interval, s, Next(interval, s, e), s.main, LeftIn(s.waiting) + LeftIn(s.running), e.since, e.now);
  }

  lemma TaskStepIsUnderstood(interval: int, s: Pool, e: Event)
    requires Enabled(s, e) && e.TaskStep?
    ensures StepIsUnderstood(interval, s, e)
  {
    hide Left, LeftIn, RunHead, Perform, Replace, Takes;
    var body := s.running[e.i];
    var (rest, tasks, d) := RunHead(interval, s.data, body, e.since, e.now);
    LeftInAppend(s.waiting, tasks);
    LeftInUpdate(s.running, e.i, rest);
    var others := Left(s.main) + LeftIn(s.waiting) + (LeftIn(s.running) - Left(body));
    HeadIsUnderstood(interval, s, Next(interval, s, e), body, others, e.since, e.now);
  }

  lemma EveryStepIsUnderstood(interval: int, s: Pool, e: Event)
    requires Enabled(s, e)
    ensures StepIsUnderstood(interval, s, e)
  {
    match e
    case MainStep(_, _) => MainStepIsUnderstood(interval, s, e);
    case TaskStep(_, _, _) => TaskStepIsUnderstood(interval, s, e);
    case Start(i) =>
      LeftInWithout(s.waiting, i);
      LeftInAppend(s.running, [s.waiting[i]]);
      LeftInOne(s.waiting[i]);
    case Release(i) =>
      LeftInWithout(s.running, i);
    case Leave =>
    case Wait =>
    case PruneCards =>
    case PruneSeries =>
    case PruneMemory =>
  }

  /** The data as the last task left it. */
  function Settled(s: Pool): Data {
    if s.phase == Polling then s.data else s.phase.at
  }

  /** How far the main goroutine has got with pruning. */
  ghost predicate PhaseInv(labels: set<string>, s: Pool) {
    var d := Settled(s);
    var cards := d.(cards := Pruned(d.cards, d.keep));
    var series := cards.(exported := d.exported - Stale(labels, Keys(d.recorded)));
    match s.phase
    case Polling => s.labels == labels
    case Waited(_) => s.data == d && s.labels == labels
    case CardsPruned(_) => s.data == cards && s.labels == labels
    case SeriesPruned(_) => s.data == series && s.labels == Keys(d.recorded)
    case Finished(_) => s.data == series.(memory := Forget(d.memory, d.keep)) && s.labels == Keys(d.recorded)
  }

  /** `first` is the pool at the start of the cycle. */
  ghost predicate Inv(first: Pool, s: Pool) {
    && PoolInv(s, Tasks(first.main))
    && PhaseInv(first.labels, s)
    && DataInv(Left(first.main), first.data, Remaining(s), Settled(s))
  }

  lemma PoolIsEmpty(s: Pool, total: nat)
    requires PoolInv(s, total) && s.wg == 0 && s.main == []
    ensures Remaining(s) == multiset{}
  {
  }

  lemma RunningMeansPolling(s: Pool, e: Event, total: nat)
    requires PoolInv(s, total) && Enabled(s, e) && (e.MainStep? || e.TaskStep?)
    ensures s.phase == Polling
  {
  }

  lemma StepKeepsPhaseInv(interval: int, labels: set<string>, s: Pool, e: Event)
    requires PhaseInv(labels, s) && Enabled(s, e)
    requires e.MainStep? || e.TaskStep? ==> s.phase == Polling
    ensures PhaseInv(labels, Next(interval, s, e))
    ensures Settled(Next(interval, s, e)) ==
      if e.MainStep? || e.TaskStep? then Next(interval, s, e).data else Settled(s)
    ensures e.MainStep? || e.TaskStep? ==> Settled(s) == s.data
  {
    hide RunHead, Pruned, Stale, Keys, Forget;
  }

  lemma StepKeepsDataInv(interval: int, all: multiset<Action>, was: Data, s: Pool, e: Event)
    requires Enabled(s, e) && StepIsUnderstood(interval, s, e)
    requires DataInv(all, was, Remaining(s), Settled(s))
    requires
      var d, d' := Settled(s), Settled(Next(interval, s, e));
      if e.MainStep? || e.TaskStep? then d == s.data && d' == Next(interval, s, e).data else d' == d
    ensures DataInv(all, was, Remaining(Next(interval, s, e)), Settled(Next(interval, s, e)))
  {
    hide DataInv, Remaining, Next, Perform, Replace, Settled;
    match HeadOf(s, e)
    case Some(Do(a)) => ActionKeepsDataInv(interval, all, was, Remaining(s), s.data, a, e.since, e.now);
    case _ =>
  }

  lemma StepKeepsInv(interval: int, first: Pool, s: Pool, e: Event)
    requires Inv(first, s) && Enabled(s, e)
    ensures Inv(first, Next(interval, s, e))
  {
    hide PoolInv, PhaseInv, DataInv, Remaining, Settled, Next, Left, Tasks, StepIsUnderstood, Enabled;
    StepKeepsPoolInv(interval, s, e, Tasks(first.main));
    EveryStepIsUnderstood(interval, s, e);
    if e.MainStep? || e.TaskStep? {
      RunningMeansPolling(s, e, Tasks(first.main));
    }
    StepKeepsPhaseInv(interval, first.labels, s, e);
    StepKeepsDataInv(interval, Left(first.main), first.data, s, e);
  }

  /** The events can happen one after the other. */
  ghost predicate Runs(interval: int, s: Pool, events: seq<Event>)
    decreases |events|
  {
    events == [] || (Enabled(s, events[0]) && Runs(interval, Next(interval, s, events[0]), events[1..]))
  }

  ghost function End(interval: int, s: Pool, events: seq<Event>): Pool
    requires Runs(interval, s, events)
    decreases |events|
  {
    if events == [] then s else End(interval, Next(interval, s, events[0]), events[1..])
  }

  /** The pool at the start of a cycle. */
  function First(main: Program, labels: set<string>, exported: set<Series>, cards: Cards, memory: Memory): Pool {
    Pool(main, [], [], 0, 0, 0, 0, labels, Data({}, {}, exported, cards, memory, {}, {}, []), Polling)
  }

  /** What one cycle hands to the next: every remembered poll time has its card. */
  ghost predicate Boundary(cards: Cards, memory: Memory) {
    Keyed(cards) && memory.lastPolled.Keys <= cards.Keys
  }

  ghost predicate Begins(s: Pool) {
    && s == First(s.main, s.labels, s.data.exported, s.data.cards, s.data.memory)
    && Boundary(s.data.cards, s.data.memory)
    && Sound(Left(s.main))
  }

  lemma FirstKeepsInv(first: Pool)
    requires Begins(first)
    ensures Inv(first, first)
  {
    assert Remaining(first) == Left(first.main);
  }

  lemma {:induction false} RunKeepsInv(interval: int, first: Pool, s: Pool, events: seq<Event>)
    requires Inv(first, s) && Runs(interval, s, events)
    ensures Inv(first, End(interval, s, events))
    decreases |events|
  {
    hide Inv, Enabled, Next;
    if events != [] {
      StepKeepsInv(interval, first, s, events[0]);
      RunKeepsInv(interval, first, Next(interval, s, events[0]), events[1..]);
    }
  }

  // ------------------------------------------------------------ what it all gives

  lemma Reached(interval: int, first: Pool, events: seq<Event>)
    requires Begins(first) && Runs(interval, first, events)
    ensures Inv(first, End(interval, first, events))
  {
    FirstKeepsInv(first);
    RunKeepsInv(interval, first, first, events);
  }

  lemma NothingLeft()
    ensures WriteKeys(multiset{}) == {} && PutKeys(multiset{}) == {} && MarkKeys(multiset{}) == {}
    ensures Reported(multiset{}) == {}
  {
  }

  /** What holds once nothing is left to do. */
  lemma Outcome(all: multiset<Action>, was: Data, d: Data)
    requires Sound(all) && DataInv(all, was, multiset{}, d)
    ensures d.keep == MarkKeys(all) && d.keep <= d.cards.Keys
    ensures d.written + d.skipped <= d.keep
    ensures d.memory.lastPolled.Keys <= d.cards.Keys
    ensures d.recorded == Reported(all) && d.exported == was.exported + d.recorded
    ensures Keyed(d.cards)
  {
    hide WriteKeys, PutKeys, MarkKeys, Reported, Keyed;
    NothingLeft();
  }

  /** Never more than eight bodies run at once, and as long as fewer do, a waiting task can
      start. When the wait returns every task, however deeply submitted, has finished:
      nothing is left of any body. */
  lemma WaitMeansDone(interval: int, first: Pool, events: seq<Event>)
    requires Begins(first) && Runs(interval, first, events)
    ensures
      var s := End(interval, first, events);
      && |s.running| <= 8
      && (Enabled(s, Start(0)) <==> s.waiting != [] && |s.running| < 8)
      && (Enabled(s, Wait) ==>
          && s.waiting == [] && s.running == [] && s.exiting == 0
          && s.finished == Tasks(first.main)
          && s.data.keep == MarkKeys(Left(first.main))
          && s.data.recorded == Reported(Left(first.main)))
  {
    hide DataInv, MarkKeys, Reported, Sound;
    Reached(interval, first, events);
    var s := End(interval, first, events);
    if Enabled(s, Wait) {
      PoolIsEmpty(s, Tasks(first.main));
      Outcome(Left(first.main), first.data, s.data);
    }
  }

  lemma {:induction false} RunUsesSteps(interval: int, s: Pool, events: seq<Event>)
    requires Runs(interval, s, events)
    ensures |events| + StepsLeft(End(interval, s, events)) <= StepsLeft(s)
    decreases |events|
  {
    hide Enabled, Next, StepsLeft;
    if events != [] {
      StepsRunOut(interval, s, events[0]);
      RunUsesSteps(interval, Next(interval, s, events[0]), events[1..]);
    }
  }

  /** Every interleaving ends, within a bound known at its start, and a run that cannot
      go on has finished the cycle: there is no deadlock and no endless cycle. */
  lemma EveryRunFinishes(interval: int, first: Pool, events: seq<Event>)
    requires Begins(first) && Runs(interval, first, events)
    ensures |events| <= StepsLeft(first)
    ensures !End(interval, first, events).phase.Finished? <==> exists e :: Enabled(End(interval, first, events), e)
  {
    hide DataInv, StepsLeft, PhaseInv;
    Reached(interval, first, events);
    RunUsesSteps(interval, first, events);
    var s := End(interval, first, events);
    if s.phase.Finished? {
      forall e ensures !Enabled(s, e) {
      }
    } else {
      NeverStuck(s, Tasks(first.main));
    }
  }

  lemma FinishedOutcome(interval: int, first: Pool, events: seq<Event>)
    requires Begins(first) && Runs(interval, first, events)
    requires End(interval, first, events).phase.Finished?
    ensures
      var s := End(interval, first, events);
      DataInv(Left(first.main), first.data, multiset{}, s.phase.at) && PhaseInv(first.labels, s)
        && Remaining(s) == multiset{}
  {
    hide DataInv, PhaseInv;
    Reached(interval, first, events);
    PoolIsEmpty(End(interval, first, events), Tasks(first.main));
  }

  /** A finished cycle, in whatever order its tasks ran, leaves exactly the cards whose
      keys it marked, every card it stored among them unchanged by the pruning. */
  lemma CardsAreTheKeptOnes(interval: int, first: Pool, events: seq<Event>)
    requires Begins(first) && Runs(interval, first, events)
    requires End(interval, first, events).phase.Finished?
    ensures
      var s := End(interval, first, events);
      && s.data.cards.Keys == s.data.keep == MarkKeys(Left(first.main))
      && s.data.written + s.data.skipped <= s.data.keep
      && (forall k :: k in s.data.keep ==> k in s.phase.at.cards && s.data.cards[k] == s.phase.at.cards[k])
      && Boundary(s.data.cards, s.data.memory)
      && s.data.memory.warned <= s.data.keep
  {
    hide DataInv, MarkKeys, Sound, Remaining, Stale, Keys, Runs, End;
    FinishedOutcome(interval, first, events);
    Outcome(Left(first.main), first.data, End(interval, first, events).phase.at);
  }

  /** And the metrics: the labels are those of the series reported in this cycle, the
      stale ones of the cycle before are unexported. */
  lemma SeriesAreTheReportedOnes(interval: int, first: Pool, events: seq<Event>)
    requires Begins(first) && Runs(interval, first, events)
    requires End(interval, first, events).phase.Finished?
    ensures
      var s := End(interval, first, events);
      var reported := Reported(Left(first.main));
      && s.labels == Keys(reported)
      && s.data.exported == (first.data.exported + reported) - Stale(first.labels, Keys(reported))
  {
    hide DataInv, MarkKeys, Reported, Sound, Remaining, Stale, Keys, Runs, End, Boundary;
    FinishedOutcome(interval, first, events);
    Outcome(Left(first.main), first.data, End(interval, first, events).phase.at);
  }
}
