/** Does the watch machinery ever come to rest?

    A status write is itself a change of the object, so every write queues its own object
    again, and a Dashboard event queues every object it concerns. Here it is shown that
    this dies down: without new edits and without faults, only so many steps are possible,
    in whatever order they are taken, as long as a reconcile does not keep starting on an
    object whose latest version the cache has yet to see. When no step is left, every
    verdict is right. */
module WatchDrain {
  import opened ApiCall
  import opened Ordering
  import opened WatchCoverage

  // ------------------------------------------------------------ undisturbed runs

  /** A step of the machinery itself that succeeds and does something. */
  ghost predicate Productive(s: System, e: Event) {
    match e
    case DeliverDashboard => s.dashboardEvents != []
    case DeliverObject => s.objectEvents != []
    case NoticeDashboard => s.dashboardNotices != []
    case NoticeObject => s.objectNotices != []
    case Begin(name, readable) => readable && s.active.None? && name in s.queue
    case Look(readable) => readable && s.active.Some? && s.active.value.verdict.None?
    case Finish(fate) => fate.Applied? && s.active.Some? && s.active.value.verdict.Some?
    case _ => false
  }

  /** A reconcile that starts on an object while news of it is still on the way. */
  ghost predicate Hasty(s: System, e: Event) {
    e.Begin? && ObjectEventPending(s, e.name)
  }

  ghost predicate Runs(s: System, run: seq<Event>)
    decreases |run|
  {
    run != [] ==> Productive(s, run[0]) && Runs(Step(s, run[0]), run[1..])
  }

  function End(s: System, run: seq<Event>): System
    decreases |run|
  {
    if run == [] then s else End(Step(s, run[0]), run[1..])
  }

  ghost function HastyStarts(s: System, run: seq<Event>): nat
    decreases |run|
  {
    if run == [] then 0
    else (if Hasty(s, run[0]) then 1 else 0) + HastyStarts(Step(s, run[0]), run[1..])
  }

  // --------------------------------------------------------------- the potential

  /** All the objects that the steps below can be about. */
  ghost predicate Covers(s: System, names: set<string>) {
    && s.objects.Keys <= names && s.objectCache.Keys <= names
    && forall i :: 0 <= i < |s.objectEvents| ==> s.objectEvents[i].name in names
  }

  /** The objects whose verdict is not what the cached Dashboards call for. */
  function Outdated(objects: Objects, dashboards: set<string>): set<string> {
    set n | n in objects && objects[n].verdict != Some(Verdict(objects[n], dashboards))
  }

  /** The verdict about to be written is not what the cached Dashboards call for. */
  predicate Odd(s: System) {
    && s.active.Some? && s.active.value.verdict.Some?
    && s.active.value.verdict != Some(Verdict(s.active.value.read, s.dashboardCache))
  }

  /** The object has changed since the reconcile read it, so the write will be refused. */
  predicate Overtaken(s: System) {
    && s.active.Some?
    && var a := s.active.value;
       a.name !in s.objects || s.objects[a.name].version != a.read.version
  }

  function ActivePart(s: System): nat {
    (if s.active.None? then 0 else if s.active.value.verdict.None? then 2 else 1)
    + (if Odd(s) then 10 else 0)
    + (if Overtaken(s) then 3 else 0)
  }

  /** What is still to be done, with at most `n` objects: a pending event weighs as much as
      all the work it can lead to. */
  function Potential(s: System, n: nat): nat {
    (8 * n + 12) * |s.dashboardEvents| + (3 * n + 1) * |s.dashboardNotices|
    + 5 * |s.objectEvents| + 4 * |s.objectNotices| + 3 * |s.queue|
    + 5 * |Outdated(s.objects, s.dashboardCache)| + ActivePart(s)
  }

  // ----------------------------------------------------------------- every step

  lemma OneLess(a: nat, k: nat)
    requires k > 0
    ensures a * k == a * (k - 1) + a
  {
  }

  lemma OneMore(a: nat, k: nat)
    ensures a * (k + 1) == a * k + a
  {
  }

  lemma {:induction false} SubsetIsSmaller<T>(a: set<T>, b: set<T>)
    requires a <= b
    ensures |a| <= |b|
    decreases a
  {
    if x :| x in a {
      SubsetIsSmaller(a - {x}, b - {x});
    }
  }

  lemma UnionSize<T>(a: set<T>, b: set<T>)
    ensures |a + b| <= |a| + |b|
  {
    assert a + b == a + (b - a);
    SubsetIsSmaller(b - a, b);
  }

  lemma DeliverDashboardLowers(s: System, names: set<string>)
    requires Covers(s, names) && s.dashboardEvents != []
    ensures Potential(Step(s, DeliverDashboard), |names|) < Potential(s, |names|)
  {
    var t, n := Step(s, DeliverDashboard), |names|;
    OneLess(8 * n + 12, |s.dashboardEvents|);
    OneMore(3 * n + 1, |s.dashboardNotices|);
    SubsetIsSmaller(Outdated(t.objects, t.dashboardCache), names);
    hide Verdict, Outdated;
  }

  lemma SameActive(s: System, t: System)
    requires t.active == s.active && t.objects == s.objects && t.dashboardCache == s.dashboardCache
    ensures ActivePart(t) == ActivePart(s)
  {
    hide Verdict;
  }

  lemma NoticeDashboardLowers(s: System, names: set<string>)
    requires Covers(s, names) && s.dashboardNotices != []
    ensures Potential(Step(s, NoticeDashboard), |names|) < Potential(s, |names|)
  {
    OneLess(3 * |names| + 1, |s.dashboardNotices|);
    var affected := Affected(s.objectCache, s.dashboardNotices[0]);
    SubsetIsSmaller(affected, names);
    UnionSize(s.queue, affected);
    hide Verdict, Outdated, Affected, Covers, ActivePart;
    SameActive(s, Step(s, NoticeDashboard));
  }

  lemma DeliverObjectLowers(s: System, n: nat)
    requires s.objectEvents != []
    ensures Potential(Step(s, DeliverObject), n) < Potential(s, n)
  {
    hide Verdict, Outdated;
  }

  lemma NoticeObjectLowers(s: System, n: nat)
    requires s.objectNotices != []
    ensures Potential(Step(s, NoticeObject), n) < Potential(s, n)
  {
    UnionSize(s.queue, {s.objectNotices[0]});
    hide Verdict, Outdated;
  }

  lemma BeginLowers(s: System, name: string, n: nat)
    requires Inv(s) && s.active.None? && name in s.queue
    ensures
      var t := Step(s, Begin(name, true));
      if Hasty(s, Begin(name, true)) then Potential(t, n) <= Potential(s, n) + 2 else Potential(t, n) < Potential(s, n)
  {
    if !ObjectEventPending(s, name) {
      UntouchedIsCached(s.objectCache, s.objectEvents, name);
    }
    assert |s.queue - {name}| == |s.queue| - 1;
    hide Verdict, Outdated;
  }

  lemma LookLowers(s: System, n: nat)
    requires s.active.Some? && s.active.value.verdict.None?
    ensures Potential(Step(s, Look(true)), n) < Potential(s, n)
  {
    hide Verdict, Outdated;
  }

  /** A write changes whether one object is outdated, and no other. */
  lemma WriteAndOutdated(objects: Objects, o: Object, name: string, dashboards: set<string>)
    requires name in objects && o.ref == objects[name].ref && o.valid == objects[name].valid
    ensures
      var before, after := Outdated(objects, dashboards), Outdated(objects[name := o], dashboards);
      && |after| <= |before| + 1
      && (name in before && o.verdict == Some(Verdict(o, dashboards)) ==> |after| < |before|)
  {
    var before, after := Outdated(objects, dashboards), Outdated(objects[name := o], dashboards);
    UnionSize(before, {name});
    SubsetIsSmaller(after, before + {name});
    if name in before && o.verdict == Some(Verdict(o, dashboards)) {
      assert |before - {name}| == |before| - 1;
      SubsetIsSmaller(after, before - {name});
    }
  }

  lemma FinishLowers(s: System, n: nat)
    requires Inv(s) && s.active.Some? && s.active.value.verdict.Some?
    ensures Potential(Step(s, Finish(Applied)), n) < Potential(s, n)
  {
    var a := s.active.value;
    if Overtaken(s) {
      UnionSize(s.queue, {a.name});
    } else {
      var o := s.objects[a.name].(verdict := a.verdict, version := s.nextVersion);
      assert Agrees(s, a.name, a.read);
      WriteAndOutdated(s.objects, o, a.name, s.dashboardCache);
    }
    hide Inv, Verdict;
  }

  lemma StepLowers(s: System, e: Event, names: set<string>)
    requires Inv(s) && Covers(s, names) && Productive(s, e)
    ensures
      var t, n := Step(s, e), |names|;
      if Hasty(s, e) then Potential(t, n) <= Potential(s, n) + 2 else Potential(t, n) < Potential(s, n)
  {
    hide Inv, Covers, Potential, Step, ObjectEventPending;
    match e
    case DeliverDashboard => DeliverDashboardLowers(s, names);
    case DeliverObject => DeliverObjectLowers(s, |names|);
    case NoticeDashboard => NoticeDashboardLowers(s, names);
    case NoticeObject => NoticeObjectLowers(s, |names|);
    case Begin(name, _) => BeginLowers(s, name, |names|);
    case Look(_) => LookLowers(s, |names|);
    case Finish(_) => FinishLowers(s, |names|);
  }

  lemma StepStaysCovered(s: System, e: Event, names: set<string>)
    requires Covers(s, names) && Productive(s, e)
    ensures Covers(Step(s, e), names)
  {
    hide Verdict, Affected;
  }

  // ------------------------------------------------------------------ the results

  /** From every reachable state, an undisturbed run has only so many steps, whatever
      their order: at most the potential of the state, and three for every reconcile that
      started too early. */
  lemma {:induction false} RunsAreBounded(s: System, run: seq<Event>, names: set<string>)
    requires Inv(s) && Covers(s, names) && Runs(s, run)
    ensures Inv(End(s, run))
    ensures |run| + Potential(End(s, run), |names|) <= Potential(s, |names|) + 3 * HastyStarts(s, run)
    decreases |run|
  {
    hide Inv, Covers, Potential, Step, Productive, Hasty;
    if run != [] {
      StepKeepsInv(s, run[0]);
      StepStaysCovered(s, run[0], names);
      StepLowers(s, run[0], names);
      RunsAreBounded(Step(s, run[0]), run[1..], names);
    }
  }

  /** Short of rest there is always a step to take that is not hasty. */
  lemma SomethingToDo(s: System) returns (e: Event)
    requires !AtRest(s)
    ensures Productive(s, e) && !Hasty(s, e)
  {
    if s.dashboardEvents != [] {
      e := DeliverDashboard;
    } else if s.objectEvents != [] {
      e := DeliverObject;
    } else if s.dashboardNotices != [] {
      e := NoticeDashboard;
    } else if s.objectNotices != [] {
      e := NoticeObject;
    } else if s.active.Some? {
      e := if s.active.value.verdict.None? then Look(true) else Finish(Applied);
    } else {
      var name :| name in s.queue;
      e := Begin(name, true);
    }
  }

  /** Where an undisturbed run cannot go on, every verdict is the right one. */
  lemma StuckOnlyAtRest(s: System)
    requires Inv(s)
    ensures (forall e :: !Productive(s, e)) <==> AtRest(s)
    ensures AtRest(s) ==> VerdictsAreRight(s)
  {
    if AtRest(s) {
      RestIsRight(s);
    } else {
      var e := SomethingToDo(s);
    }
  }

  /** From every reachable state, an undisturbed run in which no reconcile starts before
      the cache has caught up with its object ends after at most so many steps, and where
      it cannot go on, all is delivered, nothing is queued, and every verdict is right. */
  lemma {:induction false} ComesToRest(history: seq<Event>, run: seq<Event>, names: set<string>)
    requires
      var s := Exec(history);
      Covers(s, names) && Runs(s, run) && HastyStarts(s, run) == 0
    ensures
      var s, t := Exec(history), End(Exec(history), run);
      && |run| <= Potential(s, |names|)
      && ((forall e :: !Productive(t, e)) ==> AtRest(t) && VerdictsAreRight(t))
  {
    RunKeepsInv(history);
    hide Inv, Covers, Potential, Productive, AtRest, Runs, HastyStarts, End, VerdictsAreRight;
    RunsAreBounded(Exec(history), run, names);
    StuckOnlyAtRest(End(Exec(history), run));
  }

  /** And there is such a run. */
  lemma {:induction false} RestIsReached(s: System, names: set<string>) returns (run: seq<Event>)
    requires Inv(s) && Covers(s, names)
    ensures Runs(s, run) && HastyStarts(s, run) == 0 && AtRest(End(s, run))
    decreases Potential(s, |names|)
  {
    hide Inv, Covers, Potential, Step, Productive, Hasty, AtRest;
    if AtRest(s) {
      run := [];
    } else {
      var e := SomethingToDo(s);
      StepKeepsInv(s, e);
      StepStaysCovered(s, e, names);
      StepLowers(s, e, names);
      var rest := RestIsReached(Step(s, e), names);
      run := [e] + rest;
      assert run[1..] == rest;
    }
  }

  lemma StepKeepsCluster(s: System, e: Event, c: Cluster)
    requires Shows(s, c) && Productive(s, e)
    ensures Shows(Step(s, e), c)
  {
    hide Verdict, ApplyDashboard, Affected;
  }

  /** The machinery edits nothing. */
  lemma {:induction false} RunKeepsCluster(s: System, run: seq<Event>, c: Cluster)
    requires Shows(s, c) && Runs(s, run)
    ensures Shows(End(s, run), c)
    decreases |run|
  {
    hide Shows, Step, Productive;
    if run != [] {
      StepKeepsCluster(s, run[0], c);
      RunKeepsCluster(Step(s, run[0]), run[1..], c);
    }
  }

  lemma {:induction false} UndisturbedKeepsInv(s: System, run: seq<Event>)
    requires Inv(s) && Runs(s, run)
    ensures Inv(End(s, run))
    decreases |run|
  {
    hide Inv, Step, Productive;
    if run != [] {
      StepKeepsInv(s, run[0]);
      UndisturbedKeepsInv(Step(s, run[0]), run[1..]);
    }
  }

  /** Whatever happened before: whatever cluster users want next, they can make, and from
      there the controller alone brings everything to rest, with the right verdict on each
      of exactly these objects, for exactly these Dashboards. */
  lemma EveryClusterSettles(history: seq<Event>, c: Cluster) returns (edits: seq<Event>, run: seq<Event>)
    requires "" !in c.dashboards
    ensures forall e :: e in edits ==> IsEdit(e)
    ensures
      var s := Exec(history + edits);
      && Runs(s, run) && AtRest(End(s, run)) && Shows(End(s, run), c)
      && forall n :: n in c.objects ==>
           var o := End(s, run).objects[n];
           o.verdict.Some? && IsRight(o.verdict.value, o, c.dashboards)
  {
    edits := AnyClusterCanBeMade(history, c);
    var s := Exec(history + edits);
    RunKeepsInv(history + edits);
    var names := s.objects.Keys + s.objectCache.Keys + set i | 0 <= i < |s.objectEvents| :: s.objectEvents[i].name;
    assert Covers(s, names);
    hide Inv, Covers, Step, Productive, Hasty, AtRest, Runs, IsRight;
    run := RestIsReached(s, names);
    RunKeepsCluster(s, run, c);
    UndisturbedKeepsInv(s, run);
    RestIsRight(End(s, run));
  }
}
