/** Do the config controllers ever sit on a wrong verdict?

    A config object's Available verdict depends on the object and on which
    Dashboards exist. The controller sees both only through watch events, which
    arrive late, reads both from a cache that may lag, may be interrupted between
    reading and writing, and learns which objects a Dashboard event concerns from
    two indexed lookups. The state below is one namespace with all of that; a run
    is any sequence of events. */
module WatchCoverage {
  import opened ApiCall
  import opened Ordering
  import opened Binding

  /** `valid`: every widget of the object has the config keys its type requires. */
  datatype Object = Object(ref: string, valid: bool, version: nat, verdict: Option<Condition>)

  type Objects = map<string, Object>

  datatype DashboardChange = Created(name: string) | Updated(name: string) | Deleted(name: string)

  datatype ObjectChange = ObjectChange(name: string, now: Option<Object>)

  /** A reconcile under way: it has read the object, then the Dashboards, and will write
      the verdict. */
  datatype Active = Active(name: string, read: Object, verdict: Option<Condition>)

  datatype System = System(
    dashboards: set<string>,
    objects: Objects,
    nextVersion: nat,
    dashboardCache: set<string>,
    objectCache: Objects,
    dashboardEvents: seq<DashboardChange>,     // not yet in the cache, oldest first
    objectEvents: seq<ObjectChange>,
    dashboardNotices: seq<string>,             // in the cache, not yet handled
    objectNotices: seq<string>,
    queue: set<string>,
    active: Option<Active>)

  datatype Event =
    | CreateDashboard(name: string)
    | UpdateDashboard(name: string)
    | DeleteDashboard(name: string)
    | PutObject(name: string, ref: string, valid: bool)    // create, or edit the spec
    | DeleteObject(name: string)
    | DeliverDashboard                                     // the cache takes an event in
    | DeliverObject
    | NoticeDashboard                                      // the handler queues what it concerns
    | NoticeObject
    | Begin(name: string, readable: bool)                  // read the object
    | Look(readable: bool)                                 // read the Dashboards
    | Finish(fate: Fate)
    | Restart                                              // new process: relist everything

  // ------------------------------------------------------------ the verdict

  /** What `Reconcile` stores: the binding condition, overridden by an invalid widget config. */
  function Verdict(o: Object, dashboards: set<string>): Condition {
    var bound := BoundDashboardCondition(dashboards, o.ref);
    if bound.available && !o.valid then Condition(false, InvalidWidgetConfig) else bound
  }

  /** A Dashboard event concerns the objects that name it and those that name none. */
  predicate Concerns(dashboard: string, ref: string) {
    ref == dashboard || ref == ""
  }

  function Affected(cache: Objects, dashboard: string): set<string> {
    set n | n in cache && Concerns(dashboard, cache[n].ref)
  }

  /** The field index: the cached objects with this dashboardRef, in any order. */
  method ListByRef(cache: Objects, ref: string) returns (names: seq<string>)
    ensures Elems(names) == set n | n in cache && cache[n].ref == ref
    ensures Distinct(names)
  {
    names := [];
    var todo := cache.Keys;
    while todo != {}
      invariant todo <= cache.Keys
      invariant Elems(names) == set n | n in cache.Keys - todo && cache[n].ref == ref
      invariant Distinct(names)
      decreases todo
    {
      var n :| n in todo;
      if cache[n].ref == ref {
        assert n !in Elems(names);
        assert Elems(names + [n]) == Elems(names) + {n};
        names := names + [n];
      }
      todo := todo - {n};
    }
  }

  /** `mapDashboardToRequests`: two lookups, appended. Every affected object is
      requested, once, and nothing else is. */
  method MapDashboardToRequests(cache: Objects, dashboard: string) returns (requests: seq<string>)
    requires dashboard != ""
    ensures Elems(requests) == Affected(cache, dashboard)
    ensures Distinct(requests)
  {
    requests := [];
    var refs := [dashboard, ""];
    for i := 0 to |refs|
      invariant Elems(requests) == set n | n in cache
        && ((i > 0 && cache[n].ref == dashboard) || (i > 1 && cache[n].ref == ""))
      invariant Distinct(requests)
    {
      var names := ListByRef(cache, refs[i]);
      DistinctAppend(requests, names);
      requests := requests + names;
    }
  }

  lemma DistinctAppend(a: seq<string>, b: seq<string>)
    requires Distinct(a) && Distinct(b) && Elems(a) !! Elems(b)
    ensures Distinct(a + b)
    ensures Elems(a + b) == Elems(a) + Elems(b)
  {
    forall i, j | 0 <= i < |a| && 0 <= j < |b| ensures a[i] != b[j] {
      assert a[i] in Elems(a) && b[j] in Elems(b);
    }
  }

  // --------------------------------------------------------------- the steps

  function ApplyDashboard(dashboards: set<string>, e: DashboardChange): set<string> {
    match e
    case Created(name) => dashboards + {name}
    case Updated(name) => dashboards
    case Deleted(name) => dashboards - {name}
  }

  function ApplyDashboards(dashboards: set<string>, events: seq<DashboardChange>): set<string>
    decreases |events|
  {
    if events == [] then dashboards
    else ApplyDashboard(ApplyDashboards(dashboards, events[..|events| - 1]), events[|events| - 1])
  }

  function ApplyObject(objects: Objects, e: ObjectChange): Objects {
    if e.now.Some? then objects[e.name := e.now.value] else objects - {e.name}
  }

  function ApplyObjects(objects: Objects, events: seq<ObjectChange>): Objects
    decreases |events|
  {
    if events == [] then objects
    else ApplyObject(ApplyObjects(objects, events[..|events| - 1]), events[|events| - 1])
  }

  function ChangeDashboards(s: System, e: DashboardChange): System {
    s.(dashboards := ApplyDashboard(s.dashboards, e), dashboardEvents := s.dashboardEvents + [e])
  }

  function ChangeObject(s: System, e: ObjectChange): System {
    s.(objects := ApplyObject(s.objects, e), objectEvents := s.objectEvents + [e], nextVersion := s.nextVersion + 1)
  }

  function BeginStep(s: System, name: string, readable: bool): System {
    if s.active.Some? || name !in s.queue || !readable then s      // a failed read is requeued
    else if name !in s.objectCache then s.(queue := s.queue - {name})
    else s.(queue := s.queue - {name}, active := Some(Active(name, s.objectCache[name], None)))
  }

  function LookStep(s: System, readable: bool): System {
    if s.active.None? || s.active.value.verdict.Some? then s
    else
      var a := s.active.value;
      if !readable then s.(queue := s.queue + {a.name}, active := None)
      else s.(active := Some(a.(verdict := Some(Verdict(a.read, s.dashboardCache)))))
  }

  /** The status write: refused unless the object is still at the version that was
      read; any error puts the object back into the queue. */
  function FinishStep(s: System, fate: Fate): System {
    if s.active.None? || s.active.value.verdict.None? then s
    else
      var a, done := s.active.value, s.(active := None);
      var requeued := done.(queue := s.queue + {a.name});
      if fate.Failed? || a.name !in s.objects || s.objects[a.name].version != a.read.version then requeued
      else
        var o := s.objects[a.name].(verdict := a.verdict, version := s.nextVersion);
        var base := if fate.Applied? then done else requeued;
        if s.objects[a.name].verdict == a.verdict then base
        else ChangeObject(base, ObjectChange(a.name, Some(o)))
  }

  function Step(s: System, e: Event): System {
    match e
    case CreateDashboard(name) =>
      if name == "" || name in s.dashboards then s else ChangeDashboards(s, Created(name))
    case UpdateDashboard(name) => if name in s.dashboards then ChangeDashboards(s, Updated(name)) else s
    case DeleteDashboard(name) => if name in s.dashboards then ChangeDashboards(s, Deleted(name)) else s
    case PutObject(name, ref, valid) =>
      var verdict := if name in s.objects then s.objects[name].verdict else None;
      ChangeObject(s, ObjectChange(name, Some(Object(ref, valid, s.nextVersion, verdict))))
    case DeleteObject(name) => if name in s.objects then ChangeObject(s, ObjectChange(name, None)) else s
    case DeliverDashboard =>
      if s.dashboardEvents == [] then s
      else
        var e := s.dashboardEvents[0];
        s.(dashboardEvents := s.dashboardEvents[1..],
           dashboardCache := ApplyDashboard(s.dashboardCache, e),
           dashboardNotices := s.dashboardNotices + [e.name])
    case DeliverObject =>
      if s.objectEvents == [] then s
      else
        var e := s.objectEvents[0];
        s.(objectEvents := s.objectEvents[1..],
           objectCache := ApplyObject(s.objectCache, e),
           objectNotices := s.objectNotices + [e.name])
    case NoticeDashboard =>
      if s.dashboardNotices == [] then s
      else
        s.(dashboardNotices := s.dashboardNotices[1..],
           queue := s.queue + Affected(s.objectCache, s.dashboardNotices[0]))
    case NoticeObject =>
      if s.objectNotices == [] then s
      else s.(objectNotices := s.objectNotices[1..], queue := s.queue + {s.objectNotices[0]})
    case Begin(name, readable) => BeginStep(s, name, readable)
    case Look(readable) => LookStep(s, readable)
    case Finish(fate) => FinishStep(s, fate)
    case Restart =>
      s.(dashboardCache := s.dashboards, objectCache := s.objects, dashboardEvents := [], objectEvents := [],
         dashboardNotices := [], objectNotices := [], queue := s.objects.Keys, active := None)
  }

  function Init(): System {
    System({}, map[], 0, {}, map[], [], [], [], [], {}, None)
  }

  function Exec(run: seq<Event>): System
    decreases |run|
  {
    if run == [] then Init() else Step(Exec(run[..|run| - 1]), run[|run| - 1])
  }

  // ----------------------------------------------------------- the invariant

  predicate Stale(s: System, name: string)
    requires name in s.objects
  {
    s.objects[name].verdict != Some(Verdict(s.objects[name], s.dashboards))
  }

  ghost predicate ObjectEventPending(s: System, name: string) {
    exists i :: 0 <= i < |s.objectEvents| && s.objectEvents[i].name == name
  }

  ghost predicate DashboardEventPending(s: System, ref: string) {
    exists i :: 0 <= i < |s.dashboardEvents| && Concerns(s.dashboardEvents[i].name, ref)
  }

  ghost predicate DashboardNoticePending(s: System, ref: string) {
    exists i :: 0 <= i < |s.dashboardNotices| && Concerns(s.dashboardNotices[i], ref)
  }

  /** The object is queued, or an event on its way will queue it. */
  ghost predicate WillBeQueued(s: System, name: string)
    requires name in s.objects
  {
    || name in s.queue
    || name in s.objectNotices
    || ObjectEventPending(s, name)
    || DashboardNoticePending(s, s.objects[name].ref)
    || DashboardEventPending(s, s.objects[name].ref)
  }

  ghost predicate CacheSound(s: System) {
    && s.dashboards == ApplyDashboards(s.dashboardCache, s.dashboardEvents)
    && s.objects == ApplyObjects(s.objectCache, s.objectEvents)
  }

  /** Versions are never reused, so equal versions mean equal specs. */
  ghost predicate Agrees(s: System, name: string, o: Object) {
    && o.version < s.nextVersion
    && (name in s.objects && s.objects[name].version == o.version ==> s.objects[name] == o)
  }

  ghost predicate VersionsSound(s: System) {
    && (forall n :: n in s.objects ==> s.objects[n].version < s.nextVersion)
    && (forall n :: n in s.objectCache ==> Agrees(s, n, s.objectCache[n]))
    && (forall i | 0 <= i < |s.objectEvents| :: s.objectEvents[i].now.Some? ==>
          Agrees(s, s.objectEvents[i].name, s.objectEvents[i].now.value))
    && (s.active.Some? ==> Agrees(s, s.active.value.name, s.active.value.read))
  }

  /** The verdict about to be written is right, or will be refused, or will be redone. */
  ghost predicate ActiveSound(s: System) {
    s.active.Some? && s.active.value.verdict.Some? && s.active.value.name in s.objects ==>
      var a := s.active.value;
      var o := s.objects[a.name];
      || o.version != a.read.version
      || a.verdict == Some(Verdict(o, s.dashboards))
      || WillBeQueued(s, a.name)
  }

  ghost predicate NotForgotten(s: System, n: string)
    requires n in s.objects
  {
    Stale(s, n) ==> WillBeQueued(s, n) || (s.active.Some? && s.active.value.name == n)
  }

  ghost predicate Inv(s: System) {
    && CacheSound(s) && VersionsSound(s) && ActiveSound(s)
    && forall n :: n in s.objects ==> NotForgotten(s, n)
  }

  // ------------------------------------------------------- every step keeps it

  lemma {:induction false} FirstDashboardEvent(dashboards: set<string>, events: seq<DashboardChange>)
    requires events != []
    ensures ApplyDashboards(dashboards, events) == ApplyDashboards(ApplyDashboard(dashboards, events[0]), events[1..])
    decreases |events|
  {
    if |events| > 1 {
      var front := events[..|events| - 1];
      FirstDashboardEvent(dashboards, front);
      assert front[1..] == events[1..][..|events| - 2];
    }
  }

  lemma {:induction false} FirstObjectEvent(objects: Objects, events: seq<ObjectChange>)
    requires events != []
    ensures ApplyObjects(objects, events) == ApplyObjects(ApplyObject(objects, events[0]), events[1..])
    decreases |events|
  {
    if |events| > 1 {
      var front := events[..|events| - 1];
      FirstObjectEvent(objects, front);
      assert front[1..] == events[1..][..|events| - 2];
    }
  }

  /** An object no pending event is about is in the cache as it is on the server. */
  lemma {:induction false} UntouchedIsCached(objects: Objects, events: seq<ObjectChange>, name: string)
    requires forall i :: 0 <= i < |events| ==> events[i].name != name
    ensures name in ApplyObjects(objects, events) <==> name in objects
    ensures name in objects ==> ApplyObjects(objects, events)[name] == objects[name]
    decreases |events|
  {
    if events != [] {
      UntouchedIsCached(objects, events[..|events| - 1], name);
    }
  }

  lemma {:induction false} UntouchedDashboards(dashboards: set<string>, events: seq<DashboardChange>, ref: string)
    requires forall i :: 0 <= i < |events| ==> !Concerns(events[i].name, ref)
    ensures ref in ApplyDashboards(dashboards, events) <==> ref in dashboards
    ensures ref == "" ==> events == []
    decreases |events|
  {
    if events != [] {
      assert !Concerns(events[0].name, ref);
      UntouchedDashboards(dashboards, events[..|events| - 1], ref);
    }
  }

  /** If the cached Dashboards give another verdict than the real ones, an event that explains it is pending. */
  lemma CachedVerdict(s: System, o: Object)
    requires CacheSound(s)
    ensures Verdict(o, s.dashboardCache) == Verdict(o, s.dashboards) || DashboardEventPending(s, o.ref)
  {
    if !DashboardEventPending(s, o.ref) {
      UntouchedDashboards(s.dashboardCache, s.dashboardEvents, o.ref);
    }
  }

  lemma DashboardChangeKeepsQueued(s: System, e: DashboardChange, n: string)
    requires n in s.objects
    ensures var r := ChangeDashboards(s, e);
            && (WillBeQueued(s, n) ==> WillBeQueued(r, n))
            && (Concerns(e.name, s.objects[n].ref) ==> WillBeQueued(r, n))
  {
    var r := ChangeDashboards(s, e);
    assert r.dashboardEvents[|s.dashboardEvents|] == e;
    if i :| 0 <= i < |s.dashboardEvents| && Concerns(s.dashboardEvents[i].name, s.objects[n].ref) {
      assert r.dashboardEvents[i] == s.dashboardEvents[i];
    }
  }

  lemma DashboardChangeKeepsInv(s: System, e: DashboardChange)
    requires Inv(s)
    ensures Inv(ChangeDashboards(s, e))
  {
    hide WillBeQueued, Verdict, Concerns;
    var r := ChangeDashboards(s, e);
    forall n | n in s.objects
      ensures WillBeQueued(s, n) ==> WillBeQueued(r, n)
      ensures Verdict(s.objects[n], s.dashboards) == Verdict(s.objects[n], r.dashboards) || WillBeQueued(r, n)
    {
      DashboardChangeKeepsQueued(s, e, n);
      NewDashboardsNewVerdict(s.objects[n], s.dashboards, e);
    }
    forall n | n in s.objects ensures NotForgotten(r, n) {
      assert NotForgotten(s, n);
    }
  }

  /** The lookups miss nothing: an event that changes an object's verdict concerns the object. */
  lemma NewDashboardsNewVerdict(o: Object, dashboards: set<string>, e: DashboardChange)
    ensures Verdict(o, dashboards) == Verdict(o, ApplyDashboard(dashboards, e)) || Concerns(e.name, o.ref)
  {
  }

  lemma ObjectChangeKeepsQueued(s: System, e: ObjectChange, n: string)
    requires n in ChangeObject(s, e).objects
    ensures n in s.objects && n != e.name && WillBeQueued(s, n) ==> WillBeQueued(ChangeObject(s, e), n)
    ensures n == e.name ==> WillBeQueued(ChangeObject(s, e), n)
  {
    var r := ChangeObject(s, e);
    assert r.objectEvents[|s.objectEvents|] == e;
    if i :| 0 <= i < |s.objectEvents| && s.objectEvents[i].name == n {
      assert r.objectEvents[i] == s.objectEvents[i];
    }
  }

  lemma ObjectChangeKeepsVersions(s: System, e: ObjectChange)
    requires VersionsSound(s)
    requires e.now.Some? ==> e.now.value.version == s.nextVersion
    ensures VersionsSound(ChangeObject(s, e))
  {
    var r := ChangeObject(s, e);
    forall i | 0 <= i < |r.objectEvents| && r.objectEvents[i].now.Some?
      ensures Agrees(r, r.objectEvents[i].name, r.objectEvents[i].now.value)
    {
      if i < |s.objectEvents| {
        assert Agrees(s, s.objectEvents[i].name, s.objectEvents[i].now.value);
      }
    }
  }

  /** An object that just changed has its own event on the way, so nothing need be known about it. */
  lemma ObjectChangeKeepsInv(s: System, e: ObjectChange)
    requires CacheSound(s) && VersionsSound(s) && ActiveSound(s)
    requires forall n :: n in s.objects && n != e.name ==> NotForgotten(s, n)
    requires e.now.Some? ==> e.now.value.version == s.nextVersion
    ensures Inv(ChangeObject(s, e))
  {
    hide WillBeQueued, Verdict, VersionsSound;
    var r := ChangeObject(s, e);
    assert r.objectEvents[..|s.objectEvents|] == s.objectEvents;
    ObjectChangeKeepsVersions(s, e);
    forall n | n in r.objects ensures NotForgotten(r, n) {
      ObjectChangeKeepsQueued(s, e, n);
      if n != e.name { assert NotForgotten(s, n); }
    }
    if s.active.Some? && s.active.value.name in r.objects {
      ObjectChangeKeepsQueued(s, e, s.active.value.name);
    }
  }

  /** What the steps that only move events along have to keep. */
  lemma MovingKeepsInv(s: System, r: System)
    requires Inv(s) && CacheSound(r)
    requires
      r == s.(dashboardCache := r.dashboardCache, objectCache := r.objectCache, dashboardEvents := r.dashboardEvents,
              objectEvents := r.objectEvents, dashboardNotices := r.dashboardNotices,
              objectNotices := r.objectNotices, queue := r.queue)
    requires forall n :: n in s.objects && WillBeQueued(s, n) ==> WillBeQueued(r, n)
    requires forall n :: n in r.objectCache ==> Agrees(s, n, r.objectCache[n])
    requires forall i :: 0 <= i < |r.objectEvents| ==>
      exists j :: 0 <= j < |s.objectEvents| && r.objectEvents[i] == s.objectEvents[j]
    ensures Inv(r)
  {
    hide WillBeQueued, Verdict, CacheSound;
    forall n | n in r.objects ensures NotForgotten(r, n) {
      assert NotForgotten(s, n);
    }
    assert VersionsSound(r) by {
      forall n, o ensures Agrees(r, n, o) <==> Agrees(s, n, o) {
      }
      forall i | 0 <= i < |r.objectEvents| && r.objectEvents[i].now.Some?
        ensures Agrees(r, r.objectEvents[i].name, r.objectEvents[i].now.value)
      {
        var j :| 0 <= j < |s.objectEvents| && r.objectEvents[i] == s.objectEvents[j];
      }
    }
  }

  lemma DeliverDashboardKeepsInv(s: System)
    requires Inv(s)
    ensures Inv(Step(s, DeliverDashboard))
  {
    if s.dashboardEvents != [] {
      var r := Step(s, DeliverDashboard);
      FirstDashboardEvent(s.dashboardCache, s.dashboardEvents);
      forall n | n in s.objects && WillBeQueued(s, n) ensures WillBeQueued(r, n) {
        var ref := s.objects[n].ref;
        if i :| 0 <= i < |s.dashboardNotices| && Concerns(s.dashboardNotices[i], ref) {
          assert r.dashboardNotices[i] == s.dashboardNotices[i];
        }
        if i :| 0 <= i < |s.dashboardEvents| && Concerns(s.dashboardEvents[i].name, ref) {
          if i == 0 {
            assert r.dashboardNotices[|s.dashboardNotices|] == s.dashboardEvents[0].name;
          } else {
            assert r.dashboardEvents[i - 1] == s.dashboardEvents[i];
          }
        }
      }
      MovingKeepsInv(s, r);
    }
  }

  /** By the time a notice is handled, an object it concerns is in the cache as it is on
      the server, or has an event of its own on the way. */
  lemma NoticeDashboardKeepsInv(s: System)
    requires Inv(s)
    ensures Inv(Step(s, NoticeDashboard))
  {
    if s.dashboardNotices != [] {
      var r := Step(s, NoticeDashboard);
      forall n | n in s.objects && WillBeQueued(s, n) ensures WillBeQueued(r, n) {
        if i :| 0 <= i < |s.dashboardNotices| && Concerns(s.dashboardNotices[i], s.objects[n].ref) {
          if i > 0 {
            assert r.dashboardNotices[i - 1] == s.dashboardNotices[i];
          } else if !ObjectEventPending(s, n) {
            UntouchedIsCached(s.objectCache, s.objectEvents, n);
          }
        }
      }
      MovingKeepsInv(s, r);
    }
  }

  lemma DeliverObjectKeepsInv(s: System)
    requires Inv(s)
    ensures Inv(Step(s, DeliverObject))
  {
    if s.objectEvents != [] {
      var r, e := Step(s, DeliverObject), s.objectEvents[0];
      FirstObjectEvent(s.objectCache, s.objectEvents);
      forall n | n in s.objects && WillBeQueued(s, n) ensures WillBeQueued(r, n) {
        if i :| 0 <= i < |s.objectEvents| && s.objectEvents[i].name == n {
          if i == 0 {
            assert r.objectNotices[|s.objectNotices|] == n;
          } else {
            assert r.objectEvents[i - 1] == s.objectEvents[i];
          }
        }
      }
      assert e.now.Some? ==> Agrees(s, e.name, e.now.value);
      forall i | 0 <= i < |r.objectEvents|
        ensures exists j :: 0 <= j < |s.objectEvents| && r.objectEvents[i] == s.objectEvents[j]
      {
        assert r.objectEvents[i] == s.objectEvents[i + 1];
      }
      MovingKeepsInv(s, r);
    }
  }

  lemma NoticeObjectKeepsInv(s: System)
    requires Inv(s)
    ensures Inv(Step(s, NoticeObject))
  {
    if s.objectNotices != [] {
      MovingKeepsInv(s, Step(s, NoticeObject));
    }
  }

  lemma BeginKeepsInv(s: System, name: string, readable: bool)
    requires Inv(s)
    ensures Inv(BeginStep(s, name, readable))
  {
    var r := BeginStep(s, name, readable);
    if r != s {
      if name in s.objects && !ObjectEventPending(s, name) {
        UntouchedIsCached(s.objectCache, s.objectEvents, name);
      }
      forall n | n in s.objects && n != name ensures NotForgotten(r, n) {
        assert NotForgotten(s, n);
      }
      if name in s.objectCache {
        assert Agrees(s, name, s.objectCache[name]);
      }
      assert ActiveSound(r);
    }
  }

  lemma LookKeepsInv(s: System, readable: bool)
    requires Inv(s)
    ensures Inv(LookStep(s, readable))
  {
    if s.active.Some? && s.active.value.verdict.None? {
      var a, r := s.active.value, LookStep(s, readable);
      forall n | n in s.objects ensures NotForgotten(r, n) {
        assert NotForgotten(s, n);
      }
      CachedVerdict(s, a.read);
      assert Agrees(s, a.name, a.read);
    }
  }

  lemma FinishKeepsInv(s: System, fate: Fate)
    requires Inv(s)
    ensures Inv(FinishStep(s, fate))
  {
    if s.active.Some? && s.active.value.verdict.Some? {
      var a := s.active.value;
      var done := s.(active := None);
      var requeued := done.(queue := s.queue + {a.name});
      forall n | n in s.objects && n != a.name ensures NotForgotten(done, n) && NotForgotten(requeued, n) {
        assert NotForgotten(s, n);
      }
      if !fate.Failed? && a.name in s.objects && s.objects[a.name].version == a.read.version {
        if s.objects[a.name].verdict != a.verdict {
          var o := s.objects[a.name].(verdict := a.verdict, version := s.nextVersion);
          ObjectChangeKeepsInv(if fate.Applied? then done else requeued, ObjectChange(a.name, Some(o)));
        }
      }
    }
  }

  lemma StepKeepsInv(s: System, e: Event)
    requires Inv(s)
    ensures Inv(Step(s, e))
  {
    match e
    case CreateDashboard(name) =>
      if name != "" && name !in s.dashboards { DashboardChangeKeepsInv(s, Created(name)); }
    case UpdateDashboard(name) =>
      if name in s.dashboards { DashboardChangeKeepsInv(s, Updated(name)); }
    case DeleteDashboard(name) =>
      if name in s.dashboards { DashboardChangeKeepsInv(s, Deleted(name)); }
    case PutObject(name, ref, valid) =>
      var verdict := if name in s.objects then s.objects[name].verdict else None;
      ObjectChangeKeepsInv(s, ObjectChange(name, Some(Object(ref, valid, s.nextVersion, verdict))));
    case DeleteObject(name) =>
      if name in s.objects { ObjectChangeKeepsInv(s, ObjectChange(name, None)); }
    case DeliverDashboard => DeliverDashboardKeepsInv(s);
    case DeliverObject => DeliverObjectKeepsInv(s);
    case NoticeDashboard => NoticeDashboardKeepsInv(s);
    case NoticeObject => NoticeObjectKeepsInv(s);
    case Begin(name, readable) => BeginKeepsInv(s, name, readable);
    case Look(readable) => LookKeepsInv(s, readable);
    case Finish(fate) => FinishKeepsInv(s, fate);
    case Restart =>
  }

  lemma {:induction false} RunKeepsInv(run: seq<Event>)
    ensures Inv(Exec(run))
    decreases |run|
  {
    if run != [] {
      RunKeepsInv(run[..|run| - 1]);
      StepKeepsInv(Exec(run[..|run| - 1]), run[|run| - 1]);
    }
  }

  // -------------------------------------------------------------- the results

  /** In every reachable state, an object whose stored verdict differs from the one
      the current cluster calls for is queued, or being reconciled, or a watch event
      that will queue it is on its way. */
  lemma StaleVerdictIsQueued(run: seq<Event>, name: string)
    ensures var s := Exec(run);
            name in s.objects && Stale(s, name) ==>
              WillBeQueued(s, name) || (s.active.Some? && s.active.value.name == name)
  {
    RunKeepsInv(run);
    assert name in Exec(run).objects ==> NotForgotten(Exec(run), name);
  }

  /** Nothing is on its way, queued or running. */
  predicate AtRest(s: System) {
    && s.queue == {} && s.active.None?
    && s.dashboardEvents == [] && s.objectEvents == []
    && s.dashboardNotices == [] && s.objectNotices == []
  }

  ghost predicate Owned(o: Object, dashboards: set<string>) {
    exists d :: d in dashboards && Claims(Some(o.ref), d, |dashboards|)
  }

  /** The right verdict, case by case: True exactly when some existing Dashboard renders the
      object and its widgets are valid; otherwise with the reason that applies. */
  ghost predicate IsRight(verdict: Condition, o: Object, dashboards: set<string>) {
    && (verdict.available <==> verdict.reason == Bound)
    && (verdict.reason == Bound <==> Owned(o, dashboards) && o.valid)
    && (verdict.reason == InvalidWidgetConfig <==> Owned(o, dashboards) && !o.valid)
    && (verdict.reason == DashboardNotFound <==>
          (o.ref != "" && o.ref !in dashboards) || (o.ref == "" && dashboards == {}))
    && (verdict.reason == AmbiguousDashboardRef <==>
          o.ref == "" && exists d, d' :: d in dashboards && d' in dashboards && d != d')
  }

  lemma VerdictIsRight(o: Object, dashboards: set<string>)
    ensures IsRight(Verdict(o, dashboards), o, dashboards)
  {
    ReasonsAre(dashboards, o.ref);
    hide Claims, BoundDashboardCondition;
  }

  /** Every object's verdict is what the Dashboards call for. */
  ghost predicate VerdictsAreRight(s: System) {
    forall name :: name in s.objects ==>
      && s.objects[name].verdict == Some(Verdict(s.objects[name], s.dashboards))
      && IsRight(s.objects[name].verdict.value, s.objects[name], s.dashboards)
  }

  lemma RestIsRight(s: System)
    requires Inv(s) && AtRest(s)
    ensures VerdictsAreRight(s)
  {
    forall name | name in s.objects
      ensures s.objects[name].verdict == Some(Verdict(s.objects[name], s.dashboards))
      ensures IsRight(s.objects[name].verdict.value, s.objects[name], s.dashboards)
    {
      assert NotForgotten(s, name);
      VerdictIsRight(s.objects[name], s.dashboards);
    }
  }

  /** Hence, once all events are delivered and the queue has drained, every verdict is the
      right one. */
  lemma AtRestVerdictsAreRight(run: seq<Event>)
    requires AtRest(Exec(run))
    ensures VerdictsAreRight(Exec(run))
  {
    RunKeepsInv(run);
    RestIsRight(Exec(run));
  }

  // ------------------------------------------------- what edits and restarts amount to

  /** What users have asked for: the Dashboards, and each object's reference and validity. */
  datatype Cluster = Cluster(dashboards: set<string>, objects: map<string, (string, bool)>)

  ghost predicate Shows(s: System, c: Cluster) {
    && s.dashboards == c.dashboards
    && s.objects.Keys == c.objects.Keys
    && forall n :: n in c.objects ==> (s.objects[n].ref, s.objects[n].valid) == c.objects[n]
  }

  predicate IsEdit(e: Event) {
    e.CreateDashboard? || e.DeleteDashboard? || e.PutObject? || e.DeleteObject?
  }

  lemma OneMore(run: seq<Event>, edits: seq<Event>, e: Event)
    ensures Exec(run + (edits + [e])) == Step(Exec(run + edits), e)
  {
    assert (run + (edits + [e]))[..|run + edits|] == run + edits;
  }

  /** Whatever happened before, users can turn the Dashboards into any others. */
  lemma AnyDashboardsCanBeMade(run: seq<Event>, c: Cluster) returns (edits: seq<Event>)
    requires "" !in c.dashboards
    ensures forall e :: e in edits ==> IsEdit(e)
    ensures Exec(run + edits).dashboards == c.dashboards
  {
    edits := [];
    while Exec(run + edits).dashboards - c.dashboards != {}
      invariant forall e :: e in edits ==> IsEdit(e)
      decreases Exec(run + edits).dashboards - c.dashboards
    {
      var d :| d in Exec(run + edits).dashboards - c.dashboards;
      OneMore(run, edits, DeleteDashboard(d));
      edits := edits + [DeleteDashboard(d)];
    }
    while c.dashboards - Exec(run + edits).dashboards != {}
      invariant forall e :: e in edits ==> IsEdit(e)
      invariant Exec(run + edits).dashboards <= c.dashboards
      decreases c.dashboards - Exec(run + edits).dashboards
    {
      var d :| d in c.dashboards - Exec(run + edits).dashboards;
      OneMore(run, edits, CreateDashboard(d));
      edits := edits + [CreateDashboard(d)];
    }
  }

  /** And the objects with them. */
  lemma AnyClusterCanBeMade(run: seq<Event>, c: Cluster) returns (edits: seq<Event>)
    requires "" !in c.dashboards
    ensures forall e :: e in edits ==> IsEdit(e)
    ensures Shows(Exec(run + edits), c)
  {
    edits := AnyDashboardsCanBeMade(run, c);
    while Exec(run + edits).objects.Keys - c.objects.Keys != {}
      invariant forall e :: e in edits ==> IsEdit(e)
      invariant Exec(run + edits).dashboards == c.dashboards
      decreases Exec(run + edits).objects.Keys - c.objects.Keys
    {
      var n :| n in Exec(run + edits).objects.Keys - c.objects.Keys;
      OneMore(run, edits, DeleteObject(n));
      edits := edits + [DeleteObject(n)];
    }
    var todo, had := c.objects.Keys, Exec(run + edits).objects.Keys;
    assert forall n :: n in had && n !in todo ==> n in had - todo;
    while todo != {}
      invariant forall e :: e in edits ==> IsEdit(e)
      invariant todo <= c.objects.Keys
      invariant
        var s := Exec(run + edits);
        && s.dashboards == c.dashboards
        && c.objects.Keys - todo <= s.objects.Keys <= c.objects.Keys
        && forall n :: n in c.objects.Keys - todo ==> (s.objects[n].ref, s.objects[n].valid) == c.objects[n]
      decreases todo
    {
      var n :| n in todo;
      todo := todo - {n};
      OneMore(run, edits, PutObject(n, c.objects[n].0, c.objects[n].1));
      edits := edits + [PutObject(n, c.objects[n].0, c.objects[n].1)];
    }
  }

  /** A Dashboard that comes, goes or changes queues everything that names it or names
      none, as soon as the cache has the event and the handler has run. */
  lemma EveryDashboardEventQueues(s: System, e: Event, n: string)
    requires s.dashboardEvents == [] && s.dashboardNotices == []
    requires
      || (e.CreateDashboard? && e.name != "" && e.name !in s.dashboards)
      || ((e.UpdateDashboard? || e.DeleteDashboard?) && e.name in s.dashboards)
    requires n in s.objectCache && (s.objectCache[n].ref == e.name || s.objectCache[n].ref == "")
    ensures n in Step(Step(Step(s, e), DeliverDashboard), NoticeDashboard).queue
  {
  }

  /** A restart forgets the reconcile under way, and what it had read is never written. */
  lemma RestartForgets(s: System, readable: bool, fate: Fate, n: string)
    ensures
      var t := Step(s, Restart);
      && Step(t, Finish(fate)) == t && Step(t, Look(readable)) == t
      && Step(t, DeliverDashboard) == t && Step(t, DeliverObject) == t
      && Step(t, NoticeDashboard) == t && Step(t, NoticeObject) == t
      && (n in s.objects ==> Step(t, Begin(n, true)).active == Some(Active(n, s.objects[n], None)))
  {
  }

  /** A reconcile under way is over with its next call, or with the one after that,
      whatever becomes of them; and what is cut short by an error is queued again. */
  lemma ReconcilesEnd(s: System, readable: bool, fate: Fate)
    requires s.active.Some?
    ensures
      var name, t := s.active.value.name, Step(Step(s, Look(readable)), Finish(fate));
      && t.active.None?
      && ((s.active.value.verdict.None? && !readable) || fate.Failed? ==> name in t.queue)
  {
  }
}
