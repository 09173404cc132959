/** What an undisturbed reconcile of a live Dashboard achieves: from every reachable
    state it leaves the grants exactly as the spec wants them, and the stored record as
    exact as its closing status write, if it gets that far, can make it. */
module GrantSettling {
  import opened ApiCall
  import opened GrantEnding
  import opened GrantProgress
  import opened GrantProtocol
  import opened GrantReconcile
  import opened Ordering

  // ---------------------------------------------------------- the settled state

  /** The RoleBindings and the ClusterRole of a family are what the spec wants. */
  ghost predicate GrantsSettled(s: System, spec: Spec, f: Family) {
    && s.bindings.Of(f) == Elems(Desired(s.own, spec, f))
    && (s.roles.Of(f) <==> Desired(s.own, spec, f) != [])
  }

  /** And so is the record of it. */
  ghost predicate Settled(s: System, spec: Spec, record: Per<seq<Namespace>>, f: Family) {
    GrantsSettled(s, spec, f) && record.Of(f) == Desired(s.own, spec, f)
  }

  /** What a reconcile finds besides the grants: whether the Dashboard wants the metrics
      objects; whether the Deployment has to be created or updated; and whether one of the
      later objects cannot be had on this cluster. */
  datatype World = World(metrics: bool, drift: bool, blocked: bool)

  /** What a caught-up cache answers. */
  function Answer(s: System, w: World): bool
    requires s.controller.Busy?
  {
    match s.controller.pc
    case Owned => w.metrics
    case Deploy => w.drift
    case Finish => w.blocked
    case EnsureMetricsRole => s.metricsRole
    case EnsureMetricsBinding => s.metricsBinding
    case EnsureRole(f) => s.roles.Of(f)
    case Bind(f, _, todo) => todo != [] && todo[0] in s.bindings.Of(f)
    case _ => false
  }

  function Honest(s: System, w: World, conditions: nat): System
    requires s.WellFormed() && s.controller.Busy?
  {
    Calm(s, Answer(s, w), conditions)
  }

  /** The work on a family is at the right point. */
  ghost predicate FamilyOnTrack(s: System)
    requires s.controller.Busy?
  {
    var inst := s.controller.inst;
    match s.controller.pc
    case Unbind(f, todo) => Desired(s.own, inst.spec, f) == [] && Within(s.bindings.Of(f), todo)
    case DropRole(f) => Desired(s.own, inst.spec, f) == [] && s.bindings.Of(f) == {} && inst.status.record.Of(f) == []
    case EnsureRole(f) => Desired(s.own, inst.spec, f) != []
    case Persist(f) => Desired(s.own, inst.spec, f) != [] && s.roles.Of(f)
    case Bind(f, previous, todo) =>
      && Desired(s.own, inst.spec, f) != [] && s.roles.Of(f)
      && (forall ns :: ns in Desired(s.own, inst.spec, f) ==> ns in todo || ns in s.bindings.Of(f))
    case Prune(f, todo) =>
      && Desired(s.own, inst.spec, f) != [] && s.roles.Of(f)
      && (forall ns :: ns in Desired(s.own, inst.spec, f) ==> ns in s.bindings.Of(f))
      && (forall ns :: ns in todo ==> ns !in Desired(s.own, inst.spec, f))
    case _ => true
  }

  /** Both families are done. */
  predicate Late(pc: Pc) {
    pc.Deploy? || pc.Finish? || pc.FailStatus?
  }

  predicate Early(pc: Pc) {
    pc.InitStatus? || pc.InitReread? || pc.AddFinalizer? || pc.Owned?
    || pc.EnsureMetricsRole? || pc.EnsureMetricsBinding? || pc.DropMetricsBinding? || pc.DropMetricsRole?
  }

  /** A reconcile of a live Dashboard that has met no fault. */
  ghost predicate OnTrack(s: System) {
    && s.WellFormed() && s.controller.Busy? && Fresh(s) && s.Server().Some? && !s.Server().value.deleting
    && (var pc, inst := s.controller.pc, s.controller.inst;
        && (Early(pc) || Working(pc).Some? || Late(pc))
        && pc != DropMetricsRole(true)
        && (pc.InitStatus? || pc.AddFinalizer? ==> inst.status.record == s.Server().value.status.record)
        && FamilyOnTrack(s)
        && (Working(pc) == Some(Monitor) || Late(pc) ==> Settled(s, inst.spec, inst.status.record, Discovery))
        && (Late(pc) ==> Settled(s, inst.spec, inst.status.record, Monitor)))
  }

  /** How many calls it takes to the end. */
  function TrackRank(s: System): nat
    requires s.WellFormed() && s.controller.Busy? && s.Server().Some?
  {
    CallsLeft(s, BothRanks(s.own, s.Server().value))
  }

  /** A step on the way: still on track, with the same spec. */
  ghost predicate Advances(s: System, t: System)
    requires s.WellFormed() && s.controller.Busy? && s.Server().Some?
  {
    && OnTrack(t)
    && t.own == s.own && t.Server().value.spec == s.Server().value.spec
  }

  /** On track, the object in memory is the server's, up to its status, and both records
      cover the grants. */
  lemma OnTrackKnows(s: System)
    requires Inv(s) && OnTrack(s)
    ensures s.Server().value.(status := s.controller.inst.status) == s.controller.inst
    ensures Recorded(s.bindings, s.controller.inst.status.record)
    ensures InMetrics(s.controller.pc) || InFamily(s.controller.pc) ==> s.HasFinalizer()
  {
    hide Core, FinalizeSound, FamilySound, Recorded;
  }

  lemma InitStatusAdvances(s: System, conditions: nat)
    requires Inv(s) && OnTrack(s) && s.controller.pc.InitStatus?
    ensures Advances(s, OuterStep(s, Applied, false, conditions))
  {
    OnTrackKnows(s);
    hide Inv, Desired, Recorded, Within, Settled;
  }

  lemma InitRereadAdvances(s: System, conditions: nat)
    requires Inv(s) && OnTrack(s) && s.cached == s.Latest() && s.controller.pc.InitReread?
    ensures Advances(s, OuterStep(s, Applied, false, conditions))
  {
    OnTrackKnows(s);
    hide Inv, Desired, Recorded, Within, Settled;
  }

  lemma AddFinalizerAdvances(s: System, conditions: nat)
    requires Inv(s) && OnTrack(s) && s.controller.pc.AddFinalizer?
    ensures Advances(s, OuterStep(s, Applied, false, conditions))
  {
    OnTrackKnows(s);
    hide Inv, Desired, Recorded, Within, Settled;
  }

  /** A step that changes nothing a family cares about. */
  ghost predicate OnlyPcMoves(s: System, t: System) {
    && s.controller.Busy? && t.controller.Busy? && t.controller == s.controller.(pc := t.controller.pc)
    && t == s.(metricsRole := t.metricsRole, metricsBinding := t.metricsBinding, controller := t.controller)
  }

  lemma StaysEarly(s: System, t: System)
    requires OnTrack(s) && OnlyPcMoves(s, t) && MetricsGoOn(s.controller.pc, t.controller.pc)
    requires t.controller.pc != DropMetricsRole(true)
    ensures OnTrack(t)
  {
    hide Desired, Settled;
  }

  lemma EntersFamilies(s: System, t: System)
    requires OnTrack(s) && OnlyPcMoves(s, t) && InMetrics(s.controller.pc)
    requires Recorded(s.bindings, s.controller.inst.status.record)
    requires t.controller.pc == BeginFamily(s.own, s.controller.inst, Discovery)
    ensures OnTrack(t)
  {
    BeginsOnTrack(t, Discovery);
    hide BeginFamily, FamilyOnTrack, Recorded, Settled;
  }

  /** An undisturbed call about the metrics objects moves on to the next one, or to the
      families. */
  lemma MetricsMoves(s: System, w: World)
    requires s.WellFormed() && s.controller.Busy? && InMetrics(s.controller.pc)
      && s.controller.pc != DropMetricsRole(true)
    ensures
      var t := MetricsStep(s, Applied, Answer(s, w));
      && OnlyPcMoves(s, t)
      && ((MetricsGoOn(s.controller.pc, t.controller.pc) && t.controller.pc != DropMetricsRole(true))
          || t.controller.pc == BeginFamily(s.own, s.controller.inst, Discovery))
  {
    hide BeginFamily;
  }

  lemma MetricsAdvances(s: System, w: World)
    requires Inv(s) && OnTrack(s) && InMetrics(s.controller.pc)
    ensures Advances(s, MetricsStep(s, Applied, Answer(s, w)))
  {
    assert s.controller.pc != DropMetricsRole(true);
    OnTrackKnows(s);
    OnTrackIsSomewhere(s);
    MetricsMoves(s, w);
    var t := MetricsStep(s, Applied, Answer(s, w));
    assert t.WellFormed() && t.own == s.own && t.Server() == s.Server() by {
      hide MetricsStep, OnTrack, Inv;
    }
    hide Inv, OnTrack, MetricsStep, OnlyPcMoves, MetricsGoOn, Recorded, BeginFamily;
    if t.controller.pc == BeginFamily(s.own, s.controller.inst, Discovery) {
      EntersFamilies(s, t);
    } else {
      StaysEarly(s, t);
    }
  }

  /** Where the work on a family begins. */
  lemma BeginsOnTrack(s: System, f: Family)
    requires s.controller.Busy? && Recorded(s.bindings, s.controller.inst.status.record)
    ensures
      var pc := BeginFamily(s.own, s.controller.inst, f);
      Working(pc) == Some(f) && FamilyOnTrack(Goto(s, pc))
  {
    hide Desired;
  }

  /** A step of one family leaves the other as it is. */
  ghost predicate Elsewhere(s: System, t: System, f: Family) {
    && s.WellFormed() && t.WellFormed() && s.controller.Busy? && t.controller.Busy?
    && s.Server().Some? && t.Server().Some? && Fresh(t) && !t.Server().value.deleting
    && t.own == s.own && t.Server().value.spec == s.Server().value.spec
    && t.controller.inst.spec == s.controller.inst.spec
    && t.bindings == s.bindings.With(f, t.bindings.Of(f))
    && t.roles == s.roles.With(f, t.roles.Of(f))
    && t.controller.inst.status.record == s.controller.inst.status.record.With(f, t.controller.inst.status.record.Of(f))
  }

  lemma WorkContinues(s: System, t: System, f: Family)
    requires OnTrack(s) && Working(s.controller.pc) == Some(f) && Elsewhere(s, t, f)
    requires Working(t.controller.pc) == Some(f) && FamilyOnTrack(t)
    ensures Advances(s, t)
  {
    hide Desired, FamilyOnTrack;
  }

  lemma WorkPasses(s: System, t: System, f: Family)
    requires OnTrack(s) && Working(s.controller.pc) == Some(f) && Elsewhere(s, t, f)
    requires t.controller.pc == AfterFamily(t.own, t.controller.inst, f)
    requires Settled(t, t.controller.inst.spec, t.controller.inst.status.record, f)
    requires Recorded(t.bindings, t.controller.inst.status.record)
    ensures Advances(s, t)
  {
    BeginsOnTrack(t, Monitor);
    hide Desired, FamilyOnTrack, Recorded, BeginFamily;
    if f.Monitor? {
      LateIsOnTrack(t);
    }
  }

  lemma LateIsOnTrack(t: System)
    requires t.controller.Busy? && Late(t.controller.pc)
    ensures FamilyOnTrack(t)
  {
  }

  // -------------------------------------------- the calls of a family, one by one

  lemma UnbindIs(s: System, conditions: nat)
    requires s.WellFormed() && s.controller.Busy? && s.controller.pc.Unbind? && s.controller.pc.todo != []
    ensures
      var f, todo := s.controller.pc.f, s.controller.pc.todo;
      FamilyStep(s, Applied, false, conditions) == s.(controller := s.controller.(pc := Unbind(f, todo[1..])),
        bindings := s.bindings.With(f, s.bindings.Of(f) - {todo[0]}))
  {
  }

  lemma UnboundIs(s: System, conditions: nat)
    requires s.WellFormed() && s.controller.Busy? && s.controller.pc.Unbind? && s.controller.pc.todo == []
    ensures
      var f, inst := s.controller.pc.f, s.controller.inst;
      FamilyStep(s, Applied, false, conditions) ==
      s.(controller := s.controller.(inst := SetRecord(inst, f, []), pc := DropRole(f)))
  {
  }

  lemma DropRoleIs(s: System, conditions: nat)
    requires s.WellFormed() && s.controller.Busy? && s.controller.pc.DropRole?
    ensures
      var f, inst := s.controller.pc.f, s.controller.inst;
      FamilyStep(s, Applied, false, conditions) ==
      s.(controller := s.controller.(pc := AfterFamily(s.own, inst, f)), roles := s.roles.With(f, false))
  {
    hide AfterFamily;
  }

  lemma EnsureRoleIs(s: System, conditions: nat)
    requires s.WellFormed() && s.controller.Busy? && s.controller.pc.EnsureRole?
    ensures
      var f := s.controller.pc.f;
      FamilyStep(s, Applied, s.roles.Of(f), conditions) ==
      s.(controller := s.controller.(pc := Persist(f)), roles := s.roles.With(f, true))
  {
  }

  lemma PersistIs(s: System, conditions: nat)
    requires s.WellFormed() && s.controller.Busy? && s.controller.pc.Persist?
    ensures
      var f, inst := s.controller.pc.f, s.controller.inst;
      var ok := Bind(f, inst.status.record.Of(f), Desired(s.own, inst.spec, f));
      FamilyStep(s, Applied, false, conditions) ==
      UpdateStatus(Widen(s, f), Applied, conditions, ok, FailAvailable(Widen(s, f)))
  {
    hide UpdateStatus, Desired, Union;
  }

  lemma BindIs(s: System, conditions: nat)
    requires s.WellFormed() && s.controller.Busy? && s.controller.pc.Bind? && s.controller.pc.todo != []
    ensures
      var f, todo := s.controller.pc.f, s.controller.pc.todo;
      FamilyStep(s, Applied, todo[0] in s.bindings.Of(f), conditions) ==
      s.(controller := s.controller.(pc := Bind(f, s.controller.pc.previous, todo[1..])),
        bindings := s.bindings.With(f, s.bindings.Of(f) + {todo[0]}))
  {
    var f, ns := s.controller.pc.f, s.controller.pc.todo[0];
    if ns in s.bindings.Of(f) {
      assert s.bindings.Of(f) + {ns} == s.bindings.Of(f);
    }
  }

  lemma BoundIs(s: System, conditions: nat)
    requires s.WellFormed() && s.controller.Busy? && s.controller.pc.Bind? && s.controller.pc.todo == []
    ensures
      var f := s.controller.pc.f;
      var removed := Removed(s.controller.pc.previous, Desired(s.own, s.controller.inst.spec, f));
      FamilyStep(s, Applied, false, conditions) == s.(controller := s.controller.(pc := Prune(f, removed)))
  {
    hide Desired;
  }

  lemma PruneIs(s: System, conditions: nat)
    requires s.WellFormed() && s.controller.Busy? && s.controller.pc.Prune? && s.controller.pc.todo != []
    ensures
      var f, todo := s.controller.pc.f, s.controller.pc.todo;
      FamilyStep(s, Applied, false, conditions) == s.(controller := s.controller.(pc := Prune(f, todo[1..])),
        bindings := s.bindings.With(f, s.bindings.Of(f) - {todo[0]}))
  {
  }

  lemma NarrowIs(s: System, conditions: nat)
    requires s.WellFormed() && s.controller.Busy? && s.controller.pc.Prune? && s.controller.pc.todo == []
    ensures
      var f := s.controller.pc.f;
      var narrowed := SetRecord(s.controller.inst, f, Desired(s.own, s.controller.inst.spec, f));
      FamilyStep(s, Applied, false, conditions) ==
      s.(controller := s.controller.(inst := narrowed, pc := AfterFamily(s.own, narrowed, f)))
  {
    hide Desired, AfterFamily;
  }

  lemma UnboundAdvances(s: System, conditions: nat)
    requires Inv(s) && OnTrack(s) && s.controller.pc.Unbind? && s.controller.pc.todo == []
    ensures Advances(s, FamilyStep(s, Applied, false, conditions))
  {
    OnTrackKnows(s);
    UnboundIs(s, conditions);
    hide Inv, Desired, Recorded, Settled, FamilyStep;
    WorkContinues(s, FamilyStep(s, Applied, false, conditions), s.controller.pc.f);
    hide OnTrack;
  }

  lemma UnbindAdvances(s: System, conditions: nat)
    requires Inv(s) && OnTrack(s) && s.controller.pc.Unbind? && s.controller.pc.todo != []
    ensures Advances(s, FamilyStep(s, Applied, false, conditions))
  {
    OnTrackKnows(s);
    UnbindIs(s, conditions);
    hide Inv, Desired, Recorded, Settled, FamilyStep;
    WorkContinues(s, FamilyStep(s, Applied, false, conditions), s.controller.pc.f);
    hide OnTrack;
  }

  lemma DropRoleAdvances(s: System, conditions: nat)
    requires Inv(s) && OnTrack(s) && s.controller.pc.DropRole?
    ensures Advances(s, FamilyStep(s, Applied, false, conditions))
  {
    OnTrackKnows(s);
    DropRoleIs(s, conditions);
    hide Inv, Desired, BeginFamily, FamilyStep;
    WorkPasses(s, FamilyStep(s, Applied, false, conditions), s.controller.pc.f);
    hide OnTrack;
  }

  lemma EnsureRoleAdvances(s: System, conditions: nat)
    requires Inv(s) && OnTrack(s) && s.controller.pc.EnsureRole?
    ensures Advances(s, FamilyStep(s, Applied, s.roles.Of(s.controller.pc.f), conditions))
  {
    OnTrackKnows(s);
    EnsureRoleIs(s, conditions);
    hide Inv, Desired, Recorded, Settled, FamilyStep;
    WorkContinues(s, FamilyStep(s, Applied, s.roles.Of(s.controller.pc.f), conditions), s.controller.pc.f);
    hide OnTrack;
  }

  /** A status write of an object that is up to date. */
  lemma FreshWrite(w: System, conditions: nat, ok: Pc, failed: System)
    requires w.WellFormed() && failed.WellFormed() && w.controller.Busy?
      && failed == w.(controller := failed.controller)
    requires Fresh(w) && w.Server().Some? && w.Server().value.(status := w.controller.inst.status) == w.controller.inst
    ensures
      var t, inst := UpdateStatus(w, Applied, conditions, ok, failed), w.controller.inst;
      && t.WellFormed() && t.controller == Busy(t.Latest(), inst.(status := Status(inst.status.record, conditions)), ok)
      && t.Server() == Some(t.controller.inst)
      && t == w.(history := t.history, controller := t.controller)
  {
  }

  lemma PersistGoesTo(s: System, conditions: nat)
    requires Inv(s) && OnTrack(s) && s.controller.pc.Persist?
    ensures
      var f, t := s.controller.pc.f, FamilyStep(s, Applied, false, conditions);
      && Elsewhere(s, t, f) && t.bindings == s.bindings && t.roles == s.roles
      && t.controller.pc == Bind(f, s.controller.inst.status.record.Of(f), Desired(s.own, s.controller.inst.spec, f))
  {
    OnTrackKnows(s);
    var f := s.controller.pc.f;
    var w, ok := Widen(s, f), Bind(f, s.controller.inst.status.record.Of(f), Desired(s.own, s.controller.inst.spec, f));
    PersistIs(s, conditions);
    hide Inv, Desired, Recorded, Settled, Union, FamilyOnTrack, UpdateStatus, FamilyStep;
    FreshWrite(w, conditions, ok, FailAvailable(w));
  }

  lemma PersistAdvances(s: System, conditions: nat)
    requires Inv(s) && OnTrack(s) && s.controller.pc.Persist?
    ensures Advances(s, FamilyStep(s, Applied, false, conditions))
  {
    PersistGoesTo(s, conditions);
    hide Inv, FamilyStep, Desired, Settled;
    WorkContinues(s, FamilyStep(s, Applied, false, conditions), s.controller.pc.f);
    hide OnTrack;
  }

  lemma BindGoesTo(s: System, conditions: nat)
    requires Inv(s) && OnTrack(s) && s.controller.pc.Bind? && s.controller.pc.todo != []
    ensures
      var f, ns := s.controller.pc.f, s.controller.pc.todo[0];
      var t := FamilyStep(s, Applied, ns in s.bindings.Of(f), conditions);
      && Elsewhere(s, t, f) && t.bindings.Of(f) == s.bindings.Of(f) + {ns} && t.roles == s.roles
      && t.controller == s.controller.(pc := Bind(f, s.controller.pc.previous, s.controller.pc.todo[1..]))
  {
    OnTrackKnows(s);
    BindIs(s, conditions);
    hide Inv, Desired, Recorded, Settled, FamilyOnTrack, FamilyStep;
  }

  lemma BindAdvances(s: System, conditions: nat)
    requires Inv(s) && OnTrack(s) && s.controller.pc.Bind? && s.controller.pc.todo != []
    ensures Advances(s, FamilyStep(s, Applied, s.controller.pc.todo[0] in s.bindings.Of(s.controller.pc.f), conditions))
  {
    BindGoesTo(s, conditions);
    hide Inv, FamilyStep, Desired, Settled;
    var f := s.controller.pc.f;
    WorkContinues(s, FamilyStep(s, Applied, s.controller.pc.todo[0] in s.bindings.Of(f), conditions), f);
    hide OnTrack;
  }

  /** Where only the point in the code changes, nothing else does. */
  lemma MovesElsewhere(s: System, t: System, f: Family)
    requires OnTrack(s) && t.controller.Busy? && t == s.(controller := s.controller.(pc := t.controller.pc))
    ensures Elsewhere(s, t, f)
  {
    hide Desired, Settled, FamilyOnTrack;
  }

  lemma BoundGoesTo(s: System, t: System)
    requires OnTrack(s) && s.controller.pc.Bind? && s.controller.pc.todo == []
    requires
      var f, desired := s.controller.pc.f, Desired(s.own, s.controller.inst.spec, s.controller.pc.f);
      t == s.(controller := s.controller.(pc := Prune(f, Removed(s.controller.pc.previous, desired))))
    ensures FamilyOnTrack(t)
  {
    hide Desired, Settled;
  }

  lemma BoundAdvances(s: System, conditions: nat)
    requires Inv(s) && OnTrack(s) && s.controller.pc.Bind? && s.controller.pc.todo == []
    ensures Advances(s, FamilyStep(s, Applied, false, conditions))
  {
    BoundIs(s, conditions);
    var t := FamilyStep(s, Applied, false, conditions);
    BoundGoesTo(s, t);
    MovesElsewhere(s, t, s.controller.pc.f);
    hide Inv, Desired, FamilyStep, FamilyOnTrack, Elsewhere;
    WorkContinues(s, t, s.controller.pc.f);
    hide OnTrack;
  }

  lemma PruneAdvances(s: System, conditions: nat)
    requires Inv(s) && OnTrack(s) && s.controller.pc.Prune? && s.controller.pc.todo != []
    ensures Advances(s, FamilyStep(s, Applied, false, conditions))
  {
    OnTrackKnows(s);
    PruneIs(s, conditions);
    hide Inv, Desired, Recorded, Settled, FamilyStep;
    WorkContinues(s, FamilyStep(s, Applied, false, conditions), s.controller.pc.f);
    hide OnTrack;
  }

  lemma NarrowAdvances(s: System, conditions: nat)
    requires Inv(s) && OnTrack(s) && s.controller.pc.Prune? && s.controller.pc.todo == []
    ensures Advances(s, FamilyStep(s, Applied, false, conditions))
  {
    OnTrackKnows(s);
    BoundAreWanted(s);
    NarrowIs(s, conditions);
    hide Inv, Desired, BeginFamily, FamilyStep;
    WorkPasses(s, FamilyStep(s, Applied, false, conditions), s.controller.pc.f);
    hide OnTrack;
  }

  lemma BoundAreWanted(s: System)
    requires Inv(s) && OnTrack(s) && s.controller.pc.Prune? && s.controller.pc.todo == []
    ensures s.bindings.Of(s.controller.pc.f) == Elems(Desired(s.own, s.controller.inst.spec, s.controller.pc.f))
  {
    hide Core, InstanceSound, FinalizeSound, Desired, Settled;
  }

  /** The end of a reconcile: the grants are what `spec` wants. */
  ghost predicate Done(t: System, spec: Spec) {
    && t.WellFormed() && t.controller.Idle? && t.Server().Some? && !t.Server().value.deleting
    && t.Server().value.spec == spec
    && GrantsSettled(t, spec, Discovery) && GrantsSettled(t, spec, Monitor)
  }

  /** After the families, the reconcile goes on, or it ends with the grants settled. */
  ghost predicate AdvancesOrEnds(s: System, t: System)
    requires s.WellFormed() && s.controller.Busy? && s.Server().Some?
  {
    t.own == s.own && if t.controller.Busy? then Advances(s, t) else Done(t, s.Server().value.spec)
  }

  lemma DeployIs(s: System, drift: bool, conditions: nat)
    requires s.WellFormed() && s.controller.Busy? && s.controller.pc.Deploy?
    ensures OuterStep(s, Applied, drift, conditions) == if drift then Halt(s) else Goto(s, Finish)
  {
    hide UpdateStatus, UpdateFinalizer, Reread;
  }

  lemma FinishIs(s: System, blocked: bool, conditions: nat)
    requires s.WellFormed() && s.controller.Busy? && s.controller.pc.Finish?
    ensures
      OuterStep(s, Applied, blocked, conditions) ==
      if blocked then Goto(s, FailStatus) else Halt(UpdateStatus(s, Applied, conditions, Finish, Halt(s)))
  {
    hide UpdateStatus, UpdateFinalizer, Reread;
  }

  lemma FailStatusIs(s: System, conditions: nat)
    requires s.WellFormed() && s.controller.Busy? && s.controller.pc.FailStatus?
    ensures OuterStep(s, Applied, false, conditions) == Halt(UpdateStatus(s, Applied, conditions, FailStatus, Halt(s)))
  {
    hide UpdateStatus, UpdateFinalizer, Reread;
  }

  lemma MovesOn(s: System, pc: Pc)
    requires OnTrack(s) && Late(s.controller.pc) && Late(pc) && (pc.FailStatus? || s.controller.pc.Deploy?)
    requires pc != s.controller.pc
    ensures AdvancesOrEnds(s, Goto(s, pc))
  {
    LateIsOnTrack(Goto(s, pc));
    SettledWherever(s, pc, Discovery);
    SettledWherever(s, pc, Monitor);
    hide FamilyOnTrack, Settled;
  }

  lemma SettledWherever(s: System, pc: Pc, f: Family)
    requires s.controller.Busy?
    ensures
      var spec, record := s.controller.inst.spec, s.controller.inst.status.record;
      Settled(Goto(s, pc), spec, record, f) == Settled(s, spec, record, f)
  {
    hide Desired;
  }

  /** The status write with which a reconcile ends. */
  lemma ClosingWrite(s: System, conditions: nat, ok: Pc)
    requires Inv(s) && OnTrack(s) && Late(s.controller.pc)
    ensures
      var t := Halt(UpdateStatus(s, Applied, conditions, ok, Halt(s)));
      && Done(t, s.Server().value.spec) && t.own == s.own
      && t.Server().value.status.record == s.controller.inst.status.record
  {
    OnTrackKnows(s);
    FreshWrite(s, conditions, ok, Halt(s));
    hide Inv, Desired, Recorded, UpdateStatus, FamilyOnTrack;
  }

  lemma DeployAdvances(s: System, w: World, conditions: nat)
    requires Inv(s) && OnTrack(s) && s.controller.pc.Deploy?
    ensures AdvancesOrEnds(s, OuterStep(s, Applied, w.drift, conditions))
  {
    OnTrackKnows(s);
    DeployIs(s, w.drift, conditions);
    MovesOn(s, Finish);
    hide Inv, Desired, Recorded, OuterStep, FamilyOnTrack, Advances;
  }

  lemma FinishAdvances(s: System, w: World, conditions: nat)
    requires Inv(s) && OnTrack(s) && s.controller.pc.Finish?
    ensures AdvancesOrEnds(s, OuterStep(s, Applied, w.blocked, conditions))
  {
    FinishIs(s, w.blocked, conditions);
    if w.blocked {
      MovesOn(s, FailStatus);
    } else {
      ClosingWrite(s, conditions, Finish);
    }
    hide Inv, OnTrack, Done, UpdateStatus, OuterStep, Advances;
  }

  lemma FailStatusAdvances(s: System, conditions: nat)
    requires Inv(s) && OnTrack(s) && s.controller.pc.FailStatus?
    ensures AdvancesOrEnds(s, OuterStep(s, Applied, false, conditions))
  {
    FailStatusIs(s, conditions);
    ClosingWrite(s, conditions, FailStatus);
    hide Inv, OnTrack, Done, UpdateStatus, OuterStep, Advances;
  }

  // ------------------------------------------------------------ the whole way

  lemma FamilyAdvances(s: System, w: World, conditions: nat)
    requires Inv(s) && OnTrack(s) && InFamily(s.controller.pc)
    ensures Advances(s, FamilyStep(s, Applied, Answer(s, w), conditions))
  {
    OnTrackIsSomewhere(s);
    hide Inv, OnTrack, FamilyStep, Advances;
    match s.controller.pc
    case Unbind(_, todo) => if todo == [] { UnboundAdvances(s, conditions); } else { UnbindAdvances(s, conditions); }
    case DropRole(_) => DropRoleAdvances(s, conditions);
    case EnsureRole(_) => EnsureRoleAdvances(s, conditions);
    case Persist(_) => PersistAdvances(s, conditions);
    case Bind(_, _, todo) => if todo == [] { BoundAdvances(s, conditions); } else { BindAdvances(s, conditions); }
    case Prune(_, todo) => if todo == [] { NarrowAdvances(s, conditions); } else { PruneAdvances(s, conditions); }
  }

  lemma OuterAdvances(s: System, w: World, conditions: nat)
    requires Inv(s) && OnTrack(s) && s.cached == s.Latest()
    requires !InFamily(s.controller.pc) && !InMetrics(s.controller.pc)
    ensures AdvancesOrEnds(s, OuterStep(s, Applied, Answer(s, w), conditions))
  {
    OnTrackIsSomewhere(s);
    hide Inv, OnTrack, OuterStep, Done;
    match s.controller.pc
    case InitStatus => InitStatusAdvances(s, conditions);
    case InitReread => InitRereadAdvances(s, conditions);
    case AddFinalizer => AddFinalizerAdvances(s, conditions);
    case Deploy => DeployAdvances(s, w, conditions);
    case Finish => FinishAdvances(s, w, conditions);
    case FailStatus => FailStatusAdvances(s, conditions);
  }

  /** A call of a busy reconcile is one step of the part of the code it is in. */
  lemma CallIs(s: System, answer: bool, conditions: nat)
    requires s.WellFormed() && s.controller.Busy? && !Finalizing(s.controller.pc)
    ensures Step(s, Call(Applied, answer, conditions)) ==
      if InMetrics(s.controller.pc) then MetricsStep(s, Applied, answer)
      else if InFamily(s.controller.pc) then FamilyStep(s, Applied, answer, conditions)
      else OuterStep(s, Applied, answer, conditions)
  {
    hide MetricsStep, FamilyStep, OuterStep, FinalizeStep;
  }

  lemma AdvancingIsBusy(s: System, t: System)
    requires s.WellFormed() && s.controller.Busy? && s.Server().Some? && Advances(s, t)
    ensures AdvancesOrEnds(s, t)
  {
    hide FamilyOnTrack, Settled;
  }

  lemma CallAdvances(s: System, w: World, conditions: nat)
    requires Inv(s) && OnTrack(s) && s.cached == s.Latest()
    ensures AdvancesOrEnds(s, Step(s, Call(Applied, Answer(s, w), conditions)))
  {
    OnTrackIsSomewhere(s);
    CallIs(s, Answer(s, w), conditions);
    hide Inv, OnTrack, Step, FamilyStep, MetricsStep, OuterStep, Advances, AdvancesOrEnds;
    if InMetrics(s.controller.pc) {
      MetricsAdvances(s, w);
      AdvancingIsBusy(s, MetricsStep(s, Applied, Answer(s, w)));
    } else if InFamily(s.controller.pc) {
      FamilyAdvances(s, w, conditions);
      AdvancingIsBusy(s, FamilyStep(s, Applied, Answer(s, w), conditions));
    } else {
      OuterAdvances(s, w, conditions);
    }
  }

  lemma OnTrackIsSomewhere(s: System)
    requires OnTrack(s)
    ensures s.WellFormed() && s.controller.Busy? && s.Server().Some? && !Finalizing(s.controller.pc)
    ensures
      var pc := s.controller.pc;
      InFamily(pc) || InMetrics(pc) || pc.InitStatus? || pc.InitReread? || pc.AddFinalizer? || Late(pc)
  {
    hide Desired, Settled, FamilyOnTrack;
  }

  /** A call that does not end the reconcile leaves it fewer calls. */
  ghost predicate RankFalls(s: System, t: System)
    requires s.WellFormed() && s.controller.Busy? && s.Server().Some?
  {
    t.controller.Busy? ==> t.WellFormed() && t.Server().Some? && TrackRank(t) < TrackRank(s)
  }

  lemma InitStatusRankFalls(s: System, conditions: nat)
    requires Inv(s) && OnTrack(s) && s.controller.pc.InitStatus?
    ensures RankFalls(s, OuterStep(s, Applied, false, conditions))
  {
    OnTrackKnows(s);
    FreshWrite(s, conditions, InitReread, Halt(s));
    hide Inv, Desired, Recorded, Settled, FamilyOnTrack, FamiliesRank, UpdateStatus, UpdateFinalizer, Reread;
  }

  lemma InitRereadRankFalls(s: System, conditions: nat)
    requires OnTrack(s) && s.controller.pc.InitReread? && s.cached == s.Latest()
    ensures RankFalls(s, OuterStep(s, Applied, false, conditions))
  {
    hide Desired, Settled, FamilyOnTrack, FamiliesRank, UpdateStatus, UpdateFinalizer, FamilyRank;
  }

  lemma AddFinalizerRankFalls(s: System, conditions: nat)
    requires Inv(s) && OnTrack(s) && s.controller.pc.AddFinalizer?
    ensures RankFalls(s, OuterStep(s, Applied, false, conditions))
  {
    OnTrackKnows(s);
    hide Inv, Desired, Recorded, Settled, FamilyOnTrack, FamiliesRank, UpdateStatus, Reread;
  }

  lemma ReadingRankFalls(s: System, conditions: nat)
    requires Inv(s) && OnTrack(s) && Reading(s.controller.pc)
    requires s.cached == s.Latest()
    ensures RankFalls(s, OuterStep(s, Applied, false, conditions))
  {
    OnTrackIsSomewhere(s);
    hide Inv, OnTrack, OuterStep, RankFalls;
    match s.controller.pc
    case InitStatus => InitStatusRankFalls(s, conditions);
    case InitReread => InitRereadRankFalls(s, conditions);
    case AddFinalizer => AddFinalizerRankFalls(s, conditions);
  }

  /** What may yet be read matters only to a reconcile that has yet to read. */
  lemma OnlyBeforeReading(s: System, most: nat)
    requires s.controller.Busy? && !Reading(s.controller.pc)
    ensures CallsLeft(s, most) == CallsLeft(s, 10)
  {
    hide BothRanks, FamiliesRank;
  }

  /** Once the object is read, every call brings the end nearer, undisturbed or not. */
  lemma LaterRankFalls(s: System, answer: bool, conditions: nat)
    requires Inv(s) && OnTrack(s) && !Reading(s.controller.pc)
    requires
      var t := CallStep(s, Applied, answer, conditions);
      t.controller.Busy? ==> t.WellFormed() && t.Server().Some?
    ensures RankFalls(s, CallStep(s, Applied, answer, conditions))
  {
    var t := CallStep(s, Applied, answer, conditions);
    OnTrackIsSomewhere(s);
    NothingLeftToRead(s, 0, 0);
    CallNears(s, Applied, answer, conditions, 0, 0);
    ReadsNoMore(s, Applied, answer, conditions);
    hide Inv, OnTrack, CallStep, BothRanks, CallsLeft;
    if t.controller.Busy? {
      OnlyBeforeReading(s, BothRanks(s.own, s.Server().value));
      OnlyBeforeReading(t, BothRanks(t.own, t.Server().value));
    }
  }

  lemma CallRankFalls(s: System, w: World, conditions: nat)
    requires Inv(s) && OnTrack(s) && s.cached == s.Latest()
    ensures RankFalls(s, Step(s, Call(Applied, Answer(s, w), conditions)))
  {
    OnTrackIsSomewhere(s);
    CallAdvances(s, w, conditions);
    CallIs(s, Answer(s, w), conditions);
    hide Inv, OnTrack, CallStep, MetricsStep, FamilyStep, OuterStep, RankFalls, Done, Advances, AdvancesOrEnds;
    if Reading(s.controller.pc) {
      ReadingRankFalls(s, conditions);
    } else {
      AdvancingIsSomewhere(s, Step(s, Call(Applied, Answer(s, w), conditions)));
      LaterRankFalls(s, Answer(s, w), conditions);
    }
  }

  lemma AdvancingIsSomewhere(s: System, t: System)
    requires s.WellFormed() && s.controller.Busy? && s.Server().Some? && AdvancesOrEnds(s, t)
    ensures t.controller.Busy? ==> t.WellFormed() && t.Server().Some?
  {
    hide Done, FamilyOnTrack, Settled;
  }

  /** Every undisturbed call gets nearer to the end, and the last one leaves the grants
      settled. */
  lemma HonestAdvances(s: System, w: World, conditions: nat)
    requires Inv(s) && OnTrack(s)
    ensures
      var t := Honest(s, w, conditions);
      Inv(t) && AdvancesOrEnds(s, t) && RankFalls(s, t)
  {
    CalmKeepsInv(s, Answer(s, w), conditions);
    CaughtUpIs(s);
    var c := CaughtUp(s);
    CatchingUpStaysOnTrack(s, c);
    CallAdvances(c, w, conditions);
    CallRankFalls(c, w, conditions);
    assert Answer(c, w) == Answer(s, w);
    hide Inv, OnTrack, Step, CaughtUp, Done, TrackRank;
  }

  lemma CatchingUpStaysOnTrack(s: System, c: System)
    requires OnTrack(s) && c == s.(cached := s.Latest())
    ensures OnTrack(c) && TrackRank(c) == TrackRank(s)
  {
    hide Desired;
  }

  /** A run of undisturbed calls with the answers of a caught-up cache. */
  ghost function HonestRun(s: System, w: World, conditions: seq<nat>): System
    requires Inv(s)
    decreases |conditions|
  {
    if conditions == [] || s.controller.Idle? then s
    else
      CalmKeepsInv(s, Answer(s, w), conditions[0]);
      HonestRun(Honest(s, w, conditions[0]), w, conditions[1..])
  }

  // ---------------------------------------------------------- the stored record

  /** The stored record while the monitors are worked on. */
  function Between(own: Namespace, spec: Spec, before: Per<seq<Namespace>>): Per<seq<Namespace>> {
    var d := Desired(own, spec, Discovery);
    if d != [] then Per(Union(before.discovery, d), before.monitor) else before
  }

  /** What the records are on the way, from `before` on: the one in memory, and the one on
      the server. */
  ghost predicate RecordsOnTrack(s: System, w: World, before: Per<seq<Namespace>>)
    requires s.WellFormed() && s.controller.Busy? && s.Server().Some?
  {
    var mine, stored := s.controller.inst.status.record, s.Server().value.status.record;
    var wanted := Wanted(s.own, s.controller.inst.spec);
    var widened := Per(Union(before.discovery, wanted.discovery), before.monitor);
    var between := Between(s.own, s.controller.inst.spec, before);
    match s.controller.pc
    case DropRole(f) =>
      if f.Discovery? then mine == Per([], before.monitor) && stored == before
      else mine == Per(wanted.discovery, []) && stored == between
    case Bind(f, _, _) =>
      mine == stored == if f.Discovery? then widened else Per(wanted.discovery, Union(before.monitor, wanted.monitor))
    case Prune(f, _) =>
      mine == stored == if f.Discovery? then widened else Per(wanted.discovery, Union(before.monitor, wanted.monitor))
    case pc =>
      if Late(pc) then
        mine == wanted && stored == StoredAfter(s.own, s.controller.inst.spec, before) && (pc.Deploy? || !w.drift)
      else if Working(pc) == Some(Monitor) then mine == Per(wanted.discovery, before.monitor) && stored == between
      else mine == before && stored == before
  }

  /** The record a reconcile leaves on the server. */
  ghost predicate LeavesRecord(t: System, w: World, spec: Spec, before: Per<seq<Namespace>>)
    requires t.WellFormed()
  {
    t.Server().Some? &&
    t.Server().value.status.record == if w.drift then StoredAfter(t.own, spec, before) else Wanted(t.own, spec)
  }

  ghost predicate RecordsGoOn(s: System, t: System, w: World, before: Per<seq<Namespace>>)
    requires s.WellFormed() && s.Server().Some?
  {
    && t.WellFormed() && t.Server().Some?
    && if t.controller.Busy? then RecordsOnTrack(t, w, before) else LeavesRecord(t, w, s.Server().value.spec, before)
  }

  lemma InitStatusRecords(s: System, w: World, conditions: nat, before: Per<seq<Namespace>>)
    requires Inv(s) && OnTrack(s) && s.controller.pc.InitStatus? && RecordsOnTrack(s, w, before)
    ensures RecordsGoOn(s, OuterStep(s, Applied, false, conditions), w, before)
  {
    OnTrackKnows(s);
    FreshWrite(s, conditions, InitReread, Halt(s));
    hide Inv, Recorded, FamilyOnTrack, Settled, Union, StoredAfter, Wanted, UpdateStatus;
  }

  lemma InitRereadRecords(s: System, w: World, conditions: nat, before: Per<seq<Namespace>>)
    requires OnTrack(s) && s.controller.pc.InitReread? && s.cached == s.Latest() && RecordsOnTrack(s, w, before)
    ensures RecordsGoOn(s, OuterStep(s, Applied, false, conditions), w, before)
  {
    hide FamilyOnTrack, Settled, Union, StoredAfter, Wanted, UpdateStatus, UpdateFinalizer;
  }

  lemma AddFinalizerRecords(s: System, w: World, conditions: nat, before: Per<seq<Namespace>>)
    requires Inv(s) && OnTrack(s) && s.controller.pc.AddFinalizer? && RecordsOnTrack(s, w, before)
    ensures RecordsGoOn(s, OuterStep(s, Applied, false, conditions), w, before)
  {
    hide Inv, Recorded, FamilyOnTrack, Settled, Union, StoredAfter, Wanted, UpdateStatus, Reread, Between, Desired;
    OnTrackKnows(s);
  }

  lemma DeployRecords(s: System, w: World, conditions: nat, before: Per<seq<Namespace>>)
    requires Inv(s) && OnTrack(s) && s.controller.pc.Deploy? && RecordsOnTrack(s, w, before)
    ensures RecordsGoOn(s, OuterStep(s, Applied, w.drift, conditions), w, before)
  {
    hide Inv, Desired, Recorded, Union, StoredAfter, Wanted, Between;
    OnTrackKnows(s);
    DeployIs(s, w.drift, conditions);
    hide OnTrack, OuterStep;
  }

  /** The closing write stores what is wanted. */
  lemma ClosingRecords(s: System, w: World, conditions: nat, before: Per<seq<Namespace>>, ok: Pc)
    requires Inv(s) && OnTrack(s) && (s.controller.pc.Finish? || s.controller.pc.FailStatus?)
      && RecordsOnTrack(s, w, before)
    ensures RecordsGoOn(s, Halt(UpdateStatus(s, Applied, conditions, ok, Halt(s))), w, before)
  {
    OnTrackKnows(s);
    ClosingWrite(s, conditions, ok);
    hide Inv, OnTrack, Recorded, Union, StoredAfter, UpdateStatus, Wanted;
  }

  lemma FinishRecords(s: System, w: World, conditions: nat, before: Per<seq<Namespace>>)
    requires Inv(s) && OnTrack(s) && s.controller.pc.Finish? && RecordsOnTrack(s, w, before)
    ensures RecordsGoOn(s, OuterStep(s, Applied, w.blocked, conditions), w, before)
  {
    FinishIs(s, w.blocked, conditions);
    OnTrackIsSomewhere(s);
    if !w.blocked {
      ClosingRecords(s, w, conditions, before, Finish);
    }
    hide Inv, OnTrack, Union, StoredAfter, UpdateStatus, Wanted, OuterStep;
  }

  lemma FailStatusRecords(s: System, w: World, conditions: nat, before: Per<seq<Namespace>>)
    requires Inv(s) && OnTrack(s) && s.controller.pc.FailStatus? && RecordsOnTrack(s, w, before)
    ensures RecordsGoOn(s, OuterStep(s, Applied, false, conditions), w, before)
  {
    FailStatusIs(s, conditions);
    ClosingRecords(s, w, conditions, before, FailStatus);
    hide Inv, OnTrack, RecordsOnTrack, RecordsGoOn, UpdateStatus, OuterStep;
  }

  lemma OuterRecords(s: System, w: World, conditions: nat, before: Per<seq<Namespace>>)
    requires Inv(s) && OnTrack(s) && s.cached == s.Latest() && RecordsOnTrack(s, w, before)
    requires !InFamily(s.controller.pc) && !InMetrics(s.controller.pc)
    ensures RecordsGoOn(s, OuterStep(s, Applied, Answer(s, w), conditions), w, before)
  {
    OnTrackIsSomewhere(s);
    hide Inv, OnTrack, OuterStep, RecordsOnTrack, RecordsGoOn;
    match s.controller.pc
    case InitStatus => InitStatusRecords(s, w, conditions, before);
    case InitReread => InitRereadRecords(s, w, conditions, before);
    case AddFinalizer => AddFinalizerRecords(s, w, conditions, before);
    case Deploy => DeployRecords(s, w, conditions, before);
    case Finish => FinishRecords(s, w, conditions, before);
    case FailStatus => FailStatusRecords(s, w, conditions, before);
  }

  lemma MetricsRecords(s: System, w: World, before: Per<seq<Namespace>>)
    requires OnTrack(s) && InMetrics(s.controller.pc) && RecordsOnTrack(s, w, before)
    ensures RecordsGoOn(s, MetricsStep(s, Applied, Answer(s, w)), w, before)
  {
    assert s.controller.pc != DropMetricsRole(true);
    OnTrackIsSomewhere(s);
    MetricsMoves(s, w);
    hide OnTrack, MetricsStep, MetricsGoOn, OnlyPcMoves, BeginFamily, RecordsOnTrack, RecordsGoOn;
    var t := MetricsStep(s, Applied, Answer(s, w));
    if t.controller.pc == BeginFamily(s.own, s.controller.inst, Discovery) {
      EntersUntouched(s, t, w, before);
    } else {
      StaysUntouched(s, t, w, before);
    }
  }

  /** Before the families, neither record has changed. */
  lemma StaysUntouched(s: System, t: System, w: World, before: Per<seq<Namespace>>)
    requires s.WellFormed() && s.controller.Busy? && s.Server().Some? && RecordsOnTrack(s, w, before)
    requires OnlyPcMoves(s, t) && MetricsGoOn(s.controller.pc, t.controller.pc)
    ensures RecordsGoOn(s, t, w, before)
  {
    hide Union, StoredAfter, Wanted;
  }

  lemma EntersUntouched(s: System, t: System, w: World, before: Per<seq<Namespace>>)
    requires s.WellFormed() && s.controller.Busy? && s.Server().Some? && RecordsOnTrack(s, w, before)
    requires OnlyPcMoves(s, t) && InMetrics(s.controller.pc)
    requires t.controller.pc == BeginFamily(s.own, s.controller.inst, Discovery)
    ensures RecordsGoOn(s, t, w, before)
  {
    hide Union, StoredAfter, Desired;
  }

  /** A call that deletes, or that creates nothing but RBAC objects, leaves the server's
      object alone. */
  ghost predicate SameObject(s: System, t: System) {
    && s.WellFormed() && s.controller.Busy? && t.controller.Busy?
    && t.history == s.history && t.own == s.own && t.cached == s.cached
    && t.controller.inst.spec == s.controller.inst.spec
  }

  lemma StaysInFamily(s: System, t: System, w: World, before: Per<seq<Namespace>>)
    requires SameObject(s, t) && s.Server().Some? && RecordsOnTrack(s, w, before)
    requires t.controller.inst.status.record == s.controller.inst.status.record
    requires
      var pc, pc' := s.controller.pc, t.controller.pc;
      && Working(pc').Some? && Working(pc') == Working(pc)
      && ((pc.Unbind? && pc'.Unbind?) || (pc.EnsureRole? && pc'.Persist?) || (pc.Bind? && pc'.Bind?)
          || (pc.Bind? && pc'.Prune?) || (pc.Prune? && pc'.Prune?))
    ensures RecordsGoOn(s, t, w, before)
  {
    hide Desired, Union, StoredAfter;
  }

  lemma UnboundRecords(s: System, w: World, conditions: nat, before: Per<seq<Namespace>>)
    requires OnTrack(s) && s.controller.pc.Unbind? && s.controller.pc.todo == [] && RecordsOnTrack(s, w, before)
    ensures RecordsGoOn(s, FamilyStep(s, Applied, false, conditions), w, before)
  {
    OnTrackIsSomewhere(s);
    UnboundIs(s, conditions);
    hide OnTrack, Desired, Union, StoredAfter, FamilyStep;
  }

  /** Where the work on the monitors begins. */
  lemma EntersMonitor(t: System, w: World, before: Per<seq<Namespace>>)
    requires t.WellFormed() && t.controller.Busy? && t.Server().Some?
    requires t.controller.pc == BeginFamily(t.own, t.controller.inst, Monitor)
    requires
      var wanted := Wanted(t.own, t.controller.inst.spec);
      && t.controller.inst.status.record == Per(wanted.discovery, before.monitor)
      && t.Server().value.status.record == Between(t.own, t.controller.inst.spec, before)
    ensures RecordsOnTrack(t, w, before)
  {
    hide Union, Desired, StoredAfter;
  }

  /** And where both families are done. */
  lemma EntersDeploy(t: System, w: World, before: Per<seq<Namespace>>)
    requires t.WellFormed() && t.controller.Busy? && t.Server().Some? && t.controller.pc.Deploy?
    requires t.controller.inst.status.record == Wanted(t.own, t.controller.inst.spec)
    requires t.Server().value.status.record == StoredAfter(t.own, t.controller.inst.spec, before)
    ensures RecordsOnTrack(t, w, before)
  {
    hide Union, Desired, StoredAfter, Wanted;
  }

  /** What the records are when a family has been dropped or pruned. */
  lemma FamilyRecordsAre(s: System, w: World, before: Per<seq<Namespace>>)
    requires s.WellFormed() && s.controller.Busy? && s.Server().Some? && RecordsOnTrack(s, w, before)
    ensures
      var pc, mine, stored := s.controller.pc, s.controller.inst.status.record, s.Server().value.status.record;
      var wanted := Wanted(s.own, s.controller.inst.spec);
      && ((pc == DropRole(Discovery) && wanted.discovery == mine.discovery == [])
          || (pc == Prune(Discovery, []) && wanted.discovery != []) ==>
            mine.monitor == before.monitor && stored == Between(s.own, s.controller.inst.spec, before))
      && ((pc == DropRole(Monitor) && wanted.monitor == mine.monitor == [])
          || (pc == Prune(Monitor, []) && wanted.monitor != []) ==>
            mine.discovery == wanted.discovery && stored == StoredAfter(s.own, s.controller.inst.spec, before))
      && (pc.DropRole? ==> mine.Of(pc.f) == [])
  {
    hide Desired, Union;
  }

  lemma DropRoleRecords(s: System, w: World, conditions: nat, before: Per<seq<Namespace>>)
    requires OnTrack(s) && s.controller.pc.DropRole? && RecordsOnTrack(s, w, before)
    ensures RecordsGoOn(s, FamilyStep(s, Applied, false, conditions), w, before)
  {
    OnTrackIsSomewhere(s);
    WorksOnWanted(s);
    DropRoleIs(s, conditions);
    FamilyRecordsAre(s, w, before);
    hide OnTrack, FamilyStep, BeginFamily, Desired, Between, StoredAfter, RecordsOnTrack;
    var t := FamilyStep(s, Applied, false, conditions);
    if s.controller.pc.f.Discovery? {
      EntersMonitor(t, w, before);
    } else {
      EntersDeploy(t, w, before);
    }
  }

  lemma NarrowRecords(s: System, w: World, conditions: nat, before: Per<seq<Namespace>>)
    requires OnTrack(s) && s.controller.pc.Prune? && s.controller.pc.todo == [] && RecordsOnTrack(s, w, before)
    ensures RecordsGoOn(s, FamilyStep(s, Applied, false, conditions), w, before)
  {
    hide FamilyStep, BeginFamily, Desired, Between, StoredAfter, Union;
    OnTrackIsSomewhere(s);
    WorksOnWanted(s);
    NarrowIs(s, conditions);
    FamilyRecordsAre(s, w, before);
    hide OnTrack, RecordsOnTrack;
    var t := FamilyStep(s, Applied, false, conditions);
    if s.controller.pc.f.Discovery? {
      EntersMonitor(t, w, before);
    } else {
      EntersDeploy(t, w, before);
    }
  }

  /** A family that wants nothing is dropped, another one is bound. */
  lemma WorksOnWanted(s: System)
    requires OnTrack(s) && InFamily(s.controller.pc)
    ensures
      var f := Working(s.controller.pc).value;
      Desired(s.own, s.controller.inst.spec, f) == [] <==> s.controller.pc.Unbind? || s.controller.pc.DropRole?
  {
    hide Desired, Settled;
  }

  lemma PersistRecords(s: System, w: World, conditions: nat, before: Per<seq<Namespace>>)
    requires Inv(s) && OnTrack(s) && s.controller.pc.Persist? && RecordsOnTrack(s, w, before)
    ensures RecordsGoOn(s, FamilyStep(s, Applied, false, conditions), w, before)
  {
    OnTrackKnows(s);
    OnTrackIsSomewhere(s);
    WorksOnWanted(s);
    PersistIs(s, conditions);
    var f := s.controller.pc.f;
    var ok := Bind(f, s.controller.inst.status.record.Of(f), Desired(s.own, s.controller.inst.spec, f));
    WidenIs(s, f);
    assert Fresh(s);
    hide Inv, OnTrack, FamilyStep, Desired, Union, UpdateStatus, Widen, Recorded, RecordsOnTrack, RecordsGoOn;
    FreshWrite(Widen(s, f), conditions, ok, FailAvailable(Widen(s, f)));
    WidenedRecords(s, FamilyStep(s, Applied, false, conditions), w, before);
  }

  lemma WidenIs(s: System, f: Family)
    requires s.controller.Busy?
    ensures
      var inst := s.controller.inst;
      var widened := Union(inst.status.record.Of(f), Desired(s.own, inst.spec, f));
      Widen(s, f) == s.(controller := s.controller.(inst := SetRecord(inst, f, widened)))
  {
    hide Union, Desired;
  }

  lemma WidenedRecords(s: System, t: System, w: World, before: Per<seq<Namespace>>)
    requires s.WellFormed() && s.controller.Busy? && s.Server().Some? && RecordsOnTrack(s, w, before)
    requires s.controller.pc.Persist? && Desired(s.own, s.controller.inst.spec, s.controller.pc.f) != []
    requires t.WellFormed() && t.controller.Busy? && t.controller.pc.Bind? && t.controller.pc.f == s.controller.pc.f
    requires t.own == s.own && t.controller.inst.spec == s.controller.inst.spec && t.Server() == Some(t.controller.inst)
    requires
      var f, mine := s.controller.pc.f, s.controller.inst.status.record;
      t.controller.inst.status.record == mine.With(f, Union(mine.Of(f), Desired(s.own, s.controller.inst.spec, f)))
    ensures RecordsGoOn(s, t, w, before)
  {
    hide Desired, Union, StoredAfter;
  }

  lemma UnbindRecords(s: System, w: World, conditions: nat, before: Per<seq<Namespace>>)
    requires s.WellFormed() && s.controller.Busy? && s.Server().Some? && RecordsOnTrack(s, w, before)
    requires s.controller.pc.Unbind? && s.controller.pc.todo != []
    ensures RecordsGoOn(s, FamilyStep(s, Applied, false, conditions), w, before)
  {
    UnbindIs(s, conditions);
    hide FamilyStep, RecordsOnTrack, RecordsGoOn, Removed;
    StaysInFamily(s, FamilyStep(s, Applied, false, conditions), w, before);
  }

  lemma EnsureRoleRecords(s: System, w: World, conditions: nat, before: Per<seq<Namespace>>)
    requires s.WellFormed() && s.controller.Busy? && s.Server().Some? && RecordsOnTrack(s, w, before)
    requires s.controller.pc.EnsureRole?
    ensures RecordsGoOn(s, FamilyStep(s, Applied, s.roles.Of(s.controller.pc.f), conditions), w, before)
  {
    EnsureRoleIs(s, conditions);
    hide FamilyStep, RecordsOnTrack, RecordsGoOn, Removed;
    StaysInFamily(s, FamilyStep(s, Applied, s.roles.Of(s.controller.pc.f), conditions), w, before);
  }

  lemma BindRecords(s: System, w: World, conditions: nat, before: Per<seq<Namespace>>)
    requires s.WellFormed() && s.controller.Busy? && s.Server().Some? && RecordsOnTrack(s, w, before)
    requires s.controller.pc.Bind? && s.controller.pc.todo != []
    ensures
      var bound := s.controller.pc.todo[0] in s.bindings.Of(s.controller.pc.f);
      RecordsGoOn(s, FamilyStep(s, Applied, bound, conditions), w, before)
  {
    BindIs(s, conditions);
    hide FamilyStep, RecordsOnTrack, RecordsGoOn, Removed;
    var bound := s.controller.pc.todo[0] in s.bindings.Of(s.controller.pc.f);
    StaysInFamily(s, FamilyStep(s, Applied, bound, conditions), w, before);
  }

  lemma BoundRecords(s: System, w: World, conditions: nat, before: Per<seq<Namespace>>)
    requires s.WellFormed() && s.controller.Busy? && s.Server().Some? && RecordsOnTrack(s, w, before)
    requires s.controller.pc.Bind? && s.controller.pc.todo == []
    ensures RecordsGoOn(s, FamilyStep(s, Applied, false, conditions), w, before)
  {
    BoundIs(s, conditions);
    hide FamilyStep, RecordsOnTrack, RecordsGoOn, Removed;
    StaysInFamily(s, FamilyStep(s, Applied, false, conditions), w, before);
  }

  lemma PruneRecords(s: System, w: World, conditions: nat, before: Per<seq<Namespace>>)
    requires s.WellFormed() && s.controller.Busy? && s.Server().Some? && RecordsOnTrack(s, w, before)
    requires s.controller.pc.Prune? && s.controller.pc.todo != []
    ensures RecordsGoOn(s, FamilyStep(s, Applied, false, conditions), w, before)
  {
    PruneIs(s, conditions);
    hide FamilyStep, RecordsOnTrack, RecordsGoOn, Removed;
    StaysInFamily(s, FamilyStep(s, Applied, false, conditions), w, before);
  }

  lemma FamilyRecords(s: System, w: World, conditions: nat, before: Per<seq<Namespace>>)
    requires Inv(s) && OnTrack(s) && InFamily(s.controller.pc) && RecordsOnTrack(s, w, before)
    ensures RecordsGoOn(s, FamilyStep(s, Applied, Answer(s, w), conditions), w, before)
  {
    OnTrackIsSomewhere(s);
    hide Inv, OnTrack, FamilyStep, RecordsOnTrack, RecordsGoOn;
    match s.controller.pc
    case Unbind(_, todo) =>
      if todo == [] { UnboundRecords(s, w, conditions, before); } else { UnbindRecords(s, w, conditions, before); }
    case DropRole(_) => DropRoleRecords(s, w, conditions, before);
    case EnsureRole(_) => EnsureRoleRecords(s, w, conditions, before);
    case Persist(_) => PersistRecords(s, w, conditions, before);
    case Bind(_, _, todo) =>
      if todo == [] { BoundRecords(s, w, conditions, before); } else { BindRecords(s, w, conditions, before); }
    case Prune(_, todo) =>
      if todo == [] { NarrowRecords(s, w, conditions, before); } else { PruneRecords(s, w, conditions, before); }
  }

  lemma CallRecords(s: System, w: World, conditions: nat, before: Per<seq<Namespace>>)
    requires Inv(s) && OnTrack(s) && s.cached == s.Latest() && RecordsOnTrack(s, w, before)
    ensures RecordsGoOn(s, Step(s, Call(Applied, Answer(s, w), conditions)), w, before)
  {
    OnTrackIsSomewhere(s);
    CallIs(s, Answer(s, w), conditions);
    hide Inv, OnTrack, Step, FamilyStep, MetricsStep, OuterStep, RecordsOnTrack, RecordsGoOn;
    if InMetrics(s.controller.pc) {
      MetricsRecords(s, w, before);
    } else if InFamily(s.controller.pc) {
      FamilyRecords(s, w, conditions, before);
    } else {
      OuterRecords(s, w, conditions, before);
    }
  }

  lemma HonestRecords(s: System, w: World, conditions: nat, before: Per<seq<Namespace>>)
    requires Inv(s) && OnTrack(s) && RecordsOnTrack(s, w, before)
    ensures RecordsGoOn(s, Honest(s, w, conditions), w, before)
  {
    CalmKeepsInv(s, Answer(s, w), conditions);
    CaughtUpIs(s);
    var c := CaughtUp(s);
    CatchingUpStaysOnTrack(s, c);
    CatchingUpKeepsRecords(s, c, w, before);
    CallRecords(c, w, conditions, before);
    assert Answer(c, w) == Answer(s, w);
    hide Inv, OnTrack, Step, CaughtUp, RecordsOnTrack;
  }

  lemma CatchingUpKeepsRecords(s: System, c: System, w: World, before: Per<seq<Namespace>>)
    requires s.WellFormed() && s.controller.Busy? && s.Server().Some? && c == s.(cached := s.Latest())
    requires RecordsOnTrack(s, w, before)
    ensures RecordsOnTrack(c, w, before)
  {
    hide Desired, Union, StoredAfter;
  }

  // --------------------------------------------------------- the metrics objects

  /** The metrics ClusterRole and ClusterRoleBinding exist exactly if they are wanted. */
  ghost predicate MetricsSettled(s: System, w: World) {
    s.metricsRole == w.metrics && s.metricsBinding == w.metrics
  }

  /** The work on them is at the right point, and past it they are settled. */
  ghost predicate MetricsOnTrack(s: System, w: World)
    requires s.controller.Busy?
  {
    match s.controller.pc
    case EnsureMetricsRole => w.metrics
    case EnsureMetricsBinding => w.metrics && s.metricsRole
    case DropMetricsBinding => !w.metrics
    case DropMetricsRole(_) => !w.metrics && !s.metricsBinding
    case pc => Early(pc) || MetricsSettled(s, w)
  }

  ghost predicate MetricsGoWell(t: System, w: World) {
    if t.controller.Busy? then MetricsOnTrack(t, w) else MetricsSettled(t, w)
  }

  lemma MetricsCallGoesWell(s: System, w: World)
    requires s.WellFormed() && s.controller.Busy? && InMetrics(s.controller.pc)
    requires s.controller.pc != DropMetricsRole(true) && MetricsOnTrack(s, w)
    ensures MetricsGoWell(MetricsStep(s, Applied, Answer(s, w)), w)
  {
    hide Desired;
  }

  ghost predicate SameMetrics(s: System, t: System) {
    t.metricsRole == s.metricsRole && t.metricsBinding == s.metricsBinding
  }

  lemma FamilyLeavesMetrics(s: System, answer: bool, conditions: nat)
    requires s.WellFormed() && s.controller.Busy? && InFamily(s.controller.pc)
    ensures
      var t := FamilyStep(s, Applied, answer, conditions);
      SameMetrics(s, t) && t.controller.Busy? && (InFamily(t.controller.pc) || Late(t.controller.pc))
  {
    if s.controller.pc.Persist? {
      PersistLeavesMetrics(s, answer, conditions);
    } else {
      WorkLeavesMetrics(s, answer, conditions);
    }
  }

  lemma PersistLeavesMetrics(s: System, answer: bool, conditions: nat)
    requires s.WellFormed() && s.controller.Busy? && s.controller.pc.Persist?
    ensures
      var t := FamilyStep(s, Applied, answer, conditions);
      SameMetrics(s, t) && t.controller.Busy? && (InFamily(t.controller.pc) || Late(t.controller.pc))
  {
    hide Desired, Union;
  }

  lemma AfterFamilyIsLater(own: Namespace, d: Dashboard, f: Family)
    ensures var pc := AfterFamily(own, d, f); InFamily(pc) || Late(pc)
  {
    hide Desired;
  }

  lemma WorkLeavesMetrics(s: System, answer: bool, conditions: nat)
    requires s.WellFormed() && s.controller.Busy? && InFamily(s.controller.pc) && !s.controller.pc.Persist?
    ensures
      var t := FamilyStep(s, Applied, answer, conditions);
      SameMetrics(s, t) && t.controller.Busy? && (InFamily(t.controller.pc) || Late(t.controller.pc))
  {
    var pc, inst := s.controller.pc, s.controller.inst;
    AfterFamilyIsLater(s.own, inst, pc.f);
    AfterFamilyIsLater(s.own, SetRecord(inst, pc.f, Desired(s.own, inst.spec, pc.f)), pc.f);
    hide Desired, Union, Removed, UpdateStatus, AfterFamily;
  }

  lemma StatusWriteLeavesMetrics(s: System, conditions: nat, ok: Pc)
    requires s.WellFormed() && s.controller.Busy?
    ensures
      var t := UpdateStatus(s, Applied, conditions, ok, Halt(s));
      SameMetrics(s, t) && (t.controller.Busy? ==> t.controller.pc == ok)
  {
  }

  lemma LateLeavesMetrics(s: System, answer: bool, conditions: nat)
    requires s.WellFormed() && s.controller.Busy? && Late(s.controller.pc)
    ensures
      var t := OuterStep(s, Applied, answer, conditions);
      SameMetrics(s, t) && (t.controller.Busy? ==> Late(t.controller.pc))
  {
    StatusWriteLeavesMetrics(s, conditions, Finish);
    StatusWriteLeavesMetrics(s, conditions, FailStatus);
    hide UpdateStatus, UpdateFinalizer, Reread;
  }

  lemma InitStatusStaysEarly(s: System, conditions: nat)
    requires Inv(s) && OnTrack(s) && s.controller.pc.InitStatus?
    ensures
      var t := OuterStep(s, Applied, false, conditions);
      t.controller.Busy? && (Reading(t.controller.pc) || t.controller.pc.Owned?)
  {
    OnTrackKnows(s);
    FreshWrite(s, conditions, InitReread, Halt(s));
    hide Inv, Recorded, FamilyOnTrack, Settled, UpdateStatus, UpdateFinalizer, Reread;
  }

  lemma InitRereadStaysEarly(s: System, conditions: nat)
    requires OnTrack(s) && s.controller.pc.InitReread? && s.cached == s.Latest()
    ensures
      var t := OuterStep(s, Applied, false, conditions);
      t.controller.Busy? && (Reading(t.controller.pc) || t.controller.pc.Owned?)
  {
    hide FamilyOnTrack, Settled, UpdateStatus, UpdateFinalizer;
  }

  lemma AddFinalizerStaysEarly(s: System, conditions: nat)
    requires Inv(s) && OnTrack(s) && s.controller.pc.AddFinalizer?
    ensures
      var t := OuterStep(s, Applied, false, conditions);
      t.controller.Busy? && (Reading(t.controller.pc) || t.controller.pc.Owned?)
  {
    OnTrackKnows(s);
    hide Inv, Recorded, FamilyOnTrack, Settled, UpdateStatus, Reread;
  }

  /** Before the objects are looked at, the reconcile goes on, and stays before. */
  lemma ReadingStaysEarly(s: System, conditions: nat)
    requires Inv(s) && OnTrack(s) && Reading(s.controller.pc) && s.cached == s.Latest()
    ensures
      var t := OuterStep(s, Applied, false, conditions);
      t.controller.Busy? && (Reading(t.controller.pc) || t.controller.pc.Owned?)
  {
    OnTrackIsSomewhere(s);
    hide Inv, OnTrack, OuterStep;
    match s.controller.pc
    case InitStatus => InitStatusStaysEarly(s, conditions);
    case InitReread => InitRereadStaysEarly(s, conditions);
    case AddFinalizer => AddFinalizerStaysEarly(s, conditions);
  }

  lemma CallGoesWell(s: System, w: World, conditions: nat)
    requires Inv(s) && OnTrack(s) && s.cached == s.Latest() && MetricsOnTrack(s, w)
    ensures MetricsGoWell(Step(s, Call(Applied, Answer(s, w), conditions)), w)
  {
    OnTrackIsSomewhere(s);
    NoFailedDrop(s);
    CallIs(s, Answer(s, w), conditions);
    hide Inv, OnTrack, Step, FamilyStep, MetricsStep, OuterStep, MetricsOnTrack, MetricsGoWell, SameMetrics;
    if InMetrics(s.controller.pc) {
      MetricsCallGoesWell(s, w);
    } else if InFamily(s.controller.pc) {
      FamilyLeavesMetrics(s, Answer(s, w), conditions);
      SettledGoesWell(s, FamilyStep(s, Applied, Answer(s, w), conditions), w);
    } else if Late(s.controller.pc) {
      LateLeavesMetrics(s, Answer(s, w), conditions);
      SettledGoesWell(s, OuterStep(s, Applied, Answer(s, w), conditions), w);
    } else {
      ReadingStaysEarly(s, conditions);
      EarlyGoesWell(OuterStep(s, Applied, false, conditions), w);
    }
  }

  lemma SettledGoesWell(s: System, t: System, w: World)
    requires s.controller.Busy? && (InFamily(s.controller.pc) || Late(s.controller.pc)) && MetricsOnTrack(s, w)
    requires SameMetrics(s, t) && (t.controller.Busy? ==> InFamily(t.controller.pc) || Late(t.controller.pc))
    ensures MetricsGoWell(t, w)
  {
  }

  lemma EarlyGoesWell(t: System, w: World)
    requires t.controller.Busy? && (Reading(t.controller.pc) || t.controller.pc.Owned?)
    ensures MetricsGoWell(t, w)
  {
  }

  lemma NoFailedDrop(s: System)
    requires OnTrack(s)
    ensures s.controller.pc != DropMetricsRole(true)
  {
    hide FamilyOnTrack, Settled;
  }

  lemma HonestGoesWell(s: System, w: World, conditions: nat)
    requires Inv(s) && OnTrack(s) && MetricsOnTrack(s, w)
    ensures MetricsGoWell(Honest(s, w, conditions), w)
  {
    CalmKeepsInv(s, Answer(s, w), conditions);
    CaughtUpIs(s);
    var c := CaughtUp(s);
    CatchingUpStaysOnTrack(s, c);
    assert MetricsOnTrack(c, w) && Answer(c, w) == Answer(s, w);
    hide Inv, OnTrack, Step, CaughtUp, MetricsOnTrack;
    CallGoesWell(c, w, conditions);
  }

  // ------------------------------------------------------------ all of it together

  lemma {:induction false} HonestRunArrives(s: System, w: World, conditions: seq<nat>, before: Per<seq<Namespace>>)
    requires Inv(s) && OnTrack(s) && RecordsOnTrack(s, w, before) && MetricsOnTrack(s, w)
    requires |conditions| >= TrackRank(s)
    ensures
      var t, spec := HonestRun(s, w, conditions), s.Server().value.spec;
      t.own == s.own && Inv(t) && Done(t, spec) && MetricsSettled(t, w) && LeavesRecord(t, w, spec, before)
    decreases |conditions|
  {
    OnTrackIsSomewhere(s);
    HonestAdvances(s, w, conditions[0]);
    HonestRecords(s, w, conditions[0], before);
    HonestGoesWell(s, w, conditions[0]);
    var t := Honest(s, w, conditions[0]);
    hide Inv, OnTrack, Done, Honest, RecordsOnTrack, MetricsOnTrack, LeavesRecord, TrackRank;
    if t.controller.Busy? {
      HonestRunArrives(t, w, conditions[1..], before);
    } else {
      assert HonestRun(t, w, conditions[1..]) == t;
    }
  }

  /** From every state that can be reached with a live Dashboard and no reconcile running,
      one undisturbed reconcile leaves the RoleBindings and ClusterRoles of both families
      exactly as the spec wants them, and the metrics objects existing exactly if they are
      wanted, whatever else it has to do. The stored record covers the RoleBindings, and
      it is exact if and only if the reconcile got to its closing status write, or that
      had nothing to narrow. */
  lemma Settles(s: System, w: World, conditions: seq<nat>)
    requires Inv(s) && s.WellFormed() && s.controller.Idle? && s.Server().Some? && !s.Server().value.deleting
    requires |conditions| >= 10 + BothRanks(s.own, s.Server().value)
    ensures Inv(CalmStart(s))
    ensures
      var t, d := HonestRun(CalmStart(s), w, conditions), s.Server().value;
      && t.own == s.own && Inv(t) && Done(t, d.spec) && MetricsSettled(t, w)
      && Recorded(t.bindings, t.Server().value.status.record)
      && LeavesRecord(t, w, d.spec, d.status.record)
      && (t.Server().value.status.record == Wanted(s.own, d.spec) <==>
            !w.drift || NothingToNarrow(s.own, d.spec, d.status.record))
  {
    StartsOnTrack(s, w);
    hide Inv, OnTrack, Desired, RecordsOnTrack, MetricsOnTrack, CalmStart;
    var t, d := HonestRun(CalmStart(s), w, conditions), s.Server().value;
    HonestRunArrives(CalmStart(s), w, conditions, d.status.record);
    StoredIsExactIff(s.own, d.spec, d.status.record);
    OnlyWantedIsRecorded(t, w, d.spec, d.status.record);
  }

  lemma OnlyWantedIsRecorded(t: System, w: World, spec: Spec, before: Per<seq<Namespace>>)
    requires t.WellFormed() && Done(t, spec) && LeavesRecord(t, w, spec, before)
    ensures Recorded(t.bindings, t.Server().value.status.record)
  {
    hide Desired;
  }

  /** The same from every reachable state, whatever faults led to it. */
  lemma {:induction false} ReconcileSettles(own: Namespace, run: seq<Event>, w: World, conditions: seq<nat>)
    requires
      var s := Exec(own, run);
      s.WellFormed() && s.controller.Idle? && s.Server().Some? && !s.Server().value.deleting
      && |conditions| >= 10 + BothRanks(s.own, s.Server().value)
    ensures
      var s := Exec(own, run);
      && Inv(CalmStart(s))
      && var t, d := HonestRun(CalmStart(s), w, conditions), s.Server().value;
         && Done(t, d.spec)
         && t.metricsRole == w.metrics && t.metricsBinding == w.metrics
         && Recorded(t.bindings, t.Server().value.status.record)
         && (t.Server().value.status.record == Wanted(own, d.spec) <==>
               !w.drift || NothingToNarrow(own, d.spec, d.status.record))
  {
    RunKeepsInv(own, run);
    Settles(Exec(own, run), w, conditions);
  }

  /** Nor does it matter whether a reconcile is running: enough undisturbed calls bring
      that one to its end, and the next one settles everything. */
  lemma {:induction false} ReconcileSettlesFromAnywhere(own: Namespace, run: seq<Event>, wanted: nat, recorded: nat,
                                                        first: seq<(bool, nat)>, w: World, second: seq<nat>)
    requires
      var s := Exec(own, run);
      && s.WellFormed() && s.Server().Some? && !s.Server().value.deleting
      && (s.controller.Busy? ==>
            Bounded(s, wanted, recorded) && |first| >= CallsLeft(s, 10 + wanted + recorded))
    ensures
      var s := Exec(own, run);
      && Inv(s)
      && var u, spec := CalmRun(s, first), s.Server().value.spec;
         && u.WellFormed() && Inv(u) && u.controller.Idle? && u.Server().Some? && Inv(CalmStart(u))
         && (|second| >= 10 + BothRanks(u.own, u.Server().value) ==>
               var t := HonestRun(CalmStart(u), w, second);
               && Done(t, spec)
               && t.metricsRole == w.metrics && t.metricsBinding == w.metrics
               && Recorded(t.bindings, t.Server().value.status.record)
               && (t.Server().value.status.record == Wanted(own, spec) <==>
                     !w.drift || NothingToNarrow(own, spec, u.Server().value.status.record)))
  {
    RunKeepsInv(own, run);
    var s := Exec(own, run);
    CalmRunEnds(s, first, wanted, recorded);
    CalmRunKeepsObject(s, first);
    var u := CalmRun(s, first);
    hide Inv, CalmRun, CalmStart, CallsLeft, Bounded, BothRanks, Wanted, NothingToNarrow;
    StartsOnTrack(u, w);
    if |second| >= 10 + BothRanks(u.own, u.Server().value) {
      Settles(u, w, second);
    }
  }

  /** After a reconcile that had to touch the Deployment, the next one, which does not,
      makes the record exact, and changes no RoleBinding. */
  lemma NextReconcileNarrows(s: System, w: World, conditions: seq<nat>, w': World, conditions': seq<nat>)
    requires Inv(s) && s.WellFormed() && s.controller.Idle? && s.Server().Some? && !s.Server().value.deleting
    requires |conditions| >= 10 + BothRanks(s.own, s.Server().value) && !w'.drift
    ensures
      && Inv(CalmStart(s))
      && var t := HonestRun(CalmStart(s), w, conditions);
         && Inv(t) && t.WellFormed() && t.Server().Some?
         && (|conditions'| >= 10 + BothRanks(t.own, t.Server().value) ==>
             && Inv(CalmStart(t))
             && var u := HonestRun(CalmStart(t), w', conditions');
                && Done(u, s.Server().value.spec) && u.bindings == t.bindings
                && u.Server().value.status.record == Wanted(s.own, s.Server().value.spec))
  {
    Settles(s, w, conditions);
    var t := HonestRun(CalmStart(s), w, conditions);
    hide Inv, CalmStart, BothRanks, Wanted, NothingToNarrow;
    if |conditions'| >= 10 + BothRanks(t.own, t.Server().value) {
      Settles(t, w', conditions');
      SecondReconcileChangesNothing(t, w', conditions');
    }
  }

  const WIDER := Spec(true, ["a", "b"], [])
  const NARROWER := Spec(true, ["a"], [])

  lemma WitnessLists()
    ensures Wanted("own", WIDER) == Per(["a", "b"], []) && Wanted("own", NARROWER) == Per(["a"], [])
  {
    OwnIsNotDesired("own", WIDER, Discovery);
    OwnIsNotDesired("own", NARROWER, Discovery);
    OwnIsNotDesired("own", WIDER, Monitor);
    OwnIsNotDesired("own", NARROWER, Monitor);
    NoneMeansEmpty(Desired("own", WIDER, Monitor));
    NoneMeansEmpty(Desired("own", NARROWER, Monitor));
    assert Elems(["a", "b"]) - {"own"} == Elems(["a", "b"]) && Elems(["a"]) - {"own"} == Elems(["a"]);
    StrictlySortedIsUnique(Desired("own", WIDER, Discovery), ["a", "b"]);
    StrictlySortedIsUnique(Desired("own", NARROWER, Discovery), ["a"]);
  }

  lemma Creating()
    ensures
      var s, d := Step(Init("own"), Create(WIDER, false)), Dashboard(WIDER, Status(Per([], []), 0), false, false);
      Inv(s) && s == Init("own").(history := [None, Some(d)])
  {
    StepKeepsInv(Init("own"), Create(WIDER, false));
    hide Inv, Desired, Union;
  }

  lemma AfterCreating(first: seq<nat>)
    requires |first| >= 22
    ensures
      var s := Step(Init("own"), Create(WIDER, false));
      && s.WellFormed() && s.own == "own" && Inv(s) && Inv(CalmStart(s))
      && var t := HonestRun(CalmStart(s), World(false, false, false), first);
         && t.own == "own" && Inv(t) && Done(t, WIDER)
         && t.Server().value.status.record == Wanted("own", WIDER)
  {
    var s := Step(Init("own"), Create(WIDER, false));
    WitnessLists();
    Creating();
    hide Inv, Desired, Union, CalmStart, Step, HonestRun, Recorded, NothingToNarrow, Done;
    Settles(s, World(false, false, false), first);
  }

  lemma Narrowing(t: System)
    requires Inv(t) && t.own == "own" && Done(t, WIDER) && t.Server().value.status.record == Wanted("own", WIDER)
    ensures
      var u := Step(t, EditSpec(NARROWER));
      && Inv(u) && u.WellFormed() && u.own == "own" && u.controller.Idle? && u.Server().Some?
      && u.Server().value == t.Server().value.(spec := NARROWER) && !u.Server().value.deleting
  {
    StepKeepsInv(t, EditSpec(NARROWER));
    hide Inv, Desired, GrantsSettled;
  }

  lemma StillStored()
    ensures
      var wanted := Wanted("own", NARROWER);
      && "b" in StoredAfter("own", NARROWER, Wanted("own", WIDER)).discovery
      && Elems(wanted.discovery) == {"a"} && Elems(wanted.monitor) == {}
  {
    WitnessLists();
    hide Desired, Union;
  }

  lemma AfterNarrowing(u: System, second: seq<nat>)
    requires Inv(u) && u.WellFormed() && u.own == "own" && u.controller.Idle? && u.Server().Some?
    requires u.Server().value.spec == NARROWER && !u.Server().value.deleting && |second| >= 23
    requires u.Server().value.status.record == Wanted("own", WIDER)
    ensures Inv(CalmStart(u))
    ensures
      var v := HonestRun(CalmStart(u), World(false, true, false), second);
      Done(v, NARROWER) && v.bindings == Per({"a"}, {}) && "b" in v.Server().value.status.record.discovery
  {
    WitnessLists();
    StillStored();
    hide Inv, Desired, Union, CalmStart, HonestRun, Recorded, NothingToNarrow, StoredAfter;
    Settles(u, World(false, true, false), second);
  }

  /** A Dashboard that wants two namespaces is reconciled; then one edit drops "b" and
      changes something the Deployment depends on. The next reconcile, in which nothing
      goes wrong, deletes the RoleBinding in "b" and leaves "b" in the stored record. */
  lemma DriftWitness(first: seq<nat>, second: seq<nat>)
    requires |first| >= 22 && |second| >= 23
    ensures
      var s := Step(Init("own"), Create(WIDER, false));
      && Inv(CalmStart(s))
      && var t := HonestRun(CalmStart(s), World(false, false, false), first);
         && t.WellFormed()
         && var u := Step(t, EditSpec(NARROWER));
            && u.WellFormed() && Inv(CalmStart(u))
            && var v := HonestRun(CalmStart(u), World(false, true, false), second);
               && Done(v, NARROWER) && v.bindings == Per({"a"}, {})
               && "b" in v.Server().value.status.record.discovery
  {
    AfterCreating(first);
    var t := HonestRun(CalmStart(Step(Init("own"), Create(WIDER, false))), World(false, false, false), first);
    Narrowing(t);
    hide Inv, CalmStart, Step, HonestRun, Wanted, GrantsSettled;
    AfterNarrowing(Step(t, EditSpec(NARROWER)), second);
  }

  lemma StartsOnTrack(s: System, w: World)
    requires Inv(s) && s.controller.Idle? && s.Server().Some? && !s.Server().value.deleting
    ensures
      var c := CalmStart(s);
      && Inv(c) && OnTrack(c) && c.own == s.own && c.Server() == s.Server() && c.bindings == s.bindings
      && TrackRank(c) <= 10 + BothRanks(s.own, s.Server().value)
      && RecordsOnTrack(c, w, s.Server().value.status.record)
      && MetricsOnTrack(c, w)
  {
    StepKeepsInv(s, CacheAdvance(s.Latest()));
    StepKeepsInv(CaughtUp(s), Start);
    hide Inv, CacheSound, Desired, Settled, Union, StoredAfter;
  }

  // --------------------------------------------------------- and stays there

  ghost predicate GrantsAreWanted(s: System, spec: Spec) {
    && s.bindings.discovery == Elems(Desired(s.own, spec, Discovery))
    && s.bindings.monitor == Elems(Desired(s.own, spec, Monitor))
  }

  lemma FamilyStaysPut(s: System, w: World, conditions: nat)
    requires Inv(s) && OnTrack(s) && InFamily(s.controller.pc) && GrantsAreWanted(s, s.Server().value.spec)
    ensures FamilyStep(s, Applied, Answer(s, w), conditions).bindings == s.bindings
  {
    OnTrackKnows(s);
    var pc := s.controller.pc;
    WantedOf(s, Working(pc).value);
    if pc.Bind? {
      TodoIsWanted(s);
    }
    hide Inv, Desired, Settled, Recorded, GrantsAreWanted;
    match pc
    case Unbind(f, todo) => if todo != [] { DeleteNothing(s.bindings, f, todo[0]); }
    case Prune(f, todo) => if todo != [] { DeleteNothing(s.bindings, f, todo[0]); }
    case _ =>
  }

  lemma DeleteNothing(b: Per<set<Namespace>>, f: Family, ns: Namespace)
    requires ns !in b.Of(f)
    ensures b.With(f, b.Of(f) - {ns}) == b
  {
    assert b.Of(f) - {ns} == b.Of(f);
  }

  lemma TodoIsWanted(s: System)
    requires Inv(s) && s.controller.Busy? && s.controller.pc.Bind?
    ensures forall ns :: ns in s.controller.pc.todo ==> ns in Desired(s.own, s.controller.inst.spec, s.controller.pc.f)
  {
    hide Core, InstanceSound, FinalizeSound, Desired;
  }

  lemma WantedOf(s: System, f: Family)
    requires Inv(s) && OnTrack(s) && GrantsAreWanted(s, s.Server().value.spec)
    ensures forall ns :: ns in s.bindings.Of(f) <==> ns in Desired(s.own, s.controller.inst.spec, f)
  {
    OnTrackKnows(s);
    hide Inv, OnTrack, Desired;
  }

  lemma MetricsStaysPut(s: System, answer: bool)
    requires s.WellFormed() && s.controller.Busy?
    ensures MetricsStep(s, Applied, answer).bindings == s.bindings
  {
    hide BeginFamily;
  }

  lemma OuterStaysPut(s: System, answer: bool, conditions: nat)
    requires s.WellFormed() && s.controller.Busy?
    ensures OuterStep(s, Applied, answer, conditions).bindings == s.bindings
  {
  }

  lemma CallStaysPut(s: System, w: World, conditions: nat)
    requires Inv(s) && OnTrack(s) && GrantsAreWanted(s, s.Server().value.spec)
    ensures Step(s, Call(Applied, Answer(s, w), conditions)).bindings == s.bindings
  {
    OnTrackIsSomewhere(s);
    CallIs(s, Answer(s, w), conditions);
    hide Inv, OnTrack, Step, FamilyStep, MetricsStep, OuterStep, GrantsAreWanted;
    if InMetrics(s.controller.pc) {
      MetricsStaysPut(s, Answer(s, w));
    } else if InFamily(s.controller.pc) {
      FamilyStaysPut(s, w, conditions);
    } else {
      OuterStaysPut(s, Answer(s, w), conditions);
    }
  }

  lemma HonestStaysPut(s: System, w: World, conditions: nat)
    requires Inv(s) && OnTrack(s) && GrantsAreWanted(s, s.Server().value.spec)
    ensures Honest(s, w, conditions).bindings == s.bindings
  {
    CaughtUpIs(s);
    var c := CaughtUp(s);
    CatchingUpStaysOnTrack(s, c);
    StepKeepsInv(s, CacheAdvance(s.Latest()));
    assert GrantsAreWanted(c, c.Server().value.spec) && Answer(c, w) == Answer(s, w);
    hide Inv, OnTrack, Step, CaughtUp, GrantsAreWanted;
    CallStaysPut(c, w, conditions);
  }

  lemma WantedStays(s: System, t: System)
    requires s.WellFormed() && s.controller.Busy? && s.Server().Some? && t.bindings == s.bindings
    requires GrantsAreWanted(s, s.Server().value.spec) && Advances(s, t)
    ensures GrantsAreWanted(t, t.Server().value.spec)
  {
    hide OnTrack, Desired;
  }

  /** If the RoleBindings are right when an undisturbed reconcile starts, no call of it
      changes them: after any number of calls they are what they were. */
  lemma {:induction false} HonestRunStaysPut(s: System, w: World, conditions: seq<nat>)
    requires Inv(s) && OnTrack(s) && GrantsAreWanted(s, s.Server().value.spec)
    ensures HonestRun(s, w, conditions).bindings == s.bindings
    decreases |conditions|
  {
    OnTrackIsSomewhere(s);
    if conditions != [] {
      var t := Honest(s, w, conditions[0]);
      HonestAdvances(s, w, conditions[0]);
      HonestStaysPut(s, w, conditions[0]);
      hide Inv, OnTrack, GrantsAreWanted, Honest, Done;
      if t.controller.Busy? {
        WantedStays(s, t);
        HonestRunStaysPut(t, w, conditions[1..]);
      } else {
        assert HonestRun(t, w, conditions[1..]) == t;
      }
    }
  }

  /** Where the RoleBindings are right, an undisturbed reconcile changes none of them. */
  lemma {:induction false} SecondReconcileChangesNothing(s: System, w: World, conditions: seq<nat>)
    requires Inv(s) && s.WellFormed() && s.controller.Idle? && s.Server().Some? && !s.Server().value.deleting
    requires GrantsAreWanted(s, s.Server().value.spec)
    ensures Inv(CalmStart(s)) && HonestRun(CalmStart(s), w, conditions).bindings == s.bindings
  {
    StartsOnTrack(s, w);
    hide Inv, OnTrack, CalmStart, RecordsOnTrack;
    HonestRunStaysPut(CalmStart(s), w, conditions);
  }
}
