/** What the calls of a reconcile come to, whatever state they are made in: the fates of a
    call, creates of what is already there, and the order in which failures are noticed. */
module GrantCalls {
  import opened ApiCall
  import opened GrantProtocol
  import opened Ordering

  /** All but the controller is the same. */
  predicate SameCluster(s: System, t: System) {
    && s.own == t.own && s.history == t.history && s.cached == t.cached
    && s.bindings == t.bindings && s.roles == t.roles
    && s.metricsRole == t.metricsRole && s.metricsBinding == t.metricsBinding
  }

  /** `ok`, `lost` and `failed` are what a call comes to in `s` that is applied, applied
      and reported as failed, or failed. */
  predicate FatesKept(s: System, ok: System, lost: System, failed: System) {
    SameCluster(failed, s) && SameCluster(lost, ok) && lost.controller == failed.controller
  }

  lemma UpdateStatusFates(s: System, conditions: nat, ok: Pc, failed: System)
    requires s.WellFormed() && failed.WellFormed()
    requires s.controller.Busy? && failed == s.(controller := failed.controller)
    ensures FatesKept(s, UpdateStatus(s, Applied, conditions, ok, failed),
                      UpdateStatus(s, AppliedButFailed, conditions, ok, failed),
                      UpdateStatus(s, Failed, conditions, ok, failed))
  {
  }

  lemma FinalizeFates(s: System, conditions: nat)
    requires s.WellFormed() && s.controller.Busy?
    ensures FatesKept(s, FinalizeStep(s, Applied, conditions), FinalizeStep(s, AppliedButFailed, conditions),
                      FinalizeStep(s, Failed, conditions))
  {
    hide UpdateStatus;
    match s.controller.pc
    case FinStatus1 =>
      UpdateStatusFates(s, conditions, FinUnbind(Discovery, s.controller.inst.status.record.discovery), Halt(s));
    case FinStatus2 => UpdateStatusFates(s, conditions, FinRemove, Halt(s));
    case _ =>
  }

  lemma MetricsFates(s: System, answer: bool)
    requires s.WellFormed() && s.controller.Busy?
    ensures FatesKept(s, MetricsStep(s, Applied, answer), MetricsStep(s, AppliedButFailed, answer),
                      MetricsStep(s, Failed, answer))
  {
    hide BeginFamily;
    match s.controller.pc
    case Owned =>
    case EnsureMetricsRole =>
    case EnsureMetricsBinding =>
    case DropMetricsBinding =>
    case DropMetricsRole(failed) =>
    case _ =>
  }

  lemma FamilyFates(s: System, answer: bool, conditions: nat)
    requires s.WellFormed() && s.controller.Busy?
    ensures FatesKept(s, FamilyStep(s, Applied, answer, conditions),
                      FamilyStep(s, AppliedButFailed, answer, conditions),
                      FamilyStep(s, Failed, answer, conditions))
  {
    hide UpdateStatus, AfterFamily, SetRecord, Desired, Removed, Union;
    match s.controller.pc
    case Persist(f) =>
      var ok := Bind(f, s.controller.inst.status.record.Of(f), Desired(s.own, s.controller.inst.spec, f));
      UpdateStatusFates(Widen(s, f), conditions, ok, FailAvailable(Widen(s, f)));
    case _ =>
  }

  lemma OuterFates(s: System, answer: bool, conditions: nat)
    requires s.WellFormed() && s.controller.Busy? && !s.controller.pc.Deploy?
    ensures FatesKept(s, OuterStep(s, Applied, answer, conditions), OuterStep(s, AppliedButFailed, answer, conditions),
                      OuterStep(s, Failed, answer, conditions))
  {
    hide UpdateStatus, AfterInit, AfterFinalizer, Accepts, Put;
    match s.controller.pc
    case InitStatus => UpdateStatusFates(s, conditions, InitReread, Halt(s));
    case Finish => UpdateStatusFates(s, conditions, Finish, Halt(s));
    case FailStatus => UpdateStatusFates(s, conditions, FailStatus, Halt(s));
    case _ =>
  }

  /** A call that fails changes nothing but the controller. One that works and is reported
      as failed does to the cluster what the call does, and to the controller what the
      failure does; only the Deployment has more than one kind of failure. */
  lemma FatesAreKept(s: System, answer: bool, conditions: nat)
    requires s.WellFormed() && s.controller.Busy?
    ensures
      var ok, lost := CallStep(s, Applied, answer, conditions), CallStep(s, AppliedButFailed, answer, conditions);
      var failed := CallStep(s, Failed, answer, conditions);
      && SameCluster(failed, s) && SameCluster(lost, ok)
      && (!s.controller.pc.Deploy? ==> lost.controller == failed.controller)
  {
    if s.controller.pc.Deploy? {
    } else {
      FinalizeFates(s, conditions);
      MetricsFates(s, answer);
      FamilyFates(s, answer, conditions);
      OuterFates(s, answer, conditions);
      hide FinalizeStep, MetricsStep, FamilyStep, OuterStep;
    }
  }

  /** What a create is about to make. */
  ghost predicate Creates(s: System, there: bool) {
    s.controller.Busy? &&
    match s.controller.pc
    case EnsureMetricsRole => there == s.metricsRole
    case EnsureMetricsBinding => there == s.metricsBinding
    case EnsureRole(f) => there == s.roles.Of(f)
    case Bind(f, previous, todo) => todo != [] && there == (todo[0] in s.bindings.Of(f))
    case _ => false
  }

  /** Where the cache does not show the object yet, its create is refused, and the refusal
      is reported in the status. */
  lemma CreatesNeedAbsence(s: System, fate: Fate, conditions: nat)
    requires s.WellFormed() && Creates(s, true)
    ensures
      var t := CallStep(s, fate, false, conditions);
      SameCluster(t, s) && t.controller.Busy? && t.controller.pc == FailStatus
  {
  }

  /** Where nothing is in the way, the create decides whether the reconcile goes on. */
  lemma CreatesDecide(s: System, fate: Fate, conditions: nat)
    requires s.WellFormed() && Creates(s, false)
    ensures
      var t := CallStep(s, fate, false, conditions);
      t.controller.Busy? && (t.controller.pc == FailStatus <==> !fate.Applied?)
  {
  }

  lemma BindingDrop(s: System, fate: Fate, answer: bool, conditions: nat)
    requires s.WellFormed() && s.controller.Busy? && s.controller.pc.DropMetricsBinding?
    ensures
      var t := CallStep(s, fate, answer, conditions);
      && t.controller.Busy? && t.controller.pc == DropMetricsRole(!fate.Applied?)
      && SameCluster(t.(metricsBinding := s.metricsBinding), s)
      && (t.metricsBinding <==> s.metricsBinding && fate.Failed?)
  {
    hide BeginFamily;
  }

  lemma RoleDrop(s: System, fate: Fate, answer: bool, conditions: nat)
    requires s.WellFormed() && s.controller.Busy? && s.controller.pc.DropMetricsRole?
    ensures
      var t := CallStep(s, fate, answer, conditions);
      && t.controller.Busy? && SameCluster(t.(metricsRole := s.metricsRole), s)
      && (t.metricsRole <==> s.metricsRole && fate.Failed?)
      && (InFamily(t.controller.pc) <==> fate.Applied? && !s.controller.pc.failed)
      && (!InFamily(t.controller.pc) ==> t.controller.pc == FailStatus)
  {
    hide Desired;
  }

  /** The two metrics objects are both deleted, or the failure is reported before anything
      else is touched; the second delete is tried even if the first one failed. */
  lemma DropsComeBeforeGrants(s: System, first: Fate, second: Fate, answer: bool, conditions: nat)
    requires s.WellFormed() && s.controller.Busy? && s.controller.pc.DropMetricsBinding?
    ensures
      var t := CallStep(CallStep(s, first, answer, conditions), second, answer, conditions);
      && t.controller.Busy?
      && SameCluster(t.(metricsBinding := s.metricsBinding, metricsRole := s.metricsRole), s)
      && (t.metricsBinding <==> s.metricsBinding && first.Failed?)
      && (t.metricsRole <==> s.metricsRole && second.Failed?)
      && (InFamily(t.controller.pc) <==> first.Applied? && second.Applied?)
      && (!InFamily(t.controller.pc) ==> t.controller.pc == FailStatus)
  {
    BindingDrop(s, first, answer, conditions);
    var t := CallStep(s, first, answer, conditions);
    RoleDrop(t, second, answer, conditions);
    hide CallStep, InFamily;
  }

  /** The finalizer removes them the same way, and ends on a failure. */
  lemma DropsComeBeforeTheEnd(s: System, first: Fate, second: Fate, answer: bool, conditions: nat)
    requires s.WellFormed() && s.controller.Busy? && s.controller.pc.FinMetricsBinding?
    ensures
      var t := CallStep(CallStep(s, first, answer, conditions), second, answer, conditions);
      && (t.metricsBinding <==> s.metricsBinding && first.Failed?)
      && (t.metricsRole <==> s.metricsRole && second.Failed?)
      && (t.controller.Busy? <==> first.Applied? && second.Applied?)
  {
    hide MetricsStep, FamilyStep, OuterStep, UpdateStatus, UpdateFinalizer, Reread;
  }

  /** Where a reconcile starts depends on the object it reads: first the conditions, then
      the finalizer, then whether it is being deleted. */
  lemma StartsByWhatItReads(s: System, d: Dashboard)
    requires s.WellFormed() && s.controller.Idle? && s.history[s.cached] == Some(d)
    ensures
      var t := Step(s, Start);
      && t.controller.Busy? && t.controller.inst == d && SameCluster(t, s)
      && (t.controller.pc.InitStatus? <==> d.status.conditions == 0)
      && (t.controller.pc.AddFinalizer? <==> d.status.conditions != 0 && !d.finalizer)
      && (t.controller.pc.FinStatus1? <==> d.status.conditions != 0 && d.finalizer && d.deleting)
      && (t.controller.pc.Owned? <==> d.status.conditions != 0 && d.finalizer && !d.deleting)
  {
  }

  /** The Deployment step has four ways on, and can take each of them: the end of the
      reconcile, the closing write, a report of the failure, and the same after reading the
      object once more. Only a call that went well leads to the closing write. */
  lemma DeploymentHasFourWays(s: System)
    requires s.WellFormed() && s.controller.Busy? && s.controller.pc.Deploy?
    ensures forall fate, answer, n ::
      var t := CallStep(s, fate, answer, n);
      && SameCluster(t, s)
      && (t.controller.Busy? ==> t.controller.pc in {Finish, FailStatus, DeployReread})
      && (t.controller.Busy? && t.controller.pc.Finish? ==> fate.Applied?)
      && (fate.Applied? ==> t.controller.Idle? || t.controller.pc.Finish?)
    ensures exists fate, answer :: CallStep(s, fate, answer, 0).controller.Idle?
    ensures forall pc :: pc in {Finish, FailStatus, DeployReread} ==>
      exists fate, answer :: CallStep(s, fate, answer, 0).controller == s.controller.(pc := pc)
  {
    assert CallStep(s, Applied, true, 0).controller.Idle?;
    assert CallStep(s, Applied, false, 0).controller == s.controller.(pc := Finish);
    assert CallStep(s, Failed, false, 0).controller == s.controller.(pc := FailStatus);
    assert CallStep(s, AppliedButFailed, true, 0).controller == s.controller.(pc := DeployReread);
  }
}
