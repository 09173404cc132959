/** Every reconcile of the grant protocol comes to its end, whatever becomes of its calls
    and whatever happens around it. */
module GrantEnding {
  import opened ApiCall
  import opened GrantProtocol
  import opened Ordering

  lemma InvIsWellFormed(s: System)
    requires Inv(s)
    ensures s.WellFormed()
  {
  }

  // ------------------------------------------------------- the calls that are left

  /** The family a step is about, once the reconcile has got to the families. */
  function Working(pc: Pc): Option<Family> {
    match pc
    case Unbind(f, _) => Some(f)
    case DropRole(f) => Some(f)
    case EnsureRole(f) => Some(f)
    case Persist(f) => Some(f)
    case Bind(f, _, _) => Some(f)
    case Prune(f, _) => Some(f)
    case _ => None
  }

  function RecordSize(d: Dashboard): nat {
    |d.status.record.discovery| + |d.status.record.monitor|
  }

  function WantedSize(own: Namespace, spec: Spec): nat {
    |Desired(own, spec, Discovery)| + |Desired(own, spec, Monitor)|
  }

  /** The calls a family can take. */
  function FamilyRank(own: Namespace, d: Dashboard, f: Family): nat {
    5 + |d.status.record.Of(f)| + |Desired(own, d.spec, f)|
  }

  function BothRanks(own: Namespace, d: Dashboard): nat {
    FamilyRank(own, d, Discovery) + FamilyRank(own, d, Monitor)
  }

  function WorkRank(own: Namespace, d: Dashboard, pc: Pc): nat {
    match pc
    case Unbind(_, todo) => 3 + |todo|
    case DropRole(_) => 2
    case EnsureRole(f) => FamilyRank(own, d, f)
    case Persist(f) => 4 + |d.status.record.Of(f)| + |Desired(own, d.spec, f)|
    case Bind(_, previous, todo) => 3 + |previous| + |todo|
    case Prune(_, todo) => 2 + |todo|
    case _ => 0
  }

  function FamiliesRank(own: Namespace, d: Dashboard, pc: Pc): nat {
    WorkRank(own, d, pc) + if Working(pc) == Some(Discovery) then FamilyRank(own, d, Monitor) else 0
  }

  function MetricsRank(pc: Pc): nat {
    match pc
    case Owned => 4
    case EnsureMetricsRole => 3
    case DropMetricsBinding => 3
    case EnsureMetricsBinding => 2
    case DropMetricsRole(_) => 2
    case _ => 0
  }

  function FinalizeRank(d: Dashboard, pc: Pc): nat {
    match pc
    case FinStatus1 => 10 + RecordSize(d)
    case FinUnbind(f, todo) => if f.Discovery? then 9 + |todo| + |d.status.record.monitor| else 7 + |todo|
    case FinRole(f) => if f.Discovery? then 8 + |d.status.record.monitor| else 6
    case FinMetricsBinding => 5
    case FinMetricsRole(_) => 4
    case FinReread => 3
    case FinStatus2 => 2
    case FinRemove => 1
    case _ => 0
  }

  /** The reconcile has yet to read the object it will work on. */
  predicate Reading(pc: Pc) {
    pc.InitStatus? || pc.InitReread? || pc.AddFinalizer?
  }

  /** The calls that a reconcile with this object in memory can still make, if no version
      that it may yet read makes it spend more than `most` on the two families. */
  function Left(own: Namespace, d: Dashboard, pc: Pc, most: nat): nat {
    if Reading(pc) then (if pc.InitStatus? then 10 else if pc.InitReread? then 9 else 8) + most
    else if Finalizing(pc) then FinalizeRank(d, pc)
    else if InMetrics(pc) then 3 + MetricsRank(pc) + BothRanks(own, d)
    else if InFamily(pc) then 3 + FamiliesRank(own, d, pc)
    else if pc.Deploy? then 3
    else if pc.FailStatus? then 1
    else 2
  }

  function CallsLeft(s: System, most: nat): nat
    requires s.controller.Busy?
  {
    Left(s.own, s.controller.inst, s.controller.pc, most)
  }

  // ------------------------------------------------------- call by call

  /** A call either ends the reconcile or brings its end nearer. */
  ghost predicate Nears(s: System, t: System, most: nat)
    requires s.controller.Busy?
  {
    t.controller.Busy? ==> CallsLeft(t, most) < CallsLeft(s, most)
  }

  lemma {:induction false} RemovedIsShorter(previous: seq<Namespace>, desired: seq<Namespace>)
    ensures |Removed(previous, desired)| <= |previous|
  {
    if previous != [] {
      RemovedIsShorter(previous[1..], desired);
    }
  }

  lemma FinalizeDeleteNears(s: System, fate: Fate, conditions: nat, most: nat)
    requires s.WellFormed() && s.controller.Busy? && Finalizing(s.controller.pc)
    requires var pc := s.controller.pc; pc.FinUnbind? || pc.FinRole? || pc.FinMetricsBinding? || pc.FinMetricsRole?
    ensures Nears(s, FinalizeStep(s, fate, conditions), most)
  {
    hide UpdateStatus, UpdateFinalizer, Reread, BothRanks, FamiliesRank;
  }

  lemma FinalizeWriteNears(s: System, fate: Fate, conditions: nat, most: nat)
    requires s.WellFormed() && s.controller.Busy?
    requires var pc := s.controller.pc; pc.FinStatus1? || pc.FinReread? || pc.FinStatus2? || pc.FinRemove?
    ensures Nears(s, FinalizeStep(s, fate, conditions), most)
  {
    hide UpdateFinalizer, BothRanks, FamiliesRank;
  }

  lemma FinalizeNears(s: System, fate: Fate, conditions: nat, most: nat)
    requires s.WellFormed() && s.controller.Busy? && Finalizing(s.controller.pc)
    ensures Nears(s, FinalizeStep(s, fate, conditions), most)
  {
    hide FinalizeStep, Nears;
    match s.controller.pc
    case FinStatus1 => FinalizeWriteNears(s, fate, conditions, most);
    case FinReread => FinalizeWriteNears(s, fate, conditions, most);
    case FinStatus2 => FinalizeWriteNears(s, fate, conditions, most);
    case FinRemove => FinalizeWriteNears(s, fate, conditions, most);
    case _ => FinalizeDeleteNears(s, fate, conditions, most);
  }

  /** The work on a family takes no more calls than its rank says. */
  lemma BeginsWithin(own: Namespace, d: Dashboard, f: Family, most: nat)
    ensures
      Left(own, d, BeginFamily(own, d, f), most) <=
      3 + FamilyRank(own, d, f) + if f.Discovery? then FamilyRank(own, d, Monitor) else 0
  {
    hide Desired;
  }

  lemma AfterFamilyWithin(own: Namespace, d: Dashboard, f: Family, most: nat)
    ensures Left(own, d, AfterFamily(own, d, f), most) <= 3 + if f.Discovery? then FamilyRank(own, d, Monitor) else 0
  {
    BeginsWithin(own, d, Monitor, most);
    hide Desired, BeginFamily, FamilyRank, FamiliesRank;
  }

  /** From one call about the metrics objects to the next. */
  predicate MetricsGoOn(pc: Pc, pc': Pc) {
    || (pc.Owned? && (pc'.EnsureMetricsRole? || pc'.DropMetricsBinding?))
    || (pc.EnsureMetricsRole? && pc'.EnsureMetricsBinding?)
    || (pc.DropMetricsBinding? && pc'.DropMetricsRole?)
  }

  lemma MetricsMoveOn(s: System, fate: Fate, answer: bool)
    requires s.WellFormed() && s.controller.Busy? && InMetrics(s.controller.pc)
    ensures
      var t, pc := MetricsStep(s, fate, answer), s.controller.pc;
      && t.controller.Busy? && t.own == s.own && t.controller.inst == s.controller.inst
      && var pc' := t.controller.pc;
      (|| pc'.FailStatus? || MetricsGoOn(pc, pc')
       || ((pc.EnsureMetricsBinding? || pc.DropMetricsRole?)
           && pc' == BeginFamily(s.own, s.controller.inst, Discovery)))
  {
    hide BeginFamily;
  }

  lemma MetricsLess(own: Namespace, d: Dashboard, pc: Pc, pc': Pc, most: nat)
    requires InMetrics(pc)
    requires
      || pc'.FailStatus? || MetricsGoOn(pc, pc')
      || ((pc.EnsureMetricsBinding? || pc.DropMetricsRole?) && pc' == BeginFamily(own, d, Discovery))
    ensures Left(own, d, pc', most) < Left(own, d, pc, most)
  {
    if pc' == BeginFamily(own, d, Discovery) {
      BeginsWithin(own, d, Discovery, most);
    }
    hide BeginFamily, FamilyRank, FamiliesRank;
  }

  lemma MetricsNears(s: System, fate: Fate, answer: bool, most: nat)
    requires s.WellFormed() && s.controller.Busy? && InMetrics(s.controller.pc)
    ensures Nears(s, MetricsStep(s, fate, answer), most)
  {
    MetricsMoveOn(s, fate, answer);
    hide MetricsStep, BeginFamily, Left, MetricsGoOn;
    MetricsLess(s.own, s.controller.inst, s.controller.pc, MetricsStep(s, fate, answer).controller.pc, most);
  }

  lemma UnbindMovesOn(s: System, fate: Fate, answer: bool, conditions: nat)
    requires s.WellFormed() && s.controller.Busy? && s.controller.pc.Unbind?
    ensures
      var t, f, todo, inst := FamilyStep(s, fate, answer, conditions), s.controller.pc.f, s.controller.pc.todo,
                              s.controller.inst;
      && t.own == s.own
      && (todo == [] ==> t.controller == s.controller.(inst := SetRecord(inst, f, []), pc := DropRole(f)))
      && (todo != [] ==>
            || t.controller == s.controller.(pc := Unbind(f, todo[1..]))
            || t.controller == s.controller.(pc := FailStatus))
  {
    hide UpdateStatus;
  }

  lemma UnbindNears(s: System, fate: Fate, answer: bool, conditions: nat, most: nat)
    requires s.WellFormed() && s.controller.Busy? && s.controller.pc.Unbind?
    ensures Nears(s, FamilyStep(s, fate, answer, conditions), most)
  {
    UnbindMovesOn(s, fate, answer, conditions);
    hide FamilyStep, Desired;
  }

  lemma DropRoleMovesOn(s: System, fate: Fate, answer: bool, conditions: nat)
    requires s.WellFormed() && s.controller.Busy? && s.controller.pc.DropRole?
    ensures
      var t, inst := FamilyStep(s, fate, answer, conditions), s.controller.inst;
      && t.controller.Busy? && t.own == s.own && t.controller.inst == inst
      && (t.controller.pc.FailStatus? || t.controller.pc == AfterFamily(s.own, inst, s.controller.pc.f))
  {
    hide AfterFamily;
  }

  lemma DropRoleNears(s: System, fate: Fate, answer: bool, conditions: nat, most: nat)
    requires s.WellFormed() && s.controller.Busy? && s.controller.pc.DropRole?
    ensures Nears(s, FamilyStep(s, fate, answer, conditions), most)
  {
    AfterFamilyWithin(s.own, s.controller.inst, s.controller.pc.f, most);
    DropRoleMovesOn(s, fate, answer, conditions);
    hide FamilyStep, AfterFamily, FamilyRank;
  }

  lemma EnsureRoleNears(s: System, fate: Fate, answer: bool, conditions: nat, most: nat)
    requires s.WellFormed() && s.controller.Busy? && s.controller.pc.EnsureRole?
    ensures Nears(s, FamilyStep(s, fate, answer, conditions), most)
  {
    hide UpdateStatus, Desired, BeginFamily;
  }

  lemma PersistNears(s: System, fate: Fate, answer: bool, conditions: nat, most: nat)
    requires s.WellFormed() && s.controller.Busy? && s.controller.pc.Persist? && InstanceSound(s)
    ensures Nears(s, FamilyStep(s, fate, answer, conditions), most)
  {
    hide Desired, BeginFamily, Union, Recorded;
  }

  lemma BindNears(s: System, fate: Fate, answer: bool, conditions: nat, most: nat)
    requires s.WellFormed() && s.controller.Busy? && s.controller.pc.Bind? && s.controller.pc.todo != []
    ensures Nears(s, FamilyStep(s, fate, answer, conditions), most)
  {
    hide UpdateStatus, Desired, BeginFamily, Removed;
  }

  lemma BoundNears(s: System, fate: Fate, answer: bool, conditions: nat, most: nat)
    requires s.WellFormed() && s.controller.Busy? && s.controller.pc.Bind? && s.controller.pc.todo == []
    ensures Nears(s, FamilyStep(s, fate, answer, conditions), most)
  {
    BoundMovesOn(s, fate, answer, conditions);
    RemovedIsShorter(s.controller.pc.previous, Desired(s.own, s.controller.inst.spec, s.controller.pc.f));
    hide FamilyStep, Desired, Removed, FamilyRank;
  }

  lemma BoundMovesOn(s: System, fate: Fate, answer: bool, conditions: nat)
    requires s.WellFormed() && s.controller.Busy? && s.controller.pc.Bind? && s.controller.pc.todo == []
    ensures
      var f, previous := s.controller.pc.f, s.controller.pc.previous;
      FamilyStep(s, fate, answer, conditions) ==
      Goto(s, Prune(f, Removed(previous, Desired(s.own, s.controller.inst.spec, f))))
  {
    hide UpdateStatus, Desired, Removed;
  }

  lemma PruneNears(s: System, fate: Fate, answer: bool, conditions: nat, most: nat)
    requires s.WellFormed() && s.controller.Busy? && s.controller.pc.Prune? && s.controller.pc.todo != []
    ensures Nears(s, FamilyStep(s, fate, answer, conditions), most)
  {
    hide UpdateStatus, Desired, BeginFamily;
  }

  lemma NarrowMovesOn(s: System, fate: Fate, answer: bool, conditions: nat)
    requires s.WellFormed() && s.controller.Busy? && s.controller.pc.Prune? && s.controller.pc.todo == []
    ensures
      var t, f := FamilyStep(s, fate, answer, conditions), s.controller.pc.f;
      var narrowed := SetRecord(s.controller.inst, f, Desired(s.own, s.controller.inst.spec, f));
      && t.controller.Busy? && t.own == s.own && t.controller.inst == narrowed
      && t.controller.pc == AfterFamily(s.own, narrowed, f)
  {
    hide AfterFamily, Desired;
  }

  lemma NarrowNears(s: System, fate: Fate, answer: bool, conditions: nat, most: nat)
    requires s.WellFormed() && s.controller.Busy? && s.controller.pc.Prune? && s.controller.pc.todo == []
    ensures Nears(s, FamilyStep(s, fate, answer, conditions), most)
  {
    var f := s.controller.pc.f;
    var narrowed := SetRecord(s.controller.inst, f, Desired(s.own, s.controller.inst.spec, f));
    AfterFamilyWithin(s.own, narrowed, f, most);
    NarrowMovesOn(s, fate, answer, conditions);
    hide FamilyStep, AfterFamily, Desired;
  }

  lemma FamilyNears(s: System, fate: Fate, answer: bool, conditions: nat, most: nat)
    requires s.WellFormed() && s.controller.Busy? && InFamily(s.controller.pc) && InstanceSound(s)
    ensures Nears(s, FamilyStep(s, fate, answer, conditions), most)
  {
    hide FamilyStep, Nears, InstanceSound;
    match s.controller.pc
    case Unbind(_, _) => UnbindNears(s, fate, answer, conditions, most);
    case DropRole(_) => DropRoleNears(s, fate, answer, conditions, most);
    case EnsureRole(_) => EnsureRoleNears(s, fate, answer, conditions, most);
    case Persist(_) => PersistNears(s, fate, answer, conditions, most);
    case Bind(_, _, todo) =>
      if todo == [] {
        BoundNears(s, fate, answer, conditions, most);
      } else {
        BindNears(s, fate, answer, conditions, most);
      }
    case Prune(_, todo) =>
      if todo == [] {
        NarrowNears(s, fate, answer, conditions, most);
      } else {
        PruneNears(s, fate, answer, conditions, most);
      }
  }

  predicate Small(own: Namespace, d: Dashboard, wanted: nat, recorded: nat) {
    RecordSize(d) <= recorded && WantedSize(own, d.spec) <= wanted
  }

  /** No version the reconcile may still read names more namespaces than this. */
  ghost predicate Bounded(s: System, wanted: nat, recorded: nat)
    requires s.controller.Busy?
  {
    Reading(s.controller.pc) ==>
      && (forall d :: d in s.history && d.Some? ==> Small(s.own, d.value, wanted, recorded))
      && RecordSize(s.controller.inst) <= recorded
  }

  /** Whatever the calls so far have made of the object: a new version is the newest one
      with another status, or another finalizer. */
  lemma ReadNears(s: System, fate: Fate, conditions: nat, answer: bool, wanted: nat, recorded: nat)
    requires s.WellFormed() && s.controller.Busy? && Reading(s.controller.pc) && Bounded(s, wanted, recorded)
    ensures
      var t := OuterStep(s, fate, answer, conditions);
      Nears(s, t, 10 + wanted + recorded) && (t.controller.Busy? ==> Bounded(t, wanted, recorded))
  {
    hide Desired, FamiliesRank;
    match s.controller.pc
    case InitStatus => hide UpdateFinalizer, Reread;
    case InitReread => hide UpdateStatus, UpdateFinalizer;
    case AddFinalizer => hide UpdateStatus, Reread;
  }

  lemma CloseNears(s: System, fate: Fate, answer: bool, conditions: nat, most: nat)
    requires s.WellFormed() && s.controller.Busy?
    requires var pc := s.controller.pc; pc.Deploy? || pc.DeployReread? || pc.Finish? || pc.FailStatus?
    ensures Nears(s, OuterStep(s, fate, answer, conditions), most)
  {
    hide UpdateStatus, UpdateFinalizer, BothRanks, FamiliesRank;
  }

  lemma CallNears(s: System, fate: Fate, answer: bool, conditions: nat, wanted: nat, recorded: nat)
    requires Inv(s) && s.controller.Busy? && Bounded(s, wanted, recorded)
    ensures
      var t := CallStep(s, fate, answer, conditions);
      Nears(s, t, 10 + wanted + recorded) && (t.controller.Busy? ==> Bounded(t, wanted, recorded))
  {
    var most := 10 + wanted + recorded;
    InvIsWellFormed(s);
    hide Core, ControllerSound, Nears, Bounded, FinalizeStep, MetricsStep, FamilyStep, OuterStep;
    if Finalizing(s.controller.pc) {
      FinalizeNears(s, fate, conditions, most);
    } else if InMetrics(s.controller.pc) {
      MetricsNears(s, fate, answer, most);
    } else if InFamily(s.controller.pc) {
      FamilyNears(s, fate, answer, conditions, most);
    } else if Reading(s.controller.pc) {
      ReadNears(s, fate, conditions, answer, wanted, recorded);
    } else {
      CloseNears(s, fate, answer, conditions, most);
    }
    if !Reading(s.controller.pc) {
      ReadsNoMore(s, fate, answer, conditions);
      NothingLeftToRead(CallStep(s, fate, answer, conditions), wanted, recorded);
    }
  }

  lemma NothingLeftToRead(s: System, wanted: nat, recorded: nat)
    requires s.controller.Busy? ==> !Reading(s.controller.pc)
    ensures s.controller.Busy? ==> Bounded(s, wanted, recorded)
  {
  }

  ghost predicate HasRead(t: System) {
    t.controller.Busy? ==> !Reading(t.controller.pc)
  }

  lemma WriteReadsNoMore(s: System, fate: Fate, conditions: nat, ok: Pc)
    requires s.WellFormed() && s.controller.Busy? && !Reading(ok)
    ensures HasRead(UpdateStatus(s, fate, conditions, ok, Halt(s)))
  {
  }

  lemma FinalizeReadsNoMore(s: System, fate: Fate, conditions: nat)
    requires s.WellFormed() && s.controller.Busy? && !Reading(s.controller.pc)
    ensures HasRead(FinalizeStep(s, fate, conditions))
  {
    if s.controller.pc.FinStatus1? || s.controller.pc.FinStatus2? {
      FinalizeWriteReadsNoMore(s, fate, conditions);
    } else {
      FinalizeRestReadsNoMore(s, fate, conditions);
    }
  }

  lemma FinalizeWriteReadsNoMore(s: System, fate: Fate, conditions: nat)
    requires s.WellFormed() && s.controller.Busy? && (s.controller.pc.FinStatus1? || s.controller.pc.FinStatus2?)
    ensures HasRead(FinalizeStep(s, fate, conditions))
  {
    WriteReadsNoMore(s, fate, conditions, FinUnbind(Discovery, s.controller.inst.status.record.discovery));
    WriteReadsNoMore(s, fate, conditions, FinRemove);
    hide UpdateStatus, UpdateFinalizer, HasRead;
  }

  lemma FinalizeRestReadsNoMore(s: System, fate: Fate, conditions: nat)
    requires s.WellFormed() && s.controller.Busy? && !Reading(s.controller.pc)
    requires !s.controller.pc.FinStatus1? && !s.controller.pc.FinStatus2?
    ensures HasRead(FinalizeStep(s, fate, conditions))
  {
    hide UpdateStatus, UpdateFinalizer;
  }

  lemma MetricsReadsNoMore(s: System, fate: Fate, answer: bool)
    requires s.WellFormed() && s.controller.Busy? && !Reading(s.controller.pc)
    ensures HasRead(MetricsStep(s, fate, answer))
  {
    hide Desired;
  }

  lemma FamilyReadsNoMore(s: System, fate: Fate, answer: bool, conditions: nat)
    requires s.WellFormed() && s.controller.Busy? && !Reading(s.controller.pc)
    ensures HasRead(FamilyStep(s, fate, answer, conditions))
  {
    if s.controller.pc.Persist? {
      PersistReadsNoMore(s, fate, answer, conditions);
    } else {
      WorkReadsNoMore(s, fate, answer, conditions);
    }
  }

  lemma WorkReadsNoMore(s: System, fate: Fate, answer: bool, conditions: nat)
    requires s.WellFormed() && s.controller.Busy? && !Reading(s.controller.pc) && !s.controller.pc.Persist?
    ensures HasRead(FamilyStep(s, fate, answer, conditions))
  {
    var pc, inst := s.controller.pc, s.controller.inst;
    if pc.DropRole? || pc.Prune? {
      AfterFamilyReadsNoMore(s.own, inst, pc.f);
      AfterFamilyReadsNoMore(s.own, SetRecord(inst, pc.f, Desired(s.own, inst.spec, pc.f)), pc.f);
    }
    hide Desired, Union, Removed, UpdateStatus, AfterFamily;
  }

  lemma AfterFamilyReadsNoMore(own: Namespace, d: Dashboard, f: Family)
    ensures !Reading(AfterFamily(own, d, f))
  {
    hide Desired;
  }

  lemma PersistReadsNoMore(s: System, fate: Fate, answer: bool, conditions: nat)
    requires s.WellFormed() && s.controller.Busy? && s.controller.pc.Persist?
    ensures HasRead(FamilyStep(s, fate, answer, conditions))
  {
    hide Desired, Union;
  }

  lemma OuterReadsNoMore(s: System, fate: Fate, answer: bool, conditions: nat)
    requires s.WellFormed() && s.controller.Busy? && !Reading(s.controller.pc)
    ensures HasRead(OuterStep(s, fate, answer, conditions))
  {
  }

  /** A reconcile that has read its object does not start over. */
  lemma ReadsNoMore(s: System, fate: Fate, answer: bool, conditions: nat)
    requires s.WellFormed() && s.controller.Busy? && !Reading(s.controller.pc)
    ensures HasRead(CallStep(s, fate, answer, conditions))
  {
    hide FinalizeStep, MetricsStep, FamilyStep, OuterStep, HasRead;
    FinalizeReadsNoMore(s, fate, conditions);
    MetricsReadsNoMore(s, fate, answer);
    FamilyReadsNoMore(s, fate, answer, conditions);
    OuterReadsNoMore(s, fate, answer, conditions);
  }

  // ---------------------------------------------------------- whole runs

  /** What may happen meanwhile: anything, as long as no spec wants more than `wanted`
      namespaces. */
  predicate Tame(own: Namespace, e: Event, wanted: nat) {
    match e
    case EditSpec(spec) => WantedSize(own, spec) <= wanted
    case Create(spec, _) => WantedSize(own, spec) <= wanted
    case _ => true
  }

  lemma EnvironmentLeavesBound(s: System, e: Event, wanted: nat, recorded: nat)
    requires s.WellFormed() && s.controller.Busy? && Bounded(s, wanted, recorded) && Tame(s.own, e, wanted)
    ensures
      var t := EnvironmentStep(s, e);
      t.controller == s.controller && t.own == s.own && Bounded(t, wanted, recorded)
  {
    hide Desired;
  }

  function Calls(events: seq<Event>): nat {
    if events == [] then 0 else (if events[0].Call? then 1 else 0) + Calls(events[1..])
  }

  /** In the course of these events, the reconcile that is running comes to its end. */
  ghost predicate Ends(s: System, events: seq<Event>)
    requires Inv(s)
    decreases |events|
  {
    || s.controller.Idle?
    || (events != [] && (StepKeepsInv(s, events[0]); Ends(Step(s, events[0]), events[1..])))
  }

  lemma EventNears(s: System, e: Event, wanted: nat, recorded: nat)
    requires Inv(s) && s.controller.Busy? && Bounded(s, wanted, recorded) && Tame(s.own, e, wanted)
    ensures
      var t, most := Step(s, e), 10 + wanted + recorded;
      t.controller.Busy? ==>
        && t.own == s.own && Bounded(t, wanted, recorded)
        && CallsLeft(t, most) < CallsLeft(s, most) + if e.Call? then 0 else 1
  {
    StepKeepsInv(s, e);
    InvIsWellFormed(s);
    hide Inv, CallStep, Bounded, Tame, Left, EnvironmentStep;
    match e
    case Start =>
    case Crash =>
    case Call(fate, answer, conditions) => CallNears(s, fate, answer, conditions, wanted, recorded);
    case _ =>
      EnvironmentLeavesBound(s, e, wanted, recorded);
  }

  lemma SomeCallsLeft(s: System, most: nat)
    requires s.controller.Busy?
    ensures CallsLeft(s, most) > 0
  {
    hide FamilyRank;
  }

  /** Whatever becomes of its calls, whatever the cache shows it and whatever users do
      meanwhile, a reconcile comes to its end within a number of calls that is known from
      its state and from how many namespaces specs and records name. */
  lemma {:induction false} EveryReconcileEnds(s: System, events: seq<Event>, wanted: nat, recorded: nat)
    requires Inv(s)
    requires s.controller.Busy? ==>
      Bounded(s, wanted, recorded) && CallsLeft(s, 10 + wanted + recorded) <= Calls(events)
    requires forall e :: e in events ==> Tame(s.own, e, wanted)
    ensures Ends(s, events)
    decreases |events|
  {
    hide Inv, Bounded, Tame, CallsLeft, Step;
    if s.controller.Busy? {
      InvIsWellFormed(s);
      SomeCallsLeft(s, 10 + wanted + recorded);
      var t := Step(s, events[0]);
      StepKeepsInv(s, events[0]);
      EventNears(s, events[0], wanted, recorded);
      EveryReconcileEnds(t, events[1..], wanted, recorded);
    }
  }
}
