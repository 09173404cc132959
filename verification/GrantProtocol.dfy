/** The cross-namespace grant protocol of the Dashboard controller.

    A Dashboard's discovery and pod-monitor RoleBindings live in other namespaces,
    where they can carry no owner reference, and the controller never lists
    RoleBindings. All it has for finding them again is the record in the
    Dashboard's status, so it writes that record ahead of every create and narrows
    it only after the deletes.

    The state is everything the controller and the API server share: every version
    of the Dashboard object (its index is its resourceVersion), how far the
    controller's cache has caught up, the RBAC objects that exist, and where the
    single running reconcile stands. One event is one API call of that reconcile
    or one thing that happens around it. A run is any sequence of events. */
module GrantProtocol {
  import opened ApiCall
  import opened Ordering

  type Namespace = string

  datatype Family = Discovery | Monitor

  /** One value for each grant family. */
  datatype Per<T> = Per(discovery: T, monitor: T) {
    function Of(f: Family): T {
      if f.Discovery? then discovery else monitor
    }

    function With(f: Family, value: T): Per<T> {
      if f.Discovery? then this.(discovery := value) else this.(monitor := value)
    }
  }

  datatype Spec = Spec(discoveryEnabled: bool, discoveryNamespaces: seq<Namespace>, monitorNamespaces: seq<Namespace>)

  /** `conditions` stands for every other status field; 0 means no condition was ever written. */
  datatype Status = Status(record: Per<seq<Namespace>>, conditions: nat)

  datatype Dashboard = Dashboard(spec: Spec, status: Status, finalizer: bool, deleting: bool)

  datatype Pc =
    | InitStatus | InitReread | AddFinalizer
    | FinStatus1 | FinUnbind(f: Family, todo: seq<Namespace>) | FinRole(f: Family)
    | FinMetricsBinding | FinMetricsRole(failed: bool) | FinReread | FinStatus2 | FinRemove
    | Owned | EnsureMetricsRole | EnsureMetricsBinding | DropMetricsBinding | DropMetricsRole(failed: bool)
    | Unbind(f: Family, todo: seq<Namespace>) | DropRole(f: Family)
    | EnsureRole(f: Family) | Persist(f: Family)
    | Bind(f: Family, previous: seq<Namespace>, todo: seq<Namespace>) | Prune(f: Family, todo: seq<Namespace>)
    | Deploy | DeployReread | Finish | FailStatus

  /** The reconcile in progress: its in-memory object and the resourceVersion it came with. */
  datatype Controller = Idle | Busy(rv: nat, inst: Dashboard, pc: Pc)

  datatype System = System(
    own: Namespace,                      // the Dashboard's own namespace
    history: seq<Option<Dashboard>>,     // every version of the object; None while it does not exist
    cached: nat,                         // the version the controller's cache shows
    bindings: Per<set<Namespace>>,       // namespaces holding a RoleBinding of the family
    roles: Per<bool>,                    // the family's ClusterRole exists
    metricsRole: bool,
    metricsBinding: bool,
    controller: Controller)
  {
    ghost predicate WellFormed() {
      cached < |history|
    }

    function Latest(): nat
      requires WellFormed()
    {
      |history| - 1
    }

    function Server(): Option<Dashboard>
      requires WellFormed()
    {
      history[Latest()]
    }

    predicate HasFinalizer()
      requires WellFormed()
    {
      Server().Some? && Server().value.finalizer
    }

    /** None of the objects that garbage collection cannot reach exists. */
    predicate Clean() {
      && bindings == Per({}, {})
      && roles == Per(false, false)
      && !metricsRole
      && !metricsBinding
    }
  }

  datatype Event =
    | EditSpec(spec: Spec)
    | RequestDelete
    | Vanish                                   // the API server drops a deleting object without finalizer
    | Create(spec: Spec, finalizer: bool)
    | CacheAdvance(to: nat)
    | Start
    | Crash
    /** The running reconcile's next API call: its fate; what a cached read, or the
        part of the code not modelled, answers; and the conditions it would write. */
    | Call(fate: Fate, answer: bool, conditions: nat)

  // ------------------------------------------------------- desired namespaces

  function Without(own: Namespace, list: seq<Namespace>): (r: seq<Namespace>)
    ensures forall ns :: ns in r <==> ns in list && ns != own
  {
    if list == [] then []
    else if list[0] == own then Without(own, list[1..])
    else [list[0]] + Without(own, list[1..])
  }

  /** `discoveryNamespaces` and `monitorNamespaces`. */
  function Desired(own: Namespace, spec: Spec, f: Family): seq<Namespace> {
    match f
    case Discovery => if spec.discoveryEnabled then SortCompact(Without(own, spec.discoveryNamespaces)) else []
    case Monitor => SortCompact(Without(own, spec.monitorNamespaces))
  }

  /** The previous namespaces that are no longer desired. */
  function Removed(previous: seq<Namespace>, desired: seq<Namespace>): (r: seq<Namespace>)
    ensures forall ns :: ns in r <==> ns in previous && ns !in desired
  {
    if previous == [] then []
    else if previous[0] in desired then Removed(previous[1..], desired)
    else [previous[0]] + Removed(previous[1..], desired)
  }

  /** `unionSortedDeduped` */
  function Union(a: seq<Namespace>, b: seq<Namespace>): (r: seq<Namespace>)
    ensures forall ns :: ns in r <==> ns in a || ns in b
    ensures StrictlySorted(r)
  {
    var r := SortCompact(a + b);
    assert forall ns :: ns in r <==> ns in Elems(r);
    assert forall ns :: ns in a + b <==> ns in Elems(a + b);
    r
  }

  // -------------------------------------------------------------- API server

  /** Store a new version; a write that changes nothing does not make one. */
  function Put(s: System, d: Option<Dashboard>): System
    requires s.WellFormed()
  {
    if d == s.Server() then s else s.(history := s.history + [d])
  }

  /** Optimistic concurrency: only a writer that has seen the latest version may write. */
  predicate Accepts(s: System, rv: nat)
    requires s.WellFormed()
  {
    rv == s.Latest() && s.Server().Some?
  }

  function Halt(s: System): System { s.(controller := Idle) }

  function Goto(s: System, pc: Pc): System
    requires s.controller.Busy?
  {
    s.(controller := s.controller.(pc := pc))
  }

  /** `Status().Update`: on success the response replaces the in-memory object. */
  function UpdateStatus(s: System, fate: Fate, conditions: nat, ok: Pc, failed: System): System
    requires s.WellFormed() && failed.WellFormed()
    requires s.controller.Busy? && failed == s.(controller := failed.controller)
  {
    var c := s.controller;
    if fate.Failed? || !Accepts(s, c.rv) then failed
    else
      var d := s.Server().value.(status := Status(c.inst.status.record, conditions));
      var written := Put(s, Some(d));
      if fate.AppliedButFailed? then written.(controller := failed.controller)
      else written.(controller := Busy(written.Latest(), d, ok))
  }

  /** `Update` of the object's metadata. The API server refuses to add a
      finalizer to an object that is already being deleted. */
  function UpdateFinalizer(s: System, fate: Fate, present: bool, ok: Pc): System
    requires s.WellFormed() && s.controller.Busy?
  {
    var c := s.controller;
    if fate.Failed? || !Accepts(s, c.rv) || (present && s.Server().value.deleting) then Halt(s)
    else
      var d := s.Server().value.(finalizer := present);
      var written := Put(s, Some(d));
      if fate.AppliedButFailed? then Halt(written)
      else written.(controller := Busy(written.Latest(), d, ok))
  }

  /** `Delete` of a RoleBinding, tolerating an absent one. */
  function DeleteBinding(s: System, f: Family, ns: Namespace, fate: Fate, ok: System, failed: System): System {
    var left := s.bindings.With(f, s.bindings.Of(f) - {ns});
    match fate
    case Applied => ok.(bindings := left)
    case AppliedButFailed => failed.(bindings := left)
    case Failed => failed
  }

  function DeleteRole(s: System, f: Family, fate: Fate, ok: System, failed: System): System {
    var left := s.roles.With(f, false);
    match fate
    case Applied => ok.(roles := left)
    case AppliedButFailed => failed.(roles := left)
    case Failed => failed
  }

  // ------------------------------------------------------------ the reconcile

  function FailAvailable(s: System): System
    requires s.controller.Busy?
  {
    Goto(s, FailStatus)
  }

  /** Where the code goes once the finalizer is known to be on the in-memory object. */
  function AfterFinalizer(d: Dashboard): Pc {
    if d.deleting then FinStatus1 else Owned
  }

  function AfterInit(d: Dashboard): Pc {
    if !d.finalizer then AddFinalizer else AfterFinalizer(d)
  }

  /** Entry of `reconcileDiscoveryRBAC` / `reconcileMonitorRBAC`. */
  function BeginFamily(own: Namespace, inst: Dashboard, f: Family): Pc {
    if Desired(own, inst.spec, f) == [] then Unbind(f, inst.status.record.Of(f)) else EnsureRole(f)
  }

  function AfterFamily(own: Namespace, inst: Dashboard, f: Family): Pc {
    if f.Discovery? then BeginFamily(own, inst, Monitor) else Deploy
  }

  /** A cached `Get` of the Dashboard; `next` decides where the code goes with what it read. */
  function Reread(s: System, fate: Fate, next: Dashboard -> Pc): System
    requires s.WellFormed()
  {
    if !fate.Applied? || s.history[s.cached].None? then Halt(s)
    else
      var d := s.history[s.cached].value;
      s.(controller := Busy(s.cached, d, next(d)))
  }

  /** The in-memory assignment `instance.Status.<Family>Namespaces = list`. */
  function SetRecord(d: Dashboard, f: Family, list: seq<Namespace>): Dashboard {
    d.(status := d.status.(record := d.status.record.With(f, list)))
  }

  /** The in-memory record of the family, widened by the desired namespaces. */
  function Widen(s: System, f: Family): System
    requires s.controller.Busy?
  {
    var inst := s.controller.inst;
    var widened := Union(inst.status.record.Of(f), Desired(s.own, inst.spec, f));
    s.(controller := s.controller.(inst := SetRecord(inst, f, widened)))
  }

  /** The finalizer branch: it ends by removing the finalizer. */
  function FinalizeStep(s: System, fate: Fate, conditions: nat): System
    requires s.WellFormed() && s.controller.Busy?
  {
    var inst := s.controller.inst;
    match s.controller.pc
    case FinStatus1 =>
      UpdateStatus(s, fate, conditions, FinUnbind(Discovery, inst.status.record.discovery), Halt(s))
    case FinUnbind(f, todo) =>
      if todo == [] then Goto(s, FinRole(f))
      else DeleteBinding(s, f, todo[0], fate, Goto(s, FinUnbind(f, todo[1..])), Halt(s))
    case FinRole(f) =>
      var next := if f.Discovery? then FinUnbind(Monitor, inst.status.record.monitor) else FinMetricsBinding;
      DeleteRole(s, f, fate, Goto(s, next), Halt(s))
    case FinMetricsBinding =>
      Goto(s, FinMetricsRole(!fate.Applied?)).(metricsBinding := fate.Failed? && s.metricsBinding)
    case FinMetricsRole(failed) =>
      (if fate.Applied? && !failed then Goto(s, FinReread) else Halt(s))
      .(metricsRole := fate.Failed? && s.metricsRole)
    case FinReread =>
      Reread(s, fate, (d: Dashboard) => FinStatus2)
    case FinStatus2 =>
      UpdateStatus(s, fate, conditions, FinRemove, Halt(s))
    case FinRemove =>
      if !inst.finalizer then Halt(s) else Halt(UpdateFinalizer(s, fate, false, FinRemove))
    case _ => s
  }

  /** `reconcileDashboardRBAC` (owner-referenced objects: it may fail, nothing more)
      and `reconcileClusterMetricsRBAC`. */
  function MetricsStep(s: System, fate: Fate, answer: bool): System
    requires s.WellFormed() && s.controller.Busy?
  {
    var enter := Goto(s, BeginFamily(s.own, s.controller.inst, Discovery));
    match s.controller.pc
    case Owned =>
      if !fate.Applied? then FailAvailable(s)
      else Goto(s, if answer then EnsureMetricsRole else DropMetricsBinding)
    case EnsureMetricsRole =>
      if answer then Goto(s, EnsureMetricsBinding)
      else if fate.Failed? || s.metricsRole then FailAvailable(s)
      else (if fate.Applied? then Goto(s, EnsureMetricsBinding) else FailAvailable(s)).(metricsRole := true)
    case EnsureMetricsBinding =>
      if answer then enter
      else if fate.Failed? || s.metricsBinding then FailAvailable(s)
      else (if fate.Applied? then enter else FailAvailable(s)).(metricsBinding := true)
    case DropMetricsBinding =>
      Goto(s, DropMetricsRole(!fate.Applied?)).(metricsBinding := fate.Failed? && s.metricsBinding)
    case DropMetricsRole(failed) =>
      (if fate.Applied? && !failed then enter else FailAvailable(s))
      .(metricsRole := fate.Failed? && s.metricsRole)
    case _ => s
  }

  /** `reconcileDiscoveryRBAC` and `reconcileMonitorRBAC`. */
  function FamilyStep(s: System, fate: Fate, answer: bool, conditions: nat): System
    requires s.WellFormed() && s.controller.Busy?
  {
    var inst := s.controller.inst;
    match s.controller.pc
    case Unbind(f, todo) =>
      if todo == [] then s.(controller := s.controller.(inst := SetRecord(inst, f, []), pc := DropRole(f)))
      else DeleteBinding(s, f, todo[0], fate, Goto(s, Unbind(f, todo[1..])), FailAvailable(s))
    case DropRole(f) =>
      DeleteRole(s, f, fate, Goto(s, AfterFamily(s.own, inst, f)), FailAvailable(s))
    case EnsureRole(f) =>
      if answer then Goto(s, Persist(f))
      else if fate.Failed? || s.roles.Of(f) then FailAvailable(s)
      else (if fate.Applied? then Goto(s, Persist(f)) else FailAvailable(s)).(roles := s.roles.With(f, true))
    case Persist(f) =>
      var ok := Bind(f, inst.status.record.Of(f), Desired(s.own, inst.spec, f));
      UpdateStatus(Widen(s, f), fate, conditions, ok, FailAvailable(Widen(s, f)))
    case Bind(f, previous, todo) =>
      if todo == [] then Goto(s, Prune(f, Removed(previous, Desired(s.own, inst.spec, f))))
      else if answer then Goto(s, Bind(f, previous, todo[1..]))
      else if fate.Failed? || todo[0] in s.bindings.Of(f) then FailAvailable(s)
      else
        (if fate.Applied? then Goto(s, Bind(f, previous, todo[1..])) else FailAvailable(s))
        .(bindings := s.bindings.With(f, s.bindings.Of(f) + {todo[0]}))
    case Prune(f, todo) =>
      if todo == [] then
        var narrowed := SetRecord(inst, f, Desired(s.own, inst.spec, f));
        s.(controller := s.controller.(inst := narrowed, pc := AfterFamily(s.own, narrowed, f)))
      else DeleteBinding(s, f, todo[0], fate, Goto(s, Prune(f, todo[1..])), FailAvailable(s))
    case _ => s
  }

  /** The start of `Reconcile`, what follows the RBAC steps, and `failAvailable`.

      `Deploy` is `reconcileDeployment`. When it has created or updated the Deployment the
      reconcile returns at once, without a status write. Without drift it goes on to the
      remaining objects and the closing status write; where one of those cannot be
      reconciled, be it for a failed call or for a cluster without the Gateway API, the
      status is written by `failAvailable`. */
  function OuterStep(s: System, fate: Fate, answer: bool, conditions: nat): System
    requires s.WellFormed() && s.controller.Busy?
  {
    match s.controller.pc
    case InitStatus => UpdateStatus(s, fate, conditions, InitReread, Halt(s))
    case InitReread => Reread(s, fate, (d: Dashboard) => AfterInit(d))
    case AddFinalizer => UpdateFinalizer(s, fate, true, AfterFinalizer(s.controller.inst))
    case Deploy =>
      if fate.Applied? then (if answer then Halt(s) else Goto(s, Finish))
      else if answer then (if fate.Failed? then Halt(s) else Goto(s, DeployReread))
      else (if fate.Failed? then FailAvailable(s) else Halt(s))
    case DeployReread => Reread(s, fate, (d: Dashboard) => FailStatus)
    case Finish => if answer then FailAvailable(s) else Halt(UpdateStatus(s, fate, conditions, Finish, Halt(s)))
    case FailStatus => Halt(UpdateStatus(s, fate, conditions, FailStatus, Halt(s)))
    case _ => s
  }

  predicate Finalizing(pc: Pc) {
    pc.FinStatus1? || pc.FinUnbind? || pc.FinRole? || pc.FinMetricsBinding? || pc.FinMetricsRole?
    || pc.FinReread? || pc.FinStatus2? || pc.FinRemove?
  }

  predicate InMetrics(pc: Pc) {
    pc.Owned? || pc.EnsureMetricsRole? || pc.EnsureMetricsBinding? || pc.DropMetricsBinding? || pc.DropMetricsRole?
  }

  predicate InFamily(pc: Pc) {
    pc.Unbind? || pc.DropRole? || pc.EnsureRole? || pc.Persist? || pc.Bind? || pc.Prune?
  }

  function CallStep(s: System, fate: Fate, answer: bool, conditions: nat): System
    requires s.WellFormed()
  {
    if s.controller.Idle? then s
    else if Finalizing(s.controller.pc) then FinalizeStep(s, fate, conditions)
    else if InMetrics(s.controller.pc) then MetricsStep(s, fate, answer)
    else if InFamily(s.controller.pc) then FamilyStep(s, fate, answer, conditions)
    else OuterStep(s, fate, answer, conditions)
  }

  function StartStep(s: System): System
    requires s.WellFormed()
  {
    Reread(s, Applied, (d: Dashboard) => if d.status.conditions == 0 then InitStatus else AfterInit(d))
  }

  function EnvironmentStep(s: System, e: Event): System
    requires s.WellFormed()
  {
    var server := s.Server();
    match e
    case EditSpec(spec) => if server.Some? then Put(s, Some(server.value.(spec := spec))) else s
    case RequestDelete => if server.Some? then Put(s, Some(server.value.(deleting := true))) else s
    case Vanish => if server.Some? && server.value.deleting && !server.value.finalizer then Put(s, None) else s
    case Create(spec, finalizer) =>
      if server.None? then Put(s, Some(Dashboard(spec, Status(Per([], []), 0), finalizer, false))) else s
    case CacheAdvance(to) => if s.cached <= to < |s.history| then s.(cached := to) else s
    case _ => s
  }

  function Step(s: System, e: Event): System
    requires s.WellFormed()
  {
    match e
    case Start => if s.controller.Idle? then StartStep(s) else s
    case Crash => Halt(s)
    case Call(fate, answer, conditions) => CallStep(s, fate, answer, conditions)
    case _ => EnvironmentStep(s, e)
  }

  /** The first Dashboard of a name: nothing exists yet. */
  function Init(own: Namespace): System {
    System(own, [None], 0, Per({}, {}), Per(false, false), false, false, Idle)
  }

  // --------------------------------------------------------------- invariants

  ghost predicate Within(b: set<Namespace>, list: seq<Namespace>) {
    forall ns :: ns in b ==> ns in list
  }

  ghost predicate Recorded(bindings: Per<set<Namespace>>, record: Per<seq<Namespace>>) {
    Within(bindings.discovery, record.discovery) && Within(bindings.monitor, record.monitor)
  }

  /** Every existing grant is in the persisted record, and the record's object
      still carries the finalizer that will act on it. */
  ghost predicate Tracked(s: System)
    requires s.WellFormed()
  {
    && (!s.Clean() ==> s.HasFinalizer())
    && (s.HasFinalizer() ==> Recorded(s.bindings, s.Server().value.status.record))
  }

  predicate ActiveVersion(d: Option<Dashboard>) {
    d.Some? && d.value.finalizer && !d.value.deleting
  }

  /** If the cache can still show a version that is not being deleted and has the
      finalizer, the finalizer has not been removed since. */
  ghost predicate CacheSound(s: System)
    requires s.WellFormed()
  {
    forall i | s.cached <= i < |s.history| :: ActiveVersion(s.history[i]) ==> s.HasFinalizer()
  }

  /** The cache can only show versions that are being deleted. */
  ghost predicate OnlyDeleting(s: System)
    requires s.WellFormed()
  {
    forall i :: s.cached <= i < |s.history| ==> s.history[i].Some? && s.history[i].value.deleting
  }

  /** If the running reconcile would still win a write, what it holds agrees with
      the server, and writing its record would lose no grant. */
  ghost predicate InstanceSound(s: System)
    requires s.WellFormed()
  {
    s.controller.Busy? && s.controller.rv == s.Latest() ==>
      var inst := s.controller.inst;
      && s.Server().Some?
      && s.Server().value.(status := inst.status) == inst
      && Recorded(s.bindings, inst.status.record)
  }

  ghost predicate Fresh(s: System)
    requires s.WellFormed()
  {
    s.controller.Busy? && s.controller.rv == s.Latest()
  }

  ghost predicate FinalizeSound(s: System)
    requires s.WellFormed() && s.controller.Busy?
  {
    var inst := s.controller.inst;
    var started := s.HasFinalizer() && OnlyDeleting(s);
    match s.controller.pc
    case FinStatus1 => inst.finalizer && inst.deleting && s.controller.rv <= s.cached
    case FinUnbind(f, todo) =>
      && started && Within(s.bindings.Of(f), todo)
      && (f.Discovery? ==> Within(s.bindings.monitor, inst.status.record.monitor))
      && (f.Monitor? ==> s.bindings.discovery == {} && !s.roles.discovery)
    case FinRole(f) =>
      && started && s.bindings.Of(f) == {}
      && (f.Discovery? ==> Within(s.bindings.monitor, inst.status.record.monitor))
      && (f.Monitor? ==> s.bindings.discovery == {} && !s.roles.discovery)
    case FinMetricsBinding => started && s.bindings == Per({}, {}) && s.roles == Per(false, false)
    case FinMetricsRole(failed) =>
      && started && s.bindings == Per({}, {}) && s.roles == Per(false, false)
      && (!failed ==> !s.metricsBinding)
    case FinReread => started && s.Clean()
    case FinStatus2 => started && s.Clean()
    case FinRemove => started && s.Clean()
    case _ => true
  }

  ghost predicate FamilySound(s: System)
    requires s.WellFormed() && s.controller.Busy?
  {
    var inst := s.controller.inst;
    match s.controller.pc
    case Unbind(f, todo) => Fresh(s) ==> Within(s.bindings.Of(f), todo)
    case Bind(f, previous, todo) =>
      && s.HasFinalizer()
      && (forall ns :: ns in todo ==> ns in Desired(s.own, inst.spec, f))
      && inst.status.record.Of(f) == Union(previous, Desired(s.own, inst.spec, f))
      && s.Server().value.status.record.Of(f) == inst.status.record.Of(f)
    case Prune(f, todo) =>
      forall ns :: ns in s.bindings.Of(f) ==> ns in Desired(s.own, inst.spec, f) || ns in todo
    case _ => true
  }

  ghost predicate ControllerSound(s: System)
    requires s.WellFormed()
  {
    s.controller.Busy? ==>
      && s.controller.rv <= s.Latest()
      && FinalizeSound(s)
      && FamilySound(s)
      && (InMetrics(s.controller.pc) || InFamily(s.controller.pc) ==> s.HasFinalizer())
  }

  /** The part of the invariant that does not look at the running reconcile. */
  ghost predicate Core(s: System) {
    s.WellFormed() && Tracked(s) && CacheSound(s)
  }

  ghost predicate Inv(s: System) {
    Core(s) && InstanceSound(s) && ControllerSound(s)
  }

  // ------------------------------------------------------- every step keeps it

  /** A write of a record that covers every grant, and leaves the finalizer as it was, is safe. */
  lemma PutKeepsCore(s: System, d: Dashboard)
    requires Core(s) && s.Server().Some?
    requires d.finalizer == s.HasFinalizer()
    requires Recorded(s.bindings, d.status.record)
    ensures Core(Put(s, Some(d)))
    ensures OnlyDeleting(s) && d.deleting ==> OnlyDeleting(Put(s, Some(d)))
  {
  }

  /** The status write of `s` went through: the in-memory object of `r` is what the server now has. */
  ghost predicate Stored(s: System, r: System, ok: Pc)
    requires s.WellFormed() && r.WellFormed() && s.controller.Busy?
  {
    && Fresh(s) && Fresh(r) && r.controller.pc == ok
    && r.Server() == Some(r.controller.inst)
    && r.controller.inst.(status := s.controller.inst.status) == s.controller.inst
    && r.controller.inst.status.record == s.controller.inst.status.record
  }

  lemma UpdateStatusKeeps(s: System, fate: Fate, conditions: nat, ok: Pc, failed: System)
    requires Core(s) && InstanceSound(s)
    requires s.controller.Busy? && s.controller.rv <= s.Latest()
    requires failed == s.(controller := failed.controller)
    requires failed.controller.Busy? ==> failed == Goto(s, failed.controller.pc)
    ensures var r := UpdateStatus(s, fate, conditions, ok, failed);
            && Core(r) && InstanceSound(r)
            && r == s.(history := r.history, controller := r.controller)
            && s.Latest() <= r.Latest()
            && r.HasFinalizer() == s.HasFinalizer()
            && (OnlyDeleting(s) ==> OnlyDeleting(r))
            && (r.controller == failed.controller || Stored(s, r, ok))
  {
    if !fate.Failed? && Accepts(s, s.controller.rv) {
      var d := s.Server().value.(status := Status(s.controller.inst.status.record, conditions));
      PutKeepsCore(s, d);
      assert Put(s, Some(d)).Server() == Some(d);
    }
  }

  /** What every step guarantees: the invariant, and only a deleting Dashboard loses its finalizer. */
  ghost predicate Next(s: System, r: System)
    requires s.WellFormed()
  {
    && Inv(r)
    && r.own == s.own
    && (s.HasFinalizer() && !r.HasFinalizer() ==> s.Server().value.deleting)
  }

  lemma CoreIgnoresController(s: System, c: Controller)
    requires Core(s)
    ensures s.WellFormed() && Core(s.(controller := c)) && (OnlyDeleting(s) <==> OnlyDeleting(s.(controller := c)))
  {
  }

  lemma GotoKeeps(s: System, pc: Pc)
    requires Inv(s) && s.controller.Busy?
    ensures Core(Goto(s, pc)) && InstanceSound(Goto(s, pc))
  {
    hide Core, ControllerSound, Recorded;
    CoreIgnoresController(s, Goto(s, pc).controller);
  }

  lemma EditSpecKeepsInv(s: System, e: Event)
    requires Inv(s) && e.EditSpec?
    ensures Next(s, EnvironmentStep(s, e))
  {
    hide Desired, Union;
  }

  lemma RequestDeleteKeepsInv(s: System, e: Event)
    requires Inv(s) && e.RequestDelete?
    ensures Next(s, EnvironmentStep(s, e))
  {
    hide Desired, Union;
  }

  lemma CreateKeepsInv(s: System, e: Event)
    requires Inv(s) && e.Create?
    ensures Next(s, EnvironmentStep(s, e))
  {
    hide Desired, Union;
  }

  lemma EnvironmentKeepsInv(s: System, e: Event)
    requires Inv(s)
    ensures Next(s, EnvironmentStep(s, e))
  {
    hide Desired, Union;
    match e
    case EditSpec(_) => EditSpecKeepsInv(s, e);
    case RequestDelete => RequestDeleteKeepsInv(s, e);
    case Create(_, _) => CreateKeepsInv(s, e);
    case _ =>
  }

  lemma StartKeepsInv(s: System)
    requires Inv(s)
    ensures Next(s, StartStep(s))
  {
    hide Desired, Union;
  }

  lemma FinalizeDeleteKeepsInv(s: System, fate: Fate, conditions: nat)
    requires Inv(s) && s.controller.Busy?
    requires var pc := s.controller.pc; pc.FinRole? || pc.FinMetricsBinding? || pc.FinMetricsRole?
    ensures Next(s, FinalizeStep(s, fate, conditions))
  {
    hide UpdateStatus, UpdateFinalizer, Reread;
  }

  lemma FinalizeUnbindKeepsInv(s: System, fate: Fate, conditions: nat)
    requires Inv(s) && s.controller.Busy? && s.controller.pc.FinUnbind?
    ensures Next(s, FinalizeStep(s, fate, conditions))
  {
    hide UpdateStatus, UpdateFinalizer, Reread, CacheSound;
    CacheSoundIsAboutHistory(s, FinalizeStep(s, fate, conditions));
  }

  lemma FinalizeWriteKeepsInv(s: System, fate: Fate, conditions: nat)
    requires Inv(s) && s.controller.Busy?
    requires var pc := s.controller.pc; pc.FinStatus1? || pc.FinStatus2?
    ensures Next(s, FinalizeStep(s, fate, conditions))
  {
    hide UpdateStatus, UpdateFinalizer, Reread;
    var ok := if s.controller.pc.FinStatus1? then FinUnbind(Discovery, s.controller.inst.status.record.discovery)
              else FinRemove;
    UpdateStatusKeeps(s, fate, conditions, ok, Halt(s));
  }

  /** Removing the finalizer: by now no grant is left and the cache shows no version without a deletion mark. */
  lemma FinalizeEndKeepsInv(s: System, fate: Fate, conditions: nat)
    requires Inv(s) && s.controller.Busy?
    requires s.controller.pc.FinReread? || s.controller.pc.FinRemove?
    ensures Next(s, FinalizeStep(s, fate, conditions))
  {
    hide UpdateStatus;
  }

  lemma FinalizeKeepsInv(s: System, fate: Fate, conditions: nat)
    requires Inv(s) && s.controller.Busy? && Finalizing(s.controller.pc)
    ensures Next(s, FinalizeStep(s, fate, conditions))
  {
    match s.controller.pc
    case FinStatus1 => FinalizeWriteKeepsInv(s, fate, conditions);
    case FinStatus2 => FinalizeWriteKeepsInv(s, fate, conditions);
    case FinReread => FinalizeEndKeepsInv(s, fate, conditions);
    case FinRemove => FinalizeEndKeepsInv(s, fate, conditions);
    case FinUnbind(_, _) => FinalizeUnbindKeepsInv(s, fate, conditions);
    case _ => FinalizeDeleteKeepsInv(s, fate, conditions);
  }

  /** Creating or deleting metrics objects while the finalizer is on. */
  lemma MetricsChangeKeepsCore(s: System, r: System)
    requires Core(s) && s.HasFinalizer()
    requires r.history == s.history && r.cached == s.cached && r.bindings == s.bindings
    ensures r.WellFormed() && Core(r)
  {
  }

  lemma MetricsBindKeepsInv(s: System, fate: Fate, answer: bool)
    requires Inv(s) && s.controller.Busy? && s.controller.pc.EnsureMetricsBinding?
    ensures Next(s, MetricsStep(s, fate, answer))
  {
    hide Core, CacheSound, Tracked, Desired, OnlyDeleting;
    CoreIsWellFormed(s);
    MetricsChangeKeepsCore(s, MetricsStep(s, fate, answer));
  }

  lemma MetricsEnsureKeepsInv(s: System, fate: Fate, answer: bool)
    requires Inv(s) && s.controller.Busy? && s.controller.pc.EnsureMetricsRole?
    ensures Next(s, MetricsStep(s, fate, answer))
  {
    hide Core, CacheSound, Tracked, Desired, OnlyDeleting;
    CoreIsWellFormed(s);
    MetricsChangeKeepsCore(s, MetricsStep(s, fate, answer));
  }

  lemma MetricsDropKeepsInv(s: System, fate: Fate, answer: bool)
    requires Inv(s) && s.controller.Busy?
    requires s.controller.pc.DropMetricsBinding? || s.controller.pc.DropMetricsRole?
    ensures Next(s, MetricsStep(s, fate, answer))
  {
    hide Core, CacheSound, Tracked, Desired, OnlyDeleting;
    CoreIsWellFormed(s);
    MetricsChangeKeepsCore(s, MetricsStep(s, fate, answer));
  }

  lemma OwnedKeepsInv(s: System, fate: Fate, answer: bool)
    requires Inv(s) && s.controller.Busy? && s.controller.pc.Owned?
    ensures Next(s, MetricsStep(s, fate, answer))
  {
    hide Core, CacheSound, Tracked, Desired, OnlyDeleting;
    CoreIsWellFormed(s);
    MetricsChangeKeepsCore(s, MetricsStep(s, fate, answer));
  }

  lemma CoreIsWellFormed(s: System)
    requires Core(s)
    ensures s.WellFormed()
  {
  }

  lemma MetricsKeepsInv(s: System, fate: Fate, answer: bool)
    requires Inv(s) && s.controller.Busy? && InMetrics(s.controller.pc)
    ensures Next(s, MetricsStep(s, fate, answer))
  {
    hide Inv, MetricsStep, Next;
    match s.controller.pc
    case Owned => OwnedKeepsInv(s, fate, answer);
    case DropMetricsBinding => MetricsDropKeepsInv(s, fate, answer);
    case DropMetricsRole(_) => MetricsDropKeepsInv(s, fate, answer);
    case EnsureMetricsRole => MetricsEnsureKeepsInv(s, fate, answer);
    case EnsureMetricsBinding => MetricsBindKeepsInv(s, fate, answer);
  }

  lemma UnbindKeepsInv(s: System, fate: Fate, answer: bool, conditions: nat)
    requires Inv(s) && s.controller.Busy? && s.controller.pc.Unbind?
    ensures Next(s, FamilyStep(s, fate, answer, conditions))
  {
    hide UpdateStatus, Desired, BeginFamily, CacheSound;
    CacheSoundIsAboutHistory(s, FamilyStep(s, fate, answer, conditions));
  }

  lemma DropRoleKeepsInv(s: System, fate: Fate, answer: bool, conditions: nat)
    requires Inv(s) && s.controller.Busy? && s.controller.pc.DropRole?
    ensures Next(s, FamilyStep(s, fate, answer, conditions))
  {
    hide UpdateStatus, Desired;
  }

  /** Deleting one RoleBinding, whatever becomes of the call. */
  lemma PruneOneKeepsInv(s: System, fate: Fate, answer: bool, conditions: nat)
    requires Inv(s) && s.controller.Busy? && s.controller.pc.Prune? && s.controller.pc.todo != []
    ensures Next(s, FamilyStep(s, fate, answer, conditions))
  {
    hide UpdateStatus, Desired, BeginFamily;
  }

  /** Narrowing: the in-memory record drops the old namespaces once none holds a RoleBinding. */
  lemma NarrowKeepsInv(s: System, fate: Fate, answer: bool, conditions: nat)
    requires Inv(s) && s.controller.Busy? && s.controller.pc.Prune? && s.controller.pc.todo == []
    ensures Next(s, FamilyStep(s, fate, answer, conditions))
  {
    hide UpdateStatus, Desired;
  }

  lemma EnsureRoleKeepsInv(s: System, fate: Fate, answer: bool, conditions: nat)
    requires Inv(s) && s.controller.Busy? && s.controller.pc.EnsureRole?
    ensures Next(s, FamilyStep(s, fate, answer, conditions))
  {
    hide UpdateStatus;
  }

  lemma WideningKeepsRecorded(b: Per<set<Namespace>>, record: Per<seq<Namespace>>, f: Family, desired: seq<Namespace>)
    requires Recorded(b, record)
    ensures Recorded(b, record.With(f, Union(record.Of(f), desired)))
  {
    hide Union;
  }

  lemma WidenKeeps(s: System, f: Family)
    requires Inv(s) && s.controller.Busy?
    ensures Core(Widen(s, f)) && InstanceSound(Widen(s, f))
  {
    hide Core, Recorded, Desired, Union, ControllerSound;
    CoreIgnoresController(s, Widen(s, f).controller);
    if Fresh(s) {
      WideningKeepsRecorded(s.bindings, s.controller.inst.status.record, f, Desired(s.own, s.controller.inst.spec, f));
    }
  }

  /** What the outcome of the widening write has to be for the invariant to hold. */
  lemma WidenedKeepsInv(s: System, w: System, r: System, f: Family, ok: Pc)
    requires Inv(s) && s.controller.Busy? && InFamily(s.controller.pc) && w == Widen(s, f)
    requires ok == Bind(f, s.controller.inst.status.record.Of(f), Desired(s.own, s.controller.inst.spec, f))
    requires Core(r) && InstanceSound(r)
    requires r == w.(history := r.history, controller := r.controller) && w.Latest() <= r.Latest()
    requires r.HasFinalizer() == w.HasFinalizer()
    requires r.controller == FailAvailable(w).controller || Stored(w, r, ok)
    ensures Next(s, r)
  {
    hide Tracked, CacheSound, Recorded, Desired, Union, InstanceSound;
  }

  /** The write-ahead step: the widened record still covers every grant, so it may be stored. */
  lemma PersistKeepsInv(s: System, fate: Fate, answer: bool, conditions: nat)
    requires Inv(s) && s.controller.Busy? && s.controller.pc.Persist?
    ensures Next(s, FamilyStep(s, fate, answer, conditions))
  {
    var f, inst := s.controller.pc.f, s.controller.inst;
    var ok, w := Bind(f, inst.status.record.Of(f), Desired(s.own, inst.spec, f)), Widen(s, f);
    WidenKeeps(s, f);
    assert FamilyStep(s, fate, answer, conditions) == UpdateStatus(w, fate, conditions, ok, FailAvailable(w)) by {
      hide UpdateStatus, Inv, Desired, Union;
    }
    hide FamilyStep, UpdateStatus, Desired, Union, InstanceSound, Tracked, CacheSound, Widen, Stored;
    WidenIsBusy(s, f);
    UpdateStatusKeeps(w, fate, conditions, ok, FailAvailable(w));
    WidenedKeepsInv(s, w, UpdateStatus(w, fate, conditions, ok, FailAvailable(w)), f, ok);
  }

  lemma WidenIsBusy(s: System, f: Family)
    requires s.controller.Busy?
    ensures Widen(s, f) == s.(controller := Widen(s, f).controller)
    ensures Widen(s, f).controller.Busy? && Widen(s, f).controller.rv == s.controller.rv
  {
  }

  /** A RoleBinding is only ever created in a namespace the server's record already names. */
  lemma BindOneKeepsInv(s: System, fate: Fate, answer: bool, conditions: nat)
    requires Inv(s) && s.controller.Busy? && s.controller.pc.Bind? && s.controller.pc.todo != []
    ensures Next(s, FamilyStep(s, fate, answer, conditions))
  {
    hide UpdateStatus, Desired, BeginFamily, Union, SortCompact, CacheSound;
    var f, ns := s.controller.pc.f, s.controller.pc.todo[0];
    var grown := s.bindings.With(f, s.bindings.Of(f) + {ns});
    assert ns in s.controller.inst.status.record.Of(f);
    assert Recorded(grown, s.Server().value.status.record);
    CacheSoundIsAboutHistory(s, FamilyStep(s, fate, answer, conditions));
  }

  lemma CacheSoundIsAboutHistory(s: System, r: System)
    requires s.WellFormed() && CacheSound(s) && r.history == s.history && r.cached == s.cached
    ensures r.WellFormed() && CacheSound(r)
  {
  }

  /** All desired namespaces are bound; every other grant lies in a previous one. */
  lemma BoundKeepsInv(s: System, fate: Fate, answer: bool, conditions: nat)
    requires Inv(s) && s.controller.Busy? && s.controller.pc.Bind? && s.controller.pc.todo == []
    ensures Next(s, FamilyStep(s, fate, answer, conditions))
  {
    hide UpdateStatus, Desired, Union, CacheSound, InstanceSound;
    var f := s.controller.pc.f;
    GotoKeeps(s, Prune(f, Removed(s.controller.pc.previous, Desired(s.own, s.controller.inst.spec, f))));
  }

  lemma FamilyKeepsInv(s: System, fate: Fate, answer: bool, conditions: nat)
    requires Inv(s) && s.controller.Busy? && InFamily(s.controller.pc)
    ensures Next(s, FamilyStep(s, fate, answer, conditions))
  {
    match s.controller.pc
    case EnsureRole(_) => EnsureRoleKeepsInv(s, fate, answer, conditions);
    case Persist(_) => PersistKeepsInv(s, fate, answer, conditions);
    case Bind(_, _, todo) =>
      if todo == [] {
        BoundKeepsInv(s, fate, answer, conditions);
      } else {
        BindOneKeepsInv(s, fate, answer, conditions);
      }
    case Prune(_, todo) =>
      if todo == [] {
        NarrowKeepsInv(s, fate, answer, conditions);
      } else {
        PruneOneKeepsInv(s, fate, answer, conditions);
      }
    case Unbind(_, _) => UnbindKeepsInv(s, fate, answer, conditions);
    case DropRole(_) => DropRoleKeepsInv(s, fate, answer, conditions);
  }

  lemma OuterStatusKeepsInv(s: System, fate: Fate, answer: bool, conditions: nat)
    requires Inv(s) && s.controller.Busy?
    requires var pc := s.controller.pc; pc.InitStatus? || pc.Finish? || pc.FailStatus?
    ensures Next(s, OuterStep(s, fate, answer, conditions))
  {
    hide UpdateStatus, UpdateFinalizer, Reread, CacheSound, Tracked, Recorded, OnlyDeleting, Desired;
    var ok := if s.controller.pc.InitStatus? then InitReread else s.controller.pc;
    UpdateStatusKeeps(s, fate, conditions, ok, Halt(s));
    CoreIgnoresController(UpdateStatus(s, fate, conditions, ok, Halt(s)), Idle);
    CoreIgnoresController(s, Idle);
    GotoKeeps(s, FailStatus);
  }

  lemma DeployKeepsInv(s: System, fate: Fate, answer: bool, conditions: nat)
    requires Inv(s) && s.controller.Busy? && s.controller.pc.Deploy?
    ensures Next(s, OuterStep(s, fate, answer, conditions))
  {
    hide CacheSound, Tracked, Recorded, OnlyDeleting, Desired;
    CoreIgnoresController(s, Idle);
    GotoKeeps(s, Finish);
    GotoKeeps(s, DeployReread);
    GotoKeeps(s, FailStatus);
  }

  lemma OuterReadKeepsInv(s: System, fate: Fate, answer: bool, conditions: nat)
    requires Inv(s) && s.controller.Busy?
    requires var pc := s.controller.pc; pc.InitReread? || pc.DeployReread?
    ensures Next(s, OuterStep(s, fate, answer, conditions))
  {
    hide UpdateStatus, UpdateFinalizer;
  }

  lemma AddFinalizerKeepsInv(s: System, fate: Fate, answer: bool, conditions: nat)
    requires Inv(s) && s.controller.Busy? && s.controller.pc.AddFinalizer?
    ensures Next(s, OuterStep(s, fate, answer, conditions))
  {
    hide UpdateStatus, Reread;
  }

  lemma OuterKeepsInv(s: System, fate: Fate, answer: bool, conditions: nat)
    requires Inv(s) && s.controller.Busy?
    requires !Finalizing(s.controller.pc) && !InMetrics(s.controller.pc) && !InFamily(s.controller.pc)
    ensures Next(s, OuterStep(s, fate, answer, conditions))
  {
    match s.controller.pc
    case AddFinalizer => AddFinalizerKeepsInv(s, fate, answer, conditions);
    case InitReread => OuterReadKeepsInv(s, fate, answer, conditions);
    case Deploy => DeployKeepsInv(s, fate, answer, conditions);
    case DeployReread => OuterReadKeepsInv(s, fate, answer, conditions);
    case _ => OuterStatusKeepsInv(s, fate, answer, conditions);
  }

  lemma StepKeepsInv(s: System, e: Event)
    requires Inv(s)
    ensures Next(s, Step(s, e))
  {
    match e
    case Start => StartKeepsInv(s);
    case Crash =>
    case Call(fate, answer, conditions) =>
      if s.controller.Busy? {
        if Finalizing(s.controller.pc) { FinalizeKeepsInv(s, fate, conditions); }
        else if InMetrics(s.controller.pc) { MetricsKeepsInv(s, fate, answer); }
        else if InFamily(s.controller.pc) { FamilyKeepsInv(s, fate, answer, conditions); }
        else { OuterKeepsInv(s, fate, answer, conditions); }
      }
    case _ => EnvironmentKeepsInv(s, e);
  }

  // -------------------------------------------------------------- whole runs

  /** The state after a run. Every prefix of a run is a run, so a statement about
      the end of all runs is a statement about every reachable state. */
  function Exec(own: Namespace, run: seq<Event>): System
    decreases |run|
  {
    if run == [] then Init(own)
    else
      var before := Exec(own, run[..|run| - 1]);
      if before.cached < |before.history| then Step(before, run[|run| - 1]) else before
  }

  lemma {:induction false} RunKeepsInv(own: Namespace, run: seq<Event>)
    ensures Inv(Exec(own, run)) && Exec(own, run).own == own
    decreases |run|
  {
    if run != [] {
      var before := Exec(own, run[..|run| - 1]);
      RunKeepsInv(own, run[..|run| - 1]);
      StepKeepsInv(before, run[|run| - 1]);
    }
  }

  /** In every reachable state, each namespace that holds a RoleBinding of either
      family is in the record persisted on the server for that family. */
  lemma {:induction false} GrantsAreAlwaysRecorded(own: Namespace, run: seq<Event>, f: Family, ns: Namespace)
    ensures var s := Exec(own, run);
            && s.WellFormed()
            && (ns in s.bindings.Of(f) ==>
                  && s.Server().Some?
                  && ns in s.Server().value.status.record.Of(f))
  {
    RunKeepsInv(own, run);
  }

  /** In every reachable state, an object that garbage collection cannot reach
      exists only while the Dashboard exists and carries the finalizer. */
  lemma {:induction false} GrantsImplyFinalizer(own: Namespace, run: seq<Event>)
    ensures var s := Exec(own, run);
            s.WellFormed() && (!s.Clean() ==> s.HasFinalizer())
  {
    RunKeepsInv(own, run);
  }

  /** Whatever came before, the step that removes the finalizer leaves no
      cross-namespace RoleBinding, no family or metrics ClusterRole and no metrics
      ClusterRoleBinding behind; and only a deleted Dashboard ever loses it. */
  lemma {:induction false} FinalizerIsRemovedLast(own: Namespace, run: seq<Event>, e: Event)
    ensures var s, t := Exec(own, run), Exec(own, run + [e]);
            && s.WellFormed() && t.WellFormed()
            && (s.HasFinalizer() && !t.HasFinalizer() ==> t.Clean() && s.Server().value.deleting)
  {
    RunKeepsInv(own, run);
    RunKeepsInv(own, run + [e]);
    assert (run + [e])[..|run|] == run;
    StepKeepsInv(Exec(own, run), e);
  }
}
