/** What the grant protocol achieves when nothing goes wrong: reconciles run to their
    end, and at the end everything is as it should be.

    Nothing going wrong means that the cache catches up before every call, no call
    fails, and nobody edits the object meanwhile. The runs below are runs of
    `GrantProtocol`, with any number of faults before them. */
module GrantProgress {
  import opened ApiCall
  import opened GrantEnding
  import opened GrantProtocol
  import opened Ordering

  /** One undisturbed call. */
  function Calm(s: System, answer: bool, conditions: nat): System
    requires s.WellFormed()
  {
    Step(CaughtUp(s), Call(Applied, answer, conditions))
  }

  function CaughtUp(s: System): System
    requires s.WellFormed()
  {
    Step(s, CacheAdvance(s.Latest()))
  }

  lemma CaughtUpIs(s: System)
    requires s.WellFormed()
    ensures CaughtUp(s) == s.(cached := s.Latest())
  {
  }

  lemma CalmKeepsInv(s: System, answer: bool, conditions: nat)
    requires Inv(s)
    ensures CaughtUp(s).WellFormed() && Inv(CaughtUp(s)) && Inv(Calm(s, answer, conditions))
  {
    hide Inv, Step;
    InvIsWellFormed(s);
    StepKeepsInv(s, CacheAdvance(s.Latest()));
    InvIsWellFormed(CaughtUp(s));
    StepKeepsInv(CaughtUp(s), Call(Applied, answer, conditions));
  }

  /** The undisturbed start of a reconcile. */
  function CalmStart(s: System): System
    requires s.WellFormed()
  {
    Step(CaughtUp(s), Start)
  }

  // ------------------------------------------------------------- the deletion

  ghost predicate Deleting(s: System)
    requires s.WellFormed()
  {
    s.Server().Some? && s.Server().value.deleting && s.Server().value.finalizer
  }

  /** A reconcile of a deleting Dashboard that has met no fault. */
  ghost predicate Ending(s: System) {
    && Inv(s) && s.controller.Busy? && Fresh(s) && Deleting(s)
    && (Finalizing(s.controller.pc) || s.controller.pc.InitStatus? || s.controller.pc.InitReread?)
    && s.controller.pc != FinMetricsRole(true)
    && (s.controller.pc.InitStatus? ==> s.controller.inst.status.record == s.Server().value.status.record)
  }

  /** How many calls it takes to the end. */
  function EndRank(s: System): nat
    requires s.WellFormed() && s.controller.Busy? && s.Server().Some?
  {
    match s.controller.pc
    case InitStatus => 12 + RecordSize(s.Server().value)
    case InitReread => 11 + RecordSize(s.Server().value)
    case _ => CallsLeft(s, 0)
  }

  ghost predicate EndsOrNears(s: System, t: System)
    requires s.WellFormed() && s.controller.Busy? && s.Server().Some?
  {
    && t.WellFormed()
    && ((t.controller.Idle? && !t.HasFinalizer())
        || (t.controller.Busy? && Fresh(t) && Deleting(t) && Finalizing(t.controller.pc)
            && t.controller.pc != FinMetricsRole(true) && EndRank(t) < EndRank(s)))
  }

  lemma EndingCallDelete(s: System, conditions: nat)
    requires Ending(s) && s.cached == s.Latest() && Finalizing(s.controller.pc)
    requires var pc := s.controller.pc; pc.FinUnbind? || pc.FinRole? || pc.FinMetricsBinding? || pc.FinMetricsRole?
    ensures EndsOrNears(s, FinalizeStep(s, Applied, conditions))
  {
    hide Inv, UpdateStatus, UpdateFinalizer, Reread;
  }

  lemma EndingCallWrite(s: System, conditions: nat)
    requires Ending(s) && s.cached == s.Latest() && Finalizing(s.controller.pc)
    requires var pc := s.controller.pc; pc.FinStatus1? || pc.FinStatus2? || pc.FinReread?
    ensures EndsOrNears(s, FinalizeStep(s, Applied, conditions))
  {
    hide Inv, UpdateFinalizer;
  }

  lemma EndingCallRemove(s: System, conditions: nat)
    requires Ending(s) && s.cached == s.Latest() && s.controller.pc.FinRemove?
    ensures EndsOrNears(s, FinalizeStep(s, Applied, conditions))
  {
    hide Core, FamilySound, FinalizeSound, Recorded, UpdateStatus, Reread;
  }

  lemma EndingCallFinalize(s: System, conditions: nat)
    requires Ending(s) && s.cached == s.Latest() && Finalizing(s.controller.pc)
    ensures EndsOrNears(s, FinalizeStep(s, Applied, conditions))
  {
    match s.controller.pc
    case FinStatus1 => EndingCallWrite(s, conditions);
    case FinStatus2 => EndingCallWrite(s, conditions);
    case FinReread => EndingCallWrite(s, conditions);
    case FinRemove => EndingCallRemove(s, conditions);
    case _ => EndingCallDelete(s, conditions);
  }

  lemma EndingCallInit(s: System, answer: bool, conditions: nat)
    requires Ending(s) && s.cached == s.Latest() && !Finalizing(s.controller.pc)
    ensures
      var t := OuterStep(s, Applied, answer, conditions);
      && t.WellFormed() && t.controller.Busy? && Fresh(t) && Deleting(t)
      && (Finalizing(t.controller.pc) || t.controller.pc.InitReread?)
      && t.controller.pc != FinMetricsRole(true) && EndRank(t) < EndRank(s)
  {
    hide CacheSound, OnlyDeleting, Tracked, Recorded, FamilySound, FinalizeSound, Desired;
  }

  lemma CatchingUpKeepsEnding(s: System, c: System)
    requires Ending(s) && c == s.(cached := s.Latest()) && Inv(c)
    ensures Ending(c) && EndRank(c) == EndRank(s)
  {
    hide Inv;
  }

  lemma EndingCallIs(s: System, answer: bool, conditions: nat)
    requires Ending(s)
    ensures Step(s, Call(Applied, answer, conditions)) ==
      if Finalizing(s.controller.pc) then FinalizeStep(s, Applied, conditions)
      else OuterStep(s, Applied, answer, conditions)
  {
    hide Inv, FinalizeStep, OuterStep;
  }

  /** Every undisturbed call brings the end nearer, and the last removes the finalizer. */
  lemma EndingCall(s: System, answer: bool, conditions: nat)
    requires Ending(s)
    ensures
      var t := Calm(s, answer, conditions);
      && t.WellFormed()
      && ((t.controller.Idle? && !t.HasFinalizer()) || (Ending(t) && EndRank(t) < EndRank(s)))
  {
    CalmKeepsInv(s, answer, conditions);
    CaughtUpIs(s);
    var c := CaughtUp(s);
    CatchingUpKeepsEnding(s, c);
    EndingCallIs(c, answer, conditions);
    hide Inv, Step, FinalizeStep, OuterStep, EndRank, CaughtUp;
    if Finalizing(c.controller.pc) {
      EndingCallFinalize(c, conditions);
    } else {
      EndingCallInit(c, answer, conditions);
    }
  }

  /** A run of undisturbed calls, with any answers. */
  function CalmRun(s: System, choices: seq<(bool, nat)>): System
    requires Inv(s)
    decreases |choices|
  {
    if choices == [] then s
    else
      CalmKeepsInv(s, choices[0].0, choices[0].1);
      CalmRun(Calm(s, choices[0].0, choices[0].1), choices[1..])
  }

  /** Nothing happens any more once the reconcile is over. */
  lemma {:induction false} IdleStays(s: System, choices: seq<(bool, nat)>)
    requires Inv(s) && s.controller.Idle? && !s.HasFinalizer()
    ensures var t := CalmRun(s, choices); t.WellFormed() && t.controller.Idle? && !t.HasFinalizer() && t.Clean()
    decreases |choices|
  {
    if choices != [] {
      CalmKeepsInv(s, choices[0].0, choices[0].1);
      IdleStays(Calm(s, choices[0].0, choices[0].1), choices[1..]);
    }
  }

  lemma {:induction false} EndingRun(s: System, choices: seq<(bool, nat)>)
    requires Ending(s) && |choices| >= EndRank(s)
    ensures var t := CalmRun(s, choices); t.WellFormed() && t.controller.Idle? && !t.HasFinalizer() && t.Clean()
    decreases |choices|
  {
    hide Ending, EndRank, Calm, Inv;
    EndingIsBusy(s);
    if choices != [] {
      CalmKeepsInv(s, choices[0].0, choices[0].1);
      EndingCall(s, choices[0].0, choices[0].1);
      var t := Calm(s, choices[0].0, choices[0].1);
      if Ending(t) {
        EndingIsBusy(t);
        EndingRun(t, choices[1..]);
      } else {
        IdleStays(t, choices[1..]);
      }
    }
  }

  lemma EndingIsBusy(s: System)
    requires Ending(s)
    ensures Inv(s) && s.WellFormed() && s.controller.Busy? && s.Server().Some? && EndRank(s) > 0
  {
  }

  /** An undisturbed run of enough calls brings the reconcile that is running to its end. */
  lemma {:induction false} CalmRunEnds(s: System, choices: seq<(bool, nat)>, wanted: nat, recorded: nat)
    requires Inv(s)
    requires s.controller.Busy? ==> Bounded(s, wanted, recorded) && CallsLeft(s, 10 + wanted + recorded) <= |choices|
    ensures var u := CalmRun(s, choices); Inv(u) && u.controller.Idle?
    decreases |choices|
  {
    InvIsWellFormed(s);
    hide Inv, Bounded, CallsLeft, Step, CaughtUp;
    if s.controller.Busy? {
      SomeCallsLeft(s, 10 + wanted + recorded);
    }
    if choices != [] {
      CalmKeepsInv(s, choices[0].0, choices[0].1);
      CalmNears(s, choices[0].0, choices[0].1, wanted, recorded);
      CalmRunEnds(Calm(s, choices[0].0, choices[0].1), choices[1..], wanted, recorded);
    }
  }

  lemma CalmNears(s: System, answer: bool, conditions: nat, wanted: nat, recorded: nat)
    requires Inv(s)
    ensures
      var t, most := Calm(s, answer, conditions), 10 + wanted + recorded;
      && (s.controller.Idle? ==> t.controller.Idle?)
      && (s.controller.Busy? && Bounded(s, wanted, recorded) && t.controller.Busy? ==>
            Bounded(t, wanted, recorded) && CallsLeft(t, most) < CallsLeft(s, most))
  {
    CalmKeepsInv(s, answer, conditions);
    CaughtUpIs(s);
    var c := CaughtUp(s);
    hide Inv, Bounded, Left, CaughtUp;
    if s.controller.Busy? && Bounded(s, wanted, recorded) {
      CatchingUpKeepsBound(s, c, wanted, recorded);
      EventNears(c, Call(Applied, answer, conditions), wanted, recorded);
    }
  }

  lemma CatchingUpKeepsBound(s: System, c: System, wanted: nat, recorded: nat)
    requires s.controller.Busy? && Bounded(s, wanted, recorded) && s.WellFormed() && c == s.(cached := s.Latest())
    ensures Bounded(c, wanted, recorded)
  {
    hide Desired;
  }

  /** The controller's own writes leave spec and deletion mark alone. */
  ghost predicate KeepsObject(s: System, t: System)
    requires s.WellFormed() && s.Server().Some?
  {
    && t.WellFormed() && t.own == s.own && t.Server().Some?
    && t.Server().value.spec == s.Server().value.spec && t.Server().value.deleting == s.Server().value.deleting
  }

  lemma StatusWriteKeepsObject(s: System, fate: Fate, conditions: nat, ok: Pc)
    requires s.WellFormed() && s.controller.Busy? && s.Server().Some?
    ensures KeepsObject(s, UpdateStatus(s, fate, conditions, ok, Halt(s)))
  {
  }

  lemma FinalizerWriteKeepsObject(s: System, fate: Fate, present: bool, ok: Pc)
    requires s.WellFormed() && s.controller.Busy? && s.Server().Some?
    ensures KeepsObject(s, UpdateFinalizer(s, fate, present, ok))
  {
  }

  lemma FinalizeKeepsObject(s: System, fate: Fate, conditions: nat)
    requires s.WellFormed() && s.controller.Busy? && s.Server().Some?
    ensures KeepsObject(s, FinalizeStep(s, fate, conditions))
  {
    var pc := s.controller.pc;
    if pc.FinStatus1? || pc.FinStatus2? || pc.FinRemove? {
      FinalizeWriteKeepsObject(s, fate, conditions);
    } else {
      FinalizeDeleteKeepsObject(s, fate, conditions);
    }
  }

  lemma FinalizeWriteKeepsObject(s: System, fate: Fate, conditions: nat)
    requires s.WellFormed() && s.controller.Busy? && s.Server().Some?
    requires var pc := s.controller.pc; pc.FinStatus1? || pc.FinStatus2? || pc.FinRemove?
    ensures KeepsObject(s, FinalizeStep(s, fate, conditions))
  {
    hide UpdateStatus, UpdateFinalizer, KeepsObject;
    match s.controller.pc
    case FinStatus1 =>
      StatusWriteKeepsObject(s, fate, conditions, FinUnbind(Discovery, s.controller.inst.status.record.discovery));
    case FinStatus2 => StatusWriteKeepsObject(s, fate, conditions, FinRemove);
    case FinRemove =>
      FinalizerWriteKeepsObject(s, fate, false, FinRemove);
      HaltKeepsObject(s, s);
      HaltKeepsObject(s, UpdateFinalizer(s, fate, false, FinRemove));
  }

  lemma HaltKeepsObject(s: System, t: System)
    requires s.WellFormed() && s.Server().Some? && (t == s || KeepsObject(s, t))
    ensures KeepsObject(s, Halt(t))
  {
  }

  lemma FinalizeDeleteKeepsObject(s: System, fate: Fate, conditions: nat)
    requires s.WellFormed() && s.controller.Busy? && s.Server().Some?
    requires var pc := s.controller.pc; !pc.FinStatus1? && !pc.FinStatus2? && !pc.FinRemove?
    ensures KeepsObject(s, FinalizeStep(s, fate, conditions))
  {
    hide UpdateStatus, UpdateFinalizer;
  }

  lemma MetricsKeepsObject(s: System, fate: Fate, answer: bool)
    requires s.WellFormed() && s.controller.Busy? && s.Server().Some?
    ensures KeepsObject(s, MetricsStep(s, fate, answer))
  {
    hide BeginFamily;
  }

  lemma FamilyKeepsObject(s: System, fate: Fate, answer: bool, conditions: nat)
    requires s.WellFormed() && s.controller.Busy? && s.Server().Some?
    ensures KeepsObject(s, FamilyStep(s, fate, answer, conditions))
  {
    if s.controller.pc.Persist? {
      PersistKeepsObject(s, fate, answer, conditions);
    } else {
      WorkKeepsHistory(s, fate, answer, conditions);
    }
  }

  /** Apart from the one status write, the work on a family leaves the object alone. */
  lemma WorkKeepsHistory(s: System, fate: Fate, answer: bool, conditions: nat)
    requires s.WellFormed() && s.controller.Busy? && !s.controller.pc.Persist?
    ensures
      var t := FamilyStep(s, fate, answer, conditions);
      t.history == s.history && t.cached == s.cached && t.own == s.own
  {
    hide Desired, Union, Removed, UpdateStatus, AfterFamily;
  }

  lemma PersistKeepsObject(s: System, fate: Fate, answer: bool, conditions: nat)
    requires s.WellFormed() && s.controller.Busy? && s.controller.pc.Persist? && s.Server().Some?
    ensures KeepsObject(s, FamilyStep(s, fate, answer, conditions))
  {
    hide Desired, Union;
  }

  lemma OuterKeepsObject(s: System, fate: Fate, answer: bool, conditions: nat)
    requires s.WellFormed() && s.controller.Busy? && s.Server().Some?
    ensures KeepsObject(s, OuterStep(s, fate, answer, conditions))
  {
    var pc := s.controller.pc;
    if pc.InitStatus? || pc.AddFinalizer? || pc.Finish? || pc.FailStatus? {
      OuterWriteKeepsObject(s, fate, answer, conditions);
    } else {
      OuterRestKeepsObject(s, fate, answer, conditions);
    }
  }

  lemma OuterWriteKeepsObject(s: System, fate: Fate, answer: bool, conditions: nat)
    requires s.WellFormed() && s.controller.Busy? && s.Server().Some?
    requires var pc := s.controller.pc; pc.InitStatus? || pc.AddFinalizer? || pc.Finish? || pc.FailStatus?
    ensures KeepsObject(s, OuterStep(s, fate, answer, conditions))
  {
    hide UpdateStatus, UpdateFinalizer, KeepsObject;
    match s.controller.pc
    case InitStatus => StatusWriteKeepsObject(s, fate, conditions, InitReread);
    case AddFinalizer => FinalizerWriteKeepsObject(s, fate, true, AfterFinalizer(s.controller.inst));
    case Finish =>
      StatusWriteKeepsObject(s, fate, conditions, Finish);
      HaltKeepsObject(s, UpdateStatus(s, fate, conditions, Finish, Halt(s)));
      GotoKeepsObject(s, FailStatus);
    case FailStatus =>
      StatusWriteKeepsObject(s, fate, conditions, FailStatus);
      HaltKeepsObject(s, UpdateStatus(s, fate, conditions, FailStatus, Halt(s)));
  }

  lemma GotoKeepsObject(s: System, pc: Pc)
    requires s.WellFormed() && s.controller.Busy? && s.Server().Some?
    ensures KeepsObject(s, Goto(s, pc))
  {
  }

  lemma OuterRestKeepsObject(s: System, fate: Fate, answer: bool, conditions: nat)
    requires s.WellFormed() && s.controller.Busy? && s.Server().Some?
    requires var pc := s.controller.pc; !pc.InitStatus? && !pc.AddFinalizer? && !pc.Finish? && !pc.FailStatus?
    ensures KeepsObject(s, OuterStep(s, fate, answer, conditions))
  {
    hide UpdateStatus, UpdateFinalizer;
  }

  lemma CallKeepsObject(s: System, fate: Fate, answer: bool, conditions: nat)
    requires s.WellFormed() && s.Server().Some?
    ensures KeepsObject(s, CallStep(s, fate, answer, conditions))
  {
    if s.controller.Idle? {
      assert CallStep(s, fate, answer, conditions) == s;
    } else {
      hide FinalizeStep, MetricsStep, FamilyStep, OuterStep, KeepsObject;
      FinalizeKeepsObject(s, fate, conditions);
      MetricsKeepsObject(s, fate, answer);
      FamilyKeepsObject(s, fate, answer, conditions);
      OuterKeepsObject(s, fate, answer, conditions);
    }
  }

  lemma CalmKeepsObject(s: System, answer: bool, conditions: nat)
    requires s.WellFormed() && s.Server().Some?
    ensures KeepsObject(s, Calm(s, answer, conditions))
  {
    CaughtUpIs(s);
    var c := CaughtUp(s);
    hide CallStep, CaughtUp;
    CallKeepsObject(c, Applied, answer, conditions);
  }

  lemma {:induction false} CalmRunKeepsObject(s: System, choices: seq<(bool, nat)>)
    requires Inv(s) && s.WellFormed() && s.Server().Some?
    ensures KeepsObject(s, CalmRun(s, choices))
    decreases |choices|
  {
    hide Inv, Calm;
    if choices != [] {
      CalmKeepsInv(s, choices[0].0, choices[0].1);
      CalmKeepsObject(s, choices[0].0, choices[0].1);
      CalmRunKeepsObject(Calm(s, choices[0].0, choices[0].1), choices[1..]);
    }
  }

  /** An undisturbed reconcile of a deleting Dashboard removes the finalizer. */
  lemma EndingReconcile(s: System, choices: seq<(bool, nat)>)
    requires Inv(s) && s.controller.Idle? && Deleting(s)
    requires |choices| >= 12 + RecordSize(s.Server().value)
    ensures
      && Inv(CalmStart(s))
      && var t := CalmRun(CalmStart(s), choices);
         t.WellFormed() && t.controller.Idle? && !t.HasFinalizer() && t.Clean()
  {
    StartsEnding(s);
    hide Inv, CalmStart, Ending, EndRank;
    EndingRun(CalmStart(s), choices);
  }

  /** From every reachable state in which a Dashboard is being deleted and no reconcile is
      running, whatever faults led to it, one undisturbed reconcile removes the finalizer,
      and leaves nothing behind. */
  lemma DeletionCompletes(own: Namespace, run: seq<Event>, choices: seq<(bool, nat)>)
    requires
      var s := Exec(own, run);
      s.WellFormed() && s.controller.Idle? && Deleting(s)
      && |choices| >= 12 + RecordSize(s.Server().value)
    ensures
      var s := Exec(own, run);
      && Inv(CalmStart(s))
      && var t := CalmRun(CalmStart(s), choices);
         t.WellFormed() && t.controller.Idle? && !t.HasFinalizer() && t.Clean()
  {
    RunKeepsInv(own, run);
    EndingReconcile(Exec(own, run), choices);
  }

  lemma DeletionIsAsked(own: Namespace, run: seq<Event>)
    requires var s := Exec(own, run); s.WellFormed() && s.HasFinalizer()
    ensures
      var s, r := Exec(own, run), Exec(own, run + [RequestDelete]);
      && r.WellFormed() && Deleting(r) && r.controller == s.controller
      && RecordSize(r.Server().value) == RecordSize(s.Server().value)
  {
    assert (run + [RequestDelete])[..|run|] == run;
  }

  /** A user who deletes the Dashboard gets rid of it, and of all that belongs to it: after
      the request one undisturbed reconcile, and the API server can drop the object. */
  lemma AskedToGoItGoes(own: Namespace, run: seq<Event>, choices: seq<(bool, nat)>)
    requires
      var s := Exec(own, run);
      s.WellFormed() && s.controller.Idle? && s.HasFinalizer()
      && |choices| >= 12 + RecordSize(s.Server().value)
    ensures
      var s := Exec(own, run + [RequestDelete]);
      && s.WellFormed() && Inv(CalmStart(s))
      && var t := CalmRun(CalmStart(s), choices);
         && t.WellFormed() && t.Clean()
         && Step(t, Vanish).WellFormed() && Step(t, Vanish).Server().None? && Step(t, Vanish).Clean()
  {
    DeletionIsAsked(own, run);
    var s := Exec(own, run + [RequestDelete]);
    DeletionCompletes(own, run + [RequestDelete], choices);
    InvIsWellFormed(CalmStart(s));
    StartKeepsServer(s);
    hide Inv, CalmStart, Exec, CalmRun, Step;
    CalmRunKeepsObject(CalmStart(s), choices);
    CanVanish(CalmRun(CalmStart(s), choices));
  }

  lemma CanVanish(t: System)
    requires t.WellFormed() && t.Server().Some? && t.Server().value.deleting && !t.HasFinalizer()
    ensures
      var u := Step(t, Vanish);
      u.WellFormed() && u.Server().None? && (u.Clean() <==> t.Clean())
  {
  }

  lemma StartKeepsServer(s: System)
    requires s.WellFormed()
    ensures CalmStart(s).WellFormed() && CalmStart(s).Server() == s.Server()
  {
    CaughtUpIs(s);
  }

  /** Nor does it matter where a running reconcile stands: from every reachable state of a
      Dashboard being deleted, enough undisturbed calls bring that reconcile to its end,
      and if the finalizer is still there then, the next one removes it. */
  lemma DeletionCompletesFromAnywhere(own: Namespace, run: seq<Event>, wanted: nat, recorded: nat,
                                      first: seq<(bool, nat)>, second: seq<(bool, nat)>)
    requires
      var s := Exec(own, run);
      && s.WellFormed() && Deleting(s)
      && (s.controller.Busy? ==>
            Bounded(s, wanted, recorded) && |first| >= CallsLeft(s, 10 + wanted + recorded))
    ensures
      var s := Exec(own, run);
      && Inv(s)
      && var u := CalmRun(s, first);
         && u.WellFormed() && Inv(u) && u.controller.Idle?
         && (!u.HasFinalizer() ==> u.Clean())
         && (u.HasFinalizer() ==>
               && Deleting(u) && Inv(CalmStart(u))
               && (|second| >= 12 + RecordSize(u.Server().value) ==>
                     var t := CalmRun(CalmStart(u), second);
                     t.WellFormed() && t.controller.Idle? && !t.HasFinalizer() && t.Clean()))
  {
    RunKeepsInv(own, run);
    var s := Exec(own, run);
    CalmRunEnds(s, first, wanted, recorded);
    CalmRunKeepsObject(s, first);
    var u := CalmRun(s, first);
    CleanOrFinalizer(u);
    hide Inv, CalmRun, CalmStart, CallsLeft, Bounded;
    if u.HasFinalizer() {
      StartsEnding(u);
      if |second| >= 12 + RecordSize(u.Server().value) {
        EndingReconcile(u, second);
      }
    }
  }

  lemma CleanOrFinalizer(s: System)
    requires Inv(s)
    ensures s.WellFormed() && (s.Clean() || s.HasFinalizer())
  {
  }

  lemma StartsEnding(s: System)
    requires Inv(s) && s.controller.Idle? && Deleting(s)
    ensures Inv(CalmStart(s)) && Ending(CalmStart(s))
    ensures EndRank(CalmStart(s)) <= 12 + RecordSize(s.Server().value)
  {
    StepKeepsInv(s, CacheAdvance(s.Latest()));
    StepKeepsInv(CaughtUp(s), Start);
    hide CacheSound, OnlyDeleting, Tracked, Recorded, FamilySound, FinalizeSound, Desired;
  }
}
