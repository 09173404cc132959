/** The two grant reconcilers as the code runs them: straight-line calls and loops
    over the in-memory Dashboard, against an API server that may fail any call.

    `GrantProtocol` shows that no interleaving loses track of a grant. This module
    shows what a reconcile achieves: from any recorded state, a reconcile in which
    no call fails leaves RoleBindings exactly where the spec wants them, and doing
    it again changes none. Whether the stored record is exact, too, depends on whether
    the reconcile gets to its closing status write. */
module GrantReconcile {
  import opened ApiCall
  import opened Ordering
  import opened GrantProtocol

  // ------------------------------------------------------------- the stored record

  /** What the server's record is when a pass over both families is done, before the
      closing status write: the last of the two families that wants something has stored
      its widened list, together with what the other one's list was in memory. */
  function StoredAfter(own: Namespace, spec: Spec, before: Per<seq<Namespace>>): Per<seq<Namespace>> {
    var d, m := Desired(own, spec, Discovery), Desired(own, spec, Monitor);
    if m != [] then Per(d, Union(before.monitor, m))
    else if d != [] then Per(Union(before.discovery, d), before.monitor)
    else before
  }

  function Wanted(own: Namespace, spec: Spec): Per<seq<Namespace>> {
    Per(Desired(own, spec, Discovery), Desired(own, spec, Monitor))
  }

  /** The closing write has nothing to take out of the stored record. */
  predicate NothingToNarrow(own: Namespace, spec: Spec, before: Per<seq<Namespace>>) {
    var wanted := Wanted(own, spec);
    && Elems(before.monitor) <= Elems(wanted.monitor)
    && (wanted.monitor == [] ==> Elems(before.discovery) <= Elems(wanted.discovery))
  }

  lemma UnionIsTheWider(previous: seq<Namespace>, desired: seq<Namespace>)
    requires StrictlySorted(desired)
    ensures Union(previous, desired) == desired <==> Elems(previous) <= Elems(desired)
  {
    var u := Union(previous, desired);
    assert forall ns :: ns in previous <==> ns in Elems(previous);
    assert forall ns :: ns in u <==> ns in Elems(u);
    if Elems(previous) <= Elems(desired) {
      assert Elems(u) == Elems(desired);
      StrictlySortedIsUnique(u, desired);
    }
  }

  lemma NoneMeansEmpty(list: seq<Namespace>)
    ensures Elems(list) <= {} <==> list == []
  {
    assert list != [] ==> list[0] in Elems(list);
  }

  /** So without the closing write the record is exact if and only if it had nothing to
      do. */
  lemma StoredIsExactIff(own: Namespace, spec: Spec, before: Per<seq<Namespace>>)
    ensures StoredAfter(own, spec, before) == Wanted(own, spec) <==> NothingToNarrow(own, spec, before)
  {
    var wanted := Wanted(own, spec);
    OwnIsNotDesired(own, spec, Discovery);
    OwnIsNotDesired(own, spec, Monitor);
    UnionIsTheWider(before.monitor, wanted.monitor);
    UnionIsTheWider(before.discovery, wanted.discovery);
    NoneMeansEmpty(before.monitor);
    NoneMeansEmpty(before.discovery);
    NoneMeansEmpty(wanted.monitor);
    hide Desired, Union, StrictlySorted, Elems;
    NoneMeansNone(wanted.monitor);
    NoneMeansNone(wanted.discovery);
  }

  lemma NoneMeansNone(list: seq<Namespace>)
    ensures list == [] ==> Elems(list) == {}
  {
  }

  class Reconciler {
    const own: Namespace
    const spec: Spec
    /** No API call fails. */
    const healthy: bool

    // the cluster
    var bindings: Per<set<Namespace>>
    var roles: Per<bool>
    var stored: Per<seq<Namespace>>

    // the in-memory Dashboard's status
    var record: Per<seq<Namespace>>

    /** How many calls changed the set of RoleBindings: nothing reads it, it is there to speak about. */
    var changes: nat

    constructor (own: Namespace, spec: Spec, healthy: bool, bindings: Per<set<Namespace>>, roles: Per<bool>,
                 record: Per<seq<Namespace>>)
      ensures this.own == own && this.spec == spec && this.healthy == healthy
      ensures this.bindings == bindings && this.roles == roles
      ensures this.stored == record && this.record == record && changes == 0
    {
      this.own, this.spec, this.healthy := own, spec, healthy;
      this.bindings, this.roles := bindings, roles;
      this.stored, this.record := record, record;
      changes := 0;
    }

    /** The fate of one API call. */
    method Fate() returns (fate: ApiCall.Fate)
      ensures healthy ==> fate == Applied
    {
      if healthy {
        fate := Applied;
      } else if * {
        fate := Applied;
      } else if * {
        fate := AppliedButFailed;
      } else {
        fate := Failed;
      }
    }

    method UpdateStatus() returns (ok: bool)
      modifies `stored
      ensures stored == record || stored == old(stored)
      ensures ok ==> stored == record
      ensures healthy ==> ok
    {
      var fate := Fate();
      if fate != Failed { stored := record; }
      ok := fate == Applied;
    }

    /** `reconcileDiscoveryRoleBinding` / `reconcileMonitorRoleBinding` */
    method EnsureBinding(f: Family, ns: Namespace) returns (ok: bool)
      modifies `bindings, `changes
      ensures || (bindings == old(bindings) && changes == old(changes))
              || (ns !in old(bindings).Of(f) && bindings == old(bindings).With(f, old(bindings).Of(f) + {ns}))
      ensures ok ==> ns in bindings.Of(f)
      ensures healthy ==> ok
    {
      var found := Fate();
      if found != Applied { return false; }
      if ns in bindings.Of(f) { return true; }
      var fate := Fate();
      if fate != Failed {
        bindings := bindings.With(f, bindings.Of(f) + {ns});
        changes := changes + 1;
      }
      ok := fate == Applied;
    }

    /** The create loop: on success every listed namespace holds a RoleBinding. */
    method EnsureBindings(f: Family, namespaces: seq<Namespace>) returns (ok: bool)
      modifies `bindings, `changes
      ensures bindings == old(bindings).With(f, bindings.Of(f))
      ensures forall ns :: ns in old(bindings).Of(f) ==> ns in bindings.Of(f)
      ensures forall ns :: ns in bindings.Of(f) ==> ns in old(bindings).Of(f) || ns in namespaces
      ensures ok ==> forall ns :: ns in namespaces ==> ns in bindings.Of(f)
      ensures old(bindings).Of(f) < bindings.Of(f) || (bindings == old(bindings) && changes == old(changes))
      ensures healthy ==> ok
    {
      for i := 0 to |namespaces|
        invariant bindings == old(bindings).With(f, bindings.Of(f))
        invariant forall ns :: ns in old(bindings).Of(f) ==> ns in bindings.Of(f)
        invariant forall ns :: ns in bindings.Of(f) ==> ns in old(bindings).Of(f) || ns in namespaces
        invariant forall j :: 0 <= j < i ==> namespaces[j] in bindings.Of(f)
        invariant old(bindings).Of(f) < bindings.Of(f) || (bindings == old(bindings) && changes == old(changes))
      {
        ok := EnsureBinding(f, namespaces[i]);
        if !ok { return; }
      }
      ok := true;
    }

    /** `deleteDiscoveryRoleBindings` / `deleteMonitorRoleBindings`: on success none
        of the namespaces holds a RoleBinding; on failure some may be gone. */
    method DeleteBindings(f: Family, namespaces: seq<Namespace>) returns (ok: bool)
      modifies `bindings, `changes
      ensures bindings == old(bindings).With(f, bindings.Of(f))
      ensures forall ns :: ns in bindings.Of(f) ==> ns in old(bindings).Of(f)
      ensures forall ns :: ns in old(bindings).Of(f) && ns !in namespaces ==> ns in bindings.Of(f)
      ensures ok ==> forall ns :: ns in namespaces ==> ns !in bindings.Of(f)
      ensures bindings == old(bindings) ==> changes == old(changes)
      ensures healthy ==> ok
    {
      for i := 0 to |namespaces|
        invariant bindings == old(bindings).With(f, bindings.Of(f))
        invariant forall ns :: ns in bindings.Of(f) ==> ns in old(bindings).Of(f)
        invariant forall ns :: ns in old(bindings).Of(f) && ns !in namespaces ==> ns in bindings.Of(f)
        invariant forall j :: 0 <= j < i ==> namespaces[j] !in bindings.Of(f)
        invariant bindings == old(bindings) ==> changes == old(changes)
      {
        var fate := Fate();
        if fate != Failed && namespaces[i] in bindings.Of(f) {
          bindings := bindings.With(f, bindings.Of(f) - {namespaces[i]});
          changes := changes + 1;
        }
        if fate != Applied { return false; }
      }
      ok := true;
    }

    method SetRole(f: Family, present: bool) returns (ok: bool)
      modifies `roles
      ensures roles == old(roles) || roles == old(roles).With(f, present)
      ensures ok ==> roles.Of(f) == present
      ensures healthy ==> ok
    {
      var fate := Fate();
      if fate != Failed { roles := roles.With(f, present); }
      ok := fate == Applied;
    }

    /** The namespaces to drop, collected the way the code does. */
    method CollectRemoved(previous: seq<Namespace>, desired: seq<Namespace>) returns (removed: seq<Namespace>)
      ensures forall ns :: ns in removed <==> ns in previous && ns !in desired
    {
      removed := [];
      for i := 0 to |previous|
        invariant forall ns :: ns in removed <==> ns in previous[..i] && ns !in desired
      {
        assert previous[..i + 1] == previous[..i] + [previous[i]];
        if previous[i] !in desired { removed := removed + [previous[i]]; }
      }
      assert previous[..|previous|] == previous;
    }

    /** Both records cover every grant there is. */
    ghost predicate Covered()
      reads this
    {
      Recorded(bindings, stored) && Recorded(bindings, record)
    }

    ghost predicate Settled(f: Family)
      reads this
    {
      && bindings.Of(f) == Elems(Desired(own, spec, f))
      && record.Of(f) == Desired(own, spec, f)
      && (roles.Of(f) <==> Desired(own, spec, f) != [])
    }

    /** `reconcileDiscoveryRBAC` / `reconcileMonitorRBAC`.

        Whatever fails, the stored and the in-memory record go on covering every
        grant of both families, although the one status write stores both lists.
        On success the family's grants are exactly the wanted ones, its in-memory
        record is exactly the wanted list, and its ClusterRole exists exactly when
        something is wanted. A family whose grants were right is not touched. */
    method ReconcileFamily(f: Family) returns (ok: bool)
      requires Covered() && record.Of(f) == stored.Of(f)
      modifies this
      ensures Covered()
      ensures bindings == old(bindings).With(f, bindings.Of(f))
      ensures roles == old(roles).With(f, roles.Of(f))
      ensures record == old(record).With(f, record.Of(f))
      ensures stored == old(stored) || stored == old(record).With(f, Union(old(record).Of(f), Desired(own, spec, f)))
      ensures ok ==> Settled(f)
      ensures Desired(own, spec, f) == [] ==> stored == old(stored)
      ensures ok && Desired(own, spec, f) != [] ==>
        stored == old(record).With(f, Union(old(record).Of(f), Desired(own, spec, f)))
      ensures ok && old(bindings).Of(f) == Elems(Desired(own, spec, f)) ==> changes == old(changes)
      ensures healthy ==> ok
    {
      var desired := Desired(own, spec, f);
      var previous := record.Of(f);
      if |desired| == 0 {
        ok := DeleteBindings(f, previous);
        if !ok { return; }
        record := record.With(f, []);
        ok := SetRole(f, false);
        return;
      }
      ok := SetRole(f, true);
      if !ok { return; }
      record := record.With(f, Union(previous, desired));
      ok := UpdateStatus();
      if !ok { return; }

      ok := EnsureBindings(f, desired);
      if !ok { return; }
      assert old(bindings).Of(f) == Elems(desired) ==> bindings.Of(f) == old(bindings).Of(f);
      var removed := CollectRemoved(previous, desired);
      ghost var bound := bindings.Of(f);
      ok := DeleteBindings(f, removed);
      if !ok { return; }
      assert bound == Elems(desired) ==> bindings.Of(f) == bound;
      record := record.With(f, desired);
    }

    /** A reconcile, as far as grants and records go: it reads the stored record, runs
        `reconcileAllDashboardRBAC`, and, unless the Deployment has to be created or
        updated (`drift`), comes to a closing status write. On success the grants are
        exactly the wanted ones, with or without that write, and unchanged if they were
        right; the stored record is exact with it, and what the pass left without it. */
    method ReconcileGrants(drift: bool) returns (ok: bool)
      requires Recorded(bindings, stored)
      modifies this
      ensures Covered()
      ensures ok ==> Settled(Discovery) && Settled(Monitor) && record == Wanted(own, spec)
      ensures ok ==> stored == if drift then StoredAfter(own, spec, old(stored)) else Wanted(own, spec)
      ensures ok && old(bindings.discovery) == Elems(Desired(own, spec, Discovery))
              && old(bindings.monitor) == Elems(Desired(own, spec, Monitor))
              ==> changes == old(changes)
      ensures healthy ==> ok
    {
      hide Desired, Union, Recorded, Elems;
      record := stored;
      ok := ReconcileFamily(Discovery);
      if !ok { return; }
      ok := ReconcileFamily(Monitor);
      if !ok { return; }
      if drift { return; }
      ok := UpdateStatus();
    }
  }

  /** From any recorded state, a reconcile without failures leaves the RoleBindings of both
      families exactly where the spec wants them, whether or not it has to touch the
      Deployment; the next one changes no RoleBinding and makes the stored record exact. */
  method ReconcileTwice(own: Namespace, spec: Spec, bindings: Per<set<Namespace>>, roles: Per<bool>,
                        stored: Per<seq<Namespace>>, drift: bool)
    returns (first: Per<set<Namespace>>, storedFirst: Per<seq<Namespace>>, second: Per<set<Namespace>>,
             changes: nat, storedSecond: Per<seq<Namespace>>, roleSet: Per<bool>)
    requires Recorded(bindings, stored)
    ensures first == Per(Elems(Wanted(own, spec).discovery), Elems(Wanted(own, spec).monitor))
    ensures own !in first.discovery && own !in first.monitor
    ensures storedFirst == Wanted(own, spec) <==> !drift || NothingToNarrow(own, spec, stored)
    ensures Recorded(first, storedFirst)
    ensures second == first && changes == 0 && storedSecond == Wanted(own, spec)
    ensures roleSet == Per(Wanted(own, spec).discovery != [], Wanted(own, spec).monitor != [])
  {
    var r := new Reconciler(own, spec, true, bindings, roles, stored);
    var ok := r.ReconcileGrants(drift);
    first, storedFirst := r.bindings, r.stored;
    var before := r.changes;
    ok := r.ReconcileGrants(false);
    second, changes, storedSecond, roleSet := r.bindings, r.changes - before, r.stored, r.roles;
    StoredIsExactIff(own, spec, stored);
    OwnIsNotDesired(own, spec, Discovery);
    OwnIsNotDesired(own, spec, Monitor);
  }

  /** The desired list is the sorted, duplicate-free form of the spec's list without the own namespace. */
  lemma OwnIsNotDesired(own: Namespace, spec: Spec, f: Family)
    ensures own !in Elems(Desired(own, spec, f))
    ensures StrictlySorted(Desired(own, spec, f))
    ensures f.Monitor? || spec.discoveryEnabled ==>
              var list := if f.Monitor? then spec.monitorNamespaces else spec.discoveryNamespaces;
              Elems(Desired(own, spec, f)) == Elems(list) - {own}
    ensures f.Discovery? && !spec.discoveryEnabled ==> Desired(own, spec, f) == []
  {
    var list := if f.Monitor? then spec.monitorNamespaces else spec.discoveryNamespaces;
    assert forall ns :: ns in Elems(Without(own, list)) <==> ns in Without(own, list);
  }
}
