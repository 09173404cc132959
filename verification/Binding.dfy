/** Which Dashboard a config object (ServiceCard, Bookmark, InfoWidget) belongs to.

    Three places answer that question separately: `BoundTo`, which the dashboard
    pod and the counts use; the Available condition, which the config controllers
    write; and the bound counts in a Dashboard's status. Here they are shown to
    give one answer. */
module Binding {
  import opened Ordering

  /** `RefName`: the empty string stands for an unset dashboardRef. */
  function RefName(ref: Option<string>): string {
    if ref.Some? then ref.value else ""
  }

  predicate BoundTo(refName: string, dashboard: string, dashboards: nat) {
    if refName != "" then refName == dashboard else dashboards == 1
  }

  /** An object is a Dashboard's if it names it, or if it names none and there is no other
      Dashboard. */
  ghost predicate Claims(ref: Option<string>, dashboard: string, dashboards: nat) {
    || (ref.Some? && ref.value != "" && ref.value == dashboard)
    || ((ref.None? || ref.value == "") && dashboards == 1)
  }

  lemma BoundToIsClaims(ref: Option<string>, dashboard: string, dashboards: nat)
    ensures BoundTo(RefName(ref), dashboard, dashboards) <==> Claims(ref, dashboard, dashboards)
    ensures ref.Some? ==> (BoundTo(ref.value, dashboard, dashboards) <==> Claims(ref, dashboard, dashboards))
  {
  }

  datatype Reason = Bound | DashboardNotFound | AmbiguousDashboardRef | InvalidWidgetConfig

  datatype Condition = Condition(available: bool, reason: Reason)

  /** `boundDashboardCondition`, on the Dashboards of the object's namespace. */
  function BoundDashboardCondition(dashboards: set<string>, refName: string): Condition {
    if refName != "" then
      if refName in dashboards then Condition(true, Bound) else Condition(false, DashboardNotFound)
    else if |dashboards| == 0 then Condition(false, DashboardNotFound)
    else if |dashboards| == 1 then Condition(true, Bound)
    else Condition(false, AmbiguousDashboardRef)
  }

  ghost predicate BoundToSome(dashboards: set<string>, refName: string) {
    exists d :: d in dashboards && BoundTo(refName, d, |dashboards|)
  }

  lemma SoleMember(s: set<string>, a: string, b: string)
    requires |s| == 1 && a in s && b in s
    ensures a == b
  {
    assert |s - {a}| == 0;
    assert b !in s - {a};
  }

  /** No object belongs to two existing Dashboards. */
  lemma BoundToAtMostOne(dashboards: set<string>, refName: string, d: string, d': string)
    requires d in dashboards && d' in dashboards
    requires BoundTo(refName, d, |dashboards|) && BoundTo(refName, d', |dashboards|)
    ensures d == d'
  {
    if refName == "" {
      SoleMember(dashboards, d, d');
    }
  }

  /** The controller's verdict is True exactly when some existing Dashboard would
      render the object; and it blames ambiguity exactly when the reference is
      unset and there is a choice. */
  lemma ConditionAgreesWithBoundTo(dashboards: set<string>, refName: string)
    ensures BoundDashboardCondition(dashboards, refName).available <==> BoundToSome(dashboards, refName)
    ensures BoundDashboardCondition(dashboards, refName).reason == AmbiguousDashboardRef <==>
              refName == "" && exists d, d' :: d in dashboards && d' in dashboards && d != d'
  {
    if refName == "" && dashboards != {} {
      var d :| d in dashboards;
      if |dashboards| == 1 {
        assert BoundTo(refName, d, |dashboards|);
        forall a, b | a in dashboards && b in dashboards ensures a == b {
          SoleMember(dashboards, a, b);
        }
      } else {
        assert |dashboards - {d}| > 0;
        var d' :| d' in dashboards - {d};
      }
    } else if refName in dashboards {
      assert BoundTo(refName, refName, |dashboards|);
    }
  }

  /** Each reason has its own case: the object is somebody's; it names a Dashboard that
      does not exist, or none and there is none; it names none and there is a choice. */
  lemma ReasonsAre(dashboards: set<string>, refName: string)
    ensures
      var c := BoundDashboardCondition(dashboards, refName);
      && (c.reason == Bound <==> exists d :: d in dashboards && Claims(Some(refName), d, |dashboards|))
      && (c.reason == DashboardNotFound <==>
            (refName != "" && refName !in dashboards) || (refName == "" && dashboards == {}))
      && (c.reason == AmbiguousDashboardRef <==>
            refName == "" && exists d, d' :: d in dashboards && d' in dashboards && d != d')
      && c.reason != InvalidWidgetConfig
      && (c.available <==> c.reason == Bound)
  {
    ConditionAgreesWithBoundTo(dashboards, refName);
    forall d ensures BoundTo(refName, d, |dashboards|) <==> Claims(Some(refName), d, |dashboards|) {
      BoundToIsClaims(Some(refName), d, |dashboards|);
    }
    assert refName == "" && dashboards != {} ==> |dashboards| > 0;
  }

  // ------------------------------------------------------------ bound counts

  /** How many of the references belong to the Dashboard. */
  function BoundCount(refs: seq<string>, dashboard: string, dashboards: nat): nat {
    if refs == [] then 0
    else (if BoundTo(refs[0], dashboard, dashboards) then 1 else 0) + BoundCount(refs[1..], dashboard, dashboards)
  }

  /** Which of the references belong to the Dashboard. */
  ghost function Claiming(refs: seq<string>, dashboard: string, dashboards: nat): set<nat> {
    set i: nat | i < |refs| && Claims(Some(refs[i]), dashboard, dashboards)
  }

  lemma {:induction false} BoundCountIsClaims(refs: seq<string>, dashboard: string, dashboards: nat)
    ensures BoundCount(refs, dashboard, dashboards) == |Claiming(refs, dashboard, dashboards)|
    decreases |refs|
  {
    if refs != [] {
      var n := |refs| - 1;
      var before, last := refs[..n], refs[n];
      BoundCountIsClaims(before, dashboard, dashboards);
      BoundCountAppend(before, last, dashboard, dashboards);
      assert refs == before + [last];
      BoundToIsClaims(Some(last), dashboard, dashboards);
      hide BoundTo, Claims, BoundCount;
      if Claims(Some(last), dashboard, dashboards) {
        assert Claiming(refs, dashboard, dashboards) == Claiming(before, dashboard, dashboards) + {n};
      } else {
        assert Claiming(refs, dashboard, dashboards) == Claiming(before, dashboard, dashboards);
      }
    }
  }

  lemma {:induction false} BoundCountAppend(refs: seq<string>, ref: string, dashboard: string, dashboards: nat)
    ensures BoundCount(refs + [ref], dashboard, dashboards)
            == BoundCount(refs, dashboard, dashboards) + if BoundTo(ref, dashboard, dashboards) then 1 else 0
  {
    if refs == [] {
      assert [] + [ref] == [ref];
    } else {
      assert (refs + [ref])[1..] == refs[1..] + [ref];
      BoundCountAppend(refs[1..], ref, dashboard, dashboards);
    }
  }

  /** One of the counting loops of `boundCountsForDashboard`. */
  method CountBound(refs: seq<string>, dashboard: string, dashboards: nat) returns (count: nat)
    ensures count == BoundCount(refs, dashboard, dashboards) == |Claiming(refs, dashboard, dashboards)|
  {
    BoundCountIsClaims(refs, dashboard, dashboards);
    count := 0;
    for i := 0 to |refs|
      invariant count == BoundCount(refs[..i], dashboard, dashboards)
    {
      assert refs[..i + 1] == refs[..i] + [refs[i]];
      BoundCountAppend(refs[..i], refs[i], dashboard, dashboards);
      if BoundTo(refs[i], dashboard, dashboards) {
        count := count + 1;
      }
    }
    assert refs[..|refs|] == refs;
  }

  /** The counts of all Dashboards of a namespace, added up. */
  function TotalCount(refs: seq<string>, dashboards: seq<string>, size: nat): nat {
    if dashboards == [] then 0
    else BoundCount(refs, dashboards[0], size) + TotalCount(refs, dashboards[1..], size)
  }

  /** How many of the references have a True verdict. */
  function TrueVerdicts(refs: seq<string>, dashboards: set<string>): nat {
    if refs == [] then 0
    else (if BoundDashboardCondition(dashboards, refs[0]).available then 1 else 0) + TrueVerdicts(refs[1..], dashboards)
  }

  ghost predicate Distinct(s: seq<string>) {
    forall i, j :: 0 <= i < j < |s| ==> s[i] != s[j]
  }

  lemma {:induction false} DistinctSize(s: seq<string>)
    requires Distinct(s)
    ensures |Elems(s)| == |s|
  {
    if s == [] {
      assert Elems(s) == {};
    } else {
      DistinctSize(s[1..]);
      assert Elems(s) == {s[0]} + Elems(s[1..]);
    }
  }

  /** How many Dashboards a single reference belongs to. */
  function Owners(ref: string, dashboards: seq<string>, size: nat): nat {
    if dashboards == [] then 0
    else (if BoundTo(ref, dashboards[0], size) then 1 else 0) + Owners(ref, dashboards[1..], size)
  }

  lemma {:induction false} TotalCountHead(refs: seq<string>, dashboards: seq<string>, size: nat)
    requires refs != []
    ensures TotalCount(refs, dashboards, size) == Owners(refs[0], dashboards, size)
      + TotalCount(refs[1..], dashboards, size)
  {
    if dashboards != [] {
      TotalCountHead(refs, dashboards[1..], size);
    }
  }

  lemma {:induction false} NamedOwners(ref: string, dashboards: seq<string>, size: nat)
    requires Distinct(dashboards) && ref != ""
    ensures Owners(ref, dashboards, size) == if ref in dashboards then 1 else 0
  {
    if dashboards != [] {
      NamedOwners(ref, dashboards[1..], size);
      assert ref in dashboards <==> ref == dashboards[0] || ref in dashboards[1..];
    }
  }

  lemma {:induction false} UnsetOwners(dashboards: seq<string>, size: nat)
    ensures Owners("", dashboards, size) == if size == 1 then |dashboards| else 0
  {
    if dashboards != [] {
      UnsetOwners(dashboards[1..], size);
    }
  }

  lemma {:induction false} NoRefsNoCount(dashboards: seq<string>, size: nat)
    ensures TotalCount([], dashboards, size) == 0
  {
    if dashboards != [] {
      NoRefsNoCount(dashboards[1..], size);
    }
  }

  /** Nothing is counted twice and nothing with a True verdict is missed: the bound
      counts of a namespace's Dashboards add up to the number of True verdicts. */
  lemma {:induction false} CountsAddUpToTrueVerdicts(refs: seq<string>, dashboards: seq<string>)
    requires Distinct(dashboards)
    ensures TotalCount(refs, dashboards, |dashboards|) == TrueVerdicts(refs, Elems(dashboards))
  {
    DistinctSize(dashboards);
    if refs == [] {
      NoRefsNoCount(dashboards, |dashboards|);
    } else {
      TotalCountHead(refs, dashboards, |dashboards|);
      CountsAddUpToTrueVerdicts(refs[1..], dashboards);
      if refs[0] == "" {
        UnsetOwners(dashboards, |dashboards|);
      } else {
        NamedOwners(refs[0], dashboards, |dashboards|);
      }
    }
  }
}
