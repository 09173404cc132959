/** What the poller remembers from one cycle to the next: when each widget with an
    interval of its own was last polled, which intervals it has complained about, and
    which metric series it has exported. */
module PollerState {
  import opened Ordering
  import opened Text

  // -------------------------------------------------- poll intervals (duePoll)

  /** Durations and clock readings count nanoseconds; the clock is monotonic. */
  const SECOND: int := 1_000_000_000

  datatype Memory = Memory(lastPolled: map<string, int>, warned: set<string>)

  /** No override, or a non-positive one, means "every cycle". */
  predicate Tracked(override: Option<int>) {
    override.Some? && override.value > 0
  }

  function Max(a: int, b: int): int { if a < b then b else a }

  /** The time two polls of a tracked widget are kept apart. */
  function Spacing(seconds: int, interval: int): int {
    Max(seconds * SECOND, interval)
  }

  /** The verdict, given the reading `since` that the elapsed time is computed from. */
  predicate IsDue(m: Memory, interval: int, key: string, override: Option<int>, since: int) {
    || !Tracked(override)
    || key !in m.lastPolled
    || since - m.lastPolled[key] >= Spacing(override.value, interval)
  }

  predicate Complains(m: Memory, interval: int, key: string, override: Option<int>) {
    Tracked(override) && override.value * SECOND < interval && key !in m.warned
  }

  /** The memory after the call; `now` is the second reading, taken to be recorded. */
  function Remember(m: Memory, interval: int, key: string, override: Option<int>, since: int, now: int): Memory {
    Memory(
      if Tracked(override) && IsDue(m, interval, key, override, since) then m.lastPolled[key := now] else m.lastPolled,
      if Complains(m, interval, key, override) then m.warned + {key} else m.warned)
  }

  function Forget(m: Memory, keep: set<string>): Memory {
    Memory(map k | k in m.lastPolled && k in keep :: m.lastPolled[k], m.warned * keep)
  }

  // ------------------------------------------- metric series (monitorLabels)

  type Series = (string, string)

  const SEPARATOR: char := '\U{1F}'

  function MonitorLabelKey(service: string, source: string): string {
    service + [SEPARATOR] + source
  }

  function SplitMonitorLabelKey(key: string): Series {
    Cut(key, SEPARATOR)
  }

  /** The key reads back exactly when the label has no unit separator. */
  lemma LabelKeyReadsBack(service: string, source: string)
    ensures SplitMonitorLabelKey(MonitorLabelKey(service, source)) == (service, source) <==> SEPARATOR !in service
  {
    CutUndoesGlue(service, source, SEPARATOR);
  }

  function Keys(series: set<Series>): set<string> {
    set p | p in series :: MonitorLabelKey(p.0, p.1)
  }

  function Stale(previous: set<string>, current: set<string>): set<Series> {
    set k | k in previous - current :: SplitMonitorLabelKey(k)
  }

  /** The two sources are the fixed words "http" and "pods". */
  ghost predicate PlainSources(series: set<Series>) {
    forall p :: p in series ==> SEPARATOR !in p.1
  }

  lemma LastSeparator(p: Series)
    requires SEPARATOR !in p.1
    ensures MonitorLabelKey(p.0, p.1)[|p.0|] == SEPARATOR
    ensures forall x :: |p.0| < x < |MonitorLabelKey(p.0, p.1)| ==> MonitorLabelKey(p.0, p.1)[x] != SEPARATOR
  {
  }

  lemma KeyIsInjective(p: Series, q: Series)
    requires SEPARATOR !in p.1 && SEPARATOR !in q.1
    requires MonitorLabelKey(p.0, p.1) == MonitorLabelKey(q.0, q.1)
    ensures p == q
  {
    LastSeparator(p);
    LastSeparator(q);
    var k, i, j := MonitorLabelKey(p.0, p.1), |p.0|, |q.0|;
    assert p.0 == k[..i] && p.1 == k[i + 1..];
    assert q.0 == k[..j] && q.1 == k[j + 1..];
  }

  /** Of the series recorded in the previous cycle and not in this one, pruning
      unexports exactly those whose label has no separator. It never unexports a
      series recorded in this cycle. */
  lemma StaleIsDropped(previous: set<Series>, current: set<Series>, p: Series)
    requires PlainSources(previous) && PlainSources(current)
    ensures p in Stale(Keys(previous), Keys(current)) && SEPARATOR !in p.1 <==>
      p in previous && p !in current && SEPARATOR !in p.0
  {
    var key := MonitorLabelKey(p.0, p.1);
    LabelKeyReadsBack(p.0, p.1);
    if p in previous && p !in current {
      assert key in Keys(previous);
      if key in Keys(current) {
        var q :| q in current && MonitorLabelKey(q.0, q.1) == key;
        KeyIsInjective(p, q);
      }
    }
    if p in Stale(Keys(previous), Keys(current)) && SEPARATOR !in p.1 {
      var k :| k in Keys(previous) - Keys(current) && SplitMonitorLabelKey(k) == p;
      var q :| q in previous && MonitorLabelKey(q.0, q.1) == k;
      assert q !in current;
      assert SEPARATOR in k by { assert k[|q.0|] == SEPARATOR; }
      assert k == p.0 + [SEPARATOR] + p.1;
      KeyIsInjective(p, q);
    }
  }

  /** An entry called "a", unit separator, "b": when its monitor goes away, the prune
      unexports a series that does not exist, and the entry's own stays. */
  lemma SeparatorWitness()
    ensures
      var p: Series := ("home/media/a" + [SEPARATOR] + "b", "http");
      && Stale(Keys({p}), Keys({})) == {("home/media/a", "b" + [SEPARATOR] + "http")}
      && p !in Stale(Keys({p}), Keys({}))
  {
    var p: Series := ("home/media/a" + [SEPARATOR] + "b", "http");
    var service, source := "home/media/a", "b" + [SEPARATOR] + "http";
    assert MonitorLabelKey(p.0, p.1) == MonitorLabelKey(service, source);
    LabelKeyReadsBack(service, source);
    assert Keys({p}) - Keys({}) == {MonitorLabelKey(p.0, p.1)};
    assert SEPARATOR in p.0 by { assert p.0[12] == SEPARATOR; }
  }

  // ------------------------------------------------------------------ the poller

  class Poller {
    const interval: int
    var widgetLastPolled: map<string, int>
    var clampWarned: set<string>
    var monitorLabels: set<string>
    var exported: set<Series>

    constructor (interval: int)
      ensures this.interval == interval
      ensures State() == Memory(map[], {}) && monitorLabels == {} && exported == {}
    {
      this.interval := interval;
      widgetLastPolled, clampWarned, monitorLabels, exported := map[], {}, {}, {};
    }

    function State(): Memory
      reads this
    {
      Memory(widgetLastPolled, clampWarned)
    }

    /** `since` and `now` are the two clock readings of a call that gets that far;
        `logged` says whether it logs that the override is too short. */
    method DuePoll(key: string, override: Option<int>, since: int, now: int) returns (due: bool, logged: bool)
      modifies this
      ensures due == IsDue(old(State()), interval, key, override, since)
      ensures logged == Complains(old(State()), interval, key, override)
      ensures State() == Remember(old(State()), interval, key, override, since, now)
      ensures monitorLabels == old(monitorLabels) && exported == old(exported)
    {
      logged := false;
      if override.None? || override.value <= 0 {
        return true, logged;
      }
      var requested := override.value * SECOND;
      var spacing := Max(requested, interval);
      if requested < interval && key !in clampWarned {
        logged := true;
        clampWarned := clampWarned + {key};
      }
      if key in widgetLastPolled && since - widgetLastPolled[key] < spacing {
        return false, logged;
      }
      widgetLastPolled := widgetLastPolled[key := now];
      due := true;
    }

    method PruneWidgetLastPolled(keep: set<string>)
      modifies this
      ensures State() == Forget(old(State()), keep)
      ensures monitorLabels == old(monitorLabels) && exported == old(exported)
    {
      var todo := widgetLastPolled.Keys;
      while todo != {}
        invariant todo <= old(widgetLastPolled).Keys
        invariant widgetLastPolled
               == map k | k in old(widgetLastPolled) && (k in todo || k in keep) :: old(widgetLastPolled)[k]
        invariant clampWarned == old(clampWarned)
        invariant monitorLabels == old(monitorLabels) && exported == old(exported)
        decreases todo
      {
        var k :| k in todo;
        todo := todo - {k};
        if k !in keep {
          widgetLastPolled := widgetLastPolled - {k};
        }
      }
      todo := clampWarned;
      while todo != {}
        invariant todo <= old(clampWarned)
        invariant clampWarned == set k | k in old(clampWarned) && (k in todo || k in keep)
        invariant widgetLastPolled == map k | k in old(widgetLastPolled) && k in keep :: old(widgetLastPolled)[k]
        invariant monitorLabels == old(monitorLabels) && exported == old(exported)
        decreases todo
      {
        var k :| k in todo;
        todo := todo - {k};
        if k !in keep {
          clampWarned := clampWarned - {k};
        }
      }
    }

    /** Setting a gauge creates its series. */
    method Export(service: string, source: string)
      modifies this
      ensures exported == old(exported) + {(service, source)}
      ensures State() == old(State()) && monitorLabels == old(monitorLabels)
    {
      exported := exported + {(service, source)};
    }

    method PruneMonitorMetrics(current: set<string>)
      modifies this
      ensures monitorLabels == current
      ensures exported == old(exported) - Stale(old(monitorLabels), current)
      ensures State() == old(State())
    {
      var todo := monitorLabels;
      while todo != {}
        invariant todo <= old(monitorLabels)
        invariant exported == old(exported) - Stale(old(monitorLabels) - todo, current)
        invariant State() == old(State()) && monitorLabels == old(monitorLabels)
        decreases todo
      {
        var k :| k in todo;
        assert old(monitorLabels) - (todo - {k}) == (old(monitorLabels) - todo) + {k};
        StaleOneMore(old(monitorLabels) - todo, current, k);
        todo := todo - {k};
        if k !in current {
          exported := exported - {SplitMonitorLabelKey(k)};
        }
      }
      assert old(monitorLabels) - todo == old(monitorLabels);
      monitorLabels := current;
    }
  }

  /** The metrics of a whole cycle: each series is exported and recorded, in any order, and
      then the ones of the cycle before are pruned. */
  method ReportAndPrune(p: Poller, series: seq<Series>)
    modifies p
    ensures p.monitorLabels == Keys(Elems(series))
    ensures p.exported == (old(p.exported) + Elems(series)) - Stale(old(p.monitorLabels), Keys(Elems(series)))
    ensures p.State() == old(p.State())
  {
    var current: set<string> := {};
    for i := 0 to |series|
      invariant current == Keys(Elems(series[..i])) && p.exported == old(p.exported) + Elems(series[..i])
      invariant p.State() == old(p.State()) && p.monitorLabels == old(p.monitorLabels)
    {
      var (service, source) := series[i];
      assert Elems(series[..i + 1]) == Elems(series[..i]) + {series[i]};
      p.Export(service, source);
      current := current + {MonitorLabelKey(service, source)};
    }
    assert series[..|series|] == series;
    p.PruneMonitorMetrics(current);
  }

  lemma StaleOneMore(previous: set<string>, current: set<string>, k: string)
    ensures Stale(previous + {k}, current)
         == Stale(previous, current) + (if k in current then {} else {SplitMonitorLabelKey(k)})
  {
    assert (previous + {k}) - current == (previous - current) + (if k in current then {} else {k});
  }

  // ------------------------------------------------- every run of duePoll calls

  datatype Call =
    | Ask(key: string, override: Option<int>, since: int, now: int)
    | Prune(keep: set<string>)

  function Step(m: Memory, interval: int, e: Call): Memory {
    match e
    case Ask(key, override, since, now) => Remember(m, interval, key, override, since, now)
    case Prune(keep) => Forget(m, keep)
  }

  function After(m: Memory, interval: int, events: seq<Call>): Memory {
    if events == [] then m
    else Step(After(m, interval, events[..|events| - 1]), interval, events[|events| - 1])
  }

  ghost predicate Asks(events: seq<Call>, i: int, key: string) {
    0 <= i < |events| && events[i].Ask? && events[i].key == key
  }

  /** Call number `i` asks about `key` and is told to poll. */
  ghost predicate Accepted(m: Memory, interval: int, events: seq<Call>, i: int, key: string) {
    && Asks(events, i, key)
    && IsDue(After(m, interval, events[..i]), interval, key, events[i].override, events[i].since)
  }

  ghost predicate Logged(m: Memory, interval: int, events: seq<Call>, i: int, key: string) {
    && Asks(events, i, key)
    && Complains(After(m, interval, events[..i]), interval, key, events[i].override)
  }

  /** Every call about `key` passes the same positive override, every prune keeps the key. */
  ghost predicate Steady(events: seq<Call>, key: string, seconds: int) {
    && seconds > 0
    && (forall i :: Asks(events, i, key) ==> events[i].override == Some(seconds))
    && forall i :: 0 <= i < |events| && events[i].Prune? ==> key in events[i].keep
  }

  /** Calls hold the lock, so their clock readings come one after the other. */
  ghost predicate ClockRuns(events: seq<Call>) {
    && (forall i :: 0 <= i < |events| && events[i].Ask? ==> events[i].since <= events[i].now)
    && forall i, j :: 0 <= i < j < |events| && events[i].Ask? && events[j].Ask? ==> events[i].now <= events[j].since
  }

  /** `i` is the last accepted call about `key` among the first `n`; -1 if there is none. */
  ghost predicate LastAccepted(m: Memory, interval: int, events: seq<Call>, n: nat, key: string, i: int) {
    && -1 <= i < n
    && (i >= 0 ==> Accepted(m, interval, events, i, key))
    && forall j :: i < j < n ==> !Accepted(m, interval, events, j, key)
  }

  lemma {:induction false} RememberedTime(m: Memory, interval: int, events: seq<Call>, n: nat,
                                          key: string, seconds: int, i: int)
    requires n <= |events| && Steady(events, key, seconds)
    requires LastAccepted(m, interval, events, n, key, i)
    ensures
      var last := After(m, interval, events[..n]).lastPolled;
      if i >= 0 then key in last && last[key] == events[i].now
      else (key in last <==> key in m.lastPolled) && (key in last ==> last[key] == m.lastPolled[key])
  {
    if n > 0 {
      assert events[..n][..n - 1] == events[..n - 1];
      assert i == n - 1 ==> Asks(events, i, key);
      if i < n - 1 {
        RememberedTime(m, interval, events, n - 1, key, seconds, i);
        assert !Accepted(m, interval, events, n - 1, key);
      }
    }
  }

  /** A call about a kept key is told to poll exactly when it is the first ever, or the
      override and the poll interval have both gone by since the last poll. */
  lemma AcceptedExactlyAtDeadline(m: Memory, interval: int, events: seq<Call>, key: string, seconds: int, i: int,
                                  n: nat)
    requires Steady(events, key, seconds) && Asks(events, n, key)
    requires LastAccepted(m, interval, events, n, key, i)
    ensures i >= 0 ==>
      (Accepted(m, interval, events, n, key) <==>
         events[n].since - events[i].now >= seconds * 1_000_000_000 && events[n].since - events[i].now >= interval)
    ensures i < 0 && key !in m.lastPolled ==> Accepted(m, interval, events, n, key)
  {
    RememberedTime(m, interval, events, n, key, seconds, i);
  }

  /** Any two polls of a kept key are at least the override, and at least the poll
      interval, apart. */
  lemma PollsAreSpaced(m: Memory, interval: int, events: seq<Call>, key: string, seconds: int, i: nat, n: nat)
    requires Steady(events, key, seconds) && ClockRuns(events)
    requires i < n && Accepted(m, interval, events, i, key) && Accepted(m, interval, events, n, key)
    ensures events[n].since - events[i].now >= seconds * 1_000_000_000
    ensures events[n].since - events[i].now >= interval
  {
    var l := FindLast(m, interval, events, n, key, i);
    AcceptedExactlyAtDeadline(m, interval, events, key, seconds, l, n);
    if i < l {
      assert events[i].now <= events[l].since <= events[l].now;
    }
  }

  lemma FindLast(m: Memory, interval: int, events: seq<Call>, n: nat, key: string, i: nat) returns (l: nat)
    requires i < n && Accepted(m, interval, events, i, key)
    ensures i <= l && LastAccepted(m, interval, events, n, key, l)
  {
    l := n - 1;
    while !Accepted(m, interval, events, l, key)
      invariant i <= l < n && forall j :: l < j < n ==> !Accepted(m, interval, events, j, key)
      decreases l
    {
      l := l - 1;
    }
  }

  lemma {:induction false} WarnedSince(m: Memory, interval: int, events: seq<Call>, n: nat, key: string, seconds: int)
    requires n <= |events| && Steady(events, key, seconds)
    ensures key in After(m, interval, events[..n]).warned <==>
      key in m.warned || (seconds * SECOND < interval && exists i :: i < n && Asks(events, i, key))
  {
    if n > 0 {
      assert events[..n][..n - 1] == events[..n - 1];
      WarnedSince(m, interval, events, n - 1, key, seconds);
      assert Asks(events, n - 1, key) ==> events[n - 1].override == Some(seconds);
    }
  }

  /** The warning comes with the first call, if the override is too short and was not
      complained about before, and with no other. */
  lemma WarnedAtMostOnce(m: Memory, interval: int, events: seq<Call>, key: string, seconds: int, n: nat)
    requires Steady(events, key, seconds)
    ensures Logged(m, interval, events, n, key) <==>
      && Asks(events, n, key)
      && seconds * 1_000_000_000 < interval
      && key !in m.warned
      && forall i :: 0 <= i < n ==> !Asks(events, i, key)
  {
    if Asks(events, n, key) {
      WarnedSince(m, interval, events, n, key, seconds);
    }
  }

  // --------------------------------------------------- every run of poll cycles

  /** A cycle either stops before it probes anything, or exports and records a set of
      series and then prunes. */
  datatype Cycle = Aborted | Completed(recorded: set<Series>)

  datatype Metrics = Metrics(labels: set<string>, exported: set<Series>)

  ghost function MetricsAfter(cycles: seq<Cycle>): Metrics {
    if cycles == [] then Metrics({}, {})
    else
      var m := MetricsAfter(cycles[..|cycles| - 1]);
      match cycles[|cycles| - 1]
      case Aborted => m
      case Completed(recorded) =>
        Metrics(Keys(recorded), (m.exported + recorded) - Stale(m.labels, Keys(recorded)))
  }

  /** What the last completed cycle recorded. */
  ghost function Latest(cycles: seq<Cycle>): set<Series> {
    if cycles == [] then {}
    else match cycles[|cycles| - 1]
      case Aborted => Latest(cycles[..|cycles| - 1])
      case Completed(recorded) => recorded
  }

  ghost predicate EverRecorded(cycles: seq<Cycle>, p: Series) {
    exists i :: 0 <= i < |cycles| && cycles[i].Completed? && p in cycles[i].recorded
  }

  ghost predicate AllPlain(cycles: seq<Cycle>) {
    forall i :: 0 <= i < |cycles| && cycles[i].Completed? ==> PlainSources(cycles[i].recorded)
  }

  /** After any run of cycles, completed or not, the exported series are those of the
      last completed cycle, and besides them exactly the series ever recorded under a
      label with a separator in it: those are never unexported. */
  lemma {:induction false} ExportedSeries(cycles: seq<Cycle>, p: Series)
    requires AllPlain(cycles)
    ensures p in MetricsAfter(cycles).exported <==>
      p in Latest(cycles) || (EverRecorded(cycles, p) && SEPARATOR in p.0)
    ensures MetricsAfter(cycles).labels == Keys(Latest(cycles)) && PlainSources(Latest(cycles))
    ensures p in Latest(cycles) ==> EverRecorded(cycles, p)
  {
    if cycles != [] {
      var n := |cycles| - 1;
      var before := cycles[..n];
      ExportedSeries(before, p);
      EverRecordedSplits(cycles, p);
      assert AllPlain(before);
      if cycles[n].Completed? {
        StaleIsDropped(Latest(before), cycles[n].recorded, p);
        if EverRecorded(cycles, p) {
          assert SEPARATOR !in p.1;
        }
      }
    }
  }

  lemma EverRecordedSplits(cycles: seq<Cycle>, p: Series)
    requires cycles != []
    ensures
      var n := |cycles| - 1;
      EverRecorded(cycles, p) <==> EverRecorded(cycles[..n], p) || (cycles[n].Completed? && p in cycles[n].recorded)
  {
    var n := |cycles| - 1;
    if EverRecorded(cycles[..n], p) {
      var i :| 0 <= i < n && cycles[..n][i].Completed? && p in cycles[..n][i].recorded;
      assert cycles[i] == cycles[..n][i];
    }
    if EverRecorded(cycles, p) {
      var i :| 0 <= i < |cycles| && cycles[i].Completed? && p in cycles[i].recorded;
      assert i < n ==> cycles[..n][i] == cycles[i];
    }
  }
}
