/** The deduplicating poll-failure log.

    What the log is meant to do needs a memory of every target; what it does keeps
    at most 256 and forgets all of them when one more would be too many. The
    results compare the two over whole runs: forgetting can only repeat a line,
    never lose one. */
module FailureLog {
  import opened Ordering

  const MAX_KEYS := 256

  type Memory = map<string, string>

  /** The line logged for a failure: the message, and the cause if there is one. */
  function Reason(msg: string, err: Option<string>): string {
    if err.Some? then msg + ": " + err.value else msg
  }

  /** Reading a Go map: a missing key gives the empty string. */
  function Last(m: Memory, key: string): string {
    if key in m then m[key] else ""
  }

  predicate Emits(m: Memory, key: string, reason: string) {
    Last(m, key) != reason
  }

  /** What the log remembers after a failure if its memory holds at most `bound` targets. */
  function Remember(m: Memory, key: string, reason: string, bound: Option<nat>): Memory {
    if !Emits(m, key, reason) then m
    else if bound.Some? && |m| >= bound.value then map[key := reason]
    else m[key := reason]
  }

  /** The log as it is: changed in place. */
  class PollFailureLog {
    var last: Memory

    constructor ()
      ensures last == map[]
    {
      last := map[];
    }

    /** `logPollFailure` */
    method LogPollFailure(key: string, err: Option<string>, msg: string) returns (emitted: bool)
      requires |last| <= MAX_KEYS
      modifies this
      ensures emitted == Emits(old(last), key, Reason(msg, err))
      ensures last == Remember(old(last), key, Reason(msg, err), Some(MAX_KEYS))
      ensures |last| <= 256
    {
      var reason := Reason(msg, err);
      if Last(last, key) == reason {
        return false;
      }
      if |last| >= MAX_KEYS {
        last := map[];
      }
      SizeAfterSet(last, key, reason);
      last := last[key := reason];
      emitted := true;
    }

    /** `clearPollFailure` */
    method ClearPollFailure(key: string)
      requires |last| <= MAX_KEYS
      modifies this
      ensures last == old(last) - {key}
      ensures |last| <= MAX_KEYS
    {
      SizeAfterRemove(last, key);
      last := last - {key};
    }
  }

  lemma SizeAfterSet(m: Memory, key: string, reason: string)
    ensures |m[key := reason]| <= |m| + 1
  {
    assert m[key := reason].Keys == m.Keys + {key};
    assert |m.Keys + {key}| <= |m.Keys| + 1;
  }

  lemma SizeAfterRemove(m: Memory, key: string)
    ensures |m - {key}| <= |m|
  {
    assert (m - {key}).Keys == m.Keys - {key};
    assert m.Keys == (m.Keys - {key}) + (m.Keys * {key});
    assert |m.Keys| == |m.Keys - {key}| + |m.Keys * {key}|;
  }

  // -------------------------------------------------------------- whole runs

  datatype Op = Fail(key: string, msg: string, err: Option<string>) | Recover(key: string)

  /** The memory after a run. */
  function After(ops: seq<Op>, bound: Option<nat>): Memory
    decreases |ops|
  {
    if ops == [] then map[]
    else
      var before := After(ops[..|ops| - 1], bound);
      match ops[|ops| - 1]
      case Fail(key, msg, err) => Remember(before, key, Reason(msg, err), bound)
      case Recover(key) => before - {key}
  }

  /** Whether the last operation of a run logs a line. */
  predicate Logs(ops: seq<Op>, bound: Option<nat>)
    requires ops != []
  {
    match ops[|ops| - 1]
    case Fail(key, msg, err) => Emits(After(ops[..|ops| - 1], bound), key, Reason(msg, err))
    case Recover(_) => false
  }

  /** Reasons for one message tell the causes apart. */
  lemma CauseShows(msg: string, err: Option<string>, err': Option<string>)
    ensures Reason(msg, err) == Reason(msg, err') <==> err == err'
  {
    if err.Some? && err'.Some? {
      assert Reason(msg, err) == (msg + ": ") + err.value && Reason(msg, err') == (msg + ": ") + err'.value;
      assert Reason(msg, err)[|msg| + 2..] == err.value && Reason(msg, err')[|msg| + 2..] == err'.value;
    } else if err.Some? || err'.Some? {
      assert |Reason(msg, err)| != |Reason(msg, err')|;
    }
  }

  /** Operation `i` is a failure of `key`, and the last about it before the end of the run. */
  ghost predicate LastAbout(ops: seq<Op>, i: nat, key: string) {
    && i < |ops| && ops[i].Fail? && ops[i].key == key
    && forall j :: i < j < |ops| ==> ops[j].key != key
  }

  lemma {:induction false} LastReason(ops: seq<Op>, i: nat, key: string, bound: Option<nat>)
    requires LastAbout(ops, i, key)
    ensures
      var m, reason := After(ops, bound), Reason(ops[i].msg, ops[i].err);
      (key in m ==> m[key] == reason) && (bound.None? ==> Last(m, key) == reason)
    decreases |ops|
  {
    hide Reason;
    if i < |ops| - 1 {
      var before := ops[..|ops| - 1];
      LastReason(before, i, key, bound);
      assert ops[|ops| - 1].key != key;
    }
  }

  /** A target that fails again is logged again if the cause has changed, whatever else
      failed or recovered in between; without a bound, only then. */
  lemma ChangedCauseIsLogged(ops: seq<Op>, i: nat, bound: Option<nat>)
    requires ops != [] && ops[|ops| - 1].Fail? && HasReason(ops[|ops| - 1])
    requires LastAbout(ops[..|ops| - 1], i, ops[|ops| - 1].key) && ops[i].msg == ops[|ops| - 1].msg
    ensures ops[i].err != ops[|ops| - 1].err ==> Logs(ops, bound)
    ensures bound.None? ==> (Logs(ops, bound) <==> ops[i].err != ops[|ops| - 1].err)
  {
    var last := ops[|ops| - 1];
    LastReason(ops[..|ops| - 1], i, last.key, bound);
    CauseShows(last.msg, ops[i].err, last.err);
    hide Reason;
  }

  /** `key` has not failed yet, or not since it last recovered. */
  ghost predicate Quiet(ops: seq<Op>, key: string) {
    || (forall j :: 0 <= j < |ops| ==> ops[j].key != key)
    || (exists i ::
          0 <= i < |ops| && ops[i] == Recover(key) && forall j :: i < j < |ops| ==> ops[j].key != key)
  }

  lemma {:induction false} QuietIsForgotten(ops: seq<Op>, key: string, bound: Option<nat>)
    requires Quiet(ops, key)
    ensures key !in After(ops, bound)
    decreases |ops|
  {
    hide Reason;
    if ops != [] && ops[|ops| - 1].key != key {
      var before := ops[..|ops| - 1];
      assert forall j :: 0 <= j < |before| ==> before[j] == ops[j];
      assert Quiet(before, key);
      QuietIsForgotten(before, key, bound);
    }
  }

  /** A target that fails for the first time, or again after it has recovered, is logged,
      even if it fails the same way. */
  lemma BreakingAgainIsLogged(ops: seq<Op>, bound: Option<nat>)
    requires ops != [] && ops[|ops| - 1].Fail? && HasReason(ops[|ops| - 1])
    requires Quiet(ops[..|ops| - 1], ops[|ops| - 1].key)
    ensures Logs(ops, bound)
  {
    QuietIsForgotten(ops[..|ops| - 1], ops[|ops| - 1].key, bound);
  }

  ghost predicate Submap(m: Memory, n: Memory) {
    forall k :: k in m ==> k in n && m[k] == n[k]
  }

  ghost predicate HasReason(op: Op) {
    op.Fail? ==> Reason(op.msg, op.err) != ""
  }

  /** Over every run whose failures have a reason, the log's memory is part of the
      unbounded log's, and stays within its bound. */
  lemma {:induction false} MemoryIsPartOfIdeal(ops: seq<Op>)
    requires forall op :: op in ops ==> HasReason(op)
    ensures Submap(After(ops, Some(MAX_KEYS)), After(ops, None))
    ensures |After(ops, Some(MAX_KEYS))| <= 256
    decreases |ops|
  {
    if ops != [] {
      var before := ops[..|ops| - 1];
      MemoryIsPartOfIdeal(before);
      assert HasReason(ops[|ops| - 1]);
      var m := After(before, Some(MAX_KEYS));
      match ops[|ops| - 1]
      case Fail(key, msg, err) =>
        SizeAfterSet(m, key, Reason(msg, err));
        assert |map[key := Reason(msg, err)]| == 1;
      case Recover(key) => SizeAfterRemove(m, key);
    }
  }

  /** Every line the unbounded log writes is written; and a line only the bounded
      log writes repeats one for a target it had forgotten. */
  lemma NoLineIsLost(ops: seq<Op>)
    requires ops != []
    requires forall op :: op in ops ==> HasReason(op)
    ensures Logs(ops, None) ==> Logs(ops, Some(MAX_KEYS))
    ensures Logs(ops, Some(MAX_KEYS)) && !Logs(ops, None) ==>
              var key := ops[|ops| - 1].key;
              var before := ops[..|ops| - 1];
              key !in After(before, Some(MAX_KEYS)) && key in After(before, None)
  {
    MemoryIsPartOfIdeal(ops[..|ops| - 1]);
    assert HasReason(ops[|ops| - 1]);
  }

  /** The empty reason is the one exception: a missing key reads as an empty reason,
      so the log loses such a line once it has forgotten the target. A line is safe
      in every pair of memories exactly when its reason is not empty. */
  lemma LinesAreSafeIffReasonGiven(key: string, reason: string)
    ensures (forall m, ideal :: Submap(m, ideal) && Emits(ideal, key, reason) ==> Emits(m, key, reason))
            <==> reason != ""
  {
    if reason == "" {
      var m: Memory, ideal: Memory := map[], map[key := "x"];
      assert Submap(m, ideal) && Emits(ideal, key, reason) && !Emits(m, key, reason);
    } else {
      forall m, ideal | Submap(m, ideal) && Emits(ideal, key, reason) ensures Emits(m, key, reason) {
      }
    }
  }

  /** With fewer targets than the bound the two logs are the same. */
  lemma {:induction false} FewTargetsLogIdeally(ops: seq<Op>, targets: set<string>)
    requires |targets| < 256
    requires forall op :: op in ops ==> op.key in targets
    ensures After(ops, Some(MAX_KEYS)) == After(ops, None)
    ensures After(ops, None).Keys <= targets
    ensures ops != [] ==> (Logs(ops, Some(MAX_KEYS)) <==> Logs(ops, None))
    decreases |ops|
  {
    if ops != [] {
      var before := ops[..|ops| - 1];
      FewTargetsLogIdeally(before, targets);
      var m := After(before, None);
      assert ops[|ops| - 1].key in targets;
      assert targets == m.Keys + (targets - m.Keys);
      assert |m.Keys| <= |targets|;
    }
  }
}
