/** The three-way annotation merge on Services, Ingresses and HTTPRoutes.

    The controller shares an object's annotations with others. Which keys it set
    itself it remembers only in one more annotation, a comma-joined list. So the
    merge is right exactly as far as joining and splitting that list undo each
    other; the results below are about whole sequences of merges with changing
    desired maps, mixed with writes by others. */
module Annotations {
  import opened Ordering
  import opened Text

  type Annotations = map<string, string>

  const RECORD_KEY := "page.kubepage.dev/managed-annotations"

  /** A key the record can carry. Kubernetes itself rules out the empty key and commas. */
  predicate Recordable(key: string) {
    key != "" && ',' !in key
  }

  // -------------------------------------------------------------- the record

  /** Some listing of a set. */
  ghost function Listing(keys: set<string>): (s: seq<string>)
    ensures Elems(s) == keys
  {
    if keys == {} then []
    else
      var k :| k in keys;
      assert Elems([k] + Listing(keys - {k})) == {k} + (keys - {k});
      [k] + Listing(keys - {k})
  }

  ghost function SortedKeys(keys: set<string>): (s: seq<string>)
    ensures StrictlySorted(s) && Elems(s) == keys
  {
    SortCompact(Listing(keys))
  }

  ghost function RecordOf(keys: set<string>): string {
    Join(SortedKeys(keys), ',')
  }

  /** The keys a record text names. */
  function Named(text: string): set<string> {
    set k | k in Split(text, ',') && k != ""
  }

  function RecordText(a: Annotations): string {
    if RECORD_KEY in a then a[RECORD_KEY] else ""
  }

  /** The record reads back as the keys it was written for exactly when each of
      them is non-empty and free of commas. */
  lemma RecordReadsBack(keys: set<string>)
    ensures Named(RecordOf(keys)) == keys <==> forall k :: k in keys ==> k != "" && ',' !in k
  {
    var sorted := SortedKeys(keys);
    assert forall k :: k in keys <==> k in sorted;
    if forall k :: k in keys ==> k != "" && ',' !in k {
      if sorted == [] {
        assert Split("", ',') == [""];
      } else {
        SplitUndoesJoin(sorted, ',');
      }
    }
  }

  // --------------------------------------------------------------- the merge

  /** What `mergeManagedAnnotations` computes. */
  ghost function Merged(existing: Annotations, desired: Annotations): Annotations {
    var kept := existing - (Named(RecordText(existing)) - desired.Keys);
    if desired == map[] then kept - {RECORD_KEY}
    else (kept + desired)[RECORD_KEY := RecordOf(desired.Keys)]
  }

  /** `slices.Sorted(maps.Keys(m))`, for any iteration order. */
  method SortedMapKeys(m: Annotations) returns (keys: seq<string>)
    ensures keys == SortedKeys(m.Keys)
  {
    var todo, listed := m.Keys, [];
    while todo != {}
      invariant todo <= m.Keys
      invariant Elems(listed) == m.Keys - todo
      decreases todo
    {
      var k :| k in todo;
      assert Elems(listed + [k]) == Elems(listed) + {k};
      todo, listed := todo - {k}, listed + [k];
    }
    keys := SortCompact(listed);
    StrictlySortedIsUnique(keys, SortedKeys(m.Keys));
  }

  /** The prune loop: drop every recorded key that is no longer desired. */
  method PruneRecorded(existing: Annotations, desired: Annotations) returns (kept: Annotations)
    ensures kept == existing - (Named(RecordText(existing)) - desired.Keys)
  {
    kept := existing;
    var parts := Split(RecordText(existing), ',');
    ghost var dropped: set<string> := {};
    for i := 0 to |parts|
      invariant dropped == set k | k in parts[..i] && k != "" && k !in desired
      invariant kept == existing - dropped
    {
      assert parts[..i + 1] == parts[..i] + [parts[i]];
      if parts[i] != "" && parts[i] !in desired {
        kept := kept - {parts[i]};
        dropped := dropped + {parts[i]};
      }
    }
    assert parts[..|parts|] == parts;
    assert dropped == Named(RecordText(existing)) - desired.Keys;
  }

  /** `mergeManagedAnnotations`, on a clone that is pruned, overwritten and stamped in place. */
  method MergeManagedAnnotations(existing: Annotations, desired: Annotations) returns (merged: Annotations)
    ensures merged == Merged(existing, desired)
  {
    hide Split, Named, RecordText, Join, StrictlySorted, SortedKeys;
    var kept := PruneRecorded(existing, desired);
    merged := kept + desired;
    if |desired| == 0 {
      NothingToAdd(kept, desired);
      merged := merged - {RECORD_KEY};
      return;
    }
    var keys := SortedMapKeys(desired);
    merged := merged[RECORD_KEY := Join(keys, ',')];
  }

  lemma NothingToAdd(kept: Annotations, desired: Annotations)
    requires |desired| == 0
    ensures desired == map[] && kept + desired == kept
  {
    assert desired.Keys == {};
  }

  ghost predicate AllRecordable(keys: set<string>) {
    forall k :: k in keys ==> Recordable(k)
  }

  /** The shape every merge restores: what others wrote, the desired map, the record. */
  ghost function Managed(foreign: Annotations, desired: Annotations): Annotations {
    if desired == map[] then foreign else (foreign + desired)[RECORD_KEY := RecordOf(desired.Keys)]
  }

  /** Dropping the old keys and laying the new ones over what is left. */
  lemma OldKeysGone(foreign: Annotations, before: Annotations, desired: Annotations, old': string, new': string)
    requires foreign.Keys !! before.Keys && RECORD_KEY !in foreign
    ensures (((foreign + before)[RECORD_KEY := old'] - (before.Keys - desired.Keys)) + desired)[RECORD_KEY := new']
            == (foreign + desired)[RECORD_KEY := new']
    ensures ((foreign + before)[RECORD_KEY := old'] - before.Keys) - {RECORD_KEY} == foreign
  {
  }

  lemma EmptyRecordNamesNothing()
    ensures Named("") == {}
  {
    assert Split("", ',') == [""];
  }

  lemma ManagedRecord(foreign: Annotations, desired: Annotations)
    requires AllRecordable(desired.Keys) && RECORD_KEY !in foreign
    ensures Named(RecordText(Managed(foreign, desired))) == desired.Keys
  {
    hide Named, RecordOf;
    RecordReadsBack(desired.Keys);
    EmptyRecordNamesNothing();
  }

  /** One round: merging into a managed object replaces the old desired map by the
      new one, and touches nothing of others. */
  lemma MergeReplacesDesired(foreign: Annotations, before: Annotations, desired: Annotations)
    requires AllRecordable(before.Keys) && AllRecordable(desired.Keys)
    requires foreign.Keys !! before.Keys && foreign.Keys !! desired.Keys && RECORD_KEY !in foreign
    ensures Merged(Managed(foreign, before), desired) == Managed(foreign, desired)
  {
    hide Named, RecordOf, RecordText;
    ManagedRecord(foreign, before);
    OldKeysGone(foreign, before, desired, RecordOf(before.Keys), RecordOf(desired.Keys));
    var existing := Managed(foreign, before);
    var kept := existing - (before.Keys - desired.Keys);
    assert Merged(existing, desired) ==
      if desired == map[] then kept - {RECORD_KEY} else (kept + desired)[RECORD_KEY := RecordOf(desired.Keys)];
    if before == map[] {
      assert kept == foreign && foreign - {RECORD_KEY} == foreign;
    } else if desired == map[] {
      assert before.Keys - desired.Keys == before.Keys;
    }
  }

  /** Every desired annotation comes out with its desired value, with one exception:
      a user who sets the record's own key gets the record instead. */
  lemma DesiredIsHonoured(existing: Annotations, desired: Annotations)
    ensures (forall k :: k in desired ==> k in Merged(existing, desired) && Merged(existing, desired)[k] == desired[k])
            <==> (RECORD_KEY in desired ==> desired[RECORD_KEY] == RecordOf(desired.Keys))
  {
    hide RecordOf, Named;
    if RECORD_KEY in desired {
      assert Merged(existing, desired)[RECORD_KEY] == RecordOf(desired.Keys);
    }
  }

  /** The merge is idempotent, so the update guarded by `maps.Equal` is not sent twice. */
  lemma MergeIsIdempotent(existing: Annotations, desired: Annotations)
    requires AllRecordable(desired.Keys)
    ensures Merged(Merged(existing, desired), desired) == Merged(existing, desired)
  {
    hide Named, RecordOf;
    var once := Merged(existing, desired);
    RecordReadsBack(desired.Keys);
    EmptyRecordNamesNothing();
    assert Named(RecordText(once)) == desired.Keys;
    assert once - (desired.Keys - desired.Keys) == once;
  }

  // -------------------------------------------------------------- whole runs

  datatype Op =
    | Merge(desired: Annotations)
    | Foreign(key: string, value: Option<string>)    // another controller sets or removes a key

  function Write(a: Annotations, key: string, value: Option<string>): Annotations {
    if value.Some? then a[key := value.value] else a - {key}
  }

  ghost function Run(start: Annotations, ops: seq<Op>): Annotations
    decreases |ops|
  {
    if ops == [] then start
    else
      var before := Run(start, ops[..|ops| - 1]);
      match ops[|ops| - 1]
      case Merge(desired) => Merged(before, desired)
      case Foreign(key, value) => Write(before, key, value)
  }

  /** What the others alone would have made of the object. */
  function Others(start: Annotations, ops: seq<Op>): Annotations
    decreases |ops|
  {
    if ops == [] then start
    else
      var before := Others(start, ops[..|ops| - 1]);
      match ops[|ops| - 1]
      case Merge(_) => before
      case Foreign(key, value) => Write(before, key, value)
  }

  /** The last write of others to a key stands. */
  lemma {:induction false} OthersHoldLastWrite(start: Annotations, ops: seq<Op>, i: nat)
    requires i < |ops| && ops[i].Foreign?
    requires forall j :: i < j < |ops| && ops[j].Foreign? ==> ops[j].key != ops[i].key
    ensures
      var others, key, value := Others(start, ops), ops[i].key, ops[i].value;
      (key in others <==> value.Some?) && (value.Some? ==> others[key] == value.value)
    decreases |ops|
  {
    if i < |ops| - 1 {
      OthersHoldLastWrite(start, ops[..|ops| - 1], i);
    }
  }

  /** The desired map of the last merge. */
  function Current(ops: seq<Op>): Annotations
    decreases |ops|
  {
    if ops == [] then map[]
    else
      match ops[|ops| - 1]
      case Merge(desired) => desired
      case Foreign(_, _) => Current(ops[..|ops| - 1])
  }

  /** The controller's keys come from `universe`, the others stay out of it. */
  ghost predicate KeysApart(universe: set<string>, op: Op) {
    match op
    case Merge(desired) => desired.Keys <= universe
    case Foreign(key, _) => key !in universe && key != RECORD_KEY
  }

  /** However the desired map changes and whatever others do to their own keys,
      the object always holds the others' last values, exactly the current desired
      map, and its record. */
  lemma {:induction false} AnnotationsStayExact(start: Annotations, ops: seq<Op>, universe: set<string>)
    requires AllRecordable(universe)
    requires start.Keys !! universe && RECORD_KEY !in start
    requires forall op :: op in ops ==> KeysApart(universe, op)
    ensures Run(start, ops) == Managed(Others(start, ops), Current(ops))
    ensures Current(ops).Keys <= universe
    ensures Others(start, ops).Keys !! universe && RECORD_KEY !in Others(start, ops)
    decreases |ops|
  {
    hide Merged, RecordOf, SortedKeys;
    if ops != [] {
      var before, last := ops[..|ops| - 1], ops[|ops| - 1];
      AnnotationsStayExact(start, before, universe);
      assert KeysApart(universe, last);
      match last
      case Merge(desired) =>
        MergeReplacesDesired(Others(start, before), Current(before), desired);
      case Foreign(key, value) =>
        ForeignWriteCommutes(Others(start, before), Current(before), key, value);
    }
  }

  lemma ForeignWriteCommutes(foreign: Annotations, desired: Annotations, key: string, value: Option<string>)
    requires key !in desired && key != RECORD_KEY
    ensures Write(Managed(foreign, desired), key, value) == Managed(Write(foreign, key, value), desired)
  {
    hide RecordOf;
  }

  /** An object is created with the desired annotations but without the record, unless
      the user put something under the record's key. The first merge is exact if and only
      if it still wants every created key that text does not name, and the text names no
      key of others. What becomes of a created key it dropped, `LeftoverIffNeverWanted` says. */
  lemma FirstMergeAfterCreate(foreign: Annotations, created: Annotations, desired: Annotations)
    requires foreign.Keys !! created.Keys && foreign.Keys !! desired.Keys && RECORD_KEY !in foreign
    ensures
      var named := Named(RecordText(created));
      Merged(foreign + created, desired) == Managed(foreign, desired) <==>
        created.Keys - {RECORD_KEY} - named <= desired.Keys && foreign.Keys !! named
  {
    hide Named, RecordOf;
    var named := Named(RecordText(created));
    var merged, exact := Merged(foreign + created, desired), Managed(foreign, desired);
    assert RecordText(foreign + created) == RecordText(created);
    if k :| k in created.Keys - {RECORD_KEY} - named && k !in desired {
      assert k in merged && k !in exact;
    } else if k :| k in foreign.Keys && k in named {
      assert k !in merged && k in exact;
    } else {
      ExactWithoutRecord(foreign, created, desired, named, RecordOf(desired.Keys));
    }
  }

  lemma ExactWithoutRecord(foreign: Annotations, created: Annotations, desired: Annotations, named: set<string>,
                           record: string)
    requires foreign.Keys !! created.Keys && foreign.Keys !! desired.Keys && RECORD_KEY !in foreign
    requires created.Keys - {RECORD_KEY} - named <= desired.Keys && foreign.Keys !! named
    ensures (((foreign + created) - (named - desired.Keys)) + desired)[RECORD_KEY := record] ==
      (foreign + desired)[RECORD_KEY := record]
    ensures desired == map[] ==> ((foreign + created) - (named - desired.Keys)) - {RECORD_KEY} == foreign
  {
  }

  /** In the plain case: no record key among the created ones. */
  lemma FirstMergeWithoutMisuse(foreign: Annotations, created: Annotations, desired: Annotations)
    requires RECORD_KEY !in created
    requires foreign.Keys !! created.Keys && foreign.Keys !! desired.Keys && RECORD_KEY !in foreign
    ensures Merged(foreign + created, desired) == Managed(foreign, desired) <==> created.Keys <= desired.Keys
  {
    hide Named, RecordOf, Merged, Managed;
    EmptyRecordNamesNothing();
    FirstMergeAfterCreate(foreign, created, desired);
  }

  // ------------------------------------------------------------------ leftovers

  ghost predicate EverWanted(ops: seq<Op>, k: string) {
    exists i :: 0 <= i < |ops| && ops[i].Merge? && k in ops[i].desired
  }

  /** Others leave `k` and the record alone, and the record can carry what is wanted. */
  ghost predicate LeavesAlone(op: Op, k: string) {
    match op
    case Merge(desired) => AllRecordable(desired.Keys)
    case Foreign(key, _) => key != k && key != RECORD_KEY
  }

  lemma MergeAndOneKey(existing: Annotations, desired: Annotations, k: string)
    requires AllRecordable(desired.Keys) && k != RECORD_KEY
    ensures Named(RecordText(Merged(existing, desired))) == desired.Keys
    ensures k in Merged(existing, desired) <==> k in desired || (k in existing && k !in Named(RecordText(existing)))
    ensures k in existing && k in Merged(existing, desired) && k !in desired ==>
      Merged(existing, desired)[k] == existing[k]
  {
    hide Named, RecordOf;
    RecordReadsBack(desired.Keys);
    EmptyRecordNamesNothing();
  }

  lemma EverWantedSplits(ops: seq<Op>, k: string)
    requires ops != []
    ensures
      var last := ops[|ops| - 1];
      EverWanted(ops, k) <==> EverWanted(ops[..|ops| - 1], k) || (last.Merge? && k in last.desired)
  {
    if i :| 0 <= i < |ops| && ops[i].Merge? && k in ops[i].desired {
      assert i < |ops| - 1 ==> ops[..|ops| - 1][i] == ops[i];
    }
  }

  /** A key on the object that the record does not name stays, with its value, exactly as
      long as no merge wants it. Once one did, it is there exactly while it is wanted. */
  lemma {:induction false} LeftoverIffNeverWanted(start: Annotations, ops: seq<Op>, k: string)
    requires k !in Named(RecordText(start)) && k != RECORD_KEY
    requires forall op :: op in ops ==> LeavesAlone(op, k)
    ensures k in Run(start, ops) <==> k in Current(ops) || (k in start && !EverWanted(ops, k))
    ensures k in start && !EverWanted(ops, k) ==> Run(start, ops)[k] == start[k]
    ensures k in Named(RecordText(Run(start, ops))) <==> k in Current(ops)
    ensures k in Current(ops) ==> EverWanted(ops, k)
    decreases |ops|
  {
    hide Named, Merged, EverWanted;
    if ops == [] {
      NothingEverWanted(k);
    } else {
      var before, last := ops[..|ops| - 1], ops[|ops| - 1];
      LeftoverIffNeverWanted(start, before, k);
      EverWantedSplits(ops, k);
      assert LeavesAlone(last, k);
      if last.Merge? {
        MergeAndOneKey(Run(start, before), last.desired, k);
      }
    }
  }

  lemma NothingEverWanted(k: string)
    ensures !EverWanted([], k)
  {
  }

  /** A Service created with an annotation that was then taken out of the spec: the first
      merge, which wants none, leaves it, and so does every later one. */
  lemma {:induction false} FirstMergeWitness(merges: nat)
    ensures
      var created := map["example.com/tier" := "gold"];
      Run(created, seq(merges, _ => Merge(map[]))) == created
    decreases merges
  {
    var created: Annotations := map["example.com/tier" := "gold"];
    var ops := seq(merges, _ => Merge(map[]));
    if merges > 0 {
      FirstMergeWitness(merges - 1);
      assert ops[..merges - 1] == seq(merges - 1, _ => Merge(map[]));
      EmptyRecordNamesNothing();
      assert created - ({} - {}) - {RECORD_KEY} == created;
    }
  }

  lemma RecordOfOwnKey()
    ensures RecordOf({RECORD_KEY}) == RECORD_KEY
  {
    assert Elems([RECORD_KEY]) == {RECORD_KEY};
    StrictlySortedIsUnique(SortedKeys({RECORD_KEY}), [RECORD_KEY]);
    hide SortedKeys;
  }

  /** A user who sets the record's own key to "mine" gets the record. */
  lemma OwnKeyWitness()
    ensures Merged(map[], map[RECORD_KEY := "mine"]) == map[RECORD_KEY := RECORD_KEY]
  {
    var desired: Annotations := map[RECORD_KEY := "mine"];
    assert desired.Keys == {RECORD_KEY};
    RecordOfOwnKey();
    hide Named, RecordOf, RecordText;
  }
}
