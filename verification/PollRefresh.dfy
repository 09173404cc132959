/** What becomes of a widget's card in a cycle in which the widget is not due.

    Its task then reads the stored card and writes it back with the monitor's fresh
    result: two accesses to the store, and any other task may come between them. The
    results follow one key through a cycle and tell its card at the end from the order
    in which the store was accessed. */
module PollRefresh {
  import opened Ordering
  import opened PollPool
  import opened PollerState
  import opened Store

  // ------------------------------------------------------- the story of one key

  /** The accesses to one key, arranged around the read and the write of a merge: the
      cards stored before the read, between the two, and after the write. */
  datatype Story = Story(
    before: seq<Card>, read: Option<Refresh>,
    between: seq<Card>, written: Option<Card>,
    after: seq<Card>)

  function Continue(s: Story, a: Action, k: string): Story {
    match a
    case Put(c) =>
      if c.key != k then s
      else if s.written.Some? then s.(after := s.after + [c])
      else if s.read.Some? then s.(between := s.between + [c])
      else s.(before := s.before + [c])
    case Merge(r) => if r.blank.key != k then s else s.(read := Some(r))
    case Update(c) => if c.key != k then s else s.(written := Some(c))
    case _ => s
  }

  function StoryOf(log: seq<Action>, k: string): Story {
    if log == [] then Story([], None, [], None, [])
    else Continue(StoryOf(log[..|log| - 1], k), log[|log| - 1], k)
  }

  function LastOr(cards: seq<Card>, start: Option<Card>): Option<Card> {
    if cards == [] then start else Some(cards[|cards| - 1])
  }

  /** The card stored at the end of a story that began with `start`. */
  function Shown(s: Story, start: Option<Card>): Option<Card> {
    LastOr(s.after, if s.written.Some? then s.written else LastOr(s.between, LastOr(s.before, start)))
  }

  /** Every card a task stored without having read one. */
  function Stored(s: Story): seq<Card> {
    s.before + s.between + s.after
  }

  lemma StoryContinues(log: seq<Action>, a: Action, k: string)
    ensures StoryOf(log + [a], k) == Continue(StoryOf(log, k), a, k)
  {
    assert (log + [a])[..|log|] == log;
  }

  // ------------------------------------------------------------ the invariant

  predicate IsDueOf(a: Action, k: string) {
    a.Due? && a.key == k
  }

  predicate IsRefreshOf(a: Action, k: string) {
    (a.Merge? && a.refresh.blank.key == k) || (a.Update? && a.card.key == k)
  }

  predicate IsPutOf(a: Action, k: string) {
    a.Put? && a.card.key == k
  }

  /** At most one of the actions asks whether `k` is due, and only once. */
  ghost predicate OneDue(left: multiset<Action>, k: string) {
    forall a, b :: a in left && b in left && IsDueOf(a, k) && IsDueOf(b, k) ==> a == b && left[a] == 1
  }

  /** A card with key `k` that some task stores without asking. */
  ghost predicate Rival(all: multiset<Action>, k: string, c: Card) {
    Put(c) in all && c.key == k
  }

  /** `due` is the only due check of `k` there can be. */
  ghost predicate DueSide(all: multiset<Action>, left: multiset<Action>, d: Data, k: string, due: Action) {
    && (forall a :: a in left && IsDueOf(a, k) ==> a == due && left[a] == 1 && a in all)
    && (due in left ==> k !in d.skipped && (k in d.memory.lastPolled ==> k in d.cards))
    && (k in d.skipped ==> due in all && k in d.cards)
  }

  ghost predicate NoRefreshLeft(left: multiset<Action>, k: string) {
    forall a :: a in left ==> !IsRefreshOf(a, k)
  }

  ghost predicate OnlyRefreshLeft(left: multiset<Action>, k: string, a: Action) {
    left[a] == 1 && forall b :: b in left && IsRefreshOf(b, k) ==> b == a
  }

  /** Where the merge of a key that was turned down stands. */
  ghost predicate RefreshSide(left: multiset<Action>, s: Story, start: Option<Card>, k: string,
                              fallback: Option<Refresh>) {
    match fallback
    case None => NoRefreshLeft(left, k) && s.read.None? && s.written.None?
    case Some(r) =>
      if s.read.None? then s.written.None? && OnlyRefreshLeft(left, k, Merge(r))
      else
        var c := Refreshed(LastOr(s.before, start), r);
        && s.read == Some(r)
        && if s.written.None? then OnlyRefreshLeft(left, k, Update(c))
           else s.written == Some(c) && NoRefreshLeft(left, k)
  }

  /** Every rival is still to come or part of the story; and while the widget's own poll
      does not store a card, the story has only rivals. */
  ghost predicate RivalSide(all: multiset<Action>, left: multiset<Action>, s: Story, k: string, ownPoll: bool) {
    && (forall a :: a in all && IsPutOf(a, k) ==> a in left || a.card in Stored(s))
    && (!ownPoll ==>
        && (forall a :: a in left && IsPutOf(a, k) ==> a in all)
        && (forall c :: c in Stored(s) ==> Put(c) in all))
  }

  predicate Ordered(s: Story) {
    (s.read.None? ==> s.between == [] && s.written.None?) && (s.written.None? ==> s.after == [])
  }

  ghost predicate KeyInv(all: multiset<Action>, was: Data, left: multiset<Action>, d: Data, k: string, due: Action)
    requires due.Due?
  {
    var s := StoryOf(d.log, k);
    && Ordered(s)
    && At(d.cards, k) == Shown(s, At(was.cards, k))
    && DueSide(all, left, d, k, due)
    && RefreshSide(left, s, At(was.cards, k), k, if k in d.skipped then due.fallback else None)
    && RivalSide(all, left, s, k, k !in d.skipped && due !in left)
    && (forall c :: c in Stored(s) ==> c.key == k)
    && (s.read.Some? ==> LastOr(s.before, At(was.cards, k)).Some?)
  }

  // ------------------------------------------------------- every action keeps it

  lemma ReplaceIs(left: multiset<Action>, a: Action, next: seq<Action>)
    requires a in left && |next| <= 1
    ensures
      var left' := Replace(left, a, next);
      && (next == [] ==> left' == left - multiset{a})
      && (next != [] ==> left' == left - multiset{a} + multiset{next[0]})
  {
    if next != [] {
      assert next == [next[0]];
    }
  }

  /** Nothing changed but actions that ask about the key or store a card under it. */
  ghost predicate SameRefreshes(left: multiset<Action>, left': multiset<Action>, k: string) {
    forall a :: IsRefreshOf(a, k) ==> left'[a] == left[a]
  }

  ghost predicate SameDues(left: multiset<Action>, left': multiset<Action>, k: string) {
    forall a :: IsDueOf(a, k) ==> left'[a] == left[a]
  }

  ghost predicate SamePuts(left: multiset<Action>, left': multiset<Action>, k: string) {
    forall a :: IsPutOf(a, k) ==> left'[a] == left[a]
  }

  lemma ReplaceSame(left: multiset<Action>, a: Action, next: seq<Action>, k: string)
    requires a in left && |next| <= 1
    ensures
      var left' := Replace(left, a, next);
      && (!IsRefreshOf(a, k) && (next != [] ==> !IsRefreshOf(next[0], k)) ==> SameRefreshes(left, left', k))
      && (!IsDueOf(a, k) && (next != [] ==> !IsDueOf(next[0], k)) ==> SameDues(left, left', k))
      && (!IsPutOf(a, k) && (next != [] ==> !IsPutOf(next[0], k)) ==> SamePuts(left, left', k))
  {
    hide IsRefreshOf, IsDueOf, IsPutOf;
    ReplaceIs(left, a, next);
  }

  lemma RefreshSideStays(left: multiset<Action>, left': multiset<Action>, s: Story, start: Option<Card>, k: string,
                         fallback: Option<Refresh>)
    requires RefreshSide(left, s, start, k, fallback) && SameRefreshes(left, left', k)
    requires fallback.Some? ==>
      fallback.value.blank.key == k && Refreshed(LastOr(s.before, start), fallback.value).key == k
    ensures RefreshSide(left', s, start, k, fallback)
  {
    hide Refreshed, LastOr;
  }

  lemma DueSideStays(all: multiset<Action>, left: multiset<Action>, left': multiset<Action>, d: Data, d': Data,
                     k: string, due: Action)
    requires due.Due? && due.key == k && DueSide(all, left, d, k, due) && SameDues(left, left', k)
    requires (k in d'.skipped <==> k in d.skipped) && d.cards.Keys <= d'.cards.Keys
    requires k in d'.memory.lastPolled <==> k in d.memory.lastPolled
    ensures DueSide(all, left', d', k, due)
  {
    assert IsDueOf(due, k);
  }

  lemma RivalSideStays(all: multiset<Action>, left: multiset<Action>, left': multiset<Action>, s: Story, k: string,
                       ownPoll: bool)
    requires RivalSide(all, left, s, k, ownPoll) && SamePuts(left, left', k)
    ensures RivalSide(all, left', s, k, ownPoll)
  {
    hide Stored;
  }

  lemma FallbackKey(all: multiset<Action>, was: Data, left: multiset<Action>, d: Data, k: string, due: Action)
    requires due.Due? && due.key == k && KeyInv(all, was, left, d, k, due)
    requires Keyed(was.cards) && forall a :: a in all && a.Due? ==> DueIsSound(a)
    ensures k in d.skipped && due.fallback.Some? ==>
      var r := due.fallback.value;
      r.blank.key == k && Refreshed(LastOr(StoryOf(d.log, k).before, At(was.cards, k)), r).key == k
  {
    hide RefreshSide, RivalSide, StoryOf;
    var s := StoryOf(d.log, k);
    assert s.before != [] ==> s.before[|s.before| - 1] in Stored(s);
  }

  /** An action that has nothing to do with the key. */
  lemma OtherKeepsKeyInv(interval: int, all: multiset<Action>, was: Data, left: multiset<Action>, d: Data, a: Action,
                         since: int, now: int, k: string, due: Action)
    requires due.Due? && due.key == k && KeyInv(all, was, left, d, k, due) && Keyed(d.cards)
    requires Keyed(was.cards) && forall a :: a in all && a.Due? ==> DueIsSound(a)
    requires a in left && (a.Due? ==> DueIsSound(a))
    requires !IsDueOf(a, k) && !IsRefreshOf(a, k) && !IsPutOf(a, k)
    ensures
      var (d', next) := Perform(interval, d, a, since, now);
      KeyInv(all, was, Replace(left, a, next), d', k, due)
  {
    var (d', next) := Perform(interval, d, a, since, now);
    var left', s := Replace(left, a, next), StoryOf(d.log, k);
    FallbackKey(all, was, left, d, k, due);
    OtherAction(interval, d, a, since, now, k);
    ReplaceSame(left, a, next, k);
    hide IsRefreshOf, IsPutOf, Perform, Refreshed, Shown, Stored, Ordered, Replace, StoryOf, SameRefreshes, SameDues,
      SamePuts, Keyed, At;
    assert IsDueOf(due, k);
    assert due in left' <==> due in left by { SameDue(left, left', k, due); }
    hide IsDueOf;
    RefreshSideStays(left, left', s, At(was.cards, k), k, if k in d.skipped then due.fallback else None);
    DueSideStays(all, left, left', d, d', k, due);
    RivalSideStays(all, left, left', s, k, k !in d.skipped && due !in left);
    hide RefreshSide, DueSide, RivalSide;
  }

  lemma SameDue(left: multiset<Action>, left': multiset<Action>, k: string, due: Action)
    requires SameDues(left, left', k) && IsDueOf(due, k)
    ensures due in left' <==> due in left
  {
    assert left'[due] == left[due];
  }

  lemma OtherAction(interval: int, d: Data, a: Action, since: int, now: int, k: string)
    requires Keyed(d.cards) && (a.Due? ==> DueIsSound(a))
    requires !IsDueOf(a, k) && !IsRefreshOf(a, k) && !IsPutOf(a, k)
    ensures
      var (d', next) := Perform(interval, d, a, since, now);
      && |next| <= 1
      && (next != [] ==> !IsDueOf(next[0], k) && !IsRefreshOf(next[0], k) && !IsPutOf(next[0], k))
      && StoryOf(d'.log, k) == StoryOf(d.log, k)
      && At(d'.cards, k) == At(d.cards, k) && d.cards.Keys <= d'.cards.Keys
      && (k in d'.skipped <==> k in d.skipped)
      && (k in d'.memory.lastPolled <==> k in d.memory.lastPolled)
  {
    hide IsDue, StoryOf;
    if a.Put? || a.Merge? || a.Update? {
      StoryContinues(d.log, a, k);
    }
  }

  lemma AcceptedKeepsKeyInv(all: multiset<Action>, was: Data, left: multiset<Action>, d: Data, d': Data, k: string,
                            due: Action)
    requires due.Due? && due.key == k && KeyInv(all, was, left, d, k, due) && due in left && DueIsSound(due)
    requires d' == d.(memory := d'.memory)
    ensures KeyInv(all, was, Replace(left, due, [Put(due.outcome)]), d', k, due)
  {
    var next := [Put(due.outcome)];
    var left' := Replace(left, due, next);
    ReplaceIs(left, due, next);
    hide Shown, Stored, Replace, StoryOf, Ordered, LastOr;
    assert IsDueOf(due, k);
    RivalSideAsked(all, left, left', StoryOf(d.log, k), k, next);
    CardToCome(left, left', k, due);
    hide RivalSide, IsPutOf, IsRefreshOf, NoRefreshLeft;
  }

  lemma CardToCome(left: multiset<Action>, left': multiset<Action>, k: string, due: Action)
    requires due.Due? && left' == left - multiset{due} + multiset{Put(due.outcome)} && NoRefreshLeft(left, k)
    ensures NoRefreshLeft(left', k)
  {
  }

  lemma RefusedKeepsKeyInv(all: multiset<Action>, was: Data, left: multiset<Action>, d: Data, d': Data, k: string,
                           due: Action)
    requires due.Due? && due.key == k && KeyInv(all, was, left, d, k, due) && due in left && DueIsSound(due)
    requires k in d.memory.lastPolled && d' == d.(memory := d'.memory, skipped := d.skipped + {k})
    ensures
      var follow := if due.fallback.Some? then [Merge(due.fallback.value)] else [];
      KeyInv(all, was, Replace(left, due, follow), d', k, due)
  {
    var next := if due.fallback.Some? then [Merge(due.fallback.value)] else [];
    var left' := Replace(left, due, next);
    ReplaceIs(left, due, next);
    hide Refreshed, Shown, Stored, Replace, StoryOf, Ordered, LastOr;
    assert IsDueOf(due, k);
    RivalSideAsked(all, left, left', StoryOf(d.log, k), k, next);
    DueSideRefused(all, left, left', d, d', k, due);
    hide RivalSide, IsPutOf;
    MergeToCome(left, left', k, due);
    hide DueSide, NoRefreshLeft, OnlyRefreshLeft, DueIsSound;
  }

  lemma DueSideRefused(all: multiset<Action>, left: multiset<Action>, left': multiset<Action>, d: Data, d': Data,
                       k: string, due: Action)
    requires IsDueOf(due, k) && due in left && DueSide(all, left, d, k, due)
    requires k in d.memory.lastPolled && d' == d.(memory := d'.memory, skipped := d.skipped + {k})
    requires left' ==
      if due.fallback.Some? then left - multiset{due} + multiset{Merge(due.fallback.value)} else left - multiset{due}
    ensures DueSide(all, left', d', k, due)
  {
  }

  /** Once the key is turned down, its merge is all that is to come. */
  lemma MergeToCome(left: multiset<Action>, left': multiset<Action>, k: string, due: Action)
    requires IsDueOf(due, k) && DueIsSound(due) && NoRefreshLeft(left, k)
    requires left' ==
      if due.fallback.Some? then left - multiset{due} + multiset{Merge(due.fallback.value)} else left - multiset{due}
    ensures due.fallback.Some? ==> OnlyRefreshLeft(left', k, Merge(due.fallback.value))
    ensures due.fallback.None? ==> NoRefreshLeft(left', k)
  {
    assert due.fallback.Some? ==> IsRefreshOf(Merge(due.fallback.value), k);
  }

  lemma DueKeepsKeyInv(interval: int, all: multiset<Action>, was: Data, left: multiset<Action>, d: Data, a: Action,
                       since: int, now: int, k: string, due: Action)
    requires due.Due? && due.key == k && KeyInv(all, was, left, d, k, due)
    requires a in left && IsDueOf(a, k) && DueIsSound(a)
    ensures
      var (d', next) := Perform(interval, d, a, since, now);
      KeyInv(all, was, Replace(left, a, next), d', k, due)
  {
    var (d', next) := Perform(interval, d, a, since, now);
    assert a == due;
    hide KeyInv, Replace;
    if IsDue(d.memory, interval, k, a.override, since) {
      AcceptedKeepsKeyInv(all, was, left, d, d', k, due);
    } else {
      RefusedKeepsKeyInv(all, was, left, d, d', k, due);
    }
  }

  lemma RivalSideAsked(all: multiset<Action>, left: multiset<Action>, left': multiset<Action>, s: Story, k: string,
                       next: seq<Action>)
    requires RivalSide(all, left, s, k, false)
    requires forall a :: a in left && IsPutOf(a, k) ==> a in left'
    requires forall a :: a in left' && IsPutOf(a, k) ==> a in left || a in next
    ensures RivalSide(all, left', s, k, true)
    ensures (forall a :: a in next ==> !IsPutOf(a, k)) ==> RivalSide(all, left', s, k, false)
  {
    hide Stored;
  }

  lemma PutKeepsKeyInv(all: multiset<Action>, was: Data, left: multiset<Action>, d: Data, a: Action, k: string,
                       due: Action)
    requires due.Due? && due.key == k && KeyInv(all, was, left, d, k, due)
    requires Keyed(was.cards) && forall a :: a in all && a.Due? ==> DueIsSound(a)
    requires a in left && IsPutOf(a, k)
    ensures KeyInv(all, was, Replace(left, a, []), Set(d, a), k, due)
  {
    var left', s := Replace(left, a, []), StoryOf(d.log, k);
    FallbackKey(all, was, left, d, k, due);
    StoryContinues(d.log, a, k);
    PutShows(s, a, k, At(was.cards, k));
    ReplaceSame(left, a, [], k);
    ReplaceIs(left, a, []);
    hide IsRefreshOf, Refreshed, Shown, Stored, Ordered, Replace, StoryOf, SameRefreshes, SameDues, SamePuts, Keyed,
      LastOr, Continue;
    assert IsDueOf(due, k);
    SameDue(left, left', k, due);
    RefreshSideStays(left, left', s, At(was.cards, k), k, if k in d.skipped then due.fallback else None);
    DueSideStays(all, left, left', d, Set(d, a), k, due);
    RivalSideOfPut(all, left, left', s, Continue(s, a, k), k, a, k !in d.skipped && due !in left);
    hide DueSide, RefreshSide, RivalSide;
  }

  lemma RivalSideOfPut(all: multiset<Action>, left: multiset<Action>, left': multiset<Action>, s: Story, s': Story,
                       k: string, a: Action, ownPoll: bool)
    requires RivalSide(all, left, s, k, ownPoll) && IsPutOf(a, k) && a in left
    requires left' == left - multiset{a}
    requires forall c :: c in Stored(s') <==> c in Stored(s) || c == a.card
    ensures RivalSide(all, left', s', k, ownPoll)
  {
    hide Stored;
  }

  lemma PutShows(s: Story, a: Action, k: string, start: Option<Card>)
    requires IsPutOf(a, k) && Ordered(s)
    ensures
      var s' := Continue(s, a, k);
      && Ordered(s') && Shown(s', start) == Some(a.card)
      && s'.read == s.read && s'.written == s.written && (s.read.Some? ==> s'.before == s.before)
      && forall c :: c in Stored(s') <==> c in Stored(s) || c == a.card
  {
  }

  lemma MergeKeepsKeyInv(all: multiset<Action>, was: Data, left: multiset<Action>, d: Data, a: Action, k: string,
                         due: Action)
    requires due.Due? && due.key == k && KeyInv(all, was, left, d, k, due) && Keyed(d.cards)
    requires a in left && a.Merge? && IsRefreshOf(a, k)
    ensures
      var (d', next) := Perform(0, d, a, 0, 0);
      KeyInv(all, was, Replace(left, a, next), d', k, due)
    ensures k in d.cards
  {
    hide Replace, StoryOf, Refreshed;
    var (d', next) := Perform(0, d, a, 0, 0);
    ReplaceIs(left, a, next);
    StoryContinues(d.log, a, k);
    RefreshedKey(d.cards, a.refresh);
  }

  lemma RefreshedKey(cards: Cards, r: Refresh)
    requires Keyed(cards)
    ensures Refreshed(At(cards, r.blank.key), r).key == r.blank.key
  {
  }

  lemma UpdateKeepsKeyInv(all: multiset<Action>, was: Data, left: multiset<Action>, d: Data, a: Action, k: string,
                          due: Action)
    requires due.Due? && due.key == k && KeyInv(all, was, left, d, k, due)
    requires a in left && a.Update? && IsRefreshOf(a, k)
    ensures KeyInv(all, was, Replace(left, a, []), Set(d, a), k, due)
  {
    hide Refreshed, Replace, StoryOf;
    ReplaceIs(left, a, []);
    StoryContinues(d.log, a, k);
  }

  lemma ActionKeepsKeyInv(interval: int, all: multiset<Action>, was: Data, left: multiset<Action>, d: Data, a: Action,
                          since: int, now: int, k: string, due: Action)
    requires due.Due? && due.key == k && KeyInv(all, was, left, d, k, due)
    requires DataInv(all, was, left, d) && a in left
    requires Keyed(was.cards) && forall a :: a in all && a.Due? ==> DueIsSound(a)
    ensures
      var (d', next) := Perform(interval, d, a, since, now);
      KeyInv(all, was, Replace(left, a, next), d', k, due)
  {
    assert Keyed(d.cards) && (a.Due? ==> DueIsSound(a));
    hide DataInv, KeyInv, Replace;
    if IsDueOf(a, k) {
      DueKeepsKeyInv(interval, all, was, left, d, a, since, now, k, due);
    } else if IsPutOf(a, k) {
      PutKeepsKeyInv(all, was, left, d, a, k, due);
    } else if IsRefreshOf(a, k) {
      if a.Merge? {
        MergeKeepsKeyInv(all, was, left, d, a, k, due);
      } else {
        UpdateKeepsKeyInv(all, was, left, d, a, k, due);
      }
    } else {
      OtherKeepsKeyInv(interval, all, was, left, d, a, since, now, k, due);
    }
  }

  // ---------------------------------------------------------------- whole runs

  lemma StepKeepsKeyInv(interval: int, all: multiset<Action>, was: Data, s: Pool, e: Event, k: string, due: Action)
    requires Enabled(s, e) && StepIsUnderstood(interval, s, e)
    requires due.Due? && due.key == k
    requires Keyed(was.cards) && forall a :: a in all && a.Due? ==> DueIsSound(a)
    requires DataInv(all, was, Remaining(s), Settled(s)) && KeyInv(all, was, Remaining(s), Settled(s), k, due)
    requires
      var d, d' := Settled(s), Settled(Next(interval, s, e));
      if e.MainStep? || e.TaskStep? then d == s.data && d' == Next(interval, s, e).data else d' == d
    ensures KeyInv(all, was, Remaining(Next(interval, s, e)), Settled(Next(interval, s, e)), k, due)
  {
    hide DataInv, KeyInv, Remaining, Next, Perform, Replace, Settled, Keyed;
    match HeadOf(s, e)
    case Some(Do(a)) =>
      ActionKeepsKeyInv(interval, all, was, Remaining(s), s.data, a, e.since, e.now, k, due);
    case _ =>
  }

  /** The cycle's invariant together with the key's. */
  ghost predicate BothInv(first: Pool, s: Pool, k: string, due: Action) {
    && Inv(first, s)
    && due.Due? && due.key == k
    && KeyInv(Left(first.main), first.data, Remaining(s), Settled(s), k, due)
  }

  lemma StepKeepsBoth(interval: int, first: Pool, s: Pool, e: Event, k: string, due: Action)
    requires Begins(first) && BothInv(first, s, k, due) && Enabled(s, e)
    ensures BothInv(first, Next(interval, s, e), k, due)
  {
    assert Keyed(first.data.cards) && forall a :: a in Left(first.main) && a.Due? ==> DueIsSound(a);
    hide PoolInv, PhaseInv, DataInv, KeyInv, Remaining, Settled, Next, Left, Tasks, StepIsUnderstood, Enabled, Begins,
      Keyed;
    StepKeepsInv(interval, first, s, e);
    EveryStepIsUnderstood(interval, s, e);
    if e.MainStep? || e.TaskStep? {
      RunningMeansPolling(s, e, Tasks(first.main));
    }
    StepKeepsPhaseInv(interval, first.labels, s, e);
    StepKeepsKeyInv(interval, Left(first.main), first.data, s, e, k, due);
  }

  lemma {:induction false} RunKeepsBoth(interval: int, first: Pool, s: Pool, events: seq<Event>, k: string, due: Action)
    requires Begins(first) && BothInv(first, s, k, due) && Runs(interval, s, events)
    ensures BothInv(first, End(interval, s, events), k, due)
    decreases |events|
  {
    hide BothInv, Enabled, Next, Begins;
    if events != [] {
      StepKeepsBoth(interval, first, s, events[0], k, due);
      RunKeepsBoth(interval, first, Next(interval, s, events[0]), events[1..], k, due);
    }
  }

  /** The due check of the key, or one that could be it if there is none. */
  lemma TheDue(all: multiset<Action>, k: string) returns (due: Action)
    requires OneDue(all, k)
    ensures due.Due? && due.key == k
    ensures forall a :: a in all && IsDueOf(a, k) ==> a == due && all[a] == 1
  {
    if exists a :: a in all && IsDueOf(a, k) {
      due :| due in all && IsDueOf(due, k);
    } else {
      due := Due(k, None, Card(k, "", None, "", "", "", "", false), None);
    }
  }

  lemma Reached(interval: int, first: Pool, events: seq<Event>, k: string) returns (due: Action)
    requires Begins(first) && Runs(interval, first, events) && OneDue(Left(first.main), k)
    ensures BothInv(first, End(interval, first, events), k, due)
  {
    due := TheDue(Left(first.main), k);
    FirstKeepsInv(first);
    FirstKeepsKeyInv(first, k, due);
    RunKeepsBoth(interval, first, first, events, k, due);
  }

  lemma FirstKeepsKeyInv(first: Pool, k: string, due: Action)
    requires Begins(first) && due.Due? && due.key == k
    requires forall a :: a in Left(first.main) && IsDueOf(a, k) ==> a == due && Left(first.main)[a] == 1
    ensures KeyInv(Left(first.main), first.data, Remaining(first), Settled(first), k, due)
  {
    assert Remaining(first) == Left(first.main);
    hide Left, Remaining;
  }

  // ----------------------------------------------------------------- the results

  /** The next thing some task will do is to look for the card it merges into. */
  ghost predicate AboutToMerge(s: Pool, i: nat, r: Refresh) {
    i < |s.running| && s.running[i] != [] && s.running[i][0] == Do(Merge(r))
  }

  lemma MergeIsLeft(s: Pool, i: nat, r: Refresh)
    requires AboutToMerge(s, i, r)
    ensures Merge(r) in Remaining(s)
  {
    LeftInUpdate(s.running, i, []);
    assert Merge(r) in Left(s.running[i]);
  }

  /** Merging a monitor result always finds a stored card: the branch that builds a
      card for a widget without one is never taken, whatever else is stored under the
      key. */
  lemma MergeFindsItsCard(interval: int, first: Pool, events: seq<Event>, i: nat, r: Refresh)
    requires Begins(first) && Runs(interval, first, events) && OneDue(Left(first.main), r.blank.key)
    requires AboutToMerge(End(interval, first, events), i, r)
    ensures r.blank.key in End(interval, first, events).data.cards
  {
    hide DataInv, PhaseInv, Remaining, Left, Runs, End, Begins, OneDue, RivalSide, Ordered, StoryOf, Shown;
    var s, k := End(interval, first, events), r.blank.key;
    var due := Reached(interval, first, events, k);
    RunningMeansPolling(s, TaskStep(i, 0, 0), Tasks(first.main));
    MergeIsLeft(s, i, r);
    assert IsRefreshOf(Merge(r), k);
  }

  /** The cycle is over and turned the key down. */
  ghost predicate TurnedDown(interval: int, first: Pool, events: seq<Event>, k: string) {
    && Begins(first) && Runs(interval, first, events)
    && End(interval, first, events).phase.Finished? && k in End(interval, first, events).data.skipped
  }

  /** The whole story of a key that was turned down: the merge read and wrote once, and
      what it wrote is what it read, refreshed; all other cards came from rivals, and
      every rival came. The card at the end is the one stored last. */
  ghost predicate StoryIs(all: multiset<Action>, k: string, s: Story, start: Option<Card>, fallback: Option<Refresh>) {
    && Ordered(s)
    && s.read == fallback
    && (fallback.None? ==> s.written.None?)
    && (fallback.Some? ==>
          LastOr(s.before, start).Some? && s.written == Some(Refreshed(LastOr(s.before, start), fallback.value)))
    && (forall c :: c in Stored(s) <==> Rival(all, k, c))
  }

  lemma StoryOfTurnedDown(interval: int, first: Pool, events: seq<Event>, k: string) returns (due: Action)
    requires TurnedDown(interval, first, events, k) && OneDue(Left(first.main), k)
    ensures due in Left(first.main) && IsDueOf(due, k)
    ensures
      var s := End(interval, first, events);
      && StoryIs(Left(first.main), k, StoryOf(s.data.log, k), At(first.data.cards, k), due.fallback)
      && At(s.data.cards, k) == Shown(StoryOf(s.data.log, k), At(first.data.cards, k))
      && k in s.data.cards
  {
    var s := End(interval, first, events);
    FinishedOutcome(interval, first, events);
    CardsAreTheKeptOnes(interval, first, events);
    due := Reached(interval, first, events, k);
    hide DataInv, PoolInv, Left, Runs, End, Begins, OneDue, StoryOf, Shown, LastOr, Refreshed, MarkKeys;
    StoryEnds(Left(first.main), first.data, s.phase.at, k, due);
    assert s.data.log == s.phase.at.log && s.data.skipped == s.phase.at.skipped;
  }

  lemma StoryEnds(all: multiset<Action>, was: Data, d: Data, k: string, due: Action)
    requires due.Due? && due.key == k && KeyInv(all, was, multiset{}, d, k, due) && k in d.skipped
    ensures due in all
    ensures StoryIs(all, k, StoryOf(d.log, k), At(was.cards, k), due.fallback)
    ensures At(d.cards, k) == Shown(StoryOf(d.log, k), At(was.cards, k))
  {
    hide StoryOf, Shown, LastOr, Refreshed;
    var s := StoryOf(d.log, k);
    forall c ensures c in Stored(s) <==> Rival(all, k, c) {
      assert IsPutOf(Put(c), c.key);
    }
  }

  /** What a merge leaves alone. */
  predicate SameButMerged(a: Card, b: Card) {
    a.(monitor := "", err := "", hideErrors := false) == b.(monitor := "", err := "", hideErrors := false)
  }

  /** A merge takes over the monitor's fields and changes nothing else but the error, which it
      keeps if and only if the monitor has none, errors are hidden, or it is the same. */
  lemma RefreshKeeps(b: Card, r: Refresh)
    ensures SameButMerged(Refreshed(Some(b), r), b)
    ensures Refreshed(Some(b), r).monitor == r.monitor && Refreshed(Some(b), r).hideErrors == r.hideErrors
    ensures Refreshed(Some(b), r).err == b.err || Refreshed(Some(b), r).err == r.problem
    ensures Refreshed(Some(b), r).err == b.err <==> r.problem == "" || r.hideErrors || r.problem == b.err
  {
  }

  /** An error of the monitor replaces the one the widget's poll left, and stays when the
      monitor has recovered, until the widget is next polled. */
  lemma ErrorOutlivesItsCause(b: Card, bad: Refresh, good: Refresh)
    requires bad.problem != "" && !bad.hideErrors && good.problem == ""
    ensures Refreshed(Some(b), bad).err == bad.problem
    ensures Refreshed(Some(Refreshed(Some(b), bad)), good).err == bad.problem
  {
  }

  /** For instance: the widget's poll timed out, and then the namespace of its pod
      monitor is not allowed for one cycle. */
  lemma ErrorWitness()
    ensures
      var b := Card("ns/media/0/0", "Media", None, "Plex", "Up", "", "timeout", false);
      var bad := Refresh(b, "", "namespace not allowed", false);
      var good := Refresh(b, "Up", "", false);
      && Refreshed(Some(b), bad).err == "namespace not allowed"
      && Refreshed(Some(Refreshed(Some(b), bad)), good).err == "namespace not allowed"
  {
    var b := Card("ns/media/0/0", "Media", None, "Plex", "Up", "", "timeout", false);
    ErrorOutlivesItsCause(b, Refresh(b, "", "namespace not allowed", false), Refresh(b, "Up", "", false));
  }

  lemma NonEmpty(cards: seq<Card>)
    ensures cards == [] || exists c :: c in cards
  {
    if cards != [] {
      assert cards[0] in cards;
    }
  }

  /** A key that was turned down and has no rival: its card is the old one, refreshed by
      the monitor if the key has one, in every run. */
  lemma SkippedKeepsItsCard(interval: int, first: Pool, events: seq<Event>, k: string) returns (due: Action)
    requires TurnedDown(interval, first, events, k) && OneDue(Left(first.main), k)
    requires forall c :: !Rival(Left(first.main), k, c)
    ensures due in Left(first.main) && IsDueOf(due, k)
    ensures
      var before, after := first.data.cards, End(interval, first, events).data.cards;
      && k in before && k in after
      && after[k] == if due.fallback.Some? then Refreshed(Some(before[k]), due.fallback.value) else before[k]
  {
    hide Begins, OneDue, StoryOf, Refreshed, Left, Rival;
    due := StoryOfTurnedDown(interval, first, events, k);
    var s := StoryOf(End(interval, first, events).data.log, k);
    NonEmpty(Stored(s));
    assert s.before == [] && s.between == [] && s.after == [];
  }

  /** With rivals, the order decides. If all of them stored their cards between the read
      and the write of the merge, the old card comes back; otherwise the page shows a
      rival, possibly with the monitor's result of the widget. */
  lemma RivalsAgainstMerge(interval: int, first: Pool, events: seq<Event>, k: string) returns (due: Action)
    requires TurnedDown(interval, first, events, k) && OneDue(Left(first.main), k)
    ensures due in Left(first.main) && IsDueOf(due, k)
    ensures
      var before, after := first.data.cards, End(interval, first, events).data.cards;
      var s := StoryOf(End(interval, first, events).data.log, k);
      && k in after
      && (due.fallback.Some? ==>
          var r := due.fallback.value;
          if s.before == [] && s.after == [] then k in before && after[k] == Refreshed(Some(before[k]), r)
          else exists c :: Rival(Left(first.main), k, c) && (after[k] == c || after[k] == Refreshed(Some(c), r)))
  {
    hide Begins, OneDue, StoryOf, Refreshed, Left, Rival;
    due := StoryOfTurnedDown(interval, first, events, k);
    var s := StoryOf(End(interval, first, events).data.log, k);
    if s.after != [] {
      assert s.after[|s.after| - 1] in Stored(s);
    } else if s.before != [] {
      assert s.before[|s.before| - 1] in Stored(s);
    }
  }

  /** So, if no rival looks like the old card, the old card survives if and only if every
      rival is stored between the merge's read and its write. */
  lemma SurvivesIffInBetween(interval: int, first: Pool, events: seq<Event>, k: string) returns (due: Action)
    requires TurnedDown(interval, first, events, k) && OneDue(Left(first.main), k)
    requires k in first.data.cards
    requires forall c :: Rival(Left(first.main), k, c) ==> !SameButMerged(c, first.data.cards[k])
    ensures due in Left(first.main) && IsDueOf(due, k)
    ensures
      var before, after := first.data.cards, End(interval, first, events).data.cards;
      var s := StoryOf(End(interval, first, events).data.log, k);
      && k in after
      && (due.fallback.Some? ==> (SameButMerged(after[k], before[k]) <==> s.before == [] && s.after == []))
  {
    hide Begins, OneDue, StoryOf, Left, Rival;
    due := RivalsAgainstMerge(interval, first, events, k);
  }
}
