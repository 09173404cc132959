/** What a finished cycle leaves under a key that was not turned down: the card some task
    of the cycle built for it, and never one of an earlier cycle. And whether a key is
    turned down is decided by what the cycle before remembered, at the moment of the one
    due check. */
module PollOutcome {
  import opened Ordering
  import opened PollPool
  import opened PollRefresh
  import opened PollerState
  import opened Store

  // ----------------------------------------------------------- cards of this cycle

  /** A card some task of the cycle stores under `k`: one it stores without asking, or the
      outcome of a poll. */
  ghost predicate Built(all: multiset<Action>, k: string, c: Card) {
    || (Put(c) in all && c.key == k)
    || (exists a :: a in all && IsDueOf(a, k) && a.outcome == c)
  }

  /** Unless the key has been turned down, what is stored under it in this cycle, and what
      is still to be, is of this cycle; and it is written in the end. */
  ghost predicate FreshInv(all: multiset<Action>, left: multiset<Action>, d: Data, k: string) {
    k !in d.skipped ==>
      && NoRefreshLeft(left, k)
      && (forall a :: a in left && IsPutOf(a, k) ==> Built(all, k, a.card))
      && (forall a :: a in left && IsDueOf(a, k) ==> a in all && a.outcome.key == k)
      && (k in d.written ==> k in d.cards && Built(all, k, d.cards[k]))
      && (k in WriteKeys(all) ==> k in d.written || k in WriteKeys(left))
  }

  lemma FreshStarts(all: multiset<Action>, d: Data, k: string)
    requires Sound(all) && d.written == {}
    ensures FreshInv(all, all, d, k)
  {
    hide MarkKeys, WriteKeys;
  }

  lemma OtherStaysFresh(all: multiset<Action>, left: multiset<Action>, left': multiset<Action>, d: Data, d': Data,
                        k: string)
    requires FreshInv(all, left, d, k)
    requires SameRefreshes(left, left', k) && SameDues(left, left', k) && SamePuts(left, left', k)
    requires (k in d'.skipped <==> k in d.skipped) && (k in d'.written <==> k in d.written)
    requires At(d'.cards, k) == At(d.cards, k)
    ensures FreshInv(all, left', d', k)
  {
    if k !in d.skipped && k in WriteKeys(left) {
      var a :| a in left && Writer(a) && KeyOf(a) == k;
      assert a.Due? ==> IsDueOf(a, k);
      assert a.Put? ==> IsPutOf(a, k);
      assert !IsRefreshOf(a, k);
      assert a in left';
    }
    hide Built;
  }

  lemma OtherKeepsFresh(interval: int, all: multiset<Action>, left: multiset<Action>, d: Data, a: Action, since: int,
                        now: int, k: string)
    requires FreshInv(all, left, d, k) && Keyed(d.cards) && a in left && (a.Due? ==> DueIsSound(a))
    requires !IsDueOf(a, k) && !IsRefreshOf(a, k) && !IsPutOf(a, k)
    ensures
      var (d', next) := Perform(interval, d, a, since, now);
      FreshInv(all, Replace(left, a, next), d', k)
  {
    var (d', next) := Perform(interval, d, a, since, now);
    OtherAction(interval, d, a, since, now, k);
    ReplaceSame(left, a, next, k);
    assert k in d'.written <==> k in d.written by {
      hide IsDue, Remember, Refreshed;
    }
    hide FreshInv, Perform, Replace, IsDueOf, IsRefreshOf, IsPutOf;
    OtherStaysFresh(all, left, Replace(left, a, next), d, d', k);
  }

  /** A poll of the key brings its card. */
  lemma AcceptedKeepsFresh(all: multiset<Action>, left: multiset<Action>, d: Data, d': Data, due: Action, k: string)
    requires FreshInv(all, left, d, k) && due in left && IsDueOf(due, k) && DueIsSound(due)
    requires d' == d.(memory := d'.memory)
    ensures FreshInv(all, Replace(left, due, [Put(due.outcome)]), d', k)
  {
    var left' := Replace(left, due, [Put(due.outcome)]);
    ReplaceIs(left, due, [Put(due.outcome)]);
    hide Replace;
    if k !in d.skipped {
      assert Built(all, k, due.outcome);
      assert Writer(Put(due.outcome)) && KeyOf(Put(due.outcome)) == k && Put(due.outcome) in left';
      forall a | a in left' ensures a in left || a == Put(due.outcome) {
      }
      hide Built;
    }
  }

  lemma RefusedKeepsFresh(all: multiset<Action>, left: multiset<Action>, d: Data, k: string)
    requires k in d.skipped
    ensures FreshInv(all, left, d, k)
  {
  }

  /** Storing a card that was built. */
  lemma PutKeepsFresh(all: multiset<Action>, left: multiset<Action>, d: Data, a: Action, k: string)
    requires FreshInv(all, left, d, k) && a in left && IsPutOf(a, k)
    ensures FreshInv(all, Replace(left, a, []), Set(d, a), k)
  {
    ReplaceIs(left, a, []);
    hide Replace, Built;
  }

  lemma RefreshKeepsFresh(all: multiset<Action>, left: multiset<Action>, d: Data, a: Action, k: string)
    requires FreshInv(all, left, d, k) && a in left && IsRefreshOf(a, k)
    ensures k in d.skipped
  {
  }

  lemma ActionKeepsFresh(interval: int, all: multiset<Action>, left: multiset<Action>, d: Data, a: Action, since: int,
                         now: int, k: string)
    requires FreshInv(all, left, d, k) && Keyed(d.cards) && a in left && (a.Due? ==> DueIsSound(a))
    ensures
      var (d', next) := Perform(interval, d, a, since, now);
      FreshInv(all, Replace(left, a, next), d', k)
  {
    var (d', next) := Perform(interval, d, a, since, now);
    hide FreshInv, Replace, Remember, IsDue, Refreshed;
    if IsDueOf(a, k) {
      if IsDue(d.memory, interval, k, a.override, since) {
        AcceptedKeepsFresh(all, left, d, d', a, k);
      } else {
        RefusedKeepsFresh(all, Replace(left, a, next), d', k);
      }
    } else if IsPutOf(a, k) {
      PutKeepsFresh(all, left, d, a, k);
    } else if IsRefreshOf(a, k) {
      RefreshKeepsFresh(all, left, d, a, k);
      RefusedKeepsFresh(all, Replace(left, a, next), d', k);
    } else {
      OtherKeepsFresh(interval, all, left, d, a, since, now, k);
    }
  }

  // --------------------------------------------------------------- the due check

  /** A pair of clock readings of one of the events. */
  ghost predicate Reads(events: seq<Event>, since: int, now: int) {
    exists e :: e in events && (e == MainStep(since, now) || exists i :: e == TaskStep(i, since, now))
  }

  /** Until it is asked about, the key is remembered as it was; the one due check then
      decides from that, and from the clock. */
  ghost predicate AskedInv(interval: int, events: seq<Event>, was: Memory, left: multiset<Action>, d: Data, k: string,
                           due: Action)
    requires due.Due?
  {
    && (forall a :: a in left && IsDueOf(a, k) ==> a == due && left[a] == 1)
    && if due in left then
         && k !in d.skipped && SameTime(d.memory, was, k)
       else
         exists since, now :: Reads(events, since, now) && AskedAt(interval, was, d, k, due, since, now)
  }

  ghost predicate SameTime(m: Memory, n: Memory, k: string) {
    (k in m.lastPolled <==> k in n.lastPolled) && (k in m.lastPolled ==> m.lastPolled[k] == n.lastPolled[k])
  }

  /** The outcome of the due check at these readings. */
  ghost predicate AskedAt(interval: int, was: Memory, d: Data, k: string, due: Action, since: int, now: int)
    requires due.Due?
  {
    && (k in d.skipped <==> !IsDue(was, interval, k, due.override, since))
    && SameTime(d.memory, Remember(was, interval, k, due.override, since, now), k)
  }

  lemma SameTimeSameVerdict(m: Memory, n: Memory, interval: int, k: string, override: Option<int>, since: int, now: int)
    requires SameTime(m, n, k)
    ensures IsDue(m, interval, k, override, since) == IsDue(n, interval, k, override, since)
    ensures SameTime(Remember(m, interval, k, override, since, now), Remember(n, interval, k, override, since, now), k)
  {
    hide Spacing;
  }

  lemma OtherAction'(interval: int, d: Data, a: Action, since: int, now: int, k: string)
    requires !IsDueOf(a, k)
    ensures
      var (d', next) := Perform(interval, d, a, since, now);
      && |next| <= 1 && (next != [] ==> !next[0].Due?)
      && (k in d'.skipped <==> k in d.skipped) && SameTime(d'.memory, d.memory, k)
  {
    hide IsDue, Refreshed;
  }

  lemma ActionKeepsAsked(interval: int, events: seq<Event>, was: Memory, left: multiset<Action>, d: Data, a: Action,
                         since: int, now: int, k: string, due: Action)
    requires due.Due? && due.key == k && AskedInv(interval, events, was, left, d, k, due) && a in left
    requires Reads(events, since, now)
    ensures
      var (d', next) := Perform(interval, d, a, since, now);
      AskedInv(interval, events, was, Replace(left, a, next), d', k, due)
  {
    if IsDueOf(a, k) {
      AskingKeepsAsked(interval, events, was, left, d, since, now, k, due);
    } else {
      OtherKeepsAsked(interval, events, was, left, d, a, since, now, k, due);
    }
  }

  lemma AskingKeepsAsked(interval: int, events: seq<Event>, was: Memory, left: multiset<Action>, d: Data, since: int,
                         now: int, k: string, due: Action)
    requires due.Due? && due.key == k && AskedInv(interval, events, was, left, d, k, due) && due in left
    requires Reads(events, since, now)
    ensures
      var (d', next) := Perform(interval, d, due, since, now);
      AskedInv(interval, events, was, Replace(left, due, next), d', k, due)
  {
    var (d', next) := Perform(interval, d, due, since, now);
    SameTimeSameVerdict(d.memory, was, interval, k, due.override, since, now);
    ReplaceIs(left, due, next);
    assert due in left && IsDueOf(due, k) && left[due] == 1;
    hide IsDue, Remember, Replace, Reads;
    assert AskedAt(interval, was, d', k, due, since, now);
    forall b | b in Replace(left, due, next) ensures !IsDueOf(b, k) {
    }
  }

  lemma OtherKeepsAsked(interval: int, events: seq<Event>, was: Memory, left: multiset<Action>, d: Data, a: Action,
                        since: int, now: int, k: string, due: Action)
    requires due.Due? && due.key == k && AskedInv(interval, events, was, left, d, k, due) && a in left
    requires !IsDueOf(a, k)
    ensures
      var (d', next) := Perform(interval, d, a, since, now);
      AskedInv(interval, events, was, Replace(left, a, next), d', k, due)
  {
    var (d', next) := Perform(interval, d, a, since, now);
    OtherAction'(interval, d, a, since, now, k);
    ReplaceIs(left, a, next);
    hide Perform, Replace, Reads, IsDue, Remember;
    assert forall b: Action :: b.Due? && b != a ==> Replace(left, a, next)[b] == left[b];
    assert forall b: Action :: IsDueOf(b, k) ==> b.Due? && b != a;
    if due !in left {
      var s, n :| Reads(events, s, n) && AskedAt(interval, was, d, k, due, s, n);
      assert AskedAt(interval, was, d', k, due, s, n);
    }
  }

  // ---------------------------------------------------------------- whole runs

  ghost predicate FreshAt(first: Pool, s: Pool, k: string) {
    Inv(first, s) && FreshInv(Left(first.main), Remaining(s), Settled(s), k)
  }

  ghost predicate AskedAlong(interval: int, events: seq<Event>, first: Pool, s: Pool, k: string, due: Action) {
    && due.Due? && due.key == k
    && AskedInv(interval, events, first.data.memory, Remaining(s), Settled(s), k, due)
  }

  /** A step either takes an action or leaves all that matters here. */
  lemma StepIs(interval: int, first: Pool, s: Pool, e: Event)
    requires Inv(first, s) && Enabled(s, e)
    ensures Inv(first, Next(interval, s, e)) && StepIsUnderstood(interval, s, e)
    ensures
      var d, d' := Settled(s), Settled(Next(interval, s, e));
      if e.MainStep? || e.TaskStep? then d == s.data && d' == Next(interval, s, e).data else d' == d
  {
    hide PoolInv, PhaseInv, DataInv, Remaining, Settled, Next, Left, Tasks, StepIsUnderstood, Enabled;
    StepKeepsInv(interval, first, s, e);
    EveryStepIsUnderstood(interval, s, e);
    if e.MainStep? || e.TaskStep? {
      RunningMeansPolling(s, e, Tasks(first.main));
    }
    StepKeepsPhaseInv(interval, first.labels, s, e);
  }

  lemma InvIsKeyed(first: Pool, s: Pool)
    requires Inv(first, s)
    ensures Keyed(Settled(s).cards) && forall a :: a in Remaining(s) && a.Due? ==> DueIsSound(a)
  {
    hide Remaining, Settled, Left, Tasks;
  }

  lemma StepKeepsFresh(interval: int, first: Pool, s: Pool, e: Event, k: string)
    requires FreshAt(first, s, k) && Enabled(s, e)
    ensures FreshAt(first, Next(interval, s, e), k)
  {
    StepIs(interval, first, s, e);
    InvIsKeyed(first, s);
    hide Inv, FreshInv, Remaining, Next, Perform, Replace, Settled, Keyed, Left, Enabled;
    match HeadOf(s, e)
    case Some(Do(a)) => ActionKeepsFresh(interval, Left(first.main), Remaining(s), s.data, a, e.since, e.now, k);
    case _ =>
  }

  lemma StepKeepsAsked(interval: int, events: seq<Event>, first: Pool, s: Pool, e: Event, k: string, due: Action)
    requires Inv(first, s) && AskedAlong(interval, events, first, s, k, due) && Enabled(s, e) && e in events
    ensures AskedAlong(interval, events, first, Next(interval, s, e), k, due)
  {
    StepIs(interval, first, s, e);
    hide Inv, AskedInv, Remaining, Next, Perform, Replace, Settled, Left, Enabled;
    match HeadOf(s, e)
    case Some(Do(a)) =>
      assert Reads(events, e.since, e.now);
      hide Reads;
      ActionKeepsAsked(interval, events, first.data.memory, Remaining(s), s.data, a, e.since, e.now, k, due);
    case _ =>
  }

  lemma {:induction false} RunKeepsFresh(interval: int, first: Pool, s: Pool, events: seq<Event>, k: string)
    requires FreshAt(first, s, k) && Runs(interval, s, events)
    ensures FreshAt(first, End(interval, s, events), k)
    decreases |events|
  {
    hide FreshAt, Enabled, Next;
    if events != [] {
      StepKeepsFresh(interval, first, s, events[0], k);
      RunKeepsFresh(interval, first, Next(interval, s, events[0]), events[1..], k);
    }
  }

  lemma {:induction false} RunKeepsAsked(interval: int, events: seq<Event>, first: Pool, s: Pool, rest: seq<Event>,
                                         k: string, due: Action)
    requires Inv(first, s) && AskedAlong(interval, events, first, s, k, due) && Runs(interval, s, rest)
    requires forall e :: e in rest ==> e in events
    ensures AskedAlong(interval, events, first, End(interval, s, rest), k, due)
    decreases |rest|
  {
    hide AskedAlong, Inv, Enabled, Next;
    if rest != [] {
      StepKeepsAsked(interval, events, first, s, rest[0], k, due);
      StepKeepsInv(interval, first, s, rest[0]);
      RunKeepsAsked(interval, events, first, Next(interval, s, rest[0]), rest[1..], k, due);
    }
  }

  // ----------------------------------------------------------------- the results

  ghost predicate Finishes(interval: int, first: Pool, events: seq<Event>) {
    Begins(first) && Runs(interval, first, events) && End(interval, first, events).phase.Finished?
  }

  /** After a finished cycle every card is one that a task of this cycle built, but for the
      keys that were turned down. */
  lemma CardsAreBuilt(interval: int, first: Pool, events: seq<Event>, k: string)
    requires Finishes(interval, first, events)
    ensures
      var s := End(interval, first, events);
      k in s.data.cards && k !in s.data.skipped ==> Built(Left(first.main), k, s.data.cards[k])
  {
    var s := End(interval, first, events);
    FinishedOutcome(interval, first, events);
    CardsAreTheKeptOnes(interval, first, events);
    FirstIsFresh(first, k);
    RunKeepsFresh(interval, first, first, events, k);
    hide DataInv, PoolInv, Left, Runs, End, Begins, Built, MarkKeys, WriteKeys, Remaining, FreshInv;
    if k in s.data.cards && k !in s.data.skipped {
      FreshEnds(Left(first.main), s.phase.at, k);
    }
  }

  lemma FirstIsFresh(first: Pool, k: string)
    requires Begins(first)
    ensures FreshAt(first, first, k)
  {
    FirstKeepsInv(first);
    FreshStarts(Left(first.main), first.data, k);
    assert Remaining(first) == Left(first.main);
    hide Left, Remaining, Sound, FreshInv, Inv;
  }

  lemma FreshEnds(all: multiset<Action>, d: Data, k: string)
    requires Sound(all) && FreshInv(all, multiset{}, d, k) && k in MarkKeys(all) && k !in d.skipped
    ensures k in d.cards && Built(all, k, d.cards[k])
  {
    hide Built, MarkKeys, WriteKeys;
    NothingLeft();
  }

  /** In a finished cycle the one due check of a key decides: from the poll time remembered
      before the cycle, the override it asks with, and the clock. If the key is not due it
      is turned down and keeps its poll time; if it is, a tracked poll time is the new
      reading. */
  lemma AskedKeyIsDecided(interval: int, first: Pool, events: seq<Event>, k: string, due: Action)
    returns (since: int, now: int)
    requires Finishes(interval, first, events)
    requires due in Left(first.main) && IsDueOf(due, k) && OneDue(Left(first.main), k)
    ensures Reads(events, since, now)
    ensures
      var s := End(interval, first, events);
      && k in s.data.cards
      && (k in s.data.skipped <==> !IsDue(first.data.memory, interval, k, due.override, since))
      && SameTime(s.data.memory, Remember(first.data.memory, interval, k, due.override, since, now), k)
  {
    var s := End(interval, first, events);
    FinishedOutcome(interval, first, events);
    CardsAreTheKeptOnes(interval, first, events);
    FirstKeepsInv(first);
    FirstIsUnasked(interval, events, first, k, due);
    RunKeepsAsked(interval, events, first, first, events, k, due);
    DueIsMarked(Left(first.main), k, due);
    hide DataInv, PoolInv, Left, Runs, End, Begins, OneDue, MarkKeys, Reads, IsDue, Remember, Remaining, Sound, AskedAt;
    since, now :| Reads(events, since, now) && AskedAt(interval, first.data.memory, s.phase.at, k, due, since, now);
    AskedThenForgotten(interval, first.data.memory, s.phase.at, s.data, k, due, since, now);
  }

  lemma AskedThenForgotten(interval: int, was: Memory, d: Data, d': Data, k: string, due: Action, since: int, now: int)
    requires due.Due? && AskedAt(interval, was, d, k, due, since, now) && k in d.keep
    requires d'.skipped == d.skipped && d'.memory == Forget(d.memory, d.keep)
    ensures k in d'.skipped <==> !IsDue(was, interval, k, due.override, since)
    ensures SameTime(d'.memory, Remember(was, interval, k, due.override, since, now), k)
  {
    hide IsDue, Remember;
  }

  lemma FirstIsUnasked(interval: int, events: seq<Event>, first: Pool, k: string, due: Action)
    requires Begins(first) && due in Left(first.main) && IsDueOf(due, k) && OneDue(Left(first.main), k)
    ensures AskedAlong(interval, events, first, first, k, due)
  {
    assert Remaining(first) == Left(first.main);
    hide Left, Remaining, Sound;
  }

  lemma DueIsMarked(all: multiset<Action>, k: string, due: Action)
    requires Sound(all) && due in all && IsDueOf(due, k)
    ensures k in MarkKeys(all)
  {
    assert Writer(due) && KeyOf(due) == k;
  }
}
