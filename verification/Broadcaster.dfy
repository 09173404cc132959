/** The broadcaster behind the server-sent events: one publisher at a time, any
    number of one-slot channels, and receivers that take from their channel
    whenever they like, without the publisher's lock.

    Interference is explicit: between any two channel operations of `Publish`,
    `OthersReceive` lets any receivers run. What the contracts promise therefore
    holds for every interleaving. */
module Broadcaster {
  import opened Ordering

  const MAX_SUBSCRIBERS := 256

  datatype Hashes = Hashes(fragment: string, header: string)

  /** A value on its way. `round` numbers the publications; the program does not
      carry it, it is here to talk about their order. */
  datatype Item = Item(round: nat, hashes: Hashes)

  /** A channel with one slot, and what its receiver has taken from it so far. */
  datatype Channel = Channel(slot: Option<Item>, taken: seq<Item>) {
    /** Everything that has gone through, in order, with what still waits last. */
    function Stream(): seq<Item> {
      if slot.Some? then taken + [slot.value] else taken
    }
  }

  ghost predicate Increasing(s: seq<Item>) {
    forall i, j :: 0 <= i < j < |s| ==> s[i].round < s[j].round
  }

  /** What a channel can become when only its receiver runs. */
  predicate Received(before: Channel, after: Channel) {
    after == before || (before.slot.Some? && after == Channel(None, before.taken + [before.slot.value]))
  }

  predicate Genuine(item: Item, log: seq<Hashes>) {
    1 <= item.round <= |log| && item.hashes == log[item.round - 1]
  }

  /** The channel carries publications only, each at most once, in order. */
  ghost predicate Sound(c: Channel, log: seq<Hashes>) {
    Increasing(c.Stream()) && forall i :: 0 <= i < |c.Stream()| ==> Genuine(c.Stream()[i], log)
  }

  /** The latest publication waits in the channel, or its receiver already has it. */
  ghost predicate UpToDate(c: Channel, log: seq<Hashes>) {
    var s := c.Stream();
    s != [] && s[|s| - 1].round == |log|
  }

  /** Nothing of the current round has reached the channel. */
  ghost predicate Behind(c: Channel, log: seq<Hashes>) {
    forall i :: 0 <= i < |c.Stream()| ==> c.Stream()[i].round < |log|
  }

  lemma ReceivingKeeps(before: Channel, after: Channel, log: seq<Hashes>)
    requires Received(before, after)
    ensures after.Stream() == before.Stream() && before.taken <= after.taken
    ensures Sound(before, log) ==> Sound(after, log)
    ensures UpToDate(before, log) ==> UpToDate(after, log)
    ensures Behind(before, log) ==> Behind(after, log)
  {
    assert after.Stream() == before.Stream();
  }

  lemma ReceivingTwice(a: Channel, b: Channel, c: Channel)
    requires Received(a, b) && Received(b, c)
    ensures Received(a, c)
  {
  }

  lemma EmptyStaysEmpty(a: Channel, b: Channel)
    requires Received(a, b) && a.slot.None?
    ensures b == a
  {
  }

  lemma SendingKeeps(c: Channel, item: Item, log: seq<Hashes>)
    requires Sound(c, log) && Behind(c, log) && c.slot.None?
    requires item.round == |log| && Genuine(item, log)
    ensures Sound(Channel(Some(item), c.taken), log)
    ensures UpToDate(Channel(Some(item), c.taken), log)
  {
  }

  lemma DroppingKeeps(c: Channel, log: seq<Hashes>)
    requires Sound(c, log) && Behind(c, log)
    ensures Sound(Channel(None, c.taken), log) && Behind(Channel(None, c.taken), log)
  {
    assert c.taken == c.Stream()[..|c.taken|];
    assert forall i :: 0 <= i < |c.taken| ==> c.taken[i] == c.Stream()[i];
  }

  lemma NewRound(c: Channel, log: seq<Hashes>, h: Hashes)
    requires Sound(c, log)
    ensures Sound(c, log + [h]) && Behind(c, log + [h])
  {
    assert forall i :: 0 <= i < |c.Stream()| ==> Genuine(c.Stream()[i], log);
  }

  class Broadcaster {
    /** Every channel ever handed out; `subs` are the registered ones. */
    var channels: map<nat, Channel>
    var subs: set<nat>
    var next: nat

    /** The publications so far, in order. */
    ghost var log: seq<Hashes>
    var rounds: nat

    ghost predicate Valid()
      reads this
    {
      && rounds == |log|
      && subs <= channels.Keys
      && |subs| <= MAX_SUBSCRIBERS
      && (forall ch :: ch in channels ==> ch < next)
      && (forall ch :: ch in channels ==> Sound(channels[ch], log))
    }

    constructor ()
      ensures Valid() && subs == {} && channels == map[] && log == []
    {
      channels, subs, next, log, rounds := map[], {}, 0, [], 0;
    }

    method Subscribe() returns (ch: Option<nat>)
      requires Valid()
      modifies `channels, `subs, `next
      ensures Valid()
      ensures ch.None? <==> |old(subs)| >= 256
      ensures ch.None? ==> channels == old(channels) && subs == old(subs) && next == old(next)
      ensures ch.Some? ==> ch.value == old(next) && next == old(next) + 1
      ensures ch.Some? ==> ch.value !in old(channels) && subs == old(subs) + {ch.value}
                           && channels == old(channels)[ch.value := Channel(None, [])]
    {
      if |subs| >= MAX_SUBSCRIBERS { return None; }
      assert Sound(Channel(None, []), log);
      channels := channels[next := Channel(None, [])];
      subs := subs + {next};
      ch := Some(next);
      next := next + 1;
    }

    method Unsubscribe(ch: nat)
      requires Valid()
      modifies `subs
      ensures Valid() && subs == old(subs) - {ch}
    {
      subs := subs - {ch};
    }

    method HasSubscribers() returns (b: bool)
      ensures b <==> subs != {}
    {
      b := |subs| > 0;
    }

    /** One receive by the owner of a channel; nothing happens on an empty one. */
    method Receive(ch: nat) returns (got: Option<Item>)
      requires Valid() && ch in channels
      modifies `channels
      ensures Valid() && ch in channels
      ensures got == old(channels)[ch].slot
      ensures channels[ch].taken == old(channels)[ch].taken + if got.Some? then [got.value] else []
      ensures Received(old(channels)[ch], channels[ch])
      ensures channels == old(channels)[ch := channels[ch]]
    {
      hide Sound;
      var c := channels[ch];
      got := c.slot;
      if got.Some? {
        ReceivingKeeps(c, Channel(None, c.taken + [got.value]), log);
        channels := channels[ch := Channel(None, c.taken + [got.value])];
      }
    }

    /** Any receivers run, in any order. */
    method OthersReceive()
      requires Valid()
      modifies `channels
      ensures Valid()
      ensures channels.Keys == old(channels).Keys
      ensures forall ch :: ch in channels ==> Received(old(channels)[ch], channels[ch])
    {
      hide Sound;
      var todo := channels.Keys;
      while todo != {}
        invariant Valid() && channels.Keys == old(channels).Keys && todo <= channels.Keys
        invariant forall ch :: ch in channels ==> Received(old(channels)[ch], channels[ch])
        invariant forall ch :: ch in todo ==> channels[ch] == old(channels)[ch]
        decreases todo
      {
        var ch :| ch in todo;
        todo := todo - {ch};
        if * {
          var got := Receive(ch);
        }
      }
    }

    /** The middle select: take the waiting value away if it is still there. */
    method Drain(ch: nat)
      requires Valid() && ch in channels && Behind(channels[ch], log)
      modifies `channels
      ensures Valid() && channels.Keys == old(channels).Keys
      ensures channels[ch].slot.None? && Behind(channels[ch], log)
      ensures old(channels)[ch].taken <= channels[ch].taken
      ensures forall c :: c in channels && c != ch ==> Received(old(channels)[c], channels[c])
    {
      hide Sound, Behind;
      OthersReceive();
      ReceivingKeeps(old(channels)[ch], channels[ch], log);
      if channels[ch].slot.Some? {
        DroppingKeeps(channels[ch], log);
        channels := channels[ch := Channel(None, channels[ch].taken)];
      }
    }

    /** The nested selects for one channel. Receivers can only make room, so after
        the drain the slot is empty and the last `default` is never taken. */
    method Offer(ch: nat, item: Item)
      requires Valid() && ch in channels && Behind(channels[ch], log)
      requires item.round == |log| && Genuine(item, log)
      modifies `channels
      ensures Valid() && channels.Keys == old(channels).Keys
      ensures UpToDate(channels[ch], log)
      ensures old(channels)[ch].taken <= channels[ch].taken
      ensures forall c :: c in channels && c != ch ==> Received(old(channels)[c], channels[c])
    {
      hide Sound, UpToDate, Behind, Genuine, Received;
      OthersReceive();
      ReceivingKeeps(old(channels)[ch], channels[ch], log);
      if channels[ch].slot.Some? {
        ghost var full := channels;
        Drain(ch);
        ghost var drained := channels;
        OthersReceive();
        ReceivingKeeps(drained[ch], channels[ch], log);
        forall c | c in channels && c != ch ensures Received(old(channels)[c], channels[c]) {
          ReceivingTwice(full[c], drained[c], channels[c]);
          ReceivingTwice(old(channels)[c], full[c], channels[c]);
        }
        EmptyStaysEmpty(drained[ch], channels[ch]);
      }
      if channels[ch].slot.None? {
        SendingKeeps(channels[ch], item, log);
        channels := channels[ch := Channel(Some(item), channels[ch].taken)];
      } else {
        assert false;
      }
    }

    /** When it returns, every subscriber has the new value or has it waiting,
        however the receivers raced; nobody else got anything. */
    method Publish(h: Hashes)
      requires Valid()
      modifies `channels, `log, `rounds
      ensures Valid()
      ensures log == old(log) + [h] && channels.Keys == old(channels).Keys
      ensures forall ch :: ch in subs ==> UpToDate(channels[ch], log)
      ensures forall ch :: ch in channels ==> old(channels)[ch].taken <= channels[ch].taken
      ensures forall ch :: ch in channels && ch !in subs ==> channels[ch].Stream() == old(channels)[ch].Stream()
    {
      hide Sound, UpToDate, Behind;
      forall ch | ch in channels ensures Sound(channels[ch], log + [h]) && Behind(channels[ch], log + [h]) {
        NewRound(channels[ch], log, h);
      }
      log := log + [h];
      rounds := rounds + 1;
      var item := Item(rounds, h);
      var todo := subs;
      while todo != {}
        invariant Valid() && channels.Keys == old(channels).Keys && todo <= subs
        invariant log == old(log) + [h] && rounds == item.round == |log|
        invariant forall ch :: ch in todo ==> Behind(channels[ch], log)
        invariant forall ch :: ch in channels && ch !in subs ==> channels[ch].Stream() == old(channels)[ch].Stream()
        invariant forall ch :: ch in subs - todo ==> UpToDate(channels[ch], log)
        invariant forall ch :: ch in channels ==> old(channels)[ch].taken <= channels[ch].taken
        decreases todo
      {
        var ch :| ch in todo;
        ghost var before := channels;
        Offer(ch, item);
        forall c | c in channels && c != ch
          ensures channels[c].Stream() == before[c].Stream() && before[c].taken <= channels[c].taken
          ensures UpToDate(before[c], log) ==> UpToDate(channels[c], log)
          ensures Behind(before[c], log) ==> Behind(channels[c], log)
        {
          ReceivingKeeps(before[c], channels[c], log);
        }
        todo := todo - {ch};
      }
    }
  }

  /** `DoPublish` is the end of a poll cycle, which publishes only to an audience. */
  datatype Command = DoPublish(hashes: Hashes) | DoSubscribe | DoUnsubscribe(ch: nat) | DoReceive(ch: nat)

  /** What a session comes to, told from its commands alone: who is subscribed, which
      publications there were, and who was there for the last of them. */
  datatype Course = Course(subs: set<nat>, next: nat, published: seq<Hashes>, heard: set<nat>)

  function Follow(c: Course, command: Command): Course {
    match command
    case DoPublish(h) => if c.subs == {} then c else c.(published := c.published + [h], heard := c.subs)
    case DoSubscribe => if |c.subs| >= 256 then c else c.(subs := c.subs + {c.next}, next := c.next + 1)
    case DoUnsubscribe(ch) => c.(subs := c.subs - {ch})
    case DoReceive(_) => c
  }

  function CourseOf(start: Course, script: seq<Command>): Course {
    if script == [] then start else Follow(CourseOf(start, script[..|script| - 1]), script[|script| - 1])
  }

  /** The broadcaster is where the course says. */
  ghost predicate OnCourse(b: Broadcaster, before: seq<Hashes>, c: Course)
    reads b
  {
    && b.subs == c.subs && b.next == c.next && b.log == before + c.published
    && forall ch :: ch in c.heard ==> ch in b.channels && UpToDate(b.channels[ch], b.log)
  }

  /** Any session: a poll cycle publishes exactly if somebody is subscribed then, and at the
      end everybody who was subscribed at the last publication has it or has it waiting.
      Whatever is published, however clients come, go and read, what a client has received
      is a strictly increasing selection of the publications, each with its own hashes, and
      there are never too many subscribers. */
  method Session(b: Broadcaster, script: seq<Command>)
    requires b.Valid()
    modifies b
    ensures b.Valid()
    ensures OnCourse(b, old(b.log), CourseOf(Course(old(b.subs), old(b.next), [], {}), script))
    ensures forall ch :: ch in b.channels ==> Increasing(b.channels[ch].taken)
    ensures forall ch, i :: ch in b.channels && 0 <= i < |b.channels[ch].taken| ==>
      Genuine(b.channels[ch].taken[i], b.log)
    ensures |b.subs| <= 256
  {
    ghost var start := Course(b.subs, b.next, [], {});
    for i := 0 to |script|
      invariant b.Valid()
      invariant OnCourse(b, old(b.log), CourseOf(start, script[..i]))
    {
      assert script[..i + 1][..i] == script[..i];
      ghost var course := CourseOf(start, script[..i]);
      Perform(b, script[i], old(b.log), course);
      ghost var channels := b.channels;
      b.OthersReceive();
      forall ch | ch in channels && UpToDate(channels[ch], b.log) ensures UpToDate(b.channels[ch], b.log) {
        ReceivingKeeps(channels[ch], b.channels[ch], b.log);
      }
    }
    assert script[..|script|] == script;
    forall ch | ch in b.channels
      ensures Increasing(b.channels[ch].taken)
      ensures forall i :: 0 <= i < |b.channels[ch].taken| ==> Genuine(b.channels[ch].taken[i], b.log)
    {
      var c := b.channels[ch];
      assert Sound(c, b.log);
      assert forall i :: 0 <= i < |c.taken| ==> c.taken[i] == c.Stream()[i];
    }
  }

  /** One command, without the receivers that run beside it. */
  method Perform(b: Broadcaster, command: Command, ghost before: seq<Hashes>, ghost course: Course)
    requires b.Valid() && OnCourse(b, before, course)
    modifies b
    ensures b.Valid() && OnCourse(b, before, Follow(course, command))
  {
    hide UpToDate, Sound;
    match command {
      case DoPublish(h) => EndCycle(b, h, before, course);
      case DoSubscribe => var ch := b.Subscribe();
      case DoUnsubscribe(ch) => b.Unsubscribe(ch);
      case DoReceive(ch) => TakeOne(b, ch, before, course);
    }
  }

  /** The end of a poll cycle. */
  method EndCycle(b: Broadcaster, h: Hashes, ghost before: seq<Hashes>, ghost course: Course)
    requires b.Valid() && OnCourse(b, before, course)
    modifies b
    ensures b.Valid() && OnCourse(b, before, Follow(course, DoPublish(h)))
  {
    hide UpToDate, Sound;
    var audience := b.HasSubscribers();
    if audience {
      assert before + course.published + [h] == before + (course.published + [h]);
      b.Publish(h);
    }
  }

  method TakeOne(b: Broadcaster, ch: nat, ghost before: seq<Hashes>, ghost course: Course)
    requires b.Valid() && OnCourse(b, before, course)
    modifies b
    ensures b.Valid() && OnCourse(b, before, course)
  {
    hide UpToDate, Sound;
    if ch in b.channels {
      ghost var channel := b.channels[ch];
      var got := b.Receive(ch);
      if UpToDate(channel, b.log) {
        ReceivingKeeps(channel, b.channels[ch], b.log);
      }
    }
  }
}
