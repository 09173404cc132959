/** What `pollOnce` submits to the pool for the objects it finds: which keys it marks,
    which series it reports, and which of its tasks may write which card. */
module PollCycle {
  import opened Ordering
  import opened PollKeys
  import opened PollOutcome
  import opened PollPool
  import opened PollRefresh
  import opened PollerState
  import opened Store

  // ------------------------------------------------------ what a cycle submits

  /** A widget of an entry: the card its poll comes to, and what is merged into its card
      when the widget is not due. */
  datatype WidgetPoll = WidgetPoll(override: Option<int>, polled: Card, refresh: Refresh)

  /** An entry of a bound ServiceCard; `http` and `pods` tell which monitors reported a
      series, `visible` whether any of them came to a status. */
  datatype Entry = Entry(
    card: string, index: nat, name: string,
    http: bool, pods: bool, visible: bool, bare: Card,
    widgets: seq<WidgetPoll>)

  datatype Discovered = Discovered(origin: Origin, monitored: bool, polled: Card)

  /** A pollable entry of a bound InfoWidget. */
  datatype HeaderPoll = HeaderPoll(infoWidget: string, index: nat, override: Option<int>, polled: Card)

  /** What the API server and the probes answered in a cycle that got past its first
      two lookups. */
  datatype Input = Input(home: string, entries: seq<Entry>, discovered: seq<Discovered>, headers: seq<HeaderPoll>)

  function WithKey(card: Card, key: string): Card { card.(key := key) }

  function RefreshFor(r: Refresh, key: string): Refresh { r.(blank := WithKey(r.blank, key)) }

  function Probe(home: string, e: Entry): Program {
    var series := home + "/" + e.card + "/" + e.name;
    (if e.http then [Do(Report((series, "http")))] else [])
    + (if e.pods then [Do(Report((series, "pods")))] else [])
  }

  function WidgetTask(key: string, w: WidgetPoll): Program {
    [Do(Due(key, w.override, WithKey(w.polled, key), Some(RefreshFor(w.refresh, key))))]
  }

  /** The fan-out over an entry's widgets, from the `i`-th on. */
  function FanOut(home: string, e: Entry, i: nat): Program
    requires i <= |e.widgets|
    decreases |e.widgets| - i
  {
    if i == |e.widgets| then []
    else
      var key := Key(home, WidgetOrigin(e.card, e.index, i));
      [Do(Mark(key)), Submit(WidgetTask(key, e.widgets[i]))] + FanOut(home, e, i + 1)
  }

  function EntryTask(home: string, e: Entry): Program {
    Probe(home, e)
    + if e.widgets != [] then FanOut(home, e, 0)
      else if e.visible then
        var key := Key(home, MonitorOrigin(e.card, e.index));
        [Do(Mark(key)), Do(Put(WithKey(e.bare, key)))]
      else []
  }

  function DiscoveredTask(key: string, d: Discovered): Program {
    (if d.monitored then [Do(Report(("discovery/" + key, "http")))] else []) + [Do(Put(WithKey(d.polled, key)))]
  }

  function HeaderTask(key: string, h: HeaderPoll): Program {
    [Do(Due(key, h.override, WithKey(h.polled, key), None))]
  }

  function SubmitEntries(home: string, es: seq<Entry>): Program {
    if es == [] then [] else [Submit(EntryTask(home, es[0]))] + SubmitEntries(home, es[1..])
  }

  function SubmitDiscovered(home: string, ds: seq<Discovered>): Program {
    if ds == [] then []
    else
      var key := Key(home, ds[0].origin);
      [Do(Mark(key)), Submit(DiscoveredTask(key, ds[0]))] + SubmitDiscovered(home, ds[1..])
  }

  function SubmitHeaders(home: string, hs: seq<HeaderPoll>): Program {
    if hs == [] then []
    else
      var key := Key(home, HeaderOrigin(hs[0].infoWidget, hs[0].index));
      [Do(Mark(key)), Submit(HeaderTask(key, hs[0]))] + SubmitHeaders(home, hs[1..])
  }

  /** `pollOnce` up to the wait. */
  function Main(x: Input): Program {
    SubmitEntries(x.home, x.entries) + (SubmitDiscovered(x.home, x.discovered) + SubmitHeaders(x.home, x.headers))
  }

  // ------------------------------------------------------------- it is sound

  ghost predicate SoundBody(body: Program) {
    && Sound(Left(body))
    && forall p :: p in Reported(Left(body)) ==> SEPARATOR !in p.1
  }

  lemma NothingIsSound()
    ensures SoundBody([])
  {
  }

  lemma SoundAppend(a: Program, b: Program)
    requires SoundBody(a) && SoundBody(b)
    ensures SoundBody(a + b)
  {
    LeftAppend(a, b);
    KeysAppend(Left(a), Left(b));
    hide Left, MarkKeys, WriteKeys, Reported, DueIsSound;
  }

  lemma KeysAppend(x: multiset<Action>, y: multiset<Action>)
    ensures MarkKeys(x + y) == MarkKeys(x) + MarkKeys(y)
    ensures WriteKeys(x + y) == WriteKeys(x) + WriteKeys(y)
    ensures Reported(x + y) == Reported(x) + Reported(y)
    ensures forall z :: z in x + y <==> z in x || z in y
  {
    assert forall z :: z in x + y <==> z in x || z in y;
  }

  lemma LeftOfDo(a: Action)
    ensures Left([Do(a)]) == multiset{a}
  {
    assert [Do(a)][1..] == [];
  }

  lemma LeftOfSubmit(task: Program)
    ensures Left([Submit(task)]) == Left(task)
  {
    assert [Submit(task)][1..] == [];
  }

  lemma ReportIsSound(series: string, source: string)
    requires SEPARATOR !in source
    ensures SoundBody([Do(Report((series, source)))])
  {
    LeftOfDo(Report((series, source)));
  }

  /** Marking a key and submitting (or doing) the one thing that writes it. */
  lemma MarkAndWriteIsSound(key: string, a: Action, tail: Program)
    requires (a.Put? || (a.Due? && DueIsSound(a))) && KeyOf(a) == key
    requires Left(tail) == multiset{a}
    ensures SoundBody([Do(Mark(key))] + tail)
  {
    LeftOfDo(Mark(key));
    LeftAppend([Do(Mark(key))], tail);
    MarkedWrite(key, a);
  }

  lemma MarkedWrite(key: string, a: Action)
    requires (a.Put? || (a.Due? && DueIsSound(a))) && KeyOf(a) == key
    ensures Sound(multiset{Mark(key)} + multiset{a})
    ensures Reported(multiset{Mark(key)} + multiset{a}) == {}
  {
    hide DueIsSound;
    var all := multiset{Mark(key)} + multiset{a};
    assert forall z :: z in all <==> z == Mark(key) || z == a;
    assert MarkKeys(all) == {key} == WriteKeys(all);
  }

  lemma ProbeIsSound(home: string, e: Entry)
    ensures SoundBody(Probe(home, e))
  {
    hide SoundBody;
    var series := home + "/" + e.card + "/" + e.name;
    NothingIsSound();
    ReportIsSound(series, "http");
    ReportIsSound(series, "pods");
    SoundAppend(if e.http then [Do(Report((series, "http")))] else [],
                if e.pods then [Do(Report((series, "pods")))] else []);
  }

  lemma {:induction false} FanOutIsSound(home: string, e: Entry, i: nat)
    requires i <= |e.widgets|
    ensures SoundBody(FanOut(home, e, i))
    decreases |e.widgets| - i
  {
    hide SoundBody;
    if i == |e.widgets| {
      NothingIsSound();
    } else {
      var key := Key(home, WidgetOrigin(e.card, e.index, i));
      var task := WidgetTask(key, e.widgets[i]);
      LeftOfDo(task[0].action);
      LeftOfSubmit(task);
      MarkAndWriteIsSound(key, task[0].action, [Submit(task)]);
      FanOutIsSound(home, e, i + 1);
      SoundAppend([Do(Mark(key))] + [Submit(task)], FanOut(home, e, i + 1));
      assert [Do(Mark(key))] + [Submit(task)] == [Do(Mark(key)), Submit(task)];
    }
  }

  lemma EntryTaskIsSound(home: string, e: Entry)
    ensures SoundBody(EntryTask(home, e))
  {
    hide SoundBody;
    ProbeIsSound(home, e);
    NothingIsSound();
    FanOutIsSound(home, e, 0);
    var key := Key(home, MonitorOrigin(e.card, e.index));
    var put := Put(WithKey(e.bare, key));
    LeftOfDo(put);
    MarkAndWriteIsSound(key, put, [Do(put)]);
    assert [Do(Mark(key))] + [Do(put)] == [Do(Mark(key)), Do(put)];
    SoundAppend(Probe(home, e),
                if e.widgets != [] then FanOut(home, e, 0)
                else if e.visible then [Do(Mark(key)), Do(put)] else []);
  }

  lemma SoundSubmit(task: Program)
    requires SoundBody(task)
    ensures SoundBody([Submit(task)])
  {
    LeftOfSubmit(task);
  }

  lemma {:induction false} SubmitEntriesIsSound(home: string, es: seq<Entry>)
    ensures SoundBody(SubmitEntries(home, es))
  {
    hide SoundBody;
    if es == [] {
      NothingIsSound();
    } else {
      EntryTaskIsSound(home, es[0]);
      SoundSubmit(EntryTask(home, es[0]));
      SubmitEntriesIsSound(home, es[1..]);
      SoundAppend([Submit(EntryTask(home, es[0]))], SubmitEntries(home, es[1..]));
    }
  }

  lemma SameLeft(a: Program, b: Program)
    requires SoundBody(a) && Left(a) == Left(b)
    ensures SoundBody(b)
  {
  }

  lemma DiscoveredIsSound(key: string, d: Discovered)
    ensures SoundBody([Do(Mark(key)), Submit(DiscoveredTask(key, d))])
  {
    hide SoundBody, Left;
    var put := Put(WithKey(d.polled, key));
    var report := if d.monitored then [Do(Report(("discovery/" + key, "http")))] else [];
    var task := report + [Do(put)];
    var mark := [Do(Mark(key))];
    NothingIsSound();
    ReportIsSound("discovery/" + key, "http");
    LeftOfDo(put);
    MarkAndWriteIsSound(key, put, [Do(put)]);
    SoundAppend(report, mark + [Do(put)]);
    LeftAppend(report, mark + [Do(put)]);
    LeftAppend(mark, [Do(put)]);
    LeftAppend(report, [Do(put)]);
    LeftOfSubmit(task);
    LeftAppend(mark, [Submit(task)]);
    assert mark + [Submit(task)] == [Do(Mark(key)), Submit(task)];
    SameLeft(report + (mark + [Do(put)]), [Do(Mark(key)), Submit(task)]);
  }

  lemma {:induction false} SubmitDiscoveredIsSound(home: string, ds: seq<Discovered>)
    ensures SoundBody(SubmitDiscovered(home, ds))
  {
    hide SoundBody;
    if ds == [] {
      NothingIsSound();
    } else {
      var key := Key(home, ds[0].origin);
      DiscoveredIsSound(key, ds[0]);
      SubmitDiscoveredIsSound(home, ds[1..]);
      SoundAppend([Do(Mark(key)), Submit(DiscoveredTask(key, ds[0]))], SubmitDiscovered(home, ds[1..]));
    }
  }

  lemma {:induction false} SubmitHeadersIsSound(home: string, hs: seq<HeaderPoll>)
    ensures SoundBody(SubmitHeaders(home, hs))
  {
    hide SoundBody;
    if hs == [] {
      NothingIsSound();
    } else {
      var key := Key(home, HeaderOrigin(hs[0].infoWidget, hs[0].index));
      var task := HeaderTask(key, hs[0]);
      LeftOfDo(task[0].action);
      LeftOfSubmit(task);
      MarkAndWriteIsSound(key, task[0].action, [Submit(task)]);
      SubmitHeadersIsSound(home, hs[1..]);
      SoundAppend([Do(Mark(key))] + [Submit(task)], SubmitHeaders(home, hs[1..]));
      assert [Do(Mark(key))] + [Submit(task)] == [Do(Mark(key)), Submit(task)];
    }
  }

  /** Whatever objects there are, the cycle marks exactly the keys it may write. */
  lemma MainIsSound(x: Input)
    ensures Sound(Left(Main(x)))
    ensures PlainSources(Reported(Left(Main(x))))
  {
    SubmitEntriesIsSound(x.home, x.entries);
    SubmitDiscoveredIsSound(x.home, x.discovered);
    SubmitHeadersIsSound(x.home, x.headers);
    SoundAppend(SubmitDiscovered(x.home, x.discovered), SubmitHeaders(x.home, x.headers));
    SoundAppend(SubmitEntries(x.home, x.entries),
                SubmitDiscovered(x.home, x.discovered) + SubmitHeaders(x.home, x.headers));
  }

  // ------------------------------------------------------ one writer for each key

  /** What the API server sees to: names have no slash, and no two objects of a kind
      share a name, so no two entries share a name and index. */
  ghost predicate WellNamed(x: Input) {
    && '/' !in x.home
    && (forall e :: e in x.entries ==> '/' !in e.card)
    && (forall h :: h in x.headers ==> '/' !in h.infoWidget)
    && (forall d :: d in x.discovered ==>
      (d.origin.IngressOrigin? || d.origin.RouteOrigin?) && PlainNames(x.home, d.origin))
    && (forall i, j :: 0 <= i < j < |x.entries| ==>
          x.entries[i].card != x.entries[j].card || x.entries[i].index != x.entries[j].index)
    && (forall i, j :: 0 <= i < j < |x.headers| ==>
          x.headers[i].infoWidget != x.headers[j].infoWidget || x.headers[i].index != x.headers[j].index)
  }

  predicate Writes(a: Action, k: string) {
    Writer(a) && KeyOf(a) == k
  }

  /** At most one of the actions, taken at most once, writes `k`. */
  ghost predicate SoleWriter(left: multiset<Action>, k: string) {
    forall a, b :: a in left && b in left && Writes(a, k) && Writes(b, k) ==> a == b && left[a] == 1
  }

  ghost predicate Silent(body: Program, k: string) {
    forall a :: a in Left(body) ==> !Writes(a, k)
  }

  /** At most one action writes `k`, and it asks first whether it is due. */
  ghost predicate Sole(body: Program, k: string) {
    SoleWriter(Left(body), k) && forall a :: a in Left(body) && Writes(a, k) ==> a.Due?
  }

  lemma AppendSilent(a: Program, b: Program, k: string)
    requires Silent(a, k) && Silent(b, k)
    ensures Silent(a + b, k)
  {
    LeftAppend(a, b);
  }

  lemma AppendSole(a: Program, b: Program, k: string)
    requires (Sole(a, k) && Silent(b, k)) || (Silent(a, k) && Sole(b, k))
    ensures Sole(a + b, k)
  {
    LeftAppend(a, b);
    var x, y := Left(a), Left(b);
    assert forall z :: z in x + y <==> z in x || z in y;
  }

  lemma SilentIsSole(body: Program, k: string)
    requires Silent(body, k)
    ensures Sole(body, k)
  {
  }

  lemma NothingIsSilent(k: string)
    ensures Silent([], k)
  {
  }

  lemma OneAction(a: Action, k: string)
    ensures a.Due? || !Writes(a, k) ==> Sole([Do(a)], k)
    ensures !Writes(a, k) ==> Silent([Do(a)], k)
  {
    LeftOfDo(a);
  }

  lemma OneSubmit(task: Program, k: string)
    ensures Sole(task, k) ==> Sole([Submit(task)], k)
    ensures Silent(task, k) ==> Silent([Submit(task)], k)
  {
    LeftOfSubmit(task);
  }

  /** Marking `key`, then one task that writes `key` at most once and nothing else. */
  lemma OneMarkedTask(key: string, task: Program, k: string)
    requires Sole(task, key) && (key != k ==> Silent(task, k))
    ensures Sole([Do(Mark(key)), Submit(task)], k)
    ensures key != k ==> Silent([Do(Mark(key)), Submit(task)], k)
  {
    hide Sole, Silent;
    var mark := Do(Mark(key));
    OneAction(Mark(key), k);
    OneSubmit(task, k);
    AppendSole([mark], [Submit(task)], k);
    if key != k {
      AppendSilent([mark], [Submit(task)], k);
    }
    assert [mark] + [Submit(task)] == [mark, Submit(task)];
  }

  lemma ProbeIsSilent(home: string, e: Entry, k: string)
    ensures Silent(Probe(home, e), k)
  {
    hide Silent;
    var series := home + "/" + e.card + "/" + e.name;
    NothingIsSilent(k);
    OneAction(Report((series, "http")), k);
    OneAction(Report((series, "pods")), k);
    AppendSilent(if e.http then [Do(Report((series, "http")))] else [],
                 if e.pods then [Do(Report((series, "pods")))] else [], k);
  }

  /** A card that is polled: a widget's or a header widget's. */
  predicate Polled(o: Origin) {
    o.WidgetOrigin? || o.HeaderOrigin?
  }

  predicate OfEntry(e: Entry, o: Origin) {
    o.WidgetOrigin? && o.card == e.card && o.entry == e.index
  }

  lemma {:induction false} FanOutWrites(home: string, e: Entry, i: nat, o: Origin)
    requires i <= |e.widgets| && '/' !in e.card && PlainNames(home, o) && Polled(o)
    ensures Sole(FanOut(home, e, i), Key(home, o))
    ensures !(OfEntry(e, o) && o.widget >= i) ==> Silent(FanOut(home, e, i), Key(home, o))
    decreases |e.widgets| - i
  {
    hide Sole, Silent, Key;
    var k := Key(home, o);
    if i == |e.widgets| {
      NothingIsSilent(k);
      SilentIsSole([], k);
    } else {
      var here := WidgetOrigin(e.card, e.index, i);
      var key := Key(home, here);
      var due := WidgetTask(key, e.widgets[i])[0].action;
      KeysClash(home, here, o);
      OneAction(due, key);
      OneAction(due, k);
      OneMarkedTask(key, [Do(due)], k);
      FanOutWrites(home, e, i + 1, o);
      AppendSole([Do(Mark(key)), Submit([Do(due)])], FanOut(home, e, i + 1), k);
      if here != o && !(OfEntry(e, o) && o.widget >= i + 1) {
        AppendSilent([Do(Mark(key)), Submit([Do(due)])], FanOut(home, e, i + 1), k);
      }
    }
  }

  lemma EntryWrites(home: string, e: Entry, o: Origin)
    requires '/' !in e.card && PlainNames(home, o) && Polled(o)
    ensures Sole(EntryTask(home, e), Key(home, o))
    ensures !OfEntry(e, o) ==> Silent(EntryTask(home, e), Key(home, o))
  {
    hide Sole, Silent, Key, Probe, FanOut;
    var k := Key(home, o);
    ProbeIsSilent(home, e, k);
    NothingIsSilent(k);
    FanOutWrites(home, e, 0, o);
    var monitor := MonitorOrigin(e.card, e.index);
    var key := Key(home, monitor);
    KeysClash(home, monitor, o);
    var put := Put(WithKey(e.bare, key));
    OneAction(Mark(key), k);
    OneAction(put, k);
    AppendSilent([Do(Mark(key))], [Do(put)], k);
    assert [Do(Mark(key))] + [Do(put)] == [Do(Mark(key)), Do(put)];
    var rest := if e.widgets != [] then FanOut(home, e, 0) else if e.visible then [Do(Mark(key)), Do(put)] else [];
    if e.widgets == [] {
      SilentIsSole(rest, k);
    }
    AppendSole(Probe(home, e), rest, k);
    if !OfEntry(e, o) {
      AppendSilent(Probe(home, e), rest, k);
    }
  }

  lemma {:induction false} EntriesWrite(home: string, es: seq<Entry>, o: Origin)
    requires PlainNames(home, o) && Polled(o)
    requires forall e :: e in es ==> '/' !in e.card
    requires forall i, j :: 0 <= i < j < |es| ==> es[i].card != es[j].card || es[i].index != es[j].index
    ensures Sole(SubmitEntries(home, es), Key(home, o))
    ensures (forall e :: e in es ==> !OfEntry(e, o)) ==> Silent(SubmitEntries(home, es), Key(home, o))
  {
    hide Sole, Silent, Key, EntryTask;
    var k := Key(home, o);
    if es == [] {
      NothingIsSilent(k);
      SilentIsSole([], k);
    } else {
      var head, tail := [Submit(EntryTask(home, es[0]))], SubmitEntries(home, es[1..]);
      EntryWrites(home, es[0], o);
      OneSubmit(EntryTask(home, es[0]), k);
      EntriesWrite(home, es[1..], o);
      assert OfEntry(es[0], o) ==> forall e :: e in es[1..] ==> !OfEntry(e, o);
      AppendSole(head, tail, k);
      if forall e :: e in es ==> !OfEntry(e, o) {
        assert !OfEntry(es[0], o);
        AppendSilent(head, tail, k);
      }
    }
  }

  lemma DiscoveredWrites(key: string, d: Discovered, k: string)
    requires key != k
    ensures Silent([Do(Mark(key)), Submit(DiscoveredTask(key, d))], k)
  {
    hide Silent;
    var report, put := Report(("discovery/" + key, "http")), Put(WithKey(d.polled, key));
    OneAction(report, k);
    OneAction(put, k);
    OneAction(Mark(key), k);
    NothingIsSilent(k);
    AppendSilent(if d.monitored then [Do(report)] else [], [Do(put)], k);
    var task := DiscoveredTask(key, d);
    OneSubmit(task, k);
    AppendSilent([Do(Mark(key))], [Submit(task)], k);
    assert [Do(Mark(key))] + [Submit(task)] == [Do(Mark(key)), Submit(task)];
  }

  lemma {:induction false} DiscoveredWrite(home: string, ds: seq<Discovered>, o: Origin)
    requires PlainNames(home, o) && Polled(o)
    requires forall d :: d in ds ==> (d.origin.IngressOrigin? || d.origin.RouteOrigin?) && PlainNames(home, d.origin)
    requires forall d :: d in ds ==> !Clash(home, o, d.origin)
    ensures Silent(SubmitDiscovered(home, ds), Key(home, o))
  {
    hide Silent, Key, DiscoveredTask;
    var k := Key(home, o);
    if ds == [] {
      NothingIsSilent(k);
    } else {
      assert ds[0] in ds;
      KeysClash(home, o, ds[0].origin);
      var key := Key(home, ds[0].origin);
      DiscoveredWrites(key, ds[0], k);
      DiscoveredWrite(home, ds[1..], o);
      AppendSilent([Do(Mark(key)), Submit(DiscoveredTask(key, ds[0]))], SubmitDiscovered(home, ds[1..]), k);
    }
  }

  lemma {:induction false} HeadersWrite(home: string, hs: seq<HeaderPoll>, o: Origin)
    requires PlainNames(home, o) && Polled(o)
    requires forall h :: h in hs ==> '/' !in h.infoWidget
    requires forall i, j :: 0 <= i < j < |hs| ==> hs[i].infoWidget != hs[j].infoWidget || hs[i].index != hs[j].index
    ensures Sole(SubmitHeaders(home, hs), Key(home, o))
    ensures (forall h :: h in hs ==> HeaderOrigin(h.infoWidget, h.index) != o) ==>
      Silent(SubmitHeaders(home, hs), Key(home, o))
  {
    hide Sole, Silent, Key;
    var k := Key(home, o);
    if hs == [] {
      NothingIsSilent(k);
      SilentIsSole([], k);
    } else {
      var here := HeaderOrigin(hs[0].infoWidget, hs[0].index);
      var key := Key(home, here);
      var due := HeaderTask(key, hs[0])[0].action;
      KeysClash(home, here, o);
      OneAction(due, key);
      OneAction(due, k);
      OneMarkedTask(key, [Do(due)], k);
      HeadersWrite(home, hs[1..], o);
      var head, tail := [Do(Mark(key)), Submit([Do(due)])], SubmitHeaders(home, hs[1..]);
      assert here == o ==> forall h :: h in hs[1..] ==> HeaderOrigin(h.infoWidget, h.index) != o;
      AppendSole(head, tail, k);
      if forall h :: h in hs ==> HeaderOrigin(h.infoWidget, h.index) != o {
        AppendSilent(head, tail, k);
      }
    }
  }

  /** No discovered HTTPRoute takes the key of this card. */
  predicate Clear(x: Input, o: Origin) {
    forall d :: d in x.discovered ==> !Clash(x.home, o, d.origin)
  }

  lemma EntriesAndHeadersWrite(x: Input, o: Origin)
    requires WellNamed(x) && PlainNames(x.home, o) && Polled(o)
    ensures
      var es, hs, k := SubmitEntries(x.home, x.entries), SubmitHeaders(x.home, x.headers), Key(x.home, o);
      Sole(es, k) && Sole(hs, k) && (Silent(es, k) || Silent(hs, k))
  {
    hide Silent, Sole, Key;
    EntriesWrite(x.home, x.entries, o);
    HeadersWrite(x.home, x.headers, o);
  }

  /** The key of a polled card has one writer in a cycle, unless a discovered HTTPRoute
      takes it. */
  lemma PolledKeysHaveOneWriter(x: Input, o: Origin)
    requires WellNamed(x) && PlainNames(x.home, o) && Polled(o) && Clear(x, o)
    ensures SoleWriter(Left(Main(x)), Key(x.home, o))
  {
    hide Silent, Key, Left, SoleWriter;
    var k := Key(x.home, o);
    EntriesAndHeadersWrite(x, o);
    DiscoveredWrite(x.home, x.discovered, o);
    var es, ds, hs := SubmitEntries(x.home, x.entries), SubmitDiscovered(x.home, x.discovered),
      SubmitHeaders(x.home, x.headers);
    AppendSole(ds, hs, k);
    if Silent(hs, k) {
      AppendSilent(ds, hs, k);
    }
    AppendSole(es, ds + hs, k);
  }

  lemma DiscoveredLeft(key: string, d: Discovered)
    ensures
      var report := if d.monitored then multiset{Report(("discovery/" + key, "http"))} else multiset{};
      Left([Do(Mark(key)), Submit(DiscoveredTask(key, d))]) == multiset{Mark(key)} + report
        + multiset{Put(WithKey(d.polled, key))}
  {
    hide Left;
    var put := Put(WithKey(d.polled, key));
    var report := if d.monitored then [Do(Report(("discovery/" + key, "http")))] else [];
    var mark, task := [Do(Mark(key))], report + [Do(put)];
    LeftOfDo(put);
    LeftOfDo(Report(("discovery/" + key, "http")));
    LeftOfDo(Mark(key));
    LeftOfNothing();
    LeftAppend(report, [Do(put)]);
    LeftOfSubmit(task);
    LeftAppend(mark, [Submit(task)]);
    assert mark + [Submit(task)] == [Do(Mark(key)), Submit(task)];
  }

  lemma LeftOfNothing()
    ensures Left([]) == multiset{}
  {
  }

  ghost predicate IsDiscovered(home: string, ds: seq<Discovered>, k: string, c: Card) {
    exists d :: d in ds && Key(home, d.origin) == k && c == d.polled.(key := k)
  }

  /** The cards discovery stores are the discovered ones, and it never asks duePoll. */
  lemma {:induction false} DiscoveredPuts(home: string, ds: seq<Discovered>, a: Action)
    ensures a in Left(SubmitDiscovered(home, ds)) && Writer(a) ==> a.Put?
    ensures a.Put? ==> (a in Left(SubmitDiscovered(home, ds)) <==> IsDiscovered(home, ds, a.card.key, a.card))
  {
    hide Key, DiscoveredTask, IsDiscovered, Left;
    if ds == [] {
      LeftOfNothing();
      if a.Put? {
        NoneDiscovered(home, a.card.key, a.card);
      }
    } else {
      var key := Key(home, ds[0].origin);
      DiscoveredLeft(key, ds[0]);
      DiscoveredPuts(home, ds[1..], a);
      LeftAppend([Do(Mark(key)), Submit(DiscoveredTask(key, ds[0]))], SubmitDiscovered(home, ds[1..]));
      if a.Put? {
        OneMoreDiscovered(home, ds, a.card.key, a.card);
      }
    }
  }

  lemma NoneDiscovered(home: string, k: string, c: Card)
    ensures !IsDiscovered(home, [], k, c)
  {
  }

  lemma OneMoreDiscovered(home: string, ds: seq<Discovered>, k: string, c: Card)
    requires ds != []
    ensures IsDiscovered(home, ds, k, c) <==>
      (Key(home, ds[0].origin) == k && c == ds[0].polled.(key := k)) || IsDiscovered(home, ds[1..], k, c)
  {
    hide Key;
    assert forall d :: d in ds <==> d == ds[0] || d in ds[1..];
  }

  lemma MainLeft(x: Input)
    ensures Left(Main(x)) ==
      Left(SubmitEntries(x.home, x.entries)) + Left(SubmitDiscovered(x.home, x.discovered))
        + Left(SubmitHeaders(x.home, x.headers))
  {
    var es, ds, hs := SubmitEntries(x.home, x.entries), SubmitDiscovered(x.home, x.discovered),
      SubmitHeaders(x.home, x.headers);
    LeftAppend(ds, hs);
    LeftAppend(es, ds + hs);
  }

  /** Otherwise its rivals are exactly the discovered services stored under the key. */
  lemma RivalsAreDiscovered(x: Input, o: Origin, c: Card)
    requires WellNamed(x) && PlainNames(x.home, o) && Polled(o)
    ensures OneDue(Left(Main(x)), Key(x.home, o))
    ensures Rival(Left(Main(x)), Key(x.home, o), c) <==>
      c.key == Key(x.home, o) && IsDiscovered(x.home, x.discovered, c.key, c)
  {
    hide Key, Left, SubmitEntries, SubmitDiscovered, SubmitHeaders, IsDiscovered;
    var k := Key(x.home, o);
    var es, ds, hs := SubmitEntries(x.home, x.entries), SubmitDiscovered(x.home, x.discovered),
      SubmitHeaders(x.home, x.headers);
    MainLeft(x);
    EntriesAndHeadersWrite(x, o);
    DiscoveredPuts(x.home, x.discovered, Put(c));
    assert Writes(Put(c), c.key);
    forall a | a in Left(ds) ensures !a.Due? {
      DiscoveredPuts(x.home, x.discovered, a);
    }
    AppendSole(es, hs, k);
    LeftAppend(es, hs);
    DuesOf(Left(es + hs), Left(ds), Left(Main(x)), k);
  }

  lemma DuesOf(x: multiset<Action>, y: multiset<Action>, all: multiset<Action>, k: string)
    requires SoleWriter(x, k) && all == x + y && forall a :: a in y ==> !a.Due?
    ensures OneDue(all, k)
  {
    forall a, b | a in all && b in all && a.Due? && b.Due? && a.key == k && b.key == k ensures a == b && all[a] == 1 {
      assert a in x && b in x && Writes(a, k) && Writes(b, k);
      assert y[a] == 0;
    }
  }

  // ------------------------------------------------------- who asks duePoll

  /** The due check of a widget of `e`, from the `i`-th on. */
  ghost predicate IsWidgetDue(home: string, e: Entry, i: nat, a: Action) {
    exists j: nat :: i <= j < |e.widgets| && IsCheckOf(Key(home, WidgetOrigin(e.card, e.index, j)), e.widgets[j], a)
  }

  /** `a` asks about the widget with its own override, stores its own card if it is due, and
      otherwise merges its own entry's monitor result. */
  ghost predicate IsCheckOf(k: string, w: WidgetPoll, a: Action) {
    && a.Due? && a.key == k && a.override == w.override && a.outcome == w.polled.(key := k)
    && a.fallback == Some(w.refresh.(blank := w.refresh.blank.(key := k)))
  }

  /** The same for a header widget, which is left alone if it is not due. */
  ghost predicate IsHeaderDue(home: string, h: HeaderPoll, a: Action) {
    var k := Key(home, HeaderOrigin(h.infoWidget, h.index));
    a == Due(k, h.override, h.polled.(key := k), None)
  }

  ghost predicate Has(body: Program, a: Action) { a in Left(body) }

  lemma AppendHas(b: Program, c: Program, a: Action)
    ensures Has(b + c, a) <==> Has(b, a) || Has(c, a)
  {
    LeftAppend(b, c);
  }

  lemma NothingHas(a: Action)
    ensures !Has([], a)
  {
  }

  lemma OneActionHas(b: Action, a: Action)
    ensures Has([Do(b)], a) <==> a == b
  {
    LeftOfDo(b);
  }

  lemma OneSubmitHas(task: Program, a: Action)
    ensures Has([Submit(task)], a) <==> Has(task, a)
  {
    LeftOfSubmit(task);
  }

  lemma MarkedTaskHas(key: string, task: Program, a: Action)
    requires a.Due?
    ensures Has([Do(Mark(key)), Submit(task)], a) <==> Has(task, a)
  {
    hide Has;
    OneActionHas(Mark(key), a);
    OneSubmitHas(task, a);
    AppendHas([Do(Mark(key))], [Submit(task)], a);
    assert [Do(Mark(key))] + [Submit(task)] == [Do(Mark(key)), Submit(task)];
  }

  lemma {:induction false} FanOutDues(home: string, e: Entry, i: nat, a: Action)
    requires i <= |e.widgets| && a.Due?
    ensures Has(FanOut(home, e, i), a) <==> IsWidgetDue(home, e, i, a)
    decreases |e.widgets| - i
  {
    hide Has, Key;
    if i == |e.widgets| {
      NothingHas(a);
    } else {
      var key := Key(home, WidgetOrigin(e.card, e.index, i));
      var task := WidgetTask(key, e.widgets[i]);
      OneActionHas(task[0].action, a);
      MarkedTaskHas(key, task, a);
      FanOutDues(home, e, i + 1, a);
      AppendHas([Do(Mark(key)), Submit(task)], FanOut(home, e, i + 1), a);
    }
  }

  lemma EntryDues(home: string, e: Entry, a: Action)
    requires a.Due?
    ensures Has(EntryTask(home, e), a) <==> IsWidgetDue(home, e, 0, a)
  {
    hide Has, Key, FanOut, IsCheckOf;
    var series := home + "/" + e.card + "/" + e.name;
    OneActionHas(Report((series, "http")), a);
    OneActionHas(Report((series, "pods")), a);
    NothingHas(a);
    AppendHas(if e.http then [Do(Report((series, "http")))] else [],
              if e.pods then [Do(Report((series, "pods")))] else [], a);
    FanOutDues(home, e, 0, a);
    var key := Key(home, MonitorOrigin(e.card, e.index));
    var put := Put(WithKey(e.bare, key));
    OneActionHas(Mark(key), a);
    OneActionHas(put, a);
    AppendHas([Do(Mark(key))], [Do(put)], a);
    assert [Do(Mark(key))] + [Do(put)] == [Do(Mark(key)), Do(put)];
    AppendHas(Probe(home, e),
              if e.widgets != [] then FanOut(home, e, 0) else if e.visible then [Do(Mark(key)), Do(put)] else [], a);
  }

  lemma {:induction false} EntriesDues(home: string, es: seq<Entry>, a: Action)
    requires a.Due?
    ensures Has(SubmitEntries(home, es), a) <==> exists e :: e in es && IsWidgetDue(home, e, 0, a)
  {
    hide Has, EntryTask, IsWidgetDue;
    NothingHas(a);
    if es != [] {
      EntryDues(home, es[0], a);
      OneSubmitHas(EntryTask(home, es[0]), a);
      AppendHas([Submit(EntryTask(home, es[0]))], SubmitEntries(home, es[1..]), a);
      EntriesDues(home, es[1..], a);
      assert forall e :: e in es <==> e == es[0] || e in es[1..];
    }
  }

  lemma {:induction false} HeadersDues(home: string, hs: seq<HeaderPoll>, a: Action)
    requires a.Due?
    ensures Has(SubmitHeaders(home, hs), a) <==> exists h :: h in hs && IsHeaderDue(home, h, a)
  {
    hide Has, Key;
    NothingHas(a);
    if hs != [] {
      var key := Key(home, HeaderOrigin(hs[0].infoWidget, hs[0].index));
      var task := HeaderTask(key, hs[0]);
      OneActionHas(task[0].action, a);
      MarkedTaskHas(key, task, a);
      AppendHas([Do(Mark(key)), Submit(task)], SubmitHeaders(home, hs[1..]), a);
      HeadersDues(home, hs[1..], a);
      assert a == task[0].action <==> IsHeaderDue(home, hs[0], a);
      hide IsHeaderDue;
      assert forall h :: h in hs <==> h == hs[0] || h in hs[1..];
    }
  }

  /** What a cycle asks duePoll about are exactly its widgets and its header widgets. */
  lemma DuesAreWidgets(x: Input, a: Action)
    requires a.Due?
    ensures a in Left(Main(x)) <==>
      || (exists e :: e in x.entries && IsWidgetDue(x.home, e, 0, a))
      || (exists h :: h in x.headers && IsHeaderDue(x.home, h, a))
  {
    hide Left, IsWidgetDue, IsHeaderDue, SubmitEntries, SubmitDiscovered, SubmitHeaders;
    MainLeft(x);
    EntriesDues(x.home, x.entries, a);
    HeadersDues(x.home, x.headers, a);
    DiscoveredPuts(x.home, x.discovered, a);
    assert Has(SubmitEntries(x.home, x.entries), a) <==> a in Left(SubmitEntries(x.home, x.entries));
    assert Has(SubmitHeaders(x.home, x.headers), a) <==> a in Left(SubmitHeaders(x.home, x.headers));
  }

  /** The polled card of the input that the due check `a` is about. */
  ghost predicate IsDueFor(x: Input, o: Origin, a: Action) {
    match o
    case WidgetOrigin(_, _, i) =>
      exists e :: e in x.entries && OfEntry(e, o) && i < |e.widgets| && IsCheckOf(Key(x.home, o), e.widgets[i], a)
    case HeaderOrigin(_, _) =>
      exists h :: h in x.headers && o == HeaderOrigin(h.infoWidget, h.index) && IsHeaderDue(x.home, h, a)
    case _ => false
  }

  lemma DueHasOrigin(x: Input, a: Action) returns (o: Origin)
    requires WellNamed(x) && a.Due? && a in Left(Main(x))
    ensures Polled(o) && PlainNames(x.home, o) && a.key == Key(x.home, o) && IsDueFor(x, o, a)
  {
    hide Left, Main, Key;
    DuesAreWidgets(x, a);
    if exists e :: e in x.entries && IsWidgetDue(x.home, e, 0, a) {
      var e :| e in x.entries && IsWidgetDue(x.home, e, 0, a);
      var j: nat :| j < |e.widgets| && IsCheckOf(Key(x.home, WidgetOrigin(e.card, e.index, j)), e.widgets[j], a);
      o := WidgetOrigin(e.card, e.index, j);
    } else {
      var h :| h in x.headers && IsHeaderDue(x.home, h, a);
      o := HeaderOrigin(h.infoWidget, h.index);
    }
  }

  /** So there is at most one due check for any key at all. */
  lemma EveryKeyHasOneDue(x: Input, k: string)
    requires WellNamed(x)
    ensures OneDue(Left(Main(x)), k)
  {
    hide Left, Main, Key;
    if a :| a in Left(Main(x)) && IsDueOf(a, k) {
      var o := DueHasOrigin(x, a);
      RivalsAreDiscovered(x, o, Card(k, "", None, "", "", "", "", false));
    }
  }

  /** The due check of a polled card's key is that card's own. */
  lemma DueIsItsOwn(x: Input, o: Origin, a: Action)
    requires WellNamed(x) && Polled(o) && PlainNames(x.home, o)
    requires a in Left(Main(x)) && IsDueOf(a, Key(x.home, o))
    ensures IsDueFor(x, o, a)
  {
    hide Left, Main, Key;
    var o' := DueHasOrigin(x, a);
    KeysClash(x.home, o, o');
  }

  // ------------------------------------------------------ which cards are stored

  /** What the cycle stores for an entry: for each widget what its poll came to; without
      widgets, if the entry has a status, its bare card. */
  ghost predicate EntryBuilds(home: string, e: Entry, k: string, c: Card) {
    if e.widgets != [] then
      exists i: nat ::
        i < |e.widgets| && k == Key(home, WidgetOrigin(e.card, e.index, i)) && c == e.widgets[i].polled.(key := k)
    else
      e.visible && k == Key(home, MonitorOrigin(e.card, e.index)) && c == e.bare.(key := k)
  }

  /** `c` is what the objects found in this cycle call for under `k`. */
  ghost predicate Expected(x: Input, k: string, c: Card) {
    || (exists e :: e in x.entries && EntryBuilds(x.home, e, k, c))
    || (exists d :: d in x.discovered && k == Key(x.home, d.origin) && c == d.polled.(key := k))
    || (exists h ::
          h in x.headers && k == Key(x.home, HeaderOrigin(h.infoWidget, h.index)) && c == h.polled.(key := k))
  }

  lemma MarkedTaskPuts(key: string, task: Program, c: Card)
    ensures Has([Do(Mark(key)), Submit(task)], Put(c)) <==> Has(task, Put(c))
  {
    hide Has;
    OneActionHas(Mark(key), Put(c));
    OneSubmitHas(task, Put(c));
    AppendHas([Do(Mark(key))], [Submit(task)], Put(c));
    assert [Do(Mark(key))] + [Submit(task)] == [Do(Mark(key)), Submit(task)];
  }

  lemma {:induction false} FanOutPuts(home: string, e: Entry, i: nat, c: Card)
    requires i <= |e.widgets|
    ensures !Has(FanOut(home, e, i), Put(c))
    decreases |e.widgets| - i
  {
    hide Has, Key;
    if i == |e.widgets| {
      NothingHas(Put(c));
    } else {
      var key := Key(home, WidgetOrigin(e.card, e.index, i));
      var task := WidgetTask(key, e.widgets[i]);
      OneActionHas(task[0].action, Put(c));
      MarkedTaskPuts(key, task, c);
      FanOutPuts(home, e, i + 1, c);
      AppendHas([Do(Mark(key)), Submit(task)], FanOut(home, e, i + 1), Put(c));
    }
  }

  lemma EntryPuts(home: string, e: Entry, c: Card)
    ensures Has(EntryTask(home, e), Put(c)) ==> e.widgets == [] && EntryBuilds(home, e, c.key, c)
  {
    hide Has, Key, FanOut;
    var series := home + "/" + e.card + "/" + e.name;
    OneActionHas(Report((series, "http")), Put(c));
    OneActionHas(Report((series, "pods")), Put(c));
    NothingHas(Put(c));
    AppendHas(if e.http then [Do(Report((series, "http")))] else [],
              if e.pods then [Do(Report((series, "pods")))] else [], Put(c));
    FanOutPuts(home, e, 0, c);
    var key := Key(home, MonitorOrigin(e.card, e.index));
    var put := Put(WithKey(e.bare, key));
    OneActionHas(Mark(key), Put(c));
    OneActionHas(put, Put(c));
    AppendHas([Do(Mark(key))], [Do(put)], Put(c));
    assert [Do(Mark(key))] + [Do(put)] == [Do(Mark(key)), Do(put)];
    AppendHas(Probe(home, e),
              if e.widgets != [] then FanOut(home, e, 0) else if e.visible then [Do(Mark(key)), Do(put)] else [],
              Put(c));
  }

  lemma {:induction false} EntriesPuts(home: string, es: seq<Entry>, c: Card)
    requires Has(SubmitEntries(home, es), Put(c))
    ensures exists e :: e in es && EntryBuilds(home, e, c.key, c)
  {
    hide Has, EntryTask, EntryBuilds;
    NothingHas(Put(c));
    if es != [] {
      EntryPuts(home, es[0], c);
      OneSubmitHas(EntryTask(home, es[0]), Put(c));
      AppendHas([Submit(EntryTask(home, es[0]))], SubmitEntries(home, es[1..]), Put(c));
      if !Has(EntryTask(home, es[0]), Put(c)) {
        EntriesPuts(home, es[1..], c);
      }
    }
  }

  lemma {:induction false} HeadersPuts(home: string, hs: seq<HeaderPoll>, c: Card)
    ensures !Has(SubmitHeaders(home, hs), Put(c))
  {
    hide Has, Key;
    NothingHas(Put(c));
    if hs != [] {
      var key := Key(home, HeaderOrigin(hs[0].infoWidget, hs[0].index));
      var task := HeaderTask(key, hs[0]);
      OneActionHas(task[0].action, Put(c));
      MarkedTaskPuts(key, task, c);
      HeadersPuts(home, hs[1..], c);
      AppendHas([Do(Mark(key)), Submit(task)], SubmitHeaders(home, hs[1..]), Put(c));
    }
  }

  lemma PutsAreExpected(x: Input, c: Card)
    requires Put(c) in Left(Main(x))
    ensures Expected(x, c.key, c)
  {
    hide Left, SubmitEntries, SubmitDiscovered, SubmitHeaders, EntryBuilds, Key;
    MainLeft(x);
    HeadersPuts(x.home, x.headers, c);
    DiscoveredPuts(x.home, x.discovered, Put(c));
    assert Has(SubmitEntries(x.home, x.entries), Put(c)) <==> Put(c) in Left(SubmitEntries(x.home, x.entries));
    assert Has(SubmitHeaders(x.home, x.headers), Put(c)) <==> Put(c) in Left(SubmitHeaders(x.home, x.headers));
    if Has(SubmitEntries(x.home, x.entries), Put(c)) {
      EntriesPuts(x.home, x.entries, c);
    } else {
      assert Writer(Put(c)) && IsDiscovered(x.home, x.discovered, c.key, c);
    }
  }

  lemma OutcomesAreExpected(x: Input, a: Action)
    requires a.Due? && a in Left(Main(x))
    ensures Expected(x, a.key, a.outcome)
  {
    hide Left, Main, Key;
    DuesAreWidgets(x, a);
    if e :| e in x.entries && IsWidgetDue(x.home, e, 0, a) {
      assert EntryBuilds(x.home, e, a.key, a.outcome);
    }
  }

  /** Whatever a cycle builds is what its objects call for. */
  lemma BuiltIsExpected(x: Input, k: string, c: Card)
    requires Built(Left(Main(x)), k, c)
    ensures Expected(x, k, c)
  {
    hide Left, Main, Expected;
    if Put(c) in Left(Main(x)) && c.key == k {
      PutsAreExpected(x, c);
    } else {
      var a :| a in Left(Main(x)) && IsDueOf(a, k) && a.outcome == c;
      OutcomesAreExpected(x, a);
    }
  }

  /** The widget or header widget `o` of the input, its override and what its poll came to. */
  ghost predicate IsPolled(x: Input, o: Origin, override: Option<int>, polled: Card) {
    match o
    case WidgetOrigin(_, _, i) =>
      exists e :: e in x.entries && OfEntry(e, o) && i < |e.widgets| && e.widgets[i].override == override
        && e.widgets[i].polled == polled
    case HeaderOrigin(name, index) =>
      exists h :: h in x.headers && h.infoWidget == name && h.index == index && h.override == override
        && h.polled == polled
    case _ => false
  }

  lemma PolledIsPlain(x: Input, o: Origin, override: Option<int>, polled: Card)
    requires WellNamed(x) && IsPolled(x, o, override, polled)
    ensures PlainNames(x.home, o) && Polled(o)
  {
  }

  lemma OneEntry(x: Input, e: Entry, e': Entry)
    requires WellNamed(x) && e in x.entries && e' in x.entries && e.card == e'.card && e.index == e'.index
    ensures e == e'
  {
    var i :| 0 <= i < |x.entries| && x.entries[i] == e;
    var j :| 0 <= j < |x.entries| && x.entries[j] == e';
    assert i == j;
  }

  lemma OneHeader(x: Input, h: HeaderPoll, h': HeaderPoll)
    requires WellNamed(x) && h in x.headers && h' in x.headers && h.infoWidget == h'.infoWidget && h.index == h'.index
    ensures h == h'
  {
    var i :| 0 <= i < |x.headers| && x.headers[i] == h;
    var j :| 0 <= j < |x.headers| && x.headers[j] == h';
    assert i == j;
  }

  /** There is one due check for a polled card, and it asks with the card's own override. */
  lemma PolledIsAsked(x: Input, o: Origin, override: Option<int>, polled: Card) returns (due: Action)
    requires WellNamed(x) && IsPolled(x, o, override, polled)
    ensures due in Left(Main(x)) && IsDueOf(due, Key(x.home, o)) && OneDue(Left(Main(x)), Key(x.home, o))
    ensures due.override == override
  {
    var k := Key(x.home, o);
    EveryKeyHasOneDue(x, k);
    hide Left, Main, Key, OneDue, WellNamed;
    if o.WidgetOrigin? {
      var e :| e in x.entries && OfEntry(e, o) && o.widget < |e.widgets| && e.widgets[o.widget].override == override
                && e.widgets[o.widget].polled == polled;
      var w := e.widgets[o.widget];
      due := Due(k, override, polled.(key := k), Some(w.refresh.(blank := w.refresh.blank.(key := k))));
      assert IsCheckOf(Key(x.home, WidgetOrigin(e.card, e.index, o.widget)), w, due);
      assert IsWidgetDue(x.home, e, 0, due);
    } else {
      var h :| h in x.headers && h.infoWidget == o.infoWidget && h.index == o.index && h.override == override
                && h.polled == polled;
      due := Due(k, override, polled.(key := k), None);
      assert IsHeaderDue(x.home, h, due);
    }
    DuesAreWidgets(x, due);
  }

  /** What is expected under the key of a polled card that no route takes is that card. */
  lemma ExpectedIsOwn(x: Input, o: Origin, override: Option<int>, polled: Card, c: Card)
    requires WellNamed(x) && IsPolled(x, o, override, polled) && Clear(x, o) && Expected(x, Key(x.home, o), c)
    ensures c == polled.(key := Key(x.home, o))
  {
    PolledIsPlain(x, o, override, polled);
    hide Key;
    var k := Key(x.home, o);
    if e :| e in x.entries && EntryBuilds(x.home, e, k, c) {
      if e.widgets != [] {
        var i: nat :| i < |e.widgets| && k == Key(x.home, WidgetOrigin(e.card, e.index, i))
                      && c == e.widgets[i].polled.(key := k);
        KeysClash(x.home, WidgetOrigin(e.card, e.index, i), o);
        var e' :| e' in x.entries && OfEntry(e', o) && o.widget < |e'.widgets| && e'.widgets[o.widget].polled == polled;
        OneEntry(x, e, e');
      } else {
        KeysClash(x.home, MonitorOrigin(e.card, e.index), o);
      }
    } else if d :| d in x.discovered && k == Key(x.home, d.origin) && c == d.polled.(key := k) {
      KeysClash(x.home, o, d.origin);
    } else {
      var h :| h in x.headers && k == Key(x.home, HeaderOrigin(h.infoWidget, h.index)) && c == h.polled.(key := k);
      KeysClash(x.home, HeaderOrigin(h.infoWidget, h.index), o);
      var h' :| h' in x.headers && h'.infoWidget == o.infoWidget && h'.index == o.index && h'.polled == polled;
      OneHeader(x, h, h');
    }
  }

  /** The same for an entry that has only a monitor, whose key nobody asks about. */
  lemma ExpectedIsBare(x: Input, e: Entry, c: Card)
    requires WellNamed(x) && e in x.entries && e.widgets == [] && Clear(x, MonitorOrigin(e.card, e.index))
    requires Expected(x, Key(x.home, MonitorOrigin(e.card, e.index)), c)
    ensures c == e.bare.(key := Key(x.home, MonitorOrigin(e.card, e.index)))
  {
    hide Key;
    var o := MonitorOrigin(e.card, e.index);
    var k := Key(x.home, o);
    if e' :| e' in x.entries && EntryBuilds(x.home, e', k, c) {
      if e'.widgets != [] {
        var i: nat :| i < |e'.widgets| && k == Key(x.home, WidgetOrigin(e'.card, e'.index, i));
        KeysClash(x.home, WidgetOrigin(e'.card, e'.index, i), o);
      } else {
        KeysClash(x.home, MonitorOrigin(e'.card, e'.index), o);
        OneEntry(x, e, e');
      }
    } else if d :| d in x.discovered && k == Key(x.home, d.origin) && c == d.polled.(key := k) {
      KeysClash(x.home, o, d.origin);
    } else {
      var h :| h in x.headers && k == Key(x.home, HeaderOrigin(h.infoWidget, h.index)) && c == h.polled.(key := k);
      KeysClash(x.home, HeaderOrigin(h.infoWidget, h.index), o);
    }
  }

  lemma NobodyAsksAboutBare(x: Input, e: Entry, a: Action)
    requires WellNamed(x) && e in x.entries && a.Due? && a in Left(Main(x))
    ensures a.key != Key(x.home, MonitorOrigin(e.card, e.index))
  {
    hide Left, Main, Key;
    var o := DueHasOrigin(x, a);
    KeysClash(x.home, o, MonitorOrigin(e.card, e.index));
  }

  /** And for a discovered service: its key is its own, unless it is a route and the
      Dashboard lives in a namespace called "discovery". */
  lemma ExpectedIsDiscovered(x: Input, d: Discovered, c: Card)
    requires WellNamed(x) && d in x.discovered && (d.origin.IngressOrigin? || x.home != "discovery")
    requires forall d' :: d' in x.discovered && d'.origin == d.origin ==> d' == d
    requires Expected(x, Key(x.home, d.origin), c)
    ensures c == d.polled.(key := Key(x.home, d.origin))
  {
    hide Key;
    var k := Key(x.home, d.origin);
    if e :| e in x.entries && EntryBuilds(x.home, e, k, c) {
      if e.widgets != [] {
        var i: nat :| i < |e.widgets| && k == Key(x.home, WidgetOrigin(e.card, e.index, i));
        KeysClash(x.home, WidgetOrigin(e.card, e.index, i), d.origin);
      } else {
        KeysClash(x.home, MonitorOrigin(e.card, e.index), d.origin);
      }
    } else if d' :| d' in x.discovered && k == Key(x.home, d'.origin) && c == d'.polled.(key := k) {
      KeysClash(x.home, d.origin, d'.origin);
    } else {
      var h :| h in x.headers && k == Key(x.home, HeaderOrigin(h.infoWidget, h.index)) && c == h.polled.(key := k);
      KeysClash(x.home, HeaderOrigin(h.infoWidget, h.index), d.origin);
    }
  }

  lemma NobodyAsksAboutDiscovered(x: Input, d: Discovered, a: Action)
    requires WellNamed(x) && d in x.discovered && (d.origin.IngressOrigin? || x.home != "discovery")
    requires a.Due? && a in Left(Main(x))
    ensures a.key != Key(x.home, d.origin)
  {
    hide Left, Main, Key;
    var o := DueHasOrigin(x, a);
    KeysClash(x.home, o, d.origin);
  }

  // ------------------------------------------- which cards and series to expect

  ghost predicate EntryHasCard(home: string, e: Entry, k: string) {
    if e.widgets != [] then exists i: nat :: i < |e.widgets| && k == Key(home, WidgetOrigin(e.card, e.index, i))
    else e.visible && k == Key(home, MonitorOrigin(e.card, e.index))
  }

  /** `k` is the key of a card the page should show: one for each widget of an entry,
      or one for an entry that has no widget but a status; one for each discovered
      service; one for each pollable header widget. */
  ghost predicate ShouldShow(x: Input, k: string) {
    || (exists e :: e in x.entries && EntryHasCard(x.home, e, k))
    || (exists d :: d in x.discovered && k == Key(x.home, d.origin))
    || (exists h :: h in x.headers && k == Key(x.home, HeaderOrigin(h.infoWidget, h.index)))
  }

  ghost predicate EntryHasSeries(home: string, e: Entry, p: Series) {
    p.0 == home + "/" + e.card + "/" + e.name && ((e.http && p.1 == "http") || (e.pods && p.1 == "pods"))
  }

  /** `p` is a series some monitor reported. */
  ghost predicate WasProbed(x: Input, p: Series) {
    || (exists e :: e in x.entries && EntryHasSeries(x.home, e, p))
    || (exists d :: d in x.discovered && d.monitored && p == ("discovery/" + Key(x.home, d.origin), "http"))
  }

  ghost predicate Marks(body: Program, k: string) { k in MarkKeys(Left(body)) }

  ghost predicate Reports(body: Program, p: Series) { p in Reported(Left(body)) }

  lemma NothingAtAll(k: string, p: Series)
    ensures !Marks([], k) && !Reports([], p)
  {
  }

  lemma AppendMarks(a: Program, b: Program, k: string, p: Series)
    ensures Marks(a + b, k) <==> Marks(a, k) || Marks(b, k)
    ensures Reports(a + b, p) <==> Reports(a, p) || Reports(b, p)
  {
    LeftAppend(a, b);
    var x, y := Left(a), Left(b);
    assert forall z :: z in x + y <==> z in x || z in y;
  }

  lemma OneActionMarks(a: Action, k: string, p: Series)
    ensures Marks([Do(a)], k) <==> a == Mark(k)
    ensures Reports([Do(a)], p) <==> a == Report(p)
  {
    LeftOfDo(a);
  }

  lemma OneSubmitMarks(task: Program, k: string, p: Series)
    ensures Marks([Submit(task)], k) <==> Marks(task, k)
    ensures Reports([Submit(task)], p) <==> Reports(task, p)
  {
    LeftOfSubmit(task);
  }

  lemma MarkedTaskMarks(key: string, task: Program, k: string, p: Series)
    ensures Marks([Do(Mark(key)), Submit(task)], k) <==> key == k || Marks(task, k)
    ensures Reports([Do(Mark(key)), Submit(task)], p) <==> Reports(task, p)
  {
    hide Marks, Reports;
    OneActionMarks(Mark(key), k, p);
    OneSubmitMarks(task, k, p);
    AppendMarks([Do(Mark(key))], [Submit(task)], k, p);
    assert [Do(Mark(key))] + [Submit(task)] == [Do(Mark(key)), Submit(task)];
  }

  lemma ProbeMarks(home: string, e: Entry, k: string, p: Series)
    ensures !Marks(Probe(home, e), k)
    ensures Reports(Probe(home, e), p) <==> EntryHasSeries(home, e, p)
  {
    hide Marks, Reports;
    var series := home + "/" + e.card + "/" + e.name;
    NothingAtAll(k, p);
    OneActionMarks(Report((series, "http")), k, p);
    OneActionMarks(Report((series, "pods")), k, p);
    AppendMarks(if e.http then [Do(Report((series, "http")))] else [],
                if e.pods then [Do(Report((series, "pods")))] else [], k, p);
  }

  lemma {:induction false} FanOutMarks(home: string, e: Entry, i: nat, k: string, p: Series)
    requires i <= |e.widgets|
    ensures Marks(FanOut(home, e, i), k) <==>
      exists j: nat :: i <= j < |e.widgets| && k == Key(home, WidgetOrigin(e.card, e.index, j))
    ensures !Reports(FanOut(home, e, i), p)
    decreases |e.widgets| - i
  {
    hide Marks, Reports, Key;
    if i == |e.widgets| {
      NothingAtAll(k, p);
    } else {
      var key := Key(home, WidgetOrigin(e.card, e.index, i));
      var task := WidgetTask(key, e.widgets[i]);
      OneActionMarks(task[0].action, k, p);
      MarkedTaskMarks(key, task, k, p);
      FanOutMarks(home, e, i + 1, k, p);
      AppendMarks([Do(Mark(key)), Submit(task)], FanOut(home, e, i + 1), k, p);
    }
  }

  lemma EntryMarks(home: string, e: Entry, k: string, p: Series)
    ensures Marks(EntryTask(home, e), k) <==> EntryHasCard(home, e, k)
    ensures Reports(EntryTask(home, e), p) <==> EntryHasSeries(home, e, p)
  {
    hide Marks, Reports, Key, Probe, FanOut, EntryHasSeries;
    ProbeMarks(home, e, k, p);
    FanOutMarks(home, e, 0, k, p);
    NothingAtAll(k, p);
    var key := Key(home, MonitorOrigin(e.card, e.index));
    var put := Put(WithKey(e.bare, key));
    OneActionMarks(Mark(key), k, p);
    OneActionMarks(put, k, p);
    AppendMarks([Do(Mark(key))], [Do(put)], k, p);
    assert [Do(Mark(key))] + [Do(put)] == [Do(Mark(key)), Do(put)];
    var rest := if e.widgets != [] then FanOut(home, e, 0) else if e.visible then [Do(Mark(key)), Do(put)] else [];
    AppendMarks(Probe(home, e), rest, k, p);
  }

  lemma {:induction false} EntriesMark(home: string, es: seq<Entry>, k: string, p: Series)
    ensures Marks(SubmitEntries(home, es), k) <==> exists e :: e in es && EntryHasCard(home, e, k)
    ensures Reports(SubmitEntries(home, es), p) <==> exists e :: e in es && EntryHasSeries(home, e, p)
  {
    hide Marks, Reports, EntryTask, EntryHasCard, EntryHasSeries;
    if es == [] {
      NothingAtAll(k, p);
    } else {
      EntryMarks(home, es[0], k, p);
      OneSubmitMarks(EntryTask(home, es[0]), k, p);
      EntriesMark(home, es[1..], k, p);
      AppendMarks([Submit(EntryTask(home, es[0]))], SubmitEntries(home, es[1..]), k, p);
      assert forall e :: e in es <==> e == es[0] || e in es[1..];
    }
  }

  lemma {:induction false} DiscoveredMark(home: string, ds: seq<Discovered>, k: string, p: Series)
    ensures Marks(SubmitDiscovered(home, ds), k) <==> exists d :: d in ds && k == Key(home, d.origin)
    ensures Reports(SubmitDiscovered(home, ds), p) <==>
      exists d :: d in ds && d.monitored && p == ("discovery/" + Key(home, d.origin), "http")
  {
    hide Marks, Reports, Key;
    NothingAtAll(k, p);
    if ds != [] {
      var key := Key(home, ds[0].origin);
      var report := Report(("discovery/" + key, "http"));
      var put := Put(WithKey(ds[0].polled, key));
      OneActionMarks(report, k, p);
      OneActionMarks(put, k, p);
      AppendMarks(if ds[0].monitored then [Do(report)] else [], [Do(put)], k, p);
      MarkedTaskMarks(key, DiscoveredTask(key, ds[0]), k, p);
      DiscoveredMark(home, ds[1..], k, p);
      AppendMarks([Do(Mark(key)), Submit(DiscoveredTask(key, ds[0]))], SubmitDiscovered(home, ds[1..]), k, p);
      assert forall d :: d in ds <==> d == ds[0] || d in ds[1..];
    }
  }

  lemma {:induction false} HeadersMark(home: string, hs: seq<HeaderPoll>, k: string, p: Series)
    ensures Marks(SubmitHeaders(home, hs), k) <==>
      exists h :: h in hs && k == Key(home, HeaderOrigin(h.infoWidget, h.index))
    ensures !Reports(SubmitHeaders(home, hs), p)
  {
    hide Marks, Reports, Key;
    NothingAtAll(k, p);
    if hs != [] {
      var key := Key(home, HeaderOrigin(hs[0].infoWidget, hs[0].index));
      var task := HeaderTask(key, hs[0]);
      OneActionMarks(task[0].action, k, p);
      MarkedTaskMarks(key, task, k, p);
      HeadersMark(home, hs[1..], k, p);
      AppendMarks([Do(Mark(key)), Submit(task)], SubmitHeaders(home, hs[1..]), k, p);
      assert forall h :: h in hs <==> h == hs[0] || h in hs[1..];
    }
  }

  /** The cycle marks a key exactly when its card should be shown, and reports a series
      exactly when a monitor of it did. */
  lemma MainMarks(x: Input, k: string, p: Series)
    ensures k in MarkKeys(Left(Main(x))) <==> ShouldShow(x, k)
    ensures p in Reported(Left(Main(x))) <==> WasProbed(x, p)
  {
    assert k in MarkKeys(Left(Main(x))) <==> Marks(Main(x), k);
    assert p in Reported(Left(Main(x))) <==> Reports(Main(x), p);
    hide Marks, Reports, Key, EntryHasCard, EntryHasSeries;
    EntriesMark(x.home, x.entries, k, p);
    DiscoveredMark(x.home, x.discovered, k, p);
    HeadersMark(x.home, x.headers, k, p);
    var es, ds, hs := SubmitEntries(x.home, x.entries), SubmitDiscovered(x.home, x.discovered),
      SubmitHeaders(x.home, x.headers);
    AppendMarks(ds, hs, k, p);
    AppendMarks(es, ds + hs, k, p);
  }
}
