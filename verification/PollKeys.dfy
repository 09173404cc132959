/** The keys cards are stored under: one string per widget, monitor, header widget and
    discovered service, built by joining names with slashes. */
module PollKeys {
  import opened Text

  datatype Origin =
    | WidgetOrigin(card: string, entry: nat, widget: nat)
    | MonitorOrigin(card: string, entry: nat)
    | HeaderOrigin(infoWidget: string, index: nat)
    | IngressOrigin(namespace: string, name: string)
    | RouteOrigin(namespace: string, name: string)

  lemma DecimalIsInjective(m: nat, n: nat)
    requires Decimal(m) == Decimal(n)
    ensures m == n
  {
    DecimalValue(m);
    DecimalValue(n);
  }

  /** The parts of a key. `home` is the Dashboard's namespace, where cards and header
      widgets live. */
  function Parts(home: string, o: Origin): seq<string> {
    match o
    case WidgetOrigin(card, entry, widget) => [home, card, Decimal(entry), Decimal(widget)]
    case MonitorOrigin(card, entry) => [home, card, Decimal(entry), "monitor"]
    case HeaderOrigin(infoWidget, index) => ["header", infoWidget, Decimal(index)]
    case IngressOrigin(namespace, name) => ["discovery", namespace, name]
    case RouteOrigin(namespace, name) => ["discovery", "httproute", namespace, name]
  }

  function Key(home: string, o: Origin): string {
    Join(Parts(home, o), '/')
  }

  /** Names of Kubernetes objects have no slash. */
  predicate PlainNames(home: string, o: Origin) {
    && '/' !in home
    && match o
       case WidgetOrigin(card, _, _) => '/' !in card
       case MonitorOrigin(card, _) => '/' !in card
       case HeaderOrigin(infoWidget, _) => '/' !in infoWidget
       case IngressOrigin(namespace, name) => '/' !in namespace && '/' !in name
       case RouteOrigin(namespace, name) => '/' !in namespace && '/' !in name
  }

  /** An HTTPRoute in a namespace named like a number, seen from a Dashboard in a
      namespace called "discovery" that has a ServiceCard called "httproute". */
  predicate Clash(home: string, card: Origin, route: Origin) {
    && route.RouteOrigin? && home == "discovery"
    && match card
       case WidgetOrigin(name, entry, widget) =>
         name == "httproute" && route.namespace == Decimal(entry) && route.name == Decimal(widget)
       case MonitorOrigin(name, entry) =>
         name == "httproute" && route.namespace == Decimal(entry) && route.name == "monitor"
       case _ => false
  }

  lemma PartsArePlain(home: string, o: Origin)
    requires PlainNames(home, o)
    ensures forall p :: p in Parts(home, o) ==> '/' !in p
  {
    match o
    case WidgetOrigin(_, _, _) =>
    case MonitorOrigin(_, _) =>
    case HeaderOrigin(_, _) =>
    case IngressOrigin(_, _) =>
    case RouteOrigin(_, _) =>
  }

  lemma DecimalIsNotMonitor(n: nat)
    ensures Decimal(n) != "monitor"
  {
    assert "monitor"[0] == 'm';
  }

  lemma SameParts(home: string, a: Origin, b: Origin)
    requires Parts(home, a) == Parts(home, b)
    ensures a == b || Clash(home, a, b) || Clash(home, b, a)
  {
    var p := Parts(home, a);
    assert p[|p| - 1] == Parts(home, b)[|p| - 1] && p[0] == Parts(home, b)[0];
    assert p[1] == Parts(home, b)[1] && p[2] == Parts(home, b)[2];
    match (a, b)
    case (WidgetOrigin(_, e, w), WidgetOrigin(_, e', w')) =>
      DecimalIsInjective(e, e');
      DecimalIsInjective(w, w');
    case (MonitorOrigin(_, e), MonitorOrigin(_, e')) =>
      DecimalIsInjective(e, e');
    case (HeaderOrigin(_, i), HeaderOrigin(_, i')) =>
      DecimalIsInjective(i, i');
    case (WidgetOrigin(_, _, w), MonitorOrigin(_, _)) =>
      DecimalIsNotMonitor(w);
    case (MonitorOrigin(_, _), WidgetOrigin(_, _, w)) =>
      DecimalIsNotMonitor(w);
    case (_, _) =>
  }

  /** Two cards share a key exactly when they are the same card, or one is a discovered
      HTTPRoute that looks like a card of the other's ServiceCard. */
  lemma KeysClash(home: string, a: Origin, b: Origin)
    requires PlainNames(home, a) && PlainNames(home, b)
    ensures Key(home, a) == Key(home, b) <==> a == b || Clash(home, a, b) || Clash(home, b, a)
  {
    PartsArePlain(home, a);
    PartsArePlain(home, b);
    SplitUndoesJoin(Parts(home, a), '/');
    SplitUndoesJoin(Parts(home, b), '/');
    if Key(home, a) == Key(home, b) {
      SameParts(home, a, b);
    }
  }

  /** The five kinds of keys, as text. */
  lemma KeysRead(home: string, a: string, b: string, i: nat, j: nat)
    ensures Key(home, WidgetOrigin(a, i, j)) == home + "/" + a + "/" + Decimal(i) + "/" + Decimal(j)
    ensures Key(home, MonitorOrigin(a, i)) == home + "/" + a + "/" + Decimal(i) + "/" + "monitor"
    ensures Key(home, HeaderOrigin(a, i)) == "header" + "/" + a + "/" + Decimal(i)
    ensures Key(home, IngressOrigin(a, b)) == "discovery" + "/" + a + "/" + b
    ensures Key(home, RouteOrigin(a, b)) == "discovery" + "/" + "httproute" + "/" + a + "/" + b
  {
    hide Decimal;
    JoinFour(home, a, Decimal(i), Decimal(j));
    JoinFour(home, a, Decimal(i), "monitor");
    JoinThree("header", a, Decimal(i));
    JoinThree("discovery", a, b);
    JoinFour("discovery", "httproute", a, b);
  }

  lemma JoinThree(a: string, b: string, c: string)
    ensures Join([a, b, c], '/') == a + "/" + b + "/" + c
  {
    assert [a, b, c][1..] == [b, c] && [b, c][1..] == [c];
    assert Join([b, c], '/') == b + "/" + c;
  }

  lemma JoinFour(a: string, b: string, c: string, d: string)
    ensures Join([a, b, c, d], '/') == a + "/" + b + "/" + c + "/" + d
  {
    assert [a, b, c, d][1..] == [b, c, d];
    JoinThree(b, c, d);
  }
}
