/** The Secrets a dashboard pod may read, and the Secrets it does read.

    The controller computes the first when it writes the pod's Role; the poller in
    the pod decides the second widget by widget, including what it fills in from
    the Dashboard's widget defaults. Both look at the same objects with separate
    code. */
module SecretGrants {
  import opened Ordering
  import opened Binding

  /** A literal value, a key of the named Secret, or, by mistake, neither. */
  datatype Source = Inline(text: string) | KeyRef(secret: string, key: string) | Unset

  datatype Widget = Widget(kind: string, secrets: map<string, Source>, secretRef: Option<string>,
    caCert: Option<Source>)

  datatype Defaults = Defaults(secrets: map<string, Source>, caCert: Option<Source>)

  datatype ServiceCard = ServiceCard(ref: string, entries: seq<seq<Widget>>)

  datatype InfoWidget = InfoWidget(ref: string, widgets: seq<Widget>)

  /** What both sides read: one namespace, seen for one Dashboard. */
  datatype Snapshot = Snapshot(
    dashboard: string,
    dashboards: nat,
    cards: seq<ServiceCard>,
    infoWidgets: seq<InfoWidget>,
    defaults: map<string, Defaults>,
    labeledOnly: bool,               // spec.secretPolicy: Labeled
    labeled: set<string>,            // existing Secrets that carry the allow-widgets label
    authSecret: Option<string>)
  {
    predicate Bound(ref: string) {
      BoundTo(ref, dashboard, dashboards)
    }
  }

  function SourceNames(src: Source): set<string> {
    if src.KeyRef? then {src.secret} else {}
  }

  function OptionalNames(src: Option<Source>): set<string> {
    if src.Some? then SourceNames(src.value) else {}
  }

  function MapNames(secrets: map<string, Source>): set<string> {
    set field, n | field in secrets && n in SourceNames(secrets[field]) :: n
  }

  // ---------------------------------------------------------------- the pod

  /** `mergeWidgetSecrets`: defaults fill gaps, the widget's own value wins. */
  function MergeWidgetSecrets(kind: string, secrets: map<string, Source>, caCert: Option<Source>,
                              defaults: map<string, Defaults>)
    : (map<string, Source>, Option<Source>)
  {
    if kind !in defaults then (secrets, caCert)
    else
      (defaults[kind].secrets + secrets, if caCert.None? then defaults[kind].caCert else caCert)
  }

  /** What `mergeWidgetSecrets` makes of no secrets at all and the widget's CA. */
  function DefaultSecrets(w: Widget, defaults: map<string, Defaults>): map<string, Source> {
    if w.kind in defaults then defaults[w.kind].secrets else map[]
  }

  function CaOf(w: Widget, defaults: map<string, Defaults>): Option<Source> {
    if w.caCert.Some? then w.caCert else if w.kind in defaults then defaults[w.kind].caCert else None
  }

  /** Every Secret the poll of a widget may get; `ca` tells whether it uses its CA. */
  function Needs(w: Widget, defaults: map<string, Defaults>, ca: bool): set<string> {
    MapNames(DefaultSecrets(w, defaults))
    + (if w.secretRef.Some? then {w.secretRef.value} else {})
    + MapNames(w.secrets)
    + (if ca then OptionalNames(CaOf(w, defaults)) else {})
  }

  /** The Secrets of the namespace, each a map from key to content. */
  type Secrets = map<string, map<string, string>>

  /** `resolveSecret`, where every get of an existing Secret is allowed. */
  function Resolved(cluster: Secrets, src: Source): Option<string> {
    match src
    case Inline(text) => Some(text)
    case KeyRef(secret, key) =>
      if secret in cluster && key in cluster[secret] then Some(cluster[secret][key]) else None
    case Unset => None
  }

  ghost predicate AllResolve(cluster: Secrets, secrets: map<string, Source>) {
    forall f :: f in secrets ==> Resolved(cluster, secrets[f]).Some?
  }

  /** Everything referenced is there: the poll gets as far as the network. `ca` tells
      whether it needs its CA. */
  ghost predicate Resolves(w: Widget, defaults: map<string, Defaults>, cluster: Secrets, ca: bool) {
    && AllResolve(cluster, DefaultSecrets(w, defaults))
    && (w.secretRef.Some? ==> w.secretRef.value in cluster)
    && AllResolve(cluster, w.secrets)
    && (ca && CaOf(w, defaults).Some? ==> Resolved(cluster, CaOf(w, defaults).value).Some?)
  }

  /** The value of a secret field, for a poll that resolves. */
  ghost function FieldOf(w: Widget, defaults: map<string, Defaults>, cluster: Secrets, field: string): Option<string> {
    if field in w.secrets then Resolved(cluster, w.secrets[field])
    else if w.secretRef.Some? && w.secretRef.value in cluster && field in cluster[w.secretRef.value] then
      Some(cluster[w.secretRef.value][field])
    else if field in DefaultSecrets(w, defaults) then Resolved(cluster, DefaultSecrets(w, defaults)[field])
    else None
  }

  ghost function CaText(w: Widget, defaults: map<string, Defaults>, cluster: Secrets): Option<string> {
    if CaOf(w, defaults).Some? then Resolved(cluster, CaOf(w, defaults).value) else None
  }

  /** A value, or a key that is there to be read. */
  ghost predicate IsThere(cluster: Secrets, src: Source) {
    src.Inline? || (src.KeyRef? && src.secret in cluster && src.key in cluster[src.secret])
  }

  /** A poll resolves if and only if everything is there: what the widget names, what the
      defaults of its type name, and the CA of the widget or else of the defaults. */
  lemma ResolvesIfAllIsThere(w: Widget, defaults: map<string, Defaults>, cluster: Secrets, ca: bool)
    ensures Resolves(w, defaults, cluster, ca) <==>
      && (forall f :: f in w.secrets ==> IsThere(cluster, w.secrets[f]))
      && (w.secretRef.Some? ==> w.secretRef.value in cluster)
      && (w.kind in defaults ==>
            forall f :: f in defaults[w.kind].secrets ==> IsThere(cluster, defaults[w.kind].secrets[f]))
      && (ca && w.caCert.Some? ==> IsThere(cluster, w.caCert.value))
      && (ca && w.caCert.None? && w.kind in defaults && defaults[w.kind].caCert.Some? ==>
            IsThere(cluster, defaults[w.kind].caCert.value))
  {
    hide IsThere, Resolved;
    forall src ensures Resolved(cluster, src).Some? <==> IsThere(cluster, src) {
      ResolvedIfThere(cluster, src);
    }
  }

  lemma ResolvedIfThere(cluster: Secrets, src: Source)
    ensures Resolved(cluster, src).Some? <==> IsThere(cluster, src)
  {
  }

  /** Merging with the defaults fills gaps and changes nothing the widget has. */
  lemma MergeFillsGaps(kind: string, secrets: map<string, Source>, caCert: Option<Source>,
                       defaults: map<string, Defaults>, field: string)
    ensures
      var (fields, ca) := MergeWidgetSecrets(kind, secrets, caCert, defaults);
      var byDefault := kind in defaults && field in defaults[kind].secrets;
      && (field in fields <==> field in secrets || byDefault)
      && (field in secrets ==> fields[field] == secrets[field])
      && (field !in secrets && byDefault ==> fields[field] == defaults[kind].secrets[field])
      && (caCert.Some? ==> ca == caCert)
      && (caCert.None? ==> ca == if kind in defaults then defaults[kind].caCert else None)
  {
  }

  /** The widget's own secrets win over its secretRef, and that over the defaults; a
      reference gives what the Secret holds under the key. */
  lemma FieldsByPrecedence(w: Widget, defaults: map<string, Defaults>, cluster: Secrets, field: string)
    requires Resolves(w, defaults, cluster, false)
    ensures
      var value := FieldOf(w, defaults, cluster, field);
      var byRef := w.secretRef.Some? && field in cluster[w.secretRef.value];
      var byDefault := w.kind in defaults && field in defaults[w.kind].secrets;
      && (field in w.secrets && w.secrets[field].Inline? ==> value == Some(w.secrets[field].text))
      && (field in w.secrets && w.secrets[field].KeyRef? ==>
            var src := w.secrets[field];
            src.secret in cluster && src.key in cluster[src.secret] && value == Some(cluster[src.secret][src.key]))
      && (field !in w.secrets && byRef ==> value == Some(cluster[w.secretRef.value][field]))
      && (field !in w.secrets && !byRef && byDefault ==>
            var src := defaults[w.kind].secrets[field];
            && (src.Inline? ==> value == Some(src.text))
            && (src.KeyRef? ==>
                  && src.secret in cluster && src.key in cluster[src.secret]
                  && value == Some(cluster[src.secret][src.key])))
      && (field !in w.secrets && !byRef && !byDefault ==> value.None?)
  {
  }

  /** A source looks into the Secrets it names and into no other. */
  lemma ResolvedIsLocal(cluster: Secrets, cluster': Secrets, src: Source)
    requires forall n :: n in SourceNames(src) ==>
      (n in cluster <==> n in cluster') && (n in cluster ==> cluster[n] == cluster'[n])
    ensures Resolved(cluster, src) == Resolved(cluster', src)
  {
  }

  /** And it needs each of them: without one it does not resolve. */
  lemma ResolvedNeedsItsSecrets(cluster: Secrets, src: Source, name: string)
    requires name in SourceNames(src)
    ensures Resolved(cluster - {name}, src).None?
  {
  }

  /** One of the two loops over a map of sources; `read` collects the Secrets asked for. */
  method ResolveInto(cluster: Secrets, secrets: map<string, Source>, fields: map<string, string>, read: set<string>)
    returns (ok: bool, r: map<string, string>, read': set<string>)
    ensures ok <==> AllResolve(cluster, secrets)
    ensures ok ==> r.Keys == fields.Keys + secrets.Keys
    ensures ok ==> forall f :: f in secrets ==> f in r && Some(r[f]) == Resolved(cluster, secrets[f])
    ensures ok ==> forall f :: f in fields && f !in secrets ==> f in r && r[f] == fields[f]
    ensures read' <= read + MapNames(secrets)
  {
    r, read' := fields, read;
    var todo := secrets.Keys;
    while todo != {}
      invariant todo <= secrets.Keys
      invariant r.Keys == fields.Keys + (secrets.Keys - todo)
      invariant forall f :: f in secrets && f !in todo ==> f in r && Some(r[f]) == Resolved(cluster, secrets[f])
      invariant forall f :: f in fields && (f in todo || f !in secrets) ==> r[f] == fields[f]
      invariant read' <= read + MapNames(secrets)
      decreases todo
    {
      var f :| f in todo;
      todo := todo - {f};
      assert SourceNames(secrets[f]) <= MapNames(secrets);
      read' := read' + SourceNames(secrets[f]);
      var value := Resolved(cluster, secrets[f]);
      if value.None? {
        return false, r, read';
      }
      r := r[f := value.value];
    }
    ok := true;
  }

  /** `resolveWidgetSecrets`. It succeeds exactly when everything that is referenced
      exists. Then each field has the widget's own value, or else the one of the
      secretRef, or else the default; and the CA is the widget's own, or else the
      default. Whatever happens it asks for no Secret outside `Needs`. */
  method ResolveWidgetSecrets(w: Widget, defaults: map<string, Defaults>, cluster: Secrets)
    returns (fields: Option<map<string, string>>, caCert: Option<Source>, read: set<string>)
    ensures fields.Some? <==> Resolves(w, defaults, cluster, false)
    ensures fields.Some? ==>
      forall f :: (if f in fields.value then Some(fields.value[f]) else None) == FieldOf(w, defaults, cluster, f)
    ensures fields.Some? ==> caCert == CaOf(w, defaults)
    ensures read + (if fields.Some? then OptionalNames(caCert) else {}) <= Needs(w, defaults, true)
  {
    var filled, ca := MergeWidgetSecrets(w.kind, map[], w.caCert, defaults).0,
      MergeWidgetSecrets(w.kind, map[], w.caCert, defaults).1;
    assert w.kind in defaults ==> filled == defaults[w.kind].secrets;
    fields, caCert := None, None;
    var ok, found;
    ok, found, read := ResolveInto(cluster, filled, map[], {});
    if !ok { return; }
    if w.secretRef.Some? {
      read := read + {w.secretRef.value};
      if w.secretRef.value !in cluster { return; }
      found := found + cluster[w.secretRef.value];
    }
    ok, found, read := ResolveInto(cluster, w.secrets, found, read);
    if !ok { return; }
    fields, caCert := Some(found), ca;
  }

  /** What the pod's image can do: the widget types it implements, and those among them
      that ask the Kubernetes API instead of an HTTP server. */
  datatype Image = Image(registered: set<string>, clusterBacked: set<string>)

  ghost predicate OnCard(s: Snapshot, w: Widget) {
    exists c, e :: c in s.cards && Claims(Some(c.ref), s.dashboard, s.dashboards) && e in c.entries && w in e
  }

  ghost predicate InHeader(s: Snapshot, w: Widget) {
    exists i :: i in s.infoWidgets && Claims(Some(i.ref), s.dashboard, s.dashboards) && w in i.widgets
  }

  /** Whether the poll of this widget uses a CA: not if it is a header widget that asks the
      Kubernetes API. */
  predicate UsesCa(w: Widget, inHeader: bool, image: Image) {
    !inHeader || w.kind !in image.clusterBacked
  }

  /** The pod polls the widgets of bound ServiceCards and of bound InfoWidgets whose type
      it implements; a Secret is readable if polling one of them can get to it. */
  ghost predicate Readable(s: Snapshot, image: Image, name: string) {
    || (exists w :: OnCard(s, w) && w.kind in image.registered && name in Needs(w, s.defaults, true))
    || (exists w :: InHeader(s, w) && w.kind in image.registered
          && name in Needs(w, s.defaults, UsesCa(w, true, image)))
  }

  // --------------------------------------------------------- the controller

  function WidgetNames(w: Widget): set<string> {
    MapNames(w.secrets) + (if w.secretRef.Some? then {w.secretRef.value} else {}) + OptionalNames(w.caCert)
  }

  function WidgetsNames(widgets: seq<Widget>): set<string> {
    set w, n | w in widgets && n in WidgetNames(w) :: n
  }

  function EntriesNames(entries: seq<seq<Widget>>): set<string> {
    set e, n | e in entries && n in WidgetsNames(e) :: n
  }

  function CardsNames(s: Snapshot, cards: seq<ServiceCard>): set<string> {
    set c, n | c in cards && s.Bound(c.ref) && n in EntriesNames(c.entries) :: n
  }

  function InfoNames(s: Snapshot, infoWidgets: seq<InfoWidget>): set<string> {
    set i, n | i in infoWidgets && s.Bound(i.ref) && n in WidgetsNames(i.widgets) :: n
  }

  function DefaultsNames(defaults: map<string, Defaults>): set<string> {
    set kind, n | kind in defaults && n in MapNames(defaults[kind].secrets) + OptionalNames(defaults[kind].caCert) :: n
  }

  /** Everything the namespace's configuration mentions for this Dashboard. */
  function Referenced(s: Snapshot): set<string> {
    CardsNames(s, s.cards) + InfoNames(s, s.infoWidgets) + DefaultsNames(s.defaults)
  }

  /** The part of the Role that widgets are responsible for. */
  function WidgetGrant(s: Snapshot): set<string> {
    if s.labeledOnly then Referenced(s) * s.labeled else Referenced(s)
  }

  function AuthNames(s: Snapshot): set<string> {
    if s.authSecret.Some? then {s.authSecret.value} else {}
  }

  /** The names in the Secret rule of the pod's Role. */
  function Granted(s: Snapshot): set<string> {
    WidgetGrant(s) + AuthNames(s)
  }

  /** One widget's references, collected into the names map. */
  method CollectWidget(names: set<string>, w: Widget) returns (r: set<string>)
    ensures r == names + WidgetNames(w)
  {
    r := names + MapNames(w.secrets);
    if w.secretRef.Some? {
      r := r + {w.secretRef.value};
    }
    if w.caCert.Some? && w.caCert.value.KeyRef? {
      r := r + {w.caCert.value.secret};
    }
  }

  method CollectWidgets(names: set<string>, widgets: seq<Widget>) returns (r: set<string>)
    ensures r == names + WidgetsNames(widgets)
  {
    r := names;
    for i := 0 to |widgets|
      invariant r == names + WidgetsNames(widgets[..i])
    {
      assert widgets[..i + 1] == widgets[..i] + [widgets[i]];
      r := CollectWidget(r, widgets[i]);
    }
    assert widgets[..|widgets|] == widgets;
  }

  method CollectCards(s: Snapshot) returns (names: set<string>)
    ensures names == CardsNames(s, s.cards)
  {
    names := {};
    for i := 0 to |s.cards|
      invariant names == CardsNames(s, s.cards[..i])
    {
      var c := s.cards[i];
      assert s.cards[..i + 1] == s.cards[..i] + [c];
      if s.Bound(c.ref) {
        for j := 0 to |c.entries|
          invariant names == CardsNames(s, s.cards[..i]) + EntriesNames(c.entries[..j])
        {
          assert c.entries[..j + 1] == c.entries[..j] + [c.entries[j]];
          names := CollectWidgets(names, c.entries[j]);
        }
        assert c.entries[..|c.entries|] == c.entries;
      }
    }
    assert s.cards[..|s.cards|] == s.cards;
  }

  method CollectInfoWidgets(s: Snapshot, names: set<string>) returns (r: set<string>)
    ensures r == names + InfoNames(s, s.infoWidgets)
  {
    r := names;
    for i := 0 to |s.infoWidgets|
      invariant r == names + InfoNames(s, s.infoWidgets[..i])
    {
      assert s.infoWidgets[..i + 1] == s.infoWidgets[..i] + [s.infoWidgets[i]];
      if s.Bound(s.infoWidgets[i].ref) {
        r := CollectWidgets(r, s.infoWidgets[i].widgets);
      }
    }
    assert s.infoWidgets[..|s.infoWidgets|] == s.infoWidgets;
  }

  /** A set of names as the sorted list of them, whatever order it is walked in. */
  method SortedList(names: set<string>) returns (r: seq<string>)
    ensures StrictlySorted(r) && Elems(r) == names
  {
    var todo, listed := names, [];
    while todo != {}
      invariant todo <= names && Elems(listed) == names - todo
      decreases todo
    {
      var n :| n in todo;
      assert Elems(listed + [n]) == Elems(listed) + {n};
      todo, listed := todo - {n}, listed + [n];
    }
    r := SortCompact(listed);
  }

  lemma LabeledStep(names: seq<string>, labeled: set<string>, i: nat, allowed: seq<string>)
    requires i < |names| && StrictlySorted(names)
    requires StrictlySorted(allowed) && Elems(allowed) == Elems(names[..i]) * labeled
    ensures Elems(names[..i + 1]) == Elems(names[..i]) + {names[i]}
    ensures Elems(allowed + [names[i]]) == Elems(allowed) + {names[i]}
    ensures StrictlySorted(allowed + [names[i]])
  {
    assert names[..i + 1] == names[..i] + [names[i]];
    forall j | 0 <= j < |allowed| ensures Compare(allowed[j], names[i]) < 0 {
      assert allowed[j] in Elems(allowed);
      var k :| 0 <= k < i && names[k] == allowed[j];
    }
  }

  /** `filterLabeledSecrets`: drops names without the label, keeping the order. */
  method FilterLabeled(names: seq<string>, labeled: set<string>) returns (allowed: seq<string>)
    requires StrictlySorted(names)
    ensures StrictlySorted(allowed) && Elems(allowed) == Elems(names) * labeled
  {
    allowed := [];
    for i := 0 to |names|
      invariant StrictlySorted(allowed) && Elems(allowed) == Elems(names[..i]) * labeled
    {
      LabeledStep(names, labeled, i, allowed);
      hide Elems, StrictlySorted;
      if names[i] in labeled {
        allowed := allowed + [names[i]];
      }
    }
    assert names[..|names|] == names;
  }

  method ReferencedSecretNames(s: Snapshot) returns (names: seq<string>)
    ensures StrictlySorted(names) && Elems(names) == WidgetGrant(s)
  {
    var found := CollectCards(s);
    found := CollectInfoWidgets(s, found);
    found := found + DefaultsNames(s.defaults);
    names := SortedList(found);
    if s.labeledOnly {
      names := FilterLabeled(names, s.labeled);
    }
  }

  /** The Secret rule of the pod's Role. None means no rule at all: a rule with an
      empty list of names would grant every Secret of the namespace. */
  method SecretRule(s: Snapshot) returns (rule: Option<seq<string>>)
    ensures rule.None? <==> Granted(s) == {}
    ensures rule.Some? ==> rule.value != [] && StrictlySorted(rule.value) && Elems(rule.value) == Granted(s)
  {
    var names := ReferencedSecretNames(s);
    if s.authSecret.Some? {
      assert Elems(names + [s.authSecret.value]) == Elems(names) + {s.authSecret.value};
      names := SortCompact(names + [s.authSecret.value]);
    }
    assert names != [] ==> names[0] in Elems(names);
    rule := if |names| > 0 then Some(names) else None;
  }

  // ------------------------------------------------------------- agreement

  /** What a widget needs it names itself, or the defaults name it. */
  lemma NeedIsOwnOrDefault(w: Widget, defaults: map<string, Defaults>, ca: bool, name: string)
    requires name in Needs(w, defaults, ca)
    ensures name in WidgetNames(w) || name in DefaultsNames(defaults)
  {
    if w.kind in defaults && name !in WidgetNames(w) {
      assert name in MapNames(defaults[w.kind].secrets) + OptionalNames(defaults[w.kind].caCert);
    }
  }

  lemma BoundIsClaims(s: Snapshot)
    ensures forall ref :: s.Bound(ref) <==> Claims(Some(ref), s.dashboard, s.dashboards)
  {
    forall ref ensures s.Bound(ref) <==> Claims(Some(ref), s.dashboard, s.dashboards) {
      BoundToIsClaims(Some(ref), s.dashboard, s.dashboards);
    }
  }

  lemma OwnIsReferenced(s: Snapshot, w: Widget, name: string)
    requires (OnCard(s, w) || InHeader(s, w)) && name in WidgetNames(w)
    ensures name in CardsNames(s, s.cards) || name in InfoNames(s, s.infoWidgets)
  {
    BoundIsClaims(s);
    hide WidgetNames, BoundTo, Claims;
    if OnCard(s, w) {
      var c, e :| c in s.cards && s.Bound(c.ref) && e in c.entries && w in e;
      assert name in WidgetsNames(e);
      assert name in EntriesNames(c.entries);
    } else {
      var i :| i in s.infoWidgets && s.Bound(i.ref) && w in i.widgets;
      assert name in WidgetsNames(i.widgets);
    }
  }

  /** What a polled widget needs, the configuration references. */
  lemma NeedsAreReferenced(s: Snapshot, w: Widget, ca: bool)
    requires OnCard(s, w) || InHeader(s, w)
    ensures Needs(w, s.defaults, ca) <= Referenced(s)
  {
    forall n | n in Needs(w, s.defaults, ca) ensures n in Referenced(s) {
      NeedIsOwnOrDefault(w, s.defaults, ca, n);
      if n in WidgetNames(w) {
        OwnIsReferenced(s, w, n);
      }
    }
  }

  lemma ReadIsReferenced(s: Snapshot, image: Image, name: string)
    requires Readable(s, image, name)
    ensures name in Referenced(s)
  {
    hide WidgetNames, Needs, DefaultsNames, CardsNames, InfoNames, OnCard, InHeader;
    if w :| OnCard(s, w) && w.kind in image.registered && name in Needs(w, s.defaults, true) {
      NeedsAreReferenced(s, w, true);
    } else {
      var w :| InHeader(s, w) && w.kind in image.registered && name in Needs(w, s.defaults, UsesCa(w, true, image));
      NeedsAreReferenced(s, w, UsesCa(w, true, image));
    }
  }

  /** Every Secret the pod can come to read for a bound widget is granted: always
      under the default policy, and under Labeled exactly when it carries the label. */
  lemma ReadableIsGranted(s: Snapshot, image: Image, name: string)
    requires Readable(s, image, name)
    ensures name in WidgetGrant(s) <==> !s.labeledOnly || name in s.labeled
  {
    ReadIsReferenced(s, image, name);
  }

  /** The reasons for which a Secret can be granted although no widget reads it. */
  ghost predicate Spare(s: Snapshot, image: Image, name: string) {
    // the defaults of some type mention it
    || name in DefaultsNames(s.defaults)
    // the widget's type is not implemented by the image
    || (exists w :: (OnCard(s, w) || InHeader(s, w)) && w.kind !in image.registered && name in WidgetNames(w))
    // it is the CA of a header widget that asks the Kubernetes API
    || (exists w :: InHeader(s, w) && w.kind in image.clusterBacked && name in OptionalNames(w.caCert))
  }

  /** A Secret is granted for the widgets' sake exactly when the policy allows it and some
      widget reads it or there is one of the reasons to spare. */
  lemma GrantIsReadOrSpare(s: Snapshot, image: Image, name: string)
    ensures name in WidgetGrant(s) <==>
      (Readable(s, image, name) || Spare(s, image, name)) && (s.labeledOnly ==> name in s.labeled)
  {
    if Readable(s, image, name) {
      ReadIsReferenced(s, image, name);
    } else if Spare(s, image, name) {
      SpareIsReferenced(s, image, name);
    } else if name in Referenced(s) {
      ReferencedIsReadOrSpare(s, image, name);
    }
  }

  lemma SpareIsReferenced(s: Snapshot, image: Image, name: string)
    requires Spare(s, image, name)
    ensures name in Referenced(s)
  {
    hide WidgetNames, DefaultsNames, CardsNames, InfoNames, OnCard, InHeader;
    if w :| (OnCard(s, w) || InHeader(s, w)) && w.kind !in image.registered && name in WidgetNames(w) {
      OwnIsReferenced(s, w, name);
    } else if w :| InHeader(s, w) && w.kind in image.clusterBacked && name in OptionalNames(w.caCert) {
      CaIsOwn(w, name);
      OwnIsReferenced(s, w, name);
    }
  }

  lemma CaIsOwn(w: Widget, name: string)
    requires name in OptionalNames(w.caCert)
    ensures name in WidgetNames(w)
  {
  }

  lemma ReferencedIsReadOrSpare(s: Snapshot, image: Image, name: string)
    requires name in Referenced(s)
    ensures Readable(s, image, name) || Spare(s, image, name)
  {
    BoundIsClaims(s);
    hide BoundTo, Claims;
    if name in CardsNames(s, s.cards) {
      var c :| c in s.cards && s.Bound(c.ref) && name in EntriesNames(c.entries);
      var e :| e in c.entries && name in WidgetsNames(e);
      var w :| w in e && name in WidgetNames(w);
      assert OnCard(s, w);
      OwnNamesAreRead(w, s.defaults, image, name);
    } else if name in InfoNames(s, s.infoWidgets) {
      var i :| i in s.infoWidgets && s.Bound(i.ref) && name in WidgetsNames(i.widgets);
      var w :| w in i.widgets && name in WidgetNames(w);
      assert InHeader(s, w);
      OwnNamesAreRead(w, s.defaults, image, name);
    }
  }

  lemma OwnNamesAreRead(w: Widget, defaults: map<string, Defaults>, image: Image, name: string)
    requires name in WidgetNames(w)
    ensures name in Needs(w, defaults, true)
    ensures name in Needs(w, defaults, UsesCa(w, true, image))
      || (w.kind in image.clusterBacked && name in OptionalNames(w.caCert))
  {
  }

  // ------------------------------------------------------- what the grant is for

  /** What a pod sees that may get the Secrets `names`: a refused get ends a poll as a
      missing Secret does. */
  function Allowed(cluster: Secrets, names: set<string>): Secrets {
    map n | n in cluster && n in names :: cluster[n]
  }

  /** The poll comes to the same in both clusters: it fails for want of a Secret in both,
      or in neither, and then with the same fields and the same CA. */
  ghost predicate PollsAlike(w: Widget, defaults: map<string, Defaults>, a: Secrets, b: Secrets, ca: bool) {
    && (Resolves(w, defaults, a, ca) <==> Resolves(w, defaults, b, ca))
    && (Resolves(w, defaults, a, ca) ==>
          && (forall field :: FieldOf(w, defaults, a, field) == FieldOf(w, defaults, b, field))
          && (ca ==> CaText(w, defaults, a) == CaText(w, defaults, b)))
  }

  lemma AllowedResolves(cluster: Secrets, names: set<string>, src: Source)
    ensures Resolved(Allowed(cluster, names), src).Some? <==> Resolved(cluster, src).Some? && SourceNames(src) <= names
    ensures SourceNames(src) <= names ==> Resolved(Allowed(cluster, names), src) == Resolved(cluster, src)
  {
    if SourceNames(src) <= names {
      ResolvedIsLocal(cluster, Allowed(cluster, names), src);
    } else {
      var n :| n in SourceNames(src) && n !in names;
      ResolvedNeedsItsSecrets(Allowed(cluster, names), src, n);
      assert Allowed(cluster, names) - {n} == Allowed(cluster, names);
    }
  }

  lemma AllowedResolveAll(cluster: Secrets, names: set<string>, secrets: map<string, Source>)
    ensures AllResolve(Allowed(cluster, names), secrets) <==>
      AllResolve(cluster, secrets) && MapNames(secrets) <= names
  {
    hide Resolved, SourceNames, Allowed;
    forall f | f in secrets
      ensures Resolved(Allowed(cluster, names), secrets[f]).Some? <==>
        Resolved(cluster, secrets[f]).Some? && SourceNames(secrets[f]) <= names
    {
      AllowedResolves(cluster, names, secrets[f]);
    }
    assert MapNames(secrets) <= names <==> forall f :: f in secrets ==> SourceNames(secrets[f]) <= names;
  }

  /** With only some Secrets allowed a poll resolves exactly if it does with all of them,
      and those it needs are allowed. */
  lemma AllowedPollResolves(w: Widget, defaults: map<string, Defaults>, cluster: Secrets, names: set<string>, ca: bool)
    ensures Resolves(w, defaults, Allowed(cluster, names), ca) <==>
      Resolves(w, defaults, cluster, ca) && Needs(w, defaults, ca) <= names
  {
    AllowedResolveAll(cluster, names, DefaultSecrets(w, defaults));
    AllowedResolveAll(cluster, names, w.secrets);
    if CaOf(w, defaults).Some? {
      AllowedResolves(cluster, names, CaOf(w, defaults).value);
    }
    hide AllResolve, MapNames, Resolved, SourceNames, DefaultSecrets, CaOf;
  }

  lemma NamedByMap(secrets: map<string, Source>, field: string)
    requires field in secrets
    ensures SourceNames(secrets[field]) <= MapNames(secrets)
  {
  }

  lemma AllowedPollsAlike(w: Widget, defaults: map<string, Defaults>, cluster: Secrets, names: set<string>, ca: bool)
    ensures PollsAlike(w, defaults, Allowed(cluster, names), cluster, ca) <==>
      (Resolves(w, defaults, cluster, ca) ==> Needs(w, defaults, ca) <= names)
  {
    AllowedPollResolves(w, defaults, cluster, names, ca);
    if Needs(w, defaults, ca) <= names {
      forall field
        ensures FieldOf(w, defaults, Allowed(cluster, names), field) == FieldOf(w, defaults, cluster, field)
      {
        AllowedField(w, defaults, cluster, names, ca, field);
      }
      if ca && CaOf(w, defaults).Some? {
        AllowedResolves(cluster, names, CaOf(w, defaults).value);
      }
    }
    hide Resolves, FieldOf, Needs, Allowed;
  }

  lemma AllowedField(w: Widget, defaults: map<string, Defaults>, cluster: Secrets, names: set<string>, ca: bool,
                     field: string)
    requires Needs(w, defaults, ca) <= names
    ensures FieldOf(w, defaults, Allowed(cluster, names), field) == FieldOf(w, defaults, cluster, field)
  {
    hide Resolved, SourceNames, MapNames, OptionalNames, DefaultSecrets;
    if field in w.secrets {
      NamedByMap(w.secrets, field);
      AllowedResolves(cluster, names, w.secrets[field]);
    }
    if field in DefaultSecrets(w, defaults) {
      NamedByMap(DefaultSecrets(w, defaults), field);
      AllowedResolves(cluster, names, DefaultSecrets(w, defaults)[field]);
    }
  }

  /** The grant does what it is for: with the Secrets of its Role, the pod polls every
      widget of a bound object exactly as if it could read the whole namespace; under the
      Labeled policy if and only if everything the poll needs, if it is there at all,
      carries the label or is the auth Secret. */
  lemma GrantSuffices(s: Snapshot, image: Image, cluster: Secrets, w: Widget, inHeader: bool)
    requires if inHeader then InHeader(s, w) else OnCard(s, w)
    ensures
      var ca := UsesCa(w, inHeader, image);
      PollsAlike(w, s.defaults, Allowed(cluster, Granted(s)), cluster, ca) <==>
        || !s.labeledOnly
        || (Resolves(w, s.defaults, cluster, ca) ==>
              forall n :: n in Needs(w, s.defaults, ca) ==> n in s.labeled || s.authSecret == Some(n))
  {
    var ca := UsesCa(w, inHeader, image);
    NeedsAreReferenced(s, w, ca);
    AllowedPollsAlike(w, s.defaults, cluster, Granted(s), ca);
    hide Needs, Resolves, PollsAlike, Referenced, UsesCa, OnCard, InHeader;
    assert forall n :: n in Referenced(s) ==>
      (n in Granted(s) <==> !s.labeledOnly || n in s.labeled || s.authSecret == Some(n));
  }

  const UNKNOWN_WIDGET := Widget("newer", map[], Some("token"), None)

  const UNKNOWN_SNAPSHOT :=
    Snapshot("home", 1, [ServiceCard("", [[UNKNOWN_WIDGET]])], [], map[], false, {}, None)

  const CLUSTER_WIDGET := Widget("kubemetrics", map[], None, Some(KeyRef("ca", "ca.crt")))

  const CLUSTER_SNAPSHOT :=
    Snapshot("home", 1, [], [InfoWidget("", [CLUSTER_WIDGET])], map[], false, {}, None)

  /** A header widget that asks the Kubernetes API and names a CA all the same. */
  lemma HeaderCaWitness()
    ensures
      var image := Image({"kubemetrics"}, {"kubemetrics"});
      "ca" in WidgetGrant(CLUSTER_SNAPSHOT) && !Readable(CLUSTER_SNAPSHOT, image, "ca")
  {
    var s, image := CLUSTER_SNAPSHOT, Image({"kubemetrics"}, {"kubemetrics"});
    assert InfoWidget("", [CLUSTER_WIDGET]) in s.infoWidgets && CLUSTER_WIDGET in [CLUSTER_WIDGET];
    assert InHeader(s, CLUSTER_WIDGET) && "ca" in WidgetNames(CLUSTER_WIDGET);
    OwnIsReferenced(s, CLUSTER_WIDGET, "ca");
    forall w | InHeader(s, w) ensures w == CLUSTER_WIDGET {
    }
  }

  /** A widget whose type the pod's image does not know yet: its Secret is granted, and
      nothing reads it. */
  lemma SpareWitness()
    ensures
      var image := Image({"plex"}, {});
      "token" in WidgetGrant(UNKNOWN_SNAPSHOT) && !Readable(UNKNOWN_SNAPSHOT, image, "token")
  {
    var s, image := UNKNOWN_SNAPSHOT, Image({"plex"}, {});
    assert ServiceCard("", [[UNKNOWN_WIDGET]]) in s.cards && [UNKNOWN_WIDGET] in s.cards[0].entries;
    assert UNKNOWN_WIDGET in [UNKNOWN_WIDGET];
    assert OnCard(s, UNKNOWN_WIDGET) && "token" in WidgetNames(UNKNOWN_WIDGET);
    OwnIsReferenced(s, UNKNOWN_WIDGET, "token");
  }
}
