/** The store of polled cards: written by the poller, read by every page request.
    Its map has no order; `Snapshot` gives the cards one. */
module Store {
  import opened Ordering

  /** `monitor` is what the monitor probe contributed, `content` what the widget poll
      did; both stand for several fields of the original. `err` is one field that both
      of them write. */
  datatype Card = Card(
    key: string,
    group: string,
    order: Option<int>,
    serviceName: string,
    monitor: string,
    content: string,
    err: string,
    hideErrors: bool)

  /** The display order: group, then order with unset last, then service, then key. */
  function CompareCards(a: Card, b: Card): int {
    if Compare(a.group, b.group) != 0 then Compare(a.group, b.group)
    else if CompareOrder(a.order, b.order) != 0 then CompareOrder(a.order, b.order)
    else if Compare(a.serviceName, b.serviceName) != 0 then Compare(a.serviceName, b.serviceName)
    else Compare(a.key, b.key)
  }

  lemma CompareCardsConsistent()
    ensures Consistent(CompareCards)
  {
    hide Consistent, CompareOrder;
    CompareConsistent();
    CompareOrderConsistent();
    var byGroup := By((c: Card) => c.group, Compare);
    var byOrder := By((c: Card) => c.order, CompareOrder);
    var byService := By((c: Card) => c.serviceName, Compare);
    var byKey := By((c: Card) => c.key, Compare);
    ByConsistent((c: Card) => c.group, Compare);
    ByConsistent((c: Card) => c.order, CompareOrder);
    ByConsistent((c: Card) => c.serviceName, Compare);
    ByConsistent((c: Card) => c.key, Compare);
    ThenConsistent(byService, byKey);
    ThenConsistent(byOrder, Then(byService, byKey));
    ThenConsistent(byGroup, Then(byOrder, Then(byService, byKey)));
    SameComparison(Then(byGroup, Then(byOrder, Then(byService, byKey))), CompareCards);
  }

  type Cards = map<string, Card>

  /** Every card is stored under its own key. */
  ghost predicate Keyed(cards: Cards) {
    forall k :: k in cards ==> cards[k].key == k
  }

  ghost predicate IsSnapshot(cards: Cards, s: seq<Card>) {
    SortedBy(CompareCards, s) && multiset(s) == multiset(cards.Values)
  }

  /** Cards with different keys never tie, so there is only one snapshot: the page
      does not depend on the order in which the map is walked. */
  lemma SnapshotIsUnique(cards: Cards, s: seq<Card>, t: seq<Card>)
    requires Keyed(cards) && IsSnapshot(cards, s) && IsSnapshot(cards, t)
    ensures s == t
  {
    CompareCardsConsistent();
    assert Separates(CompareCards, s) by {
      forall a, b | a in s && b in s && CompareCards(a, b) == 0 ensures a == b {
        assert a in multiset(s) && b in multiset(s);
        CompareAntisymmetric(a.key, b.key);
      }
    }
    SortedPermutationIsUnique(CompareCards, s, t);
  }

  /** One group after the other; within a group the cards with an order come first,
      in that order; then by service name, then by key. */
  lemma SnapshotReadsInOrder(cards: Cards, s: seq<Card>, i: nat, j: nat)
    requires Keyed(cards) && IsSnapshot(cards, s) && i < j < |s|
    ensures Compare(s[i].group, s[j].group) <= 0
    ensures s[i].group == s[j].group ==> OrderedBefore(s[i].order, s[j].order)
    ensures s[i].group == s[j].group && s[i].order == s[j].order ==>
      Compare(s[i].serviceName, s[j].serviceName) <= 0
    ensures s[i].group == s[j].group && s[i].order == s[j].order && s[i].serviceName == s[j].serviceName ==>
      Compare(s[i].key, s[j].key) < 0
  {
    CompareAntisymmetric(s[i].group, s[j].group);
    CompareAntisymmetric(s[i].serviceName, s[j].serviceName);
    CompareAntisymmetric(s[i].key, s[j].key);
    SnapshotHasNoRepeats(cards, s, i, j);
  }

  lemma SnapshotHasNoRepeats(cards: Cards, s: seq<Card>, i: nat, j: nat)
    requires Keyed(cards) && IsSnapshot(cards, s) && i < j < |s|
    ensures s[i].key != s[j].key
  {
    assert s == s[..j] + s[j..];
    assert s[i] in s[..j] && s[j] in s[j..];
    assert s[i] in multiset(s) && s[j] in multiset(s);
    assert multiset(s)[s[i]] == multiset(s[..j])[s[i]] + multiset(s[j..])[s[i]];
  }

  function Pruned(cards: Cards, keep: set<string>): Cards {
    map k | k in cards && k in keep :: cards[k]
  }

  /** What a look into the store finds. */
  function At(cards: Cards, k: string): Option<Card> {
    if k in cards then Some(cards[k]) else None
  }

  class Store {
    var cards: Cards

    ghost predicate Valid()
      reads this
    {
      Keyed(cards)
    }

    constructor ()
      ensures Valid() && cards == map[]
    {
      cards := map[];
    }

    method Set(c: Card)
      requires Valid()
      modifies this
      ensures Valid() && cards == old(cards)[c.key := c]
    {
      cards := cards[c.key := c];
    }

    method Get(key: string) returns (c: Option<Card>)
      ensures c == At(cards, key)
    {
      c := if key in cards then Some(cards[key]) else None;
    }

    /** Drops, one by one, every card that is not to be kept. */
    method Prune(keep: set<string>)
      requires Valid()
      modifies this
      ensures Valid() && cards == Pruned(old(cards), keep)
    {
      var todo := cards.Keys;
      while todo != {}
        invariant todo <= old(cards).Keys
        invariant cards == map k | k in old(cards) && (k in todo || k in keep) :: old(cards)[k]
        decreases todo
      {
        var k :| k in todo;
        todo := todo - {k};
        if k !in keep {
          cards := cards - {k};
        }
      }
    }

    /** The stored cards in display order. */
    method Snapshot() returns (out: seq<Card>)
      requires Valid()
      ensures IsSnapshot(cards, out)
    {
      out := [];
      var todo := cards.Keys;
      while todo != {}
        invariant todo <= cards.Keys
        invariant multiset(out) == multiset(set k | k in cards.Keys - todo :: cards[k])
        decreases todo
      {
        var k :| k in todo;
        assert (set j | j in cards.Keys - (todo - {k}) :: cards[j]) == (set j | j in cards.Keys - todo :: cards[j])
          + {cards[k]};
        assert cards[k] !in (set j | j in cards.Keys - todo :: cards[j]);
        out := out + [cards[k]];
        todo := todo - {k};
      }
      assert (set k | k in cards.Keys :: cards[k]) == cards.Values;
      CompareCardsConsistent();
      out := SortFunc(CompareCards, out);
    }
  }
}
