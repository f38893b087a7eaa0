/** The item states tracker as it runs: maps of heap objects that later calls
    update in place, and notifications that must never see those updates. */
module Tracker {
  import opened Items
  import opened TrackerSpec

  /** The clock is outside the model: any reading is possible. */
  method Now() returns (t: nat) {
    t := *;
  }

  class ItemWContext {
    var item: Item
    var startedAt: Option<nat>
    var stale: bool

    constructor (item: Item, startedAt: Option<nat>, stale: bool)
      ensures Value() == Record(item, startedAt, stale)
    {
      this.item, this.startedAt, this.stale := item, startedAt, stale;
    }

    function Value(): Record
      reads this
    {
      Record(item, startedAt, stale)
    }
  }

  datatype Notification = Notification(
    time: nat,
    total: seq<ItemWContext>,
    added: seq<ItemWContext>,
    removed: seq<ItemWContext>,
    updated: seq<ItemWContext>,
    numItemsOK: nat)

  /** The objects of `m` hold the values `v`. */
  ghost predicate Holds(m: map<string, ItemWContext>, v: map<string, Record>, repr: set<ItemWContext>)
    reads repr
  {
    && m.Keys == v.Keys
    && (forall k {:trigger m[k]} {:trigger v[k]} :: k in m ==>
          m[k] in repr && m[k].Value() == v[k] && v[k].item.key == k)
  }

  function Values(s: seq<ItemWContext>): (r: seq<Record>)
    reads s
    ensures |r| == |s|
  {
    seq(|s|, i requires 0 <= i < |s| reads s => s[i].Value())
  }

  ghost predicate Refers(n: Notification, older o: ItemWContext) {
    o in n.total || o in n.added || o in n.removed || o in n.updated
  }

  ghost function Objects(n: Notification): (objects: set<ItemWContext>)
    ensures forall o :: Refers(n, o) ==> o in objects
    ensures forall o :: o in objects ==> Refers(n, o)
  {
    set o | o in n.total + n.added + n.removed + n.updated
  }

  /** The sort that Go's library performs with the key comparison. */
  method SortByKey(items: seq<ItemWContext>) returns (sorted: seq<ItemWContext>)
    requires forall i, j :: 0 <= i < j < |items| ==> items[i].item.key != items[j].item.key
    ensures multiset(sorted) == multiset(items)
    ensures StrictlySorted(Values(sorted))
  {
    sorted := [];
    for n := 0 to |items|
      invariant multiset(sorted) == multiset(items[..n])
      invariant StrictlySorted(Values(sorted))
    {
      var p := 0;
      while p < |sorted| && Less(sorted[p].item.key, items[n].item.key)
        invariant 0 <= p <= |sorted|
        invariant forall i :: 0 <= i < p ==> Less(sorted[i].item.key, items[n].item.key)
      {
        p := p + 1;
      }
      assert items[..n + 1] == items[..n] + [items[n]];
      InsertKeepsOrder(sorted, p, items[n], items[..n]);
      assert sorted == sorted[..p] + sorted[p..];
      sorted := sorted[..p] + [items[n]] + sorted[p..];
    }
    assert items[..|items|] == items;
  }

  lemma InsertKeepsOrder(sorted: seq<ItemWContext>, p: nat, x: ItemWContext, others: seq<ItemWContext>)
    requires p <= |sorted| && StrictlySorted(Values(sorted))
    requires multiset(sorted) == multiset(others)
    requires forall i :: 0 <= i < |others| ==> others[i].item.key != x.item.key
    requires forall i :: 0 <= i < p ==> Less(sorted[i].item.key, x.item.key)
    requires p < |sorted| ==> !Less(sorted[p].item.key, x.item.key)
    ensures StrictlySorted(Values(sorted[..p] + [x] + sorted[p..]))
  {
    var r := sorted[..p] + [x] + sorted[p..];
    var v := Values(sorted);
    if p < |sorted| {
      assert sorted[p] in multiset(sorted);
      assert sorted[p] in others;
      LessTotal(sorted[p].item.key, x.item.key);
      forall j | p < j < |sorted| ensures Less(x.item.key, sorted[j].item.key) {
        assert Less(v[p].item.key, v[j].item.key);
        LessTransitive(x.item.key, sorted[p].item.key, sorted[j].item.key);
      }
    }
    forall i, j | 0 <= i < j < |r| ensures Less(r[i].item.key, r[j].item.key) {
      if i < p && j < p {
        assert Less(v[i].item.key, v[j].item.key);
      } else if i < p && j > p {
        assert Less(v[i].item.key, v[j - 1].item.key);
      } else if i > p {
        assert Less(v[i - 1].item.key, v[j - 1].item.key);
      }
    }
  }

  /** Copies every stored item and sorts the copies. */
  method ItemsMapToSortedSlice(m: map<string, ItemWContext>, ghost v: map<string, Record>,
                               ghost repr: set<ItemWContext>)
    returns (ret: seq<ItemWContext>)
    requires Holds(m, v, repr)
    ensures forall o :: o in ret ==> fresh(o)
    ensures Values(ret) == Listing(v)
  {
    var copies, order := CopyAll(m, v, repr);
    ret := SortByKey(copies);
    CopiesAreListing(v, order, copies, ret);
    ListingLists(v);
    ListingUnique(Values(ret), Listing(v), v);
    forall o | o in ret ensures fresh(o) {
      assert o in multiset(ret);
      assert o in copies;
    }
  }

  /** A fresh copy per stored item, in the map's arbitrary iteration order. */
  method CopyAll(m: map<string, ItemWContext>, ghost v: map<string, Record>, ghost repr: set<ItemWContext>)
    returns (copies: seq<ItemWContext>, ghost order: seq<string>)
    requires Holds(m, v, repr)
    ensures forall o :: o in copies ==> fresh(o)
    ensures AreCopies(v, order, copies)
    ensures forall k :: k in v ==> k in order
  {
    copies, order := [], [];
    var todo := m.Keys;
    while todo != {}
      invariant todo <= m.Keys
      invariant forall o :: o in copies ==> fresh(o)
      invariant AreCopies(v, order, copies)
      invariant forall k :: k in v ==> k in order || k in todo
      invariant forall k :: k in order ==> k !in todo
    {
      var k :| k in todo;
      var copy := new ItemWContext(m[k].item, m[k].startedAt, m[k].stale);
      copies, order, todo := copies + [copy], order + [k], todo - {k};
    }
  }

  ghost predicate AreCopies(v: map<string, Record>, order: seq<string>, copies: seq<ItemWContext>)
    reads copies
  {
    && |order| == |copies|
    && (forall i :: 0 <= i < |order| ==>
          order[i] in v && copies[i].Value() == v[order[i]] && copies[i].item.key == order[i])
    && (forall i, j :: 0 <= i < j < |order| ==> order[i] != order[j])
  }

  lemma CopiesAreListing(v: map<string, Record>, order: seq<string>, copies: seq<ItemWContext>, ret: seq<ItemWContext>)
    requires AreCopies(v, order, copies)
    requires multiset(ret) == multiset(copies) && StrictlySorted(Values(ret))
    requires forall k :: k in v ==> k in order && v[k].item.key == k
    ensures Lists(Values(ret), v)
  {
    forall i | 0 <= i < |ret| ensures ret[i].item.key in v && v[ret[i].item.key] == ret[i].Value() {
      assert ret[i] in multiset(ret);
      assert ret[i] in copies;
      var j :| 0 <= j < |copies| && copies[j] == ret[i];
      assert copies[j].Value() == v[order[j]];
    }
    forall k | k in v ensures v[k] in Values(ret) {
      var i :| 0 <= i < |order| && order[i] == k;
      assert copies[i] in multiset(copies);
      assert copies[i] in multiset(ret);
      var j :| 0 <= j < |ret| && ret[j] == copies[i];
      assert Values(ret)[j] == v[k];
    }
  }

  ghost function EachDelta(s: State, t: seq<Observation>): Deltas {
    Deltas(DeltaEach(Began, s, t), DeltaEach(Ended, s, t), DeltaEach(Amended, s, t))
  }

  /** The three deltas after one more observation met in state `s`. */
  ghost function Next(d: Deltas, s: State, item: Item, now: Option<nat>): Deltas {
    Deltas(DeltaOne(Began, s, d.began, item, now), DeltaOne(Ended, s, d.ended, item, now),
           DeltaOne(Amended, s, d.amended, item, now))
  }

  lemma NextCases(d: Deltas, s: State, item: Item, now: Option<nat>)
    ensures Next(d, s, item, now) ==
            if item.state.OK? then
              if item.key in s.notOK then Deltas(d.began, d.ended[item.key := s.notOK[item.key]], d.amended) else d
            else if item.key !in s.notOK then Deltas(d.began[item.key := Record(item, now, false)], d.ended, d.amended)
            else if s.notOK[item.key].item != item
                 then Deltas(d.began, d.ended, d.amended[item.key := Amend(s.notOK[item.key], item)])
            else d
  {
  }

  /** `t` observes exactly the keys `done`, each once. */
  ghost predicate Observed(items: map<string, Item>, done: set<string>, t: seq<Observation>)
    decreases |t|
  {
    if t == [] then done == {}
    else
      var x := t[|t| - 1].item;
      x.key in done && x.key in items && items[x.key] == x && Observed(items, done - {x.key}, t[..|t| - 1])
  }

  lemma {:induction false} ObservedKeys(items: map<string, Item>, done: set<string>, t: seq<Observation>)
    requires Observed(items, done, t)
    ensures DistinctKeys(t)
    ensures forall i :: 0 <= i < |t| ==>
              t[i].item.key in done && t[i].item.key in items && items[t[i].item.key] == t[i].item
    ensures forall k :: k in done ==> exists i :: 0 <= i < |t| && t[i].item.key == k
    decreases |t|
  {
    if t != [] {
      var front, last := t[..|t| - 1], t[|t| - 1].item;
      ObservedKeys(items, done - {last.key}, front);
      forall k | k in done ensures exists i :: 0 <= i < |t| && t[i].item.key == k {
        if k == last.key {
          assert t[|t| - 1].item.key == k;
        } else {
          assert k in done - {last.key};
          var i :| 0 <= i < |front| && front[i].item.key == k;
          assert t[i].item.key == k;
        }
      }
    }
  }

  lemma ObservedExtend(items: map<string, Item>, done: set<string>, t: seq<Observation>, k: string, now: Option<nat>)
    requires Observed(items, done, t) && k in items && k !in done && items[k].key == k
    ensures Observed(items, done + {k}, t + [Observation(items[k], now)])
  {
    assert (t + [Observation(items[k], now)])[..|t|] == t;
    assert done + {k} - {k} == done;
  }

  /** Exactly the observations that open an incident come with a clock reading. */
  ghost predicate Opening(s: State, t: seq<Observation>)
    decreases |t|
  {
    t == [] ||
    (var x := t[|t| - 1];
     (x.now.Some? <==> !x.item.state.OK? && x.item.key !in s.notOK) && Opening(s, t[..|t| - 1]))
  }

  /** The clock readings of a call, in their order. */
  function Stamps(t: seq<Observation>): seq<nat> {
    if t == [] then []
    else Stamps(t[..|t| - 1]) + if t[|t| - 1].now.Some? then [t[|t| - 1].now.value] else []
  }

  lemma {:induction false} UntouchedSoFar(s: State, t: seq<Observation>, k: string)
    requires forall i :: 0 <= i < |t| ==> t[i].item.key != k
    ensures k in FeedEach(s, t).notOK <==> k in s.notOK
  {
    if t != [] {
      UntouchedSoFar(s, t[..|t| - 1], k);
    }
  }

  /** Every incident has a start time. */
  ghost predicate AllStarted(s: State) {
    forall k :: k in s.notOK ==> s.notOK[k].startedAt.Some?
  }

  lemma {:induction false} OpeningStarts(s: State, t: seq<Observation>)
    requires AllStarted(s) && Opening(s, t) && DistinctKeys(t)
    ensures AllStarted(FeedEach(s, t))
  {
    if t != [] {
      var front, last := t[..|t| - 1], t[|t| - 1];
      OpeningStarts(s, front);
      UntouchedSoFar(s, front, last.item.key);
    }
  }

  lemma {:induction false} NotYetAnnounced(s: State, t: seq<Observation>, k: string)
    requires forall i :: 0 <= i < |t| ==> t[i].item.key != k
    ensures forall change :: k !in DeltaEach(change, s, t)
  {
    if t != [] {
      NotYetAnnounced(s, t[..|t| - 1], k);
    }
  }

  /** The observations together are the call's items. */
  lemma CallIsFeed(items: map<string, Item>, t: seq<Observation>)
    requires Observed(items, items.Keys, t)
    ensures CallOf(t).items == items
  {
    ObservedKeys(items, items.Keys, t);
    CallOfKeys(t);
  }

  lemma SilentIff(s0: State, t: seq<Observation>)
    requires DistinctKeys(t)
    ensures EachDelta(s0, t) == Deltas(map[], map[], map[]) <==> FeedEach(s0, t).notOK == s0.notOK
  {
    EachIsFeed(s0, t);
    SilentIffUnchanged(s0, CallOf(t));
  }

  /** The notification lists the incidents `s` and the deltas `d` in key order. */
  ghost predicate Reports(n: Notification, s: State, d: Deltas)
    reads n.total, n.added, n.removed, n.updated
  {
    && Values(n.total) == Listing(s.notOK)
    && Values(n.added) == Listing(d.began)
    && Values(n.removed) == Listing(d.ended)
    && Values(n.updated) == Listing(d.amended)
    && n.numItemsOK == |s.ok|
  }

  method TwoLists(m1: map<string, ItemWContext>, ghost v1: map<string, Record>, ghost r1: set<ItemWContext>,
                  m2: map<string, ItemWContext>, ghost v2: map<string, Record>, ghost r2: set<ItemWContext>)
    returns (l1: seq<ItemWContext>, l2: seq<ItemWContext>)
    requires Holds(m1, v1, r1) && Holds(m2, v2, r2)
    ensures Values(l1) == Listing(v1) && Values(l2) == Listing(v2)
    ensures forall o :: o in l1 || o in l2 ==> fresh(o)
  {
    l1 := ItemsMapToSortedSlice(m1, v1, r1);
    l2 := ItemsMapToSortedSlice(m2, v2, r2);
  }

  /** Lists the remaining deltas and assembles the notification. */
  method Complete(time: nat, numItemsOK: nat, total: seq<ItemWContext>, added: seq<ItemWContext>, ghost s: State,
                  removed: map<string, ItemWContext>, updated: map<string, ItemWContext>,
                  ghost d: Deltas, ghost retired: set<ItemWContext>, ghost repr: set<ItemWContext>)
    returns (notif: Option<Notification>)
    requires numItemsOK == |s.ok| && Values(total) == Listing(s.notOK) && Values(added) == Listing(d.began)
    requires Holds(removed, d.ended, retired) && Holds(updated, d.amended, repr)
    ensures notif.Some? && notif.value.time == time && notif.value.total == total && notif.value.added == added
    ensures Reports(notif.value, s, d)
    ensures forall o :: o in notif.value.removed || o in notif.value.updated ==> fresh(o)
  {
    var r, u := TwoLists(removed, d.ended, retired, updated, d.amended, repr);
    notif := Some(Notification(time, total, added, r, u, numItemsOK));
  }

  /** The notification, built from copies. */
  method Snapshot(time: nat, numItemsOK: nat, notOK: map<string, ItemWContext>, added: map<string, ItemWContext>,
                  removed: map<string, ItemWContext>, updated: map<string, ItemWContext>,
                  ghost s: State, ghost d: Deltas, ghost retired: set<ItemWContext>, ghost repr: set<ItemWContext>)
    returns (notif: Option<Notification>)
    requires numItemsOK == |s.ok| && Holds(notOK, s.notOK, repr) && Holds(added, d.began, repr)
    requires Holds(removed, d.ended, retired) && Holds(updated, d.amended, repr)
    ensures notif.Some? && notif.value.time == time && Reports(notif.value, s, d)
    ensures forall o :: Refers(notif.value, o) ==> fresh(o)
  {
    var total, a := TwoLists(notOK, s.notOK, repr, added, d.began, repr);
    notif := Complete(time, numItemsOK, total, a, s, removed, updated, d, retired, repr);
  }

  lemma EachExtend(s: State, t: seq<Observation>, x: Observation)
    ensures FeedEach(s, t + [x]) == FeedOne(FeedEach(s, t), x.item, x.now)
    ensures forall change ::
              DeltaEach(change, s, t + [x]) == DeltaOne(change, FeedEach(s, t), DeltaEach(change, s, t), x.item, x.now)
  {
    assert (t + [x])[..|t|] == t;
  }

  /** Incidents announced as begun or amended are listed with the announced record. */
  lemma BeganAndAmendedAreStored(s0: State, t: seq<Observation>)
    requires DistinctKeys(t)
    ensures var v, d := FeedEach(s0, t).notOK, EachDelta(s0, t);
            && (forall k :: k in d.began ==> k in v && v[k] == d.began[k])
            && (forall k :: k in d.amended ==> k in v && v[k] == d.amended[k])
  {
    EachIsFeed(s0, t);
    var call := CallOf(t);
    forall k ensures Delta(Began, s0, call).Keys == DeltaEach(Began, s0, t).Keys
      && (k in Delta(Began, s0, call) ==> Lookup(Feed(s0, call).notOK, k) == Some(Delta(Began, s0, call)[k]))
      && (k in Delta(Amended, s0, call) ==> Lookup(Feed(s0, call).notOK, k) == Some(Delta(Amended, s0, call)[k])) {
      DeltaLookup(Began, s0, call, k);
      DeltaLookup(Amended, s0, call, k);
      FeedLookup(s0, call, k);
    }
  }

  /** The observations `t` of a call that has still to observe `todo`: they lead to the
      state `s` and are what the clock was read for. */
  ghost predicate Observing(items: map<string, Item>, todo: set<string>, s0: State, t: seq<Observation>, s: State,
                            r0: seq<nat>, readings: seq<nat>) {
    && todo <= items.Keys && Observed(items, items.Keys - todo, t) && Opening(s0, t)
    && s == FeedEach(s0, t) && readings == r0 + Stamps(t)
  }

  lemma ObservingExtends(items: map<string, Item>, todo: set<string>, s0: State, t: seq<Observation>, s: State,
                         r0: seq<nat>, readings: seq<nat>, k: string, now: Option<nat>)
    requires Observing(items, todo, s0, t, s, r0, readings) && k in todo && items[k].key == k
    requires now.Some? <==> !items[k].state.OK? && k !in s.notOK
    ensures Observing(items, todo - {k}, s0, t + [Observation(items[k], now)], FeedOne(s, items[k], now), r0,
                      if now.Some? then readings + [now.value] else readings)
  {
    ObservedShrinks(items, todo, t, k, now);
    FeedEachExtend(s0, t, Observation(items[k], now));
    OpeningExtend(items, items.Keys - todo, s0, t, Observation(items[k], now));
    StampsExtend(t, Observation(items[k], now));
  }

  lemma ObservedShrinks(items: map<string, Item>, todo: set<string>, t: seq<Observation>, k: string, now: Option<nat>)
    requires todo <= items.Keys && Observed(items, items.Keys - todo, t) && k in todo && items[k].key == k
    ensures Observed(items, items.Keys - (todo - {k}), t + [Observation(items[k], now)])
  {
    ObservedExtend(items, items.Keys - todo, t, k, now);
    assert items.Keys - (todo - {k}) == items.Keys - todo + {k};
  }

  lemma OpeningExtend(items: map<string, Item>, done: set<string>, s0: State, t: seq<Observation>, x: Observation)
    requires Observed(items, done, t) && x.item.key !in done && Opening(s0, t)
    requires x.now.Some? <==> !x.item.state.OK? && x.item.key !in FeedEach(s0, t).notOK
    ensures Opening(s0, t + [x])
  {
    assert (t + [x])[..|t|] == t;
    ObservedKeys(items, done, t);
    UntouchedSoFar(s0, t, x.item.key);
  }

  lemma FeedEachExtend(s: State, t: seq<Observation>, x: Observation)
    ensures FeedEach(s, t + [x]) == FeedOne(FeedEach(s, t), x.item, x.now)
  {
    EachExtend(s, t, x);
  }

  lemma StampsExtend(t: seq<Observation>, x: Observation)
    ensures Stamps(t + [x]) == Stamps(t) + if x.now.Some? then [x.now.value] else []
  {
    assert (t + [x])[..|t|] == t;
  }

  lemma DeltaExtends(s0: State, t: seq<Observation>, x: Observation)
    ensures EachDelta(s0, t + [x]) == Next(EachDelta(s0, t), FeedEach(s0, t), x.item, x.now)
  {
    EachExtend(s0, t, x);
  }

  class ItemStatesTracker {
    /** OK records are never changed or published, so they are kept as values. */
    var itemsOK: map<string, Record>
    var itemsNotOK: map<string, ItemWContext>

    /** The stored records as values. */
    ghost var view: State
    /** Every object that was ever stored. */
    ghost var repr: set<ItemWContext>
    /** What the clock said, each time it was asked. */
    ghost var readings: seq<nat>

    constructor ()
      ensures Valid() && view == EMPTY && repr == {} && readings == []
    {
      itemsOK, itemsNotOK := map[], map[];
      view, repr, readings := EMPTY, {}, [];
    }

    ghost predicate Valid()
      reads this, repr
    {
      && view.ok == itemsOK
      && Holds(itemsNotOK, view.notOK, repr)
    }

    method ReadClock() returns (t: nat)
      modifies this`readings
      ensures readings == old(readings) + [t]
    {
      t := Now();
      readings := readings + [t];
    }

    /** The OK branch: an incident that ends leaves the tracker, unchanged. */
    method ObserveOK(item: Item) returns (gone: Option<ItemWContext>)
      requires Valid() && item.state.OK?
      modifies this`itemsOK, this`itemsNotOK, this`view, this`repr
      ensures Valid() && view == FeedOne(old(view), item, None)
      ensures itemsNotOK == old(itemsNotOK) - {item.key}
      ensures gone.Some? <==> item.key in old(view).notOK
      ensures gone.None? ==> repr == old(repr)
      ensures gone.Some? ==> repr == old(repr) - {gone.value} && gone.value in old(repr)
                             && gone.value.Value() == old(view).notOK[item.key]
    {
      gone := None;
      if item.key !in itemsOK {
        itemsOK := itemsOK[item.key := Record(item, None, false)];
      }
      if item.key in itemsNotOK {
        gone := Some(itemsNotOK[item.key]);
        itemsNotOK := itemsNotOK - {item.key};
        repr := repr - {gone.value};
      }
      view := FeedOne(view, item, None);
    }

    /** The non-OK branch without an incident: opens one, reading the clock. */
    method Open(item: Item) returns (iwc: ItemWContext, started: nat)
      requires Valid() && !item.state.OK? && item.key !in itemsNotOK
      modifies this
      ensures Valid() && view == FeedOne(old(view), item, Some(started))
      ensures itemsNotOK == old(itemsNotOK)[item.key := iwc]
      ensures repr == old(repr) + {iwc} && fresh(iwc) && readings == old(readings) + [started]
    {
      started := ReadClock();
      iwc := new ItemWContext(item, Some(started), false);
      itemsNotOK := itemsNotOK[item.key := iwc];
      itemsOK := itemsOK - {item.key};
      repr := repr + {iwc};
      view := FeedOne(view, item, Some(started));
    }

    /** The non-OK branch with an incident: replaces its item in place, if it differs. */
    method Refresh(item: Item, exItem: ItemWContext) returns (changed: Option<ItemWContext>)
      requires Valid() && !item.state.OK? && item.key in itemsNotOK && exItem == itemsNotOK[item.key]
      modifies this`itemsOK, this`view, exItem`item
      ensures Valid() && view == FeedOne(old(view), item, None)
      ensures changed == if old(view).notOK[item.key].item != item then Some(exItem) else None
    {
      changed := None;
      if exItem.item != item {
        exItem.item := item;
        changed := Some(exItem);
      }
      itemsOK := itemsOK - {item.key};
      view := FeedOne(view, item, None);
    }

    /** The deltas collected so far: incidents that began or were amended are still
        the stored objects, those that ended are held by `retired`. */
    ghost predicate Collected(d: Deltas, added: map<string, ItemWContext>, removed: map<string, ItemWContext>,
                              updated: map<string, ItemWContext>, retired: set<ItemWContext>)
      reads this, retired
    {
      && Holds(removed, d.ended, retired) && retired !! repr
      && added.Keys == d.began.Keys && updated.Keys == d.amended.Keys
      && (forall k {:trigger added[k]} :: k in added ==> k in itemsNotOK && added[k] == itemsNotOK[k])
      && (forall k {:trigger updated[k]} :: k in updated ==> k in itemsNotOK && updated[k] == itemsNotOK[k])
    }

    /** One iteration on an OK observation of a key not observed yet. */
    method NextOK(item: Item, ghost d: Deltas, ghost added: map<string, ItemWContext>,
                  removed0: map<string, ItemWContext>, ghost updated: map<string, ItemWContext>,
                  ghost retired0: set<ItemWContext>)
      returns (removed: map<string, ItemWContext>, ghost retired: set<ItemWContext>)
      requires Valid() && Collected(d, added, removed0, updated, retired0) && item.state.OK?
      requires item.key !in d.began && item.key !in d.ended && item.key !in d.amended
      modifies this`itemsOK, this`itemsNotOK, this`view, this`repr
      ensures Valid() && view == FeedOne(old(view), item, None) && repr <= old(repr)
      ensures Collected(Next(d, old(view), item, None), added, removed, updated, retired)
    {
      NextCases(d, view, item, None);
      var gone := ObserveOK(item);
      removed := if gone.Some? then removed0[item.key := gone.value] else removed0;
      retired := if gone.Some? then retired0 + {gone.value} else retired0;
    }

    /** One iteration that opens an incident. */
    method NextOpened(item: Item, ghost d: Deltas, added0: map<string, ItemWContext>,
                      ghost removed: map<string, ItemWContext>, ghost updated: map<string, ItemWContext>,
                      ghost retired: set<ItemWContext>)
      returns (added: map<string, ItemWContext>, ghost started: nat)
      requires Valid() && Collected(d, added0, removed, updated, retired)
      requires !item.state.OK? && item.key !in itemsNotOK
      modifies this
      ensures Valid() && view == FeedOne(old(view), item, Some(started)) && readings == old(readings) + [started]
      ensures forall o :: o in repr ==> o in old(repr) || fresh(o)
      ensures Collected(Next(d, old(view), item, Some(started)), added, removed, updated, retired)
    {
      ghost var s := view;
      var iwc, time := Open(item);
      NextCases(d, s, item, Some(time));
      added, started := added0[item.key := iwc], time;
    }

    /** A refreshed incident is stored as before, so only the amended ones may grow. */
    lemma RefreshedCollects(d: Deltas, s: State, item: Item, added: map<string, ItemWContext>,
                            removed: map<string, ItemWContext>, updated: map<string, ItemWContext>,
                            retired: set<ItemWContext>)
      requires Collected(d, added, removed, updated, retired)
      requires !item.state.OK? && item.key in s.notOK && item.key in itemsNotOK
      ensures s.notOK[item.key].item == item ==> Collected(Next(d, s, item, None), added, removed, updated, retired)
      ensures s.notOK[item.key].item != item ==>
                Collected(Next(d, s, item, None), added, removed, updated[item.key := itemsNotOK[item.key]], retired)
    {
      NextCases(d, s, item, None);
    }

    /** One iteration that refreshes an incident. */
    method NextRefreshed(item: Item, exItem: ItemWContext, ghost d: Deltas, ghost added: map<string, ItemWContext>,
                         ghost removed: map<string, ItemWContext>, updated0: map<string, ItemWContext>,
                         ghost retired: set<ItemWContext>)
      returns (updated: map<string, ItemWContext>)
      requires Valid() && Collected(d, added, removed, updated0, retired)
      requires !item.state.OK? && item.key in itemsNotOK && exItem == itemsNotOK[item.key]
      modifies this`itemsOK, this`view, exItem`item
      ensures Valid() && view == FeedOne(old(view), item, None)
      ensures Collected(Next(d, old(view), item, None), added, removed, updated, retired)
    {
      ghost var s := view;
      assert exItem !in retired;
      var changed := Refresh(item, exItem);
      RefreshedCollects(d, s, item, added, removed, updated0, retired);
      updated := if changed.Some? then updated0[item.key := exItem] else updated0;
    }

    /** One iteration of the loop, on a key not observed yet. */
    method ObserveNext(item: Item, ghost d: Deltas, added0: map<string, ItemWContext>,
                       removed0: map<string, ItemWContext>,
                       updated0: map<string, ItemWContext>, ghost retired0: set<ItemWContext>)
      returns (added: map<string, ItemWContext>, removed: map<string, ItemWContext>,
               updated: map<string, ItemWContext>, ghost retired: set<ItemWContext>, ghost now: Option<nat>)
      requires Valid() && Collected(d, added0, removed0, updated0, retired0)
      requires item.key !in d.began && item.key !in d.ended && item.key !in d.amended
      modifies this, repr
      ensures Valid() && view == FeedOne(old(view), item, now)
      ensures now.Some? <==> !item.state.OK? && item.key !in old(view).notOK
      ensures readings == if now.Some? then old(readings) + [now.value] else old(readings)
      ensures forall o :: o in repr ==> o in old(repr) || fresh(o)
      ensures Collected(Next(d, old(view), item, now), added, removed, updated, retired)
    {
      added, removed, updated, retired, now := added0, removed0, updated0, retired0, None;
      if item.state.OK? {
        removed, retired := NextOK(item, d, added, removed, updated, retired);
      } else if item.key !in itemsNotOK {
        ghost var started;
        added, started := NextOpened(item, d, added, removed, updated, retired);
        now := Some(started);
      } else {
        updated := NextRefreshed(item, itemsNotOK[item.key], d, added, removed, updated, retired);
      }
    }

    /** The loop over the observations, in the map's arbitrary iteration order. */
    method ObserveAll(newItems: map<string, Item>)
      returns (added: map<string, ItemWContext>, removed: map<string, ItemWContext>,
               updated: map<string, ItemWContext>, ghost retired: set<ItemWContext>, ghost t: seq<Observation>)
      requires Valid() && WellKeyed(newItems)
      modifies this, repr
      ensures Valid() && view == FeedEach(old(view), t)
      ensures Observed(newItems, newItems.Keys, t) && Opening(old(view), t) && readings == old(readings) + Stamps(t)
      ensures forall o :: o in repr ==> o in old(repr) || fresh(o)
      ensures Collected(EachDelta(old(view), t), added, removed, updated, retired)
    {
      ghost var s0, r0 := view, readings;
      added, removed, updated, retired, t := map[], map[], map[], {}, [];
      var todo := newItems.Keys;
      while todo != {}
        invariant Valid() && Observing(newItems, todo, s0, t, view, r0, readings)
        invariant forall o :: o in repr ==> o in old(repr) || fresh(o)
        invariant Collected(EachDelta(s0, t), added, removed, updated, retired)
      {
        var k :| k in todo;
        ghost var before, said := view, readings;
        ObservedKeys(newItems, newItems.Keys - todo, t);
        NotYetAnnounced(s0, t, k);
        ghost var now;
        added, removed, updated, retired, now :=
          ObserveNext(newItems[k], EachDelta(s0, t), added, removed, updated, retired);
        ObservingExtends(newItems, todo, s0, t, before, r0, said, k, now);
        DeltaExtends(s0, t, Observation(newItems[k], now));
        t := t + [Observation(newItems[k], now)];
        todo := todo - {k};
      }
      assert newItems.Keys - todo == newItems.Keys;
    }

    /** One call of the tracker. A notification is returned exactly when the set of
        incidents changed. Its lists are copies: nothing published before changes,
        and no later call can reach what is published now. */
    method FeedItems(newItems: map<string, Item>, ghost published: set<ItemWContext>)
      returns (notif: Option<Notification>, ghost t: seq<Observation>)
      requires Valid() && WellKeyed(newItems) && published !! repr
      modifies this, repr
      ensures Valid() && view == FeedEach(old(view), t)
      ensures Observed(newItems, newItems.Keys, t) && Opening(old(view), t)
      ensures readings == old(readings) + Stamps(t) + if notif.Some? then [notif.value.time] else []
      ensures forall o :: o in repr ==> o in old(repr) || fresh(o)
      ensures notif.None? <==> view.notOK == old(view).notOK
      ensures notif.Some? ==>
                && Reports(notif.value, view, EachDelta(old(view), t))
                && forall o :: Refers(notif.value, o) ==> fresh(o) && o !in repr
      ensures published !! repr && forall o :: o in published ==> unchanged(o)
    {
      var added, removed, updated;
      ghost var d, retired;
      added, removed, updated, d, retired, t := ObserveAndStore(newItems);
      notif := Announce(added, removed, updated, d, retired);
    }

    /** The loop, with its deltas held by stored and retired objects. */
    method ObserveAndStore(newItems: map<string, Item>)
      returns (added: map<string, ItemWContext>, removed: map<string, ItemWContext>, updated: map<string, ItemWContext>,
               ghost d: Deltas, ghost retired: set<ItemWContext>, ghost t: seq<Observation>)
      requires Valid() && WellKeyed(newItems)
      modifies this, repr
      ensures Valid() && view == FeedEach(old(view), t) && d == EachDelta(old(view), t)
      ensures Observed(newItems, newItems.Keys, t) && Opening(old(view), t) && readings == old(readings) + Stamps(t)
      ensures forall o :: o in repr ==> o in old(repr) || fresh(o)
      ensures Holds(added, d.began, repr) && Holds(removed, d.ended, retired) && Holds(updated, d.amended, repr)
      ensures view.notOK == old(view).notOK <==> |added| == 0 && |removed| == 0 && |updated| == 0
    {
      ghost var s0 := view;
      added, removed, updated, retired, t := ObserveAll(newItems);
      d := EachDelta(s0, t);
      ObservedKeys(newItems, newItems.Keys, t);
      DeltasAreStored(s0, t, d, added, removed, updated, retired);
    }

    /** The rest of a call: nothing to say, or a notification. */
    method Announce(added: map<string, ItemWContext>, removed: map<string, ItemWContext>,
                    updated: map<string, ItemWContext>,
                    ghost d: Deltas, ghost retired: set<ItemWContext>)
      returns (notif: Option<Notification>)
      requires Valid() && Holds(added, d.began, repr) && Holds(removed, d.ended, retired)
      requires Holds(updated, d.amended, repr)
      modifies this`readings
      ensures Valid()
      ensures notif.None? <==> |added| == 0 && |removed| == 0 && |updated| == 0
      ensures notif.Some? ==> Reports(notif.value, view, d) && forall o :: Refers(notif.value, o) ==> fresh(o)
      ensures readings == old(readings) + if notif.Some? then [notif.value.time] else []
    {
      if |added| == 0 && |removed| == 0 && |updated| == 0 {
        return None;
      }
      var time := ReadClock();
      notif := Snapshot(time, |itemsOK|, itemsNotOK, added, removed, updated, view, d, retired, repr);
    }

    lemma DeltasAreStored(s0: State, t: seq<Observation>, d: Deltas, added: map<string, ItemWContext>,
                          removed: map<string, ItemWContext>, updated: map<string, ItemWContext>,
                          retired: set<ItemWContext>)
      requires Valid() && d == EachDelta(s0, t) && DistinctKeys(t) && view == FeedEach(s0, t)
      requires Collected(d, added, removed, updated, retired)
      ensures Holds(added, d.began, repr) && Holds(updated, d.amended, repr)
      ensures view.notOK == s0.notOK <==> |added| == 0 && |removed| == 0 && |updated| == 0
    {
      BeganAndAmendedAreStored(s0, t);
      SilentIff(s0, t);
      assert d == Deltas(map[], map[], map[]) <==> d.began.Keys == {} && d.ended.Keys == {} && d.amended.Keys == {};
    }
  }

  /** The state and deltas a notification was built from. */
  datatype Source = Source(state: State, deltas: Deltas)

  /** Each notification, all of whose objects lie in `objects`, reports its source. */
  ghost predicate AllReport(ns: seq<Notification>, sources: seq<Source>, objects: set<ItemWContext>)
    reads objects
  {
    && |ns| == |sources|
    && (ns != [] ==>
          && (forall o :: Refers(ns[0], o) ==> o in objects) && Reports(ns[0], sources[0].state, sources[0].deltas)
          && AllReport(ns[1..], sources[1..], objects))
  }

  lemma {:induction false} AllReportGrow(ns: seq<Notification>, sources: seq<Source>, objects: set<ItemWContext>,
                                         more: set<ItemWContext>)
    requires AllReport(ns, sources, objects) && objects <= more
    ensures AllReport(ns, sources, more)
  {
    if ns != [] {
      AllReportGrow(ns[1..], sources[1..], objects, more);
    }
  }

  lemma AllReportOne(n: Notification, src: Source)
    requires Reports(n, src.state, src.deltas)
    ensures AllReport([n], [src], Objects(n))
  {
    assert AllReport([], [], Objects(n));
    assert [n][1..] == [] && [src][1..] == [];
  }

  lemma AllReportCons(n: Notification, src: Source, ns: seq<Notification>, sources: seq<Source>,
                      objects: set<ItemWContext>, mine: set<ItemWContext>)
    requires AllReport(ns, sources, objects) && AllReport([n], [src], mine)
    ensures AllReport([n] + ns, [src] + sources, objects + mine)
  {
    AllReportGrow(ns, sources, objects, objects + mine);
    assert ([n] + ns)[1..] == ns && ([src] + sources)[1..] == sources;
  }

  /** The run: each call observed its own feed, one after the other from `s` to `end`,
      and `sources` are the calls that changed an incident. */
  ghost predicate Chronicle(s: State, feeds: seq<map<string, Item>>, ts: seq<seq<Observation>>, sources: seq<Source>,
                            end: State)
    decreases |feeds|
  {
    if feeds == [] then ts == [] && sources == [] && end == s
    else
      && ts != [] && Observed(feeds[0], feeds[0].Keys, ts[0]) && Opening(s, ts[0])
      && var next := FeedEach(s, ts[0]);
         if next.notOK == s.notOK then Chronicle(next, feeds[1..], ts[1..], sources, end)
         else
           && sources != [] && sources[0] == Source(next, EachDelta(s, ts[0]))
           && Chronicle(next, feeds[1..], ts[1..], sources[1..], end)
  }

  lemma ChronicleSilent(s: State, feeds: seq<map<string, Item>>, t: seq<Observation>, ts: seq<seq<Observation>>,
                        sources: seq<Source>, end: State)
    requires feeds != [] && Observed(feeds[0], feeds[0].Keys, t) && Opening(s, t) && FeedEach(s, t).notOK == s.notOK
    requires Chronicle(FeedEach(s, t), feeds[1..], ts, sources, end)
    ensures Chronicle(s, feeds, [t] + ts, sources, end)
  {
    assert ([t] + ts)[1..] == ts;
  }

  lemma ChronicleNotified(s: State, feeds: seq<map<string, Item>>, t: seq<Observation>, ts: seq<seq<Observation>>,
                          sources: seq<Source>, end: State)
    requires feeds != [] && Observed(feeds[0], feeds[0].Keys, t) && Opening(s, t) && FeedEach(s, t).notOK != s.notOK
    requires Chronicle(FeedEach(s, t), feeds[1..], ts, sources, end)
    ensures Chronicle(s, feeds, [t] + ts, [Source(FeedEach(s, t), EachDelta(s, t))] + sources, end)
  {
    var src := Source(FeedEach(s, t), EachDelta(s, t));
    assert ([t] + ts)[1..] == ts && ([src] + sources)[1..] == sources;
  }

  /** A whole run of the tracker: whatever is fed afterwards, every notification
      still reports the incidents and deltas of its own call, and nothing published
      before the run changes. */
  method RunFeeds(tracker: ItemStatesTracker, feeds: seq<map<string, Item>>, ghost published: set<ItemWContext>)
    returns (ns: seq<Notification>, ghost ts: seq<seq<Observation>>, ghost sources: seq<Source>,
             ghost objects: set<ItemWContext>)
    requires tracker.Valid() && published !! tracker.repr
    requires forall i :: 0 <= i < |feeds| ==> WellKeyed(feeds[i])
    modifies tracker, tracker.repr
    ensures tracker.Valid() && forall o :: o in tracker.repr ==> o in old(tracker.repr) || fresh(o)
    ensures Chronicle(old(tracker.view), feeds, ts, sources, tracker.view)
    ensures AllReport(ns, sources, objects) && objects !! tracker.repr
    ensures published !! tracker.repr && forall o :: o in published ==> unchanged(o)
    decreases |feeds|, 0
  {
    if feeds == [] {
      ns, ts, sources, objects := [], [], [], {};
    } else {
      ghost var s0, t := tracker.view, [];
      var notif;
      notif, t := tracker.FeedItems(feeds[0], published);
      if notif.None? {
        ns, ts, sources, objects := RunFeeds(tracker, feeds[1..], published);
        ChronicleSilent(s0, feeds, t, ts, sources, tracker.view);
      } else {
        ghost var src, later := Source(tracker.view, EachDelta(s0, t)), [];
        AllReportOne(notif.value, src);
        ns, ts, later, objects := RunAfter(tracker, feeds[1..], published, notif.value, src);
        ChronicleNotified(s0, feeds, t, ts, later, tracker.view);
        sources := [src] + later;
      }
      ts := [t] + ts;
    }
  }

  /** The rest of a run, with a notification that was just published. */
  method RunAfter(tracker: ItemStatesTracker, feeds: seq<map<string, Item>>, ghost published: set<ItemWContext>,
                  n: Notification, ghost src: Source)
    returns (ns: seq<Notification>, ghost ts: seq<seq<Observation>>, ghost later: seq<Source>,
             ghost objects: set<ItemWContext>)
    requires tracker.Valid() && published !! tracker.repr
    requires AllReport([n], [src], Objects(n)) && Objects(n) !! tracker.repr
    requires forall i :: 0 <= i < |feeds| ==> WellKeyed(feeds[i])
    modifies tracker, tracker.repr
    ensures tracker.Valid() && forall o :: o in tracker.repr ==> o in old(tracker.repr) || fresh(o)
    ensures Chronicle(old(tracker.view), feeds, ts, later, tracker.view)
    ensures AllReport(ns, [src] + later, objects) && objects !! tracker.repr
    ensures published !! tracker.repr && forall o :: o in published ==> unchanged(o)
    decreases |feeds|, 1
  {
    ghost var mine := Objects(n);
    ns, ts, later, objects := RunFeeds(tracker, feeds, published + mine);
    AllReportCons(n, src, ns, later, objects, mine);
    ns, objects := [n] + ns, objects + mine;
  }

  // ---------------------------------------------------------------- runs and histories

  function Calls(ts: seq<seq<Observation>>): (h: seq<FeedCall>)
    ensures |h| == |ts| && forall i :: 0 <= i < |ts| ==> h[i] == CallOf(ts[i])
  {
    seq(|ts|, i requires 0 <= i < |ts| => CallOf(ts[i]))
  }

  lemma CallsSplit(ts: seq<seq<Observation>>)
    requires ts != []
    ensures Calls(ts) == [CallOf(ts[0])] + Calls(ts[1..])
  {
  }

  /** The first call of a run and the rest of it. */
  lemma ChronicleSplit(s: State, feeds: seq<map<string, Item>>, ts: seq<seq<Observation>>, sources: seq<Source>,
                       end: State)
    returns (later: seq<Source>)
    requires Chronicle(s, feeds, ts, sources, end) && feeds != []
    ensures ts != [] && Observed(feeds[0], feeds[0].Keys, ts[0]) && Opening(s, ts[0])
    ensures Chronicle(FeedEach(s, ts[0]), feeds[1..], ts[1..], later, end)
  {
    later := if FeedEach(s, ts[0]).notOK == s.notOK then sources else sources[1..];
  }

  /** The state after one call after the other. */
  function FeedAll(s: State, ts: seq<seq<Observation>>): State
    decreases |ts|
  {
    if ts == [] then s else FeedAll(FeedEach(s, ts[0]), ts[1..])
  }

  lemma {:induction false} ChronicleFeedsAll(s: State, feeds: seq<map<string, Item>>, ts: seq<seq<Observation>>,
                                             sources: seq<Source>, end: State)
    requires Chronicle(s, feeds, ts, sources, end)
    ensures end == FeedAll(s, ts) && forall i :: 0 <= i < |ts| ==> DistinctKeys(ts[i])
    decreases |feeds|
  {
    if feeds != [] {
      var later := ChronicleSplit(s, feeds, ts, sources, end);
      ObservedKeys(feeds[0], feeds[0].Keys, ts[0]);
      ChronicleFeedsAll(FeedEach(s, ts[0]), feeds[1..], ts[1..], later, end);
      forall i | 0 <= i < |ts| ensures DistinctKeys(ts[i]) { if i > 0 { assert ts[i] == ts[1..][i - 1]; } }
    }
  }

  lemma ReplayNext(h: seq<FeedCall>, t: seq<Observation>)
    requires DistinctKeys(t)
    ensures FeedEach(Replay(h), t) == Replay(h + [CallOf(t)])
  {
    EachIsFeed(Replay(h), t);
    assert (h + [CallOf(t)])[..|h|] == h;
  }

  lemma CallsAppend(h: seq<FeedCall>, ts: seq<seq<Observation>>)
    requires ts != []
    ensures h + Calls(ts) == (h + [CallOf(ts[0])]) + Calls(ts[1..])
  {
    CallsSplit(ts);
  }

  lemma {:induction false} FeedAllIsReplay(h: seq<FeedCall>, s: State, ts: seq<seq<Observation>>)
    requires s == Replay(h) && forall i :: 0 <= i < |ts| ==> DistinctKeys(ts[i])
    ensures FeedAll(s, ts) == Replay(h + Calls(ts))
    decreases |ts|
  {
    if ts == [] {
      assert h + Calls(ts) == h;
    } else {
      ReplayNext(h, ts[0]);
      CallsAppend(h, ts);
      FeedAllIsReplay(h + [CallOf(ts[0])], FeedEach(s, ts[0]), ts[1..]);
    }
  }

  /** A run from the state of a history ends in the state of the longer history: the
      calls that were fed, with the clock readings of their openings. */
  lemma ChronicleIsReplay(h: seq<FeedCall>, feeds: seq<map<string, Item>>, ts: seq<seq<Observation>>,
                          sources: seq<Source>, end: State)
    requires Chronicle(Replay(h), feeds, ts, sources, end)
    ensures end == Replay(h + Calls(ts))
  {
    ChronicleFeedsAll(Replay(h), feeds, ts, sources, end);
    FeedAllIsReplay(h, Replay(h), ts);
  }

  lemma {:induction false} CallsAreFeeds(s: State, feeds: seq<map<string, Item>>, ts: seq<seq<Observation>>,
                                         sources: seq<Source>, end: State)
    requires Chronicle(s, feeds, ts, sources, end)
    ensures |ts| == |feeds| && forall i :: 0 <= i < |feeds| ==> CallOf(ts[i]).items == feeds[i]
    decreases |feeds|
  {
    if feeds != [] {
      var later := ChronicleSplit(s, feeds, ts, sources, end);
      CallIsFeed(feeds[0], ts[0]);
      CallsAreFeeds(FeedEach(s, ts[0]), feeds[1..], ts[1..], later, end);
      assert forall i :: 1 <= i < |feeds| ==> feeds[i] == feeds[1..][i - 1] && ts[i] == ts[1..][i - 1];
    }
  }

  lemma {:induction false} ChronicleStarts(s: State, feeds: seq<map<string, Item>>, ts: seq<seq<Observation>>,
                                           sources: seq<Source>, end: State)
    requires Chronicle(s, feeds, ts, sources, end) && AllStarted(s)
    ensures AllStarted(end)
    decreases |feeds|
  {
    if feeds != [] {
      var later := ChronicleSplit(s, feeds, ts, sources, end);
      ObservedKeys(feeds[0], feeds[0].Keys, ts[0]);
      OpeningStarts(s, ts[0]);
      ChronicleStarts(FeedEach(s, ts[0]), feeds[1..], ts[1..], later, end);
    }
  }

  /** The object is the last observation of its key, with the clock reading of the call
      that opened the incident. */
  ghost predicate IsLastObservation(h: seq<FeedCall>, k: string, o: ItemWContext)
    reads o
  {
    && LastObserved(h, k) == Some(o.item) && !o.item.state.OK? && o.startedAt.Some?
    && exists j: nat :: Opens(h, k, j) && Stamp(h[j].stamps, k) == o.startedAt
  }

  /** The tracker's objects are exactly the keys whose last observation was not OK, each
      with that observation and the start of its incident, and both maps together count
      every key ever observed. */
  ghost predicate MatchesHistory(tracker: ItemStatesTracker, h: seq<FeedCall>)
    reads tracker, tracker.itemsNotOK.Values
  {
    && (forall k :: k in tracker.itemsNotOK <==> LastObserved(h, k).Some? && !LastObserved(h, k).value.state.OK?)
    && (forall k :: k in tracker.itemsOK <==> LastObserved(h, k).Some? && LastObserved(h, k).value.state.OK?)
    && (forall k :: k in tracker.itemsNotOK ==> IsLastObservation(h, k, tracker.itemsNotOK[k]))
    && |tracker.itemsOK| + |tracker.itemsNotOK| == |Seen(h)|
  }

  lemma ObjectMatches(tracker: ItemStatesTracker, h: seq<FeedCall>, k: string)
    requires tracker.Valid() && tracker.view == Replay(h) && AllStarted(tracker.view) && WellFormed(h)
    ensures k in tracker.itemsNotOK <==> LastObserved(h, k).Some? && !LastObserved(h, k).value.state.OK?
    ensures k in tracker.itemsOK <==> LastObserved(h, k).Some? && LastObserved(h, k).value.state.OK?
    ensures k in tracker.itemsNotOK ==> IsLastObservation(h, k, tracker.itemsNotOK[k])
  {
    TrackerMatchesHistory(h, k);
    if k in tracker.itemsNotOK {
      assert tracker.itemsNotOK[k].Value() == tracker.view.notOK[k];
    }
  }

  lemma CountMatches(tracker: ItemStatesTracker, h: seq<FeedCall>)
    requires tracker.Valid() && tracker.view == Replay(h) && WellFormed(h)
    ensures |tracker.itemsOK| + |tracker.itemsNotOK| == |Seen(h)|
  {
    EveryKeyCounted(h);
    assert tracker.itemsNotOK.Keys == tracker.view.notOK.Keys;
  }

  lemma ReplayMatches(tracker: ItemStatesTracker, h: seq<FeedCall>)
    requires tracker.Valid() && tracker.view == Replay(h) && AllStarted(tracker.view) && WellFormed(h)
    ensures MatchesHistory(tracker, h)
  {
    CountMatches(tracker, h);
    forall k
      ensures k in tracker.itemsNotOK <==> LastObserved(h, k).Some? && !LastObserved(h, k).value.state.OK?
      ensures k in tracker.itemsOK <==> LastObserved(h, k).Some? && LastObserved(h, k).value.state.OK?
      ensures k in tracker.itemsNotOK ==> IsLastObservation(h, k, tracker.itemsNotOK[k])
    {
      ObjectMatches(tracker, h, k);
    }
  }

  lemma RunMatches(tracker: ItemStatesTracker, feeds: seq<map<string, Item>>, ts: seq<seq<Observation>>,
                   sources: seq<Source>)
    requires tracker.Valid() && Chronicle(EMPTY, feeds, ts, sources, tracker.view)
    requires forall i :: 0 <= i < |feeds| ==> WellKeyed(feeds[i])
    ensures |ts| == |feeds| && (forall i :: 0 <= i < |feeds| ==> Calls(ts)[i].items == feeds[i])
    ensures MatchesHistory(tracker, Calls(ts))
  {
    assert [] + Calls(ts) == Calls(ts);
    ChronicleIsReplay([], feeds, ts, sources, tracker.view);
    CallsAreFeeds(EMPTY, feeds, ts, sources, tracker.view);
    ChronicleStarts(EMPTY, feeds, ts, sources, tracker.view);
    ReplayMatches(tracker, Calls(ts));
  }

  /** A new tracker after a whole run matches the history of what it was fed, and what it
      published reports the calls of that history that changed an incident. */
  method RunFromStart(feeds: seq<map<string, Item>>)
    returns (tracker: ItemStatesTracker, ns: seq<Notification>, ghost ts: seq<seq<Observation>>,
             ghost sources: seq<Source>, ghost objects: set<ItemWContext>)
    requires forall i :: 0 <= i < |feeds| ==> WellKeyed(feeds[i])
    ensures fresh(tracker) && tracker.Valid()
    ensures Chronicle(EMPTY, feeds, ts, sources, tracker.view) && AllReport(ns, sources, objects)
    ensures |ts| == |feeds| && forall i :: 0 <= i < |feeds| ==> Calls(ts)[i].items == feeds[i]
    ensures MatchesHistory(tracker, Calls(ts))
  {
    tracker := new ItemStatesTracker();
    ns, ts, sources, objects := RunFeeds(tracker, feeds, {});
    RunMatches(tracker, feeds, ts, sources);
  }
}
