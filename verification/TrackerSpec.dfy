/** What the item states tracker means, on values: the state after a feed, the
    deltas it announces and the observation history it must agree with. */
module TrackerSpec {
  import opened Items

  /** An item with the start of its incident; `None` is Go's zero time. */
  datatype Record = Record(item: Item, startedAt: Option<nat>, stale: bool)

  datatype State = State(ok: map<string, Record>, notOK: map<string, Record>)

  /** One call of `FeedItems`: the observations, and the clock readings taken for
      the incidents that the call opened. */
  datatype FeedCall = FeedCall(items: map<string, Item>, stamps: map<string, nat>)

  const EMPTY := State(map[], map[])

  predicate WellKeyed(items: map<string, Item>) {
    forall k :: k in items ==> items[k].key == k
  }

  function Stamp(stamps: map<string, nat>, k: string): Option<nat> {
    if k in stamps then Some(stamps[k]) else None
  }

  ghost predicate Valid(s: State) {
    && s.ok.Keys !! s.notOK.Keys
    && (forall k :: k in s.ok ==> s.ok[k].item.key == k && s.ok[k].item.state.OK?)
    && (forall k :: k in s.notOK ==> s.notOK[k].item.key == k && !s.notOK[k].item.state.OK?)
  }

  /** A known incident with its latest observation; its start time stays. */
  function Amend(r: Record, item: Item): Record {
    Record(item, r.startedAt, r.stale)
  }

  /** One observation, in the order of the source's branches. */
  function FeedOne(s: State, item: Item, now: Option<nat>): State {
    var k := item.key;
    if item.state.OK? then
      State(if k in s.ok then s.ok else s.ok[k := Record(item, None, false)], s.notOK - {k})
    else
      State(s.ok - {k},
            if k in s.notOK then s.notOK[k := Amend(s.notOK[k], item)]
            else s.notOK[k := Record(item, now, false)])
  }

  /** The record of `k` among the OK items after a call, if any. */
  function OkAfter(s: State, call: FeedCall, k: string): Option<Record> {
    if k in call.items && !call.items[k].state.OK? then None
    else if k in s.ok then Some(s.ok[k])
    else if k in call.items then Some(Record(call.items[k], None, false))
    else None
  }

  /** The record of `k` among the not-OK items after a call, if any. */
  function NotOKAfter(s: State, call: FeedCall, k: string): Option<Record> {
    if k !in call.items then if k in s.notOK then Some(s.notOK[k]) else None
    else if call.items[k].state.OK? then None
    else if k in s.notOK then Some(Amend(s.notOK[k], call.items[k]))
    else Some(Record(call.items[k], Stamp(call.stamps, k), false))
  }

  /** All observations of a call at once, independent of iteration order. */
  function Feed(s: State, call: FeedCall): State {
    State(
      map k | k in s.ok.Keys + call.items.Keys && OkAfter(s, call, k).Some? :: OkAfter(s, call, k).value,
      map k | k in s.notOK.Keys + call.items.Keys && NotOKAfter(s, call, k).Some? :: NotOKAfter(s, call, k).value)
  }

  datatype Change = Began | Ended | Amended

  function Lookup(m: map<string, Record>, k: string): Option<Record> {
    if k in m then Some(m[k]) else None
  }

  /** What one observation announces when it meets the incident `known`: the new
      record of an incident that began or was amended, the last record of one that ended. */
  function AnnouncedBy(change: Change, known: Option<Record>, item: Item, now: Option<nat>): Option<Record> {
    if item.state.OK? then
      if change.Ended? then known else None
    else if known.None? then
      if change.Began? then Some(Record(item, now, false)) else None
    else if change.Amended? && known.value.item != item then Some(Amend(known.value, item))
    else None
  }

  function Announced(change: Change, s: State, call: FeedCall, k: string): Option<Record> {
    if k !in call.items then None
    else AnnouncedBy(change, Lookup(s.notOK, k), call.items[k], Stamp(call.stamps, k))
  }

  /** A delta list's contents. */
  function Delta(change: Change, s: State, call: FeedCall): map<string, Record> {
    map k | k in call.items && Announced(change, s, call, k).Some? :: Announced(change, s, call, k).value
  }

  datatype Deltas = Deltas(began: map<string, Record>, ended: map<string, Record>, amended: map<string, Record>)

  function AllDeltas(s: State, call: FeedCall): Deltas {
    Deltas(Delta(Began, s, call), Delta(Ended, s, call), Delta(Amended, s, call))
  }

  /** What one observation adds to a delta, `s` being the state it meets. */
  function DeltaOne(change: Change, s: State, delta: map<string, Record>, item: Item, now: Option<nat>)
    : map<string, Record>
  {
    var x := AnnouncedBy(change, Lookup(s.notOK, item.key), item, now);
    if x.Some? then delta[item.key := x.value] else delta
  }

  function Extend(call: FeedCall, item: Item, now: Option<nat>): FeedCall {
    FeedCall(call.items[item.key := item], if now.Some? then call.stamps[item.key := now.value] else call.stamps)
  }

  /** Membership and value of each key after a call. */
  lemma FeedAt(s: State, call: FeedCall, k: string)
    ensures (k in Feed(s, call).ok <==> OkAfter(s, call, k).Some?)
    ensures (k in Feed(s, call).notOK <==> NotOKAfter(s, call, k).Some?)
    ensures k in Feed(s, call).ok ==> Feed(s, call).ok[k] == OkAfter(s, call, k).value
    ensures k in Feed(s, call).notOK ==> Feed(s, call).notOK[k] == NotOKAfter(s, call, k).value
  {
  }

  lemma SameMap(a: map<string, Record>, b: map<string, Record>)
    requires forall k :: k in a <==> k in b
    requires forall k :: k in a && k in b ==> a[k] == b[k]
    ensures a == b
  {
  }

  /** Feeding one more key extends a feed by one observation. */
  lemma FeedExtend(s: State, call: FeedCall, item: Item, now: Option<nat>)
    requires item.key !in call.items && item.key !in call.stamps
    ensures Feed(s, Extend(call, item, now)) == FeedOne(Feed(s, call), item, now)
  {
    FeedExtendOk(s, call, item, now);
    FeedExtendNotOK(s, call, item, now);
  }

  lemma FeedExtendOk(s: State, call: FeedCall, item: Item, now: Option<nat>)
    requires item.key !in call.items && item.key !in call.stamps
    ensures Feed(s, Extend(call, item, now)).ok == FeedOne(Feed(s, call), item, now).ok
  {
    var a, b := Feed(s, Extend(call, item, now)).ok, FeedOne(Feed(s, call), item, now).ok;
    forall j ensures (j in a <==> j in b) && (j in a && j in b ==> a[j] == b[j]) {
      FeedAt(s, call, j);
      FeedAt(s, Extend(call, item, now), j);
    }
    SameMap(a, b);
  }

  lemma FeedExtendNotOK(s: State, call: FeedCall, item: Item, now: Option<nat>)
    requires item.key !in call.items && item.key !in call.stamps
    ensures Feed(s, Extend(call, item, now)).notOK == FeedOne(Feed(s, call), item, now).notOK
  {
    var a, b := Feed(s, Extend(call, item, now)).notOK, FeedOne(Feed(s, call), item, now).notOK;
    forall k ensures Lookup(a, k) == Lookup(b, k) {
      FeedLookup(s, Extend(call, item, now), k);
      FeedOneLookup(Feed(s, call), item, now, k);
      FeedLookup(s, call, k);
    }
    SameLookup(a, b);
  }

  lemma FeedOneLookup(s: State, item: Item, now: Option<nat>, k: string)
    ensures Lookup(FeedOne(s, item, now).notOK, k) ==
            if k != item.key then Lookup(s.notOK, k)
            else if item.state.OK? then None
            else if k in s.notOK then Some(Amend(s.notOK[k], item))
            else Some(Record(item, now, false))
  {
  }

  lemma DeltaLookup(change: Change, s: State, call: FeedCall, k: string)
    ensures Lookup(Delta(change, s, call), k) == Announced(change, s, call, k)
  {
  }

  lemma FeedLookup(s: State, call: FeedCall, k: string)
    ensures Lookup(Feed(s, call).notOK, k) == NotOKAfter(s, call, k)
  {
  }

  lemma DeltaExtend(change: Change, s: State, call: FeedCall, item: Item, now: Option<nat>)
    requires item.key !in call.items && item.key !in call.stamps
    ensures Delta(change, s, Extend(call, item, now))
         == DeltaOne(change, Feed(s, call), Delta(change, s, call), item, now)
  {
    forall k ensures Lookup(Delta(change, s, Extend(call, item, now)), k)
                  == Lookup(DeltaOne(change, Feed(s, call), Delta(change, s, call), item, now), k) {
      DeltaExtendAt(change, s, call, item, now, k);
    }
    SameLookup(Delta(change, s, Extend(call, item, now)),
               DeltaOne(change, Feed(s, call), Delta(change, s, call), item, now));
  }

  lemma DeltaExtendAt(change: Change, s: State, call: FeedCall, item: Item, now: Option<nat>, k: string)
    requires item.key !in call.items && item.key !in call.stamps
    ensures Lookup(Delta(change, s, Extend(call, item, now)), k)
         == Lookup(DeltaOne(change, Feed(s, call), Delta(change, s, call), item, now), k)
  {
    DeltaLookup(change, s, Extend(call, item, now), k);
    DeltaOneAt(change, Feed(s, call), Delta(change, s, call), item, now, k);
    DeltaLookup(change, s, call, k);
    FeedLookup(s, call, item.key);
  }

  lemma DeltaOneAt(change: Change, s: State, delta: map<string, Record>, item: Item, now: Option<nat>, k: string)
    ensures var x := AnnouncedBy(change, Lookup(s.notOK, item.key), item, now);
            Lookup(DeltaOne(change, s, delta, item, now), k) == if k == item.key && x.Some? then x else Lookup(delta, k)
  {
  }

  lemma FeedNothing(s: State)
    ensures Feed(s, FeedCall(map[], map[])) == s
    ensures AllDeltas(s, FeedCall(map[], map[])) == Deltas(map[], map[], map[])
  {
    var r := Feed(s, FeedCall(map[], map[]));
    assert r.ok == s.ok && r.notOK == s.notOK;
  }

  lemma FeedValid(s: State, call: FeedCall)
    requires Valid(s) && WellKeyed(call.items)
    ensures Valid(Feed(s, call))
  {
  }

  /** Applying the announced deltas to a list of incidents. */
  function ReplayDeltas(total: map<string, Record>, d: Deltas): map<string, Record> {
    (total - d.ended.Keys) + d.began + d.amended
  }

  lemma ReplayDeltasAt(total: map<string, Record>, d: Deltas, k: string)
    ensures Lookup(ReplayDeltas(total, d), k) ==
            if k in d.amended then Some(d.amended[k]) else if k in d.began then Some(d.began[k])
            else if k in d.ended then None else Lookup(total, k)
  {
  }

  // ---------- Observation by observation ----------

  datatype Observation = Observation(item: Item, now: Option<nat>)

  /** The state after the observations `t`, one at a time. */
  function FeedEach(s: State, t: seq<Observation>): State {
    if t == [] then s else FeedOne(FeedEach(s, t[..|t| - 1]), t[|t| - 1].item, t[|t| - 1].now)
  }

  function DeltaEach(change: Change, s: State, t: seq<Observation>): map<string, Record> {
    if t == [] then map[]
    else DeltaOne(change, FeedEach(s, t[..|t| - 1]), DeltaEach(change, s, t[..|t| - 1]), t[|t| - 1].item,
                  t[|t| - 1].now)
  }

  function CallOf(t: seq<Observation>): FeedCall {
    if t == [] then FeedCall(map[], map[]) else Extend(CallOf(t[..|t| - 1]), t[|t| - 1].item, t[|t| - 1].now)
  }

  ghost predicate DistinctKeys(t: seq<Observation>) {
    forall i, j :: 0 <= i < j < |t| ==> t[i].item.key != t[j].item.key
  }

  lemma {:induction false} CallOfKeys(t: seq<Observation>)
    ensures CallOf(t).stamps.Keys <= CallOf(t).items.Keys
    ensures forall k :: k in CallOf(t).items <==> exists i :: 0 <= i < |t| && t[i].item.key == k
    ensures DistinctKeys(t) ==> forall i :: 0 <= i < |t| ==> CallOf(t).items[t[i].item.key] == t[i].item
  {
    if t != [] {
      var t' := t[..|t| - 1];
      CallOfKeys(t');
      forall k | k in CallOf(t).items ensures exists i :: 0 <= i < |t| && t[i].item.key == k {
        if k in CallOf(t').items {
          var i :| 0 <= i < |t'| && t'[i].item.key == k;
          assert t[i].item.key == k;
        } else {
          assert t[|t| - 1].item.key == k;
        }
      }
      forall i | 0 <= i < |t| ensures t[i].item.key in CallOf(t).items {
        if i < |t'| {
          assert t'[i].item.key == t[i].item.key;
        }
      }
    }
  }

  /** Whatever the order, observing the keys one by one is the feed of all of them. */
  lemma {:induction false} EachIsFeed(s: State, t: seq<Observation>)
    requires DistinctKeys(t)
    ensures FeedEach(s, t) == Feed(s, CallOf(t))
    ensures forall change :: DeltaEach(change, s, t) == Delta(change, s, CallOf(t))
  {
    if t == [] {
      FeedNothing(s);
    } else {
      var t', x := t[..|t| - 1], t[|t| - 1];
      EachIsFeed(s, t');
      CallOfKeys(t');
      FeedExtend(s, CallOf(t'), x.item, x.now);
      forall change ensures DeltaEach(change, s, t) == Delta(change, s, CallOf(t)) {
        DeltaExtend(change, s, CallOf(t'), x.item, x.now);
      }
    }
  }

  /** The deltas turn the previous Total into the new one. */
  lemma DeltaReplay(s: State, call: FeedCall)
    ensures ReplayDeltas(s.notOK, AllDeltas(s, call)) == Feed(s, call).notOK
  {
    var after, replayed := Feed(s, call).notOK, ReplayDeltas(s.notOK, AllDeltas(s, call));
    forall k ensures Lookup(after, k) == Lookup(replayed, k) {
      FeedAt(s, call, k);
      DeltaAt(s, call, k);
      ReplayDeltasAt(s.notOK, AllDeltas(s, call), k);
    }
    SameLookup(after, replayed);
  }

  lemma SameLookup(a: map<string, Record>, b: map<string, Record>)
    requires forall k :: Lookup(a, k) == Lookup(b, k)
    ensures a == b
  {
    forall k ensures (k in a <==> k in b) && (k in a && k in b ==> a[k] == b[k]) {
      assert Lookup(a, k) == Lookup(b, k);
    }
  }

  /** No key is announced twice, and only known incidents end or are amended. */
  lemma DeltasDisjoint(s: State, call: FeedCall)
    ensures var d := AllDeltas(s, call);
            && d.began.Keys !! d.ended.Keys !! d.amended.Keys
            && d.began.Keys !! s.notOK.Keys && d.ended.Keys + d.amended.Keys <= s.notOK.Keys
            && (forall k :: k in d.ended ==> d.ended[k] == s.notOK[k])
  {
    var d := AllDeltas(s, call);
    forall k
      ensures !(k in d.began && k in d.ended) && !(k in d.began && k in d.amended) && !(k in d.ended && k in d.amended)
      ensures (k in d.began ==> k !in s.notOK) && (k in d.amended ==> k in s.notOK)
      ensures k in d.ended ==> k in s.notOK && d.ended[k] == s.notOK[k]
    {
      DeltaAt(s, call, k);
    }
  }

  lemma DeltaAt(s: State, call: FeedCall, k: string)
    ensures var d := AllDeltas(s, call);
            && (k in d.began <==> Announced(Began, s, call, k).Some?)
            && (k in d.ended <==> Announced(Ended, s, call, k).Some?)
            && (k in d.amended <==> Announced(Amended, s, call, k).Some?)
            && (k in d.began ==> d.began[k] == Announced(Began, s, call, k).value)
            && (k in d.ended ==> d.ended[k] == Announced(Ended, s, call, k).value)
            && (k in d.amended ==> d.amended[k] == Announced(Amended, s, call, k).value)
  {
  }

  /** There is nothing to announce exactly when the Total did not change. */
  lemma SilentIffUnchanged(s: State, call: FeedCall)
    ensures AllDeltas(s, call) == Deltas(map[], map[], map[]) <==> Feed(s, call).notOK == s.notOK
  {
    if Feed(s, call).notOK == s.notOK {
      forall change, k ensures k !in Delta(change, s, call) {
        FeedAt(s, call, k);
      }
    }
    if AllDeltas(s, call) == Deltas(map[], map[], map[]) {
      DeltaReplay(s, call);
      forall k ensures Lookup(s.notOK, k) == Lookup(Feed(s, call).notOK, k) {
        ReplayDeltasAt(s.notOK, AllDeltas(s, call), k);
      }
      SameLookup(s.notOK, Feed(s, call).notOK);
    }
  }

  // ---------- Agreement with the observation history ----------

  ghost predicate WellFormed(h: seq<FeedCall>) {
    forall i :: 0 <= i < |h| ==> WellKeyed(h[i].items)
  }

  function Replay(h: seq<FeedCall>): State {
    if h == [] then EMPTY else Feed(Replay(h[..|h| - 1]), h[|h| - 1])
  }

  /** The latest observation of `k`, ignoring everything the tracker stores. */
  function LastObserved(h: seq<FeedCall>, k: string): Option<Item> {
    if h == [] then None
    else if k in h[|h| - 1].items then Some(h[|h| - 1].items[k])
    else LastObserved(h[..|h| - 1], k)
  }

  function Seen(h: seq<FeedCall>): set<string> {
    if h == [] then {} else Seen(h[..|h| - 1]) + h[|h| - 1].items.Keys
  }

  /** Call `t` is the OK-to-non-OK transition of the incident that `k` still has. */
  ghost predicate Opens(h: seq<FeedCall>, k: string, t: nat) {
    && t < |h|
    && k in h[t].items && !h[t].items[k].state.OK?
    && (var before := LastObserved(h[..t], k); before.None? || before.value.state.OK?)
    && (forall i :: t <= i < |h| && k in h[i].items ==> !h[i].items[k].state.OK?)
  }

  lemma {:induction false} ReplayValid(h: seq<FeedCall>)
    requires WellFormed(h)
    ensures Valid(Replay(h))
  {
    if h != [] {
      var h' := h[..|h| - 1];
      ReplayValid(h');
      FeedValid(Replay(h'), h[|h| - 1]);
    }
  }

  /** The not-OK items are exactly the keys whose last observation was not OK, each
      with that observation and the start time of its transition. */
  lemma {:induction false} TrackerMatchesHistory(h: seq<FeedCall>, k: string)
    requires WellFormed(h)
    ensures var last := LastObserved(h, k);
            && (k in Replay(h).ok <==> last.Some? && last.value.state.OK?)
            && (k in Replay(h).notOK <==> last.Some? && !last.value.state.OK?)
            && (k in Replay(h).notOK ==>
                  && Replay(h).notOK[k].item == last.value
                  && exists t: nat :: Opens(h, k, t) && Replay(h).notOK[k].startedAt == Stamp(h[t].stamps, k))
  {
    if h != [] {
      var h', call := h[..|h| - 1], h[|h| - 1];
      TrackerMatchesHistory(h', k);
      FeedAt(Replay(h'), call, k);
      var s := Replay(h');
      if k in Replay(h).notOK {
        if k in s.notOK {
          var t: nat :| Opens(h', k, t) && s.notOK[k].startedAt == Stamp(h'[t].stamps, k);
          StillOpen(h, k, t);
        } else {
          assert Opens(h, k, |h| - 1);
        }
      }
    }
  }

  lemma StillOpen(h: seq<FeedCall>, k: string, t: nat)
    requires h != [] && Opens(h[..|h| - 1], k, t)
    requires k in h[|h| - 1].items ==> !h[|h| - 1].items[k].state.OK?
    ensures Opens(h, k, t) && h[..|h| - 1][t] == h[t]
  {
    assert h[..t] == h[..|h| - 1][..t];
  }

  lemma {:induction false} SeenIffObserved(h: seq<FeedCall>, k: string)
    ensures k in Seen(h) <==> LastObserved(h, k).Some?
  {
    if h != [] {
      SeenIffObserved(h[..|h| - 1], k);
    }
  }

  /** OK items and ongoing incidents together count every key ever observed. */
  lemma EveryKeyCounted(h: seq<FeedCall>)
    requires WellFormed(h)
    ensures Replay(h).ok.Keys + Replay(h).notOK.Keys == Seen(h)
    ensures |Replay(h).ok| + |Replay(h).notOK| == |Seen(h)|
  {
    ReplayValid(h);
    var s := Replay(h);
    forall k ensures k in s.ok || k in s.notOK <==> k in Seen(h) {
      TrackerMatchesHistory(h, k);
      SeenIffObserved(h, k);
    }
    assert |s.ok.Keys + s.notOK.Keys| == |s.ok.Keys| + |s.notOK.Keys|;
  }

  // ---------- Published lists ----------

  ghost predicate StrictlySorted(list: seq<Record>) {
    forall i, j :: 0 <= i < j < |list| ==> Less(list[i].item.key, list[j].item.key)
  }

  /** `list` holds exactly the map's records, strictly sorted by key. */
  ghost predicate Lists(list: seq<Record>, m: map<string, Record>) {
    && StrictlySorted(list)
    && (forall i :: 0 <= i < |list| ==> list[i].item.key in m && m[list[i].item.key] == list[i])
    && (forall k :: k in m ==> m[k].item.key == k && m[k] in list)
  }

  lemma ListingEmpty(a: seq<Record>, m: map<string, Record>)
    requires Lists(a, m)
    ensures a == [] <==> m.Keys == {}
  {
    if a != [] {
      assert a[0].item.key in m;
    }
  }

  /** A map has only one listing, so a published list is a function of the map. */
  lemma {:induction false} ListingUnique(a: seq<Record>, b: seq<Record>, m: map<string, Record>)
    requires Lists(a, m) && Lists(b, m)
    ensures a == b
  {
    ListingEmpty(a, m);
    ListingEmpty(b, m);
    if a != [] {
      FirstAgrees(a, b, m);
      TailLists(a, m);
      TailLists(b, m);
      ListingUnique(a[1..], b[1..], m - {a[0].item.key});
      assert a == [a[0]] + a[1..] && b == [b[0]] + b[1..];
    }
  }

  lemma TailLists(a: seq<Record>, m: map<string, Record>)
    requires Lists(a, m) && a != []
    ensures Lists(a[1..], m - {a[0].item.key})
  {
    var k := a[0].item.key;
    LessIrreflexive(k);
    forall j | j in m - {k} ensures m[j] in a[1..] {
      var i :| 0 <= i < |a| && a[i] == m[j];
      assert a[1..][i - 1] == m[j];
    }
  }

  lemma FirstAgrees(a: seq<Record>, b: seq<Record>, m: map<string, Record>)
    requires Lists(a, m) && Lists(b, m) && a != [] && b != []
    ensures a[0] == b[0]
  {
    assert a[0] in b && b[0] in a;
    var i :| 0 <= i < |b| && b[i] == a[0];
    var j :| 0 <= j < |a| && a[j] == b[0];
    if i != 0 && j != 0 {
      LessTransitive(a[0].item.key, b[0].item.key, a[0].item.key);
      LessIrreflexive(a[0].item.key);
    }
  }

  ghost predicate IsLeast(keys: set<string>, k: string) {
    k in keys && forall j :: j in keys ==> j == k || Less(k, j)
  }

  lemma {:induction false} LeastExists(keys: set<string>)
    requires keys != {}
    ensures exists k :: IsLeast(keys, k)
  {
    var x :| x in keys;
    if keys == {x} {
      assert IsLeast(keys, x);
    } else {
      var rest := keys - {x};
      assert keys == rest + {x};
      LeastExists(rest);
      var m :| IsLeast(rest, m);
      LessTotal(x, m);
      if Less(x, m) {
        forall j | j in keys ensures j == x || Less(x, j) {
          if j != x && j != m { LessTransitive(x, m, j); }
        }
        assert IsLeast(keys, x);
      } else {
        assert IsLeast(keys, m);
      }
    }
  }

  ghost function Least(keys: set<string>): string
    requires keys != {}
  {
    LeastExists(keys);
    var k :| IsLeast(keys, k);
    k
  }

  /** The map's records in key order. */
  ghost function Listing(m: map<string, Record>): seq<Record>
    decreases |m|
  {
    if m == map[] then []
    else
      assert m.Keys != {};
      var k := Least(m.Keys);
      assert |m - {k}| < |m| by { assert (m - {k}).Keys == m.Keys - {k}; }
      [m[k]] + Listing(m - {k})
  }

  /** The listing holds exactly the map's records, strictly sorted by key. */
  lemma {:induction false} ListingLists(m: map<string, Record>)
    requires forall k :: k in m ==> m[k].item.key == k
    ensures Lists(Listing(m), m)
    decreases |m|
  {
    if m != map[] {
      assert m.Keys != {};
      var k := Least(m.Keys);
      var rest := m - {k};
      assert |rest| < |m| by { assert rest.Keys == m.Keys - {k}; }
      ListingLists(rest);
      ConsLists(m[k], Listing(rest), m);
    }
  }

  lemma ConsLists(r: Record, tail: seq<Record>, m: map<string, Record>)
    requires IsLeast(m.Keys, r.item.key) && m[r.item.key] == r
    requires forall k :: k in m ==> m[k].item.key == k
    requires Lists(tail, m - {r.item.key})
    ensures Lists([r] + tail, m)
  {
    var l := [r] + tail;
    forall i, j | 0 <= i < j < |l| ensures Less(l[i].item.key, l[j].item.key) {
      assert l[j] == tail[j - 1];
      if i > 0 { assert l[i] == tail[i - 1]; }
    }
    forall k | k in m ensures m[k] in l {
      if k != r.item.key {
        assert (m - {r.item.key})[k] in tail;
      } else {
        assert l[0] == m[k];
      }
    }
  }
}
