/** Where an incident's key comes from: the ids that the configuration accepts, and what
    they guarantee about the keys of every reachable state. */
module Namespaces {
  import opened Items
  import opened Domain
  import opened Snapshots
  import opened History
  import TrackerSpec

  predicate IsIdChar(c: char) {
    'a' <= c <= 'z' || 'A' <= c <= 'Z' || '0' <= c <= '9' || c == '_' || c == '-'
  }

  /** `validate_server_id`. */
  predicate ValidServerId(id: string) {
    id != "" && (forall i :: 0 <= i < |id| ==> IsIdChar(id[i])) && id != "internal"
  }

  predicate ValidIds(ids: seq<string>) {
    && ids != []
    && (forall i :: 0 <= i < |ids| ==> ValidServerId(ids[i]))
    && (forall i, j :: 0 <= i < j < |ids| ==> ids[i] != ids[j])
  }

  /** The id checks of `validate`, with its set of ids seen so far. */
  method Validate(ids: seq<string>) returns (ok: bool)
    ensures ok <==> ValidIds(ids)
  {
    if ids == [] {
      return false;
    }
    var seen := {};
    for i := 0 to |ids|
      invariant forall id :: id in seen <==> id in ids[..i]
      invariant forall j :: 0 <= j < i ==> ValidServerId(ids[j])
      invariant forall j, k :: 0 <= j < k < i ==> ids[j] != ids[k]
    {
      if !ValidServerId(ids[i]) {
        return false;
      }
      if ids[i] in seen {
        return false;
      }
      seen := seen + {ids[i]};
    }
    ok := true;
  }

  /** The text of a key before its first dot. */
  function Source(key: string): string {
    if key == "" || key[0] == '.' then "" else [key[0]] + Source(key[1..])
  }

  lemma {:induction false} SourceOf(id: string, rest: string)
    requires forall i :: 0 <= i < |id| ==> id[i] != '.'
    ensures Source(id + "." + rest) == id
  {
    var key := id + "." + rest;
    if id != "" {
      assert key[1..] == id[1..] + "." + rest;
      SourceOf(id[1..], rest);
      assert id == [id[0]] + id[1..];
    }
  }

  lemma SourceOfValid(id: string, rest: string)
    requires ValidServerId(id)
    ensures Source(id + "." + rest) == id
  {
    forall i | 0 <= i < |id| ensures id[i] != '.' { assert IsIdChar(id[i]); }
    SourceOf(id, rest);
  }

  lemma SourceOfInternal(id: string)
    ensures Source(ConnectionKey(id)) == "internal" && IsInternal(ConnectionKey(id))
    ensures Source(TunnelKey(id)) == "internal" && IsInternal(TunnelKey(id))
  {
    assert ConnectionKey(id) == "internal" + "." + ("connection." + id);
    SourceOf("internal", "connection." + id);
    assert TunnelKey(id) == "internal" + "." + ("tunnel." + id);
    SourceOf("internal", "tunnel." + id);
  }

  /** A key of another source is not taken for an internal one. */
  lemma InternalSource(key: string)
    requires IsInternal(key)
    ensures Source(key) == "internal"
  {
    assert key == "internal" + "." + key[9..];
    SourceOf("internal", key[9..]);
  }

  // ---------------------------------------------------------------- reachable states

  ghost predicate ListsNamed(s: AppState) {
    && (forall id :: id in s.incidents ==> id in s.servers)
    && (forall id, i :: id in s.incidents && 0 <= i < |s.incidents[id]| ==> Source(s.incidents[id][i].key) == id)
  }

  /** The client's cards are errors under their own internal keys. */
  ghost predicate CardsNamed(internal: map<string, Incident>) {
    forall key :: key in internal ==>
      internal[key].key == key && internal[key].state == Items.Error && IsInternal(key)
  }

  ghost predicate InternalNamed(s: AppState) {
    CardsNamed(s.internalIncidents)
  }

  ghost predicate Named(s: AppState) {
    ListsNamed(s) && InternalNamed(s)
  }

  lemma ListStepNamed(format: Instant -> string, s: AppState, e: Event, id: string)
    requires ListsNamed(s) && id in Next(format, s, e).incidents && forall j :: j in s.servers ==> ValidServerId(j)
    ensures id in s.servers
    ensures forall item :: item in Next(format, s, e).incidents[id] ==> Source(item.key) == id
  {
    if Notifies(e, id) {
      if id in s.servers {
        var list := PrefixedAll(e.data.total, id);
        forall i | 0 <= i < |list|
          ensures Source(list[i].key) == id
        {
          SourceOfValid(id, e.data.total[i].key);
        }
      }
    } else {
      assert id in s.incidents;
      forall item | item in Next(format, s, e).incidents[id]
        ensures Source(item.key) == id
      {
        NothingFreshens(format, s, e, id, item);
      }
    }
  }

  lemma RaisedNamed(format: Instant -> string, internal: map<string, Incident>, key: string, at: Instant, error: string)
    requires CardsNamed(internal) && IsInternal(key)
    ensures CardsNamed(Raised(format, internal, key, at, error))
  {
  }

  lemma InternalStepNamed(format: Instant -> string, s: AppState, e: Event)
    requires InternalNamed(s)
    ensures InternalNamed(Next(format, s, e))
  {
    var cards := s.internalIncidents;
    match e
    case Disconnected(id, at, error) =>
      SourceOfInternal(id);
      RaisedNamed(format, cards, ConnectionKey(id), at, error);
    case TunnelFailed(id, at, error) =>
      SourceOfInternal(id);
      RaisedNamed(format, cards - {ConnectionKey(id)}, TunnelKey(id), at, error);
    case _ =>
  }

  lemma StepNamed(format: Instant -> string, s: AppState, e: Event)
    requires Named(s) && forall id :: id in s.servers ==> ValidServerId(id)
    ensures Named(Next(format, s, e))
  {
    var s' := Next(format, s, e);
    InternalStepNamed(format, s, e);
    ServersStep(format, s, e);
    forall id | id in s'.incidents
      ensures id in s'.servers && forall i :: 0 <= i < |s'.incidents[id]| ==> Source(s'.incidents[id][i].key) == id
    {
      ListStepNamed(format, s, e, id);
    }
  }

  /** In every reachable state the text of a key before its first dot names its source:
      the server whose list holds it, or the client itself. */
  lemma {:induction false} KeysNameTheirSource(format: Instant -> string, ids: seq<string>,
                                               snoozed: map<string, Instant>, h: seq<Event>)
    requires ValidIds(ids)
    ensures Named(After(format, Fresh(ids, snoozed), h))
    ensures forall id :: id in After(format, Fresh(ids, snoozed), h).incidents ==> ValidServerId(id)
  {
    var start := Fresh(ids, snoozed);
    ServersStay(format, start, h);
    forall id | id in start.servers ensures ValidServerId(id) { assert id in ids; }
    if h != [] {
      KeysNameTheirSource(format, ids, snoozed, h[..|h| - 1]);
      ServersStay(format, start, h[..|h| - 1]);
      StepNamed(format, After(format, start, h[..|h| - 1]), h[|h| - 1]);
    }
  }

  /** Two servers never share a key, and no server shares one with the client. */
  lemma SourcesShareNoKey(format: Instant -> string, ids: seq<string>, snoozed: map<string, Instant>, h: seq<Event>,
                          a: string, b: string, i: nat, j: nat)
    requires ValidIds(ids)
    requires a in After(format, Fresh(ids, snoozed), h).incidents
    requires i < |After(format, Fresh(ids, snoozed), h).incidents[a]|
    ensures var s := After(format, Fresh(ids, snoozed), h);
            && s.incidents[a][i].key !in s.internalIncidents
            && (b in s.incidents && j < |s.incidents[b]| && s.incidents[a][i].key == s.incidents[b][j].key ==> a == b)
  {
    KeysNameTheirSource(format, ids, snoozed, h);
    var s := After(format, Fresh(ids, snoozed), h);
    if s.incidents[a][i].key in s.internalIncidents {
      InternalSource(s.incidents[a][i].key);
    }
  }

  /** Dismissing a key touches the list of the server it names and no other, and no
      internal incident. */
  lemma ForgetTouchesItsServer(format: Instant -> string, ids: seq<string>, snoozed: map<string, Instant>,
                               h: seq<Event>, key: string, id: string)
    requires ValidIds(ids) && id in After(format, Fresh(ids, snoozed), h).incidents
    ensures var s := After(format, Fresh(ids, snoozed), h);
            var s' := Next(format, s, ForgetStale(key));
            && s'.internalIncidents == s.internalIncidents && s'.servers == s.servers && s'.snoozed == s.snoozed
            && s'.incidents.Keys == s.incidents.Keys
            && (s'.incidents[id] != s.incidents[id] ==> id == Source(key))
  {
    KeysNameTheirSource(format, ids, snoozed, h);
    var list := After(format, Fresh(ids, snoozed), h).incidents[id];
    if Source(key) != id {
      RetainsOthers(list, key);
    }
  }

  lemma {:induction false} RetainsOthers(items: seq<Incident>, key: string)
    requires forall i :: 0 <= i < |items| ==> items[i].key != key
    ensures Retained(items, key) == items
  {
    if items != [] {
      RetainsOthers(items[..|items| - 1], key);
      assert items == items[..|items| - 1] + [items[|items| - 1]];
    }
  }

  /** The magenta state stands for exactly the failures the client generated itself. */
  lemma InternalErrorIsOurs(format: Instant -> string, ids: seq<string>, snoozed: map<string, Instant>, h: seq<Event>)
    requires ValidIds(ids)
    ensures var s := After(format, Fresh(ids, snoozed), h);
            && (forall key :: key in s.internalIncidents ==> Severity(s.internalIncidents[key]) == InternalError)
            && (forall id, i :: id in s.incidents && 0 <= i < |s.incidents[id]| ==>
                  Severity(s.incidents[id][i]) != InternalError)
  {
    KeysNameTheirSource(format, ids, snoozed, h);
    var s := After(format, Fresh(ids, snoozed), h);
    forall id, i | id in s.incidents && 0 <= i < |s.incidents[id]|
      ensures Severity(s.incidents[id][i]) != InternalError
    {
      if IsInternal(s.incidents[id][i].key) {
        InternalSource(s.incidents[id][i].key);
      }
    }
  }

  // ---------------------------------------------------------------- the state on display

  lemma {:induction false} ListedInternalHolds(internal: map<string, Incident>, keys: seq<string>, item: Incident)
    ensures item in ListedInternal(internal, keys) <==> exists k :: k in keys && k in internal && internal[k] == item
  {
    if keys != [] {
      var front, last := keys[..|keys| - 1], keys[|keys| - 1];
      ListedInternalHolds(internal, front, item);
      assert keys == front + [last];
    }
  }

  lemma {:induction false} ListedServersHolds(incidents: map<string, seq<Incident>>, order: seq<string>, item: Incident)
    ensures item in ListedServers(incidents, order) <==>
              exists id :: id in order && id in incidents && item in incidents[id]
  {
    if order != [] {
      var front, last := order[..|order| - 1], order[|order| - 1];
      ListedServersHolds(incidents, front, item);
      assert order == front + [last];
    }
  }

  lemma {:induction false} AscendingHolds(keys: set<string>, k: string)
    ensures k in Ascending(keys) <==> k in keys
    decreases |keys|
  {
    if keys != {} {
      AscendingHolds(keys - {TrackerSpec.Least(keys)}, k);
    }
  }

  /** Everything the state holds is displayed, and nothing else. */
  lemma DisplayedHolds(s: AppState, item: Incident)
    requires forall id :: id in s.incidents ==> id in s.serverOrder
    ensures item in Displayed(s) <==>
            (|| (exists k :: k in s.internalIncidents && s.internalIncidents[k] == item)
             || (exists id :: id in s.incidents && item in s.incidents[id]))
  {
    var keys := Ascending(s.internalIncidents.Keys);
    ListedInternalHolds(s.internalIncidents, keys, item);
    ListedServersHolds(s.incidents, s.serverOrder, item);
    forall k ensures k in keys <==> k in s.internalIncidents { AscendingHolds(s.internalIncidents.Keys, k); }
  }

  lemma OrderStep(format: Instant -> string, s: AppState, e: Event)
    ensures Next(format, s, e).serverOrder == s.serverOrder
  {
  }

  lemma {:induction false} OrderStays(format: Instant -> string, s: AppState, h: seq<Event>)
    ensures After(format, s, h).serverOrder == s.serverOrder
  {
    if h != [] {
      OrderStays(format, s, h[..|h| - 1]);
      OrderStep(format, After(format, s, h[..|h| - 1]), h[|h| - 1]);
    }
  }

  predicate InternalAlert(s: AppState, now: Instant) {
    exists key :: key in s.internalIncidents && !IsSnoozed(s.snoozed, key, now)
  }

  /** A server reports something that is not OK and not snoozed. */
  ghost predicate ServerAlert(s: AppState, now: Instant) {
    exists id, item ::
      && id in s.incidents && item in s.incidents[id]
      && !IsSnoozed(s.snoozed, item.key, now) && !item.state.OK?
  }

  /** The window is magenta exactly while the client has a failure of its own that is
      not snoozed and no server reports a problem that is not snoozed. */
  lemma AlertingIsInternal(format: Instant -> string, ids: seq<string>, snoozed: map<string, Instant>, h: seq<Event>,
                           now: Instant)
    requires ValidIds(ids)
    ensures var s := After(format, Fresh(ids, snoozed), h);
            SnapshotOf(s, now).alertingState == InternalError <==> InternalAlert(s, now) && !ServerAlert(s, now)
  {
    var s := After(format, Fresh(ids, snoozed), h);
    KeysNameTheirSource(format, ids, snoozed, h);
    ServersStay(format, Fresh(ids, snoozed), h);
    OrderStays(format, Fresh(ids, snoozed), h);
    InternalErrorIsOurs(format, ids, snoozed, h);
    var all := Displayed(s);
    var active := ActiveOf(all, s.snoozed, now);
    Classified(all, s.snoozed, now);
    OverallIsWorst(active);
    forall item ensures item in active <==> ActiveItem(s, now, item) { DisplayedHolds(s, item); }
    AlertingCases(s, now, active);
  }

  ghost predicate ActiveItem(s: AppState, now: Instant, item: Incident) {
    && !IsSnoozed(s.snoozed, item.key, now)
    && (|| (exists k :: k in s.internalIncidents && s.internalIncidents[k] == item)
        || (exists id :: id in s.incidents && item in s.incidents[id]))
  }

  lemma AlertingCases(s: AppState, now: Instant, active: seq<Incident>)
    requires InternalNamed(s)
    requires forall item :: item in active <==> ActiveItem(s, now, item)
    requires forall key :: key in s.internalIncidents ==> Severity(s.internalIncidents[key]) == InternalError
    requires forall id, i :: id in s.incidents && 0 <= i < |s.incidents[id]| ==>
               Severity(s.incidents[id][i]) != InternalError
    ensures Overall(active) == InternalError <==> InternalAlert(s, now) && !ServerAlert(s, now)
  {
    OverallIsWorst(active);
    if ServerAlert(s, now) {
      var id, item :|
        && id in s.incidents && item in s.incidents[id]
        && !IsSnoozed(s.snoozed, item.key, now) && !item.state.OK?;
      assert ActiveItem(s, now, item);
      var i :| 0 <= i < |active| && active[i] == item;
      assert Rank(Severity(item)) >= 3;
    } else if InternalAlert(s, now) {
      var key :| key in s.internalIncidents && !IsSnoozed(s.snoozed, key, now);
      var item := s.internalIncidents[key];
      assert ActiveItem(s, now, item);
      var i :| 0 <= i < |active| && active[i] == item;
    }
    forall i | 0 <= i < |active|
      ensures Severity(active[i]) == InternalError ==> InternalAlert(s, now)
      ensures !ServerAlert(s, now) ==> Severity(active[i]) == InternalError || Severity(active[i]) == Ok
    {
      assert active[i] in active && ActiveItem(s, now, active[i]);
      if !exists k :: k in s.internalIncidents && s.internalIncidents[k] == active[i] {
        var id :| id in s.incidents && active[i] in s.incidents[id];
      }
    }
  }
}
