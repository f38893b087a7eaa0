/** The display-ready view of the domain state. */
module Snapshots {
  import opened Items
  import opened Domain
  import TrackerSpec

  datatype OverallState = Unknown | Ok | InternalError | Warning | Error

  datatype SnoozedIncident = SnoozedIncident(incident: Incident, until: Instant)

  datatype UiSnapshot = UiSnapshot(
    servers: seq<ServerStatus>, active: seq<Incident>, snoozed: seq<SnoozedIncident>,
    alertingState: OverallState, snoozedState: Option<OverallState>, unknownServerCount: nat)

  function Rank(state: OverallState): nat {
    match state
    case Unknown => 0
    case Ok => 1
    case InternalError => 2
    case Warning => 3
    case Error => 4
  }

  predicate IsInternal(key: string) {
    |key| >= 9 && key[..9] == "internal."
  }

  /** What one incident contributes. */
  function Severity(item: Incident): OverallState {
    if IsInternal(item.key) && !item.state.OK? then InternalError
    else match item.state
      case OK => Ok
      case Warning => OverallState.Warning
      case Error => OverallState.Error
  }

  function Overall(items: seq<Incident>): OverallState {
    if items == [] then Ok
    else
      var before := Overall(items[..|items| - 1]);
      var current := Severity(items[|items| - 1]);
      if Rank(current) > Rank(before) then current else before
  }

  /** The overall state is the worst contribution, and `Ok` where there is none. */
  lemma {:induction false} OverallIsWorst(items: seq<Incident>)
    ensures forall i :: 0 <= i < |items| ==> Rank(Severity(items[i])) <= Rank(Overall(items))
    ensures Overall(items) == Ok || exists i :: 0 <= i < |items| && Severity(items[i]) == Overall(items)
    ensures Rank(Overall(items)) >= Rank(Ok)
  {
    if items != [] {
      var front := items[..|items| - 1];
      OverallIsWorst(front);
      assert forall i :: 0 <= i < |front| ==> items[i] == front[i];
      if Overall(front) != Ok {
        var i :| 0 <= i < |front| && Severity(front[i]) == Overall(front);
        assert Severity(items[i]) == Overall(front);
      }
    }
  }

  method WorstOf(items: seq<Incident>) returns (overall: OverallState)
    ensures overall == Overall(items)
  {
    overall := Ok;
    for i := 0 to |items|
      invariant overall == Overall(items[..i])
    {
      assert items[..i + 1][..i] == items[..i];
      var current := Severity(items[i]);
      if Rank(current) > Rank(overall) {
        overall := current;
      }
    }
    assert items[..|items|] == items;
  }

  // ---------------------------------------------------------------- order of display

  /** A set of keys in ascending order, as a B-tree map iterates. */
  ghost function Ascending(keys: set<string>): seq<string>
    decreases |keys|
  {
    if keys == {} then []
    else
      var k := TrackerSpec.Least(keys);
      [k] + Ascending(keys - {k})
  }

  ghost function ListedInternal(internal: map<string, Incident>, keys: seq<string>): seq<Incident> {
    if keys == [] then []
    else
      var k := keys[|keys| - 1];
      ListedInternal(internal, keys[..|keys| - 1]) + if k in internal then [internal[k]] else []
  }

  function ListedServers(incidents: map<string, seq<Incident>>, order: seq<string>): seq<Incident> {
    if order == [] then []
    else
      var id := order[|order| - 1];
      ListedServers(incidents, order[..|order| - 1]) + if id in incidents then incidents[id] else []
  }

  /** Internal failures by key, then each server's list in configuration order. */
  ghost function Displayed(s: AppState): seq<Incident> {
    ListedInternal(s.internalIncidents, Ascending(s.internalIncidents.Keys)) + ListedServers(s.incidents, s.serverOrder)
  }

  // ---------------------------------------------------------------- classification

  function ActiveOf(items: seq<Incident>, snoozed: map<string, Instant>, now: Instant): seq<Incident> {
    if items == [] then []
    else
      var last := items[|items| - 1];
      ActiveOf(items[..|items| - 1], snoozed, now) + if IsSnoozed(snoozed, last.key, now) then [] else [last]
  }

  function SnoozedOf(items: seq<Incident>, snoozed: map<string, Instant>, now: Instant): seq<SnoozedIncident> {
    if items == [] then []
    else
      var last := items[|items| - 1];
      SnoozedOf(items[..|items| - 1], snoozed, now)
      + if IsSnoozed(snoozed, last.key, now) then [SnoozedIncident(last, snoozed[last.key])] else []
  }

  function Bare(items: seq<SnoozedIncident>): (r: seq<Incident>)
    ensures |r| == |items| && forall i :: 0 <= i < |items| ==> r[i] == items[i].incident
  {
    seq(|items|, i requires 0 <= i < |items| => items[i].incident)
  }

  lemma MultisetOfOneMore(front: seq<Incident>, last: Incident)
    ensures multiset(front + [last]) == multiset(front) + multiset{last}
  {
  }

  lemma BareOfOneMore(front: seq<SnoozedIncident>, last: SnoozedIncident)
    ensures Bare(front + [last]) == Bare(front) + [last.incident]
  {
  }

  /** Every displayed incident is in exactly one of the two lists, as often as it is
      displayed. */
  lemma {:induction false} Partition(items: seq<Incident>, snoozed: map<string, Instant>, now: Instant)
    ensures Split(items, snoozed, now) == multiset(items)
  {
    if items != [] {
      var front, last := items[..|items| - 1], items[|items| - 1];
      Partition(front, snoozed, now);
      assert items == front + [last];
      MultisetOfOneMore(front, last);
      PartitionLast(front, last, snoozed, now);
    }
  }

  /** What the two lists hold together. */
  function Split(items: seq<Incident>, snoozed: map<string, Instant>, now: Instant): multiset<Incident> {
    multiset(ActiveOf(items, snoozed, now)) + multiset(Bare(SnoozedOf(items, snoozed, now)))
  }

  lemma PartitionLast(front: seq<Incident>, last: Incident, snoozed: map<string, Instant>, now: Instant)
    ensures Split(front + [last], snoozed, now) == Split(front, snoozed, now) + multiset{last}
  {
    var items := front + [last];
    assert items[..|front|] == front;
    if IsSnoozed(snoozed, last.key, now) {
      assert ActiveOf(items, snoozed, now) == ActiveOf(front, snoozed, now);
      BareOfOneMore(SnoozedOf(front, snoozed, now), SnoozedIncident(last, snoozed[last.key]));
      MultisetOfOneMore(Bare(SnoozedOf(front, snoozed, now)), last);
    } else {
      assert SnoozedOf(items, snoozed, now) == SnoozedOf(front, snoozed, now);
      MultisetOfOneMore(ActiveOf(front, snoozed, now), last);
    }
  }

  /** Which list an incident is in is decided by its key's deadline alone. */
  lemma {:induction false} Classified(items: seq<Incident>, snoozed: map<string, Instant>, now: Instant)
    ensures forall x :: x in ActiveOf(items, snoozed, now) <==> x in items && !IsSnoozed(snoozed, x.key, now)
    ensures forall x :: x in SnoozedOf(items, snoozed, now) <==>
              x.incident in items && IsSnoozed(snoozed, x.incident.key, now) && x.until == snoozed[x.incident.key]
  {
    if items != [] {
      var front, last := items[..|items| - 1], items[|items| - 1];
      Classified(front, snoozed, now);
      assert items == front + [last];
    }
  }

  function StatusesOf(servers: map<string, ServerStatus>, order: seq<string>): seq<ServerStatus> {
    if order == [] then []
    else
      var id := order[|order| - 1];
      StatusesOf(servers, order[..|order| - 1]) + if id in servers then [servers[id]] else []
  }

  function Uninitialized(servers: seq<ServerStatus>): nat {
    if servers == [] then 0
    else Uninitialized(servers[..|servers| - 1]) + if servers[|servers| - 1].initialized then 0 else 1
  }

  ghost function SnapshotOf(s: AppState, now: Instant): UiSnapshot {
    var all := Displayed(s);
    var active, snoozed := ActiveOf(all, s.snoozed, now), SnoozedOf(all, s.snoozed, now);
    var servers := StatusesOf(s.servers, s.serverOrder);
    var unknown := Uninitialized(servers);
    UiSnapshot(servers, active, snoozed,
               if Overall(active) == Ok && unknown > 0 then Unknown else Overall(active),
               if snoozed == [] then None else Some(Overall(Bare(snoozed))),
               unknown)
  }

  // ---------------------------------------------------------------- the projection

  method LeastKey(keys: set<string>) returns (k: string)
    requires keys != {}
    ensures k == TrackerSpec.Least(keys)
  {
    k :| k in keys;
    var rest := keys - {k};
    while rest != {}
      invariant k in keys && rest <= keys
      invariant forall j :: j in keys && j !in rest ==> j == k || Less(k, j)
    {
      var j :| j in rest;
      LessTotal(j, k);
      if Less(j, k) {
        forall i | i in keys && i !in rest ensures i == j || Less(j, i) { if i != k { LessTransitive(j, k, i); } }
        k := j;
      }
      rest := rest - {j};
    }
    LeastIs(keys, k);
  }

  lemma LeastIs(keys: set<string>, k: string)
    requires k in keys && forall j :: j in keys ==> j == k || Less(k, j)
    ensures keys != {} && TrackerSpec.Least(keys) == k
  {
    var l := TrackerSpec.Least(keys);
    if l != k {
      LessTransitive(k, l, k);
      LessIrreflexive(k);
    }
  }

  lemma ListedOneMore(internal: map<string, Incident>, keys: seq<string>, k: string)
    requires k in internal
    ensures ListedInternal(internal, keys + [k]) == ListedInternal(internal, keys) + [internal[k]]
  {
    assert (keys + [k])[..|keys|] == keys;
  }

  lemma AscendingSplits(done: seq<string>, todo: set<string>)
    requires todo != {}
    ensures var k := TrackerSpec.Least(todo); done + Ascending(todo) == (done + [k]) + Ascending(todo - {k})
  {
  }

  method InternalList(internal: map<string, Incident>) returns (items: seq<Incident>)
    ensures items == ListedInternal(internal, Ascending(internal.Keys))
  {
    items := [];
    ghost var done: seq<string> := [];
    var todo := internal.Keys;
    while todo != {}
      invariant todo <= internal.Keys && done + Ascending(todo) == Ascending(internal.Keys)
      invariant items == ListedInternal(internal, done)
    {
      var k := LeastKey(todo);
      items := items + [internal[k]];
      ListedOneMore(internal, done, k);
      AscendingSplits(done, todo);
      done := done + [k];
      todo := todo - {k};
    }
    assert done + [] == done;
  }

  method ServerList(incidents: map<string, seq<Incident>>, order: seq<string>, items0: seq<Incident>)
    returns (items: seq<Incident>)
    ensures items == items0 + ListedServers(incidents, order)
  {
    items := items0;
    for i := 0 to |order|
      invariant items == items0 + ListedServers(incidents, order[..i])
    {
      assert order[..i + 1][..i] == order[..i];
      if order[i] in incidents {
        items := items + incidents[order[i]];
      }
    }
    assert order[..|order|] == order;
  }

  method Classify(items: seq<Incident>, snoozes: map<string, Instant>, now: Instant)
    returns (active: seq<Incident>, snoozed: seq<SnoozedIncident>)
    ensures active == ActiveOf(items, snoozes, now) && snoozed == SnoozedOf(items, snoozes, now)
  {
    active, snoozed := [], [];
    for i := 0 to |items|
      invariant active == ActiveOf(items[..i], snoozes, now) && snoozed == SnoozedOf(items[..i], snoozes, now)
    {
      assert items[..i + 1][..i] == items[..i];
      if IsSnoozed(snoozes, items[i].key, now) {
        snoozed := snoozed + [SnoozedIncident(items[i], snoozes[items[i].key])];
      } else {
        active := active + [items[i]];
      }
    }
    assert items[..|items|] == items;
  }

  method Statuses(servers: map<string, ServerStatus>, order: seq<string>)
    returns (list: seq<ServerStatus>, unknown: nat)
    ensures list == StatusesOf(servers, order) && unknown == Uninitialized(list)
  {
    list, unknown := [], 0;
    for i := 0 to |order|
      invariant list == StatusesOf(servers, order[..i]) && unknown == Uninitialized(list)
    {
      assert order[..i + 1][..i] == order[..i];
      if order[i] in servers {
        var status := servers[order[i]];
        assert (list + [status])[..|list|] == list;
        list := list + [status];
        if !status.initialized {
          unknown := unknown + 1;
        }
      }
    }
    assert order[..|order|] == order;
  }

  method Snapshot(s: AppState, now: Instant) returns (ui: UiSnapshot)
    ensures ui == SnapshotOf(s, now)
  {
    var internal := InternalList(s.internalIncidents);
    var all := ServerList(s.incidents, s.serverOrder, internal);
    var active, snoozed := Classify(all, s.snoozed, now);
    var servers, unknown := Statuses(s.servers, s.serverOrder);
    var alerting := WorstOf(active);
    if alerting == Ok && unknown > 0 {
      alerting := Unknown;
    }
    var hidden := None;
    if snoozed != [] {
      var worst := WorstOf(Bare(snoozed));
      hidden := Some(worst);
    }
    ui := UiSnapshot(servers, active, snoozed, alerting, hidden, unknown);
  }
}
