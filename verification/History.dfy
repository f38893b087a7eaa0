/** A server's incident list as a function of the events received, stated by positions
    in the history and without the reducer's state. */
module History {
  import opened Items
  import opened Domain

  predicate Notifies(e: Event, id: string) {
    e.Notification? && e.serverId == id
  }

  /** The events that make a server's cached incidents stale. */
  predicate Drops(e: Event, id: string) {
    (e.Disconnected? || e.TunnelFailed?) && e.serverId == id
  }

  /** Position `n` holds the last notification of server `id`. */
  ghost predicate LastNotified(h: seq<Event>, n: int, id: string) {
    0 <= n < |h| && Notifies(h[n], id) && forall m :: n < m < |h| ==> !Notifies(h[m], id)
  }

  /** The server dropped out after position `n` and before position `m`. */
  ghost predicate DroppedBetween(h: seq<Event>, n: int, m: int, id: string) {
    exists p :: 0 <= n < p < m <= |h| && Drops(h[p], id)
  }

  /** The user dismissed `item` of the notification at `n` at a moment when it was
      stale: on the wire already, or because the server had dropped out. */
  ghost predicate DismissedWhileStale(h: seq<Event>, n: int, id: string, item: Incident) {
    exists m ::
      && 0 <= n < m < |h| && h[m] == ForgetStale(id + "." + item.key)
      && (item.stale || DroppedBetween(h, n, m, id))
  }

  /** What the history leaves of one listed item. */
  ghost function Shown(h: seq<Event>, n: int, id: string, item: Incident): Option<Incident> {
    if DismissedWhileStale(h, n, id, item) then None
    else Some(Prefixed(item, id).(stale := item.stale || DroppedBetween(h, n, |h|, id)))
  }

  ghost function ShownAll(h: seq<Event>, n: int, id: string, items: seq<Incident>): seq<Incident> {
    if items == [] then []
    else
      var last := Shown(h, n, id, items[|items| - 1]);
      ShownAll(h, n, id, items[..|items| - 1]) + if last.Some? then [last.value] else []
  }

  // ---------------------------------------------------------------- one event

  function Apply(e: Event, id: string, items: seq<Incident>): seq<Incident> {
    if Drops(e, id) then MarkedStale(items) else if e.ForgetStale? then Retained(items, e.key) else items
  }

  function ApplyOne(e: Event, id: string, shown: Option<Incident>): Option<Incident> {
    if shown.None? then None
    else if Drops(e, id) then Some(shown.value.(stale := true))
    else if e.ForgetStale? && e.key == shown.value.key && shown.value.stale then None
    else shown
  }

  lemma DroppedExtend(h: seq<Event>, e: Event, n: int, id: string)
    requires 0 <= n < |h|
    ensures DroppedBetween(h + [e], n, |h| + 1, id) <==> DroppedBetween(h, n, |h|, id) || Drops(e, id)
    ensures forall m :: m <= |h| ==> (DroppedBetween(h + [e], n, m, id) <==> DroppedBetween(h, n, m, id))
  {
    var h' := h + [e];
    assert forall p :: 0 <= p < |h| ==> h'[p] == h[p];
    assert h'[|h|] == e;
    forall m | m <= |h|
      ensures DroppedBetween(h', n, m, id) <==> DroppedBetween(h, n, m, id)
    {
      if DroppedBetween(h', n, m, id) {
        var p :| n < p < m && Drops(h'[p], id);
        assert Drops(h[p], id);
      }
      if DroppedBetween(h, n, m, id) {
        var p :| n < p < m && Drops(h[p], id);
        assert Drops(h'[p], id);
      }
    }
    if DroppedBetween(h', n, |h| + 1, id) && !Drops(e, id) {
      var p :| n < p < |h| + 1 && Drops(h'[p], id);
      assert Drops(h[p], id);
    }
    if DroppedBetween(h, n, |h|, id) {
      var p :| n < p < |h| && Drops(h[p], id);
      assert Drops(h'[p], id);
    }
    if Drops(e, id) {
      assert Drops(h'[|h|], id);
    }
  }

  lemma DismissedExtend(h: seq<Event>, e: Event, n: int, id: string, item: Incident)
    requires 0 <= n < |h|
    ensures DismissedWhileStale(h + [e], n, id, item) <==>
            (|| DismissedWhileStale(h, n, id, item)
             || (e == ForgetStale(id + "." + item.key) && (item.stale || DroppedBetween(h, n, |h|, id))))
  {
    var h' := h + [e];
    DroppedExtend(h, e, n, id);
    if DismissedWhileStale(h', n, id, item) {
      var m :|
        && n < m < |h'| && h'[m] == ForgetStale(id + "." + item.key)
        && (item.stale || DroppedBetween(h', n, m, id));
      if m < |h| {
        assert h[m] == h'[m];
      }
    }
    if DismissedWhileStale(h, n, id, item) {
      var m :| n < m < |h| && h[m] == ForgetStale(id + "." + item.key) && (item.stale || DroppedBetween(h, n, m, id));
      assert h'[m] == h[m];
    }
    if e == ForgetStale(id + "." + item.key) && (item.stale || DroppedBetween(h, n, |h|, id)) {
      assert h'[|h|] == e;
    }
  }

  lemma ShownExtend(h: seq<Event>, e: Event, n: int, id: string, item: Incident)
    requires 0 <= n < |h|
    ensures Shown(h + [e], n, id, item) == ApplyOne(e, id, Shown(h, n, id, item))
  {
    DroppedExtend(h, e, n, id);
    DismissedExtend(h, e, n, id, item);
  }

  lemma {:induction false} ShownAllExtend(h: seq<Event>, e: Event, n: int, id: string, items: seq<Incident>)
    requires 0 <= n < |h|
    ensures ShownAll(h + [e], n, id, items) == Apply(e, id, ShownAll(h, n, id, items))
  {
    if items != [] {
      var front, last := items[..|items| - 1], items[|items| - 1];
      ShownAllExtend(h, e, n, id, front);
      ShownExtend(h, e, n, id, last);
      var shown := Shown(h, n, id, last);
      if shown.Some? {
        ApplyLast(e, id, ShownAll(h, n, id, front), shown.value);
      } else {
        assert ShownAll(h, n, id, items) == ShownAll(h, n, id, front);
        assert ShownAll(h + [e], n, id, items) == ShownAll(h + [e], n, id, front);
      }
    }
  }

  lemma ApplyLast(e: Event, id: string, front: seq<Incident>, last: Incident)
    ensures var after := ApplyOne(e, id, Some(last));
            Apply(e, id, front + [last]) == Apply(e, id, front) + if after.Some? then [after.value] else []
  {
    assert (front + [last])[..|front|] == front;
  }

  // ---------------------------------------------------------------- whole histories

  /** The reducer changes a server's list by its notifications and by `Apply` only. */
  lemma ListStep(format: Instant -> string, s: AppState, e: Event, id: string)
    requires id in s.servers
    ensures Notifies(e, id) ==>
              id in Next(format, s, e).incidents && Next(format, s, e).incidents[id] == PrefixedAll(e.data.total, id)
    ensures !Notifies(e, id) ==> (id in Next(format, s, e).incidents <==> id in s.incidents)
    ensures !Notifies(e, id) && id in s.incidents ==> Next(format, s, e).incidents[id] == Apply(e, id, s.incidents[id])
  {
  }

  lemma ServersStep(format: Instant -> string, s: AppState, e: Event)
    ensures Next(format, s, e).servers.Keys == s.servers.Keys
  {
  }

  lemma {:induction false} ServersStay(format: Instant -> string, s: AppState, h: seq<Event>)
    ensures After(format, s, h).servers.Keys == s.servers.Keys
  {
    if h != [] {
      ServersStay(format, s, h[..|h| - 1]);
      ServersStep(format, After(format, s, h[..|h| - 1]), h[|h| - 1]);
    }
  }

  lemma {:induction false} ShownAtFirst(h: seq<Event>, id: string, items: seq<Incident>)
    requires h != []
    ensures ShownAll(h, |h| - 1, id, items) == PrefixedAll(items, id)
  {
    if items != [] {
      var front, last := items[..|items| - 1], items[|items| - 1];
      ShownAtFirst(h, id, front);
      assert Shown(h, |h| - 1, id, last) == Some(Prefixed(last, id));
      assert PrefixedAll(items, id) == PrefixedAll(front, id) + [Prefixed(last, id)];
    }
  }

  /** For every history, a known server without a notification has no list; otherwise
      its list is the last notification's total, prefixed, each item stale if and only if
      it came so or the server dropped out since, without the items dismissed while
      stale. Nothing else that happened matters. */
  lemma {:induction false} ListIsHistory(format: Instant -> string, ids: seq<string>, snoozed: map<string, Instant>,
                                         h: seq<Event>, id: string)
    requires id in ids
    ensures var list := After(format, Fresh(ids, snoozed), h).incidents;
            && (id in list <==> exists n :: LastNotified(h, n, id))
            && forall n :: LastNotified(h, n, id) ==> id in list && list[id] == ShownAll(h, n, id, h[n].data.total)
  {
    if h != [] {
      var front, e := h[..|h| - 1], h[|h| - 1];
      var before := After(format, Fresh(ids, snoozed), front);
      ListIsHistory(format, ids, snoozed, front, id);
      ServersStay(format, Fresh(ids, snoozed), front);
      ListStep(format, before, e, id);
      assert h == front + [e];
      if Notifies(e, id) {
        ShownAtFirst(h, id, e.data.total);
        assert LastNotified(h, |h| - 1, id);
      } else {
        LastNotifiedExtend(front, e, id);
        forall n | LastNotified(h, n, id)
          ensures id in before.incidents && Apply(e, id, before.incidents[id]) == ShownAll(h, n, id, h[n].data.total)
        {
          assert LastNotified(front, n, id);
          ShownAllExtend(front, e, n, id, h[n].data.total);
        }
      }
    }
  }

  lemma LastNotifiedExtend(h: seq<Event>, e: Event, id: string)
    requires !Notifies(e, id)
    ensures forall n :: LastNotified(h + [e], n, id) <==> LastNotified(h, n, id)
  {
    var h' := h + [e];
    forall n
      ensures LastNotified(h', n, id) <==> LastNotified(h, n, id)
    {
      if LastNotified(h', n, id) {
        assert n < |h|;
        forall m | n < m < |h| ensures !Notifies(h[m], id) { assert h'[m] == h[m]; }
      }
    }
  }

  /** No event but a notification makes an incident fresh or adds one. */
  lemma NothingFreshens(format: Instant -> string, s: AppState, e: Event, id: string, item: Incident)
    requires id in s.servers && !Notifies(e, id)
    requires id in Next(format, s, e).incidents && item in Next(format, s, e).incidents[id]
    ensures id in s.incidents
    ensures item in s.incidents[id] || (item.stale && item.(stale := false) in s.incidents[id])
  {
    ListStep(format, s, e, id);
    var list := s.incidents[id];
    if Drops(e, id) {
      var i :| 0 <= i < |list| && MarkedStale(list)[i] == item;
      assert list[i] in list;
      assert list[i] == item || list[i] == item.(stale := false);
    } else if e.ForgetStale? {
      RetainedIn(list, e.key, item);
    }
  }

  lemma {:induction false} RetainedIn(items: seq<Incident>, key: string, item: Incident)
    ensures item in Retained(items, key) <==> item in items && (item.key != key || !item.stale)
  {
    if items != [] {
      RetainedIn(items[..|items| - 1], key, item);
      assert items == items[..|items| - 1] + [items[|items| - 1]];
    }
  }
}
