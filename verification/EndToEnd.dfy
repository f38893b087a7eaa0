/** The whole way of an observation: from the tracker over the board and a connection's
    stream to the incident list that the client shows for that server. */
module EndToEnd {
  import opened Items
  import opened TrackerSpec
  import Tracker
  import Publication
  import opened Domain
  import opened History

  // ---------------------------------------------------------------- on the wire

  /** A listed record as the client reads it; `text` writes its start time. */
  function Wire(text: Option<nat> -> string, r: Record): Incident {
    Incident(r.item.key, r.item.state, r.item.details, text(r.startedAt), r.stale)
  }

  function WireAll(text: Option<nat> -> string, total: seq<Record>): (r: seq<Incident>)
    ensures |r| == |total| && forall i :: 0 <= i < |total| ==> r[i] == Wire(text, total[i])
  {
    seq(|total|, i requires 0 <= i < |total| => Wire(text, total[i]))
  }

  /** The totals that server `id` notified from position `m` of the history on. */
  function TotalsSince(h: seq<Event>, m: nat, id: string): seq<seq<Incident>> {
    if |h| <= m then []
    else
      var last := h[|h| - 1];
      TotalsSince(h[..|h| - 1], m, id) + if Notifies(last, id) then [last.data.total] else []
  }

  /** From position `m` on, the client received from server `id` what a connection sent,
      the totals of the versions `sent`, and the server did not drop out. */
  ghost predicate Receives(text: Option<nat> -> string, totals: seq<Publication.Total>, sent: seq<nat>,
                           h: seq<Event>, m: nat, id: string) {
    && (forall j :: 0 <= j < |sent| ==> sent[j] <= |totals|)
    && |TotalsSince(h, m, id)| == |sent|
    && (forall j :: 0 <= j < |sent| ==>
          TotalsSince(h, m, id)[j] == WireAll(text, Publication.TotalOf(totals, sent[j])))
    && (forall p :: m <= p < |h| ==> !Drops(h[p], id))
  }

  lemma {:induction false} LastTotal(h: seq<Event>, m: nat, id: string) returns (n: nat)
    requires TotalsSince(h, m, id) != []
    ensures m <= n && LastNotified(h, n, id)
    ensures var totals := TotalsSince(h, m, id); h[n].data.total == totals[|totals| - 1]
  {
    var front, last := h[..|h| - 1], h[|h| - 1];
    if Notifies(last, id) {
      n := |h| - 1;
    } else {
      assert TotalsSince(h, m, id) == TotalsSince(front, m, id);
      n := LastTotal(front, m, id);
      assert forall k :: n < k < |front| ==> h[k] == front[k];
    }
  }

  // ---------------------------------------------------------------- at the client

  /** A list that came fresh and whose server stayed is shown as it came. */
  lemma {:induction false} ShownAsItCame(h: seq<Event>, n: nat, id: string, items: seq<Incident>)
    requires n < |h| && forall p :: n < p < |h| ==> !Drops(h[p], id)
    requires forall i :: 0 <= i < |items| ==> !items[i].stale
    ensures ShownAll(h, n, id, items) == PrefixedAll(items, id)
  {
    if items != [] {
      var front, last := items[..|items| - 1], items[|items| - 1];
      ShownAsItCame(h, n, id, front);
      assert Shown(h, n, id, last) == Some(Prefixed(last, id));
      assert PrefixedAll(items, id) == PrefixedAll(front, id) + [Prefixed(last, id)];
    }
  }

  /** The core waits, and nothing is on its way to client `c` of webserver `i`. */
  predicate Drained(y: Publication.System, i: nat, c: nat) {
    && !y.shutdown && y.loop.Waiting?
    && i < |y.servers| && y.servers[i].inbox == [] && y.servers[i].loop.Idle?
    && c in y.servers[i].subs && c < |y.servers[i].clients|
    && y.servers[i].clients[c].sender.Streaming? && y.servers[i].clients[c].queue == []
  }

  /** The newest total; the board of a core that waits. */
  function BoardOf(y: Publication.System): Publication.Total {
    Publication.TotalOf(y.totals, |y.totals|)
  }

  predicate NoneStale(total: Publication.Total) {
    forall i :: 0 <= i < |total| ==> !total[i].stale
  }

  /** Once core, webserver and connection are drained and the client received what was
      sent, its list for the server is the total on the board, prefixed. */
  lemma ListIsBoard(
    run: seq<Publication.System>, actions: seq<Publication.Action>, messengers: nat, k: nat, i: nat, c: nat,
    text: Option<nat> -> string, format: Instant -> string, ids: seq<string>, snoozed: map<string, Instant>,
    h: seq<Event>, m: nat, id: string)
    requires Publication.IsRun(run, actions, messengers) && k < |run| && Drained(run[k], i, c)
    requires id in ids && Receives(text, run[k].totals, run[k].servers[i].clients[c].sent, h, m, id)
    requires NoneStale(BoardOf(run[k]))
    ensures var list := After(format, Fresh(ids, snoozed), h).incidents;
            id in list && list[id] == PrefixedAll(WireAll(text, BoardOf(run[k])), id)
  {
    Publication.DrainedClientShowsBoard(run, actions, messengers, k, i, c);
    var n := LastReceived(text, run[k].totals, run[k].servers[i].clients[c].sent, h, m, id);
    ListIsLastTotal(format, ids, snoozed, h, n, id);
  }

  /** The last notification that the client got is the last total that was sent. */
  lemma LastReceived(text: Option<nat> -> string, totals: seq<Publication.Total>, sent: seq<nat>,
                     h: seq<Event>, m: nat, id: string) returns (n: nat)
    requires Receives(text, totals, sent, h, m, id) && sent != []
    ensures LastNotified(h, n, id) && forall p :: n < p < |h| ==> !Drops(h[p], id)
    ensures h[n].data.total == WireAll(text, Publication.TotalOf(totals, sent[|sent| - 1]))
  {
    n := LastTotal(h, m, id);
  }

  /** A server that stayed since its last notification, which came fresh, has that list. */
  lemma ListIsLastTotal(format: Instant -> string, ids: seq<string>, snoozed: map<string, Instant>, h: seq<Event>,
                        n: nat, id: string)
    requires id in ids && LastNotified(h, n, id) && forall p :: n < p < |h| ==> !Drops(h[p], id)
    requires forall j :: 0 <= j < |h[n].data.total| ==> !h[n].data.total[j].stale
    ensures var list := After(format, Fresh(ids, snoozed), h).incidents;
            id in list && list[id] == PrefixedAll(h[n].data.total, id)
  {
    ListIsHistory(format, ids, snoozed, h, id);
    ShownAsItCame(h, n, id, h[n].data.total);
  }

  // ---------------------------------------------------------------- from the tracker

  ghost predicate NeverStale(s: State) {
    forall k :: k in s.notOK ==> !s.notOK[k].stale
  }

  lemma {:induction false} FeedsFresh(s: State, t: seq<Observation>)
    requires NeverStale(s)
    ensures NeverStale(FeedEach(s, t))
  {
    if t != [] {
      FeedsFresh(s, t[..|t| - 1]);
    }
  }

  /** The last notification's incidents are those of the end: what came later was silent. */
  lemma {:induction false} LastSourceIsEnd(s: State, feeds: seq<map<string, Item>>, ts: seq<seq<Observation>>,
                                           sources: seq<Tracker.Source>, end: State)
    requires Tracker.Chronicle(s, feeds, ts, sources, end) && NeverStale(s)
    ensures end.notOK == if sources == [] then s.notOK else sources[|sources| - 1].state.notOK
    ensures NeverStale(end)
    decreases |feeds|
  {
    if feeds != [] {
      var next := FeedEach(s, ts[0]);
      FeedsFresh(s, ts[0]);
      if next.notOK == s.notOK {
        LastSourceIsEnd(next, feeds[1..], ts[1..], sources, end);
      } else {
        LastSourceIsEnd(next, feeds[1..], ts[1..], sources[1..], end);
      }
    }
  }

  /** What the tracker's notifications list, in their order. */
  ghost function Totals(sources: seq<Tracker.Source>): (r: seq<Publication.Total>)
    ensures |r| == |sources| && forall i :: 0 <= i < |sources| ==> r[i] == Listing(sources[i].state.notOK)
  {
    seq(|sources|, i requires 0 <= i < |sources| => Listing(sources[i].state.notOK))
  }

  /** A run of a new tracker over `feeds` that ends in `end`. */
  ghost predicate Tracked(feeds: seq<map<string, Item>>, ts: seq<seq<Observation>>, sources: seq<Tracker.Source>,
                          end: State) {
    Tracker.Chronicle(EMPTY, feeds, ts, sources, end) && forall i :: 0 <= i < |feeds| ==> WellKeyed(feeds[i])
  }

  lemma EndOfRun(feeds: seq<map<string, Item>>, ts: seq<seq<Observation>>, sources: seq<Tracker.Source>, end: State)
    requires Tracked(feeds, ts, sources, end)
    ensures WellFormed(Tracker.Calls(ts)) && end == Replay(Tracker.Calls(ts))
    ensures Valid(end) && Lists(Listing(end.notOK), end.notOK)
  {
    var h := Tracker.Calls(ts);
    Tracker.CallsAreFeeds(EMPTY, feeds, ts, sources, end);
    Tracker.ChronicleIsReplay([], feeds, ts, sources, end);
    assert [] + h == h;
    ReplayValid(h);
    ListingLists(end.notOK);
  }

  /** The board holds the tracker's incidents, all of them fresh. */
  lemma BoardIsTracker(feeds: seq<map<string, Item>>, ts: seq<seq<Observation>>, sources: seq<Tracker.Source>,
                       end: State, y: Publication.System)
    requires Tracked(feeds, ts, sources, end) && y.totals == Totals(sources)
    ensures BoardOf(y) == Listing(end.notOK) && NoneStale(BoardOf(y))
  {
    LastSourceIsEnd(EMPTY, feeds, ts, sources, end);
    EndOfRun(feeds, ts, sources, end);
  }

  // ---------------------------------------------------------------- end to end

  /** The list shows key `q` of server `id` exactly if its last observation was not OK, and
      then as that observation. */
  ghost predicate ShowsLast(list: seq<Incident>, id: string, q: string, last: Option<Item>) {
    && ((exists j :: 0 <= j < |list| && list[j].key == id + "." + q) <==> last.Some? && !last.value.state.OK?)
    && (forall j :: 0 <= j < |list| && list[j].key == id + "." + q ==>
          last.Some? && list[j].state == last.value.state && list[j].details == last.value.details && !list[j].stale)
  }

  lemma ListShowsLast(text: Option<nat> -> string, feeds: seq<map<string, Item>>, ts: seq<seq<Observation>>,
                      sources: seq<Tracker.Source>, end: State, id: string, q: string)
    requires Tracked(feeds, ts, sources, end) && NeverStale(end)
    ensures ShowsLast(PrefixedAll(WireAll(text, Listing(end.notOK)), id), id, q, LastObserved(Tracker.Calls(ts), q))
  {
    EndOfRun(feeds, ts, sources, end);
    TrackerMatchesHistory(Tracker.Calls(ts), q);
    ListShowsKey(text, Listing(end.notOK), end.notOK, id, q);
  }

  /** A prefixed listing shows a key exactly if the map has it, as the map has it. */
  lemma ListShowsKey(text: Option<nat> -> string, total: seq<Record>, m: map<string, Record>, id: string, q: string)
    requires Lists(total, m) && forall k :: k in m ==> !m[k].stale && !m[k].item.state.OK?
    ensures ShowsLast(PrefixedAll(WireAll(text, total), id), id, q, if q in m then Some(m[q].item) else None)
  {
    var list := PrefixedAll(WireAll(text, total), id);
    forall j | 0 <= j < |list|
      ensures list[j].key == id + "." + q <==> total[j].item.key == q
      ensures list[j] == Prefixed(Wire(text, total[j]), id)
    {
      SameKey(id, total[j].item.key, q);
    }
    if q in m {
      var j :| 0 <= j < |total| && total[j] == m[q];
      assert list[j].key == id + "." + q;
    }
  }

  lemma SameKey(id: string, a: string, b: string)
    ensures id + "." + a == id + "." + b <==> a == b
  {
    assert (id + "." + a)[|id| + 1..] == a && (id + "." + b)[|id| + 1..] == b;
  }

  /** The window shows the services: if the totals that the core published are those of its
      tracker, and the way from the core to the client is drained, then for every history
      of the client in which the connection's totals arrived and the server did not drop
      out since, and for every key, the client lists that key exactly if its last
      observation on the server was not OK, with that observation's state and details. */
  lemma WindowShowsObservations(
    feeds: seq<map<string, Item>>, ts: seq<seq<Observation>>, sources: seq<Tracker.Source>, end: State,
    run: seq<Publication.System>, actions: seq<Publication.Action>, messengers: nat, k: nat, i: nat, c: nat,
    text: Option<nat> -> string, format: Instant -> string, ids: seq<string>, snoozed: map<string, Instant>,
    h: seq<Event>, m: nat, id: string, q: string)
    requires Tracked(feeds, ts, sources, end)
    requires Publication.IsRun(run, actions, messengers) && k < |run| && Drained(run[k], i, c)
    requires run[k].totals == Totals(sources)
    requires id in ids && Receives(text, run[k].totals, run[k].servers[i].clients[c].sent, h, m, id)
    ensures var list := After(format, Fresh(ids, snoozed), h).incidents;
            id in list && ShowsLast(list[id], id, q, LastObserved(Tracker.Calls(ts), q))
  {
    BoardIsTracker(feeds, ts, sources, end, run[k]);
    ListIsBoard(run, actions, messengers, k, i, c, text, format, ids, snoozed, h, m, id);
    LastSourceIsEnd(EMPTY, feeds, ts, sources, end);
    ListShowsLast(text, feeds, ts, sources, end, id, q);
  }
}
