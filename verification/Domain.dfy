/** The desktop client's domain: canonical state, the eleven events and what each of
    them does. Instants are integers (nanoseconds); `format` is the RFC 3339 text of an
    instant. */
module Domain {
  import opened Items

  type Instant = int

  datatype Incident = Incident(key: string, state: ItemState, details: string, incidentStartedAt: string, stale: bool)

  datatype NotificationData = NotificationData(
    total: seq<Incident>, added: seq<Incident>, removed: seq<Incident>, updated: seq<Incident>, numItemsOK: nat)

  datatype ServerStatus = ServerStatus(
    id: string,
    connected: bool,
    initialized: bool,
    connectionChangedAt: Option<Instant>,
    lastHeartbeatAt: Option<Instant>)

  datatype AppState = AppState(
    serverOrder: seq<string>,
    servers: map<string, ServerStatus>,
    incidents: map<string, seq<Incident>>,
    internalIncidents: map<string, Incident>,
    snoozed: map<string, Instant>)

  datatype Event =
    | Connected(serverId: string, at: Instant)
    | Disconnected(serverId: string, at: Instant, error: string)
    | TunnelReady(serverId: string, at: Instant)
    | TunnelFailed(serverId: string, at: Instant, error: string)
    | Heartbeat(serverId: string, at: Instant)
    | Notification(serverId: string, data: NotificationData, at: Instant)
    | Snooze(key: string, until: Instant)
    | Unsnooze(key: string)
    | SnoozesPersisted(snoozes: map<string, Instant>)
    | ForgetStale(key: string)
    | Tick(at: Instant)

  datatype SnoozeAction = Set(key: string, until: Instant) | Remove(key: string) | Expire(keys: set<string>)

  datatype Effect =
    | Notify(title: string, body: string)
    | PersistSnoozes(snoozes: map<string, Instant>, action: SnoozeAction)

  datatype Transition = Transition(changed: bool, effects: seq<Effect>)

  const NOTHING := Transition(false, [])

  // ---------------------------------------------------------------- pieces

  function ConnectionKey(id: string): string {
    "internal.connection." + id
  }

  function TunnelKey(id: string): string {
    "internal.tunnel." + id
  }

  /** Qualifies a server-local key. */
  function Prefixed(item: Incident, id: string): Incident {
    item.(key := id + "." + item.key)
  }

  function PrefixedAll(items: seq<Incident>, id: string): (r: seq<Incident>)
    ensures |r| == |items|
    ensures forall i :: 0 <= i < |items| ==> r[i] == Prefixed(items[i], id)
  {
    seq(|items|, i requires 0 <= i < |items| => Prefixed(items[i], id))
  }

  predicate IsSnoozed(snoozed: map<string, Instant>, key: string, now: Instant) {
    key in snoozed && snoozed[key] > now
  }

  function StateName(state: ItemState): string {
    match state
    case OK => "ok"
    case Warning => "warning"
    case Error => "error"
  }

  function MarkedStale(items: seq<Incident>): (r: seq<Incident>)
    ensures |r| == |items|
    ensures forall i :: 0 <= i < |items| ==> r[i] == items[i].(stale := true)
  {
    seq(|items|, i requires 0 <= i < |items| => items[i].(stale := true))
  }

  predicate AnyFresh(items: seq<Incident>) {
    exists i :: 0 <= i < |items| && !items[i].stale
  }

  /** What survives the dismissal of `key`. */
  function Retained(items: seq<Incident>, key: string): (r: seq<Incident>)
    ensures |r| <= |items|
  {
    if items == [] then []
    else
      var rest := Retained(items[..|items| - 1], key);
      var last := items[|items| - 1];
      if last.key != key || !last.stale then rest + [last] else rest
  }

  /** A notification for each opened incident that is not snoozed. */
  function OpenedEffects(items: seq<Incident>, id: string, snoozed: map<string, Instant>, at: Instant): seq<Effect> {
    if items == [] then []
    else
      var rest := OpenedEffects(items[..|items| - 1], id, snoozed, at);
      var last := Prefixed(items[|items| - 1], id);
      if IsSnoozed(snoozed, last.key, at) then rest
      else rest + [Notify(StateName(last.state) + ": " + last.key, last.details)]
  }

  function ClosedEffects(items: seq<Incident>, id: string, snoozed: map<string, Instant>, at: Instant): seq<Effect> {
    if items == [] then []
    else
      var rest := ClosedEffects(items[..|items| - 1], id, snoozed, at);
      var last := Prefixed(items[|items| - 1], id);
      if IsSnoozed(snoozed, last.key, at) then rest else rest + [Notify("OK: " + last.key, "")]
  }

  function Resolution(removed: bool, key: string, snoozed: map<string, Instant>, at: Instant): seq<Effect> {
    if removed && !IsSnoozed(snoozed, key, at) then [Notify("OK: " + key, "")] else []
  }

  /** The status after a change of connection: the transition time moves only when the
      status does. */
  function StatusAfter(s: ServerStatus, connected: bool, at: Instant): ServerStatus {
    var changed := !s.initialized || s.connected != connected;
    ServerStatus(s.id, connected, true,
                 if changed then Some(at) else s.connectionChangedAt,
                 if changed && connected then None else s.lastHeartbeatAt)
  }

  predicate StatusChanges(s: ServerStatus, connected: bool) {
    !s.initialized || s.connected != connected
  }

  function StaleIncidents(incidents: map<string, seq<Incident>>, id: string): map<string, seq<Incident>> {
    if id in incidents then incidents[id := MarkedStale(incidents[id])] else incidents
  }

  predicate StaleChanges(incidents: map<string, seq<Incident>>, id: string) {
    id in incidents && AnyFresh(incidents[id])
  }

  /** Raising an internal failure: a new card, or new details on the existing one. */
  function Raised(format: Instant -> string, internal: map<string, Incident>, key: string, at: Instant,
                  error: string): map<string, Incident> {
    internal[key := if key in internal then internal[key].(details := error)
                    else Incident(key, Error, error, format(at), false)]
  }

  predicate RaiseChanges(internal: map<string, Incident>, key: string, error: string) {
    key !in internal || internal[key].details != error
  }

  function RaiseEffects(internal: map<string, Incident>, key: string, error: string, snoozed: map<string, Instant>,
                        at: Instant): seq<Effect> {
    if key !in internal && !IsSnoozed(snoozed, key, at) then [Notify("error: " + key, error)] else []
  }

  function Expired(snoozed: map<string, Instant>, at: Instant): set<string> {
    set k | k in snoozed && snoozed[k] <= at
  }

  function Forgotten(incidents: map<string, seq<Incident>>, key: string): map<string, seq<Incident>> {
    map id | id in incidents :: Retained(incidents[id], key)
  }

  predicate ForgetChanges(incidents: map<string, seq<Incident>>, key: string) {
    exists id :: id in incidents && |Retained(incidents[id], key)| != |incidents[id]|
  }

  // ---------------------------------------------------------------- the eleven events

  /** The state after an event. */
  function Next(format: Instant -> string, s: AppState, e: Event): AppState {
    match e
    case Connected(id, at) =>
      if id !in s.servers then s
      else s.(servers := s.servers[id := StatusAfter(s.servers[id], true, at)],
              internalIncidents := s.internalIncidents - {ConnectionKey(id)})
    case Disconnected(id, at, error) =>
      if id !in s.servers then s
      else s.(servers := s.servers[id := StatusAfter(s.servers[id], false, at)],
              incidents := StaleIncidents(s.incidents, id),
              internalIncidents := if error == "" then s.internalIncidents - {ConnectionKey(id)}
                                   else Raised(format, s.internalIncidents, ConnectionKey(id), at, error))
    case TunnelReady(id, at) =>
      if id !in s.servers then s else s.(internalIncidents := s.internalIncidents - {TunnelKey(id)})
    case TunnelFailed(id, at, error) =>
      if id !in s.servers then s
      else s.(servers := s.servers[id := StatusAfter(s.servers[id], false, at)],
              incidents := StaleIncidents(s.incidents, id),
              internalIncidents := Raised(format, s.internalIncidents - {ConnectionKey(id)}, TunnelKey(id), at, error))
    case Heartbeat(id, at) =>
      if id !in s.servers then s else s.(servers := s.servers[id := s.servers[id].(lastHeartbeatAt := Some(at))])
    case Notification(id, data, at) =>
      if id !in s.servers then s else s.(incidents := s.incidents[id := PrefixedAll(data.total, id)])
    case SnoozesPersisted(snoozes) => s.(snoozed := snoozes)
    case ForgetStale(key) => s.(incidents := Forgotten(s.incidents, key))
    case Snooze(_, _) => s
    case Unsnooze(_) => s
    case Tick(_) => s
  }

  /** What the event asks of the runtime. */
  function Outcome(s: AppState, e: Event): Transition {
    match e
    case Connected(id, at) =>
      if id !in s.servers then NOTHING
      else
        var removed := ConnectionKey(id) in s.internalIncidents;
        Transition(StatusChanges(s.servers[id], true) || removed, Resolution(removed, ConnectionKey(id), s.snoozed, at))
    case Disconnected(id, at, error) =>
      if id !in s.servers then NOTHING
      else
        var key := ConnectionKey(id);
        Transition(
          StatusChanges(s.servers[id], false) || StaleChanges(s.incidents, id)
            || (if error == "" then key in s.internalIncidents else RaiseChanges(s.internalIncidents, key, error)),
          if error == "" then [] else RaiseEffects(s.internalIncidents, key, error, s.snoozed, at))
    case TunnelReady(id, at) =>
      if id !in s.servers then NOTHING
      else
        var removed := TunnelKey(id) in s.internalIncidents;
        Transition(removed, Resolution(removed, TunnelKey(id), s.snoozed, at))
    case TunnelFailed(id, at, error) =>
      if id !in s.servers then NOTHING
      else
        Transition(
          StatusChanges(s.servers[id], false) || StaleChanges(s.incidents, id)
            || ConnectionKey(id) in s.internalIncidents || RaiseChanges(s.internalIncidents, TunnelKey(id), error),
          RaiseEffects(s.internalIncidents, TunnelKey(id), error, s.snoozed, at))
    case Heartbeat(id, at) =>
      if id !in s.servers then NOTHING else Transition(s.servers[id].lastHeartbeatAt != Some(at), [])
    case Notification(id, data, at) =>
      if id !in s.servers then NOTHING
      else Transition(true,
                      OpenedEffects(data.added, id, s.snoozed, at) + ClosedEffects(data.removed, id, s.snoozed, at))
    case Snooze(key, until) =>
      if key in s.snoozed && s.snoozed[key] == until then NOTHING
      else Transition(false, [PersistSnoozes(s.snoozed[key := until], Set(key, until))])
    case Unsnooze(key) =>
      if key !in s.snoozed then NOTHING else Transition(false, [PersistSnoozes(s.snoozed - {key}, Remove(key))])
    case SnoozesPersisted(snoozes) => Transition(s.snoozed != snoozes, [])
    case ForgetStale(key) => Transition(ForgetChanges(s.incidents, key), [])
    case Tick(at) =>
      var expired := Expired(s.snoozed, at);
      if expired == {} then NOTHING else Transition(false, [PersistSnoozes(s.snoozed - expired, Expire(expired))])
  }

  /** The state after a whole history of events. */
  function After(format: Instant -> string, s: AppState, history: seq<Event>): AppState {
    if history == [] then s else Next(format, After(format, s, history[..|history| - 1]), history[|history| - 1])
  }

  /** The state at startup. */
  function Fresh(ids: seq<string>, snoozed: map<string, Instant>): AppState {
    AppState(ids, map id | id in ids :: ServerStatus(id, false, false, None, None), map[], map[], snoozed)
  }

  lemma AfterExtend(format: Instant -> string, s: AppState, history: seq<Event>, e: Event)
    ensures After(format, s, history + [e]) == Next(format, After(format, s, history), e)
  {
    assert (history + [e])[..|history|] == history;
  }

  // ---------------------------------------------------------------- no silent change

  lemma {:induction false} RetainedSame(items: seq<Incident>, key: string)
    ensures |Retained(items, key)| == |items| <==> Retained(items, key) == items
  {
    if items != [] {
      var front := items[..|items| - 1];
      RetainedSame(front, key);
      assert items == front + [items[|items| - 1]];
    }
  }

  lemma ForgetExact(incidents: map<string, seq<Incident>>, key: string)
    ensures ForgetChanges(incidents, key) <==> Forgotten(incidents, key) != incidents
  {
    forall id | id in incidents
      ensures |Retained(incidents[id], key)| == |incidents[id]| <==> Retained(incidents[id], key) == incidents[id]
    {
      RetainedSame(incidents[id], key);
    }
    if !ForgetChanges(incidents, key) {
      assert Forgotten(incidents, key) == incidents;
    } else {
      var id :| id in incidents && |Retained(incidents[id], key)| != |incidents[id]|;
      assert Forgotten(incidents, key)[id] != incidents[id];
    }
  }

  lemma StaleExact(incidents: map<string, seq<Incident>>, id: string)
    ensures StaleChanges(incidents, id) <==> StaleIncidents(incidents, id) != incidents
  {
    if id in incidents {
      var list := incidents[id];
      if AnyFresh(list) {
        var i :| 0 <= i < |list| && !list[i].stale;
        assert MarkedStale(list)[i] != list[i];
        assert StaleIncidents(incidents, id)[id] != incidents[id];
      } else {
        assert MarkedStale(list) == list;
        assert StaleIncidents(incidents, id) == incidents;
      }
    }
  }

  lemma StatusExact(servers: map<string, ServerStatus>, id: string, connected: bool, at: Instant)
    requires id in servers
    ensures StatusChanges(servers[id], connected) <==> servers[id := StatusAfter(servers[id], connected, at)] != servers
  {
    var after := servers[id := StatusAfter(servers[id], connected, at)];
    if StatusChanges(servers[id], connected) {
      assert after[id] != servers[id];
    } else {
      assert after == servers;
    }
  }

  lemma RemoveExact(internal: map<string, Incident>, key: string)
    ensures key in internal <==> internal - {key} != internal
  {
    if key in internal {
      assert key !in internal - {key};
    } else {
      assert internal - {key} == internal;
    }
  }

  lemma RaiseExact(format: Instant -> string, internal: map<string, Incident>, key: string, at: Instant, error: string)
    ensures RaiseChanges(internal, key, error) <==> Raised(format, internal, key, at, error) != internal
  {
    var after := Raised(format, internal, key, at, error);
    if key in internal && internal[key].details == error {
      assert after == internal;
    } else {
      assert key in after && (key in internal ==> after[key] != internal[key]);
    }
  }

  lemma InternalKeysDiffer(id: string, other: string)
    ensures ConnectionKey(id) != TunnelKey(other)
  {
    assert ConnectionKey(id)[9] == 'c' && TunnelKey(other)[9] == 't';
  }

  /** A tunnel failure changes the internal incidents exactly when it removes the
      connection's card or changes its own. */
  lemma TunnelFailureExact(format: Instant -> string, internal: map<string, Incident>, id: string, at: Instant,
                           error: string)
    ensures (ConnectionKey(id) in internal || RaiseChanges(internal, TunnelKey(id), error))
      <==> Raised(format, internal - {ConnectionKey(id)}, TunnelKey(id), at, error) != internal
  {
    InternalKeysDiffer(id, id);
    var after := Raised(format, internal - {ConnectionKey(id)}, TunnelKey(id), at, error);
    assert ConnectionKey(id) !in after;
    if ConnectionKey(id) !in internal {
      RemoveExact(internal, ConnectionKey(id));
      RaiseExact(format, internal, TunnelKey(id), at, error);
    }
  }

  /** `changed` is exact: it is reported if and only if the state differs, except that a
      notification for a known server is always reported. */
  lemma ChangedIsExact(format: Instant -> string, s: AppState, e: Event)
    ensures !e.Notification? ==> (Outcome(s, e).changed <==> Next(format, s, e) != s)
    ensures e.Notification? ==> (Outcome(s, e).changed <==> e.serverId in s.servers)
    ensures !Outcome(s, e).changed ==> Next(format, s, e) == s
  {
    match e
    case Connected(id, at) =>
      if id in s.servers {
        StatusExact(s.servers, id, true, at);
        RemoveExact(s.internalIncidents, ConnectionKey(id));
      }
    case Disconnected(id, at, error) =>
      if id in s.servers {
        StatusExact(s.servers, id, false, at);
        StaleExact(s.incidents, id);
        RemoveExact(s.internalIncidents, ConnectionKey(id));
        RaiseExact(format, s.internalIncidents, ConnectionKey(id), at, error);
      }
    case TunnelReady(id, at) => RemoveExact(s.internalIncidents, TunnelKey(id));
    case TunnelFailed(id, at, error) =>
      if id in s.servers {
        StatusExact(s.servers, id, false, at);
        StaleExact(s.incidents, id);
        TunnelFailureExact(format, s.internalIncidents, id, at, error);
      }
    case Heartbeat(id, at) =>
      if id in s.servers {
        var after := s.servers[id := s.servers[id].(lastHeartbeatAt := Some(at))];
        if s.servers[id].lastHeartbeatAt == Some(at) {
          assert after == s.servers;
        } else {
          assert after[id] != s.servers[id];
        }
      }
    case ForgetStale(key) => ForgetExact(s.incidents, key);
    case _ =>
  }

  /** A notification changes the state exactly if the server had no list or another one. */
  lemma NotificationChangesIff(format: Instant -> string, s: AppState, id: string, data: NotificationData, at: Instant)
    requires id in s.servers
    ensures Next(format, s, Notification(id, data, at)) == s <==>
            id in s.incidents && s.incidents[id] == PrefixedAll(data.total, id)
  {
    var list := PrefixedAll(data.total, id);
    var after := s.incidents[id := list];
    if id in s.incidents && s.incidents[id] == list {
      assert after == s.incidents;
    } else {
      assert id in after && after[id] == list;
    }
  }

  /** A change is reported that is none: the second of two empty notifications. */
  lemma ReportedWithoutChange(format: Instant -> string) returns (s: AppState, e: Event)
    ensures Outcome(s, e).changed && Next(format, s, e) == s
  {
    var data := NotificationData([], [], [], [], 0);
    e := Notification("a", data, 0);
    s := Next(format, Fresh(["a"], map[]), e);
    assert "a" in ["a"];
    assert PrefixedAll(data.total, "a") == [];
    NotificationChangesIff(format, s, "a", data, 0);
  }

  // ---------------------------------------------------------------- desktop notifications

  /** What is said about an incident that opened or closed. */
  function Announcement(item: Incident, id: string, opening: bool): Effect {
    if opening then Notify(StateName(item.state) + ": " + Prefixed(item, id).key, item.details)
    else Notify("OK: " + Prefixed(item, id).key, "")
  }

  /** The effects are the announcements of exactly the items that are not snoozed, in the
      order of the list; `picks` are their positions. */
  ghost predicate Announces(items: seq<Incident>, id: string, snoozed: map<string, Instant>, at: Instant, opening: bool,
                            picks: seq<nat>, effects: seq<Effect>) {
    && |picks| == |effects|
    && (forall j, k :: 0 <= j < k < |picks| ==> picks[j] < picks[k])
    && (forall i :: 0 <= i < |items| ==> (i in picks <==> !IsSnoozed(snoozed, id + "." + items[i].key, at)))
    && (forall j :: 0 <= j < |picks| ==> picks[j] < |items| && effects[j] == Announcement(items[picks[j]], id, opening))
  }

  lemma AnnouncesMore(items: seq<Incident>, last: Incident, id: string, snoozed: map<string, Instant>, at: Instant,
                      opening: bool, picks: seq<nat>, effects: seq<Effect>)
    requires Announces(items, id, snoozed, at, opening, picks, effects)
    ensures IsSnoozed(snoozed, id + "." + last.key, at) ==>
              Announces(items + [last], id, snoozed, at, opening, picks, effects)
    ensures !IsSnoozed(snoozed, id + "." + last.key, at) ==>
              Announces(items + [last], id, snoozed, at, opening, picks + [|items|],
                        effects + [Announcement(last, id, opening)])
  {
    assert |items| !in picks;
  }

  lemma {:induction false} OpenedAnnounces(items: seq<Incident>, id: string, snoozed: map<string, Instant>, at: Instant)
    returns (picks: seq<nat>)
    ensures Announces(items, id, snoozed, at, true, picks, OpenedEffects(items, id, snoozed, at))
  {
    if items == [] {
      picks := [];
    } else {
      var front, last := items[..|items| - 1], items[|items| - 1];
      picks := OpenedAnnounces(front, id, snoozed, at);
      AnnouncesMore(front, last, id, snoozed, at, true, picks, OpenedEffects(front, id, snoozed, at));
      assert items == front + [last];
      if !IsSnoozed(snoozed, Prefixed(last, id).key, at) {
        picks := picks + [|front|];
      }
    }
  }

  lemma {:induction false} ClosedAnnounces(items: seq<Incident>, id: string, snoozed: map<string, Instant>, at: Instant)
    returns (picks: seq<nat>)
    ensures Announces(items, id, snoozed, at, false, picks, ClosedEffects(items, id, snoozed, at))
  {
    if items == [] {
      picks := [];
    } else {
      var front, last := items[..|items| - 1], items[|items| - 1];
      picks := ClosedAnnounces(front, id, snoozed, at);
      AnnouncesMore(front, last, id, snoozed, at, false, picks, ClosedEffects(front, id, snoozed, at));
      assert items == front + [last];
      if !IsSnoozed(snoozed, Prefixed(last, id).key, at) {
        picks := picks + [|front|];
      }
    }
  }
}
