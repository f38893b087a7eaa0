/** The reducer object: each handler updates the state in place and reports what the
    specification of its event demands. */
module Reducer {
  import opened Items
  import opened Domain

  /** Marks every incident stale, reporting whether one was fresh. */
  method MarkStale(items: seq<Incident>) returns (r: seq<Incident>, changed: bool)
    ensures r == MarkedStale(items) && changed == AnyFresh(items)
  {
    r, changed := items, false;
    for i := 0 to |items|
      invariant |r| == |items|
      invariant forall j :: 0 <= j < i ==> r[j] == items[j].(stale := true)
      invariant forall j :: i <= j < |items| ==> r[j] == items[j]
      invariant changed <==> exists j :: 0 <= j < i && !items[j].stale
    {
      if !items[i].stale {
        r := r[i := items[i].(stale := true)];
        changed := true;
      }
    }
  }

  method Retain(items: seq<Incident>, key: string) returns (r: seq<Incident>)
    ensures r == Retained(items, key)
  {
    r := [];
    for i := 0 to |items|
      invariant r == Retained(items[..i], key)
    {
      assert items[..i + 1][..i] == items[..i];
      if items[i].key != key || !items[i].stale {
        r := r + [items[i]];
      }
    }
    assert items[..|items|] == items;
  }

  /** The desktop notifications of a server notification: first the opened incidents,
      then the closed ones, each list in its order and without what is snoozed. */
  method NotificationEffects(data: NotificationData, id: string, snoozed: map<string, Instant>, at: Instant)
    returns (effects: seq<Effect>, ghost begun: seq<nat>, ghost ended: seq<nat>)
    ensures effects == OpenedEffects(data.added, id, snoozed, at) + ClosedEffects(data.removed, id, snoozed, at)
    ensures |effects| == |begun| + |ended|
    ensures Announces(data.added, id, snoozed, at, true, begun, effects[..|begun|])
    ensures Announces(data.removed, id, snoozed, at, false, ended, effects[|begun|..])
  {
    effects := OpenedNotifications(data.added, id, snoozed, at);
    begun := OpenedAnnounces(data.added, id, snoozed, at);
    var more := ClosedNotifications(data.removed, id, snoozed, at);
    ended := ClosedAnnounces(data.removed, id, snoozed, at);
    assert (effects + more)[..|begun|] == effects && (effects + more)[|begun|..] == more;
    effects := effects + more;
  }

  method OpenedNotifications(items: seq<Incident>, id: string, snoozed: map<string, Instant>, at: Instant)
    returns (effects: seq<Effect>)
    ensures effects == OpenedEffects(items, id, snoozed, at)
  {
    effects := [];
    for i := 0 to |items|
      invariant effects == OpenedEffects(items[..i], id, snoozed, at)
    {
      assert items[..i + 1][..i] == items[..i];
      var item := Prefixed(items[i], id);
      if !IsSnoozed(snoozed, item.key, at) {
        effects := effects + [Notify(StateName(item.state) + ": " + item.key, item.details)];
      }
    }
    assert items[..|items|] == items;
  }

  method ClosedNotifications(items: seq<Incident>, id: string, snoozed: map<string, Instant>, at: Instant)
    returns (effects: seq<Effect>)
    ensures effects == ClosedEffects(items, id, snoozed, at)
  {
    effects := [];
    for i := 0 to |items|
      invariant effects == ClosedEffects(items[..i], id, snoozed, at)
    {
      assert items[..i + 1][..i] == items[..i];
      var item := Prefixed(items[i], id);
      if !IsSnoozed(snoozed, item.key, at) {
        effects := effects + [Notify("OK: " + item.key, "")];
      }
    }
    assert items[..|items|] == items;
  }

  class Reducer {
    const format: Instant -> string
    const serverOrder: seq<string>
    var servers: map<string, ServerStatus>
    var incidents: map<string, seq<Incident>>
    var internalIncidents: map<string, Incident>
    var snoozed: map<string, Instant>

    constructor (format: Instant -> string, ids: seq<string>, snoozed: map<string, Instant>)
      ensures State() == Fresh(ids, snoozed) && this.format == format
    {
      this.format, serverOrder := format, ids;
      servers := map id | id in ids :: ServerStatus(id, false, false, None, None);
      incidents, internalIncidents, this.snoozed := map[], map[], snoozed;
    }

    function State(): AppState
      reads this
    {
      AppState(serverOrder, servers, incidents, internalIncidents, snoozed)
    }

    /** Sets the connection status; says whether it changed. */
    method SetStatus(id: string, connected: bool, at: Instant) returns (changed: bool)
      requires id in servers
      modifies this`servers
      ensures servers == old(servers)[id := StatusAfter(old(servers)[id], connected, at)]
      ensures changed == StatusChanges(old(servers)[id], connected)
    {
      var server := servers[id];
      changed := !server.initialized || server.connected != connected;
      server := server.(initialized := true, connected := connected);
      if changed {
        server := server.(connectionChangedAt := Some(at));
        if connected {
          server := server.(lastHeartbeatAt := None);
        }
      }
      servers := servers[id := server];
    }

    method MarkServerStale(id: string) returns (changed: bool)
      modifies this`incidents
      ensures incidents == StaleIncidents(old(incidents), id) && changed == StaleChanges(old(incidents), id)
    {
      changed := false;
      if id in incidents {
        var items, any := MarkStale(incidents[id]);
        incidents, changed := incidents[id := items], any;
      }
    }

    /** Opens an internal failure or rewrites its details; only opening notifies. */
    method Raise(key: string, at: Instant, error: string) returns (changed: bool, effects: seq<Effect>)
      modifies this`internalIncidents
      ensures internalIncidents == Raised(format, old(internalIncidents), key, at, error)
      ensures changed == RaiseChanges(old(internalIncidents), key, error)
      ensures effects == RaiseEffects(old(internalIncidents), key, error, snoozed, at)
    {
      effects := [];
      if key in internalIncidents {
        var incident := internalIncidents[key];
        changed := incident.details != error;
        if changed {
          internalIncidents := internalIncidents[key := incident.(details := error)];
        }
        assert incident.(details := error) == Raised(format, old(internalIncidents), key, at, error)[key];
        RaiseExact(format, old(internalIncidents), key, at, error);
      } else {
        if !IsSnoozed(snoozed, key, at) {
          effects := [Notify("error: " + key, error)];
        }
        internalIncidents := internalIncidents[key := Incident(key, Error, error, format(at), false)];
        changed := true;
      }
    }

    method Resolve(key: string, at: Instant) returns (removed: bool, effects: seq<Effect>)
      modifies this`internalIncidents
      ensures internalIncidents == old(internalIncidents) - {key}
      ensures removed == (key in old(internalIncidents)) && effects == Resolution(removed, key, snoozed, at)
    {
      removed := key in internalIncidents;
      internalIncidents := internalIncidents - {key};
      effects := if removed && !IsSnoozed(snoozed, key, at) then [Notify("OK: " + key, "")] else [];
    }

    method Connect(id: string, at: Instant) returns (t: Transition)
      modifies this
      ensures State() == Next(format, old(State()), Connected(id, at)) && t == Outcome(old(State()), Connected(id, at))
    {
      if id !in servers {
        return NOTHING;
      }
      var changed := SetStatus(id, true, at);
      var removed, effects := Resolve(ConnectionKey(id), at);
      t := Transition(changed || removed, effects);
    }

    method Disconnect(id: string, at: Instant, error: string) returns (t: Transition)
      modifies this
      ensures State() == Next(format, old(State()), Disconnected(id, at, error))
      ensures t == Outcome(old(State()), Disconnected(id, at, error))
    {
      if id !in servers {
        return NOTHING;
      }
      var key := ConnectionKey(id);
      var statusChanged := SetStatus(id, false, at);
      var staleChanged := MarkServerStale(id);
      var internalChanged, effects := false, [];
      if error == "" {
        internalChanged := key in internalIncidents;
        internalIncidents := internalIncidents - {key};
      } else {
        internalChanged, effects := Raise(key, at, error);
      }
      t := Transition(statusChanged || staleChanged || internalChanged, effects);
    }

    method ReadyTunnel(id: string, at: Instant) returns (t: Transition)
      modifies this
      ensures State() == Next(format, old(State()), TunnelReady(id, at))
      ensures t == Outcome(old(State()), TunnelReady(id, at))
    {
      if id !in servers {
        return NOTHING;
      }
      var removed, effects := Resolve(TunnelKey(id), at);
      t := Transition(removed, effects);
    }

    method FailTunnel(id: string, at: Instant, error: string) returns (t: Transition)
      modifies this
      ensures State() == Next(format, old(State()), TunnelFailed(id, at, error))
      ensures t == Outcome(old(State()), TunnelFailed(id, at, error))
    {
      if id !in servers {
        return NOTHING;
      }
      var statusChanged := SetStatus(id, false, at);
      var staleChanged := MarkServerStale(id);
      var connectionRemoved := ConnectionKey(id) in internalIncidents;
      internalIncidents := internalIncidents - {ConnectionKey(id)};
      InternalKeysDiffer(id, id);
      var internalChanged, effects := Raise(TunnelKey(id), at, error);
      t := Transition(statusChanged || staleChanged || connectionRemoved || internalChanged, effects);
    }

    method Beat(id: string, at: Instant) returns (t: Transition)
      modifies this
      ensures State() == Next(format, old(State()), Heartbeat(id, at)) && t == Outcome(old(State()), Heartbeat(id, at))
    {
      if id !in servers {
        return NOTHING;
      }
      t := Transition(servers[id].lastHeartbeatAt != Some(at), []);
      servers := servers[id := servers[id].(lastHeartbeatAt := Some(at))];
    }

    method Notified(id: string, data: NotificationData, at: Instant) returns (t: Transition)
      modifies this
      ensures State() == Next(format, old(State()), Notification(id, data, at))
      ensures t == Outcome(old(State()), Notification(id, data, at))
    {
      if id !in servers {
        return NOTHING;
      }
      var effects, _, _ := NotificationEffects(data, id, snoozed, at);
      incidents := incidents[id := PrefixedAll(data.total, id)];
      t := Transition(true, effects);
    }

    /** The lists of all servers, in the map's arbitrary order. */
    method RetainAll(key: string) returns (changed: bool)
      modifies this`incidents
      ensures incidents == Forgotten(old(incidents), key) && changed == ForgetChanges(old(incidents), key)
    {
      changed := false;
      ghost var was := incidents;
      var todo := incidents.Keys;
      while todo != {}
        invariant todo <= incidents.Keys == was.Keys
        invariant forall id :: id in was ==> incidents[id] == if id in todo then was[id] else Retained(was[id], key)
        invariant changed <==> exists id :: id in was && id !in todo && |Retained(was[id], key)| != |was[id]|
      {
        var id :| id in todo;
        var kept := Retain(incidents[id], key);
        changed := changed || |kept| != |incidents[id]|;
        incidents := incidents[id := kept];
        todo := todo - {id};
      }
    }

    method Forget(key: string) returns (t: Transition)
      modifies this
      ensures State() == Next(format, old(State()), ForgetStale(key)) && t == Outcome(old(State()), ForgetStale(key))
    {
      var changed := RetainAll(key);
      t := Transition(changed, []);
    }

    method Reduce(e: Event) returns (t: Transition)
      modifies this
      ensures State() == Next(format, old(State()), e) && t == Outcome(old(State()), e)
    {
      match e
      case Connected(id, at) => t := Connect(id, at);
      case Disconnected(id, at, error) => t := Disconnect(id, at, error);
      case TunnelReady(id, at) => t := ReadyTunnel(id, at);
      case TunnelFailed(id, at, error) => t := FailTunnel(id, at, error);
      case Heartbeat(id, at) => t := Beat(id, at);
      case Notification(id, data, at) => t := Notified(id, data, at);
      case Snooze(key, until) =>
        if key in snoozed && snoozed[key] == until {
          return NOTHING;
        }
        t := Transition(false, [PersistSnoozes(snoozed[key := until], Set(key, until))]);
      case Unsnooze(key) =>
        if key !in snoozed {
          return NOTHING;
        }
        t := Transition(false, [PersistSnoozes(snoozed - {key}, Remove(key))]);
      case SnoozesPersisted(snoozes) =>
        var changed := snoozed != snoozes;
        if changed {
          snoozed := snoozes;
        }
        t := Transition(changed, []);
      case ForgetStale(key) => t := Forget(key);
      case Tick(at) =>
        var expired := set k | k in snoozed && snoozed[k] <= at;
        if expired == {} {
          return NOTHING;
        }
        t := Transition(false, [PersistSnoozes(snoozed - expired, Expire(expired))]);
    }
  }
}
