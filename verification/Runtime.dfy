/** The client's event loop: the only owner of the reducer. A snooze is proposed by the
    reducer, written to the state file and only then committed; automatic expiry backs
    off after a failed write. */
module Runtime {
  import opened Items
  import opened Domain
  import Reducer
  import opened Persistence

  /** Ten seconds. */
  const EXPIRY_PERSISTENCE_RETRY_DELAY := 10_000_000_000

  /** A write that was attempted. `at` and `endedAt` are readings of the monotonic clock
      before the write and when its failure was handled. */
  datatype Attempt = Attempt(action: SnoozeAction, at: nat, endedAt: nat, ok: bool)

  /** What the loop receives: an event, with the readings of the monotonic clock around
      a write and the fate of the file operations; or another writer's turn. */
  datatype Input =
    | Receive(e: Event, at: nat, endedAt: nat, weather: Weather)
    | OtherWriter(preferences: string, weather: Weather)

  predicate Due(action: SnoozeAction, retryNotBefore: Option<nat>, now: nat) {
    !action.Expire? || retryNotBefore.None? || now >= retryNotBefore.value
  }

  /** Whether the file takes a proposed map. */
  predicate Written(codec: Codec, snoozes: map<string, Instant>, weather: Weather) {
    weather.canRead && weather.canWrite && Formattable(codec, snoozes)
  }

  // ---------------------------------------------------------------- what the log means

  function Applied(action: SnoozeAction, snoozes: map<string, Instant>): map<string, Instant> {
    match action
    case Set(key, until) => snoozes[key := until]
    case Remove(key) => snoozes - {key}
    case Expire(keys) => snoozes - keys
  }

  /** The snoozes after exactly the actions that were persisted. */
  function Persisted(start: map<string, Instant>, log: seq<Attempt>): map<string, Instant> {
    if log == [] then start
    else
      var before := Persisted(start, log[..|log| - 1]);
      var last := log[|log| - 1];
      if last.ok then Applied(last.action, before) else before
  }

  /** When expiry may be attempted again. */
  function RetryAfter(log: seq<Attempt>): Option<nat> {
    if log == [] then None
    else
      var last := log[|log| - 1];
      if last.ok then None
      else if last.action.Expire? then Some(last.endedAt + EXPIRY_PERSISTENCE_RETRY_DELAY)
      else RetryAfter(log[..|log| - 1])
  }

  /** Every attempt was due when it was made, and one ended before the next began and
      all of them by `now`. */
  ghost predicate Paced(log: seq<Attempt>, now: nat) {
    log == [] ||
    (var n := |log| - 1;
     && Paced(log[..n], log[n].at)
     && log[n].at <= log[n].endedAt <= now
     && Due(log[n].action, RetryAfter(log[..n]), log[n].at))
  }

  lemma {:induction false} EndedBy(log: seq<Attempt>, now: nat, i: nat)
    requires Paced(log, now) && i < |log|
    ensures log[i].endedAt <= now
  {
    var n := |log| - 1;
    if i < n {
      EndedBy(log[..n], log[n].at, i);
    }
  }

  /** The deadline in force is at least that of any failed expiry since the last
      successful write. */
  lemma {:induction false} RetryCovers(log: seq<Attempt>, now: nat, i: nat)
    requires Paced(log, now) && i < |log| && log[i].action.Expire?
    requires forall k :: i <= k < |log| ==> !log[k].ok
    ensures RetryAfter(log).Some? && RetryAfter(log).value >= log[i].endedAt + EXPIRY_PERSISTENCE_RETRY_DELAY
  {
    var n := |log| - 1;
    if i < n {
      EndedBy(log[..n], log[n].at, i);
      if !log[n].action.Expire? {
        RetryCovers(log[..n], log[n].at, i);
      }
    }
  }

  /** After a failed expiry write the next expiry attempt is at least ten seconds later,
      unless some write succeeded in between. */
  lemma {:induction false} ExpiryBacksOff(log: seq<Attempt>, now: nat, i: nat, j: nat)
    requires Paced(log, now) && i < j < |log|
    requires log[i].action.Expire? && log[j].action.Expire?
    requires forall k :: i <= k < j ==> !log[k].ok
    ensures log[j].at >= log[i].endedAt + EXPIRY_PERSISTENCE_RETRY_DELAY
  {
    var n := |log| - 1;
    if j < n {
      ExpiryBacksOff(log[..n], log[n].at, i, j);
    } else {
      RetryCovers(log[..n], log[n].at, i);
    }
  }

  /** One more attempt that was due. */
  lemma AttemptExtends(start: map<string, Instant>, log: seq<Attempt>, now: nat, x: Attempt)
    requires Paced(log, now) && now <= x.at <= x.endedAt && Due(x.action, RetryAfter(log), x.at)
    ensures Paced(log + [x], x.endedAt)
    ensures RetryAfter(log + [x]) == if x.ok then None
                                     else if x.action.Expire? then Some(x.endedAt + EXPIRY_PERSISTENCE_RETRY_DELAY)
                                     else RetryAfter(log)
    ensures Persisted(start, log + [x]) == if x.ok then Applied(x.action, Persisted(start, log))
                                           else Persisted(start, log)
  {
    assert (log + [x])[..|log|] == log;
    PacedLater(log, now, x.at);
  }

  lemma PacedLater(log: seq<Attempt>, now: nat, later: nat)
    requires Paced(log, now) && now <= later
    ensures Paced(log, later)
  {
  }

  /** A proposal is the only effect of its event and is its action applied to the live
      map. */
  lemma ProposalIsSole(s: AppState, e: Event, i: nat)
    requires i < |Outcome(s, e).effects| && Outcome(s, e).effects[i].PersistSnoozes?
    ensures |Outcome(s, e).effects| == 1 && !e.SnoozesPersisted? && !e.Notification?
    ensures var p := Outcome(s, e).effects[0]; p.snoozes == Applied(p.action, s.snoozed)
  {
    if e.Notification? {
      NotificationsOnlyNotify(s, e);
    }
  }

  predicate Proposes(effects: seq<Effect>) {
    effects != [] && effects[0].PersistSnoozes?
  }

  /** What an event proposes to write. */
  function Proposal(s: AppState, e: Event): Option<SnoozeAction> {
    var effects := Outcome(s, e).effects;
    if Proposes(effects) then Some(effects[0].action) else None
  }

  lemma NotificationsOnlyNotify(s: AppState, e: Event)
    requires e.Notification?
    ensures forall i :: 0 <= i < |Outcome(s, e).effects| ==> Outcome(s, e).effects[i].Notify?
  {
    OnlyNotifies(e.data.added, e.data.removed, e.serverId, s.snoozed, e.at);
    var all := OpenedEffects(e.data.added, e.serverId, s.snoozed, e.at)
             + ClosedEffects(e.data.removed, e.serverId, s.snoozed, e.at);
    forall i | 0 <= i < |all| ensures all[i].Notify? { assert all[i] in all; }
  }

  lemma OnlyNotifies(added: seq<Incident>, removed: seq<Incident>, id: string, snoozed: map<string, Instant>,
                     at: Instant)
    ensures forall x :: x in OpenedEffects(added, id, snoozed, at) + ClosedEffects(removed, id, snoozed, at) ==>
              x.Notify?
  {
    if added != [] {
      OnlyNotifies(added[..|added| - 1], removed, id, snoozed, at);
    } else if removed != [] {
      OnlyNotifies(added, removed[..|removed| - 1], id, snoozed, at);
    }
    assert forall x :: x in OpenedEffects(added, id, snoozed, at) ==>
             x in OpenedEffects(added, id, snoozed, at) + ClosedEffects(removed, id, snoozed, at);
  }

  /** Events other than the acknowledgement leave the snoozes alone. */
  lemma SnoozesStay(format: Instant -> string, s: AppState, e: Event)
    requires !e.SnoozesPersisted?
    ensures Next(format, s, e).snoozed == s.snoozed
  {
  }

  // ---------------------------------------------------------------- the loop

  class Runtime {
    const reducer: Reducer.Reducer
    const store: Store
    var expiryRetryNotBefore: Option<nat>
    /** The snoozes loaded at startup, the writes attempted since, the latest clock
        reading, and the state that the last published snapshot was taken from. */
    ghost const start: map<string, Instant>
    ghost var log: seq<Attempt>
    ghost var now: nat
    ghost var published: AppState

    /** Startup: the reducer begins with what the state file decodes to. */
    constructor (format: Instant -> string, ids: seq<string>, store: Store, snoozes: map<string, Instant>)
      requires Lawful(store.codec) && store.Snoozes() == Some(snoozes)
      ensures Valid() && this.store == store && start == snoozes && log == []
      ensures fresh(reducer) && reducer.State() == Fresh(ids, snoozes)
    {
      reducer := new Reducer.Reducer(format, ids, snoozes);
      this.store := store;
      expiryRetryNotBefore := None;
      start, log, now := snoozes, [], 0;
      new;
      published := reducer.State();
    }

    /** The durability invariant: the live snoozes are what the file decodes to and what
        the persisted actions make of the initial ones. */
    ghost predicate Durable()
      reads this, reducer, store
    {
      && Lawful(store.codec)
      && store.Snoozes() == Some(reducer.snoozed)
      && reducer.snoozed == Persisted(start, log)
      && expiryRetryNotBefore == RetryAfter(log)
      && Paced(log, now)
    }

    /** At every loop head. */
    ghost predicate Valid()
      reads this, reducer, store
    {
      Durable() && published == reducer.State()
    }

    /** Commits what was written. */
    method Commit(snoozes: map<string, Instant>) returns (changed: bool)
      modifies reducer
      ensures reducer.State() == old(reducer.State()).(snoozed := snoozes)
      ensures !changed ==> reducer.State() == old(reducer.State())
    {
      var committed := reducer.Reduce(SnoozesPersisted(snoozes));
      changed := committed.changed;
    }

    /** A proposed write: skipped while expiry backs off, otherwise attempted once. */
    method Persist(snoozes: map<string, Instant>, action: SnoozeAction, at: nat, endedAt: nat, weather: Weather)
      returns (changed: bool, ok: bool)
      requires Durable() && snoozes == Applied(action, reducer.snoozed) && now <= at <= endedAt
      modifies this`expiryRetryNotBefore, this`log, this`now, reducer, store
      ensures Durable() && old(now) <= now <= endedAt
      ensures !Due(action, old(expiryRetryNotBefore), at) ==> log == old(log)
      ensures Due(action, old(expiryRetryNotBefore), at) ==> log == old(log) + [Attempt(action, at, endedAt, ok)]
      ensures Due(action, old(expiryRetryNotBefore), at) ==>
                ok == Written(store.codec, snoozes, weather)
      ensures reducer.servers == old(reducer.servers) && reducer.incidents == old(reducer.incidents)
      ensures reducer.internalIncidents == old(reducer.internalIncidents)
      ensures !changed ==> reducer.snoozed == old(reducer.snoozed)
      ensures store.Preferences() == old(store.Preferences())
    {
      changed, ok := false, false;
      if !Due(action, expiryRetryNotBefore, at) {
        return;
      }
      ok := store.UpdateSnoozes(snoozes, weather);
      ghost var attempt := Attempt(action, at, endedAt, ok);
      AttemptExtends(start, log, now, attempt);
      log, now := log + [attempt], endedAt;
      expiryRetryNotBefore := if ok then None
                              else if action.Expire? then Some(endedAt + EXPIRY_PERSISTENCE_RETRY_DELAY)
                              else expiryRetryNotBefore;
      if ok {
        changed := Commit(snoozes);
      }
    }

    /** The loop over an event's effects; desktop notifications are not modelled. */
    method Perform(effects: seq<Effect>, at: nat, endedAt: nat, weather: Weather) returns (changed: bool, ok: bool)
      requires Durable() && now <= at <= endedAt
      requires forall i :: 0 <= i < |effects| && effects[i].PersistSnoozes? ==>
                 |effects| == 1 && effects[i].snoozes == Applied(effects[i].action, reducer.snoozed)
      modifies this`expiryRetryNotBefore, this`log, this`now, reducer, store
      ensures Durable() && old(now) <= now <= endedAt
      ensures var due := Proposes(effects) && Due(effects[0].action, old(expiryRetryNotBefore), at);
              && log == (if due then old(log) + [Attempt(effects[0].action, at, endedAt, ok)] else old(log))
              && (due ==> ok == Written(store.codec, effects[0].snoozes, weather))
      ensures reducer.servers == old(reducer.servers) && reducer.incidents == old(reducer.incidents)
      ensures reducer.internalIncidents == old(reducer.internalIncidents)
      ensures !changed ==> reducer.snoozed == old(reducer.snoozed)
      ensures store.Preferences() == old(store.Preferences())
    {
      changed, ok := false, false;
      for i := 0 to |effects|
        invariant i == 0 || !effects[0].PersistSnoozes?
        invariant !changed && !ok && unchanged(this) && unchanged(reducer) && unchanged(store)
      {
        if effects[i].PersistSnoozes? {
          changed, ok := Persist(effects[i].snoozes, effects[i].action, at, endedAt, weather);
          return;
        }
      }
    }

    /** The reducer's part of a turn. */
    method Receive(e: Event) returns (transition: Transition)
      requires Valid() && !e.SnoozesPersisted?
      modifies reducer
      ensures Durable() && (transition.changed || published == reducer.State())
      ensures reducer.State() == Next(reducer.format, old(reducer.State()), e)
      ensures Proposal(old(reducer.State()), e)
           == if Proposes(transition.effects) then Some(transition.effects[0].action) else None
      ensures reducer.snoozed == old(reducer.snoozed)
      ensures forall i :: 0 <= i < |transition.effects| && transition.effects[i].PersistSnoozes? ==>
                && |transition.effects| == 1
                && transition.effects[i].snoozes == Applied(transition.effects[i].action, reducer.snoozed)
    {
      ghost var s := reducer.State();
      transition := reducer.Reduce(e);
      SnoozesStay(reducer.format, s, e);
      ChangedIsExact(reducer.format, s, e);
      forall i | 0 <= i < |transition.effects| && transition.effects[i].PersistSnoozes?
        ensures |transition.effects| == 1
        ensures transition.effects[i].snoozes == Applied(transition.effects[i].action, s.snoozed)
      {
        ProposalIsSole(s, e, i);
      }
    }

    /** One turn of the loop: the event takes its effect on the state, its proposal is
        attempted if it is due, and a snapshot is published if anything changed. */
    method Handle(e: Event, at: nat, endedAt: nat, weather: Weather) returns (ok: bool)
      requires Valid() && !e.SnoozesPersisted? && now <= at <= endedAt
      modifies this, reducer, store
      ensures Valid() && old(now) <= now <= endedAt
      ensures reducer.State() == Next(reducer.format, old(reducer.State()), e).(snoozed := reducer.snoozed)
      ensures var p := Proposal(old(reducer.State()), e);
              var due := p.Some? && Due(p.value, old(expiryRetryNotBefore), at);
              && log == (if due then old(log) + [Attempt(p.value, at, endedAt, ok)] else old(log))
              && (due ==> ok == Written(store.codec, Applied(p.value, old(reducer.snoozed)), weather))
      ensures store.Preferences() == old(store.Preferences())
    {
      var transition := Receive(e);
      ghost var next := reducer.State();
      var committed;
      committed, ok := Perform(transition.effects, at, endedAt, weather);
      assert reducer.State() == next.(snoozed := reducer.snoozed);
      assert committed || reducer.State() == next;
      if transition.changed || committed || e.Tick? {
        published := reducer.State();
      }
    }
  }

  // ---------------------------------------------------------------- whole runs

  /** The clock readings never go back, and nobody but the loop acknowledges a write. */
  predicate Plausible(inputs: seq<Input>, now: nat) {
    inputs == [] ||
    (var head := inputs[0];
     match head
     case Receive(e, at, endedAt, _) => !e.SnoozesPersisted? && now <= at <= endedAt && Plausible(inputs[1..], endedAt)
     case OtherWriter(_, _) => Plausible(inputs[1..], now))
  }

  /** What a loop head knows: the live state, the writes attempted so far, and the
      preferences in the file. */
  datatype Turn = Turn(state: AppState, log: seq<Attempt>, preferences: Option<string>)

  /** One input, without the objects: the event's effect, then its proposal, if there is
      one and it is due, written and committed or not; or another writer's transaction. */
  function TurnOf(format: Instant -> string, codec: Codec, t: Turn, input: Input): Turn {
    match input
    case OtherWriter(preferences, weather) =>
      if weather.canRead && weather.canWrite && t.preferences.Some? then t.(preferences := Some(preferences)) else t
    case Receive(e, at, endedAt, weather) =>
      var next, p := Next(format, t.state, e), Proposal(t.state, e);
      if p.None? || !Due(p.value, RetryAfter(t.log), at) then t.(state := next)
      else
        var snoozes := Applied(p.value, t.state.snoozed);
        var ok := Written(codec, snoozes, weather);
        Turn(if ok then next.(snoozed := snoozes) else next, t.log + [Attempt(p.value, at, endedAt, ok)], t.preferences)
  }

  function Turns(format: Instant -> string, codec: Codec, t: Turn, inputs: seq<Input>): Turn {
    if inputs == [] then t
    else TurnOf(format, codec, Turns(format, codec, t, inputs[..|inputs| - 1]), inputs[|inputs| - 1])
  }

  lemma TurnsExtend(format: Instant -> string, codec: Codec, t: Turn, inputs: seq<Input>, i: nat)
    requires i < |inputs|
    ensures Turns(format, codec, t, inputs[..i + 1])
         == TurnOf(format, codec, Turns(format, codec, t, inputs[..i]), inputs[i])
  {
    assert inputs[..i + 1][..i] == inputs[..i];
  }

  lemma PersistedExtend(start: map<string, Instant>, log: seq<Attempt>, x: Attempt)
    ensures Persisted(start, log + [x])
         == if x.ok then Applied(x.action, Persisted(start, log)) else Persisted(start, log)
  {
    assert (log + [x])[..|log|] == log;
  }

  /** What a plausible input keeps or adds. */
  lemma TurnKeeps(format: Instant -> string, codec: Codec, start: map<string, Instant>, t: Turn, input: Input)
    requires input.Receive? ==> !input.e.SnoozesPersisted?
    requires t.state.snoozed == Persisted(start, t.log)
    ensures var t' := TurnOf(format, codec, t, input);
            && t'.state.snoozed == Persisted(start, t'.log)
            && var next := if input.Receive? then Next(format, t.state, input.e) else t.state;
               t'.state == next.(snoozed := t'.state.snoozed)
  {
    if input.Receive? {
      SnoozesStay(format, t.state, input.e);
      var p := Proposal(t.state, input.e);
      if p.Some? && Due(p.value, RetryAfter(t.log), input.at) {
        var ok := Written(codec, Applied(p.value, t.state.snoozed), input.weather);
        PersistedExtend(start, t.log, Attempt(p.value, input.at, input.endedAt, ok));
      }
    }
  }

  function EventsOf(inputs: seq<Input>): seq<Event> {
    if inputs == [] then []
    else
      var last := inputs[|inputs| - 1];
      EventsOf(inputs[..|inputs| - 1]) + if last.Receive? then [last.e] else []
  }

  predicate NoAcknowledgements(inputs: seq<Input>) {
    forall i :: 0 <= i < |inputs| && inputs[i].Receive? ==> !inputs[i].e.SnoozesPersisted?
  }

  lemma {:induction false} PlausibleActs(inputs: seq<Input>, now: nat)
    requires Plausible(inputs, now)
    ensures NoAcknowledgements(inputs)
    decreases |inputs|
  {
    if inputs != [] {
      PlausibleActs(inputs[1..], if inputs[0].Receive? then inputs[0].endedAt else now);
      assert forall i :: 1 <= i < |inputs| ==> inputs[i] == inputs[1..][i - 1];
    }
  }

  /** What an event does to the rest of the state does not depend on the snoozes. */
  lemma NextIgnoresSnoozes(format: Instant -> string, s: AppState, e: Event, snoozed: map<string, Instant>)
    requires !e.SnoozesPersisted?
    ensures Next(format, s.(snoozed := snoozed), e) == Next(format, s, e).(snoozed := snoozed)
  {
  }

  /** The state's snoozes are the fold of exactly the actions that the run persisted, and
      the rest of it is that of the history of events. */
  lemma {:induction false} TurnsFollowHistory(format: Instant -> string, codec: Codec, start: map<string, Instant>,
                                              t: Turn, inputs: seq<Input>)
    requires NoAcknowledgements(inputs) && t.state.snoozed == Persisted(start, t.log)
    ensures var t' := Turns(format, codec, t, inputs);
            && t'.state.snoozed == Persisted(start, t'.log)
            && t'.state == After(format, t.state, EventsOf(inputs)).(snoozed := t'.state.snoozed)
  {
    if inputs != [] {
      var front, last := inputs[..|inputs| - 1], inputs[|inputs| - 1];
      TurnsFollowHistory(format, codec, start, t, front);
      var before := Turns(format, codec, t, front);
      TurnKeeps(format, codec, start, before, last);
      if last.Receive? {
        AfterExtend(format, t.state, EventsOf(front), last.e);
        NextIgnoresSnoozes(format, After(format, t.state, EventsOf(front)), last.e, before.state.snoozed);
      } else {
        assert EventsOf(front) + [] == EventsOf(front);
      }
    }
  }

  lemma {:induction false} TurnsKeepLog(format: Instant -> string, codec: Codec, t: Turn, inputs: seq<Input>)
    ensures t.log <= Turns(format, codec, t, inputs).log
  {
    if inputs != [] {
      TurnsKeepLog(format, codec, t, inputs[..|inputs| - 1]);
    }
  }

  /** The preferences are those of the last writer whose transaction went through: no
      write of snoozes undoes them. */
  lemma {:induction false} PreferencesAreTheLast(format: Instant -> string, codec: Codec, t: Turn,
                                                 inputs: seq<Input>, i: nat)
    requires t.preferences.Some? && i < |inputs|
    requires inputs[i].OtherWriter? && inputs[i].weather == Weather(true, true)
    requires forall j :: i < j < |inputs| && inputs[j].OtherWriter? ==> inputs[j].weather != Weather(true, true)
    ensures Turns(format, codec, t, inputs).preferences == Some(inputs[i].preferences)
  {
    var front := inputs[..|inputs| - 1];
    if i < |front| {
      PreferencesAreTheLast(format, codec, t, front, i);
    } else {
      PreferencesStay(format, codec, t, front);
    }
  }

  lemma {:induction false} PreferencesStay(format: Instant -> string, codec: Codec, t: Turn, inputs: seq<Input>)
    requires t.preferences.Some?
    ensures Turns(format, codec, t, inputs).preferences.Some?
  {
    if inputs != [] {
      PreferencesStay(format, codec, t, inputs[..|inputs| - 1]);
    }
  }

  /** A turn of the objects is a turn of the fold. */
  method TakeTurn(rt: Runtime, input: Input, ghost t: Turn)
    requires rt.Valid() && t == Turn(rt.reducer.State(), rt.log, rt.store.Preferences())
    requires input.Receive? ==> !input.e.SnoozesPersisted? && rt.now <= input.at <= input.endedAt
    modifies rt, rt.reducer, rt.store
    ensures rt.Valid() && rt.now <= if input.Receive? then input.endedAt else old(rt.now)
    ensures Turn(rt.reducer.State(), rt.log, rt.store.Preferences())
         == TurnOf(rt.reducer.format, rt.store.codec, t, input)
  {
    match input
    case Receive(e, at, endedAt, weather) =>
      var ok := rt.Handle(e, at, endedAt, weather);
      SameTurn(rt, e, at, endedAt, weather, t, ok);
    case OtherWriter(preferences, weather) =>
      var _ := rt.store.UpdatePreferences(preferences, weather);
  }

  /** The live snoozes follow from the log, so state and log after a turn are the fold's. */
  lemma SameTurn(rt: Runtime, e: Event, at: nat, endedAt: nat, weather: Weather, t: Turn, ok: bool)
    requires !e.SnoozesPersisted?
    requires rt.reducer.snoozed == Persisted(rt.start, rt.log) && t.state.snoozed == Persisted(rt.start, t.log)
    requires rt.reducer.State() == Next(rt.reducer.format, t.state, e).(snoozed := rt.reducer.snoozed)
    requires var p := Proposal(t.state, e);
             var due := p.Some? && Due(p.value, RetryAfter(t.log), at);
             && rt.log == (if due then t.log + [Attempt(p.value, at, endedAt, ok)] else t.log)
             && (due ==> ok == Written(rt.store.codec, Applied(p.value, t.state.snoozed), weather))
    ensures var t' := TurnOf(rt.reducer.format, rt.store.codec, t, Receive(e, at, endedAt, weather));
            rt.reducer.State() == t'.state && rt.log == t'.log && t'.preferences == t.preferences
  {
    TurnKeeps(rt.reducer.format, rt.store.codec, rt.start, t, Receive(e, at, endedAt, weather));
  }

  /** For every sequence of events and every pattern of failing file operations, with
      other writers saving their preferences in between, the objects do what the fold of
      the inputs says. At each loop head the live snoozes are what the file decodes to and
      the fold of exactly the persisted actions, expiry backs off, and the last published
      snapshot was taken from the current state. */
  method RunLoop(rt: Runtime, inputs: seq<Input>)
    requires rt.Valid() && Plausible(inputs, rt.now)
    modifies rt, rt.reducer, rt.store
    ensures rt.Valid() && old(rt.log) <= rt.log
    ensures Turn(rt.reducer.State(), rt.log, rt.store.Preferences())
         == Turns(rt.reducer.format, rt.store.codec,
                  Turn(old(rt.reducer.State()), old(rt.log), old(rt.store.Preferences())), inputs)
    ensures rt.reducer.State()
         == After(rt.reducer.format, old(rt.reducer.State()), EventsOf(inputs)).(snoozed := rt.reducer.snoozed)
  {
    ghost var clock, t := rt.now, Turn(rt.reducer.State(), rt.log, rt.store.Preferences());
    for i := 0 to |inputs|
      invariant rt.Valid() && rt.now <= clock && Plausible(inputs[i..], clock)
      invariant Turn(rt.reducer.State(), rt.log, rt.store.Preferences())
             == Turns(rt.reducer.format, rt.store.codec, t, inputs[..i])
    {
      assert inputs[i..][0] == inputs[i] && inputs[i..][1..] == inputs[i + 1..];
      TurnsExtend(rt.reducer.format, rt.store.codec, t, inputs, i);
      TakeTurn(rt, inputs[i], Turns(rt.reducer.format, rt.store.codec, t, inputs[..i]));
      clock := if inputs[i].Receive? then inputs[i].endedAt else clock;
    }
    assert inputs[..|inputs|] == inputs;
    TurnsKeepLog(rt.reducer.format, rt.store.codec, t, inputs);
    PlausibleActs(inputs, old(rt.now));
    TurnsFollowHistory(rt.reducer.format, rt.store.codec, rt.start, t, inputs);
  }
}
