/** The collector's loop body on its own data structures: four maps, a generation
    counter and the armed timers, each branch refining the step it implements. */
module SystemdCollector {
  import opened Items
  import opened SystemdRules
  import opened SystemdRecovery
  import opened SystemdRuns

  /** One unit of an update in progress. */
  function HandleOne(config: Config, w: World, unit: Unit): (w': World)
    requires w.phase.Handling?
    ensures w'.phase.Handling?
  {
    var r := Read(config, unit);
    if r.None? then w else HandleReading(config, w, unit, r.value)
  }

  /** The units one after the other. */
  function HandleEach(config: Config, w: World, units: seq<Unit>): (w': World)
    requires w.phase.Handling?
    ensures w'.phase.Handling?
  {
    if units == [] then w else HandleOne(config, HandleEach(config, w, units[..|units| - 1]), units[|units| - 1])
  }

  class Collector {
    const config: Config
    var firstUpdate: bool
    var incidentResolve: map<string, Option<Resolve>>
    var incidentStates: map<string, ItemState>
    var pendingResolutions: map<string, Pending>
    var deferredResolutionStates: map<string, Deferred>
    var nextGeneration: nat
    var timers: map<nat, Timer>

    constructor (config: Config)
      ensures Mirrors(INITIAL) && this.config == config
    {
      this.config := config;
      firstUpdate := true;
      incidentResolve, incidentStates := map[], map[];
      pendingResolutions, deferredResolutionStates := map[], map[];
      nextGeneration, timers := 0, map[];
    }

    /** What the four maps hold for a key. */
    function View(k: string): KeyState
      reads this
    {
      KeyState(if k in incidentResolve && k in incidentStates
               then Some(Incident(incidentResolve[k], incidentStates[k])) else None,
               if k in pendingResolutions then Some(pendingResolutions[k]) else None,
               if k in deferredResolutionStates then Some(deferredResolutionStates[k]) else None)
    }

    /** The maps hold the key states of `w`, and policies and severities are kept for
        the same keys. */
    ghost predicate Mirrors(w: World)
      reads this
    {
      && firstUpdate == w.firstUpdate && nextGeneration == w.nextGeneration && timers == w.timers
      && incidentResolve.Keys == incidentStates.Keys
      && (forall k :: View(k) == StateOf(w, k))
    }

    method CancelPendingResolution(key: string)
      modifies this`pendingResolutions, this`timers
      ensures pendingResolutions == old(pendingResolutions) - {key}
      ensures timers == if key in old(pendingResolutions)
                        then old(timers) - {old(pendingResolutions)[key].generation} else old(timers)
    {
      if key in pendingResolutions {
        timers := timers - {pendingResolutions[key].generation};
        pendingResolutions := pendingResolutions - {key};
      }
    }

    /** A non-OK item: opens or updates the incident and ends any recovery window. */
    method HandleUnhealthy(item: Item, resolve: Option<Resolve>)
      requires incidentResolve.Keys == incidentStates.Keys
      modifies this`incidentResolve, this`incidentStates, this`pendingResolutions, this`deferredResolutionStates
      modifies this`timers
      ensures incidentResolve.Keys == incidentStates.Keys
      ensures var policy := if item.key in old(incidentResolve) then old(incidentResolve)[item.key] else resolve;
              View(item.key) == KeyState(Some(Incident(policy, item.state)), None, None)
      ensures forall j :: j != item.key ==> View(j) == old(View(j))
      ensures timers == if item.key in old(pendingResolutions)
                        then old(timers) - {old(pendingResolutions)[item.key].generation} else old(timers)
    {
      CancelPendingResolution(item.key);
      deferredResolutionStates := deferredResolutionStates - {item.key};
      if item.key !in incidentResolve {
        incidentResolve := incidentResolve[item.key := resolve];
      }
      incidentStates := incidentStates[item.key := item.state];
    }

    /** An OK item without a policy: the key is clear. */
    method HandleHealthy(key: string)
      requires incidentResolve.Keys == incidentStates.Keys
      modifies this`incidentResolve, this`incidentStates, this`pendingResolutions, this`deferredResolutionStates
      modifies this`timers
      ensures incidentResolve.Keys == incidentStates.Keys
      ensures View(key) == CLEAR
      ensures forall j :: j != key ==> View(j) == old(View(j))
      ensures timers == if key in old(pendingResolutions)
                        then old(timers) - {old(pendingResolutions)[key].generation} else old(timers)
    {
      CancelPendingResolution(key);
      incidentResolve, incidentStates := incidentResolve - {key}, incidentStates - {key};
      deferredResolutionStates := deferredResolutionStates - {key};
    }

    /** An OK item under a policy: reports the new state at the old severity, and
        starts, continues or cancels the recovery window. */
    method HandleDeferred(unit: Unit, item: Item, now: nat) returns (published: Option<Item>)
      requires incidentResolve.Keys == incidentStates.Keys
      requires item.state.OK? && item.key in incidentResolve && incidentResolve[item.key].Some?
      modifies this`pendingResolutions, this`deferredResolutionStates, this`timers, this`nextGeneration
      ensures var ks := old(View(item.key));
              var out := Defer(config.format, ks, unit, item, incidentResolve[item.key].value, old(nextGeneration) + 1);
              && View(item.key) == out.next && published == out.published
              && nextGeneration == (if out.armed.Some? then old(nextGeneration) + 1 else old(nextGeneration))
              && timers == TimersAfter(old(timers), ks, out, item.key, now)
      ensures forall j :: j != item.key ==> View(j) == old(View(j))
    {
      var key, resolve, deferredState := item.key, incidentResolve[item.key].value, Deferred(unit.state, unit.subState);
      var stateChanged := key !in deferredResolutionStates || deferredResolutionStates[key] != deferredState;
      if stateChanged {
        deferredResolutionStates := deferredResolutionStates[key := deferredState];
      }
      var contributes := unit.state in resolve.states;
      published := None;
      if stateChanged {
        var details := if contributes then config.format.pending(item.details, resolve)
                       else config.format.unresolved(item.details, unit.state, resolve);
        published := Some(Item(key, incidentStates[key], details));
      }
      if !contributes {
        CancelPendingResolution(key);
      } else if key in pendingResolutions {
        pendingResolutions := pendingResolutions[key := Pending(item, pendingResolutions[key].generation)];
      } else {
        nextGeneration := nextGeneration + 1;
        timers := timers[nextGeneration := Timer(key, now + resolve.after)];
        pendingResolutions := pendingResolutions[key := Pending(item, nextGeneration)];
      }
    }

    /** The body of the loop over the units of an update. */
    method Dispatch(unit: Unit, r: Reading, now: nat, items0: map<string, Item>) returns (items: map<string, Item>)
      requires incidentResolve.Keys == incidentStates.Keys
      modifies this`incidentResolve, this`incidentStates, this`pendingResolutions, this`deferredResolutionStates
      modifies this`timers, this`nextGeneration
      ensures incidentResolve.Keys == incidentStates.Keys
      ensures var ks := old(View(r.item.key));
              var out := Observe(config.format, ks, unit, r, old(nextGeneration) + 1);
              && View(r.item.key) == out.next && items == ItemsAfter(items0, out, r.item.key)
              && nextGeneration == (if out.armed.Some? then old(nextGeneration) + 1 else old(nextGeneration))
              && timers == TimersAfter(old(timers), ks, out, r.item.key, now)
      ensures forall j :: j != r.item.key ==> View(j) == old(View(j))
    {
      if !r.item.state.OK? {
        HandleUnhealthy(r.item, r.resolve);
        items := items0[r.item.key := r.item];
      } else if r.item.key !in incidentResolve || incidentResolve[r.item.key].None? {
        HandleHealthy(r.item.key);
        items := items0[r.item.key := r.item];
      } else {
        var published := HandleDeferred(unit, r.item, now);
        items := if published.Some? then items0[r.item.key := published.value] else items0;
      }
    }

    /** Each unit takes the step that the machine takes. */
    method HandleReading(unit: Unit, r: Reading, now: nat, items0: map<string, Item>, ghost w: World)
      returns (items: map<string, Item>)
      requires Mirrors(w) && w.phase.Handling? && w.phase.items == items0 && w.now == now
      modifies this`incidentResolve, this`incidentStates, this`pendingResolutions, this`deferredResolutionStates
      modifies this`timers, this`nextGeneration
      ensures var w' := SystemdRuns.HandleReading(config, w, unit, r); Mirrors(w') && items == w'.phase.items
    {
      assert View(r.item.key) == StateOf(w, r.item.key);
      items := Dispatch(unit, r, now, items0);
      OneKeyChanged(w, unit, r);
    }

    /** A reading changes the state of its own key only. */
    lemma OneKeyChanged(w: World, unit: Unit, r: Reading)
      requires w.phase.Handling?
      ensures var w' := SystemdRuns.HandleReading(config, w, unit, r);
              && StateOf(w', r.item.key)
              == Observe(config.format, StateOf(w, r.item.key), unit, r, w.nextGeneration + 1).next
              && forall j :: j != r.item.key ==> StateOf(w', j) == StateOf(w, j)
    {
    }

    /** A unit that no rule applies to changes nothing. */
    method HandleUnit(unit: Unit, now: nat, items0: map<string, Item>, ghost w: World)
      returns (items: map<string, Item>)
      requires Mirrors(w) && w.phase.Handling? && w.phase.items == items0 && w.now == now
      modifies this`incidentResolve, this`incidentStates, this`pendingResolutions, this`deferredResolutionStates
      modifies this`timers, this`nextGeneration
      ensures var w' := HandleOne(config, w, unit); Mirrors(w') && items == w'.phase.items && w'.now == now
    {
      items := items0;
      var r := Read(config, unit);
      if r.Some? {
        items := HandleReading(unit, r.value, now, items, w);
      }
    }

    /** A provider update: the units in the map's arbitrary iteration order. */
    method HandleUpdate(units: map<string, Option<Unit>>, now: nat, ghost w: World)
      returns (items: map<string, Item>, ghost order: seq<string>)
      requires Mirrors(w) && w.phase.Waiting? && w.now == now
      modifies this
      ensures IsOrder(order, Represented(config, w.firstUpdate, units).Keys)
      ensures var all := Represented(config, w.firstUpdate, units);
              var w' := HandleEach(config, w.(firstUpdate := false, phase := Handling([], map[])),
                                   UnitsInOrder(all, order));
              Mirrors(w') && items == w'.phase.items
    {
      var all := Represented(config, firstUpdate, units);
      firstUpdate := false;
      ghost var w0 := w.(firstUpdate := false, phase := Handling([], map[]));
      ghost var wi := w0;
      MirrorsPhase(w, w0);
      items, order := map[], [];
      var todo := all.Keys;
      while todo != {}
        invariant todo <= all.Keys
        invariant IsOrder(order, all.Keys - todo)
        invariant wi == HandleEach(config, w0, UnitsInOrder(all, order)) && wi.now == now
        invariant Mirrors(wi) && wi.phase.Handling? && items == wi.phase.items
      {
        var k :| k in todo;
        var unit := if all[k].Some? then all[k].value else Unit(k, NOT_SENT, "");
        items := HandleUnit(unit, now, items, wi);
        OrderExtend(config, w0, all, order, k, unit);
        wi := HandleOne(config, wi, unit);
        IsOrderExtend(order, all.Keys, todo, k);
        order := order + [k];
        todo := todo - {k};
      }
      assert all.Keys - todo == all.Keys;
    }

    lemma MirrorsPhase(w: World, w': World)
      requires w'.keys == w.keys
      ensures forall k :: StateOf(w', k) == StateOf(w, k)
    {
    }

    /** The timer branch. */
    method HandleReady(r: Ready, ghost w: World) returns (published: Option<Item>)
      requires Mirrors(w) && w.phase.Waiting?
      modifies this
      ensures var w' := SystemdRuns.HandleReady(w, r);
              && Mirrors(w')
              && w'.phase == if published.Some? then Sending(Update(map[r.key := published.value])) else Waiting
    {
      published := None;
      assert View(r.key) == StateOf(w, r.key);
      if r.key !in pendingResolutions || pendingResolutions[r.key].generation != r.generation {
        return;
      }
      published := Some(pendingResolutions[r.key].item);
      pendingResolutions := pendingResolutions - {r.key};
      incidentResolve, incidentStates := incidentResolve - {r.key}, incidentStates - {r.key};
      deferredResolutionStates := deferredResolutionStates - {r.key};
      forall k
        ensures View(k) == StateOf(SystemdRuns.HandleReady(w, r), k)
      {
        assert old(View(k)) == StateOf(w, k);
      }
    }
  }

  lemma IsOrderExtend(order: seq<string>, keys: set<string>, todo: set<string>, k: string)
    requires todo <= keys && k in todo && IsOrder(order, keys - todo)
    ensures IsOrder(order + [k], keys - (todo - {k}))
  {
    forall j | j in keys - (todo - {k})
      ensures j in order + [k]
    {
      if j != k {
        assert j in keys - todo;
      }
    }
  }

  lemma OrderExtend(config: Config, w: World, all: map<string, Option<Unit>>, order: seq<string>, k: string, unit: Unit)
    requires w.phase.Handling? && k in all && forall j | j in order :: j in all
    requires unit == if all[k].Some? then all[k].value else Unit(k, NOT_SENT, "")
    ensures HandleEach(config, w, UnitsInOrder(all, order + [k]))
         == HandleOne(config, HandleEach(config, w, UnitsInOrder(all, order)), unit)
  {
    var units := UnitsInOrder(all, order + [k]);
    assert units[..|order|] == UnitsInOrder(all, order) && units[|order|] == unit;
  }

  /** The machine's steps from the start of an update to its last unit, with nothing
      in between. */
  function StepUnits(config: Config, w: World): (w': World)
    requires w.phase.Handling?
    ensures w'.phase.Handling? && w'.phase.todo == []
    decreases |w.phase.todo|
  {
    if w.phase.todo == [] then w else StepUnits(config, Step(config, w, HandleUnit))
  }

  lemma {:induction false} FirstOfEach(config: Config, w: World, units: seq<Unit>)
    requires w.phase.Handling? && units != []
    ensures HandleEach(config, w, units) == HandleEach(config, HandleOne(config, w, units[0]), units[1..])
    decreases |units|
  {
    if |units| == 1 {
      assert HandleEach(config, w, units[..0]) == w;
    } else {
      var front := units[..|units| - 1];
      FirstOfEach(config, w, front);
      assert front[1..] == units[1..][..|units| - 2];
    }
  }

  /** A reading does not look at the units still to come. */
  lemma TodoIsIgnored(config: Config, w: World, todo: seq<Unit>, unit: Unit)
    requires w.phase.Handling?
    ensures HandleOne(config, w.(phase := Handling(todo, w.phase.items)), unit)
         == var w' := HandleOne(config, w, unit); w'.(phase := Handling(todo, w'.phase.items))
  {
    var r := Read(config, unit);
    if r.Some? {
      ReadingIgnoresTodo(config, w, todo, unit, r.value);
    }
  }

  lemma ReadingIgnoresTodo(config: Config, w: World, todo: seq<Unit>, unit: Unit, r: Reading)
    requires w.phase.Handling?
    ensures HandleReading(config, w.(phase := Handling(todo, w.phase.items)), unit, r)
         == var w' := HandleReading(config, w, unit, r); w'.(phase := Handling(todo, w'.phase.items))
  {
    var v := w.(phase := Handling(todo, w.phase.items));
    assert StateOf(v, r.item.key) == StateOf(w, r.item.key);
  }

  /** Handling a whole update at once is handling its units step by step. */
  lemma {:induction false} EachIsSteps(config: Config, w: World)
    requires w.phase.Handling?
    ensures StepUnits(config, w) == HandleEach(config, w.(phase := Handling([], w.phase.items)), w.phase.todo)
    decreases |w.phase.todo|
  {
    if w.phase.todo != [] {
      var unit, rest := w.phase.todo[0], w.phase.todo[1..];
      var w0 := w.(phase := Handling([], w.phase.items));
      FirstOfEach(config, w0, w.phase.todo);
      TodoIsIgnored(config, w0, rest, unit);
      EachIsSteps(config, Step(config, w, HandleUnit));
    }
  }
}
