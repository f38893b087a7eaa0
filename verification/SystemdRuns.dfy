/** Every run of the systemd collector: its loop, the recovery timers, the callbacks
    in flight and the queue of ready messages, interleaved in any order. */
module SystemdRuns {
  import opened Items
  import opened SystemdRules
  import opened SystemdRecovery

  const READY_QUEUE := 16

  datatype Timer = Timer(key: string, deadline: nat)

  datatype Ready = Ready(key: string, generation: nat)

  datatype Update = Update(items: map<string, Item>) | Failure

  /** Where the loop is: in `select`, inside a provider update, or in `sendUpdate`. */
  datatype Phase = Waiting | Handling(todo: seq<Unit>, items: map<string, Item>) | Sending(update: Update)

  datatype World = World(
    keys: map<string, KeyState>,
    nextGeneration: nat,
    firstUpdate: bool,
    shuttingDown: bool,
    phase: Phase,
    now: nat,
    teardown: bool,
    timers: map<nat, Timer>,     // armed timers, by generation
    firing: set<Ready>,          // callbacks that run but have not sent yet
    readyCh: seq<Ready>,
    log: seq<Entry>,             // history: what was observed and resolved
    openers: map<string, nat>,   // history: the entry that opened each open incident
    armedAt: map<nat, nat>)      // history: the entry that armed each generation

  datatype Action =
    | Tick(elapsed: nat)
    | Fire(generation: nat)
    | Deliver(ready: Ready)
    | Abandon(ready: Ready)
    | TakeReady
    | TakeUnits(units: map<string, Option<Unit>>, order: seq<string>)
    | TakeError
    | Drain
    | HandleUnit
    | FinishUpdate
    | Send
    | AbortSend
    | Teardown

  const INITIAL := World(map[], 0, true, false, Waiting, 0, false, map[], {}, [], [], map[], map[])

  function StateOf(w: World, k: string): KeyState {
    if k in w.keys then w.keys[k] else CLEAR
  }

  function OpenerOf(w: World, k: string): Option<nat> {
    if k in w.openers then Some(w.openers[k]) else None
  }

  /** The entry that armed the pending window of `k`, if one is pending. */
  function WindowOf(w: World, k: string): Option<nat> {
    var pending := StateOf(w, k).pending;
    if pending.Some? && pending.value.generation in w.armedAt then Some(w.armedAt[pending.value.generation]) else None
  }

  // ---------- Provider updates ----------

  function NamedUnits(rules: seq<Rule>): set<string> {
    set r, n | r in rules && n in r.names :: n
  }

  /** The first update gets a synthetic unit for every named unit it lacks. */
  function Represented(config: Config, first: bool, units: map<string, Option<Unit>>): map<string, Option<Unit>> {
    if first then
      units + map n | n in NamedUnits(config.rules) && n !in units :: Some(Unit(n, NOT_SENT, ""))
    else units
  }

  predicate IsOrder(order: seq<string>, keys: set<string>) {
    && (forall i, j :: 0 <= i < j < |order| ==> order[i] != order[j])
    && (forall i :: 0 <= i < |order| ==> order[i] in keys)
    && (forall k :: k in keys ==> k in order)
  }

  /** The units in iteration order; a removed unit counts as not sent. */
  function UnitsInOrder(units: map<string, Option<Unit>>, order: seq<string>): (r: seq<Unit>)
    requires forall i :: 0 <= i < |order| ==> order[i] in units
  {
    seq(|order|, i requires 0 <= i < |order| =>
      if units[order[i]].Some? then units[order[i]].value else Unit(order[i], NOT_SENT, ""))
  }

  // ---------- Steps ----------

  predicate Enabled(config: Config, w: World, a: Action) {
    match a
    case Tick(_) => true
    case Fire(g) => g in w.timers && w.timers[g].deadline <= w.now
    case Deliver(r) => r in w.firing && |w.readyCh| < READY_QUEUE
    case Abandon(r) => r in w.firing && w.teardown
    case TakeReady => w.phase.Waiting? && w.readyCh != []
    case TakeUnits(units, order) =>
      && w.phase.Waiting? && !w.shuttingDown && !w.teardown
      && IsOrder(order, Represented(config, w.firstUpdate, units).Keys)
    case TakeError => w.phase.Waiting? && !w.shuttingDown && !w.teardown
    case Drain => w.phase.Waiting? && (w.shuttingDown || w.teardown)
    case HandleUnit => w.phase.Handling? && w.phase.todo != []
    case FinishUpdate => w.phase.Handling? && w.phase.todo == []
    case Send => w.phase.Sending?
    case AbortSend => w.phase.Sending? && w.teardown
    case Teardown => true
  }

  function Step(config: Config, w: World, a: Action): World
    requires Enabled(config, w, a)
  {
    match a
    case Tick(d) => w.(now := w.now + d)
    case Fire(g) => w.(timers := w.timers - {g}, firing := w.firing + {Ready(w.timers[g].key, g)})
    case Deliver(r) => w.(firing := w.firing - {r}, readyCh := w.readyCh + [r])
    case Abandon(r) => w.(firing := w.firing - {r})
    case TakeReady => HandleReady(w.(readyCh := w.readyCh[1..]), w.readyCh[0])
    case TakeUnits(units, order) =>
      w.(firstUpdate := false,
         phase := Handling(UnitsInOrder(Represented(config, w.firstUpdate, units), order), map[]))
    case TakeError => w.(phase := Sending(Failure))
    case Drain => w.(shuttingDown := true)
    case HandleUnit =>
      var next := Read(config, w.phase.todo[0]);
      var w' := w.(phase := w.phase.(todo := w.phase.todo[1..]));
      if next.None? then w' else HandleReading(config, w', w.phase.todo[0], next.value)
    case FinishUpdate => w.(phase := if w.phase.items == map[] then Waiting else Sending(Update(w.phase.items)))
    case Send => w.(phase := Waiting)
    case AbortSend => w.(phase := Waiting, shuttingDown := true)
    case Teardown => w.(teardown := true)
  }

  /** The timer branch: a message of a superseded window is dropped. */
  function HandleReady(w: World, r: Ready): (w': World)
    ensures w'.shuttingDown == w.shuttingDown && w'.teardown == w.teardown && w'.readyCh == w.readyCh
  {
    var ks := StateOf(w, r.key);
    if ks.pending.None? || ks.pending.value.generation != r.generation then w
    else
      w.(keys := w.keys - {r.key},
         openers := w.openers - {r.key},
         log := w.log + [Resolved(w.now, r.generation, ks.pending.value.item)],
         phase := Sending(Update(map[r.key := ks.pending.value.item])))
  }

  /** A window that ends without resolving stops its timer; a new one arms its own. */
  function TimersAfter(timers: map<nat, Timer>, ks: KeyState, out: Outcome, k: string, now: nat): map<nat, Timer> {
    var kept := if ks.pending.Some? && out.next.pending.None? then timers - {ks.pending.value.generation} else timers;
    if out.armed.Some? then kept[out.armed.value.generation := Timer(k, now + out.armed.value.after)] else kept
  }

  function ItemsAfter(items: map<string, Item>, out: Outcome, k: string): map<string, Item> {
    if out.published.Some? then items[k := out.published.value] else items
  }

  /** One unit of a provider update. */
  function HandleReading(config: Config, w: World, unit: Unit, r: Reading): (w': World)
    requires w.phase.Handling?
    ensures w'.shuttingDown == w.shuttingDown && w'.teardown == w.teardown && w'.readyCh == w.readyCh
    ensures w'.phase.Handling?
  {
    var k, ks := r.item.key, StateOf(w, r.item.key);
    var out := Observe(config.format, ks, unit, r, w.nextGeneration + 1);
    var opener := OpenedAfter(ks, r, out, OpenerOf(w, k), |w.log|);
    World(
      w.keys[k := out.next],
      if out.armed.Some? then w.nextGeneration + 1 else w.nextGeneration,
      w.firstUpdate, w.shuttingDown,
      Handling(w.phase.todo, ItemsAfter(w.phase.items, out, k)),
      w.now, w.teardown,
      TimersAfter(w.timers, ks, out, k, w.now),
      w.firing, w.readyCh,
      w.log + [Entered(w.now, unit, r, out)],
      if opener.Some? then w.openers[k := opener.value] else w.openers - {k},
      if out.armed.Some? then w.armedAt[w.nextGeneration + 1 := |w.log|] else w.armedAt)
  }

  // ---------- What every step keeps ----------

  /** A window that may fire has lasted: `g` was armed for `k`, long enough ago. */
  ghost predicate Elapsed(w: World, r: Ready) {
    && r.generation in w.armedAt && ArmedFor(w, r.generation, r.key)
    && Deadline(w, r.generation) <= w.now
  }

  ghost predicate ArmedFor(w: World, g: nat, k: string)
    requires g in w.armedAt
  {
    var i := w.armedAt[g];
    && i < |w.log| && w.log[i].Observed? && w.log[i].item.key == k && w.log[i].armed.Some?
    && w.log[i].armed.value.generation == g
  }

  ghost function Deadline(w: World, g: nat): nat
    requires g in w.armedAt
  {
    var i := w.armedAt[g];
    if i < |w.log| && w.log[i].Observed? && w.log[i].armed.Some? then w.log[i].at + w.log[i].armed.value.after else 0
  }

  ghost predicate TimersAgree(w: World) {
    && (forall g :: g in w.armedAt ==> g <= w.nextGeneration)
    && (forall i :: 0 <= i < |w.log| && w.log[i].Observed? && w.log[i].armed.Some? ==>
          w.log[i].armed.value.generation in w.armedAt && w.armedAt[w.log[i].armed.value.generation] == i)
    && (forall g :: g in w.timers ==>
          g in w.armedAt && ArmedFor(w, g, w.timers[g].key) && w.timers[g].deadline == Deadline(w, g))
    && (forall r :: r in w.firing ==> Elapsed(w, r))
    && (forall i :: 0 <= i < |w.readyCh| ==> Elapsed(w, w.readyCh[i]))
  }

  ghost predicate PendingAgrees(w: World, k: string) {
    var pending := StateOf(w, k).pending;
    pending.Some? ==> pending.value.generation in w.armedAt && ArmedFor(w, pending.value.generation, k)
  }

  ghost predicate KeysAgree(w: World) {
    forall k :: KeyAgrees(w.log, k, StateOf(w, k), OpenerOf(w, k), WindowOf(w, k)) && PendingAgrees(w, k)
  }

  /** Entry `p` is a resolution justified by a full window, or an observation that
      resolves nothing its opener's policy should have delayed. */
  ghost predicate Safe(log: seq<Entry>, p: int)
    requires 0 <= p < |log|
  {
    if log[p].Resolved? then exists o, w :: Justified(log, p, o, w)
    else if log[p].published.Some? && log[p].published.value.state.OK? then
      forall o :: OpenSince(log[..p], log[p].item.key, o) ==> log[o].resolve.None?
    else true
  }

  ghost predicate LogSafe(log: seq<Entry>) {
    forall p :: 0 <= p < |log| ==> Safe(log, p)
  }

  ghost predicate Inv(w: World) {
    TimersAgree(w) && KeysAgree(w) && LogSafe(w.log)
  }

  lemma SafeAppend(log: seq<Entry>, e: Entry)
    requires LogSafe(log) && Safe(log + [e], |log|)
    ensures LogSafe(log + [e])
  {
    forall p | 0 <= p < |log| ensures Safe(log + [e], p) {
      assert Safe(log, p) && (log + [e])[..p] == log[..p];
      if log[p].Resolved? {
        var o, w :| Justified(log, p, o, w);
        assert Justified(log + [e], p, o, w);
      }
    }
  }

  lemma InitialInv()
    ensures Inv(INITIAL)
  {
  }

  /** The facts about armed generations survive a longer log. */
  lemma ArmedAppend(w: World, w': World, g: nat)
    requires g in w.armedAt && g in w'.armedAt && w'.armedAt[g] == w.armedAt[g]
    requires w.log <= w'.log && w.now <= w'.now && w.armedAt[g] < |w.log|
    ensures Deadline(w', g) == Deadline(w, g)
    ensures forall k :: ArmedFor(w', g, k) <==> ArmedFor(w, g, k)
  {
    assert w'.log[w.armedAt[g]] == w.log[w.armedAt[g]];
  }

  lemma TimersAppend(w: World, w': World, g: nat, k: string)
    requires TimersAgree(w) && w.log <= w'.log && w.now <= w'.now
    requires g in w.armedAt && ArmedFor(w, g, k) && g in w'.armedAt && w'.armedAt[g] == w.armedAt[g]
    ensures ArmedFor(w', g, k) && Deadline(w', g) == Deadline(w, g)
  {
    ArmedAppend(w, w', g);
  }

  lemma ReadyKeeps(w: World, r: Ready)
    requires Inv(w) && Elapsed(w, r)
    ensures Inv(HandleReady(w, r))
  {
    var ks := StateOf(w, r.key);
    if ks.pending.Some? && ks.pending.value.generation == r.generation {
      var w' := HandleReady(w, r);
      assert KeyAgrees(w.log, r.key, ks, OpenerOf(w, r.key), WindowOf(w, r.key)) && PendingAgrees(w, r.key);
      ResolvedKey(w, r);
      TimersKept(w, w');
      forall j ensures KeyAgrees(w'.log, j, StateOf(w', j), OpenerOf(w', j), WindowOf(w', j)) && PendingAgrees(w', j) {
        assert KeyAgrees(w.log, j, StateOf(w, j), OpenerOf(w, j), WindowOf(w, j)) && PendingAgrees(w, j);
        if j != r.key {
          UntouchedKey(w, w', Resolved(w.now, r.generation, ks.pending.value.item), j);
        }
      }
    }
  }

  /** Resolving is safe and leaves the key clear. */
  lemma ResolvedKey(w: World, r: Ready)
    requires LogSafe(w.log) && Elapsed(w, r)
    requires KeyAgrees(w.log, r.key, StateOf(w, r.key), OpenerOf(w, r.key), WindowOf(w, r.key))
    requires PendingAgrees(w, r.key)
    requires StateOf(w, r.key).pending.Some? && StateOf(w, r.key).pending.value.generation == r.generation
    ensures var w' := HandleReady(w, r);
            LogSafe(w'.log) && KeyAgrees(w'.log, r.key, CLEAR, None, None)
  {
    var ks := StateOf(w, r.key);
    ResolveJustified(w.log, r.key, ks, OpenerOf(w, r.key), WindowOf(w, r.key), w.now);
    var e := Resolved(w.now, r.generation, ks.pending.value.item);
    assert Safe(w.log + [e], |w.log|);
    SafeAppend(w.log, e);
  }

  /** A step that appends an entry about another key leaves `j` as it was. */
  lemma UntouchedKey(w: World, w': World, e: Entry, j: string)
    requires KeyAgrees(w.log, j, StateOf(w, j), OpenerOf(w, j), WindowOf(w, j)) && PendingAgrees(w, j)
    requires w'.log == w.log + [e] && e.item.key != j
    requires StateOf(w', j) == StateOf(w, j) && OpenerOf(w', j) == OpenerOf(w, j)
    requires forall g :: g in w.armedAt && ArmedFor(w, g, j) ==> g in w'.armedAt && w'.armedAt[g] == w.armedAt[g]
    ensures KeyAgrees(w'.log, j, StateOf(w', j), OpenerOf(w', j), WindowOf(w', j)) && PendingAgrees(w', j)
  {
    OtherKey(w.log, e, j, StateOf(w, j), OpenerOf(w, j), WindowOf(w, j));
  }

  /** The timers, callbacks and messages that remain still belong to old windows. */
  lemma TimersKept(w: World, w': World)
    requires TimersAgree(w) && w.log <= w'.log && w.now <= w'.now && w'.armedAt == w.armedAt
    requires forall i :: |w.log| <= i < |w'.log| ==> w'.log[i].Resolved?
    requires w'.nextGeneration == w.nextGeneration && w'.timers == w.timers && w'.firing == w.firing
    requires w'.readyCh == w.readyCh
    ensures TimersAgree(w')
  {
    forall g | g in w.timers ensures ArmedFor(w', g, w.timers[g].key) && Deadline(w', g) == Deadline(w, g) {
      TimersAppend(w, w', g, w.timers[g].key);
    }
    forall x | x in w.firing ensures Elapsed(w', x) {
      TimersAppend(w, w', x.generation, x.key);
    }
    forall i | 0 <= i < |w.readyCh| ensures Elapsed(w', w.readyCh[i]) {
      TimersAppend(w, w', w.readyCh[i].generation, w.readyCh[i].key);
    }
  }

  lemma ReadingKeeps(config: Config, w: World, unit: Unit, r: Reading)
    requires Inv(w) && w.phase.Handling?
    ensures Inv(HandleReading(config, w, unit, r))
  {
    var k, ks, w' := r.item.key, StateOf(w, r.item.key), HandleReading(config, w, unit, r);
    var out := Observe(config.format, ks, unit, r, w.nextGeneration + 1);
    var e := Entered(w.now, unit, r, out);
    assert KeyAgrees(w.log, k, ks, OpenerOf(w, k), WindowOf(w, k)) && PendingAgrees(w, k);
    ReadingTimers(config, w, unit, r);
    ReadingSafe(config, w, unit, r);
    forall j ensures KeyAgrees(w'.log, j, StateOf(w', j), OpenerOf(w', j), WindowOf(w', j)) && PendingAgrees(w', j) {
      assert KeyAgrees(w.log, j, StateOf(w, j), OpenerOf(w, j), WindowOf(w, j)) && PendingAgrees(w, j);
      ReadingKey(config, w, unit, r, j);
    }
  }

  lemma ReadingKey(config: Config, w: World, unit: Unit, r: Reading, j: string)
    requires TimersAgree(w) && w.phase.Handling?
    requires KeyAgrees(w.log, j, StateOf(w, j), OpenerOf(w, j), WindowOf(w, j)) && PendingAgrees(w, j)
    ensures var w' := HandleReading(config, w, unit, r);
            KeyAgrees(w'.log, j, StateOf(w', j), OpenerOf(w', j), WindowOf(w', j)) && PendingAgrees(w', j)
  {
    var w' := HandleReading(config, w, unit, r);
    if j == r.item.key {
      ReadKey(config, w, unit, r);
    } else {
      UntouchedKey(w, w', w'.log[|w.log|], j);
    }
  }

  lemma ReadKey(config: Config, w: World, unit: Unit, r: Reading)
    requires w.phase.Handling?
    requires var k := r.item.key;
             KeyAgrees(w.log, k, StateOf(w, k), OpenerOf(w, k), WindowOf(w, k)) && PendingAgrees(w, k)
    ensures var w', k := HandleReading(config, w, unit, r), r.item.key;
            KeyAgrees(w'.log, k, StateOf(w', k), OpenerOf(w', k), WindowOf(w', k)) && PendingAgrees(w', k)
  {
    var k, ks, w' := r.item.key, StateOf(w, r.item.key), HandleReading(config, w, unit, r);
    var out := Observe(config.format, ks, unit, r, w.nextGeneration + 1);
    ObserveAgrees(config.format, w.log, ks, unit, r, w.nextGeneration + 1, w.now, OpenerOf(w, k), WindowOf(w, k));
    assert StateOf(w', k) == out.next;
    assert OpenerOf(w', k) == OpenedAfter(ks, r, out, OpenerOf(w, k), |w.log|);
    assert out.next.pending.Some? ==> WindowOf(w', k) == WindowAfter(out, WindowOf(w, k), |w.log|);
  }

  lemma ReadingTimers(config: Config, w: World, unit: Unit, r: Reading)
    requires TimersAgree(w) && w.phase.Handling?
    ensures TimersAgree(HandleReading(config, w, unit, r))
  {
    var w' := HandleReading(config, w, unit, r);
    assert w.log <= w'.log;
    forall g | g in w'.timers && g in w.timers
      ensures g in w'.armedAt && ArmedFor(w', g, w'.timers[g].key) && w'.timers[g].deadline == Deadline(w', g) {
      TimersAppend(w, w', g, w.timers[g].key);
    }
    forall x | x in w'.firing ensures Elapsed(w', x) {
      TimersAppend(w, w', x.generation, x.key);
    }
    forall i | 0 <= i < |w'.readyCh| ensures Elapsed(w', w'.readyCh[i]) {
      TimersAppend(w, w', w.readyCh[i].generation, w.readyCh[i].key);
    }
  }

  lemma ReadingSafe(config: Config, w: World, unit: Unit, r: Reading)
    requires LogSafe(w.log) && w.phase.Handling?
    requires KeyAgrees(w.log, r.item.key, StateOf(w, r.item.key), OpenerOf(w, r.item.key), WindowOf(w, r.item.key))
    ensures LogSafe(HandleReading(config, w, unit, r).log)
  {
    var k, ks := r.item.key, StateOf(w, r.item.key);
    var out := Observe(config.format, ks, unit, r, w.nextGeneration + 1);
    var log' := w.log + [Entered(w.now, unit, r, out)];
    assert log'[..|w.log|] == w.log;
    if out.published.Some? && out.published.value.state.OK? {
      forall o | OpenSince(w.log, k, o) ensures log'[o].resolve.None? {
        NoEarlyRecovery(config.format, w.log, ks, unit, r, w.nextGeneration + 1, OpenerOf(w, k), WindowOf(w, k), o);
      }
    }
    SafeAppend(w.log, Entered(w.now, unit, r, out));
  }

  lemma TakeReadyKeeps(config: Config, w: World)
    requires Inv(w) && Enabled(config, w, TakeReady)
    ensures Inv(Step(config, w, TakeReady))
  {
    var w1 := w.(readyCh := w.readyCh[1..]);
    SameKeys(w, w1);
    TimerStep(w, w1);
    ReadyKeeps(w1, w.readyCh[0]);
  }

  lemma HandleUnitKeeps(config: Config, w: World)
    requires Inv(w) && Enabled(config, w, HandleUnit)
    ensures Inv(Step(config, w, HandleUnit))
  {
    var next, w1 := Read(config, w.phase.todo[0]), w.(phase := w.phase.(todo := w.phase.todo[1..]));
    SameKeys(w, w1);
    TimersKept(w, w1);
    if next.Some? {
      ReadingKeeps(config, w1, w.phase.todo[0], next.value);
    }
  }

  /** A timer fires, or its callback delivers or gives up. */
  lemma CallbackKeeps(config: Config, w: World, a: Action)
    requires TimersAgree(w) && (a.Fire? || a.Deliver? || a.Abandon?) && Enabled(config, w, a)
    ensures TimersAgree(Step(config, w, a))
  {
    TimerStep(w, Step(config, w, a));
  }

  lemma QuietKeeps(config: Config, w: World, a: Action)
    requires TimersAgree(w) && Enabled(config, w, a)
    requires !a.Fire? && !a.Deliver? && !a.Abandon? && !a.TakeReady? && !a.HandleUnit?
    ensures TimersAgree(Step(config, w, a))
  {
    TimersKept(w, Step(config, w, a));
  }

  /** Only the two steps that handle something touch the maps or the log. */
  lemma KeysUntouched(config: Config, w: World, a: Action)
    requires Enabled(config, w, a) && !a.TakeReady? && !a.HandleUnit?
    ensures var w' := Step(config, w, a);
            w'.keys == w.keys && w'.log == w.log && w'.openers == w.openers && w'.armedAt == w.armedAt
  {
  }

  /** Every step keeps the maps, the timers and the log in agreement. */
  lemma StepKeeps(config: Config, w: World, a: Action)
    requires Inv(w) && Enabled(config, w, a)
    ensures Inv(Step(config, w, a))
  {
    if a.TakeReady? {
      TakeReadyKeeps(config, w);
    } else if a.HandleUnit? {
      HandleUnitKeeps(config, w);
    } else {
      KeysUntouched(config, w, a);
      SameKeys(w, Step(config, w, a));
      if a.Fire? || a.Deliver? || a.Abandon? {
        CallbackKeeps(config, w, a);
      } else {
        QuietKeeps(config, w, a);
      }
    }
  }

  /** Firing, delivering and taking move a window along, never back. */
  lemma TimerStep(w: World, w': World)
    requires TimersAgree(w) && w'.log == w.log && w'.now == w.now && w'.armedAt == w.armedAt
    requires w'.nextGeneration == w.nextGeneration
    requires forall g :: g in w'.timers ==> g in w.timers && w'.timers[g] == w.timers[g]
    requires forall x :: x in w'.firing ==>
               || x in w.firing
               || (&& x.generation in w.timers && w.timers[x.generation].key == x.key
                   && w.timers[x.generation].deadline <= w.now)
    requires forall i :: 0 <= i < |w'.readyCh| ==> w'.readyCh[i] in w.firing || w'.readyCh[i] in w.readyCh
    ensures TimersAgree(w')
    ensures forall i :: 0 <= i < |w.readyCh| ==> Elapsed(w', w.readyCh[i])
  {
  }

  lemma SameKeys(w: World, w': World)
    requires KeysAgree(w) && LogSafe(w.log)
    requires w'.keys == w.keys && w'.log == w.log && w'.openers == w.openers && w'.armedAt == w.armedAt
    ensures KeysAgree(w') && LogSafe(w'.log)
  {
    forall k ensures KeyAgrees(w'.log, k, StateOf(w', k), OpenerOf(w', k), WindowOf(w', k)) && PendingAgrees(w', k) {
      assert KeyAgrees(w.log, k, StateOf(w, k), OpenerOf(w, k), WindowOf(w, k)) && PendingAgrees(w, k);
    }
  }

  // ---------- Whole runs ----------

  ghost predicate IsRun(config: Config, ws: seq<World>, actions: seq<Action>) {
    && |ws| == |actions| + 1 && ws[0] == INITIAL
    && forall i :: 0 <= i < |actions| ==>
         Enabled(config, ws[i], actions[i]) && ws[i + 1] == Step(config, ws[i], actions[i])
  }

  lemma {:induction false} RunInv(config: Config, ws: seq<World>, actions: seq<Action>, n: nat)
    requires IsRun(config, ws, actions) && n < |ws|
    ensures Inv(ws[n])
  {
    if n == 0 {
      InitialInv();
    } else {
      RunInv(config, ws, actions, n - 1);
      StepKeeps(config, ws[n - 1], actions[n - 1]);
    }
  }

  /** Delayed recovery is safe in every run: an OK item that ends an incident opened by
      a condition with a policy comes from the timer branch, after a window of that
      policy that no observation interrupted and that lasted at least `after`. */
  lemma DelayedRecoveryIsSafe(config: Config, ws: seq<World>, actions: seq<Action>, n: nat, p: nat, o: int)
    requires IsRun(config, ws, actions) && n < |ws| && p < |ws[n].log|
    requires var log := ws[n].log;
             && OpenSince(log[..p], log[p].item.key, o) && log[o].resolve.Some?
             && Published(log[p]).Some? && Published(log[p]).value.state.OK?
    ensures ws[n].log[p].Resolved? && exists w :: Justified(ws[n].log, p, o, w)
  {
    RunInv(config, ws, actions, n);
    var log := ws[n].log;
    assert Safe(log, p);
    if log[p].Resolved? {
      var o', w :| Justified(log, p, o', w);
      OpenSinceUnique(log[..p], log[p].item.key, o, o');
    }
  }

  /** The window whose generation resolved saw only observations that were OK and in a
      state that counts: an interrupted window never publishes, however late its timer
      message arrives. */
  lemma ResolvedWindowWasUninterrupted(config: Config, ws: seq<World>, actions: seq<Action>, n: nat, w: nat, i: nat,
                                       p: nat)
    requires IsRun(config, ws, actions) && n < |ws|
    requires w <= i < p < |ws[n].log|
    requires var log := ws[n].log;
             && log[w].Observed? && log[w].armed.Some? && log[p].Resolved?
             && log[p].generation == log[w].armed.value.generation
             && log[i].Observed? && log[i].item.key == log[w].item.key
    ensures var log := ws[n].log; log[i].item.state.OK? && log[p].item.key == log[w].item.key
    ensures exists o :: OpenSince(ws[n].log[..p], ws[n].log[w].item.key, o) && ws[n].log[o].resolve.Some?
                        && ws[n].log[i].unit.state in ws[n].log[o].resolve.value.states
  {
    RunInv(config, ws, actions, n);
    var log := ws[n].log;
    assert Safe(log, p);
    var o, w' :| Justified(log, p, o, w');
    assert log[w'].armed == Some(Armed(log[p].generation, log[o].resolve.value.after));
    assert w' == w;
    assert log[..p][i] == log[i];
  }

  /** A resolution is pending exactly for open incidents whose last observation was OK
      in a state of the opening policy. */
  lemma PendingExactly(config: Config, ws: seq<World>, actions: seq<Action>, n: nat, k: string)
    requires IsRun(config, ws, actions) && n < |ws|
    ensures var ks := StateOf(ws[n], k);
            ks.pending.Some? <==>
              && ks.incident.Some? && ks.incident.value.policy.Some? && ks.deferred.Some?
              && ks.deferred.value.state in ks.incident.value.policy.value.states
    ensures var ks, last := StateOf(ws[n], k), LastObserved(ws[n].log, k);
            ks.deferred.Some? ==>
              last.Some? && last.value.item.state.OK? && last.value.unit.state == ks.deferred.value.state
  {
    RunInv(config, ws, actions, n);
    assert KeyAgrees(ws[n].log, k, StateOf(ws[n], k), OpenerOf(ws[n], k), WindowOf(ws[n], k));
  }

  // ---------- No recovery is lost ----------

  /** The pending window of `k` still has its timer, its callback or its message. */
  ghost predicate Awake(w: World, k: string) {
    var pending := StateOf(w, k).pending;
    pending.Some? ==>
      var g := pending.value.generation;
      || (g in w.timers && w.timers[g].key == k)
      || Ready(k, g) in w.firing
      || Ready(k, g) in w.readyCh
  }

  ghost predicate AllAwake(w: World) {
    w.teardown || forall k :: Awake(w, k)
  }

  lemma StepStaysAwake(config: Config, w: World, a: Action)
    requires Inv(w) && AllAwake(w) && Enabled(config, w, a)
    ensures AllAwake(Step(config, w, a))
  {
    var w' := Step(config, w, a);
    if !w'.teardown {
      forall k ensures Awake(w', k) {
        assert Awake(w, k) && PendingAgrees(w, k);
        KeyStaysAwake(config, w, a, k);
      }
    }
  }

  lemma KeyStaysAwake(config: Config, w: World, a: Action, k: string)
    requires TimersAgree(w) && KeysAgree(w) && Enabled(config, w, a) && Awake(w, k) && PendingAgrees(w, k)
    requires !w.teardown && !Step(config, w, a).teardown
    ensures Awake(Step(config, w, a), k)
  {
    if a.HandleUnit? {
      UnitStaysAwake(config, w, k);
    } else if a.TakeReady? {
      ReadyStaysAwake(config, w, k);
    } else {
      KeysUntouched(config, w, a);
      WindowMovesOn(config, w, a, k);
    }
  }

  lemma UnitStaysAwake(config: Config, w: World, k: string)
    requires TimersAgree(w) && KeysAgree(w) && Enabled(config, w, HandleUnit) && Awake(w, k) && PendingAgrees(w, k)
    ensures Awake(Step(config, w, HandleUnit), k)
  {
    var next := Read(config, w.phase.todo[0]);
    if next.Some? {
      assert PendingAgrees(w, next.value.item.key);
      ReadingStaysAwake(config, w, k);
    }
  }

  /** A message that is taken resolves its own window or belongs to another one. */
  lemma ReadyStaysAwake(config: Config, w: World, k: string)
    requires Enabled(config, w, TakeReady) && Awake(w, k)
    ensures Awake(Step(config, w, TakeReady), k)
  {
    var r := w.readyCh[0];
    ReadyKeepsQueues(w.(readyCh := w.readyCh[1..]), r, k);
    assert w.readyCh == [r] + w.readyCh[1..];
  }

  lemma ReadyKeepsQueues(w: World, r: Ready, k: string)
    ensures var w' := HandleReady(w, r);
            && w'.timers == w.timers && w'.firing == w.firing && w'.readyCh == w.readyCh
            && (StateOf(w', k).pending == StateOf(w, k).pending || StateOf(w', k).pending.None?)
            && (StateOf(w, k).pending.Some? && r == Ready(k, StateOf(w, k).pending.value.generation) ==>
                  StateOf(w', k).pending.None?)
  {
  }

  /** A window goes from its timer to its callback to its message. */
  lemma WindowMovesOn(config: Config, w: World, a: Action, k: string)
    requires Enabled(config, w, a) && !a.HandleUnit? && !a.TakeReady? && Awake(w, k)
    requires !w.teardown && Step(config, w, a).keys == w.keys
    ensures Awake(Step(config, w, a), k)
  {
    assert StateOf(Step(config, w, a), k) == StateOf(w, k);
  }

  lemma ReadingStaysAwake(config: Config, w: World, k: string)
    requires TimersAgree(w) && w.phase.Handling? && w.phase.todo != [] && Read(config, w.phase.todo[0]).Some?
    requires Awake(w, k) && PendingAgrees(w, k) && PendingAgrees(w, Read(config, w.phase.todo[0]).value.item.key)
    ensures Awake(Step(config, w, HandleUnit), k)
  {
    var w', r := Step(config, w, HandleUnit), Read(config, w.phase.todo[0]).value;
    if k != r.item.key {
      assert StateOf(w', k) == StateOf(w, k);
    }
  }

  /** Until teardown, every pending recovery still has a way to be published. */
  lemma {:induction false} NoLostRecovery(config: Config, ws: seq<World>, actions: seq<Action>, n: nat)
    requires IsRun(config, ws, actions) && n < |ws|
    ensures AllAwake(ws[n])
  {
    if n > 0 {
      NoLostRecovery(config, ws, actions, n - 1);
      RunInv(config, ws, actions, n - 1);
      StepStaysAwake(config, ws[n - 1], actions[n - 1]);
    }
  }
}
