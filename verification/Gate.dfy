/** The readiness gate of the tunnel supervisor: a channel that is closed to release its
    waiters and replaced when a process generation ends. Gates are numbered in the order
    of their creation. Every access under the lock is one step, except that marking a
    generation ready holds the lock while its event is queued. */
module Gate {

  datatype GateEvent = Ready(generation: nat) | Failed

  /** The write lock: free, or held by `markReady` before or after it queued its event. */
  datatype Lock = Free | Announcing(generation: nat) | Announced(generation: nat)

  /** A caller of `WaitReady`: at the head of its loop, waiting on a gate, or back with
      the answer it got; a positive answer records the gate that was ready. */
  datatype Waiter = Looking | Waiting(gate: nat) | Admitted(gate: nat) | TurnedAway

  /** `closes` counts how often each gate was closed; the last one is the current gate.
      `callbacks` are calls of `markReady` on their way, with the gate they captured. */
  datatype World = World(
    closes: seq<nat>, ready: bool, lock: Lock, cancelled: bool, done: bool,
    callbacks: multiset<nat>, events: seq<GateEvent>, waiters: seq<Waiter>)

  datatype Action =
    | Probe(gate: nat) | BeginMark(gate: nat) | QueueReady | FinishMark
    | SetUnready | QueueFailed | Cancel | Finish
    | Arrive | Look(i: nat) | Wake(i: nat) | GiveUp(i: nat)

  const INITIAL := World([0], false, Free, false, false, multiset{}, [], [])

  function Current(w: World): int {
    |w.closes| - 1
  }

  predicate IsClosed(w: World, g: nat) {
    g < |w.closes| && w.closes[g] > 0
  }

  predicate Enabled(w: World, a: Action) {
    match a
    // The output of any generation started so far, however late.
    case Probe(g) => g < |w.closes|
    case BeginMark(g) => w.lock.Free? && g in w.callbacks
    case QueueReady => w.lock.Announcing?
    case FinishMark => w.lock.Announced? && w.lock.generation < |w.closes|
    case SetUnready => w.lock.Free? && !w.done && w.closes != []
    case QueueFailed => !w.done
    case Cancel => true
    case Finish => w.cancelled
    case Arrive => true
    case Look(i) => i < |w.waiters| && w.waiters[i].Looking? && w.lock.Free? && w.closes != []
    case Wake(i) => i < |w.waiters| && w.waiters[i].Waiting? && IsClosed(w, w.waiters[i].gate)
    case GiveUp(i) => i < |w.waiters| && w.waiters[i].Waiting?
  }

  function Step(w: World, a: Action): World
    requires Enabled(w, a)
  {
    match a
    case Probe(g) => w.(callbacks := w.callbacks + multiset{g})
    case BeginMark(g) =>
      w.(callbacks := w.callbacks - multiset{g}, lock := if g != Current(w) || w.ready then Free else Announcing(g))
    // Once cancelled, `emit` may drop the event; dropping is the step without it.
    case QueueReady => w.(events := w.events + [Ready(w.lock.generation)], lock := Announced(w.lock.generation))
    case FinishMark =>
      if w.cancelled then w.(lock := Free)
      else w.(ready := true, closes := w.closes[w.lock.generation := w.closes[w.lock.generation] + 1], lock := Free)
    case SetUnready =>
      var closed := if w.ready then w.closes else w.closes[Current(w) := w.closes[Current(w)] + 1];
      w.(closes := closed + [0], ready := false)
    case QueueFailed => w.(events := w.events + [Failed])
    case Cancel => w.(cancelled := true)
    case Finish => w.(done := true)
    case Arrive => w.(waiters := w.waiters + [Looking])
    case Look(i) => w.(waiters := w.waiters[i := if w.ready then Admitted(Current(w)) else Waiting(Current(w))])
    case Wake(i) => w.(waiters := w.waiters[i := Looking])
    case GiveUp(i) => w.(waiters := w.waiters[i := TurnedAway])
  }

  /** The step in which a cancelled `emit` drops the event. */
  function Dropped(w: World): World
    requires w.lock.Announcing? && w.cancelled
  {
    w.(lock := Announced(w.lock.generation))
  }

  ghost predicate IsStep(w: World, w': World) {
    || (exists a :: Enabled(w, a) && w' == Step(w, a))
    || (w.lock.Announcing? && w.cancelled && w' == Dropped(w))
  }

  ghost predicate IsRun(run: seq<World>) {
    run != [] && run[0] == INITIAL && forall k :: 0 <= k < |run| - 1 ==> IsStep(run[k], run[k + 1])
  }

  // ---------------------------------------------------------------- invariant

  ghost predicate GatesOK(w: World) {
    && w.closes != []
    && w.closes[Current(w)] == (if w.ready then 1 else 0)
    && (forall g :: 0 <= g < Current(w) ==> w.closes[g] == 1)
    && (!w.lock.Free? ==> w.lock.generation == Current(w) && !w.ready)
  }

  ghost predicate EventsOK(w: World)
    requires w.closes != []
  {
    && (w.ready ==> Ready(Current(w)) in w.events)
    && (w.lock.Announced? && !w.cancelled ==> Ready(w.lock.generation) in w.events)
    && (forall g: nat :: Ready(g) in w.events ==> g <= Current(w))
    && (!w.cancelled && Ready(Current(w)) in w.events ==> w.ready || w.lock.Announced?)
    && (!w.cancelled ==> forall i, j :: 0 <= i < j < |w.events| && w.events[i].Ready? ==> w.events[i] != w.events[j])
  }

  ghost predicate WaitersOK(w: World) {
    && (forall i :: 0 <= i < |w.waiters| && w.waiters[i].Waiting? ==> w.waiters[i].gate <= Current(w))
    && (forall i :: 0 <= i < |w.waiters| && w.waiters[i].Admitted? ==> Ready(w.waiters[i].gate) in w.events)
  }

  ghost predicate Inv(w: World) {
    GatesOK(w) && EventsOK(w) && WaitersOK(w)
  }

  lemma GatesKept(w: World, a: Action)
    requires GatesOK(w) && Enabled(w, a)
    ensures GatesOK(Step(w, a))
  {
  }

  lemma EventsKept(w: World, a: Action)
    requires GatesOK(w) && EventsOK(w) && Enabled(w, a)
    ensures Step(w, a).closes != [] && EventsOK(Step(w, a))
  {
    if a.QueueReady? || a.QueueFailed? {
      assert forall e :: e in w.events ==> e in Step(w, a).events;
    }
  }

  lemma WaitersKept(w: World, a: Action)
    requires Inv(w) && Enabled(w, a)
    ensures WaitersOK(Step(w, a))
  {
    assert forall e :: e in w.events ==> e in Step(w, a).events;
  }

  lemma StepKeeps(w: World, w': World)
    requires Inv(w) && IsStep(w, w')
    ensures Inv(w')
  {
    if a :| Enabled(w, a) && w' == Step(w, a) {
      GatesKept(w, a);
      EventsKept(w, a);
      WaitersKept(w, a);
    }
  }

  lemma {:induction false} RunKeeps(run: seq<World>, k: nat)
    requires IsRun(run) && k < |run|
    ensures Inv(run[k])
  {
    if k > 0 {
      RunKeeps(run, k - 1);
      StepKeeps(run[k - 1], run[k]);
    }
  }

  // ---------------------------------------------------------------- theorems

  /** In every interleaving: the current gate is closed exactly while ready, every
      superseded gate was closed, and none was closed twice. */
  lemma GatesCloseOnce(run: seq<World>, k: nat)
    requires IsRun(run) && k < |run|
    ensures var w := run[k];
            && w.closes != []
            && (w.ready <==> w.closes[Current(w)] == 1)
            && (forall g :: 0 <= g < |w.closes| ==> w.closes[g] <= 1)
            && (forall g :: 0 <= g < Current(w) ==> w.closes[g] == 1)
  {
    RunKeeps(run, k);
  }

  /** Nobody is stuck on a superseded gate, nor on the current one once it is ready. */
  lemma NoWaiterIsStuck(run: seq<World>, k: nat, i: nat)
    requires IsRun(run) && k < |run| && i < |run[k].waiters| && run[k].waiters[i].Waiting?
    ensures Enabled(run[k], Wake(i)) <==> run[k].waiters[i].gate < Current(run[k]) || run[k].ready
  {
    RunKeeps(run, k);
  }

  /** Only the callback of the current generation, holding the lock, sets `ready`; one that
      captured an older gate never does. */
  lemma ReadyComesFromCurrent(run: seq<World>, k: nat)
    requires IsRun(run) && k + 1 < |run| && !run[k].ready && run[k + 1].ready
    ensures run[k].lock == Announced(Current(run[k])) && !run[k].cancelled
    ensures Current(run[k + 1]) == Current(run[k]) && Ready(Current(run[k])) in run[k].events
  {
    RunKeeps(run, k);
    assert IsStep(run[k], run[k + 1]);
  }

  /** Whoever was admitted was admitted after the event of that generation was queued;
      and until cancellation each generation is announced once at most. */
  lemma ReadyIsQueuedFirst(run: seq<World>, k: nat, i: nat)
    requires IsRun(run) && k < |run| && i < |run[k].waiters| && run[k].waiters[i].Admitted?
    ensures Ready(run[k].waiters[i].gate) in run[k].events
    ensures !run[k].cancelled ==>
              forall m, n :: 0 <= m < n < |run[k].events| && run[k].events[m].Ready? ==>
                run[k].events[m] != run[k].events[n]
  {
    RunKeeps(run, k);
  }

  // ---------------------------------------------------------------- calls as steps

  /** What a call of `markReady` meets: whether it is cancelled by the time its event is
      sent and by the time it checks, and whether a cancelled send still queued it. */
  datatype Circumstances = Circumstances(cancelledAtEmit: bool, cancelledAtCheck: bool, queued: bool)

  /** Cancellation is for good, and only a cancelled send drops its event. */
  predicate Consistent(w: World, c: Circumstances) {
    && (w.cancelled ==> c.cancelledAtEmit) && (c.cancelledAtEmit ==> c.cancelledAtCheck)
    && (!c.cancelledAtEmit ==> c.queued)
  }

  function CancelledIf(w: World, cancelled: bool): World {
    if cancelled then Step(w, Cancel) else w
  }

  /** An uninterrupted call of `markReady` for gate `g`: the machine's steps in a row, with
      cancellation coming where the circumstances have it. */
  function Marking(w: World, g: nat, c: Circumstances): World
    requires Enabled(w, BeginMark(g)) && Consistent(w, c) && g < |w.closes|
  {
    var begun := Step(w, BeginMark(g));
    if begun.lock.Free? then begun
    else
      var sending := CancelledIf(begun, c.cancelledAtEmit);
      var sent := if c.queued then Step(sending, QueueReady) else Dropped(sending);
      Step(CancelledIf(sent, c.cancelledAtCheck), FinishMark)
  }

  /** The first call of the current generation. */
  lemma MarkingFirst(w: World, g: nat, c: Circumstances)
    requires Enabled(w, BeginMark(g)) && Consistent(w, c) && g == Current(w) && !w.ready
    ensures var w' := Marking(w, g, c);
            && w'.lock.Free? && w'.done == w.done && w'.waiters == w.waiters && w'.ready == !c.cancelledAtCheck
            && w'.events == (if c.queued then w.events + [Ready(g)] else w.events)
            && w'.closes == if c.cancelledAtCheck then w.closes else w.closes[g := w.closes[g] + 1]
  {
  }

  /** What such a call does to the gate. */
  lemma MarkingFields(w: World, g: nat, c: Circumstances)
    requires Enabled(w, BeginMark(g)) && Consistent(w, c) && g < |w.closes|
    ensures var w', first := Marking(w, g, c), g == Current(w) && !w.ready;
            && w'.lock.Free? && w'.done == w.done && w'.waiters == w.waiters
            && w'.ready == (w.ready || (first && !c.cancelledAtCheck))
            && w'.events == (if first && c.queued then w.events + [Ready(g)] else w.events)
            && w'.closes == if first && !c.cancelledAtCheck then w.closes[g := w.closes[g] + 1] else w.closes
  {
    if g == Current(w) && !w.ready {
      MarkingFirst(w, g, c);
    }
  }

  // ---------------------------------------------------------------- the gate in place

  /** A channel that may be closed once; `number` is its place in the order of creation. */
  class Channel {
    ghost const number: nat
    var closed: bool

    constructor (ghost number: nat)
      ensures !closed && this.number == number
    {
      this.number := number;
      closed := false;
    }

    /** Closing twice would panic. */
    method Close()
      requires !closed
      modifies this`closed
      ensures closed
    {
      closed := true;
    }
  }

  class TunnelSupervisor {
    var ready: bool
    var readyCh: Channel
    var events: seq<GateEvent>
    /** Numbers the gates, for the events; the program tells them apart by identity. */
    var generation: nat
    /** Every gate made so far. */
    ghost var gates: seq<Channel>

    constructor ()
      ensures Mirrors(INITIAL) && fresh(readyCh)
    {
      ready, events, generation := false, [], 0;
      var gate := new Channel(0);
      readyCh, gates := gate, [gate];
    }

    /** The current gate is the last one made and is closed exactly while ready. */
    ghost predicate Valid()
      reads this, gates
    {
      && |gates| == generation + 1 && readyCh == gates[generation]
      && (forall i :: 0 <= i < |gates| ==> gates[i].number == i)
      && (ready <==> readyCh.closed)
    }

    /** The objects are in the state `w` of the machine, nobody holding the lock. */
    ghost predicate Mirrors(w: World)
      reads this, gates
    {
      && Valid() && w.lock.Free? && w.ready == ready && w.events == events && |w.closes| == |gates|
      && (forall i :: 0 <= i < |gates| ==> w.closes[i] == if gates[i].closed then 1 else 0)
    }

    /** A signal of the current generation, the first one, announces and then opens; any
        other does nothing. Cancellation keeps the gate shut: when it comes before the
        event is queued, the event may be queued or dropped. */
    method MarkReady(generationReady: Channel, cancelledAtEmit: bool, cancelledAtCheck: bool, ghost w: World)
      returns (queued: bool)
      requires Mirrors(w) && (w.cancelled ==> cancelledAtEmit) && (cancelledAtEmit ==> cancelledAtCheck)
      requires generationReady in gates && generationReady.number in w.callbacks
      modifies this`ready, this`events, readyCh`closed
      ensures !cancelledAtEmit ==> queued
      ensures Mirrors(Marking(w, generationReady.number, Circumstances(cancelledAtEmit, cancelledAtCheck, queued)))
      ensures readyCh == old(readyCh) && gates == old(gates)
      ensures ready == (old(ready) || (readyCh == generationReady && !cancelledAtCheck))
      ensures events == if readyCh == generationReady && !old(ready) && queued then old(events) + [Ready(generation)]
                        else old(events)
    {
      queued := *;
      queued := queued || !cancelledAtEmit;
      MarkingFields(w, generationReady.number, Circumstances(cancelledAtEmit, cancelledAtCheck, queued));
      if readyCh != generationReady || ready {
        return;
      }
      if queued {
        events := events + [Ready(generation)];
      }
      if cancelledAtCheck {
        return;
      }
      ready := true;
      readyCh.Close();
    }

    /** The old gate is left closed, and the new one is open. */
    method SetUnready(ghost w: World)
      requires Mirrors(w)
      modifies this, readyCh`closed
      ensures Enabled(w, Action.SetUnready) ==> Mirrors(Step(w, Action.SetUnready))
      ensures Valid() && !ready && fresh(readyCh) && old(readyCh).closed && events == old(events)
      ensures gates == old(gates) + [readyCh]
    {
      if !ready {
        readyCh.Close();
      }
      var gate := new Channel(generation + 1);
      readyCh, gates := gate, gates + [gate];
      ready, generation := false, generation + 1;
    }
  }
}
