/** The supervisor of a tunneled server and the connection loop it owns, as generators of
    the events that reach the reducer. Which branch a `select!` takes is the
    environment's choice, so a run covers every race between the tunnel process, the
    socket and shutdown. */
module Supervisor {
  import opened Items
  import opened Domain

  /** The connection task: not started, dialing, reading frames, or finished. */
  datatype Connection = Absent | Dialing | Online | Finished

  /** The supervisor: at the head of its loop, waiting for readiness, watching process
      and connection, or waiting for the connection task it told to stop. */
  datatype Phase = Starting | BeforeReady | WhileReady | Stopping(failed: bool) | Ended

  datatype World = World(phase: Phase, connection: Connection, emitted: seq<Event>)

  datatype Action =
    | Spawned
    | SpawnFailed(at: Instant, details: string)
    | ExitedBeforeReady(at: Instant, details: string)
    | BecameReady(at: Instant)
    | ShutDown
    | ProcessExited
    | ClientStopped
    | ReportExit(at: Instant, details: string)
    | SetupFailed(at: Instant, error: string)
    | DialFailed(at: Instant, error: string)
    | Opened(at: Instant)
    | BeatReceived(at: Instant)
    | MessageReceived(data: NotificationData, at: Instant)
    | ConnectionLost(at: Instant, error: string)
    | ConnectionStops

  const INITIAL := World(Starting, Absent, [])

  predicate Enabled(w: World, a: Action) {
    match a
    case Spawned => w.phase.Starting?
    case SpawnFailed(_, _) => w.phase.Starting?
    case ExitedBeforeReady(_, _) => w.phase.BeforeReady?
    case BecameReady(_) => w.phase.BeforeReady?
    case ShutDown => !w.phase.Stopping? && !w.phase.Ended?
    case ProcessExited => w.phase.WhileReady?
    case ClientStopped => w.phase.WhileReady? && w.connection.Finished?
    case ReportExit(_, _) => w.phase.Stopping? && w.phase.failed && w.connection.Finished?
    case SetupFailed(_, _) => w.connection.Dialing?
    case DialFailed(_, _) => w.connection.Dialing?
    case Opened(_) => w.connection.Dialing?
    case BeatReceived(_) => w.connection.Online?
    case MessageReceived(_, _) => w.connection.Online?
    case ConnectionLost(_, _) => w.connection.Online?
    // The stop signal ends the task silently, also in place of a disconnection report.
    case ConnectionStops => w.phase.Stopping? && (w.connection.Dialing? || w.connection.Online?)
  }

  function Emit(w: World, e: Event): World {
    w.(emitted := w.emitted + [e])
  }

  function Step(id: string, w: World, a: Action): World
    requires Enabled(w, a)
  {
    match a
    case Spawned => w.(phase := BeforeReady)
    case SpawnFailed(at, details) => Emit(w, TunnelFailed(id, at, details))
    case ExitedBeforeReady(at, details) => Emit(w, TunnelFailed(id, at, details)).(phase := Starting)
    case BecameReady(at) => Emit(w, TunnelReady(id, at)).(phase := WhileReady, connection := Dialing)
    case ShutDown => w.(phase := if w.phase.WhileReady? then Stopping(false) else Ended)
    case ProcessExited => w.(phase := Stopping(true))
    case ClientStopped => w.(phase := Ended)
    case ReportExit(at, details) => Emit(w, TunnelFailed(id, at, details)).(phase := Starting, connection := Absent)
    case SetupFailed(at, error) => Emit(w, Disconnected(id, at, error)).(connection := Finished)
    case DialFailed(at, error) => Emit(w, Disconnected(id, at, error))
    case Opened(at) => Emit(w, Connected(id, at)).(connection := Online)
    case BeatReceived(at) => Emit(w, Heartbeat(id, at))
    case MessageReceived(data, at) => Emit(w, Notification(id, data, at))
    case ConnectionLost(at, error) => Emit(w, Disconnected(id, at, error)).(connection := Dialing)
    case ConnectionStops => w.(connection := Finished)
  }

  ghost predicate IsRun(id: string, run: seq<World>, actions: seq<Action>) {
    && |run| == |actions| + 1 && run[0] == INITIAL
    && forall k :: 0 <= k < |actions| ==> Enabled(run[k], actions[k]) && run[k + 1] == Step(id, run[k], actions[k])
  }

  // ---------------------------------------------------------------- the language

  /** What a reader of the emissions knows: the tunnel is down, up, or carries an open
      socket. */
  datatype Link = Down | Up | Open

  /** The automaton of the emissions; `None` rejects. */
  function Reads(q: Link, e: Event): Option<Link> {
    match e
    case TunnelFailed(_, _, _) => Some(Down)
    case TunnelReady(_, _) => if q.Down? then Some(Up) else None
    case Disconnected(_, _, _) => if q.Down? then None else Some(Up)
    case Connected(_, _) => if q.Up? then Some(Open) else None
    case Heartbeat(_, _) => if q.Open? then Some(Open) else None
    case Notification(_, _, _) => if q.Open? then Some(Open) else None
    case _ => None
  }

  function ReadsAll(events: seq<Event>): Option<Link> {
    if events == [] then Some(Down)
    else
      var q := ReadsAll(events[..|events| - 1]);
      if q.None? then None else Reads(q.value, events[|events| - 1])
  }

  /** The link state that a world's emissions have reached. */
  ghost predicate InStep(w: World) {
    var q := ReadsAll(w.emitted);
    && q.Some?
    && (w.phase.Starting? || w.phase.BeforeReady? ==> q.value.Down? && w.connection.Absent?)
    && (w.phase.WhileReady? || w.phase.Stopping? ==> !q.value.Down? && !w.connection.Absent?)
    && (w.connection.Dialing? ==> q.value.Up?)
    && (w.connection.Online? ==> q.value.Open?)
    && (w.phase.Ended? ==> w.connection.Absent? || w.connection.Finished?)
  }

  lemma EmitReads(w: World, e: Event)
    ensures ReadsAll(Emit(w, e).emitted)
         == if ReadsAll(w.emitted).None? then None else Reads(ReadsAll(w.emitted).value, e)
  {
    assert (w.emitted + [e])[..|w.emitted|] == w.emitted;
  }

  lemma StepReads(id: string, w: World, a: Action)
    requires Enabled(w, a) && InStep(w)
    ensures InStep(Step(id, w, a))
  {
    match a
    case SpawnFailed(at, details) => EmitReads(w, TunnelFailed(id, at, details));
    case ExitedBeforeReady(at, details) => EmitReads(w, TunnelFailed(id, at, details));
    case BecameReady(at) => EmitReads(w, TunnelReady(id, at));
    case ReportExit(at, details) => EmitReads(w, TunnelFailed(id, at, details));
    case SetupFailed(at, error) => EmitReads(w, Disconnected(id, at, error));
    case DialFailed(at, error) => EmitReads(w, Disconnected(id, at, error));
    case Opened(at) => EmitReads(w, Connected(id, at));
    case BeatReceived(at) => EmitReads(w, Heartbeat(id, at));
    case MessageReceived(data, at) => EmitReads(w, Notification(id, data, at));
    case ConnectionLost(at, error) => EmitReads(w, Disconnected(id, at, error));
    case _ =>
  }

  /** Every run emits a word of the language. */
  lemma {:induction false} EmissionsAreWords(id: string, run: seq<World>, actions: seq<Action>, k: nat)
    requires IsRun(id, run, actions) && k < |run|
    ensures InStep(run[k])
  {
    if k > 0 {
      EmissionsAreWords(id, run, actions, k - 1);
      StepReads(id, run[k - 1], actions[k - 1]);
    }
  }

  /** The world in which nothing is about to happen. */
  function Rest(q: Link, emitted: seq<Event>): World {
    match q
    case Down => World(Starting, Absent, emitted)
    case Up => World(WhileReady, Dialing, emitted)
    case Open => World(WhileReady, Online, emitted)
  }

  /** The actions that emit `e` and come to rest again. */
  function Emitting(q: Link, e: Event): seq<Action>
    requires Reads(q, e).Some?
  {
    match e
    case TunnelFailed(_, at, error) =>
      if q.Down? then [SpawnFailed(at, error)] else [ProcessExited, ConnectionStops, ReportExit(at, error)]
    case TunnelReady(_, at) => [Spawned, BecameReady(at)]
    case Disconnected(_, at, error) => if q.Up? then [DialFailed(at, error)] else [ConnectionLost(at, error)]
    case Connected(_, at) => [Opened(at)]
    case Heartbeat(_, at) => [BeatReceived(at)]
    case Notification(_, data, at) => [MessageReceived(data, at)]
  }

  /** `w` after one action after the other. */
  ghost predicate Leads(id: string, w: World, actions: seq<Action>, w': World)
    decreases |actions|
  {
    if actions == [] then w == w' else Enabled(w, actions[0]) && Leads(id, Step(id, w, actions[0]), actions[1..], w')
  }

  lemma EmittingLeads(id: string, q: Link, emitted: seq<Event>, e: Event)
    requires Reads(q, e).Some? && e.serverId == id
    ensures Leads(id, Rest(q, emitted), Emitting(q, e), Rest(Reads(q, e).value, emitted + [e]))
  {
    var actions := Emitting(q, e);
    var w1 := Step(id, Rest(q, emitted), actions[0]);
    if |actions| == 1 {
      assert actions[1..] == [];
    } else {
      assert actions[1..][0] == actions[1];
      var w2 := Step(id, w1, actions[1]);
      if |actions| == 2 {
        assert actions[1..][1..] == [];
      } else {
        assert actions[1..][1..][0] == actions[2] && actions[1..][1..][1..] == [];
        var w3 := Step(id, w2, actions[2]);
        assert Leads(id, w3, [], w3);
        assert Leads(id, w2, actions[1..][1..], w3);
      }
    }
  }

  lemma {:induction false} LeadsRun(id: string, run: seq<World>, actions: seq<Action>, more: seq<Action>, w': World)
    returns (run': seq<World>)
    requires IsRun(id, run, actions) && Leads(id, run[|run| - 1], more, w')
    ensures IsRun(id, run', actions + more) && run'[|run'| - 1] == w'
    decreases |more|
  {
    if more == [] {
      run' := run;
      assert actions + more == actions;
    } else {
      var next := Step(id, run[|run| - 1], more[0]);
      run' := LeadsRun(id, run + [next], actions + [more[0]], more[1..], w');
      assert actions + [more[0]] + more[1..] == actions + more;
    }
  }

  /** And every word of the language is emitted by some run, so the automaton describes
      the supervisor exactly. */
  lemma {:induction false} WordsAreEmitted(id: string, word: seq<Event>) returns (run: seq<World>, actions: seq<Action>)
    requires ReadsAll(word).Some? && forall i :: 0 <= i < |word| ==> IsNetwork(word[i], id)
    ensures IsRun(id, run, actions) && run[|run| - 1] == Rest(ReadsAll(word).value, word)
  {
    if word == [] {
      run, actions := [INITIAL], [];
    } else {
      var front, e := word[..|word| - 1], word[|word| - 1];
      run, actions := WordsAreEmitted(id, front);
      var q := ReadsAll(front).value;
      EmittingLeads(id, q, front, e);
      assert front + [e] == word;
      run := LeadsRun(id, run, actions, Emitting(q, e), Rest(ReadsAll(word).value, word));
      actions := actions + Emitting(q, e);
    }
  }

  // ---------------------------------------------------------------- what the reducer makes of a word

  /** The events of a history that the network side of server `id` produced. */
  predicate IsNetwork(e: Event, id: string) {
    && (e.Connected? || e.Disconnected? || e.TunnelReady? || e.TunnelFailed? || e.Heartbeat? || e.Notification?)
    && e.serverId == id
  }

  function NetworkOf(h: seq<Event>, id: string): seq<Event> {
    if h == [] then []
    else NetworkOf(h[..|h| - 1], id) + if IsNetwork(h[|h| - 1], id) then [h[|h| - 1]] else []
  }

  /** What the reducer must hold for a server whose emissions have reached `q`. */
  predicate Consistent(s: AppState, id: string, q: Link)
    requires id in s.servers
  {
    var tunnel, connection := TunnelKey(id) in s.internalIncidents, ConnectionKey(id) in s.internalIncidents;
    match q
    case Down => !connection && !s.servers[id].connected
    case Up => !tunnel && !s.servers[id].connected
    case Open => !tunnel && !connection
  }

  lemma ReducerFollows(format: Instant -> string, s: AppState, id: string, q: Link, e: Event)
    requires id in s.servers && Consistent(s, id, q) && IsNetwork(e, id) && Reads(q, e).Some?
    ensures id in Next(format, s, e).servers && Consistent(Next(format, s, e), id, Reads(q, e).value)
  {
    InternalKeysDiffer(id, id);
  }

  lemma KeysIdentify(a: string, b: string)
    ensures ConnectionKey(a) == ConnectionKey(b) ==> a == b
    ensures TunnelKey(a) == TunnelKey(b) ==> a == b
  {
    assert ConnectionKey(a)[|"internal.connection."|..] == a && ConnectionKey(b)[|"internal.connection."|..] == b;
    assert TunnelKey(a)[|"internal.tunnel."|..] == a && TunnelKey(b)[|"internal.tunnel."|..] == b;
  }

  /** Nothing else that the client handles disturbs a server's cards or status. */
  lemma ReducerIgnores(format: Instant -> string, s: AppState, id: string, q: Link, e: Event)
    requires id in s.servers && Consistent(s, id, q) && !IsNetwork(e, id)
    ensures id in Next(format, s, e).servers && Consistent(Next(format, s, e), id, q)
  {
    if e.Connected? || e.Disconnected? || e.TunnelReady? || e.TunnelFailed? {
      KeysIdentify(id, e.serverId);
      InternalKeysDiffer(id, e.serverId);
      InternalKeysDiffer(e.serverId, id);
    }
  }

  lemma {:induction false} HistoryConsistent(format: Instant -> string, ids: seq<string>, snoozed: map<string, Instant>,
                                             h: seq<Event>, id: string)
    requires id in ids && ReadsAll(NetworkOf(h, id)).Some?
    ensures var s := After(format, Fresh(ids, snoozed), h);
            id in s.servers && Consistent(s, id, ReadsAll(NetworkOf(h, id)).value)
  {
    if h != [] {
      var front, e := h[..|h| - 1], h[|h| - 1];
      var word := NetworkOf(front, id);
      if IsNetwork(e, id) {
        assert (word + [e])[..|word|] == word;
      } else {
        assert NetworkOf(h, id) == word;
      }
      HistoryConsistent(format, ids, snoozed, front, id);
      var s := After(format, Fresh(ids, snoozed), front);
      if IsNetwork(e, id) {
        ReducerFollows(format, s, id, ReadsAll(word).value, e);
      } else {
        ReducerIgnores(format, s, id, ReadsAll(word).value, e);
      }
    }
  }

  lemma {:induction false} PrefixReads(events: seq<Event>, n: nat)
    requires n <= |events| && ReadsAll(events).Some?
    ensures ReadsAll(events[..n]).Some?
  {
    if n < |events| {
      PrefixReads(events[..|events| - 1], n);
      assert events[..|events| - 1][..n] == events[..n];
    } else {
      assert events[..n] == events;
    }
  }

  /** Whatever else the client receives in between, and however much of a supervisor's
      emissions has reached it: a tunneled server never shows both failures, and none
      while it is connected. */
  lemma RootCauseIsExclusive(format: Instant -> string, ids: seq<string>, snoozed: map<string, Instant>, h: seq<Event>,
                             id: string, run: seq<World>, actions: seq<Action>, k: nat)
    requires id in ids && IsRun(id, run, actions) && k < |run|
    requires NetworkOf(h, id) <= run[k].emitted
    ensures var s := After(format, Fresh(ids, snoozed), h);
            && !(TunnelKey(id) in s.internalIncidents && ConnectionKey(id) in s.internalIncidents)
            && id in s.servers
            && (s.servers[id].connected ==>
                  TunnelKey(id) !in s.internalIncidents && ConnectionKey(id) !in s.internalIncidents)
  {
    EmissionsAreWords(id, run, actions, k);
    var n := |NetworkOf(h, id)|;
    PrefixReads(run[k].emitted, n);
    assert NetworkOf(h, id) == run[k].emitted[..n];
    HistoryConsistent(format, ids, snoozed, h, id);
  }
}
