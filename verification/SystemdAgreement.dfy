/** The systemd collector, the core's update channel and the tracker together: once
    everything sent is consumed, the tracker shows exactly the collector's incidents. */
module SystemdAgreement {
  import opened Items
  import opened Sequences
  import opened SystemdRules
  import opened SystemdRecovery
  import opened SystemdRuns
  import TrackerSpec

  const UPDATE_QUEUE := 16

  datatype Pipeline = Pipeline(w: World, updCh: seq<Update>, tracker: TrackerSpec.State)

  /** A step of this collector, a send by another one, or the core taking an update. */
  datatype Move = Collect(action: Action) | OtherSends(update: Update) | CoreTakes(stamps: map<string, nat>)

  /** Keys are prefixed with the collector's identifier and a dot. */
  predicate Mine(config: Config, k: string) {
    HasPrefix(k, config.id + ".")
  }

  predicate CanMove(config: Config, s: Pipeline, m: Move) {
    match m
    case Collect(a) => Enabled(config, s.w, a) && (a.Send? ==> |s.updCh| < UPDATE_QUEUE)
    case OtherSends(u) => |s.updCh| < UPDATE_QUEUE && (u.Update? ==> forall k :: k in u.items ==> !Mine(config, k))
    case CoreTakes(_) => s.updCh != []
  }

  function Moved(config: Config, s: Pipeline, m: Move): Pipeline
    requires CanMove(config, s, m)
  {
    match m
    case Collect(a) =>
      Pipeline(Step(config, s.w, a), if a.Send? then s.updCh + [s.w.phase.update] else s.updCh, s.tracker)
    case OtherSends(u) => s.(updCh := s.updCh + [u])
    case CoreTakes(stamps) => s.(updCh := s.updCh[1..], tracker := Consume(s.tracker, s.updCh[0], stamps))
  }

  /** The core logs a failed update and feeds any other to the tracker. */
  function Consume(t: TrackerSpec.State, u: Update, stamps: map<string, nat>): TrackerSpec.State {
    if u.Failure? then t else TrackerSpec.Feed(t, TrackerSpec.FeedCall(u.items, stamps))
  }

  /** The severity the tracker shows for `k`. */
  function Listed(t: TrackerSpec.State, k: string): Option<ItemState> {
    if k in t.notOK then Some(t.notOK[k].item.state) else None
  }

  /** The severity it will show once `updates` are consumed. */
  function Expected(t: TrackerSpec.State, updates: seq<Update>, k: string): Option<ItemState> {
    if updates == [] then Listed(t, k)
    else
      var u := updates[|updates| - 1];
      if u.Update? && k in u.items then Shown(u.items[k]) else Expected(t, updates[..|updates| - 1], k)
  }

  /** The update the loop is building or about to send. */
  function Unsent(p: Phase): seq<Update> {
    match p
    case Waiting => []
    case Handling(_, items) => [Update(items)]
    case Sending(u) => [u]
  }

  ghost predicate Agrees(config: Config, s: Pipeline) {
    s.w.shuttingDown || forall k :: Mine(config, k) ==>
      Expected(s.tracker, s.updCh + Unsent(s.w.phase), k) == SeverityOf(StateOf(s.w, k))
  }

  lemma ExpectedLast(t: TrackerSpec.State, updates: seq<Update>, u: Update, k: string)
    ensures Expected(t, updates + [u], k) == if u.Update? && k in u.items then Shown(u.items[k])
                                             else Expected(t, updates, k)
  {
    assert (updates + [u])[..|updates|] == updates;
  }

  lemma ConsumeListed(t: TrackerSpec.State, u: Update, stamps: map<string, nat>, k: string)
    ensures Listed(Consume(t, u, stamps), k) == if u.Update? && k in u.items then Shown(u.items[k]) else Listed(t, k)
  {
    if u.Update? {
      TrackerSpec.FeedLookup(t, TrackerSpec.FeedCall(u.items, stamps), k);
    }
  }

  /** Consuming the first update changes nothing about what will be shown. */
  lemma {:induction false} ExpectedConsume(t: TrackerSpec.State, updates: seq<Update>, stamps: map<string, nat>,
                                           k: string)
    requires updates != []
    ensures Expected(Consume(t, updates[0], stamps), updates[1..], k) == Expected(t, updates, k)
  {
    var n := |updates| - 1;
    if n == 0 {
      ConsumeListed(t, updates[0], stamps, k);
      assert Expected(t, updates[..0], k) == Listed(t, k);
    } else {
      ExpectedConsume(t, updates[..n], stamps, k);
      assert updates[..n][1..] == updates[1..][..n - 1];
    }
  }

  /** An update without `k` can be inserted anywhere. */
  lemma ExpectedInsert(t: TrackerSpec.State, updates: seq<Update>, u: Update, rest: seq<Update>, k: string)
    requires |rest| <= 1 && (u.Update? ==> k !in u.items)
    ensures Expected(t, updates + [u] + rest, k) == Expected(t, updates + rest, k)
  {
    ExpectedLast(t, updates, u, k);
    if rest == [] {
      assert updates + [u] + rest == updates + [u] && updates + rest == updates;
    } else {
      ExpectedLast(t, updates + [u], rest[0], k);
      ExpectedLast(t, updates, rest[0], k);
      assert rest == [rest[0]];
    }
  }

  lemma MoveAgrees(config: Config, s: Pipeline, m: Move)
    requires Inv(s.w) && Agrees(config, s) && CanMove(config, s, m)
    ensures Agrees(config, Moved(config, s, m))
  {
    var s' := Moved(config, s, m);
    if !s'.w.shuttingDown {
      StillRunning(config, s, m);
      forall k | Mine(config, k)
        ensures Expected(s'.tracker, s'.updCh + Unsent(s'.w.phase), k) == SeverityOf(StateOf(s'.w, k))
      {
        assert Expected(s.tracker, s.updCh + Unsent(s.w.phase), k) == SeverityOf(StateOf(s.w, k));
        if m.Collect? {
          CollectAgrees(config, s, m.action, k);
        } else {
          CoreAgrees(config, s, m, k);
        }
      }
    }
  }

  lemma StillRunning(config: Config, s: Pipeline, m: Move)
    requires CanMove(config, s, m) && !Moved(config, s, m).w.shuttingDown
    ensures !s.w.shuttingDown && (m.Collect? ==> !m.action.AbortSend?)
  {
    if m.Collect? {
      match m.action
      case TakeReady =>
      case HandleUnit =>
      case _ =>
    }
  }

  lemma CoreAgrees(config: Config, s: Pipeline, m: Move, k: string)
    requires CanMove(config, s, m) && !m.Collect? && Mine(config, k)
    ensures var s' := Moved(config, s, m);
            Expected(s'.tracker, s'.updCh + Unsent(s'.w.phase), k)
            == Expected(s.tracker, s.updCh + Unsent(s.w.phase), k)
  {
    if m.OtherSends? {
      ExpectedInsert(s.tracker, s.updCh, m.update, Unsent(s.w.phase), k);
    } else {
      ExpectedConsume(s.tracker, s.updCh + Unsent(s.w.phase), m.stamps, k);
      assert (s.updCh + Unsent(s.w.phase))[1..] == s.updCh[1..] + Unsent(s.w.phase);
    }
  }

  lemma CollectAgrees(config: Config, s: Pipeline, a: Action, k: string)
    requires Inv(s.w) && CanMove(config, s, Collect(a)) && !a.AbortSend?
    requires Expected(s.tracker, s.updCh + Unsent(s.w.phase), k) == SeverityOf(StateOf(s.w, k))
    ensures var s' := Moved(config, s, Collect(a));
            Expected(s'.tracker, s'.updCh + Unsent(s'.w.phase), k) == SeverityOf(StateOf(s'.w, k))
  {
    var w, w' := s.w, Step(config, s.w, a);
    match a
    case TakeReady => ReadyAgrees(s, w.readyCh[0], k);
    case HandleUnit =>
      var r := Read(config, w.phase.todo[0]);
      if r.Some? {
        UnitAgrees(config, s, w.phase.todo[0], r.value, k);
      }
    case TakeUnits(_, _) =>
      ExpectedLast(s.tracker, s.updCh, Update(map[]), k);
      assert s.updCh + [] == s.updCh;
    case TakeError =>
      ExpectedLast(s.tracker, s.updCh, Failure, k);
      assert s.updCh + [] == s.updCh;
    case FinishUpdate =>
      ExpectedLast(s.tracker, s.updCh, Update(w.phase.items), k);
      assert s.updCh + [] == s.updCh;
    case Send =>
      assert s.updCh + [w.phase.update] + [] == s.updCh + [w.phase.update];
    case _ =>
  }

  lemma ReadyAgrees(s: Pipeline, r: Ready, k: string)
    requires Inv(s.w) && s.w.phase.Waiting? && s.w.readyCh != [] && r == s.w.readyCh[0]
    requires Expected(s.tracker, s.updCh + [], k) == SeverityOf(StateOf(s.w, k))
    ensures var w' := HandleReady(s.w.(readyCh := s.w.readyCh[1..]), r);
            Expected(s.tracker, s.updCh + Unsent(w'.phase), k) == SeverityOf(StateOf(w', k))
  {
    var ks := StateOf(s.w, r.key);
    assert s.updCh + [] == s.updCh;
    assert KeyAgrees(s.w.log, r.key, ks, OpenerOf(s.w, r.key), WindowOf(s.w, r.key));
    if ks.pending.Some? && ks.pending.value.generation == r.generation {
      ExpectedLast(s.tracker, s.updCh, Update(map[r.key := ks.pending.value.item]), k);
    }
  }

  lemma UnitAgrees(config: Config, s: Pipeline, unit: Unit, r: Reading, k: string)
    requires Inv(s.w) && s.w.phase.Handling? && s.w.phase.todo != []
    requires Expected(s.tracker, s.updCh + [Update(s.w.phase.items)], k) == SeverityOf(StateOf(s.w, k))
    ensures var w' := HandleReading(config, s.w.(phase := s.w.phase.(todo := s.w.phase.todo[1..])), unit, r);
            Expected(s.tracker, s.updCh + Unsent(w'.phase), k) == SeverityOf(StateOf(w', k))
  {
    var w := s.w.(phase := s.w.phase.(todo := s.w.phase.todo[1..]));
    assert KeyAgrees(s.w.log, r.item.key, StateOf(s.w, r.item.key), OpenerOf(s.w, r.item.key),
                     WindowOf(s.w, r.item.key));
    ReadingSeverity(config, w, unit, r, k);
    var w' := HandleReading(config, w, unit, r);
    ExpectedLast(s.tracker, s.updCh, Update(w.phase.items), k);
    ExpectedLast(s.tracker, s.updCh, Update(w'.phase.items), k);
  }

  /** The update being built holds the new severity of every key it changed. */
  lemma ReadingSeverity(config: Config, w: World, unit: Unit, r: Reading, k: string)
    requires w.phase.Handling?
    requires var ks := StateOf(w, r.item.key); ks.incident.Some? ==> !ks.incident.value.severity.OK?
    ensures var w' := HandleReading(config, w, unit, r);
            || (k in w'.phase.items && Shown(w'.phase.items[k]) == SeverityOf(StateOf(w', k)))
            || (&& (k in w'.phase.items <==> k in w.phase.items)
                && SeverityOf(StateOf(w', k)) == SeverityOf(StateOf(w, k))
                && (k in w.phase.items ==> w'.phase.items[k] == w.phase.items[k]))
  {
    ObservePublishesSeverity(config.format, StateOf(w, r.item.key), unit, r, w.nextGeneration + 1);
  }

  ghost predicate IsPipelineRun(config: Config, ss: seq<Pipeline>, moves: seq<Move>) {
    && |ss| == |moves| + 1 && ss[0] == Pipeline(INITIAL, [], TrackerSpec.EMPTY)
    && forall i :: 0 <= i < |moves| ==> CanMove(config, ss[i], moves[i]) && ss[i + 1] == Moved(config, ss[i], moves[i])
  }

  lemma {:induction false} PipelineInv(config: Config, ss: seq<Pipeline>, moves: seq<Move>, n: nat)
    requires IsPipelineRun(config, ss, moves) && n < |ss|
    ensures Inv(ss[n].w) && Agrees(config, ss[n])
  {
    if n == 0 {
      InitialInv();
    } else {
      PipelineInv(config, ss, moves, n - 1);
      MoveAgrees(config, ss[n - 1], moves[n - 1]);
      if moves[n - 1].Collect? {
        StepKeeps(config, ss[n - 1].w, moves[n - 1].action);
      }
    }
  }

  /** Once everything sent is consumed, the tracker lists this collector's keys exactly
      as the collector does: the same open incidents with the same severities. */
  lemma TrackerShowsIncidents(config: Config, ss: seq<Pipeline>, moves: seq<Move>, n: nat, k: string)
    requires IsPipelineRun(config, ss, moves) && n < |ss| && Mine(config, k)
    requires ss[n].updCh == [] && ss[n].w.phase.Waiting? && !ss[n].w.shuttingDown
    ensures Listed(ss[n].tracker, k) == SeverityOf(StateOf(ss[n].w, k))
  {
    PipelineInv(config, ss, moves, n);
    assert Expected(ss[n].tracker, ss[n].updCh + [], k) == SeverityOf(StateOf(ss[n].w, k));
  }
}
