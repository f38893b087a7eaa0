/** How an update reaches the clients: the core publishes it on the items board and
    then hands it to every messenger; a webserver fans it out to its subscribers; a
    subscriber registers first and reads the board afterwards. Every goroutine's step
    is an action, so a run is an arbitrary interleaving. */
module Publication {
  import opened TrackerSpec

  type Total = seq<Record>

  const MESSENGER_QUEUE := 32
  const SUBSCRIBER_QUEUE := 64

  /** The send loop of a connection. */
  datatype Sender = Registered | HasBoard | Streaming | Writing | Stopped

  /** A connection that was admitted. Versions number the notifications from 1; the
      board starts at version 0.
      `registeredAt`: how many notifications had been fanned out at registration.
      `received`: every version ever put into the queue.
      `consumed`: every version the send loop took out of it.
      `base`: the board version that the initial snapshot read.
      `sent`: the versions whose totals went over the connection. */
  datatype Client = Client(
    registeredAt: nat,
    queue: seq<nat>,
    received: seq<nat>,
    consumed: seq<nat>,
    sender: Sender,
    base: nat,
    sent: seq<nat>,
    cancels: nat)

  /** The webserver's `run` loop. `Full` is the moment between a refused offer and the
      removal of the subscription. */
  datatype Loop =
    | Idle
    | Taken(version: nat)
    | Fanning(version: nat, todo: set<nat>)
    | Full(version: nat, todo: set<nat>, id: nat)
    | Closing(todo: set<nat>)
    | Closed

  /** A webserver messenger: `fanned` holds the versions whose fan-out has begun, and
      `leaving` the subscriptions that were removed but not cancelled yet. */
  datatype Server = Server(
    inbox: seq<nat>,
    inputClosed: bool,
    loop: Loop,
    fanned: seq<nat>,
    subs: set<nat>,
    wsConns: set<nat>,
    nextSubID: nat,
    closing: bool,
    clients: seq<Client>,
    leaving: set<nat>)

  datatype CoreLoop = Waiting | Fed | Delivering(pending: set<nat>) | Stopped

  /** The core: `totals` are the totals it published so far, `board` the version on the
      items board. */
  datatype System = System(totals: seq<Total>, board: nat, loop: CoreLoop, shutdown: bool, servers: seq<Server>)

  datatype ServerAction =
    | Take | Snapshot | Offer(id: nat) | Skip(id: nat) | DropFull | EndFanOut
    | BeginClose | CloseOne(id: nat) | EndClose
    | Subscribe | Remove(id: nat) | Cancel(id: nat)
    | ReadBoard(id: nat) | WriteSnapshot(id: nat) | TakeUpdate(id: nat) | WriteUpdate(id: nat) | StopSending(id: nat)

  datatype Action =
    | Feed(total: Total) | SetBoard | Deliver(i: nat) | GiveUp(i: nat) | EndDelivery
    | Shutdown | StopCore | CloseInput(i: nat)
    | Serve(i: nat, a: ServerAction)

  const FRESH := Server([], false, Idle, [], {}, {}, 0, false, [], {})

  /** What a version's notification lists; version 0 is the empty board. */
  function TotalOf(totals: seq<Total>, version: nat): Total
    requires version <= |totals|
  {
    if version == 0 then [] else totals[version - 1]
  }

  // ---------------------------------------------------------------- server steps

  /** The steps of a connection's own send loop. */
  predicate IsSenderStep(a: ServerAction) {
    a.ReadBoard? || a.WriteSnapshot? || a.TakeUpdate? || a.WriteUpdate? || a.StopSending?
  }

  predicate Ready(c: Client, a: ServerAction)
    requires IsSenderStep(a)
  {
    match a
    case ReadBoard(_) => c.sender.Registered?
    case WriteSnapshot(_) => c.sender.HasBoard?
    case TakeUpdate(_) => c.sender.Streaming? && c.queue != []
    case WriteUpdate(_) => c.sender.Writing? && c.consumed != []
    // A failed write of a snapshot, an update or a heartbeat, or cancellation.
    case StopSending(_) => c.sender.HasBoard? || c.sender.Writing? || c.sender.Streaming?
  }

  function SenderStep(board: nat, c: Client, a: ServerAction): Client
    requires IsSenderStep(a) && Ready(c, a)
  {
    match a
    case ReadBoard(_) => c.(base := board, sender := HasBoard)
    case WriteSnapshot(_) => c.(sent := [c.base], sender := Streaming)
    case TakeUpdate(_) => c.(queue := c.queue[1..], consumed := c.consumed + [c.queue[0]], sender := Writing)
    case WriteUpdate(_) => c.(sent := c.sent + [c.consumed[|c.consumed| - 1]], sender := Streaming)
    case StopSending(_) => c.(sender := Sender.Stopped)
  }

  predicate ServerEnabled(s: Server, a: ServerAction) {
    match a
    case Take => s.loop.Idle? && s.inbox != []
    case Snapshot => s.loop.Taken?
    case Offer(id) => s.loop.Fanning? && id in s.loop.todo && id < |s.clients|
    case Skip(id) => s.loop.Fanning? && id in s.loop.todo && id < |s.clients| && s.clients[id].cancels > 0
    case DropFull => s.loop.Full?
    case EndFanOut => s.loop.Fanning? && s.loop.todo == {}
    case BeginClose => s.loop.Idle? && s.inbox == [] && s.inputClosed
    case CloseOne(id) => s.loop.Closing? && id in s.loop.todo
    case EndClose => s.loop.Closing? && s.loop.todo == {}
    case Subscribe => !s.closing
    case Remove(id) => true
    case Cancel(id) => id in s.leaving && id < |s.clients|
    case ReadBoard(id) => id < |s.clients| && Ready(s.clients[id], a)
    case WriteSnapshot(id) => id < |s.clients| && Ready(s.clients[id], a)
    case TakeUpdate(id) => id < |s.clients| && Ready(s.clients[id], a)
    case WriteUpdate(id) => id < |s.clients| && Ready(s.clients[id], a)
    case StopSending(id) => id < |s.clients| && Ready(s.clients[id], a)
  }

  /** The part of `unsubscribe` under the mutex: only the call that finds the
      subscription removes it and goes on to cancel it. */
  function Unsubscribed(s: Server, id: nat): Server {
    if id in s.subs then s.(subs := s.subs - {id}, wsConns := s.wsConns - {id}, leaving := s.leaving + {id}) else s
  }

  function WithClient(s: Server, id: nat, c: Client): Server
    requires id < |s.clients|
  {
    s.(clients := s.clients[id := c])
  }

  /** The non-blocking send: a full queue leaves the loop about to unsubscribe. */
  function Offered(s: Server, id: nat): Server
    requires s.loop.Fanning? && id < |s.clients|
  {
    var c, v, todo := s.clients[id], s.loop.version, s.loop.todo - {id};
    if |c.queue| < SUBSCRIBER_QUEUE then
      WithClient(s, id, c.(queue := c.queue + [v], received := c.received + [v])).(loop := Fanning(v, todo))
    else
      s.(loop := Full(v, todo, id))
  }

  function ServerStep(board: nat, s: Server, a: ServerAction): Server
    requires ServerEnabled(s, a)
  {
    match a
    case Take => s.(inbox := s.inbox[1..], loop := Taken(s.inbox[0]))
    case Snapshot => s.(loop := Fanning(s.loop.version, s.subs), fanned := s.fanned + [s.loop.version])
    case Offer(id) => Offered(s, id)
    case Skip(id) => s.(loop := Fanning(s.loop.version, s.loop.todo - {id}))
    case DropFull => Unsubscribed(s, s.loop.id).(loop := Fanning(s.loop.version, s.loop.todo))
    case EndFanOut => s.(loop := Idle)
    case BeginClose => s.(closing := true, loop := Closing(s.wsConns))
    case CloseOne(id) => Unsubscribed(s, id).(loop := Closing(s.loop.todo - {id}))
    case EndClose => s.(loop := Closed)
    case Subscribe =>
      s.(nextSubID := s.nextSubID + 1, subs := s.subs + {s.nextSubID}, wsConns := s.wsConns + {s.nextSubID},
         clients := s.clients + [Client(|s.fanned|, [], [], [], Registered, 0, [], 0)])
    case Remove(id) => Unsubscribed(s, id)
    case Cancel(id) =>
      WithClient(s, id, s.clients[id].(cancels := s.clients[id].cancels + 1)).(leaving := s.leaving - {id})
    case ReadBoard(id) => WithClient(s, id, SenderStep(board, s.clients[id], a))
    case WriteSnapshot(id) => WithClient(s, id, SenderStep(board, s.clients[id], a))
    case TakeUpdate(id) => WithClient(s, id, SenderStep(board, s.clients[id], a))
    case WriteUpdate(id) => WithClient(s, id, SenderStep(board, s.clients[id], a))
    case StopSending(id) => WithClient(s, id, SenderStep(board, s.clients[id], a))
  }

  // ---------------------------------------------------------------- system steps

  function Everyone(n: nat): (r: set<nat>)
    ensures forall i :: i in r <==> 0 <= i < n
  {
    if n == 0 then {} else Everyone(n - 1) + {n - 1}
  }

  predicate Enabled(y: System, a: Action) {
    match a
    case Feed(_) => y.loop.Waiting?
    case SetBoard => y.loop.Fed?
    case Deliver(i) =>
      && y.loop.Delivering? && i in y.loop.pending
      && i < |y.servers| && |y.servers[i].inbox| < MESSENGER_QUEUE
    case GiveUp(i) => y.loop.Delivering? && i in y.loop.pending && y.shutdown
    case EndDelivery => y.loop.Delivering? && y.loop.pending == {}
    case Shutdown => true
    case StopCore => y.loop.Waiting? && y.shutdown
    case CloseInput(i) => y.loop.Stopped? && i < |y.servers|
    case Serve(i, a) => i < |y.servers| && ServerEnabled(y.servers[i], a)
  }

  function Step(y: System, a: Action): System
    requires Enabled(y, a)
  {
    match a
    case Feed(total) => y.(totals := y.totals + [total], loop := Fed)
    case SetBoard => y.(board := |y.totals|, loop := Delivering(Everyone(|y.servers|)))
    case Deliver(i) =>
      y.(servers := y.servers[i := y.servers[i].(inbox := y.servers[i].inbox + [|y.totals|])],
         loop := Delivering(y.loop.pending - {i}))
    case GiveUp(i) => y.(loop := Delivering(y.loop.pending - {i}))
    case EndDelivery => y.(loop := Waiting)
    case Shutdown => y.(shutdown := true)
    case StopCore => y.(loop := CoreLoop.Stopped)
    case CloseInput(i) => y.(servers := y.servers[i := y.servers[i].(inputClosed := true)])
    case Serve(i, a) => y.(servers := y.servers[i := ServerStep(y.board, y.servers[i], a)])
  }

  function Initial(messengers: nat): System {
    System([], 0, Waiting, false, seq(messengers, _ => FRESH))
  }

  ghost predicate IsRun(run: seq<System>, actions: seq<Action>, messengers: nat) {
    && |run| == |actions| + 1
    && run[0] == Initial(messengers)
    && forall k :: 0 <= k < |actions| ==> Enabled(run[k], actions[k]) && run[k + 1] == Step(run[k], actions[k])
  }

  // ---------------------------------------------------------------- streams have no gaps

  /** A subscriber's queue received a contiguous run of what was fanned out since it
      registered, and its connection sent the snapshot and then that run in order. */
  ghost predicate StreamOK(fanned: seq<nat>, c: Client) {
    && c.registeredAt + |c.received| <= |fanned|
    && c.received == fanned[c.registeredAt..c.registeredAt + |c.received|]
    && c.received == c.consumed + c.queue
    && |c.queue| <= SUBSCRIBER_QUEUE
    && (c.sender.Registered? || c.sender.HasBoard? ==> c.sent == [] && c.consumed == [])
    && (c.sender.Streaming? ==> c.sent == [c.base] + c.consumed)
    && (c.sender.Writing? ==> c.consumed != [] && c.sent == [c.base] + c.consumed[..|c.consumed| - 1])
    && (c.sender.Stopped? ==> c.sent <= [c.base] + c.consumed)
  }

  /** Subscription `id` of server `s` has still to be offered the newest fanned-out
      notification. */
  predicate AwaitsOffer(s: Server, id: nat) {
    (s.loop.Fanning? && id in s.loop.todo) || (s.loop.Full? && (id in s.loop.todo || id == s.loop.id))
  }

  /** How many of the fanned-out notifications subscription `id` is behind: one while
      its offer is still to come. */
  ghost predicate CaughtUp(s: Server, id: nat)
    requires id < |s.clients|
  {
    var upTo := s.clients[id].registeredAt + |s.clients[id].received|;
    && (AwaitsOffer(s, id) ==> upTo + 1 == |s.fanned|)
    && (id in s.subs && !AwaitsOffer(s, id) ==> upTo == |s.fanned|)
  }

  /** Each admitted connection is subscribed, being cancelled, or cancelled once. */
  ghost predicate CancelledOnce(s: Server, id: nat)
    requires id < |s.clients|
  {
    s.clients[id].cancels == if id in s.subs || id in s.leaving then 0 else 1
  }

  ghost predicate RegistryOK(s: Server) {
    && s.subs == s.wsConns
    && s.nextSubID == |s.clients|
    && (forall id :: id in s.subs || id in s.leaving ==> id < |s.clients|)
    && (forall id :: id in s.subs ==> id !in s.leaving)
    && (s.loop.Fanning? || s.loop.Full? ==> s.fanned != [] && (forall id :: id in s.loop.todo ==> id < |s.clients|))
    && (s.loop.Full? ==> s.loop.id < |s.clients| && s.loop.id !in s.loop.todo)
    && (s.loop.Fanning? || s.loop.Full? ==> s.fanned[|s.fanned| - 1] == s.loop.version)
    && (s.loop.Closing? ==> s.closing && s.subs <= s.loop.todo)
    && (s.loop.Closed? ==> s.closing && s.subs == {})
    && (s.closing ==> s.loop.Closing? || s.loop.Closed?)
  }

  ghost predicate ServerInv(s: Server) {
    && RegistryOK(s)
    && |s.inbox| <= MESSENGER_QUEUE
    && forall id :: 0 <= id < |s.clients| ==>
         StreamOK(s.fanned, s.clients[id]) && CaughtUp(s, id) && CancelledOnce(s, id)
  }

  // One lemma per kind of step.

  lemma UnsubscribedRegistry(s: Server, id: nat)
    requires RegistryOK(s)
    ensures var s' := Unsubscribed(s, id); RegistryOK(s') && id !in s'.subs && s'.subs <= s.subs
  {
  }

  /** The steps of the fan-out. */
  lemma FanOutRegistry(board: nat, s: Server, a: ServerAction)
    requires RegistryOK(s) && ServerEnabled(s, a)
    requires a.Take? || a.Snapshot? || a.Offer? || a.Skip? || a.DropFull? || a.EndFanOut?
    ensures RegistryOK(ServerStep(board, s, a))
  {
    if a.DropFull? {
      UnsubscribedRegistry(s, s.loop.id);
    }
  }

  /** The steps of shutdown, and those of the connections. */
  lemma OtherRegistry(board: nat, s: Server, a: ServerAction)
    requires RegistryOK(s) && ServerEnabled(s, a)
    requires !(a.Take? || a.Snapshot? || a.Offer? || a.Skip? || a.DropFull? || a.EndFanOut?)
    ensures RegistryOK(ServerStep(board, s, a))
  {
    if a.CloseOne? || a.Remove? {
      UnsubscribedRegistry(s, a.id);
    }
  }

  lemma RegistryKept(board: nat, s: Server, a: ServerAction)
    requires RegistryOK(s) && |s.inbox| <= MESSENGER_QUEUE && ServerEnabled(s, a)
    ensures RegistryOK(ServerStep(board, s, a)) && |ServerStep(board, s, a).inbox| <= MESSENGER_QUEUE
  {
    if a.Take? || a.Snapshot? || a.Offer? || a.Skip? || a.DropFull? || a.EndFanOut? {
      FanOutRegistry(board, s, a);
    } else {
      OtherRegistry(board, s, a);
    }
  }

  /** Appending to what was fanned out does not disturb a stream. */
  lemma StreamGrows(fanned: seq<nat>, v: nat, c: Client)
    requires StreamOK(fanned, c)
    ensures StreamOK(fanned + [v], c)
  {
    assert (fanned + [v])[c.registeredAt..c.registeredAt + |c.received|]
         == fanned[c.registeredAt..c.registeredAt + |c.received|];
  }

  /** An accepted offer extends the stream by the notification it was behind. */
  lemma StreamAccepts(fanned: seq<nat>, c: Client)
    requires StreamOK(fanned, c) && c.registeredAt + |c.received| + 1 == |fanned| && |c.queue| < SUBSCRIBER_QUEUE
    ensures var v := fanned[|fanned| - 1]; StreamOK(fanned, c.(queue := c.queue + [v], received := c.received + [v]))
  {
    var v, upTo := fanned[|fanned| - 1], c.registeredAt + |c.received|;
    assert fanned[c.registeredAt..upTo + 1] == fanned[c.registeredAt..upTo] + [v];
    assert c.consumed + (c.queue + [v]) == (c.consumed + c.queue) + [v];
  }

  lemma StreamTakes(fanned: seq<nat>, c: Client)
    requires StreamOK(fanned, c) && c.sender.Streaming? && c.queue != []
    ensures StreamOK(fanned, c.(queue := c.queue[1..], consumed := c.consumed + [c.queue[0]], sender := Writing))
  {
    assert c.consumed + c.queue == (c.consumed + [c.queue[0]]) + c.queue[1..];
    assert (c.consumed + [c.queue[0]])[..|c.consumed|] == c.consumed;
  }

  lemma StreamWrites(fanned: seq<nat>, c: Client)
    requires StreamOK(fanned, c) && c.sender.Writing?
    ensures StreamOK(fanned, c.(sent := c.sent + [c.consumed[|c.consumed| - 1]], sender := Streaming))
  {
    var n := |c.consumed| - 1;
    assert [c.base] + c.consumed == ([c.base] + c.consumed[..n]) + [c.consumed[n]];
  }

  /** The send loop keeps its stream in order. */
  lemma SenderKeepsStream(board: nat, fanned: seq<nat>, c: Client, a: ServerAction)
    requires StreamOK(fanned, c) && IsSenderStep(a) && Ready(c, a)
    ensures StreamOK(fanned, SenderStep(board, c, a))
  {
    if a.TakeUpdate? {
      StreamTakes(fanned, c);
    } else if a.WriteUpdate? {
      StreamWrites(fanned, c);
    }
  }

  predicate Touches(s: Server, a: ServerAction, id: nat)
    requires id < |s.clients|
  {
    || ((IsSenderStep(a) || a.Cancel?) && a.id == id)
    || (a == Offer(id) && |s.clients[id].queue| < SUBSCRIBER_QUEUE)
  }

  lemma ClientUntouched(board: nat, s: Server, a: ServerAction, id: nat)
    requires ServerEnabled(s, a) && id < |s.clients| && !Touches(s, a, id)
    ensures var s' := ServerStep(board, s, a);
            && |s'.clients| >= |s.clients| && s'.clients[id] == s.clients[id]
            && (!a.Snapshot? ==> s'.fanned == s.fanned)
  {
  }

  /** A send loop's step, and a cancellation, touch one client and no queue's history. */
  lemma ConnectionFrame(board: nat, s: Server, a: ServerAction, id: nat)
    requires ServerEnabled(s, a) && (IsSenderStep(a) || a.Cancel?) && id < |s.clients|
    ensures var s' := ServerStep(board, s, a);
            && s'.loop == s.loop && s'.subs == s.subs && s'.fanned == s.fanned && |s'.clients| == |s.clients|
            && s'.clients[id].registeredAt == s.clients[id].registeredAt
            && s'.clients[id].received == s.clients[id].received
            && (IsSenderStep(a) && a.id == id ==> s'.clients[id] == SenderStep(board, s.clients[id], a))
            && (a == Cancel(id) ==> s'.clients[id] == s.clients[id].(cancels := s.clients[id].cancels + 1))
  {
  }

  lemma TouchedStreamKept(board: nat, s: Server, a: ServerAction, id: nat)
    requires id < |s.clients| && ServerEnabled(s, a) && Touches(s, a, id)
    requires StreamOK(s.fanned, s.clients[id])
    requires a.Offer? ==> s.clients[id].registeredAt + |s.clients[id].received| + 1 == |s.fanned|
    requires a.Offer? ==> s.fanned[|s.fanned| - 1] == s.loop.version
    ensures var s' := ServerStep(board, s, a);
            s'.fanned == s.fanned && id < |s'.clients| && StreamOK(s.fanned, s'.clients[id])
  {
    if a.Offer? {
      StreamAccepts(s.fanned, s.clients[id]);
    } else {
      ConnectionFrame(board, s, a, id);
      if IsSenderStep(a) {
        SenderKeepsStream(board, s.fanned, s.clients[id], a);
      }
    }
  }

  lemma StreamKept(board: nat, s: Server, a: ServerAction, id: nat)
    requires ServerEnabled(s, a) && id < |s.clients| && RegistryOK(s)
    requires StreamOK(s.fanned, s.clients[id]) && CaughtUp(s, id)
    ensures var s' := ServerStep(board, s, a); id < |s'.clients| && StreamOK(s'.fanned, s'.clients[id])
  {
    if Touches(s, a, id) {
      TouchedStreamKept(board, s, a, id);
    } else {
      ClientUntouched(board, s, a, id);
      if a.Snapshot? {
        StreamGrows(s.fanned, s.loop.version, s.clients[id]);
      }
    }
  }

  lemma CaughtUpKept(board: nat, s: Server, a: ServerAction, id: nat)
    requires RegistryOK(s) && ServerEnabled(s, a) && id < |s.clients| && CaughtUp(s, id) && CancelledOnce(s, id)
    ensures var s' := ServerStep(board, s, a); id < |s'.clients| && CaughtUp(s', id)
  {
    if IsSenderStep(a) || a.Cancel? {
      ConnectionFrame(board, s, a, id);
    }
  }

  lemma CancelledOnceKept(board: nat, s: Server, a: ServerAction, id: nat)
    requires RegistryOK(s) && ServerEnabled(s, a) && id < |s.clients| && CancelledOnce(s, id)
    ensures var s' := ServerStep(board, s, a); id < |s'.clients| && CancelledOnce(s', id)
  {
  }

  lemma ServerStepKeeps(board: nat, s: Server, a: ServerAction)
    requires ServerInv(s) && ServerEnabled(s, a)
    ensures ServerInv(ServerStep(board, s, a))
  {
    var s' := ServerStep(board, s, a);
    RegistryKept(board, s, a);
    forall id | 0 <= id < |s'.clients|
      ensures StreamOK(s'.fanned, s'.clients[id]) && CaughtUp(s', id) && CancelledOnce(s', id)
    {
      if id < |s.clients| {
        StreamKept(board, s, a, id);
        CaughtUpKept(board, s, a, id);
        CancelledOnceKept(board, s, a, id);
      }
    }
  }

  // ---------------------------------------------------------------- nothing is missed

  function Versions(n: nat): seq<nat> {
    seq(n, i => i + 1)
  }

  /** Everything the core handed to a messenger, oldest first. */
  function Handed(s: Server): seq<nat> {
    s.fanned + (if s.loop.Taken? then [s.loop.version] else []) + s.inbox
  }

  /** How many notifications messenger `i` must have been handed. */
  function Due(y: System, i: nat): int {
    |y.totals| - if y.loop.Fed? || (y.loop.Delivering? && i in y.loop.pending) then 1 else 0
  }

  ghost predicate CoreOK(y: System) {
    && y.board == |y.totals| - (if y.loop.Fed? then 1 else 0)
    && (y.loop.Delivering? ==> y.totals != [])
    && (y.loop.Delivering? ==> forall i :: i in y.loop.pending ==> i < |y.servers|)
  }

  /** Until shutdown begins, a messenger is handed every notification in order. */
  ghost predicate FlowOK(y: System, i: nat)
    requires i < |y.servers| && CoreOK(y)
  {
    !y.shutdown ==> Handed(y.servers[i]) == Versions(Due(y, i))
  }

  /** A snapshot is at least as new as everything fanned out before its client
      registered. */
  ghost predicate BaseOK(y: System, c: Client) {
    !y.shutdown && !c.sender.Registered? ==> c.registeredAt <= c.base <= y.board
  }

  ghost predicate MessengerOK(y: System, i: nat)
    requires i < |y.servers| && CoreOK(y)
  {
    && ServerInv(y.servers[i])
    && FlowOK(y, i)
    && (forall id :: 0 <= id < |y.servers[i].clients| ==> BaseOK(y, y.servers[i].clients[id]))
  }

  ghost predicate Inv(y: System) {
    CoreOK(y) && forall i :: 0 <= i < |y.servers| ==> MessengerOK(y, i)
  }

  /** A server moves notifications along but neither loses nor reorders them. */
  lemma HandedKept(board: nat, s: Server, a: ServerAction)
    requires ServerEnabled(s, a)
    ensures Handed(ServerStep(board, s, a)) == Handed(s)
  {
    if a.Take? {
      assert s.inbox == [s.inbox[0]] + s.inbox[1..];
    }
  }

  lemma ServeKeeps(y: System, i: nat, a: ServerAction)
    requires Inv(y) && Enabled(y, Serve(i, a))
    ensures MessengerOK(Step(y, Serve(i, a)), i)
  {
    assert MessengerOK(y, i);
    ServerStepKeeps(y.board, y.servers[i], a);
    HandedKept(y.board, y.servers[i], a);
    BasesKept(y, i, a);
  }

  lemma BasesKept(y: System, i: nat, a: ServerAction)
    requires CoreOK(y) && i < |y.servers| && MessengerOK(y, i) && ServerEnabled(y.servers[i], a)
    ensures var s' := ServerStep(y.board, y.servers[i], a);
            forall id :: 0 <= id < |s'.clients| ==> BaseOK(y, s'.clients[id])
  {
    var s := y.servers[i];
    var s' := ServerStep(y.board, s, a);
    assert !y.shutdown ==> |s.fanned| <= |Handed(s)| <= y.board;
    forall id | 0 <= id < |s'.clients|
      ensures BaseOK(y, s'.clients[id])
    {
      if id < |s.clients| {
        BaseKept(y, i, a, id);
      }
    }
  }

  lemma BaseKept(y: System, i: nat, a: ServerAction, id: nat)
    requires i < |y.servers| && ServerEnabled(y.servers[i], a) && id < |y.servers[i].clients|
    requires BaseOK(y, y.servers[i].clients[id]) && StreamOK(y.servers[i].fanned, y.servers[i].clients[id])
    requires !y.shutdown ==> |y.servers[i].fanned| <= y.board
    ensures var s' := ServerStep(y.board, y.servers[i], a); id < |s'.clients| && BaseOK(y, s'.clients[id])
  {
    if !Touches(y.servers[i], a, id) {
      ClientUntouched(y.board, y.servers[i], a, id);
    }
  }

  lemma CoreStepKeeps(y: System, a: Action, i: nat)
    requires Inv(y) && Enabled(y, a) && !a.Serve? && i < |y.servers|
    ensures CoreOK(Step(y, a)) && MessengerOK(Step(y, a), i)
  {
    var s, y' := y.servers[i], Step(y, a);
    assert MessengerOK(y, i);
    var s' := y'.servers[i];
    if a == Deliver(i) {
      assert Versions(|y.totals|) == Versions(|y.totals| - 1) + [|y.totals|];
      assert Handed(s') == Handed(s) + [|y.totals|];
      InboxOnly(s, s');
    } else if a == CloseInput(i) {
      InboxOnly(s, s');
    }
  }

  lemma InboxOnly(s: Server, s': Server)
    requires ServerInv(s) && s' == s.(inbox := s'.inbox, inputClosed := s'.inputClosed) && |s'.inbox| <= MESSENGER_QUEUE
    ensures ServerInv(s')
  {
    forall id | 0 <= id < |s'.clients|
      ensures StreamOK(s'.fanned, s'.clients[id]) && CaughtUp(s', id) && CancelledOnce(s', id)
    {
      assert CaughtUp(s, id) && CancelledOnce(s, id);
    }
  }

  lemma StepKeeps(y: System, a: Action)
    requires Inv(y) && Enabled(y, a)
    ensures Inv(Step(y, a))
  {
    var y' := Step(y, a);
    forall i | 0 <= i < |y'.servers|
      ensures MessengerOK(y', i)
    {
      assert MessengerOK(y, i);
      if a.Serve? && a.i == i {
        ServeKeeps(y, i, a.a);
      } else if !a.Serve? {
        CoreStepKeeps(y, a, i);
      }
    }
  }

  lemma InitialInv(messengers: nat)
    ensures Inv(Initial(messengers))
  {
    assert Versions(0) == [];
  }

  /** Every state of every run keeps the invariant. */
  lemma {:induction false} RunKeeps(run: seq<System>, actions: seq<Action>, messengers: nat, k: nat)
    requires IsRun(run, actions, messengers) && k < |run|
    ensures Inv(run[k])
  {
    if k == 0 {
      InitialInv(messengers);
    } else {
      RunKeeps(run, actions, messengers, k - 1);
      StepKeeps(run[k - 1], actions[k - 1]);
    }
  }

  // ---------------------------------------------------------------- theorems

  lemma FannedAre(y: System, i: nat, k: nat)
    requires Inv(y) && !y.shutdown && i < |y.servers| && k < |y.servers[i].fanned|
    ensures y.servers[i].fanned[k] == k + 1
  {
    assert MessengerOK(y, i);
    assert Handed(y.servers[i])[k] == y.servers[i].fanned[k];
  }

  /** Until shutdown, whatever a subscriber's queue did not get is covered by its
      snapshot: of the notifications fanned out so far, each is in its queue's history,
      or is the one about to be offered, or is no newer than the snapshot. */
  lemma NothingMissed(run: seq<System>, actions: seq<Action>, messengers: nat, k: nat, i: nat, id: nat, v: nat)
    requires IsRun(run, actions, messengers) && k < |run| && !run[k].shutdown
    requires i < |run[k].servers| && id in run[k].servers[i].subs
    requires 1 <= v <= |run[k].servers[i].fanned|
    ensures id < |run[k].servers[i].clients|
    ensures var s := run[k].servers[i];
            var c := s.clients[id];
            || v in c.received
            || (AwaitsOffer(s, id) && v == |s.fanned|)
            || (v <= c.registeredAt && (!c.sender.Registered? ==> v <= c.base))
  {
    RunKeeps(run, actions, messengers, k);
    var y := run[k];
    var s := y.servers[i];
    assert MessengerOK(y, i);
    var c := s.clients[id];
    assert StreamOK(s.fanned, c) && CaughtUp(s, id) && BaseOK(y, c);
    if c.registeredAt < v && !(AwaitsOffer(s, id) && v == |s.fanned|) {
      FannedAre(y, i, v - 1);
      assert c.received[v - 1 - c.registeredAt] == v;
    }
  }

  /** Once the core waits for the next update and the queues on the way are drained, the
      last total that a subscribed connection sent is the total on the board. */
  lemma DrainedClientShowsBoard(run: seq<System>, actions: seq<Action>, messengers: nat, k: nat, i: nat, id: nat)
    requires IsRun(run, actions, messengers) && k < |run| && !run[k].shutdown
    requires run[k].loop.Waiting?
    requires i < |run[k].servers| && run[k].servers[i].inbox == [] && run[k].servers[i].loop.Idle?
    requires id in run[k].servers[i].subs && id < |run[k].servers[i].clients|
    requires run[k].servers[i].clients[id].sender.Streaming? && run[k].servers[i].clients[id].queue == []
    ensures var y, sent := run[k], run[k].servers[i].clients[id].sent;
            && sent != [] && sent[|sent| - 1] <= |y.totals| && y.board == |y.totals|
            && TotalOf(y.totals, sent[|sent| - 1]) == TotalOf(y.totals, y.board)
  {
    RunKeeps(run, actions, messengers, k);
    var y := run[k];
    var s := y.servers[i];
    assert MessengerOK(y, i);
    var c := s.clients[id];
    assert StreamOK(s.fanned, c) && CaughtUp(s, id) && BaseOK(y, c);
    assert Handed(s) == s.fanned;
    if c.consumed != [] {
      assert c.consumed[|c.consumed| - 1] == s.fanned[|s.fanned| - 1];
      FannedAre(y, i, |s.fanned| - 1);
    }
  }

  /** What a connection sends after the snapshot is one version after the other, from
      the one after its registration; the redundant ones are exactly those between
      registration and the snapshot. */
  lemma SentAreConsecutive(run: seq<System>, actions: seq<Action>, messengers: nat, k: nat, i: nat, id: nat, j: nat)
    requires IsRun(run, actions, messengers) && k < |run| && !run[k].shutdown
    requires i < |run[k].servers| && id < |run[k].servers[i].clients|
    requires 1 <= j < |run[k].servers[i].clients[id].sent|
    ensures var c := run[k].servers[i].clients[id];
            && c.sent[0] == c.base
            && c.sent[j] == c.registeredAt + j
            && (c.sent[j] <= c.sent[0] <==> j <= c.base - c.registeredAt)
  {
    RunKeeps(run, actions, messengers, k);
    var y := run[k];
    var s := y.servers[i];
    assert MessengerOK(y, i);
    var c := s.clients[id];
    assert StreamOK(s.fanned, c);
    assert c.sent <= [c.base] + c.consumed;
    assert c.sent[j] == c.consumed[j - 1] == c.received[j - 1] == s.fanned[c.registeredAt + j - 1];
    FannedAre(y, i, c.registeredAt + j - 1);
  }

  /** At every moment, also during and after shutdown: a queue receives a contiguous run
      of what was fanned out, all of it while the subscription lasts, and the
      connection sends nothing but the snapshot and then a prefix of that run. */
  lemma StreamsHaveNoGaps(run: seq<System>, actions: seq<Action>, messengers: nat, k: nat, i: nat, id: nat)
    requires IsRun(run, actions, messengers) && k < |run| && i < |run[k].servers| && id < |run[k].servers[i].clients|
    ensures var s := run[k].servers[i];
            var c := s.clients[id];
            && c.registeredAt + |c.received| <= |s.fanned|
            && c.received == s.fanned[c.registeredAt..c.registeredAt + |c.received|]
            && (id in s.subs && !AwaitsOffer(s, id) ==> c.received == s.fanned[c.registeredAt..])
            && c.sent <= [c.base] + c.received
  {
    RunKeeps(run, actions, messengers, k);
    assert MessengerOK(run[k], i);
    var s := run[k].servers[i];
    assert StreamOK(s.fanned, s.clients[id]) && CaughtUp(s, id);
  }

  /** At every moment, also during and after shutdown: both registries hold the same
      ids, the next id was never used, and each admitted connection was cancelled at
      most once and not while subscribed, exactly once as soon as its removal is
      complete. */
  lemma RegistryIsConsistent(run: seq<System>, actions: seq<Action>, messengers: nat, k: nat, i: nat)
    requires IsRun(run, actions, messengers) && k < |run| && i < |run[k].servers|
    ensures var s := run[k].servers[i];
            && s.subs == s.wsConns
            && s.nextSubID == |s.clients| && s.nextSubID !in s.subs
            && (forall id :: 0 <= id < |s.clients| ==>
                 s.clients[id].cancels == if id in s.subs || id in s.leaving then 0 else 1)
  {
    RunKeeps(run, actions, messengers, k);
    assert MessengerOK(run[k], i);
    var s := run[k].servers[i];
    forall id | 0 <= id < |s.clients|
      ensures s.clients[id].cancels == if id in s.subs || id in s.leaving then 0 else 1
    {
      assert CancelledOnce(s, id);
    }
  }

  lemma ClosedStays(y: System, a: Action, i: nat)
    requires Inv(y) && Enabled(y, a) && i < |y.servers| && y.servers[i].loop.Closed?
    ensures var y' := Step(y, a);
            && i < |y'.servers| && y'.servers[i].loop.Closed? && |y'.servers[i].clients| == |y.servers[i].clients|
  {
    assert MessengerOK(y, i);
  }

  /** After the webserver closed, it has no subscription and never gets another one. */
  lemma {:induction false} ClosedForGood(run: seq<System>, actions: seq<Action>, messengers: nat, k: nat, l: nat,
                                         i: nat)
    requires IsRun(run, actions, messengers) && k <= l < |run| && i < |run[k].servers| && run[k].servers[i].loop.Closed?
    ensures i < |run[l].servers| && run[l].servers[i].loop.Closed?
    ensures run[l].servers[i].subs == {} && run[l].servers[i].wsConns == {}
    ensures |run[l].servers[i].clients| == |run[k].servers[i].clients|
    ensures !Enabled(run[l], Serve(i, Subscribe))
  {
    if k < l {
      ClosedForGood(run, actions, messengers, k, l - 1, i);
      RunKeeps(run, actions, messengers, l - 1);
      ClosedStays(run[l - 1], actions[l - 1], i);
    }
    RunKeeps(run, actions, messengers, l);
    ClosedIsEmpty(run[l], i);
  }

  lemma ClosedIsEmpty(y: System, i: nat)
    requires Inv(y) && i < |y.servers| && y.servers[i].loop.Closed?
    ensures y.servers[i].subs == {} && y.servers[i].wsConns == {} && y.servers[i].closing
  {
    assert MessengerOK(y, i);
  }

  // ---------------------------------------------------------------- a redundant total

  /** `y` after one action after the other. */
  ghost predicate Leads(y: System, actions: seq<Action>, y': System)
    decreases |actions|
  {
    if actions == [] then y == y' else Enabled(y, actions[0]) && Leads(Step(y, actions[0]), actions[1..], y')
  }

  lemma {:induction false} LeadsRun(run: seq<System>, actions: seq<Action>, more: seq<Action>, y': System,
                                    messengers: nat)
    returns (run': seq<System>)
    requires IsRun(run, actions, messengers) && Leads(run[|run| - 1], more, y')
    ensures IsRun(run', actions + more, messengers) && run'[|run'| - 1] == y'
    decreases |more|
  {
    if more == [] {
      run' := run;
      assert actions + more == actions;
    } else {
      run' := LeadsRun(run + [Step(run[|run| - 1], more[0])], actions + [more[0]], more[1..], y', messengers);
      assert actions + [more[0]] + more[1..] == actions + more;
    }
  }

  lemma OneAction(y: System, a: Action, y': System)
    requires Enabled(y, a) && y' == Step(y, a)
    ensures Leads(y, [a], y')
  {
    assert [a][1..] == [];
  }

  lemma {:induction false} LeadsOn(y: System, a: seq<Action>, y1: System, b: seq<Action>, y2: System)
    requires Leads(y, a, y1) && Leads(y1, b, y2)
    ensures Leads(y, a + b, y2)
    decreases |a|
  {
    if a == [] {
      assert a + b == b;
    } else {
      LeadsOn(Step(y, a[0]), a[1..], y1, b, y2);
      assert (a + b)[1..] == a[1..] + b;
    }
  }

  /** One webserver with the given parts, after two updates of which the second is on
      the board and not delivered yet. */
  function Scene(inbox: seq<nat>, loop: Loop, fanned: seq<nat>, clients: seq<Client>): System {
    System([[], []], 2, Delivering({0}), false,
           [Server(inbox, false, loop, fanned, Everyone(|clients|), Everyone(|clients|),
                   |clients|, false, clients, {})])
  }

  lemma TwoUpdates() returns (actions: seq<Action>)
    ensures Leads(Initial(1), actions, Scene([1], Idle, [], []))
  {
    var y0 := Initial(1);
    assert y0.servers == [FRESH];
    var y1 := System([[]], 0, Fed, false, [FRESH]);
    var y2 := System([[]], 1, Delivering({0}), false, [FRESH]);
    var got := FRESH.(inbox := [1]);
    var y3 := System([[]], 1, Delivering({}), false, [got]);
    var y4 := System([[]], 1, Waiting, false, [got]);
    var y5 := System([[], []], 1, Fed, false, [got]);
    assert Everyone(1) == {0};
    OneAction(y0, Feed([]), y1);
    OneAction(y1, SetBoard, y2);
    LeadsOn(y0, [Feed([])], y1, [SetBoard], y2);
    assert {0} - {0} == {} && [] + [1] == [1] && [FRESH][0 := got] == [got];
    OneAction(y2, Deliver(0), y3);
    LeadsOn(y0, [Feed([])] + [SetBoard], y2, [Deliver(0)], y3);
    OneAction(y3, EndDelivery, y4);
    LeadsOn(y0, [Feed([])] + [SetBoard] + [Deliver(0)], y3, [EndDelivery], y4);
    OneAction(y4, Feed([]), y5);
    LeadsOn(y0, [Feed([])] + [SetBoard] + [Deliver(0)] + [EndDelivery], y4, [Feed([])], y5);
    OneAction(y5, SetBoard, Scene([1], Idle, [], []));
    actions := [Feed([])] + [SetBoard] + [Deliver(0)] + [EndDelivery] + [Feed([])] + [SetBoard];
    LeadsOn(y0, [Feed([])] + [SetBoard] + [Deliver(0)] + [EndDelivery] + [Feed([])], y5, [SetBoard],
            Scene([1], Idle, [], []));
  }

  /** A step of the only webserver of a scene, compared field by field. */
  lemma Serves(y: System, a: ServerAction, y': System)
    requires |y.servers| == 1 && ServerEnabled(y.servers[0], a) && |y'.servers| == 1 && y' == y.(servers := y'.servers)
    requires var s, s' := ServerStep(y.board, y.servers[0], a), y'.servers[0];
             && s'.inbox == s.inbox && s'.inputClosed == s.inputClosed && s'.loop == s.loop && s'.fanned == s.fanned
             && s'.subs == s.subs && s'.wsConns == s.wsConns && s'.nextSubID == s.nextSubID && s'.closing == s.closing
             && s'.clients == s.clients && s'.leaving == s.leaving
    ensures Leads(y, [Serve(0, a)], y')
  {
    assert y'.servers == y.servers[0 := ServerStep(y.board, y.servers[0], a)];
    OneAction(y, Serve(0, a), y');
  }

  /** A client joins and sends its snapshot. */
  lemma JoinsAndSnapshots() returns (actions: seq<Action>)
    ensures Leads(Scene([1], Idle, [], []), actions,
                  Scene([1], Idle, [], [Client(0, [], [], [], Streaming, 2, [2], 0)]))
  {
    var c1 := Client(0, [], [], [], Registered, 0, [], 0);
    var c2 := Client(0, [], [], [], HasBoard, 2, [], 0);
    var c3 := Client(0, [], [], [], Streaming, 2, [2], 0);
    var y0, y1 := Scene([1], Idle, [], []), Scene([1], Idle, [], [c1]);
    var y2, y3 := Scene([1], Idle, [], [c2]), Scene([1], Idle, [], [c3]);
    assert {} + {0} == {0};
    assert [c1][0 := c2] == [c2] && [c2][0 := c3] == [c3];
    Serves(y0, Subscribe, y1);
    Serves(y1, ReadBoard(0), y2);
    Serves(y2, WriteSnapshot(0), y3);
    LeadsOn(y0, [Serve(0, Subscribe)], y1, [Serve(0, ReadBoard(0))], y2);
    actions := [Serve(0, Subscribe)] + [Serve(0, ReadBoard(0))] + [Serve(0, WriteSnapshot(0))];
    LeadsOn(y0, [Serve(0, Subscribe)] + [Serve(0, ReadBoard(0))], y2, [Serve(0, WriteSnapshot(0))], y3);
  }

  /** The first update reaches it only now. */
  lemma FansOutLate() returns (actions: seq<Action>)
    ensures Leads(Scene([1], Idle, [], [Client(0, [], [], [], Streaming, 2, [2], 0)]), actions,
                  Scene([], Fanning(1, {}), [1], [Client(0, [1], [1], [], Streaming, 2, [2], 0)]))
  {
    var c, c' := Client(0, [], [], [], Streaming, 2, [2], 0), Client(0, [1], [1], [], Streaming, 2, [2], 0);
    var y0, y1 := Scene([1], Idle, [], [c]), Scene([], Taken(1), [], [c]);
    var y2, y3 := Scene([], Fanning(1, {0}), [1], [c]), Scene([], Fanning(1, {}), [1], [c']);
    assert {0} - {0} == {} && [] + [1] == [1] && [c][0 := c'] == [c'];
    Serves(y0, Take, y1);
    Serves(y1, Snapshot, y2);
    Serves(y2, Offer(0), y3);
    LeadsOn(y0, [Serve(0, Take)], y1, [Serve(0, Snapshot)], y2);
    actions := [Serve(0, Take)] + [Serve(0, Snapshot)] + [Serve(0, Offer(0))];
    LeadsOn(y0, [Serve(0, Take)] + [Serve(0, Snapshot)], y2, [Serve(0, Offer(0))], y3);
  }

  lemma SendsLate() returns (actions: seq<Action>)
    ensures Leads(Scene([], Fanning(1, {}), [1], [Client(0, [1], [1], [], Streaming, 2, [2], 0)]), actions,
                  Scene([], Fanning(1, {}), [1], [Client(0, [], [1], [1], Streaming, 2, [2, 1], 0)]))
  {
    var c0, c1 := Client(0, [1], [1], [], Streaming, 2, [2], 0), Client(0, [], [1], [1], Writing, 2, [2], 0);
    var c2 := Client(0, [], [1], [1], Streaming, 2, [2, 1], 0);
    var y0, y1 := Scene([], Fanning(1, {}), [1], [c0]), Scene([], Fanning(1, {}), [1], [c1]);
    var y2 := Scene([], Fanning(1, {}), [1], [c2]);
    assert [1][1..] == [] && [] + [1] == [1] && [2] + [1] == [2, 1];
    assert [c0][0 := c1] == [c1] && [c1][0 := c2] == [c2];
    Serves(y0, TakeUpdate(0), y1);
    Serves(y1, WriteUpdate(0), y2);
    actions := [Serve(0, TakeUpdate(0))] + [Serve(0, WriteUpdate(0))];
    LeadsOn(y0, [Serve(0, TakeUpdate(0))], y1, [Serve(0, WriteUpdate(0))], y2);
  }

  /** The redundancy is real: some run sends the total of version 1 after a snapshot of
      version 2. */
  lemma OlderTotalMayFollow() returns (run: seq<System>, actions: seq<Action>)
    ensures IsRun(run, actions, 1)
    ensures var y := run[|run| - 1];
            && !y.shutdown && y.servers != [] && y.servers[0].clients != []
            && y.servers[0].clients[0].sent == [2, 1]
  {
    var y1, y2 := Scene([1], Idle, [], []), Scene([1], Idle, [], [Client(0, [], [], [], Streaming, 2, [2], 0)]);
    var y3 := Scene([], Fanning(1, {}), [1], [Client(0, [1], [1], [], Streaming, 2, [2], 0)]);
    var y4 := Scene([], Fanning(1, {}), [1], [Client(0, [], [1], [1], Streaming, 2, [2, 1], 0)]);
    var a := TwoUpdates();
    var b := JoinsAndSnapshots();
    var c := FansOutLate();
    var d := SendsLate();
    LeadsOn(Initial(1), a, y1, b, y2);
    LeadsOn(Initial(1), a + b, y2, c, y3);
    LeadsOn(Initial(1), a + b + c, y3, d, y4);
    actions := a + b + c + d;
    run := LeadsRun([Initial(1)], [], actions, y4, 1);
    assert [] + actions == actions;
  }
}
