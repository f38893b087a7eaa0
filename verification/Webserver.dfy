/** The webserver's registry of subscriptions and its fan-out loop, on the shared
    channels and connections themselves. Each method is one uninterrupted execution of
    steps of the machine in `Publication`, where they may be interleaved with others. */
module Webserver {
  import opened Publication

  /** A subscription's channel. */
  class Queue {
    ghost const subID: nat
    var items: seq<nat>

    constructor (ghost subID: nat)
      ensures items == [] && this.subID == subID
    {
      this.subID := subID;
      items := [];
    }
  }

  /** A connection; `cancels` counts the calls of its cancel function. */
  class Conn {
    var subID: nat
    var cancels: nat

    constructor ()
      ensures cancels == 0
    {
      subID, cancels := 0, 0;
    }
  }

  /** The non-blocking send. */
  method SendNotificationToSubscriber(ch: Queue, notif: nat) returns (ok: bool)
    modifies ch`items
    ensures ok <==> |old(ch.items)| < SUBSCRIBER_QUEUE
    ensures ch.items == if ok then old(ch.items) + [notif] else old(ch.items)
  {
    ok := |ch.items| < SUBSCRIBER_QUEUE;
    if ok {
      ch.items := ch.items + [notif];
    }
  }

  // ---------------------------------------------------------------- the machine's steps in a row

  /** A call of `unsubscribe`: the removal and, if this call removed, the cancellation. */
  function Unsubscribing(s: Server, id: nat): Server
    requires id in s.subs ==> id < |s.clients|
  {
    var removed := ServerStep(0, s, Remove(id));
    if id in s.subs then ServerStep(0, removed, Cancel(id)) else removed
  }

  /** The loop body of the fan-out for a subscription of its snapshot. */
  function Offering(s: Server, id: nat): Server
    requires ServerEnabled(s, Offer(id))
  {
    if s.clients[id].cancels > 0 then ServerStep(0, s, Skip(id))
    else
      var offered := ServerStep(0, s, Offer(id));
      if !offered.loop.Full? then offered
      else
        var dropped := ServerStep(0, offered, DropFull);
        if id in s.subs then ServerStep(0, dropped, Cancel(id)) else dropped
  }

  /** The fan-out to `order`, one after the other, leads from `s` to `end`. */
  ghost predicate FansOut(s: Server, order: seq<nat>, end: Server)
    decreases |order|
  {
    if order == [] then end == s
    else ServerEnabled(s, Offer(order[0])) && FansOut(Offering(s, order[0]), order[1..], end)
  }

  lemma {:induction false} FansOutExtend(s: Server, order: seq<nat>, end: Server, id: nat)
    requires FansOut(s, order, end) && ServerEnabled(end, Offer(id))
    ensures FansOut(s, order + [id], Offering(end, id))
    decreases |order|
  {
    if order == [] {
      assert [id][1..] == [];
      assert order + [id] == [id];
    } else {
      FansOutExtend(Offering(s, order[0]), order[1..], end, id);
      assert (order + [id])[1..] == order[1..] + [id];
    }
  }

  /** Shutdown's loop over `order`. */
  ghost predicate ClosesEach(s: Server, order: seq<nat>, end: Server)
    decreases |order|
  {
    if order == [] then end == s
    else
      && ServerEnabled(s, CloseOne(order[0])) && (order[0] in s.subs ==> order[0] < |s.clients|)
      && ClosesEach(ClosingOne(s, order[0]), order[1..], end)
  }

  function ClosingOne(s: Server, id: nat): Server
    requires ServerEnabled(s, CloseOne(id)) && (id in s.subs ==> id < |s.clients|)
  {
    var removed := ServerStep(0, s, CloseOne(id));
    if id in s.subs then ServerStep(0, removed, Cancel(id)) else removed
  }

  lemma {:induction false} ClosesEachExtend(s: Server, order: seq<nat>, end: Server, id: nat)
    requires ClosesEach(s, order, end) && ServerEnabled(end, CloseOne(id)) && (id in end.subs ==> id < |end.clients|)
    ensures ClosesEach(s, order + [id], ClosingOne(end, id))
    decreases |order|
  {
    if order == [] {
      assert [id][1..] == [];
      assert order + [id] == [id];
    } else {
      ClosesEachExtend(ClosingOne(s, order[0]), order[1..], end, id);
      assert (order + [id])[1..] == order[1..] + [id];
    }
  }

  /** What the class must do to its fields to take the machine's step. */
  lemma UnsubscribingFields(s: Server, id: nat)
    requires s.subs == s.wsConns && (id in s.subs ==> id < |s.clients|)
    ensures var s' := Unsubscribing(s, id);
            && s'.subs == s'.wsConns == s.subs - {id} && s'.nextSubID == s.nextSubID && s'.closing == s.closing
            && s'.clients == if id in s.subs
                             then s.clients[id := s.clients[id].(cancels := s.clients[id].cancels + 1)] else s.clients
  {
  }

  lemma SubscribeFields(s: Server)
    requires s.subs == s.wsConns && !s.closing && s.nextSubID == |s.clients|
    ensures var s' := ServerStep(0, s, Publication.Subscribe);
            && s'.subs == s'.wsConns == s.subs + {s.nextSubID} && s'.nextSubID == s.nextSubID + 1
            && s'.closing == s.closing
            && |s'.clients| == |s.clients| + 1 && (forall i :: 0 <= i < |s.clients| ==> s'.clients[i] == s.clients[i])
            && s'.clients[|s.clients|].queue == [] && s'.clients[|s.clients|].cancels == 0
  {
  }

  /** A removal under another loop state leaves the registries alike. */
  lemma OfferingFields(s: Server, id: nat)
    requires ServerEnabled(s, Offer(id)) && s.subs == s.wsConns
    ensures var c, s' := s.clients[id], Offering(s, id);
            && s'.nextSubID == s.nextSubID && s'.closing == s.closing && s'.subs == s'.wsConns
            && (c.cancels > 0 ==> s'.subs == s.subs && s'.clients == s.clients)
            && (c.cancels == 0 && |c.queue| < SUBSCRIBER_QUEUE ==>
                  && s'.subs == s.subs && |s'.clients| == |s.clients|
                  && SameButQueue(s.clients, s'.clients, id, c.queue + [s.loop.version]))
            && (c.cancels == 0 && |c.queue| >= SUBSCRIBER_QUEUE ==>
                  s'.subs == Unsubscribing(s, id).subs && s'.clients == Unsubscribing(s, id).clients)
  {
  }

  lemma ClosingFields(s: Server, id: nat)
    requires ServerEnabled(s, CloseOne(id)) && s.subs == s.wsConns && (id in s.subs ==> id < |s.clients|)
    ensures var s', u := ClosingOne(s, id), Unsubscribing(s, id);
            && s'.subs == u.subs && s'.wsConns == u.wsConns && s'.nextSubID == u.nextSubID && s'.closing == u.closing
            && s'.clients == u.clients && s'.loop == Closing(s.loop.todo - {id})
  {
  }

  ghost predicate SameButQueue(clients: seq<Client>, clients': seq<Client>, id: nat, queue: seq<nat>) {
    && |clients'| == |clients|
    && (forall i :: 0 <= i < |clients| && i != id ==> clients'[i] == clients[i])
    && (id < |clients| ==> clients'[id].queue == queue && clients'[id].cancels == clients[id].cancels)
  }

  // ---------------------------------------------------------------- what a fan-out does

  lemma OfferingOther(s: Server, id: nat, j: nat)
    requires ServerEnabled(s, Offer(id)) && j != id && j < |s.clients|
    ensures var s' := Offering(s, id);
            |s'.clients| == |s.clients| && s'.clients[j] == s.clients[j] && (j in s'.subs <==> j in s.subs)
  {
  }

  /** A subscriber with room gets the notification at the end of its queue; one without
      is removed and cancelled, its queue as it was. */
  ghost predicate Offered(c: Client, c': Client, subscribed: bool, version: nat) {
    if |c.queue| < SUBSCRIBER_QUEUE then
      subscribed && c'.queue == c.queue + [version] && c'.cancels == 0
    else
      !subscribed && c'.queue == c.queue && c'.cancels == 1
  }

  lemma OfferingSelf(s: Server, id: nat)
    requires ServerEnabled(s, Offer(id)) && id in s.subs && s.clients[id].cancels == 0
    ensures var s' := Offering(s, id);
            |s'.clients| == |s.clients| && Offered(s.clients[id], s'.clients[id], id in s'.subs, s.loop.version)
  {
  }

  lemma OfferingLoop(s: Server, id: nat)
    requires ServerEnabled(s, Offer(id))
    ensures var s' := Offering(s, id);
            s'.loop == Fanning(s.loop.version, s.loop.todo - {id}) && |s'.clients| == |s.clients|
  {
  }

  /** Whatever the order of the fan-out, this is what becomes of each subscriber. */
  lemma {:induction false} FanOutOutcome(s: Server, order: seq<nat>, end: Server, id: nat)
    requires FansOut(s, order, end) && s.loop.Fanning? && id < |s.clients|
    ensures |end.clients| == |s.clients|
    ensures id !in s.loop.todo ==> end.clients[id] == s.clients[id] && (id in end.subs <==> id in s.subs)
    ensures id in order && id in s.subs && s.clients[id].cancels == 0 ==>
              Offered(s.clients[id], end.clients[id], id in end.subs, s.loop.version)
    decreases |order|
  {
    if order != [] {
      OfferingLoop(s, order[0]);
      if order[0] == id {
        if id in s.subs && s.clients[id].cancels == 0 {
          OfferingSelf(s, id);
        }
      } else {
        OfferingOther(s, order[0], id);
        assert id in order ==> id in order[1..];
      }
      FanOutOutcome(Offering(s, order[0]), order[1..], end, id);
    }
  }

  // ---------------------------------------------------------------- the registry in place

  class Webserver {
    var subs: map<nat, Queue>
    var wsConns: map<nat, Conn>
    var nextSubID: nat
    var closing: bool
    /** The channels and connections of all admitted clients, by id. */
    ghost var queues: seq<Queue>
    ghost var conns: seq<Conn>

    constructor ()
      ensures Mirrors(FRESH) && queues == [] && conns == []
    {
      subs, wsConns, nextSubID, closing := map[], map[], 0, false;
      queues, conns := [], [];
    }

    /** The registries hold admitted channels and connections under their own ids. */
    ghost predicate Valid()
      reads this, conns
    {
      && |queues| == |conns| == nextSubID && subs.Keys == wsConns.Keys
      && (forall i :: 0 <= i < nextSubID ==> queues[i].subID == i && conns[i].subID == i)
      && (forall id :: id in subs ==> id < nextSubID && subs[id] == queues[id] && wsConns[id] == conns[id])
    }

    /** The objects are in the state `s` of the machine. */
    ghost predicate Mirrors(s: Server)
      reads this, queues, conns
    {
      && Valid() && s.subs == s.wsConns == subs.Keys && s.nextSubID == |s.clients| == nextSubID && s.closing == closing
      && (forall i :: 0 <= i < nextSubID ==>
            queues[i].items == s.clients[i].queue && conns[i].cancels == s.clients[i].cancels)
    }

    /** A new channel under the next id. */
    method Register(conn: Conn) returns (id: nat, ch: Queue)
      requires Valid() && conn !in conns
      modifies this`subs, this`wsConns, this`nextSubID, this`queues, this`conns, conn`subID
      ensures Valid() && id == old(nextSubID) && nextSubID == id + 1 && fresh(ch) && ch.items == []
      ensures subs.Keys == old(subs).Keys + {id}
      ensures queues == old(queues) + [ch] && conns == old(conns) + [conn]
      ensures forall i :: 0 <= i < id ==>
                queues[i].items == old(queues[i].items) && conns[i].cancels == old(conns[i].cancels)
      ensures queues[id].items == [] && conns[id].cancels == old(conn.cancels)
    {
      id := nextSubID;
      nextSubID := nextSubID + 1;
      ch := new Queue(id);
      conn.subID := id;
      subs, wsConns := subs[id := ch], wsConns[id := conn];
      queues, conns := queues + [ch], conns + [conn];
    }

    /** Admission: refused exactly if closing; otherwise the machine's step, with the next
        id and an empty channel of its own. */
    method Subscribe(conn: Conn, ghost s: Server) returns (id: nat, ch: Queue?, ok: bool)
      requires Mirrors(s) && conn.cancels == 0 && conn !in conns
      modifies this, conn`subID
      ensures ok <==> ServerEnabled(s, Publication.Subscribe)
      ensures !ok ==> Mirrors(s) && conns == old(conns) && queues == old(queues)
      ensures ok ==>
        && Mirrors(ServerStep(0, s, Publication.Subscribe)) && id == s.nextSubID
        && ch != null && fresh(ch) && queues == old(queues) + [ch] && conns == old(conns) + [conn]
    {
      if closing {
        return 0, null, false;
      }
      id, ch := Admit(conn, s);
      ok := true;
    }

    method Admit(conn: Conn, ghost s: Server) returns (id: nat, ch: Queue)
      requires Mirrors(s) && !closing && conn.cancels == 0 && conn !in conns
      modifies this`subs, this`wsConns, this`nextSubID, this`queues, this`conns, conn`subID
      ensures Mirrors(ServerStep(0, s, Publication.Subscribe)) && id == s.nextSubID
      ensures fresh(ch) && queues == old(queues) + [ch] && conns == old(conns) + [conn]
    {
      id, ch := Register(conn);
      SubscribeFields(s);
    }

    /** Safe to call again: only the call that removes the subscription cancels it. */
    method Unsubscribe(id: nat, ghost s: Server)
      requires Mirrors(s)
      modifies this`subs, this`wsConns, (if id in wsConns then {wsConns[id]} else {})`cancels
      ensures Mirrors(Unsubscribing(s, id))
    {
      UnsubscribingFields(s, id);
      Drop(id);
    }

    /** Both registries lose the id; its connection, if it was there, is cancelled. */
    method Drop(id: nat)
      requires Valid()
      modifies this`subs, this`wsConns, (if id in wsConns then {wsConns[id]} else {})`cancels
      ensures Valid() && subs.Keys == old(subs).Keys - {id}
      ensures forall i :: 0 <= i < |conns| ==>
                conns[i].cancels == old(conns[i].cancels) + if i == id && id in old(subs) then 1 else 0
    {
      if id in subs {
        var conn := wsConns[id];
        subs, wsConns := subs - {id}, wsConns - {id};
        conn.cancels := conn.cancels + 1;
      }
    }

    /** The loop body of the fan-out, for a subscription of its snapshot; it may have been
        cancelled or removed since. */
    method Offer(id: nat, ch: Queue, conn: Conn, notif: nat, ghost s: Server)
      requires Mirrors(s) && ServerEnabled(s, Publication.Offer(id)) && s.loop.version == notif
      requires ch == queues[id] && conn == conns[id]
      modifies this`subs, this`wsConns, ch`items, conn`cancels
      ensures Mirrors(Offering(s, id))
    {
      OfferingFields(s, id);
      if conn.cancels > 0 {
        return;
      }
      var ok := SendNotificationToSubscriber(ch, notif);
      if !ok {
        Unsubscribe(id, s);
      }
    }

    /** The machine's state matters to the objects through these fields only. */
    lemma MirrorsAlike(s: Server, s': Server)
      requires Mirrors(s) && s'.subs == s.subs && s'.wsConns == s.wsConns && s'.nextSubID == s.nextSubID
      requires s'.closing == s.closing && s'.clients == s.clients
      ensures Mirrors(s')
    {
    }

    /** The fan-out's snapshot of the registries. */
    ghost predicate Snapshotted(snapshot: map<nat, Queue>, connections: map<nat, Conn>)
      reads this
    {
      && snapshot.Keys == connections.Keys
      && (forall id :: id in snapshot ==>
            id < |queues| && id < |conns| && snapshot[id] == queues[id] && connections[id] == conns[id])
    }

    /** The loop of the fan-out. */
    method OfferAll(notif: nat, snapshot: map<nat, Queue>, connections: map<nat, Conn>, ghost start: Server)
      returns (ghost order: seq<nat>, ghost end: Server)
      requires Mirrors(start) && start.loop == Fanning(notif, snapshot.Keys) && Snapshotted(snapshot, connections)
      modifies this`subs, this`wsConns, queues, conns
      ensures FansOut(start, order, end) && end.loop == Fanning(notif, {}) && Mirrors(end)
      ensures forall id :: id in snapshot ==> id in order
    {
      end, order := start, [];
      var todo := snapshot.Keys;
      while todo != {}
        invariant Mirrors(end) && end.loop == Fanning(notif, todo) && todo <= snapshot.Keys
        invariant FansOut(start, order, end)
        invariant forall id :: id in snapshot && id !in todo ==> id in order
      {
        var id :| id in todo;
        Offer(id, snapshot[id], connections[id], notif, end);
        FansOutExtend(start, order, end, id);
        OfferingLoop(end, id);
        end, order := Offering(end, id), order + [id];
        todo := todo - {id};
      }
    }

    /** One notification through the fan-out loop: the machine's steps from its snapshot
        to the end, in the arbitrary order `order` of the registry. */
    method FanOut(notif: nat, ghost s: Server) returns (ghost order: seq<nat>, ghost end: Server)
      requires Mirrors(s) && s.loop == Taken(notif)
      modifies this`subs, this`wsConns, queues, conns
      ensures FansOut(ServerStep(0, s, Snapshot), order, end) && ServerEnabled(end, EndFanOut)
      ensures Mirrors(ServerStep(0, end, EndFanOut))
      ensures forall id :: id in s.subs ==> id in order
    {
      MirrorsAlike(s, ServerStep(0, s, Snapshot));
      order, end := OfferAll(notif, subs, wsConns, ServerStep(0, s, Snapshot));
      MirrorsAlike(end, ServerStep(0, end, EndFanOut));
    }

    /** The loop body of shutdown. */
    method CloseNext(id: nat, ghost s: Server)
      requires Mirrors(s) && ServerEnabled(s, CloseOne(id))
      modifies this`subs, this`wsConns, conns
      ensures Mirrors(ClosingOne(s, id)) && ClosingOne(s, id).loop == Closing(s.loop.todo - {id})
    {
      ClosingFields(s, id);
      Unsubscribe(id, s);
      MirrorsAlike(Unsubscribing(s, id), ClosingOne(s, id));
    }

    /** The loop of shutdown. */
    method CloseAll(ghost start: Server) returns (ghost order: seq<nat>, ghost end: Server)
      requires Mirrors(start) && start.loop == Closing(wsConns.Keys)
      modifies this`subs, this`wsConns, conns
      ensures ClosesEach(start, order, end) && end.loop == Closing({}) && Mirrors(end)
    {
      end, order := start, [];
      var todo := wsConns.Keys;
      while todo != {}
        invariant Mirrors(end) && end.loop == Closing(todo)
        invariant ClosesEach(start, order, end)
      {
        var id :| id in todo;
        CloseNext(id, end);
        ClosesEachExtend(start, order, end, id);
        end, order := ClosingOne(end, id), order + [id];
        todo := todo - {id};
      }
    }

    /** Shutdown: the machine's steps until nothing is left to close. */
    method CloseWebsocketConnections(ghost s: Server) returns (ghost order: seq<nat>, ghost end: Server)
      requires Mirrors(s) && ServerEnabled(s, BeginClose)
      modifies this`subs, this`wsConns, this`closing, conns
      ensures ClosesEach(ServerStep(0, s, BeginClose), order, end) && ServerEnabled(end, EndClose)
      ensures Mirrors(ServerStep(0, end, EndClose))
    {
      closing := true;
      order, end := CloseAll(ServerStep(0, s, BeginClose));
      MirrorsAlike(end, ServerStep(0, end, EndClose));
    }
  }
}
