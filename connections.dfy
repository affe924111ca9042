/**
 * The server's WebSocket connection manager: which browser connections
 * follow one task's stream and which follow every event, and the broadcast
 * that fans an event out to them and forgets the connections it could not
 * reach.
 */
module Connections {
  import Seqs
  import Json

  /** A WebSocket connection, known by identity only. */
  type Socket = nat

  /** The subscribers of one task: `task_connections.get(task_id, [])`. */
  function Subscribers(m: map<nat, seq<Socket>>, taskId: nat): seq<Socket> {
    if taskId in m then m[taskId] else []
  }

  /** `task_connections.setdefault(task_id, []).append(ws)` */
  function Connected(m: map<nat, seq<Socket>>, taskId: nat, ws: Socket): (r: map<nat, seq<Socket>>)
    ensures taskId in r
    ensures forall k :: k != taskId ==> Subscribers(r, k) == Subscribers(m, k)
  {
    m[taskId := Subscribers(m, taskId) + [ws]]
  }

  /** `disconnect_task`: the first occurrence of `ws` leaves the task's list; no key is created. */
  function Disconnected(m: map<nat, seq<Socket>>, taskId: nat, ws: Socket): (r: map<nat, seq<Socket>>)
    ensures r.Keys == m.Keys
    ensures forall k :: k != taskId ==> Subscribers(r, k) == Subscribers(m, k)
  {
    if taskId in m && ws in m[taskId] then m[taskId := Seqs.Remove(m[taskId], ws)] else m
  }

  /** What a broadcast leaves of the task lists: the task's failing sockets are dropped. */
  function Pruned(m: map<nat, seq<Socket>>, taskId: nat, sendOk: Socket -> bool): (r: map<nat, seq<Socket>>)
    ensures r.Keys == m.Keys
  {
    if taskId in m then m[taskId := Seqs.Filter(sendOk, m[taskId])] else m
  }

  /** The dict a broadcast serialises: `{"task_id", "event_type", "payload"}`. */
  function EventMessage(taskId: nat, eventType: string, payload: Json.Value): Json.Value {
    Json.Obj([("task_id", Json.Num(taskId)), ("event_type", Json.Str(eventType)), ("payload", payload)])
  }

  /**
   * The WebSocket subscriptions: per-task lists and the list of global event
   * subscribers.  Sending is the oracle `sendOk`: a socket whose send raises
   * is the one for which it is false.
   */
  class ConnectionManager {
    var taskConnections: map<nat, seq<Socket>>
    var eventConnections: seq<Socket>

    constructor ()
      ensures taskConnections == map[] && eventConnections == []
    {
      taskConnections := map[];
      eventConnections := [];
    }

    method ConnectTask(ws: Socket, taskId: nat)
      modifies this
      ensures taskConnections == Connected(old(taskConnections), taskId, ws)
      ensures eventConnections == old(eventConnections)
    {
      taskConnections := taskConnections[taskId := Subscribers(taskConnections, taskId) + [ws]];
    }

    method ConnectEvents(ws: Socket)
      modifies this
      ensures eventConnections == old(eventConnections) + [ws]
      ensures taskConnections == old(taskConnections)
    {
      eventConnections := eventConnections + [ws];
    }

    method DisconnectTask(ws: Socket, taskId: nat)
      modifies this
      ensures taskConnections == Disconnected(old(taskConnections), taskId, ws)
      ensures eventConnections == old(eventConnections)
    {
      var conns := Subscribers(taskConnections, taskId);
      if ws in conns {
        taskConnections := taskConnections[taskId := Seqs.Remove(conns, ws)];
      }
    }

    method DisconnectEvents(ws: Socket)
      modifies this
      ensures eventConnections == Seqs.Remove(old(eventConnections), ws)
      ensures taskConnections == old(taskConnections)
    {
      if ws in eventConnections {
        eventConnections := Seqs.Remove(eventConnections, ws);
      }
    }

    /**
     * `broadcast`: the message goes to a copy of the task's list and then to
     * a copy of the event list; a socket whose send fails is removed (its
     * first occurrence) from the live list.  `delivered` is every socket the
     * message reached, in sending order.
     */
    method Broadcast(taskId: nat, eventType: string, payload: Json.Value,
                     dumps: Json.Value -> string, sendOk: Socket -> bool)
      returns (msg: string, delivered: seq<Socket>)
      modifies this
      ensures msg == dumps(EventMessage(taskId, eventType, payload))
      ensures taskConnections == Pruned(old(taskConnections), taskId, sendOk)
      ensures eventConnections == Seqs.Filter(sendOk, old(eventConnections))
      ensures delivered == Seqs.Filter(sendOk, Subscribers(old(taskConnections), taskId))
                           + Seqs.Filter(sendOk, old(eventConnections))
    {
      msg := dumps(EventMessage(taskId, eventType, payload));
      var toTask := SendToTask(taskId, sendOk);
      var toEvents := SendToEvents(sendOk);
      delivered := toTask + toEvents;
    }

    /** The first half of a broadcast: the task's own subscribers. */
    method SendToTask(taskId: nat, sendOk: Socket -> bool) returns (delivered: seq<Socket>)
      modifies this`taskConnections
      ensures taskConnections == Pruned(old(taskConnections), taskId, sendOk)
      ensures delivered == Seqs.Filter(sendOk, Subscribers(old(taskConnections), taskId))
    {
      delivered := [];
      if taskId !in taskConnections {
        // `get(task_id, [])` is empty: there is no one to send to.
        return;
      }
      var conns := taskConnections[taskId];
      assert conns[..0] == [] && [] + conns[0..] == conns;
      assert taskConnections[taskId := conns] == taskConnections;
      var i := 0;
      while i < |conns|
        invariant 0 <= i <= |conns|
        invariant delivered == Seqs.Filter(sendOk, conns[..i])
        invariant taskConnections == old(taskConnections)[taskId := delivered + conns[i..]]
      {
        StepFilter(sendOk, conns, i, taskConnections[taskId]);
        var ws := conns[i];
        if sendOk(ws) {
          delivered := delivered + [ws];
        } else {
          taskConnections := taskConnections[taskId := Seqs.Remove(taskConnections[taskId], ws)];
        }
        i := i + 1;
      }
      assert conns[..i] == conns && delivered + conns[i..] == delivered;
    }

    /** The second half of a broadcast: the global event subscribers. */
    method SendToEvents(sendOk: Socket -> bool) returns (delivered: seq<Socket>)
      modifies this`eventConnections
      ensures eventConnections == Seqs.Filter(sendOk, old(eventConnections))
      ensures delivered == Seqs.Filter(sendOk, old(eventConnections))
    {
      var events := eventConnections;
      assert events[..0] == [];
      delivered := [];
      var j := 0;
      while j < |events|
        invariant 0 <= j <= |events|
        invariant delivered == Seqs.Filter(sendOk, events[..j])
        invariant eventConnections == delivered + events[j..]
      {
        StepFilter(sendOk, events, j, eventConnections);
        var ws := events[j];
        if sendOk(ws) {
          delivered := delivered + [ws];
        } else {
          eventConnections := Seqs.Remove(eventConnections, ws);
        }
        j := j + 1;
      }
      assert events[..j] == events;
    }
  }

  /**
   * One step of a walk over a copy `xs` of a live list that holds the kept
   * prefix followed by the unvisited rest: a socket that fails is removed
   * from the live list, one that succeeds is kept.
   */
  lemma StepFilter(p: Socket -> bool, xs: seq<Socket>, i: nat, live: seq<Socket>)
    requires i < |xs|
    requires live == Seqs.Filter(p, xs[..i]) + xs[i..]
    ensures p(xs[i]) ==>
      live == Seqs.Filter(p, xs[..i + 1]) + xs[i + 1..] && Seqs.Filter(p, xs[..i + 1]) == Seqs.Filter(p, xs[..i]) + [xs[i]]
    ensures !p(xs[i]) ==>
      Seqs.Remove(live, xs[i]) == Seqs.Filter(p, xs[..i + 1]) + xs[i + 1..] && Seqs.Filter(p, xs[..i + 1]) == Seqs.Filter(p, xs[..i])
  {
    var f := Seqs.Filter(p, xs[..i]);
    assert xs[..i + 1] == xs[..i] + [xs[i]];
    Seqs.FilterAppend(p, xs[..i], [xs[i]]);
    assert Seqs.Filter(p, [xs[i]]) == (if p(xs[i]) then [xs[i]] else []) by {
      assert [xs[i]][1..] == [];
    }
    assert f + [] == f;
    assert xs[i..] == [xs[i]] + xs[i + 1..];
    if p(xs[i]) {
      assert f + [xs[i]] + xs[i + 1..] == f + xs[i..];
    } else {
      Seqs.RemoveAfter(f, xs[i], xs[i + 1..]);
      assert f + xs[i..] == f + [xs[i]] + xs[i + 1..];
    }
  }

  /** Subscribing a new socket and unsubscribing it again leaves every task with the subscribers it had. */
  lemma ConnectDisconnect(m: map<nat, seq<Socket>>, taskId: nat, ws: Socket)
    requires ws !in Subscribers(m, taskId)
    ensures forall k :: Subscribers(Disconnected(Connected(m, taskId, ws), taskId, ws), k) == Subscribers(m, k)
  {
    var a := Subscribers(m, taskId);
    Seqs.RemoveAfter(a, ws, []);
    assert a + [ws] + [] == a + [ws];
    assert a + [] == a;
  }

  /**
   * After a broadcast a task's subscribers are exactly its old subscribers
   * that the send reached; other tasks keep theirs.
   */
  lemma BroadcastPrunesFailures(m: map<nat, seq<Socket>>, taskId: nat, sendOk: Socket -> bool)
    ensures forall ws :: ws in Subscribers(Pruned(m, taskId, sendOk), taskId) <==> ws in Subscribers(m, taskId) && sendOk(ws)
    ensures forall k :: k != taskId ==> Subscribers(Pruned(m, taskId, sendOk), k) == Subscribers(m, k)
  {
    Seqs.FilterMembers(sendOk, Subscribers(m, taskId));
  }

  /** When every send succeeds, a broadcast leaves the subscriptions as they were. */
  lemma BroadcastAllDelivered(m: map<nat, seq<Socket>>, taskId: nat, sendOk: Socket -> bool)
    requires forall ws :: sendOk(ws)
    ensures Pruned(m, taskId, sendOk) == m
  {
    if taskId in m {
      Seqs.FilterKeepsAll(sendOk, m[taskId]);
    }
  }

}
