/**
 * The listener registry: each session maps to the set of clients that
 * follow its updates. Broadcasting sends one serialised payload to a
 * snapshot of the session's listeners and prunes those whose send failed.
 */
module Streaming {
  import opened Common
  import opened Schemas

  /** A connected client, known only by its identity. */
  datatype Listener = Listener(id: nat)

  type Registry = map<SessionId, set<Listener>>

  /** The JSON object a listener receives. */
  type Payload = map<string, Value>

  const PAYLOAD_TYPE: string := "agent_update"

  /** The wire form of an update: its kind's wire value, content, timestamp and metadata under a fixed type tag. */
  function Serialize(u: AgentUpdate): (p: Payload)
    ensures p.Keys == {"type", "update_type", "content", "timestamp", "metadata"}
    ensures p["type"] == VStr(PAYLOAD_TYPE)
  {
    map["type" := VStr(PAYLOAD_TYPE),
        "update_type" := VStr(u.updateType.Wire()),
        "content" := VStr(u.content),
        "timestamp" := VStr(u.timestamp),
        "metadata" := VObj(u.metadata)]
  }

  /** How a client reads a payload back; anything but a well-formed update payload gives nothing. */
  function Deserialize(p: Payload): (r: Option<AgentUpdate>)
    ensures r.Some? ==> p == Serialize(r.value)
  {
    if p.Keys == {"type", "update_type", "content", "timestamp", "metadata"}
       && p["type"] == VStr(PAYLOAD_TYPE)
       && p["update_type"].VStr? && ParseUpdateType(p["update_type"].s).Some?
       && p["content"].VStr? && p["timestamp"].VStr? && p["metadata"].VObj?
    then Some(AgentUpdate(ParseUpdateType(p["update_type"].s).value, p["content"].s, p["timestamp"].s, p["metadata"].fields))
    else None
  }

  /** Serialisation loses nothing: a client recovers the exact update. */
  lemma PayloadRoundTrip(u: AgentUpdate)
    ensures Deserialize(Serialize(u)) == Some(u)
  {
    UpdateTypeRoundTrip(u.updateType);
  }

  /** One attempted send: to whom, what, and whether it went through. */
  datatype Send = Send(to: Listener, payload: Payload, delivered: bool)

  /** `connections.get(session_id, [])` as a set. */
  function ClientsOf(m: Registry, sid: SessionId): set<Listener> {
    if sid in m then m[sid] else {}
  }

  /** Every session entry has at least one listener. */
  ghost predicate NoEmptyEntries(m: Registry) {
    forall s :: s in m ==> m[s] != {}
  }

  /** Some session of a non-empty registry. */
  ghost function Pick(m: Registry): (s: SessionId)
    requires |m| > 0
    ensures s in m
  {
    assert m.Keys != {};
    var s :| s in m; s
  }

  /** The number of listeners over all sessions. */
  ghost function TotalSize(m: Registry): nat
    decreases |m|
  {
    if |m| == 0 then 0
    else |m[Pick(m)]| + TotalSize(m - {Pick(m)})
  }

  /** The total does not depend on which session is counted first. */
  lemma {:induction false} TotalSizeRemove(m: Registry, s: SessionId)
    requires s in m
    ensures TotalSize(m) == |m[s]| + TotalSize(m - {s})
    decreases |m|
  {
    var t := Pick(m);
    if t != s {
      assert |m - {t}| < |m|;
      TotalSizeRemove(m - {t}, s);
      TotalSizeRemove(m - {s}, t);
      assert m - {t} - {s} == m - {s} - {t};
    }
  }

  /** Removing one session's entry drops its listeners from the total. */
  lemma TotalSizeDelete(m: Registry, s: SessionId)
    ensures TotalSize(m - {s}) + |ClientsOf(m, s)| == TotalSize(m)
  {
    if s in m {
      TotalSizeRemove(m, s);
    } else {
      assert m - {s} == m;
    }
  }

  /** Replacing one session's set changes the total by the difference in size. */
  lemma TotalSizeUpdate(m: Registry, s: SessionId, v: set<Listener>)
    ensures TotalSize(m[s := v]) + |ClientsOf(m, s)| == TotalSize(m) + |v|
  {
    var updated := m[s := v];
    TotalSizeRemove(updated, s);
    assert updated - {s} == m - {s};
    TotalSizeDelete(m, s);
  }

  lemma AddOneSize(s: set<Listener>, x: Listener)
    ensures |s + {x}| == |s| + (if x in s then 0 else 1)
  {
    if x in s {
      assert s + {x} == s;
    } else {
      assert s !! {x};
    }
  }

  /** The registry after a broadcast to `sid` in which the sends to `failing` raised. */
  function AfterBroadcast(m: Registry, sid: SessionId, failing: set<Listener>): (r: Registry)
    ensures r.Keys == m.Keys
    ensures forall s :: s in m && s != sid ==> r[s] == m[s]
    ensures sid in m ==> r[sid] == m[sid] - failing
  {
    if sid in m then m[sid := m[sid] - failing] else m
  }

  /**
   * Pruning after a broadcast keeps a session's entry even when every
   * listener failed, unlike unregistering: a registry with no empty entry
   * can gain one.
   */
  lemma BroadcastCanLeaveEmptyEntry()
    ensures var m := map["s" := {Listener(0)}];
            && NoEmptyEntries(m)
            && !NoEmptyEntries(AfterBroadcast(m, "s", {Listener(0)}))
  {
    var m := map["s" := {Listener(0)}];
    assert AfterBroadcast(m, "s", {Listener(0)})["s"] == {};
  }

  /**
   * The broadcast as written: the update record declares no `metadata`
   * field, so building the payload raises before any send whenever the
   * session has an entry, and the caller sees the error.
   */
  function BroadcastAsWritten(m: Registry, sid: SessionId, update: AgentUpdate): (r: Result<seq<Send>, ServiceError>)
    ensures sid !in m ==> r == Ok([])
    ensures sid in m ==> r.Err? && r.error == AttributeMissing("metadata")
    ensures r.Ok? ==> r.value == []
  {
    if sid !in m then Ok([]) else Err(AttributeMissing("metadata"))
  }

  /**
   * As written, a session with a listener receives nothing from a
   * broadcast, though it is the one case the broadcast exists for; the
   * intended broadcast sends to every listener the session has.
   */
  lemma BroadcastAsWrittenSendsNothing(l: Listener, u: AgentUpdate)
    ensures var m := map["s" := {l}];
            && ClientsOf(m, "s") == {l}
            && BroadcastAsWritten(m, "s", u) == Err(AttributeMissing("metadata"))
            && BroadcastAsWritten(m - {"s"}, "s", u) == Ok([])
  {
  }

  /** The recipients of a sequence of sends. */
  function Recipients(sends: seq<Send>): (r: set<Listener>)
    ensures forall i :: 0 <= i < |sends| ==> sends[i].to in r
    ensures forall l :: l in r ==> exists i :: 0 <= i < |sends| && sends[i].to == l
  {
    if sends == [] then {} else Recipients(sends[..|sends| - 1]) + {sends[|sends| - 1].to}
  }

  /**
   * Sends the payload to each of a snapshot of listeners once, in some
   * order; the sends to `failing` raise, and those listeners are collected
   * as disconnected.
   */
  method SendAll(clients: set<Listener>, payload: Payload, failing: set<Listener>)
    returns (sends: seq<Send>, disconnected: seq<Listener>)
    ensures Recipients(sends) == clients
    ensures forall i, j :: 0 <= i < j < |sends| ==> sends[i].to != sends[j].to
    ensures forall i :: 0 <= i < |sends| ==> sends[i].payload == payload
    ensures forall i :: 0 <= i < |sends| ==> (sends[i].delivered <==> sends[i].to !in failing)
    ensures forall l :: l in disconnected <==> l in clients && l in failing
  {
    sends := [];
    disconnected := [];
    var remaining := clients;
    while remaining != {}
      invariant remaining <= clients
      invariant Recipients(sends) == clients - remaining
      invariant forall i, j :: 0 <= i < j < |sends| ==> sends[i].to != sends[j].to
      invariant forall i :: 0 <= i < |sends| ==> sends[i].payload == payload
      invariant forall i :: 0 <= i < |sends| ==> (sends[i].delivered <==> sends[i].to !in failing)
      invariant forall l :: l in disconnected <==> l in clients - remaining && l in failing
      decreases remaining
    {
      var l :| l in remaining;
      var ok := l !in failing;
      assert (sends + [Send(l, payload, ok)])[..|sends|] == sends;
      sends := sends + [Send(l, payload, ok)];
      if !ok {
        disconnected := disconnected + [l];
      }
      remaining := remaining - {l};
    }
  }

  class StreamHandler {
    var connections: Registry

    constructor ()
      ensures connections == map[]
    {
      connections := map[];
    }

    /**
     * Adds the listener to the session, creating the entry if needed. Every
     * other session is unchanged, no entry becomes empty, and the total
     * grows by one unless the listener was already there.
     */
    method RegisterClient(sid: SessionId, listener: Listener)
      modifies this
      ensures connections == old(connections)[sid := ClientsOf(old(connections), sid) + {listener}]
      ensures NoEmptyEntries(old(connections)) ==> NoEmptyEntries(connections)
      ensures TotalSize(connections)
              == TotalSize(old(connections)) + (if listener in ClientsOf(old(connections), sid) then 0 else 1)
    {
      var before := ClientsOf(connections, sid);
      connections := connections[sid := before + {listener}];
      AddOneSize(before, listener);
      TotalSizeUpdate(old(connections), sid, before + {listener});
    }

    /**
     * Removes the listener from the session and deletes the entry once it
     * is empty; an unknown session is left alone. No entry becomes empty,
     * and the total drops by one exactly when the listener was registered.
     */
    method UnregisterClient(sid: SessionId, listener: Listener)
      modifies this
      ensures sid !in old(connections) ==> connections == old(connections)
      ensures sid in old(connections) && old(connections)[sid] - {listener} == {} ==>
                connections == old(connections) - {sid}
      ensures sid in old(connections) && old(connections)[sid] - {listener} != {} ==>
                connections == old(connections)[sid := old(connections)[sid] - {listener}]
      ensures NoEmptyEntries(old(connections)) ==> NoEmptyEntries(connections)
      ensures TotalSize(connections)
              == TotalSize(old(connections)) - (if listener in ClientsOf(old(connections), sid) then 1 else 0)
    {
      if sid in connections {
        var rest := connections[sid] - {listener};
        if rest == {} {
          var before := connections[sid];
          assert before <= {listener};
          assert |before| == if listener in before then 1 else 0 by {
            if listener in before {
              assert before == {listener};
            } else {
              assert before == {};
            }
          }
          connections := connections - {sid};
          TotalSizeDelete(old(connections), sid);
        } else {
          connections := connections[sid := rest];
          TotalSizeUpdate(old(connections), sid, rest);
        }
      }
    }

    /**
     * Sends the serialised update to each listener the session had when the
     * broadcast began, once each, then removes exactly the listeners whose
     * send failed (`failing`), keeping the entry even if it empties. A
     * session with no entry gets nothing; other sessions never change.
     */
    method BroadcastUpdate(sid: SessionId, update: AgentUpdate, failing: set<Listener>) returns (sends: seq<Send>)
      modifies this
      ensures sid !in old(connections) ==> sends == [] && connections == old(connections)
      ensures Recipients(sends) == ClientsOf(old(connections), sid)
      ensures forall i, j :: 0 <= i < j < |sends| ==> sends[i].to != sends[j].to
      ensures forall i :: 0 <= i < |sends| ==> sends[i].payload == Serialize(update)
      ensures forall i :: 0 <= i < |sends| ==> (sends[i].delivered <==> sends[i].to !in failing)
      ensures connections == AfterBroadcast(old(connections), sid, failing)
    {
      sends := [];
      if sid !in connections {
        return;
      }
      var clients := connections[sid];
      var disconnected;
      sends, disconnected := SendAll(clients, Serialize(update), failing);
      PruneDisconnected(sid, disconnected);
      assert connections[sid] == clients - failing;
    }

    /** Removes each disconnected listener from the session's set, one at a time. */
    method PruneDisconnected(sid: SessionId, disconnected: seq<Listener>)
      modifies this`connections
      requires sid in connections
      ensures connections.Keys == old(connections).Keys
      ensures forall s :: s in connections && s != sid ==> connections[s] == old(connections)[s]
      ensures forall l :: l in connections[sid] <==> l in old(connections)[sid] && l !in disconnected
    {
      var j := 0;
      while j < |disconnected|
        invariant 0 <= j <= |disconnected|
        invariant sid in connections && connections.Keys == old(connections).Keys
        invariant forall s :: s in connections && s != sid ==> connections[s] == old(connections)[s]
        invariant forall l :: l in connections[sid] <==> l in old(connections)[sid] && l !in disconnected[..j]
      {
        if sid in connections {
          connections := connections[sid := connections[sid] - {disconnected[j]}];
        }
        assert disconnected[..j + 1] == disconnected[..j] + [disconnected[j]];
        j := j + 1;
      }
      assert disconnected[..j] == disconnected;
    }

    /** Broadcasts a progress notice: a Thinking update whose metadata names the status. */
    method SendStatus(sid: SessionId, status: string, message: string, now: Timestamp, failing: set<Listener>)
      returns (sends: seq<Send>)
      modifies this
      ensures Recipients(sends) == ClientsOf(old(connections), sid)
      ensures forall i :: 0 <= i < |sends| ==>
                Deserialize(sends[i].payload) == Some(AgentUpdate(Thinking, message, now, map["status" := VStr(status)]))
      ensures connections == AfterBroadcast(old(connections), sid, failing)
    {
      var update := AgentUpdate(Thinking, message, now, map["status" := VStr(status)]);
      PayloadRoundTrip(update);
      sends := BroadcastUpdate(sid, update, failing);
    }

    /** Broadcasts an error notice: an Error update flagged `error: True`. */
    method SendError(sid: SessionId, errorMessage: string, now: Timestamp, failing: set<Listener>)
      returns (sends: seq<Send>)
      modifies this
      ensures Recipients(sends) == ClientsOf(old(connections), sid)
      ensures forall i :: 0 <= i < |sends| ==>
                Deserialize(sends[i].payload) == Some(AgentUpdate(Error, errorMessage, now, map["error" := VBool(true)]))
      ensures connections == AfterBroadcast(old(connections), sid, failing)
    {
      var update := AgentUpdate(Error, errorMessage, now, map["error" := VBool(true)]);
      PayloadRoundTrip(update);
      sends := BroadcastUpdate(sid, update, failing);
    }

    /** The number of listeners following one session: 0 when it has no entry, never more than the total. */
    function GetClientCount(sid: SessionId): (n: nat)
      reads this
      ensures sid !in connections ==> n == 0
      ensures sid in connections ==> n == |connections[sid]|
      ensures n <= TotalSize(connections)
    {
      TotalSizeDelete(connections, sid);
      |ClientsOf(connections, sid)|
    }

    /** The number of listeners over all sessions. */
    method GetTotalConnections() returns (n: nat)
      ensures n == TotalSize(connections)
    {
      n := 0;
      var rest := connections;
      while |rest| != 0
        invariant n + TotalSize(rest) == TotalSize(connections)
        decreases |rest|
      {
        var s :| s in rest;
        TotalSizeRemove(rest, s);
        n := n + |rest[s]|;
        rest := rest - {s};
      }
    }
  }
}
