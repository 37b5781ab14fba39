/** Value notifications: what a subscriber sees, and what it no longer sees. */
module Subscribers {
  import opened Protocol
  import opened TreeShape
  import opened Replicas
  import opened ServerSpec
  import opened Runs
  import opened Emission
  import opened Refinement
  import opened ReplicaTheorems
  import opened Sessions
  import opened History

  ghost predicate Subscribed(s: Server, c: Conn, u: U64) {
    && c in s.table.sessionOf && u in s.nodes.listeners
    && s.table.sessionOf[c] in s.nodes.listeners[u] && s.nodes.listeners[u][s.table.sessionOf[c]] == c
  }

  ghost predicate Listening(s: Server, c: Conn, u: U64) {
    u in s.nodes.listeners && exists i :: i in s.nodes.listeners[u] && s.nodes.listeners[u][i] == c
  }

  predicate Unsubscribes(e: Event, c: Conn, u: U64) {
    e.Receive? && e.conn == c && e.message == UnsubscribeRequest(u)
  }

  predicate Subscribes(e: Event, c: Conn, u: U64) {
    e.Receive? && e.conn == c && e.message == SubscribeRequest(u)
  }

  predicate IsUpdate(p: Packet, u: U64) {
    p.message.UpdateNotification? && p.message.uuid == u
  }

  // ----- how listeners change

  /** The listeners of a vertex that lives before and after the step. */
  function ListenersAfter(s: Server, e: Event, u: U64): map<U32, Conn>
    requires u in s.nodes.listeners
  {
    if e.Receive? && e.conn in s.table.sessionOf then
      if e.message == SubscribeRequest(u) then s.nodes.listeners[u][s.table.sessionOf[e.conn] := e.conn]
      else if e.message == UnsubscribeRequest(u) then s.nodes.listeners[u] - {s.table.sessionOf[e.conn]}
      else s.nodes.listeners[u]
    else s.nodes.listeners[u]
  }

  lemma ListenersStep(s: Server, e: Event, u: U64)
    requires Invariant(s) && Admissible(s, e) && u in Step(s, e).nodes.shape
    ensures u in Step(s, e).nodes.listeners
    ensures u in s.nodes.shape ==>
              u in s.nodes.listeners && Step(s, e).nodes.listeners[u] == ListenersAfter(s, e, u)
    ensures u !in s.nodes.shape ==> Step(s, e).nodes.listeners[u] == map[]
  {
    hide WellFormed, TableInvariant, LinksInvariant, Step;
    if Creates(s, e) {
      CreateEmitsNodes(s, e);
    } else if Deletes(s, e) {
      DeleteEmitsNodes(s, e);
    } else {
      NodesStep(s, e);
      OtherListeners(s, e, u);
    }
  }

  lemma OtherListeners(s: Server, e: Event, u: U64)
    requires NodesInvariant(s.nodes) && !Creates(s, e) && !Deletes(s, e) && u in s.nodes.shape
    ensures u in Step(s, e).nodes.listeners && Step(s, e).nodes.listeners[u] == ListenersAfter(s, e, u)
  {
    if e.Receive? {
      if e.message.CreateRequest? || e.message.DeleteRequest? {
        RefusedNodes(s, e);
      } else if e.message.SubscribeRequest? || e.message.UnsubscribeRequest? {
        AskedListeners(s, e, u);
      } else {
        hide Step, Handle;
        OthersKeepNodes(s, e.conn, e.trId, e.message);
        assert Step(s, e) == Handle(s, e.conn, e.trId, e.message) by { StepReceives(s, e); }
      }
    }
  }

  lemma AskedListeners(s: Server, e: Event, u: U64)
    requires WellFormed(s.nodes.shape) && s.nodes.listeners.Keys == s.nodes.shape.Keys && u in s.nodes.shape
    requires e.Receive? && (e.message.SubscribeRequest? || e.message.UnsubscribeRequest?)
    ensures u in Step(s, e).nodes.listeners && Step(s, e).nodes.listeners[u] == ListenersAfter(s, e, u)
  {
    hide WellFormed, Subscribe, Unsubscribe;
    if e.message.SubscribeRequest? {
      SubscribeListeners(s, e.conn, e.trId, e.message.uuid, u);
    } else {
      UnsubscribeListeners(s, e.conn, e.trId, e.message.uuid, u);
    }
  }

  lemma SubscribeListeners(s: Server, c: Conn, trId: U16, uuid: U64, u: U64)
    requires s.nodes.listeners.Keys == s.nodes.shape.Keys && u in s.nodes.shape
    ensures var listeners := Subscribe(s, c, trId, uuid).nodes.listeners;
            && u in listeners
            && listeners[u] == if u == uuid && c in s.table.sessionOf
                               then s.nodes.listeners[u][s.table.sessionOf[c] := c] else s.nodes.listeners[u]
  {
    hide Send;
  }

  lemma UnsubscribeListeners(s: Server, c: Conn, trId: U16, uuid: U64, u: U64)
    requires s.nodes.listeners.Keys == s.nodes.shape.Keys && u in s.nodes.shape
    ensures var listeners := Unsubscribe(s, c, trId, uuid).nodes.listeners;
            && u in listeners
            && listeners[u] == if u == uuid && c in s.table.sessionOf
                               then s.nodes.listeners[u] - {s.table.sessionOf[c]} else s.nodes.listeners[u]
  {
    hide Send;
  }

  lemma StepReceives(s: Server, e: Event)
    requires WellFormed(s.nodes.shape) && e.Receive?
    ensures Step(s, e) == Handle(s, e.conn, e.trId, e.message)
  {
  }

  lemma SubscribedStep(s: Server, e: Event, c: Conn, u: U64)
    requires Invariant(s) && Admissible(s, e) && Subscribed(s, c, u) && u in Step(s, e).nodes.shape
    requires e != Hangup(c) && !Unsubscribes(e, c, u)
    ensures Subscribed(Step(s, e), c, u)
  {
    hide Step, WellFormed;
    TableStep(s, e);
    ListenersStep(s, e, u);
    assert SessionOwned(s.table, c);
    if e.Receive? { assert SessionOwned(s.table, e.conn); }
    if e.Hangup? { assert SessionOwned(s.table, e.conn); }
  }

  lemma NotListeningStep(s: Server, e: Event, c: Conn, u: U64)
    requires Invariant(s) && Admissible(s, e) && !Listening(s, c, u) && !Subscribes(e, c, u)
    ensures !Listening(Step(s, e), c, u)
  {
    hide Step, WellFormed, LinksInvariant;
    StepKeepsInvariant(s, e);
    if u in Step(s, e).nodes.shape {
      ListenersStep(s, e, u);
    }
  }

  /** After an answered unsubscribe request the connection no longer listens. */
  lemma UnsubscribeEndsListening(s: Server, e: Event, c: Conn, u: U64)
    requires Invariant(s) && Admissible(s, e) && Unsubscribes(e, c, u) && c in s.table.sessionOf
    ensures !Listening(Step(s, e), c, u)
  {
    hide Step, WellFormed;
    StepKeepsInvariant(s, e);
    NodesStep(s, e);
    if u in s.nodes.shape {
      ListenersStep(s, e, u);
      forall i | i in s.nodes.listeners[u] && s.nodes.listeners[u][i] == c ensures i == s.table.sessionOf[c] {
        assert ListenerKeyed(s.nodes, s.table, s.outbox.Keys, u, i);
      }
    }
  }

  // ----- what a write sends

  lemma WriteEmits(s: Server, e: Event, c: Conn, u: U64)
    requires WellFormed(s.nodes.shape) && Writes(s, e, u) && c in s.outbox
    ensures Step(s, e).outbox.Keys == s.outbox.Keys
    ensures Step(s, e).outbox[c]
         == s.outbox[c]
          + OneIf(c == e.conn, Packet(e.trId, SetValueAccept(0), Some(e.message)))
          + Repeat(Packet(NOTIFICATION, UpdateNotification(u, e.message.data), None),
                   |Aimed(ListenerTargets(ListenersOf(s.nodes, u), s.table), c)|)
  {
    hide WellFormed, ListenerTargets, Aimed;
  }

  /** A write reaches every subscriber. */
  lemma WriteReaches(s: Server, e: Event, c: Conn, u: U64)
    requires Invariant(s) && Admissible(s, e) && Writes(s, e, u) && Subscribed(s, c, u)
    ensures c in s.outbox && c in Step(s, e).outbox
    ensures exists i :: |s.outbox[c]| <= i < |Step(s, e).outbox[c]| &&
                        DataFor(Step(s, e).outbox[c][i], u) == Some(e.message.data)
  {
    hide Step, Repeat, WellFormed;
    assert SessionOwned(s.table, c);
    WriteEmits(s, e, c, u);
    var targets := ListenerTargets(ListenersOf(s.nodes, u), s.table);
    assert s.table.sessionOf[c] in Aimed(targets, c);
    var p := Packet(NOTIFICATION, UpdateNotification(u, e.message.data), None);
    RepeatHas(p, |Aimed(targets, c)|);
    var i := |s.outbox[c] + OneIf(c == e.conn, Packet(e.trId, SetValueAccept(0), Some(e.message)))|;
    assert Step(s, e).outbox[c][i] == p;
  }

  lemma RepeatHas(p: Packet, n: nat)
    requires n > 0
    ensures |Repeat(p, n)| == n && Repeat(p, n)[0] == p
  {
  }

  /** No update of `u` is sent to a connection that does not listen. */
  lemma SilentStep(s: Server, e: Event, c: Conn, u: U64, i: nat)
    requires Invariant(s) && Admissible(s, e) && !Listening(s, c, u)
    requires |Stream(s, c)| <= i < |Stream(Step(s, e), c)|
    ensures !IsUpdate(Stream(Step(s, e), c)[i], u)
  {
    hide Step, WellFormed;
    StreamsGrow(s, e, c);
    if Creates(s, e) { CreateEmits(s, e, c); }
    else if Deletes(s, e) { DeleteEmits(s, e, c); }
    else if Writes(s, e, u) {
      WriteEmits(s, e, c, u);
      assert Aimed(ListenerTargets(ListenersOf(s.nodes, u), s.table), c) == {};
    } else {
      OnlyWritesNotify(s, e, c, u, i);
    }
  }

  lemma OnlyWritesNotify(s: Server, e: Event, c: Conn, u: U64, i: nat)
    requires Invariant(s) && Admissible(s, e) && !Creates(s, e) && !Deletes(s, e) && !Writes(s, e, u)
    requires |Stream(s, c)| <= i < |Stream(Step(s, e), c)|
    ensures !IsUpdate(Stream(Step(s, e), c)[i], u)
  {
    if e.Receive? {
      if e.message.SetValueRequest? {
        hide WellFormed, ListenerTargets, Aimed;
      } else if e.message.CreateRequest? || e.message.DeleteRequest? {
        hide WellFormed, Broadcast, Insert, Remove;
      } else if e.message.RpcRequest? || e.message.RpcAccept? || e.message.RpcReject? {
        ForwardingNotifiesNobody(s, e, c, u, i);
      } else {
        RepliesNotifyNobody(s, e, c, u, i);
      }
    }
  }

  lemma ForwardingNotifiesNobody(s: Server, e: Event, c: Conn, u: U64, i: nat)
    requires WellFormed(s.nodes.shape) && e.Receive?
    requires e.message.RpcRequest? || e.message.RpcAccept? || e.message.RpcReject?
    requires |Stream(s, c)| <= i < |Stream(Step(s, e), c)|
    ensures !IsUpdate(Stream(Step(s, e), c)[i], u)
  {
    hide WellFormed, Create, Delete, SetValue, TreeInfo, Get, Subscribe, Unsubscribe, Signin, Heartbeat;
  }

  lemma RepliesNotifyNobody(s: Server, e: Event, c: Conn, u: U64, i: nat)
    requires WellFormed(s.nodes.shape) && e.Receive?
    requires !e.message.RpcRequest? && !e.message.RpcAccept? && !e.message.RpcReject?
    requires !e.message.SetValueRequest? && !e.message.CreateRequest? && !e.message.DeleteRequest?
    requires |Stream(s, c)| <= i < |Stream(Step(s, e), c)|
    ensures !IsUpdate(Stream(Step(s, e), c)[i], u)
  {
    hide WellFormed, Create, Delete, SetValue, Call, Answer, Query;
  }

  // ----- whole runs

  lemma {:induction false} RunFinal(run: Run, c: Conn)
    requires Valid(run)
    ensures StreamFinal(After(run), c)
    decreases |run|
  {
    hide Step, Invariant, Admissible, StreamFinal;
    if run == [] {
      StartFinal(c);
    } else {
      RunFinal(run[..|run| - 1], c);
      StreamStaysFinal(After(run[..|run| - 1]), run[|run| - 1], c);
    }
  }

  lemma StartFinal(c: Conn)
    ensures StreamFinal(START, c)
  {
  }

  /** What `c` was sent during the last steps of a run. */
  ghost function Since(run: Run, later: Run, c: Conn): seq<Packet>
    requires Valid(run) && Valid(run + later)
    requires Stream(After(run), c) <= Stream(After(run + later), c)
  {
    Stream(After(run + later), c)[|Stream(After(run), c)|..]
  }

  lemma Extends(run: Run, later: Run, c: Conn)
    requires Valid(run + later)
    ensures Valid(run) && Stream(After(run), c) <= Stream(After(run + later), c)
  {
    assert (run + later)[..|run|] == run;
    StreamPrefix(run + later, c, |run|);
  }

  /** Splits off the last of the later steps. */
  lemma LastStep(run: Run, later: Run, c: Conn)
    requires Valid(run) && Valid(run + later) && later != []
    ensures var front, e := later[..|later| - 1], later[|later| - 1];
            && Valid(run + front)
            && Admissible(After(run + front), e)
            && After(run + later) == Step(After(run + front), e)
            && Stream(After(run), c) <= Stream(After(run + front), c) <= Stream(After(run + later), c)
            && Since(run, later, c)
            == Since(run, front, c) + Stream(After(run + later), c)[|Stream(After(run + front), c)|..]
  {
    hide Step, Admissible, Invariant, Stream;
    var front, e := later[..|later| - 1], later[|later| - 1];
    assert (run + later)[..|run + later| - 1] == run + front;
    Extends(run, front, c);
    StreamsGrow(After(run + front), e, c);
  }

  /** A write to `u` was accepted during the later steps. */
  ghost predicate WrittenIn(run: Run, later: Run, u: U64)
    requires Valid(run) && Valid(run + later)
    decreases |later|
  {
    later != [] &&
    var front := later[..|later| - 1];
    assert (run + later)[..|run + later| - 1] == run + front;
    Writes(After(run + front), later[|later| - 1], u) || WrittenIn(run, front, u)
  }

  /** No stop-listening by `c` in these steps. */
  predicate Stays(later: Run, c: Conn, u: U64) {
    forall i | 0 <= i < |later| :: later[i] != Hangup(c) && !Unsubscribes(later[i], c, u)
  }

  lemma StaysSplit(later: Run, c: Conn, u: U64)
    requires Stays(later, c, u) && later != []
    ensures Stays(later[..|later| - 1], c, u)
    ensures later[|later| - 1] != Hangup(c) && !Unsubscribes(later[|later| - 1], c, u)
  {
  }

  lemma {:induction false} ApplyData(r: Replica, p: Packet, u: U64)
    requires u in r.shape && u in r.data && u !in Deleted(p)
    ensures u in ApplySignedIn(r, p).shape && u in ApplySignedIn(r, p).data
    ensures ApplySignedIn(r, p).data[u] == match DataFor(p, u) case None => r.data[u] case Some(d) => d
  {
    hide AddNodes, RemoveNodes, AcceptCreate, Unlink;
    ApplyRetains(r, p, u);
  }

  /** The last value given for `u`. */
  function LastData(tail: seq<Packet>, u: U64): Option<Bytes> {
    if tail == [] then None
    else match DataFor(tail[|tail| - 1], u)
      case Some(d) => Some(d)
      case None => LastData(tail[..|tail| - 1], u)
  }

  lemma {:induction false} ReplayData(r: Replica, tail: seq<Packet>, u: U64)
    requires u in r.shape && u in r.data && forall i | 0 <= i < |tail| :: u !in Deleted(tail[i])
    ensures Replay(Some(r), tail).Some?
    ensures var r' := Replay(Some(r), tail).value;
            && u in r'.shape && u in r'.data
            && r'.data[u] == match LastData(tail, u) case None => r.data[u] case Some(d) => d
    decreases |tail|
  {
    if tail != [] {
      var front := tail[..|tail| - 1];
      ReplayData(r, front, u);
      ApplyData(Replay(Some(r), front).value, tail[|tail| - 1], u);
    }
  }

  /** If every value given for `u` is `d`, and there is one, `d` is the last. */
  lemma {:induction false} LastDataIs(tail: seq<Packet>, u: U64, d: Bytes)
    requires forall i | 0 <= i < |tail| :: DataFor(tail[i], u).Some? ==> DataFor(tail[i], u).value == d
    ensures LastData(tail, u).Some? ==> LastData(tail, u).value == d
    ensures (exists i :: 0 <= i < |tail| && DataFor(tail[i], u).Some?) ==> LastData(tail, u).Some?
    decreases |tail|
  {
    if tail != [] {
      var front := tail[..|tail| - 1];
      LastDataIs(front, u, d);
      if i :| 0 <= i < |tail| && DataFor(tail[i], u).Some? {
        if i < |front| { assert DataFor(front[i], u).Some?; }
      }
    }
  }

  /** All values one step sends are the ones it leaves behind. */
  lemma StepTruthful(s: Server, e: Event, c: Conn, u: U64)
    requires Invariant(s) && Admissible(s, e) && u in Step(s, e).nodes.shape
    ensures Stream(s, c) <= Stream(Step(s, e), c)
    ensures u in Step(s, e).nodes.data
    ensures forall i | |Stream(s, c)| <= i < |Stream(Step(s, e), c)| ::
              var d := DataFor(Stream(Step(s, e), c)[i], u); d.Some? ==> d.value == Step(s, e).nodes.data[u]
  {
    hide Step, WellFormed, TableInvariant, LinksInvariant;
    StreamsGrow(s, e, c);
    StepKeepsInvariant(s, e);
    if c in s.outbox {
      if Creates(s, e) { CreateEmits(s, e, c); }
      else if Deletes(s, e) { DeleteEmits(s, e, c); }
      else if SignsIn(e, c) { SigninEmits(s, e, c); }
      else { QuietStep(s, e, c); }
    } else if e == Connect(c) {
      StreamStartsEmpty(s, c);
    }
  }

  lemma StreamStartsEmpty(s: Server, c: Conn)
    requires WellFormed(s.nodes.shape)
    ensures Stream(Step(s, Connect(c)), c) == []
  {
  }

  /** SUBSCRIBER AGREEMENT. A connection is subscribed to a live vertex its replica holds,
      and neither hangs up nor unsubscribes. From any replica state (also one with local
      writes), consuming everything it is sent during steps that include at least one write
      leaves it with the server's data for that vertex. */
  lemma {:induction false} SubscriberAgrees(run: Run, later: Run, c: Conn, u: U64, r: Replica)
    requires Valid(run) && Valid(run + later)
    requires Subscribed(After(run), c, u) && Stays(later, c, u)
    requires u in After(run + later).nodes.shape && u in r.shape && u in r.data
    ensures Stream(After(run), c) <= Stream(After(run + later), c)
    ensures Subscribed(After(run + later), c, u)
    ensures Replay(Some(r), Since(run, later, c)).Some?
    ensures var r' := Replay(Some(r), Since(run, later, c)).value;
            && u in r'.shape && u in r'.data && u in After(run + later).nodes.data
            && (WrittenIn(run, later, u) ==> r'.data[u] == After(run + later).nodes.data[u])
    decreases |later|
  {
    hide Step, Admissible, Invariant, Stream, Writes, Subscribed, Replay, DataFor, Truthful;
    Extends(run, later, c);
    SubscribedIndexed(After(run), c, u);
    if later == [] {
      assert run + later == run;
      assert Since(run, later, c) == [];
      ReplayNothing(r);
    } else {
      var front, e := later[..|later| - 1], later[|later| - 1];
      StaysSplit(later, c, u);
      LastStep(run, later, c);
      var s := After(run + front);
      assert u in s.nodes.shape by {
        assert (run + later)[..|run|] == run && (run + later)[..|run + front|] == run + front;
        AllocatedUuid(After(run), u);
        Lifetime(run + later, |run + front|, u);
        assert (run + front)[..|run|] == run;
        Lifetime(run + front, |run|, u);
      }
      SubscriberAgrees(run, front, c, u, r);
      SubscribedStep(s, e, c, u);
      RunFinal(run + later, c);
      SubscriberStep(s, e, c, u, Replay(Some(r), Since(run, front, c)).value);
      ReplayAppend(Some(r), Since(run, front, c), Stream(After(run + later), c)[|Stream(s, c)|..]);
    }
  }

  /** One step: a write reaches the subscriber, anything else keeps the agreement. */
  lemma {:induction false} SubscriberStep(s: Server, e: Event, c: Conn, u: U64, r: Replica)
    requires Invariant(s) && Admissible(s, e) && Subscribed(s, c, u)
    requires u in Step(s, e).nodes.shape && u in s.nodes.shape && u in r.shape && u in r.data
    requires StreamFinal(Step(s, e), c)
    ensures Stream(s, c) <= Stream(Step(s, e), c)
    ensures u in s.nodes.data && u in Step(s, e).nodes.data
    ensures var tail := Stream(Step(s, e), c)[|Stream(s, c)|..];
            && Replay(Some(r), tail).Some?
            && u in Replay(Some(r), tail).value.shape && u in Replay(Some(r), tail).value.data
            && (Writes(s, e, u) || r.data[u] == s.nodes.data[u] ==>
                  Replay(Some(r), tail).value.data[u] == Step(s, e).nodes.data[u])
  {
    hide Step, Replay, DataFor, WellFormed, TableInvariant, LinksInvariant;
    StepTruthful(s, e, c, u);
    DataStep(s, e, u);
    var s' := Step(s, e);
    var tail := Stream(s', c)[|Stream(s, c)|..];
    forall i | 0 <= i < |tail| ensures u !in Deleted(tail[i]) {
      assert DeletionsFinal(s', Stream(s', c)[|Stream(s, c)| + i]);
    }
    ReplayData(r, tail, u);
    LastDataIs(tail, u, s'.nodes.data[u]);
    if Writes(s, e, u) {
      WriteReaches(s, e, c, u);
      var i :| |s.outbox[c]| <= i < |s'.outbox[c]| && DataFor(s'.outbox[c][i], u) == Some(e.message.data);
      assert DataFor(tail[i - |s.outbox[c]|], u).Some?;
    }
  }

  lemma SubscribedIndexed(s: Server, c: Conn, u: U64)
    requires Invariant(s) && Subscribed(s, c, u)
    ensures u in s.nodes.shape && u in s.nodes.data
  {
  }

  /** After an unsubscribe, and until the next subscribe, no write to `u` is announced to the
      connection. */
  lemma {:induction false} SilentAfterUnsubscribe(run: Run, later: Run, c: Conn, u: U64, i: nat)
    requires Valid(run) && Valid(run + later)
    requires !Listening(After(run), c, u) && forall e | e in later :: !Subscribes(e, c, u)
    requires |Stream(After(run), c)| <= i < |Stream(After(run + later), c)|
    ensures !IsUpdate(Stream(After(run + later), c)[i], u)
    decreases |later|
  {
    hide Step, Admissible, Invariant, Stream, Listening, IsUpdate;
    assert run + [] == run;
    assert later != [];
    var front, e := later[..|later| - 1], later[|later| - 1];
    LastStep(run, later, c);
    StaysSilent(run, front, c, u);
    if i < |Stream(After(run + front), c)| {
      SilentAfterUnsubscribe(run, front, c, u, i);
    } else {
      SilentStep(After(run + front), e, c, u, i);
    }
  }

  lemma {:induction false} StaysSilent(run: Run, later: Run, c: Conn, u: U64)
    requires Valid(run) && Valid(run + later)
    requires !Listening(After(run), c, u) && forall e | e in later :: !Subscribes(e, c, u)
    ensures !Listening(After(run + later), c, u)
    decreases |later|
  {
    hide Step, Admissible, Invariant, Listening;
    if later == [] {
      assert run + later == run;
    } else {
      var front, e := later[..|later| - 1], later[|later| - 1];
      LastStep(run, later, c);
      StaysSilent(run, front, c, u);
      NotListeningStep(After(run + front), e, c, u);
    }
  }
}
