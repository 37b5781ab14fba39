/** The client that a call is forwarded to: how it answers, and why it always has the vertex
    that is called. */
module Responders {
  import opened Protocol
  import opened TreeShape
  import opened Snapshot
  import opened Replicas
  import opened ServerSpec
  import opened Runs
  import opened Emission
  import opened Refinement
  import opened ReplicaTheorems
  import opened Sessions
  import opened Rpc
  import opened Subscribers
  import opened History

  /** Call handlers by vertex. */
  type Handlers = map<U64, Bytes -> Bytes>

  /** The client's answer to a forwarded call; it is sent under the id the call came with. */
  function Respond(r: Shape, handlers: Handlers, uuid: U64, param: Bytes): Message {
    if uuid !in r then RpcReject(NOT_FOUND)
    else if uuid in handlers then RpcAccept(handlers[uuid](param))
    else RpcReject(NO_HANDLER)
  }

  /** Calls of `u` go to `d`. */
  predicate Serves(s: Server, d: Conn, u: U64) {
    u in s.nodes.shape && u in s.nodes.creator && CallTarget(s.nodes, s.table, u) == Some(d)
  }

  ghost predicate ServerKnows(s: Server, d: Conn, u: U64) {
    Serves(s, d, u) ==> Knows(s, d, u)
  }

  lemma KnowsPersists(s: Server, e: Event, d: Conn, u: U64)
    requires Invariant(s) && Admissible(s, e) && Knows(s, d, u)
    ensures Knows(Step(s, e), d, u)
  {
    hide Step, WellFormed, TableInvariant, LinksInvariant, Replay;
    StreamsGrow(s, e, d);
    var k :| 0 <= k <= |Stream(s, d)|
             && Replay(None, Stream(s, d)[..k]).Some? && u in Replay(None, Stream(s, d)[..k]).value.shape;
    assert Stream(Step(s, e), d)[..k] == Stream(s, d)[..k];
  }

  /** The creator learns the vertex from the answer to its create. */
  lemma CreatorLearns(s: Server, e: Event)
    requires Invariant(s) && Admissible(s, e) && Creates(s, e)
    requires Replay(None, Stream(s, e.conn)).Some?
    ensures Knows(Step(s, e), e.conn, Created(s, e).uuid)
  {
    hide Step, Replay, Repeat, Invariant;
    var d, u := e.conn, Created(s, e).uuid;
    CreatorOnStream(s, e);
    CreateEmits(s, e, d);
    var stream := Stream(Step(s, e), d);
    var k := |Stream(s, d)| + 1;
    var accept := Packet(e.trId, CreateAccept(u), Some(e.message));
    assert stream[..k] == Stream(s, d) + [accept];
    ReplayStep(None, Stream(s, d), accept);
    AcceptKnown(Replay(None, Stream(s, d)).value, accept, u);
  }

  lemma {:induction false} AcceptKnown(r: Replica, p: Packet, u: U64)
    requires p.message == CreateAccept(u) && p.answers.Some? && p.answers.value.CreateRequest?
    ensures u in ApplySignedIn(r, p).shape
  {
  }

  lemma CreatorOnStream(s: Server, e: Event)
    requires Invariant(s) && Creates(s, e)
    ensures WellFormed(s.nodes.shape) && e.conn in s.outbox && Live(s, e.conn)
  {
    assert SessionOwned(s.table, e.conn);
    assert SessionAllocated(s.table, s.outbox.Keys, s.table.sessionOf[e.conn]);
  }

  /** A vertex is called at the connection that was its creator's at creation. */
  lemma ServesStep(s: Server, e: Event, d: Conn, u: U64)
    requires Invariant(s) && Admissible(s, e) && Serves(Step(s, e), d, u)
    ensures Serves(s, d, u) || (Creates(s, e) && u == Created(s, e).uuid && e.conn == d)
  {
    hide Step, WellFormed;
    TableStep(s, e);
    CreatorStep(s, e, u);
    if u in s.nodes.creator && u != ROOT {
      assert CreatorKnown(s.nodes, s.table, u);
      SessionsPersist(s, e, s.nodes.creator[u]);
    }
    if u == ROOT { RootUncalled(s, e); }
    if Creates(s, e) { CreatorSession(s, e); }
  }

  lemma CreatorSession(s: Server, e: Event)
    requires Invariant(s) && Creates(s, e)
    ensures e.conn in s.table.sessionOf && s.table.sessionOf[e.conn] in s.table.sessions
    ensures s.table.sessions[s.table.sessionOf[e.conn]] == Some(e.conn)
  {
    assert SessionOwned(s.table, e.conn);
  }

  lemma RootUncalled(s: Server, e: Event)
    requires Invariant(s) && Admissible(s, e)
    ensures CallTarget(Step(s, e).nodes, Step(s, e).table, ROOT) == None
  {
    hide Step;
    StepKeepsInvariant(s, e);
    var s' := Step(s, e);
    assert SessionAllocated(s'.table, s'.outbox.Keys, NO_SESSION);
  }

  lemma CreatorStep(s: Server, e: Event, u: U64)
    requires Invariant(s) && Admissible(s, e) && u in Step(s, e).nodes.shape && u in Step(s, e).nodes.creator
    ensures Creates(s, e) && u == Created(s, e).uuid ==>
              Step(s, e).nodes.creator[u] == s.table.sessionOf[e.conn] && Step(s, e).table == s.table
    ensures !(Creates(s, e) && u == Created(s, e).uuid) ==>
              u in s.nodes.shape && u in s.nodes.creator && Step(s, e).nodes.creator[u] == s.nodes.creator[u]
  {
    hide Step, WellFormed, TableInvariant, LinksInvariant, Insert, Remove;
    if Creates(s, e) {
      CreatorOnStream(s, e);
      CreateEmits(s, e, e.conn);
    } else if Deletes(s, e) {
      DeleteEmitsNodes(s, e);
    } else {
      NodesStep(s, e);
      OtherCreators(s, e);
    }
  }

  lemma OtherCreators(s: Server, e: Event)
    requires WellFormed(s.nodes.shape) && !Creates(s, e) && !Deletes(s, e)
    ensures Step(s, e).nodes.creator == s.nodes.creator
  {
    if e.Receive? && (e.message.CreateRequest? || e.message.DeleteRequest?) {
      RefusedNodes(s, e);
    } else {
      hide WellFormed, Query, Broadcast, Create, Delete, Send;
    }
  }

  lemma ServerKnowsStep(s: Server, e: Event, d: Conn, u: U64)
    requires Invariant(s) && Admissible(s, e) && Tracks(s, d) && ServerKnows(s, d, u)
    ensures ServerKnows(Step(s, e), d, u)
  {
    hide Step, WellFormed, TableInvariant, LinksInvariant, Serves, Knows;
    if Serves(Step(s, e), d, u) {
      ServesStep(s, e, d, u);
      if Serves(s, d, u) {
        KnowsPersists(s, e, d, u);
      } else {
        CreatorOnStream(s, e);
        CreatorLearns(s, e);
      }
    }
  }

  lemma {:induction false} RunServerKnows(run: Run, d: Conn, u: U64)
    requires Valid(run) && ClientRun(run, d)
    ensures ServerKnows(After(run), d, u)
    decreases |run|
  {
    hide Step, Invariant, Admissible, Tracks, ClientEvent, ServerKnows;
    if run == [] {
      StartServes(d, u);
    } else {
      var front := run[..|run| - 1];
      RunServerKnows(front, d, u);
      RunTracks(front, d);
      ServerKnowsStep(After(front), run[|run| - 1], d, u);
    }
  }

  lemma StartServes(d: Conn, u: U64)
    ensures ServerKnows(START, d, u)
  {
  }

  /** A forwarded call is always aimed at a client whose replica has the vertex by the time the
      call arrives, so it is answered NO_HANDLER or by the handler, never NOT_FOUND. */
  lemma CalledVertexIsHeld(run: Run, e: Event, d: Conn, handlers: Handlers)
    requires Valid(run) && ClientRun(run, d)
    requires Admissible(After(run), e) && Forwards(After(run), e)
    requires CallTarget(After(run).nodes, After(run).table, e.message.uuid) == Some(d)
    ensures var stream := Stream(After(run), d);
            && Stream(Step(After(run), e), d)
            == stream + [Packet((|After(run).calls.forwards| % U16_SPAN) as U16, e.message, None)]
            && Replay(None, stream).Some?
            && e.message.uuid in Replay(None, stream).value.shape
            && var answer := Respond(Replay(None, stream).value.shape, handlers, e.message.uuid, e.message.param);
               answer == if e.message.uuid in handlers then RpcAccept(handlers[e.message.uuid](e.message.param))
                         else RpcReject(NO_HANDLER)
  {
    hide Step, Invariant, Admissible, Replay, Knows, StreamFinal;
    var s, u := After(run), e.message.uuid;
    CalledLive(s, e, d);
    RunServerKnows(run, d, u);
    RunFinal(run, d);
    KnownPersists(s, d, u);
    CallIsForwarded(run, e, d);
  }

  lemma CalledLive(s: Server, e: Event, d: Conn)
    requires Invariant(s) && Forwards(s, e) && CallTarget(s.nodes, s.table, e.message.uuid) == Some(d)
    ensures d in s.outbox && Serves(s, d, e.message.uuid)
  {
    assert SessionAllocated(s.table, s.outbox.Keys, s.nodes.creator[e.message.uuid]);
  }

  // ----- there and back

  lemma {:induction false} ForwardsKept(run: Run, later: Run, n: nat)
    requires Valid(run) && Valid(run + later) && n < |After(run).calls.forwards|
    ensures n < |After(run + later).calls.forwards|
    ensures After(run + later).calls.forwards[n] == After(run).calls.forwards[n]
    decreases |later|
  {
    hide Step, Admissible, Invariant, Stream;
    if later == [] {
      assert run + later == run;
    } else {
      LastStep(run, later, 0);
      ForwardsKept(run, later[..|later| - 1], n);
      CallsAppend(After(run + later[..|later| - 1]), later[|later| - 1]);
    }
  }

  lemma MayAnswer(s: Server, d: Conn, key: U16, answer: Message)
    requires Invariant(s) && !s.stopped && d in s.table.connected && (answer.RpcAccept? || answer.RpcReject?)
    ensures Admissible(s, Receive(d, key, answer))
  {
  }

  lemma ForwardNoted(s: Server, e: Event)
    requires Invariant(s) && Admissible(s, e) && Forwards(s, e)
    ensures e.Receive? && e.message.RpcRequest? && e.conn in s.table.sessionOf
    ensures Step(s, e).calls.forwards
         == s.calls.forwards + [Forward(e.conn, s.table.sessionOf[e.conn], e.trId, e.message)]
  {
    hide Step;
    CallsAppend(s, e);
  }

  /** THERE AND BACK. A call is forwarded to the client that created the vertex, which handles
      it; if its answer comes back before 2^16 further calls are forwarded, and it was not
      answered before, the caller gets the handler's value, or NO_HANDLER, under the
      transaction id of its call. */
  lemma CallRoundTrip(run: Run, e: Event, later: Run, d: Conn, handlers: Handlers)
    requires Valid(run) && ClientRun(run, d)
    requires Admissible(After(run), e) && Forwards(After(run), e)
    requires CallTarget(After(run).nodes, After(run).table, e.message.uuid) == Some(d)
    requires Valid(run + [e]) && Valid(run + [e] + later)
    requires var s', n := After(run + [e] + later), |After(run).calls.forwards|;
             && !s'.stopped && d in s'.table.connected && e.conn in s'.table.sessionOf
             && |s'.calls.forwards| <= n + U16_SPAN && n !in s'.calls.answered
    ensures var s', n := After(run + [e] + later), |After(run).calls.forwards|;
            && Replay(None, Stream(After(run), d)).Some?
            && var held := Replay(None, Stream(After(run), d)).value.shape;
               var answer := Respond(held, handlers, e.message.uuid, e.message.param);
               var value := if e.message.uuid in handlers then RpcAccept(handlers[e.message.uuid](e.message.param))
                            else RpcReject(NO_HANDLER);
               Stream(Step(s', Receive(d, (n % U16_SPAN) as U16, answer)), e.conn)
               == Stream(s', e.conn) + [Packet(e.trId, value, Some(e.message))]
  {
    hide Step, Invariant, Admissible, Replay, ClientRun, CallTarget, Forwards;
    var n := |After(run).calls.forwards|;
    ForwardNoted(After(run), e);
    CalledVertexIsHeld(run, e, d, handlers);
    var held := Replay(None, Stream(After(run), d)).value.shape;
    var answer := Respond(held, handlers, e.message.uuid, e.message.param);
    assert (run + [e])[..|run + [e]| - 1] == run;
    ForwardsKept(run + [e], later, n);
    MayAnswer(After(run + [e] + later), d, (n % U16_SPAN) as U16, answer);
    AnswerReturnsToCaller(run + [e] + later, n, Receive(d, (n % U16_SPAN) as U16, answer), e.conn);
  }
}
