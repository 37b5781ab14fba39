/** Server and client together, with nothing on the wire but transaction ids and messages: the
    client issues requests under ids of its own, receives its stream, and recovers from the
    id alone which request a message answers. */
module EndToEnd {
  import opened Protocol
  import opened TreeShape
  import opened Replicas
  import opened ServerSpec
  import opened Runs
  import opened Emission
  import opened Refinement
  import opened ReplicaTheorems
  import opened Sessions
  import opened Rpc
  import opened Addressing
  import opened Subscribers
  import opened Responders
  import opened Transactions
  import opened Ledgers
  import opened Exchanges

  /** `run` is what the server has done, `asked` what this client has requested, of which the
      server has received the first `arrived`; the client has received `taken` messages and
      built `replica` from their ids and contents. */
  datatype World = World(
    run: Run,
    asked: seq<Message>,
    arrived: nat,
    desk: Desk,
    taken: nat,
    replica: Option<Replica>)

  const DAWN := World([], [], 0, EMPTY_DESK, 0, None)

  datatype Act =
    | Elsewhere(event: Event)
    | Ask(request: Message)
    | Arrive
    | Take
    | Expect(k: nat)

  /** What a client's message to the server may be besides a request of its own. */
  predicate Foreign(e: Event, c: Conn) {
    e.Receive? && e.conn == c ==> e.message.RpcAccept? || e.message.RpcReject?
  }

  /** The event in which the server receives the next request. */
  function Arrival(c: Conn, w: World): Event
    requires w.arrived < |w.asked|
  {
    Receive(c, IdOf(w.arrived), w.asked[w.arrived])
  }

  /** The client's reader hands over one message. */
  function Hand(d: Desk, id: U16, m: Message): Desk {
    if id in d.table then Deliver(d, id, m).(answers := d.answers + {(d.table[id].owner, m)})
    else Deliver(d, id, m)
  }

  /** The request that a message under `id` answers, as far as the client can tell. */
  function Recovered(w: World, id: U16): Option<Message> {
    if id in w.desk.table && w.desk.table[id].owner < |w.asked| then Some(w.asked[w.desk.table[id].owner]) else None
  }

  ghost function Incoming(c: Conn, w: World): seq<Packet>
    requires Valid(w.run)
  {
    Stream(After(w.run), c)
  }

  ghost predicate Allowed(c: Conn, w: World, a: Act)
    requires Valid(w.run)
  {
    match a
    case Elsewhere(e) => Admissible(After(w.run), e) && Foreign(e, c)
    case Ask(m) =>
      && FreshId(w.desk) && !m.RpcAccept? && !m.RpcReject?
      && (m.CreateRequest? ==> w.replica.Some? && m.parentUuid in w.replica.value.shape)
    case Arrive => w.arrived < |w.asked| && Admissible(After(w.run), Arrival(c, w))
    case Take =>
      && w.taken < |Incoming(c, w)|
      && var p := Incoming(c, w)[w.taken];
         p.message.RpcRequest? ==> p.transactionId !in w.desk.table
    case Expect(k) => Open(w.desk, k)
  }

  ghost function Next(c: Conn, w: World, a: Act): World
    requires Valid(w.run) && Allowed(c, w, a)
  {
    match a
    case Elsewhere(e) => w.(run := w.run + [e])
    case Ask(m) => w.(asked := w.asked + [m], desk := Issue(w.desk))
    case Arrive => w.(run := w.run + [Arrival(c, w)], arrived := w.arrived + 1)
    case Take =>
      var p := Incoming(c, w)[w.taken];
      w.(desk := Hand(w.desk, p.transactionId, p.message), taken := w.taken + 1,
         replica := Apply(w.replica, Packet(p.transactionId, p.message, Recovered(w, p.transactionId))))
    case Expect(k) => w.(desk := Wait(w.desk, k))
  }

  // ----- what holds throughout

  function Handed(stream: seq<Packet>): seq<Message>
    decreases |stream|
  {
    if stream == [] then []
    else
      var p := stream[|stream| - 1];
      Handed(stream[..|stream| - 1]) + (if p.answers == None then [p.message] else [])
  }

  /** An answer to request `k` is among the first `taken` messages. */
  ghost predicate Heard(stream: seq<Packet>, l: Ledger, taken: nat, k: nat, m: Message) {
    exists i :: 0 <= i < taken && i < |stream| && i < |l.owner| && l.owner[i] == Some(k) && stream[i].message == m
  }

  ghost predicate AnswersHeard(stream: seq<Packet>, l: Ledger, taken: nat, d: Desk) {
    forall k, m {:trigger Heard(stream, l, taken, k, m)} :: (k, m) in d.answers ==> Heard(stream, l, taken, k, m)
  }

  /** The client's side: its table, its replica and what its handlers saw fit the stream. */
  ghost predicate ClientSide(stream: seq<Packet>, l: Ledger, w: World) {
    && w.taken <= |stream| && w.desk.issued == |w.asked| && Orderly(w.desk)
    && w.replica == Replay(None, stream[..w.taken])
    && w.desk.dispatched == Handed(stream[..w.taken])
    && AnswersHeard(stream, l, w.taken, w.desk)
  }

  ghost predicate PendingKnown(c: Conn, w: World, k: int)
    requires Valid(w.run)
  {
    w.arrived <= k < |w.asked| && w.asked[k].CreateRequest? ==> Knows(After(w.run), c, w.asked[k].parentUuid)
  }

  ghost predicate ServerSide(c: Conn, l: Ledger, w: World)
    requires Valid(w.run)
  {
    && ClientRun(w.run, c)
    && LedgerOk(c, Incoming(c, w), After(w.run).calls, l)
    && l.asked == w.asked && l.arrived == w.arrived
    && (forall k {:trigger PendingKnown(c, w, k)} :: PendingKnown(c, w, k))
    && (forall k | 0 <= k < |w.asked| :: !w.asked[k].RpcAccept? && !w.asked[k].RpcReject?)
  }

  ghost predicate Sound(c: Conn, l: Ledger, w: World) {
    Valid(w.run) && ServerSide(c, l, w) && ClientSide(Incoming(c, w), l, w)
  }

  // ----- the server moves

  lemma RunExtended(run: Run, e: Event, c: Conn)
    requires Valid(run) && Admissible(After(run), e)
    ensures Valid(run + [e]) && After(run + [e]) == Step(After(run), e)
    ensures ClientRun(run, c) && ClientEvent(After(run), e, c) ==> ClientRun(run + [e], c)
    ensures Stream(After(run), c) <= Stream(After(run + [e]), c)
  {
    hide Step, Admissible, ClientEvent, Stream;
    assert (run + [e])[..|run + [e]| - 1] == run;
    StreamsGrow(After(run), e, c);
  }

  /** Steps of others, and answers this client gives to calls. */
  lemma LedgerElsewhere(run: Run, e: Event, c: Conn, l: Ledger) returns (l': Ledger)
    requires Valid(run) && Admissible(After(run), e) && Foreign(e, c)
    requires LedgerOk(c, Stream(After(run), c), After(run).calls, l)
    ensures WellFormed(After(run).nodes.shape)
    ensures LedgerOk(c, Stream(Step(After(run), e), c), Step(After(run), e).calls, l')
    ensures l'.asked == l.asked && l'.arrived == l.arrived && l.owner <= l'.owner
  {
    hide Step, LedgerOk, TableInvariant, LinksInvariant, WellFormed, CallsInvariant;
    var s := After(run);
    RunCalls(run);
    if e.Receive? && (e.message.RpcAccept? || e.message.RpcReject?) {
      l' := LedgerAnswer(run, e, c, l);
    } else {
      var more := NothingForOthers(s, e, c);
      ElsewhereCalls(s, e, c);
      LedgerUnsolicited(c, Stream(s, c), s.calls, l, more, Step(s, e).calls);
      l' := l.(owner := l.owner + Unowned(|more|));
    }
  }

  lemma ElsewhereCalls(s: Server, e: Event, c: Conn)
    requires Invariant(s) && Admissible(s, e) && Foreign(e, c)
    requires !(e.Receive? && (e.message.RpcAccept? || e.message.RpcReject?))
    ensures CallsElsewhere(c, s.calls, Step(s, e).calls)
  {
    hide Step, WellFormed, TableInvariant, LinksInvariant, Resolved;
    CallsStep(s, e);
    CallsAppend(s, e);
  }

  /** A step of someone else sends this client nothing that answers a request. */
  lemma NothingForOthers(s: Server, e: Event, c: Conn) returns (more: seq<Packet>)
    requires Invariant(s) && Admissible(s, e) && CallsInvariant(s.calls) && Foreign(e, c)
    requires !(e.Receive? && (e.message.RpcAccept? || e.message.RpcReject?))
    ensures Stream(Step(s, e), c) == Stream(s, c) + more && AnswerNothing(more)
  {
    hide Step, WellFormed, TableInvariant, LinksInvariant, CallsInvariant;
    StreamsGrow(s, e, c);
    more := Stream(Step(s, e), c)[|Stream(s, c)|..];
    if c in s.outbox {
      EachAnsweredOnce(s, e, c);
    } else if e == Connect(c) {
      StreamStartsEmpty(s, c);
    }
  }

  lemma OtherAnswersElsewhere(s: Server, k': Calls, n: nat, c: Conn)
    requires k'.forwards == s.calls.forwards && k'.answered == s.calls.answered + {n}
    ensures CallsElsewhere(c, s.calls, k')
  {
  }

  /** An answer to a forwarded call reaches the client that made it, as the answer to the
      request it was. */
  lemma LedgerAnswer(run: Run, e: Event, c: Conn, l: Ledger) returns (l': Ledger)
    requires Valid(run) && Admissible(After(run), e)
    requires e.Receive? && (e.message.RpcAccept? || e.message.RpcReject?)
    requires LedgerOk(c, Stream(After(run), c), After(run).calls, l)
    ensures WellFormed(After(run).nodes.shape)
    ensures LedgerOk(c, Stream(Step(After(run), e), c), Step(After(run), e).calls, l')
    ensures l'.asked == l.asked && l'.arrived == l.arrived && l.owner <= l'.owner
  {
    hide LedgerOk, TableInvariant, LinksInvariant, WellFormed, Stream, Handle;
    var s := After(run);
    RunCalls(run);
    StepReceives(s, e);
    AnswerSends(s, e.conn, e.trId, e.message, c);
    assert KeyResolves(s.calls, e.trId);
    if e.trId !in s.calls.translation {
      return l;
    }
    var n := LatestForward(|s.calls.forwards|, e.trId).value;
    RunOrigins(run, n);
    assert OriginKnown(s, n);
    var f := s.calls.forwards[n];
    if c in s.outbox && s.table.sessions[f.session] == Some(c) {
      l' := CallReplied(c, Stream(s, c), s.calls, l, n, e.trId, e.message);
    } else {
      OtherAnswersElsewhere(s, Resolved(s.calls, e.trId), n, c);
      LedgerUnsolicited(c, Stream(s, c), s.calls, l, [], Resolved(s.calls, e.trId));
      l' := l.(owner := l.owner + Unowned(0));
    }
  }

  lemma CallReplied(c: Conn, stream: seq<Packet>, k: Calls, l: Ledger, n: nat, id: U16, m: Message) returns (l': Ledger)
    requires LedgerOk(c, stream, k, l) && id in k.translation
    requires LatestForward(|k.forwards|, id) == Some(n) && n < |k.forwards| && n !in k.answered
    requires k.forwards[n].conn == c && k.translation[id].1 == k.forwards[n].trId
    ensures LedgerOk(c, stream + [Returned(k, id, m)], Resolved(k, id), l')
    ensures l'.asked == l.asked && l'.arrived == l.arrived && l.owner <= l'.owner
  {
    assert CallerOk(c, k, l, n);
    var r := l.caller[n];
    forall j | j in l.caller && l.caller[j] == r ensures j in Resolved(k, id).answered {
      assert CalledOnce(l, j, n);
    }
    LedgerReplied(c, stream, k, l, Returned(k, id, m), r, Resolved(k, id));
    l' := l.(owner := l.owner + [Some(r)]);
  }

  /** The server receives the client's next request. */
  lemma LedgerArrives(run: Run, e: Event, c: Conn, l: Ledger) returns (l': Ledger)
    requires Valid(run) && Admissible(After(run), e)
    requires LedgerOk(c, Stream(After(run), c), After(run).calls, l) && l.arrived < |l.asked|
    requires e == Receive(c, IdOf(l.arrived), l.asked[l.arrived]) && !e.message.RpcAccept? && !e.message.RpcReject?
    ensures WellFormed(After(run).nodes.shape)
    ensures LedgerOk(c, Stream(Step(After(run), e), c), Step(After(run), e).calls, l')
    ensures l'.asked == l.asked && l'.arrived == l.arrived + 1 && l.owner <= l'.owner
  {
    hide Step, LedgerOk, TableInvariant, LinksInvariant, WellFormed, CallsInvariant;
    var s := After(run);
    RunCalls(run);
    CallsStep(s, e);
    LedgerArrived(c, Stream(s, c), s.calls, l);
    var l1 := l.(arrived := l.arrived + 1);
    CallersEarlier(c, Stream(s, c), s.calls, l);
    ConnectedHasStream(s, e);
    if Forwards(s, e) {
      l' := LedgerCall(s, e, c, l1);
    } else {
      l' := LedgerDirect(s, e, c, l1);
    }
  }

  lemma CallersEarlier(c: Conn, stream: seq<Packet>, k: Calls, l: Ledger)
    requires LedgerOk(c, stream, k, l)
    ensures forall n | n in l.caller :: l.caller[n] < l.arrived
  {
  }

  lemma ConnectedHasStream(s: Server, e: Event)
    requires Invariant(s) && Admissible(s, e) && e.Receive?
    ensures e.conn in s.outbox
  {
  }

  lemma LedgerCall(s: Server, e: Event, c: Conn, l: Ledger) returns (l': Ledger)
    requires Invariant(s) && Admissible(s, e) && Forwards(s, e) && c in s.outbox && e.conn == c
    requires LedgerOk(c, Stream(s, c), s.calls, l) && 0 < l.arrived
    requires e.trId == IdOf(l.arrived - 1) && e.message == l.asked[l.arrived - 1]
    requires forall i | 0 <= i < |l.owner| :: l.owner[i] != Some(l.arrived - 1)
    requires forall n | n in l.caller :: l.caller[n] < l.arrived - 1
    ensures WellFormed(s.nodes.shape)
    ensures LedgerOk(c, Stream(Step(s, e), c), Step(s, e).calls, l')
    ensures l'.asked == l.asked && l'.arrived == l.arrived && l.owner <= l'.owner
  {
    hide Step, LedgerOk, TableInvariant, LinksInvariant, WellFormed, Stream, Register;
    var f := Forward(e.conn, s.table.sessionOf[e.conn], e.trId, e.message);
    CallsStep(s, e);
    CallsAppend(s, e);
    CallSends(s, e, c);
    var more := OneIf(CallTarget(s.nodes, s.table, e.message.uuid) == Some(c),
                      Packet(CallKey(s.calls.trIdCtr), e.message, None));
    var k' := Step(s, e).calls;
    AnsweredKept(s, e);
    LedgerForwarded(c, Stream(s, c), s.calls, l, f, k');
    var l1 := l.(caller := l.caller[|s.calls.forwards| := l.arrived - 1]);
    SameCalls(c, k');
    LedgerUnsolicited(c, Stream(s, c), k', l1, more, k');
    l' := l1.(owner := l1.owner + Unowned(|more|));
  }

  lemma AnsweredKept(s: Server, e: Event)
    requires Invariant(s) && Admissible(s, e) && Forwards(s, e)
    ensures Step(s, e).calls.answered == s.calls.answered
  {
    hide Step, WellFormed, TableInvariant, LinksInvariant;
    CallsStep(s, e);
  }

  lemma SameCalls(c: Conn, k: Calls)
    ensures CallsElsewhere(c, k, k)
  {
  }

  lemma LedgerDirect(s: Server, e: Event, c: Conn, l: Ledger) returns (l': Ledger)
    requires Invariant(s) && Admissible(s, e) && CallsInvariant(s.calls) && c in s.outbox
    requires e.Receive? && e.conn == c && !e.message.RpcAccept? && !e.message.RpcReject?
    requires Step(s, e).calls == s.calls
    requires LedgerOk(c, Stream(s, c), s.calls, l) && 0 < l.arrived
    requires e.trId == IdOf(l.arrived - 1) && e.message == l.asked[l.arrived - 1]
    requires forall i | 0 <= i < |l.owner| :: l.owner[i] != Some(l.arrived - 1)
    requires forall n | n in l.caller :: l.caller[n] < l.arrived - 1
    ensures LedgerOk(c, Stream(Step(s, e), c), Step(s, e).calls, l')
    ensures l'.asked == l.asked && l'.arrived == l.arrived && l.owner <= l'.owner
  {
    hide Step, LedgerOk, TableInvariant, LinksInvariant, WellFormed, CallsInvariant;
    EachAnsweredOnce(s, e, c);
    SameCalls(c, s.calls);
    var stream, more := Stream(s, c), Stream(Step(s, e), c)[|Stream(s, c)|..];
    assert Stream(Step(s, e), c) == stream + more;
    if more != [] && more[0].answers.Some? {
      LedgerReplied(c, stream, s.calls, l, more[0], l.arrived - 1, s.calls);
      var l1 := l.(owner := l.owner + [Some(l.arrived - 1)]);
      assert stream + more == (stream + [more[0]]) + more[1..];
      LedgerUnsolicited(c, stream + [more[0]], s.calls, l1, more[1..], s.calls);
      l' := l1.(owner := l1.owner + Unowned(|more| - 1));
    } else {
      LedgerUnsolicited(c, stream, s.calls, l, more, s.calls);
      l' := l.(owner := l.owner + Unowned(|more|));
    }
  }

  // ----- the client moves

  lemma HandedStep(stream: seq<Packet>, i: nat)
    requires i < |stream|
    ensures Handed(stream[..i + 1])
         == Handed(stream[..i]) + (if stream[i].answers == None then [stream[i].message] else [])
    ensures Replay(None, stream[..i + 1]) == Apply(Replay(None, stream[..i]), stream[i])
  {
    assert stream[..i + 1][..i] == stream[..i];
    assert stream[..i + 1] == stream[..i] + [stream[i]];
    ReplayStep(None, stream[..i], stream[i]);
  }

  /** The client tells from the id which request a message answers, if any, and hands exactly
      the others to its handlers. */
  lemma IdTells(c: Conn, stream: seq<Packet>, k: Calls, l: Ledger, w: World)
    requires LedgerOk(c, stream, k, l) && l.asked == w.asked && l.arrived == w.arrived
    requires ClientSide(stream, l, w) && w.taken < |stream|
    requires stream[w.taken].message.RpcRequest? ==> stream[w.taken].transactionId !in w.desk.table
    ensures var p := stream[w.taken];
            && Recovered(w, p.transactionId) == p.answers
            && (p.transactionId in w.desk.table <==> p.answers.Some?)
            && (l.owner[w.taken] == None ==> p.answers == None)
            && (l.owner[w.taken].Some? ==>
                  && Open(w.desk, l.owner[w.taken].value)
                  && p.transactionId == IdOf(l.owner[w.taken].value)
                  && p.transactionId in w.desk.table
                  && w.desk.table[p.transactionId].owner == l.owner[w.taken].value)
  {
    hide Replay, Handed;
    var i := w.taken;
    assert OwnerOk(stream, l, i);
    if l.owner[i].Some? {
      var r := l.owner[i].value;
      assert r !in w.desk.results by { if r in w.desk.results { AnsweredBefore(stream, l, w, r); } }
      assert OpenHasSlot(w.desk, r);
    } else {
      assert SlotOwned(w.desk, NOTIFICATION);
    }
  }

  lemma AnsweredBefore(stream: seq<Packet>, l: Ledger, w: World, r: nat)
    requires w.taken < |stream| && w.taken < |l.owner| && l.owner[w.taken] == Some(r)
    requires forall i, j {:trigger OwnedOnce(l, i, j)} :: OwnedOnce(l, i, j)
    requires Orderly(w.desk) && AnswersHeard(stream, l, w.taken, w.desk)
    ensures r !in w.desk.results
  {
    assert ResultKnown(w.desk, r);
    forall i | 0 <= i < w.taken ensures l.owner[i] != Some(r) { assert OwnedOnce(l, i, w.taken); }
    forall k, m | (k, m) in w.desk.answers ensures k != r { assert Heard(stream, l, w.taken, k, m); }
  }

  lemma TakeKeeps(c: Conn, stream: seq<Packet>, k: Calls, l: Ledger, w: World, w': World)
    requires LedgerOk(c, stream, k, l) && l.asked == w.asked && l.arrived == w.arrived
    requires ClientSide(stream, l, w) && w.taken < |stream|
    requires stream[w.taken].message.RpcRequest? ==> stream[w.taken].transactionId !in w.desk.table
    requires var p := stream[w.taken];
             w' == w.(desk := Hand(w.desk, p.transactionId, p.message), taken := w.taken + 1,
                      replica := Apply(w.replica, Packet(p.transactionId, p.message, Recovered(w, p.transactionId))))
    ensures ClientSide(stream, l, w')
  {
    hide Replay, Handed, Apply, LedgerOk, Orderly, Recovered;
    var p := stream[w.taken];
    IdTells(c, stream, k, l, w);
    HandedStep(stream, w.taken);
    assert Packet(p.transactionId, p.message, Recovered(w, p.transactionId)) == p;
    OwnerHere(c, stream, k, l, w.taken);
    if l.owner[w.taken].Some? {
      var r := l.owner[w.taken].value;
      assert Transactions.Respond(w.desk, Answer(r, p.message)) == w'.desk;
      OrderlyStep(w.desk, Answer(r, p.message));
    } else if p.message.RpcRequest? {
      OrderlyStep(w.desk, Call(p.transactionId, p.message));
    } else {
      OrderlyStep(w.desk, Notice(p.message));
    }
    HeardMore(stream, l, w, w'.desk);
  }

  lemma OwnerHere(c: Conn, stream: seq<Packet>, k: Calls, l: Ledger, i: nat)
    requires LedgerOk(c, stream, k, l) && i < |stream|
    ensures i < |l.owner| && OwnerOk(stream, l, i)
  {
  }

  lemma HeardMore(stream: seq<Packet>, l: Ledger, w: World, d: Desk)
    requires w.taken < |stream| && w.taken < |l.owner| && AnswersHeard(stream, l, w.taken, w.desk)
    requires d.answers == w.desk.answers
          || (&& l.owner[w.taken].Some?
              && d.answers == w.desk.answers + {(l.owner[w.taken].value, stream[w.taken].message)})
    ensures AnswersHeard(stream, l, w.taken + 1, d)
  {
    forall k, m | (k, m) in d.answers ensures Heard(stream, l, w.taken + 1, k, m) {
      if (k, m) in w.desk.answers {
        assert Heard(stream, l, w.taken, k, m);
      } else {
        assert l.owner[w.taken] == Some(k) && stream[w.taken].message == m;
      }
    }
  }

  /** What the client has consumed is not touched by what is sent later. */
  lemma ClientUnmoved(stream: seq<Packet>, stream': seq<Packet>, l: Ledger, l': Ledger, w: World)
    requires ClientSide(stream, l, w) && stream <= stream' && l.owner <= l'.owner
    ensures forall run, arrived :: ClientSide(stream', l', w.(run := run, arrived := arrived))
  {
    hide Replay, Handed, Orderly;
    assert stream'[..w.taken] == stream[..w.taken];
    forall k, m | (k, m) in w.desk.answers ensures Heard(stream', l', w.taken, k, m) {
      assert Heard(stream, l, w.taken, k, m);
    }
  }

  lemma AskKeeps(c: Conn, l: Ledger, w: World, m: Message)
    requires Sound(c, l, w) && Allowed(c, w, Ask(m))
    ensures Sound(c, l.(asked := l.asked + [m]), Next(c, w, Ask(m)))
  {
    hide LedgerOk, Replay, Handed, Orderly, Fair, Invariant, Step;
    var w' := Next(c, w, Ask(m));
    var l' := l.(asked := l.asked + [m]);
    OrderlyStep(w.desk, Request) by { FreshIsFair(w.desk); }
    LedgerAsked(c, Incoming(c, w), After(w.run).calls, l, m);
    forall k ensures PendingKnown(c, w', k) {
      assert PendingKnown(c, w, k);
      if k == |w.asked| && m.CreateRequest? { AskedKnown(c, w, m.parentUuid); }
    }
    forall k, m0 | (k, m0) in w'.desk.answers ensures Heard(Incoming(c, w), l', w.taken, k, m0) {
      assert Heard(Incoming(c, w), l, w.taken, k, m0);
    }
  }

  lemma FreshIsFair(d: Desk)
    requires FreshId(d)
    ensures Fair(d, Request)
  {
  }

  lemma AskedKnown(c: Conn, w: World, p: U64)
    requires Valid(w.run) && w.taken <= |Incoming(c, w)|
    requires w.replica == Replay(None, Incoming(c, w)[..w.taken]) && w.replica.Some? && p in w.replica.value.shape
    ensures Knows(After(w.run), c, p)
  {
    hide Replay, Invariant, Step;
  }

  lemma LedgerAsked(c: Conn, stream: seq<Packet>, k: Calls, l: Ledger, m: Message)
    requires LedgerOk(c, stream, k, l)
    ensures LedgerOk(c, stream, k, l.(asked := l.asked + [m]))
  {
    var l' := l.(asked := l.asked + [m]);
    forall i ensures OwnerOk(stream, l', i) { assert OwnerOk(stream, l, i); }
    forall i, j ensures OwnedOnce(l', i, j) { assert OwnedOnce(l, i, j); }
    forall n: nat ensures CallerOk(c, k, l', n) { assert CallerOk(c, k, l, n); }
    forall a: nat, b: nat ensures CalledOnce(l', a, b) { assert CalledOnce(l, a, b); }
  }

  lemma ExpectKeeps(c: Conn, l: Ledger, w: World, k: nat)
    requires Sound(c, l, w) && Open(w.desk, k)
    ensures Sound(c, l, w.(desk := Wait(w.desk, k)))
  {
    hide LedgerOk, Replay, Handed, Orderly, Invariant, Step;
    var w' := w.(desk := Wait(w.desk, k));
    OrderlyStep(w.desk, Await(k));
    forall j ensures PendingKnown(c, w', j) { assert PendingKnown(c, w, j); }
    forall j, m | (j, m) in w'.desk.answers ensures Heard(Incoming(c, w), l, w.taken, j, m) {
      assert Heard(Incoming(c, w), l, w.taken, j, m);
    }
  }

  lemma TakeSound(c: Conn, l: Ledger, w: World)
    requires Sound(c, l, w) && Allowed(c, w, Take)
    ensures Sound(c, l, Next(c, w, Take))
  {
    hide LedgerOk, ClientSide, Invariant, Step, Recovered, Hand, Apply;
    var w' := Next(c, w, Take);
    TakeKeeps(c, Incoming(c, w), After(w.run).calls, l, w, w');
    forall j ensures PendingKnown(c, w', j) { assert PendingKnown(c, w, j); }
  }

  /** After a server step: both sides fit the longer stream. */
  lemma ServerMoved(c: Conn, l: Ledger, w: World, e: Event, l': Ledger, arrived: nat)
    requires Sound(c, l, w) && Admissible(After(w.run), e) && ClientEvent(After(w.run), e, c)
    requires arrived >= w.arrived && l'.asked == w.asked && l'.arrived == arrived && l.owner <= l'.owner
    requires WellFormed(After(w.run).nodes.shape)
    requires LedgerOk(c, Stream(Step(After(w.run), e), c), Step(After(w.run), e).calls, l')
    ensures Sound(c, l', w.(run := w.run + [e], arrived := arrived))
  {
    hide LedgerOk, ClientSide, Step, Admissible, ClientEvent, Knows, WellFormed, TableInvariant, LinksInvariant;
    var w' := w.(run := w.run + [e], arrived := arrived);
    RunExtended(w.run, e, c);
    ClientUnmoved(Incoming(c, w), Incoming(c, w'), l, l', w);
    forall k ensures PendingKnown(c, w', k) {
      assert PendingKnown(c, w, k);
      if 0 <= k < |w.asked| && w.asked[k].CreateRequest? && Knows(After(w.run), c, w.asked[k].parentUuid) {
        KnowsPersists(After(w.run), e, c, w.asked[k].parentUuid);
      }
    }
  }

  lemma ElsewhereKeeps(c: Conn, l: Ledger, w: World, e: Event) returns (l': Ledger)
    requires Sound(c, l, w) && Admissible(After(w.run), e) && Foreign(e, c)
    ensures Sound(c, l', w.(run := w.run + [e]))
  {
    hide LedgerOk, ClientSide, Step, Admissible, Knows, WellFormed, TableInvariant, LinksInvariant;
    l' := LedgerElsewhere(w.run, e, c, l);
    ServerMoved(c, l, w, e, l', w.arrived);
  }

  lemma ArriveKeeps(c: Conn, l: Ledger, w: World) returns (l': Ledger)
    requires Sound(c, l, w) && w.arrived < |w.asked| && Admissible(After(w.run), Arrival(c, w))
    ensures Sound(c, l', w.(run := w.run + [Arrival(c, w)], arrived := w.arrived + 1))
  {
    hide LedgerOk, ClientSide, Step, Admissible, Knows, WellFormed, TableInvariant, LinksInvariant;
    assert PendingKnown(c, w, w.arrived);
    l' := LedgerArrives(w.run, Arrival(c, w), c, l);
    ServerMoved(c, l, w, Arrival(c, w), l', w.arrived + 1);
  }

  // ----- whole histories

  ghost predicate Happens(c: Conn, acts: seq<Act>)
    decreases |acts|, 0
  {
    acts == [] ||
    (Happens(c, acts[..|acts| - 1]) && Allowed(c, Reached(c, acts[..|acts| - 1]), acts[|acts| - 1]))
  }

  /** The world after a history of allowed acts. */
  ghost function Reached(c: Conn, acts: seq<Act>): (w: World)
    requires Happens(c, acts)
    ensures exists l :: Sound(c, l, w)
    decreases |acts|, 1
  {
    if acts == [] then
      DawnSound(c);
      DAWN
    else
      ActKeeps(c, Reached(c, acts[..|acts| - 1]), acts[|acts| - 1]);
      Next(c, Reached(c, acts[..|acts| - 1]), acts[|acts| - 1])
  }

  lemma DawnSound(c: Conn)
    ensures Sound(c, BLANK_LEDGER, DAWN)
  {
    assert Incoming(c, DAWN) == [];
  }

  lemma ActKeeps(c: Conn, w: World, a: Act)
    requires (exists l :: Sound(c, l, w)) && Valid(w.run) && Allowed(c, w, a)
    ensures exists l :: Sound(c, l, Next(c, w, a))
  {
    hide Sound, Admissible;
    var l :| Sound(c, l, w);
    var l';
    match a {
      case Elsewhere(e) => l' := ElsewhereKeeps(c, l, w, e);
      case Ask(m) =>
        AskKeeps(c, l, w, m);
        l' := l.(asked := l.asked + [m]);
      case Arrive => l' := ArriveKeeps(c, l, w);
      case Take =>
        TakeSound(c, l, w);
        l' := l;
      case Expect(k) =>
        ExpectKeeps(c, l, w, k);
        l' := l;
    }
    assert Sound(c, l', Next(c, w, a));
  }

  /** END TO END. In every history in which the client takes fresh ids and no forwarded call
      uses a pending one, the replica it builds from ids and messages alone is the one that
      knows which request each message answers; so after each message it is consistent with the
      server tree at the step that sent it. */
  lemma ReplicaFromIds(c: Conn, acts: seq<Act>)
    requires Happens(c, acts)
    ensures var w := Reached(c, acts);
            && Valid(w.run) && ClientRun(w.run, c)
            && w.taken <= |Incoming(c, w)| && w.replica == Replay(None, Incoming(c, w)[..w.taken])
            && (w.taken > 0 && Live(After(w.run), c) ==> ConsistentAt(w.run, c, w.taken))
  {
    hide Invariant, Step, LedgerOk, Orderly, ConsistentAt, Live, Replay, ClientRun, Handed;
    var w := Reached(c, acts);
    var l :| Sound(c, l, w);
    if w.taken > 0 && Live(After(w.run), c) {
      ReplicaRefinesServer(w.run, c, w.taken);
    }
  }

  /** The next message: the id tells the request it answers, and exactly the messages that
      answer none go to the handlers. */
  lemma MessageRecognised(c: Conn, acts: seq<Act>)
    requires Happens(c, acts) && Allowed(c, Reached(c, acts), Take)
    ensures var w := Reached(c, acts);
            && w.taken < |Incoming(c, w)|
            && var p := Incoming(c, w)[w.taken];
            && Recovered(w, p.transactionId) == p.answers
            && Next(c, w, Take).desk.dispatched
            == w.desk.dispatched + (if p.answers == None then [p.message] else [])
  {
    hide Invariant, Step, LedgerOk, ClientSide, ServerSide;
    var w := Reached(c, acts);
    var l :| Sound(c, l, w);
    NextRecognised(c, l, w);
  }

  lemma NextRecognised(c: Conn, l: Ledger, w: World)
    requires Sound(c, l, w) && Allowed(c, w, Take)
    ensures var p := Incoming(c, w)[w.taken];
            && Recovered(w, p.transactionId) == p.answers
            && (p.transactionId in w.desk.table <==> p.answers.Some?)
  {
    hide Invariant, Step, LedgerOk, ClientSide;
    IdTells(c, Incoming(c, w), After(w.run).calls, l, w);
  }

  /** In every history each request is answered at most once, under its own id, and what a
      request returned is the message that answered it. */
  lemma AnsweredAtMostOnce(c: Conn, acts: seq<Act>)
    requires Happens(c, acts)
    ensures Valid(Reached(c, acts).run)
    ensures exists owner: seq<Option<nat>> ::
              OwnersSound(Incoming(c, Reached(c, acts)), owner, Reached(c, acts))
  {
    hide Invariant, Step, LedgerOk, Orderly, Replay, Handed;
    var w := Reached(c, acts);
    var l :| Sound(c, l, w);
    OwnersFromLedger(Incoming(c, w), c, After(w.run).calls, l, w);
  }

  /** `owner` says which request each message answers: one that has arrived and made the
      message's id its own, no request twice, and what a request returned is among them. */
  ghost predicate OwnersSound(stream: seq<Packet>, owner: seq<Option<nat>>, w: World) {
    && |owner| == |stream|
    && (forall i | 0 <= i < |stream| :: owner[i].Some? == stream[i].answers.Some?)
    && (forall i | 0 <= i < |stream| && owner[i].Some? ::
          && owner[i].value < w.arrived <= |w.asked| && stream[i].transactionId == IdOf(owner[i].value)
          && stream[i].answers == Some(w.asked[owner[i].value]))
    && (forall i, j | 0 <= i < j < |stream| :: owner[i] == None || owner[i] != owner[j])
    && (forall k | k in w.desk.results ::
          exists i :: 0 <= i < w.taken && i < |stream| && owner[i] == Some(k) && stream[i].message == w.desk.results[k])
  }

  lemma OwnersFromLedger(stream: seq<Packet>, c: Conn, k: Calls, l: Ledger, w: World)
    requires LedgerOk(c, stream, k, l) && l.asked == w.asked && l.arrived == w.arrived && ClientSide(stream, l, w)
    ensures OwnersSound(stream, l.owner, w)
  {
    hide Replay, Handed;
    var owner := l.owner;
    forall i | 0 <= i < |stream|
      ensures owner[i].Some? == stream[i].answers.Some?
      ensures owner[i].Some? ==>
                && owner[i].value < w.arrived <= |w.asked| && stream[i].transactionId == IdOf(owner[i].value)
                && stream[i].answers == Some(w.asked[owner[i].value])
    {
      assert OwnerOk(stream, l, i);
    }
    forall i, j | 0 <= i < j < |stream| ensures owner[i] == None || owner[i] != owner[j] {
      assert OwnedOnce(l, i, j);
    }
    forall r | r in w.desk.results
      ensures exists i ::
                0 <= i < w.taken && i < |stream| && l.owner[i] == Some(r) && stream[i].message == w.desk.results[r]
    {
      assert ResultKnown(w.desk, r);
      assert Heard(stream, l, w.taken, r, w.desk.results[r]);
    }
  }

  /** PROGRESS. When a request arrives, unless it is a silent one, its answer is the next thing
      the client is sent: under the request's id, and the right one for the server's tables at
      that moment. */
  lemma ArrivalAnswered(c: Conn, acts: seq<Act>)
    requires Happens(c, acts) && Allowed(c, Reached(c, acts), Arrive)
    requires var w := Reached(c, acts); !Silent(After(w.run), c, w.asked[w.arrived])
    ensures var w := Reached(c, acts);
            var w' := Next(c, w, Arrive);
            && Valid(w'.run) && Incoming(c, w) <= Incoming(c, w') && |Incoming(c, w)| < |Incoming(c, w')|
            && var p := Incoming(c, w')[|Incoming(c, w)|];
            && p.transactionId == IdOf(w.arrived) && p.answers == Some(w.asked[w.arrived])
            && NodesInvariant(After(w.run).nodes) && RightAnswer(After(w.run), c, w.asked[w.arrived], p.message)
  {
    hide Step, Admissible, Silent, RightAnswer, Announced, WellFormed, TableInvariant, LinksInvariant;
    hide ServerSide, ClientSide;
    var w := Reached(c, acts);
    var l :| Sound(c, l, w);
    var e := Arrival(c, w);
    RunExtended(w.run, e, c);
    NotAnAnswer(After(w.run), c, w.asked[w.arrived]);
    Connected(After(w.run), e);
    EachRequestAnswered(After(w.run), e, c);
  }

  lemma NotAnAnswer(s: Server, c: Conn, m: Message)
    requires !Silent(s, c, m)
    ensures !m.RpcAccept? && !m.RpcReject?
  {
  }
}
