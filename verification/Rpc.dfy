/** Rpc forwarding: a 32-bit counter truncated to 16-bit ids, and the way back. */
module Rpc {
  import opened Protocol
  import opened TreeShape
  import opened ServerSpec
  import opened Runs
  import opened Emission
  import opened Refinement
  import opened Sessions

  /** The forward that an answer under `id` resolves: the latest one with that id, unless it
      was answered before. */
  ghost predicate KeyResolves(k: Calls, id: U16) {
    var n := LatestForward(|k.forwards|, id);
    && (id in k.translation <==> n.Some? && n.value !in k.answered)
    && (id in k.translation ==> k.translation[id] == (k.forwards[n.value].session, k.forwards[n.value].trId))
  }

  ghost predicate CallsInvariant(k: Calls) {
    && k.trIdCtr as int == |k.forwards| % U32_SPAN
    && (forall n | n in k.answered :: n < |k.forwards|)
    && forall id {:trigger KeyResolves(k, id)} :: KeyResolves(k, id)
  }

  /** Of the first `n` forwards, `m` is the latest under its own id exactly when fewer than
      2^16 were forwarded after it. */
  lemma {:induction false} LatestWithinWindow(n: nat, m: nat)
    requires m < n
    ensures LatestForward(n, (m % U16_SPAN) as U16) == Some(m) <==> n <= m + U16_SPAN
    decreases n
  {
    var id := (m % U16_SPAN) as U16;
    if n - 1 == m {
    } else if (n - 1) % U16_SPAN == id as int {
      assert n - 1 >= m + U16_SPAN;
    } else {
      LatestWithinWindow(n - 1, m);
      assert n - 1 != m + U16_SPAN;
    }
  }

  lemma TruncationCommutes(n: nat)
    ensures n % 0x1_0000_0000 % 0x1_0000 == n % 0x1_0000
  {
    assert n == 0x1_0000_0000 * (n / 0x1_0000_0000) + n % 0x1_0000_0000;
  }

  lemma CounterStep(n: nat, ctr: U32)
    requires ctr as int == n % U32_SPAN
    ensures CallKey(ctr) as int == n % U16_SPAN
    ensures Increment(ctr) as int == (n + 1) % U32_SPAN
  {
    TruncationCommutes(n);
  }

  lemma RegisterKeeps(k: Calls, origin: Forward)
    requires CallsInvariant(k)
    ensures CallsInvariant(Register(k, origin))
    ensures CallKey(k.trIdCtr) as int == |k.forwards| % U16_SPAN
  {
    var k' := Register(k, origin);
    CounterStep(|k.forwards|, k.trIdCtr);
    hide CallKey, Increment;
    forall id ensures KeyResolves(k', id) {
      assert KeyResolves(k, id);
      assert LatestForward(|k'.forwards|, id) ==
             if |k.forwards| % U16_SPAN == id as int then Some(|k.forwards|) else LatestForward(|k.forwards|, id);
    }
  }

  lemma ResolvedKeeps(k: Calls, id: U16)
    requires CallsInvariant(k) && id in k.translation
    ensures CallsInvariant(Resolved(k, id))
  {
    var k' := Resolved(k, id);
    assert KeyResolves(k, id);
    forall other ensures KeyResolves(k', other) {
      assert KeyResolves(k, other);
    }
  }

  predicate Forwards(s: Server, e: Event) {
    && e.Receive? && e.message.RpcRequest?
    && e.message.uuid in s.nodes.shape && e.conn in s.table.sessionOf
    && CallTarget(s.nodes, s.table, e.message.uuid).Some?
  }

  predicate Answers(s: Server, e: Event) {
    e.Receive? && (e.message.RpcAccept? || e.message.RpcReject?) && e.trId in s.calls.translation
  }

  lemma CallsStep(s: Server, e: Event)
    requires Invariant(s) && Admissible(s, e)
    ensures Step(s, e).calls ==
            if Forwards(s, e) then Register(s.calls, Forward(e.conn, s.table.sessionOf[e.conn], e.trId, e.message))
            else if Answers(s, e) then Resolved(s.calls, e.trId)
            else s.calls
  {
    hide WellFormed, Query, Broadcast, Insert, Remove, Register, Resolved, CallTarget, LinksInvariant, TableInvariant;
  }

  lemma {:induction false} RunCalls(run: Run)
    requires Valid(run)
    ensures CallsInvariant(After(run).calls)
    decreases |run|
  {
    hide Step, Invariant, Admissible, Register, Resolved, CallsInvariant;
    if run == [] {
      StartCalls();
    } else {
      var front, e := run[..|run| - 1], run[|run| - 1];
      RunCalls(front);
      CallsStep(After(front), e);
      if Forwards(After(front), e) {
        RegisterKeeps(After(front).calls,
                      Forward(e.conn, After(front).table.sessionOf[e.conn], e.trId, e.message));
      } else if Answers(After(front), e) {
        ResolvedKeeps(After(front).calls, e.trId);
      }
    }
  }

  lemma StartCalls()
    ensures CallsInvariant(START.calls)
  {
  }

  // ----- who asked

  /** A forward remembers the session its caller signed in with. */
  ghost predicate OriginKnown(s: Server, n: nat) {
    n < |s.calls.forwards| ==>
      var f := s.calls.forwards[n];
      && f.session in s.table.sessions
      && s.table.sessions[f.session] == (if f.conn in s.table.sessionOf then Some(f.conn) else None)
      && (f.conn in s.table.sessionOf ==> s.table.sessionOf[f.conn] == f.session)
      && f.conn in s.outbox
      && (f.conn in s.table.connected ==> f.conn in s.table.sessionOf)
  }

  lemma OriginStep(s: Server, e: Event, n: nat)
    requires Invariant(s) && Admissible(s, e)
    requires OriginKnown(s, n)
    ensures OriginKnown(Step(s, e), n)
  {
    hide Step, LinksInvariant, Register, Resolved;
    CallsStep(s, e);
    TableStep(s, e);
    CallsAppend(s, e);
    if n < |Step(s, e).calls.forwards| {
      var f := Step(s, e).calls.forwards[n];
      StreamsGrow(s, e, f.conn);
      assert SessionOwned(s.table, f.conn);
      assert SessionAllocated(s.table, s.outbox.Keys, f.session);
      assert SessionAllocated(s.table, s.outbox.Keys, s.table.sessionCtr);
      if e.Hangup? { assert SessionOwned(s.table, e.conn); }
      if e.Receive? { assert SessionOwned(s.table, e.conn); }
    }
  }

  /** Forwards are only appended, each with its caller; answers are never taken back. */
  lemma CallsAppend(s: Server, e: Event)
    requires Invariant(s) && Admissible(s, e)
    ensures Step(s, e).calls.forwards ==
            s.calls.forwards
            + if Forwards(s, e) then [Forward(e.conn, s.table.sessionOf[e.conn], e.trId, e.message)] else []
    ensures s.calls.answered <= Step(s, e).calls.answered
  {
    hide Step, Invariant;
    CallsStep(s, e);
  }

  lemma {:induction false} RunOrigins(run: Run, n: nat)
    requires Valid(run)
    ensures OriginKnown(After(run), n)
    decreases |run|
  {
    hide Step, Invariant, Admissible, OriginKnown;
    if run == [] {
      assert OriginKnown(START, n) by { StartOrigin(n); }
    } else {
      RunOrigins(run[..|run| - 1], n);
      OriginStep(After(run[..|run| - 1]), run[|run| - 1], n);
    }
  }

  lemma StartOrigin(n: nat)
    ensures OriginKnown(START, n)
  {
  }

  lemma CallSends(s: Server, e: Event, d: Conn)
    requires WellFormed(s.nodes.shape) && Forwards(s, e) && d in s.outbox
    ensures Stream(Step(s, e), d)
         == Stream(s, d)
          + OneIf(CallTarget(s.nodes, s.table, e.message.uuid) == Some(d),
                  Packet(CallKey(s.calls.trIdCtr), e.message, None))
  {
    hide WellFormed;
  }

  /** A call is sent on to the creator of the vertex under the low 16 bits of its number. */
  lemma CallIsForwarded(run: Run, e: Event, d: Conn)
    requires Valid(run) && Admissible(After(run), e) && Forwards(After(run), e) && d in After(run).outbox
    ensures var s := After(run);
            var n := |s.calls.forwards|;
            && Step(s, e).calls.forwards
            == s.calls.forwards + [Forward(e.conn, s.table.sessionOf[e.conn], e.trId, e.message)]
            && Stream(Step(s, e), d)
            == Stream(s, d)
             + OneIf(s.table.sessions[s.nodes.creator[e.message.uuid]] == Some(d),
                     Packet((n % U16_SPAN) as U16, e.message, None))
  {
    var s := After(run);
    RunCalls(run);
    CallsAppend(s, e);
    CounterStep(|s.calls.forwards|, s.calls.trIdCtr);
    CallSends(s, e, d);
  }

  /** RPC ROUND TRIP. In every reachable state, an answer under the id of forward `n`, with
      fewer than 2^16 calls forwarded after it, goes to the connection that made the call,
      under the call's own transaction id, if that connection is still there, and nowhere
      else; it is then answered. A second answer is dropped. */
  lemma AnswerReturnsToCaller(run: Run, n: nat, e: Event, d: Conn)
    requires Valid(run) && Admissible(After(run), e) && n < |After(run).calls.forwards| <= n + U16_SPAN
    requires e.Receive? && (e.message.RpcAccept? || e.message.RpcReject?) && e.trId as int == n % U16_SPAN
    ensures var s := After(run);
            var f := s.calls.forwards[n];
            && n in Step(s, e).calls.answered
            && Stream(Step(s, e), d)
            == Stream(s, d)
             + OneIf(n !in s.calls.answered && d == f.conn && f.conn in s.table.sessionOf,
                     Packet(f.trId, e.message, Some(f.request)))
  {
    var s := After(run);
    RunCalls(run);
    RunOrigins(run, n);
    LatestWithinWindow(|s.calls.forwards|, n);
    assert KeyResolves(s.calls, e.trId);
    AnswerSends(s, e.conn, e.trId, e.message, d);
  }

  lemma AnswerSends(s: Server, sender: Conn, id: U16, m: Message, d: Conn)
    requires WellFormed(s.nodes.shape) && (m.RpcAccept? || m.RpcReject?)
    ensures Handle(s, sender, id, m) == Answer(s, id, m)
    ensures id !in s.calls.translation ==> Handle(s, sender, id, m) == s
    ensures id in s.calls.translation ==>
              && Handle(s, sender, id, m).calls == Resolved(s.calls, id)
              && Stream(Handle(s, sender, id, m), d)
              == Stream(s, d)
               + OneIf(d in s.outbox && s.calls.translation[id].0 in s.table.sessions
                       && s.table.sessions[s.calls.translation[id].0] == Some(d),
                       Returned(s.calls, id, m))
  {
    hide WellFormed;
  }

  /** The exact limit of the scheme: an answer to an unanswered forward resolves that very
      forward if and only if fewer than 2^16 calls were forwarded after it. */
  lemma AnswerResolvesIffRecent(run: Run, n: nat, e: Event)
    requires Valid(run) && Admissible(After(run), e) && n < |After(run).calls.forwards|
    requires n !in After(run).calls.answered
    requires e.Receive? && (e.message.RpcAccept? || e.message.RpcReject?) && e.trId as int == n % U16_SPAN
    ensures n in Step(After(run), e).calls.answered <==> |After(run).calls.forwards| <= n + U16_SPAN
  {
    var s := After(run);
    RunCalls(run);
    LatestWithinWindow(|s.calls.forwards|, n);
    assert KeyResolves(s.calls, e.trId);
    AnswerSends(s, e.conn, e.trId, e.message, 0);
  }
}
