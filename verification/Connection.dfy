/** A connection from its sign-in to its hang-up: what the session tables remember of it, and
    what still reaches it afterwards. */
module Connections {
  import opened Protocol
  import opened TreeShape
  import opened ServerSpec
  import opened Runs
  import opened Emission
  import opened Refinement
  import opened Sessions
  import opened Rpc
  import opened Responders
  import opened History
  import opened Subscribers
  import opened Exchanges

  // ----- one step

  /** Some session leads to `c` that is not its own. */
  ghost predicate Strays(t: Table, c: Conn) {
    exists i :: Stray(t, i, c)
  }

  /** A sign-in opens a session under a number never used before; the connection's own entry
      is kept if it has one. */
  lemma SigninOpens(s: Server, e: Event)
    requires Invariant(s) && Admissible(s, e) && e.Receive? && e.message.SigninRequest?
    ensures var t, t', i := s.table, Step(s, e).table, s.table.sessionCtr;
            && i !in t.sessions && t'.sessions == t.sessions[i := Some(e.conn)]
            && t'.sessionOf == (if e.conn in t.sessionOf then t.sessionOf else t.sessionOf[e.conn := i])
            && t'.sessionCtr == i + 1 && t'.connected == t.connected
  {
    hide Step, NodesInvariant, LinksInvariant;
    TableStep(s, e);
    assert SessionAllocated(s.table, s.outbox.Keys, s.table.sessionCtr);
  }

  /** Hanging up takes the connection out of both tables, and its session keeps its number
      but leads nowhere. The connection stays live exactly if a stray session led to it. */
  lemma HangupEnds(s: Server, c: Conn)
    requires Invariant(s) && Admissible(s, Hangup(c))
    ensures var t, t' := s.table, Step(s, Hangup(c)).table;
            && c !in t'.connected && (forall d | d != c :: d in t'.connected <==> d in t.connected)
            && c !in t'.sessionOf
            && (forall d | d != c :: d in t'.sessionOf <==> d in t.sessionOf)
            && (forall d | d in t'.sessionOf :: t'.sessionOf[d] == t.sessionOf[d])
            && (forall i :: i in t'.sessions <==> i in t.sessions)
            && (forall i | i in t.sessions ::
                  t'.sessions[i] == if c in t.sessionOf && t.sessionOf[c] == i then None else t.sessions[i])
    ensures var s' := Step(s, Hangup(c)); s'.nodes == s.nodes && s'.calls == s.calls && s'.outbox == s.outbox
    ensures Live(Step(s, Hangup(c)), c) <==> Strays(s.table, c)
  {
    hide LinksInvariant;
    assert SessionOwned(s.table, c);
    var s' := Step(s, Hangup(c));
    if Live(s', c) {
      var i :| i in s'.table.sessions && s'.table.sessions[i] == Some(c);
      assert Stray(s.table, i, c);
    }
    if i :| Stray(s.table, i, c) {
      assert s'.table.sessions[i] == Some(c);
    }
  }

  /** Nothing on the server leads to `c`, which was there once. */
  ghost predicate Gone(s: Server, c: Conn) {
    c in s.outbox && c !in s.table.connected && c !in s.table.sessionOf && !Live(s, c)
  }

  /** Nothing is sent to a connection that is gone, whatever happens, and it stays gone. */
  lemma GoneStep(s: Server, e: Event, c: Conn)
    requires Invariant(s) && Admissible(s, e) && Gone(s, c)
    ensures Gone(Step(s, e), c) && Stream(Step(s, e), c) == Stream(s, c)
  {
    hide Step, Exchanged, Announced, WellFormed, TableInvariant, LinksInvariant;
    StreamsGrow(s, e, c);
    LiveChanges(s, e, c);
    TableStep(s, e);
    if !e.Receive? {
      OtherStreams(s, e, c);
    } else if e.message.RpcAccept? || e.message.RpcReject? {
      StepReceives(s, e);
      AnswerSends(s, e.conn, e.trId, e.message, c);
    } else {
      EachRequestAnswered(s, e, c);
      NothingDue(s, e.conn, e.message, c);
      NothingExchanged(s, e, c);
    }
  }

  lemma OtherStreams(s: Server, e: Event, c: Conn)
    requires WellFormed(s.nodes.shape) && !e.Receive? && e != Connect(c)
    ensures Stream(Step(s, e), c) == Stream(s, c)
  {
  }

  lemma NothingDue(s: Server, sender: Conn, m: Message, c: Conn)
    requires NodesInvariant(s.nodes) && Gone(s, c)
    ensures Announced(s, sender, m, c) == []
  {
    hide WellFormed;
    assert SessionsOf(s, c) == {};
    forall u | u in s.nodes.listeners ensures EntriesOf(s, u, c) == {} { }
  }

  lemma NothingExchanged(s: Server, e: Event, c: Conn)
    requires NodesInvariant(s.nodes) && e.Receive? && e.conn != c && c in s.outbox && c in Step(s, e).outbox
    requires Announced(s, e.conn, e.message, c) == [] && Exchanged(s, e, c, s.outbox[c], Step(s, e).outbox[c])
    ensures Stream(Step(s, e), c) == Stream(s, c)
  {
    hide Announced, Step, WellFormed;
  }

  // ----- whole runs

  /** Connection `c` never signs in while it has a session. */
  ghost predicate SignsInOnceAs(run: Run, c: Conn)
    requires Valid(run)
    decreases |run|
  {
    run == [] ||
    (&& SignsInOnceAs(run[..|run| - 1], c)
     && !(run[|run| - 1].conn == c && SignsInAgain(After(run[..|run| - 1]), run[|run| - 1])))
  }

  lemma StrayStep(s: Server, e: Event, c: Conn)
    requires Invariant(s) && Admissible(s, e)
    ensures Strays(Step(s, e).table, c) <==> Strays(s.table, c) || (e.conn == c && SignsInAgain(s, e))
  {
    hide Step, LinksInvariant;
    TableStep(s, e);
    var t, t' := s.table, Step(s, e).table;
    assert SessionAllocated(t, s.outbox.Keys, t.sessionCtr);
    if i :| Stray(t, i, c) { StrayStays(s, e, i, c); }
    if e.conn == c && SignsInAgain(s, e) {
      assert SessionOwned(t, c);
      assert Stray(t', t.sessionCtr, c);
    }
    forall i | Stray(t', i, c) ensures Stray(t, i, c) || (e.conn == c && SignsInAgain(s, e)) {
      assert SessionOwned(t, c);
    }
  }

  /** A stray session leads to `c` if and only if `c` signed in while it had a session. */
  lemma {:induction false} StrayIffAgain(run: Run, c: Conn)
    requires Valid(run)
    ensures Strays(After(run).table, c) <==> !SignsInOnceAs(run, c)
    decreases |run|
  {
    hide Step, Invariant, Admissible, Strays, SignsInAgain;
    if run == [] {
      NoStraySession(c);
    } else {
      StrayIffAgain(run[..|run| - 1], c);
      StrayStep(After(run[..|run| - 1]), run[|run| - 1], c);
    }
  }

  lemma NoStraySession(c: Conn)
    ensures !Strays(START.table, c)
  {
  }

  /** If no connection signs in again, `c` does not. */
  lemma {:induction false} OnceAsAny(run: Run, c: Conn)
    requires Valid(run) && SignsInOnce(run)
    ensures SignsInOnceAs(run, c)
    decreases |run|
  {
    hide Step, Invariant, Admissible, SignsInAgain;
    if run != [] {
      OnceAsAny(run[..|run| - 1], c);
    }
  }

  /** Splits off the hang-up. */
  lemma HungUp(run: Run, c: Conn)
    requires Valid(run + [Hangup(c)])
    ensures Valid(run) && Admissible(After(run), Hangup(c))
    ensures After(run + [Hangup(c)]) == Step(After(run), Hangup(c))
  {
    hide Step, Admissible;
    assert (run + [Hangup(c)])[..|run + [Hangup(c)]| - 1] == run;
  }

  /** A connection that hangs up is gone, if and only if it had not signed in again. */
  lemma GoneIffOnce(run: Run, c: Conn)
    requires Valid(run + [Hangup(c)])
    ensures Valid(run) && (Gone(After(run + [Hangup(c)]), c) <==> SignsInOnceAs(run, c))
  {
    hide Step, NodesInvariant, LinksInvariant;
    HungUp(run, c);
    HangupEnds(After(run), c);
    StrayIffAgain(run, c);
  }

  lemma {:induction false} StaysGone(run: Run, later: Run, c: Conn)
    requires Valid(run) && Valid(run + later) && Gone(After(run), c)
    ensures Gone(After(run + later), c) && Stream(After(run + later), c) == Stream(After(run), c)
    decreases |later|
  {
    hide Step, Admissible, Invariant, Gone, Stream;
    if later == [] {
      assert run + later == run;
    } else {
      var front, e := later[..|later| - 1], later[|later| - 1];
      LastStep(run, later, c);
      StaysGone(run, front, c);
      GoneStep(After(run + front), e, c);
    }
  }

  /** NOTHING AFTER THE HANG-UP. A connection that never signed in twice is sent nothing more
      once it has hung up, in every continuation. */
  lemma StreamEnds(run: Run, later: Run, c: Conn)
    requires Valid(run + [Hangup(c)] + later)
    ensures Valid(run)
    ensures SignsInOnceAs(run, c) ==> Stream(After(run + [Hangup(c)] + later), c) == Stream(After(run), c)
  {
    hide Step, Admissible, Invariant, Gone, SignsInOnceAs;
    Extends(run + [Hangup(c)], later, c);
    HungUp(run, c);
    GoneIffOnce(run, c);
    HangupEnds(After(run), c);
    SameStream(After(run), After(run + [Hangup(c)]), c);
    if SignsInOnceAs(run, c) {
      StaysGone(run + [Hangup(c)], later, c);
    }
  }

  lemma SameStream(s: Server, s': Server, c: Conn)
    requires s'.outbox == s.outbox
    ensures Stream(s', c) == Stream(s, c)
  {
  }

  // ----- calls of what it created

  /** Vertex `u` was created in session `i`, which leads nowhere any more. */
  ghost predicate Orphaned(s: Server, u: U64, i: U32) {
    && u < s.nodes.uuidCtr as U64 && i in s.table.sessions && s.table.sessions[i] == None
    && (u in s.nodes.shape ==> u in s.nodes.creator && s.nodes.creator[u] == i)
  }

  lemma OrphanedStep(s: Server, e: Event, u: U64, i: U32)
    requires Invariant(s) && Admissible(s, e) && Orphaned(s, u, i)
    ensures Orphaned(Step(s, e), u, i)
  {
    hide Step, WellFormed, TableInvariant, LinksInvariant;
    SessionsPersist(s, e, i);
    NodesStep(s, e);
    StepKeepsInvariant(s, e);
    if u in Step(s, e).nodes.shape {
      CreatorStep(s, e, u);
    }
  }

  lemma {:induction false} StaysOrphaned(run: Run, later: Run, u: U64, i: U32)
    requires Valid(run) && Valid(run + later) && Orphaned(After(run), u, i)
    ensures Orphaned(After(run + later), u, i)
    decreases |later|
  {
    hide Step, Admissible, Invariant, Orphaned, Stream;
    if later == [] {
      assert run + later == run;
    } else {
      LastStep(run, later, 0);
      StaysOrphaned(run, later[..|later| - 1], u, i);
      OrphanedStep(After(run + later[..|later| - 1]), later[|later| - 1], u, i);
    }
  }

  lemma OrphanUncalled(s: Server, e: Event, i: U32)
    requires Invariant(s) && e.Receive? && e.message.RpcRequest?
    requires e.message.uuid in s.nodes.shape && Orphaned(s, e.message.uuid, i)
    ensures Step(s, e) == s
  {
    hide WellFormed, TableInvariant, LinksInvariant;
  }

  /** A call of a living vertex whose creator has hung up changes nothing and is sent to
      nobody, in every continuation. */
  lemma CallsEnd(run: Run, later: Run, c: Conn, e: Event)
    requires Valid(run + [Hangup(c)] + later) && Valid(run)
    requires e.Receive? && e.message.RpcRequest?
    requires var u, s := e.message.uuid, After(run);
             u in s.nodes.creator && c in s.table.sessionOf && s.nodes.creator[u] == s.table.sessionOf[c]
    requires e.message.uuid in After(run + [Hangup(c)] + later).nodes.shape
    ensures WellFormed(After(run + [Hangup(c)] + later).nodes.shape)
    ensures Step(After(run + [Hangup(c)] + later), e) == After(run + [Hangup(c)] + later)
  {
    hide Step, Admissible, TableInvariant, LinksInvariant, WellFormed, Stream;
    var u, s := e.message.uuid, After(run);
    var i := s.table.sessionOf[c];
    Extends(run + [Hangup(c)], later, c);
    HungUp(run, c);
    HangupEnds(s, c);
    SessionKnown(s, c);
    StaysOrphaned(run + [Hangup(c)], later, u, i);
    OrphanUncalled(After(run + [Hangup(c)] + later), e, i);
  }

  lemma SessionKnown(s: Server, c: Conn)
    requires Invariant(s) && c in s.table.sessionOf
    ensures s.table.sessionOf[c] in s.table.sessions
  {
    assert SessionOwned(s.table, c);
  }
}
