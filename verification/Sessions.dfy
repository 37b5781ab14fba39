/** The session table over runs with sign-ins and disconnects. */
module Sessions {
  import opened Protocol
  import opened TreeShape
  import opened ServerSpec
  import opened Runs
  import opened Emission
  import opened Refinement

  /** `mSessions` holds connection `c` under `i`, but `mConnectionToSessionId` disagrees. */
  ghost predicate Stray(t: Table, i: U32, c: Conn) {
    i in t.sessions && t.sessions[i] == Some(c) && !(c in t.sessionOf && t.sessionOf[c] == i)
  }

  /** The two tables are mutually inverse on live connections. */
  ghost predicate Inverse(t: Table) {
    && (forall i, c :: !Stray(t, i, c))
    && (forall c :: c in t.sessionOf ==> t.sessionOf[c] in t.sessions && t.sessions[t.sessionOf[c]] == Some(c))
  }

  predicate SignsInAgain(s: Server, e: Event) {
    e.Receive? && e.message.SigninRequest? && e.conn in s.table.sessionOf
  }

  /** No connection signs in again. */
  ghost predicate SignsInOnce(run: Run)
    requires Valid(run)
    decreases |run|
  {
    run == [] || (SignsInOnce(run[..|run| - 1]) && !SignsInAgain(After(run[..|run| - 1]), run[|run| - 1]))
  }

  lemma TableStep(s: Server, e: Event)
    requires Invariant(s) && Admissible(s, e)
    ensures Step(s, e).table ==
            match e
            case Connect(c) => s.table.(connected := s.table.connected + {c})
            case Hangup(c) => HangUp(s.table, c)
            case Receive(c, _, m) => if m.SigninRequest? then OpenSession(s.table, c) else s.table
  {
    if e.Receive? {
      hide Handle;
      if e.message.SigninRequest? { SigninTable(s, e.conn, e.trId, e.message); }
      else { ReceiveKeepsTable(s, e.conn, e.trId, e.message); }
    }
  }

  lemma InverseStep(s: Server, e: Event)
    requires Invariant(s) && Admissible(s, e) && Inverse(s.table)
    ensures Inverse(Step(s, e).table) <==> !SignsInAgain(s, e)
  {
    hide Step, LinksInvariant;
    TableStep(s, e);
    StepKeepsTable(s, e);
    var t, t' := s.table, Step(s, e).table;
    assert SessionAllocated(t, s.outbox.Keys, t.sessionCtr);
    forall c ensures SessionOwned(t', c) { }
    if e.Hangup? { assert SessionOwned(t, e.conn); }
    forall i, c | Stray(t', i, c) ensures SignsInAgain(s, e) {
      assert !Stray(t, i, c);
    }
    if SignsInAgain(s, e) {
      var c := e.conn;
      assert SessionOwned(t, c);
      assert Stray(t', t.sessionCtr, c);
    }
  }

  lemma StepKeepsTable(s: Server, e: Event)
    requires Invariant(s) && Admissible(s, e)
    ensures TableInvariant(Step(s, e).table, Step(s, e).outbox.Keys)
  {
    StepKeepsInvariant(s, e);
  }

  /** A stray session never becomes regular again. */
  lemma StrayStays(s: Server, e: Event, i: U32, c: Conn)
    requires Invariant(s) && Admissible(s, e) && Stray(s.table, i, c)
    ensures Stray(Step(s, e).table, i, c)
  {
    hide Step, NodesInvariant, LinksInvariant;
    TableStep(s, e);
    assert SessionAllocated(s.table, s.outbox.Keys, i) && SessionAllocated(s.table, s.outbox.Keys, s.table.sessionCtr);
    if e.Hangup? { assert SessionOwned(s.table, e.conn); }
  }

  /** Over whole runs the tables are mutually inverse if and only if no connection ever
      signed in twice. */
  lemma {:induction false} InverseIffSignsInOnce(run: Run)
    requires Valid(run)
    ensures Inverse(After(run).table) <==> SignsInOnce(run)
    decreases |run|
  {
    hide Step, Admissible, NodesInvariant, LinksInvariant;
    if run != [] {
      var front, e := run[..|run| - 1], run[|run| - 1];
      InverseIffSignsInOnce(front);
      if SignsInOnce(front) {
        InverseStep(After(front), e);
      } else {
        var s := After(front);
        NotInverse(s);
        var i, c :| Stray(s.table, i, c);
        StrayStays(s, e, i, c);
      }
    }
  }

  lemma NotInverse(s: Server)
    requires Invariant(s) && !Inverse(s.table)
    ensures exists i, c :: Stray(s.table, i, c)
  {
    forall c | c in s.table.sessionOf
      ensures s.table.sessionOf[c] in s.table.sessions && s.table.sessions[s.table.sessionOf[c]] == Some(c)
    {
      assert SessionOwned(s.table, c);
    }
  }

  /** Session ids never disappear, and a session's connection never changes hands. */
  lemma SessionsPersist(s: Server, e: Event, i: U32)
    requires Invariant(s) && Admissible(s, e) && i in s.table.sessions
    ensures i in Step(s, e).table.sessions
    ensures Step(s, e).table.sessions[i] == s.table.sessions[i] || Step(s, e).table.sessions[i] == None
  {
    hide Step, NodesInvariant, LinksInvariant;
    TableStep(s, e);
    assert SessionAllocated(s.table, s.outbox.Keys, i);
  }

  /** The lookup of an rpc target's session succeeds for every vertex but the root. */
  lemma CreatorLookup(s: Server, u: U64)
    requires Invariant(s) && u in s.nodes.shape
    ensures s.nodes.creator[u] in s.table.sessions <==> u != ROOT
  {
    assert CreatorKnown(s.nodes, s.table, u);
    assert SessionAllocated(s.table, s.outbox.Keys, NO_SESSION);
  }
}
