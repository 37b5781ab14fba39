/** Runs of the server, and what every reachable state satisfies. */
module Runs {
  import opened Protocol
  import opened TreeShape
  import opened Snapshot
  import opened ServerSpec

  datatype Event =
    | Connect(conn: Conn)
    | Receive(conn: Conn, trId: U16, message: Message)
    | Hangup(conn: Conn)

  /** The index view of the tree agrees with the `children` view, the four node fields cover
      the same uuids, and the counter is ahead of all of them. */
  ghost predicate NodesInvariant(n: Nodes) {
    && WellFormed(n.shape)
    && n.data.Keys == n.shape.Keys
    && n.creator.Keys == n.shape.Keys
    && n.listeners.Keys == n.shape.Keys
    && n.creator[ROOT] == NO_SESSION
    && forall u | u in n.shape :: u < n.uuidCtr as U64
  }

  ghost predicate SessionAllocated(t: Table, conns: set<Conn>, i: U32) {
    i in t.sessions ==> i < t.sessionCtr && (t.sessions[i].Some? ==> t.sessions[i].value in conns)
  }

  ghost predicate SessionOwned(t: Table, c: Conn) {
    c in t.sessionOf ==> c in t.connected && t.sessionOf[c] in t.sessions && t.sessions[t.sessionOf[c]] == Some(c)
  }

  /** A signed-in connection owns a live session; `conns` are all connections ever accepted. */
  ghost predicate TableInvariant(t: Table, conns: set<Conn>) {
    && (forall i {:trigger SessionAllocated(t, conns, i)} :: SessionAllocated(t, conns, i))
    && (forall c {:trigger SessionOwned(t, c)} :: SessionOwned(t, c))
    && t.connected <= conns
  }

  ghost predicate CreatorKnown(n: Nodes, t: Table, u: U64) {
    u in n.creator && u != ROOT ==> n.creator[u] in t.sessions
  }

  /** A listener entry is keyed by the session its connection signed in with. */
  ghost predicate ListenerKeyed(n: Nodes, t: Table, conns: set<Conn>, u: U64, i: U32) {
    u in n.listeners && i in n.listeners[u] ==>
      var c := n.listeners[u][i];
      && c in conns
      && i in t.sessions && (t.sessions[i] == Some(c) || t.sessions[i] == None)
      && (c in t.sessionOf ==> t.sessionOf[c] == i)
      && (c in t.connected ==> c in t.sessionOf)
  }

  /** The node tables only mention known sessions. */
  ghost predicate LinksInvariant(n: Nodes, t: Table, conns: set<Conn>) {
    && (forall u {:trigger CreatorKnown(n, t, u)} :: CreatorKnown(n, t, u))
    && (forall u, i {:trigger ListenerKeyed(n, t, conns, u, i)} :: ListenerKeyed(n, t, conns, u, i))
  }

  ghost predicate Invariant(s: Server) {
    && NodesInvariant(s.nodes)
    && TableInvariant(s.table, s.outbox.Keys)
    && LinksInvariant(s.nodes, s.table, s.outbox.Keys)
  }

  /** What the code relies on but does not check: it dereferences the root's missing parent
      and creator session, and its 32-bit counters must not wrap. */
  ghost predicate Admissible(s: Server, e: Event)
    requires ROOT in s.nodes.shape
  {
    && !s.stopped
    && match e
       case Connect(c) => c !in s.outbox
       case Hangup(c) => c in s.table.connected
       case Receive(c, _, m) =>
         && c in s.table.connected
         && (m.SigninRequest? ==> s.table.sessionCtr < NO_SESSION)
         && (m.CreateRequest? ==> s.nodes.uuidCtr < 0xFFFF_FFFF)
         && (m.DeleteRequest? ==> !(m.uuid == ROOT && s.nodes.shape[ROOT].children == map[]))
         && (m.RpcRequest? ==> m.uuid != ROOT)
  }

  function Step(s: Server, e: Event): Server
    requires WellFormed(s.nodes.shape)
  {
    match e
    case Connect(c) => Accept(s, c)
    case Receive(c, trId, m) => Handle(s, c, trId, m)
    case Hangup(c) => Disconnect(s, c)
  }

  // ----- every step keeps the invariant

  lemma InsertNodeKeeps(n: Nodes, name: Name, parent: U64, session: U32)
    requires NodesInvariant(n) && parent in n.shape && name !in n.shape[parent].children
    requires n.uuidCtr < 0xFFFF_FFFF
    ensures NodesInvariant(InsertNode(n, name, parent, session))
  {
    InsertKeepsWellFormed(n.shape, NamedNode(name, n.uuidCtr as U64, parent));
  }

  lemma RemoveNodeKeeps(n: Nodes, uuid: U64)
    requires NodesInvariant(n) && uuid in n.shape && uuid != ROOT && n.shape[uuid].children == map[]
    ensures NodesInvariant(RemoveNode(n, uuid))
  {
    RemoveKeepsWellFormed(n.shape, uuid);
  }

  /** The node tables of `n'` come from those of `n` and from signed-in connections. */
  ghost predicate Carried(n: Nodes, n': Nodes, t: Table) {
    && (forall u | u in n'.creator ::
          || (u in n.creator && n'.creator[u] == n.creator[u])
          || exists c :: c in t.sessionOf && t.sessionOf[c] == n'.creator[u])
    && (forall u, i | u in n'.listeners && i in n'.listeners[u] ::
          || (u in n.listeners && i in n.listeners[u] && n'.listeners[u][i] == n.listeners[u][i])
          || (n'.listeners[u][i] in t.sessionOf && t.sessionOf[n'.listeners[u][i]] == i))
  }

  lemma CarriedKeeps(n: Nodes, n': Nodes, t: Table, conns: set<Conn>)
    requires TableInvariant(t, conns) && LinksInvariant(n, t, conns) && Carried(n, n', t)
    ensures LinksInvariant(n', t, conns)
  {
    forall u ensures CreatorKnown(n', t, u) {
      assert CreatorKnown(n, t, u);
      if u in n'.creator && !(u in n.creator && n'.creator[u] == n.creator[u]) {
        var c :| c in t.sessionOf && t.sessionOf[c] == n'.creator[u];
        assert SessionOwned(t, c);
      }
    }
    forall u, i ensures ListenerKeyed(n', t, conns, u, i) {
      assert ListenerKeyed(n, t, conns, u, i);
      if u in n'.listeners && i in n'.listeners[u] {
        assert SessionOwned(t, n'.listeners[u][i]);
      }
    }
  }

  lemma HangUpKeeps(n: Nodes, t: Table, conns: set<Conn>, c: Conn)
    requires TableInvariant(t, conns) && LinksInvariant(n, t, conns)
    ensures TableInvariant(HangUp(t, c), conns) && LinksInvariant(n, HangUp(t, c), conns)
  {
    var t' := HangUp(t, c);
    assert SessionOwned(t, c);
    forall i ensures SessionAllocated(t', conns, i) { assert SessionAllocated(t, conns, i); }
    forall d ensures SessionOwned(t', d) { assert SessionOwned(t, d); }
    forall u ensures CreatorKnown(n, t', u) { assert CreatorKnown(n, t, u); }
    forall u, i ensures ListenerKeyed(n, t', conns, u, i) { assert ListenerKeyed(n, t, conns, u, i); }
  }

  lemma OpenSessionKeeps(n: Nodes, t: Table, conns: set<Conn>, c: Conn)
    requires TableInvariant(t, conns) && LinksInvariant(n, t, conns)
    requires c in t.connected && t.sessionCtr < NO_SESSION
    ensures TableInvariant(OpenSession(t, c), conns) && LinksInvariant(n, OpenSession(t, c), conns)
  {
    var t' := OpenSession(t, c);
    assert SessionAllocated(t, conns, t.sessionCtr);
    forall i ensures SessionAllocated(t', conns, i) { assert SessionAllocated(t, conns, i); }
    forall d ensures SessionOwned(t', d) { assert SessionOwned(t, d); }
    forall u ensures CreatorKnown(n, t', u) { assert CreatorKnown(n, t, u); }
    forall u, i ensures ListenerKeyed(n, t', conns, u, i) { assert ListenerKeyed(n, t, conns, u, i); }
  }

  lemma AcceptKeeps(n: Nodes, t: Table, conns: set<Conn>, c: Conn)
    requires TableInvariant(t, conns) && LinksInvariant(n, t, conns) && c !in conns
    ensures TableInvariant(t.(connected := t.connected + {c}), conns + {c})
    ensures LinksInvariant(n, t.(connected := t.connected + {c}), conns + {c})
  {
    var t' := t.(connected := t.connected + {c});
    forall i ensures SessionAllocated(t', conns + {c}, i) { assert SessionAllocated(t, conns, i); }
    forall d ensures SessionOwned(t', d) { assert SessionOwned(t, d); }
    forall u ensures CreatorKnown(n, t', u) { assert CreatorKnown(n, t, u); }
    forall u, i ensures ListenerKeyed(n, t', conns + {c}, u, i) { assert ListenerKeyed(n, t, conns, u, i); }
  }

  lemma ReceiveKeepsConnections(s: Server, c: Conn, trId: U16, m: Message)
    requires WellFormed(s.nodes.shape)
    ensures Handle(s, c, trId, m).outbox.Keys == s.outbox.Keys
  {
  }

  /** Only sign-in changes the session table. */
  lemma ReceiveKeepsTable(s: Server, c: Conn, trId: U16, m: Message)
    requires WellFormed(s.nodes.shape) && !m.SigninRequest?
    ensures Handle(s, c, trId, m).table == s.table
  {
  }

  lemma CreateKeepsNodes(s: Server, c: Conn, trId: U16, name: Name, parent: U64)
    requires Invariant(s) && s.nodes.uuidCtr < 0xFFFF_FFFF
    ensures NodesInvariant(Create(s, c, trId, name, parent).nodes)
    ensures Carried(s.nodes, Create(s, c, trId, name, parent).nodes, s.table)
  {
    if parent in s.nodes.shape && c in s.table.sessionOf && name !in s.nodes.shape[parent].children {
      InsertNodeKeeps(s.nodes, name, parent, s.table.sessionOf[c]);
    }
  }

  lemma DeleteKeepsNodes(s: Server, c: Conn, trId: U16, uuid: U64)
    requires Invariant(s) && !(uuid == ROOT && s.nodes.shape[ROOT].children == map[])
    ensures NodesInvariant(Delete(s, c, trId, uuid).nodes)
    ensures Carried(s.nodes, Delete(s, c, trId, uuid).nodes, s.table)
  {
    if uuid in s.nodes.shape && s.nodes.shape[uuid].children == map[] {
      RemoveNodeKeeps(s.nodes, uuid);
    }
  }

  lemma SetListenersKeeps(n: Nodes, t: Table, uuid: U64, listeners: map<U32, Conn>)
    requires NodesInvariant(n) && uuid in n.shape
    requires forall i | i in listeners ::
               || (i in n.listeners[uuid] && listeners[i] == n.listeners[uuid][i])
               || (listeners[i] in t.sessionOf && t.sessionOf[listeners[i]] == i)
    ensures NodesInvariant(SetListeners(n, uuid, listeners))
    ensures Carried(n, SetListeners(n, uuid, listeners), t)
  {
  }

  lemma SubscribeKeepsNodes(s: Server, c: Conn, trId: U16, uuid: U64)
    requires Invariant(s)
    ensures NodesInvariant(Subscribe(s, c, trId, uuid).nodes)
    ensures Carried(s.nodes, Subscribe(s, c, trId, uuid).nodes, s.table)
  {
    if uuid in s.nodes.shape && c in s.table.sessionOf {
      SetListenersKeeps(s.nodes, s.table, uuid, s.nodes.listeners[uuid][s.table.sessionOf[c] := c]);
    }
  }

  lemma UnsubscribeKeepsNodes(s: Server, c: Conn, trId: U16, uuid: U64)
    requires Invariant(s)
    ensures NodesInvariant(Unsubscribe(s, c, trId, uuid).nodes)
    ensures Carried(s.nodes, Unsubscribe(s, c, trId, uuid).nodes, s.table)
  {
    if uuid in s.nodes.shape && c in s.table.sessionOf {
      SetListenersKeeps(s.nodes, s.table, uuid, s.nodes.listeners[uuid] - {s.table.sessionOf[c]});
    }
  }

  /** All other messages leave the nodes alone, except for their data. */
  lemma OthersKeepNodes(s: Server, c: Conn, trId: U16, m: Message)
    requires NodesInvariant(s.nodes)
    requires !m.CreateRequest? && !m.DeleteRequest? && !m.SubscribeRequest? && !m.UnsubscribeRequest?
    ensures var n := Handle(s, c, trId, m).nodes;
            && n.data.Keys == s.nodes.data.Keys
            && n == s.nodes.(data := n.data)
  {
    hide WellFormed;
  }

  lemma DataKeepsNodes(n: Nodes, n': Nodes, t: Table)
    requires NodesInvariant(n) && n'.data.Keys == n.data.Keys && n' == n.(data := n'.data)
    ensures NodesInvariant(n') && Carried(n, n', t)
  {
  }

  lemma ReceiveKeepsNodes(s: Server, c: Conn, trId: U16, m: Message)
    requires Invariant(s) && Admissible(s, Receive(c, trId, m))
    ensures NodesInvariant(Handle(s, c, trId, m).nodes)
    ensures Carried(s.nodes, Handle(s, c, trId, m).nodes, s.table)
  {
    hide Create, Delete, Subscribe, Unsubscribe, SetValue, Get, TreeInfo, Signin, Call, Answer, Heartbeat;
    hide Carried, WellFormed, TableInvariant, LinksInvariant;
    match m
    case CreateRequest(name, parent) => CreateKeepsNodes(s, c, trId, name, parent);
    case DeleteRequest(uuid) => DeleteKeepsNodes(s, c, trId, uuid);
    case SubscribeRequest(uuid) => SubscribeKeepsNodes(s, c, trId, uuid);
    case UnsubscribeRequest(uuid) => UnsubscribeKeepsNodes(s, c, trId, uuid);
    case _ =>
      OthersKeepNodes(s, c, trId, m);
      DataKeepsNodes(s.nodes, Handle(s, c, trId, m).nodes, s.table);
  }

  lemma StepKeepsInvariant(s: Server, e: Event)
    requires Invariant(s) && Admissible(s, e)
    ensures Invariant(Step(s, e))
  {
    match e
    case Connect(c) =>
      AcceptKeeps(s.nodes, s.table, s.outbox.Keys, c);
      assert Step(s, e).outbox.Keys == s.outbox.Keys + {c};
    case Hangup(c) =>
      HangUpKeeps(s.nodes, s.table, s.outbox.Keys, c);
    case Receive(c, trId, m) =>
      ReceiveKeepsConnections(s, c, trId, m);
      ReceiveKeepsNodes(s, c, trId, m);
      if m.SigninRequest? {
        OpenSessionKeeps(s.nodes, s.table, s.outbox.Keys, c);
      } else {
        ReceiveKeepsTable(s, c, trId, m);
        CarriedKeeps(s.nodes, Handle(s, c, trId, m).nodes, s.table, s.outbox.Keys);
      }
  }

  lemma StartInvariant()
    ensures Invariant(START)
  {
  }

  // ----- runs

  type Run = seq<Event>

  ghost predicate Valid(run: Run)
    decreases |run|, 0
  {
    run == [] || (Valid(run[..|run| - 1]) && Admissible(After(run[..|run| - 1]), run[|run| - 1]))
  }

  /** The state after a run. */
  ghost function After(run: Run): (s: Server)
    requires Valid(run)
    ensures Invariant(s)
    decreases |run|, 1
  {
    if run == [] then START
    else
      StepKeepsInvariant(After(run[..|run| - 1]), run[|run| - 1]);
      Step(After(run[..|run| - 1]), run[|run| - 1])
  }
}
