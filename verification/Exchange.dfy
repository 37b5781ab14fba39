/** What a request brings about, in the words of the messages: who is sent what, and when
    nothing is sent at all. */
module Exchanges {
  import opened Protocol
  import opened TreeShape
  import opened Snapshot
  import opened ServerSpec
  import opened Runs
  import opened Emission
  import opened Refinement
  import opened Sessions
  import opened Rpc
  import opened History
  import opened Subscribers
  import opened Listings

  // ----- the answer to a request

  /** The one message that stops the server instead of being stored. */
  predicate Stops(m: Message) {
    m == SetValueRequest(0, [9, 0, 0, 0])
  }

  /** Requests that are dropped: a write to an unknown vertex, the write that stops the
      server, a call of a known vertex (forwarded if its creator is there), and what needs a
      session on a connection that has none. Answers to calls, and messages only a server
      sends, are not requests. */
  predicate Silent(s: Server, c: Conn, m: Message) {
    match m
    case SigninRequest(_) => false
    case HearbeatRequest(_) => false
    case GetRequest(_) => false
    case TreeInfoRequest(_, _, _) => false
    case DeleteRequest(_) => false
    case SetValueRequest(u, _) => u !in s.nodes.shape || Stops(m)
    case RpcRequest(u, _) => u in s.nodes.shape
    case CreateRequest(_, parent) => parent in s.nodes.shape && c !in s.table.sessionOf
    case SubscribeRequest(u) => u in s.nodes.shape && c !in s.table.sessionOf
    case UnsubscribeRequest(u) => u in s.nodes.shape && c !in s.table.sessionOf
    case _ => true
  }

  /** `a` is the right answer to request `m` of connection `c`. */
  ghost predicate RightAnswer(s: Server, c: Conn, m: Message, a: Message)
    requires WellFormed(s.nodes.shape) && s.nodes.data.Keys == s.nodes.shape.Keys
  {
    var t := s.nodes.shape;
    match m
    case SigninRequest(_) => a == SigninAccept(0)
    case HearbeatRequest(_) => a == HearbeatResponse(0)
    case GetRequest(u) => a == (if u in t then GetAccept(s.nodes.data[u]) else GetReject(NOT_FOUND))
    case SetValueRequest(_, _) => a == SetValueAccept(0)
    case RpcRequest(_, _) => a == RpcReject(NOT_FOUND)
    case CreateRequest(name, parent) =>
      a == (if parent !in t then CreateReject(NOT_FOUND)
            else if name in t[parent].children then CreateReject(ALREADY_EXIST)
            else CreateAccept(s.nodes.uuidCtr as U64))
    case DeleteRequest(u) =>
      a == DeleteResponse(if u !in t then NOT_FOUND else if t[u].children != map[] then NOT_EMPTY else OK)
    case SubscribeRequest(u) => a == SubscribeResponse(if u in t then OK else NOT_FOUND)
    case UnsubscribeRequest(u) => a == UnsubscribeResponse(if u in t && Subscribed(s, c, u) then OK else NOT_FOUND)
    case TreeInfoRequest(parent, name, recursive) => RightListing(t, parent, name, recursive, a)
    case _ => false
  }

  ghost predicate RightListing(t: Shape, parent: U64, name: Name, recursive: Byte, a: Message)
    requires WellFormed(t)
  {
    if parent !in t || (name != "." && name !in t[parent].children) then a == TreeInfoErrorResponse(NOT_FOUND)
    else
      assert ChildLinked(t, parent, name);
      var top := if name == "." then parent else t[parent].children[name];
      a.TreeInfoResponse? && Listing(t, top, name != ".", recursive != 0, a.nodeToAddList)
  }

  // ----- what else is sent

  /** `n` times the same notification. */
  function Notified(n: nat, m: Message): seq<Packet> {
    seq(n, _ => Packet(0xFFFF, m, None))
  }

  /** The sessions whose connection is `c`. */
  function SessionsOf(s: Server, c: Conn): set<U32> {
    set i | i in s.table.sessions && s.table.sessions[i] == Some(c)
  }

  /** The entries in the listener table of `u` that lead to `c`, while the connection exists. */
  ghost function EntriesOf(s: Server, u: U64, c: Conn): set<U32>
    requires u in s.nodes.listeners
  {
    set i | && i in s.nodes.listeners[u] && s.nodes.listeners[u][i] == c
            && (c in s.table.connected || SessionsOf(s, c) != {})
  }

  /** The vertex was created in a session whose connection is `c`. */
  predicate CreatorAt(s: Server, u: U64, c: Conn)
    requires s.nodes.creator.Keys == s.nodes.shape.Keys
  {
    && u in s.nodes.shape && s.nodes.creator[u] in s.table.sessions
    && s.table.sessions[s.nodes.creator[u]] == Some(c)
  }

  /** What message `m` from `sender` makes the server send to `c`, besides an answer. */
  ghost function Announced(s: Server, sender: Conn, m: Message, c: Conn): seq<Packet>
    requires NodesInvariant(s.nodes)
  {
    var t := s.nodes.shape;
    match m
    case CreateRequest(name, parent) =>
      if parent in t && sender in s.table.sessionOf && name !in t[parent].children
      then Notified(|SessionsOf(s, c)|,
                    TreeUpdateNotification([NamedNode(name, s.nodes.uuidCtr as U64, parent)], []))
      else []
    case DeleteRequest(u) =>
      if u in t && t[u].children == map[]
      then Notified(|SessionsOf(s, c)|, TreeUpdateNotification([], [u])) else []
    case SetValueRequest(u, data) =>
      if u in t && !Stops(m) then Notified(|EntriesOf(s, u, c)|, UpdateNotification(u, data)) else []
    case RpcRequest(u, _) =>
      if sender in s.table.sessionOf && CreatorAt(s, u, c)
      then [Packet((s.calls.trIdCtr as int % 0x1_0000) as U16, m, None)] else []
    case _ => []
  }

  /** The part of `c`'s stream that the step adds: the answer, if it is `c` who asked and the
      request is not a silent one, and then the announcements. */
  ghost predicate Exchanged(s: Server, e: Event, c: Conn, before: seq<Packet>, after: seq<Packet>)
    requires NodesInvariant(s.nodes) && e.Receive?
  {
    var n := if c == e.conn && !Silent(s, e.conn, e.message) then 1 else 0;
    var announced := Announced(s, e.conn, e.message, c);
    && |after| == |before| + n + |announced|
    && before <= after
    && after[|before| + n..] == announced
    && (n == 1 ==>
          && after[|before|].transactionId == e.trId
          && after[|before|].answers == Some(e.message)
          && RightAnswer(s, e.conn, e.message, after[|before|].message))
  }

  // ----- the handlers

  lemma Answered(s: Server, e: Event, c: Conn, a: Message)
    requires NodesInvariant(s.nodes) && e.Receive? && c in s.outbox
    requires !Silent(s, e.conn, e.message) && Announced(s, e.conn, e.message, c) == []
    requires RightAnswer(s, e.conn, e.message, a)
    ensures Exchanged(s, e, c, s.outbox[c], Reply(s, e.conn, e.trId, a, e.message).outbox[c])
  {
    hide WellFormed, Silent, RightAnswer, Announced;
  }

  lemma SigninExchange(s: Server, e: Event, c: Conn)
    requires NodesInvariant(s.nodes) && e.Receive? && c in s.outbox
    requires e.message.SigninRequest? || e.message.HearbeatRequest? || e.message.GetRequest?
    ensures Exchanged(s, e, c, s.outbox[c], Step(s, e).outbox[c])
  {
    hide WellFormed;
  }

  lemma QueryExchange(s: Server, e: Event, c: Conn)
    requires NodesInvariant(s.nodes) && e.Receive? && c in s.outbox && e.message.TreeInfoRequest?
    ensures Exchanged(s, e, c, s.outbox[c], Step(s, e).outbox[c])
  {
    hide WellFormed, Listing, PreOrder;
    var t, m := s.nodes.shape, e.message;
    if Query(t, m.parentUuid, m.name, m.recursive != 0).Some? {
      QueryListing(t, m.parentUuid, m.name, m.recursive != 0);
    }
  }

  lemma CreateExchange(s: Server, e: Event, c: Conn)
    requires NodesInvariant(s.nodes) && e.Receive? && c in s.outbox && e.message.CreateRequest?
    ensures Exchanged(s, e, c, s.outbox[c], Step(s, e).outbox[c])
  {
    hide WellFormed, Insert, InsertNode;
    if Creates(s, e) {
      CreateEmits(s, e, c);
      assert SessionsOf(s, c) == Aimed(s.table.sessions, c);
      assert Repeat(AddNotice(Created(s, e)), Copies(s, c))
          == Notified(Copies(s, c), TreeUpdateNotification([Created(s, e)], []));
    }
  }

  lemma DeleteExchange(s: Server, e: Event, c: Conn)
    requires NodesInvariant(s.nodes) && e.Receive? && c in s.outbox && e.message.DeleteRequest?
    ensures Exchanged(s, e, c, s.outbox[c], Step(s, e).outbox[c])
  {
    hide WellFormed, Remove, RemoveNode;
    if Deletes(s, e) {
      DeleteEmits(s, e, c);
      assert SessionsOf(s, c) == Aimed(s.table.sessions, c);
      assert Repeat(DeleteNotice(e.message.uuid), Copies(s, c))
          == Notified(Copies(s, c), TreeUpdateNotification([], [e.message.uuid]));
    }
  }

  lemma WriteExchange(s: Server, e: Event, c: Conn)
    requires NodesInvariant(s.nodes) && e.Receive? && c in s.outbox && e.message.SetValueRequest?
    ensures Exchanged(s, e, c, s.outbox[c], Step(s, e).outbox[c])
  {
    hide WellFormed;
    var u := e.message.uuid;
    if Writes(s, e, u) {
      WriteEmits(s, e, c, u);
      EntriesAimed(s, u, c);
      var p := Packet(NOTIFICATION, UpdateNotification(u, e.message.data), None);
      var n := |EntriesOf(s, u, c)|;
      assert Repeat(p, n) == Notified(n, UpdateNotification(u, e.message.data));
    }
  }

  lemma EntriesAimed(s: Server, u: U64, c: Conn)
    requires u in s.nodes.listeners
    ensures EntriesOf(s, u, c) == Aimed(ListenerTargets(ListenersOf(s.nodes, u), s.table), c)
  {
    if i :| i in s.table.sessions && s.table.sessions[i] == Some(c) {
      assert i in SessionsOf(s, c);
    }
    if i :| i in SessionsOf(s, c) {
      assert Locks(s.table, c);
    }
  }

  lemma SubscribeExchange(s: Server, e: Event, c: Conn)
    requires NodesInvariant(s.nodes) && e.Receive? && c in s.outbox && e.message.SubscribeRequest?
    ensures Exchanged(s, e, c, s.outbox[c], Step(s, e).outbox[c])
  {
    hide WellFormed;
  }

  lemma UnsubscribeExchange(s: Server, e: Event, c: Conn)
    requires Invariant(s) && e.Receive? && c in s.outbox && e.message.UnsubscribeRequest?
    ensures Exchanged(s, e, c, s.outbox[c], Step(s, e).outbox[c])
  {
    OwnEntry(s, e.conn, e.message.uuid);
    hide WellFormed, TableInvariant, LinksInvariant;
  }

  /** A listener entry under a connection's session leads to that connection. */
  lemma OwnEntry(s: Server, c: Conn, u: U64)
    requires Invariant(s)
    ensures u in s.nodes.listeners && c in s.table.sessionOf && s.table.sessionOf[c] in s.nodes.listeners[u] ==>
              s.nodes.listeners[u][s.table.sessionOf[c]] == c
  {
    assert SessionOwned(s.table, c);
    if c in s.table.sessionOf {
      assert ListenerKeyed(s.nodes, s.table, s.outbox.Keys, u, s.table.sessionOf[c]);
    }
  }

  lemma CallExchange(s: Server, e: Event, c: Conn)
    requires NodesInvariant(s.nodes) && e.Receive? && c in s.outbox && e.message.RpcRequest?
    ensures Exchanged(s, e, c, s.outbox[c], Step(s, e).outbox[c])
  {
    hide WellFormed;
  }

  /** EVERY REQUEST IS ANSWERED. A step on any message but an answer to a call sends its sender
      one answer, the right one, under the request's own id, unless the request is one of the
      silent ones; it sends everybody the announcements that are due; and nothing else. */
  lemma EachRequestAnswered(s: Server, e: Event, c: Conn)
    requires Invariant(s) && e.Receive? && c in s.outbox && !e.message.RpcAccept? && !e.message.RpcReject?
    ensures c in Step(s, e).outbox && Exchanged(s, e, c, s.outbox[c], Step(s, e).outbox[c])
  {
    hide Exchanged, Step, WellFormed, TableInvariant, LinksInvariant;
    StepReceives(s, e);
    ReceiveKeepsConnections(s, e.conn, e.trId, e.message);
    match e.message
    case SigninRequest(_) => SigninExchange(s, e, c);
    case HearbeatRequest(_) => SigninExchange(s, e, c);
    case GetRequest(_) => SigninExchange(s, e, c);
    case TreeInfoRequest(_, _, _) => QueryExchange(s, e, c);
    case CreateRequest(_, _) => CreateExchange(s, e, c);
    case DeleteRequest(_) => DeleteExchange(s, e, c);
    case SetValueRequest(_, _) => WriteExchange(s, e, c);
    case SubscribeRequest(_) => SubscribeExchange(s, e, c);
    case UnsubscribeRequest(_) => UnsubscribeExchange(s, e, c);
    case RpcRequest(_, _) => CallExchange(s, e, c);
    case _ => UnheardExchange(s, e, c);
  }

  lemma UnheardExchange(s: Server, e: Event, c: Conn)
    requires NodesInvariant(s.nodes) && e.Receive? && c in s.outbox
    requires !e.message.SigninRequest? && !e.message.HearbeatRequest? && !e.message.GetRequest?
    requires !e.message.TreeInfoRequest? && !e.message.CreateRequest? && !e.message.DeleteRequest?
    requires !e.message.SetValueRequest? && !e.message.SubscribeRequest? && !e.message.UnsubscribeRequest?
    requires !e.message.RpcRequest? && !e.message.RpcAccept? && !e.message.RpcReject?
    ensures Exchanged(s, e, c, s.outbox[c], Step(s, e).outbox[c])
  {
    hide WellFormed;
  }

  // ----- writes

  /** Only the stop write stops the server. */
  lemma StopsIff(s: Server, e: Event)
    requires Invariant(s) && Admissible(s, e)
    ensures Step(s, e).stopped <==> e.Receive? && e.message == SetValueRequest(0, [9, 0, 0, 0])
  {
    hide WellFormed, Query, Broadcast, Insert, Remove, TableInvariant, LinksInvariant, InsertNode, RemoveNode;
  }

  /** Any other write to a live vertex, these bytes included, is stored, answered to its sender
      under its id, and reaches every subscriber. */
  lemma WriteAccepted(s: Server, e: Event, u: U64, data: Bytes, c: Conn)
    requires Invariant(s) && Admissible(s, e)
    requires e.Receive? && e.message == SetValueRequest(u, data)
    requires u in s.nodes.shape && (u != 0 || data != [9, 0, 0, 0])
    ensures Step(s, e).nodes.shape == s.nodes.shape && Step(s, e).nodes.data == s.nodes.data[u := data]
    ensures !Step(s, e).stopped
    ensures e.conn in s.outbox
    ensures var before, after := Stream(s, e.conn), Stream(Step(s, e), e.conn);
            && |before| < |after| && before <= after
            && after[|before|] == Packet(e.trId, SetValueAccept(0), Some(SetValueRequest(u, data)))
    ensures Subscribed(s, c, u) ==>
              Packet(0xFFFF, UpdateNotification(u, data), None) in Stream(Step(s, e), c)[|Stream(s, c)|..]
  {
    hide Step, WellFormed, TableInvariant, LinksInvariant, Repeat;
    StopsIff(s, e);
    Connected(s, e);
    OtherDataHere(s, e, u);
    WriteEmits(s, e, e.conn, u);
    if Subscribed(s, c, u) {
      SubscriberReached(s, e, c, u);
    }
  }

  lemma Connected(s: Server, e: Event)
    requires Invariant(s) && Admissible(s, e) && e.Receive?
    ensures e.conn in s.outbox
  {
  }

  lemma OtherDataHere(s: Server, e: Event, u: U64)
    requires Invariant(s) && Writes(s, e, u)
    ensures Step(s, e).nodes.data == s.nodes.data[u := e.message.data] && Step(s, e).nodes.shape == s.nodes.shape
  {
    hide Step;
    OtherData(s, e, u);
  }

  lemma SubscriberReached(s: Server, e: Event, c: Conn, u: U64)
    requires Invariant(s) && Writes(s, e, u) && Subscribed(s, c, u)
    ensures Stream(s, c) <= Stream(Step(s, e), c)
    ensures Packet(NOTIFICATION, UpdateNotification(u, e.message.data), None)
         in Stream(Step(s, e), c)[|Stream(s, c)|..]
  {
    hide Step, Repeat, WellFormed;
    assert SessionOwned(s.table, c);
    WriteEmits(s, e, c, u);
    var targets := ListenerTargets(ListenersOf(s.nodes, u), s.table);
    assert s.table.sessionOf[c] in Aimed(targets, c);
    var p := Packet(NOTIFICATION, UpdateNotification(u, e.message.data), None);
    RepeatHas(p, |Aimed(targets, c)|);
    var i := |s.outbox[c] + OneIf(c == e.conn, Packet(e.trId, SetValueAccept(0), Some(e.message)))|;
    assert Step(s, e).outbox[c][|s.outbox[c]|..][i - |s.outbox[c]|] == p;
  }

  // ----- subscriptions

  /** Who is subscribed to what after a step: subscribing takes a session and a live vertex;
      it ends by unsubscribing, hanging up or the death of the vertex, and by nothing else. */
  lemma SubscribedIff(s: Server, e: Event, c: Conn, u: U64)
    requires Invariant(s) && Admissible(s, e)
    ensures Subscribed(Step(s, e), c, u) <==>
            || (Subscribes(e, c, u) && c in s.table.sessionOf && u in s.nodes.shape)
            || (&& Subscribed(s, c, u) && e != Hangup(c) && !Unsubscribes(e, c, u)
                && !(Deletes(s, e) && e.message.uuid == u))
  {
    hide Step, WellFormed, TableInvariant, LinksInvariant, Subscribed, Insert, Remove;
    ShapeKeys(s, e);
    AliveAfter(s, e, c, u);
    if Subscribed(s, c, u) && e != Hangup(c) && !Unsubscribes(e, c, u) && u in Step(s, e).nodes.shape {
      SubscribedStep(s, e, c, u);
    } else if Subscribes(e, c, u) && c in s.table.sessionOf && u in s.nodes.shape {
      SubscribesNow(s, e, c, u);
    } else if Subscribed(Step(s, e), c, u) {
      SubscribedBefore(s, e, c, u);
    }
  }

  lemma AliveAfter(s: Server, e: Event, c: Conn, u: U64)
    requires Invariant(s) && Admissible(s, e)
    ensures Subscribed(s, c, u) ==> u in s.nodes.shape
    ensures Subscribed(Step(s, e), c, u) ==> u in Step(s, e).nodes.shape
    ensures Creates(s, e) ==> s.nodes.uuidCtr as U64 !in s.nodes.shape
  {
    hide Step;
    StepKeepsInvariant(s, e);
  }

  lemma SubscribesNow(s: Server, e: Event, c: Conn, u: U64)
    requires Invariant(s) && Admissible(s, e) && Subscribes(e, c, u) && c in s.table.sessionOf && u in s.nodes.shape
    ensures Subscribed(Step(s, e), c, u)
  {
    hide Step, WellFormed, TableInvariant, LinksInvariant;
    NodesStep(s, e);
    ListenersStep(s, e, u);
    TableStep(s, e);
  }

  /** What one is subscribed to afterwards one was subscribed to before, or subscribes to now. */
  lemma SubscribedBefore(s: Server, e: Event, c: Conn, u: U64)
    requires Invariant(s) && Admissible(s, e) && Subscribed(Step(s, e), c, u) && u in Step(s, e).nodes.shape
    ensures || (Subscribes(e, c, u) && c in s.table.sessionOf && u in s.nodes.shape)
            || (Subscribed(s, c, u) && e != Hangup(c) && !Unsubscribes(e, c, u))
  {
    hide Step, WellFormed, LinksInvariant;
    TableStep(s, e);
    ListenersStep(s, e, u);
    assert u in s.nodes.shape;
    NewSessionUnlisted(s, u);
    assert SessionOwned(s.table, c);
    if e.Receive? { assert SessionOwned(s.table, e.conn); }
  }

  lemma SubscribedIndexedIf(s: Server, c: Conn, u: U64)
    requires Invariant(s)
    ensures Subscribed(s, c, u) ==> u in s.nodes.shape
  {
  }

  lemma NewSessionUnlisted(s: Server, u: U64)
    requires Invariant(s) && u in s.nodes.listeners
    ensures s.table.sessionCtr !in s.nodes.listeners[u]
  {
    assert ListenerKeyed(s.nodes, s.table, s.outbox.Keys, u, s.table.sessionCtr);
    assert SessionAllocated(s.table, s.outbox.Keys, s.table.sessionCtr);
  }

  /** A signed-in client is told OK exactly if the vertex lives, and is subscribed exactly then. */
  lemma SubscribeAnswered(s: Server, e: Event, c: Conn, u: U64)
    requires Invariant(s) && Admissible(s, e) && Subscribes(e, c, u) && c in s.table.sessionOf
    ensures Stream(Step(s, e), c)
         == Stream(s, c) + [Packet(e.trId, SubscribeResponse(if u in s.nodes.shape then OK else NOT_FOUND),
                                   Some(SubscribeRequest(u)))]
    ensures Subscribed(Step(s, e), c, u) <==> u in s.nodes.shape
  {
    hide Step, WellFormed, TableInvariant, LinksInvariant;
    Connected(s, e);
    EachRequestAnswered(s, e, c);
    SubscribedIff(s, e, c, u);
    SubscribedIndexedIf(s, c, u);
  }

  /** It is told OK exactly if it was subscribed to the vertex, and no longer is afterwards. */
  lemma UnsubscribeAnswered(s: Server, e: Event, c: Conn, u: U64)
    requires Invariant(s) && Admissible(s, e) && Unsubscribes(e, c, u) && c in s.table.sessionOf
    ensures Stream(Step(s, e), c)
         == Stream(s, c) + [Packet(e.trId, UnsubscribeResponse(if Subscribed(s, c, u) then OK else NOT_FOUND),
                                   Some(UnsubscribeRequest(u)))]
    ensures Subscribed(s, c, u) ==> u in s.nodes.shape
    ensures !Subscribed(Step(s, e), c, u)
  {
    hide Step, WellFormed, TableInvariant, LinksInvariant;
    Connected(s, e);
    EachRequestAnswered(s, e, c);
    SubscribedIff(s, e, c, u);
    SubscribedIndexedIf(s, c, u);
  }

  // ----- refusals

  /** A refused create: its sender is told why, nobody else is told anything, and nothing
      changes. */
  lemma CreateRefused(s: Server, e: Event, c: Conn)
    requires Invariant(s) && Admissible(s, e) && e.Receive? && e.message.CreateRequest? && c in s.outbox
    requires var p := e.message.parentUuid;
             p !in s.nodes.shape
             || (e.conn in s.table.sessionOf && e.message.name in s.nodes.shape[p].children)
    ensures var cause := if e.message.parentUuid !in s.nodes.shape then NOT_FOUND else ALREADY_EXIST;
            Stream(Step(s, e), c)
            == Stream(s, c) + if c == e.conn then [Packet(e.trId, CreateReject(cause), Some(e.message))] else []
    ensures Step(s, e).nodes == s.nodes && Step(s, e).table == s.table && Step(s, e).calls == s.calls
  {
    hide Step, WellFormed, TableInvariant, LinksInvariant;
    EachRequestAnswered(s, e, c);
    RefusedCreateKeeps(s, e);
  }

  lemma RefusedCreateKeeps(s: Server, e: Event)
    requires WellFormed(s.nodes.shape) && e.Receive? && e.message.CreateRequest? && !Creates(s, e)
    ensures Step(s, e).nodes == s.nodes && Step(s, e).table == s.table && Step(s, e).calls == s.calls
  {
    hide WellFormed, Insert, InsertNode, Broadcast;
  }
}
