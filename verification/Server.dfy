/** The server as a state machine on values: one function per message handler. */
module ServerSpec {
  import opened Protocol
  import opened Names
  import opened TreeShape
  import opened Snapshot

  /** Session id stored as the creator of the root; never allocated. */
  const NO_SESSION: U32 := 0xFFFF_FFFF

  type Outbox = map<Conn, seq<Packet>>

  /** Where a forwarded call came from. */
  datatype Forward = Forward(conn: Conn, session: U32, trId: U16, request: Message)

  /** The fields of the nodes in `mTree`, by uuid, and the uuid counter. */
  datatype Nodes = Nodes(
    shape: Shape,
    data: map<U64, Bytes>,
    creator: map<U64, U32>,
    listeners: map<U64, map<U32, Conn>>,
    uuidCtr: U32)

  /** Sessions, and the connections the server holds. */
  datatype Table = Table(
    sessions: map<U32, Option<Conn>>,
    sessionOf: map<Conn, U32>,
    sessionCtr: U32,
    connected: set<Conn>)

  /** RPC id translation. `forwards` lists the origin of every forwarded call so far, and
      `answered` the positions in it that were answered. */
  datatype Calls = Calls(
    trIdCtr: U32,
    translation: map<U16, (U32, U16)>,
    forwards: seq<Forward>,
    answered: set<nat>)

  /** `outbox` holds everything ever sent to each accepted connection. */
  datatype Server = Server(nodes: Nodes, table: Table, calls: Calls, outbox: Outbox, stopped: bool)

  const START := Server(
    Nodes(map[ROOT := ROOT_VERTEX], map[ROOT := []], map[ROOT := NO_SESSION], map[ROOT := map[]], 1),
    Table(map[], map[], 0, {}), Calls(0, map[], [], {}), map[], false)

  function Increment(ctr: U32): U32 {
    if ctr == 0xFFFF_FFFF then 0 else ctr + 1
  }

  // ----- sending

  function Repeat(p: Packet, n: nat): seq<Packet> {
    seq(n, _ => p)
  }

  function Send(outbox: Outbox, to: Option<Conn>, p: Packet): (outbox': Outbox)
    ensures outbox'.Keys == outbox.Keys
  {
    match to
    case None => outbox
    case Some(c) => if c in outbox then outbox[c := outbox[c] + [p]] else outbox
  }

  /** The keys of `targets` that lead to connection `c`. */
  function Aimed(targets: map<U32, Option<Conn>>, c: Conn): set<U32> {
    set i | i in targets && targets[i] == Some(c)
  }

  /** One copy for each target, whatever the order of the loop over them. */
  function Broadcast(outbox: Outbox, targets: map<U32, Option<Conn>>, p: Packet): (outbox': Outbox)
    ensures outbox'.Keys == outbox.Keys
  {
    map c | c in outbox :: outbox[c] + Repeat(p, |Aimed(targets, c)|)
  }

  /** A weak reference to a connection locks while the connection table or some session
      still owns the connection. */
  predicate Locks(t: Table, c: Conn) {
    c in t.connected || exists i :: i in t.sessions && t.sessions[i] == Some(c)
  }

  function ListenersOf(n: Nodes, uuid: U64): map<U32, Conn> {
    if uuid in n.listeners then n.listeners[uuid] else map[]
  }

  function ListenerTargets(listeners: map<U32, Conn>, t: Table): map<U32, Option<Conn>> {
    map i | i in listeners :: if Locks(t, listeners[i]) then Some(listeners[i]) else None
  }

  function Reply(s: Server, c: Conn, trId: U16, answer: Message, request: Message): Server {
    s.(outbox := Send(s.outbox, Some(c), Packet(trId, answer, Some(request))))
  }

  function Notify(s: Server, m: Message): Server {
    s.(outbox := Broadcast(s.outbox, s.table.sessions, Packet(NOTIFICATION, m, None)))
  }

  // ----- handlers

  function Accept(s: Server, c: Conn): Server {
    s.(table := s.table.(connected := s.table.connected + {c}), outbox := s.outbox[c := []])
  }

  function HangUp(t: Table, c: Conn): Table {
    var t1 := t.(connected := t.connected - {c});
    if c !in t.sessionOf then t1
    else t1.(sessionOf := t.sessionOf - {c}, sessions := t.sessions[t.sessionOf[c] := None])
  }

  function Disconnect(s: Server, c: Conn): Server {
    s.(table := HangUp(s.table, c))
  }

  /** `emplace` keeps an existing entry. */
  function OpenSession(t: Table, c: Conn): Table {
    t.(sessionCtr := Increment(t.sessionCtr),
       sessions := if t.sessionCtr in t.sessions then t.sessions else t.sessions[t.sessionCtr := Some(c)],
       sessionOf := if c in t.sessionOf then t.sessionOf else t.sessionOf[c := t.sessionCtr])
  }

  function Signin(s: Server, c: Conn, trId: U16, request: Message): Server {
    Reply(s.(table := OpenSession(s.table, c)), c, trId, SigninAccept(0), request)
  }

  /** The new vertex, in all four node fields. */
  function InsertNode(n: Nodes, name: Name, parent: U64, session: U32): Nodes
    requires parent in n.shape
  {
    var u := n.uuidCtr as U64;
    Nodes(Insert(n.shape, NamedNode(name, u, parent)), n.data[u := []], n.creator[u := session],
          n.listeners[u := map[]], Increment(n.uuidCtr))
  }

  function Create(s: Server, c: Conn, trId: U16, name: Name, parent: U64): Server {
    var request := CreateRequest(name, parent);
    if parent !in s.nodes.shape then Reply(s, c, trId, CreateReject(NOT_FOUND), request)
    else if c !in s.table.sessionOf then s
    else if name in s.nodes.shape[parent].children then Reply(s, c, trId, CreateReject(ALREADY_EXIST), request)
    else
      var u := s.nodes.uuidCtr as U64;
      var s1 := s.(nodes := InsertNode(s.nodes, name, parent, s.table.sessionOf[c]));
      var s2 := Reply(s1, c, trId, CreateAccept(u), request);
      Notify(s2, TreeUpdateNotification([NamedNode(name, u, parent)], []))
  }

  /** The list of a TreeInfoResponse: for a named query the node itself comes first. */
  function Query(t: Shape, parent: U64, name: Name, recursive: bool): Option<seq<NamedNode>>
    requires WellFormed(t)
  {
    if parent !in t then None
    else if name == "." then Some(PreOrder(t, parent, recursive))
    else if name !in t[parent].children then None
    else
      assert ChildLinked(t, parent, name);
      var u := t[parent].children[name];
      Some([NamedNode(name, u, parent)] + PreOrder(t, u, recursive))
  }

  function TreeInfo(s: Server, c: Conn, trId: U16, parent: U64, name: Name, recursive: Byte): Server
    requires WellFormed(s.nodes.shape)
  {
    match Query(s.nodes.shape, parent, name, recursive != 0)
    case None => Reply(s, c, trId, TreeInfoErrorResponse(NOT_FOUND), TreeInfoRequest(parent, name, recursive))
    case Some(list) => Reply(s, c, trId, TreeInfoResponse(list), TreeInfoRequest(parent, name, recursive))
  }

  /** Writing the four bytes of 9 to the root stops the server. */
  predicate IsTerminate(uuid: U64, data: Bytes) {
    uuid == ROOT && data == [9, 0, 0, 0]
  }

  function SetValue(s: Server, c: Conn, trId: U16, uuid: U64, data: Bytes): Server {
    if IsTerminate(uuid, data) then s.(stopped := true)
    else if uuid !in s.nodes.shape then s
    else
      var s1 := s.(nodes := s.nodes.(data := s.nodes.data[uuid := data]));
      var s2 := Reply(s1, c, trId, SetValueAccept(0), SetValueRequest(uuid, data));
      s2.(outbox := Broadcast(s2.outbox, ListenerTargets(ListenersOf(s.nodes, uuid), s.table),
                              Packet(NOTIFICATION, UpdateNotification(uuid, data), None)))
  }

  function Get(s: Server, c: Conn, trId: U16, uuid: U64): Server {
    if uuid !in s.nodes.data then Reply(s, c, trId, GetReject(NOT_FOUND), GetRequest(uuid))
    else Reply(s, c, trId, GetAccept(s.nodes.data[uuid]), GetRequest(uuid))
  }

  function SetListeners(n: Nodes, uuid: U64, listeners: map<U32, Conn>): Nodes {
    n.(listeners := n.listeners[uuid := listeners])
  }

  function Subscribe(s: Server, c: Conn, trId: U16, uuid: U64): Server {
    var request := SubscribeRequest(uuid);
    if uuid !in s.nodes.shape then Reply(s, c, trId, SubscribeResponse(NOT_FOUND), request)
    else if c !in s.table.sessionOf then s
    else
      var listeners := ListenersOf(s.nodes, uuid)[s.table.sessionOf[c] := c];
      Reply(s.(nodes := SetListeners(s.nodes, uuid, listeners)), c, trId, SubscribeResponse(OK), request)
  }

  function Unsubscribe(s: Server, c: Conn, trId: U16, uuid: U64): Server {
    var request := UnsubscribeRequest(uuid);
    if uuid !in s.nodes.shape then Reply(s, c, trId, UnsubscribeResponse(NOT_FOUND), request)
    else if c !in s.table.sessionOf then s
    else if s.table.sessionOf[c] !in ListenersOf(s.nodes, uuid) then
      Reply(s, c, trId, UnsubscribeResponse(NOT_FOUND), request)
    else
      var listeners := ListenersOf(s.nodes, uuid) - {s.table.sessionOf[c]};
      Reply(s.(nodes := SetListeners(s.nodes, uuid, listeners)), c, trId, UnsubscribeResponse(OK), request)
  }

  function RemoveNode(n: Nodes, uuid: U64): Nodes {
    Nodes(Remove(n.shape, uuid), n.data - {uuid}, n.creator - {uuid}, n.listeners - {uuid}, n.uuidCtr)
  }

  function Delete(s: Server, c: Conn, trId: U16, uuid: U64): Server {
    var request := DeleteRequest(uuid);
    if uuid !in s.nodes.shape then Reply(s, c, trId, DeleteResponse(NOT_FOUND), request)
    else if s.nodes.shape[uuid].children != map[] then Reply(s, c, trId, DeleteResponse(NOT_EMPTY), request)
    else
      var s1 := s.(nodes := RemoveNode(s.nodes, uuid));
      var s2 := Reply(s1, c, trId, DeleteResponse(OK), request);
      Notify(s2, TreeUpdateNotification([], [uuid]))
  }

  /** The connection of the session that created `uuid`. */
  function CallTarget(n: Nodes, t: Table, uuid: U64): Option<Conn> {
    if uuid in n.creator && n.creator[uuid] in t.sessions then t.sessions[n.creator[uuid]] else None
  }

  /** The 16-bit key of a forward. */
  function CallKey(ctr: U32): U16 {
    (ctr as int % U16_SPAN) as U16
  }

  /** Allocates a forwarding id: the low 16 bits of a 32-bit counter. */
  function Register(k: Calls, origin: Forward): Calls {
    Calls(Increment(k.trIdCtr), k.translation[CallKey(k.trIdCtr) := (origin.session, origin.trId)],
          k.forwards + [origin], k.answered)
  }

  function Call(s: Server, c: Conn, trId: U16, uuid: U64, param: Bytes): Server {
    var request := RpcRequest(uuid, param);
    if uuid !in s.nodes.shape then Reply(s, c, trId, RpcReject(NOT_FOUND), request)
    else if c !in s.table.sessionOf then s
    else
      var target := CallTarget(s.nodes, s.table, uuid);
      if target == None then s
      else s.(calls := Register(s.calls, Forward(c, s.table.sessionOf[c], trId, request)),
              outbox := Send(s.outbox, target, Packet(CallKey(s.calls.trIdCtr), request, None)))
  }

  /** The latest of the first `n` forwards sent under `id`. */
  function LatestForward(n: nat, id: U16): (latest: Option<nat>)
    ensures latest.Some? ==> latest.value < n && latest.value % U16_SPAN == id as int
  {
    if n == 0 then None
    else if (n - 1) % U16_SPAN == id as int then Some(n - 1)
    else LatestForward(n - 1, id)
  }

  function Resolved(k: Calls, id: U16): Calls {
    var n := LatestForward(|k.forwards|, id);
    k.(translation := k.translation - {id},
       answered := if n.Some? then k.answered + {n.value} else k.answered)
  }

  /** What an answer under `id` becomes on its way to the caller. */
  function Returned(k: Calls, id: U16, m: Message): Packet
    requires id in k.translation
  {
    var n := LatestForward(|k.forwards|, id);
    Packet(k.translation[id].1, m, if n.Some? then Some(k.forwards[n.value].request) else None)
  }

  /** An RpcAccept or RpcReject from a responder. */
  function Answer(s: Server, id: U16, m: Message): Server {
    if id !in s.calls.translation then s
    else
      var session := s.calls.translation[id].0;
      var s1 := s.(calls := Resolved(s.calls, id));
      if session !in s.table.sessions then s1
      else s1.(outbox := Send(s1.outbox, s.table.sessions[session], Returned(s.calls, id, m)))
  }

  function Heartbeat(s: Server, c: Conn, trId: U16, spare: Byte): Server {
    Reply(s, c, trId, HearbeatResponse(0), HearbeatRequest(spare))
  }

  /** Dispatch; kinds without a handler are ignored. */
  function Handle(s: Server, c: Conn, trId: U16, m: Message): Server
    requires WellFormed(s.nodes.shape)
  {
    match m
    case SigninRequest(_) => Signin(s, c, trId, m)
    case CreateRequest(name, parent) => Create(s, c, trId, name, parent)
    case TreeInfoRequest(parent, name, recursive) => TreeInfo(s, c, trId, parent, name, recursive)
    case SetValueRequest(uuid, data) => SetValue(s, c, trId, uuid, data)
    case GetRequest(uuid) => Get(s, c, trId, uuid)
    case SubscribeRequest(uuid) => Subscribe(s, c, trId, uuid)
    case UnsubscribeRequest(uuid) => Unsubscribe(s, c, trId, uuid)
    case DeleteRequest(uuid) => Delete(s, c, trId, uuid)
    case RpcRequest(uuid, param) => Call(s, c, trId, uuid, param)
    case RpcAccept(_) => Answer(s, trId, m)
    case RpcReject(_) => Answer(s, trId, m)
    case HearbeatRequest(spare) => Heartbeat(s, c, trId, spare)
    case _ => s
  }
}
