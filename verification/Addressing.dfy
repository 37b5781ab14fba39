/** Which transaction id a message travels under: what lets a client tell the answers to its
    own requests from everything else. */
module Addressing {
  import opened Protocol
  import opened TreeShape
  import opened Snapshot
  import opened ServerSpec
  import opened Runs
  import opened Emission
  import opened Rpc

  /** A reply carries the id of the request it answers: the one just received, or for an rpc
      answer the one noted when the call was forwarded. Anything else carries the id reserved
      for notifications, or is a forwarded call. */
  predicate Addressed(s: Server, e: Event, c: Conn, p: Packet) {
    match p.answers
    case Some(request) =>
      && e.Receive?
      && (|| (e.conn == c && e.trId == p.transactionId && e.message == request)
          || (&& (e.message.RpcAccept? || e.message.RpcReject?) && p.message == e.message
              && e.trId in s.calls.translation && p.transactionId == s.calls.translation[e.trId].1))
    case None => p.transactionId == NOTIFICATION || p.message.RpcRequest?
  }

  /** The `i`-th new message of `after`, of which only the first can be a reply. */
  ghost predicate NewAddressed(s: Server, e: Event, c: Conn, before: seq<Packet>, after: seq<Packet>) {
    && before <= after
    && forall i | |before| <= i < |after| ::
         Addressed(s, e, c, after[i]) && (after[i].answers.Some? ==> i == |before|)
  }

  lemma ReplyAddressed(s: Server, outbox: Outbox, e: Event, answer: Message, c: Conn)
    requires e.Receive? && c in outbox
    ensures NewAddressed(s, e, c, outbox[c], Send(outbox, Some(e.conn), Packet(e.trId, answer, Some(e.message)))[c])
  {
  }

  lemma NotifyAddressed(s: Server, e: Event, before: seq<Packet>, outbox: Outbox,
                        targets: map<U32, Option<Conn>>, m: Message, c: Conn)
    requires c in outbox && NewAddressed(s, e, c, before, outbox[c])
    ensures NewAddressed(s, e, c, before, Broadcast(outbox, targets, Packet(NOTIFICATION, m, None))[c])
  {
  }

  lemma CreateAddressed(s: Server, e: Event, c: Conn)
    requires e.Receive? && e.message.CreateRequest? && c in s.outbox
    ensures NewAddressed(s, e, c, s.outbox[c],
                         Create(s, e.conn, e.trId, e.message.name, e.message.parentUuid).outbox[c])
  {
    hide Broadcast, Send, Insert, Addressed;
    forall answer { ReplyAddressed(s, s.outbox, e, answer, c); }
    var u := s.nodes.uuidCtr as U64;
    var sent := Send(s.outbox, Some(e.conn), Packet(e.trId, CreateAccept(u), Some(e.message)));
    NotifyAddressed(s, e, s.outbox[c], sent, s.table.sessions,
                    TreeUpdateNotification([NamedNode(e.message.name, u, e.message.parentUuid)], []), c);
  }

  lemma DeleteAddressed(s: Server, e: Event, c: Conn)
    requires e.Receive? && e.message.DeleteRequest? && c in s.outbox
    ensures NewAddressed(s, e, c, s.outbox[c], Delete(s, e.conn, e.trId, e.message.uuid).outbox[c])
  {
    hide Broadcast, Send, Remove, Addressed;
    forall answer { ReplyAddressed(s, s.outbox, e, answer, c); }
    var sent := Send(s.outbox, Some(e.conn), Packet(e.trId, DeleteResponse(OK), Some(e.message)));
    NotifyAddressed(s, e, s.outbox[c], sent, s.table.sessions, TreeUpdateNotification([], [e.message.uuid]), c);
  }

  lemma SetValueAddressed(s: Server, e: Event, c: Conn)
    requires e.Receive? && e.message.SetValueRequest? && c in s.outbox
    ensures NewAddressed(s, e, c, s.outbox[c],
                         SetValue(s, e.conn, e.trId, e.message.uuid, e.message.data).outbox[c])
  {
    hide Broadcast, Send, IsTerminate, ListenerTargets, ListenersOf, Addressed;
    ReplyAddressed(s, s.outbox, e, SetValueAccept(0), c);
    var sent := Send(s.outbox, Some(e.conn), Packet(e.trId, SetValueAccept(0), Some(e.message)));
    NotifyAddressed(s, e, s.outbox[c], sent, ListenerTargets(ListenersOf(s.nodes, e.message.uuid), s.table),
                    UpdateNotification(e.message.uuid, e.message.data), c);
  }

  lemma CallAddressed(s: Server, e: Event, c: Conn)
    requires e.Receive? && e.message.RpcRequest? && c in s.outbox
    ensures NewAddressed(s, e, c, s.outbox[c], Call(s, e.conn, e.trId, e.message.uuid, e.message.param).outbox[c])
  {
  }

  lemma AnswerAddressed(s: Server, e: Event, c: Conn)
    requires e.Receive? && (e.message.RpcAccept? || e.message.RpcReject?) && c in s.outbox
    requires CallsInvariant(s.calls)
    ensures NewAddressed(s, e, c, s.outbox[c], Answer(s, e.trId, e.message).outbox[c])
  {
    assert KeyResolves(s.calls, e.trId);
  }

  lemma ListenersAddressed(s: Server, e: Event, c: Conn)
    requires e.Receive? && (e.message.SubscribeRequest? || e.message.UnsubscribeRequest?) && c in s.outbox
    requires WellFormed(s.nodes.shape)
    ensures NewAddressed(s, e, c, s.outbox[c], Step(s, e).outbox[c])
  {
    hide Send, ListenersOf, Addressed, WellFormed;
    forall answer { ReplyAddressed(s, s.outbox, e, answer, c); }
  }

  lemma OthersAddressed(s: Server, e: Event, c: Conn)
    requires e.Receive? && c in s.outbox && WellFormed(s.nodes.shape)
    requires || e.message.SigninRequest? || e.message.HearbeatRequest?
             || e.message.GetRequest? || e.message.TreeInfoRequest?
    ensures NewAddressed(s, e, c, s.outbox[c], Step(s, e).outbox[c])
  {
    hide Send, Query, Addressed, WellFormed;
    forall answer { ReplyAddressed(s, s.outbox, e, answer, c); }
  }

  /** Each message is answered at most once and before anything it causes is announced; the
      answer goes to its sender under its own transaction id. */
  lemma EachAnsweredOnce(s: Server, e: Event, c: Conn)
    requires Invariant(s) && Admissible(s, e) && CallsInvariant(s.calls) && c in s.outbox
    ensures c in Step(s, e).outbox && NewAddressed(s, e, c, s.outbox[c], Step(s, e).outbox[c])
  {
    hide WellFormed, TableInvariant, LinksInvariant, Addressed, Create, Delete, SetValue, Call, Answer, CallsInvariant;
    if e.Receive? {
      ReceiveKeepsConnections(s, e.conn, e.trId, e.message);
      match e.message
      case CreateRequest(_, _) => CreateAddressed(s, e, c);
      case DeleteRequest(_) => DeleteAddressed(s, e, c);
      case SetValueRequest(_, _) => SetValueAddressed(s, e, c);
      case RpcRequest(_, _) => CallAddressed(s, e, c);
      case RpcAccept(_) => AnswerAddressed(s, e, c);
      case RpcReject(_) => AnswerAddressed(s, e, c);
      case SubscribeRequest(_) => ListenersAddressed(s, e, c);
      case UnsubscribeRequest(_) => ListenersAddressed(s, e, c);
      case SigninRequest(_) => OthersAddressed(s, e, c);
      case HearbeatRequest(_) => OthersAddressed(s, e, c);
      case GetRequest(_) => OthersAddressed(s, e, c);
      case TreeInfoRequest(_, _, _) => OthersAddressed(s, e, c);
      case _ =>
    }
  }
}
