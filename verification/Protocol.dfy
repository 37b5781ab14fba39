/** Wire-level vocabulary of PropertyTree: integer widths, causes, the 27 message
    kinds and the packets that travel on a connection. */
module Protocol {

  datatype Option<+T> = None | Some(value: T)

  newtype Byte = x: int | 0 <= x < 0x100
  newtype U16 = x: int | 0 <= x < 0x1_0000
  newtype U32 = x: int | 0 <= x < 0x1_0000_0000
  newtype U64 = x: int | 0 <= x < 0x1_0000_0000_0000_0000
  type Bytes = seq<Byte>
  type Name = string

  /** Identity of a connection object on the server. */
  type Conn = int

  const ROOT: U64 := 0
  const U16_SPAN := 0x1_0000
  const U32_SPAN := 0x1_0000_0000
  const UUID_LIMIT: U64 := 0x1_0000_0000

  /** The transaction id that marks notifications. */
  const NOTIFICATION: U16 := 0xFFFF

  datatype Cause = OK | NOT_FOUND | ALREADY_EXIST | NOT_PERMITTED | NOT_EMPTY | NO_HANDLER

  datatype NamedNode = NamedNode(name: Name, uuid: U64, parentUuid: U64)

  datatype Message =
    | SigninRequest(spare: Byte)
    | SigninAccept(sessionId: U32)
    | CreateRequest(name: Name, parentUuid: U64)
    | CreateAccept(uuid: U64)
    | CreateReject(cause: Cause)
    | GetRequest(uuid: U64)
    | GetAccept(data: Bytes)
    | GetReject(cause: Cause)
    | TreeInfoRequest(parentUuid: U64, name: Name, recursive: Byte)
    | TreeInfoResponse(nodeToAddList: seq<NamedNode>)
    | TreeInfoErrorResponse(cause: Cause)
    | TreeUpdateNotification(nodeToAddList: seq<NamedNode>, nodeToDelete: seq<U64>)
    | DeleteRequest(uuid: U64)
    | DeleteResponse(cause: Cause)
    | SetValueRequest(uuid: U64, data: Bytes)
    | SetValueAccept(spare: Byte)
    | SetValueReject(cause: Cause)
    | SubscribeRequest(uuid: U64)
    | SubscribeResponse(cause: Cause)
    | UnsubscribeRequest(uuid: U64)
    | UnsubscribeResponse(cause: Cause)
    | UpdateNotification(uuid: U64, data: Bytes)
    | RpcRequest(uuid: U64, param: Bytes)
    | RpcAccept(value: Bytes)
    | RpcReject(cause: Cause)
    | HearbeatRequest(spare: Byte)
    | HearbeatResponse(spare: Byte)

  /** One message on a server-to-client stream. `answers` is bookkeeping that is not on
      the wire: the request a reply responds to, or None for a message the receiver did
      not ask for. A client recovers it from the transaction id (module Transactions). */
  datatype Packet = Packet(transactionId: U16, message: Message, answers: Option<Message>)
}
