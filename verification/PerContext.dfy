/** The generated codec as it runs: `encode_per` appends to a context, `decode_per` takes from
    its front and fills the value field by field. Each is tied to the wire form of module
    Codecs. */
module PerContexts {
  import opened Protocol
  import opened Codecs

  /** Result of a `decode_per`; running out of input is a failure of the primitive codec. */
  datatype Outcome<+T> = Failed | Done(value: T) {
    predicate IsFailure() {
      Failed?
    }

    function PropagateFailure<U>(): Outcome<U>
      requires IsFailure()
    {
      Failed
    }

    function Extract(): T
      requires !IsFailure()
    {
      value
    }
  }

  /** `r` and the `left` input are what `expected` says. */
  ghost predicate Agrees<T>(r: Outcome<T>, left: Bytes, expected: Option<(T, Bytes)>) {
    match expected
    case None => r.Failed?
    case Some((v, rest)) => r == Done(v) && left == rest
  }

  /** Appending the fields of a message, up to three, one by one. */
  lemma PutUnfolds(kit: Kit, front: Bytes, f: seq<Field>)
    ensures |f| == 1 ==> front + PutFields(kit, f) == front + PutField(kit, f[0])
    ensures |f| == 2 ==> front + PutFields(kit, f) == front + PutField(kit, f[0]) + PutField(kit, f[1])
    ensures |f| == 3 ==>
              front + PutFields(kit, f)
              == front + PutField(kit, f[0]) + PutField(kit, f[1]) + PutField(kit, f[2])
    decreases |f|
  {
    hide PutField;
    if f != [] {
      PutUnfolds(kit, front + PutField(kit, f[0]), f[1..]);
      assert front + PutFields(kit, f) == front + PutField(kit, f[0]) + PutFields(kit, f[1..]);
      assert PutFields(kit, []) == [];
    }
  }

  /** Field by field, for up to three fields. */
  function GetInTurn(kit: Kit, types: seq<FieldType>, b: Bytes): Option<(seq<Field>, Bytes)>
    requires |types| <= 3
  {
    if types == [] then Some(([], b))
    else
      match GetField(kit, types[0], b)
      case None => None
      case Some((f, b1)) =>
        if |types| == 1 then Some(([f], b1))
        else
          match GetField(kit, types[1], b1)
          case None => None
          case Some((g, b2)) =>
            if |types| == 2 then Some(([f, g], b2))
            else
              match GetField(kit, types[2], b2)
              case None => None
              case Some((h, b3)) => Some(([f, g, h], b3))
  }

  lemma GetUnfolds(kit: Kit, types: seq<FieldType>, b: Bytes)
    requires |types| <= 3
    ensures GetFields(kit, types, b) == GetInTurn(kit, types, b)
  {
    hide GetField;
    if types != [] && GetField(kit, types[0], b).Some? {
      var (f, b1) := GetField(kit, types[0], b).value;
      GetUnfolds(kit, types[1..], b1);
      assert forall list: seq<Field> :: |list| == 0 ==> [f] + list == [f];
      assert forall list: seq<Field> :: |list| == 1 ==> [f] + list == [f, list[0]];
      assert forall list: seq<Field> :: |list| == 2 ==> [f] + list == [f, list[0], list[1]];
    }
  }

  function Chosen(kit: Kit, kind: Byte, b: Bytes): Option<(Message, Bytes)> {
    match GetFields(kit, Schema(kind), b)
    case None => None
    case Some((fields, rest)) => Some((Build(kind, fields), rest))
  }

  /** The context of an encoding or a decoding. */
  class Context {
    const kit: Kit
    var bytes: Bytes

    constructor (kit: Kit, bytes: Bytes)
      ensures this.kit == kit && this.bytes == bytes
    {
      this.kit, this.bytes := kit, bytes;
    }

    // ----- primitives and vectors

    method Take<T>(c: Codec<T>) returns (r: Outcome<T>)
      modifies this
      ensures Agrees(r, bytes, c.get(old(bytes)))
    {
      match c.get(bytes)
      case None => return Failed;
      case Some((v, rest)) =>
        bytes := rest;
        return Done(v);
    }

    method EncodeByte(v: Byte)
      modifies this
      ensures bytes == old(bytes) + kit.u8.put(v)
    {
      bytes := bytes + kit.u8.put(v);
    }

    method DecodeByte() returns (r: Outcome<Byte>)
      modifies this
      ensures Agrees(r, bytes, kit.u8.get(old(bytes)))
    {
      r := Take(kit.u8);
    }

    method EncodeU16(v: U16)
      modifies this
      ensures bytes == old(bytes) + kit.u16.put(v)
    {
      bytes := bytes + kit.u16.put(v);
    }

    method DecodeU16() returns (r: Outcome<U16>)
      modifies this
      ensures Agrees(r, bytes, kit.u16.get(old(bytes)))
    {
      r := Take(kit.u16);
    }

    method EncodeU32(v: U32)
      modifies this
      ensures bytes == old(bytes) + kit.u32.put(v)
    {
      bytes := bytes + kit.u32.put(v);
    }

    method DecodeU32() returns (r: Outcome<U32>)
      modifies this
      ensures Agrees(r, bytes, kit.u32.get(old(bytes)))
    {
      r := Take(kit.u32);
    }

    method EncodeU64(v: U64)
      modifies this
      ensures bytes == old(bytes) + kit.u64.put(v)
    {
      bytes := bytes + kit.u64.put(v);
    }

    method DecodeU64() returns (r: Outcome<U64>)
      modifies this
      ensures Agrees(r, bytes, kit.u64.get(old(bytes)))
    {
      r := Take(kit.u64);
    }

    method EncodeCause(v: Cause)
      modifies this
      ensures bytes == old(bytes) + kit.cause.put(v)
    {
      bytes := bytes + kit.cause.put(v);
    }

    method DecodeCause() returns (r: Outcome<Cause>)
      modifies this
      ensures Agrees(r, bytes, kit.cause.get(old(bytes)))
    {
      r := Take(kit.cause);
    }

    method EncodeText(v: Name)
      modifies this
      ensures bytes == old(bytes) + kit.text.put(v)
    {
      bytes := bytes + kit.text.put(v);
    }

    method DecodeText() returns (r: Outcome<Name>)
      modifies this
      ensures Agrees(r, bytes, kit.text.get(old(bytes)))
    {
      r := Take(kit.text);
    }

    method EncodeBuffer(v: Bytes)
      modifies this
      ensures bytes == old(bytes) + kit.buffer.put(v)
    {
      bytes := bytes + kit.buffer.put(v);
    }

    method DecodeBuffer() returns (r: Outcome<Bytes>)
      modifies this
      ensures Agrees(r, bytes, kit.buffer.get(old(bytes)))
    {
      r := Take(kit.buffer);
    }

    method EncodeUuids(v: seq<U64>)
      modifies this
      ensures bytes == old(bytes) + kit.uuids.put(v)
    {
      bytes := bytes + kit.uuids.put(v);
    }

    method DecodeUuids() returns (r: Outcome<seq<U64>>)
      modifies this
      ensures Agrees(r, bytes, kit.uuids.get(old(bytes)))
    {
      r := Take(kit.uuids);
    }

    method EncodeNodes(v: seq<NamedNode>)
      modifies this
      ensures bytes == old(bytes) + kit.nodes(NodeCodec(kit)).put(v)
    {
      bytes := bytes + kit.nodes(NodeCodec(kit)).put(v);
    }

    method DecodeNodes() returns (r: Outcome<seq<NamedNode>>)
      modifies this
      ensures Agrees(r, bytes, kit.nodes(NodeCodec(kit)).get(old(bytes)))
    {
      r := Take(kit.nodes(NodeCodec(kit)));
    }

    // ----- sequences and choices

    method EncodeNode(e: NamedNode)
      modifies this
      ensures bytes == old(bytes) + PutNode(kit, e)
    {
      EncodeText(e.name);
      EncodeU64(e.uuid);
      EncodeU64(e.parentUuid);
    }

    method DecodeNode() returns (r: Outcome<NamedNode>)
      modifies this
      ensures Agrees(r, bytes, GetNode(kit, old(bytes)))
    {
      var name :- DecodeText();
      var uuid :- DecodeU64();
      var parentUuid :- DecodeU64();
      return Done(NamedNode(name, uuid, parentUuid));
    }

    method EncodeMessage(m: Message)
      modifies this
      ensures bytes == old(bytes) + PutMessage(kit, m)
    {
      EncodeByte(Kind(m));
      EncodeChosen(m);
    }

    /** The alternative of the choice. */
    method EncodeChosen(m: Message)
      modifies this
      ensures bytes == old(bytes) + PutFields(kit, Fields(m))
    {
      hide PutFields, Schema, TypeOf, Build, PutMessage, GetMessage;
      if Kind(m) >= 9 {
        EncodeFrom9(m);
        return;
      }
      PutUnfolds(kit, bytes, Fields(m));
      match m
      case SigninRequest(spare) => EncodeByte(spare);
      case SigninAccept(sessionId) => EncodeU32(sessionId);
      case CreateRequest(name, parentUuid) =>
        EncodeText(name);
        EncodeU64(parentUuid);
      case CreateAccept(uuid) => EncodeU64(uuid);
      case CreateReject(cause) => EncodeCause(cause);
      case GetRequest(uuid) => EncodeU64(uuid);
      case GetAccept(data) => EncodeBuffer(data);
      case GetReject(cause) => EncodeCause(cause);
      case TreeInfoRequest(parentUuid, name, recursive) =>
        EncodeU64(parentUuid);
        EncodeText(name);
        EncodeByte(recursive);
    }

    /** As `EncodeChosen`, for kinds from 9 on. */
    method EncodeFrom9(m: Message)
      requires Kind(m) >= 9
      modifies this
      ensures bytes == old(bytes) + PutFields(kit, Fields(m))
    {
      hide PutFields, Schema, TypeOf, Build, PutMessage, GetMessage;
      if Kind(m) >= 18 {
        EncodeFrom18(m);
        return;
      }
      PutUnfolds(kit, bytes, Fields(m));
      match m
      case TreeInfoResponse(adds) => EncodeNodes(adds);
      case TreeInfoErrorResponse(cause) => EncodeCause(cause);
      case TreeUpdateNotification(adds, deletes) =>
        EncodeNodes(adds);
        EncodeUuids(deletes);
      case DeleteRequest(uuid) => EncodeU64(uuid);
      case DeleteResponse(cause) => EncodeCause(cause);
      case SetValueRequest(uuid, data) =>
        EncodeU64(uuid);
        EncodeBuffer(data);
      case SetValueAccept(spare) => EncodeByte(spare);
      case SetValueReject(cause) => EncodeCause(cause);
      case SubscribeRequest(uuid) => EncodeU64(uuid);
    }

    /** As `EncodeChosen`, for kinds from 18 on. */
    method EncodeFrom18(m: Message)
      requires Kind(m) >= 18
      modifies this
      ensures bytes == old(bytes) + PutFields(kit, Fields(m))
    {
      hide PutFields, Schema, TypeOf, Build, PutMessage, GetMessage;
      PutUnfolds(kit, bytes, Fields(m));
      match m
      case SubscribeResponse(cause) => EncodeCause(cause);
      case UnsubscribeRequest(uuid) => EncodeU64(uuid);
      case UnsubscribeResponse(cause) => EncodeCause(cause);
      case UpdateNotification(uuid, data) =>
        EncodeU64(uuid);
        EncodeBuffer(data);
      case RpcRequest(uuid, data) =>
        EncodeU64(uuid);
        EncodeBuffer(data);
      case RpcAccept(data) => EncodeBuffer(data);
      case RpcReject(cause) => EncodeCause(cause);
      case HearbeatRequest(spare) => EncodeByte(spare);
      case HearbeatResponse(spare) => EncodeByte(spare);
    }

    method DecodeMessage() returns (r: Outcome<Message>)
      modifies this
      ensures Agrees(r, bytes, GetMessage(kit, old(bytes)))
    {
      var kind :- DecodeByte();
      r := DecodeChosen(kind);
    }

    /** The alternative that `kind` names; an unknown one decodes nothing. */
    method DecodeChosen(kind: Byte) returns (r: Outcome<Message>)
      modifies this
      ensures Agrees(r, bytes, Chosen(kit, kind, old(bytes)))
    {
      hide GetFields, TypesOf, Fields, Kind, PutField, PutFields;
      GetUnfolds(kit, Schema(kind), bytes);
      if kind == 0 {
        var spare :- DecodeByte();
        return Done(SigninRequest(spare));
      } else if kind == 1 {
        var sessionId :- DecodeU32();
        return Done(SigninAccept(sessionId));
      } else if kind == 2 {
        var name :- DecodeText();
        var parentUuid :- DecodeU64();
        return Done(CreateRequest(name, parentUuid));
      } else if kind == 3 {
        var uuid :- DecodeU64();
        return Done(CreateAccept(uuid));
      } else if kind == 4 {
        var cause :- DecodeCause();
        return Done(CreateReject(cause));
      } else if kind == 5 {
        var uuid :- DecodeU64();
        return Done(GetRequest(uuid));
      } else if kind == 6 {
        var data :- DecodeBuffer();
        return Done(GetAccept(data));
      } else if kind == 7 {
        var cause :- DecodeCause();
        return Done(GetReject(cause));
      } else if kind == 8 {
        var parentUuid :- DecodeU64();
        var name :- DecodeText();
        var recursive :- DecodeByte();
        return Done(TreeInfoRequest(parentUuid, name, recursive));
      } else if kind == 9 {
        var adds :- DecodeNodes();
        return Done(TreeInfoResponse(adds));
      } else if kind == 10 {
        var cause :- DecodeCause();
        return Done(TreeInfoErrorResponse(cause));
      } else if kind == 11 {
        var adds :- DecodeNodes();
        var deletes :- DecodeUuids();
        return Done(TreeUpdateNotification(adds, deletes));
      } else if kind == 12 {
        var uuid :- DecodeU64();
        return Done(DeleteRequest(uuid));
      } else if kind == 13 {
        var cause :- DecodeCause();
        return Done(DeleteResponse(cause));
      }
      r := DecodeFrom14(kind);
    }

    /** As `DecodeChosen`, for kinds from 14 on. */
    method DecodeFrom14(kind: Byte) returns (r: Outcome<Message>)
      requires kind >= 14
      modifies this
      ensures Agrees(r, bytes, Chosen(kit, kind, old(bytes)))
    {
      hide GetFields, TypesOf, Fields, Kind, PutField, PutFields;
      GetUnfolds(kit, Schema(kind), bytes);
      if kind == 14 {
        var uuid :- DecodeU64();
        var data :- DecodeBuffer();
        return Done(SetValueRequest(uuid, data));
      } else if kind == 15 {
        var spare :- DecodeByte();
        return Done(SetValueAccept(spare));
      } else if kind == 16 {
        var cause :- DecodeCause();
        return Done(SetValueReject(cause));
      } else if kind == 17 {
        var uuid :- DecodeU64();
        return Done(SubscribeRequest(uuid));
      } else if kind == 18 {
        var cause :- DecodeCause();
        return Done(SubscribeResponse(cause));
      } else if kind == 19 {
        var uuid :- DecodeU64();
        return Done(UnsubscribeRequest(uuid));
      } else if kind == 20 {
        var cause :- DecodeCause();
        return Done(UnsubscribeResponse(cause));
      } else if kind == 21 {
        var uuid :- DecodeU64();
        var data :- DecodeBuffer();
        return Done(UpdateNotification(uuid, data));
      } else if kind == 22 {
        var uuid :- DecodeU64();
        var data :- DecodeBuffer();
        return Done(RpcRequest(uuid, data));
      } else if kind == 23 {
        var data :- DecodeBuffer();
        return Done(RpcAccept(data));
      } else if kind == 24 {
        var cause :- DecodeCause();
        return Done(RpcReject(cause));
      } else if kind == 25 {
        var spare :- DecodeByte();
        return Done(HearbeatRequest(spare));
      } else if kind == 26 {
        var spare :- DecodeByte();
        return Done(HearbeatResponse(spare));
      }
      return Done(SigninRequest(0));
    }

    method EncodeTransaction(p: PropertyTreeMessage)
      modifies this
      ensures bytes == old(bytes) + PutTransaction(kit, p)
    {
      EncodeU16(p.transactionId);
      EncodeMessage(p.message);
    }

    method DecodeTransaction() returns (r: Outcome<PropertyTreeMessage>)
      modifies this
      ensures Agrees(r, bytes, GetTransaction(kit, old(bytes)))
    {
      var trId :- DecodeU16();
      var m :- DecodeMessage();
      return Done(PropertyTreeMessage(trId, m));
    }

    method EncodeProtocol(p: PropertyTreeProtocol)
      modifies this
      ensures bytes == old(bytes) + Put(kit, p)
    {
      match p
      case Single(one) =>
        EncodeByte(0);
        EncodeTransaction(one);
      case Batch(many) =>
        EncodeByte(1);
        bytes := bytes + kit.messages(TransactionCodec(kit)).put(many);
    }

    method DecodeProtocol() returns (r: Outcome<PropertyTreeProtocol>)
      modifies this
      ensures Agrees(r, bytes, Get(kit, old(bytes)))
    {
      var kind :- DecodeByte();
      if kind == 0 {
        var one :- DecodeTransaction();
        return Done(Single(one));
      } else if kind == 1 {
        var many :- Take(kit.messages(TransactionCodec(kit)));
        return Done(Batch(many));
      }
      return Done(BLANK);
    }
  }
}
