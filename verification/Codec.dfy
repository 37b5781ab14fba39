/** The wire form of protocol values, over codecs for primitives and vectors that are taken as
    given. A choice is its index followed by the chosen value, a sequence its fields in turn. */
module Codecs {
  import opened Protocol

  /** A codec appends an encoding, and decodes a value from the front of its input. */
  datatype Codec<!T> = Codec(put: T -> Bytes, get: Bytes -> Option<(T, Bytes)>)

  /** Decoding an encoding followed by anything gives the value and leaves the rest alone. */
  ghost predicate Lawful<T(!new)>(c: Codec<T>, ok: T -> bool) {
    forall v, rest {:trigger c.get(c.put(v) + rest)} :: ok(v) ==> c.get(c.put(v) + rest) == Some((v, rest))
  }

  datatype PropertyTreeMessage = PropertyTreeMessage(transactionId: U16, message: Message)

  datatype PropertyTreeProtocol = Single(one: PropertyTreeMessage) | Batch(many: seq<PropertyTreeMessage>)

  const ARRAY_LIMIT := 256
  const VECTOR_LIMIT := 0x1_0000_0000

  /** The codecs that the generated code builds on. Those of vectors of generated types take
      the codec of their elements. */
  datatype Kit = Kit(
    u8: Codec<Byte>,
    u16: Codec<U16>,
    u32: Codec<U32>,
    u64: Codec<U64>,
    cause: Codec<Cause>,
    text: Codec<Name>,
    buffer: Codec<Bytes>,
    uuids: Codec<seq<U64>>,
    nodes: Codec<NamedNode> -> Codec<seq<NamedNode>>,
    messages: Codec<PropertyTreeMessage> -> Codec<seq<PropertyTreeMessage>>)

  /** Strings are sent with a terminating NUL. */
  predicate Sendable(name: Name) {
    '\0' !in name
  }

  function UpTo<T>(limit: nat, ok: T -> bool): seq<T> -> bool {
    (list: seq<T>) => |list| <= limit && forall i | 0 <= i < |list| :: ok(list[i])
  }

  ghost predicate LawfulKit(kit: Kit) {
    && Lawful(kit.u8, (_: Byte) => true) && Lawful(kit.u16, (_: U16) => true)
    && Lawful(kit.u32, (_: U32) => true) && Lawful(kit.u64, (_: U64) => true)
    && Lawful(kit.cause, (_: Cause) => true) && Lawful(kit.text, Sendable)
    && Lawful(kit.buffer, (b: Bytes) => |b| <= VECTOR_LIMIT)
    && Lawful(kit.uuids, (u: seq<U64>) => |u| <= VECTOR_LIMIT)
    && (forall c, ok {:trigger kit.nodes(c), UpTo(VECTOR_LIMIT, ok)} ::
          Lawful(c, ok) ==> Lawful(kit.nodes(c), UpTo(VECTOR_LIMIT, ok)))
    && (forall c, ok {:trigger kit.messages(c), UpTo(ARRAY_LIMIT, ok)} ::
          Lawful(c, ok) ==> Lawful(kit.messages(c), UpTo(ARRAY_LIMIT, ok)))
  }

  // ----- fields

  datatype FieldType = BYTE | WORD32 | WORD64 | CAUSE | TEXT | BUFFER | UUIDS | NODES

  datatype Field =
    | ByteField(byte: Byte)
    | U32Field(u32: U32)
    | U64Field(u64: U64)
    | CauseField(cause: Cause)
    | TextField(text: Name)
    | BufferField(buffer: Bytes)
    | UuidsField(uuids: seq<U64>)
    | NodesField(nodes: seq<NamedNode>)

  function TypeOf(f: Field): FieldType {
    match f
    case ByteField(_) => BYTE
    case U32Field(_) => WORD32
    case U64Field(_) => WORD64
    case CauseField(_) => CAUSE
    case TextField(_) => TEXT
    case BufferField(_) => BUFFER
    case UuidsField(_) => UUIDS
    case NodesField(_) => NODES
  }

  predicate NodeOk(e: NamedNode) {
    Sendable(e.name)
  }

  predicate FieldOk(f: Field) {
    match f
    case TextField(name) => Sendable(name)
    case BufferField(b) => |b| <= VECTOR_LIMIT
    case UuidsField(u) => |u| <= VECTOR_LIMIT
    case NodesField(list) => UpTo(VECTOR_LIMIT, NodeOk)(list)
    case _ => true
  }

  function PutNode(kit: Kit, e: NamedNode): Bytes {
    kit.text.put(e.name) + kit.u64.put(e.uuid) + kit.u64.put(e.parentUuid)
  }

  function GetNode(kit: Kit, b: Bytes): Option<(NamedNode, Bytes)> {
    match kit.text.get(b)
    case None => None
    case Some((name, b1)) =>
      match kit.u64.get(b1)
      case None => None
      case Some((uuid, b2)) =>
        match kit.u64.get(b2)
        case None => None
        case Some((parentUuid, b3)) => Some((NamedNode(name, uuid, parentUuid), b3))
  }

  function NodeCodec(kit: Kit): Codec<NamedNode> {
    Codec(e => PutNode(kit, e), b => GetNode(kit, b))
  }

  function PutField(kit: Kit, f: Field): Bytes {
    match f
    case ByteField(v) => kit.u8.put(v)
    case U32Field(v) => kit.u32.put(v)
    case U64Field(v) => kit.u64.put(v)
    case CauseField(v) => kit.cause.put(v)
    case TextField(v) => kit.text.put(v)
    case BufferField(v) => kit.buffer.put(v)
    case UuidsField(v) => kit.uuids.put(v)
    case NodesField(v) => kit.nodes(NodeCodec(kit)).put(v)
  }

  function As<T>(r: Option<(T, Bytes)>, make: T -> Field): Option<(Field, Bytes)> {
    match r
    case None => None
    case Some((v, rest)) => Some((make(v), rest))
  }

  function GetField(kit: Kit, t: FieldType, b: Bytes): (r: Option<(Field, Bytes)>)
    ensures r.Some? ==> TypeOf(r.value.0) == t
  {
    match t
    case BYTE => As(kit.u8.get(b), v => ByteField(v))
    case WORD32 => As(kit.u32.get(b), v => U32Field(v))
    case WORD64 => As(kit.u64.get(b), v => U64Field(v))
    case CAUSE => As(kit.cause.get(b), v => CauseField(v))
    case TEXT => As(kit.text.get(b), v => TextField(v))
    case BUFFER => As(kit.buffer.get(b), v => BufferField(v))
    case UUIDS => As(kit.uuids.get(b), v => UuidsField(v))
    case NODES => As(kit.nodes(NodeCodec(kit)).get(b), v => NodesField(v))
  }

  function PutFields(kit: Kit, fields: seq<Field>): Bytes
    decreases |fields|
  {
    if fields == [] then [] else PutField(kit, fields[0]) + PutFields(kit, fields[1..])
  }

  function TypesOf(fields: seq<Field>): seq<FieldType> {
    seq(|fields|, i requires 0 <= i < |fields| => TypeOf(fields[i]))
  }

  function GetFields(kit: Kit, types: seq<FieldType>, b: Bytes): (r: Option<(seq<Field>, Bytes)>)
    ensures r.Some? ==> TypesOf(r.value.0) == types
    decreases |types|
  {
    if types == [] then Some(([], b))
    else
      match GetField(kit, types[0], b)
      case None => None
      case Some((field, b1)) =>
        match GetFields(kit, types[1..], b1)
        case None => None
        case Some((fields, b2)) => Some(([field] + fields, b2))
  }

  // ----- the 27 kinds of message

  /** Index of the choice. */
  function Kind(m: Message): Byte {
    match m
    case SigninRequest(_) => 0
    case SigninAccept(_) => 1
    case CreateRequest(_, _) => 2
    case CreateAccept(_) => 3
    case CreateReject(_) => 4
    case GetRequest(_) => 5
    case GetAccept(_) => 6
    case GetReject(_) => 7
    case TreeInfoRequest(_, _, _) => 8
    case TreeInfoResponse(_) => 9
    case TreeInfoErrorResponse(_) => 10
    case TreeUpdateNotification(_, _) => 11
    case DeleteRequest(_) => 12
    case DeleteResponse(_) => 13
    case SetValueRequest(_, _) => 14
    case SetValueAccept(_) => 15
    case SetValueReject(_) => 16
    case SubscribeRequest(_) => 17
    case SubscribeResponse(_) => 18
    case UnsubscribeRequest(_) => 19
    case UnsubscribeResponse(_) => 20
    case UpdateNotification(_, _) => 21
    case RpcRequest(_, _) => 22
    case RpcAccept(_) => 23
    case RpcReject(_) => 24
    case HearbeatRequest(_) => 25
    case HearbeatResponse(_) => 26
  }

  const KINDS := 27

  /** The fields of each kind, in wire order. */
  function Schema(kind: Byte): seq<FieldType> {
    if kind in {0, 15, 25, 26} then [BYTE]
    else if kind == 1 then [WORD32]
    else if kind == 2 then [TEXT, WORD64]
    else if kind in {3, 5, 12, 17, 19} then [WORD64]
    else if kind in {4, 7, 10, 13, 16, 18, 20, 24} then [CAUSE]
    else if kind in {6, 23} then [BUFFER]
    else if kind == 8 then [WORD64, TEXT, BYTE]
    else if kind == 9 then [NODES]
    else if kind == 11 then [NODES, UUIDS]
    else if kind in {14, 21, 22} then [WORD64, BUFFER]
    else []
  }

  function Fields(m: Message): seq<Field> {
    match m
    case SigninRequest(v) => [ByteField(v)]
    case SigninAccept(v) => [U32Field(v)]
    case CreateRequest(name, parent) => [TextField(name), U64Field(parent)]
    case CreateAccept(uuid) => [U64Field(uuid)]
    case CreateReject(cause) => [CauseField(cause)]
    case GetRequest(uuid) => [U64Field(uuid)]
    case GetAccept(data) => [BufferField(data)]
    case GetReject(cause) => [CauseField(cause)]
    case TreeInfoRequest(parent, name, recursive) => [U64Field(parent), TextField(name), ByteField(recursive)]
    case TreeInfoResponse(list) => [NodesField(list)]
    case TreeInfoErrorResponse(cause) => [CauseField(cause)]
    case TreeUpdateNotification(adds, deletes) => [NodesField(adds), UuidsField(deletes)]
    case DeleteRequest(uuid) => [U64Field(uuid)]
    case DeleteResponse(cause) => [CauseField(cause)]
    case SetValueRequest(uuid, data) => [U64Field(uuid), BufferField(data)]
    case SetValueAccept(v) => [ByteField(v)]
    case SetValueReject(cause) => [CauseField(cause)]
    case SubscribeRequest(uuid) => [U64Field(uuid)]
    case SubscribeResponse(cause) => [CauseField(cause)]
    case UnsubscribeRequest(uuid) => [U64Field(uuid)]
    case UnsubscribeResponse(cause) => [CauseField(cause)]
    case UpdateNotification(uuid, data) => [U64Field(uuid), BufferField(data)]
    case RpcRequest(uuid, param) => [U64Field(uuid), BufferField(param)]
    case RpcAccept(value) => [BufferField(value)]
    case RpcReject(cause) => [CauseField(cause)]
    case HearbeatRequest(v) => [ByteField(v)]
    case HearbeatResponse(v) => [ByteField(v)]
  }

  /** The message with these fields; a kind that does not exist leaves the choice as it was
      constructed. */
  function Build(kind: Byte, f: seq<Field>): Message
    requires TypesOf(f) == Schema(kind)
  {
    assert |f| == |Schema(kind)| && forall i | 0 <= i < |f| :: TypeOf(f[i]) == Schema(kind)[i];
    if kind == 0 then SigninRequest(f[0].byte)
    else if kind == 1 then SigninAccept(f[0].u32)
    else if kind == 2 then CreateRequest(f[0].text, f[1].u64)
    else if kind == 3 then CreateAccept(f[0].u64)
    else if kind == 4 then CreateReject(f[0].cause)
    else if kind == 5 then GetRequest(f[0].u64)
    else if kind == 6 then GetAccept(f[0].buffer)
    else if kind == 7 then GetReject(f[0].cause)
    else if kind == 8 then TreeInfoRequest(f[0].u64, f[1].text, f[2].byte)
    else if kind == 9 then TreeInfoResponse(f[0].nodes)
    else if kind == 10 then TreeInfoErrorResponse(f[0].cause)
    else if kind == 11 then TreeUpdateNotification(f[0].nodes, f[1].uuids)
    else if kind == 12 then DeleteRequest(f[0].u64)
    else if kind == 13 then DeleteResponse(f[0].cause)
    else if kind == 14 then SetValueRequest(f[0].u64, f[1].buffer)
    else if kind == 15 then SetValueAccept(f[0].byte)
    else if kind == 16 then SetValueReject(f[0].cause)
    else if kind == 17 then SubscribeRequest(f[0].u64)
    else if kind == 18 then SubscribeResponse(f[0].cause)
    else if kind == 19 then UnsubscribeRequest(f[0].u64)
    else if kind == 20 then UnsubscribeResponse(f[0].cause)
    else if kind == 21 then UpdateNotification(f[0].u64, f[1].buffer)
    else if kind == 22 then RpcRequest(f[0].u64, f[1].buffer)
    else if kind == 23 then RpcAccept(f[0].buffer)
    else if kind == 24 then RpcReject(f[0].cause)
    else if kind == 25 then HearbeatRequest(f[0].byte)
    else if kind == 26 then HearbeatResponse(f[0].byte)
    else SigninRequest(0)
  }

  /** No kind shares an index with another, and the schema describes every kind. */
  lemma BuildFields(m: Message)
    ensures Kind(m) as int < KINDS
    ensures TypesOf(Fields(m)) == Schema(Kind(m))
    ensures Build(Kind(m), Fields(m)) == m
  {
    FieldsFitSchema(m);
    FieldsRebuild(m);
  }

  lemma FieldsFitSchema(m: Message)
    ensures Kind(m) as int < KINDS
    ensures TypesOf(Fields(m)) == Schema(Kind(m))
  {
    hide Build;
  }

  lemma FieldsRebuild(m: Message)
    ensures Build(Kind(m), Fields(m)) == m
  {
    hide Schema, TypesOf;
  }

  // ----- messages and protocol values

  function PutMessage(kit: Kit, m: Message): Bytes {
    kit.u8.put(Kind(m)) + PutFields(kit, Fields(m))
  }

  function GetMessage(kit: Kit, b: Bytes): Option<(Message, Bytes)> {
    match kit.u8.get(b)
    case None => None
    case Some((kind, b1)) =>
      match GetFields(kit, Schema(kind), b1)
      case None => None
      case Some((fields, b2)) => Some((Build(kind, fields), b2))
  }

  lemma FewFields(kit: Kit, a: Field, b: Field, c: Field)
    ensures PutFields(kit, [a]) == PutField(kit, a)
    ensures PutFields(kit, [a, b]) == PutField(kit, a) + PutField(kit, b)
    ensures PutFields(kit, [a, b, c]) == PutField(kit, a) + PutField(kit, b) + PutField(kit, c)
  {
    hide PutField;
    assert [a][1..] == [] && [a, b][1..] == [b] && [a, b, c][1..] == [b, c];
    assert PutFields(kit, []) == [];
    assert PutFields(kit, [c]) == PutField(kit, c) by { assert [c][1..] == []; }
    assert PutFields(kit, [b]) == PutField(kit, b) by { assert [b][1..] == []; }
    assert PutFields(kit, [b, c]) == PutField(kit, b) + PutField(kit, c) by { assert [b, c][1..] == [c]; }
  }

  /** The wire form of every kind, spelled out: its index in the variant, then its fields in
      the order of the interface. */
  lemma WireForm(kit: Kit, m: Message)
    ensures PutMessage(kit, m) ==
            match m
            case SigninRequest(v) => kit.u8.put(0) + kit.u8.put(v)
            case SigninAccept(n) => kit.u8.put(1) + kit.u32.put(n)
            case CreateRequest(name, parent) =>
              kit.u8.put(2) + (kit.text.put(name) + kit.u64.put(parent))
            case CreateAccept(uuid) => kit.u8.put(3) + kit.u64.put(uuid)
            case CreateReject(cause) => kit.u8.put(4) + kit.cause.put(cause)
            case GetRequest(uuid) => kit.u8.put(5) + kit.u64.put(uuid)
            case GetAccept(data) => kit.u8.put(6) + kit.buffer.put(data)
            case GetReject(cause) => kit.u8.put(7) + kit.cause.put(cause)
            case TreeInfoRequest(parent, name, recursive) =>
              kit.u8.put(8) + (kit.u64.put(parent) + kit.text.put(name) + kit.u8.put(recursive))
            case TreeInfoResponse(list) => kit.u8.put(9) + kit.nodes(NodeCodec(kit)).put(list)
            case TreeInfoErrorResponse(cause) => kit.u8.put(10) + kit.cause.put(cause)
            case TreeUpdateNotification(adds, deletes) =>
              kit.u8.put(11) + (kit.nodes(NodeCodec(kit)).put(adds) + kit.uuids.put(deletes))
            case DeleteRequest(uuid) => kit.u8.put(12) + kit.u64.put(uuid)
            case DeleteResponse(cause) => kit.u8.put(13) + kit.cause.put(cause)
            case SetValueRequest(uuid, data) =>
              kit.u8.put(14) + (kit.u64.put(uuid) + kit.buffer.put(data))
            case SetValueAccept(v) => kit.u8.put(15) + kit.u8.put(v)
            case SetValueReject(cause) => kit.u8.put(16) + kit.cause.put(cause)
            case SubscribeRequest(uuid) => kit.u8.put(17) + kit.u64.put(uuid)
            case SubscribeResponse(cause) => kit.u8.put(18) + kit.cause.put(cause)
            case UnsubscribeRequest(uuid) => kit.u8.put(19) + kit.u64.put(uuid)
            case UnsubscribeResponse(cause) => kit.u8.put(20) + kit.cause.put(cause)
            case UpdateNotification(uuid, data) =>
              kit.u8.put(21) + (kit.u64.put(uuid) + kit.buffer.put(data))
            case RpcRequest(uuid, param) =>
              kit.u8.put(22) + (kit.u64.put(uuid) + kit.buffer.put(param))
            case RpcAccept(value) => kit.u8.put(23) + kit.buffer.put(value)
            case RpcReject(cause) => kit.u8.put(24) + kit.cause.put(cause)
            case HearbeatRequest(v) => kit.u8.put(25) + kit.u8.put(v)
            case HearbeatResponse(v) => kit.u8.put(26) + kit.u8.put(v)
  {
    FieldsForm(kit, m);
    hide PutFields, Fields, PutField, NodeCodec;
  }

  lemma FieldsForm(kit: Kit, m: Message)
    ensures PutFields(kit, Fields(m)) ==
            match m
            case SigninRequest(v) => kit.u8.put(v)
            case SigninAccept(n) => kit.u32.put(n)
            case CreateRequest(name, parent) =>
              kit.text.put(name) + kit.u64.put(parent)
            case CreateAccept(uuid) => kit.u64.put(uuid)
            case CreateReject(cause) => kit.cause.put(cause)
            case GetRequest(uuid) => kit.u64.put(uuid)
            case GetAccept(data) => kit.buffer.put(data)
            case GetReject(cause) => kit.cause.put(cause)
            case TreeInfoRequest(parent, name, recursive) =>
              kit.u64.put(parent) + kit.text.put(name) + kit.u8.put(recursive)
            case TreeInfoResponse(list) => kit.nodes(NodeCodec(kit)).put(list)
            case TreeInfoErrorResponse(cause) => kit.cause.put(cause)
            case TreeUpdateNotification(adds, deletes) =>
              kit.nodes(NodeCodec(kit)).put(adds) + kit.uuids.put(deletes)
            case DeleteRequest(uuid) => kit.u64.put(uuid)
            case DeleteResponse(cause) => kit.cause.put(cause)
            case SetValueRequest(uuid, data) =>
              kit.u64.put(uuid) + kit.buffer.put(data)
            case SetValueAccept(v) => kit.u8.put(v)
            case SetValueReject(cause) => kit.cause.put(cause)
            case SubscribeRequest(uuid) => kit.u64.put(uuid)
            case SubscribeResponse(cause) => kit.cause.put(cause)
            case UnsubscribeRequest(uuid) => kit.u64.put(uuid)
            case UnsubscribeResponse(cause) => kit.cause.put(cause)
            case UpdateNotification(uuid, data) =>
              kit.u64.put(uuid) + kit.buffer.put(data)
            case RpcRequest(uuid, param) =>
              kit.u64.put(uuid) + kit.buffer.put(param)
            case RpcAccept(value) => kit.buffer.put(value)
            case RpcReject(cause) => kit.cause.put(cause)
            case HearbeatRequest(v) => kit.u8.put(v)
            case HearbeatResponse(v) => kit.u8.put(v)
  {
    hide PutFields, NodeCodec;
    var f := Fields(m);
    FewFields(kit, f[0], if |f| > 1 then f[1] else f[0], if |f| > 2 then f[2] else f[0]);
    ByLength(f);
  }

  lemma ByLength(f: seq<Field>)
    ensures |f| == 1 ==> f == [f[0]]
    ensures |f| == 2 ==> f == [f[0], f[1]]
    ensures |f| == 3 ==> f == [f[0], f[1], f[2]]
  {
  }

  function PutTransaction(kit: Kit, p: PropertyTreeMessage): Bytes {
    kit.u16.put(p.transactionId) + PutMessage(kit, p.message)
  }

  function GetTransaction(kit: Kit, b: Bytes): Option<(PropertyTreeMessage, Bytes)> {
    match kit.u16.get(b)
    case None => None
    case Some((trId, b1)) =>
      match GetMessage(kit, b1)
      case None => None
      case Some((m, b2)) => Some((PropertyTreeMessage(trId, m), b2))
  }

  function TransactionCodec(kit: Kit): Codec<PropertyTreeMessage> {
    Codec(p => PutTransaction(kit, p), b => GetTransaction(kit, b))
  }

  function Put(kit: Kit, p: PropertyTreeProtocol): Bytes {
    match p
    case Single(one) => kit.u8.put(0) + PutTransaction(kit, one)
    case Batch(many) => kit.u8.put(1) + kit.messages(TransactionCodec(kit)).put(many)
  }

  /** The value a choice of protocol has when it is constructed. */
  const BLANK := Single(PropertyTreeMessage(0, SigninRequest(0)))

  function Get(kit: Kit, b: Bytes): Option<(PropertyTreeProtocol, Bytes)> {
    match kit.u8.get(b)
    case None => None
    case Some((kind, b1)) =>
      if kind == 0 then
        match GetTransaction(kit, b1)
        case None => None
        case Some((one, b2)) => Some((Single(one), b2))
      else if kind == 1 then
        match kit.messages(TransactionCodec(kit)).get(b1)
        case None => None
        case Some((many, b2)) => Some((Batch(many), b2))
      else Some((BLANK, b1))
  }

  // ----- round trips

  predicate FieldsOk(fields: seq<Field>) {
    forall i | 0 <= i < |fields| :: FieldOk(fields[i])
  }

  /** Names without NUL, and nothing longer than its vector type allows. */
  predicate MessageOk(m: Message) {
    FieldsOk(Fields(m))
  }

  predicate TransactionOk(p: PropertyTreeMessage) {
    MessageOk(p.message)
  }

  predicate ProtocolOk(p: PropertyTreeProtocol) {
    match p
    case Single(one) => TransactionOk(one)
    case Batch(many) => UpTo(ARRAY_LIMIT, TransactionOk)(many)
  }

  lemma NodeLawful(kit: Kit)
    requires LawfulKit(kit)
    ensures Lawful(NodeCodec(kit), NodeOk)
  {
    var c := NodeCodec(kit);
    forall e, rest | NodeOk(e) ensures c.get(c.put(e) + rest) == Some((e, rest)) {
      var uuid, parent := kit.u64.put(e.uuid), kit.u64.put(e.parentUuid);
      assert c.put(e) + rest == kit.text.put(e.name) + (uuid + (parent + rest));
    }
  }

  lemma FieldRoundTrip(kit: Kit, f: Field, rest: Bytes)
    requires LawfulKit(kit) && FieldOk(f)
    ensures GetField(kit, TypeOf(f), PutField(kit, f) + rest) == Some((f, rest))
  {
    if f.NodesField? {
      NodeLawful(kit);
      assert Lawful(kit.nodes(NodeCodec(kit)), UpTo(VECTOR_LIMIT, NodeOk));
    }
  }

  lemma {:induction false} FieldsRoundTrip(kit: Kit, fields: seq<Field>, rest: Bytes)
    requires LawfulKit(kit) && FieldsOk(fields)
    ensures GetFields(kit, TypesOf(fields), PutFields(kit, fields) + rest) == Some((fields, rest))
    decreases |fields|
  {
    hide PutField, GetField, LawfulKit, TypeOf;
    if fields == [] {
      assert PutFields(kit, fields) + rest == rest;
    } else {
      var tail := PutFields(kit, fields[1..]) + rest;
      assert PutFields(kit, fields) + rest == PutField(kit, fields[0]) + tail;
      FieldRoundTrip(kit, fields[0], tail);
      FieldsRoundTrip(kit, fields[1..], rest);
      assert TypesOf(fields)[1..] == TypesOf(fields[1..]);
      assert [fields[0]] + fields[1..] == fields;
    }
  }

  lemma MessageRoundTrip(kit: Kit, m: Message, rest: Bytes)
    requires LawfulKit(kit) && MessageOk(m)
    ensures GetMessage(kit, PutMessage(kit, m) + rest) == Some((m, rest))
  {
    hide Schema, Kind, Fields, Build;
    assert PutMessage(kit, m) + rest == kit.u8.put(Kind(m)) + (PutFields(kit, Fields(m)) + rest);
    FieldsRoundTrip(kit, Fields(m), rest);
    BuildFields(m);
  }

  lemma TransactionLawful(kit: Kit)
    requires LawfulKit(kit)
    ensures Lawful(TransactionCodec(kit), TransactionOk)
  {
    hide MessageOk, PutMessage, GetMessage;
    var c := TransactionCodec(kit);
    forall p, rest | TransactionOk(p) ensures c.get(c.put(p) + rest) == Some((p, rest)) {
      assert c.put(p) + rest == kit.u16.put(p.transactionId) + (PutMessage(kit, p.message) + rest);
      MessageRoundTrip(kit, p.message, rest);
    }
  }

  /** Decoding an encoded protocol value, single or array, followed by anything, returns the
      value and leaves the rest. */
  lemma ProtocolRoundTrip(kit: Kit, p: PropertyTreeProtocol, rest: Bytes)
    requires LawfulKit(kit) && ProtocolOk(p)
    ensures Get(kit, Put(kit, p) + rest) == Some((p, rest))
  {
    hide PutTransaction, GetTransaction, TransactionOk;
    TransactionLawful(kit);
    var c := TransactionCodec(kit);
    match p
    case Single(one) =>
      assert Put(kit, p) + rest == kit.u8.put(0) + (PutTransaction(kit, one) + rest);
      assert c.get(c.put(one) + rest) == Some((one, rest));
    case Batch(many) =>
      var list := kit.messages(c);
      assert Lawful(list, UpTo(ARRAY_LIMIT, TransactionOk));
      assert Put(kit, p) + rest == kit.u8.put(1) + (list.put(many) + rest);
      assert list.get(list.put(many) + rest) == Some((many, rest));
  }

  /** No two protocol values share a wire form, nor is one a prefix of another's. */
  lemma EncodingUnambiguous(kit: Kit, p: PropertyTreeProtocol, q: PropertyTreeProtocol)
    requires LawfulKit(kit) && ProtocolOk(p) && ProtocolOk(q) && Put(kit, p) <= Put(kit, q)
    ensures p == q
  {
    hide Put, Get, LawfulKit, ProtocolOk;
    var rest := Put(kit, q)[|Put(kit, p)|..];
    assert Put(kit, p) + rest == Put(kit, q) + [];
    ProtocolRoundTrip(kit, p, rest);
    ProtocolRoundTrip(kit, q, []);
  }
}
