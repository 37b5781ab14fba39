/** A kit of codecs that keeps the laws the wire form rests on: fixed-width little-endian
    numbers, text closed by a mark, vectors behind a count. */
module SampleKits {
  import opened Protocol
  import opened Codecs

  // ----- numbers

  function Span(width: nat): (n: nat)
    ensures n > 0
  {
    if width == 0 then 1 else 0x100 * Span(width - 1)
  }

  function Digits(n: nat, width: nat): (b: Bytes)
    ensures |b| == width
    decreases width
  {
    if width == 0 then [] else [(n % 0x100) as Byte] + Digits(n / 0x100, width - 1)
  }

  function Number(b: Bytes): (n: nat)
    ensures n < Span(|b|)
    decreases |b|
  {
    if b == [] then 0 else b[0] as nat + 0x100 * Number(b[1..])
  }

  lemma {:induction false} NumberOfDigits(n: nat, width: nat)
    requires n < Span(width)
    ensures Number(Digits(n, width)) == n
    decreases width
  {
    if width > 0 {
      assert Digits(n, width)[1..] == Digits(n / 0x100, width - 1);
      NumberOfDigits(n / 0x100, width - 1);
    }
  }

  function GetNumber(width: nat, b: Bytes): (r: Option<(nat, Bytes)>)
    ensures r.Some? ==> r.value.0 < Span(width)
  {
    if |b| < width then None else Some((Number(b[..width]), b[width..]))
  }

  lemma NumberBack(n: nat, width: nat, rest: Bytes)
    requires n < Span(width)
    ensures GetNumber(width, Digits(n, width) + rest) == Some((n, rest))
  {
    var b := Digits(n, width) + rest;
    assert b[..width] == Digits(n, width) && b[width..] == rest;
    NumberOfDigits(n, width);
  }

  lemma Spans()
    ensures Span(1) == 0x100 && Span(2) == 0x1_0000 && Span(3) == 0x100_0000
    ensures Span(4) == 0x1_0000_0000 && Span(8) == 0x1_0000_0000_0000_0000
  {
    assert Span(1) == 0x100 * Span(0);
    assert Span(2) == 0x100 * Span(1);
    assert Span(3) == 0x100 * Span(2);
    assert Span(4) == 0x100 * Span(3);
    assert Span(5) == 0x100 * Span(4);
    assert Span(6) == 0x100 * Span(5);
    assert Span(7) == 0x100 * Span(6);
  }

  function Through<T>(r: Option<(nat, Bytes)>, make: nat -> Option<T>): Option<(T, Bytes)> {
    match r
    case None => None
    case Some((n, rest)) =>
      match make(n)
      case None => None
      case Some(v) => Some((v, rest))
  }

  function NumberCodec<T(!new)>(width: nat, value: T -> nat, make: nat -> Option<T>): Codec<T> {
    Codec(v => Digits(value(v), width), b => Through(GetNumber(width, b), make))
  }

  lemma NumberLawful<T(!new)>(width: nat, value: T -> nat, make: nat -> Option<T>)
    requires forall v :: value(v) < Span(width) && make(value(v)) == Some(v)
    ensures Lawful(NumberCodec(width, value, make), (_: T) => true)
  {
    var c := NumberCodec(width, value, make);
    forall v, rest ensures c.get(c.put(v) + rest) == Some((v, rest)) {
      NumberBack(value(v), width, rest);
    }
  }

  function CauseIndex(c: Cause): nat {
    match c
    case OK => 0
    case NOT_FOUND => 1
    case ALREADY_EXIST => 2
    case NOT_PERMITTED => 3
    case NOT_EMPTY => 4
    case NO_HANDLER => 5
  }

  function CauseAt(n: nat): Option<Cause> {
    if n == 0 then Some(OK)
    else if n == 1 then Some(NOT_FOUND)
    else if n == 2 then Some(ALREADY_EXIST)
    else if n == 3 then Some(NOT_PERMITTED)
    else if n == 4 then Some(NOT_EMPTY)
    else if n == 5 then Some(NO_HANDLER)
    else None
  }

  // ----- vectors

  function PutAll<T>(c: Codec<T>, list: seq<T>): Bytes
    decreases |list|
  {
    if list == [] then [] else c.put(list[0]) + PutAll(c, list[1..])
  }

  function GetAll<T>(c: Codec<T>, n: nat, b: Bytes): Option<(seq<T>, Bytes)>
    decreases n
  {
    if n == 0 then Some(([], b))
    else
      match c.get(b)
      case None => None
      case Some((v, b1)) =>
        match GetAll(c, n - 1, b1)
        case None => None
        case Some((list, b2)) => Some(([v] + list, b2))
  }

  lemma {:induction false} AllBack<T(!new)>(c: Codec<T>, ok: T -> bool, list: seq<T>, rest: Bytes)
    requires Lawful(c, ok) && forall i | 0 <= i < |list| :: ok(list[i])
    ensures GetAll(c, |list|, PutAll(c, list) + rest) == Some((list, rest))
    decreases |list|
  {
    if list == [] {
      assert PutAll(c, list) + rest == rest;
    } else {
      var tail := PutAll(c, list[1..]) + rest;
      assert PutAll(c, list) + rest == c.put(list[0]) + tail;
      AllBack(c, ok, list[1..], rest);
      assert [list[0]] + list[1..] == list;
    }
  }

  /** A vector is its length in eight bytes, then its elements. */
  function Vector<T>(c: Codec<T>): Codec<seq<T>> {
    Codec(list => Digits(|list|, 8) + PutAll(c, list),
          b => match GetNumber(8, b)
            case None => None
            case Some((n, b1)) => GetAll(c, n, b1))
  }

  lemma VectorLawful<T(!new)>(c: Codec<T>, ok: T -> bool, limit: nat)
    requires Lawful(c, ok) && limit <= VECTOR_LIMIT
    ensures Lawful(Vector(c), UpTo(limit, ok))
  {
    var v := Vector(c);
    forall list, rest | UpTo(limit, ok)(list) ensures v.get(v.put(list) + rest) == Some((list, rest)) {
      Spans();
      assert v.put(list) + rest == Digits(|list|, 8) + (PutAll(c, list) + rest);
      NumberBack(|list|, 8, PutAll(c, list) + rest);
      AllBack(c, ok, list, rest);
    }
  }

  // ----- text

  function PutText(name: Name): Bytes
    decreases |name|
  {
    if name == [] then [0] else [1] + Digits(name[0] as nat, 3) + PutText(name[1..])
  }

  predicate Scalar(n: nat) {
    n < 0xD800 || 0xE000 <= n < 0x11_0000
  }

  function GetText(b: Bytes): Option<(Name, Bytes)>
    decreases |b|
  {
    if b == [] then None
    else if b[0] == 0 then Some(([], b[1..]))
    else if |b| < 4 || !Scalar(Number(b[1..4])) then None
    else
      match GetText(b[4..])
      case None => None
      case Some((name, rest)) => Some(([Number(b[1..4]) as char] + name, rest))
  }

  lemma CharBack(n: nat, tail: Bytes)
    requires n < 0x100_0000
    ensures var b := [1] + Digits(n, 3) + tail;
            |b| >= 4 && b[0] == 1 && Number(b[1..4]) == n && b[4..] == tail
  {
    hide Digits, Number;
    var b := [1] + Digits(n, 3) + tail;
    assert b[1..4] == Digits(n, 3) && b[4..] == tail;
    Spans();
    NumberOfDigits(n, 3);
  }

  lemma EmptyText(b: Bytes)
    requires b != [] && b[0] == 0
    ensures GetText(b) == Some(([], b[1..]))
  {
    hide Number;
  }

  lemma CharThenText(b: Bytes, c: char, name: Name, rest: Bytes)
    requires |b| >= 4 && b[0] == 1 && Number(b[1..4]) == c as nat && GetText(b[4..]) == Some((name, rest))
    ensures GetText(b) == Some(([c] + name, rest))
  {
    hide Digits, Number, Span;
  }

  lemma {:induction false} TextBack(name: Name, rest: Bytes)
    ensures GetText(PutText(name) + rest) == Some((name, rest))
    decreases |name|
  {
    hide Digits, Number, Span, GetText;
    var b := PutText(name) + rest;
    if name == [] {
      EmptyText(b);
      assert b[1..] == rest;
    } else {
      var tail := PutText(name[1..]) + rest;
      CharBack(name[0] as nat, tail);
      assert b == [1] + Digits(name[0] as nat, 3) + tail;
      TextBack(name[1..], rest);
      CharThenText(b, name[0], name[1..], rest);
      assert [name[0]] + name[1..] == name;
    }
  }

  // ----- the kit

  function ByteAt(n: nat): Option<Byte> {
    if n < 0x100 then Some(n as Byte) else None
  }

  function U16At(n: nat): Option<U16> {
    if n < 0x1_0000 then Some(n as U16) else None
  }

  function U32At(n: nat): Option<U32> {
    if n < 0x1_0000_0000 then Some(n as U32) else None
  }

  function U64At(n: nat): Option<U64> {
    if n < 0x1_0000_0000_0000_0000 then Some(n as U64) else None
  }

  const BYTES := NumberCodec<Byte>(1, v => v as nat, ByteAt)
  const WORDS16 := NumberCodec<U16>(2, v => v as nat, U16At)
  const WORDS32 := NumberCodec<U32>(4, v => v as nat, U32At)
  const WORDS64 := NumberCodec<U64>(8, v => v as nat, U64At)
  const CAUSES := NumberCodec<Cause>(1, CauseIndex, CauseAt)
  const TEXTS: Codec<Name> := Codec(PutText, GetText)

  const KIT := Kit(BYTES, WORDS16, WORDS32, WORDS64, CAUSES, TEXTS, Vector(BYTES), Vector(WORDS64),
                   c => Vector(c), c => Vector(c))

  lemma NumbersLawful()
    ensures Lawful(BYTES, (_: Byte) => true) && Lawful(WORDS16, (_: U16) => true)
    ensures Lawful(WORDS32, (_: U32) => true) && Lawful(WORDS64, (_: U64) => true)
    ensures Lawful(CAUSES, (_: Cause) => true)
  {
    Spans();
    NumberLawful<Byte>(1, v => v as nat, ByteAt);
    NumberLawful<U16>(2, v => v as nat, U16At);
    NumberLawful<U32>(4, v => v as nat, U32At);
    NumberLawful<U64>(8, v => v as nat, U64At);
    NumberLawful<Cause>(1, CauseIndex, CauseAt);
  }

  lemma TextLawful()
    ensures Lawful(TEXTS, Sendable)
  {
    forall name, rest ensures TEXTS.get(TEXTS.put(name) + rest) == Some((name, rest)) {
      TextBack(name, rest);
    }
  }

  /** The hypotheses of the round trips can be met. */
  lemma LawfulKitExists()
    ensures LawfulKit(KIT)
  {
    NumbersLawful();
    TextLawful();
    VectorLawful(BYTES, (_: Byte) => true, VECTOR_LIMIT);
    VectorLawful(WORDS64, (_: U64) => true, VECTOR_LIMIT);
    forall c: Codec<NamedNode>, ok | Lawful(c, ok) ensures Lawful(KIT.nodes(c), UpTo(VECTOR_LIMIT, ok)) {
      VectorLawful(c, ok, VECTOR_LIMIT);
    }
    forall c: Codec<PropertyTreeMessage>, ok | Lawful(c, ok) ensures Lawful(KIT.messages(c), UpTo(ARRAY_LIMIT, ok)) {
      VectorLawful(c, ok, ARRAY_LIMIT);
    }
  }
}
