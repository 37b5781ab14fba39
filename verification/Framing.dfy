/** Message framing: a two-byte little-endian length before each body, written by both sides
    and read back by a two-state reader. */
module Framing {
  import opened Protocol

  /** Largest bodies the two senders can produce, and the buffers that receive them. */
  const CLIENT_SEND_LIMIT := 510
  const SERVER_SEND_LIMIT := 65534
  const SERVER_BUFFER := 512
  const CLIENT_BUFFER := 65536

  function Header(n: nat): (h: Bytes)
    requires n < U16_SPAN
  {
    [(n % 0x100) as Byte, (n / 0x100) as Byte]
  }

  function HeaderValue(h: Bytes): (n: nat)
    requires |h| == 2
  {
    h[0] as nat + 0x100 * h[1] as nat
  }

  lemma HeaderRoundTrip(n: nat)
    requires n < U16_SPAN
    ensures HeaderValue(Header(n)) == n
  {
  }

  predicate Framable(bodies: seq<Bytes>) {
    forall i | 0 <= i < |bodies| :: |bodies[i]| < U16_SPAN
  }

  function Framed(body: Bytes): Bytes
    requires |body| < U16_SPAN
  {
    Header(|body|) + body
  }

  /** The bytes on the wire. */
  function Wire(bodies: seq<Bytes>): Bytes
    requires Framable(bodies)
    decreases |bodies|
  {
    if bodies == [] then [] else Framed(bodies[0]) + Wire(bodies[1..])
  }

  lemma Assoc(a: Bytes, b: Bytes, c: Bytes)
    ensures a + (b + c) == (a + b) + c
  {
  }

  lemma {:induction false} WireSplit(bodies: seq<Bytes>, k: nat)
    requires Framable(bodies) && k <= |bodies|
    ensures Wire(bodies) == Wire(bodies[..k]) + Wire(bodies[k..])
    decreases |bodies|
  {
    if k == 0 {
      assert bodies[..0] == [] && bodies[0..] == bodies;
    } else {
      hide Framed;
      var rest := bodies[1..];
      WireSplit(rest, k - 1);
      assert bodies[..k][1..] == rest[..k - 1] && rest[k - 1..] == bodies[k..] && bodies[..k][0] == bodies[0];
      assert Wire(bodies[..k]) == Framed(bodies[0]) + Wire(rest[..k - 1]);
      Assoc(Framed(bodies[0]), Wire(rest[..k - 1]), Wire(rest[k - 1..]));
    }
  }

  /** What comes after the first `k` bodies. */
  lemma WireAt(bodies: seq<Bytes>, k: nat)
    requires Framable(bodies) && k < |bodies|
    ensures Wire(bodies) == Wire(bodies[..k]) + (Header(|bodies[k]|) + bodies[k] + Wire(bodies[k + 1..]))
    ensures Wire(bodies[..k + 1]) == Wire(bodies[..k]) + (Header(|bodies[k]|) + bodies[k])
  {
    WireSplit(bodies, k);
    assert bodies[k..][0] == bodies[k] && bodies[k..][1..] == bodies[k + 1..];
    WireSplit(bodies[..k + 1], k);
    var last := bodies[..k + 1][k..];
    assert bodies[..k + 1][..k] == bodies[..k] && last == [bodies[k]] && last[1..] == [];
  }

  // ----- the reader as a value

  /** Waiting for a header, or for the rest of a body of which `got` has arrived. `second` is
      what the buffer holds at index 1, which a one-byte header read leaves as it was. */
  datatype Reading = Reading(
    waitHeader: bool,
    expected: nat,
    got: Bytes,
    second: Byte,
    delivered: seq<Bytes>,
    closed: bool)

  function Idle(second: Byte): Reading {
    Reading(true, 0, [], second, [], false)
  }

  /** The size asked of `read`. */
  function Wanted(s: Reading): int {
    if s.waitHeader then 2 else s.expected - |s.got|
  }

  /** What `read` may return: no more than it was asked for. */
  predicate Readable(s: Reading, chunk: Bytes) {
    !s.closed && |chunk| <= Wanted(s)
  }

  /** The header, if this is where it is read, arrived in one piece. */
  predicate WholeHeader(s: Reading, chunk: Bytes) {
    s.waitHeader ==> |chunk| == 2
  }

  /** The buffer's byte 1 after `chunk` was read to index `start`. */
  function SecondAfter(second: Byte, start: nat, chunk: Bytes): Byte {
    if start <= 1 < start + |chunk| then chunk[1 - start] else second
  }

  /** `handleRead`; an empty read closes the connection. */
  function ReadStep(s: Reading, chunk: Bytes): Reading
    requires Readable(s, chunk)
  {
    if chunk == [] then s.(closed := true)
    else if s.waitHeader then
      var second := SecondAfter(s.second, 0, chunk);
      s.(waitHeader := false, expected := HeaderValue([chunk[0], second]), got := [], second := second)
    else
      var s1 := s.(second := SecondAfter(s.second, |s.got|, chunk));
      if |s.got + chunk| == s.expected then
        s1.(waitHeader := true, got := [], delivered := s.delivered + [s.got + chunk])
      else s1.(got := s.got + chunk)
  }

  predicate Reads(s: Reading, chunks: seq<Bytes>)
    decreases |chunks|
  {
    chunks == [] || (Readable(s, chunks[0]) && Reads(ReadStep(s, chunks[0]), chunks[1..]))
  }

  /** No header is split between two reads. */
  predicate HeadersWhole(s: Reading, chunks: seq<Bytes>)
    requires Reads(s, chunks)
    decreases |chunks|
  {
    chunks == [] || (WholeHeader(s, chunks[0]) && HeadersWhole(ReadStep(s, chunks[0]), chunks[1..]))
  }

  function ReadAll(s: Reading, chunks: seq<Bytes>): Reading
    requires Reads(s, chunks)
    decreases |chunks|
  {
    if chunks == [] then s else ReadAll(ReadStep(s, chunks[0]), chunks[1..])
  }

  function Joined(chunks: seq<Bytes>): Bytes
    decreases |chunks|
  {
    if chunks == [] then [] else chunks[0] + Joined(chunks[1..])
  }

  // ----- round trip

  /** `bytes` of the wire have been read, and the reader is where it should be. */
  ghost predicate InStep(s: Reading, bodies: seq<Bytes>, bytes: Bytes)
    requires Framable(bodies)
  {
    var k := |s.delivered|;
    && !s.closed && k <= |bodies| && s.delivered == bodies[..k]
    && if s.waitHeader then bytes == Wire(bodies[..k])
       else
         && k < |bodies| && s.expected == |bodies[k]| && |s.got| <= s.expected
         && (s.got != [] ==> |s.got| < s.expected)
         && s.got == bodies[k][..|s.got|]
         && bytes == Wire(bodies[..k]) + (Header(s.expected) + s.got)
  }

  /** The reader never asks for bytes beyond the current message, and while the wire holds
      more it asks for at least one, unless a body is empty. */
  lemma WantsWithinMessage(s: Reading, bodies: seq<Bytes>, bytes: Bytes)
    requires Framable(bodies) && InStep(s, bodies, bytes)
    ensures bytes <= Wire(bodies)
    ensures bytes != Wire(bodies) ==> 0 <= Wanted(s) <= |Wire(bodies)| - |bytes|
    ensures bytes != Wire(bodies) && [] !in bodies ==> Wanted(s) > 0
  {
    var k := |s.delivered|;
    if k < |bodies| {
      WireAt(bodies, k);
    } else {
      assert bodies[..k] == bodies;
    }
  }

  lemma ReadKeepsStep(s: Reading, bodies: seq<Bytes>, bytes: Bytes, chunk: Bytes)
    requires Framable(bodies) && InStep(s, bodies, bytes) && Readable(s, chunk) && chunk != []
    requires bytes + chunk <= Wire(bodies) && WholeHeader(s, chunk)
    ensures InStep(ReadStep(s, chunk), bodies, bytes + chunk)
  {
    if s.waitHeader { HeaderRead(s, bodies, bytes, chunk); } else { BodyRead(s, bodies, bytes, chunk); }
  }

  lemma HeaderRead(s: Reading, bodies: seq<Bytes>, bytes: Bytes, chunk: Bytes)
    requires Framable(bodies) && InStep(s, bodies, bytes) && Readable(s, chunk) && chunk != []
    requires bytes + chunk <= Wire(bodies) && s.waitHeader && |chunk| == 2
    ensures |s.delivered| < |bodies| && chunk == Header(|bodies[|s.delivered|]|)
    ensures InStep(ReadStep(s, chunk), bodies, bytes + chunk)
  {
    var k := |s.delivered|;
    assert bodies[..|bodies|] == bodies;
    WireAt(bodies, k);
    var body, rest := bodies[k], Wire(bodies[k + 1..]);
    HeaderRoundTrip(|body|);
    PiecePrefix(bytes, Header(|body|) + body + rest, chunk);
    assert [chunk[0], chunk[1]] == chunk;
    assert (Header(|body|) + body + rest)[..2] == Header(|body|);
    assert bytes + chunk == Wire(bodies[..k]) + (Header(|body|) + []);
  }

  lemma BodyRead(s: Reading, bodies: seq<Bytes>, bytes: Bytes, chunk: Bytes)
    requires Framable(bodies) && InStep(s, bodies, bytes) && Readable(s, chunk) && chunk != []
    requires bytes + chunk <= Wire(bodies) && !s.waitHeader
    ensures InStep(ReadStep(s, chunk), bodies, bytes + chunk)
  {
    hide Wire, Header;
    var k, n := |s.delivered|, |s.got|;
    WireAt(bodies, k);
    var front, body, rest := Wire(bodies[..k]) + Header(s.expected), bodies[k], Wire(bodies[k + 1..]);
    assert bytes == front + body[..n];
    assert Wire(bodies) == bytes + (body[n..] + rest) by {
      assert Header(|body|) + body + rest == Header(|body|) + body[..n] + (body[n..] + rest);
    }
    PiecePrefix(bytes, body[n..] + rest, chunk);
    assert (body[n..] + rest)[..|chunk|] == body[n..n + |chunk|];
    assert s.got + chunk == body[..n + |chunk|];
    var got := s.got + chunk;
    assert bytes + chunk == Wire(bodies[..k]) + (Header(s.expected) + got);
    if |got| == s.expected {
      assert got == body;
      assert bodies[..k + 1] == bodies[..k] + [body];
      assert ReadStep(s, chunk).delivered == bodies[..k + 1];
    }
  }

  lemma PiecePrefix(front: Bytes, back: Bytes, piece: Bytes)
    requires front + piece <= front + back
    ensures |piece| <= |back| && piece == back[..|piece|]
  {
    forall i | 0 <= i < |piece| ensures piece[i] == back[i] {
      assert (front + piece)[|front| + i] == (front + back)[|front| + i];
    }
  }

  /** Whatever way the bodies are split into reads, the reader delivers exactly the bodies that
      were sent, in order, and is ready for the next header. */
  lemma {:induction false} FramingRoundTrip(s: Reading, bodies: seq<Bytes>, bytes: Bytes, chunks: seq<Bytes>)
    requires Framable(bodies) && [] !in bodies
    requires InStep(s, bodies, bytes) && Reads(s, chunks) && [] !in chunks && HeadersWhole(s, chunks)
    requires bytes + Joined(chunks) == Wire(bodies)
    ensures var end := ReadAll(s, chunks);
            end.delivered == bodies && end.waitHeader && !end.closed
    decreases |chunks|
  {
    if chunks == [] {
      var k := |s.delivered|;
      if k < |bodies| {
        assert bodies[k] in bodies;
        WireAt(bodies, k);
      } else {
        assert bodies[..k] == bodies;
      }
    } else {
      assert bytes + Joined(chunks) == (bytes + chunks[0]) + Joined(chunks[1..]);
      assert chunks[0] in chunks;
      ReadKeepsStep(s, bodies, bytes, chunks[0]);
      FramingRoundTrip(ReadStep(s, chunks[0]), bodies, bytes + chunks[0], chunks[1..]);
    }
  }

  /** An empty body is never delivered. */
  lemma {:induction false} NeverDeliversEmpty(s: Reading, chunks: seq<Bytes>)
    requires Reads(s, chunks) && [] !in s.delivered
    ensures [] !in ReadAll(s, chunks).delivered
    decreases |chunks|
  {
    if chunks != [] {
      NeverDeliversEmpty(ReadStep(s, chunks[0]), chunks[1..]);
    }
  }

  /** The reads of a peer that sends each header and each body in one piece. */
  function Pieces(bodies: seq<Bytes>): (chunks: seq<Bytes>)
    requires Framable(bodies)
    decreases |bodies|
  {
    if bodies == [] then [] else [Header(|bodies[0]|), bodies[0]] + Pieces(bodies[1..])
  }

  lemma {:induction false} PiecesRead(s: Reading, bodies: seq<Bytes>)
    requires Framable(bodies) && [] !in bodies && s.waitHeader && !s.closed && s.got == []
    ensures Joined(Pieces(bodies)) == Wire(bodies)
    ensures [] !in Pieces(bodies) && Reads(s, Pieces(bodies)) && HeadersWhole(s, Pieces(bodies))
    decreases |bodies|
  {
    if bodies != [] {
      var chunks := Pieces(bodies);
      var s1 := ReadStep(s, chunks[0]);
      HeaderRoundTrip(|bodies[0]|);
      assert bodies[0] in bodies;
      var s2 := ReadStep(s1, bodies[0]);
      PiecesRead(s2, bodies[1..]);
      assert chunks[1..][0] == bodies[0] && chunks[1..][1..] == Pieces(bodies[1..]);
      assert Joined(chunks) == Header(|bodies[0]|) + (bodies[0] + Joined(Pieces(bodies[1..])));
      assert Reads(s1, chunks[1..]) && HeadersWhole(s1, chunks[1..]);
    }
  }

  /** Messages can get through exactly when none of them is empty: the code takes the empty
      read that an empty body causes for a disconnect. */
  lemma DeliverableIffNoneEmpty(bodies: seq<Bytes>, second: Byte)
    requires Framable(bodies)
    ensures (exists chunks :: Reads(Idle(second), chunks) && Joined(chunks) == Wire(bodies)
                              && ReadAll(Idle(second), chunks).delivered == bodies)
       <==> [] !in bodies
  {
    var idle := Idle(second);
    if [] !in bodies {
      PiecesRead(idle, bodies);
      assert bodies[..0] == [];
      FramingRoundTrip(idle, bodies, [], Pieces(bodies));
    }
    forall chunks | Reads(idle, chunks) ensures [] !in ReadAll(idle, chunks).delivered {
      NeverDeliversEmpty(idle, chunks);
    }
  }

  /** A read of a header keeps the reader in step exactly when it returns both bytes. */
  lemma HeaderNeedsOneRead(s: Reading, bodies: seq<Bytes>, bytes: Bytes, chunk: Bytes)
    requires Framable(bodies) && InStep(s, bodies, bytes) && Readable(s, chunk)
    requires bytes + chunk <= Wire(bodies) && s.waitHeader
    ensures InStep(ReadStep(s, chunk), bodies, bytes + chunk) <==> |chunk| == 2
  {
    if |chunk| == 2 { HeaderRead(s, bodies, bytes, chunk); }
  }

  /** A header split in two delivers a body that was never sent. */
  lemma SplitHeaderMisreads()
    ensures var chunks := [[3], [0, 1, 2]];
            && Reads(Idle(0), chunks) && Joined(chunks) <= Wire([[1, 2, 3]])
            && ReadAll(Idle(0), chunks).delivered == [[0, 1, 2]]
  {
    var chunks: seq<Bytes> := [[3], [0, 1, 2]];
    var s1 := ReadStep(Idle(0), [3]);
    assert s1.expected == 3;
    assert chunks[1..] == [[0, 1, 2]];
    var s2 := ReadStep(s1, [0, 1, 2]);
    assert [] + [0, 1, 2] == [0, 1, 2];
    assert chunks[1..][0] == [0, 1, 2] && ReadStep(s1, chunks[1..][0]) == s2;
    assert chunks[1..][1..] == [];
    assert Reads(s2, chunks[1..][1..]) && ReadAll(s2, chunks[1..][1..]) == s2;
    assert Reads(s1, chunks[1..]);
    assert ReadAll(s1, chunks[1..]) == s2;
    assert Joined(chunks[1..]) == [0, 1, 2];
    assert Joined(chunks) == [3, 0, 1, 2];
    assert Wire([[1, 2, 3]]) == [3, 0, 1, 2, 3];
  }

  /** The senders' limits are enough: a header that arrives announces no more than the
      longest body sent, so it fits the receiver's buffer. */
  lemma HeaderFitsBuffer(s: Reading, bodies: seq<Bytes>, bytes: Bytes, chunk: Bytes, limit: nat)
    requires Framable(bodies) && InStep(s, bodies, bytes) && Readable(s, chunk) && chunk != []
    requires bytes + chunk <= Wire(bodies) && s.waitHeader && |chunk| == 2
    requires forall b | b in bodies :: |b| <= limit
    ensures HeaderValue(chunk) <= limit
    ensures limit == CLIENT_SEND_LIMIT ==> HeaderValue(chunk) <= SERVER_BUFFER
    ensures limit == SERVER_SEND_LIMIT ==> HeaderValue(chunk) <= CLIENT_BUFFER
  {
    HeaderRead(s, bodies, bytes, chunk);
    HeaderRoundTrip(|bodies[|s.delivered|]|);
  }

  // ----- sender

  /** Encodes into a fixed buffer: two bytes are kept for the size, which is what the codec
      left of the buffer subtracted from its length. */
  method Frame(body: Bytes, buffer: array<Byte>) returns (sent: nat)
    requires |body| + 2 <= buffer.Length <= CLIENT_BUFFER
    modifies buffer
    ensures sent == |body| + 2 && buffer[..sent] == Framed(body)
  {
    for i := 0 to |body|
      modifies buffer
      invariant buffer[2..2 + i] == body[..i]
    {
      buffer[2 + i] := body[i];
    }
    var left := buffer.Length - 2 - |body|;
    var msgSize := buffer.Length - left - 2;
    buffer[0], buffer[1] := (msgSize % 0x100) as Byte, (msgSize / 0x100) as Byte;
    sent := msgSize + 2;
    assert buffer[2..2 + |body|] == body;
    assert buffer[..sent] == buffer[..2] + buffer[2..sent];
  }

  // ----- reader

  datatype ReadState = WAIT_HEADER | WAIT_REMAINING

  /** The reader of either side, with its fixed buffer. */
  class FrameReader {
    const mBuff: array<Byte>
    var mBuffIdx: U16
    var mReadState: ReadState
    var mExpectedReadSize: int
    var delivered: seq<Bytes>
    var closed: bool

    ghost predicate Valid()
      reads this, mBuff
    {
      && 2 <= mBuff.Length <= CLIENT_BUFFER
      && 0 <= mExpectedReadSize < U16_SPAN
      && (mReadState == WAIT_HEADER ==> mBuffIdx == 0)
      && mBuffIdx as int <= mBuff.Length
      && (mReadState == WAIT_REMAINING ==> mBuffIdx as int <= mExpectedReadSize <= mBuff.Length)
    }

    ghost function View(): Reading
      requires Valid()
      reads this, mBuff
    {
      Reading(mReadState == WAIT_HEADER, mExpectedReadSize, mBuff[..mBuffIdx as int], mBuff[1], delivered, closed)
    }

    constructor (size: nat)
      requires 2 <= size <= CLIENT_BUFFER
      ensures Valid() && View() == Idle(mBuff[1]) && mBuff.Length == size && fresh(mBuff)
    {
      mBuff := new Byte[size];
      mBuffIdx, mReadState, mExpectedReadSize, delivered, closed := 0, WAIT_HEADER, 0, [], false;
    }

    /** `read(fd, mBuff + mBuffIdx, n)` when it returns `chunk`. */
    method Read(chunk: Bytes)
      requires 2 <= mBuff.Length && mBuffIdx as int + |chunk| <= mBuff.Length
      modifies mBuff
      ensures var n := mBuffIdx as int;
              && mBuff[..n] == old(mBuff[..n]) && mBuff[n..n + |chunk|] == chunk
              && mBuff[1] == SecondAfter(old(mBuff[1]), n, chunk)
    {
      var start := mBuffIdx as int;
      ghost var before := mBuff[..start];
      for i := 0 to |chunk|
        invariant mBuff[..start] == before
        invariant mBuff[start..start + i] == chunk[..i]
        invariant mBuff[1] == SecondAfter(old(mBuff[1]), start, chunk[..i])
      {
        mBuff[start + i] := chunk[i];
        assert mBuff[start..start + i + 1] == mBuff[start..start + i] + [chunk[i]];
      }
      assert chunk[..|chunk|] == chunk;
    }

    /** One call of `handleRead`, when `read` returns `chunk`. The announced size must fit the
        buffer, which the sender's limit ensures. */
    method HandleRead(chunk: Bytes)
      requires Valid() && Readable(View(), chunk)
      requires mReadState == WAIT_HEADER ==> ReadStep(View(), chunk).expected <= mBuff.Length
      modifies this, mBuff
      ensures Valid() && View() == ReadStep(old(View()), chunk)
    {
      ghost var before := View();
      Read(chunk);
      if chunk == [] {
        closed := true;
        assert View() == before.(closed := true);
        return;
      }
      var size := mBuffIdx as int + |chunk|;
      assert mBuff[..size] == before.got + chunk;
      if mReadState == WAIT_HEADER {
        mExpectedReadSize := mBuff[0] as int + 0x100 * mBuff[1] as int;
        assert mBuff[0] == mBuff[..size][0];
        mBuffIdx := 0;
        mReadState := WAIT_REMAINING;
        assert View().got == [];
        return;
      }
      mBuffIdx := size as U16;
      if mExpectedReadSize == mBuffIdx as int {
        delivered := delivered + [mBuff[..mBuffIdx as int]];
        mReadState := WAIT_HEADER;
        mBuffIdx := 0;
      }
    }
  }
}
