/** Short runs: the premises of the theorems over runs can be met, and so can the failing side
    of those that say when the code goes wrong. */
module Examples {
  import opened Protocol
  import opened TreeShape
  import opened Snapshot
  import opened Replicas
  import opened ServerSpec
  import opened Runs
  import opened Emission
  import opened Refinement
  import opened ReplicaTheorems
  import opened Sessions
  import opened LateResponses
  import opened WalkSteps
  import opened Subscribers
  import opened Rpc
  import opened Connections
  import opened Exchanges
  import opened Transactions
  import opened EndToEnd

  const CONNECTED := Connect(1)
  const SIGNED_IN := Receive(1, 0, SigninRequest(0))
  const CREATED := Receive(1, 1, CreateRequest("a", ROOT))

  const AGAIN := Receive(1, 9, SigninRequest(0))
  const QUERIED := Receive(1, 2, TreeInfoRequest(ROOT, ".", 1))
  const DELETED := Receive(1, 3, DeleteRequest(1))
  const RECREATED := Receive(1, 4, CreateRequest("a", ROOT))

  const ACCEPTED := Packet(0, SigninAccept(0), Some(SigninRequest(0)))
  const ANSWERED := Packet(1, CreateAccept(1), Some(CreateRequest("a", ROOT)))

  /** The server once the client is signed in. */
  function Ready(): Server {
    START.(table := Table(map[0 := Some(1)], map[1 := 0], 1, {1}), outbox := map[1 := [ACCEPTED]])
  }

  lemma Connects()
    ensures Valid([CONNECTED]) && ClientRun([CONNECTED], 1) && After([CONNECTED]) == Accept(START, 1)
  {
    assert [CONNECTED][..0] == [];
    assert Valid([]) && After([]) == START && ClientRun([], 1);
  }

  lemma SigninResult()
    ensures Invariant(Accept(START, 1))
    ensures Admissible(Accept(START, 1), SIGNED_IN) && Step(Accept(START, 1), SIGNED_IN) == Ready()
  {
    StartInvariant();
    StepKeepsInvariant(START, CONNECTED);
    var s := Step(Accept(START, 1), SIGNED_IN);
    assert s.outbox.Keys == {1} && s.outbox[1] == [] + [ACCEPTED] == [ACCEPTED];
    assert s.outbox == map[1 := [ACCEPTED]];
    assert s.table.sessions == map[0 := Some(1)] && s.table.sessionOf == map[1 := 0];
    assert s.table == Ready().table;
  }

  lemma SignsIn()
    ensures Valid([CONNECTED, SIGNED_IN]) && ClientRun([CONNECTED, SIGNED_IN], 1)
    ensures After([CONNECTED, SIGNED_IN]) == Ready()
  {
    hide Step, Invariant, Admissible;
    Connects();
    SigninResult();
    assert [CONNECTED, SIGNED_IN][..1] == [CONNECTED];
  }

  lemma RootKnown()
    ensures Knows(Ready(), 1, ROOT)
  {
    hide Ready, Stream;
    ReadyStream();
    FirstPrefix(Stream(Ready(), 1));
  }

  lemma FirstPrefix(stream: seq<Packet>)
    requires stream == [ACCEPTED]
    ensures stream[..1] == stream && Replay(None, stream) == Some(INITIAL)
  {
    assert stream == [] + [ACCEPTED];
    ReplayStep(None, [], ACCEPTED);
  }

  lemma CreateResult()
    ensures Admissible(Ready(), CREATED)
    ensures var s' := Step(Ready(), CREATED);
            && Live(s', 1)
            && Stream(s', 1) == [ACCEPTED, ANSWERED, AddNotice(NamedNode("a", 1, ROOT))]
            && s'.nodes.shape.Keys == {ROOT, 1}
  {
    hide Step;
    var s := Ready();
    assert Creates(s, CREATED) && Created(s, CREATED) == NamedNode("a", 1, ROOT);
    CreateEmits(s, CREATED, 1);
    assert Aimed(s.table.sessions, 1) == {0};
    assert Repeat(AddNotice(Created(s, CREATED)), 1) == [AddNotice(Created(s, CREATED))];
    assert Step(s, CREATED).table.sessions[0] == Some(1);
  }

  /** A client connects, signs in and creates a property: it is then live, and its stream holds
      the sign-in, the answer and the announcement. */
  lemma FirstCreate()
    ensures var run := [CONNECTED, SIGNED_IN, CREATED];
            && Valid(run) && ClientRun(run, 1) && Live(After(run), 1)
            && Stream(After(run), 1) == [ACCEPTED, ANSWERED, AddNotice(NamedNode("a", 1, ROOT))]
            && After(run).nodes.shape.Keys == {ROOT, 1}
  {
    hide Step, Invariant, Admissible, Live, Stream, Knows;
    SignsIn();
    RootKnown();
    CreateResult();
    assert [CONNECTED, SIGNED_IN, CREATED][..2] == [CONNECTED, SIGNED_IN];
  }

  // ----- signing in twice

  /** A second sign-in on one connection leaves the session tables out of correspondence. */
  lemma SecondSignin()
    ensures Valid([CONNECTED, SIGNED_IN, AGAIN]) && !Inverse(After([CONNECTED, SIGNED_IN, AGAIN]).table)
  {
    SignsIn();
    var s, run := Ready(), [CONNECTED, SIGNED_IN, AGAIN];
    assert run[..2] == [CONNECTED, SIGNED_IN];
    assert Admissible(s, AGAIN);
    assert After(run).table == OpenSession(s.table, 1) by { SigninTable(s, 1, 9, AGAIN.message); }
    assert Stray(After(run).table, 1, 1);
  }

  // ----- responses applied late

  const BARE: Shape := map[ROOT := ROOT_VERTEX]
  const FIRST := NamedNode("a", 1, ROOT)
  const SECOND := NamedNode("a", 2, ROOT)

  /** What the next step of the example needs to know of a state. */
  ghost predicate At(run: Run, shape: Shape, ctr: U32) {
    && Valid(run) && ClientRun(run, 1)
    && After(run).table == Ready().table && !After(run).stopped
    && After(run).nodes.shape == shape && After(run).nodes.uuidCtr == ctr
  }

  lemma Extended(run: Run, e: Event)
    requires Valid(run) && ClientRun(run, 1)
    requires Admissible(After(run), e) && ClientEvent(After(run), e, 1)
    ensures Valid(run + [e]) && ClientRun(run + [e], 1) && After(run + [e]) == Step(After(run), e)
  {
    hide Step, Admissible, ClientEvent;
    assert (run + [e])[..|run + [e]| - 1] == run;
  }

  lemma SignedIn()
    ensures At([CONNECTED, SIGNED_IN], BARE, 1)
  {
    SignsIn();
  }

  lemma TableKept(s: Server, trId: U16, m: Message)
    requires WellFormed(s.nodes.shape) && (m.CreateRequest? || m.DeleteRequest? || m.TreeInfoRequest?)
    ensures Handle(s, 1, trId, m).table == s.table && Handle(s, 1, trId, m).stopped == s.stopped
  {
    hide WellFormed, Query, Broadcast, Insert, Remove;
  }

  /** One more request of the client at connection 1. */
  lemma NextRequest(run: Run, shape: Shape, ctr: U32, trId: U16, m: Message)
    requires At(run, shape, ctr) && ClientEvent(After(run), Receive(1, trId, m), 1)
    requires Admissible(After(run), Receive(1, trId, m))
    requires m.CreateRequest? || m.DeleteRequest? || m.TreeInfoRequest?
    ensures var s' := Step(After(run), Receive(1, trId, m));
            && WellFormed(After(run).nodes.shape)
            && Valid(run + [Receive(1, trId, m)]) && After(run + [Receive(1, trId, m)]) == s'
            && At(run + [Receive(1, trId, m)], s'.nodes.shape, s'.nodes.uuidCtr)
  {
    hide Step, Admissible, ClientEvent;
    TableKept(After(run), trId, m);
    StepReceives(After(run), Receive(1, trId, m));
    Extended(run, Receive(1, trId, m));
  }

  lemma NextCreate(run: Run, shape: Shape, ctr: U32, trId: U16)
    requires At(run, shape, ctr) && 0 < ctr < 0xFFFF && ROOT in shape && "a" !in shape[ROOT].children
    ensures At(run + [Receive(1, trId, CreateRequest("a", ROOT))],
               Insert(shape, NamedNode("a", ctr as U64, ROOT)), ctr + 1)
  {
    var s, e := After(run), Receive(1, trId, CreateRequest("a", ROOT));
    hide Step, Insert, Knows;
    RootAlwaysKnown(run);
    assert Admissible(s, e) && Creates(s, e);
    NodesStep(s, e);
    NextRequest(run, shape, ctr, trId, e.message);
  }

  lemma NextDelete(run: Run, shape: Shape, ctr: U32, trId: U16, u: U64)
    requires At(run, shape, ctr) && u in shape && u != ROOT && shape[u].children == map[]
    ensures At(run + [Receive(1, trId, DeleteRequest(u))], Remove(shape, u), ctr)
  {
    var s, e := After(run), Receive(1, trId, DeleteRequest(u));
    hide Step, Remove;
    assert Admissible(s, e) && Deletes(s, e);
    NodesStep(s, e);
    NextRequest(run, shape, ctr, trId, e.message);
  }

  lemma NextQuery(run: Run, shape: Shape, ctr: U32, trId: U16)
    requires At(run, shape, ctr)
    ensures At(run + [Receive(1, trId, TreeInfoRequest(ROOT, ".", 1))], shape, ctr)
  {
    var s, e := After(run), Receive(1, trId, TreeInfoRequest(ROOT, ".", 1));
    hide Step;
    assert Admissible(s, e) && !Creates(s, e) && !Deletes(s, e);
    NodesStep(s, e);
    NextRequest(run, shape, ctr, trId, e.message);
  }

  /** A live client's replica always has the root. */
  lemma RootAlwaysKnown(run: Run)
    requires Valid(run) && ClientRun(run, 1) && After(run).table == Ready().table
    ensures Knows(After(run), 1, ROOT)
  {
    hide Step, Invariant, Admissible, ClientEvent, Replay;
    var s := After(run);
    assert s.table.sessions[0] == Some(1);
    RunTracks(run, 1);
    assert Stream(s, 1)[..|Stream(s, 1)|] == Stream(s, 1);
  }

  lemma Shapes()
    ensures Insert(BARE, FIRST) == map[ROOT := Vertex("", None, map["a" := 1]), 1 := Vertex("a", Some(ROOT), map[])]
    ensures Remove(Insert(BARE, FIRST), 1) == BARE
    ensures Insert(BARE, SECOND) == map[ROOT := Vertex("", None, map["a" := 2]), 2 := Vertex("a", Some(ROOT), map[])]
  {
    assert map["a" := 1 as U64] - {"a"} == map[];
  }

  const LIVED := [CONNECTED, SIGNED_IN, CREATED, QUERIED]

  lemma Lived()
    ensures At(LIVED, Insert(BARE, FIRST), 2)
  {
    hide At, Insert, Remove, Ready;
    Shapes();
    SignedIn();
    NextCreate([CONNECTED, SIGNED_IN], BARE, 1, 1);
    assert [CONNECTED, SIGNED_IN] + [CREATED] == [CONNECTED, SIGNED_IN, CREATED];
    NextQuery([CONNECTED, SIGNED_IN, CREATED], Insert(BARE, FIRST), 2, 2);
    assert [CONNECTED, SIGNED_IN, CREATED] + [QUERIED] == LIVED;
  }

  lemma Died()
    ensures At(LIVED + [DELETED], BARE, 2)
  {
    hide At, Insert, Remove, Ready;
    Shapes();
    Lived();
    NextDelete(LIVED, Insert(BARE, FIRST), 2, 3, 1);
  }

  lemma Replaced()
    ensures At(LIVED + [DELETED, RECREATED], Insert(BARE, SECOND), 3)
  {
    hide At, Insert, Remove, Ready;
    Died();
    NextCreate(LIVED + [DELETED], BARE, 2, 4);
    assert LIVED + [DELETED] + [RECREATED] == LIVED + [DELETED, RECREATED];
  }

  /** The drained replica of the client after such a run. */
  lemma DrainedFaithful(run: Run, shape: Shape, ctr: U32)
    requires At(run, shape, ctr)
    ensures Replay(None, Stream(After(run), 1)).Some?
    ensures Faithful(Replay(None, Stream(After(run), 1)).value.shape, shape)
  {
    hide Step, Invariant, Admissible, ClientEvent, Replay, Faithful;
    assert After(run).table.sessions[0] == Some(1);
    RunTracks(run, 1);
  }

  /** The snapshot sent in the state `LIVED`. */
  lemma ListedThen()
    ensures WellFormed(Insert(BARE, FIRST)) && Query(Insert(BARE, FIRST), ROOT, ".", true) == Some([FIRST])
  {
    Shapes();
    var t := Insert(BARE, FIRST);
    forall u ensures ParentLinked(t, u) { }
    forall u, n ensures ChildLinked(t, u, n) { }
    SnapshotExact(t, ROOT, true);
    var list := PreOrder(t, ROOT, true);
    forall u ensures u in Uuids(list) <==> u == 1 {
      if u in t && u != ROOT { EverythingBelowRoot(t, u); }
      if Below(t, ROOT, u) { BelowIsYounger(t, ROOT, u); }
    }
    Singleton(list, FIRST);
  }

  lemma Singleton(list: seq<NamedNode>, e: NamedNode)
    requires DistinctUuids(list) && Uuids(list) == {e.uuid}
    requires forall f | f in list :: f.uuid == e.uuid ==> f == e
    ensures list == [e]
  {
    assert e.uuid in Uuids(list);
    var f :| f in list && f.uuid == e.uuid;
    forall i | 0 <= i < |list| ensures list[i].uuid == e.uuid {
      assert list[i] in list && list[i].uuid in Uuids(list);
    }
    var last := |list| - 1;
    assert list[0].uuid == list[last].uuid;
    assert last == 0;
  }

  /** A client creates a property and queries the tree; before the two waiting threads apply the
      answers, its reader has handled the announcement of the property's deletion. Either
      answer then brings the dead vertex back. */
  lemma LateAnswersRevive()
    ensures Valid(LIVED) && Valid(LIVED + [DELETED])
    ensures WellFormed(After(LIVED).nodes.shape) && Query(After(LIVED).nodes.shape, ROOT, ".", true) == Some([FIRST])
    ensures var s := After(LIVED + [DELETED]);
            && Replay(None, Stream(s, 1)).Some?
            && var r := Replay(None, Stream(s, 1)).value.shape;
            && Faithful(r, s.nodes.shape)
            && !Faithful(AcceptCreate(r, "a", ROOT, 1), s.nodes.shape)
            && !Faithful(AddNodes(r, [FIRST]), s.nodes.shape)
  {
    hide Step, Invariant, Admissible, Replay;
    Lived();
    ListedThen();
    Died();
    DrainedFaithful(LIVED + [DELETED], BARE, 2);
    var r := Replay(None, Stream(After(LIVED + [DELETED]), 1)).value.shape;
    RootAlone(r);
    WellFormedBare();
    LateCreateAccept(r, BARE, FIRST);
    assert FIRST in [FIRST] && !IsEdge(BARE, FIRST);
    LateSnapshot(r, BARE, [FIRST]);
  }

  lemma WellFormedBare()
    ensures WellFormed(BARE)
  {
    forall u ensures ParentLinked(BARE, u) { }
    forall u, n ensures ChildLinked(BARE, u, n) { }
  }

  lemma WellFormedAgain(run: Run)
    requires Valid(run)
    ensures WellFormed(After(run).nodes.shape)
  {
  }

  /** A client deletes "a"; before its waiting thread goes on, the reader has handled the
      announcement of the deletion and that of a new "a". The late erase unlinks the new one. */
  lemma LateEraseUnlinksAnother()
    ensures Valid(LIVED + [DELETED, RECREATED])
    ensures var s := After(LIVED + [DELETED, RECREATED]);
            && Replay(None, Stream(s, 1)).Some?
            && var r := Replay(None, Stream(s, 1)).value.shape;
            && Faithful(r, s.nodes.shape) && r == Insert(BARE, SECOND)
            && !Faithful(EraseChild(r, ROOT, "a"), s.nodes.shape)
  {
    hide Step, Invariant, Admissible, Replay, Faithful, Insert, ClientEvent;
    Died();
    Replaced();
    var gone, run := LIVED + [DELETED], LIVED + [DELETED, RECREATED];
    assert gone + [RECREATED] == run;
    DrainedFaithful(gone, BARE, 2);
    RootAlone(Replay(None, Stream(After(gone), 1)).value.shape);
    assert After(gone).table.sessions[0] == Some(1);
    WholeAndLive(gone, [RECREATED], 1);
    var t := Insert(BARE, SECOND);
    WellFormedAgain(run);
    Shapes();
    WellFormedIsFaithful(t);
    LateErase(t, t, ROOT, "a");
  }

  // ----- a root entered late

  const JOINED := [CONNECTED, SIGNED_IN, Connect(2), Receive(2, 0, SigninRequest(0))]

  /** The server once two clients are signed in. */
  function BothReady(): Server {
    START.(table := Table(map[0 := Some(1), 1 := Some(2)], map[1 := 0, 2 := 1], 2, {1, 2}),
           outbox := map[1 := [ACCEPTED], 2 := [ACCEPTED]])
  }

  lemma SecondConnects()
    ensures var run := [CONNECTED, SIGNED_IN, Connect(2)];
            && Valid(run) && After(run) == Accept(Ready(), 2)
            && Admissible(After(run), Receive(2, 0, SigninRequest(0)))
  {
    SignsIn();
    var run := [CONNECTED, SIGNED_IN, Connect(2)];
    assert run[..2] == [CONNECTED, SIGNED_IN];
  }

  lemma SecondSigninResult()
    requires WellFormed(Accept(Ready(), 2).nodes.shape)
    ensures Step(Accept(Ready(), 2), Receive(2, 0, SigninRequest(0))) == BothReady()
  {
    var s := Step(Accept(Ready(), 2), Receive(2, 0, SigninRequest(0)));
    assert s.outbox.Keys == {1, 2} && s.outbox[1] == [ACCEPTED] && s.outbox[2] == [] + [ACCEPTED] == [ACCEPTED];
    assert s.outbox == BothReady().outbox;
    assert s.table == BothReady().table;
  }

  lemma BothJoined()
    ensures Valid(JOINED) && After(JOINED) == BothReady()
  {
    hide Step, Invariant, Admissible;
    SecondConnects();
    WellFormedAgain([CONNECTED, SIGNED_IN, Connect(2)]);
    SecondSigninResult();
    assert JOINED[..3] == [CONNECTED, SIGNED_IN, Connect(2)];
  }

  /** Another client creates a property between a client's sign-in and the moment its
      constructor enters the root: that client's root is a ghost from then on. */
  lemma LateRootIsGhost()
    ensures var run := JOINED + [CREATED];
            && Valid(run) && Stream(After(run), 2) == [ACCEPTED, AddNotice(FIRST)]
            && After(run).nodes.shape == Insert(BARE, FIRST)
            && SeatRoot(AddNodes(map[], [FIRST]))[ROOT].name == "ghost"
            && !Faithful(SeatRoot(AddNodes(map[], [FIRST])), After(run).nodes.shape)
  {
    hide Step, Faithful, Stream, Insert, BothReady, Admissible, Invariant, SeatRoot, AddNodes;
    BothJoined();
    var run := JOINED + [CREATED];
    assert run[..|run| - 1] == JOINED;
    OtherCreates();
    WellFormedAgain(run);
    WellFormedLinked(Insert(BARE, FIRST));
    assert FIRST in [FIRST];
    assert IsEdge(Insert(BARE, FIRST), FIRST) by { Shapes(); }
    LateRootHarmlessIff(Insert(BARE, FIRST), [FIRST]);
  }

  lemma OtherCreates()
    requires Invariant(BothReady())
    ensures Admissible(BothReady(), CREATED)
    ensures Stream(Step(BothReady(), CREATED), 2) == [ACCEPTED, AddNotice(FIRST)]
    ensures Step(BothReady(), CREATED).nodes.shape == Insert(BARE, FIRST)
  {
    hide Step, Insert;
    var s := BothReady();
    assert Creates(s, CREATED) && Created(s, CREATED) == FIRST;
    CreateEmits(s, CREATED, 2);
    assert Aimed(s.table.sessions, 2) == {1};
    assert Repeat(AddNotice(FIRST), 1) == [AddNotice(FIRST)];
  }

  // ----- an answer that comes too late

  /** The call numbered `i`: the client calls its own property "a". */
  function CallAt(i: nat): Event {
    Receive(1, (i % 0xFFFF) as U16, RpcRequest(1, []))
  }

  function Calls(n: nat): Run {
    if n == 0 then [CONNECTED, SIGNED_IN, CREATED] else Calls(n - 1) + [CallAt(n - 1)]
  }

  /** What stays the same while calls are forwarded and none is answered. */
  ghost predicate Calling(s: Server, n: nat) {
    && !s.stopped && s.table == Ready().table && 1 in s.nodes.shape && 1 in s.outbox
    && 1 in s.nodes.creator && s.nodes.creator[1] == 0
    && |s.calls.forwards| == n && s.calls.answered == {}
    && forall i | 0 <= i < n :: s.calls.forwards[i].conn == 1 && s.calls.forwards[i].trId as int == i % 0xFFFF
  }

  lemma FirstCallable()
    ensures Valid([CONNECTED, SIGNED_IN, CREATED]) && Calling(After([CONNECTED, SIGNED_IN, CREATED]), 0)
  {
    hide Step, Invariant, Admissible;
    SignsIn();
    CreateResult();
    var run, s := [CONNECTED, SIGNED_IN, CREATED], Ready();
    assert run[..2] == [CONNECTED, SIGNED_IN];
    CreateFields();
  }

  lemma CreateFields()
    ensures WellFormed(Ready().nodes.shape) && Calling(Step(Ready(), CREATED), 0)
  {
    hide Step;
    var s := Ready();
    WellFormedBare();
    assert Creates(s, CREATED);
    CreateEmits(s, CREATED, 1);
    CreateSends(s, 1, 1, "a", ROOT, 1);
    StepReceives(s, CREATED);
    StillRunning(s);
  }

  lemma StillRunning(s: Server)
    requires WellFormed(s.nodes.shape)
    ensures !Step(s, CREATED).stopped <==> !s.stopped
  {
    hide WellFormed, Broadcast, Insert;
  }

  lemma CallForwarded(s: Server, n: nat)
    requires Invariant(s) && Calling(s, n)
    ensures Admissible(s, CallAt(n)) && Forwards(s, CallAt(n)) && Calling(Step(s, CallAt(n)), n + 1)
  {
    hide WellFormed, TableInvariant, LinksInvariant;
  }

  lemma {:induction false} ManyCalls(n: nat)
    ensures Valid(Calls(n)) && Calling(After(Calls(n)), n)
    decreases n
  {
    hide Step, Invariant, Admissible, Calling;
    if n == 0 {
      FirstCallable();
    } else {
      ManyCalls(n - 1);
      CallForwarded(After(Calls(n - 1)), n - 1);
      assert Calls(n)[..|Calls(n)| - 1] == Calls(n - 1);
    }
  }

  /** With 2^16 calls forwarded after it, the first call's answer is handed to the last of them:
      it comes back under transaction id 1 instead of 0, and the first call stays unanswered. */
  lemma AnswerToWrongCall(n: nat, value: Bytes)
    requires n == U16_SPAN
    ensures Valid(Calls(n + 1)) && Calling(After(Calls(n + 1)), n + 1)
    ensures WellFormed(After(Calls(n + 1)).nodes.shape)
    ensures var s, e := After(Calls(n + 1)), Receive(1, 0, RpcAccept(value));
            && Admissible(s, e)
            && s.calls.forwards[0].trId == 0 && 0 !in Step(s, e).calls.answered
            && Stream(Step(s, e), 1) == Stream(s, 1) + [Packet(1, RpcAccept(value), Some(s.calls.forwards[n].request))]
  {
    hide Step, Calls, Stream, Valid, After, WellFormed, TableInvariant, LinksInvariant;
    var run, e := Calls(n + 1), Receive(1, 0, RpcAccept(value));
    ManyCalls(n + 1);
    AnswerResolvesIffRecent(run, 0, e);
    AnswerReturnsToCaller(run, n, e, 1);
  }

  // ----- a client that reads ids and messages only

  const SIGNING: seq<Act> := [Elsewhere(CONNECTED), Ask(SigninRequest(0)), Arrive]
  const CREATING := SIGNING + [Take, Expect(0), Ask(CreateRequest("a", ROOT)), Arrive]

  /** The signed-in server, and a client that has not read yet. */
  function Asking(): World {
    World([CONNECTED, SIGNED_IN], [SigninRequest(0)], 1, Issue(EMPTY_DESK), 0, None)
  }

  lemma ActAdded(acts: seq<Act>, a: Act)
    requires Happens(1, acts) && Allowed(1, Reached(1, acts), a)
    ensures Happens(1, acts + [a]) && Reached(1, acts + [a]) == Next(1, Reached(1, acts), a)
  {
    hide Allowed, Sound;
    assert (acts + [a])[..|acts + [a]| - 1] == acts;
  }

  lemma SigningIn()
    ensures Happens(1, SIGNING) && Reached(1, SIGNING) == Asking()
  {
    hide Step, Admissible, Sound;
    assert Happens(1, []) && Reached(1, []) == DAWN;
    Connects();
    SignsIn();
    SigninResult();
    StartAdmits();
    ActAdded([], Elsewhere(CONNECTED));
    ActAdded([Elsewhere(CONNECTED)], Ask(SigninRequest(0)));
    assert [Elsewhere(CONNECTED)] + [Ask(SigninRequest(0))] == SIGNING[..2];
    ActAdded(SIGNING[..2], Arrive);
    assert SIGNING[..2] + [Arrive] == SIGNING;
  }

  lemma StartAdmits()
    ensures Admissible(START, CONNECTED)
  {
  }

  /** The sign-in is over, and the client has asked to create a property. */
  function Wishing(): World {
    World([CONNECTED, SIGNED_IN], [SigninRequest(0), CreateRequest("a", ROOT)], 1,
          Desk(2, map[1 := Slot(1, None)], map[0 := SigninAccept(0)], {(0, SigninAccept(0))}, []), 1, Some(INITIAL))
  }

  /** The client after its reader handed over the answer to the sign-in. */
  function SigninHanded(): World {
    Asking().(desk := Desk(1, map[0 := Slot(0, Some(SigninAccept(0)))], map[], {(0, SigninAccept(0))}, []),
              taken := 1, replica := Some(INITIAL))
  }

  lemma TakeSignin()
    requires Valid([CONNECTED, SIGNED_IN]) && Stream(After([CONNECTED, SIGNED_IN]), 1) == [ACCEPTED]
    ensures Allowed(1, Asking(), Take) && EndToEnd.Next(1, Asking(), Take) == SigninHanded()
  {
    hide Step, Admissible, After, Valid, Stream;
  }

  lemma FetchAndAsk()
    requires Valid([CONNECTED, SIGNED_IN])
    ensures Allowed(1, SigninHanded(), Expect(0))
    ensures var w := EndToEnd.Next(1, SigninHanded(), Expect(0));
            && Allowed(1, w, Ask(CreateRequest("a", ROOT)))
            && EndToEnd.Next(1, w, Ask(CreateRequest("a", ROOT))) == Wishing()
  {
    hide Step, Admissible, After, Valid, Stream;
    assert map[0 as U16 := Slot(0, Some(SigninAccept(0)))] - {0} == map[];
  }

  lemma SigninTaken()
    ensures var acts := SIGNING + [Take, Expect(0), Ask(CreateRequest("a", ROOT))];
            Happens(1, acts) && Reached(1, acts) == Wishing()
  {
    hide Step, Admissible, Sound, Ready, Happens, Reached, Allowed, Next, Stream, Asking, SigninHanded, Wishing;
    SigningIn();
    SignsIn();
    ReadyStream();
    TakeSignin();
    FetchAndAsk();
    ActAdded(SIGNING, Take);
    ActAdded(SIGNING + [Take], Expect(0));
    assert SIGNING + [Take] + [Expect(0)] == SIGNING + [Take, Expect(0)];
    ActAdded(SIGNING + [Take, Expect(0)], Ask(CreateRequest("a", ROOT)));
    assert SIGNING + [Take, Expect(0)] + [Ask(CreateRequest("a", ROOT))]
        == SIGNING + [Take, Expect(0), Ask(CreateRequest("a", ROOT))];
  }

  lemma ReadyStream()
    ensures Stream(Ready(), 1) == [ACCEPTED]
  {
  }

  /** The server has accepted the create. */
  function Granted(): World {
    Wishing().(run := [CONNECTED, SIGNED_IN, CREATED], arrived := 2)
  }

  lemma ArriveCreate()
    requires Valid([CONNECTED, SIGNED_IN]) && Admissible(After([CONNECTED, SIGNED_IN]), CREATED)
    ensures Allowed(1, Wishing(), Arrive) && EndToEnd.Next(1, Wishing(), Arrive) == Granted()
  {
    hide Step, Admissible, After, Valid, Stream;
    assert [CONNECTED, SIGNED_IN] + [CREATED] == [CONNECTED, SIGNED_IN, CREATED];
  }

  lemma CreateArrives()
    ensures Happens(1, CREATING) && Reached(1, CREATING) == Granted()
  {
    hide Step, Admissible, Sound, Ready, Happens, Reached, Allowed, Next, Stream, Wishing, Granted;
    SigninTaken();
    SignsIn();
    CreateResult();
    ArriveCreate();
    var acts := SIGNING + [Take, Expect(0), Ask(CreateRequest("a", ROOT))];
    ActAdded(acts, Arrive);
    assert acts + [Arrive] == CREATING;
  }

  const GROWN := Replica(map[ROOT := Vertex("", None, map["a" := 1]), 1 := Vertex("a", Some(ROOT), map[])],
                         map[ROOT := [], 1 := []])

  lemma AnswerGrows()
    ensures Apply(Some(INITIAL), ANSWERED) == Some(GROWN)
  {
    assert AcceptCreate(INITIAL.shape, "a", ROOT, 1) == GROWN.shape;
    assert Refit(INITIAL.data, GROWN.shape) == GROWN.data;
  }

  lemma NoticeRepeats()
    ensures Apply(Some(GROWN), AddNotice(FIRST)) == Some(GROWN)
  {
    var g := GROWN.shape;
    assert WithParent(g, ROOT) == g;
    assert g[1 := g[1].(name := "a", parent := Some(ROOT))] == g;
    assert map["a" := 1 as U64]["a" := 1] == map["a" := 1];
    assert g[ROOT := g[ROOT].(children := g[ROOT].children["a" := 1])] == g;
    assert AddNode(g, FIRST) == g;
    assert AddNodes(g, [FIRST]) == g;
    assert RemoveNodes(g, []) == g;
    assert Refit(GROWN.data, g) == GROWN.data;
  }

  /** The client once it has read everything. */
  function Informed(): World {
    Granted().(desk := Desk(2, map[1 := Slot(1, Some(CreateAccept(1)))], map[0 := SigninAccept(0)],
                            {(0, SigninAccept(0)), (1, CreateAccept(1))}, [AddNotice(FIRST).message]),
               taken := 3, replica := Some(GROWN))
  }

  function Halfway(): World {
    Informed().(desk := Informed().desk.(dispatched := []), taken := 2)
  }

  lemma TakeAnswer()
    requires Valid([CONNECTED, SIGNED_IN, CREATED])
    requires Stream(After([CONNECTED, SIGNED_IN, CREATED]), 1) == [ACCEPTED, ANSWERED, AddNotice(FIRST)]
    ensures Allowed(1, Granted(), Take) && EndToEnd.Next(1, Granted(), Take) == Halfway()
  {
    hide Step, Admissible, After, Valid, Stream, Apply;
    AnswerGrows();
  }

  lemma TakeNotice()
    requires Valid([CONNECTED, SIGNED_IN, CREATED])
    requires Stream(After([CONNECTED, SIGNED_IN, CREATED]), 1) == [ACCEPTED, ANSWERED, AddNotice(FIRST)]
    ensures Allowed(1, Halfway(), Take) && EndToEnd.Next(1, Halfway(), Take) == Informed()
  {
    hide Step, Admissible, After, Valid, Stream, Apply;
    NoticeRepeats();
  }

  /** The history of a client that signs in and creates a property: from the ids alone it takes
      the first two messages for the answers to its requests and the third for an announcement. */
  lemma CreateFromIds()
    ensures Happens(1, CREATING + [Take, Take]) && Reached(1, CREATING + [Take, Take]) == Informed()
  {
    hide Step, Admissible, Sound, Ready, Happens, Reached, Allowed, Next, Stream, Granted, Halfway, Informed;
    CreateArrives();
    FirstCreate();
    TakeAnswer();
    TakeNotice();
    ActAdded(CREATING, Take);
    ActAdded(CREATING + [Take], Take);
    assert CREATING + [Take] + [Take] == CREATING + [Take, Take];
  }

  // ----- hanging up

  /** A connection that signed in twice is still live when it has hung up: announcements and
      calls go on being sent to it. */
  lemma HangupLeavesStray()
    ensures Valid([CONNECTED, SIGNED_IN, AGAIN, Hangup(1)])
    ensures var s := After([CONNECTED, SIGNED_IN, AGAIN, Hangup(1)]);
            1 !in s.table.connected && Live(s, 1)
  {
    hide Step;
    SignsIn();
    SecondSignin();
    var run := [CONNECTED, SIGNED_IN, AGAIN];
    assert run[..2] == [CONNECTED, SIGNED_IN];
    TableStep(Ready(), AGAIN);
    StopsIff(Ready(), AGAIN);
    assert run + [Hangup(1)] == [CONNECTED, SIGNED_IN, AGAIN, Hangup(1)];
    assert (run + [Hangup(1)])[..3] == run;
    MayHangUp(After(run));
    HungUp(run, 1);
    HangupEnds(After(run), 1);
    assert Stray(After(run).table, 1, 1);
  }

  lemma MayHangUp(s: Server)
    requires Invariant(s) && 1 in s.table.connected && !s.stopped
    ensures Admissible(s, Hangup(1))
  {
  }
}
