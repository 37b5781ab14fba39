/** What a whole run does to single vertices: lifetimes, identity, and the value a Get
    returns. */
module History {
  import opened Protocol
  import opened TreeShape
  import opened Snapshot
  import opened Replicas
  import opened ServerSpec
  import opened Runs
  import opened Emission
  import opened Refinement
  import opened ReplicaTheorems

  // ----- births and deaths

  /** How often the run announces `u` as added. */
  ghost function Births(run: Run, u: U64): nat
    requires Valid(run)
    decreases |run|
  {
    if run == [] then 0
    else
      var s, e := After(run[..|run| - 1]), run[|run| - 1];
      Births(run[..|run| - 1], u) + if Creates(s, e) && Created(s, e).uuid == u then 1 else 0
  }

  /** How often the run announces `u` as deleted. */
  ghost function Deaths(run: Run, u: U64): nat
    requires Valid(run)
    decreases |run|
  {
    if run == [] then 0
    else
      var s, e := After(run[..|run| - 1]), run[|run| - 1];
      Deaths(run[..|run| - 1], u) + if Deletes(s, e) && e.message.uuid == u then 1 else 0
  }

  /** Every uuid is added at most once and deleted at most once, after it was added; the tree
      holds exactly the root and the uuids added and not deleted. */
  lemma {:induction false} OneLifetime(run: Run, u: U64)
    requires Valid(run)
    ensures Deaths(run, u) <= Births(run, u) <= 1
    ensures u in After(run).nodes.shape <==> u == ROOT || (Births(run, u) == 1 && Deaths(run, u) == 0)
    ensures Births(run, u) == 1 <==> ROOT < u < After(run).nodes.uuidCtr as U64
    decreases |run|
  {
    hide Step, Invariant, Admissible, Insert, Remove;
    if run != [] {
      var front, e := run[..|run| - 1], run[|run| - 1];
      OneLifetime(front, u);
      NodesStep(After(front), e);
      ShapeKeys(After(front), e);
    }
  }

  /** Which uuids a step adds and removes. */
  lemma ShapeKeys(s: Server, e: Event)
    requires Invariant(s) && Admissible(s, e)
    ensures Creates(s, e) ==> Step(s, e).nodes.shape.Keys == s.nodes.shape.Keys + {s.nodes.uuidCtr as U64}
    ensures Deletes(s, e) ==> Step(s, e).nodes.shape.Keys == s.nodes.shape.Keys - {e.message.uuid}
    ensures !Creates(s, e) && !Deletes(s, e) ==> Step(s, e).nodes.shape == s.nodes.shape
    ensures forall u | u in s.nodes.shape && u in Step(s, e).nodes.shape ::
              && Step(s, e).nodes.shape[u].name == s.nodes.shape[u].name
              && Step(s, e).nodes.shape[u].parent == s.nodes.shape[u].parent
  {
    hide Step;
    NodesStep(s, e);
    if Creates(s, e) {
      assert Created(s, e).parentUuid in s.nodes.shape;
      assert Insert(s.nodes.shape, Created(s, e)).Keys == s.nodes.shape.Keys + {Created(s, e).uuid};
    } else if Deletes(s, e) {
      RemoveKeepsWellFormed(s.nodes.shape, e.message.uuid);
    }
  }

  // ----- lifetimes are intervals, nested along the tree

  lemma AllocatedUuid(s: Server, u: U64)
    requires Invariant(s)
    ensures u in s.nodes.shape ==> u < s.nodes.uuidCtr as U64
  {
  }

  /** A vertex keeps its name and parent for life, and a vertex that died stays dead. */
  lemma {:induction false} Lifetime(run: Run, i: nat, u: U64)
    requires Valid(run) && i <= |run|
    ensures Valid(run[..i])
    ensures u in After(run[..i]).nodes.shape && u in After(run).nodes.shape ==>
              && After(run).nodes.shape[u].name == After(run[..i]).nodes.shape[u].name
              && After(run).nodes.shape[u].parent == After(run[..i]).nodes.shape[u].parent
    ensures u < After(run[..i]).nodes.uuidCtr as U64 && u !in After(run[..i]).nodes.shape ==>
              u !in After(run).nodes.shape
    ensures After(run[..i]).nodes.uuidCtr <= After(run).nodes.uuidCtr
    decreases |run|
  {
    hide Step, Invariant, Admissible, Insert, Remove;
    ValidPrefix(run, i);
    AllocatedUuid(After(run[..i]), u);
    if i == |run| {
      assert run[..i] == run;
    } else {
      var front, e := run[..|run| - 1], run[|run| - 1];
      assert front[..i] == run[..i];
      Lifetime(front, i, u);
      NodesStep(After(front), e);
      ShapeKeys(After(front), e);
    }
  }

  /** The lifetime of a vertex lies within that of its parent, and no two vertices of the
      same name ever live under the same parent at once. */
  lemma LifetimesNested(run: Run, i: nat, u: U64)
    requires Valid(run) && i <= |run| && Valid(run[..i])
    requires u in After(run[..i]).nodes.shape && u != ROOT
    ensures var t, t' := After(run[..i]).nodes.shape, After(run).nodes.shape;
            && t[u].parent.Some?
            && var p := t[u].parent.value;
            && p in t && p < u
            && (u in t' ==> p in t')
            && (forall v | v in t && t[v].parent == Some(p) && t[v].name == t[u].name :: v == u)
            && (u in t' ==> forall v | v in t' && t'[v].parent == Some(p) && t'[v].name == t[u].name :: v == u)
  {
    var t, t' := After(run[..i]).nodes.shape, After(run).nodes.shape;
    Lifetime(run, i, u);
    assert ParentLinked(t, u) && ParentLinked(t', u);
    forall v | v in t && t[v].parent == t[u].parent && t[v].name == t[u].name ensures v == u {
      assert ParentLinked(t, v);
    }
    forall v | u in t' && v in t' && t'[v].parent == t[u].parent && t'[v].name == t[u].name ensures v == u {
      assert ParentLinked(t', v);
    }
  }

  /** Removal by name never unlinks a different vertex: what a `children` map loses is the
      removed uuid. This includes the replica of the client that deleted it, where the link is
      cut already. */
  lemma RemoveUnlinksOnlyIt(r0: Shape, r: Shape, t: Shape, u: U64, v: U64, n: Name)
    requires Faithful(r0, t) && (r == r0 || r == Unlink(r0, u))
    requires v in r && v != u && n in r[v].children
    ensures v in Remove(r, u)
    ensures n !in Remove(r, u)[v].children ==> r[v].children[n] == u
    ensures n in Remove(r, u)[v].children ==> Remove(r, u)[v].children[n] == r[v].children[n] != u
  {
    assert Projects(r0, t, u) && ChildLinked(r0, v, n);
  }

  // ----- a vertex's data is a register

  /** The value of the latest accepted write to `u`; empty if there was none. */
  ghost function LastWrite(run: Run, u: U64): Bytes
    requires Valid(run)
    decreases |run|
  {
    if run == [] then []
    else
      var s, e := After(run[..|run| - 1]), run[|run| - 1];
      if Writes(s, e, u) then e.message.data else LastWrite(run[..|run| - 1], u)
  }

  predicate Writes(s: Server, e: Event, u: U64) {
    && e.Receive? && e.message.SetValueRequest? && e.message.uuid == u
    && u in s.nodes.shape && !(u == ROOT && e.message.data == [9, 0, 0, 0])
  }

  /** Only a write to `u` changes the data of `u`; a fresh vertex starts empty. */
  lemma DataStep(s: Server, e: Event, u: U64)
    requires Invariant(s) && Admissible(s, e) && u in Step(s, e).nodes.shape
    ensures u in Step(s, e).nodes.data
    ensures Writes(s, e, u) ==> u in s.nodes.shape && Step(s, e).nodes.data[u] == e.message.data
    ensures !Writes(s, e, u) && u in s.nodes.shape ==>
              u in s.nodes.data && Step(s, e).nodes.data[u] == s.nodes.data[u]
    ensures u !in s.nodes.shape ==> Step(s, e).nodes.data[u] == []
  {
    hide WellFormed, TableInvariant, LinksInvariant;
    StepKeepsInvariant(s, e);
    if Creates(s, e) {
      CreateEmitsNodes(s, e);
    } else if Deletes(s, e) {
      DeleteEmitsNodes(s, e);
    } else {
      OtherData(s, e, u);
    }
  }

  lemma CreateEmitsNodes(s: Server, e: Event)
    requires Invariant(s) && Admissible(s, e) && Creates(s, e)
    ensures Step(s, e).nodes == InsertNode(s.nodes, e.message.name, e.message.parentUuid, s.table.sessionOf[e.conn])
  {
    CreateEmits(s, e, e.conn);
  }

  lemma DeleteEmitsNodes(s: Server, e: Event)
    requires Invariant(s) && Admissible(s, e) && Deletes(s, e)
    ensures Step(s, e).nodes == RemoveNode(s.nodes, e.message.uuid)
  {
    DeleteEmits(s, e, e.conn);
  }

  lemma OtherData(s: Server, e: Event, u: U64)
    requires WellFormed(s.nodes.shape) && !Creates(s, e) && !Deletes(s, e)
    ensures Writes(s, e, u) ==> Step(s, e).nodes.data == s.nodes.data[u := e.message.data]
    ensures !Writes(s, e, u) && u in s.nodes.data ==>
              u in Step(s, e).nodes.data && Step(s, e).nodes.data[u] == s.nodes.data[u]
    ensures Step(s, e).nodes.shape == s.nodes.shape
  {
    hide WellFormed, Broadcast, Query, Insert, Remove;
  }

  /** REGISTER SEMANTICS. What a Get answers in any reachable state is the latest write to
      that vertex, empty if there was none; nothing else changes it. */
  lemma {:induction false} GetReturnsLastWrite(run: Run, u: U64)
    requires Valid(run) && u in After(run).nodes.shape
    ensures u in After(run).nodes.data && After(run).nodes.data[u] == LastWrite(run, u)
    decreases |run|
  {
    hide Step, Invariant, Admissible;
    if run != [] {
      var front, e := run[..|run| - 1], run[|run| - 1];
      DataStep(After(front), e, u);
      if u in After(front).nodes.shape {
        GetReturnsLastWrite(front, u);
      } else {
        NoWriteBeforeBirth(front, u);
        NodesStep(After(front), e);
        ShapeKeys(After(front), e);
      }
    }
  }

  /** A uuid the counter has not reached yet was never written. */
  lemma {:induction false} NoWriteBeforeBirth(run: Run, u: U64)
    requires Valid(run)
    ensures u >= After(run).nodes.uuidCtr as U64 ==> LastWrite(run, u) == []
    decreases |run|
  {
    hide Step, Admissible;
    if run != [] {
      var front, e := run[..|run| - 1], run[|run| - 1];
      NoWriteBeforeBirth(front, u);
      NodesStep(After(front), e);
      assert u in After(front).nodes.shape ==> u < After(front).nodes.uuidCtr as U64;
    }
  }

  /** The answer to a Get in the state after a run. */
  lemma GetAnswer(run: Run, c: Conn, trId: U16, u: U64)
    requires Valid(run) && !After(run).stopped && c in After(run).table.connected
    ensures Stream(Step(After(run), Receive(c, trId, GetRequest(u))), c)
         == Stream(After(run), c)
          + [Packet(trId,
                    if u in After(run).nodes.shape then GetAccept(LastWrite(run, u)) else GetReject(NOT_FOUND),
                    Some(GetRequest(u)))]
  {
    if u in After(run).nodes.shape {
      GetReturnsLastWrite(run, u);
    }
  }
}
