/** One more recipient of a broadcast. */
module Broadcasts {
  import opened Protocol
  import opened ServerSpec

  function Without(targets: map<U32, Option<Conn>>, todo: set<U32>): map<U32, Option<Conn>> {
    map i | i in targets && i !in todo :: targets[i]
  }

  lemma BroadcastNone(outbox: Outbox, targets: map<U32, Option<Conn>>, p: Packet)
    requires forall i | i in targets :: targets[i] == None
    ensures Broadcast(outbox, targets, p) == outbox
  {
    forall c | c in outbox ensures Broadcast(outbox, targets, p)[c] == outbox[c] {
      assert Aimed(targets, c) == {};
    }
  }

  lemma AimedOneMore(targets: map<U32, Option<Conn>>, todo: set<U32>, i: U32, c: Conn)
    requires i in todo && i in targets
    ensures |Aimed(Without(targets, todo - {i}), c)|
         == |Aimed(Without(targets, todo), c)| + if targets[i] == Some(c) then 1 else 0
  {
    var less, more := Aimed(Without(targets, todo), c), Aimed(Without(targets, todo - {i}), c);
    if targets[i] == Some(c) {
      assert more == less + {i};
    } else {
      assert more == less;
    }
  }

  /** Sending to one more target is broadcasting to the larger set. */
  lemma BroadcastOneMore(outbox: Outbox, targets: map<U32, Option<Conn>>, todo: set<U32>, i: U32, p: Packet)
    requires i in todo && i in targets
    ensures Send(Broadcast(outbox, Without(targets, todo), p), targets[i], p)
         == Broadcast(outbox, Without(targets, todo - {i}), p)
  {
    hide Aimed, Without;
    var less, more := Without(targets, todo), Without(targets, todo - {i});
    forall c | c in outbox
      ensures Send(Broadcast(outbox, less, p), targets[i], p)[c] == Broadcast(outbox, more, p)[c]
    {
      AimedOneMore(targets, todo, i, c);
      assert Repeat(p, |Aimed(less, c)| + 1) == Repeat(p, |Aimed(less, c)|) + [p];
    }
  }
}
