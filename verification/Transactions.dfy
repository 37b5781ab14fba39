/** Matching responses to requests on the client: transaction ids, the table of pending
    transactions, and which request a message delivered under an id belongs to. */
module Transactions {
  import opened Protocol

  /** Ids 0 to 0xFFFE are used in turn; 0xFFFF is the id of notifications. */
  const ID_COUNT := 0xFFFF

  /** The id of the `k`-th request. */
  function IdOf(k: nat): (id: U16)
    ensures id != NOTIFICATION
  {
    (k % ID_COUNT) as U16
  }

  /** Two requests share an id exactly when they are a multiple of 65535 allocations apart; in
      any window of 65535 consecutive allocations all ids differ. */
  lemma IdsInWindow(i: nat, j: nat)
    ensures IdOf(i) == IdOf(j) <==> (i - j) % ID_COUNT == 0
    ensures i < j < i + ID_COUNT ==> IdOf(i) != IdOf(j)
  {
    SameRemainder(i, j);
  }

  lemma SameRemainder(i: nat, j: nat)
    ensures i % ID_COUNT == j % ID_COUNT <==> (i - j) % ID_COUNT == 0
  {
    assert i == ID_COUNT * (i / ID_COUNT) + i % ID_COUNT;
    assert j == ID_COUNT * (j / ID_COUNT) + j % ID_COUNT;
    assert i - j == ID_COUNT * (i / ID_COUNT - j / ID_COUNT) + (i % ID_COUNT - j % ID_COUNT);
  }

  /** An entry of the table: which request it was made for, and the response if there is one. */
  datatype Slot = Slot(owner: nat, response: Option<Message>)

  /** `issued` requests so far; `results` of those that were waited for successfully;
      `answers` delivered so far, by request; messages handed to the notification handlers. */
  datatype Desk = Desk(
    issued: nat,
    table: map<U16, Slot>,
    results: map<nat, Message>,
    answers: set<(nat, Message)>,
    dispatched: seq<Message>)

  const EMPTY_DESK := Desk(0, map[], map[], {}, [])

  /** `addTransaction`: `emplace` keeps an entry that is still there. */
  function Issue(d: Desk): Desk {
    var id := IdOf(d.issued);
    d.(issued := d.issued + 1,
       table := if id in d.table then d.table else d.table[id := Slot(d.issued, None)])
  }

  /** `handle` of a message: it satisfies the entry under its id, or goes to its handler. */
  function Deliver(d: Desk, trId: U16, m: Message): Desk {
    if trId in d.table then d.(table := d.table[trId := d.table[trId].(response := Some(m))])
    else d.(dispatched := d.dispatched + [m])
  }

  /** `waitTransaction` for request `k`: takes the response out; without one the wait times
      out, and the entry stays. */
  function Wait(d: Desk, k: nat): Desk {
    var id := IdOf(k);
    if id in d.table && d.table[id].response.Some?
    then d.(table := d.table - {id}, results := d.results[k := d.table[id].response.value])
    else d
  }

  // ----- what the server sends

  datatype Input =
    | Request
    | Answer(k: nat, message: Message)
    | Notice(message: Message)
    | Call(key: U16, message: Message)
    | Await(k: nat)

  function Respond(d: Desk, e: Input): Desk {
    match e
    case Request => Issue(d)
    case Answer(k, m) => Deliver(d, IdOf(k), m).(answers := d.answers + {(k, m)})
    case Notice(m) => Deliver(d, NOTIFICATION, m)
    case Call(key, m) => Deliver(d, key, m)
    case Await(k) => Wait(d, k)
  }

  /** A request that has been made and not been waited for successfully. */
  predicate Open(d: Desk, k: nat) {
    k < d.issued && k !in d.results
  }

  /** The window: a new request's id is not the id of an open one. */
  predicate FreshId(d: Desk) {
    IdOf(d.issued) !in d.table
  }

  /** The server answers open requests only, a forwarded call does not reuse a pending id,
      and a thread waits for its own open request. */
  predicate Fair(d: Desk, e: Input) {
    match e
    case Request => FreshId(d)
    case Answer(k, _) => Open(d, k)
    case Notice(_) => true
    case Call(key, _) => key !in d.table
    case Await(k) => Open(d, k)
  }

  ghost predicate SlotOwned(d: Desk, id: U16) {
    id in d.table ==>
      && var slot := d.table[id];
      && Open(d, slot.owner) && IdOf(slot.owner) == id
      && (slot.response.Some? ==> (slot.owner, slot.response.value) in d.answers)
  }

  ghost predicate OpenHasSlot(d: Desk, k: nat) {
    Open(d, k) ==> IdOf(k) in d.table && d.table[IdOf(k)].owner == k
  }

  ghost predicate ResultKnown(d: Desk, k: nat) {
    k in d.results ==> k < d.issued && (k, d.results[k]) in d.answers
  }

  ghost predicate Orderly(d: Desk) {
    && (forall id {:trigger SlotOwned(d, id)} :: SlotOwned(d, id))
    && (forall k {:trigger OpenHasSlot(d, k)} :: OpenHasSlot(d, k))
    && (forall k {:trigger ResultKnown(d, k)} :: ResultKnown(d, k))
  }

  /** Every fair step keeps entries and open requests in bijection. */
  lemma OrderlyStep(d: Desk, e: Input)
    requires Orderly(d) && Fair(d, e)
    ensures Orderly(Respond(d, e))
  {
    var d' := Respond(d, e);
    assert ResultKnown(d, d.issued);
    forall id ensures SlotOwned(d', id) {
      assert SlotOwned(d, id);
      if e.Await? || e.Answer? { assert OpenHasSlot(d, e.k); }
    }
    forall k ensures OpenHasSlot(d', k) && ResultKnown(d', k) {
      assert OpenHasSlot(d, k) && ResultKnown(d, k);
      if e.Await? {
        assert OpenHasSlot(d, e.k) && SlotOwned(d, IdOf(e.k));
      }
    }
  }

  /** What a fair step does. An answer satisfies the entry of its own request and no other,
      and is not dispatched; notifications and calls are dispatched and satisfy none; a
      successful wait returns an answer to the request waited for. */
  lemma MatchesOwnRequest(d: Desk, e: Input)
    requires Orderly(d) && Fair(d, e)
    ensures var d' := Respond(d, e);
            match e
            case Answer(k, m) =>
              && d'.dispatched == d.dispatched
              && IdOf(k) in d.table && d.table[IdOf(k)].owner == k
              && d'.table == d.table[IdOf(k) := Slot(k, Some(m))]
            case Notice(m) => d'.dispatched == d.dispatched + [m] && d'.table == d.table
            case Call(_, m) => d'.dispatched == d.dispatched + [m] && d'.table == d.table
            case Await(k) => k in d'.results ==> (k, d'.results[k]) in d.answers && IdOf(k) !in d'.table
            case Request => d'.table == d.table[IdOf(d.issued) := Slot(d.issued, None)]
  {
    match e
    case Answer(k, _) =>
      assert OpenHasSlot(d, k);
    case Notice(_) => assert SlotOwned(d, NOTIFICATION);
    case Await(k) =>
      assert OpenHasSlot(d, k);
      assert SlotOwned(d, IdOf(k));
    case _ =>
  }

  // ----- runs

  ghost predicate FairRun(run: seq<Input>)
    decreases |run|
  {
    run == [] || (FairRun(run[..|run| - 1]) && Fair(AfterInputs(run[..|run| - 1]), run[|run| - 1]))
  }

  function AfterInputs(run: seq<Input>): Desk
    decreases |run|
  {
    if run == [] then EMPTY_DESK else Respond(AfterInputs(run[..|run| - 1]), run[|run| - 1])
  }

  /** In every fair run, what a request returns was delivered as the answer to that request,
      and the notification handlers saw the notifications and calls, in order, and nothing
      else. */
  lemma {:induction false} ResultsAreOwnAnswers(run: seq<Input>, k: nat)
    requires FairRun(run)
    ensures Orderly(AfterInputs(run))
    ensures k in AfterInputs(run).results ==> Answer(k, AfterInputs(run).results[k]) in run
    ensures AfterInputs(run).dispatched == Unsolicited(run)
    decreases |run|
  {
    if run != [] {
      var front, e := run[..|run| - 1], run[|run| - 1];
      ResultsAreOwnAnswers(front, k);
      OrderlyStep(AfterInputs(front), e);
      MatchesOwnRequest(AfterInputs(front), e);
      if k in AfterInputs(run).results {
        assert ResultKnown(AfterInputs(run), k);
        AnswersDelivered(run, k, AfterInputs(run).results[k]);
      }
    }
  }

  lemma {:induction false} AnswersDelivered(run: seq<Input>, k: nat, m: Message)
    requires (k, m) in AfterInputs(run).answers
    ensures Answer(k, m) in run
    decreases |run|
  {
    if run != [] && run[|run| - 1] != Answer(k, m) {
      AnswersDelivered(run[..|run| - 1], k, m);
    }
  }

  function Unsolicited(run: seq<Input>): seq<Message>
    decreases |run|
  {
    if run == [] then []
    else
      var e := run[|run| - 1];
      Unsolicited(run[..|run| - 1]) + (if e.Notice? || e.Call? then [e.message] else [])
  }

  // ----- when the window is enough, and what happens outside it

  /** A new request gets an entry of its own exactly when no open request is a multiple of
      65535 allocations older; open requests among the last 65534 allocations always leave
      it one. */
  lemma FreshIdIff(d: Desk)
    requires Orderly(d)
    ensures FreshId(d) <==> forall k | Open(d, k) :: (d.issued - k) % ID_COUNT != 0
    ensures (forall k | Open(d, k) :: d.issued - k < ID_COUNT) ==> FreshId(d)
  {
    assert SlotOwned(d, IdOf(d.issued));
    forall k | Open(d, k) ensures (d.issued - k) % ID_COUNT == 0 ==> !FreshId(d)
                          ensures d.issued - k < ID_COUNT ==> IdOf(k) != IdOf(d.issued)
    {
      assert OpenHasSlot(d, k);
      IdsInWindow(d.issued, k);
      IdsInWindow(k, d.issued);
    }
    if !FreshId(d) {
      IdsInWindow(d.issued, d.table[IdOf(d.issued)].owner);
    }
  }

  /** Without a fresh id the new request joins the entry of the old one: if that one timed out
      and its answer came later, the new request returns the old answer without waiting. */
  lemma StaleAnswerReturned(d: Desk, m: Message)
    requires Orderly(d) && !FreshId(d) && d.table[IdOf(d.issued)].response == Some(m)
    ensures var d' := Wait(Issue(d), d.issued);
            && d.issued in d'.results && d'.results[d.issued] == m
            && exists k: nat :: Open(d, k) && k < d.issued && (k, m) in d.answers
  {
    assert SlotOwned(d, IdOf(d.issued));
    assert Open(d, d.table[IdOf(d.issued)].owner);
  }

  /** A forwarded call carries an id chosen by the server. It reaches the call handler exactly
      when no open request has that id; otherwise the call is taken for the request's answer. */
  lemma CallReachesHandlerIff(d: Desk, key: U16, m: Message)
    requires Orderly(d)
    ensures Deliver(d, key, m).dispatched == d.dispatched + [m] <==> forall k | Open(d, k) :: IdOf(k) != key
    ensures key in d.table ==>
              exists k: nat :: Open(d, k) && IdOf(k) == key && Deliver(d, key, m).table[key] == Slot(k, Some(m))
  {
    assert SlotOwned(d, key);
    forall k | Open(d, k) ensures IdOf(k) in d.table { assert OpenHasSlot(d, k); }
    if key in d.table {
      assert Open(d, d.table[key].owner);
    }
  }

  // ----- runs that reach the failing sides

  lemma FairAppend(run: seq<Input>, e: Input)
    requires FairRun(run) && Fair(AfterInputs(run), e)
    ensures FairRun(run + [e]) && AfterInputs(run + [e]) == Respond(AfterInputs(run), e)
  {
    assert (run + [e])[..|run + [e]| - 1] == run;
  }

  /** The first request is pending when a call arrives whose id, chosen by the server, is 0: the
      call is taken for its answer and never reaches the handler. */
  lemma CallTakenForAnswer(m: Message)
    ensures FairRun([Request])
    ensures var d := Deliver(AfterInputs([Request]), 0, m);
            d.dispatched == [] && d.table[0] == Slot(0, Some(m)) && Wait(d, 0).results[0] == m
  {
    FairAppend([], Request);
    assert [] + [Request] == [Request];
  }

  /** Request 0 times out and is answered late; requests 1 to `n` are answered in time. */
  function Busy(n: nat, late: Message, other: Message): seq<Input> {
    if n == 0 then [] + [Request] + [Answer(0, late)]
    else Busy(n - 1, late, other) + [Request] + [Answer(n, other)] + [Await(n)]
  }

  lemma BusyStart(late: Message)
    ensures FairRun([] + [Request] + [Answer(0, late)])
    ensures var d := AfterInputs([] + [Request] + [Answer(0, late)]);
            d.issued == 1 && d.table == map[0 := Slot(0, Some(late))] && d.results == map[]
  {
    assert FairRun([]) && AfterInputs([]) == EMPTY_DESK;
    hide FairRun, AfterInputs;
    FairAppend([], Request);
    FairAppend([] + [Request], Answer(0, late));
  }

  lemma {:induction false} BusyIsFair(n: nat, late: Message, other: Message)
    requires n < ID_COUNT
    ensures FairRun(Busy(n, late, other))
    ensures var d := AfterInputs(Busy(n, late, other));
            && d.issued == n + 1 && d.table == map[0 := Slot(0, Some(late))]
            && (forall k | k in d.results :: 0 < k <= n)
    decreases n
  {
    hide FairRun, AfterInputs, Fair, Respond;
    if n == 0 {
      BusyStart(late);
    } else {
      BusyIsFair(n - 1, late, other);
      BusyRound(Busy(n - 1, late, other), n, Slot(0, Some(late)), other);
    }
  }

  /** One request answered and waited for, beside the entry of request 0. */
  lemma BusyRound(run: seq<Input>, n: nat, first: Slot, other: Message)
    requires FairRun(run) && 0 < n < ID_COUNT
    requires AfterInputs(run).issued == n && AfterInputs(run).table == map[0 := first]
    requires forall k | k in AfterInputs(run).results :: k < n
    ensures FairRun(run + [Request] + [Answer(n, other)] + [Await(n)])
    ensures var d, d' := AfterInputs(run), AfterInputs(run + [Request] + [Answer(n, other)] + [Await(n)]);
            d'.issued == n + 1 && d'.table == d.table && d'.results == d.results[n := other]
  {
    hide FairRun, AfterInputs;
    IdsInWindow(0, n);
    var table := AfterInputs(run).table;
    FairAppend(run, Request);
    FairAppend(run + [Request], Answer(n, other));
    FairAppend(run + [Request] + [Answer(n, other)], Await(n));
    assert table[IdOf(n) := Slot(n, None)][IdOf(n) := Slot(n, Some(other))] - {IdOf(n)} == table;
  }

  /** A fair run at whose end the next request is given the answer to the first one. */
  lemma StaleAnswerReached(n: nat, late: Message, other: Message)
    requires n == ID_COUNT - 1
    ensures var run := Busy(n, late, other);
            && FairRun(run) && AfterInputs(run).issued == n + 1 && !FreshId(AfterInputs(run))
            && var d := Wait(Issue(AfterInputs(run)), n + 1);
               n + 1 in d.results && d.results[n + 1] == late
  {
    hide FairRun, AfterInputs, Busy;
    BusyIsFair(n, late, other);
    var run := Busy(n, late, other);
    IdsInWindow(0, n + 1);
    assert IdOf(n + 1) == IdOf(0) == 0;
    ResultsAreOwnAnswers(run, 0);
    StaleAnswerReturned(AfterInputs(run), late);
  }

  // ----- the table as the client keeps it

  /** The transaction counter and table of a client. `desk` records what they stand for. */
  class TransactionTable {
    var mTransactioIdCtr: U16
    var mTransactions: map<U16, Option<Message>>
    ghost var desk: Desk

    ghost predicate Valid()
      reads this
    {
      && mTransactioIdCtr as nat == (if desk.issued == 0 then 0 else IdOf(desk.issued - 1) as nat + 1)
      && mTransactions == (map id | id in desk.table :: desk.table[id].response)
    }

    constructor ()
      ensures Valid() && desk == EMPTY_DESK
    {
      mTransactioIdCtr, mTransactions, desk := 0, map[], EMPTY_DESK;
    }

    /** `fetch_add(1)` on the 16-bit counter. */
    method FetchAdd() returns (value: U16)
      modifies `mTransactioIdCtr
      ensures value == old(mTransactioIdCtr)
      ensures mTransactioIdCtr == if value == 0xFFFF then 0 else value + 1
    {
      value := mTransactioIdCtr;
      mTransactioIdCtr := if value == 0xFFFF then 0 else value + 1;
    }

    method AddTransaction() returns (trId: U16)
      requires Valid()
      modifies this
      ensures Valid() && desk == Issue(old(desk)) && trId == IdOf(old(desk.issued))
    {
      trId := FetchAdd();
      if trId == 0xFFFF {
        trId := FetchAdd();
      }
      NextId(desk.issued);
      if trId !in mTransactions {
        mTransactions := mTransactions[trId := None];
      }
      desk := Issue(desk);
    }

    /** `handle` of one message of the stream; `taken` if it satisfied a transaction. */
    method Handle(trId: U16, m: Message) returns (taken: bool)
      requires Valid()
      modifies `mTransactions, `desk
      ensures Valid() && desk == Deliver(old(desk), trId, m) && taken == (trId in old(desk.table))
    {
      taken := trId in mTransactions;
      if taken {
        mTransactions := mTransactions[trId := Some(m)];
      }
      desk := Deliver(desk, trId, m);
    }

    /** `waitTransaction` for request `k`, after the wait; None if it timed out. */
    method WaitTransaction(trId: U16, ghost k: nat) returns (response: Option<Message>)
      requires Valid() && trId == IdOf(k) && trId in desk.table
      modifies `mTransactions, `desk
      ensures Valid() && desk == Wait(old(desk), k)
      ensures response == old(desk.table[trId].response)
    {
      response := mTransactions[trId];
      if response.Some? {
        mTransactions := mTransactions - {trId};
      }
      desk := Wait(desk, k);
    }
  }

  /** Skipping 0xFFFF makes the counter run through the ids in turn. */
  lemma NextId(n: nat)
    ensures n > 0 ==> IdOf(n) == if IdOf(n - 1) == 0xFFFE then 0 else IdOf(n - 1) + 1
  {
    if n > 0 {
      assert n - 1 == ID_COUNT * ((n - 1) / ID_COUNT) + (n - 1) % ID_COUNT;
      if (n - 1) % ID_COUNT == ID_COUNT - 1 {
        assert n == ID_COUNT * ((n - 1) / ID_COUNT + 1);
      }
    }
  }
}
