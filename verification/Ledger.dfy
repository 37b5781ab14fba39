/** Which request of one client each message of its stream answers: a history kept beside the
    stream, and the reasons it stays sound. */
module Ledgers {
  import opened Protocol
  import opened ServerSpec
  import opened Transactions

  /** The requests a client has made, the first `arrived` of which the server has received;
      for each message of its stream the request it answers, if any; and for each call of this
      client that was forwarded, by number, the request that it was. */
  datatype Ledger = Ledger(
    asked: seq<Message>,
    arrived: nat,
    owner: seq<Option<nat>>,
    caller: map<nat, nat>)

  const BLANK_LEDGER := Ledger([], 0, [], map[])

  /** A reply carries the id of the request it answers; anything else is a notification or a
      forwarded call. */
  predicate OwnerOk(stream: seq<Packet>, l: Ledger, i: int) {
    0 <= i < |stream| && i < |l.owner| ==>
      match l.owner[i]
      case Some(k) =>
        && k < l.arrived && k < |l.asked|
        && stream[i].answers == Some(l.asked[k]) && stream[i].transactionId == IdOf(k)
      case None =>
        stream[i].answers == None && (stream[i].transactionId == NOTIFICATION || stream[i].message.RpcRequest?)
  }

  predicate OwnedOnce(l: Ledger, i: int, j: int) {
    0 <= i < j < |l.owner| ==> l.owner[i] == None || l.owner[i] != l.owner[j]
  }

  /** A forwarded call of this client, unanswered so far if the server has not seen an answer. */
  ghost predicate CallerOk(c: Conn, k: Calls, l: Ledger, n: nat) {
    n < |k.forwards| && k.forwards[n].conn == c ==>
      && n in l.caller && l.caller[n] < l.arrived && l.caller[n] < |l.asked|
      && k.forwards[n].request == l.asked[l.caller[n]] && k.forwards[n].trId == IdOf(l.caller[n])
      && (n !in k.answered ==> forall i | 0 <= i < |l.owner| :: l.owner[i] != Some(l.caller[n]))
  }

  predicate CalledOnce(l: Ledger, m: nat, n: nat) {
    m in l.caller && n in l.caller && m != n ==> l.caller[m] != l.caller[n]
  }

  ghost predicate LedgerOk(c: Conn, stream: seq<Packet>, k: Calls, l: Ledger) {
    && l.arrived <= |l.asked| && |l.owner| == |stream|
    && (forall n | n in l.caller :: n < |k.forwards| && l.caller[n] < l.arrived)
    && (forall i {:trigger OwnerOk(stream, l, i)} :: OwnerOk(stream, l, i))
    && (forall i, j {:trigger OwnedOnce(l, i, j)} :: OwnedOnce(l, i, j))
    && (forall n: nat {:trigger CallerOk(c, k, l, n)} :: CallerOk(c, k, l, n))
    && (forall m: nat, n: nat {:trigger CalledOnce(l, m, n)} :: CalledOnce(l, m, n))
  }

  function Unowned(n: nat): (owner: seq<Option<nat>>)
    ensures |owner| == n && forall i | 0 <= i < n :: owner[i] == None
  {
    seq(n, _ => None)
  }

  ghost predicate AnswerNothing(more: seq<Packet>) {
    forall i | 0 <= i < |more| ::
      more[i].answers == None && (more[i].transactionId == NOTIFICATION || more[i].message.RpcRequest?)
  }

  /** Calls forwarded for others, and answers that do not reach this client. */
  ghost predicate CallsElsewhere(c: Conn, k: Calls, k': Calls) {
    && |k.forwards| <= |k'.forwards| && k'.forwards[..|k.forwards|] == k.forwards
    && k.answered <= k'.answered
    && forall n | |k.forwards| <= n < |k'.forwards| :: k'.forwards[n].conn != c
  }

  /** Messages that answer nothing. */
  lemma LedgerUnsolicited(c: Conn, stream: seq<Packet>, k: Calls, l: Ledger, more: seq<Packet>, k': Calls)
    requires LedgerOk(c, stream, k, l) && AnswerNothing(more) && CallsElsewhere(c, k, k')
    ensures LedgerOk(c, stream + more, k', l.(owner := l.owner + Unowned(|more|)))
  {
    var l' := l.(owner := l.owner + Unowned(|more|));
    forall i ensures OwnerOk(stream + more, l', i) { assert OwnerOk(stream, l, i); }
    forall i, j ensures OwnedOnce(l', i, j) { assert OwnedOnce(l, i, j); }
    forall n: nat ensures CallerOk(c, k', l', n) {
      assert CallerOk(c, k, l, n);
      if n < |k.forwards| { assert k'.forwards[..|k.forwards|][n] == k.forwards[n]; }
    }
    forall m: nat, n: nat ensures CalledOnce(l', m, n) { assert CalledOnce(l, m, n); }
  }

  /** The server receives the next request without answering it yet. */
  lemma LedgerArrived(c: Conn, stream: seq<Packet>, k: Calls, l: Ledger)
    requires LedgerOk(c, stream, k, l) && l.arrived < |l.asked|
    ensures LedgerOk(c, stream, k, l.(arrived := l.arrived + 1))
    ensures forall i | 0 <= i < |l.owner| :: l.owner[i] != Some(l.arrived)
  {
    var l' := l.(arrived := l.arrived + 1);
    forall i ensures OwnerOk(stream, l', i) && (0 <= i < |l.owner| ==> l.owner[i] != Some(l.arrived)) {
      assert OwnerOk(stream, l, i);
    }
    forall i, j ensures OwnedOnce(l', i, j) { assert OwnedOnce(l, i, j); }
    forall n: nat ensures CallerOk(c, k, l', n) { assert CallerOk(c, k, l, n); }
    forall m: nat, n: nat ensures CalledOnce(l', m, n) { assert CalledOnce(l, m, n); }
  }

  /** A reply to a request that has arrived and not been answered. */
  lemma LedgerReplied(c: Conn, stream: seq<Packet>, k: Calls, l: Ledger, p: Packet, r: nat, k': Calls)
    requires LedgerOk(c, stream, k, l) && r < l.arrived
    requires p.answers == Some(l.asked[r]) && p.transactionId == IdOf(r)
    requires forall i | 0 <= i < |l.owner| :: l.owner[i] != Some(r)
    requires k'.forwards == k.forwards && k.answered <= k'.answered
    requires forall n | n in l.caller && l.caller[n] == r :: n in k'.answered
    ensures LedgerOk(c, stream + [p], k', l.(owner := l.owner + [Some(r)]))
  {
    var l' := l.(owner := l.owner + [Some(r)]);
    forall i ensures OwnerOk(stream + [p], l', i) { assert OwnerOk(stream, l, i); }
    forall i, j ensures OwnedOnce(l', i, j) { assert OwnedOnce(l, i, j); }
    forall n: nat ensures CallerOk(c, k', l', n) { assert CallerOk(c, k, l, n); }
    forall m: nat, n: nat ensures CalledOnce(l', m, n) { assert CalledOnce(l, m, n); }
  }

  /** The latest request to arrive is a call, and is forwarded. */
  lemma LedgerForwarded(c: Conn, stream: seq<Packet>, k: Calls, l: Ledger, f: Forward, k': Calls)
    requires LedgerOk(c, stream, k, l) && 0 < l.arrived
    requires forall i | 0 <= i < |l.owner| :: l.owner[i] != Some(l.arrived - 1)
    requires forall n | n in l.caller :: l.caller[n] < l.arrived - 1
    requires f.conn == c && f.request == l.asked[l.arrived - 1] && f.trId == IdOf(l.arrived - 1)
    requires k'.forwards == k.forwards + [f] && k'.answered == k.answered
    ensures LedgerOk(c, stream, k', l.(caller := l.caller[|k.forwards| := l.arrived - 1]))
  {
    var l' := l.(caller := l.caller[|k.forwards| := l.arrived - 1]);
    forall i ensures OwnerOk(stream, l', i) { assert OwnerOk(stream, l, i); }
    forall i, j ensures OwnedOnce(l', i, j) { assert OwnedOnce(l, i, j); }
    forall n: nat ensures CallerOk(c, k', l', n) { assert CallerOk(c, k, l, n); }
    forall m: nat, n: nat ensures CalledOnce(l', m, n) { assert CalledOnce(l, m, n); }
  }
}
