/** `AsyncQueue`: a bounded, byte-charged queue with sleeping consumers, as functions on its
    state and as the class that updates its fields. */
module AsyncQueues {
  import opened Common

  type ConsumerId = nat

  datatype Bounds = Bounds(maxValues: nat, maxBytes: nat)

  /** `accepted` and `delivered` are the history of the queue. */
  datatype Queue<T, E> = Queue(
    values: seq<T>, queuedBytes: int, waiters: seq<ConsumerId>, done: bool, error: Option<E>, returned: bool,
    accepted: seq<T>, delivered: seq<T>)

  /** What a consumer's turn yields. */
  datatype Turn<T, E> = Value(value: T) | Raised(error: E) | Ended | Asleep

  function Empty<T, E>(): Queue<T, E> {
    Queue([], 0, [], false, None, false, [], [])
  }

  // ---------- the operations ----------

  /** `sizeOf` is undefined for a value that cannot be encoded. */
  function Pushed<T, E>(b: Bounds, sizeOf: T -> Option<nat>, q: Queue<T, E>, v: T): (Queue<T, E>, bool) {
    if q.done || q.error.Some? || |q.values| >= b.maxValues then (q, false)
    else
      match sizeOf(v)
      case None => (q, false)
      case Some(n) =>
        if q.queuedBytes > b.maxBytes - n then (q, false)
        else (q.(values := q.values + [v], queuedBytes := q.queuedBytes + n, waiters := [], accepted := q.accepted + [v]), true)
  }

  function Finished<T, E>(q: Queue<T, E>): Queue<T, E> {
    if q.done || q.error.Some? then q else q.(done := true, waiters := [])
  }

  function FailedWith<T, E>(q: Queue<T, E>, e: E): Queue<T, E> {
    if q.done || q.error.Some? then q else q.(values := [], queuedBytes := 0, error := Some(e), waiters := [])
  }

  /** The iterator's `return`, after its callback. */
  function Returned<T, E>(q: Queue<T, E>): Queue<T, E> {
    q.(values := [], queuedBytes := 0, done := true, returned := true, waiters := [])
  }

  function Charge<T>(sizeOf: T -> Option<nat>, v: T): nat {
    match sizeOf(v) case None => 0 case Some(n) => n
  }

  /** One pass of the loop of `nextValue`. */
  function Taken<T, E>(sizeOf: T -> Option<nat>, q: Queue<T, E>, c: ConsumerId): (Queue<T, E>, Turn<T, E>) {
    if q.values != [] then
      var left := q.queuedBytes - Charge(sizeOf, q.values[0]);
      (q.(values := q.values[1..], queuedBytes := if left < 0 then 0 else left, delivered := q.delivered + [q.values[0]]),
       Value(q.values[0]))
    else if q.error.Some? then (q, Raised(q.error.value))
    else if q.done then (q, Ended)
    else (q.(waiters := q.waiters + [c]), Asleep)
  }

  // ---------- what every operation keeps ----------

  function Total<T>(sizeOf: T -> Option<nat>, values: seq<T>): nat {
    if values == [] then 0 else Charge(sizeOf, values[0]) + Total(sizeOf, values[1..])
  }

  /** Something a consumer could be given: a value, the error or the end. */
  predicate Deliverable<T, E>(q: Queue<T, E>) {
    q.values != [] || q.error.Some? || q.done
  }

  /** The charge is exact and within both bounds; nobody sleeps while something is deliverable;
      what consumers got is a prefix of what was accepted, and what is held continues it. */
  ghost predicate QueueInv<T, E>(b: Bounds, sizeOf: T -> Option<nat>, q: Queue<T, E>) {
    && q.queuedBytes == Total(sizeOf, q.values)
    && |q.values| <= b.maxValues
    && q.queuedBytes <= b.maxBytes
    && (q.waiters != [] ==> !Deliverable(q))
    && (q.returned ==> q.done)
    && q.delivered + q.values <= q.accepted
    && (q.error.None? && !q.returned ==> q.delivered + q.values == q.accepted)
  }

  lemma {:induction false} TotalAppend<T>(sizeOf: T -> Option<nat>, values: seq<T>, v: T)
    ensures Total(sizeOf, values + [v]) == Total(sizeOf, values) + Charge(sizeOf, v)
  {
    if values == [] {
      assert values + [v] == [v];
    } else {
      assert (values + [v])[1..] == values[1..] + [v];
      TotalAppend(sizeOf, values[1..], v);
    }
  }

  lemma PushKeeps<T, E>(b: Bounds, sizeOf: T -> Option<nat>, q: Queue<T, E>, v: T)
    requires QueueInv(b, sizeOf, q)
    ensures QueueInv(b, sizeOf, Pushed(b, sizeOf, q, v).0)
  {
    TotalAppend(sizeOf, q.values, v);
    assert q.delivered + (q.values + [v]) == q.delivered + q.values + [v];
  }

  lemma NextKeeps<T, E>(b: Bounds, sizeOf: T -> Option<nat>, q: Queue<T, E>, c: ConsumerId)
    requires QueueInv(b, sizeOf, q)
    ensures QueueInv(b, sizeOf, Taken(sizeOf, q, c).0)
  {
    if q.values != [] {
      assert q.delivered + [q.values[0]] + q.values[1..] == q.delivered + q.values;
    }
  }

  // ---------- runs ----------

  datatype Op<T, E> = PushOp(value: T) | FinishOp | FailOp(error: E) | ReturnOp | NextOp(consumer: ConsumerId)

  function After<T, E>(b: Bounds, sizeOf: T -> Option<nat>, q: Queue<T, E>, op: Op<T, E>): Queue<T, E> {
    match op
    case PushOp(v) => Pushed(b, sizeOf, q, v).0
    case FinishOp => Finished(q)
    case FailOp(e) => FailedWith(q, e)
    case ReturnOp => Returned(q)
    case NextOp(c) => Taken(sizeOf, q, c).0
  }

  function Run<T, E>(b: Bounds, sizeOf: T -> Option<nat>, q: Queue<T, E>, ops: seq<Op<T, E>>): Queue<T, E>
    decreases |ops|
  {
    if ops == [] then q else Run(b, sizeOf, After(b, sizeOf, q, ops[0]), ops[1..])
  }

  /** The invariant holds after any interleaving of producers and consumers. */
  lemma {:induction false} RunKeeps<T, E>(b: Bounds, sizeOf: T -> Option<nat>, q: Queue<T, E>, ops: seq<Op<T, E>>)
    requires QueueInv(b, sizeOf, q)
    ensures QueueInv(b, sizeOf, Run(b, sizeOf, q, ops))
    decreases |ops|
  {
    if ops != [] {
      match ops[0] {
        case PushOp(v) => PushKeeps(b, sizeOf, q, v);
        case NextOp(c) => NextKeeps(b, sizeOf, q, c);
        case _ =>
      }
      RunKeeps(b, sizeOf, After(b, sizeOf, q, ops[0]), ops[1..]);
    }
  }

  /** In order and without loss, within both bounds, with nobody left asleep: what consumers
      took is a prefix of what was accepted, and all of it once the queue has been drained to
      its end by consumers that never returned. */
  lemma Conservation<T, E>(b: Bounds, sizeOf: T -> Option<nat>, ops: seq<Op<T, E>>)
    ensures var q := Run(b, sizeOf, Empty<T, E>(), ops);
      && q.delivered <= q.accepted
      && (q.error.None? && !q.returned && q.values == [] ==> q.delivered == q.accepted)
      && |q.values| <= b.maxValues && q.queuedBytes == Total(sizeOf, q.values) <= b.maxBytes
      && (q.waiters != [] ==> !Deliverable(q))
  {
    hide Run;
    RunKeeps(b, sizeOf, Empty<T, E>(), ops);
    var q := Run(b, sizeOf, Empty<T, E>(), ops);
    assert q.delivered <= q.delivered + q.values;
  }

  /** What is held is what was accepted and not yet taken. */
  function Held<T, E>(q: Queue<T, E>): seq<T>
    requires |q.delivered| <= |q.accepted|
  {
    q.accepted[|q.delivered|..]
  }

  /** In a queue that has neither ended nor failed, a value is accepted exactly when it can be encoded
      and fits both bounds beside what is held; then it is held, and nobody sleeps. Otherwise, and once
      the queue has ended or failed, a push changes nothing. */
  lemma AcceptedIff<T, E>(b: Bounds, sizeOf: T -> Option<nat>, ops: seq<Op<T, E>>, v: T)
    ensures var q := Run(b, sizeOf, Empty<T, E>(), ops); var (t, ok) := Pushed(b, sizeOf, q, v);
      && |q.delivered| <= |q.accepted|
      && (ok <==>
            && !q.done && q.error.None? && sizeOf(v).Some?
            && |Held(q)| < b.maxValues && Total(sizeOf, Held(q)) + sizeOf(v).value <= b.maxBytes)
      && (ok ==> t.accepted == q.accepted + [v] && t.delivered == q.delivered && t.waiters == [])
      && (!ok ==> t == q)
  {
    hide Run;
    RunKeeps(b, sizeOf, Empty<T, E>(), ops);
    var q := Run(b, sizeOf, Empty<T, E>(), ops);
    if !q.done && q.error.None? {
      assert q.accepted == q.delivered + q.values;
      assert Held(q) == q.values;
    }
  }

  /** A consumer's turn gives the oldest value that is held; with none held, the error, or the end; and
      it sleeps exactly if there is none of these. A queue that was returned, or has failed, holds none. */
  lemma TurnGives<T, E>(b: Bounds, sizeOf: T -> Option<nat>, ops: seq<Op<T, E>>, c: ConsumerId)
    ensures var q := Run(b, sizeOf, Empty<T, E>(), ops); var (t, turn) := Taken(sizeOf, q, c);
      && |q.delivered| <= |q.accepted|
      && (q.error.None? && !q.returned ==>
            && (Held(q) != [] ==> turn == Value(Held(q)[0]) && t.delivered == q.delivered + [Held(q)[0]])
            && (Held(q) == [] && q.done ==> turn == Ended && t == q)
            && (Held(q) == [] && !q.done ==> turn == Asleep && c in t.waiters))
      && (q.error.Some? && q.values == [] ==> turn == Raised(q.error.value) && t == q)
      && (q.error.None? && q.returned && q.values == [] ==> turn == Ended && t == q)
  {
    hide Run;
    RunKeeps(b, sizeOf, Empty<T, E>(), ops);
    var q := Run(b, sizeOf, Empty<T, E>(), ops);
    assert q.error.None? && !q.returned ==> Held(q) == q.values;
    assert (q.waiters + [c])[|q.waiters|] == c;
  }

  /** Ending a live queue keeps what is held; failing it drops that and raises the error; giving up its
      iterator drops it and ends the queue. Each wakes everyone, and a queue that has ended or failed
      does neither again. */
  lemma EndingsMove<T, E>(q: Queue<T, E>, e: E)
    ensures !q.done && q.error.None? ==>
              && Finished(q) == q.(done := true, waiters := [])
              && FailedWith(q, e).error == Some(e) && FailedWith(q, e).values == [] && FailedWith(q, e).waiters == [] && !FailedWith(q, e).done
    ensures q.done || q.error.Some? ==> Finished(q) == q && FailedWith(q, e) == q
    ensures Returned(q).done && Returned(q).returned && Returned(q).values == [] && Returned(q).waiters == []
    ensures Finished(q).accepted == FailedWith(q, e).accepted == Returned(q).accepted == q.accepted
    ensures Finished(q).delivered == FailedWith(q, e).delivered == Returned(q).delivered == q.delivered
  {
  }

  // ---------- the class ----------

  class AsyncQueue<T, E> {
    const bounds: Bounds
    const sizeOf: T -> Option<nat>

    var values: seq<T>
    var queuedBytes: int
    var waiters: seq<ConsumerId>
    var done: bool
    var error: Option<E>
    var returnCalled: bool
    ghost var accepted: seq<T>
    ghost var delivered: seq<T>

    ghost function View(): Queue<T, E>
      reads this
    {
      Queue(values, queuedBytes, waiters, done, error, returnCalled, accepted, delivered)
    }

    ghost predicate Valid()
      reads this
    {
      QueueInv(bounds, sizeOf, View())
    }

    constructor (bounds: Bounds, sizeOf: T -> Option<nat>)
      ensures Valid() && View() == Empty()
      ensures this.bounds == bounds && this.sizeOf == sizeOf
    {
      this.bounds, this.sizeOf := bounds, sizeOf;
      values, queuedBytes, waiters, done, error, returnCalled := [], 0, [], false, None, false;
      accepted, delivered := [], [];
    }

    method Push(value: T) returns (ok: bool)
      requires Valid()
      modifies this
      ensures Valid() && (View(), ok) == Pushed(bounds, sizeOf, old(View()), value)
    {
      PushKeeps(bounds, sizeOf, View(), value);
      if done || error.Some? { return false; }
      if |values| >= bounds.maxValues { return false; }
      var valueBytes := sizeOf(value);
      if valueBytes.None? || queuedBytes > bounds.maxBytes - valueBytes.value { return false; }
      values := values + [value];
      queuedBytes := queuedBytes + valueBytes.value;
      accepted := accepted + [value];
      Wake();
      return true;
    }

    method Finish()
      requires Valid()
      modifies this
      ensures Valid() && View() == Finished(old(View()))
    {
      if done || error.Some? { return; }
      done := true;
      Wake();
    }

    method Fail(e: E)
      requires Valid()
      modifies this
      ensures Valid() && View() == FailedWith(old(View()), e)
    {
      if done || error.Some? { return; }
      values, queuedBytes := [], 0;
      error := Some(e);
      Wake();
    }

    /** The iterator's `return`, once its callback has run. */
    method Return()
      requires Valid()
      modifies this
      ensures Valid() && View() == Returned(old(View()))
    {
      returnCalled := true;
      values, queuedBytes := [], 0;
      done := true;
      Wake();
    }

    /** One pass of the loop of `nextValue`. */
    method Next(c: ConsumerId) returns (turn: Turn<T, E>)
      requires Valid()
      modifies this
      ensures Valid() && (View(), turn) == Taken(sizeOf, old(View()), c)
    {
      NextKeeps(bounds, sizeOf, View(), c);
      if values != [] {
        var value := values[0];
        var size := sizeOf(value);
        values := values[1..];
        var left := queuedBytes - if size.None? then 0 else size.value;
        queuedBytes := if left < 0 then 0 else left;
        delivered := delivered + [value];
        return Value(value);
      }
      if error.Some? { return Raised(error.value); }
      if done { return Ended; }
      waiters := waiters + [c];
      return Asleep;
    }

    method Wake()
      modifies `waiters
      ensures waiters == []
    {
      waiters := [];
    }
  }
}
