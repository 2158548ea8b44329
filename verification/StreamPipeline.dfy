/** `streamFromBackendEvents`: the pump that moves run items from the transport's event queue
    to the caller's queue, and the promise that settles with the run. */
module StreamPipeline {
  import opened Common
  import opened AsyncQueues

  datatype SourceEvent<I, R> = ItemEvent(item: I) | OtherEvent | CompletedEvent(result: R) | FailureEvent(code: string)

  datatype StreamFault = Overflow | Cancelled | IteratorClosed | Incomplete | Reported(code: string) | TransportFault(code: string)

  /** The pump awaits the source, or yields to the event loop after an item, or has ended. */
  datatype Phase = Reading | Paused | Stopped

  datatype Completion<R> = Pending | Resolved(result: R) | Rejected(fault: StreamFault)

  datatype Pipe<I, R> = Pipe(
    source: Queue<SourceEvent<I, R>, StreamFault>, out: Queue<I, StreamFault>,
    phase: Phase, returnRequested: bool, sourceReturned: bool, completed: Completion<R>)

  /** The bounds of the two queues and the encoded sizes of what they hold. */
  datatype Setup<!I, !R> = Setup(
    sourceBounds: Bounds, eventSize: SourceEvent<I, R> -> Option<nat>, outBounds: Bounds, itemSize: I -> Option<nat>)

  const PUMP: ConsumerId := 0

  function NewPipe<I, R>(): Pipe<I, R> {
    Pipe(Empty(), Empty(), Reading, false, false, Pending)
  }

  // ---------- cancellation and failure ----------

  function Reject<R>(c: Completion<R>, f: StreamFault): Completion<R> {
    if c.Pending? then Rejected(f) else c
  }

  /** `return` on the source: its callback cancels the transport route, which fails the queue. */
  function ReturnedSource<I, R>(p: Pipe<I, R>): Pipe<I, R> {
    if p.sourceReturned then p
    else p.(sourceReturned := true, source := Returned(FailedWith(p.source, IteratorClosed)))
  }

  function TransportCancelled<I, R>(p: Pipe<I, R>): Pipe<I, R> {
    if p.returnRequested then p
    else ReturnedSource(p.(returnRequested := true, source := FailedWith(p.source, Cancelled)))
  }

  function ConsumerCancelled<I, R>(p: Pipe<I, R>): Pipe<I, R> {
    if p.returnRequested then p else TransportCancelled(p.(completed := Reject(p.completed, Cancelled)))
  }

  /** The `catch` of the pump. */
  function StoppedWith<I, R>(p: Pipe<I, R>, f: StreamFault): Pipe<I, R> {
    var t := ReturnedSource(p);
    t.(out := FailedWith(t.out, f), completed := Reject(t.completed, f), phase := Stopped)
  }

  // ---------- the steps ----------

  function ItemTaken<I, R>(u: Setup<I, R>, p: Pipe<I, R>, item: I): Pipe<I, R> {
    var (out, ok) := Pushed(u.outBounds, u.itemSize, p.out, item);
    if ok then p.(out := out, phase := Paused) else StoppedWith(TransportCancelled(p), Overflow)
  }

  function CompletedWith<I, R>(p: Pipe<I, R>, result: R): Pipe<I, R> {
    if p.returnRequested then StoppedWith(p, Cancelled)
    else
      var completed := if p.completed.Pending? then Resolved(result) else p.completed;
      ReturnedSource(p.(completed := completed, out := Finished(p.out))).(phase := Stopped)
  }

  function EventTaken<I, R>(u: Setup<I, R>, p: Pipe<I, R>, e: SourceEvent<I, R>): Pipe<I, R> {
    match e
    case ItemEvent(item) => ItemTaken(u, p, item)
    case OtherEvent => p
    case CompletedEvent(r) => CompletedWith(p, r)
    case FailureEvent(code) => StoppedWith(p, Reported(code))
  }

  /** One pass of the pump's loop, up to its next await. */
  function Pumped<I, R>(u: Setup<I, R>, p: Pipe<I, R>): Pipe<I, R> {
    if !p.phase.Reading? || p.source.waiters != [] then p
    else
      var (source, turn) := Taken(u.eventSize, p.source, PUMP);
      var t := p.(source := source);
      match turn
      case Asleep => t
      case Ended => StoppedWith(t, Incomplete)
      case Raised(f) => StoppedWith(t, f)
      case Value(e) => EventTaken(u, t, e)
  }

  /** The pump goes on after `setImmediate`. */
  function Resumed<I, R>(p: Pipe<I, R>): Pipe<I, R> {
    if !p.phase.Paused? then p else if p.returnRequested then StoppedWith(p, Cancelled) else p.(phase := Reading)
  }

  /** The transport hands an event to the source queue. */
  function Emitted<I, R>(u: Setup<I, R>, p: Pipe<I, R>, e: SourceEvent<I, R>): Pipe<I, R> {
    var (source, ok) := Pushed(u.sourceBounds, u.eventSize, p.source, e);
    p.(source :=
      if !ok then FailedWith(source, Overflow)
      else match e
           case CompletedEvent(_) => Finished(source)
           case FailureEvent(code) => FailedWith(source, Reported(code))
           case _ => source)
  }

  function ConsumerReturned<I, R>(p: Pipe<I, R>): Pipe<I, R> {
    var t := if p.out.returned then p else ConsumerCancelled(p);
    t.(out := Returned(t.out))
  }

  datatype Step<I, R> =
    | EmitStep(event: SourceEvent<I, R>)
    | TransportFailStep(fault: StreamFault)
    | PumpStep
    | ResumeStep
    | NextStep(consumer: ConsumerId)
    | ReturnStep

  function Apply<I, R>(u: Setup<I, R>, p: Pipe<I, R>, t: Step<I, R>): Pipe<I, R> {
    match t
    case EmitStep(e) => Emitted(u, p, e)
    case TransportFailStep(f) => p.(source := FailedWith(p.source, f))
    case PumpStep => Pumped(u, p)
    case ResumeStep => Resumed(p)
    case NextStep(c) => p.(out := Taken(u.itemSize, p.out, c).0)
    case ReturnStep => ConsumerReturned(p)
  }

  function RunPipe<I, R>(u: Setup<I, R>, p: Pipe<I, R>, steps: seq<Step<I, R>>): Pipe<I, R>
    decreases |steps|
  {
    if steps == [] then p else RunPipe(u, Apply(u, p, steps[0]), steps[1..])
  }

  // ---------- what every step keeps ----------

  /** The run items among the events, in order. */
  function Items<I, R>(events: seq<SourceEvent<I, R>>): seq<I> {
    if events == [] then []
    else
      var last := events[|events| - 1];
      Items(events[..|events| - 1]) + if last.ItemEvent? then [last.item] else []
  }

  lemma ItemsAppend<I, R>(events: seq<SourceEvent<I, R>>, e: SourceEvent<I, R>)
    ensures Items(events + [e]) == Items(events) + if e.ItemEvent? then [e.item] else []
  {
    assert (events + [e])[..|events|] == events;
  }

  lemma {:induction false} ItemsPrefix<I, R>(a: seq<SourceEvent<I, R>>, b: seq<SourceEvent<I, R>>)
    requires a <= b
    ensures Items(a) <= Items(b)
    decreases |b|
  {
    if |a| < |b| {
      ItemsPrefix(a, b[..|b| - 1]);
    } else {
      assert a == b;
    }
  }

  /** Only the last accepted event can be the completion, and it ends the source. */
  ghost predicate SourceOk<I, R>(q: Queue<SourceEvent<I, R>, StreamFault>) {
    forall i | 0 <= i < |q.accepted| && q.accepted[i].CompletedEvent? :: i == |q.accepted| - 1 && (q.done || q.error.Some?)
  }

  /** The caller's queue accepted the items taken from the source; none is missing unless the
      pump stopped on an overflow. The promise follows the phase. */
  ghost predicate PumpOk<I, R>(p: Pipe<I, R>) {
    && p.out.accepted <= Items(p.source.delivered)
    && (!p.phase.Stopped? || p.completed.Resolved? ==> p.out.accepted == Items(p.source.delivered) && p.out.error.None?)
    && (!p.phase.Stopped? && p.out.done ==> p.out.returned)
    && (p.phase.Stopped? ==> (p.out.done || p.out.error.Some?) && !p.completed.Pending?)
    && (!p.phase.Stopped? ==> !p.completed.Resolved? && (p.completed.Rejected? <==> p.returnRequested))
    && (p.out.returned && !p.phase.Stopped? ==> p.returnRequested)
    && (p.completed.Resolved? ==>
          p.out.done && p.source.delivered != [] && p.source.delivered[|p.source.delivered| - 1] == CompletedEvent(p.completed.result))
  }

  ghost predicate PipeInv<I, R>(u: Setup<I, R>, p: Pipe<I, R>) {
    && QueueInv(u.sourceBounds, u.eventSize, p.source)
    && QueueInv(u.outBounds, u.itemSize, p.out)
    && SourceOk(p.source)
    && PumpOk(p)
  }

  lemma StopKeeps<I, R>(u: Setup<I, R>, p: Pipe<I, R>, f: StreamFault)
    requires QueueInv(u.sourceBounds, u.eventSize, p.source) && QueueInv(u.outBounds, u.itemSize, p.out) && SourceOk(p.source)
    requires p.out.accepted <= Items(p.source.delivered) && !p.completed.Resolved?
    ensures PipeInv(u, StoppedWith(p, f))
  {
  }

  lemma TakenEvent<I, R>(u: Setup<I, R>, q: Queue<SourceEvent<I, R>, StreamFault>)
    requires QueueInv(u.sourceBounds, u.eventSize, q) && SourceOk(q)
    ensures var (t, turn) := Taken(u.eventSize, q, PUMP);
      && QueueInv(u.sourceBounds, u.eventSize, t) && SourceOk(t)
      && t.delivered == q.delivered + (if turn.Value? then [turn.value] else [])
      && Items(t.delivered) == Items(q.delivered) + (if turn.Value? && turn.value.ItemEvent? then [turn.value.item] else [])
  {
    NextKeeps(u.sourceBounds, u.eventSize, q, PUMP);
    if q.values != [] {
      ItemsAppend(q.delivered, q.values[0]);
    } else {
      assert q.delivered + [] == q.delivered;
    }
  }

  lemma TakeItemKeeps<I, R>(u: Setup<I, R>, p: Pipe<I, R>, item: I)
    requires QueueInv(u.sourceBounds, u.eventSize, p.source) && QueueInv(u.outBounds, u.itemSize, p.out) && SourceOk(p.source)
    requires p.out.accepted + [item] == Items(p.source.delivered) && p.phase.Reading?
    requires PumpOk(p.(source := p.source.(delivered := p.source.delivered[..|p.source.delivered| - 1])))
    requires p.source.delivered != []
    ensures PipeInv(u, ItemTaken(u, p, item))
  {
    PushKeeps(u.outBounds, u.itemSize, p.out, item);
    var (out, ok) := Pushed(u.outBounds, u.itemSize, p.out, item);
    if !ok {
      assert p.out.accepted <= p.out.accepted + [item];
      StopKeeps(u, TransportCancelled(p), Overflow);
    }
  }

  lemma CompleteKeeps<I, R>(u: Setup<I, R>, p: Pipe<I, R>, t: Pipe<I, R>, r: R)
    requires PipeInv(u, p) && p.phase.Reading? && t == p.(source := t.source)
    requires QueueInv(u.sourceBounds, u.eventSize, t.source) && SourceOk(t.source)
    requires t.source.delivered == p.source.delivered + [CompletedEvent(r)] && Items(t.source.delivered) == Items(p.source.delivered)
    ensures PipeInv(u, CompletedWith(t, r))
  {
    if t.returnRequested {
      StopKeeps(u, t, Cancelled);
    }
  }

  /** The pump's turn on an event, which has just left the source. */
  lemma EventKeeps<I, R>(u: Setup<I, R>, p: Pipe<I, R>, t: Pipe<I, R>, e: SourceEvent<I, R>)
    requires PipeInv(u, p) && p.phase.Reading? && t == p.(source := t.source)
    requires QueueInv(u.sourceBounds, u.eventSize, t.source) && SourceOk(t.source)
    requires t.source.delivered == p.source.delivered + [e]
    requires Items(t.source.delivered) == Items(p.source.delivered) + if e.ItemEvent? then [e.item] else []
    ensures PipeInv(u, EventTaken(u, t, e))
  {
    hide QueueInv, SourceOk, Items, StoppedWith, ItemTaken, CompletedWith;
    match e {
      case ItemEvent(item) =>
        assert t.source.delivered[..|t.source.delivered| - 1] == p.source.delivered;
        TakeItemKeeps(u, t, item);
      case OtherEvent =>
      case CompletedEvent(r) =>
        assert Items(p.source.delivered) + [] == Items(p.source.delivered);
        CompleteKeeps(u, p, t, r);
      case FailureEvent(code) => StopKeeps(u, t, Reported(code));
    }
  }

  lemma PumpKeeps<I, R>(u: Setup<I, R>, p: Pipe<I, R>)
    requires PipeInv(u, p)
    ensures PipeInv(u, Pumped(u, p))
  {
    hide QueueInv, SourceOk, Items, StoppedWith, EventTaken, Taken;
    if p.phase.Reading? && p.source.waiters == [] {
      TakenEvent(u, p.source);
      var (source, turn) := Taken(u.eventSize, p.source, PUMP);
      var t := p.(source := source);
      assert p.source.delivered + [] == p.source.delivered;
      assert Items(p.source.delivered) + [] == Items(p.source.delivered);
      match turn
      case Asleep =>
      case Ended => StopKeeps(u, t, Incomplete);
      case Raised(f) => StopKeeps(u, t, f);
      case Value(e) => EventKeeps(u, p, t, e);
    }
  }

  lemma EmitKeeps<I, R>(u: Setup<I, R>, p: Pipe<I, R>, e: SourceEvent<I, R>)
    requires PipeInv(u, p)
    ensures PipeInv(u, Emitted(u, p, e))
  {
    hide Items;
    PushKeeps(u.sourceBounds, u.eventSize, p.source, e);
  }

  lemma FailKeeps<I, R>(u: Setup<I, R>, p: Pipe<I, R>, f: StreamFault)
    requires PipeInv(u, p)
    ensures PipeInv(u, p.(source := FailedWith(p.source, f)))
  {
  }

  lemma ResumeKeeps<I, R>(u: Setup<I, R>, p: Pipe<I, R>)
    requires PipeInv(u, p)
    ensures PipeInv(u, Resumed(p))
  {
    hide QueueInv;
    if p.phase.Paused? && p.returnRequested {
      StopKeeps(u, p, Cancelled);
    }
  }

  lemma ConsumerNextKeeps<I, R>(u: Setup<I, R>, p: Pipe<I, R>, c: ConsumerId)
    requires PipeInv(u, p)
    ensures PipeInv(u, p.(out := Taken(u.itemSize, p.out, c).0))
  {
    hide QueueInv, SourceOk;
    NextKeeps(u.outBounds, u.itemSize, p.out, c);
  }

  lemma ConsumerReturnKeeps<I, R>(u: Setup<I, R>, p: Pipe<I, R>)
    requires PipeInv(u, p)
    ensures PipeInv(u, ConsumerReturned(p))
  {
  }

  lemma ApplyKeeps<I, R>(u: Setup<I, R>, p: Pipe<I, R>, t: Step<I, R>)
    requires PipeInv(u, p)
    ensures PipeInv(u, Apply(u, p, t))
  {
    hide PipeInv, Emitted, Pumped, Resumed, ConsumerReturned, Taken, FailedWith;
    match t
    case EmitStep(e) => EmitKeeps(u, p, e);
    case TransportFailStep(f) => FailKeeps(u, p, f);
    case PumpStep => PumpKeeps(u, p);
    case ResumeStep => ResumeKeeps(u, p);
    case NextStep(c) => ConsumerNextKeeps(u, p, c);
    case ReturnStep => ConsumerReturnKeeps(u, p);
  }

  lemma {:induction false} RunKeepsPipe<I, R>(u: Setup<I, R>, p: Pipe<I, R>, steps: seq<Step<I, R>>)
    requires PipeInv(u, p)
    ensures PipeInv(u, RunPipe(u, p, steps))
    decreases |steps|
  {
    hide Apply, PipeInv;
    if steps != [] {
      ApplyKeeps(u, p, steps[0]);
      RunKeepsPipe(u, Apply(u, p, steps[0]), steps[1..]);
    }
  }

  // ---------- what the caller sees ----------

  /** Through both queues the caller receives a prefix, in order, of the run items emitted. */
  lemma CallerSeesPrefix<I, R>(u: Setup<I, R>, steps: seq<Step<I, R>>)
    ensures var p := RunPipe(u, NewPipe<I, R>(), steps); p.out.delivered <= Items(p.source.accepted)
  {
    hide RunPipe;
    assert PipeInv(u, NewPipe<I, R>());
    RunKeepsPipe(u, NewPipe<I, R>(), steps);
    var p := RunPipe(u, NewPipe<I, R>(), steps);
    assert p.source.delivered <= p.source.delivered + p.source.values <= p.source.accepted;
    ItemsPrefix(p.source.delivered, p.source.accepted);
    assert p.out.delivered <= p.out.delivered + p.out.values <= p.out.accepted;
  }

  /** Once `completed` has resolved, a caller that did not return and has drained its queue has
      every run item, and the result is that of the event which ended the stream. */
  lemma ResolvedDeliversAll<I, R>(u: Setup<I, R>, steps: seq<Step<I, R>>)
    ensures var p := RunPipe(u, NewPipe<I, R>(), steps);
      p.completed.Resolved? ==>
        && p.source.accepted != [] && p.source.accepted[|p.source.accepted| - 1] == CompletedEvent(p.completed.result)
        && (!p.out.returned && p.out.values == [] ==> p.out.delivered == Items(p.source.accepted))
  {
    hide RunPipe;
    assert PipeInv(u, NewPipe<I, R>());
    RunKeepsPipe(u, NewPipe<I, R>(), steps);
    var p := RunPipe(u, NewPipe<I, R>(), steps);
    var d := p.source.delivered;
    if p.completed.Resolved? {
      assert d <= d + p.source.values <= p.source.accepted;
      assert p.source.accepted[|d| - 1] == d[|d| - 1];
      assert d == p.source.accepted;
    }
  }

  /** Nobody sleeps in vain: a sleeping caller has nothing to be given and the pump has not
      stopped; a sleeping pump has nothing to read; and the promise is unsettled only while the
      pump is at work. */
  lemma NobodyIsStranded<I, R>(u: Setup<I, R>, steps: seq<Step<I, R>>)
    ensures var p := RunPipe(u, NewPipe<I, R>(), steps);
      && (p.out.waiters != [] ==> !Deliverable(p.out) && !p.phase.Stopped?)
      && (p.source.waiters != [] ==> !Deliverable(p.source))
      && (p.completed.Pending? <==> !p.phase.Stopped? && !p.returnRequested)
  {
    hide RunPipe;
    assert PipeInv(u, NewPipe<I, R>());
    RunKeepsPipe(u, NewPipe<I, R>(), steps);
  }

  // ---------- the pump gets on ----------

  lemma {:induction false} RunAppend<I, R>(u: Setup<I, R>, p: Pipe<I, R>, a: seq<Step<I, R>>, b: seq<Step<I, R>>)
    ensures RunPipe(u, p, a + b) == RunPipe(u, RunPipe(u, p, a), b)
    decreases |a|
  {
    hide Apply;
    if a == [] {
      assert a + b == b;
    } else {
      assert (a + b)[1..] == a[1..] + b;
      RunAppend(u, Apply(u, p, a[0]), a[1..], b);
    }
  }

  lemma RunOne<I, R>(u: Setup<I, R>, p: Pipe<I, R>, t: Step<I, R>)
    ensures RunPipe(u, p, [t]) == Apply(u, p, t)
  {
    hide Apply;
  }

  lemma NewPipeOk<I, R>(u: Setup<I, R>)
    ensures PipeInv(u, NewPipe<I, R>())
  {
  }

  /** The events that the pump has not read. */
  function Unread<I, R>(p: Pipe<I, R>): seq<SourceEvent<I, R>>
    requires |p.source.delivered| <= |p.source.accepted|
  {
    p.source.accepted[|p.source.delivered|..]
  }

  /** A pass of the reading pump on a live source takes the next event: an item goes to the caller's
      queue, or stops the stream as an overflow; the completion resolves the promise, unless the stream
      was cancelled; a failure rejects it with its code. A source that has failed or ended stops it. */
  lemma PumpMoves<I, R>(u: Setup<I, R>, steps: seq<Step<I, R>>)
    ensures var p := RunPipe(u, NewPipe<I, R>(), steps); var t := Apply(u, p, PumpStep);
      && |p.source.delivered| <= |p.source.accepted|
      && (p.phase.Reading? && p.source.waiters == [] && p.source.error.None? && !p.source.returned && Unread(p) != [] ==>
            var e := Unread(p)[0];
            && t.source.delivered == p.source.delivered + [e]
            && (e.ItemEvent? && Pushed(u.outBounds, u.itemSize, p.out, e.item).1 ==>
                  t.out.accepted == p.out.accepted + [e.item] && t.phase == Paused && t.completed == p.completed)
            && (e.ItemEvent? && !Pushed(u.outBounds, u.itemSize, p.out, e.item).1 ==>
                  t.phase == Stopped && t.completed == Reject(p.completed, Overflow) && t.out.accepted == p.out.accepted)
            && (e.OtherEvent? ==> t == p.(source := t.source))
            && (e.CompletedEvent? && !p.returnRequested ==>
                  t.phase == Stopped && t.completed == Resolved(e.result) && t.out.done && t.out.error.None? && t.out.accepted == p.out.accepted)
            && (e.CompletedEvent? && p.returnRequested ==> t.phase == Stopped && t.completed == p.completed)
            && (e.FailureEvent? ==> t.phase == Stopped && t.completed == Reject(p.completed, Reported(e.code))))
      && (p.phase.Reading? && p.source.waiters == [] && p.source.values == [] && p.source.error.Some? ==>
            t.phase == Stopped && t.completed == Reject(p.completed, p.source.error.value))
      && (p.phase.Reading? && p.source.waiters == [] && p.source.values == [] && p.source.error.None? && p.source.done ==>
            t.phase == Stopped && t.completed == Reject(p.completed, Incomplete))
      && (p.phase.Reading? && p.source.waiters == [] && !Deliverable(p.source) ==>
            t == p.(source := p.source.(waiters := [PUMP])))
  {
    hide RunPipe, Items, Total, SourceOk;
    NewPipeOk(u);
    RunKeepsPipe(u, NewPipe<I, R>(), steps);
    var p := RunPipe(u, NewPipe<I, R>(), steps);
    assert p.source.error.None? && !p.source.returned ==> Unread(p) == p.source.values;
  }

  /** After the yield the pump reads on, unless the stream was cancelled meanwhile. */
  lemma ResumeMoves<I, R>(u: Setup<I, R>, p: Pipe<I, R>)
    requires p.phase.Paused?
    ensures var t := Apply(u, p, ResumeStep);
      && (!p.returnRequested ==> t == p.(phase := Reading))
      && (p.returnRequested ==> t.phase == Stopped && t.completed == Reject(p.completed, Cancelled))
  {
  }

  /** An event of a live stream is queued behind the others; one that does not fit fails the source as
      an overflow. The completion ends the source and a failure fails it with its code. */
  lemma EmitMoves<I, R>(u: Setup<I, R>, p: Pipe<I, R>, e: SourceEvent<I, R>)
    requires !p.source.done && p.source.error.None?
    ensures var t := Apply(u, p, EmitStep(e)); var fits := Pushed(u.sourceBounds, u.eventSize, p.source, e).1;
      && t.source.waiters == []
      && (!fits ==> t.source.error == Some(Overflow) && t.source.accepted == p.source.accepted)
      && (fits ==> t.source.accepted == p.source.accepted + [e])
      && (fits && e.CompletedEvent? ==> t.source.done && t.source.error.None?)
      && (fits && e.FailureEvent? ==> t.source.error == Some(Reported(e.code)) && t.source.values == [])
      && (fits && (e.ItemEvent? || e.OtherEvent?) ==> !t.source.done && t.source.error.None?)
  {
  }

  /** A caller that gives up the iterator for the first time cancels the stream: the promise rejects
      unless it has settled, the source is returned and nothing is held for the caller any more. */
  lemma ReturnMoves<I, R>(u: Setup<I, R>, p: Pipe<I, R>)
    requires !p.out.returned && !p.returnRequested && !p.sourceReturned
    ensures var t := Apply(u, p, ReturnStep);
      && t.returnRequested && t.sourceReturned && t.source.done && t.source.values == []
      && t.out.done && t.out.returned && t.out.values == [] && t.out.waiters == []
      && t.completed == (if p.completed.Pending? then Rejected(Cancelled) else p.completed)
  {
  }

  /** Everything the pump has still to read can be passed on, and ends with the completion. */
  ghost predicate Completes<I, R>(u: Setup<I, R>, p: Pipe<I, R>, r: R) {
    && PipeInv(u, p)
    && !p.phase.Stopped? && !p.returnRequested && p.source.error.None? && p.out.error.None? && !p.out.done
    && p.source.values != [] && p.source.values[|p.source.values| - 1] == CompletedEvent(r)
    && u.outBounds.maxValues >= 1
    && forall i | 0 <= i < |p.source.values| - 1 ::
         match p.source.values[i]
         case ItemEvent(item) => u.itemSize(item).Some? && u.itemSize(item).value <= u.outBounds.maxBytes
         case OtherEvent => true
         case _ => false
  }

  lemma {:induction false} CallerDrains<I, R>(u: Setup<I, R>, p: Pipe<I, R>, c: ConsumerId, r: R) returns (steps: seq<Step<I, R>>)
    requires Completes(u, p, r)
    ensures var t := RunPipe(u, p, steps); Completes(u, t, r) && t.out.values == [] && t.source == p.source && t.phase == p.phase
    decreases |p.out.values|
  {
    hide QueueInv, SourceOk, Items;
    if p.out.values == [] {
      steps := [];
    } else {
      ApplyKeeps(u, p, NextStep(c));
      var t := Apply(u, p, NextStep(c));
      var rest := CallerDrains(u, t, c, r);
      steps := [NextStep(c)] + rest;
      assert steps[1..] == rest;
    }
  }

  lemma ReadingPump<I, R>(u: Setup<I, R>, p: Pipe<I, R>, r: R)
    requires Completes(u, p, r) && p.phase.Reading? && p.out.values == []
    ensures var t := Apply(u, p, PumpStep);
      if |p.source.values| == 1 then t.completed == Resolved(r)
      else Completes(u, t, r) && t.source.values == p.source.values[1..]
  {
    hide SourceOk, Items;
    ApplyKeeps(u, p, PumpStep);
    assert |p.source.values| == 1 ==> p.source.values[0] == CompletedEvent(r);
    assert p.source.waiters == [];
    assert p.out.queuedBytes == 0;
  }

  /** A run that is not cancelled can always complete: as long as no item is too large for the caller's
      queue by itself, there is a way on from here, with a caller that keeps reading, after which
      `completed` has resolved with the result of the stream. */
  lemma {:induction false} StreamCanComplete<I, R>(u: Setup<I, R>, p: Pipe<I, R>, c: ConsumerId, r: R) returns (steps: seq<Step<I, R>>)
    requires Completes(u, p, r)
    ensures RunPipe(u, p, steps).completed == Resolved(r)
    decreases |p.source.values|
  {
    hide PipeInv, Apply, RunPipe;
    var drain := CallerDrains(u, p, c, r);
    var q := RunPipe(u, p, drain);
    var wake: seq<Step<I, R>> := if q.phase.Paused? then [ResumeStep] else [];
    var w := RunPipe(u, q, wake);
    Awake(u, q, r);
    ReadingPump(u, w, r);
    var t := Apply(u, w, PumpStep);
    var rest: seq<Step<I, R>> := [];
    RunNothing(u, t);
    if |w.source.values| > 1 {
      rest := StreamCanComplete(u, t, c, r);
    }
    steps := drain + (wake + ([PumpStep] + rest));
    RunAppend(u, p, drain, wake + ([PumpStep] + rest));
    RunAppend(u, q, wake, [PumpStep] + rest);
    RunAppend(u, w, [PumpStep], rest);
    RunOne(u, w, PumpStep);
  }

  lemma RunNothing<I, R>(u: Setup<I, R>, p: Pipe<I, R>)
    ensures RunPipe(u, p, []) == p
  {
  }

  lemma Awake<I, R>(u: Setup<I, R>, q: Pipe<I, R>, r: R)
    requires Completes(u, q, r) && q.out.values == []
    ensures var wake: seq<Step<I, R>> := if q.phase.Paused? then [ResumeStep] else []; var w := RunPipe(u, q, wake);
      Completes(u, w, r) && w.out.values == [] && w.phase.Reading? && w.source == q.source
  {
    hide QueueInv, SourceOk, Items, RunPipe;
    RunNothing(u, q);
    RunOne(u, q, ResumeStep);
    ApplyKeeps(u, q, ResumeStep);
  }

  // ---------- the pump over two queue objects ----------

  class BackendStream<I, R> {
    const source: AsyncQueue<SourceEvent<I, R>, StreamFault>
    const queue: AsyncQueue<I, StreamFault>
    var phase: Phase
    var returnRequested: bool
    var sourceReturned: bool
    var completed: Completion<R>

    ghost function View(): Pipe<I, R>
      reads this, source, queue
    {
      Pipe(source.View(), queue.View(), phase, returnRequested, sourceReturned, completed)
    }

    ghost function Limits(): Setup<I, R> {
      Setup(source.bounds, source.sizeOf, queue.bounds, queue.sizeOf)
    }

    ghost predicate Valid()
      reads this, source, queue
    {
      (source as object) != (queue as object) && source.Valid() && queue.Valid()
    }

    constructor (source: AsyncQueue<SourceEvent<I, R>, StreamFault>, queue: AsyncQueue<I, StreamFault>)
      requires (source as object) != (queue as object)
      requires source.Valid() && source.View() == Empty() && queue.Valid() && queue.View() == Empty()
      ensures Valid() && View() == NewPipe() && this.source == source && this.queue == queue
    {
      this.source, this.queue := source, queue;
      phase, returnRequested, sourceReturned, completed := Reading, false, false, Pending;
    }

    method RejectCompleted(f: StreamFault)
      modifies `completed
      ensures completed == Reject(old(completed), f)
    {
      if completed.Pending? {
        completed := Rejected(f);
      }
    }

    method ReturnSource()
      requires Valid()
      modifies this, source
      ensures Valid() && View() == ReturnedSource(old(View()))
    {
      hide QueueInv;
      if sourceReturned { return; }
      sourceReturned := true;
      source.Fail(IteratorClosed);
      source.Return();
    }

    method CancelTransport()
      requires Valid()
      modifies this, source
      ensures Valid() && View() == TransportCancelled(old(View()))
    {
      hide QueueInv;
      if returnRequested { return; }
      returnRequested := true;
      source.Fail(Cancelled);
      ReturnSource();
    }

    method CancelByConsumer()
      requires Valid()
      modifies this, source
      ensures Valid() && View() == ConsumerCancelled(old(View()))
    {
      hide QueueInv;
      if returnRequested { return; }
      RejectCompleted(Cancelled);
      CancelTransport();
    }

    /** The `catch` of the pump. */
    method Stop(f: StreamFault)
      requires Valid()
      modifies this, source, queue
      ensures Valid() && View() == StoppedWith(old(View()), f)
    {
      hide QueueInv;
      ReturnSource();
      queue.Fail(f);
      RejectCompleted(f);
      phase := Stopped;
    }

    method TakeItem(item: I)
      requires Valid()
      modifies this, source, queue
      ensures Valid() && View() == ItemTaken(Limits(), old(View()), item)
    {
      hide QueueInv;
      var ok := queue.Push(item);
      if ok {
        phase := Paused;
      } else {
        CancelTransport();
        Stop(Overflow);
      }
    }

    method Complete(result: R)
      requires Valid()
      modifies this, source, queue
      ensures Valid() && View() == CompletedWith(old(View()), result)
    {
      hide QueueInv;
      if returnRequested {
        Stop(Cancelled);
        return;
      }
      if completed.Pending? {
        completed := Resolved(result);
      }
      queue.Finish();
      ReturnSource();
      phase := Stopped;
    }

    /** One pass of the pump's loop. */
    method Pump()
      requires Valid()
      modifies this, source, queue
      ensures Valid() && View() == Pumped(Limits(), old(View()))
    {
      hide QueueInv, ItemTaken, CompletedWith, StoppedWith;
      if !phase.Reading? || source.waiters != [] { return; }
      var turn := source.Next(PUMP);
      match turn
      case Asleep =>
      case Ended => Stop(Incomplete);
      case Raised(f) => Stop(f);
      case Value(e) =>
        match e {
          case ItemEvent(item) => TakeItem(item);
          case OtherEvent =>
          case CompletedEvent(r) => Complete(r);
          case FailureEvent(code) => Stop(Reported(code));
        }
    }

    method Resume()
      requires Valid()
      modifies this, source, queue
      ensures Valid() && View() == Resumed(old(View()))
    {
      hide QueueInv, StoppedWith;
      if !phase.Paused? { return; }
      if returnRequested {
        Stop(Cancelled);
      } else {
        phase := Reading;
      }
    }

    /** The caller's iterator. */
    method Return()
      requires Valid()
      modifies this, source, queue
      ensures Valid() && View() == ConsumerReturned(old(View()))
    {
      hide QueueInv, ConsumerCancelled;
      if !queue.returnCalled {
        CancelByConsumer();
      }
      queue.Return();
    }

    method Next(c: ConsumerId) returns (turn: Turn<I, StreamFault>)
      requires Valid()
      modifies queue
      ensures Valid() && View() == old(View()).(out := Taken(queue.sizeOf, old(View()).out, c).0)
      ensures turn == Taken(queue.sizeOf, old(View()).out, c).1
    {
      hide QueueInv;
      turn := queue.Next(c);
    }

    /** What the transport does with an event for the stream. */
    method Emit(e: SourceEvent<I, R>)
      requires Valid()
      modifies source
      ensures Valid() && View() == Emitted(Limits(), old(View()), e)
    {
      hide QueueInv;
      var ok := source.Push(e);
      if !ok {
        source.Fail(Overflow);
        return;
      }
      match e
      case CompletedEvent(_) => source.Finish();
      case FailureEvent(code) => source.Fail(Reported(code));
      case _ =>
    }
  }
}
