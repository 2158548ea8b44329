/** No caller is lost and none settles twice, over every run of the transport. */
module TransportCallers {
  import opened Common
  import opened TransportState
  import opened TransportSteps
  import opened TransportRuns
  import opened TransportRoutes

  // ---------- one place per unsettled caller ----------

  /** In how many of the four route maps a caller sits. */
  ghost function Places(r: Routes, c: CallId): nat {
    (if exists id :: id in r.waitingRequests && r.waitingRequests[id] == c then 1 else 0)
    + (if exists id :: id in r.waitingStreams && r.waitingStreams[id] == c then 1 else 0)
    + (if exists id :: id in r.pendingResponses && r.pendingResponses[id].owner == CallerRoute(c) then 1 else 0)
    + (if exists id :: id in r.pendingStreams && r.pendingStreams[id].owner == CallerRoute(c) then 1 else 0)
  }

  predicate HeldBy(r: Routes, id: RequestId, c: CallId) {
    || (id in r.waitingRequests && r.waitingRequests[id] == c)
    || (id in r.waitingStreams && r.waitingStreams[id] == c)
    || (id in r.pendingResponses && r.pendingResponses[id].owner == CallerRoute(c))
    || (id in r.pendingStreams && r.pendingStreams[id].owner == CallerRoute(c))
  }

  /** `t` holds the callers of `s`, all settled, and no route. */
  predicate AllSettled(s: State, t: State) {
    && t.routes == NO_ROUTES
    && t.link.child.None?
    && |t.calls| == |s.calls|
    && forall c | 0 <= c < |t.calls| :: t.calls[c].stage.Settled?
  }

  lemma PlacesOfCaller(s: State, c: CallId)
    requires RoutesInv(s, None) && c < |s.calls|
    ensures Places(s.routes, c) == if s.calls[c].stage.Settled? then 0 else 1
  {
    assert CallOk(s.calls[c], c, s.routes, s.handshake, s.link.handshakeState, None);
    var id := s.calls[c].id;
    if WaitingStage(s.calls[c].stage) {
      assert InWaiting(s.routes, s.calls[c], c);
    } else if s.calls[c].stage.Issued? {
      assert InPending(s.routes, s.calls[c], c);
    }
  }

  /** Whatever happens, an accepted caller that has not settled sits in exactly one of the four
      maps, under its own id and no other, and a settled one in none. */
  lemma EveryCallerHasOnePlace(o: Options, s: State, c: CallId)
    requires Reachable(o, s) && c < |s.calls|
    ensures Places(s.routes, c) == if s.calls[c].stage.Settled? then 0 else 1
    ensures forall id | id in RouteIds(s.routes) && HeldBy(s.routes, id, c) :: id == s.calls[c].id
  {
    ReachableRoutes(o, s);
    PlacesOfCaller(s, c);
  }

  /** A teardown or a close leaves no caller unsettled and no route behind. */
  lemma TeardownSettlesEveryone(o: Options, s: State, f: Fault)
    requires Reachable(o, s)
    ensures AllSettled(s, Terminate(s, f)) && AllSettled(s, Close(s)) && Close(s).closed
  {
    ReachableRoutes(o, s);
    TerminateKeeps(s, f, None);
    TerminateKeeps(s, BackendClosed, None);
    assert Close(s) == Terminate(s, BackendClosed).(closed := true);
  }

  /** After a close every later state is closed and empty: no caller ever waits again. */
  lemma ClosedStaysEmpty(o: Options, s: State, t: State)
    requires Reachable(o, s) && s.closed && Leads(o, s, t)
    ensures t.closed && t.link.child.None? && RouteIds(t.routes) == {} && forall c | 0 <= c < |t.calls| :: t.calls[c].stage.Settled?
  {
    hide Apply;
    ReachableRoutes(o, s);
    var trace, steps :| IsRun(o, trace, steps) && trace[0] == s && trace[|steps|] == t;
    ClosedRun(o, trace, steps, |steps|);
    forall c | 0 <= c < |t.calls| ensures t.calls[c].stage.Settled? {
      assert CallOk(t.calls[c], c, t.routes, t.handshake, t.link.handshakeState, None);
    }
  }

  lemma {:induction false} ClosedRun(o: Options, trace: seq<State>, steps: seq<Step>, n: nat)
    requires IsRun(o, trace, steps) && n <= |steps| && RoutesInv(trace[0], None) && trace[0].closed
    ensures RoutesInv(trace[n], None) && trace[n].closed
  {
    hide Apply, RoutesInv;
    if n > 0 {
      ClosedRun(o, trace, steps, n - 1);
      ApplyKeeps(o, trace[n - 1], steps[n - 1]);
      ClosedIsFinal(o, trace[n - 1], steps[n - 1]);
      assert trace[n - 1 + 1] == Apply(o, trace[n - 1], steps[n - 1]);
    }
  }

  lemma ClosedIsFinal(o: Options, s: State, t: Step)
    requires RoutesInv(s, None) && s.closed
    ensures Apply(o, s, t).closed
  {
    assert s.routes.pendingResponses == map[] && s.routes.pendingStreams == map[];
    assert s.routes.waitingRequests == map[] && s.routes.waitingStreams == map[];
    match t
    case ContinueStep(c) =>
      if c < |s.calls| { assert CallOk(s.calls[c], c, s.routes, s.handshake, s.link.handshakeState, None); }
    case GrantSlotStep =>
      if s.slots.queue != [] && s.slots.queue[0] < |s.calls| {
        assert CallOk(s.calls[s.slots.queue[0]], s.slots.queue[0], s.routes, s.handshake, s.link.handshakeState, None);
      }
    case _ =>
  }

  // ---------- a settled promise stays settled ----------

  /** Caller `i` keeps its identity; an issued caller waits no more, and a settled one keeps its
      outcome. */
  ghost predicate CallKept(a: seq<Call>, b: seq<Call>, i: CallId) {
    i < |a| ==>
      && i < |b|
      && b[i].id == a[i].id && b[i].kind == a[i].kind
      && (a[i].stage.Issued? ==> Passed(b[i]))
      && (a[i].stage.Settled? ==> b[i].stage == a[i].stage)
  }

  /** Outside the chain it stays outside; at its granted head it stays there or leaves. */
  ghost predicate SlotKept(p: Slots, q: Slots, i: CallId) {
    && (i !in p.queue ==> i !in q.queue)
    && (Granted(p, i) && i !in p.queue[1..] ==> i !in q.queue || (Granted(q, i) && i !in q.queue[1..]))
  }

  ghost predicate CallerKept(s: State, t: State, i: CallId) {
    && CallKept(s.calls, t.calls, i)
    && (i < |s.calls| && Passed(s.calls[i]) ==> SlotKept(s.slots, t.slots, i))
  }

  /** A caller whose promise resolved, rather than rejected. */
  predicate Succeeded(calls: seq<Call>, i: CallId) {
    i < |calls| && calls[i].stage.Settled? && !calls[i].stage.outcome.Failed?
  }

  ghost predicate NoSuccess(a: seq<Call>, b: seq<Call>, i: CallId) {
    Succeeded(b, i) ==> Succeeded(a, i)
  }

  /** ... nothing is written to stdin, and the caller is not served. */
  ghost predicate Kept(s: State, t: State, i: CallId) {
    CallerKept(s, t, i) && t.wire.sent == s.wire.sent && NoSuccess(s.calls, t.calls, i)
  }

  /** The outcome a message brings to the owner of the route it names. */
  function Serving(m: Message, queued: bool): Option<Outcome> {
    match m
    case Response(_, reply) => Some(Answered(reply))
    case Event(_, Completed) => if queued then Some(Finished) else None
    case _ => None
  }

  /** The message brings an outcome, and the route pending under its id is the caller's. */
  predicate Serves(s: State, m: Message, queued: bool, i: CallId) {
    && Serving(m, queued).Some?
    && var r := PendingMap(s.routes, if m.Response? then Unary else Stream);
    && m.id in r && r[m.id].owner == CallerRoute(i)
  }

  /** The running child sends such a message. */
  predicate ServedBy(s: State, t: Step, i: CallId) {
    t.DeliverStep? && s.link.child == Some(t.child) && Serves(s, t.message, t.queued, i)
  }

  /** What a message leaves of caller `i`: it is served only through its own pending route. */
  ghost predicate Handled(s: State, t: State, m: Message, queued: bool, i: CallId) {
    && CallerKept(s, t, i)
    && t.wire.sent == s.wire.sent
    && (!Serves(s, m, queued, i) ==> NoSuccess(s.calls, t.calls, i))
  }

  lemma FailCallsKeepsCall(s: State, doomed: set<CallId>, f: Fault, i: CallId)
    ensures Kept(s, FailCalls(s, doomed, f), i)
  {
  }

  lemma FailAllKeepsCall(s: State, f: Fault, i: CallId)
    ensures Kept(s, FailAll(s, f), i)
    ensures Kept(s, Terminate(s, f), i)
  {
    hide FailCalls, LiveCalls, RetireWrites, SlotKept;
    FailCallsKeepsCall(s, LiveCalls(s.routes), f, i);
    if s.link.child.Some? {
      var s1 := s.(writes := RetireWrites(s.writes, s.link.child.value), link := ResetLink(s.link), wire := s.wire.(open := {}));
      FailCallsKeepsCall(s1, LiveCalls(s.routes), f, i);
    }
  }

  lemma RecycleKeepsCall(s: State, i: CallId)
    ensures Kept(s, Recycle(s), i)
    ensures Kept(s, MaybeRecycle(s), i)
  {
    FailAllKeepsCall(s.(link := s.link.(quarantined := false, quarantineTimer := false)), ProtocolQuarantined, i);
  }

  lemma ClearRouteKeepsCall(o: Options, s: State, id: RequestId, kind: Kind, tombstone: bool, i: CallId)
    requires id in PendingMap(s.routes, kind)
    ensures Kept(s, ClearRoute(o, s, id, kind, tombstone), i)
  {
    var s1 := s.(routes := ClearedRoutes(s.routes, id, kind),
                 slots := ClearedSlots(s.slots, kind, PendingMap(s.routes, kind)[id].owner));
    FailAllKeepsCall(s1, TombstoneLimit, i);
    RecycleKeepsCall(AddTombstone(o, s1, id, kind), i);
    RecycleKeepsCall(s1, i);
  }

  lemma AbortRouteKeepsCall(o: Options, s: State, id: RequestId, kind: Kind, tombstone: bool, f: Fault, i: CallId)
    ensures Kept(s, AbortRoute(o, s, id, kind, tombstone, f), i)
  {
    if id in PendingMap(s.routes, kind) {
      ClearRouteKeepsCall(o, s, id, kind, tombstone, i);
    }
  }

  lemma IssueKeepsCall(o: Options, s: State, id: RequestId, kind: Kind, route: PendingRoute, size: nat, encodable: bool, i: CallId)
    ensures Kept(s, Issue(o, s, id, kind, route, size, encodable), i)
  {
    var s1 := s.(routes := PendingRoutes(s.routes, id, kind, route));
    var f := WriteFault(o, s1, size, encodable);
    if f.Some? {
      AbortRouteKeepsCall(o, s1, id, kind, !DefinitelyUnsent(f.value), f.value, i);
    }
  }

  lemma BeginControlKeepsCall(o: Options, s: State, phase: Phase, i: CallId)
    ensures Kept(s, BeginControl(o, s, phase), i)
  {
    hide Issue, ReserveControl;
    var id := ControlId(s.nextControl);
    IssueKeepsCall(o, s.(nextControl := s.nextControl + 1, handshake := Running(phase, id), routes := ReserveControl(s.routes, id)),
               id, Unary, PendingRoute(ControlRoute, true), o.controlLineBytes, true, i);
  }

  lemma EnsureHandshakeKeepsCall(o: Options, s: State, i: CallId)
    ensures Kept(s, EnsureHandshake(o, s).0, i)
  {
    hide BeginControl, ControlFault;
    BeginControlKeepsCall(o, StartChild(s), Hello, i);
  }

  lemma NegotiateKeepsCall(s: State, h: HandshakeState, i: CallId)
    ensures Kept(s, Negotiate(s, h), i)
  {
    RecycleKeepsCall(s.(link := s.link.(handshakeState := h), handshake := Idle, calls := AwakenAll(s.calls, HandshakeDone)), i);
  }

  lemma NextProbeKeepsCall(o: Options, s: State, phase: Phase, i: CallId)
    ensures Kept(s, NextProbe(o, s, phase), i)
  {
    BeginControlKeepsCall(o, s, phase, i);
  }

  lemma AdvanceKeepsCall(o: Options, s: State, reply: Reply, i: CallId)
    ensures Kept(s, AdvanceHandshake(o, s, reply), i)
  {
    hide NextProbe, Negotiate, FailAll;
    FailAllKeepsCall(s, HelloRejected, i);
    if s.handshake.Running? {
      match s.handshake.phase
      case Hello =>
        NextProbeKeepsCall(o, s, LegacyVersion, i);
        NegotiateKeepsCall(s, if reply.Success? && reply.hello.Multiplexed? then Ready else SingleFlight, i);
      case LegacyVersion =>
        if reply.Success? {
          NextProbeKeepsCall(o, s, LegacyCapabilities(reply.legacyVersion), i);
        }
      case LegacyCapabilities(_) => NegotiateKeepsCall(s, Legacy, i);
    }
  }

  lemma SettleHandshakeKeepsCall(s: State, i: CallId)
    ensures Kept(s, SettleHandshake(s), i)
  {
    if s.handshake.Failing? {
      RecycleKeepsCall(s.(handshake := Idle, calls := AwakenAll(s.calls, HandshakeFailed(s.handshake.fault))), i);
    }
  }

  lemma IssueCallKeepsCall(o: Options, s: State, c: CallId, slot: bool, i: CallId)
    requires c < |s.calls|
    ensures Kept(s, IssueCall(o, s, c, slot), i)
  {
    var call := s.calls[c];
    var s1 := SetStage(s.(routes := ForgetWaiting(s.routes, call.id, call.kind)), c, Issued);
    IssueKeepsCall(o, s1, call.id, call.kind, PendingRoute(CallerRoute(c), slot), call.size, call.encodable, i);
  }

  lemma PromoteAndIssueKeepsCall(o: Options, s: State, c: CallId, slot: bool, i: CallId)
    requires c < |s.calls|
    ensures Kept(s, PromoteAndIssue(o, s, c, slot), i)
  {
    IssueCallKeepsCall(o, s.(routes := Promoted(s.routes, s.calls[c].id)), c, slot, i);
  }

  lemma JoinKeepsCall(o: Options, s: State, c: CallId, i: CallId)
    ensures Kept(s, JoinHandshake(o, s, c), i)
  {
    EnsureHandshakeKeepsCall(o, s, i);
  }

  lemma RequestKeepsCall(o: Options, s: State, id: RequestId, size: nat, encodable: bool, i: CallId)
    ensures Kept(s, Request(o, s, id, size, encodable), i)
  {
    var c := |s.calls|;
    JoinKeepsCall(o, s.(calls := s.calls + [Call(id, Unary, size, encodable, false, Starting)],
                    routes := s.routes.(waitingIds := s.routes.waitingIds + {id},
                                        waitingRequests := s.routes.waitingRequests[id := c])), c, i);
  }

  lemma ScheduleKeepsCall(o: Options, s: State, c: CallId, i: CallId)
    ensures Kept(s, ScheduleStream(o, s, c), i)
  {
    if c < |s.calls| {
      JoinKeepsCall(o, s.(calls := s.calls[c := s.calls[c].(unscheduled := false)]), c, i);
    }
  }

  lemma RejectWaitingKeepsCall(s: State, c: CallId, f: Fault, i: CallId)
    requires c < |s.calls|
    ensures Kept(s, RejectWaiting(s, c, f), i)
  {
    hide ForgetWaiting, ReleaseId;
  }

  lemma ContinueKeepsCall(o: Options, s: State, c: CallId, i: CallId)
    ensures Kept(s, Continue(o, s, c), i)
  {
    hide PromoteAndIssue, PromoteFault, Promoted, RejectWaiting;
    if c < |s.calls| {
      PromoteAndIssueKeepsCall(o, s, c, false, i);
      match s.calls[c].stage
      case HandshakeFailed(f) => RejectWaitingKeepsCall(s, c, f, i);
      case HandshakeDone =>
        var f := PromoteFault(o, s, s.calls[c].id);
        if f.Some? { RejectWaitingKeepsCall(s, c, f.value, i); }
      case _ =>
    }
  }

  lemma GrantSlotKeepsCall(o: Options, s: State, i: CallId)
    ensures Kept(s, GrantSlot(o, s), i)
  {
    if s.slots.queue != [] && s.slots.queue[0] < |s.calls| {
      var s1 := s.(slots := s.slots.(granted := true));
      if s.calls[s.slots.queue[0]].kind.Unary? {
        IssueCallKeepsCall(o, s1, s.slots.queue[0], true, i);
      } else {
        PromoteAndIssueKeepsCall(o, s1, s.slots.queue[0], true, i);
      }
    }
  }

  lemma TurnKeepsCall(o: Options, s: State, retired: bool, i: CallId)
    ensures CallerKept(s, TurnWrite(o, s, retired), i)
    ensures NoSuccess(s.calls, TurnWrite(o, s, retired).calls, i)
  {
    var chain := Chain(s.writes, retired);
    if chain != [] && TurnFault(s, chain[0]).Some? {
      var f := TurnFault(s, chain[0]).value;
      AbortRouteKeepsCall(o, s.(writes := ReleaseHead(s.writes, retired)), chain[0].id, chain[0].kind, !DefinitelyUnsent(f), f, i);
    }
  }

  lemma FinishKeepsCall(o: Options, s: State, retired: bool, failed: bool, i: CallId)
    ensures Kept(s, FinishWrite(o, s, retired, failed), i)
  {
    var chain := Chain(s.writes, retired);
    if chain != [] {
      AbortRouteKeepsCall(o, s.(writes := ReleaseHead(s.writes, retired)), chain[0].id, chain[0].kind, true, StdinFailure, i);
    }
  }

  lemma AbortPendingKeepsCall(o: Options, s: State, id: RequestId, kind: Kind, f: Fault, fatal: bool, i: CallId)
    ensures Kept(s, AbortPending(o, s, id, kind, f, fatal), i)
  {
    AbortRouteKeepsCall(o, s, id, kind, true, f, i);
    FailAllKeepsCall(AbortRoute(o, s, id, kind, true, f), f, i);
  }

  lemma CancelKeepsCall(o: Options, s: State, id: RequestId, i: CallId)
    ensures Kept(s, Cancel(o, s, id), i)
  {
    if id in s.routes.waitingRequests || id in s.routes.waitingStreams {
    } else if id in s.routes.pendingResponses {
      AbortPendingKeepsCall(o, s, id, Unary, RequestCancelled, false, i);
    } else if id in s.routes.pendingStreams {
      AbortPendingKeepsCall(o, s, id, Stream, RequestCancelled, false, i);
    }
  }

  lemma TimeoutKeepsCall(o: Options, s: State, id: RequestId, i: CallId)
    ensures Kept(s, Timeout(o, s, id), i)
  {
    if id in s.routes.pendingResponses {
      AbortPendingKeepsCall(o, s, id, Unary, BackendTimeout, s.routes.pendingResponses[id].fatalOnTimeout, i);
    } else if id in s.routes.pendingStreams {
      AbortPendingKeepsCall(o, s, id, Stream, BackendTimeout, s.routes.pendingStreams[id].fatalOnTimeout, i);
    }
  }

  lemma QuarantineKeepsCall(o: Options, s: State, id: RequestId, i: CallId)
    ensures Kept(s, DiscardOrQuarantine(o, s, id), i)
  {
    FailAllKeepsCall(s, QuarantineLimit, i);
    RecycleKeepsCall(s.(link := s.link.(quarantinedIds := s.link.quarantinedIds + {id}, quarantined := true, quarantineTimer := true)), i);
  }

  lemma ResponseKeepsCall(o: Options, s: State, id: RequestId, reply: Reply, cause: Option<Line>, i: CallId)
    ensures Handled(s, HandleResponse(o, s, id, reply, cause), Response(id, reply), true, i)
  {
    hide ClearRoute, AdvanceHandshake, DiscardOrQuarantine, Terminate;
    if id in s.routes.pendingResponses {
      var owner := s.routes.pendingResponses[id].owner;
      var s0 := Record(s, owner, cause);
      ClearRouteKeepsCall(o, s0, id, Unary, false, i);
      if owner.ControlRoute? {
        AdvanceKeepsCall(o, ClearRoute(o, s0, id, Unary, false), reply, i);
      }
    } else {
      FailAllKeepsCall(s, UnexpectedResponse, i);
      QuarantineKeepsCall(o, s, id, i);
    }
  }

  lemma StreamEventKeepsCall(o: Options, s: State, id: RequestId, t: EventType, queued: bool, cause: Option<Line>, i: CallId)
    requires id in s.routes.pendingStreams
    ensures Handled(s, HandleEvent(o, s, id, t, queued, cause), Event(id, t), queued, i)
  {
    hide ClearRoute, AbortRoute;
    if !queued {
      AbortRouteKeepsCall(o, s, id, Stream, true, StreamOverflow, i);
    } else {
      var s0 := Record(s, s.routes.pendingStreams[id].owner, cause);
      match t
      case Completed => ClearRouteKeepsCall(o, s0, id, Stream, false, i);
      case ErrorEvent(code) => AbortRouteKeepsCall(o, s0, id, Stream, false, BackendReported(code), i);
      case _ =>
    }
  }

  lemma EventKeepsCall(o: Options, s: State, id: RequestId, t: EventType, queued: bool, cause: Option<Line>, i: CallId)
    ensures Handled(s, HandleEvent(o, s, id, t, queued, cause), Event(id, t), queued, i)
  {
    if id in s.routes.pendingStreams {
      StreamEventKeepsCall(o, s, id, t, queued, cause, i);
    } else {
      FailAllKeepsCall(s, UnexpectedEvent, i);
      QuarantineKeepsCall(o, s, id, i);
    }
  }

  lemma DeliverKeepsCall(o: Options, s: State, g: Generation, m: Message, queued: bool, cause: Option<Line>, i: CallId)
    ensures Handled(s, Deliver(o, s, g, m, queued, cause), m, queued, i)
  {
    var s1 := s.(wire := EndLine(s.wire, m, cause));
    match m
    case Malformed => FailAllKeepsCall(s1, InvalidMessage, i);
    case Response(id, reply) => ResponseKeepsCall(o, s1, id, reply, cause, i);
    case Event(id, t) => EventKeepsCall(o, s1, id, t, queued, cause, i);
  }

  lemma CallerStepKeepsCall(o: Options, s: State, t: Step, i: CallId)
    requires CallerStep(t)
    ensures Kept(s, Apply(o, s, t), i)
  {
    match t
    case RequestStep(id, size, encodable) => RequestKeepsCall(o, s, id, size, encodable, i);
    case StreamStep(id, size, encodable) =>
    case ScheduleStep(c) => ScheduleKeepsCall(o, s, c, i);
    case ContinueStep(c) => ContinueKeepsCall(o, s, c, i);
    case SettleHandshakeStep => SettleHandshakeKeepsCall(s, i);
    case GrantSlotStep => GrantSlotKeepsCall(o, s, i);
    case TimeoutStep(id) => TimeoutKeepsCall(o, s, id, i);
    case CancelStep(id) => CancelKeepsCall(o, s, id, i);
    case _ =>
  }

  lemma ChildStepKeepsCall(o: Options, s: State, t: Step, i: CallId)
    requires !CallerStep(t) && !t.TurnStep? && !t.DeliverStep?
    ensures Kept(s, Apply(o, s, t), i)
  {
    hide FinishWrite, FailAll, Recycle;
    match t
    case FinishStep(retired, failed) => FinishKeepsCall(o, s, retired, failed, i);
    case ChildFailedStep(g, f) => FailAllKeepsCall(s, f, i);
    case TombstoneTimerStep => FailAllKeepsCall(s.(link := s.link.(tombstoneTimer := false)), LateOutputTimeout, i);
    case QuarantineTimerStep => RecycleKeepsCall(s.(link := s.link.(quarantineTimer := false)), i);
    case CloseStep => FailAllKeepsCall(s.(closed := true), BackendClosed, i);
    case _ =>
  }

  /** Only the turn of a queued write touches stdin. */
  lemma OnlyTurnsWrite(o: Options, s: State, t: Step)
    requires !t.TurnStep?
    ensures Apply(o, s, t).wire.sent == s.wire.sent
  {
    if CallerStep(t) {
      CallerStepKeepsCall(o, s, t, 0);
    } else if t.DeliverStep? {
      DeliverKeepsCall(o, s, t.child, t.message, t.queued, t.cause, 0);
    } else {
      ChildStepKeepsCall(o, s, t, 0);
    }
  }

  lemma ApplyKeepsCall(o: Options, s: State, t: Step, i: CallId)
    ensures CallerKept(s, Apply(o, s, t), i)
    ensures !ServedBy(s, t, i) ==> NoSuccess(s.calls, Apply(o, s, t).calls, i)
  {
    if CallerStep(t) {
      CallerStepKeepsCall(o, s, t, i);
    } else if t.TurnStep? {
      TurnKeepsCall(o, s, t.retired, i);
    } else if t.DeliverStep? {
      DeliverKeepsCall(o, s, t.child, t.message, t.queued, t.cause, i);
    } else {
      ChildStepKeepsCall(o, s, t, i);
    }
  }

  lemma ServedIsSettled(o: Options, s: State, t: Step, i: CallId)
    requires RoutesInv(s, None) && ServedBy(s, t, i)
    ensures var s1 := Apply(o, s, t);
      && Succeeded(s1.calls, i)
      && s1.calls[i].stage == Settled(Serving(t.message, t.queued).value)
      && s1.wire.delivered == s.wire.delivered + [Delivery(i, t.cause)]
  {
    var kind := if t.message.Response? then Unary else Stream;
    var s0 := Record(s.(wire := EndLine(s.wire, t.message, t.cause)), CallerRoute(i), t.cause);
    ClearFinishedKeeps(o, s0, t.message.id, kind);
  }

  /** A promise resolves exactly when the running child sends the terminal message of its own
      pending route, with the outcome which that message brings, and the message is delivered to
      nobody else. */
  lemma SuccessIsExplained(o: Options, s: State, step: Step, t: State, i: CallId)
    requires Reachable(o, s) && Next(o, s, step, t) && !Succeeded(s.calls, i)
    ensures Succeeded(t.calls, i) <==> ServedBy(s, step, i)
    ensures Succeeded(t.calls, i) ==>
      && t.calls[i].id == step.message.id
      && t.calls[i].kind == (if step.message.Response? then Unary else Stream)
      && t.calls[i].stage == Settled(Serving(step.message, step.queued).value)
      && t.wire.delivered == s.wire.delivered + [Delivery(i, step.cause)]
  {
    hide Apply, Serving;
    NextIs(o, s, step, t);
    ReachableRoutes(o, s);
    ApplyKeepsCall(o, s, step, i);
    if ServedBy(s, step, i) {
      ServedIsSettled(o, s, step, i);
    }
  }

  /** A caller settles at most once: whatever runs later, its outcome is the one it had. */
  lemma SettlesAtMostOnce(o: Options, s: State, t: State, i: CallId)
    requires Leads(o, s, t)
    ensures CallKept(s.calls, t.calls, i)
  {
    hide Apply;
    LeadsKeepsCaller(o, s, t, i);
  }

  lemma LeadsKeepsCaller(o: Options, s: State, t: State, i: CallId)
    requires Leads(o, s, t)
    ensures CallerKept(s, t, i)
  {
    hide Apply, CallerKept;
    var trace, steps :| IsRun(o, trace, steps) && trace[0] == s && trace[|steps|] == t;
    RunKeepsCaller(o, trace, steps, |steps|, i);
  }

  lemma {:induction false} RunKeepsCaller(o: Options, trace: seq<State>, steps: seq<Step>, n: nat, i: CallId)
    requires IsRun(o, trace, steps) && n <= |steps|
    ensures CallerKept(trace[0], trace[n], i)
  {
    hide Apply;
    if n > 0 {
      RunKeepsCaller(o, trace, steps, n - 1, i);
      ApplyKeepsCall(o, trace[n - 1], steps[n - 1], i);
      assert trace[n - 1 + 1] == Apply(o, trace[n - 1], steps[n - 1]);
    }
  }
}
