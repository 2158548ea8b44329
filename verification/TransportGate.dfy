/** When a caller's line goes out for its own caller, whatever the backend sends and whichever ids
    the callers use. */
module TransportGate {
  import opened Common
  import opened TransportState
  import opened TransportSteps
  import opened TransportRuns
  import opened TransportRoutes
  import opened TransportCallers
  import opened TransportWrites
  import opened TransportCorrelation

  predicate OwnRoutePending(s: State, x: Line) {
    x.id in PendingMap(s.routes, x.kind) && PendingMap(s.routes, x.kind)[x.id].owner == x.owner
  }

  /** The step ends the id of the line before its time: the backend sends a terminal message for
      it, or an earlier write of the same id and kind fails at its turn. */
  predicate Clears(s: State, t: Step, x: Line) {
    s.link.child == Some(x.child)
    && match t
       case DeliverStep(g, m, queued, _) =>
         && s.link.child == Some(g) && Terminal(m) && m.id == x.id && (m.Response? <==> x.kind.Unary?)
         && (m.Event? && x.id in s.routes.pendingStreams ==> queued)
       case TurnStep(retired) =>
         var chain := Chain(s.writes, retired);
         && chain != [] && !chain[0].started && chain[0].id == x.id && chain[0].kind == x.kind
         && x.id in PendingMap(s.routes, x.kind) && TurnFault(s, chain[0]).Some?
       case _ => false
  }

  // ---------- every other step keeps the line's route or tombstone ----------

  /** The line of a caller has its own route or its tombstone while its child runs; a child that
      is gone does not come back. */
  ghost predicate TrackedBy(r: Routes, l: Link, x: Line) {
    && x.id.CallerId?
    && x.child < l.nextGeneration
    && (l.child == Some(x.child) ==> Routed(r, l.tombstones, x))
  }

  ghost predicate Tracked(s: State, x: Line) {
    TrackedBy(s.routes, s.link, x)
  }

  lemma TerminateTracks(s: State, f: Fault, x: Line)
    requires x.id.CallerId? && x.child < s.link.nextGeneration
    ensures Tracked(Terminate(s, f), x)
  {
    hide LiveCalls, RetireWrites, SettleAll;
  }

  lemma RecycleTracks(s: State, x: Line)
    requires Tracked(s, x)
    ensures Tracked(Recycle(s), x) && Tracked(MaybeRecycle(s), x)
  {
    hide Terminate, RouteIds;
    var s1 := s.(link := s.link.(quarantined := false, quarantineTimer := false));
    TerminateTracks(s1, ProtocolQuarantined, x);
  }

  lemma ClearedTracks(r: Routes, l: Link, id: RequestId, kind: Kind, tombstone: bool, x: Line)
    requires TrackedBy(r, l, x)
    requires l.child == Some(x.child) && id == x.id ==> tombstone && kind == x.kind
    ensures TrackedBy(ClearedRoutes(r, id, kind), if tombstone then l.(tombstones := l.tombstones[id := kind], tombstoneTimer := true) else l, x)
  {
  }

  lemma ClearRouteTracks(o: Options, s: State, id: RequestId, kind: Kind, tombstone: bool, x: Line)
    requires Tracked(s, x) && id in PendingMap(s.routes, kind)
    requires s.link.child == Some(x.child) && id == x.id ==> tombstone && kind == x.kind
    ensures Tracked(ClearRoute(o, s, id, kind, tombstone), x)
  {
    hide Terminate, MaybeRecycle, ClearedSlots, ClearedRoutes, Routed;
    var s1 := s.(routes := ClearedRoutes(s.routes, id, kind),
                 slots := ClearedSlots(s.slots, kind, PendingMap(s.routes, kind)[id].owner));
    ClearedTracks(s.routes, s.link, id, kind, tombstone, x);
    TerminateTracks(s1, TombstoneLimit, x);
    RecycleTracks(if tombstone then AddTombstone(o, s1, id, kind) else s1, x);
  }

  lemma AbortRouteTracks(o: Options, s: State, id: RequestId, kind: Kind, tombstone: bool, f: Fault, x: Line)
    requires Tracked(s, x)
    requires s.link.child == Some(x.child) && id == x.id && id in PendingMap(s.routes, kind) ==> tombstone && kind == x.kind
    ensures Tracked(AbortRoute(o, s, id, kind, tombstone, f), x)
  {
    hide ClearRoute;
    if id in PendingMap(s.routes, kind) {
      ClearRouteTracks(o, s, id, kind, tombstone, x);
    }
  }

  /** A pending route under the id of the line is of the line's kind. */
  lemma SameKind(s: State, kind: Kind, x: Line)
    requires RoutesInv(s, None) && Tracked(s, x) && s.link.child == Some(x.child) && x.id in PendingMap(s.routes, kind)
    ensures kind == x.kind && OwnRoutePending(s, x)
  {
    hide CallsOk, PromotionsOk, HandshakeOk;
  }

  lemma IssueTracks(o: Options, s: State, id: RequestId, kind: Kind, route: PendingRoute, size: nat, encodable: bool, x: Line)
    requires Tracked(s, x) && (s.link.child == Some(x.child) ==> id != x.id)
    ensures Tracked(Issue(o, s, id, kind, route, size, encodable), x)
  {
    hide AbortRoute, WriteFault;
    var s1 := s.(routes := PendingRoutes(s.routes, id, kind, route));
    var f := WriteFault(o, s1, size, encodable);
    if f.Some? {
      AbortRouteTracks(o, s1, id, kind, !DefinitelyUnsent(f.value), f.value, x);
    }
  }

  lemma BeginControlTracks(o: Options, s: State, phase: Phase, x: Line)
    requires Tracked(s, x)
    ensures Tracked(BeginControl(o, s, phase), x)
  {
    hide Issue;
    var id := ControlId(s.nextControl);
    IssueTracks(o, s.(nextControl := s.nextControl + 1, handshake := Running(phase, id), routes := ReserveControl(s.routes, id)),
                id, Unary, PendingRoute(ControlRoute, true), o.controlLineBytes, true, x);
  }

  lemma JoinTracks(o: Options, s: State, c: CallId, x: Line)
    requires Tracked(s, x)
    ensures Tracked(JoinHandshake(o, s, c), x)
  {
    hide BeginControl, ControlFault;
    BeginControlTracks(o, StartChild(s), Hello, x);
  }

  lemma NextProbeTracks(o: Options, s: State, phase: Phase, x: Line)
    requires Tracked(s, x)
    ensures Tracked(NextProbe(o, s, phase), x)
  {
    hide BeginControl, ControlFault;
    BeginControlTracks(o, s, phase, x);
  }

  lemma NegotiateTracks(s: State, h: HandshakeState, x: Line)
    requires Tracked(s, x)
    ensures Tracked(Negotiate(s, h), x)
  {
    hide MaybeRecycle;
    RecycleTracks(s.(link := s.link.(handshakeState := h), handshake := Idle, calls := AwakenAll(s.calls, HandshakeDone)), x);
  }

  lemma AdvanceTracks(o: Options, s: State, reply: Reply, x: Line)
    requires Tracked(s, x)
    ensures Tracked(AdvanceHandshake(o, s, reply), x)
  {
    hide NextProbe, Negotiate, Terminate;
    TerminateTracks(s, HelloRejected, x);
    if s.handshake.Running? {
      match s.handshake.phase
      case Hello =>
        NextProbeTracks(o, s, LegacyVersion, x);
        NegotiateTracks(s, if reply.Success? && reply.hello.Multiplexed? then Ready else SingleFlight, x);
      case LegacyVersion =>
        if reply.Success? {
          NextProbeTracks(o, s, LegacyCapabilities(reply.legacyVersion), x);
        }
      case LegacyCapabilities(_) => NegotiateTracks(s, Legacy, x);
    }
  }

  lemma SettleHandshakeTracks(s: State, x: Line)
    requires Tracked(s, x)
    ensures Tracked(SettleHandshake(s), x)
  {
    hide MaybeRecycle;
    if s.handshake.Failing? {
      RecycleTracks(s.(handshake := Idle, calls := AwakenAll(s.calls, HandshakeFailed(s.handshake.fault))), x);
    }
  }

  // ---------- steps of callers ----------

  lemma RequestTracks(o: Options, s: State, id: RequestId, size: nat, encodable: bool, x: Line)
    requires Tracked(s, x)
    ensures Tracked(Request(o, s, id, size, encodable), x)
  {
    hide JoinHandshake, AdmissionFault;
    var c := |s.calls|;
    JoinTracks(o, s.(calls := s.calls + [Call(id, Unary, size, encodable, false, Starting)],
                     routes := s.routes.(waitingIds := s.routes.waitingIds + {id},
                                         waitingRequests := s.routes.waitingRequests[id := c])), c, x);
  }

  lemma ScheduleTracks(o: Options, s: State, c: CallId, x: Line)
    requires Tracked(s, x)
    ensures Tracked(ScheduleStream(o, s, c), x)
  {
    hide JoinHandshake;
    if c < |s.calls| {
      JoinTracks(o, s.(calls := s.calls[c := s.calls[c].(unscheduled := false)]), c, x);
    }
  }

  /** The id of a waiting caller is not that of a tracked line. */
  lemma WaitingIsOther(s: State, c: CallId, x: Line)
    requires RoutesInv(s, None) && Tracked(s, x) && c < |s.calls| && WaitingStage(s.calls[c].stage)
    ensures s.link.child == Some(x.child) ==> s.calls[c].id != x.id
  {
    hide PromotionsOk, HandshakeOk;
    assert CallOk(s.calls[c], c, s.routes, s.handshake, s.link.handshakeState, None);
  }

  lemma IssueCallTracks(o: Options, s: State, c: CallId, slot: bool, x: Line)
    requires Tracked(s, x) && c < |s.calls| && (s.link.child == Some(x.child) ==> s.calls[c].id != x.id)
    ensures Tracked(IssueCall(o, s, c, slot), x)
  {
    hide Issue, IssueFault;
    var call := s.calls[c];
    var s1 := SetStage(s.(routes := ForgetWaiting(s.routes, call.id, call.kind)), c, Issued);
    IssueTracks(o, s1, call.id, call.kind, PendingRoute(CallerRoute(c), slot), call.size, call.encodable, x);
  }

  lemma PromoteAndIssueTracks(o: Options, s: State, c: CallId, slot: bool, x: Line)
    requires Tracked(s, x) && c < |s.calls| && (s.link.child == Some(x.child) ==> s.calls[c].id != x.id)
    ensures Tracked(PromoteAndIssue(o, s, c, slot), x)
  {
    hide IssueCall, PromoteFault;
    IssueCallTracks(o, s.(routes := Promoted(s.routes, s.calls[c].id)), c, slot, x);
  }

  lemma ContinueTracks(o: Options, s: State, c: CallId, x: Line)
    requires RoutesInv(s, None) && Tracked(s, x)
    ensures Tracked(Continue(o, s, c), x)
  {
    hide RoutesInv, PromoteAndIssue, PromoteFault;
    if c < |s.calls| && WaitingStage(s.calls[c].stage) {
      WaitingIsOther(s, c, x);
      PromoteAndIssueTracks(o, s, c, false, x);
    }
  }

  lemma GrantSlotTracks(o: Options, s: State, x: Line)
    requires RoutesInv(s, None) && Tracked(s, x)
    ensures Tracked(GrantSlot(o, s), x)
  {
    hide RoutesInv, IssueCall, PromoteAndIssue;
    if s.slots.queue != [] && s.slots.queue[0] < |s.calls| && s.calls[s.slots.queue[0]].stage.AwaitingSlot? {
      var c, s1 := s.slots.queue[0], s.(slots := s.slots.(granted := true));
      WaitingIsOther(s, c, x);
      IssueCallTracks(o, s1, c, true, x);
      PromoteAndIssueTracks(o, s1, c, true, x);
    }
  }

  lemma AbortPendingTracks(o: Options, s: State, id: RequestId, kind: Kind, f: Fault, fatal: bool, x: Line)
    requires RoutesInv(s, None) && Tracked(s, x)
    ensures Tracked(AbortPending(o, s, id, kind, f, fatal), x)
  {
    hide RoutesInv, AbortRoute, Terminate;
    if s.link.child == Some(x.child) && id == x.id && id in PendingMap(s.routes, kind) {
      SameKind(s, kind, x);
    }
    AbortRouteTracks(o, s, id, kind, true, f, x);
    TerminateTracks(AbortRoute(o, s, id, kind, true, f), f, x);
  }

  lemma CallerStepTracks(o: Options, s: State, t: Step, x: Line)
    requires RoutesInv(s, None) && Tracked(s, x) && CallerStep(t)
    ensures Tracked(Apply(o, s, t), x)
  {
    hide RoutesInv, Request, AdmissionFault, ScheduleStream, Continue, SettleHandshake, GrantSlot, AbortPending;
    match t
    case RequestStep(id, size, encodable) => RequestTracks(o, s, id, size, encodable, x);
    case StreamStep(id, size, encodable) =>
    case ScheduleStep(c) => ScheduleTracks(o, s, c, x);
    case ContinueStep(c) => ContinueTracks(o, s, c, x);
    case SettleHandshakeStep => SettleHandshakeTracks(s, x);
    case GrantSlotStep => GrantSlotTracks(o, s, x);
    case TimeoutStep(id) =>
      if id in s.routes.pendingResponses {
        AbortPendingTracks(o, s, id, Unary, BackendTimeout, s.routes.pendingResponses[id].fatalOnTimeout, x);
      } else if id in s.routes.pendingStreams {
        AbortPendingTracks(o, s, id, Stream, BackendTimeout, s.routes.pendingStreams[id].fatalOnTimeout, x);
      }
    case CancelStep(id) =>
      AbortPendingTracks(o, s, id, Unary, RequestCancelled, false, x);
      AbortPendingTracks(o, s, id, Stream, RequestCancelled, false, x);
    case _ =>
  }

  // ---------- steps of the child ----------

  lemma TurnTracks(o: Options, s: State, retired: bool, x: Line)
    requires Tracked(s, x) && !Clears(s, TurnStep(retired), x) && RoutesInv(s, None)
    ensures Tracked(TurnWrite(o, s, retired), x)
  {
    hide RoutesInv, AbortRoute, TurnFault, ReleaseHead;
    var chain := Chain(s.writes, retired);
    if chain != [] && !chain[0].started && TurnFault(s, chain[0]).Some? {
      var e, f := chain[0], TurnFault(s, chain[0]).value;
      if s.link.child == Some(x.child) && e.id == x.id && e.id in PendingMap(s.routes, e.kind) {
        SameKind(s, e.kind, x);
      }
      AbortRouteTracks(o, s.(writes := ReleaseHead(s.writes, retired)), e.id, e.kind, !DefinitelyUnsent(f), f, x);
    }
  }

  lemma FinishTracks(o: Options, s: State, retired: bool, failed: bool, x: Line)
    requires Tracked(s, x) && RoutesInv(s, None)
    ensures Tracked(FinishWrite(o, s, retired, failed), x)
  {
    hide RoutesInv, AbortRoute, ReleaseHead;
    var chain := Chain(s.writes, retired);
    if chain != [] && chain[0].started {
      var e := chain[0];
      if s.link.child == Some(x.child) && e.id == x.id && e.id in PendingMap(s.routes, e.kind) {
        SameKind(s, e.kind, x);
      }
      AbortRouteTracks(o, s.(writes := ReleaseHead(s.writes, retired)), e.id, e.kind, true, StdinFailure, x);
    }
  }

  lemma QuarantineTracks(o: Options, s: State, id: RequestId, x: Line)
    requires Tracked(s, x)
    ensures Tracked(DiscardOrQuarantine(o, s, id), x)
  {
    hide Terminate, MaybeRecycle;
    TerminateTracks(s, QuarantineLimit, x);
    RecycleTracks(s.(link := s.link.(quarantinedIds := s.link.quarantinedIds + {id}, quarantined := true, quarantineTimer := true)), x);
  }

  lemma ResponseTracks(o: Options, s: State, id: RequestId, reply: Reply, cause: Option<Line>, x: Line)
    requires Tracked(s, x) && RoutesInv(s, None)
    requires s.link.child == Some(x.child) && id == x.id ==> !x.kind.Unary?
    ensures Tracked(HandleResponse(o, s, id, reply, cause), x)
  {
    hide RoutesInv, Terminate, ClearRoute, AdvanceHandshake, DiscardOrQuarantine, SettleCall;
    TerminateTracks(s, UnexpectedResponse, x);
    QuarantineTracks(o, s, id, x);
    if id in s.routes.pendingResponses {
      if s.link.child == Some(x.child) && id == x.id {
        SameKind(s, Unary, x);
      }
      var s0 := Record(s, s.routes.pendingResponses[id].owner, cause);
      ClearRouteTracks(o, s0, id, Unary, false, x);
      AdvanceTracks(o, ClearRoute(o, s0, id, Unary, false), reply, x);
      SettleTracks(ClearRoute(o, s0, id, Unary, false), x);
    }
  }

  lemma SettleTracks(s: State, x: Line)
    requires Tracked(s, x)
    ensures forall c, outcome :: Tracked(SettleCall(s, c, outcome), x)
  {
    hide TrackedBy;
  }

  lemma EventTracks(o: Options, s: State, id: RequestId, t: EventType, queued: bool, cause: Option<Line>, x: Line)
    requires Tracked(s, x) && RoutesInv(s, None)
    requires s.link.child == Some(x.child) && id == x.id && x.kind.Stream? ==> !Terminal(Event(id, t)) || (id in s.routes.pendingStreams && !queued)
    ensures Tracked(HandleEvent(o, s, id, t, queued, cause), x)
  {
    hide RoutesInv, Terminate, AbortRoute, ClearRoute, DiscardOrQuarantine, SettleCall;
    TerminateTracks(s, UnexpectedEvent, x);
    QuarantineTracks(o, s, id, x);
    if id in s.routes.pendingStreams {
      if s.link.child == Some(x.child) && id == x.id {
        SameKind(s, Stream, x);
      }
      var s0 := Record(s, s.routes.pendingStreams[id].owner, cause);
      if !queued {
        AbortRouteTracks(o, s, id, Stream, true, StreamOverflow, x);
      } else if t.ErrorEvent? {
        AbortRouteTracks(o, s0, id, Stream, false, BackendReported(t.code), x);
      } else if t.Completed? {
        ClearRouteTracks(o, s0, id, Stream, false, x);
        SettleTracks(ClearRoute(o, s0, id, Stream, false), x);
      }
    }
  }

  lemma DeliverTracks(o: Options, s: State, g: Generation, m: Message, queued: bool, cause: Option<Line>, x: Line)
    requires Tracked(s, x) && RoutesInv(s, None) && !Clears(s, DeliverStep(g, m, queued, cause), x)
    ensures Tracked(Deliver(o, s, g, m, queued, cause), x)
  {
    hide Terminate, HandleResponse, HandleEvent, CallsOk, KeysOk, MapsOk, PromotionsOk, HandshakeOk, LinkOk;
    if s.link.child == Some(g) {
      var s1 := s.(wire := EndLine(s.wire, m, cause));
      match m
      case Malformed => TerminateTracks(s1, InvalidMessage, x);
      case Response(id, reply) => ResponseTracks(o, s1, id, reply, cause, x);
      case Event(id, t) => EventTracks(o, s1, id, t, queued, cause, x);
    }
  }

  lemma ApplyTracks(o: Options, s: State, t: Step, x: Line)
    requires RoutesInv(s, None) && Tracked(s, x) && !Clears(s, t, x)
    ensures Tracked(Apply(o, s, t), x)
  {
    hide RoutesInv, Clears, TurnWrite, FinishWrite, Deliver, Terminate, Recycle;
    if CallerStep(t) {
      CallerStepTracks(o, s, t, x);
    } else {
      match t
      case TurnStep(retired) => TurnTracks(o, s, retired, x);
      case FinishStep(retired, failed) => FinishTracks(o, s, retired, failed, x);
      case DeliverStep(g, m, queued, cause) => DeliverTracks(o, s, g, m, queued, cause, x);
      case ChildFailedStep(g, f) => TerminateTracks(s, f, x);
      case TombstoneTimerStep => TerminateTracks(s.(link := s.link.(tombstoneTimer := false)), LateOutputTimeout, x);
      case QuarantineTimerStep => RecycleTracks(s.(link := s.link.(quarantineTimer := false)), x);
      case CloseStep => TerminateTracks(s.(closed := true), BackendClosed, x);
      case _ =>
    }
  }

  // ---------- and that step loses it for good ----------

  lemma TerminateDrops(s: State, f: Fault)
    ensures Terminate(s, f).routes == NO_ROUTES
    ensures MaybeRecycle(s).routes in {s.routes, NO_ROUTES}
  {
    hide LiveCalls, SettleAll, RetireWrites;
  }

  lemma ClearRouteDrops(o: Options, s: State, id: RequestId, kind: Kind, tombstone: bool)
    requires id in PendingMap(s.routes, kind)
    ensures id !in PendingMap(ClearRoute(o, s, id, kind, tombstone).routes, kind)
  {
    hide Terminate, MaybeRecycle, ReleaseSlot;
    var s1 := s.(routes := ClearedRoutes(s.routes, id, kind),
                 slots := ClearedSlots(s.slots, kind, PendingMap(s.routes, kind)[id].owner));
    TerminateDrops(s1, TombstoneLimit);
    TerminateDrops(if tombstone then AddTombstone(o, s1, id, kind) else s1, TombstoneLimit);
  }

  lemma AbortRouteDrops(o: Options, s: State, id: RequestId, kind: Kind, tombstone: bool, f: Fault)
    ensures id !in PendingMap(AbortRoute(o, s, id, kind, tombstone, f).routes, kind)
  {
    hide ClearRoute;
    if id in PendingMap(s.routes, kind) {
      ClearRouteDrops(o, s, id, kind, tombstone);
    }
  }

  lemma QuarantineDrops(o: Options, s: State, id: RequestId)
    ensures DiscardOrQuarantine(o, s, id).routes in {s.routes, NO_ROUTES}
  {
    hide Terminate, MaybeRecycle;
    TerminateDrops(s, QuarantineLimit);
    TerminateDrops(s.(link := s.link.(quarantinedIds := s.link.quarantinedIds + {id}, quarantined := true, quarantineTimer := true)), QuarantineLimit);
  }

  lemma EventDrops(o: Options, s: State, id: RequestId, t: EventType, queued: bool, cause: Option<Line>)
    requires t.Completed? || t.ErrorEvent?
    requires id in s.routes.pendingStreams ==> queued
    ensures id !in HandleEvent(o, s, id, t, queued, cause).routes.pendingStreams
  {
    hide Terminate, DiscardOrQuarantine, ClearRoute, AbortRoute;
    if id in s.routes.pendingStreams {
      var s0 := Record(s, s.routes.pendingStreams[id].owner, cause);
      ClearRouteDrops(o, s0, id, Stream, false);
      if t.ErrorEvent? {
        AbortRouteDrops(o, s0, id, Stream, false, BackendReported(t.code));
      }
    } else {
      TerminateDrops(s, UnexpectedEvent);
      QuarantineDrops(o, s, id);
    }
  }

  lemma ResponseDrops(o: Options, s: State, id: RequestId, reply: Reply, cause: Option<Line>)
    requires RoutesInv(s, None) && id.CallerId?
    ensures id !in HandleResponse(o, s, id, reply, cause).routes.pendingResponses
  {
    hide Terminate, DiscardOrQuarantine, ClearRoute, AdvanceHandshake, CallsOk, PromotionsOk, LinkOk, KeysOk;
    if id in s.routes.pendingResponses {
      assert s.routes.pendingResponses[id].owner.CallerRoute?;
      ClearRouteDrops(o, Record(s, s.routes.pendingResponses[id].owner, cause), id, Unary, false);
    } else {
      TerminateDrops(s, UnexpectedResponse);
      QuarantineDrops(o, s, id);
    }
  }

  lemma ClearsDropsRoute(o: Options, s: State, t: Step, x: Line)
    requires RoutesInv(s, None) && Clears(s, t, x) && x.id.CallerId?
    ensures x.id !in PendingMap(Apply(o, s, t).routes, x.kind)
  {
    hide RoutesInv, HandleResponse, HandleEvent, AbortRoute, TurnFault, ReleaseHead;
    match t
    case DeliverStep(g, m, queued, cause) =>
      var s1 := s.(wire := EndLine(s.wire, m, cause));
      EndLineKeepsRoutes(s, EndLine(s.wire, m, cause));
      match m {
        case Response(id, reply) => ResponseDrops(o, s1, id, reply, cause);
        case Event(id, e) => EventDrops(o, s1, id, e, queued, cause);
        case _ =>
      }
    case TurnStep(retired) =>
      var e := Chain(s.writes, retired)[0];
      var f := TurnFault(s, e).value;
      AbortRouteDrops(o, s.(writes := ReleaseHead(s.writes, retired)), e.id, e.kind, !DefinitelyUnsent(f), f);
    case _ =>
  }

  lemma EndLineKeepsRoutes(s: State, w: Wire)
    requires RoutesInv(s, None)
    ensures RoutesInv(s.(wire := w), None)
  {
    hide MapsOk, CallsOk, KeysOk, PromotionsOk, HandshakeOk, LinkOk;
  }

  lemma {:induction false} RunTracks(o: Options, trace: seq<State>, steps: seq<Step>, n: nat, x: Line)
    requires IsRun(o, trace, steps) && n <= |steps| && RoutesInv(trace[0], None) && Tracked(trace[0], x)
    requires forall i | 0 <= i < n :: !Clears(trace[i], steps[i], x)
    ensures RoutesInv(trace[n], None) && Tracked(trace[n], x)
  {
    hide Apply, RoutesInv, Tracked, Clears;
    if n > 0 {
      RunTracks(o, trace, steps, n - 1, x);
      ApplyKeeps(o, trace[n - 1], steps[n - 1]);
      ApplyTracks(o, trace[n - 1], steps[n - 1], x);
      assert trace[n - 1 + 1] == Apply(o, trace[n - 1], steps[n - 1]);
    }
  }

  lemma OwnRouteIsIssued(s: State, x: Line)
    requires RoutesInv(s, None) && x.owner.CallerRoute? && x.owner.call < |s.calls|
    requires s.calls[x.owner.call].id == x.id && s.calls[x.owner.call].kind == x.kind
    ensures OwnRoutePending(s, x) <==> s.calls[x.owner.call].stage.Issued?
  {
    hide KeysOk, PromotionsOk, HandshakeOk, LinkOk;
    assert CallOk(s.calls[x.owner.call], x.owner.call, s.routes, s.handshake, s.link.handshakeState, None);
  }

  /** Let a caller's route be pending under a running child, and let its line be written to that
      child later on. Its own route is still pending then if and only if no step in between ended
      its id before its time. */
  lemma WrittenForItsOwnerIff(o: Options, trace: seq<State>, steps: seq<Step>, x: Line)
    requires IsRun(o, trace, steps) && Reachable(o, trace[0])
    requires x.owner.CallerRoute? && OwnRoutePending(trace[0], x) && trace[0].link.child == Some(x.child)
    requires Writable(trace[|steps|]) && LineOf(trace[|steps|].writes.tail[0]) == x
    ensures OwnRoutePending(trace[|steps|], x) <==> forall i | 0 <= i < |steps| :: !Clears(trace[i], steps[i], x)
  {
    hide Apply, RoutesInv, WritesInv, Clears, OwnRoutePending;
    var s, t, n := trace[0], trace[|steps|], |steps|;
    ReachableRoutes(o, s);
    StartsTracked(s, x);
    if forall i | 0 <= i < n :: !Clears(trace[i], steps[i], x) {
      RunTracks(o, trace, steps, n, x);
      SameKind(t, if x.id in t.routes.pendingResponses then Unary else Stream, x);
    } else {
      var i: nat :| i < n && Clears(trace[i], steps[i], x);
      LostForGood(o, trace, steps, i, x);
    }
  }

  lemma StartsTracked(s: State, x: Line)
    requires RoutesInv(s, None) && x.owner.CallerRoute? && OwnRoutePending(s, x) && s.link.child == Some(x.child)
    ensures Tracked(s, x) && x.owner.call < |s.calls|
    ensures var c := s.calls[x.owner.call]; c.stage.Issued? && c.id == x.id && c.kind == x.kind
  {
    hide KeysOk, PromotionsOk, HandshakeOk;
    assert x.owner.call < |s.calls|;
    assert CallOk(s.calls[x.owner.call], x.owner.call, s.routes, s.handshake, s.link.handshakeState, None);
  }

  lemma RunSuffix(o: Options, trace: seq<State>, steps: seq<Step>, j: nat)
    requires IsRun(o, trace, steps) && j <= |steps|
    ensures IsRun(o, trace[j..], steps[j..])
  {
    hide Apply;
    forall i | 0 <= i < |steps[j..]| ensures trace[j..][i + 1] == Apply(o, trace[j..][i], steps[j..][i]) {
      assert trace[j + i + 1] == Apply(o, trace[j + i], steps[j + i]);
    }
  }

  lemma LostForGood(o: Options, trace: seq<State>, steps: seq<Step>, i: nat, x: Line)
    requires IsRun(o, trace, steps) && RoutesInv(trace[0], None)
    requires x.owner.CallerRoute? && OwnRoutePending(trace[0], x) && trace[0].link.child == Some(x.child)
    requires i < |steps| && Clears(trace[i], steps[i], x)
    ensures !OwnRoutePending(trace[|steps|], x)
  {
    hide Apply, RoutesInv, Clears, SlotKept;
    var c, n := x.owner.call, |steps|;
    StartsTracked(trace[0], x);
    RunKeeps(o, trace, steps, i);
    RunKeeps(o, trace, steps, i + 1);
    RunKeeps(o, trace, steps, n);
    ClearsDropsRoute(o, trace[i], steps[i], x);
    assert trace[i + 1] == Apply(o, trace[i], steps[i]);
    RunKeepsCaller(o, trace, steps, i + 1, c);
    OwnRouteIsIssued(trace[i + 1], x);
    RunSuffix(o, trace, steps, i + 1);
    RunKeepsCaller(o, trace[i + 1..], steps[i + 1..], n - i - 1, c);
    OwnRouteIsIssued(trace[n], x);
  }
}
