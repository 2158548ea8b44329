/** Which answers negotiate a child: the handshake moves on the running child's answer to the probe
    that is under way and on nothing else, and accepts exactly the answers the protocol allows. */
module TransportHandshake {
  import opened Common
  import opened TransportState
  import opened TransportSteps
  import opened TransportRuns
  import opened TransportRoutes
  import opened TransportCallers
  import opened TransportFlow
  import opened TransportOutcomes

  /** The running child answers the probe that is under way. */
  predicate ProbeAnswered(s: State, t: Step) {
    && t.DeliverStep? && s.link.child == Some(t.child) && t.message.Response?
    && s.handshake.Running? && t.message.id == s.handshake.id
  }

  // ---------- every other step leaves it alone ----------

  predicate Bounded(o: Options, l: Link) {
    |l.tombstones| <= o.tombstoneLimit && |l.quarantinedIds| <= o.quarantineLimit
  }

  /** The negotiated state stays or is forgotten with its child; a probe that is under way later was
      under way before, unless it is the hello of a new handshake; what is remembered of late and
      unknown ids stays within its bounds. */
  predicate Steady(o: Options, s: State, t: State) {
    && (Bounded(o, s.link) ==> Bounded(o, t.link))
    && (t.link.handshakeState == s.link.handshakeState || t.link.handshakeState.Unknown?)
    && (t.handshake.Running? ==> t.handshake == s.handshake || (s.handshake.Idle? && t.handshake.phase.Hello?))
  }

  lemma TerminateIsSteady(o: Options, s: State, f: Fault)
    ensures Steady(o, s, Terminate(s, f))
    ensures Steady(o, s, Recycle(s)) && Steady(o, s, MaybeRecycle(s))
    ensures Recycle(s).handshake.Idle? <==> s.handshake.Idle?
    ensures MaybeRecycle(s).handshake.Idle? <==> s.handshake.Idle?
  {
    hide LiveCalls, SettleAll, RetireWrites, RouteIds;
  }

  lemma ClearRouteIsSteady(o: Options, s: State, id: RequestId, kind: Kind, tombstone: bool)
    requires id in PendingMap(s.routes, kind)
    ensures Steady(o, s, ClearRoute(o, s, id, kind, tombstone))
  {
    hide Terminate, MaybeRecycle, ClearedSlots;
    var s1 := s.(routes := ClearedRoutes(s.routes, id, kind),
                 slots := ClearedSlots(s.slots, kind, PendingMap(s.routes, kind)[id].owner));
    TerminateIsSteady(o, s1, TombstoneLimit);
    TerminateIsSteady(o, if tombstone then AddTombstone(o, s1, id, kind) else s1, TombstoneLimit);
  }

  lemma AbortRouteIsSteady(o: Options, s: State, id: RequestId, kind: Kind, tombstone: bool, f: Fault)
    ensures Steady(o, s, AbortRoute(o, s, id, kind, tombstone, f))
  {
    hide ClearRoute;
    if id in PendingMap(s.routes, kind) {
      ClearRouteIsSteady(o, s, id, kind, tombstone);
    }
  }

  lemma IssueIsSteady(o: Options, s: State, id: RequestId, kind: Kind, route: PendingRoute, size: nat, encodable: bool)
    ensures Steady(o, s, Issue(o, s, id, kind, route, size, encodable))
  {
    hide AbortRoute, WriteFault;
    var s1 := s.(routes := PendingRoutes(s.routes, id, kind, route));
    var f := WriteFault(o, s1, size, encodable);
    if f.Some? {
      AbortRouteIsSteady(o, s1, id, kind, !DefinitelyUnsent(f.value), f.value);
    }
  }

  /** The probe that was asked for is under way, or the handshake has failed. */
  lemma BeginControlIs(o: Options, s: State, phase: Phase)
    ensures var t := BeginControl(o, s, phase);
      && (Bounded(o, s.link) ==> Bounded(o, t.link))
      && (t.link.handshakeState == s.link.handshakeState || t.link.handshakeState.Unknown?)
      && (t.handshake.Running? ==> t.handshake == Running(phase, ControlId(s.nextControl)))
  {
    hide Issue;
    var id := ControlId(s.nextControl);
    IssueIsSteady(o, s.(nextControl := s.nextControl + 1, handshake := Running(phase, id), routes := ReserveControl(s.routes, id)),
                  id, Unary, PendingRoute(ControlRoute, true), o.controlLineBytes, true);
  }

  lemma JoinIsSteady(o: Options, s: State, c: CallId)
    ensures Steady(o, s, JoinHandshake(o, s, c))
  {
    hide BeginControl, ControlFault;
    BeginControlIs(o, StartChild(s), Hello);
  }

  lemma SettleIsSteady(o: Options, s: State)
    ensures Steady(o, s, SettleHandshake(s))
  {
    hide MaybeRecycle;
    if s.handshake.Failing? {
      TerminateIsSteady(o, s.(handshake := Idle, calls := AwakenAll(s.calls, HandshakeFailed(s.handshake.fault))), BackendClosed);
    }
  }

  lemma IssueCallIsSteady(o: Options, s: State, c: CallId, slot: bool)
    requires c < |s.calls|
    ensures Steady(o, s, IssueCall(o, s, c, slot))
  {
    hide Issue, IssueFault;
    var call := s.calls[c];
    var s1 := SetStage(s.(routes := ForgetWaiting(s.routes, call.id, call.kind)), c, Issued);
    IssueIsSteady(o, s1, call.id, call.kind, PendingRoute(CallerRoute(c), slot), call.size, call.encodable);
  }

  lemma PromoteIsSteady(o: Options, s: State, c: CallId, slot: bool)
    requires c < |s.calls|
    ensures Steady(o, s, PromoteAndIssue(o, s, c, slot))
  {
    hide IssueCall, PromoteFault;
    IssueCallIsSteady(o, s.(routes := Promoted(s.routes, s.calls[c].id)), c, slot);
  }

  lemma AbortPendingIsSteady(o: Options, s: State, id: RequestId, kind: Kind, f: Fault, fatal: bool)
    ensures Steady(o, s, AbortPending(o, s, id, kind, f, fatal))
  {
    hide AbortRoute, Terminate;
    AbortRouteIsSteady(o, s, id, kind, true, f);
    TerminateIsSteady(o, AbortRoute(o, s, id, kind, true, f), f);
    AbortedTwice(o, s, id, kind, f);
  }

  lemma AbortedTwice(o: Options, s: State, id: RequestId, kind: Kind, f: Fault)
    ensures var s1 := AbortRoute(o, s, id, kind, true, f); Steady(o, s, s1) && Steady(o, s1, Terminate(s1, f)) ==> Steady(o, s, Terminate(s1, f))
    ensures var s1 := AbortRoute(o, s, id, kind, true, f); s1.handshake.Idle? ==> !Terminate(s1, f).handshake.Running?
  {
    hide AbortRoute, LiveCalls, SettleAll, RetireWrites;
  }

  lemma CallerStepIsSteady(o: Options, s: State, t: Step)
    requires CallerStep(t)
    ensures Steady(o, s, Apply(o, s, t))
  {
    hide AbortPending, JoinHandshake, AdmissionFault, PromoteFault, PromoteAndIssue, IssueCall, SettleHandshake;
    match t
    case RequestStep(id, size, encodable) =>
      JoinIsSteady(o, s.(calls := s.calls + [Call(id, Unary, size, encodable, false, Starting)],
                         routes := s.routes.(waitingIds := s.routes.waitingIds + {id},
                                             waitingRequests := s.routes.waitingRequests[id := |s.calls|])), |s.calls|);
    case StreamStep(_, _, _) =>
    case ScheduleStep(c) =>
      if c < |s.calls| { JoinIsSteady(o, s.(calls := s.calls[c := s.calls[c].(unscheduled := false)]), c); }
    case ContinueStep(c) => if c < |s.calls| { PromoteIsSteady(o, s, c, false); }
    case SettleHandshakeStep => SettleIsSteady(o, s);
    case GrantSlotStep =>
      if s.slots.queue != [] && s.slots.queue[0] < |s.calls| {
        IssueCallIsSteady(o, s.(slots := s.slots.(granted := true)), s.slots.queue[0], true);
        PromoteIsSteady(o, s.(slots := s.slots.(granted := true)), s.slots.queue[0], true);
      }
    case TimeoutStep(id) =>
      if id in s.routes.pendingResponses {
        AbortPendingIsSteady(o, s, id, Unary, BackendTimeout, s.routes.pendingResponses[id].fatalOnTimeout);
      } else if id in s.routes.pendingStreams {
        AbortPendingIsSteady(o, s, id, Stream, BackendTimeout, s.routes.pendingStreams[id].fatalOnTimeout);
      }
    case CancelStep(id) =>
      AbortPendingIsSteady(o, s, id, Unary, RequestCancelled, false);
      AbortPendingIsSteady(o, s, id, Stream, RequestCancelled, false);
    case _ =>
  }

  lemma QuarantineIsSteady(o: Options, s: State, id: RequestId)
    ensures Steady(o, s, DiscardOrQuarantine(o, s, id))
  {
    hide Terminate, MaybeRecycle;
    TerminateIsSteady(o, s, QuarantineLimit);
    TerminateIsSteady(o, s.(link := s.link.(quarantinedIds := s.link.quarantinedIds + {id}, quarantined := true, quarantineTimer := true)), QuarantineLimit);
  }

  lemma ResponseIsSteady(o: Options, s: State, id: RequestId, reply: Reply, cause: Option<Line>)
    requires id in s.routes.pendingResponses ==> s.routes.pendingResponses[id].owner.CallerRoute?
    ensures Steady(o, s, HandleResponse(o, s, id, reply, cause))
  {
    hide Terminate, ClearRoute, DiscardOrQuarantine, ReleaseSlot;
    if id in s.routes.pendingResponses {
      ClearRouteIsSteady(o, Record(s, s.routes.pendingResponses[id].owner, cause), id, Unary, false);
    } else {
      TerminateIsSteady(o, s, UnexpectedResponse);
      QuarantineIsSteady(o, s, id);
    }
  }

  lemma EventIsSteady(o: Options, s: State, id: RequestId, e: EventType, queued: bool, cause: Option<Line>)
    ensures Steady(o, s, HandleEvent(o, s, id, e, queued, cause))
  {
    hide Terminate, ClearRoute, AbortRoute, DiscardOrQuarantine, ReleaseSlot;
    if id in s.routes.pendingStreams {
      var s0 := Record(s, s.routes.pendingStreams[id].owner, cause);
      AbortRouteIsSteady(o, s, id, Stream, true, StreamOverflow);
      ClearRouteIsSteady(o, s0, id, Stream, false);
      if e.ErrorEvent? {
        AbortRouteIsSteady(o, s0, id, Stream, false, BackendReported(e.code));
      }
    } else {
      TerminateIsSteady(o, s, UnexpectedEvent);
      QuarantineIsSteady(o, s, id);
    }
  }

  lemma ChildStepIsSteady(o: Options, s: State, t: Step)
    requires !CallerStep(t) && RoutesInv(s, None) && !ProbeAnswered(s, t)
    ensures Steady(o, s, Apply(o, s, t))
  {
    hide Terminate, Recycle, HandleResponse, HandleEvent, AbortRoute, TurnFault, ReleaseHead, StartHead, CallsOk, KeysOk, PromotionsOk, HandshakeOk, LinkOk;
    match t
    case TurnStep(retired) =>
      var chain := Chain(s.writes, retired);
      if chain != [] && TurnFault(s, chain[0]).Some? {
        var f := TurnFault(s, chain[0]).value;
        AbortRouteIsSteady(o, s.(writes := ReleaseHead(s.writes, retired)), chain[0].id, chain[0].kind, !DefinitelyUnsent(f), f);
      }
    case FinishStep(retired, failed) =>
      var chain := Chain(s.writes, retired);
      if chain != [] {
        AbortRouteIsSteady(o, s.(writes := ReleaseHead(s.writes, retired)), chain[0].id, chain[0].kind, true, StdinFailure);
      }
    case DeliverStep(g, m, queued, cause) =>
      var s1 := s.(wire := EndLine(s.wire, m, cause));
      if s.link.child == Some(g) {
        match m {
          case Malformed => TerminateIsSteady(o, s1, InvalidMessage);
          case Response(id, reply) => ResponseIsSteady(o, s1, id, reply, cause);
          case Event(id, e) => EventIsSteady(o, s1, id, e, queued, cause);
        }
      }
    case ChildFailedStep(g, f) => TerminateIsSteady(o, s, f);
    case TombstoneTimerStep => TerminateIsSteady(o, s.(link := s.link.(tombstoneTimer := false)), LateOutputTimeout);
    case QuarantineTimerStep => TerminateIsSteady(o, s.(link := s.link.(quarantineTimer := false)), LateOutputTimeout);
    case CloseStep => TerminateIsSteady(o, s.(closed := true), BackendClosed);
    case _ =>
  }

  lemma StepIsSteady(o: Options, s: State, t: Step)
    requires RoutesInv(s, None) && !ProbeAnswered(s, t)
    ensures Steady(o, s, Apply(o, s, t))
  {
    hide Apply, RoutesInv, ProbeAnswered;
    if CallerStep(t) {
      CallerStepIsSteady(o, s, t);
    } else {
      ChildStepIsSteady(o, s, t);
    }
  }

  // ---------- the answer to a probe ----------

  /** The state once the control route of the answered probe is cleared. */
  function Answered(s: State, t: Step): State
    requires t.DeliverStep? && t.message.Response?
  {
    s.(wire := EndLine(s.wire, t.message, t.cause), routes := ClearedRoutes(s.routes, t.message.id, Unary))
  }

  lemma AnswerAdvances(o: Options, s: State, t: Step)
    requires RoutesInv(s, None) && ProbeAnswered(s, t)
    ensures RoutesInv(Answered(s, t), Some(ControlRoute))
    ensures Apply(o, s, t) == AdvanceHandshake(o, Answered(s, t), t.message.reply)
  {
    hide CallsOk, PromotionsOk, KeysOk, LinkOk, AdvanceHandshake, RouteIds;
    var s0 := s.(wire := EndLine(s.wire, t.message, t.cause));
    assert s.routes.pendingResponses[t.message.id].owner.ControlRoute?;
    assert ClearRoute(o, s0, t.message.id, Unary, false) == Answered(s, t);
    WireIsApart(s, s0.wire);
    ClearRouteKeeps(o, s0, t.message.id, Unary, false);
  }

  lemma WireIsApart(s: State, w: Wire)
    requires RoutesInv(s, None)
    ensures RoutesInv(s.(wire := w), None)
  {
    hide MapsOk, CallsOk, KeysOk, PromotionsOk, HandshakeOk, LinkOk;
  }

  /** The answers that settle the negotiation of a child, probe by probe: what it may then be used for. */
  predicate Accepts(phase: Phase, reply: Reply, h: HandshakeState) {
    match phase
    case Hello =>
      reply.Success? && ((reply.hello == Multiplexed && h == Ready) || (reply.hello == SingleFlightOnly && h == SingleFlight))
    case LegacyVersion => false
    case LegacyCapabilities(versionOk) => reply.Success? && versionOk && reply.legacyCapabilities && h == Legacy
  }

  /** The answers after which nothing may be sent: a hello that was refused or does not fit, a legacy
      probe that failed or does not fit. */
  predicate Refuses(phase: Phase, reply: Reply) {
    match phase
    case Hello => reply == Failure("backend_hello_rejected") || (reply.Success? && reply.hello == NotNegotiated)
    case LegacyVersion => reply.Failure?
    case LegacyCapabilities(versionOk) => reply.Failure? || !versionOk || !reply.legacyCapabilities
  }

  lemma AnswerDecides(o: Options, s: State, phase: Phase, reply: Reply)
    requires RoutesInv(s, Some(ControlRoute)) && s.handshake.Running? && s.handshake.phase == phase && !s.link.handshakeState.Blocked?
    ensures var t := AdvanceHandshake(o, s, reply);
      && (Refuses(phase, reply) ==> t.link.handshakeState.Blocked? && t.handshake == Failing(HelloRejected) && TornDown(s, t, HelloRejected))
      && (!Refuses(phase, reply) ==> t.link.handshakeState != Blocked)
      && (!s.link.quarantined ==> forall h :: Accepts(phase, reply, h) ==>
            && t.link == s.link.(handshakeState := h) && t.handshake.Idle? && t.routes == s.routes
            && t.calls == AwakenAll(s.calls, HandshakeDone))
      && (Negotiated(t.link.handshakeState) ==> Accepts(phase, reply, t.link.handshakeState))
  {
    hide CallsOk, KeysOk, PromotionsOk, NextProbe, RouteIds, Terminate, AwakenAll;
    ProbeKeepsState(o, s, LegacyVersion);
    if phase.LegacyVersion? && reply.Success? {
      ProbeKeepsState(o, s, LegacyCapabilities(reply.legacyVersion));
    }
    TerminateTearsDown(s, HelloRejected, Some(ControlRoute));
    NegotiatedKeeps(s, Ready);
    NegotiatedKeeps(s, SingleFlight);
    NegotiatedKeeps(s, Legacy);
  }

  lemma NegotiatedKeeps(s: State, h: HandshakeState)
    ensures var t := Negotiate(s, h);
      && (t.link.handshakeState == h || t.link.handshakeState.Unknown?)
      && (!s.link.quarantined ==>
            t == s.(link := s.link.(handshakeState := h), handshake := Idle, calls := AwakenAll(s.calls, HandshakeDone)))
  {
    hide LiveCalls, SettleAll, RetireWrites, RouteIds, AwakenAll;
  }

  lemma ProbeKeepsState(o: Options, s: State, phase: Phase)
    ensures var t := NextProbe(o, s, phase);
      && (Bounded(o, s.link) ==> Bounded(o, t.link))
      && (t.link.handshakeState == s.link.handshakeState || t.link.handshakeState.Unknown?)
      && (t.handshake.Running? ==> t.handshake == Running(phase, ControlId(s.nextControl)))
      && !t.handshake.Idle?
  {
    hide BeginControl, ControlFault;
    BeginControlIs(o, s, phase);
    BeginControlNotIdle(o, s, phase);
  }

  lemma BeginControlNotIdle(o: Options, s: State, phase: Phase)
    ensures !BeginControl(o, s, phase).handshake.Idle?
  {
    hide RouteIds, LiveCalls, SettleAll, RetireWrites;
  }

  lemma BeforeAnswer(s: State, t: Step)
    requires RoutesInv(s, None) && ProbeAnswered(s, t)
    ensures !Negotiated(s.link.handshakeState) && !s.link.handshakeState.Blocked?
  {
    hide MapsOk, CallsOk, KeysOk, PromotionsOk;
  }

  /** A child becomes usable exactly on the running child's answer to the probe under way, and on
      these answers only: a hello that negotiated multiplexing, one that negotiated single flight, or
      fitting capabilities after a fitting version. Everyone who waited then goes on. */
  lemma NegotiatedIff(o: Options, s: State, step: Step, t: State, h: HandshakeState)
    requires Reachable(o, s) && Next(o, s, step, t) && Negotiated(h) && s.link.handshakeState != h && !s.link.quarantined
    ensures t.link.handshakeState == h <==> ProbeAnswered(s, step) && Accepts(s.handshake.phase, step.message.reply, h)
    ensures t.link.handshakeState == h ==>
              t.handshake.Idle? && |t.calls| == |s.calls|
              && forall c | 0 <= c < |s.calls| ::
                   t.calls[c] == if s.calls[c].stage.AwaitingHandshake? then s.calls[c].(stage := HandshakeDone) else s.calls[c]
  {
    hide Apply, RoutesInv, ProbeAnswered, AdvanceHandshake, Accepts, Refuses;
    NextIs(o, s, step, t);
    ReachableRoutes(o, s);
    if ProbeAnswered(s, step) {
      BeforeAnswer(s, step);
      AnswerAdvances(o, s, step);
      PhaseIs(s, step);
      AnswerDecides(o, Answered(s, step), s.handshake.phase, step.message.reply);
    } else {
      StepIsSteady(o, s, step);
    }
  }

  lemma PhaseIs(s: State, t: Step)
    requires ProbeAnswered(s, t)
    ensures t.DeliverStep? && t.message.Response? && s.handshake.Running? && Answered(s, t).handshake == s.handshake
    ensures Answered(s, t).link == s.link && Answered(s, t).calls == s.calls
  {
  }

  /** A backend is refused for good exactly on these answers: the hello failed negotiation or was
      rejected, or a legacy probe failed or does not fit. Then the child is gone, the handshake and
      every unsettled caller fail with that fault, and no route is left. */
  lemma BlockedIff(o: Options, s: State, step: Step, t: State)
    requires Reachable(o, s) && Next(o, s, step, t) && !s.link.handshakeState.Blocked?
    ensures t.link.handshakeState.Blocked? <==> ProbeAnswered(s, step) && Refuses(s.handshake.phase, step.message.reply)
    ensures t.link.handshakeState.Blocked? ==> t.handshake == Failing(HelloRejected) && TornDown(s, t, HelloRejected)
  {
    hide Apply, RoutesInv, ProbeAnswered, AdvanceHandshake, Accepts, Refuses;
    NextIs(o, s, step, t);
    ReachableRoutes(o, s);
    if ProbeAnswered(s, step) {
      BeforeAnswer(s, step);
      AnswerAdvances(o, s, step);
      PhaseIs(s, step);
      AnswerDecides(o, Answered(s, step), s.handshake.phase, step.message.reply);
    } else {
      StepIsSteady(o, s, step);
    }
  }

  /** The probe under way after an answer: the version probe only after a backend that does not know
      hello, the capabilities probe only after a version probe that succeeded, which it remembers. */
  predicate Follows(phase: Phase, reply: Reply, next: Phase) {
    match next
    case Hello => false
    case LegacyVersion => phase.Hello? && reply == Failure("unknown_command")
    case LegacyCapabilities(versionOk) => phase.LegacyVersion? && reply.Success? && versionOk == reply.legacyVersion
  }

  lemma AnswerFollows(o: Options, s: State, phase: Phase, reply: Reply)
    requires RoutesInv(s, Some(ControlRoute)) && s.handshake.Running? && s.handshake.phase == phase
    ensures var t := AdvanceHandshake(o, s, reply);
      && (t.handshake.Running? ==> t.handshake.id == ControlId(s.nextControl) && Follows(phase, reply, t.handshake.phase))
      && (forall next | Follows(phase, reply, next) ::
            t.handshake == Running(next, ControlId(s.nextControl)) || t.handshake.Failing?)
      && (phase.Hello? && reply.Failure? && reply.code !in {"unknown_command", "backend_hello_rejected"} ==>
            t == s.(handshake := Failing(BackendReported(reply.code))))
  {
    hide CallsOk, KeysOk, PromotionsOk, NextProbe, RouteIds, LiveCalls, SettleAll, RetireWrites, AwakenAll, Negotiate;
    ProbeKeepsState(o, s, LegacyVersion);
    if phase.LegacyVersion? && reply.Success? {
      ProbeKeepsState(o, s, LegacyCapabilities(reply.legacyVersion));
    }
    NegotiateIsIdle(s, Ready);
    NegotiateIsIdle(s, SingleFlight);
    NegotiateIsIdle(s, Legacy);
  }

  lemma NegotiateIsIdle(s: State, h: HandshakeState)
    ensures Negotiate(s, h).handshake.Idle?
  {
    hide LiveCalls, SettleAll, RetireWrites, RouteIds, AwakenAll;
  }

  lemma StepFollows(o: Options, s: State, t: Step)
    requires RoutesInv(s, None)
    ensures var u := Apply(o, s, t);
      u.handshake.Running? && u.handshake != s.handshake && !u.handshake.phase.Hello? ==>
        ProbeAnswered(s, t) && Follows(s.handshake.phase, t.message.reply, u.handshake.phase)
  {
    hide Apply, RoutesInv, ProbeAnswered, AdvanceHandshake, Follows;
    if ProbeAnswered(s, t) {
      AnswerAdvances(o, s, t);
      PhaseIs(s, t);
      AnswerFollows(o, Answered(s, t), s.handshake.phase, t.message.reply);
      NotHello(s.handshake.phase, t.message.reply);
    } else {
      StepIsSteady(o, s, t);
    }
  }

  lemma NotHello(phase: Phase, reply: Reply)
    ensures !Follows(phase, reply, Hello)
  {
  }

  /** The verdict on the version that the last probe remembers is the one the running child gave: in
      every run the answer to the version probe came earlier, with that verdict, and nothing moved the
      handshake in between. */
  lemma {:induction false} VersionVerdictIsReal(o: Options, trace: seq<State>, steps: seq<Step>, n: nat)
    requires IsRun(o, trace, steps) && n <= |steps| && trace[0] == INITIAL
    requires trace[n].handshake.Running? && trace[n].handshake.phase.LegacyCapabilities?
    ensures exists j ::
      && 0 <= j < n && ProbeAnswered(trace[j], steps[j]) && trace[j].handshake.phase.LegacyVersion?
      && steps[j].message.reply.Success? && steps[j].message.reply.legacyVersion == trace[n].handshake.phase.versionOk
      && trace[j + 1].handshake == trace[n].handshake
  {
    hide Apply, RoutesInv, ProbeAnswered;
    assert n > 0;
    InitialRoutes();
    RunKeeps(o, trace, steps, n - 1);
    assert trace[n - 1 + 1] == Apply(o, trace[n - 1], steps[n - 1]);
    StepFollows(o, trace[n - 1], steps[n - 1]);
    if trace[n - 1].handshake == trace[n].handshake {
      VersionVerdictIsReal(o, trace, steps, n - 1);
    } else {
      PhaseIs(trace[n - 1], steps[n - 1]);
      assert trace[n - 1 + 1].handshake == trace[n].handshake;
    }
  }

  // ---------- bounds ----------

  lemma AnswerStaysBounded(o: Options, s: State, reply: Reply)
    requires Bounded(o, s.link)
    ensures Bounded(o, AdvanceHandshake(o, s, reply).link)
  {
    hide NextProbe, Terminate, MaybeRecycle, AwakenAll;
    TerminateIsSteady(o, s, HelloRejected);
    if s.handshake.Running? {
      ProbeKeepsState(o, s, LegacyVersion);
      ProbeKeepsState(o, s, LegacyCapabilities(reply.Success? && reply.legacyVersion));
      TerminateIsSteady(o, s.(link := s.link.(handshakeState := Ready), handshake := Idle, calls := AwakenAll(s.calls, HandshakeDone)), BackendClosed);
      TerminateIsSteady(o, s.(link := s.link.(handshakeState := SingleFlight), handshake := Idle, calls := AwakenAll(s.calls, HandshakeDone)), BackendClosed);
      TerminateIsSteady(o, s.(link := s.link.(handshakeState := Legacy), handshake := Idle, calls := AwakenAll(s.calls, HandshakeDone)), BackendClosed);
    }
  }

  lemma StepStaysBounded(o: Options, s: State, t: Step)
    requires RoutesInv(s, None) && Bounded(o, s.link)
    ensures Bounded(o, Apply(o, s, t).link)
  {
    hide Apply, RoutesInv, ProbeAnswered, AdvanceHandshake, Bounded;
    if ProbeAnswered(s, t) {
      AnswerAdvances(o, s, t);
      PhaseIs(s, t);
      AnswerStaysBounded(o, Answered(s, t), t.message.reply);
    } else {
      StepIsSteady(o, s, t);
    }
  }

  lemma {:induction false} RunStaysBounded(o: Options, trace: seq<State>, steps: seq<Step>, n: nat)
    requires IsRun(o, trace, steps) && n <= |steps| && trace[0] == INITIAL
    ensures Bounded(o, trace[n].link)
  {
    hide Apply, RoutesInv;
    if n > 0 {
      InitialRoutes();
      RunKeeps(o, trace, steps, n - 1);
      RunStaysBounded(o, trace, steps, n - 1);
      StepStaysBounded(o, trace[n - 1], steps[n - 1]);
      assert trace[n - 1 + 1] == Apply(o, trace[n - 1], steps[n - 1]);
    }
  }

  /** Whatever the backend sends and however often callers give up, the transport never remembers more
      late or unknown ids than its options allow. */
  lemma MemoryIsBounded(o: Options, s: State)
    requires Reachable(o, s)
    ensures |s.link.tombstones| <= o.tombstoneLimit && |s.link.quarantinedIds| <= o.quarantineLimit
  {
    hide Apply;
    var trace, steps :| IsRun(o, trace, steps) && trace[0] == INITIAL && trace[|steps|] == s;
    RunStaysBounded(o, trace, steps, |steps|);
  }

  lemma InitialRoutes()
    ensures RoutesInv(INITIAL, None)
  {
  }

  // ---------- joining a handshake ----------

  /** What a new call waits for: nothing if the child is negotiated, the fault if nothing may be sent
      or no child may start, and otherwise a handshake. If none is under way a child is started unless
      one runs, and asked hello; the call is refused only while that child is in quarantine. */
  lemma JoinDecides(o: Options, s: State)
    requires ValidOptions(o) && Reachable(o, s)
    ensures var (t, g) := EnsureHandshake(o, s);
      if s.closed then t == s && g == HandshakeFailed(BackendClosed)
      else if Negotiated(s.link.handshakeState) then t == s && g == HandshakeDone
      else if s.link.handshakeState.Blocked? then t == s && g == HandshakeFailed(HelloRejected)
      else if !s.handshake.Idle? then t == s && g == AwaitingHandshake
      else if s.writes.recycleBlocked then t == s && g == HandshakeFailed(WriteTeardownPending)
      else if s.link.quarantined then t.link == s.link && t.calls == s.calls && g == HandshakeFailed(ProtocolQuarantined)
      else
        && g == AwaitingHandshake && t.calls == s.calls
        && t.link.child == Some(if s.link.child.Some? then s.link.child.value else s.link.nextGeneration)
        && (t.handshake == Running(Hello, ControlId(s.nextControl)) || t.handshake.Failing?)
  {
    hide MapsOk, CallsOk, KeysOk, PromotionsOk, BeginControl, ControlFault;
    ReachableRoutes(o, s);
    if !s.closed && s.link.handshakeState.Unknown? && s.handshake.Idle? {
      HelloAlwaysFits(o, s);
      var s1 := StartChild(s);
      BeginControlNotIdle(o, s1, Hello);
      BeginControlIs(o, s1, Hello);
      if ControlFault(o, s1).None? {
        BeginControlCalls(o, s1, Hello);
      }
      QuarantinedChild(s);
    }
  }

  lemma QuarantinedChild(s: State)
    requires RoutesInv(s, None)
    ensures s.link.quarantined ==> s.link.child.Some?
  {
    hide MapsOk, CallsOk, KeysOk, PromotionsOk, HandshakeOk;
  }
}
