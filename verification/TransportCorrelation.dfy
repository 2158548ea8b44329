/** Correlation: with a backend that answers only the lines it received, every message reaches
    the caller whose own line caused it, despite cancellation, timeouts, reuse of ids and
    replacement of the child. */
module TransportCorrelation {
  import opened Common
  import opened TransportState
  import opened TransportSteps
  import opened TransportRuns
  import opened TransportRoutes
  import opened TransportCallers
  import opened TransportWrites

  // ---------- the environment ----------

  /** The message is one that a backend may emit for the line: same id, and a response for a
      unary request, an event for a stream. */
  predicate Answers(m: Message, l: Line) {
    match m
    case Malformed => false
    case Response(id, _) => id == l.id && l.kind.Unary?
    case Event(id, _) => id == l.id && l.kind.Stream?
  }

  /** The backend answers only open lines; a malformed line may come at any time. */
  ghost predicate Honest(s: State, t: Step) {
    t.DeliverStep? && s.link.child == Some(t.child) && !t.message.Malformed? ==>
      t.cause.Some? && t.cause.value in s.wire.open && Answers(t.message, t.cause.value)
  }

  /** The entry of the detached chain waits for its turn under that id and kind. */
  predicate Stale(detached: seq<WriteAdmission>, i: int, id: RequestId, kind: Kind) {
    0 <= i < |detached| && detached[i].id == id && detached[i].kind == kind && !detached[i].started
  }

  /** A call of that kind may take the id: no write that still waits in the detached chain has both. */
  ghost predicate CleanId(s: State, id: RequestId, kind: Kind) {
    forall i :: !Stale(RetiredWrites(s.writes), i, id, kind)
  }

  /** The callers keep to clean ids. */
  ghost predicate Clean(s: State, t: Step) {
    match t
    case RequestStep(id, _, _) => CleanId(s, id, Unary)
    case StreamStep(id, _, _) => CleanId(s, id, Stream)
    case _ => true
  }

  /** Neither an open line nor a queued write of the running child carries the id. */
  ghost predicate NoTrace(s: State, id: RequestId) {
    && (forall x | x in s.wire.open :: x.id != id)
    && (forall i | 0 <= i < |s.writes.tail| && Unsent(s.writes, s.link, i) :: s.writes.tail[i].id != id)
  }

  /** The turn of a write that waited in the detached chain finds a live route of its id and kind,
      whose own line is open or still queued. */
  ghost predicate Collides(s: State, t: Step) {
    && t == TurnStep(true)
    && RetiredWrites(s.writes) != []
    && var e := RetiredWrites(s.writes)[0];
    && !e.started && e.id in PendingMap(s.routes, e.kind) && !NoTrace(s, e.id)
  }

  /** A run with an honest backend and any callers. */
  ghost predicate HonestRun(o: Options, trace: seq<State>, steps: seq<Step>) {
    && IsRun(o, trace, steps)
    && forall i {:trigger Honest(trace[i], steps[i])} | 0 <= i < |steps| :: Honest(trace[i], steps[i])
  }

  ghost predicate NoCollision(trace: seq<State>, steps: seq<Step>)
    requires |trace| == |steps| + 1
  {
    forall i {:trigger Collides(trace[i], steps[i])} | 0 <= i < |steps| :: !Collides(trace[i], steps[i])
  }

  ghost predicate CleanRun(trace: seq<State>, steps: seq<Step>)
    requires |trace| == |steps| + 1
  {
    forall i {:trigger Clean(trace[i], steps[i])} | 0 <= i < |steps| :: Clean(trace[i], steps[i])
  }

  /** Some run with an honest backend and without a collision leads to the state. */
  ghost predicate HonestlyReachable(o: Options, s: State) {
    exists trace, steps :: HonestRun(o, trace, steps) && NoCollision(trace, steps) && trace[0] == INITIAL && trace[|steps|] == s
  }

  /** Every delivery was caused by a line of the caller that received it. */
  predicate Correlated(delivered: seq<Delivery>) {
    forall i | 0 <= i < |delivered| ::
      delivered[i].cause.Some? && delivered[i].cause.value.owner == CallerRoute(delivered[i].call)
  }

  // ---------- the invariant ----------

  /** A terminal message for the line would find the line's own route or its tombstone. */
  ghost predicate Routed(r: Routes, tombstones: map<RequestId, Kind>, x: Line) {
    || (x.id in PendingMap(r, x.kind) && PendingMap(r, x.kind)[x.id].owner == x.owner)
    || (x.id in tombstones && tombstones[x.id] == x.kind)
  }

  ghost predicate OpenOk(r: Routes, l: Link, open: set<Line>) {
    && (forall x | x in open :: l.child == Some(x.child) && Routed(r, l.tombstones, x))
    && (forall x, y | x in open && y in open && x.id == y.id :: x == y)
  }

  predicate Unsent(w: Writes, l: Link, i: int)
    requires 0 <= i < |w.tail|
  {
    !w.tail[i].started && l.child == Some(w.tail[i].child)
  }

  ghost predicate QueueOk(r: Routes, l: Link, w: Writes, open: set<Line>) {
    && (forall i | 0 <= i < |w.tail| && Unsent(w, l, i) ::
          Routed(r, l.tombstones, LineOf(w.tail[i])) && forall x | x in open :: x.id != w.tail[i].id)
    && (forall i, j | 0 <= i < j < |w.tail| && Unsent(w, l, i) && Unsent(w, l, j) :: w.tail[i].id != w.tail[j].id)
  }

  /** Every open line and every queued write of the running child has its own route or tombstone. */
  ghost predicate OwnRoutes(s: State) {
    && (forall x | x in s.wire.open :: Routed(s.routes, s.link.tombstones, x))
    && (forall i | 0 <= i < |s.writes.tail| && Unsent(s.writes, s.link, i) :: Routed(s.routes, s.link.tombstones, LineOf(s.writes.tail[i])))
  }

  function KindIds(r: Routes, kind: Kind): set<RequestId> {
    if kind.Unary? then r.waitingRequests.Keys + r.pendingResponses.Keys else r.waitingStreams.Keys + r.pendingStreams.Keys
  }

  /** No route shares its id and kind with a write that waits in the detached chain. */
  ghost predicate StaleOk(r: Routes, detached: seq<WriteAdmission>) {
    forall i, kind, id | id in KindIds(r, kind) :: !Stale(detached, i, id, kind)
  }

  /** With `clean`, for callers that keep to clean ids. */
  ghost predicate CorrInv(clean: bool, s: State) {
    && OpenOk(s.routes, s.link, s.wire.open)
    && QueueOk(s.routes, s.link, s.writes, s.wire.open)
    && (clean ==> StaleOk(s.routes, RetiredWrites(s.writes)))
    && Correlated(s.wire.delivered)
    && !s.link.quarantined
  }

  ghost predicate Disjoint(s: State) {
    KeysOk(s.routes) && s.link.tombstones.Keys !! RouteIds(s.routes)
  }

  // ---------- helpers ----------

  lemma TerminateKeepsCorr(clean: bool, s: State, f: Fault)
    requires CorrInv(clean, s)
    ensures CorrInv(clean, Terminate(s, f))
  {
    hide Correlated, LiveCalls;
    if s.link.child.Some? {
      var w := RetireWrites(s.writes, s.link.child.value);
      var t := Terminate(s, f);
      assert t.routes == NO_ROUTES && t.link == ResetLink(s.link) && t.wire.open == {} && t.writes == w;
      assert RouteIds(NO_ROUTES) == {};
    }
  }

  lemma AddTombstoneKeepsCorr(clean: bool, o: Options, s: State, id: RequestId, kind: Kind)
    requires CorrInv(clean, s.(link := s.link.(tombstones := s.link.tombstones[id := kind], tombstoneTimer := true)))
    requires Correlated(s.wire.delivered)
    requires s.link.child.Some?
    ensures CorrInv(clean, AddTombstone(o, s, id, kind))
  {
  }

  lemma ClearedKeepsCorr(clean: bool, s: State, id: RequestId, kind: Kind, t: map<RequestId, Kind>)
    requires CorrInv(clean, s) && Disjoint(s) && id in PendingMap(s.routes, kind)
    requires t == s.link.tombstones[id := kind] || (t == s.link.tombstones && NoTrace(s, id))
    ensures var r := ClearedRoutes(s.routes, id, kind); var l := s.link.(tombstones := t);
      OpenOk(r, l, s.wire.open) && QueueOk(r, l, s.writes, s.wire.open) && (clean ==> StaleOk(r, RetiredWrites(s.writes)))
  {
  }

  lemma ClearRouteKeepsCorr(clean: bool, o: Options, s: State, id: RequestId, kind: Kind, tombstone: bool)
    requires CorrInv(clean, s) && Disjoint(s) && id in PendingMap(s.routes, kind) && s.link.child.Some?
    requires tombstone || NoTrace(s, id)
    ensures CorrInv(clean, ClearRoute(o, s, id, kind, tombstone))
  {
    var s1 := s.(routes := ClearedRoutes(s.routes, id, kind),
                 slots := ClearedSlots(s.slots, kind, PendingMap(s.routes, kind)[id].owner));
    ClearedKeepsCorr(clean, s, id, kind, if tombstone then s.link.tombstones[id := kind] else s.link.tombstones);
    if tombstone {
      AddTombstoneKeepsCorr(clean, o, s1, id, kind);
    }
  }

  lemma AbortRouteKeepsCorr(clean: bool, o: Options, s: State, id: RequestId, kind: Kind, tombstone: bool, f: Fault)
    requires CorrInv(clean, s) && Disjoint(s)
    requires id in PendingMap(s.routes, kind) ==> s.link.child.Some? && (tombstone || NoTrace(s, id))
    ensures CorrInv(clean, AbortRoute(o, s, id, kind, tombstone, f))
  {
    hide ClearRoute, OpenOk, QueueOk, StaleOk, Correlated;
    if id in PendingMap(s.routes, kind) {
      ClearRouteKeepsCorr(clean, o, s, id, kind, tombstone);
    }
  }

  lemma AdmitKeepsCorr(clean: bool, s: State, id: RequestId, kind: Kind, owner: Owner, size: nat)
    requires CorrInv(clean, s) && NoTrace(s, id) && s.link.child.Some?
    requires id in PendingMap(s.routes, kind) && PendingMap(s.routes, kind)[id].owner == owner
    ensures CorrInv(clean, s.(writes := AdmitWrite(s.writes, id, kind, owner, size, s.link.child.value)))
  {
    var w := AdmitWrite(s.writes, id, kind, owner, size, s.link.child.value);
    assert RetiredWrites(w) == RetiredWrites(s.writes);
    forall i | 0 <= i < |w.tail| && Unsent(w, s.link, i)
      ensures Routed(s.routes, s.link.tombstones, LineOf(w.tail[i])) && forall x | x in s.wire.open :: x.id != w.tail[i].id
      ensures i < |s.writes.tail| ==> w.tail[i].id != id
    {
      if i < |s.writes.tail| {
        assert Unsent(s.writes, s.link, i);
      }
    }
    forall i, j | 0 <= i < j < |w.tail| && Unsent(w, s.link, i) && Unsent(w, s.link, j)
      ensures w.tail[i].id != w.tail[j].id
    {
      assert Unsent(s.writes, s.link, i);
      if j < |s.writes.tail| {
        assert Unsent(s.writes, s.link, j);
      }
    }
  }

  lemma IssueKeepsCorr(clean: bool, o: Options, s: State, id: RequestId, kind: Kind, route: PendingRoute, size: nat, encodable: bool)
    requires var s1 := s.(routes := PendingRoutes(s.routes, id, kind, route)); CorrInv(clean, s1) && Disjoint(s1) && NoTrace(s1, id)
    requires s.link.child.Some?
    ensures CorrInv(clean, Issue(o, s, id, kind, route, size, encodable))
  {
    var s1 := s.(routes := PendingRoutes(s.routes, id, kind, route));
    match WriteFault(o, s1, size, encodable)
    case Some(f) => AbortRouteKeepsCorr(clean, o, s1, id, kind, !DefinitelyUnsent(f), f);
    case None => AdmitKeepsCorr(clean, s1, id, kind, route.owner, size);
  }

  lemma WaitingNoTrace(clean: bool, s: State, id: RequestId)
    requires CorrInv(clean, s) && Disjoint(s)
    requires id in s.routes.waitingRequests || id in s.routes.waitingStreams
    ensures NoTrace(s, id)
  {
  }

  lemma IssuedKeepsCorr(clean: bool, s: State, c: CallId, slot: bool)
    requires CorrInv(clean, s) && RoutesInv(s, None) && c < |s.calls| && WaitingStage(s.calls[c].stage)
    ensures var r := IssuedRoutes(s.routes, s.calls[c], c, slot);
      OpenOk(r, s.link, s.wire.open) && QueueOk(r, s.link, s.writes, s.wire.open) && (clean ==> StaleOk(r, RetiredWrites(s.writes)))
      && KeysOk(r) && RouteIds(r) == RouteIds(s.routes)
    ensures NoTrace(s, s.calls[c].id)
  {
    var call := s.calls[c];
    assert CallOk(call, c, s.routes, s.handshake, s.link.handshakeState, None);
    WaitingNoTrace(clean, s, call.id);
    IssuedKeysKeep(s, c, slot);
    var r := IssuedRoutes(s.routes, call, c, slot);
    forall x: Line | x.id != call.id && Routed(s.routes, s.link.tombstones, x)
      ensures Routed(r, s.link.tombstones, x)
    {
    }
  }

  lemma RejectWaitingKeepsCorr(clean: bool, s: State, c: CallId, f: Fault)
    requires CorrInv(clean, s) && c < |s.calls|
    ensures CorrInv(clean, RejectWaiting(s, c, f))
  {
    assert RouteIds(RejectWaiting(s, c, f).routes) <= RouteIds(s.routes);
  }

  lemma IssueCallKeepsCorr(clean: bool, o: Options, s: State, s1: State, c: CallId, slot: bool)
    requires CorrInv(clean, s) && RoutesInv(s, None) && c < |s.calls| && WaitingStage(s.calls[c].stage)
    requires s1 == s.(routes := Promoted(s.routes, s.calls[c].id)) || (s1 == s && s.calls[c].id in s.routes.activeIds)
    ensures CorrInv(clean, IssueCall(o, s1, c, slot))
  {
    var call := s.calls[c];
    assert CallOk(call, c, s.routes, s.handshake, s.link.handshakeState, None);
    match IssueFault(s1)
    case Some(f) =>
      assert RouteIds(s1.routes) == RouteIds(s.routes);
      assert CorrInv(clean, s1);
      RejectWaitingKeepsCorr(clean, s1, c, f);
    case None =>
      IssuedKeepsCorr(clean, s, c, slot);
      var s2 := SetStage(s1.(routes := ForgetWaiting(s1.routes, call.id, call.kind)), c, Issued);
      var route := PendingRoute(CallerRoute(c), slot);
      if s1 == s {
        assert s.routes.waitingIds - {call.id} == s.routes.waitingIds;
        assert s.routes.activeIds + {call.id} == s.routes.activeIds;
      }
      assert PendingRoutes(s2.routes, call.id, call.kind, route) == IssuedRoutes(s.routes, call, c, slot);
      IssueKeepsCorr(clean, o, s2, call.id, call.kind, route, call.size, call.encodable);
  }

  lemma PromoteAndIssueKeepsCorr(clean: bool, o: Options, s: State, c: CallId, slot: bool)
    requires CorrInv(clean, s) && RoutesInv(s, None) && c < |s.calls| && WaitingStage(s.calls[c].stage)
    ensures CorrInv(clean, PromoteAndIssue(o, s, c, slot))
  {
    match PromoteFault(o, s, s.calls[c].id)
    case Some(f) => RejectWaitingKeepsCorr(clean, s, c, f);
    case None => IssueCallKeepsCorr(clean, o, s, s.(routes := Promoted(s.routes, s.calls[c].id)), c, slot);
  }

  // ---------- handshake ----------

  lemma ControlIdUnused(o: Options, s: State, limbo: Option<Owner>)
    requires WritesInv(o, s) && RoutesInv(s, limbo)
    requires limbo == Some(ControlRoute) || s.handshake.Idle?
    ensures var id := ControlId(s.nextControl);
      && id !in s.routes.pendingResponses && id !in s.routes.pendingStreams && id !in s.link.tombstones
      && (forall i | 0 <= i < |s.writes.tail| :: s.writes.tail[i].id != id)
      && (forall i | 0 <= i < |RetiredWrites(s.writes)| :: RetiredWrites(s.writes)[i].id != id)
  {
    hide KeysOk, PromotionsOk, SentOk, ChainOk, ChargeOk, GenerationsOk;
    assert forall i | 0 <= i < |s.writes.tail| :: Known(s.calls, s.nextControl, s.writes.tail[i]);
    assert forall i | 0 <= i < |RetiredWrites(s.writes)| :: Known(s.calls, s.nextControl, RetiredWrites(s.writes)[i]);
  }

  lemma ProbeRouteIds(r: Routes, id: RequestId)
    ensures RouteIds(ProbeRoutes(r, id)) == RouteIds(r) + {id}
  {
  }

  /** A control id is new: no line, write, route or tombstone carries it. */
  lemma ProbeKeepsCorr(clean: bool, o: Options, s: State, limbo: Option<Owner>)
    requires CorrInv(clean, s) && WritesInv(o, s) && RoutesInv(s, limbo)
    requires limbo == Some(ControlRoute) || s.handshake.Idle?
    ensures var id := ControlId(s.nextControl); var r := ProbeRoutes(s.routes, id);
      && OpenOk(r, s.link, s.wire.open) && QueueOk(r, s.link, s.writes, s.wire.open) && (clean ==> StaleOk(r, RetiredWrites(s.writes)))
      && RouteIds(r) == RouteIds(s.routes) + {id}
      && id !in s.link.tombstones
      && NoTrace(s, id)
  {
    hide RoutesInv, WritesInv, RouteIds, Correlated;
    var id := ControlId(s.nextControl);
    var r := ProbeRoutes(s.routes, id);
    ControlIdUnused(o, s, limbo);
    ProbeRouteIds(s.routes, id);
    forall x: Line | Routed(s.routes, s.link.tombstones, x)
      ensures Routed(r, s.link.tombstones, x) && x.id != id
    {
    }
  }

  lemma IssueProbeKeepsCorr(clean: bool, o: Options, s: State, phase: Phase)
    requires var id := ControlId(s.nextControl); var s1 := s.(routes := ProbeRoutes(s.routes, id));
      CorrInv(clean, s1) && Disjoint(s1) && NoTrace(s, id)
    requires s.link.child.Some?
    ensures CorrInv(clean, BeginControl(o, s, phase))
  {
    hide Issue;
    var id := ControlId(s.nextControl);
    IssueKeepsCorr(clean, o, s.(nextControl := s.nextControl + 1, handshake := Running(phase, id), routes := ReserveControl(s.routes, id)),
                   id, Unary, PendingRoute(ControlRoute, true), o.controlLineBytes, true);
  }

  lemma BeginControlKeepsCorr(clean: bool, o: Options, s: State, phase: Phase, limbo: Option<Owner>)
    requires CorrInv(clean, s) && WritesInv(o, s) && RoutesInv(s, limbo)
    requires limbo == Some(ControlRoute) || (limbo.None? && s.handshake.Idle?)
    requires s.link.child.Some?
    requires ValidationFault(s, ControlId(s.nextControl), true).None?
    ensures CorrInv(clean, BeginControl(o, s, phase))
  {
    ProbeKeepsCorr(clean, o, s, limbo);
    ProbeRoutesKeep(s, ControlId(s.nextControl), phase, limbo);
    IssueProbeKeepsCorr(clean, o, s, phase);
  }

  lemma StartChildKeepsCorr(clean: bool, o: Options, s: State)
    requires CorrInv(clean, s) && WritesInv(o, s) && RoutesInv(s, None) && !s.writes.recycleBlocked && s.link.handshakeState.Unknown?
    ensures CorrInv(clean, StartChild(s))
  {
    if s.link.child.None? {
      assert s.routes.controlIds == {};
      assert StartChild(s).routes == s.routes;
    }
  }

  lemma EnsureHandshakeKeepsCorr(clean: bool, o: Options, s: State)
    requires CorrInv(clean, s) && WritesInv(o, s) && RoutesInv(s, None)
    ensures CorrInv(clean, EnsureHandshake(o, s).0)
  {
    if !s.closed && s.link.handshakeState.Unknown? && s.handshake.Idle? && !s.writes.recycleBlocked {
      StartChildKeepsCorr(clean, o, s);
      StartChildKeeps(s);
      StartChildKeepsWrites(o, s);
      var s1 := StartChild(s);
      if ControlFault(o, s1).None? {
        BeginControlKeepsCorr(clean, o, s1, Hello, None);
      }
    }
  }

  lemma JoinKeepsCorr(clean: bool, o: Options, s: State, c: CallId)
    requires CorrInv(clean, s) && WritesInv(o, s) && RoutesInv(s, None)
    ensures CorrInv(clean, JoinHandshake(o, s, c))
  {
    EnsureHandshakeKeepsCorr(clean, o, s);
  }

  lemma NextProbeKeepsCorr(clean: bool, o: Options, s: State, phase: Phase)
    requires CorrInv(clean, s) && WritesInv(o, s) && RoutesInv(s, Some(ControlRoute)) && s.link.child.Some?
    ensures CorrInv(clean, NextProbe(o, s, phase))
  {
    if ControlFault(o, s).None? {
      BeginControlKeepsCorr(clean, o, s, phase, Some(ControlRoute));
    }
  }

  lemma NegotiateKeepsCorr(clean: bool, s: State, h: HandshakeState)
    requires CorrInv(clean, s)
    ensures CorrInv(clean, Negotiate(s, h))
  {
  }

  lemma RejectHelloKeepsCorr(clean: bool, s: State)
    requires CorrInv(clean, s)
    ensures CorrInv(clean, RejectHello(s))
  {
    TerminateKeepsCorr(clean, s, HelloRejected);
  }

  lemma AdvanceKeepsCorr(clean: bool, o: Options, s: State, reply: Reply)
    requires CorrInv(clean, s) && WritesInv(o, s) && RoutesInv(s, Some(ControlRoute)) && s.link.child.Some?
    ensures CorrInv(clean, AdvanceHandshake(o, s, reply))
  {
    RejectHelloKeepsCorr(clean, s);
    match s.handshake.phase
    case Hello =>
      if reply.Failure? {
        NextProbeKeepsCorr(clean, o, s, LegacyVersion);
      } else {
        NegotiateKeepsCorr(clean, s, if reply.hello.Multiplexed? then Ready else SingleFlight);
      }
    case LegacyVersion =>
      if reply.Success? {
        NextProbeKeepsCorr(clean, o, s, LegacyCapabilities(reply.legacyVersion));
      }
    case LegacyCapabilities(_) => NegotiateKeepsCorr(clean, s, Legacy);
  }

  // ---------- steps of callers ----------

  lemma AdmittedKeepsCorr(clean: bool, s: State, call: Call)
    requires CorrInv(clean, s) && (clean ==> CleanId(s, call.id, call.kind))
    ensures CorrInv(clean, s.(calls := s.calls + [call], routes := AdmittedRoutes(s.routes, call.id, call.kind, |s.calls|)))
  {
    var r := AdmittedRoutes(s.routes, call.id, call.kind, |s.calls|);
    assert RouteIds(r) == RouteIds(s.routes) + {call.id};
    assert forall kind :: KindIds(r, kind) == KindIds(s.routes, kind) + if kind == call.kind then {call.id} else {};
  }

  lemma RequestKeepsCorr(clean: bool, o: Options, s: State, id: RequestId, size: nat, encodable: bool)
    requires CorrInv(clean, s) && WritesInv(o, s) && RoutesInv(s, None) && (clean ==> CleanId(s, id, Unary))
    ensures CorrInv(clean, Request(o, s, id, size, encodable))
  {
    if AdmissionFault(o, s, id, false).None? {
      var call := Call(id, Unary, size, encodable, false, Starting);
      var r := AdmittedRoutes(s.routes, id, Unary, |s.calls|);
      AdmittedKeepsCorr(clean, s, call);
      AdmittedKeeps(s, call);
      AddCallKeepsWrites(o, s, call, r);
      JoinKeepsCorr(clean, o, s.(calls := s.calls + [call], routes := r), |s.calls|);
    }
  }

  lemma OpenStreamKeepsCorr(clean: bool, o: Options, s: State, id: RequestId, size: nat, encodable: bool)
    requires CorrInv(clean, s) && (clean ==> CleanId(s, id, Stream))
    ensures CorrInv(clean, OpenStream(o, s, id, size, encodable))
  {
    AdmittedKeepsCorr(clean, s, Call(id, Stream, size, encodable, true, Starting));
  }

  lemma ScheduledKeeps(o: Options, s: State, c: CallId)
    requires WritesInv(o, s) && RoutesInv(s, None) && c < |s.calls| && s.calls[c].unscheduled
    ensures var s1 := s.(calls := s.calls[c := s.calls[c].(unscheduled := false)]); WritesInv(o, s1) && RoutesInv(s1, None)
  {
    var s1 := s.(calls := s.calls[c := s.calls[c].(unscheduled := false)]);
    forall d | 0 <= d < |s1.calls|
      ensures CallOk(s1.calls[d], d, s1.routes, s1.handshake, s1.link.handshakeState, None)
    {
      assert CallOk(s.calls[d], d, s.routes, s.handshake, s.link.handshakeState, None);
    }
  }

  lemma ScheduleKeepsCorr(clean: bool, o: Options, s: State, c: CallId)
    requires CorrInv(clean, s) && WritesInv(o, s) && RoutesInv(s, None)
    ensures CorrInv(clean, ScheduleStream(o, s, c))
  {
    if c < |s.calls| && s.calls[c].unscheduled {
      ScheduledKeeps(o, s, c);
      JoinKeepsCorr(clean, o, s.(calls := s.calls[c := s.calls[c].(unscheduled := false)]), c);
    }
  }

  lemma AcquireKeepsCorr(clean: bool, s: State, r: Routes, c: CallId)
    requires CorrInv(clean, s) && (r == s.routes || (c < |s.calls| && s.calls[c].id in RouteIds(s.routes) && r == Promoted(s.routes, s.calls[c].id)))
    ensures CorrInv(clean, AcquireSlot(s.(routes := r), c))
  {
    assert RouteIds(r) == RouteIds(s.routes);
  }

  lemma ContinueKeepsCorr(clean: bool, o: Options, s: State, c: CallId)
    requires CorrInv(clean, s) && RoutesInv(s, None)
    ensures CorrInv(clean, Continue(o, s, c))
  {
    hide RejectWaiting, PromoteAndIssue, OpenOk, QueueOk, StaleOk, Correlated;
    if c < |s.calls| {
      assert CallOk(s.calls[c], c, s.routes, s.handshake, s.link.handshakeState, None);
      match s.calls[c].stage
      case HandshakeFailed(f) => RejectWaitingKeepsCorr(clean, s, c, f);
      case HandshakeDone =>
        if IsSingleFlight(s.link.handshakeState) {
          if s.calls[c].kind.Stream? {
            AcquireKeepsCorr(clean, s, s.routes, c);
          } else {
            match PromoteFault(o, s, s.calls[c].id)
            case Some(f) => RejectWaitingKeepsCorr(clean, s, c, f);
            case None => AcquireKeepsCorr(clean, s, Promoted(s.routes, s.calls[c].id), c);
          }
        } else if s.calls[c].kind.Unary? {
          PromoteAndIssueKeepsCorr(clean, o, s, c, false);
        }
      case ReadyToIssue => PromoteAndIssueKeepsCorr(clean, o, s, c, false);
      case _ =>
    }
  }

  lemma GrantSlotKeepsCorr(clean: bool, o: Options, s: State)
    requires CorrInv(clean, s) && RoutesInv(s, None)
    ensures CorrInv(clean, GrantSlot(o, s))
  {
    if !s.slots.granted && s.slots.queue != [] {
      var c := s.slots.queue[0];
      var s1 := s.(slots := s.slots.(granted := true));
      if c < |s.calls| && s.calls[c].stage.AwaitingSlot? {
        assert CallOk(s.calls[c], c, s.routes, s.handshake, s.link.handshakeState, None);
        if s.calls[c].kind.Unary? {
          IssueCallKeepsCorr(clean, o, s1, s1, c, true);
        } else {
          PromoteAndIssueKeepsCorr(clean, o, s1, c, true);
        }
      }
    }
  }

  lemma AbortPendingKeepsCorr(clean: bool, o: Options, s: State, id: RequestId, kind: Kind, f: Fault, fatal: bool)
    requires CorrInv(clean, s) && RoutesInv(s, None)
    ensures CorrInv(clean, AbortPending(o, s, id, kind, f, fatal))
  {
    AbortRouteKeepsCorr(clean, o, s, id, kind, true, f);
    TerminateKeepsCorr(clean, AbortRoute(o, s, id, kind, true, f), f);
  }

  lemma CancelKeepsCorr(clean: bool, o: Options, s: State, id: RequestId)
    requires CorrInv(clean, s) && RoutesInv(s, None)
    ensures CorrInv(clean, Cancel(o, s, id))
  {
    if id in s.routes.waitingRequests {
      RejectWaitingKeepsCorr(clean, s, s.routes.waitingRequests[id], RequestCancelled);
    } else if id in s.routes.waitingStreams {
      RejectWaitingKeepsCorr(clean, s, s.routes.waitingStreams[id], RequestCancelled);
    } else if id in s.routes.pendingResponses {
      AbortPendingKeepsCorr(clean, o, s, id, Unary, RequestCancelled, false);
    } else if id in s.routes.pendingStreams {
      AbortPendingKeepsCorr(clean, o, s, id, Stream, RequestCancelled, false);
    }
  }

  lemma TimeoutKeepsCorr(clean: bool, o: Options, s: State, id: RequestId)
    requires CorrInv(clean, s) && RoutesInv(s, None)
    ensures CorrInv(clean, Timeout(o, s, id))
  {
    if id in s.routes.pendingResponses {
      AbortPendingKeepsCorr(clean, o, s, id, Unary, BackendTimeout, s.routes.pendingResponses[id].fatalOnTimeout);
    } else if id in s.routes.pendingStreams {
      AbortPendingKeepsCorr(clean, o, s, id, Stream, BackendTimeout, s.routes.pendingStreams[id].fatalOnTimeout);
    }
  }

  // ---------- steps of the child ----------

  /** Dropping the head of a chain drops obligations only; the entry it held leaves no trace. */
  lemma ReleaseKeepsCorr(clean: bool, o: Options, s: State, retired: bool)
    requires CorrInv(clean, s) && WritesInv(o, s) && Chain(s.writes, retired) != []
    ensures CorrInv(clean, s.(writes := ReleaseHead(s.writes, retired)))
    ensures !retired && Unsent(s.writes, s.link, 0) ==>
      NoTrace(s.(writes := ReleaseHead(s.writes, retired)), s.writes.tail[0].id)
  {
    var w := ReleaseHead(s.writes, retired);
    if !retired {
      assert RetiredWrites(w) == RetiredWrites(s.writes);
      assert forall i | 0 <= i < |w.tail| :: w.tail[i] == s.writes.tail[i + 1];
      assert forall i | 0 <= i < |w.tail| && Unsent(w, s.link, i) :: Unsent(s.writes, s.link, i + 1);
    } else {
      assert w.tail == s.writes.tail;
      assert forall i | 0 <= i < |w.tail| && Unsent(w, s.link, i) :: Unsent(s.writes, s.link, i);
      assert RetiredWrites(w) == RetiredWrites(s.writes)[1..];
      assert forall i, id, kind | Stale(RetiredWrites(w), i, id, kind) :: Stale(RetiredWrites(s.writes), i + 1, id, kind);
    }
  }

  lemma StartKeepsCorr(clean: bool, o: Options, s: State)
    requires CorrInv(clean, s) && WritesInv(o, s) && s.writes.tail != [] && Unsent(s.writes, s.link, 0)
    ensures var e := s.writes.tail[0];
      CorrInv(clean, s.(writes := StartHead(s.writes, false),
                 wire := s.wire.(sent := s.wire.sent + [LineOf(e)], open := s.wire.open + {LineOf(e)})))
  {
    var w := StartHead(s.writes, false);
    assert RetiredWrites(w) == RetiredWrites(s.writes);
    assert forall i | 0 <= i < |w.tail| && Unsent(w, s.link, i) :: i > 0 && Unsent(s.writes, s.link, i);
  }

  lemma TurnKeepsCorr(clean: bool, o: Options, s: State, retired: bool)
    requires CorrInv(clean, s) && WritesInv(o, s) && RoutesInv(s, None) && !Collides(s, TurnStep(retired))
    ensures CorrInv(clean, TurnWrite(o, s, retired))
  {
    var chain := Chain(s.writes, retired);
    if chain != [] && !chain[0].started {
      var e := chain[0];
      match TurnFault(s, e)
      case Some(f) =>
        ReleaseKeepsCorr(clean, o, s, retired);
        assert e.id in PendingMap(s.routes, e.kind) && !retired ==> Unsent(s.writes, s.link, 0);
        AbortRouteKeepsCorr(clean, o, s.(writes := ReleaseHead(s.writes, retired)), e.id, e.kind, !DefinitelyUnsent(f), f);
      case None =>
        OnlyCurrentStarts(o, s, retired);
        StartKeepsCorr(clean, o, s);
    }
  }

  lemma FinishKeepsCorr(clean: bool, o: Options, s: State, retired: bool, failed: bool)
    requires CorrInv(clean, s) && WritesInv(o, s) && RoutesInv(s, None)
    ensures CorrInv(clean, FinishWrite(o, s, retired, failed))
  {
    var chain := Chain(s.writes, retired);
    if chain != [] && chain[0].started {
      ReleaseKeepsCorr(clean, o, s, retired);
      AbortRouteKeepsCorr(clean, o, s.(writes := ReleaseHead(s.writes, retired)), chain[0].id, chain[0].kind, true, StdinFailure);
    }
  }

  lemma DropRetiredKeepsCorr(clean: bool, s: State)
    requires CorrInv(clean, s)
    ensures CorrInv(clean, s.(writes := DropRetired(s.writes)))
  {
    var w := DropRetired(s.writes);
    assert forall i | 0 <= i < |w.tail| && Unsent(w, s.link, i) :: Unsent(s.writes, s.link, i);
  }

  // ---------- messages ----------

  /** The line that caused a terminal message is closed before the message is handled. */
  lemma EndLineKeepsCorr(clean: bool, s: State, m: Message, x: Line)
    requires CorrInv(clean, s) && x in s.wire.open && Answers(m, x)
    ensures CorrInv(clean, s.(wire := EndLine(s.wire, m, Some(x))))
    ensures Terminal(m) ==> NoTrace(s.(wire := EndLine(s.wire, m, Some(x))), x.id)
  {
  }

  lemma RecordKeepsCorr(clean: bool, s: State, x: Line)
    requires CorrInv(clean, s)
    ensures CorrInv(clean, Record(s, x.owner, Some(x)))
  {
  }

  lemma DropTombstoneKeepsCorr(clean: bool, s: State, id: RequestId)
    requires CorrInv(clean, s) && NoTrace(s, id)
    ensures CorrInv(clean, DropTombstone(s, id))
  {
  }

  lemma ClearFinishedKeepsAll(clean: bool, o: Options, s: State, id: RequestId, kind: Kind)
    requires CorrInv(clean, s) && WritesInv(o, s) && RoutesInv(s, None) && NoTrace(s, id) && id in PendingMap(s.routes, kind)
    ensures var t := ClearRoute(o, s, id, kind, false); var owner := PendingMap(s.routes, kind)[id].owner;
      CorrInv(clean, t) && WritesInv(o, t) && RoutesInv(t, Some(owner)) && (owner.ControlRoute? ==> t.link.child.Some?)
  {
    ClearRouteKeepsCorr(clean, o, s, id, kind, false);
    ClearRouteKeepsWrites(o, s, id, kind, false);
    ClearFinishedKeeps(o, s, id, kind);
  }

  lemma ResponseKeepsCorr(clean: bool, o: Options, s: State, id: RequestId, reply: Reply, x: Line)
    requires CorrInv(clean, s) && WritesInv(o, s) && RoutesInv(s, None) && s.link.child.Some?
    requires x.id == id && x.kind.Unary? && Routed(s.routes, s.link.tombstones, x) && NoTrace(s, id)
    ensures CorrInv(clean, HandleResponse(o, s, id, reply, Some(x)))
  {
    hide ClearRoute, AdvanceHandshake, DropTombstone, WritesOk, KnownOk, SentOk, QueueOk, StaleOk;
    if id in s.routes.pendingResponses {
      var s0 := Record(s, x.owner, Some(x));
      RecordKeepsCorr(clean, s, x);
      assert WritesInv(o, s0);
      ClearFinishedKeepsAll(clean, o, s0, id, Unary);
      var s1 := ClearRoute(o, s0, id, Unary, false);
      if x.owner.ControlRoute? {
        AdvanceKeepsCorr(clean, o, s1, reply);
      }
    } else {
      DropTombstoneKeepsCorr(clean, s, id);
    }
  }

  lemma EventKeepsCorr(clean: bool, o: Options, s: State, id: RequestId, t: EventType, queued: bool, x: Line)
    requires CorrInv(clean, s) && WritesInv(o, s) && RoutesInv(s, None) && s.link.child.Some?
    requires x.id == id && x.kind.Stream? && Routed(s.routes, s.link.tombstones, x)
    requires Terminal(Event(id, t)) ==> NoTrace(s, id)
    ensures CorrInv(clean, HandleEvent(o, s, id, t, queued, Some(x)))
  {
    if id in s.routes.pendingStreams {
      if !queued {
        AbortRouteKeepsCorr(clean, o, s, id, Stream, true, StreamOverflow);
      } else {
        var s0 := Record(s, x.owner, Some(x));
        RecordKeepsCorr(clean, s, x);
        match t
        case Completed => ClearRouteKeepsCorr(clean, o, s0, id, Stream, false);
        case ErrorEvent(code) => AbortRouteKeepsCorr(clean, o, s0, id, Stream, false, BackendReported(code));
        case _ =>
      }
    } else if Terminal(Event(id, t)) {
      DropTombstoneKeepsCorr(clean, s, id);
    }
  }

  lemma DeliverKeepsCorr(clean: bool, o: Options, s: State, g: Generation, m: Message, queued: bool, cause: Option<Line>)
    requires CorrInv(clean, s) && WritesInv(o, s) && RoutesInv(s, None)
    requires Honest(s, DeliverStep(g, m, queued, cause))
    ensures CorrInv(clean, Deliver(o, s, g, m, queued, cause))
  {
    if s.link.child == Some(g) {
      if m.Malformed? {
        TerminateKeepsCorr(clean, s, InvalidMessage);
      } else {
        var x := cause.value;
        var s1 := s.(wire := EndLine(s.wire, m, cause));
        EndLineKeepsCorr(clean, s, m, x);
        assert WritesInv(o, s1);
        match m
        case Response(id, reply) => ResponseKeepsCorr(clean, o, s1, id, reply, x);
        case Event(id, t) => EventKeepsCorr(clean, o, s1, id, t, queued, x);
        case _ =>
      }
    }
  }

  // ---------- runs ----------

  lemma CallerStepKeepsCorr(clean: bool, o: Options, s: State, t: Step)
    requires CorrInv(clean, s) && WritesInv(o, s) && RoutesInv(s, None) && (clean ==> Clean(s, t)) && CallerStep(t)
    ensures CorrInv(clean, Apply(o, s, t))
  {
    match t
    case RequestStep(id, size, encodable) => RequestKeepsCorr(clean, o, s, id, size, encodable);
    case StreamStep(id, size, encodable) => OpenStreamKeepsCorr(clean, o, s, id, size, encodable);
    case ScheduleStep(c) => ScheduleKeepsCorr(clean, o, s, c);
    case ContinueStep(c) => ContinueKeepsCorr(clean, o, s, c);
    case SettleHandshakeStep =>
    case GrantSlotStep => GrantSlotKeepsCorr(clean, o, s);
    case TimeoutStep(id) => TimeoutKeepsCorr(clean, o, s, id);
    case CancelStep(id) => CancelKeepsCorr(clean, o, s, id);
    case _ =>
  }

  lemma ChildStepKeepsCorr(clean: bool, o: Options, s: State, t: Step)
    requires CorrInv(clean, s) && WritesInv(o, s) && RoutesInv(s, None) && Honest(s, t) && !Collides(s, t) && !CallerStep(t)
    ensures CorrInv(clean, Apply(o, s, t))
  {
    match t
    case TurnStep(retired) => TurnKeepsCorr(clean, o, s, retired);
    case FinishStep(retired, failed) => FinishKeepsCorr(clean, o, s, retired, failed);
    case RetiredDrainedStep => DropRetiredKeepsCorr(clean, s);
    case DeliverStep(g, m, queued, cause) => DeliverKeepsCorr(clean, o, s, g, m, queued, cause);
    case ChildFailedStep(g, f) => TerminateKeepsCorr(clean, s, f);
    case TombstoneTimerStep => TerminateKeepsCorr(clean, s.(link := s.link.(tombstoneTimer := false)), LateOutputTimeout);
    case QuarantineTimerStep =>
    case CloseStep => TerminateKeepsCorr(clean, s.(closed := true), BackendClosed);
    case _ =>
  }

  lemma StepKeepsCorr(clean: bool, o: Options, s: State, t: Step)
    requires CorrInv(clean, s) && WritesInv(o, s) && RoutesInv(s, None) && Honest(s, t)
    requires !Collides(s, t) && (clean ==> Clean(s, t))
    ensures CorrInv(clean, Apply(o, s, t))
  {
    hide Apply, CorrInv, WritesInv, RoutesInv, Honest, Clean, Collides;
    if CallerStep(t) {
      CallerStepKeepsCorr(clean, o, s, t);
    } else {
      ChildStepKeepsCorr(clean, o, s, t);
    }
  }

  /** Callers that keep to clean ids never cause a collision. */
  lemma CleanNeverCollides(s: State, t: Step)
    requires CorrInv(true, s)
    ensures !Collides(s, t)
  {
    if RetiredWrites(s.writes) != [] {
      var e := RetiredWrites(s.writes)[0];
      assert !e.started ==> Stale(RetiredWrites(s.writes), 0, e.id, e.kind);
      assert e.id in PendingMap(s.routes, e.kind) ==> e.id in KindIds(s.routes, e.kind);
    }
  }

  lemma {:induction false} RunKeepsCorr(clean: bool, o: Options, trace: seq<State>, steps: seq<Step>, n: nat)
    requires HonestRun(o, trace, steps) && n <= |steps|
    requires if clean then CleanRun(trace, steps) else forall i | 0 <= i < n :: !Collides(trace[i], steps[i])
    requires trace[0] == INITIAL
    ensures CorrInv(clean, trace[n]) && WritesInv(o, trace[n]) && RoutesInv(trace[n], None)
  {
    hide Apply, CorrInv, WritesInv, RoutesInv, Honest, Clean, Collides;
    InitialOk(clean, o);
    RunKeepsWrites(o, trace, steps, n);
    if n > 0 {
      RunKeepsCorr(clean, o, trace, steps, n - 1);
      assert Honest(trace[n - 1], steps[n - 1]);
      if clean {
        assert Clean(trace[n - 1], steps[n - 1]);
        CleanNeverCollides(trace[n - 1], steps[n - 1]);
      }
      StepKeepsCorr(clean, o, trace[n - 1], steps[n - 1]);
      assert trace[n - 1 + 1] == Apply(o, trace[n - 1], steps[n - 1]);
    }
  }

  lemma InitialOk(clean: bool, o: Options)
    ensures RoutesInv(INITIAL, None) && WritesInv(o, INITIAL) && CorrInv(clean, INITIAL)
  {
  }

  lemma HonestlyReachableOk(o: Options, s: State)
    requires HonestlyReachable(o, s)
    ensures Reachable(o, s) && RoutesInv(s, None) && WritesInv(o, s) && CorrInv(false, s)
  {
    hide Apply, WritesInv, RoutesInv, CorrInv, Honest, Collides;
    var trace, steps :| HonestRun(o, trace, steps) && NoCollision(trace, steps) && trace[0] == INITIAL && trace[|steps|] == s;
    assert forall i {:trigger trace[i]} | 0 <= i < |steps| :: !Collides(trace[i], steps[i]);
    RunKeepsCorr(false, o, trace, steps, |steps|);
  }

  /** Over every run with an honest backend and without a collision, every response and event
      reaches the caller that sent the line which caused it, and nothing is ever quarantined. */
  lemma Correlation(o: Options, s: State)
    requires HonestlyReachable(o, s)
    ensures Correlated(s.wire.delivered) && OwnRoutes(s) && !s.link.quarantined
  {
    hide WritesInv, RoutesInv;
    HonestlyReachableOk(o, s);
  }

  /** A caller meets that condition by asking, before a call, for an id that no waiting write of
      its kind carries. */
  lemma CleanIdsCorrelate(o: Options, trace: seq<State>, steps: seq<Step>)
    requires HonestRun(o, trace, steps) && CleanRun(trace, steps) && trace[0] == INITIAL
    ensures NoCollision(trace, steps) && HonestlyReachable(o, trace[|steps|])
  {
    hide Apply, Honest, Clean, Collides, CorrInv, WritesInv, RoutesInv;
    forall i: nat | i < |steps| ensures !Collides(trace[i], steps[i]) {
      RunKeepsCorr(true, o, trace, steps, i);
      CleanNeverCollides(trace[i], steps[i]);
    }
  }

  /** The colliding turn drops the route without a tombstone, and leaves lines and queue alone. */
  lemma CollisionDropsRoute(o: Options, s: State)
    requires WritesInv(o, s) && RoutesInv(s, None) && !s.link.quarantined && Collides(s, TurnStep(true))
    ensures var e := RetiredWrites(s.writes)[0]; var t := TurnWrite(o, s, true); var r := PendingMap(s.routes, e.kind)[e.id].owner;
      && e.id !in RouteIds(t.routes) && e.id !in t.link.tombstones
      && t.link == s.link && t.wire == s.wire && t.writes.tail == s.writes.tail
      && (r.CallerRoute? ==> r.call < |t.calls| && t.calls[r.call].stage == Settled(Failed(BackendClosed)))
  {
    hide ChainOk, ChargeOk, KnownOk, SentOk, CallsOk, PromotionsOk, HandshakeOk;
    var e := RetiredWrites(s.writes)[0];
    ClearedRoutesKeep(s, e.id, e.kind);
    assert TurnFault(s, e) == Some(BackendClosed);
  }

  lemma CollisionLosesRoute(o: Options, s: State, t: Step)
    requires CorrInv(false, s) && WritesInv(o, s) && RoutesInv(s, None) && Collides(s, t)
    ensures !OwnRoutes(Apply(o, s, t))
  {
    hide TurnWrite, WritesInv, RoutesInv, OpenOk, QueueOk, Correlated, RouteIds;
    CollisionDropsRoute(o, s);
    var e, u := RetiredWrites(s.writes)[0], TurnWrite(o, s, true);
    NotRouted(u, e.id);
    if i :| 0 <= i < |s.writes.tail| && Unsent(s.writes, s.link, i) && s.writes.tail[i].id == e.id {
      assert Unsent(u.writes, u.link, i);
    }
  }

  lemma NotRouted(s: State, id: RequestId)
    requires id !in RouteIds(s.routes) && id !in s.link.tombstones
    ensures forall x: Line | x.id == id :: !Routed(s.routes, s.link.tombstones, x)
  {
  }

  /** The condition is exact: with an honest backend every line keeps its own route or tombstone
      throughout a run if and only if no step of the run collides. */
  lemma CorrelationIff(o: Options, trace: seq<State>, steps: seq<Step>)
    requires HonestRun(o, trace, steps) && trace[0] == INITIAL
    ensures NoCollision(trace, steps) <==> forall n | 0 <= n <= |steps| :: OwnRoutes(trace[n])
  {
    hide Apply, Honest, Collides, WritesInv, RoutesInv;
    if NoCollision(trace, steps) {
      forall n | 0 <= n <= |steps| ensures OwnRoutes(trace[n]) {
        assert forall i {:trigger trace[i]} | 0 <= i < n :: !Collides(trace[i], steps[i]);
        RunKeepsCorr(false, o, trace, steps, n);
      }
    } else {
      var k: nat :| k < |steps| && Collides(trace[k], steps[k]);
      var n := FirstCollision(trace, steps, k);
      assert forall i {:trigger trace[i]} | 0 <= i < n :: !Collides(trace[i], steps[i]);
      RunKeepsCorr(false, o, trace, steps, n);
      CollisionLosesRoute(o, trace[n], steps[n]);
      assert trace[n + 1] == Apply(o, trace[n], steps[n]);
    }
  }

  lemma {:induction false} FirstCollision(trace: seq<State>, steps: seq<Step>, k: nat) returns (n: nat)
    requires |trace| == |steps| + 1 && k < |steps| && Collides(trace[k], steps[k])
    ensures n <= k && Collides(trace[n], steps[n]) && forall i | 0 <= i < n :: !Collides(trace[i], steps[i])
  {
    hide Collides;
    n := k;
    if j: nat :| j < k && Collides(trace[j], steps[j]) {
      n := FirstCollision(trace, steps, j);
    }
  }

  // ---------- what the invariant buys at one step ----------

  /** Whatever well-formed message an honest backend sends finds the own route of the line it
      answers, or that line's tombstone: it is never discarded as late, taken for a message of the
      wrong kind or quarantined. */
  lemma DeliveryFindsItsRoute(o: Options, s: State, step: Step)
    requires HonestlyReachable(o, s) && step.DeliverStep? && Honest(s, step)
    requires s.link.child == Some(step.child) && !step.message.Malformed?
    ensures var x, id := step.cause.value, step.message.id; var r := PendingMap(s.routes, x.kind);
      if id in r then r[id].owner == x.owner
      else id in s.link.tombstones && s.link.tombstones[id] == x.kind && id !in RouteIds(s.routes)
  {
    hide WritesInv, QueueOk, CallsOk, PromotionsOk, HandshakeOk;
    HonestlyReachableOk(o, s);
    assert Routed(s.routes, s.link.tombstones, step.cause.value);
  }

  /** A line goes out only while its own route is pending. */
  lemma WrittenForItsOwner(o: Options, s: State, step: Step, t: State)
    requires HonestlyReachable(o, s) && Next(o, s, step, t) && t.wire.sent != s.wire.sent
    ensures s.writes.tail != []
    ensures var e := s.writes.tail[0];
      && t.wire.sent == s.wire.sent + [LineOf(e)]
      && e.id in PendingMap(s.routes, e.kind) && PendingMap(s.routes, e.kind)[e.id].owner == e.owner
  {
    hide Apply, WritesInv, OpenOk, CallsOk, PromotionsOk, HandshakeOk;
    HonestlyReachableOk(o, s);
    WriteGate(o, s, step, t);
    assert Unsent(s.writes, s.link, 0);
  }

  /** A promise that resolves, resolves with what the backend said to that caller's own line,
      while the line was open. */
  lemma SuccessAnswersOwnLine(o: Options, s: State, step: Step, t: State, i: CallId)
    requires HonestlyReachable(o, s) && Honest(s, step) && Next(o, s, step, t)
    requires Succeeded(t.calls, i) && !Succeeded(s.calls, i)
    ensures step.DeliverStep? && step.cause.Some?
    ensures step.cause.value in s.wire.open && step.cause.value.owner == CallerRoute(i)
    ensures step.cause.value.id == t.calls[i].id && step.cause.value.kind == t.calls[i].kind
    ensures Some(t.calls[i].stage.outcome) == Serving(step.message, step.queued)
  {
    hide Apply, WritesInv, QueueOk, CallsOk, PromotionsOk, HandshakeOk;
    HonestlyReachableOk(o, s);
    SuccessIsExplained(o, s, step, t, i);
    assert Routed(s.routes, s.link.tombstones, step.cause.value);
  }
}
