/** What a step does: deadlines, cancellations, losses of the child and failures of a write reach
    the callers they concern, with the fault that belongs to them, and no others. */
module TransportOutcomes {
  import opened Common
  import opened TransportState
  import opened TransportSteps
  import opened TransportRuns
  import opened TransportRoutes
  import opened TransportCallers
  import opened TransportWrites

  predicate FailedWith(calls: seq<Call>, c: CallId, f: Fault) {
    c < |calls| && calls[c].stage == Settled(Failed(f))
  }

  /** The child is gone, or the id has left a tombstone of its kind. */
  predicate Buried(l: Link, id: RequestId, kind: Kind) {
    l.child.None? || (id in l.tombstones && l.tombstones[id] == kind)
  }

  /** Every caller but the one is as it was. */
  ghost predicate OthersAlone(a: seq<Call>, b: seq<Call>, c: CallId) {
    |a| == |b| && forall d | 0 <= d < |a| && d != c :: b[d] == a[d]
  }

  // ---------- teardown ----------

  /** Everyone unsettled fails with that fault; nobody else changes; no route and no child is left. */
  ghost predicate TornDown(s: State, t: State, f: Fault) {
    && t.link.child.None? && t.routes == NO_ROUTES
    && |t.calls| == |s.calls|
    && forall c | 0 <= c < |s.calls| ::
         if s.calls[c].stage.Settled? then t.calls[c] == s.calls[c] else FailedWith(t.calls, c, f)
  }

  lemma LiveAreUnsettled(s: State, limbo: Option<Owner>)
    requires RoutesInv(s, limbo) && limbo in {None, Some(ControlRoute)}
    ensures forall c | 0 <= c < |s.calls| :: c in LiveCalls(s.routes) <==> !s.calls[c].stage.Settled?
  {
    hide KeysOk, PromotionsOk, LiveCalls;
    forall c | 0 <= c < |s.calls| ensures c in LiveCalls(s.routes) <==> !s.calls[c].stage.Settled? {
      LiveCallsAre(s.calls, s.routes, s.handshake, s.link.handshakeState, limbo, c);
    }
  }

  lemma TerminateTearsDown(s: State, f: Fault, limbo: Option<Owner>)
    requires RoutesInv(s, limbo) && limbo in {None, Some(ControlRoute)}
    ensures TornDown(s, Terminate(s, f), f)
  {
    hide RoutesInv, LiveCalls, Terminate;
    LiveAreUnsettled(s, limbo);
    TerminateIs(s, f);
  }

  lemma TerminateIs(s: State, f: Fault)
    ensures var t := Terminate(s, f);
      t.link.child.None? && t.routes == NO_ROUTES && t.calls == SettleAll(s.calls, LiveCalls(s.routes), Failed(f))
  {
    hide LiveCalls, SettleAll, RetireWrites;
  }

  /** The loss of the child, a malformed line, a late terminal message that never came, the end of a
      quarantine and a close each fail every unsettled caller with the fault of that event. */
  lemma LossFailsEveryone(o: Options, s: State, step: Step, t: State, f: Fault)
    requires Reachable(o, s) && Next(o, s, step, t)
    requires
      || (step.ChildFailedStep? && s.link.child == Some(step.child) && f == step.fault)
      || (step.DeliverStep? && s.link.child == Some(step.child) && step.message.Malformed? && f == InvalidMessage)
      || (step.TombstoneTimerStep? && s.link.tombstones != map[] && f == LateOutputTimeout)
      || (step.QuarantineTimerStep? && s.link.quarantined && f == ProtocolQuarantined)
      || (step.CloseStep? && f == BackendClosed)
    ensures TornDown(s, t, f)
  {
    hide Apply, Terminate, MapsOk, CallsOk, KeysOk, PromotionsOk, HandshakeOk;
    NextIs(o, s, step, t);
    ReachableRoutes(o, s);
    assert LinkOk(s.link, s.routes, s.nextControl, s.closed);
    LossIsTermination(o, s, step, f);
  }

  lemma LossIsTermination(o: Options, s: State, step: Step, f: Fault)
    requires RoutesInv(s, None)
    requires
      || (step.ChildFailedStep? && s.link.child == Some(step.child) && f == step.fault)
      || (step.DeliverStep? && s.link.child == Some(step.child) && step.message.Malformed? && f == InvalidMessage)
      || (step.TombstoneTimerStep? && s.link.tombstones != map[] && f == LateOutputTimeout)
      || (step.QuarantineTimerStep? && s.link.quarantined && f == ProtocolQuarantined)
      || (step.CloseStep? && f == BackendClosed)
    ensures TornDown(s, Apply(o, s, step), f)
  {
    hide Terminate, MapsOk, CallsOk, KeysOk, PromotionsOk, HandshakeOk;
    TerminateTearsDown(s, f, None);
    match step
    case DeliverStep(g, m, queued, cause) => TerminateIgnores(s, s.(wire := EndLine(s.wire, m, cause)), f);
    case TombstoneTimerStep => TerminateIgnores(s, s.(link := s.link.(tombstoneTimer := false)), f);
    case QuarantineTimerStep =>
      TerminateIgnores(s, s.(link := s.link.(quarantined := false, quarantineTimer := false)), f);
    case CloseStep => TerminateIgnores(s, s.(closed := true), f);
    case _ =>
  }

  /** Flags, timers and the history of the wire make no difference to whom a teardown fails. */
  lemma TerminateIgnores(s: State, u: State, f: Fault)
    requires TornDown(s, Terminate(s, f), f)
    requires u.calls == s.calls && u.routes == s.routes && u.slots == s.slots && u.handshake == s.handshake && u.link.child == s.link.child
    ensures TornDown(s, Terminate(u, f), f)
  {
    hide LiveCalls, SettleAll;
  }

  // ---------- a pending route that is aborted ----------

  lemma ClearRouteBuries(o: Options, s: State, id: RequestId, kind: Kind, tombstone: bool)
    requires id in PendingMap(s.routes, kind)
    ensures var t := ClearRoute(o, s, id, kind, tombstone);
      && (tombstone ==> Buried(t.link, id, kind))
      && (t.link.child.Some? ==> t.calls == s.calls && t.link.child == s.link.child)
  {
    hide LiveCalls, SettleAll, RetireWrites, RouteIds;
  }

  lemma AbortSettles(o: Options, s: State, id: RequestId, kind: Kind, tombstone: bool, f: Fault, c: CallId)
    requires RoutesInv(s, None) && id in PendingMap(s.routes, kind) && PendingMap(s.routes, kind)[id].owner == CallerRoute(c)
    ensures var t := AbortRoute(o, s, id, kind, tombstone, f);
      && FailedWith(t.calls, c, f) && id !in RouteIds(t.routes)
      && (tombstone ==> Buried(t.link, id, kind))
      && (t.link.child.Some? ==> OthersAlone(s.calls, t.calls, c))
  {
    hide ClearRoute, MapsOk, CallsOk, KeysOk, PromotionsOk, HandshakeOk, LinkOk, Buried;
    ClearRouteKeeps(o, s, id, kind, tombstone);
    ClearRouteBuries(o, s, id, kind, tombstone);
    var t := ClearRoute(o, s, id, kind, tombstone);
    assert LimboOk(t.calls, t.routes, t.handshake, Some(CallerRoute(c)));
    SameIdThere(o, s, id, kind, tombstone, c);
  }

  lemma SameIdThere(o: Options, s: State, id: RequestId, kind: Kind, tombstone: bool, c: CallId)
    requires RoutesInv(s, None) && id in PendingMap(s.routes, kind) && PendingMap(s.routes, kind)[id].owner == CallerRoute(c)
    ensures var t := ClearRoute(o, s, id, kind, tombstone); c < |s.calls| && c < |t.calls| && t.calls[c].id == id
  {
    hide ClearRoute, CallsOk, KeysOk, PromotionsOk, HandshakeOk, LinkOk, SlotKept;
    ClearRouteKeepsCall(o, s, id, kind, tombstone, c);
  }

  /** A write of the id is under way: handed to stdin and not yet called back. */
  predicate UnderWay(w: Writes, id: RequestId) {
    HoldsStartedWrite(RetiredWrites(w), id) || HoldsStartedWrite(w.tail, id)
  }

  /** The local abort of a caller's pending route, from its deadline or from `cancel`: the caller
      fails, its id leaves every map, and a child that has the request half written or cannot tell
      requests apart is given up. Any other keeps running with a tombstone, unless there is no room for
      one or a quarantine has been waiting for the last route; and nobody else is touched. */
  ghost predicate Aborted(o: Options, s: State, t: State, id: RequestId, kind: Kind, fatal: bool, f: Fault, c: CallId) {
    && FailedWith(t.calls, c, f)
    && id !in RouteIds(t.routes)
    && (fatal || UnderWay(s.writes, id) ==> t.link.child.None?)
    && Buried(t.link, id, kind)
    && (t.link.child.Some? ==> OthersAlone(s.calls, t.calls, c))
    && (!fatal && !UnderWay(s.writes, id) && |s.link.tombstones| < o.tombstoneLimit && !s.link.quarantined ==>
          t.link == s.link.(tombstones := s.link.tombstones[id := kind], tombstoneTimer := true))
  }

  lemma RoomForTombstone(o: Options, s: State, id: RequestId, kind: Kind, f: Fault)
    requires id in PendingMap(s.routes, kind) && |s.link.tombstones| < o.tombstoneLimit && !s.link.quarantined
    ensures AbortRoute(o, s, id, kind, true, f).link == s.link.(tombstones := s.link.tombstones[id := kind], tombstoneTimer := true)
  {
    hide Terminate, ReleaseSlot;
  }

  lemma KilledToo(s: State, id: RequestId, kind: Kind, f: Fault, c: CallId)
    requires RoutesInv(s, None) && FailedWith(s.calls, c, f)
    ensures var t := Terminate(s, f); FailedWith(t.calls, c, f) && id !in RouteIds(t.routes) && t.link.child.None? && Buried(t.link, id, kind)
  {
    hide RoutesInv, Terminate;
    TerminateTearsDown(s, f, None);
  }

  lemma AbortPendingAborts(o: Options, s: State, id: RequestId, kind: Kind, f: Fault, fatal: bool, c: CallId)
    requires RoutesInv(s, None) && id in PendingMap(s.routes, kind) && PendingMap(s.routes, kind)[id].owner == CallerRoute(c)
    ensures Aborted(o, s, AbortPending(o, s, id, kind, f, fatal), id, kind, fatal, f, c)
  {
    hide AbortRoute, Terminate, RoutesInv, RouteIds, FailedWith, OthersAlone, HoldsStartedWrite, Buried;
    AbortSettles(o, s, id, kind, true, f, c);
    if |s.link.tombstones| < o.tombstoneLimit && !s.link.quarantined {
      RoomForTombstone(o, s, id, kind, f);
    }
    AbortRouteKeeps(o, s, id, kind, true, f);
    KilledToo(AbortRoute(o, s, id, kind, true, f), id, kind, f, c);
  }

  /** A deadline ends the call: whatever the backend does, the caller is told, its id is free of every
      route, and the child is recycled if it holds the request half written or cannot tell late answers
      from others; otherwise a tombstone waits for the late answer. */
  lemma TimeoutAborts(o: Options, s: State, id: RequestId, kind: Kind, c: CallId, t: State)
    requires Reachable(o, s) && Next(o, s, TimeoutStep(id), t)
    requires id in PendingMap(s.routes, kind) && PendingMap(s.routes, kind)[id].owner == CallerRoute(c)
    ensures Aborted(o, s, t, id, kind, PendingMap(s.routes, kind)[id].fatalOnTimeout, BackendTimeout, c)
  {
    hide AbortPending, Aborted, MapsOk, CallsOk, PromotionsOk, HandshakeOk, LinkOk;
    NextIs(o, s, TimeoutStep(id), t);
    ReachableRoutes(o, s);
    AbortPendingAborts(o, s, id, kind, BackendTimeout, PendingMap(s.routes, kind)[id].fatalOnTimeout, c);
  }

  /** So does a local cancellation of a call that is pending; the child is kept if nothing of the
      request is under way. */
  lemma CancelAborts(o: Options, s: State, id: RequestId, kind: Kind, c: CallId, t: State)
    requires Reachable(o, s) && Next(o, s, CancelStep(id), t)
    requires id in PendingMap(s.routes, kind) && PendingMap(s.routes, kind)[id].owner == CallerRoute(c)
    ensures Aborted(o, s, t, id, kind, false, RequestCancelled, c)
  {
    hide AbortPending, Aborted, MapsOk, CallsOk, PromotionsOk, HandshakeOk, LinkOk;
    NextIs(o, s, CancelStep(id), t);
    ReachableRoutes(o, s);
    AbortPendingAborts(o, s, id, kind, RequestCancelled, false, c);
  }

  /** A caller that still waits is told too; it leaves no tombstone and costs nobody anything. */
  lemma CancelWaiting(o: Options, s: State, id: RequestId, c: CallId, t: State)
    requires Reachable(o, s) && Next(o, s, CancelStep(id), t)
    requires (id in s.routes.waitingRequests && s.routes.waitingRequests[id] == c) || (id in s.routes.waitingStreams && s.routes.waitingStreams[id] == c)
    ensures FailedWith(t.calls, c, RequestCancelled) && id !in RouteIds(t.routes)
    ensures t.link == s.link && t.writes == s.writes && t.wire == s.wire && OthersAlone(s.calls, t.calls, c)
  {
    hide PromotionsOk, HandshakeOk, LinkOk, CallsOk;
    NextIs(o, s, CancelStep(id), t);
    ReachableRoutes(o, s);
  }

  /** The deadline of a probe fails the handshake and gives up the child. */
  lemma ProbeTimeout(o: Options, s: State, id: RequestId, t: State)
    requires Reachable(o, s) && Next(o, s, TimeoutStep(id), t)
    requires id in s.routes.pendingResponses && s.routes.pendingResponses[id] == PendingRoute(ControlRoute, true)
    ensures t.link.child.None? && t.routes == NO_ROUTES && t.handshake == Failing(BackendTimeout)
  {
    hide ClearRoute, LiveCalls, RetireWrites, SettleAll;
    NextIs(o, s, TimeoutStep(id), t);
  }
}
