/** How a call gets on: what admission, the handshake, the slot and the turn of its write make of it.
    Every waiting call whose turn has come moves, to its line or to a fault that says why not. */
module TransportProgress {
  import opened Common
  import opened TransportState
  import opened TransportSteps
  import opened TransportRuns
  import opened TransportRoutes
  import opened TransportCallers
  import opened TransportWrites
  import opened TransportFlow
  import opened TransportOutcomes

  // ---------- the call starts ----------

  /** The call has asked for a handshake. */
  predicate Joined(g: Stage) {
    g.AwaitingHandshake? || g.HandshakeDone? || g.HandshakeFailed?
  }

  /** A new call is refused with the fault of its id and changes nothing else; or it waits under its
      id, a request for the handshake, a stream for its first microtask. */
  lemma CallStarts(o: Options, s: State, kind: Kind, id: RequestId, size: nat, encodable: bool, t: State)
    requires Reachable(o, s)
    requires Next(o, s, if kind.Unary? then RequestStep(id, size, encodable) else StreamStep(id, size, encodable), t)
    ensures var f := AdmissionFault(o, s, id, false); var c := |s.calls|;
      && c < |t.calls| && t.calls[c].id == id && t.calls[c].kind == kind
      && (f.Some? ==> t.calls[c].stage == Settled(Failed(f.value)) && t == s.(calls := t.calls))
      && (f.None? ==>
            && WaitingStage(t.calls[c].stage) && (kind.Stream? <==> t.calls[c].unscheduled)
            && (kind.Unary? ==> Joined(t.calls[c].stage))
            && t.calls[c].size == size && t.calls[c].encodable == encodable
            && (if kind.Unary? then id in t.routes.waitingRequests && t.routes.waitingRequests[id] == c
                else id in t.routes.waitingStreams && t.routes.waitingStreams[id] == c))
  {
    hide Apply, AdmissionFault, JoinHandshake;
    var step := if kind.Unary? then RequestStep(id, size, encodable) else StreamStep(id, size, encodable);
    NextIs(o, s, step, t);
    CallStartsWaiting(o, s, kind, id, size, encodable);
  }

  lemma CallStartsWaiting(o: Options, s: State, kind: Kind, id: RequestId, size: nat, encodable: bool)
    requires Reachable(o, s)
    ensures var t := Apply(o, s, if kind.Unary? then RequestStep(id, size, encodable) else StreamStep(id, size, encodable));
      var f := AdmissionFault(o, s, id, false); var c := |s.calls|;
      && c < |t.calls| && t.calls[c].id == id && t.calls[c].kind == kind
      && (f.Some? ==> t.calls[c].stage == Settled(Failed(f.value)) && t == s.(calls := t.calls))
      && (f.None? ==>
            && WaitingStage(t.calls[c].stage) && (kind.Stream? <==> t.calls[c].unscheduled)
            && (kind.Unary? ==> Joined(t.calls[c].stage))
            && t.calls[c].size == size && t.calls[c].encodable == encodable
            && (if kind.Unary? then id in t.routes.waitingRequests && t.routes.waitingRequests[id] == c
                else id in t.routes.waitingStreams && t.routes.waitingStreams[id] == c))
  {
    hide AdmissionFault, EnsureHandshake, AdmittedRoutes;
    ReachableRoutes(o, s);
    if kind.Unary? && AdmissionFault(o, s, id, false).None? {
      var call := Call(id, Unary, size, encodable, false, Starting);
      AdmissionIsValid(o, s, id);
      AdmittedKeeps(s, call);
      AdmittedIs(s.routes, id, |s.calls|);
      var s1 := s.(calls := s.calls + [call], routes := AdmittedRoutes(s.routes, id, Unary, |s.calls|));
      EnsureHandshakeKeeps(o, s1);
      JoinedStage(o, s1);
      JoinKeeps(o, s1, |s.calls|);
      var u := JoinHandshake(o, s1, |s.calls|);
      InWaitingOf(u, |s.calls|);
    }
  }

  lemma JoinedStage(o: Options, s: State)
    ensures Joined(EnsureHandshake(o, s).1)
  {
    hide StartChild, BeginControl, ControlFault;
  }

  /** The first microtask of a stream that still waits asks for a handshake, once. */
  lemma StreamJoins(o: Options, s: State, c: CallId, t: State)
    requires Reachable(o, s) && Next(o, s, ScheduleStep(c), t) && c < |s.calls| && s.calls[c].unscheduled
    ensures c < |t.calls| && !t.calls[c].unscheduled
    ensures if s.calls[c].stage.Settled? then t.calls[c].stage == s.calls[c].stage else Joined(t.calls[c].stage)
  {
    hide EnsureHandshake, MapsOk, KeysOk, PromotionsOk, HandshakeOk, LinkOk;
    NextIs(o, s, ScheduleStep(c), t);
    ReachableRoutes(o, s);
    assert CallOk(s.calls[c], c, s.routes, s.handshake, s.link.handshakeState, None);
    var s1 := s.(calls := s.calls[c := s.calls[c].(unscheduled := false)]);
    ScheduledKeepsRoutes(s, c);
    EnsureHandshakeKeeps(o, s1);
    JoinedStage(o, s1);
  }

  lemma ScheduledKeepsRoutes(s: State, c: CallId)
    requires RoutesInv(s, None) && c < |s.calls|
    ensures RoutesInv(s.(calls := s.calls[c := s.calls[c].(unscheduled := false)]), None)
  {
    hide KeysOk, HandshakeOk, LinkOk;
    var s1 := s.(calls := s.calls[c := s.calls[c].(unscheduled := false)]);
    forall d | 0 <= d < |s1.calls|
      ensures CallOk(s1.calls[d], d, s1.routes, s1.handshake, s1.link.handshakeState, None)
    {
      assert CallOk(s.calls[d], d, s.routes, s.handshake, s.link.handshakeState, None);
    }
  }

  lemma AdmissionIsValid(o: Options, s: State, id: RequestId)
    requires AdmissionFault(o, s, id, false).None?
    ensures ValidationFault(s, id, false).None?
  {
  }

  lemma AdmittedIs(r: Routes, id: RequestId, c: CallId)
    ensures AdmittedRoutes(r, id, Unary, c) == r.(waitingIds := r.waitingIds + {id}, waitingRequests := r.waitingRequests[id := c])
  {
  }

  lemma InWaitingOf(s: State, c: CallId)
    requires RoutesInv(s, None) && c < |s.calls| && WaitingStage(s.calls[c].stage)
    ensures InWaiting(s.routes, s.calls[c], c)
  {
    hide MapsOk, KeysOk, PromotionsOk, HandshakeOk, LinkOk;
    assert CallOk(s.calls[c], c, s.routes, s.handshake, s.link.handshakeState, None);
  }

  // ---------- the call becomes a route ----------

  /** Its line is queued for the running child, under its own pending route. */
  predicate LineQueued(s: State, t: State, c: CallId) {
    && c < |s.calls| && c < |t.calls| && t.calls[c].stage.Issued?
    && InPending(t.routes, s.calls[c], c)
    && |t.writes.tail| == |s.writes.tail| + 1 && t.writes.tail[..|s.writes.tail|] == s.writes.tail
    && var e := t.writes.tail[|s.writes.tail|];
    && e.id == s.calls[c].id && e.kind == s.calls[c].kind && e.owner == CallerRoute(c) && e.bytes == s.calls[c].size
    && !e.started && s.link.child == Some(e.child)
  }

  /** What becomes of a call whose turn to be written has come. */
  ghost predicate Goes(o: Options, s: State, t: State, c: CallId)
    requires c < |s.calls|
  {
    var call := s.calls[c];
    if s.link.quarantined then Fails(t, call, c, ProtocolQuarantined)
    else if !call.encodable then Fails(t, call, c, InvalidRequest)
    else if call.size > o.frameLimitBytes then Fails(t, call, c, FrameTooLarge)
    else if s.writes.count >= o.writeQueueLimit || s.writes.bytes > o.writeQueueBytesLimit - call.size then
      Fails(t, call, c, WriteQueueOverflow)
    else LineQueued(s, t, c)
  }

  /** It fails, and leaves neither a route nor a tombstone. */
  ghost predicate Fails(t: State, call: Call, c: CallId, f: Fault) {
    FailedWith(t.calls, c, f) && call.id !in RouteIds(t.routes) && call.id !in t.link.tombstones
  }

  lemma RejectWaitingFails(s: State, s1: State, c: CallId, f: Fault)
    requires RoutesInv(s, None) && c < |s.calls| && WaitingStage(s.calls[c].stage)
    requires s1 == s.(routes := Promoted(s.routes, s.calls[c].id)) || s1 == s
    ensures Fails(RejectWaiting(s1, c, f), s.calls[c], c, f)
  {
    hide PromotionsOk, HandshakeOk;
    assert CallOk(s.calls[c], c, s.routes, s.handshake, s.link.handshakeState, None);
    assert s.calls[c].id in RouteIds(s.routes);
  }

  lemma IssuedGoes(o: Options, s: State, c: CallId, slot: bool)
    requires RoutesInv(s, None) && c < |s.calls| && WaitingStage(s.calls[c].stage) && !s.calls[c].stage.Starting?
    requires Negotiated(s.link.handshakeState) && !s.link.quarantined
    ensures var call := s.calls[c];
      var s2 := s.(routes := IssuedRoutes(s.routes, call, c, slot), calls := s.calls[c := call.(stage := Issued)]);
      var t := match WriteFault(o, s2, call.size, call.encodable)
               case Some(f) => AbortRoute(o, s2, call.id, call.kind, !DefinitelyUnsent(f), f)
               case None => s2.(writes := AdmitWrite(s2.writes, call.id, call.kind, CallerRoute(c), call.size, s2.link.child.value));
      Goes(o, s, t, c)
  {
    hide MapsOk, CallsOk, KeysOk, PromotionsOk, HandshakeOk, AbortRoute;
    var call := s.calls[c];
    var s2 := s.(routes := IssuedRoutes(s.routes, call, c, slot), calls := s.calls[c := call.(stage := Issued)]);
    IssuedKeeps(s, c, slot);
    IssuedIsPending(s, c, slot);
    var f := WriteFault(o, s2, call.size, call.encodable);
    if f.Some? {
      AbortSettles(o, s2, call.id, call.kind, false, f.value, c);
      AbortLeavesNoTombstone(o, s2, call.id, call.kind, f.value);
    }
  }

  lemma IssuedIsPending(s: State, c: CallId, slot: bool)
    requires RoutesInv(s, None) && c < |s.calls| && WaitingStage(s.calls[c].stage)
    ensures var r := IssuedRoutes(s.routes, s.calls[c], c, slot);
      InPending(r, s.calls[c], c) && s.calls[c].id in PendingMap(r, s.calls[c].kind)
      && PendingMap(r, s.calls[c].kind)[s.calls[c].id] == PendingRoute(CallerRoute(c), slot)
      && s.calls[c].id !in s.link.tombstones
  {
    hide PromotionsOk, HandshakeOk;
    assert CallOk(s.calls[c], c, s.routes, s.handshake, s.link.handshakeState, None);
  }

  lemma AbortLeavesNoTombstone(o: Options, s: State, id: RequestId, kind: Kind, f: Fault)
    requires id !in s.link.tombstones && !s.link.quarantined
    ensures id !in AbortRoute(o, s, id, kind, false, f).link.tombstones
  {
  }

  lemma IssueCallGoes(o: Options, s: State, s1: State, c: CallId, slot: bool)
    requires RoutesInv(s, None) && c < |s.calls| && WaitingStage(s.calls[c].stage) && !s.calls[c].stage.Starting?
    requires Negotiated(s.link.handshakeState)
    requires s1 == s.(routes := Promoted(s.routes, s.calls[c].id)) || (s1 == s && s.calls[c].id in s.routes.activeIds)
    ensures Goes(o, s, IssueCall(o, s1, c, slot), c)
  {
    hide MapsOk, CallsOk, PromotionsOk, HandshakeOk, WriteFault, AbortRoute, AdmitWrite, RejectWaiting, Fails;
    var call := s.calls[c];
    InWaitingOf(s, c);
    if s.link.quarantined {
      RejectWaitingFails(s, s1, c, ProtocolQuarantined);
    } else {
      assert Promoted(s1.routes, call.id) == Promoted(s.routes, call.id);
      IssuedGoes(o, s, c, slot);
      var s2 := SetStage(s1.(routes := ForgetWaiting(s1.routes, call.id, call.kind)), c, Issued);
      if s1 == s {
        assert s.routes.waitingIds - {call.id} == s.routes.waitingIds;
        assert s.routes.activeIds + {call.id} == s.routes.activeIds;
      }
      assert PendingRoutes(s2.routes, call.id, call.kind, PendingRoute(CallerRoute(c), slot)) == IssuedRoutes(s.routes, call, c, slot);
    }
  }

  /** Once its handshake has settled a call goes on: it fails with the fault of the handshake, or of
      the quarantine; with single flight it queues for the slot, at the end; otherwise a stream waits
      for its turn, and a request or a stream whose turn has come goes. */
  lemma ContinueMoves(o: Options, s: State, c: CallId, t: State)
    requires ValidOptions(o) && Reachable(o, s) && Next(o, s, ContinueStep(c), t) && c < |s.calls|
    ensures var call := s.calls[c];
      && (call.stage.HandshakeFailed? ==> Fails(t, call, c, call.stage.fault))
      && (call.stage.HandshakeDone? && IsSingleFlight(s.link.handshakeState) && call.kind.Unary? && s.link.quarantined ==>
            Fails(t, call, c, ProtocolQuarantined))
      && (call.stage.HandshakeDone? && IsSingleFlight(s.link.handshakeState) && (call.kind.Stream? || !s.link.quarantined) ==>
            t.calls == s.calls[c := call.(stage := AwaitingSlot)] && t.slots == s.slots.(queue := s.slots.queue + [c]))
      && (call.stage.HandshakeDone? && s.link.handshakeState.Ready? && call.kind.Stream? ==>
            t == s.(calls := s.calls[c := call.(stage := ReadyToIssue)]))
      && ((call.stage.HandshakeDone? && s.link.handshakeState.Ready? && call.kind.Unary?) || call.stage.ReadyToIssue? ==> Goes(o, s, t, c))
  {
    hide Apply, Goes, Fails, RoutesInv;
    NextIs(o, s, ContinueStep(c), t);
    ReachableRoutes(o, s);
    ContinueStepMoves(o, s, c);
  }

  lemma ContinueStepMoves(o: Options, s: State, c: CallId)
    requires ValidOptions(o) && Reachable(o, s) && RoutesInv(s, None) && c < |s.calls|
    ensures var call := s.calls[c]; var t := Apply(o, s, ContinueStep(c));
      && (call.stage.HandshakeFailed? ==> Fails(t, call, c, call.stage.fault))
      && (call.stage.HandshakeDone? && IsSingleFlight(s.link.handshakeState) && call.kind.Unary? && s.link.quarantined ==>
            Fails(t, call, c, ProtocolQuarantined))
      && (call.stage.HandshakeDone? && IsSingleFlight(s.link.handshakeState) && (call.kind.Stream? || !s.link.quarantined) ==>
            t.calls == s.calls[c := call.(stage := AwaitingSlot)] && t.slots == s.slots.(queue := s.slots.queue + [c]))
      && (call.stage.HandshakeDone? && s.link.handshakeState.Ready? && call.kind.Stream? ==>
            t == s.(calls := s.calls[c := call.(stage := ReadyToIssue)]))
      && ((call.stage.HandshakeDone? && s.link.handshakeState.Ready? && call.kind.Unary?) || call.stage.ReadyToIssue? ==> Goes(o, s, t, c))
  {
    hide Goes, Fails, RejectWaiting, PromoteFault, PromoteAndIssue, RoutesInv;
    var call := s.calls[c];
    StageOk(s, c);
    if call.stage.HandshakeFailed? {
      RejectWaitingFails(s, s, c, call.stage.fault);
    } else if call.stage.HandshakeDone? || call.stage.ReadyToIssue? {
      PromotionNeverRefused(o, s, c);
      RejectWaitingFails(s, s, c, ProtocolQuarantined);
      PromoteGoes(o, s, c, false);
    }
  }

  lemma StageOk(s: State, c: CallId)
    requires RoutesInv(s, None) && c < |s.calls|
    ensures var g := s.calls[c].stage; g.HandshakeDone? || g.AwaitingSlot? || g.ReadyToIssue? ==> Negotiated(s.link.handshakeState)
    ensures s.calls[c].stage.ReadyToIssue? ==> s.link.handshakeState.Ready? && s.calls[c].kind.Stream?
  {
    hide MapsOk, KeysOk, PromotionsOk, HandshakeOk, LinkOk;
    assert CallOk(s.calls[c], c, s.routes, s.handshake, s.link.handshakeState, None);
  }

  lemma PromoteGoes(o: Options, s: State, c: CallId, slot: bool)
    requires RoutesInv(s, None) && c < |s.calls| && Negotiated(s.link.handshakeState)
    requires WaitingStage(s.calls[c].stage) && !s.calls[c].stage.Starting?
    requires PromoteFault(o, s, s.calls[c].id) == ProbeFault(s)
    ensures Goes(o, s, PromoteAndIssue(o, s, c, slot), c)
  {
    hide RoutesInv, PromoteFault, RejectWaiting, IssueCall, Fails;
    if s.link.quarantined {
      RejectWaitingFails(s, s, c, ProtocolQuarantined);
    } else {
      IssueCallGoes(o, s, s.(routes := Promoted(s.routes, s.calls[c].id)), c, slot);
    }
  }

  /** When the chain of the slot has no holder, its first caller that still waits gets the slot and
      goes; one that has settled meanwhile just leaves the chain. */
  lemma GrantMoves(o: Options, s: State, t: State)
    requires ValidOptions(o) && Reachable(o, s) && Next(o, s, GrantSlotStep, t)
    requires s.slots.queue != [] && !s.slots.granted
    ensures var c := s.slots.queue[0];
      && c < |s.calls|
      && (s.calls[c].stage.AwaitingSlot? ==> Goes(o, s, t, c))
      && (s.calls[c].stage.Settled? ==> t == s.(slots := Slots(s.slots.queue[1..], false)))
      && (s.calls[c].stage.AwaitingSlot? || s.calls[c].stage.Settled?)
  {
    hide Apply, Goes, RoutesInv, SlotsOk, LoadOk;
    NextIs(o, s, GrantSlotStep, t);
    ReachableFlow(o, s);
    GrantStepMoves(o, s);
  }

  lemma GrantStepMoves(o: Options, s: State)
    requires ValidOptions(o) && Reachable(o, s) && RoutesInv(s, None) && FlowInv(o, s, None)
    requires s.slots.queue != [] && !s.slots.granted
    ensures var c := s.slots.queue[0]; var t := Apply(o, s, GrantSlotStep);
      && c < |s.calls|
      && (s.calls[c].stage.AwaitingSlot? ==> Goes(o, s, t, c))
      && (s.calls[c].stage.Settled? ==> t == s.(slots := Slots(s.slots.queue[1..], false)))
      && (s.calls[c].stage.AwaitingSlot? || s.calls[c].stage.Settled?)
  {
    hide Fails, PromoteFault, PromoteAndIssue, IssueCall, RoutesInv, LoadOk;
    var c := s.slots.queue[0];
    if s.calls[c].stage.AwaitingSlot? {
      StageOk(s, c);
      var s1 := s.(slots := s.slots.(granted := true));
      SlotKeepsRoutes(s, s1.slots);
      if s.calls[c].kind.Unary? {
        PromotedUnary(s, c);
        IssueCallGoes(o, s1, s1, c, true);
      } else {
        PromotionNeverRefused(o, s, c);
        PromoteIgnoresSlots(o, s, s1.slots, s.calls[c].id);
        PromoteGoes(o, s1, c, true);
      }
    }
  }

  lemma SlotKeepsRoutes(s: State, l: Slots)
    requires RoutesInv(s, None)
    ensures RoutesInv(s.(slots := l), None)
  {
    hide MapsOk, CallsOk, KeysOk, PromotionsOk, HandshakeOk, LinkOk;
  }

  lemma PromoteIgnoresSlots(o: Options, s: State, l: Slots, id: RequestId)
    ensures PromoteFault(o, s.(slots := l), id) == PromoteFault(o, s, id)
  {
  }

  lemma PromotedUnary(s: State, c: CallId)
    requires RoutesInv(s, None) && c < |s.calls| && s.calls[c].stage.AwaitingSlot? && s.calls[c].kind.Unary?
    ensures s.calls[c].id in s.routes.activeIds
  {
    hide HandshakeOk, LinkOk;
    InWaitingOf(s, c);
  }

  // ---------- the turn of a write ----------

  /** The line at the head of the running child's chain goes out exactly when its turn comes, a route
      is pending under its id, and, for a caller, nothing is closed or quarantined. */
  lemma WrittenIff(o: Options, s: State, step: Step, t: State)
    requires Reachable(o, s) && Next(o, s, step, t)
    ensures t.wire.sent != s.wire.sent <==>
              step == TurnStep(false) && s.writes.tail != [] && !s.writes.tail[0].started
              && s.link.child == Some(s.writes.tail[0].child)
              && (s.writes.tail[0].id in s.routes.pendingResponses || s.writes.tail[0].id in s.routes.pendingStreams)
              && (s.writes.tail[0].owner.CallerRoute? ==> !s.link.quarantined && !s.closed)
  {
    hide RoutesInv, WritesInv;
    NextIs(o, s, step, t);
    WriteGate(o, s, step, t);
    ReachableRoutes(o, s);
    ChildIsUp(s);
    if step == TurnStep(false) {
      TurnIs(o, s);
    }
  }

  lemma TurnIs(o: Options, s: State)
    ensures Apply(o, s, TurnStep(false)) == TurnWrite(o, s, false)
  {
    hide TurnWrite;
  }

  lemma ChildIsUp(s: State)
    requires RoutesInv(s, None)
    ensures s.link.child.Some? ==> !s.link.handshakeState.Blocked?
  {
    hide MapsOk, CallsOk, KeysOk, PromotionsOk, HandshakeOk;
  }

  /** A queued write that cannot go out any more leaves its chain at its turn, and the call that is
      pending under its id and kind, if any, fails with the fault. */
  lemma RefusedTurn(o: Options, s: State, retired: bool, t: State, c: CallId)
    requires Reachable(o, s) && Next(o, s, TurnStep(retired), t)
    requires var chain := Chain(s.writes, retired);
      && chain != [] && !chain[0].started && chain[0].owner.CallerRoute?
      && (s.link.quarantined || s.link.child != Some(chain[0].child))
      && chain[0].id in PendingMap(s.routes, chain[0].kind) && PendingMap(s.routes, chain[0].kind)[chain[0].id].owner == CallerRoute(c)
    ensures var e := Chain(s.writes, retired)[0];
      && FailedWith(t.calls, c, if s.link.quarantined then ProtocolQuarantined else BackendClosed) && e.id !in RouteIds(t.routes)
  {
    hide AbortRoute, ReleaseHead, RoutesInv, RouteIds;
    NextIs(o, s, TurnStep(retired), t);
    ReachableRoutes(o, s);
    var e := Chain(s.writes, retired)[0];
    PendingNeedsChild(s, e.id, e.kind);
    ChildIsUp(s);
    WritesKeepRoutes(s, ReleaseHead(s.writes, retired));
    AbortSettles(o, s.(writes := ReleaseHead(s.writes, retired)), e.id, e.kind, false, if s.link.quarantined then ProtocolQuarantined else BackendClosed, c);
  }

  lemma PendingNeedsChild(s: State, id: RequestId, kind: Kind)
    requires RoutesInv(s, None) && id in PendingMap(s.routes, kind)
    ensures s.link.child.Some? && !s.closed
  {
    hide MapsOk, CallsOk, KeysOk, PromotionsOk, HandshakeOk;
  }

  lemma WritesKeepRoutes(s: State, w: Writes)
    requires RoutesInv(s, None)
    ensures RoutesInv(s.(writes := w), None)
  {
    hide MapsOk, CallsOk, KeysOk, PromotionsOk, HandshakeOk, LinkOk;
  }

  /** A stdin failure fails the call that is pending under the id of the line, and the late answer is
      waited for, since the line may have gone out. */
  lemma FailedWrite(o: Options, s: State, retired: bool, t: State, c: CallId)
    requires Reachable(o, s) && Next(o, s, FinishStep(retired, true), t)
    requires var chain := Chain(s.writes, retired);
      && chain != [] && chain[0].started
      && chain[0].id in PendingMap(s.routes, chain[0].kind) && PendingMap(s.routes, chain[0].kind)[chain[0].id].owner == CallerRoute(c)
    ensures var e := Chain(s.writes, retired)[0];
      && FailedWith(t.calls, c, StdinFailure) && e.id !in RouteIds(t.routes) && Buried(t.link, e.id, e.kind)
      && (t.link.child.Some? ==> OthersAlone(s.calls, t.calls, c))
  {
    hide AbortRoute, ReleaseHead, RoutesInv, RouteIds;
    NextIs(o, s, FinishStep(retired, true), t);
    ReachableRoutes(o, s);
    var e := Chain(s.writes, retired)[0];
    WritesKeepRoutes(s, ReleaseHead(s.writes, retired));
    AbortSettles(o, s.(writes := ReleaseHead(s.writes, retired)), e.id, e.kind, true, StdinFailure, c);
  }

  // ---------- the handshake settles ----------

  /** A handshake that has failed reaches everyone who awaits it, with its fault. */
  lemma HandshakeFaultArrives(o: Options, s: State, t: State)
    requires Reachable(o, s) && Next(o, s, SettleHandshakeStep, t) && s.handshake.Failing?
    ensures t.handshake.Idle? && |t.calls| == |s.calls|
    ensures forall c | 0 <= c < |s.calls| && s.calls[c].stage.AwaitingHandshake? ::
              t.calls[c].stage == HandshakeFailed(s.handshake.fault) || FailedWith(t.calls, c, ProtocolQuarantined)
    ensures t.link.child.Some? || s.link.child.None? ==>
              forall c | 0 <= c < |s.calls| ::
                t.calls[c] == if s.calls[c].stage.AwaitingHandshake? then s.calls[c].(stage := HandshakeFailed(s.handshake.fault)) else s.calls[c]
  {
    hide RoutesInv, LiveCalls, RetireWrites, RouteIds;
    NextIs(o, s, SettleHandshakeStep, t);
    ReachableRoutes(o, s);
    QuarantineNeedsChild(s);
  }

  lemma QuarantineNeedsChild(s: State)
    requires RoutesInv(s, None)
    ensures s.link.quarantined ==> s.link.child.Some?
  {
    hide MapsOk, CallsOk, KeysOk, PromotionsOk, HandshakeOk;
  }

  // ---------- events of a stream ----------

  /** An event that its stream's queue cannot take fails the stream and is waited for as late output; an
      error event fails it with the reported code; in both cases its id is free. Any other event of a
      stream that is not its last changes nothing but what has been delivered. */
  lemma StreamEvents(o: Options, s: State, g: Generation, e: EventType, id: RequestId, queued: bool, cause: Option<Line>, t: State, c: CallId)
    requires Reachable(o, s) && Next(o, s, DeliverStep(g, Event(id, e), queued, cause), t) && s.link.child == Some(g)
    requires id in s.routes.pendingStreams && s.routes.pendingStreams[id].owner == CallerRoute(c)
    ensures !queued ==> FailedWith(t.calls, c, StreamOverflow) && id !in RouteIds(t.routes) && Buried(t.link, id, Stream)
    ensures queued && e.ErrorEvent? ==> FailedWith(t.calls, c, BackendReported(e.code)) && id !in RouteIds(t.routes)
    ensures queued && (e.RunItem? || e.AgentUpdated?) ==>
              t == s.(wire := s.wire.(delivered := s.wire.delivered + [Delivery(c, cause)]))
  {
    hide AbortRoute, ClearRoute, SettleCall, RoutesInv, RouteIds;
    NextIs(o, s, DeliverStep(g, Event(id, e), queued, cause), t);
    ReachableRoutes(o, s);
    var s1 := s.(wire := EndLine(s.wire, Event(id, e), cause));
    WireKeepsRoutes(s, s1.wire);
    if !queued {
      AbortSettles(o, s1, id, Stream, true, StreamOverflow, c);
    } else if e.ErrorEvent? {
      var s2 := Record(s1, CallerRoute(c), cause);
      WireKeepsRoutes(s, s2.wire);
      AbortSettles(o, s2, id, Stream, false, BackendReported(e.code), c);
    }
  }

  lemma WireKeepsRoutes(s: State, w: Wire)
    requires RoutesInv(s, None)
    ensures RoutesInv(s.(wire := w), None)
  {
    hide MapsOk, CallsOk, KeysOk, PromotionsOk, HandshakeOk, LinkOk;
  }

  /** A message of the wrong kind for the route or tombstone of its id tears everything down. */
  lemma WrongKindTearsDown(o: Options, s: State, g: Generation, m: Message, queued: bool, cause: Option<Line>, t: State)
    requires Reachable(o, s) && Next(o, s, DeliverStep(g, m, queued, cause), t) && s.link.child == Some(g) && !m.Malformed?
    requires var other := if m.Response? then Stream else Unary;
      m.id in PendingMap(s.routes, other) || (m.id in s.link.tombstones && s.link.tombstones[m.id] == other)
    ensures TornDown(s, t, if m.Response? then UnexpectedResponse else UnexpectedEvent)
  {
    hide Terminate, MapsOk, CallsOk, PromotionsOk, HandshakeOk, ClearRoute, AbortRoute, AdvanceHandshake, DiscardOrQuarantine;
    NextIs(o, s, DeliverStep(g, m, queued, cause), t);
    ReachableRoutes(o, s);
    var f := if m.Response? then UnexpectedResponse else UnexpectedEvent;
    TerminateTearsDown(s, f, None);
    TerminateIgnores(s, s.(wire := EndLine(s.wire, m, cause)), f);
  }

  // ---------- late and unknown messages ----------

  /** A late terminal message of the right kind takes its tombstone away and touches nothing else; a late
      event that is not the last of its stream touches nothing at all. */
  lemma LateAnswerIsAbsorbed(o: Options, s: State, g: Generation, m: Message, queued: bool, cause: Option<Line>, t: State)
    requires Reachable(o, s) && Next(o, s, DeliverStep(g, m, queued, cause), t) && s.link.child == Some(g) && !m.Malformed?
    requires m.id in s.link.tombstones && s.link.tombstones[m.id] == (if m.Response? then Unary else Stream)
    ensures t.calls == s.calls && t.routes == s.routes && t.handshake == s.handshake && t.wire.delivered == s.wire.delivered
    ensures var left := if Terminal(m) then s.link.tombstones - {m.id} else s.link.tombstones;
      t.link == s.link.(tombstones := left, tombstoneTimer := left != map[])
  {
    hide MapsOk, CallsOk, KeysOk, PromotionsOk, HandshakeOk, Terminate, ClearRoute, AbortRoute, AdvanceHandshake, DiscardOrQuarantine;
    NextIs(o, s, DeliverStep(g, m, queued, cause), t);
    ReachableRoutes(o, s);
  }

  /** A message for an id that nothing accounts for puts the transport into quarantine, and the child is
      replaced at once if nothing is pending or at the bound of the quarantine, where everyone fails. */
  lemma UnknownIdIsQuarantined(o: Options, s: State, g: Generation, m: Message, queued: bool, cause: Option<Line>, t: State)
    requires Reachable(o, s) && Next(o, s, DeliverStep(g, m, queued, cause), t) && s.link.child == Some(g) && !m.Malformed?
    requires m.id !in s.routes.pendingResponses && m.id !in s.routes.pendingStreams
    requires m.id !in s.link.tombstones && m.id !in s.link.quarantinedIds
    ensures
      if |s.link.quarantinedIds| >= o.quarantineLimit then TornDown(s, t, QuarantineLimit)
      else if s.handshake.Idle? && RouteIds(s.routes) == {} then TornDown(s, t, ProtocolQuarantined) && !t.link.quarantined
      else
        && t.link == s.link.(quarantinedIds := s.link.quarantinedIds + {m.id}, quarantined := true, quarantineTimer := true)
        && t.calls == s.calls && t.routes == s.routes
  {
    hide MapsOk, CallsOk, KeysOk, PromotionsOk, HandshakeOk, Terminate, RouteIds;
    NextIs(o, s, DeliverStep(g, m, queued, cause), t);
    ReachableRoutes(o, s);
    var s1 := s.(wire := EndLine(s.wire, m, cause));
    TerminateTearsDown(s, QuarantineLimit, None);
    TerminateTearsDown(s, ProtocolQuarantined, None);
    TerminateIgnores(s, s1, QuarantineLimit);
    var s2 := s1.(link := s.link.(quarantinedIds := s.link.quarantinedIds + {m.id}, quarantined := false, quarantineTimer := false));
    TerminateIgnores(s, s2, ProtocolQuarantined);
    LinkAfter(s2, ProtocolQuarantined);
  }

  lemma LinkAfter(s: State, f: Fault)
    requires s.link.child.Some? || !s.link.quarantined
    ensures !Terminate(s, f).link.quarantined
  {
    hide LiveCalls, SettleAll, RetireWrites;
  }

  lemma IdleRecycles(s: State)
    requires s.handshake.Idle? && RouteIds(s.routes) == {} && (s.link.quarantined || s.link.child.None?)
    ensures MaybeRecycle(s).link.child.None? && !MaybeRecycle(s).link.quarantined
  {
    hide LiveCalls, SettleAll, RetireWrites, RouteIds;
  }

  lemma TerminatedIs(s: State, f: Fault)
    requires s.handshake.Idle?
    ensures var t := Terminate(s, f); t.routes == NO_ROUTES && t.handshake.Idle? && t.link.child.None?
  {
    hide LiveCalls, SettleAll, RetireWrites;
  }

  /** The last route to go ends a quarantine: the child is replaced. */
  lemma LastRouteRecycles(o: Options, s: State, id: RequestId, kind: Kind, tombstone: bool)
    requires id in PendingMap(s.routes, kind) && RouteIds(ClearedRoutes(s.routes, id, kind)) == {}
    requires s.link.quarantined && s.handshake.Idle?
    ensures var t := ClearRoute(o, s, id, kind, tombstone); t.link.child.None? && !t.link.quarantined
  {
    hide Terminate, MaybeRecycle, ClearedSlots, ClearedRoutes, RouteIds;
    var s1 := s.(routes := ClearedRoutes(s.routes, id, kind),
                 slots := ClearedSlots(s.slots, kind, PendingMap(s.routes, kind)[id].owner));
    NoRoutesNoIds();
    TerminatedIs(s1, TombstoneLimit);
    IdleRecycles(if tombstone then AddTombstone(o, s1, id, kind) else s1);
  }

  lemma NoRoutesNoIds()
    ensures RouteIds(NO_ROUTES) == {}
  {
  }

  // ---------- write chains at a teardown ----------

  /** A child that is given up with unreleased writes leaves its chain detached, so that the next child is
      not held up by it; only if one is detached already is the next child blocked. Without unreleased
      writes nothing changes. */
  lemma TeardownDetaches(o: Options, s: State, f: Fault)
    requires Reachable(o, s) && s.link.child.Some?
    ensures var w := Terminate(s, f).writes;
      && (s.writes.tail == [] ==> w == s.writes)
      && (s.writes.tail != [] && s.writes.retired.None? ==> w == s.writes.(retired := Some(s.writes.tail), tail := []) && !w.recycleBlocked)
      && (s.writes.tail != [] && s.writes.retired.Some? ==> w == s.writes.(recycleBlocked := true))
  {
    hide RoutesInv, ChainOk, ChargeOk, KnownOk, SentOk;
    ReachableWrites(o, s);
    TerminateWrites(s, f);
    if s.writes.tail != [] {
      assert s.writes.tail[0].child == s.link.child.value;
    }
  }

  lemma TerminateWrites(s: State, f: Fault)
    requires s.link.child.Some?
    ensures Terminate(s, f).writes == RetireWrites(s.writes, s.link.child.value)
  {
    hide LiveCalls, SettleAll, RetireWrites;
  }

  /** A detached chain that has drained is forgotten, and the next one may be detached. */
  lemma DrainedIsForgotten(o: Options, s: State, t: State)
    requires Next(o, s, RetiredDrainedStep, t)
    ensures s.writes.retired == Some([]) ==> t.writes.retired.None? && t.writes.tail == s.writes.tail && (s.writes.tail == [] ==> !t.writes.recycleBlocked)
    ensures s.writes.retired != Some([]) ==> t == s
  {
    NextIs(o, s, RetiredDrainedStep, t);
  }
}
