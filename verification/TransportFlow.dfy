/** Flow control: the bound on admitted ids, the headroom kept for control routes, and the
    single-flight slot, over every run of the transport. */
module TransportFlow {
  import opened Common
  import opened TransportState
  import opened TransportSteps
  import opened TransportRuns
  import opened TransportRoutes
  import opened TransportCallers

  // ---------- the invariant ----------

  function Cap(o: Options, hs: HandshakeState, controlIds: set<RequestId>): int {
    if hs.Unknown? && controlIds == {} then o.maxInFlight - 1 else o.maxInFlight
  }

  /** One unit of capacity stays free for the control route that the next probe will need. */
  ghost predicate LoadOk(o: Options, r: Routes, hs: HandshakeState) {
    |RouteIds(r)| <= Cap(o, hs, r.controlIds)
  }

  /** The members of the slot chain are distinct; a granted head is an issued caller, the others
      wait or have settled; every waiting caller is in the chain; under single flight an issued
      caller holds the slot. */
  ghost predicate SlotsOk(calls: seq<Call>, q: Slots, l: Link, limbo: Option<Owner>) {
    && (q.granted ==> q.queue != [])
    && (forall i, j | 0 <= i < j < |q.queue| :: q.queue[i] != q.queue[j])
    && (forall i | 0 <= i < |q.queue| ::
          && q.queue[i] < |calls|
          && if q.granted && i == 0 then calls[q.queue[i]].stage.Issued?
             else calls[q.queue[i]].stage.AwaitingSlot? || calls[q.queue[i]].stage.Settled?)
    && (forall c | 0 <= c < |calls| && calls[c].stage.AwaitingSlot? :: c in q.queue)
    && (IsSingleFlight(l.handshakeState) ==>
          forall c | 0 <= c < |calls| && calls[c].stage.Issued? && limbo != Some(CallerRoute(c)) :: Granted(q, c))
    && (l.child.Some? && !IsSingleFlight(l.handshakeState) ==> q.queue == [])
  }

  ghost predicate FlowInv(o: Options, s: State, limbo: Option<Owner>) {
    && ValidOptions(o)
    && LoadOk(o, s.routes, s.link.handshakeState)
    && SlotsOk(s.calls, s.slots, s.link, limbo)
  }

  lemma SmallerLoad(small: set<RequestId>, large: set<RequestId>)
    requires small <= large
    ensures |small| <= |large|
  {
    assert large == small + (large - small);
  }

  lemma OneMore(ids: set<RequestId>, id: RequestId)
    ensures |ids + {id}| <= |ids| + 1
  {
    assert ids + {id} == ids || |ids + {id}| == |ids| + |{id}|;
  }

  lemma LoadIs(r: Routes)
    requires KeysOk(r)
    ensures |RouteIds(r)| == |r.waitingIds| + |r.activeIds|
  {
  }

  // ---------- teardown ----------

  lemma TerminateKeepsSlots(s: State, f: Fault, limbo: Option<Owner>)
    requires RoutesInv(s, limbo) && SlotsOk(s.calls, s.slots, s.link, limbo)
    ensures var t := Terminate(s, f); SlotsOk(t.calls, t.slots, t.link, limbo)
  {
    hide Terminate;
    var t := Terminate(s, f);
    TerminateEmpties(s, f, limbo);
    TerminateSlots(s, f);
    if s.slots.granted {
      LiveCallsAre(s.calls, s.routes, s.handshake, s.link.handshakeState, limbo, s.slots.queue[0]);
    }
  }

  lemma TerminateSlots(s: State, f: Fault)
    ensures Terminate(s, f).slots == ReleaseSlots(s.slots, LiveCalls(s.routes))
  {
    hide LiveCalls, SettleAll;
  }

  lemma TerminateKeepsFlow(o: Options, s: State, f: Fault, limbo: Option<Owner>)
    requires RoutesInv(s, limbo) && FlowInv(o, s, limbo)
    ensures FlowInv(o, Terminate(s, f), limbo)
  {
    hide Terminate, SlotsOk;
    TerminateKeepsSlots(s, f, limbo);
    TerminateEmpties(s, f, limbo);
    assert RouteIds(NO_ROUTES) == {};
  }

  lemma RecycleKeepsFlow(o: Options, s: State, limbo: Option<Owner>)
    requires RoutesInv(s, limbo) && FlowInv(o, s, limbo)
    ensures FlowInv(o, MaybeRecycle(s), limbo)
    ensures s.link.quarantineTimer ==> FlowInv(o, Recycle(s.(link := s.link.(quarantineTimer := false))), limbo)
  {
    hide Terminate, FlowInv;
    if s.link.quarantined {
      TerminateKeepsFlow(o, s, ProtocolQuarantined, limbo);
      RecycleIsTerminate(s, limbo);
    }
  }

  lemma RecycleIsTerminate(s: State, limbo: Option<Owner>)
    requires RoutesInv(s, limbo) && s.link.quarantined
    ensures Recycle(s) == Terminate(s, ProtocolQuarantined)
    ensures Recycle(s.(link := s.link.(quarantineTimer := false))) == Terminate(s, ProtocolQuarantined)
  {
  }

  // ---------- settling and clearing ----------

  lemma SettleKeepsSlots(s: State, c: CallId, outcome: Outcome, limbo: Option<Owner>)
    requires SlotsOk(s.calls, s.slots, s.link, limbo) && (limbo.None? || limbo == Some(CallerRoute(c)))
    ensures var t := SettleCall(s, c, outcome); SlotsOk(t.calls, t.slots, t.link, None)
  {
    var q := ReleaseSlot(s.slots, c);
    if Granted(s.slots, c) {
      assert forall i | 0 <= i < |q.queue| :: q.queue[i] == s.slots.queue[i + 1];
    } else {
      assert q == s.slots;
    }
  }

  lemma SettleKeepsFlow(o: Options, s: State, c: CallId, outcome: Outcome)
    requires FlowInv(o, s, Some(CallerRoute(c)))
    ensures FlowInv(o, SettleCall(s, c, outcome), None)
  {
    hide SlotsOk;
    SettleKeepsSlots(s, c, outcome, Some(CallerRoute(c)));
  }

  lemma ClearedKeepsSlots(s: State, id: RequestId, kind: Kind)
    requires RoutesInv(s, None) && SlotsOk(s.calls, s.slots, s.link, None) && id in PendingMap(s.routes, kind)
    ensures var owner := PendingMap(s.routes, kind)[id].owner;
      SlotsOk(s.calls, ClearedSlots(s.slots, kind, owner), s.link, Some(owner))
  {
    hide CallsOk, KeysOk, PromotionsOk, HandshakeOk, LinkOk;
    match PendingMap(s.routes, kind)[id].owner
    case CallerRoute(c) => assert s.calls[c].stage.Issued?;
    case ControlRoute =>
  }

  lemma ClearedKeepsFlow(o: Options, s: State, id: RequestId, kind: Kind)
    requires RoutesInv(s, None) && FlowInv(o, s, None) && id in PendingMap(s.routes, kind)
    ensures var owner := PendingMap(s.routes, kind)[id].owner;
      FlowInv(o, s.(routes := ClearedRoutes(s.routes, id, kind), slots := ClearedSlots(s.slots, kind, owner)), Some(owner))
  {
    hide SlotsOk, CallsOk, PromotionsOk, HandshakeOk, LinkOk;
    ClearedKeepsSlots(s, id, kind);
    ClearedKeysKeep(s.routes, id, kind);
    assert id in RouteIds(s.routes);
  }

  lemma ClearRouteKeepsFlow(o: Options, s: State, id: RequestId, kind: Kind, tombstone: bool)
    requires RoutesInv(s, None) && FlowInv(o, s, None) && id in PendingMap(s.routes, kind)
    ensures FlowInv(o, ClearRoute(o, s, id, kind, tombstone), Some(PendingMap(s.routes, kind)[id].owner))
  {
    hide SlotsOk, LoadOk, RoutesInv, Terminate, MaybeRecycle, ClearedRoutes, ClearedSlots;
    var owner := PendingMap(s.routes, kind)[id].owner;
    var s1 := s.(routes := ClearedRoutes(s.routes, id, kind), slots := ClearedSlots(s.slots, kind, owner));
    ClearedKeeps(s, id, kind);
    ClearedKeepsFlow(o, s, id, kind);
    if tombstone {
      ControlSerial(s, id, kind);
      AddTombstoneKeeps(o, s1, id, kind, Some(owner));
      AddTombstoneKeepsFlow(o, s1, id, kind, Some(owner));
      RecycleKeepsFlow(o, AddTombstone(o, s1, id, kind), Some(owner));
    } else {
      RecycleKeepsFlow(o, s1, Some(owner));
    }
  }

  lemma ControlSerial(s: State, id: RequestId, kind: Kind)
    requires RoutesInv(s, None) && id in PendingMap(s.routes, kind)
    ensures id.ControlId? ==> id.serial < s.nextControl
  {
    if PendingMap(s.routes, kind)[id].owner.CallerRoute? {
      var c := PendingMap(s.routes, kind)[id].owner.call;
      assert CallOk(s.calls[c], c, s.routes, s.handshake, s.link.handshakeState, None);
    }
  }

  lemma AddTombstoneKeepsFlow(o: Options, s: State, id: RequestId, kind: Kind, limbo: Option<Owner>)
    requires RoutesInv(s, limbo) && FlowInv(o, s, limbo)
    ensures FlowInv(o, AddTombstone(o, s, id, kind), limbo)
  {
    hide Terminate, LoadOk, RoutesInv;
    TerminateKeepsFlow(o, s, TombstoneLimit, limbo);
  }

  lemma RejectOwnerKeepsFlow(o: Options, s: State, owner: Owner, f: Fault)
    requires FlowInv(o, s, Some(owner))
    ensures FlowInv(o, RejectOwner(s, owner, f), None)
  {
    hide LoadOk, SettleCall;
    match owner
    case CallerRoute(c) => SettleKeepsFlow(o, s, c, Failed(f));
    case ControlRoute =>
  }

  lemma AbortRouteKeepsFlow(o: Options, s: State, id: RequestId, kind: Kind, tombstone: bool, f: Fault)
    requires RoutesInv(s, None) && FlowInv(o, s, None)
    ensures FlowInv(o, AbortRoute(o, s, id, kind, tombstone, f), None)
  {
    hide FlowInv, RoutesInv, ClearRoute, RejectOwner;
    if id in PendingMap(s.routes, kind) {
      var owner := PendingMap(s.routes, kind)[id].owner;
      ClearRouteKeepsFlow(o, s, id, kind, tombstone);
      RejectOwnerKeepsFlow(o, ClearRoute(o, s, id, kind, tombstone), owner, f);
    }
  }

  // ---------- issuing ----------

  lemma IssueKeepsFlow(o: Options, s: State, id: RequestId, kind: Kind, route: PendingRoute, size: nat, encodable: bool)
    requires var s1 := s.(routes := PendingRoutes(s.routes, id, kind, route)); RoutesInv(s1, None) && FlowInv(o, s1, None)
    ensures FlowInv(o, Issue(o, s, id, kind, route, size, encodable), None)
  {
    hide LoadOk, SlotsOk, RoutesInv, AbortRoute, PendingRoutes;
    var s1 := s.(routes := PendingRoutes(s.routes, id, kind, route));
    var f := WriteFault(o, s1, size, encodable);
    if f.Some? {
      AbortRouteKeepsFlow(o, s1, id, kind, !DefinitelyUnsent(f.value), f.value);
    }
  }

  /** Caller `c` may be issued: its slot has just been granted, or it needs none. */
  ghost predicate MayIssue(s: State, c: CallId, slot: bool) {
    && c < |s.calls|
    && if slot then Granted(s.slots, c) && s.calls[c].stage.AwaitingSlot?
                    && SlotsOk(s.calls, s.slots.(granted := false), s.link, None)
       else SlotsOk(s.calls, s.slots, s.link, None) && !IsSingleFlight(s.link.handshakeState)
            && WaitingStage(s.calls[c].stage) && !s.calls[c].stage.AwaitingSlot?
  }

  lemma IssuedKeepsSlots(s: State, c: CallId, slot: bool)
    requires MayIssue(s, c, slot)
    ensures SlotsOk(s.calls[c := StagedCall(s.calls[c], Issued)], s.slots, s.link, None)
  {
  }

  lemma RejectedKeepsSlots(s: State, c: CallId, slot: bool, f: Fault)
    requires MayIssue(s, c, slot)
    ensures var t := RejectWaiting(s, c, f); SlotsOk(t.calls, t.slots, t.link, None)
  {
    if slot {
      var t := RejectWaiting(s, c, f);
      assert t.slots == Slots(s.slots.queue[1..], false);
      assert forall i | 0 <= i < |t.slots.queue| :: t.slots.queue[i] == s.slots.queue[i + 1];
    } else {
      SettleKeepsSlots(s, c, Failed(f), None);
    }
  }

  lemma ForgottenKeepsLoad(o: Options, s: State, c: CallId, f: Fault)
    requires LoadOk(o, s.routes, s.link.handshakeState) && RoutesInv(s, None)
    requires c < |s.calls| && WaitingStage(s.calls[c].stage)
    ensures var t := RejectWaiting(s, c, f); LoadOk(o, t.routes, t.link.handshakeState)
  {
    var t := RejectWaiting(s, c, f);
    ForgottenKeysKeep(s, c, f);
    var id := s.calls[c].id;
    assert CallOk(s.calls[c], c, s.routes, s.handshake, s.link.handshakeState, None);
    assert id !in s.routes.controlIds;
    assert t.routes.controlIds == s.routes.controlIds - {id} == s.routes.controlIds;
    SmallerLoad(RouteIds(t.routes), RouteIds(s.routes));
  }

  lemma RejectWaitingKeepsFlow(o: Options, s: State, c: CallId, f: Fault)
    requires RoutesInv(s, None) && FlowInv(o, s, None) && c < |s.calls| && WaitingStage(s.calls[c].stage)
    ensures FlowInv(o, RejectWaiting(s, c, f), None)
  {
    hide LoadOk, SlotsOk, RoutesInv;
    ForgottenKeepsLoad(o, s, c, f);
    SettleKeepsSlots(s, c, Failed(f), None);
  }

  lemma IssuedKeepsLoad(o: Options, s: State, c: CallId, slot: bool)
    requires RoutesInv(s, None) && LoadOk(o, s.routes, s.link.handshakeState) && c < |s.calls| && WaitingStage(s.calls[c].stage)
    ensures LoadOk(o, IssuedRoutes(s.routes, s.calls[c], c, slot), s.link.handshakeState)
  {
    hide RoutesInv, RouteIds, KeysOk;
    IssuedKeysKeep(s, c, slot);
    assert IssuedRoutes(s.routes, s.calls[c], c, slot).controlIds == s.routes.controlIds;
  }

  lemma IssuedKeepsFlow(o: Options, s: State, c: CallId, slot: bool)
    requires RoutesInv(s, None) && LoadOk(o, s.routes, s.link.handshakeState) && ValidOptions(o) && MayIssue(s, c, slot)
    ensures FlowInv(o, s.(calls := s.calls[c := StagedCall(s.calls[c], Issued)], routes := IssuedRoutes(s.routes, s.calls[c], c, slot)), None)
  {
    hide SlotsOk, LoadOk, RoutesInv, IssuedRoutes, StagedCall;
    IssuedKeepsLoad(o, s, c, slot);
    IssuedKeepsSlots(s, c, slot);
  }

  /** `s1` is `s` with the id of the waiting caller promoted, or `s` itself if it already was. */
  lemma IssueCallKeepsFlow(o: Options, s: State, s1: State, c: CallId, slot: bool)
    requires RoutesInv(s, None) && LoadOk(o, s.routes, s.link.handshakeState) && ValidOptions(o) && MayIssue(s, c, slot)
    requires !s.calls[c].stage.Starting? && Negotiated(s.link.handshakeState)
    requires s1 == s.(routes := Promoted(s.routes, s.calls[c].id)) || (s1 == s && s.calls[c].id in s.routes.activeIds)
    ensures FlowInv(o, IssueCall(o, s1, c, slot), None)
  {
    hide SlotsOk, LoadOk, MapsOk, CallsOk, PromotionsOk, HandshakeOk, LinkOk, Issue;
    var call := s.calls[c];
    PromotedAgain(s, s1, c);
    match IssueFault(s1)
    case Some(f) =>
      RejectedKeepsSlots(s, c, slot, f);
      ForgottenKeepsLoad(o, s, c, f);
      var r0, r1 := RejectWaiting(s, c, f).routes, RejectWaiting(s1, c, f).routes;
      assert r0.activeIds == r1.activeIds && r0.waitingIds == r1.waitingIds;
      assert RejectWaiting(s1, c, f) == RejectWaiting(s, c, f);
    case None =>
      IssuedKeeps(s, c, slot);
      IssuedKeepsFlow(o, s, c, slot);
      var s2 := SetStage(s1.(routes := ForgetWaiting(s1.routes, call.id, call.kind)), c, Issued);
      IssueKeepsFlow(o, s2, call.id, call.kind, PendingRoute(CallerRoute(c), slot), call.size, call.encodable);
  }

  lemma PromotedAgain(s: State, s1: State, c: CallId)
    requires RoutesInv(s, None) && c < |s.calls|
    requires s1 == s.(routes := Promoted(s.routes, s.calls[c].id)) || (s1 == s && s.calls[c].id in s.routes.activeIds)
    ensures Promoted(s1.routes, s.calls[c].id) == Promoted(s.routes, s.calls[c].id)
    ensures s1.routes == Promoted(s.routes, s.calls[c].id)
  {
    hide MapsOk, CallsOk, PromotionsOk, HandshakeOk, LinkOk;
    var id := s.calls[c].id;
    assert s1 == s ==> s.routes.waitingIds - {id} == s.routes.waitingIds && s.routes.activeIds + {id} == s.routes.activeIds;
  }

  lemma PromoteAndIssueKeepsFlow(o: Options, s: State, c: CallId, slot: bool)
    requires RoutesInv(s, None) && LoadOk(o, s.routes, s.link.handshakeState) && ValidOptions(o) && MayIssue(s, c, slot)
    requires !s.calls[c].stage.Starting? && Negotiated(s.link.handshakeState)
    ensures FlowInv(o, PromoteAndIssue(o, s, c, slot), None)
  {
    hide SlotsOk, LoadOk, RoutesInv, PromoteFault, IssueCall;
    match PromoteFault(o, s, s.calls[c].id)
    case Some(f) =>
      RejectedKeepsSlots(s, c, slot, f);
      ForgottenKeepsLoad(o, s, c, f);
    case None => IssueCallKeepsFlow(o, s, s.(routes := Promoted(s.routes, s.calls[c].id)), c, slot);
  }

  // ---------- handshake ----------

  /** The free unit of capacity: a control route is never refused for want of it. */
  lemma ControlHasRoom(o: Options, s: State, limbo: Option<Owner>)
    requires RoutesInv(s, limbo) && LoadOk(o, s.routes, s.link.handshakeState)
    requires s.link.handshakeState.Unknown? && (limbo == Some(ControlRoute) || !s.handshake.Running?)
    ensures s.routes.controlIds == {} && |s.routes.waitingIds| + |s.routes.activeIds| < o.maxInFlight
  {
    hide CallsOk, PromotionsOk, LinkOk;
    assert forall id | id in s.routes.pendingResponses :: s.routes.pendingResponses[id].owner.CallerRoute?;
    LoadIs(s.routes);
  }

  lemma ProbeKeepsFlow(o: Options, s: State, id: RequestId, phase: Phase, limbo: Option<Owner>)
    requires RoutesInv(s, limbo) && FlowInv(o, s, limbo) && (limbo == Some(ControlRoute) || limbo.None?)
    requires s.link.handshakeState.Unknown? && (limbo == Some(ControlRoute) || s.handshake.Idle?)
    requires RouteIds(ProbeRoutes(s.routes, id)) == RouteIds(s.routes) + {id}
    ensures FlowInv(o, s.(nextControl := s.nextControl + 1, handshake := Running(phase, id), routes := ProbeRoutes(s.routes, id)), None)
  {
    hide CallsOk, MapsOk, PromotionsOk, LinkOk, HandshakeOk;
    ControlHasRoom(o, s, limbo);
    assert id in ProbeRoutes(s.routes, id).controlIds;
    LoadIs(s.routes);
    OneMore(RouteIds(s.routes), id);
  }

  lemma BeginControlKeepsFlow(o: Options, s: State, phase: Phase, limbo: Option<Owner>)
    requires RoutesInv(s, limbo) && FlowInv(o, s, limbo) && (limbo == Some(ControlRoute) || limbo.None?)
    requires s.link.handshakeState.Unknown? && (limbo == Some(ControlRoute) || s.handshake.Idle?)
    requires s.link.child.Some? && ValidationFault(s, ControlId(s.nextControl), true).None?
    ensures FlowInv(o, BeginControl(o, s, phase), None)
  {
    hide FlowInv, Issue;
    var id := ControlId(s.nextControl);
    ProbeRoutesKeep(s, id, phase, limbo);
    ProbeKeeps(s, phase, limbo);
    ProbeKeepsFlow(o, s, id, phase, limbo);
    IssueKeepsFlow(o, s.(nextControl := s.nextControl + 1, handshake := Running(phase, id), routes := ReserveControl(s.routes, id)),
                   id, Unary, PendingRoute(ControlRoute, true), o.controlLineBytes, true);
  }

  lemma StartChildKeepsFlow(o: Options, s: State)
    requires RoutesInv(s, None) && FlowInv(o, s, None) && !s.closed && s.link.handshakeState.Unknown?
    ensures FlowInv(o, StartChild(s), None)
  {
    if s.link.child.None? {
      assert s.routes.controlIds == {};
      assert StartChild(s).routes == s.routes;
      forall c | 0 <= c < |s.calls| ensures !s.calls[c].stage.AwaitingSlot? {
        assert CallOk(s.calls[c], c, s.routes, s.handshake, s.link.handshakeState, None);
      }
    }
  }

  lemma EnsureHandshakeKeepsFlow(o: Options, s: State)
    requires RoutesInv(s, None) && FlowInv(o, s, None)
    ensures FlowInv(o, EnsureHandshake(o, s).0, None)
  {
    hide RoutesInv, LoadOk, SlotsOk, BeginControl, StartChild;
    if !s.closed && s.link.handshakeState.Unknown? && s.handshake.Idle? && !s.writes.recycleBlocked {
      StartChildKeeps(s);
      StartChildKeepsFlow(o, s);
      var s1 := StartChild(s);
      StartedChild(s);
      if ControlFault(o, s1).None? {
        BeginControlKeepsFlow(o, s1, Hello, None);
      }
    }
  }

  lemma StartedChild(s: State)
    requires s.link.handshakeState.Unknown?
    ensures var t := StartChild(s); t.link.child.Some? && t.link.handshakeState.Unknown? && t.handshake == s.handshake
  {
  }

  lemma StagedKeepsSlots(s: State, c: CallId, g: Stage)
    requires SlotsOk(s.calls, s.slots, s.link, None) && WaitingStage(g) && !g.AwaitingSlot?
    requires c < |s.calls| ==> !s.calls[c].stage.AwaitingSlot? && !s.calls[c].stage.Issued?
    ensures SlotsOk(SetStage(s, c, g).calls, s.slots, s.link, None)
  {
  }

  lemma JoinKeepsFlow(o: Options, s: State, c: CallId)
    requires RoutesInv(s, None) && FlowInv(o, s, None)
    requires c < |s.calls| && (s.calls[c].stage.Starting? || s.calls[c].stage.Settled?)
    ensures FlowInv(o, JoinHandshake(o, s, c), None)
  {
    hide RoutesInv, LoadOk, SlotsOk, EnsureHandshake;
    EnsureHandshakeKeeps(o, s);
    EnsureHandshakeKeepsFlow(o, s);
    StagedKeepsSlots(EnsureHandshake(o, s).0, c, EnsureHandshake(o, s).1);
  }

  lemma AwakenedKeepsSlots(s: State, g: Stage, l: Link, limbo: Option<Owner>)
    requires SlotsOk(s.calls, s.slots, s.link, limbo) && (limbo.None? || limbo == Some(ControlRoute))
    requires WaitingStage(g) && !g.AwaitingSlot?
    requires l == s.link || (s.slots.queue == [] && forall c | 0 <= c < |s.calls| :: !s.calls[c].stage.Issued?)
    ensures SlotsOk(AwakenAll(s.calls, g), s.slots, l, None)
  {
  }

  lemma NegotiateKeepsFlow(o: Options, s: State, h: HandshakeState)
    requires RoutesInv(s, Some(ControlRoute)) && FlowInv(o, s, Some(ControlRoute)) && s.link.child.Some? && Negotiated(h)
    ensures FlowInv(o, Negotiate(s, h), None)
  {
    hide MapsOk, KeysOk, PromotionsOk, MaybeRecycle, AwakenAll, RouteIds;
    forall c | 0 <= c < |s.calls| ensures !s.calls[c].stage.Issued? {
      assert CallOk(s.calls[c], c, s.routes, s.handshake, s.link.handshakeState, Some(ControlRoute));
    }
    AwakenedKeepsSlots(s, HandshakeDone, s.link.(handshakeState := h), Some(ControlRoute));
    AwakenedKeeps(s, HandshakeDone, h, Some(ControlRoute));
    RecycleKeepsFlow(o, s.(link := s.link.(handshakeState := h), handshake := Idle, calls := AwakenAll(s.calls, HandshakeDone)), None);
  }

  lemma RejectHelloKeepsFlow(o: Options, s: State)
    requires RoutesInv(s, Some(ControlRoute)) && FlowInv(o, s, Some(ControlRoute))
    ensures FlowInv(o, RejectHello(s), None)
  {
    hide Terminate, RoutesInv;
    TerminateKeepsFlow(o, s, HelloRejected, Some(ControlRoute));
    TerminateEmpties(s, HelloRejected, Some(ControlRoute));
    assert RouteIds(NO_ROUTES) == {};
  }

  lemma RunningUnknown(s: State)
    requires RoutesInv(s, Some(ControlRoute)) && s.link.child.Some?
    ensures s.link.handshakeState.Unknown?
  {
  }

  lemma NextProbeKeepsFlow(o: Options, s: State, phase: Phase)
    requires RoutesInv(s, Some(ControlRoute)) && FlowInv(o, s, Some(ControlRoute)) && s.link.child.Some?
    ensures FlowInv(o, NextProbe(o, s, phase), None)
  {
    hide RoutesInv, LoadOk, BeginControl;
    RunningUnknown(s);
    if ControlFault(o, s).None? {
      BeginControlKeepsFlow(o, s, phase, Some(ControlRoute));
    }
  }

  lemma AdvanceKeepsFlow(o: Options, s: State, reply: Reply)
    requires RoutesInv(s, Some(ControlRoute)) && FlowInv(o, s, Some(ControlRoute)) && s.link.child.Some?
    ensures FlowInv(o, AdvanceHandshake(o, s, reply), None)
  {
    hide LoadOk, MapsOk, CallsOk, KeysOk, PromotionsOk, LinkOk, NextProbe, Negotiate, RejectHello;
    RejectHelloKeepsFlow(o, s);
    match s.handshake.phase
    case Hello =>
      NextProbeKeepsFlow(o, s, LegacyVersion);
      NegotiateKeepsFlow(o, s, if reply.Success? && reply.hello.Multiplexed? then Ready else SingleFlight);
    case LegacyVersion =>
      if reply.Success? {
        NextProbeKeepsFlow(o, s, LegacyCapabilities(reply.legacyVersion));
      }
    case LegacyCapabilities(_) => NegotiateKeepsFlow(o, s, Legacy);
  }

  lemma SettleHandshakeKeepsFlow(o: Options, s: State)
    requires RoutesInv(s, None) && FlowInv(o, s, None)
    ensures FlowInv(o, SettleHandshake(s), None)
  {
    hide RoutesInv, LoadOk, SlotsOk, MaybeRecycle, AwakenAll;
    if s.handshake.Failing? {
      var g := HandshakeFailed(s.handshake.fault);
      AwakenedKeepsSlots(s, g, s.link, None);
      AwakenedKeeps(s, g, s.link.handshakeState, None);
      assert s.link.(handshakeState := s.link.handshakeState) == s.link;
      RecycleKeepsFlow(o, s.(handshake := Idle, calls := AwakenAll(s.calls, g)), None);
    }
  }

  // ---------- steps of callers ----------

  lemma AddedKeepsSlots(s: State, call: Call)
    requires SlotsOk(s.calls, s.slots, s.link, None) && (call.stage.Starting? || call.stage.Settled?)
    ensures SlotsOk(s.calls + [call], s.slots, s.link, None)
  {
  }

  lemma FreshKey(s: State, id: RequestId)
    requires RoutesInv(s, None) && ValidationFault(s, id, false).None?
    ensures id !in RouteIds(s.routes)
  {
    hide MapsOk, CallsOk, PromotionsOk, HandshakeOk, LinkOk;
  }

  lemma AdmittedKeepsFlow(o: Options, s: State, call: Call)
    requires RoutesInv(s, None) && FlowInv(o, s, None) && call.stage.Starting?
    requires AdmissionFault(o, s, call.id, false).None?
    ensures FlowInv(o, s.(calls := s.calls + [call], routes := AdmittedRoutes(s.routes, call.id, call.kind, |s.calls|)), None)
  {
    hide MapsOk, CallsOk, KeysOk, PromotionsOk, HandshakeOk, SlotsOk, RouteIds;
    FreshKey(s, call.id);
    AddedKeepsSlots(s, call);
    AdmittedKeysKeep(s.routes, call.id, call.kind, |s.calls|);
    LoadIs(s.routes);
    OneMore(RouteIds(s.routes), call.id);
  }

  lemma RequestKeepsFlow(o: Options, s: State, id: RequestId, size: nat, encodable: bool)
    requires RoutesInv(s, None) && FlowInv(o, s, None)
    ensures FlowInv(o, Request(o, s, id, size, encodable), None)
  {
    hide RoutesInv, LoadOk, SlotsOk, JoinHandshake, ValidationFault;
    match AdmissionFault(o, s, id, false)
    case Some(f) => AddedKeepsSlots(s, Call(id, Unary, size, encodable, false, Settled(Failed(f))));
    case None =>
      var call := Call(id, Unary, size, encodable, false, Starting);
      AdmittedKeeps(s, call);
      AdmittedKeepsFlow(o, s, call);
      JoinKeepsFlow(o, s.(calls := s.calls + [call], routes := AdmittedRoutes(s.routes, id, Unary, |s.calls|)), |s.calls|);
  }

  lemma OpenStreamKeepsFlow(o: Options, s: State, id: RequestId, size: nat, encodable: bool)
    requires RoutesInv(s, None) && FlowInv(o, s, None)
    ensures FlowInv(o, OpenStream(o, s, id, size, encodable), None)
  {
    hide RoutesInv, LoadOk, SlotsOk, ValidationFault;
    match AdmissionFault(o, s, id, false)
    case Some(f) => AddedKeepsSlots(s, Call(id, Stream, size, encodable, false, Settled(Failed(f))));
    case None => AdmittedKeepsFlow(o, s, Call(id, Stream, size, encodable, true, Starting));
  }

  lemma ScheduledKeepsSlots(s: State, c: CallId)
    requires SlotsOk(s.calls, s.slots, s.link, None) && c < |s.calls|
    ensures SlotsOk(s.calls[c := s.calls[c].(unscheduled := false)], s.slots, s.link, None)
  {
  }

  lemma ScheduledKeepsRoutes(s: State, c: CallId)
    requires RoutesInv(s, None) && c < |s.calls| && s.calls[c].unscheduled
    ensures RoutesInv(s.(calls := s.calls[c := s.calls[c].(unscheduled := false)]), None)
    ensures s.calls[c].stage.Starting? || s.calls[c].stage.Settled?
  {
    var s1 := s.(calls := s.calls[c := s.calls[c].(unscheduled := false)]);
    forall d | 0 <= d < |s1.calls|
      ensures CallOk(s1.calls[d], d, s1.routes, s1.handshake, s1.link.handshakeState, None)
    {
      assert CallOk(s.calls[d], d, s.routes, s.handshake, s.link.handshakeState, None);
    }
  }

  lemma ScheduleKeepsFlow(o: Options, s: State, c: CallId)
    requires RoutesInv(s, None) && FlowInv(o, s, None)
    ensures FlowInv(o, ScheduleStream(o, s, c), None)
  {
    hide RoutesInv, LoadOk, SlotsOk, JoinHandshake;
    if c < |s.calls| && s.calls[c].unscheduled {
      ScheduledKeepsRoutes(s, c);
      ScheduledKeepsSlots(s, c);
      JoinKeepsFlow(o, s.(calls := s.calls[c := s.calls[c].(unscheduled := false)]), c);
    }
  }

  lemma AcquiredKeepsFlow(o: Options, s: State, s1: State, c: CallId)
    requires RoutesInv(s, None) && FlowInv(o, s, None) && c < |s.calls| && s.calls[c].stage.HandshakeDone?
    requires IsSingleFlight(s.link.handshakeState)
    requires s1 == if s.calls[c].kind.Unary? then s.(routes := Promoted(s.routes, s.calls[c].id)) else s
    ensures FlowInv(o, AcquireSlot(s1, c), None)
  {
    AcquiredKeeps(s, s1, c);
    AcquiredKeepsIds(s, s1, c);
    AcquiredKeepsSlots(s, c);
  }

  lemma AcquiredKeepsIds(s: State, s1: State, c: CallId)
    requires RoutesInv(s, None) && c < |s.calls| && s.calls[c].stage.HandshakeDone?
    requires s1 == if s.calls[c].kind.Unary? then s.(routes := Promoted(s.routes, s.calls[c].id)) else s
    ensures RouteIds(s1.routes) == RouteIds(s.routes)
  {
  }

  lemma AcquiredKeepsSlots(s: State, c: CallId)
    requires SlotsOk(s.calls, s.slots, s.link, None) && c < |s.calls| && s.calls[c].stage.HandshakeDone?
    requires IsSingleFlight(s.link.handshakeState)
    ensures SlotsOk(s.calls[c := StagedCall(s.calls[c], AwaitingSlot)], s.slots.(queue := s.slots.queue + [c]), s.link, None)
  {
    var queue := s.slots.queue + [c];
    assert queue[|s.slots.queue|] == c;
    assert forall d | d in s.slots.queue :: d in queue;
  }

  lemma ContinueKeepsFlow(o: Options, s: State, c: CallId)
    requires RoutesInv(s, None) && FlowInv(o, s, None)
    ensures FlowInv(o, Continue(o, s, c), None)
  {
    hide LoadOk, SlotsOk, MapsOk, KeysOk, PromotionsOk, HandshakeOk, LinkOk, RejectWaiting, AcquireSlot,
      PromoteFault, PromoteAndIssue;
    if c < |s.calls| {
      assert CallOk(s.calls[c], c, s.routes, s.handshake, s.link.handshakeState, None);
      match s.calls[c].stage
      case HandshakeFailed(f) => RejectWaitingKeepsFlow(o, s, c, f);
      case HandshakeDone =>
        if IsSingleFlight(s.link.handshakeState) {
          match PromoteFault(o, s, s.calls[c].id)
          case Some(f) =>
            RejectWaitingKeepsFlow(o, s, c, f);
            if s.calls[c].kind.Stream? {
              AcquiredKeepsFlow(o, s, s, c);
            }
          case None =>
            AcquiredKeepsFlow(o, s, if s.calls[c].kind.Unary? then s.(routes := Promoted(s.routes, s.calls[c].id)) else s, c);
        } else if s.calls[c].kind.Stream? {
          StagedKeepsSlots(s, c, ReadyToIssue);
        } else {
          PromoteAndIssueKeepsFlow(o, s, c, false);
        }
      case ReadyToIssue => ReadyKeepsFlow(o, s, c);
      case _ =>
    }
  }

  /** A stream leaves the handshake without a slot only while the transport is multiplexed. */
  lemma ReadyKeepsFlow(o: Options, s: State, c: CallId)
    requires RoutesInv(s, None) && FlowInv(o, s, None) && c < |s.calls| && s.calls[c].stage.ReadyToIssue?
    ensures FlowInv(o, PromoteAndIssue(o, s, c, false), None)
  {
    assert CallOk(s.calls[c], c, s.routes, s.handshake, s.link.handshakeState, None);
    PromoteAndIssueKeepsFlow(o, s, c, false);
  }

  lemma GrantSlotKeepsFlow(o: Options, s: State)
    requires RoutesInv(s, None) && FlowInv(o, s, None)
    ensures FlowInv(o, GrantSlot(o, s), None)
  {
    hide LoadOk, MapsOk, KeysOk, PromotionsOk, HandshakeOk, LinkOk, IssueCall, PromoteAndIssue;
    if !s.slots.granted && s.slots.queue != [] {
      var c := s.slots.queue[0];
      var s1 := s.(slots := s.slots.(granted := true));
      if c < |s.calls| && s.calls[c].stage.AwaitingSlot? {
        assert CallOk(s.calls[c], c, s.routes, s.handshake, s.link.handshakeState, None);
        assert s1.slots.(granted := false) == s.slots;
        if s.calls[c].kind.Unary? {
          AwaitingPromoted(s, c);
          IssueCallKeepsFlow(o, s1, s1, c, true);
        } else {
          PromoteAndIssueKeepsFlow(o, s1, c, true);
        }
      } else {
        PoppedKeepsSlots(s);
      }
    }
  }

  lemma AwaitingPromoted(s: State, c: CallId)
    requires RoutesInv(s, None) && c < |s.calls| && s.calls[c].stage.AwaitingSlot? && s.calls[c].kind.Unary?
    ensures s.calls[c].id in s.routes.activeIds
  {
    hide MapsOk, HandshakeOk, LinkOk;
    assert CallOk(s.calls[c], c, s.routes, s.handshake, s.link.handshakeState, None);
  }

  lemma PoppedKeepsSlots(s: State)
    requires SlotsOk(s.calls, s.slots, s.link, None) && !s.slots.granted && s.slots.queue != []
    requires !s.calls[s.slots.queue[0]].stage.AwaitingSlot?
    ensures SlotsOk(s.calls, Slots(s.slots.queue[1..], false), s.link, None)
  {
    var queue := s.slots.queue[1..];
    assert forall i | 0 <= i < |queue| :: queue[i] == s.slots.queue[i + 1];
  }

  lemma AbortPendingKeepsFlow(o: Options, s: State, id: RequestId, kind: Kind, f: Fault, fatal: bool)
    requires RoutesInv(s, None) && FlowInv(o, s, None)
    ensures FlowInv(o, AbortPending(o, s, id, kind, f, fatal), None)
  {
    hide RoutesInv, FlowInv, AbortRoute, Terminate, HasStartedWrite;
    AbortRouteKeeps(o, s, id, kind, true, f);
    AbortRouteKeepsFlow(o, s, id, kind, true, f);
    TerminateKeepsFlow(o, AbortRoute(o, s, id, kind, true, f), f, None);
  }

  lemma CancelKeepsFlow(o: Options, s: State, id: RequestId)
    requires RoutesInv(s, None) && FlowInv(o, s, None)
    ensures FlowInv(o, Cancel(o, s, id), None)
  {
    hide CallsOk, KeysOk, PromotionsOk, HandshakeOk, LinkOk, FlowInv, RejectWaiting, AbortPending;
    if id in s.routes.waitingRequests {
      RejectWaitingKeepsFlow(o, s, s.routes.waitingRequests[id], RequestCancelled);
    } else if id in s.routes.waitingStreams {
      RejectWaitingKeepsFlow(o, s, s.routes.waitingStreams[id], RequestCancelled);
    } else {
      AbortPendingKeepsFlow(o, s, id, Unary, RequestCancelled, false);
      AbortPendingKeepsFlow(o, s, id, Stream, RequestCancelled, false);
    }
  }

  lemma TimeoutKeepsFlow(o: Options, s: State, id: RequestId)
    requires RoutesInv(s, None) && FlowInv(o, s, None)
    ensures FlowInv(o, Timeout(o, s, id), None)
  {
    hide RoutesInv, FlowInv, AbortPending;
    if id in s.routes.pendingResponses {
      AbortPendingKeepsFlow(o, s, id, Unary, BackendTimeout, s.routes.pendingResponses[id].fatalOnTimeout);
    } else if id in s.routes.pendingStreams {
      AbortPendingKeepsFlow(o, s, id, Stream, BackendTimeout, s.routes.pendingStreams[id].fatalOnTimeout);
    }
  }

  // ---------- steps of the child ----------

  lemma OtherWrites(o: Options, s: State, w: Writes, wire: Wire)
    requires RoutesInv(s, None) && FlowInv(o, s, None)
    ensures var t := s.(writes := w, wire := wire); RoutesInv(t, None) && FlowInv(o, t, None)
  {
  }

  lemma WriteStepsKeepFlow(o: Options, s: State, retired: bool, failed: bool)
    requires RoutesInv(s, None) && FlowInv(o, s, None)
    ensures FlowInv(o, TurnWrite(o, s, retired), None)
    ensures FlowInv(o, FinishWrite(o, s, retired, failed), None)
  {
    hide RoutesInv, LoadOk, SlotsOk, AbortRoute, ReleaseHead;
    var chain := Chain(s.writes, retired);
    if chain != [] {
      var e := chain[0];
      var s1 := s.(writes := ReleaseHead(s.writes, retired));
      OtherWrites(o, s, s1.writes, s.wire);
      assert s1.(wire := s.wire) == s1;
      AbortRouteKeepsFlow(o, s1, e.id, e.kind, true, StdinFailure);
      if TurnFault(s, e).Some? {
        var f := TurnFault(s, e).value;
        AbortRouteKeepsFlow(o, s1, e.id, e.kind, !DefinitelyUnsent(f), f);
      }
    }
  }

  lemma QuarantineKeepsFlow(o: Options, s: State, id: RequestId)
    requires RoutesInv(s, None) && FlowInv(o, s, None) && s.link.child.Some?
    ensures FlowInv(o, DiscardOrQuarantine(o, s, id), None)
  {
    hide MapsOk, CallsOk, KeysOk, PromotionsOk, HandshakeOk, LoadOk, Terminate, MaybeRecycle;
    if id !in s.link.tombstones && id !in s.link.quarantinedIds {
      TerminateKeepsFlow(o, s, QuarantineLimit, None);
      var s1 := s.(link := s.link.(quarantinedIds := s.link.quarantinedIds + {id}, quarantined := true, quarantineTimer := true));
      assert RoutesInv(s1, None);
      RecycleKeepsFlow(o, s1, None);
    }
  }

  lemma ResponseKeepsFlow(o: Options, s: State, id: RequestId, reply: Reply, cause: Option<Line>)
    requires RoutesInv(s, None) && FlowInv(o, s, None) && s.link.child.Some?
    ensures FlowInv(o, HandleResponse(o, s, id, reply, cause), None)
  {
    hide MapsOk, CallsOk, KeysOk, PromotionsOk, HandshakeOk, LinkOk, LoadOk, ClearRoute, SettleCall, AdvanceHandshake,
      Terminate, DiscardOrQuarantine;
    if id in s.routes.pendingResponses {
      var owner := s.routes.pendingResponses[id].owner;
      var s0 := Record(s, owner, cause);
      OtherWrites(o, s, s0.writes, s0.wire);
      ClearFinishedKeeps(o, s0, id, Unary);
      ClearRouteKeepsFlow(o, s0, id, Unary, false);
      var s1 := ClearRoute(o, s0, id, Unary, false);
      match owner
      case CallerRoute(c) => SettleKeepsFlow(o, s1, c, Answered(reply));
      case ControlRoute => AdvanceKeepsFlow(o, s1, reply);
    } else {
      TerminateKeepsFlow(o, s, UnexpectedResponse, None);
      QuarantineKeepsFlow(o, s, id);
    }
  }

  lemma EventKeepsFlow(o: Options, s: State, id: RequestId, t: EventType, queued: bool, cause: Option<Line>)
    requires RoutesInv(s, None) && FlowInv(o, s, None) && s.link.child.Some?
    ensures FlowInv(o, HandleEvent(o, s, id, t, queued, cause), None)
  {
    hide CallsOk, KeysOk, PromotionsOk, HandshakeOk, LinkOk, LoadOk, ClearRoute, SettleCall, AbortRoute, Terminate,
      DiscardOrQuarantine;
    if id in s.routes.pendingStreams {
      var owner := s.routes.pendingStreams[id].owner;
      var s0 := Record(s, owner, cause);
      OtherWrites(o, s, s0.writes, s0.wire);
      AbortRouteKeepsFlow(o, s, id, Stream, true, StreamOverflow);
      match t
      case Completed =>
        ClearRouteKeepsFlow(o, s0, id, Stream, false);
        SettleKeepsFlow(o, ClearRoute(o, s0, id, Stream, false), owner.call, Finished);
      case ErrorEvent(code) => AbortRouteKeepsFlow(o, s0, id, Stream, false, BackendReported(code));
      case _ =>
    } else {
      TerminateKeepsFlow(o, s, UnexpectedEvent, None);
      QuarantineKeepsFlow(o, s, id);
    }
  }

  lemma DeliverKeepsFlow(o: Options, s: State, g: Generation, m: Message, queued: bool, cause: Option<Line>)
    requires RoutesInv(s, None) && FlowInv(o, s, None)
    ensures FlowInv(o, Deliver(o, s, g, m, queued, cause), None)
  {
    hide RoutesInv, LoadOk, SlotsOk, Terminate, HandleResponse, HandleEvent;
    if s.link.child == Some(g) {
      var s1 := s.(wire := EndLine(s.wire, m, cause));
      OtherWrites(o, s, s.writes, s1.wire);
      assert s1.(writes := s.writes) == s1;
      match m
      case Malformed => TerminateKeepsFlow(o, s1, InvalidMessage, None);
      case Response(id, reply) => ResponseKeepsFlow(o, s1, id, reply, cause);
      case Event(id, t) => EventKeepsFlow(o, s1, id, t, queued, cause);
    }
  }

  lemma TimersKeepFlow(o: Options, s: State)
    requires RoutesInv(s, None) && FlowInv(o, s, None)
    ensures FlowInv(o, TombstoneTimer(s), None) && FlowInv(o, QuarantineTimer(s), None) && FlowInv(o, Close(s), None)
  {
    hide MapsOk, CallsOk, KeysOk, PromotionsOk, HandshakeOk, LoadOk, Terminate, Recycle;
    RecycleKeepsFlow(o, s, None);
    TerminateKeepsFlow(o, s, LateOutputTimeout, None);
    TerminateKeepsFlow(o, s, BackendClosed, None);
    if s.link.child.Some? {
      TerminateIgnoresTimer(s, LateOutputTimeout);
    }
    TerminateIgnoresClosed(s, BackendClosed);
  }

  lemma TerminateIgnoresTimer(s: State, f: Fault)
    requires s.link.child.Some?
    ensures Terminate(s.(link := s.link.(tombstoneTimer := false)), f) == Terminate(s, f)
  {
  }

  lemma TerminateIgnoresClosed(s: State, f: Fault)
    ensures Terminate(s.(closed := true), f) == Terminate(s, f).(closed := true)
  {
    hide LiveCalls, SettleAll;
  }

  // ---------- runs ----------

  lemma CallerStepKeepsFlow(o: Options, s: State, t: Step)
    requires RoutesInv(s, None) && FlowInv(o, s, None) && CallerStep(t)
    ensures FlowInv(o, Apply(o, s, t), None)
  {
    hide RoutesInv, FlowInv, Request, OpenStream, ScheduleStream, Continue, SettleHandshake, GrantSlot, Timeout, Cancel;
    match t
    case RequestStep(id, size, encodable) => RequestKeepsFlow(o, s, id, size, encodable);
    case StreamStep(id, size, encodable) => OpenStreamKeepsFlow(o, s, id, size, encodable);
    case ScheduleStep(c) => ScheduleKeepsFlow(o, s, c);
    case ContinueStep(c) => ContinueKeepsFlow(o, s, c);
    case SettleHandshakeStep => SettleHandshakeKeepsFlow(o, s);
    case GrantSlotStep => GrantSlotKeepsFlow(o, s);
    case TimeoutStep(id) => TimeoutKeepsFlow(o, s, id);
    case CancelStep(id) => CancelKeepsFlow(o, s, id);
    case _ =>
  }

  lemma ChildStepKeepsFlow(o: Options, s: State, t: Step)
    requires RoutesInv(s, None) && FlowInv(o, s, None) && !CallerStep(t)
    ensures FlowInv(o, Apply(o, s, t), None)
  {
    hide RoutesInv, LoadOk, SlotsOk, TurnWrite, FinishWrite, DropRetired, Deliver, Terminate, TombstoneTimer, QuarantineTimer, Close;
    match t
    case TurnStep(retired) => WriteStepsKeepFlow(o, s, retired, false);
    case FinishStep(retired, failed) => WriteStepsKeepFlow(o, s, retired, failed);
    case DeliverStep(g, m, queued, cause) => DeliverKeepsFlow(o, s, g, m, queued, cause);
    case ChildFailedStep(g, f) => TerminateKeepsFlow(o, s, f, None);
    case _ => TimersKeepFlow(o, s);
  }

  lemma {:induction false} RunKeepsFlow(o: Options, trace: seq<State>, steps: seq<Step>, n: nat)
    requires IsRun(o, trace, steps) && n <= |steps| && RoutesInv(trace[0], None) && FlowInv(o, trace[0], None)
    ensures RoutesInv(trace[n], None) && FlowInv(o, trace[n], None)
  {
    hide Apply, RoutesInv, FlowInv;
    if n > 0 {
      RunKeepsFlow(o, trace, steps, n - 1);
      ApplyKeeps(o, trace[n - 1], steps[n - 1]);
      if CallerStep(steps[n - 1]) {
        CallerStepKeepsFlow(o, trace[n - 1], steps[n - 1]);
      } else {
        ChildStepKeepsFlow(o, trace[n - 1], steps[n - 1]);
      }
      assert trace[n - 1 + 1] == Apply(o, trace[n - 1], steps[n - 1]);
    }
  }

  lemma InitialFlow(o: Options)
    requires ValidOptions(o)
    ensures RoutesInv(INITIAL, None) && FlowInv(o, INITIAL, None)
  {
    assert RouteIds(NO_ROUTES) == {};
  }

  lemma ReachableFlow(o: Options, s: State)
    requires ValidOptions(o) && Reachable(o, s)
    ensures RoutesInv(s, None) && FlowInv(o, s, None)
  {
    hide Apply, RoutesInv, FlowInv;
    InitialFlow(o);
    var trace, steps :| IsRun(o, trace, steps) && trace[0] == INITIAL && trace[|steps|] == s;
    RunKeepsFlow(o, trace, steps, |steps|);
  }

  // ---------- what holds in every reachable state ----------

  /** Waiting and active ids never exceed the limit, and never its last unit while the
      transport is unnegotiated and no control route is pending. */
  lemma AdmissionBound(o: Options, s: State)
    requires ValidOptions(o) && Reachable(o, s)
    ensures |s.routes.waitingIds| + |s.routes.activeIds| <= o.maxInFlight
    ensures s.link.handshakeState.Unknown? && s.routes.controlIds == {} ==>
              |s.routes.waitingIds| + |s.routes.activeIds| <= o.maxInFlight - 1
  {
    ReachableFlow(o, s);
    LoadIs(s.routes);
  }

  /** A caller's id is admitted exactly when none of the four maps and no tombstone holds it and a
      place is free; it counts as a duplicate exactly when a map holds it, and is refused for capacity
      only when every place is taken. An id that is quarantined by itself is never what refuses it. */
  lemma AdmissionDecides(o: Options, s: State, id: RequestId)
    requires ValidOptions(o) && Reachable(o, s) && id.CallerId?
    ensures var f := AdmissionFault(o, s, id, false);
      var usable := !s.closed && !s.link.quarantined && ValidRequestId(id);
      && (f.None? <==> usable && id !in RouteIds(s.routes) && id !in s.link.tombstones && |RouteIds(s.routes)| < AdmissionLimit(o, s, false))
      && (f == Some(DuplicateRequestId) <==> usable && id in RouteIds(s.routes))
      && (f == Some(InFlightLimit) ==> |RouteIds(s.routes)| == AdmissionLimit(o, s, false))
      && f != Some(RequestIdQuarantined)
  {
    hide MapsOk, CallsOk, PromotionsOk, HandshakeOk, FlowInv, ValidRequestId;
    AdmissionBound(o, s);
    ReachableFlow(o, s);
    assert RouteIds(s.routes) == s.routes.waitingIds + s.routes.activeIds && s.routes.waitingIds !! s.routes.activeIds;
    assert |RouteIds(s.routes)| == |s.routes.waitingIds| + |s.routes.activeIds|;
  }

  /** What reserving a control id can fail with, once capacity is out of the question. */
  function ProbeFault(s: State): Option<Fault> {
    if s.link.quarantined then Some(ProtocolQuarantined) else None
  }

  lemma ControlIdIsFresh(o: Options, s: State, limbo: Option<Owner>)
    requires RoutesInv(s, limbo) && FlowInv(o, s, limbo) && !s.closed
    requires s.link.handshakeState.Unknown? && (limbo == Some(ControlRoute) || !s.handshake.Running?)
    ensures ControlFault(o, s) == ProbeFault(s)
  {
    hide MapsOk, CallsOk, PromotionsOk, HandshakeOk, SlotsOk, LoadOk;
    ControlHasRoom(o, s, limbo);
    ControlIdIsNew(s, limbo);
  }

  lemma ControlIdIsNew(s: State, limbo: Option<Owner>)
    requires RoutesInv(s, limbo)
    ensures ControlId(s.nextControl) !in RouteIds(s.routes)
  {
    hide KeysOk, PromotionsOk, LinkOk;
    forall id | id in RouteIds(s.routes) ensures id.CallerId? || id.serial < s.nextControl {
      var c :=
        if id in s.routes.waitingRequests then s.routes.waitingRequests[id]
        else if id in s.routes.waitingStreams then s.routes.waitingStreams[id]
        else if id in s.routes.pendingStreams then s.routes.pendingStreams[id].owner.call
        else if s.routes.pendingResponses[id].owner.CallerRoute? then s.routes.pendingResponses[id].owner.call
        else 0;
      if c < |s.calls| {
        assert CallOk(s.calls[c], c, s.routes, s.handshake, s.link.handshakeState, limbo);
      }
    }
  }

  /** Hello is never refused for capacity, whoever asks for it. */
  lemma HelloAlwaysFits(o: Options, s: State)
    requires ValidOptions(o) && Reachable(o, s)
    requires !s.closed && s.link.handshakeState.Unknown? && s.handshake.Idle?
    ensures ControlFault(o, StartChild(s)) == ProbeFault(StartChild(s))
  {
    hide RoutesInv, FlowInv;
    ReachableFlow(o, s);
    StartChildKeeps(s);
    StartChildKeepsFlow(o, s);
    StartedChild(s);
    assert StartChild(s).closed == s.closed;
    ControlIdIsFresh(o, StartChild(s), None);
  }

  /** Nor is either legacy probe, at the moment the response to the probe before it has cleared
      that probe's route. */
  lemma LegacyProbesAlwaysFit(o: Options, s: State, id: RequestId)
    requires ValidOptions(o) && Reachable(o, s)
    requires id in s.routes.pendingResponses && s.routes.pendingResponses[id].owner.ControlRoute?
    ensures var t := ClearRoute(o, s, id, Unary, false); ControlFault(o, t) == ProbeFault(t)
  {
    hide Apply, SlotsOk, LoadOk;
    ReachableFlow(o, s);
    var t := ClearRoute(o, s, id, Unary, false);
    ClearFinishedKeeps(o, s, id, Unary);
    ClearRouteKeepsFlow(o, s, id, Unary, false);
    RunningUnknown(t);
    ControlIdIsFresh(o, t, Some(ControlRoute));
  }

  lemma WaitingUnpromoted(s: State, c: CallId)
    requires RoutesInv(s, None) && c < |s.calls|
    requires s.calls[c].stage.HandshakeDone? || s.calls[c].stage.ReadyToIssue?
             || (s.calls[c].stage.AwaitingSlot? && s.calls[c].kind.Stream?)
    ensures s.calls[c].id in s.routes.waitingIds
  {
    hide MapsOk, HandshakeOk, LinkOk;
    assert CallOk(s.calls[c], c, s.routes, s.handshake, s.link.handshakeState, None);
  }

  /** A waiting caller whose handshake is done is promoted unless the transport is quarantined:
      never refused for capacity, as a duplicate or as a reused id. */
  lemma PromotionNeverRefused(o: Options, s: State, c: CallId)
    requires ValidOptions(o) && Reachable(o, s) && c < |s.calls|
    requires s.calls[c].stage.HandshakeDone? || s.calls[c].stage.ReadyToIssue?
             || (s.calls[c].stage.AwaitingSlot? && s.calls[c].kind.Stream?)
    ensures PromoteFault(o, s, s.calls[c].id) == ProbeFault(s)
  {
    hide SlotsOk, MapsOk, PromotionsOk, HandshakeOk;
    ReachableFlow(o, s);
    LoadIs(s.routes);
    WaitingUnpromoted(s, c);
    var id := s.calls[c].id;
    assert CallOk(s.calls[c], c, s.routes, s.handshake, s.link.handshakeState, None);
    assert id !in s.routes.activeIds && id !in s.link.tombstones;
    assert |s.routes.waitingIds - {id}| == |s.routes.waitingIds| - 1;
  }

  /** Under single flight at most one caller is pending on the child, and it holds the slot. */
  lemma SingleFlightExclusion(o: Options, s: State, a: RequestId, b: RequestId)
    requires ValidOptions(o) && Reachable(o, s) && IsSingleFlight(s.link.handshakeState)
    requires a.CallerId? && a in s.routes.pendingResponses.Keys + s.routes.pendingStreams.Keys
    requires b.CallerId? && b in s.routes.pendingResponses.Keys + s.routes.pendingStreams.Keys
    ensures a == b && s.slots.granted && s.slots.queue != [] && s.slots.queue[0] < |s.calls| && s.calls[s.slots.queue[0]].id == a
    ensures !(a in s.routes.pendingResponses && a in s.routes.pendingStreams)
  {
    ReachableFlow(o, s);
    HolderOf(o, s, a);
    HolderOf(o, s, b);
  }

  lemma HolderOf(o: Options, s: State, id: RequestId)
    requires RoutesInv(s, None) && FlowInv(o, s, None) && IsSingleFlight(s.link.handshakeState)
    requires id.CallerId? && id in s.routes.pendingResponses.Keys + s.routes.pendingStreams.Keys
    ensures s.slots.granted && s.slots.queue != [] && s.slots.queue[0] < |s.calls| && s.calls[s.slots.queue[0]].id == id
    ensures !(id in s.routes.pendingResponses && id in s.routes.pendingStreams)
  {
    hide PromotionsOk, LinkOk, LoadOk;
    var c := if id in s.routes.pendingResponses then s.routes.pendingResponses[id].owner.call else s.routes.pendingStreams[id].owner.call;
    assert s.calls[c].stage.Issued? && s.calls[c].id == id;
  }

  /** A granted slot belongs to a caller that is still pending. As soon as that caller settles, on
      any path, it leaves the chain: the slot passes on once, and never comes back to it. */
  lemma SettledReleasesSlot(o: Options, s: State, t: State, c: CallId)
    requires ValidOptions(o) && Reachable(o, s) && Leads(o, s, t) && Granted(s.slots, c)
    ensures c < |s.calls| && s.calls[c].stage.Issued? && c < |t.calls|
    ensures c in t.slots.queue ==> Granted(t.slots, c) && t.calls[c].stage.Issued?
    ensures t.calls[c].stage.Settled? ==> c !in t.slots.queue
  {
    hide Apply, RoutesInv, LoadOk;
    ReachableFlow(o, s);
    LeadsOn(o, s, t);
    ReachableFlow(o, t);
    LeadsKeepsCaller(o, s, t, c);
    assert c !in s.slots.queue[1..];
  }

  /** A caller that is past its wait and outside the chain never joins it again. */
  lemma SlotLeftForGood(o: Options, s: State, t: State, c: CallId)
    requires Leads(o, s, t) && c < |s.calls| && Passed(s.calls[c]) && c !in s.slots.queue
    ensures c !in t.slots.queue
  {
    hide Apply;
    LeadsKeepsCaller(o, s, t, c);
  }

  lemma LeadsOn(o: Options, s: State, t: State)
    requires Reachable(o, s) && Leads(o, s, t)
    ensures Reachable(o, t)
  {
    hide Run, Apply;
    LeadsIffRun(o, INITIAL, s);
    LeadsIffRun(o, s, t);
    var before :| s == Run(o, INITIAL, before);
    var after :| t == Run(o, s, after);
    RunAppend(o, INITIAL, before, after);
    LeadsIffRun(o, INITIAL, t);
  }
}
