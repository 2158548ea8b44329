/** Every caller is in exactly one place: the invariant that ties the promises of the callers
    to the four route maps and to the id sets, kept by every step. */
module TransportRoutes {
  import opened Common
  import opened TransportState
  import opened TransportSteps
  import opened TransportRuns

  // ---------- the invariant ----------

  ghost predicate WaitingMapOk(calls: seq<Call>, m: map<RequestId, CallId>, kind: Kind) {
    forall id | id in m ::
      m[id] < |calls| && calls[m[id]].id == id && calls[m[id]].kind == kind && WaitingStage(calls[m[id]].stage)
  }

  ghost predicate PendingMapOk(calls: seq<Call>, h: Handshake, m: map<RequestId, PendingRoute>, kind: Kind) {
    forall id | id in m ::
      match m[id].owner
      case CallerRoute(c) => c < |calls| && calls[c].id == id && calls[c].kind == kind && calls[c].stage.Issued?
      case ControlRoute => kind.Unary? && h.Running? && h.id == id
  }

  ghost predicate MapsOk(calls: seq<Call>, r: Routes, h: Handshake) {
    && WaitingMapOk(calls, r.waitingRequests, Unary)
    && WaitingMapOk(calls, r.waitingStreams, Stream)
    && PendingMapOk(calls, h, r.pendingResponses, Unary)
    && PendingMapOk(calls, h, r.pendingStreams, Stream)
  }

  predicate InWaiting(r: Routes, call: Call, c: CallId) {
    if call.kind.Unary? then call.id in r.waitingRequests && r.waitingRequests[call.id] == c
    else call.id in r.waitingStreams && r.waitingStreams[call.id] == c
  }

  predicate InPending(r: Routes, call: Call, c: CallId) {
    if call.kind.Unary? then call.id in r.pendingResponses && r.pendingResponses[call.id].owner == CallerRoute(c)
    else call.id in r.pendingStreams && r.pendingStreams[call.id].owner == CallerRoute(c)
  }

  /** `limbo` names the route whose entry is already cleared and whose promise settles next. */
  ghost predicate CallOk(call: Call, c: CallId, r: Routes, h: Handshake, hs: HandshakeState, limbo: Option<Owner>) {
    && (!call.stage.Settled? ==> call.id.CallerId? && ValidRequestId(call.id))
    && (WaitingStage(call.stage) ==> InWaiting(r, call, c))
    && (call.stage.Issued? ==> limbo == Some(CallerRoute(c)) || InPending(r, call, c))
    && (call.stage.AwaitingHandshake? ==> !h.Idle?)
    && (call.stage.HandshakeDone? || call.stage.AwaitingSlot? || call.stage.ReadyToIssue? ==> Negotiated(hs))
    && (call.stage.Issued? && limbo != Some(CallerRoute(c)) ==> Negotiated(hs))
    && (call.stage.ReadyToIssue? ==> call.kind.Stream? && hs.Ready?)
    && (call.unscheduled ==> call.stage.Starting? || call.stage.Settled?)
  }

  ghost predicate CallsOk(calls: seq<Call>, r: Routes, h: Handshake, hs: HandshakeState, limbo: Option<Owner>) {
    forall c | 0 <= c < |calls| :: CallOk(calls[c], c, r, h, hs, limbo)
  }

  ghost predicate LimboOk(calls: seq<Call>, r: Routes, h: Handshake, limbo: Option<Owner>) {
    match limbo
    case None => true
    case Some(CallerRoute(c)) => c < |calls| && calls[c].stage.Issued? && calls[c].id !in RouteIds(r)
    case Some(ControlRoute) => h.Running? && h.id !in RouteIds(r)
  }

  ghost predicate KeysOk(r: Routes) {
    && r.waitingRequests.Keys !! r.waitingStreams.Keys
    && r.pendingResponses.Keys !! r.pendingStreams.Keys
    && (r.waitingRequests.Keys + r.waitingStreams.Keys) !! (r.pendingResponses.Keys + r.pendingStreams.Keys)
    && r.waitingIds !! r.activeIds
    && RouteIds(r) == r.waitingIds + r.activeIds
    && r.pendingResponses.Keys + r.pendingStreams.Keys <= r.activeIds
    && r.waitingStreams.Keys <= r.waitingIds
    && (forall id :: id in r.controlIds <==> id in r.pendingResponses && r.pendingResponses[id].owner.ControlRoute?)
  }

  /** A waiting request holds an active id exactly once it queues for the slot. */
  ghost predicate PromotionsOk(calls: seq<Call>, r: Routes) {
    forall id | id in r.waitingRequests ::
      && r.waitingRequests[id] < |calls|
      && (id in r.waitingIds <==> !calls[r.waitingRequests[id]].stage.AwaitingSlot?)
  }

  ghost predicate HandshakeOk(r: Routes, h: Handshake, hs: HandshakeState, nextControl: nat, limbo: Option<Owner>) {
    && (h.Running? ==>
          && h.id.ControlId?
          && h.id.serial < nextControl
          && (limbo == Some(ControlRoute)
              || (h.id in r.pendingResponses && r.pendingResponses[h.id].owner.ControlRoute?)))
    && (!h.Idle? ==> !Negotiated(hs))
  }

  ghost predicate LinkOk(l: Link, r: Routes, nextControl: nat, closed: bool) {
    && (l.child.None? ==>
          && !Negotiated(l.handshakeState)
          && r.pendingResponses == map[] && r.pendingStreams == map[]
          && l.tombstones == map[] && !l.quarantined)
    && (l.child.Some? ==> l.child.value < l.nextGeneration && !l.handshakeState.Blocked?)
    && (closed ==> l.child.None? && RouteIds(r) == {})
    && (l.tombstoneTimer <==> l.tombstones != map[])
    && (l.quarantineTimer <==> l.quarantined)
    && (l.quarantined <==> l.quarantinedIds != {})
    && l.tombstones.Keys !! RouteIds(r)
    && (forall id | id in l.tombstones && id.ControlId? :: id.serial < nextControl)
  }

  ghost predicate RoutesInv(s: State, limbo: Option<Owner>) {
    && MapsOk(s.calls, s.routes, s.handshake)
    && CallsOk(s.calls, s.routes, s.handshake, s.link.handshakeState, limbo)
    && LimboOk(s.calls, s.routes, s.handshake, limbo)
    && KeysOk(s.routes)
    && PromotionsOk(s.calls, s.routes)
    && HandshakeOk(s.routes, s.handshake, s.link.handshakeState, s.nextControl, limbo)
    && LinkOk(s.link, s.routes, s.nextControl, s.closed)
  }

  // ---------- teardown ----------

  lemma LiveCallsAre(calls: seq<Call>, r: Routes, h: Handshake, hs: HandshakeState, limbo: Option<Owner>, c: CallId)
    requires MapsOk(calls, r, h) && CallsOk(calls, r, h, hs, limbo) && LimboOk(calls, r, h, limbo) && c < |calls|
    ensures c in LiveCalls(r) <==> !calls[c].stage.Settled? && limbo != Some(CallerRoute(c))
  {
    assert CallOk(calls[c], c, r, h, hs, limbo);
    if !calls[c].stage.Settled? && limbo != Some(CallerRoute(c)) {
      assert WaitingStage(calls[c].stage) ==> InWaiting(r, calls[c], c);
      assert calls[c].stage.Issued? ==> InPending(r, calls[c], c);
    }
  }

  /** `t` is `s` after teardown: no routes, and every caller but the one in limbo is settled. */
  ghost predicate Emptied(s: State, t: State, limbo: Option<Owner>) {
    && t.routes == NO_ROUTES
    && |t.calls| == |s.calls|
    && (forall c | 0 <= c < |t.calls| ::
          if limbo == Some(CallerRoute(c)) then t.calls[c] == s.calls[c] else t.calls[c].stage.Settled?)
    && (t.handshake.Running? ==> limbo == Some(ControlRoute))
    && (limbo == Some(ControlRoute) ==> t.handshake == s.handshake)
    && (s.handshake.Idle? <==> t.handshake.Idle?)
    && t.nextControl == s.nextControl
  }

  lemma FailAllEmpties(s: State, f: Fault, hs: HandshakeState, limbo: Option<Owner>)
    requires MapsOk(s.calls, s.routes, s.handshake) && LimboOk(s.calls, s.routes, s.handshake, limbo)
    requires CallsOk(s.calls, s.routes, s.handshake, hs, limbo)
    requires HandshakeOk(s.routes, s.handshake, hs, s.nextControl, limbo)
    ensures Emptied(s, FailAll(s, f), limbo)
    ensures FailAll(s, f).link == s.link && FailAll(s, f).closed == s.closed
  {
    forall c | 0 <= c < |s.calls|
      ensures c in LiveCalls(s.routes) <==> !s.calls[c].stage.Settled? && limbo != Some(CallerRoute(c))
    {
      LiveCallsAre(s.calls, s.routes, s.handshake, hs, limbo, c);
    }
  }

  lemma TerminateEmpties(s: State, f: Fault, limbo: Option<Owner>)
    requires RoutesInv(s, limbo)
    ensures var t := Terminate(s, f);
      && Emptied(s, t, limbo)
      && t.closed == s.closed
      && t.link == if s.link.child.None? then s.link else ResetLink(s.link)
  {
    hide FailAll;
    match s.link.child
    case None => FailAllEmpties(s, f, s.link.handshakeState, limbo);
    case Some(g) =>
      var s1 := s.(writes := RetireWrites(s.writes, g), link := ResetLink(s.link), wire := s.wire.(open := {}));
      FailAllEmpties(s1, f, s.link.handshakeState, limbo);
  }

  lemma TerminateKeeps(s: State, f: Fault, limbo: Option<Owner>)
    requires RoutesInv(s, limbo)
    ensures RoutesInv(Terminate(s, f), limbo)
    ensures Emptied(s, Terminate(s, f), limbo)
    ensures Terminate(s, f).link.child.None?
  {
    hide Terminate, FailAll;
    TerminateEmpties(s, f, limbo);
    var t := Terminate(s, f);
    forall c | 0 <= c < |t.calls|
      ensures CallOk(t.calls[c], c, t.routes, t.handshake, t.link.handshakeState, limbo)
    {
      assert CallOk(s.calls[c], c, s.routes, s.handshake, s.link.handshakeState, limbo);
    }
  }

  lemma RecycleKeeps(s: State, limbo: Option<Owner>)
    requires RoutesInv(s, limbo)
    ensures RoutesInv(MaybeRecycle(s), limbo)
    ensures s.link.quarantineTimer ==> RoutesInv(Recycle(s.(link := s.link.(quarantineTimer := false))), limbo)
  {
    if s.link.quarantined {
      TerminateKeeps(s, ProtocolQuarantined, limbo);
      assert Recycle(s) == Terminate(s, ProtocolQuarantined);
    }
  }

  // ---------- clearing a pending route ----------

  lemma ClearedKeysKeep(r: Routes, id: RequestId, kind: Kind)
    requires KeysOk(r) && id in PendingMap(r, kind)
    ensures KeysOk(ClearedRoutes(r, id, kind)) && RouteIds(ClearedRoutes(r, id, kind)) == RouteIds(r) - {id}
  {
  }

  lemma ClearedRoutesKeep(s: State, id: RequestId, kind: Kind)
    requires RoutesInv(s, None) && id in PendingMap(s.routes, kind)
    ensures var r := ClearedRoutes(s.routes, id, kind);
      && MapsOk(s.calls, r, s.handshake) && KeysOk(r) && PromotionsOk(s.calls, r)
      && RouteIds(r) == RouteIds(s.routes) - {id}
    ensures s.link.child.Some?
  {
    hide CallsOk, KeysOk, HandshakeOk;
    ClearedKeysKeep(s.routes, id, kind);
  }

  lemma ClearedCallsKeep(s: State, id: RequestId, kind: Kind)
    requires RoutesInv(s, None) && id in PendingMap(s.routes, kind)
    ensures CallsOk(s.calls, ClearedRoutes(s.routes, id, kind), s.handshake, s.link.handshakeState,
                    Some(PendingMap(s.routes, kind)[id].owner))
  {
    var owner := PendingMap(s.routes, kind)[id].owner;
    var r := ClearedRoutes(s.routes, id, kind);
    forall c | 0 <= c < |s.calls|
      ensures CallOk(s.calls[c], c, r, s.handshake, s.link.handshakeState, Some(owner))
    {
      assert CallOk(s.calls[c], c, s.routes, s.handshake, s.link.handshakeState, None);
    }
  }

  lemma ClearedKeeps(s: State, id: RequestId, kind: Kind)
    requires RoutesInv(s, None) && id in PendingMap(s.routes, kind)
    ensures var owner := PendingMap(s.routes, kind)[id].owner;
      RoutesInv(s.(routes := ClearedRoutes(s.routes, id, kind), slots := ClearedSlots(s.slots, kind, owner)), Some(owner))
    ensures s.link.child.Some?
    ensures id !in RouteIds(ClearedRoutes(s.routes, id, kind))
  {
    ClearedRoutesKeep(s, id, kind);
    ClearedCallsKeep(s, id, kind);
  }

  lemma AddTombstoneKeeps(o: Options, s: State, id: RequestId, kind: Kind, limbo: Option<Owner>)
    requires RoutesInv(s, limbo) && id !in RouteIds(s.routes) && s.link.child.Some?
    requires id.ControlId? ==> id.serial < s.nextControl
    ensures RoutesInv(AddTombstone(o, s, id, kind), limbo)
  {
    TerminateKeeps(s, TombstoneLimit, limbo);
  }

  lemma ClearRouteKeeps(o: Options, s: State, id: RequestId, kind: Kind, tombstone: bool)
    requires RoutesInv(s, None) && id in PendingMap(s.routes, kind)
    ensures RoutesInv(ClearRoute(o, s, id, kind, tombstone), Some(PendingMap(s.routes, kind)[id].owner))
  {
    var owner := PendingMap(s.routes, kind)[id].owner;
    ClearedKeeps(s, id, kind);
    var s1 := s.(routes := ClearedRoutes(s.routes, id, kind), slots := ClearedSlots(s.slots, kind, owner));
    if tombstone {
      AddTombstoneKeeps(o, s1, id, kind, Some(owner));
      RecycleKeeps(AddTombstone(o, s1, id, kind), Some(owner));
    } else {
      RecycleKeeps(s1, Some(owner));
    }
  }

  lemma SettleKeeps(s: State, c: CallId, outcome: Outcome)
    requires RoutesInv(s, Some(CallerRoute(c)))
    ensures RoutesInv(SettleCall(s, c, outcome), None)
  {
    var t := SettleCall(s, c, outcome);
    forall d | 0 <= d < |t.calls|
      ensures CallOk(t.calls[d], d, t.routes, t.handshake, t.link.handshakeState, None)
    {
      assert CallOk(s.calls[d], d, s.routes, s.handshake, s.link.handshakeState, Some(CallerRoute(c)));
    }
  }

  lemma RejectOwnerKeeps(s: State, owner: Owner, f: Fault)
    requires RoutesInv(s, Some(owner))
    ensures RoutesInv(RejectOwner(s, owner, f), None)
  {
    match owner
    case CallerRoute(c) => SettleKeeps(s, c, Failed(f));
    case ControlRoute =>
      var t := RejectOwner(s, owner, f);
      forall d | 0 <= d < |t.calls|
        ensures CallOk(t.calls[d], d, t.routes, t.handshake, t.link.handshakeState, None)
      {
        assert CallOk(s.calls[d], d, s.routes, s.handshake, s.link.handshakeState, Some(owner));
      }
  }

  lemma AbortRouteKeeps(o: Options, s: State, id: RequestId, kind: Kind, tombstone: bool, f: Fault)
    requires RoutesInv(s, None)
    ensures RoutesInv(AbortRoute(o, s, id, kind, tombstone, f), None)
  {
    if id in PendingMap(s.routes, kind) {
      var owner := PendingMap(s.routes, kind)[id].owner;
      ClearRouteKeeps(o, s, id, kind, tombstone);
      RejectOwnerKeeps(ClearRoute(o, s, id, kind, tombstone), owner, f);
    }
  }

  // ---------- issuing ----------

  lemma IssueKeeps(o: Options, s: State, id: RequestId, kind: Kind, route: PendingRoute, size: nat, encodable: bool)
    requires RoutesInv(s.(routes := PendingRoutes(s.routes, id, kind, route)), None)
    ensures RoutesInv(Issue(o, s, id, kind, route, size, encodable), None)
  {
    var s1 := s.(routes := PendingRoutes(s.routes, id, kind, route));
    var f := WriteFault(o, s1, size, encodable);
    if f.Some? {
      AbortRouteKeeps(o, s1, id, kind, !DefinitelyUnsent(f.value), f.value);
    }
  }

  /** The routes once the waiting caller `c` has become a pending route. */
  function IssuedRoutes(r: Routes, call: Call, c: CallId, slot: bool): Routes {
    PendingRoutes(ForgetWaiting(Promoted(r, call.id), call.id, call.kind), call.id, call.kind, PendingRoute(CallerRoute(c), slot))
  }

  lemma IssuedKeysKeep(s: State, c: CallId, slot: bool)
    requires RoutesInv(s, None) && c < |s.calls| && WaitingStage(s.calls[c].stage)
    ensures var r := IssuedRoutes(s.routes, s.calls[c], c, slot); KeysOk(r) && RouteIds(r) == RouteIds(s.routes)
  {
    assert CallOk(s.calls[c], c, s.routes, s.handshake, s.link.handshakeState, None);
    var r := IssuedRoutes(s.routes, s.calls[c], c, slot);
    assert s.calls[c].id in RouteIds(s.routes);
    assert RouteIds(r) == RouteIds(s.routes);
  }

  lemma IssuedMapsKeep(s: State, c: CallId, slot: bool)
    requires RoutesInv(s, None) && c < |s.calls| && WaitingStage(s.calls[c].stage)
    ensures MapsOk(s.calls[c := s.calls[c].(stage := Issued)], IssuedRoutes(s.routes, s.calls[c], c, slot), s.handshake)
  {
    hide KeysOk, HandshakeOk, PromotionsOk, LinkOk;
    assert CallOk(s.calls[c], c, s.routes, s.handshake, s.link.handshakeState, None);
  }

  lemma IssuedPromotionsKeep(s: State, c: CallId, slot: bool)
    requires RoutesInv(s, None) && c < |s.calls| && WaitingStage(s.calls[c].stage)
    ensures PromotionsOk(s.calls[c := s.calls[c].(stage := Issued)], IssuedRoutes(s.routes, s.calls[c], c, slot))
  {
    hide HandshakeOk, LinkOk;
    assert CallOk(s.calls[c], c, s.routes, s.handshake, s.link.handshakeState, None);
  }

  lemma IssuedCallsKeep(s: State, c: CallId, slot: bool)
    requires RoutesInv(s, None) && c < |s.calls| && WaitingStage(s.calls[c].stage) && !s.calls[c].stage.Starting? && Negotiated(s.link.handshakeState)
    ensures CallsOk(s.calls[c := s.calls[c].(stage := Issued)], IssuedRoutes(s.routes, s.calls[c], c, slot),
                    s.handshake, s.link.handshakeState, None)
  {
    var calls := s.calls[c := s.calls[c].(stage := Issued)];
    var r := IssuedRoutes(s.routes, s.calls[c], c, slot);
    assert CallOk(s.calls[c], c, s.routes, s.handshake, s.link.handshakeState, None);
    forall d | 0 <= d < |calls|
      ensures CallOk(calls[d], d, r, s.handshake, s.link.handshakeState, None)
    {
      assert CallOk(s.calls[d], d, s.routes, s.handshake, s.link.handshakeState, None);
    }
  }

  lemma IssuedKeeps(s: State, c: CallId, slot: bool)
    requires RoutesInv(s, None) && c < |s.calls| && WaitingStage(s.calls[c].stage) && !s.calls[c].stage.Starting? && Negotiated(s.link.handshakeState)
    ensures RoutesInv(s.(routes := IssuedRoutes(s.routes, s.calls[c], c, slot),
                         calls := s.calls[c := s.calls[c].(stage := Issued)]), None)
  {
    IssuedKeysKeep(s, c, slot);
    IssuedMapsKeep(s, c, slot);
    IssuedPromotionsKeep(s, c, slot);
    IssuedCallsKeep(s, c, slot);
  }

  lemma ForgottenKeysKeep(s: State, c: CallId, f: Fault)
    requires RoutesInv(s, None) && c < |s.calls| && WaitingStage(s.calls[c].stage)
    ensures var r := RejectWaiting(s, c, f).routes; KeysOk(r) && RouteIds(r) == RouteIds(s.routes) - {s.calls[c].id}
  {
    assert CallOk(s.calls[c], c, s.routes, s.handshake, s.link.handshakeState, None);
    var r := RejectWaiting(s, c, f).routes;
    assert RouteIds(r) == RouteIds(s.routes) - {s.calls[c].id};
  }

  lemma ForgottenRoutesKeep(s: State, c: CallId, f: Fault)
    requires RoutesInv(s, None) && c < |s.calls| && WaitingStage(s.calls[c].stage)
    ensures var t := RejectWaiting(s, c, f); MapsOk(t.calls, t.routes, t.handshake) && PromotionsOk(t.calls, t.routes)
  {
    assert CallOk(s.calls[c], c, s.routes, s.handshake, s.link.handshakeState, None);
  }

  lemma ForgottenCallsKeep(s: State, c: CallId, f: Fault)
    requires RoutesInv(s, None) && c < |s.calls| && WaitingStage(s.calls[c].stage)
    ensures var t := RejectWaiting(s, c, f); CallsOk(t.calls, t.routes, t.handshake, t.link.handshakeState, None)
  {
    assert CallOk(s.calls[c], c, s.routes, s.handshake, s.link.handshakeState, None);
    var t := RejectWaiting(s, c, f);
    forall d | 0 <= d < |t.calls|
      ensures CallOk(t.calls[d], d, t.routes, t.handshake, t.link.handshakeState, None)
    {
      assert CallOk(s.calls[d], d, s.routes, s.handshake, s.link.handshakeState, None);
    }
  }

  lemma RejectWaitingKeeps(s: State, c: CallId, f: Fault)
    requires RoutesInv(s, None) && c < |s.calls| && WaitingStage(s.calls[c].stage)
    ensures RoutesInv(RejectWaiting(s, c, f), None)
  {
    ForgottenKeysKeep(s, c, f);
    ForgottenRoutesKeep(s, c, f);
    ForgottenCallsKeep(s, c, f);
  }

  /** `s1` is `s` with the id of the waiting caller promoted, or `s` itself if it already was. */
  lemma IssueCallKeeps(o: Options, s: State, s1: State, c: CallId, slot: bool)
    requires RoutesInv(s, None) && c < |s.calls| && WaitingStage(s.calls[c].stage) && !s.calls[c].stage.Starting? && Negotiated(s.link.handshakeState)
    requires s1 == s.(routes := Promoted(s.routes, s.calls[c].id)) || (s1 == s && s.calls[c].id in s.routes.activeIds)
    ensures RoutesInv(IssueCall(o, s1, c, slot), None)
  {
    var call := s.calls[c];
    assert CallOk(call, c, s.routes, s.handshake, s.link.handshakeState, None);
    assert Promoted(s1.routes, call.id) == Promoted(s.routes, call.id);
    match IssueFault(s1)
    case Some(f) =>
      RejectWaitingKeeps(s, c, f);
      var r0, r1 := RejectWaiting(s, c, f).routes, RejectWaiting(s1, c, f).routes;
      assert r0.activeIds == r1.activeIds;
      assert r0.waitingIds == r1.waitingIds;
      assert RejectWaiting(s1, c, f) == RejectWaiting(s, c, f);
    case None =>
      IssuedKeeps(s, c, slot);
      var s2 := SetStage(s1.(routes := ForgetWaiting(s1.routes, call.id, call.kind)), c, Issued);
      var route := PendingRoute(CallerRoute(c), slot);
      if s1 == s {
        assert s.routes.waitingIds - {call.id} == s.routes.waitingIds;
        assert s.routes.activeIds + {call.id} == s.routes.activeIds;
      }
      assert PendingRoutes(s2.routes, call.id, call.kind, route) == IssuedRoutes(s.routes, call, c, slot);
      IssueKeeps(o, s2, call.id, call.kind, route, call.size, call.encodable);
  }

  lemma PromoteAndIssueKeeps(o: Options, s: State, c: CallId, slot: bool)
    requires RoutesInv(s, None) && c < |s.calls| && WaitingStage(s.calls[c].stage) && !s.calls[c].stage.Starting? && Negotiated(s.link.handshakeState)
    ensures RoutesInv(PromoteAndIssue(o, s, c, slot), None)
  {
    match PromoteFault(o, s, s.calls[c].id)
    case Some(f) => RejectWaitingKeeps(s, c, f);
    case None => IssueCallKeeps(o, s, s.(routes := Promoted(s.routes, s.calls[c].id)), c, slot);
  }

  // ---------- handshake ----------

  function ProbeRoutes(r: Routes, id: RequestId): Routes {
    PendingRoutes(ReserveControl(r, id), id, Unary, PendingRoute(ControlRoute, true))
  }

  lemma ProbeRoutesKeep(s: State, id: RequestId, phase: Phase, limbo: Option<Owner>)
    requires RoutesInv(s, limbo) && limbo in {None, Some(ControlRoute)}
    requires limbo.None? ==> s.handshake.Idle?
    requires id.ControlId? && id !in RouteIds(s.routes)
    ensures var r := ProbeRoutes(s.routes, id);
      && MapsOk(s.calls, r, Running(phase, id)) && KeysOk(r) && PromotionsOk(s.calls, r)
      && CallsOk(s.calls, r, Running(phase, id), s.link.handshakeState, None)
      && RouteIds(r) == RouteIds(s.routes) + {id}
  {
    forall c | 0 <= c < |s.calls|
      ensures CallOk(s.calls[c], c, ProbeRoutes(s.routes, id), Running(phase, id), s.link.handshakeState, None)
    {
      assert CallOk(s.calls[c], c, s.routes, s.handshake, s.link.handshakeState, limbo);
    }
    assert forall i | i in s.routes.pendingResponses :: s.routes.pendingResponses[i].owner.CallerRoute?;
  }

  lemma ProbeKeeps(s: State, phase: Phase, limbo: Option<Owner>)
    requires RoutesInv(s, limbo) && limbo in {None, Some(ControlRoute)}
    requires limbo.None? ==> s.handshake.Idle?
    requires s.link.child.Some? && !Negotiated(s.link.handshakeState)
    requires ValidationFault(s, ControlId(s.nextControl), true).None?
    ensures var id := ControlId(s.nextControl);
      RoutesInv(s.(nextControl := s.nextControl + 1, handshake := Running(phase, id), routes := ProbeRoutes(s.routes, id)), None)
  {
    var id := ControlId(s.nextControl);
    ProbeRoutesKeep(s, id, phase, limbo);
    assert LinkOk(s.link, ProbeRoutes(s.routes, id), s.nextControl + 1, s.closed);
  }

  lemma IssueProbeKeeps(o: Options, s: State, phase: Phase)
    requires var id := ControlId(s.nextControl);
      RoutesInv(s.(nextControl := s.nextControl + 1, handshake := Running(phase, id), routes := ProbeRoutes(s.routes, id)), None)
    ensures RoutesInv(BeginControl(o, s, phase), None)
  {
    hide RoutesInv, Issue, ReserveControl, PendingRoutes;
    var id := ControlId(s.nextControl);
    IssueKeeps(o, s.(nextControl := s.nextControl + 1, handshake := Running(phase, id), routes := ReserveControl(s.routes, id)),
               id, Unary, PendingRoute(ControlRoute, true), o.controlLineBytes, true);
  }

  lemma BeginControlKeeps(o: Options, s: State, phase: Phase, limbo: Option<Owner>)
    requires RoutesInv(s, limbo) && limbo in {None, Some(ControlRoute)}
    requires limbo.None? ==> s.handshake.Idle?
    requires s.link.child.Some? && !Negotiated(s.link.handshakeState)
    requires ValidationFault(s, ControlId(s.nextControl), true).None?
    ensures RoutesInv(BeginControl(o, s, phase), None)
  {
    ProbeKeeps(s, phase, limbo);
    IssueProbeKeeps(o, s, phase);
  }

  lemma StartChildKeeps(s: State)
    requires RoutesInv(s, None) && !s.closed && s.link.handshakeState.Unknown?
    ensures RoutesInv(StartChild(s), None)
  {
    assert s.link.child.None? ==> s.routes.controlIds == {};
    assert s.link.child.None? ==> StartChild(s).routes == s.routes;
  }

  lemma EnsureHandshakeKeeps(o: Options, s: State)
    requires RoutesInv(s, None)
    ensures RoutesInv(EnsureHandshake(o, s).0, None)
    ensures EnsureHandshake(o, s).0.calls == s.calls
    ensures EnsureHandshake(o, s).1.HandshakeDone? ==> Negotiated(EnsureHandshake(o, s).0.link.handshakeState)
    ensures EnsureHandshake(o, s).1.AwaitingHandshake? ==> !EnsureHandshake(o, s).0.handshake.Idle?
    ensures WaitingStage(EnsureHandshake(o, s).1) && !EnsureHandshake(o, s).1.AwaitingSlot? && !EnsureHandshake(o, s).1.ReadyToIssue?
  {
    if !s.closed && s.link.handshakeState.Unknown? && s.handshake.Idle? && !s.writes.recycleBlocked {
      StartChildKeeps(s);
      var s1 := StartChild(s);
      if ControlFault(o, s1).None? {
        BeginControlKeeps(o, s1, Hello, None);
        BeginControlCalls(o, s1, Hello);
      }
    }
  }

  /** A probe that could not be written fails the handshake; it settles no caller. */
  lemma BeginControlCalls(o: Options, s: State, phase: Phase)
    requires ControlFault(o, s).None?
    ensures BeginControl(o, s, phase).calls == s.calls
    ensures !BeginControl(o, s, phase).handshake.Idle?
    ensures BeginControl(o, s, phase).link == s.link
  {
  }

  lemma StagedKeeps(s: State, c: CallId, g: Stage)
    requires RoutesInv(s, None) && c < |s.calls|
    requires WaitingStage(s.calls[c].stage) || s.calls[c].stage.Settled?
    requires WaitingStage(g) && (s.calls[c].unscheduled ==> s.calls[c].stage.Settled?)
    requires s.calls[c].stage.AwaitingSlot? || g.AwaitingSlot? ==> s.calls[c].stage.Settled?
    requires g.AwaitingHandshake? ==> !s.handshake.Idle?
    requires g.HandshakeDone? || g.ReadyToIssue? ==> Negotiated(s.link.handshakeState)
    requires g.ReadyToIssue? ==> s.calls[c].kind.Stream? && s.link.handshakeState.Ready?
    ensures RoutesInv(SetStage(s, c, g), None)
  {
    var t := SetStage(s, c, g);
    forall d | 0 <= d < |t.calls|
      ensures CallOk(t.calls[d], d, t.routes, t.handshake, t.link.handshakeState, None)
    {
      assert CallOk(s.calls[d], d, s.routes, s.handshake, s.link.handshakeState, None);
    }
  }

  lemma AwakenedKeeps(s: State, g: Stage, hs: HandshakeState, limbo: Option<Owner>)
    requires RoutesInv(s, limbo) && limbo in {None, Some(ControlRoute)}
    requires s.handshake.Failing? || limbo == Some(ControlRoute)
    requires (g.HandshakeDone? && Negotiated(hs) && s.link.child.Some?) || (g.HandshakeFailed? && hs == s.link.handshakeState)
    ensures RoutesInv(s.(link := s.link.(handshakeState := hs), handshake := Idle, calls := AwakenAll(s.calls, g)), None)
  {
    var t := s.(link := s.link.(handshakeState := hs), handshake := Idle, calls := AwakenAll(s.calls, g));
    forall d | 0 <= d < |t.calls|
      ensures CallOk(t.calls[d], d, t.routes, t.handshake, t.link.handshakeState, None)
    {
      assert CallOk(s.calls[d], d, s.routes, s.handshake, s.link.handshakeState, limbo);
    }
  }

  lemma RejectHelloKeeps(s: State)
    requires RoutesInv(s, Some(ControlRoute))
    ensures RoutesInv(RejectHello(s), None)
  {
    TerminateKeeps(s, HelloRejected, Some(ControlRoute));
    var t := RejectHello(s);
    forall d | 0 <= d < |t.calls|
      ensures CallOk(t.calls[d], d, t.routes, t.handshake, t.link.handshakeState, None)
    {
      assert t.calls[d].stage.Settled?;
    }
  }

  lemma FailHandshakeKeeps(s: State, f: Fault)
    requires RoutesInv(s, Some(ControlRoute))
    ensures RoutesInv(s.(handshake := Failing(f)), None)
  {
    RejectOwnerKeeps(s, ControlRoute, f);
  }

  lemma NextProbeKeeps(o: Options, s: State, phase: Phase)
    requires RoutesInv(s, Some(ControlRoute)) && s.link.child.Some?
    ensures RoutesInv(NextProbe(o, s, phase), None)
  {
    match ControlFault(o, s)
    case Some(f) =>
      FailHandshakeKeeps(s, f);
    case None => BeginControlKeeps(o, s, phase, Some(ControlRoute));
  }

  lemma AdvanceHandshakeKeeps(o: Options, s: State, reply: Reply)
    requires RoutesInv(s, Some(ControlRoute)) && s.link.child.Some?
    ensures RoutesInv(AdvanceHandshake(o, s, reply), None)
  {
    RejectHelloKeeps(s);
    match s.handshake.phase
    case Hello =>
      if reply.Failure? && reply.code == "unknown_command" {
        NextProbeKeeps(o, s, LegacyVersion);
      } else if reply.Failure? && reply.code != "backend_hello_rejected" {
        FailHandshakeKeeps(s, BackendReported(reply.code));
      } else if reply.Success? && !reply.hello.NotNegotiated? {
        NegotiateKeeps(s, if reply.hello.Multiplexed? then Ready else SingleFlight);
      }
    case LegacyVersion =>
      if reply.Success? {
        NextProbeKeeps(o, s, LegacyCapabilities(reply.legacyVersion));
      }
    case LegacyCapabilities(versionOk) =>
      NegotiateKeeps(s, Legacy);
  }

  lemma NegotiateKeeps(s: State, h: HandshakeState)
    requires RoutesInv(s, Some(ControlRoute)) && s.link.child.Some? && Negotiated(h)
    ensures RoutesInv(Negotiate(s, h), None)
  {
    AwakenedKeeps(s, HandshakeDone, h, Some(ControlRoute));
    RecycleKeeps(s.(link := s.link.(handshakeState := h), handshake := Idle, calls := AwakenAll(s.calls, HandshakeDone)), None);
  }

  // ---------- steps ----------

  /** A newly admitted caller waits under its id. */
  function AdmittedRoutes(r: Routes, id: RequestId, kind: Kind, c: CallId): Routes {
    if kind.Unary? then r.(waitingIds := r.waitingIds + {id}, waitingRequests := r.waitingRequests[id := c])
    else r.(waitingIds := r.waitingIds + {id}, waitingStreams := r.waitingStreams[id := c])
  }

  lemma AdmittedKeysKeep(r: Routes, id: RequestId, kind: Kind, c: CallId)
    requires KeysOk(r) && id !in RouteIds(r)
    ensures var r1 := AdmittedRoutes(r, id, kind, c); KeysOk(r1) && RouteIds(r1) == RouteIds(r) + {id}
  {
  }

  lemma AdmittedMapsKeep(calls: seq<Call>, r: Routes, h: Handshake, call: Call)
    requires MapsOk(calls, r, h) && call.stage.Starting?
    ensures MapsOk(calls + [call], AdmittedRoutes(r, call.id, call.kind, |calls|), h)
  {
    hide PendingMapOk;
    PendingMapGrows(calls, h, r.pendingResponses, Unary, call);
    PendingMapGrows(calls, h, r.pendingStreams, Stream, call);
  }

  lemma PendingMapGrows(calls: seq<Call>, h: Handshake, m: map<RequestId, PendingRoute>, kind: Kind, call: Call)
    requires PendingMapOk(calls, h, m, kind)
    ensures PendingMapOk(calls + [call], h, m, kind)
  {
  }

  lemma AdmittedPromotionsKeep(calls: seq<Call>, r: Routes, call: Call)
    requires PromotionsOk(calls, r) && call.stage.Starting? && call.id !in RouteIds(r)
    ensures PromotionsOk(calls + [call], AdmittedRoutes(r, call.id, call.kind, |calls|))
  {
  }

  lemma AdmittedRoutesKeep(s: State, call: Call)
    requires RoutesInv(s, None) && call.stage.Starting? && call.id !in RouteIds(s.routes)
    ensures var r := AdmittedRoutes(s.routes, call.id, call.kind, |s.calls|); var calls := s.calls + [call];
      MapsOk(calls, r, s.handshake) && KeysOk(r) && PromotionsOk(calls, r) && RouteIds(r) == RouteIds(s.routes) + {call.id}
  {
    hide AdmittedRoutes, KeysOk, MapsOk, PromotionsOk, CallsOk, LinkOk, HandshakeOk;
    AdmittedKeysKeep(s.routes, call.id, call.kind, |s.calls|);
    AdmittedMapsKeep(s.calls, s.routes, s.handshake, call);
    AdmittedPromotionsKeep(s.calls, s.routes, call);
  }

  lemma AddedCallsKeep(s: State, call: Call, r: Routes)
    requires CallsOk(s.calls, s.routes, s.handshake, s.link.handshakeState, None)
    requires call.stage.Starting? && call.id.CallerId? && ValidRequestId(call.id) && call.id !in RouteIds(s.routes)
    requires r == AdmittedRoutes(s.routes, call.id, call.kind, |s.calls|)
    ensures CallsOk(s.calls + [call], r, s.handshake, s.link.handshakeState, None)
  {
    var calls := s.calls + [call];
    forall d | 0 <= d < |calls|
      ensures CallOk(calls[d], d, r, s.handshake, s.link.handshakeState, None)
    {
      if d < |s.calls| {
        assert CallOk(s.calls[d], d, s.routes, s.handshake, s.link.handshakeState, None);
      }
    }
  }

  lemma AdmittedKeeps(s: State, call: Call)
    requires RoutesInv(s, None) && call.stage.Starting?
    requires ValidationFault(s, call.id, false).None?
    ensures RoutesInv(s.(calls := s.calls + [call], routes := AdmittedRoutes(s.routes, call.id, call.kind, |s.calls|)), None)
  {
    AdmittedRoutesKeep(s, call);
    AddedCallsKeep(s, call, AdmittedRoutes(s.routes, call.id, call.kind, |s.calls|));
  }

  lemma RefusedKeeps(s: State, call: Call)
    requires RoutesInv(s, None) && call.stage.Settled?
    ensures RoutesInv(s.(calls := s.calls + [call]), None)
  {
    var t := s.(calls := s.calls + [call]);
    forall d | 0 <= d < |t.calls|
      ensures CallOk(t.calls[d], d, t.routes, t.handshake, t.link.handshakeState, None)
    {
      if d < |s.calls| {
        assert CallOk(s.calls[d], d, s.routes, s.handshake, s.link.handshakeState, None);
      }
    }
  }

  lemma JoinKeeps(o: Options, s: State, c: CallId)
    requires RoutesInv(s, None) && c < |s.calls|
    requires s.calls[c].stage.Starting? || s.calls[c].stage.Settled?
    requires !s.calls[c].unscheduled
    ensures RoutesInv(JoinHandshake(o, s, c), None)
  {
    EnsureHandshakeKeeps(o, s);
    var (s1, g) := EnsureHandshake(o, s);
    StagedKeeps(s1, c, g);
  }

  lemma RequestKeeps(o: Options, s: State, id: RequestId, size: nat, encodable: bool)
    requires RoutesInv(s, None)
    ensures RoutesInv(Request(o, s, id, size, encodable), None)
  {
    match AdmissionFault(o, s, id, false)
    case Some(f) => RefusedKeeps(s, Call(id, Unary, size, encodable, false, Settled(Failed(f))));
    case None =>
      var call := Call(id, Unary, size, encodable, false, Starting);
      AdmittedKeeps(s, call);
      JoinKeeps(o, s.(calls := s.calls + [call], routes := AdmittedRoutes(s.routes, id, Unary, |s.calls|)), |s.calls|);
  }

  lemma OpenStreamKeeps(o: Options, s: State, id: RequestId, size: nat, encodable: bool)
    requires RoutesInv(s, None)
    ensures RoutesInv(OpenStream(o, s, id, size, encodable), None)
  {
    match AdmissionFault(o, s, id, false)
    case Some(f) => RefusedKeeps(s, Call(id, Stream, size, encodable, false, Settled(Failed(f))));
    case None => AdmittedKeeps(s, Call(id, Stream, size, encodable, true, Starting));
  }

  lemma AcquiredCallsKeep(s: State, s1: State, c: CallId)
    requires RoutesInv(s, None) && c < |s.calls| && s.calls[c].stage.HandshakeDone?
    requires s1 == if s.calls[c].kind.Unary? then s.(routes := Promoted(s.routes, s.calls[c].id)) else s
    ensures var t := AcquireSlot(s1, c); CallsOk(t.calls, t.routes, t.handshake, t.link.handshakeState, None)
  {
    var t := AcquireSlot(s1, c);
    forall d | 0 <= d < |t.calls|
      ensures CallOk(t.calls[d], d, t.routes, t.handshake, t.link.handshakeState, None)
    {
      assert CallOk(s.calls[d], d, s.routes, s.handshake, s.link.handshakeState, None);
    }
  }

  lemma AcquiredRoutesKeep(s: State, s1: State, c: CallId)
    requires RoutesInv(s, None) && c < |s.calls| && s.calls[c].stage.HandshakeDone?
    requires s1 == if s.calls[c].kind.Unary? then s.(routes := Promoted(s.routes, s.calls[c].id)) else s
    ensures var t := AcquireSlot(s1, c); MapsOk(t.calls, t.routes, t.handshake) && PromotionsOk(t.calls, t.routes)
  {
    assert CallOk(s.calls[c], c, s.routes, s.handshake, s.link.handshakeState, None);
  }

  lemma AcquiredKeeps(s: State, s1: State, c: CallId)
    requires RoutesInv(s, None) && c < |s.calls| && s.calls[c].stage.HandshakeDone?
    requires s1 == if s.calls[c].kind.Unary? then s.(routes := Promoted(s.routes, s.calls[c].id)) else s
    ensures RoutesInv(AcquireSlot(s1, c), None)
  {
    assert CallOk(s.calls[c], c, s.routes, s.handshake, s.link.handshakeState, None);
    AcquiredCallsKeep(s, s1, c);
    AcquiredRoutesKeep(s, s1, c);
    var t := AcquireSlot(s1, c);
    assert RouteIds(t.routes) == RouteIds(s.routes);
    assert KeysOk(t.routes);
  }

  lemma ContinueKeeps(o: Options, s: State, c: CallId)
    requires RoutesInv(s, None)
    ensures RoutesInv(Continue(o, s, c), None)
  {
    if c < |s.calls| {
      assert CallOk(s.calls[c], c, s.routes, s.handshake, s.link.handshakeState, None);
      match s.calls[c].stage
      case HandshakeFailed(f) => RejectWaitingKeeps(s, c, f);
      case HandshakeDone =>
        if s.calls[c].kind.Stream? {
          if IsSingleFlight(s.link.handshakeState) {
            AcquiredKeeps(s, s, c);
          } else {
            StagedKeeps(s, c, ReadyToIssue);
          }
        } else if IsSingleFlight(s.link.handshakeState) {
          match PromoteFault(o, s, s.calls[c].id)
          case Some(f) => RejectWaitingKeeps(s, c, f);
          case None => AcquiredKeeps(s, s.(routes := Promoted(s.routes, s.calls[c].id)), c);
        } else {
          PromoteAndIssueKeeps(o, s, c, false);
        }
      case ReadyToIssue => PromoteAndIssueKeeps(o, s, c, false);
      case _ =>
    }
  }

  lemma GrantSlotKeeps(o: Options, s: State)
    requires RoutesInv(s, None)
    ensures RoutesInv(GrantSlot(o, s), None)
  {
    if !s.slots.granted && s.slots.queue != [] {
      var c := s.slots.queue[0];
      var s1 := s.(slots := s.slots.(granted := true));
      if c < |s.calls| && s.calls[c].stage.AwaitingSlot? {
        assert CallOk(s.calls[c], c, s.routes, s.handshake, s.link.handshakeState, None);
        if s.calls[c].kind.Unary? {
          IssueCallKeeps(o, s1, s1, c, true);
        } else {
          PromoteAndIssueKeeps(o, s1, c, true);
        }
      }
    }
  }

  lemma WriteStepsKeep(o: Options, s: State, retired: bool, failed: bool)
    requires RoutesInv(s, None)
    ensures RoutesInv(TurnWrite(o, s, retired), None)
    ensures RoutesInv(FinishWrite(o, s, retired, failed), None)
  {
    var chain := Chain(s.writes, retired);
    if chain != [] {
      var e := chain[0];
      var s1 := s.(writes := ReleaseHead(s.writes, retired));
      AbortRouteKeeps(o, s1, e.id, e.kind, true, StdinFailure);
      if TurnFault(s, e).Some? {
        var f := TurnFault(s, e).value;
        AbortRouteKeeps(o, s1, e.id, e.kind, !DefinitelyUnsent(f), f);
      }
    }
  }

  lemma AbortPendingKeeps(o: Options, s: State, id: RequestId, kind: Kind, f: Fault, fatal: bool)
    requires RoutesInv(s, None)
    ensures RoutesInv(AbortPending(o, s, id, kind, f, fatal), None)
  {
    AbortRouteKeeps(o, s, id, kind, true, f);
    TerminateKeeps(AbortRoute(o, s, id, kind, true, f), f, None);
  }

  lemma CancelKeeps(o: Options, s: State, id: RequestId)
    requires RoutesInv(s, None)
    ensures RoutesInv(Cancel(o, s, id), None)
  {
    if id in s.routes.waitingRequests {
      RejectWaitingKeeps(s, s.routes.waitingRequests[id], RequestCancelled);
    } else if id in s.routes.waitingStreams {
      RejectWaitingKeeps(s, s.routes.waitingStreams[id], RequestCancelled);
    } else {
      AbortPendingKeeps(o, s, id, Unary, RequestCancelled, false);
      AbortPendingKeeps(o, s, id, Stream, RequestCancelled, false);
    }
  }

  lemma TimeoutKeeps(o: Options, s: State, id: RequestId)
    requires RoutesInv(s, None)
    ensures RoutesInv(Timeout(o, s, id), None)
  {
    if id in s.routes.pendingResponses {
      AbortPendingKeeps(o, s, id, Unary, BackendTimeout, s.routes.pendingResponses[id].fatalOnTimeout);
    } else if id in s.routes.pendingStreams {
      AbortPendingKeeps(o, s, id, Stream, BackendTimeout, s.routes.pendingStreams[id].fatalOnTimeout);
    }
  }

  lemma CloseKeeps(s: State)
    requires RoutesInv(s, None)
    ensures RoutesInv(Close(s), None)
  {
    TerminateKeeps(s, BackendClosed, None);
    assert Close(s) == Terminate(s, BackendClosed).(closed := true);
  }

  lemma QuarantineKeeps(o: Options, s: State, id: RequestId)
    requires RoutesInv(s, None) && s.link.child.Some?
    ensures RoutesInv(DiscardOrQuarantine(o, s, id), None)
  {
    if !(id in s.link.tombstones || id in s.link.quarantinedIds) {
      if |s.link.quarantinedIds| >= o.quarantineLimit {
        TerminateKeeps(s, QuarantineLimit, None);
      } else {
        RecycleKeeps(s.(link := s.link.(quarantinedIds := s.link.quarantinedIds + {id},
                                        quarantined := true, quarantineTimer := true)), None);
      }
    }
  }

  lemma ClearFinishedKeeps(o: Options, s: State, id: RequestId, kind: Kind)
    requires RoutesInv(s, None) && id in PendingMap(s.routes, kind)
    ensures var t := ClearRoute(o, s, id, kind, false); var owner := PendingMap(s.routes, kind)[id].owner;
      RoutesInv(t, Some(owner)) && (owner.ControlRoute? ==> t.link.child.Some?)
  {
    ClearRouteKeeps(o, s, id, kind, false);
    ClearedKeeps(s, id, kind);
    if PendingMap(s.routes, kind)[id].owner.ControlRoute? {
      assert !s.handshake.Idle?;
    }
  }

  lemma ResponseKeeps(o: Options, s: State, id: RequestId, reply: Reply, cause: Option<Line>)
    requires RoutesInv(s, None) && s.link.child.Some?
    ensures RoutesInv(HandleResponse(o, s, id, reply, cause), None)
  {
    hide Terminate, ClearRoute, SettleCall, DiscardOrQuarantine, AdvanceHandshake, CallsOk, KeysOk, PromotionsOk,
      HandshakeOk;
    if id in s.routes.pendingResponses {
      var owner := s.routes.pendingResponses[id].owner;
      var s0 := Record(s, owner, cause);
      ClearFinishedKeeps(o, s0, id, Unary);
      var s1 := ClearRoute(o, s0, id, Unary, false);
      match owner
      case CallerRoute(c) => SettleKeeps(s1, c, Answered(reply));
      case ControlRoute => AdvanceHandshakeKeeps(o, s1, reply);
    } else {
      TerminateKeeps(s, UnexpectedResponse, None);
      QuarantineKeeps(o, s, id);
    }
  }

  lemma EventKeeps(o: Options, s: State, id: RequestId, t: EventType, queued: bool, cause: Option<Line>)
    requires RoutesInv(s, None) && s.link.child.Some?
    ensures RoutesInv(HandleEvent(o, s, id, t, queued, cause), None)
  {
    hide Terminate, AbortRoute, ClearRoute, SettleCall, DiscardOrQuarantine, KeysOk, PromotionsOk;
    if id in s.routes.pendingStreams {
      var owner := s.routes.pendingStreams[id].owner;
      var s0 := Record(s, owner, cause);
      AbortRouteKeeps(o, s, id, Stream, true, StreamOverflow);
      match t
      case Completed =>
        ClearFinishedKeeps(o, s0, id, Stream);
        SettleKeeps(ClearRoute(o, s0, id, Stream, false), owner.call, Finished);
      case ErrorEvent(code) => AbortRouteKeeps(o, s0, id, Stream, false, BackendReported(code));
      case _ =>
    } else {
      TerminateKeeps(s, UnexpectedEvent, None);
      QuarantineKeeps(o, s, id);
    }
  }

  lemma DeliverKeeps(o: Options, s: State, g: Generation, m: Message, queued: bool, cause: Option<Line>)
    requires RoutesInv(s, None)
    ensures RoutesInv(Deliver(o, s, g, m, queued, cause), None)
  {
    if s.link.child == Some(g) {
      var s1 := s.(wire := EndLine(s.wire, m, cause));
      match m
      case Malformed => TerminateKeeps(s1, InvalidMessage, None);
      case Response(id, reply) => ResponseKeeps(o, s1, id, reply, cause);
      case Event(id, t) => EventKeeps(o, s1, id, t, queued, cause);
    }
  }

  lemma SettleHandshakeKeeps(s: State)
    requires RoutesInv(s, None)
    ensures RoutesInv(SettleHandshake(s), None)
  {
    if s.handshake.Failing? {
      AwakenedKeeps(s, HandshakeFailed(s.handshake.fault), s.link.handshakeState, None);
      RecycleKeeps(s.(handshake := Idle, calls := AwakenAll(s.calls, HandshakeFailed(s.handshake.fault))), None);
    }
  }

  lemma ScheduleKeeps(o: Options, s: State, c: CallId)
    requires RoutesInv(s, None)
    ensures RoutesInv(ScheduleStream(o, s, c), None)
  {
    if c < |s.calls| && s.calls[c].unscheduled {
      var s1 := s.(calls := s.calls[c := s.calls[c].(unscheduled := false)]);
      assert CallOk(s.calls[c], c, s.routes, s.handshake, s.link.handshakeState, None);
      forall d | 0 <= d < |s1.calls|
        ensures CallOk(s1.calls[d], d, s1.routes, s1.handshake, s1.link.handshakeState, None)
      {
        assert CallOk(s.calls[d], d, s.routes, s.handshake, s.link.handshakeState, None);
      }
      JoinKeeps(o, s1, c);
    }
  }

  lemma ApplyKeeps(o: Options, s: State, t: Step)
    requires RoutesInv(s, None)
    ensures RoutesInv(Apply(o, s, t), None)
  {
    hide Request, OpenStream, ScheduleStream, Continue, SettleHandshake, GrantSlot, TurnWrite, FinishWrite, Timeout,
      Cancel, Deliver, Terminate, TombstoneTimer, Recycle, Close, MapsOk, CallsOk, KeysOk, PromotionsOk, HandshakeOk,
      LinkOk;
    match t
    case RequestStep(id, size, encodable) => RequestKeeps(o, s, id, size, encodable);
    case StreamStep(id, size, encodable) => OpenStreamKeeps(o, s, id, size, encodable);
    case ScheduleStep(c) => ScheduleKeeps(o, s, c);
    case ContinueStep(c) => ContinueKeeps(o, s, c);
    case SettleHandshakeStep => SettleHandshakeKeeps(s);
    case GrantSlotStep => GrantSlotKeeps(o, s);
    case TurnStep(retired) => WriteStepsKeep(o, s, retired, false);
    case FinishStep(retired, failed) => WriteStepsKeep(o, s, retired, failed);
    case RetiredDrainedStep =>
    case TimeoutStep(id) => TimeoutKeeps(o, s, id);
    case CancelStep(id) => CancelKeeps(o, s, id);
    case DeliverStep(g, m, queued, cause) => DeliverKeeps(o, s, g, m, queued, cause);
    case ChildFailedStep(g, f) => TerminateKeeps(s, f, None);
    case TombstoneTimerStep => TombstoneTimerKeeps(s);
    case QuarantineTimerStep => RecycleKeeps(s, None);
    case CloseStep => CloseKeeps(s);
  }

  lemma TombstoneTimerKeeps(s: State)
    requires RoutesInv(s, None)
    ensures RoutesInv(TombstoneTimer(s), None)
  {
    TerminateKeeps(s, LateOutputTimeout, None);
    if s.link.tombstones != map[] {
      assert TombstoneTimer(s) == Terminate(s, LateOutputTimeout);
    }
  }

  lemma {:induction false} RunKeeps(o: Options, trace: seq<State>, steps: seq<Step>, n: nat)
    requires IsRun(o, trace, steps) && n <= |steps| && RoutesInv(trace[0], None)
    ensures RoutesInv(trace[n], None)
  {
    hide RoutesInv, Apply;
    if n > 0 {
      RunKeeps(o, trace, steps, n - 1);
      ApplyKeeps(o, trace[n - 1], steps[n - 1]);
      assert trace[n - 1 + 1] == Apply(o, trace[n - 1], steps[n - 1]);
    }
  }

  /** The invariant holds in every reachable state. */
  lemma ReachableRoutes(o: Options, s: State)
    requires Reachable(o, s)
    ensures RoutesInv(s, None)
  {
    assert RoutesInv(INITIAL, None);
    hide RoutesInv, Apply;
    var trace, steps :| IsRun(o, trace, steps) && trace[0] == INITIAL && trace[|steps|] == s;
    RunKeeps(o, trace, steps, |steps|);
  }
}
