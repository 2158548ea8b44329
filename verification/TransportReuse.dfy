/** What reuse of caller ids costs: fresh ids keep correlation, and an id shared with a write
    that is still queued for a replaced child breaks it. */
module TransportReuse {
  import opened Common
  import opened TransportState
  import opened TransportSteps
  import opened TransportRuns
  import opened TransportRoutes
  import opened TransportCallers
  import opened TransportWrites
  import opened TransportCorrelation
  import opened TransportGate

  // ---------- fresh ids are enough ----------

  ghost predicate FreshId(s: State, id: RequestId) {
    id.CallerId? && forall c | 0 <= c < |s.calls| :: s.calls[c].id != id
  }

  /** The callers use fresh ids and the backend is honest. */
  ghost predicate Fresh(s: State, t: Step) {
    match t
    case RequestStep(id, _, _) => FreshId(s, id)
    case StreamStep(id, _, _) => FreshId(s, id)
    case _ => Honest(s, t)
  }

  ghost predicate FreshRun(o: Options, trace: seq<State>, steps: seq<Step>) {
    && IsRun(o, trace, steps)
    && forall i {:trigger Fresh(trace[i], steps[i])} | 0 <= i < |steps| :: Fresh(trace[i], steps[i])
  }

  lemma FreshIsClean(o: Options, s: State, id: RequestId, kind: Kind)
    requires WritesInv(o, s) && FreshId(s, id)
    ensures CleanId(s, id, kind)
  {
    assert forall i | 0 <= i < |RetiredWrites(s.writes)| :: Known(s.calls, s.nextControl, RetiredWrites(s.writes)[i]);
  }

  /** The ids that `allocateRequestId` hands out are never used twice, so the client it serves never
      sees a collision and is correlated on every run. */
  lemma FreshIdsCorrelate(o: Options, trace: seq<State>, steps: seq<Step>)
    requires FreshRun(o, trace, steps) && trace[0] == INITIAL
    ensures NoCollision(trace, steps) && Correlated(trace[|steps|].wire.delivered)
  {
    hide Apply, WritesInv, RoutesInv, FreshId, CleanId, Collides;
    InitialOk(true, o);
    forall i: nat | i < |steps| ensures Honest(trace[i], steps[i]) && Clean(trace[i], steps[i]) {
      assert Fresh(trace[i], steps[i]);
      RunKeepsWrites(o, trace, steps, i);
      if steps[i].RequestStep? || steps[i].StreamStep? {
        FreshIsClean(o, trace[i], steps[i].id, if steps[i].RequestStep? then Unary else Stream);
      }
    }
    CleanIdsCorrelate(o, trace, steps);
    Correlation(o, trace[|steps|]);
  }

  // ---------- what a shared id does ----------

  /** The turn of a write queued for a replaced child changes the live routes exactly when a
      live route of its kind holds its id; that route is then dropped without a tombstone and
      its caller is rejected for a write it never made. */
  lemma StaleTurn(o: Options, s: State)
    requires WritesInv(o, s) && RoutesInv(s, None)
    requires RetiredWrites(s.writes) != [] && !RetiredWrites(s.writes)[0].started && !s.link.quarantined
    ensures var e := RetiredWrites(s.writes)[0]; var t := TurnWrite(o, s, true);
      && (t.routes != s.routes <==> e.id in PendingMap(s.routes, e.kind))
      && (e.id in PendingMap(s.routes, e.kind) && PendingMap(s.routes, e.kind)[e.id].owner.CallerRoute? ==>
            var c := PendingMap(s.routes, e.kind)[e.id].owner.call;
            && c < |t.calls| && t.calls[c].stage == Settled(Failed(BackendClosed))
            && e.id !in RouteIds(t.routes) && t.link.tombstones == s.link.tombstones && t.wire == s.wire)
  {
    var e := RetiredWrites(s.writes)[0];
    assert TurnFault(s, e) == Some(BackendClosed) || s.closed || s.link.child.None? || s.link.handshakeState.Blocked?;
    if e.id in PendingMap(s.routes, e.kind) {
      ClearedRoutesKeep(s, e.id, e.kind);
      assert TurnFault(s, e) == Some(BackendClosed);
    }
  }

  lemma ClearRouteKeepsDelivered(o: Options, s: State, id: RequestId, kind: Kind)
    requires id in PendingMap(s.routes, kind)
    ensures ClearRoute(o, s, id, kind, false).wire.delivered == s.wire.delivered
  {
  }

  /** A message for the pending route of a caller is delivered to that caller. */
  lemma DeliveredToOwner(o: Options, s: State, m: Message, cause: Option<Line>, kind: Kind, d: CallId)
    requires s.link.child.Some? && !m.Malformed? && (m.Response? <==> kind.Unary?)
    requires m.id in PendingMap(s.routes, kind) && PendingMap(s.routes, kind)[m.id].owner == CallerRoute(d)
    ensures Deliver(o, s, s.link.child.value, m, true, cause).wire.delivered == s.wire.delivered + [Delivery(d, cause)]
  {
    hide ClearRoute, SettleCall, AdvanceHandshake;
    ClearRouteKeepsDelivered(o, Record(s.(wire := EndLine(s.wire, m, cause)), CallerRoute(d), cause), m.id, kind);
    SettleKeepsWire(ClearRoute(o, Record(s.(wire := EndLine(s.wire, m, cause)), CallerRoute(d), cause), m.id, kind, false), d);
  }

  lemma SettleKeepsWire(s: State, d: CallId)
    ensures forall outcome :: SettleCall(s, d, outcome).wire == s.wire
  {
  }

  lemma TerminateEndsChild(s: State, f: Fault)
    ensures Terminate(s, f).link.child.None?
  {
    hide LiveCalls, SettleAll, RetireWrites;
  }

  lemma UnknownIdIsFatal(o: Options, s: State, id: RequestId)
    requires s.link.quarantined <==> s.link.quarantinedIds != {}
    requires id !in s.link.tombstones
    ensures var l := DiscardOrQuarantine(o, s, id).link; l.child.None? || l.quarantined
  {
    hide Terminate, RouteIds;
    TerminateEndsChild(s, QuarantineLimit);
    TerminateEndsChild(s.(link := s.link.(quarantinedIds := s.link.quarantinedIds + {id}, quarantined := false, quarantineTimer := false)),
                       ProtocolQuarantined);
  }

  /** A message that finds neither a route nor a tombstone of its kind costs the child, or puts the
      transport into quarantine. */
  lemma UnknownIsFatal(o: Options, s: State, m: Message, cause: Option<Line>, kind: Kind)
    requires RoutesInv(s, None) && s.link.child.Some? && !m.Malformed? && (m.Response? <==> kind.Unary?)
    requires m.id !in PendingMap(s.routes, kind) && !(m.id in s.link.tombstones && s.link.tombstones[m.id] == kind)
    ensures var l := Deliver(o, s, s.link.child.value, m, true, cause).link; l.child.None? || l.quarantined
  {
    hide MapsOk, CallsOk, KeysOk, PromotionsOk, HandshakeOk, Terminate, DiscardOrQuarantine, ClearRoute, AbortRoute, AdvanceHandshake;
    var s1 := s.(wire := EndLine(s.wire, m, cause));
    TerminateEndsChild(s1, UnexpectedResponse);
    TerminateEndsChild(s1, UnexpectedEvent);
    if m.id !in s.link.tombstones {
      UnknownIdIsFatal(o, s1, m.id);
    }
  }

  /** Once a collision has dropped the route of an open line, its caller has been refused, and no
      answer to the line ever reaches it. Whatever runs first, an honest answer to the line goes to
      another caller of the id, or is swallowed by the tombstone of one, or costs the child or a
      quarantine; and if it comes at once, it is the last of these. */
  lemma CollisionLosesAnswer(o: Options, s: State, u: State, x: Line, m: Message)
    requires Reachable(o, s) && !s.link.quarantined && Collides(s, TurnStep(true))
    requires var e := RetiredWrites(s.writes)[0]; x.id == e.id && x.kind == e.kind
    requires x.owner.CallerRoute? && OwnRoutePending(s, x)
    requires Leads(o, TurnWrite(o, s, true), u) && u.link.child == Some(x.child) && Answers(m, x)
    ensures var c := x.owner.call; c < |u.calls| && u.calls[c].stage == Settled(Failed(BackendClosed))
    ensures var v := Apply(o, u, DeliverStep(x.child, m, true, Some(x)));
      if x.id in PendingMap(u.routes, x.kind) then
        exists d: CallId :: d != x.owner.call && v.wire.delivered == u.wire.delivered + [Delivery(d, Some(x))]
      else (x.id in u.link.tombstones && u.link.tombstones[x.id] == x.kind) || v.link.child.None? || v.link.quarantined
    ensures u == TurnWrite(o, s, true) ==>
      var v := Apply(o, u, DeliverStep(x.child, m, true, Some(x))); v.link.child.None? || v.link.quarantined
  {
    hide Apply, Deliver, TurnWrite, RoutesInv, WritesInv, CallsOk, KeysOk, PromotionsOk, HandshakeOk, NoTrace;
    var c, t := x.owner.call, TurnWrite(o, s, true);
    ReachableWrites(o, s);
    CollisionDropsRoute(o, s);
    AfterTurn(o, s, u);
    LeadsKeepsCaller(o, t, u, c);
    DeliverIs(o, u, x, m);
    if x.id in PendingMap(u.routes, x.kind) {
      var d := PendingOwner(u, s, x);
      DeliveredToOwner(o, u, m, Some(x), x.kind, d);
    } else if !(x.id in u.link.tombstones && u.link.tombstones[x.id] == x.kind) {
      UnknownIsFatal(o, u, m, Some(x), x.kind);
    }
  }

  lemma DeliverIs(o: Options, u: State, x: Line, m: Message)
    ensures Apply(o, u, DeliverStep(x.child, m, true, Some(x))) == Deliver(o, u, x.child, m, true, Some(x))
  {
    hide Deliver;
  }

  lemma AfterTurn(o: Options, s: State, u: State)
    requires Reachable(o, s) && Leads(o, TurnWrite(o, s, true), u)
    ensures RoutesInv(u, None)
  {
    hide RoutesInv, TurnWrite;
    ReachableRoutes(o, s);
    ApplyKeeps(o, s, TurnStep(true));
    var trace, steps :| IsRun(o, trace, steps) && trace[0] == TurnWrite(o, s, true) && trace[|steps|] == u;
    RunKeeps(o, trace, steps, |steps|);
  }

  /** The route that is pending later belongs to a caller which is not settled. */
  lemma PendingOwner(u: State, s: State, x: Line) returns (d: CallId)
    requires RoutesInv(u, None) && RoutesInv(s, None) && OwnRoutePending(s, x) && x.owner.CallerRoute?
    requires x.id in PendingMap(u.routes, x.kind) && x.owner.call < |u.calls| && u.calls[x.owner.call].stage.Settled?
    ensures PendingMap(u.routes, x.kind)[x.id].owner == CallerRoute(d) && d != x.owner.call
  {
    hide KeysOk, PromotionsOk;
    assert CallOk(s.calls[x.owner.call], x.owner.call, s.routes, s.handshake, s.link.handshakeState, None);
    assert x.id.CallerId?;
    assert PendingMap(u.routes, x.kind)[x.id].owner.CallerRoute?;
    d := PendingMap(u.routes, x.kind)[x.id].owner.call;
  }

  // ---------- a concrete run ----------

  const O := Options(8, 8, 1000, 8, 8, 1000, 10)
  const X := CallerId("x")
  const C0 := ControlId(0)
  const C1 := ControlId(1)
  const ACCEPTED := Success(Multiplexed, false, false)

  const HELLO0 := WriteAdmission(0, C0, Unary, ControlRoute, 10, 0, false)
  const X0 := WriteAdmission(1, X, Unary, CallerRoute(0), 1, 0, false)
  const HELLO1 := WriteAdmission(2, C1, Unary, ControlRoute, 10, 1, false)
  const X1 := WriteAdmission(3, X, Unary, CallerRoute(1), 1, 1, false)
  const X2 := WriteAdmission(4, X, Unary, CallerRoute(2), 1, 1, false)

  function Started(e: WriteAdmission): WriteAdmission {
    e.(started := true)
  }

  function XCall(g: Stage): Call {
    Call(X, Unary, 1, true, false, g)
  }

  function Up(g: Generation, hs: HandshakeState): Link {
    Link(Some(g), g + 1, hs, map[], false, {}, false, false)
  }

  function ProbeRoute(id: RequestId): Routes {
    Routes(map[], map[], map[id := PendingRoute(ControlRoute, true)], map[], {}, {id}, {id})
  }

  function XRoute(c: CallId): Routes {
    Routes(map[], map[], map[X := PendingRoute(CallerRoute(c), false)], map[], {}, {X}, {})
  }

  function Waiting(r: Routes, c: CallId): Routes {
    r.(waitingRequests := map[X := c], waitingIds := {X})
  }

  const LOST := XCall(Settled(Failed(BackendExited)))
  const REFUSED := XCall(Settled(Failed(BackendClosed)))
  const NO_SLOTS := Slots([], false)

  /** The first child answers hello while the stdin callback of the hello is outstanding, so the
      line of caller 0 queues behind it; then the child exits. */
  const STEP0 := RequestStep(X, 1, true)
  const STEP1 := TurnStep(false)
  const STEP2 := DeliverStep(0, Response(C0, ACCEPTED), true, Some(LineOf(HELLO0)))
  const STEP3 := ContinueStep(0)
  const STEP4 := ChildFailedStep(0, BackendExited)

  const STATE1 := INITIAL.(
    calls := [XCall(AwaitingHandshake)], routes := Waiting(ProbeRoute(C0), 0),
    writes := Writes([HELLO0], None, false, 1, 10, 1), link := Up(0, Unknown),
    handshake := Running(Hello, C0), nextControl := 1)
  const STATE2 := STATE1.(
    writes := Writes([Started(HELLO0)], None, false, 1, 10, 1), wire := Wire([LineOf(HELLO0)], {LineOf(HELLO0)}, []))
  const STATE3 := STATE2.(
    calls := [XCall(HandshakeDone)], routes := Waiting(NO_ROUTES, 0), link := Up(0, Ready), handshake := Idle,
    wire := Wire([LineOf(HELLO0)], {}, []))
  const STATE4 := STATE3.(
    calls := [XCall(Issued)], routes := XRoute(0), writes := Writes([Started(HELLO0), X0], None, false, 2, 11, 2))
  const STATE5 := STATE4.(
    calls := [LOST], routes := NO_ROUTES, writes := Writes([], Some([Started(HELLO0), X0]), false, 2, 11, 2),
    link := Link(None, 1, Unknown, map[], false, {}, false, false))

  /** Caller 1 asks again under the same id; its line reaches the second child. */
  const STEP5 := RequestStep(X, 1, true)
  const STEP6 := TurnStep(false)
  const STEP7 := DeliverStep(1, Response(C1, ACCEPTED), true, Some(LineOf(HELLO1)))
  const STEP8 := FinishStep(false, false)
  const STEP9 := ContinueStep(1)
  const STEP10 := TurnStep(false)

  const DETACHED := Some([Started(HELLO0), X0])
  const STATE6 := STATE5.(
    calls := [LOST, XCall(AwaitingHandshake)], routes := Waiting(ProbeRoute(C1), 1),
    writes := Writes([HELLO1], DETACHED, false, 3, 21, 3), link := Up(1, Unknown),
    handshake := Running(Hello, C1), nextControl := 2)
  const STATE7 := STATE6.(
    writes := Writes([Started(HELLO1)], DETACHED, false, 3, 21, 3),
    wire := Wire([LineOf(HELLO0), LineOf(HELLO1)], {LineOf(HELLO1)}, []))
  const STATE8 := STATE7.(
    calls := [LOST, XCall(HandshakeDone)], routes := Waiting(NO_ROUTES, 1), link := Up(1, Ready), handshake := Idle,
    wire := Wire([LineOf(HELLO0), LineOf(HELLO1)], {}, []))
  const STATE9 := STATE8.(writes := Writes([], DETACHED, false, 2, 11, 3))
  const STATE10 := STATE9.(
    calls := [LOST, XCall(Issued)], routes := XRoute(1), writes := Writes([X1], DETACHED, false, 3, 12, 4))
  const STATE11 := STATE10.(
    writes := Writes([Started(X1)], DETACHED, false, 3, 12, 4),
    wire := Wire([LineOf(HELLO0), LineOf(HELLO1), LineOf(X1)], {LineOf(X1)}, []))

  /** The detached chain takes its turn and drops the live route of caller 1; caller 2 is
      admitted under the same id and receives the answer to the line of caller 1. */
  const STEP11 := FinishStep(true, false)
  const STEP12 := TurnStep(true)
  const STEP13 := RequestStep(X, 1, true)
  const STEP14 := ContinueStep(2)
  const STEP15 := DeliverStep(1, Response(X, ACCEPTED), true, Some(LineOf(X1)))

  const STATE12 := STATE11.(writes := Writes([Started(X1)], Some([X0]), false, 2, 2, 4))
  const STATE13 := STATE12.(
    calls := [LOST, REFUSED], routes := NO_ROUTES, writes := Writes([Started(X1)], Some([]), false, 1, 1, 4))
  const STATE14 := STATE13.(calls := [LOST, REFUSED, XCall(HandshakeDone)], routes := Waiting(NO_ROUTES, 2))
  const STATE15 := STATE14.(
    calls := [LOST, REFUSED, XCall(Issued)], routes := XRoute(2),
    writes := Writes([Started(X1), X2], Some([]), false, 2, 2, 5))
  const STATE16 := STATE15.(
    calls := [LOST, REFUSED, XCall(Settled(Answered(ACCEPTED)))], routes := NO_ROUTES,
    wire := Wire([LineOf(HELLO0), LineOf(HELLO1), LineOf(X1)], {}, [Delivery(2, Some(LineOf(X1)))]))

  const FIRST_CHILD := [STEP0, STEP1, STEP2, STEP3, STEP4]
  const SECOND_CHILD := [STEP5, STEP6, STEP7, STEP8, STEP9, STEP10]
  const THIRD_CALLER := [STEP11, STEP12, STEP13, STEP14, STEP15]

  lemma After0()
    ensures Apply(O, INITIAL, STEP0) == STATE1
  {
    assert ValidationFault(INITIAL, X, false).None?;
  }

  lemma After1()
    ensures Apply(O, STATE1, STEP1) == STATE2
  {
  }

  lemma After2()
    ensures Apply(O, STATE2, STEP2) == STATE3
  {
  }

  lemma After3()
    ensures Apply(O, STATE3, STEP3) == STATE4
  {
  }

  lemma After4()
    ensures Apply(O, STATE4, STEP4) == STATE5
  {
    assert XRoute(0).pendingResponses[X].owner == CallerRoute(0);
    assert LiveCalls(XRoute(0)) == {0};
    assert SettleAll([XCall(Issued)], {0}, Failed(BackendExited)) == [LOST];
    assert HoldsWriteOf(STATE4.writes.tail, 0) by { assert STATE4.writes.tail[0].child == 0; }
  }

  lemma After5()
    ensures Apply(O, STATE5, STEP5) == STATE6
  {
  }

  lemma After6()
    ensures Apply(O, STATE6, STEP6) == STATE7
  {
  }

  lemma After7()
    ensures Apply(O, STATE7, STEP7) == STATE8
  {
  }

  lemma After8()
    ensures Apply(O, STATE8, STEP8) == STATE9
  {
  }

  lemma After9()
    ensures Apply(O, STATE9, STEP9) == STATE10
  {
  }

  lemma After10()
    ensures Apply(O, STATE10, STEP10) == STATE11
  {
  }

  lemma After11()
    ensures Apply(O, STATE11, STEP11) == STATE12
  {
  }

  lemma After12()
    ensures Apply(O, STATE12, STEP12) == STATE13
  {
    assert XRoute(1).pendingResponses - {X} == map[];
    assert [X0][1..] == [];
  }

  lemma After13()
    ensures Apply(O, STATE13, STEP13) == STATE14
  {
  }

  lemma After14()
    ensures Apply(O, STATE14, STEP14) == STATE15
  {
  }

  lemma After15()
    ensures Apply(O, STATE15, STEP15) == STATE16
  {
  }

  lemma RunStep(s: State, t: Step, u: State, rest: seq<Step>, steps: seq<Step>, v: State)
    requires Apply(O, s, t) == u && Run(O, u, rest) == v && steps == [t] + rest
    ensures Run(O, s, steps) == v
  {
    hide Apply;
    assert steps[1..] == rest;
  }

  lemma RunNothing(s: State)
    ensures Run(O, s, []) == s
  {
    hide Apply;
  }

  lemma FirstChildRuns()
    ensures Run(O, INITIAL, FIRST_CHILD) == STATE5
  {
    hide Apply, Run;
    RunNothing(STATE5);
    After4(); RunStep(STATE4, STEP4, STATE5, [], [STEP4], STATE5);
    After3(); RunStep(STATE3, STEP3, STATE4, [STEP4], [STEP3, STEP4], STATE5);
    After2(); RunStep(STATE2, STEP2, STATE3, [STEP3, STEP4], [STEP2, STEP3, STEP4], STATE5);
    After1(); RunStep(STATE1, STEP1, STATE2, [STEP2, STEP3, STEP4], [STEP1, STEP2, STEP3, STEP4], STATE5);
    After0(); RunStep(INITIAL, STEP0, STATE1, [STEP1, STEP2, STEP3, STEP4], [STEP0, STEP1, STEP2, STEP3, STEP4], STATE5);
  }

  lemma SecondChildRuns()
    ensures Run(O, STATE5, SECOND_CHILD) == STATE11
  {
    hide Apply, Run;
    RunNothing(STATE11);
    After10(); RunStep(STATE10, STEP10, STATE11, [], [STEP10], STATE11);
    After9(); RunStep(STATE9, STEP9, STATE10, [STEP10], [STEP9, STEP10], STATE11);
    After8(); RunStep(STATE8, STEP8, STATE9, [STEP9, STEP10], [STEP8, STEP9, STEP10], STATE11);
    After7(); RunStep(STATE7, STEP7, STATE8, [STEP8, STEP9, STEP10], [STEP7, STEP8, STEP9, STEP10], STATE11);
    After6(); RunStep(STATE6, STEP6, STATE7, [STEP7, STEP8, STEP9, STEP10], [STEP6, STEP7, STEP8, STEP9, STEP10], STATE11);
    After5(); RunStep(STATE5, STEP5, STATE6, [STEP6, STEP7, STEP8, STEP9, STEP10], [STEP5, STEP6, STEP7, STEP8, STEP9, STEP10], STATE11);
  }

  lemma ThirdCallerRuns()
    ensures Run(O, STATE11, THIRD_CALLER) == STATE16
  {
    hide Apply, Run;
    RunNothing(STATE16);
    After15(); RunStep(STATE15, STEP15, STATE16, [], [STEP15], STATE16);
    After14(); RunStep(STATE14, STEP14, STATE15, [STEP15], [STEP14, STEP15], STATE16);
    After13(); RunStep(STATE13, STEP13, STATE14, [STEP14, STEP15], [STEP13, STEP14, STEP15], STATE16);
    After12(); RunStep(STATE12, STEP12, STATE13, [STEP13, STEP14, STEP15], [STEP12, STEP13, STEP14, STEP15], STATE16);
    After11(); RunStep(STATE11, STEP11, STATE12, [STEP12, STEP13, STEP14, STEP15], [STEP11, STEP12, STEP13, STEP14, STEP15], STATE16);
  }

  /** Every step of the run keeps to clean ids and an honest backend but one, the first request to
      the second child, whose id the detached chain still carries; that write collides at its turn. */
  lemma OneCallIsNotClean()
    ensures !Clean(STATE5, STEP5) && Collides(STATE12, STEP12)
    ensures Clean(INITIAL, STEP0) && Clean(STATE13, STEP13)
    ensures Honest(STATE2, STEP2) && Honest(STATE7, STEP7) && Honest(STATE15, STEP15)
    ensures forall t | t in [STEP1, STEP3, STEP4, STEP6, STEP8, STEP9, STEP10, STEP11, STEP12, STEP14] ::
              !t.RequestStep? && !t.StreamStep? && !t.DeliverStep?
  {
    assert Stale(RetiredWrites(STATE5.writes), 1, X, Unary);
    assert LineOf(X1) in STATE12.wire.open;
  }

  /** Reuse of an id across children misdelivers: caller 2 is answered with what the backend said
      to the line of caller 1. */
  lemma SharedIdMisdelivers()
    ensures Reachable(O, STATE16)
    ensures STATE16.wire.delivered == [Delivery(2, Some(LineOf(X1)))] && LineOf(X1).owner == CallerRoute(1)
    ensures !Correlated(STATE16.wire.delivered)
  {
    hide Apply, Run;
    FirstChildRuns();
    SecondChildRuns();
    ThirdCallerRuns();
    RunAppend(O, INITIAL, FIRST_CHILD, SECOND_CHILD);
    RunAppend(O, INITIAL, FIRST_CHILD + SECOND_CHILD, THIRD_CALLER);
    LeadsIffRun(O, INITIAL, STATE16);
    assert STATE16.wire.delivered[0] == Delivery(2, Some(LineOf(X1)));
  }

  // ---------- a line written for another caller ----------

  /** From the state in which the line of caller 0 is queued: the backend answers it before it is
      written, caller 1 is admitted under the same id, and the queued line gets its turn. */
  const EARLY_STEP0 := DeliverStep(0, Response(X, ACCEPTED), true, None)
  const EARLY_STEP1 := RequestStep(X, 1, true)
  const EARLY_STEP2 := ContinueStep(1)
  const EARLY_STEP3 := FinishStep(false, false)
  const EARLY_STEP4 := TurnStep(false)

  const ANSWERED := XCall(Settled(Answered(ACCEPTED)))
  const NEXT_X := WriteAdmission(2, X, Unary, CallerRoute(1), 1, 0, false)
  const EARLY1 := STATE4.(
    calls := [ANSWERED], routes := NO_ROUTES, wire := Wire([LineOf(HELLO0)], {}, [Delivery(0, None)]))
  const EARLY2 := EARLY1.(calls := [ANSWERED, XCall(HandshakeDone)], routes := Waiting(NO_ROUTES, 1))
  const EARLY3 := EARLY2.(
    calls := [ANSWERED, XCall(Issued)], routes := XRoute(1),
    writes := Writes([Started(HELLO0), X0, NEXT_X], None, false, 3, 12, 3))
  const EARLY4 := EARLY3.(writes := Writes([X0, NEXT_X], None, false, 2, 2, 3))
  const EARLY5 := EARLY4.(
    writes := Writes([Started(X0), NEXT_X], None, false, 2, 2, 3),
    wire := Wire([LineOf(HELLO0), LineOf(X0)], {LineOf(X0)}, [Delivery(0, None)]))

  lemma Early0()
    ensures Apply(O, STATE4, EARLY_STEP0) == EARLY1
  {
    assert XRoute(0).pendingResponses - {X} == map[];
  }

  lemma Early1()
    ensures Apply(O, EARLY1, EARLY_STEP1) == EARLY2
  {
  }

  lemma Early2()
    ensures Apply(O, EARLY2, EARLY_STEP2) == EARLY3
  {
  }

  lemma Early3()
    ensures Apply(O, EARLY3, EARLY_STEP3) == EARLY4
  {
  }

  lemma Early4()
    ensures Apply(O, EARLY4, EARLY_STEP4) == EARLY5
  {
    assert TurnFault(EARLY4, X0).None?;
  }

  lemma EarlyRuns()
    ensures Run(O, INITIAL, [STEP0, STEP1, STEP2, STEP3] + [EARLY_STEP0, EARLY_STEP1, EARLY_STEP2, EARLY_STEP3]) == EARLY4
  {
    hide Apply, Run;
    RunNothing(STATE4);
    After3(); RunStep(STATE3, STEP3, STATE4, [], [STEP3], STATE4);
    After2(); RunStep(STATE2, STEP2, STATE3, [STEP3], [STEP2, STEP3], STATE4);
    After1(); RunStep(STATE1, STEP1, STATE2, [STEP2, STEP3], [STEP1, STEP2, STEP3], STATE4);
    After0(); RunStep(INITIAL, STEP0, STATE1, [STEP1, STEP2, STEP3], [STEP0, STEP1, STEP2, STEP3], STATE4);
    RunNothing(EARLY4);
    Early3(); RunStep(EARLY3, EARLY_STEP3, EARLY4, [], [EARLY_STEP3], EARLY4);
    Early2(); RunStep(EARLY2, EARLY_STEP2, EARLY3, [EARLY_STEP3], [EARLY_STEP2, EARLY_STEP3], EARLY4);
    Early1(); RunStep(EARLY1, EARLY_STEP1, EARLY2, [EARLY_STEP2, EARLY_STEP3], [EARLY_STEP1, EARLY_STEP2, EARLY_STEP3], EARLY4);
    Early0(); RunStep(STATE4, EARLY_STEP0, EARLY1, [EARLY_STEP1, EARLY_STEP2, EARLY_STEP3],
                      [EARLY_STEP0, EARLY_STEP1, EARLY_STEP2, EARLY_STEP3], EARLY4);
    RunAppend(O, INITIAL, [STEP0, STEP1, STEP2, STEP3], [EARLY_STEP0, EARLY_STEP1, EARLY_STEP2, EARLY_STEP3]);
  }

  /** The gate asks for a pending route under the id of the line, not for the line's own: a backend
      that answers early makes the transport write the line of a settled caller while another
      caller's route is pending. */
  lemma EarlyAnswerWritesForAnother()
    ensures Reachable(O, EARLY4) && Next(O, EARLY4, EARLY_STEP4, EARLY5)
    ensures EARLY5.wire.sent == EARLY4.wire.sent + [LineOf(X0)] && LineOf(X0).owner == CallerRoute(0)
    ensures EARLY4.calls[0].stage.Settled? && EARLY4.routes.pendingResponses[X].owner == CallerRoute(1)
    ensures Clears(STATE4, EARLY_STEP0, LineOf(X0))
  {
    hide Apply, Run;
    EarlyRuns();
    LeadsIffRun(O, INITIAL, EARLY4);
    Early4();
    NextIs(O, EARLY4, EARLY_STEP4, EARLY5);
  }
}
