/** The outbound write queue: its charge, its generations and the order of its lines. */
module TransportWrites {
  import opened Common
  import opened TransportState
  import opened TransportSteps
  import opened TransportRuns
  import opened TransportRoutes
  import opened TransportCallers

  function Bytes(w: seq<WriteAdmission>): nat {
    if w == [] then 0 else w[0].bytes + Bytes(w[1..])
  }

  /** Admission order, one generation, and at most the head in flight. */
  ghost predicate ChainOk(w: seq<WriteAdmission>, nextSerial: nat) {
    && (forall i | 0 <= i < |w| :: w[i].serial < nextSerial && (i > 0 ==> !w[i].started))
    && (forall i, j | 0 <= i < j < |w| :: w[i].serial < w[j].serial && w[i].child == w[j].child)
  }

  ghost predicate GenerationsOk(w: Writes, l: Link) {
    && (forall i | 0 <= i < |w.tail| ::
          w.tail[i].child < l.nextGeneration && (l.child.Some? ==> l.child.value == w.tail[i].child))
    && (forall i | 0 <= i < |RetiredWrites(w)| ::
          RetiredWrites(w)[i].child < l.nextGeneration && l.child != Some(RetiredWrites(w)[i].child))
    && (w.recycleBlocked ==> l.child.None? && (w.retired.Some? || w.tail != []))
    && (l.child.None? && !w.recycleBlocked ==> w.tail == [])
    && (l.child.Some? ==> l.child.value < l.nextGeneration)
  }

  ghost predicate ChargeOk(o: Options, w: Writes) {
    && w.count == |w.tail| + |RetiredWrites(w)|
    && w.bytes == Bytes(w.tail) + Bytes(RetiredWrites(w))
    && w.count <= o.writeQueueLimit
    && w.bytes <= o.writeQueueBytesLimit
  }

  /** Every admission carries the id of its owner. */
  predicate Known(calls: seq<Call>, nextControl: nat, e: WriteAdmission) {
    match e.owner
    case CallerRoute(c) => e.id.CallerId? && c < |calls| && calls[c].id == e.id && calls[c].kind == e.kind
    case ControlRoute => e.id.ControlId? && e.id.serial < nextControl && e.kind.Unary?
  }

  ghost predicate KnownOk(calls: seq<Call>, nextControl: nat, w: Writes) {
    && (forall i | 0 <= i < |w.tail| :: Known(calls, nextControl, w.tail[i]))
    && (forall i | 0 <= i < |RetiredWrites(w)| :: Known(calls, nextControl, RetiredWrites(w)[i]))
  }

  /** Lines of one child were written in admission order, before every line still queued. */
  ghost predicate SentOk(sent: seq<Line>, w: Writes) {
    && (forall i | 0 <= i < |sent| :: sent[i].serial < w.nextSerial)
    && (forall i, j | 0 <= i < j < |sent| :: sent[i].child == sent[j].child ==> sent[i].serial < sent[j].serial)
    && (forall i, j | 0 <= i < |sent| && 0 <= j < |w.tail| ::
          sent[i].child == w.tail[j].child && !w.tail[j].started ==> sent[i].serial < w.tail[j].serial)
  }

  ghost predicate WritesOk(o: Options, w: Writes, l: Link) {
    && ChainOk(w.tail, w.nextSerial)
    && ChainOk(RetiredWrites(w), w.nextSerial)
    && GenerationsOk(w, l)
    && ChargeOk(o, w)
  }

  ghost predicate WritesInv(o: Options, s: State) {
    && WritesOk(o, s.writes, s.link)
    && KnownOk(s.calls, s.nextControl, s.writes)
    && SentOk(s.wire.sent, s.writes)
  }

  // ---------- the operations that change the queue ----------

  lemma BytesAppend(w: seq<WriteAdmission>, e: WriteAdmission)
    ensures Bytes(w + [e]) == Bytes(w) + e.bytes
  {
    if w == [] {
    } else {
      assert (w + [e])[1..] == w[1..] + [e];
      BytesAppend(w[1..], e);
    }
  }

  lemma AdmitKeepsOrder(w: Writes, sent: seq<Line>, e: WriteAdmission, w1: Writes)
    requires ChainOk(w.tail, w.nextSerial) && SentOk(sent, w)
    requires e.serial == w.nextSerial && !e.started && (forall i | 0 <= i < |w.tail| :: w.tail[i].child == e.child)
    requires w1.tail == w.tail + [e] && w1.nextSerial == w.nextSerial + 1
    ensures ChainOk(w1.tail, w1.nextSerial) && SentOk(sent, w1)
  {
  }

  lemma AdmitKeeps(o: Options, s: State, id: RequestId, kind: Kind, owner: Owner, size: nat)
    requires WritesInv(o, s) && s.link.child.Some?
    requires s.writes.count < o.writeQueueLimit && s.writes.bytes <= o.writeQueueBytesLimit - size
    requires Known(s.calls, s.nextControl, WriteAdmission(0, id, kind, owner, size, 0, false))
    ensures WritesInv(o, s.(writes := AdmitWrite(s.writes, id, kind, owner, size, s.link.child.value)))
  {
    var e := WriteAdmission(s.writes.nextSerial, id, kind, owner, size, s.link.child.value, false);
    BytesAppend(s.writes.tail, e);
    AdmitKeepsOrder(s.writes, s.wire.sent, e, AdmitWrite(s.writes, id, kind, owner, size, s.link.child.value));
  }

  lemma ReleaseKeepsOrder(w: Writes, retired: bool)
    requires ChainOk(w.tail, w.nextSerial) && ChainOk(RetiredWrites(w), w.nextSerial) && Chain(w, retired) != []
    ensures var r := ReleaseHead(w, retired);
      ChainOk(r.tail, r.nextSerial) && ChainOk(RetiredWrites(r), r.nextSerial)
  {
  }

  lemma ReleaseKeepsCharge(o: Options, w: Writes, retired: bool)
    requires ChargeOk(o, w) && Chain(w, retired) != []
    ensures ChargeOk(o, ReleaseHead(w, retired))
  {
  }

  lemma ReleaseKeepsGenerations(w: Writes, l: Link, retired: bool)
    requires GenerationsOk(w, l) && Chain(w, retired) != []
    ensures GenerationsOk(ReleaseHead(w, retired), l)
  {
    var r := ReleaseHead(w, retired);
    assert r.tail == if retired then w.tail else w.tail[1..];
    assert RetiredWrites(r) == if retired then RetiredWrites(w)[1..] else RetiredWrites(w);
  }

  lemma ReleaseKeepsQueue(o: Options, w: Writes, l: Link, retired: bool)
    requires WritesOk(o, w, l) && Chain(w, retired) != []
    ensures WritesOk(o, ReleaseHead(w, retired), l)
  {
    hide ReleaseHead, ChainOk, ChargeOk, GenerationsOk;
    ReleaseKeepsOrder(w, retired);
    ReleaseKeepsCharge(o, w, retired);
    ReleaseKeepsGenerations(w, l, retired);
  }

  lemma ReleaseKeeps(o: Options, s: State, retired: bool)
    requires WritesInv(o, s) && Chain(s.writes, retired) != []
    ensures WritesInv(o, s.(writes := ReleaseHead(s.writes, retired)))
  {
    hide ChainOk, ChargeOk, GenerationsOk;
    ReleaseKeepsQueue(o, s.writes, s.link, retired);
  }

  /** Only the head of the current chain can pass the checks of its turn. */
  lemma OnlyCurrentStarts(o: Options, s: State, retired: bool)
    requires WritesInv(o, s) && Chain(s.writes, retired) != []
    requires TurnFault(s, Chain(s.writes, retired)[0]).None?
    ensures !retired && s.link.child == Some(s.writes.tail[0].child)
  {
  }

  lemma StartKeepsQueue(o: Options, w: Writes, l: Link)
    requires WritesOk(o, w, l) && w.tail != []
    ensures WritesOk(o, StartHead(w, false), l)
  {
    assert StartHead(w, false).tail[1..] == w.tail[1..];
  }

  lemma StartKeepsSent(w: Writes, sent: seq<Line>)
    requires ChainOk(w.tail, w.nextSerial) && SentOk(sent, w) && w.tail != [] && !w.tail[0].started
    ensures SentOk(sent + [LineOf(w.tail[0])], StartHead(w, false))
  {
  }

  lemma StartKeeps(o: Options, s: State)
    requires WritesInv(o, s) && s.writes.tail != [] && !s.writes.tail[0].started
    ensures var e := s.writes.tail[0];
      WritesInv(o, s.(writes := StartHead(s.writes, false),
                      wire := s.wire.(sent := s.wire.sent + [LineOf(e)], open := s.wire.open + {LineOf(e)})))
  {
    StartKeepsQueue(o, s.writes, s.link);
    StartKeepsSent(s.writes, s.wire.sent);
  }

  lemma RetireKeeps(o: Options, s: State, g: Generation)
    requires WritesInv(o, s) && s.link.child == Some(g)
    ensures WritesInv(o, s.(writes := RetireWrites(s.writes, g), link := ResetLink(s.link)))
  {
  }

  // ---------- every helper and every step ----------

  lemma FailAllKeepsWrites(o: Options, s: State, f: Fault)
    requires WritesInv(o, s)
    ensures WritesInv(o, FailAll(s, f))
  {
    hide WritesOk, SentOk, LiveCalls;
  }

  lemma TerminateKeepsWrites(o: Options, s: State, f: Fault)
    requires WritesInv(o, s)
    ensures WritesInv(o, Terminate(s, f))
  {
    if s.link.child.Some? {
      var g := s.link.child.value;
      RetireKeeps(o, s, g);
      FailAllKeepsWrites(o, s.(writes := RetireWrites(s.writes, g), link := ResetLink(s.link), wire := s.wire.(open := {})), f);
    } else {
      FailAllKeepsWrites(o, s, f);
    }
  }

  lemma RecycleKeepsWrites(o: Options, s: State)
    requires WritesInv(o, s)
    ensures WritesInv(o, Recycle(s))
    ensures WritesInv(o, MaybeRecycle(s))
  {
    hide Terminate, KnownOk, SentOk, ChainOk, ChargeOk, RouteIds;
    TerminateKeepsWrites(o, s.(link := s.link.(quarantined := false, quarantineTimer := false)), ProtocolQuarantined);
  }

  lemma ClearRouteKeepsWrites(o: Options, s: State, id: RequestId, kind: Kind, tombstone: bool)
    requires WritesInv(o, s) && id in PendingMap(s.routes, kind)
    ensures WritesInv(o, ClearRoute(o, s, id, kind, tombstone))
  {
    hide Terminate, MaybeRecycle, KnownOk, SentOk, ChainOk, ChargeOk, ReleaseSlot;
    var s1 := s.(routes := ClearedRoutes(s.routes, id, kind),
                 slots := ClearedSlots(s.slots, kind, PendingMap(s.routes, kind)[id].owner));
    if tombstone {
      TerminateKeepsWrites(o, s1, TombstoneLimit);
      RecycleKeepsWrites(o, AddTombstone(o, s1, id, kind));
    } else {
      RecycleKeepsWrites(o, s1);
    }
  }

  lemma SettleKeepsWrites(o: Options, s: State, c: CallId, outcome: Outcome)
    requires WritesInv(o, s)
    ensures WritesInv(o, SettleCall(s, c, outcome))
  {
    hide WritesOk, SentOk, ReleaseSlot;
  }

  lemma AbortRouteKeepsWrites(o: Options, s: State, id: RequestId, kind: Kind, tombstone: bool, f: Fault)
    requires WritesInv(o, s)
    ensures WritesInv(o, AbortRoute(o, s, id, kind, tombstone, f))
  {
    if id in PendingMap(s.routes, kind) {
      ClearRouteKeepsWrites(o, s, id, kind, tombstone);
      var s1 := ClearRoute(o, s, id, kind, tombstone);
      match PendingMap(s.routes, kind)[id].owner
      case CallerRoute(c) => SettleKeepsWrites(o, s1, c, Failed(f));
      case ControlRoute =>
    }
  }

  lemma IssueKeepsWrites(o: Options, s: State, id: RequestId, kind: Kind, route: PendingRoute, size: nat, encodable: bool)
    requires WritesInv(o, s)
    requires Known(s.calls, s.nextControl, WriteAdmission(0, id, kind, route.owner, size, 0, false))
    ensures WritesInv(o, Issue(o, s, id, kind, route, size, encodable))
  {
    var s1 := s.(routes := PendingRoutes(s.routes, id, kind, route));
    match WriteFault(o, s1, size, encodable)
    case Some(f) => AbortRouteKeepsWrites(o, s1, id, kind, !DefinitelyUnsent(f), f);
    case None => AdmitKeeps(o, s1, id, kind, route.owner, size);
  }

  lemma BeginControlKeepsWrites(o: Options, s: State, phase: Phase)
    requires WritesInv(o, s)
    ensures WritesInv(o, BeginControl(o, s, phase))
  {
    hide WritesOk, SentOk, Issue;
    var id := ControlId(s.nextControl);
    IssueKeepsWrites(o, s.(nextControl := s.nextControl + 1, handshake := Running(phase, id), routes := ReserveControl(s.routes, id)),
                     id, Unary, PendingRoute(ControlRoute, true), o.controlLineBytes, true);
  }

  lemma StartChildKeepsWrites(o: Options, s: State)
    requires WritesInv(o, s) && !s.writes.recycleBlocked
    ensures WritesInv(o, StartChild(s))
  {
  }

  lemma EnsureHandshakeKeepsWrites(o: Options, s: State)
    requires WritesInv(o, s)
    ensures WritesInv(o, EnsureHandshake(o, s).0)
  {
    hide StartChild, BeginControl, KnownOk, SentOk, ChainOk, ChargeOk, GenerationsOk;
    if !s.writes.recycleBlocked {
      var s1 := StartChild(s);
      StartChildKeepsWrites(o, s);
      if ControlFault(o, s1).Some? {
        NextControlKeepsWrites(o, s1);
      } else {
        BeginControlKeepsWrites(o, s1, Hello);
      }
    }
  }

  lemma NextControlKeepsWrites(o: Options, s: State)
    requires WritesInv(o, s)
    ensures WritesInv(o, s.(nextControl := s.nextControl + 1))
  {
    hide WritesOk, SentOk;
  }

  lemma StageKeepsWrites(o: Options, s: State, c: CallId, g: Stage)
    requires WritesInv(o, s)
    ensures WritesInv(o, SetStage(s, c, g))
  {
    hide WritesOk, SentOk;
  }

  lemma JoinKeepsWrites(o: Options, s: State, c: CallId)
    requires WritesInv(o, s)
    ensures WritesInv(o, JoinHandshake(o, s, c))
  {
    EnsureHandshakeKeepsWrites(o, s);
    StageKeepsWrites(o, EnsureHandshake(o, s).0, c, EnsureHandshake(o, s).1);
  }

  lemma AwakenKeepsWrites(o: Options, s: State, g: Stage, hs: HandshakeState)
    requires WritesInv(o, s)
    ensures WritesInv(o, MaybeRecycle(s.(link := s.link.(handshakeState := hs), handshake := Idle, calls := AwakenAll(s.calls, g))))
  {
    hide ChainOk, ChargeOk, SentOk, MaybeRecycle;
    RecycleKeepsWrites(o, s.(link := s.link.(handshakeState := hs), handshake := Idle, calls := AwakenAll(s.calls, g)));
  }

  lemma SettleHandshakeKeepsWrites(o: Options, s: State)
    requires WritesInv(o, s)
    ensures WritesInv(o, SettleHandshake(s))
  {
    if s.handshake.Failing? {
      AwakenKeepsWrites(o, s, HandshakeFailed(s.handshake.fault), s.link.handshakeState);
      assert s.link.(handshakeState := s.link.handshakeState) == s.link;
    }
  }

  lemma NextProbeKeepsWrites(o: Options, s: State, phase: Phase)
    requires WritesInv(o, s)
    ensures WritesInv(o, NextProbe(o, s, phase))
  {
    hide BeginControl, WritesOk, SentOk;
    BeginControlKeepsWrites(o, s, phase);
  }

  lemma AdvanceKeepsWrites(o: Options, s: State, reply: Reply)
    requires WritesInv(o, s)
    ensures WritesInv(o, AdvanceHandshake(o, s, reply))
  {
    hide Terminate, NextProbe, MaybeRecycle, KnownOk, SentOk, ChainOk, ChargeOk;
    TerminateKeepsWrites(o, s, HelloRejected);
    if s.handshake.Running? {
      match s.handshake.phase
      case Hello =>
        if reply.Failure? {
          NextProbeKeepsWrites(o, s, LegacyVersion);
        } else {
          AwakenKeepsWrites(o, s, HandshakeDone, if reply.hello.Multiplexed? then Ready else SingleFlight);
        }
      case LegacyVersion =>
        if reply.Success? {
          NextProbeKeepsWrites(o, s, LegacyCapabilities(reply.legacyVersion));
        }
      case LegacyCapabilities(_) => AwakenKeepsWrites(o, s, HandshakeDone, Legacy);
    }
  }

  lemma AddCallKeepsWrites(o: Options, s: State, call: Call, r: Routes)
    requires WritesInv(o, s)
    ensures WritesInv(o, s.(calls := s.calls + [call], routes := r))
  {
  }

  lemma RequestKeepsWrites(o: Options, s: State, id: RequestId, size: nat, encodable: bool)
    requires WritesInv(o, s)
    ensures WritesInv(o, Request(o, s, id, size, encodable))
  {
    var c := |s.calls|;
    match AdmissionFault(o, s, id, false)
    case Some(f) => AddCallKeepsWrites(o, s, Call(id, Unary, size, encodable, false, Settled(Failed(f))), s.routes);
    case None =>
      var r := s.routes.(waitingIds := s.routes.waitingIds + {id}, waitingRequests := s.routes.waitingRequests[id := c]);
      var call := Call(id, Unary, size, encodable, false, Starting);
      AddCallKeepsWrites(o, s, call, r);
      JoinKeepsWrites(o, s.(calls := s.calls + [call], routes := r), c);
  }

  lemma OpenStreamKeepsWrites(o: Options, s: State, id: RequestId, size: nat, encodable: bool)
    requires WritesInv(o, s)
    ensures WritesInv(o, OpenStream(o, s, id, size, encodable))
  {
    match AdmissionFault(o, s, id, false)
    case Some(f) => AddCallKeepsWrites(o, s, Call(id, Stream, size, encodable, false, Settled(Failed(f))), s.routes);
    case None =>
      AddCallKeepsWrites(o, s, Call(id, Stream, size, encodable, true, Starting),
        s.routes.(waitingIds := s.routes.waitingIds + {id}, waitingStreams := s.routes.waitingStreams[id := |s.calls|]));
  }

  lemma ScheduleKeepsWrites(o: Options, s: State, c: CallId)
    requires WritesInv(o, s)
    ensures WritesInv(o, ScheduleStream(o, s, c))
  {
    if c < |s.calls| && s.calls[c].unscheduled {
      JoinKeepsWrites(o, s.(calls := s.calls[c := s.calls[c].(unscheduled := false)]), c);
    }
  }

  lemma IssueCallKeepsWrites(o: Options, s: State, c: CallId, slot: bool)
    requires WritesInv(o, s) && c < |s.calls|
    requires !s.calls[c].stage.Settled? && s.calls[c].id.CallerId?
    ensures WritesInv(o, IssueCall(o, s, c, slot))
  {
    var call := s.calls[c];
    var s1 := SetStage(s.(routes := ForgetWaiting(s.routes, call.id, call.kind)), c, Issued);
    StageKeepsWrites(o, s.(routes := ForgetWaiting(s.routes, call.id, call.kind)), c, Issued);
    IssueKeepsWrites(o, s1, call.id, call.kind, PendingRoute(CallerRoute(c), slot), call.size, call.encodable);
    if IssueFault(s).Some? {
      RejectWaitingKeepsWrites(o, s, c, IssueFault(s).value);
    }
  }

  lemma RejectWaitingKeepsWrites(o: Options, s: State, c: CallId, f: Fault)
    requires WritesInv(o, s) && c < |s.calls|
    ensures WritesInv(o, RejectWaiting(s, c, f))
  {
    var call := s.calls[c];
    var r := ForgetWaiting(s.routes, call.id, call.kind);
    SettleKeepsWrites(o, s.(routes := ReleaseId(r.(waitingIds := r.waitingIds - {call.id}), call.id)), c, Failed(f));
  }

  lemma PromoteAndIssueKeepsWrites(o: Options, s: State, c: CallId, slot: bool)
    requires WritesInv(o, s) && c < |s.calls|
    requires !s.calls[c].stage.Settled? && s.calls[c].id.CallerId?
    ensures WritesInv(o, PromoteAndIssue(o, s, c, slot))
  {
    match PromoteFault(o, s, s.calls[c].id)
    case Some(f) => RejectWaitingKeepsWrites(o, s, c, f);
    case None => IssueCallKeepsWrites(o, s.(routes := Promoted(s.routes, s.calls[c].id)), c, slot);
  }

  lemma ContinueKeepsWrites(o: Options, s: State, c: CallId)
    requires WritesInv(o, s) && RoutesInv(s, None)
    ensures WritesInv(o, Continue(o, s, c))
  {
    hide RejectWaiting, PromoteAndIssue, AcquireSlot, SetStage, PromoteFault, WritesInv;
    if c < |s.calls| {
      assert CallOk(s.calls[c], c, s.routes, s.handshake, s.link.handshakeState, None);
      match s.calls[c].stage
      case HandshakeFailed(f) => RejectWaitingKeepsWrites(o, s, c, f);
      case HandshakeDone =>
        if IsSingleFlight(s.link.handshakeState) {
          AcquireKeepsWrites(o, s, s.routes, c);
          match PromoteFault(o, s, s.calls[c].id)
          case Some(f) => RejectWaitingKeepsWrites(o, s, c, f);
          case None => AcquireKeepsWrites(o, s, Promoted(s.routes, s.calls[c].id), c);
        } else if s.calls[c].kind.Stream? {
          StageKeepsWrites(o, s, c, ReadyToIssue);
        } else {
          PromoteAndIssueKeepsWrites(o, s, c, false);
        }
      case ReadyToIssue => PromoteAndIssueKeepsWrites(o, s, c, false);
      case _ =>
    }
  }

  lemma AcquireKeepsWrites(o: Options, s: State, r: Routes, c: CallId)
    requires WritesInv(o, s)
    ensures WritesInv(o, AcquireSlot(s.(routes := r), c))
  {
    StageKeepsWrites(o, s.(routes := r, slots := s.slots.(queue := s.slots.queue + [c])), c, AwaitingSlot);
  }

  lemma GrantSlotKeepsWrites(o: Options, s: State)
    requires WritesInv(o, s) && RoutesInv(s, None)
    ensures WritesInv(o, GrantSlot(o, s))
  {
    if s.slots.queue != [] && s.slots.queue[0] < |s.calls| {
      var c := s.slots.queue[0];
      assert CallOk(s.calls[c], c, s.routes, s.handshake, s.link.handshakeState, None);
      var s1 := s.(slots := s.slots.(granted := true));
      if s.calls[c].stage.AwaitingSlot? {
        if s.calls[c].kind.Unary? {
          IssueCallKeepsWrites(o, s1, c, true);
        } else {
          PromoteAndIssueKeepsWrites(o, s1, c, true);
        }
      }
    }
  }

  lemma TurnKeepsWrites(o: Options, s: State, retired: bool)
    requires WritesInv(o, s)
    ensures WritesInv(o, TurnWrite(o, s, retired))
  {
    var chain := Chain(s.writes, retired);
    if chain != [] && !chain[0].started {
      var e := chain[0];
      match TurnFault(s, e)
      case Some(f) =>
        ReleaseKeeps(o, s, retired);
        AbortRouteKeepsWrites(o, s.(writes := ReleaseHead(s.writes, retired)), e.id, e.kind, !DefinitelyUnsent(f), f);
      case None =>
        OnlyCurrentStarts(o, s, retired);
        StartKeeps(o, s);
    }
  }

  lemma FinishKeepsWrites(o: Options, s: State, retired: bool, failed: bool)
    requires WritesInv(o, s)
    ensures WritesInv(o, FinishWrite(o, s, retired, failed))
  {
    var chain := Chain(s.writes, retired);
    if chain != [] && chain[0].started {
      ReleaseKeeps(o, s, retired);
      AbortRouteKeepsWrites(o, s.(writes := ReleaseHead(s.writes, retired)), chain[0].id, chain[0].kind, true, StdinFailure);
    }
  }

  lemma AbortPendingKeepsWrites(o: Options, s: State, id: RequestId, kind: Kind, f: Fault, fatal: bool)
    requires WritesInv(o, s)
    ensures WritesInv(o, AbortPending(o, s, id, kind, f, fatal))
  {
    AbortRouteKeepsWrites(o, s, id, kind, true, f);
    TerminateKeepsWrites(o, AbortRoute(o, s, id, kind, true, f), f);
  }

  lemma CancelKeepsWrites(o: Options, s: State, id: RequestId)
    requires WritesInv(o, s)
    ensures WritesInv(o, Cancel(o, s, id))
  {
    if id in s.routes.waitingRequests {
      if s.routes.waitingRequests[id] < |s.calls| {
        RejectWaitingKeepsWrites(o, s, s.routes.waitingRequests[id], RequestCancelled);
      }
    } else if id in s.routes.waitingStreams {
      if s.routes.waitingStreams[id] < |s.calls| {
        RejectWaitingKeepsWrites(o, s, s.routes.waitingStreams[id], RequestCancelled);
      }
    } else {
      AbortPendingKeepsWrites(o, s, id, Unary, RequestCancelled, false);
      AbortPendingKeepsWrites(o, s, id, Stream, RequestCancelled, false);
    }
  }

  lemma TimeoutKeepsWrites(o: Options, s: State, id: RequestId)
    requires WritesInv(o, s)
    ensures WritesInv(o, Timeout(o, s, id))
  {
    if id in s.routes.pendingResponses {
      AbortPendingKeepsWrites(o, s, id, Unary, BackendTimeout, s.routes.pendingResponses[id].fatalOnTimeout);
    } else if id in s.routes.pendingStreams {
      AbortPendingKeepsWrites(o, s, id, Stream, BackendTimeout, s.routes.pendingStreams[id].fatalOnTimeout);
    }
  }

  lemma QuarantineKeepsWrites(o: Options, s: State, id: RequestId)
    requires WritesInv(o, s)
    ensures WritesInv(o, DiscardOrQuarantine(o, s, id))
  {
    hide Terminate, MaybeRecycle, KnownOk, SentOk, ChainOk, ChargeOk;
    if |s.link.quarantinedIds| >= o.quarantineLimit {
      TerminateKeepsWrites(o, s, QuarantineLimit);
    } else {
      var s1 := s.(link := s.link.(quarantinedIds := s.link.quarantinedIds + {id}, quarantined := true, quarantineTimer := true));
      assert WritesInv(o, s1);
      RecycleKeepsWrites(o, s1);
    }
  }

  lemma ResponseKeepsWrites(o: Options, s: State, id: RequestId, reply: Reply, cause: Option<Line>)
    requires WritesInv(o, s)
    ensures WritesInv(o, HandleResponse(o, s, id, reply, cause))
  {
    hide Terminate, ClearRoute, SettleCall, AdvanceHandshake, DiscardOrQuarantine, KnownOk, SentOk, ChainOk, ChargeOk;
    if id in s.routes.pendingResponses {
      var owner := s.routes.pendingResponses[id].owner;
      var s0 := Record(s, owner, cause);
      ClearRouteKeepsWrites(o, s0, id, Unary, false);
      var s1 := ClearRoute(o, s0, id, Unary, false);
      match owner
      case CallerRoute(c) => SettleKeepsWrites(o, s1, c, Answered(reply));
      case ControlRoute => AdvanceKeepsWrites(o, s1, reply);
    } else {
      TerminateKeepsWrites(o, s, UnexpectedResponse);
      QuarantineKeepsWrites(o, s, id);
    }
  }

  lemma StreamEventKeepsWrites(o: Options, s: State, id: RequestId, t: EventType, queued: bool, cause: Option<Line>)
    requires WritesInv(o, s) && id in s.routes.pendingStreams
    ensures WritesInv(o, HandleEvent(o, s, id, t, queued, cause))
  {
    hide Terminate, ClearRoute, SettleCall, AbortRoute, WritesOk, KnownOk, SentOk;
    var owner := s.routes.pendingStreams[id].owner;
    var s0 := Record(s, owner, cause);
    assert WritesInv(o, s0);
    if !queued {
      AbortRouteKeepsWrites(o, s, id, Stream, true, StreamOverflow);
    } else if t.Completed? {
      ClearRouteKeepsWrites(o, s0, id, Stream, false);
      if owner.CallerRoute? {
        SettleKeepsWrites(o, ClearRoute(o, s0, id, Stream, false), owner.call, Finished);
      }
    } else if t.ErrorEvent? {
      AbortRouteKeepsWrites(o, s0, id, Stream, false, BackendReported(t.code));
    }
  }

  lemma EventKeepsWrites(o: Options, s: State, id: RequestId, t: EventType, queued: bool, cause: Option<Line>)
    requires WritesInv(o, s)
    ensures WritesInv(o, HandleEvent(o, s, id, t, queued, cause))
  {
    hide Terminate, ClearRoute, SettleCall, AbortRoute, DiscardOrQuarantine, KnownOk, SentOk, ChainOk, ChargeOk;
    if id in s.routes.pendingStreams {
      StreamEventKeepsWrites(o, s, id, t, queued, cause);
    } else if id in s.routes.pendingResponses || id in s.link.tombstones {
      TerminateKeepsWrites(o, s, UnexpectedEvent);
    } else {
      QuarantineKeepsWrites(o, s, id);
    }
  }

  lemma DeliverKeepsWrites(o: Options, s: State, g: Generation, m: Message, queued: bool, cause: Option<Line>)
    requires WritesInv(o, s)
    ensures WritesInv(o, Deliver(o, s, g, m, queued, cause))
  {
    var s1 := s.(wire := EndLine(s.wire, m, cause));
    match m
    case Malformed => TerminateKeepsWrites(o, s1, InvalidMessage);
    case Response(id, reply) => ResponseKeepsWrites(o, s1, id, reply, cause);
    case Event(id, t) => EventKeepsWrites(o, s1, id, t, queued, cause);
  }

  lemma DropRetiredKeepsWrites(o: Options, s: State)
    requires WritesInv(o, s)
    ensures WritesInv(o, s.(writes := DropRetired(s.writes)))
  {
  }

  lemma TombstoneTimerKeepsWrites(o: Options, s: State)
    requires WritesInv(o, s)
    ensures WritesInv(o, TombstoneTimer(s))
  {
    TerminateKeepsWrites(o, s.(link := s.link.(tombstoneTimer := false)), LateOutputTimeout);
  }

  lemma QuarantineTimerKeepsWrites(o: Options, s: State)
    requires WritesInv(o, s)
    ensures WritesInv(o, QuarantineTimer(s))
  {
    RecycleKeepsWrites(o, s.(link := s.link.(quarantineTimer := false)));
  }

  lemma CloseKeepsWrites(o: Options, s: State)
    requires WritesInv(o, s)
    ensures WritesInv(o, Close(s))
  {
    TerminateKeepsWrites(o, s.(closed := true), BackendClosed);
  }

  lemma CallerStepKeepsWrites(o: Options, s: State, t: Step)
    requires WritesInv(o, s) && RoutesInv(s, None) && CallerStep(t)
    ensures WritesInv(o, Apply(o, s, t))
  {
    hide Request, OpenStream, ScheduleStream, Continue, SettleHandshake, GrantSlot, Timeout, Cancel, WritesInv,
      RoutesInv;
    match t
    case RequestStep(id, size, encodable) => RequestKeepsWrites(o, s, id, size, encodable);
    case StreamStep(id, size, encodable) => OpenStreamKeepsWrites(o, s, id, size, encodable);
    case ScheduleStep(c) => ScheduleKeepsWrites(o, s, c);
    case ContinueStep(c) => ContinueKeepsWrites(o, s, c);
    case SettleHandshakeStep => SettleHandshakeKeepsWrites(o, s);
    case GrantSlotStep => GrantSlotKeepsWrites(o, s);
    case TimeoutStep(id) => TimeoutKeepsWrites(o, s, id);
    case CancelStep(id) => CancelKeepsWrites(o, s, id);
    case _ =>
  }

  lemma ChildStepKeepsWrites(o: Options, s: State, t: Step)
    requires WritesInv(o, s) && !CallerStep(t)
    ensures WritesInv(o, Apply(o, s, t))
  {
    hide TurnWrite, FinishWrite, DropRetired, Deliver, Terminate, TombstoneTimer, QuarantineTimer, Close, WritesInv;
    match t
    case TurnStep(retired) => TurnKeepsWrites(o, s, retired);
    case FinishStep(retired, failed) => FinishKeepsWrites(o, s, retired, failed);
    case RetiredDrainedStep => DropRetiredKeepsWrites(o, s);
    case DeliverStep(g, m, queued, cause) => DeliverKeepsWrites(o, s, g, m, queued, cause);
    case ChildFailedStep(g, f) =>
      if s.link.child == Some(g) {
        TerminateKeepsWrites(o, s, f);
      }
    case TombstoneTimerStep => TombstoneTimerKeepsWrites(o, s);
    case QuarantineTimerStep => QuarantineTimerKeepsWrites(o, s);
    case CloseStep => CloseKeepsWrites(o, s);
    case _ =>
  }

  lemma ApplyKeepsWrites(o: Options, s: State, t: Step)
    requires WritesInv(o, s) && RoutesInv(s, None)
    ensures WritesInv(o, Apply(o, s, t))
  {
    if CallerStep(t) {
      CallerStepKeepsWrites(o, s, t);
    } else {
      ChildStepKeepsWrites(o, s, t);
    }
  }

  lemma {:induction false} RunKeepsWrites(o: Options, trace: seq<State>, steps: seq<Step>, n: nat)
    requires IsRun(o, trace, steps) && n <= |steps| && WritesInv(o, trace[0]) && RoutesInv(trace[0], None)
    ensures WritesInv(o, trace[n]) && RoutesInv(trace[n], None)
  {
    hide Apply, WritesInv, RoutesInv;
    if n > 0 {
      RunKeepsWrites(o, trace, steps, n - 1);
      ApplyKeeps(o, trace[n - 1], steps[n - 1]);
      ApplyKeepsWrites(o, trace[n - 1], steps[n - 1]);
      assert trace[n - 1 + 1] == Apply(o, trace[n - 1], steps[n - 1]);
    }
  }

  // ---------- what holds in every reachable state ----------

  lemma InitialWrites(o: Options)
    ensures WritesInv(o, INITIAL) && RoutesInv(INITIAL, None)
  {
  }

  lemma ReachableWrites(o: Options, s: State)
    requires Reachable(o, s)
    ensures WritesInv(o, s) && RoutesInv(s, None)
  {
    hide Apply, WritesInv, RoutesInv;
    InitialWrites(o);
    var trace, steps :| IsRun(o, trace, steps) && trace[0] == INITIAL && trace[|steps|] == s;
    RunKeepsWrites(o, trace, steps, |steps|);
  }

  /** The charge is exactly what is queued, within both limits, over child replacements. */
  lemma WriteBudget(o: Options, s: State)
    requires Reachable(o, s)
    ensures s.writes.count == |s.writes.tail| + |RetiredWrites(s.writes)| <= o.writeQueueLimit
    ensures s.writes.bytes == Bytes(s.writes.tail) + Bytes(RetiredWrites(s.writes)) <= o.writeQueueBytesLimit
  {
    ReachableWrites(o, s);
  }

  /** Of any three unreleased writes two belong to the same child. */
  lemma AtMostTwoGenerations(o: Options, s: State, a: WriteAdmission, b: WriteAdmission, c: WriteAdmission)
    requires Reachable(o, s)
    requires {a, b, c} <= (set e | e in s.writes.tail) + (set e | e in RetiredWrites(s.writes))
    ensures a.child == b.child || b.child == c.child || a.child == c.child
  {
    ReachableWrites(o, s);
    SameChild(s.writes.tail, s.writes.nextSerial);
    SameChild(RetiredWrites(s.writes), s.writes.nextSerial);
    assert a in {a, b, c} && b in {a, b, c} && c in {a, b, c};
  }

  lemma SameChild(w: seq<WriteAdmission>, nextSerial: nat)
    requires ChainOk(w, nextSerial)
    ensures forall a, b | a in w && b in w :: a.child == b.child
  {
    forall a, b | a in w && b in w ensures a.child == b.child {
      var i :| 0 <= i < |w| && w[i] == a;
      var j :| 0 <= j < |w| && w[j] == b;
      if i < j {
        assert w[i].child == w[j].child;
      } else if j < i {
        assert w[j].child == w[i].child;
      }
    }
  }

  /** The recycle block cannot outlive the writes it waits for: while it is set something is
      outstanding, and the event that ends the last of them clears it. */
  lemma RecycleBlockEnds(o: Options, s: State)
    requires Reachable(o, s)
    ensures s.writes.recycleBlocked ==> s.link.child.None? && (s.writes.retired.Some? || s.writes.tail != [])
    ensures s.writes.recycleBlocked && s.writes.retired.None? && |s.writes.tail| == 1 ==> !ReleaseHead(s.writes, false).recycleBlocked
    ensures s.writes.recycleBlocked && s.writes.retired == Some([]) && s.writes.tail == [] ==> !DropRetired(s.writes).recycleBlocked
  {
    ReachableWrites(o, s);
  }

  /** What must hold at the instant the head of the current chain is written. */
  predicate Writable(s: State) {
    && s.writes.tail != []
    && var e := s.writes.tail[0];
    && !e.started
    && s.link.child == Some(e.child)
    && (e.id in s.routes.pendingResponses || e.id in s.routes.pendingStreams)
    && (e.owner.CallerRoute? ==> Negotiated(s.link.handshakeState) && !s.link.quarantined && !s.closed)
  }

  /** A line reaches stdin only at the turn of the oldest unsent write of the running child,
      while a route is pending under its id; a caller's line moreover only once the handshake
      of that child is accepted and while the transport is neither closed nor quarantined. */
  lemma WriteGate(o: Options, s: State, step: Step, t: State)
    requires Reachable(o, s) && Next(o, s, step, t)
    ensures t.wire.sent == s.wire.sent
            || (step == TurnStep(false) && Writable(s) && t.wire.sent == s.wire.sent + [LineOf(s.writes.tail[0])])
  {
    hide Apply;
    NextIs(o, s, step, t);
    ReachableWrites(o, s);
    StepGate(o, s, step);
  }

  lemma StepGate(o: Options, s: State, step: Step)
    requires WritesInv(o, s) && RoutesInv(s, None)
    ensures var t := Apply(o, s, step);
      t.wire.sent == s.wire.sent
      || (step == TurnStep(false) && Writable(s) && t.wire.sent == s.wire.sent + [LineOf(s.writes.tail[0])])
  {
    hide TurnWrite, WritesInv, RoutesInv;
    if step.TurnStep? {
      TurnGate(o, s, step.retired);
    } else {
      OnlyTurnsWrite(o, s, step);
    }
  }

  lemma TurnGate(o: Options, s: State, retired: bool)
    requires WritesInv(o, s) && RoutesInv(s, None)
    ensures var t := TurnWrite(o, s, retired);
      t.wire.sent == s.wire.sent
      || (!retired && Writable(s) && t.wire.sent == s.wire.sent + [LineOf(s.writes.tail[0])])
  {
    var chain := Chain(s.writes, retired);
    if chain != [] && !chain[0].started {
      var e := chain[0];
      match TurnFault(s, e)
      case Some(f) =>
        AbortRouteKeepsCall(o, s.(writes := ReleaseHead(s.writes, retired)), e.id, e.kind, !DefinitelyUnsent(f), f, 0);
      case None =>
        OnlyCurrentStarts(o, s, retired);
        assert Known(s.calls, s.nextControl, s.writes.tail[0]);
        if e.owner.CallerRoute? {
          PendingCallerNegotiated(s, e.id);
        }
    }
  }

  lemma PendingCallerNegotiated(s: State, id: RequestId)
    requires RoutesInv(s, None) && id.CallerId?
    requires id in s.routes.pendingResponses || id in s.routes.pendingStreams
    ensures Negotiated(s.link.handshakeState)
  {
    var owner := if id in s.routes.pendingResponses then s.routes.pendingResponses[id].owner else s.routes.pendingStreams[id].owner;
    if owner.CallerRoute? {
      assert CallOk(s.calls[owner.call], owner.call, s.routes, s.handshake, s.link.handshakeState, None);
    }
  }

  /** Within one child the lines go out in the order in which their writes were admitted. */
  lemma LinesInAdmissionOrder(o: Options, s: State, i: nat, j: nat)
    requires Reachable(o, s) && i < j < |s.wire.sent| && s.wire.sent[i].child == s.wire.sent[j].child
    ensures s.wire.sent[i].serial < s.wire.sent[j].serial
  {
    ReachableWrites(o, s);
  }

  /** Once closed, nothing is written again. */
  lemma ClosedWritesNothing(o: Options, s: State, t: State)
    requires Reachable(o, s) && s.closed && Leads(o, s, t)
    ensures t.wire.sent == s.wire.sent
  {
    hide Apply, WritesInv, RoutesInv;
    ReachableWrites(o, s);
    var trace, steps :| IsRun(o, trace, steps) && trace[0] == s && trace[|steps|] == t;
    ClosedRunWritesNothing(o, trace, steps, |steps|);
  }

  lemma {:induction false} ClosedRunWritesNothing(o: Options, trace: seq<State>, steps: seq<Step>, n: nat)
    requires IsRun(o, trace, steps) && n <= |steps|
    requires WritesInv(o, trace[0]) && RoutesInv(trace[0], None) && trace[0].closed
    ensures trace[n].wire.sent == trace[0].wire.sent
  {
    hide Apply, WritesInv, RoutesInv;
    if n > 0 {
      ClosedRunWritesNothing(o, trace, steps, n - 1);
      RunKeepsWrites(o, trace, steps, n - 1);
      ClosedRun(o, trace, steps, n - 1);
      ClosedNotWritable(o, trace[n - 1]);
      StepGate(o, trace[n - 1], steps[n - 1]);
      assert trace[n - 1 + 1] == Apply(o, trace[n - 1], steps[n - 1]);
    }
  }

  lemma ClosedNotWritable(o: Options, s: State)
    requires RoutesInv(s, None) && s.closed
    ensures !Writable(s)
  {
  }
}
