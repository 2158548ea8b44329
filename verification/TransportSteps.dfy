/** The synchronous segments of `StdioBackendTransport` as functions on its state, and the
    steps a run is made of. */
module TransportSteps {
  import opened Common
  import opened TransportState

  // ---------- settling callers ----------

  function SettledCall(c: Call, outcome: Outcome): Call {
    if c.stage.Settled? then c else c.(stage := Settled(outcome))
  }

  function SettleAll(calls: seq<Call>, doomed: set<CallId>, outcome: Outcome): seq<Call> {
    seq(|calls|, i requires 0 <= i < |calls| =>
      if i in doomed then SettledCall(calls[i], outcome) else calls[i])
  }

  /** Releasing a slot pops the chain of slot promises; a second release does nothing. */
  function ReleaseSlot(l: Slots, c: CallId): Slots {
    if l.granted && l.queue != [] && l.queue[0] == c then Slots(l.queue[1..], false) else l
  }

  function ReleaseSlots(l: Slots, doomed: set<CallId>): Slots {
    if l.granted && l.queue != [] && l.queue[0] in doomed then Slots(l.queue[1..], false) else l
  }

  function SettleCall(s: State, c: CallId, outcome: Outcome): State {
    if c < |s.calls| then
      s.(calls := s.calls[c := SettledCall(s.calls[c], outcome)], slots := ReleaseSlot(s.slots, c))
    else s
  }

  /** A caller that has been issued or settled is past its stages. */
  predicate Passed(c: Call) {
    c.stage.Issued? || c.stage.Settled?
  }

  function StagedCall(c: Call, g: Stage): Call {
    if Passed(c) then c else c.(stage := g)
  }

  function SetStage(s: State, c: CallId, g: Stage): State {
    if c < |s.calls| then s.(calls := s.calls[c := StagedCall(s.calls[c], g)]) else s
  }

  // ---------- teardown ----------

  /** Settle the given callers and forget every route and every id reservation. */
  function FailCalls(s: State, doomed: set<CallId>, f: Fault): State {
    s.(calls := SettleAll(s.calls, doomed, Failed(f)),
       handshake := if s.handshake.Running? && s.handshake.id in s.routes.pendingResponses then Failing(f) else s.handshake,
       slots := ReleaseSlots(s.slots, doomed),
       routes := NO_ROUTES)
  }

  function FailAll(s: State, f: Fault): State {
    FailCalls(s, LiveCalls(s.routes), f)
  }

  /** Detach the write chain of a retired child, or fail closed if one is already detached. */
  function RetireWrites(w: Writes, g: Generation): Writes {
    if !HoldsWriteOf(RetiredWrites(w), g) && !HoldsWriteOf(w.tail, g) then w
    else if w.retired.None? then w.(retired := Some(w.tail), tail := [])
    else w.(recycleBlocked := true)
  }

  function ResetLink(l: Link): Link {
    Link(None, l.nextGeneration, Unknown, map[], false, {}, false, false)
  }

  function Terminate(s: State, f: Fault): State {
    match s.link.child
    case None => FailAll(s, f)
    case Some(g) =>
      FailAll(s.(writes := RetireWrites(s.writes, g), link := ResetLink(s.link), wire := s.wire.(open := {})), f)
  }

  function Recycle(s: State): State {
    if !s.link.quarantined then s
    else
      var s1 := s.(link := s.link.(quarantined := false, quarantineTimer := false));
      if s1.link.child.Some? then Terminate(s1, ProtocolQuarantined) else s1
  }

  function MaybeRecycle(s: State): State {
    if !s.link.quarantined || !s.handshake.Idle? || RouteIds(s.routes) != {} then s else Recycle(s)
  }

  // ---------- releasing ids and routes ----------

  function ReleaseId(r: Routes, id: RequestId): Routes {
    r.(activeIds := r.activeIds - {id}, controlIds := r.controlIds - {id})
  }

  /** Leave a tombstone that absorbs the late terminal message of an id. */
  function AddTombstone(o: Options, s: State, id: RequestId, kind: Kind): State {
    if |s.link.tombstones| >= o.tombstoneLimit && id !in s.link.tombstones then Terminate(s, TombstoneLimit)
    else s.(link := s.link.(tombstones := s.link.tombstones[id := kind], tombstoneTimer := true))
  }

  function ClearedRoutes(r: Routes, id: RequestId, kind: Kind): Routes {
    ReleaseId(
      if kind.Unary? then r.(pendingResponses := r.pendingResponses - {id})
      else r.(pendingStreams := r.pendingStreams - {id}), id)
  }

  function PendingMap(r: Routes, kind: Kind): map<RequestId, PendingRoute> {
    if kind.Unary? then r.pendingResponses else r.pendingStreams
  }

  /** A stream gives its slot back when it is cleared, a request when its promise settles. */
  function ClearedSlots(l: Slots, kind: Kind, owner: Owner): Slots {
    if kind.Stream? && owner.CallerRoute? then ReleaseSlot(l, owner.call) else l
  }

  /** `clearResponse` and `clearStream`: drop a pending route and release its id. */
  function ClearRoute(o: Options, s: State, id: RequestId, kind: Kind, tombstone: bool): State
    requires id in PendingMap(s.routes, kind)
  {
    var s1 := s.(routes := ClearedRoutes(s.routes, id, kind),
                 slots := ClearedSlots(s.slots, kind, PendingMap(s.routes, kind)[id].owner));
    MaybeRecycle(if tombstone then AddTombstone(o, s1, id, kind) else s1)
  }

  /** The promise of a pending route rejects. */
  function RejectOwner(s: State, owner: Owner, f: Fault): State {
    match owner
    case CallerRoute(c) => SettleCall(s, c, Failed(f))
    case ControlRoute => s.(handshake := Failing(f))
  }

  /** Clear the pending route held under an id, if any, and reject its promise. */
  function AbortRoute(o: Options, s: State, id: RequestId, kind: Kind, tombstone: bool, f: Fault): State {
    if id in PendingMap(s.routes, kind) then
      RejectOwner(ClearRoute(o, s, id, kind, tombstone), PendingMap(s.routes, kind)[id].owner, f)
    else s
  }

  // ---------- admission of ids ----------

  function ValidationFault(s: State, id: RequestId, control: bool): Option<Fault> {
    if s.closed then Some(BackendClosed)
    else if !ValidRequestId(id) then Some(InvalidRequestId)
    else if !control && id.ControlId? then Some(ReservedRequestId)
    else if s.link.quarantined then Some(ProtocolQuarantined)
    else if id in s.routes.activeIds then Some(DuplicateRequestId)
    else if id in s.routes.waitingIds then Some(DuplicateRequestId)
    else if id in s.link.tombstones then Some(RequestIdReused)
    else if id in s.link.quarantinedIds then Some(RequestIdQuarantined)
    else None
  }

  function AdmissionLimit(o: Options, s: State, control: bool): int {
    if !control && s.link.handshakeState.Unknown? && s.routes.controlIds == {} then o.maxInFlight - 1 else o.maxInFlight
  }

  function AdmissionFault(o: Options, s: State, id: RequestId, control: bool): Option<Fault> {
    match ValidationFault(s, id, control)
    case Some(f) => Some(f)
    case None =>
      if |s.routes.waitingIds| + |s.routes.activeIds| >= AdmissionLimit(o, s, control) then Some(InFlightLimit) else None
  }

  // ---------- writes ----------

  function WriteFault(o: Options, s: State, size: nat, encodable: bool): Option<Fault> {
    if s.link.child.None? || s.closed then Some(BackendClosed)
    else if !encodable then Some(InvalidRequest)
    else if size > o.frameLimitBytes then Some(FrameTooLarge)
    else if s.writes.count >= o.writeQueueLimit || s.writes.bytes > o.writeQueueBytesLimit - size then
      Some(WriteQueueOverflow)
    else None
  }

  function AdmitWrite(w: Writes, id: RequestId, kind: Kind, owner: Owner, size: nat, g: Generation): Writes {
    w.(tail := w.tail + [WriteAdmission(w.nextSerial, id, kind, owner, size, g, false)],
       count := w.count + 1, bytes := w.bytes + size, nextSerial := w.nextSerial + 1)
  }

  function MaybeUnblock(w: Writes): Writes {
    if !w.recycleBlocked || w.retired.Some? || w.tail != [] then w
    else w.(recycleBlocked := false)
  }

  function Chain(w: Writes, retired: bool): seq<WriteAdmission> {
    if retired then RetiredWrites(w) else w.tail
  }

  function WithChain(w: Writes, retired: bool, chain: seq<WriteAdmission>): Writes {
    if retired then w.(retired := Some(chain)) else w.(tail := chain)
  }

  function Max0(n: int): int {
    if n < 0 then 0 else n
  }

  /** Release the head of a chain; its promise settles and the next entry gets its turn. */
  function ReleaseHead(w: Writes, retired: bool): Writes
    requires Chain(w, retired) != []
  {
    var head := Chain(w, retired)[0];
    MaybeUnblock(WithChain(w, retired, Chain(w, retired)[1..]).(
      count := Max0(w.count - 1), bytes := Max0(w.bytes - head.bytes)))
  }

  /** The promise of the detached chain settles once the chain has drained. */
  function DropRetired(w: Writes): Writes {
    if w.retired == Some([]) then MaybeUnblock(w.(retired := None)) else w
  }

  function PendingRoutes(r: Routes, id: RequestId, kind: Kind, route: PendingRoute): Routes {
    if kind.Unary? then r.(pendingResponses := r.pendingResponses[id := route])
    else r.(pendingStreams := r.pendingStreams[id := route])
  }

  /** A pending route is registered and its line is handed to `write`. */
  function Issue(o: Options, s: State, id: RequestId, kind: Kind, route: PendingRoute, size: nat, encodable: bool): State {
    var s1 := s.(routes := PendingRoutes(s.routes, id, kind, route));
    match WriteFault(o, s1, size, encodable)
    case Some(f) => AbortRoute(o, s1, id, kind, !DefinitelyUnsent(f), f)
    case None => s1.(writes := AdmitWrite(s1.writes, id, kind, route.owner, size, s1.link.child.value))
  }

  function IssueFault(s: State): Option<Fault> {
    if s.closed then Some(BackendClosed)
    else if s.link.quarantined then Some(ProtocolQuarantined)
    else if s.link.handshakeState.Blocked? then Some(HelloRejected)
    else if s.link.child.None? then Some(BackendClosed)
    else None
  }

  /** The checks made at the turn of a queued write, immediately before stdin is touched. */
  function TurnFault(s: State, e: WriteAdmission): Option<Fault> {
    if e.owner.CallerRoute? && IssueFault(s).Some? then IssueFault(s)
    else if s.link.child != Some(e.child) then Some(BackendClosed)
    else if e.id !in s.routes.pendingResponses && e.id !in s.routes.pendingStreams then Some(RequestCancelled)
    else None
  }

  function LineOf(e: WriteAdmission): Line {
    Line(e.serial, e.id, e.kind, e.owner, e.child)
  }

  function StartHead(w: Writes, retired: bool): Writes
    requires Chain(w, retired) != []
  {
    var chain := Chain(w, retired);
    WithChain(w, retired, [chain[0].(started := true)] + chain[1..])
  }

  function TurnWrite(o: Options, s: State, retired: bool): State {
    var chain := Chain(s.writes, retired);
    if chain == [] || chain[0].started then s
    else
      var e := chain[0];
      match TurnFault(s, e)
      case Some(f) =>
        AbortRoute(o, s.(writes := ReleaseHead(s.writes, retired)), e.id, e.kind, !DefinitelyUnsent(f), f)
      case None =>
        s.(writes := StartHead(s.writes, retired),
           wire := s.wire.(sent := s.wire.sent + [LineOf(e)], open := s.wire.open + {LineOf(e)}))
  }

  /** The stdin callback of a started write. */
  function FinishWrite(o: Options, s: State, retired: bool, failed: bool): State {
    var chain := Chain(s.writes, retired);
    if chain == [] || !chain[0].started then s
    else
      var e := chain[0];
      var s1 := s.(writes := ReleaseHead(s.writes, retired));
      if failed then AbortRoute(o, s1, e.id, e.kind, true, StdinFailure) else s1
  }

  function HasStartedWrite(w: Writes, id: RequestId): bool {
    HoldsStartedWrite(RetiredWrites(w), id) || HoldsStartedWrite(w.tail, id)
  }

  // ---------- handshake ----------

  /** `start`: spawn a child unless one is running. */
  function StartChild(s: State): State {
    if s.link.child.Some? then s
    else
      s.(link := Link(Some(s.link.nextGeneration), s.link.nextGeneration + 1, Unknown, map[], false, {}, false, false),
         routes := s.routes.(controlIds := {}),
         slots := Slots([], false),
         wire := s.wire.(open := {}))
  }

  function ControlFault(o: Options, s: State): Option<Fault> {
    AdmissionFault(o, s, ControlId(s.nextControl), true)
  }

  function ReserveControl(r: Routes, id: RequestId): Routes {
    r.(activeIds := r.activeIds + {id}, controlIds := r.controlIds + {id})
  }

  /** Reserve a control id and issue the probe that carries it. */
  function BeginControl(o: Options, s: State, phase: Phase): State {
    var id := ControlId(s.nextControl);
    Issue(o, s.(nextControl := s.nextControl + 1, handshake := Running(phase, id), routes := ReserveControl(s.routes, id)),
          id, Unary, PendingRoute(ControlRoute, true), o.controlLineBytes, true)
  }

  /** The state after a call of `ensureHandshake`, and what its caller then awaits. */
  function EnsureHandshake(o: Options, s: State): (State, Stage) {
    if s.closed then (s, HandshakeFailed(BackendClosed))
    else if Negotiated(s.link.handshakeState) then (s, HandshakeDone)
    else if s.link.handshakeState.Blocked? then (s, HandshakeFailed(HelloRejected))
    else if !s.handshake.Idle? then (s, AwaitingHandshake)
    else if s.writes.recycleBlocked then (s, HandshakeFailed(WriteTeardownPending))
    else
      var s1 := StartChild(s);
      match ControlFault(o, s1)
      case Some(f) => (s1.(nextControl := s1.nextControl + 1), HandshakeFailed(f))
      case None => (BeginControl(o, s1, Hello), AwaitingHandshake)
  }

  function JoinHandshake(o: Options, s: State, c: CallId): State {
    var (s1, stage) := EnsureHandshake(o, s);
    SetStage(s1, c, stage)
  }

  function AwakenCall(c: Call, g: Stage): Call {
    if c.stage.AwaitingHandshake? then c.(stage := g) else c
  }

  /** The handshake promise settles for everyone who awaits it. */
  function AwakenAll(calls: seq<Call>, g: Stage): seq<Call> {
    seq(|calls|, i requires 0 <= i < |calls| => AwakenCall(calls[i], g))
  }

  function Negotiate(s: State, h: HandshakeState): State {
    MaybeRecycle(s.(link := s.link.(handshakeState := h), handshake := Idle, calls := AwakenAll(s.calls, HandshakeDone)))
  }

  function RejectHello(s: State): State {
    var t := Terminate(s, HelloRejected);
    t.(link := t.link.(handshakeState := Blocked), handshake := Failing(HelloRejected))
  }

  function NextProbe(o: Options, s: State, phase: Phase): State {
    match ControlFault(o, s)
    case Some(f) => s.(nextControl := s.nextControl + 1, handshake := Failing(f))
    case None => BeginControl(o, s, phase)
  }

  /** The continuation of a control route that received its response. */
  function AdvanceHandshake(o: Options, s: State, reply: Reply): State {
    if !s.handshake.Running? then s
    else
      match s.handshake.phase
      case Hello =>
        if reply.Failure? && reply.code == "unknown_command" then NextProbe(o, s, LegacyVersion)
        else if reply.Failure? && reply.code == "backend_hello_rejected" then RejectHello(s)
        else if reply.Failure? then s.(handshake := Failing(BackendReported(reply.code)))
        else if reply.hello.NotNegotiated? then RejectHello(s)
        else Negotiate(s, if reply.hello.Multiplexed? then Ready else SingleFlight)
      case LegacyVersion =>
        if reply.Failure? then RejectHello(s) else NextProbe(o, s, LegacyCapabilities(reply.legacyVersion))
      case LegacyCapabilities(versionOk) =>
        if reply.Failure? || !versionOk || !reply.legacyCapabilities then RejectHello(s)
        else Negotiate(s, Legacy)
  }

  /** The rejected handshake promise reaches its awaiters. */
  function SettleHandshake(s: State): State {
    if s.handshake.Failing? then
      MaybeRecycle(s.(handshake := Idle, calls := AwakenAll(s.calls, HandshakeFailed(s.handshake.fault))))
    else s
  }

  // ---------- callers ----------

  function Request(o: Options, s: State, id: RequestId, size: nat, encodable: bool): State {
    match AdmissionFault(o, s, id, false)
    case Some(f) => s.(calls := s.calls + [Call(id, Unary, size, encodable, false, Settled(Failed(f)))])
    case None =>
      var c := |s.calls|;
      var s1 := s.(calls := s.calls + [Call(id, Unary, size, encodable, false, Starting)],
                   routes := s.routes.(waitingIds := s.routes.waitingIds + {id},
                                       waitingRequests := s.routes.waitingRequests[id := c]));
      JoinHandshake(o, s1, c)
  }

  function OpenStream(o: Options, s: State, id: RequestId, size: nat, encodable: bool): State {
    match AdmissionFault(o, s, id, false)
    case Some(f) => s.(calls := s.calls + [Call(id, Stream, size, encodable, false, Settled(Failed(f)))])
    case None =>
      s.(calls := s.calls + [Call(id, Stream, size, encodable, true, Starting)],
         routes := s.routes.(waitingIds := s.routes.waitingIds + {id},
                             waitingStreams := s.routes.waitingStreams[id := |s.calls|]))
  }

  /** The first microtask of a stream; it runs even if the stream was cancelled meanwhile. */
  function ScheduleStream(o: Options, s: State, c: CallId): State {
    if c >= |s.calls| || !s.calls[c].unscheduled then s
    else JoinHandshake(o, s.(calls := s.calls[c := s.calls[c].(unscheduled := false)]), c)
  }

  function ForgetWaiting(r: Routes, id: RequestId, kind: Kind): Routes {
    if kind.Unary? then r.(waitingRequests := r.waitingRequests - {id})
    else r.(waitingStreams := r.waitingStreams - {id})
  }

  /** The clean-up shared by a waiting caller's cancellation and by its `catch`. */
  function RejectWaiting(s: State, c: CallId, f: Fault): State
    requires c < |s.calls|
  {
    var call := s.calls[c];
    var r := ForgetWaiting(s.routes, call.id, call.kind);
    SettleCall(s.(routes := ReleaseId(r.(waitingIds := r.waitingIds - {call.id}), call.id)), c, Failed(f))
  }

  function PromoteFault(o: Options, s: State, id: RequestId): Option<Fault> {
    if id !in s.routes.waitingIds then Some(RequestCancelled)
    else AdmissionFault(o, s.(routes := s.routes.(waitingIds := s.routes.waitingIds - {id})), id, false)
  }

  function Promoted(r: Routes, id: RequestId): Routes {
    r.(waitingIds := r.waitingIds - {id}, activeIds := r.activeIds + {id})
  }

  /** A waiting caller becomes a pending route, or its `catch` runs. */
  function IssueCall(o: Options, s: State, c: CallId, slot: bool): State
    requires c < |s.calls|
  {
    match IssueFault(s)
    case Some(f) => RejectWaiting(s, c, f)
    case None =>
      var call := s.calls[c];
      var s1 := SetStage(s.(routes := ForgetWaiting(s.routes, call.id, call.kind)), c, Issued);
      Issue(o, s1, call.id, call.kind, PendingRoute(CallerRoute(c), slot), call.size, call.encodable)
  }

  function PromoteAndIssue(o: Options, s: State, c: CallId, slot: bool): State
    requires c < |s.calls|
  {
    match PromoteFault(o, s, s.calls[c].id)
    case Some(f) => RejectWaiting(s, c, f)
    case None => IssueCall(o, s.(routes := Promoted(s.routes, s.calls[c].id)), c, slot)
  }

  function AcquireSlot(s: State, c: CallId): State {
    SetStage(s.(slots := s.slots.(queue := s.slots.queue + [c])), c, AwaitingSlot)
  }

  /** The continuation after `ensureHandshake`. A request promotes its id before it queues for
      the slot, a stream only once the slot is granted. */
  function Continue(o: Options, s: State, c: CallId): State {
    if c >= |s.calls| then s
    else
      match s.calls[c].stage
      case HandshakeFailed(f) => RejectWaiting(s, c, f)
      case HandshakeDone =>
        if s.calls[c].kind.Stream? then
          if IsSingleFlight(s.link.handshakeState) then AcquireSlot(s, c) else SetStage(s, c, ReadyToIssue)
        else if IsSingleFlight(s.link.handshakeState) then
          match PromoteFault(o, s, s.calls[c].id)
          case Some(f) => RejectWaiting(s, c, f)
          case None => AcquireSlot(s.(routes := Promoted(s.routes, s.calls[c].id)), c)
        else PromoteAndIssue(o, s, c, false)
      case ReadyToIssue => PromoteAndIssue(o, s, c, false)
      case _ => s
  }

  /** The first slot promise of the chain resolves. */
  function GrantSlot(o: Options, s: State): State {
    if s.slots.granted || s.slots.queue == [] then s
    else
      var c := s.slots.queue[0];
      var s1 := s.(slots := s.slots.(granted := true));
      if c >= |s.calls| || !s.calls[c].stage.AwaitingSlot? then s.(slots := Slots(s.slots.queue[1..], false))
      else if s.calls[c].kind.Unary? then IssueCall(o, s1, c, true)
      else PromoteAndIssue(o, s1, c, true)
  }

  /** A local abort of a pending route, from `cancel` or from its deadline. */
  function AbortPending(o: Options, s: State, id: RequestId, kind: Kind, f: Fault, fatal: bool): State {
    var kill := fatal || HasStartedWrite(s.writes, id);
    var s1 := AbortRoute(o, s, id, kind, true, f);
    if kill then Terminate(s1, f) else s1
  }

  function Cancel(o: Options, s: State, id: RequestId): State {
    if id in s.routes.waitingRequests then
      var c := s.routes.waitingRequests[id];
      if c < |s.calls| then RejectWaiting(s, c, RequestCancelled) else s
    else if id in s.routes.waitingStreams then
      var c := s.routes.waitingStreams[id];
      if c < |s.calls| then RejectWaiting(s, c, RequestCancelled) else s
    else if id in s.routes.pendingResponses then AbortPending(o, s, id, Unary, RequestCancelled, false)
    else if id in s.routes.pendingStreams then AbortPending(o, s, id, Stream, RequestCancelled, false)
    else s
  }

  function Timeout(o: Options, s: State, id: RequestId): State {
    if id in s.routes.pendingResponses then
      AbortPending(o, s, id, Unary, BackendTimeout, s.routes.pendingResponses[id].fatalOnTimeout)
    else if id in s.routes.pendingStreams then
      AbortPending(o, s, id, Stream, BackendTimeout, s.routes.pendingStreams[id].fatalOnTimeout)
    else s
  }

  function Close(s: State): State {
    Terminate(s.(closed := true), BackendClosed)
  }

  // ---------- stdout ----------

  function DiscardOrQuarantine(o: Options, s: State, id: RequestId): State {
    if id in s.link.tombstones || id in s.link.quarantinedIds then s
    else if |s.link.quarantinedIds| >= o.quarantineLimit then Terminate(s, QuarantineLimit)
    else
      MaybeRecycle(s.(link := s.link.(quarantinedIds := s.link.quarantinedIds + {id},
                                      quarantined := true, quarantineTimer := true)))
  }

  function DropTombstone(s: State, id: RequestId): State {
    var t := s.link.tombstones - {id};
    s.(link := s.link.(tombstones := t, tombstoneTimer := t != map[]))
  }

  function Record(s: State, owner: Owner, cause: Option<Line>): State {
    match owner
    case CallerRoute(c) => s.(wire := s.wire.(delivered := s.wire.delivered + [Delivery(c, cause)]))
    case ControlRoute => s
  }

  function HandleResponse(o: Options, s: State, id: RequestId, reply: Reply, cause: Option<Line>): State {
    if id in s.routes.pendingResponses then
      var owner := s.routes.pendingResponses[id].owner;
      var s1 := ClearRoute(o, Record(s, owner, cause), id, Unary, false);
      match owner
      case CallerRoute(c) => SettleCall(s1, c, Answered(reply))
      case ControlRoute => AdvanceHandshake(o, s1, reply)
    else if id in s.routes.pendingStreams then Terminate(s, UnexpectedResponse)
    else if id in s.link.tombstones then
      if s.link.tombstones[id].Unary? then DropTombstone(s, id) else Terminate(s, UnexpectedResponse)
    else DiscardOrQuarantine(o, s, id)
  }

  /** `queued` is the answer of the stream's bounded queue to the pushed event. */
  function HandleEvent(o: Options, s: State, id: RequestId, t: EventType, queued: bool, cause: Option<Line>): State {
    if id in s.routes.pendingStreams then
      var owner := s.routes.pendingStreams[id].owner;
      if !queued then AbortRoute(o, s, id, Stream, true, StreamOverflow)
      else
        var s1 := Record(s, owner, cause);
        match t
        case Completed =>
          var s2 := ClearRoute(o, s1, id, Stream, false);
          (match owner case CallerRoute(c) => SettleCall(s2, c, Finished) case ControlRoute => s2)
        case ErrorEvent(code) => AbortRoute(o, s1, id, Stream, false, BackendReported(code))
        case _ => s1
    else if id in s.routes.pendingResponses then Terminate(s, UnexpectedEvent)
    else if id in s.link.tombstones then
      if s.link.tombstones[id].Unary? then Terminate(s, UnexpectedEvent)
      else if t.Completed? || t.ErrorEvent? then DropTombstone(s, id)
      else s
    else DiscardOrQuarantine(o, s, id)
  }

  /** A terminal message ends the line that caused it. */
  function EndLine(w: Wire, m: Message, cause: Option<Line>): Wire {
    if cause.Some? && Terminal(m) then w.(open := w.open - {cause.value}) else w
  }

  function Deliver(o: Options, s: State, g: Generation, m: Message, queued: bool, cause: Option<Line>): State {
    if s.link.child != Some(g) then s
    else
      var s1 := s.(wire := EndLine(s.wire, m, cause));
      match m
      case Malformed => Terminate(s1, InvalidMessage)
      case Response(id, reply) => HandleResponse(o, s1, id, reply, cause)
      case Event(id, t) => HandleEvent(o, s1, id, t, queued, cause)
  }

  /** stdout framing failed, or the process failed or exited. */
  function ChildFailed(s: State, g: Generation, f: Fault): State {
    if s.link.child != Some(g) then s else Terminate(s, f)
  }

  // ---------- timers ----------

  /** The tombstone timer found an expired tombstone. */
  function TombstoneTimer(s: State): State {
    if s.link.tombstoneTimer && s.link.tombstones != map[] then
      Terminate(s.(link := s.link.(tombstoneTimer := false)), LateOutputTimeout)
    else s
  }

  function QuarantineTimer(s: State): State {
    if s.link.quarantineTimer then Recycle(s.(link := s.link.(quarantineTimer := false))) else s
  }

  // ---------- runs ----------

  datatype Step =
    | RequestStep(id: RequestId, size: nat, encodable: bool)
    | StreamStep(id: RequestId, size: nat, encodable: bool)
    | ScheduleStep(call: CallId)
    | ContinueStep(call: CallId)
    | SettleHandshakeStep
    | GrantSlotStep
    | TurnStep(retired: bool)
    | FinishStep(retired: bool, failed: bool)
    | RetiredDrainedStep
    | TimeoutStep(id: RequestId)
    | CancelStep(id: RequestId)
    | DeliverStep(child: Generation, message: Message, queued: bool, cause: Option<Line>)
    | ChildFailedStep(child: Generation, fault: Fault)
    | TombstoneTimerStep
    | QuarantineTimerStep
    | CloseStep

  /** The steps made by callers and by their continuations. */
  predicate CallerStep(t: Step) {
    t.RequestStep? || t.StreamStep? || t.ScheduleStep? || t.ContinueStep?
    || t.SettleHandshakeStep? || t.GrantSlotStep? || t.TimeoutStep? || t.CancelStep?
  }

  function Apply(o: Options, s: State, t: Step): State {
    match t
    case RequestStep(id, size, encodable) => Request(o, s, id, size, encodable)
    case StreamStep(id, size, encodable) => OpenStream(o, s, id, size, encodable)
    case ScheduleStep(c) => ScheduleStream(o, s, c)
    case ContinueStep(c) => Continue(o, s, c)
    case SettleHandshakeStep => SettleHandshake(s)
    case GrantSlotStep => GrantSlot(o, s)
    case TurnStep(retired) => TurnWrite(o, s, retired)
    case FinishStep(retired, failed) => FinishWrite(o, s, retired, failed)
    case RetiredDrainedStep => s.(writes := DropRetired(s.writes))
    case TimeoutStep(id) => Timeout(o, s, id)
    case CancelStep(id) => Cancel(o, s, id)
    case DeliverStep(g, m, queued, cause) => Deliver(o, s, g, m, queued, cause)
    case ChildFailedStep(g, f) => ChildFailed(s, g, f)
    case TombstoneTimerStep => TombstoneTimer(s)
    case QuarantineTimerStep => QuarantineTimer(s)
    case CloseStep => Close(s)
  }

  function Run(o: Options, s: State, steps: seq<Step>): State
    decreases |steps|
  {
    if steps == [] then s else Run(o, Apply(o, s, steps[0]), steps[1..])
  }
}
