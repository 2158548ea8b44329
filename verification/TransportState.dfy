/** The state of `StdioBackendTransport` as a value: its id sets, its route maps, its write
    chains, its handshake, its single-flight slot and the history of the wire. */
module TransportState {
  import opened Common
  import opened Text

  // ---------- identities ----------

  /** A request id is either caller text or lies in the reserved control namespace. */
  datatype RequestId = CallerId(text: string) | ControlId(serial: nat)

  type CallId = nat      // one promise of request(), or one queue of stream()
  type Generation = nat  // one spawned child process

  const REQUEST_ID_MAX_LENGTH := 4096

  predicate ValidRequestId(id: RequestId) {
    match id
    case ControlId(_) => true
    case CallerId(text) => IsBoundedText(text, REQUEST_ID_MAX_LENGTH)
  }

  // ---------- faults and messages ----------

  datatype Fault =
    | BackendClosed | InvalidRequestId | ReservedRequestId | ProtocolQuarantined
    | DuplicateRequestId | RequestIdReused | RequestIdQuarantined | InFlightLimit
    | WriteTeardownPending | HelloRejected | InvalidRequest | FrameTooLarge
    | WriteQueueOverflow | RequestCancelled | StdinFailure | BackendTimeout
    | StreamOverflow | TombstoneLimit | QuarantineLimit | LateOutputTimeout
    | UnexpectedResponse | UnexpectedEvent | InvalidMessage | InvalidFraming
    | BackendExited | BackendReported(code: string)

  /** The write errors after which the line certainly never reached stdin. */
  predicate DefinitelyUnsent(f: Fault) {
    f in {FrameTooLarge, InvalidRequest, ProtocolQuarantined, BackendClosed, WriteQueueOverflow, RequestCancelled}
  }

  datatype Kind = Unary | Stream

  datatype HelloVerdict = NotNegotiated | Multiplexed | SingleFlightOnly

  /** What the transport reads of a response: the branch, the error code and the verdicts of
      the three negotiation checks on the result. */
  datatype Reply =
    | Success(hello: HelloVerdict, legacyVersion: bool, legacyCapabilities: bool)
    | Failure(code: string)

  datatype EventType = RunItem | AgentUpdated | Completed | ErrorEvent(code: string)

  datatype Message =
    | Malformed
    | Response(id: RequestId, reply: Reply)
    | Event(id: RequestId, eventType: EventType)

  predicate Terminal(m: Message) {
    match m
    case Malformed => false
    case Response(_, _) => true
    case Event(_, t) => t.Completed? || t.ErrorEvent?
  }

  // ---------- routes ----------

  datatype Owner = CallerRoute(call: CallId) | ControlRoute

  datatype PendingRoute = PendingRoute(owner: Owner, fatalOnTimeout: bool)

  datatype Outcome = Answered(reply: Reply) | Finished | Failed(fault: Fault)

  datatype Stage =
    | Starting                      // a stream before its first microtask
    | AwaitingHandshake
    | HandshakeDone
    | HandshakeFailed(fault: Fault)
    | AwaitingSlot
    | ReadyToIssue                  // a stream that needs no slot
    | Issued
    | Settled(outcome: Outcome)

  predicate WaitingStage(g: Stage) {
    !g.Issued? && !g.Settled?
  }

  datatype Call = Call(id: RequestId, kind: Kind, size: nat, encodable: bool, unscheduled: bool, stage: Stage)

  datatype WriteAdmission = WriteAdmission(
    serial: nat, id: RequestId, kind: Kind, owner: Owner, bytes: nat, child: Generation, started: bool)

  // ---------- the wire, as a history ----------

  datatype Line = Line(serial: nat, id: RequestId, kind: Kind, owner: Owner, child: Generation)

  /** `cause` is the line whose processing made the backend emit the delivered message. */
  datatype Delivery = Delivery(call: CallId, cause: Option<Line>)

  // ---------- handshake ----------

  datatype HandshakeState = Unknown | Ready | SingleFlight | Legacy | Blocked

  predicate Negotiated(h: HandshakeState) {
    h.Ready? || h.SingleFlight? || h.Legacy?
  }

  predicate IsSingleFlight(h: HandshakeState) {
    h.SingleFlight? || h.Legacy?
  }

  datatype Phase = Hello | LegacyVersion | LegacyCapabilities(versionOk: bool)

  datatype Handshake = Idle | Running(phase: Phase, id: RequestId) | Failing(fault: Fault)

  // ---------- options and state ----------

  datatype Options = Options(
    maxInFlight: nat, writeQueueLimit: nat, writeQueueBytesLimit: nat,
    tombstoneLimit: nat, quarantineLimit: nat, frameLimitBytes: nat, controlLineBytes: nat)

  predicate ValidOptions(o: Options) {
    && o.maxInFlight >= 2
    && o.writeQueueLimit >= 1
    && o.writeQueueBytesLimit >= 1
    && o.tombstoneLimit >= 1
    && o.quarantineLimit >= 1
    && o.frameLimitBytes >= 1
  }

  /** The four route maps and the id reservations. */
  datatype Routes = Routes(
    waitingRequests: map<RequestId, CallId>,
    waitingStreams: map<RequestId, CallId>,
    pendingResponses: map<RequestId, PendingRoute>,
    pendingStreams: map<RequestId, PendingRoute>,
    waitingIds: set<RequestId>,
    activeIds: set<RequestId>,
    controlIds: set<RequestId>)

  const NO_ROUTES := Routes(map[], map[], map[], map[], {}, {}, {})

  /** The write chain of the current child, the detached chain of an earlier one, and the charge.
      `activeWrites` is the set of entries of the two chains: an admission is released exactly
      when its entry leaves its chain. */
  datatype Writes = Writes(
    tail: seq<WriteAdmission>,
    retired: Option<seq<WriteAdmission>>,
    recycleBlocked: bool,
    count: int,
    bytes: int,
    nextSerial: nat)

  /** What belongs to one child process. */
  datatype Link = Link(
    child: Option<Generation>,
    nextGeneration: Generation,
    handshakeState: HandshakeState,
    tombstones: map<RequestId, Kind>,
    tombstoneTimer: bool,
    quarantinedIds: set<RequestId>,
    quarantined: bool,
    quarantineTimer: bool)

  /** The unreleased promises of the single-flight chain; the first one may be granted. */
  datatype Slots = Slots(queue: seq<CallId>, granted: bool)

  predicate Granted(q: Slots, c: CallId) {
    q.granted && q.queue != [] && q.queue[0] == c
  }

  /** `open` holds the lines of the current child that have not been answered for good. */
  datatype Wire = Wire(sent: seq<Line>, open: set<Line>, delivered: seq<Delivery>)

  datatype State = State(
    calls: seq<Call>,
    routes: Routes,
    writes: Writes,
    link: Link,
    handshake: Handshake,
    nextControl: nat,
    slots: Slots,
    closed: bool,
    wire: Wire)

  const INITIAL := State(
    [], NO_ROUTES, Writes([], None, false, 0, 0, 0),
    Link(None, 0, Unknown, map[], false, {}, false, false),
    Idle, 0, Slots([], false), false, Wire([], {}, []))

  function RetiredWrites(w: Writes): seq<WriteAdmission> {
    match w.retired case None => [] case Some(r) => r
  }

  predicate HoldsWriteOf(w: seq<WriteAdmission>, g: Generation) {
    exists i :: 0 <= i < |w| && w[i].child == g
  }

  predicate HoldsStartedWrite(w: seq<WriteAdmission>, id: RequestId) {
    exists i :: 0 <= i < |w| && w[i].id == id && w[i].started
  }

  function WaitingCallers(m: map<RequestId, CallId>): set<CallId> {
    set id | id in m :: m[id]
  }

  function PendingCallers(m: map<RequestId, PendingRoute>): set<CallId> {
    set id | id in m && m[id].owner.CallerRoute? :: m[id].owner.call
  }

  /** The callers held by one of the four route maps. */
  function LiveCalls(r: Routes): set<CallId> {
    WaitingCallers(r.waitingRequests) + WaitingCallers(r.waitingStreams)
    + PendingCallers(r.pendingResponses) + PendingCallers(r.pendingStreams)
  }

  /** Every id held by one of the four route maps. */
  function RouteIds(r: Routes): set<RequestId> {
    r.waitingRequests.Keys + r.waitingStreams.Keys + r.pendingResponses.Keys + r.pendingStreams.Keys
  }
}
