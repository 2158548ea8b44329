/** `StdioBackendTransport` with its own fields, updated in place. Every method is proved to
    compute the function on states that stands for the same segment of code, so what is proved
    about runs holds of the object. */
module TransportClass {
  import opened Common
  import opened TransportState
  import opened TransportRuns
  import S = TransportSteps

  // ---------- settling one caller after another ----------

  lemma SettleOneMore(calls: seq<Call>, doomed: set<CallId>, c: CallId, outcome: Outcome)
    ensures var done := S.SettleAll(calls, doomed, outcome);
      S.SettleAll(calls, doomed + {c}, outcome) == if c < |calls| then done[c := S.SettledCall(done[c], outcome)] else done
  {
  }

  lemma SettleUnion(calls: seq<Call>, a: set<CallId>, b: set<CallId>, outcome: Outcome)
    ensures S.SettleAll(S.SettleAll(calls, a, outcome), b, outcome) == S.SettleAll(calls, a + b, outcome)
  {
  }

  lemma FailAllIs(s: State, f: Fault)
    ensures var r := s.routes;
      var all := WaitingCallers(r.waitingRequests) + WaitingCallers(r.waitingStreams)
                 + PendingCallers(r.pendingResponses) + PendingCallers(r.pendingStreams);
      S.FailAll(s, f) == s.(
        calls := S.SettleAll(s.calls, all, Failed(f)),
        handshake := if s.handshake.Running? && s.handshake.id in r.pendingResponses then Failing(f) else s.handshake,
        slots := S.ReleaseSlots(s.slots, all),
        routes := NO_ROUTES)
  {
  }

  /** Settling the callers of the four maps one map after another settles them all. */
  lemma FourSettled(calls: seq<Call>, l: Slots, a: set<CallId>, b: set<CallId>, c: set<CallId>, d: set<CallId>, outcome: Outcome)
    ensures S.SettleAll(S.SettleAll(S.SettleAll(S.SettleAll(calls, a, outcome), b, outcome), c, outcome), d, outcome)
            == S.SettleAll(calls, a + b + c + d, outcome)
    ensures S.ReleaseSlots(S.ReleaseSlots(S.ReleaseSlots(S.ReleaseSlots(l, a), b), c), d) == S.ReleaseSlots(l, a + b + c + d)
  {
    SettleUnion(calls, a, b, outcome);
    SettleUnion(calls, a + b, c, outcome);
    SettleUnion(calls, a + b + c, d, outcome);
  }

  // ---------- the write queue ----------

  /** The admissions on a promise chain, which holds them by serial. */
  const RELEASED := WriteAdmission(0, ControlId(0), Unary, ControlRoute, 0, 0, false)

  function Entries(active: map<nat, WriteAdmission>, chain: seq<nat>): seq<WriteAdmission> {
    seq(|chain|, i requires 0 <= i < |chain| => if chain[i] in active then active[chain[i]] else RELEASED)
  }

  function OnRetired(retired: Option<seq<nat>>): seq<nat> {
    match retired case None => [] case Some(r) => r
  }

  /** `activeWrites` holds exactly the admissions on the two chains, each on one of them once. */
  ghost predicate QueueValid(active: map<nat, WriteAdmission>, tail: seq<nat>, retired: Option<seq<nat>>, nextSerial: nat) {
    && (forall c :: c in active <==> c in tail || c in OnRetired(retired))
    && (forall c | c in tail :: c !in OnRetired(retired))
    && (forall i, j | 0 <= i < j < |tail| :: tail[i] != tail[j])
    && (forall i, j | 0 <= i < j < |OnRetired(retired)| :: OnRetired(retired)[i] != OnRetired(retired)[j])
    && (forall c | c in active :: c < nextSerial && active[c].serial == c)
  }

  ghost function QueueView(active: map<nat, WriteAdmission>, tail: seq<nat>, retired: Option<seq<nat>>, blocked: bool,
                           count: int, bytes: int, nextSerial: nat): Writes {
    Writes(Entries(active, tail), if retired.None? then None else Some(Entries(active, retired.value)), blocked, count, bytes, nextSerial)
  }

  function Rest(tail: seq<nat>, retired: Option<seq<nat>>, fromRetired: bool): (seq<nat>, Option<seq<nat>>)
    requires (if fromRetired then OnRetired(retired) else tail) != []
  {
    if fromRetired then (tail, Some(retired.value[1..])) else (tail[1..], retired)
  }

  /** An admission that is released leaves its chain and the set, and the set is empty exactly if
      both chains are. */
  lemma ReleaseOne(active: map<nat, WriteAdmission>, tail: seq<nat>, retired: Option<seq<nat>>, nextSerial: nat, fromRetired: bool)
    requires QueueValid(active, tail, retired, nextSerial) && (if fromRetired then OnRetired(retired) else tail) != []
    ensures var c := (if fromRetired then OnRetired(retired) else tail)[0];
      var (t, r) := Rest(tail, retired, fromRetired);
      && c in active
      && QueueValid(active - {c}, t, r, nextSerial)
      && Entries(active - {c}, t) == Entries(active, t)
      && (r.Some? ==> Entries(active - {c}, r.value) == Entries(active, r.value))
  {
    var c := (if fromRetired then OnRetired(retired) else tail)[0];
    var (t, r) := Rest(tail, retired, fromRetired);
    if fromRetired {
      assert OnRetired(retired) == [c] + OnRetired(r);
    } else {
      assert tail == [c] + t;
    }
    assert c !in t && c !in OnRetired(r);
  }

  lemma ReleaseView(active: map<nat, WriteAdmission>, tail: seq<nat>, retired: Option<seq<nat>>, blocked: bool, count: int, bytes: int,
                    nextSerial: nat, fromRetired: bool)
    requires QueueValid(active, tail, retired, nextSerial) && (if fromRetired then OnRetired(retired) else tail) != []
    ensures var c := (if fromRetired then OnRetired(retired) else tail)[0]; var (t, r) := Rest(tail, retired, fromRetired);
      var w := QueueView(active, tail, retired, blocked, count, bytes, nextSerial);
      && c in active && QueueValid(active - {c}, t, r, nextSerial)
      && QueueView(active - {c}, t, r, blocked, S.Max0(count - 1), S.Max0(bytes - active[c].bytes), nextSerial)
         == S.WithChain(w, fromRetired, S.Chain(w, fromRetired)[1..]).(
              count := S.Max0(count - 1), bytes := S.Max0(bytes - S.Chain(w, fromRetired)[0].bytes))
  {
    hide QueueValid;
    ReleaseOne(active, tail, retired, nextSerial, fromRetired);
    var chain := if fromRetired then OnRetired(retired) else tail;
    assert Entries(active, chain)[1..] == Entries(active, chain[1..]);
  }

  lemma ChainIs(active: map<nat, WriteAdmission>, tail: seq<nat>, retired: Option<seq<nat>>, fromRetired: bool)
    ensures Entries(active, tail) == [] <==> tail == []
    ensures Entries(active, OnRetired(retired)) == [] <==> OnRetired(retired) == []
  {
  }

  lemma EmptyQueue(active: map<nat, WriteAdmission>, tail: seq<nat>, nextSerial: nat)
    requires QueueValid(active, tail, None, nextSerial)
    ensures active == map[] <==> tail == []
  {
    if tail != [] {
      assert tail[0] in active;
    }
  }

  lemma AdmitOne(active: map<nat, WriteAdmission>, tail: seq<nat>, retired: Option<seq<nat>>, e: WriteAdmission)
    requires QueueValid(active, tail, retired, e.serial)
    ensures QueueValid(active[e.serial := e], tail + [e.serial], retired, e.serial + 1)
    ensures Entries(active[e.serial := e], tail + [e.serial]) == Entries(active, tail) + [e]
    ensures retired.Some? ==> Entries(active[e.serial := e], retired.value) == Entries(active, retired.value)
  {
    var t := tail + [e.serial];
    assert forall c | c in tail :: c in active && c != e.serial;
    assert forall c | c in OnRetired(retired) :: c in active && c != e.serial;
    assert forall c :: c in t <==> c in tail || c == e.serial;
    assert forall i, j | 0 <= i < j < |t| :: t[i] != t[j] by {
      assert forall i | 0 <= i < |tail| :: tail[i] in tail;
    }
  }

  lemma StartOne(active: map<nat, WriteAdmission>, tail: seq<nat>, retired: Option<seq<nat>>, nextSerial: nat, fromRetired: bool)
    requires QueueValid(active, tail, retired, nextSerial) && (if fromRetired then OnRetired(retired) else tail) != []
    ensures var chain := if fromRetired then OnRetired(retired) else tail; var other := if fromRetired then tail else OnRetired(retired);
      var c := chain[0];
      && c in active
      && var started := active[c := active[c].(started := true)];
      && QueueValid(started, tail, retired, nextSerial)
      && Entries(started, chain) == [active[c].(started := true)] + Entries(active, chain)[1..]
      && Entries(started, other) == Entries(active, other)
  {
    var chain, other := if fromRetired then OnRetired(retired) else tail, if fromRetired then tail else OnRetired(retired);
    var c := chain[0];
    assert c in active && c !in other;
    var started := active[c := active[c].(started := true)];
    assert started.Keys == active.Keys;
    assert forall i | 0 < i < |chain| :: chain[i] != c;
    assert forall i | 0 <= i < |other| :: other[i] in other;
    assert Entries(started, other) == Entries(active, other);
    assert Entries(started, chain) == [active[c].(started := true)] + Entries(active, chain)[1..];
  }

  /** A search over `activeWrites` finds what the two chains hold. */
  lemma SearchIsHolds(active: map<nat, WriteAdmission>, tail: seq<nat>, retired: Option<seq<nat>>, nextSerial: nat, g: Generation)
    requires QueueValid(active, tail, retired, nextSerial)
    ensures (exists c :: c in active && active[c].child == g)
            <==> HoldsWriteOf(Entries(active, OnRetired(retired)), g) || HoldsWriteOf(Entries(active, tail), g)
  {
    forall chain: seq<nat> | chain == tail || chain == OnRetired(retired)
      ensures HoldsWriteOf(Entries(active, chain), g) <==> exists c :: c in chain && active[c].child == g
    {
      assert forall c | c in chain :: c in active;
      if c :| c in chain && active[c].child == g {
        var i :| 0 <= i < |chain| && chain[i] == c;
        assert Entries(active, chain)[i].child == g;
      }
    }
  }

  lemma SearchIsStarted(active: map<nat, WriteAdmission>, tail: seq<nat>, retired: Option<seq<nat>>, nextSerial: nat, id: RequestId)
    requires QueueValid(active, tail, retired, nextSerial)
    ensures (exists c :: c in active && active[c].id == id && active[c].started)
            <==> HoldsStartedWrite(Entries(active, OnRetired(retired)), id) || HoldsStartedWrite(Entries(active, tail), id)
  {
    forall chain: seq<nat> | chain == tail || chain == OnRetired(retired)
      ensures HoldsStartedWrite(Entries(active, chain), id) <==> exists c :: c in chain && active[c].id == id && active[c].started
    {
      assert forall c | c in chain :: c in active;
      if c :| c in chain && active[c].id == id && active[c].started {
        var i :| 0 <= i < |chain| && chain[i] == c;
        assert Entries(active, chain)[i].id == id && Entries(active, chain)[i].started;
      }
    }
  }

  class StdioBackendTransport {
    const options: Options

    // the promises and queues handed to callers
    var calls: seq<Call>

    var waitingRequests: map<RequestId, CallId>
    var waitingStreams: map<RequestId, CallId>
    var pendingResponses: map<RequestId, PendingRoute>
    var pendingStreams: map<RequestId, PendingRoute>
    var waitingAdmissionIds: set<RequestId>
    var activeRequestIds: set<RequestId>
    var activeControlRequestIds: set<RequestId>

    // the writes that are not released, by serial, their charge, and the chains of promises
    var activeWrites: map<nat, WriteAdmission>
    var writeQueueCount: int
    var writeQueueBytes: int
    var writeTail: seq<nat>
    var retiredWriteTail: Option<seq<nat>>
    var recycleBlockedByWriteTeardown: bool
    var admissions: nat

    // the fields that start afresh with each child
    var link: Link

    var handshakePromise: Handshake
    var handshakeGeneration: nat
    var legacyTail: Slots
    var closed: bool

    ghost var wire: Wire

    ghost function WritesView(): Writes
      reads `activeWrites, `writeQueueCount, `writeQueueBytes, `writeTail, `retiredWriteTail, `recycleBlockedByWriteTeardown, `admissions
    {
      QueueView(activeWrites, writeTail, retiredWriteTail, recycleBlockedByWriteTeardown, writeQueueCount, writeQueueBytes, admissions)
    }

    ghost function View(): State
      reads this
    {
      State(calls,
            Routes(waitingRequests, waitingStreams, pendingResponses, pendingStreams,
                   waitingAdmissionIds, activeRequestIds, activeControlRequestIds),
            WritesView(), link, handshakePromise, handshakeGeneration, legacyTail, closed, wire)
    }

    /** `activeWrites` is the set of unreleased admissions: those on the two chains. */
    ghost predicate Valid()
      reads `activeWrites, `writeTail, `retiredWriteTail, `admissions
    {
      QueueValid(activeWrites, writeTail, retiredWriteTail, admissions)
    }

    constructor (options: Options)
      requires ValidOptions(options)
      ensures Valid() && View() == INITIAL && this.options == options
    {
      this.options := options;
      calls := [];
      waitingRequests, waitingStreams, pendingResponses, pendingStreams := map[], map[], map[], map[];
      waitingAdmissionIds, activeRequestIds, activeControlRequestIds := {}, {}, {};
      activeWrites, writeQueueCount, writeQueueBytes, writeTail, retiredWriteTail := map[], 0, 0, [], None;
      recycleBlockedByWriteTeardown, admissions := false, 0;
      link := Link(None, 0, Unknown, map[], false, {}, false, false);
      handshakePromise, handshakeGeneration, legacyTail, closed := Idle, 0, Slots([], false), false;
      wire := Wire([], {}, []);
    }

    // ---------- settling callers ----------

    method ReleaseSlot(c: CallId)
      modifies `legacyTail
      ensures legacyTail == S.ReleaseSlot(old(legacyTail), c)
    {
      if legacyTail.granted && legacyTail.queue != [] && legacyTail.queue[0] == c {
        legacyTail := Slots(legacyTail.queue[1..], false);
      }
    }

    method SettleCall(c: CallId, outcome: Outcome)
      requires Valid()
      modifies this
      ensures Valid() && View() == S.SettleCall(old(View()), c, outcome)
    {
      hide QueueView, QueueValid;
      if c < |calls| {
        calls := calls[c := S.SettledCall(calls[c], outcome)];
        ReleaseSlot(c);
      }
    }

    method SetStage(c: CallId, g: Stage)
      requires Valid()
      modifies this
      ensures Valid() && View() == S.SetStage(old(View()), c, g)
    {
      hide QueueView, QueueValid;
      if c < |calls| {
        calls := calls[c := S.StagedCall(calls[c], g)];
      }
    }

    /** Reject the callers of one map, one by one, giving back any slot they hold. */
    method RejectCallers(doomed: set<CallId>, f: Fault)
      modifies `calls, `legacyTail
      ensures calls == S.SettleAll(old(calls), doomed, Failed(f))
      ensures legacyTail == S.ReleaseSlots(old(legacyTail), doomed)
    {
      var todo := doomed;
      ghost var done: set<CallId> := {};
      while todo != {}
        invariant done + todo == doomed && done !! todo
        invariant calls == S.SettleAll(old(calls), done, Failed(f))
        invariant legacyTail == S.ReleaseSlots(old(legacyTail), done)
        decreases todo
      {
        var c :| c in todo;
        SettleOneMore(old(calls), done, c, Failed(f));
        if c < |calls| {
          calls := calls[c := S.SettledCall(calls[c], Failed(f))];
        }
        ReleaseSlot(c);
        todo, done := todo - {c}, done + {c};
      }
      assert done == doomed;
    }

    // ---------- teardown ----------

    /** The four loops of `failAll`, one for each map. */
    method RejectEveryone(responses: set<CallId>, streams: set<CallId>, requests: set<CallId>, openings: set<CallId>, f: Fault)
      modifies `calls, `legacyTail
      ensures var all := requests + openings + responses + streams;
        calls == S.SettleAll(old(calls), all, Failed(f)) && legacyTail == S.ReleaseSlots(old(legacyTail), all)
    {
      hide S.SettleAll, S.ReleaseSlots;
      RejectCallers(responses, f);
      RejectCallers(streams, f);
      RejectCallers(requests, f);
      RejectCallers(openings, f);
      FourSettled(old(calls), old(legacyTail), responses, streams, requests, openings, Failed(f));
      assert responses + streams + requests + openings == requests + openings + responses + streams;
    }

    /** Everyone held by a map is rejected: the handshake, if its control route is pending, and the
        callers. */
    method RejectRoutes(f: Fault)
      modifies `calls, `legacyTail, `handshakePromise
      ensures var t := S.FailAll(old(View()), f); calls == t.calls && legacyTail == t.slots && handshakePromise == t.handshake
    {
      hide QueueView, S.SettleAll, S.ReleaseSlots, S.FailAll, PendingCallers, WaitingCallers;
      FailAllIs(View(), f);
      if handshakePromise.Running? && handshakePromise.id in pendingResponses {
        handshakePromise := Failing(f);
      }
      RejectEveryone(PendingCallers(pendingResponses), PendingCallers(pendingStreams),
                     WaitingCallers(waitingRequests), WaitingCallers(waitingStreams), f);
    }

    method FailAll(f: Fault)
      requires Valid()
      modifies this
      ensures Valid() && View() == S.FailAll(old(View()), f)
    {
      hide QueueView, QueueValid, S.FailAll, S.SettleAll, S.ReleaseSlots, PendingCallers, WaitingCallers;
      FailAllIs(View(), f);
      RejectRoutes(f);
      ForgetRoutes();
    }

    method ForgetRoutes()
      modifies `waitingRequests, `waitingStreams, `pendingResponses, `pendingStreams,
               `waitingAdmissionIds, `activeRequestIds, `activeControlRequestIds
      ensures waitingRequests == map[] && waitingStreams == map[] && pendingResponses == map[] && pendingStreams == map[]
      ensures waitingAdmissionIds == {} && activeRequestIds == {} && activeControlRequestIds == {}
    {
      pendingResponses, pendingStreams := map[], map[];
      waitingRequests, waitingStreams := map[], map[];
      waitingAdmissionIds, activeRequestIds, activeControlRequestIds := {}, {}, {};
    }

    method HoldsWrite(g: Generation) returns (found: bool)
      requires Valid()
      ensures found <==> HoldsWriteOf(RetiredWrites(WritesView()), g) || HoldsWriteOf(WritesView().tail, g)
    {
      SearchIsHolds(activeWrites, writeTail, retiredWriteTail, admissions, g);
      var todo := activeWrites.Keys;
      while todo != {}
        invariant todo <= activeWrites.Keys && forall c | c in activeWrites && c !in todo :: activeWrites[c].child != g
        decreases todo
      {
        var c :| c in todo;
        if activeWrites[c].child == g { return true; }
        todo := todo - {c};
      }
      return false;
    }

    method RetireWriteLifecycle(g: Generation)
      requires Valid()
      modifies `writeTail, `retiredWriteTail, `recycleBlockedByWriteTeardown
      ensures Valid() && WritesView() == S.RetireWrites(old(WritesView()), g)
    {
      var found := HoldsWrite(g);
      if !found {
        return;
      }
      if retiredWriteTail.None? {
        retiredWriteTail := Some(writeTail);
        writeTail := [];
      } else {
        recycleBlockedByWriteTeardown := true;
      }
    }

    method Terminate(f: Fault)
      requires Valid()
      modifies this
      ensures Valid() && View() == S.Terminate(old(View()), f)
    {
      hide QueueView, QueueValid, S.FailAll, S.RetireWrites;
      match link.child
      case None => FailAll(f);
      case Some(g) =>
        RetireWriteLifecycle(g);
        link := S.ResetLink(link);
        wire := wire.(open := {});
        assert View() == old(View()).(writes := WritesView(), link := link, wire := wire);
        FailAll(f);
    }

    method RecycleQuarantinedTransport()
      requires Valid()
      modifies this
      ensures Valid() && View() == S.Recycle(old(View()))
    {
      hide QueueView, QueueValid, S.Terminate;
      if !link.quarantined {
        return;
      }
      link := link.(quarantined := false, quarantineTimer := false);
      if link.child.Some? {
        Terminate(ProtocolQuarantined);
      }
    }

    method MaybeRecycleQuarantined()
      requires Valid()
      modifies this
      ensures Valid() && View() == S.MaybeRecycle(old(View()))
    {
      hide QueueView, QueueValid, S.Recycle;
      var busy := |pendingResponses| > 0 || |pendingStreams| > 0 || |waitingRequests| > 0 || |waitingStreams| > 0;
      assert !busy <==> pendingResponses.Keys == {} && pendingStreams.Keys == {} && waitingRequests.Keys == {} && waitingStreams.Keys == {};
      if !link.quarantined || !handshakePromise.Idle? || busy {
        return;
      }
      RecycleQuarantinedTransport();
    }

    // ---------- releasing ids and routes ----------

    method AddTombstone(id: RequestId, kind: Kind)
      requires Valid()
      modifies this
      ensures Valid() && View() == S.AddTombstone(options, old(View()), id, kind)
    {
      hide QueueView, QueueValid, S.Terminate;
      if |link.tombstones| >= options.tombstoneLimit && id !in link.tombstones {
        Terminate(TombstoneLimit);
      } else {
        link := link.(tombstones := link.tombstones[id := kind], tombstoneTimer := true);
      }
    }

    method ReleaseRequestId(id: RequestId)
      modifies `activeRequestIds, `activeControlRequestIds
      ensures View().routes == S.ReleaseId(old(View()).routes, id)
    {
      activeRequestIds, activeControlRequestIds := activeRequestIds - {id}, activeControlRequestIds - {id};
    }

    /** `clearResponse` and `clearStream`. */
    method ClearRoute(id: RequestId, kind: Kind, tombstone: bool)
      requires Valid()
      requires id in S.PendingMap(View().routes, kind)
      modifies this
      ensures Valid() && View() == S.ClearRoute(options, old(View()), id, kind, tombstone)
    {
      hide QueueView, QueueValid, S.AddTombstone, S.MaybeRecycle, S.ReleaseSlot;
      match kind {
        case Unary => pendingResponses := pendingResponses - {id};
        case Stream =>
          var owner := pendingStreams[id].owner;
          pendingStreams := pendingStreams - {id};
          if owner.CallerRoute? {
            ReleaseSlot(owner.call);
          }
      }
      ReleaseRequestId(id);
      if tombstone {
        AddTombstone(id, kind);
      }
      MaybeRecycleQuarantined();
    }

    method RejectOwner(owner: Owner, f: Fault)
      requires Valid()
      modifies this
      ensures Valid() && View() == S.RejectOwner(old(View()), owner, f)
    {
      hide QueueView, QueueValid;
      match owner
      case CallerRoute(c) => SettleCall(c, Failed(f));
      case ControlRoute => handshakePromise := Failing(f);
    }

    method AbortRoute(id: RequestId, kind: Kind, tombstone: bool, f: Fault)
      requires Valid()
      modifies this
      ensures Valid() && View() == S.AbortRoute(options, old(View()), id, kind, tombstone, f)
    {
      hide QueueView, QueueValid, S.ClearRoute, S.RejectOwner;
      var routes := if kind.Unary? then pendingResponses else pendingStreams;
      if id in routes {
        ClearRoute(id, kind, tombstone);
        RejectOwner(routes[id].owner, f);
      }
    }

    // ---------- admission of ids ----------

    method ValidateRequestId(id: RequestId, control: bool) returns (f: Option<Fault>)
      ensures f == S.ValidationFault(View(), id, control)
    {
      if closed { return Some(BackendClosed); }
      if !ValidRequestId(id) { return Some(InvalidRequestId); }
      if !control && id.ControlId? { return Some(ReservedRequestId); }
      if link.quarantined { return Some(ProtocolQuarantined); }
      if id in activeRequestIds || id in waitingAdmissionIds { return Some(DuplicateRequestId); }
      if id in link.tombstones { return Some(RequestIdReused); }
      if id in link.quarantinedIds { return Some(RequestIdQuarantined); }
      return None;
    }

    method AdmissionFault(id: RequestId, control: bool) returns (f: Option<Fault>)
      ensures f == S.AdmissionFault(options, View(), id, control)
    {
      hide S.ValidationFault;
      f := ValidateRequestId(id, control);
      if f.Some? {
        return;
      }
      var limit := if !control && link.handshakeState.Unknown? && |activeControlRequestIds| == 0 then options.maxInFlight - 1 else options.maxInFlight;
      if |waitingAdmissionIds| + |activeRequestIds| >= limit {
        f := Some(InFlightLimit);
      }
    }

    /** `promoteWaitingAdmission`: on failure the id is left in neither set. */
    method PromoteWaitingAdmission(id: RequestId) returns (f: Option<Fault>)
      modifies `waitingAdmissionIds, `activeRequestIds, `activeControlRequestIds
      ensures f == S.PromoteFault(options, old(View()), id)
      ensures f.None? ==> View() == old(View()).(routes := S.Promoted(old(View()).routes, id))
      ensures f.Some? ==> View().routes ==
                            old(View()).routes.(waitingIds := waitingAdmissionIds, activeIds := activeRequestIds, controlIds := activeControlRequestIds)
                          && waitingAdmissionIds == old(waitingAdmissionIds) - {id}
                          && activeRequestIds in {old(activeRequestIds), old(activeRequestIds) - {id}}
                          && activeControlRequestIds in {old(activeControlRequestIds), old(activeControlRequestIds) - {id}}
    {
      hide QueueView, QueueValid, S.AdmissionFault;
      if id !in waitingAdmissionIds {
        assert waitingAdmissionIds == waitingAdmissionIds - {id};
        return Some(RequestCancelled);
      }
      waitingAdmissionIds := waitingAdmissionIds - {id};
      f := AdmissionFault(id, false);
      if f.None? {
        activeRequestIds := activeRequestIds + {id};
      } else {
        activeRequestIds, activeControlRequestIds := activeRequestIds - {id}, activeControlRequestIds - {id};
      }
    }

    // ---------- writes ----------

    method MaybeUnblockWriteTeardown()
      requires Valid()
      modifies `recycleBlockedByWriteTeardown
      ensures WritesView() == S.MaybeUnblock(old(WritesView()))
    {
      if retiredWriteTail.None? {
        EmptyQueue(activeWrites, writeTail, admissions);
      }
      if !recycleBlockedByWriteTeardown || retiredWriteTail.Some? || |activeWrites| > 0 {
        return;
      }
      recycleBlockedByWriteTeardown := false;
    }

    /** `releaseWrite` of the head of a chain. */
    method ReleaseWrite(retired: bool)
      requires Valid() && S.Chain(WritesView(), retired) != []
      modifies `activeWrites, `writeTail, `retiredWriteTail, `writeQueueCount, `writeQueueBytes, `recycleBlockedByWriteTeardown
      ensures Valid() && WritesView() == S.ReleaseHead(old(WritesView()), retired)
    {
      hide Entries, QueueValid;
      ChainIs(activeWrites, writeTail, retiredWriteTail, retired);
      ReleaseView(activeWrites, writeTail, retiredWriteTail, recycleBlockedByWriteTeardown, writeQueueCount, writeQueueBytes, admissions, retired);
      var c := if retired then retiredWriteTail.value[0] else writeTail[0];
      var bytes := activeWrites[c].bytes;
      if retired {
        retiredWriteTail := Some(retiredWriteTail.value[1..]);
      } else {
        writeTail := writeTail[1..];
      }
      activeWrites := activeWrites - {c};
      writeQueueCount := if writeQueueCount < 1 then 0 else writeQueueCount - 1;
      writeQueueBytes := if writeQueueBytes < bytes then 0 else writeQueueBytes - bytes;
      MaybeUnblockWriteTeardown();
    }

    /** The synchronous part of `write`: the checks, and the admission of the line. */
    method Write(id: RequestId, kind: Kind, owner: Owner, size: nat, encodable: bool) returns (f: Option<Fault>)
      requires Valid()
      modifies `activeWrites, `writeTail, `writeQueueCount, `writeQueueBytes, `admissions
      ensures Valid() && f == S.WriteFault(options, old(View()), size, encodable)
      ensures WritesView() == if f.Some? then old(WritesView()) else S.AdmitWrite(old(WritesView()), id, kind, owner, size, link.child.value)
    {
      if link.child.None? || closed { return Some(BackendClosed); }
      if !encodable { return Some(InvalidRequest); }
      if size > options.frameLimitBytes { return Some(FrameTooLarge); }
      if writeQueueCount >= options.writeQueueLimit || writeQueueBytes > options.writeQueueBytesLimit - size {
        return Some(WriteQueueOverflow);
      }
      var admission := WriteAdmission(admissions, id, kind, owner, size, link.child.value, false);
      AdmitOne(activeWrites, writeTail, retiredWriteTail, admission);
      activeWrites := activeWrites[admissions := admission];
      writeTail := writeTail + [admissions];
      admissions := admissions + 1;
      writeQueueCount, writeQueueBytes := writeQueueCount + 1, writeQueueBytes + size;
      return None;
    }

    /** `issueResponse` and `issueStream`. */
    method Issue(id: RequestId, kind: Kind, route: PendingRoute, size: nat, encodable: bool)
      requires Valid()
      modifies this
      ensures Valid() && View() == S.Issue(options, old(View()), id, kind, route, size, encodable)
    {
      hide QueueView, QueueValid, S.AbortRoute, S.AdmitWrite, S.WriteFault;
      match kind {
        case Unary => pendingResponses := pendingResponses[id := route];
        case Stream => pendingStreams := pendingStreams[id := route];
      }
      ghost var s1 := View();
      assert s1 == old(View()).(routes := S.PendingRoutes(old(View()).routes, id, kind, route));
      var f := Write(id, kind, route.owner, size, encodable);
      assert View() == s1.(writes := WritesView());
      if f.Some? {
        AbortRoute(id, kind, !DefinitelyUnsent(f.value), f.value);
      }
    }

    method AssertCanIssue() returns (f: Option<Fault>)
      ensures f == S.IssueFault(View())
    {
      if closed { return Some(BackendClosed); }
      if link.quarantined { return Some(ProtocolQuarantined); }
      if link.handshakeState.Blocked? { return Some(HelloRejected); }
      if link.child.None? { return Some(BackendClosed); }
      return None;
    }

    method TurnFault(e: WriteAdmission) returns (f: Option<Fault>)
      ensures f == S.TurnFault(View(), e)
    {
      hide S.IssueFault;
      if e.owner.CallerRoute? {
        f := AssertCanIssue();
        if f.Some? {
          return;
        }
      }
      if link.child != Some(e.child) { return Some(BackendClosed); }
      if e.id !in pendingResponses && e.id !in pendingStreams { return Some(RequestCancelled); }
      return None;
    }

    /** The admission whose promise is next on a chain. */
    method NextWrite(retired: bool) returns (next: Option<WriteAdmission>)
      requires Valid()
      ensures var chain := S.Chain(WritesView(), retired); next == if chain == [] then None else Some(chain[0])
    {
      var chain := if retired then OnRetired(retiredWriteTail) else writeTail;
      if chain == [] { return None; }
      ReleaseOne(activeWrites, writeTail, retiredWriteTail, admissions, retired);
      return Some(activeWrites[chain[0]]);
    }

    method MarkStarted(retired: bool)
      requires Valid() && S.Chain(WritesView(), retired) != []
      modifies `activeWrites
      ensures Valid() && WritesView() == S.StartHead(old(WritesView()), retired)
    {
      StartOne(activeWrites, writeTail, retiredWriteTail, admissions, retired);
      var c := if retired then retiredWriteTail.value[0] else writeTail[0];
      activeWrites := activeWrites[c := activeWrites[c].(started := true)];
    }

    /** The continuation of `writeTail.then`. An admission is never released before its turn, so the
        check for that is left out. */
    method TurnWrite(retired: bool)
      requires Valid()
      modifies this
      ensures Valid() && View() == S.TurnWrite(options, old(View()), retired)
    {
      hide QueueView, QueueValid, S.AbortRoute, S.ReleaseHead, S.TurnFault, S.StartHead;
      var next := NextWrite(retired);
      if next.None? || next.value.started {
        return;
      }
      var e := next.value;
      var f := TurnFault(e);
      if f.Some? {
        ReleaseWrite(retired);
        assert View() == old(View()).(writes := S.ReleaseHead(old(WritesView()), retired));
        AbortRoute(e.id, e.kind, !DefinitelyUnsent(f.value), f.value);
      } else {
        MarkStarted(retired);
        wire := wire.(sent := wire.sent + [S.LineOf(e)], open := wire.open + {S.LineOf(e)});
      }
    }

    method FinishWrite(retired: bool, failed: bool)
      requires Valid()
      modifies this
      ensures Valid() && View() == S.FinishWrite(options, old(View()), retired, failed)
    {
      hide QueueView, QueueValid, S.AbortRoute, S.ReleaseHead;
      var next := NextWrite(retired);
      if next.None? || !next.value.started {
        return;
      }
      var e := next.value;
      ReleaseWrite(retired);
      if failed {
        AbortRoute(e.id, e.kind, true, StdinFailure);
      }
    }

    /** `finishRetiredWriteTail`. */
    method FinishRetiredWriteTail()
      requires Valid()
      modifies this
      ensures Valid() && View() == old(View()).(writes := S.DropRetired(old(View()).writes))
    {
      ChainIs(activeWrites, writeTail, retiredWriteTail, true);
      if retiredWriteTail == Some([]) {
        retiredWriteTail := None;
        MaybeUnblockWriteTeardown();
      }
    }

    method HasStartedWrite(id: RequestId) returns (found: bool)
      requires Valid()
      ensures found == S.HasStartedWrite(WritesView(), id)
    {
      SearchIsStarted(activeWrites, writeTail, retiredWriteTail, admissions, id);
      var todo := activeWrites.Keys;
      while todo != {}
        invariant todo <= activeWrites.Keys
        invariant forall c | c in activeWrites && c !in todo :: !(activeWrites[c].id == id && activeWrites[c].started)
        decreases todo
      {
        var c :| c in todo;
        if activeWrites[c].id == id && activeWrites[c].started { return true; }
        todo := todo - {c};
      }
      return false;
    }

    // ---------- handshake ----------

    method Start()
      requires Valid()
      modifies this
      ensures Valid() && View() == S.StartChild(old(View()))
    {
      hide QueueView, QueueValid;
      if link.child.Some? {
        return;
      }
      link := Link(Some(link.nextGeneration), link.nextGeneration + 1, Unknown, map[], false, {}, false, false);
      activeControlRequestIds := {};
      legacyTail := Slots([], false);
      wire := wire.(open := {});
    }

    method BeginControl(phase: Phase)
      requires Valid()
      modifies this
      ensures Valid() && View() == S.BeginControl(options, old(View()), phase)
    {
      hide QueueView, QueueValid, S.Issue;
      var id := ControlId(handshakeGeneration);
      handshakeGeneration := handshakeGeneration + 1;
      handshakePromise := Running(phase, id);
      activeRequestIds, activeControlRequestIds := activeRequestIds + {id}, activeControlRequestIds + {id};
      Issue(id, Unary, PendingRoute(ControlRoute, true), options.controlLineBytes, true);
    }

    method EnsureHandshake() returns (stage: Stage)
      requires Valid()
      modifies this
      ensures Valid() && (View(), stage) == S.EnsureHandshake(options, old(View()))
    {
      hide Entries, QueueValid, S.StartChild, S.BeginControl, S.AdmissionFault;
      if closed { return HandshakeFailed(BackendClosed); }
      if Negotiated(link.handshakeState) { return HandshakeDone; }
      if link.handshakeState.Blocked? { return HandshakeFailed(HelloRejected); }
      if !handshakePromise.Idle? { return AwaitingHandshake; }
      if recycleBlockedByWriteTeardown { return HandshakeFailed(WriteTeardownPending); }
      Start();
      var f := AdmissionFault(ControlId(handshakeGeneration), true);
      if f.Some? {
        handshakeGeneration := handshakeGeneration + 1;
        return HandshakeFailed(f.value);
      }
      BeginControl(Hello);
      return AwaitingHandshake;
    }

    method JoinHandshake(c: CallId)
      requires Valid()
      modifies this
      ensures Valid() && View() == S.JoinHandshake(options, old(View()), c)
    {
      hide QueueView, QueueValid, S.EnsureHandshake, S.SetStage;
      var stage := EnsureHandshake();
      SetStage(c, stage);
    }

    /** Everyone who awaits the handshake promise goes on. */
    method AwakenAll(g: Stage)
      modifies `calls
      ensures calls == S.AwakenAll(old(calls), g)
    {
      for i := 0 to |calls|
        invariant |calls| == |old(calls)|
        invariant calls[..i] == S.AwakenAll(old(calls), g)[..i]
        invariant calls[i..] == old(calls)[i..]
      {
        calls := calls[i := S.AwakenCall(calls[i], g)];
      }
    }

    method Negotiate(h: HandshakeState)
      requires Valid()
      modifies this
      ensures Valid() && View() == S.Negotiate(old(View()), h)
    {
      hide QueueView, QueueValid, S.MaybeRecycle, S.AwakenAll;
      link := link.(handshakeState := h);
      handshakePromise := Idle;
      AwakenAll(HandshakeDone);
      MaybeRecycleQuarantined();
    }

    method RejectHello()
      requires Valid()
      modifies this
      ensures Valid() && View() == S.RejectHello(old(View()))
    {
      hide QueueView, QueueValid, S.Terminate;
      Terminate(HelloRejected);
      link := link.(handshakeState := Blocked);
      handshakePromise := Failing(HelloRejected);
    }

    method NextProbe(phase: Phase)
      requires Valid()
      modifies this
      ensures Valid() && View() == S.NextProbe(options, old(View()), phase)
    {
      hide QueueView, QueueValid, S.BeginControl, S.AdmissionFault;
      var f := AdmissionFault(ControlId(handshakeGeneration), true);
      if f.Some? {
        handshakeGeneration, handshakePromise := handshakeGeneration + 1, Failing(f.value);
      } else {
        BeginControl(phase);
      }
    }

    method AdvanceHandshake(reply: Reply)
      requires Valid()
      modifies this
      ensures Valid() && View() == S.AdvanceHandshake(options, old(View()), reply)
    {
      hide QueueView, QueueValid, S.NextProbe, S.RejectHello, S.Negotiate;
      if !handshakePromise.Running? {
        return;
      }
      match handshakePromise.phase
      case Hello =>
        match reply {
          case Failure(code) =>
            if code == "unknown_command" {
              NextProbe(LegacyVersion);
            } else if code == "backend_hello_rejected" {
              RejectHello();
            } else {
              handshakePromise := Failing(BackendReported(code));
            }
          case Success(hello, _, _) =>
            if hello.NotNegotiated? {
              RejectHello();
            } else {
              Negotiate(if hello.Multiplexed? then Ready else SingleFlight);
            }
        }
      case LegacyVersion =>
        if reply.Failure? {
          RejectHello();
        } else {
          NextProbe(LegacyCapabilities(reply.legacyVersion));
        }
      case LegacyCapabilities(versionOk) =>
        if reply.Failure? || !versionOk || !reply.legacyCapabilities {
          RejectHello();
        } else {
          Negotiate(Legacy);
        }
    }

    method SettleHandshake()
      requires Valid()
      modifies this
      ensures Valid() && View() == S.SettleHandshake(old(View()))
    {
      hide QueueView, QueueValid, S.MaybeRecycle, S.AwakenAll;
      if handshakePromise.Failing? {
        var f := handshakePromise.fault;
        handshakePromise := Idle;
        AwakenAll(HandshakeFailed(f));
        MaybeRecycleQuarantined();
      }
    }

    // ---------- callers ----------

    method Request(id: RequestId, size: nat, encodable: bool) returns (c: CallId)
      requires Valid()
      modifies this
      ensures Valid() && c == old(|calls|)
      ensures View() == S.Request(options, old(View()), id, size, encodable)
    {
      hide QueueView, QueueValid, S.AdmissionFault, S.JoinHandshake;
      c := |calls|;
      var f := AdmissionFault(id, false);
      if f.Some? {
        calls := calls + [Call(id, Unary, size, encodable, false, Settled(Failed(f.value)))];
        return;
      }
      calls := calls + [Call(id, Unary, size, encodable, false, Starting)];
      waitingAdmissionIds := waitingAdmissionIds + {id};
      waitingRequests := waitingRequests[id := c];
      JoinHandshake(c);
    }

    method OpenStream(id: RequestId, size: nat, encodable: bool) returns (c: CallId)
      requires Valid()
      modifies this
      ensures Valid() && c == old(|calls|)
      ensures View() == S.OpenStream(options, old(View()), id, size, encodable)
    {
      hide QueueView, QueueValid, S.AdmissionFault;
      c := |calls|;
      var f := AdmissionFault(id, false);
      if f.Some? {
        calls := calls + [Call(id, Stream, size, encodable, false, Settled(Failed(f.value)))];
        return;
      }
      calls := calls + [Call(id, Stream, size, encodable, true, Starting)];
      waitingAdmissionIds := waitingAdmissionIds + {id};
      waitingStreams := waitingStreams[id := c];
    }

    method ScheduleStream(c: CallId)
      requires Valid()
      modifies this
      ensures Valid() && View() == S.ScheduleStream(options, old(View()), c)
    {
      hide QueueView, QueueValid, S.JoinHandshake;
      if c >= |calls| || !calls[c].unscheduled {
        return;
      }
      calls := calls[c := calls[c].(unscheduled := false)];
      JoinHandshake(c);
    }

    method ForgetWaiting(id: RequestId, kind: Kind)
      modifies `waitingRequests, `waitingStreams
      ensures View() == old(View()).(routes := S.ForgetWaiting(old(View()).routes, id, kind))
    {
      match kind
      case Unary => waitingRequests := waitingRequests - {id};
      case Stream => waitingStreams := waitingStreams - {id};
    }

    method RejectWaiting(c: CallId, f: Fault)
      requires Valid()
      requires c < |calls|
      modifies this
      ensures Valid() && View() == S.RejectWaiting(old(View()), c, f)
    {
      hide QueueView, QueueValid, S.SettleCall;
      var id := calls[c].id;
      ForgetWaiting(id, calls[c].kind);
      waitingAdmissionIds := waitingAdmissionIds - {id};
      ReleaseRequestId(id);
      SettleCall(c, Failed(f));
    }

    method IssueCall(c: CallId, slot: bool)
      requires Valid()
      requires c < |calls|
      modifies this
      ensures Valid() && View() == S.IssueCall(options, old(View()), c, slot)
    {
      hide QueueView, QueueValid, S.IssueFault, S.RejectWaiting, S.Issue, S.ForgetWaiting;
      var f := AssertCanIssue();
      if f.Some? {
        RejectWaiting(c, f.value);
        return;
      }
      var call := calls[c];
      ForgetWaiting(call.id, call.kind);
      SetStage(c, Issued);
      Issue(call.id, call.kind, PendingRoute(CallerRoute(c), slot), call.size, call.encodable);
    }

    /** Rejecting after a failed promotion clears the same ids whether or not the promotion
        already did. */
    method PromoteAndIssue(c: CallId, slot: bool)
      requires Valid()
      requires c < |calls|
      modifies this
      ensures Valid() && View() == S.PromoteAndIssue(options, old(View()), c, slot)
    {
      hide QueueView, QueueValid, S.PromoteFault, S.IssueCall;
      var id := calls[c].id;
      var f := PromoteWaitingAdmission(id);
      if f.None? {
        IssueCall(c, slot);
      } else {
        assert activeRequestIds - {id} == old(activeRequestIds) - {id};
        assert activeControlRequestIds - {id} == old(activeControlRequestIds) - {id};
        assert waitingAdmissionIds - {id} == old(waitingAdmissionIds) - {id};
        RejectWaiting(c, f.value);
      }
    }

    method AcquireLegacySlot(c: CallId)
      requires Valid()
      modifies this
      ensures Valid() && View() == S.AcquireSlot(old(View()), c)
    {
      hide QueueView, QueueValid;
      legacyTail := legacyTail.(queue := legacyTail.queue + [c]);
      SetStage(c, AwaitingSlot);
    }

    method Continue(c: CallId)
      requires Valid()
      modifies this
      ensures Valid() && View() == S.Continue(options, old(View()), c)
    {
      hide QueueView, QueueValid, S.RejectWaiting, S.PromoteFault, S.AcquireSlot, S.PromoteAndIssue, S.SetStage;
      if c >= |calls| {
        return;
      }
      match calls[c].stage
      case HandshakeFailed(f) => RejectWaiting(c, f);
      case HandshakeDone =>
        if calls[c].kind.Stream? {
          if IsSingleFlight(link.handshakeState) {
            AcquireLegacySlot(c);
          } else {
            SetStage(c, ReadyToIssue);
          }
        } else if IsSingleFlight(link.handshakeState) {
          PromoteAndAcquire(c);
        } else {
          PromoteAndIssue(c, false);
        }
      case ReadyToIssue => PromoteAndIssue(c, false);
      case _ =>
    }

    method PromoteAndAcquire(c: CallId)
      requires Valid()
      requires c < |calls|
      modifies this
      ensures Valid()
      ensures var s := old(View()); var id := s.calls[c].id;
        View() == match S.PromoteFault(options, s, id)
                  case Some(f) => S.RejectWaiting(s, c, f)
                  case None => S.AcquireSlot(s.(routes := S.Promoted(s.routes, id)), c)
    {
      hide QueueView, QueueValid, S.PromoteFault, S.AcquireSlot;
      var id := calls[c].id;
      var f := PromoteWaitingAdmission(id);
      if f.None? {
        AcquireLegacySlot(c);
      } else {
        assert activeRequestIds - {id} == old(activeRequestIds) - {id};
        assert activeControlRequestIds - {id} == old(activeControlRequestIds) - {id};
        assert waitingAdmissionIds - {id} == old(waitingAdmissionIds) - {id};
        RejectWaiting(c, f.value);
      }
    }

    method GrantSlot()
      requires Valid()
      modifies this
      ensures Valid() && View() == S.GrantSlot(options, old(View()))
    {
      hide QueueView, QueueValid, S.IssueCall, S.PromoteAndIssue;
      if legacyTail.granted || legacyTail.queue == [] {
        return;
      }
      var c := legacyTail.queue[0];
      if c >= |calls| || !calls[c].stage.AwaitingSlot? {
        legacyTail := Slots(legacyTail.queue[1..], false);
        return;
      }
      legacyTail := legacyTail.(granted := true);
      if calls[c].kind.Unary? {
        IssueCall(c, true);
      } else {
        PromoteAndIssue(c, true);
      }
    }

    method AbortPending(id: RequestId, kind: Kind, f: Fault, fatal: bool)
      requires Valid()
      modifies this
      ensures Valid() && View() == S.AbortPending(options, old(View()), id, kind, f, fatal)
    {
      hide QueueView, QueueValid, S.AbortRoute, S.Terminate, S.HasStartedWrite;
      var writeStarted := HasStartedWrite(id);
      AbortRoute(id, kind, true, f);
      if fatal || writeStarted {
        Terminate(f);
      }
    }

    method Cancel(id: RequestId)
      requires Valid()
      modifies this
      ensures Valid() && View() == S.Cancel(options, old(View()), id)
    {
      hide QueueView, QueueValid, S.RejectWaiting, S.AbortPending;
      if id in waitingRequests {
        if waitingRequests[id] < |calls| {
          RejectWaiting(waitingRequests[id], RequestCancelled);
        }
      } else if id in waitingStreams {
        if waitingStreams[id] < |calls| {
          RejectWaiting(waitingStreams[id], RequestCancelled);
        }
      } else if id in pendingResponses {
        AbortPending(id, Unary, RequestCancelled, false);
      } else if id in pendingStreams {
        AbortPending(id, Stream, RequestCancelled, false);
      }
    }

    /** The timer of `createDeadline`. */
    method Timeout(id: RequestId)
      requires Valid()
      modifies this
      ensures Valid() && View() == S.Timeout(options, old(View()), id)
    {
      hide QueueView, QueueValid, S.AbortPending;
      if id in pendingResponses {
        AbortPending(id, Unary, BackendTimeout, pendingResponses[id].fatalOnTimeout);
      } else if id in pendingStreams {
        AbortPending(id, Stream, BackendTimeout, pendingStreams[id].fatalOnTimeout);
      }
    }

    method Close()
      requires Valid()
      modifies this
      ensures Valid() && View() == S.Close(old(View()))
    {
      hide QueueView, QueueValid, S.Terminate;
      closed := true;
      Terminate(BackendClosed);
    }

    // ---------- stdout ----------

    method DiscardLateOrQuarantine(id: RequestId)
      requires Valid()
      modifies this
      ensures Valid() && View() == S.DiscardOrQuarantine(options, old(View()), id)
    {
      hide QueueView, QueueValid, S.Terminate, S.MaybeRecycle;
      if id in link.tombstones || id in link.quarantinedIds {
        return;
      }
      if |link.quarantinedIds| >= options.quarantineLimit {
        Terminate(QuarantineLimit);
        return;
      }
      link := link.(quarantinedIds := link.quarantinedIds + {id}, quarantined := true, quarantineTimer := true);
      MaybeRecycleQuarantined();
    }

    method DropTombstone(id: RequestId)
      requires Valid()
      modifies this
      ensures Valid() && View() == S.DropTombstone(old(View()), id)
    {
      hide QueueView, QueueValid;
      link := link.(tombstones := link.tombstones - {id});
      link := link.(tombstoneTimer := link.tombstones != map[]);
    }

    ghost method Record(owner: Owner, cause: Option<Line>)
      modifies `wire
      ensures View() == S.Record(old(View()), owner, cause)
    {
      if owner.CallerRoute? {
        wire := wire.(delivered := wire.delivered + [Delivery(owner.call, cause)]);
      }
    }

    method HandleResponse(id: RequestId, reply: Reply, ghost cause: Option<Line>)
      requires Valid()
      modifies this
      ensures Valid() && View() == S.HandleResponse(options, old(View()), id, reply, cause)
    {
      hide QueueView, QueueValid, S.ClearRoute, S.SettleCall, S.AdvanceHandshake, S.Terminate, S.DropTombstone, S.DiscardOrQuarantine;
      if id in pendingResponses {
        var owner := pendingResponses[id].owner;
        Record(owner, cause);
        ClearRoute(id, Unary, false);
        match owner
        case CallerRoute(c) => SettleCall(c, Answered(reply));
        case ControlRoute => AdvanceHandshake(reply);
      } else if id in pendingStreams {
        Terminate(UnexpectedResponse);
      } else if id in link.tombstones {
        if link.tombstones[id].Unary? {
          DropTombstone(id);
        } else {
          Terminate(UnexpectedResponse);
        }
      } else {
        DiscardLateOrQuarantine(id);
      }
    }

    method HandleEvent(id: RequestId, t: EventType, queued: bool, ghost cause: Option<Line>)
      requires Valid()
      modifies this
      ensures Valid() && View() == S.HandleEvent(options, old(View()), id, t, queued, cause)
    {
      hide QueueView, QueueValid, S.ClearRoute, S.SettleCall, S.AbortRoute, S.Terminate, S.DropTombstone, S.DiscardOrQuarantine;
      if id in pendingStreams {
        var owner := pendingStreams[id].owner;
        if !queued {
          AbortRoute(id, Stream, true, StreamOverflow);
          return;
        }
        Record(owner, cause);
        match t
        case Completed =>
          ClearRoute(id, Stream, false);
          if owner.CallerRoute? {
            SettleCall(owner.call, Finished);
          }
        case ErrorEvent(code) => AbortRoute(id, Stream, false, BackendReported(code));
        case _ =>
      } else if id in pendingResponses {
        Terminate(UnexpectedEvent);
      } else if id in link.tombstones {
        if link.tombstones[id].Unary? {
          Terminate(UnexpectedEvent);
        } else if t.Completed? || t.ErrorEvent? {
          DropTombstone(id);
        }
      } else {
        DiscardLateOrQuarantine(id);
      }
    }

    /** `readStdout` and `handleLine`: one line from the child of generation `g`. */
    method HandleLine(g: Generation, m: Message, queued: bool, ghost cause: Option<Line>)
      requires Valid()
      modifies this
      ensures Valid() && View() == S.Deliver(options, old(View()), g, m, queued, cause)
    {
      hide QueueView, QueueValid, S.Terminate, S.HandleResponse, S.HandleEvent;
      if link.child != Some(g) {
        return;
      }
      wire := S.EndLine(wire, m, cause);
      match m
      case Malformed => Terminate(InvalidMessage);
      case Response(id, reply) => HandleResponse(id, reply, cause);
      case Event(id, t) => HandleEvent(id, t, queued, cause);
    }

    /** `handleProcessFailure`, and the `catch` of `readStdout`. */
    method HandleProcessFailure(g: Generation, f: Fault)
      requires Valid()
      modifies this
      ensures Valid() && View() == S.ChildFailed(old(View()), g, f)
    {
      hide QueueView, QueueValid, S.Terminate;
      if link.child == Some(g) {
        Terminate(f);
      }
    }

    // ---------- timers ----------

    method TombstoneTimer()
      requires Valid()
      modifies this
      ensures Valid() && View() == S.TombstoneTimer(old(View()))
    {
      hide QueueView, QueueValid, S.Terminate;
      if link.tombstoneTimer && link.tombstones != map[] {
        link := link.(tombstoneTimer := false);
        Terminate(LateOutputTimeout);
      }
    }

    method QuarantineTimer()
      requires Valid()
      modifies this
      ensures Valid() && View() == S.QuarantineTimer(old(View()))
    {
      hide QueueView, QueueValid, S.Recycle;
      if link.quarantineTimer {
        link := link.(quarantineTimer := false);
        RecycleQuarantinedTransport();
      }
    }

    // ---------- any step ----------

    /** Whatever happens next to the object is a step of the model, so every state the object
        goes through is reachable there. */
    method Advance(t: S.Step)
      requires Valid()
      requires Reachable(options, View())
      modifies this
      ensures Valid() && View() == S.Apply(options, old(View()), t)
      ensures Reachable(options, View())
    {
      hide QueueView, QueueValid;
      ghost var before := View();
      Dispatch(t);
      OneMoreStep(options, before, t);
    }

    method Dispatch(t: S.Step)
      requires Valid()
      modifies this
      ensures Valid() && View() == S.Apply(options, old(View()), t)
    {
      hide QueueView, QueueValid, S.Request, S.OpenStream, S.ScheduleStream, S.Continue, S.SettleHandshake, S.GrantSlot, S.TurnWrite, S.FinishWrite,
        S.DropRetired, S.Timeout, S.Cancel, S.Deliver, S.ChildFailed, S.TombstoneTimer, S.QuarantineTimer, S.Close;
      match t
      case RequestStep(id, size, encodable) => var _ := Request(id, size, encodable);
      case StreamStep(id, size, encodable) => var _ := OpenStream(id, size, encodable);
      case ScheduleStep(c) => ScheduleStream(c);
      case ContinueStep(c) => Continue(c);
      case SettleHandshakeStep => SettleHandshake();
      case GrantSlotStep => GrantSlot();
      case TurnStep(retired) => TurnWrite(retired);
      case FinishStep(retired, failed) => FinishWrite(retired, failed);
      case RetiredDrainedStep => FinishRetiredWriteTail();
      case TimeoutStep(id) => Timeout(id);
      case CancelStep(id) => Cancel(id);
      case DeliverStep(g, m, queued, cause) => HandleLine(g, m, queued, cause);
      case ChildFailedStep(g, f) => HandleProcessFailure(g, f);
      case TombstoneTimerStep => TombstoneTimer();
      case QuarantineTimerStep => QuarantineTimer();
      case CloseStep => Close();
    }
  }

  lemma OneMoreStep(o: Options, s: State, t: S.Step)
    requires Reachable(o, s)
    ensures Reachable(o, S.Apply(o, s, t))
  {
    hide S.Apply, S.Run;
    LeadsIffRun(o, INITIAL, s);
    var steps :| s == S.Run(o, INITIAL, steps);
    RunAppend(o, INITIAL, steps, [t]);
    RunOne(o, s, t);
    LeadsIffRun(o, INITIAL, S.Apply(o, s, t));
  }

  lemma RunOne(o: Options, s: State, t: S.Step)
    ensures S.Run(o, s, [t]) == S.Apply(o, s, t)
  {
    hide S.Apply;
  }
}
