/** `ResponseWatcherRegistry`: serialized actions over a store of records, interleaved with
    waiters, and what that serialization buys. */
module WatcherRegistry {
  import opened Common
  import opened WatcherRecords

  type WaiterId = nat

  datatype Action = RegisterAction(input: Registration) | CompleteAction(watcherId: string, evidence: Completion) | CancelAction(watcherId: string)

  datatype Fault = InvalidInput | IdentityMismatch | NotFound | AlreadyTerminal | StoreFailure

  datatype Outcome = Ok(record: Record) | Err(fault: Fault)

  /** What an action decides after its reads: an answer, or a record to put. */
  datatype Decision = Answer(outcome: Outcome) | Put(record: Record)

  // ---------- the store ----------

  /** The first record under an operation id, or under a watcher id. */
  function FindOperation(store: seq<Record>, id: string): Option<Record> {
    if store == [] then None
    else if store[0].registration.operationId == id then Some(store[0])
    else FindOperation(store[1..], id)
  }

  function FindWatcher(store: seq<Record>, id: string): Option<Record> {
    if store == [] then None
    else if store[0].registration.watcherId == id then Some(store[0])
    else FindWatcher(store[1..], id)
  }

  /** `put` replaces the record of the watcher, or adds one. */
  function Stored(store: seq<Record>, r: Record): seq<Record> {
    if store == [] then [r]
    else if store[0].registration.watcherId == r.registration.watcherId then [r] + store[1..]
    else [store[0]] + Stored(store[1..], r)
  }

  // ---------- decisions ----------

  function DecideRegister(store: seq<Record>, input: Registration, now: string): Decision {
    if !ValidRegistration(input) then Answer(Err(InvalidInput))
    else
      match FindOperation(store, input.operationId)
      case Some(r) => Answer(if r.registration == input then Ok(r) else Err(IdentityMismatch))
      case None =>
        match FindWatcher(store, input.watcherId)
        case Some(r) => Answer(if r.registration == input then Ok(r) else Err(IdentityMismatch))
        case None => Put(Record(input, Pending, now, now, None))
  }

  function DecideTerminal(store: seq<Record>, watcherId: string, state: WatchState, evidence: Option<Completion>, now: string): Decision {
    match FindWatcher(store, watcherId)
    case None => Answer(Err(NotFound))
    case Some(r) =>
      if !r.state.Pending? then
        Answer(if r.state == state && (evidence.None? || r.completion == evidence) then Ok(r) else Err(AlreadyTerminal))
      else Put(r.(state := state, updatedAt := now, completion := if evidence.Some? then evidence else r.completion))
  }

  function Decide(store: seq<Record>, a: Action, now: string): Decision {
    match a
    case RegisterAction(input) => DecideRegister(store, input, now)
    case CompleteAction(w, c) => DecideTerminal(store, w, Completed, Some(c), now)
    case CancelAction(w) => DecideTerminal(store, w, Cancelled, None, now)
  }

  // ---------- the registry ----------

  /** An action that has read the store and not yet written; `now` is its timestamp. */
  datatype Running = Running(now: string, decision: Decision)

  /** An action that has ended: its timestamp, whether its put failed, and its result. */
  datatype Ended = Ended(action: Action, now: string, failed: bool, outcome: Outcome)

  /** A call of `await`: it has read the store, it waits for the record to close, or it is over. */
  datatype AwaitPhase = HasRead(found: Option<Record>) | Waiting | Returned(record: Record) | Unknown

  datatype Await = Await(watcherId: string, phase: AwaitPhase)

  /** `queue` is the promise chain of `serial`, with the action that holds it at the head; `called`
      is the history of the actions that joined it. */
  datatype Registry = Registry(
    store: seq<Record>, waiters: map<string, seq<WaiterId>>, awaits: seq<Await>, queue: seq<Action>, running: Option<Running>,
    called: seq<Action>, log: seq<Ended>)

  function Opened(store: seq<Record>): Registry {
    Registry(store, map[], [], [], None, [], [])
  }

  /** `complete` refuses invalid evidence at once; every other action joins the chain. */
  predicate Accepted(a: Action) {
    a.CompleteAction? ==> ValidCompletion(a.evidence)
  }

  function Called(s: Registry, a: Action): Registry {
    if Accepted(a) then s.(queue := s.queue + [a], called := s.called + [a]) else s
  }

  /** The head of the chain reads the store. */
  function Begun(s: Registry, now: string): Registry {
    if s.queue == [] || s.running.Some? then s else s.(running := Some(Running(now, Decide(s.store, s.queue[0], now))))
  }

  /** The promises of the waiters resolve; one that is settled already does not change. */
  function Resolved(awaits: seq<Await>, waiting: seq<WaiterId>, r: Record): seq<Await> {
    seq(|awaits|, k requires 0 <= k < |awaits| =>
      if k in waiting && awaits[k].phase.Waiting? then awaits[k].(phase := Returned(r)) else awaits[k])
  }

  /** `resolveWaiters`, for a terminal record. */
  function Woken(s: Registry, r: Record): Registry {
    var id := r.registration.watcherId;
    if r.state.Pending? || id !in s.waiters then s
    else s.(waiters := s.waiters - {id}, awaits := Resolved(s.awaits, s.waiters[id], r))
  }

  /** The head of the chain answers, or puts its record and wakes the waiters of a terminal one. */
  function Committed(s: Registry, failed: bool): Registry {
    if s.queue == [] || s.running.None? then s
    else
      var head, now := s.queue[0], s.running.value.now;
      var t := s.(queue := s.queue[1..], running := None);
      match s.running.value.decision
      case Answer(outcome) => t.(log := s.log + [Ended(head, now, false, outcome)])
      case Put(r) =>
        if failed then t.(log := s.log + [Ended(head, now, true, Err(StoreFailure))])
        else Woken(t.(store := Stored(s.store, r), log := s.log + [Ended(head, now, false, Ok(r))]), r)
  }

  /** `await` reads the store, outside the chain. */
  function Read(s: Registry, watcherId: string): Registry {
    s.(awaits := s.awaits + [Await(watcherId, HasRead(FindWatcher(s.store, watcherId)))])
  }

  function WaitersOf(s: Registry, watcherId: string): seq<WaiterId> {
    if watcherId in s.waiters then s.waiters[watcherId] else []
  }

  /** `await` goes on with what it has read: it ends, or registers its waiter. */
  function Resumed(s: Registry, k: WaiterId): Registry {
    if k >= |s.awaits| || !s.awaits[k].phase.HasRead? then s
    else
      var id := s.awaits[k].watcherId;
      match s.awaits[k].phase.found
      case None => s.(awaits := s.awaits[k := Await(id, Unknown)])
      case Some(r) =>
        if !r.state.Pending? then s.(awaits := s.awaits[k := Await(id, Returned(r))])
        else s.(awaits := s.awaits[k := Await(id, Waiting)], waiters := s.waiters[id := WaitersOf(s, id) + [k]])
  }

  datatype Step =
    | CallStep(action: Action) | BeginStep(now: string) | CommitStep(failed: bool)
    | ReadStep(watcherId: string) | ResumeStep(waiter: WaiterId)

  function Apply(s: Registry, t: Step): Registry {
    match t
    case CallStep(a) => Called(s, a)
    case BeginStep(now) => Begun(s, now)
    case CommitStep(failed) => Committed(s, failed)
    case ReadStep(w) => Read(s, w)
    case ResumeStep(k) => Resumed(s, k)
  }

  function Run(s: Registry, steps: seq<Step>): Registry
    decreases |steps|
  {
    if steps == [] then s else Run(Apply(s, steps[0]), steps[1..])
  }

  // ---------- finding and storing ----------

  /** Well-formed records, no two of them under one operation id or one watcher id. */
  ghost predicate StoreOk(store: seq<Record>) {
    && (forall i | 0 <= i < |store| :: ValidRecord(store[i]))
    && (forall i, j | 0 <= i < j < |store| ::
          store[i].registration.operationId != store[j].registration.operationId
          && store[i].registration.watcherId != store[j].registration.watcherId)
  }

  lemma {:induction false} FoundOperation(store: seq<Record>, id: string)
    ensures var r := FindOperation(store, id);
      if r.None? then forall i | 0 <= i < |store| :: store[i].registration.operationId != id
      else r.value in store && r.value.registration.operationId == id
  {
    if store != [] && store[0].registration.operationId != id {
      FoundOperation(store[1..], id);
    }
  }

  lemma {:induction false} FoundWatcher(store: seq<Record>, id: string)
    ensures var r := FindWatcher(store, id);
      if r.None? then forall i | 0 <= i < |store| :: store[i].registration.watcherId != id
      else exists i :: 0 <= i < |store| && store[i] == r.value && store[i].registration.watcherId == id
  {
    if store != [] && store[0].registration.watcherId != id {
      FoundWatcher(store[1..], id);
      if FindWatcher(store, id).Some? {
        var i :| 0 <= i < |store[1..]| && store[1..][i] == FindWatcher(store[1..], id).value;
        assert store[i + 1] == FindWatcher(store, id).value;
      }
    } else if store != [] {
      assert store[0] == FindWatcher(store, id).value;
    }
  }

  lemma {:induction false} StoredIs(store: seq<Record>, r: Record, i: nat)
    requires i <= |store| && forall j | 0 <= j < i :: store[j].registration.watcherId != r.registration.watcherId
    requires i < |store| ==> store[i].registration.watcherId == r.registration.watcherId
    ensures Stored(store, r) == if i < |store| then store[i := r] else store + [r]
  {
    if store != [] && i > 0 {
      StoredIs(store[1..], r, i - 1);
      assert store == [store[0]] + store[1..];
    }
  }

  /** `b` continues `a`: every record keeps its place, its registration and its registration time,
      and a terminal record does not change at all. */
  ghost predicate Continues(a: seq<Record>, b: seq<Record>) {
    && |a| <= |b|
    && forall i | 0 <= i < |a| ::
         b[i].registration == a[i].registration && b[i].registeredAt == a[i].registeredAt && (!a[i].state.Pending? ==> b[i] == a[i])
  }

  /** Where the record goes: over the pending record of its watcher, or behind a store that knows
      neither of its ids. */
  lemma PutPlace(store: seq<Record>, a: Action, now: string) returns (i: nat)
    requires StoreOk(store) && Decide(store, a, now).Put?
    ensures var r := Decide(store, a, now).record;
      && i <= |store|
      && Stored(store, r) == (if i < |store| then store[i := r] else store + [r])
      && (i < |store| ==> store[i].registration == r.registration && store[i].registeredAt == r.registeredAt && store[i].state.Pending?)
      && (i == |store| ==> forall j | 0 <= j < i ::
            store[j].registration.watcherId != r.registration.watcherId && store[j].registration.operationId != r.registration.operationId)
  {
    hide ValidRecord, ValidRegistration;
    var r := Decide(store, a, now).record;
    match a
    case RegisterAction(input) =>
      FoundOperation(store, input.operationId);
      FoundWatcher(store, input.watcherId);
      i := |store|;
      StoredIs(store, r, i);
    case _ =>
      FoundWatcher(store, a.watcherId);
      var k :| 0 <= k < |store| && store[k] == FindWatcher(store, a.watcherId).value && store[k].registration.watcherId == a.watcherId;
      assert forall j | 0 <= j < k :: store[j].registration.watcherId != store[k].registration.watcherId;
      i := k;
      StoredIs(store, r, i);
  }

  lemma PutIsValid(store: seq<Record>, a: Action, now: string)
    requires StoreOk(store) && Accepted(a) && Decide(store, a, now).Put?
    ensures ValidRecord(Decide(store, a, now).record)
  {
    hide ValidRegistration, ValidCompletion;
    if !a.RegisterAction? {
      FoundWatcher(store, a.watcherId);
    }
  }

  /** Whatever an action decides to put keeps the store well formed and continues it. */
  lemma PutKeeps(store: seq<Record>, a: Action, now: string)
    requires StoreOk(store) && Accepted(a) && Decide(store, a, now).Put?
    ensures var r := Decide(store, a, now).record; StoreOk(Stored(store, r)) && Continues(store, Stored(store, r))
  {
    hide ValidRecord, Decide, Stored;
    PutIsValid(store, a, now);
    var i := PutPlace(store, a, now);
  }

  lemma ContinuesOn(a: seq<Record>, b: seq<Record>, c: seq<Record>)
    requires Continues(a, b) && Continues(b, c)
    ensures Continues(a, c)
  {
  }

  // ---------- what an action may answer ----------

  lemma FindOnly(store: seq<Record>, i: nat)
    requires StoreOk(store) && i < |store|
    ensures FindOperation(store, store[i].registration.operationId) == Some(store[i])
    ensures FindWatcher(store, store[i].registration.watcherId) == Some(store[i])
  {
    FoundOperation(store, store[i].registration.operationId);
    FoundWatcher(store, store[i].registration.watcherId);
  }

  predicate Known(store: seq<Record>, input: Registration) {
    exists i :: 0 <= i < |store| && store[i].registration == input
  }

  predicate Clashes(store: seq<Record>, input: Registration) {
    exists i :: 0 <= i < |store| && (store[i].registration.operationId == input.operationId || store[i].registration.watcherId == input.watcherId)
  }

  /** Registering is idempotent: a known registration is answered with its record; one that shares
      an id with a record but differs from it is refused; anything else is put, as a pending record. */
  lemma RegisterDecides(store: seq<Record>, input: Registration, now: string)
    requires StoreOk(store) && ValidRegistration(input)
    ensures var d := DecideRegister(store, input, now);
      && (Known(store, input) <==> d.Answer? && d.outcome.Ok? && d.outcome.record.registration == input && d.outcome.record in store)
      && (d == Answer(Err(IdentityMismatch)) <==> Clashes(store, input) && !Known(store, input))
      && (d.Put? <==> !Clashes(store, input))
      && (d.Put? ==> d.record.registration == input && d.record.state.Pending? && d.record.completion.None?
                     && d.record.registeredAt == d.record.updatedAt == now)
  {
    FoundOperation(store, input.operationId);
    FoundWatcher(store, input.watcherId);
    if i :| 0 <= i < |store| && store[i].registration == input {
      FindOnly(store, i);
    }
    if i :| 0 <= i < |store| && store[i].registration.operationId == input.operationId {
      FindOnly(store, i);
    } else if i :| 0 <= i < |store| && store[i].registration.watcherId == input.watcherId {
      FindOnly(store, i);
    }
  }

  /** The record is closed the way the action asks for. */
  predicate ClosedAs(a: Action, r: Record) {
    match a
    case RegisterAction(_) => false
    case CompleteAction(_, evidence) => r.state.Completed? && r.completion == Some(evidence)
    case CancelAction(_) => r.state.Cancelled? && r.completion.None?
  }

  /** A terminal action closes a pending record as it was asked to, completed with the evidence given
      or cancelled without any; on a terminal one it is answered with that record if it repeats it, and
      refused otherwise. */
  lemma TerminalDecides(store: seq<Record>, i: nat, a: Action, now: string)
    requires StoreOk(store) && Accepted(a) && !a.RegisterAction? && i < |store| && store[i].registration.watcherId == a.watcherId
    ensures var d := Decide(store, a, now); var r := store[i];
      && (d.Put? <==> r.state.Pending?)
      && (d.Put? ==> d.record.registration == r.registration && d.record.registeredAt == r.registeredAt && ValidRecord(d.record))
      && (d.Put? ==> d.record.updatedAt == now && ClosedAs(a, d.record))
      && (d == Answer(Ok(r)) <==> (a.CancelAction? && r.state.Cancelled?) || (a.CompleteAction? && r.state.Completed? && r.completion == Some(a.evidence)))
      && (d.Answer? ==> d.outcome in {Ok(r), Err(AlreadyTerminal)})
  {
    FindOnly(store, i);
  }

  // ---------- every run is a sequence of atomic actions ----------

  function EffectOn(store: seq<Record>, e: Ended): seq<Record> {
    match Decide(store, e.action, e.now)
    case Answer(_) => store
    case Put(r) => if e.failed then store else Stored(store, r)
  }

  function OutcomeOn(store: seq<Record>, e: Ended): Outcome {
    match Decide(store, e.action, e.now)
    case Answer(outcome) => outcome
    case Put(r) => if e.failed then Err(StoreFailure) else Ok(r)
  }

  /** The store after the logged actions have run one at a time. */
  function Replay(store: seq<Record>, log: seq<Ended>): seq<Record> {
    if log == [] then store else EffectOn(Replay(store, log[..|log| - 1]), log[|log| - 1])
  }

  /** The log explains the store: the actions in the order of their calls, each result that of the
      action on the store left by those before it. */
  ghost predicate LogOk(first: seq<Record>, s: Registry) {
    && s.store == Replay(first, s.log)
    && |s.log| <= |s.called|
    && (forall i | 0 <= i < |s.log| :: s.log[i].action == s.called[i] && s.log[i].outcome == OutcomeOn(Replay(first, s.log[..i]), s.log[i]))
    && s.queue == s.called[|s.log|..]
    && (forall i | 0 <= i < |s.queue| :: Accepted(s.queue[i]))
  }

  // ---------- where every `await` stands ----------

  predicate NoDuplicates(list: seq<WaiterId>) {
    forall i, j | 0 <= i < j < |list| :: list[i] != list[j]
  }

  predicate IsTerminal(store: seq<Record>, watcherId: string) {
    FindWatcher(store, watcherId).Some? && !FindWatcher(store, watcherId).value.state.Pending?
  }

  /** A waiter is held by the list of its watcher; whoever has returned holds the stored record. */
  predicate AwaitOk(store: seq<Record>, waiters: map<string, seq<WaiterId>>, k: WaiterId, a: Await) {
    match a.phase
    case HasRead(None) => true
    case HasRead(Some(r)) => FindWatcher(store, a.watcherId).Some? && (!r.state.Pending? ==> FindWatcher(store, a.watcherId) == Some(r))
    case Waiting => a.watcherId in waiters && k in waiters[a.watcherId] && FindWatcher(store, a.watcherId).Some?
    case Returned(r) => FindWatcher(store, a.watcherId) == Some(r) && !r.state.Pending?
    case Unknown => true
  }

  /** The lists hold each waiter once, and nobody else. */
  ghost predicate ListsOk(waiters: map<string, seq<WaiterId>>, awaits: seq<Await>) {
    forall id | id in waiters ::
      NoDuplicates(waiters[id]) && forall k | k in waiters[id] :: k < |awaits| && awaits[k] == Await(id, Waiting)
  }

  ghost predicate AwaitsOk(s: Registry) {
    && ListsOk(s.waiters, s.awaits)
    && forall k | 0 <= k < |s.awaits| :: AwaitOk(s.store, s.waiters, k, s.awaits[k])
  }

  /** An action that was answered with a record got what it asked for: a registration its own record,
      a terminal action a record of its watcher closed that way, which is still the stored one. */
  predicate Fulfilled(store: seq<Record>, e: Ended) {
    e.outcome.Ok? ==>
      && var r := e.outcome.record;
      && match e.action
         case RegisterAction(input) => r.registration == input && FindWatcher(store, input.watcherId).Some?
         case _ =>
           r.registration.watcherId == e.action.watcherId && ClosedAs(e.action, r) && FindWatcher(store, e.action.watcherId) == Some(r)
  }

  ghost predicate AnswersOk(store: seq<Record>, log: seq<Ended>) {
    forall i | 0 <= i < |log| :: Fulfilled(store, log[i])
  }

  ghost predicate RegistryInv(first: seq<Record>, s: Registry) {
    && StoreOk(s.store)
    && LogOk(first, s)
    && AnswersOk(s.store, s.log)
    && AwaitsOk(s)
    && (s.running.Some? ==> s.queue != [] && s.running.value.decision == Decide(s.store, s.queue[0], s.running.value.now))
  }

  // ---------- every step keeps it ----------

  lemma LogGrows(first: seq<Record>, s: Registry, e: Ended, store: seq<Record>)
    requires LogOk(first, s) && s.queue != [] && e.action == s.queue[0]
    requires e.outcome == OutcomeOn(s.store, e) && store == EffectOn(s.store, e)
    ensures LogOk(first, s.(store := store, log := s.log + [e], queue := s.queue[1..], running := None))
  {
    var log := s.log + [e];
    assert log[..|s.log|] == s.log;
    forall i | 0 <= i < |log|
      ensures log[i].action == s.called[i] && log[i].outcome == OutcomeOn(Replay(first, log[..i]), log[i])
    {
      if i < |s.log| {
        assert log[..i] == s.log[..i];
      }
    }
  }

  lemma {:induction false} FindStored(store: seq<Record>, r: Record, id: string)
    ensures FindWatcher(Stored(store, r), id) == if id == r.registration.watcherId then Some(r) else FindWatcher(store, id)
  {
    if store != [] && store[0].registration.watcherId != r.registration.watcherId {
      FindStored(store[1..], r, id);
    }
  }

  /** A terminal record is put over a pending one, and a pending record where there was none. */
  lemma PutReplaces(store: seq<Record>, a: Action, now: string)
    requires StoreOk(store) && Decide(store, a, now).Put?
    ensures var r := Decide(store, a, now).record; var known := FindWatcher(store, r.registration.watcherId);
      if r.state.Pending? then known.None? else known.Some? && known.value.state.Pending?
  {
    hide ValidRecord, ValidRegistration;
    match a
    case RegisterAction(_) =>
    case _ => FoundWatcher(store, a.watcherId);
  }

  lemma PutKeepsAnswers(s: Registry, r: Record)
    requires AnswersOk(s.store, s.log) && !IsTerminal(s.store, r.registration.watcherId)
    ensures AnswersOk(Stored(s.store, r), s.log)
  {
    hide Stored, FindWatcher;
    forall i | 0 <= i < |s.log| ensures Fulfilled(Stored(s.store, r), s.log[i]) {
      assert Fulfilled(s.store, s.log[i]);
      match s.log[i].action
      case RegisterAction(input) => FindStored(s.store, r, input.watcherId);
      case _ => FindStored(s.store, r, s.log[i].action.watcherId);
    }
  }

  /** What the head of the chain answers, or puts, fulfils it. */
  lemma DecisionFulfils(store: seq<Record>, a: Action, now: string)
    requires StoreOk(store) && Accepted(a)
    ensures var d := Decide(store, a, now);
      && (d.Answer? ==> Fulfilled(store, Ended(a, now, false, d.outcome)))
      && (d.Put? ==> Fulfilled(Stored(store, d.record), Ended(a, now, false, Ok(d.record))))
  {
    hide ValidRegistration, ValidCompletion, Stored, FindOperation, FindWatcher;
    match a
    case RegisterAction(input) =>
      FoundOperation(store, input.operationId);
      FoundWatcher(store, input.watcherId);
      RegisteredIsFound(store, input, now);
      if Decide(store, a, now).Put? { FindStored(store, Decide(store, a, now).record, input.watcherId); }
    case _ =>
      FoundWatcher(store, a.watcherId);
      if Decide(store, a, now).Put? { FindStored(store, Decide(store, a, now).record, a.watcherId); }
  }

  lemma RegisteredIsFound(store: seq<Record>, input: Registration, now: string)
    requires StoreOk(store)
    ensures var d := DecideRegister(store, input, now); d.Answer? && d.outcome.Ok? ==> FindWatcher(store, input.watcherId).Some?
  {
    hide ValidRegistration, ValidRecord;
    var d := DecideRegister(store, input, now);
    if d.Answer? && d.outcome.Ok? {
      FoundOperation(store, input.operationId);
      FoundWatcher(store, input.watcherId);
    }
  }

  lemma WokenKeeps(s: Registry, r: Record)
    requires AwaitsOk(s) && !IsTerminal(s.store, r.registration.watcherId)
    ensures AwaitsOk(Woken(s.(store := Stored(s.store, r)), r))
  {
    hide Stored, FindWatcher;
    var t := Woken(s.(store := Stored(s.store, r)), r);
    forall k | 0 <= k < |t.awaits| ensures AwaitOk(t.store, t.waiters, k, t.awaits[k]) {
      assert AwaitOk(s.store, s.waiters, k, s.awaits[k]);
      FindStored(s.store, r, s.awaits[k].watcherId);
    }
  }

  lemma CommittedKeeps(first: seq<Record>, s: Registry, failed: bool)
    requires RegistryInv(first, s)
    ensures RegistryInv(first, Committed(s, failed)) && Continues(s.store, Committed(s, failed).store)
  {
    hide Replay, ValidRecord, FindWatcher, FindOperation, Woken, Stored;
    if s.queue != [] && s.running.Some? {
      DecisionFulfils(s.store, s.queue[0], s.running.value.now);
      var head, now := s.queue[0], s.running.value.now;
      match s.running.value.decision
      case Answer(outcome) => LogGrows(first, s, Ended(head, now, false, outcome), s.store);
      case Put(r) =>
        if failed {
          LogGrows(first, s, Ended(head, now, true, Err(StoreFailure)), s.store);
        } else {
          PutCommits(first, s);
        }
    }
  }

  lemma PutCommits(first: seq<Record>, s: Registry)
    requires RegistryInv(first, s) && s.running.Some? && s.running.value.decision.Put?
    ensures RegistryInv(first, Committed(s, false)) && Continues(s.store, Committed(s, false).store)
  {
    hide Replay, ValidRecord, FindWatcher, FindOperation, AwaitOk;
    var head, now, r := s.queue[0], s.running.value.now, s.running.value.decision.record;
    var e := Ended(head, now, false, Ok(r));
    PutKeeps(s.store, head, now);
    PutReplaces(s.store, head, now);
    DecisionFulfils(s.store, head, now);
    PutKeepsAnswers(s, r);
    LogGrows(first, s, e, Stored(s.store, r));
    WokenKeeps(s.(queue := s.queue[1..], running := None, log := s.log + [e]), r);
  }

  lemma ReadKeeps(s: Registry, id: string)
    requires AwaitsOk(s)
    ensures AwaitsOk(Read(s, id))
  {
    hide FindWatcher;
    forall k | 0 <= k < |s.awaits| ensures AwaitOk(s.store, s.waiters, k, Read(s, id).awaits[k]) {
      assert AwaitOk(s.store, s.waiters, k, s.awaits[k]);
    }
  }

  lemma ResumedKeeps(s: Registry, k: WaiterId)
    requires AwaitsOk(s)
    ensures AwaitsOk(Resumed(s, k))
  {
    hide FindWatcher;
    var t := Resumed(s, k);
    forall j | 0 <= j < |t.awaits| ensures AwaitOk(t.store, t.waiters, j, t.awaits[j]) {
      assert AwaitOk(s.store, s.waiters, j, s.awaits[j]);
    }
  }

  lemma ApplyKeeps(first: seq<Record>, s: Registry, t: Step)
    requires RegistryInv(first, s)
    ensures RegistryInv(first, Apply(s, t)) && Continues(s.store, Apply(s, t).store)
  {
    hide Committed, OutcomeOn, Replay, StoreOk, Decide, AwaitOk, ListsOk, AnswersOk;
    match t
    case CommitStep(failed) => CommittedKeeps(first, s, failed);
    case ReadStep(id) => ReadKeeps(s, id);
    case ResumeStep(k) => ResumedKeeps(s, k);
    case _ =>
  }

  lemma {:induction false} RunKeeps(first: seq<Record>, s: Registry, steps: seq<Step>)
    requires RegistryInv(first, s)
    ensures RegistryInv(first, Run(s, steps)) && Continues(s.store, Run(s, steps).store)
    decreases |steps|
  {
    hide Apply, RegistryInv, Continues;
    if steps == [] {
      ContinuesItself(s.store);
    } else {
      var t := Apply(s, steps[0]);
      ApplyKeeps(first, s, steps[0]);
      RunKeeps(first, t, steps[1..]);
      ContinuesOn(s.store, t.store, Run(t, steps[1..]).store);
    }
  }

  lemma ContinuesItself(store: seq<Record>)
    ensures Continues(store, store)
  {
  }

  lemma OpenedOk(store: seq<Record>)
    requires StoreOk(store)
    ensures RegistryInv(store, Opened(store))
  {
  }

  // ---------- what holds on every run ----------

  /** At most one record per operation id and per watcher id, all of them well formed. */
  lemma RecordsAreUnique(store: seq<Record>, steps: seq<Step>)
    requires StoreOk(store)
    ensures StoreOk(Run(Opened(store), steps).store)
  {
    hide Run;
    OpenedOk(store);
    RunKeeps(store, Opened(store), steps);
  }

  /** Registration fields never change, and a terminal record with its completion never changes,
      whatever runs between two moments. */
  lemma RecordsAreFinal(store: seq<Record>, before: seq<Step>, after: seq<Step>)
    requires StoreOk(store)
    ensures var s := Run(Opened(store), before); Continues(s.store, Run(s, after).store)
  {
    hide Run, Continues;
    OpenedOk(store);
    RunKeeps(store, Opened(store), before);
    RunKeeps(store, Run(Opened(store), before), after);
  }

  /** Mutual exclusion in call order: however reads, writes, calls and waiters interleave, the ended
      actions are the first ones called, and the store and every result are those of running them
      one at a time in that order. */
  lemma ActionsAreSerial(store: seq<Record>, steps: seq<Step>)
    requires StoreOk(store)
    ensures var s := Run(Opened(store), steps);
      && s.store == Replay(store, s.log)
      && |s.log| <= |s.called|
      && (forall i | 0 <= i < |s.log| :: s.log[i].action == s.called[i] && s.log[i].outcome == OutcomeOn(Replay(store, s.log[..i]), s.log[i]))
      && s.queue == s.called[|s.log|..]
  {
    hide Run;
    OpenedOk(store);
    RunKeeps(store, Opened(store), steps);
  }

  /** Over every run, an action that was answered with a record got what it asked for: a completion its
      evidence, a cancellation a cancelled record, a registration its own; and a closed record is still
      the stored one. */
  lemma AnswersAreKept(store: seq<Record>, steps: seq<Step>, i: nat)
    requires StoreOk(store) && i < |Run(Opened(store), steps).log| && Run(Opened(store), steps).log[i].outcome.Ok?
    ensures var s := Run(Opened(store), steps); var e := s.log[i]; var r := e.outcome.record;
      && (e.action.RegisterAction? ==> r.registration == e.action.input)
      && (e.action.CompleteAction? ==>
            r.registration.watcherId == e.action.watcherId && r.state.Completed? && r.completion == Some(e.action.evidence) && r in s.store)
      && (e.action.CancelAction? ==>
            r.registration.watcherId == e.action.watcherId && r.state.Cancelled? && r.completion.None? && r in s.store)
  {
    hide Run, FindWatcher;
    OpenedOk(store);
    RunKeeps(store, Opened(store), steps);
    var s := Run(Opened(store), steps);
    assert Fulfilled(s.store, s.log[i]);
    if !s.log[i].action.RegisterAction? {
      FoundWatcher(s.store, s.log[i].action.watcherId);
    }
  }

  /** Every waiter is either held, once, by the list of its own watcher and by no other list, or
      has returned the stored terminal record of that watcher. */
  lemma NoWaiterIsLost(store: seq<Record>, steps: seq<Step>, k: WaiterId)
    requires StoreOk(store) && k < |Run(Opened(store), steps).awaits|
    ensures var s := Run(Opened(store), steps); var a := s.awaits[k];
      && (a.phase.Waiting? ==> a.watcherId in s.waiters && k in s.waiters[a.watcherId])
      && (forall id | id in s.waiters && k in s.waiters[id] :: a == Await(id, Waiting) && NoDuplicates(s.waiters[id]))
      && (a.phase.Returned? ==>
            var r := a.phase.record; r in s.store && r.registration.watcherId == a.watcherId && !r.state.Pending?)
  {
    hide Run;
    OpenedOk(store);
    RunKeeps(store, Opened(store), steps);
    var s := Run(Opened(store), steps);
    assert AwaitOk(s.store, s.waiters, k, s.awaits[k]);
    FoundWatcher(s.store, s.awaits[k].watcherId);
  }

  /** Whatever the registry stores, the parser reads back unchanged. */
  lemma StoredRecordsParse(store: seq<Record>, steps: seq<Step>, i: nat)
    requires StoreOk(store) && i < |Run(Opened(store), steps).store|
    ensures Parse(Encode(Run(Opened(store), steps).store[i])) == Some(Run(Opened(store), steps).store[i])
  {
    hide Run, Parse, Encode;
    RecordsAreUnique(store, steps);
    ParseOfEncode(Run(Opened(store), steps).store[i]);
  }

  // ---------- a waiter that registers late ----------

  /** The waiter waits although its record is terminal. */
  predicate Stranded(s: Registry, k: WaiterId) {
    k < |s.awaits| && s.awaits[k].phase.Waiting? && IsTerminal(s.store, s.awaits[k].watcherId)
  }

  /** The step is the commit that closes the record of the watcher. */
  predicate Closes(s: Registry, t: Step, watcherId: string) {
    && t == CommitStep(false)
    && s.queue != [] && s.running.Some? && s.running.value.decision.Put?
    && var r := s.running.value.decision.record; r.registration.watcherId == watcherId && !r.state.Pending?
  }

  predicate ClosesAt(s: Registry, steps: seq<Step>, i: nat, watcherId: string) {
    i < |steps| && Closes(Run(s, steps[..i]), steps[i], watcherId)
  }

  lemma ApplyCloses(first: seq<Record>, s: Registry, t: Step, id: string)
    requires RegistryInv(first, s)
    ensures FindWatcher(s.store, id).Some? ==> FindWatcher(Apply(s, t).store, id).Some?
    ensures IsTerminal(Apply(s, t).store, id) <==> IsTerminal(s.store, id) || Closes(s, t, id)
    ensures Closes(s, t, id) ==> !IsTerminal(s.store, id)
  {
    hide Stored, FindWatcher, Decide, LogOk, AwaitsOk;
    if t == CommitStep(false) && s.running.Some? && s.running.value.decision.Put? {
      var r := s.running.value.decision.record;
      FindStored(s.store, r, id);
      PutReplaces(s.store, s.queue[0], s.running.value.now);
    }
  }

  lemma {:induction false} RunCloses(first: seq<Record>, s: Registry, steps: seq<Step>, id: string)
    requires RegistryInv(first, s)
    ensures IsTerminal(Run(s, steps).store, id) <==> IsTerminal(s.store, id) || exists i :: ClosesAt(s, steps, i, id)
    decreases |steps|
  {
    hide Apply, RegistryInv, IsTerminal, Closes;
    if steps != [] {
      var t := Apply(s, steps[0]);
      ApplyKeeps(first, s, steps[0]);
      ApplyCloses(first, s, steps[0], id);
      RunCloses(first, t, steps[1..], id);
      assert steps[..0] == [];
      assert ClosesAt(s, steps, 0, id) <==> Closes(s, steps[0], id);
      forall i: nat ensures ClosesAt(t, steps[1..], i, id) <==> ClosesAt(s, steps, i + 1, id) {
        if i + 1 < |steps| {
          assert steps[..i + 1][1..] == steps[1..][..i];
        }
      }
      if i: nat :| ClosesAt(s, steps, i, id) {
        assert i > 0 ==> ClosesAt(t, steps[1..], i - 1, id);
      }
      if i: nat :| ClosesAt(t, steps[1..], i, id) {
        assert ClosesAt(s, steps, i + 1, id);
      }
    }
  }

  /** `await` reads the store and registers its waiter in two steps. Whatever runs between them, the
      waiter is stranded if and only if the read found a pending record and a commit in between
      closed it. */
  lemma LateRegistration(store: seq<Record>, before: seq<Step>, watcherId: string, between: seq<Step>)
    requires StoreOk(store)
    ensures var s0 := Run(Opened(store), before); var k := |s0.awaits|;
      var s1 := Apply(s0, ReadStep(watcherId)); var s2 := Run(s1, between);
      && k < |s2.awaits|
      && (s2.awaits[k].phase.HasRead? ==>
            (Stranded(Apply(s2, ResumeStep(k)), k) <==>
               FindWatcher(s0.store, watcherId).Some? && !IsTerminal(s0.store, watcherId)
               && exists i :: ClosesAt(s1, between, i, watcherId)))
  {
    hide Run, RegistryInv;
    var s0 := Run(Opened(store), before);
    var k, s1 := |s0.awaits|, Apply(s0, ReadStep(watcherId));
    OpenedOk(store);
    RunKeeps(store, Opened(store), before);
    ApplyKeeps(store, s0, ReadStep(watcherId));
    RunCloses(store, s1, between, watcherId);
    RunKeepsRead(s1, between, k);
  }

  lemma {:induction false} RunKeepsRead(s: Registry, steps: seq<Step>, k: WaiterId)
    requires k < |s.awaits|
    ensures var t := Run(s, steps);
      && k < |t.awaits| && t.awaits[k].watcherId == s.awaits[k].watcherId
      && (t.awaits[k].phase.HasRead? ==> t.awaits[k] == s.awaits[k])
    decreases |steps|
  {
    if steps != [] {
      RunKeepsRead(Apply(s, steps[0]), steps[1..], k);
    }
  }

  lemma ApplyToWaiter(first: seq<Record>, s: Registry, t: Step, k: WaiterId)
    requires RegistryInv(first, s) && k < |s.awaits| && s.awaits[k].phase.Waiting?
    ensures var u := Apply(s, t); var id := s.awaits[k].watcherId;
      k < |u.awaits| && if Closes(s, t, id) then u.awaits[k] == Await(id, Returned(s.running.value.decision.record)) else u.awaits[k] == s.awaits[k]
  {
    hide Stored, FindWatcher, Decide, LogOk, StoreOk;
    assert AwaitOk(s.store, s.waiters, k, s.awaits[k]);
  }

  /** Nothing that runs later wakes a stranded waiter. */
  lemma {:induction false} StrandedForever(first: seq<Record>, s: Registry, steps: seq<Step>, k: WaiterId)
    requires RegistryInv(first, s) && Stranded(s, k)
    ensures Stranded(Run(s, steps), k)
    decreases |steps|
  {
    hide Apply, RegistryInv, IsTerminal, Closes;
    if steps != [] {
      ApplyKeeps(first, s, steps[0]);
      ApplyToWaiter(first, s, steps[0], k);
      ApplyCloses(first, s, steps[0], s.awaits[k].watcherId);
      StrandedForever(first, Apply(s, steps[0]), steps[1..], k);
    }
  }

  lemma {:induction false} ReturnedForever(first: seq<Record>, s: Registry, steps: seq<Step>, k: WaiterId)
    requires RegistryInv(first, s) && k < |s.awaits| && s.awaits[k].phase.Returned?
    ensures k < |Run(s, steps).awaits| && Run(s, steps).awaits[k] == s.awaits[k]
    decreases |steps|
  {
    hide RegistryInv;
    if steps != [] {
      ApplyKeeps(first, s, steps[0]);
      ReturnedForever(first, Apply(s, steps[0]), steps[1..], k);
    }
  }

  /** A waiter that is not stranded is woken by the commit that closes its record, with that record:
      it waits exactly as long as the record is pending. */
  lemma {:induction false} SafeWaiterReturns(first: seq<Record>, s: Registry, steps: seq<Step>, k: WaiterId)
    requires RegistryInv(first, s) && k < |s.awaits| && s.awaits[k].phase.Waiting? && !Stranded(s, k)
    ensures var t := Run(s, steps); var id := s.awaits[k].watcherId;
      && k < |t.awaits| && t.awaits[k].watcherId == id
      && t.awaits[k].phase == if IsTerminal(t.store, id) then Returned(FindWatcher(t.store, id).value) else Waiting
    decreases |steps|
  {
    hide Apply, RegistryInv, IsTerminal, Closes;
    if steps != [] {
      var t, id := steps[0], s.awaits[k].watcherId;
      ApplyKeeps(first, s, t);
      ApplyToWaiter(first, s, t, k);
      ApplyCloses(first, s, t, id);
      if Closes(s, t, id) {
        ReturnedForever(first, Apply(s, t), steps[1..], k);
        RunKeeps(first, Apply(s, t), steps[1..]);
        ReturnedIsStored(first, Run(Apply(s, t), steps[1..]), k);
      } else {
        SafeWaiterReturns(first, Apply(s, t), steps[1..], k);
      }
    }
  }

  lemma ReturnedIsStored(first: seq<Record>, s: Registry, k: WaiterId)
    requires RegistryInv(first, s) && k < |s.awaits| && s.awaits[k].phase.Returned?
    ensures FindWatcher(s.store, s.awaits[k].watcherId) == Some(s.awaits[k].phase.record) && IsTerminal(s.store, s.awaits[k].watcherId)
  {
    hide StoreOk, LogOk, FindWatcher;
    assert AwaitOk(s.store, s.waiters, k, s.awaits[k]);
  }

  /** For every waiter of every run: once registered, it is for ever stranded, or it waits exactly
      as long as its record is pending and then returns that record. */
  lemma WaiterFate(store: seq<Record>, before: seq<Step>, after: seq<Step>, k: WaiterId)
    requires StoreOk(store)
    requires k < |Run(Opened(store), before).awaits| && Run(Opened(store), before).awaits[k].phase.Waiting?
    ensures var s := Run(Opened(store), before); var t := Run(s, after); var id := s.awaits[k].watcherId;
      && k < |t.awaits| && t.awaits[k].watcherId == id
      && t.awaits[k].phase == if !Stranded(s, k) && IsTerminal(t.store, id) then Returned(FindWatcher(t.store, id).value) else Waiting
  {
    hide Run, RegistryInv, IsTerminal;
    var s := Run(Opened(store), before);
    OpenedOk(store);
    RunKeeps(store, Opened(store), before);
    RunKeepsRead(s, after, k);
    if Stranded(s, k) {
      StrandedForever(store, s, after, k);
    } else {
      SafeWaiterReturns(store, s, after, k);
    }
  }

  /** For instance: the read sees a pending record, a cancellation commits, the waiter registers. */
  lemma StrandedWaiter(r: Record, now: string)
    requires ValidRecord(r) && r.state.Pending?
    ensures var id := r.registration.watcherId;
      var t := Run(Opened([r]), [ReadStep(id), CallStep(CancelAction(id)), BeginStep(now), CommitStep(false), ResumeStep(0)]);
      Stranded(t, 0) && t.store == [r.(state := Cancelled, updatedAt := now)]
  {
    var id := r.registration.watcherId;
    var a, b, c, d, e := ReadStep(id), CallStep(CancelAction(id)), BeginStep(now), CommitStep(false), ResumeStep(0);
    var s0 := Opened([r]);
    var s1 := Apply(s0, a);
    var s2 := Apply(s1, b);
    var s3 := Apply(s2, c);
    var s4 := Apply(s3, d);
    var s5 := Apply(s4, e);
    assert s3.running == Some(Running(now, Put(r.(state := Cancelled, updatedAt := now))));
    assert s4.store == [r.(state := Cancelled, updatedAt := now)];
    assert [a, b, c, d, e][1..] == [b, c, d, e] && [b, c, d, e][1..] == [c, d, e] && [c, d, e][1..] == [d, e] && [d, e][1..] == [e];
    assert Run(s0, [a, b, c, d, e]) == Run(s1, [b, c, d, e]) == Run(s2, [c, d, e]) == Run(s3, [d, e]) == Run(s4, [e]) == s5;
  }

  // ---------- the registry object ----------

  class ResponseWatcherRegistry {
    var store: seq<Record>
    var waiters: map<string, seq<WaiterId>>
    var awaits: seq<Await>
    var mutation: seq<Action>
    var running: Option<Running>
    ghost var called: seq<Action>
    ghost var log: seq<Ended>

    ghost function View(): Registry
      reads this
    {
      Registry(store, waiters, awaits, mutation, running, called, log)
    }

    constructor (store: seq<Record>)
      ensures View() == Opened(store)
    {
      this.store, waiters, awaits, mutation, running, called, log := store, map[], [], [], None, [], [];
    }

    /** `records.find` over the listed records. */
    method FindByOperation(id: string) returns (found: Option<Record>)
      ensures found == FindOperation(store, id)
    {
      var i := 0;
      while i < |store|
        invariant i <= |store| && FindOperation(store, id) == FindOperation(store[i..], id)
      {
        if store[i].registration.operationId == id { return Some(store[i]); }
        i := i + 1;
      }
      return None;
    }

    method FindById(id: string) returns (found: Option<Record>)
      ensures found == FindWatcher(store, id)
    {
      var i := 0;
      while i < |store|
        invariant i <= |store| && FindWatcher(store, id) == FindWatcher(store[i..], id)
      {
        if store[i].registration.watcherId == id { return Some(store[i]); }
        i := i + 1;
      }
      return None;
    }

    method PutRecord(r: Record)
      modifies `store
      ensures store == Stored(old(store), r)
    {
      var i := 0;
      while i < |store| && store[i].registration.watcherId != r.registration.watcherId
        invariant i <= |store| && forall j | 0 <= j < i :: store[j].registration.watcherId != r.registration.watcherId
      {
        i := i + 1;
      }
      StoredIs(store, r, i);
      store := if i < |store| then store[i := r] else store + [r];
    }

    /** The action of `register`, up to its put. */
    method DecideOnRegister(input: Registration, now: string) returns (d: Decision)
      ensures d == DecideRegister(store, input, now)
    {
      if !ValidRegistration(input) { return Answer(Err(InvalidInput)); }
      var existing := FindByOperation(input.operationId);
      if existing.None? {
        existing := FindById(input.watcherId);
      }
      if existing.Some? {
        return Answer(if existing.value.registration == input then Ok(existing.value) else Err(IdentityMismatch));
      }
      return Put(Record(input, Pending, now, now, None));
    }

    /** The action of `terminal`, up to its put. */
    method DecideOnTerminal(watcherId: string, state: WatchState, evidence: Option<Completion>, now: string) returns (d: Decision)
      ensures d == DecideTerminal(store, watcherId, state, evidence, now)
    {
      var current := FindById(watcherId);
      if current.None? { return Answer(Err(NotFound)); }
      var r := current.value;
      if !r.state.Pending? {
        return Answer(if r.state == state && (evidence.None? || r.completion == evidence) then Ok(r) else Err(AlreadyTerminal));
      }
      return Put(r.(state := state, updatedAt := now, completion := if evidence.Some? then evidence else r.completion));
    }

    /** `register`, `complete` and `cancel` join the chain of `serial`. */
    method Call(a: Action) returns (accepted: bool)
      modifies `mutation, `called
      ensures View() == Called(old(View()), a) && accepted == Accepted(a)
    {
      accepted := match a case CompleteAction(_, evidence) => ValidCompletion(evidence) case _ => true;
      if accepted {
        mutation, called := mutation + [a], called + [a];
      }
    }

    method Begin(now: string)
      modifies `running
      ensures View() == Begun(old(View()), now)
    {
      if mutation == [] || running.Some? { return; }
      var d;
      match mutation[0] {
        case RegisterAction(input) => d := DecideOnRegister(input, now);
        case CompleteAction(w, evidence) => d := DecideOnTerminal(w, Completed, Some(evidence), now);
        case CancelAction(w) => d := DecideOnTerminal(w, Cancelled, None, now);
      }
      running := Some(Running(now, d));
    }

    /** The promise of one waiter resolves. */
    method Resolve(k: WaiterId, r: Record)
      modifies `awaits
      ensures awaits == Resolved(old(awaits), [k], r)
    {
      if k < |awaits| && awaits[k].phase.Waiting? {
        awaits := awaits[k := awaits[k].(phase := Returned(r))];
      }
    }

    method ResolveWaiters(r: Record)
      modifies `waiters, `awaits
      ensures View() == Woken(old(View()), r)
    {
      var id := r.registration.watcherId;
      if r.state.Pending? || id !in waiters { return; }
      var current := waiters[id];
      waiters := waiters - {id};
      for i := 0 to |current|
        invariant waiters == old(waiters) - {id} && awaits == Resolved(old(awaits), current[..i], r)
      {
        assert current[..i + 1] == current[..i] + [current[i]];
        Resolve(current[i], r);
      }
      assert current[..|current|] == current;
    }

    method Commit(failed: bool)
      modifies this
      ensures View() == Committed(old(View()), failed)
    {
      hide Stored, Woken;
      if mutation == [] || running.None? { return; }
      var head, now, d := mutation[0], running.value.now, running.value.decision;
      mutation, running := mutation[1..], None;
      match d
      case Answer(outcome) => log := log + [Ended(head, now, false, outcome)];
      case Put(r) =>
        if failed {
          log := log + [Ended(head, now, true, Err(StoreFailure))];
        } else {
          PutRecord(r);
          log := log + [Ended(head, now, false, Ok(r))];
          ResolveWaiters(r);
        }
    }

    /** The first half of `await`: the read of the store. */
    method AwaitRead(watcherId: string) returns (k: WaiterId)
      modifies `awaits
      ensures View() == Read(old(View()), watcherId) && k == old(|awaits|)
    {
      k := |awaits|;
      var record := FindById(watcherId);
      awaits := awaits + [Await(watcherId, HasRead(record))];
    }

    /** The second half: the answer, or the registration of the waiter. */
    method AwaitResume(k: WaiterId)
      modifies `awaits, `waiters
      ensures View() == Resumed(old(View()), k)
    {
      if k >= |awaits| || !awaits[k].phase.HasRead? { return; }
      var watcherId, record := awaits[k].watcherId, awaits[k].phase.found;
      if record.None? {
        awaits := awaits[k := Await(watcherId, Unknown)];
      } else if !record.value.state.Pending? {
        awaits := awaits[k := Await(watcherId, Returned(record.value))];
      } else {
        var current := if watcherId in waiters then waiters[watcherId] else [];
        awaits := awaits[k := Await(watcherId, Waiting)];
        waiters := waiters[watcherId := current + [k]];
      }
    }
  }
}
