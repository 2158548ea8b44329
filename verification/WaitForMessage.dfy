/** The polling loop of `waitForMessage`: what a completed wait proves about the snapshots it saw. */
module WaitForMessage {
  import opened Common
  import opened Text

  datatype Generation = Generation(observed: bool, active: bool, stopped: bool)

  /** One combined reading of the page: counts, and length, hash and transience of the latest text. */
  datatype Snapshot = Snapshot(
    turnCount: int, assistantTurnCount: int, latestAssistantTurnIndex: Option<int>,
    length: nat, hash: string, transient: bool, generation: Generation, hasResponseActions: Option<bool>)

  /** The result of a probe: a snapshot, a skipped or timed-out probe, or a degraded reading. */
  datatype Probe = Observed(snapshot: Snapshot) | Missed | Degraded(fallback: Snapshot)

  datatype Args = Args(
    timeoutMs: int, stableMs: int, afterAssistantTurnCount: Option<int>, afterTurnCount: Option<int>,
    hashOf: string -> string, transientText: string -> bool)

  /** One pass of the loop: the clock at its head, at the snapshot, at the completion check and
      after the fetch; the readings it makes; and the text it fetches, empty if there is none. */
  datatype Poll = Poll(
    enteredAt: int, probe: Probe, observedAt: int, blocked: bool, copyButton: bool, checkedAt: int, fetched: string, fetchedAt: int)

  datatype Result = Complete(text: string) | BlockedByPage | Interrupted(text: string) | TimedOut(observedLength: nat)

  /** A length with a hash; the loop compares these and nothing else of a text. */
  type Key = (nat, string)

  datatype Waiting = Waiting(pollIndex: nat, key: Option<Key>, changedAt: int, observedLength: nat, assistantCount: int)

  const PAGE_STATE_POLL_STRIDE := 4

  // ---------- the loop as a function ----------

  function SnapshotOf(p: Probe, previousCount: int): Snapshot {
    match p
    case Observed(s) => s
    case Degraded(s) => s
    case Missed => Snapshot(0, previousCount, None, 0, "", false, Generation(false, false, false), Some(false))
  }

  predicate TargetReached(a: Args, s: Snapshot) {
    && (a.afterAssistantTurnCount.Some? ==> s.assistantTurnCount > a.afterAssistantTurnCount.value)
    && (a.afterTurnCount.Some? ==>
          (if s.latestAssistantTurnIndex.Some? then s.latestAssistantTurnIndex.value else s.turnCount) > a.afterTurnCount.value)
  }

  function KeyOf(a: Args, s: Snapshot): Option<Key> {
    if TargetReached(a, s) && s.length > 0 then Some((s.length, s.hash)) else None
  }

  function KeyOfText(a: Args, text: string): Key {
    (|text|, a.hashOf(text))
  }

  predicate IsResponseComplete(a: Args, text: string, stableForMs: int, g: Generation, actions: bool) {
    !IsBlank(text) && !a.transientText(text) && stableForMs >= a.stableMs && g.observed && !g.active && !g.stopped && actions
  }

  predicate HasActions(p: Poll, s: Snapshot) {
    if s.hasResponseActions.Some? then s.hasResponseActions.value else p.copyButton
  }

  function Noted(a: Args, w: Waiting, p: Poll): Waiting {
    var s := SnapshotOf(p.probe, w.assistantCount);
    var key := KeyOf(a, s);
    Waiting(w.pollIndex + 1, key, if key == w.key then w.changedAt else p.observedAt,
            if key.Some? then s.length else w.observedLength, s.assistantTurnCount)
  }

  predicate MetadataComplete(a: Args, w: Waiting, p: Poll, s: Snapshot) {
    && TargetReached(a, s) && s.length > 0 && !s.transient
    && p.checkedAt - w.changedAt >= a.stableMs
    && s.generation.observed && !s.generation.active && !s.generation.stopped
    && HasActions(p, s)
  }

  /** One pass: a result, or the state for the next pass. */
  function Polled(a: Args, w: Waiting, p: Poll): (Waiting, Option<Result>) {
    var s := SnapshotOf(p.probe, w.assistantCount);
    var n := Noted(a, w, p);
    if w.pollIndex % PAGE_STATE_POLL_STRIDE == 0 && p.blocked then (n, Some(BlockedByPage))
    else if TargetReached(a, s) && s.generation.stopped && s.length > 0 then (n, Some(Interrupted(p.fetched)))
    else if !MetadataComplete(a, n, p, s) then (n, None)
    else if a.hashOf(p.fetched) == s.hash && IsResponseComplete(a, p.fetched, p.fetchedAt - n.changedAt, s.generation, HasActions(p, s)) then
      (n, Some(Complete(p.fetched)))
    else if |p.fetched| > 0 then
      (n.(key := Some(KeyOfText(a, p.fetched)), changedAt := p.fetchedAt, observedLength := |p.fetched|), None)
    else (n, None)
  }

  function Start(started: int, assistantCount: int): Waiting {
    Waiting(0, None, started, 0, assistantCount)
  }

  /** The state after the first `n` passes, as long as none of them gave a result. */
  function After(a: Args, w: Waiting, polls: seq<Poll>): Waiting {
    if polls == [] then w else Polled(a, After(a, w, polls[..|polls| - 1]), polls[|polls| - 1]).0
  }

  /** The passes up to `i` gave no result and each entered the loop in time. */
  predicate GoesOn(a: Args, w: Waiting, started: int, polls: seq<Poll>, i: nat)
    requires i <= |polls|
  {
    forall j | 0 <= j < i :: polls[j].enteredAt - started < a.timeoutMs && Polled(a, After(a, w, polls[..j]), polls[j]).1.None?
  }

  // ---------- what completion proves ----------

  /** The clock never runs backwards. */
  predicate Monotone(started: int, polls: seq<Poll>) {
    && (forall i | 0 <= i < |polls| :: started <= polls[i].observedAt <= polls[i].checkedAt <= polls[i].fetchedAt)
    && (forall i, j | 0 <= i < j < |polls| :: polls[i].fetchedAt <= polls[j].observedAt)
  }

  /** What the loop would compare for a pass, whatever came before it. */
  function PollKey(a: Args, p: Poll): Option<Key> {
    KeyOf(a, SnapshotOf(p.probe, 0))
  }

  lemma PollKeyIs(a: Args, p: Poll, count: int)
    ensures PollKey(a, p) == KeyOf(a, SnapshotOf(p.probe, count))
    ensures p.probe.Missed? ==> PollKey(a, p).None?
  {
  }

  /** The key was seen at a moment: in the snapshot of a pass, or in the text it fetched. */
  predicate SeenAt(a: Args, p: Poll, key: Key, t: int) {
    || (PollKey(a, p) == Some(key) && p.observedAt == t)
    || (KeyOfText(a, p.fetched) == key && p.fetchedAt == t)
  }

  ghost predicate WindowOk(a: Args, polls: seq<Poll>, w: Waiting) {
    && (forall i | 0 <= i < |polls| && polls[i].observedAt > w.changedAt :: PollKey(a, polls[i]) == w.key)
    && (w.key.Some? ==> exists i :: 0 <= i < |polls| && SeenAt(a, polls[i], w.key.value, w.changedAt))
  }

  lemma {:induction false} WindowKept(a: Args, started: int, count: int, polls: seq<Poll>)
    requires Monotone(started, polls)
    ensures WindowOk(a, polls, After(a, Start(started, count), polls))
    ensures started <= After(a, Start(started, count), polls).changedAt
    ensures polls != [] ==> After(a, Start(started, count), polls).changedAt <= polls[|polls| - 1].fetchedAt
    decreases |polls|
  {
    if polls != [] {
      var n := |polls| - 1;
      var before, p := polls[..n], polls[n];
      WindowKept(a, started, count, before);
      WindowStep(a, before, p, After(a, Start(started, count), before));
      assert before + [p] == polls;
    }
  }

  lemma WindowStep(a: Args, before: seq<Poll>, p: Poll, w: Waiting)
    requires WindowOk(a, before, w)
    requires w.changedAt <= p.observedAt <= p.checkedAt <= p.fetchedAt
    requires forall i | 0 <= i < |before| :: before[i].observedAt <= p.observedAt
    ensures WindowOk(a, before + [p], Polled(a, w, p).0)
    ensures w.changedAt <= Polled(a, w, p).0.changedAt <= p.fetchedAt
  {
    var polls := before + [p];
    var t := Polled(a, w, p).0;
    PollKeyIs(a, p, w.assistantCount);
    assert polls[|before|] == p;
    assert forall i | 0 <= i < |before| :: polls[i] == before[i];
    if t.key.Some? {
      if t.key == w.key && t.changedAt == w.changedAt {
        var i :| 0 <= i < |before| && SeenAt(a, before[i], w.key.value, w.changedAt);
        assert SeenAt(a, polls[i], t.key.value, t.changedAt);
      } else {
        assert SeenAt(a, polls[|before|], t.key.value, t.changedAt);
      }
    }
  }

  /** The snapshot shows a reply that was not there when the caller counted: more assistant turns than
      then, and its turn behind those of then. */
  predicate IsNewReply(a: Args, s: Snapshot) {
    && (a.afterAssistantTurnCount.Some? ==> s.assistantTurnCount > a.afterAssistantTurnCount.value)
    && (a.afterTurnCount.Some? && s.latestAssistantTurnIndex.Some? ==> s.latestAssistantTurnIndex.value > a.afterTurnCount.value)
    && (a.afterTurnCount.Some? && s.latestAssistantTurnIndex.None? ==> s.turnCount > a.afterTurnCount.value)
  }

  lemma CompletingPass(a: Args, w: Waiting, p: Poll, text: string)
    requires Polled(a, w, p).1 == Some(Complete(text))
    ensures var s := SnapshotOf(p.probe, 0); var t := Polled(a, w, p).0;
      && !p.probe.Missed? && s.generation == Generation(true, false, false) && HasActions(p, s)
      && IsNewReply(a, s) && s.length > 0 && !s.transient
      && t.key == PollKey(a, p) == Some((s.length, s.hash)) && p.checkedAt - t.changedAt >= a.stableMs
      && text == p.fetched && a.hashOf(text) == s.hash && !IsBlank(text) && !a.transientText(text)
  {
    hide IsBlank, HasActions;
    PollKeyIs(a, p, w.assistantCount);
  }

  /** A completed wait proves stability: the key was already seen when the last `stableMs` began;
      every snapshot observed since then had it, so none of those probes was skipped or timed out;
      the text fetched apart from the snapshots has its hash; and the last snapshot showed a
      generation observed, inactive and not stopped, with response actions, of a reply that was not
      there before. */
  lemma CompletionIsStable(a: Args, started: int, count: int, polls: seq<Poll>, text: string)
    requires Monotone(started, polls) && polls != []
    requires var before := After(a, Start(started, count), polls[..|polls| - 1]);
      Polled(a, before, polls[|polls| - 1]).1 == Some(Complete(text))
    ensures var last := polls[|polls| - 1]; var key := PollKey(a, last);
      && key.Some?
      && (exists i :: 0 <= i < |polls| && exists t :: t <= last.checkedAt - a.stableMs && SeenAt(a, polls[i], key.value, t))
      && (forall i | 0 <= i < |polls| && polls[i].observedAt > last.checkedAt - a.stableMs ::
            PollKey(a, polls[i]) == key && !polls[i].probe.Missed?)
      && text == last.fetched && a.hashOf(text) == key.value.1 && !IsBlank(text) && !a.transientText(text)
    ensures var last := polls[|polls| - 1]; var s := SnapshotOf(last.probe, 0);
      !last.probe.Missed? && s.generation == Generation(true, false, false) && HasActions(last, s)
    ensures var s := SnapshotOf(polls[|polls| - 1].probe, 0); IsNewReply(a, s) && s.length > 0 && !s.transient
  {
    hide Polled, IsBlank, HasActions;
    var n := |polls| - 1;
    var before, last := polls[..n], polls[n];
    var w := After(a, Start(started, count), before);
    WindowKept(a, started, count, before);
    WindowStep(a, before, last, w);
    assert before + [last] == polls;
    CompletingPass(a, w, last, text);
    var t := Polled(a, w, last).0;
    var i :| 0 <= i < |polls| && SeenAt(a, polls[i], t.key.value, t.changedAt);
    assert t.changedAt <= last.checkedAt - a.stableMs && SeenAt(a, polls[i], PollKey(a, last).value, t.changedAt);
    forall j | 0 <= j < |polls| && polls[j].observedAt > last.checkedAt - a.stableMs
      ensures PollKey(a, polls[j]) == PollKey(a, last) && !polls[j].probe.Missed?
    {
      PollKeyIs(a, polls[j], 0);
    }
  }

  /** An interrupted result, too, is of a reply that was not there before, seen in a stopped
      generation by a probe that was not skipped. */
  lemma InterruptedIsNew(a: Args, w: Waiting, p: Poll, text: string)
    requires Polled(a, w, p).1 == Some(Interrupted(text))
    ensures !p.probe.Missed? && text == p.fetched
    ensures var s := SnapshotOf(p.probe, w.assistantCount); IsNewReply(a, s) && s.generation.stopped && s.length > 0
  {
  }

  /** The fetched text belongs to the key and can be the reply. */
  predicate Fetches(a: Args, p: Poll, key: Key) {
    a.hashOf(p.fetched) == key.1 && !IsBlank(p.fetched) && !a.transientText(p.fetched)
  }

  /** The last reading shows the reply finished, and no blocker. */
  predicate Finished(a: Args, w: Waiting, p: Poll) {
    && !(w.pollIndex % PAGE_STATE_POLL_STRIDE == 0 && p.blocked)
    && !p.probe.Missed?
    && var s := SnapshotOf(p.probe, 0);
    && s.generation == Generation(true, false, false) && !s.transient && HasActions(p, s)
  }

  lemma KeyStays(a: Args, w: Waiting, p: Poll, key: Key)
    requires PollKey(a, p) == Some(key) && Fetches(a, p, key) && Polled(a, w, p).1.None?
    requires w.changedAt <= p.observedAt <= p.checkedAt <= p.fetchedAt
    ensures var t := Polled(a, w, p).0; t.key == Some(key) && t.changedAt == if w.key == Some(key) then w.changedAt else p.observedAt
  {
    hide IsBlank, HasActions;
    PollKeyIs(a, p, w.assistantCount);
  }

  lemma {:induction false} WindowGrows(a: Args, started: int, count: int, polls: seq<Poll>, i: nat, n: nat, key: Key)
    requires Monotone(started, polls) && i < n <= |polls|
    requires forall j | i <= j < n :: PollKey(a, polls[j]) == Some(key) && Fetches(a, polls[j], key)
    requires forall j | 0 <= j < n :: Polled(a, After(a, Start(started, count), polls[..j]), polls[j]).1.None?
    ensures var w := After(a, Start(started, count), polls[..n]); w.key == Some(key) && w.changedAt <= polls[i].observedAt
    decreases n
  {
    hide Polled, PollKey, Fetches;
    var before := After(a, Start(started, count), polls[..n - 1]);
    assert polls[..n][..n - 1] == polls[..n - 1];
    WindowKept(a, started, count, polls[..n - 1]);
    assert before.changedAt <= polls[n - 1].observedAt by {
      if n > 1 {
        assert polls[..n - 1][n - 2] == polls[n - 2];
        assert polls[n - 2].fetchedAt <= polls[n - 1].observedAt;
      }
    }
    KeyStays(a, before, polls[n - 1], key);
    if n - 1 > i {
      WindowGrows(a, started, count, polls, i, n - 1, key);
    }
  }

  lemma FinishedPass(a: Args, w: Waiting, p: Poll, key: Key)
    requires PollKey(a, p) == Some(key) && Fetches(a, p, key) && Finished(a, w, p)
    requires w.changedAt <= p.observedAt <= p.checkedAt <= p.fetchedAt
    requires p.checkedAt - (if w.key == Some(key) then w.changedAt else p.observedAt) >= a.stableMs
    ensures Polled(a, w, p).1 == Some(Complete(p.fetched))
  {
    hide IsBlank, HasActions;
    PollKeyIs(a, p, w.assistantCount);
  }

  /** Conversely a stable reply completes: once the same key has been seen from some pass on for
      `stableMs`, with fetches that agree with it, the first reading that shows the reply finished,
      with its actions and without a blocker, ends the wait with the text. */
  lemma StableReplyCompletes(a: Args, started: int, count: int, polls: seq<Poll>, i: nat, key: Key)
    requires Monotone(started, polls) && i < |polls|
    requires var n := |polls| - 1; var w := After(a, Start(started, count), polls[..n]);
      && (forall j | 0 <= j < n :: Polled(a, After(a, Start(started, count), polls[..j]), polls[j]).1.None?)
      && (forall j | i <= j < |polls| :: PollKey(a, polls[j]) == Some(key) && Fetches(a, polls[j], key))
      && Finished(a, w, polls[n]) && polls[n].checkedAt - polls[i].observedAt >= a.stableMs
    ensures var n := |polls| - 1;
      Polled(a, After(a, Start(started, count), polls[..n]), polls[n]).1 == Some(Complete(polls[n].fetched))
  {
    var n := |polls| - 1;
    var w := After(a, Start(started, count), polls[..n]);
    hide Polled, PollKey, Fetches, Finished;
    WindowKept(a, started, count, polls[..n]);
    if n > 0 {
      assert polls[..n][n - 1] == polls[n - 1] && polls[n - 1].fetchedAt <= polls[n].observedAt;
    }
    if i < n {
      WindowGrows(a, started, count, polls, i, n, key);
    }
    FinishedPass(a, w, polls[n], key);
  }

  /** And any reading of the reply the caller waits for has such a key. */
  lemma NewReplyHasKey(a: Args, p: Poll)
    ensures var s := SnapshotOf(p.probe, 0);
      !p.probe.Missed? ==> (PollKey(a, p) == Some((s.length, s.hash)) <==> IsNewReply(a, s) && s.length > 0)
  {
  }

  // ---------- the loop ----------

  /** The body of the loop: the state it leaves, and the result if it returns. */
  method Pass(a: Args, w: Waiting, p: Poll) returns (next: Waiting, result: Option<Result>)
    ensures (next, result) == Polled(a, w, p)
  {
    var lastTargetKey, lastChangedAt, lastObservedTextLength := w.key, w.changedAt, w.observedLength;
    var snapshot := SnapshotOf(p.probe, w.assistantCount);
    var targetReached := TargetReached(a, snapshot);
    var targetKey := if targetReached && snapshot.length > 0 then Some((snapshot.length, snapshot.hash)) else None;
    if targetKey != lastTargetKey {
      lastTargetKey, lastChangedAt := targetKey, p.observedAt;
    }
    if targetReached && snapshot.length > 0 {
      lastObservedTextLength := snapshot.length;
    }
    result := None;
    if w.pollIndex % PAGE_STATE_POLL_STRIDE == 0 && p.blocked {
      result := Some(BlockedByPage);
    } else if targetReached && snapshot.generation.stopped && snapshot.length > 0 {
      result := Some(Interrupted(p.fetched));
    } else if targetReached && snapshot.length > 0 && !snapshot.transient && p.checkedAt - lastChangedAt >= a.stableMs
              && snapshot.generation.observed && !snapshot.generation.active && !snapshot.generation.stopped && HasActions(p, snapshot) {
      if a.hashOf(p.fetched) == snapshot.hash
         && IsResponseComplete(a, p.fetched, p.fetchedAt - lastChangedAt, snapshot.generation, HasActions(p, snapshot)) {
        result := Some(Complete(p.fetched));
      } else if |p.fetched| > 0 {
        lastTargetKey, lastChangedAt := Some(KeyOfText(a, p.fetched)), p.fetchedAt;
        lastObservedTextLength := |p.fetched|;
      }
    }
    next := Waiting(w.pollIndex + 1, lastTargetKey, lastChangedAt, lastObservedTextLength, snapshot.assistantTurnCount);
  }

  /** `waitForMessage`, over the passes the clock allows; `polls` is what they find. */
  method Wait(a: Args, started: int, assistantCount: int, polls: seq<Poll>) returns (r: Result, passes: nat)
    ensures passes <= |polls| && GoesOn(a, Start(started, assistantCount), started, polls, passes)
    ensures !r.TimedOut? ==>
              passes < |polls| && polls[passes].enteredAt - started < a.timeoutMs
              && Polled(a, After(a, Start(started, assistantCount), polls[..passes]), polls[passes]).1 == Some(r)
    ensures r.TimedOut? ==>
              && (passes == |polls| || polls[passes].enteredAt - started >= a.timeoutMs)
              && r.observedLength == After(a, Start(started, assistantCount), polls[..passes]).observedLength
  {
    hide Polled;
    ghost var first := Start(started, assistantCount);
    var w := Start(started, assistantCount);
    passes := 0;
    while passes < |polls| && polls[passes].enteredAt - started < a.timeoutMs
      invariant passes <= |polls| && GoesOn(a, first, started, polls, passes)
      invariant w == After(a, first, polls[..passes])
    {
      var next, result := Pass(a, w, polls[passes]);
      if result.Some? {
        ReturnsTheResult(a, w, polls[passes]);
        return result.value, passes;
      }
      assert polls[..passes + 1][..passes] == polls[..passes];
      w := next;
      passes := passes + 1;
    }
    r := TimedOut(w.observedLength);
  }

  lemma ReturnsTheResult(a: Args, w: Waiting, p: Poll)
    ensures Polled(a, w, p).1.Some? ==> !Polled(a, w, p).1.value.TimedOut?
  {
  }
}
