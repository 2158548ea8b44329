/** `attachFiles` around its native handoff: whatever the page does, the files are handed over
    at most once, and the result says truthfully whether they may have been. */
module AttachmentHandoff {
  import opened Common

  /** What the classifiers of an error find in it. */
  datatype Failure = Failure(deadline: bool, transport: bool, permission: bool, path: bool)

  /** One operation on the page: it succeeds, or throws. */
  datatype Outcome = Done | Throws(failure: Failure)

  /** One upload path: whether the deadline is spent when its turn comes, its operations up to the
      handoff, the budget check of the handoff, and the native call that gives the files away. */
  datatype Attempt = Attempt(expired: bool, before: seq<Outcome>, budget: Outcome, native: Outcome)

  datatype BlockCode = DeadlineExhausted | TransportFailed | PermissionRequired | PathUnavailable

  datatype Result = Attached | Indeterminate | Blocked(code: BlockCode) | NotStarted(resumable: bool) | Errored

  /** What a run of `attachFiles` meets: preflight and page check may end it; then the upload
      paths with the failure that lists why none completed, the settling delay, the readiness reading and the final context reading. */
  datatype Script = Script(
    early: Option<Result>, attempts: seq<Attempt>, noPath: Failure, delay: Outcome, readiness: Outcome, ready: bool, context: Outcome,
    expiredAtEnd: bool)

  predicate ValidScript(s: Script) {
    s.early.Some? ==> s.early.value.NotStarted? || s.early.value == Blocked(DeadlineExhausted) || s.early.value.Errored?
  }

  predicate Resumable(r: Result) {
    r.Blocked? || (r.NotStarted? && r.resumable)
  }

  /** What is left behind: whether the handoff was started, and how often files were given away. */
  datatype Effect = Effect(handoffStarted: bool, nativeCalls: nat)

  const NOTHING := Effect(false, 0)

  // ---------- the run as a function ----------

  function FirstThrow(steps: seq<Outcome>): Outcome {
    if steps == [] then Done else if steps[0].Throws? then steps[0] else FirstThrow(steps[1..])
  }

  function AttemptResult(a: Attempt, e: Effect): (Outcome, Effect) {
    if FirstThrow(a.before).Throws? then (FirstThrow(a.before), e)
    else if a.budget.Throws? then (a.budget, e.(handoffStarted := true))
    else (a.native, Effect(true, e.nativeCalls + 1))
  }

  /** The loop over the attempts: stop at success, at a failure after the handoff started, and at a
      permission or transport failure; otherwise go on to the next path. */
  function UploadResult(attempts: seq<Attempt>, noPath: Failure, e: Effect): (Outcome, Effect) {
    if attempts == [] || attempts[0].expired then (Throws(noPath), e)
    else
      var (o, e') := AttemptResult(attempts[0], e);
      if o.Done? || e'.handoffStarted || o.failure.permission || o.failure.transport then (o, e')
      else UploadResult(attempts[1..], noPath, e')
  }

  /** The classification of an error that escaped. */
  function Caught(s: Script, e: Effect, f: Failure): Result {
    if e.handoffStarted then Indeterminate
    else if f.deadline || s.expiredAtEnd then Blocked(DeadlineExhausted)
    else if f.transport then Blocked(TransportFailed)
    else if f.permission then Blocked(PermissionRequired)
    else if f.path then Blocked(PathUnavailable)
    else Errored
  }

  function AfterUpload(s: Script, e: Effect): Result {
    if s.delay.Throws? then Caught(s, e, s.delay.failure)
    else if s.readiness.Throws? then Caught(s, e, s.readiness.failure)
    else if s.context.Throws? then Caught(s, e, s.context.failure)
    else if s.ready then Attached
    else Indeterminate
  }

  function AttachResult(s: Script): (Result, Effect) {
    match s.early
    case Some(r) => (r, NOTHING)
    case None =>
      var (o, e) := UploadResult(s.attempts, s.noPath, NOTHING);
      (match o case Done => AfterUpload(s, e) case Throws(f) => Caught(s, e, f), e)
  }

  // ---------- at most once ----------

  /** The files are given away only after the handoff is marked, at most once; success means once. */
  predicate OnceOnly(o: Outcome, e: Effect) {
    && e.nativeCalls <= 1
    && (e.nativeCalls == 1 ==> e.handoffStarted)
    && (o.Done? ==> e.nativeCalls == 1)
  }

  lemma {:induction false} UploadsOnce(attempts: seq<Attempt>, noPath: Failure)
    ensures OnceOnly(UploadResult(attempts, noPath, NOTHING).0, UploadResult(attempts, noPath, NOTHING).1)
    decreases |attempts|
  {
    if attempts != [] && !attempts[0].expired {
      var (o, e) := AttemptResult(attempts[0], NOTHING);
      if o.Throws? && !e.handoffStarted {
        assert e == NOTHING;
        UploadsOnce(attempts[1..], noPath);
      }
    }
  }

  /** One run makes at most one native call. An attached result means exactly one; a resumable
      result means that none was started; and a started handoff ends attached or indeterminate,
      which is never resumable. */
  lemma AtMostOneHandoff(s: Script)
    requires ValidScript(s)
    ensures var (r, e) := AttachResult(s);
      && e.nativeCalls <= 1
      && (r.Attached? ==> e.nativeCalls == 1)
      && (Resumable(r) ==> !e.handoffStarted && e.nativeCalls == 0)
      && (e.handoffStarted ==> r.Attached? || r.Indeterminate?)
      && (r.Indeterminate? ==> e.handoffStarted)
  {
    UploadsOnce(s.attempts, s.noPath);
  }

  /** The handoff is started exactly when the first path that gets as far is reached: every path
      before it failed earlier, without a permission or transport failure, and in time. */
  lemma {:induction false} StartedIff(attempts: seq<Attempt>, noPath: Failure)
    ensures UploadResult(attempts, noPath, NOTHING).1.handoffStarted
            <==> exists i :: 0 <= i < |attempts| && Reached(attempts, i) && FirstThrow(attempts[i].before).Done?
    decreases |attempts|
  {
    if attempts != [] {
      StartedIff(attempts[1..], noPath);
      forall i | 0 <= i < |attempts| - 1
        ensures Reached(attempts, i + 1) <==> Passes(attempts[0]) && Reached(attempts[1..], i)
      {
        ReachedTail(attempts, i);
      }
      if i :| 0 <= i < |attempts[1..]| && Reached(attempts[1..], i) && FirstThrow(attempts[1..][i].before).Done? {
        assert attempts[i + 1] == attempts[1..][i];
      }
      if i :| 0 <= i < |attempts| && Reached(attempts, i) && FirstThrow(attempts[i].before).Done? && i > 0 {
        assert attempts[1..][i - 1] == attempts[i] && Reached(attempts, i - 1 + 1);
      }
      if !attempts[0].expired && FirstThrow(attempts[0].before).Done? {
        assert Reached(attempts, 0);
      }
    }
  }

  /** The upload succeeds exactly when a path that is reached passes its checks and its budget, and its
      native call succeeds. */
  lemma {:induction false} UploadedIff(attempts: seq<Attempt>, noPath: Failure)
    ensures UploadResult(attempts, noPath, NOTHING).0.Done? <==>
              exists i :: 0 <= i < |attempts| && Reached(attempts, i) && Completes(attempts[i])
    decreases |attempts|
  {
    if attempts != [] {
      UploadedIff(attempts[1..], noPath);
      forall i | 0 <= i < |attempts| - 1
        ensures Reached(attempts, i + 1) <==> Passes(attempts[0]) && Reached(attempts[1..], i)
      {
        ReachedTail(attempts, i);
      }
      if i :| 0 <= i < |attempts[1..]| && Reached(attempts[1..], i) && Completes(attempts[1..][i]) {
        assert attempts[i + 1] == attempts[1..][i];
      }
      if i :| 0 <= i < |attempts| && Reached(attempts, i) && Completes(attempts[i]) && i > 0 {
        assert attempts[1..][i - 1] == attempts[i] && Reached(attempts, i - 1 + 1);
      }
      if !attempts[0].expired && Completes(attempts[0]) {
        assert Reached(attempts, 0);
      }
    }
  }

  /** An upload that never started fails with the permission or transport failure of the path that was
      reached, or, if every path reached was passed over, with the failure that lists them all. */
  lemma {:induction false} UnstartedFails(attempts: seq<Attempt>, noPath: Failure)
    requires !UploadResult(attempts, noPath, NOTHING).1.handoffStarted
    ensures var o := UploadResult(attempts, noPath, NOTHING).0;
      || (exists i :: 0 <= i < |attempts| && Reached(attempts, i) && Refused(attempts[i]) && o == FirstThrow(attempts[i].before))
      || (o == Throws(noPath) && forall i | 0 <= i < |attempts| && Reached(attempts, i) :: Passes(attempts[i]))
    decreases |attempts|
  {
    if attempts != [] && !attempts[0].expired {
      assert Reached(attempts, 0);
      if Passes(attempts[0]) {
        UnstartedFails(attempts[1..], noPath);
        forall i | 0 <= i < |attempts| - 1
          ensures Reached(attempts, i + 1) <==> Reached(attempts[1..], i)
        {
          ReachedTail(attempts, i);
        }
        if i :| 0 <= i < |attempts[1..]| && Reached(attempts[1..], i) && Refused(attempts[1..][i])
                && UploadResult(attempts, noPath, NOTHING).0 == FirstThrow(attempts[1..][i].before) {
          assert attempts[i + 1] == attempts[1..][i];
        } else {
          forall i | 0 <= i < |attempts| && Reached(attempts, i) ensures Passes(attempts[i]) {
            if i > 0 {
              assert attempts[1..][i - 1] == attempts[i] && Reached(attempts, i - 1 + 1);
            }
          }
        }
      }
    }
  }

  /** The path fails before its handoff in a way that ends the upload. */
  predicate Refused(a: Attempt) {
    && !a.expired && FirstThrow(a.before).Throws?
    && (FirstThrow(a.before).failure.permission || FirstThrow(a.before).failure.transport)
  }

  /** A failure before any handoff is reported by its gravest cause, a spent deadline first, then the
      transport, a missing permission and an unusable path; only a failure of none of these kinds is an
      error. Once a handoff was started no cause is given. */
  lemma FailureIsReported(s: Script, f: Failure)
    requires s.early.None? && UploadResult(s.attempts, s.noPath, NOTHING).0 == Throws(f)
    ensures var (r, e) := AttachResult(s); var spent := f.deadline || s.expiredAtEnd;
      && (e.handoffStarted <==> r == Indeterminate)
      && (r == Blocked(DeadlineExhausted) <==> !e.handoffStarted && spent)
      && (r == Blocked(TransportFailed) <==> !e.handoffStarted && !spent && f.transport)
      && (r == Blocked(PermissionRequired) <==> !e.handoffStarted && !spent && !f.transport && f.permission)
      && (r == Blocked(PathUnavailable) <==> !e.handoffStarted && !spent && !f.transport && !f.permission && f.path)
      && (r == Errored <==> !e.handoffStarted && !spent && !f.transport && !f.permission && !f.path)
  {
  }

  /** A run ends attached exactly when a path that was reached gave the files away and the page was read
      afterwards, without a failure, and showed every file. */
  lemma AttachedIff(s: Script)
    requires ValidScript(s)
    ensures AttachResult(s).0.Attached? <==>
              && s.early.None?
              && (exists i :: 0 <= i < |s.attempts| && Reached(s.attempts, i) && Completes(s.attempts[i]))
              && s.delay.Done? && s.readiness.Done? && s.context.Done? && s.ready
  {
    hide UploadResult, Reached, Completes;
    UploadedIff(s.attempts, s.noPath);
  }

  predicate Completes(a: Attempt) {
    FirstThrow(a.before).Done? && a.budget.Done? && a.native.Done?
  }

  /** The path fails before its handoff in a way that lets the next path try. */
  predicate Passes(a: Attempt) {
    && !a.expired
    && FirstThrow(a.before).Throws?
    && !FirstThrow(a.before).failure.permission
    && !FirstThrow(a.before).failure.transport
  }

  predicate Reached(attempts: seq<Attempt>, i: nat)
    requires i < |attempts|
  {
    !attempts[i].expired && forall j | 0 <= j < i :: Passes(attempts[j])
  }

  lemma ReachedTail(attempts: seq<Attempt>, i: nat)
    requires i + 1 < |attempts|
    ensures Reached(attempts, i + 1) <==> Passes(attempts[0]) && Reached(attempts[1..], i)
  {
    if Passes(attempts[0]) && Reached(attempts[1..], i) {
      forall j | 0 <= j < i + 1 ensures Passes(attempts[j]) {
        assert j > 0 ==> attempts[j] == attempts[1..][j - 1];
      }
    }
    if Reached(attempts, i + 1) {
      assert forall j | 0 <= j < i :: attempts[1..][j] == attempts[j + 1];
    }
  }

  // ---------- the code ----------

  class AttachmentMutationState {
    var handoffStarted: bool
    ghost var nativeCalls: nat

    ghost function View(): Effect
      reads this
    {
      Effect(handoffStarted, nativeCalls)
    }

    constructor ()
      ensures View() == NOTHING
    {
      handoffStarted, nativeCalls := false, 0;
    }
  }

  /** `clickFileChooserLocator`, its CDP variant and `setResolvedFileInput`. */
  method RunAttempt(a: Attempt, mutationState: AttachmentMutationState) returns (o: Outcome)
    modifies mutationState
    ensures (o, mutationState.View()) == AttemptResult(a, old(mutationState.View()))
  {
    for i := 0 to |a.before|
      invariant mutationState.View() == old(mutationState.View())
      invariant FirstThrow(a.before) == FirstThrow(a.before[i..])
    {
      if a.before[i].Throws? { return a.before[i]; }
    }
    mutationState.handoffStarted := true;
    if a.budget.Throws? { return a.budget; }
    mutationState.nativeCalls := mutationState.nativeCalls + 1;
    return a.native;
  }

  method UploadFiles(attempts: seq<Attempt>, noPath: Failure, mutationState: AttachmentMutationState) returns (o: Outcome)
    requires mutationState.View() == NOTHING
    modifies mutationState
    ensures (o, mutationState.View()) == UploadResult(attempts, noPath, NOTHING)
  {
    for i := 0 to |attempts|
      invariant mutationState.View() == NOTHING
      invariant UploadResult(attempts, noPath, NOTHING) == UploadResult(attempts[i..], noPath, NOTHING)
    {
      if attempts[i].expired { break; }
      o := RunAttempt(attempts[i], mutationState);
      if o.Done? { return; }
      if mutationState.handoffStarted { return; }
      if o.failure.permission || o.failure.transport { return; }
    }
    return Throws(noPath);
  }

  method AttachFiles(s: Script) returns (r: Result, mutationState: AttachmentMutationState)
    ensures fresh(mutationState)
    ensures (r, mutationState.View()) == AttachResult(s)
  {
    mutationState := new AttachmentMutationState();
    if s.early.Some? {
      r := s.early.value;
      return;
    }
    var o := UploadFiles(s.attempts, s.noPath, mutationState);
    if o.Done? { o := s.delay; }
    if o.Done? { o := s.readiness; }
    if o.Done? { o := s.context; }
    if o.Done? {
      r := if s.ready then Attached else Indeterminate;
      return;
    }
    var f := o.failure;
    if mutationState.handoffStarted { r := Indeterminate; }
    else if f.deadline || s.expiredAtEnd { r := Blocked(DeadlineExhausted); }
    else if f.transport { r := Blocked(TransportFailed); }
    else if f.permission { r := Blocked(PermissionRequired); }
    else if f.path { r := Blocked(PathUnavailable); }
    else { r := Errored; }
  }
}
