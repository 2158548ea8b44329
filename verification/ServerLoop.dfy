/** `runBackendStdioServer`: the admission loop with its in-flight bound and duplicate check,
    the tasks it starts and the tail-chained writer they share. */
module ServerLoop {
  import opened Common

  type Id = string
  type JobId = nat  // one call of handleLine

  /** What the server learns of a framed line; a line that parses carries the id it shows. */
  datatype InputLine = Blank | Malformed(rawId: Option<Id>) | Parsed(id: Option<Id>, stream: bool)

  function ShownId(line: InputLine): Option<Id> {
    match line
    case Blank => None
    case Malformed(rawId) => rawId
    case Parsed(id, _) => id
  }

  datatype JobState = Working | Sending(last: bool) | Done

  /** `id` is the id the job has registered. */
  datatype Job = Job(id: Option<Id>, stream: bool, state: JobState)

  /** `last` marks the terminal frame of a job: its response, or the terminal event of a stream. */
  datatype Frame = Frame(job: JobId, id: Option<Id>, last: bool)

  datatype Loop = Reading | AwaitingSlot(line: InputLine) | Ended

  /** `queue` is the writer's tail with the frame in flight at its head; `asked` is the history of
      the calls of `writeJson`, `out` that of the frames handed to the output, and `received` that of
      the lines the loop took from its input. */
  datatype Server = Server(
    loop: Loop, correlationViolation: bool, usable: bool, activeIds: set<Id>, tasks: set<JobId>,
    jobs: seq<Job>, queue: seq<Frame>, inFlight: bool, asked: seq<Frame>, out: seq<Frame>, received: seq<InputLine>)

  const INITIAL := Server(Reading, false, true, {}, {}, [], [], false, [], [], [])

  // ---------- the steps ----------

  predicate StopsAdmission(s: Server) {
    s.correlationViolation || !s.usable
  }

  function LineReceived(s: Server, line: InputLine): Server {
    if !s.loop.Reading? then s
    else
      var t := s.(received := s.received + [line]);
      if StopsAdmission(s) then t.(loop := Ended)
      else if line.Blank? then t
      else if ShownId(line).Some? && ShownId(line).value in s.activeIds then t.(loop := Ended, correlationViolation := true)
      else t.(loop := AwaitingSlot(line))
  }

  /** The synchronous part of `handleLine`. */
  function JobStarted(s: Server, line: InputLine): Server {
    var k := |s.jobs|;
    if ShownId(line).Some? && ShownId(line).value in s.activeIds then
      s.(correlationViolation := true, jobs := s.jobs + [Job(None, false, Done)])
    else
      match line
      case Parsed(id, stream) =>
        s.(jobs := s.jobs + [Job(id, stream, Working)], tasks := s.tasks + {k},
           activeIds := s.activeIds + if id.Some? then {id.value} else {})
      case _ =>
        s.(jobs := s.jobs + [Job(None, false, Sending(true))], tasks := s.tasks + {k},
           queue := s.queue + [Frame(k, ShownId(line), true)], asked := s.asked + [Frame(k, ShownId(line), true)])
  }

  /** The loop wakes up with room for one more task. */
  function Admitted(maxInFlight: nat, s: Server): Server {
    if !s.loop.AwaitingSlot? || |s.tasks| >= maxInFlight then s
    else if StopsAdmission(s) then s.(loop := Ended)
    else JobStarted(s.(loop := Reading), s.loop.line)
  }

  function InputEnded(s: Server): Server {
    if s.loop.Reading? then s.(loop := Ended) else s
  }

  predicate IsWorking(s: Server, k: JobId) {
    k < |s.jobs| && s.jobs[k].state.Working?
  }

  function FrameQueued(s: Server, k: JobId, last: bool): Server
    requires k < |s.jobs|
  {
    var f := Frame(k, s.jobs[k].id, last);
    s.(jobs := s.jobs[k := s.jobs[k].(state := Sending(last))], queue := s.queue + [f], asked := s.asked + [f])
  }

  function JobEnded(s: Server, k: JobId): Server
    requires k < |s.jobs|
  {
    var id := s.jobs[k].id;
    s.(jobs := s.jobs[k := s.jobs[k].(state := Done)], tasks := s.tasks - {k},
       activeIds := s.activeIds - if id.Some? then {id.value} else {})
  }

  /** The turn of the first frame of the tail; `fits` says that it encodes within the limit. */
  function WriteStarted(s: Server, fits: bool): Server {
    if s.queue == [] || s.inFlight || s.queue[0].job >= |s.jobs| then s
    else if !s.usable || !fits then JobEnded(s.(queue := s.queue[1..], usable := false), s.queue[0].job)
    else s.(inFlight := true, out := s.out + [s.queue[0]])
  }

  function WriteFinished(s: Server, ok: bool): Server {
    if s.queue == [] || !s.inFlight || s.queue[0].job >= |s.jobs| then s
    else
      var k := s.queue[0].job;
      var t := s.(queue := s.queue[1..], inFlight := false);
      if !ok then JobEnded(t.(usable := false), k)
      else if s.jobs[k].state == Sending(false) then t.(jobs := s.jobs[k := s.jobs[k].(state := Working)])
      else JobEnded(t, k)
  }

  datatype Step =
    | LineStep(line: InputLine)
    | AdmitStep
    | EndInputStep
    | RespondStep(job: JobId)      // the response, an error response, or the terminal event of a stream
    | EventStep(job: JobId)        // any other event of a stream
    | StartWriteStep(fits: bool)
    | FinishWriteStep(ok: bool)

  function Apply(maxInFlight: nat, s: Server, t: Step): Server {
    match t
    case LineStep(line) => LineReceived(s, line)
    case AdmitStep => Admitted(maxInFlight, s)
    case EndInputStep => InputEnded(s)
    case RespondStep(k) => if IsWorking(s, k) then FrameQueued(s, k, true) else s
    case EventStep(k) => if IsWorking(s, k) && s.jobs[k].stream then FrameQueued(s, k, false) else s
    case StartWriteStep(fits) => WriteStarted(s, fits)
    case FinishWriteStep(ok) => WriteFinished(s, ok)
  }

  function Run(maxInFlight: nat, s: Server, steps: seq<Step>): Server
    decreases |steps|
  {
    if steps == [] then s else Run(maxInFlight, Apply(maxInFlight, s, steps[0]), steps[1..])
  }

  // ---------- the invariant ----------

  /** How many terminal frames of a job reached the output. */
  function Sent(out: seq<Frame>, k: JobId): nat {
    if out == [] then 0
    else
      var f := out[|out| - 1];
      Sent(out[..|out| - 1], k) + if f.job == k && f.last then 1 else 0
  }

  ghost predicate TasksOk(maxInFlight: nat, s: Server) {
    && |s.tasks| <= maxInFlight
    && (forall k: JobId :: k in s.tasks <==> k < |s.jobs| && !s.jobs[k].state.Done?)
  }

  predicate Holds(jobs: seq<Job>, tasks: set<JobId>, k: JobId, x: Id) {
    k in tasks && k < |jobs| && jobs[k].id == Some(x)
  }

  /** The active ids are those that live jobs hold, each held by one of them. */
  ghost predicate IdsOk(jobs: seq<Job>, tasks: set<JobId>, activeIds: set<Id>) {
    && (forall k, x | Holds(jobs, tasks, k, x) :: x in activeIds)
    && (forall x | x in activeIds :: exists k :: Holds(jobs, tasks, k, x))
    && (forall j, k, x | Holds(jobs, tasks, j, x) && Holds(jobs, tasks, k, x) :: j == k)
  }

  /** The line that waits for a slot does not show a live id. */
  predicate WaitingOk(s: Server) {
    s.loop.AwaitingSlot? && ShownId(s.loop.line).Some? ==> ShownId(s.loop.line).value !in s.activeIds
  }

  /** A frame of a job that registered an id carries that id; only streams send more than the last. */
  predicate FrameOk(jobs: seq<Job>, f: Frame) {
    f.job < |jobs| && (jobs[f.job].id.Some? ==> f.id == jobs[f.job].id) && (!f.last ==> jobs[f.job].stream)
  }

  /** Every job that is sending has one frame in the tail, and only those. */
  ghost predicate TailOk(s: Server) {
    && (forall i | 0 <= i < |s.queue| :: FrameOk(s.jobs, s.queue[i]) && s.jobs[s.queue[i].job].state == Sending(s.queue[i].last))
    && (forall i, j | 0 <= i < j < |s.queue| :: s.queue[i].job != s.queue[j].job)
    && (s.inFlight ==> s.queue != [] && s.out != [] && s.out[|s.out| - 1] == s.queue[0])
  }

  /** The terminal frames that a job has put on the output so far. */
  ghost predicate AnswerOk(s: Server, k: JobId)
    requires k < |s.jobs|
  {
    match s.jobs[k].state
    case Working => Sent(s.out, k) == 0
    case Sending(last) => Sent(s.out, k) == if last && s.inFlight && s.queue != [] && s.queue[0].job == k then 1 else 0
    case Done => Sent(s.out, k) <= 1 && (s.usable ==> Sent(s.out, k) == 1)
  }

  ghost predicate AnswersOk(s: Server) {
    && (forall k | 0 <= k < |s.jobs| :: AnswerOk(s, k))
    && (forall i | 0 <= i < |s.out| :: FrameOk(s.jobs, s.out[i]))
  }

  /** The frames of the tail that are not yet handed to the output. */
  function Unwritten(s: Server): seq<Frame> {
    if s.inFlight && s.queue != [] then s.queue[1..] else s.queue
  }

  /** Frames reach the output in the order of the calls of `writeJson`; while the output is usable
      the rest waits in the tail. */
  ghost predicate OrderOk(s: Server) {
    && s.out <= s.asked
    && (s.usable ==> s.asked == s.out + Unwritten(s))
  }

  ghost predicate ServerInv(maxInFlight: nat, s: Server) {
    TasksOk(maxInFlight, s) && IdsOk(s.jobs, s.tasks, s.activeIds) && WaitingOk(s) && TailOk(s) && AnswersOk(s) && OrderOk(s)
  }

  // ---------- every step keeps it ----------

  lemma SentOf(out: seq<Frame>, f: Frame, k: JobId)
    ensures Sent(out + [f], k) == Sent(out, k) + if f.job == k && f.last then 1 else 0
  {
    assert (out + [f])[..|out|] == out;
  }

  lemma {:induction false} SentNone(out: seq<Frame>, k: JobId)
    requires forall i | 0 <= i < |out| :: out[i].job != k
    ensures Sent(out, k) == 0
  {
    if out != [] {
      SentNone(out[..|out| - 1], k);
    }
  }

  lemma IdsWith(jobs: seq<Job>, tasks: set<JobId>, activeIds: set<Id>, job: Job)
    requires IdsOk(jobs, tasks, activeIds) && (forall k | k in tasks :: k < |jobs|)
    requires job.id.Some? ==> job.id.value !in activeIds
    ensures IdsOk(jobs + [job], tasks + {|jobs|}, activeIds + if job.id.Some? then {job.id.value} else {})
  {
    var jobs', tasks' := jobs + [job], tasks + {|jobs|};
    forall k, x | Holds(jobs', tasks', k, x) ensures Holds(jobs, tasks, k, x) || (k == |jobs| && job.id == Some(x)) {
    }
    forall x | x in activeIds ensures exists k :: Holds(jobs', tasks', k, x) {
      var k :| Holds(jobs, tasks, k, x);
      assert Holds(jobs', tasks', k, x);
    }
    if job.id.Some? {
      assert Holds(jobs', tasks', |jobs|, job.id.value);
    }
  }

  lemma IdsMoved(jobs: seq<Job>, tasks: set<JobId>, activeIds: set<Id>, k: JobId, state: JobState)
    requires IdsOk(jobs, tasks, activeIds) && k < |jobs|
    ensures IdsOk(jobs[k := jobs[k].(state := state)], tasks, activeIds)
  {
    var jobs' := jobs[k := jobs[k].(state := state)];
    assert forall j, x :: Holds(jobs', tasks, j, x) <==> Holds(jobs, tasks, j, x);
  }

  lemma IdsWithout(jobs: seq<Job>, tasks: set<JobId>, activeIds: set<Id>, k: JobId)
    requires IdsOk(jobs, tasks, activeIds) && k in tasks && k < |jobs|
    ensures IdsOk(jobs[k := jobs[k].(state := Done)], tasks - {k}, activeIds - if jobs[k].id.Some? then {jobs[k].id.value} else {})
  {
    var jobs' := jobs[k := jobs[k].(state := Done)];
    assert forall j, x :: Holds(jobs', tasks - {k}, j, x) <==> Holds(jobs, tasks, j, x) && j != k;
    if jobs[k].id.Some? {
      assert Holds(jobs, tasks, k, jobs[k].id.value);
    }
  }

  lemma StartJobKeeps(maxInFlight: nat, s: Server)
    requires ServerInv(maxInFlight, s) && s.loop.AwaitingSlot? && |s.tasks| < maxInFlight
    ensures ServerInv(maxInFlight, JobStarted(s.(loop := Reading), s.loop.line))
  {
    hide IdsOk, TailOk, TasksOk, AnswersOk, OrderOk, JobStarted;
    StartJobTasks(maxInFlight, s);
    StartJobIds(s);
    StartJobAnswers(s);
    StartJobTail(s);
    StartJobOrder(s);
  }

  lemma StartJobIds(s: Server)
    requires IdsOk(s.jobs, s.tasks, s.activeIds) && WaitingOk(s) && s.loop.AwaitingSlot? && (forall k | k in s.tasks :: k < |s.jobs|)
    ensures var t := JobStarted(s.(loop := Reading), s.loop.line); IdsOk(t.jobs, t.tasks, t.activeIds) && WaitingOk(t)
  {
    hide IdsOk;
    var t := JobStarted(s.(loop := Reading), s.loop.line);
    IdsWith(s.jobs, s.tasks, s.activeIds, t.jobs[|s.jobs|]);
    assert t.activeIds + {} == t.activeIds && s.activeIds + {} == s.activeIds;
  }

  lemma StartJobOrder(s: Server)
    requires TailOk(s) && OrderOk(s) && s.loop.AwaitingSlot?
    ensures OrderOk(JobStarted(s.(loop := Reading), s.loop.line))
  {
    hide FrameOk;
  }

  lemma StartJobAnswers(s: Server)
    requires TailOk(s) && AnswersOk(s) && s.loop.AwaitingSlot? && WaitingOk(s)
    ensures AnswersOk(JobStarted(s.(loop := Reading), s.loop.line))
  {
    hide Sent;
    var t := JobStarted(s.(loop := Reading), s.loop.line);
    SentNone(s.out, |s.jobs|);
    forall k | 0 <= k < |s.jobs| ensures AnswerOk(t, k) {
      assert AnswerOk(s, k);
    }
    StartJobTail(s);
  }

  lemma StartJobTasks(maxInFlight: nat, s: Server)
    requires TasksOk(maxInFlight, s) && WaitingOk(s) && s.loop.AwaitingSlot? && |s.tasks| < maxInFlight
    ensures TasksOk(maxInFlight, JobStarted(s.(loop := Reading), s.loop.line)) && forall k | k in s.tasks :: k < |s.jobs|
  {
    hide Holds;
    var t := JobStarted(s.(loop := Reading), s.loop.line);
    assert |s.jobs| !in s.tasks;
    assert t.tasks == s.tasks + {|s.jobs|};
    forall k: JobId ensures k in t.tasks <==> k < |t.jobs| && !t.jobs[k].state.Done? {
      assert k in s.tasks <==> k < |s.jobs| && !s.jobs[k].state.Done?;
    }
  }

  lemma StartJobTail(s: Server)
    requires TailOk(s) && AnswersOk(s) && s.loop.AwaitingSlot? && WaitingOk(s)
    ensures var t := JobStarted(s.(loop := Reading), s.loop.line);
      TailOk(t) && forall i | 0 <= i < |t.out| :: FrameOk(t.jobs, t.out[i])
  {
    hide AnswerOk;
  }

  lemma SendKeeps(maxInFlight: nat, s: Server, k: JobId, last: bool)
    requires ServerInv(maxInFlight, s) && IsWorking(s, k) && (last || s.jobs[k].stream)
    ensures ServerInv(maxInFlight, FrameQueued(s, k, last))
  {
    hide IdsOk, Sent;
    var t := FrameQueued(s, k, last);
    IdsMoved(s.jobs, s.tasks, s.activeIds, k, Sending(last));
    forall j | 0 <= j < |t.jobs| ensures AnswerOk(t, j) {
      assert AnswerOk(s, j);
    }
  }

  /** A job may end once its frame has left the tail, unless the output failed. */
  lemma EndJobKeeps(maxInFlight: nat, s: Server, k: JobId)
    requires TasksOk(maxInFlight, s) && IdsOk(s.jobs, s.tasks, s.activeIds) && WaitingOk(s) && TailOk(s)
    requires k < |s.jobs| && !s.jobs[k].state.Done?
    requires forall i | 0 <= i < |s.queue| :: s.queue[i].job != k
    requires forall j | 0 <= j < |s.jobs| && j != k :: AnswerOk(s, j)
    requires forall i | 0 <= i < |s.out| :: FrameOk(s.jobs, s.out[i])
    requires Sent(s.out, k) <= 1 && (s.usable ==> Sent(s.out, k) == 1)
    requires OrderOk(s)
    ensures ServerInv(maxInFlight, JobEnded(s, k))
  {
    hide IdsOk, Sent, TasksOk, TailOk;
    var t := JobEnded(s, k);
    EndJobTasks(maxInFlight, s, k);
    IdsWithout(s.jobs, s.tasks, s.activeIds, k);
    EndJobTail(s, k);
    assert WaitingOk(t);
    forall j | 0 <= j < |t.jobs| ensures AnswerOk(t, j) {
      assert j != k ==> AnswerOk(s, j);
    }
  }

  lemma EndJobTasks(maxInFlight: nat, s: Server, k: JobId)
    requires TasksOk(maxInFlight, s) && k < |s.jobs| && !s.jobs[k].state.Done?
    ensures TasksOk(maxInFlight, JobEnded(s, k)) && k in s.tasks
  {
    assert s.tasks == (s.tasks - {k}) + {k};
  }

  lemma EndJobTail(s: Server, k: JobId)
    requires TailOk(s) && k < |s.jobs|
    requires forall i | 0 <= i < |s.queue| :: s.queue[i].job != k
    requires forall i | 0 <= i < |s.out| :: FrameOk(s.jobs, s.out[i])
    ensures TailOk(JobEnded(s, k)) && forall i | 0 <= i < |s.out| :: FrameOk(JobEnded(s, k).jobs, s.out[i])
  {
  }

  lemma StartWriteKeeps(maxInFlight: nat, s: Server, fits: bool)
    requires ServerInv(maxInFlight, s)
    ensures ServerInv(maxInFlight, WriteStarted(s, fits))
  {
    if s.queue != [] && !s.inFlight {
      var k := s.queue[0].job;
      assert AnswerOk(s, k);
      if !s.usable || !fits {
        var t := s.(queue := s.queue[1..], usable := false);
        forall j | 0 <= j < |t.jobs| && j != k ensures AnswerOk(t, j) {
          assert AnswerOk(s, j);
        }
        EndJobKeeps(maxInFlight, t, k);
      } else {
        var t := WriteStarted(s, fits);
        forall j | 0 <= j < |t.jobs| ensures AnswerOk(t, j) {
          assert AnswerOk(s, j);
          SentOf(s.out, s.queue[0], j);
        }
      }
    }
  }

  lemma FinishWriteKeeps(maxInFlight: nat, s: Server, ok: bool)
    requires ServerInv(maxInFlight, s)
    ensures ServerInv(maxInFlight, WriteFinished(s, ok))
  {
    if s.queue != [] && s.inFlight {
      var k := s.queue[0].job;
      var t := s.(queue := s.queue[1..], inFlight := false, usable := s.usable && ok);
      forall j | 0 <= j < |t.jobs| && j != k ensures AnswerOk(t, j) {
        assert AnswerOk(s, j);
      }
      assert AnswerOk(s, k);
      if ok && s.jobs[k].state == Sending(false) {
        ResumeKeeps(maxInFlight, s);
      } else {
        EndJobKeeps(maxInFlight, t, k);
        assert WriteFinished(s, ok) == JobEnded(t, k);
      }
    }
  }

  lemma ResumeKeeps(maxInFlight: nat, s: Server)
    requires ServerInv(maxInFlight, s) && s.queue != [] && s.inFlight && s.jobs[s.queue[0].job].state == Sending(false)
    ensures ServerInv(maxInFlight, WriteFinished(s, true))
  {
    var t := WriteFinished(s, true);
    var k := s.queue[0].job;
    hide IdsOk, Sent;
    IdsMoved(s.jobs, s.tasks, s.activeIds, k, Working);
    forall j | 0 <= j < |t.jobs| ensures AnswerOk(t, j) {
      assert AnswerOk(s, j);
    }
  }

  lemma LoopKeeps(maxInFlight: nat, s: Server, loop: Loop, violation: bool, received: seq<InputLine>)
    requires ServerInv(maxInFlight, s)
    requires loop.AwaitingSlot? && ShownId(loop.line).Some? ==> ShownId(loop.line).value !in s.activeIds
    ensures ServerInv(maxInFlight, s.(loop := loop, correlationViolation := violation, received := received))
  {
    var t := s.(loop := loop, correlationViolation := violation, received := received);
    forall k | 0 <= k < |t.jobs| ensures AnswerOk(t, k) {
      assert AnswerOk(s, k);
    }
  }

  lemma ApplyKeeps(maxInFlight: nat, s: Server, t: Step)
    requires ServerInv(maxInFlight, s)
    ensures ServerInv(maxInFlight, Apply(maxInFlight, s, t))
  {
    hide WriteStarted, WriteFinished, JobStarted, FrameQueued, AnswersOk;
    match t
    case LineStep(line) =>
      if s.loop.Reading? {
        var u := LineReceived(s, line);
        LoopKeeps(maxInFlight, s, u.loop, u.correlationViolation, u.received);
      }
    case AdmitStep =>
      if s.loop.AwaitingSlot? && |s.tasks| < maxInFlight {
        if StopsAdmission(s) {
          LoopKeeps(maxInFlight, s, Ended, s.correlationViolation, s.received);
        } else {
          StartJobKeeps(maxInFlight, s);
        }
      }
    case EndInputStep => LoopKeeps(maxInFlight, s, InputEnded(s).loop, s.correlationViolation, s.received);
    case RespondStep(k) =>
      if IsWorking(s, k) {
        SendKeeps(maxInFlight, s, k, true);
      }
    case EventStep(k) =>
      if IsWorking(s, k) && s.jobs[k].stream {
        SendKeeps(maxInFlight, s, k, false);
      }
    case StartWriteStep(fits) => StartWriteKeeps(maxInFlight, s, fits);
    case FinishWriteStep(ok) => FinishWriteKeeps(maxInFlight, s, ok);
  }

  lemma {:induction false} RunKeeps(maxInFlight: nat, s: Server, steps: seq<Step>)
    requires ServerInv(maxInFlight, s)
    ensures ServerInv(maxInFlight, Run(maxInFlight, s, steps))
    decreases |steps|
  {
    hide Apply, ServerInv;
    if steps != [] {
      ApplyKeeps(maxInFlight, s, steps[0]);
      RunKeeps(maxInFlight, Apply(maxInFlight, s, steps[0]), steps[1..]);
    }
  }

  // ---------- what becomes of the lines ----------

  function Requests(lines: seq<InputLine>): seq<InputLine> {
    if lines == [] then []
    else
      var last := lines[|lines| - 1];
      Requests(lines[..|lines| - 1]) + if last.Blank? then [] else [last]
  }

  lemma RequestsAppend(lines: seq<InputLine>, line: InputLine)
    ensures Requests(lines + [line]) == Requests(lines) + if line.Blank? then [] else [line]
  {
    assert (lines + [line])[..|lines|] == lines;
  }

  /** The job is that of the line: its id and kind, or the answer to a line that does not parse. */
  predicate JobOf(job: Job, line: InputLine) {
    match line
    case Blank => false
    case Malformed(_) => job.id.None? && !job.stream && !job.state.Working?
    case Parsed(id, stream) => job.id == id && job.stream == stream
  }

  /** The jobs are the lines received, in order and one each, but for one that waits or ended the loop. */
  ghost predicate LinesOk(s: Server) {
    var lines := Requests(s.received);
    && |s.jobs| <= |lines| <= |s.jobs| + 1
    && (forall k | 0 <= k < |s.jobs| :: JobOf(s.jobs[k], lines[k]))
    && (s.loop.Reading? ==> |lines| == |s.jobs|)
    && (s.loop.AwaitingSlot? ==> |lines| == |s.jobs| + 1 && lines[|s.jobs|] == s.loop.line)
    && (forall i | 0 <= i < |s.asked| :: s.asked[i].job < |s.jobs| && s.asked[i].id == ShownId(lines[s.asked[i].job]))
  }

  /** The terminal frames a job has asked for. */
  ghost predicate AskedOk(s: Server, k: JobId)
    requires k < |s.jobs|
  {
    match s.jobs[k].state
    case Working => Sent(s.asked, k) == 0
    case Sending(last) => Sent(s.asked, k) == (if last then 1 else 0) && exists i :: 0 <= i < |s.queue| && s.queue[i].job == k
    case Done => Sent(s.asked, k) <= 1 && (!s.jobs[k].stream || s.usable ==> Sent(s.asked, k) == 1)
  }

  ghost predicate HistoryOk(s: Server) {
    LinesOk(s) && (forall k | 0 <= k < |s.jobs| :: AskedOk(s, k)) && (forall i | 0 <= i < |s.asked| :: FrameOk(s.jobs, s.asked[i]))
  }

  lemma ReceivedKeepsHistory(s: Server, line: InputLine)
    requires HistoryOk(s)
    ensures HistoryOk(LineReceived(s, line))
  {
    hide Sent, FrameOk, JobOf;
    RequestsAppend(s.received, line);
    var t := LineReceived(s, line);
    forall k | 0 <= k < |t.jobs| ensures AskedOk(t, k) {
      assert AskedOk(s, k);
    }
  }

  lemma StartedKeepsLines(s: Server)
    requires LinesOk(s) && WaitingOk(s) && s.loop.AwaitingSlot?
    ensures LinesOk(JobStarted(s.(loop := Reading), s.loop.line))
  {
    hide Requests;
    RequestsNotBlank(s.received);
  }

  lemma StartedAsks(s: Server, k: JobId)
    requires k < |s.jobs| && AskedOk(s, k) && WaitingOk(s) && s.loop.AwaitingSlot?
    ensures AskedOk(JobStarted(s.(loop := Reading), s.loop.line), k)
  {
    hide Sent;
    var t := JobStarted(s.(loop := Reading), s.loop.line);
    SentOf(s.asked, Frame(|s.jobs|, ShownId(s.loop.line), true), k);
    if s.jobs[k].state.Sending? {
      var i :| 0 <= i < |s.queue| && s.queue[i].job == k;
      assert t.queue[i].job == k;
    }
  }

  lemma StartedKeepsHistory(s: Server)
    requires HistoryOk(s) && WaitingOk(s) && s.loop.AwaitingSlot?
    ensures HistoryOk(JobStarted(s.(loop := Reading), s.loop.line))
  {
    hide Sent, LinesOk, AskedOk, ShownId;
    var t, n := JobStarted(s.(loop := Reading), s.loop.line), |s.jobs|;
    StartedKeepsLines(s);
    AskedInRange(s);
    SentNone(s.asked, n);
    RequestsNotBlank(s.received);
    forall k | 0 <= k < |t.jobs| ensures AskedOk(t, k) {
      if k < n {
        StartedAsks(s, k);
      } else {
        NewJobAsks(s);
      }
    }
  }

  lemma AskedInRange(s: Server)
    requires LinesOk(s)
    ensures forall i | 0 <= i < |s.asked| :: s.asked[i].job < |s.jobs|
    ensures s.loop.AwaitingSlot? ==> !s.loop.line.Blank?
  {
    RequestsNotBlank(s.received);
  }

  lemma NewJobAsks(s: Server)
    requires Sent(s.asked, |s.jobs|) == 0 && WaitingOk(s) && s.loop.AwaitingSlot? && !s.loop.line.Blank?
    ensures AskedOk(JobStarted(s.(loop := Reading), s.loop.line), |s.jobs|)
  {
    hide Sent;
    var t, n := JobStarted(s.(loop := Reading), s.loop.line), |s.jobs|;
    SentOf(s.asked, Frame(n, ShownId(s.loop.line), true), n);
    if s.loop.line.Malformed? {
      assert t.queue[|s.queue|].job == n;
    }
  }

  lemma {:induction false} RequestsNotBlank(lines: seq<InputLine>)
    ensures forall i | 0 <= i < |Requests(lines)| :: !Requests(lines)[i].Blank?
    decreases |lines|
  {
    if lines != [] {
      RequestsNotBlank(lines[..|lines| - 1]);
    }
  }

  lemma QueuedKeepsHistory(s: Server, k: JobId, last: bool)
    requires HistoryOk(s) && IsWorking(s, k) && (last || s.jobs[k].stream)
    ensures HistoryOk(FrameQueued(s, k, last))
  {
    hide Requests, Sent;
    var t := FrameQueued(s, k, last);
    var f := Frame(k, s.jobs[k].id, last);
    assert JobOf(s.jobs[k], Requests(s.received)[k]);
    forall j | 0 <= j < |t.jobs| ensures AskedOk(t, j) {
      assert AskedOk(s, j);
      SentOf(s.asked, f, j);
      if j == k {
        assert t.queue[|s.queue|].job == k;
      } else if s.jobs[j].state.Sending? {
        var i :| 0 <= i < |s.queue| && s.queue[i].job == j;
        assert t.queue[i].job == j;
      }
    }
  }

  /** The head of the tail goes, and its job goes on or ends. */
  lemma PoppedKeepsHistory(s: Server, t: Server, state: JobState)
    requires HistoryOk(s) && TailOk(s) && s.queue != []
    requires var k := s.queue[0].job;
      && t.jobs == s.jobs[k := s.jobs[k].(state := state)] && t.queue == s.queue[1..]
      && t.asked == s.asked && t.received == s.received && t.loop == s.loop && (t.usable ==> s.usable)
      && ((state.Working? && !s.queue[0].last) || (state.Done? && (t.usable ==> s.queue[0].last)))
    ensures HistoryOk(t)
  {
    hide Requests, Sent;
    var k := s.queue[0].job;
    assert FrameOk(s.jobs, s.queue[0]) && AskedOk(s, k) && JobOf(s.jobs[k], Requests(s.received)[k]);
    forall j | 0 <= j < |t.jobs| ensures AskedOk(t, j) {
      assert AskedOk(s, j);
      if j != k && s.jobs[j].state.Sending? {
        var i :| 0 <= i < |s.queue| && s.queue[i].job == j;
        assert t.queue[i - 1].job == j;
      }
    }
  }

  lemma FlagsKeepHistory(s: Server, t: Server)
    requires HistoryOk(s)
    requires t == s.(inFlight := t.inFlight, out := t.out, loop := t.loop, tasks := t.tasks, activeIds := t.activeIds)
    requires t.loop == s.loop || t.loop.Ended?
    ensures HistoryOk(t)
  {
    hide Requests, Sent, FrameOk, JobOf;
    forall k | 0 <= k < |t.jobs| ensures AskedOk(t, k) {
      assert AskedOk(s, k);
    }
  }

  lemma ApplyKeepsHistory(maxInFlight: nat, s: Server, t: Step)
    requires ServerInv(maxInFlight, s) && HistoryOk(s)
    ensures HistoryOk(Apply(maxInFlight, s, t))
  {
    hide HistoryOk, AnswersOk, IdsOk, TasksOk, OrderOk;
    var u := Apply(maxInFlight, s, t);
    match t
    case LineStep(line) => ReceivedKeepsHistory(s, line);
    case AdmitStep =>
      if s.loop.AwaitingSlot? && |s.tasks| < maxInFlight {
        if StopsAdmission(s) { FlagsKeepHistory(s, u); } else { StartedKeepsHistory(s); }
      }
    case EndInputStep => FlagsKeepHistory(s, u);
    case RespondStep(k) => if IsWorking(s, k) { QueuedKeepsHistory(s, k, true); }
    case EventStep(k) => if IsWorking(s, k) && s.jobs[k].stream { QueuedKeepsHistory(s, k, false); }
    case StartWriteStep(fits) =>
      if s.queue != [] && !s.inFlight {
        if !s.usable || !fits { PoppedKeepsHistory(s, u, Done); } else { FlagsKeepHistory(s, u); }
      }
    case FinishWriteStep(ok) =>
      if s.queue != [] && s.inFlight {
        PoppedKeepsHistory(s, u, if ok && s.jobs[s.queue[0].job].state == Sending(false) then Working else Done);
      }
  }

  lemma {:induction false} RunKeepsHistory(maxInFlight: nat, s: Server, steps: seq<Step>)
    requires ServerInv(maxInFlight, s) && HistoryOk(s)
    ensures ServerInv(maxInFlight, Run(maxInFlight, s, steps)) && HistoryOk(Run(maxInFlight, s, steps))
    decreases |steps|
  {
    hide Apply, ServerInv, HistoryOk;
    if steps != [] {
      ApplyKeeps(maxInFlight, s, steps[0]);
      ApplyKeepsHistory(maxInFlight, s, steps[0]);
      RunKeepsHistory(maxInFlight, Apply(maxInFlight, s, steps[0]), steps[1..]);
    }
  }

  // ---------- what holds on every run ----------

  /** Never more tasks than the limit; the active ids are exactly those the live tasks have
      registered, and no two live tasks share one. */
  lemma LiveIdsAreUnique(maxInFlight: nat, steps: seq<Step>)
    ensures var s := Run(maxInFlight, INITIAL, steps);
      && |s.tasks| <= maxInFlight
      && (forall x: Id :: x in s.activeIds <==> exists k :: Holds(s.jobs, s.tasks, k, x))
      && (forall j, k, x | Holds(s.jobs, s.tasks, j, x) && Holds(s.jobs, s.tasks, k, x) :: j == k)
  {
    hide Run;
    RunKeeps(maxInFlight, INITIAL, steps);
  }

  /** Every accepted request gets at most one terminal frame, and exactly one by the time its task
      has ended, as long as the output is usable; a request other than a stream gets no other frame.
      All its frames carry its own id. A line that reused that id while it was live changes nothing
      of this. */
  lemma AnsweredOnce(maxInFlight: nat, steps: seq<Step>, k: JobId)
    requires k < |Run(maxInFlight, INITIAL, steps).jobs|
    ensures var s := Run(maxInFlight, INITIAL, steps);
      Sent(s.out, k) <= 1 && (s.usable && k !in s.tasks ==> Sent(s.out, k) == 1)
    ensures var s := Run(maxInFlight, INITIAL, steps);
      forall i | 0 <= i < |s.out| && s.out[i].job == k ::
        (s.jobs[k].id.Some? ==> s.out[i].id == s.jobs[k].id) && (!s.jobs[k].stream ==> s.out[i].last)
  {
    hide Run;
    RunKeeps(maxInFlight, INITIAL, steps);
    var s := Run(maxInFlight, INITIAL, steps);
    assert AnswerOk(s, k);
    assert forall i | 0 <= i < |s.out| :: FrameOk(s.jobs, s.out[i]);
  }

  /** No line is swallowed: the jobs are the non-blank lines that were received, in order and one each,
      with the id and the kind of their lines; only one line more may have come, which waits for a slot
      or ended the loop. A request's id is active until its task ends. */
  lemma JobsAreTheLines(maxInFlight: nat, steps: seq<Step>)
    ensures var s := Run(maxInFlight, INITIAL, steps); var lines := Requests(s.received);
      && |s.jobs| <= |lines| <= |s.jobs| + 1
      && (s.loop.Reading? ==> |lines| == |s.jobs|)
      && (s.loop.AwaitingSlot? ==> |lines| == |s.jobs| + 1 && lines[|s.jobs|] == s.loop.line)
      && (forall k | 0 <= k < |s.jobs| :: JobOf(s.jobs[k], lines[k]))
      && (forall k | 0 <= k < |s.jobs| && lines[k].Parsed? && lines[k].id.Some? :: k in s.tasks ==> lines[k].id.value in s.activeIds)
  {
    hide Run, Requests;
    InitialHistory(maxInFlight);
    RunKeepsHistory(maxInFlight, INITIAL, steps);
    var s := Run(maxInFlight, INITIAL, steps);
    forall k | 0 <= k < |s.jobs| && Requests(s.received)[k].Parsed? && Requests(s.received)[k].id.Some? && k in s.tasks
      ensures Requests(s.received)[k].id.value in s.activeIds
    {
      assert JobOf(s.jobs[k], Requests(s.received)[k]);
      assert Holds(s.jobs, s.tasks, k, Requests(s.received)[k].id.value);
    }
  }

  lemma InitialHistory(maxInFlight: nat)
    ensures ServerInv(maxInFlight, INITIAL) && HistoryOk(INITIAL)
  {
  }

  /** A line that does not parse is answered, once, with a terminal frame that carries the id it
      shows; and whatever a job asks for carries the id its line shows. */
  lemma MalformedIsAnswered(maxInFlight: nat, steps: seq<Step>, k: JobId)
    requires k < |Run(maxInFlight, INITIAL, steps).jobs|
    ensures var s := Run(maxInFlight, INITIAL, steps); var lines := Requests(s.received);
      && k < |lines|
      && (lines[k].Malformed? ==> Sent(s.asked, k) == 1)
      && (forall i | 0 <= i < |s.asked| && s.asked[i].job == k ::
            s.asked[i].id == ShownId(lines[k]) && (lines[k].Malformed? ==> s.asked[i].last))
  {
    hide Run, Requests, Sent;
    InitialHistory(maxInFlight);
    RunKeepsHistory(maxInFlight, INITIAL, steps);
    var s := Run(maxInFlight, INITIAL, steps);
    assert JobOf(s.jobs[k], Requests(s.received)[k]) && AskedOk(s, k);
    if Requests(s.received)[k].Malformed? && s.jobs[k].state.Sending? {
      var i :| 0 <= i < |s.queue| && s.queue[i].job == k;
      assert FrameOk(s.jobs, s.queue[i]);
    }
    forall i | 0 <= i < |s.asked| && s.asked[i].job == k && Requests(s.received)[k].Malformed? ensures s.asked[i].last {
      assert FrameOk(s.jobs, s.asked[i]);
    }
  }

  /** A line that may be admitted waits for a slot, and gets its job as soon as the loop wakes with
      room: a task of its own, under its id, and the loop reads on. */
  lemma WaitingLineStarts(maxInFlight: nat, steps: seq<Step>)
    requires var s := Run(maxInFlight, INITIAL, steps); s.loop.AwaitingSlot? && |s.tasks| < maxInFlight && !StopsAdmission(s)
    ensures var s := Run(maxInFlight, INITIAL, steps); var t := Apply(maxInFlight, s, AdmitStep); var k := |s.jobs|;
      && |t.jobs| == k + 1 && t.jobs[..k] == s.jobs && JobOf(t.jobs[k], s.loop.line)
      && t.tasks == s.tasks + {k} && t.loop.Reading?
      && (s.loop.line.Parsed? ==>
            t.jobs[k].state.Working? && t.activeIds == s.activeIds + (if s.loop.line.id.Some? then {s.loop.line.id.value} else {}))
      && (s.loop.line.Malformed? ==> t.queue == s.queue + [Frame(k, s.loop.line.rawId, true)])
  {
    hide Run, Requests;
    InitialHistory(maxInFlight);
    RunKeepsHistory(maxInFlight, INITIAL, steps);
    var s := Run(maxInFlight, INITIAL, steps);
    RequestsNotBlank(s.received);
  }

  /** A line ends the loop's wait for input with a wait for a slot, unless it is blank, shows a live id
      or comes after admission has stopped. */
  lemma LineWaitsIff(maxInFlight: nat, s: Server, line: InputLine)
    requires s.loop.Reading?
    ensures Apply(maxInFlight, s, LineStep(line)).loop == AwaitingSlot(line) <==>
              !line.Blank? && s.usable && !s.correlationViolation && (ShownId(line).Some? ==> ShownId(line).value !in s.activeIds)
  {
  }

  /** A working task asks for its frame; a frame whose turn comes is handed out if it fits, and the output
      is given up if it does not or is not taken. A frame that was taken ends its task if it was the last
      one, and lets a stream go on otherwise. */
  lemma FramesMove(maxInFlight: nat, steps: seq<Step>, k: JobId, fits: bool, ok: bool)
    ensures var s := Run(maxInFlight, INITIAL, steps);
      && (IsWorking(s, k) ==> var t := Apply(maxInFlight, s, RespondStep(k));
            t.asked == s.asked + [Frame(k, s.jobs[k].id, true)] && t.queue == s.queue + [Frame(k, s.jobs[k].id, true)])
      && (IsWorking(s, k) && s.jobs[k].stream ==>
            Apply(maxInFlight, s, EventStep(k)).asked == s.asked + [Frame(k, s.jobs[k].id, false)])
      && (s.queue != [] && !s.inFlight ==>
            var t := Apply(maxInFlight, s, StartWriteStep(fits)); var j := s.queue[0].job;
            if s.usable && fits then t.inFlight && t.out == s.out + [s.queue[0]] && t.usable && t.queue == s.queue
            else !t.usable && t.out == s.out && t.queue == s.queue[1..] && j < |t.jobs| && t.jobs[j].state.Done?)
      && (s.inFlight ==>
            && s.queue != []
            && var t := Apply(maxInFlight, s, FinishWriteStep(ok)); var f := s.queue[0];
            && !t.inFlight && t.queue == s.queue[1..] && t.usable == (s.usable && ok) && t.out == s.out
            && f.job < |t.jobs| && t.jobs[f.job].state == (if ok && !f.last then Working else Done))
  {
    hide Run, Requests, Sent, IdsOk;
    InitialHistory(maxInFlight);
    RunKeepsHistory(maxInFlight, INITIAL, steps);
    var s := Run(maxInFlight, INITIAL, steps);
    if s.queue != [] {
      assert FrameOk(s.jobs, s.queue[0]);
    }
  }

  // ---------- every request can be answered ----------

  lemma {:induction false} RunAppend(maxInFlight: nat, s: Server, a: seq<Step>, b: seq<Step>)
    ensures Run(maxInFlight, s, a + b) == Run(maxInFlight, Run(maxInFlight, s, a), b)
    decreases |a|
  {
    hide Apply;
    if a == [] {
      assert a + b == b;
    } else {
      assert (a + b)[1..] == a[1..] + b;
      RunAppend(maxInFlight, Apply(maxInFlight, s, a[0]), a[1..], b);
    }
  }

  /** With an output that takes what it is given, the head of the tail gets out. */
  lemma HeadGetsOut(maxInFlight: nat, s: Server) returns (steps: seq<Step>)
    requires ServerInv(maxInFlight, s) && HistoryOk(s) && s.usable && s.queue != []
    ensures var t := Run(maxInFlight, s, steps);
      && ServerInv(maxInFlight, t) && HistoryOk(t) && t.usable && t.queue == s.queue[1..] && |t.jobs| == |s.jobs|
  {
    hide ServerInv, HistoryOk, JobEnded;
    var first := if s.inFlight then s else Apply(maxInFlight, s, StartWriteStep(true));
    HeadIsReady(maxInFlight, s);
    steps := (if s.inFlight then [] else [StartWriteStep(true)]) + [FinishWriteStep(true)];
    RunKeepsHistory(maxInFlight, s, steps);
    assert first.inFlight && first.queue == s.queue && first.jobs == s.jobs && first.usable;
    var t := Apply(maxInFlight, first, FinishWriteStep(true));
    EndedKeepsQueue(first);
    RunOne(maxInFlight, first, FinishWriteStep(true));
    if s.inFlight {
      assert steps == [FinishWriteStep(true)];
    } else {
      RunOne(maxInFlight, s, StartWriteStep(true));
      RunAppend(maxInFlight, s, [StartWriteStep(true)], [FinishWriteStep(true)]);
    }
  }

  lemma HeadIsReady(maxInFlight: nat, s: Server)
    requires ServerInv(maxInFlight, s) && s.queue != []
    ensures s.queue[0].job < |s.jobs|
  {
    assert FrameOk(s.jobs, s.queue[0]);
  }

  lemma EndedKeepsQueue(s: Server)
    ensures forall k | 0 <= k < |s.jobs| :: JobEnded(s, k).queue == s.queue && |JobEnded(s, k).jobs| == |s.jobs| && JobEnded(s, k).usable == s.usable
    ensures forall q, k | 0 <= k < |s.jobs| ::
              var t := JobEnded(s.(queue := q, inFlight := false), k); t.queue == q && |t.jobs| == |s.jobs| && t.usable == s.usable
  {
  }

  lemma {:induction false} TailDrains(maxInFlight: nat, s: Server) returns (steps: seq<Step>)
    requires ServerInv(maxInFlight, s) && HistoryOk(s) && s.usable
    ensures var t := Run(maxInFlight, s, steps);
      && ServerInv(maxInFlight, t) && HistoryOk(t) && t.usable && t.queue == [] && |t.jobs| == |s.jobs|
    decreases |s.queue|
  {
    hide ServerInv, HistoryOk, Run;
    if s.queue == [] {
      steps := [];
      RunNothing(maxInFlight, s);
    } else {
      var first := HeadGetsOut(maxInFlight, s);
      var rest := TailDrains(maxInFlight, Run(maxInFlight, s, first));
      steps := first + rest;
      RunAppend(maxInFlight, s, first, rest);
    }
  }

  lemma RunNothing(maxInFlight: nat, s: Server)
    ensures Run(maxInFlight, s, []) == s
  {
  }

  /** Nothing can block an answer for ever: from every state of every run in which the output is usable,
      each accepted request can still be answered without any new input, and then has its one terminal
      frame on the output. */
  lemma EveryRequestCanBeAnswered(maxInFlight: nat, before: seq<Step>, k: JobId) returns (after: seq<Step>)
    requires Run(maxInFlight, INITIAL, before).usable && k < |Run(maxInFlight, INITIAL, before).jobs|
    ensures var t := Run(maxInFlight, Run(maxInFlight, INITIAL, before), after);
      t.usable && k < |t.jobs| && t.jobs[k].state.Done? && Sent(t.out, k) == 1
  {
    hide Run, ServerInv, HistoryOk, Sent;
    var s := Run(maxInFlight, INITIAL, before);
    InitialHistory(maxInFlight);
    RunKeepsHistory(maxInFlight, INITIAL, before);
    var drain := TailDrains(maxInFlight, s);
    var t := Run(maxInFlight, s, drain);
    NothingSending(maxInFlight, t, k);
    if t.jobs[k].state.Working? {
      var u := Apply(maxInFlight, t, RespondStep(k));
      ApplyKeeps(maxInFlight, t, RespondStep(k));
      ApplyKeepsHistory(maxInFlight, t, RespondStep(k));
      var rest := TailDrains(maxInFlight, u);
      after := drain + ([RespondStep(k)] + rest);
      RunAppend(maxInFlight, s, drain, [RespondStep(k)] + rest);
      RunAppend(maxInFlight, t, [RespondStep(k)], rest);
      RunOne(maxInFlight, t, RespondStep(k));
      var v := Run(maxInFlight, u, rest);
      NothingSending(maxInFlight, v, k);
      AnsweredStays(maxInFlight, u, rest, k);
    } else {
      after := drain;
    }
  }

  lemma RunOne(maxInFlight: nat, s: Server, t: Step)
    ensures Run(maxInFlight, s, [t]) == Apply(maxInFlight, s, t)
  {
    hide Apply;
  }

  lemma NothingSending(maxInFlight: nat, s: Server, k: JobId)
    requires ServerInv(maxInFlight, s) && HistoryOk(s) && s.queue == [] && s.usable && k < |s.jobs|
    ensures !s.jobs[k].state.Sending?
    ensures s.jobs[k].state.Done? ==> Sent(s.out, k) == 1
    ensures s.jobs[k].state.Working? ==> Sent(s.asked, k) == 0
  {
    assert AskedOk(s, k) && AnswerOk(s, k);
  }

  /** A job that has asked for its terminal frame does not work again. */
  lemma {:induction false} AnsweredStays(maxInFlight: nat, s: Server, steps: seq<Step>, k: JobId)
    requires ServerInv(maxInFlight, s) && HistoryOk(s) && k < |s.jobs| && (s.jobs[k].state == Sending(true) || s.jobs[k].state.Done?)
    ensures var t := Run(maxInFlight, s, steps); k < |t.jobs| && (t.jobs[k].state == Sending(true) || t.jobs[k].state.Done?)
    decreases |steps|
  {
    hide ServerInv, HistoryOk;
    if steps != [] {
      ApplyKeeps(maxInFlight, s, steps[0]);
      ApplyKeepsHistory(maxInFlight, s, steps[0]);
      AnsweredStays(maxInFlight, Apply(maxInFlight, s, steps[0]), steps[1..], k);
    }
  }

  /** A line that shows a live id starts no task, sends no frame, leaves the live tasks alone and
      ends admission. */
  lemma DuplicateEndsAdmission(maxInFlight: nat, s: Server, line: InputLine, steps: seq<Step>)
    requires s.loop.Reading? && !StopsAdmission(s) && !line.Blank?
    requires ShownId(line).Some? && ShownId(line).value in s.activeIds
    ensures var t := Apply(maxInFlight, s, LineStep(line));
      && t == s.(loop := Ended, correlationViolation := true, received := s.received + [line])
      && |Run(maxInFlight, t, steps).jobs| == |s.jobs|
  {
    hide Run;
    EndedAdmitsNothing(maxInFlight, s.(loop := Ended, correlationViolation := true, received := s.received + [line]), steps);
  }

  lemma {:induction false} EndedAdmitsNothing(maxInFlight: nat, s: Server, steps: seq<Step>)
    requires s.loop.Ended?
    ensures |Run(maxInFlight, s, steps).jobs| == |s.jobs|
    decreases |steps|
  {
    if steps != [] {
      assert Apply(maxInFlight, s, steps[0]).loop.Ended? && |Apply(maxInFlight, s, steps[0]).jobs| == |s.jobs|;
      EndedAdmitsNothing(maxInFlight, Apply(maxInFlight, s, steps[0]), steps[1..]);
    }
  }

  /** The duplicate checks inside `handleLine` never fire: the check before the slot covers them. */
  lemma LateChecksNeverFire(maxInFlight: nat, steps: seq<Step>)
    ensures var s := Run(maxInFlight, INITIAL, steps);
      s.loop.AwaitingSlot? && ShownId(s.loop.line).Some? ==> ShownId(s.loop.line).value !in s.activeIds
  {
    hide Run;
    RunKeeps(maxInFlight, INITIAL, steps);
  }

  /** Frames do not interleave: while one is in flight it is the last on the output and no other
      starts. */
  lemma OneFrameAtATime(maxInFlight: nat, steps: seq<Step>, fits: bool)
    ensures var s := Run(maxInFlight, INITIAL, steps);
      s.inFlight ==> s.queue != [] && s.out != [] && s.out[|s.out| - 1] == s.queue[0] && WriteStarted(s, fits) == s
  {
    hide Run;
    RunKeeps(maxInFlight, INITIAL, steps);
  }

  /** Frames reach the output in the order of the calls of `writeJson`, none twice and none skipped:
      what is on the output is a prefix of what was asked for, and while the output is usable the
      rest is what waits in the tail. */
  lemma FramesInCallOrder(maxInFlight: nat, steps: seq<Step>)
    ensures var s := Run(maxInFlight, INITIAL, steps); s.out <= s.asked && (s.usable ==> s.asked == s.out + Unwritten(s))
  {
    hide Run;
    RunKeeps(maxInFlight, INITIAL, steps);
  }

  /** After a fatal write nothing more is put on the output and nothing more is admitted. */
  lemma {:induction false} FatalIsFinal(maxInFlight: nat, s: Server, steps: seq<Step>)
    requires !s.usable
    ensures var t := Run(maxInFlight, s, steps); !t.usable && t.out == s.out && |t.jobs| == |s.jobs|
    decreases |steps|
  {
    if steps != [] {
      var t := Apply(maxInFlight, s, steps[0]);
      assert !t.usable && t.out == s.out && |t.jobs| == |s.jobs|;
      FatalIsFinal(maxInFlight, t, steps[1..]);
    }
  }

  // ---------- the server object ----------

  class StdioServer {
    const maxInFlight: nat
    var loop: Loop
    var correlationViolation: bool
    var outputUnavailable: bool
    var usable: bool
    var fatalNotified: bool
    var activeRequestIds: set<Id>
    var tasks: set<JobId>
    var jobs: seq<Job>
    var tail: seq<Frame>
    var inFlight: bool
    ghost var asked: seq<Frame>
    ghost var out: seq<Frame>
    ghost var received: seq<InputLine>

    ghost function View(): Server
      reads this
    {
      Server(loop, correlationViolation, usable, activeRequestIds, tasks, jobs, tail, inFlight, asked, out, received)
    }

    /** The three flags of a failed output agree. */
    ghost predicate Valid()
      reads this
    {
      outputUnavailable == fatalNotified == !usable
    }

    constructor (maxInFlight: nat)
      ensures Valid() && View() == INITIAL && this.maxInFlight == maxInFlight
    {
      this.maxInFlight := maxInFlight;
      loop, correlationViolation, outputUnavailable, usable, fatalNotified := Reading, false, false, true, false;
      activeRequestIds, tasks, jobs, tail, inFlight, asked, out, received := {}, {}, [], [], false, [], [], [];
    }

    /** `markFatal`, which notifies the loop once. */
    method MarkFatal()
      requires Valid()
      modifies `usable, `fatalNotified, `outputUnavailable
      ensures Valid() && !usable
    {
      usable := false;
      if fatalNotified { return; }
      fatalNotified := true;
      outputUnavailable := true;
    }

    method ReceiveLine(line: InputLine)
      requires Valid()
      modifies `loop, `correlationViolation, `received
      ensures Valid() && View() == LineReceived(old(View()), line)
    {
      if !loop.Reading? { return; }
      received := received + [line];
      if outputUnavailable || correlationViolation || !usable {
        loop := Ended;
        return;
      }
      if line.Blank? { return; }
      var preflightRequestId := ShownId(line);
      if preflightRequestId.Some? && preflightRequestId.value in activeRequestIds {
        correlationViolation := true;
        loop := Ended;
        return;
      }
      loop := AwaitingSlot(line);
    }

    method Admit()
      requires Valid()
      modifies this
      ensures Valid() && View() == Admitted(maxInFlight, old(View()))
    {
      if !loop.AwaitingSlot? || |tasks| >= maxInFlight { return; }
      if outputUnavailable || correlationViolation || !usable {
        loop := Ended;
        return;
      }
      var line := loop.line;
      loop := Reading;
      HandleLine(line);
    }

    /** `handleLine` up to its first await. */
    method HandleLine(line: InputLine)
      requires Valid()
      modifies `correlationViolation, `jobs, `tasks, `activeRequestIds, `tail, `asked
      ensures Valid() && View() == JobStarted(old(View()), line)
    {
      var k := |jobs|;
      var rawRequestId := ShownId(line);
      if rawRequestId.Some? && rawRequestId.value in activeRequestIds {
        correlationViolation := true;
        jobs := jobs + [Job(None, false, Done)];
        return;
      }
      tasks := tasks + {k};
      match line
      case Parsed(id, stream) =>
        if id.Some? {
          activeRequestIds := activeRequestIds + {id.value};
        }
        jobs := jobs + [Job(id, stream, Working)];
      case _ =>
        jobs := jobs + [Job(None, false, Sending(true))];
        tail, asked := tail + [Frame(k, rawRequestId, true)], asked + [Frame(k, rawRequestId, true)];
    }

    method EndInput()
      requires Valid()
      modifies `loop
      ensures Valid() && View() == InputEnded(old(View()))
    {
      if loop.Reading? {
        loop := Ended;
      }
    }

    /** A task hands a frame to `writeJson` and awaits it. */
    method WriteJson(k: JobId, last: bool)
      requires Valid() && k < |jobs|
      modifies `jobs, `tail, `asked
      ensures Valid() && View() == FrameQueued(old(View()), k, last)
    {
      var f := Frame(k, jobs[k].id, last);
      tail, asked := tail + [f], asked + [f];
      jobs := jobs[k := jobs[k].(state := Sending(last))];
    }

    /** The `finally` of `handleLine`, and the removal of its task. */
    method EndTask(k: JobId)
      requires Valid() && k < |jobs|
      modifies `jobs, `tasks, `activeRequestIds
      ensures Valid() && View() == JobEnded(old(View()), k)
    {
      var registeredRequestId := jobs[k].id;
      if registeredRequestId.Some? {
        activeRequestIds := activeRequestIds - {registeredRequestId.value};
      }
      tasks := tasks - {k};
      jobs := jobs[k := jobs[k].(state := Done)];
    }

    /** The continuation of `tail.then` in the writer. */
    method StartWrite(fits: bool)
      requires Valid()
      modifies this
      ensures Valid() && View() == WriteStarted(old(View()), fits)
    {
      if tail == [] || inFlight || tail[0].job >= |jobs| { return; }
      var frame := tail[0];
      if !usable || !fits {
        if usable { MarkFatal(); }
        tail := tail[1..];
        EndTask(frame.job);
      } else {
        inFlight := true;
        out := out + [frame];
      }
    }

    method FinishWrite(ok: bool)
      requires Valid()
      modifies this
      ensures Valid() && View() == WriteFinished(old(View()), ok)
    {
      if tail == [] || !inFlight || tail[0].job >= |jobs| { return; }
      var k := tail[0].job;
      tail, inFlight := tail[1..], false;
      if !ok {
        MarkFatal();
        EndTask(k);
      } else if jobs[k].state == Sending(false) {
        jobs := jobs[k := jobs[k].(state := Working)];
      } else {
        EndTask(k);
      }
    }
  }
}
