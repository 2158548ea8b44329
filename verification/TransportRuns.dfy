/** Runs of the transport: any interleaving of its steps, from its initial state. */
module TransportRuns {
  import opened TransportState
  import opened TransportSteps

  /** Every state of the trace follows from the one before it by one step. */
  ghost predicate IsRun(o: Options, trace: seq<State>, steps: seq<Step>) {
    && |trace| == |steps| + 1
    && forall i {:trigger Apply(o, trace[i], steps[i])} | 0 <= i < |steps| :: trace[i + 1] == Apply(o, trace[i], steps[i])
  }

  /** Some run leads from one state to the other. */
  ghost predicate Leads(o: Options, s: State, t: State) {
    exists trace, steps :: IsRun(o, trace, steps) && trace[0] == s && trace[|steps|] == t
  }

  ghost predicate Reachable(o: Options, s: State) {
    Leads(o, INITIAL, s)
  }

  ghost predicate Next(o: Options, s: State, step: Step, t: State) {
    IsRun(o, [s, t], [step])
  }

  lemma NextIs(o: Options, s: State, step: Step, t: State)
    ensures Next(o, s, step, t) <==> t == Apply(o, s, step)
  {
    hide Apply;
    assert [s, t][0] == s && [s, t][1] == t && [step][0] == step;
    assert Next(o, s, step, t) ==> [s, t][0 + 1] == Apply(o, [s, t][0], [step][0]);
  }

  // ---------- a run is what `Run` computes ----------

  lemma {:induction false} RunAppend(o: Options, s: State, a: seq<Step>, b: seq<Step>)
    ensures Run(o, s, a + b) == Run(o, Run(o, s, a), b)
    decreases |a|
  {
    hide Apply;
    if a == [] {
      assert a + b == b;
    } else {
      assert (a + b)[1..] == a[1..] + b;
      RunAppend(o, Apply(o, s, a[0]), a[1..], b);
    }
  }

  lemma {:induction false} RunIsRun(o: Options, s: State, steps: seq<Step>) returns (trace: seq<State>)
    ensures IsRun(o, trace, steps) && trace[0] == s && trace[|steps|] == Run(o, s, steps)
    decreases |steps|
  {
    hide Apply;
    if steps == [] {
      trace := [s];
    } else {
      var rest := RunIsRun(o, Apply(o, s, steps[0]), steps[1..]);
      trace := [s] + rest;
      forall i | 0 <= i < |steps| ensures trace[i + 1] == Apply(o, trace[i], steps[i]) {
        if i > 0 {
          assert rest[i - 1 + 1] == Apply(o, rest[i - 1], steps[1..][i - 1]);
        }
      }
    }
  }

  lemma {:induction false} IsRunRuns(o: Options, trace: seq<State>, steps: seq<Step>)
    requires IsRun(o, trace, steps)
    ensures trace[|steps|] == Run(o, trace[0], steps)
    decreases |steps|
  {
    hide Apply;
    if steps != [] {
      forall i | 0 <= i < |steps| - 1 ensures trace[1..][i + 1] == Apply(o, trace[1..][i], steps[1..][i]) {
        assert trace[i + 1 + 1] == Apply(o, trace[i + 1], steps[i + 1]);
      }
      IsRunRuns(o, trace[1..], steps[1..]);
      assert trace[0 + 1] == Apply(o, trace[0], steps[0]);
    }
  }

  /** The states a run leads to are exactly the results of running step lists. */
  lemma LeadsIffRun(o: Options, s: State, t: State)
    ensures Leads(o, s, t) <==> exists steps :: t == Run(o, s, steps)
  {
    hide Run, Apply;
    if Leads(o, s, t) {
      var trace, steps :| IsRun(o, trace, steps) && trace[0] == s && trace[|steps|] == t;
      IsRunRuns(o, trace, steps);
    }
    if steps :| t == Run(o, s, steps) {
      var trace := RunIsRun(o, s, steps);
    }
  }
}
