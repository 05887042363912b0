/** Executing a workflow's steps along its computed order, and what the run's totals mean. */
module Compiler {
  import opened Prelude
  import opened Names
  import opened Dependencies

  datatype StepType = LlmCall | Retrieve | ToolCall | Verify | OtherType(text: string)
  datatype Step = Step(after: seq<Name>, kind: StepType, requiresApproval: bool)
  datatype ActivityResult = ActivityResult(output: string, inputTokens: int, outputTokens: int, costCents: int)
  datatype ActivityInput = ActivityInput(step: Name, prior: map<Name, ActivityResult>)
  datatype RunError = UnknownType(step: Name) | StepFailed(step: Name)

  /** Totals are Go int64 values, which wrap around. */
  datatype Totals = Totals(inputTokens: int, outputTokens: int, costCents: int)

  const TWO_63 := 0x8000_0000_0000_0000
  const TWO_64 := 0x1_0000_0000_0000_0000

  /** The value of x in 64 bits: the one int64 that differs from it by a multiple of 2^64. */
  function Wrap(x: int): (r: int)
    ensures -0x8000_0000_0000_0000 <= r < 0x8000_0000_0000_0000
    ensures (x - r) % 0x1_0000_0000_0000_0000 == 0
  {
    (x + TWO_63) % TWO_64 - TWO_63
  }

  lemma DivUnique(y: int, q: int, r: int)
    requires y == TWO_64 * q + r && 0 <= r < TWO_64
    ensures y % TWO_64 == r
  {
  }

  lemma ModShift(x: int, k: int)
    ensures (x - TWO_64 * k) % TWO_64 == x % TWO_64
  {
    var q, r := x / TWO_64, x % TWO_64;
    assert x - TWO_64 * k == TWO_64 * (q - k) + r;
    DivUnique(x - TWO_64 * k, q - k, r);
  }

  lemma WrapAbsorbs(a: int, b: int)
    ensures Wrap(Wrap(a) + b) == Wrap(a + b)
  {
    var k := (a + TWO_63) / TWO_64;
    assert Wrap(a) == a - TWO_64 * k;
    ModShift(a + b + TWO_63, k);
  }

  function AddResult(t: Totals, r: ActivityResult): Totals {
    Totals(Wrap(t.inputTokens + r.inputTokens), Wrap(t.outputTokens + r.outputTokens), Wrap(t.costCents + r.costCents))
  }

  datatype Column = InputTokens | OutputTokens | CostCents

  function Get(column: Column, r: ActivityResult): int {
    match column
    case InputTokens => r.inputTokens
    case OutputTokens => r.outputTokens
    case CostCents => r.costCents
  }

  /** The exact sum of one column over the executed steps. */
  ghost function Sum(order: seq<Name>, outputs: map<Name, ActivityResult>, column: Column): int
    requires forall n :: n in order ==> n in outputs
  {
    if order == [] then 0
    else Sum(order[..|order| - 1], outputs, column) + Get(column, outputs[order[|order| - 1]])
  }

  lemma SumOfOne(n: Name, r: ActivityResult)
    ensures Sum([n], map[n := r], InputTokens) == r.inputTokens
    ensures Sum([n], map[n := r], OutputTokens) == r.outputTokens
    ensures Sum([n], map[n := r], CostCents) == r.costCents
  {
    var one := [n];
    assert one[..|one| - 1] == [];
  }

  /** The totals are the sums over the recorded outputs, as int64 values. */
  ghost predicate TotalsConserved(order: seq<Name>, outputs: map<Name, ActivityResult>, t: Totals) {
    && (forall n :: n in order ==> n in outputs)
    && t.inputTokens == Wrap(Sum(order, outputs, InputTokens))
    && t.outputTokens == Wrap(Sum(order, outputs, OutputTokens))
    && t.costCents == Wrap(Sum(order, outputs, CostCents))
  }

  lemma {:induction false} SumFrame(order: seq<Name>, outputs: map<Name, ActivityResult>, n: Name, res: ActivityResult,
                                    column: Column)
    requires forall m :: m in order ==> m in outputs
    requires n !in order
    ensures Sum(order, outputs[n := res], column) == Sum(order, outputs, column)
  {
    if order != [] {
      SumFrame(order[..|order| - 1], outputs, n, res, column);
    }
  }

  lemma SumAppend(order: seq<Name>, outputs: map<Name, ActivityResult>, n: Name, res: ActivityResult, column: Column)
    requires forall m :: m in order ==> m in outputs
    requires n !in order
    ensures Sum(order + [n], outputs[n := res], column) == Sum(order, outputs, column) + Get(column, res)
  {
    SumFrame(order, outputs, n, res, column);
    assert (order + [n])[..|order|] == order;
  }

  lemma AddConserves(order: seq<Name>, outputs: map<Name, ActivityResult>, t: Totals, n: Name, res: ActivityResult)
    requires TotalsConserved(order, outputs, t) && n !in order
    ensures TotalsConserved(order + [n], outputs[n := res], AddResult(t, res))
  {
    SumAppend(order, outputs, n, res, InputTokens);
    SumAppend(order, outputs, n, res, OutputTokens);
    SumAppend(order, outputs, n, res, CostCents);
    WrapAbsorbs(Sum(order, outputs, InputTokens), res.inputTokens);
    WrapAbsorbs(Sum(order, outputs, OutputTokens), res.outputTokens);
    WrapAbsorbs(Sum(order, outputs, CostCents), res.costCents);
  }

  function After(steps: map<Name, Step>): Graph {
    map n | n in steps :: steps[n].after
  }

  /** All steps, once each, every one after all the steps that its `after` list names. */
  ghost predicate RunsInOrder(steps: map<Name, Step>, order: seq<Name>) {
    && NoDup(order) && (forall n :: n in order <==> n in steps)
    && forall k, d :: 0 <= k < |order| && d in steps[order[k]].after ==> d in order[..k]
  }

  /** A step's `after` list names no step. */
  ghost predicate NamesNoStep(steps: map<Name, Step>, n: Name, d: Name) {
    n in steps && d in steps[n].after && d !in steps
  }

  lemma OrdersAreOrders(steps: map<Name, Step>, order: seq<Name>)
    ensures IsTopological(After(steps), order) <==> RunsInOrder(steps, order)
  {
    if RunsInOrder(steps, order) {
      forall k | 0 <= k < |order|
        ensures order[k] in After(steps) && Elems(After(steps)[order[k]]) <= Elems(order[..k])
      {
        assert order[k] in order;
      }
    } else if IsTopological(After(steps), order) {
      assert forall n :: n in order <==> n in Elems(order);
      forall k, d | 0 <= k < |order| && d in steps[order[k]].after
        ensures d in order[..k]
      {
        assert d in Elems(After(steps)[order[k]]);
      }
    }
  }

  lemma UnknownIsUnknown(steps: map<Name, Step>, n: Name, d: Name)
    ensures UnknownDependency(After(steps), n, d) <==> NamesNoStep(steps, n, d)
  {
  }

  /** An order exists only if the `after` lists name steps only. */
  lemma OrderedStepsNameSteps(steps: map<Name, Step>, order: seq<Name>)
    requires RunsInOrder(steps, order)
    ensures forall n, d :: n in steps && d in steps[n].after ==> d in steps
  {
    forall n, d | n in steps && d in steps[n].after
      ensures d in steps
    {
      assert n in order;
      var k :| 0 <= k < |order| && order[k] == n;
      assert d in order[..k];
    }
  }

  /**
   The activity called for order[k]: it got the outputs of exactly the steps before it, and
   among them every step that it names and every one it depends on through others.
   */
  ghost predicate SawDependencies(steps: map<Name, Step>, order: seq<Name>, k: nat, input: ActivityInput)
    requires k < |order|
  {
    && input.step == order[k] && order[k] in steps
    && input.prior.Keys == Elems(order[..k])
    && (forall d :: d in steps[order[k]].after ==> d in input.prior)
    && forall dep :: DependsOn(After(steps), order[k], dep) ==> dep in input.prior
  }

  predicate Known(kind: StepType) {
    !kind.OtherType?
  }

  /** What a call was given are the outputs as they were recorded. */
  ghost predicate SawOutputs(outputs: map<Name, ActivityResult>, input: ActivityInput) {
    forall d :: d in input.prior ==> d in outputs && input.prior[d] == outputs[d]
  }

  /** The first n steps ran, each on the outputs before it, and their results are recorded. */
  ghost predicate Ran(steps: map<Name, Step>, order: seq<Name>, activity: ActivityInput -> Option<ActivityResult>,
                      n: nat, outputs: map<Name, ActivityResult>, totals: Totals, calls: seq<ActivityInput>)
    requires n <= |order|
  {
    && |calls| == n == |outputs| && outputs.Keys == Elems(order[..n])
    && TotalsConserved(order[..n], outputs, totals)
    && (forall k :: 0 <= k < n ==> order[k] in outputs && activity(calls[k]) == Some(outputs[order[k]]))
    && (forall k :: 0 <= k < n ==> SawDependencies(steps, order, k, calls[k]) && SawOutputs(outputs, calls[k]))
  }

  lemma RanSeesAfter(steps: map<Name, Step>, order: seq<Name>, activity: ActivityInput -> Option<ActivityResult>,
                     n: nat, outputs: map<Name, ActivityResult>, totals: Totals, calls: seq<ActivityInput>)
    requires n <= |order| && Ran(steps, order, activity, n, outputs, totals, calls)
    ensures forall k, d :: 0 <= k < n && order[k] in steps && d in steps[order[k]].after ==> d in calls[k].prior
  {
  }

  lemma NothingRan(steps: map<Name, Step>, order: seq<Name>, activity: ActivityInput -> Option<ActivityResult>)
    ensures Ran(steps, order, activity, 0, map[], Totals(0, 0, 0), [])
  {
  }

  /** The recorded results are those of the calls, with one more. */
  lemma RecordCalls(order: seq<Name>, activity: ActivityInput -> Option<ActivityResult>, i: nat,
                    outputs: map<Name, ActivityResult>, calls: seq<ActivityInput>,
                    input: ActivityInput, result: ActivityResult)
    requires i < |order| && |calls| == i && NoDup(order) && activity(input) == Some(result)
    requires forall k :: 0 <= k < i ==> order[k] in outputs && activity(calls[k]) == Some(outputs[order[k]])
    ensures
      var more, now := calls + [input], outputs[order[i] := result];
      forall k :: 0 <= k <= i ==> order[k] in now && activity(more[k]) == Some(now[order[k]])
  {
    assert forall k :: 0 <= k < i ==> order[k] != order[i];
  }

  /** Every call so far saw its dependencies, with one more. */
  lemma RecordInputs(steps: map<Name, Step>, order: seq<Name>, i: nat, calls: seq<ActivityInput>, input: ActivityInput)
    requires i < |order| && |calls| == i && SawDependencies(steps, order, i, input)
    requires forall k :: 0 <= k < i ==> SawDependencies(steps, order, k, calls[k])
    ensures forall k :: 0 <= k <= i ==> SawDependencies(steps, order, k, (calls + [input])[k])
  {
    hide SawDependencies;
    forall k | 0 <= k <= i
      ensures SawDependencies(steps, order, k, (calls + [input])[k])
    {
      if k < i { assert (calls + [input])[k] == calls[k]; }
    }
  }

  /** And all of them were given outputs that stay as they are. */
  lemma RecordOutputs(order: seq<Name>, i: nat, outputs: map<Name, ActivityResult>, calls: seq<ActivityInput>,
                      input: ActivityInput, result: ActivityResult)
    requires i < |order| && |calls| == i && NoDup(order) && outputs.Keys == Elems(order[..i])
    requires input.prior == outputs && forall k :: 0 <= k < i ==> SawOutputs(outputs, calls[k])
    ensures forall k :: 0 <= k <= i ==> SawOutputs(outputs[order[i] := result], (calls + [input])[k])
  {
    assert order[i] !in Elems(order[..i]);
    forall k | 0 <= k <= i
      ensures SawOutputs(outputs[order[i] := result], (calls + [input])[k])
    {
      if k < i { assert SawOutputs(outputs, calls[k]); }
    }
  }

  lemma RecordTotals(order: seq<Name>, i: nat, outputs: map<Name, ActivityResult>, totals: Totals,
                     result: ActivityResult)
    requires i < |order| && NoDup(order) && outputs.Keys == Elems(order[..i])
    requires TotalsConserved(order[..i], outputs, totals)
    ensures TotalsConserved(order[..i + 1], outputs[order[i] := result], AddResult(totals, result))
    ensures outputs[order[i] := result].Keys == Elems(order[..i + 1])
    ensures |outputs[order[i] := result]| == |outputs| + 1
  {
    hide TotalsConserved;
    assert order[i] !in Elems(order[..i]);
    AddConserves(order[..i], outputs, totals, order[i], result);
    TakeMore(order, i);
    ElemsAppend(order[..i], order[i]);
  }

  lemma RecordResult(steps: map<Name, Step>, order: seq<Name>, activity: ActivityInput -> Option<ActivityResult>,
                     i: nat, outputs: map<Name, ActivityResult>, totals: Totals, calls: seq<ActivityInput>,
                     input: ActivityInput, result: ActivityResult)
    requires i < |order| && NoDup(order)
    requires Ran(steps, order, activity, i, outputs, totals, calls)
    requires SawDependencies(steps, order, i, input) && input.prior == outputs && activity(input) == Some(result)
    ensures Ran(steps, order, activity, i + 1, outputs[order[i] := result], AddResult(totals, result), calls + [input])
  {
    hide SawDependencies, SawOutputs, TotalsConserved, AddResult;
    RecordOutputs(order, i, outputs, calls, input, result);
    RecordTotals(order, i, outputs, totals, result);
    RecordCalls(order, activity, i, outputs, calls, input, result);
    RecordInputs(steps, order, i, calls, input);
  }

  lemma PriorIsComplete(steps: map<Name, Step>, order: seq<Name>, i: nat, input: ActivityInput)
    requires IsTopological(After(steps), order) && i < |order|
    requires input.step == order[i] && input.prior.Keys == Elems(order[..i])
    ensures SawDependencies(steps, order, i, input)
  {
    OrdersAreOrders(steps, order);
    assert order[i] in order;
    forall dep | DependsOn(After(steps), order[i], dep)
      ensures dep in input.prior
    {
      TransitiveDependenciesComeFirst(After(steps), order[i], dep, order, i);
      assert dep in Elems(order[..i]);
    }
  }

  /**
   runSteps on a topological order. `activity` stands for the remote activities: any result or
   failure for the input it is given. When step n stops the run, exactly the first n steps have
   outputs and the totals cover exactly those.
   */
  method RunSteps(steps: map<Name, Step>, order: seq<Name>, activity: ActivityInput -> Option<ActivityResult>)
    returns (outputs: map<Name, ActivityResult>, totals: Totals, error: Option<RunError>, calls: seq<ActivityInput>)
    requires RunsInOrder(steps, order)
    ensures |outputs| <= |order| && |outputs| <= |calls|
    ensures Ran(steps, order, activity, |outputs|, outputs, totals, calls[..|outputs|])
    ensures forall k, d :: 0 <= k < |outputs| && d in steps[order[k]].after ==> d in calls[k].prior
    ensures error.None? <==> |outputs| == |order|
    ensures error.Some? ==> error.value.step == order[|outputs|]
    ensures error.Some? ==> (error.value.UnknownType? <==> steps[order[|outputs|]].kind.OtherType?)
    ensures error.None? || error.value.UnknownType? ==> |calls| == |outputs|
    ensures error.Some? && error.value.StepFailed? ==>
              |calls| == |outputs| + 1 && activity(calls[|outputs|]).None? &&
              SawDependencies(steps, order, |outputs|, calls[|outputs|]) && calls[|outputs|].prior == outputs
  {
    hide SawDependencies, SawOutputs, TotalsConserved, AddResult;
    outputs, totals, error, calls := map[], Totals(0, 0, 0), None, [];
    OrdersAreOrders(steps, order);
    NothingRan(steps, order, activity);
    var i := 0;
    while i < |order|
      invariant 0 <= i <= |order| && error.None?
      invariant Ran(steps, order, activity, i, outputs, totals, calls)
    {
      TakeAll(calls);
      var name := order[i];
      var step := steps[name];
      RanSeesAfter(steps, order, activity, i, outputs, totals, calls);
      if !Known(step.kind) {
        error := Some(UnknownType(name));
        return;
      }
      var input := ActivityInput(name, outputs);
      PriorIsComplete(steps, order, i, input);
      var result := activity(input);
      if result.None? {
        assert (calls + [input])[..i] == calls;
        calls := calls + [input];
        error := Some(StepFailed(name));
        return;
      }
      RecordResult(steps, order, activity, i, outputs, totals, calls, input, result.value);
      calls := calls + [input];
      outputs := outputs[name := result.value];
      totals := AddResult(totals, result.value);
      i := i + 1;
    }
    TakeAll(calls);
    RanSeesAfter(steps, order, activity, i, outputs, totals, calls);
  }
}
