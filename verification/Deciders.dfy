/** The two graph algorithms side by side, and a workflow run from its parsed steps. */
module Deciders {
  import opened Prelude
  import opened Names
  import opened Dependencies
  import opened Plans
  import opened Compiler
  import Parser

  /**
   topoSort and complete_graph's layering loop on one and the same graph: they accept the same
   graphs, and the order that topoSort then returns is one the scheduler of tasks could follow.
   */
  method Decide(plan: Plan, steps: map<Name, Step>) returns (kahn: Result<seq<Name>, Parser.OrderError>, layered: bool)
    requires NoDup(TaskIds(plan)) && After(steps) == TaskGraph(plan.tasks)
    ensures kahn.Success? <==> layered
    ensures layered <==> HasOrder(TaskGraph(plan.tasks))
    ensures kahn.Failure? && kahn.error.UnknownStep? <==> exists n, dep :: UnknownDependency(After(steps), n, dep)
    ensures kahn.Success? ==> forall t :: t in plan.tasks ==> t.id in kahn.value
    ensures kahn.Success? ==> forall k, t :: 0 <= k < |kahn.value| && t in plan.tasks && t.id == kahn.value[k] ==>
              Runnable(t, kahn.value[..k])
  {
    kahn := Parser.TopoSort(After(steps));
    layered := LayersReachAll(plan);
    if kahn.Success? {
      TaskIdsAreKeys(plan);
      var order := kahn.value;
      forall k, t | 0 <= k < |order| && t in plan.tasks && t.id == order[k]
        ensures Runnable(t, order[..k])
      {
        assert Elems(After(steps)[order[k]]) <= Elems(order[..k]);
        assert forall d :: d in t.dependsOn ==> d in Elems(After(steps)[order[k]]);
      }
    }
  }

  lemma SameOrders(steps: map<Name, Step>)
    ensures HasOrder(After(steps)) <==> exists o :: RunsInOrder(steps, o)
    ensures (exists n, d :: UnknownDependency(After(steps), n, d)) <==> exists n, d :: NamesNoStep(steps, n, d)
  {
    forall o
      ensures IsTopological(After(steps), o) <==> RunsInOrder(steps, o)
    {
      OrdersAreOrders(steps, o);
    }
    forall n, d
      ensures UnknownDependency(After(steps), n, d) <==> NamesNoStep(steps, n, d)
    {
      UnknownIsUnknown(steps, n, d);
    }
  }

  /** topoSort in terms of the steps' own lists. */
  method OrderSteps(steps: map<Name, Step>) returns (order: Result<seq<Name>, Parser.OrderError>)
    ensures order.Failure? <==> !exists o :: RunsInOrder(steps, o)
    ensures order.Failure? && order.error.UnknownStep? <==> exists n, d :: NamesNoStep(steps, n, d)
    ensures order.Success? ==> RunsInOrder(steps, order.value)
    ensures order.Success? ==> forall n, d :: n in steps && d in steps[n].after ==> d in steps
  {
    order := Parser.TopoSort(After(steps));
    SameOrders(steps);
    if order.Success? {
      OrdersAreOrders(steps, order.value);
      OrderedStepsNameSteps(steps, order.value);
    }
  }

  lemma AllHaveOutputs(steps: map<Name, Step>, order: seq<Name>, outputs: map<Name, ActivityResult>)
    requires RunsInOrder(steps, order) && outputs.Keys == Elems(order)
    ensures outputs.Keys == steps.Keys
  {
  }

  /** The call of step n was given the recorded output of every step that its `after` list names. */
  ghost predicate SawAfter(steps: map<Name, Step>, n: Name, outputs: map<Name, ActivityResult>, input: ActivityInput) {
    && n in steps
    && forall d :: d in steps[n].after ==> d in input.prior && d in outputs && input.prior[d] == outputs[d]
  }

  lemma RanAll(steps: map<Name, Step>, order: seq<Name>, activity: ActivityInput -> Option<ActivityResult>,
               outputs: map<Name, ActivityResult>, totals: Totals, calls: seq<ActivityInput>)
    requires |outputs| == |order| <= |calls|
    requires Ran(steps, order, activity, |order|, outputs, totals, calls[..|order|])
    ensures outputs.Keys == Elems(order)
  {
    TakeAll(order);
  }

  lemma CallsSawAfter(steps: map<Name, Step>, order: seq<Name>, activity: ActivityInput -> Option<ActivityResult>,
                      n: nat, outputs: map<Name, ActivityResult>, totals: Totals, calls: seq<ActivityInput>)
    requires n <= |order| && Ran(steps, order, activity, n, outputs, totals, calls)
    ensures forall k :: 0 <= k < n ==> SawAfter(steps, order[k], outputs, calls[k])
  {
    hide TotalsConserved;
    forall k | 0 <= k < n
      ensures SawAfter(steps, order[k], outputs, calls[k])
    {
      assert SawDependencies(steps, order, k, calls[k]) && SawOutputs(outputs, calls[k]);
    }
  }

  /**
   A workflow from its steps to its result. Without an order nothing is called; with one, every
   activity was given the recorded outputs of all the steps that its `after` list names and of all
   those they depend on, and the totals are those of the recorded outputs.
   */
  method RunWorkflow(steps: map<Name, Step>, activity: ActivityInput -> Option<ActivityResult>)
    returns (order: Result<seq<Name>, Parser.OrderError>, outputs: map<Name, ActivityResult>, totals: Totals,
             error: Option<RunError>, calls: seq<ActivityInput>)
    ensures order.Failure? <==> !exists o :: RunsInOrder(steps, o)
    ensures order.Failure? && order.error.UnknownStep? <==> exists n, d :: NamesNoStep(steps, n, d)
    ensures order.Success? ==> RunsInOrder(steps, order.value)
    ensures order.Success? ==> forall n, d :: n in steps && d in steps[n].after ==> d in steps
    ensures order.Failure? ==> calls == [] && outputs == map[]
    ensures order.Success? ==> |outputs| <= |order.value| && |outputs| <= |calls|
    ensures order.Success? ==> Ran(steps, order.value, activity, |outputs|, outputs, totals, calls[..|outputs|])
    ensures order.Success? ==>
              forall k :: 0 <= k < |outputs| ==> SawAfter(steps, order.value[k], outputs, calls[k])
    ensures order.Success? && error.None? ==> outputs.Keys == steps.Keys
  {
    hide Ran, RunsInOrder, NamesNoStep, SawAfter;
    outputs, totals, error, calls := map[], Totals(0, 0, 0), None, [];
    order := OrderSteps(steps);
    if order.Success? {
      outputs, totals, error, calls := RunSteps(steps, order.value, activity);
      CallsSawAfter(steps, order.value, activity, |outputs|, outputs, totals, calls[..|outputs|]);
      if error.None? {
        RanAll(steps, order.value, activity, outputs, totals, calls);
        AllHaveOutputs(steps, order.value, outputs);
      }
    }
  }
}
