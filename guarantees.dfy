/** What the runner promises about every run, drawn from `Settled`: an empty
    scenario posts nothing, every simulation posts to the scenario's fork and
    is rooted at the previous simulation, a finished run simulated every step
    and reported a link for each, and the first failure ends the run with the
    service's error body unchanged. */
module Guarantees {
  import opened Wrappers
  import opened JsValues
  import opened Endpoints
  import opened Simulation
  import opened Runner

  /** The id of the fork the service created for `env`'s first call. */
  function ForkId(env: Env): string
    requires env.remote(0, CreateForkCall(env.cfg)).Accepted?
  {
    env.remote(0, CreateForkCall(env.cfg)).id
  }

  /** A run reports an empty scenario exactly when there are no steps, and
      then posts nothing. */
  lemma EmptyScenarioPostsNothing(env: Env, steps: seq<Step>)
    ensures Execute(env, steps).outcome == Failed(EmptyScenario) <==> |steps| == 0
    ensures |steps| == 0 ==> Execute(env, steps).calls == []
  {
    ExecuteSettles(env, steps);
  }

  /** Any call after the first is a simulation of step `k - 1` posted to the
      fork's simulate endpoint: its body is the request for the step's
      encoded call with the step's defaults applied, saved and sent from the
      step's sender; the first carries no root, and each later one is rooted
      at the id returned for the simulation before it exactly when that id is
      not empty. */
  lemma SimulationsChainRoots(env: Env, steps: seq<Step>, k: nat)
    requires 1 <= k < |Execute(env, steps).calls|
    ensures env.remote(0, CreateForkCall(env.cfg)).Accepted?
    ensures var r := Execute(env, steps);
            && k - 1 < |steps|
            && steps[k - 1].contract in env.registry
            && r.calls[k].PostSimulate?
            && r.calls[k].url == SimulateEndpoint(env.cfg, ForkId(env))
            && r.calls[k].body.save
            && r.calls[k].body.from == steps[k - 1].from
    ensures var r := Execute(env, steps);
            var step := steps[k - 1];
            var entry := env.registry[step.contract];
            var p := env.encode(entry.address, entry.abi, step.methodName, step.params);
            && p.Some?
            && r.calls[k].body == RequestBody(StepTransaction(step, p.value), HeadBefore(env, r.calls, k))
            && r.calls[k].body.to == p.value.to
            && r.calls[k].body.input == p.value.data
            && r.calls[k].body.gas == Or(step.gas, Num(DefaultGas))
    ensures var r := Execute(env, steps);
            k == 1 ==> r.calls[k].body.root == None
    ensures var r := Execute(env, steps);
            k > 1 ==> && (r.calls[k].body.root.Some? <==> HeadTruthy(ReplyId(env, r.calls, k - 1)))
                      && (r.calls[k].body.root.Some? ==> r.calls[k].body.root == ReplyId(env, r.calls, k - 1))
  {
    ExecuteSettles(env, steps);
    var r := Execute(env, steps);
    var forkId := ForkId(env);
    assert SimulatesStep(env, steps, forkId, r.calls, k);
  }

  /** A run that finished posted the fork and one accepted simulation per
      step, reported the dashboard link of each new head, and leaves the
      fork's head at the last simulation. */
  lemma DoneSimulatesEveryStep(env: Env, steps: seq<Step>)
    requires Execute(env, steps).outcome == Done
    ensures |steps| > 0 && env.remote(0, CreateForkCall(env.cfg)).Accepted?
    ensures var r := Execute(env, steps);
            && |r.calls| == |steps| + 1
            && |r.links| == |steps|
            && r.calls[0] == CreateForkCall(env.cfg)
            && (forall k :: 1 <= k < |r.calls| ==> env.remote(k, r.calls[k]).Accepted?)
            && (forall k :: 0 <= k < |r.links| ==>
                  r.links[k] == ViewSimulationEndpoint(env.cfg, ForkId(env), ReplyId(env, r.calls, k + 1)))
            && r.head == ReplyId(env, r.calls, |steps|)
            && r.head.Some?
  {
    ExecuteSettles(env, steps);
    var r := Execute(env, steps);
    assert AcceptedUpTo(env, r.calls, |steps|);
    assert env.remote(|steps|, r.calls[|steps|]).Accepted?;
  }

  /** How a failed run ends: nothing is posted after the failing step, the
      steps before it were all accepted with a link each, the head is the
      last accepted simulation (none before the first), and a rejection's
      error body is handed on as the service sent it. */
  lemma FailureEndsRun(env: Env, steps: seq<Step>)
    requires Execute(env, steps).outcome.Failed?
    ensures var r := Execute(env, steps);
            match r.outcome.error
            case EmptyScenario => |steps| == 0 && r.calls == []
            case ForkFailed(body) =>
              && |steps| > 0 && r.calls == [CreateForkCall(env.cfg)]
              && env.remote(0, r.calls[0]) == Rejected(body)
              && r.head == None && r.links == []
            case UnknownContract(i, name) =>
              && i < |steps| && name == steps[i].contract && name !in env.registry
              && |r.calls| == i + 1 && |r.links| == i
            case EncodingFailed(i) =>
              && i < |steps| && steps[i].contract in env.registry
              && (var entry := env.registry[steps[i].contract];
                  env.encode(entry.address, entry.abi, steps[i].methodName, steps[i].params).None?)
              && |r.calls| == i + 1 && |r.links| == i
            case SimulationFailed(i, body) =>
              && i < |steps|
              && |r.calls| == i + 2 && |r.links| == i
              && env.remote(i + 1, r.calls[i + 1]) == Rejected(body)
    ensures var r := Execute(env, steps);
            var n := |r.links|;
            !r.outcome.error.EmptyScenario? && !r.outcome.error.ForkFailed? ==>
              && (forall k :: 1 <= k <= n ==> env.remote(k, r.calls[k]).Accepted?)
              && r.head == (if n == 0 then None else ReplyId(env, r.calls, n))
  {
    ExecuteSettles(env, steps);
  }
}
