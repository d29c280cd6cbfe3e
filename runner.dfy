/** The scenario runner: creates one fork, then turns every step into a
    transaction and simulates it on that fork, in order, each simulation
    rooted at the previous one; the first error ends the run.

    Contract lookup is a map, ABI encoding an abstract partial function and
    the remote service an oracle that answers the n-th call of the run.
    `Execute` is the run as a function; `RunScenario` is the loop that the
    source runs, proved equal to it; `Settled` describes every finished run
    independently of how it is computed, and the lemmas at the end draw the
    runner's guarantees from it. */
module Runner {
  import opened Wrappers
  import opened JsValues
  import opened Endpoints
  import opened Simulation

  /** The gas limit used when a step gives none. */
  const DefaultGas: nat := 100000

  /** The gas-price default as the source writes it, `10 ^ 9`: in
      JavaScript `^` is exclusive or, so this is 3 (`GasPriceDefaultIsXor`). */
  const GasPriceDefault: nat := 3

  /** The gas-price default the expression evidently means, 10 to the 9th. */
  const IntendedGasPriceDefault: nat := 1_000_000_000

  /** A registry entry: where the contract lives and its interface. */
  datatype ContractEntry = ContractEntry(address: string, abi: string)

  /** One scripted call. `gas`, `gasPrice` and `value` may be missing. */
  datatype Step = Step(
    contract: string, methodName: string, params: seq<JsValue>, from: string,
    gas: JsValue, gasPrice: JsValue, value: JsValue)

  /** What the ABI encoder makes of a call: the target and the call data. */
  datatype Payload = Payload(to: string, data: string)

  /** Everything a run depends on: the credentials, the contract registry,
      the encoder (address, ABI, method, parameters), and the service, which
      answers the n-th call of the run (call 0 creates the fork). */
  datatype Env = Env(
    cfg: Config,
    registry: map<string, ContractEntry>,
    encode: (string, string, string, seq<JsValue>) -> Option<Payload>,
    remote: (nat, Call) -> Response)

  datatype RunError =
    | EmptyScenario
    | ForkFailed(body: string)
    | UnknownContract(step: nat, name: string)
    | EncodingFailed(step: nat)
    | SimulationFailed(step: nat, body: string)

  datatype Outcome = Done | Failed(error: RunError)

  /** A run: how it ended, the calls posted in order, the fork's head at the
      end, and the dashboard link reported after each accepted step. */
  datatype Run = Run(outcome: Outcome, calls: seq<Call>, head: Option<string>, links: seq<string>)

  /** The default is the exclusive or of 10 and 9, not the billion the
      expression was meant to be. */
  lemma GasPriceDefaultIsXor()
    ensures GasPriceDefault == BitwiseXor(10, 9)
    ensures GasPriceDefault != IntendedGasPriceDefault
  {
    assert (10 as bv32) ^ (9 as bv32) == 3;
  }

  /** The transaction of a step whose call encoded to `payload`; `gas`,
      `gas_price` and `value` fall back to their defaults with `||`. */
  function StepTransaction(step: Step, payload: Payload): (tx: Transaction)
    ensures tx.from == step.from && tx.to == payload.to && tx.input == payload.data
    ensures Truthy(tx.gas) && Truthy(tx.gasPrice)
    ensures Stringifiable(tx.gasPrice) && Stringifiable(tx.value)
    ensures tx.gas == step.gas <==> Truthy(step.gas)
    ensures tx.gasPrice == step.gasPrice <==> Truthy(step.gasPrice)
    ensures tx.value == step.value <==> Truthy(step.value) || step.value == Num(0)
    ensures !Truthy(step.gas) ==> tx.gas == Num(DefaultGas)
    ensures !Truthy(step.gasPrice) ==> tx.gasPrice == Num(GasPriceDefault)
    ensures !Truthy(step.value) ==> tx.value == Num(0)
  {
    Transaction(step.from, payload.to, payload.data,
                Or(step.gas, Num(DefaultGas)),
                Or(step.gasPrice, Num(GasPriceDefault)),
                Or(step.value, Num(0)))
  }

  /** Step `i` resolved and encoded into the transaction to simulate. */
  function Prepare(env: Env, step: Step, i: nat): (r: Result<Transaction, RunError>)
    ensures r == Err(UnknownContract(i, step.contract)) <==> step.contract !in env.registry
    ensures r == Err(EncodingFailed(i)) <==>
              && step.contract in env.registry
              && var entry := env.registry[step.contract];
                 env.encode(entry.address, entry.abi, step.methodName, step.params).None?
    ensures r.Err? ==> r.error == UnknownContract(i, step.contract) || r.error == EncodingFailed(i)
    ensures r.Ok? ==> && step.contract in env.registry
                      && var entry := env.registry[step.contract];
                         var p := env.encode(entry.address, entry.abi, step.methodName, step.params);
                         && p.Some?
                         && r.value == StepTransaction(step, p.value)
                         && r.value.to == p.value.to && r.value.input == p.value.data
    ensures r.Ok? ==> && r.value.from == step.from
                      && r.value.gas == Or(step.gas, Num(DefaultGas))
                      && r.value.gasPrice == Or(step.gasPrice, Num(GasPriceDefault))
                      && r.value.value == Or(step.value, Num(0))
                      && Stringifiable(r.value.gasPrice) && Stringifiable(r.value.value)
  {
    if step.contract !in env.registry then
      Err(UnknownContract(i, step.contract))
    else
      var entry := env.registry[step.contract];
      match env.encode(entry.address, entry.abi, step.methodName, step.params)
      case None => Err(EncodingFailed(i))
      case Some(payload) => Ok(StepTransaction(step, payload))
  }

  /** The run from step `i` on, given the run so far. */
  function Continue(env: Env, forkId: string, steps: seq<Step>, i: nat, run: Run): Run
    requires i <= |steps|
    decreases |steps| - i
  {
    if i == |steps| then run
    else
      match Prepare(env, steps[i], i)
      case Err(e) => run.(outcome := Failed(e))
      case Ok(tx) =>
        var call := SimulateCall(env.cfg, forkId, tx, run.head);
        match env.remote(|run.calls|, call)
        case Rejected(body) =>
          run.(outcome := Failed(SimulationFailed(i, body)), calls := run.calls + [call])
        case Accepted(simId, _) =>
          Continue(env, forkId, steps, i + 1,
                   Run(Done, run.calls + [call], Some(simId),
                       run.links + [ViewSimulationEndpoint(env.cfg, forkId, Some(simId))]))
  }

  /** A whole run of `steps`. */
  function Execute(env: Env, steps: seq<Step>): Run {
    if |steps| == 0 then
      Run(Failed(EmptyScenario), [], None, [])
    else
      var create := CreateForkCall(env.cfg);
      match env.remote(0, create)
      case Rejected(body) => Run(Failed(ForkFailed(body)), [create], None, [])
      case Accepted(forkId, _) => Continue(env, forkId, steps, 0, Run(Done, [create], None, []))
  }

  /** `main`: refuses an empty scenario, creates the fork, then for each
      step looks up the contract, encodes the call, posts the simulation
      and records the dashboard link of the new head; the first failure
      ends the run. */
  method RunScenario(env: Env, steps: seq<Step>) returns (run: Run)
    ensures run == Execute(env, steps)
  {
    if |steps| == 0 {
      return Run(Failed(EmptyScenario), [], None, []);
    }
    var create, started := StartFork(env.cfg, c => env.remote(0, c));
    if started.Err? {
      return Run(Failed(ForkFailed(started.error)), [create], None, []);
    }
    var fork := started.value;
    var calls := [create];
    var links: seq<string> := [];
    for i := 0 to |steps|
      invariant |calls| == i + 1 && |links| == i
      invariant Continue(env, fork.id, steps, i, Run(Done, calls, fork.head, links)) == Execute(env, steps)
    {
      var step := steps[i];
      if step.contract !in env.registry {
        return Run(Failed(UnknownContract(i, step.contract)), calls, fork.head, links);
      }
      var entry := env.registry[step.contract];
      var encoded := env.encode(entry.address, entry.abi, step.methodName, step.params);
      if encoded.None? {
        return Run(Failed(EncodingFailed(i)), calls, fork.head, links);
      }
      var tx := StepTransaction(step, encoded.value);
      assert Prepare(env, step, i) == Ok(tx);
      var n := |calls|;
      var call, result := fork.Simulate(env.cfg, tx, c => env.remote(n, c));
      calls := calls + [call];
      if result.Err? {
        return Run(Failed(SimulationFailed(i, result.error)), calls, fork.head, links);
      }
      links := links + [ViewSimulationEndpoint(env.cfg, fork.id, fork.head)];
    }
    run := Run(Done, calls, fork.head, links);
  }

  // ---------------------------------------------------------------------
  // What a finished run looks like

  /** The id the service returned for call `k`, if it accepted it. */
  function ReplyId(env: Env, calls: seq<Call>, k: nat): Option<string>
    requires k < |calls|
  {
    match env.remote(k, calls[k])
    case Accepted(id, _) => Some(id)
    case Rejected(_) => None
  }

  /** The fork's head when call `k` (a simulation) was posted: none for the
      first simulation, else the id returned for the call before. */
  function HeadBefore(env: Env, calls: seq<Call>, k: nat): Option<string>
    requires 1 <= k <= |calls|
  {
    if k == 1 then None else ReplyId(env, calls, k - 1)
  }

  /** Call `k` simulates step `k - 1` on fork `forkId`, from the head left by
      call `k - 1`. */
  ghost predicate SimulatesStep(env: Env, steps: seq<Step>, forkId: string, calls: seq<Call>, k: nat)
    requires 1 <= k < |calls|
  {
    && k - 1 < |steps|
    && Prepare(env, steps[k - 1], k - 1).Ok?
    && calls[k] == SimulateCall(env.cfg, forkId, Prepare(env, steps[k - 1], k - 1).value,
                                HeadBefore(env, calls, k))
  }

  /** Every call after the first simulates the next step, from the head
      the call before it left. */
  ghost predicate StepsChained(env: Env, steps: seq<Step>, forkId: string, calls: seq<Call>) {
    forall k :: 1 <= k < |calls| ==> SimulatesStep(env, steps, forkId, calls, k)
  }

  /** The service accepted calls 1 to `n`. */
  ghost predicate AcceptedUpTo(env: Env, calls: seq<Call>, n: nat)
    requires n < |calls|
  {
    forall k :: 1 <= k <= n ==> env.remote(k, calls[k]).Accepted?
  }

  /** The `k`-th link shows the head left by the `k`-th simulation. */
  ghost predicate LinksFollowHeads(env: Env, forkId: string, calls: seq<Call>, links: seq<string>)
    requires |links| < |calls|
  {
    forall k :: 0 <= k < |links| ==>
      links[k] == ViewSimulationEndpoint(env.cfg, forkId, ReplyId(env, calls, k + 1))
  }

  /** The part of a run after fork `forkId` was created, with `|r.links|`
      steps accepted so far: every call after the first simulates the next
      step from the head the previous one left, all but possibly the last
      were accepted, a link was reported for each accepted one, and the head
      is the last accepted id. */
  ghost predicate ChainedSoFar(env: Env, steps: seq<Step>, forkId: string, r: Run) {
    var n := |r.links|;
    && n < |r.calls| <= n + 2
    && n <= |steps|
    && StepsChained(env, steps, forkId, r.calls)
    && AcceptedUpTo(env, r.calls, n)
    && LinksFollowHeads(env, forkId, r.calls, r.links)
    && r.head == HeadBefore(env, r.calls, n + 1)
  }

  /** How a run that created its fork ended, `n` steps having been accepted. */
  ghost predicate Ended(env: Env, steps: seq<Step>, r: Run, n: nat)
    requires n < |r.calls|
  {
    match r.outcome
    case Done => n == |steps| && |r.calls| == n + 1
    case Failed(UnknownContract(k, name)) =>
      k == n < |steps| && |r.calls| == n + 1
      && name == steps[n].contract && steps[n].contract !in env.registry
    case Failed(EncodingFailed(k)) =>
      k == n < |steps| && |r.calls| == n + 1
      && steps[n].contract in env.registry
      && var entry := env.registry[steps[n].contract];
         env.encode(entry.address, entry.abi, steps[n].methodName, steps[n].params).None?
    case Failed(SimulationFailed(k, body)) =>
      k == n < |steps| && |r.calls| == n + 2 && env.remote(n + 1, r.calls[n + 1]) == Rejected(body)
    case Failed(_) => false
  }

  /** Every finished run of `steps`. */
  ghost predicate Settled(env: Env, steps: seq<Step>, r: Run) {
    if |steps| == 0 then
      r == Run(Failed(EmptyScenario), [], None, [])
    else
      && |r.calls| >= 1
      && r.calls[0] == CreateForkCall(env.cfg)
      && match env.remote(0, r.calls[0])
         case Rejected(body) => r == Run(Failed(ForkFailed(body)), [r.calls[0]], None, [])
         case Accepted(forkId, _) =>
           ChainedSoFar(env, steps, forkId, r) && Ended(env, steps, r, |r.links|)
  }

  // ---------------------------------------------------------------------
  // Proof that Execute settles

  lemma ReplyIdPrefix(env: Env, calls: seq<Call>, c: Call, k: nat)
    requires k < |calls|
    ensures ReplyId(env, calls + [c], k) == ReplyId(env, calls, k)
  {
    assert (calls + [c])[k] == calls[k];
  }

  lemma HeadBeforePrefix(env: Env, calls: seq<Call>, c: Call, k: nat)
    requires 1 <= k <= |calls|
    ensures HeadBefore(env, calls + [c], k) == HeadBefore(env, calls, k)
  {
    if k > 1 {
      ReplyIdPrefix(env, calls, c, k - 1);
    }
  }

  lemma SimulatesStepPrefix(env: Env, steps: seq<Step>, forkId: string, calls: seq<Call>, c: Call, k: nat)
    requires 1 <= k < |calls|
    requires SimulatesStep(env, steps, forkId, calls, k)
    ensures SimulatesStep(env, steps, forkId, calls + [c], k)
  {
    assert (calls + [c])[k] == calls[k];
    HeadBeforePrefix(env, calls, c, k);
  }

  lemma LastSimulatesStep(env: Env, steps: seq<Step>, forkId: string, calls: seq<Call>, tx: Transaction, c: Call)
    requires 1 <= |calls| <= |steps|
    requires Prepare(env, steps[|calls| - 1], |calls| - 1) == Ok(tx)
    requires c == SimulateCall(env.cfg, forkId, tx, HeadBefore(env, calls, |calls|))
    ensures SimulatesStep(env, steps, forkId, calls + [c], |calls|)
  {
    HeadBeforePrefix(env, calls, c, |calls|);
    assert (calls + [c])[|calls|] == c;
  }

  lemma StepsChainedPrefix(env: Env, steps: seq<Step>, forkId: string, calls: seq<Call>, c: Call)
    requires StepsChained(env, steps, forkId, calls)
    ensures forall k :: 1 <= k < |calls| ==> SimulatesStep(env, steps, forkId, calls + [c], k)
  {
    forall k | 1 <= k < |calls|
      ensures SimulatesStep(env, steps, forkId, calls + [c], k)
    {
      SimulatesStepPrefix(env, steps, forkId, calls, c, k);
    }
  }

  /** Appending the simulation of the next step, posted from the head the
      last call left, keeps the chain. */
  lemma StepsChainedExtend(env: Env, steps: seq<Step>, forkId: string, calls: seq<Call>, tx: Transaction, c: Call)
    requires StepsChained(env, steps, forkId, calls)
    requires 1 <= |calls| <= |steps|
    requires Prepare(env, steps[|calls| - 1], |calls| - 1) == Ok(tx)
    requires c == SimulateCall(env.cfg, forkId, tx, HeadBefore(env, calls, |calls|))
    ensures StepsChained(env, steps, forkId, calls + [c])
  {
    StepsChainedPrefix(env, steps, forkId, calls, c);
    LastSimulatesStep(env, steps, forkId, calls, tx, c);
  }

  lemma AcceptedExtend(env: Env, calls: seq<Call>, c: Call, n: nat)
    requires n < |calls| && AcceptedUpTo(env, calls, n)
    ensures AcceptedUpTo(env, calls + [c], n)
    ensures n + 1 == |calls| && env.remote(n + 1, c).Accepted? ==> AcceptedUpTo(env, calls + [c], n + 1)
  {
    forall k | 1 <= k <= n
      ensures env.remote(k, (calls + [c])[k]).Accepted?
    {
      assert (calls + [c])[k] == calls[k];
    }
    if n + 1 == |calls| {
      assert (calls + [c])[n + 1] == c;
    }
  }

  lemma LinksExtend(env: Env, forkId: string, calls: seq<Call>, links: seq<string>, c: Call)
    requires |links| < |calls| && LinksFollowHeads(env, forkId, calls, links)
    ensures LinksFollowHeads(env, forkId, calls + [c], links)
    ensures |links| + 1 == |calls| && env.remote(|calls|, c).Accepted? ==>
              LinksFollowHeads(env, forkId, calls + [c],
                               links + [ViewSimulationEndpoint(env.cfg, forkId, Some(env.remote(|calls|, c).id))])
  {
    forall k | 1 <= k <= |links|
      ensures ReplyId(env, calls + [c], k) == ReplyId(env, calls, k)
    {
      ReplyIdPrefix(env, calls, c, k);
    }
    if |links| + 1 == |calls| {
      assert (calls + [c])[|calls|] == c;
    }
  }

  /** The run so far, with one more accepted simulation. */
  lemma AcceptExtends(env: Env, steps: seq<Step>, forkId: string, run: Run, tx: Transaction, simId: string, payload: string)
    requires ChainedSoFar(env, steps, forkId, run) && |run.calls| == |run.links| + 1
    requires |run.links| < |steps|
    requires Prepare(env, steps[|run.links|], |run.links|) == Ok(tx)
    requires env.remote(|run.calls|, SimulateCall(env.cfg, forkId, tx, run.head)) == Accepted(simId, payload)
    ensures var calls := run.calls + [SimulateCall(env.cfg, forkId, tx, run.head)];
            ChainedSoFar(env, steps, forkId,
                         Run(Done, calls, Some(simId),
                             run.links + [ViewSimulationEndpoint(env.cfg, forkId, Some(simId))]))
  {
    var n := |run.links|;
    var call := SimulateCall(env.cfg, forkId, tx, run.head);
    StepsChainedExtend(env, steps, forkId, run.calls, tx, call);
    AcceptedExtend(env, run.calls, call, n);
    LinksExtend(env, forkId, run.calls, run.links, call);
    assert ReplyId(env, run.calls + [call], n + 1) == Some(simId) by {
      assert (run.calls + [call])[n + 1] == call;
    }
  }

  /** The run so far, ended by a rejected simulation of step `n`. */
  lemma RejectSettles(env: Env, steps: seq<Step>, forkId: string, run: Run, tx: Transaction, body: string)
    requires ChainedSoFar(env, steps, forkId, run) && |run.calls| == |run.links| + 1
    requires |run.links| < |steps|
    requires Prepare(env, steps[|run.links|], |run.links|) == Ok(tx)
    requires env.remote(|run.calls|, SimulateCall(env.cfg, forkId, tx, run.head)) == Rejected(body)
    ensures var r := run.(outcome := Failed(SimulationFailed(|run.links|, body)),
                          calls := run.calls + [SimulateCall(env.cfg, forkId, tx, run.head)]);
            ChainedSoFar(env, steps, forkId, r) && Ended(env, steps, r, |r.links|)
  {
    var n := |run.links|;
    var call := SimulateCall(env.cfg, forkId, tx, run.head);
    StepsChainedExtend(env, steps, forkId, run.calls, tx, call);
    AcceptedExtend(env, run.calls, call, n);
    LinksExtend(env, forkId, run.calls, run.links, call);
    HeadBeforePrefix(env, run.calls, call, n + 1);
    assert (run.calls + [call])[n + 1] == call;
  }

  /** The run so far, ended because step `n` could not be prepared. */
  lemma PrepareFailSettles(env: Env, steps: seq<Step>, forkId: string, run: Run, e: RunError)
    requires ChainedSoFar(env, steps, forkId, run) && |run.calls| == |run.links| + 1
    requires |run.links| < |steps|
    requires Prepare(env, steps[|run.links|], |run.links|) == Err(e)
    ensures var r := run.(outcome := Failed(e));
            ChainedSoFar(env, steps, forkId, r) && Ended(env, steps, r, |r.links|)
  {
  }

  lemma {:induction false} ContinueSettles(env: Env, forkId: string, steps: seq<Step>, i: nat, run: Run)
    requires i <= |steps| && |run.links| == i && |run.calls| == i + 1 && run.outcome == Done
    requires ChainedSoFar(env, steps, forkId, run)
    ensures var r := Continue(env, forkId, steps, i, run);
            && |r.calls| >= 1 && r.calls[0] == run.calls[0]
            && ChainedSoFar(env, steps, forkId, r) && Ended(env, steps, r, |r.links|)
    decreases |steps| - i
  {
    if i < |steps| {
      match Prepare(env, steps[i], i) {
        case Err(e) =>
          PrepareFailSettles(env, steps, forkId, run, e);
        case Ok(tx) =>
          var call := SimulateCall(env.cfg, forkId, tx, run.head);
          match env.remote(|run.calls|, call) {
            case Rejected(body) =>
              RejectSettles(env, steps, forkId, run, tx, body);
            case Accepted(simId, payload) =>
              AcceptExtends(env, steps, forkId, run, tx, simId, payload);
              var next := Run(Done, run.calls + [call], Some(simId),
                              run.links + [ViewSimulationEndpoint(env.cfg, forkId, Some(simId))]);
              ContinueSettles(env, forkId, steps, i + 1, next);
          }
      }
    }
  }

  /** Whatever the steps, the registry, the encoder and the service's answers,
      `Execute` produces a run that `Settled` describes. */
  lemma ExecuteSettles(env: Env, steps: seq<Step>)
    ensures Settled(env, steps, Execute(env, steps))
  {
    if |steps| > 0 {
      var create := CreateForkCall(env.cfg);
      match env.remote(0, create) {
        case Rejected(_) =>
        case Accepted(forkId, _) =>
          var start := Run(Done, [create], None, []);
          assert ChainedSoFar(env, steps, forkId, start);
          ContinueSettles(env, forkId, steps, 0, start);
      }
    }
  }
}
