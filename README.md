# Chained simulations — a Dafny model

The scenario runner reads a list of contract calls ("steps") and replays
them against the Tenderly simulation service. It does this in three stages:

1. It creates one fork of network "1".
2. For each step, it resolves the contract in a registry and ABI-encodes the
   call. It then posts the transaction to the fork's simulate endpoint.
3. Every simulation is rooted at the previous one: the fork's `head`. Each
   accepted simulation becomes the new head, and the dashboard link to it
   is reported. The first failure ends the run.

The model has six modules:

- `Decimal` (`decimal.dfy`): the decimal rendering of naturals and its
  inverse. It is `toString()` of `gas_price` and `value` for integer amounts
  up to 2^53, which a JavaScript number holds exactly.
- `JsValues` (`js_values.dfy`): the JavaScript semantics the runner relies
  on. This covers the optional numeric fields of a step, truthiness, `||`,
  `toString()`, and the exclusive-or `^`.
- `Endpoints` (`endpoints.dfy`): the credential record and the three URLs,
  plus a `/`-splitting read-back. It shows that each URL names its account,
  project, fork and simulation unambiguously.
- `Simulation` (`fork.dfy`): the request body, and the `Fork` session.
  `Fork` is a class whose `head` field `Simulate` updates in place.
  `StartFork` is fork creation.
- `Runner` (`runner.dfy`): the runner itself.
  - `Execute` is the run written as a function.
  - `RunScenario` is the loop the program runs, proved equal to `Execute`.
  - `Settled` characterises every finished run independently of how the run
    is computed. `ExecuteSettles` proves that every run of `Execute`
    satisfies it.
- `Guarantees` (`guarantees.dfy`): the runner's promises, derived from
  `Settled`. An empty scenario posts nothing. Simulations chain their roots.
  A finished run simulated every step. The first failure stops the run and
  hands on the service's error body unchanged.

The model treats the program's collaborators as parameters of `Env`:

- The simulation service is an oracle that answers the n-th HTTP call of a
  run. Call 0 creates the fork.
- The ABI encoder (`ethers`' `populateTransaction`) is a partial function
  from address, ABI, method and parameters to a target and call data.
- The contract registry is a map.

The gas-price default is written `10 ^ 9` in the program. In JavaScript `^`
is exclusive or, so the default is 3, not the billion wei evidently intended.
The model keeps the value the program computes (`Runner.GasPriceDefault`).
`Runner.GasPriceDefaultIsXor` proves that this value is the exclusive or and
differs from `Runner.IntendedGasPriceDefault`.

The model follows the code in these places:

- The root is sent only when `!!fork.head` holds. A head equal to the empty
  string is therefore not sent as a root.
- A link is rendered from the head the fork has after the accepted
  simulation.
- An unknown contract name ends the run. In the program, destructuring
  `undefined` throws at that point. The model reports it as
  `UnknownContract`.

## Model

| member | source | states |
|---|---|---|
| Decimal.ParseNatToString | src/index.js:79-80 | reading back the decimal numeral of a natural yields that natural; this agrees with `toString()` on integer amounts up to 2^53, and amounts of any size are exact only when the scenario gives them as strings |
| Decimal.NatToStringParse | src/index.js:79-80 | every canonical numeral (digits only, no leading zero) is the rendering of the number it denotes |
| Decimal.NatToStringInjective | src/index.js:79-80 | distinct naturals render as distinct numerals; for JavaScript numbers this holds up to 2^53 |
| JsValues.ToString | src/index.js:79-80 | a number renders as a canonical numeral that parses back to it; a string renders as itself |
| JsValues.OrDefaults | src/index.js:33-35 | the logical or of `a` and `b` is truthy when `b` is; it keeps `a` exactly when `a` is truthy or equals `b`; an explicit `0` or `""` is replaced |
| Runner.GasPriceDefaultIsXor | src/index.js:34 | the gas-price default is `10` exclusive-or `9`, and is not 10 to the 9th |
| Runner.StepTransaction | src/index.js:29-36 | `from`, `to` and `input` come from the step and the encoded payload; gas and gas price are always truthy; each of gas and gas price is kept exactly when the step's value is truthy, else replaced by 100000 or the default; value is kept exactly when truthy or an explicit 0, else becomes 0 |
| Runner.Prepare | src/index.js:20-27 | a step fails with `UnknownContract` exactly when its contract is not in the registry; it fails with `EncodingFailed` exactly when the contract is known and the encoder rejects the call; otherwise the contract is known, the encoder accepted the call, and the transaction is the step's: its sender, the encoded target and call data, and gas, gas price and value defaulted with the logical or to 100000, the gas-price default and 0 |
| Simulation.RequestBody | src/index.js:74-86 | the body carries `root` exactly when the head is truthy, and then `root` is the head; `save` is set; `from`, `to`, `input` and `gas` are copied; `gas_price` and `value` are the string itself or a canonical numeral that parses back to the number |
| Simulation.Fork.Simulate | src/index.js:73-99 | posts the request body for the current head to the fork's simulate URL; on acceptance the head becomes the new simulation's id and the response is returned; on rejection the head is unchanged and the error body is returned verbatim |
| Simulation.Fork.constructor | src/index.js:70 | a new fork session has the service's id and no head |
| Simulation.StartFork | src/index.js:63-71 | posts `network_id` "1" to the workspace's fork URL; on acceptance returns a fresh fork with the returned id and no head; on rejection returns the error |
| Endpoints.ForkEndpointSegments | src/index.js:101-103 | the fork URL splits at `/` into the API host, `api/v1/account/<account>/project/<project>/fork` |
| Endpoints.SimulateEndpointSegments | src/index.js:88 | the simulate URL is the fork URL followed by the fork id and `simulate` |
| Endpoints.ViewSimulationSegments | src/index.js:105-107 | the dashboard link splits at `/` into the dashboard host, account, project, `fork`, fork id, `simulation` and the head |
| Endpoints.ViewSimulationEndpointInjective | src/index.js:105-107 | two dashboard links are equal only when they name the same account, project, fork and head |
| Runner.RunScenario | src/index.js:7-40 | the loop of `main` produces exactly the run `Execute` describes: the same calls in the same order, the same final head, the same links and the same outcome |
| Runner.ExecuteSettles | src/index.js:12-39 | every run is settled: either it is an empty scenario with no call, or call 0 creates the fork and then a rejection ends the run, or every later call simulates the next step from the head left by the previous call, every step before the last simulated one was accepted with one link each, the head is the last accepted id, and the run ends in exactly one of the ways `Ended` lists |
| Guarantees.EmptyScenarioPostsNothing | src/index.js:12-15 | a run reports an empty scenario exactly when there are no steps, and then posts nothing, not even a fork |
| Guarantees.SimulationsChainRoots | src/index.js:19-36 | call `k` after the fork is a simulation of step `k - 1` posted to the fork's simulate URL: the encoder accepted the step's call, and the body is the request for the step's transaction (encoded target and call data, the step's sender, gas defaulted to 100000) from the head before it, saved; the first has no root, and each later one is rooted at the id returned for the simulation before it, exactly when that id is not empty |
| Guarantees.DoneSimulatesEveryStep | src/index.js:19-39 | a finished run posted the fork and one accepted simulation per step, reported the dashboard link of each new head in order, and leaves the head at the last simulation |
| Guarantees.FailureEndsRun | src/index.js:17-36 | a failed run ends at the first failure: fork rejection posts nothing more; an unknown contract or a rejected encoding posts no simulation for its step; a rejected simulation is the last call and its error body is handed on unchanged; every earlier step was accepted with a link, and the head is the last accepted id (none before the first) |

## Left out

- Reading `config.json`, the contract registry and the scenario file from disk, the command-line argument, and the exit codes are not modelled. The three documents are parameters: `Config`, `Env.registry` and the step list.
- Console output (the progress lines and the error printed before exit) is not modelled. Each reported link is kept in `Run.links` in order.
- The HTTP client, the `X-Access-Key` header (the key is kept in `Config` but never used by the model), JSON, and the asynchrony of the calls are abstracted. The service is an oracle indexed by call number, and each call completes before the next is made.
- A transport failure without a response makes `error.response.data` throw a different error in the program. The model treats every failure as a `Rejected` answer with an error body.
- `startFork` rejects with the whole HTTP error, not its body. `ForkFailed` carries an opaque body.
- ABI encoding (`ethers`' `Contract` and `populateTransaction`) is not modelled. It is the oracle `Env.encode`, and its failure is `EncodingFailed`.
- Decimal.NatToStringInjective: holds for the model's naturals. A JSON number in the program is a double, so above 2^53 two different amounts can be sent as the same string.
- Decimal.ParseNatToString: holds for the model's naturals. A JSON number in the program is a double, so `toString()` rounds amounts above 2^53 (2^53 and 2^53 + 1 are sent alike) and uses exponent notation from 1e21 up. Large amounts are exact only when the scenario gives them as strings.
- JsValues.ToString: numbers are non-negative integers. IEEE-754 doubles, precision loss above 2^53, the exponent notation `toString()` uses from 1e21 up, and negative or fractional amounts are not modelled.
- JsValues.BitwiseXor: defined only on operands below 2^31, which is all the program applies it to. ToInt32 wrap-around of larger operands is not modelled.
- Scenario fields of other JSON types (booleans, objects, arrays) are not modelled. A step's `gas`, `gas_price` and `value` are missing, `null`, a number or a string.
