/** The simulation client: a fork session whose head advances with every
    accepted simulation, the request body a simulation is posted with, and
    fork creation. The service itself is an oracle that answers each call. */
module Simulation {
  import opened Wrappers
  import opened Decimal
  import opened JsValues
  import opened Endpoints

  /** The network every fork is created for. */
  const NetworkId: string := "1"

  /** The transaction a step asks to simulate, after its defaults are applied. */
  datatype Transaction = Transaction(
    from: string, to: string, input: string,
    gas: JsValue, gasPrice: JsValue, value: JsValue)

  /** The JSON body of a simulate request. `gas` is sent as it was given,
      `gas_price` and `value` as strings; `root` is present or not. */
  datatype SimulateBody = SimulateBody(
    from: string, to: string, input: string, gas: JsValue,
    gasPrice: string, value: string, save: bool, root: Option<string>)

  /** A call posted to the service. */
  datatype Call =
    | PostFork(url: string, networkId: string)
    | PostSimulate(url: string, body: SimulateBody)

  /** The service's answer: the id of what it created (a fork or a
      simulation) with the whole response payload, or the error body it
      sent back. */
  datatype Response = Accepted(id: string, payload: string) | Rejected(body: string)

  /** What a successful simulate hands back to its caller. */
  datatype SimulationResult = SimulationResult(id: string, payload: string)

  /** `!!fork.head`: the head is present and not the empty string. */
  predicate HeadTruthy(head: Option<string>) {
    head.Some? && head.value != ""
  }

  /** The body `simulate` posts for `tx` when the fork's head is `head`. */
  function RequestBody(tx: Transaction, head: Option<string>): (b: SimulateBody)
    requires Stringifiable(tx.gasPrice) && Stringifiable(tx.value)
    ensures b.root.Some? <==> HeadTruthy(head)
    ensures b.root.Some? ==> head == b.root
    ensures b.save
    ensures b.from == tx.from && b.to == tx.to && b.input == tx.input && b.gas == tx.gas
    ensures tx.gasPrice.Num? ==> IsCanonical(b.gasPrice) && ParseDecimal(b.gasPrice) == tx.gasPrice.n
    ensures tx.gasPrice.Str? ==> b.gasPrice == tx.gasPrice.s
    ensures tx.value.Num? ==> IsCanonical(b.value) && ParseDecimal(b.value) == tx.value.n
    ensures tx.value.Str? ==> b.value == tx.value.s
  {
    SimulateBody(tx.from, tx.to, tx.input, tx.gas, ToString(tx.gasPrice), ToString(tx.value),
                 true, if HeadTruthy(head) then head else None)
  }

  /** The call `simulate` posts for `tx` against fork `forkId` at `head`. */
  function SimulateCall(cfg: Config, forkId: string, tx: Transaction, head: Option<string>): Call
    requires Stringifiable(tx.gasPrice) && Stringifiable(tx.value)
  {
    PostSimulate(SimulateEndpoint(cfg, forkId), RequestBody(tx, head))
  }

  /** The call `startFork` posts. */
  function CreateForkCall(cfg: Config): Call {
    PostFork(ForkEndpoint(cfg), NetworkId)
  }

  /** A fork session: the id the service gave the fork, and the id of the
      last simulation accepted on it, if any. */
  class Fork {
    const id: string
    var head: Option<string>

    constructor (id: string)
      ensures this.id == id && head == None
    {
      this.id := id;
      head := None;
    }

    /** Posts `tx` against this fork, rooted at the current head when the
        head is truthy. An accepted simulation becomes the new head; a
        rejection leaves the head alone and hands back the service's error
        body unchanged. */
    method Simulate(cfg: Config, tx: Transaction, remote: Call -> Response)
      returns (call: Call, r: Result<SimulationResult, string>)
      requires Stringifiable(tx.gasPrice) && Stringifiable(tx.value)
      modifies this
      ensures call == SimulateCall(cfg, id, tx, old(head))
      ensures remote(call).Accepted? ==>
                head == Some(remote(call).id)
                && r == Ok(SimulationResult(remote(call).id, remote(call).payload))
      ensures remote(call).Rejected? ==> head == old(head) && r == Err(remote(call).body)
    {
      var data := SimulateBody(tx.from, tx.to, tx.input, tx.gas,
                               ToString(tx.gasPrice), ToString(tx.value), true, None);
      if HeadTruthy(head) {
        data := data.(root := head);
      }
      call := PostSimulate(SimulateEndpoint(cfg, id), data);
      match remote(call) {
        case Accepted(simId, payload) =>
          head := Some(simId);
          r := Ok(SimulationResult(simId, payload));
        case Rejected(body) =>
          r := Err(body);
      }
    }
  }

  /** Asks the service for a new fork of network "1". The fork starts with
      no head. */
  method StartFork(cfg: Config, remote: Call -> Response) returns (call: Call, r: Result<Fork, string>)
    ensures call == CreateForkCall(cfg)
    ensures remote(call).Accepted? ==>
              r.Ok? && fresh(r.value) && r.value.id == remote(call).id && r.value.head == None
    ensures remote(call).Rejected? ==> r == Err(remote(call).body)
  {
    call := CreateForkCall(cfg);
    match remote(call) {
      case Accepted(forkId, _) =>
        var fork := new Fork(forkId);
        r := Ok(fork);
      case Rejected(body) =>
        r := Err(body);
    }
  }
}
