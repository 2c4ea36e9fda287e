/** Vocabulary shared by every part of the model. */
module Domain {

  datatype Option<+T> = None | Some(value: T)

  /** A 20-byte contract or wallet address, compared by its numeric value. */
  type Address = nat

  /** A height; the code uses `u64`, and `FetchPlanner.PlanFetch` checks that width. */
  type BlockNumber = nat

  /** One `eth_getLogs` entry. */
  datatype Log = Log(address: Address, topics: seq<nat>, block: Option<BlockNumber>)

  /** What is published on a session's broadcast channel. */
  datatype BalanceEvent =
    | BalanceUpdate(diff: map<Address, nat>)
    | Error(code: nat)

  /** The balances an event carries; an error carries none. */
  function Payload(event: BalanceEvent): map<Address, nat> {
    if event.BalanceUpdate? then event.diff else map[]
  }

  function Max(a: nat, b: nat): nat {
    if a < b then b else a
  }

  function Min(a: nat, b: nat): nat {
    if a < b then a else b
  }
}
