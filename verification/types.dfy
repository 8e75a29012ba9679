/** The data contracts shared by the broker, the gate, the ledger and the operator (flowers/types.py). */
module Types {

  datatype Option<+T> = None | Some(value: T)

  /** Parameters of an action. Their digest is modelled as the parameters themselves. */
  type Params = map<string, string>

  /** One world-touching call the executor asks for. */
  datatype Call = Call(toolkit: string, action: string, params: Params, browser: bool)

  /** The exact-action authorization key: an injective picture of toolkit, action and parameters. */
  datatype GrantKey = GrantKey(toolkit: string, action: string, params: Params)

  function KeyOf(c: Call): GrantKey {
    GrantKey(c.toolkit, c.action, c.params)
  }

  function Get<K>(m: map<K, nat>, k: K): nat {
    if k in m then m[k] else 0
  }

  function Max(a: int, b: int): int { if a > b then a else b }

  function Min(a: int, b: int): int { if a < b then a else b }

  function Label(toolkit: string, action: string): string {
    toolkit + ":" + action
  }

  datatype Phase = Forwarded | Attempted | Deferred | Denied | Failed | Refused

  /** The bookkeeping part of an effect; the gate reads only the grant key from it. */
  datatype Detail = Detail(
    grantKey: Option<GrantKey>,
    readbackError: bool,
    ownerConfirmed: bool,
    replay: bool,
    stepIndex: Option<nat>)

  const NoDetail := Detail(None, false, false, false, None)

  /** The flat record of a world-touching action that the gate adjudicates. */
  datatype Effect = Effect(
    id: Option<nat>,
    toolkit: string,
    action: string,
    sideEffecting: Option<bool>,
    mutating: bool,
    phase: Phase,
    drift: Option<bool>,
    expected: Option<bool>,
    effectKind: string,
    verification: Option<string>,
    observer: Option<string>,
    actor: Option<string>,
    detail: Detail)
}
