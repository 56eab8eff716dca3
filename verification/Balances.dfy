/** Amounts held per address or other key, absent meaning none, with a checked withdrawal. */
module Balances {
  import opened Outcomes

  type Address = nat

  function Amount(m: map<nat, nat>, k: nat): nat {
    if k in m then m[k] else 0
  }

  function Plus(m: map<nat, nat>, k: nat, amount: nat): map<nat, nat> {
    m[k := Amount(m, k) + amount]
  }

  function Minus<E>(m: map<nat, nat>, k: nat, amount: nat, short: E): Result<map<nat, nat>, E> {
    if amount <= Amount(m, k) then Success(m[k := Amount(m, k) - amount]) else Failure(short)
  }
}
