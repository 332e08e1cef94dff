/** The token contract as the payment contract sees it: balances per token and
    account, and a transfer that either moves the amount or aborts. */
module Token {
  import opened Common

  /** Keyed by (token, account); an absent key is a zero balance. */
  type Balances = map<(Address, Address), int>

  function Balance(b: Balances, token: Address, account: Address): int {
    Lookup(b, (token, account), 0)
  }

  function Transfer(b: Balances, token: Address, from: Address, to: Address, amount: int): Result<Balances> {
    var available := Balance(b, token, from);
    :- Need(0 <= amount <= available, Trap);
    var debited := b[(token, from) := available - amount];
    :- Need(Balance(debited, token, to) + amount <= I128_MAX, Trap);
    Ok(debited[(token, to) := Balance(debited, token, to) + amount])
  }

  /** What moving `amount` from `from` to `to` adds to one account. */
  function Flow(from: Address, to: Address, amount: int, account: Address): int {
    (if account == to then amount else 0) - (if account == from then amount else 0)
  }

  lemma TransferFlow(b: Balances, token: Address, from: Address, to: Address, amount: int, t: Address, a: Address)
    requires Transfer(b, token, from, to, amount).Ok?
    ensures Balance(Transfer(b, token, from, to, amount).value, t, a)
         == Balance(b, t, a) + if t == token then Flow(from, to, amount, a) else 0
  {
  }

  /** All units of one token, over every account that ever held it. */
  ghost function Supply(b: Balances, token: Address): int {
    if b == map[] then 0
    else
      var k :| k in b;
      (if k.0 == token then b[k] else 0) + Supply(b - {k}, token)
  }

  lemma {:induction false} SupplyWithout(b: Balances, token: Address, k: (Address, Address))
    requires k in b
    ensures Supply(b, token) == (if k.0 == token then b[k] else 0) + Supply(b - {k}, token)
    decreases |b|
  {
    var p :| p in b && Supply(b, token) == (if p.0 == token then b[p] else 0) + Supply(b - {p}, token);
    if p != k {
      SupplyWithout(b - {p}, token, k);
      SupplyWithout(b - {k}, token, p);
      assert b - {p} - {k} == b - {k} - {p};
    }
  }

  lemma SupplyUpdate(b: Balances, token: Address, k: (Address, Address), v: int)
    ensures Supply(b[k := v], token)
         == Supply(b, token) + if k.0 == token then v - Lookup(b, k, 0) else 0
  {
    var b' := b[k := v];
    SupplyWithout(b', token, k);
    if k in b {
      SupplyWithout(b, token, k);
      assert b' - {k} == b - {k};
    } else {
      assert b' - {k} == b;
    }
  }

  /** A transfer neither creates nor destroys units of any token. */
  lemma TransferKeepsSupply(b: Balances, token: Address, from: Address, to: Address, amount: int, t: Address)
    requires Transfer(b, token, from, to, amount).Ok?
    ensures Supply(Transfer(b, token, from, to, amount).value, t) == Supply(b, t)
  {
    var debited := b[(token, from) := Balance(b, token, from) - amount];
    SupplyUpdate(b, t, (token, from), Balance(b, token, from) - amount);
    SupplyUpdate(debited, t, (token, to), Balance(debited, token, to) + amount);
  }
}
