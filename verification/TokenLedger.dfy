/** The token contracts: a ledger of balances in which a transfer is rejected when it is
    negative or exceeds the payer's balance. */
module TokenLedger {
  import opened Outcomes
  import opened Records

  function Balance(b: Balances, token: Address, holder: Address): nat {
    if (token, holder) in b then b[(token, holder)] else 0
  }

  function Credit(b: Balances, token: Address, holder: Address, amount: nat): Balances {
    b[(token, holder) := Balance(b, token, holder) + amount]
  }

  function Transfer(b: Balances, token: Address, from: Address, to: Address, amount: int): Result<Balances> {
    if amount < 0 || Balance(b, token, from) < amount then Err(TransferFailed) else
    Ok(Credit(b[(token, from) := Balance(b, token, from) - amount], token, to, amount))
  }

  /** A transfer moves the amount between its two parties and touches nothing else; paying
      oneself changes nothing. */
  lemma TransferMoves(b: Balances, token: Address, from: Address, to: Address, amount: int, t: Address, h: Address)
    requires Transfer(b, token, from, to, amount).Ok?
    ensures var after := Transfer(b, token, from, to, amount).value;
            Balance(after, t, h) == Balance(b, t, h)
              + (if t == token && h == to then amount else 0)
              - (if t == token && h == from then amount else 0)
  {
  }

  class TokenLedger {
    var balances: Balances

    constructor ()
      ensures balances == map[]
    {
      balances := map[];
    }

    method Move(token: Address, from: Address, to: Address, amount: int) returns (r: Status)
      modifies this
      ensures r == StatusOf(Transfer(old(balances), token, from, to, amount))
      ensures balances == Commit(old(balances), Transfer(old(balances), token, from, to, amount))
    {
      var held := Balance(balances, token, from);
      if amount < 0 || held < amount { return Failed(TransferFailed); }
      balances := balances[(token, from) := held - amount];
      balances := balances[(token, to) := Balance(balances, token, to) + amount];
      return Done;
    }

    method Restore(saved: Balances)
      modifies this
      ensures balances == saved
    {
      balances := saved;
    }
  }
}
