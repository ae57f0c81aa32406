/**
 * The Morphcoin ledger repository. Its `add_coins` has no implementation here; it is specified
 * by what the repository tests demand: the `withhold` flag selects whether `withheld_coins` or
 * `coins` changes, and a change that would make that field negative is refused with
 * `NotEnoughCoins`. A user without a stored balance has the zero balance.
 */
module CoinRepository {
  import opened Wrappers
  import opened Models

  datatype Balance = Balance(coins: nat, withheldCoins: nat)

  datatype RepoAddCoinsError = NotEnoughCoins

  /** The balance after adding `delta` (possibly negative) to the field `withhold` selects. */
  function ApplyAddCoins(b: Balance, delta: int, withhold: bool): (r: Result<Balance, RepoAddCoinsError>)
    ensures r.Err? <==> (if withhold then b.withheldCoins else b.coins) + delta < 0
    ensures r.Ok? && withhold ==>
      r.value.withheldCoins == b.withheldCoins + delta && r.value.coins == b.coins
    ensures r.Ok? && !withhold ==>
      r.value.coins == b.coins + delta && r.value.withheldCoins == b.withheldCoins
  {
    if withhold then
      if b.withheldCoins + delta < 0 then Err(NotEnoughCoins)
      else Ok(b.(withheldCoins := b.withheldCoins + delta))
    else
      if b.coins + delta < 0 then Err(NotEnoughCoins)
      else Ok(b.(coins := b.coins + delta))
  }

  /** Taking back what was just added restores the balance: adding `-delta` undoes `delta`. */
  lemma AddThenRemove(b: Balance, delta: int, withhold: bool)
    requires ApplyAddCoins(b, delta, withhold).Ok?
    ensures ApplyAddCoins(ApplyAddCoins(b, delta, withhold).value, -delta, withhold) == Ok(b)
  {
  }

  /** A non-negative grant is never refused. */
  lemma GrantNeverRefused(b: Balance, delta: int, withhold: bool)
    requires delta >= 0
    ensures ApplyAddCoins(b, delta, withhold).Ok?
  {
  }

  class CoinRepo {
    var balances: map<UserId, Balance>

    constructor ()
      ensures balances == map[]
    {
      balances := map[];
    }

    /** `get_balance`: the stored balance, zero when none is stored. */
    function GetBalance(userId: UserId): (b: Balance)
      reads this
      ensures userId !in balances ==> b == Balance(0, 0)
      ensures userId in balances ==> b == balances[userId]
    {
      if userId in balances then balances[userId] else Balance(0, 0)
    }

    /** `add_coins`: applies the change to one user's balance, or changes nothing. */
    method AddCoins(userId: UserId, delta: I64, withhold: bool) returns (r: Result<Balance, RepoAddCoinsError>)
      modifies this
      ensures r == ApplyAddCoins(old(GetBalance(userId)), delta, withhold)
      ensures r.Ok? ==> balances == old(balances)[userId := r.value]
      ensures r.Err? ==> balances == old(balances)
    {
      r := ApplyAddCoins(GetBalance(userId), delta, withhold);
      if r.Ok? {
        balances := balances[userId := r.value];
      }
    }
  }
}
