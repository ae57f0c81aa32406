/**
 * `CoinServiceImpl` (academy_core/coin/impl/src/coin.rs): forwards a balance change to the
 * ledger repository and renames its `NotEnoughCoins` error. The transaction description and the
 * credit-note flag are accepted and not used.
 */
module CoinService {
  import opened Wrappers
  import opened Models
  import opened CoinRepository

  datatype CoinAddCoinsError = NotEnoughCoins

  /** The arguments of one `add_coins` call, as a caller handed them over. */
  datatype AddCoinsRequest = AddCoinsRequest(
    userId: UserId,
    coins: I64,
    withhold: bool,
    description: Option<string>,
    includeInCreditNote: bool)

  /** The repository error, renamed to the service's error. */
  function MapRepoError(r: Result<Balance, RepoAddCoinsError>): (s: Result<Balance, CoinAddCoinsError>)
    ensures s.Ok? <==> r.Ok?
    ensures s.Ok? ==> s.value == r.value
  {
    match r
    case Ok(b) => Ok(b)
    case Err(NotEnoughCoins) => Err(CoinAddCoinsError.NotEnoughCoins)
  }

  class CoinSvc {
    const repo: CoinRepo
    /** Every request this service received, in order. */
    ghost var requests: seq<AddCoinsRequest>

    constructor (repo: CoinRepo)
      ensures this.repo == repo && requests == []
    {
      this.repo := repo;
      requests := [];
    }

    /**
     * `add_coins`: the user, the amount and the withhold flag reach the repository unchanged, its
     * new balance is returned unchanged, and the result does not depend on the description or
     * the credit-note flag.
     */
    method AddCoins(userId: UserId, coins: I64, withhold: bool, description: Option<string>, includeInCreditNote: bool)
      returns (r: Result<Balance, CoinAddCoinsError>)
      modifies this, repo
      ensures requests == old(requests) + [AddCoinsRequest(userId, coins, withhold, description, includeInCreditNote)]
      ensures r == MapRepoError(ApplyAddCoins(old(repo.GetBalance(userId)), coins, withhold))
      ensures r.Ok? ==> repo.balances == old(repo.balances)[userId := r.value]
      ensures r.Err? ==> repo.balances == old(repo.balances)
    {
      requests := requests + [AddCoinsRequest(userId, coins, withhold, description, includeInCreditNote)];
      var res := repo.AddCoins(userId, coins, withhold);
      r := MapRepoError(res);
    }
  }
}
