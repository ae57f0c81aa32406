/**
 * `CoinFeatureServiceImpl` (academy_core/coin/impl/src/lib.rs): the caller-facing balance query
 * and the administrator's balance change.
 */
module CoinFeature {
  import opened Wrappers
  import opened Models
  import opened CoinRepository
  import CoinService

  /** `CoinGetBalanceError` and `CoinAddCoinsError` of the feature. */
  datatype CoinFeatureError = Auth(err: AuthError) | UserNotFound | NotEnoughCoins

  class CoinFeatureSvc {
    /** The access-token check of the auth service. */
    const authenticate: string -> Option<Authentication>
    var users: map<UserId, UserComposite>
    const coin: CoinService.CoinSvc

    constructor (authenticate: string -> Option<Authentication>, users: map<UserId, UserComposite>, coin: CoinService.CoinSvc)
      ensures this.authenticate == authenticate && this.users == users && this.coin == coin
    {
      this.authenticate := authenticate;
      this.users := users;
      this.coin := coin;
    }

    /**
     * `get_balance`: `me` resolves to the caller, who must be that user or an administrator;
     * an unknown user is `UserNotFound`; otherwise the stored balance.
     */
    function GetBalance(token: string, target: UserIdOrSelf): (r: Result<Balance, CoinFeatureError>)
      reads this, coin, coin.repo
      ensures authenticate(token).None? ==> r == Err(Auth(InvalidToken))
      ensures authenticate(token).Some? ==>
        var auth := authenticate(token).value;
        var id := ResolveUser(target, auth);
        if auth.userId != id && !auth.admin then r == Err(Auth(NotAdmin))
        else if id !in users then r == Err(UserNotFound)
        else r == Ok(coin.repo.GetBalance(id))
    {
      match authenticate(token)
      case None => Err(Auth(InvalidToken))
      case Some(auth) =>
        var id := ResolveUser(target, auth);
        match EnsureSelfOrAdmin(auth, id)
        case Some(e) => Err(Auth(e))
        case None =>
          if id !in users then Err(UserNotFound) else Ok(coin.repo.GetBalance(id))
    }

    /**
     * `add_coins`: only an administrator may change a balance, even their own; an unknown user
     * is `UserNotFound`; the change is never withheld; `NotEnoughCoins` passes through and
     * leaves the balance as it was.
     */
    method AddCoins(token: string, target: UserIdOrSelf, coins: I64, description: Option<string>, includeInCreditNote: bool)
      returns (r: Result<Balance, CoinFeatureError>)
      modifies coin, coin.repo
      ensures authenticate(token).None? ==> r == Err(Auth(InvalidToken)) && unchanged(coin, coin.repo)
      ensures authenticate(token).Some? && !authenticate(token).value.admin ==>
        r == Err(Auth(NotAdmin)) && unchanged(coin, coin.repo)
      ensures authenticate(token).Some? && authenticate(token).value.admin ==>
        var id := ResolveUser(target, authenticate(token).value);
        if id !in users then r == Err(UserNotFound) && unchanged(coin, coin.repo)
        else
          && coin.requests == old(coin.requests) + [CoinService.AddCoinsRequest(id, coins, false, description, includeInCreditNote)]
          && match ApplyAddCoins(old(coin.repo.GetBalance(id)), coins, false)
             case Ok(b) => r == Ok(b) && coin.repo.balances == old(coin.repo.balances)[id := b]
             case Err(_) => r == Err(CoinFeatureError.NotEnoughCoins) && coin.repo.balances == old(coin.repo.balances)
    {
      var auth := authenticate(token);
      if auth.None? {
        return Err(Auth(InvalidToken));
      }
      var id := ResolveUser(target, auth.value);
      var denied := EnsureAdmin(auth.value);
      if denied.Some? {
        return Err(Auth(denied.value));
      }
      if id !in users {
        return Err(UserNotFound);
      }
      var res := coin.AddCoins(id, coins, false, description, includeInCreditNote);
      match res
      case Ok(b) => r := Ok(b);
      case Err(_) => r := Err(CoinFeatureError.NotEnoughCoins);
    }
  }
}
