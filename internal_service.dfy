/**
 * `InternalServiceImpl` (academy_core/internal/impl/src/lib.rs): the endpoints other services
 * call with an internal token. User lookups need the audience `auth`, coin grants need `shop`.
 */
module InternalService {
  import opened Wrappers
  import opened Models
  import opened CoinRepository
  import CoinService

  /** `InternalGetUserError`, `InternalGetUserByEmailError` and `InternalAddCoinsError`. */
  datatype InternalError = InvalidToken | NotFound | UserNotFound | NotEnoughCoins

  const AUTH_AUDIENCE: string := "auth"
  const SHOP_AUDIENCE: string := "shop"

  /**
   * Whether a grant is withheld: a non-negative amount for a user who cannot receive coins.
   * A removal (a negative amount) is never withheld.
   */
  predicate Withhold(coins: int, canReceiveCoins: bool)
  {
    coins >= 0 && !canReceiveCoins
  }

  /**
   * What a grant does to a balance under the withhold rule: a non-negative grant always
   * succeeds and lands in the withheld coins exactly when the user cannot receive coins, in the
   * spendable coins otherwise; a removal only ever takes spendable coins and is refused exactly
   * when they do not cover it. Only one of the two counters ever changes.
   */
  lemma GrantOutcome(b: Balance, coins: int, canReceiveCoins: bool)
    ensures var r := ApplyAddCoins(b, coins, Withhold(coins, canReceiveCoins));
      && (coins >= 0 && !canReceiveCoins ==> r == Ok(Balance(b.coins, b.withheldCoins + coins)))
      && (coins >= 0 && canReceiveCoins ==> r == Ok(Balance(b.coins + coins, b.withheldCoins)))
      && (coins < 0 ==> (r.Err? <==> b.coins + coins < 0))
      && (coins < 0 && r.Ok? ==> r == Ok(Balance(b.coins + coins, b.withheldCoins)))
  {
  }

  class InternalSvc {
    /** `AuthInternalService::authenticate(token, audience)`: whether the token is valid for it. */
    const authenticateInternal: (string, string) -> bool
    var users: map<UserId, UserComposite>
    const coin: CoinService.CoinSvc

    /** Every user row is stored under its own id, and no two users share an email address. */
    ghost predicate Valid()
      reads this
    {
      && (forall id :: id in users ==> users[id].user.id == id)
      && (forall id1, id2 ::
            (id1 in users && id2 in users && users[id1].user.email.Some? && users[id1].user.email == users[id2].user.email)
            ==> id1 == id2)
    }

    constructor (authenticateInternal: (string, string) -> bool, users: map<UserId, UserComposite>, coin: CoinService.CoinSvc)
      requires forall id :: id in users ==> users[id].user.id == id
      requires forall id1, id2 ::
                 (id1 in users && id2 in users && users[id1].user.email.Some? && users[id1].user.email == users[id2].user.email)
                 ==> id1 == id2
      ensures Valid()
      ensures this.authenticateInternal == authenticateInternal && this.users == users && this.coin == coin
    {
      this.authenticateInternal := authenticateInternal;
      this.users := users;
      this.coin := coin;
    }

    /** `get_user`: needs the `auth` audience; a missing user is `NotFound`. */
    function GetUser(token: string, userId: UserId): (r: Result<UserComposite, InternalError>)
      reads this
      ensures !authenticateInternal(token, "auth") ==> r == Err(InternalError.InvalidToken)
      ensures authenticateInternal(token, "auth") && userId !in users ==> r == Err(NotFound)
      ensures r.Ok? <==> authenticateInternal(token, "auth") && userId in users
      ensures r.Ok? ==> r.value == users[userId]
    {
      if !authenticateInternal(token, AUTH_AUDIENCE) then Err(InternalError.InvalidToken)
      else if userId !in users then Err(NotFound)
      else Ok(users[userId])
    }

    /**
     * `get_user_by_email`: needs the `auth` audience; the user whose address it is, or
     * `NotFound`. Addresses are unique, so that user is the only candidate.
     */
    method GetUserByEmail(token: string, email: string) returns (r: Result<UserComposite, InternalError>)
      requires Valid()
      ensures !authenticateInternal(token, "auth") ==> r == Err(InternalError.InvalidToken)
      ensures authenticateInternal(token, "auth") ==>
        if exists id :: id in users && users[id].user.email == Some(email)
        then r.Ok? && r.value in users.Values && r.value.user.email == Some(email)
        else r == Err(NotFound)
      ensures r.Ok? ==> forall id :: id in users && users[id].user.email == Some(email) ==> r.value == users[id]
    {
      if !authenticateInternal(token, AUTH_AUDIENCE) {
        return Err(InternalError.InvalidToken);
      }
      if exists id :: id in users && users[id].user.email == Some(email) {
        var id :| id in users && users[id].user.email == Some(email);
        r := Ok(users[id]);
      } else {
        r := Err(NotFound);
      }
    }

    /**
     * `add_coins`: needs the `shop` audience; a missing user is `UserNotFound`; the amount,
     * description and credit-note flag go to the coin service unchanged together with the
     * withhold decision; `NotEnoughCoins` passes through and leaves the balance as it was.
     */
    method AddCoins(token: string, userId: UserId, coins: I64, description: Option<string>, includeInCreditNote: bool)
      returns (r: Result<Balance, InternalError>)
      modifies coin, coin.repo
      ensures !authenticateInternal(token, "shop") ==> r == Err(InternalError.InvalidToken) && unchanged(coin, coin.repo)
      ensures authenticateInternal(token, "shop") && userId !in users ==>
        r == Err(UserNotFound) && unchanged(coin, coin.repo)
      ensures authenticateInternal(token, "shop") && userId in users ==>
        var withhold := Withhold(coins, users[userId].canReceiveCoins);
        && coin.requests == old(coin.requests) + [CoinService.AddCoinsRequest(userId, coins, withhold, description, includeInCreditNote)]
        && match ApplyAddCoins(old(coin.repo.GetBalance(userId)), coins, withhold)
           case Ok(b) => r == Ok(b) && coin.repo.balances == old(coin.repo.balances)[userId := b]
           case Err(_) => r == Err(InternalError.NotEnoughCoins) && coin.repo.balances == old(coin.repo.balances)
    {
      if !authenticateInternal(token, SHOP_AUDIENCE) {
        return Err(InternalError.InvalidToken);
      }
      if userId !in users {
        return Err(UserNotFound);
      }
      var withhold := Withhold(coins, users[userId].canReceiveCoins);
      var res := coin.AddCoins(userId, coins, withhold, description, includeInCreditNote);
      match res
      case Ok(b) => r := Ok(b);
      case Err(_) => r := Err(InternalError.NotEnoughCoins);
    }
  }
}
