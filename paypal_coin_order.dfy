/**
 * `PaypalCoinOrderServiceImpl` (academy_core/paypal/impl/src/coin_order.rs): records a new coin
 * order under the next free invoice number, and captures one by stamping it and crediting its
 * coins to the buyer's spendable balance. It runs inside its caller's transaction and commits
 * nothing; the clock is a parameter.
 */
module PaypalCoinOrder {
  import opened Wrappers
  import opened Models
  import opened CoinRepository
  import opened PaypalRepository

  /** The `anyhow` errors these two steps can raise from the modelled state. */
  datatype OrderError =
    | Repo(repoError: RepoError)  // from the coin order table
    | CoinsOutOfRange             // `u64` coins that are not an `i64`
    | AddCoinsFailed              // the ledger refused the credit

  class CoinOrderSvc {
    const paypalRepo: PaypalRepo
    const coinRepo: CoinRepo

    constructor (paypalRepo: PaypalRepo, coinRepo: CoinRepo)
      ensures this.paypalRepo == paypalRepo && this.coinRepo == coinRepo
    {
      this.paypalRepo := paypalRepo;
      this.coinRepo := coinRepo;
    }

    /**
     * `create`: the new order belongs to `userId`, holds `coins`, was created `now`, is not
     * captured, and carries an invoice number above every stored one; exactly that order is
     * stored. It fails, storing nothing, when the invoice numbers are exhausted, when the id is
     * taken or when `coins` is not an `i64`.
     */
    method Create(id: string, userId: UserId, coins: U64, now: DateTime) returns (r: Result<CoinOrder, OrderError>)
      requires paypalRepo.Valid()
      modifies paypalRepo
      ensures paypalRepo.Valid()
      ensures r.Ok? <==>
        && (forall k :: k in old(paypalRepo.orders) ==> old(paypalRepo.orders)[k].invoiceNumber < I64_MAX)
        && coins <= I64_MAX
        && id !in old(paypalRepo.orders)
      ensures r.Ok? ==>
        && r.value.id == id && r.value.userId == userId && r.value.coins == coins
        && r.value.createdAt == now && r.value.capturedAt == None
        && (forall k :: k in old(paypalRepo.orders) ==> old(paypalRepo.orders)[k].invoiceNumber < r.value.invoiceNumber)
        && paypalRepo.orders == old(paypalRepo.orders)[id := r.value]
      ensures r.Err? ==> paypalRepo.orders == old(paypalRepo.orders)
    {
      var next := paypalRepo.GetNextInvoiceNumber();
      if next.Err? {
        return Err(Repo(next.error));
      }
      var order := CoinOrder(id, userId, now, None, coins, next.value);
      var created := paypalRepo.CreateCoinOrder(order);
      if created.Err? {
        return Err(Repo(created.error));
      }
      r := Ok(order);
    }

    /**
     * `capture`: stamps the order as captured `now` (this step is not undone here when the
     * next one fails), then credits its coins to the owner's spendable, not withheld, balance
     * and returns the new balance. A credit is never refused.
     */
    method Capture(order: CoinOrder, now: DateTime) returns (r: Result<Balance, OrderError>)
      requires paypalRepo.Valid()
      modifies paypalRepo, coinRepo
      ensures paypalRepo.Valid()
      ensures order.id in old(paypalRepo.orders) ==>
        paypalRepo.orders == old(paypalRepo.orders)[order.id := old(paypalRepo.orders)[order.id].(capturedAt := Some(now))]
      ensures order.id !in old(paypalRepo.orders) ==> paypalRepo.orders == old(paypalRepo.orders)
      ensures order.coins > I64_MAX ==> r == Err(CoinsOutOfRange) && coinRepo.balances == old(coinRepo.balances)
      ensures order.coins <= I64_MAX ==>
        var before := old(coinRepo.GetBalance(order.userId));
        && r == Ok(Balance(before.coins + order.coins, before.withheldCoins))
        && coinRepo.balances == old(coinRepo.balances)[order.userId := r.value]
    {
      paypalRepo.CaptureCoinOrder(order.id, now);
      if order.coins > I64_MAX {
        return Err(CoinsOutOfRange);
      }
      var added := coinRepo.AddCoins(order.userId, order.coins, false);
      if added.Err? {
        return Err(AddCoinsFailed);
      }
      r := Ok(added.value);
    }
  }
}
