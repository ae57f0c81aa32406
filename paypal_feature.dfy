/**
 * `PaypalFeatureServiceImpl` (academy_core/paypal/impl/src/lib.rs): buying Morphcoins through
 * PayPal. Creating a coin order asks PayPal for an order and records it; capturing one asks
 * PayPal to collect the payment, marks the order captured and credits its coins. Each runs in
 * one database transaction: a failure after a database write leaves the database as it was.
 * PayPal's reply to each request is a parameter of the operation that sends it, so every call
 * may get a different answer (a fresh order id, a capture that succeeds once the buyer has
 * confirmed); each request is logged together with the reply it got.
 */
module PaypalFeature {
  import opened Wrappers
  import opened Models
  import opened CoinRepository
  import opened PaypalRepository
  import PaypalCoinOrder

  /** `PaypalCreateCoinOrderError`; `Internal` is the `Other` error the modelled state can raise. */
  datatype CreateError =
    | InvalidAmount(min: U64, max: U64)
    | CreateAuth(authError: AuthError)
    | IncompleteInvoiceInfo
    | CreateOrderFailure
    | CreateInternal

  /** `PaypalCaptureCoinOrderError`. */
  datatype CaptureError =
    | CaptureAuth(authError: AuthError)
    | NotFound
    | CaptureIncompleteInvoiceInfo
    | CaptureOrderFailure
    | CaptureInternal

  /** One `PaypalApiService::create_order` call: the amount, and PayPal's order id or `None`. */
  datatype CreateCall = CreateCall(coins: U64, reply: Option<string>)

  /** One `PaypalApiService::capture_order` call: the order id, and whether PayPal collected. */
  datatype CaptureCall = CaptureCall(orderId: string, collected: bool)

  class PaypalFeatureSvc {
    const authenticate: string -> Option<Authentication>
    /** The public PayPal client id `get_client_id` returns. */
    const clientId: string
    /** `purchase_range`, inclusive at both ends. */
    const minCoins: U64
    const maxCoins: U64
    var users: map<UserId, UserComposite>
    const paypalRepo: PaypalRepo
    const coinOrder: PaypalCoinOrder.CoinOrderSvc

    /** The orders PayPal was asked to create, with its replies, in order. */
    ghost var createCalls: seq<CreateCall>
    /** The orders PayPal was asked to capture, with its replies, in order. */
    ghost var captureCalls: seq<CaptureCall>
    /** The orders whose coins were credited, in order. */
    ghost var credited: seq<string>

    /**
     * The coin order table is the one the order service writes, and an order is captured
     * exactly when its coins were credited, which happened at most once.
     */
    ghost predicate Valid()
      reads this, paypalRepo
    {
      && coinOrder.paypalRepo == paypalRepo
      && paypalRepo.Valid()
      && (forall id :: id in paypalRepo.orders ==> (paypalRepo.orders[id].capturedAt.Some? <==> id in credited))
      && (forall i :: 0 <= i < |credited| ==> credited[i] in paypalRepo.orders)
      && (forall i, j :: 0 <= i < j < |credited| ==> credited[i] != credited[j])
    }

    /**
     * A service over an existing order table: `alreadyCredited` lists, once each, the orders
     * captured (and so credited) before this service was built.
     */
    constructor (authenticate: string -> Option<Authentication>, clientId: string,
                 minCoins: U64, maxCoins: U64, users: map<UserId, UserComposite>,
                 coinOrder: PaypalCoinOrder.CoinOrderSvc, ghost alreadyCredited: seq<string>)
      requires coinOrder.paypalRepo.Valid()
      requires forall id :: id in coinOrder.paypalRepo.orders ==>
        (coinOrder.paypalRepo.orders[id].capturedAt.Some? <==> id in alreadyCredited)
      requires forall i :: 0 <= i < |alreadyCredited| ==> alreadyCredited[i] in coinOrder.paypalRepo.orders
      requires forall i, j :: 0 <= i < j < |alreadyCredited| ==> alreadyCredited[i] != alreadyCredited[j]
      ensures Valid()
      ensures this.authenticate == authenticate && this.clientId == clientId
      ensures this.minCoins == minCoins && this.maxCoins == maxCoins && this.users == users
      ensures this.paypalRepo == coinOrder.paypalRepo && this.coinOrder == coinOrder
      ensures createCalls == [] && captureCalls == [] && credited == alreadyCredited
    {
      this.authenticate := authenticate;
      this.clientId := clientId;
      this.minCoins := minCoins;
      this.maxCoins := maxCoins;
      this.users := users;
      this.paypalRepo := coinOrder.paypalRepo;
      this.coinOrder := coinOrder;
      createCalls := [];
      captureCalls := [];
      credited := alreadyCredited;
    }

    /**
     * `create_coin_order`. The checks run in this order: the amount against the purchase range,
     * the access token, the verified email address, the caller's user row, the invoice
     * information. PayPal is asked for an order only when all pass; `paypalReply` is its answer,
     * the new order id or `None` when it refuses. The order it returns is recorded, uncaptured,
     * for the caller under a fresh invoice number. Recording can still fail (a taken id,
     * exhausted invoice numbers); the PayPal order then stays unrecorded.
     */
    method CreateCoinOrder(token: string, coins: U64, now: DateTime, paypalReply: Option<string>)
      returns (r: Result<string, CreateError>)
      requires Valid()
      modifies this, paypalRepo
      ensures Valid()
      ensures users == old(users) && captureCalls == old(captureCalls) && credited == old(credited)
      ensures !(minCoins <= coins <= maxCoins) ==>
        r == Err(InvalidAmount(minCoins, maxCoins)) && createCalls == old(createCalls) && paypalRepo.orders == old(paypalRepo.orders)
      ensures minCoins <= coins <= maxCoins && authenticate(token).None? ==>
        r == Err(CreateAuth(InvalidToken)) && createCalls == old(createCalls) && paypalRepo.orders == old(paypalRepo.orders)
      ensures minCoins <= coins <= maxCoins && authenticate(token).Some? ==>
        var auth := authenticate(token).value;
        if !auth.emailVerified then
          r == Err(CreateAuth(EmailNotVerified)) && createCalls == old(createCalls) && paypalRepo.orders == old(paypalRepo.orders)
        else if auth.userId !in users then
          r == Err(CreateInternal) && createCalls == old(createCalls) && paypalRepo.orders == old(paypalRepo.orders)
        else if !users[auth.userId].canBuyCoins then
          r == Err(IncompleteInvoiceInfo) && createCalls == old(createCalls) && paypalRepo.orders == old(paypalRepo.orders)
        else
          && createCalls == old(createCalls) + [CreateCall(coins, paypalReply)]
          && (paypalReply.None? ==> r == Err(CreateOrderFailure) && paypalRepo.orders == old(paypalRepo.orders))
          && (paypalReply.Some? ==>
                (r.Ok? <==> && paypalReply.value !in old(paypalRepo.orders) && coins <= I64_MAX
                            && forall id :: id in old(paypalRepo.orders) ==> old(paypalRepo.orders)[id].invoiceNumber < I64_MAX)
                && (r.Err? ==> r == Err(CreateInternal) && paypalRepo.orders == old(paypalRepo.orders)))
      ensures r.Ok? ==>
        && authenticate(token).Some?
        && paypalReply == Some(r.value)
        && r.value !in old(paypalRepo.orders) && r.value in paypalRepo.orders
        && var order := paypalRepo.orders[r.value];
        && order == CoinOrder(r.value, authenticate(token).value.userId, now, None, coins, order.invoiceNumber)
        && (forall id :: id in old(paypalRepo.orders) ==> old(paypalRepo.orders)[id].invoiceNumber < order.invoiceNumber)
        && paypalRepo.orders == old(paypalRepo.orders)[r.value := order]
    {
      if !(minCoins <= coins <= maxCoins) {
        return Err(InvalidAmount(minCoins, maxCoins));
      }
      var auth := authenticate(token);
      if auth.None? {
        return Err(CreateAuth(InvalidToken));
      }
      var denied := EnsureEmailVerified(auth.value);
      if denied.Some? {
        return Err(CreateAuth(denied.value));
      }
      if auth.value.userId !in users {
        return Err(CreateInternal);
      }
      if !users[auth.value.userId].canBuyCoins {
        return Err(IncompleteInvoiceInfo);
      }
      createCalls := createCalls + [CreateCall(coins, paypalReply)];
      if paypalReply.None? {
        return Err(CreateOrderFailure);
      }
      var order := coinOrder.Create(paypalReply.value, auth.value.userId, coins, now);
      if order.Err? {
        return Err(CreateInternal);
      }
      r := Ok(order.value.id);
    }

    /**
     * `capture_coin_order`. The order must exist, belong to the caller and not be captured yet,
     * else `NotFound`; the caller must be able to buy coins. PayPal is asked to collect only
     * then, and `collected` is its answer. Only a successful collection marks the order captured
     * and credits its coins to the caller's spendable balance, which is returned.
     */
    method CaptureCoinOrder(token: string, orderId: string, now: DateTime, collected: bool)
      returns (r: Result<Balance, CaptureError>)
      requires Valid()
      modifies this, paypalRepo, coinOrder.coinRepo
      ensures Valid()
      ensures users == old(users) && createCalls == old(createCalls)
      ensures authenticate(token).None? ==> r == Err(CaptureAuth(InvalidToken))
      ensures authenticate(token).Some? && !authenticate(token).value.emailVerified ==>
        r == Err(CaptureAuth(EmailNotVerified))
      ensures authenticate(token).Some? && authenticate(token).value.emailVerified ==>
        var auth := authenticate(token).value;
        if orderId !in old(paypalRepo.orders) || old(paypalRepo.orders)[orderId].userId != auth.userId
           || old(paypalRepo.orders)[orderId].capturedAt.Some? then
          r == Err(NotFound)
        else if auth.userId !in users then
          r == Err(CaptureInternal)
        else if !users[auth.userId].canBuyCoins then
          r == Err(CaptureIncompleteInvoiceInfo)
        else
          && captureCalls == old(captureCalls) + [CaptureCall(orderId, collected)]
          && (!collected ==> r == Err(CaptureOrderFailure))
          && (collected ==> r.Ok?)
      ensures r.Err? && r != Err(CaptureOrderFailure) ==> captureCalls == old(captureCalls)
      ensures r.Err? ==>
        && paypalRepo.orders == old(paypalRepo.orders) && coinOrder.coinRepo.balances == old(coinOrder.coinRepo.balances)
        && credited == old(credited)
      ensures r.Ok? ==>
        && authenticate(token).Some? && collected
        && orderId in old(paypalRepo.orders)
        && var order := old(paypalRepo.orders)[orderId];
        && var before := old(coinOrder.coinRepo.GetBalance(order.userId));
        && order.userId == authenticate(token).value.userId && order.capturedAt.None?
        && r.value == Balance(before.coins + order.coins, before.withheldCoins)
        && coinOrder.coinRepo.balances == old(coinOrder.coinRepo.balances)[order.userId := r.value]
        && paypalRepo.orders == old(paypalRepo.orders)[orderId := order.(capturedAt := Some(now))]
        && credited == old(credited) + [orderId]
    {
      var auth := authenticate(token);
      if auth.None? {
        return Err(CaptureAuth(InvalidToken));
      }
      var denied := EnsureEmailVerified(auth.value);
      if denied.Some? {
        return Err(CaptureAuth(denied.value));
      }
      var found := paypalRepo.GetCoinOrder(orderId);
      if found.None? || found.value.userId != auth.value.userId || found.value.capturedAt.Some? {
        return Err(NotFound);
      }
      var order := found.value;
      if auth.value.userId !in users {
        return Err(CaptureInternal);
      }
      if !users[auth.value.userId].canBuyCoins {
        return Err(CaptureIncompleteInvoiceInfo);
      }
      captureCalls := captureCalls + [CaptureCall(orderId, collected)];
      if !collected {
        return Err(CaptureOrderFailure);
      }
      var balance := coinOrder.Capture(order, now);
      // A stored order holds at most `i64::MAX` coins and a credit is never refused.
      assert balance.Ok?;
      credited := credited + [orderId];
      r := Ok(balance.value);
    }
  }
}
