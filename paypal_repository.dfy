/**
 * `PostgresPaypalRepository` (academy_persistence/postgres/src/paypal.rs) as an in-memory table
 * of coin orders keyed by their PayPal order id. Numbers are stored as `bigint`, so a value above
 * `i64::MAX` cannot be inserted, and every stored value reads back as a `u64`.
 */
module PaypalRepository {
  import opened Wrappers
  import opened Models

  /** `PaypalCoinOrder`. */
  datatype CoinOrder = CoinOrder(
    id: string,
    userId: UserId,
    createdAt: DateTime,
    capturedAt: Option<DateTime>,
    coins: U64,
    invoiceNumber: U64)

  /** The database errors the in-memory table can produce. */
  datatype RepoError =
    | OutOfRange      // a `u64` that does not fit the `bigint` column
    | DuplicateId     // the order id is already stored
    | BigintOverflow  // `max(invoice_number) + 1` leaves the `bigint` range

  class PaypalRepo {
    var orders: map<string, CoinOrder>

    /** Rows are stored under their own id and hold only values a `bigint` can carry. */
    ghost predicate Valid()
      reads this
    {
      forall id :: id in orders ==>
        orders[id].id == id && orders[id].coins <= I64_MAX && orders[id].invoiceNumber <= I64_MAX
    }

    constructor ()
      ensures Valid() && orders == map[]
    {
      orders := map[];
    }

    /** `create_coin_order`: inserts the row, refusing values above `i64::MAX` and a taken id. */
    method CreateCoinOrder(order: CoinOrder) returns (r: Result<(), RepoError>)
      requires Valid()
      modifies this
      ensures Valid()
      ensures order.coins > I64_MAX || order.invoiceNumber > I64_MAX ==> r == Err(OutOfRange)
      ensures r.Ok? <==> order.coins <= I64_MAX && order.invoiceNumber <= I64_MAX && order.id !in old(orders)
      ensures r.Ok? ==> orders == old(orders)[order.id := order]
      ensures r.Err? ==> orders == old(orders)
    {
      if order.coins > I64_MAX || order.invoiceNumber > I64_MAX {
        return Err(OutOfRange);
      }
      if order.id in orders {
        return Err(DuplicateId);
      }
      orders := orders[order.id := order];
      r := Ok(());
    }

    /** `get_coin_order`: the stored row, or `None` for an absent id. */
    function GetCoinOrder(id: string): (r: Option<CoinOrder>)
      reads this
      ensures r.None? <==> id !in orders
      ensures r.Some? ==> r.value == orders[id]
    {
      if id in orders then Some(orders[id]) else None
    }

    /**
     * `capture_coin_order`: sets `captured_at` of the matching row and nothing else; an absent
     * id changes nothing and is not an error.
     */
    method CaptureCoinOrder(id: string, capturedAt: DateTime)
      requires Valid()
      modifies this
      ensures Valid()
      ensures id in old(orders) ==> orders == old(orders)[id := old(orders)[id].(capturedAt := Some(capturedAt))]
      ensures id !in old(orders) ==> orders == old(orders)
    {
      if id in orders {
        orders := orders[id := orders[id].(capturedAt := Some(capturedAt))];
      }
    }

    /**
     * `get_next_invoice_number`: `coalesce(max(invoice_number), 0) + 1`. The result is larger
     * than every stored invoice number and is one more than the largest (or 1 when there is
     * none); the addition fails when the largest is already `i64::MAX`.
     */
    method GetNextInvoiceNumber() returns (r: Result<U64, RepoError>)
      requires Valid()
      ensures r.Err? <==> exists id :: id in orders && orders[id].invoiceNumber == I64_MAX
      ensures r.Err? ==> r.error == BigintOverflow
      ensures r.Ok? ==> forall id :: id in orders ==> orders[id].invoiceNumber < r.value
      ensures r.Ok? ==> r.value == 1 || exists id :: id in orders && orders[id].invoiceNumber == r.value - 1
    {
      var largest := 0;
      var rest := orders.Keys;
      while rest != {}
        invariant rest <= orders.Keys
        invariant 0 <= largest <= I64_MAX
        invariant forall id :: id in orders && id !in rest ==> orders[id].invoiceNumber <= largest
        invariant largest == 0 || exists id :: id in orders && id !in rest && orders[id].invoiceNumber == largest
        decreases rest
      {
        var id :| id in rest;
        if orders[id].invoiceNumber > largest {
          largest := orders[id].invoiceNumber;
        }
        rest := rest - {id};
      }
      if largest == I64_MAX {
        return Err(BigintOverflow);
      }
      r := Ok(largest + 1);
    }
  }
}
