/**
 * The PayPal test server (academy_testing/src/paypal.rs): an in-memory order table behind the
 * four endpoints the backend and its tests use. Orders move Created -> Confirmed -> Captured.
 * Credentials are the Basic-auth user name and password of a request; the random order id is a
 * parameter; malformed JSON and a missing Authorization header are not modelled.
 */
module PaypalMockServer {
  import opened Wrappers
  import opened Models

  /** `Order`: the status and, until capture, the price in cents. */
  datatype OrderState = Created(coins: U64) | Confirmed(coins: U64) | Captured

  datatype Amount = Amount(currencyCode: string, value: string)
  datatype PurchaseUnit = PurchaseUnit(amount: Amount)
  /** `CreateOrderRequest`. */
  datatype CreateOrderRequest = CreateOrderRequest(intent: string, purchaseUnits: seq<PurchaseUnit>)

  datatype Body =
    | Text(text: string)
    | OrderJson(order: OrderState)
    | CreatedJson(id: string)    // `CreateOrderResponse`
    | CaptureJson(status: string) // `CaptureOrderResponse`

  /**
   * A handler's reply. `Aborted` is the arithmetic overflow in the price, which stops the
   * handler without a reply when overflow checks are on.
   */
  datatype Reply = Reply(status: nat, body: Body) | Aborted

  const OK: nat := 200
  const CREATED: nat := 201
  const BAD_REQUEST: nat := 400
  const UNAUTHORIZED: nat := 401
  const NOT_FOUND: nat := 404

  // ---------------------------------------------------------------------------------------------
  // The order life cycle
  // ---------------------------------------------------------------------------------------------

  /** One move of the life cycle: confirm keeps the price, capture drops it. */
  predicate Step(s: OrderState, t: OrderState)
  {
    (s.Created? && t == Confirmed(s.coins)) || (s.Confirmed? && t == Captured)
  }

  /** How far along the life cycle a state is. */
  function Stage(s: OrderState): (n: nat)
    ensures n <= 2
  {
    match s
    case Created(_) => 0
    case Confirmed(_) => 1
    case Captured => 2
  }

  /** Every move goes exactly one stage forward, so no state is ever entered twice. */
  lemma StepAdvances(s: OrderState, t: OrderState)
    requires Step(s, t)
    ensures Stage(t) == Stage(s) + 1
  {
  }

  /** Nothing follows capture. */
  lemma CapturedIsFinal(t: OrderState)
    ensures !Step(Captured, t)
  {
  }

  /** The states an order created at price `c` passes through, after `n` moves. */
  function After(c: U64, n: nat): (s: OrderState)
    requires n <= 2
    ensures Stage(s) == n
  {
    if n == 0 then Created(c) else if n == 1 then Confirmed(c) else Captured
  }

  /** Every run from `Created(c)` is a prefix of `Created(c), Confirmed(c), Captured`. */
  lemma {:induction false} RunFromCreated(c: U64, run: seq<OrderState>)
    requires |run| >= 1 && run[0] == Created(c)
    requires forall i :: 0 <= i < |run| - 1 ==> Step(run[i], run[i + 1])
    ensures |run| <= 3
    ensures forall i :: 0 <= i < |run| ==> run[i] == After(c, i)
  {
    if |run| > 1 {
      RunFromCreated(c, run[..|run| - 1]);
      var k := |run| - 2;
      assert run[k] == After(c, k);
      assert Step(run[k], run[k + 1]);
    }
  }

  // ---------------------------------------------------------------------------------------------
  // Prices
  // ---------------------------------------------------------------------------------------------

  predicate IsDigit(ch: char) { '0' <= ch <= '9' }

  predicate AllDigits(s: string)
  {
    forall i :: 0 <= i < |s| ==> IsDigit(s[i])
  }

  /** The number a string of decimal digits denotes, most significant first. */
  function DigitsValue(s: string): (n: nat)
    requires AllDigits(s)
  {
    if s == [] then 0 else DigitsValue(s[..|s| - 1]) * 10 + (s[|s| - 1] as int - '0' as int)
  }

  /**
   * `u64::from_str`: one optional leading `+`, then at least one decimal digit, within `u64`.
   * A `-` is refused, as is an empty string or a lone `+`.
   */
  function ParseU64(s: string): (r: Option<U64>)
    ensures r.Some? <==>
      var digits := if |s| > 0 && s[0] == '+' then s[1..] else s;
      |digits| > 0 && AllDigits(digits) && DigitsValue(digits) <= U64_MAX
    ensures r.Some? ==> r.value == DigitsValue(if s[0] == '+' then s[1..] else s)
  {
    var digits := if |s| > 0 && s[0] == '+' then s[1..] else s;
    if |digits| > 0 && AllDigits(digits) && DigitsValue(digits) <= U64_MAX then Some(DigitsValue(digits))
    else None
  }

  /** `str::find`: the index of the first occurrence of `ch`. */
  function FindChar(s: string, ch: char): (r: Option<nat>)
    ensures r.None? <==> ch !in s
    ensures r.Some? ==> r.value < |s| && s[r.value] == ch && ch !in s[..r.value]
  {
    if s == [] then None
    else if s[0] == ch then Some(0)
    else match FindChar(s[1..], ch)
      case None => None
      case Some(i) => assert s[1..][..i] == s[1..i + 1]; Some(i + 1)
  }

  /** The outcome of reading a price: cents, malformed text, or an overflowing `u64`. */
  datatype PriceResult = Price(cents: U64) | Malformed | Overflow

  /** `value` is `<a>.<b>` with its first `.` at `i`, `a` non-empty and `b` two characters. */
  predicate PriceShape(value: string, i: int)
  {
    0 < i && i + 3 == |value| && value[i] == '.' && '.' !in value[..i]
  }

  /**
   * The price of a create request: `<a>.<b>`, split at the first `.`, with `a` non-empty and
   * `b` exactly two characters, both `u64`s; the value is `a * 100 + b`. `a` is read and
   * multiplied before `b` is read. Any other shape is malformed (see `ParsePriceComplete` for
   * the outcome on every well-shaped price).
   */
  function ParsePrice(value: string): (r: PriceResult)
    ensures !r.Malformed? ==> exists i :: PriceShape(value, i)
    ensures r.Price? ==>
      var i := |value| - 3;
      ParseU64(value[..i]).Some? && ParseU64(value[i + 1..]).Some?
      && r.cents == ParseU64(value[..i]).value * 100 + ParseU64(value[i + 1..]).value
    ensures '.' !in value ==> r == Malformed
  {
    match FindChar(value, '.')
    case None => Malformed
    case Some(i) =>
      var a := value[..i];
      var b := value[i + 1..];
      if |a| == 0 || |b| != 2 then Malformed
      else
        assert PriceShape(value, i);
        match ParseU64(a)
        case None => Malformed
        case Some(whole) =>
          if whole * 100 > U64_MAX then Overflow
          else match ParseU64(b)
            case None => Malformed
            case Some(cents) =>
              if whole * 100 + cents > U64_MAX then Overflow else Price(whole * 100 + cents)
  }

  /**
   * On a well-shaped price the outcome is decided by its two parts: both read and the total
   * within `u64` is that price; a whole part whose cents overflow, or a total that does, is an
   * overflow; a part that does not read is malformed (the cents only once the whole part fits).
   */
  lemma ParsePriceComplete(value: string, i: int)
    requires PriceShape(value, i)
    ensures var a := ParseU64(value[..i]); var b := ParseU64(value[i + 1..]);
      && (a.None? ==> ParsePrice(value) == Malformed)
      && (a.Some? && a.value * 100 > U64_MAX ==> ParsePrice(value) == Overflow)
      && (a.Some? && a.value * 100 <= U64_MAX && b.None? ==> ParsePrice(value) == Malformed)
      && (a.Some? && a.value * 100 <= U64_MAX && b.Some? && a.value * 100 + b.value > U64_MAX ==>
            ParsePrice(value) == Overflow)
      && (a.Some? && b.Some? && a.value * 100 + b.value <= U64_MAX ==>
            ParsePrice(value) == Price(a.value * 100 + b.value))
  {
  }

  /** The checks of `create_order` on the body: intent, one purchase unit, euros, the price. */
  function CheckCreateRequest(req: CreateOrderRequest): (r: PriceResult)
    ensures req.intent != "CAPTURE" || |req.purchaseUnits| != 1 ==> r == Malformed
    ensures |req.purchaseUnits| == 1 && req.purchaseUnits[0].amount.currencyCode != "EUR" ==> r == Malformed
    ensures req.intent == "CAPTURE" && |req.purchaseUnits| == 1 && req.purchaseUnits[0].amount.currencyCode == "EUR" ==>
      r == ParsePrice(req.purchaseUnits[0].amount.value)
  {
    if req.intent != "CAPTURE" || |req.purchaseUnits| != 1 || req.purchaseUnits[0].amount.currencyCode != "EUR" then
      Malformed
    else
      ParsePrice(req.purchaseUnits[0].amount.value)
  }

  /** What `generate_order_id` produces: 32 ASCII letters and digits. */
  predicate IsOrderId(id: string)
  {
    |id| == 32 && forall i :: 0 <= i < |id| ==> ('0' <= id[i] <= '9' || 'a' <= id[i] <= 'z' || 'A' <= id[i] <= 'Z')
  }

  // ---------------------------------------------------------------------------------------------
  // The server
  // ---------------------------------------------------------------------------------------------

  class MockServer {
    const clientId: string
    const clientSecret: string
    var orders: map<string, OrderState>

    constructor (clientId: string, clientSecret: string)
      ensures this.clientId == clientId && this.clientSecret == clientSecret && orders == map[]
    {
      this.clientId := clientId;
      this.clientSecret := clientSecret;
      orders := map[];
    }

    /**
     * `create_order`: wrong credentials are 401 and a refused body 400, both storing nothing;
     * otherwise the order is stored as `Created` at the parsed price under the new id.
     */
    method CreateOrder(username: string, password: string, req: CreateOrderRequest, freshId: string)
      returns (reply: Reply)
      requires IsOrderId(freshId)
      modifies this
      ensures username != clientId || password != clientSecret ==>
        reply == Reply(UNAUTHORIZED, Text("unauthorized")) && orders == old(orders)
      ensures username == clientId && password == clientSecret ==>
        match CheckCreateRequest(req)
        case Price(p) => reply == Reply(CREATED, CreatedJson(freshId)) && orders == old(orders)[freshId := Created(p)]
        case Malformed => reply == Reply(BAD_REQUEST, Text("bad request")) && orders == old(orders)
        case Overflow => reply == Aborted && orders == old(orders)
    {
      if username != clientId || password != clientSecret {
        return Reply(UNAUTHORIZED, Text("unauthorized"));
      }
      var price := CheckCreateRequest(req);
      match price
      case Malformed => reply := Reply(BAD_REQUEST, Text("bad request"));
      case Overflow => reply := Aborted;
      case Price(p) =>
        orders := orders[freshId := Created(p)];
        reply := Reply(CREATED, CreatedJson(freshId));
    }

    /** `get_order`: the stored state, or 404. */
    function GetOrder(id: string): (reply: Reply)
      reads this
      ensures id in orders <==> reply.Reply? && reply.status == OK
      ensures id in orders ==> reply.body == OrderJson(orders[id])
      ensures id !in orders ==> reply == Reply(NOT_FOUND, Text("not found"))
    {
      if id in orders then Reply(OK, OrderJson(orders[id])) else Reply(NOT_FOUND, Text("not found"))
    }

    /** `confirm_order`: needs no credentials; only a `Created` order moves on, keeping its price. */
    method ConfirmOrder(id: string) returns (reply: Reply)
      modifies this
      ensures id in old(orders) && old(orders)[id].Created? ==>
        && orders == old(orders)[id := Confirmed(old(orders)[id].coins)]
        && Step(old(orders)[id], orders[id])
        && reply == Reply(OK, OrderJson(orders[id]))
      ensures !(id in old(orders) && old(orders)[id].Created?) ==>
        reply == Reply(NOT_FOUND, Text("not found")) && orders == old(orders)
    {
      if id in orders && orders[id].Created? {
        orders := orders[id := Confirmed(orders[id].coins)];
        reply := Reply(OK, OrderJson(orders[id]));
      } else {
        reply := Reply(NOT_FOUND, Text("not found"));
      }
    }

    /** `capture_order`: needs the credentials; only a `Confirmed` order is captured. */
    method CaptureOrder(username: string, password: string, id: string) returns (reply: Reply)
      modifies this
      ensures username != clientId || password != clientSecret ==>
        reply == Reply(UNAUTHORIZED, Text("unauthorized")) && orders == old(orders)
      ensures username == clientId && password == clientSecret ==>
        if id in old(orders) && old(orders)[id].Confirmed? then
          && orders == old(orders)[id := Captured]
          && Step(old(orders)[id], orders[id])
          && reply == Reply(CREATED, CaptureJson("COMPLETED"))
        else
          reply == Reply(NOT_FOUND, Text("not found")) && orders == old(orders)
    {
      if username != clientId || password != clientSecret {
        return Reply(UNAUTHORIZED, Text("unauthorized"));
      }
      if id in orders && orders[id].Confirmed? {
        orders := orders[id := Captured];
        reply := Reply(CREATED, CaptureJson("COMPLETED"));
      } else {
        reply := Reply(NOT_FOUND, Text("not found"));
      }
    }
  }
}
