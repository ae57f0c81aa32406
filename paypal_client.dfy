/**
 * The pure parts of `PaypalApiServiceImpl` (academy_extern/impl/src/paypal.rs): the price text
 * of a create request, the request body, how the two replies are classified, and the
 * configuration default. The HTTP exchange itself is not modelled; a reply enters as its status
 * code and the field the client reads from its JSON body (`None` when the body does not parse).
 */
module PaypalClient {
  import opened Wrappers
  import opened Models
  import opened PaypalMockServer

  /** `BASE_URL`. */
  const BASE_URL: string := "https://api.paypal.com"

  /** `PaypalOrderId`'s limit on the length of an order id. */
  const ORDER_ID_MAX_LENGTH: nat := 256

  /** The digit character for `d`. */
  function DigitChar(d: nat): (ch: char)
    requires d < 10
    ensures IsDigit(ch) && ch as int - '0' as int == d
  {
    ('0' as int + d) as char
  }

  /** `n` in decimal without leading zeros (`0` is `"0"`), as `format!("{}")` writes it. */
  function Decimal(n: nat): (s: string)
    ensures |s| >= 1 && AllDigits(s)
    ensures s[0] != '+' && '.' !in s
  {
    if n < 10 then [DigitChar(n)] else Decimal(n / 10) + [DigitChar(n % 10)]
  }

  /** Reading the decimal text back gives the number. */
  lemma {:induction false} DecimalValue(n: nat)
    ensures DigitsValue(Decimal(n)) == n
  {
    var s := Decimal(n);
    if n >= 10 {
      DecimalValue(n / 10);
      assert s[..|s| - 1] == Decimal(n / 10);
    } else {
      assert s[..|s| - 1] == [];
    }
  }

  /** `u64::from_str` reads the decimal text of every `u64` back as that number. */
  lemma DecimalParses(n: nat)
    requires n <= U64_MAX
    ensures ParseU64(Decimal(n)) == Some(n)
  {
    DecimalValue(n);
  }

  /** `format!("{}.{:02}", coins / 100, coins % 100)`: euros, a dot and two digits of cents. */
  function FormatPrice(coins: U64): (price: string)
    ensures |price| >= 4 && price[|price| - 3] == '.' && '.' !in price[..|price| - 3]
    ensures AllDigits(price[..|price| - 3]) && AllDigits(price[|price| - 2..])
  {
    var euros := Decimal(coins / 100);
    var price := euros + "." + [DigitChar(coins % 100 / 10), DigitChar(coins % 10)];
    assert price[..|price| - 3] == euros;
    price
  }

  /** The price text the client writes is read back by the test server as the same amount. */
  lemma PriceRoundTrip(coins: U64)
    ensures ParsePrice(FormatPrice(coins)) == Price(coins)
  {
    var euros := Decimal(coins / 100);
    var cents := [DigitChar(coins % 100 / 10), DigitChar(coins % 10)];
    var price := FormatPrice(coins);
    assert price == euros + "." + cents;
    var i := |euros|;
    assert price[..i] == euros;
    assert price[i + 1..] == cents;
    assert FindChar(price, '.') == Some(i);
    DecimalParses(coins / 100);
    assert cents[..1] == [cents[0]] && [cents[0]][..0] == [];
    assert DigitsValue([cents[0]]) == coins % 100 / 10;
    assert DigitsValue(cents) == (coins % 100 / 10) * 10 + coins % 10;
    assert ParseU64(cents) == Some(coins % 100);
  }

  /** The JSON body `create_order` sends. */
  function CreateOrderBody(coins: U64): (req: CreateOrderRequest)
    ensures req.intent == "CAPTURE" && |req.purchaseUnits| == 1
    ensures req.purchaseUnits[0].amount == Amount("EUR", FormatPrice(coins))
  {
    CreateOrderRequest("CAPTURE", [PurchaseUnit(Amount("EUR", FormatPrice(coins)))])
  }

  /** Every body the client sends passes the test server's checks at the requested amount. */
  lemma CreateBodyAccepted(coins: U64)
    ensures CheckCreateRequest(CreateOrderBody(coins)) == Price(coins)
  {
    PriceRoundTrip(coins);
  }

  /** `PaypalCreateOrderError::Failed` and `PaypalCaptureOrderError::Failed`. */
  datatype ApiError = Failed

  predicate IsSuccess(status: nat) { 200 <= status <= 299 }

  /**
   * The create reply: a non-2xx status, a body without an `id`, or an `id` that is not a valid
   * order id is `Failed`; otherwise the order id.
   */
  function ClassifyCreate(status: nat, id: Option<string>): (r: Result<string, ApiError>)
    ensures r.Ok? <==> IsSuccess(status) && id.Some? && |id.value| <= ORDER_ID_MAX_LENGTH
    ensures r.Ok? ==> r.value == id.value
  {
    if !IsSuccess(status) then Err(Failed)
    else match id
      case None => Err(Failed)
      case Some(orderId) => if |orderId| <= ORDER_ID_MAX_LENGTH then Ok(orderId) else Err(Failed)
  }

  /** The capture reply: only a 2xx status whose body says `COMPLETED` is a capture. */
  function ClassifyCapture(status: nat, paymentStatus: Option<string>): (r: Result<(), ApiError>)
    ensures r.Ok? <==> IsSuccess(status) && paymentStatus == Some("COMPLETED")
  {
    if !IsSuccess(status) then Err(Failed)
    else match paymentStatus
      case None => Err(Failed)
      case Some(s) => if s == "COMPLETED" then Ok(()) else Err(Failed)
  }

  /** The client's reading of a test-server reply: its status and the field the client parses. */
  function CreateView(reply: Reply): Option<(nat, Option<string>)>
  {
    match reply
    case Aborted => None
    case Reply(status, CreatedJson(id)) => Some((status, Some(id)))
    case Reply(status, _) => Some((status, None))
  }

  function CaptureView(reply: Reply): Option<(nat, Option<string>)>
  {
    match reply
    case Aborted => None
    case Reply(status, CaptureJson(s)) => Some((status, Some(s)))
    case Reply(status, _) => Some((status, None))
  }

  /**
   * Against the test server the client reads a stored order as created under the server's id,
   * and every refusal (401, 400) as `Failed`.
   */
  lemma CreateAgainstServer(reply: Reply, freshId: string)
    requires IsOrderId(freshId)
    requires reply == Reply(CREATED, CreatedJson(freshId)) || reply == Reply(UNAUTHORIZED, Text("unauthorized"))
             || reply == Reply(BAD_REQUEST, Text("bad request"))
    ensures var view := CreateView(reply).value;
      ClassifyCreate(view.0, view.1) == if reply.status == CREATED then Ok(freshId) else Err(Failed)
  {
  }

  /** Against the test server only its successful capture counts as captured. */
  lemma CaptureAgainstServer(reply: Reply)
    requires reply == Reply(CREATED, CaptureJson("COMPLETED")) || reply == Reply(UNAUTHORIZED, Text("unauthorized"))
             || reply == Reply(NOT_FOUND, Text("not found"))
    ensures var view := CaptureView(reply).value;
      ClassifyCapture(view.0, view.1).Ok? <==> reply.status == CREATED
  {
  }

  /** `PaypalApiServiceConfig`. */
  datatype Config = Config(baseUrl: string, clientId: string, clientSecret: string)

  /** `PaypalApiServiceConfig::new`: the override when given, else PayPal's live API. */
  function NewConfig(baseUrlOverride: Option<string>, clientId: string, clientSecret: string): (c: Config)
    ensures baseUrlOverride.None? ==> c.baseUrl == "https://api.paypal.com"
    ensures baseUrlOverride.Some? ==> c.baseUrl == baseUrlOverride.value
    ensures c.clientId == clientId && c.clientSecret == clientSecret
  {
    Config(if baseUrlOverride.Some? then baseUrlOverride.value else BASE_URL, clientId, clientSecret)
  }
}
