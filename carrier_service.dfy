/**
  The `POST /carrier_service` rate-quote handler as one decision function.

  The handler validates the request, decides whether to ask the courier
  gateway for a quote, and maps whatever the gateway did into a rate list,
  or into no answer at all when the courier's body never finishes arriving.
  The gateway call itself is not modelled: what it did is an input
  (`Upstream`), so the handler's policy can be stated without I/O.
 */
module CarrierService {
  import opened Wrappers
  import opened JsNumbers
  import opened JsValues
  import opened Addresses

  // ---------------------------------------------------------------- request

  /** The `rate` object of the request body. */
  datatype RateRequest = RateRequest(origin: Option<Address>, destination: Option<Address>)

  /**
    The parsed body `{ rate }`; `None` stands for a missing or falsy `rate`.
    `NoBody` is a `req.body` left undefined (Express 5 when no JSON body was
    parsed), on which the destructuring `const { rate } = req.body` throws.
   */
  datatype RequestBody = RequestBody(rate: Option<RateRequest>) | NoBody

  // ---------------------------------------------------------------- courier call

  const DeliveryRateUrl: string := "https://delivery-api.metrobi.com/api/v1/deliveryrate"
  const VehicleSize: string := "suv"

  /** Abort delay of the courier call, in milliseconds. */
  const TimeoutMs: nat := 8000

  datatype Stop = Stop(address: string)

  /** The JSON object posted to the courier's rate endpoint. */
  datatype CourierRequest = CourierRequest(url: string, size: string, pickupStop: Stop, dropoffStop: Stop)

  /**
    The body the courier returned, as `response.json()` saw it. `Stalled` is
    a body that never finishes arriving: the abort timer is already cleared
    when it is read, so `response.json()` never settles.
   */
  datatype BodyRead = NotJson | Json(value: JsValue) | Stalled

  /**
    What the courier call did. `NetworkError` is a rejected `fetch`; a `Reply`
    records when the response headers would arrive, its HTTP status and its
    body. The abort timer fires first when `elapsedMs >= TimeoutMs`.
   */
  datatype Upstream = NetworkError | Reply(elapsedMs: nat, status: int, body: BodyRead)

  // ---------------------------------------------------------------- response

  datatype Rate = Rate(serviceName: string, serviceCode: string, totalPrice: string, currency: string, description: string)

  datatype ResponseBody = ErrorBody(error: string) | RatesBody(rates: seq<Rate>)

  datatype Response = Response(status: nat, body: ResponseBody)

  const BadPayloadMessage: string := "Bad payload"
  const ExcludedPostalCode: string := "10016"
  /** The number `"10016"` converts to under loose equality. */
  const ExcludedPostalNumber: int := 10016

  /** The sentinel rate every courier failure is answered with. */
  const Unavailable: Rate := Rate(
    "\U{26A0}\U{FE0F} Metrobi Delivery - Temporarily Unavailable",
    "METROBI_UNAVAILABLE",
    "999900",
    "USD",
    "Metrobi could not calculate delivery for this address")

  /** The rate offered when the courier quoted `cents` (in US cents). */
  function MetrobiRate(cents: int): (r: Rate)
    ensures r.serviceCode == "METROBI" && r.currency == "USD"
    ensures ParseCanonicalInt(r.totalPrice) == Some(cents)
  {
    IntToStringRoundTrip(cents);
    Rate("Metrobi Delivery", "METROBI", IntToString(cents), "USD", "Same-day local courier powered by Metrobi")
  }

  /** `Math.round(estimatedCost * 100)`: the quoted dollar price in cents. */
  function Cents(price: real): (c: int)
    ensures price * 100.0 - 0.5 < c as real <= price * 100.0 + 0.5
  {
    MathRound(price * 100.0)
  }

  // ---------------------------------------------------------------- request classification

  /** The number 10016 renders as the excluded postal code. */
  lemma ExcludedNumberText()
    ensures IntToString(ExcludedPostalNumber) == ExcludedPostalCode
  {
    assert NatToString(1) == "1";
    assert NatToString(10) == "10";
    assert NatToString(100) == "100";
    assert NatToString(1001) == "1001";
  }

  /**
    `dest.postal_code == "10016"` with JavaScript's loose equality: a string
    is compared as it is, a number against the number 10016. For these two
    kinds of postal code that is the same as comparing the rendered text.
   */
  predicate IsExcludedPostalCode(p: PostalCode)
    ensures IsExcludedPostalCode(p) <==> PostalText(p) == ExcludedPostalCode
  {
    match p
    case Text(s) => s == ExcludedPostalCode
    case Number(n) =>
      ExcludedNumberText();
      IntToStringInjective(n, ExcludedPostalNumber);
      n == ExcludedPostalNumber
  }

  /** What the handler decides before any courier call. */
  datatype Plan = ThrowsBeforeCall | RejectBadPayload | AnswerNoRates | RequestQuote(call: CourierRequest)

  function PlanFor(body: RequestBody): (p: Plan)
    ensures p.ThrowsBeforeCall? <==> body.NoBody?
    ensures p.RejectBadPayload? <==> body.RequestBody? && body.rate.None?
    ensures p.RequestQuote? ==>
      && body.RequestBody? && body.rate.Some? && body.rate.value.destination.Some?
      && p.call.url == DeliveryRateUrl
      && p.call.size == VehicleSize
      && p.call.pickupStop.address == PickupAddress(body.rate.value.origin)
      && p.call.dropoffStop.address == DeliveryAddress(body.rate.value.destination.value)
  {
    if body.NoBody? then ThrowsBeforeCall
    else match body.rate
    case None => RejectBadPayload
    case Some(rate) =>
      match rate.destination
      case None => AnswerNoRates
      case Some(dest) =>
        if dest.country != "US" then AnswerNoRates
        else
          var pickup := PickupAddress(rate.origin);
          var delivery := DeliveryAddress(dest);
          if IsExcludedPostalCode(dest.postalCode) then AnswerNoRates
          else RequestQuote(CourierRequest(DeliveryRateUrl, VehicleSize, Stop(pickup), Stop(delivery)))
  }

  // ---------------------------------------------------------------- response classification

  /** Every way the courier call can end, as the handler tells them apart. */
  datatype Verdict =
    | FetchFailed           // fetch rejected: network error
    | Aborted               // the 8000 ms timer fired first
    | HttpNotOk             // status outside 200-299
    | BodyNotJson           // response.json() rejected
    | BodyStalled           // response.json() never settles
    | PropertyReadFailed    // a property read threw (null body, missing response or data)
    | SuccessFalsy          // metrobiData.success is falsy
    | PriceNotNumber        // the price is not a number (absent included)
    | Priced(price: real)   // a numeric price

  const PricePath: seq<string> := ["response", "data", "price"]

  function Classify(u: Upstream): (v: Verdict)
    ensures v.Priced? <==>
      && u.Reply? && u.elapsedMs < TimeoutMs && 200 <= u.status <= 299 && u.body.Json?
      && GetProperty(u.body.value, "success").Value? && Truthy(GetProperty(u.body.value, "success").v)
      && GetPath(u.body.value, PricePath).Value? && GetPath(u.body.value, PricePath).v.Num?
    ensures v.Priced? ==> GetPath(u.body.value, PricePath) == Value(Num(v.price))
    ensures v.BodyStalled? <==> u.Reply? && u.elapsedMs < TimeoutMs && 200 <= u.status <= 299 && u.body.Stalled?
  {
    match u
    case NetworkError => FetchFailed
    case Reply(elapsedMs, status, body) =>
      if elapsedMs >= TimeoutMs then Aborted
      else if !(200 <= status <= 299) then HttpNotOk
      else match body
        case NotJson => BodyNotJson
        case Stalled => BodyStalled
        case Json(data) =>
          match GetProperty(data, "success")
          case TypeError => PropertyReadFailed
          case Value(success) =>
            if !Truthy(success) then SuccessFalsy
            else match GetPath(data, PricePath)
              case TypeError => PropertyReadFailed
              case Value(Num(price)) => Priced(price)
              case Value(_) => PriceNotNumber
  }

  /** The rate list for a quote attempt that ended as `v`, if the attempt ends at all. */
  function RatesFor(v: Verdict): (r: Option<seq<Rate>>)
    ensures r.None? <==> v.BodyStalled?
    ensures r.Some? ==> |r.value| == 1 && (r.value[0] == Unavailable <==> !v.Priced?)
  {
    if v.BodyStalled? then None
    else if v.Priced? then Some([MetrobiRate(Cents(v.price))])
    else Some([Unavailable])
  }

  // ---------------------------------------------------------------- the handler

  /**
    The handler's answer; `None` when it never answers (a courier body that
    never finishes arriving). An exception anywhere in the handler, the
    destructuring of an undefined body included, is caught and answered
    with the sentinel.
   */
  function HandleRate(body: RequestBody, upstream: Upstream): (r: Option<Response>)
    ensures r.None? <==> PlanFor(body).RequestQuote? && Classify(upstream).BodyStalled?
    ensures r.Some? ==> r.value.status == 200 || r.value.status == 400
    ensures r.Some? ==> (r.value.status == 400 <==> r.value.body == ErrorBody(BadPayloadMessage))
    ensures r.Some? && r.value.status == 200 ==> r.value.body.RatesBody? && |r.value.body.rates| <= 1
  {
    match PlanFor(body)
    case ThrowsBeforeCall => Some(Response(200, RatesBody([Unavailable])))
    case RejectBadPayload => Some(Response(400, ErrorBody(BadPayloadMessage)))
    case AnswerNoRates => Some(Response(200, RatesBody([])))
    case RequestQuote(_) =>
      match RatesFor(Classify(upstream))
      case None => None
      case Some(rates) => Some(Response(200, RatesBody(rates)))
  }

  // ---------------------------------------------------------------- properties

  /** A missing or falsy `rate` is the one way to get a 400, and it names the fault. */
  lemma BadPayloadIff(body: RequestBody, upstream: Upstream)
    ensures HandleRate(body, upstream).Some? && HandleRate(body, upstream).value.status == 400 <==>
      body.RequestBody? && body.rate.None?
    ensures body.RequestBody? && body.rate.None? ==> HandleRate(body, upstream) == Some(Response(400, ErrorBody("Bad payload")))
  {
  }

  /** An undefined request body throws at the destructuring and is answered with the sentinel. */
  lemma MissingBodyYieldsSentinel(upstream: Upstream)
    ensures HandleRate(NoBody, upstream) == Some(Response(200, RatesBody([Unavailable])))
  {
  }

  /** Without a planned quote the handler never consults the courier. */
  lemma NoCourierCallWithoutQuote(body: RequestBody, u1: Upstream, u2: Upstream)
    requires !PlanFor(body).RequestQuote?
    ensures HandleRate(body, u1) == HandleRate(body, u2)
  {
  }

  /** A missing destination, or one outside the US, gets an empty rate list. */
  lemma NonUSDestinationGetsNoRates(body: RequestBody, upstream: Upstream)
    requires body.RequestBody? && body.rate.Some?
    requires body.rate.value.destination.None? || body.rate.value.destination.value.country != "US"
    ensures HandleRate(body, upstream) == Some(Response(200, RatesBody([])))
  {
  }

  /** A US destination in the excluded postal code gets an empty rate list. */
  lemma ExcludedPostalCodeGetsNoRates(body: RequestBody, upstream: Upstream)
    requires body.RequestBody? && body.rate.Some? && body.rate.value.destination.Some?
    requires body.rate.value.destination.value.country == "US"
    requires IsExcludedPostalCode(body.rate.value.destination.value.postalCode)
    ensures HandleRate(body, upstream) == Some(Response(200, RatesBody([])))
  {
  }

  /**
    Among string and integer postal codes, loose equality matches the string
    "10016" and the number 10016 (whose decimal rendering is that string, by
    ExcludedNumberText), and nothing else.
   */
  lemma ExcludedPostalCodeLoose(p: PostalCode)
    ensures IsExcludedPostalCode(p) <==> p == Text("10016") || p == Number(10016)
  {
    ExcludedNumberText();
  }

  /** The courier is asked exactly for a truthy `rate` with a US, non-excluded destination. */
  lemma QuoteRequestedIff(body: RequestBody)
    ensures PlanFor(body).RequestQuote? <==>
      && body.RequestBody? && body.rate.Some? && body.rate.value.destination.Some?
      && body.rate.value.destination.value.country == "US"
      && !IsExcludedPostalCode(body.rate.value.destination.value.postalCode)
  {
  }

  /** The courier payload: an SUV, the pickup address and the delivery address. */
  lemma CourierPayload(origin: Option<Address>, dest: Address)
    requires dest.country == "US" && !IsExcludedPostalCode(dest.postalCode)
    ensures PlanFor(RequestBody(Some(RateRequest(origin, Some(dest))))) ==
      RequestQuote(CourierRequest(
        DeliveryRateUrl, "suv",
        Stop(if origin.Some? && origin.value.address1 != "" then FormatAddress(origin.value) else "184 Lexington Ave New York NY 10016"),
        Stop(dest.address1 + " " + dest.city + " " + dest.province + " " + PostalText(dest.postalCode))))
  {
  }

  /** Every failed quote attempt that ends yields the one sentinel rate. */
  lemma FailureYieldsSentinel(body: RequestBody, upstream: Upstream)
    requires PlanFor(body).RequestQuote?
    requires !Classify(upstream).Priced? && !Classify(upstream).BodyStalled?
    ensures HandleRate(body, upstream) == Some(Response(200, RatesBody([Unavailable])))
    ensures Unavailable.serviceCode == "METROBI_UNAVAILABLE" && Unavailable.totalPrice == "999900" && Unavailable.currency == "USD"
  {
  }

  /** A reply that comes at or after 8000 ms is aborted, and so is a network error: both give the sentinel. */
  lemma TimeoutYieldsSentinel(body: RequestBody, upstream: Upstream)
    requires PlanFor(body).RequestQuote?
    requires upstream.NetworkError? || upstream.elapsedMs >= 8000
    ensures HandleRate(body, upstream) == Some(Response(200, RatesBody([Unavailable])))
  {
  }

  /**
    The 8000 ms limit covers only the wait for the headers: a timely 2xx
    reply whose body never finishes arriving leaves the request unanswered.
    A non-2xx reply is answered without its body being read.
   */
  lemma StalledBodyLeavesUnanswered(body: RequestBody, elapsedMs: nat, status: int)
    requires PlanFor(body).RequestQuote?
    requires elapsedMs < 8000
    ensures 200 <= status <= 299 ==> HandleRate(body, Reply(elapsedMs, status, Stalled)).None?
    ensures !(200 <= status <= 299) ==> HandleRate(body, Reply(elapsedMs, status, Stalled)) == Some(Response(200, RatesBody([Unavailable])))
  {
  }

  /**
    A numeric price yields one METROBI rate whose total is the price in
    cents, rounded half up and written in decimal.
   */
  lemma PricedYieldsMetrobiRate(body: RequestBody, upstream: Upstream, price: real)
    requires PlanFor(body).RequestQuote?
    requires Classify(upstream) == Priced(price)
    ensures HandleRate(body, upstream).Some? && HandleRate(body, upstream).value.body.RatesBody?
    ensures var rates := HandleRate(body, upstream).value.body.rates;
      && |rates| == 1
      && rates[0].serviceCode == "METROBI" && rates[0].currency == "USD"
      && ParseCanonicalInt(rates[0].totalPrice).Some?
      && price * 100.0 - 0.5 < ParseCanonicalInt(rates[0].totalPrice).value as real <= price * 100.0 + 0.5
  {
  }

  /** A courier price of 12.345 dollars is quoted as "1235" cents. */
  lemma PriceExample()
    ensures Cents(12.345) == 1235
    ensures MetrobiRate(Cents(12.345)).totalPrice == "1235"
  {
    assert NatToString(1) == "1";
    assert NatToString(12) == "12";
    assert NatToString(123) == "123";
  }

  /** Even a genuine 9999.00 dollar quote is told apart from the sentinel by its service code. */
  lemma SentinelDistinguishable(cents: int)
    ensures MetrobiRate(cents) != Unavailable
  {
  }

  /** Every answer is one of four shapes; none is a server error. */
  lemma ResponseShapes(body: RequestBody, upstream: Upstream)
    ensures var r := HandleRate(body, upstream);
      || r.None?
      || r == Some(Response(400, ErrorBody(BadPayloadMessage)))
      || r == Some(Response(200, RatesBody([])))
      || r == Some(Response(200, RatesBody([Unavailable])))
      || exists price :: r == Some(Response(200, RatesBody([MetrobiRate(Cents(price))])))
  {
    var r := HandleRate(body, upstream);
    if PlanFor(body).RequestQuote? && Classify(upstream).Priced? {
      var price := Classify(upstream).price;
      assert r == Some(Response(200, RatesBody([MetrobiRate(Cents(price))])));
    }
  }

  /** A well-formed priced reply is classified by its price. */
  lemma PricedReplyExample()
    ensures Classify(Reply(120, 200, Json(Obj(map["success" := Bool(true), "response" := Obj(map["data" := Obj(map["price" := Num(12.345)])])])))) == Priced(12.345)
  {
    var priced := Obj(map["success" := Bool(true), "response" := Obj(map["data" := Obj(map["price" := Num(12.345)])])]);
    GetPathThroughObjects(priced, PricePath, Num(12.345));
  }

  /** A price sent as a string is not a number. */
  lemma TextPriceExample()
    ensures Classify(Reply(120, 200, Json(Obj(map["success" := Bool(true), "response" := Obj(map["data" := Obj(map["price" := Str("12.34")])])])))) == PriceNotNumber
  {
    var text := Obj(map["success" := Bool(true), "response" := Obj(map["data" := Obj(map["price" := Str("12.34")])])]);
    GetPathThroughObjects(text, PricePath, Str("12.34"));
  }

  /** Reading `.price` of a missing `data` throws. */
  lemma MissingDataExample()
    ensures Classify(Reply(120, 200, Json(Obj(map["success" := Bool(true), "response" := Obj(map[])])))) == PropertyReadFailed
  {
    var noData := Obj(map["success" := Bool(true), "response" := Obj(map[])]);
    assert PricePath[1..] == ["data", "price"];
    assert GetProperty(noData, "response") == Value(Obj(map[]));
    assert GetProperty(Obj(map[]), "data") == Value(Undefined);
  }

  /** The remaining failure classes, one reply each. */
  lemma FailureExamples()
    ensures Classify(Reply(120, 200, Json(Obj(map["success" := Num(0.0)])))) == SuccessFalsy
    ensures Classify(Reply(120, 200, Json(Null))) == PropertyReadFailed
    ensures Classify(Reply(120, 503, NotJson)) == HttpNotOk
    ensures Classify(Reply(120, 200, NotJson)) == BodyNotJson
    ensures Classify(Reply(8000, 200, NotJson)) == Aborted
    ensures Classify(Reply(8000, 200, Stalled)) == Aborted
    ensures Classify(Reply(120, 200, Stalled)) == BodyStalled
  {
  }
}
