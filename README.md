# Carrier-service rate quotes, modelled in Dafny

The repository is a small Express server. A commerce platform calls the
server's `POST /carrier_service` endpoint at checkout to get shipping rates.
The handler checks the request and filters out destinations it does not
serve. For the rest it asks the Metrobi courier API for a price. It answers
with a rate list that is empty, holds one priced `METROBI` rate, or holds one
fixed "temporarily unavailable" sentinel rate.

This project models that handler as pure functions. The gateway call is
replaced by an input value (`CarrierService.Upstream`) that describes what the
call did: a network error, or a reply with its arrival time, HTTP status and
body. So the whole decision, `HandleRate(body, upstream)`, is a function with
no I/O. Its result is `None` when the handler never answers. That happens when
the courier's body never finishes arriving, because the 8000 ms abort timer
is cleared before the body is read.

Modules, one per concern of the handler:

- `Wrappers`: `Option`.
- `JsNumbers`: `Math.round` on exact reals, and `toString` of an integer with
  its inverse `ParseCanonicalInt`. Both round trips are proved.
- `JsValues`: the JavaScript values a parsed JSON reply can hold,
  truthiness, and property reads that throw on `null`/`undefined`.
- `Addresses`: the request's address records and the address strings built
  from them. It also holds a split function that recovers the fields from the
  string.
- `CarrierService`: request classification (`PlanFor`), the courier payload,
  classification of the upstream outcome (`Classify`), the rate list
  (`RatesFor`), the handler (`HandleRate`) and the properties of the handler.

What `server.js` does not do, so the model does not either:

- It sends no pickup time to the courier.
- It adds no surcharge to the price.
- It calls only the `/deliveryrate` endpoint.
- The handler returns 400 only when `rate` is missing or falsy. A body that is not valid JSON never reaches it: `express.json()` (server.js:8, left out) answers it with its own 400, and an oversized body with 413.

## Model

| member | source | states |
|---|---|---|
| `JsNumbers.NatToString` | server.js:108 | the decimal rendering of a natural number is a non-empty digit run with no leading zero, and starts with "0" exactly for 0 |
| `JsNumbers.IntToString` | server.js:108 | `toString` of an integer: a negative number renders as "-" and a canonical digit run without a leading zero; a non-negative one as a canonical digit run |
| `JsNumbers.IntToStringRoundTrip` | server.js:108 | reading back the rendering of any integer gives that integer |
| `JsNumbers.ParseCanonicalIntRoundTrip` | server.js:108 | every string the reader accepts is the rendering of the integer it reads, so rendering and reading are inverse bijections |
| `JsNumbers.IntToStringInjective` | server.js:108 | distinct cent amounts never get the same `total_price` string |
| `JsNumbers.MathRound` | server.js:108 | `Math.round(x)` is an integer within half a unit of `x`: strictly above `x - 1/2` and at most `x + 1/2` |
| `JsNumbers.MathRoundUnique` | server.js:108 | those bounds determine the rounded value uniquely |
| `JsNumbers.MathRoundHalfUp` | server.js:108 | exact halves round toward +infinity |
| `JsValues.Truthy` | server.js:72 | the falsy values are exactly `undefined`, `null`, `false`, `0` and `""`; everything else, empty arrays and objects included, is truthy |
| `JsValues.GetProperty` | server.js:72 | a property read throws exactly on `null` or `undefined`; a defined result is an own property of an object |
| `JsValues.GetPath` | server.js:86 | the read chain `v.k1.k2…kn`; with no keys it is `v` itself, and its throwing and reaching behaviour is stated by the next two rows |
| `JsValues.GetPathThroughObjects` | server.js:86 | `metrobiData.response.data.price` through nested objects that hold each key yields the innermost value |
| `JsValues.GetPathThrows` | server.js:86 | a read chain throws exactly when the value read before some key is `null` or `undefined` |
| `Addresses.PostalText` | server.js:22-25 | a string postal code is rendered unchanged; a numeric one in decimal, which reads back as the same number |
| `Addresses.FormatAddress` | server.js:22-25 | the address string is `address1 city province postal_code` with single spaces |
| `Addresses.PickupAddress` | server.js:21-23 | the origin's formatted address when `origin?.address1` is truthy, else exactly "184 Lexington Ave New York NY 10016" |
| `Addresses.DeliveryAddress` | server.js:25 | the destination's four fields joined by single spaces |
| `Addresses.DefaultIsStoreAddress` | server.js:21-23 | the default pickup string is the store's own address in the same four-field format |
| `Addresses.SplitJoin` | server.js:22-25 | splitting a single-space join of space-free fields at its spaces gives the fields back |
| `Addresses.AddressFieldsRecoverable` | server.js:21-25 | when no field holds a space, the four fields can be recovered, in order, from the address string |
| `Addresses.FormatAddressNotInjective` | server.js:22-25 | without that condition recovery fails: two different addresses, one word moved between street and city, give the same string |
| `CarrierService.MetrobiRate` | server.js:102-112 | the success rate has code METROBI, currency USD, and a `total_price` that reads back as the cent amount |
| `CarrierService.Cents` | server.js:108 | `Math.round(price * 100)` is within half a cent of the exact cent value |
| `CarrierService.ExcludedNumberText` | server.js:27 | the number 10016 renders as the excluded text "10016" |
| `CarrierService.IsExcludedPostalCode` | server.js:27 | loose `== "10016"` on a string or integer postal code holds exactly when the rendered postal code is "10016" |
| `CarrierService.PlanFor` | server.js:12-47 | an undefined body throws at the destructuring; a falsy `rate` and nothing else is rejected; a planned quote posts size "suv" to the rate endpoint with the pickup and delivery addresses |
| `CarrierService.Classify` | server.js:31-100 | a reply counts as priced exactly when it is timely, 2xx, JSON, has truthy `success` and a number at `response.data.price`, and then the verdict carries that number; it counts as stalled exactly when it is timely and 2xx and its body never arrives |
| `CarrierService.RatesFor` | server.js:54-127 | a quote attempt that ends yields exactly one rate, the sentinel exactly when it did not end with a numeric price; a stalled body yields no rate list |
| `CarrierService.HandleRate` | server.js:10-129 | there is no answer exactly when a quote was sent and the body stalled; every answer has status 200 or 400 and never 5xx; 400 comes exactly with `{error: "Bad payload"}`; a 200 carries at most one rate |
| `CarrierService.BadPayloadIff` | server.js:12-13 | status 400 happens exactly when the body is an object whose `rate` is missing or falsy |
| `CarrierService.MissingBodyYieldsSentinel` | server.js:115-127 | an undefined body makes the destructuring at line 12 throw, and the catch answers 200 with the sentinel |
| `CarrierService.NoCourierCallWithoutQuote` | server.js:13-29 | when no quote is planned, the response does not depend on the courier at all |
| `CarrierService.NonUSDestinationGetsNoRates` | server.js:17-19 | a missing destination or a country other than "US" gives `{rates: []}` |
| `CarrierService.ExcludedPostalCodeGetsNoRates` | server.js:27-29 | a US destination with the excluded postal code gives `{rates: []}` |
| `CarrierService.ExcludedPostalCodeLoose` | server.js:27 | among string and integer postal codes, loose `==` matches the string "10016" and the number 10016, and nothing else |
| `CarrierService.QuoteRequestedIff` | server.js:12-29 | the courier is asked exactly when `rate` is truthy and the destination is present, in the US and not in the excluded postal code |
| `CarrierService.CourierPayload` | server.js:21-47 | the courier body has size "suv", the pickup address (or the store default) and the four-field delivery address |
| `CarrierService.FailureYieldsSentinel` | server.js:54-100 | every failed quote attempt that ends yields the single sentinel METROBI_UNAVAILABLE / "999900" / USD |
| `CarrierService.TimeoutYieldsSentinel` | server.js:31-52 | a reply at or after 8000 ms is aborted, and a network error is caught; both give the sentinel |
| `CarrierService.StalledBodyLeavesUnanswered` | server.js:52-70 | the timer is cleared before the body is read, so a timely 2xx reply whose body never arrives gets no answer; a non-2xx reply is answered without reading its body |
| `CarrierService.PricedYieldsMetrobiRate` | server.js:102-112 | a numeric price yields one METROBI USD rate whose total reads back as the price in cents, rounded to within half a cent |
| `CarrierService.PriceExample` | server.js:108 | a price of 12.345 is quoted as "1235" |
| `CarrierService.SentinelDistinguishable` | server.js:58-62 | no success rate equals the sentinel, even a real 9999.00 quote with the same total |
| `CarrierService.ResponseShapes` | server.js:10-129 | the handler gives no answer, or the 400, an empty list, the sentinel alone, or one success rate |
| `CarrierService.PricedReplyExample` | server.js:86-112 | a 2xx JSON reply with truthy `success` and a numeric price is classified as priced |
| `CarrierService.TextPriceExample` | server.js:88 | a price sent as a string is classified as not a number |
| `CarrierService.MissingDataExample` | server.js:86 | a reply without `response.data` makes the price read throw |
| `CarrierService.FailureExamples` | server.js:54-84 | a falsy `success`, a `null` body, a 503, a non-JSON body, a reply at 8000 ms and a stalled body each fall into their class |

## Left out

- Express setup, `express.json()` and `app.listen` (server.js:1-8, 132-134) are server plumbing. The model takes the parsed body. A request body that is not valid JSON, or is too large, is answered by `express.json()` with 400 or 413 before the handler runs, and is not modelled. It covers both Express versions: under Express 4, body-parser always supplies an object; under Express 5 the body can stay undefined (`NoBody`), and the destructuring at line 12 then throws into the catch.
- The handler sets no time limit on reading the courier's body at line 70, because the timer is cleared at line 52. A request can therefore stay unanswered. The model represents a body that never arrives as `Stalled` and the unanswered request as `None`. It does not model actual durations beyond the header deadline.
- `dotenv` and the `x-api-key` header (server.js:3-5, 40) hold configuration and a secret. The other request headers are left out too. `CourierRequest` keeps the URL, the size and the two stops.
- `fetch`, `AbortController` and the timers (server.js:31-52, 70) are network I/O. They become the `Upstream` input. A reply whose headers would arrive at or after 8000 ms is counted as aborted, which settles the tie at exactly 8000 ms toward the timer.
- `JSON.stringify` of the courier body (server.js:43-47) is not modelled as text. The payload is the `CourierRequest` value.
- `console.error` (server.js:116) is logging.
- JsNumbers.MathRound: exact real arithmetic. It does not model IEEE-754 doubles in `estimatedCost * 100` or in `Math.round` (server.js:108). Prices of NaN or Infinity, which would render as "NaN" or "Infinity", are not representable.
- CarrierService.Cents: inherits the exact-arithmetic idealisation of `MathRound`.
- JsNumbers.IntToString: renders integers in plain decimal. It does not produce JavaScript's exponent form for magnitudes of 1e21 and above.
- Addresses.FormatAddress: address fields are plain strings, with an absent field read as "". JavaScript would render an absent field as "undefined" inside the template (server.js:22, 25). A postal code may be a string or an integer number. Non-integer numbers are not modelled. Neither are array, boolean, null or object postal codes: under loose `==`, `["10016"]` and `[10016]` would also match "10016".
- CarrierService.PlanFor: a `country` that is not a string is modelled as some string other than "US". Both fail `!== "US"` the same way.
- JsValues.GetProperty: only own properties of objects are visible. That is exact for the four keys the handler reads, which no built-in prototype defines.
