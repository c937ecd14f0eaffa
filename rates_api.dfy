/** Quote acquisition shared by both serverless endpoints
    (functions/index.js and api/rates.js): the response shape, the two
    upstream helpers and the fetched-or-fallback merge.

    Transport is abstract: each upstream call is given as its outcome, a
    `Failure` standing for a thrown error (timeout, non-2xx, network).  A
    parsed price is an `Option<real>` whose `None` stands for NaN. */
module RatesApi {
  import opened Wrappers

  const WldToUsdtField: string := "WLD_to_USDT"
  const UsdtToClpField: string := "USDT_to_CLP_P2P"
  const VesToUsdtField: string := "VES_to_USDT_P2P"

  /** The field public/main.js reads for the VES quote. */
  const VesPerUsdtSellField: string := "VES_per_USDT_SELL"

  /** A JSON response body; a numeric field may be absent. */
  datatype Body = Body(success: bool, message: Option<string>, fields: map<string, real>)

  /** An HTTP response: status code and an optional JSON body. */
  datatype Response = Response(status: int, body: Option<Body>)

  /** One P2P advertisement: its price after `parseFloat` (`None`: NaN, or no `adv`). */
  datatype Offer = Offer(price: Option<real>)

  /** A P2P search reply: the offer list, `None` when the body has none. */
  datatype P2PReply = P2PReply(data: Option<seq<Offer>>)

  /** The spot price field: missing (or empty), or a string and its parsed value. */
  datatype PriceField = Missing | Text(parsed: Option<real>)

  /** A spot price reply. */
  datatype SpotReply = SpotReply(price: PriceField)

  /** JavaScript truthiness of a fetched number (null and NaN are `None`). */
  predicate Truthy(x: Option<real>) { x.Some? && x.value != 0.0 }

  /** `getP2PRate`: the first offer's price when the list is non-empty, null
      otherwise; a transport error yields null instead of throwing. */
  function GetP2PRate(reply: Result<P2PReply, string>): (r: Option<real>)
    ensures reply.Failure? ==> r.None?
    ensures reply.Success? && reply.value.data.Some? && |reply.value.data.value| > 0 ==>
      r == reply.value.data.value[0].price
    ensures r.Some? ==> reply.Success? && reply.value.data.Some? && |reply.value.data.value| > 0
  {
    match reply
    case Failure(_) => None
    case Success(resp) =>
      if resp.data.Some? && |resp.data.value| > 0 then resp.data.value[0].price else None
  }

  /** `getSpotRate`: the parsed price when the field is present, null
      otherwise; a transport error yields null instead of throwing. */
  function GetSpotRate(reply: Result<SpotReply, string>): (r: Option<real>)
    ensures reply.Failure? || reply.value.price.Missing? ==> r.None?
    ensures reply.Success? && reply.value.price.Text? ==> r == reply.value.price.parsed
  {
    match reply
    case Failure(_) => None
    case Success(SpotReply(Missing)) => None
    case Success(SpotReply(Text(p))) => p
  }

  /** `fetched || fallback`: a falsy value (null, NaN, 0) is replaced. */
  function OrFallback(fetched: Option<real>, fallback: real): (r: real)
    ensures Truthy(fetched) ==> r == fetched.value
    ensures !Truthy(fetched) ==> r == fallback
    ensures fallback != 0.0 ==> r != 0.0
  {
    if Truthy(fetched) then fetched.value else fallback
  }

  /** The three upstream quotes, as `Promise.all` delivers them. */
  datatype Fetched = Fetched(spot: Option<real>, clp: Option<real>, ves: Option<real>)

  /** The three fallback constants of one deployment. */
  datatype Fallbacks = Fallbacks(wldToUsdt: real, usdtToClp: real, vesToUsdt: real)

  /** The success body: each field is its fetched value when truthy, else its fallback. */
  function SuccessBody(f: Fetched, fb: Fallbacks): (b: Body)
    ensures b.success && b.message.None?
    ensures b.fields.Keys == {WldToUsdtField, UsdtToClpField, VesToUsdtField}
    ensures b.fields[WldToUsdtField] == OrFallback(f.spot, fb.wldToUsdt)
    ensures b.fields[UsdtToClpField] == OrFallback(f.clp, fb.usdtToClp)
    ensures b.fields[VesToUsdtField] == OrFallback(f.ves, fb.vesToUsdt)
  {
    Body(true, None, map[
      WldToUsdtField := OrFallback(f.spot, fb.wldToUsdt),
      UsdtToClpField := OrFallback(f.clp, fb.usdtToClp),
      VesToUsdtField := OrFallback(f.ves, fb.vesToUsdt)])
  }

  const FailureMessage: string := "Error al procesar tasas, usando valores de referencia."

  /** The outer failure body: `success: false`, a message and all three fallbacks. */
  function FailureBody(fb: Fallbacks): (b: Body)
    ensures !b.success && b.message == Some(FailureMessage)
    ensures b.fields.Keys == {WldToUsdtField, UsdtToClpField, VesToUsdtField}
    ensures b.fields[WldToUsdtField] == fb.wldToUsdt
    ensures b.fields[UsdtToClpField] == fb.usdtToClp
    ensures b.fields[VesToUsdtField] == fb.vesToUsdt
  {
    Body(false, Some(FailureMessage), map[
      WldToUsdtField := fb.wldToUsdt,
      UsdtToClpField := fb.usdtToClp,
      VesToUsdtField := fb.vesToUsdt])
  }

  /** The try/catch of both handlers: a rejected join answers 500 with the
      failure body, otherwise 200 with the merged body. */
  function RatesResponse(joined: Result<Fetched, string>, fb: Fallbacks): (r: Response)
    ensures r.body.Some?
    ensures r.status == 200 <==> r.body.value.success
    ensures r.status == 200 || r.status == 500
    ensures joined.Success? <==> r.status == 200
  {
    match joined
    case Success(f) => Response(200, Some(SuccessBody(f, fb)))
    case Failure(_) => Response(500, Some(FailureBody(fb)))
  }

  /** Every numeric field of a body is non-zero. */
  predicate NonZeroFields(b: Body)
  {
    forall k | k in b.fields :: b.fields[k] != 0.0
  }

  /** With non-zero fallbacks, every body either handler sends carries the three
      quote fields, all non-zero, and no `VES_per_USDT_SELL` field. */
  lemma ResponseQuotesPresent(joined: Result<Fetched, string>, fb: Fallbacks)
    requires fb.wldToUsdt != 0.0 && fb.usdtToClp != 0.0 && fb.vesToUsdt != 0.0
    ensures var b := RatesResponse(joined, fb).body.value;
      && b.fields.Keys == {WldToUsdtField, UsdtToClpField, VesToUsdtField}
      && NonZeroFields(b)
      && VesPerUsdtSellField !in b.fields
  {
    var b := RatesResponse(joined, fb).body.value;
    assert |VesPerUsdtSellField| == 17;
    forall k | k in b.fields
      ensures b.fields[k] != 0.0
    {
      assert k == WldToUsdtField || k == UsdtToClpField || k == VesToUsdtField;
    }
  }
}
