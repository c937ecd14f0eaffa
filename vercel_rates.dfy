/** The Vercel serverless handler (api/rates.js). */
module VercelRates {
  import opened Wrappers
  import opened RatesApi

  /** `FALLBACK_RATES` of this deployment. */
  const Fallback: Fallbacks := Fallbacks(2.80, 950.00, 37.00)

  /** The handler: an OPTIONS preflight answers 200 with no body; any other
      method answers with the merged quotes, or 500 and the fallbacks when
      the join rejects. */
  function Handle(httpMethod: string, joined: Result<Fetched, string>): (r: Response)
    ensures httpMethod == "OPTIONS" ==> r == Response(200, None)
    ensures httpMethod != "OPTIONS" && joined.Success? ==>
      r.status == 200 && r.body.Some? && r.body.value.success &&
      r.body.value.fields.Keys == {WldToUsdtField, UsdtToClpField, VesToUsdtField} &&
      r.body.value.fields[WldToUsdtField] == OrFallback(joined.value.spot, 2.80) &&
      r.body.value.fields[UsdtToClpField] == OrFallback(joined.value.clp, 950.00) &&
      r.body.value.fields[VesToUsdtField] == OrFallback(joined.value.ves, 37.00)
    ensures httpMethod != "OPTIONS" && joined.Failure? ==>
      r.status == 500 && r.body.Some? && !r.body.value.success && r.body.value.message.Some? &&
      r.body.value.fields == map[WldToUsdtField := 2.80, UsdtToClpField := 950.00, VesToUsdtField := 37.00]
  {
    if httpMethod == "OPTIONS" then Response(200, None)
    else RatesResponse(joined, Fallback)
  }

  /** The join of the three helpers: the helpers catch their own errors, so
      it never rejects. */
  function Join(spot: Result<SpotReply, string>, clp: Result<P2PReply, string>, ves: Result<P2PReply, string>): (j: Result<Fetched, string>)
    ensures j.Success?
    ensures j.value == Fetched(GetSpotRate(spot), GetP2PRate(clp), GetP2PRate(ves))
  {
    Success(Fetched(GetSpotRate(spot), GetP2PRate(clp), GetP2PRate(ves)))
  }

  /** A preflight does not depend on the upstream quotes: no fetch is made. */
  lemma OptionsIgnoresUpstream(a: Result<Fetched, string>, b: Result<Fetched, string>)
    ensures Handle("OPTIONS", a) == Handle("OPTIONS", b)
  {
  }

  /** A non-preflight request whose helpers ran always answers 200: every
      upstream failure is absorbed by a helper and replaced by a fallback. */
  lemma HelpersNeverFailRequest(httpMethod: string, spot: Result<SpotReply, string>, clp: Result<P2PReply, string>, ves: Result<P2PReply, string>)
    requires httpMethod != "OPTIONS"
    ensures Handle(httpMethod, Join(spot, clp, ves)).status == 200
    ensures NonZeroFields(Handle(httpMethod, Join(spot, clp, ves)).body.value)
  {
    ResponseQuotesPresent(Join(spot, clp, ves), Fallback);
  }
}
