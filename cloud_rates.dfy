/** The Firebase HTTPS function `getRates` (functions/index.js). */
module CloudRates {
  import opened Wrappers
  import opened RatesApi

  /** `FALLBACK_RATES` of this deployment. */
  const Fallback: Fallbacks := Fallbacks(1.19, 963.00, 36.00)

  /** `getRates`: joins the spot helper and the two P2P helpers (CLP, VES)
      and answers with the merged quotes. */
  function GetRates(spot: Result<SpotReply, string>, clp: Result<P2PReply, string>, ves: Result<P2PReply, string>): (r: Response)
    ensures r.status == 200 && r.body.Some? && r.body.value.success
    ensures r.body.value.fields.Keys == {WldToUsdtField, UsdtToClpField, VesToUsdtField}
    ensures r.body.value.fields[WldToUsdtField] == OrFallback(GetSpotRate(spot), 1.19)
    ensures r.body.value.fields[UsdtToClpField] == OrFallback(GetP2PRate(clp), 963.00)
    ensures r.body.value.fields[VesToUsdtField] == OrFallback(GetP2PRate(ves), 36.00)
  {
    RatesResponse(Success(Fetched(GetSpotRate(spot), GetP2PRate(clp), GetP2PRate(ves))), Fallback)
  }

  /** The outer catch: 500, `success: false` and the three fallback values. */
  lemma OuterFailureReportsFallbacks(error: string)
    ensures var r := RatesResponse(Failure(error), Fallback);
      && r.status == 500 && !r.body.value.success && r.body.value.message.Some?
      && r.body.value.fields == map[WldToUsdtField := 1.19, UsdtToClpField := 963.00, VesToUsdtField := 36.00]
  {
  }

  /** A fetched 0 or NaN (for example `parseFloat` of a malformed price) is
      replaced by its fallback. */
  lemma FalsyQuoteReplaced(spot: Result<SpotReply, string>, clp: Result<P2PReply, string>, ves: Result<P2PReply, string>)
    requires clp.Success? && clp.value.data.Some? && |clp.value.data.value| > 0
    requires clp.value.data.value[0].price.None? || clp.value.data.value[0].price == Some(0.0)
    ensures GetRates(spot, clp, ves).body.value.fields[UsdtToClpField] == 963.00
  {
  }
}
