/** The rate logic of the static client, public/main.js: the module-level
    `liveRates`, its update from `/api/rates`, the rate matrix builder
    `calculateFullRatesInternal`, the `calculateExchange` gate and the record
    `showPaymentModal` hands to `recordTransaction`.

    This builder differs from src/lib/rate-calculator.ts: it reads three
    quotes, its guards are `!== null` tests only, a missing pair is an
    explicit `null` entry, the CLP <-> VES discount is 6%, and it adds a
    USDT <-> VES pass-through and null WLD <-> VES entries. */
module MainRates {
  import opened Wrappers
  import opened Types
  import RatesApi

  const DiscountRateWldClp: real := 0.14
  const DiscountRateClpVes: real := 0.06
  const MarginRateUsdtClp: real := 0.004

  /** A quote that is null or a non-zero number (never divided by when zero). */
  predicate NonZero(q: Option<real>) { q.None? || q.value != 0.0 }

  /** The three quotes of `liveRates`. */
  datatype LiveQuotes = LiveQuotes(wldToUsdt: Option<real>, usdtToClp: Option<real>, usdtToVes: Option<real>)
  {
    predicate Valid() { NonZero(wldToUsdt) && NonZero(usdtToClp) && NonZero(usdtToVes) }
  }

  /** The reference values `liveRates` starts with. */
  const InitialQuotes: LiveQuotes := LiveQuotes(Some(2.80), Some(950.00), Some(36.50))

  // ---------------------------------------------------------------------
  // The rate matrix, as a function of the three quotes
  // ---------------------------------------------------------------------

  function WldToClp(wld: real, clp: real): (r: real)
    ensures wld != 0.0 && clp != 0.0 ==> r != 0.0
  {
    var base := wld * clp;
    base * (1.0 - DiscountRateWldClp)
  }

  function ClpToVes(clp: real, ves: real): (r: real)
    requires clp != 0.0
    ensures ves != 0.0 ==> r != 0.0
  {
    var base := ves / clp;
    base * (1.0 - DiscountRateClpVes)
  }

  function UsdtToClp(clp: real): (r: real)
    ensures clp != 0.0 ==> r != 0.0
  {
    clp * (1.0 + MarginRateUsdtClp)
  }

  /** `1 / x` for a non-null quote; null stays null. */
  function Inv(x: Option<real>): (r: Option<real>)
    requires NonZero(x)
    ensures NonZero(r) && (r.None? <==> x.None?)
  {
    match x
    case Some(v) => Some(1.0 / v)
    case None => None
  }

  /** The forward WLD -> CLP entry: null unless both quotes are non-null. */
  function ForwardWldClp(q: LiveQuotes): (r: Option<real>)
    requires q.Valid()
    ensures NonZero(r)
  {
    if q.wldToUsdt.Some? && q.usdtToClp.Some? then Some(WldToClp(q.wldToUsdt.value, q.usdtToClp.value)) else None
  }

  /** The forward CLP -> VES entry: null unless both quotes are non-null. */
  function ForwardClpVes(q: LiveQuotes): (r: Option<real>)
    requires q.Valid()
    ensures NonZero(r)
  {
    if q.usdtToClp.Some? && q.usdtToVes.Some? then Some(ClpToVes(q.usdtToClp.value, q.usdtToVes.value)) else None
  }

  /** The forward USDT -> CLP entry: null unless the CLP quote is non-null. */
  function ForwardUsdtClp(q: LiveQuotes): (r: Option<real>)
    requires q.Valid()
    ensures NonZero(r)
  {
    if q.usdtToClp.Some? then Some(UsdtToClp(q.usdtToClp.value)) else None
  }

  /** `calculateFullRatesInternal()` for the quotes `q`: each forward entry
      with its reverse `1 / forward` (both null when the forward one is), then
      WLD <-> VES null and the identities 1.0, in the order they are written. */
  function InternalRates(q: LiveQuotes): map<Pair, Option<real>>
    requires q.Valid()
  {
    var wldClp, clpVes, usdtClp := ForwardWldClp(q), ForwardClpVes(q), ForwardUsdtClp(q);
    map[
      Pair(WLD, CLP) := wldClp, Pair(CLP, WLD) := Inv(wldClp),
      Pair(CLP, VES) := clpVes, Pair(VES, CLP) := Inv(clpVes),
      Pair(CLP, USDT) := Inv(usdtClp), Pair(USDT, CLP) := usdtClp,
      Pair(USDT, VES) := q.usdtToVes, Pair(VES, USDT) := Inv(q.usdtToVes),
      Pair(WLD, VES) := None, Pair(VES, WLD) := None,
      Pair(CLP, CLP) := Some(1.0), Pair(VES, VES) := Some(1.0),
      Pair(WLD, WLD) := Some(1.0), Pair(USDT, USDT) := Some(1.0)]
  }

  /** The fourteen keys the builder always writes (no WLD <-> USDT key). */
  const InternalKeys: set<Pair> := {
    Pair(WLD, CLP), Pair(CLP, WLD), Pair(CLP, VES), Pair(VES, CLP),
    Pair(CLP, USDT), Pair(USDT, CLP), Pair(USDT, VES), Pair(VES, USDT),
    Pair(WLD, VES), Pair(VES, WLD),
    Pair(CLP, CLP), Pair(VES, VES), Pair(WLD, WLD), Pair(USDT, USDT)}

  // ---------------------------------------------------------------------
  // The module-level state
  // ---------------------------------------------------------------------

  /** The module-level `liveRates` object. */
  class LiveRates {
    var wldToUsdt: Option<real>
    var usdtToClp: Option<real>
    var usdtToVes: Option<real>

    function Quotes(): LiveQuotes
      reads this
    {
      LiveQuotes(wldToUsdt, usdtToClp, usdtToVes)
    }

    ghost predicate Valid()
      reads this
    {
      Quotes().Valid()
    }

    /** The fixed reference values. */
    constructor ()
      ensures Valid() && Quotes() == InitialQuotes
    {
      wldToUsdt := Some(2.80);
      usdtToClp := Some(950.00);
      usdtToVes := Some(36.50);
    }

    /** `calculateFullRatesInternal`: fills the dictionary key by key from
        the current quotes. */
    method CalculateFullRatesInternal() returns (fullRates: map<Pair, Option<real>>)
      requires Valid()
      ensures fullRates == InternalRates(Quotes())
    {
      fullRates := map[];
      var wld, clp, ves := wldToUsdt, usdtToClp, usdtToVes;

      // WLD / CLP
      if wld != None && clp != None {
        var baseWldToClp := wld.value * clp.value;
        var finalWldToClp := baseWldToClp * (1.0 - DiscountRateWldClp);
        assert finalWldToClp == WldToClp(wld.value, clp.value);
        fullRates := fullRates[Pair(WLD, CLP) := Some(finalWldToClp)];
        fullRates := fullRates[Pair(CLP, WLD) := Some(1.0 / finalWldToClp)];
      } else {
        fullRates := fullRates[Pair(WLD, CLP) := None];
        fullRates := fullRates[Pair(CLP, WLD) := None];
      }

      // CLP / VES
      if clp != None && ves != None {
        var baseClpToVesRate := ves.value / clp.value;
        var finalClpToVesRate := baseClpToVesRate * (1.0 - DiscountRateClpVes);
        assert finalClpToVesRate == ClpToVes(clp.value, ves.value);
        fullRates := fullRates[Pair(CLP, VES) := Some(finalClpToVesRate)];
        fullRates := fullRates[Pair(VES, CLP) := Some(1.0 / finalClpToVesRate)];
      } else {
        fullRates := fullRates[Pair(CLP, VES) := None];
        fullRates := fullRates[Pair(VES, CLP) := None];
      }

      // CLP / USDT and USDT / CLP
      if clp != None {
        var finalUsdtToClp := clp.value * (1.0 + MarginRateUsdtClp);
        assert finalUsdtToClp == UsdtToClp(clp.value);
        var finalClpToUsdt := 1.0 / finalUsdtToClp;
        fullRates := fullRates[Pair(CLP, USDT) := Some(finalClpToUsdt)];
        fullRates := fullRates[Pair(USDT, CLP) := Some(finalUsdtToClp)];
      } else {
        fullRates := fullRates[Pair(CLP, USDT) := None];
        fullRates := fullRates[Pair(USDT, CLP) := None];
      }

      // USDT / VES and VES / USDT
      if ves != None {
        fullRates := fullRates[Pair(USDT, VES) := ves];
        fullRates := fullRates[Pair(VES, USDT) := Some(1.0 / ves.value)];
      } else {
        fullRates := fullRates[Pair(USDT, VES) := None];
        fullRates := fullRates[Pair(VES, USDT) := None];
      }

      fullRates := fullRates[Pair(WLD, VES) := None];
      fullRates := fullRates[Pair(VES, WLD) := None];
      fullRates := fullRates[Pair(CLP, CLP) := Some(1.0)];
      fullRates := fullRates[Pair(VES, VES) := Some(1.0)];
      fullRates := fullRates[Pair(WLD, WLD) := Some(1.0)];
      fullRates := fullRates[Pair(USDT, USDT) := Some(1.0)];
    }

    /** `fetchDynamicRates` (with the VES field name corrected, see
        `FetchedQuotes`): an accepted reply overwrites the three quotes;
        any other outcome leaves them unchanged. */
    method FetchDynamicRates(reply: Result<RatesApi.Response, string>)
      requires Valid()
      requires Accepted(reply) ==> RatesApi.NonZeroFields(reply.value.body.value)
      modifies this
      ensures Valid()
      ensures Quotes() == FetchedQuotes(old(Quotes()), reply)
    {
      if Accepted(reply) {
        var data := reply.value.body.value;
        usdtToClp := Field(data, RatesApi.UsdtToClpField);
        usdtToVes := Field(data, RatesApi.VesToUsdtField);
        wldToUsdt := Field(data, RatesApi.WldToUsdtField);
      }
    }
  }

  // ---------------------------------------------------------------------
  // The update from /api/rates
  // ---------------------------------------------------------------------

  /** `response.ok`, a JSON body, and `data?.success`. */
  predicate Accepted(reply: Result<RatesApi.Response, string>)
  {
    && reply.Success?
    && 200 <= reply.value.status <= 299
    && reply.value.body.Some?
    && reply.value.body.value.success
  }

  /** `data.<name>`: `None` when the field is absent (`undefined`). */
  function Field(data: RatesApi.Body, name: string): Option<real>
  {
    if name in data.fields then Some(data.fields[name]) else None
  }

  /** The quotes after an update that reads the VES quote from the field the
      endpoints send, `VES_to_USDT_P2P`. */
  function FetchedQuotes(current: LiveQuotes, reply: Result<RatesApi.Response, string>): (q: LiveQuotes)
    ensures !Accepted(reply) ==> q == current
    ensures Accepted(reply) ==> q.usdtToVes == Field(reply.value.body.value, RatesApi.VesToUsdtField)
  {
    if Accepted(reply) then
      var data := reply.value.body.value;
      LiveQuotes(Field(data, RatesApi.WldToUsdtField), Field(data, RatesApi.UsdtToClpField), Field(data, RatesApi.VesToUsdtField))
    else current
  }

  /** The update as written: the VES quote is read from `VES_per_USDT_SELL`. */
  function FetchedQuotesAsWritten(current: LiveQuotes, reply: Result<RatesApi.Response, string>): (q: LiveQuotes)
    ensures !Accepted(reply) ==> q == current
    ensures Accepted(reply) ==> q.usdtToVes == Field(reply.value.body.value, RatesApi.VesPerUsdtSellField)
  {
    if Accepted(reply) then
      var data := reply.value.body.value;
      LiveQuotes(Field(data, RatesApi.WldToUsdtField), Field(data, RatesApi.UsdtToClpField), Field(data, RatesApi.VesPerUsdtSellField))
    else current
  }

  // ---------------------------------------------------------------------
  // calculateExchange and the transaction record
  // ---------------------------------------------------------------------

  /** `rates[key] !== null`: an absent key reads `undefined`, which passes. */
  predicate NotNull(rates: map<Pair, Option<real>>, p: Pair)
  {
    p !in rates || rates[p].Some?
  }

  /** The rate under a key, `None` for null and for an absent key. */
  function RateAt(rates: map<Pair, Option<real>>, p: Pair): Option<real>
  {
    if p in rates then rates[p] else None
  }

  /** The `isReady` test: some CLP/VES direction and some USDT/CLP direction. */
  predicate Ready(rates: map<Pair, Option<real>>)
  {
    && (NotNull(rates, Pair(CLP, VES)) || NotNull(rates, Pair(VES, CLP)))
    && (NotNull(rates, Pair(USDT, CLP)) || NotNull(rates, Pair(CLP, USDT)))
  }

  /** What `calculateExchange` shows; only `Quoted` enables the payment button. */
  datatype Exchange =
    | Loading                                   // "Cargando tasas..."; payment disabled
    | InvalidAmount                             // receive shows 0; payment disabled
    | Unavailable                               // receive shows "N/A"; payment disabled
    | Quoted(amountReceive: real, rate: real)   // payment enabled

  /** `calculateExchange` for the parsed amount (`None`: NaN). */
  function CalculateExchange(amountSend: Option<real>, send: Currency, receive: Currency,
                             rates: map<Pair, Option<real>>): (e: Exchange)
    ensures e.Loading? <==> !Ready(rates)
    ensures e.InvalidAmount? <==> Ready(rates) && (amountSend.None? || amountSend.value <= 0.0)
    ensures e.Unavailable? <==>
      Ready(rates) && amountSend.Some? && amountSend.value > 0.0 && RateAt(rates, Pair(send, receive)).None?
    ensures e.Quoted? ==>
      && amountSend.Some? && amountSend.value > 0.0
      && RateAt(rates, Pair(send, receive)) == Some(e.rate)
      && e.amountReceive == amountSend.value * e.rate
  {
    if !Ready(rates) then Loading
    else if amountSend.None? || amountSend.value <= 0.0 then InvalidAmount
    else match RateAt(rates, Pair(send, receive))
      case None => Unavailable
      case Some(rate) => Quoted(amountSend.value * rate, rate)
  }

  /** The document `recordTransaction` writes (user id and server timestamp
      left out); `None` amounts stand for NaN. */
  datatype TransactionRecord = TransactionRecord(
    amountSend: Option<real>,
    currencySend: Currency,
    amountReceive: Option<real>,
    currencyReceive: Currency,
    rateApplied: Option<real>,
    status: string)

  /** `rates[key] || 0`: null, an absent key and 0 all give 0. */
  function RateOrZero(rates: map<Pair, Option<real>>, p: Pair): (r: real)
    ensures r != 0.0 <==> RateAt(rates, p).Some? && RateAt(rates, p).value != 0.0
    ensures r != 0.0 ==> RateAt(rates, p) == Some(r)
  {
    match RateAt(rates, p)
    case Some(x) => x
    case None => 0.0
  }

  /** `showPaymentModal` then `recordTransaction(amountSend, send,
      amountSend * rate, receive)`: the record is pending and its applied
      rate is `amountReceive / amountSend`, i.e. the matrix rate (0 when
      missing); NaN when the amount is NaN or 0. */
  function PaymentRecord(amountSend: Option<real>, send: Currency, receive: Currency,
                         rates: map<Pair, Option<real>>): (t: TransactionRecord)
    ensures t.status == "Pendiente"
    ensures t.currencySend == send && t.currencyReceive == receive && t.amountSend == amountSend
    ensures amountSend.Some? ==> t.amountReceive == Some(amountSend.value * RateOrZero(rates, Pair(send, receive)))
    ensures amountSend.Some? && amountSend.value != 0.0 ==> t.rateApplied == Some(RateOrZero(rates, Pair(send, receive)))
    ensures amountSend.None? || amountSend.value == 0.0 ==> t.rateApplied.None?
  {
    var rate := RateOrZero(rates, Pair(send, receive));
    match amountSend
    case None => TransactionRecord(None, send, None, receive, None, "Pendiente")
    case Some(a) =>
      var amountReceive := a * rate;
      var rateApplied := if a != 0.0 then Some(amountReceive / a) else None;
      DivCancels(a, rate);
      assert amountReceive == amountSend.value * RateOrZero(rates, Pair(send, receive));
      TransactionRecord(amountSend, send, Some(amountReceive), receive, rateApplied, "Pendiente")
  }

  lemma DivCancels(a: real, r: real)
    ensures a != 0.0 ==> (a * r) / a == r
  {
  }

  // ---------------------------------------------------------------------
  // Properties of the matrix
  // ---------------------------------------------------------------------

  /** The matrix always has exactly the fourteen keys. */
  lemma InternalKeysExact(q: LiveQuotes)
    requires q.Valid()
    ensures InternalRates(q).Keys == InternalKeys
  {
  }

  /** The eight quote-dependent entries of the matrix, key by key. */
  lemma InternalTable(q: LiveQuotes)
    requires q.Valid()
    ensures InternalRates(q)[Pair(WLD, CLP)] == ForwardWldClp(q)
    ensures InternalRates(q)[Pair(CLP, WLD)] == Inv(ForwardWldClp(q))
    ensures InternalRates(q)[Pair(CLP, VES)] == ForwardClpVes(q)
    ensures InternalRates(q)[Pair(VES, CLP)] == Inv(ForwardClpVes(q))
    ensures InternalRates(q)[Pair(USDT, CLP)] == ForwardUsdtClp(q)
    ensures InternalRates(q)[Pair(CLP, USDT)] == Inv(ForwardUsdtClp(q))
    ensures InternalRates(q)[Pair(USDT, VES)] == q.usdtToVes
    ensures InternalRates(q)[Pair(VES, USDT)] == Inv(q.usdtToVes)
  {
  }

  /** The six fixed entries of the matrix, key by key. */
  lemma InternalFixedTable(q: LiveQuotes)
    requires q.Valid()
    ensures InternalRates(q)[Pair(WLD, VES)] == None && InternalRates(q)[Pair(VES, WLD)] == None
    ensures InternalRates(q)[Pair(CLP, CLP)] == Some(1.0) && InternalRates(q)[Pair(VES, VES)] == Some(1.0)
    ensures InternalRates(q)[Pair(WLD, WLD)] == Some(1.0) && InternalRates(q)[Pair(USDT, USDT)] == Some(1.0)
  {
  }

  /** The fourteen keys are always written; WLD <-> VES is always null and
      every identity is 1.0, whatever the quotes. */
  lemma FixedEntriesAlwaysWritten(q: LiveQuotes)
    requires q.Valid()
    ensures InternalRates(q).Keys == InternalKeys
    ensures Pair(WLD, USDT) !in InternalRates(q) && Pair(USDT, WLD) !in InternalRates(q)
    ensures InternalRates(q)[Pair(WLD, VES)] == None && InternalRates(q)[Pair(VES, WLD)] == None
    ensures forall c: Currency :: Pair(c, c) in InternalRates(q) && InternalRates(q)[Pair(c, c)] == Some(1.0)
  {
    InternalKeysExact(q);
    InternalFixedTable(q);
    forall c: Currency
      ensures Pair(c, c) in InternalRates(q) && InternalRates(q)[Pair(c, c)] == Some(1.0)
    {
      match c
      case CLP =>
      case VES =>
      case WLD =>
      case USDT =>
    }
  }

  /** With all three quotes present, the four forward rates. */
  lemma InternalFormulas(q: LiveQuotes)
    requires q.Valid()
    requires q.wldToUsdt.Some? && q.usdtToClp.Some? && q.usdtToVes.Some?
    ensures InternalRates(q)[Pair(WLD, CLP)] == Some(q.wldToUsdt.value * q.usdtToClp.value * (1.0 - 0.14))
    ensures InternalRates(q)[Pair(CLP, VES)] == Some(q.usdtToVes.value / q.usdtToClp.value * (1.0 - 0.06))
    ensures InternalRates(q)[Pair(USDT, CLP)] == Some(q.usdtToClp.value * (1.0 + 0.004))
    ensures InternalRates(q)[Pair(USDT, VES)] == Some(q.usdtToVes.value)
  {
    InternalTable(q);
    assert InternalRates(q)[Pair(WLD, CLP)] == ForwardWldClp(q) == Some(WldToClp(q.wldToUsdt.value, q.usdtToClp.value));
    assert WldToClp(q.wldToUsdt.value, q.usdtToClp.value) == q.wldToUsdt.value * q.usdtToClp.value * (1.0 - 0.14);
    assert ForwardClpVes(q) == Some(ClpToVes(q.usdtToClp.value, q.usdtToVes.value));
    assert ForwardUsdtClp(q) == Some(UsdtToClp(q.usdtToClp.value));
  }

  /** A null CLP quote nulls WLD <-> CLP, CLP <-> VES and CLP <-> USDT, and
      leaves USDT <-> VES to the VES quote alone. */
  lemma NullClpQuote(q: LiveQuotes)
    requires q.Valid() && q.usdtToClp.None?
    ensures var m := InternalRates(q);
      && m[Pair(WLD, CLP)].None? && m[Pair(CLP, WLD)].None?
      && m[Pair(CLP, VES)].None? && m[Pair(VES, CLP)].None?
      && m[Pair(USDT, CLP)].None? && m[Pair(CLP, USDT)].None?
      && m[Pair(USDT, VES)] == q.usdtToVes
      && (q.usdtToVes.Some? ==> m[Pair(VES, USDT)] == Some(1.0 / q.usdtToVes.value))
  {
    InternalTable(q);
  }

  /** Every non-null entry is non-zero and its reverse entry is `1 /` it. */
  ghost predicate InverseClosed(m: map<Pair, Option<real>>)
  {
    forall p | p in m && m[p].Some? :: p.Flip() in m && m[p].value != 0.0 && m[p.Flip()] == Some(1.0 / m[p].value)
  }

  /** Every non-null entry times its reverse entry is 1. */
  ghost predicate Reciprocal(m: map<Pair, Option<real>>)
  {
    forall p | p in m && m[p].Some? :: p.Flip() in m && m[p.Flip()].Some? && m[p].value * m[p.Flip()].value == 1.0
  }

  lemma InverseClosedIsReciprocal(m: map<Pair, Option<real>>)
    requires InverseClosed(m)
    ensures Reciprocal(m)
  {
    forall p | p in m && m[p].Some?
      ensures p.Flip() in m && m[p.Flip()].Some? && m[p].value * m[p.Flip()].value == 1.0
    {
      var x := m[p].value;
      assert p.Flip() in m && x != 0.0 && m[p.Flip()] == Some(1.0 / x);
      InverseProduct(x);
    }
  }

  /** Reciprocity of the matrix: each reverse entry is exactly 1 divided by
      its forward entry, so the two multiply to 1. */
  lemma InverseEntries(q: LiveQuotes)
    requires q.Valid()
    ensures InverseClosed(InternalRates(q))
    ensures Reciprocal(InternalRates(q))
  {
    var m := InternalRates(q);
    forall p | p in m && m[p].Some?
      ensures p.Flip() in m && m[p].value != 0.0 && m[p.Flip()] == Some(1.0 / m[p].value)
    {
      EntryInverse(q, p);
    }
    InverseClosedIsReciprocal(m);
  }

  lemma EntryInverse(q: LiveQuotes, p: Pair)
    requires q.Valid() && p in InternalRates(q) && InternalRates(q)[p].Some?
    ensures p.Flip() in InternalRates(q) && InternalRates(q)[p].value != 0.0
    ensures InternalRates(q)[p.Flip()] == Some(1.0 / InternalRates(q)[p].value)
  {
    var m := InternalRates(q);
    InternalTable(q);
    if p.IsIdentity() {
      InternalFixedTable(q);
      assert m[p] == Some(1.0) && p.Flip() == p;
    } else if p == Pair(WLD, CLP) || p == Pair(CLP, VES) || p == Pair(USDT, CLP) || p == Pair(USDT, VES) {
      assert m[p.Flip()] == Inv(m[p]);
    } else if p == Pair(CLP, WLD) || p == Pair(VES, CLP) || p == Pair(CLP, USDT) || p == Pair(VES, USDT) {
      assert m[p] == Inv(m[p.Flip()]);
      InvInvolutive(m[p.Flip()]);
    } else {
      assert false;
    }
  }

  /** `Inv` is its own inverse, and a quote times its inverse is 1. */
  lemma InvInvolutive(x: Option<real>)
    requires NonZero(x) && x.Some?
    ensures Inv(x).Some? && Inv(x).value != 0.0 && Inv(Inv(x)) == x
    ensures x.value * Inv(x).value == 1.0 && Inv(x).value * x.value == 1.0
  {
    InverseProduct(x.value);
  }

  /** `isReady` holds exactly when the CLP and VES quotes are both non-null. */
  lemma ReadyIffQuotes(q: LiveQuotes)
    requires q.Valid()
    ensures Ready(InternalRates(q)) <==> q.usdtToClp.Some? && q.usdtToVes.Some?
  {
    InternalTable(q);
  }

  /** The pairs no quote makes available: WLD <-> VES (null) and WLD <-> USDT (no key). */
  const NoRoute: set<Pair> := {Pair(WLD, VES), Pair(VES, WLD), Pair(WLD, USDT), Pair(USDT, WLD)}

  /** With all quotes present and a positive amount, exactly the pairs outside
      `NoRoute` are quoted, at `amountSend * rate`. */
  lemma ExchangeRoutes(q: LiveQuotes, amountSend: real, send: Currency, receive: Currency)
    requires q.Valid() && q.wldToUsdt.Some? && q.usdtToClp.Some? && q.usdtToVes.Some?
    requires amountSend > 0.0
    ensures var e := CalculateExchange(Some(amountSend), send, receive, InternalRates(q));
      && (e.Quoted? <==> Pair(send, receive) !in NoRoute)
      && (!e.Quoted? ==> e.Unavailable?)
  {
    var m := InternalRates(q);
    InternalTable(q);
    InternalFixedTable(q);
    ReadyIffQuotes(q);
    var p := Pair(send, receive);
    if p in NoRoute {
      assert RateAt(m, p).None?;
    } else {
      assert p in InternalKeys - {Pair(WLD, VES), Pair(VES, WLD)};
      assert RateAt(m, p).Some?;
    }
  }

  /** Converting a quoted amount back gives the original amount, at the
      reciprocal rate. */
  lemma RoundTrip(q: LiveQuotes, amountSend: real, send: Currency, receive: Currency)
    requires q.Valid()
    requires CalculateExchange(Some(amountSend), send, receive, InternalRates(q)).Quoted?
    requires CalculateExchange(Some(amountSend), send, receive, InternalRates(q)).amountReceive > 0.0
    ensures var e := CalculateExchange(Some(amountSend), send, receive, InternalRates(q));
      CalculateExchange(Some(e.amountReceive), receive, send, InternalRates(q)) == Quoted(amountSend, 1.0 / e.rate)
  {
    InverseEntries(q);
    RoundTripOn(InternalRates(q), amountSend, send, receive);
  }

  /** The round trip over any matrix whose reverse entries are reciprocals. */
  lemma RoundTripOn(m: map<Pair, Option<real>>, amountSend: real, send: Currency, receive: Currency)
    requires InverseClosed(m)
    requires CalculateExchange(Some(amountSend), send, receive, m).Quoted?
    requires CalculateExchange(Some(amountSend), send, receive, m).amountReceive > 0.0
    ensures var e := CalculateExchange(Some(amountSend), send, receive, m);
      CalculateExchange(Some(e.amountReceive), receive, send, m) == Quoted(amountSend, 1.0 / e.rate)
  {
    var e := CalculateExchange(Some(amountSend), send, receive, m);
    var r, b := e.rate, e.amountReceive;
    assert Ready(m) && r != 0.0 && RateAt(m, Pair(receive, send)) == Some(1.0 / r) by {
      var p := Pair(send, receive);
      assert p in m && m[p] == Some(r);
      assert p.Flip() == Pair(receive, send);
    }
    assert b == amountSend * r;
    BackAndForth(amountSend, r, b);
    QuoteAt(m, b, receive, send, 1.0 / r);
  }

  /** On a ready matrix, a positive amount and a non-null rate give a quote. */
  lemma QuoteAt(m: map<Pair, Option<real>>, amount: real, send: Currency, receive: Currency, rate: real)
    requires Ready(m) && amount > 0.0 && RateAt(m, Pair(send, receive)) == Some(rate)
    ensures CalculateExchange(Some(amount), send, receive, m) == Quoted(amount * rate, rate)
  {
  }

  /** Converting back with the reciprocal rate restores the amount. */
  lemma BackAndForth(a: real, r: real, b: real)
    requires r != 0.0 && b == a * r
    ensures b * (1.0 / r) == a
  {
  }

  /** The recorded transaction agrees with the displayed quote: same
      receive amount, and the quote's rate as its applied rate. */
  lemma RecordMatchesQuote(amountSend: real, send: Currency, receive: Currency, rates: map<Pair, Option<real>>)
    requires CalculateExchange(Some(amountSend), send, receive, rates).Quoted?
    requires CalculateExchange(Some(amountSend), send, receive, rates).rate != 0.0
    ensures var e, t := CalculateExchange(Some(amountSend), send, receive, rates), PaymentRecord(Some(amountSend), send, receive, rates);
      && t.amountReceive == Some(e.amountReceive)
      && t.rateApplied == Some(e.rate)
      && t.status == "Pendiente"
  {
  }

  // ---------------------------------------------------------------------
  // The VES field name
  // ---------------------------------------------------------------------

  /** As written, a successful reply from either endpoint has no
      `VES_per_USDT_SELL` property, so the VES quote reads `undefined`
      (shown here as `None`) whatever the endpoint fetched, while the other
      two quotes take the body's values. */
  lemma VesQuoteLostAsWritten(current: LiveQuotes, joined: Result<RatesApi.Fetched, string>, fb: RatesApi.Fallbacks)
    requires fb.wldToUsdt != 0.0 && fb.usdtToClp != 0.0 && fb.vesToUsdt != 0.0
    requires joined.Success?
    ensures RatesApi.RatesResponse(joined, fb).body.Some?
    ensures RatesApi.VesPerUsdtSellField !in RatesApi.RatesResponse(joined, fb).body.value.fields
    ensures var q := FetchedQuotesAsWritten(current, Success(RatesApi.RatesResponse(joined, fb)));
      && q.usdtToVes.None?
      && q.usdtToClp == Some(RatesApi.RatesResponse(joined, fb).body.value.fields[RatesApi.UsdtToClpField])
      && q.wldToUsdt == Some(RatesApi.RatesResponse(joined, fb).body.value.fields[RatesApi.WldToUsdtField])
  {
    RatesApi.ResponseQuotesPresent(joined, fb);
  }

  /** Reading `VES_to_USDT_P2P`, a reply from either endpoint either sets all
      three quotes to the body's non-zero values (after which the calculator
      is ready) or, on the 500 failure, leaves them unchanged. */
  lemma FetchTakesEndpointQuotes(current: LiveQuotes, joined: Result<RatesApi.Fetched, string>, fb: RatesApi.Fallbacks)
    requires current.Valid()
    requires fb.wldToUsdt != 0.0 && fb.usdtToClp != 0.0 && fb.vesToUsdt != 0.0
    ensures var resp := RatesApi.RatesResponse(joined, fb);
      var q := FetchedQuotes(current, Success(resp));
      && q.Valid()
      && (joined.Failure? ==> q == current)
      && (joined.Success? ==>
            && q.wldToUsdt == Some(resp.body.value.fields[RatesApi.WldToUsdtField])
            && q.usdtToClp == Some(resp.body.value.fields[RatesApi.UsdtToClpField])
            && q.usdtToVes == Some(resp.body.value.fields[RatesApi.VesToUsdtField])
            && Ready(InternalRates(q)))
  {
    RatesApi.ResponseQuotesPresent(joined, fb);
    var resp := RatesApi.RatesResponse(joined, fb);
    var q := FetchedQuotes(current, Success(resp));
    if joined.Success? {
      ReadyIffQuotes(q);
    }
  }
}
