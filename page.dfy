/** The home page of the Next.js client, src/app/page.tsx: the derived
    current rate and receive amount, the swap and payment handlers, the rate
    fallback and the two snapshot listeners.

    React state is a class whose fields are the `useState` values; each
    handler is a method.  An amount is the result of `parseFloat` on the
    input text, `None` standing for NaN. */
module HomePage {
  import opened Wrappers
  import opened Types
  import RateCalculator
  import Sorting

  /** The quotes used when the rate fetch yields nothing. */
  const FallbackRates: ExchangeRates := ExchangeRates(1.19, 963.0, 963.0, 36.0)

  /** `calculatedRates[`${currencySend}_to_${currencyReceive}`]`; `None` is `undefined`. */
  function CurrentRate(liveRates: Option<ExchangeRates>, send: Currency, receive: Currency): Option<real>
  {
    RateCalculator.Lookup(RateCalculator.FullRates(liveRates), Pair(send, receive))
  }

  /** `!currentRate`: undefined and 0 are both falsy. */
  predicate Truthy(rate: Option<real>) { rate.Some? && rate.value != 0.0 }

  /** The `amountReceive` memo: 0 for a NaN or non-positive amount or a
      falsy rate, otherwise the amount times the rate. */
  function AmountReceive(amount: Option<real>, currentRate: Option<real>): (r: real)
    ensures amount.None? || amount.value <= 0.0 || !Truthy(currentRate) ==> r == 0.0
    ensures amount.Some? && amount.value > 0.0 && Truthy(currentRate) ==> r == amount.value * currentRate.value
    ensures amount.Some? && amount.value > 0.0 && Truthy(currentRate) && currentRate.value > 0.0 ==> r > 0.0
  {
    if amount.None? || amount.value <= 0.0 || !Truthy(currentRate) then 0.0
    else amount.value * currentRate.value
  }

  /** With positive quotes and a positive amount, the receive amount is the
      amount times the calculator's rate for every pair it derives, and 0
      for the pairs it has no rate for (USDT <-> VES, WLD <-> VES, WLD <-> USDT). */
  lemma AmountReceiveOnCalculator(lr: ExchangeRates, amount: real, send: Currency, receive: Currency)
    requires lr.wldToUsdt > 0.0 && lr.usdtToClpP2PWld > 0.0
    requires lr.clpToUsdtP2P > 0.0 && lr.vesToUsdtP2P > 0.0
    requires amount > 0.0
    ensures Pair(send, receive) in RateCalculator.DerivedPairs + Identities ==>
      CurrentRate(Some(lr), send, receive).Some?
      && AmountReceive(Some(amount), CurrentRate(Some(lr), send, receive))
           == amount * CurrentRate(Some(lr), send, receive).value > 0.0
    ensures Pair(send, receive) !in RateCalculator.DerivedPairs + Identities ==>
      AmountReceive(Some(amount), CurrentRate(Some(lr), send, receive)) == 0.0
  {
    var m := RateCalculator.FullRates(Some(lr));
    RateCalculator.PositiveQuotesGivePositiveRates(lr);
    assert CurrentRate(Some(lr), send, receive) == RateCalculator.Lookup(m, Pair(send, receive));
    AmountReceiveOnPositiveMap(m, RateCalculator.DerivedPairs + Identities, Pair(send, receive), amount);
  }

  /** The memo over any rate table with key set `keys` whose entries are all
      positive: the amount times the entry when the pair has one, 0 otherwise. */
  lemma AmountReceiveOnPositiveMap(m: map<Pair, real>, keys: set<Pair>, p: Pair, amount: real)
    requires m.Keys == keys
    requires forall q | q in m :: m[q] > 0.0
    requires amount > 0.0
    ensures p in keys ==>
      RateCalculator.Lookup(m, p).Some?
      && AmountReceive(Some(amount), RateCalculator.Lookup(m, p)) == amount * RateCalculator.Lookup(m, p).value > 0.0
    ensures p !in keys ==> AmountReceive(Some(amount), RateCalculator.Lookup(m, p)) == 0.0
  {
    if p in m {
      assert RateCalculator.Lookup(m, p) == Some(m[p]) && m[p] > 0.0;
      assert amount * m[p] > 0.0;
    }
  }

  /** Before the first fetch completes, no pair has a rate and every receive amount is 0. */
  lemma NoRatesBeforeFetch(amount: Option<real>, send: Currency, receive: Currency)
    ensures CurrentRate(None, send, receive).None?
    ensures AmountReceive(amount, CurrentRate(None, send, receive)) == 0.0
  {
    RateCalculator.NullInputIsEmpty();
  }

  /** The fallback quotes give every derived pair a positive rate. */
  lemma FallbackRatesComplete()
    ensures RateCalculator.FullRates(Some(FallbackRates)).Keys == RateCalculator.DerivedPairs + Identities
    ensures forall p | p in RateCalculator.FullRates(Some(FallbackRates)) :: RateCalculator.FullRates(Some(FallbackRates))[p] > 0.0
  {
    RateCalculator.PositiveQuotesGivePositiveRates(FallbackRates);
  }

  // ---------------------------------------------------------------------
  // The payment guard
  // ---------------------------------------------------------------------

  /** `parseFloat(amountSend) <= 0`: false for NaN. */
  predicate NotPositiveAsWritten(amount: Option<real>) { amount.Some? && amount.value <= 0.0 }

  /** The guard of `handleOpenPaymentModal` as written: it rejects a missing
      user, a falsy rate and a non-positive amount, but lets NaN through. */
  predicate OpenPaymentAllowedAsWritten(signedIn: bool, currentRate: Option<real>, amount: Option<real>)
  {
    signedIn && Truthy(currentRate) && !NotPositiveAsWritten(amount)
  }

  /** The guard as intended: a signed-in user, a rate, and a positive number. */
  predicate OpenPaymentAllowed(signedIn: bool, currentRate: Option<real>, amount: Option<real>)
  {
    signedIn && Truthy(currentRate) && amount.Some? && amount.value > 0.0
  }

  /** The document the handler writes (server timestamp left out). */
  datatype PaymentDoc = PaymentDoc(
    fromCurrency: Currency,
    toCurrency: Currency,
    amountSend: Option<real>,
    amountReceive: real,
    rate: real)

  /** The document for the current state: the displayed receive amount and the current rate. */
  function PaymentDocFor(send: Currency, receive: Currency, amount: Option<real>, currentRate: Option<real>): (d: PaymentDoc)
    requires currentRate.Some?
    ensures d.fromCurrency == send && d.toCurrency == receive && d.amountSend == amount
    ensures d.amountReceive == AmountReceive(amount, currentRate) && d.rate == currentRate.value
  {
    PaymentDoc(send, receive, amount, AmountReceive(amount, currentRate), currentRate.value)
  }

  /** As written, an empty amount field (NaN) passes the guard, and the
      document written has no amount and a receive amount of 0. */
  lemma NaNAmountRecordedAsWritten(send: Currency, receive: Currency, rate: real)
    requires rate != 0.0
    ensures OpenPaymentAllowedAsWritten(true, Some(rate), None)
    ensures !OpenPaymentAllowed(true, Some(rate), None)
    ensures var d := PaymentDocFor(send, receive, None, Some(rate));
      d.amountSend.None? && d.amountReceive == 0.0 && d.rate == rate
  {
  }

  /** With the intended guard, every document written carries a positive
      amount, the current rate, and their product as the receive amount. */
  lemma AllowedPaymentIsConsistent(signedIn: bool, send: Currency, receive: Currency, amount: Option<real>, currentRate: Option<real>)
    requires OpenPaymentAllowed(signedIn, currentRate, amount)
    ensures OpenPaymentAllowedAsWritten(signedIn, currentRate, amount)
    ensures var d := PaymentDocFor(send, receive, amount, currentRate);
      && d.amountSend.Some? && d.amountSend.value > 0.0
      && d.amountReceive == d.amountSend.value * d.rate
      && (d.rate > 0.0 ==> d.amountReceive > 0.0)
  {
  }

  /** The pay button of the calculator (src/components/ExchangeCalculator.tsx):
      enabled with a rate, when not loading and unless the amount is a
      non-positive number; like the guard it is enabled for NaN. */
  predicate PayButtonEnabled(currentRate: Option<real>, isLoading: bool, amount: Option<real>)
  {
    currentRate.Some? && !isLoading && !NotPositiveAsWritten(amount)
  }

  /** Once loaded, the pay button and the written guard agree for a
      signed-in user with a non-zero rate: both let an empty amount (NaN)
      through, which the intended guard rejects. While loading the button
      is disabled. */
  lemma PayButtonMatchesGuardAsWritten(currentRate: Option<real>, amount: Option<real>)
    ensures currentRate != Some(0.0) ==>
      (PayButtonEnabled(currentRate, false, amount) <==> OpenPaymentAllowedAsWritten(true, currentRate, amount))
    ensures currentRate.Some? ==> PayButtonEnabled(currentRate, false, None) && !OpenPaymentAllowed(true, currentRate, None)
    ensures !PayButtonEnabled(currentRate, true, amount)
  {
  }

  // ---------------------------------------------------------------------
  // The page state
  // ---------------------------------------------------------------------

  /** A stored transaction as a snapshot delivers it; the timestamp may be unset. */
  datatype HistoryDoc = HistoryDoc(
    id: string,
    fromCurrency: Currency,
    toCurrency: Currency,
    amountSend: real,
    amountReceive: real,
    rate: real,
    timestamp: Option<int>,
    status: TransactionStatus)

  /** The history entry for a document: an unset timestamp reads as `now`. */
  function ToTransaction(doc: HistoryDoc, now: int): (t: Transaction)
    ensures t.id == doc.id && t.status == doc.status
    ensures t.timestamp == doc.timestamp.GetOr(now)
  {
    Transaction(doc.id, doc.fromCurrency, doc.toCurrency, doc.amountSend, doc.amountReceive,
                doc.rate, doc.timestamp.GetOr(now), doc.status)
  }

  function ToTransactions(docs: seq<HistoryDoc>, now: int): (ts: seq<Transaction>)
    ensures |ts| == |docs|
    ensures forall i | 0 <= i < |docs| :: ts[i] == ToTransaction(docs[i], now)
  {
    if |docs| == 0 then [] else ToTransactions(docs[..|docs| - 1], now) + [ToTransaction(docs[|docs| - 1], now)]
  }

  /** The `Home` component's state. */
  class Home {
    var liveRates: Option<ExchangeRates>
    var amountSend: Option<real>
    var currencySend: Currency
    var currencyReceive: Currency
    var transactions: seq<Transaction>
    var adminAccounts: seq<AdminAccount>
    var isModalOpen: bool

    /** The initial state: no rates, 10000 CLP to VES. */
    constructor ()
      ensures liveRates.None? && amountSend == Some(10000.0)
      ensures currencySend == CLP && currencyReceive == VES
      ensures transactions == [] && adminAccounts == [] && !isModalOpen
    {
      liveRates := None;
      amountSend := Some(10000.0);
      currencySend := CLP;
      currencyReceive := VES;
      transactions := [];
      adminAccounts := [];
      isModalOpen := false;
    }

    function Rate(): Option<real>
      reads this
    {
      CurrentRate(liveRates, currencySend, currencyReceive)
    }

    function Receive(): real
      reads this
    {
      AmountReceive(amountSend, Rate())
    }

    /** `handleSwap`: the two currencies trade places. */
    method HandleSwap()
      modifies this
      ensures currencySend == old(currencyReceive) && currencyReceive == old(currencySend)
      ensures liveRates == old(liveRates) && amountSend == old(amountSend)
      ensures transactions == old(transactions) && adminAccounts == old(adminAccounts)
      ensures isModalOpen == old(isModalOpen)
    {
      currencySend, currencyReceive := currencyReceive, currencySend;
    }

    /** The rate fetch: the fetched quotes, or the fallback when there are none. */
    method FetchRates(ratesData: Option<ExchangeRates>)
      modifies this
      ensures liveRates == Some(ratesData.GetOr(FallbackRates))
      ensures amountSend == old(amountSend) && currencySend == old(currencySend) && currencyReceive == old(currencyReceive)
      ensures transactions == old(transactions) && adminAccounts == old(adminAccounts) && isModalOpen == old(isModalOpen)
    {
      match ratesData
      case Some(r) => liveRates := Some(r);
      case None => liveRates := Some(FallbackRates);
    }

    /** `handleOpenPaymentModal` with the intended guard. `signedIn` stands
        for the user, `stored` for the outcome of the write; the modal opens
        once the document is stored. Returns the document written, if any. */
    method HandleOpenPaymentModal(signedIn: bool, stored: bool) returns (written: Option<PaymentDoc>)
      modifies this
      ensures !OpenPaymentAllowed(signedIn, old(Rate()), old(amountSend)) ==>
        written.None? && isModalOpen == old(isModalOpen)
      ensures OpenPaymentAllowed(signedIn, old(Rate()), old(amountSend)) ==>
        && written == Some(PaymentDocFor(old(currencySend), old(currencyReceive), old(amountSend), old(Rate())))
        && written.value.amountReceive == old(Receive())
        && isModalOpen == (stored || old(isModalOpen))
      ensures liveRates == old(liveRates) && amountSend == old(amountSend)
      ensures currencySend == old(currencySend) && currencyReceive == old(currencyReceive)
      ensures transactions == old(transactions) && adminAccounts == old(adminAccounts)
    {
      var rate := Rate();
      if !OpenPaymentAllowed(signedIn, rate, amountSend) {
        return None;
      }
      written := Some(PaymentDocFor(currencySend, currencyReceive, amountSend, rate));
      if stored {
        isModalOpen := true;
      }
    }

    /** The history listener: every document is pushed (an unset timestamp
        read as `now`), then the list is sorted newest first. */
    method OnHistorySnapshot(docs: seq<HistoryDoc>, now: int)
      modifies this
      ensures transactions == Sorting.SortBy(ToTransactions(docs, now), Sorting.NewestFirst)
      ensures multiset(transactions) == multiset(ToTransactions(docs, now))
      ensures forall i, j :: 0 <= i < j < |transactions| ==> transactions[i].timestamp >= transactions[j].timestamp
      ensures liveRates == old(liveRates) && adminAccounts == old(adminAccounts)
    {
      var history: seq<Transaction> := [];
      var k := 0;
      while k < |docs|
        invariant 0 <= k <= |docs|
        invariant history == ToTransactions(docs[..k], now)
      {
        assert docs[..k + 1][..k] == docs[..k];
        history := history + [ToTransaction(docs[k], now)];
        k := k + 1;
      }
      assert docs[..k] == docs;
      Sorting.HistoryNewestFirst(history);
      transactions := Sorting.SortBy(history, Sorting.NewestFirst);
    }

    /** The admin accounts listener: every document is pushed, then the list
        is sorted by bank name. */
    method OnAccountsSnapshot(docs: seq<AdminAccount>)
      modifies this
      ensures adminAccounts == Sorting.SortBy(docs, Sorting.ByBankName)
      ensures multiset(adminAccounts) == multiset(docs)
      ensures forall i, j :: 0 <= i < j < |adminAccounts| ==>
        Sorting.StrLe(adminAccounts[i].bankName, adminAccounts[j].bankName)
      ensures liveRates == old(liveRates) && transactions == old(transactions)
    {
      var accounts: seq<AdminAccount> := [];
      var k := 0;
      while k < |docs|
        invariant 0 <= k <= |docs|
        invariant accounts == docs[..k]
      {
        accounts := accounts + [docs[k]];
        k := k + 1;
      }
      assert accounts == docs;
      Sorting.AccountsSortedByBankName(accounts);
      adminAccounts := Sorting.SortBy(accounts, Sorting.ByBankName);
    }
  }
}
