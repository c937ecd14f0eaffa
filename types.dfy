/** Shared value types of the application (src/lib/types.ts). */
module Types {
  import opened Wrappers

  /** The four currencies the calculator offers. */
  datatype Currency = CLP | VES | WLD | USDT

  /** An ordered currency pair; stands for the rate key `"{FROM}_to_{TO}"`. */
  datatype Pair = Pair(from: Currency, to: Currency)
  {
    function Flip(): Pair { Pair(to, from) }
    predicate IsIdentity() { from == to }
  }

  /** The four identity pairs that both rate builders always fill with 1.0. */
  const Identities: set<Pair> :=
    {Pair(CLP, CLP), Pair(VES, VES), Pair(WLD, WLD), Pair(USDT, USDT)}

  /** Lifecycle of a stored transaction. */
  datatype TransactionStatus = Pending | Processing | Completed | Cancelled

  /** The four upstream quotes the rate calculator consumes. */
  datatype ExchangeRates = ExchangeRates(
    wldToUsdt: real,
    usdtToClpP2PWld: real,
    clpToUsdtP2P: real,
    vesToUsdtP2P: real)

  /** A transaction as the history shows it (the optional recipient left
      out); `timestamp` is in milliseconds. */
  datatype Transaction = Transaction(
    id: string,
    fromCurrency: Currency,
    toCurrency: Currency,
    amountSend: real,
    amountReceive: real,
    rate: real,
    timestamp: int,
    status: TransactionStatus)

  /** A bank account the administrator publishes for CLP transfers. */
  datatype AdminAccount = AdminAccount(
    id: string,
    bankName: string,
    accountHolder: string,
    accountNumber: string,
    rut: string,
    accountType: string,
    email: Option<string>)

  /** A non-zero real times its reciprocal is 1, and the reciprocal is involutive. */
  lemma InverseProduct(x: real)
    requires x != 0.0
    ensures x * (1.0 / x) == 1.0 && 1.0 / x != 0.0 && 1.0 / (1.0 / x) == x
  {
  }
}
