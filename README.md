# myremesas: a Dafny model of the remittance calculator's core

myremesas is a remittance web application that converts between Chilean pesos (CLP), Venezuelan bolívares (VES), Worldcoin (WLD) and Tether (USDT). This project models its core in Dafny and proves properties about that model.

Rates are modelled over `real`, not IEEE doubles.

## What is modelled

**The two rate-matrix builders.** They are modelled separately, as in the source.
- `RateCalculator` models `calculateFullRates` from the Next.js client (src/lib/rate-calculator.ts).
  - It reads four quotes.
  - Its guards test JavaScript truthiness, so a quote of 0 counts as missing.
  - A pair without its quotes is absent from the dictionary.
  - The CLP→VES discount is 8%.
- `MainRates` models `calculateFullRatesInternal` from the static client (public/main.js).
  - It reads the three module-level quotes in `liveRates`.
  - Its guards test only `!== null`.
  - A pair without its quotes is an explicit null entry.
  - The CLP→VES discount is 6%.
  - It also writes a USDT↔VES pass-through and null WLD↔VES entries.

Both builders are methods that fill a map key by key. Each is proved equal to a specification function. The lemmas prove:
- which keys exist, and which are null, for which quotes;
- the rate formulas;
- that each reverse entry is exactly `1 / forward` and the two multiply to 1;
- that the identity rates are always 1.0.

**The consumers of the matrix.**
- `calculateExchange` in public/main.js: the readiness gate, the amount check and the route lookup.
- The record that `showPaymentModal` passes to `recordTransaction` in public/main.js.
- In src/app/page.tsx:
  - the `amountReceive` memo and the current-rate lookup;
  - the swap handler and the payment handler with its guard;
  - the fallback quotes;
  - the two snapshot listeners, which sort the history newest first and the admin accounts by bank name.

**Quote acquisition.** Two serverless endpoints fetch the quotes: the Firebase function in functions/index.js and the Vercel handler in api/rates.js.
- `RatesApi` holds what the two share:
  - the P2P helper takes the first offer;
  - the spot helper takes the parsed price;
  - each helper turns a transport error into null;
  - each field takes the fetched value when truthy and the fallback constant otherwise (`||`);
  - the outer `try`/`catch` answers 200 or 500.
- `CloudRates` and `VercelRates` add each deployment's fallback constants. `VercelRates` also handles the OPTIONS preflight.
- Each upstream call is given as its outcome. A `Failure` stands for a thrown error.

**The validators and the administrator's controls.**
- The three zod schemas: the Venezuelan recipient form, the Chilean recipient form and the admin account form.
  - Each is a function from the form values to the list of issues zod reports.
  - Each has a `Parse` that succeeds exactly when a field-by-field `Acceptable` predicate holds.
- The account form's submit handler (`AccountManager.AccountForm`).
- The per-order status controls of the admin transaction manager (`AdminTransactions.AdminTransactionItem`):
  - completing an order needs a receipt;
  - the receipt is uploaded to a fixed path;
  - a failed upload sends no update.
- `saveAdminAccounts` in public/main.js, with its trim-based validation and its "N/A" email, and the accounts listener (`MainAccounts`).

**Where the source disagrees with itself, the model follows the code that runs:**
- public/main.js:337 reads the VES quote from `VES_per_USDT_SELL`, but functions/index.js and api/rates.js send it as `VES_to_USDT_P2P`. This is the first row under "## Findings".
- The comment at public/main.js:381 says the CLP→VES discount is 8%, but the constant at public/main.js:38 is 0.06, and the model uses 0.06. src/lib/rate-calculator.ts:4 uses 0.08.
- main.js's guards test only `!== null`, so a zero quote passes them. src/lib/rate-calculator.ts tests truthiness, so a zero quote fails its guards.

**Abstractions used throughout:**
- Two asynchronous handlers are split at their `await` into two methods:
  - `HandleStatusChange` and `FinishUpload`;
  - `Submit` and `SaveSettled`.
- The other asynchronous handlers are single methods that take the awaited outcome as a parameter: `SaveAdminAccounts`, `FetchDynamicRates`, `FetchRates` and `HandleOpenPaymentModal`.
- A number that JavaScript could hold as NaN or `undefined` is an `Option<real>`. `None` stands for NaN, null or undefined, wherever these behave alike.
- zod's e-mail regular expression is the parameter `isEmail`.

## Model

| member | source | states |
|---|---|---|
| RateCalculator.WldToClp | src/lib/rate-calculator.ts:18-20 | The WLD→CLP rate is non-zero when both of its quotes are truthy, and positive when both are positive. |
| RateCalculator.ClpToVes | src/lib/rate-calculator.ts:26-29 | The CLP→VES rate needs a truthy CLP quote as its denominator. It is non-zero when the VES quote is truthy, and positive when both quotes are positive. |
| RateCalculator.UsdtToClp | src/lib/rate-calculator.ts:35-36 | The USDT→CLP rate with its margin is non-zero when the CLP quote is truthy, and positive when that quote is positive. |
| RateCalculator.CalculateFullRates | src/lib/rate-calculator.ts:7-50 | The dictionary built key by key equals the four-step specification `FullRates`. `usdtToClpMargin` is set exactly when the CLP quote is truthy, and then equals the USDT→CLP entry. |
| RateCalculator.NullInputIsEmpty | src/lib/rate-calculator.ts:11-13 | A null input gives an empty dictionary and a null margin. |
| RateCalculator.IdentitiesAreOne | src/lib/rate-calculator.ts:44-47 | For every non-null input, CLP→CLP, VES→VES, WLD→WLD and USDT→USDT are present and equal 1.0. |
| RateCalculator.WldClpEntries | src/lib/rate-calculator.ts:18-23 | WLD→CLP is present exactly when both WLD quotes are truthy. It equals `WLD_to_USDT · USDT_to_CLP_P2P_WLD · 0.86`. CLP→WLD is present with it and is its reciprocal. |
| RateCalculator.ClpVesEntries | src/lib/rate-calculator.ts:26-32 | CLP→VES is present exactly when the CLP and VES quotes are truthy. It equals `VES_to_USDT_P2P / CLP_to_USDT_P2P · 0.92`. VES→CLP is present with it and is its reciprocal. |
| RateCalculator.ClpUsdtEntries | src/lib/rate-calculator.ts:35-41 | USDT→CLP and CLP→USDT are present exactly when the CLP quote is truthy. USDT→CLP equals `CLP_to_USDT_P2P · 1.004`, and CLP→USDT is its reciprocal. The derived margin is the USDT→CLP entry, or null when that entry is absent. |
| RateCalculator.FullRatesKeys | src/lib/rate-calculator.ts:17-47 | The exact key set: the four identities, plus each pair of keys whose guard holds. |
| RateCalculator.KeysBounded | src/lib/rate-calculator.ts:17-47 | The keys always lie within the six derived pairs and the four identities. No USDT↔VES, WLD↔VES or WLD↔USDT key is ever produced. |
| RateCalculator.ZeroQuoteDropsDependents | src/lib/rate-calculator.ts:17-41 | A zero quote removes every pair that depends on it, so nothing is divided by zero. A zero CLP quote also makes the margin null. |
| RateCalculator.Reciprocity | src/lib/rate-calculator.ts:17-47 | Every entry is non-zero, its reverse pair is present, the reverse entry is exactly `1 /` the entry, and the two multiply to 1. |
| RateCalculator.PositiveQuotesGivePositiveRates | src/lib/rate-calculator.ts:17-47 | With all four quotes positive, all ten keys are present and every rate is positive. |
| RatesApi.GetP2PRate | functions/index.js:42-51 | The result is the first offer's parsed price when the offer list is non-empty, and null otherwise. A transport error gives null instead of an exception. api/rates.js:34-44 behaves the same way. |
| RatesApi.GetSpotRate | functions/index.js:66-74 | The result is the parsed price when the price field is present, and null when it is missing or on a transport error. api/rates.js:55-63 behaves the same way. |
| RatesApi.OrFallback | functions/index.js:93-95 | `fetched \|\| fallback`: a truthy fetched value is kept. null, NaN and 0 are replaced by the fallback. With a non-zero fallback the result is never 0. |
| RatesApi.SuccessBody | functions/index.js:91-96 | The success body has `success: true`, exactly the three quote fields, and each field is its fetched value or its fallback. |
| RatesApi.FailureBody | functions/index.js:102-106 | The failure body has `success: false`, the failure message, and exactly the three fallback values. |
| RatesApi.RatesResponse | functions/index.js:82-107 | The answer is 200 exactly when the join succeeded and 500 otherwise. It always has a body, and `success` is true exactly on 200. |
| RatesApi.ResponseQuotesPresent | api/rates.js:86-100 | With non-zero fallbacks, every body either endpoint sends carries exactly the three quote fields, all non-zero, and no `VES_per_USDT_SELL` field. |
| CloudRates.GetRates | functions/index.js:80-98 | `getRates` answers 200 with `success: true`. Its three fields are the spot, CLP and VES helpers' results, each or-ed with 1.19, 963 or 36. |
| CloudRates.OuterFailureReportsFallbacks | functions/index.js:99-106 | The outer catch answers 500 with `success: false`, a message and exactly `{1.19, 963, 36}`. |
| CloudRates.FalsyQuoteReplaced | functions/index.js:93-95 | A first offer whose price parses to NaN or 0 yields the fallback 963 for USDT_to_CLP_P2P. |
| VercelRates.Handle | api/rates.js:67-101 | OPTIONS answers 200 with no body. Any other method answers 200 with each field or-ed with 2.80, 950 or 37, or 500 with exactly those fallbacks when the join rejects. |
| VercelRates.Join | api/rates.js:80-84 | The join of the three helpers never rejects. It delivers exactly the three helpers' results. |
| VercelRates.OptionsIgnoresUpstream | api/rates.js:74-76 | A preflight's answer does not depend on any upstream outcome. |
| VercelRates.HelpersNeverFailRequest | api/rates.js:78-92 | A non-preflight request always answers 200 with non-zero quote fields, whatever the upstream calls do. |
| MainRates.WldToClp | public/main.js:372-373 | The WLD→CLP rate of the static client is non-zero when both of its quotes are non-zero. |
| MainRates.ClpToVes | public/main.js:388-389 | The CLP→VES rate divides by a non-zero CLP quote. It is non-zero when the VES quote is non-zero. |
| MainRates.UsdtToClp | public/main.js:399 | The USDT→CLP rate is non-zero when the CLP quote is non-zero. |
| MainRates.Inv | public/main.js:375 | The reverse entry `1 / x` is null exactly when the forward entry is null, and never zero. |
| MainRates.ForwardWldClp | public/main.js:371-379 | The forward WLD→CLP entry is null or non-zero. |
| MainRates.ForwardClpVes | public/main.js:382-395 | The forward CLP→VES entry is null or non-zero. |
| MainRates.ForwardUsdtClp | public/main.js:398-409 | The forward USDT→CLP entry is null or non-zero. |
| MainRates.LiveRates.constructor | public/main.js:26-31 | `liveRates` starts with the reference quotes 2.80, 950 and 36.50. |
| MainRates.LiveRates.CalculateFullRatesInternal | public/main.js:363-428 | The dictionary built key by key from the current quotes equals the specification `InternalRates`. |
| MainRates.LiveRates.FetchDynamicRates | public/main.js:326-347 | An accepted reply (2xx, a JSON body, `success`) overwrites the three quotes from the body, reading VES from `VES_to_USDT_P2P`. Any other outcome leaves them unchanged. The quotes stay valid either way. |
| MainRates.FetchedQuotes | public/main.js:335-338 | The corrected update: unchanged unless accepted; otherwise the VES quote is the body's `VES_to_USDT_P2P` field. |
| MainRates.FetchedQuotesAsWritten | public/main.js:335-338 | The update as written: the VES quote is read from the body's `VES_per_USDT_SELL` field. |
| MainRates.CalculateExchange | public/main.js:430-468 | Loading exactly when the matrix is not ready. An invalid amount exactly when it is ready and the amount is NaN or ≤ 0. Unavailable exactly when the route's rate is null or absent. Otherwise the quote is `amountSend · rate` at the route's rate. |
| MainRates.RateOrZero | public/main.js:620 | `rates[key] \|\| 0` is non-zero exactly when the entry is a non-zero number, and is then that entry. |
| MainRates.PaymentRecord | public/main.js:497-511 | The record is 'Pendiente', with the chosen currencies and the amount. Its receive amount is `amountSend · (rate or 0)`. Its applied rate is `amountReceive / amountSend`, which is that rate, and NaN when the amount is NaN or 0. |
| MainRates.InternalKeysExact | public/main.js:363-428 | The matrix always has exactly the fourteen keys written, whatever the quotes. |
| MainRates.InternalTable | public/main.js:370-418 | Each of the eight quote-dependent entries is its forward formula (null when a needed quote is null), or `1 /` its forward entry. |
| MainRates.InternalFixedTable | public/main.js:420-425 | WLD→VES and VES→WLD are null, and the four identities are 1.0. |
| MainRates.FixedEntriesAlwaysWritten | public/main.js:420-425 | Whatever the quotes: exactly the fourteen keys, no WLD↔USDT key, WLD↔VES null, and every identity 1.0. |
| MainRates.InternalFormulas | public/main.js:371-414 | With all quotes present: WLD→CLP = `wld·clp·0.86`, CLP→VES = `ves/clp·0.94`, USDT→CLP = `clp·1.004`, and USDT→VES = `ves` unchanged. |
| MainRates.NullClpQuote | public/main.js:371-418 | A null CLP quote nulls WLD↔CLP, CLP↔VES and CLP↔USDT. USDT→VES stays the VES quote and VES→USDT its reciprocal. |
| MainRates.InverseEntries | public/main.js:374-414 | Every non-null entry is non-zero, its reverse entry is exactly `1 /` it, and the two multiply to 1. |
| MainRates.ReadyIffQuotes | public/main.js:436-437 | The `isReady` test holds exactly when the CLP and VES quotes are both non-null. |
| MainRates.ExchangeRoutes | public/main.js:453-468 | With all quotes present and a positive amount, a pair is quoted exactly when it is not WLD↔VES or WLD↔USDT. Every other pair is unavailable. |
| MainRates.RoundTrip | public/main.js:453-468 | Converting a quoted receive amount back gives the original amount, at the reciprocal rate. |
| MainRates.RoundTripOn | public/main.js:453-468 | The round trip holds on every matrix whose reverse entries are reciprocals. |
| MainRates.QuoteAt | public/main.js:445-468 | On a ready matrix, a positive amount and a non-null rate give the quote `amount · rate`. |
| MainRates.RecordMatchesQuote | public/main.js:619-621 | The recorded transaction carries the displayed receive amount, the displayed rate as its applied rate, and status 'Pendiente'. |
| MainRates.VesQuoteLostAsWritten | public/main.js:337 | As written, a successful reply from either endpoint has no `VES_per_USDT_SELL` property, so the VES quote reads `undefined`, while the WLD and CLP quotes take the reply's values. |
| MainRates.FetchTakesEndpointQuotes | public/main.js:326-339 | Reading `VES_to_USDT_P2P`, a reply from either endpoint either sets all three quotes to its non-zero fields, after which the calculator is ready, or leaves them unchanged on the 500 failure. |
| JsString.TrimStart | public/main.js:202-206 | The result is the suffix left after dropping only white space, and it does not start with white space. |
| JsString.TrimEnd | public/main.js:202-206 | The result is the prefix left after dropping only white space, and it does not end with white space. |
| JsString.Trim | public/main.js:202-206 | `trim()` leaves no white space at either end. |
| JsString.TrimIdempotent | public/main.js:202-206 | Trimming twice is trimming once. |
| JsString.TrimEmptyIff | public/main.js:202-206 | A trimmed value is empty exactly when every character is white space. |
| MainAccounts.NewAccountDoc | public/main.js:201-224 | A document is written exactly when bank and type are chosen and the trimmed holder, number and RUT are non-empty. |
| MainAccounts.StoredDocWellFormed | public/main.js:201-224 | Every stored document has all fields non-empty. The typed fields have no surrounding white space and are already trimmed. The e-mail is "N/A" exactly when the trimmed input is empty or is "N/A". |
| MainAccounts.AdminAccountForm.constructor | public/main.js:229-234 | The form starts with the reset values of 229-234: empty inputs except the owner's name and RUT, and no status. |
| MainAccounts.AdminAccountForm.SaveAdminAccounts | public/main.js:195-244 | Not ready: nothing is written and the error is shown. Required fields missing: nothing is written and the inputs are kept. Otherwise the document is `NewAccountDoc`. On success the form resets and the saved message shows; on failure the inputs are kept and the error is shown. |
| MainAccounts.AdminAccountsList.constructor | public/main.js:34 | The account list starts empty. |
| MainAccounts.AdminAccountsList.OnSnapshot | public/main.js:272-278 | After a snapshot, the list holds exactly the snapshot's documents, sorted by bank name. |
| Sorting.StrLeTotal | public/main.js:278 | The bank-name comparison orders every pair of names. |
| Sorting.StrLeTransitive | public/main.js:278 | The bank-name comparison is transitive. |
| Sorting.InsertPermutes | src/app/page.tsx:141 | Insertion adds exactly one element. |
| Sorting.InsertSorted | src/app/page.tsx:141 | Inserting into a sorted list under a total preorder keeps it sorted. |
| Sorting.SortPermutes | src/app/page.tsx:141 | `sort` returns a permutation of its input. |
| Sorting.SortSorted | src/app/page.tsx:141 | Under a total preorder, `sort` returns a sorted list. |
| Sorting.ByBankNameTotalPreorder | src/app/page.tsx:141 | The `localeCompare` comparator on bank names is a total preorder. |
| Sorting.AccountsSortedByBankName | src/app/page.tsx:141 | The sorted accounts are the same accounts, in non-decreasing bank-name order. |
| Sorting.NewestFirstTotalPreorder | src/app/page.tsx:117 | The newest-first comparator is a total preorder. |
| Sorting.HistoryNewestFirst | src/app/page.tsx:117 | The sorted history holds the same transactions, newest first. |
| HomePage.AmountReceive | src/app/page.tsx:56-62 | The memo is 0 for a NaN or non-positive amount or a falsy rate. Otherwise it is `amount · currentRate`, which is positive for a positive rate. |
| HomePage.AmountReceiveOnCalculator | src/app/page.tsx:52-62 | With positive quotes and a positive amount, every pair the calculator derives has a rate, and the receive amount is `amount · rate > 0`. Every other pair receives 0. |
| HomePage.AmountReceiveOnPositiveMap | src/app/page.tsx:54-62 | The same, for any table whose entries are all positive: the product for a present key, 0 for an absent one. |
| HomePage.NoRatesBeforeFetch | src/app/page.tsx:40-62 | Before the first fetch `liveRates` is null, so no pair has a rate and every receive amount is 0. |
| HomePage.FallbackRatesComplete | src/app/page.tsx:86-91 | The fallback quotes `{1.19, 963, 963, 36}` give all ten keys, each with a positive rate. |
| HomePage.PaymentDocFor | src/app/page.tsx:166-173 | The document carries the chosen currencies, the parsed amount, the displayed receive amount and the current rate. |
| HomePage.NaNAmountRecordedAsWritten | src/app/page.tsx:161 | As written, an empty amount (NaN) passes the guard, and the document written has no amount and a receive amount of 0. The intended guard rejects it. |
| HomePage.PayButtonMatchesGuardAsWritten | src/components/ExchangeCalculator.tsx:89 | Once loaded, the pay button is enabled exactly when the written guard of `handleOpenPaymentModal` passes, for a signed-in user with a non-zero rate. It is enabled for an empty amount (NaN), which the intended guard rejects. While loading it is disabled. |
| HomePage.AllowedPaymentIsConsistent | src/app/page.tsx:160-173 | Under the intended guard, which implies the written one, the document has a positive amount and `amountReceive = amountSend · rate`, positive when the rate is. |
| HomePage.ToTransaction | src/app/page.tsx:109-115 | The history entry keeps the document's id and status. An unset timestamp reads as "now". |
| HomePage.ToTransactions | src/app/page.tsx:108-116 | One entry per document, in order. |
| HomePage.Home.constructor | src/app/page.tsx:40-49 | The page starts with no rates, 10000 CLP to VES, empty lists and the modal closed. |
| HomePage.Home.HandleSwap | src/app/page.tsx:155-158 | The send and receive currencies trade places. Nothing else changes. |
| HomePage.Home.FetchRates | src/app/page.tsx:85-91 | `liveRates` becomes the fetched quotes, or the fallback quotes when the fetch yields none. |
| HomePage.Home.HandleOpenPaymentModal | src/app/page.tsx:160-190 | With the corrected guard: nothing is written unless there is a user, a truthy rate and a positive amount. Otherwise the document for the current state is written, and the modal opens once it is stored. |
| HomePage.Home.OnHistorySnapshot | src/app/page.tsx:107-117 | The history becomes a permutation of the snapshot's entries, sorted newest first. |
| HomePage.Home.OnAccountsSnapshot | src/app/page.tsx:136-141 | The accounts become a permutation of the snapshot's documents, sorted by bank name. |
| AdminTransactions.StatusColorsDistinct | src/components/AdminTransactionManager.tsx:33-38 | The colour record covers the four statuses, and distinct statuses get distinct classes. |
| AdminTransactions.ReceiptPath | src/components/AdminTransactionManager.tsx:89 | The receipt path starts with `receipts/`, then the user id, and ends with the file name. Its length is the sum of its parts. |
| AdminTransactions.ReceiptPathsSeparate | src/components/AdminTransactionManager.tsx:89 | Within one order, two receipts share a path exactly when their file names agree. |
| AdminTransactions.AdminTransactionItem.constructor | src/components/AdminTransactionManager.tsx:75-76 | An order's controls start with no file, not uploading, and no update sent. |
| AdminTransactions.AdminTransactionItem.SelectFile | src/components/AdminTransactionManager.tsx:162 | Choosing a file, or clearing it, changes only the selected file. |
| AdminTransactions.AdminTransactionItem.HandleStatusChange | src/components/AdminTransactionManager.tsx:79-91 | A status other than completed sends an update whose only field is the status. Completing without a file sends nothing. Completing with a file starts the upload to the receipt path and sets `isUploading`. Every update sent so far stays well formed. |
| AdminTransactions.AdminTransactionItem.FinishUpload | src/components/AdminTransactionManager.tsx:90-100 | A failed upload sends nothing. A successful one sends a completion carrying the returned URL. `isUploading` ends false either way. |
| ZodChecks.MinLength | src/components/RecipientForm.tsx:32 | `.min(n, message)` reports one issue with its message exactly when the value is shorter than `n`. |
| ZodChecks.OnlyDigits | src/components/RecipientForm.tsx:33 | `regex(/^\d+$/)` passes exactly when the value is one or more ASCII digits. Otherwise it reports its message. |
| RecipientForm.ParseMethod | src/components/RecipientForm.tsx:31 | The enum accepts exactly "bank" and "pagoMovil". |
| RecipientForm.MethodIssues | src/components/RecipientForm.tsx:31 | The enum reports at most one issue, and none exactly when the value is accepted. A missing value gets the required message. |
| RecipientForm.Parse | src/components/RecipientForm.tsx:30-48 | Succeeds exactly when the input is acceptable, and then returns the recipient. Otherwise it fails with every issue zod reports, which is never empty. |
| RecipientForm.IssuesIffAcceptable | src/components/RecipientForm.tsx:30-48 | No issue is reported exactly when: the method is bank or pagoMovil; the name has ≥ 3 characters; the cédula has ≥ 6 characters, all digits; a bank is chosen; a bank transfer has an account number of ≥ 20 characters; Pago Móvil has a phone number of ≥ 10 characters. |
| RecipientForm.BankIgnoresPhoneAndAccountContent | src/components/RecipientForm.tsx:35-42 | Under a bank transfer, the phone number is not checked, and only the account number's length matters, not its characters. |
| RecipientForm.PagoMovilIgnoresAccount | src/components/RecipientForm.tsx:35-48 | Under Pago Móvil, the account number is not checked. |
| RecipientForm.MissingMethodSkipsRefinements | src/components/RecipientForm.tsx:31-48 | A missing method is reported first with its own message, and the two refinements add no issue. |
| ChileanRecipientForm.Parse | src/components/ChileanRecipientForm.tsx:28-34 | Succeeds exactly when the input is acceptable, returning it unchanged. Otherwise it fails with every issue, which is never empty. |
| ChileanRecipientForm.IssuesIffAcceptable | src/components/ChileanRecipientForm.tsx:28-34 | No issue is reported exactly when the name has ≥ 3 characters and RUT, bank, account type and account number are non-empty. |
| ChileanRecipientForm.DefaultsRejected | src/components/ChileanRecipientForm.tsx:64-70 | The all-empty default values fail on all five fields, in order. |
| ChileanRecipientForm.NoFormatCheck | src/components/ChileanRecipientForm.tsx:28-34 | Any non-empty RUT and account number are accepted: only presence is checked. |
| AccountManager.EmailIssues | src/components/AccountManager.tsx:38 | The e-mail passes exactly when it is absent, empty or accepted by the e-mail check. Otherwise it reports the invalid-address message. |
| AccountManager.Parse | src/components/AccountManager.tsx:29-39 | Succeeds exactly when the values are acceptable. The account then carries the values, with a missing holder or RUT replaced by the owner's. Otherwise it fails with every issue, which is never empty. |
| AccountManager.IssuesIffAcceptable | src/components/AccountManager.tsx:29-39 | No issue is reported exactly when bank, type and number are non-empty, holder and RUT are not empty strings, and the e-mail passes. |
| AccountManager.DefaultsNeedBankTypeAndNumber | src/components/AccountManager.tsx:70-77 | The untouched form fails on exactly bank name, account type and account number. The holder and RUT defaults pass, and the empty e-mail is allowed. |
| AccountManager.AccountForm.constructor | src/components/AccountManager.tsx:66-78 | The form starts with the default values, no issues shown, and no save in flight. |
| AccountManager.AccountForm.Edit | src/components/AccountManager.tsx:68-78 | Editing the fields changes only the values. |
| AccountManager.AccountForm.Submit | src/components/AccountManager.tsx:80-82 | Rejected values only show their issues. Accepted values start the save of the parsed account and set `isSubmitting`. |
| AccountManager.AccountForm.SaveSettled | src/components/AccountManager.tsx:82-86 | The form is reset to its defaults only when the save reports success. `isSubmitting` ends false either way. |

## Left out

- Network transport is not modelled: `fetch` in public/main.js, axios in functions/index.js and the node-binance-api client in api/rates.js. Each upstream call is an outcome, `Success` or `Failure`.
- The P2P query payload (page 1, rows 1, asset USDT, trade type BUY, functions/index.js:22-28) is transport detail. It is not modelled.
- Firebase is not modelled:
  - initialisation, authentication and the collection paths;
  - user ids and server timestamps;
  - `deleteAdminAccount`;
  - `recordTransaction`'s readiness check (public/main.js:498-501);
  - main.js's transaction listener.
  Readiness and the outcome of a write are parameters (`connectionReady`, `storeError`, `stored`, `success`).
- IEEE-754 behaviour is not modelled: rounding, Infinity, and main.js dividing by a zero quote. NaN, null and undefined are all `None`, wherever they behave alike.
- `parseFloat` on the amount text is not modelled: amounts are given already parsed.
- Locale formatting, `toFixed`, the rate text of `calculateExchange`, toasts, button labels and all other rendering are left out. Of the calculator component, only the pay button's enabled state (src/components/ExchangeCalculator.tsx:40, 89) is modelled.
- The static client's `showPaymentModal` filter of CLP accounts and its modal texts (public/main.js:574-617) are display only.
- The static client's `swapCurrencies` (public/main.js:488-493) swaps two DOM select values. It is the same exchange that `HomePage.Home.HandleSwap` models for the Next.js client.
- The submit handlers of the two recipient forms, which only toggle `isSubmitting` around the caller's callback, are not modelled. Their schemas are.
- The page's loading flags and its five-minute refresh interval are not modelled.
- The optional `recipient` field of a transaction is not modelled.
- The language-model rate source behind `getDynamicRates` is not modelled: its result is the parameter of `HomePage.Home.FetchRates`.
- The receipt upload's URL is not modelled: it is the parameter of `FinishUpload`.
- A rejected `onSaveAccount` promise is not modelled. It would leave `isSubmitting` set, but the page's `handleSaveAccount` never rejects.
- Sorting.ByBankName: `localeCompare` is modelled as code-point lexicographic order, not the locale's collation.
- Sorting.SortBy: `Array.prototype.sort` is modelled as an insertion sort. The properties proved about it are only that the result is a sorted permutation of the input.
- RecipientForm.Parse, ChileanRecipientForm.Parse and AccountManager.Parse count string length in Unicode scalar values, not UTF-16 code units.
- AccountManager.EmailIssues takes zod's e-mail regular expression as the abstract check `isEmail`.
- RecipientForm.MethodIssues: the chosen payment method is a string or missing. Values of other JavaScript types, and zod's message for them, are not represented.
- MainRates.LiveRates.FetchDynamicRates requires every numeric field of an accepted body to be non-zero. The source does not check this, but both endpoints guarantee it (`RatesApi.ResponseQuotesPresent`). The class invariant `LiveRates.Valid` likewise excludes zero quotes, where the source's guards exclude only null.
- AdminTransactions.AdminTransactionItem.HandleStatusChange requires that no upload is in flight, because both buttons are disabled while uploading (src/components/AdminTransactionManager.tsx:165, 168).
- MainRates.VesQuoteLostAsWritten: the lost quote is `None`, the same value as null. The model does not show that `undefined` passes main.js's `!== null` guards, so the NaN entries, the ready calculator and the `toFixed` errors at main.js:343 and 352 stated in the Findings row are not derived in Dafny.
- MainAccounts.AdminAccountForm.constructor: no initial input values appear in public/main.js, because lines 73-75 only look up the elements and the starting values come from the page's HTML. The form is assumed to start with the reset values of lines 229-234.
- AccountManager.AccountForm.Submit requires that no save is in flight, because the submit button is disabled meanwhile (src/components/AccountManager.tsx:212).
- Two asynchronous handlers are split at their `await` into two methods. Interleavings with other events between the two halves are not modelled. The other handlers are single steps over the awaited outcome, so no event can come between their start and their end.

## Findings

| source | as written | input that shows it | evidently intended | confidence | as-written member | corrected member |
|---|---|---|---|---|---|---|
| public/main.js:337 | The VES quote is read from `data.VES_per_USDT_SELL`, a field neither endpoint sends (both send `VES_to_USDT_P2P`). | Any successful reply, e.g. `{success: true, WLD_to_USDT: 2.8, USDT_to_CLP_P2P: 950, VES_to_USDT_P2P: 37}`. The VES quote becomes `undefined`. `undefined` passes the `!== null` guards (main.js:382, 412), so `calculateFullRatesInternal` gives NaN for CLP→VES, VES→CLP and VES→USDT and `undefined` for USDT→VES, while `isReady` stays true: a CLP→VES quote shows a NaN receive amount with the pay button enabled. Before that, `toFixed` on the undefined quote throws at main.js:343, the catch block throws again at 352, and `calculateExchange()` at 357 is not reached. | Read `VES_to_USDT_P2P`, so that a successful fetch sets all three quotes and the calculator is ready. | not executed | MainRates.VesQuoteLostAsWritten | MainRates.FetchTakesEndpointQuotes |
| src/app/page.tsx:161 | The guard `parseFloat(amountSend) <= 0` is false for NaN, so an empty or non-numeric amount passes. | Amount field "" with a signed-in user and a loaded rate. A transaction is written with amount NaN and receive amount 0. | Reject any amount that is not a positive number, as the `amountReceive` memo does (page.tsx:58). | not executed | HomePage.NaNAmountRecordedAsWritten | HomePage.AllowedPaymentIsConsistent |
