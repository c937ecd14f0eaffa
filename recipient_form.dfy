/** The Venezuelan recipient form's schema (src/components/RecipientForm.tsx):
    a payment method, a name, a numeric cédula and a bank, plus an account
    number of at least 20 characters for bank transfers or a phone number of at
    least 10 characters for Pago Móvil. */
module RecipientForm {
  import opened Wrappers
  import opened ZodChecks

  datatype PaymentMethod = Bank | PagoMovil

  /** The recipient as the schema hands it on once it validates. */
  datatype RecipientData = RecipientData(
    paymentMethod: PaymentMethod,
    fullName: string,
    cedula: string,
    bank: string,
    accountNumber: Option<string>,
    phoneNumber: Option<string>)

  /** The raw form values; `paymentMethod` is the chosen radio value, if any,
      and the two optional fields may be missing. */
  datatype RecipientInput = RecipientInput(
    paymentMethod: Option<string>,
    fullName: string,
    cedula: string,
    bank: string,
    accountNumber: Option<string>,
    phoneNumber: Option<string>)

  const MethodRequiredMessage := "Debe seleccionar un método de pago."
  const FullNameMessage := "El nombre completo es requerido."
  const CedulaMessage := "La cédula es requerida."
  const CedulaDigitsMessage := "La cédula solo debe contener números."
  const BankMessage := "Debe seleccionar un banco."
  const AccountNumberMessage := "El número de cuenta debe tener 20 dígitos."
  const PhoneNumberMessage := "El número de teléfono es requerido."

  /** `z.enum(["bank", "pagoMovil"])` on the chosen value. */
  function ParseMethod(s: Option<string>): (r: Option<PaymentMethod>)
    ensures r == Some(Bank) <==> s == Some("bank")
    ensures r == Some(PagoMovil) <==> s == Some("pagoMovil")
  {
    if s == Some("bank") then Some(Bank)
    else if s == Some("pagoMovil") then Some(PagoMovil)
    else None
  }

  /** The enum's issue: its own message when nothing was chosen, zod's stock
      message for any other value. */
  function MethodIssues(s: Option<string>): (r: seq<Issue>)
    ensures r == [] <==> ParseMethod(s).Some?
    ensures |r| <= 1
  {
    match s
    case None => [Issue("paymentMethod", MethodRequiredMessage)]
    case Some(v) =>
      if ParseMethod(s).Some? then []
      else [Issue("paymentMethod", "Invalid enum value. Expected 'bank' | 'pagoMovil', received '" + v + "'")]
  }

  /** The checks of the object's own fields, in field order. */
  function FieldIssues(input: RecipientInput): seq<Issue>
  {
    MethodIssues(input.paymentMethod)
    + MinLength("fullName", input.fullName, 3, FullNameMessage)
    + MinLength("cedula", input.cedula, 6, CedulaMessage)
    + OnlyDigits("cedula", input.cedula, CedulaDigitsMessage)
    + MinLength("bank", input.bank, 1, BankMessage)
  }

  /** The first refinement: a bank transfer needs a truthy account number of
      at least 20 characters (its content is not checked). */
  function AccountRefinement(input: RecipientInput): seq<Issue>
  {
    if input.paymentMethod == Some("bank")
       && !(input.accountNumber.Some? && input.accountNumber.value != "" && |input.accountNumber.value| >= 20)
    then [Issue("accountNumber", AccountNumberMessage)]
    else []
  }

  /** The second refinement: Pago Móvil needs a truthy phone number of at
      least 10 characters. */
  function PhoneRefinement(input: RecipientInput): seq<Issue>
  {
    if input.paymentMethod == Some("pagoMovil")
       && !(input.phoneNumber.Some? && input.phoneNumber.value != "" && |input.phoneNumber.value| >= 10)
    then [Issue("phoneNumber", PhoneNumberMessage)]
    else []
  }

  /** Every issue the schema reports. An invalid enum aborts the object, so the
      two refinements then do not run; failed string checks do not abort, and
      both refinements run after them. */
  function Issues(input: RecipientInput): seq<Issue>
  {
    if ParseMethod(input.paymentMethod).None? then FieldIssues(input)
    else FieldIssues(input) + AccountRefinement(input) + PhoneRefinement(input)
  }

  /** What the schema accepts, field by field. */
  predicate Acceptable(input: RecipientInput)
  {
    (input.paymentMethod == Some("bank") || input.paymentMethod == Some("pagoMovil"))
    && |input.fullName| >= 3
    && |input.cedula| >= 6
    && (forall i :: 0 <= i < |input.cedula| ==> IsDigit(input.cedula[i]))
    && input.bank != ""
    && (input.paymentMethod == Some("bank") ==>
          input.accountNumber.Some? && |input.accountNumber.value| >= 20)
    && (input.paymentMethod == Some("pagoMovil") ==>
          input.phoneNumber.Some? && |input.phoneNumber.value| >= 10)
  }

  /** `recipientSchema.safeParse(input)`: the recipient when no check fails,
      otherwise every issue. */
  function Parse(input: RecipientInput): (r: Result<RecipientData, seq<Issue>>)
    ensures r.Success? <==> Acceptable(input)
    ensures r.Failure? ==> r.error == Issues(input) && r.error != []
    ensures r.Success? ==>
      r.value == RecipientData(ParseMethod(input.paymentMethod).value, input.fullName,
                               input.cedula, input.bank, input.accountNumber, input.phoneNumber)
  {
    IssuesIffAcceptable(input);
    var issues := Issues(input);
    if issues == [] then
      Success(RecipientData(ParseMethod(input.paymentMethod).value, input.fullName,
                            input.cedula, input.bank, input.accountNumber, input.phoneNumber))
    else Failure(issues)
  }

  /** The schema reports no issue exactly when the input is acceptable. */
  lemma IssuesIffAcceptable(input: RecipientInput)
    ensures Issues(input) == [] <==> Acceptable(input)
  {
    var f := FieldIssues(input);
    var m := MethodIssues(input.paymentMethod);
    var n := MinLength("fullName", input.fullName, 3, FullNameMessage);
    var c := MinLength("cedula", input.cedula, 6, CedulaMessage);
    var d := OnlyDigits("cedula", input.cedula, CedulaDigitsMessage);
    var b := MinLength("bank", input.bank, 1, BankMessage);
    assert |f| == |m| + |n| + |c| + |d| + |b|;
    if ParseMethod(input.paymentMethod).Some? {
      var a := AccountRefinement(input);
      var p := PhoneRefinement(input);
      assert |Issues(input)| == |f| + |a| + |p|;
    }
  }

  /** Under a bank transfer the phone number is not looked at, and only the
      account number's length matters, not its characters. */
  lemma BankIgnoresPhoneAndAccountContent(input: RecipientInput, phone: Option<string>, account: string)
    requires input.paymentMethod == Some("bank")
    requires input.accountNumber.Some? && |account| == |input.accountNumber.value|
    ensures Acceptable(input) <==>
            Acceptable(input.(phoneNumber := phone, accountNumber := Some(account)))
  {
  }

  /** Under Pago Móvil the account number is not looked at. */
  lemma PagoMovilIgnoresAccount(input: RecipientInput, account: Option<string>)
    requires input.paymentMethod == Some("pagoMovil")
    ensures Acceptable(input) <==> Acceptable(input.(accountNumber := account))
  {
  }

  /** A missing payment method is reported with the schema's message, and the
      refinements do not add their issues to it. */
  lemma MissingMethodSkipsRefinements(input: RecipientInput)
    requires input.paymentMethod.None?
    ensures Issues(input)[0] == Issue("paymentMethod", MethodRequiredMessage)
    ensures forall i :: 0 <= i < |Issues(input)| ==>
              Issues(input)[i].path != "accountNumber" && Issues(input)[i].path != "phoneNumber"
  {
  }
}
