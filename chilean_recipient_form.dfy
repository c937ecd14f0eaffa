/** The Chilean recipient form's schema (src/components/ChileanRecipientForm.tsx):
    a name of at least three characters and four non-empty fields, with no
    format check on the RUT or the account number. */
module ChileanRecipientForm {
  import opened Wrappers
  import opened ZodChecks

  /** The form values; every field is a text input. */
  datatype RecipientInput = RecipientInput(
    fullName: string,
    rut: string,
    bank: string,
    accountType: string,
    accountNumber: string)

  const FullNameMessage := "El nombre completo es requerido."
  const RutMessage := "El RUT es requerido"
  const BankMessage := "Debe seleccionar un banco."
  const AccountTypeMessage := "El tipo de cuenta es requerido."
  const AccountNumberMessage := "El número de cuenta es requerido"

  /** The form's initial values: every field empty. */
  const DefaultValues := RecipientInput("", "", "", "", "")

  /** Every issue the schema reports, in field order. */
  function Issues(input: RecipientInput): seq<Issue>
  {
    MinLength("fullName", input.fullName, 3, FullNameMessage)
    + MinLength("rut", input.rut, 1, RutMessage)
    + MinLength("bank", input.bank, 1, BankMessage)
    + MinLength("accountType", input.accountType, 1, AccountTypeMessage)
    + MinLength("accountNumber", input.accountNumber, 1, AccountNumberMessage)
  }

  /** What the schema accepts, field by field. */
  predicate Acceptable(input: RecipientInput)
  {
    |input.fullName| >= 3 && input.rut != "" && input.bank != ""
    && input.accountType != "" && input.accountNumber != ""
  }

  /** `recipientSchema.safeParse(input)`: the values when no check fails,
      otherwise every issue. */
  function Parse(input: RecipientInput): (r: Result<RecipientInput, seq<Issue>>)
    ensures r.Success? <==> Acceptable(input)
    ensures r.Success? ==> r.value == input
    ensures r.Failure? ==> r.error == Issues(input) && r.error != []
  {
    IssuesIffAcceptable(input);
    if Issues(input) == [] then Success(input) else Failure(Issues(input))
  }

  /** The schema reports no issue exactly when the input is acceptable. */
  lemma IssuesIffAcceptable(input: RecipientInput)
    ensures Issues(input) == [] <==> Acceptable(input)
  {
    var n := MinLength("fullName", input.fullName, 3, FullNameMessage);
    var r := MinLength("rut", input.rut, 1, RutMessage);
    var b := MinLength("bank", input.bank, 1, BankMessage);
    var t := MinLength("accountType", input.accountType, 1, AccountTypeMessage);
    var a := MinLength("accountNumber", input.accountNumber, 1, AccountNumberMessage);
    assert Issues(input) == n + r + b + t + a;
    assert Issues(input) == [] <==> n == [] && r == [] && b == [] && t == [] && a == [];
  }

  /** The untouched form fails on every one of its five fields. */
  lemma DefaultsRejected()
    ensures Paths(Issues(DefaultValues)) == ["fullName", "rut", "bank", "accountType", "accountNumber"]
    ensures !Acceptable(DefaultValues)
  {
    assert Issues(DefaultValues) == [Issue("fullName", FullNameMessage), Issue("rut", RutMessage),
      Issue("bank", BankMessage), Issue("accountType", AccountTypeMessage),
      Issue("accountNumber", AccountNumberMessage)];
  }

  /** Any non-empty RUT and account number are accepted, whatever their
      characters: only presence is checked. */
  lemma NoFormatCheck(input: RecipientInput, rut: string, accountNumber: string)
    requires Acceptable(input)
    requires rut != "" && accountNumber != ""
    ensures Parse(input.(rut := rut, accountNumber := accountNumber)).Success?
  {
  }
}
