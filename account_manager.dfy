/** The administrator's account form (src/components/AccountManager.tsx): its
    schema, whose holder and RUT default to the owner's, and its submit
    handler, which clears the form only after a save that reports success. */
module AccountManager {
  import opened Wrappers
  import opened ZodChecks

  const OwnerName := "Ender Javier Piña Rojas"
  const OwnerRut := "26728535-7"

  const BankNameMessage := "El nombre del banco es requerido"
  const AccountHolderMessage := "El titular de la cuenta es requerido"
  const RutMessage := "El RUT es requerido"
  const AccountTypeMessage := "El tipo de cuenta es requerido"
  const AccountNumberMessage := "El número de cuenta es requerido"
  const EmailMessage := "Dirección de correo inválida"

  /** The form values; holder, RUT and e-mail may be missing. */
  datatype AccountValues = AccountValues(
    bankName: string,
    accountHolder: Option<string>,
    rut: Option<string>,
    accountType: string,
    accountNumber: string,
    email: Option<string>)

  /** The account handed to `onSaveAccount` once the schema accepts. */
  datatype AccountData = AccountData(
    bankName: string,
    accountHolder: string,
    rut: string,
    accountType: string,
    accountNumber: string,
    email: Option<string>)

  /** The form's initial and reset values. */
  const DefaultValues := AccountValues("", Some(OwnerName), Some(OwnerRut), "", "", Some(""))

  /** The e-mail rule: missing, empty, or accepted by the e-mail check
      `isEmail`. A failure carries the e-mail check's message. */
  function EmailIssues(email: Option<string>, isEmail: string -> bool): (r: seq<Issue>)
    ensures r == [] <==> (email.None? || email == Some("") || isEmail(email.value))
    ensures r != [] ==> r == [Issue("email", EmailMessage)]
  {
    match email
    case None => []
    case Some(e) => if isEmail(e) || e == "" then [] else [Issue("email", EmailMessage)]
  }

  /** Every issue the schema reports, in field order; a missing holder or RUT
      takes its default first. */
  function Issues(v: AccountValues, isEmail: string -> bool): seq<Issue>
  {
    MinLength("bankName", v.bankName, 1, BankNameMessage)
    + MinLength("accountHolder", v.accountHolder.GetOr(OwnerName), 1, AccountHolderMessage)
    + MinLength("rut", v.rut.GetOr(OwnerRut), 1, RutMessage)
    + MinLength("accountType", v.accountType, 1, AccountTypeMessage)
    + MinLength("accountNumber", v.accountNumber, 1, AccountNumberMessage)
    + EmailIssues(v.email, isEmail)
  }

  /** What the schema accepts, field by field. */
  predicate Acceptable(v: AccountValues, isEmail: string -> bool)
  {
    v.bankName != "" && v.accountHolder != Some("") && v.rut != Some("")
    && v.accountType != "" && v.accountNumber != ""
    && (v.email.None? || v.email == Some("") || isEmail(v.email.value))
  }

  /** `accountSchema.safeParse(v)`: the account, defaults filled in, when no
      check fails; otherwise every issue. */
  function Parse(v: AccountValues, isEmail: string -> bool): (r: Result<AccountData, seq<Issue>>)
    ensures r.Success? <==> Acceptable(v, isEmail)
    ensures r.Failure? ==> r.error == Issues(v, isEmail) && r.error != []
    ensures r.Success? ==>
      r.value.bankName == v.bankName && r.value.accountType == v.accountType
      && r.value.accountNumber == v.accountNumber && r.value.email == v.email
      && (v.accountHolder.None? ==> r.value.accountHolder == OwnerName)
      && (v.accountHolder.Some? ==> r.value.accountHolder == v.accountHolder.value)
      && (v.rut.None? ==> r.value.rut == OwnerRut)
      && (v.rut.Some? ==> r.value.rut == v.rut.value)
  {
    IssuesIffAcceptable(v, isEmail);
    if Issues(v, isEmail) == [] then
      Success(AccountData(v.bankName, v.accountHolder.GetOr(OwnerName), v.rut.GetOr(OwnerRut),
                          v.accountType, v.accountNumber, v.email))
    else Failure(Issues(v, isEmail))
  }

  /** The schema reports no issue exactly when the values are acceptable. */
  lemma IssuesIffAcceptable(v: AccountValues, isEmail: string -> bool)
    ensures Issues(v, isEmail) == [] <==> Acceptable(v, isEmail)
  {
    var b := MinLength("bankName", v.bankName, 1, BankNameMessage);
    var h := MinLength("accountHolder", v.accountHolder.GetOr(OwnerName), 1, AccountHolderMessage);
    var r := MinLength("rut", v.rut.GetOr(OwnerRut), 1, RutMessage);
    var t := MinLength("accountType", v.accountType, 1, AccountTypeMessage);
    var n := MinLength("accountNumber", v.accountNumber, 1, AccountNumberMessage);
    var e := EmailIssues(v.email, isEmail);
    assert Issues(v, isEmail) == b + h + r + t + n + e;
    assert Issues(v, isEmail) == [] <==> b == [] && h == [] && r == [] && t == [] && n == [] && e == [];
    assert h == [] <==> v.accountHolder != Some("");
    assert r == [] <==> v.rut != Some("");
  }

  /** The untouched form fails only on bank, type and number: the holder and
      RUT defaults pass, and the empty e-mail is allowed. */
  lemma DefaultsNeedBankTypeAndNumber(isEmail: string -> bool)
    ensures Paths(Issues(DefaultValues, isEmail)) == ["bankName", "accountType", "accountNumber"]
  {
    assert Issues(DefaultValues, isEmail) == [Issue("bankName", BankNameMessage),
      Issue("accountType", AccountTypeMessage), Issue("accountNumber", AccountNumberMessage)];
  }

  /** The form: its values, the issues last shown, and whether a save is in
      flight. `handleSubmit(onSubmit)` is split at `await onSaveAccount(...)`
      into `Submit` and `SaveSettled`. */
  class AccountForm {
    var values: AccountValues
    var errors: seq<Issue>
    var isSubmitting: bool

    constructor()
      ensures values == DefaultValues && errors == [] && !isSubmitting
    {
      values := DefaultValues;
      errors := [];
      isSubmitting := false;
    }

    /** The user edits the fields. */
    method Edit(v: AccountValues)
      modifies this
      ensures values == v && errors == old(errors) && isSubmitting == old(isSubmitting)
    {
      values := v;
    }

    /** Pressing the submit button, which is disabled while saving. Values the
        schema rejects only show their issues; accepted values start the save
        of the parsed account, which is returned. */
    method Submit(isEmail: string -> bool) returns (saving: Option<AccountData>)
      requires !isSubmitting
      modifies this
      ensures values == old(values)
      ensures Parse(values, isEmail).Failure? ==>
        saving.None? && !isSubmitting && errors == Parse(values, isEmail).error
      ensures Parse(values, isEmail).Success? ==>
        saving == Some(Parse(values, isEmail).value) && isSubmitting && errors == []
    {
      var parsed := Parse(values, isEmail);
      if parsed.Failure? {
        errors := parsed.error;
        saving := None;
        return;
      }
      errors := [];
      isSubmitting := true;
      saving := Some(parsed.value);
    }

    /** The save settled with `success`: the form is reset to its defaults only
        on success, and `isSubmitting` is cleared either way. */
    method SaveSettled(success: bool)
      requires isSubmitting
      modifies this
      ensures !isSubmitting
      ensures success ==> values == DefaultValues
      ensures !success ==> values == old(values)
      ensures errors == old(errors)
    {
      if success {
        values := DefaultValues;
      }
      isSubmitting := false;
    }
  }
}
