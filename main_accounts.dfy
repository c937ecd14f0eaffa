/** The admin account management of the static client, public/main.js:
    `saveAdminAccounts` (validate, store, reset the form) and the accounts
    listener (rebuild the list from a snapshot, then sort it by bank name). */
module MainAccounts {
  import opened Wrappers
  import opened Types
  import opened JsString
  import Sorting

  /** The values of the six form inputs. */
  datatype AccountInput = AccountInput(
    bankName: string,
    accountHolder: string,
    accountNumber: string,
    rut: string,
    accountType: string,
    email: string)

  /** The stored account fields (the writer's id and server timestamp left out). */
  datatype AccountDoc = AccountDoc(
    bankName: string,
    accountHolder: string,
    accountNumber: string,
    rut: string,
    accountType: string,
    email: string)

  const DefaultAccountHolder: string := "Ender Javier Piña Rojas"
  const DefaultRut: string := "26728535-7"
  const NoEmail: string := "N/A"

  /** The form after a successful save: empty inputs except the owner's name and RUT. */
  const ResetInput: AccountInput := AccountInput("", DefaultAccountHolder, "", DefaultRut, "", "")

  const NotReadyMessage: string := "Error: Conexión no lista."
  const MissingFieldsMessage: string := "Error: Complete todos los campos requeridos (Banco, Titular, Número, RUT, Tipo)."
  const SavedMessage: string := "¡Cuenta guardada correctamente!"
  const SaveErrorPrefix: string := "Error al guardar cuentas: "

  /** The required fields are present: bank and type as selected, holder,
      number and RUT after trimming. */
  predicate RequiredPresent(input: AccountInput)
  {
    && input.bankName != ""
    && Trim(input.accountHolder) != ""
    && Trim(input.accountNumber) != ""
    && Trim(input.rut) != ""
    && input.accountType != ""
  }

  /** The document `saveAdminAccounts` writes for the form values, or `None`
      when a required field is missing. */
  function NewAccountDoc(input: AccountInput): (r: Option<AccountDoc>)
    ensures r.Some? <==> RequiredPresent(input)
  {
    if !RequiredPresent(input) then None
    else
      var email := Trim(input.email);
      Some(AccountDoc(input.bankName, Trim(input.accountHolder), Trim(input.accountNumber),
                      Trim(input.rut), input.accountType, if email == "" then NoEmail else email))
  }

  /** A text without white space at either end. */
  predicate Clean(s: string)
  {
    s == "" || (!IsJsSpace(s[0]) && !IsJsSpace(s[|s| - 1]))
  }

  /** Every stored document has its required fields non-empty, the typed
      ones without surrounding white space, and an email that is the trimmed
      input or "N/A" when that is empty; trimming it again changes nothing. */
  lemma StoredDocWellFormed(input: AccountInput, d: AccountDoc)
    requires NewAccountDoc(input) == Some(d)
    ensures d.bankName != "" && d.accountHolder != "" && d.accountNumber != ""
    ensures d.rut != "" && d.accountType != "" && d.email != ""
    ensures Clean(d.accountHolder) && Clean(d.accountNumber) && Clean(d.rut) && Clean(d.email)
    ensures Trim(d.accountHolder) == d.accountHolder && Trim(d.rut) == d.rut
    ensures d.email == NoEmail <==> Trim(input.email) == "" || Trim(input.email) == NoEmail
  {
    var email := Trim(input.email);
    TrimmedIsClean(input.accountHolder);
    TrimmedIsClean(input.accountNumber);
    TrimmedIsClean(input.rut);
    TrimmedIsClean(input.email);
    NoEmailClean();
    assert d.email == if email == "" then NoEmail else email;
    assert d.bankName != "" && d.accountHolder != "" && d.accountNumber != "";
    assert d.rut != "" && d.accountType != "" && d.email != "";
    assert Clean(d.accountHolder) && Clean(d.accountNumber) && Clean(d.rut);
    assert Clean(d.email);
    assert Trim(d.accountHolder) == d.accountHolder && Trim(d.rut) == d.rut;
    assert d.email == NoEmail <==> email == "" || email == NoEmail;
  }

  /** The placeholder "N/A" has no white space at either end. */
  lemma NoEmailClean()
    ensures Clean(NoEmail)
  {
    assert NoEmail[0] == 'N' && NoEmail[2] == 'A';
  }

  /** A trimmed text is clean, and trimming it again changes nothing. */
  lemma TrimmedIsClean(s: string)
    ensures Clean(Trim(s)) && Trim(Trim(s)) == Trim(s)
  {
    TrimIdempotent(s);
  }

  /** The admin account form: its inputs and status line. */
  class AdminAccountForm {
    var input: AccountInput
    var status: string

    constructor ()
      ensures input == ResetInput && status == ""
    {
      input := ResetInput;
      status := "";
    }

    /** `saveAdminAccounts`. `connectionReady` stands for the auth and store
        check, `storeError` for the outcome of the write (`None`: stored).
        Returns the document written, if any. */
    method SaveAdminAccounts(connectionReady: bool, storeError: Option<string>) returns (written: Option<AccountDoc>)
      modifies this
      ensures !connectionReady ==> written.None? && input == old(input) && status == NotReadyMessage
      ensures connectionReady && !RequiredPresent(old(input)) ==>
        written.None? && input == old(input) && status == MissingFieldsMessage
      ensures connectionReady && RequiredPresent(old(input)) ==>
        && written == NewAccountDoc(old(input))
        && (storeError.None? ==> input == ResetInput && status == SavedMessage)
        && (storeError.Some? ==> input == old(input) && status == SaveErrorPrefix + storeError.value)
    {
      if !connectionReady {
        status := NotReadyMessage;
        return None;
      }
      var doc := NewAccountDoc(input);
      if doc.None? {
        status := MissingFieldsMessage;
        return None;
      }
      written := doc;
      match storeError
      case None =>
        input := ResetInput;
        status := SavedMessage;
      case Some(message) =>
        status := SaveErrorPrefix + message;
    }
  }

  /** The module-level `adminAccounts` list kept by the snapshot listener. */
  class AdminAccountsList {
    var adminAccounts: seq<AdminAccount>

    constructor ()
      ensures adminAccounts == []
    {
      adminAccounts := [];
    }

    /** A snapshot arrives: the list is rebuilt document by document, then
        sorted by bank name. */
    method OnSnapshot(docs: seq<AdminAccount>)
      modifies this
      ensures adminAccounts == Sorting.SortBy(docs, Sorting.ByBankName)
      ensures multiset(adminAccounts) == multiset(docs)
      ensures forall i, j :: 0 <= i < j < |adminAccounts| ==>
        Sorting.StrLe(adminAccounts[i].bankName, adminAccounts[j].bankName)
    {
      adminAccounts := [];
      var k := 0;
      while k < |docs|
        invariant 0 <= k <= |docs|
        invariant adminAccounts == docs[..k]
      {
        adminAccounts := adminAccounts + [docs[k]];
        k := k + 1;
      }
      assert adminAccounts == docs;
      Sorting.AccountsSortedByBankName(adminAccounts);
      adminAccounts := Sorting.SortBy(adminAccounts, Sorting.ByBankName);
    }
  }
}
