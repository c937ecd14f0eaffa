/** The administrator's per-order controls (src/components/AdminTransactionManager.tsx):
    status badge colours, the receipt upload path and the completion rule of
    `handleStatusChange`, which refuses to complete an order without a receipt
    and drops the update when the upload fails. */
module AdminTransactions {
  import opened Wrappers
  import opened Types

  /** Badge classes per status; the record covers exactly the four statuses. */
  function StatusColor(s: TransactionStatus): string
  {
    match s
    case Pending => "bg-yellow-100 text-yellow-800 border-yellow-200"
    case Processing => "bg-blue-100 text-blue-800 border-blue-200"
    case Completed => "bg-green-100 text-green-800 border-green-200"
    case Cancelled => "bg-red-100 text-red-800 border-red-200"
  }

  /** Each status has a badge of its own: distinct statuses get distinct classes. */
  lemma StatusColorsDistinct(s: TransactionStatus, t: TransactionStatus)
    ensures StatusColor(s) == StatusColor(t) <==> s == t
  {
    assert |StatusColor(Pending)| == 47 && |StatusColor(Processing)| == 41;
    assert |StatusColor(Completed)| == 44 && |StatusColor(Cancelled)| == 38;
  }

  /** Storage path of the administrator's receipt for one order. */
  function ReceiptPath(userId: string, transactionId: string, fileName: string): (r: string)
    ensures |r| == |"receipts/"| + |userId| + 1 + |transactionId| + |"/admin_receipt_"| + |fileName|
    ensures r[..|"receipts/"|] == "receipts/"
    ensures r[|"receipts/"|..|"receipts/"| + |userId|] == userId
    ensures r[|r| - |fileName|..] == fileName
  {
    "receipts/" + userId + "/" + transactionId + "/admin_receipt_" + fileName
  }

  /** The partial document handed to `onUpdateTransaction`: the new status and,
      for a completion, the URL of the uploaded receipt. */
  datatype StatusUpdate = StatusUpdate(status: TransactionStatus, adminReceiptUrl: Option<string>)

  /** One call of `onUpdateTransaction(userId, transactionId, data)`. */
  datatype UpdateCall = UpdateCall(userId: string, transactionId: string, data: StatusUpdate)

  /** Only a completion carries a receipt URL, and every completion does. */
  predicate WellFormedUpdate(u: UpdateCall)
  {
    u.data.status == Completed <==> u.data.adminReceiptUrl.Some?
  }

  /** The controls of one order. `updates` is the sequence of calls made to
      `onUpdateTransaction` so far; `uploadPath` is the path of the upload in
      flight, if any. The handler's `await uploadFile(...)` splits it into
      `HandleStatusChange` and `FinishUpload`. */
  class AdminTransactionItem {
    const userId: string
    const transactionId: string
    var adminReceiptFile: Option<string>
    var isUploading: bool
    var uploadPath: Option<string>
    var updates: seq<UpdateCall>

    /** `isUploading` is set exactly while an upload is in flight, and every
        update sent so far is well formed. */
    ghost predicate Valid()
      reads this
    {
      (isUploading <==> uploadPath.Some?)
      && (forall i :: 0 <= i < |updates| ==> WellFormedUpdate(updates[i]))
      && (forall i :: 0 <= i < |updates| ==>
            updates[i].userId == userId && updates[i].transactionId == transactionId)
    }

    constructor(userId: string, transactionId: string)
      ensures Valid()
      ensures this.userId == userId && this.transactionId == transactionId
      ensures adminReceiptFile.None? && !isUploading && updates == []
    {
      this.userId := userId;
      this.transactionId := transactionId;
      adminReceiptFile := None;
      isUploading := false;
      uploadPath := None;
      updates := [];
    }

    /** The Cancel button is disabled only while uploading. */
    predicate CanCancel()
      reads this
    {
      !isUploading
    }

    /** The Complete button is disabled while uploading or with no file chosen. */
    predicate CanComplete()
      reads this
    {
      !isUploading && adminReceiptFile.Some?
    }

    /** The file input's change handler; an empty selection clears the file. */
    method SelectFile(fileName: Option<string>)
      requires Valid()
      modifies this
      ensures Valid()
      ensures adminReceiptFile == fileName
      ensures isUploading == old(isUploading) && uploadPath == old(uploadPath)
      ensures updates == old(updates)
    {
      adminReceiptFile := fileName;
    }

    /** `handleStatusChange(newStatus)` up to the upload. Both buttons are
        disabled while uploading, so the handler is only entered when idle.
        A status other than completed is sent at once with no other field; a
        completion without a file sends nothing; a completion with a file
        starts the upload to `ReceiptPath` and returns that path. */
    method HandleStatusChange(newStatus: TransactionStatus) returns (upload: Option<string>)
      requires Valid() && !isUploading
      modifies this
      ensures Valid()
      ensures adminReceiptFile == old(adminReceiptFile)
      ensures newStatus != Completed ==>
        upload.None? && !isUploading
        && updates == old(updates) + [UpdateCall(userId, transactionId, StatusUpdate(newStatus, None))]
      ensures newStatus == Completed && adminReceiptFile.None? ==>
        upload.None? && !isUploading && updates == old(updates)
      ensures newStatus == Completed && adminReceiptFile.Some? ==>
        upload == Some(ReceiptPath(userId, transactionId, adminReceiptFile.value))
        && isUploading && uploadPath == upload && updates == old(updates)
    {
      upload := None;
      if newStatus == Completed {
        if adminReceiptFile.None? {
          return;
        }
        isUploading := true;
        upload := Some(ReceiptPath(userId, transactionId, adminReceiptFile.value));
        uploadPath := upload;
        return;
      }
      updates := updates + [UpdateCall(userId, transactionId, StatusUpdate(newStatus, None))];
    }

    /** The rest of the handler once `uploadFile` settles: a rejection sends
        nothing; a URL is attached to a completed update, which is sent.
        Either way `isUploading` ends false. */
    method FinishUpload(outcome: Result<string, string>)
      requires Valid() && isUploading
      modifies this
      ensures Valid()
      ensures !isUploading && uploadPath.None?
      ensures adminReceiptFile == old(adminReceiptFile)
      ensures outcome.Failure? ==> updates == old(updates)
      ensures outcome.Success? ==>
        updates == old(updates) + [UpdateCall(userId, transactionId, StatusUpdate(Completed, Some(outcome.value)))]
    {
      isUploading := false;
      uploadPath := None;
      if outcome.Failure? {
        return;
      }
      updates := updates + [UpdateCall(userId, transactionId, StatusUpdate(Completed, Some(outcome.value)))];
    }
  }

  /** Two receipts uploaded for the same order land at the same path exactly
      when their file names agree. */
  lemma ReceiptPathsSeparate(userId: string, transactionId: string, a: string, b: string)
    ensures ReceiptPath(userId, transactionId, a) == ReceiptPath(userId, transactionId, b) <==> a == b
  {
    var p := "receipts/" + userId + "/" + transactionId + "/admin_receipt_";
    assert ReceiptPath(userId, transactionId, a) == p + a;
    assert ReceiptPath(userId, transactionId, b) == p + b;
    if p + a == p + b {
      assert a == (p + a)[|p|..];
    }
  }
}
