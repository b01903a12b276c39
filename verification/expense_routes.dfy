/** The web form for submitting an expense with its receipt photo, and the submitter's own
    list. The sanitised file name, the clock and the text the OCR engine read are parameters. */
module ExpenseRoutes {
  import opened Wrappers
  import opened Strings
  import opened Models
  import opened Authorization
  import Config
  import Ocr
  import FileValidators
  import Listing

  /** `allowed_file`: the name has a '.' and the lowered text after the last one is an
      allowed extension. */
  function AllowedFile(filename: string): (ok: bool)
    ensures ok <==> ('.' in filename &&
      LowerAll(filename[LastIndexOf(filename, '.').value + 1..]) in Config.ALLOWED_EXTENSIONS)
  {
    FileValidators.HasAllowedExtension(filename, Config.ALLOWED_EXTENSIONS)
  }

  /** An upload that the file validator accepts under the configured extensions has a
      sanitised name this route accepts too: both checks read the extension the same way. */
  lemma ValidatedUploadAllowed(file: Option<FileValidators.Upload>, maxSizeMb: Option<int>)
    requires FileValidators.ValidateFileUpload(file, None, maxSizeMb).Success?
    ensures AllowedFile(FileValidators.ValidateFileUpload(file, None, maxSizeMb).value.filename)
  {
  }

  /** Capital letters in the extension are accepted. */
  lemma UpperCaseExtensionAllowed()
    ensures AllowedFile("boleta.JPG")
  {
    assert "boleta.JPG" == "boleta" + "." + "JPG";
    FileValidators.ExtensionOfSuffix("boleta", "JPG");
    assert LowerAll("JPG") == "jpg";
  }

  /** A name without a dot is refused. */
  lemma DotlessNameRefused()
    ensures !AllowedFile("boleta")
  {
    FileValidators.NoDotNoExtension("boleta");
  }

  /** An extension outside the list, here a PDF, is refused. */
  lemma PdfRefused()
    ensures !AllowedFile("boleta.pdf")
  {
    assert FileValidators.ExtensionOf("boleta.pdf") == Some("pdf") by {
      assert "boleta.pdf" == "boleta" + "." + "pdf";
      FileValidators.ExtensionOfSuffix("boleta", "pdf");
    }
    assert LowerAll("pdf") !in Config.ALLOWED_EXTENSIONS by {
      assert LowerAll("pdf") == "pdf";
      forall e | e in Config.ALLOWED_EXTENSIONS ensures e != "pdf" {
        assert e[1] != 'd';
      }
    }
  }

  /** The uploaded receipt part: the client's file name and what the sanitiser made of it. */
  datatype Receipt = Receipt(filename: string, secured: string)

  /** The submitted form. An absent or empty `client_id` is `None`; `amount` is `Unparsable`
      when absent or not a number. `latitude` and `longitude` are the texts sent;
      `latitudeValue` and `longitudeValue` are what the `Numeric` columns make of them, which
      fails for a text that is not a number. */
  datatype ExpenseForm = ExpenseForm(
    receipt: Option<Receipt>,
    latitude: Option<string>,
    longitude: Option<string>,
    latitudeValue: Parsed<int>,
    longitudeValue: Parsed<int>,
    amount: Parsed<int>,
    category: Option<string>,
    reason: Option<string>,
    clientId: Option<nat>)

  /** How the submission ended: one of the early redirects, a failed insert (rolled back), or
      the id of the new expense. */
  datatype NewExpenseOutcome =
    | NoReceiptPart
    | GeolocationMissing
    | NoSelectedFile
    | InvalidFileType
    | CreateFailed
    | Submitted(id: nat)

  /** The stored receipt name: the clock reading, '_', the sanitised name. */
  function ReceiptName(stamp: string, secured: string): (name: string)
    ensures StartsWith(name, stamp) && EndsWith(name, secured)
    ensures |name| == |stamp| + 1 + |secured| && name[|stamp|] == '_'
  {
    assert (stamp + "_" + secured)[|stamp| + 1..] == secured;
    stamp + "_" + secured
  }

  /** The OCR data kept with an expense: the receipt analysis only when it reports success;
      a raised error is swallowed. */
  function KeptOcr(ocrText: string): (kept: Option<Ocr.OcrResult>)
    ensures kept.Some? ==> kept.value.success
  {
    match Ocr.ProcessReceipt(ocrText)
    case Raised(_) => None
    case Returned(res) => if res.success then Some(res) else None
  }

  /** No receipt analysis ever reports success (empty text fails, other text raises), so
      nothing is ever kept. */
  lemma NoOcrEverKept(ocrText: string)
    ensures KeptOcr(ocrText).None?
  {
  }

  /** The insert accepts the form: amount and coordinates convert, and client, category and
      reason are given (NOT NULL columns). */
  predicate Storable(form: ExpenseForm) {
    && form.amount.Parsed? && form.latitudeValue.Parsed? && form.longitudeValue.Parsed?
    && form.clientId.Some? && form.category.Some? && form.reason.Some?
  }

  /** The expense a complete submission stores: the caller's, pending, with the form's amount,
      client, category and reason, the stored receipt name, the converted coordinates and no
      address, dated today, and no OCR data. */
  function Submission(actor: Actor, form: ExpenseForm, stamp: string, today: Date, now: Time): (e: Expense)
    requires form.receipt.Some? && Storable(form)
    ensures e.userId == actor.id && e.status == Pending && e.ocrData.None?
    ensures e.amount == form.amount.value && e.clientId == form.clientId.value
    ensures e.category == form.category.value && e.reason == form.reason.value
    ensures e.receiptImage == ReceiptName(stamp, form.receipt.value.secured)
    ensures e.latitude == Some(form.latitudeValue.value) && e.longitude == Some(form.longitudeValue.value)
    ensures e.address.None?
    ensures e.expenseDate == today && e.createdAt == now && e.updatedAt == now
  {
    Expense(actor.id, form.clientId.value, form.amount.value, today, form.category.value,
            form.reason.value, ReceiptName(stamp, form.receipt.value.secured),
            Some(form.latitudeValue.value), Some(form.longitudeValue.value), None, Pending, now, now, None)
  }

  /** `new` (POST): receipt part, geolocation, file name, extension, in that order; then the
      insert, which fails on an unparsable amount or coordinate or a missing client, category or
      reason. */
  function NewExpense(store: Store, actor: Actor, form: ExpenseForm, stamp: string, ocrText: string,
                      today: Date, now: Time): (r: (Store, NewExpenseOutcome))
    ensures r.1 == NoReceiptPart <==> form.receipt.None?
    ensures r.1 == GeolocationMissing <==> form.receipt.Some? && !(Truthy(form.latitude) && Truthy(form.longitude))
    ensures r.1 == NoSelectedFile <==>
      form.receipt.Some? && Truthy(form.latitude) && Truthy(form.longitude) && form.receipt.value.filename == ""
    ensures r.1 == InvalidFileType <==>
      (form.receipt.Some? && Truthy(form.latitude) && Truthy(form.longitude) && form.receipt.value.filename != ""
       && !AllowedFile(form.receipt.value.filename))
    ensures r.1 == CreateFailed <==>
      (form.receipt.Some? && Truthy(form.latitude) && Truthy(form.longitude) && AllowedFile(form.receipt.value.filename)
       && !Storable(form))
    ensures !r.1.Submitted? ==> r.0 == store
    ensures r.1.Submitted? <==>
      (form.receipt.Some? && Truthy(form.latitude) && Truthy(form.longitude) && AllowedFile(form.receipt.value.filename)
       && Storable(form))
    ensures r.1.Submitted? ==>
      && form.receipt.Some? && Storable(form)
      && r.1.id !in store.expenses
      && r.0 == store.(expenses := store.expenses[r.1.id := Submission(actor, form, stamp, today, now)])
  {
    if form.receipt.None? then (store, NoReceiptPart)
    else if !Truthy(form.latitude) || !Truthy(form.longitude) then (store, GeolocationMissing)
    else if form.receipt.value.filename == "" then (store, NoSelectedFile)
    else if !AllowedFile(form.receipt.value.filename) then (store, InvalidFileType)
    else
      if !Storable(form) then
        (store, CreateFailed)
      else
        var (after, id) := Insert(store, actor, form, stamp, ocrText, today, now);
        (after, Submitted(id))
  }

  /** The file `new` writes to the upload folder: the request reaches `file.save` once it has a
      receipt part, both coordinates, a file name and an allowed extension, before the receipt
      analysis and before the insert; the file is saved under its stored name. */
  function SavedReceipt(form: ExpenseForm, stamp: string): (saved: Option<string>)
    ensures saved.Some? <==>
      (form.receipt.Some? && Truthy(form.latitude) && Truthy(form.longitude) && AllowedFile(form.receipt.value.filename))
    ensures saved.Some? ==> saved.value == ReceiptName(stamp, form.receipt.value.secured)
  {
    if form.receipt.Some? && Truthy(form.latitude) && Truthy(form.longitude) && AllowedFile(form.receipt.value.filename)
    then Some(ReceiptName(stamp, form.receipt.value.secured))
    else None
  }

  /** The receipt is on disk whenever the insert is attempted: a failed insert leaves the saved
      file behind with no expense naming it, and a submitted expense names the saved file. */
  lemma SavedBeforeInsert(store: Store, actor: Actor, form: ExpenseForm, stamp: string,
                            ocrText: string, today: Date, now: Time)
    ensures var (after, outcome) := NewExpense(store, actor, form, stamp, ocrText, today, now);
      && (outcome == CreateFailed ==> SavedReceipt(form, stamp).Some? && after == store)
      && (outcome.Submitted? ==>
            SavedReceipt(form, stamp) == Some(after.expenses[outcome.id].receiptImage))
      && (SavedReceipt(form, stamp).None? ==> after == store)
  {
    var (after, outcome) := NewExpense(store, actor, form, stamp, ocrText, today, now);
    if outcome.Submitted? {
      assert after.expenses[outcome.id] == Submission(actor, form, stamp, today, now);
    }
  }

  /** The insert of `new` once every required field is present: a fresh id, the pending
      expense built from the form, nothing else touched. */
  function Insert(store: Store, actor: Actor, form: ExpenseForm, stamp: string, ocrText: string,
                  today: Date, now: Time): (r: (Store, nat))
    requires form.receipt.Some? && Storable(form)
    ensures r.1 !in store.expenses
    ensures r.0 == store.(expenses := store.expenses[r.1 := Submission(actor, form, stamp, today, now)])
  {
    var ocr := KeptOcr(ocrText);
    NoOcrEverKept(ocrText);
    var e := Submission(actor, form, stamp, today, now).(ocrData := ocr);
    var id := FreshId(store.expenses);
    (store.(expenses := store.expenses[id := e]), id)
  }

  /** A submitted expense is the submitter's, pending, and therefore editable by them through
      the API and listed among their own expenses. */
  lemma SubmittedIsOwnAndEditable(store: Store, actor: Actor, form: ExpenseForm, stamp: string, ocrText: string,
                                  today: Date, now: Time)
    requires NewExpense(store, actor, form, stamp, ocrText, today, now).1.Submitted?
    ensures var (after, outcome) := NewExpense(store, actor, form, stamp, ocrText, today, now);
      && outcome.id in ExpensesOf(after, {actor.id})
      && CanModify(actor, after.expenses[outcome.id])
      && after.expenses[outcome.id].status == Pending
  {
  }

  /** `my_expenses`: the caller's expenses, newest first. */
  method MyExpenses(store: Store, actor: Actor) returns (s: seq<nat>)
    ensures Listing.Enumerates(s, ExpensesOf(store, {actor.id}))
    ensures forall i :: 0 <= i < |s| ==> s[i] in store.expenses && store.expenses[s[i]].userId == actor.id
    ensures forall i, j :: 0 <= i < j < |s| ==> store.expenses[s[i]].createdAt >= store.expenses[s[j]].createdAt
  {
    var key := CreationKeys(store.expenses);
    s := Listing.Descending(ExpensesOf(store, {actor.id}), key);
  }
}
