/**
 * The order wizard (app/optimize/page.tsx): upload a resume (step 1), enter
 * the job description (step 2), pay (step 3). `handlePayment` creates the
 * `pending` order, stores the resume next to it and records its path before
 * handing over to the checkout; the first failing call ends the attempt.
 */
module Optimize {
  import opened Wrappers
  import opened Database
  import opened FileUtils

  /** `PRICING.RESUME_OPTIMIZATION.amount`, in cents. */
  const ResumeOptimizationAmount: int := 4900
  const MinJobDescriptionLength: nat := 50
  /** The `maxLength` of the job-description text area. */
  const JobDescriptionMaxLength: nat := 5000

  const JobDescriptionTooShort: string := "Please provide a more detailed job description (at least 50 characters)"
  const IncompleteSteps: string := "Please complete all previous steps"
  const OrderCreationFailed: string := "Failed to create order. Please try again."

  /**
   * The characters `String.prototype.trim` removes: white space and line
   * terminators. Space, tab and the line breaks are among them; no letter or
   * digit is.
   */
  predicate IsJsWhitespace(c: char): (r: bool)
    ensures c == ' ' || c == '\t' || c == '\n' || c == '\r' ==> r
    ensures r ==> !('0' <= c <= '9' || 'a' <= c <= 'z' || 'A' <= c <= 'Z')
  {
    || ('\t' <= c <= '\r') || c == ' ' || c == '\U{00A0}' || c == '\U{1680}'
    || ('\U{2000}' <= c <= '\U{200A}') || c == '\U{2028}' || c == '\U{2029}'
    || c == '\U{202F}' || c == '\U{205F}' || c == '\U{3000}' || c == '\U{FEFF}'
  }

  /** `s` without its leading white space. */
  function TrimStart(s: string): (r: string)
    ensures |r| <= |s|
    ensures r == [] || !IsJsWhitespace(r[0])
  {
    if s != [] && IsJsWhitespace(s[0]) then TrimStart(s[1..]) else s
  }

  /** `s` without its trailing white space. */
  function TrimEnd(s: string): (r: string)
    ensures |r| <= |s|
    ensures r == [] || !IsJsWhitespace(r[|r| - 1])
  {
    if s != [] && IsJsWhitespace(s[|s| - 1]) then TrimEnd(s[..|s| - 1]) else s
  }

  /** `TrimStart` keeps a suffix and drops only white space before it. */
  lemma {:induction false} TrimStartDropsWhitespace(s: string)
    ensures TrimStart(s) == s[|s| - |TrimStart(s)|..]
    ensures forall k :: 0 <= k < |s| - |TrimStart(s)| ==> IsJsWhitespace(s[k])
  {
    if s != [] && IsJsWhitespace(s[0]) {
      TrimStartDropsWhitespace(s[1..]);
      forall k | 1 <= k < |s| - |TrimStart(s)| ensures IsJsWhitespace(s[k]) {
        assert s[k] == s[1..][k - 1];
      }
    }
  }

  /** `TrimEnd` keeps a prefix and drops only white space after it. */
  lemma {:induction false} TrimEndDropsWhitespace(s: string)
    ensures TrimEnd(s) == s[..|TrimEnd(s)|]
    ensures forall k :: |TrimEnd(s)| <= k < |s| ==> IsJsWhitespace(s[k])
  {
    if s != [] && IsJsWhitespace(s[|s| - 1]) {
      TrimEndDropsWhitespace(s[..|s| - 1]);
      forall k | |TrimEnd(s)| <= k < |s| - 1 ensures IsJsWhitespace(s[k]) {
        assert s[k] == s[..|s| - 1][k];
      }
    }
  }

  /** `String.prototype.trim`. */
  function Trim(s: string): (r: string)
    ensures |r| <= |s|
    ensures r == [] || !IsJsWhitespace(r[|r| - 1])
  {
    TrimEnd(TrimStart(s))
  }

  /** A trimmed text neither starts nor ends with white space. */
  lemma TrimmedEnds(s: string)
    ensures Trim(s) == [] || (!IsJsWhitespace(Trim(s)[0]) && !IsJsWhitespace(Trim(s)[|Trim(s)| - 1]))
  {
    TrimEndDropsWhitespace(TrimStart(s));
  }

  /** A text trims to nothing exactly when every character of it is white space. */
  lemma TrimEmptyIffBlank(s: string)
    ensures Trim(s) == [] <==> forall k :: 0 <= k < |s| ==> IsJsWhitespace(s[k])
  {
    var t := TrimStart(s);
    TrimStartDropsWhitespace(s);
    TrimEndDropsWhitespace(t);
    if Trim(s) == [] {
      forall k | 0 <= k < |s| ensures IsJsWhitespace(s[k]) {
        if k >= |s| - |t| {
          assert s[k] == t[k - (|s| - |t|)];
        }
      }
    } else {
      var r := Trim(s);
      assert r == t[..|r|] && t == s[|s| - |t|..];
      assert s[|s| - |t|] == r[0];
    }
  }

  /** Where the page leaves a purchase: refused, stopped at the first failing call, or handed to the checkout. */
  datatype PaymentOutcome =
    | Incomplete
    | InsertFailed
    | UploadFailed
    | UpdateFailed
    | CheckoutFailed
    | RedirectedToCheckout

  /**
   * What the services answer to `handlePayment`: the id the database gives
   * the new row, whether the insert, the upload and the update succeed, and
   * whether the checkout steps (the session request, reading its answer and
   * the redirect call) complete without throwing. The redirect's own result
   * is not read, so `RedirectedToCheckout` means that nothing threw; a
   * redirect that does not happen shows no message either.
   */
  datatype Services = Services(newOrderId: OrderId, insertOk: bool, uploadOk: bool, updateOk: bool, checkoutOk: bool)

  /**
   * The row `handlePayment` inserts; the unset columns take their defaults:
   * a new order is `pending`, at the fixed price, with no resume, no outputs
   * and no payment yet.
   */
  function NewOrder(id: OrderId, userId: UserId, jobDescription: string): (r: Order)
    ensures r.id == id && r.userId == userId && r.jobDescription == Some(jobDescription)
    ensures r.status == Pending && r.amount == ResumeOptimizationAmount
    ensures r.originalResumeUrl == None && r.stripePaymentId == None
    ensures r.optimizedResumeUrl == None && r.coverLetterUrl == None && r.completedAt == None
  {
    Order(id, userId, Pending, None, Some(jobDescription), None, None, None, None, ResumeOptimizationAmount, None)
  }

  /** `${order.id}/${resumeFile.name}`: the file name inside the order's own folder. */
  function ResumePath(id: OrderId, fileName: string): (r: Path)
    ensures |r| == |id| + 1 + |fileName|
    ensures r[..|id| + 1] == id + "/"
    ensures r[|id| + 1..] == fileName
  {
    id + "/" + fileName
  }

  /**
   * The store after the `try` block of `handlePayment`, with where it
   * stopped: insert the order, upload the resume, record its path, start the
   * checkout; the first failing call ends it. The upload, like every upload
   * without `upsert`, fails when something is already stored at the path.
   */
  function SubmitOrder(db: Db, userId: UserId, file: FileInfo, jobDescription: string, sv: Services): (r: (PaymentOutcome, Db))
    ensures r.0 != Incomplete
  {
    if !sv.insertOk || sv.newOrderId in db.orders then (InsertFailed, db)
    else
      var id := sv.newOrderId;
      var inserted := db.(orders := db.orders[id := NewOrder(id, userId, jobDescription)]);
      var path := ResumePath(id, file.name);
      if !sv.uploadOk || path in inserted.blobs then (UploadFailed, inserted)
      else
        var uploaded := inserted.(blobs := inserted.blobs[path := file.contents]);
        if !sv.updateOk then (UpdateFailed, uploaded)
        else
          var attached := uploaded.(orders := Updated(uploaded.orders, id, AttachResume(path)));
          (if sv.checkoutOk then RedirectedToCheckout else CheckoutFailed, attached)
  }

  /**
   * What the `try` block of `handlePayment` does to the store, by where it
   * stopped: no row without a successful insert of a fresh id; no other row
   * touched; the new row `pending`, for this user, at the fixed price, with
   * the description and no outputs; the resume stored only once the upload
   * succeeds, and its path recorded exactly when the update succeeds. Each
   * call is made only when every earlier one succeeded, so the outcome names
   * the first call that failed.
   */
  lemma SubmitOrderEffects(db: Db, userId: UserId, file: FileInfo, jobDescription: string, sv: Services)
    ensures var r := SubmitOrder(db, userId, file, jobDescription, sv);
      r.0 == InsertFailed <==> !sv.insertOk || sv.newOrderId in db.orders
    ensures var r := SubmitOrder(db, userId, file, jobDescription, sv);
      var isNew := sv.insertOk && sv.newOrderId !in db.orders;
      r.0 == UploadFailed <==> isNew && (!sv.uploadOk || ResumePath(sv.newOrderId, file.name) in db.blobs)
    ensures var r := SubmitOrder(db, userId, file, jobDescription, sv);
      var uploaded := sv.insertOk && sv.newOrderId !in db.orders && sv.uploadOk && ResumePath(sv.newOrderId, file.name) !in db.blobs;
      && (r.0 == UpdateFailed <==> uploaded && !sv.updateOk)
      && (r.0 == CheckoutFailed <==> uploaded && sv.updateOk && !sv.checkoutOk)
      && (r.0 == RedirectedToCheckout <==> uploaded && sv.updateOk && sv.checkoutOk)
    ensures var r := SubmitOrder(db, userId, file, jobDescription, sv);
      r.0 == InsertFailed ==> r.1 == db
    ensures var r := SubmitOrder(db, userId, file, jobDescription, sv);
      r.1.orders.Keys <= db.orders.Keys + {sv.newOrderId}
    ensures var r := SubmitOrder(db, userId, file, jobDescription, sv);
      forall k :: k in db.orders ==> k in r.1.orders && r.1.orders[k] == db.orders[k]
    ensures var r := SubmitOrder(db, userId, file, jobDescription, sv);
      r.0 != InsertFailed ==>
        && sv.newOrderId !in db.orders && sv.newOrderId in r.1.orders
        && var o := r.1.orders[sv.newOrderId];
        && o.status == Pending && o.userId == userId && o.amount == ResumeOptimizationAmount
        && o.jobDescription == Some(jobDescription)
        && o.optimizedResumeUrl == None && o.coverLetterUrl == None && o.completedAt == None
        && (o.originalResumeUrl.Some? <==> r.0 == CheckoutFailed || r.0 == RedirectedToCheckout)
        && (o.originalResumeUrl.Some? ==> o.originalResumeUrl.value == ResumePath(sv.newOrderId, file.name))
    ensures var r := SubmitOrder(db, userId, file, jobDescription, sv);
      r.0 == UploadFailed ==> r.1.blobs == db.blobs
    ensures var r := SubmitOrder(db, userId, file, jobDescription, sv);
      r.0 == UpdateFailed || r.0 == CheckoutFailed || r.0 == RedirectedToCheckout ==>
        r.1.blobs == db.blobs[ResumePath(sv.newOrderId, file.name) := file.contents]
  {
  }

  /** The store after `handlePayment`: nothing happens without a file and a non-blank description. */
  function PlaceOrder(db: Db, userId: UserId, file: Option<FileInfo>, jobDescription: string, sv: Services): (r: (PaymentOutcome, Db))
    ensures r.0 == Incomplete <==> file.None? || Trim(jobDescription) == []
    ensures r.0 == Incomplete ==> r.1 == db
  {
    if file.None? || Trim(jobDescription) == [] then (Incomplete, db)
    else SubmitOrder(db, userId, file.value, jobDescription, sv)
  }

  /**
   * Between two handler runs: one of the three steps the handlers reach,
   * a file once past step 1, and a long enough description on the payment
   * step.
   */
  ghost predicate WizardInvariant(currentStep: int, resumeFile: Option<FileInfo>, jobDescription: string) {
    && 1 <= currentStep <= 3
    && |jobDescription| <= JobDescriptionMaxLength
    && (currentStep >= 2 ==> resumeFile.Some?)
    && (currentStep == 3 ==> |Trim(jobDescription)| >= MinJobDescriptionLength)
  }

  /** The wizard's state: the step shown, the chosen file, the description, and the order once created. */
  class OptimizePage {
    const userId: UserId
    var currentStep: int
    var resumeFile: Option<FileInfo>
    var jobDescription: string
    var processing: bool
    var orderId: Option<OrderId>

    /** No payment in flight, and the wizard invariant on the fields it constrains. */
    ghost predicate Valid()
      reads this`currentStep, this`resumeFile, this`jobDescription, this`processing
    {
      !processing && WizardInvariant(currentStep, resumeFile, jobDescription)
    }

    constructor (userId: UserId)
      ensures Valid()
      ensures this.userId == userId && currentStep == 1 && resumeFile == None
      ensures jobDescription == "" && orderId == None
    {
      this.userId := userId;
      currentStep := 1;
      resumeFile := None;
      jobDescription := "";
      processing := false;
      orderId := None;
    }

    /** `handleResumeUpload`: keep the file and move to step 2. */
    method HandleResumeUpload(file: FileInfo)
      requires Valid() && currentStep == 1
      modifies this`resumeFile, this`currentStep
      ensures Valid()
      ensures resumeFile == Some(file) && currentStep == 2
    {
      resumeFile := Some(file);
      currentStep := 2;
    }

    /** The text area's `onChange`, on step 2; the text area never yields more than its maximum length. */
    method SetJobDescription(text: string)
      requires Valid() && currentStep == 2 && |text| <= JobDescriptionMaxLength
      modifies this`jobDescription
      ensures Valid() && jobDescription == text
    {
      jobDescription := text;
    }

    /** `handleJobDescriptionNext`: go on to step 3 only with at least 50 characters after trimming. */
    method HandleJobDescriptionNext() returns (error: Option<string>)
      requires Valid() && currentStep == 2
      modifies this`currentStep
      ensures Valid()
      ensures |Trim(jobDescription)| < MinJobDescriptionLength ==> error == Some(JobDescriptionTooShort) && currentStep == 2
      ensures |Trim(jobDescription)| >= MinJobDescriptionLength ==> error == None && currentStep == 3
    {
      if |Trim(jobDescription)| < MinJobDescriptionLength {
        return Some(JobDescriptionTooShort);
      }
      currentStep := 3;
      return None;
    }

    /** The "Previous" button of step 2. */
    method BackToUpload()
      requires Valid() && currentStep == 2
      modifies this`currentStep
      ensures Valid() && currentStep == 1
    {
      currentStep := 1;
    }

    /** The "Previous" button of step 3. */
    method BackToJobDescription()
      requires Valid() && currentStep == 3
      modifies this`currentStep
      ensures Valid() && currentStep == 2
    {
      currentStep := 2;
    }

    /**
     * `handlePayment`: check the inputs, then insert the order, upload the
     * resume, record its path and start the checkout, stopping at the first
     * failure; `processing` is cleared on every path that set it.
     */
    method HandlePayment(store: Store, sv: Services) returns (outcome: PaymentOutcome, error: Option<string>)
      requires Valid()
      modifies this`processing, this`orderId, store
      ensures Valid()
      ensures (outcome, store.Snapshot()) == PlaceOrder(old(store.Snapshot()), userId, resumeFile, jobDescription, sv)
      ensures orderId == if outcome == Incomplete || outcome == InsertFailed then old(orderId) else Some(sv.newOrderId)
      ensures currentStep == 3 ==> outcome != Incomplete
      ensures error == match outcome
        case Incomplete => Some(IncompleteSteps)
        case RedirectedToCheckout => None
        case _ => Some(OrderCreationFailed)
    {
      if resumeFile.None? || Trim(jobDescription) == [] {
        return Incomplete, Some(IncompleteSteps);
      }
      processing := true;
      outcome := CreateOrder(store, userId, resumeFile.value, jobDescription, sv);
      if outcome != InsertFailed {
        // set by the page as soon as the insert returns the new row
        orderId := Some(sv.newOrderId);
      }
      error := if outcome == RedirectedToCheckout then None else Some(OrderCreationFailed);
      processing := false;
    }
  }

  /**
   * The `try` block of `handlePayment`: insert the order, upload the resume,
   * record its path and start the checkout, stopping at the first failure.
   */
  method CreateOrder(store: Store, userId: UserId, file: FileInfo, jobDescription: string, sv: Services) returns (outcome: PaymentOutcome)
    modifies store
    ensures (outcome, store.Snapshot()) == SubmitOrder(old(store.Snapshot()), userId, file, jobDescription, sv)
  {
    var order := store.Insert(NewOrder(sv.newOrderId, userId, jobDescription), sv.insertOk);
    if order.None? {
      return InsertFailed;
    }
    var fileName := ResumePath(order.value.id, file.name);
    var uploaded := store.Upload(fileName, file.contents, sv.uploadOk);
    if !uploaded {
      return UploadFailed;
    }
    var updated := store.UpdateById(order.value.id, AttachResume(fileName), sv.updateOk);
    if !updated {
      return UpdateFailed;
    }
    // the checkout session request and the redirect
    outcome := if sv.checkoutOk then RedirectedToCheckout else CheckoutFailed;
  }
}
