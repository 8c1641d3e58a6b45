/**
 * Facts about an order across its whole life: created `pending` by the
 * wizard, then driven by webhook deliveries. `Consistent` is the invariant
 * that every operation on the store keeps.
 */
module Lifecycle {
  import opened Wrappers
  import opened Database
  import opened FileUtils
  import opened StripeWebhook
  import opened Optimize

  /**
   * A row of the order table as the application leaves it: stored under its
   * own id; output URLs and `completed_at` set together, the URLs at the
   * order's fixed output paths; a `completed` order has them, a `pending`
   * one does not.
   */
  predicate OrderConsistent(key: OrderId, o: Order) {
    && o.id == key
    && (o.optimizedResumeUrl.Some? <==> o.completedAt.Some?)
    && (o.coverLetterUrl.Some? <==> o.completedAt.Some?)
    && (o.optimizedResumeUrl.Some? ==> o.optimizedResumeUrl.value == OptimizedResumePath(key))
    && (o.coverLetterUrl.Some? ==> o.coverLetterUrl.value == CoverLetterPath(key))
    && (o.status == Completed ==> o.completedAt.Some?)
    && (o.status == Pending ==> o.completedAt.None?)
  }

  predicate Consistent(db: Db) {
    forall k :: k in db.orders ==> OrderConsistent(k, db.orders[k])
  }

  /** Creating an order keeps the table consistent, whichever call fails. */
  lemma PlaceOrderPreservesConsistency(db: Db, userId: UserId, file: Option<FileInfo>, jobDescription: string, sv: Services)
    requires Consistent(db)
    ensures Consistent(PlaceOrder(db, userId, file, jobDescription, sv).1)
  {
    var r := PlaceOrder(db, userId, file, jobDescription, sv);
    if r.0 != Incomplete {
      SubmitOrderEffects(db, userId, file.value, jobDescription, sv);
    }
    forall k | k in r.1.orders ensures OrderConsistent(k, r.1.orders[k]) {
      if k !in db.orders {
        assert k == sv.newOrderId;
        assert r.1.orders[k].id == k;
      }
    }
  }

  /** Handling a webhook delivery keeps the table consistent. */
  lemma DeliverPreservesConsistency(db: Db, d: Delivery, env: Env)
    requires Consistent(db)
    ensures Consistent(Deliver(db, d, env))
  {
    if Actionable(d) && d.metadataOrderId.value in db.orders {
      if Generate(db, d.metadataOrderId.value, env).Success? {
        CompletedDelivery(db, d, env);
      } else {
        FailedDelivery(db, d, env);
      }
    } else if Actionable(d) {
      UnknownOrderUntouched(db, d, env);
    }
  }

  /**
   * The status moves a delivery can make: every order but the one named keeps
   * its status, and the named one, from any status (there is no guard on the
   * prior status), either keeps it or leaves `pending` behind. When the
   * updates that end a run succeed, it ends `completed` or `failed`.
   */
  lemma StatusTransitions(db: Db, d: Delivery, env: Env, k: OrderId)
    requires k in db.orders
    ensures k in Deliver(db, d, env).orders
    ensures
      var after := Deliver(db, d, env).orders[k].status;
      || after == db.orders[k].status
      || (Actionable(d) && k == d.metadataOrderId.value && after != Pending)
    ensures
      var after := Deliver(db, d, env).orders[k].status;
      Actionable(d) && k == d.metadataOrderId.value && env.completeUpdateOk && env.failUpdateOk ==>
        after == Completed || after == Failed
  {
    if Actionable(d) && k == d.metadataOrderId.value {
      if Generate(db, k, env).Success? {
        CompletedDelivery(db, d, env);
      } else {
        FailedDelivery(db, d, env);
      }
    }
  }

  /** In a consistent table a `completed` order points at both outputs, at non-empty paths. */
  lemma CompletedHasOutputs(db: Db, k: OrderId)
    requires Consistent(db) && k in db.orders && db.orders[k].status == Completed
    ensures db.orders[k].optimizedResumeUrl == Some(OptimizedResumePath(k)) && OptimizedResumePath(k) != ""
    ensures db.orders[k].coverLetterUrl == Some(CoverLetterPath(k)) && CoverLetterPath(k) != ""
    ensures db.orders[k].completedAt.Some?
  {
    assert OrderConsistent(k, db.orders[k]);
  }

  /** A common prefix can be cancelled. */
  lemma SamePrefix(p: string, a: string, b: string)
    requires p + a == p + b
    ensures a == b
  {
    assert a == (p + a)[|p|..];
  }

  /** The output file names carry the extension "txt", which the validator refuses. */
  lemma OutputNamesRefused()
    ensures !ExtensionAllowed(Extension(OptimizedResumeName))
    ensures !ExtensionAllowed(Extension(CoverLetterName))
  {
    OptimizedResumeNameIsTxt();
    CoverLetterNameIsTxt();
    ExtensionAllowedMeans("txt");
  }

  /** The extension of "optimized-resume.txt" is "txt". */
  lemma OptimizedResumeNameIsTxt()
    ensures Extension(OptimizedResumeName) == "txt"
  {
    assert Lower(OptimizedResumeName) == "optimized-resume" + "." + "txt";
    LastSegmentAfterDot("optimized-resume", "txt");
  }

  /** The extension of "cover-letter.txt" is "txt". */
  lemma CoverLetterNameIsTxt()
    ensures Extension(CoverLetterName) == "txt"
  {
    assert Lower(CoverLetterName) == "cover-letter" + "." + "txt";
    LastSegmentAfterDot("cover-letter", "txt");
  }

  /**
   * A file whose extension passes the validator's check, as every file that
   * passed validation does, cannot be stored at one of its order's output
   * paths, since those end in ".txt".
   */
  lemma ValidatedResumeAvoidsOutputPaths(id: OrderId, f: FileInfo)
    requires ExtensionAllowed(Extension(f.name))
    ensures ResumePath(id, f.name) != OptimizedResumePath(id)
    ensures ResumePath(id, f.name) != CoverLetterPath(id)
  {
    OutputNamesRefused();
    if ResumePath(id, f.name) == OptimizedResumePath(id) {
      SamePrefix(id + "/", f.name, OptimizedResumeName);
    }
    if ResumePath(id, f.name) == CoverLetterPath(id) {
      SamePrefix(id + "/", f.name, CoverLetterName);
    }
  }

  /**
   * The purchase end to end: after the wizard hands over to the checkout,
   * a verified payment event for the new order, with every update, the load,
   * the download and the generator working, completes it, generating from
   * the uploaded resume and the entered description, and records the
   * session's payment id.
   */
  lemma PurchaseThenPayment(db: Db, userId: UserId, file: FileInfo, jobDescription: string, sv: Services, d: Delivery, env: Env)
    requires PlaceOrder(db, userId, Some(file), jobDescription, sv).0 == RedirectedToCheckout
    requires Actionable(d) && d.metadataOrderId.value == sv.newOrderId
    requires env.startUpdateOk && env.loadOk && env.completeUpdateOk
    requires env.downloadOk && env.generate(env.extract(file.contents), Some(jobDescription)).Generated?
    ensures
      var placed := PlaceOrder(db, userId, Some(file), jobDescription, sv).1;
      var o := Deliver(placed, d, env).orders[sv.newOrderId];
      && o.status == Completed
      && o.amount == ResumeOptimizationAmount
      && o.stripePaymentId == d.paymentIntent
      && o.originalResumeUrl == Some(ResumePath(sv.newOrderId, file.name))
      && o.optimizedResumeUrl == Some(OptimizedResumePath(sv.newOrderId))
      && o.coverLetterUrl == Some(CoverLetterPath(sv.newOrderId))
  {
    var placed := PlaceOrder(db, userId, Some(file), jobDescription, sv).1;
    var path := ResumePath(sv.newOrderId, file.name);
    SubmitOrderEffects(db, userId, file, jobDescription, sv);
    assert placed.orders[sv.newOrderId].originalResumeUrl == Some(path);
    assert path in placed.blobs && placed.blobs[path] == file.contents;
    assert Generate(placed, sv.newOrderId, env).Success?;
    CompletedDelivery(placed, d, env);
  }

  /**
   * A validated resume leaves its order's output paths free: when they were
   * free before the purchase and both uploads succeed, the payment event
   * stores the generated resume and cover letter there.
   */
  lemma PurchaseStoresOutputs(db: Db, userId: UserId, file: FileInfo, jobDescription: string, sv: Services, d: Delivery, env: Env)
    requires ValidateFile(file).valid
    requires PlaceOrder(db, userId, Some(file), jobDescription, sv).0 == RedirectedToCheckout
    requires Actionable(d) && d.metadataOrderId.value == sv.newOrderId
    requires OptimizedResumePath(sv.newOrderId) !in db.blobs && CoverLetterPath(sv.newOrderId) !in db.blobs
    requires env.loadOk && env.downloadOk && env.resumeUploadOk && env.letterUploadOk
    requires env.generate(env.extract(file.contents), Some(jobDescription)).Generated?
    ensures
      var placed := PlaceOrder(db, userId, Some(file), jobDescription, sv).1;
      var g := env.generate(env.extract(file.contents), Some(jobDescription));
      var stored := Deliver(placed, d, env).blobs;
      && OptimizedResumePath(sv.newOrderId) in stored && stored[OptimizedResumePath(sv.newOrderId)] == BlobText(g.optimizedResume)
      && CoverLetterPath(sv.newOrderId) in stored && stored[CoverLetterPath(sv.newOrderId)] == BlobText(g.coverLetter)
  {
    var placed := PlaceOrder(db, userId, Some(file), jobDescription, sv).1;
    PlacedOrderGenerates(db, userId, file, jobDescription, sv, env);
    PlacedOrderOutputsFree(db, userId, file, jobDescription, sv);
    CompletedDelivery(placed, d, env);
  }

  /** The order the wizard handed to the checkout runs through the pipeline on its stored resume and description. */
  lemma PlacedOrderGenerates(db: Db, userId: UserId, file: FileInfo, jobDescription: string, sv: Services, env: Env)
    requires PlaceOrder(db, userId, Some(file), jobDescription, sv).0 == RedirectedToCheckout
    requires env.loadOk && env.downloadOk && env.generate(env.extract(file.contents), Some(jobDescription)).Generated?
    ensures Generate(PlaceOrder(db, userId, Some(file), jobDescription, sv).1, sv.newOrderId, env)
      == Success(env.generate(env.extract(file.contents), Some(jobDescription)))
  {
    var placed := PlaceOrder(db, userId, Some(file), jobDescription, sv).1;
    var path := ResumePath(sv.newOrderId, file.name);
    SubmitOrderEffects(db, userId, file, jobDescription, sv);
    assert placed.orders[sv.newOrderId].originalResumeUrl == Some(path);
    assert path in placed.blobs && placed.blobs[path] == file.contents;
  }

  /**
   * A purchase attempt with a resume whose extension passes the validator's
   * check, however it ends, leaves the new order's output paths as they were.
   */
  lemma PlacedOrderOutputsFree(db: Db, userId: UserId, file: FileInfo, jobDescription: string, sv: Services)
    requires ExtensionAllowed(Extension(file.name))
    ensures
      var placed := PlaceOrder(db, userId, Some(file), jobDescription, sv).1;
      && (OptimizedResumePath(sv.newOrderId) in placed.blobs <==> OptimizedResumePath(sv.newOrderId) in db.blobs)
      && (CoverLetterPath(sv.newOrderId) in placed.blobs <==> CoverLetterPath(sv.newOrderId) in db.blobs)
  {
    if PlaceOrder(db, userId, Some(file), jobDescription, sv).0 != Incomplete {
      SubmitOrderEffects(db, userId, file, jobDescription, sv);
    }
    ValidatedResumeAvoidsOutputPaths(sv.newOrderId, file);
  }
}
