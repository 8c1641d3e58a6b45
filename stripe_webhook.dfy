/**
 * The payment webhook (app/api/webhook/stripe/route.ts). `Post` answers one
 * delivery from the payment provider; on a completed checkout it marks the
 * order `processing` and runs `ProcessResumeOrder`: load the order, download
 * the resume, extract its text, generate the new documents, upload them at
 * fixed paths and mark the order `completed`. When anything on the way
 * throws, the order is marked `failed`. The results of these updates are not
 * read, so a failed update leaves the order where it was.
 *
 * Both methods are proved against the pure functions `Respond`, `Process`
 * and `Deliver`; the lemmas below state what those functions imply.
 */
module StripeWebhook {
  import opened Wrappers
  import opened Database

  const CheckoutSessionCompleted: string := "checkout.session.completed"

  /**
   * One webhook delivery, after `constructEvent`: whether the signature
   * checked out, the event type, `metadata.orderId` of the checkout session
   * and its `payment_intent`.
   */
  datatype Delivery = Delivery(
    signatureValid: bool,
    eventType: string,
    metadataOrderId: Option<string>,
    paymentIntent: Option<string>)

  datatype Body = ErrorMessage(message: string) | Received
  datatype Response = Response(status: int, body: Body)

  /**
   * What the text generator returns: the parsed JSON object (a field the
   * reply lacks is `None`), or the one error it throws for every failure.
   */
  datatype Generation =
    | Generated(optimizedResume: Option<string>, coverLetter: Option<string>, keyChanges: seq<string>, matchScore: int)
    | GenerationError

  /**
   * Everything outside the handler, in the order the code meets it: whether
   * the update to `processing` succeeds, whether loading the order and
   * downloading its resume succeed, the text extractor, the text generator,
   * whether each upload succeeds, whether the completion update succeeds, the
   * clock, and whether the update to `failed` succeeds. The code reads the
   * result of none of the three updates.
   */
  datatype Env = Env(
    startUpdateOk: bool,
    loadOk: bool,
    downloadOk: bool,
    extract: Blob -> string,
    generate: (string, Option<string>) -> Generation,
    resumeUploadOk: bool,
    letterUploadOk: bool,
    completeUpdateOk: bool,
    now: Timestamp,
    failUpdateOk: bool)

  /** The errors `processResumeOrder` throws. */
  datatype PipelineError = OrderNotFound | DownloadFailed | GenerationFailed

  const OptimizedResumeName: string := "optimized-resume.txt"
  const CoverLetterName: string := "cover-letter.txt"

  /** `${orderId}/optimized-resume.txt`: the fixed name inside the order's own folder. */
  function OptimizedResumePath(id: OrderId): (r: Path)
    ensures |r| == |id| + 1 + |OptimizedResumeName|
    ensures r[..|id| + 1] == id + "/" && r[|id| + 1..] == OptimizedResumeName
  {
    id + "/" + OptimizedResumeName
  }

  /** `${orderId}/cover-letter.txt`: the fixed name inside the order's own folder. */
  function CoverLetterPath(id: OrderId): (r: Path)
    ensures |r| == |id| + 1 + |CoverLetterName|
    ensures r[..|id| + 1] == id + "/" && r[|id| + 1..] == CoverLetterName
  {
    id + "/" + CoverLetterName
  }

  /**
   * The text of `new Blob([field])`: a missing field becomes "undefined", so
   * it cannot be told apart from a reply whose field is that very word.
   */
  function BlobText(field: Option<string>): (r: string)
    ensures field.Some? ==> r == field.value
    ensures r == "undefined" <==> field.None? || field.value == "undefined"
  {
    if field.Some? then field.value else "undefined"
  }

  /** `!orderId`: absent or the empty string; any order id that passes has a character. */
  predicate MissingOrderId(m: Option<string>): (r: bool)
    ensures !r <==> m.Some? && |m.value| > 0
  {
    m.None? || m.value == ""
  }

  /**
   * A delivery the handler acts upon: a valid signature, a completed checkout
   * and an order id that is present and non-empty. Each of them is answered 200.
   */
  predicate Actionable(d: Delivery): (r: bool)
    ensures r <==> d.signatureValid && d.eventType == CheckoutSessionCompleted && d.metadataOrderId.Some? && |d.metadataOrderId.value| > 0
    ensures r ==> Respond(d) == Response(200, Received)
  {
    d.signatureValid && d.eventType == CheckoutSessionCompleted && !MissingOrderId(d.metadataOrderId)
  }

  /** The HTTP answer: 400 for a bad signature or a missing order id, otherwise `{received: true}`. */
  function Respond(d: Delivery): (r: Response)
    ensures r.status == 400 <==> !d.signatureValid || (d.eventType == CheckoutSessionCompleted && MissingOrderId(d.metadataOrderId))
    ensures r.status != 400 ==> r == Response(200, Received)
    ensures !d.signatureValid ==> r.body == ErrorMessage("Invalid signature")
  {
    if !d.signatureValid then Response(400, ErrorMessage("Invalid signature"))
    else if d.eventType == CheckoutSessionCompleted && MissingOrderId(d.metadataOrderId) then Response(400, ErrorMessage("No orderId"))
    else Response(200, Received)
  }

  /**
   * The part of `processResumeOrder` that can throw: load the order, download
   * its resume, extract the text and call the generator with the order's job
   * description.
   */
  function Generate(db: Db, id: OrderId, env: Env): (r: Result<Generation, PipelineError>)
    ensures r.Success? ==> r.value.Generated?
    ensures r == Failure(OrderNotFound) <==> id !in db.orders || !env.loadOk
  {
    if id !in db.orders || !env.loadOk then Failure(OrderNotFound)
    else
      var url := db.orders[id].originalResumeUrl;
      if url.None? || url.value !in db.blobs || !env.downloadOk then Failure(DownloadFailed)
      else
        var g := env.generate(env.extract(db.blobs[url.value]), db.orders[id].jobDescription);
        if g.GenerationError? then Failure(GenerationFailed) else Success(g)
  }

  /**
   * The bucket after the two uploads. Each writes its fixed path when the
   * service succeeds and nothing is stored there yet: a blob already in the
   * bucket is never replaced, and only the two output paths can be added.
   */
  function Uploads(blobs: map<Path, Blob>, id: OrderId, g: Generation, env: Env): (r: map<Path, Blob>)
    requires g.Generated?
    ensures forall p :: p in blobs ==> p in r && r[p] == blobs[p]
    ensures forall p :: p in r && p !in blobs ==>
      (p == OptimizedResumePath(id) && env.resumeUploadOk) || (p == CoverLetterPath(id) && env.letterUploadOk)
    ensures env.resumeUploadOk && OptimizedResumePath(id) !in blobs ==> OptimizedResumePath(id) in r && r[OptimizedResumePath(id)] == BlobText(g.optimizedResume)
    ensures env.letterUploadOk && CoverLetterPath(id) !in blobs ==> CoverLetterPath(id) in r && r[CoverLetterPath(id)] == BlobText(g.coverLetter)
  {
    OutputPathsDistinct(id, id);
    var afterResume := if env.resumeUploadOk && OptimizedResumePath(id) !in blobs then blobs[OptimizedResumePath(id) := BlobText(g.optimizedResume)] else blobs;
    if env.letterUploadOk && CoverLetterPath(id) !in afterResume then afterResume[CoverLetterPath(id) := BlobText(g.coverLetter)] else afterResume
  }

  /**
   * The two uploads, then the completion update: the named order, if it
   * exists, is `completed` when that update succeeds and unchanged otherwise;
   * no other row changes.
   */
  function Finalize(db: Db, id: OrderId, g: Generation, env: Env): (r: Db)
    requires g.Generated?
    ensures r.orders.Keys == db.orders.Keys
    ensures forall k :: k in db.orders && k != id ==> r.orders[k] == db.orders[k]
    ensures id in db.orders ==> r.orders[id].status == if env.completeUpdateOk then Completed else db.orders[id].status
  {
    var orders := if env.completeUpdateOk then Updated(db.orders, id, MarkCompleted(OptimizedResumePath(id), CoverLetterPath(id), env.now)) else db.orders;
    Db(orders, Uploads(db.blobs, id, g, env))
  }

  /**
   * `processResumeOrder`: the error it throws, exactly when the generation
   * pipeline throws (having written nothing), or the new state.
   */
  function Process(db: Db, id: OrderId, env: Env): (r: Result<Db, PipelineError>)
    ensures r.Failure? <==> Generate(db, id, env).Failure?
    ensures r.Failure? ==> r.error == Generate(db, id, env).error
    ensures r.Success? ==> r.value.orders.Keys == db.orders.Keys
  {
    match Generate(db, id, env)
    case Failure(e) => Failure(e)
    case Success(g) => Success(Finalize(db, id, g, env))
  }

  /** The state after `POST` has handled one delivery. */
  function Deliver(db: Db, d: Delivery, env: Env): (r: Db)
    ensures !Actionable(d) ==> r == db
    ensures r.orders.Keys == db.orders.Keys
    ensures forall k :: k in db.orders && (!Actionable(d) || k != d.metadataOrderId.value) ==> r.orders[k] == db.orders[k]
  {
    if !Actionable(d) then db
    else
      var id := d.metadataOrderId.value;
      var started := db.(orders := if env.startUpdateOk then Updated(db.orders, id, StartProcessing(d.paymentIntent)) else db.orders);
      match Process(started, id, env)
      case Failure(_) => started.(orders := if env.failUpdateOk then Updated(started.orders, id, MarkFailed) else started.orders)
      case Success(done) => done
  }

  /** `processResumeOrder(orderId)` against the store; `Some(e)` is the error it throws. */
  method ProcessResumeOrder(store: Store, orderId: OrderId, env: Env) returns (r: Option<PipelineError>)
    modifies store
    ensures match Process(old(store.Snapshot()), orderId, env)
      case Failure(e) => r == Some(e) && store.Snapshot() == old(store.Snapshot())
      case Success(after) => r == None && store.Snapshot() == after
  {
    var order := store.SelectSingle(orderId, env.loadOk);
    if order.None? {
      return Some(OrderNotFound);
    }
    var file := store.Download(order.value.originalResumeUrl, env.downloadOk);
    if file.None? {
      return Some(DownloadFailed);
    }
    var resumeContent := env.extract(file.value);
    var optimization := env.generate(resumeContent, order.value.jobDescription);
    if optimization.GenerationError? {
      return Some(GenerationFailed);
    }
    var resumePath := OptimizedResumePath(orderId);
    var letterPath := CoverLetterPath(orderId);
    // upload and update results are not inspected
    var resumeUploaded := store.Upload(resumePath, BlobText(optimization.optimizedResume), env.resumeUploadOk);
    var letterUploaded := store.Upload(letterPath, BlobText(optimization.coverLetter), env.letterUploadOk);
    var updated := store.UpdateById(orderId, MarkCompleted(resumePath, letterPath, env.now), env.completeUpdateOk);
    return None;
  }

  /** `POST`: answer one delivery and, for a completed checkout, process its order. */
  method Post(store: Store, d: Delivery, env: Env) returns (resp: Response)
    modifies store
    ensures resp == Respond(d)
    ensures store.Snapshot() == Deliver(old(store.Snapshot()), d, env)
    ensures !Actionable(d) ==> store.orders == old(store.orders) && store.blobs == old(store.blobs)
  {
    if !d.signatureValid {
      return Response(400, ErrorMessage("Invalid signature"));
    }
    if d.eventType == CheckoutSessionCompleted {
      if MissingOrderId(d.metadataOrderId) {
        return Response(400, ErrorMessage("No orderId"));
      }
      var orderId := d.metadataOrderId.value;
      // no check of the current status: any order is moved to processing
      // update results are not inspected either
      var started := store.UpdateById(orderId, StartProcessing(d.paymentIntent), env.startUpdateOk);
      var thrown := ProcessResumeOrder(store, orderId, env);
      if thrown.Some? {
        var marked := store.UpdateById(orderId, MarkFailed, env.failUpdateOk);
      }
    }
    return Response(200, Received);
  }

  /** The generator's inputs are the order's resume and job description, and nothing else in the store. */
  lemma GenerateReadsResumeAndDescription(db: Db, db': Db, id: OrderId, env: Env)
    requires id in db.orders <==> id in db'.orders
    requires id in db.orders ==>
      var u := db.orders[id].originalResumeUrl;
      && u == db'.orders[id].originalResumeUrl
      && db.orders[id].jobDescription == db'.orders[id].jobDescription
      && (u.Some? ==> (u.value in db.blobs <==> u.value in db'.blobs))
      && (u.Some? && u.value in db.blobs ==> db.blobs[u.value] == db'.blobs[u.value])
    ensures Generate(db, id, env) == Generate(db', id, env)
  {
  }

  /** The resume output and the cover-letter output never share a path, and each order has its own. */
  lemma OutputPathsDistinct(a: OrderId, b: OrderId)
    ensures OptimizedResumePath(a) != CoverLetterPath(b)
    ensures a != b ==> OptimizedResumePath(a) != OptimizedResumePath(b) && CoverLetterPath(a) != CoverLetterPath(b)
  {
    var r, c := OptimizedResumePath(a), CoverLetterPath(b);
    assert r[|r| - 5] == 'e' && c[|c| - 5] == 'r';
    if a != b {
      if |a| == |b| {
        var i :| 0 <= i < |a| && a[i] != b[i];
        assert OptimizedResumePath(a)[i] == a[i] && OptimizedResumePath(b)[i] == b[i];
        assert CoverLetterPath(a)[i] == a[i] && CoverLetterPath(b)[i] == b[i];
      }
    }
  }

  /**
   * A verified completed-checkout event for an order whose pipeline throws:
   * no blob changes and only the named order does. Its status is `failed`
   * when that update succeeds, else `processing` when the first update did,
   * else what it was; the payment id is recorded when the first update
   * succeeds; its output URLs and `completed_at` keep whatever they held.
   */
  lemma FailedDelivery(db: Db, d: Delivery, env: Env)
    requires Actionable(d) && d.metadataOrderId.value in db.orders
    requires Generate(db, d.metadataOrderId.value, env).Failure?
    ensures
      var id := d.metadataOrderId.value;
      var o := db.orders[id];
      Deliver(db, d, env) == Db(db.orders[id := o.(
        status := if env.failUpdateOk then Failed else if env.startUpdateOk then Processing else o.status,
        stripePaymentId := if env.startUpdateOk then d.paymentIntent else o.stripePaymentId)], db.blobs)
  {
    var id := d.metadataOrderId.value;
    var started := db.(orders := if env.startUpdateOk then Updated(db.orders, id, StartProcessing(d.paymentIntent)) else db.orders);
    GenerateReadsResumeAndDescription(db, started, id, env);
  }

  /**
   * A verified completed-checkout event whose pipeline runs through, whatever
   * the order's prior status. The order is `completed`, with both output URLs
   * at the fixed paths and `completed_at` set, when the completion update
   * succeeds; otherwise it is `processing` when the first update succeeded,
   * else as it was. The payment id is recorded when the first update
   * succeeds. Each successful upload to a free path stores the generated
   * text; no stored blob is replaced, and nothing else is added.
   */
  lemma CompletedDelivery(db: Db, d: Delivery, env: Env)
    requires Actionable(d)
    requires Generate(db, d.metadataOrderId.value, env).Success?
    ensures
      var id := d.metadataOrderId.value;
      var o := db.orders[id];
      var g := Generate(db, id, env).value;
      var r := Deliver(db, d, env);
      && r.orders == db.orders[id := o.(
           status := if env.completeUpdateOk then Completed else if env.startUpdateOk then Processing else o.status,
           stripePaymentId := if env.startUpdateOk then d.paymentIntent else o.stripePaymentId,
           optimizedResumeUrl := if env.completeUpdateOk then Some(OptimizedResumePath(id)) else o.optimizedResumeUrl,
           coverLetterUrl := if env.completeUpdateOk then Some(CoverLetterPath(id)) else o.coverLetterUrl,
           completedAt := if env.completeUpdateOk then Some(env.now) else o.completedAt)]
      && (env.resumeUploadOk && OptimizedResumePath(id) !in db.blobs ==>
            OptimizedResumePath(id) in r.blobs && r.blobs[OptimizedResumePath(id)] == BlobText(g.optimizedResume))
      && (env.letterUploadOk && CoverLetterPath(id) !in db.blobs ==>
            CoverLetterPath(id) in r.blobs && r.blobs[CoverLetterPath(id)] == BlobText(g.coverLetter))
      && (forall p :: p in db.blobs ==> p in r.blobs && r.blobs[p] == db.blobs[p])
      && (forall p :: p in r.blobs && p !in db.blobs ==>
            (p == OptimizedResumePath(id) && env.resumeUploadOk) || (p == CoverLetterPath(id) && env.letterUploadOk))
  {
    var id := d.metadataOrderId.value;
    var started := db.(orders := if env.startUpdateOk then Updated(db.orders, id, StartProcessing(d.paymentIntent)) else db.orders);
    GenerateReadsResumeAndDescription(db, started, id, env);
  }

  /** Running the two uploads again leaves the bucket as the first run left it. */
  lemma UploadsIdempotent(blobs: map<Path, Blob>, id: OrderId, g: Generation, env: Env)
    requires g.Generated?
    ensures Uploads(Uploads(blobs, id, g, env), id, g, env) == Uploads(blobs, id, g, env)
  {
    var once := Uploads(blobs, id, g, env);
    var twice := Uploads(once, id, g, env);
    assert twice.Keys == once.Keys;
  }

  /** A delivery naming an order that does not exist changes nothing. */
  lemma UnknownOrderUntouched(db: Db, d: Delivery, env: Env)
    requires Actionable(d) && d.metadataOrderId.value !in db.orders
    ensures Deliver(db, d, env) == db
  {
    var id := d.metadataOrderId.value;
    assert Updated(db.orders, id, StartProcessing(d.paymentIntent)) == db.orders;
  }

  /**
   * When the updates that end a run succeed, a verified completed-checkout
   * event never leaves its order `processing`: it is `completed` exactly when
   * the pipeline ran through, and `failed` otherwise.
   */
  lemma DeliveryEndsTerminal(db: Db, d: Delivery, env: Env)
    requires Actionable(d) && d.metadataOrderId.value in db.orders
    requires env.completeUpdateOk && env.failUpdateOk
    ensures
      var id := d.metadataOrderId.value;
      var st := Deliver(db, d, env).orders[id].status;
      && (st == Completed <==> Generate(db, id, env).Success?)
      && (st == Failed <==> Generate(db, id, env).Failure?)
  {
    if Generate(db, d.metadataOrderId.value, env).Success? {
      CompletedDelivery(db, d, env);
    } else {
      FailedDelivery(db, d, env);
    }
  }

  /**
   * Update results are not inspected: a verified completed-checkout event
   * leaves its order `processing` exactly when the order got there (or
   * already was there) and the update meant to end the run failed; the
   * provider is answered 200 all the same, so it does not retry.
   */
  lemma StuckInProcessing(db: Db, d: Delivery, env: Env)
    requires Actionable(d) && d.metadataOrderId.value in db.orders
    ensures Respond(d) == Response(200, Received)
    ensures
      var id := d.metadataOrderId.value;
      Deliver(db, d, env).orders[id].status == Processing <==>
        && (env.startUpdateOk || db.orders[id].status == Processing)
        && (if Generate(db, id, env).Success? then !env.completeUpdateOk else !env.failUpdateOk)
  {
    if Generate(db, d.metadataOrderId.value, env).Success? {
      CompletedDelivery(db, d, env);
    } else {
      FailedDelivery(db, d, env);
    }
  }

  /**
   * Upload results are not inspected: with the resume upload failing, a
   * successful completion update still marks the order `completed`, pointing
   * at a path that holds no blob.
   */
  lemma CompletedDespiteFailedUpload(db: Db, d: Delivery, env: Env)
    requires Actionable(d) && Generate(db, d.metadataOrderId.value, env).Success?
    requires !env.resumeUploadOk && env.completeUpdateOk && OptimizedResumePath(d.metadataOrderId.value) !in db.blobs
    ensures
      var r := Deliver(db, d, env).orders[d.metadataOrderId.value];
      && r.status == Completed
      && r.optimizedResumeUrl == Some(OptimizedResumePath(d.metadataOrderId.value))
      && OptimizedResumePath(d.metadataOrderId.value) !in Deliver(db, d, env).blobs
  {
    CompletedDelivery(db, d, env);
  }

  /**
   * Nothing guards the move to `processing`: a redelivered event for a
   * `completed` order runs the pipeline again, and if that run throws and the
   * update to `failed` succeeds, the order ends `failed` while still carrying
   * its output URLs and `completed_at`.
   */
  lemma RedeliveryCanFailCompletedOrder(db: Db, d: Delivery, env: Env)
    requires Actionable(d) && d.metadataOrderId.value in db.orders
    requires db.orders[d.metadataOrderId.value].status == Completed
    requires Generate(db, d.metadataOrderId.value, env).Failure? && env.failUpdateOk
    ensures
      var before := db.orders[d.metadataOrderId.value];
      var after := Deliver(db, d, env).orders[d.metadataOrderId.value];
      && after.status == Failed
      && after.optimizedResumeUrl == before.optimizedResumeUrl
      && after.coverLetterUrl == before.coverLetterUrl
      && after.completedAt == before.completedAt
  {
    FailedDelivery(db, d, env);
  }

  /**
   * Handling the same delivery twice, with the same outside world, leaves the
   * same state as handling it once: the second run writes the same row, and
   * its uploads find both paths taken or fail as the first did.
   */
  lemma RedeliveryIdempotent(db: Db, d: Delivery, env: Env)
    requires Actionable(d)
    ensures Deliver(Deliver(db, d, env), d, env) == Deliver(db, d, env)
  {
    var id := d.metadataOrderId.value;
    if id !in db.orders {
      UnknownOrderUntouched(db, d, env);
    } else if Generate(db, id, env).Failure? {
      RedeliveryAfterFailure(db, d, env);
    } else {
      RedeliveryAfterCompletion(db, d, env);
    }
  }

  /** The redelivery case of an order whose pipeline throws: the same row is written again. */
  lemma RedeliveryAfterFailure(db: Db, d: Delivery, env: Env)
    requires Actionable(d) && d.metadataOrderId.value in db.orders
    requires Generate(db, d.metadataOrderId.value, env).Failure?
    ensures Deliver(Deliver(db, d, env), d, env) == Deliver(db, d, env)
  {
    var once := Deliver(db, d, env);
    FailedDelivery(db, d, env);
    GenerateReadsResumeAndDescription(db, once, d.metadataOrderId.value, env);
    FailedDelivery(once, d, env);
  }

  /**
   * The redelivery case of a completed run: the same row is written again,
   * and the stored resume, which no upload replaces, yields the same text.
   */
  lemma RedeliveryAfterCompletion(db: Db, d: Delivery, env: Env)
    requires Actionable(d) && d.metadataOrderId.value in db.orders
    requires Generate(db, d.metadataOrderId.value, env).Success?
    ensures Deliver(Deliver(db, d, env), d, env) == Deliver(db, d, env)
  {
    var once := Deliver(db, d, env);
    CompletedDelivery(db, d, env);
    GenerateReadsResumeAndDescription(db, once, d.metadataOrderId.value, env);
    CompletedDelivery(once, d, env);
    var twice := Deliver(once, d, env);
    assert twice.orders == once.orders;
    var id, g := d.metadataOrderId.value, Generate(db, d.metadataOrderId.value, env).value;
    UploadsIdempotent(db.blobs, id, g, env);
  }
}
