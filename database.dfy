/**
 * The hosted back end as the application sees it (lib/supabase.ts): the
 * `resume_orders` table, keyed by order id, and the `resumes` storage bucket,
 * keyed by path. Every call takes the outcome the service reports as a
 * parameter, since the service itself is not part of this model.
 */
module Database {
  import opened Wrappers

  type OrderId = string
  type UserId = string
  type Path = string
  type Blob = string
  type Timestamp = string

  datatype Status = Pending | Processing | Completed | Failed

  /**
   * One row of `resume_orders`. `created_at` and `updated_at` are filled in by
   * the database and never read by the modelled code, so they are not kept.
   */
  datatype Order = Order(
    id: OrderId,
    userId: UserId,
    status: Status,
    originalResumeUrl: Option<Path>,
    jobDescription: Option<string>,
    jobDescriptionUrl: Option<Path>,
    optimizedResumeUrl: Option<Path>,
    coverLetterUrl: Option<Path>,
    stripePaymentId: Option<string>,
    amount: int,
    completedAt: Option<Timestamp>)

  /** The column sets written by the application's `update({...})` calls. */
  datatype Patch =
    | StartProcessing(paymentId: Option<string>)
    | MarkFailed
    | MarkCompleted(resumeUrl: Path, letterUrl: Path, at: Timestamp)
    | AttachResume(url: Path)

  /** The row after an update: the listed columns take the new values, all others keep theirs. */
  function Apply(o: Order, p: Patch): (r: Order)
    ensures r.id == o.id && r.userId == o.userId && r.amount == o.amount
    ensures r.jobDescription == o.jobDescription && r.jobDescriptionUrl == o.jobDescriptionUrl
    ensures !p.AttachResume? ==> r.originalResumeUrl == o.originalResumeUrl
    ensures !p.MarkCompleted? ==> r.optimizedResumeUrl == o.optimizedResumeUrl && r.coverLetterUrl == o.coverLetterUrl && r.completedAt == o.completedAt
    ensures !p.StartProcessing? ==> r.stripePaymentId == o.stripePaymentId
    ensures p.AttachResume? ==> r.status == o.status
  {
    match p
    case StartProcessing(pid) => o.(status := Processing, stripePaymentId := pid)
    case MarkFailed => o.(status := Failed)
    case MarkCompleted(resumeUrl, letterUrl, at) =>
      o.(status := Completed, optimizedResumeUrl := Some(resumeUrl), coverLetterUrl := Some(letterUrl), completedAt := Some(at))
    case AttachResume(url) => o.(originalResumeUrl := Some(url))
  }

  /** `update(patch).eq('id', id)`: only the row with that id changes; no row, no change. */
  function Updated(orders: map<OrderId, Order>, id: OrderId, p: Patch): (r: map<OrderId, Order>)
    ensures r.Keys == orders.Keys
    ensures forall k :: k in orders && k != id ==> r[k] == orders[k]
    ensures id in orders ==> r[id] == Apply(orders[id], p)
  {
    if id in orders then orders[id := Apply(orders[id], p)] else orders
  }

  /** A snapshot of both stores. */
  datatype Db = Db(orders: map<OrderId, Order>, blobs: map<Path, Blob>)

  /** The table and the bucket, updated in place by the application's calls. */
  class Store {
    var orders: map<OrderId, Order>
    var blobs: map<Path, Blob>

    constructor (orders0: map<OrderId, Order>, blobs0: map<Path, Blob>)
      ensures orders == orders0 && blobs == blobs0
    {
      orders := orders0;
      blobs := blobs0;
    }

    function Snapshot(): Db
      reads this
    {
      Db(orders, blobs)
    }

    /**
     * `insert(row).select().single()`: the row is stored and returned, unless
     * the service reports an error or the id is already taken.
     */
    method Insert(row: Order, succeeds: bool) returns (r: Option<Order>)
      modifies this
      ensures r.Some? <==> succeeds && row.id !in old(orders)
      ensures r.Some? ==> r.value == row && orders == old(orders)[row.id := row]
      ensures r.None? ==> orders == old(orders)
      ensures blobs == old(blobs)
    {
      if succeeds && row.id !in orders {
        orders := orders[row.id := row];
        r := Some(row);
      } else {
        r := None;
      }
    }

    /** `update(patch).eq('id', id)`, which writes only when the service reports success. */
    method UpdateById(id: OrderId, p: Patch, succeeds: bool) returns (ok: bool)
      modifies this
      ensures ok == succeeds
      ensures orders == if succeeds then Updated(old(orders), id, p) else old(orders)
      ensures blobs == old(blobs)
    {
      if succeeds {
        orders := Updated(orders, id, p);
      }
      ok := succeeds;
    }

    /**
     * `select('*').eq('id', id).single()`: the row, or an error when there is
     * none or the service reports one.
     */
    method SelectSingle(id: OrderId, succeeds: bool) returns (r: Option<Order>)
      ensures r.Some? <==> succeeds && id in orders
      ensures r.Some? ==> r.value == orders[id]
    {
      r := if succeeds && id in orders then Some(orders[id]) else None;
    }

    /**
     * `storage.upload(path, contents)` without the `upsert` option: the blob
     * is written when the service reports success and nothing is stored at
     * that path yet; an existing blob is never replaced.
     */
    method Upload(path: Path, contents: Blob, succeeds: bool) returns (ok: bool)
      modifies this
      ensures ok <==> succeeds && path !in old(blobs)
      ensures blobs == if ok then old(blobs)[path := contents] else old(blobs)
      ensures orders == old(orders)
    {
      ok := succeeds && path !in blobs;
      if ok {
        blobs := blobs[path := contents];
      }
    }

    /**
     * `storage.download(path)`: fails when the path is unset, names no blob,
     * or the service reports an error.
     */
    method Download(path: Option<Path>, succeeds: bool) returns (r: Option<Blob>)
      ensures r.Some? <==> path.Some? && path.value in blobs && succeeds
      ensures r.Some? ==> r.value == blobs[path.value]
    {
      r := if path.Some? && path.value in blobs && succeeds then Some(blobs[path.value]) else None;
    }
  }
}
