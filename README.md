# Resume optimizer: order lifecycle, wizard, upload validation and dashboard

This project models, in Dafny, the logic at the heart of a web application that
sells AI-rewritten resumes. A user uploads a resume and a job description. The
application records a `pending` order and sends the user to a hosted checkout.
When the payment provider reports the completed checkout, a webhook generates
the optimized resume and a cover letter, stores both, and marks the order
`completed`; if anything throws on the way, the order is marked `failed`.

The model is split into seven files:

- `wrappers.dfy` holds `Option` and `Result`.
- `database.dfy` (module `Database`) holds the `resume_orders` row and the
  `resumes` storage bucket. The class `Store` holds both as maps and is updated
  in place. Each call to the hosted back end is a method. Whether the service
  reports success is a parameter of the method.
- `stripe_webhook.dfy` (module `StripeWebhook`) models the webhook `POST`
  handler and `processResumeOrder`:
  - `Post` and `ProcessResumeOrder` are methods on a `Store`.
  - Each is proved against a pure function (`Deliver` and `Process`) of the
    store's snapshot.
  - The lemmas state which status moves are possible and which columns and
    blobs each path writes.
- `optimize.dfy` (module `Optimize`) models the order wizard as the class
  `OptimizePage`. Its handlers change the step, the file, the description, the
  `processing` flag and the order id. `HandlePayment` inserts the order,
  uploads the resume and records its path, in that order.
- `file_utils.dfy` (module `FileUtils`) models the upload validator
  `validateFile`: a size limit, then a MIME allow-list, then an extension
  allow-list.
- `dashboard.dfy` (module `Dashboard`) models the dashboard's `fetchOrders`.
  That covers the four numbers it derives, its state updates, and the
  "My Orders" (first five) and "Order History" (all) lists.
- `lifecycle.dfy` (module `Lifecycle`) relates the modules. It holds a table
  invariant that order creation and webhook deliveries both keep, and an
  end-to-end purchase lemma.

Everything outside the code is a parameter:
- whether the signature checks out;
- whether each database or storage call succeeds, the webhook's three
  updates and its load of the order included;
- the id the database assigns to a new row;
- the text extractor and the text generator, as function-valued fields of
  `StripeWebhook.Env`;
- the current time.

## Model

| member | source | states |
|---|---|---|
| FileUtils.ToLower | lib/file-utils.ts:23 | upper-case ASCII letters map to the matching lower-case letter; every other character is unchanged |
| FileUtils.Lower | lib/file-utils.ts:23 | lower-casing keeps the length and lower-cases each character in place |
| FileUtils.LastSegment | lib/file-utils.ts:23 | the result of `split('.').pop()` is the longest suffix without a '.': it holds no '.', it is a suffix, and a '.' precedes it unless it is the whole text |
| FileUtils.Extension | lib/file-utils.ts:23 | the compared extension holds no '.' and no upper-case ASCII letter, and is no longer than the name |
| FileUtils.ExtensionAllowed | lib/file-utils.ts:24 | an accepted extension is non-empty and at most four characters long |
| FileUtils.ValidateFile | lib/file-utils.ts:5-32 | the result is valid exactly when the size is at most 10 MiB, the MIME type is allowed and the extension is allowed; it is valid exactly when it has no error; an oversize file gets the size error; any other rejection gets the type error |
| FileUtils.LastSegmentWithoutDot | lib/file-utils.ts:23 | a name without a '.' is its own last segment |
| FileUtils.LastSegmentAfterDot | lib/file-utils.ts:23 | whatever precedes the last '.', the segment is exactly what follows it |
| FileUtils.LastSegmentIs | lib/file-utils.ts:23-24 | for a non-empty, dot-free `ext`, the last segment is `ext` if and only if the name ends in "." + `ext` or is `ext` |
| FileUtils.LastSegmentFollowsDot | lib/file-utils.ts:23 | a text either is its own last segment or ends in '.' followed by its last segment |
| FileUtils.ExtensionAllowedMeans | lib/file-utils.ts:3-24 | the allow-list test with the '.' prefixed accepts exactly "pdf" and "docx" |
| FileUtils.LastSegmentIsPdf | lib/file-utils.ts:23-24 | the segment is "pdf" exactly when the text ends in ".pdf" or is "pdf" |
| FileUtils.LastSegmentIsDocx | lib/file-utils.ts:23-24 | the segment is "docx" exactly when the text ends in ".docx" or is "docx" |
| FileUtils.LastSegmentAllowedIff | lib/file-utils.ts:23-24 | the extension check passes exactly when the lower-cased name ends in ".pdf" or ".docx" or is exactly "pdf" or "docx" |
| FileUtils.ExtensionAllowedIff | lib/file-utils.ts:23-24 | the same, stated for the raw file name |
| FileUtils.UpperCaseExtensionAccepted | lib/file-utils.ts:23-31 | "CV.PDF" with the PDF MIME type is valid |
| FileUtils.TrailingDotRejected | lib/file-utils.ts:22-29 | a name ending in '.' is rejected with the type error, even with an allowed size and MIME type |
| FileUtils.BareExtensionNameAccepted | lib/file-utils.ts:23-31 | a file named just "pdf" passes, since its whole name is its extension |
| FileUtils.SizeBoundary | lib/file-utils.ts:1-12 | exactly 10 MiB passes the size check; one byte more fails it with the size error |
| Database.Apply | lib/supabase.ts:42-57 | an update writes only its own columns; id, user, amount and the job description never change |
| Database.Updated | app/api/webhook/stripe/route.ts:37-43 | `update(...).eq('id', id)` keeps the set of rows, leaves every other row alone and applies the patch to the row with that id, if there is one |
| Database.Store.constructor | lib/supabase.ts:42-57 | the store starts with the given table and bucket |
| Database.Store.Insert | app/optimize/page.tsx:76-87 | the insert succeeds exactly when the service succeeds and the id is new; then the row is added and returned; the bucket never changes |
| Database.Store.UpdateById | app/optimize/page.tsx:100-107 | on success the table becomes `Updated(old table, id, patch)`; on failure nothing changes |
| Database.Store.SelectSingle | app/api/webhook/stripe/route.ts:65-73 | it returns the row exactly when the service succeeds and the id is in the table |
| Database.Store.Upload | app/optimize/page.tsx:92-97 | the upload succeeds exactly when the service succeeds and nothing is stored at the path yet (no `upsert` option); then the blob is written there; otherwise nothing changes; the table never changes |
| Database.Store.Download | app/api/webhook/stripe/route.ts:76-82 | the download succeeds exactly when a path is set, a blob is stored there and the service succeeds; it then returns that blob |
| StripeWebhook.OptimizedResumePath | app/api/webhook/stripe/route.ts:99 | the optimized resume is stored at the order id, a '/', then the fixed name "optimized-resume.txt" |
| StripeWebhook.CoverLetterPath | app/api/webhook/stripe/route.ts:100 | the cover letter is stored at the order id, a '/', then the fixed name "cover-letter.txt" |
| StripeWebhook.Actionable | app/api/webhook/stripe/route.ts:19-33 | the handler acts exactly when the signature is valid, the event is a completed checkout and the order id is present and non-empty; every such delivery is answered 200 `{received: true}` |
| StripeWebhook.Respond | app/api/webhook/stripe/route.ts:13-60 | the answer is 400 exactly for a bad signature, or for a completed checkout without an order id; a bad signature gets "Invalid signature"; every other delivery gets 200 `{received: true}` |
| StripeWebhook.MissingOrderId | app/api/webhook/stripe/route.ts:30 | `!orderId` lets an order id through exactly when it is present and non-empty |
| StripeWebhook.BlobText | app/api/webhook/stripe/route.ts:95-96 | a present field is stored as is; the stored text is "undefined" exactly when the field is missing or is that word, so the two cannot be told apart |
| StripeWebhook.Generate | app/api/webhook/stripe/route.ts:62-91 | the pipeline fails with "order not found" exactly when the id names no row or the load reports an error; success always carries a generated reply |
| StripeWebhook.Uploads | app/api/webhook/stripe/route.ts:99-108 | no stored blob is replaced; only the two output paths can be added, each only when its upload succeeds; a successful upload to a free path stores the generated text |
| StripeWebhook.Finalize | app/api/webhook/stripe/route.ts:102-119 | after the uploads and the completion update, the set of rows is the same, every other row is unchanged, and the named order is `completed` when the update succeeds and keeps its status otherwise |
| StripeWebhook.Process | app/api/webhook/stripe/route.ts:62-125 | `processResumeOrder` throws exactly when the load, download or generation fails, with that error; otherwise it keeps the set of rows |
| StripeWebhook.Deliver | app/api/webhook/stripe/route.ts:13-60 | a delivery the handler does not act on changes nothing; no row is ever added or removed; every row except the named one is left alone |
| StripeWebhook.ProcessResumeOrder | app/api/webhook/stripe/route.ts:62-125 | if the pipeline throws, the method returns that error and the store is unchanged; otherwise it returns nothing and the store is the state `Process` computes |
| StripeWebhook.Post | app/api/webhook/stripe/route.ts:13-60 | the answer is `Respond(d)`; the new store is `Deliver(old store, d)`, whichever of the three updates fail; a delivery the handler ignores changes nothing |
| StripeWebhook.GenerateReadsResumeAndDescription | app/api/webhook/stripe/route.ts:65-91 | the pipeline's outcome depends only on the order's existence, its resume path and the blob there, and its job description |
| StripeWebhook.OutputPathsDistinct | app/api/webhook/stripe/route.ts:99-100 | the two output paths of an order differ, and different orders have different output paths |
| StripeWebhook.FailedDelivery | app/api/webhook/stripe/route.ts:35-56 | when the pipeline throws, only the named order changes: its status becomes `failed` if that update succeeds, else `processing` if the first update succeeded, else stays; its payment id is recorded when the first update succeeds; its URLs, `completed_at` and every blob are unchanged |
| StripeWebhook.CompletedDelivery | app/api/webhook/stripe/route.ts:35-119 | when the pipeline runs through, whatever the prior status: with a successful completion update the order is `completed` with both output URLs at their fixed paths and `completed_at` set; otherwise it is `processing` if the first update succeeded, else unchanged; the payment id is recorded when the first update succeeds; each successful upload to a free path stores its text; no stored blob is replaced and nothing else is added |
| StripeWebhook.UploadsIdempotent | app/api/webhook/stripe/route.ts:99-108 | running the two uploads a second time leaves the bucket as the first run left it |
| StripeWebhook.UnknownOrderUntouched | app/api/webhook/stripe/route.ts:37-56 | a delivery naming no existing order changes nothing |
| StripeWebhook.DeliveryEndsTerminal | app/api/webhook/stripe/route.ts:35-56 | when the completion and failure updates succeed, an acted-on delivery never leaves the order `processing`: it is `completed` exactly when the pipeline ran through, and `failed` exactly when it threw |
| StripeWebhook.StuckInProcessing | app/api/webhook/stripe/route.ts:35-59 | update results are not read: an acted-on delivery leaves the order `processing` exactly when it was moved there (or already was) and the update meant to end the run failed, and the provider is still answered 200 |
| StripeWebhook.CompletedDespiteFailedUpload | app/api/webhook/stripe/route.ts:102-119 | upload results are not checked: with the resume upload failing and the completion update succeeding, the order is `completed`, and it points at a path that holds no blob |
| StripeWebhook.RedeliveryCanFailCompletedOrder | app/api/webhook/stripe/route.ts:37-56 | nothing guards the move to `processing`: if the redelivered pipeline throws and the failure update succeeds, a `completed` order becomes `failed` and keeps its output URLs and `completed_at` |
| StripeWebhook.RedeliveryIdempotent | app/api/webhook/stripe/route.ts:35-119 | handling the same delivery twice in the same outside world gives the state that handling it once gives |
| StripeWebhook.RedeliveryAfterFailure | app/api/webhook/stripe/route.ts:48-56 | the same, when the pipeline throws |
| StripeWebhook.RedeliveryAfterCompletion | app/api/webhook/stripe/route.ts:99-119 | the same, when the pipeline runs through: the second run's uploads find their paths taken or fail as the first did |
| Optimize.IsJsWhitespace | app/optimize/page.tsx:57 | space, tab, line feed and carriage return are white space to `trim()`; no ASCII letter or digit is |
| Optimize.TrimStart | app/optimize/page.tsx:57 | removing leading white space shortens the text at most, and the result is empty or starts with a non-white-space character |
| Optimize.TrimEnd | app/optimize/page.tsx:57 | removing trailing white space shortens the text at most, and the result is empty or ends with a non-white-space character |
| Optimize.TrimStartDropsWhitespace | app/optimize/page.tsx:57 | what is kept is a suffix, and everything removed is white space |
| Optimize.TrimEndDropsWhitespace | app/optimize/page.tsx:57 | what is kept is a prefix, and everything removed is white space |
| Optimize.Trim | app/optimize/page.tsx:57 | `trim()` never lengthens the text, and its result is empty or ends with a non-white-space character |
| Optimize.TrimmedEnds | app/optimize/page.tsx:57 | a trimmed text is empty or starts and ends with a non-white-space character |
| Optimize.TrimEmptyIffBlank | app/optimize/page.tsx:67 | `!jobDescription.trim()` holds exactly when every character of the description is white space |
| Optimize.NewOrder | app/optimize/page.tsx:76-85 | the inserted row has the given id, user and description, is `pending` at 4900 cents, and has no resume, no payment and no outputs |
| Optimize.ResumePath | app/optimize/page.tsx:92 | the resume path is the order id, a '/', then the file name |
| Optimize.SubmitOrder | app/optimize/page.tsx:74-133 | the `try` block always ends somewhere past the input check |
| Optimize.SubmitOrderEffects | app/optimize/page.tsx:74-133 | each call runs only when every earlier one succeeded: the insert fails exactly when the service fails or the id is taken, and then nothing changes; after a fresh insert the upload fails exactly when the service fails or the path is taken; then the update fails exactly when its service fails; the checkout is reached exactly when all three succeed, and ends as `RedirectedToCheckout` exactly when its steps do not throw too; no existing row changes; the new row is `pending`, for this user, with the description and amount 4900 and no outputs; the resume path `<id>/<file name>` is recorded exactly on the checkout outcomes; the resume is stored exactly when the upload succeeds |
| Optimize.PlaceOrder | app/optimize/page.tsx:64-134 | the payment attempt is refused exactly when there is no file or the description trims to nothing, and a refusal changes nothing |
| Optimize.OptimizePage.constructor | app/optimize/page.tsx:32-36 | the wizard starts on step 1 with no file, an empty description and no order |
| Optimize.OptimizePage.HandleResumeUpload | app/optimize/page.tsx:51-54 | choosing a file on step 1 keeps the file and moves to step 2 |
| Optimize.OptimizePage.SetJobDescription | app/optimize/page.tsx:213-215 | typing on step 2 replaces the description; the text area caps it at 5000 characters |
| Optimize.OptimizePage.HandleJobDescriptionNext | app/optimize/page.tsx:56-62 | below 50 characters after trimming, the step stays 2 and the "more detailed" error is shown; otherwise the step becomes 3 with no error |
| Optimize.OptimizePage.BackToUpload | app/optimize/page.tsx:224 | "Previous" on step 2 goes to step 1 |
| Optimize.OptimizePage.BackToJobDescription | app/optimize/page.tsx:284 | "Previous" on step 3 goes to step 2 |
| Optimize.OptimizePage.HandlePayment | app/optimize/page.tsx:64-134 | the outcome and the new store are those `PlaceOrder` gives; the order id is set once the insert succeeds; on step 3 the attempt is never refused; the "complete all previous steps" error is shown for a refusal, nothing when the checkout steps do not throw (the redirect's result is not read), and the "failed to create order" error otherwise; `processing` is false again afterwards, with the wizard invariant kept |
| Optimize.CreateOrder | app/optimize/page.tsx:74-127 | the insert, upload and update calls on the store end in the state and outcome `SubmitOrder` gives, stopping at the first failure |
| Dashboard.CountStatus | app/dashboard/page.tsx:70-71 | the count of a status is at most the number of orders, and zero exactly when no order has that status |
| Dashboard.TotalSpent | app/dashboard/page.tsx:72 | the `reduce` sum is 0 for no orders and never negative when no amount is |
| Dashboard.ComputeStats | app/dashboard/page.tsx:69-72 | with no data every number is 0; otherwise the total is the number of orders; completed plus pending never exceeds the total |
| Dashboard.Recent | app/dashboard/page.tsx:196 | "My Orders" shows the first min(5, n) orders, in list order |
| Dashboard.StatusCountsPartition | app/dashboard/page.tsx:69-71 | the counts of the four statuses add up to the number of orders |
| Dashboard.CompletedPlusPendingAtMostTotal | app/dashboard/page.tsx:69-71 | completed plus pending is at most the total |
| Dashboard.CountStatusIsMultiplicity | app/dashboard/page.tsx:70-71 | the count of a status is its multiplicity in the multiset of the orders' statuses |
| Dashboard.TotalSpentAppend | app/dashboard/page.tsx:72 | the sum of amounts over two lists is the sum of their sums |
| Dashboard.TotalSpentUniformPrice | app/dashboard/page.tsx:72 | when every order has the same amount, the total spent is that amount times the number of orders |
| Dashboard.DashboardPage.constructor | app/dashboard/page.tsx:35-42 | the page starts with no orders, all-zero numbers and loading on |
| Dashboard.DashboardPage.FetchOrders | app/dashboard/page.tsx:56-85 | on a fetch error the list and the numbers are kept; otherwise the list becomes the rows, or empty when there are none, and the numbers become `ComputeStats` of the rows; loading is off afterwards either way |
| Lifecycle.PlaceOrderPreservesConsistency | app/optimize/page.tsx:76-107 | order creation keeps the table invariant, whichever call fails |
| Lifecycle.DeliverPreservesConsistency | app/api/webhook/stripe/route.ts:35-119 | a webhook delivery keeps the table invariant. The invariant says: each row sits under its own id; output URLs and `completed_at` are set together, at the fixed paths; a `completed` order has them; a `pending` order has none |
| Lifecycle.StatusTransitions | app/api/webhook/stripe/route.ts:37-56 | a delivery changes no status except the named order's; that one, from any prior status, keeps it or ends anywhere but `pending`, and ends `completed` or `failed` when the completion and failure updates succeed |
| Lifecycle.CompletedHasOutputs | app/api/webhook/stripe/route.ts:111-119 | in a consistent table, a `completed` order points at both outputs, at non-empty paths, and has `completed_at` |
| Lifecycle.OutputNamesRefused | app/api/webhook/stripe/route.ts:99-100 | the output file names end in ".txt", which the validator refuses |
| Lifecycle.OptimizedResumeNameIsTxt | app/api/webhook/stripe/route.ts:99 | the extension of "optimized-resume.txt" is "txt" |
| Lifecycle.CoverLetterNameIsTxt | app/api/webhook/stripe/route.ts:100 | the extension of "cover-letter.txt" is "txt" |
| Lifecycle.ValidatedResumeAvoidsOutputPaths | app/optimize/page.tsx:92 | a file whose extension passes the validator's check, as every validated file's does, is never stored at one of its order's output paths |
| Lifecycle.PurchaseThenPayment | app/api/webhook/stripe/route.ts:35-119 | after the wizard reaches the checkout, a payment event for the new order completes it, given working updates, load, download and generator; the completed order has the fixed price, the uploaded resume, both outputs and the session's payment id |
| Lifecycle.PlacedOrderGenerates | app/api/webhook/stripe/route.ts:65-91 | the order the wizard handed to the checkout is generated from the uploaded resume and the entered description |
| Lifecycle.PlacedOrderOutputsFree | app/optimize/page.tsx:92-97 | a purchase attempt with a resume whose extension passes the check, however it ends, leaves the new order's output paths as free as they were |
| Lifecycle.PurchaseStoresOutputs | app/api/webhook/stripe/route.ts:99-108 | for a validated resume, with the output paths free beforehand and both uploads working, the payment event stores the generated resume and cover letter there |

## Behaviour worth knowing

- Nothing guards the move to `processing`. The handler does not check the
  current status before it writes `processing`
  (app/api/webhook/stripe/route.ts:37-43). A redelivered event therefore
  re-runs the pipeline on any order. If that run throws, a `completed` order
  ends `failed` and keeps its output URLs and `completed_at`.
  `StripeWebhook.RedeliveryCanFailCompletedOrder` and
  `Lifecycle.StatusTransitions` state this.
- Upload results are never inspected (app/api/webhook/stripe/route.ts:102-108),
  so a failed upload does not stop the order from being marked `completed`.
  `StripeWebhook.CompletedDespiteFailedUpload` states this.
- The results of the webhook's three updates are never inspected either
  (app/api/webhook/stripe/route.ts:37-43, 52-55, 111-119). When the update
  that should end a run fails, the order stays `processing` and the provider
  still gets 200, so it does not retry. `StripeWebhook.StuckInProcessing`
  states this.
- Uploads pass no `upsert` option, so an upload to a path that already holds a
  blob is refused. A redelivery keeps the first run's outputs even when the
  generator answers differently. `StripeWebhook.Uploads` states this.
- A generator reply that parses but lacks a field is not an error in the code.
  `new Blob([undefined])` stores the text "undefined", so the order completes.
  `StripeWebhook.BlobText` models this.

## Left out

- Page markup, toasts as UI, the step-progress bar and the simulated upload
  progress: presentation only. The toasts' texts are returned as the handlers'
  error values.
- Step 4 ("Processing") of the wizard: it appears only as a title, and no
  handler moves to it.
- The signature scheme inside `constructEvent`: a foreign SDK call, modelled
  as the boolean `signatureValid`.
- The checkout-session request and the redirect: foreign calls, modelled as
  the boolean `checkoutOk`, which says whether they complete without
  throwing. The redirect's result is not read, so a redirect that fails
  without throwing looks the same as one that happens.
- The text generator's prompt and its network call: an oracle. It returns a
  reply or its single error.
- `extractTextFromFile`: an opaque function from blob to text.
- The upload component, which hands `handleResumeUpload` only files the
  validator accepted: it is not part of this model, so the wizard keeps any
  file. `Lifecycle.PurchaseStoresOutputs` takes the validation as a
  hypothesis instead.
- The clock: the completion time is the parameter `now`.
- `formatFileSize` and the price formatting: floating-point display only.
- Client construction, authentication, the auth callback and the build
  configuration: configuration only.
- Concurrent deliveries of the same event: each delivery is handled as one
  atomic step.
- `created_at` and `updated_at`: the database fills them and the modelled code
  never reads them.
- The dashboard query's user filter and its `created_at` ordering: the
  database applies them, and the model takes the rows as they arrive.
- FileUtils.ToLower: lower-cases ASCII letters only. `toLowerCase` also maps
  other scripts' upper-case letters, and none of them can produce "pdf" or
  "docx".
- Optimize.Trim: lengths count code points, not UTF-16 units, so a description
  with characters outside the Basic Multilingual Plane is measured shorter than
  JavaScript measures it.
- Optimize.OptimizePage.SetJobDescription: requires at most 5000 characters,
  because the text area's `maxLength` never yields more.
- Dashboard.ComputeStats: amounts are unbounded integers. JavaScript numbers
  lose precision above 2^53, but cent sums in practice stay far below that.
