/**
 * The path of one draft to one eBay listing, as a transition system: preparation, inventory sync, offer and fee
 * preview, approval, publication, revision, withdrawal and reconciliation (inventory-preparation-service.ts,
 * ebay-inventory-sync-service.ts, ebay-offer-service.ts, ebay-listing-operation-service.ts).
 *
 * Every guarded update and every transaction is one step.  Between two steps anything else may happen: draft writers,
 * other requests, other runners, crashes, expired leases.  A step whose condition fails leaves the state as it is, so
 * every sequence of steps is a run.
 */
module ListingProtocol {
  import opened Wrappers
  import Drafts

  const SKU := "SKU"
  const MARKETPLACE := "EBAY_US"

  // ----- payloads

  datatype Payload = Payload(
    sku: string, marketplace: string, quantity: int, categoryId: string, location: string,
    payment: string, refund: string, fulfillment: string, currency: string, price: int)

  predicate Missing(x: Option<string>) {
    x.None? || x.value == ""
  }

  /** The payload of an offer, or nothing when the draft lacks category, price, policies or location. */
  function BuildOfferPayload(c: Drafts.Content): Option<Payload> {
    if Missing(c.categoryId) || c.price.None? || Missing(c.paymentPolicyId) || Missing(c.returnPolicyId)
       || Missing(c.shippingPolicyId) || Missing(c.merchantLocationKey) then None
    else Some(Payload(SKU, MARKETPLACE, c.quantity, c.categoryId.value, c.merchantLocationKey.value,
                      c.paymentPolicyId.value, c.returnPolicyId.value, c.shippingPolicyId.value, c.currency, c.price.value))
  }

  /** A draft has a payload if and only if it can be offered, and two drafts have the same one if and only if they agree on
   *  everything that eBay is told. */
  lemma PayloadTellsTheDraft(a: Drafts.Content, b: Drafts.Content)
    requires BuildOfferPayload(a).Some? && BuildOfferPayload(b).Some?
    ensures a.price.Some? && a.categoryId.Some? && a.merchantLocationKey.Some?
            && a.paymentPolicyId.Some? && a.returnPolicyId.Some? && a.shippingPolicyId.Some?
    ensures BuildOfferPayload(a) == BuildOfferPayload(b) <==>
              && a.categoryId == b.categoryId && a.quantity == b.quantity && a.price == b.price && a.currency == b.currency
              && a.paymentPolicyId == b.paymentPolicyId && a.returnPolicyId == b.returnPolicyId
              && a.shippingPolicyId == b.shippingPolicyId && a.merchantLocationKey == b.merchantLocationKey
  {
  }

  /** The controlled fields in which a remote payload differs from the local one. */
  function OfferDrift(local: Payload, remote: Payload): seq<string> {
    (if local.sku == remote.sku then [] else ["sku"])
    + (if local.marketplace == remote.marketplace then [] else ["marketplaceId"])
    + (if local.categoryId == remote.categoryId then [] else ["categoryId"])
    + (if local.quantity == remote.quantity then [] else ["availableQuantity"])
    + (if local.location == remote.location then [] else ["merchantLocationKey"])
    + (if local.payment == remote.payment then [] else ["paymentPolicyId"])
    + (if local.refund == remote.refund then [] else ["returnPolicyId"])
    + (if local.fulfillment == remote.fulfillment then [] else ["fulfillmentPolicyId"])
    + (if local.currency == remote.currency then [] else ["price.currency"])
    + (if local.price == remote.price then [] else ["price.value"])
  }

  /** No drift means the same payload, so an offer that is PUBLISHED after a revision shows what was requested. */
  lemma NoDriftMeansEqual(local: Payload, remote: Payload)
    ensures OfferDrift(local, remote) == [] <==> local == remote
  {
  }

  // ----- rows

  datatype OfferStatus =
    | Preparing | FeesReady | PublishQueued | Published | RevisionQueued | WithdrawQueued | Withdrawn | Drifted | OfferFailed

  /** The local offer row; the flags stand for a stored fee response, an approval time, a publication time, drift issues. */
  datatype Offer = Offer(
    version: nat, payload: Payload, status: OfferStatus, remoteId: Option<int>, listingId: Option<int>,
    feesStored: bool, approved: bool, publishedBefore: bool, drifted: bool)

  datatype Action = Prepare | Publish | Revise | Withdraw | Reconcile

  datatype JobStatus = Queued | Running | Completed | Failed

  /** Offer jobs are unique per action and version; listing operation jobs are numbered. */
  datatype JobRef = OfferJob(action: Action, version: nat) | OperationJob(number: nat)

  datatype Job = Job(action: Action, target: nat, payload: Option<Payload>, status: JobStatus, owner: Option<nat>)

  datatype SyncStatus = SyncQueued | SyncRunning(checked: bool) | SyncCompleted | SyncFailed

  datatype Approval = Approval(price: int, currency: string)

  // ----- eBay

  /** eBay's offer for the SKU: the last listing it shows, whether it is published, whether the listing is live. */
  datatype RemoteOffer = RemoteOffer(id: int, payload: Payload, listing: Option<int>, published: bool, live: bool)

  /** eBay's side; the counters record how often a write took effect or was sent when it should not have been. */
  datatype Remote = Remote(
    offer: Option<RemoteOffer>, nextId: int, lastListing: Option<int>,
    creations: nat, publications: nat, endings: nat, extraCreates: nat, extraPublishes: nat)

  /** A remote or database call works, takes effect but reports an error, or fails without effect. */
  datatype Reply = Good | EffectThenError | NoEffect

  // ----- requests in flight

  datatype Request =
    | PrepareRead(version: nat, payload: Payload)
    | PrepareStored(version: nat)
    | PublishRead(version: nat)
    | PublishStored(version: nat)
    | ResetPending(job: JobRef)
    | ReviseRead(version: nat, payload: Payload)
    | WithdrawRead(version: nat)
    | ReconcileRead(version: nat)

  // ----- runners

  /** Where a runner is; the arguments are what it has read so far. */
  datatype Pc =
    | Claimed
    | UpdatingPrepared(payload: Payload, id: int) | Finding(payload: Payload) | Creating(payload: Payload) | FindingAgain
    | Recording(id: int) | AskingFees | StoringFees
    | CheckingListing(id: int) | Publishing(id: int) | CheckingAgain(id: int) | StoringListing(listing: int)
    | CheckingLive(version: nat, payload: Payload) | Updating(version: nat, payload: Payload)
    | ReadingBack(version: nat, payload: Payload) | StoringRevision(version: nat, payload: Payload, drifted: bool)
    | ReadingWithdrawn | Withdrawing | CheckingWithdrawn | ReadingFinal | StoringWithdrawal
    | ReadingRemote(payload: Payload, known: Option<int>)
    | StoringReconciliation(status: OfferStatus, shown: Option<int>, drifted: bool)
    | Finishing | Aborting | CleaningUp(found: bool, drifts: bool)

  datatype RunKey = RunKey(worker: nat, job: JobRef)

  // ----- the whole state

  /** How runners may overlap: not at all per offer, not at all per job, or only by different workers. */
  datatype Overlap = OneRunnerPerOffer | OneRunnerPerJob | AnyRunners

  /** With atomic requests nothing happens between a request's reads and its first write. */
  datatype Config = Config(atomicRequests: bool, overlap: Overlap)

  /** `queuedBy` and `blind` are records that only the proofs use: the operation that last queued the offer, and the jobs
   *  that an error handler failed without finding their offer. */
  datatype State = State(
    config: Config,
    draft: Drafts.State,
    approval: Option<Approval>,
    prepared: set<nat>,
    syncs: map<nat, SyncStatus>,
    offer: Option<Offer>,
    jobs: map<JobRef, Job>,
    nextJob: nat,
    queuedBy: nat,
    blind: set<JobRef>,
    requests: map<nat, Request>,
    open: Option<nat>,
    runs: map<RunKey, Pc>,
    remote: Remote)

  function Init(config: Config, content: Drafts.Content, ready: bool): State {
    State(config, Drafts.Init(content, ready), None, {}, map[], None, map[], 0, 0, {}, map[], None, map[],
          Remote(None, 0, None, 0, 0, 0, 0, 0))
  }

  datatype Step =
    | DraftStep(step: Drafts.Step)
    | Decide(approval: Option<Approval>)
    | StorePreparation(version: nat)
    | QueueSync(version: nat) | ClaimSync(version: nat) | CheckSync(version: nat) | FinishSync(version: nat, ok: bool) | ReclaimSync(version: nat)
    | BeginPrepare(request: nat) | StoreOffer(request: nat) | StorePrepareJob(request: nat)
    | BeginPublish(request: nat) | StoreApproval(request: nat) | StorePublishJob(request: nat)
    | ResetJob(request: nat)
    | BeginRevise(request: nat) | StoreRevisionJob(request: nat)
    | BeginWithdraw(request: nat) | StoreWithdrawalJob(request: nat)
    | BeginReconcile(request: nat) | StoreReconciliationJob(request: nat)
    | DropRequest(request: nat)
    | Claim(worker: nat, job: JobRef) | ClaimLost(worker: nat, job: JobRef)
    | Advance(worker: nat, job: JobRef, reply: Reply) | Crash(worker: nat, job: JobRef)
    | Reclaim(job: JobRef) | RetryReconciliation(job: JobRef)
    | ListingEnds | ListingForgotten

  // ----- guards

  predicate DraftIsLive(s: State) {
    s.draft.row.ready && s.draft.row.live
  }

  predicate SyncedAt(s: State, version: nat) {
    version in s.syncs && s.syncs[version].SyncCompleted?
  }

  /** The listing price must match the current approval, to the cent and in the same currency. */
  predicate PriceApproved(s: State, content: Drafts.Content) {
    && s.approval.Some? && content.price.Some?
    && content.price.value == s.approval.value.price && content.currency == s.approval.value.currency
  }

  predicate Active(job: Job) {
    job.status.Queued? || job.status.Running?
  }

  predicate NoActiveOperation(s: State) {
    forall j :: j in s.jobs && j.OperationJob? ==> !Active(s.jobs[j])
  }

  predicate MayPrepare(s: State) {
    && SyncedAt(s, s.draft.version) && DraftIsLive(s)
    && PriceApproved(s, s.draft.row.content)
    && BuildOfferPayload(s.draft.row.content).Some?
    && (s.offer.Some? ==> !s.offer.value.status.Published? && !s.offer.value.approved)
  }

  predicate MayPublish(s: State) {
    && s.offer.Some? && s.offer.value.status.FeesReady? && s.offer.value.remoteId.Some? && s.offer.value.feesStored
    && s.draft.version == s.offer.value.version && DraftIsLive(s)
    && SyncedAt(s, s.offer.value.version)
    && PriceApproved(s, s.draft.row.content)
  }

  predicate MayRevise(s: State) {
    && s.offer.Some? && s.offer.value.status.Published? && s.offer.value.remoteId.Some? && s.offer.value.listingId.Some?
    && SyncedAt(s, s.draft.version) && s.draft.version > s.offer.value.version && DraftIsLive(s)
    && PriceApproved(s, s.draft.row.content)
    && BuildOfferPayload(s.draft.row.content).Some?
    && NoActiveOperation(s)
  }

  predicate MayWithdraw(s: State) {
    && s.offer.Some? && (s.offer.value.status.Published? || s.offer.value.status.Drifted?)
    && s.offer.value.remoteId.Some? && s.offer.value.listingId.Some?
    && NoActiveOperation(s)
  }

  predicate MayReconcile(s: State) {
    && s.offer.Some? && s.offer.value.remoteId.Some?
    && (s.offer.value.publishedBefore || s.offer.value.listingId.Some?)
    && NoActiveOperation(s)
  }

  // ----- requests

  function Begin(s: State, id: nat, request: Request): State {
    s.(requests := s.requests[id := request], open := Some(id))
  }

  function Close(s: State, id: nat): State {
    s.(requests := s.requests - {id}, open := None)
  }

  /** A request's first write closes its window; later writes belong to the same request. */
  function Move(s: State, id: nat, request: Request): State {
    s.(requests := s.requests[id := request], open := None)
  }

  function StoredOffer(offer: Option<Offer>, version: nat, payload: Payload): Offer {
    match offer
    case None => Offer(version, payload, Preparing, None, None, false, false, false, false)
    case Some(o) => o.(version := version, payload := payload, status := Preparing, feesStored := false, approved := false)
  }

  /** Insert the job unless it exists; a failed one still has to be reset by a separate write. */
  function UpsertJob(s: State, id: nat, action: Action, version: nat): State {
    var ref := OfferJob(action, version);
    if ref !in s.jobs then Close(s.(jobs := s.jobs[ref := Job(action, version, None, Queued, None)]), id)
    else if s.jobs[ref].status.Failed? then Move(s, id, ResetPending(ref))
    else Close(s, id)
  }

  function QueueOperation(s: State, id: nat, status: OfferStatus, job: Job): State
    requires s.offer.Some?
  {
    Close(s.(offer := Some(s.offer.value.(status := status)), jobs := s.jobs[OperationJob(s.nextJob) := job],
             nextJob := s.nextJob + 1, queuedBy := s.nextJob), id)
  }

  function RequestStep(s: State, step: Step): (t: State)
    ensures t == s.(offer := t.offer, jobs := t.jobs, nextJob := t.nextJob, queuedBy := t.queuedBy,
                    requests := t.requests, open := t.open)
  {
    match step
    case BeginPrepare(id) =>
      if id in s.requests || !MayPrepare(s) then s
      else Begin(s, id, PrepareRead(s.draft.version, BuildOfferPayload(s.draft.row.content).value))
    case StoreOffer(id) =>
      if id !in s.requests || !s.requests[id].PrepareRead? then s
      else
        var r := s.requests[id];
        Move(WithOffer(s, StoredOffer(s.offer, r.version, r.payload)), id, PrepareStored(r.version))
    case StorePrepareJob(id) =>
      if id !in s.requests || !s.requests[id].PrepareStored? then s
      else UpsertJob(s, id, Prepare, s.requests[id].version)
    case BeginPublish(id) =>
      if id in s.requests || !MayPublish(s) then s else Begin(s, id, PublishRead(s.offer.value.version))
    case StoreApproval(id) =>
      if id !in s.requests || !s.requests[id].PublishRead? || s.offer.None? then s
      else Move(WithOffer(s, s.offer.value.(status := PublishQueued, approved := true)), id,
                PublishStored(s.requests[id].version))
    case StorePublishJob(id) =>
      if id !in s.requests || !s.requests[id].PublishStored? then s
      else UpsertJob(s, id, Publish, s.requests[id].version)
    case ResetJob(id) =>
      if id !in s.requests || !s.requests[id].ResetPending? || s.requests[id].job !in s.jobs then s
      else
        var ref := s.requests[id].job;
        Close(s.(jobs := s.jobs[ref := s.jobs[ref].(status := Queued, owner := None)]), id)
    case BeginRevise(id) =>
      if id in s.requests || !MayRevise(s) then s
      else Begin(s, id, ReviseRead(s.draft.version, BuildOfferPayload(s.draft.row.content).value))
    case StoreRevisionJob(id) =>
      if id !in s.requests || !s.requests[id].ReviseRead? || s.offer.None? then s
      else QueueOperation(s, id, RevisionQueued, Job(Revise, s.requests[id].version, Some(s.requests[id].payload), Queued, None))
    case BeginWithdraw(id) =>
      if id in s.requests || !MayWithdraw(s) then s else Begin(s, id, WithdrawRead(s.offer.value.version))
    case StoreWithdrawalJob(id) =>
      if id !in s.requests || !s.requests[id].WithdrawRead? || s.offer.None? then s
      else QueueOperation(s, id, WithdrawQueued, Job(Withdraw, s.requests[id].version, None, Queued, None))
    case BeginReconcile(id) =>
      if id in s.requests || !MayReconcile(s) then s else Begin(s, id, ReconcileRead(s.offer.value.version))
    case StoreReconciliationJob(id) =>
      if id !in s.requests || !s.requests[id].ReconcileRead? || s.offer.None? then s
      else Close(s.(jobs := s.jobs[OperationJob(s.nextJob) := Job(Reconcile, s.requests[id].version, None, Queued, None)],
                    nextJob := s.nextJob + 1), id)
    case DropRequest(id) => if s.open == Some(id) then Close(s, id) else s.(requests := s.requests - {id})
    case _ => s
  }

  // ----- preparation and inventory sync

  function SyncStep(s: State, step: Step): (t: State)
    ensures t == s.(prepared := t.prepared, syncs := t.syncs)
  {
    match step
    case StorePreparation(v) =>
      if v in s.draft.committed && s.draft.committed[v].ready && s.draft.committed[v].live
      then s.(prepared := s.prepared + {v}) else s
    case QueueSync(v) =>
      if v in s.prepared && (v !in s.syncs || s.syncs[v].SyncFailed?) then s.(syncs := s.syncs[v := SyncQueued]) else s
    case ClaimSync(v) =>
      if v in s.syncs && s.syncs[v].SyncQueued? then s.(syncs := s.syncs[v := SyncRunning(false)]) else s
    case CheckSync(v) =>
      if v in s.syncs && s.syncs[v].SyncRunning?
      then s.(syncs := s.syncs[v := if s.draft.version == v && DraftIsLive(s) then SyncRunning(true) else SyncFailed])
      else s
    case FinishSync(v, ok) =>
      if v in s.syncs && s.syncs[v].SyncRunning? && (ok ==> s.syncs[v].checked)
      then s.(syncs := s.syncs[v := if ok then SyncCompleted else SyncFailed]) else s
    case ReclaimSync(v) =>
      if v in s.syncs && s.syncs[v].SyncRunning? then s.(syncs := s.syncs[v := SyncQueued]) else s
    case _ => s
  }

  // ----- runners

  predicate MayClaim(s: State, worker: nat, job: JobRef) {
    match s.config.overlap
    case OneRunnerPerOffer => s.runs == map[]
    case OneRunnerPerJob => forall k :: k in s.runs ==> k.job != job
    case AnyRunners => RunKey(worker, job) !in s.runs
  }

  function Goto(s: State, k: RunKey, pc: Pc): State {
    s.(runs := s.runs[k := pc])
  }

  /** After a database write: go on if it was acknowledged, otherwise to the error handler. */
  function AfterWrite(s: State, t: State, k: RunKey, reply: Reply, pc: Pc): State {
    match reply
    case Good => Goto(t, k, pc)
    case EffectThenError => Goto(t, k, Aborting)
    case NoEffect => Goto(s, k, Aborting)
  }

  function WithOffer(s: State, offer: Offer): State {
    s.(offer := Some(offer))
  }

  function WithRemoteOffer(s: State, offer: RemoteOffer): State {
    s.(remote := s.remote.(offer := Some(offer)))
  }

  /** eBay only reports offers that are not published when it is asked by SKU. */
  function FindBySku(remote: Remote): Option<int> {
    if remote.offer.Some? && !remote.offer.value.published then Some(remote.offer.value.id) else None
  }

  /** What the runner does after reading its job, the offer, the draft and the sync. */
  function Load(s: State, job: Job): Pc {
    if s.offer.None? then Aborting
    else
      var o := s.offer.value;
      match job.action
      case Prepare => if o.remoteId.Some? then UpdatingPrepared(o.payload, o.remoteId.value) else Finding(o.payload)
      case Publish =>
        if o.remoteId.None? || !o.status.PublishQueued? || !o.approved then Aborting
        else if s.draft.version != o.version || !s.draft.row.live then Aborting
        else CheckingListing(o.remoteId.value)
      case Revise =>
        if o.remoteId.None? || job.payload.None? then Aborting
        else if s.draft.version != job.target || !DraftIsLive(s) || !SyncedAt(s, job.target) then Aborting
        else CheckingLive(job.target, job.payload.value)
      case Withdraw => if o.remoteId.None? then Aborting else ReadingWithdrawn
      case Reconcile => if o.remoteId.None? then Aborting else ReadingRemote(o.payload, o.listingId)
  }

  function CreateRemote(r: Remote, payload: Payload): Remote {
    if r.offer.Some? then r.(extraCreates := r.extraCreates + 1)
    else r.(offer := Some(RemoteOffer(r.nextId, payload, None, false, false)), nextId := r.nextId + 1, creations := r.creations + 1)
  }

  function PublishRemote(r: Remote): Remote {
    if r.offer.None? then r
    else if r.offer.value.listing.Some? then r.(extraPublishes := r.extraPublishes + 1)
    else r.(offer := Some(r.offer.value.(listing := Some(r.nextId), published := true, live := true)), nextId := r.nextId + 1,
            lastListing := Some(r.nextId), publications := r.publications + 1)
  }

  function EndRemote(r: Remote, published: bool): Remote {
    if r.offer.None? then r
    else r.(offer := Some(r.offer.value.(published := published, live := false)),
            endings := if r.offer.value.live then r.endings + 1 else r.endings)
  }

  function PrepareRun(s: State, k: RunKey, pc: Pc, reply: Reply): (t: State)
    ensures t == s.(offer := t.offer, runs := t.runs, remote := t.remote)
  {
    match pc
    case UpdatingPrepared(payload, id) =>
      if s.remote.offer.None? || s.remote.offer.value.id != id then Goto(s, k, Aborting)
      else AfterWrite(s, WithRemoteOffer(s, s.remote.offer.value.(payload := payload)), k, reply, AskingFees)
    case Finding(payload) =>
      if !reply.Good? then Goto(s, k, Aborting)
      else (match FindBySku(s.remote) case Some(id) => Goto(s, k, Recording(id)) case None => Goto(s, k, Creating(payload)))
    case Creating(payload) =>
      if reply.NoEffect? then Goto(s, k, FindingAgain)
      else
        var t := s.(remote := CreateRemote(s.remote, payload));
        if reply.EffectThenError? || s.remote.offer.Some? then Goto(t, k, FindingAgain)
        else Goto(t, k, Recording(s.remote.nextId))
    case FindingAgain =>
      if reply.Good? && FindBySku(s.remote).Some? then Goto(s, k, Recording(FindBySku(s.remote).value))
      else Goto(s, k, Aborting)
    case Recording(id) =>
      if s.offer.None? then Goto(s, k, Aborting)
      else AfterWrite(s, WithOffer(s, s.offer.value.(remoteId := Some(id))), k, reply, AskingFees)
    case AskingFees => Goto(s, k, if reply.Good? then StoringFees else Aborting)
    case StoringFees =>
      if s.offer.None? then Goto(s, k, Aborting)
      else AfterWrite(s, WithOffer(s, s.offer.value.(status := FeesReady, feesStored := true)), k, reply, Finishing)
    case _ => s
  }

  function PublishRun(s: State, k: RunKey, pc: Pc, reply: Reply): (t: State)
    ensures t == s.(offer := t.offer, runs := t.runs, remote := t.remote)
  {
    match pc
    case CheckingListing(id) =>
      if !reply.Good? || s.remote.offer.None? then Goto(s, k, Aborting)
      else if s.remote.offer.value.listing.Some? then Goto(s, k, StoringListing(s.remote.offer.value.listing.value))
      else Goto(s, k, Publishing(id))
    case Publishing(id) =>
      if reply.NoEffect? then Goto(s, k, CheckingAgain(id))
      else
        var t := s.(remote := PublishRemote(s.remote));
        if reply.EffectThenError? || s.remote.offer.None? || s.remote.offer.value.listing.Some? then Goto(t, k, CheckingAgain(id))
        else Goto(t, k, StoringListing(s.remote.nextId))
    case CheckingAgain(id) =>
      if reply.Good? && s.remote.offer.Some? && s.remote.offer.value.listing.Some?
      then Goto(s, k, StoringListing(s.remote.offer.value.listing.value))
      else Goto(s, k, Aborting)
    case StoringListing(listing) =>
      if s.offer.None? then Goto(s, k, Aborting)
      else AfterWrite(s, WithOffer(s, s.offer.value.(status := Published, listingId := Some(listing), publishedBefore := true)),
                      k, reply, Finishing)
    case _ => s
  }

  function ReviseRun(s: State, k: RunKey, pc: Pc, reply: Reply): (t: State)
    ensures t == s.(offer := t.offer, runs := t.runs, remote := t.remote)
  {
    match pc
    case CheckingLive(v, payload) =>
      Goto(s, k, if reply.Good? && s.remote.offer.Some? && s.remote.offer.value.live then Updating(v, payload) else Aborting)
    case Updating(v, payload) =>
      if s.remote.offer.None? then Goto(s, k, Aborting)
      else AfterWrite(s, WithRemoteOffer(s, s.remote.offer.value.(payload := payload)), k, reply, ReadingBack(v, payload))
    case ReadingBack(v, payload) =>
      if !reply.Good? || s.remote.offer.None? then Goto(s, k, Aborting)
      else Goto(s, k, StoringRevision(v, payload, OfferDrift(payload, s.remote.offer.value.payload) != []))
    case StoringRevision(v, payload, drifted) =>
      if s.offer.None? then Goto(s, k, Aborting)
      else AfterWrite(s, WithOffer(s, s.offer.value.(version := v, payload := payload, drifted := drifted,
                                                     status := if drifted then Drifted else Published)), k, reply, Finishing)
    case _ => s
  }

  function WithdrawRun(s: State, k: RunKey, pc: Pc, reply: Reply): (t: State)
    ensures t == s.(offer := t.offer, runs := t.runs, remote := t.remote)
  {
    match pc
    case ReadingWithdrawn =>
      if !reply.Good? || s.remote.offer.None? then Goto(s, k, Aborting)
      else Goto(s, k, if s.remote.offer.value.live then Withdrawing else StoringWithdrawal)
    case Withdrawing =>
      if reply.NoEffect? then Goto(s, k, CheckingWithdrawn)
      else Goto(s.(remote := EndRemote(s.remote, false)), k, if reply.Good? then ReadingFinal else CheckingWithdrawn)
    case CheckingWithdrawn =>
      if !reply.Good? || s.remote.offer.None? || s.remote.offer.value.live then Goto(s, k, Aborting)
      else Goto(s, k, ReadingFinal)
    case ReadingFinal => Goto(s, k, if reply.Good? then StoringWithdrawal else Aborting)
    case StoringWithdrawal =>
      if s.offer.None? then Goto(s, k, Aborting)
      else AfterWrite(s, WithOffer(s, s.offer.value.(status := Withdrawn, drifted := false)), k, reply, Finishing)
    case _ => s
  }

  /** The status that a snapshot of the remote offer stands for. */
  function ResolvedStatus(live: bool, drifted: bool): OfferStatus {
    if live then (if drifted then Drifted else Published) else Withdrawn
  }

  function ReconcileRun(s: State, k: RunKey, pc: Pc, reply: Reply): (t: State)
    ensures t == s.(offer := t.offer, runs := t.runs, remote := t.remote)
  {
    match pc
    case ReadingRemote(payload, known) =>
      if !reply.Good? || s.remote.offer.None? then Goto(s, k, Aborting)
      else
        var r := s.remote.offer.value;
        var drifted := OfferDrift(payload, r.payload) != [];
        Goto(s, k, StoringReconciliation(ResolvedStatus(r.live, drifted), if r.listing.Some? then r.listing else known, drifted))
    case StoringReconciliation(status, shown, drifted) =>
      if s.offer.None? then Goto(s, k, Aborting)
      else AfterWrite(s, WithOffer(s, s.offer.value.(status := status, listingId := shown, drifted := drifted)), k, reply, Finishing)
    case _ => s
  }

  /** Does the runner still hold the lease of the running job? */
  predicate Holds(s: State, k: RunKey) {
    k.job in s.jobs && s.jobs[k.job].status.Running? && s.jobs[k.job].owner == Some(k.worker)
  }

  /** A write to the job row that only the holder of the lease can make. */
  function Release(s: State, k: RunKey, status: JobStatus): State {
    if Holds(s, k) then s.(jobs := s.jobs[k.job := s.jobs[k.job].(status := status, owner := None)]) else s
  }

  function RemoveRun(s: State, k: RunKey): State {
    s.(runs := s.runs - {k})
  }

  /** The status that the error handler leaves on the offer. */
  function AbortedStatus(o: Offer, action: Action, drifts: bool): OfferStatus {
    match action
    case Prepare => OfferFailed
    case Publish => FeesReady
    case Revise => Published
    case Withdraw => if drifts then Drifted else Published
    case Reconcile => o.status
  }

  /** The error handler touches the offer whether or not the runner holds the lease, but only if it found the job. */
  function CleanUp(s: State, k: RunKey, found: bool, drifts: bool): State {
    var t := Release(s, k, Failed);
    if found && s.offer.Some? && k.job in s.jobs
    then WithOffer(t, s.offer.value.(status := AbortedStatus(s.offer.value, s.jobs[k.job].action, drifts)))
    else if Holds(s, k) then t.(blind := t.blind + {k.job}) else t
  }

  function EndRun(s: State, k: RunKey, pc: Pc, reply: Reply): (t: State)
    ensures t == s.(offer := t.offer, jobs := t.jobs, blind := t.blind, runs := t.runs)
  {
    match pc
    case Finishing =>
      (match reply
       case Good => RemoveRun(Release(s, k, Completed), k)
       case EffectThenError => Goto(Release(s, k, Completed), k, Aborting)
       case NoEffect => Goto(s, k, Aborting))
    case Aborting => Goto(s, k, CleaningUp(reply.Good?, s.offer.Some? && s.offer.value.drifted))
    case CleaningUp(found, drifts) => RemoveRun(if reply.NoEffect? then s else CleanUp(s, k, found, drifts), k)
    case _ => s
  }

  function Run(s: State, k: RunKey, reply: Reply): (t: State)
    requires k in s.runs
    ensures t == s.(offer := t.offer, jobs := t.jobs, blind := t.blind, runs := t.runs, remote := t.remote)
  {
    var pc := s.runs[k];
    match pc
    case Claimed => Goto(s, k, if reply.Good? && k.job in s.jobs then Load(s, s.jobs[k.job]) else Aborting)
    case UpdatingPrepared(_, _) => PrepareRun(s, k, pc, reply)
    case Finding(_) => PrepareRun(s, k, pc, reply)
    case Creating(_) => PrepareRun(s, k, pc, reply)
    case FindingAgain => PrepareRun(s, k, pc, reply)
    case Recording(_) => PrepareRun(s, k, pc, reply)
    case AskingFees => PrepareRun(s, k, pc, reply)
    case StoringFees => PrepareRun(s, k, pc, reply)
    case CheckingListing(_) => PublishRun(s, k, pc, reply)
    case Publishing(_) => PublishRun(s, k, pc, reply)
    case CheckingAgain(_) => PublishRun(s, k, pc, reply)
    case StoringListing(_) => PublishRun(s, k, pc, reply)
    case CheckingLive(_, _) => ReviseRun(s, k, pc, reply)
    case Updating(_, _) => ReviseRun(s, k, pc, reply)
    case ReadingBack(_, _) => ReviseRun(s, k, pc, reply)
    case StoringRevision(_, _, _) => ReviseRun(s, k, pc, reply)
    case ReadingWithdrawn => WithdrawRun(s, k, pc, reply)
    case Withdrawing => WithdrawRun(s, k, pc, reply)
    case CheckingWithdrawn => WithdrawRun(s, k, pc, reply)
    case ReadingFinal => WithdrawRun(s, k, pc, reply)
    case StoringWithdrawal => WithdrawRun(s, k, pc, reply)
    case ReadingRemote(_, _) => ReconcileRun(s, k, pc, reply)
    case StoringReconciliation(_, _, _) => ReconcileRun(s, k, pc, reply)
    case Finishing => EndRun(s, k, pc, reply)
    case Aborting => EndRun(s, k, pc, reply)
    case CleaningUp(_, _) => EndRun(s, k, pc, reply)
  }

  function RunnerStep(s: State, step: Step): (t: State)
    ensures t == s.(offer := t.offer, jobs := t.jobs, blind := t.blind, runs := t.runs, remote := t.remote)
  {
    match step
    case Claim(w, j) =>
      if j !in s.jobs || !s.jobs[j].status.Queued? || !MayClaim(s, w, j) then s
      else Goto(s.(jobs := s.jobs[j := s.jobs[j].(status := Running, owner := Some(w))]), RunKey(w, j), Claimed)
    case ClaimLost(w, j) => if j !in s.jobs || !MayClaim(s, w, j) then s else Goto(s, RunKey(w, j), Aborting)
    case Advance(w, j, reply) => if RunKey(w, j) in s.runs then Run(s, RunKey(w, j), reply) else s
    case Crash(w, j) => RemoveRun(s, RunKey(w, j))
    case Reclaim(j) =>
      if j in s.jobs && s.jobs[j].status.Running?
      then s.(jobs := s.jobs[j := s.jobs[j].(status := Queued, owner := None)]) else s
    case RetryReconciliation(j) =>
      if j in s.jobs && j.OperationJob? && s.jobs[j].status.Failed? && s.jobs[j].action.Reconcile?
      then s.(jobs := s.jobs[j := s.jobs[j].(status := Queued, owner := None)]) else s
    case _ => s
  }

  function RemoteStep(s: State, step: Step): (t: State)
    ensures t == s.(remote := t.remote)
  {
    match step
    case ListingEnds => if s.remote.offer.Some? then s.(remote := EndRemote(s.remote, s.remote.offer.value.published)) else s
    case ListingForgotten =>
      if s.remote.offer.Some? && !s.remote.offer.value.live
      then WithRemoteOffer(s, s.remote.offer.value.(listing := None, published := false)) else s
    case _ => s
  }

  // ----- one step

  /** With atomic requests, an open window admits only the request's first write, or its end. */
  predicate Blocked(s: State, step: Step) {
    && s.config.atomicRequests && s.open.Some?
    && step != StoreOffer(s.open.value) && step != StoreApproval(s.open.value) && step != StoreRevisionJob(s.open.value)
    && step != StoreWithdrawalJob(s.open.value) && step != StoreReconciliationJob(s.open.value) && step != DropRequest(s.open.value)
  }

  function Apply(s: State, step: Step): State {
    if Blocked(s, step) then s
    else
      match step
      case DraftStep(d) => s.(draft := Drafts.Apply(s.draft, d))
      case Decide(approval) => s.(approval := approval)
      case StorePreparation(_) => SyncStep(s, step)
      case QueueSync(_) => SyncStep(s, step)
      case ClaimSync(_) => SyncStep(s, step)
      case CheckSync(_) => SyncStep(s, step)
      case FinishSync(_, _) => SyncStep(s, step)
      case ReclaimSync(_) => SyncStep(s, step)
      case Claim(_, _) => RunnerStep(s, step)
      case ClaimLost(_, _) => RunnerStep(s, step)
      case Advance(_, _, _) => RunnerStep(s, step)
      case Crash(_, _) => RunnerStep(s, step)
      case Reclaim(_) => RunnerStep(s, step)
      case RetryReconciliation(_) => RunnerStep(s, step)
      case ListingEnds => RemoteStep(s, step)
      case ListingForgotten => RemoteStep(s, step)
      case _ => RequestStep(s, step)
  }

  function Exec(s: State, steps: seq<Step>): State
    decreases |steps|
  {
    if steps == [] then s else Exec(Apply(s, steps[0]), steps[1..])
  }

  lemma {:induction false} ExecAppends(s: State, xs: seq<Step>, ys: seq<Step>)
    ensures Exec(s, xs + ys) == Exec(Exec(s, xs), ys)
    decreases |xs|
  {
    if xs == [] {
      assert xs + ys == ys;
    } else {
      assert (xs + ys)[1..] == xs[1..] + ys;
      ExecAppends(Apply(s, xs[0]), xs[1..], ys);
    }
  }
}
