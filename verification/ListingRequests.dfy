/**
 * What a request knows when it writes.  If nothing happens between a request's reads and its first write, its guard
 * still holds at that write; so an offer is queued for publication or revision only at an approved price.
 */
module ListingRequests {
  import opened Wrappers
  import opened ListingProtocol
  import Content = ListingContent
  import Drafts

  /** Has the request read but not written? */
  predicate Hot(r: Request) {
    r.PrepareRead? || r.PublishRead? || r.ReviseRead? || r.WithdrawRead? || r.ReconcileRead?
  }

  /** The request's guard holds and what it read is current. */
  predicate StillGuarded(s: State, r: Request) {
    match r
    case PrepareRead(v, payload) =>
      MayPrepare(s) && v == s.draft.version && BuildOfferPayload(s.draft.row.content) == Some(payload)
    case PublishRead(v) => MayPublish(s) && v == s.offer.value.version
    case ReviseRead(v, payload) =>
      MayRevise(s) && v == s.draft.version && BuildOfferPayload(s.draft.row.content) == Some(payload)
    case WithdrawRead(v) => MayWithdraw(s) && v == s.offer.value.version
    case ReconcileRead(v) => MayReconcile(s) && v == s.offer.value.version
    case _ => false
  }

  ghost predicate Inv(s: State) {
    && s.config.atomicRequests
    && (forall id :: id in s.requests && Hot(s.requests[id]) ==> s.open == Some(id))
    && (s.open.Some? ==> s.open.value in s.requests && StillGuarded(s, s.requests[s.open.value]))
  }

  lemma BeginKeeps(s: State, id: nat, r: Request)
    requires Inv(s) && s.open.None? && StillGuarded(s, r)
    ensures Inv(Begin(s, id, r))
  {
    hide BuildOfferPayload;
    assert StillGuarded(Begin(s, id, r), r);
  }

  lemma BeginRequestKeeps(s: State, step: Step)
    requires Inv(s) && s.open.None?
    requires step.BeginPrepare? || step.BeginPublish? || step.BeginRevise? || step.BeginWithdraw? || step.BeginReconcile?
    ensures Inv(RequestStep(s, step))
  {
    hide Inv, Begin, SyncedAt, DraftIsLive, PriceApproved, BuildOfferPayload, NoActiveOperation;
    var id := step.request;
    match step
    case BeginPrepare(_) =>
      if MayPrepare(s) {
        BeginKeeps(s, id, PrepareRead(s.draft.version, BuildOfferPayload(s.draft.row.content).value));
      }
    case BeginPublish(_) =>
      if MayPublish(s) {
        BeginKeeps(s, id, PublishRead(s.offer.value.version));
      }
    case BeginRevise(_) =>
      if MayRevise(s) {
        BeginKeeps(s, id, ReviseRead(s.draft.version, BuildOfferPayload(s.draft.row.content).value));
      }
    case BeginWithdraw(_) =>
      if MayWithdraw(s) {
        BeginKeeps(s, id, WithdrawRead(s.offer.value.version));
      }
    case BeginReconcile(_) =>
      if MayReconcile(s) {
        BeginKeeps(s, id, ReconcileRead(s.offer.value.version));
      }
  }

  /** With no window open, whatever leaves the requests alone, or moves one that is not hot, keeps the invariant. */
  lemma ClosedKeeps(s: State, t: State)
    requires Inv(s) && t.config == s.config && t.open.None?
    requires forall id :: id in t.requests ==> !Hot(t.requests[id])
    ensures Inv(t)
  {
  }

  lemma NoneHot(s: State)
    requires Inv(s) && s.open.None?
    ensures forall id :: id in s.requests ==> !Hot(s.requests[id])
  {
  }

  lemma OnlyOpenIsHot(s: State, id: nat)
    requires Inv(s) && (s.open.None? || s.open == Some(id))
    ensures forall other :: other in s.requests && other != id ==> !Hot(s.requests[other])
  {
  }

  /** A write of a request, or its end, closes the window. */
  lemma WriteKeeps(s: State, step: Step)
    requires Inv(s)
    requires step.StoreOffer? || step.StorePrepareJob? || step.StoreApproval? || step.StorePublishJob? || step.ResetJob?
             || step.StoreRevisionJob? || step.StoreWithdrawalJob? || step.StoreReconciliationJob? || step.DropRequest?
    requires s.open.None? || s.open == Some(step.request)
    ensures Inv(RequestStep(s, step))
  {
    hide Inv, StoredOffer, StillGuarded;
    var t := RequestStep(s, step);
    OnlyOpenIsHot(s, step.request);
    if t != s && s.open.Some? {
      ClosedKeeps(s, t);
    } else if t != s {
      NoneHot(s);
      ClosedKeeps(s, t);
    }
  }

  lemma ElsewhereKeeps(s: State, t: State)
    requires Inv(s) && s.open.None? && t.config == s.config && t.requests == s.requests && t.open == s.open
    ensures Inv(t)
  {
    NoneHot(s);
    ClosedKeeps(s, t);
  }

  lemma StepKeepsInv(s: State, step: Step)
    requires Inv(s)
    ensures Inv(Apply(s, step))
  {
    hide Inv, SyncStep, RequestStep, RunnerStep, RemoteStep, Drafts.Apply;
    Atomic(s);
    if Blocked(s, step) {
    } else if step.BeginPrepare? || step.BeginPublish? || step.BeginRevise? || step.BeginWithdraw? || step.BeginReconcile? {
      BeginRequestKeeps(s, step);
    } else if step.StoreOffer? || step.StorePrepareJob? || step.StoreApproval? || step.StorePublishJob? || step.ResetJob?
              || step.StoreRevisionJob? || step.StoreWithdrawalJob? || step.StoreReconciliationJob? || step.DropRequest? {
      WriteKeeps(s, step);
    } else {
      ElsewhereKeeps(s, Apply(s, step));
    }
  }

  lemma Atomic(s: State)
    requires Inv(s)
    ensures s.config.atomicRequests
  {
  }

  lemma {:induction false} ExecKeepsInv(s: State, steps: seq<Step>)
    requires Inv(s)
    ensures Inv(Exec(s, steps))
    decreases |steps|
  {
    hide Inv, Apply;
    if steps != [] {
      StepKeepsInv(s, steps[0]);
      ExecKeepsInv(Apply(s, steps[0]), steps[1..]);
    }
  }

  // ----- prices

  predicate PricedAs(payload: Payload, approval: Option<Approval>) {
    approval.Some? && payload.price == approval.value.price && payload.currency == approval.value.currency
  }

  lemma BuiltAtApprovedPrice(s: State, payload: Payload)
    requires PriceApproved(s, s.draft.row.content) && BuildOfferPayload(s.draft.row.content) == Some(payload)
    ensures PricedAs(payload, s.approval)
  {
  }

  /** If the step queues the offer for publication, its payload has the price approved at that moment. */
  predicate PublishesApproved(s: State, id: nat) {
    var t := Apply(s, StoreApproval(id));
    t != s ==> t.offer.Some? && t.offer.value.status.PublishQueued? && PricedAs(t.offer.value.payload, t.approval)
  }

  /** If the step creates a revision, the revision has the price approved at that moment. */
  predicate RevisesApproved(s: State, id: nat) {
    var t := Apply(s, StoreRevisionJob(id));
    t != s ==>
      && OperationJob(s.nextJob) in t.jobs
      && var job := t.jobs[OperationJob(s.nextJob)];
         job.action.Revise? && job.payload.Some? && PricedAs(job.payload.value, t.approval)
  }

  /** If the step creates a revision, it goes to a version that is current and newer than the published one. */
  predicate RevisesForward(s: State, id: nat) {
    var t := Apply(s, StoreRevisionJob(id));
    t != s ==>
      && OperationJob(s.nextJob) in t.jobs
      && s.offer.Some? && s.offer.value.version < t.jobs[OperationJob(s.nextJob)].target == s.draft.version
  }

  /**
   * After every run with atomic requests, the step that queues an offer for publication and the one that creates a revision
   * find the price that is approved at that moment, and the revision goes forward.
   */
  lemma QueuedPricesAreApproved(config: Config, content: Drafts.Content, ready: bool, steps: seq<Step>, id: nat)
    requires config.atomicRequests
    ensures var s := Exec(Init(config, content, ready), steps);
            PublishesApproved(s, id) && RevisesApproved(s, id) && RevisesForward(s, id)
  {
    hide Exec, PublishesApproved, RevisesApproved, RevisesForward;
    var s := Exec(Init(config, content, ready), steps);
    ExecKeepsInv(Init(config, content, ready), steps);
    Content.InitHolds(config, content, ready);
    Content.ExecKeepsInv(Init(config, content, ready), steps);
    ApprovalIsPriced(s, id);
    RevisionIsPriced(s, id);
    hide *;
  }

  lemma ApprovalIsPriced(s: State, id: nat)
    requires Inv(s) && Content.Inv(s)
    ensures PublishesApproved(s, id)
  {
    hide BuildOfferPayload, PriceApproved, Content.Inv;
    if id in s.requests && s.requests[id].PublishRead? && s.offer.Some? {
      OfferIsCurrent(s);
      BuiltAtApprovedPrice(s, s.offer.value.payload);
    }
  }

  lemma OfferIsCurrent(s: State)
    requires Content.Inv(s) && s.offer.Some? && s.draft.version == s.offer.value.version
    ensures BuildOfferPayload(s.draft.row.content) == Some(s.offer.value.payload)
  {
  }

  lemma RevisionIsPriced(s: State, id: nat)
    requires Inv(s)
    ensures RevisesApproved(s, id) && RevisesForward(s, id)
  {
    hide BuildOfferPayload, PriceApproved;
    if id in s.requests && s.requests[id].ReviseRead? && s.offer.Some? {
      BuiltAtApprovedPrice(s, s.requests[id].payload);
    }
  }
}
