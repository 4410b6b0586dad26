/**
 * Which requests are admitted, and what an admitted request writes if nothing comes between (ebay-offer-service.ts,
 * ebay-listing-operation-service.ts).
 */
module ListingAdmission {
  import opened Wrappers
  import opened ListingProtocol
  import Drafts

  predicate Given(x: Option<string>) {
    x.Some? && |x.value| > 0
  }

  /** The draft has everything that eBay asks of an offer. */
  predicate Offerable(c: Drafts.Content) {
    && Given(c.categoryId) && c.price.Some? && Given(c.paymentPolicyId) && Given(c.returnPolicyId) && Given(c.shippingPolicyId)
    && Given(c.merchantLocationKey)
  }

  /** The payload says what the draft says. */
  predicate Says(p: Payload, c: Drafts.Content) {
    && p.sku == "SKU" && p.marketplace == "EBAY_US" && p.quantity == c.quantity && Some(p.categoryId) == c.categoryId
    && Some(p.location) == c.merchantLocationKey && Some(p.payment) == c.paymentPolicyId && Some(p.refund) == c.returnPolicyId
    && Some(p.fulfillment) == c.shippingPolicyId && p.currency == c.currency && Some(p.price) == c.price
  }

  /** The version went through inventory sync. */
  predicate Synced(s: State, version: nat) {
    version in s.syncs && s.syncs[version] == SyncCompleted
  }

  /** The draft passed live validation as it is, and its price is the approved one. */
  predicate Ready(s: State) {
    var row := s.draft.row;
    && row.ready && row.live
    && s.approval.Some? && row.content.price == Some(s.approval.value.price) && row.content.currency == s.approval.value.currency
  }

  ghost predicate NothingQueued(s: State) {
    forall n: nat :: OperationJob(n) in s.jobs ==>
      s.jobs[OperationJob(n)].status != JobStatus.Queued && s.jobs[OperationJob(n)].status != JobStatus.Running
  }

  /** Nothing stands in the way of a new request. */
  predicate Free(s: State, id: nat) {
    s.open.None? && id !in s.requests
  }

  lemma PayloadSays(c: Drafts.Content)
    ensures BuildOfferPayload(c).Some? <==> Offerable(c)
    ensures BuildOfferPayload(c).Some? ==> Says(BuildOfferPayload(c).value, c)
  {
  }

  lemma ExecFour(s: State, a: Step, b: Step, c: Step, d: Step)
    ensures Exec(s, [a, b, c, d]) == Apply(Apply(Apply(Apply(s, a), b), c), d)
  {
    hide Apply;
    assert [a, b, c, d][1..] == [b, c, d] && [b, c, d][1..] == [c, d] && [c, d][1..] == [d] && [d][1..] == [];
    assert Exec(Apply(s, a), [b, c, d]) == Exec(Apply(Apply(s, a), b), [c, d]);
    assert Exec(Apply(Apply(s, a), b), [c, d]) == Exec(Apply(Apply(Apply(s, a), b), c), [d]);
    assert Exec(Apply(Apply(Apply(s, a), b), c), [d]) == Exec(Apply(Apply(Apply(Apply(s, a), b), c), d), []);
  }

  lemma ExecTwo(s: State, a: Step, b: Step)
    ensures Exec(s, [a, b]) == Apply(Apply(s, a), b)
  {
    hide Apply;
    assert [a, b][1..] == [b] && [b][1..] == [];
    assert Exec(Apply(s, a), [b]) == Exec(Apply(Apply(s, a), b), []);
  }

  // ----- requests for an offer job

  predicate MayBePrepared(s: State) {
    && Synced(s, s.draft.version) && Ready(s) && Offerable(s.draft.row.content)
    && (s.offer.Some? ==> s.offer.value.status != OfferStatus.Published && !s.offer.value.approved)
  }

  predicate MayBePublished(s: State) {
    && s.offer.Some? && s.offer.value.status == FeesReady && s.offer.value.remoteId.Some? && s.offer.value.feesStored
    && s.offer.value.version == s.draft.version && Ready(s) && Synced(s, s.draft.version)
  }

  /** The job is queued anew unless it is queued, at work or done. */
  predicate JobAsked(before: map<JobRef, Job>, after: map<JobRef, Job>, action: Action, version: nat) {
    var ref := OfferJob(action, version);
    if ref in before && before[ref].status != JobStatus.Failed then after == before
    else if ref in before then after == before[ref := before[ref].(status := JobStatus.Queued, owner := None)]
    else after == before[ref := Job(action, version, None, JobStatus.Queued, None)]
  }

  lemma UpsertAsks(s: State, id: nat, action: Action, version: nat)
    requires id in s.requests
    ensures var t := RequestStep(UpsertJob(s, id, action, version), ResetJob(id));
            t == s.(jobs := t.jobs, requests := s.requests - {id}, open := None) && JobAsked(s.jobs, t.jobs, action, version)
  {
    var ref := OfferJob(action, version);
    if ref in s.jobs && s.jobs[ref].status.Failed? {
      assert s.requests[id := ResetPending(ref)] - {id} == s.requests - {id};
    }
  }

  lemma RequestApplies(s: State, step: Step)
    requires step.StoreOffer? || step.StoreApproval? || step.StoreRevisionJob? || step.StoreWithdrawalJob? || step.StoreReconciliationJob?
             || step.BeginPrepare? || step.BeginPublish? || step.BeginRevise? || step.BeginWithdraw? || step.BeginReconcile?
             || step.StorePrepareJob? || step.StorePublishJob? || step.ResetJob?
    requires s.open.None? || (s.open == Some(step.request)
             && (step.StoreOffer? || step.StoreApproval? || step.StoreRevisionJob? || step.StoreWithdrawalJob? || step.StoreReconciliationJob?))
    ensures Apply(s, step) == RequestStep(s, step)
  {
    hide RequestStep, SyncStep, RunnerStep, RemoteStep, Drafts.Apply;
  }

  lemma GuardOfPreparation(s: State)
    ensures MayPrepare(s) <==> MayBePrepared(s)
  {
    PayloadSays(s.draft.row.content);
    hide BuildOfferPayload, Offerable;
  }

  lemma GuardOfPublication(s: State)
    ensures MayPublish(s) <==> MayBePublished(s)
  {
  }

  /**
   * A prepare request is admitted exactly for a synced, live, approved and complete draft whose offer is neither published
   * nor approved; it then stores the draft's version and payload for a new fee preview, and queues the job.
   */
  lemma PreparationRequest(s: State, id: nat)
    requires Free(s, id)
    ensures var t := Exec(s, [BeginPrepare(id), StoreOffer(id), StorePrepareJob(id), ResetJob(id)]);
            if MayBePrepared(s)
            then && t == s.(offer := t.offer, jobs := t.jobs) && JobAsked(s.jobs, t.jobs, Prepare, s.draft.version)
                 && t.offer.Some? && t.offer.value.version == s.draft.version && Says(t.offer.value.payload, s.draft.row.content)
                 && t.offer.value.status == OfferStatus.Preparing && !t.offer.value.feesStored && !t.offer.value.approved
                 && (s.offer.Some? ==> t.offer.value.remoteId == s.offer.value.remoteId && t.offer.value.listingId == s.offer.value.listingId)
                 && (s.offer.None? ==> t.offer.value.remoteId.None? && t.offer.value.listingId.None?)
            else t == s
  {
    hide Apply, UpsertJob, MayPrepare, MayBePrepared, JobAsked, Says;
    GuardOfPreparation(s);
    PayloadSays(s.draft.row.content);
    ExecFour(s, BeginPrepare(id), StoreOffer(id), StorePrepareJob(id), ResetJob(id));
    RequestApplies(s, BeginPrepare(id));
    if MayPrepare(s) {
      PreparationWrites(s, id);
    } else {
      RequestApplies(s, StoreOffer(id));
      RequestApplies(s, StorePrepareJob(id));
      RequestApplies(s, ResetJob(id));
    }
  }

  lemma PreparationWrites(s: State, id: nat)
    requires Free(s, id) && MayPrepare(s)
    ensures BuildOfferPayload(s.draft.row.content).Some?
    ensures var payload := BuildOfferPayload(s.draft.row.content).value;
            var t := Apply(Apply(Apply(RequestStep(s, BeginPrepare(id)), StoreOffer(id)), StorePrepareJob(id)), ResetJob(id));
            && t == s.(offer := Some(StoredOffer(s.offer, s.draft.version, payload)), jobs := t.jobs)
            && JobAsked(s.jobs, t.jobs, Prepare, s.draft.version)
  {
    hide Apply, UpsertJob, JobAsked, StoredOffer, BuildOfferPayload;
    var v, payload := s.draft.version, BuildOfferPayload(s.draft.row.content).value;
    var s1 := Begin(s, id, PrepareRead(v, payload));
    RequestApplies(s1, StoreOffer(id));
    var s2 := Move(WithOffer(s1, StoredOffer(s.offer, v, payload)), id, PrepareStored(v));
    RequestApplies(s2, StorePrepareJob(id));
    RequestApplies(UpsertJob(s2, id, Prepare, v), ResetJob(id)) by { UpsertOpens(s2, id, Prepare, v); }
    UpsertAsks(s2, id, Prepare, v);
    assert s2.requests - {id} == s.requests;
  }

  lemma UpsertOpens(s: State, id: nat, action: Action, version: nat)
    requires s.open.None?
    ensures UpsertJob(s, id, action, version).open.None?
  {
  }

  /** A publish request is admitted exactly for a previewed, current and still approved offer; it approves it and queues the job. */
  lemma PublicationRequest(s: State, id: nat)
    requires Free(s, id)
    ensures var t := Exec(s, [BeginPublish(id), StoreApproval(id), StorePublishJob(id), ResetJob(id)]);
            if MayBePublished(s)
            then && t == s.(offer := Some(s.offer.value.(status := PublishQueued, approved := true)), jobs := t.jobs)
                 && JobAsked(s.jobs, t.jobs, Publish, s.draft.version)
            else t == s
  {
    hide Apply, UpsertJob, MayPublish, MayBePublished, JobAsked;
    GuardOfPublication(s);
    ExecFour(s, BeginPublish(id), StoreApproval(id), StorePublishJob(id), ResetJob(id));
    RequestApplies(s, BeginPublish(id));
    if MayPublish(s) {
      PublicationWrites(s, id);
    } else {
      RequestApplies(s, StoreApproval(id));
      RequestApplies(s, StorePublishJob(id));
      RequestApplies(s, ResetJob(id));
    }
  }

  lemma PublicationWrites(s: State, id: nat)
    requires Free(s, id) && MayPublish(s)
    ensures s.offer.Some?
    ensures var t := Apply(Apply(Apply(RequestStep(s, BeginPublish(id)), StoreApproval(id)), StorePublishJob(id)), ResetJob(id));
            && t == s.(offer := Some(s.offer.value.(status := PublishQueued, approved := true)), jobs := t.jobs)
            && JobAsked(s.jobs, t.jobs, Publish, s.draft.version)
  {
    hide Apply, UpsertJob, JobAsked, MayPublish;
    PublicationReads(s, id);
    var v := s.draft.version;
    var s1 := Begin(s, id, PublishRead(v));
    RequestApplies(s1, StoreApproval(id));
    var s2 := Move(WithOffer(s1, s.offer.value.(status := PublishQueued, approved := true)), id, PublishStored(v));
    RequestApplies(s2, StorePublishJob(id));
    RequestApplies(UpsertJob(s2, id, Publish, v), ResetJob(id)) by { UpsertOpens(s2, id, Publish, v); }
    UpsertAsks(s2, id, Publish, v);
    assert s2.requests - {id} == s.requests;
  }

  lemma PublicationReads(s: State, id: nat)
    requires Free(s, id) && MayPublish(s)
    ensures s.offer.Some? && RequestStep(s, BeginPublish(id)) == Begin(s, id, PublishRead(s.draft.version))
  {
    hide PriceApproved, DraftIsLive, SyncedAt;
  }

  // ----- requests for an operation

  ghost predicate MayBeRevised(s: State) {
    && s.offer.Some? && s.offer.value.status == OfferStatus.Published && s.offer.value.remoteId.Some? && s.offer.value.listingId.Some?
    && Synced(s, s.draft.version) && s.offer.value.version < s.draft.version && Ready(s) && Offerable(s.draft.row.content)
    && NothingQueued(s)
  }

  ghost predicate MayBeWithdrawn(s: State) {
    && s.offer.Some? && (s.offer.value.status == OfferStatus.Published || s.offer.value.status == OfferStatus.Drifted)
    && s.offer.value.remoteId.Some? && s.offer.value.listingId.Some? && NothingQueued(s)
  }

  ghost predicate MayBeReconciled(s: State) {
    && s.offer.Some? && s.offer.value.remoteId.Some? && (s.offer.value.publishedBefore || s.offer.value.listingId.Some?)
    && NothingQueued(s)
  }

  lemma NothingIsActive(s: State)
    ensures NoActiveOperation(s) <==> NothingQueued(s)
  {
    if NothingQueued(s) {
      forall j | j in s.jobs && j.OperationJob?
        ensures !Active(s.jobs[j])
      {
        assert j == OperationJob(j.number);
      }
    }
  }

  lemma OperationGuards(s: State)
    ensures (MayRevise(s) <==> MayBeRevised(s)) && (MayWithdraw(s) <==> MayBeWithdrawn(s)) && (MayReconcile(s) <==> MayBeReconciled(s))
  {
    NothingIsActive(s);
    PayloadSays(s.draft.row.content);
    hide NoActiveOperation, NothingQueued, BuildOfferPayload, Offerable;
  }

  /** One more operation under the next number. */
  predicate Asked(s: State, t: State, job: Job, offer: Offer, queuedBy: nat) {
    t == s.(offer := Some(offer), jobs := s.jobs[OperationJob(s.nextJob) := job], nextJob := s.nextJob + 1, queuedBy := queuedBy)
  }

  /**
   * A revise request is admitted exactly for a published offer, a newer draft that could be offered, and no operation under
   * way; it queues a revision to the draft's version with the payload of the draft.
   */
  lemma RevisionRequest(s: State, id: nat)
    requires Free(s, id)
    ensures var t := Exec(s, [BeginRevise(id), StoreRevisionJob(id)]);
            if MayBeRevised(s)
            then exists payload ::
                   && Says(payload, s.draft.row.content)
                   && Asked(s, t, Job(Revise, s.draft.version, Some(payload), JobStatus.Queued, None), s.offer.value.(status := RevisionQueued), s.nextJob)
            else t == s
  {
    hide Apply, MayRevise, MayBeRevised, Says;
    OperationGuards(s);
    PayloadSays(s.draft.row.content);
    ExecTwo(s, BeginRevise(id), StoreRevisionJob(id));
    RequestApplies(s, BeginRevise(id));
    if MayRevise(s) {
      RevisionWrites(s, id);
    } else {
      RequestApplies(s, StoreRevisionJob(id));
    }
  }

  lemma RevisionWrites(s: State, id: nat)
    requires Free(s, id) && MayRevise(s)
    ensures BuildOfferPayload(s.draft.row.content).Some? && s.offer.Some?
    ensures Asked(s, Apply(RequestStep(s, BeginRevise(id)), StoreRevisionJob(id)),
                  Job(Revise, s.draft.version, BuildOfferPayload(s.draft.row.content), JobStatus.Queued, None),
                  s.offer.value.(status := RevisionQueued), s.nextJob)
  {
    hide Apply, BuildOfferPayload, NoActiveOperation;
    var s1 := Begin(s, id, ReviseRead(s.draft.version, BuildOfferPayload(s.draft.row.content).value));
    RequestApplies(s1, StoreRevisionJob(id));
    assert s1.requests - {id} == s.requests;
  }

  /** A withdraw request is admitted exactly for a published or drifted offer without an operation under way; it queues a withdrawal. */
  lemma WithdrawalRequest(s: State, id: nat)
    requires Free(s, id)
    ensures var t := Exec(s, [BeginWithdraw(id), StoreWithdrawalJob(id)]);
            if MayBeWithdrawn(s)
            then Asked(s, t, Job(Withdraw, s.offer.value.version, None, JobStatus.Queued, None), s.offer.value.(status := WithdrawQueued), s.nextJob)
            else t == s
  {
    hide Apply, MayBeWithdrawn, NoActiveOperation;
    OperationGuards(s);
    ExecTwo(s, BeginWithdraw(id), StoreWithdrawalJob(id));
    RequestApplies(s, BeginWithdraw(id));
    var s1 := RequestStep(s, BeginWithdraw(id));
    RequestApplies(s1, StoreWithdrawalJob(id));
    if MayWithdraw(s) {
      assert s1.requests - {id} == s.requests;
    }
  }

  /** A reconcile request is admitted exactly for an offer that was published, without an operation under way; it leaves the offer. */
  lemma ReconciliationRequest(s: State, id: nat)
    requires Free(s, id)
    ensures var t := Exec(s, [BeginReconcile(id), StoreReconciliationJob(id)]);
            if MayBeReconciled(s)
            then Asked(s, t, Job(Reconcile, s.offer.value.version, None, JobStatus.Queued, None), s.offer.value, s.queuedBy)
            else t == s
  {
    hide Apply, MayBeReconciled, NoActiveOperation;
    OperationGuards(s);
    ExecTwo(s, BeginReconcile(id), StoreReconciliationJob(id));
    RequestApplies(s, BeginReconcile(id));
    var s1 := RequestStep(s, BeginReconcile(id));
    RequestApplies(s1, StoreReconciliationJob(id));
    if MayReconcile(s) {
      assert s1.requests - {id} == s.requests;
    }
  }
}
