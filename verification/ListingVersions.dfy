/**
 * No version regress: an offer's version never passes the draft's and never decreases, provided that requests are atomic
 * and no job has two live runners.
 */
module ListingVersions {
  import opened Wrappers
  import opened ListingProtocol
  import Orphans = ListingOrphans
  import Requests = ListingRequests
  import Content = ListingContent
  import Drafts

  predicate Approved(offer: Option<Offer>) {
    offer.Some? && offer.value.approved
  }

  /** Everything past the approval of a publication remembers the approval. */
  predicate Settled(offer: Option<Offer>) {
    offer.Some?
    && (offer.value.status.PublishQueued? || offer.value.status.Published? || offer.value.status.RevisionQueued?
        || offer.value.status.WithdrawQueued? || offer.value.status.Withdrawn? || offer.value.status.Drifted?
        || offer.value.publishedBefore || offer.value.listingId.Some?)
    ==> offer.value.approved
  }

  predicate Revising(pc: Pc) {
    pc.CheckingLive? || pc.Updating? || pc.ReadingBack? || pc.StoringRevision?
  }

  predicate PastApproval(pc: Pc) {
    || Revising(pc)
    || pc.CheckingListing? || pc.Publishing? || pc.CheckingAgain? || pc.StoringListing?
    || pc.ReadingWithdrawn? || pc.Withdrawing? || pc.CheckingWithdrawn? || pc.ReadingFinal? || pc.StoringWithdrawal?
    || pc.ReadingRemote? || pc.StoringReconciliation?
  }

  /** A runner that revises holds the job's target version, and its job is still active. */
  predicate RunFits(offer: Option<Offer>, jobs: map<JobRef, Job>, k: RunKey, pc: Pc) {
    && k.job in jobs
    && (PastApproval(pc) ==> Approved(offer))
    && (pc.Claimed? || Revising(pc) ==> Active(jobs[k.job]))
    && (Revising(pc) ==> jobs[k.job].action.Revise? && pc.version == jobs[k.job].target)
  }

  /** An active revision goes forward, but not past the draft. */
  predicate JobFits(offer: Option<Offer>, j: JobRef, job: Job, version: nat) {
    && (j.OperationJob? ==> Approved(offer))
    && (job.action.Prepare? || job.action.Publish? || j.OperationJob?)
    && (job.action.Revise? && Active(job) ==> offer.Some? && offer.value.version <= job.target <= version)
  }

  ghost predicate OneRevision(jobs: map<JobRef, Job>) {
    forall i, j :: i in jobs && j in jobs && jobs[i].action.Revise? && jobs[j].action.Revise? && Active(jobs[i]) && Active(jobs[j])
      ==> i == j
  }

  ghost predicate OneRun(runs: map<RunKey, Pc>) {
    forall k, l :: k in runs && l in runs && k.job == l.job ==> k == l
  }

  ghost predicate Inv(s: State) {
    && !s.config.overlap.AnyRunners?
    && (s.offer.Some? ==> s.offer.value.version <= s.draft.version)
    && Settled(s.offer)
    && (forall j :: j in s.jobs ==> JobFits(s.offer, j, s.jobs[j], s.draft.version))
    && (forall k :: k in s.runs ==> RunFits(s.offer, s.jobs, k, s.runs[k]))
    && OneRevision(s.jobs)
    && OneRun(s.runs)
  }

  predicate Advances(s: State, t: State) {
    s.offer.Some? ==> t.offer.Some? && s.offer.value.version <= t.offer.value.version
  }

  /** One good step: the invariant is kept and the offer's version does not fall. */
  ghost predicate Fine(s: State, t: State) {
    Inv(t) && Advances(s, t)
  }

  // ----- pieces of steps

  lemma Parts(s: State, k: RunKey)
    requires Inv(s) && k in s.runs
    ensures RunFits(s.offer, s.jobs, k, s.runs[k]) && Settled(s.offer)
  {
  }

  lemma GotoKeeps(s: State, k: RunKey, pc: Pc)
    requires Inv(s) && k in s.runs && RunFits(s.offer, s.jobs, k, pc)
    ensures Inv(Goto(s, k, pc)) && Inv(RemoveRun(s, k))
  {
    hide RunFits, JobFits, OneRevision, Settled;
  }

  /** Where a runner may go whatever the offer is. */
  predicate Anywhere(pc: Pc) {
    || pc.UpdatingPrepared? || pc.Finding? || pc.Creating? || pc.FindingAgain? || pc.Recording? || pc.AskingFees? || pc.StoringFees?
    || pc.Finishing? || pc.Aborting? || pc.CleaningUp?
  }

  lemma FreeGotoKeeps(s: State, k: RunKey)
    requires Inv(s) && k in s.runs
    ensures forall pc: Pc :: Anywhere(pc) ==> Fine(s, Goto(s, k, pc))
    ensures Inv(RemoveRun(s, k))
  {
    Parts(s, k);
    hide Inv, Revising, Anywhere, PastApproval;
    forall pc: Pc | Anywhere(pc)
      ensures Fine(s, Goto(s, k, pc))
    {
      AnywhereIsFree(pc);
      GotoKeeps(s, k, pc);
    }
    AnywhereIsFree(Aborting);
    GotoKeeps(s, k, Aborting);
  }

  lemma AnywhereIsFree(pc: Pc)
    ensures Anywhere(pc) ==> !PastApproval(pc) && !Revising(pc) && !pc.Claimed?
    ensures Anywhere(Finishing) && Anywhere(Aborting)
  {
  }

  /** Once approved, only revising is restricted. */
  lemma ApprovedGotoKeeps(s: State, k: RunKey)
    requires Inv(s) && k in s.runs && PastApproval(s.runs[k])
    ensures forall pc: Pc :: !pc.Claimed? && !Revising(pc) ==> Fine(s, Goto(s, k, pc))
  {
    Parts(s, k);
    hide Inv, Revising, PastApproval;
    forall pc: Pc | !pc.Claimed? && !Revising(pc)
      ensures Fine(s, Goto(s, k, pc))
    {
      GotoKeeps(s, k, pc);
    }
  }

  predicate SameVersion(s: State, offer: Offer) {
    s.offer.Some? && offer.version == s.offer.value.version && (s.offer.value.approved ==> offer.approved)
  }

  lemma OfferKeeps(s: State, offer: Offer)
    requires Inv(s) && SameVersion(s, offer) && Settled(Some(offer))
    ensures Inv(WithOffer(s, offer))
  {
    hide OneRevision, OneRun, Settled, Revising, PastApproval, Active;
  }

  lemma WriteKeeps(s: State, t: State, k: RunKey, reply: Reply, pc: Pc)
    requires Inv(s) && Inv(t) && Advances(s, t) && k in s.runs && k in t.runs && Anywhere(pc)
    ensures Fine(s, AfterWrite(s, t, k, reply, pc))
  {
    hide Inv, Advances, Anywhere;
    AnywhereIsFree(pc);
    FreeGotoKeeps(s, k);
    FreeGotoKeeps(t, k);
    match reply
    case Good => AdvancesTwice(s, t, Goto(t, k, pc));
    case EffectThenError => AdvancesTwice(s, t, Goto(t, k, Aborting));
    case NoEffect =>
  }

  lemma AdvancesTwice(s: State, t: State, u: State)
    requires Advances(s, t) && Advances(t, u)
    ensures Advances(s, u)
  {
  }

  lemma WriteOfferKeeps(s: State, offer: Offer, k: RunKey, reply: Reply, pc: Pc)
    requires Inv(s) && k in s.runs && SameVersion(s, offer) && Settled(Some(offer)) && Anywhere(pc)
    ensures Fine(s, AfterWrite(s, WithOffer(s, offer), k, reply, pc))
  {
    OfferKeeps(s, offer);
    hide Inv, Settled, Anywhere, Goto, AfterWrite, Fine;
    WriteKeeps(s, WithOffer(s, offer), k, reply, pc);
  }

  lemma WriteRemoteKeeps(s: State, offer: RemoteOffer, k: RunKey, reply: Reply, pc: Pc)
    requires Inv(s) && k in s.runs && Anywhere(pc)
    ensures Fine(s, AfterWrite(s, WithRemoteOffer(s, offer), k, reply, pc))
  {
    RemoteKeeps(s, s.remote.(offer := Some(offer)));
    hide Inv, Anywhere, Goto, AfterWrite, Fine;
    WriteKeeps(s, WithRemoteOffer(s, offer), k, reply, pc);
  }

  /** Only the runner of the one active revision stores a version, and that version is its job's target. */
  lemma RevisionKeeps(s: State, offer: Offer, k: RunKey)
    requires Inv(s) && k in s.runs && s.runs[k].StoringRevision? && s.offer.Some?
    requires offer.version == s.runs[k].version && offer.approved == s.offer.value.approved && Settled(Some(offer))
    ensures Inv(WithOffer(s, offer)) && s.offer.value.version <= offer.version
  {
    var t := WithOffer(s, offer);
    assert RunFits(s.offer, s.jobs, k, s.runs[k]);
    assert JobFits(s.offer, k.job, s.jobs[k.job], s.draft.version);
    forall j | j in t.jobs
      ensures JobFits(t.offer, j, t.jobs[j], t.draft.version)
    {
      assert JobFits(s.offer, j, s.jobs[j], s.draft.version);
    }
    forall l | l in t.runs
      ensures RunFits(t.offer, t.jobs, l, t.runs[l])
    {
      assert RunFits(s.offer, s.jobs, l, s.runs[l]);
    }
    hide Settled, PastApproval, Revising;
  }

  lemma RemoteKeeps(s: State, remote: Remote)
    requires Inv(s)
    ensures Inv(s.(remote := remote))
  {
    hide RunFits, JobFits, OneRevision, OneRun, Settled;
  }

  lemma RemoteGotoKeeps(s: State, remote: Remote, k: RunKey)
    requires Inv(s) && k in s.runs
    ensures var t := s.(remote := remote); Inv(t) && forall pc: Pc :: Anywhere(pc) ==> Fine(s, Goto(t, k, pc))
  {
    hide Inv, Anywhere;
    RemoteKeeps(s, remote);
    RunsOf(s, remote);
    FreeGotoKeeps(s.(remote := remote), k);
  }

  lemma ApprovedRemoteGotoKeeps(s: State, remote: Remote, k: RunKey)
    requires Inv(s) && k in s.runs && PastApproval(s.runs[k])
    ensures var t := s.(remote := remote); Inv(t) && forall pc: Pc :: !pc.Claimed? && !Revising(pc) ==> Fine(s, Goto(t, k, pc))
  {
    hide Inv, PastApproval, Revising;
    RemoteKeeps(s, remote);
    RunsOf(s, remote);
    ApprovedGotoKeeps(s.(remote := remote), k);
  }

  lemma RunsOf(s: State, remote: Remote)
    ensures s.(remote := remote).runs == s.runs
  {
  }

  // ----- runners

  lemma PrepareRunKeeps(s: State, k: RunKey, pc: Pc, reply: Reply)
    requires Inv(s) && k in s.runs
    ensures Fine(s, PrepareRun(s, k, pc, reply))
  {
    hide Inv, Fine, WithOffer, WithRemoteOffer, FindBySku, CreateRemote, Goto, AfterWrite, Settled;
    FreeGotoKeeps(s, k);
    Parts(s, k);
    if pc.UpdatingPrepared? && s.remote.offer.Some? {
      WriteRemoteKeeps(s, s.remote.offer.value.(payload := pc.payload), k, reply, AskingFees);
    } else if pc.Creating? {
      RemoteGotoKeeps(s, CreateRemote(s.remote, pc.payload), k);
    } else if pc.Recording? && s.offer.Some? {
      RecordingSettles(s.offer.value, pc.id);
      WriteOfferKeeps(s, s.offer.value.(remoteId := Some(pc.id)), k, reply, AskingFees);
    } else if pc.StoringFees? && s.offer.Some? {
      FeesSettle(s.offer.value);
      WriteOfferKeeps(s, s.offer.value.(status := FeesReady, feesStored := true), k, reply, Finishing);
    } else {
      Stays(s);
    }
  }

  lemma Stays(s: State)
    requires Inv(s)
    ensures Fine(s, s)
  {
    hide Inv;
  }

  lemma RecordingSettles(offer: Offer, id: int)
    requires Settled(Some(offer))
    ensures Settled(Some(offer.(remoteId := Some(id))))
  {
  }

  lemma FeesSettle(offer: Offer)
    requires Settled(Some(offer))
    ensures Settled(Some(offer.(status := FeesReady, feesStored := true)))
  {
  }

  lemma ApprovedSettles(offer: Offer)
    ensures offer.approved ==> Settled(Some(offer))
  {
  }

  lemma ApprovedRun(s: State, k: RunKey)
    requires Inv(s) && k in s.runs && PastApproval(s.runs[k])
    ensures Approved(s.offer)
  {
    Parts(s, k);
    hide Inv;
  }

  lemma PublishRunKeeps(s: State, k: RunKey, pc: Pc, reply: Reply)
    requires Inv(s) && k in s.runs && pc == s.runs[k] && PastApproval(pc)
    ensures Fine(s, PublishRun(s, k, pc, reply))
  {
    hide Inv, Fine, WithOffer, PublishRemote, Goto, AfterWrite, Settled, PastApproval;
    ApprovedRun(s, k);
    ApprovedGotoKeeps(s, k);
    if pc.Publishing? {
      ApprovedRemoteGotoKeeps(s, PublishRemote(s.remote), k);
    } else if pc.StoringListing? && s.offer.Some? {
      var offer := s.offer.value.(status := Published, listingId := Some(pc.listing), publishedBefore := true);
      ApprovedSettles(offer);
      WriteOfferKeeps(s, offer, k, reply, Finishing);
    } else {
      Stays(s);
    }
  }

  lemma ReviseRunKeeps(s: State, k: RunKey, pc: Pc, reply: Reply)
    requires Inv(s) && k in s.runs && pc == s.runs[k] && Revising(pc)
    ensures Fine(s, ReviseRun(s, k, pc, reply))
  {
    hide Inv, WithOffer, WithRemoteOffer, OfferDrift, Goto, AfterWrite, Settled, PastApproval, Fine;
    FreeGotoKeeps(s, k);
    match pc
    case CheckingLive(v, payload) => StepOn(s, k, Updating(v, payload));
    case Updating(v, payload) =>
      if s.remote.offer.Some? {
        RevisedRemoteKeeps(s, s.remote.offer.value.(payload := payload), k, reply, ReadingBack(v, payload));
      }
    case ReadingBack(v, payload) =>
      if s.remote.offer.Some? {
        StepOn(s, k, StoringRevision(v, payload, OfferDrift(payload, s.remote.offer.value.payload) != []));
      }
    case StoringRevision(v, payload, drifted) =>
      if s.offer.Some? {
        var offer := s.offer.value.(version := v, payload := payload, drifted := drifted,
                                    status := if drifted then Drifted else Published);
        StoredRevisionKeeps(s, offer, k, reply);
      }
  }

  /** A revising runner goes on revising the same version. */
  lemma StepOn(s: State, k: RunKey, pc: Pc)
    requires Inv(s) && k in s.runs && Revising(s.runs[k]) && Revising(pc) && pc.version == s.runs[k].version
    ensures Fine(s, Goto(s, k, pc))
  {
    Parts(s, k);
    GotoKeeps(s, k, pc);
    hide Inv, RunFits;
  }

  lemma RevisedRemoteKeeps(s: State, offer: RemoteOffer, k: RunKey, reply: Reply, pc: Pc)
    requires Inv(s) && k in s.runs && Revising(s.runs[k]) && Revising(pc) && pc.version == s.runs[k].version
    ensures Fine(s, AfterWrite(s, WithRemoteOffer(s, offer), k, reply, pc))
  {
    RemoteKeeps(s, s.remote.(offer := Some(offer)));
    hide Inv, Revising, Anywhere;
    StepOn(WithRemoteOffer(s, offer), k, pc);
    AnywhereIsFree(Aborting);
    FreeGotoKeeps(s, k);
    FreeGotoKeeps(WithRemoteOffer(s, offer), k);
  }

  lemma StoredRevisionKeeps(s: State, offer: Offer, k: RunKey, reply: Reply)
    requires Inv(s) && k in s.runs && s.runs[k].StoringRevision? && s.offer.Some?
    requires offer.version == s.runs[k].version && offer.approved == s.offer.value.approved
    ensures Fine(s, AfterWrite(s, WithOffer(s, offer), k, reply, Finishing))
  {
    hide Inv, AfterWrite, Fine, Anywhere;
    ApprovedRun(s, k);
    ApprovedSettles(offer);
    RevisionKeeps(s, offer, k);
    AnywhereIsFree(Finishing);
    WriteKeeps(s, WithOffer(s, offer), k, reply, Finishing);
  }

  lemma WithdrawRunKeeps(s: State, k: RunKey, pc: Pc, reply: Reply)
    requires Inv(s) && k in s.runs && pc == s.runs[k] && PastApproval(pc)
    ensures Fine(s, WithdrawRun(s, k, pc, reply))
  {
    hide Inv, Fine, WithOffer, EndRemote, Goto, AfterWrite, Settled, PastApproval;
    ApprovedRun(s, k);
    ApprovedGotoKeeps(s, k);
    if pc.Withdrawing? {
      ApprovedRemoteGotoKeeps(s, EndRemote(s.remote, false), k);
    } else if pc.StoringWithdrawal? && s.offer.Some? {
      var offer := s.offer.value.(status := Withdrawn, drifted := false);
      ApprovedSettles(offer);
      WriteOfferKeeps(s, offer, k, reply, Finishing);
    } else {
      Stays(s);
    }
  }

  lemma ReconcileRunKeeps(s: State, k: RunKey, pc: Pc, reply: Reply)
    requires Inv(s) && k in s.runs && pc == s.runs[k] && PastApproval(pc)
    ensures Fine(s, ReconcileRun(s, k, pc, reply))
  {
    hide Inv, Fine, WithOffer, OfferDrift, Goto, AfterWrite, Settled, PastApproval;
    ApprovedRun(s, k);
    ApprovedGotoKeeps(s, k);
    if pc.StoringReconciliation? && s.offer.Some? {
      var offer := s.offer.value.(status := pc.status, listingId := pc.shown, drifted := pc.drifted);
      ApprovedSettles(offer);
      WriteOfferKeeps(s, offer, k, reply, Finishing);
    } else {
      Stays(s);
    }
  }

  lemma LoadFits(s: State, k: RunKey)
    requires Inv(s) && k in s.runs && s.runs[k].Claimed? && k.job in s.jobs
    ensures Fine(s, Goto(s, k, Load(s, s.jobs[k.job])))
  {
    hide Inv, DraftIsLive, SyncedAt;
    Parts(s, k);
    JobParts(s, k.job);
    GotoKeeps(s, k, Load(s, s.jobs[k.job]));
  }

  lemma JobParts(s: State, j: JobRef)
    requires Inv(s) && j in s.jobs
    ensures JobFits(s.offer, j, s.jobs[j], s.draft.version)
  {
  }

  predicate NeedsJob(pc: Pc) {
    pc.Claimed? || Revising(pc)
  }

  /** No revision becomes active again, and no job ends under a runner that needs it. */
  lemma JobKeeps(s: State, j: JobRef, status: JobStatus, owner: Option<nat>)
    requires Inv(s) && j in s.jobs
    requires Active(s.jobs[j]) || !s.jobs[j].action.Revise? || status.Completed? || status.Failed?
    requires status.Queued? || status.Running? || forall k :: k in s.runs && k.job == j ==> !NeedsJob(s.runs[k])
    ensures Inv(s.(jobs := s.jobs[j := s.jobs[j].(status := status, owner := owner)]))
  {
    hide Settled, OneRun, PastApproval, Revising;
    var jobs := s.jobs[j := s.jobs[j].(status := status, owner := owner)];
    assert JobFits(s.offer, j, s.jobs[j], s.draft.version);
    forall k | k in s.runs
      ensures RunFits(s.offer, jobs, k, s.runs[k])
    {
      assert RunFits(s.offer, s.jobs, k, s.runs[k]);
    }
  }

  /** A runner at its end is the only one on its job. */
  lemma ReleaseKeeps(s: State, k: RunKey, status: JobStatus)
    requires Inv(s) && k in s.runs && !NeedsJob(s.runs[k]) && (status.Completed? || status.Failed?)
    ensures Inv(Release(s, k, status))
  {
    OnlyRun(s, k);
    hide Inv, NeedsJob;
    if Holds(s, k) {
      JobKeeps(s, k.job, status, None);
    }
  }

  lemma OnlyRun(s: State, k: RunKey)
    requires Inv(s) && k in s.runs
    ensures forall l :: l in s.runs && l.job == k.job ==> l == k
  {
  }

  lemma CleanUpKeeps(s: State, k: RunKey, found: bool, drifts: bool)
    requires Inv(s) && k in s.runs && !NeedsJob(s.runs[k])
    ensures Fine(s, CleanUp(s, k, found, drifts))
  {
    hide Inv, NeedsJob, Settled;
    ReleaseKeeps(s, k, Failed);
    var t := Release(s, k, Failed);
    if found && s.offer.Some? && k.job in s.jobs {
      Parts(s, k);
      JobParts(s, k.job);
      var offer := s.offer.value.(status := AbortedStatus(s.offer.value, s.jobs[k.job].action, drifts));
      AbortSettles(s.offer.value, s.jobs[k.job].action, drifts);
      OfferKeeps(t, offer);
    } else {
      BlindKeeps(t, t.blind + {k.job});
    }
  }

  lemma AbortSettles(offer: Offer, action: Action, drifts: bool)
    requires Settled(Some(offer)) && (action.Prepare? || action.Publish? || offer.approved)
    ensures Settled(Some(offer.(status := AbortedStatus(offer, action, drifts))))
  {
  }

  lemma BlindKeeps(s: State, blind: set<JobRef>)
    requires Inv(s)
    ensures Inv(s.(blind := blind))
  {
    hide RunFits, JobFits, OneRevision, OneRun, Settled;
  }

  lemma EndRunKeeps(s: State, k: RunKey, pc: Pc, reply: Reply)
    requires Inv(s) && k in s.runs && pc == s.runs[k] && (pc.Finishing? || pc.Aborting? || pc.CleaningUp?)
    ensures Fine(s, EndRun(s, k, pc, reply))
  {
    hide Inv, CleanUp, Release, Goto, RemoveRun, Fine;
    FreeGotoKeeps(s, k);
    Stays(s);
    RemovedIsFine(s, s, k);
    if pc.Finishing? {
      ReleaseKeeps(s, k, Completed);
      ReleaseIsFine(s, k, Completed);
      RemovedIsFine(s, Release(s, k, Completed), k);
    } else if pc.CleaningUp? {
      CleanUpKeeps(s, k, pc.found, pc.drifts);
      CleanUpRuns(s, k, pc.found, pc.drifts);
      RemovedIsFine(s, CleanUp(s, k, pc.found, pc.drifts), k);
    }
  }

  lemma CleanUpRuns(s: State, k: RunKey, found: bool, drifts: bool)
    ensures CleanUp(s, k, found, drifts).runs == s.runs
  {
  }

  lemma RemovedIsFine(s: State, t: State, k: RunKey)
    requires Inv(s) && Fine(s, t) && k in t.runs
    ensures Fine(s, RemoveRun(t, k)) && Fine(s, Goto(t, k, Aborting))
  {
    hide Inv;
    FreeGotoKeeps(t, k);
  }

  lemma ReleaseIsFine(s: State, k: RunKey, status: JobStatus)
    requires Inv(Release(s, k, status))
    ensures Fine(s, Release(s, k, status)) && Release(s, k, status).runs == s.runs
  {
    hide Inv;
  }

  lemma RunKeeps(s: State, k: RunKey, reply: Reply)
    requires Inv(s) && k in s.runs
    ensures Fine(s, Run(s, k, reply))
  {
    hide Inv, Fine, Goto, PrepareRun, PublishRun, ReviseRun, WithdrawRun, ReconcileRun, EndRun, Load;
    var pc := s.runs[k];
    if pc.Claimed? {
      FreeGotoKeeps(s, k);
      Parts(s, k);
      LoadFits(s, k);
    } else if pc.Finishing? || pc.Aborting? || pc.CleaningUp? {
      EndRunKeeps(s, k, pc, reply);
    } else if Revising(pc) {
      ReviseRunKeeps(s, k, pc, reply);
    } else if PastApproval(pc) {
      PublishRunKeeps(s, k, pc, reply);
      WithdrawRunKeeps(s, k, pc, reply);
      ReconcileRunKeeps(s, k, pc, reply);
    } else {
      PrepareRunKeeps(s, k, pc, reply);
    }
  }

  lemma NewRunKeeps(s: State, k: RunKey, pc: Pc)
    requires Inv(s) && MayClaim(s, k.worker, k.job) && RunFits(s.offer, s.jobs, k, pc)
    ensures Fine(s, Goto(s, k, pc))
  {
    hide RunFits, JobFits, OneRevision, Settled;
  }

  lemma RunnerStepKeeps(s: State, step: Step)
    requires Inv(s)
    ensures Fine(s, RunnerStep(s, step))
  {
    hide Inv, Run, MayClaim, RemoveRun, Goto;
    Stays(s);
    match step
    case Claim(w, j) =>
      if j in s.jobs && s.jobs[j].status.Queued? && MayClaim(s, w, j) {
        JobKeeps(s, j, Running, Some(w));
        var t := s.(jobs := s.jobs[j := s.jobs[j].(status := Running, owner := Some(w))]);
        SameClaims(s, t, w, j);
        NewRunKeeps(t, RunKey(w, j), Claimed);
      }
    case ClaimLost(w, j) =>
      if j in s.jobs && MayClaim(s, w, j) {
        NewRunKeeps(s, RunKey(w, j), Aborting);
      }
    case Advance(w, j, reply) =>
      if RunKey(w, j) in s.runs {
        RunKeeps(s, RunKey(w, j), reply);
      }
    case Crash(w, j) => CrashKeeps(s, RunKey(w, j));
    case Reclaim(j) =>
      if j in s.jobs && s.jobs[j].status.Running? {
        JobKeeps(s, j, Queued, None);
      }
    case RetryReconciliation(j) =>
      if j in s.jobs && s.jobs[j].action.Reconcile? {
        JobKeeps(s, j, Queued, None);
      }
    case _ =>
  }

  lemma SameClaims(s: State, t: State, worker: nat, j: JobRef)
    requires s.config == t.config && s.runs == t.runs
    ensures MayClaim(s, worker, j) == MayClaim(t, worker, j)
  {
  }

  lemma CrashKeeps(s: State, k: RunKey)
    requires Inv(s)
    ensures Fine(s, RemoveRun(s, k))
  {
    hide RunFits, JobFits, OneRevision, Settled;
  }

  // ----- requests

  lemma RequestsKeep(s: State, requests: map<nat, Request>, open: Option<nat>)
    requires Inv(s)
    ensures Fine(s, s.(requests := requests, open := open))
  {
    hide RunFits, JobFits, OneRevision, OneRun, Settled;
  }

  lemma ClosedIsFine(s: State, t: State, id: nat, r: Request)
    requires Fine(s, t)
    ensures Fine(s, Close(t, id)) && Fine(s, Move(t, id, r))
  {
    hide Inv;
    RequestsKeep(t, t.requests - {id}, None);
    RequestsKeep(t, t.requests[id := r], None);
  }

  /** Preparing again is possible only before the first approval, when nothing past it exists. */
  lemma StoredOfferKeeps(s: State, payload: Payload)
    requires Inv(s) && MayPrepare(s)
    ensures Fine(s, WithOffer(s, StoredOffer(s.offer, s.draft.version, payload)))
  {
    hide PriceApproved, SyncedAt, DraftIsLive, BuildOfferPayload;
    var t := WithOffer(s, StoredOffer(s.offer, s.draft.version, payload));
    forall j | j in t.jobs
      ensures JobFits(t.offer, j, t.jobs[j], t.draft.version)
    {
      assert JobFits(s.offer, j, s.jobs[j], s.draft.version);
    }
    forall k | k in t.runs
      ensures RunFits(t.offer, t.jobs, k, t.runs[k])
    {
      assert RunFits(s.offer, s.jobs, k, s.runs[k]);
    }
  }

  lemma ApprovalKeeps(s: State)
    requires Inv(s) && s.offer.Some?
    ensures Fine(s, WithOffer(s, s.offer.value.(status := PublishQueued, approved := true)))
  {
    hide Inv, Settled;
    ApprovedSettles(s.offer.value.(status := PublishQueued, approved := true));
    OfferKeeps(s, s.offer.value.(status := PublishQueued, approved := true));
  }

  /** A new job that is no revision, or a revision forward to the draft's version when no other is active. */
  lemma NewJobKeeps(s: State, j: JobRef, job: Job, next: nat, queuedBy: nat)
    requires Inv(s) && j !in s.jobs && JobFits(s.offer, j, job, s.draft.version)
    requires job.action.Revise? ==> NoActiveOperation(s)
    ensures Fine(s, s.(jobs := s.jobs[j := job], nextJob := next, queuedBy := queuedBy))
  {
    hide Settled, OneRun, PastApproval, Revising;
    var jobs := s.jobs[j := job];
    assert OneRevision(jobs) by {
      forall i, l | i in jobs && l in jobs && jobs[i].action.Revise? && jobs[l].action.Revise? && Active(jobs[i]) && Active(jobs[l])
        ensures i == l
      {
        assert i == j || JobFits(s.offer, i, s.jobs[i], s.draft.version);
        assert l == j || JobFits(s.offer, l, s.jobs[l], s.draft.version);
      }
    }
    forall k | k in s.runs
      ensures RunFits(s.offer, jobs, k, s.runs[k])
    {
      assert RunFits(s.offer, s.jobs, k, s.runs[k]);
    }
  }

  lemma UpsertKeeps(s: State, id: nat, action: Action, version: nat)
    requires Inv(s) && (action.Prepare? || action.Publish?)
    ensures Fine(s, UpsertJob(s, id, action, version))
  {
    hide Inv, Close, Move;
    var ref, job := OfferJob(action, version), Job(action, version, None, Queued, None);
    Stays(s);
    ClosedIsFine(s, s, id, ResetPending(ref));
    if ref !in s.jobs {
      NewJobKeeps(s, ref, job, s.nextJob, s.queuedBy);
      ClosedIsFine(s, s.(jobs := s.jobs[ref := job]), id, ResetPending(ref));
    }
  }

  lemma OfferRequestKeeps(s: State, step: Step)
    requires Inv(s) && Requests.Inv(s) && Orphans.Inv(s)
    requires step.StoreOffer? || step.StorePrepareJob? || step.StoreApproval? || step.StorePublishJob? || step.ResetJob?
    ensures Fine(s, RequestStep(s, step))
  {
    hide Inv, Requests.Inv, Orphans.Inv, Move, Close, StoredOffer, UpsertJob, MayPrepare, WithOffer, Fine;
    var id := step.request;
    Stays(s);
    if id in s.requests {
      var r := s.requests[id];
      if step.StoreOffer? && r.PrepareRead? {
        PrepareGuard(s, id);
        StoredOfferKeeps(s, r.payload);
        ClosedIsFine(s, WithOffer(s, StoredOffer(s.offer, r.version, r.payload)), id, PrepareStored(r.version));
      } else if step.StorePrepareJob? && r.PrepareStored? {
        UpsertKeeps(s, id, Prepare, r.version);
      } else if step.StoreApproval? && r.PublishRead? && s.offer.Some? {
        ApprovalKeeps(s);
        ClosedIsFine(s, WithOffer(s, s.offer.value.(status := PublishQueued, approved := true)), id, PublishStored(r.version));
      } else if step.StorePublishJob? && r.PublishStored? {
        UpsertKeeps(s, id, Publish, r.version);
      } else if step.ResetJob? && r.ResetPending? && r.job in s.jobs {
        ResetJobIsNoRevision(s, id);
        JobKeeps(s, r.job, Queued, None);
        var t := s.(jobs := s.jobs[r.job := s.jobs[r.job].(status := Queued, owner := None)]);
        SameOfferIsFine(s, t);
        ClosedIsFine(s, t, id, PrepareStored(0));
      }
    }
  }

  lemma SameOfferIsFine(s: State, t: State)
    requires Inv(t) && s.offer == t.offer
    ensures Fine(s, t)
  {
    hide Inv;
  }

  lemma PrepareGuard(s: State, id: nat)
    requires Requests.Inv(s) && id in s.requests && s.requests[id].PrepareRead?
    ensures MayPrepare(s) && s.requests[id].version == s.draft.version
  {
    hide MayPrepare, MayRevise, MayPublish, MayWithdraw, MayReconcile;
  }

  lemma ReviseGuard(s: State, id: nat)
    requires Requests.Inv(s) && id in s.requests && s.requests[id].ReviseRead?
    ensures MayRevise(s) && s.requests[id].version == s.draft.version
  {
    hide MayPrepare, MayRevise, MayPublish, MayWithdraw, MayReconcile;
  }

  lemma WithdrawGuard(s: State, id: nat)
    requires Requests.Inv(s) && id in s.requests && (s.requests[id].WithdrawRead? || s.requests[id].ReconcileRead?)
    ensures MayWithdraw(s) || MayReconcile(s)
  {
    hide MayPrepare, MayRevise, MayPublish, MayWithdraw, MayReconcile;
  }

  lemma ResetJobIsNoRevision(s: State, id: nat)
    requires Orphans.Inv(s) && id in s.requests && s.requests[id].ResetPending? && s.requests[id].job in s.jobs
    ensures !s.jobs[s.requests[id].job].action.Revise?
  {
    hide Orphans.Tended;
  }

  lemma NextJobIsFree(s: State)
    requires Orphans.Inv(s)
    ensures OperationJob(s.nextJob) !in s.jobs
  {
    hide Orphans.Tended;
  }

  lemma RevisionMayStart(s: State)
    requires Inv(s) && MayRevise(s)
    ensures Approved(s.offer) && s.offer.value.version < s.draft.version && NoActiveOperation(s)
  {
    hide JobFits, RunFits, OneRevision, OneRun, NoActiveOperation;
  }

  lemma OperationMayStart(s: State)
    requires Inv(s) && (MayWithdraw(s) || MayReconcile(s))
    ensures Approved(s.offer)
  {
    hide JobFits, RunFits, OneRevision, OneRun, NoActiveOperation;
  }

  lemma QueueKeeps(s: State, id: nat, status: OfferStatus, job: Job)
    requires Inv(s) && OperationJob(s.nextJob) !in s.jobs && Approved(s.offer) && !job.action.Prepare? && !job.action.Publish?
    requires job.action.Revise? ==> NoActiveOperation(s) && s.offer.value.version <= job.target <= s.draft.version
    ensures Fine(s, QueueOperation(s, id, status, job))
  {
    hide Inv, Close, Settled, NoActiveOperation;
    var offer := s.offer.value.(status := status);
    ApprovedSettles(offer);
    OfferKeeps(s, offer);
    var t := WithOffer(s, offer);
    assert NoActiveOperation(s) ==> NoActiveOperation(t) by { SameJobs(s, t); }
    NewJobKeeps(t, OperationJob(s.nextJob), job, s.nextJob + 1, s.nextJob);
    ClosedIsFine(s, t.(jobs := t.jobs[OperationJob(s.nextJob) := job], nextJob := s.nextJob + 1, queuedBy := s.nextJob),
                 id, PrepareStored(0));
  }

  lemma SameJobs(s: State, t: State)
    requires s.jobs == t.jobs
    ensures NoActiveOperation(s) == NoActiveOperation(t)
  {
  }

  lemma OperationRequestKeeps(s: State, step: Step)
    requires Inv(s) && Requests.Inv(s) && Orphans.Inv(s)
    requires step.StoreRevisionJob? || step.StoreWithdrawalJob? || step.StoreReconciliationJob?
    ensures Fine(s, RequestStep(s, step))
  {
    hide Inv, Requests.Inv, Orphans.Inv, Close, QueueOperation, MayRevise, MayWithdraw, MayReconcile, Fine, NoActiveOperation;
    var id := step.request;
    Stays(s);
    if id in s.requests && s.offer.Some? {
      var r := s.requests[id];
      NextJobIsFree(s);
      if step.StoreRevisionJob? && r.ReviseRead? {
        ReviseGuard(s, id);
        RevisionMayStart(s);
        QueueKeeps(s, id, RevisionQueued, Job(Revise, r.version, Some(r.payload), Queued, None));
      } else if step.StoreWithdrawalJob? && r.WithdrawRead? {
        WithdrawGuard(s, id);
        OperationMayStart(s);
        QueueKeeps(s, id, WithdrawQueued, Job(Withdraw, r.version, None, Queued, None));
      } else if step.StoreReconciliationJob? && r.ReconcileRead? {
        WithdrawGuard(s, id);
        OperationMayStart(s);
        var job := Job(Reconcile, r.version, None, Queued, None);
        NewJobKeeps(s, OperationJob(s.nextJob), job, s.nextJob + 1, s.queuedBy);
        ClosedIsFine(s, s.(jobs := s.jobs[OperationJob(s.nextJob) := job], nextJob := s.nextJob + 1), id, PrepareStored(0));
      }
    }
  }

  /** A request that only reads, or gives up, changes nothing else. */
  lemma ReadRequestKeeps(s: State, step: Step)
    requires Inv(s)
    requires step.BeginPrepare? || step.BeginPublish? || step.BeginRevise? || step.BeginWithdraw? || step.BeginReconcile? || step.DropRequest?
    ensures Fine(s, RequestStep(s, step))
  {
    hide Inv, MayPrepare, MayPublish, MayRevise, MayWithdraw, MayReconcile, BuildOfferPayload, Fine;
    ReadRequestFrame(s, step);
    var t := RequestStep(s, step);
    RequestsKeep(s, t.requests, t.open);
  }

  lemma ReadRequestFrame(s: State, step: Step)
    requires step.BeginPrepare? || step.BeginPublish? || step.BeginRevise? || step.BeginWithdraw? || step.BeginReconcile? || step.DropRequest?
    ensures var t := RequestStep(s, step); t == s.(requests := t.requests, open := t.open)
  {
    hide SyncedAt, DraftIsLive, PriceApproved, BuildOfferPayload, NoActiveOperation;
  }

  // ----- every step

  lemma DraftKeeps(s: State, d: Drafts.State)
    requires Inv(s) && s.draft.version <= d.version
    ensures Fine(s, s.(draft := d))
  {
    hide RunFits, OneRevision, OneRun, Settled;
  }

  lemma OutsideKeeps(s: State, t: State)
    requires Inv(s) && t == s.(approval := t.approval, prepared := t.prepared, syncs := t.syncs, remote := t.remote)
    ensures Fine(s, t)
  {
    hide RunFits, JobFits, OneRevision, OneRun, Settled;
  }

  lemma StepKeepsInv(s: State, step: Step)
    requires Inv(s) && Requests.Inv(s) && Orphans.Inv(s) && Drafts.Inv(s.draft)
    ensures Fine(s, Apply(s, step))
  {
    hide Inv, Requests.Inv, Orphans.Inv, Drafts.Inv, SyncStep, RequestStep, RunnerStep, RemoteStep, Drafts.Apply, Blocked, Fine;
    Stays(s);
    if Blocked(s, step) {
    } else if step.DraftStep? {
      Drafts.StepKeepsInv(s.draft, step.step);
      DraftKeeps(s, Drafts.Apply(s.draft, step.step));
    } else if step.Decide? {
      OutsideKeeps(s, s.(approval := step.approval));
    } else if step.StoreOffer? || step.StorePrepareJob? || step.StoreApproval? || step.StorePublishJob? || step.ResetJob? {
      OfferRequestKeeps(s, step);
    } else if step.StoreRevisionJob? || step.StoreWithdrawalJob? || step.StoreReconciliationJob? {
      OperationRequestKeeps(s, step);
    } else if step.BeginPrepare? || step.BeginPublish? || step.BeginRevise? || step.BeginWithdraw? || step.BeginReconcile?
              || step.DropRequest? {
      ReadRequestKeeps(s, step);
    } else {
      OutsideKeeps(s, SyncStep(s, step));
      OutsideKeeps(s, RemoteStep(s, step));
      RunnerStepKeeps(s, step);
    }
  }

  ghost predicate AllInv(s: State) {
    Inv(s) && Requests.Inv(s) && Orphans.Inv(s) && Drafts.Inv(s.draft)
  }

  lemma StepKeepsAll(s: State, step: Step)
    requires AllInv(s)
    ensures AllInv(Apply(s, step)) && Advances(s, Apply(s, step))
  {
    hide Inv, Requests.Inv, Orphans.Inv, Drafts.Inv, Apply;
    StepKeepsInv(s, step);
    Requests.StepKeepsInv(s, step);
    Orphans.StepKeepsInv(s, step);
    Content.StepExtendsDraft(s, step);
  }

  lemma {:induction false} ExecKeepsAll(s: State, steps: seq<Step>)
    requires AllInv(s)
    ensures AllInv(Exec(s, steps)) && Advances(s, Exec(s, steps))
    decreases |steps|
  {
    hide AllInv, Apply, Advances;
    if steps != [] {
      StepKeepsAll(s, steps[0]);
      ExecKeepsAll(Apply(s, steps[0]), steps[1..]);
      AdvancesTwice(s, Apply(s, steps[0]), Exec(s, steps));
    } else {
      AdvancesAtOnce(s);
    }
  }

  lemma AdvancesAtOnce(s: State)
    ensures Advances(s, s)
  {
  }

  /**
   * With atomic requests and at most one live runner per job, in every run: the offer's version never exceeds the draft's
   * and never decreases between any two moments, and at most one revision is active, which goes forward.
   */
  lemma VersionsNeverRegress(config: Config, content: Drafts.Content, ready: bool, before: seq<Step>, after: seq<Step>)
    requires config.atomicRequests && !config.overlap.AnyRunners?
    ensures var s := Exec(Init(config, content, ready), before);
            && Advances(s, Exec(s, after))
            && (s.offer.Some? ==> s.offer.value.version <= s.draft.version)
            && OneRevision(s.jobs)
            && (forall j :: j in s.jobs && s.jobs[j].action.Revise? && Active(s.jobs[j]) ==>
                  s.offer.Some? && s.offer.value.version <= s.jobs[j].target <= s.draft.version)
  {
    hide Exec;
    InitHolds(config, content, ready);
    ExecKeepsAll(Init(config, content, ready), before);
    var s := Exec(Init(config, content, ready), before);
    ExecKeepsAll(s, after);
    hide Advances, OneRevision, OneRun, RunFits, Requests.Inv, Orphans.Inv, Drafts.Inv;
  }

  lemma InitHolds(config: Config, content: Drafts.Content, ready: bool)
    requires config.atomicRequests && !config.overlap.AnyRunners?
    ensures AllInv(Init(config, content, ready))
  {
  }
}
