/**
 * No ABA: comparing version numbers compares content.  Whatever overlaps, the payload stored with an offer, a request, a
 * job or a runner is the one built from the draft content committed with exactly the version stored beside it.
 */
module ListingContent {
  import opened Wrappers
  import opened ListingProtocol
  import Drafts

  /** The payload is that of the version, and the version passed live validation. */
  ghost predicate Faithful(d: Drafts.State, version: nat, payload: Payload) {
    && version in d.committed
    && d.committed[version].ready && d.committed[version].live
    && BuildOfferPayload(d.committed[version].content) == Some(payload)
  }

  ghost predicate FaithfulOffer(d: Drafts.State, offer: Option<Offer>) {
    offer.Some? ==> Faithful(d, offer.value.version, offer.value.payload)
  }

  ghost predicate FaithfulRequest(d: Drafts.State, r: Request) {
    match r
    case PrepareRead(v, payload) => Faithful(d, v, payload)
    case ReviseRead(v, payload) => Faithful(d, v, payload)
    case _ => true
  }

  ghost predicate FaithfulJob(d: Drafts.State, job: Job) {
    job.payload.Some? ==> Faithful(d, job.target, job.payload.value)
  }

  ghost predicate FaithfulRun(d: Drafts.State, pc: Pc) {
    match pc
    case CheckingLive(v, payload) => Faithful(d, v, payload)
    case Updating(v, payload) => Faithful(d, v, payload)
    case ReadingBack(v, payload) => Faithful(d, v, payload)
    case StoringRevision(v, payload, _) => Faithful(d, v, payload)
    case _ => true
  }

  ghost predicate Inv(s: State) {
    && Drafts.Inv(s.draft)
    && (forall v :: v in s.prepared ==> v in s.draft.committed && s.draft.committed[v].ready && s.draft.committed[v].live)
    && s.syncs.Keys <= s.prepared
    && FaithfulOffer(s.draft, s.offer)
    && (forall id :: id in s.requests ==> FaithfulRequest(s.draft, s.requests[id]))
    && (forall j :: j in s.jobs ==> FaithfulJob(s.draft, s.jobs[j]))
    && (forall k :: k in s.runs ==> FaithfulRun(s.draft, s.runs[k]))
  }

  lemma InitHolds(config: Config, content: Drafts.Content, ready: bool)
    ensures Inv(Init(config, content, ready))
  {
  }

  lemma DraftStepKeeps(s: State, d: Drafts.Step)
    requires Inv(s)
    ensures Inv(s.(draft := Drafts.Apply(s.draft, d)))
  {
    Drafts.StepKeepsInv(s.draft, d);
    hide Drafts.Apply, BuildOfferPayload, Drafts.Inv;
  }

  /** Live and current means committed as such. */
  lemma CurrentIsFaithful(s: State)
    requires Inv(s) && DraftIsLive(s) && BuildOfferPayload(s.draft.row.content).Some?
    ensures Faithful(s.draft, s.draft.version, BuildOfferPayload(s.draft.row.content).value)
  {
  }

  lemma SyncStepKeeps(s: State, step: Step)
    requires Inv(s)
    ensures Inv(SyncStep(s, step))
  {
    hide Drafts.Inv, BuildOfferPayload;
  }

  lemma BeginKeeps(s: State, id: nat, r: Request)
    requires Inv(s) && FaithfulRequest(s.draft, r)
    ensures Inv(Begin(s, id, r)) && Inv(Move(s, id, r)) && Inv(Close(s, id))
  {
    hide Drafts.Inv, Faithful;
  }

  lemma JobsKeep(s: State, ref: JobRef, job: Job, next: nat, queuedBy: nat)
    requires Inv(s) && FaithfulJob(s.draft, job)
    ensures Inv(s.(jobs := s.jobs[ref := job], nextJob := next, queuedBy := queuedBy))
  {
    hide Drafts.Inv, Faithful;
  }

  lemma OfferKeeps(s: State, offer: Offer)
    requires Inv(s) && FaithfulOffer(s.draft, Some(offer))
    ensures Inv(WithOffer(s, offer))
  {
    hide Drafts.Inv, Faithful;
  }

  /** What the steps need of the invariant. */
  lemma Parts(s: State)
    requires Inv(s)
    ensures FaithfulOffer(s.draft, s.offer)
    ensures forall j :: j in s.jobs ==> FaithfulJob(s.draft, s.jobs[j])
    ensures forall k :: k in s.runs ==> FaithfulRun(s.draft, s.runs[k])
  {
  }

  lemma FaithfulRequests(s: State)
    requires Inv(s)
    ensures forall id :: id in s.requests ==> FaithfulRequest(s.draft, s.requests[id])
  {
  }

  lemma PublishNeedsOffer(s: State)
    requires MayPublish(s)
    ensures s.offer.Some?
  {
  }

  lemma StoredOfferKeeps(s: State, version: nat, payload: Payload)
    requires Inv(s) && Faithful(s.draft, version, payload)
    ensures Inv(WithOffer(s, StoredOffer(s.offer, version, payload)))
  {
    OfferKeeps(s, StoredOffer(s.offer, version, payload));
    hide Inv;
  }

  lemma UpsertKeeps(s: State, id: nat, action: Action, version: nat)
    requires Inv(s)
    ensures Inv(UpsertJob(s, id, action, version))
  {
    var ref, job := OfferJob(action, version), Job(action, version, None, Queued, None);
    JobsKeep(s, ref, job, s.nextJob, s.queuedBy);
    BeginKeeps(s, id, ResetPending(ref));
    BeginKeeps(s.(jobs := s.jobs[ref := job]), id, ResetPending(ref));
    hide Inv;
  }

  lemma QueueKeeps(s: State, id: nat, status: OfferStatus, job: Job)
    requires Inv(s) && s.offer.Some? && FaithfulJob(s.draft, job)
    ensures Inv(QueueOperation(s, id, status, job))
  {
    OfferKeeps(s, s.offer.value.(status := status));
    var t := WithOffer(s, s.offer.value.(status := status));
    JobsKeep(t, OperationJob(s.nextJob), job, s.nextJob + 1, s.nextJob);
    BeginKeeps(t.(jobs := t.jobs[OperationJob(s.nextJob) := job], nextJob := s.nextJob + 1, queuedBy := s.nextJob),
               id, PrepareStored(0));
    hide Inv;
  }

  lemma PrepareRequestKeeps(s: State, step: Step)
    requires Inv(s) && (step.BeginPrepare? || step.StoreOffer? || step.StorePrepareJob?)
    ensures Inv(RequestStep(s, step))
  {
    hide Inv, Begin, Move, StoredOffer, WithOffer, UpsertJob, Faithful, BuildOfferPayload, PriceApproved, SyncedAt;
    var id := step.request;
    FaithfulRequests(s);
    if step.BeginPrepare? {
      if MayPrepare(s) {
        CurrentIsFaithful(s);
        BeginKeeps(s, id, PrepareRead(s.draft.version, BuildOfferPayload(s.draft.row.content).value));
      }
    } else if step.StoreOffer? {
      if id in s.requests && s.requests[id].PrepareRead? {
        var r := s.requests[id];
        StoredOfferKeeps(s, r.version, r.payload);
        BeginKeeps(WithOffer(s, StoredOffer(s.offer, r.version, r.payload)), id, PrepareStored(r.version));
      }
    } else if id in s.requests && s.requests[id].PrepareStored? {
      UpsertKeeps(s, id, Prepare, s.requests[id].version);
    }
  }

  lemma PublishRequestKeeps(s: State, step: Step)
    requires Inv(s) && (step.BeginPublish? || step.StoreApproval? || step.StorePublishJob?)
    ensures Inv(RequestStep(s, step))
  {
    hide Inv, Begin, Move, WithOffer, UpsertJob, Faithful, MayPublish;
    var id := step.request;
    if step.BeginPublish? {
      if id !in s.requests && MayPublish(s) {
        PublishNeedsOffer(s);
        BeginKeeps(s, id, PublishRead(s.offer.value.version));
      }
    } else if step.StoreApproval? {
      if id in s.requests && s.requests[id].PublishRead? && s.offer.Some? {
        Parts(s);
        var offer := s.offer.value.(status := PublishQueued, approved := true);
        OfferKeeps(s, offer);
        BeginKeeps(WithOffer(s, offer), id, PublishStored(s.requests[id].version));
      }
    } else if id in s.requests && s.requests[id].PublishStored? {
      UpsertKeeps(s, id, Publish, s.requests[id].version);
    }
  }

  lemma ResetKeeps(s: State, step: Step)
    requires Inv(s) && (step.ResetJob? || step.DropRequest?)
    ensures Inv(RequestStep(s, step))
  {
    hide Inv, Close, Faithful;
    var id := step.request;
    BeginKeeps(s, id, PrepareStored(0));
    DropKeeps(s, id);
    if step.ResetJob? && id in s.requests && s.requests[id].ResetPending? && s.requests[id].job in s.jobs {
      var ref := s.requests[id].job;
      var job := s.jobs[ref].(status := Queued, owner := None);
      Parts(s);
      JobsKeep(s, ref, job, s.nextJob, s.queuedBy);
      BeginKeeps(s.(jobs := s.jobs[ref := job]), id, PrepareStored(0));
    }
  }

  lemma DropKeeps(s: State, id: nat)
    requires Inv(s)
    ensures Inv(s.(requests := s.requests - {id}))
  {
    hide Drafts.Inv, Faithful;
  }

  lemma BeginOperationKeeps(s: State, step: Step)
    requires Inv(s) && (step.BeginRevise? || step.BeginWithdraw? || step.BeginReconcile?)
    ensures Inv(RequestStep(s, step))
  {
    hide Inv, Begin, Faithful, BuildOfferPayload, PriceApproved, SyncedAt, NoActiveOperation;
    var id := step.request;
    if step.BeginRevise? {
      if MayRevise(s) {
        CurrentIsFaithful(s);
        BeginKeeps(s, id, ReviseRead(s.draft.version, BuildOfferPayload(s.draft.row.content).value));
      }
    } else if step.BeginWithdraw? {
      if MayWithdraw(s) {
        BeginKeeps(s, id, WithdrawRead(s.offer.value.version));
      }
    } else if MayReconcile(s) {
      BeginKeeps(s, id, ReconcileRead(s.offer.value.version));
    }
  }

  lemma StoreOperationKeeps(s: State, step: Step)
    requires Inv(s) && (step.StoreRevisionJob? || step.StoreWithdrawalJob? || step.StoreReconciliationJob?)
    ensures Inv(RequestStep(s, step))
  {
    hide Inv, Close, QueueOperation, Faithful;
    var id := step.request;
    if id in s.requests && s.offer.Some? {
      FaithfulRequests(s);
      var r := s.requests[id];
      if step.StoreRevisionJob? && r.ReviseRead? {
        QueueKeeps(s, id, RevisionQueued, Job(Revise, r.version, Some(r.payload), Queued, None));
      } else if step.StoreWithdrawalJob? && r.WithdrawRead? {
        QueueKeeps(s, id, WithdrawQueued, Job(Withdraw, r.version, None, Queued, None));
      } else if step.StoreReconciliationJob? && r.ReconcileRead? {
        var job := Job(Reconcile, r.version, None, Queued, None);
        JobsKeep(s, OperationJob(s.nextJob), job, s.nextJob + 1, s.queuedBy);
        BeginKeeps(s.(jobs := s.jobs[OperationJob(s.nextJob) := job], nextJob := s.nextJob + 1), id, PrepareStored(0));
      }
    }
  }

  lemma RequestStepKeeps(s: State, step: Step)
    requires Inv(s)
    ensures Inv(RequestStep(s, step))
  {
    hide Inv;
    if step.BeginPrepare? || step.StoreOffer? || step.StorePrepareJob? {
      PrepareRequestKeeps(s, step);
    } else if step.BeginPublish? || step.StoreApproval? || step.StorePublishJob? {
      PublishRequestKeeps(s, step);
    } else if step.ResetJob? || step.DropRequest? {
      ResetKeeps(s, step);
    } else if step.BeginRevise? || step.BeginWithdraw? || step.BeginReconcile? {
      BeginOperationKeeps(s, step);
    } else if step.StoreRevisionJob? || step.StoreWithdrawalJob? || step.StoreReconciliationJob? {
      StoreOperationKeeps(s, step);
    }
  }

  lemma GotoKeeps(s: State, k: RunKey, pc: Pc)
    requires Inv(s) && FaithfulRun(s.draft, pc)
    ensures Inv(Goto(s, k, pc)) && Inv(RemoveRun(s, k))
  {
    hide Drafts.Inv, Faithful;
  }

  lemma AfterWriteKeeps(s: State, t: State, k: RunKey, reply: Reply, pc: Pc)
    requires Inv(s) && Inv(t) && FaithfulRun(t.draft, pc)
    ensures Inv(AfterWrite(s, t, k, reply, pc))
  {
    GotoKeeps(t, k, pc);
    GotoKeeps(t, k, Aborting);
    GotoKeeps(s, k, Aborting);
    hide Inv;
  }

  predicate CarriesNothing(pc: Pc) {
    !pc.CheckingLive? && !pc.Updating? && !pc.ReadingBack? && !pc.StoringRevision?
  }

  /** Where a runner goes matters only when it carries a payload to be stored. */
  lemma FreeGotoKeeps(s: State, k: RunKey)
    requires Inv(s)
    ensures forall pc: Pc :: CarriesNothing(pc) ==> Inv(Goto(s, k, pc))
    ensures Inv(RemoveRun(s, k))
  {
    forall pc: Pc | CarriesNothing(pc)
      ensures Inv(Goto(s, k, pc))
    {
      GotoKeeps(s, k, pc);
    }
    GotoKeeps(s, k, Aborting);
    hide Inv;
  }

  lemma RemoteKeeps(s: State, remote: Remote)
    requires Inv(s)
    ensures Inv(s.(remote := remote))
  {
    hide Drafts.Inv, Faithful;
  }

  lemma WriteOfferKeeps(s: State, offer: Offer, k: RunKey, reply: Reply, pc: Pc)
    requires Inv(s) && FaithfulOffer(s.draft, Some(offer)) && FaithfulRun(s.draft, pc)
    ensures Inv(AfterWrite(s, WithOffer(s, offer), k, reply, pc))
  {
    OfferKeeps(s, offer);
    AfterWriteKeeps(s, WithOffer(s, offer), k, reply, pc);
    hide Inv;
  }

  lemma WriteRemoteKeeps(s: State, offer: RemoteOffer, k: RunKey, reply: Reply, pc: Pc)
    requires Inv(s) && FaithfulRun(s.draft, pc)
    ensures Inv(AfterWrite(s, WithRemoteOffer(s, offer), k, reply, pc))
  {
    RemoteKeeps(s, s.remote.(offer := Some(offer)));
    AfterWriteKeeps(s, WithRemoteOffer(s, offer), k, reply, pc);
    hide Inv;
  }

  lemma PrepareRunKeeps(s: State, k: RunKey, pc: Pc, reply: Reply)
    requires Inv(s) && k in s.runs
    ensures Inv(PrepareRun(s, k, pc, reply))
  {
    hide Inv, Goto, AfterWrite, WithOffer, WithRemoteOffer, FindBySku, CreateRemote, PublishRemote, EndRemote, OfferDrift, ResolvedStatus;
    FreeGotoKeeps(s, k);
    Parts(s);
    match pc
    case UpdatingPrepared(payload, id) =>
      if s.remote.offer.Some? {
        WriteRemoteKeeps(s, s.remote.offer.value.(payload := payload), k, reply, AskingFees);
      }
    case Creating(payload) =>
      RemoteKeeps(s, CreateRemote(s.remote, payload));
      FreeGotoKeeps(s.(remote := CreateRemote(s.remote, payload)), k);
    case Recording(id) =>
      if s.offer.Some? {
        WriteOfferKeeps(s, s.offer.value.(remoteId := Some(id)), k, reply, AskingFees);
      }
    case StoringFees =>
      if s.offer.Some? {
        WriteOfferKeeps(s, s.offer.value.(status := FeesReady, feesStored := true), k, reply, Finishing);
      }
    case _ =>
  }

  lemma PublishRunKeeps(s: State, k: RunKey, pc: Pc, reply: Reply)
    requires Inv(s) && k in s.runs
    ensures Inv(PublishRun(s, k, pc, reply))
  {
    hide Inv, Goto, AfterWrite, WithOffer, WithRemoteOffer, FindBySku, CreateRemote, PublishRemote, EndRemote, OfferDrift, ResolvedStatus;
    FreeGotoKeeps(s, k);
    Parts(s);
    if pc.Publishing? {
      RemoteKeeps(s, PublishRemote(s.remote));
      FreeGotoKeeps(s.(remote := PublishRemote(s.remote)), k);
    } else if pc.StoringListing? && s.offer.Some? {
      WriteOfferKeeps(s, s.offer.value.(status := Published, listingId := Some(pc.listing), publishedBefore := true),
                      k, reply, Finishing);
    }
  }

  lemma ReviseRunKeeps(s: State, k: RunKey, pc: Pc, reply: Reply)
    requires Inv(s) && k in s.runs && s.runs[k] == pc
    ensures Inv(ReviseRun(s, k, pc, reply))
  {
    hide Inv, Goto, AfterWrite, WithOffer, WithRemoteOffer, FindBySku, CreateRemote, PublishRemote, EndRemote, OfferDrift, ResolvedStatus;
    FreeGotoKeeps(s, k);
    Parts(s);
    assert FaithfulRun(s.draft, pc);
    match pc
    case CheckingLive(v, payload) =>
      GotoKeeps(s, k, Updating(v, payload));
    case Updating(v, payload) =>
      if s.remote.offer.Some? {
        WriteRemoteKeeps(s, s.remote.offer.value.(payload := payload), k, reply, ReadingBack(v, payload));
      }
    case ReadingBack(v, payload) =>
      if s.remote.offer.Some? {
        GotoKeeps(s, k, StoringRevision(v, payload, OfferDrift(payload, s.remote.offer.value.payload) != []));
      }
    case StoringRevision(v, payload, drifted) =>
      if s.offer.Some? {
        WriteOfferKeeps(s, s.offer.value.(version := v, payload := payload, drifted := drifted,
                                          status := if drifted then Drifted else Published), k, reply, Finishing);
      }
    case _ =>
  }

  lemma WithdrawRunKeeps(s: State, k: RunKey, pc: Pc, reply: Reply)
    requires Inv(s) && k in s.runs
    ensures Inv(WithdrawRun(s, k, pc, reply))
  {
    hide Inv, Goto, AfterWrite, WithOffer, WithRemoteOffer, FindBySku, CreateRemote, PublishRemote, EndRemote, OfferDrift, ResolvedStatus;
    FreeGotoKeeps(s, k);
    Parts(s);
    if pc.Withdrawing? {
      RemoteKeeps(s, EndRemote(s.remote, false));
      FreeGotoKeeps(s.(remote := EndRemote(s.remote, false)), k);
    } else if pc.StoringWithdrawal? && s.offer.Some? {
      WriteOfferKeeps(s, s.offer.value.(status := Withdrawn, drifted := false), k, reply, Finishing);
    }
  }

  lemma ReconcileRunKeeps(s: State, k: RunKey, pc: Pc, reply: Reply)
    requires Inv(s) && k in s.runs
    ensures Inv(ReconcileRun(s, k, pc, reply))
  {
    hide Inv, Goto, AfterWrite, WithOffer, WithRemoteOffer, FindBySku, CreateRemote, PublishRemote, EndRemote, OfferDrift, ResolvedStatus;
    FreeGotoKeeps(s, k);
    Parts(s);
    if pc.StoringReconciliation? && s.offer.Some? {
      WriteOfferKeeps(s, s.offer.value.(status := pc.status, listingId := pc.shown, drifted := pc.drifted), k, reply, Finishing);
    }
  }

  lemma ReleaseKeeps(s: State, k: RunKey, status: JobStatus)
    requires Inv(s)
    ensures Inv(Release(s, k, status))
  {
    if Holds(s, k) {
      JobsKeep(s, k.job, s.jobs[k.job].(status := status, owner := None), s.nextJob, s.queuedBy);
    }
    hide Inv;
  }

  lemma CleanUpKeeps(s: State, k: RunKey, found: bool, drifts: bool)
    requires Inv(s)
    ensures Inv(CleanUp(s, k, found, drifts))
  {
    ReleaseKeeps(s, k, Failed);
    var t := Release(s, k, Failed);
    Parts(s);
    if found && s.offer.Some? && k.job in s.jobs {
      OfferKeeps(t, s.offer.value.(status := AbortedStatus(s.offer.value, s.jobs[k.job].action, drifts)));
      hide Inv, AbortedStatus;
    } else {
      assert Inv(t.(blind := t.blind + {k.job}));
      hide Inv;
    }
  }

  lemma EndRunKeeps(s: State, k: RunKey, pc: Pc, reply: Reply)
    requires Inv(s) && k in s.runs
    ensures Inv(EndRun(s, k, pc, reply))
  {
    hide Inv, Release, CleanUp, Goto, RemoveRun;
    FreeGotoKeeps(s, k);
    if pc.Finishing? {
      ReleaseKeeps(s, k, Completed);
      FreeGotoKeeps(Release(s, k, Completed), k);
    } else if pc.CleaningUp? {
      CleanUpKeeps(s, k, pc.found, pc.drifts);
      FreeGotoKeeps(CleanUp(s, k, pc.found, pc.drifts), k);
    }
  }

  lemma LoadIsFaithful(s: State, k: RunKey)
    requires Inv(s) && k.job in s.jobs
    ensures FaithfulRun(s.draft, Load(s, s.jobs[k.job]))
  {
    hide Drafts.Inv, Faithful;
  }

  lemma RunKeeps(s: State, k: RunKey, reply: Reply)
    requires Inv(s) && k in s.runs
    ensures Inv(Run(s, k, reply))
  {
    hide Inv, Goto, PrepareRun, PublishRun, ReviseRun, WithdrawRun, ReconcileRun, EndRun, Load;
    var pc := s.runs[k];
    PrepareRunKeeps(s, k, pc, reply);
    PublishRunKeeps(s, k, pc, reply);
    ReviseRunKeeps(s, k, pc, reply);
    WithdrawRunKeeps(s, k, pc, reply);
    ReconcileRunKeeps(s, k, pc, reply);
    EndRunKeeps(s, k, pc, reply);
    if k.job in s.jobs {
      LoadIsFaithful(s, k);
      GotoKeeps(s, k, Load(s, s.jobs[k.job]));
    }
    GotoKeeps(s, k, Aborting);
  }

  lemma RunnerStepKeeps(s: State, step: Step)
    requires Inv(s)
    ensures Inv(RunnerStep(s, step))
  {
    if step.Advance? && RunKey(step.worker, step.job) in s.runs {
      RunKeeps(s, RunKey(step.worker, step.job), step.reply);
    }
    hide Drafts.Inv, Run, MayClaim, Faithful;
  }

  lemma OutsideStepKeeps(s: State, step: Step)
    requires Inv(s)
    ensures Inv(RemoteStep(s, step))
    ensures step.Decide? ==> Inv(s.(approval := step.approval))
  {
    hide Drafts.Inv, Faithful;
  }

  lemma StepKeepsInv(s: State, step: Step)
    requires Inv(s)
    ensures Inv(Apply(s, step))
  {
    hide Inv, SyncStep, RequestStep, RunnerStep, RemoteStep, Drafts.Apply, Blocked;
    if step.DraftStep? {
      DraftStepKeeps(s, step.step);
    }
    SyncStepKeeps(s, step);
    RequestStepKeeps(s, step);
    RunnerStepKeeps(s, step);
    OutsideStepKeeps(s, step);
  }

  lemma {:induction false} ExecKeepsInv(s: State, steps: seq<Step>)
    requires Inv(s)
    ensures Inv(Exec(s, steps))
    decreases |steps|
  {
    if steps != [] {
      StepKeepsInv(s, steps[0]);
      ExecKeepsInv(Apply(s, steps[0]), steps[1..]);
    }
  }

  lemma Unchanged(d: Drafts.State)
    ensures Drafts.Extends(d, d)
  {
  }

  lemma DraftOf(s: State, step: Step)
    ensures Apply(s, step).draft == s.draft || (step.DraftStep? && Apply(s, step).draft == Drafts.Apply(s.draft, step.step))
  {
    hide SyncStep, RequestStep, RunnerStep, RemoteStep, Drafts.Apply, Blocked;
  }

  lemma StepExtendsDraft(s: State, step: Step)
    requires Drafts.Inv(s.draft)
    ensures Drafts.Inv(Apply(s, step).draft) && Drafts.Extends(s.draft, Apply(s, step).draft)
  {
    hide *;
    if step.DraftStep? {
      Drafts.StepKeepsInv(s.draft, step.step);
    }
    DraftOf(s, step);
    Unchanged(s.draft);
  }

  lemma {:induction false} ExecExtendsDraft(s: State, steps: seq<Step>)
    requires Drafts.Inv(s.draft)
    ensures Drafts.Inv(Exec(s, steps).draft) && Drafts.Extends(s.draft, Exec(s, steps).draft)
    decreases |steps|
  {
    hide Apply, Drafts.Inv;
    if steps != [] {
      StepExtendsDraft(s, steps[0]);
      ExecExtendsDraft(Apply(s, steps[0]), steps[1..]);
    }
  }

  /**
   * After every run, from any start, the offer's payload is the one built from the draft content committed with exactly
   * the offer's version, and that commit was a live validation; so at any two moments of a run, the same offer version
   * means the same payload.
   */
  lemma NoAba(config: Config, content: Drafts.Content, ready: bool, before: seq<Step>, after: seq<Step>)
    ensures var s := Exec(Init(config, content, ready), before);
            var t := Exec(s, after);
            && FaithfulOffer(s.draft, s.offer)
            && (s.offer.Some? && t.offer.Some? && s.offer.value.version == t.offer.value.version
                ==> s.offer.value.payload == t.offer.value.payload)
  {
    hide Exec, BuildOfferPayload;
    InitHolds(config, content, ready);
    var s := Exec(Init(config, content, ready), before);
    ExecKeepsInv(Init(config, content, ready), before);
    ExecKeepsInv(s, after);
    ExecExtendsDraft(s, after);
  }

  /**
   * What the version comparisons before publishing and revising are worth: when the numbers agree, the stored payload is
   * the payload of the draft as it is now; and a runner that is about to send a revision carries a committed payload.
   */
  lemma EqualVersionsMeanEqualContent(config: Config, content: Drafts.Content, ready: bool, steps: seq<Step>)
    ensures var s := Exec(Init(config, content, ready), steps);
            && (s.offer.Some? && s.draft.version == s.offer.value.version
                ==> BuildOfferPayload(s.draft.row.content) == Some(s.offer.value.payload))
            && (forall j :: j in s.jobs && s.jobs[j].payload.Some? && s.draft.version == s.jobs[j].target ==>
                  BuildOfferPayload(s.draft.row.content) == s.jobs[j].payload)
            && (forall k :: k in s.runs && s.runs[k].Updating? ==>
                  Faithful(s.draft, s.runs[k].version, s.runs[k].payload))
  {
    hide Exec, BuildOfferPayload;
    InitHolds(config, content, ready);
    ExecKeepsInv(Init(config, content, ready), steps);
    var s := Exec(Init(config, content, ready), steps);
    forall k | k in s.runs && s.runs[k].Updating?
      ensures Faithful(s.draft, s.runs[k].version, s.runs[k].payload)
    {
      assert FaithfulRun(s.draft, s.runs[k]);
    }
  }

  /**
   * After every run, a runner that goes on after reading its job works on the draft as it is: a publication starts only
   * for an approved offer whose payload is the current draft's, a revision only with the current draft's payload and
   * version, live and synced.
   */
  lemma RunnersStartCurrent(config: Config, content: Drafts.Content, ready: bool, steps: seq<Step>, k: RunKey, reply: Reply)
    ensures var s := Exec(Init(config, content, ready), steps);
            k in s.runs && s.runs[k].Claimed? ==>
              var pc := Run(s, k, reply).runs[k];
              && (pc.CheckingListing? ==>
                    && s.offer.Some? && s.offer.value.approved && s.offer.value.remoteId == Some(pc.id)
                    && BuildOfferPayload(s.draft.row.content) == Some(s.offer.value.payload))
              && (pc.CheckingLive? ==>
                    && pc.version == s.draft.version && DraftIsLive(s) && SyncedAt(s, pc.version)
                    && BuildOfferPayload(s.draft.row.content) == Some(pc.payload))
  {
    hide Exec, BuildOfferPayload, Inv;
    InitHolds(config, content, ready);
    ExecKeepsInv(Init(config, content, ready), steps);
    var s := Exec(Init(config, content, ready), steps);
    if k in s.runs && s.runs[k].Claimed? {
      CurrentPayloads(s);
    }
    hide PrepareRun, PublishRun, ReviseRun, WithdrawRun, ReconcileRun, EndRun;
  }

  lemma CurrentPayloads(s: State)
    requires Inv(s)
    ensures s.offer.Some? && s.draft.version == s.offer.value.version ==>
              BuildOfferPayload(s.draft.row.content) == Some(s.offer.value.payload)
    ensures forall j :: j in s.jobs && s.jobs[j].payload.Some? && s.draft.version == s.jobs[j].target ==>
              BuildOfferPayload(s.draft.row.content) == s.jobs[j].payload
  {
    hide BuildOfferPayload;
  }
}
