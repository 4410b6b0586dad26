/**
 * No orphaned queued offer: while an offer waits for a revision or a withdrawal, the job that will do it is queued or
 * running, however runners overlap.  The one exception is an error handler whose lookup of the job fails: it marks the
 * job FAILED and leaves the offer waiting.
 */
module ListingOrphans {
  import opened Wrappers
  import opened ListingProtocol
  import Drafts

  predicate Waits(offer: Option<Offer>) {
    offer.Some? && (offer.value.status.RevisionQueued? || offer.value.status.WithdrawQueued?)
  }

  function WaitsFor(offer: Offer): Action {
    if offer.status.RevisionQueued? then Revise else Withdraw
  }

  /** The job that put the offer into its waiting status. */
  function Tender(s: State): JobRef {
    OperationJob(s.queuedBy)
  }

  /** The tending job is active unless a blind error handler failed it, and nobody is about to complete it. */
  ghost predicate Tended(s: State) {
    Waits(s.offer) ==>
      && Tender(s) in s.jobs
      && s.jobs[Tender(s)].action == WaitsFor(s.offer.value)
      && (if Tender(s) in s.blind then s.jobs[Tender(s)].status.Failed? else Active(s.jobs[Tender(s)]))
      && (forall k :: k in s.runs && k.job == Tender(s) ==> !s.runs[k].Finishing?)
  }

  predicate WellNumbered(j: JobRef, job: Job, nextJob: nat) {
    match j
    case OfferJob(action, _) => job.action == action && (action.Prepare? || action.Publish?)
    case OperationJob(number) => number < nextJob && !job.action.Prepare? && !job.action.Publish?
  }

  /** A reconciliation never stores a waiting status. */
  predicate Resting(pc: Pc) {
    pc.StoringReconciliation? ==> pc.status.Published? || pc.status.Drifted? || pc.status.Withdrawn?
  }

  ghost predicate Inv(s: State) {
    && (forall k :: k in s.runs ==> k.job in s.jobs)
    && (forall j :: j in s.jobs ==> WellNumbered(j, s.jobs[j], s.nextJob))
    && (forall id :: id in s.requests && s.requests[id].ResetPending? ==> s.requests[id].job.OfferJob?)
    && s.blind <= s.jobs.Keys
    && (forall k :: k in s.runs ==> Resting(s.runs[k]))
    && Tended(s)
  }

  // ----- pieces of steps

  lemma GotoKeeps(s: State, k: RunKey, pc: Pc)
    requires Inv(s) && k.job in s.jobs && Resting(pc)
    requires pc.Finishing? && k.job == Tender(s) ==> !Waits(s.offer)
    ensures Inv(Goto(s, k, pc)) && Inv(RemoveRun(s, k))
  {
    hide WellNumbered, Active;
  }

  lemma FreeGotoKeeps(s: State, k: RunKey)
    requires Inv(s) && k.job in s.jobs
    ensures forall pc: Pc :: !pc.Finishing? && Resting(pc) ==> Inv(Goto(s, k, pc))
    ensures Inv(RemoveRun(s, k))
  {
    forall pc: Pc | !pc.Finishing? && Resting(pc)
      ensures Inv(Goto(s, k, pc))
    {
      GotoKeeps(s, k, pc);
    }
    GotoKeeps(s, k, Aborting);
    hide Inv;
  }

  /** No step of a runner makes an offer wait. */
  predicate StaysAwake(s: State, offer: Offer) {
    s.offer.Some? && (offer.status == s.offer.value.status || !Waits(Some(offer)))
  }

  lemma OfferKeeps(s: State, offer: Offer)
    requires Inv(s) && StaysAwake(s, offer)
    ensures Inv(WithOffer(s, offer))
  {
    hide WellNumbered, Active;
  }

  lemma WriteOfferKeeps(s: State, offer: Offer, k: RunKey, reply: Reply, pc: Pc)
    requires Inv(s) && k.job in s.jobs && StaysAwake(s, offer) && Resting(pc)
    requires pc.Finishing? ==> !Waits(Some(offer))
    ensures Inv(AfterWrite(s, WithOffer(s, offer), k, reply, pc))
  {
    OfferKeeps(s, offer);
    GotoKeeps(WithOffer(s, offer), k, pc);
    FreeGotoKeeps(WithOffer(s, offer), k);
    FreeGotoKeeps(s, k);
    hide Inv;
  }

  lemma RemoteKeeps(s: State, remote: Remote, k: RunKey)
    requires Inv(s) && k.job in s.jobs
    ensures var t := s.(remote := remote); Inv(t) && forall pc: Pc :: !pc.Finishing? && Resting(pc) ==> Inv(Goto(t, k, pc))
  {
    hide WellNumbered, Active;
    assert Inv(s.(remote := remote));
    FreeGotoKeeps(s.(remote := remote), k);
  }

  lemma JobKeeps(s: State, j: JobRef, status: JobStatus, owner: Option<nat>)
    requires Inv(s) && j in s.jobs
    requires Waits(s.offer) && j == Tender(s) ==> j !in s.blind && (status.Queued? || status.Running?)
    ensures Inv(s.(jobs := s.jobs[j := s.jobs[j].(status := status, owner := owner)]))
  {
  }

  // ----- runners

  lemma PrepareRunKeeps(s: State, k: RunKey, pc: Pc, reply: Reply)
    requires Inv(s) && k.job in s.jobs
    ensures Inv(PrepareRun(s, k, pc, reply))
  {
    hide Inv, Goto, WithOffer, FindBySku, CreateRemote;
    FreeGotoKeeps(s, k);
    match pc
    case UpdatingPrepared(payload, _) =>
      if s.remote.offer.Some? {
        RemoteKeeps(s, s.remote.(offer := Some(s.remote.offer.value.(payload := payload))), k);
      }
    case Creating(payload) => RemoteKeeps(s, CreateRemote(s.remote, payload), k);
    case Recording(id) =>
      if s.offer.Some? {
        WriteOfferKeeps(s, s.offer.value.(remoteId := Some(id)), k, reply, AskingFees);
      }
    case StoringFees =>
      if s.offer.Some? {
        WriteOfferKeeps(s, s.offer.value.(status := FeesReady, feesStored := true), k, reply, Finishing);
      }
    case _ =>
  }

  lemma PublishRunKeeps(s: State, k: RunKey, pc: Pc, reply: Reply)
    requires Inv(s) && k.job in s.jobs
    ensures Inv(PublishRun(s, k, pc, reply))
  {
    hide Inv, Goto, WithOffer, PublishRemote;
    FreeGotoKeeps(s, k);
    if pc.Publishing? {
      RemoteKeeps(s, PublishRemote(s.remote), k);
    } else if pc.StoringListing? && s.offer.Some? {
      WriteOfferKeeps(s, s.offer.value.(status := Published, listingId := Some(pc.listing), publishedBefore := true),
                      k, reply, Finishing);
    }
  }

  lemma ReviseRunKeeps(s: State, k: RunKey, pc: Pc, reply: Reply)
    requires Inv(s) && k.job in s.jobs
    ensures Inv(ReviseRun(s, k, pc, reply))
  {
    hide Inv, Goto, WithOffer, OfferDrift;
    FreeGotoKeeps(s, k);
    if pc.Updating? && s.remote.offer.Some? {
      RemoteKeeps(s, s.remote.(offer := Some(s.remote.offer.value.(payload := pc.payload))), k);
    } else if pc.StoringRevision? && s.offer.Some? {
      WriteOfferKeeps(s, s.offer.value.(version := pc.version, payload := pc.payload, drifted := pc.drifted,
                                        status := if pc.drifted then Drifted else Published), k, reply, Finishing);
    }
  }

  lemma WithdrawRunKeeps(s: State, k: RunKey, pc: Pc, reply: Reply)
    requires Inv(s) && k.job in s.jobs
    ensures Inv(WithdrawRun(s, k, pc, reply))
  {
    hide Inv, Goto, WithOffer, EndRemote;
    FreeGotoKeeps(s, k);
    if pc.Withdrawing? {
      RemoteKeeps(s, EndRemote(s.remote, false), k);
    } else if pc.StoringWithdrawal? && s.offer.Some? {
      WriteOfferKeeps(s, s.offer.value.(status := Withdrawn, drifted := false), k, reply, Finishing);
    }
  }

  lemma RunParts(s: State, k: RunKey)
    requires Inv(s) && k in s.runs
    ensures k.job in s.jobs && Resting(s.runs[k])
    ensures k.job == Tender(s) && s.runs[k].Finishing? ==> !Waits(s.offer)
  {
  }

  lemma ReconcileRunKeeps(s: State, k: RunKey, pc: Pc, reply: Reply)
    requires Inv(s) && k in s.runs && pc == s.runs[k]
    ensures Inv(ReconcileRun(s, k, pc, reply))
  {
    hide Inv, Goto, WithOffer, OfferDrift;
    RunParts(s, k);
    FreeGotoKeeps(s, k);
    if pc.StoringReconciliation? && s.offer.Some? {
      WriteOfferKeeps(s, s.offer.value.(status := pc.status, listingId := pc.shown, drifted := pc.drifted), k, reply, Finishing);
    }
  }

  lemma CleanUpKeeps(s: State, k: RunKey, found: bool, drifts: bool)
    requires Inv(s) && k.job in s.jobs
    ensures Inv(CleanUp(s, k, found, drifts))
  {
    if found && s.offer.Some? {
      var offer := s.offer.value.(status := AbortedStatus(s.offer.value, s.jobs[k.job].action, drifts));
      OfferKeeps(s, offer);
      if Holds(s, k) {
        JobKeeps(WithOffer(s, offer), k.job, Failed, None);
      }
    } else if Holds(s, k) {
      BlindKeeps(s, k.job);
    }
    hide Inv;
  }

  lemma BlindKeeps(s: State, j: JobRef)
    requires Inv(s) && j in s.jobs
    ensures Inv(s.(jobs := s.jobs[j := s.jobs[j].(status := Failed, owner := None)], blind := s.blind + {j}))
  {
  }

  lemma EndRunKeeps(s: State, k: RunKey, pc: Pc, reply: Reply)
    requires Inv(s) && k in s.runs && pc == s.runs[k]
    ensures Inv(EndRun(s, k, pc, reply))
  {
    hide Inv, CleanUp, Goto, RemoveRun, Waits;
    RunParts(s, k);
    FreeGotoKeeps(s, k);
    if pc.Finishing? {
      if Holds(s, k) {
        JobKeeps(s, k.job, Completed, None);
      }
      FreeGotoKeeps(Release(s, k, Completed), k);
    } else if pc.CleaningUp? {
      CleanUpKeeps(s, k, pc.found, pc.drifts);
      CrashKeeps(s, k);
      CrashKeeps(CleanUp(s, k, pc.found, pc.drifts), k);
    }
  }

  lemma RunKeeps(s: State, k: RunKey, reply: Reply)
    requires Inv(s) && k in s.runs
    ensures Inv(Run(s, k, reply))
  {
    hide Inv, Goto, PrepareRun, PublishRun, ReviseRun, WithdrawRun, ReconcileRun, EndRun;
    var pc := s.runs[k];
    RunParts(s, k);
    FreeGotoKeeps(s, k);
    PrepareRunKeeps(s, k, pc, reply);
    PublishRunKeeps(s, k, pc, reply);
    ReviseRunKeeps(s, k, pc, reply);
    WithdrawRunKeeps(s, k, pc, reply);
    ReconcileRunKeeps(s, k, pc, reply);
    EndRunKeeps(s, k, pc, reply);
  }

  lemma RunnerStepKeeps(s: State, step: Step)
    requires Inv(s)
    ensures Inv(RunnerStep(s, step))
  {
    hide Inv, Run, Goto, RemoveRun, MayClaim;
    match step
    case Claim(w, j) =>
      if j in s.jobs && s.jobs[j].status.Queued? {
        QueuedIsNotBlind(s, j);
        JobKeeps(s, j, Running, Some(w));
        FreeGotoKeeps(s.(jobs := s.jobs[j := s.jobs[j].(status := Running, owner := Some(w))]), RunKey(w, j));
      }
    case ClaimLost(w, j) =>
      if j in s.jobs {
        FreeGotoKeeps(s, RunKey(w, j));
      }
    case Advance(w, j, reply) =>
      if RunKey(w, j) in s.runs {
        RunKeeps(s, RunKey(w, j), reply);
      }
    case Crash(w, j) => CrashKeeps(s, RunKey(w, j));
    case Reclaim(j) =>
      if j in s.jobs && s.jobs[j].status.Running? {
        QueuedIsNotBlind(s, j);
        JobKeeps(s, j, Queued, None);
      }
    case RetryReconciliation(j) =>
      if j in s.jobs && s.jobs[j].action.Reconcile? {
        QueuedIsNotBlind(s, j);
        JobKeeps(s, j, Queued, None);
      }
    case _ =>
  }

  lemma QueuedIsNotBlind(s: State, j: JobRef)
    requires Inv(s) && j in s.jobs
    ensures Waits(s.offer) && j == Tender(s) ==> !s.jobs[j].action.Reconcile? && (s.jobs[j].status.Failed? <==> j in s.blind)
  {
  }

  lemma CrashKeeps(s: State, k: RunKey)
    requires Inv(s)
    ensures Inv(RemoveRun(s, k))
  {
    hide WellNumbered, Active;
  }

  // ----- requests

  lemma RequestsKeep(s: State, requests: map<nat, Request>, open: Option<nat>)
    requires Inv(s)
    requires forall id :: id in requests && requests[id].ResetPending? ==> requests[id].job.OfferJob?
    ensures Inv(s.(requests := requests, open := open))
  {
    hide WellNumbered, Active;
  }

  lemma BeginKeeps(s: State, id: nat, r: Request)
    requires Inv(s) && (r.ResetPending? ==> r.job.OfferJob?)
    ensures Inv(Begin(s, id, r)) && Inv(Move(s, id, r)) && Inv(Close(s, id)) && Inv(s.(requests := s.requests - {id}))
  {
    RequestsKeep(s, s.requests[id := r], Some(id));
    RequestsKeep(s, s.requests[id := r], None);
    RequestsKeep(s, s.requests - {id}, None);
    RequestsKeep(s, s.requests - {id}, s.open);
    hide Inv;
  }

  lemma NewJobKeeps(s: State, j: JobRef, job: Job)
    requires Inv(s) && j !in s.jobs && j.OfferJob? && WellNumbered(j, job, s.nextJob)
    ensures Inv(s.(jobs := s.jobs[j := job]))
  {
  }

  lemma UpsertKeeps(s: State, id: nat, action: Action, version: nat)
    requires Inv(s) && (action.Prepare? || action.Publish?)
    ensures Inv(UpsertJob(s, id, action, version))
  {
    var ref, job := OfferJob(action, version), Job(action, version, None, Queued, None);
    BeginKeeps(s, id, ResetPending(ref));
    if ref !in s.jobs {
      NewJobKeeps(s, ref, job);
      BeginKeeps(s.(jobs := s.jobs[ref := job]), id, ResetPending(ref));
    }
    hide Inv;
  }

  /** A new operation brings its own tender; nothing refers to its number yet. */
  lemma NewOperationKeeps(s: State, offer: Offer, job: Job)
    requires Inv(s) && job.status.Queued?
    requires Waits(Some(offer)) && job.action == WaitsFor(offer)
    ensures Inv(s.(offer := Some(offer), jobs := s.jobs[OperationJob(s.nextJob) := job], nextJob := s.nextJob + 1, queuedBy := s.nextJob))
  {
  }

  lemma NewReconciliationKeeps(s: State, job: Job)
    requires Inv(s) && job.action.Reconcile?
    ensures Inv(s.(jobs := s.jobs[OperationJob(s.nextJob) := job], nextJob := s.nextJob + 1))
  {
  }

  lemma OfferRequestKeeps(s: State, step: Step)
    requires Inv(s) && (step.StoreOffer? || step.StorePrepareJob? || step.StoreApproval? || step.StorePublishJob? || step.ResetJob?)
    ensures Inv(RequestStep(s, step))
  {
    var id := step.request;
    if id in s.requests {
      var r := s.requests[id];
      if step.StoreOffer? && r.PrepareRead? {
        FirstOfferKeeps(s, StoredOffer(s.offer, r.version, r.payload));
        BeginKeeps(WithOffer(s, StoredOffer(s.offer, r.version, r.payload)), id, PrepareStored(r.version));
      } else if step.StorePrepareJob? && r.PrepareStored? {
        UpsertKeeps(s, id, Prepare, r.version);
      } else if step.StoreApproval? && r.PublishRead? && s.offer.Some? {
        var offer := s.offer.value.(status := PublishQueued, approved := true);
        OfferKeeps(s, offer);
        BeginKeeps(WithOffer(s, offer), id, PublishStored(r.version));
      } else if step.StorePublishJob? && r.PublishStored? {
        UpsertKeeps(s, id, Publish, r.version);
      } else if step.ResetJob? && r.ResetPending? && r.job in s.jobs {
        JobKeeps(s, r.job, Queued, None);
        BeginKeeps(s.(jobs := s.jobs[r.job := s.jobs[r.job].(status := Queued, owner := None)]), id, PrepareStored(0));
      }
    }
    hide Inv, Move, Close, StoredOffer, UpsertJob;
  }

  lemma FirstOfferKeeps(s: State, offer: Offer)
    requires Inv(s) && !Waits(Some(offer))
    ensures Inv(WithOffer(s, offer))
  {
    hide WellNumbered, Active;
  }

  lemma OperationRequestKeeps(s: State, step: Step)
    requires Inv(s) && (step.StoreRevisionJob? || step.StoreWithdrawalJob? || step.StoreReconciliationJob?)
    ensures Inv(RequestStep(s, step))
  {
    hide Inv, Close;
    var id := step.request;
    if id in s.requests && s.offer.Some? {
      var r := s.requests[id];
      if step.StoreRevisionJob? && r.ReviseRead? {
        var offer, job := s.offer.value.(status := RevisionQueued), Job(Revise, r.version, Some(r.payload), Queued, None);
        NewOperationKeeps(s, offer, job);
        BeginKeeps(s.(offer := Some(offer), jobs := s.jobs[OperationJob(s.nextJob) := job], nextJob := s.nextJob + 1,
                      queuedBy := s.nextJob), id, PrepareStored(0));
      } else if step.StoreWithdrawalJob? && r.WithdrawRead? {
        var offer, job := s.offer.value.(status := WithdrawQueued), Job(Withdraw, r.version, None, Queued, None);
        NewOperationKeeps(s, offer, job);
        BeginKeeps(s.(offer := Some(offer), jobs := s.jobs[OperationJob(s.nextJob) := job], nextJob := s.nextJob + 1,
                      queuedBy := s.nextJob), id, PrepareStored(0));
      } else if step.StoreReconciliationJob? && r.ReconcileRead? {
        var job := Job(Reconcile, r.version, None, Queued, None);
        NewReconciliationKeeps(s, job);
        BeginKeeps(s.(jobs := s.jobs[OperationJob(s.nextJob) := job], nextJob := s.nextJob + 1), id, PrepareStored(0));
      }
    }
  }

  lemma BeginRequestKeeps(s: State, step: Step)
    requires Inv(s)
    requires step.BeginPrepare? || step.BeginPublish? || step.BeginRevise? || step.BeginWithdraw? || step.BeginReconcile? || step.DropRequest?
    ensures Inv(RequestStep(s, step))
  {
    hide Inv, Begin, Close, DraftIsLive, SyncedAt, PriceApproved, NoActiveOperation, BuildOfferPayload;
    var id := step.request;
    match step
    case BeginPrepare(_) =>
      if MayPrepare(s) {
        BeginKeeps(s, id, PrepareRead(s.draft.version, BuildOfferPayload(s.draft.row.content).value));
      }
    case BeginPublish(_) =>
      if MayPublish(s) {
        BeginKeeps(s, id, PublishRead(s.offer.value.version));
      }
    case BeginRevise(_) =>
      if MayRevise(s) {
        BeginKeeps(s, id, ReviseRead(s.draft.version, BuildOfferPayload(s.draft.row.content).value));
      }
    case BeginWithdraw(_) =>
      if MayWithdraw(s) {
        BeginKeeps(s, id, WithdrawRead(s.offer.value.version));
      }
    case BeginReconcile(_) =>
      if MayReconcile(s) {
        BeginKeeps(s, id, ReconcileRead(s.offer.value.version));
      }
    case DropRequest(_) => BeginKeeps(s, id, PrepareStored(0));
    case _ =>
  }

  lemma OutsideKeeps(s: State, t: State)
    requires Inv(s) && s.offer == t.offer && s.jobs == t.jobs && s.nextJob == t.nextJob && s.queuedBy == t.queuedBy
    requires s.blind == t.blind && s.requests == t.requests && s.runs == t.runs
    ensures Inv(t)
  {
    hide WellNumbered, Active, Resting;
  }

  lemma StepKeepsInv(s: State, step: Step)
    requires Inv(s)
    ensures Inv(Apply(s, step))
  {
    hide Inv, SyncStep, RequestStep, RunnerStep, RemoteStep, Drafts.Apply, Blocked;
    if step.DraftStep? {
      OutsideKeeps(s, s.(draft := Drafts.Apply(s.draft, step.step)));
    } else if step.Decide? {
      OutsideKeeps(s, s.(approval := step.approval));
    } else if step.StoreOffer? || step.StorePrepareJob? || step.StoreApproval? || step.StorePublishJob? || step.ResetJob? {
      OfferRequestKeeps(s, step);
    } else if step.StoreRevisionJob? || step.StoreWithdrawalJob? || step.StoreReconciliationJob? {
      OperationRequestKeeps(s, step);
    } else if step.BeginPrepare? || step.BeginPublish? || step.BeginRevise? || step.BeginWithdraw? || step.BeginReconcile?
              || step.DropRequest? {
      BeginRequestKeeps(s, step);
    } else {
      OutsideKeeps(s, SyncStep(s, step));
      OutsideKeeps(s, RemoteStep(s, step));
      RunnerStepKeeps(s, step);
    }
  }

  lemma {:induction false} ExecKeepsInv(s: State, steps: seq<Step>)
    requires Inv(s)
    ensures Inv(Exec(s, steps))
    decreases |steps|
  {
    hide Inv, Apply;
    if steps != [] {
      StepKeepsInv(s, steps[0]);
      ExecKeepsInv(Apply(s, steps[0]), steps[1..]);
    }
  }

  lemma InitHolds(config: Config, content: Drafts.Content, ready: bool)
    ensures Inv(Init(config, content, ready))
  {
  }

  /**
   * After every run, however requests and runners overlap: an offer that waits for a revision or a withdrawal has a job
   * of that action, and that job is active exactly when no blind error handler failed it.
   */
  lemma QueuedOffersAreTended(config: Config, content: Drafts.Content, ready: bool, steps: seq<Step>)
    ensures var s := Exec(Init(config, content, ready), steps);
            Waits(s.offer) ==>
              && Tender(s) in s.jobs
              && s.jobs[Tender(s)].action == WaitsFor(s.offer.value)
              && (Active(s.jobs[Tender(s)]) <==> Tender(s) !in s.blind)
  {
    InitHolds(config, content, ready);
    ExecKeepsInv(Init(config, content, ready), steps);
  }
}
