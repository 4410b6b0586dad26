/**
 * The exact conditions of the listing protocol's promises.  For each promise, every run keeps it if and only if requests
 * are atomic, or runners are kept apart, in just the way that is named; the runs that break it otherwise are those of
 * ListingCounterexamples and ListingOverlaps.
 */
module ListingConditions {
  import opened Wrappers
  import opened ListingProtocol
  import Content = ListingContent
  import Orphans = ListingOrphans
  import Requests = ListingRequests
  import Versions = ListingVersions
  import ListingRemote
  import Runs = ListingCounterexamples
  import Overlaps = ListingOverlaps
  import Drafts

  // ----- remote effects

  ghost predicate CreatesOnce(config: Config) {
    forall content, ready, steps :: Exec(Init(config, content, ready), steps).remote.extraCreates == 0
  }

  ghost predicate PublishesOnce(config: Config) {
    forall content, ready, steps :: Exec(Init(config, content, ready), steps).remote.extraPublishes == 0
  }

  ghost predicate RecordsLast(config: Config) {
    forall content, ready, steps, next: Step ::
      var s := Exec(Init(config, content, ready), steps);
      ListingRemote.Records(s, Apply(s, next))
  }

  /**
   * No create is ever sent while eBay has an offer, no publish while the offer shows a listing, and no listing is recorded
   * but eBay's last: each of the three holds of all runs if and only if an offer has at most one live runner.
   */
  lemma RemoteEffectsExactly(config: Config)
    ensures CreatesOnce(config) <==> config.overlap.OneRunnerPerOffer?
    ensures PublishesOnce(config) <==> config.overlap.OneRunnerPerOffer?
    ensures RecordsLast(config) <==> config.overlap.OneRunnerPerOffer?
  {
    hide Exec, Apply, Init, ListingRemote.Records;
    if config.overlap.OneRunnerPerOffer? {
      forall content, ready, steps, next: Step
        ensures var s := Exec(Init(config, content, ready), steps); ListingRemote.Records(s, Apply(s, next))
      {
        ListingRemote.RemoteEffectsHappenOnce(config, content, ready, steps, next);
      }
      forall content, ready, steps
        ensures var s := Exec(Init(config, content, ready), steps); s.remote.extraCreates == 0 && s.remote.extraPublishes == 0
      {
        ListingRemote.RemoteEffectsHappenOnce(config, content, ready, steps, ListingEnds);
      }
    } else {
      Runs.RunnersOfTwoJobsCreateTwice(config);
      Overlaps.RunnersOfTwoJobsPublishTwice(config);
      Overlaps.LateRunnerRecordsOldListing(config);
    }
  }

  // ----- prices and revisions at the write of a request

  ghost predicate PublicationsPriced(config: Config) {
    forall content, ready, steps, id :: Requests.PublishesApproved(Exec(Init(config, content, ready), steps), id)
  }

  ghost predicate RevisionsPriced(config: Config) {
    forall content, ready, steps, id :: Requests.RevisesApproved(Exec(Init(config, content, ready), steps), id)
  }

  ghost predicate RevisionsForward(config: Config) {
    forall content, ready, steps, id :: Requests.RevisesForward(Exec(Init(config, content, ready), steps), id)
  }

  ghost predicate RevisionsOneByOne(config: Config) {
    forall content, ready, steps :: Versions.OneRevision(Exec(Init(config, content, ready), steps).jobs)
  }

  /**
   * Offers are queued for publication only at the price approved at that moment, and so are revisions; a revision is
   * created only to a current version newer than the offer's; and there is never more than one active revision: each of the
   * four holds of all runs if and only if requests are atomic.
   */
  lemma QueuedPricesExactly(config: Config)
    ensures PublicationsPriced(config) <==> config.atomicRequests
    ensures RevisionsPriced(config) <==> config.atomicRequests
    ensures RevisionsForward(config) <==> config.atomicRequests
    ensures RevisionsOneByOne(config) <==> config.atomicRequests
  {
    hide Exec, Apply, Init, Requests.PublishesApproved, Requests.RevisesApproved, Requests.RevisesForward, Versions.OneRevision;
    if config.atomicRequests {
      forall content, ready, steps, id
        ensures var s := Exec(Init(config, content, ready), steps);
                && Requests.PublishesApproved(s, id) && Requests.RevisesApproved(s, id) && Requests.RevisesForward(s, id)
      {
        Requests.QueuedPricesAreApproved(config, content, ready, steps, id);
      }
      forall content, ready, steps
        ensures Versions.OneRevision(Exec(Init(config, content, ready), steps).jobs)
      {
        OneRevisionAtATime(config, content, ready, steps);
      }
    } else {
      assert config == Config(false, config.overlap);
      Runs.SupersededApprovalIsUsed(config.overlap);
      Runs.SupersededApprovalIsRevised(config.overlap);
      Runs.DuplicateRequestsReviseTwice(config.overlap);
    }
  }

  predicate ActiveRevision(jobs: map<JobRef, Job>, j: JobRef) {
    j in jobs && jobs[j].action.Revise? && Active(jobs[j])
  }

  /** No revision becomes active. */
  ghost predicate RevivesNone(before: map<JobRef, Job>, after: map<JobRef, Job>) {
    forall j :: ActiveRevision(after, j) ==> ActiveRevision(before, j)
  }

  lemma EndRunRevivesNone(s: State, k: RunKey, pc: Pc, reply: Reply)
    ensures RevivesNone(s.jobs, EndRun(s, k, pc, reply).jobs)
  {
    hide AbortedStatus;
  }

  lemma RunRevivesNone(s: State, k: RunKey, reply: Reply)
    requires k in s.runs
    ensures RevivesNone(s.jobs, Run(s, k, reply).jobs)
  {
    hide PrepareRun, PublishRun, ReviseRun, WithdrawRun, ReconcileRun, EndRun, Load, RevivesNone;
    NothingRevived(s.jobs);
    EndRunRevivesNone(s, k, s.runs[k], reply);
  }

  lemma RunnerRevivesNone(s: State, step: Step)
    ensures RevivesNone(s.jobs, RunnerStep(s, step).jobs)
  {
    hide Run, MayClaim;
    if step.Advance? && RunKey(step.worker, step.job) in s.runs {
      RunRevivesNone(s, RunKey(step.worker, step.job), step.reply);
    }
  }

  lemma RequestRevivesNone(s: State, step: Step)
    requires Orphans.Inv(s) && !step.StoreRevisionJob?
    ensures RevivesNone(s.jobs, RequestStep(s, step).jobs)
  {
    hide Orphans.Tended, MayPrepare, MayPublish, MayRevise, MayWithdraw, MayReconcile, BuildOfferPayload, StoredOffer;
    if step.ResetJob? && step.request in s.requests && s.requests[step.request].ResetPending? && s.requests[step.request].job in s.jobs {
      Versions.ResetJobIsNoRevision(s, step.request);
    }
  }

  /** A new revision finds no active operation, so no active revision. */
  lemma NewRevisionIsAlone(s: State, id: nat)
    requires Orphans.Inv(s) && Requests.Inv(s) && Versions.OneRevision(s.jobs)
    ensures Versions.OneRevision(RequestStep(s, StoreRevisionJob(id)).jobs)
  {
    hide Orphans.Tended, Requests.Inv, Versions.OneRevision;
    if id in s.requests && s.requests[id].ReviseRead? && s.offer.Some? {
      Versions.ReviseGuard(s, id);
      NoneIsActive(s);
      var j, job := OperationJob(s.nextJob), Job(Revise, s.requests[id].version, Some(s.requests[id].payload), Queued, None);
      OneMore(s.jobs, j, job);
    }
  }

  lemma NoneIsActive(s: State)
    requires Orphans.Inv(s) && MayRevise(s)
    ensures forall j :: !ActiveRevision(s.jobs, j)
  {
    hide Orphans.Tended;
  }

  lemma OneMore(jobs: map<JobRef, Job>, j: JobRef, job: Job)
    requires forall i :: !ActiveRevision(jobs, i)
    ensures Versions.OneRevision(jobs[j := job])
  {
    forall i | i in jobs && i != j
      ensures !(jobs[i].action.Revise? && Active(jobs[i]))
    {
      assert !ActiveRevision(jobs, i);
    }
  }

  lemma NoneRevivedIsOne(before: map<JobRef, Job>, after: map<JobRef, Job>)
    requires Versions.OneRevision(before) && RevivesNone(before, after)
    ensures Versions.OneRevision(after)
  {
    forall i, j | i in after && j in after && after[i].action.Revise? && after[j].action.Revise? && Active(after[i]) && Active(after[j])
      ensures i == j
    {
      assert ActiveRevision(after, i) && ActiveRevision(after, j);
    }
  }

  lemma StepKeepsOneRevision(s: State, step: Step)
    requires Orphans.Inv(s) && Requests.Inv(s) && Versions.OneRevision(s.jobs)
    ensures Versions.OneRevision(Apply(s, step).jobs)
  {
    hide Orphans.Inv, Requests.Inv, Versions.OneRevision, SyncStep, RequestStep, RunnerStep, RemoteStep, Drafts.Apply, Blocked, RevivesNone;
    if step.StoreRevisionJob? {
      NewRevisionIsAlone(s, step.request);
    } else {
      RequestRevivesNone(s, step);
      RunnerRevivesNone(s, step);
      NothingRevived(s.jobs);
      NoneRevivedIsOne(s.jobs, Apply(s, step).jobs);
    }
  }

  lemma NothingRevived(jobs: map<JobRef, Job>)
    ensures RevivesNone(jobs, jobs)
  {
  }

  lemma {:induction false} ExecKeepsOneRevision(s: State, steps: seq<Step>)
    requires Orphans.Inv(s) && Requests.Inv(s) && Versions.OneRevision(s.jobs)
    ensures Versions.OneRevision(Exec(s, steps).jobs)
    decreases |steps|
  {
    hide Orphans.Inv, Requests.Inv, Versions.OneRevision, Apply;
    if steps != [] {
      StepKeepsOneRevision(s, steps[0]);
      Requests.StepKeepsInv(s, steps[0]);
      Orphans.StepKeepsInv(s, steps[0]);
      ExecKeepsOneRevision(Apply(s, steps[0]), steps[1..]);
    }
  }

  /** With atomic requests there is at most one active revision, however runners overlap. */
  lemma OneRevisionAtATime(config: Config, content: Drafts.Content, ready: bool, steps: seq<Step>)
    requires config.atomicRequests
    ensures Versions.OneRevision(Exec(Init(config, content, ready), steps).jobs)
  {
    hide Exec;
    Orphans.InitHolds(config, content, ready);
    ExecKeepsOneRevision(Init(config, content, ready), steps);
  }

  // ----- versions

  /** Is the step about to store an older version: from a late prepare request, or from a late revision? */
  predicate TakesBack(s: State, step: Step) {
    && s.offer.Some? && !Blocked(s, step)
    && match step
       case StoreOffer(id) => id in s.requests && s.requests[id].PrepareRead? && s.requests[id].version < s.offer.value.version
       case Advance(w, j, reply) =>
         && RunKey(w, j) in s.runs && s.runs[RunKey(w, j)].StoringRevision?
         && s.runs[RunKey(w, j)].version < s.offer.value.version && !reply.NoEffect?
       case _ => false
  }

  predicate SameVersion(s: State, t: State) {
    s.offer.Some? && t.offer.Some? ==> s.offer.value.version == t.offer.value.version
  }

  lemma PrepareAndPublishKeepVersion(s: State, k: RunKey, pc: Pc, reply: Reply)
    ensures SameVersion(s, PrepareRun(s, k, pc, reply)) && SameVersion(s, PublishRun(s, k, pc, reply))
  {
    hide CreateRemote, PublishRemote, FindBySku;
  }

  lemma OtherRunsKeepVersion(s: State, k: RunKey, pc: Pc, reply: Reply)
    ensures SameVersion(s, WithdrawRun(s, k, pc, reply)) && SameVersion(s, ReconcileRun(s, k, pc, reply))
    ensures SameVersion(s, EndRun(s, k, pc, reply))
  {
    hide EndRemote, OfferDrift, AbortedStatus;
  }

  lemma ReviseTakesBackExactly(s: State, k: RunKey, pc: Pc, reply: Reply)
    ensures Runs.StepsBack(s, ReviseRun(s, k, pc, reply))
            <==> s.offer.Some? && pc.StoringRevision? && pc.version < s.offer.value.version && !reply.NoEffect?
  {
    hide OfferDrift;
  }

  lemma RunTakesBackExactly(s: State, k: RunKey, reply: Reply)
    requires k in s.runs
    ensures Runs.StepsBack(s, Run(s, k, reply))
            <==> s.offer.Some? && s.runs[k].StoringRevision? && s.runs[k].version < s.offer.value.version && !reply.NoEffect?
  {
    hide Load, PrepareRun, PublishRun, ReviseRun, WithdrawRun, ReconcileRun, EndRun;
    PrepareAndPublishKeepVersion(s, k, s.runs[k], reply);
    OtherRunsKeepVersion(s, k, s.runs[k], reply);
    ReviseTakesBackExactly(s, k, s.runs[k], reply);
  }

  lemma RequestTakesBackExactly(s: State, step: Step)
    ensures Runs.StepsBack(s, RequestStep(s, step))
            <==> && s.offer.Some? && step.StoreOffer? && step.request in s.requests && s.requests[step.request].PrepareRead?
                 && s.requests[step.request].version < s.offer.value.version
  {
    hide MayPrepare, MayPublish, MayRevise, MayWithdraw, MayReconcile, BuildOfferPayload;
  }

  /** In every state, the offer's version falls in exactly those two steps and in no other. */
  lemma VersionFallsExactly(s: State, step: Step)
    ensures Runs.StepsBack(s, Apply(s, step)) <==> TakesBack(s, step)
  {
    hide SyncStep, RequestStep, Run, RemoteStep, Drafts.Apply, MayClaim;
    RequestTakesBackExactly(s, step);
    if step.Advance? && RunKey(step.worker, step.job) in s.runs {
      RunTakesBackExactly(s, RunKey(step.worker, step.job), step.reply);
    }
  }

  ghost predicate NeverRegresses(config: Config) {
    forall content, ready, before: seq<Step>, after: seq<Step> ::
      var s := Exec(Init(config, content, ready), before);
      Versions.Advances(s, Exec(s, after))
  }

  /**
   * An offer's version never decreases between any two moments of any run if and only if requests are atomic and no job has
   * two live runners.
   */
  lemma VersionsNeverRegressExactly(config: Config)
    ensures NeverRegresses(config) <==> config.atomicRequests && !config.overlap.AnyRunners?
  {
    hide Exec, Apply, Init, Versions.Advances;
    if config.atomicRequests && !config.overlap.AnyRunners? {
      forall content, ready, before: seq<Step>, after: seq<Step>
        ensures var s := Exec(Init(config, content, ready), before); Versions.Advances(s, Exec(s, after))
      {
        Versions.VersionsNeverRegress(config, content, ready, before, after);
      }
    } else {
      if config.overlap.AnyRunners? {
        Runs.OvertakenRunnerTakesVersionBack(config);
      } else {
        assert config == Config(false, config.overlap);
        Runs.StaleRequestTakesVersionBack(config.overlap);
      }
      var s, step :| Runs.Reaches(config, s) && Runs.StepsBack(s, Apply(s, step));
      var before :| Exec(Init(config, Runs.CONTENT, true), before) == s;
      StepIsRun(s, step);
      assert !Versions.Advances(s, Exec(s, [step])) by { BackIsNoAdvance(s, Apply(s, step)); }
    }
  }

  lemma StepIsRun(s: State, step: Step)
    ensures Exec(s, [step]) == Apply(s, step)
  {
    hide Apply;
    assert Exec(s, [step]) == Exec(Apply(s, step), []);
  }

  lemma BackIsNoAdvance(s: State, t: State)
    requires Runs.StepsBack(s, t)
    ensures !Versions.Advances(s, t)
  {
  }

  /** But it never passes the draft's version, however requests and runners overlap. */
  lemma VersionsStayBehindDraft(config: Config, content: Drafts.Content, ready: bool, steps: seq<Step>)
    ensures var s := Exec(Init(config, content, ready), steps);
            s.offer.Some? ==> 1 <= s.offer.value.version <= s.draft.version
  {
    hide Exec;
    Content.InitHolds(config, content, ready);
    Content.ExecKeepsInv(Init(config, content, ready), steps);
  }
}
