/**
 * Runs in which the runners of two publish jobs of one offer meet.  A prepare job and a publish job are run again after
 * crashes, the offer is reconciled and revised, and is then approved at its new version while the first publish runner
 * still waits.  Requests are atomic, and no job ever has two runners.
 */
module ListingOverlaps {
  import opened Wrappers
  import opened ListingProtocol
  import opened ListingCounterexamples
  import ListingRemote
  import Drafts

  const SECOND := RunKey(1, OfferJob(Publish, 3))
  const SPARE := Job(Prepare, 2, None, Queued, None)

  // ----- pieces of runs, from any state

  /** Queue the job again after its runner crashed. */
  function Lost(s: State, k: RunKey): State
    requires k.job in s.jobs
  {
    s.(jobs := s.jobs[k.job := s.jobs[k.job].(status := Queued, owner := None)], runs := s.runs - {k})
  }

  lemma Crashes(r: State -> bool, config: Config, s: State, k: RunKey)
    requires Covers(r, config)
    requires r(s) && Unblocked(s) && k.job in s.jobs && s.jobs[k.job].status.Running?
    ensures r(Lost(s, k))
  {
    hide Covers, SyncStep, RequestStep, RemoteStep, Drafts.Apply, Run;
    var s1 := s.(runs := s.runs - {k});
    Take(r, config, s, Crash(k.worker, k.job), s1);
    Take(r, config, s1, Reclaim(k.job), Lost(s, k));
  }

  /** The offer approved, with a queued publish job of its version. */
  function PublicationQueued(s: State): State
    requires s.offer.Some?
  {
    var ref := OfferJob(Publish, s.offer.value.version);
    s.(offer := Some(s.offer.value.(status := PublishQueued, approved := true)),
       jobs := if ref in s.jobs then s.jobs else s.jobs[ref := Job(Publish, s.offer.value.version, None, Queued, None)])
  }

  lemma QueuesPublication(r: State -> bool, config: Config, s: State)
    requires Covers(r, config)
    requires r(s) && s.open.None? && s.requests == map[] && MayPublish(s)
    requires var ref := OfferJob(Publish, s.offer.value.version); ref in s.jobs ==> s.jobs[ref].status.Queued?
    ensures r(PublicationQueued(s))
  {
    hide Covers, SyncStep, RunnerStep, RemoteStep, Drafts.Apply, MayPublish, PriceApproved;
    HasOffer(s);
    var v := s.offer.value.version;
    var s1 := Begin(s, 0, PublishRead(v));
    Take(r, config, s, BeginPublish(0), s1);
    var s2 := Move(WithOffer(s1, s1.offer.value.(status := PublishQueued, approved := true)), 0, PublishStored(v));
    Take(r, config, s1, StoreApproval(0), s2);
    var s3 := UpsertJob(s2, 0, Publish, v);
    Take(r, config, s2, StorePublishJob(0), s3);
    assert s3.requests == s.requests;
  }

  lemma HasOffer(s: State)
    requires MayPublish(s)
    ensures s.offer.Some?
  {
  }

  /** A publish runner that has loaded its job but not yet asked for a listing. */
  function Loaded(s: State, k: RunKey): State
    requires k.job in s.jobs
  {
    s.(jobs := s.jobs[k.job := s.jobs[k.job].(status := Running, owner := Some(k.worker))], runs := s.runs[k := CheckingListing(0)])
  }

  lemma Loads(r: State -> bool, config: Config, s: State, k: RunKey)
    requires Covers(r, config)
    requires r(s) && Unblocked(s) && MayClaim(s, k.worker, k.job) && k.job in s.jobs
    requires s.jobs[k.job].action.Publish? && s.jobs[k.job].status.Queued?
    requires s.offer.Some? && s.offer.value.status.PublishQueued? && s.offer.value.approved && s.offer.value.remoteId == Some(0)
    requires s.draft.version == s.offer.value.version && s.draft.row.live
    ensures r(Loaded(s, k))
  {
    hide Covers, Apply, MayClaim;
    Claims(r, config, s, k);
    var s1 := Taken(s, k);
    Moves(r, config, s1, k, Goto(s1, k, CheckingListing(0)));
    assert Goto(s1, k, CheckingListing(0)).runs == Loaded(s, k).runs;
  }

  /** What a check for a listing leads to. */
  function Checked(s: State, k: RunKey): State
    requires s.remote.offer.Some?
  {
    var listing := s.remote.offer.value.listing;
    Goto(s, k, if listing.Some? then StoringListing(listing.value) else Pc.Publishing(0))
  }

  lemma Checks(r: State -> bool, config: Config, s: State, k: RunKey)
    requires Covers(r, config)
    requires r(s) && Unblocked(s) && k in s.runs && s.runs[k] == CheckingListing(0) && s.remote.offer.Some?
    ensures r(Checked(s, k))
  {
    hide Covers, Apply;
    Moves(r, config, s, k, Checked(s, k));
  }

  function Sent(s: State, k: RunKey): State
    requires s.remote.offer.Some?
  {
    var next := if s.remote.offer.value.listing.Some? then CheckingAgain(0) else StoringListing(s.remote.nextId);
    Goto(s.(remote := PublishRemote(s.remote)), k, next)
  }

  lemma Sends(r: State -> bool, config: Config, s: State, k: RunKey)
    requires Covers(r, config)
    requires r(s) && Unblocked(s) && k in s.runs && s.runs[k] == Pc.Publishing(0) && s.remote.offer.Some?
    ensures r(Sent(s, k))
  {
    hide Covers, Apply, PublishRemote;
    Moves(r, config, s, k, Sent(s, k));
  }

  function Stored(s: State, k: RunKey, listing: int): State
    requires s.offer.Some?
  {
    Goto(WithOffer(s, s.offer.value.(status := Published, listingId := Some(listing), publishedBefore := true)), k, Finishing)
  }

  lemma Stores(r: State -> bool, config: Config, s: State, k: RunKey, listing: int)
    requires Covers(r, config)
    requires r(s) && Unblocked(s) && k in s.runs && s.runs[k] == StoringListing(listing) && s.offer.Some?
    ensures r(Stored(s, k, listing))
  {
    hide Covers, Apply;
    Moves(r, config, s, k, Stored(s, k, listing));
  }

  /** The listing ends, and eBay shows none any more. */
  function Ended(s: State): State
    requires s.remote.offer.Some?
  {
    s.(remote := EndRemote(s.remote, false).(
         offer := Some(s.remote.offer.value.(listing := None, published := false, live := false))))
  }

  lemma Ends(r: State -> bool, config: Config, s: State)
    requires Covers(r, config)
    requires r(s) && Unblocked(s) && s.remote.offer.Some?
    ensures r(Ended(s))
  {
    hide Covers, SyncStep, RequestStep, RunnerStep, Drafts.Apply;
    var s1 := s.(remote := EndRemote(s.remote, s.remote.offer.value.published));
    Take(r, config, s, ListingEnds, s1);
    Take(r, config, s1, ListingForgotten, Ended(s));
  }

  // ----- fees, again and again

  function WithFees(s: State): State
    requires s.offer.Some?
  {
    WithOffer(s, s.offer.value.(status := FeesReady, feesStored := true))
  }

  /** A prepare runner that asks for fees stores them and crashes, so that its job is queued again. */
  lemma StoresFeesAndCrashes(r: State -> bool, config: Config, s: State, k: RunKey)
    requires Covers(r, config)
    requires r(s) && Unblocked(s) && k in s.runs && s.runs[k].AskingFees? && s.offer.Some?
    requires k.job in s.jobs && s.jobs[k.job].status.Running?
    ensures r(Lost(WithFees(s), k))
  {
    hide Covers, Apply;
    var s1 := Goto(s, k, StoringFees);
    Moves(r, config, s, k, s1);
    var s2 := Goto(WithFees(s1), k, Finishing);
    Moves(r, config, s1, k, s2);
    Crashes(r, config, s2, k);
    assert s2.runs - {k} == s.runs - {k};
  }

  /** The spare prepare job makes an offer FEES_READY again, and is queued as before. */
  lemma StoresFeesAgain(r: State -> bool, config: Config, s: State, k: RunKey)
    requires Covers(r, config)
    requires r(s) && Unblocked(s) && MayClaim(s, k.worker, k.job) && k !in s.runs
    requires k.job in s.jobs && s.jobs[k.job] == SPARE
    requires s.offer.Some? && s.offer.value.remoteId == Some(0) && s.offer.value.payload == PAYLOAD
    requires s.remote.offer.Some? && s.remote.offer.value.id == 0 && s.remote.offer.value.payload == PAYLOAD
    ensures r(WithFees(s))
  {
    hide Covers, Apply, MayClaim;
    Claims(r, config, s, k);
    var s1 := Taken(s, k);
    AsksFeesAgain(r, config, s1, k);
    var s2 := s1.(runs := s1.runs[k := AskingFees]);
    StoresFeesAndCrashes(r, config, s2, k);
    assert s2.runs - {k} == s.runs;
    assert s2.jobs[k.job := SPARE] == s.jobs;
  }

  lemma AsksFeesAgain(r: State -> bool, config: Config, s: State, k: RunKey)
    requires Covers(r, config)
    requires r(s) && Unblocked(s) && k in s.runs && s.runs[k].Claimed? && k.job in s.jobs && s.jobs[k.job].action.Prepare?
    requires s.offer.Some? && s.offer.value.remoteId == Some(0) && s.offer.value.payload == PAYLOAD
    requires s.remote.offer.Some? && s.remote.offer.value.id == 0 && s.remote.offer.value.payload == PAYLOAD
    ensures r(s.(runs := s.runs[k := AskingFees]))
  {
    hide Covers, Apply, PublishRun, ReviseRun, WithdrawRun, ReconcileRun, EndRun;
    var s1 := Goto(s, k, UpdatingPrepared(PAYLOAD, 0));
    Moves(r, config, s, k, s1);
    assert s.remote.offer.value.(payload := PAYLOAD) == s.remote.offer.value;
    assert s.remote.(offer := Some(s.remote.offer.value)) == s.remote;
    Moves(r, config, s1, k, Goto(s1, k, AskingFees));
    assert s1.runs[k := AskingFees] == s.runs[k := AskingFees];
  }

  // ----- the first publication, then a publish runner that waits

  /** The first fees, with the prepare job queued again. */
  function Priced(config: Config): State {
    FeesKnown(config).(jobs := map[PREPARER.job := SPARE])
  }

  lemma ReachesPriced(r: State -> bool, config: Config)
    requires Covers(r, config)
    ensures r(Priced(config))
  {
    hide Covers, Apply;
    ReachesCreated(r, config);
    CreatedIsPreparing(config);
    Records(r, config);
    var s := ListingCounterexamples.Preparing(config, Some(0), AskingFees);
    StoresFeesAndCrashes(r, config, s, PREPARER);
    var t := Lost(WithFees(s), PREPARER);
    assert t.runs == map[];
    assert t.jobs == Priced(config).jobs;
  }

  const AGAIN := Job(Publish, 2, None, Queued, None)

  /** The first listing, with both jobs queued again. */
  function Listed(config: Config): State {
    Live(config).(jobs := map[PREPARER.job := SPARE, PUBLISHER.job := AGAIN])
  }

  lemma ReachesListed(r: State -> bool, config: Config)
    requires Covers(r, config)
    ensures r(Listed(config))
  {
    hide Covers, Apply;
    ReachesPriced(r, config);
    var s := Priced(config);
    QueuesPublication(r, config, s);
    var s1 := PublicationQueued(s);
    Loads(r, config, s1, PUBLISHER);
    PublishesAndCrashes(r, config, Loaded(s1, PUBLISHER));
    PublishedIsListed(config);
  }

  function PublishedOnce(s: State): State
    requires s.remote.offer.Some? && s.offer.Some? && PUBLISHER.job in s.jobs
  {
    var sent := s.(remote := PublishRemote(s.remote));
    Lost(Stored(sent, PUBLISHER, s.remote.nextId), PUBLISHER)
  }

  lemma PublishesAndCrashes(r: State -> bool, config: Config, s: State)
    requires Covers(r, config)
    requires r(s) && Unblocked(s) && PUBLISHER in s.runs && s.runs[PUBLISHER] == CheckingListing(0)
    requires s.remote.offer.Some? && s.remote.offer.value.listing.None? && s.offer.Some?
    requires PUBLISHER.job in s.jobs && s.jobs[PUBLISHER.job].status.Running?
    ensures r(PublishedOnce(s))
  {
    hide Covers, Apply, PublishRemote;
    Checks(r, config, s, PUBLISHER);
    var s1 := Checked(s, PUBLISHER);
    Sends(r, config, s1, PUBLISHER);
    var s2 := Sent(s1, PUBLISHER);
    Stores(r, config, s2, PUBLISHER, s.remote.nextId);
    var s3 := Stored(s2, PUBLISHER, s.remote.nextId);
    Crashes(r, config, s3, PUBLISHER);
    assert s3.runs - {PUBLISHER} == PublishedOnce(s).runs;
  }

  lemma PublishedIsListed(config: Config)
    ensures PublishedOnce(Loaded(PublicationQueued(Priced(config)), PUBLISHER)) == Listed(config)
  {
    var t := PublishedOnce(Loaded(PublicationQueued(Priced(config)), PUBLISHER));
    assert t.runs == map[];
    assert t.jobs == Listed(config).jobs;
  }

  /** Approved once more, its job taken by a runner that has not asked eBay yet. */
  function Waiting(config: Config): State {
    var s := Listed(config);
    Loaded(WithOffer(s, s.offer.value.(status := PublishQueued)), PUBLISHER)
  }

  lemma ReachesWaiting(r: State -> bool, config: Config)
    requires Covers(r, config)
    ensures r(Waiting(config))
  {
    hide Covers, Apply;
    ReachesListed(r, config);
    var s := Listed(config);
    StoresFeesAgain(r, config, s, PREPARER);
    var s1 := WithFees(s);
    QueuesPublication(r, config, s1);
    Loads(r, config, PublicationQueued(s1), PUBLISHER);
  }

  // ----- a reconciliation and a revision meanwhile

  const RECONCILER := RunKey(1, OperationJob(0))
  const RECONCILED := Job(Reconcile, 2, None, Completed, None)

  /** The offer is published again in the books, as eBay shows it. */
  function Reconciled(config: Config): State {
    var s := Waiting(config);
    s.(offer := Live(config).offer, jobs := s.jobs[OperationJob(0) := RECONCILED], nextJob := 1)
  }

  lemma QueuesReconciliation(r: State -> bool, config: Config, s: State)
    requires Covers(r, config)
    requires r(s) && s.open.None? && s.requests == map[] && MayReconcile(s)
    ensures s.offer.Some?
    ensures r(s.(jobs := s.jobs[OperationJob(s.nextJob) := Job(Reconcile, s.offer.value.version, None, Queued, None)], nextJob := s.nextJob + 1))
  {
    hide Covers, SyncStep, RunnerStep, RemoteStep, Drafts.Apply, NoActiveOperation;
    var s1 := Begin(s, 0, ReconcileRead(s.offer.value.version));
    Take(r, config, s, BeginReconcile(0), s1);
    var t := s.(jobs := s.jobs[OperationJob(s.nextJob) := Job(Reconcile, s.offer.value.version, None, Queued, None)], nextJob := s.nextJob + 1);
    assert s1.requests - {0} == map[];
    Take(r, config, s1, StoreReconciliationJob(0), t);
  }

  lemma Reconciles(r: State -> bool, config: Config, s: State, k: RunKey)
    requires Covers(r, config)
    requires r(s) && Unblocked(s) && MayClaim(s, k.worker, k.job) && k !in s.runs
    requires k.job in s.jobs && s.jobs[k.job].action.Reconcile? && s.jobs[k.job].status.Queued?
    requires LiveAt(s) && s.offer.value.payload == PAYLOAD && s.remote.offer.value.listing == s.offer.value.listingId
    ensures r(WithOffer(s, s.offer.value.(status := Published, drifted := false)).(
                jobs := s.jobs[k.job := s.jobs[k.job].(status := Completed, owner := None)]))
  {
    hide Covers, Apply, MayClaim;
    Claims(r, config, s, k);
    var s1 := Taken(s, k);
    ReadsRemote(r, config, s1, k);
    var s2 := s1.(runs := s1.runs[k := StoringReconciliation(Published, s.offer.value.listingId, false)]);
    var s3 := Goto(WithOffer(s2, s.offer.value.(status := Published, drifted := false)), k, Finishing);
    Moves(r, config, s2, k, s3);
    Finishes(r, config, s3, k);
    assert s3.runs - {k} == s.runs;
    var done := s.jobs[k.job].(status := Completed, owner := None);
    assert s3.jobs[k.job := done] == s.jobs[k.job := done];
  }

  lemma ReadsRemote(r: State -> bool, config: Config, s: State, k: RunKey)
    requires Covers(r, config)
    requires r(s) && Unblocked(s) && k in s.runs && s.runs[k].Claimed? && k.job in s.jobs && s.jobs[k.job].action.Reconcile?
    requires LiveAt(s) && s.offer.value.payload == PAYLOAD && s.remote.offer.value.listing == s.offer.value.listingId
    ensures r(s.(runs := s.runs[k := StoringReconciliation(Published, s.offer.value.listingId, false)]))
  {
    hide Covers, Apply, PrepareRun, PublishRun, ReviseRun, WithdrawRun, EndRun;
    var s1 := Goto(s, k, ReadingRemote(PAYLOAD, s.offer.value.listingId));
    Moves(r, config, s, k, s1);
    var s2 := Goto(s1, k, StoringReconciliation(Published, s.offer.value.listingId, false));
    Moves(r, config, s1, k, s2);
    assert s2.runs == s.runs[k := StoringReconciliation(Published, s.offer.value.listingId, false)];
  }

  lemma ReachesReconciled(r: State -> bool, config: Config)
    requires Covers(r, config) && !config.overlap.OneRunnerPerOffer?
    ensures r(Reconciled(config))
  {
    hide Covers, Apply;
    ReachesWaiting(r, config);
    var s := Waiting(config);
    QueuesReconciliation(r, config, s);
    var s1 := s.(jobs := s.jobs[OperationJob(0) := Job(Reconcile, 2, None, Queued, None)], nextJob := 1);
    Reconciles(r, config, s1, RECONCILER);
    assert s1.jobs[OperationJob(0) := RECONCILED] == Reconciled(config).jobs;
  }

  const REVISER := RunKey(1, OperationJob(1))
  const REVISED := Job(Revise, 3, Some(PAYLOAD), Completed, None)

  function Validated(config: Config): State {
    var s := Reconciled(config);
    s.(draft := DraftAt(3), prepared := s.prepared + {3}, syncs := s.syncs[3 := SyncCompleted])
  }

  /** Version 3 is listed, while the publish runner of version 2 waits. */
  function Revised(config: Config): State {
    var s := Validated(config);
    s.(offer := Some(s.offer.value.(version := 3)), jobs := s.jobs[OperationJob(1) := REVISED], nextJob := 2, queuedBy := 1)
  }

  lemma ReachesRevised(r: State -> bool, config: Config)
    requires Covers(r, config) && !config.overlap.OneRunnerPerOffer?
    ensures r(Revised(config))
  {
    hide Covers, Apply, MayClaim;
    QueuesSecondVersion(r, config);
    var s := RevisionQueuedAt(Validated(config));
    assert MayClaim(s, REVISER.worker, REVISER.job) by { OthersMayClaim(s, PUBLISHER, REVISER); }
    CompletesRevision(r, config, s, REVISER);
    RevisionIsStored(config);
  }

  lemma QueuesSecondVersion(r: State -> bool, config: Config)
    requires Covers(r, config) && !config.overlap.OneRunnerPerOffer?
    ensures r(RevisionQueuedAt(Validated(config)))
  {
    hide Covers, Apply;
    ReachesReconciled(r, config);
    Validates(r, config, Reconciled(config));
    QueuesRevision(r, config, Validated(config));
  }

  /** One waiting runner keeps none of another job from its claim. */
  lemma OthersMayClaim(s: State, waiting: RunKey, k: RunKey)
    requires !s.config.overlap.OneRunnerPerOffer? && s.runs.Keys == {waiting} && k.job != waiting.job
    ensures MayClaim(s, k.worker, k.job)
  {
  }

  lemma RevisionIsStored(config: Config)
    ensures RevisionStored(RevisionQueuedAt(Validated(config)), REVISER) == Revised(config)
  {
    var t := RevisionStored(RevisionQueuedAt(Validated(config)), REVISER);
    assert t.runs == Revised(config).runs;
    assert t.jobs == Revised(config).jobs;
    assert t.requests == map[];
  }

  /** Version 3 is approved as well, and both publish runners are about to ask eBay for a listing. */
  function Rivals(config: Config): State {
    var s := Revised(config);
    Loaded(PublicationQueued(s), SECOND)
  }

  lemma ReachesRivals(r: State -> bool, config: Config)
    requires Covers(r, config) && !config.overlap.OneRunnerPerOffer?
    ensures r(Rivals(config))
  {
    hide Covers, Apply, MayClaim;
    ReachesApproved(r, config);
    var s := PublicationQueued(WithFees(Revised(config)));
    assert MayClaim(s, SECOND.worker, SECOND.job) by { OthersMayClaim(s, PUBLISHER, SECOND); }
    Loads(r, config, s, SECOND);
  }

  lemma ReachesApproved(r: State -> bool, config: Config)
    requires Covers(r, config) && !config.overlap.OneRunnerPerOffer?
    ensures r(PublicationQueued(WithFees(Revised(config))))
  {
    hide Covers, Apply, MayClaim;
    ReachesRevised(r, config);
    var s := Revised(config);
    assert MayClaim(s, PREPARER.worker, PREPARER.job) by { OthersMayClaim(s, PUBLISHER, PREPARER); }
    StoresFeesAgain(r, config, s, PREPARER);
    QueuesPublication(r, config, WithFees(s));
  }

  // ----- what the two runners do to eBay and to the offer

  lemma RivalsMeet(config: Config)
    ensures var s := Rivals(config);
            && s.open.None? && s.runs == map[PUBLISHER := CheckingListing(0), SECOND := CheckingListing(0)]
            && s.remote == Live(config).remote && s.offer.Some? && s.offer.value.listingId == Some(1)
  {
  }

  /** Without one live runner per offer, two runners find the listing ended and both publish. */
  lemma RunnersOfTwoJobsPublishTwice(config: Config)
    requires !config.overlap.OneRunnerPerOffer?
    ensures exists s :: Reaches(config, s) && s.remote.extraPublishes == 1
  {
    hide Reaches;
    var r := (s: State) => Reaches(config, s);
    ReachedStatesCover(config, r);
    ReachesRivals(r, config);
    var s := SecondPublish(r, config);
  }

  lemma SecondPublish(r: State -> bool, config: Config) returns (t: State)
    requires Covers(r, config) && r(Rivals(config))
    ensures r(t) && t.remote.extraPublishes == 1
  {
    hide Covers, Apply, Rivals;
    RivalsMeet(config);
    var s := Rivals(config);
    Ends(r, config, s);
    var s1 := Ended(s);
    Checks(r, config, s1, PUBLISHER);
    var s2 := Checked(s1, PUBLISHER);
    Checks(r, config, s2, SECOND);
    var s3 := Checked(s2, SECOND);
    Sends(r, config, s3, PUBLISHER);
    var s4 := Sent(s3, PUBLISHER);
    Sends(r, config, s4, SECOND);
    t := Sent(s4, SECOND);
  }

  /** Nor is it the last listing that the offer records: a runner that has seen the first stores it over the second. */
  lemma LateRunnerRecordsOldListing(config: Config)
    requires !config.overlap.OneRunnerPerOffer?
    ensures exists s, step :: Reaches(config, s) && !ListingRemote.Records(s, Apply(s, step))
  {
    hide Reaches, Apply;
    var r := (s: State) => Reaches(config, s);
    ReachedStatesCover(config, r);
    ReachesRivals(r, config);
    var s := SecondListing(r, config);
    OldListingIsStored(s);
  }

  lemma SecondListing(r: State -> bool, config: Config) returns (t: State)
    requires Covers(r, config) && r(Rivals(config))
    ensures r(t) && t.open.None? && t.offer.Some? && t.offer.value.listingId == Some(2) && t.remote.lastListing == Some(2)
    ensures PUBLISHER in t.runs && t.runs[PUBLISHER] == StoringListing(1)
  {
    hide Covers, Apply, Rivals;
    RivalsMeet(config);
    var s := Rivals(config);
    Checks(r, config, s, PUBLISHER);
    var s1 := Checked(s, PUBLISHER);
    Ends(r, config, s1);
    var s2 := Ended(s1);
    Checks(r, config, s2, SECOND);
    var s3 := Checked(s2, SECOND);
    Sends(r, config, s3, SECOND);
    var s4 := Sent(s3, SECOND);
    Stores(r, config, s4, SECOND, 2);
    t := Stored(s4, SECOND, 2);
  }

  lemma OldListingIsStored(s: State)
    requires s.open.None? && s.offer.Some? && s.offer.value.listingId == Some(2) && s.remote.lastListing == Some(2)
    requires PUBLISHER in s.runs && s.runs[PUBLISHER] == StoringListing(1)
    ensures !ListingRemote.Records(s, Apply(s, Advance(PUBLISHER.worker, PUBLISHER.job, Good)))
  {
    hide SyncStep, RequestStep, RemoteStep, Drafts.Apply;
  }

  // ----- a withdrawal while a publish runner waits

  const WITHDRAWING := RunKey(1, OperationJob(1))

  /** The next operation is a withdrawal of the offer. */
  function EndQueued(s: State): State
    requires s.offer.Some?
  {
    QueueOperation(s, 0, WithdrawQueued, Job(Withdraw, s.offer.value.version, None, Queued, None))
  }

  lemma QueuesEnd(r: State -> bool, config: Config, s: State)
    requires Covers(r, config)
    requires r(s) && s.open.None? && s.requests == map[] && s.offer.Some? && MayWithdraw(s)
    ensures r(EndQueued(s))
  {
    hide Covers, SyncStep, RunnerStep, RemoteStep, Drafts.Apply, NoActiveOperation;
    var s1 := Begin(s, 0, WithdrawRead(s.offer.value.version));
    Take(r, config, s, BeginWithdraw(0), s1);
    assert s1.requests - {0} == s.requests - {0};
    Take(r, config, s1, StoreWithdrawalJob(0), EndQueued(s));
  }

  /** What a withdrawal leaves, before its job is completed. */
  function EndStored(s: State, k: RunKey): State
    requires s.offer.Some?
  {
    Goto(s.(offer := Some(s.offer.value.(status := Withdrawn, drifted := false)), remote := EndRemote(s.remote, false)), k, Finishing)
  }

  lemma WithdrawsListing(r: State -> bool, config: Config, s: State, k: RunKey)
    requires Covers(r, config)
    requires r(s) && Unblocked(s) && k in s.runs && s.runs[k].Claimed? && k.job in s.jobs && s.jobs[k.job].action.Withdraw?
    requires s.offer.Some? && s.offer.value.remoteId.Some? && s.remote.offer.Some? && s.remote.offer.value.live
    ensures r(EndStored(s, k))
  {
    hide Covers, Apply, PrepareRun, PublishRun, ReviseRun, ReconcileRun, EndRun;
    var s1 := Goto(s, k, ReadingWithdrawn);
    Moves(r, config, s, k, s1);
    var s2 := Goto(s1, k, Withdrawing);
    Moves(r, config, s1, k, s2);
    EndsListing(r, config, s2, k);
    assert EndStored(s2, k).runs == EndStored(s, k).runs;
  }

  lemma EndsListing(r: State -> bool, config: Config, s: State, k: RunKey)
    requires Covers(r, config)
    requires r(s) && Unblocked(s) && k in s.runs && s.runs[k].Withdrawing? && s.offer.Some?
    ensures r(EndStored(s, k))
  {
    hide Covers, Apply, EndRemote, PrepareRun, PublishRun, ReviseRun, ReconcileRun, EndRun;
    var s1 := Goto(s.(remote := EndRemote(s.remote, false)), k, ReadingFinal);
    Moves(r, config, s, k, s1);
    var s2 := Goto(s1, k, StoringWithdrawal);
    Moves(r, config, s1, k, s2);
    Moves(r, config, s2, k, EndStored(s, k));
  }

  lemma WithdrawalIsStored(r: State -> bool, config: Config) returns (s: State)
    requires Covers(r, config) && !config.overlap.OneRunnerPerOffer?
    ensures r(s) && s.open.None? && s.offer.Some? && s.offer.value.status.Withdrawn? && s.remote.offer.Some?
    ensures PUBLISHER in s.runs && s.runs[PUBLISHER] == CheckingListing(0)
  {
    hide Covers, Apply, MayClaim;
    ReachesReconciled(r, config);
    QueuesEnd(r, config, Reconciled(config));
    var s0 := EndQueued(Reconciled(config));
    assert MayClaim(s0, WITHDRAWING.worker, WITHDRAWING.job) by { OthersMayClaim(s0, PUBLISHER, WITHDRAWING); }
    Claims(r, config, s0, WITHDRAWING);
    var s1 := Taken(s0, WITHDRAWING);
    WithdrawsListing(r, config, s1, WITHDRAWING);
    s := EndStored(s1, WITHDRAWING);
  }

  /** Without one live runner per offer, a publish runner lists an offer again that another runner has just withdrawn. */
  lemma WithdrawnListingIsLive(config: Config)
    requires !config.overlap.OneRunnerPerOffer?
    ensures exists s :: Reaches(config, s) && s.offer.Some? && s.offer.value.status.Withdrawn? && s.remote.offer.Some? && s.remote.offer.value.live
  {
    hide Reaches;
    var r := (s: State) => Reaches(config, s);
    ReachedStatesCover(config, r);
    var s := WithdrawalIsStored(r, config);
    var t := ListsAgain(r, config, s);
  }

  lemma ListsAgain(r: State -> bool, config: Config, s: State) returns (t: State)
    requires Covers(r, config) && r(s) && s.open.None? && s.remote.offer.Some?
    requires PUBLISHER in s.runs && s.runs[PUBLISHER] == CheckingListing(0)
    ensures r(t) && t.offer == s.offer && t.remote.offer.Some? && t.remote.offer.value.live
  {
    hide Covers, Apply;
    Ends(r, config, s);
    var s1 := Ended(s);
    Checks(r, config, s1, PUBLISHER);
    var s2 := Checked(s1, PUBLISHER);
    Sends(r, config, s2, PUBLISHER);
    t := Sent(s2, PUBLISHER);
  }
}
