/**
 * Runs that show why each condition of the protocol's theorems is needed: a blind error handler orphans a queued offer,
 * two live runners of one revision job or a stale prepare request take the offer's version back, a late publish or revise
 * request uses a superseded approval, two revise requests revise twice, and runners of two prepare jobs of one offer send
 * a second create.
 */
module ListingCounterexamples {
  import opened Wrappers
  import opened ListingProtocol
  import Orphans = ListingOrphans
  import Requests = ListingRequests
  import Versions = ListingVersions
  import Drafts

  const CONTENT := Drafts.Content("details", Some("33559"), 1, Some(1000), "USD", Some("pay"), Some("return"), Some("ship"), Some("home"))
  const PRICE := Approval(1000, "USD")
  const PAYLOAD := Payload(SKU, MARKETPLACE, 1, "33559", "home", "pay", "return", "ship", "USD", 1000)
  const LIVE := Drafts.Row(CONTENT, true, true)

  /** The draft before the first and after one, two or three live validations. */
  function DraftAt(version: nat): Drafts.State {
    var first := map[1 := Drafts.Row(CONTENT, true, false)];
    if version == 1 then Drafts.Init(CONTENT, true)
    else if version == 2 then Drafts.State(2, LIVE, {1, 2}, map[], first[2 := LIVE], {2})
    else if version == 3 then Drafts.State(3, LIVE, {1, 2, 3}, map[], first[2 := LIVE][3 := LIVE], {2, 3})
    else Drafts.State(4, LIVE, {1, 2, 3, 4}, map[], first[2 := LIVE][3 := LIVE][4 := LIVE], {2, 3, 4})
  }

  ghost predicate Reaches(config: Config, s: State) {
    exists steps :: Exec(Init(config, CONTENT, true), steps) == s
  }

  /** A set of states that contains the start and whatever a step leads to. */
  ghost predicate Covers(r: State -> bool, config: Config) {
    r(Init(config, CONTENT, true)) && forall s, step :: r(s) ==> r(Apply(s, step))
  }

  lemma ReachedStatesCover(config: Config, r: State -> bool)
    requires forall s :: r(s) <==> Reaches(config, s)
    ensures Covers(r, config)
  {
    assert Exec(Init(config, CONTENT, true), []) == Init(config, CONTENT, true);
    forall s, step | r(s)
      ensures r(Apply(s, step))
    {
      NextIsReached(config, s, step);
    }
  }

  lemma NextIsReached(config: Config, s: State, step: Step)
    requires Reaches(config, s)
    ensures Reaches(config, Apply(s, step))
  {
    hide Apply;
    var steps :| Exec(Init(config, CONTENT, true), steps) == s;
    ExecAppends(Init(config, CONTENT, true), steps, [step]);
    assert Exec(s, [step]) == Exec(Apply(s, step), []);
  }

  /** Nothing but a window of an atomic request blocks a step. */
  predicate Unblocked(s: State) {
    s.config.atomicRequests ==> s.open.None?
  }

  lemma Take(r: State -> bool, config: Config, s: State, step: Step, t: State)
    requires Covers(r, config) && r(s) && Apply(s, step) == t
    ensures r(t)
  {
    hide Apply;
  }

  lemma ValidatedDraft(d: Drafts.State)
    requires d == DraftAt(1) || d == DraftAt(2) || d == DraftAt(3)
    ensures Drafts.Apply(Drafts.Apply(d, Drafts.Read(0, Drafts.LiveValidation(true), d.version)), Drafts.Commit(0)) == DraftAt(d.version + 1)
  {
    var e := Drafts.Apply(Drafts.Apply(d, Drafts.Read(0, Drafts.LiveValidation(true), d.version)), Drafts.Commit(0));
    assert e.writers == map[];
    assert e.history == DraftAt(d.version + 1).history;
    assert e.liveWrites == DraftAt(d.version + 1).liveWrites;
    assert e.committed == DraftAt(d.version + 1).committed;
  }

  /** A live validation and a sync of its version. */
  lemma Validates(r: State -> bool, config: Config, s: State)
    requires Covers(r, config)
    requires r(s) && Unblocked(s) && (s.draft == DraftAt(1) || s.draft == DraftAt(2) || s.draft == DraftAt(3))
    requires s.draft.version + 1 !in s.syncs
    ensures var v := s.draft.version + 1;
            r(s.(draft := DraftAt(v), prepared := s.prepared + {v}, syncs := s.syncs[v := SyncCompleted]))
  {
    hide Covers, RequestStep, RunnerStep, RemoteStep, SyncStep;
    var read := DraftStep(Drafts.Read(0, Drafts.LiveValidation(true), s.draft.version));
    Take(r, config, s, read, Apply(s, read));
    ValidatedDraft(s.draft);
    Take(r, config, Apply(s, read), DraftStep(Drafts.Commit(0)), s.(draft := DraftAt(s.draft.version + 1)));
    SyncStarts(r, config, s.(draft := DraftAt(s.draft.version + 1)));
  }

  lemma SyncStarts(r: State -> bool, config: Config, s: State)
    requires Covers(r, config)
    requires r(s) && Unblocked(s) && (s.draft == DraftAt(2) || s.draft == DraftAt(3) || s.draft == DraftAt(4))
    requires s.draft.version !in s.syncs
    ensures var v := s.draft.version;
            r(s.(prepared := s.prepared + {v}, syncs := s.syncs[v := SyncCompleted]))
  {
    hide Covers, RequestStep, RunnerStep, RemoteStep, Drafts.Apply;
    var v := s.draft.version;
    var s1 := s.(prepared := s.prepared + {v});
    Take(r, config, s, StorePreparation(v), s1);
    var s2 := s1.(syncs := s1.syncs[v := SyncQueued]);
    Take(r, config, s1, QueueSync(v), s2);
    var s3 := s2.(syncs := s2.syncs[v := SyncRunning(false)]);
    Take(r, config, s2, ClaimSync(v), s3);
    SyncEnds(r, config, s3);
    assert s3.syncs[v := SyncCompleted] == s.syncs[v := SyncCompleted];
  }

  lemma SyncEnds(r: State -> bool, config: Config, s: State)
    requires Covers(r, config)
    requires r(s) && Unblocked(s) && s.draft.row == LIVE
    requires s.draft.version in s.syncs && s.syncs[s.draft.version] == SyncRunning(false)
    ensures r(s.(syncs := s.syncs[s.draft.version := SyncCompleted]))
  {
    hide Covers, RequestStep, RunnerStep, RemoteStep, Drafts.Apply;
    var v := s.draft.version;
    var s1 := s.(syncs := s.syncs[v := SyncRunning(true)]);
    Take(r, config, s, CheckSync(v), s1);
    Take(r, config, s1, FinishSync(v, true), s1.(syncs := s1.syncs[v := SyncCompleted]));
    assert s1.syncs[v := SyncCompleted] == s.syncs[v := SyncCompleted];
  }

  // ----- from the start to a first offer

  function Synced(config: Config): State {
    Init(config, CONTENT, true).(draft := DraftAt(2), approval := Some(PRICE), prepared := {2}, syncs := map[2 := SyncCompleted])
  }

  lemma Start(r: State -> bool, config: Config)
    requires Covers(r, config)
    ensures r(Init(config, CONTENT, true))
  {
    hide Apply, Init;
  }

  lemma ReachesSynced(r: State -> bool, config: Config)
    requires Covers(r, config)
    ensures r(Synced(config))
  {
    hide Covers, RequestStep, RunnerStep, RemoteStep, SyncStep, Drafts.Apply;
    var s := Init(config, CONTENT, true);

    Start(r, config);
    var s1 := s.(approval := Some(PRICE));
    Take(r, config, s, Decide(Some(PRICE)), s1);
    Validates(r, config, s1);
    assert s1.prepared + {2} == {2};
  }

  /** Offer row, job row, and the request is gone. */
  function WithPrepare(s: State): State {
    var v := s.draft.version;
    s.(offer := Some(StoredOffer(s.offer, v, PAYLOAD)), jobs := s.jobs[OfferJob(Prepare, v) := Job(Prepare, v, None, Queued, None)])
  }

  lemma BeginsPrepare(r: State -> bool, config: Config, s: State, id: nat)
    requires Covers(r, config)
    requires r(s) && Unblocked(s) && id !in s.requests && MayPrepare(s) && s.draft.row == LIVE
    ensures r(Begin(s, id, PrepareRead(s.draft.version, PAYLOAD)))
  {
    hide Covers, SyncStep, RunnerStep, RemoteStep, Drafts.Apply, MayPrepare, Begin;
    Take(r, config, s, BeginPrepare(id), Begin(s, id, PrepareRead(s.draft.version, PAYLOAD)));
  }

  lemma Prepares(r: State -> bool, config: Config, s: State, id: nat)
    requires Covers(r, config)
    requires r(s) && Unblocked(s) && id !in s.requests && MayPrepare(s) && s.draft.row == LIVE
    requires OfferJob(Prepare, s.draft.version) !in s.jobs
    ensures r(WithPrepare(s).(open := None))
  {
    hide Covers, SyncStep, RunnerStep, RemoteStep, Drafts.Apply, MayPrepare;
    var v := s.draft.version;
    BeginsPrepare(r, config, s, id);
    var s1 := Begin(s, id, PrepareRead(v, PAYLOAD));
    var s2 := Move(WithOffer(s1, StoredOffer(s1.offer, v, PAYLOAD)), id, PrepareStored(v));
    Take(r, config, s1, StoreOffer(id), s2);
    var s3 := UpsertJob(s2, id, Prepare, v);
    Take(r, config, s2, StorePrepareJob(id), s3);
    assert s3.requests == s.requests;
  }

  /** A prepare request that read version 2 and writes after another stored version 3, if requests are not atomic. */
  lemma StaleRequestTakesVersionBack(overlap: Overlap)
    ensures exists s, step :: Reaches(Config(false, overlap), s) && StepsBack(s, Apply(s, step))
  {
    hide Reaches, Apply;
    var config := Config(false, overlap);
    var r := (s: State) => Reaches(config, s);
    ReachedStatesCover(config, r);
    var s := StaleRequest(r, config);
    StaleWrite(s);
  }

  lemma StaleRequest(r: State -> bool, config: Config) returns (s: State)
    requires Covers(r, config) && !config.atomicRequests
    ensures r(s) && s.config == config && s.offer.Some? && s.offer.value.version == 3
    ensures 1 in s.requests && s.requests[1] == PrepareRead(2, PAYLOAD)
  {
    hide Covers, Apply;
    ReachesSynced(r, config);
    var s0 := Synced(config);
    BeginsPrepare(r, config, s0, 1);
    var s1 := Begin(s0, 1, PrepareRead(2, PAYLOAD));
    Validates(r, config, s1);
    var s2 := s1.(draft := DraftAt(3), prepared := s1.prepared + {3}, syncs := s1.syncs[3 := SyncCompleted]);
    Prepares(r, config, s2, 0);
    s := WithPrepare(s2).(open := None);
  }

  lemma StaleWrite(s: State)
    requires !s.config.atomicRequests && s.offer.Some? && s.offer.value.version == 3
    requires 1 in s.requests && s.requests[1] == PrepareRead(2, PAYLOAD)
    ensures StepsBack(s, Apply(s, StoreOffer(1)))
  {
    hide SyncStep, RunnerStep, RemoteStep, Drafts.Apply;
  }

  predicate StepsBack(s: State, t: State) {
    s.offer.Some? && t.offer.Some? && t.offer.value.version < s.offer.value.version
  }

  // ----- two runners of two prepare jobs

  /** Without one live runner per offer, the runners of two prepare jobs both find no offer and both create one. */
  lemma RunnersOfTwoJobsCreateTwice(config: Config)
    requires !config.overlap.OneRunnerPerOffer?
    ensures exists s :: Reaches(config, s) && s.remote.extraCreates == 1
  {
    hide Reaches;
    var r := (s: State) => Reaches(config, s);
    ReachedStatesCover(config, r);
    var s := SecondCreate(r, config);
  }

  lemma SecondCreate(r: State -> bool, config: Config) returns (s: State)
    requires Covers(r, config) && !config.overlap.OneRunnerPerOffer?
    ensures r(s) && s.remote.extraCreates == 1
  {
    hide Covers, Apply;
    ReachesSynced(r, config);
    var s0 := Synced(config);
    Prepares(r, config, s0, 0);
    var s1 := WithPrepare(s0);
    Validates(r, config, s1);
    var s2 := s1.(draft := DraftAt(3), prepared := s1.prepared + {3}, syncs := s1.syncs[3 := SyncCompleted]);
    Prepares(r, config, s2, 0);
    var s3 := WithPrepare(s2);
    var first, second := RunKey(0, OfferJob(Prepare, 2)), RunKey(1, OfferJob(Prepare, 3));
    Enters(r, config, s3, first);
    Enters(r, config, Entered(s3, first), second);
    var s4 := Entered(Entered(s3, first), second);
    Creates(r, config, s4, first);
    Creates(r, config, Created(s4, first), second);
    s := Created(Created(s4, first), second);
  }

  /** Claim a prepare job, load it and find no offer for the SKU. */
  function Entered(s: State, k: RunKey): State
    requires k.job in s.jobs && s.offer.Some?
  {
    s.(jobs := s.jobs[k.job := s.jobs[k.job].(status := Running, owner := Some(k.worker))], runs := s.runs[k := Creating(s.offer.value.payload)])
  }

  function Taken(s: State, k: RunKey): State
    requires k.job in s.jobs
  {
    Goto(s.(jobs := s.jobs[k.job := s.jobs[k.job].(status := Running, owner := Some(k.worker))]), k, Claimed)
  }

  lemma Claims(r: State -> bool, config: Config, s: State, k: RunKey)
    requires Covers(r, config)
    requires r(s) && Unblocked(s) && MayClaim(s, k.worker, k.job) && k.job in s.jobs && s.jobs[k.job].status.Queued?
    ensures r(Taken(s, k))
  {
    hide Covers, SyncStep, RequestStep, RemoteStep, Drafts.Apply, Run, MayClaim;
    Take(r, config, s, Claim(k.worker, k.job), Taken(s, k));
  }

  lemma Enters(r: State -> bool, config: Config, s: State, k: RunKey)
    requires Covers(r, config)
    requires r(s) && Unblocked(s) && MayClaim(s, k.worker, k.job)
    requires k.job in s.jobs && s.jobs[k.job].action.Prepare? && s.jobs[k.job].status.Queued?
    requires s.offer.Some? && s.offer.value.remoteId.None? && s.remote.offer.None?
    ensures r(Entered(s, k))
  {
    hide Covers, SyncStep, RequestStep, RemoteStep, Drafts.Apply, PublishRun, ReviseRun, WithdrawRun, ReconcileRun, EndRun;
    var payload := s.offer.value.payload;
    Claims(r, config, s, k);
    var s1 := Taken(s, k);
    var s2 := Goto(s1, k, Finding(payload));
    Take(r, config, s1, Advance(k.worker, k.job, Good), s2);
    var s3 := Goto(s2, k, Creating(payload));
    Take(r, config, s2, Advance(k.worker, k.job, Good), s3);
    assert s3.runs == s.runs[k := Creating(payload)];
  }

  function Created(s: State, k: RunKey): State
    requires k in s.runs && s.runs[k].Creating?
  {
    var t := s.(remote := CreateRemote(s.remote, s.runs[k].payload));
    Goto(t, k, if s.remote.offer.Some? then FindingAgain else Recording(s.remote.nextId))
  }

  lemma Creates(r: State -> bool, config: Config, s: State, k: RunKey)
    requires Covers(r, config)
    requires r(s) && Unblocked(s) && k in s.runs && s.runs[k].Creating?
    ensures r(Created(s, k))
  {
    hide Covers, SyncStep, RequestStep, RemoteStep, Drafts.Apply, CreateRemote;
    Take(r, config, s, Advance(k.worker, k.job, Good), Created(s, k));
  }

  // ----- to a published listing

  lemma Moves(r: State -> bool, config: Config, s: State, k: RunKey, t: State)
    requires Covers(r, config)
    requires r(s) && Unblocked(s) && k in s.runs && Run(s, k, Good) == t
    ensures r(t)
  {
    hide Covers, SyncStep, RequestStep, RemoteStep, Drafts.Apply, Run;
    Take(r, config, s, Advance(k.worker, k.job, Good), t);
  }

  const PREPARER := RunKey(0, OfferJob(Prepare, 2))
  const PUBLISHER := RunKey(0, OfferJob(Publish, 2))

  function FeesKnown(config: Config): State {
    Synced(config).(
      offer := Some(Offer(2, PAYLOAD, FeesReady, Some(0), None, true, false, false, false)),
      jobs := map[PREPARER.job := Job(Prepare, 2, None, Completed, None)],
      remote := Remote(Some(RemoteOffer(0, PAYLOAD, None, false, false)), 1, None, 1, 0, 0, 0, 0))
  }

  function Live(config: Config): State {
    FeesKnown(config).(
      offer := Some(Offer(2, PAYLOAD, Published, Some(0), Some(1), true, true, true, false)),
      jobs := map[PREPARER.job := Job(Prepare, 2, None, Completed, None), PUBLISHER.job := Job(Publish, 2, None, Completed, None)],
      remote := Remote(Some(RemoteOffer(0, PAYLOAD, Some(1), true, true)), 2, Some(1), 1, 1, 0, 0, 0))
  }

  lemma ReachesCreated(r: State -> bool, config: Config)
    requires Covers(r, config)
    ensures r(Created(Entered(WithPrepare(Synced(config)), PREPARER), PREPARER))
  {
    hide Covers;
    ReachesSynced(r, config);
    var s := Synced(config);
    Prepares(r, config, s, 0);
    Enters(r, config, WithPrepare(s), PREPARER);
    Creates(r, config, Entered(WithPrepare(s), PREPARER), PREPARER);
  }

  /** The first prepare job after its offer was created, with the runner at the given place. */
  function Preparing(config: Config, remoteId: Option<int>, pc: Pc): State {
    FeesKnown(config).(
      offer := Some(Offer(2, PAYLOAD, OfferStatus.Preparing, remoteId, None, false, false, false, false)),
      jobs := map[PREPARER.job := Job(Prepare, 2, None, Running, Some(0))],
      runs := map[PREPARER := pc])
  }

  lemma CreatedIsPreparing(config: Config)
    ensures Created(Entered(WithPrepare(Synced(config)), PREPARER), PREPARER) == Preparing(config, None, Recording(0))
  {
    var s := Created(Entered(WithPrepare(Synced(config)), PREPARER), PREPARER);
    assert s.jobs == Preparing(config, None, Recording(0)).jobs;
    assert s.runs == Preparing(config, None, Recording(0)).runs;
  }

  lemma ReachesFeesKnown(r: State -> bool, config: Config)
    requires Covers(r, config)
    ensures r(FeesKnown(config))
  {
    hide Covers, Apply;
    ReachesCreated(r, config);
    CreatedIsPreparing(config);
    var s := Preparing(config, None, Recording(0));
    Records(r, config);
    Moves(r, config, Preparing(config, Some(0), AskingFees), PREPARER, Preparing(config, Some(0), StoringFees)) by {
      AsksFees(config);
    }
    var t := Preparing(config, Some(0), StoringFees);
    StoresFees(r, config, t);
    assert t.jobs[PREPARER.job := Job(Prepare, 2, None, Completed, None)] == FeesKnown(config).jobs;
    assert t.runs - {PREPARER} == map[];
  }

  lemma Records(r: State -> bool, config: Config)
    requires Covers(r, config)
    requires r(Preparing(config, None, Recording(0)))
    ensures r(Preparing(config, Some(0), AskingFees))
  {
    hide Covers, Apply;
    var s, t := Preparing(config, None, Recording(0)), Preparing(config, Some(0), AskingFees);
    assert s.runs[PREPARER := AskingFees] == t.runs;
    Moves(r, config, s, PREPARER, t);
  }

  lemma AsksFees(config: Config)
    ensures Run(Preparing(config, Some(0), AskingFees), PREPARER, Good) == Preparing(config, Some(0), StoringFees)
  {
    var s, t := Preparing(config, Some(0), AskingFees), Preparing(config, Some(0), StoringFees);
    assert s.runs[PREPARER := StoringFees] == t.runs;
  }

  lemma StoresFees(r: State -> bool, config: Config, s: State)
    requires Covers(r, config)
    requires r(s) && Unblocked(s) && PREPARER in s.runs && s.runs[PREPARER].StoringFees? && s.offer.Some?
    requires Holds(s, PREPARER)
    ensures r(s.(offer := Some(s.offer.value.(status := FeesReady, feesStored := true)),
                               jobs := s.jobs[PREPARER.job := s.jobs[PREPARER.job].(status := Completed, owner := None)],
                               runs := s.runs - {PREPARER}))
  {
    hide Covers, Apply;
    var s1 := Goto(WithOffer(s, s.offer.value.(status := FeesReady, feesStored := true)), PREPARER, Finishing);
    Moves(r, config, s, PREPARER, s1);
    Finishes(r, config, s1, PREPARER);
    assert s1.runs - {PREPARER} == s.runs - {PREPARER};
  }

  lemma Finishes(r: State -> bool, config: Config, s: State, k: RunKey)
    requires Covers(r, config)
    requires r(s) && Unblocked(s) && k in s.runs && s.runs[k].Finishing? && Holds(s, k)
    ensures r(s.(jobs := s.jobs[k.job := s.jobs[k.job].(status := Completed, owner := None)], runs := s.runs - {k}))
  {
    hide Covers, Apply;
    Moves(r, config, s, k, s.(jobs := s.jobs[k.job := s.jobs[k.job].(status := Completed, owner := None)], runs := s.runs - {k}));
  }

  const PREPARED := Job(Prepare, 2, None, Completed, None)

  /** The publish job, approved, in the given state. */
  function PublishJob(config: Config, status: JobStatus, owner: Option<nat>): State {
    FeesKnown(config).(
      offer := Some(Offer(2, PAYLOAD, PublishQueued, Some(0), None, true, true, false, false)),
      jobs := map[PREPARER.job := PREPARED, PUBLISHER.job := Job(Publish, 2, None, status, owner)])
  }

  function Publishing(config: Config, pc: Pc, remote: Remote): State {
    PublishJob(config, Running, Some(0)).(runs := map[PUBLISHER := pc], remote := remote)
  }

  lemma BeginsPublication(r: State -> bool, config: Config)
    requires Covers(r, config)
    ensures r(Begin(FeesKnown(config), 0, PublishRead(2)))
  {
    hide Covers, SyncStep, RunnerStep, RemoteStep, Drafts.Apply, Begin;
    ReachesFeesKnown(r, config);
    Take(r, config, FeesKnown(config), BeginPublish(0), Begin(FeesKnown(config), 0, PublishRead(2)));
  }

  lemma ApprovesPublication(r: State -> bool, config: Config)
    requires Covers(r, config)
    ensures r(PublishJob(config, Queued, None))
  {
    hide Covers, SyncStep, RunnerStep, RemoteStep, Drafts.Apply, MayPublish;
    BeginsPublication(r, config);
    var s1 := Begin(FeesKnown(config), 0, PublishRead(2));
    var s2 := Move(WithOffer(s1, s1.offer.value.(status := PublishQueued, approved := true)), 0, PublishStored(2));
    Take(r, config, s1, StoreApproval(0), s2);
    var s3 := UpsertJob(s2, 0, Publish, 2);
    Take(r, config, s2, StorePublishJob(0), s3);
    var t := PublishJob(config, Queued, None);
    assert s3.requests == t.requests;
    assert s3.jobs == t.jobs;
  }

  lemma ChecksListing(r: State -> bool, config: Config)
    requires Covers(r, config)
    ensures r(Publishing(config, CheckingListing(0), FeesKnown(config).remote))
  {
    hide Covers, Apply, Run;
    ApprovesPublication(r, config);
    var s := PublishJob(config, Queued, None);
    Claims(r, config, s, PUBLISHER);
    var s1 := Publishing(config, Claimed, FeesKnown(config).remote);
    assert Taken(s, PUBLISHER).jobs == s1.jobs;
    assert Taken(s, PUBLISHER).runs == s1.runs;
    LoadsPublication(config);
    Moves(r, config, s1, PUBLISHER, Publishing(config, CheckingListing(0), FeesKnown(config).remote));
  }

  lemma LoadsPublication(config: Config)
    ensures Run(Publishing(config, Claimed, FeesKnown(config).remote), PUBLISHER, Good)
         == Publishing(config, CheckingListing(0), FeesKnown(config).remote)
  {
    var s, t := Publishing(config, Claimed, FeesKnown(config).remote), Publishing(config, CheckingListing(0), FeesKnown(config).remote);
    assert s.runs[PUBLISHER := CheckingListing(0)] == t.runs;
  }

  lemma SendsPublication(config: Config)
    ensures Run(Publishing(config, CheckingListing(0), FeesKnown(config).remote), PUBLISHER, Good)
         == Publishing(config, Pc.Publishing(0), FeesKnown(config).remote)
    ensures Run(Publishing(config, Pc.Publishing(0), FeesKnown(config).remote), PUBLISHER, Good)
         == Publishing(config, StoringListing(1), Live(config).remote)
  {
    var r := FeesKnown(config).remote;
    assert Publishing(config, CheckingListing(0), r).runs[PUBLISHER := Pc.Publishing(0)] == Publishing(config, Pc.Publishing(0), r).runs;
    assert Publishing(config, Pc.Publishing(0), r).runs[PUBLISHER := StoringListing(1)]
        == Publishing(config, StoringListing(1), Live(config).remote).runs;
  }

  lemma ReachesLive(r: State -> bool, config: Config)
    requires Covers(r, config)
    ensures r(Live(config))
  {
    hide Covers, Apply, Run;
    ChecksListing(r, config);
    SendsPublication(config);
    var unsent := FeesKnown(config).remote;
    Moves(r, config, Publishing(config, CheckingListing(0), unsent), PUBLISHER, Publishing(config, Pc.Publishing(0), unsent));
    Moves(r, config, Publishing(config, Pc.Publishing(0), unsent), PUBLISHER, Publishing(config, StoringListing(1), Live(config).remote));
    StoresListing(r, config);
  }

  lemma StoresListing(r: State -> bool, config: Config)
    requires Covers(r, config)
    requires r(Publishing(config, StoringListing(1), Live(config).remote))
    ensures r(Live(config))
  {
    hide Covers, Apply;
    var s := Publishing(config, StoringListing(1), Live(config).remote);
    var s1 := Goto(WithOffer(s, Live(config).offer.value), PUBLISHER, Finishing);
    Moves(r, config, s, PUBLISHER, s1);
    Finishes(r, config, s1, PUBLISHER);
    assert s1.jobs[PUBLISHER.job := Job(Publish, 2, None, Completed, None)] == Live(config).jobs;
    assert s1.runs - {PUBLISHER} == map[];
  }

  /** The approval is superseded between a publish request's reads and its write, if requests are not atomic. */
  lemma SupersededApprovalIsUsed(overlap: Overlap)
    ensures exists s, id :: Reaches(Config(false, overlap), s) && !Requests.PublishesApproved(s, id)
  {
    hide Reaches, Apply;
    var config := Config(false, overlap);
    var r := (s: State) => Reaches(config, s);
    ReachedStatesCover(config, r);
    var s := Begin(FeesKnown(config), 0, PublishRead(2)).(approval := None);
    LosesApproval(r, config);
    LateWriteQueues(s);
  }

  lemma LosesApproval(r: State -> bool, config: Config)
    requires Covers(r, config) && !config.atomicRequests
    ensures r(Begin(FeesKnown(config), 0, PublishRead(2)).(approval := None))
  {
    hide Covers, SyncStep, RunnerStep, RemoteStep, Drafts.Apply, RequestStep;
    BeginsPublication(r, config);
    var s := Begin(FeesKnown(config), 0, PublishRead(2));
    Take(r, config, s, Decide(None), s.(approval := None));
  }

  lemma LateWriteQueues(s: State)
    requires !s.config.atomicRequests && s.approval.None? && s.offer.Some?
    requires 0 in s.requests && s.requests[0] == PublishRead(2)
    ensures !Requests.PublishesApproved(s, 0)
  {
    hide SyncStep, RunnerStep, RemoteStep, Drafts.Apply;
  }

  // ----- a blind error handler

  const WITHDRAWER := RunKey(0, OperationJob(0))

  /** The listing with a queued withdrawal. */
  function WithdrawalQueued(config: Config): State {
    QueueOperation(Live(config), 0, WithdrawQueued, Job(Withdraw, 2, None, Queued, None))
  }

  lemma BeginsWithdrawal(r: State -> bool, config: Config)
    requires Covers(r, config)
    ensures r(Begin(Live(config), 0, WithdrawRead(2)))
  {
    hide Covers, SyncStep, RunnerStep, RemoteStep, Drafts.Apply, Begin;
    ReachesLive(r, config);
    assert NoActiveOperation(Live(config));
    Take(r, config, Live(config), BeginWithdraw(0), Begin(Live(config), 0, WithdrawRead(2)));
  }

  lemma QueuesWithdrawal(r: State -> bool, config: Config)
    requires Covers(r, config)
    ensures r(WithdrawalQueued(config))
  {
    hide Covers, SyncStep, RunnerStep, RemoteStep, Drafts.Apply;
    BeginsWithdrawal(r, config);
    var s1 := Begin(Live(config), 0, WithdrawRead(2));
    var s2 := QueueOperation(s1, 0, WithdrawQueued, Job(Withdraw, 2, None, Queued, None));
    Take(r, config, s1, StoreWithdrawalJob(0), s2);
    assert s2.requests == WithdrawalQueued(config).requests;
  }

  lemma Stumbles(r: State -> bool, config: Config, s: State, k: RunKey, reply: Reply, t: State)
    requires Covers(r, config)
    requires r(s) && Unblocked(s) && k in s.runs && Run(s, k, reply) == t
    ensures r(t)
  {
    hide Covers, SyncStep, RequestStep, RemoteStep, Drafts.Apply, Run;
    Take(r, config, s, Advance(k.worker, k.job, reply), t);
  }

  /** The runner's first read fails, so does the error handler's lookup, and the job is FAILED under a waiting offer. */
  lemma BlindHandlerOrphansOffer(config: Config)
    ensures exists s :: Reaches(config, s) && Orphans.Waits(s.offer) && (forall j :: j in s.jobs ==> !Active(s.jobs[j]))
  {
    hide Reaches;
    var r := (s: State) => Reaches(config, s);
    ReachedStatesCover(config, r);
    var s := OrphanedOffer(r, config);
  }

  lemma OrphanedOffer(r: State -> bool, config: Config) returns (s: State)
    requires Covers(r, config)
    ensures r(s) && Orphans.Waits(s.offer) && (forall j :: j in s.jobs ==> !Active(s.jobs[j]))
  {
    hide Covers, Apply, QueueOperation, MayClaim;
    QueuesWithdrawal(r, config);
    var s0 := WithdrawalQueued(config);
    WithdrawalState(config);
    Claims(r, config, s0, WITHDRAWER);
    var s1 := Taken(s0, WITHDRAWER);
    FailsBlindly(r, config, s1);
    s := s1.(jobs := s1.jobs[WITHDRAWER.job := s1.jobs[WITHDRAWER.job].(status := Failed, owner := None)],
             blind := s1.blind + {WITHDRAWER.job}, runs := s1.runs - {WITHDRAWER});
  }

  lemma WithdrawalState(config: Config)
    ensures var s := WithdrawalQueued(config);
            && s.config == config && s.open.None? && Orphans.Waits(s.offer) && s.runs == map[]
            && s.jobs == Live(config).jobs[OperationJob(0) := Job(Withdraw, 2, None, Queued, None)]
            && MayClaim(s, 0, OperationJob(0))
  {
  }

  lemma CleansUpBlindly(s: State, drifts: bool)
    requires Holds(s, WITHDRAWER)
    ensures CleanUp(s, WITHDRAWER, false, drifts)
         == s.(jobs := s.jobs[WITHDRAWER.job := s.jobs[WITHDRAWER.job].(status := Failed, owner := None)],
               blind := s.blind + {WITHDRAWER.job})
  {
  }

  lemma FailsToRead(r: State -> bool, config: Config, s: State)
    requires Covers(r, config)
    requires r(s) && Unblocked(s) && WITHDRAWER in s.runs && s.runs[WITHDRAWER].Claimed? && s.offer.Some?
    ensures r(Goto(s, WITHDRAWER, CleaningUp(false, s.offer.value.drifted)))
  {
    hide Covers, Apply, PrepareRun, PublishRun, ReviseRun, WithdrawRun, ReconcileRun, Load, CleanUp;
    var s1 := Goto(s, WITHDRAWER, Aborting);
    Stumbles(r, config, s, WITHDRAWER, NoEffect, s1);
    var s2 := Goto(s1, WITHDRAWER, CleaningUp(false, s.offer.value.drifted));
    Stumbles(r, config, s1, WITHDRAWER, NoEffect, s2);
    assert s2.runs == s.runs[WITHDRAWER := CleaningUp(false, s.offer.value.drifted)];
  }

  lemma FailsBlindly(r: State -> bool, config: Config, s: State)
    requires Covers(r, config)
    requires r(s) && Unblocked(s) && WITHDRAWER in s.runs && s.runs[WITHDRAWER].Claimed? && Holds(s, WITHDRAWER) && s.offer.Some?
    ensures r(s.(jobs := s.jobs[WITHDRAWER.job := s.jobs[WITHDRAWER.job].(status := Failed, owner := None)],
                               blind := s.blind + {WITHDRAWER.job}, runs := s.runs - {WITHDRAWER}))
  {
    hide Covers, Apply, PrepareRun, PublishRun, ReviseRun, WithdrawRun, ReconcileRun, Load, CleanUp;
    FailsToRead(r, config, s);
    var drifts := s.offer.value.drifted;
    var s2 := Goto(s, WITHDRAWER, CleaningUp(false, drifts));
    Stumbles(r, config, s2, WITHDRAWER, Good, RemoveRun(CleanUp(s2, WITHDRAWER, false, drifts), WITHDRAWER));
    CleansUpBlindly(s2, drifts);
    assert s2.runs - {WITHDRAWER} == s.runs - {WITHDRAWER};
  }

  // ----- two runners of one revision

  /** A revision to the draft's version, queued under the next number. */
  function RevisionQueuedAt(s: State): State
    requires s.offer.Some?
  {
    QueueOperation(s, 0, RevisionQueued, Job(Revise, s.draft.version, Some(PAYLOAD), Queued, None))
  }

  /** Live on eBay with the payload that every version has, so a revision finds nothing to change. */
  predicate LiveAt(s: State) {
    && s.offer.Some? && s.offer.value.remoteId == Some(0) && s.offer.value.listingId.Some?
    && s.remote.offer.Some? && s.remote.offer.value.live && s.remote.offer.value.payload == PAYLOAD
    && s.approval == Some(PRICE) && s.draft.row == LIVE && SyncedAt(s, s.draft.version)
  }

  lemma BeginsRevision(r: State -> bool, config: Config, s: State, id: nat)
    requires Covers(r, config)
    requires r(s) && Unblocked(s) && id !in s.requests && LiveAt(s) && NoActiveOperation(s)
    requires s.offer.value.status.Published? && s.offer.value.version < s.draft.version
    ensures r(Begin(s, id, ReviseRead(s.draft.version, PAYLOAD)))
  {
    hide Covers, SyncStep, RunnerStep, RemoteStep, Drafts.Apply, Begin, NoActiveOperation;
    Take(r, config, s, BeginRevise(id), Begin(s, id, ReviseRead(s.draft.version, PAYLOAD)));
  }

  lemma QueuesRevision(r: State -> bool, config: Config, s: State)
    requires Covers(r, config)
    requires r(s) && Unblocked(s) && s.open.None? && s.requests == map[] && LiveAt(s) && NoActiveOperation(s)
    requires s.offer.value.status.Published? && s.offer.value.version < s.draft.version
    ensures r(RevisionQueuedAt(s))
  {
    hide Covers, SyncStep, RunnerStep, RemoteStep, Drafts.Apply, NoActiveOperation;
    BeginsRevision(r, config, s, 0);
    var s1 := Begin(s, 0, ReviseRead(s.draft.version, PAYLOAD));
    Take(r, config, s1, StoreRevisionJob(0), RevisionQueuedAt(s1));
    assert RevisionQueuedAt(s1).requests == RevisionQueuedAt(s).requests;
  }

  /** From its claim a revising runner gets, undisturbed, to the point where it stores its version. */
  lemma Revises(r: State -> bool, config: Config, s: State, k: RunKey)
    requires Covers(r, config)
    requires r(s) && Unblocked(s) && k in s.runs && s.runs[k].Claimed? && LiveAt(s)
    requires k.job in s.jobs && s.jobs[k.job].action.Revise? && s.jobs[k.job].target == s.draft.version && s.jobs[k.job].payload == Some(PAYLOAD)
    ensures r(s.(runs := s.runs[k := StoringRevision(s.draft.version, PAYLOAD, false)]))
  {
    hide Covers, Apply, PrepareRun, PublishRun, WithdrawRun, ReconcileRun, EndRun;
    var v := s.draft.version;
    var s1 := Goto(s, k, CheckingLive(v, PAYLOAD));
    Moves(r, config, s, k, s1);
    var s2 := Goto(s1, k, Updating(v, PAYLOAD));
    Moves(r, config, s1, k, s2);
    RevisesFurther(r, config, s2, k);
    assert s2.runs[k := StoringRevision(v, PAYLOAD, false)] == s.runs[k := StoringRevision(v, PAYLOAD, false)];
  }

  lemma RevisesFurther(r: State -> bool, config: Config, s: State, k: RunKey)
    requires Covers(r, config)
    requires r(s) && Unblocked(s) && k in s.runs && s.runs[k] == Updating(s.draft.version, PAYLOAD) && LiveAt(s)
    ensures r(s.(runs := s.runs[k := StoringRevision(s.draft.version, PAYLOAD, false)]))
  {
    hide Covers, Apply, PrepareRun, PublishRun, WithdrawRun, ReconcileRun, EndRun;
    var v := s.draft.version;
    assert s.remote.offer.value.(payload := PAYLOAD) == s.remote.offer.value;
    assert s.remote.(offer := Some(s.remote.offer.value)) == s.remote;
    var s1 := Goto(s, k, ReadingBack(v, PAYLOAD));
    Moves(r, config, s, k, s1);
    var s2 := Goto(s1, k, StoringRevision(v, PAYLOAD, false));
    Moves(r, config, s1, k, s2);
    assert s2.runs == s.runs[k := StoringRevision(v, PAYLOAD, false)];
  }

  function RevisionStored(s: State, k: RunKey): State
    requires s.offer.Some? && k.job in s.jobs
  {
    s.(offer := Some(s.offer.value.(version := s.draft.version, payload := PAYLOAD, drifted := false, status := Published)),
       jobs := s.jobs[k.job := s.jobs[k.job].(status := Completed, owner := None)], runs := s.runs - {k})
  }

  lemma StoresRevision(r: State -> bool, config: Config, s: State, k: RunKey)
    requires Covers(r, config)
    requires r(s) && Unblocked(s) && k in s.runs && s.runs[k] == StoringRevision(s.draft.version, PAYLOAD, false)
    requires Holds(s, k) && s.offer.Some?
    ensures r(RevisionStored(s, k))
  {
    hide Covers, Apply, PrepareRun, PublishRun, WithdrawRun, ReconcileRun, EndRun;
    var offer := s.offer.value.(version := s.draft.version, payload := PAYLOAD, drifted := false, status := Published);
    var s1 := Goto(WithOffer(s, offer), k, Finishing);
    Moves(r, config, s, k, s1);
    Finishes(r, config, s1, k);
    assert s1.runs - {k} == s.runs - {k};
  }

  /** One worker takes a queued revision from its claim to its end. */
  lemma CompletesRevision(r: State -> bool, config: Config, s: State, k: RunKey)
    requires Covers(r, config)
    requires r(s) && Unblocked(s) && LiveAt(s) && MayClaim(s, k.worker, k.job) && k !in s.runs
    requires k.job in s.jobs && s.jobs[k.job] == Job(Revise, s.draft.version, Some(PAYLOAD), Queued, None)
    ensures r(RevisionStored(s, k))
  {
    hide Covers, MayClaim;
    Claims(r, config, s, k);
    var s1 := Taken(s, k);
    Revises(r, config, s1, k);
    var s2 := s1.(runs := s1.runs[k := StoringRevision(s.draft.version, PAYLOAD, false)]);
    StoresRevision(r, config, s2, k);
    assert s2.runs - {k} == s.runs - {k};
    assert s2.jobs[k.job := s.jobs[k.job].(status := Completed, owner := None)] == s.jobs[k.job := s.jobs[k.job].(status := Completed, owner := None)];
  }

  const STALE := RunKey(0, OperationJob(0))

  /** The first revision was stored by a second worker while the first worker, which lost its lease, still stands before its write. */
  predicate StaleRunnerWaits(s: State) {
    && s.runs == map[STALE := StoringRevision(3, PAYLOAD, false)]
    && s.config.overlap.AnyRunners? && s.open.None? && s.requests == map[]
    && s.draft == DraftAt(3) && LiveAt(s) && 4 !in s.syncs
    && s.offer.value.status.Published? && s.offer.value.version == 3
    && NoActiveOperation(s)
  }

  lemma FirstRevision(r: State -> bool, config: Config) returns (s: State)
    requires Covers(r, config)
    requires config.overlap.AnyRunners?
    ensures r(s) && s.draft == DraftAt(3) && s.runs == map[] && s.open.None? && s.requests == map[] && s.config == config
    ensures LiveAt(s) && 4 !in s.syncs && s.offer.Some? && s.nextJob == 1
    ensures s.jobs == Live(config).jobs[OperationJob(0) := Job(Revise, 3, Some(PAYLOAD), Queued, None)]
  {
    hide Covers;
    ReachesLive(r, config);
    var s0 := Live(config);
    Validates(r, config, s0);
    var s1 := s0.(draft := DraftAt(3), prepared := s0.prepared + {3}, syncs := s0.syncs[3 := SyncCompleted]);
    hide Apply;
    assert NoActiveOperation(s1);
    QueuesRevision(r, config, s1);
    s := RevisionQueuedAt(s1);
  }

  /** A runner that stands before its write loses its lease. */
  function Overtaken(s: State): State
    requires STALE.job in s.jobs
  {
    s.(runs := map[STALE := StoringRevision(3, PAYLOAD, false)])
  }

  lemma StaleRunnerStops(r: State -> bool, config: Config, s: State)
    requires Covers(r, config)
    requires r(s) && s.open.None? && s.config == config && s.draft == DraftAt(3) && s.runs == map[] && LiveAt(s)
    requires STALE.job in s.jobs && s.jobs[STALE.job] == Job(Revise, 3, Some(PAYLOAD), Queued, None)
    ensures r(Overtaken(s))
  {
    hide Covers, RequestStep, SyncStep, RemoteStep, Run, Drafts.Apply, LiveAt;
    assert MayClaim(s, STALE.worker, STALE.job);
    Claims(r, config, s, STALE);
    var s1 := Taken(s, STALE);
    SameListing(s, s1);
    Revises(r, config, s1, STALE);
    var s2 := s1.(runs := s1.runs[STALE := StoringRevision(3, PAYLOAD, false)]);
    LosesLease(r, config, s2);
    assert s2.jobs[STALE.job := s2.jobs[STALE.job].(status := Queued, owner := None)] == s.jobs;
    assert s2.runs == Overtaken(s).runs;
  }

  lemma LosesLease(r: State -> bool, config: Config, s: State)
    requires Covers(r, config)
    requires r(s) && s.open.None? && STALE.job in s.jobs && s.jobs[STALE.job].status.Running?
    ensures r(s.(jobs := s.jobs[STALE.job := s.jobs[STALE.job].(status := Queued, owner := None)]))
  {
    hide Covers, RequestStep, SyncStep, RemoteStep, Run, Drafts.Apply;
    Take(r, config, s, Reclaim(STALE.job), s.(jobs := s.jobs[STALE.job := s.jobs[STALE.job].(status := Queued, owner := None)]));
  }

  lemma OvertakenRunner(r: State -> bool, config: Config) returns (t: State)
    requires Covers(r, config)
    requires config.overlap.AnyRunners?
    ensures r(t) && StaleRunnerWaits(t)
  {
    hide Covers, LiveAt;
    var s := FirstRevision(r, config);
    StaleRunnerStops(r, config, s);
    var s1 := Overtaken(s);
    SameListing(s, s1);
    var k := RunKey(1, STALE.job);
    CompletesRevision(r, config, s1, k);
    t := RevisionStored(s1, k);
    StillLive(s1, k);
    assert t.runs == map[STALE := StoringRevision(3, PAYLOAD, false)];
    assert NoActiveOperation(t) by {
      assert forall j :: j in t.jobs && j.OperationJob? ==> j == STALE.job;
    }
  }

  lemma SameListing(s: State, t: State)
    requires LiveAt(s) && t == s.(jobs := t.jobs, runs := t.runs)
    ensures LiveAt(t)
  {
  }

  lemma StillLive(s: State, k: RunKey)
    requires LiveAt(s) && k.job in s.jobs
    ensures LiveAt(RevisionStored(s, k))
  {
  }

  /** When two workers may run one revision job, the one that lost its lease stores version 3 over version 4. */
  lemma OvertakenRunnerTakesVersionBack(config: Config)
    requires config.overlap.AnyRunners?
    ensures exists s, step :: Reaches(config, s) && StepsBack(s, Apply(s, step))
  {
    hide Reaches, Apply;
    var r := (s: State) => Reaches(config, s);
    ReachedStatesCover(config, r);
    var s := SecondRevision(r, config);
    StaleStore(s);
  }

  lemma SecondRevision(r: State -> bool, config: Config) returns (t: State)
    requires Covers(r, config) && config.overlap.AnyRunners?
    ensures r(t) && t.open.None? && t.offer.Some? && t.offer.value.version == 4
    ensures STALE in t.runs && t.runs[STALE] == StoringRevision(3, PAYLOAD, false)
  {
    hide Covers, Apply, LiveAt;
    var s := OvertakenRunner(r, config);
    Validates(r, config, s);
    var s1 := s.(draft := DraftAt(4), prepared := s.prepared + {4}, syncs := s.syncs[4 := SyncCompleted]);
    LiveAtNext(s, s1);
    QueuesRevision(r, config, s1);
    var s2 := RevisionQueuedAt(s1);
    QueuedStaysLive(s1);
    var k := RunKey(1, OperationJob(s.nextJob));
    CompletesRevision(r, config, s2, k);
    t := RevisionStored(s2, k);
  }

  lemma LiveAtNext(s: State, t: State)
    requires LiveAt(s) && t.draft == DraftAt(4) && t == s.(draft := t.draft, prepared := t.prepared, syncs := s.syncs[4 := SyncCompleted])
    ensures LiveAt(t) && NoActiveOperation(s) == NoActiveOperation(t)
  {
  }

  lemma QueuedStaysLive(s: State)
    requires LiveAt(s)
    ensures LiveAt(RevisionQueuedAt(s))
  {
  }

  lemma StaleStore(s: State)
    requires s.open.None? && s.offer.Some? && s.offer.value.version == 4
    requires STALE in s.runs && s.runs[STALE] == StoringRevision(3, PAYLOAD, false)
    ensures StepsBack(s, Apply(s, Advance(STALE.worker, STALE.job, Good)))
  {
    hide SyncStep, RequestStep, RemoteStep, Drafts.Apply;
  }

  // ----- interleaved revise requests

  const REVISE_READ := ReviseRead(3, PAYLOAD)

  /** The first listing, and a newer draft that could be revised to. */
  function Revisable(config: Config): State {
    var s := Live(config);
    s.(draft := DraftAt(3), prepared := s.prepared + {3}, syncs := s.syncs[3 := SyncCompleted])
  }

  lemma ReachesRevisable(r: State -> bool, config: Config)
    requires Covers(r, config)
    ensures r(Revisable(config))
    ensures LiveAt(Revisable(config)) && NoActiveOperation(Revisable(config))
  {
    hide Covers, Apply;
    ReachesLive(r, config);
    Validates(r, config, Live(config));
  }

  /** The approval is superseded between a revise request's reads and its write, if requests are not atomic. */
  lemma SupersededApprovalIsRevised(overlap: Overlap)
    ensures exists s, id :: Reaches(Config(false, overlap), s) && !Requests.RevisesApproved(s, id)
  {
    hide Reaches, Apply;
    var config := Config(false, overlap);
    var r := (s: State) => Reaches(config, s);
    ReachedStatesCover(config, r);
    var s := RevisionLosesApproval(r, config);
    LateRevisionQueues(s);
  }

  lemma RevisionLosesApproval(r: State -> bool, config: Config) returns (s: State)
    requires Covers(r, config) && !config.atomicRequests
    ensures r(s) && s.config == config && s.approval.None? && s.offer.Some? && 0 in s.requests && s.requests[0] == REVISE_READ
  {
    hide Covers, SyncStep, RunnerStep, RemoteStep, Drafts.Apply, RequestStep;
    ReachesRevisable(r, config);
    BeginsRevision(r, config, Revisable(config), 0);
    var s1 := Begin(Revisable(config), 0, REVISE_READ);
    s := s1.(approval := None);
    Take(r, config, s1, Decide(None), s);
  }

  lemma LateRevisionQueues(s: State)
    requires !s.config.atomicRequests && s.approval.None? && s.offer.Some? && 0 in s.requests && s.requests[0] == REVISE_READ
    ensures !Requests.RevisesApproved(s, 0)
  {
    hide SyncStep, RunnerStep, RemoteStep, Drafts.Apply;
  }

  /** Two revise requests have both read that they may revise. */
  function BothRead(config: Config): State {
    Begin(Begin(Revisable(config), 0, REVISE_READ), 1, REVISE_READ)
  }

  /** The first of them has written. */
  function FirstWritten(config: Config): State {
    QueueOperation(BothRead(config), 0, RevisionQueued, Job(Revise, 3, Some(PAYLOAD), Queued, None))
  }

  lemma ReachesFirstWritten(r: State -> bool, config: Config)
    requires Covers(r, config) && !config.atomicRequests
    ensures r(FirstWritten(config))
  {
    hide Covers, SyncStep, RunnerStep, RemoteStep, Drafts.Apply;
    ReachesRevisable(r, config);
    BeginsRevision(r, config, Revisable(config), 0);
    BeginsRevision(r, config, Begin(Revisable(config), 0, REVISE_READ), 1);
    Take(r, config, BothRead(config), StoreRevisionJob(0), FirstWritten(config));
  }

  /** Whether an operation was already queued, and has run to its end, is not looked at again. */
  lemma DuplicateRequestsReviseTwice(overlap: Overlap)
    ensures exists s :: Reaches(Config(false, overlap), s) && !Versions.OneRevision(s.jobs)
    ensures exists s, id :: Reaches(Config(false, overlap), s) && !Requests.RevisesForward(s, id)
  {
    hide Reaches, Apply;
    var config := Config(false, overlap);
    var r := (s: State) => Reaches(config, s);
    ReachedStatesCover(config, r);
    ReachesFirstWritten(r, config);
    TwoRevisions(r, config);
    var s := LateRevision(r, config);
    LateRevisionIsNotForward(s);
  }

  lemma TwoRevisions(r: State -> bool, config: Config)
    requires Covers(r, config) && !config.atomicRequests && r(FirstWritten(config))
    ensures exists s :: r(s) && !Versions.OneRevision(s.jobs)
  {
    hide Covers, SyncStep, RunnerStep, RemoteStep, Drafts.Apply;
    var s := FirstWritten(config);
    var t := QueueOperation(s, 1, RevisionQueued, Job(Revise, 3, Some(PAYLOAD), Queued, None));
    Take(r, config, s, StoreRevisionJob(1), t);
    assert OperationJob(0) in t.jobs && OperationJob(1) in t.jobs;
  }

  lemma LateRevision(r: State -> bool, config: Config) returns (t: State)
    requires Covers(r, config) && !config.atomicRequests && r(FirstWritten(config))
    ensures r(t) && !t.config.atomicRequests && t.offer.Some? && t.offer.value.version == 3
    ensures 1 in t.requests && t.requests[1] == REVISE_READ
  {
    hide Covers, Apply;
    var s, k := FirstWritten(config), RunKey(0, OperationJob(0));
    assert s.runs == map[];
    CompletesRevision(r, config, s, k);
    t := RevisionStored(s, k);
  }

  lemma LateRevisionIsNotForward(s: State)
    requires !s.config.atomicRequests && s.offer.Some? && s.offer.value.version == 3
    requires 1 in s.requests && s.requests[1] == REVISE_READ
    ensures !Requests.RevisesForward(s, 1)
  {
    hide SyncStep, RunnerStep, RemoteStep, Drafts.Apply;
  }
}
