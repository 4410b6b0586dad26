/**
 * What each job is for: if its conditions hold when a worker claims it, every call works and nobody interferes, the
 * worker's own steps bring it to its end.
 */
module ListingProgress {
  import opened Wrappers
  import opened ListingProtocol
  import Runs = ListingCounterexamples
  import Drafts

  /** The state after so many steps of one runner, all of whose calls work. */
  function Alone(s: State, k: RunKey, n: nat): State {
    if n == 0 then s else Apply(Alone(s, k, n - 1), Advance(k.worker, k.job, Good))
  }

  lemma {:induction false} AloneIsRun(s: State, k: RunKey, n: nat)
    ensures Alone(s, k, n) == Exec(s, seq(n, i => Advance(k.worker, k.job, Good)))
  {
    hide Apply;
    if n > 0 {
      var front, all := seq(n - 1, i => Advance(k.worker, k.job, Good)), seq(n, i => Advance(k.worker, k.job, Good));
      assert all == front + [Advance(k.worker, k.job, Good)];
      AloneIsRun(s, k, n - 1);
      ExecAppends(s, front, [Advance(k.worker, k.job, Good)]);
      assert Exec(Alone(s, k, n - 1), [Advance(k.worker, k.job, Good)]) == Exec(Alone(s, k, n), []);
    }
  }

  ghost predicate Gets(s: State, k: RunKey, t: State) {
    exists n: nat :: Alone(s, k, n) == t
  }

  lemma Starts(s: State, k: RunKey)
    ensures Gets(s, k, s)
  {
    assert Alone(s, k, 0) == s;
  }

  lemma Goes(start: State, k: RunKey, s: State, t: State)
    requires Gets(start, k, s) && Runs.Unblocked(s) && k in s.runs && Run(s, k, Good) == t
    ensures Gets(start, k, t)
  {
    hide Run, Alone, SyncStep, RequestStep, RemoteStep, Drafts.Apply;
    var n: nat :| Alone(start, k, n) == s;
    assert Alone(start, k, n + 1) == t by { AloneAgain(start, k, n); }
  }

  lemma AloneAgain(s: State, k: RunKey, n: nat)
    ensures Alone(s, k, n + 1) == Apply(Alone(s, k, n), Advance(k.worker, k.job, Good))
  {
    hide Apply;
  }

  /** A queued job that the worker may claim. */
  predicate Startable(s: State, k: RunKey) {
    Runs.Unblocked(s) && k.job in s.jobs && s.jobs[k.job].status.Queued? && MayClaim(s, k.worker, k.job)
  }

  function Start(s: State, k: RunKey): State {
    Apply(s, Claim(k.worker, k.job))
  }

  /** The job is done, no runner is left but those there were, and of the rest only the offer and eBay's side may differ. */
  predicate Completes(s: State, t: State, k: RunKey) {
    && k.job in s.jobs
    && t == s.(offer := t.offer, remote := t.remote, jobs := s.jobs[k.job := s.jobs[k.job].(status := Completed, owner := None)])
  }

  lemma StartIsTaken(s: State, k: RunKey)
    requires Startable(s, k)
    ensures Start(s, k) == Runs.Taken(s, k) && k !in s.runs
  {
    hide SyncStep, RequestStep, RemoteStep, Drafts.Apply, Run;
  }

  /** A runner whose last write is stored completes its job and goes. */
  lemma Ends(start: State, s: State, k: RunKey, last: State)
    requires k !in s.runs && k.job in s.jobs
    requires var running := s.jobs[k.job := s.jobs[k.job].(status := Running, owner := Some(k.worker))];
             last == s.(offer := last.offer, remote := last.remote, jobs := running, runs := s.runs[k := Finishing])
    requires Gets(start, k, last) && Runs.Unblocked(last)
    ensures var t := s.(offer := last.offer, remote := last.remote, jobs := s.jobs[k.job := s.jobs[k.job].(status := Completed, owner := None)]);
            Gets(start, k, t) && Completes(s, t, k)
  {
    hide Apply, Gets;
    var t := s.(offer := last.offer, remote := last.remote, jobs := s.jobs[k.job := s.jobs[k.job].(status := Completed, owner := None)]);
    assert last.jobs[k.job := s.jobs[k.job].(status := Completed, owner := None)] == t.jobs;
    assert last.runs - {k} == s.runs;
    assert Run(last, k, Good) == t;
    Goes(start, k, last, t);
  }

  /** The state of a run with its runner at the given place. */
  function Where(s: State, k: RunKey, pc: Pc, offer: Option<Offer>, remote: Remote): State
    requires k.job in s.jobs
  {
    s.(offer := offer, remote := remote, jobs := s.jobs[k.job := s.jobs[k.job].(status := Running, owner := Some(k.worker))],
       runs := s.runs[k := pc])
  }

  /** One good step of the runner, from one place to the next. */
  predicate Walks(s: State, k: RunKey, pc: Pc, offer: Option<Offer>, remote: Remote, next: Pc, newOffer: Option<Offer>, newRemote: Remote)
    requires k.job in s.jobs
  {
    Run(Where(s, k, pc, offer, remote), k, Good) == Goto(Where(s, k, pc, newOffer, newRemote), k, next)
  }

  lemma Walked(start: State, s: State, k: RunKey, pc: Pc, offer: Option<Offer>, remote: Remote, next: Pc, newOffer: Option<Offer>, newRemote: Remote)
    requires k.job in s.jobs && Runs.Unblocked(s) && Gets(start, k, Where(s, k, pc, offer, remote))
    requires Walks(s, k, pc, offer, remote, next, newOffer, newRemote)
    ensures Gets(start, k, Where(s, k, next, newOffer, newRemote))
  {
    hide Run, Gets;
    var t := Where(s, k, pc, newOffer, newRemote);
    Goes(start, k, Where(s, k, pc, offer, remote), Goto(t, k, next));
    assert Goto(t, k, next).runs == s.runs[k := next];
  }

  lemma Begins(s: State, k: RunKey)
    requires Startable(s, k)
    ensures Gets(Start(s, k), k, Where(s, k, Claimed, s.offer, s.remote)) && k !in s.runs
  {
    hide Gets;
    StartIsTaken(s, k);
    Starts(Start(s, k), k);
  }

  /** The end of a job whose last write is stored. */
  lemma Ended(s: State, k: RunKey, offer: Offer, remote: Remote) returns (t: State)
    requires Startable(s, k) && k !in s.runs && Gets(Start(s, k), k, Where(s, k, Finishing, Some(offer), remote))
    ensures Gets(Start(s, k), k, t) && Completes(s, t, k) && t.offer == Some(offer) && t.remote == remote
  {
    hide Gets, Apply, Start, MayClaim;
    Ends(Start(s, k), s, k, Where(s, k, Finishing, Some(offer), remote));
    t := s.(offer := Some(offer), remote := remote, jobs := s.jobs[k.job := s.jobs[k.job].(status := Completed, owner := None)]);
  }

  // ----- withdrawal

  lemma WithdrawalLoads(s: State, k: RunKey, o: Offer, r: Remote)
    requires k.job in s.jobs && s.jobs[k.job].action.Withdraw? && o.remoteId.Some? && r.offer.Some?
    ensures Walks(s, k, Claimed, Some(o), r, ReadingWithdrawn, Some(o), r)
  {
    hide PrepareRun, PublishRun, ReviseRun, ReconcileRun, EndRun, EndRemote;
  }

  lemma SnapshotWalks(s: State, k: RunKey, o: Offer, r: Remote)
    requires k.job in s.jobs && s.jobs[k.job].action.Withdraw? && o.remoteId.Some? && r.offer.Some?
    ensures Walks(s, k, ReadingWithdrawn, Some(o), r, if r.offer.value.live then Withdrawing else StoringWithdrawal, Some(o), r)
  {
    hide PrepareRun, PublishRun, ReviseRun, ReconcileRun, EndRun, EndRemote;
  }

  lemma EndingWalks(s: State, k: RunKey, o: Offer, r: Remote)
    requires k.job in s.jobs && s.jobs[k.job].action.Withdraw? && o.remoteId.Some? && r.offer.Some?
    ensures Walks(s, k, Withdrawing, Some(o), r, ReadingFinal, Some(o), EndRemote(r, false))
  {
    hide PrepareRun, PublishRun, ReviseRun, ReconcileRun, EndRun, EndRemote;
  }

  lemma WithdrawalStores(s: State, k: RunKey, o: Offer, r: Remote)
    requires k.job in s.jobs && s.jobs[k.job].action.Withdraw? && o.remoteId.Some? && r.offer.Some?
    ensures Walks(s, k, ReadingFinal, Some(o), r, StoringWithdrawal, Some(o), r)
    ensures Walks(s, k, StoringWithdrawal, Some(o), r, Finishing, Some(o.(status := Withdrawn, drifted := false)), r)
  {
    hide PrepareRun, PublishRun, ReviseRun, ReconcileRun, EndRun, EndRemote;
  }

  lemma WithdrawalWalks(s: State, k: RunKey, o: Offer, r: Remote)
    requires k.job in s.jobs && s.jobs[k.job].action.Withdraw? && o.remoteId.Some? && r.offer.Some?
    ensures Walks(s, k, Claimed, Some(o), r, ReadingWithdrawn, Some(o), r)
    ensures Walks(s, k, ReadingWithdrawn, Some(o), r, if r.offer.value.live then Withdrawing else StoringWithdrawal, Some(o), r)
    ensures Walks(s, k, Withdrawing, Some(o), r, ReadingFinal, Some(o), EndRemote(r, false))
    ensures Walks(s, k, ReadingFinal, Some(o), r, StoringWithdrawal, Some(o), r)
    ensures Walks(s, k, StoringWithdrawal, Some(o), r, Finishing, Some(o.(status := Withdrawn, drifted := false)), r)
  {
    hide Walks;
    WithdrawalLoads(s, k, o, r);
    SnapshotWalks(s, k, o, r);
    EndingWalks(s, k, o, r);
    WithdrawalStores(s, k, o, r);
  }

  /** A withdrawal ends the listing, if it is live, and makes the offer WITHDRAWN. */
  lemma WithdrawalSucceeds(s: State, k: RunKey) returns (t: State)
    requires Startable(s, k) && s.jobs[k.job].action.Withdraw?
    requires s.offer.Some? && s.offer.value.remoteId.Some? && s.remote.offer.Some?
    ensures Gets(Start(s, k), k, t) && Completes(s, t, k)
    ensures t.offer == Some(s.offer.value.(status := Withdrawn, drifted := false))
    ensures t.remote.offer.Some? && !t.remote.offer.value.live && t.remote.offer.value.id == s.remote.offer.value.id
    ensures t.remote.endings == s.remote.endings + (if s.remote.offer.value.live then 1 else 0)
    ensures if s.remote.offer.value.live then !t.remote.offer.value.published else t.remote == s.remote
  {
    hide Gets, Start, Apply, Walks, Where, MayClaim, Completes;
    var start, o, r := Start(s, k), s.offer.value, s.remote;
    Begins(s, k);
    WithdrawalWalks(s, k, o, r);
    Walked(start, s, k, Claimed, Some(o), r, ReadingWithdrawn, Some(o), r);
    if r.offer.value.live {
      Walked(start, s, k, ReadingWithdrawn, Some(o), r, Withdrawing, Some(o), r);
      Walked(start, s, k, Withdrawing, Some(o), r, ReadingFinal, Some(o), EndRemote(r, false));
      r := EndRemote(r, false);
      WithdrawalWalks(s, k, o, r);
      Walked(start, s, k, ReadingFinal, Some(o), r, StoringWithdrawal, Some(o), r);
    } else {
      Walked(start, s, k, ReadingWithdrawn, Some(o), r, StoringWithdrawal, Some(o), r);
    }
    var stored := o.(status := Withdrawn, drifted := false);
    Walked(start, s, k, StoringWithdrawal, Some(o), r, Finishing, Some(stored), r);
    t := Ended(s, k, stored, r);
  }

  // ----- reconciliation

  /** The offer as eBay shows it: whether its listing is live, which it is, and whether the payload is the offer's. */
  function WhatIsShown(o: Offer, r: RemoteOffer): Offer {
    o.(drifted := o.payload != r.payload,
       status := if !r.live then Withdrawn else if o.payload != r.payload then Drifted else Published,
       listingId := if r.listing.Some? then r.listing else o.listingId)
  }

  lemma ReconciliationLoads(s: State, k: RunKey, o: Offer, r: Remote)
    requires k.job in s.jobs && s.jobs[k.job].action.Reconcile? && o.remoteId.Some? && r.offer.Some?
    ensures Walks(s, k, Claimed, Some(o), r, ReadingRemote(o.payload, o.listingId), Some(o), r)
  {
    hide PrepareRun, PublishRun, ReviseRun, WithdrawRun, EndRun, OfferDrift;
  }

  lemma ReconciliationReads(s: State, k: RunKey, o: Offer, r: Remote)
    requires k.job in s.jobs && s.jobs[k.job].action.Reconcile? && o.remoteId.Some? && r.offer.Some?
    ensures var found := WhatIsShown(o, r.offer.value);
            Walks(s, k, ReadingRemote(o.payload, o.listingId), Some(o), r,
                  StoringReconciliation(found.status, found.listingId, found.drifted), Some(o), r)
  {
    NoDriftMeansEqual(o.payload, r.offer.value.payload);
    hide PrepareRun, PublishRun, ReviseRun, WithdrawRun, EndRun, OfferDrift;
  }

  lemma ReconciliationStores(s: State, k: RunKey, o: Offer, r: Remote, found: Offer)
    requires k.job in s.jobs && found == o.(status := found.status, listingId := found.listingId, drifted := found.drifted)
    ensures Walks(s, k, StoringReconciliation(found.status, found.listingId, found.drifted), Some(o), r, Finishing, Some(found), r)
  {
    hide PrepareRun, PublishRun, ReviseRun, WithdrawRun, EndRun, OfferDrift;
  }

  /** A reconciliation stores what eBay shows. */
  lemma ReconciliationSucceeds(s: State, k: RunKey) returns (t: State)
    requires Startable(s, k) && s.jobs[k.job].action.Reconcile?
    requires s.offer.Some? && s.offer.value.remoteId.Some? && s.remote.offer.Some?
    ensures Gets(Start(s, k), k, t) && Completes(s, t, k) && t.remote == s.remote
    ensures t.offer == Some(WhatIsShown(s.offer.value, s.remote.offer.value))
  {
    hide Gets, Start, Apply, Walks, Where, MayClaim, Completes;
    var start, o, r := Start(s, k), s.offer.value, s.remote;
    var found := WhatIsShown(o, r.offer.value);
    Begins(s, k);
    ReconciliationLoads(s, k, o, r);
    Walked(start, s, k, Claimed, Some(o), r, ReadingRemote(o.payload, o.listingId), Some(o), r);
    ReconciliationReads(s, k, o, r);
    Walked(start, s, k, ReadingRemote(o.payload, o.listingId), Some(o), r,
           StoringReconciliation(found.status, found.listingId, found.drifted), Some(o), r);
    ReconciliationStores(s, k, o, r, found);
    Walked(start, s, k, StoringReconciliation(found.status, found.listingId, found.drifted), Some(o), r, Finishing, Some(found), r);
    t := Ended(s, k, found, r);
  }

  // ----- revision

  lemma RevisionLoads(s: State, k: RunKey, o: Offer, r: Remote, v: nat, payload: Payload)
    requires k.job in s.jobs && s.jobs[k.job].action.Revise? && s.jobs[k.job].target == v && s.jobs[k.job].payload == Some(payload)
    requires s.draft.version == v && DraftIsLive(s) && SyncedAt(s, v)
    requires o.remoteId.Some? && r.offer.Some? && r.offer.value.live
    ensures Walks(s, k, Claimed, Some(o), r, CheckingLive(v, payload), Some(o), r)
  {
    NoDriftMeansEqual(payload, r.offer.value.payload);
    hide PrepareRun, PublishRun, WithdrawRun, ReconcileRun, EndRun, OfferDrift;
  }

  lemma RevisionSends(s: State, k: RunKey, o: Offer, r: Remote, v: nat, payload: Payload)
    requires k.job in s.jobs && s.jobs[k.job].action.Revise? && s.jobs[k.job].target == v && s.jobs[k.job].payload == Some(payload)
    requires s.draft.version == v && DraftIsLive(s) && SyncedAt(s, v)
    requires o.remoteId.Some? && r.offer.Some? && r.offer.value.live
    ensures Walks(s, k, CheckingLive(v, payload), Some(o), r, Updating(v, payload), Some(o), r)
    ensures Walks(s, k, Updating(v, payload), Some(o), r, ReadingBack(v, payload), Some(o), r.(offer := Some(r.offer.value.(payload := payload))))
  {
    NoDriftMeansEqual(payload, r.offer.value.payload);
    hide PrepareRun, PublishRun, WithdrawRun, ReconcileRun, EndRun, OfferDrift;
  }

  lemma RevisionStores(s: State, k: RunKey, o: Offer, r: Remote, v: nat, payload: Payload)
    requires k.job in s.jobs && s.jobs[k.job].action.Revise? && s.jobs[k.job].target == v && s.jobs[k.job].payload == Some(payload)
    requires s.draft.version == v && DraftIsLive(s) && SyncedAt(s, v)
    requires o.remoteId.Some? && r.offer.Some? && r.offer.value.live
    ensures r.offer.value.payload == payload ==>
              && Walks(s, k, ReadingBack(v, payload), Some(o), r, StoringRevision(v, payload, false), Some(o), r)
              && Walks(s, k, StoringRevision(v, payload, false), Some(o), r, Finishing,
                       Some(o.(version := v, payload := payload, drifted := false, status := Published)), r)
  {
    NoDriftMeansEqual(payload, r.offer.value.payload);
    hide PrepareRun, PublishRun, WithdrawRun, ReconcileRun, EndRun, OfferDrift;
  }

  lemma RevisionWalks(s: State, k: RunKey, o: Offer, r: Remote, v: nat, payload: Payload)
    requires k.job in s.jobs && s.jobs[k.job].action.Revise? && s.jobs[k.job].target == v && s.jobs[k.job].payload == Some(payload)
    requires s.draft.version == v && DraftIsLive(s) && SyncedAt(s, v)
    requires o.remoteId.Some? && r.offer.Some? && r.offer.value.live
    ensures Walks(s, k, Claimed, Some(o), r, CheckingLive(v, payload), Some(o), r)
    ensures Walks(s, k, CheckingLive(v, payload), Some(o), r, Updating(v, payload), Some(o), r)
    ensures Walks(s, k, Updating(v, payload), Some(o), r, ReadingBack(v, payload), Some(o), r.(offer := Some(r.offer.value.(payload := payload))))
    ensures r.offer.value.payload == payload ==>
              && Walks(s, k, ReadingBack(v, payload), Some(o), r, StoringRevision(v, payload, false), Some(o), r)
              && Walks(s, k, StoringRevision(v, payload, false), Some(o), r, Finishing,
                       Some(o.(version := v, payload := payload, drifted := false, status := Published)), r)
  {
    hide Walks;
    RevisionLoads(s, k, o, r, v, payload);
    RevisionSends(s, k, o, r, v, payload);
    RevisionStores(s, k, o, r, v, payload);
  }

  /** A revision puts its payload on eBay, and the offer is PUBLISHED at its version with that payload. */
  lemma RevisionSucceeds(s: State, k: RunKey) returns (t: State)
    requires Startable(s, k) && s.jobs[k.job].action.Revise? && s.jobs[k.job].payload.Some?
    requires s.draft.version == s.jobs[k.job].target && DraftIsLive(s) && SyncedAt(s, s.draft.version)
    requires s.offer.Some? && s.offer.value.remoteId.Some? && s.remote.offer.Some? && s.remote.offer.value.live
    ensures Gets(Start(s, k), k, t) && Completes(s, t, k)
    ensures var payload := s.jobs[k.job].payload.value;
            && t.offer == Some(s.offer.value.(version := s.draft.version, payload := payload, drifted := false, status := Published))
            && t.remote == s.remote.(offer := Some(s.remote.offer.value.(payload := payload)))
  {
    hide Gets, Start, Apply, Walks, Where, MayClaim, Completes;
    var start, o, r, v, payload := Start(s, k), s.offer.value, s.remote, s.draft.version, s.jobs[k.job].payload.value;
    Begins(s, k);
    RevisionWalks(s, k, o, r, v, payload);
    Walked(start, s, k, Claimed, Some(o), r, CheckingLive(v, payload), Some(o), r);
    Walked(start, s, k, CheckingLive(v, payload), Some(o), r, Updating(v, payload), Some(o), r);
    var r' := r.(offer := Some(r.offer.value.(payload := payload)));
    Walked(start, s, k, Updating(v, payload), Some(o), r, ReadingBack(v, payload), Some(o), r');
    RevisionWalks(s, k, o, r', v, payload);
    Walked(start, s, k, ReadingBack(v, payload), Some(o), r', StoringRevision(v, payload, false), Some(o), r');
    var stored := o.(version := v, payload := payload, drifted := false, status := Published);
    Walked(start, s, k, StoringRevision(v, payload, false), Some(o), r', Finishing, Some(stored), r');
    t := Ended(s, k, stored, r');
  }

  // ----- publication

  lemma PublicationLoads(s: State, k: RunKey, o: Offer, r: Remote)
    requires k.job in s.jobs && s.jobs[k.job].action.Publish? && o.status.PublishQueued? && o.approved && o.remoteId.Some? && r.offer.Some?
    requires s.draft.version == o.version && s.draft.row.live
    ensures Walks(s, k, Claimed, Some(o), r, CheckingListing(o.remoteId.value), Some(o), r)
  {
    hide PrepareRun, ReviseRun, WithdrawRun, ReconcileRun, EndRun, PublishRemote;
  }

  lemma PublicationSends(s: State, k: RunKey, o: Offer, r: Remote)
    requires k.job in s.jobs && s.jobs[k.job].action.Publish? && o.status.PublishQueued? && o.approved && o.remoteId.Some? && r.offer.Some?
    requires s.draft.version == o.version && s.draft.row.live
    ensures var listing := r.offer.value.listing;
            Walks(s, k, CheckingListing(o.remoteId.value), Some(o), r,
                  if listing.Some? then StoringListing(listing.value) else Publishing(o.remoteId.value), Some(o), r)
    ensures r.offer.value.listing.None? ==>
              Walks(s, k, Publishing(o.remoteId.value), Some(o), r, StoringListing(r.nextId), Some(o), PublishRemote(r))
  {
    hide PrepareRun, ReviseRun, WithdrawRun, ReconcileRun, EndRun, PublishRemote;
  }

  lemma PublicationWalks(s: State, k: RunKey, o: Offer, r: Remote)
    requires k.job in s.jobs && s.jobs[k.job].action.Publish? && o.status.PublishQueued? && o.approved && o.remoteId.Some? && r.offer.Some?
    requires s.draft.version == o.version && s.draft.row.live
    ensures Walks(s, k, Claimed, Some(o), r, CheckingListing(o.remoteId.value), Some(o), r)
    ensures var listing := r.offer.value.listing;
            Walks(s, k, CheckingListing(o.remoteId.value), Some(o), r,
                  if listing.Some? then StoringListing(listing.value) else Publishing(o.remoteId.value), Some(o), r)
    ensures r.offer.value.listing.None? ==>
              Walks(s, k, Publishing(o.remoteId.value), Some(o), r, StoringListing(r.nextId), Some(o), PublishRemote(r))
  {
    hide Walks;
    PublicationLoads(s, k, o, r);
    PublicationSends(s, k, o, r);
  }

  lemma ListingWalks(s: State, k: RunKey, o: Offer, r: Remote, listing: int)
    requires k.job in s.jobs
    ensures Walks(s, k, StoringListing(listing), Some(o), r, Finishing,
                  Some(o.(status := Published, listingId := Some(listing), publishedBefore := true)), r)
  {
    hide PrepareRun, ReviseRun, WithdrawRun, ReconcileRun, EndRun;
  }

  /** A publication makes eBay show a new live listing, unless it shows one already, and the offer is PUBLISHED with it. */
  lemma PublicationSucceeds(s: State, k: RunKey) returns (t: State)
    requires Startable(s, k) && s.jobs[k.job].action.Publish?
    requires s.offer.Some? && s.offer.value.status.PublishQueued? && s.offer.value.approved && s.offer.value.remoteId.Some?
    requires s.draft.version == s.offer.value.version && s.draft.row.live && s.remote.offer.Some?
    ensures Gets(Start(s, k), k, t) && Completes(s, t, k)
    ensures t.remote.offer.Some? && t.remote.offer.value.listing.Some?
    ensures t.offer == Some(s.offer.value.(status := Published, listingId := t.remote.offer.value.listing, publishedBefore := true))
    ensures s.remote.offer.value.listing.Some? ==> t.remote == s.remote
    ensures s.remote.offer.value.listing.None? ==>
              && t.remote.offer == Some(s.remote.offer.value.(listing := t.remote.lastListing, published := true, live := true))
              && t.remote.publications == s.remote.publications + 1 && t.remote.extraPublishes == s.remote.extraPublishes
  {
    hide Gets, Start, Apply, Walks, Where, MayClaim, Completes;
    var start, o, r := Start(s, k), s.offer.value, s.remote;
    var id := o.remoteId.value;
    Begins(s, k);
    PublicationWalks(s, k, o, r);
    Walked(start, s, k, Claimed, Some(o), r, CheckingListing(id), Some(o), r);
    var listing;
    if r.offer.value.listing.Some? {
      listing := r.offer.value.listing.value;
      Walked(start, s, k, CheckingListing(id), Some(o), r, StoringListing(listing), Some(o), r);
    } else {
      listing := r.nextId;
      Walked(start, s, k, CheckingListing(id), Some(o), r, Publishing(id), Some(o), r);
      Walked(start, s, k, Publishing(id), Some(o), r, StoringListing(listing), Some(o), PublishRemote(r));
      r := PublishRemote(r);
    }
    var stored := o.(status := Published, listingId := Some(listing), publishedBefore := true);
    ListingWalks(s, k, o, r, listing);
    Walked(start, s, k, StoringListing(listing), Some(o), r, Finishing, Some(stored), r);
    t := Ended(s, k, stored, r);
  }

  // ----- preparation

  lemma UpdateWalks(s: State, k: RunKey, o: Offer, r: Remote)
    requires k.job in s.jobs && s.jobs[k.job].action.Prepare? && o.remoteId.Some? && r.offer.Some? && r.offer.value.id == o.remoteId.value
    ensures Walks(s, k, Claimed, Some(o), r, UpdatingPrepared(o.payload, o.remoteId.value), Some(o), r)
    ensures Walks(s, k, UpdatingPrepared(o.payload, o.remoteId.value), Some(o), r, AskingFees, Some(o),
                  r.(offer := Some(r.offer.value.(payload := o.payload))))
  {
    hide PublishRun, ReviseRun, WithdrawRun, ReconcileRun, EndRun;
  }

  lemma CreationWalks(s: State, k: RunKey, o: Offer, r: Remote)
    requires k.job in s.jobs && s.jobs[k.job].action.Prepare? && o.remoteId.None? && r.offer.None?
    ensures Walks(s, k, Claimed, Some(o), r, Finding(o.payload), Some(o), r)
    ensures Walks(s, k, Finding(o.payload), Some(o), r, Creating(o.payload), Some(o), r)
    ensures Walks(s, k, Creating(o.payload), Some(o), r, Recording(r.nextId), Some(o), CreateRemote(r, o.payload))
  {
    hide PublishRun, ReviseRun, WithdrawRun, ReconcileRun, EndRun, CreateRemote;
  }

  lemma AdoptionWalks(s: State, k: RunKey, o: Offer, r: Remote)
    requires k.job in s.jobs && s.jobs[k.job].action.Prepare? && o.remoteId.None? && r.offer.Some? && !r.offer.value.published
    ensures Walks(s, k, Claimed, Some(o), r, Finding(o.payload), Some(o), r)
    ensures Walks(s, k, Finding(o.payload), Some(o), r, Recording(r.offer.value.id), Some(o), r)
  {
    hide PublishRun, ReviseRun, WithdrawRun, ReconcileRun, EndRun;
  }

  lemma FeesWalk(s: State, k: RunKey, o: Offer, r: Remote, id: int)
    requires k.job in s.jobs
    ensures Walks(s, k, Recording(id), Some(o), r, AskingFees, Some(o.(remoteId := Some(id))), r)
    ensures Walks(s, k, AskingFees, Some(o), r, StoringFees, Some(o), r)
    ensures Walks(s, k, StoringFees, Some(o), r, Finishing, Some(o.(status := FeesReady, feesStored := true)), r)
  {
    hide PublishRun, ReviseRun, WithdrawRun, ReconcileRun, EndRun;
  }

  lemma FeesFollow(s: State, k: RunKey, o: Offer, r: Remote) returns (t: State)
    requires Startable(s, k) && k !in s.runs && Gets(Start(s, k), k, Where(s, k, AskingFees, Some(o), r))
    ensures Gets(Start(s, k), k, t) && Completes(s, t, k) && t.remote == r
    ensures t.offer == Some(o.(status := FeesReady, feesStored := true))
  {
    hide Gets, Start, Apply, Walks, Where, MayClaim, Completes;
    var start, stored := Start(s, k), o.(status := FeesReady, feesStored := true);
    FeesWalk(s, k, o, r, 0);
    Walked(start, s, k, AskingFees, Some(o), r, StoringFees, Some(o), r);
    Walked(start, s, k, StoringFees, Some(o), r, Finishing, Some(stored), r);
    t := Ended(s, k, stored, r);
  }

  lemma Recorded(s: State, k: RunKey, o: Offer, r: Remote, id: int) returns (t: State)
    requires Startable(s, k) && k !in s.runs && Gets(Start(s, k), k, Where(s, k, Recording(id), Some(o), r))
    ensures Gets(Start(s, k), k, t) && Completes(s, t, k) && t.remote == r
    ensures t.offer == Some(o.(remoteId := Some(id), status := FeesReady, feesStored := true))
  {
    hide Gets, Start, Apply, Walks, Where, MayClaim, Completes;
    FeesWalk(s, k, o, r, id);
    Walked(Start(s, k), s, k, Recording(id), Some(o), r, AskingFees, Some(o.(remoteId := Some(id))), r);
    t := FeesFollow(s, k, o.(remoteId := Some(id)), r);
  }

  /**
   * A preparation leaves the offer FEES_READY under eBay's identifier.  An offer that eBay has under that identifier gets
   * the payload; one that it has for the SKU, but not published, is taken over as it is; otherwise one is created.
   */
  lemma PreparationSucceeds(s: State, k: RunKey) returns (t: State)
    requires Startable(s, k) && s.jobs[k.job].action.Prepare? && s.offer.Some?
    requires s.offer.value.remoteId.Some? ==> s.remote.offer.Some? && s.remote.offer.value.id == s.offer.value.remoteId.value
    requires s.offer.value.remoteId.None? && s.remote.offer.Some? ==> !s.remote.offer.value.published
    ensures Gets(Start(s, k), k, t) && Completes(s, t, k) && t.remote.offer.Some?
    ensures t.offer == Some(s.offer.value.(remoteId := Some(t.remote.offer.value.id), status := FeesReady, feesStored := true))
    ensures s.offer.value.remoteId.Some? ==> t.remote == s.remote.(offer := Some(s.remote.offer.value.(payload := s.offer.value.payload)))
    ensures s.offer.value.remoteId.None? && s.remote.offer.Some? ==> t.remote == s.remote
    ensures s.remote.offer.None? ==>
              && t.remote.offer.value.payload == s.offer.value.payload && t.remote.offer.value.listing.None? && !t.remote.offer.value.live
              && t.remote.creations == s.remote.creations + 1 && t.remote.extraCreates == s.remote.extraCreates
  {
    hide Gets, Start, Apply, Walks, Where, MayClaim, Completes;
    var start, o, r := Start(s, k), s.offer.value, s.remote;
    Begins(s, k);
    if o.remoteId.Some? {
      var updated := r.(offer := Some(r.offer.value.(payload := o.payload)));
      UpdateWalks(s, k, o, r);
      Walked(start, s, k, Claimed, Some(o), r, UpdatingPrepared(o.payload, o.remoteId.value), Some(o), r);
      Walked(start, s, k, UpdatingPrepared(o.payload, o.remoteId.value), Some(o), r, AskingFees, Some(o), updated);
      t := FeesFollow(s, k, o, updated);
    } else if r.offer.Some? {
      AdoptionWalks(s, k, o, r);
      Walked(start, s, k, Claimed, Some(o), r, Finding(o.payload), Some(o), r);
      Walked(start, s, k, Finding(o.payload), Some(o), r, Recording(r.offer.value.id), Some(o), r);
      t := Recorded(s, k, o, r, r.offer.value.id);
    } else {
      CreationWalks(s, k, o, r);
      Walked(start, s, k, Claimed, Some(o), r, Finding(o.payload), Some(o), r);
      Walked(start, s, k, Finding(o.payload), Some(o), r, Creating(o.payload), Some(o), r);
      Walked(start, s, k, Creating(o.payload), Some(o), r, Recording(r.nextId), Some(o), CreateRemote(r, o.payload));
      t := Recorded(s, k, o, CreateRemote(r, o.payload), r.nextId);
    }
  }

  // ----- when something fails

  /** The offer after a failed job of the given action. */
  predicate Restored(before: Offer, after: Offer, action: Action) {
    && after == before.(status := after.status)
    && match action
       case Prepare => after.status == OfferFailed
       case Publish => after.status == FeesReady
       case Revise => after.status == Published
       case Withdraw => after.status == (if before.drifted then Drifted else Published)
       case Reconcile => after.status == before.status
  }

  /**
   * A runner that has to give up leaves the offer to be tried again or looked at, whether or not it still holds the lease;
   * it fails the job exactly if it does.  If it cannot find the job, it fails that alone.
   */
  lemma FailureIsCleanedUp(s: State, k: RunKey, reply: Reply)
    requires Runs.Unblocked(s) && k in s.runs && s.runs[k].Aborting? && k.job in s.jobs && s.offer.Some?
    ensures var t := Apply(Apply(s, Advance(k.worker, k.job, reply)), Advance(k.worker, k.job, Good));
            var holds := s.jobs[k.job].status == JobStatus.Running && s.jobs[k.job].owner == Some(k.worker);
            && t == s.(offer := t.offer, jobs := t.jobs, blind := t.blind, runs := t.runs) && t.runs == s.runs - {k}
            && t.jobs == (if holds then s.jobs[k.job := s.jobs[k.job].(status := JobStatus.Failed, owner := None)] else s.jobs)
            && (reply.Good? ==> t.offer.Some? && Restored(s.offer.value, t.offer.value, s.jobs[k.job].action) && t.blind == s.blind)
            && (!reply.Good? ==> t.offer == s.offer && t.blind == (if holds then s.blind + {k.job} else s.blind))
  {
    hide Apply, PrepareRun, PublishRun, ReviseRun, WithdrawRun, ReconcileRun, Load;
    var pc := CleaningUp(reply.Good?, s.offer.value.drifted);
    AdvanceRuns(s, k, reply);
    var s1 := Goto(s, k, pc);
    assert Run(s, k, reply) == s1;
    AdvanceRuns(s1, k, Good);
    assert s1.runs - {k} == s.runs - {k};
  }

  /**
   * PUBLISHED is not absorbing: if the answer to a job's completion is lost, or the completion fails, after everything else
   * is done, the error handler still puts the offer back, under a job that is COMPLETED in the first case and FAILED in the
   * second.
   */
  lemma LostCompletionPutsBack(s: State, k: RunKey, reply: Reply)
    requires Runs.Unblocked(s) && k in s.runs && s.runs[k].Finishing? && Holds(s, k) && s.offer.Some? && !reply.Good?
    ensures var s1 := Apply(s, Advance(k.worker, k.job, reply));
            var t := Apply(Apply(s1, Advance(k.worker, k.job, Good)), Advance(k.worker, k.job, Good));
            && t == s.(offer := t.offer, jobs := t.jobs, runs := s.runs - {k})
            && t.offer.Some? && Restored(s.offer.value, t.offer.value, s.jobs[k.job].action)
            && t.jobs == s.jobs[k.job := s.jobs[k.job].(
                 status := if reply.EffectThenError? then JobStatus.Completed else JobStatus.Failed, owner := None)]
  {
    hide Apply, PrepareRun, PublishRun, ReviseRun, WithdrawRun, ReconcileRun, Load, CleanUp, Restored;
    AdvanceRuns(s, k, reply);
    var s1 := Run(s, k, reply);
    assert s1 == Goto(if reply.EffectThenError? then Release(s, k, Completed) else s, k, Aborting);
    FailureIsCleanedUp(s1, k, Good);
    assert s1.runs - {k} == s.runs - {k};
  }

  lemma AdvanceRuns(s: State, k: RunKey, reply: Reply)
    requires Runs.Unblocked(s) && k in s.runs
    ensures Apply(s, Advance(k.worker, k.job, reply)) == Run(s, k, reply)
  {
    hide Run, SyncStep, RequestStep, RemoteStep, Drafts.Apply;
  }

  /** A runner changes no job row but its own, and that only while the row is RUNNING under its lease, to end it. */
  lemma JobRowsAreFenced(s: State, k: RunKey, reply: Reply)
    requires k in s.runs
    ensures var t := Run(s, k, reply);
            t.jobs != s.jobs ==>
              && k.job in s.jobs && s.jobs[k.job].status == JobStatus.Running && s.jobs[k.job].owner == Some(k.worker)
              && (t.jobs == s.jobs[k.job := s.jobs[k.job].(status := JobStatus.Completed, owner := None)]
                  || t.jobs == s.jobs[k.job := s.jobs[k.job].(status := JobStatus.Failed, owner := None)])
  {
    hide PrepareRun, PublishRun, ReviseRun, WithdrawRun, ReconcileRun, Load;
  }

  // ----- inventory sync

  /** What may become of the sync of a version, and when. */
  predicate SyncMoves(s: State, v: nat, step: Step, after: SyncStatus) {
    var row := s.draft.row;
    var current := s.draft.version == v && row.ready && row.live;
    match step
    case QueueSync(w) => v == w && v in s.prepared && (v in s.syncs ==> s.syncs[v] == SyncFailed) && after == SyncQueued
    case ClaimSync(w) => v == w && v in s.syncs && s.syncs[v] == SyncQueued && after == SyncRunning(false)
    case CheckSync(w) => v == w && v in s.syncs && s.syncs[v].SyncRunning? && after == if current then SyncRunning(true) else SyncFailed
    case FinishSync(w, ok) =>
      v == w && v in s.syncs && (if ok then s.syncs[v] == SyncRunning(true) && after == SyncCompleted
                                 else s.syncs[v].SyncRunning? && after == SyncFailed)
    case ReclaimSync(w) => v == w && v in s.syncs && s.syncs[v].SyncRunning? && after == SyncQueued
    case _ => false
  }

  /** A sync is completed only after a check that its version is current and live; no other step touches it. */
  lemma SyncMovesExactly(s: State, step: Step, v: nat)
    requires Runs.Unblocked(s)
    ensures var t := Apply(s, step);
            && (v in s.syncs ==> v in t.syncs)
            && (v in t.syncs && (v !in s.syncs || s.syncs[v] != t.syncs[v]) ==> SyncMoves(s, v, step, t.syncs[v]))
            && forall after :: SyncMoves(s, v, step, after) ==> v in t.syncs && t.syncs[v] == after
  {
    hide Apply, DraftIsLive;
    SyncsChangeBySteps(s, step);
    LiveIs(s);
    if !SyncsOnly(step) {
      assert SyncStep(s, step).syncs == s.syncs;
    }
  }

  predicate SyncsOnly(step: Step) {
    step.StorePreparation? || step.QueueSync? || step.ClaimSync? || step.CheckSync? || step.FinishSync? || step.ReclaimSync?
  }

  lemma SyncsChangeBySteps(s: State, step: Step)
    requires Runs.Unblocked(s)
    ensures Apply(s, step).syncs == if SyncsOnly(step) then SyncStep(s, step).syncs else s.syncs
  {
    hide RequestStep, RunnerStep, RemoteStep, SyncStep, Drafts.Apply;
  }

  lemma LiveIs(s: State)
    ensures DraftIsLive(s) <==> s.draft.row.ready && s.draft.row.live
  {
  }
}
