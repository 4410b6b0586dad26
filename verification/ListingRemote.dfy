/**
 * Remote effects at most once: with one live runner per offer, over any sequence of crashes, lost replies, reclaimed
 * leases and reruns, no create is sent while eBay has an offer for the SKU, no publish is sent while the offer shows a
 * listing, and the local offer records eBay's identifiers.  What eBay's counts and the local remote ID are holds however
 * many runners there are.
 */
module ListingRemote {
  import opened Wrappers
  import opened ListingProtocol
  import Drafts

  function RemoteId(offer: Option<Offer>): Option<int> {
    if offer.Some? then offer.value.remoteId else None
  }

  function ListingId(offer: Option<Offer>): Option<int> {
    if offer.Some? then offer.value.listingId else None
  }

  predicate Listed(r: Remote) {
    r.offer.Some? && (r.offer.value.published || r.offer.value.listing.Some? || r.offer.value.live)
  }

  /** eBay's side has seen each effect once, and shows the listing it created last. */
  predicate RemoteFits(r: Remote) {
    && r.extraCreates == 0 && r.extraPublishes == 0
    && r.creations == (if r.offer.Some? then 1 else 0)
    && r.publications == r.endings + (if r.offer.Some? && r.offer.value.live then 1 else 0)
    && (r.offer.Some? ==>
          && (r.offer.value.live ==> r.offer.value.published)
          && (r.offer.value.published ==> r.offer.value.listing.Some?)
          && (r.offer.value.listing.Some? ==> r.offer.value.listing == r.lastListing))
  }

  /** The local offer knows its remote one, and always does once anything was published. */
  predicate OfferFits(offer: Option<Offer>, r: Remote) {
    && (RemoteId(offer).Some? ==> r.offer.Some? && r.offer.value.id == RemoteId(offer).value)
    && (Listed(r) ==> RemoteId(offer).Some?)
  }

  /** What a lone runner knows about eBay from where it is. */
  predicate RunFits(offer: Option<Offer>, r: Remote, pc: Pc) {
    match pc
    case Finding(_) => RemoteId(offer).None?
    case Creating(_) => RemoteId(offer).None? && r.offer.None?
    case FindingAgain => RemoteId(offer).None?
    case Recording(id) => r.offer.Some? && r.offer.value.id == id
    case CheckingListing(_) => RemoteId(offer).Some?
    case Publishing(_) => RemoteId(offer).Some? && r.offer.Some? && r.offer.value.listing.None?
    case CheckingAgain(_) => RemoteId(offer).Some?
    case StoringListing(listing) => r.lastListing == Some(listing)
    case ReadingRemote(_, known) => known == ListingId(offer)
    case StoringReconciliation(_, shown, _) => shown == ListingId(offer) || shown == r.lastListing
    case _ => true
  }

  ghost predicate Inv(s: State) {
    && s.config.overlap.OneRunnerPerOffer?
    && (forall k, l :: k in s.runs && l in s.runs ==> k == l)
    && RemoteFits(s.remote)
    && OfferFits(s.offer, s.remote)
    && (forall k :: k in s.runs ==> RunFits(s.offer, s.remote, s.runs[k]))
  }

  /** The recorded listing changes only to the one eBay created last. */
  predicate Records(s: State, t: State) {
    ListingId(t.offer) == ListingId(s.offer) || ListingId(t.offer) == t.remote.lastListing
  }

  /** One good step: the invariant is kept, and a newly recorded listing is eBay's. */
  ghost predicate Fine(s: State, t: State) {
    Inv(t) && Records(s, t)
  }

  // ----- pieces of steps

  lemma Parts(s: State, k: RunKey)
    requires Inv(s) && k in s.runs
    ensures RunFits(s.offer, s.remote, s.runs[k]) && OfferFits(s.offer, s.remote) && RemoteFits(s.remote)
  {
    hide RunFits, OfferFits, RemoteFits;
  }

  /** A lone runner that changes the offer, eBay's side and its own place needs only its own facts. */
  lemma RunKeeps(s: State, k: RunKey, offer: Option<Offer>, r: Remote, pc: Pc)
    requires Inv(s) && k in s.runs
    requires RemoteFits(r) && OfferFits(offer, r) && RunFits(offer, r, pc)
    requires ListingId(offer) == ListingId(s.offer) || ListingId(offer) == r.lastListing
    ensures var t := s.(offer := offer, remote := r); Fine(s, Goto(t, k, pc)) && Fine(s, RemoveRun(t, k))
  {
    hide RemoteFits, OfferFits, RunFits, ListingId;
  }

  lemma GotoKeeps(s: State, k: RunKey, pc: Pc)
    requires Inv(s) && k in s.runs && RunFits(s.offer, s.remote, pc)
    ensures Fine(s, Goto(s, k, pc)) && Fine(s, RemoveRun(s, k))
  {
    hide Inv, Fine, RunFits, OfferFits, RemoteFits;
    Parts(s, k);
    RunKeeps(s, k, s.offer, s.remote, pc);
  }

  /** A database write by a lone runner: acknowledged, lost, or not made. */
  lemma WriteKeeps(s: State, offer: Offer, k: RunKey, reply: Reply, pc: Pc)
    requires Inv(s) && k in s.runs && OfferFits(Some(offer), s.remote) && RunFits(Some(offer), s.remote, pc)
    requires offer.listingId == ListingId(s.offer) || offer.listingId == s.remote.lastListing
    ensures Fine(s, AfterWrite(s, WithOffer(s, offer), k, reply, pc))
  {
    hide Inv, Fine, OfferFits, RemoteFits;
    Parts(s, k);
    RunKeeps(s, k, Some(offer), s.remote, pc);
    RunKeeps(s, k, Some(offer), s.remote, Aborting);
    GotoKeeps(s, k, Aborting);
  }

  lemma UpdateKeeps(s: State, payload: Payload, k: RunKey, reply: Reply, pc: Pc)
    requires Inv(s) && k in s.runs && s.remote.offer.Some?
    requires pc.AskingFees? || pc.ReadingBack?
    ensures Fine(s, AfterWrite(s, WithRemoteOffer(s, s.remote.offer.value.(payload := payload)), k, reply, pc))
  {
    hide Inv, Fine;
    Parts(s, k);
    var r := s.remote.(offer := Some(s.remote.offer.value.(payload := payload)));
    RunKeeps(s, k, s.offer, r, pc);
    RunKeeps(s, k, s.offer, r, Aborting);
    GotoKeeps(s, k, Aborting);
  }

  // ----- runners

  lemma PrepareRunKeeps(s: State, k: RunKey, pc: Pc, reply: Reply)
    requires Inv(s) && k in s.runs && pc == s.runs[k]
    ensures Fine(s, PrepareRun(s, k, pc, reply))
  {
    hide Inv, Fine, WithOffer, WithRemoteOffer, Goto, AfterWrite;
    Parts(s, k);
    GotoKeeps(s, k, Aborting);
    match pc
    case UpdatingPrepared(payload, _) =>
      if s.remote.offer.Some? {
        UpdateKeeps(s, payload, k, reply, AskingFees);
      }
    case Finding(payload) =>
      if FindBySku(s.remote).Some? {
        GotoKeeps(s, k, Recording(FindBySku(s.remote).value));
      } else {
        GotoKeeps(s, k, Creating(payload));
      }
    case Creating(payload) =>
      GotoKeeps(s, k, FindingAgain);
      var r := CreateRemote(s.remote, payload);
      RunKeeps(s, k, s.offer, r, FindingAgain);
      RunKeeps(s, k, s.offer, r, Recording(s.remote.nextId));
    case FindingAgain =>
      if FindBySku(s.remote).Some? {
        GotoKeeps(s, k, Recording(FindBySku(s.remote).value));
      }
    case Recording(id) =>
      if s.offer.Some? {
        WriteKeeps(s, s.offer.value.(remoteId := Some(id)), k, reply, AskingFees);
      }
    case AskingFees => GotoKeeps(s, k, StoringFees);
    case StoringFees =>
      if s.offer.Some? {
        WriteKeeps(s, s.offer.value.(status := FeesReady, feesStored := true), k, reply, Finishing);
      }
    case _ => StaysFine(s);
  }

  lemma StaysFine(s: State)
    requires Inv(s)
    ensures Fine(s, s)
  {
    hide Inv;
  }

  lemma PublishRunKeeps(s: State, k: RunKey, pc: Pc, reply: Reply)
    requires Inv(s) && k in s.runs && pc == s.runs[k]
    ensures Fine(s, PublishRun(s, k, pc, reply))
  {
    hide Inv, Fine, WithOffer, Goto, AfterWrite;
    Parts(s, k);
    GotoKeeps(s, k, Aborting);
    match pc
    case CheckingListing(id) =>
      if s.remote.offer.Some? {
        if s.remote.offer.value.listing.Some? {
          GotoKeeps(s, k, StoringListing(s.remote.offer.value.listing.value));
        } else {
          GotoKeeps(s, k, Publishing(id));
        }
      }
    case Publishing(id) =>
      GotoKeeps(s, k, CheckingAgain(id));
      var r := PublishRemote(s.remote);
      RunKeeps(s, k, s.offer, r, CheckingAgain(id));
      RunKeeps(s, k, s.offer, r, StoringListing(s.remote.nextId));
    case CheckingAgain(id) =>
      if s.remote.offer.Some? && s.remote.offer.value.listing.Some? {
        GotoKeeps(s, k, StoringListing(s.remote.offer.value.listing.value));
      }
    case StoringListing(listing) =>
      if s.offer.Some? {
        WriteKeeps(s, s.offer.value.(status := Published, listingId := Some(listing), publishedBefore := true), k, reply, Finishing);
      }
    case _ => StaysFine(s);
  }

  lemma ReviseRunKeeps(s: State, k: RunKey, pc: Pc, reply: Reply)
    requires Inv(s) && k in s.runs && pc == s.runs[k]
    ensures Fine(s, ReviseRun(s, k, pc, reply))
  {
    hide Inv, Fine, WithOffer, WithRemoteOffer, Goto, AfterWrite, OfferDrift;
    Parts(s, k);
    GotoKeeps(s, k, Aborting);
    match pc
    case CheckingLive(v, payload) => GotoKeeps(s, k, Updating(v, payload));
    case Updating(v, payload) =>
      if s.remote.offer.Some? {
        UpdateKeeps(s, payload, k, reply, ReadingBack(v, payload));
      }
    case ReadingBack(v, payload) =>
      if s.remote.offer.Some? {
        GotoKeeps(s, k, StoringRevision(v, payload, OfferDrift(payload, s.remote.offer.value.payload) != []));
      }
    case StoringRevision(v, payload, drifted) =>
      if s.offer.Some? {
        WriteKeeps(s, s.offer.value.(version := v, payload := payload, drifted := drifted,
                                     status := if drifted then Drifted else Published), k, reply, Finishing);
      }
    case _ => StaysFine(s);
  }

  lemma WithdrawRunKeeps(s: State, k: RunKey, pc: Pc, reply: Reply)
    requires Inv(s) && k in s.runs && pc == s.runs[k]
    ensures Fine(s, WithdrawRun(s, k, pc, reply))
  {
    hide Inv, Fine, WithOffer, Goto, AfterWrite;
    Parts(s, k);
    GotoKeeps(s, k, Aborting);
    GotoKeeps(s, k, Withdrawing);
    GotoKeeps(s, k, CheckingWithdrawn);
    GotoKeeps(s, k, ReadingFinal);
    GotoKeeps(s, k, StoringWithdrawal);
    if pc.Withdrawing? {
      var r := EndRemote(s.remote, false);
      RunKeeps(s, k, s.offer, r, ReadingFinal);
      RunKeeps(s, k, s.offer, r, CheckingWithdrawn);
    } else if pc.StoringWithdrawal? && s.offer.Some? {
      WriteKeeps(s, s.offer.value.(status := Withdrawn, drifted := false), k, reply, Finishing);
    } else {
      StaysFine(s);
    }
  }

  lemma ReconcileRunKeeps(s: State, k: RunKey, pc: Pc, reply: Reply)
    requires Inv(s) && k in s.runs && pc == s.runs[k]
    ensures Fine(s, ReconcileRun(s, k, pc, reply))
  {
    hide Inv, Fine, WithOffer, Goto, AfterWrite, OfferDrift;
    Parts(s, k);
    GotoKeeps(s, k, Aborting);
    match pc
    case ReadingRemote(payload, known) =>
      if s.remote.offer.Some? {
        var r := s.remote.offer.value;
        var drifted := OfferDrift(payload, r.payload) != [];
        GotoKeeps(s, k, StoringReconciliation(ResolvedStatus(r.live, drifted), if r.listing.Some? then r.listing else known, drifted));
      }
    case StoringReconciliation(status, shown, drifted) =>
      if s.offer.Some? {
        WriteKeeps(s, s.offer.value.(status := status, listingId := shown, drifted := drifted), k, reply, Finishing);
      }
    case _ => StaysFine(s);
  }

  /** Job rows and the records about them play no part. */
  lemma JobsKeep(s: State, jobs: map<JobRef, Job>, blind: set<JobRef>)
    requires Inv(s)
    ensures Fine(s, s.(jobs := jobs, blind := blind))
  {
    hide RunFits, OfferFits, RemoteFits;
  }

  lemma FineTwice(s: State, t: State, u: State)
    requires Fine(s, t) && Fine(t, u) && t.remote.lastListing == u.remote.lastListing
    ensures Fine(s, u)
  {
    hide Inv;
  }

  lemma CleanUpKeeps(s: State, k: RunKey, found: bool, drifts: bool)
    requires Inv(s) && k in s.runs
    ensures Fine(s, RemoveRun(CleanUp(s, k, found, drifts), k))
  {
    hide Inv, RemoveRun, RunFits, OfferFits, RemoteFits;
    Parts(s, k);
    var t := CleanUp(s, k, found, drifts);
    JobsKeep(s, t.jobs, t.blind);
    var u := s.(jobs := t.jobs, blind := t.blind);
    CleanUpFrame(s, k, found, drifts);
    AbortingFits(s.offer, t.offer, u.remote);
    RunKeeps(u, k, t.offer, u.remote, Aborting);
    FineTwice(s, u, RemoveRun(t, k)) by {
      assert RemoveRun(t, k).remote == t.remote by { RemoveFrame(t, k); }
    }
  }

  lemma AbortingFits(before: Option<Offer>, after: Option<Offer>, r: Remote)
    requires RemoteId(before) == RemoteId(after) && OfferFits(before, r)
    ensures OfferFits(after, r) && RunFits(after, r, Aborting)
  {
  }

  lemma RemoveFrame(s: State, k: RunKey)
    ensures RemoveRun(s, k).remote == s.remote
  {
  }

  /** The error handler changes only the offer's status. */
  lemma CleanUpFrame(s: State, k: RunKey, found: bool, drifts: bool)
    ensures var t := CleanUp(s, k, found, drifts);
            && t == s.(jobs := t.jobs, blind := t.blind, offer := t.offer)
            && RemoteId(t.offer) == RemoteId(s.offer) && ListingId(t.offer) == ListingId(s.offer)
  {
  }

  lemma EndRunKeeps(s: State, k: RunKey, pc: Pc, reply: Reply)
    requires Inv(s) && k in s.runs && pc == s.runs[k]
    ensures Fine(s, EndRun(s, k, pc, reply))
  {
    hide Inv, CleanUp, Goto, RemoveRun;
    StaysFine(s);
    GotoKeeps(s, k, Aborting);
    if pc.Finishing? {
      var t := Release(s, k, Completed);
      JobsKeep(s, t.jobs, s.blind);
      ReleaseFrame(s, k, Completed);
      GotoKeeps(t, k, Aborting);
    } else if pc.Aborting? {
      GotoKeeps(s, k, CleaningUp(reply.Good?, s.offer.Some? && s.offer.value.drifted));
    } else if pc.CleaningUp? {
      CleanUpKeeps(s, k, pc.found, pc.drifts);
    }
  }

  lemma ReleaseFrame(s: State, k: RunKey, status: JobStatus)
    ensures var t := Release(s, k, status); t == s.(jobs := t.jobs)
  {
  }

  lemma LoadKeeps(s: State, k: RunKey)
    requires Inv(s) && k in s.runs && k.job in s.jobs
    ensures Fine(s, Goto(s, k, Load(s, s.jobs[k.job])))
  {
    hide Inv, Fine, DraftIsLive, SyncedAt;
    GotoKeeps(s, k, Load(s, s.jobs[k.job]));
  }

  lemma LoneRunKeeps(s: State, k: RunKey, reply: Reply)
    requires Inv(s) && k in s.runs
    ensures Fine(s, Run(s, k, reply))
  {
    hide Inv, Fine, Goto, PrepareRun, PublishRun, ReviseRun, WithdrawRun, ReconcileRun, EndRun, Load;
    var pc := s.runs[k];
    GotoKeeps(s, k, Aborting);
    if k.job in s.jobs {
      LoadKeeps(s, k);
    }
    PrepareRunKeeps(s, k, pc, reply);
    PublishRunKeeps(s, k, pc, reply);
    ReviseRunKeeps(s, k, pc, reply);
    WithdrawRunKeeps(s, k, pc, reply);
    ReconcileRunKeeps(s, k, pc, reply);
    EndRunKeeps(s, k, pc, reply);
  }

  lemma NewRunKeeps(s: State, k: RunKey, pc: Pc)
    requires Inv(s) && MayClaim(s, k.worker, k.job) && (pc.Claimed? || pc.Aborting?)
    ensures Fine(s, Goto(s, k, pc))
  {
    hide OfferFits, RemoteFits;
  }

  lemma CrashKeeps(s: State, k: RunKey)
    requires Inv(s)
    ensures Fine(s, RemoveRun(s, k))
  {
    hide OfferFits, RemoteFits, RunFits;
  }

  lemma RunnerStepKeeps(s: State, step: Step)
    requires Inv(s)
    ensures Fine(s, RunnerStep(s, step))
  {
    hide Inv, Run, MayClaim, RemoveRun, Goto;
    StaysFine(s);
    match step
    case Claim(w, j) =>
      if j in s.jobs && s.jobs[j].status.Queued? && MayClaim(s, w, j) {
        var t := s.(jobs := s.jobs[j := s.jobs[j].(status := Running, owner := Some(w))]);
        JobsKeep(s, t.jobs, s.blind);
        SameClaims(s, t, w, j);
        NewRunKeeps(t, RunKey(w, j), Claimed);
      }
    case ClaimLost(w, j) =>
      if j in s.jobs && MayClaim(s, w, j) {
        NewRunKeeps(s, RunKey(w, j), Aborting);
      }
    case Advance(w, j, reply) =>
      if RunKey(w, j) in s.runs {
        LoneRunKeeps(s, RunKey(w, j), reply);
      }
    case Crash(w, j) => CrashKeeps(s, RunKey(w, j));
    case Reclaim(j) =>
      if j in s.jobs {
        JobsKeep(s, s.jobs[j := s.jobs[j].(status := Queued, owner := None)], s.blind);
      }
    case RetryReconciliation(j) =>
      if j in s.jobs {
        JobsKeep(s, s.jobs[j := s.jobs[j].(status := Queued, owner := None)], s.blind);
      }
    case _ =>
  }

  lemma SameClaims(s: State, t: State, worker: nat, j: JobRef)
    requires s.config == t.config && s.runs == t.runs
    ensures MayClaim(s, worker, j) == MayClaim(t, worker, j)
  {
  }

  // ----- everything else

  /** Requests, drafts, approvals and syncs leave eBay, the runners and both identifiers alone. */
  lemma ElsewhereKeeps(s: State, t: State)
    requires Inv(s) && t.config == s.config && t.runs == s.runs && t.remote == s.remote
    requires RemoteId(t.offer) == RemoteId(s.offer) && ListingId(t.offer) == ListingId(s.offer)
    ensures Fine(s, t)
  {
    hide RemoteFits, RemoteId, ListingId;
  }

  lemma RequestKeepsIds(s: State, step: Step)
    ensures var t := RequestStep(s, step); RemoteId(t.offer) == RemoteId(s.offer) && ListingId(t.offer) == ListingId(s.offer)
  {
    hide MayPrepare, MayPublish, MayRevise, MayWithdraw, MayReconcile, BuildOfferPayload;
  }

  /** A listing that ends or is forgotten on eBay's side. */
  lemma RemoteStepKeeps(s: State, step: Step)
    requires Inv(s)
    ensures Fine(s, RemoteStep(s, step))
  {
    hide Inv;
    StaysFine(s);
    if s.remote.offer.Some? {
      var o := s.remote.offer.value;
      if step.ListingEnds? {
        RemoteMoveKeeps(s, EndRemote(s.remote, o.published));
      } else if step.ListingForgotten? && !o.live {
        RemoteMoveKeeps(s, s.remote.(offer := Some(o.(listing := None, published := false))));
      }
    }
  }

  predicate Fades(r: Remote, t: Remote) {
    && r.offer.Some? && t.offer.Some? && t.offer.value.id == r.offer.value.id && t.lastListing == r.lastListing
    && (RemoteFits(r) ==> RemoteFits(t))
    && (Listed(t) ==> Listed(r))
    && (r.offer.value.listing.None? ==> t.offer.value.listing.None?)
  }

  lemma RemoteMoveKeeps(s: State, r: Remote)
    requires Inv(s) && Fades(s.remote, r)
    ensures Fine(s, s.(remote := r))
  {
    hide RemoteFits, Listed;
  }

  lemma StepKeepsInv(s: State, step: Step)
    requires Inv(s)
    ensures Fine(s, Apply(s, step))
  {
    hide Inv, SyncStep, RequestStep, RunnerStep, RemoteStep, Drafts.Apply, Blocked, Fine, RemoteId, ListingId;
    StaysFine(s);
    if step.DraftStep? {
      ElsewhereKeeps(s, s.(draft := Drafts.Apply(s.draft, step.step)));
    } else if step.Decide? {
      ElsewhereKeeps(s, s.(approval := step.approval));
    } else {
      ElsewhereKeeps(s, SyncStep(s, step));
      RequestKeepsIds(s, step);
      ElsewhereKeeps(s, RequestStep(s, step));
      RunnerStepKeeps(s, step);
      RemoteStepKeeps(s, step);
    }
  }

  lemma {:induction false} ExecKeepsInv(s: State, steps: seq<Step>)
    requires Inv(s)
    ensures Inv(Exec(s, steps))
    decreases |steps|
  {
    hide Inv, Apply;
    if steps != [] {
      StepKeepsInv(s, steps[0]);
      ExecKeepsInv(Apply(s, steps[0]), steps[1..]);
    }
  }

  lemma InitHolds(config: Config, content: Drafts.Content, ready: bool)
    requires config.overlap.OneRunnerPerOffer?
    ensures Inv(Init(config, content, ready))
  {
  }

  /**
   * With one live runner per offer, after every run: no create was sent while eBay had an offer and no publish while the
   * offer showed a listing; eBay made one offer at most, a listing is published again only after the previous one ended,
   * the local remote ID is eBay's, and the next step can record only the listing that eBay created last.
   */
  lemma RemoteEffectsHappenOnce(config: Config, content: Drafts.Content, ready: bool, steps: seq<Step>, next: Step)
    requires config.overlap.OneRunnerPerOffer?
    ensures var s := Exec(Init(config, content, ready), steps);
            && s.remote.extraCreates == 0 && s.remote.extraPublishes == 0
            && s.remote.creations <= 1
            && s.remote.publications == s.remote.endings + (if s.remote.offer.Some? && s.remote.offer.value.live then 1 else 0)
            && (RemoteId(s.offer).Some? ==> s.remote.offer.Some? && s.remote.offer.value.id == RemoteId(s.offer).value)
            && Records(s, Apply(s, next))
  {
    hide Exec, Apply;
    InitHolds(config, content, ready);
    ExecKeepsInv(Init(config, content, ready), steps);
    StepKeepsInv(Exec(Init(config, content, ready), steps), next);
  }

  // ----- what holds however many runners there are

  predicate Counts(r: Remote) {
    && r.creations == (if r.offer.Some? then 1 else 0)
    && r.publications == r.endings + (if r.offer.Some? && r.offer.value.live then 1 else 0)
    && (r.offer.Some? && r.offer.value.live ==> r.offer.value.listing.Some?)
  }

  predicate Knows(r: Remote, id: Option<int>) {
    id.Some? ==> r.offer.Some? && r.offer.value.id == id.value
  }

  function Finds(pc: Pc): Option<int> {
    if pc.Recording? then Some(pc.id) else None
  }

  ghost predicate Consistent(s: State) {
    Counts(s.remote) && Knows(s.remote, RemoteId(s.offer)) && forall k :: k in s.runs ==> Knows(s.remote, Finds(s.runs[k]))
  }

  /** eBay's counts stay right, and it keeps the offer that it has. */
  predicate Lasts(r: Remote, t: Remote) {
    (Counts(r) ==> Counts(t)) && (r.offer.Some? ==> t.offer.Some? && t.offer.value.id == r.offer.value.id)
  }

  /** A runner may go anywhere, but to recording an offer only if it is eBay's. */
  lemma GotoIsConsistent(s: State, k: RunKey)
    requires Consistent(s)
    ensures forall pc: Pc :: Knows(s.remote, Finds(pc)) ==> Consistent(Goto(s, k, pc))
    ensures Consistent(RemoveRun(s, k))
  {
    hide Counts, Knows, Finds;
  }

  lemma OfferIsConsistent(s: State, offer: Offer)
    requires Consistent(s) && Knows(s.remote, offer.remoteId)
    ensures Consistent(WithOffer(s, offer))
  {
    hide Counts, Knows, Finds;
  }

  lemma RemoteIsConsistent(s: State, r: Remote)
    requires Consistent(s) && Lasts(s.remote, r)
    ensures Consistent(s.(remote := r))
  {
    hide Counts;
  }

  lemma RemoteMovesLast(r: Remote)
    ensures forall payload :: Lasts(r, CreateRemote(r, payload))
    ensures Lasts(r, PublishRemote(r))
    ensures forall published :: Lasts(r, EndRemote(r, published))
    ensures r.offer.Some? ==> forall payload :: Lasts(r, r.(offer := Some(r.offer.value.(payload := payload))))
    ensures r.offer.Some? && !r.offer.value.live ==> Lasts(r, r.(offer := Some(r.offer.value.(listing := None, published := false))))
  {
  }

  lemma WriteIsConsistent(s: State, t: State, k: RunKey, reply: Reply, pc: Pc)
    requires Consistent(s) && Consistent(t) && Finds(pc).None?
    ensures Consistent(AfterWrite(s, t, k, reply, pc))
  {
    hide Consistent, Goto;
    GotoIsConsistent(s, k);
    GotoIsConsistent(t, k);
  }

  lemma Known(s: State, k: RunKey)
    requires Consistent(s)
    ensures Counts(s.remote) && Knows(s.remote, RemoteId(s.offer)) && (k in s.runs ==> Knows(s.remote, Finds(s.runs[k])))
  {
    hide Counts, Knows, Finds;
  }

  lemma PrepareRunIsConsistent(s: State, k: RunKey, reply: Reply)
    requires Consistent(s) && k in s.runs
    ensures Consistent(PrepareRun(s, k, s.runs[k], reply))
  {
    hide Consistent, Goto, AfterWrite, WithOffer, Lasts;
    Known(s, k);
    GotoIsConsistent(s, k);
    match s.runs[k]
    case UpdatingPrepared(payload, _) =>
      if s.remote.offer.Some? {
        var t := WithRemoteOffer(s, s.remote.offer.value.(payload := payload));
        RemoteMovesLast(s.remote);
        RemoteIsConsistent(s, t.remote);
        WriteIsConsistent(s, t, k, reply, AskingFees);
      }
    case Creating(payload) =>
      var t := s.(remote := CreateRemote(s.remote, payload));
      RemoteMovesLast(s.remote);
      RemoteIsConsistent(s, t.remote);
      GotoIsConsistent(t, k);
    case Recording(id) =>
      if s.offer.Some? {
        OfferIsConsistent(s, s.offer.value.(remoteId := Some(id)));
        WriteIsConsistent(s, WithOffer(s, s.offer.value.(remoteId := Some(id))), k, reply, AskingFees);
      }
    case StoringFees =>
      if s.offer.Some? {
        OfferIsConsistent(s, s.offer.value.(status := FeesReady, feesStored := true));
        WriteIsConsistent(s, WithOffer(s, s.offer.value.(status := FeesReady, feesStored := true)), k, reply, Finishing);
      }
    case _ =>
  }

  lemma PublishRunIsConsistent(s: State, k: RunKey, reply: Reply)
    requires Consistent(s) && k in s.runs
    ensures Consistent(PublishRun(s, k, s.runs[k], reply))
  {
    hide Consistent, Goto, AfterWrite, WithOffer, Lasts, PublishRemote;
    Known(s, k);
    GotoIsConsistent(s, k);
    match s.runs[k]
    case Publishing(_) =>
      var t := s.(remote := PublishRemote(s.remote));
      RemoteMovesLast(s.remote);
      RemoteIsConsistent(s, t.remote);
      GotoIsConsistent(t, k);
    case StoringListing(listing) =>
      if s.offer.Some? {
        var offer := s.offer.value.(status := Published, listingId := Some(listing), publishedBefore := true);
        OfferIsConsistent(s, offer);
        WriteIsConsistent(s, WithOffer(s, offer), k, reply, Finishing);
      }
    case _ =>
  }

  lemma ReviseRunIsConsistent(s: State, k: RunKey, reply: Reply)
    requires Consistent(s) && k in s.runs
    ensures Consistent(ReviseRun(s, k, s.runs[k], reply))
  {
    hide Consistent, Goto, AfterWrite, WithOffer, Lasts, OfferDrift;
    Known(s, k);
    GotoIsConsistent(s, k);
    match s.runs[k]
    case Updating(v, payload) =>
      if s.remote.offer.Some? {
        var t := WithRemoteOffer(s, s.remote.offer.value.(payload := payload));
        RemoteMovesLast(s.remote);
        RemoteIsConsistent(s, t.remote);
        WriteIsConsistent(s, t, k, reply, ReadingBack(v, payload));
      }
    case StoringRevision(v, payload, drifted) =>
      if s.offer.Some? {
        var offer := s.offer.value.(version := v, payload := payload, drifted := drifted, status := if drifted then Drifted else Published);
        OfferIsConsistent(s, offer);
        WriteIsConsistent(s, WithOffer(s, offer), k, reply, Finishing);
      }
    case _ =>
  }

  lemma WithdrawRunIsConsistent(s: State, k: RunKey, reply: Reply)
    requires Consistent(s) && k in s.runs
    ensures Consistent(WithdrawRun(s, k, s.runs[k], reply))
  {
    hide Consistent, Goto, AfterWrite, WithOffer, Lasts, EndRemote;
    Known(s, k);
    GotoIsConsistent(s, k);
    match s.runs[k]
    case Withdrawing =>
      var t := s.(remote := EndRemote(s.remote, false));
      RemoteMovesLast(s.remote);
      RemoteIsConsistent(s, t.remote);
      GotoIsConsistent(t, k);
    case StoringWithdrawal =>
      if s.offer.Some? {
        OfferIsConsistent(s, s.offer.value.(status := Withdrawn, drifted := false));
        WriteIsConsistent(s, WithOffer(s, s.offer.value.(status := Withdrawn, drifted := false)), k, reply, Finishing);
      }
    case _ =>
  }

  lemma ReconcileRunIsConsistent(s: State, k: RunKey, reply: Reply)
    requires Consistent(s) && k in s.runs
    ensures Consistent(ReconcileRun(s, k, s.runs[k], reply))
  {
    hide Consistent, Goto, AfterWrite, WithOffer, OfferDrift;
    Known(s, k);
    GotoIsConsistent(s, k);
    match s.runs[k]
    case StoringReconciliation(status, shown, drifted) =>
      if s.offer.Some? {
        var offer := s.offer.value.(status := status, listingId := shown, drifted := drifted);
        OfferIsConsistent(s, offer);
        WriteIsConsistent(s, WithOffer(s, offer), k, reply, Finishing);
      }
    case _ =>
  }

  /** Whatever leaves eBay and the local remote ID alone, and adds no runner that records. */
  lemma SameIsConsistent(s: State, t: State)
    requires Consistent(s) && t.remote == s.remote && RemoteId(t.offer) == RemoteId(s.offer)
    requires forall k :: k in t.runs ==> Finds(t.runs[k]).None? || (k in s.runs && t.runs[k] == s.runs[k])
    ensures Consistent(t)
  {
    hide Counts, RemoteId;
  }

  lemma EndRunIsConsistent(s: State, k: RunKey, reply: Reply)
    requires Consistent(s) && k in s.runs
    ensures Consistent(EndRun(s, k, s.runs[k], reply))
  {
    hide Consistent;
    SameIsConsistent(s, EndRun(s, k, s.runs[k], reply));
  }

  lemma RunIsConsistent(s: State, k: RunKey, reply: Reply)
    requires Consistent(s) && k in s.runs
    ensures Consistent(Run(s, k, reply))
  {
    hide Consistent, Goto, PrepareRun, PublishRun, ReviseRun, WithdrawRun, ReconcileRun, EndRun;
    GotoIsConsistent(s, k);
    PrepareRunIsConsistent(s, k, reply);
    PublishRunIsConsistent(s, k, reply);
    ReviseRunIsConsistent(s, k, reply);
    WithdrawRunIsConsistent(s, k, reply);
    ReconcileRunIsConsistent(s, k, reply);
    EndRunIsConsistent(s, k, reply);
    if k.job in s.jobs {
      assert Finds(Load(s, s.jobs[k.job])).None?;
    }
  }

  lemma RunnerStepIsConsistent(s: State, step: Step)
    requires Consistent(s)
    ensures Consistent(RunnerStep(s, step))
  {
    hide Consistent, Run, MayClaim;
    if step.Advance? && RunKey(step.worker, step.job) in s.runs {
      RunIsConsistent(s, RunKey(step.worker, step.job), step.reply);
    } else {
      SameIsConsistent(s, RunnerStep(s, step));
    }
  }

  lemma RemoteStepIsConsistent(s: State, step: Step)
    requires Consistent(s)
    ensures Consistent(RemoteStep(s, step))
  {
    hide Consistent, EndRemote, Lasts;
    RemoteMovesLast(s.remote);
    if RemoteStep(s, step) != s {
      RemoteIsConsistent(s, RemoteStep(s, step).remote);
    }
  }

  lemma StepIsConsistent(s: State, step: Step)
    requires Consistent(s)
    ensures Consistent(Apply(s, step))
  {
    hide Consistent, SyncStep, RequestStep, RunnerStep, RemoteStep, Drafts.Apply, Blocked, RemoteId;
    if step.DraftStep? {
      SameIsConsistent(s, s.(draft := Drafts.Apply(s.draft, step.step)));
    } else if step.Decide? {
      SameIsConsistent(s, s.(approval := step.approval));
    } else {
      SameIsConsistent(s, SyncStep(s, step));
      RequestKeepsIds(s, step);
      SameIsConsistent(s, RequestStep(s, step));
      RunnerStepIsConsistent(s, step);
      RemoteStepIsConsistent(s, step);
    }
  }

  lemma {:induction false} ExecIsConsistent(s: State, steps: seq<Step>)
    requires Consistent(s)
    ensures Consistent(Exec(s, steps))
    decreases |steps|
  {
    hide Consistent, Apply;
    if steps != [] {
      StepIsConsistent(s, steps[0]);
      ExecIsConsistent(Apply(s, steps[0]), steps[1..]);
    }
  }

  /**
   * However requests and runners overlap, after every run: eBay made one offer at most, a listing is published again only
   * after the previous one ended, and the local remote ID is eBay's.
   */
  lemma RemoteOfferIsKnown(config: Config, content: Drafts.Content, ready: bool, steps: seq<Step>)
    ensures var s := Exec(Init(config, content, ready), steps);
            && s.remote.creations <= 1
            && s.remote.publications == s.remote.endings + (if s.remote.offer.Some? && s.remote.offer.value.live then 1 else 0)
            && (RemoteId(s.offer).Some? ==> s.remote.offer.Some? && s.remote.offer.value.id == RemoteId(s.offer).value)
  {
    hide Exec;
    ExecIsConsistent(Init(config, content, ready), steps);
  }
}
