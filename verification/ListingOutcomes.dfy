/**
 * What a runner writes it has seen: between its claim and its write there was a moment at which eBay showed just that.  So
 * WITHDRAWN is written only after the listing was seen to be over; and if an offer has one live runner, no offer that is
 * WITHDRAWN has a live listing.
 */
module ListingOutcomes {
  import opened Wrappers
  import opened ListingProtocol
  import Runs = ListingCounterexamples
  import Overlaps = ListingOverlaps
  import Drafts

  // ----- what a runner has seen

  predicate IsLive(r: Remote) {
    r.offer.Some? && r.offer.value.live
  }

  /** A place in a run that rests on the offer as it was loaded and on eBay's offer as it was seen later. */
  predicate Saw(loaded: Option<Offer>, seen: Remote, pc: Pc) {
    match pc
    case Recording(id) => seen.offer.Some? && seen.offer.value.id == id
    case Publishing(_) => seen.offer.Some? && seen.offer.value.listing.None?
    case StoringListing(listing) => seen.offer.Some? && seen.offer.value.listing == Some(listing)
    case Updating(_, _) => IsLive(seen)
    case StoringRevision(_, payload, drifted) => seen.offer.Some? && (drifted <==> seen.offer.value.payload != payload)
    case Withdrawing => IsLive(seen)
    case ReadingFinal => !IsLive(seen)
    case StoringWithdrawal => !IsLive(seen)
    case ReadingRemote(payload, known) => loaded.Some? && loaded.value.payload == payload && loaded.value.listingId == known
    case StoringReconciliation(status, shown, drifted) =>
      && loaded.Some? && seen.offer.Some?
      && (drifted <==> loaded.value.payload != seen.offer.value.payload)
      && (status == if !IsLive(seen) then Withdrawn else if drifted then Drifted else Published)
      && (shown == if seen.offer.value.listing.Some? then seen.offer.value.listing else loaded.value.listingId)
    case _ => true
  }

  /** All states of a run. */
  function Trace(s: State, steps: seq<Step>): (trace: seq<State>)
    ensures |trace| == |steps| + 1
  {
    if steps == [] then [s]
    else
      var front := Trace(s, steps[..|steps| - 1]);
      front + [Apply(front[|steps| - 1], steps[|steps| - 1])]
  }

  lemma {:induction false} TraceIsRun(s: State, steps: seq<Step>, i: nat)
    requires i <= |steps|
    ensures Trace(s, steps)[i] == Exec(s, steps[..i])
    decreases |steps|
  {
    hide Apply;
    if i < |steps| {
      assert steps[..|steps| - 1][..i] == steps[..i];
      TraceIsRun(s, steps[..|steps| - 1], i);
    } else if steps == [] {
      assert steps[..i] == [];
    } else {
      var front, last := steps[..i - 1], steps[i - 1];
      TraceIsRun(s, front, i - 1);
      assert front[..i - 1] == front && steps[..i] == front + [last];
      ExecAppends(s, front, [last]);
      OneStep(Exec(s, front), last);
    }
  }

  lemma OneStep(s: State, step: Step)
    ensures Exec(s, [step]) == Apply(s, step)
  {
    hide Apply;
    assert Exec(s, [step]) == Exec(Apply(s, step), []);
  }

  /** The runner has been there since, without a crash, so since its last claim. */
  predicate PresentSince(trace: seq<State>, k: RunKey, i: nat) {
    forall j :: i <= j < |trace| ==> k in trace[j].runs
  }

  predicate SawAt(trace: seq<State>, k: RunKey, pc: Pc, i: nat, j: nat) {
    i <= j < |trace| && PresentSince(trace, k, i) && Saw(trace[i].offer, trace[j].remote, pc)
  }

  predicate HasSeen(trace: seq<State>, k: RunKey, pc: Pc) {
    exists i, j :: 0 <= i < |trace| && 0 <= j < |trace| && SawAt(trace, k, pc, i, j)
  }

  /** A runner that stays keeps what it has seen, and may add what it sees now or after the step. */
  lemma SeenLater(trace: seq<State>, t: State, k: RunKey)
    requires trace != [] && k in trace[|trace| - 1].runs && k in t.runs
    requires HasSeen(trace, k, trace[|trace| - 1].runs[k]) && MayGo(trace[|trace| - 1], t, trace[|trace| - 1].runs[k], t.runs[k])
    ensures HasSeen(trace + [t], k, t.runs[k])
  {
    hide Saw;
    var n, all, s := |trace| - 1, trace + [t], trace[|trace| - 1];
    var pc, next := s.runs[k], t.runs[k];
    var i, j :| 0 <= i < |trace| && 0 <= j < |trace| && SawAt(trace, k, pc, i, j);
    assert PresentSince(all, k, i) && PresentSince(all, k, n);
    assert all[i] == trace[i] && all[j] == trace[j] && all[n] == s && all[n + 1] == t;
    hide PresentSince;
    assert SawAt(all, k, next, i, j) || SawAt(all, k, next, i, n) || SawAt(all, k, next, i, n + 1) || SawAt(all, k, next, n, n);
  }

  /** A runner that has just arrived needs to have seen nothing. */
  lemma SeenNow(trace: seq<State>, t: State, k: RunKey)
    requires k in t.runs && (t.runs[k].Claimed? || t.runs[k].Aborting?)
    ensures HasSeen(trace + [t], k, t.runs[k])
  {
    assert SawAt(trace + [t], k, t.runs[k], |trace|, |trace|);
  }

  /** What the runner goes on with it has seen, or sees before or after its step. */
  ghost predicate MayGo(s: State, t: State, pc: Pc, next: Pc) {
    forall loaded, seen :: Saw(loaded, seen, pc) ==>
      Saw(loaded, seen, next) || Saw(loaded, s.remote, next) || Saw(loaded, t.remote, next) || Saw(s.offer, s.remote, next)
  }

  /** One step of a runner, which leaves the others where they are. */
  ghost predicate Sees(s: State, t: State, k: RunKey) {
    && (k in s.runs && k in t.runs ==> MayGo(s, t, s.runs[k], t.runs[k]))
    && forall l :: l in t.runs && l != k ==> l in s.runs && t.runs[l] == s.runs[l]
  }

  lemma GotoSees(s: State, t: State, k: RunKey)
    requires k in s.runs && t.runs == s.runs
    ensures forall next :: MayGo(s, t, s.runs[k], next) ==> Sees(s, Goto(t, k, next), k)
    ensures Sees(s, RemoveRun(t, k), k)
  {
    hide Saw;
  }

  /** After a write the runner goes on, or to the error handler, which needs to have seen nothing. */
  lemma WriteSees(s: State, t: State, k: RunKey, reply: Reply, next: Pc)
    requires k in s.runs && t.runs == s.runs && MayGo(s, t, s.runs[k], next)
    ensures Sees(s, AfterWrite(s, t, k, reply, next), k)
  {
    hide Sees, MayGo, Goto;
    AbortingSawNothing(s, t, s.runs[k]);
    GotoSees(s, s, k);
    GotoSees(s, t, k);
  }

  lemma AbortingSawNothing(s: State, t: State, pc: Pc)
    ensures MayGo(s, t, pc, Aborting) && MayGo(s, s, pc, Aborting)
  {
  }

  lemma StaysSeen(s: State, k: RunKey)
    ensures Sees(s, s, k)
  {
    hide Saw;
  }

  lemma PrepareSees(s: State, k: RunKey, reply: Reply)
    requires k in s.runs
    ensures Sees(s, PrepareRun(s, k, s.runs[k], reply), k)
  {
    hide Sees, Goto, AfterWrite;
    StaysSeen(s, k);
    GotoSees(s, s, k);
    match s.runs[k]
    case UpdatingPrepared(payload, _) =>
      if s.remote.offer.Some? {
        WriteSees(s, WithRemoteOffer(s, s.remote.offer.value.(payload := payload)), k, reply, AskingFees);
      }
    case Creating(payload) => GotoSees(s, s.(remote := CreateRemote(s.remote, payload)), k);
    case Recording(id) =>
      if s.offer.Some? {
        WriteSees(s, WithOffer(s, s.offer.value.(remoteId := Some(id))), k, reply, AskingFees);
      }
    case StoringFees =>
      if s.offer.Some? {
        WriteSees(s, WithOffer(s, s.offer.value.(status := FeesReady, feesStored := true)), k, reply, Finishing);
      }
    case _ =>
  }

  lemma PublishSees(s: State, k: RunKey, reply: Reply)
    requires k in s.runs
    ensures Sees(s, PublishRun(s, k, s.runs[k], reply), k)
  {
    hide Sees, Goto, AfterWrite;
    StaysSeen(s, k);
    GotoSees(s, s, k);
    match s.runs[k]
    case Publishing(_) => GotoSees(s, s.(remote := PublishRemote(s.remote)), k);
    case StoringListing(listing) =>
      if s.offer.Some? {
        var offer := s.offer.value.(status := Published, listingId := Some(listing), publishedBefore := true);
        WriteSees(s, WithOffer(s, offer), k, reply, Finishing);
      }
    case _ =>
  }

  lemma ReviseSees(s: State, k: RunKey, reply: Reply)
    requires k in s.runs
    ensures Sees(s, ReviseRun(s, k, s.runs[k], reply), k)
  {
    hide Sees, Goto, AfterWrite, OfferDrift;
    StaysSeen(s, k);
    GotoSees(s, s, k);
    match s.runs[k]
    case Updating(v, payload) =>
      if s.remote.offer.Some? {
        WriteSees(s, WithRemoteOffer(s, s.remote.offer.value.(payload := payload)), k, reply, ReadingBack(v, payload));
      }
    case ReadingBack(v, payload) =>
      if s.remote.offer.Some? {
        NoDriftMeansEqual(payload, s.remote.offer.value.payload);
      }
    case StoringRevision(v, payload, drifted) =>
      if s.offer.Some? {
        var offer := s.offer.value.(version := v, payload := payload, drifted := drifted, status := if drifted then Drifted else Published);
        WriteSees(s, WithOffer(s, offer), k, reply, Finishing);
      }
    case _ =>
  }

  lemma WithdrawSees(s: State, k: RunKey, reply: Reply)
    requires k in s.runs
    ensures Sees(s, WithdrawRun(s, k, s.runs[k], reply), k)
  {
    hide Sees, Goto, AfterWrite;
    StaysSeen(s, k);
    GotoSees(s, s, k);
    match s.runs[k]
    case Withdrawing => GotoSees(s, s.(remote := EndRemote(s.remote, false)), k);
    case StoringWithdrawal =>
      if s.offer.Some? {
        WriteSees(s, WithOffer(s, s.offer.value.(status := Withdrawn, drifted := false)), k, reply, Finishing);
      }
    case _ =>
  }

  lemma ReconcileSees(s: State, k: RunKey, reply: Reply)
    requires k in s.runs
    ensures Sees(s, ReconcileRun(s, k, s.runs[k], reply), k)
  {
    hide Sees, Goto, AfterWrite, OfferDrift;
    StaysSeen(s, k);
    GotoSees(s, s, k);
    match s.runs[k]
    case ReadingRemote(payload, known) =>
      if s.remote.offer.Some? {
        NoDriftMeansEqual(payload, s.remote.offer.value.payload);
      }
    case StoringReconciliation(status, shown, drifted) =>
      if s.offer.Some? {
        var offer := s.offer.value.(status := status, listingId := shown, drifted := drifted);
        WriteSees(s, WithOffer(s, offer), k, reply, Finishing);
      }
    case _ =>
  }

  lemma EndSees(s: State, k: RunKey, reply: Reply)
    requires k in s.runs
    ensures Sees(s, EndRun(s, k, s.runs[k], reply), k)
  {
    hide Sees, Goto, RemoveRun;
    StaysSeen(s, k);
    GotoSees(s, s, k);
    match s.runs[k]
    case Finishing => GotoSees(s, Release(s, k, Completed), k);
    case CleaningUp(found, drifts) => GotoSees(s, CleanUp(s, k, found, drifts), k);
    case _ =>
  }

  lemma ClaimedSees(s: State, k: RunKey, reply: Reply)
    requires k in s.runs && s.runs[k].Claimed?
    ensures Sees(s, Run(s, k, reply), k)
  {
    hide Sees, Goto;
    GotoSees(s, s, k);
  }

  lemma RunSees(s: State, k: RunKey, reply: Reply)
    requires k in s.runs
    ensures Sees(s, Run(s, k, reply), k)
  {
    hide Sees, PrepareRun, PublishRun, ReviseRun, WithdrawRun, ReconcileRun, EndRun;
    if s.runs[k].Claimed? {
      ClaimedSees(s, k, reply);
    } else {
      PrepareSees(s, k, reply);
      PublishSees(s, k, reply);
      ReviseSees(s, k, reply);
      WithdrawSees(s, k, reply);
      ReconcileSees(s, k, reply);
      EndSees(s, k, reply);
    }
  }

  /** What a step does to the runners. */
  lemma StepSees(s: State, step: Step, k: RunKey)
    requires k in Apply(s, step).runs
    ensures var t := Apply(s, step);
            if k in s.runs then MayGo(s, t, s.runs[k], t.runs[k]) else t.runs[k].Claimed? || t.runs[k].Aborting?
  {
    hide Run, Saw, MayGo, SyncStep, RequestStep, RemoteStep, Drafts.Apply, Blocked, MayClaim;
    StaysWhere(s, Apply(s, step), k);
    if step.Advance? && RunKey(step.worker, step.job) in s.runs {
      RunSees(s, RunKey(step.worker, step.job), step.reply);
    } else if k in s.runs && (step.Claim? || step.ClaimLost?) && k == RunKey(step.worker, step.job) {
      ArrivesWithNothing(s, Apply(s, step), s.runs[k]);
    }
  }

  lemma StaysWhere(s: State, t: State, k: RunKey)
    ensures k in s.runs ==> MayGo(s, t, s.runs[k], s.runs[k])
  {
  }

  lemma ArrivesWithNothing(s: State, t: State, pc: Pc)
    ensures MayGo(s, t, pc, Claimed) && MayGo(s, t, pc, Aborting)
  {
  }

  lemma {:induction false} RunnersHaveSeen(s: State, steps: seq<Step>, k: RunKey)
    requires s.runs == map[] && k in Exec(s, steps).runs
    ensures HasSeen(Trace(s, steps), k, Exec(s, steps).runs[k])
    decreases |steps|
  {
    hide Apply, HasSeen, Sees, Exec;
    TraceIsRun(s, steps, |steps|);
    assert steps[..|steps|] == steps;
    NoStep(s);
    if steps != [] {
      var front, last := steps[..|steps| - 1], steps[|steps| - 1];
      TraceIsRun(s, front, |front|);
      assert front[..|front|] == front;
      var before := Exec(s, front);
      StepSees(before, last, k);
      if k in before.runs {
        RunnersHaveSeen(s, front, k);
        SeenLater(Trace(s, front), Apply(before, last), k);
      } else {
        SeenNow(Trace(s, front), Apply(before, last), k);
      }
    }
  }

  lemma NoStep(s: State)
    ensures Exec(s, []) == s
  {
  }

  /** Does the step make the offer WITHDRAWN? */
  predicate Withdraws(s: State, t: State) {
    t.offer.Some? && t.offer.value.status.Withdrawn? && !(s.offer.Some? && s.offer.value.status.Withdrawn?)
  }

  predicate StoresWithdrawn(pc: Pc) {
    pc.StoringWithdrawal? || (pc.StoringReconciliation? && pc.status.Withdrawn?)
  }

  lemma PrepareOrPublishWithdraws(s: State, k: RunKey, pc: Pc, reply: Reply)
    ensures !Withdraws(s, PrepareRun(s, k, pc, reply)) && !Withdraws(s, PublishRun(s, k, pc, reply))
  {
    hide CreateRemote, PublishRemote, FindBySku;
  }

  lemma ReviseOrWithdrawWithdraws(s: State, k: RunKey, pc: Pc, reply: Reply)
    ensures !Withdraws(s, ReviseRun(s, k, pc, reply)) && (Withdraws(s, WithdrawRun(s, k, pc, reply)) ==> pc.StoringWithdrawal?)
  {
    hide EndRemote, OfferDrift;
  }

  lemma OtherRunsWithdraw(s: State, k: RunKey, pc: Pc, reply: Reply)
    ensures Withdraws(s, ReconcileRun(s, k, pc, reply)) ==> StoresWithdrawn(pc)
    ensures !Withdraws(s, EndRun(s, k, pc, reply))
  {
    hide OfferDrift;
  }

  lemma RunWithdraws(s: State, k: RunKey, reply: Reply)
    requires k in s.runs && Withdraws(s, Run(s, k, reply))
    ensures StoresWithdrawn(s.runs[k])
  {
    hide PrepareRun, PublishRun, ReviseRun, WithdrawRun, ReconcileRun, EndRun, Load;
    PrepareOrPublishWithdraws(s, k, s.runs[k], reply);
    ReviseOrWithdrawWithdraws(s, k, s.runs[k], reply);
    OtherRunsWithdraw(s, k, s.runs[k], reply);
  }

  lemma RequestsDoNotWithdraw(s: State, step: Step)
    ensures !Withdraws(s, RequestStep(s, step))
  {
    hide MayPrepare, MayPublish, MayRevise, MayWithdraw, MayReconcile, BuildOfferPayload;
  }

  lemma WithdrawnBy(s: State, step: Step)
    requires Withdraws(s, Apply(s, step))
    ensures step.Advance? && RunKey(step.worker, step.job) in s.runs && StoresWithdrawn(s.runs[RunKey(step.worker, step.job)])
  {
    hide RequestStep, Run, SyncStep, RemoteStep, Drafts.Apply, StoresWithdrawn;
    RequestsDoNotWithdraw(s, step);
    if step.Advance? && RunKey(step.worker, step.job) in s.runs {
      if Withdraws(s, Run(s, RunKey(step.worker, step.job), step.reply)) {
        RunWithdraws(s, RunKey(step.worker, step.job), step.reply);
      }
    }
  }

  /**
   * However requests and runners overlap, whoever makes an offer WITHDRAWN saw eBay's offer without a live listing, at a
   * moment of the run since which it has been at work without a crash.
   */
  lemma WithdrawnWasSeenEnded(config: Config, content: Drafts.Content, ready: bool, steps: seq<Step>, step: Step)
    returns (k: RunKey, i: nat, j: nat)
    requires var s := Exec(Init(config, content, ready), steps); Withdraws(s, Apply(s, step))
    ensures step.Advance? && k == RunKey(step.worker, step.job)
    ensures i <= j <= |steps| && !IsLive(Exec(Init(config, content, ready), steps[..j]).remote)
    ensures forall n :: i <= n <= |steps| ==> k in Exec(Init(config, content, ready), steps[..n]).runs
  {
    hide Apply, Exec, HasSeen;
    var s0 := Init(config, content, ready);
    var s := Exec(s0, steps);
    WithdrawnBy(s, step);
    k := RunKey(step.worker, step.job);
    RunnersHaveSeen(s0, steps, k);
    i, j := SeenMoments(Trace(s0, steps), k, s.runs[k]);
    forall n | 0 <= n <= |steps|
      ensures Trace(s0, steps)[n] == Exec(s0, steps[..n])
    {
      TraceIsRun(s0, steps, n);
    }
  }

  lemma SeenMoments(trace: seq<State>, k: RunKey, pc: Pc) returns (i: nat, j: nat)
    requires HasSeen(trace, k, pc)
    ensures i <= j < |trace| && SawAt(trace, k, pc, i, j)
  {
    i, j :| 0 <= i < |trace| && 0 <= j < |trace| && SawAt(trace, k, pc, i, j);
  }

  // ----- a withdrawn offer has no live listing

  predicate IsWithdrawn(offer: Option<Offer>) {
    offer.Some? && offer.value.status.Withdrawn?
  }

  /** Whoever is about to store WITHDRAWN finds no live listing, and whoever is about to publish no withdrawn offer. */
  predicate EndFits(offer: Option<Offer>, r: Remote, pc: Pc) {
    && (pc.ReadingFinal? || StoresWithdrawn(pc) ==> !IsLive(r))
    && (pc.CheckingListing? || pc.Publishing? || pc.CheckingAgain? ==> !IsWithdrawn(offer))
  }

  ghost predicate EndInv(s: State) {
    && s.config.overlap.OneRunnerPerOffer?
    && (forall k, l :: k in s.runs && l in s.runs ==> k == l)
    && (IsWithdrawn(s.offer) ==> !IsLive(s.remote))
    && (forall k :: k in s.runs ==> EndFits(s.offer, s.remote, s.runs[k]))
  }

  lemma EndParts(s: State, k: RunKey)
    requires EndInv(s) && k in s.runs
    ensures EndFits(s.offer, s.remote, s.runs[k]) && (IsWithdrawn(s.offer) ==> !IsLive(s.remote))
  {
    hide EndFits, IsWithdrawn, IsLive;
  }

  /** A lone runner that goes on from an offer and a remote state that fit. */
  lemma EndGoto(s: State, t: State, k: RunKey)
    requires EndInv(s) && k in s.runs && t == s.(offer := t.offer, remote := t.remote, jobs := t.jobs, blind := t.blind)
    requires IsWithdrawn(t.offer) ==> !IsLive(t.remote)
    ensures forall pc: Pc :: EndFits(t.offer, t.remote, pc) ==> EndInv(Goto(t, k, pc))
    ensures EndInv(RemoveRun(t, k))
  {
    hide EndFits, IsWithdrawn, IsLive;
  }

  lemma EndWrite(s: State, t: State, k: RunKey, reply: Reply, pc: Pc)
    requires EndInv(s) && k in s.runs && t == s.(offer := t.offer, remote := t.remote)
    requires (IsWithdrawn(t.offer) ==> !IsLive(t.remote)) && EndFits(t.offer, t.remote, pc)
    ensures EndInv(AfterWrite(s, t, k, reply, pc))
  {
    hide EndInv, Goto;
    EndParts(s, k);
    EndGoto(s, s, k);
    EndGoto(s, t, k);
  }

  lemma PreparingEndsNothing(r: Remote)
    ensures forall payload :: IsLive(CreateRemote(r, payload)) == IsLive(r)
    ensures r.offer.Some? ==> forall payload :: IsLive(r.(offer := Some(r.offer.value.(payload := payload)))) == IsLive(r)
  {
  }

  lemma OfferWriteEnds(s: State, offer: Offer, k: RunKey, reply: Reply, pc: Pc)
    requires EndInv(s) && k in s.runs && !offer.status.Withdrawn? && EndFits(Some(offer), s.remote, pc)
    ensures EndInv(AfterWrite(s, WithOffer(s, offer), k, reply, pc))
  {
    hide EndInv, AfterWrite, EndFits, IsLive;
    EndWrite(s, WithOffer(s, offer), k, reply, pc);
  }

  lemma RemoteWriteEnds(s: State, payload: Payload, k: RunKey, reply: Reply, pc: Pc)
    requires EndInv(s) && k in s.runs && s.remote.offer.Some? && (pc.AskingFees? || pc.ReadingBack?)
    ensures EndInv(AfterWrite(s, WithRemoteOffer(s, s.remote.offer.value.(payload := payload)), k, reply, pc))
  {
    hide EndInv, AfterWrite, IsLive;
    EndParts(s, k);
    PreparingEndsNothing(s.remote);
    EndWrite(s, WithRemoteOffer(s, s.remote.offer.value.(payload := payload)), k, reply, pc);
  }

  lemma CreationEnds(s: State, payload: Payload, k: RunKey)
    requires EndInv(s) && k in s.runs
    ensures var t := s.(remote := CreateRemote(s.remote, payload)); EndInv(Goto(t, k, FindingAgain)) && forall id :: EndInv(Goto(t, k, Recording(id)))
  {
    hide EndInv, Goto, CreateRemote, IsLive;
    EndParts(s, k);
    PreparingEndsNothing(s.remote);
    EndGoto(s, s.(remote := CreateRemote(s.remote, payload)), k);
  }

  lemma PrepareEnds(s: State, k: RunKey, reply: Reply)
    requires EndInv(s) && k in s.runs
    ensures EndInv(PrepareRun(s, k, s.runs[k], reply))
  {
    hide EndInv, Goto, AfterWrite, CreateRemote, FindBySku, IsLive, WithOffer, WithRemoteOffer;
    EndParts(s, k);
    EndGoto(s, s, k);
    match s.runs[k]
    case UpdatingPrepared(payload, _) =>
      if s.remote.offer.Some? {
        RemoteWriteEnds(s, payload, k, reply, AskingFees);
      }
    case Creating(payload) => CreationEnds(s, payload, k);
    case Recording(id) =>
      if s.offer.Some? {
        SameStatusEnds(s, s.offer.value.(remoteId := Some(id)), k, reply);
      }
    case StoringFees =>
      if s.offer.Some? {
        OfferWriteEnds(s, s.offer.value.(status := FeesReady, feesStored := true), k, reply, Finishing);
      }
    case _ =>
  }

  lemma SameStatusEnds(s: State, offer: Offer, k: RunKey, reply: Reply)
    requires EndInv(s) && k in s.runs && s.offer.Some? && offer.status == s.offer.value.status
    ensures EndInv(AfterWrite(s, WithOffer(s, offer), k, reply, AskingFees))
  {
    hide EndInv, AfterWrite, IsLive;
    EndParts(s, k);
    EndWrite(s, WithOffer(s, offer), k, reply, AskingFees);
  }

  lemma PublishEnds(s: State, k: RunKey, reply: Reply)
    requires EndInv(s) && k in s.runs
    ensures EndInv(PublishRun(s, k, s.runs[k], reply))
  {
    hide EndInv, Goto, AfterWrite;
    EndParts(s, k);
    EndGoto(s, s, k);
    match s.runs[k]
    case Publishing(_) => EndGoto(s, s.(remote := PublishRemote(s.remote)), k);
    case StoringListing(listing) =>
      if s.offer.Some? {
        var offer := s.offer.value.(status := Published, listingId := Some(listing), publishedBefore := true);
        EndWrite(s, WithOffer(s, offer), k, reply, Finishing);
      }
    case _ =>
  }

  lemma ReviseEnds(s: State, k: RunKey, reply: Reply)
    requires EndInv(s) && k in s.runs
    ensures EndInv(ReviseRun(s, k, s.runs[k], reply))
  {
    hide EndInv, Goto, AfterWrite, OfferDrift;
    EndParts(s, k);
    EndGoto(s, s, k);
    match s.runs[k]
    case Updating(v, payload) =>
      if s.remote.offer.Some? {
        RemoteWriteEnds(s, payload, k, reply, ReadingBack(v, payload));
      }
    case StoringRevision(v, payload, drifted) =>
      if s.offer.Some? {
        var offer := s.offer.value.(version := v, payload := payload, drifted := drifted, status := if drifted then Drifted else Published);
        EndWrite(s, WithOffer(s, offer), k, reply, Finishing);
      }
    case _ =>
  }

  lemma WithdrawEnds(s: State, k: RunKey, reply: Reply)
    requires EndInv(s) && k in s.runs
    ensures EndInv(WithdrawRun(s, k, s.runs[k], reply))
  {
    hide EndInv, Goto, AfterWrite;
    EndParts(s, k);
    EndGoto(s, s, k);
    match s.runs[k]
    case Withdrawing => EndGoto(s, s.(remote := EndRemote(s.remote, false)), k);
    case StoringWithdrawal =>
      if s.offer.Some? {
        EndWrite(s, WithOffer(s, s.offer.value.(status := Withdrawn, drifted := false)), k, reply, Finishing);
      }
    case _ =>
  }

  lemma ReconcileEnds(s: State, k: RunKey, reply: Reply)
    requires EndInv(s) && k in s.runs
    ensures EndInv(ReconcileRun(s, k, s.runs[k], reply))
  {
    hide EndInv, Goto, AfterWrite, OfferDrift;
    EndParts(s, k);
    EndGoto(s, s, k);
    match s.runs[k]
    case StoringReconciliation(status, shown, drifted) =>
      if s.offer.Some? {
        var offer := s.offer.value.(status := status, listingId := shown, drifted := drifted);
        EndWrite(s, WithOffer(s, offer), k, reply, Finishing);
      }
    case _ =>
  }

  lemma EndRunEnds(s: State, k: RunKey, reply: Reply)
    requires EndInv(s) && k in s.runs
    ensures EndInv(EndRun(s, k, s.runs[k], reply))
  {
    hide EndInv, Goto, RemoveRun;
    EndParts(s, k);
    EndGoto(s, s, k);
    match s.runs[k]
    case Finishing => EndGoto(s, Release(s, k, Completed), k);
    case CleaningUp(found, drifts) => EndGoto(s, CleanUp(s, k, found, drifts), k);
    case _ =>
  }

  lemma RunEnds(s: State, k: RunKey, reply: Reply)
    requires EndInv(s) && k in s.runs
    ensures EndInv(Run(s, k, reply))
  {
    hide EndInv, Goto, PrepareRun, PublishRun, ReviseRun, WithdrawRun, ReconcileRun, EndRun;
    EndParts(s, k);
    EndGoto(s, s, k);
    PrepareEnds(s, k, reply);
    PublishEnds(s, k, reply);
    ReviseEnds(s, k, reply);
    WithdrawEnds(s, k, reply);
    ReconcileEnds(s, k, reply);
    EndRunEnds(s, k, reply);
  }

  lemma RunnerStepEnds(s: State, step: Step)
    requires EndInv(s)
    ensures EndInv(RunnerStep(s, step))
  {
    hide Run, IsLive, IsWithdrawn;
    if step.Advance? && RunKey(step.worker, step.job) in s.runs {
      RunEnds(s, RunKey(step.worker, step.job), step.reply);
    }
  }

  /** A request never writes WITHDRAWN. */
  lemma RequestEnds(s: State, step: Step)
    requires EndInv(s)
    ensures EndInv(RequestStep(s, step))
  {
    hide EndInv;
    RequestsDoNotWithdraw(s, step);
    RequestFrame(s, step);
    FewerWithdrawn(s, RequestStep(s, step));
  }

  lemma RequestFrame(s: State, step: Step)
    ensures var t := RequestStep(s, step); t.config == s.config && t.runs == s.runs && t.remote == s.remote
  {
  }

  lemma FewerWithdrawn(s: State, t: State)
    requires EndInv(s) && t.config == s.config && t.runs == s.runs && t.remote == s.remote
    requires IsWithdrawn(t.offer) ==> IsWithdrawn(s.offer)
    ensures EndInv(t)
  {
    hide IsLive;
  }

  lemma RemoteStepEnds(s: State, step: Step)
    requires EndInv(s)
    ensures EndInv(RemoteStep(s, step))
  {
    var t := RemoteStep(s, step);
    assert IsLive(t.remote) ==> IsLive(s.remote);
    hide IsLive, RemoteStep;
  }

  lemma StepEnds(s: State, step: Step)
    requires EndInv(s)
    ensures EndInv(Apply(s, step))
  {
    hide EndInv, SyncStep, RequestStep, RunnerStep, RemoteStep, Drafts.Apply, Blocked;
    if step.DraftStep? {
      FewerWithdrawn(s, s.(draft := Drafts.Apply(s.draft, step.step)));
    } else if step.Decide? {
      FewerWithdrawn(s, s.(approval := step.approval));
    } else {
      FewerWithdrawn(s, SyncStep(s, step));
      RequestEnds(s, step);
      RunnerStepEnds(s, step);
      RemoteStepEnds(s, step);
    }
  }

  lemma {:induction false} ExecEnds(s: State, steps: seq<Step>)
    requires EndInv(s)
    ensures EndInv(Exec(s, steps))
    decreases |steps|
  {
    hide EndInv, Apply;
    if steps != [] {
      StepEnds(s, steps[0]);
      ExecEnds(Apply(s, steps[0]), steps[1..]);
    }
  }

  ghost predicate WithdrawnMeansEnded(config: Config) {
    forall content, ready, steps ::
      var s := Exec(Init(config, content, ready), steps);
      IsWithdrawn(s.offer) ==> !IsLive(s.remote)
  }

  /** After every run an offer that is WITHDRAWN has no live listing: if and only if an offer has at most one live runner. */
  lemma WithdrawnMeansEndedExactly(config: Config)
    ensures WithdrawnMeansEnded(config) <==> config.overlap.OneRunnerPerOffer?
  {
    hide Apply, Exec, IsWithdrawn, IsLive;
    if config.overlap.OneRunnerPerOffer? {
      forall content, ready, steps
        ensures var s := Exec(Init(config, content, ready), steps); IsWithdrawn(s.offer) ==> !IsLive(s.remote)
      {
        NothingWithdrawn(config, content, ready);
        ExecEnds(Init(config, content, ready), steps);
      }
    } else {
      Overlaps.WithdrawnListingIsLive(config);
      var s :| Runs.Reaches(config, s) && s.offer.Some? && s.offer.value.status.Withdrawn? && s.remote.offer.Some? && s.remote.offer.value.live;
      assert IsWithdrawn(s.offer) && IsLive(s.remote) by { StillListed(s); }
    }
  }

  lemma StillListed(s: State)
    requires s.offer.Some? && s.offer.value.status.Withdrawn? && s.remote.offer.Some? && s.remote.offer.value.live
    ensures IsWithdrawn(s.offer) && IsLive(s.remote)
  {
  }

  lemma NothingWithdrawn(config: Config, content: Drafts.Content, ready: bool)
    requires config.overlap.OneRunnerPerOffer?
    ensures EndInv(Init(config, content, ready))
  {
  }
}
