/**
 * The transactional outbox (outbox-service.ts) and its consumer (notification-service.ts).  Worker instances find an
 * event, claim its row by a guarded update, run the publisher, and store the outcome by another guarded update; they may
 * crash between any two of these.  Each instance runs one loop at a time, and all share one attempt limit.
 */
module Outbox {
  import opened Wrappers

  datatype Status = Pending | Processing | Published | Failed

  datatype Row = Row(status: Status, owner: Option<nat>, leaseUntil: int, attempts: nat, nextAttemptAt: int)

  datatype Settings = Settings(maxAttempts: nat, lease: int)

  const DAY := 24 * 60 * 60_000

  function Pow2(n: nat): (p: nat)
    ensures p > 0
  {
    if n == 0 then 1 else 2 * Pow2(n - 1)
  }

  /** What the query for candidates asks of a row. */
  predicate Candidate(row: Row, maxAttempts: nat, now: int) {
    && row.nextAttemptAt <= now && row.attempts < maxAttempts
    && (row.status.Pending? || row.status.Failed? || (row.status.Processing? && row.leaseUntil < now))
  }

  /** What the claiming update asks of it. */
  predicate Claimable(row: Row, maxAttempts: nat, now: int) {
    && row.attempts < maxAttempts
    && (((row.status.Pending? || row.status.Failed?) && row.nextAttemptAt <= now) || (row.status.Processing? && row.leaseUntil < now))
  }

  function ClaimRow(row: Row, instance: nat, until: int): Row {
    row.(status := Processing, owner := Some(instance), leaseUntil := until, attempts := row.attempts + 1)
  }

  predicate Holds(row: Row, instance: nat) {
    row.status.Processing? && row.owner == Some(instance)
  }

  /** When to try again; the attempts are those that the candidate showed. */
  function Backoff(seen: nat, maxAttempts: nat): int {
    if seen + 1 >= maxAttempts then DAY else 1000 * Pow2(seen)
  }

  function StoreRow(row: Row, instance: nat, ok: bool, retryAt: int): Row {
    if !Holds(row, instance) then row
    else if ok then row.(status := Published, owner := None)
    else row.(status := Failed, owner := None, nextAttemptAt := retryAt)
  }

  // ----- one event, many workers

  /** Where an instance is with the event: the attempt it claimed, until when, and whom it still has to notify. */
  datatype Pc =
    | Found(seen: nat)
    | Claimed(seen: nat, attempt: nat, until: int)
    | Delivering(seen: nat, until: int, recipients: seq<nat>, notified: nat)
    | Delivered(seen: nat, until: int, recipients: seq<nat>, ok: bool)

  /** `called` records every run of the publisher, by the attempt that it belongs to, and `delivered` the recipients
   *  of the delivery that returned and was stored. */
  datatype State = State(
    settings: Settings, now: int, row: Row, workers: map<nat, Pc>,
    notifications: seq<nat>, called: seq<nat>, delivered: Option<seq<nat>>)

  datatype Reply = Good | EffectThenError | NoEffect

  datatype Step =
    | Tick(ms: nat)
    | Find(instance: nat)
    | Claim(instance: nat)
    | Call(instance: nat, recipients: seq<nat>)
    | Notify(instance: nat)
    | Throw(instance: nat)
    | Return(instance: nat)
    | Store(instance: nat, reply: Reply)
    | Crash(instance: nat)

  function Init(settings: Settings, now: int): State {
    State(settings, now, Row(Pending, None, now, 0, now), map[], [], [], None)
  }

  function Goto(s: State, i: nat, pc: Pc): State {
    s.(workers := s.workers[i := pc])
  }

  function Leave(s: State, i: nat): State {
    s.(workers := s.workers - {i})
  }

  function StoreStep(s: State, i: nat, pc: Pc, reply: Reply): State
    requires pc.Delivered?
  {
    var t := s.(row := StoreRow(s.row, i, pc.ok, s.now + Backoff(pc.seen, s.settings.maxAttempts)),
                delivered := if pc.ok && Holds(s.row, i) then Some(pc.recipients) else s.delivered);
    match reply
    case Good => Leave(t, i)
    case EffectThenError => if pc.ok then Goto(t, i, pc.(ok := false)) else Leave(t, i)
    case NoEffect => if pc.ok then Goto(s, i, pc.(ok := false)) else Leave(s, i)
  }

  function Apply(s: State, step: Step): State {
    match step
    case Tick(ms) => s.(now := s.now + ms)
    case Find(i) =>
      if i in s.workers || !Candidate(s.row, s.settings.maxAttempts, s.now) then s else Goto(s, i, Found(s.row.attempts))
    case Claim(i) =>
      if i !in s.workers || !s.workers[i].Found? then s
      else if !Claimable(s.row, s.settings.maxAttempts, s.now) then Leave(s, i)
      else
        var until := s.now + s.settings.lease;
        Goto(s.(row := ClaimRow(s.row, i, until)), i, Claimed(s.workers[i].seen, s.row.attempts + 1, until))
    case Call(i, recipients) =>
      if i !in s.workers || !s.workers[i].Claimed? then s
      else
        var pc := s.workers[i];
        Goto(s.(called := s.called + [pc.attempt]), i, Delivering(pc.seen, pc.until, recipients, 0))
    case Notify(i) =>
      if i !in s.workers || !s.workers[i].Delivering? || s.workers[i].notified >= |s.workers[i].recipients| then s
      else
        var pc := s.workers[i];
        var user := pc.recipients[pc.notified];
        Goto(s.(notifications := if user in s.notifications then s.notifications else s.notifications + [user]),
             i, pc.(notified := pc.notified + 1))
    case Throw(i) =>
      if i !in s.workers || !s.workers[i].Delivering? then s
      else Goto(s, i, Delivered(s.workers[i].seen, s.workers[i].until, s.workers[i].recipients, false))
    case Return(i) =>
      if i !in s.workers || !s.workers[i].Delivering? || s.workers[i].notified < |s.workers[i].recipients| then s
      else Goto(s, i, Delivered(s.workers[i].seen, s.workers[i].until, s.workers[i].recipients, true))
    case Store(i, reply) =>
      if i !in s.workers || !s.workers[i].Delivered? then s else StoreStep(s, i, s.workers[i], reply)
    case Crash(i) => Leave(s, i)
  }

  function Exec(s: State, steps: seq<Step>): State
    decreases |steps|
  {
    if steps == [] then s else Exec(Apply(s, steps[0]), steps[1..])
  }

  // ----- what every step keeps

  predicate Unexpired(pc: Pc, now: int) {
    !pc.Found? && pc.until >= now
  }

  /** A claim that has not expired is the one in the row, unless its outcome was stored already. */
  predicate ClaimFits(row: Row, now: int, i: nat, pc: Pc) {
    Unexpired(pc, now) ==> row.status.Published? || (Holds(row, i) && row.leaseUntil == pc.until)
  }

  ghost predicate OneClaim(workers: map<nat, Pc>, now: int) {
    forall i, j :: i in workers && j in workers && Unexpired(workers[i], now) && Unexpired(workers[j], now) ==> i == j
  }

  ghost predicate OneClaimPerAttempt(workers: map<nat, Pc>) {
    forall i, j :: i in workers && j in workers && workers[i].Claimed? && workers[j].Claimed?
      ==> workers[i].attempt == workers[j].attempt ==> i == j
  }

  predicate AttemptFits(attempts: nat, called: seq<nat>, pc: Pc) {
    pc.Claimed? ==> 1 <= pc.attempt <= attempts && pc.attempt !in called
  }

  predicate DeliveryFits(notifications: seq<nat>, pc: Pc) {
    match pc
    case Delivering(_, _, recipients, n) => n <= |recipients| && forall k :: 0 <= k < n ==> recipients[k] in notifications
    case Delivered(_, _, recipients, ok) => ok ==> forall k :: 0 <= k < |recipients| ==> recipients[k] in notifications
    case _ => true
  }

  predicate NoRepeats(xs: seq<nat>) {
    forall i, j :: 0 <= i < j < |xs| ==> xs[i] != xs[j]
  }

  ghost predicate Inv(s: State) {
    && (forall i :: i in s.workers ==> ClaimFits(s.row, s.now, i, s.workers[i]))
    && (forall i :: i in s.workers ==> AttemptFits(s.row.attempts, s.called, s.workers[i]))
    && OneClaim(s.workers, s.now) && OneClaimPerAttempt(s.workers)
    && (forall n :: n in s.called ==> 1 <= n <= s.row.attempts) && NoRepeats(s.called)
    && s.row.attempts <= s.settings.maxAttempts
    && (forall i :: i in s.workers ==> DeliveryFits(s.notifications, s.workers[i]))
    && NoRepeats(s.notifications)
    && (s.row.status.Published? <==> s.delivered.Some?)
    && (s.delivered.Some? ==> forall u :: u in s.delivered.value ==> u in s.notifications)
  }

  // ----- pieces of steps

  lemma LeaveKeeps(s: State, i: nat)
    requires Inv(s)
    ensures Inv(Leave(s, i))
  {
    hide ClaimFits, AttemptFits, DeliveryFits, NoRepeats, Unexpired;
  }

  /** A worker that moves on within its claim. */
  lemma MoveKeeps(s: State, i: nat, pc: Pc)
    requires Inv(s) && i in s.workers && DeliveryFits(s.notifications, pc) && !pc.Claimed?
    requires pc.Found? || (!s.workers[i].Found? && pc.until == s.workers[i].until)
    ensures Inv(Goto(s, i, pc))
  {
    hide DeliveryFits, NoRepeats;
  }

  lemma TickKeeps(s: State, ms: nat)
    requires Inv(s)
    ensures Inv(s.(now := s.now + ms))
  {
    hide AttemptFits, DeliveryFits, NoRepeats;
  }

  lemma FindKeeps(s: State, i: nat)
    requires Inv(s) && i !in s.workers
    ensures Inv(Goto(s, i, Found(s.row.attempts)))
  {
    hide NoRepeats;
  }

  lemma ClaimKeeps(s: State, i: nat, until: int)
    requires Inv(s) && i in s.workers && s.workers[i].Found? && Claimable(s.row, s.settings.maxAttempts, s.now)
    ensures Inv(Goto(s.(row := ClaimRow(s.row, i, until)), i, Claimed(s.workers[i].seen, s.row.attempts + 1, until)))
  {
    hide DeliveryFits, NoRepeats;
    var pc := Claimed(s.workers[i].seen, s.row.attempts + 1, until);
    var t := Goto(s.(row := ClaimRow(s.row, i, until)), i, pc);
    assert DeliveryFits(s.notifications, pc) by { ClaimedDelivers(s.notifications, pc); }
    assert forall j :: j in s.workers ==> !Unexpired(s.workers[j], s.now);
    assert forall j :: j in t.workers && j != i ==> t.workers[j] == s.workers[j];
  }

  lemma ClaimedDelivers(notifications: seq<nat>, pc: Pc)
    requires pc.Claimed?
    ensures DeliveryFits(notifications, pc)
  {
  }

  lemma CallKeeps(s: State, i: nat, recipients: seq<nat>)
    requires Inv(s) && i in s.workers && s.workers[i].Claimed?
    ensures Inv(Apply(s, Call(i, recipients)))
  {
    assert AttemptFits(s.row.attempts, s.called, s.workers[i]);
    OneMore(s.called, s.workers[i].attempt);
    hide NoRepeats;
  }

  lemma OneMore(xs: seq<nat>, x: nat)
    requires NoRepeats(xs) && x !in xs
    ensures NoRepeats(xs + [x])
  {
  }

  lemma NotifyKeeps(s: State, i: nat)
    requires Inv(s) && i in s.workers && s.workers[i].Delivering? && s.workers[i].notified < |s.workers[i].recipients|
    ensures Inv(Apply(s, Notify(i)))
  {
    hide AttemptFits, ClaimFits, Unexpired;
    var pc := s.workers[i];
    var user := pc.recipients[pc.notified];
    var notifications := if user in s.notifications then s.notifications else s.notifications + [user];
    MoreNotifications(s, notifications);
    assert DeliveryFits(s.notifications, pc);
    MoveKeeps(s.(notifications := notifications), i, pc.(notified := pc.notified + 1));
  }

  lemma MoreNotifications(s: State, notifications: seq<nat>)
    requires Inv(s) && NoRepeats(notifications) && forall u :: u in s.notifications ==> u in notifications
    ensures Inv(s.(notifications := notifications))
  {
    hide AttemptFits, ClaimFits;
  }

  /** The row as one holder of it leaves it; nobody else's claim was unexpired. */
  lemma StoreKeeps(s: State, i: nat, retryAt: int)
    requires Inv(s) && i in s.workers && s.workers[i].Delivered?
    ensures var pc := s.workers[i];
            var t := s.(row := StoreRow(s.row, i, pc.ok, retryAt),
                        delivered := if pc.ok && Holds(s.row, i) then Some(pc.recipients) else s.delivered);
            Inv(Leave(t, i)) && (pc.ok ==> Inv(Goto(t, i, pc.(ok := false))))
  {
    hide NoRepeats;
    var pc := s.workers[i];
    assert DeliveryFits(s.notifications, pc);
    assert ClaimFits(s.row, s.now, i, pc);
  }

  lemma StepKeepsInv(s: State, step: Step)
    requires Inv(s)
    ensures Inv(Apply(s, step))
  {
    hide Inv, Candidate, Backoff, StoreRow, ClaimRow;
    match step
    case Tick(ms) => TickKeeps(s, ms);
    case Find(i) =>
      if i !in s.workers {
        FindKeeps(s, i);
      }
    case Claim(i) =>
      if i in s.workers && s.workers[i].Found? {
        LeaveKeeps(s, i);
        if Claimable(s.row, s.settings.maxAttempts, s.now) {
          ClaimKeeps(s, i, s.now + s.settings.lease);
        }
      }
    case Call(i, recipients) =>
      if i in s.workers && s.workers[i].Claimed? {
        CallKeeps(s, i, recipients);
      }
    case Notify(i) =>
      if i in s.workers && s.workers[i].Delivering? && s.workers[i].notified < |s.workers[i].recipients| {
        NotifyKeeps(s, i);
      }
    case Throw(i) =>
      if i in s.workers && s.workers[i].Delivering? {
        MoveKeeps(s, i, Delivered(s.workers[i].seen, s.workers[i].until, s.workers[i].recipients, false));
      }
    case Return(i) =>
      if i in s.workers && s.workers[i].Delivering? && s.workers[i].notified >= |s.workers[i].recipients| {
        DeliveryIsComplete(s, i);
        MoveKeeps(s, i, Delivered(s.workers[i].seen, s.workers[i].until, s.workers[i].recipients, true));
      }
    case Store(i, reply) =>
      if i in s.workers && s.workers[i].Delivered? {
        StoreKeeps(s, i, s.now + Backoff(s.workers[i].seen, s.settings.maxAttempts));
        LeaveKeeps(s, i);
        MoveKeeps(s, i, s.workers[i].(ok := false));
      }
    case Crash(i) => LeaveKeeps(s, i);
  }

  lemma DeliveryIsComplete(s: State, i: nat)
    requires Inv(s) && i in s.workers && s.workers[i].Delivering? && s.workers[i].notified >= |s.workers[i].recipients|
    ensures DeliveryFits(s.notifications, Delivered(s.workers[i].seen, s.workers[i].until, s.workers[i].recipients, true))
  {
    assert DeliveryFits(s.notifications, s.workers[i]);
  }

  lemma {:induction false} ExecKeepsInv(s: State, steps: seq<Step>)
    requires Inv(s)
    ensures Inv(Exec(s, steps))
    decreases |steps|
  {
    hide Inv, Apply;
    if steps != [] {
      StepKeepsInv(s, steps[0]);
      ExecKeepsInv(Apply(s, steps[0]), steps[1..]);
    }
  }

  lemma {:induction false} NumbersBelow(numbers: seq<nat>, k: nat)
    requires NoRepeats(numbers) && forall n :: n in numbers ==> 1 <= n <= k
    ensures |numbers| <= k
    decreases k
  {
    if numbers != [] {
      assert numbers[0] in numbers;
      if k in numbers {
        var i :| 0 <= i < |numbers| && numbers[i] == k;
        var others := numbers[..i] + numbers[i + 1..];
        assert forall n :: n in others ==> n in numbers && n != k;
        NumbersBelow(others, k - 1);
      } else {
        NumbersBelow(numbers, k - 1);
      }
    }
  }

  /**
   * After every run: at most one instance holds a claim that has not expired; the publisher ran at most once in each of the
   * attempts made so far, so at most `maxAttempts` times in all; no user has two notifications of the event; and the row is
   * PUBLISHED if and only if a delivery returned and was stored, and then everybody it was for has one.
   */
  lemma DeliveryIsBounded(settings: Settings, now: int, steps: seq<Step>)
    ensures var s := Exec(Init(settings, now), steps);
            && OneClaim(s.workers, s.now)
            && NoRepeats(s.called) && (forall n :: n in s.called ==> 1 <= n <= s.row.attempts)
            && |s.called| <= s.row.attempts <= settings.maxAttempts
            && NoRepeats(s.notifications)
            && (s.row.status.Published? <==> s.delivered.Some?)
            && (s.delivered.Some? ==> forall u :: u in s.delivered.value ==> u in s.notifications)
  {
    hide Apply;
    ExecKeepsInv(Init(settings, now), steps);
    ExecKeepsSettings(Init(settings, now), steps);
    var s := Exec(Init(settings, now), steps);
    NumbersBelow(s.called, s.row.attempts);
  }

  lemma {:induction false} ExecKeepsSettings(s: State, steps: seq<Step>)
    ensures Exec(s, steps).settings == s.settings
    decreases |steps|
  {
    if steps != [] {
      ExecKeepsSettings(Apply(s, steps[0]), steps[1..]);
    }
  }

  /**
   * If the outcome of a delivery cannot be stored, the instance stores a failure instead, unless the outcome is there after
   * all; if even that fails, it stops, and the event waits for its claim to expire.
   */
  lemma LostOutcomeIsFailure(s: State, i: nat, reply: Reply)
    requires i in s.workers && s.workers[i].Delivered? && Holds(s.row, i)
    ensures s.workers[i].ok && reply.NoEffect? ==>
              var t := Apply(s, Store(i, reply));
              && t.row == s.row && i in t.workers && t.workers[i] == s.workers[i].(ok := false)
              && Apply(t, Store(i, Good)).row.status.Failed? && Apply(t, Store(i, Good)).row.nextAttemptAt > s.now
    ensures s.workers[i].ok && reply.EffectThenError? ==>
              var t := Apply(s, Store(i, reply));
              t.row.status.Published? && i in t.workers && Apply(t, Store(i, Good)).row == t.row
    ensures !s.workers[i].ok || reply.Good? ==> i !in Apply(s, Store(i, reply)).workers
    ensures !s.workers[i].ok && !reply.NoEffect? ==> Apply(s, Store(i, reply)).row.status.Failed?
  {
  }

  // ----- the end of an event

  /** Published, or out of attempts with nobody left who could still store an outcome. */
  predicate Settled(s: State) {
    || s.row.status.Published?
    || (s.row.attempts >= s.settings.maxAttempts && forall i :: i in s.workers ==> s.workers[i].Found? || !Holds(s.row, i))
  }

  lemma SettledStays(s: State, step: Step)
    requires Settled(s)
    ensures Settled(Apply(s, step)) && Apply(s, step).row == s.row
  {
    hide Candidate, Backoff;
  }

  /** Nothing changes a settled event any more: PUBLISHED is absorbing, and a crash in the last attempt leaves it PROCESSING. */
  lemma {:induction false} SettledIsFinal(s: State, steps: seq<Step>)
    requires Settled(s)
    ensures Exec(s, steps).row == s.row
    decreases |steps|
  {
    hide Apply, Settled;
    if steps != [] {
      SettledStays(s, steps[0]);
      SettledIsFinal(Apply(s, steps[0]), steps[1..]);
    }
  }

  lemma FreshInstance(workers: map<nat, Pc>) returns (i: nat)
    ensures i !in workers
  {
    i := 0;
    var seen: set<nat> := {};
    while i in workers
      invariant seen <= workers.Keys && forall n :: n in seen <==> 0 <= n < i
      decreases workers.Keys - seen
    {
      seen := seen + {i};
      i := i + 1;
    }
  }

  lemma ExecOne(s: State, a: Step)
    ensures Exec(s, [a]) == Apply(s, a)
  {
    hide Apply;
    assert [a][1..] == [];
  }

  lemma ExecTwo(s: State, a: Step, b: Step)
    ensures Exec(s, [a, b]) == Apply(Apply(s, a), b)
  {
    hide Apply;
    assert [a, b][1..] == [b];
    ExecOne(Apply(s, a), b);
  }

  lemma ExecThree(s: State, a: Step, b: Step, c: Step)
    ensures Exec(s, [a, b, c]) == Apply(Apply(Apply(s, a), b), c)
  {
    hide Apply;
    assert [a, b, c][1..] == [b, c];
    ExecTwo(Apply(s, a), b, c);
  }

  /** An event that is not settled can still change: time passes and somebody claims it, or its holder stores an outcome. */
  lemma UnsettledCanChange(s: State) returns (steps: seq<Step>)
    requires !Settled(s)
    ensures Exec(s, steps).row != s.row
  {
    if s.row.attempts < s.settings.maxAttempts {
      var i := FreshInstance(s.workers);
      var later := if s.row.nextAttemptAt > s.row.leaseUntil then s.row.nextAttemptAt else s.row.leaseUntil;
      var ms := if later < s.now then 0 else later - s.now + 1;
      steps := [Tick(ms), Find(i), Claim(i)];
      ExecThree(s, Tick(ms), Find(i), Claim(i));
    } else {
      var i :| i in s.workers && !s.workers[i].Found? && Holds(s.row, i);
      if s.workers[i].Claimed? {
        steps := [Call(i, []), Return(i), Store(i, Good)];
        ExecThree(s, Call(i, []), Return(i), Store(i, Good));
      } else if s.workers[i].Delivering? {
        steps := [Throw(i), Store(i, Good)];
        ExecTwo(s, Throw(i), Store(i, Good));
      } else {
        steps := [Store(i, Good)];
        ExecOne(s, Store(i, Good));
      }
    }
  }

  lemma {:induction false} ExecChain(s: State, xs: seq<Step>, ys: seq<Step>)
    ensures Exec(s, xs + ys) == Exec(Exec(s, xs), ys)
    decreases |xs|
  {
    hide Apply;
    if xs == [] {
      assert xs + ys == ys;
    } else {
      assert (xs + ys)[1..] == xs[1..] + ys;
      ExecChain(Apply(s, xs[0]), xs[1..], ys);
    }
  }

  /** One by one, a delivery notifies whoever is left. */
  lemma {:induction false} NotifiesAll(s: State, i: nat) returns (steps: seq<Step>)
    requires i in s.workers && s.workers[i].Delivering? && s.workers[i].notified <= |s.workers[i].recipients|
    ensures var t := Exec(s, steps);
            t == s.(notifications := t.notifications, workers := s.workers[i := s.workers[i].(notified := |s.workers[i].recipients|)])
    decreases |s.workers[i].recipients| - s.workers[i].notified
  {
    if s.workers[i].notified == |s.workers[i].recipients| {
      steps := [];
    } else {
      var t := Apply(s, Notify(i));
      var more := NotifiesAll(t, i);
      steps := [Notify(i)] + more;
    }
  }

  /** An event that is not published and has attempts left can still be delivered, to whomever it is for. */
  lemma CanStillBeDelivered(s: State, recipients: seq<nat>) returns (steps: seq<Step>)
    requires !s.row.status.Published? && s.row.attempts < s.settings.maxAttempts
    ensures var t := Exec(s, steps); t.row.status.Published? && t.delivered == Some(recipients)
  {
    hide Apply;
    var i, claim := ClaimsAgain(s);
    var s1 := Exec(s, claim);
    var s2 := Apply(s1, Call(i, recipients));
    CallsAlone(s1, i, recipients);
    var notify := NotifiesAll(s2, i);
    var s3 := Exec(s2, notify);
    DeliversAlone(s3, i);
    ExecTwo(s3, Return(i), Store(i, Good));
    ExecOne(s1, Call(i, recipients));
    ExecChain(s2, notify, [Return(i), Store(i, Good)]);
    ExecChain(s1, [Call(i, recipients)], notify + [Return(i), Store(i, Good)]);
    ExecChain(s, claim, [Call(i, recipients)] + (notify + [Return(i), Store(i, Good)]));
    steps := claim + ([Call(i, recipients)] + (notify + [Return(i), Store(i, Good)]));
  }

  lemma ClaimsAgain(s: State) returns (i: nat, steps: seq<Step>)
    requires !s.row.status.Published? && s.row.attempts < s.settings.maxAttempts
    ensures var t := Exec(s, steps); i in t.workers && t.workers[i].Claimed? && Holds(t.row, i)
  {
    i := FreshInstance(s.workers);
    var later := if s.row.nextAttemptAt > s.row.leaseUntil then s.row.nextAttemptAt else s.row.leaseUntil;
    var ms := if later < s.now then 0 else later - s.now + 1;
    steps := [Tick(ms), Find(i), Claim(i)];
    ExecThree(s, Tick(ms), Find(i), Claim(i));
  }

  lemma CallsAlone(s: State, i: nat, recipients: seq<nat>)
    requires i in s.workers && s.workers[i].Claimed? && Holds(s.row, i)
    ensures var t := Apply(s, Call(i, recipients));
            i in t.workers && t.workers[i] == Delivering(s.workers[i].seen, s.workers[i].until, recipients, 0) && Holds(t.row, i)
  {
  }

  lemma DeliversAlone(s: State, i: nat)
    requires i in s.workers && s.workers[i].Delivering? && s.workers[i].notified == |s.workers[i].recipients| && Holds(s.row, i)
    ensures var t := Apply(Apply(s, Return(i)), Store(i, Good));
            t.row.status.Published? && t.delivered == Some(s.workers[i].recipients)
  {
  }

  /** The claiming update repeats the query's conditions. */
  lemma CandidatesAreClaimable(row: Row, maxAttempts: nat, now: int)
    ensures Candidate(row, maxAttempts, now) <==> Claimable(row, maxAttempts, now) && row.nextAttemptAt <= now
  {
  }

  // ----- one undisturbed poll over the whole table

  /** One attempt from claim to outcome. */
  function Attempted(row: Row, settings: Settings, instance: nat, now: int, ok: bool): Row {
    StoreRow(ClaimRow(row, instance, now + settings.lease), instance, ok, now + Backoff(row.attempts, settings.maxAttempts))
  }

  /** A row after an attempt, field by field. */
  predicate EndsAs(was: Row, row: Row, settings: Settings, now: int, ok: bool) {
    && row.owner.None? && row.attempts == was.attempts + 1
    && (ok ==> row.status.Published?)
    && (!ok ==> row.status.Failed? && row.nextAttemptAt == now + (if row.attempts >= settings.maxAttempts then 86_400_000 else RetryDelay(was.attempts)))
  }

  /** A second, doubled for each attempt before. */
  function RetryDelay(before: nat): (ms: int)
    ensures ms == 1000 * Pow2(before)
  {
    if before == 0 then 1000 else RetryDelay(before - 1) + RetryDelay(before - 1)
  }

  lemma AttemptEndsAs(row: Row, settings: Settings, instance: nat, now: int, ok: bool)
    ensures EndsAs(row, Attempted(row, settings, instance, now, ok), settings, now, ok)
  {
    hide Pow2;
  }

  /** How many rows before the given index are candidates. */
  function CandidatesBefore(rows: seq<Row>, settings: Settings, now: int, k: nat): nat
    requires k <= |rows|
  {
    if k == 0 then 0
    else CandidatesBefore(rows, settings, now, k - 1) + (if Candidate(rows[k - 1], settings.maxAttempts, now) then 1 else 0)
  }

  /** A row is in the batch if it is a candidate and fewer than `batchSize` candidates are older. */
  predicate InBatch(rows: seq<Row>, settings: Settings, now: int, batchSize: nat, k: nat)
    requires k < |rows|
  {
    Candidate(rows[k], settings.maxAttempts, now) && CandidatesBefore(rows, settings, now, k) < batchSize
  }

  /** How many rows before the given index are in the batch with the given outcome. */
  function Outcomes(rows: seq<Row>, settings: Settings, now: int, batchSize: nat, outcomes: seq<bool>, ok: bool, k: nat): nat
    requires k <= |rows| == |outcomes|
  {
    if k == 0 then 0
    else
      var here := if InBatch(rows, settings, now, batchSize, k - 1) && outcomes[k - 1] == ok then 1 else 0;
      Outcomes(rows, settings, now, batchSize, outcomes, ok, k - 1) + here
  }

  class OutboxTable {
    /** Rows in order of creation. */
    var rows: seq<Row>

    method Candidates(settings: Settings, batchSize: nat, now: int) returns (found: seq<nat>)
      ensures forall k :: 0 <= k < |rows| ==> (k in found <==> InBatch(rows, settings, now, batchSize, k))
      ensures forall i :: 0 <= i < |found| ==> found[i] < |rows|
      ensures forall i, j :: 0 <= i < j < |found| ==> found[i] < found[j]
      ensures |found| <= batchSize
      ensures forall k :: 0 <= k < |rows| && k !in found && Candidate(rows[k], settings.maxAttempts, now) ==>
                |found| == batchSize && forall i :: 0 <= i < |found| ==> found[i] < k
    {
      found := [];
      for k := 0 to |rows|
        invariant forall i :: 0 <= i < |found| ==> found[i] < k
        invariant forall i, j :: 0 <= i < j < |found| ==> found[i] < found[j]
        invariant forall j :: 0 <= j < k ==> (j in found <==> InBatch(rows, settings, now, batchSize, j))
        invariant |found| <= batchSize
        invariant forall j :: 0 <= j < k && j !in found && Candidate(rows[j], settings.maxAttempts, now) ==>
                    |found| == batchSize && forall i :: 0 <= i < |found| ==> found[i] < j
        invariant |found| == if CandidatesBefore(rows, settings, now, k) < batchSize then CandidatesBefore(rows, settings, now, k) else batchSize
      {
        if Candidate(rows[k], settings.maxAttempts, now) && |found| < batchSize {
          found := found + [k];
        }
      }
    }

    /** Claim, publish with the given outcome, and store it. */
    method Attempt(k: nat, instance: nat, settings: Settings, now: int, ok: bool) returns (claimed: bool)
      requires k < |rows|
      modifies this
      ensures claimed == Claimable(old(rows)[k], settings.maxAttempts, now)
      ensures rows == if claimed then old(rows)[k := Attempted(old(rows)[k], settings, instance, now, ok)] else old(rows)
    {
      claimed := Claimable(rows[k], settings.maxAttempts, now);
      if claimed {
        var seen := rows[k].attempts;
        rows := rows[k := ClaimRow(rows[k], instance, now + settings.lease)];
        rows := rows[k := StoreRow(rows[k], instance, ok, now + Backoff(seen, settings.maxAttempts))];
      }
    }

    method PublishOutboxEvents(instance: nat, settings: Settings, batchSize: nat, now: int, outcomes: seq<bool>)
      returns (published: nat, failed: nat)
      requires |outcomes| == |rows|
      modifies this
      ensures |rows| == |old(rows)|
      ensures forall k :: 0 <= k < |rows| ==>
                rows[k] == if InBatch(old(rows), settings, now, batchSize, k)
                           then Attempted(old(rows)[k], settings, instance, now, outcomes[k]) else old(rows)[k]
      ensures forall k :: 0 <= k < |rows| && InBatch(old(rows), settings, now, batchSize, k) ==>
                EndsAs(old(rows)[k], rows[k], settings, now, outcomes[k])
      ensures published == Outcomes(old(rows), settings, now, batchSize, outcomes, true, |rows|)
      ensures failed == Outcomes(old(rows), settings, now, batchSize, outcomes, false, |rows|)
    {
      hide Attempted, CandidatesBefore, InBatch, Candidate, Claimable, EndsAs;
      var candidates := Candidates(settings, batchSize, now);
      ghost var was := rows;
      published, failed := 0, 0;
      ghost var upTo := 0;
      for n := 0 to |candidates|
        invariant |rows| == |was| && upTo <= |was|
        invariant upTo == if n == 0 then 0 else candidates[n - 1] + 1
        invariant forall k :: 0 <= k < upTo ==>
                    rows[k] == if InBatch(was, settings, now, batchSize, k) then Attempted(was[k], settings, instance, now, outcomes[k]) else was[k]
        invariant forall k :: upTo <= k < |rows| ==> rows[k] == was[k]
        invariant published == Outcomes(was, settings, now, batchSize, outcomes, true, upTo)
        invariant failed == Outcomes(was, settings, now, batchSize, outcomes, false, upTo)
      {
        var k := candidates[n];
        SkipsOthers(was, settings, now, batchSize, outcomes, upTo, k);
        assert k in candidates;
        BatchIsClaimable(was, settings, now, batchSize, k);
        var claimed := Attempt(k, instance, settings, now, outcomes[k]);
        if claimed && outcomes[k] {
          published := published + 1;
        } else if claimed {
          failed := failed + 1;
        }
        upTo := k + 1;
      }
      SkipsOthers(was, settings, now, batchSize, outcomes, upTo, |was|);
      AttemptsEnd(was, settings, instance, now, outcomes);
    }
  }

  lemma AttemptsEnd(rows: seq<Row>, settings: Settings, instance: nat, now: int, outcomes: seq<bool>)
    requires |outcomes| == |rows|
    ensures forall k :: 0 <= k < |rows| ==> EndsAs(rows[k], Attempted(rows[k], settings, instance, now, outcomes[k]), settings, now, outcomes[k])
  {
    forall k | 0 <= k < |rows|
      ensures EndsAs(rows[k], Attempted(rows[k], settings, instance, now, outcomes[k]), settings, now, outcomes[k])
    {
      AttemptEndsAs(rows[k], settings, instance, now, outcomes[k]);
    }
  }

  lemma BatchIsClaimable(rows: seq<Row>, settings: Settings, now: int, batchSize: nat, k: nat)
    requires k < |rows| && InBatch(rows, settings, now, batchSize, k)
    ensures Claimable(rows[k], settings.maxAttempts, now)
  {
  }

  lemma {:induction false} SkipsOthers(rows: seq<Row>, settings: Settings, now: int, batchSize: nat, outcomes: seq<bool>, low: nat, high: nat)
    requires low <= high <= |rows| == |outcomes|
    requires forall k :: low <= k < high ==> !InBatch(rows, settings, now, batchSize, k)
    ensures forall ok ::
              Outcomes(rows, settings, now, batchSize, outcomes, ok, high) == Outcomes(rows, settings, now, batchSize, outcomes, ok, low)
    decreases high
  {
    if low < high {
      SkipsOthers(rows, settings, now, batchSize, outcomes, low, high - 1);
    }
  }
}
