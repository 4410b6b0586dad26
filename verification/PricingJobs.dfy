/**
 * One leased pricing job with its items and their dead letters (pricing-service.ts, dead-letter-service.ts).  Workers
 * claim the job by a guarded update, work through its queued items with writes that no lease guards, and store the
 * job's progress with writes that only the lease holder can make; administrators requeue failed items.
 */
module PricingJobs {
  import opened Wrappers

  datatype JobStatus = Queued | Running | Completed | Partial | Failed

  datatype ItemStatus = ItemQueued | ItemRunning | ItemCompleted | ItemNoMatches | ItemFailed

  datatype Letter = Open | Requeued | Resolved

  /** `claims` counts the claims ever made; `refreshed` records that the row's terminal status came from a refresh. */
  datatype Row = Row(status: JobStatus, owner: Option<nat>, claims: nat, completed: nat, noMatches: nat, failed: nat, refreshed: bool)

  predicate TerminalItem(st: ItemStatus) {
    st.ItemCompleted? || st.ItemNoMatches? || st.ItemFailed?
  }

  function Count(items: seq<ItemStatus>, st: ItemStatus): (n: nat)
    ensures n <= |items|
  {
    if items == [] then 0 else (if items[0] == st then 1 else 0) + Count(items[1..], st)
  }

  predicate AllTerminal(items: seq<ItemStatus>) {
    forall i :: 0 <= i < |items| ==> TerminalItem(items[i])
  }

  /** The status that the items' statuses stand for. */
  function PublicJobStatus(items: seq<ItemStatus>): JobStatus {
    var failed := Count(items, ItemFailed);
    if !AllTerminal(items) then Running
    else if failed == |items| then Failed
    else if failed > 0 then Partial
    else Completed
  }

  /** The same from the three counters. */
  function StatusOfCounts(completed: nat, noMatches: nat, failed: nat): JobStatus {
    if completed + noMatches == 0 then Failed else if failed > 0 then Partial else Completed
  }

  lemma {:induction false} TerminalItemsAddUp(items: seq<ItemStatus>)
    ensures AllTerminal(items) <==> Count(items, ItemCompleted) + Count(items, ItemNoMatches) + Count(items, ItemFailed) == |items|
    ensures Count(items, ItemCompleted) + Count(items, ItemNoMatches) + Count(items, ItemFailed) <= |items|
  {
    if items != [] {
      TerminalItemsAddUp(items[1..]);
      assert AllTerminal(items) <==> TerminalItem(items[0]) && AllTerminal(items[1..]) by {
        assert forall i :: 0 < i < |items| ==> items[i] == items[1..][i - 1];
      }
    }
  }

  function ItemsFrom(items: seq<ItemStatus>, k: nat, st: ItemStatus): set<nat> {
    set i: nat | k <= i < |items| && items[i] == st
  }

  function ItemsThatAre(items: seq<ItemStatus>, st: ItemStatus): set<nat> {
    ItemsFrom(items, 0, st)
  }

  lemma {:induction false} CountIsSize(items: seq<ItemStatus>, k: nat, st: ItemStatus)
    requires k <= |items|
    ensures Count(items[k..], st) == |ItemsFrom(items, k, st)|
    decreases |items| - k
  {
    if k < |items| {
      CountIsSize(items, k + 1, st);
      assert items[k..][1..] == items[k + 1..];
      assert ItemsFrom(items, k, st) == ItemsFrom(items, k + 1, st) + (if items[k] == st then {k} else {});
    }
  }

  lemma CountsAreSizes(items: seq<ItemStatus>)
    ensures forall st :: Count(items, st) == |ItemsThatAre(items, st)|
  {
    assert items[0..] == items;
    forall st
      ensures Count(items, st) == |ItemsThatAre(items, st)|
    {
      CountIsSize(items, 0, st);
    }
  }

  // ----- what the writes do

  predicate Holds(row: Row, worker: nat) {
    row.status.Running? && row.owner == Some(worker)
  }

  function ClaimRow(row: Row, worker: nat): Row {
    row.(status := Running, owner := Some(worker), claims := row.claims + 1, refreshed := false)
  }

  /** The refresh, from the statuses read before. */
  function RefreshRow(row: Row, worker: nat, seen: seq<ItemStatus>): Row {
    var status := PublicJobStatus(seen);
    if !Holds(row, worker) then row
    else Row(status, if status.Running? then row.owner else None, row.claims,
             Count(seen, ItemCompleted), Count(seen, ItemNoMatches), Count(seen, ItemFailed), !status.Running?)
  }

  /**
   * What the lease holder's refresh writes: each counter is the number of items in that state, the status is that of a
   * job still at work, all failed, partly failed, or done, and the lease is kept only while work is left.
   */
  lemma RefreshTells(row: Row, worker: nat, seen: seq<ItemStatus>)
    requires Holds(row, worker)
    ensures var r := RefreshRow(row, worker, seen);
            var failed := |ItemsThatAre(seen, ItemFailed)|;
            var done := forall i :: 0 <= i < |seen| ==> seen[i].ItemCompleted? || seen[i].ItemNoMatches? || seen[i].ItemFailed?;
            && r.completed == |ItemsThatAre(seen, ItemCompleted)| && r.noMatches == |ItemsThatAre(seen, ItemNoMatches)|
            && r.failed == failed && r.claims == row.claims
            && (r.status.Running? <==> !done) && (r.status.Failed? <==> done && failed == |seen|)
            && (r.status.Partial? <==> done && 0 < failed < |seen|) && (r.status.Completed? <==> done && failed == 0 < |seen|)
            && r.owner == (if done then None else row.owner)
  {
    CountsAreSizes(seen);
  }

  function FailRow(row: Row, worker: nat): Row {
    if Holds(row, worker) then row.(status := Failed, owner := None) else row
  }

  function Requeue(row: Row): Row {
    row.(status := Queued, owner := None, refreshed := false)
  }

  function ResolveLetter(letter: Option<Letter>): Option<Letter> {
    if letter == Some(Requeued) then Some(Resolved) else letter
  }

  function QueuedItems(items: seq<ItemStatus>): seq<nat> {
    if items == [] then []
    else QueuedItems(items[..|items| - 1]) + (if items[|items| - 1].ItemQueued? then [|items| - 1] else [])
  }

  function ReclaimedItems(items: seq<ItemStatus>): (r: seq<ItemStatus>)
    ensures |r| == |items|
    ensures forall i :: 0 <= i < |items| ==> r[i] == if items[i].ItemRunning? then ItemQueued else items[i]
  {
    seq(|items|, i requires 0 <= i < |items| => if items[i].ItemRunning? then ItemQueued else items[i])
  }

  // ----- the transition system

  datatype Pc =
    | Loading | Next
    | Working(item: nat) | Storing(item: nat, found: bool) | FailingItem(item: nat)
    | Renewing | Reading | Writing(seen: seq<ItemStatus>)
    | FailingJob

  datatype Run = Run(claim: nat, todo: seq<nat>, pc: Pc)

  datatype State = State(
    oneRunner: bool, row: Row, items: seq<ItemStatus>, letters: seq<Option<Letter>>, runs: map<nat, Run>, requeues: map<nat, nat>)

  datatype Reply = Good | EffectThenError | NoEffect

  datatype Step =
    | Claim(worker: nat, reply: Reply)
    | Advance(worker: nat, reply: Reply, found: bool)
    | Crash(worker: nat)
    | Reclaim
    | ReadRequeue(request: nat, item: nat)
    | CommitRequeue(request: nat)
    | DropRequeue(request: nat)

  function Init(oneRunner: bool, n: nat): State {
    State(oneRunner, Row(Queued, None, 0, 0, 0, 0, false), seq(n, _ => ItemQueued), seq(n, _ => None), map[], map[])
  }

  function Goto(s: State, w: nat, pc: Pc): State
    requires w in s.runs
  {
    s.(runs := s.runs[w := s.runs[w].(pc := pc)])
  }

  function End(s: State, w: nat): State {
    s.(runs := s.runs - {w})
  }

  /** After a database write: on if it was acknowledged, otherwise to the given handler. */
  function After(s: State, t: State, w: nat, reply: Reply, pc: Pc, handler: Pc): State
    requires w in s.runs && w in t.runs
  {
    match reply
    case Good => Goto(t, w, pc)
    case EffectThenError => Goto(t, w, handler)
    case NoEffect => Goto(s, w, handler)
  }

  function WithItem(s: State, i: nat, st: ItemStatus, letter: Option<Letter>): State
    requires i < |s.items| == |s.letters|
  {
    s.(items := s.items[i := st], letters := s.letters[i := letter])
  }

  /** The items a run names exist. */
  predicate InRange(s: State, w: nat) {
    && |s.items| == |s.letters|
    && (w in s.runs ==>
          && (forall k :: 0 <= k < |s.runs[w].todo| ==> s.runs[w].todo[k] < |s.items|)
          && (s.runs[w].pc.Working? || s.runs[w].pc.Storing? || s.runs[w].pc.FailingItem? ==> s.runs[w].pc.item < |s.items|))
  }

  function RunStep(s: State, w: nat, reply: Reply, found: bool): State
    requires w in s.runs && InRange(s, w)
  {
    var run := s.runs[w];
    match run.pc
    case Loading =>
      if reply.Good? then s.(runs := s.runs[w := Run(run.claim, QueuedItems(s.items), Next)]) else Goto(s, w, FailingJob)
    case Next =>
      if run.todo == [] then End(s, w)
      else
        var i := run.todo[0];
        var u := s.(runs := s.runs[w := run.(todo := run.todo[1..])]);
        After(u, WithItem(u, i, ItemRunning, u.letters[i]), w, reply, Working(i), FailingJob)
    case Working(i) => Goto(s, w, if reply.Good? then Storing(i, found) else FailingItem(i))
    case Storing(i, f) =>
      After(s, WithItem(s, i, if f then ItemCompleted else ItemNoMatches, ResolveLetter(s.letters[i])), w, reply, Renewing, FailingItem(i))
    case FailingItem(i) => After(s, WithItem(s, i, ItemFailed, Some(Open)), w, reply, Renewing, FailingJob)
    case Renewing => Goto(s, w, if reply.Good? then Reading else FailingJob)
    case Reading => Goto(s, w, if reply.Good? then Writing(s.items) else FailingJob)
    case Writing(seen) => After(s, s.(row := RefreshRow(s.row, w, seen)), w, reply, Next, FailingJob)
    case FailingJob => End(if reply.NoEffect? then s else s.(row := FailRow(s.row, w)), w)
  }

  function ClaimStep(s: State, w: nat, reply: Reply): State {
    if reply.NoEffect? then s
    else
      var row := ClaimRow(s.row, w);
      s.(row := row, runs := s.runs[w := Run(row.claims, [], if reply.Good? then Loading else FailingJob)])
  }

  function Apply(s: State, step: Step): State {
    match step
    case Claim(w, reply) =>
      if !s.row.status.Queued? || w in s.runs || (s.oneRunner && s.runs != map[]) then s else ClaimStep(s, w, reply)
    case Advance(w, reply, found) => if w in s.runs && InRange(s, w) then RunStep(s, w, reply, found) else s
    case Crash(w) => End(s, w)
    case Reclaim =>
      if s.row.status.Running? then s.(row := Requeue(s.row), items := ReclaimedItems(s.items)) else s
    case ReadRequeue(r, i) =>
      if r in s.requeues || i >= |s.items| || i >= |s.letters| || s.letters[i] != Some(Open) || !s.items[i].ItemFailed?
         || s.row.status.Running? || s.row.status.Queued? then s
      else s.(requeues := s.requeues[r := i])
    case CommitRequeue(r) =>
      if r !in s.requeues || s.requeues[r] >= |s.items| || s.requeues[r] >= |s.letters| then s
      else
        var i := s.requeues[r];
        s.(items := s.items[i := ItemQueued], letters := s.letters[i := Some(Requeued)], row := Requeue(s.row), requeues := s.requeues - {r})
    case DropRequeue(r) => s.(requeues := s.requeues - {r})
  }

  function Exec(s: State, steps: seq<Step>): State
    decreases |steps|
  {
    if steps == [] then s else Exec(Apply(s, steps[0]), steps[1..])
  }

  // ----- what single steps are for

  /** A queued job can be claimed by a worker that is not at work on it; a lost answer leads to the error handler. */
  lemma ClaimExactly(s: State, w: nat, reply: Reply)
    ensures var t := Apply(s, Claim(w, reply));
            if s.row.status.Queued? && w !in s.runs && (s.oneRunner ==> s.runs == map[]) && !reply.NoEffect?
            then && t.row == s.row.(status := Running, owner := Some(w), claims := s.row.claims + 1, refreshed := false)
                 && t == s.(row := t.row, runs := s.runs[w := Run(t.row.claims, [], if reply.Good? then Loading else FailingJob)])
            else t == s
  {
  }

  /** The error handler of a run fails the job if the lease is still its own, and ends the run. */
  lemma JobFailsExactly(s: State, w: nat, reply: Reply, found: bool)
    requires w in s.runs && InRange(s, w) && s.runs[w].pc.FailingJob?
    ensures var t := Apply(s, Advance(w, reply, found));
            && w !in t.runs && t.items == s.items && t.letters == s.letters
            && (s.row.status.Running? && s.row.owner == Some(w) && !reply.NoEffect? ==> t.row == s.row.(status := Failed, owner := None))
            && (!(s.row.status.Running? && s.row.owner == Some(w)) || reply.NoEffect? ==> t.row == s.row)
  {
  }

  /** Only a failed item with an open letter can be requeued, and only while the job is neither running nor queued. */
  lemma RequeueExactly(s: State, r: nat, i: nat)
    requires r !in s.requeues && |s.items| == |s.letters|
    ensures r in Apply(s, ReadRequeue(r, i)).requeues <==>
              i < |s.items| && s.letters[i] == Some(Open) && s.items[i].ItemFailed? && !s.row.status.Running? && !s.row.status.Queued?
    ensures r in Apply(s, ReadRequeue(r, i)).requeues ==>
              var t := Apply(Apply(s, ReadRequeue(r, i)), CommitRequeue(r));
              && t.items == s.items[i := ItemQueued] && t.letters == s.letters[i := Some(Requeued)]
              && t.row == s.row.(status := Queued, owner := None, refreshed := false) && t.requeues == s.requeues
  {
  }

  function Advances(s: State, w: nat, found: bool, n: nat): State {
    if n == 0 then s else Apply(Advances(s, w, found, n - 1), Advance(w, Good, found))
  }

  /**
   * One item, undisturbed: its result and the job's progress are stored, a requeued letter is resolved, and the run goes on
   * with the next item.
   */
  lemma ItemSucceeds(s: State, w: nat, found: bool)
    requires w in s.runs && InRange(s, w) && s.runs[w].pc.Next? && s.runs[w].todo != []
    ensures var t, i := Advances(s, w, found, 6), s.runs[w].todo[0];
            && t.items == s.items[i := if found then ItemCompleted else ItemNoMatches]
            && t.letters == s.letters[i := if s.letters[i] == Some(Requeued) then Some(Resolved) else s.letters[i]]
            && t.row == RefreshRow(s.row, w, t.items)
            && w in t.runs && t.runs[w] == Run(s.runs[w].claim, s.runs[w].todo[1..], Next)
  {
    hide RefreshRow, Apply, Advances;
    FirstMoves(s, w, found);
    var s2 := Advances(s, w, found, 2);
    StoresResult(s2, w, found);
    var s3 := Advances(s2, w, found, 1);
    LastMoves(s3, w, found);
    AdvancesAdd(s2, w, found, 1, 3);
    AdvancesAdd(s, w, found, 2, 4);
    assert s2.items[s.runs[w].todo[0] := if found then ItemCompleted else ItemNoMatches]
        == s.items[s.runs[w].todo[0] := if found then ItemCompleted else ItemNoMatches];
    assert s3.runs[w := s3.runs[w].(pc := Next)][w] == Run(s.runs[w].claim, s.runs[w].todo[1..], Next);
  }

  lemma FirstMoves(s: State, w: nat, found: bool)
    requires w in s.runs && InRange(s, w) && s.runs[w].pc.Next? && s.runs[w].todo != []
    ensures var i := s.runs[w].todo[0];
            Advances(s, w, found, 2) == s.(items := s.items[i := ItemRunning],
                                           runs := s.runs[w := Run(s.runs[w].claim, s.runs[w].todo[1..], Storing(i, found))])
  {
    var i := s.runs[w].todo[0];
    var s1 := s.(items := s.items[i := ItemRunning], runs := s.runs[w := Run(s.runs[w].claim, s.runs[w].todo[1..], Working(i))]);
    assert s.letters[i := s.letters[i]] == s.letters;
    assert Apply(s, Advance(w, Good, found)) == s1 by { assert Apply(s, Advance(w, Good, found)).runs == s1.runs; }
    assert Advances(s, w, found, 1) == s1 by { assert Advances(s, w, found, 0) == s; }
    assert Apply(s1, Advance(w, Good, found)).runs == s.runs[w := Run(s.runs[w].claim, s.runs[w].todo[1..], Storing(i, found))];
  }

  lemma StoresResult(s: State, w: nat, found: bool)
    requires w in s.runs && InRange(s, w) && s.runs[w].pc.Storing?
    ensures var i := s.runs[w].pc.item;
            Advances(s, w, found, 1) == s.(items := s.items[i := if s.runs[w].pc.found then ItemCompleted else ItemNoMatches],
                                           letters := s.letters[i := if s.letters[i] == Some(Requeued) then Some(Resolved) else s.letters[i]],
                                           runs := s.runs[w := s.runs[w].(pc := Renewing)])
  {
    assert Advances(s, w, found, 0) == s;
  }

  /** From the renewal of the lease to the next item. */
  lemma LastMoves(s: State, w: nat, found: bool)
    requires w in s.runs && InRange(s, w) && s.runs[w].pc.Renewing?
    ensures Advances(s, w, found, 3) == s.(row := RefreshRow(s.row, w, s.items), runs := s.runs[w := s.runs[w].(pc := Next)])
  {
    hide RefreshRow;
    var s1 := Apply(s, Advance(w, Good, found));
    assert s1 == s.(runs := s.runs[w := s.runs[w].(pc := Reading)]);
    var s2 := Apply(s1, Advance(w, Good, found));
    assert s2 == s.(runs := s.runs[w := s.runs[w].(pc := Writing(s.items))]) by {
      assert s2.runs == s.runs[w := s.runs[w].(pc := Writing(s.items))];
    }
    assert Advances(s, w, found, 0) == s && Advances(s, w, found, 1) == s1 && Advances(s, w, found, 2) == s2;
    assert Apply(s2, Advance(w, Good, found)).runs == s.runs[w := s.runs[w].(pc := Next)];
  }

  lemma {:induction false} AdvancesAdd(s: State, w: nat, found: bool, m: nat, n: nat)
    ensures Advances(s, w, found, m + n) == Advances(Advances(s, w, found, m), w, found, n)
  {
    hide Apply;
    if n > 0 {
      AdvancesAdd(s, w, found, m, n - 1);
    }
  }

  /** An item whose work fails is FAILED with an OPEN letter, and the run renews its lease as after a result. */
  lemma ItemFails(s: State, w: nat, reply: Reply, found: bool)
    requires w in s.runs && InRange(s, w) && s.runs[w].pc.Working? && !reply.Good?
    ensures var t, i := Apply(Apply(s, Advance(w, reply, found)), Advance(w, Good, found)), s.runs[w].pc.item;
            && t.items == s.items[i := ItemFailed] && t.letters == s.letters[i := Some(Open)] && t.row == s.row
            && w in t.runs && t.runs[w] == s.runs[w].(pc := Renewing)
  {
  }

  // ----- the lease fences the job row

  /** Terminal rows that a refresh wrote add up, with the status that the counters imply. */
  predicate RowFits(row: Row, n: nat) {
    && (row.status.Running? <==> row.owner.Some?)
    && (row.refreshed ==>
          && (row.status.Completed? || row.status.Partial? || row.status.Failed?)
          && row.completed + row.noMatches + row.failed == n
          && row.status == StatusOfCounts(row.completed, row.noMatches, row.failed))
  }

  /** A worker that holds the lease is the one that claimed last. */
  predicate RunFits(row: Row, n: nat, w: nat, run: Run) {
    && run.claim <= row.claims
    && (row.owner == Some(w) ==> run.claim == row.claims)
    && (run.pc.Writing? ==> |run.pc.seen| == n)
  }

  ghost predicate Inv(s: State) {
    && |s.items| == |s.letters|
    && RowFits(s.row, |s.items|)
    && (forall w :: w in s.runs ==> RunFits(s.row, |s.items|, w, s.runs[w]))
    && (forall w :: w in s.runs ==> InRange(s, w))
  }

  lemma RefreshFits(row: Row, worker: nat, seen: seq<ItemStatus>)
    requires RowFits(row, |seen|)
    ensures RowFits(RefreshRow(row, worker, seen), |seen|)
    ensures var r := RefreshRow(row, worker, seen); r.claims == row.claims && (r.owner == row.owner || r.owner.None?)
  {
    TerminalItemsAddUp(seen);
    hide Count;
  }

  lemma {:induction false} QueuedItemsAreQueued(items: seq<ItemStatus>)
    ensures forall k :: 0 <= k < |QueuedItems(items)| ==> QueuedItems(items)[k] < |items| && items[QueuedItems(items)[k]].ItemQueued?
    ensures forall j, k :: 0 <= j < k < |QueuedItems(items)| ==> QueuedItems(items)[j] < QueuedItems(items)[k]
    ensures forall i :: 0 <= i < |items| && items[i].ItemQueued? ==> i in QueuedItems(items)
  {
    if items != [] {
      QueuedItemsAreQueued(items[..|items| - 1]);
    }
  }

  predicate RunInRange(run: Run, n: nat) {
    && (forall k :: 0 <= k < |run.todo| ==> run.todo[k] < n)
    && (run.pc.Working? || run.pc.Storing? || run.pc.FailingItem? ==> run.pc.item < n)
    && (run.pc.Writing? ==> |run.pc.seen| == n)
  }

  /** A run that changes only what it may needs only its own facts. */
  lemma RunKeeps(s: State, w: nat, row: Row, items: seq<ItemStatus>, letters: seq<Option<Letter>>, run: Run)
    requires Inv(s) && w in s.runs && RowFits(row, |s.items|) && |items| == |letters| == |s.items|
    requires row.claims == s.row.claims && (row.owner == s.row.owner || row.owner.None?)
    requires run.claim == s.runs[w].claim && RunInRange(run, |s.items|)
    ensures var t := s.(row := row, items := items, letters := letters, runs := s.runs[w := run]); Inv(t) && Inv(End(t, w))
  {
    hide RowFits;
  }

  lemma RunParts(s: State, w: nat)
    requires Inv(s) && w in s.runs
    ensures RowFits(s.row, |s.items|) && RunInRange(s.runs[w], |s.items|) && |s.items| == |s.letters|
  {
    hide RowFits;
    assert RunFits(s.row, |s.items|, w, s.runs[w]);
    assert InRange(s, w);
  }

  /** Moves that leave the tables alone. */
  lemma GotoKeeps(s: State, w: nat, pc: Pc)
    requires Inv(s) && w in s.runs && RunInRange(s.runs[w].(pc := pc), |s.items|)
    ensures Inv(Goto(s, w, pc))
  {
    hide Inv, RowFits, RunInRange;
    RunParts(s, w);
    RunKeeps(s, w, s.row, s.items, s.letters, s.runs[w].(pc := pc));
  }

  lemma EndKeeps(s: State, w: nat)
    requires Inv(s)
    ensures Inv(End(s, w))
  {
    hide RowFits;
  }

  /** A database write of a run: acknowledged, lost, or not made. */
  lemma AfterKeeps(s: State, w: nat, row: Row, items: seq<ItemStatus>, letters: seq<Option<Letter>>, reply: Reply, pc: Pc, handler: Pc)
    requires Inv(s) && w in s.runs && RowFits(row, |s.items|) && |items| == |letters| == |s.items|
    requires row.claims == s.row.claims && (row.owner == s.row.owner || row.owner.None?)
    requires RunInRange(s.runs[w].(pc := pc), |s.items|) && RunInRange(s.runs[w].(pc := handler), |s.items|)
    ensures Inv(After(s, s.(row := row, items := items, letters := letters), w, reply, pc, handler))
  {
    hide Inv, RowFits, RunInRange;
    RunKeeps(s, w, row, items, letters, s.runs[w].(pc := pc));
    RunKeeps(s, w, row, items, letters, s.runs[w].(pc := handler));
    GotoKeeps(s, w, handler);
  }

  lemma ItemWriteKeeps(s: State, w: nat, i: nat, st: ItemStatus, letter: Option<Letter>, reply: Reply, pc: Pc, handler: Pc)
    requires Inv(s) && w in s.runs && i < |s.items| && |s.items| == |s.letters|
    requires RunInRange(s.runs[w].(pc := pc), |s.items|) && RunInRange(s.runs[w].(pc := handler), |s.items|)
    ensures Inv(After(s, WithItem(s, i, st, letter), w, reply, pc, handler))
  {
    hide Inv, RowFits, RunInRange;
    RunParts(s, w);
    AfterKeeps(s, w, s.row, s.items[i := st], s.letters[i := letter], reply, pc, handler);
  }

  lemma RunStepKeepsInv(s: State, w: nat, reply: Reply, found: bool)
    requires Inv(s) && w in s.runs && InRange(s, w)
    ensures Inv(RunStep(s, w, reply, found))
  {
    hide Inv, QueuedItems, RefreshRow, RowFits, After, Goto, End, WithItem;
    RunParts(s, w);
    var run := s.runs[w];
    match run.pc
    case Loading =>
      GotoKeeps(s, w, FailingJob);
      QueuedItemsAreQueued(s.items);
      RunKeeps(s, w, s.row, s.items, s.letters, Run(run.claim, QueuedItems(s.items), Next));
    case Next =>
      EndKeeps(s, w);
      if run.todo != [] {
        var u := s.(runs := s.runs[w := run.(todo := run.todo[1..])]);
        RunKeeps(s, w, s.row, s.items, s.letters, run.(todo := run.todo[1..]));
        ItemWriteKeeps(u, w, run.todo[0], ItemRunning, u.letters[run.todo[0]], reply, Working(run.todo[0]), FailingJob);
      }
    case Working(i) =>
      GotoKeeps(s, w, Storing(i, found));
      GotoKeeps(s, w, FailingItem(i));
    case Storing(i, f) =>
      ItemWriteKeeps(s, w, i, if f then ItemCompleted else ItemNoMatches, ResolveLetter(s.letters[i]), reply, Renewing, FailingItem(i));
    case FailingItem(i) => ItemWriteKeeps(s, w, i, ItemFailed, Some(Open), reply, Renewing, FailingJob);
    case Renewing =>
      GotoKeeps(s, w, Reading);
      GotoKeeps(s, w, FailingJob);
    case Reading =>
      GotoKeeps(s, w, Writing(s.items));
      GotoKeeps(s, w, FailingJob);
    case Writing(seen) =>
      RefreshFits(s.row, w, seen);
      AfterKeeps(s, w, RefreshRow(s.row, w, seen), s.items, s.letters, reply, Next, FailingJob);
    case FailingJob =>
      EndKeeps(s, w);
      FailedRowFits(s, w);
      RunKeeps(s, w, FailRow(s.row, w), s.items, s.letters, run);
      EndAfterUpdate(s, w);
  }

  lemma FailedRowFits(s: State, w: nat)
    requires RowFits(s.row, |s.items|)
    ensures RowFits(FailRow(s.row, w), |s.items|)
  {
  }

  lemma EndAfterUpdate(s: State, w: nat)
    requires w in s.runs
    ensures s.(row := FailRow(s.row, w), items := s.items, letters := s.letters, runs := s.runs[w := s.runs[w]]) == s.(row := FailRow(s.row, w))
  {
    assert s.runs[w := s.runs[w]] == s.runs;
  }

  lemma StepKeepsInv(s: State, step: Step)
    requires Inv(s)
    ensures Inv(Apply(s, step))
  {
    hide RunStep;
    if step.Advance? && step.worker in s.runs {
      RunStepKeepsInv(s, step.worker, step.reply, step.found);
    }
  }

  lemma {:induction false} ExecKeepsInv(s: State, steps: seq<Step>)
    requires Inv(s)
    ensures Inv(Exec(s, steps)) && |Exec(s, steps).items| == |s.items|
    decreases |steps|
  {
    hide Inv, Apply;
    if steps != [] {
      StepKeepsInv(s, steps[0]);
      ItemsStay(s, steps[0]);
      ExecKeepsInv(Apply(s, steps[0]), steps[1..]);
    }
  }

  lemma ItemsStay(s: State, step: Step)
    ensures |Apply(s, step).items| == |s.items|
  {
    hide RefreshRow, QueuedItems;
  }

  lemma InitHolds(oneRunner: bool, n: nat)
    ensures Inv(Init(oneRunner, n))
  {
  }

  /** Only the worker that holds the lease, and that claimed last, changes the job row by its own steps. */
  lemma OnlyHolderWrites(s: State, w: nat, reply: Reply, found: bool)
    requires Inv(s) && Apply(s, Advance(w, reply, found)).row != s.row
    ensures Holds(s.row, w) && w in s.runs && s.runs[w].claim == s.row.claims
  {
    hide QueuedItems, Count, AllTerminal;
    assert RunFits(s.row, |s.items|, w, s.runs[w]);
  }

  /**
   * After every run, for any number of workers, crashes and expiries: the row has a lease owner exactly when it is
   * RUNNING, a terminal row that a refresh wrote adds up to the item count with the status its counters imply, and a
   * worker's own step changes the row only if it holds the lease and nobody claimed after it.
   */
  lemma JobRowIsFenced(oneRunner: bool, n: nat, steps: seq<Step>, w: nat, reply: Reply, found: bool)
    ensures var s := Exec(Init(oneRunner, n), steps);
            && (s.row.status.Running? <==> s.row.owner.Some?)
            && (s.row.refreshed ==> s.row.completed + s.row.noMatches + s.row.failed == n
                                    && s.row.status == StatusOfCounts(s.row.completed, s.row.noMatches, s.row.failed))
            && (Apply(s, Advance(w, reply, found)).row != s.row ==>
                  Holds(s.row, w) && w in s.runs && s.runs[w].claim == s.row.claims)
  {
    hide Apply, Exec, StatusOfCounts;
    InitHolds(oneRunner, n);
    ExecKeepsInv(Init(oneRunner, n), steps);
    var s := Exec(Init(oneRunner, n), steps);
    if Apply(s, Advance(w, reply, found)).row != s.row {
      OnlyHolderWrites(s, w, reply, found);
    }
  }

  /** A run that does not hold the lease; a later run of the same worker has a larger claim number. */
  ghost predicate Lost(s: State, w: nat, claim: nat) {
    claim <= s.row.claims && (w in s.runs && s.runs[w].claim == claim ==> s.row.owner != Some(w))
  }

  lemma LostStaysLost(s: State, step: Step, w: nat, claim: nat)
    requires Inv(s) && Lost(s, w, claim)
    ensures Lost(Apply(s, step), w, claim)
  {
    hide QueuedItems, RefreshRow, RowFits;
    if step.Advance? && step.worker in s.runs && InRange(s, step.worker) {
      AdvanceKeepsOwner(s, step.worker, step.reply, step.found);
    }
    hide RunStep;
  }

  lemma AdvanceKeepsOwner(s: State, v: nat, reply: Reply, found: bool)
    requires v in s.runs && InRange(s, v)
    ensures var t := RunStep(s, v, reply, found);
            && (t.row.owner == s.row.owner || t.row.owner.None?) && t.row.claims == s.row.claims
            && forall w :: w in t.runs ==> w in s.runs && t.runs[w].claim == s.runs[w].claim
  {
    hide RunStep, InRange;
    RowOfAdvance(s, v, reply, found);
    RunsOfAdvance(s, v, reply, found);
  }

  lemma RowOfAdvance(s: State, v: nat, reply: Reply, found: bool)
    requires v in s.runs && InRange(s, v)
    ensures var t := RunStep(s, v, reply, found);
            (t.row.owner == s.row.owner || t.row.owner.None?) && t.row.claims == s.row.claims
  {
    hide QueuedItems, Count, AllTerminal, InRange, PublicJobStatus;
  }

  lemma RunsOfAdvance(s: State, v: nat, reply: Reply, found: bool)
    requires v in s.runs && InRange(s, v)
    ensures var t := RunStep(s, v, reply, found);
            forall w :: w in t.runs ==> w in s.runs && t.runs[w].claim == s.runs[w].claim
  {
    hide QueuedItems, RefreshRow, FailRow, InRange, ResolveLetter;
  }

  lemma {:induction false} LostForever(s: State, steps: seq<Step>, w: nat, claim: nat)
    requires Inv(s) && Lost(s, w, claim)
    ensures Lost(Exec(s, steps), w, claim)
    decreases |steps|
  {
    hide Inv, Apply, Lost;
    if steps != [] {
      LostStaysLost(s, steps[0], w, claim);
      StepKeepsInv(s, steps[0]);
      LostForever(Apply(s, steps[0]), steps[1..], w, claim);
    }
  }

  /** A worker that lost its lease never changes the job row again in that run, whatever it and the others do. */
  lemma LostLeaseIsInert(oneRunner: bool, n: nat, before: seq<Step>, after: seq<Step>, w: nat, reply: Reply, found: bool)
    ensures var s := Exec(Init(oneRunner, n), before);
            var t := Exec(s, after);
            w in s.runs && s.row.owner != Some(w) && w in t.runs && t.runs[w].claim == s.runs[w].claim ==>
              Apply(t, Advance(w, reply, found)).row == t.row
  {
    hide Apply, Exec;
    InitHolds(oneRunner, n);
    ExecKeepsInv(Init(oneRunner, n), before);
    var s := Exec(Init(oneRunner, n), before);
    var t := Exec(s, after);
    ExecKeepsInv(s, after);
    if w in s.runs && s.row.owner != Some(w) && w in t.runs && t.runs[w].claim == s.runs[w].claim {
      assert RunFits(s.row, |s.items|, w, s.runs[w]);
      LostForever(s, after, w, s.runs[w].claim);
      if Apply(t, Advance(w, reply, found)).row != t.row {
        OnlyHolderWrites(t, w, reply, found);
      }
    }
  }

  // ----- failed items and their dead letters

  /** An item is FAILED exactly when its dead letter is OPEN. */
  ghost predicate Agree(items: seq<ItemStatus>, letters: seq<Option<Letter>>) {
    |items| == |letters| && forall i :: 0 <= i < |items| ==> (items[i].ItemFailed? <==> letters[i] == Some(Open))
  }

  /** Does the step start or finish an item that is FAILED at that moment? */
  predicate Overwrites(s: State, step: Step) {
    && step.Advance? && step.worker in s.runs && InRange(s, step.worker) && !step.reply.NoEffect?
    && var run := s.runs[step.worker];
    || (run.pc.Next? && run.todo != [] && s.items[run.todo[0]].ItemFailed?)
    || (run.pc.Storing? && s.items[run.pc.item].ItemFailed?)
  }

  lemma ItemWriteAgrees(s: State, i: nat, st: ItemStatus, letter: Option<Letter>)
    requires Agree(s.items, s.letters) && i < |s.items|
    ensures Agree(WithItem(s, i, st, letter).items, WithItem(s, i, st, letter).letters) <==> (st.ItemFailed? <==> letter == Some(Open))
  {
    var t := WithItem(s, i, st, letter);
    assert t.items[i] == st && t.letters[i] == letter;
  }

  /** Exactly the steps that start or finish a FAILED item separate the two tables. */
  lemma AgreementBreaksExactly(s: State, step: Step)
    requires Agree(s.items, s.letters)
    ensures Agree(Apply(s, step).items, Apply(s, step).letters) <==> !Overwrites(s, step)
  {
    match step
    case Advance(w, reply, found) =>
      if w in s.runs && InRange(s, w) {
        AdvanceBreaksExactly(s, w, reply, found);
      }
    case _ => hide RunStep, InRange, PublicJobStatus;
  }

  lemma AdvanceBreaksExactly(s: State, w: nat, reply: Reply, found: bool)
    requires Agree(s.items, s.letters) && w in s.runs && InRange(s, w)
    ensures var t := RunStep(s, w, reply, found); Agree(t.items, t.letters) <==> !Overwrites(s, Advance(w, reply, found))
  {
    hide Agree, RefreshRow, QueuedItems, FailRow;
    AgreeParts(s);
    var run := s.runs[w];
    match run.pc
    case Next =>
      if run.todo != [] {
        ItemWriteAgrees(s, run.todo[0], ItemRunning, s.letters[run.todo[0]]);
      }
    case Storing(i, f) => ItemWriteAgrees(s, i, if f then ItemCompleted else ItemNoMatches, ResolveLetter(s.letters[i]));
    case FailingItem(i) => ItemWriteAgrees(s, i, ItemFailed, Some(Open));
    case _ =>
  }

  lemma AgreeParts(s: State)
    requires Agree(s.items, s.letters)
    ensures |s.items| == |s.letters| && forall i :: 0 <= i < |s.items| ==> (s.items[i].ItemFailed? <==> s.letters[i] == Some(Open))
  {
  }

  /** What a lone runner has before it: distinct items, none of them FAILED. */
  ghost predicate Fresh(items: seq<ItemStatus>, run: Run) {
    && (forall k :: 0 <= k < |run.todo| ==> run.todo[k] < |items| && !items[run.todo[k]].ItemFailed?)
    && (forall j, k :: 0 <= j < k < |run.todo| ==> run.todo[j] != run.todo[k])
    && (run.pc.Working? || run.pc.Storing? || run.pc.FailingItem? ==>
          run.pc.item < |items| && forall k :: 0 <= k < |run.todo| ==> run.todo[k] != run.pc.item)
    && (run.pc.Working? || run.pc.Storing? ==> !items[run.pc.item].ItemFailed?)
  }

  ghost predicate LoneInv(s: State) {
    && s.oneRunner
    && Agree(s.items, s.letters)
    && (forall v, w :: v in s.runs && w in s.runs ==> v == w)
    && (forall w :: w in s.runs ==> Fresh(s.items, s.runs[w]))
  }

  lemma LoneRunNeverOverwrites(s: State, step: Step)
    requires LoneInv(s)
    ensures !Overwrites(s, step)
  {
    if step.Advance? && step.worker in s.runs {
      assert Fresh(s.items, s.runs[step.worker]);
    }
    hide Agree;
  }

  /** Items that stop being FAILED, or change while no run has them ahead, leave every run fresh. */
  lemma LoneKeeps(s: State, t: State)
    requires LoneInv(s) && Agree(t.items, t.letters) && t.oneRunner && t.runs == s.runs && |t.items| == |s.items|
    requires forall i :: 0 <= i < |s.items| && t.items[i].ItemFailed? ==> s.items[i].ItemFailed?
    ensures LoneInv(t)
  {
    hide Agree;
  }

  lemma LoneRunKeeps(s: State, w: nat, t: State, run: Run)
    requires LoneInv(s) && w in s.runs && t.oneRunner && Agree(t.items, t.letters) && Fresh(t.items, run)
    requires t.runs == s.runs[w := run] || t.runs == s.runs - {w}
    ensures LoneInv(t)
  {
    hide Agree, Fresh;
  }

  lemma FreshParts(s: State, w: nat)
    requires LoneInv(s) && w in s.runs
    ensures Fresh(s.items, s.runs[w]) && Agree(s.items, s.letters) && s.oneRunner
  {
    hide Agree, Fresh;
  }

  lemma LoneAdvanceKeeps(s: State, w: nat, reply: Reply, found: bool)
    requires LoneInv(s) && w in s.runs && InRange(s, w)
    ensures LoneInv(RunStep(s, w, reply, found))
  {
    LoneRunNeverOverwrites(s, Advance(w, reply, found));
    AdvanceBreaksExactly(s, w, reply, found);
    hide LoneInv, Agree, Overwrites;
    FreshParts(s, w);
    var t := RunStep(s, w, reply, found);
    var run := FreshAfter(s, w, reply, found);
    LoneRunKeeps(s, w, t, run);
  }

  /** The run that the worker has after its step, if any. */
  function RunAfter(s: State, t: State, w: nat): Run
    requires w in s.runs
  {
    if w in t.runs then t.runs[w] else s.runs[w]
  }

  lemma FreshAfter(s: State, w: nat, reply: Reply, found: bool) returns (run: Run)
    requires w in s.runs && InRange(s, w) && Fresh(s.items, s.runs[w])
    ensures var t := RunStep(s, w, reply, found);
            Fresh(t.items, run) && t.oneRunner == s.oneRunner && (t.runs == s.runs[w := run] || t.runs == s.runs - {w})
  {
    hide RunStep, Fresh, InRange;
    run := RunAfter(s, RunStep(s, w, reply, found), w);
    var pc := s.runs[w].pc;
    RunsShape(s, w, reply, found);
    if pc.Next? {
      NextIsFresh(s, w, reply, found);
    } else if pc.Storing? || pc.FailingItem? {
      WriteIsFresh(s, w, reply, found);
    } else {
      MoveIsFresh(s, w, reply, found);
    }
  }

  lemma AfterShape(s: State, t: State, w: nat, reply: Reply, pc: Pc, handler: Pc)
    requires w in s.runs && t.runs == s.runs && t.oneRunner == s.oneRunner
    ensures var r := After(s, t, w, reply, pc, handler);
            r.oneRunner == s.oneRunner && w in r.runs && r.runs == s.runs[w := r.runs[w]]
  {
  }

  lemma RunsShape(s: State, w: nat, reply: Reply, found: bool)
    requires w in s.runs && InRange(s, w)
    ensures var t := RunStep(s, w, reply, found);
            t.oneRunner == s.oneRunner && (t.runs == s.runs[w := RunAfter(s, t, w)] || t.runs == s.runs - {w})
  {
    hide QueuedItems, RefreshRow, FailRow, ResolveLetter, After;
    var run := s.runs[w];
    match run.pc
    case Next =>
      if run.todo != [] {
        var i := run.todo[0];
        var u := s.(runs := s.runs[w := run.(todo := run.todo[1..])]);
        AfterShape(u, WithItem(u, i, ItemRunning, u.letters[i]), w, reply, Working(i), FailingJob);
        var r := RunAfter(s, RunStep(s, w, reply, found), w);
        assert u.runs[w := r] == s.runs[w := r];
      }
    case Storing(i, f) =>
      AfterShape(s, WithItem(s, i, if f then ItemCompleted else ItemNoMatches, ResolveLetter(s.letters[i])), w, reply, Renewing, FailingItem(i));
    case FailingItem(i) => AfterShape(s, WithItem(s, i, ItemFailed, Some(Open)), w, reply, Renewing, FailingJob);
    case Writing(seen) => AfterShape(s, s.(row := RefreshRow(s.row, w, seen)), w, reply, Next, FailingJob);
    case _ => hide InRange;
  }

  lemma NextIsFresh(s: State, w: nat, reply: Reply, found: bool)
    requires w in s.runs && InRange(s, w) && Fresh(s.items, s.runs[w]) && s.runs[w].pc.Next?
    ensures var t := RunStep(s, w, reply, found); Fresh(t.items, RunAfter(s, t, w))
  {
    hide QueuedItems, RefreshRow, FailRow, ResolveLetter;
  }

  lemma WriteIsFresh(s: State, w: nat, reply: Reply, found: bool)
    requires w in s.runs && InRange(s, w) && Fresh(s.items, s.runs[w]) && (s.runs[w].pc.Storing? || s.runs[w].pc.FailingItem?)
    ensures var t := RunStep(s, w, reply, found); Fresh(t.items, RunAfter(s, t, w))
  {
    hide QueuedItems, RefreshRow, FailRow, ResolveLetter;
  }

  lemma MoveIsFresh(s: State, w: nat, reply: Reply, found: bool)
    requires w in s.runs && InRange(s, w) && Fresh(s.items, s.runs[w])
    requires !s.runs[w].pc.Next? && !s.runs[w].pc.Storing? && !s.runs[w].pc.FailingItem?
    ensures var t := RunStep(s, w, reply, found); Fresh(t.items, RunAfter(s, t, w))
  {
    hide QueuedItems, Fresh, InRange, RefreshRow, FailRow;
    var run := s.runs[w];
    LoadedIsFresh(s.items, run);
    MovesAreFresh(s.items, run);
  }

  lemma LoadedIsFresh(items: seq<ItemStatus>, run: Run)
    ensures Fresh(items, Run(run.claim, QueuedItems(items), Next))
  {
    hide QueuedItems;
    QueuedItemsAreQueued(items);
  }

  lemma MovesAreFresh(items: seq<ItemStatus>, run: Run)
    requires Fresh(items, run)
    ensures Fresh(items, run.(pc := FailingJob)) && Fresh(items, run.(pc := Next)) && Fresh(items, run.(pc := Reading))
    ensures forall seen :: Fresh(items, run.(pc := Writing(seen)))
    ensures run.pc.Working? ==>
              Fresh(items, run.(pc := FailingItem(run.pc.item))) && forall found :: Fresh(items, run.(pc := Storing(run.pc.item, found)))
  {
  }

  lemma LoneClaimKeeps(s: State, w: nat, reply: Reply)
    requires LoneInv(s) && w !in s.runs && s.runs == map[]
    ensures LoneInv(ClaimStep(s, w, reply))
  {
    hide Agree;
  }

  lemma LoneStepKeeps(s: State, step: Step)
    requires LoneInv(s)
    ensures LoneInv(Apply(s, step))
  {
    LoneRunNeverOverwrites(s, step);
    AgreementBreaksExactly(s, step) by {
      AgreeOf(s);
    }
    hide Agree, Overwrites, RunStep, InRange;
    match step
    case Claim(w, reply) =>
      if w !in s.runs && s.runs == map[] {
        LoneClaimKeeps(s, w, reply);
      }
      hide LoneInv, ClaimStep;
      AgreeOf(s);
    case Advance(w, reply, found) =>
      if w in s.runs && InRange(s, w) {
        LoneAdvanceKeeps(s, w, reply, found);
      }
    case Crash(w) =>
      if w in s.runs {
        FreshParts(s, w);
        LoneRunKeeps(s, w, End(s, w), s.runs[w]);
      } else {
        assert s.runs - {w} == s.runs;
      }
    case _ =>
      AgreeOf(s);
      var t := Apply(s, step);
      FailedOnlyBefore(s, step);
      LoneKeeps(s, t);
  }

  lemma AgreeOf(s: State)
    requires LoneInv(s)
    ensures Agree(s.items, s.letters) && s.oneRunner
  {
    hide Agree, Fresh;
  }

  /** Reclaims and requeues never make an item FAILED. */
  lemma FailedOnlyBefore(s: State, step: Step)
    requires !step.Claim? && !step.Advance? && !step.Crash?
    ensures var t := Apply(s, step);
            && t.runs == s.runs && t.oneRunner == s.oneRunner && |t.items| == |s.items|
            && forall i :: 0 <= i < |s.items| && t.items[i].ItemFailed? ==> s.items[i].ItemFailed?
  {
    hide RunStep, ClaimStep, InRange;
  }

  lemma {:induction false} LoneExecKeeps(s: State, steps: seq<Step>)
    requires LoneInv(s)
    ensures LoneInv(Exec(s, steps))
    decreases |steps|
  {
    hide LoneInv, Apply;
    if steps != [] {
      LoneStepKeeps(s, steps[0]);
      LoneExecKeeps(Apply(s, steps[0]), steps[1..]);
    }
  }

  /** With one live runner, after every run an item is FAILED exactly when its dead letter is OPEN. */
  lemma FailedExactlyWhenOpen(n: nat, steps: seq<Step>, i: nat)
    requires i < n
    ensures var s := Exec(Init(true, n), steps);
            |s.items| == |s.letters| == n && (s.items[i].ItemFailed? <==> s.letters[i] == Some(Open))
  {
    hide Apply;
    LoneExecKeeps(Init(true, n), steps);
    InitHolds(true, n);
    ExecKeepsInv(Init(true, n), steps);
    AgreeOf(Exec(Init(true, n), steps));
  }

  /**
   * A requeued letter stays REQUEUED until a step ends its item: RESOLVED together with a result, or OPEN together with
   * FAILED.
   */
  lemma RequeuedUntilEnded(s: State, step: Step, i: nat)
    requires Inv(s) && i < |s.letters| && s.letters[i] == Some(Requeued)
    ensures var t := Apply(s, step);
            && |t.letters| == |t.items| == |s.items|
            && (t.letters[i] != Some(Requeued) ==>
                  || (t.letters[i] == Some(Resolved) && (t.items[i].ItemCompleted? || t.items[i].ItemNoMatches?))
                  || (t.letters[i] == Some(Open) && t.items[i].ItemFailed?))
  {
    hide RunStep, InRange, RowFits;
    if step.Advance? && step.worker in s.runs && InRange(s, step.worker) {
      AdvanceEndsItem(s, step.worker, step.reply, step.found, i);
    }
  }

  lemma AdvanceEndsItem(s: State, w: nat, reply: Reply, found: bool, i: nat)
    requires w in s.runs && InRange(s, w) && i < |s.letters| && s.letters[i] == Some(Requeued)
    ensures var t := RunStep(s, w, reply, found);
            && |t.letters| == |t.items| == |s.items|
            && (t.letters[i] != Some(Requeued) ==>
                  || (t.letters[i] == Some(Resolved) && (t.items[i].ItemCompleted? || t.items[i].ItemNoMatches?))
                  || (t.letters[i] == Some(Open) && t.items[i].ItemFailed?))
  {
    hide RefreshRow, QueuedItems, FailRow, After, RunStep;
    var pc := s.runs[w].pc;
    if pc.Next? || pc.Storing? || pc.FailingItem? {
      WriteEndsItem(s, w, reply, found, i);
    } else {
      MoveLeavesItems(s, w, reply, found);
    }
  }

  lemma MoveLeavesItems(s: State, w: nat, reply: Reply, found: bool)
    requires w in s.runs && InRange(s, w) && !s.runs[w].pc.Next? && !s.runs[w].pc.Storing? && !s.runs[w].pc.FailingItem?
    ensures var t := RunStep(s, w, reply, found); t.letters == s.letters && t.items == s.items
  {
    hide RefreshRow, QueuedItems, FailRow, InRange;
  }

  lemma WriteEndsItem(s: State, w: nat, reply: Reply, found: bool, i: nat)
    requires w in s.runs && InRange(s, w) && i < |s.letters| && s.letters[i] == Some(Requeued)
    requires s.runs[w].pc.Next? || s.runs[w].pc.Storing? || s.runs[w].pc.FailingItem?
    ensures var t := RunStep(s, w, reply, found);
            && |t.letters| == |t.items| == |s.items|
            && (t.letters[i] != Some(Requeued) ==>
                  || (t.letters[i] == Some(Resolved) && (t.items[i].ItemCompleted? || t.items[i].ItemNoMatches?))
                  || (t.letters[i] == Some(Open) && t.items[i].ItemFailed?))
  {
    hide RefreshRow, QueuedItems, FailRow;
  }

  // ----- two live runners

  ghost predicate Reaches(s: State) {
    exists steps :: Exec(Init(false, 1), steps) == s
  }

  lemma {:induction false} ExecAppends(s: State, xs: seq<Step>, step: Step)
    ensures Exec(s, xs + [step]) == Apply(Exec(s, xs), step)
    decreases |xs|
  {
    hide Apply;
    if xs == [] {
      assert [] + [step] == [step] && [step][1..] == [];
    } else {
      assert (xs + [step])[1..] == xs[1..] + [step];
      ExecAppends(Apply(s, xs[0]), xs[1..], step);
    }
  }

  lemma Take(s: State, step: Step, t: State)
    requires Reaches(s) && Apply(s, step) == t
    ensures Reaches(t)
  {
    hide Apply;
    var steps :| Exec(Init(false, 1), steps) == s;
    ExecAppends(Init(false, 1), steps, step);
  }

  /** The one item's state under two workers. */
  function OneItem(row: Row, item: ItemStatus, letter: Option<Letter>, runs: map<nat, Run>): State {
    State(false, row, [item], [letter], runs, map[])
  }

  function RowAt(status: JobStatus, owner: Option<nat>, claims: nat): Row {
    Row(status, owner, claims, 0, 0, 0, false)
  }

  lemma TwoWorkersLoad()
    ensures Reaches(OneItem(RowAt(Running, Some(1), 2), ItemQueued, None, map[0 := Run(1, [0], Next), 1 := Run(2, [0], Next)]))
  {
    hide Reaches;
    var s0 := OneItem(RowAt(Queued, None, 0), ItemQueued, None, map[]);
    assert Reaches(s0) by { ReachesStart(); }
    var s1 := OneItem(RowAt(Running, Some(0), 1), ItemQueued, None, map[0 := Run(1, [], Loading)]);
    Take(s0, Claim(0, Good), s1);
    Loads();
    var s2 := OneItem(RowAt(Running, Some(0), 1), ItemQueued, None, map[0 := Run(1, [0], Next)]);
    hide QueuedItems;
    assert s1.runs[0 := Run(1, [0], Next)] == s2.runs;
    Take(s1, Advance(0, Good, false), s2);
    TwoWorkersLoadFrom(s2);
  }

  lemma ReachesStart()
    ensures Reaches(OneItem(RowAt(Queued, None, 0), ItemQueued, None, map[]))
  {
    var s := OneItem(RowAt(Queued, None, 0), ItemQueued, None, map[]);
    assert Init(false, 1).items == s.items && Init(false, 1).letters == s.letters;
    assert Exec(Init(false, 1), []) == s;
  }

  lemma Loads()
    ensures QueuedItems([ItemQueued]) == [0]
  {
    assert [ItemQueued][..0] == [];
  }

  lemma TwoWorkersLoadFrom(s2: State)
    requires Reaches(s2) && s2 == OneItem(RowAt(Running, Some(0), 1), ItemQueued, None, map[0 := Run(1, [0], Next)])
    ensures Reaches(OneItem(RowAt(Running, Some(1), 2), ItemQueued, None, map[0 := Run(1, [0], Next), 1 := Run(2, [0], Next)]))
  {
    hide Reaches;
    var s3 := s2.(row := RowAt(Queued, None, 1));
    assert ReclaimedItems(s2.items) == s2.items;
    Take(s2, Reclaim, s3);
    var s4 := OneItem(RowAt(Running, Some(1), 2), ItemQueued, None, map[0 := Run(1, [0], Next), 1 := Run(2, [], Loading)]);
    assert s3.runs[1 := Run(2, [], Loading)] == s4.runs;
    Take(s3, Claim(1, Good), s4);
    Loads();
    hide QueuedItems;
    var s5 := OneItem(RowAt(Running, Some(1), 2), ItemQueued, None, map[0 := Run(1, [0], Next), 1 := Run(2, [0], Next)]);
    assert s4.runs[1 := Run(2, [0], Next)] == s5.runs;
    Take(s4, Advance(1, Good, false), s5);
  }

  lemma SecondWorkerFails()
    ensures Reaches(OneItem(RowAt(Running, Some(1), 2), ItemFailed, Some(Open), map[0 := Run(1, [0], Next), 1 := Run(2, [], Renewing)]))
  {
    hide Reaches, QueuedItems;
    TwoWorkersLoad();
    var row := RowAt(Running, Some(1), 2);
    var s5 := OneItem(row, ItemQueued, None, map[0 := Run(1, [0], Next), 1 := Run(2, [0], Next)]);
    var s6 := OneItem(row, ItemRunning, None, map[0 := Run(1, [0], Next), 1 := Run(2, [], Working(0))]);
    assert s5.runs[1 := Run(2, [], Next)][1 := Run(2, [], Working(0))] == s6.runs;
    assert s5.items[0 := ItemRunning] == s6.items && s5.letters[0 := None] == s6.letters;
    assert s5.runs[1].todo[1..] == [];
    Take(s5, Advance(1, Good, false), s6);
    SecondWorkerFailsFrom(s6);
  }

  lemma SecondWorkerFailsFrom(s6: State)
    requires Reaches(s6)
    requires s6 == OneItem(RowAt(Running, Some(1), 2), ItemRunning, None, map[0 := Run(1, [0], Next), 1 := Run(2, [], Working(0))])
    ensures Reaches(OneItem(s6.row, ItemFailed, Some(Open), map[0 := Run(1, [0], Next), 1 := Run(2, [], Renewing)]))
  {
    hide Reaches, QueuedItems;
    var s7 := s6.(runs := map[0 := Run(1, [0], Next), 1 := Run(2, [], FailingItem(0))]);
    assert s6.runs[1 := Run(2, [], FailingItem(0))] == s7.runs;
    Take(s6, Advance(1, NoEffect, false), s7);
    var s8 := OneItem(s6.row, ItemFailed, Some(Open), map[0 := Run(1, [0], Next), 1 := Run(2, [], Renewing)]);
    assert s7.runs[1 := Run(2, [], Renewing)] == s8.runs;
    assert s7.items[0 := ItemFailed] == s8.items && s7.letters[0 := Some(Open)] == s8.letters;
    Take(s7, Advance(1, Good, false), s8);
  }

  /** With two live runners the tables come apart: the overtaken worker restarts the item that the other has failed. */
  lemma OvertakenWorkerSeparates()
    ensures exists s, step :: Reaches(s) && Agree(s.items, s.letters) && !Agree(Apply(s, step).items, Apply(s, step).letters)
  {
    hide Reaches, Apply;
    SecondWorkerFails();
    var s := OneItem(RowAt(Running, Some(1), 2), ItemFailed, Some(Open), map[0 := Run(1, [0], Next), 1 := Run(2, [], Renewing)]);
    AgreementBreaksExactly(s, Advance(0, Good, false));
    assert Reaches(s) && Agree(s.items, s.letters);
  }

  // ----- one undisturbed worker

  datatype Outcome = Found | NothingFound | Error

  /** What becomes of an item and its letter when a lone worker processes it. */
  function ProcessedItem(outcome: Outcome): ItemStatus {
    match outcome case Found => ItemCompleted case NothingFound => ItemNoMatches case Error => ItemFailed
  }

  function ProcessedLetter(letter: Option<Letter>, outcome: Outcome): Option<Letter> {
    if outcome.Error? then Some(Open) else ResolveLetter(letter)
  }

  class PricingJob {
    var row: Row
    var items: seq<ItemStatus>
    var letters: seq<Option<Letter>>

    method ProcessPricingItem(i: nat, outcome: Outcome)
      requires i < |items| == |letters|
      modifies `items, `letters
      ensures items == old(items)[i := ProcessedItem(outcome)]
      ensures letters == old(letters)[i := ProcessedLetter(old(letters)[i], outcome)]
    {
      items := items[i := ItemRunning];
      if outcome.Error? {
        items := items[i := ItemFailed];
        letters := letters[i := Some(Open)];
      } else {
        items := items[i := if outcome.Found? then ItemCompleted else ItemNoMatches];
        letters := letters[i := ResolveLetter(letters[i])];
      }
    }

    method RefreshJobProgress(worker: nat)
      modifies `row
      ensures row == RefreshRow(old(row), worker, items)
    {
      var completed, noMatches, failed := 0, 0, 0;
      var terminal := true;
      for i := 0 to |items|
        invariant completed == Count(items[..i], ItemCompleted) && noMatches == Count(items[..i], ItemNoMatches)
        invariant failed == Count(items[..i], ItemFailed)
        invariant terminal <==> AllTerminal(items[..i])
        invariant row == old(row)
      {
        CountAppended(items[..i], items[i]);
        assert items[..i + 1] == items[..i] + [items[i]];
        completed := completed + if items[i].ItemCompleted? then 1 else 0;
        noMatches := noMatches + if items[i].ItemNoMatches? then 1 else 0;
        failed := failed + if items[i].ItemFailed? then 1 else 0;
        terminal := terminal && TerminalItem(items[i]);
      }
      assert items[..|items|] == items;
      var status := if !terminal then Running else if failed == |items| then Failed else if failed > 0 then Partial else Completed;
      if Holds(row, worker) {
        row := Row(status, if status.Running? then row.owner else None, row.claims, completed, noMatches, failed, !status.Running?);
      }
    }

    /**
     * A claimed run that nothing disturbs processes exactly the queued items, and if there is one and no other item was
     * left unfinished, it ends in the terminal status that the results imply; without a queued item nothing refreshes it.
     */
    method RunPricingJob(worker: nat, outcomes: seq<Outcome>) returns (claimed: bool)
      requires |items| == |letters| == |outcomes|
      modifies this
      ensures claimed == old(row).status.Queued?
      ensures !claimed ==> row == old(row) && items == old(items) && letters == old(letters)
      ensures |items| == |letters| == |outcomes|
      ensures claimed ==> forall i :: 0 <= i < |outcomes| ==>
                if old(items)[i].ItemQueued?
                then items[i] == ProcessedItem(outcomes[i]) && letters[i] == ProcessedLetter(old(letters)[i], outcomes[i])
                else items[i] == old(items)[i] && letters[i] == old(letters)[i]
      ensures claimed && QueuedItems(old(items)) == [] ==> row == ClaimRow(old(row), worker)
      ensures claimed && QueuedItems(old(items)) != [] ==> row == RefreshRow(ClaimRow(old(row), worker), worker, items)
    {
      claimed := row.status.Queued?;
      if !claimed {
        return;
      }
      hide RefreshRow, Count, AllTerminal, PublicJobStatus, QueuedItems, ProcessedItem, ProcessedLetter, DoneUpTo;
      row := ClaimRow(row, worker);
      var todo := QueuedItems(items);
      QueuedItemsAreQueued(items);
      ghost var claim := row;
      assert DoneUpTo(items, letters, items, letters, outcomes, todo, 0) by {
        NothingDone(items, letters, outcomes);
      }
      for n := 0 to |todo|
        invariant row == if n == 0 then claim else RefreshRow(claim, worker, items)
        invariant n < |todo| ==> Holds(row, worker)
        invariant row.claims == claim.claims
        invariant DoneUpTo(old(items), old(letters), items, letters, outcomes, todo, n)
      {
        InTodo(old(items), old(letters), items, letters, outcomes, todo, n);
        DoneNext(old(items), old(letters), items, letters, outcomes, todo, n);
        ProcessPricingItem(todo[n], outcomes[todo[n]]);
        RefreshedAgain(row, claim, worker, items);
        RefreshJobProgress(worker);
        if n + 1 < |todo| {
          InTodo(old(items), old(letters), items, letters, outcomes, todo, n + 1);
          UnfinishedKeepsLease(claim, worker, items, todo[n + 1]);
        }
      }
      DoneAll(old(items), old(letters), items, letters, outcomes, todo);
    }
  }

  /** The first listed items are processed, the others on the list still queued, and the rest untouched. */
  ghost predicate DoneUpTo(was: seq<ItemStatus>, wasLetters: seq<Option<Letter>>, items: seq<ItemStatus>, letters: seq<Option<Letter>>,
                           outcomes: seq<Outcome>, todo: seq<nat>, n: nat) {
    && n <= |todo| && |was| == |wasLetters| == |items| == |letters| == |outcomes|
    && (forall k :: 0 <= k < |todo| ==> todo[k] < |items|)
    && (forall j, k :: 0 <= j < k < |todo| ==> todo[j] < todo[k])
    && (forall k :: 0 <= k < n ==> items[todo[k]] == ProcessedItem(outcomes[todo[k]])
                                   && letters[todo[k]] == ProcessedLetter(wasLetters[todo[k]], outcomes[todo[k]]))
    && (forall k :: n <= k < |todo| ==> items[todo[k]].ItemQueued? && letters[todo[k]] == wasLetters[todo[k]])
    && (forall i :: 0 <= i < |items| && i !in todo ==> items[i] == was[i] && letters[i] == wasLetters[i])
  }

  lemma NothingDone(items: seq<ItemStatus>, letters: seq<Option<Letter>>, outcomes: seq<Outcome>)
    requires |items| == |letters| == |outcomes|
    ensures DoneUpTo(items, letters, items, letters, outcomes, QueuedItems(items), 0)
  {
    hide QueuedItems, ProcessedItem, ProcessedLetter;
    QueuedItemsAreQueued(items);
  }

  lemma InTodo(was: seq<ItemStatus>, wasLetters: seq<Option<Letter>>, items: seq<ItemStatus>, letters: seq<Option<Letter>>,
               outcomes: seq<Outcome>, todo: seq<nat>, n: nat)
    requires DoneUpTo(was, wasLetters, items, letters, outcomes, todo, n) && n < |todo|
    ensures todo[n] < |items| == |letters| == |outcomes| && items[todo[n]].ItemQueued?
  {
  }

  lemma DoneNext(was: seq<ItemStatus>, wasLetters: seq<Option<Letter>>, items: seq<ItemStatus>, letters: seq<Option<Letter>>,
                 outcomes: seq<Outcome>, todo: seq<nat>, n: nat)
    requires DoneUpTo(was, wasLetters, items, letters, outcomes, todo, n) && n < |todo|
    ensures var i := todo[n];
            i < |items| == |letters| == |outcomes|
            && DoneUpTo(was, wasLetters, items[i := ProcessedItem(outcomes[i])],
                        letters[i := ProcessedLetter(letters[i], outcomes[i])], outcomes, todo, n + 1)
  {
    hide ProcessedItem, ProcessedLetter;
    assert todo[n] in todo;
  }

  lemma DoneAll(was: seq<ItemStatus>, wasLetters: seq<Option<Letter>>, items: seq<ItemStatus>, letters: seq<Option<Letter>>,
                outcomes: seq<Outcome>, todo: seq<nat>)
    requires DoneUpTo(was, wasLetters, items, letters, outcomes, todo, |todo|)
    ensures |was| == |wasLetters| == |items| == |letters| == |outcomes|
    ensures forall i :: 0 <= i < |items| ==>
              if i in todo then items[i] == ProcessedItem(outcomes[i]) && letters[i] == ProcessedLetter(wasLetters[i], outcomes[i])
              else items[i] == was[i] && letters[i] == wasLetters[i]
  {
    hide ProcessedItem, ProcessedLetter;
  }

  lemma RefreshedAgain(row: Row, claim: Row, worker: nat, items: seq<ItemStatus>)
    requires Holds(row, worker) && Holds(claim, worker) && row.claims == claim.claims
    ensures RefreshRow(row, worker, items) == RefreshRow(claim, worker, items)
    ensures RefreshRow(row, worker, items).claims == claim.claims
  {
    hide PublicJobStatus, Count;
  }

  lemma UnfinishedKeepsLease(claim: Row, worker: nat, items: seq<ItemStatus>, i: nat)
    requires Holds(claim, worker) && i < |items| && items[i].ItemQueued?
    ensures Holds(RefreshRow(claim, worker, items), worker)
  {
    assert !AllTerminal(items) by {
      assert !TerminalItem(items[i]);
    }
    hide Count;
  }

  lemma {:induction false} CountAppended(items: seq<ItemStatus>, last: ItemStatus)
    ensures forall st :: Count(items + [last], st) == Count(items, st) + (if last == st then 1 else 0)
  {
    if items != [] {
      assert (items + [last])[1..] == items[1..] + [last];
      CountAppended(items[1..], last);
    } else {
      assert forall st :: Count([last], st) == (if last == st then 1 else 0) + Count([], st);
    }
  }
}
