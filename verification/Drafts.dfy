/**
 * One listing draft and its writers (listing-draft-service.ts, manual-fitment-service.ts).  A writer reads the row,
 * computes, and commits later; two kinds of writer compare the version when they commit, the others rely on the unique
 * index over (draft, version) of the history table.
 */
module Drafts {
  import opened Wrappers

  /** The fields of a draft.  The details stand for title, description, condition and item specifics. */
  datatype Content = Content(
    details: string, categoryId: Option<string>, quantity: int, price: Option<int>, currency: string,
    paymentPolicyId: Option<string>, returnPolicyId: Option<string>, shippingPolicyId: Option<string>,
    merchantLocationKey: Option<string>)

  datatype Row = Row(content: Content, ready: bool, live: bool)

  /** What a writer is about to commit; readiness was computed from what it read. */
  datatype Change =
    | Edit(content: Content, ready: bool)
    | LiveValidation(ready: bool)
    | AssignPolicies(payment: string, refund: string, shipping: string, location: string, ready: bool)
    | RefreshFromCatalog(values: Content, ready: bool)
    | Invalidate

  /** A writer between its read and its commit. */
  datatype Writer = Writer(change: Change, seen: nat)

  /**
   * The row, the versions present in the history table, and two records that only the proofs use: the row committed
   * with each version and the versions committed by live validation.
   */
  datatype State = State(
    version: nat, row: Row, history: set<nat>, writers: map<nat, Writer>,
    committed: map<nat, Row>, liveWrites: set<nat>)

  datatype Step =
    | Read(writer: nat, change: Change, expected: nat)
    | Commit(writer: nat)
    | GiveUp(writer: nat)

  /** Does the writer put the version it read into its update's condition? */
  predicate Guarded(change: Change) {
    change.Edit? || change.LiveValidation? || change.AssignPolicies?
  }

  /** Is the caller's expected version compared when the row is read? */
  predicate ChecksExpected(change: Change) {
    change.Edit? || change.LiveValidation?
  }

  /** The update as the database applies it: to the row as it is now. */
  function Changed(row: Row, change: Change): Row {
    match change
    case Edit(content, ready) => Row(content, ready, false)
    case LiveValidation(ready) => Row(row.content, ready, true)
    case AssignPolicies(payment, refund, shipping, location, ready) =>
      Row(row.content.(paymentPolicyId := Some(payment), returnPolicyId := Some(refund),
                       shippingPolicyId := Some(shipping), merchantLocationKey := Some(location)), ready, false)
    case RefreshFromCatalog(values, ready) => Row(values.(categoryId := row.content.categoryId), ready, false)
    case Invalidate => Row(row.content, false, false)
  }

  function Init(content: Content, ready: bool): State {
    var row := Row(content, ready, false);
    State(1, row, {1}, map[], map[1 := row], {})
  }

  function CommitWriter(s: State, w: Writer): State {
    var next := w.seen + 1;
    if Guarded(w.change) && s.version != w.seen then s
    else if next in s.history then s
    else
      var row := Changed(s.row, w.change);
      s.(version := next, row := row, history := s.history + {next}, committed := s.committed[next := row],
         liveWrites := if w.change.LiveValidation? then s.liveWrites + {next} else s.liveWrites)
  }

  /** A step whose condition fails changes nothing. */
  function Apply(s: State, step: Step): State {
    match step
    case Read(id, change, expected) =>
      if id in s.writers || (ChecksExpected(change) && expected != s.version) then s
      else s.(writers := s.writers[id := Writer(change, s.version)])
    case Commit(id) =>
      if id !in s.writers then s
      else CommitWriter(s, s.writers[id]).(writers := s.writers - {id})
    case GiveUp(id) => s.(writers := s.writers - {id})
  }

  function Exec(s: State, steps: seq<Step>): State
    decreases |steps|
  {
    if steps == [] then s else Exec(Apply(s, steps[0]), steps[1..])
  }

  ghost predicate Inv(s: State) {
    && 1 <= s.version
    && (forall v: nat :: v in s.history <==> 1 <= v <= s.version)
    && s.committed.Keys == s.history
    && s.committed[s.version] == s.row
    && s.liveWrites <= s.history
    && (forall v: nat :: v in s.committed ==> (s.committed[v].live <==> v in s.liveWrites))
    && (forall id :: id in s.writers ==> 1 <= s.writers[id].seen <= s.version)
  }

  /** Nothing that was committed is ever committed again with something else. */
  ghost predicate Extends(s: State, t: State) {
    s.version <= t.version && forall v :: v in s.committed ==> v in t.committed && t.committed[v] == s.committed[v]
  }

  /** The unique index makes the writers without a version condition behave as if they had one. */
  lemma IndexGuardsEveryWriter(s: State, w: Writer)
    requires Inv(s) && 1 <= w.seen <= s.version
    ensures s.version != w.seen ==> CommitWriter(s, w) == s
    ensures s.version == w.seen ==> CommitWriter(s, w).version == s.version + 1
  {
  }

  lemma CommitKeepsInv(s: State, w: Writer)
    requires Inv(s) && 1 <= w.seen <= s.version
    ensures Inv(CommitWriter(s, w)) && Extends(s, CommitWriter(s, w))
    ensures CommitWriter(s, w).writers == s.writers
  {
    IndexGuardsEveryWriter(s, w);
    if s.version == w.seen {
      var t := CommitWriter(s, w);
      assert t.row.live <==> w.change.LiveValidation?;
      assert w.seen + 1 !in s.committed;
      forall v: nat | v in t.committed
        ensures t.committed[v].live <==> v in t.liveWrites
      {
        assert v == w.seen + 1 || v in s.committed;
      }
    }
  }

  lemma StepKeepsInv(s: State, step: Step)
    requires Inv(s)
    ensures Inv(Apply(s, step)) && Extends(s, Apply(s, step))
  {
    if step.Commit? && step.writer in s.writers {
      CommitKeepsInv(s, s.writers[step.writer]);
    }
  }

  lemma {:induction false} ExecKeepsInv(s: State, steps: seq<Step>)
    requires Inv(s)
    ensures Inv(Exec(s, steps)) && Extends(s, Exec(s, steps))
    decreases |steps|
  {
    if steps != [] {
      StepKeepsInv(s, steps[0]);
      ExecKeepsInv(Apply(s, steps[0]), steps[1..]);
    }
  }

  /**
   * For every interleaving of writers: the history is exactly 1..version, a row is live exactly when live validation
   * wrote the current version, and at any two moments the same version means the same row.
   */
  lemma DraftHistory(content: Content, ready: bool, before: seq<Step>, after: seq<Step>)
    ensures var s := Exec(Init(content, ready), before);
            var t := Exec(s, after);
            && (forall v: nat :: v in t.history <==> 1 <= v <= t.version)
            && (t.row.live <==> t.version in t.liveWrites)
            && s.version <= t.version
            && (s.version == t.version ==> s.row == t.row)
  {
    ExecKeepsInv(Init(content, ready), before);
    ExecKeepsInv(Exec(Init(content, ready), before), after);
  }

  predicate Touches(step: Step, id: nat) {
    match step
    case Read(w, _, _) => w == id
    case Commit(w) => w == id
    case GiveUp(w) => w == id
  }

  lemma {:induction false} OthersLeaveWriter(s: State, steps: seq<Step>, id: nat)
    requires forall i :: 0 <= i < |steps| ==> !Touches(steps[i], id)
    ensures id in Exec(s, steps).writers <==> id in s.writers
    ensures id in s.writers ==> Exec(s, steps).writers[id] == s.writers[id]
    decreases |steps|
  {
    if steps != [] {
      OthersLeaveWriter(Apply(s, steps[0]), steps[1..], id);
    }
  }

  /** What each kind of change makes of the row: what is given, and otherwise what is there. */
  predicate Makes(before: Row, after: Row, change: Change) {
    match change
    case Edit(content, ready) => after.content == content && after.ready == ready && !after.live
    case LiveValidation(ready) => after.content == before.content && after.ready == ready && after.live
    case AssignPolicies(payment, refund, shipping, location, ready) =>
      && after.ready == ready && !after.live
      && after.content.paymentPolicyId == Some(payment) && after.content.returnPolicyId == Some(refund)
      && after.content.shippingPolicyId == Some(shipping) && after.content.merchantLocationKey == Some(location)
      && after.content.details == before.content.details && after.content.categoryId == before.content.categoryId
      && after.content.quantity == before.content.quantity && after.content.price == before.content.price
      && after.content.currency == before.content.currency
    case RefreshFromCatalog(values, ready) =>
      && after.ready == ready && !after.live
      && after.content.categoryId == before.content.categoryId && after.content == values.(categoryId := before.content.categoryId)
    case Invalidate => after.content == before.content && !after.ready && !after.live
  }

  /**
   * No update is lost: after a writer's read and whatever others do, its commit takes effect, as the next version, if and
   * only if nobody committed in between, and, for an edit and a live validation, the caller expected the version read.
   */
  lemma NoUpdateIsLost(content: Content, ready: bool, before: seq<Step>, id: nat, change: Change, expected: nat, between: seq<Step>)
    requires id !in Exec(Init(content, ready), before).writers
    requires forall i :: 0 <= i < |between| ==> !Touches(between[i], id)
    ensures var s := Exec(Init(content, ready), before);
            var t := Exec(Apply(s, Read(id, change, expected)), between);
            var u := Apply(t, Commit(id));
            if s.version == t.version && (change.Edit? || change.LiveValidation? ==> expected == s.version)
            then u.version == t.version + 1 && Makes(t.row, u.row, change)
            else u.version == t.version && u.row == t.row
  {
    var s := Exec(Init(content, ready), before);
    ExecKeepsInv(Init(content, ready), before);
    StepKeepsInv(s, Read(id, change, expected));
    var s1 := Apply(s, Read(id, change, expected));
    ExecKeepsInv(s1, between);
    OthersLeaveWriter(s1, between, id);
    var t := Exec(s1, between);
    if id in s1.writers {
      IndexGuardsEveryWriter(t, t.writers[id]);
    }
    hide Exec;
  }
}
