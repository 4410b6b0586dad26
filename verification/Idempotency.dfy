/**
 * Idempotent execution (idempotency-service.ts): callers that share one organization, operation and key, each between
 * any two of its database calls.  A reservation row is unique per key, lives 24 hours, and is compared by the canonical
 * text of the request; its SHA-256 is taken to be injective.
 */
module Idempotency {
  import opened Wrappers
  import CanonicalJson

  type Json = CanonicalJson.Json

  const LIFETIME := 24 * 60 * 60_000

  function Hash(request: Json): CanonicalJson.Text {
    CanonicalJson.StableJson(request)
  }

  /** A response body is absent when the value serializes to null. */
  type Body = Option<int>

  datatype Record = Record(id: nat, hash: CanonicalJson.Text, completed: bool, body: Body, expiresAt: int)

  /** Where a caller is; after its reads it works on what it read, after its reservation on that. */
  datatype Pc =
    | Arrived
    | Purging(stale: Record)
    | Creating
    | Rereading
    | Executing(id: nat)
    | Saving(id: nat, value: Body)
    | Releasing(id: nat)
    | Returned(id: nat, value: Body)
    | Refused
    | StillInProgress
    | Thrown

  datatype Caller = Caller(request: Json, pc: Pc)

  /** What the proofs remember of each reservation ever made. */
  datatype Reservation = Reservation(request: Json, createdAt: int, saved: bool, body: Body)

  datatype State = State(now: int, record: Option<Record>, callers: map<nat, Caller>, nextId: nat, made: map<nat, Reservation>)

  datatype Reply = Good | EffectThenError | NoEffect

  datatype Step =
    | Tick(ms: nat)
    | Arrive(caller: nat, request: Json)
    | Read(caller: nat)
    | Purge(caller: nat)
    | Create(caller: nat)
    | Reread(caller: nat)
    | Execute(caller: nat, result: Option<Body>)
    | Save(caller: nat, reply: Reply)
    | Release(caller: nat, reply: Reply)
    | Crash(caller: nat)

  function Init(now: int): State {
    State(now, None, map[], 0, map[])
  }

  function Goto(s: State, c: nat, pc: Pc): State
    requires c in s.callers
  {
    s.(callers := s.callers[c := s.callers[c].(pc := pc)])
  }

  /** What a caller gets from somebody else's record. */
  function Replay(record: Record, request: Json): Pc {
    if record.hash != Hash(request) then Refused
    else if !record.completed || record.body.None? then StillInProgress
    else Returned(record.id, record.body)
  }

  function At(s: State, c: nat): Pc {
    if c in s.callers then s.callers[c].pc else Thrown
  }

  function ReadStep(s: State, c: nat): State
    requires c in s.callers
  {
    if s.record.None? then Goto(s, c, Creating)
    else if s.record.value.expiresAt <= s.now then Goto(s, c, Purging(s.record.value))
    else Goto(s, c, Replay(s.record.value, s.callers[c].request))
  }

  function PurgeStep(s: State, c: nat): State
    requires c in s.callers && s.callers[c].pc.Purging?
  {
    var stale := s.callers[c].pc.stale;
    var gone := s.record.Some? && s.record.value.id == stale.id && s.record.value.expiresAt <= s.now;
    Goto(if gone then s.(record := None) else s, c, Creating)
  }

  /** The unique index admits one reservation per key. */
  function CreateStep(s: State, c: nat): State
    requires c in s.callers
  {
    if s.record.Some? then Goto(s, c, Rereading)
    else
      var request := s.callers[c].request;
      Goto(s.(record := Some(Record(s.nextId, Hash(request), false, None, s.now + LIFETIME)),
              made := s.made[s.nextId := Reservation(request, s.now, false, None)],
              nextId := s.nextId + 1), c, Executing(s.nextId))
  }

  function RereadStep(s: State, c: nat): State
    requires c in s.callers
  {
    if s.record.None? then Goto(s, c, Thrown) else Goto(s, c, Replay(s.record.value, s.callers[c].request))
  }

  /** The update finds the reservation by its id and fails if it is gone. */
  function SaveStep(s: State, c: nat, reply: Reply): State
    requires c in s.callers && s.callers[c].pc.Saving?
  {
    var id, value := s.callers[c].pc.id, s.callers[c].pc.value;
    if reply.NoEffect? || s.record.None? || s.record.value.id != id then Goto(s, c, Releasing(id))
    else
      var t := s.(record := Some(s.record.value.(completed := true, body := value)),
                  made := if id in s.made then s.made[id := s.made[id].(saved := true, body := value)] else s.made);
      Goto(t, c, if reply.Good? then Returned(id, value) else Releasing(id))
  }

  function ReleaseStep(s: State, c: nat, reply: Reply): State
    requires c in s.callers && s.callers[c].pc.Releasing?
  {
    var mine := s.record.Some? && s.record.value.id == s.callers[c].pc.id && !s.record.value.completed;
    Goto(if mine && !reply.NoEffect? then s.(record := None) else s, c, Thrown)
  }

  function Apply(s: State, step: Step): State {
    match step
    case Tick(ms) => s.(now := s.now + ms)
    case Arrive(c, request) =>
      if c in s.callers || !CanonicalJson.Valid(request) then s else s.(callers := s.callers[c := Caller(request, Arrived)])
    case Read(c) => if At(s, c).Arrived? then ReadStep(s, c) else s
    case Purge(c) => if At(s, c).Purging? then PurgeStep(s, c) else s
    case Create(c) => if At(s, c).Creating? then CreateStep(s, c) else s
    case Reread(c) => if At(s, c).Rereading? then RereadStep(s, c) else s
    case Execute(c, result) =>
      if At(s, c).Executing?
      then Goto(s, c, if result.Some? then Saving(At(s, c).id, result.value) else Releasing(At(s, c).id)) else s
    case Save(c, reply) => if At(s, c).Saving? then SaveStep(s, c, reply) else s
    case Release(c, reply) => if At(s, c).Releasing? then ReleaseStep(s, c, reply) else s
    case Crash(c) => s.(callers := s.callers - {c})
  }

  function Exec(s: State, steps: seq<Step>): State
    decreases |steps|
  {
    if steps == [] then s else Exec(Apply(s, steps[0]), steps[1..])
  }

  // ----- what every step keeps

  /** Is the caller between its reservation and the fate of it? */
  predicate InFlight(pc: Pc) {
    pc.Executing? || pc.Saving?
  }

  /** Is the reservation the caller's to complete or to release? */
  predicate Owns(pc: Pc) {
    InFlight(pc) || pc.Releasing?
  }

  function ExpiresAt(r: Reservation): int {
    r.createdAt + LIFETIME
  }

  /** The row is the last reservation, and shows what is remembered of it. */
  ghost predicate RecordFits(record: Option<Record>, nextId: nat, made: map<nat, Reservation>) {
    record.Some? ==>
      var r := record.value;
      && r.id in made
      && r.id + 1 == nextId
      && r.hash == Hash(made[r.id].request)
      && r.completed == made[r.id].saved
      && r.expiresAt == ExpiresAt(made[r.id])
      && (r.completed ==> r.body == made[r.id].body)
  }

  predicate CallerFits(now: int, record: Option<Record>, made: map<nat, Reservation>, c: Caller) {
    match c.pc
    case Executing(id) => ReservedBy(now, record, made, id, c.request)
    case Saving(id, _) => ReservedBy(now, record, made, id, c.request)
    case Releasing(id) => id in made
    case Returned(id, value) =>
      id in made && made[id].saved && made[id].body == value && Hash(made[id].request) == Hash(c.request)
    case _ => true
  }

  /** An execution whose reservation lives is the one in the row. */
  predicate ReservedBy(now: int, record: Option<Record>, made: map<nat, Reservation>, id: nat, request: Json) {
    && id in made && !made[id].saved && made[id].request == request
    && (ExpiresAt(made[id]) > now ==> record.Some? && record.value.id == id)
  }

  /** A saved reservation stays in the row until it expires, so a later one is made only after that. */
  ghost predicate HistoryFits(now: int, record: Option<Record>, nextId: nat, made: map<nat, Reservation>) {
    && (forall i :: i in made ==> i < nextId && made[i].createdAt <= now)
    && (forall i :: i in made && made[i].saved ==> ExpiresAt(made[i]) <= now || (record.Some? && record.value.id == i))
    && (forall i, j :: i in made && j in made && i < j && made[i].saved ==> ExpiresAt(made[i]) <= made[j].createdAt)
    && (forall i :: i in made ==> CanonicalJson.Valid(made[i].request))
  }

  ghost predicate DistinctIds(callers: map<nat, Caller>) {
    forall c, d :: c in callers && d in callers && Owns(callers[c].pc) && Owns(callers[d].pc)
      ==> callers[c].pc.id == callers[d].pc.id ==> c == d
  }

  ghost predicate Inv(s: State) {
    && RecordFits(s.record, s.nextId, s.made)
    && HistoryFits(s.now, s.record, s.nextId, s.made)
    && (forall c :: c in s.callers ==> CallerFits(s.now, s.record, s.made, s.callers[c]) && CanonicalJson.Valid(s.callers[c].request))
    && DistinctIds(s.callers)
  }

  lemma GotoKeeps(s: State, c: nat, pc: Pc)
    requires Inv(s) && c in s.callers && CallerFits(s.now, s.record, s.made, s.callers[c].(pc := pc))
    requires Owns(pc) ==> Owns(s.callers[c].pc) && pc.id == s.callers[c].pc.id
    ensures Inv(Goto(s, c, pc))
  {
    hide RecordFits, HistoryFits, CallerFits, CanonicalJson.Valid;
  }

  lemma Parts(s: State, c: nat)
    requires Inv(s) && c in s.callers
    ensures CallerFits(s.now, s.record, s.made, s.callers[c]) && RecordFits(s.record, s.nextId, s.made)
  {
    hide RecordFits, HistoryFits, CallerFits, DistinctIds;
  }

  lemma ReplayFits(s: State, c: nat)
    requires Inv(s) && c in s.callers && s.record.Some?
    ensures var pc := Replay(s.record.value, s.callers[c].request); !Owns(pc) && CallerFits(s.now, s.record, s.made, s.callers[c].(pc := pc))
  {
    hide Hash, HistoryFits, DistinctIds;
  }

  lemma ReadKeeps(s: State, c: nat)
    requires Inv(s) && c in s.callers && s.callers[c].pc.Arrived?
    ensures Inv(ReadStep(s, c))
  {
    hide Inv, Replay, Goto;
    GotoKeeps(s, c, Creating);
    if s.record.Some? {
      GotoKeeps(s, c, Purging(s.record.value));
      ReplayFits(s, c);
      GotoKeeps(s, c, Replay(s.record.value, s.callers[c].request));
    }
  }

  lemma RereadKeeps(s: State, c: nat)
    requires Inv(s) && c in s.callers && s.callers[c].pc.Rereading?
    ensures Inv(RereadStep(s, c))
  {
    hide Inv, Replay, Goto;
    GotoKeeps(s, c, Thrown);
    if s.record.Some? {
      ReplayFits(s, c);
      GotoKeeps(s, c, Replay(s.record.value, s.callers[c].request));
    }
  }

  /** Removing a row that is expired or was never saved, and whose maker is not waiting for it. */
  lemma RemovalKeeps(s: State)
    requires Inv(s) && s.record.Some?
    requires s.record.value.expiresAt <= s.now
             || (!s.record.value.completed && forall c :: c in s.callers && InFlight(s.callers[c].pc) ==> s.callers[c].pc.id != s.record.value.id)
    ensures Inv(s.(record := None))
  {
    hide Hash;
  }

  lemma PurgeKeeps(s: State, c: nat)
    requires Inv(s) && c in s.callers && s.callers[c].pc.Purging?
    ensures Inv(PurgeStep(s, c))
  {
    hide Inv;
    GotoKeeps(s, c, Creating);
    if s.record.Some? && s.record.value.expiresAt <= s.now {
      RemovalKeeps(s);
      GotoKeeps(s.(record := None), c, Creating);
    }
  }

  lemma MadeKeeps(s: State, request: Json)
    requires Inv(s) && s.record.None? && CanonicalJson.Valid(request)
    ensures Inv(s.(record := Some(Record(s.nextId, Hash(request), false, None, s.now + LIFETIME)),
                   made := s.made[s.nextId := Reservation(request, s.now, false, None)], nextId := s.nextId + 1))
  {
    hide Hash, CanonicalJson.Valid, DistinctIds;
    var record := Some(Record(s.nextId, Hash(request), false, None, s.now + LIFETIME));
    var made := s.made[s.nextId := Reservation(request, s.now, false, None)];
    forall c | c in s.callers
      ensures CallerFits(s.now, record, made, s.callers[c])
    {
      assert CallerFits(s.now, s.record, s.made, s.callers[c]);
    }
    assert HistoryFits(s.now, record, s.nextId + 1, made) by { MadeFits(s, request, record.value); }
    hide HistoryFits, CallerFits;
  }

  lemma MadeFits(s: State, request: Json, record: Record)
    requires HistoryFits(s.now, s.record, s.nextId, s.made) && s.record.None? && CanonicalJson.Valid(request)
    ensures HistoryFits(s.now, Some(record), s.nextId + 1, s.made[s.nextId := Reservation(request, s.now, false, None)])
  {
    hide CanonicalJson.Valid;
  }

  lemma StartKeeps(s: State, c: nat, id: nat)
    requires Inv(s) && c in s.callers && !Owns(s.callers[c].pc) && ReservedBy(s.now, s.record, s.made, id, s.callers[c].request)
    requires forall d :: d in s.callers && Owns(s.callers[d].pc) ==> s.callers[d].pc.id != id
    ensures Inv(Goto(s, c, Executing(id)))
  {
    hide RecordFits, HistoryFits, ReservedBy, CanonicalJson.Valid;
  }

  lemma CreateKeeps(s: State, c: nat)
    requires Inv(s) && c in s.callers && s.callers[c].pc.Creating?
    ensures Inv(CreateStep(s, c))
  {
    hide Inv, Hash;
    if s.record.Some? {
      GotoKeeps(s, c, Rereading);
    } else {
      var request := s.callers[c].request;
      ValidRequest(s, c);
      MadeKeeps(s, request);
      IdsAreOld(s);
      var t := s.(record := Some(Record(s.nextId, Hash(request), false, None, s.now + LIFETIME)),
                  made := s.made[s.nextId := Reservation(request, s.now, false, None)], nextId := s.nextId + 1);
      StartKeeps(t, c, s.nextId);
    }
  }

  lemma ValidRequest(s: State, c: nat)
    requires Inv(s) && c in s.callers
    ensures CanonicalJson.Valid(s.callers[c].request)
  {
    hide CanonicalJson.Valid, RecordFits, HistoryFits, CallerFits, DistinctIds;
  }

  lemma IdsAreOld(s: State)
    requires Inv(s)
    ensures forall c :: c in s.callers && Owns(s.callers[c].pc) ==> s.callers[c].pc.id < s.nextId
  {
    forall c | c in s.callers && Owns(s.callers[c].pc)
      ensures s.callers[c].pc.id < s.nextId
    {
      assert CallerFits(s.now, s.record, s.made, s.callers[c]);
    }
  }

  lemma SavedKeeps(s: State, c: nat, value: Body)
    requires Inv(s) && c in s.callers && s.callers[c].pc.Saving? && s.record.Some? && s.record.value.id == s.callers[c].pc.id
    ensures var id := s.record.value.id;
            Inv(s.(record := Some(s.record.value.(completed := true, body := value)),
                   made := s.made[id := s.made[id].(saved := true, body := value)],
                   callers := s.callers[c := s.callers[c].(pc := Releasing(id))]))
            && id in s.made
            && (value == s.callers[c].pc.value ==>
                  Inv(s.(record := Some(s.record.value.(completed := true, body := value)),
                         made := s.made[id := s.made[id].(saved := true, body := value)],
                         callers := s.callers[c := s.callers[c].(pc := Returned(id, value))])))
  {
    hide Hash, CanonicalJson.Valid;
    assert CallerFits(s.now, s.record, s.made, s.callers[c]);
  }

  lemma SaveKeeps(s: State, c: nat, reply: Reply)
    requires Inv(s) && c in s.callers && s.callers[c].pc.Saving?
    ensures Inv(SaveStep(s, c, reply))
  {
    hide Inv;
    Parts(s, c);
    GotoKeeps(s, c, Releasing(s.callers[c].pc.id));
    if s.record.Some? && s.record.value.id == s.callers[c].pc.id {
      SavedKeeps(s, c, s.callers[c].pc.value);
    }
  }

  lemma OnlyOwner(s: State, c: nat)
    requires Inv(s) && c in s.callers && Owns(s.callers[c].pc)
    ensures forall d :: d in s.callers && d != c && Owns(s.callers[d].pc) ==> s.callers[d].pc.id != s.callers[c].pc.id
  {
    hide RecordFits, HistoryFits, CallerFits;
  }

  lemma ReleaseKeeps(s: State, c: nat, reply: Reply)
    requires Inv(s) && c in s.callers && s.callers[c].pc.Releasing?
    ensures Inv(ReleaseStep(s, c, reply))
  {
    hide Inv;
    GotoKeeps(s, c, Thrown);
    if s.record.Some? && s.record.value.id == s.callers[c].pc.id && !s.record.value.completed {
      OnlyOwner(s, c);
      RemovalKeeps(s);
      GotoKeeps(s.(record := None), c, Thrown);
    }
  }

  lemma TickKeeps(s: State, ms: nat)
    requires Inv(s)
    ensures Inv(s.(now := s.now + ms))
  {
    hide Hash, CanonicalJson.Valid, RecordFits, DistinctIds;
    forall c | c in s.callers
      ensures CallerFits(s.now + ms, s.record, s.made, s.callers[c])
    {
      assert CallerFits(s.now, s.record, s.made, s.callers[c]);
    }
    hide CallerFits;
  }

  lemma ArriveKeeps(s: State, c: nat, request: Json)
    requires Inv(s) && c !in s.callers && CanonicalJson.Valid(request)
    ensures Inv(s.(callers := s.callers[c := Caller(request, Arrived)]))
  {
    hide Hash, CanonicalJson.Valid, RecordFits, HistoryFits;
  }

  lemma CrashKeeps(s: State, c: nat)
    requires Inv(s)
    ensures Inv(s.(callers := s.callers - {c}))
  {
    hide Hash, CanonicalJson.Valid, RecordFits, HistoryFits, CallerFits;
  }

  lemma ExecuteKeeps(s: State, c: nat, result: Option<Body>)
    requires Inv(s) && c in s.callers && s.callers[c].pc.Executing?
    ensures Inv(Apply(s, Execute(c, result)))
  {
    hide Inv, Goto, Hash;
    Parts(s, c);
    var id := s.callers[c].pc.id;
    GotoKeeps(s, c, Releasing(id));
    if result.Some? {
      GotoKeeps(s, c, Saving(id, result.value));
    }
  }

  lemma StepKeepsInv(s: State, step: Step)
    requires Inv(s)
    ensures Inv(Apply(s, step))
  {
    hide Inv, Goto, ReadStep, PurgeStep, CreateStep, RereadStep, SaveStep, ReleaseStep, CanonicalJson.Valid;
    match step
    case Tick(ms) => TickKeeps(s, ms);
    case Arrive(c, request) =>
      if c !in s.callers && CanonicalJson.Valid(request) {
        ArriveKeeps(s, c, request);
      }
    case Read(c) =>
      if At(s, c).Arrived? {
        ReadKeeps(s, c);
      }
    case Purge(c) =>
      if At(s, c).Purging? {
        PurgeKeeps(s, c);
      }
    case Create(c) =>
      if At(s, c).Creating? {
        CreateKeeps(s, c);
      }
    case Reread(c) =>
      if At(s, c).Rereading? {
        RereadKeeps(s, c);
      }
    case Execute(c, result) =>
      if At(s, c).Executing? {
        ExecuteKeeps(s, c, result);
      }
    case Save(c, reply) =>
      if At(s, c).Saving? {
        SaveKeeps(s, c, reply);
      }
    case Release(c, reply) =>
      if At(s, c).Releasing? {
        ReleaseKeeps(s, c, reply);
      }
    case Crash(c) => CrashKeeps(s, c);
  }

  lemma {:induction false} ExecKeepsInv(s: State, steps: seq<Step>)
    requires Inv(s)
    ensures Inv(Exec(s, steps))
    decreases |steps|
  {
    hide Inv, Apply;
    if steps != [] {
      StepKeepsInv(s, steps[0]);
      ExecKeepsInv(Apply(s, steps[0]), steps[1..]);
    }
  }

  lemma InitHolds(now: int)
    ensures Inv(Init(now))
  {
  }

  /**
   * After every run, of two executions in flight at least one has outlived its reservation, so within a lifetime
   * executions never overlap.
   */
  lemma ExecutionsDoNotOverlap(now: int, steps: seq<Step>, c: nat, d: nat)
    ensures var s := Exec(Init(now), steps);
            c in s.callers && d in s.callers && InFlight(s.callers[c].pc) && InFlight(s.callers[d].pc) && c != d ==>
              && s.callers[c].pc.id in s.made && s.callers[d].pc.id in s.made
              && (ExpiresAt(s.made[s.callers[c].pc.id]) <= s.now || ExpiresAt(s.made[s.callers[d].pc.id]) <= s.now)
  {
    hide Apply, Exec;
    InitHolds(now);
    ExecKeepsInv(Init(now), steps);
    var s := Exec(Init(now), steps);
    if c in s.callers && d in s.callers && InFlight(s.callers[c].pc) && InFlight(s.callers[d].pc) && c != d {
      Parts(s, c);
      Parts(s, d);
      OnlyOwner(s, c);
    }
  }

  /**
   * After every run, two callers that got a value either got the one value saved for their common reservation, for
   * requests that are equal up to the order of object keys, or the earlier reservation had expired when the later one was
   * made.
   */
  lemma SuccessesAgree(now: int, steps: seq<Step>, c: nat, d: nat)
    ensures var s := Exec(Init(now), steps);
            c in s.callers && d in s.callers && s.callers[c].pc.Returned? && s.callers[d].pc.Returned? ==>
              var i, j := s.callers[c].pc.id, s.callers[d].pc.id;
              && i in s.made && j in s.made
              && (i == j ==> s.callers[c].pc.value == s.callers[d].pc.value
                             && CanonicalJson.Equivalent(s.callers[c].request, s.callers[d].request))
              && (i < j ==> ExpiresAt(s.made[i]) <= s.made[j].createdAt)
  {
    hide Apply, Exec;
    InitHolds(now);
    ExecKeepsInv(Init(now), steps);
    var s := Exec(Init(now), steps);
    if c in s.callers && d in s.callers && s.callers[c].pc.Returned? && s.callers[d].pc.Returned? {
      Parts(s, c);
      Parts(s, d);
      ValidRequest(s, c);
      ValidRequest(s, d);
      CanonicalJson.StableJsonIsCanonical(s.callers[c].request, s.callers[d].request);
      History(s);
      hide Inv, CanonicalJson.StableJson, CanonicalJson.Equivalent;
    }
  }

  lemma History(s: State)
    requires Inv(s)
    ensures HistoryFits(s.now, s.record, s.nextId, s.made)
  {
    hide HistoryFits, RecordFits, CallerFits;
  }

  /** Does the step refuse the caller? */
  predicate Refuses(s: State, step: Step, c: nat) {
    c in s.callers && Apply(s, step) == Goto(s, c, Refused)
  }

  /**
   * Whoever reads a living record, first or after another reservation was in the way of its own, is refused if and only
   * if its request is not equal to the record's up to the order of object keys; and a refusal changes nothing else.
   */
  lemma DifferentRequestIsRefused(now: int, steps: seq<Step>, c: nat)
    ensures var s := Exec(Init(now), steps);
            c in s.callers && s.record.Some? ==>
              && s.record.value.id in s.made
              && var same := CanonicalJson.Equivalent(s.callers[c].request, s.made[s.record.value.id].request);
              && (s.callers[c].pc.Arrived? && s.record.value.expiresAt > s.now ==> (Refuses(s, Read(c), c) <==> !same))
              && (s.callers[c].pc.Rereading? ==> (Refuses(s, Reread(c), c) <==> !same))
  {
    hide Exec;
    InitHolds(now);
    ExecKeepsInv(Init(now), steps);
    var s := Exec(Init(now), steps);
    if c in s.callers && s.record.Some? {
      ReplayRefuses(s, c);
      hide Inv, Replay, CanonicalJson.Equivalent;
    }
  }

  lemma ReplayRefuses(s: State, c: nat)
    requires Inv(s) && c in s.callers && s.record.Some?
    ensures s.record.value.id in s.made
    ensures var pc := Replay(s.record.value, s.callers[c].request);
            && (pc.Refused? <==> !CanonicalJson.Equivalent(s.callers[c].request, s.made[s.record.value.id].request))
            && (Goto(s, c, pc) == Goto(s, c, Refused) <==> pc.Refused?)
  {
    ValidRequest(s, c);
    History(s);
    CanonicalJson.StableJsonIsCanonical(s.callers[c].request, s.made[s.record.value.id].request);
    hide HistoryFits, CallerFits, DistinctIds, CanonicalJson.StableJson, CanonicalJson.Equivalent, CanonicalJson.Valid;
    var pc := Replay(s.record.value, s.callers[c].request);
    assert Goto(s, c, pc).callers[c].pc == pc;
    assert Goto(s, c, Refused).callers[c].pc == Refused;
  }

  /** Does the step send the caller to the given place, and change nothing else? */
  predicate Sends(s: State, step: Step, c: nat, pc: Pc) {
    c in s.callers && Apply(s, step) == s.(callers := s.callers[c := Caller(s.callers[c].request, pc)])
  }

  /**
   * Whoever reads a living record with an equivalent request gets exactly what was saved for the reservation; it is told
   * that the request is in progress if and only if nothing was saved yet, or null.
   */
  ghost predicate AnswersFromRecord(s: State, step: Step, c: nat)
    requires c in s.callers && s.record.Some? && s.record.value.id in s.made
  {
    var id := s.record.value.id;
    var made := s.made[id];
    CanonicalJson.Equivalent(s.callers[c].request, made.request) ==>
      && (forall value: Body :: value.Some? ==> (Sends(s, step, c, Returned(id, value)) <==> made.saved && made.body == value))
      && (Sends(s, step, c, StillInProgress) <==> !made.saved || made.body.None?)
  }

  lemma RepeatedRequestIsAnswered(now: int, steps: seq<Step>, c: nat)
    ensures var s := Exec(Init(now), steps);
            c in s.callers && s.record.Some? ==>
              && s.record.value.id in s.made
              && (s.callers[c].pc.Arrived? && s.record.value.expiresAt > s.now ==> AnswersFromRecord(s, Read(c), c))
              && (s.callers[c].pc.Rereading? ==> AnswersFromRecord(s, Reread(c), c))
  {
    hide Exec;
    InitHolds(now);
    ExecKeepsInv(Init(now), steps);
    var s := Exec(Init(now), steps);
    if c in s.callers && s.record.Some? {
      ReplayAnswers(s, c);
      if s.callers[c].pc.Arrived? && s.record.value.expiresAt > s.now {
        ReplayIsAnswer(s, Read(c), c);
      } else if s.callers[c].pc.Rereading? {
        ReplayIsAnswer(s, Reread(c), c);
      }
      hide Inv, Replay, Goto, AnswersFromRecord;
    }
  }

  lemma ReplayAnswers(s: State, c: nat)
    requires Inv(s) && c in s.callers && s.record.Some?
    ensures var pc, id := Replay(s.record.value, s.callers[c].request), s.record.value.id;
            && id in s.made
            && (!pc.Refused? ==> pc == if s.made[id].saved && s.made[id].body.Some? then Returned(id, s.made[id].body) else StillInProgress)
  {
    hide HistoryFits, CallerFits, DistinctIds, Hash;
  }

  lemma ReplayIsAnswer(s: State, step: Step, c: nat)
    requires Inv(s) && c in s.callers && s.record.Some? && s.record.value.id in s.made
    requires Apply(s, step) == Goto(s, c, Replay(s.record.value, s.callers[c].request))
    ensures AnswersFromRecord(s, step, c)
  {
    hide Inv, Replay, CanonicalJson.Equivalent, Goto, Apply;
    ReplayRefuses(s, c);
    ReplayAnswers(s, c);
    GotoTells(s, c);
  }

  lemma GotoTells(s: State, c: nat)
    requires c in s.callers
    ensures forall pc, other :: Goto(s, c, pc) == s.(callers := s.callers[c := Caller(s.callers[c].request, other)]) <==> pc == other
  {
    forall pc, other
      ensures Goto(s, c, pc) == s.(callers := s.callers[c := Caller(s.callers[c].request, other)]) <==> pc == other
    {
      assert Goto(s, c, pc).callers[c].pc == pc;
    }
  }

  /** A record is removed exactly by a purge that saw it expired, or by its own maker's release before it was completed. */
  lemma RecordGoesExactly(s: State, step: Step)
    requires s.record.Some?
    ensures Apply(s, step).record.None? <==>
              || (step.Purge? && At(s, step.caller).Purging? && At(s, step.caller).stale.id == s.record.value.id
                  && s.record.value.expiresAt <= s.now)
              || (step.Release? && At(s, step.caller) == Releasing(s.record.value.id) && !s.record.value.completed && !step.reply.NoEffect?)
  {
    hide Hash, CanonicalJson.Valid, Replay;
  }

  // ----- where saved values come from

  /** At some moment of the run an execution under the reservation ended with the value. */
  ghost predicate Executed(now: int, steps: seq<Step>, id: nat, value: Body) {
    exists i, c: nat ::
      && 0 <= i < |steps| && steps[i] == Execute(c, Some(value))
      && At(Exec(Init(now), steps[..i]), c) == Executing(id)
  }

  ghost predicate ResultsFit(now: int, steps: seq<Step>, s: State) {
    && (forall id :: id in s.made && s.made[id].saved ==> Executed(now, steps, id, s.made[id].body))
    && (forall c :: c in s.callers && s.callers[c].pc.Saving? ==> Executed(now, steps, s.callers[c].pc.id, s.callers[c].pc.value))
  }

  lemma ExecAppends(s: State, steps: seq<Step>, step: Step)
    ensures Exec(s, steps + [step]) == Apply(Exec(s, steps), step)
    decreases |steps|
  {
    hide Apply;
    if steps == [] {
      assert steps + [step] == [step] && [step][1..] == [];
    } else {
      assert (steps + [step])[1..] == steps[1..] + [step];
      ExecAppends(Apply(s, steps[0]), steps[1..], step);
    }
  }

  lemma StillExecuted(now: int, steps: seq<Step>, step: Step, id: nat, value: Body)
    requires Executed(now, steps, id, value)
    ensures Executed(now, steps + [step], id, value)
  {
    hide Exec;
    var i, c :| 0 <= i < |steps| && steps[i] == Execute(c, Some(value)) && At(Exec(Init(now), steps[..i]), c) == Executing(id);
    assert (steps + [step])[..i] == steps[..i] && (steps + [step])[i] == steps[i];
  }

  lemma JustExecuted(now: int, steps: seq<Step>, c: nat, value: Body, id: nat)
    requires At(Exec(Init(now), steps), c) == Executing(id)
    ensures Executed(now, steps + [Execute(c, Some(value))], id, value)
  {
    hide Exec;
    var all := steps + [Execute(c, Some(value))];
    assert all[..|steps|] == steps && all[|steps|] == Execute(c, Some(value));
  }

  /** Where a step's saved bodies and values to be saved come from. */
  lemma ResultsComeFrom(s: State, step: Step)
    ensures var t := Apply(s, step);
            && (forall id :: id in t.made && t.made[id].saved ==>
                  || (id in s.made && s.made[id] == t.made[id])
                  || exists c :: c in s.callers && s.callers[c].pc == Saving(id, t.made[id].body))
            && (forall c :: c in t.callers && t.callers[c].pc.Saving? ==>
                  || (c in s.callers && s.callers[c].pc == t.callers[c].pc)
                  || (step == Execute(c, Some(t.callers[c].pc.value)) && At(s, c) == Executing(t.callers[c].pc.id)))
  {
    hide Hash, CanonicalJson.Valid;
  }

  lemma {:induction false} ResultsAreExecuted(now: int, steps: seq<Step>)
    ensures ResultsFit(now, steps, Exec(Init(now), steps))
    decreases |steps|
  {
    hide Apply;
    if steps != [] {
      var front, step := steps[..|steps| - 1], steps[|steps| - 1];
      assert steps == front + [step];
      ResultsAreExecuted(now, front);
      ExecAppends(Init(now), front, step);
      ResultStepFits(now, front, step);
    }
  }

  lemma ResultStepFits(now: int, steps: seq<Step>, step: Step)
    requires ResultsFit(now, steps, Exec(Init(now), steps))
    ensures ResultsFit(now, steps + [step], Apply(Exec(Init(now), steps), step))
  {
    hide Apply, Exec, Executed;
    var s := Exec(Init(now), steps);
    var t := Apply(s, step);
    ResultsComeFrom(s, step);
    forall id | id in t.made && t.made[id].saved
      ensures Executed(now, steps + [step], id, t.made[id].body)
    {
      StillExecuted(now, steps, step, id, t.made[id].body);
    }
    forall c | c in t.callers && t.callers[c].pc.Saving?
      ensures Executed(now, steps + [step], t.callers[c].pc.id, t.callers[c].pc.value)
    {
      if c in s.callers && s.callers[c].pc == t.callers[c].pc {
        StillExecuted(now, steps, step, t.callers[c].pc.id, t.callers[c].pc.value);
      } else {
        JustExecuted(now, steps, c, t.callers[c].pc.value, t.callers[c].pc.id);
      }
    }
  }

  /** After every run, what a caller got back is what an execution under that reservation returned. */
  lemma ReturnedValuesWereExecuted(now: int, steps: seq<Step>, c: nat)
    ensures var s := Exec(Init(now), steps);
            c in s.callers && s.callers[c].pc.Returned? ==> Executed(now, steps, s.callers[c].pc.id, s.callers[c].pc.value)
  {
    hide Exec, Executed;
    InitHolds(now);
    ExecKeepsInv(Init(now), steps);
    ResultsAreExecuted(now, steps);
    var s := Exec(Init(now), steps);
    if c in s.callers {
      Parts(s, c);
    }
  }

  // ----- one caller alone

  /** The steps of a caller that nobody disturbs; steps that do not apply to it do nothing. */
  function AloneSteps(c: nat, request: Json, result: Option<Body>): seq<Step> {
    [Arrive(c, request), Read(c), Purge(c), Create(c), Execute(c, result), Save(c, Good), Release(c, Good)]
  }

  lemma {:induction false} ExecChain(s: State, steps: seq<Step>, more: seq<Step>)
    ensures Exec(s, steps + more) == Exec(Exec(s, steps), more)
    decreases |more|
  {
    hide Apply;
    if more == [] {
      assert steps + more == steps;
    } else {
      ExecAppends(s, steps, more[0]);
      assert steps + more == (steps + [more[0]]) + more[1..];
      ExecChain(s, steps + [more[0]], more[1..]);
    }
  }

  lemma ExecThree(s: State, a: Step, b: Step, c: Step)
    ensures Exec(s, [a, b, c]) == Apply(Apply(Apply(s, a), b), c)
  {
    hide Apply;
    assert [a, b, c][1..] == [b, c] && [b, c][1..] == [c] && [c][1..] == [];
    assert Exec(Apply(s, a), [b, c]) == Exec(Apply(Apply(s, a), b), [c]);
    assert Exec(Apply(Apply(s, a), b), [c]) == Exec(Apply(Apply(Apply(s, a), b), c), []);
  }

  lemma ExecFour(s: State, a: Step, b: Step, c: Step, d: Step)
    ensures Exec(s, [a, b, c, d]) == Apply(Apply(Apply(Apply(s, a), b), c), d)
  {
    hide Apply;
    assert [a, b, c, d][1..] == [b, c, d];
    ExecThree(Apply(s, a), b, c, d);
  }

  lemma ReservesAlone(s: State, c: nat, request: Json)
    requires c !in s.callers && CanonicalJson.Valid(request)
    requires s.record.Some? ==> s.record.value.expiresAt <= s.now
    ensures var t := Exec(s, [Arrive(c, request), Read(c), Purge(c), Create(c)]);
            t == s.(record := Some(Record(s.nextId, Hash(request), false, None, s.now + LIFETIME)),
                    made := s.made[s.nextId := Reservation(request, s.now, false, None)], nextId := s.nextId + 1,
                    callers := s.callers[c := Caller(request, Executing(s.nextId))])
  {
    hide Hash, CanonicalJson.Valid;
    var s1 := s.(callers := s.callers[c := Caller(request, Arrived)]);
    var s2 := Apply(s1, Read(c));
    var s3 := s.(record := None, callers := s.callers[c := Caller(request, Creating)]);
    assert Apply(s2, Purge(c)) == s3 by {
      assert Apply(s2, Purge(c)).callers == s3.callers;
    }
    ArrivesAlone(s, c, request);
    ExecFour(s, Arrive(c, request), Read(c), Purge(c), Create(c));
    assert Apply(s3, Create(c)).callers == s.callers[c := Caller(request, Executing(s.nextId))];
  }

  lemma ArrivesAlone(s: State, c: nat, request: Json)
    requires c !in s.callers && CanonicalJson.Valid(request)
    ensures Apply(s, Arrive(c, request)) == s.(callers := s.callers[c := Caller(request, Arrived)])
  {
  }

  /**
   * Where no record lives, a caller that nobody disturbs executes, and its record then lives for 24 hours with what it
   * returned; if its execution throws, no record stays, so the next caller executes again.
   */
  lemma LoneCallerExecutes(s: State, c: nat, request: Json, result: Option<Body>)
    requires c !in s.callers && CanonicalJson.Valid(request)
    requires s.record.Some? ==> s.record.value.expiresAt <= s.now
    ensures var t := Exec(s, AloneSteps(c, request, result));
            if result.Some?
            then At(t, c) == Returned(s.nextId, result.value)
                 && t.record == Some(Record(s.nextId, Hash(request), true, result.value, s.now + 24 * 60 * 60_000))
            else At(t, c) == Thrown && t.record.None?
  {
    hide Hash, CanonicalJson.Valid;
    var first, second := [Arrive(c, request), Read(c), Purge(c), Create(c)], [Execute(c, result), Save(c, Good), Release(c, Good)];
    assert AloneSteps(c, request, result) == first + second;
    ExecChain(s, first, second);
    ReservesAlone(s, c, request);
    var s1 := Exec(s, first);
    ExecThree(s1, Execute(c, result), Save(c, Good), Release(c, Good));
    EndsAlone(s1, c, result, s.nextId);
    hide Apply, Exec;
  }

  lemma EndsAlone(s: State, c: nat, result: Option<Body>, id: nat)
    requires At(s, c) == Executing(id) && s.record.Some? && s.record.value.id == id && !s.record.value.completed && id in s.made
    ensures var t := Apply(Apply(Apply(s, Execute(c, result)), Save(c, Good)), Release(c, Good));
            if result.Some?
            then At(t, c) == Returned(id, result.value) && t.record == Some(s.record.value.(completed := true, body := result.value))
            else At(t, c) == Thrown && t.record.None?
  {
  }
}
