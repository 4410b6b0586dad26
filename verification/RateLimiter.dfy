/**
 * The fixed-window rate limiter (http-hardening.ts).  Its map keeps keys in order of insertion, as a JavaScript Map
 * does: setting an existing key leaves it in place, and the first key is the oldest.
 */
module RateLimiter {
  import opened Wrappers

  datatype Window = Window(count: nat, resetAt: int)

  datatype Entry = Entry(key: string, window: Window)

  datatype Answer = Answer(allowed: bool, limit: int, remaining: int, resetAt: int, retryAfterSeconds: int)

  datatype Limits = Limits(limit: int, windowMs: int, maxKeys: int)

  predicate ValidLimits(l: Limits) {
    l.limit >= 1 && l.windowMs >= 1000
  }

  // ----- the map

  predicate Distinct(entries: seq<Entry>) {
    forall i, j :: 0 <= i < j < |entries| ==> entries[i].key != entries[j].key
  }

  function IndexOf(entries: seq<Entry>, key: string): (i: nat)
    ensures i <= |entries| && (i < |entries| ==> entries[i].key == key)
    ensures forall j :: 0 <= j < i ==> entries[j].key != key
  {
    if entries == [] || entries[0].key == key then 0 else 1 + IndexOf(entries[1..], key)
  }

  function Lookup(entries: seq<Entry>, key: string): Option<Window> {
    var i := IndexOf(entries, key);
    if i < |entries| then Some(entries[i].window) else None
  }

  function Set(entries: seq<Entry>, key: string, window: Window): seq<Entry> {
    var i := IndexOf(entries, key);
    if i < |entries| then entries[i := Entry(key, window)] else entries + [Entry(key, window)]
  }

  // ----- what a call does

  /** One more call in a window, or the first call in a new one. */
  function Counted(w: Option<Window>, now: int, windowMs: int): Window {
    if w.None? || w.value.resetAt <= now then Window(1, now + windowMs) else Window(w.value.count + 1, w.value.resetAt)
  }

  function Unexpired(entries: seq<Entry>, now: int): (r: seq<Entry>)
    ensures |r| <= |entries|
  {
    if entries == [] then []
    else (if entries[0].window.resetAt <= now then [] else [entries[0]]) + Unexpired(entries[1..], now)
  }

  /** Drop the oldest keys while there are too many; an empty key stops the pruning. */
  function Trimmed(entries: seq<Entry>, maxKeys: int): seq<Entry> {
    if |entries| <= maxKeys || entries == [] || entries[0].key == "" then entries else Trimmed(entries[1..], maxKeys)
  }

  function Pruned(entries: seq<Entry>, now: int, maxKeys: int): seq<Entry> {
    Trimmed(Unexpired(entries, now), maxKeys)
  }

  function Consumed(entries: seq<Entry>, l: Limits, key: string, now: int): seq<Entry> {
    var next := Set(entries, key, Counted(Lookup(entries, key), now, l.windowMs));
    if |next| > l.maxKeys then Pruned(next, now, l.maxKeys) else next
  }

  function Max(a: int, b: int): (r: int)
    ensures r >= a && r >= b
  {
    if a < b then b else a
  }

  function Min(a: int, b: int): int {
    if a < b then a else b
  }

  /** Rounded up to whole seconds. */
  function Seconds(ms: int): int {
    (ms + 999) / 1000
  }

  function AnswerFor(w: Window, l: Limits, now: int): Answer {
    Answer(w.count <= l.limit, l.limit, Max(0, l.limit - w.count), w.resetAt, Max(1, Seconds(w.resetAt - now)))
  }

  class FixedWindowRateLimiter {
    const limits: Limits
    var windows: seq<Entry>

    ghost predicate Valid()
      reads this
    {
      ValidLimits(limits) && Distinct(windows)
    }

    constructor (limits: Limits)
      requires ValidLimits(limits)
      ensures Valid() && this.limits == limits && windows == []
    {
      this.limits := limits;
      windows := [];
    }

    static method Create(limits: Limits) returns (r: Result<FixedWindowRateLimiter, string>)
      ensures r.Ok? <==> ValidLimits(limits)
      ensures r.Ok? ==> fresh(r.value) && r.value.Valid() && r.value.limits == limits && r.value.windows == []
      ensures r.Err? ==> r.error == (if limits.limit < 1 then "Rate limit must be a positive integer"
                                     else "Rate-limit window must be at least one second")
    {
      if limits.limit < 1 {
        return Err("Rate limit must be a positive integer");
      }
      if limits.windowMs < 1000 {
        return Err("Rate-limit window must be at least one second");
      }
      var limiter := new FixedWindowRateLimiter(limits);
      return Ok(limiter);
    }

    method Consume(key: string, now: int) returns (answer: Answer)
      requires Valid()
      modifies this
      ensures Valid()
      ensures windows == Consumed(old(windows), limits, key, now)
      ensures answer == AnswerFor(Counted(Lookup(old(windows), key), now, limits.windowMs), limits, now)
    {
      var i := IndexOf(windows, key);
      var window;
      if i == |windows| || windows[i].window.resetAt <= now {
        window := Window(0, now + limits.windowMs);
      } else {
        window := windows[i].window;
      }
      window := Window(window.count + 1, window.resetAt);
      SetKeepsDistinct(windows, key, window);
      windows := Set(windows, key, window);
      if |windows| > limits.maxKeys {
        Prune(now);
      }
      answer := Answer(window.count <= limits.limit, limits.limit, Max(0, limits.limit - window.count), window.resetAt,
                       Max(1, Seconds(window.resetAt - now)));
    }

    method Prune(now: int)
      requires Valid()
      modifies this
      ensures Valid()
      ensures windows == Pruned(old(windows), now, limits.maxKeys)
    {
      UnexpiredKeepsDistinct(windows, now);
      DropExpired(now);
      while |windows| > limits.maxKeys
        invariant Distinct(windows)
        invariant Trimmed(windows, limits.maxKeys) == Pruned(old(windows), now, limits.maxKeys)
        decreases |windows|
      {
        if windows == [] || windows[0].key == "" {
          break;
        }
        windows := windows[1..];
      }
    }

    method DropExpired(now: int)
      modifies this
      ensures windows == Unexpired(old(windows), now)
    {
      hide Unexpired;
      var kept := [];
      for i := 0 to |windows|
        invariant windows == old(windows)
        invariant kept + Unexpired(windows[i..], now) == Unexpired(windows, now)
      {
        UnexpiredStep(windows, i, now);
        Regroup(kept, windows[i], Unexpired(windows[i + 1..], now));
        if windows[i].window.resetAt > now {
          kept := kept + [windows[i]];
        }
      }
      windows := kept;
    }
  }

  lemma UnexpiredStep(entries: seq<Entry>, i: nat, now: int)
    requires i < |entries|
    ensures Unexpired(entries[i..], now)
         == (if entries[i].window.resetAt <= now then [] else [entries[i]]) + Unexpired(entries[i + 1..], now)
  {
    assert entries[i..][1..] == entries[i + 1..];
  }

  lemma Regroup(kept: seq<Entry>, e: Entry, rest: seq<Entry>)
    ensures kept + ([e] + rest) == (kept + [e]) + rest
    ensures kept + ([] + rest) == kept + rest
  {
  }

  lemma SetKeepsDistinct(entries: seq<Entry>, key: string, window: Window)
    requires Distinct(entries)
    ensures Distinct(Set(entries, key, window))
  {
  }

  lemma {:induction false} UnexpiredAreThere(entries: seq<Entry>, now: int)
    ensures forall i :: 0 <= i < |Unexpired(entries, now)| ==>
              Unexpired(entries, now)[i].window.resetAt > now && exists j :: 0 <= j < |entries| && entries[j] == Unexpired(entries, now)[i]
  {
    if entries != [] {
      UnexpiredAreThere(entries[1..], now);
      var rest := Unexpired(entries[1..], now);
      forall i | 0 <= i < |rest|
        ensures exists j :: 0 <= j < |entries| && entries[j] == rest[i]
      {
        var j :| 0 <= j < |entries[1..]| && entries[1..][j] == rest[i];
        assert entries[j + 1] == rest[i];
      }
    }
  }

  lemma {:induction false} UnexpiredKeepsDistinct(entries: seq<Entry>, now: int)
    requires Distinct(entries)
    ensures Distinct(Unexpired(entries, now))
  {
    if entries != [] {
      UnexpiredKeepsDistinct(entries[1..], now);
      UnexpiredAreThere(entries[1..], now);
    }
  }

  // ----- the size of the map

  /** Is none of the first entries, so many that only `size` follow them, under the empty key? */
  predicate MayDropTo(entries: seq<Entry>, size: nat) {
    forall i :: 0 <= i < |entries| - size ==> entries[i].key != ""
  }

  lemma {:induction false} TrimmedFits(entries: seq<Entry>, maxKeys: int)
    ensures |Trimmed(entries, maxKeys)| <= Max(0, maxKeys) <==> MayDropTo(entries, Max(0, maxKeys))
    decreases |entries|
  {
    if |entries| > maxKeys && entries != [] && entries[0].key != "" {
      TrimmedFits(entries[1..], maxKeys);
      assert entries == [entries[0]] + entries[1..];
    }
  }

  /**
   * After a call the map is within its limit if and only if it already is once the call's key is set, or no empty key is
   * among the oldest live entries, as many as are too many.
   */
  lemma SizeIsBounded(entries: seq<Entry>, l: Limits, key: string, now: int)
    ensures var next := Set(entries, key, Counted(Lookup(entries, key), now, l.windowMs));
            |Consumed(entries, l, key, now)| <= Max(0, l.maxKeys)
            <==> |next| <= Max(0, l.maxKeys) || MayDropTo(Unexpired(next, now), Max(0, l.maxKeys))
  {
    var next := Set(entries, key, Counted(Lookup(entries, key), now, l.windowMs));
    TrimmedFits(Unexpired(next, now), l.maxKeys);
  }

  predicate AllLive(entries: seq<Entry>, now: int) {
    forall i :: 0 <= i < |entries| ==> entries[i].window.resetAt > now
  }

  lemma {:induction false} LiveAreUnexpired(entries: seq<Entry>, now: int)
    requires AllLive(entries, now)
    ensures Unexpired(entries, now) == entries
  {
    if entries != [] {
      LiveAreUnexpired(entries[1..], now);
      assert entries == [entries[0]] + entries[1..];
    }
  }

  /** While the oldest key is empty and nothing expires, every new key makes the map larger, whatever its limit. */
  lemma EmptyKeyStopsPruning(entries: seq<Entry>, l: Limits, key: string, now: int)
    requires ValidLimits(l) && entries != [] && entries[0].key == "" && AllLive(entries, now) && Lookup(entries, key).None?
    ensures |Consumed(entries, l, key, now)| == |entries| + 1 && Consumed(entries, l, key, now)[0].key == ""
    ensures AllLive(Consumed(entries, l, key, now), now)
  {
    var next := Set(entries, key, Counted(Lookup(entries, key), now, l.windowMs));
    LiveAreUnexpired(next, now);
  }

  predicate NoEmptyKey(entries: seq<Entry>) {
    forall i :: 0 <= i < |entries| ==> entries[i].key != ""
  }

  /** What every sequence of calls with non-empty keys keeps. */
  ghost predicate Bounded(entries: seq<Entry>, l: Limits) {
    ValidLimits(l) && Distinct(entries) && NoEmptyKey(entries) && |entries| <= Max(0, l.maxKeys)
  }

  lemma {:induction false} TrimmedIsSuffix(entries: seq<Entry>, maxKeys: int) returns (n: nat)
    ensures n <= |entries| && Trimmed(entries, maxKeys) == entries[n..]
    ensures maxKeys >= 1 && entries != [] ==> n < |entries|
    decreases |entries|
  {
    if |entries| <= maxKeys || entries == [] || entries[0].key == "" {
      n := 0;
    } else {
      var m := TrimmedIsSuffix(entries[1..], maxKeys);
      n := m + 1;
      assert entries[1..][m..] == entries[n..];
    }
  }

  lemma {:induction false} UnexpiredKeepsLast(entries: seq<Entry>, last: Entry, now: int)
    requires last.window.resetAt > now
    ensures Unexpired(entries + [last], now) == Unexpired(entries, now) + [last]
  {
    if entries == [] {
      assert Unexpired([last], now) == [last] + Unexpired([], now);
    } else {
      assert (entries + [last])[1..] == entries[1..] + [last];
      UnexpiredKeepsLast(entries[1..], last, now);
    }
  }

  lemma KeptEntries(entries: seq<Entry>, now: int, maxKeys: int)
    requires Distinct(entries) && NoEmptyKey(entries)
    ensures Distinct(Pruned(entries, now, maxKeys)) && NoEmptyKey(Pruned(entries, now, maxKeys))
    ensures MayDropTo(Unexpired(entries, now), Max(0, maxKeys))
  {
    UnexpiredKeepsDistinct(entries, now);
    UnexpiredAreThere(entries, now);
    var n := TrimmedIsSuffix(Unexpired(entries, now), maxKeys);
  }

  /** The newest key is the last that pruning drops. */
  lemma NewKeySurvives(entries: seq<Entry>, maxKeys: int, last: Entry, now: int)
    requires last.window.resetAt > now && Distinct(entries + [last]) && NoEmptyKey(entries + [last])
    ensures maxKeys >= 1 ==> Lookup(Pruned(entries + [last], now, maxKeys), last.key) == Some(last.window)
  {
    hide Unexpired, Trimmed;
    UnexpiredKeepsLast(entries, last, now);
    var kept := Unexpired(entries + [last], now);
    var n := TrimmedIsSuffix(kept, maxKeys);
    KeptEntries(entries + [last], now, maxKeys);
    if maxKeys >= 1 {
      var r := Trimmed(kept, maxKeys);
      assert r[|r| - 1] == kept[|kept| - 1] == last;
      FoundAt(r, |r| - 1);
    }
  }

  /** A call keeps the bound, and never evicts its own key exactly when the map may hold a key at all. */
  lemma OwnKeySurvives(entries: seq<Entry>, l: Limits, key: string, now: int)
    requires Bounded(entries, l) && key != ""
    ensures Bounded(Consumed(entries, l, key, now), l)
    ensures Lookup(Consumed(entries, l, key, now), key)
         == (if l.maxKeys >= 1 then Some(Counted(Lookup(entries, key), now, l.windowMs)) else None)
  {
    hide Unexpired, Trimmed, Pruned;
    var w := Counted(Lookup(entries, key), now, l.windowMs);
    var next := Set(entries, key, w);
    SetKeepsDistinct(entries, key, w);
    if |next| > l.maxKeys {
      KeptEntries(next, now, l.maxKeys);
      SizeIsBounded(entries, l, key, now);
      NewKeySurvives(entries, l.maxKeys, Entry(key, w), now);
    } else {
      FoundAt(next, IndexOf(entries, key));
    }
  }

  lemma FoundAt(entries: seq<Entry>, i: nat)
    requires Distinct(entries) && i < |entries|
    ensures Lookup(entries, entries[i].key) == Some(entries[i].window)
  {
  }

  // ----- allowances of one key

  /** How many calls at the given times one key's window allows. */
  function AllowedAt(w: Option<Window>, l: Limits, times: seq<int>): nat
    decreases |times|
  {
    if times == [] then 0
    else
      var n := Counted(w, times[0], l.windowMs);
      (if n.count <= l.limit then 1 else 0) + AllowedAt(Some(n), l, times[1..])
  }

  predicate Within(times: seq<int>, from: int, to: int) {
    forall i :: 0 <= i < |times| ==> from <= times[i] <= to
  }

  /** Inside one window exactly what is left of the limit is allowed, and the answers announce it. */
  lemma {:induction false} OneWindow(w: Window, l: Limits, times: seq<int>, from: int, to: int)
    requires ValidLimits(l) && Within(times, from, to) && w.resetAt > to
    ensures AllowedAt(Some(w), l, times) == Min(|times|, AnswerFor(w, l, from).remaining)
    decreases |times|
  {
    if times != [] {
      OneWindow(Counted(Some(w), times[0], l.windowMs), l, times[1..], from, to);
    }
  }

  /** A key's window after calls at the given times. */
  function WindowAfter(w: Option<Window>, l: Limits, times: seq<int>): Option<Window>
    decreases |times|
  {
    if times == [] then w else WindowAfter(Some(Counted(w, times[0], l.windowMs)), l, times[1..])
  }

  lemma {:induction false} CallsAreCounted(w: Window, l: Limits, times: seq<int>)
    requires forall i :: 0 <= i < |times| ==> times[i] < w.resetAt
    ensures WindowAfter(Some(w), l, times) == Some(Window(w.count + |times|, w.resetAt))
    decreases |times|
  {
    if times != [] {
      CallsAreCounted(Counted(Some(w), times[0], l.windowMs), l, times[1..]);
    }
  }

  /**
   * The answer to the n-th call of a window: its end is a window's length after the first call, the limit is the limiter's,
   * the call is allowed if n is within it, and the rest of it remains.  The wait ends with the window, to the next second.
   */
  lemma AnswersOfWindow(w: Option<Window>, l: Limits, times: seq<int>)
    requires ValidLimits(l) && times != [] && (w.Some? ==> w.value.resetAt <= times[0])
    requires forall i :: 0 <= i < |times| ==> times[0] <= times[i] < times[0] + l.windowMs
    ensures var n, now := |times|, times[|times| - 1];
            && WindowAfter(w, l, times).Some?
            && var answer := AnswerFor(WindowAfter(w, l, times).value, l, now);
            && answer.resetAt == times[0] + l.windowMs && answer.limit == l.limit
            && (answer.allowed <==> n <= l.limit)
            && (n <= l.limit ==> answer.remaining == l.limit - n) && (n > l.limit ==> answer.remaining == 0)
            && now + 1000 * (answer.retryAfterSeconds - 1) < answer.resetAt <= now + 1000 * answer.retryAfterSeconds
  {
    CallsAreCounted(Window(1, times[0] + l.windowMs), l, times[1..]);
  }

  lemma {:induction false} TwoWindows(w: Window, l: Limits, times: seq<int>, from: int, to: int)
    requires ValidLimits(l) && Within(times, from, to) && w.resetAt + l.windowMs > to
    ensures AllowedAt(Some(w), l, times) <= Max(0, l.limit - w.count) + l.limit
    decreases |times|
  {
    if times != [] {
      var n := Counted(Some(w), times[0], l.windowMs);
      if w.resetAt <= times[0] {
        OneWindow(n, l, times[1..], from, to);
      } else {
        TwoWindows(n, l, times[1..], from, to);
      }
    }
  }

  /** A span of one window length, both ends included, meets at most two windows. */
  lemma SpanMeetsTwoWindows(w: Option<Window>, l: Limits, times: seq<int>, from: int)
    requires ValidLimits(l) && Within(times, from, from + l.windowMs)
    ensures AllowedAt(w, l, times) <= 2 * l.limit
  {
    if times != [] {
      var n := Counted(w, times[0], l.windowMs);
      TwoWindows(n, l, times[1..], from, from + l.windowMs);
    }
  }

  /** A caller that waits as long as it is told finds a new window; a second less would be too early. */
  lemma RetryIsExact(w: Window, l: Limits, now: int, waited: int)
    requires ValidLimits(l) && w.resetAt > now && waited >= 0
    ensures var seconds := AnswerFor(w, l, now).retryAfterSeconds;
            && (waited >= 1000 * seconds ==> Counted(Some(w), now + waited, l.windowMs) == Window(1, now + waited + l.windowMs))
            && (waited <= 1000 * (seconds - 1) ==> Counted(Some(w), now + waited, l.windowMs) == Window(w.count + 1, w.resetAt))
  {
  }

  // ----- the same inside the map

  datatype Call = Call(key: string, now: int)

  /** How many calls on the key are allowed in a sequence of calls. */
  function Allowed(entries: seq<Entry>, l: Limits, calls: seq<Call>, key: string): nat
    decreases |calls|
  {
    if calls == [] then 0
    else
      var c := calls[0];
      var answer := AnswerFor(Counted(Lookup(entries, c.key), c.now, l.windowMs), l, c.now);
      (if c.key == key && answer.allowed then 1 else 0) + Allowed(Consumed(entries, l, c.key, c.now), l, calls[1..], key)
  }

  function TimesOf(calls: seq<Call>, key: string): seq<int> {
    if calls == [] then []
    else (if calls[0].key == key then [calls[0].now] else []) + TimesOf(calls[1..], key)
  }

  /** Times never go back, from the first moment to the last. */
  predicate InOrder(calls: seq<Call>, from: int, to: int) {
    calls != [] ==> from <= calls[0].now <= to && InOrder(calls[1..], calls[0].now, to)
  }

  predicate IsLive(w: Option<Window>, now: int) {
    w.Some? && w.value.resetAt > now
  }

  /** If the key's window is live, the call leaves it in the map. */
  predicate Spared(entries: seq<Entry>, l: Limits, c: Call, key: string) {
    var next := Set(entries, c.key, Counted(Lookup(entries, c.key), c.now, l.windowMs));
    IsLive(Lookup(next, key), c.now) ==> Lookup(Consumed(entries, l, c.key, c.now), key).Some?
  }

  /** No call of the sequence drops the key while its window is live. */
  predicate Unevicted(entries: seq<Entry>, l: Limits, calls: seq<Call>, key: string)
    decreases |calls|
  {
    calls != [] ==>
      Spared(entries, l, calls[0], key) && Unevicted(Consumed(entries, l, calls[0].key, calls[0].now), l, calls[1..], key)
  }

  predicate Agree(w: Option<Window>, v: Option<Window>, now: int) {
    if IsLive(w, now) then v == w else !IsLive(v, now)
  }

  lemma LookupIs(entries: seq<Entry>, i: nat, key: string)
    requires Distinct(entries) && i < |entries| && entries[i].key == key
    ensures Lookup(entries, key) == Some(entries[i].window)
  {
  }

  /** Pruning removes keys but changes no window. */
  lemma PrunedLooksAlike(entries: seq<Entry>, now: int, maxKeys: int, key: string)
    requires Distinct(entries)
    ensures Distinct(Pruned(entries, now, maxKeys))
    ensures Lookup(Pruned(entries, now, maxKeys), key).Some? ==> Lookup(Pruned(entries, now, maxKeys), key) == Lookup(entries, key)
  {
    hide Unexpired, Trimmed;
    UnexpiredKeepsDistinct(entries, now);
    UnexpiredAreThere(entries, now);
    var kept := Unexpired(entries, now);
    var n := TrimmedIsSuffix(kept, maxKeys);
    var r := Pruned(entries, now, maxKeys);
    var i := IndexOf(r, key);
    if i < |r| {
      assert r[i] == kept[n + i];
      var j :| 0 <= j < |entries| && entries[j] == kept[n + i];
      LookupIs(entries, j, key);
    }
  }

  /** After a call the key called has its counted window and the others theirs, unless they were dropped. */
  lemma ConsumedLooksAlike(entries: seq<Entry>, l: Limits, called: string, now: int, key: string)
    requires Distinct(entries)
    ensures var w := Counted(Lookup(entries, called), now, l.windowMs);
            var next := Set(entries, called, w);
            var r := Consumed(entries, l, called, now);
            && Distinct(r)
            && Lookup(next, key) == (if key == called then Some(w) else Lookup(entries, key))
            && (Lookup(r, key).Some? ==> Lookup(r, key) == Lookup(next, key))
  {
    var w := Counted(Lookup(entries, called), now, l.windowMs);
    var next := Set(entries, called, w);
    SetKeepsDistinct(entries, called, w);
    PrunedLooksAlike(next, now, l.maxKeys, key);
    SetLooksAlike(entries, called, w, key);
  }

  lemma SetLooksAlike(entries: seq<Entry>, called: string, w: Window, key: string)
    requires Distinct(entries)
    ensures Lookup(Set(entries, called, w), key) == (if key == called then Some(w) else Lookup(entries, key))
  {
    SetKeepsDistinct(entries, called, w);
    var next := Set(entries, called, w);
    var i, j := IndexOf(entries, called), IndexOf(entries, key);
    if key == called {
      LookupIs(next, i, key);
    } else if j < |entries| {
      LookupIs(next, j, key);
    } else {
      assert forall n :: 0 <= n < |next| ==> next[n].key != key;
    }
  }

  lemma OneCall(entries: seq<Entry>, l: Limits, c: Call, key: string, w: Option<Window>, from: int)
    requires ValidLimits(l) && Distinct(entries) && from <= c.now && Agree(Lookup(entries, key), w, from) && Spared(entries, l, c, key)
    ensures var after := Consumed(entries, l, c.key, c.now);
            && Distinct(after)
            && (if c.key == key then Counted(Lookup(entries, key), c.now, l.windowMs) == Counted(w, c.now, l.windowMs)
                                     && Lookup(after, key) == Some(Counted(w, c.now, l.windowMs))
                else Agree(Lookup(after, key), w, c.now))
  {
    ConsumedLooksAlike(entries, l, c.key, c.now, key);
    hide Consumed, Set, Lookup, Distinct;
  }

  /** What the map allows a key that it never drops is what the key's own window allows. */
  lemma {:induction false} MapRefinesWindow(entries: seq<Entry>, l: Limits, calls: seq<Call>, key: string, w: Option<Window>, from: int, to: int)
    requires ValidLimits(l) && Distinct(entries) && InOrder(calls, from, to) && Unevicted(entries, l, calls, key)
    requires Agree(Lookup(entries, key), w, from)
    ensures Allowed(entries, l, calls, key) == AllowedAt(w, l, TimesOf(calls, key))
    decreases |calls|
  {
    hide Consumed, Lookup, Distinct, Spared, Counted;
    if calls != [] {
      var c := calls[0];
      OneCall(entries, l, c, key, w, from);
      var after := Consumed(entries, l, c.key, c.now);
      if c.key == key {
        MapRefinesWindow(after, l, calls[1..], key, Some(Counted(w, c.now, l.windowMs)), c.now, to);
        assert TimesOf(calls, key)[1..] == TimesOf(calls[1..], key);
      } else {
        MapRefinesWindow(after, l, calls[1..], key, w, c.now, to);
        assert TimesOf(calls, key) == TimesOf(calls[1..], key);
      }
    }
  }

  lemma {:induction false} TimesAreWithin(calls: seq<Call>, key: string, from: int, to: int)
    requires InOrder(calls, from, to)
    ensures Within(TimesOf(calls, key), from, to)
  {
    if calls != [] {
      TimesAreWithin(calls[1..], key, calls[0].now, to);
    }
  }

  /**
   * From any state, in any span of one window length with both ends included, a key that is not evicted while its window
   * is live is allowed at most twice the limit; and at most what is left of the limit as long as its window lasts.
   */
  lemma AllowancesAreLimited(entries: seq<Entry>, l: Limits, calls: seq<Call>, key: string, from: int)
    requires ValidLimits(l) && Distinct(entries) && Unevicted(entries, l, calls, key) && InOrder(calls, from, from + l.windowMs)
    ensures Allowed(entries, l, calls, key) <= 2 * l.limit
    ensures Lookup(entries, key).Some? && InOrder(calls, from, Lookup(entries, key).value.resetAt - 1) ==>
              Allowed(entries, l, calls, key) <= Max(0, l.limit - Lookup(entries, key).value.count)
  {
    var w := Lookup(entries, key);
    hide Lookup, Allowed, Unevicted, AllowedAt, TimesOf, Distinct;
    MapRefinesWindow(entries, l, calls, key, w, from, from + l.windowMs);
    TimesAreWithin(calls, key, from, from + l.windowMs);
    SpanMeetsTwoWindows(w, l, TimesOf(calls, key), from);
    if w.Some? && InOrder(calls, from, w.value.resetAt - 1) {
      TimesAreWithin(calls, key, from, w.value.resetAt - 1);
      OneWindow(w.value, l, TimesOf(calls, key), from, w.value.resetAt - 1);
    }
  }
}
