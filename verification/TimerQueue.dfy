/**
 The timers of `src/timer_queue.cpp` seen as a list with one entry for every handle ever given out:
 handle `h` is position `h - 1`. Times are nanoseconds, delays milliseconds. A run is any list of
 additions, cancellations and expiries.
*/
module TimerMachine {
  import opened Wrappers

  type Callback = nat
  type Handle = nat

  const NANOSECONDS_PER_MILLISECOND := 1_000_000
  const INT64_MAX := 0x7fff_ffff_ffff_ffff
  const UINT32_MAX := 0xffff_ffff

  datatype Fate = Pending | Fired(at: int) | Cancelled

  datatype Timer = Timer(deadline: int, callback: Callback, fate: Fate)

  function Max(a: int, b: int): int {
    if a > b then a else b
  }

  function Deadline(now: int, delay: int): int {
    now + Max(delay, 0) * NANOSECONDS_PER_MILLISECOND
  }

  predicate IsPending(timers: seq<Timer>, h: Handle) {
    1 <= h <= |timers| && timers[h - 1].fate.Pending?
  }

  predicate IsDue(timers: seq<Timer>, h: Handle, now: int) {
    IsPending(timers, h) && timers[h - 1].deadline <= now
  }

  /** What an expiry may hand out: the pending timers that are due, each once, by deadline. */
  ghost predicate IsExpiry(timers: seq<Timer>, now: int, fired: seq<Handle>) {
    && (forall h :: h in fired <==> IsDue(timers, h, now))
    && (forall i, j :: 0 <= i < j < |fired| ==> fired[i] != fired[j])
    && (forall i, j :: 0 <= i < j < |fired| ==> DeadlineOf(timers, fired[i]) <= DeadlineOf(timers, fired[j]))
  }

  function DeadlineOf(timers: seq<Timer>, h: Handle): int {
    if 1 <= h <= |timers| then timers[h - 1].deadline else 0
  }

  function CallbackOf(timers: seq<Timer>, h: Handle): Callback {
    if 1 <= h <= |timers| then timers[h - 1].callback else 0
  }

  function Callbacks(timers: seq<Timer>, handles: seq<Handle>): (r: seq<Callback>)
    ensures |r| == |handles|
  {
    seq(|handles|, i requires 0 <= i < |handles| => CallbackOf(timers, handles[i]))
  }

  function AfterExpiry(timers: seq<Timer>, now: int): (r: seq<Timer>)
    ensures |r| == |timers|
  {
    seq(|timers|, i requires 0 <= i < |timers| =>
      if IsDue(timers, i + 1, now) then timers[i].(fate := Fired(now)) else timers[i])
  }

  datatype Operation =
    | Add(now: int, delay: int, callback: Option<Callback>)
    | Cancel(handle: Handle)
    | Expire(now: int, fired: seq<Handle>)

  /** The timers, and the handles whose callbacks have been handed out, in that order. */
  datatype State = State(timers: seq<Timer>, log: seq<Handle>)

  ghost predicate Legal(s: State, op: Operation) {
    op.Expire? ==> IsExpiry(s.timers, op.now, op.fired)
  }

  function Apply(timers: seq<Timer>, op: Operation): seq<Timer> {
    match op
    case Add(now, delay, callback) =>
      if callback.None? then timers else timers + [Timer(Deadline(now, delay), callback.value, Pending)]
    case Cancel(h) => if IsPending(timers, h) then timers[h - 1 := timers[h - 1].(fate := Cancelled)] else timers
    case Expire(now, _) => AfterExpiry(timers, now)
  }

  function Step(s: State, op: Operation): State {
    State(Apply(s.timers, op), if op.Expire? then s.log + op.fired else s.log)
  }

  function Run(ops: seq<Operation>): State {
    if ops == [] then State([], []) else Step(Run(ops[..|ops| - 1]), ops[|ops| - 1])
  }

  ghost predicate LegalRun(ops: seq<Operation>) {
    forall i :: 0 <= i < |ops| ==> Legal(Run(ops[..i]), ops[i])
  }

  ghost predicate Inv(s: State) {
    && (forall i, j :: 0 <= i < j < |s.log| ==> s.log[i] != s.log[j])
    && (forall h :: h in s.log <==> 1 <= h <= |s.timers| && s.timers[h - 1].fate.Fired?)
    && (forall i :: 0 <= i < |s.timers| && s.timers[i].fate.Fired? ==> s.timers[i].deadline <= s.timers[i].fate.at)
  }

  lemma StepKeeps(s: State, op: Operation)
    requires Inv(s) && Legal(s, op)
    ensures Inv(Step(s, op))
  {
    if op.Expire? {
      ExpireKeeps(s, op);
    }
  }

  lemma ExpireKeeps(s: State, op: Operation)
    requires Inv(s) && Legal(s, op) && op.Expire?
    ensures Inv(Step(s, op))
  {
    var timers := AfterExpiry(s.timers, op.now);
    forall h: Handle
      ensures h in s.log + op.fired <==> 1 <= h <= |timers| && timers[h - 1].fate.Fired?
    {
      FiredAfter(s, op.now, op.fired, h);
    }
    assert forall h :: h in s.log ==> !IsDue(s.timers, h, op.now);
    DistinctTogether(s.log, op.fired);
  }

  lemma FiredAfter(s: State, now: int, fired: seq<Handle>, h: Handle)
    requires h in s.log <==> 1 <= h <= |s.timers| && s.timers[h - 1].fate.Fired?
    requires h in fired <==> IsDue(s.timers, h, now)
    ensures var timers := AfterExpiry(s.timers, now);
            h in s.log + fired <==> 1 <= h <= |timers| && timers[h - 1].fate.Fired?
  {
  }

  lemma DistinctTogether(a: seq<Handle>, b: seq<Handle>)
    requires forall i, j :: 0 <= i < j < |a| ==> a[i] != a[j]
    requires forall i, j :: 0 <= i < j < |b| ==> b[i] != b[j]
    requires forall h :: h in a ==> h !in b
    ensures var c := a + b; forall i, j :: 0 <= i < j < |c| ==> c[i] != c[j]
  {
    var c := a + b;
    forall i, j | 0 <= i < j < |c|
      ensures c[i] != c[j]
    {
      if i < |a| <= j {
        assert a[i] in a && b[j - |a|] in b;
      }
    }
  }

  lemma RunLast(ops: seq<Operation>)
    requires ops != []
    ensures Run(ops) == Step(Run(ops[..|ops| - 1]), ops[|ops| - 1])
  {
  }

  lemma LegalPrefix(ops: seq<Operation>)
    requires LegalRun(ops) && ops != []
    ensures LegalRun(ops[..|ops| - 1]) && Legal(Run(ops[..|ops| - 1]), ops[|ops| - 1])
  {
    var before := ops[..|ops| - 1];
    forall i | 0 <= i < |before|
      ensures Legal(Run(before[..i]), before[i])
    {
      assert before[..i] == ops[..i];
    }
  }

  lemma {:induction false} Always(ops: seq<Operation>)
    requires LegalRun(ops)
    ensures Inv(Run(ops))
  {
    if ops != [] {
      var before := ops[..|ops| - 1];
      LegalPrefix(ops);
      Always(before);
      StepKeeps(Run(before), ops[|ops| - 1]);
    }
  }

  /** Every handle has one fate: a callback is handed out at most once, exactly if its timer has
      fired, and never before the deadline. */
  lemma OneFate(ops: seq<Operation>, h: Handle)
    requires LegalRun(ops) && 1 <= h <= |Run(ops).timers|
    ensures var s := Run(ops);
            var t := s.timers[h - 1];
            && (h in s.log <==> t.fate.Fired?)
            && (forall i, j :: 0 <= i < |s.log| && 0 <= j < |s.log| && s.log[i] == h == s.log[j] ==> i == j)
            && (t.fate.Fired? ==> t.deadline <= t.fate.at)
  {
    Always(ops);
  }

  lemma StepFinal(s: State, op: Operation, h: Handle)
    requires Inv(s) && Legal(s, op) && 1 <= h <= |s.timers| && !s.timers[h - 1].fate.Pending?
    ensures var s' := Step(s, op);
            && Inv(s') && |s'.timers| >= h && s'.timers[h - 1] == s.timers[h - 1]
            && (h in s'.log <==> h in s.log)
  {
    StepKeeps(s, op);
  }

  /** A fate is final, whatever happens later: after a cancellation that returned true the callback
      is never handed out, and a fired timer can no longer be cancelled. */
  lemma {:induction false} FateIsFinal(ops: seq<Operation>, more: seq<Operation>, h: Handle)
    requires LegalRun(ops + more) && 1 <= h <= |Run(ops).timers| && !Run(ops).timers[h - 1].fate.Pending?
    ensures Inv(Run(ops + more))
    ensures |Run(ops + more).timers| >= h && Run(ops + more).timers[h - 1] == Run(ops).timers[h - 1]
    ensures h in Run(ops + more).log <==> Run(ops).timers[h - 1].fate.Fired?
    decreases |more|
  {
    var all := ops + more;
    if more == [] {
      assert all == ops;
      Always(all);
    } else {
      hide Run, LegalRun, Legal, Inv, Step;
      var before := ops + more[..|more| - 1];
      assert all[..|all| - 1] == before;
      RunLast(all);
      LegalPrefix(all);
      FateIsFinal(ops, more[..|more| - 1], h);
      StepFinal(Run(before), all[|all| - 1], h);
    }
  }

  // Sleeping.

  /** Division that truncates toward zero, as `duration_cast` does. */
  function Truncate(a: int, b: int): int
    requires b > 0
  {
    if a >= 0 then a / b else -(-a / b)
  }

  function SleepDelay(nanoseconds: int): int {
    Truncate(nanoseconds + NANOSECONDS_PER_MILLISECOND, NANOSECONDS_PER_MILLISECOND)
  }

  /** A sleep of `n` nanoseconds is set to end after `n` and at most one millisecond later. */
  lemma SleepIsTight(now: int, n: int)
    ensures Deadline(now, SleepDelay(n)) > now + n
    ensures Deadline(now, SleepDelay(n)) <= now + Max(n, 0) + NANOSECONDS_PER_MILLISECOND
    ensures n > 0 && n % NANOSECONDS_PER_MILLISECOND == 0 ==>
              Deadline(now, SleepDelay(n)) == now + n + NANOSECONDS_PER_MILLISECOND
  {
    var m := n + NANOSECONDS_PER_MILLISECOND;
    if m >= 0 {
      assert m == m / NANOSECONDS_PER_MILLISECOND * NANOSECONDS_PER_MILLISECOND + m % NANOSECONDS_PER_MILLISECOND;
    }
  }

  /** A sleeping coroutine is woken at the earliest more than `n` nanoseconds after it called sleep. */
  lemma SleepIsNeverEarly(ops: seq<Operation>, more: seq<Operation>, now: int, n: int, callback: Callback)
    requires LegalRun(ops + [Add(now, SleepDelay(n), Some(callback))] + more)
    ensures var h := |Run(ops).timers| + 1;
            var timers := Run(ops + [Add(now, SleepDelay(n), Some(callback))] + more).timers;
            && h <= |timers| && timers[h - 1].callback == callback
            && (timers[h - 1].fate.Fired? ==> timers[h - 1].fate.at > now + n)
  {
    var start := ops + [Add(now, SleepDelay(n), Some(callback))];
    assert start[..|start| - 1] == ops;
    SleepIsTight(now, n);
    SameTimer(start, more, |Run(ops).timers| + 1);
    Always(start + more);
  }

  /** A timer keeps its deadline and its callback. */
  lemma {:induction false} SameTimer(ops: seq<Operation>, more: seq<Operation>, h: Handle)
    requires 1 <= h <= |Run(ops).timers|
    ensures |Run(ops + more).timers| >= h
    ensures Run(ops + more).timers[h - 1].deadline == Run(ops).timers[h - 1].deadline
    ensures Run(ops + more).timers[h - 1].callback == Run(ops).timers[h - 1].callback
    decreases |more|
  {
    if more == [] {
      assert ops + more == ops;
    } else {
      hide Run, Step;
      var fewer, last := more[..|more| - 1], more[|more| - 1];
      assert ops + more == ops + fewer + [last];
      RunSnoc(ops + fewer, last);
      SameTimer(ops, fewer, h);
      StepKeepsTimer(Run(ops + fewer), last, h);
    }
  }

  lemma RunSnoc(ops: seq<Operation>, op: Operation)
    ensures Run(ops + [op]) == Step(Run(ops), op)
  {
    assert (ops + [op])[..|ops|] == ops;
  }

  lemma StepKeepsTimer(s: State, op: Operation, h: Handle)
    requires 1 <= h <= |s.timers|
    ensures var t := Step(s, op);
            && |t.timers| >= h
            && t.timers[h - 1].deadline == s.timers[h - 1].deadline
            && t.timers[h - 1].callback == s.timers[h - 1].callback
  {
  }

  /** None of the conversions overflows a signed 64-bit count of nanoseconds, however many seconds or
      microseconds are asked for, while the clock is below 2^62. */
  lemma SleepFitsInt64(now: int, seconds: int, useconds: int)
    requires 0 <= now < 0x4000_0000_0000_0000 && 0 <= seconds <= UINT32_MAX && 0 <= useconds <= UINT32_MAX
    ensures seconds * 1_000_000_000 + NANOSECONDS_PER_MILLISECOND <= INT64_MAX
    ensures useconds * 1000 + NANOSECONDS_PER_MILLISECOND <= INT64_MAX
    ensures Deadline(now, SleepDelay(seconds * 1_000_000_000)) <= INT64_MAX
    ensures Deadline(now, SleepDelay(useconds * 1000)) <= INT64_MAX
  {
    SleepIsTight(now, seconds * 1_000_000_000);
    SleepIsTight(now, useconds * 1000);
  }
}

/**
 The timer queue as written: a heap of entries from which cancelled timers are only removed when
 they come to the top, and a table of flags whose cancelled handles `expire` leaves behind. Handles
 are never reused, so the heap is a set; its top is any entry with the least deadline.
*/
module TimerQueueObject {
  import opened Wrappers
  import opened TimerMachine

  datatype Entry = Entry(deadline: int, handle: Handle, callback: Callback)

  function EntryOf(timers: seq<Timer>, h: Handle): Entry {
    Entry(DeadlineOf(timers, h), h, CallbackOf(timers, h))
  }

  ghost predicate IsTop(entries: set<Entry>, e: Entry) {
    e in entries && forall f :: f in entries ==> e.deadline <= f.deadline
  }

  lemma TopExists(entries: set<Entry>)
    requires entries != {}
    ensures exists e :: IsTop(entries, e)
  {
    var e :| e in entries;
    if entries == {e} {
      assert IsTop(entries, e);
    } else {
      TopExists(entries - {e});
      var f :| IsTop(entries - {e}, f);
      assert IsTop(entries, if e.deadline <= f.deadline then e else f);
    }
  }

  /** The heap holds every pending timer, and otherwise only cancelled ones; the flags that are set
      are those of the pending timers. */
  ghost predicate Tracks(entries: set<Entry>, active: map<Handle, bool>, timers: seq<Timer>) {
    && (forall h :: h in active && active[h] <==> IsPending(timers, h))
    && (forall h :: IsPending(timers, h) ==> EntryOf(timers, h) in entries)
    && (forall e :: e in entries ==>
          1 <= e.handle <= |timers| && e == EntryOf(timers, e.handle) && !timers[e.handle - 1].fate.Fired?)
  }

  /** An expiry under way: the timers of `fired` have been handed out. */
  ghost predicate Progress(was: seq<Timer>, timers: seq<Timer>, now: int, fired: seq<Handle>) {
    && |timers| == |was|
    && (forall h :: h in fired ==> IsDue(was, h, now))
    && (forall i, j :: 0 <= i < j < |fired| ==> fired[i] != fired[j])
    && (forall i, j :: 0 <= i < j < |fired| ==> DeadlineOf(was, fired[i]) <= DeadlineOf(was, fired[j]))
    && (forall i :: 0 <= i < |was| ==>
          timers[i] == if i + 1 in fired then was[i].(fate := Fired(now)) else was[i])
  }

  /** Everything handed out so far was due no later than what is left. */
  ghost predicate Earliest(was: seq<Timer>, fired: seq<Handle>, entries: set<Entry>) {
    forall h, e :: h in fired && e in entries ==> DeadlineOf(was, h) <= e.deadline
  }

  lemma FireTracks(entries: set<Entry>, active: map<Handle, bool>, timers: seq<Timer>, e: Entry, now: int)
    requires Tracks(entries, active, timers) && e in entries && IsPending(timers, e.handle)
    ensures Tracks(entries - {e}, active - {e.handle},
                   timers[e.handle - 1 := timers[e.handle - 1].(fate := Fired(now))])
  {
    var timers' := timers[e.handle - 1 := timers[e.handle - 1].(fate := Fired(now))];
    assert forall h :: EntryOf(timers', h) == EntryOf(timers, h);
    assert forall h :: IsPending(timers', h) <==> IsPending(timers, h) && h != e.handle;
    forall f | f in entries - {e}
      ensures 1 <= f.handle <= |timers'| && f == EntryOf(timers', f.handle) && !timers'[f.handle - 1].fate.Fired?
    {
      assert f.handle != e.handle;
    }
  }

  lemma DropTracks(entries: set<Entry>, active: map<Handle, bool>, timers: seq<Timer>, e: Entry)
    requires Tracks(entries, active, timers) && !IsPending(timers, e.handle)
    ensures Tracks(entries - {e}, active, timers) && Tracks(entries - {e}, active - {e.handle}, timers)
  {
    hide IsPending;
  }

  lemma NothingFired(timers: seq<Timer>, now: int, entries: set<Entry>)
    ensures Progress(timers, timers, now, []) && Earliest(timers, [], entries) && Callbacks(timers, []) == []
  {
  }

  lemma EarliestOfFewer(was: seq<Timer>, fired: seq<Handle>, entries: set<Entry>, e: Entry)
    requires Earliest(was, fired, entries)
    ensures Earliest(was, fired, entries - {e})
  {
  }

  lemma AllLater(entries: set<Entry>, e: Entry, now: int)
    requires IsTop(entries, e) && e.deadline > now
    ensures forall f :: f in entries ==> f.deadline > now
  {
  }

  lemma TopTracks(entries: set<Entry>, active: map<Handle, bool>, timers: seq<Timer>, e: Entry)
    requires Tracks(entries, active, timers) && IsTop(entries, e)
    ensures e in entries && e == EntryOf(timers, e.handle) && 1 <= e.handle <= |timers|
    ensures e.handle in active && active[e.handle] <==> IsPending(timers, e.handle)
    ensures forall h :: IsPending(timers, h) ==> e.deadline <= DeadlineOf(timers, h)
  {
    assert forall h :: IsPending(timers, h) ==> EntryOf(timers, h) in entries;
  }

  /** No pending timer is due before timer `h`. */
  ghost predicate IsFirst(timers: seq<Timer>, h: Handle) {
    IsPending(timers, h) && forall g :: IsPending(timers, g) ==> DeadlineOf(timers, h) <= DeadlineOf(timers, g)
  }

  lemma TopIsFirst(entries: set<Entry>, active: map<Handle, bool>, timers: seq<Timer>, e: Entry)
    requires Tracks(entries, active, timers) && IsTop(entries, e)
    ensures e in entries && e.deadline == DeadlineOf(timers, e.handle)
    ensures if e.handle in active && active[e.handle] then IsFirst(timers, e.handle) && IsPending(timers, e.handle)
            else !IsPending(timers, e.handle)
  {
    TopTracks(entries, active, timers, e);
  }

  lemma NothingPending(active: map<Handle, bool>, timers: seq<Timer>)
    requires Tracks({}, active, timers)
    ensures forall h :: !IsPending(timers, h)
  {
  }

  lemma FireProgresses(was: seq<Timer>, timers: seq<Timer>, now: int, fired: seq<Handle>, e: Entry, entries: set<Entry>)
    requires Progress(was, timers, now, fired) && Earliest(was, fired, entries) && IsTop(entries, e)
    requires IsPending(timers, e.handle) && e == EntryOf(timers, e.handle) && e.deadline <= now
    ensures Progress(was, timers[e.handle - 1 := timers[e.handle - 1].(fate := Fired(now))], now, fired + [e.handle])
    ensures Earliest(was, fired + [e.handle], entries - {e})
    ensures Callbacks(was, fired + [e.handle]) == Callbacks(was, fired) + [e.callback]
  {
    assert e.handle !in fired;
  }

  lemma AfterwardsFired(was: seq<Timer>, now: int, fired: seq<Handle>)
    requires IsExpiry(was, now, fired)
    ensures forall i :: 0 <= i < |was| ==>
              && (i + 1 in fired <==> was[i].fate.Pending? && was[i].deadline <= now)
              && AfterExpiry(was, now)[i] == if i + 1 in fired then was[i].(fate := Fired(now)) else was[i]
  {
    forall i | 0 <= i < |was|
      ensures i + 1 in fired <==> was[i].fate.Pending? && was[i].deadline <= now
    {
      assert i + 1 in fired <==> IsDue(was, i + 1, now);
    }
  }

  /** An expiry that has come to the end of what is due has handed out all of it. */
  lemma ExpiryEnds(was: seq<Timer>, timers: seq<Timer>, now: int, fired: seq<Handle>,
                   entries: set<Entry>, active: map<Handle, bool>)
    requires Progress(was, timers, now, fired) && Tracks(entries, active, timers)
    requires forall e :: e in entries ==> e.deadline > now
    ensures IsExpiry(was, now, fired) && timers == AfterExpiry(was, now)
  {
    forall h | IsDue(was, h, now)
      ensures h in fired
    {
      assert h !in fired ==> IsPending(timers, h) && EntryOf(timers, h) in entries;
    }
  }

  class TimerQueue {
    var entries: set<Entry>
    var active: map<Handle, bool>
    var nextHandle: Handle
    /** All timers ever added, with their fates. */
    ghost var timers: seq<Timer>

    ghost predicate Valid()
      reads this
    {
      nextHandle == |timers| + 1 && Tracks(entries, active, timers)
    }

    constructor ()
      ensures Valid() && timers == []
    {
      entries, active, nextHandle, timers := {}, map[], 1, [];
    }

    method Add(now: int, delay: int, callback: Option<Callback>) returns (handle: Handle)
      requires Valid()
      modifies this
      ensures Valid()
      ensures handle == if callback.Some? then |old(timers)| + 1 else 0
      ensures timers == Apply(old(timers), Operation.Add(now, delay, callback))
      ensures timers == old(timers) + if callback.None? then []
                else [Timer(now + (if delay > 0 then delay * NANOSECONDS_PER_MILLISECOND else 0),
                            callback.value, Pending)]
    {
      if callback.None? {
        return 0;
      }
      handle := nextHandle;
      nextHandle := nextHandle + 1;
      entries := entries + {Entry(Deadline(now, delay), handle, callback.value)};
      active := active[handle := true];
      timers := timers + [Timer(Deadline(now, delay), callback.value, Pending)];
    }

    method Cancel(handle: Handle) returns (ok: bool)
      requires Valid()
      modifies this
      ensures Valid()
      ensures ok <==> IsPending(old(timers), handle)
      ensures timers == Apply(old(timers), Operation.Cancel(handle))
      ensures |timers| == |old(timers)| && forall i :: 0 <= i < |timers| ==>
                timers[i] == if ok && i + 1 == handle then old(timers)[i].(fate := Cancelled) else old(timers)[i]
      ensures !IsPending(timers, handle)
    {
      if handle !in active || !active[handle] {
        return false;
      }
      active := active[handle := false];
      timers := timers[handle - 1 := timers[handle - 1].(fate := Cancelled)];
      return true;
    }

    method Top() returns (e: Entry)
      requires entries != {}
      ensures IsTop(entries, e)
    {
      TopExists(entries);
      e :| e in entries && forall f :: f in entries ==> e.deadline <= f.deadline;
    }

    /** The wait is none if nothing is pending, and otherwise ends less than a millisecond before the
        first deadline, or at once if that has passed. */
    method NextTimeout(now: int) returns (timeout: Option<int>)
      requires Valid()
      modifies this
      ensures Valid() && timers == old(timers)
      ensures timeout.None? <==> forall h :: !IsPending(timers, h)
      ensures timeout.Some? ==>
                exists h :: IsFirst(timers, h) && IsWait(now, DeadlineOf(timers, h), timeout.value)
    {
      hide IsTop, Tracks, IsPending, EntryOf, IsFirst, DeadlineOf;
      while entries != {}
        invariant Valid() && timers == old(timers)
        decreases |entries|
      {
        var entry := Top();
        TopIsFirst(entries, active, timers, entry);
        if entry.handle in active && active[entry.handle] {
          if entry.deadline <= now {
            return Some(0);
          }
          return Some(Truncate(entry.deadline - now, NANOSECONDS_PER_MILLISECOND));
        }
        DropTracks(entries, active, timers, entry);
        active := active - {entry.handle};
        entries := entries - {entry};
      }
      NothingPending(active, timers);
      return None;
    }

    method Expire(now: int, callbacks: seq<Callback>) returns (count: nat, all: seq<Callback>, ghost fired: seq<Handle>)
      requires Valid()
      modifies this
      ensures Valid()
      ensures IsExpiry(old(timers), now, fired)
      ensures timers == Apply(old(timers), Operation.Expire(now, fired))
      ensures |timers| == |old(timers)| && forall i :: 0 <= i < |timers| ==>
                var t := old(timers)[i];
                && (i + 1 in fired <==> t.fate.Pending? && t.deadline <= now)
                && timers[i] == if i + 1 in fired then t.(fate := Fired(now)) else t
      ensures count == |fired| && all == callbacks + Callbacks(old(timers), fired)
    {
      NothingFired(timers, now, entries);
      hide IsExpiry, AfterExpiry, Callbacks, EntryOf, IsTop, IsPending, Progress, Earliest, Tracks;
      count, all, fired := 0, callbacks, [];
      while entries != {}
        invariant Valid()
        invariant Progress(old(timers), timers, now, fired)
        invariant Earliest(old(timers), fired, entries)
        invariant count == |fired| && all == callbacks + Callbacks(old(timers), fired)
        decreases |entries|
      {
        var entry := Top();
        if entry.deadline > now {
          AllLater(entries, entry, now);
          break;
        }
        TopTracks(entries, active, timers, entry);
        if entry.handle !in active || !active[entry.handle] {
          DropTracks(entries, active, timers, entry);
          EarliestOfFewer(old(timers), fired, entries, entry);
          entries := entries - {entry};
          continue;
        }
        FireTracks(entries, active, timers, entry, now);
        FireProgresses(old(timers), timers, now, fired, entry, entries);
        entries := entries - {entry};
        active := active - {entry.handle};
        all := all + [entry.callback];
        count := count + 1;
        timers := timers[entry.handle - 1 := timers[entry.handle - 1].(fate := Fired(now))];
        fired := fired + [entry.handle];
      }
      ExpiryEnds(old(timers), timers, now, fired, entries, active);
      AfterwardsFired(old(timers), now, fired);
    }
  }

  /** The wait in milliseconds asked of epoll for a timer due at `deadline`. */
  predicate IsWait(now: int, deadline: int, wait: int) {
    if deadline <= now then wait == 0
    else
      && now + wait * NANOSECONDS_PER_MILLISECOND <= deadline
      && deadline < now + (wait + 1) * NANOSECONDS_PER_MILLISECOND
  }
}
