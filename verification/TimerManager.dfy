/**
 The expiry loop of `fiber_lib/6hook/timer.cpp`. The set of timers is ordered by deadline alone, so it
 is a map from deadlines to timers: a timer whose deadline is taken is not inserted. Timers are
 numbered; times are in nanoseconds, periods in milliseconds.
*/
module ExpiryLoop {
  import opened Wrappers

  const NANOSECONDS_PER_MILLISECOND := 1_000_000

  type Id = nat
  type Callback = nat

  datatype Timer = Timer(next: int, ms: nat, cb: Option<Callback>, recurring: bool)

  datatype Loop = Loop(armed: map<int, Id>, timers: seq<Timer>, cbs: seq<Option<Callback>>)

  /** The time the expiry works with, and whether the clock is taken to have been set back. */
  datatype Clock = Clock(now: int, rollover: bool)

  ghost predicate Valid(l: Loop) {
    forall k :: k in l.armed ==> l.armed[k] < |l.timers| && l.timers[l.armed[k]].next == k
  }

  ghost predicate IsFront(m: map<int, Id>, k: int) {
    k in m && forall j :: j in m ==> k <= j
  }

  lemma Inhabited(keys: set<int>)
    ensures |keys| == 0 || exists k :: k in keys
  {
    if forall k :: k !in keys {
      var none: set<int> := {};
      assert forall k :: k in keys <==> k in none;
      assert keys == none;
    }
  }

  lemma {:induction false} Least(keys: set<int>) returns (k: int)
    requires |keys| > 0
    ensures k in keys && forall j :: j in keys ==> k <= j
    decreases |keys|
  {
    Inhabited(keys);
    k :| k in keys;
    if keys != {k} {
      var rest := keys - {k};
      assert keys == rest + {k};
      var j := Least(rest);
      k := if j < k then j else k;
    }
  }

  lemma FrontExists(m: map<int, Id>)
    requires m != map[]
    ensures exists k :: IsFront(m, k)
  {
    assert |m.Keys| == 0 ==> m == map[];
    var k := Least(m.Keys);
    assert IsFront(m, k);
  }

  ghost function Front(m: map<int, Id>): (k: int)
    requires m != map[]
    ensures IsFront(m, k)
  {
    FrontExists(m);
    var k :| IsFront(m, k);
    k
  }

  /** Whether the loop goes on with a timer of deadline `k` in front. */
  predicate Guard(c: Clock, k: int) {
    c.rollover || k <= c.now
  }

  ghost predicate Guarded(l: Loop, c: Clock) {
    l.armed != map[] && Guard(c, Front(l.armed))
  }

  function TimerAt(l: Loop, k: int): Timer
    requires k in l.armed && l.armed[k] < |l.timers|
  {
    l.timers[l.armed[k]]
  }

  function Span(ms: int): int {
    ms * NANOSECONDS_PER_MILLISECOND
  }

  function Rearmed(t: Timer, c: Clock): int {
    c.now + Span(t.ms)
  }

  function TurnAt(l: Loop, c: Clock, k: int): Loop
    requires k in l.armed && l.armed[k] < |l.timers|
  {
    var id := l.armed[k];
    var t := l.timers[id];
    var fewer := l.armed - {k};
    var next := Rearmed(t, c);
    if t.recurring then
      Loop(if next in fewer then fewer else fewer[next := id], l.timers[id := t.(next := next)], l.cbs + [t.cb])
    else Loop(fewer, l.timers[id := t.(cb := None)], l.cbs + [t.cb])
  }

  /** One turn of the loop, or nothing once its guard is false. */
  ghost function Turn(l: Loop, c: Clock): Loop
    requires Valid(l)
  {
    if Guarded(l, c) then TurnAt(l, c, Front(l.armed)) else l
  }

  lemma TurnKeepsValid(l: Loop, c: Clock)
    requires Valid(l)
    ensures Valid(Turn(l, c))
  {
  }

  ghost function Turns(l: Loop, c: Clock, n: nat): (r: Loop)
    requires Valid(l)
    ensures Valid(r)
    decreases n
  {
    TurnKeepsValid(l, c);
    if n == 0 then l else Turns(Turn(l, c), c, n - 1)
  }

  ghost predicate Terminates(l: Loop, c: Clock)
    requires Valid(l)
  {
    exists n :: !Guarded(Turns(l, c, n), c)
  }

  /** A recurring timer that the loop takes and that would be due again at once. */
  ghost predicate Hot(l: Loop, c: Clock, k: int)
    requires Valid(l)
  {
    k in l.armed && Guard(c, k) && TimerAt(l, k).recurring && Guard(c, Rearmed(TimerAt(l, k), c))
  }

  /** Its new deadline is later and taken, so that it is not inserted again. */
  ghost predicate Dropped(l: Loop, c: Clock, k: int)
    requires Valid(l) && k in l.armed
  {
    k < Rearmed(TimerAt(l, k), c) && Rearmed(TimerAt(l, k), c) in l.armed
  }

  ghost predicate NoSpin(l: Loop, c: Clock)
    requires Valid(l)
  {
    forall k :: Hot(l, c, k) ==> Dropped(l, c, k)
  }

  ghost function Due(l: Loop, c: Clock): set<int> {
    set k | k in l.armed && Guard(c, k)
  }

  lemma TurnStaysQuiet(l: Loop, c: Clock)
    requires Valid(l) && NoSpin(l, c) && Guarded(l, c)
    ensures Valid(Turn(l, c)) && NoSpin(Turn(l, c), c)
    ensures Due(Turn(l, c), c) == Due(l, c) - {Front(l.armed)} && Front(l.armed) in Due(l, c)
  {
    TurnKeepsValid(l, c);
    var k := Front(l.armed);
    var l' := Turn(l, c);
    assert Hot(l, c, k) ==> Dropped(l, c, k);
    forall j | Hot(l', c, j)
      ensures Dropped(l', c, j)
    {
      assert j in l.armed && j != k && Hot(l, c, j);
    }
    forall j
      ensures j in Due(l', c) <==> j in Due(l, c) - {k}
    {
    }
  }

  lemma TurnStaysSpinning(l: Loop, c: Clock)
    requires Valid(l) && !NoSpin(l, c)
    ensures Guarded(l, c) && Valid(Turn(l, c)) && !NoSpin(Turn(l, c), c)
  {
    TurnKeepsValid(l, c);
    var r :| Hot(l, c, r) && !Dropped(l, c, r);
    var k := Front(l.armed);
    assert k <= r;
    var l' := Turn(l, c);
    var a := Rearmed(TimerAt(l, r), c);
    if k == r {
      assert a !in l.armed - {k};
      assert Hot(l', c, a) && !Dropped(l', c, a);
    } else if a in l'.armed && a !in l.armed {
      assert a == Rearmed(TimerAt(l, k), c) && TimerAt(l, k).recurring;
      assert Hot(l', c, a) && !Dropped(l', c, a);
    } else {
      assert r in l'.armed && TimerAt(l', r) == TimerAt(l, r);
      assert Hot(l', c, r) && !Dropped(l', c, r);
    }
  }

  // Termination.

  lemma {:induction false} QuietEnds(l: Loop, c: Clock)
    requires Valid(l) && NoSpin(l, c)
    ensures !Guarded(Turns(l, c, |Due(l, c)|), c)
    decreases |Due(l, c)|
  {
    if Guarded(l, c) {
      TurnStaysQuiet(l, c);
      QuietEnds(Turn(l, c), c);
    } else {
      Stays(l, c, |Due(l, c)|);
    }
  }

  /** Once its guard is false the loop does nothing more. */
  lemma {:induction false} Stays(l: Loop, c: Clock, n: nat)
    requires Valid(l) && !Guarded(l, c)
    ensures Turns(l, c, n) == l
    decreases n
  {
    if n > 0 {
      Stays(l, c, n - 1);
    }
  }

  lemma {:induction false} SpinsForever(l: Loop, c: Clock, n: nat)
    requires Valid(l) && !NoSpin(l, c)
    ensures Guarded(Turns(l, c, n), c)
    decreases n
  {
    TurnStaysSpinning(l, c);
    if n > 0 {
      SpinsForever(Turn(l, c), c, n - 1);
    }
  }

  /** The loop terminates exactly if every recurring timer that would be due again at once loses its
      place to a later timer with the very deadline it would get. */
  lemma TerminatesIffNoSpin(l: Loop, c: Clock)
    requires Valid(l)
    ensures Terminates(l, c) <==> NoSpin(l, c)
    ensures NoSpin(l, c) ==> !Guarded(Turns(l, c, |Due(l, c)|), c)
  {
    if NoSpin(l, c) {
      QuietEnds(l, c);
    } else {
      forall n: nat
        ensures Guarded(Turns(l, c, n), c)
      {
        SpinsForever(l, c, n);
      }
    }
  }

  /** With a clock that has not been set back and positive periods it always terminates; with a clock
      that has been, one recurring timer alone is enough for it not to. */
  lemma WhenItTerminates(l: Loop, c: Clock)
    requires Valid(l)
    ensures !c.rollover && (forall k :: k in l.armed && k <= c.now && TimerAt(l, k).recurring ==> TimerAt(l, k).ms > 0)
            ==> Terminates(l, c)
    ensures c.rollover && |l.armed| == 1 && (forall k :: k in l.armed ==> TimerAt(l, k).recurring) ==> !Terminates(l, c)
  {
    TerminatesIffNoSpin(l, c);
    if c.rollover && |l.armed| == 1 && forall k :: k in l.armed ==> TimerAt(l, k).recurring {
      assert l.armed != map[];
      var k := Front(l.armed);
      assert |l.armed.Keys| == 1;
      forall j | j in l.armed
        ensures j == k
      {
        if j != k {
          assert {j, k} <= l.armed.Keys;
          CardinalityOfTwo(l.armed.Keys, j, k);
        }
      }
      assert Hot(l, c, k) && !Dropped(l, c, k);
    }
  }

  lemma CardinalityOfTwo(s: set<int>, a: int, b: int)
    requires a in s && b in s && a != b
    ensures |s| >= 2
  {
    assert |s - {a} - {b}| == |s| - 2;
  }

  // What a terminating expiry does.

  ghost function Cbs(l: Loop, keys: seq<int>): (r: seq<Option<Callback>>)
    requires forall k :: k in keys ==> k in l.armed && l.armed[k] < |l.timers|
    ensures |r| == |keys|
  {
    seq(|keys|, i requires 0 <= i < |keys| => TimerAt(l, keys[i]).cb)
  }

  /** The due deadlines, in order, each once. */
  ghost predicate IsOrder(l: Loop, c: Clock, keys: seq<int>) {
    && (forall k :: k in keys <==> k in Due(l, c))
    && forall i, j :: 0 <= i < j < |keys| ==> keys[i] < keys[j]
  }

  /** A due recurring timer gets deadline `k` again. */
  ghost predicate Moves(l: Loop, c: Clock, j: int, k: int)
    requires Valid(l)
  {
    j in Due(l, c) && TimerAt(l, j).recurring && Rearmed(TimerAt(l, j), c) == k
  }

  /** What is left at deadline `k`, which is not due: the timer that was there, or else the earliest of
      the recurring timers that get this deadline. */
  ghost predicate LeftAt(l: Loop, c: Clock, r: Loop, k: int)
    requires Valid(l)
  {
    if k in l.armed then k in r.armed && r.armed[k] == l.armed[k]
    else
      && (k in r.armed <==> exists j :: Moves(l, c, j, k))
      && (k in r.armed ==>
            exists j :: Moves(l, c, j, k) && r.armed[k] == l.armed[j] && forall i :: Moves(l, c, i, k) ==> j <= i)
  }

  /** A due one-shot timer loses its callback, a due recurring one gets its new deadline, whether or not
      it is inserted, and every other timer is unchanged. */
  ghost predicate TimersAfter(l: Loop, c: Clock, r: Loop)
    requires Valid(l)
  {
    && |r.timers| == |l.timers|
    && (forall k :: k in Due(l, c) ==>
          var t := TimerAt(l, k);
          r.timers[l.armed[k]] == if t.recurring then t.(next := Rearmed(t, c)) else t.(cb := None))
    && forall id: nat :: id < |l.timers| && !IsDueTimer(l, c, id) ==> r.timers[id] == l.timers[id]
  }

  ghost predicate IsDueTimer(l: Loop, c: Clock, id: Id)
    requires Valid(l) && id < |l.timers|
  {
    var k := l.timers[id].next;
    k in Due(l, c) && l.armed[k] == id
  }

  ghost predicate Expires(l: Loop, c: Clock, r: Loop, keys: seq<int>)
    requires Valid(l)
  {
    && IsOrder(l, c, keys)
    && r.cbs == l.cbs + Cbs(l, keys)
    && (forall k :: k in r.armed ==> !Guard(c, k))
    && (forall k :: !Guard(c, k) ==> LeftAt(l, c, r, k))
    && TimersAfter(l, c, r)
  }

  lemma {:induction false} ExpiryIs(l: Loop, c: Clock) returns (keys: seq<int>)
    requires Valid(l) && NoSpin(l, c)
    ensures Expires(l, c, Turns(l, c, |Due(l, c)|), keys) && |keys| == |Due(l, c)|
    decreases |Due(l, c)|
  {
    if Guarded(l, c) {
      TurnStaysQuiet(l, c);
      var rest := ExpiryIs(Turn(l, c), c);
      keys := [Front(l.armed)] + rest;
      TurnThenExpiry(l, c, Turns(l, c, |Due(l, c)|), rest);
    } else {
      keys := [];
      NothingDue(l, c);
    }
  }

  lemma NothingDue(l: Loop, c: Clock)
    requires Valid(l) && !Guarded(l, c)
    ensures Due(l, c) == {} && Expires(l, c, l, [])
  {
    forall k | k in l.armed
      ensures !Guard(c, k)
    {
      assert Front(l.armed) <= k;
    }
  }

  lemma TurnThenExpiry(l: Loop, c: Clock, r: Loop, rest: seq<int>)
    requires Valid(l) && NoSpin(l, c) && Guarded(l, c) && Valid(Turn(l, c))
    requires Due(Turn(l, c), c) == Due(l, c) - {Front(l.armed)} && Front(l.armed) in Due(l, c)
    requires Expires(Turn(l, c), c, r, rest)
    ensures Expires(l, c, r, [Front(l.armed)] + rest)
  {
    hide IsOrder, TimersAfter, LeftAt, NoSpin, Cbs;
    var l', keys := Turn(l, c), [Front(l.armed)] + rest;
    TurnThenOrder(l, c, rest);
    TurnThenCbs(l, c, r, rest);
    TurnThenTimers(l, c, r);
    forall k | !Guard(c, k)
      ensures LeftAt(l, c, r, k)
    {
      assert LeftAt(l', c, r, k);
      TurnThenLeft(l, c, r, k);
    }
  }

  lemma TurnThenOrder(l: Loop, c: Clock, rest: seq<int>)
    requires Valid(l) && Guarded(l, c) && Valid(Turn(l, c))
    requires Due(Turn(l, c), c) == Due(l, c) - {Front(l.armed)} && Front(l.armed) in Due(l, c)
    requires IsOrder(Turn(l, c), c, rest)
    ensures IsOrder(l, c, [Front(l.armed)] + rest)
  {
    var keys := [Front(l.armed)] + rest;
    forall k
      ensures k in keys <==> k in Due(l, c)
    {
      assert k in keys <==> k == Front(l.armed) || k in rest;
    }
    forall i, j | 0 <= i < j < |keys|
      ensures keys[i] < keys[j]
    {
      assert rest[j - 1] in rest;
      assert i > 0 ==> keys[i] == rest[i - 1];
    }
  }

  /** A due timer other than the one in front is untouched by the turn. */
  lemma TurnLeavesDue(l: Loop, c: Clock, k: int)
    requires Valid(l) && Guarded(l, c) && Valid(Turn(l, c))
    requires Due(Turn(l, c), c) == Due(l, c) - {Front(l.armed)} && k in Due(Turn(l, c), c)
    ensures k in l.armed && k in Turn(l, c).armed && Turn(l, c).armed[k] == l.armed[k]
    ensures TimerAt(Turn(l, c), k) == TimerAt(l, k)
  {
    assert k in Due(l, c) && k != Front(l.armed);
  }

  lemma CbsOfTail(l: Loop, l': Loop, f: int, rest: seq<int>)
    requires Valid(l) && Valid(l') && f in l.armed
    requires forall i :: 0 <= i < |rest| ==>
               rest[i] in l'.armed && rest[i] in l.armed && TimerAt(l', rest[i]) == TimerAt(l, rest[i])
    ensures Cbs(l, [f] + rest) == [TimerAt(l, f).cb] + Cbs(l', rest)
  {
  }

  lemma TurnThenCbs(l: Loop, c: Clock, r: Loop, rest: seq<int>)
    requires Valid(l) && Guarded(l, c) && Valid(Turn(l, c))
    requires Due(Turn(l, c), c) == Due(l, c) - {Front(l.armed)} && Front(l.armed) in Due(l, c)
    requires IsOrder(Turn(l, c), c, rest) && IsOrder(l, c, [Front(l.armed)] + rest)
    requires r.cbs == Turn(l, c).cbs + Cbs(Turn(l, c), rest)
    ensures r.cbs == l.cbs + Cbs(l, [Front(l.armed)] + rest)
  {
    var keys := [Front(l.armed)] + rest;
    var l' := Turn(l, c);
    assert l'.cbs == l.cbs + [TimerAt(l, Front(l.armed)).cb];
    forall i | 0 <= i < |rest|
      ensures rest[i] in l'.armed && rest[i] in l.armed && TimerAt(l', rest[i]) == TimerAt(l, rest[i])
    {
      assert rest[i] in rest;
      TurnLeavesDue(l, c, rest[i]);
    }
    hide Turn, IsOrder, Due, Guarded;
    CbsOfTail(l, l', Front(l.armed), rest);
  }

  lemma TurnThenTimers(l: Loop, c: Clock, r: Loop)
    requires Valid(l) && Guarded(l, c) && Valid(Turn(l, c)) && NoSpin(l, c)
    requires Due(Turn(l, c), c) == Due(l, c) - {Front(l.armed)} && Front(l.armed) in Due(l, c)
    requires TimersAfter(Turn(l, c), c, r)
    ensures TimersAfter(l, c, r)
  {
    var l', f := Turn(l, c), Front(l.armed);
    var front := l.armed[f];
    assert !IsDueTimer(l', c, front) by {
      var k := l'.timers[front].next;
      if k in Due(l', c) {
        TurnLeavesDue(l, c, k);
      }
    }
    forall k | k in Due(l, c)
      ensures var t := TimerAt(l, k);
              r.timers[l.armed[k]] == if t.recurring then t.(next := Rearmed(t, c)) else t.(cb := None)
    {
      if k != f {
        TurnLeavesDue(l, c, k);
      }
    }
    forall id: nat | id < |l.timers| && !IsDueTimer(l, c, id)
      ensures r.timers[id] == l.timers[id]
    {
      assert id != front;
      var k := l.timers[id].next;
      if k in Due(l', c) {
        TurnLeavesDue(l, c, k);
      }
      assert !IsDueTimer(l', c, id);
    }
  }

  lemma TurnThenLeft(l: Loop, c: Clock, r: Loop, k: int)
    requires Valid(l) && Guarded(l, c) && Valid(Turn(l, c))
    requires Due(Turn(l, c), c) == Due(l, c) - {Front(l.armed)} && Front(l.armed) in Due(l, c)
    requires !Guard(c, k) && LeftAt(Turn(l, c), c, r, k)
    ensures LeftAt(l, c, r, k)
  {
    var l', f := Turn(l, c), Front(l.armed);
    forall j
      ensures Moves(l, c, j, k) <==> (j == f && Moves(l, c, f, k)) || Moves(l', c, j, k)
    {
      if j in Due(l', c) {
        TurnLeavesDue(l, c, j);
      }
    }
    if k !in l.armed {
      if Moves(l, c, f, k) {
        assert k in l'.armed && l'.armed[k] == l.armed[f];
        forall i | Moves(l, c, i, k)
          ensures f <= i
        {
        }
      } else {
        assert k !in l'.armed;
        if k in r.armed {
          var j :| Moves(l', c, j, k) && r.armed[k] == l'.armed[j] && forall i :: Moves(l', c, i, k) ==> j <= i;
          TurnLeavesDue(l, c, j);
          assert Moves(l, c, j, k);
        }
      }
    }
  }
}

/**
 All calls on a timer manager, by any number of threads, under a clock that may be set back. One step
 per block that holds the lock, and one per call of onTimerInsertedAtFront, which comes after the
 lock has been released; `reset` takes the lock twice. A timer is not used by others while it is being
 reset. A run is any list of steps.
*/
module TimerManagerMachine {
  import opened Wrappers
  import opened ExpiryLoop

  const ROLLOVER_MARGIN := 60 * 60 * 1000 * NANOSECONDS_PER_MILLISECOND

  /** `front` is the earliest deadline that getNextTimer reported last, none if it saw no timer. `asked`
      counts the insertions that decided to notify since then, `calls` the notifications since then,
      `owed` those decided but not made yet, and `carried` those that were owed at that time. `setBack`
      says whether the clock has ever been set back. */
  datatype State = State(
    armed: map<int, Id>,
    timers: seq<Timer>,
    tickled: bool,
    clock: int,
    setBack: bool,
    previous: int,
    front: Option<int>,
    resetting: set<Id>,
    asked: nat,
    owed: nat,
    calls: nat,
    carried: nat,
    stuck: bool)

  /** `at` is a time read before the lock is taken. */
  datatype Operation =
    | Tick(to: int)
    | Add(at: int, ms: nat, cb: Option<Callback>, recurring: bool)
    | Cancel(id: Id)
    | Refresh(id: Id)
    | ResetErase(id: Id)
    | ResetInsert(id: Id, ms: nat, fromNow: bool, at: int)
    | GetNext
    | Expire(at: int)
    | Notify

  function Init(clock: int): State {
    State(map[], [], false, clock, false, clock, None, {}, 0, 0, 0, 0, false)
  }

  function Insert(m: map<int, Id>, k: int, id: Id): map<int, Id> {
    if k in m then m else m[k := id]
  }

  /** The lookup goes by deadline: it may find another timer with the same one. */
  predicate Finds(s: State, id: Id) {
    id < |s.timers| && s.timers[id].next in s.armed
  }

  predicate Usable(s: State, id: Id) {
    id < |s.timers| && id !in s.resetting && s.timers[id].cb.Some?
  }

  ghost function AddTimer(s: State, id: Id): State
    requires id < |s.timers|
  {
    var k := s.timers[id].next;
    var armed := Insert(s.armed, k, id);
    if IsFront(armed, k) && !s.tickled
    then s.(armed := armed, tickled := true, asked := s.asked + 1, owed := s.owed + 1)
    else s.(armed := armed)
  }

  /** A time read earlier. */
  predicate Reads(s: State, at: int) {
    s.setBack || at <= s.clock
  }

  predicate RollsOver(s: State) {
    s.clock < s.previous - ROLLOVER_MARGIN
  }

  ghost function ExpireStep(s: State, at: int): State
    requires Valid(Loop(s.armed, s.timers, []))
  {
    var l, c := Loop(s.armed, s.timers, []), Clock(at, RollsOver(s));
    if !NoSpin(l, c) then s.(stuck := true)
    else
      var r := Turns(l, c, |Due(l, c)|);
      s.(armed := r.armed, timers := r.timers, previous := s.clock)
  }

  ghost function Step(s: State, op: Operation): State {
    if s.stuck && !op.Tick? && !op.Notify? then s
    else match op
      case Tick(to) => s.(clock := to, setBack := s.setBack || to < s.clock)
      case Add(at, ms, cb, recurring) =>
        if Reads(s, at)
        then AddTimer(s.(timers := s.timers + [Timer(at + Span(ms), ms, cb, recurring)]), |s.timers|) else s
      case Cancel(id) =>
        if Usable(s, id)
        then s.(timers := s.timers[id := s.timers[id].(cb := None)], armed := s.armed - {s.timers[id].next})
        else s
      case Refresh(id) =>
        if Usable(s, id) && Finds(s, id) then
          var next := s.clock + Span(s.timers[id].ms);
          s.(timers := s.timers[id := s.timers[id].(next := next)],
             armed := Insert(s.armed - {s.timers[id].next}, next, id))
        else s
      case ResetErase(id) =>
        if Usable(s, id) && Finds(s, id)
        then s.(armed := s.armed - {s.timers[id].next}, resetting := s.resetting + {id})
        else s
      case ResetInsert(id, ms, fromNow, at) =>
        if id < |s.timers| && id in s.resetting && Reads(s, at) then
          var start := if fromNow then at else s.timers[id].next - Span(s.timers[id].ms);
          AddTimer(s.(timers := s.timers[id := s.timers[id].(ms := ms, next := start + Span(ms))],
                      resetting := s.resetting - {id}), id)
        else s
      case GetNext =>
        s.(tickled := false, front := if s.armed == map[] then None else Some(Front(s.armed)),
           asked := 0, calls := 0, carried := s.owed)
      case Expire(at) =>
        if Reads(s, at) && Valid(Loop(s.armed, s.timers, [])) then ExpireStep(s, at) else s
      case Notify => if s.owed > 0 then s.(owed := s.owed - 1, calls := s.calls + 1) else s
  }

  ghost function Run(clock: int, ops: seq<Operation>): State {
    if ops == [] then Init(clock) else Step(Run(clock, ops[..|ops| - 1]), ops[|ops| - 1])
  }

  /** A timer being reset is in nobody's hands but that of the thread that resets it. */
  ghost predicate SetOk(s: State) {
    && Valid(Loop(s.armed, s.timers, []))
    && (forall k :: k in s.armed ==> s.armed[k] !in s.resetting)
    && (forall id :: id in s.resetting ==> id < |s.timers|)
  }

  /** No timer started in the future. */
  ghost predicate StartsOk(s: State) {
    s.previous <= s.clock && forall id: nat :: id < |s.timers| ==> s.timers[id].next - Span(s.timers[id].ms) <= s.clock
  }

  ghost predicate FrontOk(s: State) {
    !s.tickled ==> forall k :: k in s.armed ==> s.front.Some? && s.front.value <= k
  }

  ghost predicate CountsOk(s: State) {
    s.asked == (if s.tickled then 1 else 0) && s.calls + s.owed == s.asked + s.carried
  }

  ghost predicate Inv(s: State) {
    SetOk(s) && CountsOk(s) && (!s.setBack ==> StartsOk(s) && FrontOk(s))
  }

  lemma AddTimerKeeps(s: State, id: Id)
    requires Inv(s) && id < |s.timers| && id !in s.resetting
    ensures Inv(AddTimer(s, id))
  {
  }

  lemma ExpireKeeps(s: State, at: int)
    requires Inv(s) && Reads(s, at)
    ensures Inv(ExpireStep(s, at))
  {
    var l, c := Loop(s.armed, s.timers, []), Clock(at, RollsOver(s));
    if NoSpin(l, c) {
      var s' := ExpireStep(s, at);
      var r := Turns(l, c, |Due(l, c)|);
      var keys := ExpiryIs(l, c);
      ExpiryKeepsFront(s, l, c, r, keys);
    }
  }

  lemma ExpiryKeepsFront(s: State, l: Loop, c: Clock, r: Loop, keys: seq<int>)
    requires Inv(s) && l == Loop(s.armed, s.timers, []) && (!s.setBack ==> c.now <= s.clock && !c.rollover)
    requires Valid(r) && Expires(l, c, r, keys)
    ensures var s' := s.(armed := r.armed, timers := r.timers, previous := s.clock); Inv(s')
  {
  }

  lemma AddKeeps(s: State, at: int, ms: nat, cb: Option<Callback>, recurring: bool)
    requires Inv(s) && Reads(s, at)
    ensures Inv(AddTimer(s.(timers := s.timers + [Timer(at + Span(ms), ms, cb, recurring)]), |s.timers|))
  {
    var s' := s.(timers := s.timers + [Timer(at + Span(ms), ms, cb, recurring)]);
    assert Inv(s');
    hide Inv, AddTimer;
    NewIsFree(s);
    AddTimerKeeps(s', |s.timers|);
  }

  lemma NewIsFree(s: State)
    requires Inv(s)
    ensures |s.timers| !in s.resetting
  {
  }

  lemma CancelKeeps(s: State, id: Id)
    requires Inv(s) && Usable(s, id)
    ensures Inv(s.(timers := s.timers[id := s.timers[id].(cb := None)], armed := s.armed - {s.timers[id].next}))
  {
  }

  /** Refreshing only moves a timer back. */
  lemma RefreshKeeps(s: State, id: Id)
    requires Inv(s) && Usable(s, id) && Finds(s, id)
    ensures var next := s.clock + Span(s.timers[id].ms);
            Inv(s.(timers := s.timers[id := s.timers[id].(next := next)],
                   armed := Insert(s.armed - {s.timers[id].next}, next, id)))
  {
    assert !s.setBack ==> s.timers[id].next <= s.clock + Span(s.timers[id].ms);
  }

  lemma EraseKeeps(s: State, id: Id)
    requires Inv(s) && Usable(s, id) && Finds(s, id)
    ensures Inv(s.(armed := s.armed - {s.timers[id].next}, resetting := s.resetting + {id}))
  {
  }

  lemma InsertKeeps(s: State, id: Id, ms: nat, start: int)
    requires Inv(s) && id < |s.timers| && id in s.resetting && Reads(s, start)
    ensures Inv(AddTimer(s.(timers := s.timers[id := s.timers[id].(ms := ms, next := start + Span(ms))],
                            resetting := s.resetting - {id}), id))
  {
    var s' := s.(timers := s.timers[id := s.timers[id].(ms := ms, next := start + Span(ms))],
                 resetting := s.resetting - {id});
    assert Inv(s');
    hide Inv, AddTimer;
    AddTimerKeeps(s', id);
  }

  lemma EasyKeeps(s: State, op: Operation)
    requires Inv(s) && (op.Tick? || op.Notify? || op.GetNext?)
    ensures Inv(Step(s, op))
  {
  }

  lemma StepKeeps(s: State, op: Operation)
    requires Inv(s)
    ensures Inv(Step(s, op))
  {
    hide AddTimer, ExpireStep, Insert, SetOk, FrontOk, CountsOk, Finds;
    if !s.stuck || op.Tick? || op.Notify? {
      match op
      case Add(at, ms, cb, recurring) => {
        if Reads(s, at) {
          AddKeeps(s, at, ms, cb, recurring);
        }
      }
      case Cancel(id) => {
        if Usable(s, id) {
          CancelKeeps(s, id);
        }
      }
      case Refresh(id) => {
        if Usable(s, id) && Finds(s, id) {
          RefreshKeeps(s, id);
        }
      }
      case ResetErase(id) => {
        if Usable(s, id) && Finds(s, id) {
          EraseKeeps(s, id);
        }
      }
      case ResetInsert(id, ms, fromNow, at) => {
        if id < |s.timers| && id in s.resetting && Reads(s, at) {
          InsertKeeps(s, id, ms, if fromNow then at else s.timers[id].next - Span(s.timers[id].ms));
        }
      }
      case Expire(at) => {
        if Reads(s, at) {
          ExpireKeeps(s, at);
        }
      }
      case _ => EasyKeeps(s, op);
    }
  }

  lemma {:induction false} Always(clock: int, ops: seq<Operation>)
    ensures Inv(Run(clock, ops))
  {
    if ops != [] {
      hide Inv, Step;
      Always(clock, ops[..|ops| - 1]);
      StepKeeps(Run(clock, ops[..|ops| - 1]), ops[|ops| - 1]);
    }
  }

  // Main results.

  /** With a clock that is not set back: while nobody has decided to notify since the last getNextTimer, no
      timer in the set is earlier than the deadline that call reported, and if it saw none there is none. */
  lemma NoEarlierTimerUnnoticed(clock: int, ops: seq<Operation>)
    requires !Run(clock, ops).tickled && !Run(clock, ops).setBack
    ensures var s := Run(clock, ops); forall k :: k in s.armed ==> s.front.Some? && s.front.value <= k
  {
    Always(clock, ops);
  }

  /** Between two calls of getNextTimer at most one insertion decides to notify, and it does exactly if
      the flag is up; the notifications made since the first of them are at most that one and those
      that were still owed when it was called. */
  lemma OneNotificationPerWait(clock: int, ops: seq<Operation>)
    ensures var s := Run(clock, ops);
            && s.asked <= 1 && (s.asked == 1 <==> s.tickled)
            && s.calls <= s.carried + 1 && s.calls + s.owed == s.asked + s.carried
  {
    Always(clock, ops);
  }

  predicate NoGetNext(ops: seq<Operation>) {
    forall i :: 0 <= i < |ops| ==> !ops[i].GetNext?
  }

  /** What was owed at the last getNextTimer is remembered until the next one. */
  lemma {:induction false} CarriedStays(clock: int, ops: seq<Operation>, more: seq<Operation>)
    requires !Run(clock, ops).stuck && NoGetNext(more)
    ensures Run(clock, ops + [GetNext] + more).carried == Run(clock, ops).owed
    decreases |more|
  {
    hide Run, Step;
    if more == [] {
      assert ops + [GetNext] + more == ops + [GetNext];
      RunSnoc(clock, ops, GetNext);
      GetNextCarries(Run(clock, ops));
    } else {
      var fewer, op := more[..|more| - 1], more[|more| - 1];
      CarriedStays(clock, ops, fewer);
      assert ops + [GetNext] + fewer + [op] == ops + [GetNext] + more;
      RunSnoc(clock, ops + [GetNext] + fewer, op);
      StepCarries(Run(clock, ops + [GetNext] + fewer), op);
    }
  }

  lemma GetNextCarries(s: State)
    requires !s.stuck
    ensures var g := Step(s, GetNext);
            g == s.(tickled := false, front := g.front, asked := 0, calls := 0, carried := s.owed)
  {
  }

  lemma StepCarries(s: State, op: Operation)
    requires !op.GetNext?
    ensures Step(s, op).carried == s.carried
  {
    hide NoSpin, Turns, Insert;
  }

  /** No timer in the set is due before now. */
  ghost predicate NothingEarlier(s: State) {
    forall k :: k in s.armed ==> s.clock <= k
  }

  /** A step after which nothing in the set is due before now: none is needed, or an expiry, or, if that would
      never end, a clock set back. */
  lemma NothingEarlierThen(g: State) returns (op: Operation)
    requires Inv(g) && !g.stuck
    ensures op.Tick? || op.Expire?
    ensures var s := Step(g, op);
            NothingEarlier(s) && !s.stuck && s.tickled == g.tickled && s.owed == g.owed && s.calls == g.calls
  {
    var l, c := Loop(g.armed, g.timers, []), Clock(g.clock, RollsOver(g));
    if NothingEarlier(g) {
      op := Tick(g.clock);
    } else if NoSpin(l, c) {
      op := Expire(g.clock);
      var keys := ExpiryIs(l, c);
      hide Turns, NoSpin, Due;
    } else {
      op := Tick(Front(g.armed));
    }
  }

  /** A timer that is due now comes to the front, and its insertion decides to notify. */
  lemma DueNowNotifies(s: State)
    requires NothingEarlier(s) && !s.stuck && !s.tickled
    ensures var t := Step(s, Add(s.clock, 0, None, false));
            t.owed == s.owed + 1 && t.calls == s.calls && !t.stuck
  {
    assert IsFront(Insert(s.armed, s.clock, |s.timers|), s.clock);
  }

  lemma NotifyTwice(s: State)
    requires s.owed >= 2
    ensures Step(Step(s, Notify), Notify).calls == s.calls + 2
  {
    hide NoSpin, Turns, Insert;
  }

  /** With a notification still owed, an insertion in front makes it two. */
  lemma SecondCall(clock: int, ops: seq<Operation>) returns (more: seq<Operation>)
    requires var g := Run(clock, ops); !g.stuck && !g.tickled && g.owed > 0 && g.calls == 0
    ensures NoGetNext(more) && Run(clock, ops + more).calls == 2
  {
    hide Run, Step, Inv, NothingEarlier;
    Always(clock, ops);
    var first := NothingEarlierThen(Run(clock, ops));
    RunSnoc(clock, ops, first);
    var due := ops + [first];
    var add := Add(Run(clock, due).clock, 0, None, false);
    DueNowNotifies(Run(clock, due));
    RunSnoc(clock, due, add);
    RunSnoc(clock, due + [add], Notify);
    RunSnoc(clock, due + [add] + [Notify], Notify);
    NotifyTwice(Run(clock, due + [add]));
    more := [first, add, Notify, Notify];
    assert due + [add] + [Notify] + [Notify] == ops + more;
  }

  /** Until the next getNextTimer at most one notification is made, whatever happens, if and only if
      none is owed when getNextTimer is called. */
  lemma OneCallIffNothingOwed(clock: int, ops: seq<Operation>)
    requires !Run(clock, ops).stuck
    ensures (forall more :: NoGetNext(more) ==> Run(clock, ops + [GetNext] + more).calls <= 1)
       <==> Run(clock, ops).owed == 0
  {
    hide Run, Step, Inv;
    if Run(clock, ops).owed == 0 {
      forall more | NoGetNext(more)
        ensures Run(clock, ops + [GetNext] + more).calls <= 1
      {
        CarriedStays(clock, ops, more);
        OneNotificationPerWait(clock, ops + [GetNext] + more);
      }
    } else {
      RunSnoc(clock, ops, GetNext);
      GetNextCarries(Run(clock, ops));
      var more := SecondCall(clock, ops + [GetNext]);
      assert NoGetNext(more);
    }
  }

  /** Without a clock set back, the expiry finds no rollover. */
  lemma NoRollover(clock: int, ops: seq<Operation>)
    requires !Run(clock, ops).setBack
    ensures !RollsOver(Run(clock, ops))
  {
    Always(clock, ops);
  }

  // Equal deadlines.

  ghost predicate InSet(s: State, id: Id) {
    exists k :: k in s.armed && s.armed[k] == id
  }

  /** A new timer is inserted exactly if no timer in the set has its deadline; otherwise it is lost,
      although it is returned and looks alive to `cancel`. */
  lemma InsertedIffDeadlineFree(s: State, at: int, ms: nat, cb: Option<Callback>, recurring: bool)
    requires Inv(s) && Reads(s, at) && !s.stuck
    ensures var s' := Step(s, Add(at, ms, cb, recurring));
            && (InSet(s', |s.timers|) <==> at + Span(ms) !in s.armed)
            && (at + Span(ms) in s.armed ==> s'.armed == s.armed)
            && s'.timers == s.timers + [Timer(at + Span(ms), ms, cb, recurring)]
  {
    var s' := Step(s, Add(at, ms, cb, recurring));
    if at + Span(ms) !in s.armed {
      assert s'.armed[at + Span(ms)] == |s.timers|;
    }
  }

  /** Cancelling or refreshing a timer removes another one from the set exactly if that one holds its
      deadline. */
  lemma RemovesAnotherIffItHoldsTheDeadline(s: State, id: Id, other: Id)
    requires Inv(s) && Usable(s, id) && !s.stuck && id != other && InSet(s, other)
    ensures !InSet(Step(s, Cancel(id)), other) <==>
              s.timers[id].next in s.armed && s.armed[s.timers[id].next] == other
    ensures !InSet(Step(s, Refresh(id)), other) <==>
              s.timers[id].next in s.armed && s.armed[s.timers[id].next] == other
  {
    var k :| k in s.armed && s.armed[k] == other;
    assert s.timers[other].next == k;
    if k != s.timers[id].next {
      assert Step(s, Cancel(id)).armed[k] == other;
      assert Step(s, Refresh(id)).armed[k] == other;
    }
  }

  /** Two timers with one deadline: the second is not in the set, and cancelling it takes the first out. */
  lemma EqualDeadlines()
    ensures exists ops, id :: CancelsAnother(Run(0, ops), id)
  {
    hide Run, Inv;
    var first, second := Add(0, 5, Some(1), false), Add(0, 5, Some(2), false);
    Start(0);
    RunSnoc(0, [], first);
    var s1 := Step(Init(0), first);
    assert IsFront(map[5_000_000 := 0], 5_000_000);
    assert s1.armed == map[5_000_000 := 0] && s1.timers == [Timer(5_000_000, 5, Some(1), false)];
    RunSnoc(0, [] + [first], second);
    var s2 := Run(0, [] + [first] + [second]);
    assert s2.armed == s1.armed && s2.timers == s1.timers + [Timer(5_000_000, 5, Some(2), false)];
    assert s2.armed[5_000_000] == 0;
    assert CancelsAnother(s2, 1);
  }

  /** The timer `id`, which has a callback, is not in the set, and cancelling it leaves the set without
      timer 0, which has a callback as well. */
  ghost predicate CancelsAnother(s: State, id: Id) {
    && !s.stuck && id != 0 && Usable(s, id) && Usable(s, 0)
    && !InSet(s, id) && InSet(s, 0) && !InSet(Step(s, Cancel(id)), 0)
  }

  lemma RunSnoc(clock: int, ops: seq<Operation>, op: Operation)
    ensures Run(clock, ops + [op]) == Step(Run(clock, ops), op)
  {
    assert (ops + [op])[..|ops|] == ops;
  }

  /** Two notifications between two calls of getNextTimer: the first was decided before. */
  lemma TwoNotificationsInOneWait()
    ensures exists ops :: var s := Run(0, ops); s.calls == 2 && s.carried == 1
  {
    hide Run, Inv;
    var first, second := Add(0, 9, None, false), Add(0, 5, None, false);
    var s0 := Init(0);
    assert Run(0, []) == s0 by {
      Start(0);
    }
    RunSnoc(0, [], first);
    var s1 := Step(s0, first);
    assert s1.armed == map[9_000_000 := 0];
    assert IsFront(s1.armed, 9_000_000);
    assert s1.owed == 1 && s1.tickled;
    RunSnoc(0, [] + [first], GetNext);
    var s2 := Step(s1, GetNext);
    RunSnoc(0, [] + [first] + [GetNext], second);
    var s3 := Step(s2, second);
    assert s3.armed == map[9_000_000 := 0, 5_000_000 := 1];
    assert IsFront(s3.armed, 5_000_000);
    RunSnoc(0, [] + [first] + [GetNext] + [second], Notify);
    RunSnoc(0, [] + [first] + [GetNext] + [second] + [Notify], Notify);
    assert Run(0, [] + [first] + [GetNext] + [second] + [Notify] + [Notify]).calls == 2;
  }

  lemma Start(clock: int)
    ensures Run(clock, []) == Init(clock)
  {
  }
}

/** The timer manager as written. The set is the map of the specification, and `begin` its least key. */
module TimerManagerObject {
  import opened Wrappers
  import opened ExpiryLoop
  import opened TimerManagerMachine

  /** The result of getNextTimer, in milliseconds; none stands for the greatest 64-bit value. */
  ghost predicate IsWait(m: map<int, Id>, now: int, wait: Option<int>) {
    if m == map[] then wait == None
    else
      && wait.Some?
      && if Front(m) <= now then wait.value == 0
         else now + Span(wait.value) <= Front(m) < now + Span(wait.value + 1)
  }

  /** What an insertion leaves, as fields. */
  ghost predicate Inserted(s: State, s': State, k: int, id: Id) {
    var atFront := IsFront(Insert(s.armed, k, id), k) && !s.tickled;
    && s'.armed == Insert(s.armed, k, id) && s'.tickled == (s.tickled || atFront)
    && s'.previous == s.previous && s'.clock == s.clock && !s'.stuck && s'.owed == s.owed + (if atFront then 1 else 0)
  }

  lemma AddIs(s: State, at: int, ms: nat, cb: Option<Callback>, recurring: bool)
    requires !s.stuck && Reads(s, at)
    ensures var s' := Step(s, Add(at, ms, cb, recurring));
            && Inserted(s, s', at + Span(ms), |s.timers|)
            && s'.timers == s.timers + [Timer(at + Span(ms), ms, cb, recurring)]
  {
  }

  lemma FrontIs(m: map<int, Id>, k: int, id: Id)
    ensures IsFront(Insert(m, k, id), k) <==> forall j :: j in m ==> k <= j
  {
    if IsFront(Insert(m, k, id), k) {
      forall j | j in m
        ensures k <= j
      {
        assert j in Insert(m, k, id);
      }
    }
  }

  lemma RefreshIs(s: State, id: Id)
    requires !s.stuck && id < |s.timers| && id !in s.resetting
    ensures var s' := Step(s, Refresh(id));
            var t := s.timers[id];
            var next := s.clock + Span(t.ms);
            && s'.tickled == s.tickled && s'.previous == s.previous && s'.clock == s.clock && !s'.stuck
            && if t.cb.Some? && t.next in s.armed
               then s'.timers == s.timers[id := t.(next := next)] && s'.armed == Insert(s.armed - {t.next}, next, id)
               else s' == s
  {
  }

  lemma ResetEraseIs(s: State, id: Id)
    requires !s.stuck && id < |s.timers| && id !in s.resetting
    ensures var s' := Step(s, ResetErase(id));
            var t := s.timers[id];
            && s'.timers == s.timers && !s'.stuck && s'.setBack == s.setBack
            && s'.tickled == s.tickled && s'.previous == s.previous && s'.clock == s.clock
            && if t.cb.Some? && t.next in s.armed
               then s'.armed == s.armed - {t.next} && id in s'.resetting
               else s' == s
  {
  }

  lemma ResetInsertIs(s: State, id: Id, ms: nat, fromNow: bool, at: int)
    requires !s.stuck && id < |s.timers| && id in s.resetting && Reads(s, at)
    ensures var s' := Step(s, ResetInsert(id, ms, fromNow, at));
            var t := s.timers[id];
            var next := (if fromNow then at else t.next - Span(t.ms)) + Span(ms);
            Inserted(s, s', next, id) && s'.timers == s.timers[id := t.(ms := ms, next := next)]
  {
  }

  lemma NotifyIs(s: State)
    requires !s.stuck && s.owed > 0
    ensures var s' := Step(s, Notify);
            && s'.armed == s.armed && s'.timers == s.timers && s'.tickled == s.tickled
            && s'.previous == s.previous && s'.clock == s.clock && !s'.stuck
  {
  }

  lemma LoopIsValid(start: int, trace: seq<Operation>)
    ensures var s := Run(start, trace); ExpiryLoop.Valid(Loop(s.armed, s.timers, []))
  {
    Always(start, trace);
  }

  lemma NoTurns(l: Loop, c: Clock)
    requires ExpiryLoop.Valid(l)
    ensures Turns(l, c, 0) == l
  {
  }

  lemma {:induction false} TurnsSnoc(l: Loop, c: Clock, n: nat)
    requires ExpiryLoop.Valid(l)
    ensures Turns(l, c, n + 1) == Turn(Turns(l, c, n), c)
    decreases n
  {
    TurnKeepsValid(l, c);
    if n > 0 {
      TurnsSnoc(Turn(l, c), c, n - 1);
    } else {
      assert Turns(l, c, 1) == Turns(Turn(l, c), c, 0);
    }
  }

  /** More turns after the end change nothing. */
  lemma {:induction false} TurnsStay(l: Loop, c: Clock, n: nat, m: nat)
    requires ExpiryLoop.Valid(l) && !Guarded(Turns(l, c, n), c) && n <= m
    ensures Turns(l, c, m) == Turns(l, c, n)
    decreases m
  {
    if n < m {
      TurnsStay(l, c, n, m - 1);
      TurnsSnoc(l, c, m - 1);
    }
  }

  lemma EndsLikeNoSpin(l: Loop, c: Clock, n: nat)
    requires ExpiryLoop.Valid(l)
    ensures !Guarded(Turns(l, c, n), c) ==> NoSpin(l, c) && Turns(l, c, n) == Turns(l, c, |Due(l, c)|)
    ensures NoSpin(l, c) && n >= |Due(l, c)| ==> !Guarded(Turns(l, c, n), c)
  {
    hide Turns, Guarded, NoSpin, Due;
    TerminatesIffNoSpin(l, c);
    var d := |Due(l, c)|;
    if !Guarded(Turns(l, c, n), c) {
      TurnsStay(l, c, n, if d < n then n else d);
    }
    if NoSpin(l, c) {
      TurnsStay(l, c, d, if d < n then n else d);
    }
  }

  lemma ExpiredAre(l: Loop, c: Clock, keys: seq<int>)
    requires ExpiryLoop.Valid(l) && l.cbs == []
    requires Expires(l, c, Turns(l, c, |Due(l, c)|), keys)
    ensures (forall k :: k in keys ==> k in l.armed && l.armed[k] < |l.timers|)
    ensures Turns(l, c, |Due(l, c)|).cbs == Cbs(l, keys)
  {
    hide TimersAfter, LeftAt, Turns, Cbs;
  }

  lemma ExpireIs(s: State, at: int)
    requires !s.stuck && Reads(s, at) && ExpiryLoop.Valid(Loop(s.armed, s.timers, []))
    requires NoSpin(Loop(s.armed, s.timers, []), Clock(at, RollsOver(s)))
    ensures var l, c := Loop(s.armed, s.timers, []), Clock(at, RollsOver(s));
            var r := Turns(l, c, |Due(l, c)|);
            Step(s, Expire(at)) == s.(armed := r.armed, timers := r.timers, previous := s.clock)
  {
    hide NoSpin, Turns, Due;
  }

  // What other threads do between two of the blocks of a thread.

  /** The step is possible, for a thread other than one that is resetting the timer `id` and owes `mine`
      notifications. An expiry that never ends is not: it keeps the lock. */
  ghost predicate Enabled(s: State, op: Operation, id: Option<Id>, mine: nat) {
    && !s.stuck
    && match op
       case Tick(_) => true
       case Add(at, _, _, _) => Reads(s, at)
       case Cancel(i) => i < |s.timers| && i !in s.resetting
       case Refresh(i) => i < |s.timers| && i !in s.resetting
       case ResetErase(i) => i < |s.timers| && i !in s.resetting
       case ResetInsert(i, _, _, at) => i < |s.timers| && i in s.resetting && id != Some(i) && Reads(s, at)
       case GetNext => true
       case Expire(at) => Reads(s, at) && MayExpire(s, at)
       case Notify => s.owed > mine
  }

  ghost predicate MayExpire(s: State, at: int) {
    var l := Loop(s.armed, s.timers, []);
    ExpiryLoop.Valid(l) && NoSpin(l, Clock(at, RollsOver(s)))
  }

  ghost predicate AllEnabled(s: State, ops: seq<Operation>, id: Option<Id>, mine: nat)
    decreases |ops|
  {
    ops == [] || (Enabled(s, ops[0], id, mine) && AllEnabled(Step(s, ops[0]), ops[1..], id, mine))
  }

  ghost function After(s: State, ops: seq<Operation>): State
    decreases |ops|
  {
    if ops == [] then s else After(Step(s, ops[0]), ops[1..])
  }

  lemma OneByOne(s: State, ops: seq<Operation>, id: Option<Id>, mine: nat)
    requires AllEnabled(s, ops, id, mine)
    ensures if ops == [] then After(s, ops) == s
            else && Enabled(s, ops[0], id, mine) && AllEnabled(Step(s, ops[0]), ops[1..], id, mine)
                 && After(s, ops) == After(Step(s, ops[0]), ops[1..])
  {
    hide Step, Enabled;
  }

  /** The notifications that an insertion leaves to its thread. */
  function Owes(s: State, s': State): nat {
    if s'.owed > s.owed then 1 else 0
  }

  lemma StepOwes(s: State, op: Operation, id: Option<Id>, mine: nat)
    requires Enabled(s, op, id, mine) && s.owed >= mine
    ensures Step(s, op).owed >= mine
  {
  }

  lemma {:induction false} OthersLeaveNotification(s: State, ops: seq<Operation>, id: Option<Id>, mine: nat)
    requires AllEnabled(s, ops, id, mine) && s.owed >= mine
    ensures After(s, ops).owed >= mine
    decreases |ops|
  {
    if ops != [] {
      hide Step, Enabled;
      StepOwes(s, ops[0], id, mine);
      OthersLeaveNotification(Step(s, ops[0]), ops[1..], id, mine);
    }
  }

  /** A timer that is being reset is left alone by other threads. */
  ghost predicate SameReset(s: State, t: State, id: Id) {
    id in t.resetting && id < |s.timers| <= |t.timers| && t.timers[id] == s.timers[id]
  }

  lemma StepKeepsReset(s: State, op: Operation, id: Id, mine: nat)
    requires Inv(s) && id in s.resetting && Enabled(s, op, Some(id), mine)
    ensures SameReset(s, Step(s, op), id) && Inv(Step(s, op))
  {
    StepKeeps(s, op);
    hide CountsOk, StartsOk, FrontOk;
    if op.Expire? {
      ExpireKeepsReset(s, op.at, id);
    }
  }

  lemma ExpireKeepsReset(s: State, at: int, id: Id)
    requires SetOk(s) && id in s.resetting && MayExpire(s, at)
    ensures SameReset(s, ExpireStep(s, at), id)
  {
    var l, c := Loop(s.armed, s.timers, []), Clock(at, RollsOver(s));
    var keys := ExpiryIs(l, c);
    assert !IsDueTimer(l, c, id);
    hide Turns;
  }

  lemma {:induction false} OthersLeaveReset(s: State, ops: seq<Operation>, id: Id, mine: nat)
    requires Inv(s) && id in s.resetting && AllEnabled(s, ops, Some(id), mine)
    ensures SameReset(s, After(s, ops), id)
    decreases |ops|
  {
    if ops != [] {
      hide Step, Enabled, Inv;
      StepKeepsReset(s, ops[0], id, mine);
      OthersLeaveReset(Step(s, ops[0]), ops[1..], id, mine);
    } else {
      ResetIsKnown(s, id);
    }
  }

  lemma ResetIsKnown(s: State, id: Id)
    requires Inv(s) && id in s.resetting
    ensures SameReset(s, s, id)
  {
  }

  lemma DueAreArmed(l: Loop, c: Clock)
    requires ExpiryLoop.Valid(l)
    ensures |Due(l, c)| <= |l.armed|
  {
    assert Due(l, c) <= l.armed.Keys;
    Subset(Due(l, c), l.armed.Keys);
  }

  lemma {:induction false} Subset(a: set<int>, b: set<int>)
    requires a <= b
    ensures |a| <= |b|
    decreases |a|
  {
    Inhabited(a);
    if |a| > 0 {
      var k :| k in a;
      Subset(a - {k}, b - {k});
    }
  }

  class TimerManager {
    var armed: map<int, Id>
    var timers: seq<Timer>
    var tickled: bool
    var previous: int
    /** The system clock. */
    var clock: int
    ghost const start: int
    ghost var trace: seq<Operation>
    ghost var view: State

    ghost predicate Valid()
      reads this
    {
      && view == Run(start, trace) && !view.stuck
      && armed == view.armed && timers == view.timers && tickled == view.tickled
      && previous == view.previous && clock == view.clock
    }

    constructor (now: int)
      ensures Valid() && start == now && trace == []
    {
      armed, timers, tickled, previous, clock := map[], [], false, now, now;
      start, trace, view := now, [], Init(now);
    }

    ghost method Do(op: Operation)
      requires view == Run(start, trace)
      modifies `trace, `view
      ensures trace == old(trace) + [op] && view == Step(old(view), op) && view == Run(start, trace)
    {
      hide Run, Step;
      RunSnoc(start, trace, op);
      trace := trace + [op];
      view := Step(view, op);
    }

    /** Time passes, or is set back. */
    method Tick(to: int)
      requires Valid()
      modifies `clock, `trace, `view
      ensures Valid() && trace == old(trace) + [Operation.Tick(to)] && view == Step(old(view), Operation.Tick(to))
    {
      clock := to;
      Do(Operation.Tick(to));
    }

    method Begin() returns (k: int)
      requires armed != map[]
      ensures IsFront(armed, k) && k == Front(armed)
    {
      FrontExists(armed);
      k :| k in armed && forall j :: j in armed ==> k <= j;
    }

    /** The locked block of addTimer, for a new timer; `at` is the time that its constructor reads. */
    method AddLocked(at: int, ms: nat, cb: Option<Callback>, recurring: bool) returns (id: Id, atFront: bool)
      requires Valid() && Reads(view, at)
      modifies this
      ensures Valid() && id == |old(timers)|
      ensures trace == old(trace) + [Add(at, ms, cb, recurring)]
      ensures view == Step(old(view), Add(at, ms, cb, recurring))
      ensures atFront <==> !old(tickled) && forall k :: k in old(armed) ==> at + Span(ms) <= k
      ensures tickled == (old(tickled) || atFront)
      ensures Owes(old(view), view) == if atFront then 1 else 0
      ensures timers == old(timers) + [Timer(at + Span(ms), ms, cb, recurring)]
      ensures armed == Insert(old(armed), at + Span(ms), id)
    {
      hide Run, Step, IsFront, Insert;
      AddIs(view, at, ms, cb, recurring);
      FrontIs(armed, at + Span(ms), |timers|);
      id := |timers|;
      timers := timers + [Timer(at + Span(ms), ms, cb, recurring)];
      atFront := InsertTimer(id);
      Do(Add(at, ms, cb, recurring));
    }

    /** The call of onTimerInsertedAtFront. */
    method NotifyFront()
      requires Valid() && view.owed > 0
      modifies `trace, `view
      ensures Valid() && trace == old(trace) + [Notify] && view == Step(old(view), Notify)
    {
      hide Run, Step;
      NotifyIs(view);
      Do(Notify);
    }

    /** addTimer, with other threads between the release of the lock and the notification. */
    method AddTimer(at: int, ms: nat, cb: Option<Callback>, recurring: bool, others: seq<Operation>)
      returns (id: Id, notified: bool)
      requires Valid() && Reads(view, at)
      requires var added := Step(view, Add(at, ms, cb, recurring));
               AllEnabled(added, others, None, Owes(view, added))
      modifies this
      ensures Valid() && id == |old(timers)|
      ensures trace == old(trace) + [Add(at, ms, cb, recurring)] + others + if notified then [Notify] else []
      ensures var added := Step(old(view), Add(at, ms, cb, recurring));
              var later := After(added, others);
              && added.timers == old(timers) + [Timer(at + Span(ms), ms, cb, recurring)]
              && added.armed == Insert(old(armed), at + Span(ms), id)
              && (notified <==> !old(tickled) && forall k :: k in old(armed) ==> at + Span(ms) <= k)
              && added.tickled == (old(tickled) || notified)
              && (notified ==> later.owed > 0)
              && view == if notified then Step(later, Notify) else later
    {
      hide Run, Step, Insert, After, AllEnabled;
      ghost var was := view;
      id, notified := AddLocked(at, ms, cb, recurring);
      ghost var mine := Owes(was, view);
      OthersLeaveNotification(view, others, None, mine);
      Others(others, None, mine);
      if notified {
        NotifyFront();
      }
    }

    /** The locked block of addTimer. */
    method InsertTimer(id: Id) returns (atFront: bool)
      requires id < |timers|
      modifies `armed, `tickled
      ensures armed == Insert(old(armed), timers[id].next, id)
      ensures armed == if timers[id].next in old(armed) then old(armed) else old(armed)[timers[id].next := id]
      ensures atFront <==> IsFront(armed, timers[id].next) && !old(tickled)
      ensures tickled == (old(tickled) || atFront)
    {
      var k := timers[id].next;
      if k !in armed {
        armed := armed[k := id];
      }
      assert k in armed;
      var begin := Begin();
      atFront := k == begin && !tickled;
      if atFront {
        tickled := true;
      }
    }

    method Cancel(id: Id) returns (ok: bool)
      requires Valid() && id < |timers| && id !in view.resetting
      modifies this
      ensures Valid() && trace == old(trace) + [Operation.Cancel(id)]
      ensures view == Step(old(view), Operation.Cancel(id))
      ensures ok <==> old(timers)[id].cb.Some?
      ensures timers == if ok then old(timers)[id := old(timers)[id].(cb := None)] else old(timers)
      ensures armed == if ok then old(armed) - {old(timers)[id].next} else old(armed)
    {
      if timers[id].cb.None? {
        Do(Operation.Cancel(id));
        return false;
      }
      timers := timers[id := timers[id].(cb := None)];
      var k := timers[id].next;
      if k in armed {
        armed := armed - {k};
      }
      assert old(armed) - {k} == armed;
      Do(Operation.Cancel(id));
      return true;
    }

    method Refresh(id: Id) returns (ok: bool)
      requires Valid() && id < |timers| && id !in view.resetting
      modifies this
      ensures Valid() && trace == old(trace) + [Operation.Refresh(id)]
      ensures view == Step(old(view), Operation.Refresh(id))
      ensures ok <==> old(timers)[id].cb.Some? && old(timers)[id].next in old(armed)
      ensures if ok then
                var t := old(timers)[id];
                var next := old(clock) + t.ms * NANOSECONDS_PER_MILLISECOND;
                var left := old(armed) - {t.next};
                && timers == old(timers)[id := t.(next := next)]
                && armed == if next in left then left else left[next := id]
              else timers == old(timers) && armed == old(armed)
    {
      hide Run, Step;
      RefreshIs(view, id);
      if timers[id].cb.None? || timers[id].next !in armed {
        Do(Operation.Refresh(id));
        return false;
      }
      armed := armed - {timers[id].next};
      timers := timers[id := timers[id].(next := clock + Span(timers[id].ms))];
      if timers[id].next !in armed {
        armed := armed[timers[id].next := id];
      }
      Do(Operation.Refresh(id));
      return true;
    }

    /** The first locked block of reset. */
    method EraseForReset(id: Id) returns (ok: bool)
      requires Valid() && id < |timers| && id !in view.resetting
      modifies `armed, `trace, `view
      ensures Valid() && trace == old(trace) + [ResetErase(id)] && view == Step(old(view), ResetErase(id))
      ensures ok <==> old(timers)[id].cb.Some? && old(timers)[id].next in old(armed)
      ensures armed == if ok then old(armed) - {timers[id].next} else old(armed)
      ensures ok ==> id in view.resetting
    {
      hide Run, Step;
      ResetEraseIs(view, id);
      ok := timers[id].cb.Some? && timers[id].next in armed;
      if ok {
        armed := armed - {timers[id].next};
      }
      Do(ResetErase(id));
    }

    /** The unlocked assignments and the second locked block; `at` is the time read for the new start. */
    method InsertAfterReset(id: Id, ms: nat, fromNow: bool, at: int) returns (atFront: bool)
      requires Valid() && id < |timers| && id in view.resetting && Reads(view, at)
      modifies this
      ensures Valid() && trace == old(trace) + [ResetInsert(id, ms, fromNow, at)]
      ensures view == Step(old(view), ResetInsert(id, ms, fromNow, at))
      ensures var t := old(timers)[id];
              var next := (if fromNow then at else t.next - Span(t.ms)) + Span(ms);
              && timers == old(timers)[id := t.(ms := ms, next := next)]
              && armed == Insert(old(armed), next, id)
              && (atFront <==> !old(tickled) && forall k :: k in old(armed) ==> next <= k)
      ensures tickled == (old(tickled) || atFront)
      ensures Owes(old(view), view) == if atFront then 1 else 0
    {
      hide Run, Step, IsFront, Insert;
      var start := if fromNow then at else timers[id].next - Span(timers[id].ms);
      ResetInsertIs(view, id, ms, fromNow, at);
      FrontIs(armed, start + Span(ms), id);
      timers := timers[id := timers[id].(ms := ms, next := start + Span(ms))];
      atFront := InsertTimer(id);
      Do(ResetInsert(id, ms, fromNow, at));
    }

    /** reset, with other threads between its two blocks, `between`, and before its notification, `later`.
        In between the timer is out of the set, and nobody else touches it. `inserting` is the state in
        which the second lock is taken. */
    method Reset(id: Id, ms: nat, fromNow: bool, between: seq<Operation>, later: seq<Operation>)
      returns (ok: bool, ghost inserting: State)
      requires Valid() && id < |timers| && id !in view.resetting
      requires id in Step(view, ResetErase(id)).resetting ==>
                 var open := After(Step(view, ResetErase(id)), between);
                 var closed := Step(open, ResetInsert(id, ms, fromNow, open.clock));
                 && AllEnabled(Step(view, ResetErase(id)), between, Some(id), 0)
                 && AllEnabled(closed, later, None, Owes(open, closed))
      modifies this
      ensures Valid() && old(trace) <= trace
      ensures ok <==> (ms == old(timers)[id].ms && !fromNow)
                      || (old(timers)[id].cb.Some? && old(timers)[id].next in old(armed))
      ensures !ok || (ms == old(timers)[id].ms && !fromNow) ==> timers == old(timers) && armed == old(armed)
      ensures ok && (ms != old(timers)[id].ms || fromNow) ==>
                var erased := Step(old(view), ResetErase(id));
                var t := old(timers)[id];
                var next := (if fromNow then inserting.clock else t.next - Span(t.ms)) + Span(ms);
                var closed := Step(inserting, ResetInsert(id, ms, fromNow, inserting.clock));
                var left := After(closed, later);
                && erased.armed == old(armed) - {t.next} && inserting == After(erased, between)
                && id < |inserting.timers| && inserting.timers[id] == t
                && closed.timers == inserting.timers[id := t.(ms := ms, next := next)]
                && closed.armed == Insert(inserting.armed, next, id)
                && view == if !inserting.tickled && closed.tickled then Step(left, Notify) else left
    {
      hide Run, Step, Insert, After, AllEnabled, Inv;
      inserting := view;
      if ms == timers[id].ms && !fromNow {
        return true, view;
      }
      ok := EraseForReset(id);
      if ok {
        Always(start, trace);
        OthersLeaveReset(view, between, id, 0);
        Others(between, Some(id), 0);
        inserting := view;
        var atFront := InsertAfterReset(id, ms, fromNow, clock);
        ghost var mine := Owes(inserting, view);
        OthersLeaveNotification(view, later, None, mine);
        Others(later, None, mine);
        if atFront {
          NotifyFront();
        }
      }
    }

    /** Other threads use the manager. */
    method Others(ops: seq<Operation>, ghost id: Option<Id>, ghost mine: nat)
      requires Valid() && AllEnabled(view, ops, id, mine)
      modifies this
      ensures Valid() && trace == old(trace) + ops && view == After(old(view), ops)
      decreases |ops|
    {
      hide *;
      OneByOne(view, ops, id, mine);
      if ops != [] {
        Other(ops[0], id, mine);
        Others(ops[1..], id, mine);
        assert ops == [ops[0]] + ops[1..];
      } else {
        assert trace == trace + ops;
      }
    }

    method Other(op: Operation, ghost id: Option<Id>, ghost mine: nat)
      requires Valid() && Enabled(view, op, id, mine)
      modifies this
      ensures Valid() && trace == old(trace) + [op] && view == Step(old(view), op)
    {
      hide Run, Step, Due, Turns, NoSpin, Insert, ExpiryLoop.Valid;
      match op {
      case Tick(to) => Tick(to);
      case Add(at, ms, cb, recurring) => {
        var _, _ := AddLocked(at, ms, cb, recurring);
      }
      case Cancel(i) => {
        var _ := Cancel(i);
      }
      case Refresh(i) => {
        var _ := Refresh(i);
      }
      case ResetErase(i) => {
        var _ := EraseForReset(i);
      }
      case ResetInsert(i, ms, fromNow, at) => {
        var _ := InsertAfterReset(i, ms, fromNow, at);
      }
      case GetNext => {
        var _ := GetNextTimer();
      }
      case Expire(at) => {
        DueAreArmed(Loop(armed, timers, []), Clock(at, RollsOver(view)));
        var _, _, _ := ListExpiredCb(at, [], |armed|);
      }
      case Notify => NotifyFront();
      }
    }

    method GetNextTimer() returns (wait: Option<int>)
      requires Valid()
      modifies `tickled, `trace, `view
      ensures Valid() && trace == old(trace) + [GetNext] && view == Step(old(view), GetNext)
      ensures IsWait(armed, clock, wait) && !tickled
    {
      tickled := false;
      Do(GetNext);
      if armed == map[] {
        return None;
      }
      var time := Begin();
      if clock >= time {
        return Some(0);
      }
      return Some((time - clock) / NANOSECONDS_PER_MILLISECOND);
    }

    /** The guard of the loop in listExpiredCb. */
    method IsGuarded(c: Clock, ghost l: Loop) returns (guarded: bool)
      requires l.armed == armed
      ensures guarded <==> Guarded(l, c)
    {
      if armed == map[] {
        return false;
      }
      var begin := Begin();
      guarded := c.rollover || begin <= c.now;
    }

    /** The body of that loop; `expired` is what it has handed out so far. */
    method TakeFront(c: Clock, ghost l: Loop) returns (cb: Option<Callback>)
      requires ExpiryLoop.Valid(l) && Guarded(l, c) && l.armed == armed && l.timers == timers
      modifies `armed, `timers
      ensures Loop(armed, timers, l.cbs + [cb]) == Turn(l, c)
      ensures exists k :: IsFront(old(armed), k) &&
                var id := old(armed)[k];
                var t := old(timers)[id];
                var next := c.now + t.ms * NANOSECONDS_PER_MILLISECOND;
                var left := old(armed) - {k};
                && cb == t.cb
                && timers == old(timers)[id := if t.recurring then t.(next := next) else t.(cb := None)]
                && armed == if t.recurring && next !in left then left[next := id] else left
    {
      var begin := Begin();
      var id := armed[begin];
      armed := armed - {begin};
      cb := timers[id].cb;
      if timers[id].recurring {
        timers := timers[id := timers[id].(next := c.now + Span(timers[id].ms))];
        if timers[id].next !in armed {
          armed := armed[timers[id].next := id];
        }
      } else {
        timers := timers[id := timers[id].(cb := None)];
      }
    }

    /** `at` is the time read before the lock is taken. The loop may run forever, so this makes at most
        `fuel` turns of it: with enough of them it ends exactly if NoSpin holds, and has then done
        what Expires says. */
    method ListExpiredCb(at: int, cbs: seq<Option<Callback>>, fuel: nat)
      returns (done: bool, all: seq<Option<Callback>>, ghost keys: seq<int>)
      requires Valid() && Reads(view, at)
      modifies this
      ensures ExpiryLoop.Valid(Loop(old(armed), old(timers), []))
      ensures var l := Loop(old(armed), old(timers), []);
              var c := Clock(at, old(clock) < old(previous) - 3_600_000 * NANOSECONDS_PER_MILLISECOND);
              && (done ==> NoSpin(l, c))
              && (NoSpin(l, c) && fuel >= |Due(l, c)| ==> done)
              && (done ==>
                    && Valid() && trace == old(trace) + [Expire(at)] && view == Step(old(view), Expire(at))
                    && previous == clock == old(clock) && tickled == old(tickled)
                    && IsOrder(l, c, keys) && all == cbs + Cbs(l, keys)
                    && Expires(l, c, Loop(armed, timers, Cbs(l, keys)), keys))
    {
      hide Run, Step, Turn, Turns, NoSpin, Expires, Guarded, Due, Inv, ExpiryLoop.Valid, Cbs;
      var c := Clock(at, clock < previous - ROLLOVER_MARGIN);
      previous := clock;
      ghost var l := Loop(armed, timers, []);
      ghost var expired := [];
      LoopIsValid(start, trace);
      NoTurns(l, c);
      all, keys := cbs, [];
      var n := 0;
      var guarded := IsGuarded(c, l);
      while guarded && n < fuel
        invariant n <= fuel && Loop(armed, timers, expired) == Turns(l, c, n) && all == cbs + expired
        invariant guarded <==> Guarded(Turns(l, c, n), c)
        invariant view == old(view) && trace == old(trace) && previous == clock == old(clock) && tickled == old(tickled)
        decreases fuel - n
      {
        var cb := TakeFront(c, Turns(l, c, n));
        TurnsSnoc(l, c, n);
        expired, all, n := expired + [cb], all + [cb], n + 1;
        guarded := IsGuarded(c, Turns(l, c, n));
      }
      done := !guarded;
      EndsLikeNoSpin(l, c, n);
      if done {
        keys := ExpiryIs(l, c);
        ExpiredAre(l, c, keys);
        ExpireIs(view, at);
        Do(Expire(at));
      }
    }
  }
}
