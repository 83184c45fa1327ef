/**
 Coroutines that wait for descriptors on one event loop, as `poll_wait` (`src/poll_hook.cpp`) and
 `io_wait` (`src/hook.cpp`) do. A slot of the loop holds the callback of one wait call. `poll_wait`
 ignores the result of its registrations, and cancels by descriptor and direction when it is resumed,
 whoever owns the registration by then.
*/
module PollMachine {
  datatype Direction = In | Out

  /** A descriptor and a direction. */
  type Key = (int, Direction)
  type CallId = nat

  datatype Phase = SettingUp(todo: seq<Key>) | Parked | CleaningUp(todo: seq<Key>) | Done

  /** A call of `poll_wait`, or else of `io_wait`; `armed` says that its timer is in the timer queue, and
      `fired` is the flag its callbacks share. */
  datatype WaitCall = WaitCall(keys: seq<Key>, poll: bool, timed: bool, phase: Phase, armed: bool, fired: bool)

  /** `copied` are the callbacks, by their calls, that a dispatch or an expiry has taken and not yet called. */
  datatype State = State(calls: seq<WaitCall>, slots: map<Key, CallId>, copied: multiset<CallId>)

  /** `ok` says whether epoll takes the descriptor. */
  datatype Action =
    | Begin(keys: seq<Key>, poll: bool, timed: bool)
    | Register(c: CallId, ok: bool)
    | Park(c: CallId)
    | Copy(key: Key)
    | Expire(c: CallId)
    | Fire(c: CallId)
    | Resume(c: CallId)
    | CleanUp(c: CallId)

  predicate In(s: State, c: CallId) {
    c < |s.calls|
  }

  function Put(s: State, c: CallId, x: WaitCall): State
    requires In(s, c)
  {
    s.(calls := s.calls[c := x])
  }

  /** The registration of the first direction left to register is accepted. */
  predicate Accepts(s: State, a: Action) {
    && a.Register? && a.ok && In(s, a.c)
    && s.calls[a.c].phase.SettingUp? && s.calls[a.c].phase.todo != [] && s.calls[a.c].phase.todo[0] !in s.slots
  }

  /** The step cancels a registration of call `c`. */
  predicate Strikes(s: State, a: Action, c: CallId) {
    && a.CleanUp? && In(s, a.c) && s.calls[a.c].phase.CleaningUp? && s.calls[a.c].phase.todo != []
    && var k := s.calls[a.c].phase.todo[0]; k in s.slots && s.slots[k] == c
  }

  function BeginStep(s: State, keys: seq<Key>, poll: bool, timed: bool): State {
    if !poll && |keys| != 1 then s
    else s.(calls := s.calls + [WaitCall(keys, poll, poll && timed, SettingUp(keys), false, false)])
  }

  /** A refused registration is passed over by `poll_wait`, and ends `io_wait`. */
  function RegisterStep(s: State, c: CallId, ok: bool): State {
    if !In(s, c) || !s.calls[c].phase.SettingUp? || s.calls[c].phase.todo == [] then s
    else
      var x := s.calls[c];
      var k := x.phase.todo[0];
      if ok && k !in s.slots then Put(s, c, x.(phase := SettingUp(x.phase.todo[1..]))).(slots := s.slots[k := c])
      else Put(s, c, x.(phase := if x.poll then SettingUp(x.phase.todo[1..]) else Done))
  }

  function ParkStep(s: State, c: CallId): State {
    if In(s, c) && s.calls[c].phase == SettingUp([])
    then Put(s, c, s.calls[c].(phase := Parked, armed := s.calls[c].timed)) else s
  }

  function CopyStep(s: State, k: Key): State {
    if k in s.slots then s.(slots := s.slots - {k}, copied := s.copied + multiset{s.slots[k]}) else s
  }

  function ExpireStep(s: State, c: CallId): State {
    if In(s, c) && s.calls[c].armed
    then Put(s, c, s.calls[c].(armed := false)).(copied := s.copied + multiset{c}) else s
  }

  function FireStep(s: State, c: CallId): State {
    if c in s.copied && In(s, c)
    then Put(s, c, s.calls[c].(fired := true)).(copied := s.copied - multiset{c}) else s
  }

  function ResumeStep(s: State, c: CallId): State {
    if In(s, c) && s.calls[c].phase.Parked? && s.calls[c].fired
    then Put(s, c, s.calls[c].(phase := if s.calls[c].poll then CleaningUp(s.calls[c].keys) else Done, armed := false))
    else s
  }

  function CleanUpStep(s: State, c: CallId): State {
    if !In(s, c) || !s.calls[c].phase.CleaningUp? then s
    else
      var todo := s.calls[c].phase.todo;
      if todo == [] then Put(s, c, s.calls[c].(phase := Done))
      else Put(s, c, s.calls[c].(phase := CleaningUp(todo[1..]))).(slots := s.slots - {todo[0]})
  }

  function Step(s: State, a: Action): State {
    match a
    case Begin(keys, poll, timed) => BeginStep(s, keys, poll, timed)
    case Register(c, ok) => RegisterStep(s, c, ok)
    case Park(c) => ParkStep(s, c)
    case Copy(k) => CopyStep(s, k)
    case Expire(c) => ExpireStep(s, c)
    case Fire(c) => FireStep(s, c)
    case Resume(c) => ResumeStep(s, c)
    case CleanUp(c) => CleanUpStep(s, c)
  }

  function Run(acts: seq<Action>): State {
    if acts == [] then State([], map[], multiset{}) else Step(Run(acts[..|acts| - 1]), acts[|acts| - 1])
  }

  lemma RunSnoc(acts: seq<Action>, a: Action)
    ensures Run(acts + [a]) == Step(Run(acts), a)
  {
    assert (acts + [a])[..|acts|] == acts;
  }

  // Where the callbacks of a call are.

  function Owned(s: State, c: CallId): set<Key> {
    set k | k in s.slots && s.slots[k] == c
  }

  function One(b: bool): nat {
    if b then 1 else 0
  }

  /** The callbacks that could still wake a call: in a slot, in the timer queue, or about to be called. */
  function Wakers(s: State, c: CallId): nat {
    |Owned(s, c)| + s.copied[c] + One(In(s, c) && s.calls[c].armed)
  }

  /** The registrations of call `c` accepted in the run. */
  function Accepted(acts: seq<Action>, c: CallId): nat {
    if acts == [] then 0
    else
      var before, a := acts[..|acts| - 1], acts[|acts| - 1];
      Accepted(before, c) + One(Accepts(Run(before), a) && a.c == c)
  }

  /** The registrations of call `c` that a clean-up has cancelled in the run. */
  function Struck(acts: seq<Action>, c: CallId): nat {
    if acts == [] then 0
    else
      var before, a := acts[..|acts| - 1], acts[|acts| - 1];
      Struck(before, c) + One(Strikes(Run(before), a, c))
  }

  function Timers(s: State, c: CallId): nat {
    One(In(s, c) && s.calls[c].timed && s.calls[c].phase.Parked?)
  }

  /** The timer of a call is armed only while it is parked, and it cleans up only when woken. */
  predicate CallOk(x: WaitCall) {
    && (x.armed ==> x.phase.Parked? && x.timed)
    && (x.phase.CleaningUp? ==> x.fired)
  }

  /** A callback belongs to a call that has begun. */
  ghost predicate Known(s: State) {
    && (forall k :: k in s.slots ==> In(s, s.slots[k]))
    && (forall c :: c in s.copied ==> In(s, c))
    && (forall c: nat :: In(s, c) ==> CallOk(s.calls[c]))
  }

  lemma StepKnown(s: State, a: Action)
    requires Known(s)
    ensures Known(Step(s, a)) && |s.calls| <= |Step(s, a).calls| && (|s.calls| < |Step(s, a).calls| ==> a.Begin?)
  {
    hide BeginStep, RegisterStep, ParkStep, CopyStep, ExpireStep, FireStep, ResumeStep, CleanUpStep, Known;
    match a
    case Begin(keys, poll, timed) => BeginKnown(s, keys, poll, timed);
    case Register(c, ok) => RegisterKnown(s, c, ok);
    case Park(c) => ParkKnown(s, c);
    case Copy(k) => CopyKnown(s, k);
    case Expire(c) => ExpireKnown(s, c);
    case Fire(c) => FireKnown(s, c);
    case Resume(c) => ResumeKnown(s, c);
    case CleanUp(c) => CleanUpKnown(s, c);
  }

  lemma BeginKnown(s: State, keys: seq<Key>, poll: bool, timed: bool)
    requires Known(s)
    ensures var t := BeginStep(s, keys, poll, timed); Known(t) && |s.calls| <= |t.calls|
  {
  }

  lemma RegisterKnown(s: State, c: CallId, ok: bool)
    requires Known(s)
    ensures var t := RegisterStep(s, c, ok); Known(t) && |s.calls| == |t.calls|
  {
  }

  lemma ParkKnown(s: State, c: CallId)
    requires Known(s)
    ensures var t := ParkStep(s, c); Known(t) && |s.calls| == |t.calls|
  {
  }

  lemma CopyKnown(s: State, k: Key)
    requires Known(s)
    ensures var t := CopyStep(s, k); Known(t) && |s.calls| == |t.calls|
  {
  }

  lemma ExpireKnown(s: State, c: CallId)
    requires Known(s)
    ensures var t := ExpireStep(s, c); Known(t) && |s.calls| == |t.calls|
  {
  }

  lemma FireKnown(s: State, c: CallId)
    requires Known(s)
    ensures var t := FireStep(s, c); Known(t) && |s.calls| == |t.calls|
  {
  }

  lemma ResumeKnown(s: State, c: CallId)
    requires Known(s)
    ensures var t := ResumeStep(s, c); Known(t) && |s.calls| == |t.calls|
  {
  }

  lemma CleanUpKnown(s: State, c: CallId)
    requires Known(s)
    ensures var t := CleanUpStep(s, c); Known(t) && |s.calls| == |t.calls|
  {
  }

  lemma {:induction false} Always(acts: seq<Action>)
    ensures Known(Run(acts))
  {
    if acts != [] {
      hide Known, Step;
      Always(acts[..|acts| - 1]);
      StepKnown(Run(acts[..|acts| - 1]), acts[|acts| - 1]);
    }
  }

  lemma OwnedPlus(s: State, k: Key, d: CallId, c: CallId)
    requires k !in s.slots
    ensures |Owned(s.(slots := s.slots[k := d]), c)| == |Owned(s, c)| + One(d == c)
  {
    var t := s.(slots := s.slots[k := d]);
    assert Owned(t, c) == if d == c then Owned(s, c) + {k} else Owned(s, c);
  }

  lemma OwnedMinus(s: State, k: Key, c: CallId)
    ensures |Owned(s.(slots := s.slots - {k}), c)| + One(k in s.slots && s.slots[k] == c) == |Owned(s, c)|
  {
    var t := s.(slots := s.slots - {k});
    assert Owned(t, c) == Owned(s, c) - {k};
  }

  lemma SameOwned(s: State, t: State, c: CallId)
    requires t.slots == s.slots
    ensures Owned(t, c) == Owned(s, c)
  {
  }

  /** A step from `s` to `t` adds `plus` registrations of call `c` and cancels `minus`, and loses no other
      callback of the call unless it wakes it. */
  predicate Balanced(s: State, t: State, c: CallId, plus: nat, minus: nat) {
    && |Owned(t, c)| + minus <= |Owned(s, c)| + plus
    && (In(s, c) && !s.calls[c].fired && In(t, c) && !t.calls[c].fired ==>
          Wakers(t, c) + minus + Timers(s, c) == Wakers(s, c) + plus + Timers(t, c))
  }

  lemma StepBalances(s: State, a: Action, c: CallId)
    requires Known(s)
    ensures Balanced(s, Step(s, a), c, One(Accepts(s, a) && a.c == c), One(Strikes(s, a, c)))
  {
    hide RegisterStep, CopyStep, CleanUpStep, Wakers, Timers, Strikes, Accepts;
    match a
    case Register(d, ok) => RegisterBalances(s, d, ok, c);
    case Copy(k) => CopyBalances(s, k, c);
    case CleanUp(d) => CleanUpBalances(s, d, c);
    case _ => OtherBalances(s, a, c);
  }

  lemma RegisterBalances(s: State, d: CallId, ok: bool, c: CallId)
    requires Known(s)
    ensures var a := Register(d, ok);
            !Strikes(s, a, c) && Balanced(s, RegisterStep(s, d, ok), c, One(Accepts(s, a) && d == c), 0)
  {
    hide Owned;
    var t := RegisterStep(s, d, ok);
    if Accepts(s, Register(d, ok)) {
      var k := s.calls[d].phase.todo[0];
      OwnedPlus(s, k, d, c);
      SameOwned(s.(slots := s.slots[k := d]), t, c);
    } else {
      SameOwned(s, t, c);
    }
  }

  lemma CopyBalances(s: State, k: Key, c: CallId)
    requires Known(s)
    ensures !Strikes(s, Copy(k), c) && !Accepts(s, Copy(k)) && Balanced(s, CopyStep(s, k), c, 0, 0)
  {
    hide Owned, Known;
    var t := CopyStep(s, k);
    OwnedMinus(s, k, c);
    SameOwned(s.(slots := s.slots - {k}), t, c);
    assert t.calls == s.calls;
    assert k !in s.slots ==> t == s;
    assert k in s.slots ==> t.copied[c] == s.copied[c] + One(s.slots[k] == c);
  }

  lemma CleanUpBalances(s: State, d: CallId, c: CallId)
    requires Known(s)
    ensures var a := CleanUp(d);
            !Accepts(s, a) && Balanced(s, CleanUpStep(s, d), c, 0, One(Strikes(s, a, c)))
  {
    hide Owned;
    var t := CleanUpStep(s, d);
    if In(s, d) && s.calls[d].phase.CleaningUp? && s.calls[d].phase.todo != [] {
      var k := s.calls[d].phase.todo[0];
      OwnedMinus(s, k, c);
      SameOwned(s.(slots := s.slots - {k}), t, c);
    } else {
      SameOwned(s, t, c);
    }
  }

  lemma OtherBalances(s: State, a: Action, c: CallId)
    requires Known(s) && !a.Register? && !a.Copy? && !a.CleanUp?
    ensures !Strikes(s, a, c) && !Accepts(s, a) && Balanced(s, Step(s, a), c, 0, 0)
  {
    hide Owned, BeginStep, ParkStep, ExpireStep, FireStep, ResumeStep, Balanced, Known;
    match a
    case Begin(keys, poll, timed) => BeginBalances(s, keys, poll, timed, c);
    case Park(d) => ParkBalances(s, d, c);
    case Expire(d) => ExpireBalances(s, d, c);
    case Fire(d) => FireBalances(s, d, c);
    case Resume(d) => ResumeBalances(s, d, c);
  }

  lemma BeginBalances(s: State, keys: seq<Key>, poll: bool, timed: bool, c: CallId)
    ensures Balanced(s, BeginStep(s, keys, poll, timed), c, 0, 0)
  {
    hide Owned;
    SameOwned(s, BeginStep(s, keys, poll, timed), c);
  }

  lemma ParkBalances(s: State, d: CallId, c: CallId)
    requires Known(s)
    ensures Balanced(s, ParkStep(s, d), c, 0, 0)
  {
    hide Owned;
    SameOwned(s, ParkStep(s, d), c);
  }

  lemma ExpireBalances(s: State, d: CallId, c: CallId)
    ensures Balanced(s, ExpireStep(s, d), c, 0, 0)
  {
    hide Owned;
    SameOwned(s, ExpireStep(s, d), c);
  }

  lemma FireBalances(s: State, d: CallId, c: CallId)
    ensures Balanced(s, FireStep(s, d), c, 0, 0)
  {
    hide Owned;
    SameOwned(s, FireStep(s, d), c);
  }

  lemma ResumeBalances(s: State, d: CallId, c: CallId)
    ensures Balanced(s, ResumeStep(s, d), c, 0, 0)
  {
    hide Owned;
    SameOwned(s, ResumeStep(s, d), c);
  }

  /** A call that has just begun, or has not begun, has no callbacks. */
  lemma NotYet(s: State, a: Action, c: CallId)
    requires Known(s) && !In(s, c)
    ensures Wakers(s, c) == 0 && Timers(s, c) == 0 && !Strikes(s, a, c) && !(Accepts(s, a) && a.c == c)
    ensures In(Step(s, a), c) ==> Wakers(Step(s, a), c) == 0 && Timers(Step(s, a), c) == 0
  {
    assert Owned(s, c) == {};
    if In(Step(s, a), c) {
      hide RegisterStep, ParkStep, CopyStep, ExpireStep, FireStep, ResumeStep, CleanUpStep, Owned;
      StepKnown(s, a);
      SameOwned(s, Step(s, a), c);
    }
  }

  /** What a step can do to a call: a wait call is woken by one of its callbacks, and parked until then. */
  predicate Advances(s: State, a: Action, x: WaitCall, c: CallId, y: WaitCall) {
    && y.keys == x.keys && y.poll == x.poll && y.timed == x.timed
    && (y.fired <==> x.fired || (a == Fire(c) && c in s.copied))
    && (x.phase.Parked? && !x.fired ==> y.phase.Parked?)
  }

  lemma CallChanges(s: State, a: Action, c: CallId)
    requires In(s, c)
    ensures In(Step(s, a), c) && Advances(s, a, s.calls[c], c, Step(s, a).calls[c])
  {
    hide BeginStep, RegisterStep, ParkStep, CopyStep, ExpireStep, FireStep, ResumeStep, CleanUpStep, Advances;
    match a
    case Begin(_, _, _) => BeginChanges(s, a, c);
    case Register(_, _) => RegisterChanges(s, a, c);
    case Copy(_) => CopyChanges(s, a, c);
    case CleanUp(_) => CleanUpChanges(s, a, c);
    case Fire(_) => FireChanges(s, a, c);
    case _ => OtherChanges(s, a, c);
  }

  lemma BeginChanges(s: State, a: Action, c: CallId)
    requires In(s, c) && a.Begin?
    ensures var t := BeginStep(s, a.keys, a.poll, a.timed); In(t, c) && Advances(s, a, s.calls[c], c, t.calls[c])
  {
  }

  lemma RegisterChanges(s: State, a: Action, c: CallId)
    requires In(s, c) && a.Register?
    ensures var t := RegisterStep(s, a.c, a.ok); In(t, c) && Advances(s, a, s.calls[c], c, t.calls[c])
  {
  }

  lemma CopyChanges(s: State, a: Action, c: CallId)
    requires In(s, c) && a.Copy?
    ensures var t := CopyStep(s, a.key); In(t, c) && Advances(s, a, s.calls[c], c, t.calls[c])
  {
  }

  lemma CleanUpChanges(s: State, a: Action, c: CallId)
    requires In(s, c) && a.CleanUp?
    ensures var t := CleanUpStep(s, a.c); In(t, c) && Advances(s, a, s.calls[c], c, t.calls[c])
  {
  }

  lemma FireChanges(s: State, a: Action, c: CallId)
    requires In(s, c) && a.Fire?
    ensures var t := FireStep(s, a.c); In(t, c) && Advances(s, a, s.calls[c], c, t.calls[c])
  {
  }

  lemma OtherChanges(s: State, a: Action, c: CallId)
    requires In(s, c) && (a.Park? || a.Expire? || a.Resume?)
    ensures In(Step(s, a), c) && Advances(s, a, s.calls[c], c, Step(s, a).calls[c])
  {
    hide RegisterStep, CopyStep, CleanUpStep, BeginStep, FireStep;
  }

  /** As long as a call has not been woken, every registration of it that was accepted is still there, in
      a slot or in the hands of a dispatch, or has been cancelled by a clean-up; and its timer likewise. */
  lemma {:induction false} Conservation(acts: seq<Action>, c: CallId)
    ensures var s := Run(acts);
            && |Owned(s, c)| + Struck(acts, c) <= Accepted(acts, c)
            && (In(s, c) && !s.calls[c].fired ==> Wakers(s, c) + Struck(acts, c) == Accepted(acts, c) + Timers(s, c))
            && (!In(s, c) ==> Accepted(acts, c) == 0)
  {
    if acts == [] {
      assert Owned(Run([]), c) == {};
    } else {
      var before, a := acts[..|acts| - 1], acts[|acts| - 1];
      hide Step, Known, Wakers, Timers, Strikes, Accepts, Owned;
      var s := Run(before);
      Conservation(before, c);
      Always(before);
      StepKnown(s, a);
      StepBalances(s, a, c);
      if !In(s, c) {
        NotYet(s, a, c);
      } else if s.calls[c].fired {
        CallChanges(s, a, c);
      }
    }
  }

  // Lost wake-ups.

  predicate Waiting(s: State, c: CallId) {
    In(s, c) && s.calls[c].phase.Parked? && !s.calls[c].fired
  }

  predicate Woken(s: State, c: CallId) {
    In(s, c) && s.calls[c].fired
  }

  /** A parked call without a callback stays as it is, whatever happens. */
  lemma ForgottenStays(s: State, a: Action, c: CallId)
    requires Known(s) && Waiting(s, c) && Wakers(s, c) == 0
    ensures var t := Step(s, a); Waiting(t, c) && Wakers(t, c) == 0
  {
    hide Known, Owned;
    StepBalances(s, a, c);
    WaitingStays(s, a, c);
    hide Step;
  }

  lemma WaitingStays(s: State, a: Action, c: CallId)
    requires Waiting(s, c) && c !in s.copied
    ensures var t := Step(s, a); Waiting(t, c) && t.calls[c].timed == s.calls[c].timed
  {
    hide BeginStep, RegisterStep, ParkStep, CopyStep, ExpireStep, FireStep, ResumeStep, CleanUpStep;
    CallChanges(s, a, c);
  }

  lemma {:induction false} ForgottenForEver(acts: seq<Action>, more: seq<Action>, c: CallId)
    requires Waiting(Run(acts), c) && Wakers(Run(acts), c) == 0
    ensures Waiting(Run(acts + more), c) && Wakers(Run(acts + more), c) == 0
    decreases |more|
  {
    hide *;
    if more == [] {
      assert acts + more == acts;
    } else {
      var fewer, a := more[..|more| - 1], more[|more| - 1];
      ForgottenForEver(acts, fewer, c);
      ForgottenSnoc(acts + fewer, a, c);
      assert acts + fewer + [a] == acts + more;
    }
  }

  lemma ForgottenSnoc(acts: seq<Action>, a: Action, c: CallId)
    requires Waiting(Run(acts), c) && Wakers(Run(acts), c) == 0
    ensures Waiting(Run(acts + [a]), c) && Wakers(Run(acts + [a]), c) == 0
  {
    hide *;
    RunSnoc(acts, a);
    Always(acts);
    ForgottenStays(Run(acts), a, c);
  }

  /** A callback that is still there can be called. */
  lemma CanBeWoken(acts: seq<Action>, c: CallId)
    requires Waiting(Run(acts), c) && Wakers(Run(acts), c) > 0
    ensures exists more: seq<Action> :: Woken(Run(acts + more), c)
  {
    var s := Run(acts);
    hide Run, Step;
    if c in s.copied {
      assert acts + [] == acts;
      CalledNow(acts, [], c);
    } else if s.calls[c].armed {
      RunSnoc(acts, Expire(c));
      ExpireTakes(s, c);
      CalledNow(acts, [Expire(c)], c);
    } else {
      assert Owned(s, c) != {};
      var k :| k in Owned(s, c);
      RunSnoc(acts, Copy(k));
      CopyTakes(s, k);
      CalledNow(acts, [Copy(k)], c);
    }
  }

  lemma ExpireTakes(s: State, c: CallId)
    requires In(s, c) && s.calls[c].armed
    ensures var t := Step(s, Expire(c)); In(t, c) && c in t.copied
  {
  }

  lemma CopyTakes(s: State, k: Key)
    requires k in s.slots && In(s, s.slots[k])
    ensures var t := Step(s, Copy(k)); In(t, s.slots[k]) && s.slots[k] in t.copied
  {
  }

  lemma CalledNow(acts: seq<Action>, more: seq<Action>, c: CallId)
    requires In(Run(acts + more), c) && c in Run(acts + more).copied
    ensures exists more: seq<Action> :: Woken(Run(acts + more), c)
  {
    hide Run;
    RunSnoc(acts + more, Fire(c));
    assert acts + more + [Fire(c)] == acts + (more + [Fire(c)]);
    assert Woken(Run(acts + (more + [Fire(c)])), c);
  }

  /** A parked call that has not been woken can still be woken if and only if it has a timer, or some
      registration of it was accepted that no other call's clean-up has cancelled. */
  lemma CanBeWokenIff(acts: seq<Action>, c: CallId)
    requires Waiting(Run(acts), c)
    ensures (exists more: seq<Action> :: Woken(Run(acts + more), c)) <==>
              Run(acts).calls[c].timed || Struck(acts, c) < Accepted(acts, c)
  {
    Conservation(acts, c);
    hide Run, Owned;
    if Wakers(Run(acts), c) == 0 {
      forall more: seq<Action>
        ensures !Woken(Run(acts + more), c)
      {
        ForgottenForEver(acts, more, c);
      }
    } else {
      CanBeWoken(acts, c);
    }
  }

  // `io_wait` looks at the result of its registration.

  /** An `io_wait` has one registration, and goes on only when it has been accepted. */
  predicate IoOk(x: WaitCall, accepted: nat) {
    !x.poll ==>
      && |x.keys| == 1
      && match x.phase
         case SettingUp(todo) => |todo| + accepted == 1
         case Parked => accepted == 1
         case CleaningUp(_) => false
         case Done => true
  }

  lemma StepIo(s: State, a: Action, c: CallId, accepted: nat)
    requires In(s, c) && IoOk(s.calls[c], accepted)
    ensures var t := Step(s, a);
            In(t, c) && IoOk(t.calls[c], accepted + One(Accepts(s, a) && a.c == c))
  {
    hide BeginStep, RegisterStep, ParkStep, CopyStep, ExpireStep, FireStep, ResumeStep, CleanUpStep, IoOk;
    match a
    case Register(_, _) => RegisterIo(s, a, c, accepted);
    case Park(_) => ParkIo(s, a, c, accepted);
    case Resume(_) => ResumeIo(s, a, c, accepted);
    case CleanUp(_) => CleanUpIo(s, a, c, accepted);
    case _ => SamePhase(s, a, c); SameIo(s.calls[c], Step(s, a).calls[c], accepted);
  }

  lemma RegisterIo(s: State, a: Action, c: CallId, accepted: nat)
    requires In(s, c) && IoOk(s.calls[c], accepted) && a.Register?
    ensures var t := RegisterStep(s, a.c, a.ok);
            In(t, c) && IoOk(t.calls[c], accepted + One(Accepts(s, a) && a.c == c))
  {
  }

  lemma ParkIo(s: State, a: Action, c: CallId, accepted: nat)
    requires In(s, c) && IoOk(s.calls[c], accepted) && a.Park?
    ensures var t := ParkStep(s, a.c); In(t, c) && IoOk(t.calls[c], accepted)
  {
  }

  lemma ResumeIo(s: State, a: Action, c: CallId, accepted: nat)
    requires In(s, c) && IoOk(s.calls[c], accepted) && a.Resume?
    ensures var t := ResumeStep(s, a.c); In(t, c) && IoOk(t.calls[c], accepted)
  {
  }

  lemma CleanUpIo(s: State, a: Action, c: CallId, accepted: nat)
    requires In(s, c) && IoOk(s.calls[c], accepted) && a.CleanUp?
    ensures var t := CleanUpStep(s, a.c); In(t, c) && IoOk(t.calls[c], accepted)
  {
  }

  lemma SamePhase(s: State, a: Action, c: CallId)
    requires In(s, c) && (a.Begin? || a.Copy? || a.Expire? || a.Fire?)
    ensures var t := Step(s, a);
            && In(t, c) && t.calls[c].phase == s.calls[c].phase
            && t.calls[c].poll == s.calls[c].poll && t.calls[c].keys == s.calls[c].keys
  {
    hide RegisterStep, ParkStep, ResumeStep, CleanUpStep;
  }

  lemma SameIo(x: WaitCall, y: WaitCall, accepted: nat)
    requires IoOk(x, accepted) && y.phase == x.phase && y.poll == x.poll && y.keys == x.keys
    ensures IoOk(y, accepted)
  {
  }

  lemma NewIo(s: State, a: Action, c: CallId)
    requires !In(s, c) && In(Step(s, a), c)
    ensures IoOk(Step(s, a).calls[c], 0)
  {
    hide RegisterStep, ParkStep, CopyStep, ExpireStep, FireStep, ResumeStep, CleanUpStep, IoOk;
    if a.Begin? {
      BegunIo(s, a, c);
    } else {
      NotMore(s, a);
    }
  }

  lemma BegunIo(s: State, a: Action, c: CallId)
    requires a.Begin? && !In(s, c) && In(BeginStep(s, a.keys, a.poll, a.timed), c)
    ensures IoOk(BeginStep(s, a.keys, a.poll, a.timed).calls[c], 0)
  {
  }

  lemma NotMore(s: State, a: Action)
    requires !a.Begin?
    ensures |Step(s, a).calls| == |s.calls|
  {
  }

  /** An `io_wait` that is parked has had its registration accepted, so that only a clean-up of `poll_wait` can
      keep it from being woken. */
  lemma {:induction false} IoWaitIsRegistered(acts: seq<Action>, c: CallId)
    requires In(Run(acts), c)
    ensures IoOk(Run(acts).calls[c], Accepted(acts, c))
  {
    if acts != [] {
      hide *;
      var before, a := acts[..|acts| - 1], acts[|acts| - 1];
      assert before + [a] == acts;
      RunSnoc(before, a);
      AcceptedSnoc(before, a, c);
      if In(Run(before), c) {
        IoWaitIsRegistered(before, c);
        StepIo(Run(before), a, c, Accepted(before, c));
      } else {
        Conservation(before, c);
        Always(before);
        NotYet(Run(before), a, c);
        NewIo(Run(before), a, c);
      }
    }
  }

  lemma AcceptedSnoc(acts: seq<Action>, a: Action, c: CallId)
    ensures Accepted(acts + [a], c) == Accepted(acts, c) + One(Accepts(Run(acts), a) && a.c == c)
  {
    hide Run, Accepts;
    assert (acts + [a])[..|acts|] == acts;
  }

  // Calls that share a direction of a descriptor, and calls that do not.

  predicate InProgress(x: WaitCall) {
    !x.phase.Done?
  }

  predicate Owns(s: State, c: CallId, k: Key) {
    k in s.slots && s.slots[k] == c
  }

  function Todo(x: WaitCall): seq<Key> {
    if x.phase.SettingUp? || x.phase.CleaningUp? then x.phase.todo else []
  }

  /** No call in progress uses one of the keys. */
  ghost predicate Unused(s: State, keys: seq<Key>) {
    forall c: nat, k :: k in keys ==> !Uses(s, c, k)
  }

  /** A step of a program that never has two calls in progress for a direction of a descriptor, where
      epoll takes every descriptor. */
  ghost predicate Tidy(s: State, a: Action) {
    && (a.Begin? ==> Unused(s, a.keys))
    && (a.Register? ==> a.ok)
  }

  ghost predicate TidyRun(acts: seq<Action>) {
    forall i: nat :: i < |acts| ==> Tidy(Run(acts[..i]), acts[i])
  }

  predicate Uses(s: State, c: CallId, k: Key) {
    In(s, c) && InProgress(s.calls[c]) && k in s.calls[c].keys
  }

  ghost predicate Apart(s: State) {
    forall c: nat, d: nat, k :: Uses(s, c, k) && Uses(s, d, k) ==> c == d
  }

  predicate ShapeOk(x: WaitCall) {
    && |Todo(x)| <= |x.keys| && (forall k :: k in Todo(x) ==> k in x.keys)
    && (!x.poll ==> |x.keys| == 1 && !x.timed && !x.phase.CleaningUp?)
    && (x.armed ==> x.timed) && (x.phase.SettingUp? ==> !x.armed) && (x.phase.CleaningUp? ==> x.fired)
  }

  /** Each direction that a call has dealt with holds its callback, until one of its callbacks is taken. */
  ghost predicate ServedOk(s: State, c: CallId)
    requires In(s, c)
  {
    var x := s.calls[c];
    && ShapeOk(x)
    && (InProgress(x) && !x.fired && c !in s.copied ==>
          && (forall k :: k in x.keys ==> k in Todo(x) || Owns(s, c, k))
          && (x.phase.Parked? && x.timed ==> x.armed))
    && (!x.poll && Todo(x) != [] ==> !x.fired && c !in s.copied && forall k :: k in x.keys ==> !Owns(s, c, k))
  }

  ghost predicate SlotOk(s: State, k: Key)
    requires k in s.slots
  {
    var c := s.slots[k];
    && In(s, c) && k in s.calls[c].keys && InProgress(s.calls[c])
    && (s.calls[c].phase.CleaningUp? ==> k in Todo(s.calls[c]))
    && (!s.calls[c].poll ==> !s.calls[c].fired && c !in s.copied)
  }

  ghost predicate TidyInv(s: State) {
    && Apart(s)
    && (forall c: nat :: In(s, c) ==> ServedOk(s, c))
    && (forall k :: k in s.slots ==> SlotOk(s, k))
  }

  /** Nothing about the call has changed. */
  lemma SameServed(s: State, t: State, c: CallId)
    requires In(s, c) && ServedOk(s, c) && In(t, c) && t.calls[c] == s.calls[c] && (c in t.copied <==> c in s.copied)
    requires forall k :: Owns(t, c, k) <==> Owns(s, c, k)
    ensures ServedOk(t, c)
  {
  }

  /** Step by step: what is left to show is what the step does to the call it is about. */
  lemma Others(s: State, t: State, c: CallId)
    requires TidyInv(s) && In(s, c) && |t.calls| == |s.calls|
    requires forall d: nat :: In(s, d) && d != c ==> t.calls[d] == s.calls[d] && (d in t.copied <==> d in s.copied)
    requires forall k :: k in t.slots ==> Owns(s, t.slots[k], k) || Owns(t, c, k)
    requires forall k :: k in s.slots ==> Owns(t, s.slots[k], k) || Owns(s, c, k)
    requires t.calls[c].keys == s.calls[c].keys && (InProgress(t.calls[c]) ==> InProgress(s.calls[c]))
    requires ServedOk(t, c)
    requires forall k :: Owns(t, c, k) ==> SlotOk(t, k)
    ensures TidyInv(t)
  {
    forall d: nat | In(t, d)
      ensures ServedOk(t, d)
    {
      if d != c {
        SameServed(s, t, d);
      }
    }
    forall k | k in t.slots
      ensures SlotOk(t, k)
    {
      if !Owns(t, c, k) {
        assert SlotOk(s, k);
      }
    }
    hide ServedOk, SlotOk;
    assert forall d: nat, k :: Uses(t, d, k) ==> Uses(s, d, k);
  }

  lemma TidyBegin(s: State, keys: seq<Key>, poll: bool, timed: bool)
    requires Known(s) && TidyInv(s) && Unused(s, keys)
    ensures TidyInv(BeginStep(s, keys, poll, timed))
  {
    var t := BeginStep(s, keys, poll, timed);
    forall k | k in t.slots
      ensures SlotOk(t, k)
    {
      assert SlotOk(s, k);
    }
    hide SlotOk;
    forall c: nat | In(t, c)
      ensures ServedOk(t, c)
    {
      if In(s, c) {
        hide ServedOk;
        SameServed(s, t, c);
      }
    }
    hide ServedOk;
    assert forall c: nat, k :: In(s, c) ==> Uses(t, c, k) == Uses(s, c, k);
    hide Owns;
  }

  lemma TidyRegister(s: State, c: CallId)
    requires TidyInv(s) && In(s, c) && s.calls[c].phase.SettingUp? && s.calls[c].phase.todo != []
    ensures TidyInv(RegisterStep(s, c, true))
  {
    var t := RegisterStep(s, c, true);
    var k := s.calls[c].phase.todo[0];
    assert ServedOk(s, c) && k in Todo(s.calls[c]);
    if k in s.slots {
      assert SlotOk(s, k) && Uses(s, s.slots[k], k) && Uses(s, c, k);
    }
    assert Owns(t, c, k);
    RegisterServes(s, c);
    forall j | Owns(t, c, j)
      ensures SlotOk(t, j)
    {
      if j != k || k in s.slots {
        assert SlotOk(s, j);
      }
    }
    hide ServedOk, SlotOk;
    Others(s, t, c);
  }

  lemma RegisterServes(s: State, c: CallId)
    requires In(s, c) && s.calls[c].phase.SettingUp? && s.calls[c].phase.todo != [] && ServedOk(s, c)
    requires var k := s.calls[c].phase.todo[0]; k in s.slots ==> s.slots[k] == c
    ensures ServedOk(RegisterStep(s, c, true), c)
  {
    var t := RegisterStep(s, c, true);
    var todo := s.calls[c].phase.todo;
    assert todo == [todo[0]] + todo[1..];
    assert todo[0] in Todo(s.calls[c]) && todo[0] in s.calls[c].keys;
    forall k | k in s.calls[c].keys && k !in Todo(t.calls[c])
      ensures Owns(t, c, k) || s.calls[c].fired || c in s.copied
    {
      assert k == todo[0] || k !in todo;
    }
  }

  lemma TidyPark(s: State, c: CallId)
    requires TidyInv(s) && In(s, c) && s.calls[c].phase == SettingUp([])
    ensures TidyInv(ParkStep(s, c))
  {
    var t := ParkStep(s, c);
    assert ServedOk(s, c);
    assert forall k :: Owns(t, c, k) <==> Owns(s, c, k);
    forall k | Owns(t, c, k)
      ensures SlotOk(t, k)
    {
      assert SlotOk(s, k);
    }
    Others(s, t, c);
  }

  lemma TidyCopy(s: State, k: Key)
    requires TidyInv(s) && k in s.slots
    ensures TidyInv(CopyStep(s, k))
  {
    var t, c := CopyStep(s, k), s.slots[k];
    assert SlotOk(s, k) && ServedOk(s, c) && Owns(s, c, k);
    forall j | Owns(t, c, j)
      ensures SlotOk(t, j)
    {
      assert SlotOk(s, j);
    }
    Others(s, t, c);
  }

  lemma TidyExpire(s: State, c: CallId)
    requires TidyInv(s) && In(s, c) && s.calls[c].armed
    ensures TidyInv(ExpireStep(s, c))
  {
    var t := ExpireStep(s, c);
    assert ServedOk(s, c);
    forall k | Owns(t, c, k)
      ensures SlotOk(t, k)
    {
      assert SlotOk(s, k);
    }
    Others(s, t, c);
  }

  lemma TidyFire(s: State, c: CallId)
    requires TidyInv(s) && In(s, c) && c in s.copied
    ensures TidyInv(FireStep(s, c))
  {
    var t := FireStep(s, c);
    assert ServedOk(s, c);
    forall k | Owns(t, c, k)
      ensures SlotOk(t, k)
    {
      assert SlotOk(s, k);
    }
    Others(s, t, c);
  }

  lemma TidyResume(s: State, c: CallId)
    requires TidyInv(s) && In(s, c) && s.calls[c].phase.Parked? && s.calls[c].fired
    ensures TidyInv(ResumeStep(s, c))
  {
    var t := ResumeStep(s, c);
    assert ServedOk(s, c);
    forall k | Owns(t, c, k)
      ensures SlotOk(t, k)
    {
      assert SlotOk(s, k);
    }
    Others(s, t, c);
  }

  lemma TidyCleanUp(s: State, c: CallId)
    requires TidyInv(s) && In(s, c) && s.calls[c].phase.CleaningUp?
    ensures TidyInv(CleanUpStep(s, c))
  {
    var t := CleanUpStep(s, c);
    assert ServedOk(s, c);
    CleanUpServes(s, c);
    if s.calls[c].phase.todo != [] {
      var k := s.calls[c].phase.todo[0];
      assert k in Todo(s.calls[c]) && Uses(s, c, k);
      if k in s.slots {
        assert SlotOk(s, k) && Uses(s, s.slots[k], k);
      }
    }
    forall k | Owns(t, c, k)
      ensures SlotOk(t, k)
    {
      assert SlotOk(s, k);
    }
    CleanUpOthers(s, c);
    hide ServedOk, SlotOk, CleanUpStep;
    Others(s, t, c);
  }

  lemma CleanUpOthers(s: State, c: CallId)
    requires In(s, c) && s.calls[c].phase.CleaningUp?
    requires var todo := s.calls[c].phase.todo; todo != [] && todo[0] in s.slots ==> s.slots[todo[0]] == c
    ensures var t := CleanUpStep(s, c);
            && |t.calls| == |s.calls| && t.copied == s.copied && t.calls[c].keys == s.calls[c].keys
            && (forall d: nat :: In(s, d) && d != c ==> t.calls[d] == s.calls[d])
            && (forall k :: k in t.slots ==> Owns(s, t.slots[k], k))
            && (forall k :: k in s.slots ==> Owns(t, s.slots[k], k) || Owns(s, c, k))
  {
  }

  lemma CleanUpServes(s: State, c: CallId)
    requires In(s, c) && s.calls[c].phase.CleaningUp? && ServedOk(s, c)
    ensures ServedOk(CleanUpStep(s, c), c)
  {
  }

  lemma TidyStep(s: State, a: Action)
    requires Known(s) && TidyInv(s) && Tidy(s, a)
    ensures TidyInv(Step(s, a))
  {
    hide TidyInv, Known, Unused;
    match a
    case Begin(keys, poll, timed) => TidyBegin(s, keys, poll, timed);
    case Register(c, _) =>
      if In(s, c) && s.calls[c].phase.SettingUp? && s.calls[c].phase.todo != [] { TidyRegister(s, c); }
    case Park(c) => if In(s, c) && s.calls[c].phase == SettingUp([]) { TidyPark(s, c); }
    case Copy(k) => if k in s.slots { TidyCopy(s, k); }
    case Expire(c) => if In(s, c) && s.calls[c].armed { TidyExpire(s, c); }
    case Fire(c) => if In(s, c) && c in s.copied { TidyFire(s, c); }
    case Resume(c) => if In(s, c) && s.calls[c].phase.Parked? && s.calls[c].fired { TidyResume(s, c); }
    case CleanUp(c) => if In(s, c) && s.calls[c].phase.CleaningUp? { TidyCleanUp(s, c); }
  }

  lemma {:induction false} TidyAlways(acts: seq<Action>)
    requires TidyRun(acts)
    ensures TidyInv(Run(acts))
  {
    if acts != [] {
      hide Step, TidyInv, Known, Tidy;
      var n := |acts| - 1;
      assert Tidy(Run(acts[..n]), acts[n]);
      assert forall i: nat :: i < n ==> acts[..n][..i] == acts[..i];
      TidyAlways(acts[..n]);
      Always(acts[..n]);
      TidyStep(Run(acts[..n]), acts[n]);
    }
  }

  /** When no two calls in progress use the same direction of a descriptor, no wake-up is ever lost. */
  lemma NothingIsLostWhenTidy(acts: seq<Action>, c: CallId)
    requires TidyRun(acts) && Waiting(Run(acts), c)
    requires Run(acts).calls[c].timed || Run(acts).calls[c].keys != []
    ensures exists more: seq<Action> :: Woken(Run(acts + more), c)
  {
    TidyAlways(acts);
    var s := Run(acts);
    assert ServedOk(s, c);
    hide Run;
    if c !in s.copied && !s.calls[c].timed {
      var k := s.calls[c].keys[0];
      assert Owns(s, c, k) && k in Owned(s, c);
    }
    CanBeWoken(acts, c);
  }

  // What a call that is alone sets up.

  /** `k` registrations of call `c`, one after the other. */
  function Registering(s: State, c: CallId, k: nat): State {
    if k == 0 then s else Step(Registering(s, c, k - 1), Register(c, true))
  }

  /** The call has registered the first `k` of its keys, and is setting up the rest. */
  ghost predicate HasRegistered(s: State, c: CallId, keys: seq<Key>, timed: bool, k: nat)
    requires k <= |keys|
  {
    && In(s, c) && s.calls[c] == WaitCall(keys, true, timed, SettingUp(keys[k..]), false, false)
    && (forall i :: 0 <= i < k ==> Owns(s, c, keys[i]))
    && (forall i :: k <= i < |keys| ==> keys[i] !in s.slots || Owns(s, c, keys[i]))
  }

  lemma RegistersNext(s: State, c: CallId, keys: seq<Key>, timed: bool, k: nat)
    requires k < |keys| && HasRegistered(s, c, keys, timed, k)
    ensures HasRegistered(Step(s, Register(c, true)), c, keys, timed, k + 1)
  {
    var t := Step(s, Register(c, true));
    assert keys[k..][0] == keys[k] && keys[k..][1..] == keys[k + 1..];
    assert Owns(t, c, keys[k]);
    forall i | 0 <= i < |keys|
      ensures Owns(s, c, keys[i]) ==> Owns(t, c, keys[i])
      ensures keys[i] !in s.slots ==> keys[i] !in t.slots || Owns(t, c, keys[i])
    {
    }
  }

  lemma {:induction false} RegistersAll(s: State, c: CallId, keys: seq<Key>, timed: bool, k: nat)
    requires k <= |keys| && HasRegistered(s, c, keys, timed, 0)
    ensures HasRegistered(Registering(s, c, k), c, keys, timed, k)
  {
    if k > 0 {
      hide Step, HasRegistered;
      RegistersAll(s, c, keys, timed, k - 1);
      RegistersNext(Registering(s, c, k - 1), c, keys, timed, k - 1);
    }
  }

  /** A call of `poll_wait` for directions that nobody uses, undisturbed until it is parked: each of its
      directions then holds its callback, and its timer is armed exactly if it has a timeout. */
  lemma SetsUpEverything(s: State, keys: seq<Key>, timed: bool)
    requires forall k :: k in keys ==> k !in s.slots
    ensures var c := |s.calls|;
            var t := Step(Registering(Step(s, Begin(keys, true, timed)), c, |keys|), Park(c));
            && Waiting(t, c) && t.calls[c].keys == keys && (t.calls[c].armed <==> timed)
            && forall i :: 0 <= i < |keys| ==> Owns(t, c, keys[i])
  {
    var c := |s.calls|;
    var begun := Step(s, Begin(keys, true, timed));
    assert keys[0..] == keys;
    assert HasRegistered(begun, c, keys, timed, 0);
    RegistersAll(begun, c, keys, timed, |keys|);
    assert keys[|keys|..] == [];
  }

  // Two coroutines on one descriptor, neither with a timer.

  /** Call 0 is woken by a dispatch. */
  function FirstIsWoken(key: Key): (acts: seq<Action>) {
    [Begin([key], true, false), Register(0, true), Park(0), Copy(key), Fire(0)]
  }

  /** Before call 0 goes on, call 1 registers for the same direction and parks. */
  function SecondParks(key: Key): (acts: seq<Action>) {
    [Begin([key], true, false), Register(1, true), Park(1), Resume(0)]
  }

  lemma RunFirst(key: Key)
    ensures Run(FirstIsWoken(key)) == State([WaitCall([key], true, false, Parked, false, true)], map[], multiset{})
  {
    var acts := FirstIsWoken(key);
    assert acts[..4] == acts[..3] + [acts[3]] && acts == acts[..4] + [acts[4]];
    FirstParks(key);
    hide Run, BeginStep, RegisterStep, ParkStep, ExpireStep, ResumeStep, CleanUpStep;
    RunSnoc(acts[..3], acts[3]);
    RunSnoc(acts[..4], acts[4]);
    assert Run(acts[..4]) == State([WaitCall([key], true, false, Parked, false, false)], map[], multiset{0});
  }

  lemma FirstParks(key: Key)
    ensures Run(FirstIsWoken(key)[..3]) ==
              State([WaitCall([key], true, false, Parked, false, false)], map[key := 0], multiset{})
  {
    var acts := FirstIsWoken(key);
    assert acts[..1] == [] + [acts[0]] && acts[..2] == acts[..1] + [acts[1]] && acts[..3] == acts[..2] + [acts[2]];
    assert Run([]) == State([], map[], multiset{});
    hide Run, CopyStep, FireStep, ExpireStep, ResumeStep, CleanUpStep;
    RunSnoc([], acts[0]);
    RunSnoc(acts[..1], acts[1]);
    RunSnoc(acts[..2], acts[2]);
    assert Run(acts[..1]).calls == [WaitCall([key], true, false, SettingUp([key]), false, false)];
    assert Run(acts[..2]).calls == [WaitCall([key], true, false, SettingUp([]), false, false)];
  }

  lemma RunSecond(key: Key)
    ensures Run(FirstIsWoken(key) + SecondParks(key)) ==
              State([WaitCall([key], true, false, CleaningUp([key]), false, true),
                     WaitCall([key], true, false, Parked, false, false)], map[key := 1], multiset{})
  {
    var first, acts := FirstIsWoken(key), SecondParks(key);
    RunFirst(key);
    assert acts[..2] == [acts[0]] + [acts[1]] && acts[..3] == acts[..2] + [acts[2]] && acts == acts[..3] + [acts[3]];
    hide FirstIsWoken;
    assert first + acts[..2] == first + [acts[0]] + [acts[1]] && first + acts[..3] == first + acts[..2] + [acts[2]];
    assert first + acts == first + acts[..3] + [acts[3]];
    RunSnoc(first, acts[0]);
    RunSnoc(first + [acts[0]], acts[1]);
    RunSnoc(first + acts[..2], acts[2]);
    RunSnoc(first + acts[..3], acts[3]);
    hide Run;
    assert Run(first + acts[..2]).slots == map[key := 1];
    assert Run(first + acts[..3]).calls[1] == WaitCall([key], true, false, Parked, false, false);
  }

  /** The clean-up of call 0 cancels the registration of call 1, and nothing wakes call 1 any more. */
  lemma CleanUpTakesAnothersRegistration(key: Key)
    ensures var acts := FirstIsWoken(key) + SecondParks(key);
            && Strikes(Run(acts), CleanUp(0), 1)
            && Waiting(Run(acts + [CleanUp(0)]), 1)
            && forall more: seq<Action> :: !Woken(Run(acts + [CleanUp(0)] + more), 1)
  {
    var acts := FirstIsWoken(key) + SecondParks(key);
    RunSecond(key);
    RunSnoc(acts, CleanUp(0));
    hide Run, FirstIsWoken, SecondParks;
    var s := Run(acts + [CleanUp(0)]);
    assert s.slots == map[] && Owned(s, 1) == {};
    forall more: seq<Action>
      ensures !Woken(Run(acts + [CleanUp(0)] + more), 1)
    {
      ForgottenForEver(acts + [CleanUp(0)], more, 1);
    }
  }
}
