/**
 The waits of `src/event_loop.cpp` seen as a partial map from a descriptor and a direction to one
 registration, with a list of all registrations ever accepted. One step per block of code that holds
 the mutex, and one per call of a callback that was copied out; a run is any list of steps, so any
 number of threads may add and cancel between a copy and the call. The kernel drops a descriptor
 that is closed from the interest set; `lost` remembers those that still had a registration.
*/
module EventMachine {
  datatype Event = Read | Write

  type Id = nat

  datatype Fate = Waiting | Taken | Invoked | Cancelled

  datatype Registration = Registration(fd: int, event: Event, fate: Fate)

  datatype State = State(slots: map<(int, Event), Id>, lost: set<int>, regs: seq<Registration>, log: seq<Id>)

  /** `callback` says whether the registration has one, and `ok` whether the kernel would take a
      descriptor that is not yet in the interest set. */
  datatype Operation =
    | Add(fd: int, event: Event, callback: bool, ok: bool)
    | Cancel(fd: int, event: Event)
    | Dispatch(fd: int, readable: bool, writable: bool)
    | Invoke(id: Id)
    | Close(fd: int)

  function Init(): State {
    State(map[], {}, [], [])
  }

  predicate Watched(s: State, fd: int) {
    (fd, Read) in s.slots || (fd, Write) in s.slots
  }

  predicate InInterest(s: State, fd: int) {
    Watched(s, fd) && fd !in s.lost
  }

  predicate Accepts(s: State, fd: int, event: Event, callback: bool, ok: bool) {
    fd >= 0 && callback && (fd, event) !in s.slots && (InInterest(s, fd) || ok)
  }

  /** Empty a slot and give its registration a fate. */
  function Release(s: State, fd: int, event: Event, fate: Fate): State {
    if (fd, event) !in s.slots then s
    else
      var id := s.slots[(fd, event)];
      var s' := s.(slots := s.slots - {(fd, event)},
                   regs := if id < |s.regs| then s.regs[id := s.regs[id].(fate := fate)] else s.regs);
      if Watched(s', fd) then s' else s'.(lost := s.lost - {fd})
  }

  function Step(s: State, op: Operation): State {
    match op
    case Add(fd, event, callback, ok) =>
      if Accepts(s, fd, event, callback, ok)
      then s.(slots := s.slots[(fd, event) := |s.regs|], lost := s.lost - {fd},
              regs := s.regs + [Registration(fd, event, Waiting)])
      else s
    case Cancel(fd, event) => Release(s, fd, event, Cancelled)
    case Dispatch(fd, readable, writable) =>
      var s' := if readable then Release(s, fd, Read, Taken) else s;
      if writable then Release(s', fd, Write, Taken) else s'
    case Invoke(id) =>
      if id < |s.regs| && s.regs[id].fate.Taken?
      then s.(regs := s.regs[id := s.regs[id].(fate := Invoked)], log := s.log + [id])
      else s
    case Close(fd) => if Watched(s, fd) then s.(lost := s.lost + {fd}) else s
  }

  function Run(ops: seq<Operation>): State {
    if ops == [] then Init() else Step(Run(ops[..|ops| - 1]), ops[|ops| - 1])
  }

  ghost predicate SlotsOk(s: State) {
    && (forall k :: k in s.slots ==>
          s.slots[k] < |s.regs| && s.regs[s.slots[k]] == Registration(k.0, k.1, Waiting))
    && (forall id: nat :: id < |s.regs| && s.regs[id].fate.Waiting? ==>
          var k := (s.regs[id].fd, s.regs[id].event); k in s.slots && s.slots[k] == id)
    && (forall fd :: fd in s.lost ==> Watched(s, fd))
  }

  ghost predicate LogOk(s: State) {
    && (forall i, j :: 0 <= i < j < |s.log| ==> s.log[i] != s.log[j])
    && (forall id: nat :: id in s.log <==> id < |s.regs| && s.regs[id].fate.Invoked?)
  }

  ghost predicate Inv(s: State) {
    SlotsOk(s) && LogOk(s)
  }

  lemma ReleaseKeeps(s: State, fd: int, event: Event, fate: Fate)
    requires Inv(s) && (fate.Taken? || fate.Cancelled?)
    ensures Inv(Release(s, fd, event, fate))
  {
  }

  lemma StepKeeps(s: State, op: Operation)
    requires Inv(s)
    ensures Inv(Step(s, op))
  {
    match op
    case Cancel(fd, event) => ReleaseKeeps(s, fd, event, Cancelled);
    case Dispatch(fd, readable, writable) => {
      ReleaseKeeps(s, fd, Read, Taken);
      ReleaseKeeps(if readable then Release(s, fd, Read, Taken) else s, fd, Write, Taken);
    }
    case _ =>
  }

  lemma {:induction false} Always(ops: seq<Operation>)
    ensures Inv(Run(ops))
  {
    if ops != [] {
      Always(ops[..|ops| - 1]);
      StepKeeps(Run(ops[..|ops| - 1]), ops[|ops| - 1]);
    }
  }

  /** Where a registration may go from one fate: on from waiting, and from taken to invoked. */
  predicate Later(now: Fate, later: Fate) {
    now == later || now.Waiting? || (now.Taken? && later.Invoked?)
  }

  lemma ReleaseAdvances(s: State, fd: int, event: Event, fate: Fate, id: Id)
    requires Inv(s) && id < |s.regs|
    ensures var s' := Release(s, fd, event, fate);
            && id < |s'.regs| && Later(s.regs[id].fate, s'.regs[id].fate)
            && s'.regs[id].fd == s.regs[id].fd && s'.regs[id].event == s.regs[id].event
  {
  }

  lemma StepAdvances(s: State, op: Operation, id: Id)
    requires Inv(s) && id < |s.regs|
    ensures var s' := Step(s, op); id < |s'.regs| && Later(s.regs[id].fate, s'.regs[id].fate)
    ensures var s' := Step(s, op); s'.regs[id].fd == s.regs[id].fd && s'.regs[id].event == s.regs[id].event
  {
    hide Inv, Release, LogOk, SlotsOk;
    match op
    case Cancel(fd, event) => ReleaseAdvances(s, fd, event, Cancelled, id);
    case Dispatch(fd, readable, writable) => {
      ReleaseKeeps(s, fd, Read, Taken);
      ReleaseAdvances(s, fd, Read, Taken, id);
      ReleaseAdvances(if readable then Release(s, fd, Read, Taken) else s, fd, Write, Taken, id);
    }
    case _ =>
  }

  lemma {:induction false} FatesOnlyAdvance(ops: seq<Operation>, more: seq<Operation>, id: Id)
    requires id < |Run(ops).regs|
    ensures id < |Run(ops + more).regs| && Later(Run(ops).regs[id].fate, Run(ops + more).regs[id].fate)
    decreases |more|
  {
    var all := ops + more;
    if more == [] {
      assert all == ops;
    } else {
      hide Step, Inv;
      var before := ops + more[..|more| - 1];
      assert all[..|all| - 1] == before;
      FatesOnlyAdvance(ops, more[..|more| - 1], id);
      Always(before);
      StepAdvances(Run(before), all[|all| - 1], id);
    }
  }

  // Main results.

  /** Each accepted registration has one fate: it waits in its own slot, or its callback has been
      copied out for one call, or has been called, once, or it has been cancelled and is not called. */
  lemma OneFate(ops: seq<Operation>, id: Id)
    requires id < |Run(ops).regs|
    ensures var s := Run(ops);
            var r := s.regs[id];
            && (r.fate.Waiting? <==> (r.fd, r.event) in s.slots && s.slots[(r.fd, r.event)] == id)
            && (r.fate.Invoked? <==> id in s.log)
            && (forall i, j :: 0 <= i < |s.log| && 0 <= j < |s.log| && s.log[i] == id == s.log[j] ==> i == j)
  {
    Always(ops);
  }

  /** After a cancellation that finds a registration its callback is never called. */
  lemma CancelledNeverRuns(ops: seq<Operation>, fd: int, event: Event, more: seq<Operation>)
    requires (fd, event) in Run(ops).slots
    ensures Run(ops).slots[(fd, event)] !in Run(ops + [Cancel(fd, event)] + more).log
  {
    var id := Run(ops).slots[(fd, event)];
    var cancelled := ops + [Cancel(fd, event)];
    Always(ops);
    assert cancelled[..|ops|] == ops;
    assert id < |Run(cancelled).regs| && Run(cancelled).regs[id].fate.Cancelled?;
    FatesOnlyAdvance(cancelled, more, id);
    Always(cancelled + more);
  }

  /** The step is a dispatch of a ready direction whose slot holds the registration. */
  predicate Meets(s: State, op: Operation, id: Id) {
    op.Dispatch? && ((op.readable && (op.fd, Read) in s.slots && s.slots[(op.fd, Read)] == id)
                     || (op.writable && (op.fd, Write) in s.slots && s.slots[(op.fd, Write)] == id))
  }

  predicate MeetsAt(ops: seq<Operation>, i: nat, id: Id)
    requires i < |ops|
  {
    Meets(Run(ops[..i]), ops[i], id)
  }

  ghost predicate WasMet(ops: seq<Operation>, id: Id) {
    exists i: nat :: i < |ops| && MeetsAt(ops, i, id)
  }

  lemma MetSnoc(ops: seq<Operation>, op: Operation, id: Id)
    ensures WasMet(ops + [op], id) == (WasMet(ops, id) || Meets(Run(ops), op, id))
  {
    hide Run, Meets;
    var all := ops + [op];
    assert all[..|ops|] == ops;
    assert MeetsAt(all, |ops|, id) == Meets(Run(ops), op, id);
    forall i: nat | i < |ops|
      ensures MeetsAt(all, i, id) == MeetsAt(ops, i, id)
    {
      assert all[..i] == ops[..i];
    }
  }

  /** The callback has been copied out, and perhaps called. */
  predicate IsOut(s: State, id: Id) {
    id < |s.regs| && (s.regs[id].fate.Taken? || s.regs[id].fate.Invoked?)
  }

  lemma ReleaseTakes(s: State, fd: int, event: Event, fate: Fate, id: Id)
    requires Inv(s) && (fate.Taken? || fate.Cancelled?)
    ensures var t := Release(s, fd, event, fate);
            && Inv(t)
            && (IsOut(t, id) <==> IsOut(s, id) || (fate.Taken? && (fd, event) in s.slots && s.slots[(fd, event)] == id))
            && forall e: Event :: e != event ==>
                 ((fd, e) in t.slots <==> (fd, e) in s.slots)
                 && ((fd, e) in s.slots ==> t.slots[(fd, e)] == s.slots[(fd, e)])
  {
    ReleaseKeeps(s, fd, event, fate);
    if (fd, event) in s.slots {
      assert s.regs[s.slots[(fd, event)]].fate.Waiting?;
    }
    hide Inv;
  }

  lemma StepTakes(s: State, op: Operation, id: Id)
    requires Inv(s)
    ensures IsOut(Step(s, op), id) <==> IsOut(s, id) || Meets(s, op, id)
  {
    hide Inv, Release, Accepts;
    match op
    case Cancel(fd, event) => ReleaseTakes(s, fd, event, Cancelled, id);
    case Dispatch(fd, readable, writable) => {
      ReleaseTakes(s, fd, Read, Taken, id);
      ReleaseTakes(if readable then Release(s, fd, Read, Taken) else s, fd, Write, Taken, id);
    }
    case _ =>
  }

  /** A callback has been copied out of its slot if and only if a dispatch of its ready direction has met it there. */
  lemma {:induction false} OutIffMet(ops: seq<Operation>, id: Id)
    ensures IsOut(Run(ops), id) <==> WasMet(ops, id)
  {
    if ops == [] {
      assert Run(ops) == Init();
    } else {
      hide *;
      var before, op := ops[..|ops| - 1], ops[|ops| - 1];
      assert before + [op] == ops;
      OutIffMet(before, id);
      Always(before);
      LastStep(before, op);
      StepTakes(Run(before), op, id);
      MetSnoc(before, op, id);
    }
  }

  lemma LastStep(ops: seq<Operation>, op: Operation)
    ensures Run(ops + [op]) == Step(Run(ops), op)
  {
    assert (ops + [op])[..|ops|] == ops;
  }

  /** Once a callback has been copied out, no cancellation stops it: a later one does not find the
      registration, and the only thing left to happen is the call. */
  lemma TakenWillRun(ops: seq<Operation>, more: seq<Operation>, id: Id)
    requires id < |Run(ops).regs| && Run(ops).regs[id].fate.Taken?
    ensures var s := Run(ops + more);
            && id < |s.regs| && (s.regs[id].fate.Taken? || s.regs[id].fate.Invoked?)
            && (forall k :: k in s.slots ==> s.slots[k] != id)
            && id in Run(ops + more + [Invoke(id)]).log
  {
    var all := ops + more;
    FatesOnlyAdvance(ops, more, id);
    Always(all);
    assert (all + [Invoke(id)])[..|all|] == all;
    Always(all + [Invoke(id)]);
  }
}

/** The event loop as written: a table of slot pairs, created by lookup and erased when both slots are
    empty, next to the interest set of the kernel. */
module EventLoopObject {
  import opened Wrappers
  import opened EventMachine

  datatype Slots = Slots(read: Option<Id>, write: Option<Id>)

  datatype EventResult = Accepted | Duplicate | InvalidFd

  datatype Errno = NoError | EEXIST | ENOENT | OtherError

  datatype Request = CtlAdd | CtlMod | CtlDel

  datatype Ready = Ready(fd: int, input: bool, output: bool, error: bool, hangup: bool)

  datatype Polled = Interrupted | Failed | Events(ready: seq<Ready>)

  function Slot(slots: Slots, event: Event): Option<Id> {
    if event.Read? then slots.read else slots.write
  }

  function With(slots: Slots, event: Event, id: Option<Id>): Slots {
    if event.Read? then slots.(read := id) else slots.(write := id)
  }

  function Lookup(slots: map<(int, Event), Id>, fd: int, event: Event): Option<Id> {
    if (fd, event) in slots then Some(slots[(fd, event)]) else None
  }

  predicate Readable(e: Ready) {
    e.input || e.error || e.hangup
  }

  predicate Writable(e: Ready) {
    e.output || e.error || e.hangup
  }

  /** What threads other than the worker of the loop do. */
  predicate Foreign(op: Operation, wakeFd: int) {
    match op
    case Add(fd, _, _, _) => fd != wakeFd
    case Cancel(_, _) => true
    case Close(fd) => fd != wakeFd
    case _ => false
  }

  function PairOf(waits: map<int, Slots>, fd: int): Slots {
    if fd in waits then waits[fd] else Slots(None, None)
  }

  /** The slot pairs hold exactly the registrations of `slots`. */
  ghost predicate TableOk(waits: map<int, Slots>, slots: map<(int, Event), Id>) {
    forall fd, event :: Lookup(slots, fd, event) == Slot(PairOf(waits, fd), event)
  }

  /** The interest set holds a descriptor exactly if one of its slots is filled and it has not been
      closed under the registration; the descriptor of the loop itself is nobody else's. */
  ghost predicate InterestOk(interest: set<int>, wakeFd: int, s: State) {
    && (forall fd :: fd != wakeFd ==> (fd in interest <==> InInterest(s, fd)))
    && !Watched(s, wakeFd)
  }

  lemma TablePut(waits: map<int, Slots>, slots: map<(int, Event), Id>, fd: int, event: Event, id: Id)
    requires TableOk(waits, slots)
    ensures TableOk(waits[fd := With(PairOf(waits, fd), event, Some(id))], slots[(fd, event) := id])
  {
    var waits', slots' := waits[fd := With(PairOf(waits, fd), event, Some(id))], slots[(fd, event) := id];
    forall g, v
      ensures Lookup(slots', g, v) == Slot(PairOf(waits', g), v)
    {
      assert Lookup(slots, g, v) == Slot(PairOf(waits, g), v);
    }
  }

  lemma TableTake(waits: map<int, Slots>, slots: map<(int, Event), Id>, fd: int, event: Event)
    requires TableOk(waits, slots)
    ensures TableOk(waits[fd := With(PairOf(waits, fd), event, None)], slots - {(fd, event)})
  {
    var waits', slots' := waits[fd := With(PairOf(waits, fd), event, None)], slots - {(fd, event)};
    forall g, v
      ensures Lookup(slots', g, v) == Slot(PairOf(waits', g), v)
    {
      assert Lookup(slots, g, v) == Slot(PairOf(waits, g), v);
    }
  }

  /** Pairs that are empty may be there or not. */
  lemma TableErase(waits: map<int, Slots>, slots: map<(int, Event), Id>, fd: int)
    requires TableOk(waits, slots) && PairOf(waits, fd) == Slots(None, None)
    ensures TableOk(waits - {fd}, slots) && TableOk(waits[fd := Slots(None, None)], slots)
    ensures !((fd, Read) in slots) && !((fd, Write) in slots)
  {
    assert Lookup(slots, fd, Read) == None && Lookup(slots, fd, Write) == None;
    forall g, v
      ensures Lookup(slots, g, v) == Slot(PairOf(waits - {fd}, g), v)
      ensures Lookup(slots, g, v) == Slot(PairOf(waits[fd := Slots(None, None)], g), v)
    {
      assert Lookup(slots, g, v) == Slot(PairOf(waits, g), v);
    }
  }

  lemma TableAt(waits: map<int, Slots>, slots: map<(int, Event), Id>, fd: int)
    requires TableOk(waits, slots)
    ensures Lookup(slots, fd, Read) == PairOf(waits, fd).read && Lookup(slots, fd, Write) == PairOf(waits, fd).write
  {
    assert Lookup(slots, fd, Read) == Slot(PairOf(waits, fd), Read);
    assert Lookup(slots, fd, Write) == Slot(PairOf(waits, fd), Write);
  }

  lemma PutInterest(interest: set<int>, wakeFd: int, s: State, fd: int, event: Event, callback: bool, ok: bool)
    requires InterestOk(interest, wakeFd, s) && fd != wakeFd && Accepts(s, fd, event, callback, ok)
    ensures InterestOk(interest + {fd}, wakeFd, Step(s, Operation.Add(fd, event, callback, ok)))
  {
    var s' := Step(s, Operation.Add(fd, event, callback, ok));
    forall g | g != wakeFd
      ensures g in interest + {fd} <==> InInterest(s', g)
    {
      assert g in interest <==> InInterest(s, g);
    }
  }

  lemma InterestAt(interest: set<int>, wakeFd: int, s: State, fd: int)
    requires InterestOk(interest, wakeFd, s) && fd != wakeFd
    ensures fd in interest <==> InInterest(s, fd)
  {
  }

  lemma NotWake(interest: set<int>, wakeFd: int, s: State, fd: int, event: Event)
    requires InterestOk(interest, wakeFd, s) && (fd, event) in s.slots
    ensures fd != wakeFd
  {
  }

  lemma ReleaseNothing(s: State, fd: int, event: Event, fate: Fate)
    requires (fd, event) !in s.slots
    ensures Release(s, fd, event, fate) == s
  {
  }

  lemma ReleaseKeepsCount(s: State, fd: int, event: Event, fate: Fate)
    ensures |Release(s, fd, event, fate).regs| == |s.regs|
    ensures Release(s, fd, event, fate).slots == s.slots - {(fd, event)}
  {
    assert (fd, event) !in s.slots ==> s.slots - {(fd, event)} == s.slots;
  }

  lemma IsWatched(s: State, fd: int)
    ensures Watched(s, fd) <==> Lookup(s.slots, fd, Read).Some? || Lookup(s.slots, fd, Write).Some?
  {
  }

  /** As InterestOk, except that `fd` may still be in the set though its slots are empty. */
  ghost predicate LooseOk(interest: set<int>, wakeFd: int, s: State, fd: int) {
    && (forall g :: g != wakeFd && g != fd ==> (g in interest <==> InInterest(s, g)))
    && !Watched(s, wakeFd)
    && (Watched(s, fd) && fd != wakeFd ==> (fd in interest <==> InInterest(s, fd)))
  }

  lemma LooseOfOk(interest: set<int>, wakeFd: int, s: State, fd: int)
    requires InterestOk(interest, wakeFd, s)
    ensures LooseOk(interest, wakeFd, s, fd)
  {
  }

  lemma AfterRelease(was: set<int>, interest: set<int>, wakeFd: int, s: State, fd: int)
    requires LooseOk(was, wakeFd, s, fd) && fd != wakeFd
    requires interest == if Watched(s, fd) then was else was - {fd}
    ensures InterestOk(interest, wakeFd, s)
  {
    forall g | g != wakeFd
      ensures g in interest <==> InInterest(s, g)
    {
      assert g != fd ==> (g in was <==> InInterest(s, g));
    }
  }

  lemma Refl(s: State)
    ensures OnlyDue(s, s, {})
  {
  }

  lemma ForeignTakesNothing(was: State, s: State, op: Operation, wakeFd: int)
    requires OnlyDue(was, s, {}) && Foreign(op, wakeFd)
    ensures OnlyDue(was, Step(s, op), {})
  {
  }

  lemma InvokeIs(interest: set<int>, wakeFd: int, s: State, id: Id)
    requires InterestOk(interest, wakeFd, s)
    ensures var s' := Step(s, Invoke(id));
            s'.slots == s.slots && |s'.regs| == |s.regs| && InterestOk(interest, wakeFd, s')
  {
    var s' := Step(s, Invoke(id));
    forall g
      ensures Watched(s', g) == Watched(s, g) && InInterest(s', g) == InInterest(s, g)
    {
    }
  }

  lemma RefusedIsIdle(s: State, fd: int, event: Event, callback: bool, ok: bool)
    requires !Accepts(s, fd, event, callback, ok)
    ensures Step(s, Operation.Add(fd, event, callback, ok)) == s
  {
  }

  lemma AcceptedIs(s: State, fd: int, event: Event, callback: bool, ok: bool)
    requires Accepts(s, fd, event, callback, ok)
    ensures var s' := Step(s, Operation.Add(fd, event, callback, ok));
            s'.slots == s.slots[(fd, event) := |s.regs|] && |s'.regs| == |s.regs| + 1
  {
  }

  lemma ReleaseLoose(interest: set<int>, wakeFd: int, s: State, fd: int, event: Event, fate: Fate)
    requires LooseOk(interest, wakeFd, s, fd)
    ensures LooseOk(interest, wakeFd, Release(s, fd, event, fate), fd)
  {
    var s' := Release(s, fd, event, fate);
    forall g | g != wakeFd && (g != fd || Watched(s', fd))
      ensures g in interest <==> InInterest(s', g)
    {
      assert g != fd || Watched(s, fd) ==> (g in interest <==> InInterest(s, g));
    }
  }

  /** Of the callbacks copied out since `was`, at most those of `due` have not been called yet. */
  ghost predicate OnlyDue(was: State, now: State, due: set<Id>) {
    |was.regs| <= |now.regs| &&
    forall id: nat :: id < |now.regs| && now.regs[id].fate.Taken? && id !in due ==>
      id < |was.regs| && was.regs[id].fate.Taken?
  }

  function Ids(id: Option<Id>): set<Id> {
    if id.Some? then {id.value} else {}
  }

  lemma DueStays(was: State, mid: State, now: State, due: set<Id>)
    requires OnlyDue(was, mid, due) && OnlyDue(mid, now, {})
    ensures OnlyDue(was, now, due)
  {
  }

  lemma DispatchMakesDue(was: State, s: State, e: Ready)
    requires OnlyDue(was, s, {})
    ensures var read := if Readable(e) then Lookup(s.slots, e.fd, Read) else None;
            var write := if Writable(e) then Lookup(s.slots, e.fd, Write) else None;
            OnlyDue(was, Step(s, BlockOf(e)), Ids(read) + Ids(write))
  {
  }

  lemma CallSettles(was: State, s: State, id: Id, due: set<Id>)
    requires OnlyDue(was, s, due + {id})
    ensures OnlyDue(was, Step(s, Invoke(id)), due)
  {
  }

  /** The locked blocks of `run_once` among the steps of a run. */
  function Dispatches(ops: seq<Operation>): seq<Operation> {
    if ops == [] then []
    else Dispatches(ops[..|ops| - 1]) + if ops[|ops| - 1].Dispatch? then [ops[|ops| - 1]] else []
  }

  lemma {:induction false} DispatchesAppend(a: seq<Operation>, b: seq<Operation>)
    ensures Dispatches(a + b) == Dispatches(a) + Dispatches(b)
    decreases |b|
  {
    if b == [] {
      assert a + b == a;
    } else {
      var n := |b| - 1;
      assert (a + b)[..|a + b| - 1] == a + b[..n];
      DispatchesAppend(a, b[..n]);
    }
  }

  lemma {:induction false} ForeignDispatchNothing(ops: seq<Operation>, wakeFd: int)
    requires forall i :: 0 <= i < |ops| ==> Foreign(ops[i], wakeFd)
    ensures Dispatches(ops) == []
  {
    if ops != [] {
      ForeignDispatchNothing(ops[..|ops| - 1], wakeFd);
      assert Foreign(ops[|ops| - 1], wakeFd);
    }
  }

  /** An error or a hang-up makes a descriptor ready in both directions. */
  function BlockOf(e: Ready): Operation {
    Operation.Dispatch(e.fd, e.input || e.error || e.hangup, e.output || e.error || e.hangup)
  }

  lemma DispatchEmpties(s: State, e: Ready)
    ensures Step(s, BlockOf(e)).slots == s.slots - (if e.input || e.error || e.hangup then {(e.fd, Read)} else {})
                                                 - (if e.output || e.error || e.hangup then {(e.fd, Write)} else {})
  {
    ReleaseKeepsCount(s, e.fd, Read, Taken);
    var mid := if Readable(e) then Release(s, e.fd, Read, Taken) else s;
    ReleaseKeepsCount(mid, e.fd, Write, Taken);
    hide Release;
    var none: set<(int, Event)> := {};
    assert s.slots - none == s.slots && mid.slots - none == mid.slots;
  }

  /** One block for every reported descriptor other than that of the loop, in the order of the report. */
  function Blocks(events: seq<Ready>, wakeFd: int): seq<Operation> {
    if events == [] then []
    else
      var e := events[|events| - 1];
      Blocks(events[..|events| - 1], wakeFd)
      + if e.fd == wakeFd then [] else [BlockOf(e)]
  }

  function Calls(id: Option<Id>): seq<Operation> {
    if id.Some? then [Invoke(id.value)] else []
  }

  lemma OneBlock(before: seq<Operation>, e: Ready, between: seq<Operation>, read: Option<Id>,
                 later: seq<Operation>, write: Option<Id>, wakeFd: int)
    requires forall i :: 0 <= i < |between| ==> Foreign(between[i], wakeFd)
    requires forall i :: 0 <= i < |later| ==> Foreign(later[i], wakeFd)
    ensures var op := BlockOf(e);
            Dispatches(before + [op] + between + Calls(read) + later + Calls(write)) == Dispatches(before) + [op]
  {
    var op := BlockOf(e);
    OneDispatch(before, op);
    hide Dispatches, Calls, Foreign;
    ForeignDispatchNothing(between, wakeFd);
    QuietTail(before + [op], between);
    CallsDispatchNothing(read);
    QuietTail(before + [op] + between, Calls(read));
    ForeignDispatchNothing(later, wakeFd);
    QuietTail(before + [op] + between + Calls(read), later);
    CallsDispatchNothing(write);
    QuietTail(before + [op] + between + Calls(read) + later, Calls(write));
  }

  lemma OneDispatch(before: seq<Operation>, op: Operation)
    requires op.Dispatch?
    ensures Dispatches(before + [op]) == Dispatches(before) + [op]
  {
    assert (before + [op])[..|before|] == before;
  }

  lemma QuietTail(a: seq<Operation>, b: seq<Operation>)
    requires Dispatches(b) == []
    ensures Dispatches(a + b) == Dispatches(a)
  {
    DispatchesAppend(a, b);
  }

  lemma CallsDispatchNothing(id: Option<Id>)
    ensures Dispatches(Calls(id)) == []
  {
    if id.Some? {
      assert [Invoke(id.value)][..0] == [];
    }
  }

  lemma NoBlocks(wakeFd: int)
    ensures Blocks([], wakeFd) == []
  {
  }

  lemma BlocksSnoc(events: seq<Ready>, i: nat, wakeFd: int)
    requires i < |events|
    ensures Blocks(events[..i + 1], wakeFd) ==
              Blocks(events[..i], wakeFd)
              + if events[i].fd == wakeFd then [] else [BlockOf(events[i])]
  {
    assert events[..i + 1][..i] == events[..i];
  }

  // What a turn calls.

  /** No callback has been copied out and not been called. */
  ghost predicate NothingDue(s: State) {
    forall id: nat :: id < |s.regs| ==> !s.regs[id].fate.Taken?
  }

  /** The block of report `e` is step `k`, and finds the registration in the slot of a ready direction. */
  predicate Met(acts: seq<Operation>, k: nat, e: Ready, wakeFd: int, id: Id) {
    && k < |acts| && e.fd != wakeFd
    && acts[k] == Operation.Dispatch(e.fd, e.input || e.error || e.hangup, e.output || e.error || e.hangup)
    && var slots := Run(acts[..k]).slots;
       || ((e.input || e.error || e.hangup) && Lookup(slots, e.fd, Read) == Some(id))
       || ((e.output || e.error || e.hangup) && Lookup(slots, e.fd, Write) == Some(id))
  }

  /** Since step `from`, some report has met the registration. */
  ghost predicate MetInTurn(from: nat, acts: seq<Operation>, events: seq<Ready>, wakeFd: int, id: Id) {
    exists k: nat, j: nat :: from <= k && j < |events| && Met(acts, k, events[j], wakeFd, id)
  }

  lemma {:induction false} InDispatches(ops: seq<Operation>, i: nat)
    requires i < |ops| && ops[i].Dispatch?
    ensures ops[i] in Dispatches(ops)
  {
    if i < |ops| - 1 {
      InDispatches(ops[..|ops| - 1], i);
    }
  }

  lemma {:induction false} InBlocks(events: seq<Ready>, wakeFd: int, op: Operation)
    requires op in Blocks(events, wakeFd)
    ensures exists j: nat :: j < |events| && events[j].fd != wakeFd && op == BlockOf(events[j])
  {
    if events != [] {
      var n := |events| - 1;
      if op in Blocks(events[..n], wakeFd) {
        InBlocks(events[..n], wakeFd, op);
        var j: nat :| j < n && events[..n][j].fd != wakeFd && op == BlockOf(events[..n][j]);
        assert events[j] == events[..n][j];
      } else {
        assert op == BlockOf(events[n]);
      }
    }
  }

  /** A turn that leaves nothing uncalled has called exactly what its reports met. */
  lemma TurnCalls(was: seq<Operation>, acts: seq<Operation>, events: seq<Ready>, wakeFd: int)
    requires was <= acts && OnlyDue(Run(was), Run(acts), {})
    requires Dispatches(acts) == Dispatches(was) + Blocks(events, wakeFd)
    ensures NothingDue(Run(was)) ==> NothingDue(Run(acts))
    ensures NothingDue(Run(was)) ==>
              forall id: Id :: id in Run(acts).log && id !in Run(was).log <==>
                MetInTurn(|was|, acts, events, wakeFd, id)
  {
    hide Run, Dispatches, Blocks, MetInTurn;
    if NothingDue(Run(was)) {
      forall id: Id
        ensures id in Run(acts).log && id !in Run(was).log <==> MetInTurn(|was|, acts, events, wakeFd, id)
      {
        if id in Run(acts).log && id !in Run(was).log {
          CalledWasMet(was, acts, events, wakeFd, id);
        }
        if MetInTurn(|was|, acts, events, wakeFd, id) {
          MetIsCalled(was, acts, events, wakeFd, id);
        }
      }
    }
  }

  lemma CalledWasMet(was: seq<Operation>, acts: seq<Operation>, events: seq<Ready>, wakeFd: int, id: Id)
    requires was <= acts && NothingDue(Run(was)) && id in Run(acts).log && id !in Run(was).log
    requires Dispatches(acts) == Dispatches(was) + Blocks(events, wakeFd)
    ensures MetInTurn(|was|, acts, events, wakeFd, id)
  {
    hide *;
    var k := NewlyMet(was, acts, id);
    MetIsDispatch(acts, k, id);
    var j := ReportOf(was, acts, events, wakeFd, k);
    MetIs(acts, k, events[j], wakeFd, id);
    InTurn(|was|, acts, events, wakeFd, id, k, j);
  }

  lemma InTurn(from: nat, acts: seq<Operation>, events: seq<Ready>, wakeFd: int, id: Id, k: nat, j: nat)
    requires from <= k && j < |events| && Met(acts, k, events[j], wakeFd, id)
    ensures MetInTurn(from, acts, events, wakeFd, id)
  {
    hide Met;
  }

  lemma NotOut(s: State, id: Id)
    requires Inv(s) && NothingDue(s) && id !in s.log
    ensures !IsOut(s, id)
  {
    hide SlotsOk;
  }

  lemma LogIsOut(s: State, id: Id)
    requires Inv(s) && id in s.log
    ensures IsOut(s, id)
  {
    hide SlotsOk;
  }

  lemma NewlyMet(was: seq<Operation>, acts: seq<Operation>, id: Id) returns (k: nat)
    requires was <= acts && NothingDue(Run(was)) && id in Run(acts).log && id !in Run(was).log
    ensures |was| <= k < |acts| && MeetsAt(acts, k, id)
  {
    hide Run, Inv, NothingDue, IsOut, Meets;
    Always(acts);
    Always(was);
    LogIsOut(Run(acts), id);
    NotOut(Run(was), id);
    OutIffMet(acts, id);
    OutIffMet(was, id);
    k :| k < |acts| && MeetsAt(acts, k, id);
    if k < |was| {
      MetBefore(was, acts, k, id);
    }
  }

  lemma MetBefore(was: seq<Operation>, acts: seq<Operation>, k: nat, id: Id)
    requires was <= acts && k < |was| && MeetsAt(acts, k, id)
    ensures WasMet(was, id)
  {
    hide Run, Meets;
    assert was[..k] == acts[..k];
    assert MeetsAt(was, k, id);
  }

  lemma ReportOf(was: seq<Operation>, acts: seq<Operation>, events: seq<Ready>, wakeFd: int, k: nat) returns (j: nat)
    requires was <= acts && Dispatches(acts) == Dispatches(was) + Blocks(events, wakeFd)
    requires |was| <= k < |acts| && acts[k].Dispatch?
    ensures j < |events| && events[j].fd != wakeFd && acts[k] == BlockOf(events[j])
  {
    hide Dispatches, Blocks, BlockOf;
    var more := acts[|was|..];
    assert was + more == acts;
    DispatchesAppend(was, more);
    assert more[k - |was|] == acts[k];
    var first := Dispatches(was);
    assert Dispatches(more) == (first + Dispatches(more))[|first|..] == Blocks(events, wakeFd);
    InDispatches(more, k - |was|);
    InBlocks(events, wakeFd, acts[k]);
    j :| j < |events| && events[j].fd != wakeFd && acts[k] == BlockOf(events[j]);
  }

  lemma MetIsDispatch(acts: seq<Operation>, k: nat, id: Id)
    requires k < |acts| && MeetsAt(acts, k, id)
    ensures acts[k].Dispatch?
  {
  }

  lemma MetIs(acts: seq<Operation>, k: nat, e: Ready, wakeFd: int, id: Id)
    requires k < |acts| && acts[k] == BlockOf(e) && e.fd != wakeFd
    ensures MeetsAt(acts, k, id) <==> Met(acts, k, e, wakeFd, id)
  {
    hide Run;
  }

  lemma OutIsCalled(was: State, s: State, id: Id)
    requires Inv(s) && NothingDue(was) && OnlyDue(was, s, {}) && IsOut(s, id)
    ensures id in s.log
  {
    hide SlotsOk;
  }

  lemma MetIsCalled(was: seq<Operation>, acts: seq<Operation>, events: seq<Ready>, wakeFd: int, id: Id)
    requires was <= acts && NothingDue(Run(was)) && OnlyDue(Run(was), Run(acts), {})
    requires MetInTurn(|was|, acts, events, wakeFd, id)
    ensures id in Run(acts).log && id !in Run(was).log
  {
    hide Run, Inv, NothingDue, OnlyDue, IsOut, Met, WasMet, MeetsAt, BlockOf;
    var k: nat, j: nat :| |was| <= k && j < |events| && Met(acts, k, events[j], wakeFd, id);
    MetIsBlock(acts, k, events[j], wakeFd, id);
    MetIs(acts, k, events[j], wakeFd, id);
    MetOnce(acts, k, id);
    OutIffMet(acts, id);
    Always(acts);
    OutIsCalled(Run(was), Run(acts), id);
    if id in Run(was).log {
      NotMetAgain(was, acts, k, id);
    }
  }

  lemma MetIsBlock(acts: seq<Operation>, k: nat, e: Ready, wakeFd: int, id: Id)
    requires Met(acts, k, e, wakeFd, id)
    ensures k < |acts| && acts[k] == BlockOf(e) && e.fd != wakeFd
  {
    hide Run;
  }

  lemma MetOnce(acts: seq<Operation>, k: nat, id: Id)
    requires k < |acts| && MeetsAt(acts, k, id)
    ensures WasMet(acts, id)
  {
    hide MeetsAt;
  }

  /** A callback that has been called is in no slot any more. */
  lemma NotMetAgain(was: seq<Operation>, acts: seq<Operation>, k: nat, id: Id)
    requires was <= acts && id in Run(was).log && |was| <= k < |acts|
    ensures !MeetsAt(acts, k, id)
  {
    Always(was);
    Always(acts[..k]);
    assert was + acts[|was|..k] == acts[..k];
    assert id < |Run(was).regs| && Run(was).regs[id].fate.Invoked?;
    FatesOnlyAdvance(was, acts[|was|..k], id);
    hide Run;
  }

  class EventLoop {
    const wakeFd: int
    var waits: map<int, Slots>
    var interest: set<int>
    var errno: Errno
    /** Numbers the accepted registrations, in place of the identity of their callbacks. */
    var count: nat
    ghost var trace: seq<Operation>
    ghost var view: State

    ghost predicate Valid()
      reads this
    {
      view == Run(trace) && count == |view.regs| && TableOk(waits, view.slots) && InterestOk(interest, wakeFd, view)
    }

    constructor (wakeFd: int)
      ensures Valid() && this.wakeFd == wakeFd && trace == []
    {
      this.wakeFd, waits, interest, errno, count := wakeFd, map[], {wakeFd}, NoError, 0;
      trace, view := [], Init();
    }

    /** The kernel: adding fails on a member, changing and removing fail on a non-member, and adding
        may fail for another reason. A call that succeeds leaves `errno` alone. */
    method EpollCtl(request: Request, fd: int, ok: bool) returns (failed: bool)
      modifies `interest, `errno
      ensures failed <==>
                (request.CtlAdd? && (fd in old(interest) || !ok)) || (!request.CtlAdd? && fd !in old(interest))
      ensures failed ==> interest == old(interest)
      ensures failed ==>
                errno == if !request.CtlAdd? then ENOENT else if fd in old(interest) then EEXIST else OtherError
      ensures !failed ==> errno == old(errno)
      ensures !failed ==> interest == match request
                case CtlAdd => old(interest) + {fd}
                case CtlMod => old(interest)
                case CtlDel => old(interest) - {fd}
    {
      match request
      case CtlAdd => {
        failed := fd in interest || !ok;
        if failed {
          errno := if fd in interest then EEXIST else OtherError;
        } else {
          interest := interest + {fd};
        }
      }
      case CtlMod => {
        failed := fd !in interest;
        if failed {
          errno := ENOENT;
        }
      }
      case CtlDel => {
        failed := fd !in interest;
        if failed {
          errno := ENOENT;
        } else {
          interest := interest - {fd};
        }
      }
    }

    ghost method Do(op: Operation)
      requires view == Run(trace)
      modifies `trace, `view
      ensures trace == old(trace) + [op] && view == Step(old(view), op) && view == Run(trace)
    {
      assert (trace + [op])[..|trace|] == trace;
      trace := trace + [op];
      view := Step(view, op);
    }

    /** A stale EEXIST in `errno` only leads to a request that changes nothing; a failed addition may
        leave an empty pair behind. */
    method Add(fd: int, event: Event, callback: bool, ok: bool) returns (result: EventResult)
      requires Valid() && fd != wakeFd
      modifies this
      ensures Valid() && trace == old(trace) + [Operation.Add(fd, event, callback, ok)]
      ensures view == Step(old(view), Operation.Add(fd, event, callback, ok))
      ensures result.Accepted? <==>
                fd >= 0 && callback && (fd, event) !in old(view.slots) && (fd in old(interest) || ok)
      ensures view.slots == if result.Accepted? then old(view.slots)[(fd, event) := old(count)] else old(view.slots)
      ensures count == old(count) + if result.Accepted? then 1 else 0
      ensures result.Duplicate? <==> fd >= 0 && callback && (fd, event) in old(view.slots)
      ensures interest == old(interest) + if result.Accepted? then {fd} else {}
    {
      hide TableOk, InterestOk, Run, Step, Watched, InInterest, Release;
      ghost var op := Operation.Add(fd, event, callback, ok);
      if fd < 0 || !callback {
        RefusedIsIdle(view, fd, event, callback, ok);
        Do(op);
        return InvalidFd;
      }
      TableAt(waits, view.slots, fd);
      if fd !in waits {
        TableErase(waits, view.slots, fd);
        waits := waits[fd := Slots(None, None)];
      }
      ghost var touched := waits;
      assert TableOk(touched, view.slots) && touched[fd] == PairOf(old(waits), fd);
      var slots := waits[fd];
      if Slot(slots, event).Some? {
        RefusedIsIdle(view, fd, event, callback, ok);
        Do(op);
        return Duplicate;
      }
      waits := waits[fd := With(slots, event, Some(count))];
      InterestAt(interest, wakeFd, view, fd);
      var failed := EpollCtl(CtlAdd, fd, ok);
      if failed && errno != EEXIST {
        RefusedIsIdle(view, fd, event, callback, ok);
        waits := waits[fd := With(waits[fd], event, None)];
        assert waits == touched;
        Do(op);
        return InvalidFd;
      }
      if errno == EEXIST {
        var _ := EpollCtl(CtlMod, fd, ok);
      }
      assert interest == old(interest) + {fd};
      PutInterest(old(interest), wakeFd, view, fd, event, callback, ok);
      TablePut(touched, view.slots, fd, event, count);
      AcceptedIs(view, fd, event, callback, ok);
      Do(op);
      count := count + 1;
      return Accepted;
    }

    method Cancel(fd: int, event: Event) returns (found: bool)
      requires Valid()
      modifies this
      ensures Valid() && trace == old(trace) + [Operation.Cancel(fd, event)]
      ensures view == Step(old(view), Operation.Cancel(fd, event))
      ensures found <==> (fd, event) in old(view.slots)
      ensures view.slots == old(view.slots) - {(fd, event)}
    {
      hide TableOk, InterestOk, Run, Release, Watched, InInterest;
      ghost var op := Operation.Cancel(fd, event);
      ghost var s := Release(view, fd, event, Cancelled);
      TableAt(waits, view.slots, fd);
      if fd !in waits || Slot(waits[fd], event).None? {
        ReleaseNothing(view, fd, event, Cancelled);
        Do(op);
        return false;
      }
      NotWake(interest, wakeFd, view, fd, event);
      LooseOfOk(interest, wakeFd, view, fd);
      ReleaseLoose(interest, wakeFd, view, fd, event, Cancelled);
      TableTake(waits, view.slots, fd, event);
      ReleaseKeepsCount(view, fd, event, Cancelled);
      waits := waits[fd := With(waits[fd], event, None)];
      TableAt(waits, s.slots, fd);
      IsWatched(s, fd);
      if waits[fd].read.None? && waits[fd].write.None? {
        var _ := EpollCtl(CtlDel, fd, true);
        TableErase(waits, s.slots, fd);
        waits := waits - {fd};
      }
      AfterRelease(old(interest), interest, wakeFd, s, fd);
      Do(op);
      return true;
    }

    /** The block of `run_once` that holds the mutex. */
    method Dispatch(e: Ready) returns (taken: Slots)
      requires Valid() && e.fd != wakeFd
      modifies this
      ensures Valid() && trace == old(trace) + [BlockOf(e)] && view == Step(old(view), BlockOf(e))
      ensures taken.read == if e.input || e.error || e.hangup then Lookup(old(view.slots), e.fd, Read) else None
      ensures taken.write == if e.output || e.error || e.hangup then Lookup(old(view.slots), e.fd, Write) else None
      ensures view.slots == old(view.slots) - (if e.input || e.error || e.hangup then {(e.fd, Read)} else {})
                                            - (if e.output || e.error || e.hangup then {(e.fd, Write)} else {})
    {
      hide TableOk, InterestOk, Run, Release, Watched, InInterest;
      ghost var op := BlockOf(e);
      DispatchEmpties(view, e);
      ghost var s := view;
      TableAt(waits, view.slots, e.fd);
      taken := Slots(None, None);
      if e.fd !in waits {
        ReleaseNothing(view, e.fd, Read, Taken);
        ReleaseNothing(view, e.fd, Write, Taken);
        Do(op);
        return;
      }
      if Readable(e) {
        taken := taken.(read := waits[e.fd].read);
      }
      if Writable(e) {
        taken := taken.(write := waits[e.fd].write);
      }
      LooseOfOk(interest, wakeFd, s, e.fd);
      if Readable(e) {
        TableTake(waits, s.slots, e.fd, Read);
        ReleaseLoose(interest, wakeFd, s, e.fd, Read, Taken);
        ReleaseKeepsCount(s, e.fd, Read, Taken);
        s := Release(s, e.fd, Read, Taken);
        waits := waits[e.fd := waits[e.fd].(read := None)];
      }
      if Writable(e) {
        TableTake(waits, s.slots, e.fd, Write);
        ReleaseLoose(interest, wakeFd, s, e.fd, Write, Taken);
        ReleaseKeepsCount(s, e.fd, Write, Taken);
        s := Release(s, e.fd, Write, Taken);
        waits := waits[e.fd := waits[e.fd].(write := None)];
      }
      TableAt(waits, s.slots, e.fd);
      IsWatched(s, e.fd);
      if waits[e.fd].read.None? && waits[e.fd].write.None? {
        TableErase(waits, s.slots, e.fd);
        waits := waits - {e.fd};
        var _ := EpollCtl(CtlDel, e.fd, true);
      } else {
        var _ := EpollCtl(CtlMod, e.fd, true);
      }
      AfterRelease(old(interest), interest, wakeFd, s, e.fd);
      Do(op);
    }

    /** The kernel drops a closed descriptor from the interest set; the loop is not told. */
    method CloseDescriptor(fd: int)
      requires Valid() && fd != wakeFd
      modifies this
      ensures Valid() && trace == old(trace) + [Close(fd)]
      ensures view == Step(old(view), Close(fd))
    {
      interest := interest - {fd};
      Do(Close(fd));
    }

    method Call(id: Id)
      requires Valid()
      modifies `trace, `view
      ensures Valid() && trace == old(trace) + [Invoke(id)]
      ensures view == Step(old(view), Invoke(id))
    {
      hide TableOk, InterestOk, Run, Step;
      InvokeIs(interest, wakeFd, view, id);
      Do(Invoke(id));
    }

    /** Other threads, or the callbacks themselves, use the loop. */
    method Others(ops: seq<Operation>)
      requires Valid() && forall i :: 0 <= i < |ops| ==> Foreign(ops[i], wakeFd)
      modifies this
      ensures Valid() && OnlyDue(old(view), view, {}) && trace == old(trace) + ops
    {
      hide TableOk, InterestOk, Run, Step, OnlyDue;
      Refl(view);
      for i := 0 to |ops|
        invariant Valid() && OnlyDue(old(view), view, {}) && trace == old(trace) + ops[..i]
      {
        ghost var before := view;
        match ops[i] {
        case Add(fd, event, callback, ok) => {
          var _ := Add(fd, event, callback, ok);
        }
        case Cancel(fd, event) => {
          var _ := Cancel(fd, event);
        }
        case Close(fd) => CloseDescriptor(fd);
        case _ =>
        }
        ForeignTakesNothing(old(view), before, ops[i], wakeFd);
      }
    }

    /** The loop of `run_once` over what epoll reported, with the calls of the callbacks, while others
        use the event loop between any two accesses. Every report is dispatched, in order, and every
        callback that was copied out is called. */
    method RunOnce(polled: Polled, others: nat -> seq<Operation>) returns (result: int)
      requires Valid()
      requires forall k, i: nat :: i < |others(k)| ==> Foreign(others(k)[i], wakeFd)
      modifies this
      ensures Valid() && OnlyDue(old(view), view, {}) && old(trace) <= trace
      ensures Dispatches(trace) == Dispatches(old(trace)) + if polled.Events? then Blocks(polled.ready, wakeFd) else []
      ensures NothingDue(old(view)) ==> NothingDue(view)
      ensures NothingDue(old(view)) ==>
                forall id: Id :: id in view.log && id !in old(view).log <==>
                  MetInTurn(|old(trace)|, trace, if polled.Events? then polled.ready else [], wakeFd, id)
      ensures result == match polled case Interrupted => 0 case Failed => -1 case Events(ready) => |ready|
    {
      hide TableOk, InterestOk, Run, Step, OnlyDue, Foreign, Readable, Writable, Dispatches, Blocks, BlockOf, MetInTurn;
      Refl(view);
      NoBlocks(wakeFd);
      if !polled.Events? {
        TurnCalls(old(trace), trace, [], wakeFd);
        return if polled.Interrupted? then 0 else -1;
      }
      var events := polled.ready;
      assert events[..0] == [];
      for index := 0 to |events|
        invariant Valid() && OnlyDue(old(view), view, {}) && old(trace) <= trace
        invariant Dispatches(trace) == Dispatches(old(trace)) + Blocks(events[..index], wakeFd)
      {
        BlocksSnoc(events, index, wakeFd);
        if events[index].fd == wakeFd {
          continue;
        }
        ghost var before := trace;
        var taken := DispatchAndCall(old(view), events[index], others(2 * index), others(2 * index + 1));
        OneBlock(before, events[index], others(2 * index), taken.read, others(2 * index + 1), taken.write, wakeFd);
      }
      assert events[..|events|] == events;
      TurnCalls(old(trace), trace, events, wakeFd);
      return |events|;
    }

    /** One reported event: the locked block, then the calls of what it has copied out. */
    method DispatchAndCall(ghost was: State, e: Ready, between: seq<Operation>, later: seq<Operation>)
      returns (taken: Slots)
      requires Valid() && OnlyDue(was, view, {}) && e.fd != wakeFd
      requires forall i: nat :: i < |between| ==> Foreign(between[i], wakeFd)
      requires forall i: nat :: i < |later| ==> Foreign(later[i], wakeFd)
      modifies this
      ensures Valid() && OnlyDue(was, view, {})
      ensures taken.read == if e.input || e.error || e.hangup then Lookup(old(view.slots), e.fd, Read) else None
      ensures taken.write == if e.output || e.error || e.hangup then Lookup(old(view.slots), e.fd, Write) else None
      ensures trace == old(trace) + [BlockOf(e)] + between + Calls(taken.read) + later + Calls(taken.write)
    {
      hide TableOk, InterestOk, Run, Step, Foreign, OnlyDue, Lookup, BlockOf;
      DispatchMakesDue(was, view, e);
      taken := Dispatch(e);
      assert OnlyDue(was, view, Ids(taken.read) + Ids(taken.write));
      ghost var mid := view;
      Others(between);
      DueStays(was, mid, view, Ids(taken.read) + Ids(taken.write));
      if Readable(e) && taken.read.Some? {
        assert Ids(taken.read) + Ids(taken.write) == Ids(taken.write) + {taken.read.value};
        CallSettles(was, view, taken.read.value, Ids(taken.write));
        Call(taken.read.value);
      }
      assert Ids(None) + Ids(taken.write) == Ids(taken.write);
      mid := view;
      Others(later);
      DueStays(was, mid, view, Ids(taken.write));
      if Writable(e) && taken.write.Some? {
        assert Ids(taken.write) == {} + {taken.write.value};
        CallSettles(was, view, taken.write.value, {});
        Call(taken.write.value);
      }
    }
  }
}

/** The timers in one turn of the event loop, and how long it may wait in epoll. */
module EventLoopClock {
  import opened Wrappers
  import opened TimerMachine
  import opened TimerQueueObject
  import Events = EventMachine
  import Loops = EventLoopObject

  const INT32_MAX := 0x7fff_ffff

  /** The conversion of a 64-bit count to `int`. */
  function Narrow(n: int): int {
    (n + 0x8000_0000) % 0x1_0000_0000 - 0x8000_0000
  }

  /** The wait meant for epoll never goes past the deadline of a pending timer, is never longer than
      asked, and is shorter only for the sake of the first deadline, missed by less than a millisecond;
      a negative one, which epoll takes as unbounded, is what was asked. Epoll is given the conversion of
      that wait to `int`, which is the same exactly if it fits, and never longer, but perhaps unbounded. */
  method PollTimeout(timers: TimerQueue, now: int, given: int) returns (wait: int, ghost meant: int)
    requires timers.Valid()
    modifies timers
    ensures timers.Valid() && timers.timers == old(timers.timers)
    ensures meant <= given && (meant < 0 <==> given < 0) && (given < 0 ==> meant == given)
    ensures wait == Narrow(meant) && (wait == meant <==> -0x8000_0000 <= meant <= INT32_MAX)
    ensures given >= 0 ==> wait <= meant && (wait < 0 <==> meant % 0x1_0000_0000 > INT32_MAX)
    ensures given >= 0 ==> forall h :: IsPending(timers.timers, h) ==>
              now + meant * NANOSECONDS_PER_MILLISECOND <= Max(now, DeadlineOf(timers.timers, h))
    ensures meant < given ==>
              exists h :: IsFirst(timers.timers, h) && IsWait(now, DeadlineOf(timers.timers, h), meant)
  {
    hide IsFirst, IsPending, DeadlineOf, Narrow;
    var next := timers.NextTimeout(now);
    var timeout := given;
    if next.Some? {
      NeverPast(timers.timers, now, next.value);
      timeout := if next.value < given then next.value else given;
    }
    NarrowIs(timeout);
    return Narrow(timeout), timeout;
  }

  lemma NarrowIs(n: int)
    ensures Narrow(n) == n <==> -0x8000_0000 <= n <= INT32_MAX
    ensures n >= 0 ==> Narrow(n) <= n && (Narrow(n) < 0 <==> n % 0x1_0000_0000 > INT32_MAX)
  {
  }

  /** A wait for the first deadline goes past no deadline. */
  lemma NeverPast(timers: seq<Timer>, now: int, wait: int)
    requires exists h :: IsFirst(timers, h) && IsWait(now, DeadlineOf(timers, h), wait)
    ensures wait >= 0
    ensures forall g :: IsPending(timers, g) ==>
              now + wait * NANOSECONDS_PER_MILLISECOND <= Max(now, DeadlineOf(timers, g))
  {
    var h :| IsFirst(timers, h) && IsWait(now, DeadlineOf(timers, h), wait);
    hide IsPending;
  }

  /** Adding and cancelling timers, as callbacks and other threads do. */
  ghost predicate NoExpiry(ops: seq<Operation>) {
    forall i: nat :: i < |ops| ==> !ops[i].Expire?
  }

  function Used(timers: seq<Timer>, ops: seq<Operation>): seq<Timer> {
    if ops == [] then timers else Apply(Used(timers, ops[..|ops| - 1]), ops[|ops| - 1])
  }

  method Use(timers: TimerQueue, ops: seq<Operation>)
    requires timers.Valid() && NoExpiry(ops)
    modifies timers
    ensures timers.Valid() && timers.timers == Used(old(timers.timers), ops)
  {
    for i := 0 to |ops|
      invariant timers.Valid() && timers.timers == Used(old(timers.timers), ops[..i])
    {
      assert ops[..i + 1][..i] == ops[..i];
      match ops[i] {
      case Add(now, delay, callback) => {
        var _ := timers.Add(now, delay, callback);
      }
      case Cancel(handle) => {
        var _ := timers.Cancel(handle);
      }
      case Expire(_, _) => assert false;
      }
    }
    assert ops[..|ops|] == ops;
  }

  lemma {:induction false} FiredStaysFired(timers: seq<Timer>, ops: seq<Operation>, h: Handle)
    requires 1 <= h <= |timers| && timers[h - 1].fate.Fired? && NoExpiry(ops)
    ensures h <= |Used(timers, ops)| && Used(timers, ops)[h - 1] == timers[h - 1]
  {
    if ops != [] {
      FiredStaysFired(timers, ops[..|ops| - 1], h);
    }
  }

  /** One call of `run_once`: the timers that are due, the wait, what epoll reports, and the timers that
      are due by then. `times` are the three readings of the clock; `users` is what callbacks and other
      threads do to the timers before the wait and after it. */
  method RunOnce(loop: Loops.EventLoop, timers: TimerQueue, times: nat -> int, given: int, polled: Loops.Polled,
                 others: nat -> seq<Events.Operation>, users: nat -> seq<Operation>)
    returns (result: int, wait: int, called: seq<Callback>, ghost first: seq<Handle>, ghost last: seq<Handle>)
    requires loop.Valid() && timers.Valid()
    requires forall k, i: nat :: i < |others(k)| ==> Loops.Foreign(others(k)[i], loop.wakeFd)
    requires forall k: nat :: NoExpiry(users(k))
    modifies loop, timers
    ensures loop.Valid() && timers.Valid()
    ensures IsExpiry(old(timers.timers), times(0), first)
    ensures var before := Used(AfterExpiry(old(timers.timers), times(0)), users(0));
            var after := Used(before, users(1));
            && called == Callbacks(old(timers.timers), first) + Callbacks(after, last)
            && if polled.Interrupted? then last == [] && timers.timers == after
               else IsExpiry(after, times(2), last) && timers.timers == AfterExpiry(after, times(2))
    ensures var before := Used(AfterExpiry(old(timers.timers), times(0)), users(0));
            0 <= given <= INT32_MAX ==>
              && 0 <= wait <= given
              && forall h :: IsPending(before, h) ==>
                   times(1) + wait * NANOSECONDS_PER_MILLISECOND <= Max(times(1), DeadlineOf(before, h))
    ensures var before := Used(AfterExpiry(old(timers.timers), times(0)), users(0));
            && (0 <= given <= INT32_MAX && wait < given ==>
                  exists h :: IsFirst(before, h) && IsWait(times(1), DeadlineOf(before, h), wait))
            && (-0x8000_0000 <= given < 0 ==> wait == given)
    ensures forall h :: h in first ==> h !in last
    ensures Loops.Dispatches(loop.trace) ==
              Loops.Dispatches(old(loop.trace)) + if polled.Events? then Loops.Blocks(polled.ready, loop.wakeFd) else []
    ensures Loops.NothingDue(old(loop.view)) ==>
              && Loops.NothingDue(loop.view)
              && forall id: Events.Id :: id in loop.view.log && id !in old(loop.view).log <==>
                   Loops.MetInTurn(|old(loop.trace)|, loop.trace, if polled.Events? then polled.ready else [],
                                   loop.wakeFd, id)
    ensures result == match polled case Interrupted => 0 case Failed => -1 case Events(ready) => |ready|
  {
    hide AfterExpiry, IsExpiry, Callbacks, Used, NoExpiry, IsFirst, IsWait, IsPending, DeadlineOf, Max;
    hide Loops.MetInTurn, Loops.NothingDue, Loops.Dispatches, Loops.Blocks, Loops.Foreign;
    var _, all, fired := timers.Expire(times(0), []);
    first := fired;
    Use(timers, users(0));
    var timeout, _ := PollTimeout(timers, times(1), given);
    wait := timeout;
    result := loop.RunOnce(polled, others);
    Use(timers, users(1));
    called, last := all, [];
    if !polled.Interrupted? {
      var _, both, expired := timers.Expire(times(2), all);
      called, last := both, expired;
      NeverTwice(old(timers.timers), times(0), first, users(0), users(1), times(2), last);
    }
  }

  /** A timer that has expired in the turn does not expire in it again. */
  lemma NeverTwice(timers: seq<Timer>, now: int, first: seq<Handle>, ops: seq<Operation>, more: seq<Operation>,
                   later: int, last: seq<Handle>)
    requires IsExpiry(timers, now, first) && NoExpiry(ops) && NoExpiry(more)
    requires IsExpiry(Used(Used(AfterExpiry(timers, now), ops), more), later, last)
    ensures forall h :: h in first ==> h !in last
  {
    forall h | h in first
      ensures h !in last
    {
      assert IsDue(timers, h, now);
      FiredStaysFired(AfterExpiry(timers, now), ops, h);
      FiredStaysFired(Used(AfterExpiry(timers, now), ops), more, h);
    }
  }
}
