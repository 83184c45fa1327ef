/**
 The registrations of `fiber_lib/6hook/ioscheduler.cpp` seen as a partial map from a context and a
 direction to one registration. Contexts are numbered in the order in which they are created; the
 table maps a descriptor to a context. One step per block that holds the table's or a context's
 lock; a run is any list of steps.
*/
module IoMachine {
  datatype Event = READ | WRITE

  type Id = nat
  type Ctx = nat

  datatype Fate = Registered | Scheduled | Deleted

  datatype Registration = Registration(ctx: Ctx, event: Event, fate: Fate)

  /** Directions, as bits of an event mask. */
  datatype Bits = Bits(read: bool, write: bool)

  /** `fds[c]` is the descriptor of context `c`; `growers` holds the threads that have seen a table too small
      for their descriptor and have not got the write lock yet; `log` lists the registrations handed to scheduleLock. */
  datatype State = State(
    table: seq<Ctx>,
    growers: map<nat, int>,
    fds: seq<int>,
    slots: map<(Ctx, Event), Id>,
    regs: seq<Registration>,
    log: seq<Id>,
    aborted: bool)

  /** `ok` says whether epoll_ctl succeeds. */
  datatype Operation =
    | Lookup(p: nat, fd: int)
    | Grow(p: nat)
    | Add(ctx: Ctx, event: Event, ok: bool)
    | Delete(ctx: Ctx, event: Event, ok: bool)
    | Cancel(ctx: Ctx, event: Event, ok: bool)
    | CancelAll(ctx: Ctx, ok: bool)
    | Dispatch(ctx: Ctx, ready: Bits, ok: bool)

  const INITIAL_SIZE := 32

  /** `resize`, with a new context for every new entry. */
  function Resize(s: State, size: nat): State {
    if size <= |s.table| then s.(table := s.table[..size])
    else
      var more := size - |s.table|;
      s.(table := s.table + seq(more, i requires 0 <= i < more => |s.fds| + i),
         fds := s.fds + seq(more, i requires 0 <= i < more => |s.table| + i))
  }

  function Init(): State {
    Resize(State([], map[], [], map[], [], [], false), INITIAL_SIZE)
  }

  function GrownSize(fd: int): int {
    fd * 3 / 2
  }

  predicate Holds(s: State, ctx: Ctx, event: Event) {
    (ctx, event) in s.slots
  }

  function Release(s: State, ctx: Ctx, event: Event, fate: Fate): State {
    if !Holds(s, ctx, event) then s
    else
      var id := s.slots[(ctx, event)];
      s.(slots := s.slots - {(ctx, event)},
         regs := if id < |s.regs| then s.regs[id := s.regs[id].(fate := fate)] else s.regs,
         log := if fate.Scheduled? then s.log + [id] else s.log)
  }

  /** The reported directions include a registered one and one that is not registered. */
  predicate Unmasked(s: State, ctx: Ctx, ready: Bits) {
    && ((ready.read && Holds(s, ctx, READ)) || (ready.write && Holds(s, ctx, WRITE)))
    && ((ready.read && !Holds(s, ctx, READ)) || (ready.write && !Holds(s, ctx, WRITE)))
  }

  /** READ is triggered first; a trigger of a direction that is not registered fails its assertion. */
  function DispatchStep(s: State, ctx: Ctx, ready: Bits): State {
    var s1 := if ready.read then Release(s, ctx, READ, Scheduled) else s;
    var s2 := if ready.write then Release(s1, ctx, WRITE, Scheduled) else s1;
    if !Unmasked(s, ctx, ready) then s2
    else if ready.read && !Holds(s, ctx, READ) then s.(aborted := true)
    else s1.(aborted := true)
  }

  function Step(s: State, op: Operation): State {
    if s.aborted then s
    else match op
      case Lookup(p, fd) => s.(growers := if |s.table| <= fd then s.growers[p := fd] else s.growers - {p})
      case Grow(p) =>
        if p in s.growers && s.growers[p] >= INITIAL_SIZE
        then Resize(s, GrownSize(s.growers[p])).(growers := s.growers - {p}) else s
      case Add(ctx, event, ok) =>
        if ctx < |s.fds| && !Holds(s, ctx, event) && ok
        then s.(slots := s.slots[(ctx, event) := |s.regs|], regs := s.regs + [Registration(ctx, event, Registered)])
        else s
      case Delete(ctx, event, ok) => if ok then Release(s, ctx, event, Deleted) else s
      case Cancel(ctx, event, ok) => if ok then Release(s, ctx, event, Scheduled) else s
      case CancelAll(ctx, ok) =>
        if ok then Release(Release(s, ctx, READ, Scheduled), ctx, WRITE, Scheduled) else s
      case Dispatch(ctx, ready, ok) => if ok then DispatchStep(s, ctx, ready) else s
  }

  function Run(ops: seq<Operation>): State {
    if ops == [] then Init() else Step(Run(ops[..|ops| - 1]), ops[|ops| - 1])
  }

  ghost predicate SlotsOk(s: State) {
    && (forall k :: k in s.slots ==>
          && k.0 < |s.fds| && s.slots[k] < |s.regs|
          && s.regs[s.slots[k]] == Registration(k.0, k.1, Registered))
    && (forall id: nat :: id < |s.regs| && s.regs[id].fate.Registered? ==>
          var k := (s.regs[id].ctx, s.regs[id].event); k in s.slots && s.slots[k] == id)
  }

  ghost predicate LogOk(s: State) {
    && (forall i, j :: 0 <= i < j < |s.log| ==> s.log[i] != s.log[j])
    && (forall id: nat :: id in s.log <==> id < |s.regs| && s.regs[id].fate.Scheduled?)
  }

  /** A table entry is a context of its own descriptor. */
  ghost predicate TableOk(s: State) {
    && INITIAL_SIZE <= |s.table|
    && (forall p :: p in s.growers ==> s.growers[p] >= INITIAL_SIZE)
    && forall fd :: 0 <= fd < |s.table| ==> s.table[fd] < |s.fds| && s.fds[s.table[fd]] == fd
  }

  ghost predicate Inv(s: State) {
    SlotsOk(s) && LogOk(s) && TableOk(s)
  }

  lemma ReleaseKeeps(s: State, ctx: Ctx, event: Event, fate: Fate)
    requires Inv(s) && !fate.Registered?
    ensures Inv(Release(s, ctx, event, fate))
  {
    ReleaseKeepsSlots(s, ctx, event, fate);
    ReleaseKeepsLog(s, ctx, event, fate);
    assert TableOk(Release(s, ctx, event, fate)) by {
      hide SlotsOk, LogOk;
    }
    hide SlotsOk, LogOk, TableOk, Release;
  }

  lemma ReleaseKeepsSlots(s: State, ctx: Ctx, event: Event, fate: Fate)
    requires SlotsOk(s) && !fate.Registered?
    ensures SlotsOk(Release(s, ctx, event, fate))
  {
    var s' := Release(s, ctx, event, fate);
    if Holds(s, ctx, event) {
      var freed := s.slots[(ctx, event)];
      forall k | k in s'.slots
        ensures k.0 < |s'.fds| && s'.slots[k] < |s'.regs|
        ensures s'.regs[s'.slots[k]] == Registration(k.0, k.1, Registered)
      {
        assert k in s.slots && s.slots[k] != freed;
      }
      forall id: nat | id < |s'.regs| && s'.regs[id].fate.Registered?
        ensures var k := (s'.regs[id].ctx, s'.regs[id].event); k in s'.slots && s'.slots[k] == id
      {
        assert id != freed && s'.regs[id] == s.regs[id];
      }
    }
  }

  lemma ReleaseKeepsLog(s: State, ctx: Ctx, event: Event, fate: Fate)
    requires SlotsOk(s) && LogOk(s) && !fate.Registered?
    ensures LogOk(Release(s, ctx, event, fate))
  {
    var s' := Release(s, ctx, event, fate);
    if Holds(s, ctx, event) {
      var freed := s.slots[(ctx, event)];
      assert freed < |s.regs| && freed !in s.log;
      hide SlotsOk;
      forall id: nat
        ensures id in s'.log <==> id < |s'.regs| && s'.regs[id].fate.Scheduled?
      {
      }
    }
  }

  lemma ResizeKeeps(s: State, size: nat)
    requires Inv(s) && size >= INITIAL_SIZE
    ensures Inv(Resize(s, size))
  {
  }

  lemma StepKeeps(s: State, op: Operation)
    requires Inv(s)
    ensures Inv(Step(s, op))
  {
    hide Release, Resize, DispatchStep, SlotsOk, LogOk, TableOk;
    match op
    case Lookup(p, fd) => LookupKeeps(s, p, fd);
    case Grow(p) => GrowKeeps(s, p);
    case Delete(ctx, event, _) => ReleaseKeeps(s, ctx, event, Deleted);
    case Cancel(ctx, event, _) => ReleaseKeeps(s, ctx, event, Scheduled);
    case CancelAll(ctx, _) => {
      ReleaseKeeps(s, ctx, READ, Scheduled);
      ReleaseKeeps(Release(s, ctx, READ, Scheduled), ctx, WRITE, Scheduled);
    }
    case Dispatch(ctx, ready, _) => DispatchKeeps(s, ctx, ready);
    case Add(ctx, event, ok) => AddKeeps(s, ctx, event, ok);
  }

  lemma LookupKeeps(s: State, p: nat, fd: int)
    requires Inv(s)
    ensures Inv(Step(s, Lookup(p, fd)))
  {
  }

  lemma GrowKeeps(s: State, p: nat)
    requires Inv(s)
    ensures Inv(Step(s, Grow(p)))
  {
    if p in s.growers {
      ResizeKeeps(s, GrownSize(s.growers[p]));
      hide Resize;
    }
  }

  lemma AddKeeps(s: State, ctx: Ctx, event: Event, ok: bool)
    requires Inv(s)
    ensures Inv(Step(s, Add(ctx, event, ok)))
  {
  }

  lemma DispatchKeeps(s: State, ctx: Ctx, ready: Bits)
    requires Inv(s)
    ensures Inv(DispatchStep(s, ctx, ready))
  {
    hide Release, Unmasked, Holds, Inv;
    var s1 := if ready.read then Release(s, ctx, READ, Scheduled) else s;
    var s2 := if ready.write then Release(s1, ctx, WRITE, Scheduled) else s1;
    ReleaseKeeps(s, ctx, READ, Scheduled);
    ReleaseKeeps(s1, ctx, WRITE, Scheduled);
    AbortKeeps(s);
    AbortKeeps(s1);
    assert Inv(s2);
  }

  lemma AbortKeeps(s: State)
    requires Inv(s)
    ensures Inv(s.(aborted := true))
  {
  }

  lemma InitOk()
    ensures Inv(Init())
  {
  }

  lemma {:induction false} Always(ops: seq<Operation>)
    ensures Inv(Run(ops))
  {
    if ops == [] {
      InitOk();
    } else {
      hide Inv, Step;
      Always(ops[..|ops| - 1]);
      StepKeeps(Run(ops[..|ops| - 1]), ops[|ops| - 1]);
    }
  }

  lemma RunSnoc(ops: seq<Operation>, op: Operation)
    ensures Run(ops + [op]) == Step(Run(ops), op)
  {
    assert (ops + [op])[..|ops|] == ops;
  }

  lemma ReleaseIsFinal(s: State, ctx: Ctx, event: Event, fate: Fate, id: Id)
    requires Inv(s) && id < |s.regs|
    ensures var s' := Release(s, ctx, event, fate);
            id < |s'.regs| && (s'.regs[id] == s.regs[id] || s.regs[id].fate.Registered?)
  {
  }

  lemma StepIsFinal(s: State, op: Operation, id: Id)
    requires Inv(s) && id < |s.regs|
    ensures var s' := Step(s, op);
            id < |s'.regs| && (s'.regs[id] == s.regs[id] || s.regs[id].fate.Registered?)
  {
    hide Inv, Release, SlotsOk, LogOk, TableOk;
    match op
    case Delete(ctx, event, _) => ReleaseIsFinal(s, ctx, event, Deleted, id);
    case Cancel(ctx, event, _) => ReleaseIsFinal(s, ctx, event, Scheduled, id);
    case CancelAll(ctx, _) => {
      ReleaseKeeps(s, ctx, READ, Scheduled);
      ReleaseIsFinal(s, ctx, READ, Scheduled, id);
      ReleaseIsFinal(Release(s, ctx, READ, Scheduled), ctx, WRITE, Scheduled, id);
    }
    case Dispatch(ctx, ready, _) => {
      ReleaseKeeps(s, ctx, READ, Scheduled);
      ReleaseIsFinal(s, ctx, READ, Scheduled, id);
      ReleaseIsFinal(if ready.read then Release(s, ctx, READ, Scheduled) else s, ctx, WRITE, Scheduled, id);
    }
    case _ =>
  }

  lemma {:induction false} FateIsFinal(ops: seq<Operation>, more: seq<Operation>, id: Id)
    requires id < |Run(ops).regs| && !Run(ops).regs[id].fate.Registered?
    ensures id < |Run(ops + more).regs| && Run(ops + more).regs[id] == Run(ops).regs[id]
    decreases |more|
  {
    var all := ops + more;
    if more == [] {
      assert all == ops;
    } else {
      hide Step, Inv, Run;
      var before := ops + more[..|more| - 1];
      assert before + [more[|more| - 1]] == all;
      FateIsFinal(ops, more[..|more| - 1], id);
      Always(before);
      RunSnoc(before, more[|more| - 1]);
      StepIsFinal(Run(before), more[|more| - 1], id);
    }
  }

  // Main results.

  /** A successful addEvent leads to at most one scheduleLock, and to one exactly if the registration
      has been triggered; while it is registered it is the one its slot holds. */
  lemma ScheduledAtMostOnce(ops: seq<Operation>, id: Id)
    requires id < |Run(ops).regs|
    ensures var s := Run(ops);
            var r := s.regs[id];
            && (r.fate.Registered? <==> (r.ctx, r.event) in s.slots && s.slots[(r.ctx, r.event)] == id)
            && (r.fate.Scheduled? <==> id in s.log)
            && (forall i, j :: 0 <= i < |s.log| && 0 <= j < |s.log| && s.log[i] == id == s.log[j] ==> i == j)
  {
    Always(ops);
  }

  /** After a delEvent that removes a registration, nothing schedules it, whatever epoll still reports. */
  lemma DeletedIsNeverScheduled(ops: seq<Operation>, ctx: Ctx, event: Event, more: seq<Operation>)
    requires Holds(Run(ops), ctx, event) && !Run(ops).aborted
    ensures Run(ops).slots[(ctx, event)] !in Run(ops + [Delete(ctx, event, true)] + more).log
  {
    var deleted := ops + [Delete(ctx, event, true)];
    Always(ops);
    RunSnoc(ops, Delete(ctx, event, true));
    FateIsFinal(deleted, more, Run(ops).slots[(ctx, event)]);
    Always(deleted + more);
  }

  // What is scheduled, and what is deleted.

  function IdsAt(s: State, ctx: Ctx, event: Event): seq<Id> {
    if (ctx, event) in s.slots then [s.slots[(ctx, event)]] else []
  }

  /** The registrations that a step meets in their slots and triggers: that of a cancelEvent, both of a
      cancelAll, and those that a dispatch reports, WRITE only if the trigger of READ has not failed. */
  function Triggered(s: State, op: Operation): seq<Id> {
    match op
    case Cancel(ctx, event, ok) => if ok then IdsAt(s, ctx, event) else []
    case CancelAll(ctx, ok) => if ok then IdsAt(s, ctx, READ) + IdsAt(s, ctx, WRITE) else []
    case Dispatch(ctx, ready, ok) =>
      if !ok || (ready.read && ready.write && (ctx, READ) !in s.slots) then []
      else (if ready.read then IdsAt(s, ctx, READ) else []) + (if ready.write then IdsAt(s, ctx, WRITE) else [])
    case _ => []
  }

  /** The slots that a step empties. */
  function Emptied(s: State, op: Operation): set<(Ctx, Event)> {
    match op
    case Delete(ctx, event, ok) => if ok then {(ctx, event)} else {}
    case Cancel(ctx, event, ok) => if ok then {(ctx, event)} else {}
    case CancelAll(ctx, ok) => if ok then {(ctx, READ), (ctx, WRITE)} else {}
    case Dispatch(ctx, ready, ok) =>
      if !ok || (ready.read && ready.write && (ctx, READ) !in s.slots) then {}
      else (if ready.read then {(ctx, READ)} else {}) + (if ready.write then {(ctx, WRITE)} else {})
    case _ => {}
  }

  lemma ReleaseTriggers(s: State, ctx: Ctx, event: Event, fate: Fate)
    ensures var t := Release(s, ctx, event, fate);
            && t.log == s.log + (if fate.Scheduled? then IdsAt(s, ctx, event) else [])
            && t.slots == s.slots - {(ctx, event)} && t.aborted == s.aborted
            && forall e: Event :: e != event ==> IdsAt(t, ctx, e) == IdsAt(s, ctx, e)
  {
    assert (ctx, event) !in s.slots ==> s.slots - {(ctx, event)} == s.slots;
  }

  /** A step appends what it triggers to the log, and empties their slots and that of a delEvent. */
  lemma StepTriggers(s: State, op: Operation)
    requires !s.aborted
    ensures Step(s, op).log == s.log + Triggered(s, op)
    ensures !op.Add? ==> Step(s, op).slots == s.slots - Emptied(s, op)
  {
    match op
    case Delete(ctx, event, _) => ReleaseTriggers(s, ctx, event, Deleted); hide Release;
    case Cancel(ctx, event, _) => ReleaseTriggers(s, ctx, event, Scheduled); hide Release;
    case CancelAll(ctx, _) => {
      ReleaseTriggers(s, ctx, READ, Scheduled);
      ReleaseTriggers(Release(s, ctx, READ, Scheduled), ctx, WRITE, Scheduled);
      hide Release;
      assert (s.slots - {(ctx, READ)}) - {(ctx, WRITE)} == s.slots - {(ctx, READ), (ctx, WRITE)};
    }
    case Dispatch(ctx, ready, _) => DispatchTriggers(s, ctx, ready); hide DispatchStep;
    case _ =>
  }

  lemma DispatchTriggers(s: State, ctx: Ctx, ready: Bits)
    requires !s.aborted
    ensures var op := Dispatch(ctx, ready, true);
            var t := DispatchStep(s, ctx, ready);
            t.log == s.log + Triggered(s, op) && t.slots == s.slots - Emptied(s, op)
  {
    var s1 := if ready.read then Release(s, ctx, READ, Scheduled) else s;
    ReleaseTriggers(s, ctx, READ, Scheduled);
    ReleaseTriggers(s1, ctx, WRITE, Scheduled);
    hide Release;
    assert (s.slots - {(ctx, READ)}) - {(ctx, WRITE)} == s.slots - ({(ctx, READ)} + {(ctx, WRITE)});
    assert (ctx, WRITE) !in s.slots ==> (s.slots - {(ctx, READ)}) - {(ctx, WRITE)} == s.slots - {(ctx, READ)};
    assert (ctx, READ) !in s.slots ==> s.slots - {(ctx, READ)} == s.slots;
    assert (ctx, WRITE) !in s.slots ==> s.slots - {(ctx, WRITE)} == s.slots;
  }

  function TriggeredIn(ops: seq<Operation>): seq<Id> {
    if ops == [] then []
    else
      var before := ops[..|ops| - 1];
      TriggeredIn(before) + if Run(before).aborted then [] else Triggered(Run(before), ops[|ops| - 1])
  }

  /** In every run, what has been passed to scheduleLock is exactly what its steps have met in their slots and
      triggered, in this order. */
  lemma {:induction false} LogIsWhatWasTriggered(ops: seq<Operation>)
    ensures Run(ops).log == TriggeredIn(ops)
  {
    if ops != [] {
      hide Step, Triggered;
      LogIsWhatWasTriggered(ops[..|ops| - 1]);
      if Run(ops[..|ops| - 1]).aborted {
        AbortedStays(Run(ops[..|ops| - 1]), ops[|ops| - 1]);
      } else {
        StepTriggers(Run(ops[..|ops| - 1]), ops[|ops| - 1]);
      }
    } else {
      assert Run(ops) == Init();
    }
  }

  lemma AbortedStays(s: State, op: Operation)
    requires s.aborted
    ensures Step(s, op) == s
  {
  }

  /** The step is a delEvent that removes the registration. */
  predicate Deletes(s: State, op: Operation, id: Id) {
    !s.aborted && op.Delete? && op.ok && (op.ctx, op.event) in s.slots && s.slots[(op.ctx, op.event)] == id
  }

  predicate DeletesAt(ops: seq<Operation>, i: nat, id: Id)
    requires i < |ops|
  {
    Deletes(Run(ops[..i]), ops[i], id)
  }

  ghost predicate WasDeleted(ops: seq<Operation>, id: Id) {
    exists i: nat :: i < |ops| && DeletesAt(ops, i, id)
  }

  lemma DeletedSnoc(ops: seq<Operation>, op: Operation, id: Id)
    ensures WasDeleted(ops + [op], id) == (WasDeleted(ops, id) || Deletes(Run(ops), op, id))
  {
    hide Run, Deletes;
    var all := ops + [op];
    assert all[..|ops|] == ops;
    assert DeletesAt(all, |ops|, id) == Deletes(Run(ops), op, id);
    forall i: nat | i < |ops|
      ensures DeletesAt(all, i, id) == DeletesAt(ops, i, id)
    {
      assert all[..i] == ops[..i];
    }
  }

  predicate IsDeleted(s: State, id: Id) {
    id < |s.regs| && s.regs[id].fate.Deleted?
  }

  lemma ReleaseDeletes(s: State, ctx: Ctx, event: Event, fate: Fate, id: Id)
    requires SlotsOk(s) && !fate.Registered?
    ensures IsDeleted(Release(s, ctx, event, fate), id) <==>
              IsDeleted(s, id) || (fate.Deleted? && (ctx, event) in s.slots && s.slots[(ctx, event)] == id)
    ensures SlotsOk(Release(s, ctx, event, fate))
  {
    ReleaseKeepsSlots(s, ctx, event, fate);
    if (ctx, event) in s.slots {
      assert s.regs[s.slots[(ctx, event)]].fate.Registered?;
    }
    hide SlotsOk;
  }

  lemma StepDeletes(s: State, op: Operation, id: Id)
    requires SlotsOk(s)
    ensures IsDeleted(Step(s, op), id) <==> IsDeleted(s, id) || Deletes(s, op, id)
  {
    hide SlotsOk, Resize, Release;
    match op
    case Grow(p) => {
      if p in s.growers && s.growers[p] >= INITIAL_SIZE {
        SameRegs(s, GrownSize(s.growers[p]));
      }
    }
    case Delete(ctx, event, _) => ReleaseDeletes(s, ctx, event, Deleted, id);
    case Cancel(ctx, event, _) => ReleaseDeletes(s, ctx, event, Scheduled, id);
    case CancelAll(ctx, _) => {
      ReleaseDeletes(s, ctx, READ, Scheduled, id);
      ReleaseDeletes(Release(s, ctx, READ, Scheduled), ctx, WRITE, Scheduled, id);
    }
    case Dispatch(ctx, ready, _) => {
      ReleaseDeletes(s, ctx, READ, Scheduled, id);
      ReleaseDeletes(if ready.read then Release(s, ctx, READ, Scheduled) else s, ctx, WRITE, Scheduled, id);
    }
    case _ =>
  }

  lemma SameRegs(s: State, size: nat)
    ensures Resize(s, size).regs == s.regs
  {
  }

  /** A registration is deleted if and only if a delEvent that succeeds has met it in its slot; and it is
      scheduled if and only if a cancelEvent, cancelAll or dispatch has. */
  lemma {:induction false} FateIff(ops: seq<Operation>, id: Id)
    ensures IsDeleted(Run(ops), id) <==> WasDeleted(ops, id)
    ensures id < |Run(ops).regs| && Run(ops).regs[id].fate.Scheduled? <==> id in TriggeredIn(ops)
  {
    Always(ops);
    LogIsWhatWasTriggered(ops);
    assert id in Run(ops).log <==> id < |Run(ops).regs| && Run(ops).regs[id].fate.Scheduled?;
    hide Inv;
    DeletedIff(ops, id);
    hide *;
  }

  lemma {:induction false} DeletedIff(ops: seq<Operation>, id: Id)
    ensures IsDeleted(Run(ops), id) <==> WasDeleted(ops, id)
  {
    if ops == [] {
      assert Run(ops) == Init();
    } else {
      hide *;
      var before, op := ops[..|ops| - 1], ops[|ops| - 1];
      assert before + [op] == ops;
      DeletedIff(before, id);
      HasSlots(before);
      RunSnoc(before, op);
      StepDeletes(Run(before), op, id);
      DeletedSnoc(before, op, id);
    }
  }

  lemma HasSlots(ops: seq<Operation>)
    ensures SlotsOk(Run(ops))
  {
    Always(ops);
    hide SlotsOk, Run;
  }

  // What delEvent, cancelEvent and cancelAll answer: a -1 that is returned as a bool reads as true.

  predicate Removes(op: Operation, ctx: Ctx, event: Event) {
    match op
    case Delete(c, e, _) => c == ctx && e == event
    case Cancel(c, e, _) => c == ctx && e == event
    case CancelAll(c, _) => c == ctx
    case _ => false
  }

  /** The call reads as true: it has found a registration, whatever epoll_ctl said then. */
  predicate ReadsTrue(s: State, op: Operation) {
    match op
    case Delete(ctx, event, _) => Holds(s, ctx, event)
    case Cancel(ctx, event, _) => Holds(s, ctx, event)
    case CancelAll(ctx, _) => Holds(s, ctx, READ) || Holds(s, ctx, WRITE)
    case _ => false
  }

  /** A call that reads as true has left a registration it was to remove, exactly if epoll_ctl failed. */
  lemma TrueButKeptIffEpollFails(s: State, op: Operation, ctx: Ctx, event: Event)
    requires Removes(op, ctx, event) && Holds(s, ctx, event) && !s.aborted
    ensures ReadsTrue(s, op)
    ensures Holds(Step(s, op), ctx, event) <==> !op.ok
  {
    if op.CancelAll? {
      assert event == READ || event == WRITE;
    }
  }

  /** A delEvent that reads as true, and whose registration is triggered afterwards. */
  lemma DeletedYetScheduled()
    ensures var ops := [Add(5, READ, true)];
            var failed := Delete(5, READ, false);
            && ReadsTrue(Run(ops), failed)
            && Run(ops + [failed] + [Dispatch(5, Bits(true, false), true)]).log == [0]
  {
    var ops, failed := [Add(5, READ, true)], Delete(5, READ, false);
    assert [] + ops == ops;
    RunSnoc([], Add(5, READ, true));
    RunSnoc(ops, failed);
    RunSnoc(ops + [failed], Dispatch(5, Bits(true, false), true));
    assert Run([]) == Init();
    hide Run;
    assert |Init().fds| == INITIAL_SIZE && Init().slots == map[];
    hide Init;
    assert Run(ops).slots == map[(5, READ) := 0] && Run(ops).log == [];
  }

  // The table of contexts.

  /** The lookup by descriptor finds the context. */
  predicate Findable(s: State, c: Ctx) {
    c < |s.fds| && 0 <= s.fds[c] < |s.table| && s.table[s.fds[c]] == c
  }

  ghost predicate AllFindable(s: State) {
    forall c: nat :: c < |s.fds| ==> Findable(s, c)
  }

  /** The step makes the table smaller. */
  predicate Shrinks(s: State, op: Operation) {
    op.Grow? && op.p in s.growers && !s.aborted && GrownSize(s.growers[op.p]) < |s.table|
  }

  lemma ResizeFinds(s: State, size: nat)
    requires TableOk(s) && size >= INITIAL_SIZE
    ensures AllFindable(Resize(s, size)) <==> AllFindable(s) && size >= |s.table|
  {
    var s' := Resize(s, size);
    if size < |s.table| {
      var c := s.table[size];
      assert !Findable(s', c);
    } else {
      forall c: nat | c < |s.fds|
        ensures Findable(s', c) == Findable(s, c)
      {
      }
    }
  }

  lemma StepFinds(s: State, op: Operation)
    requires Inv(s)
    ensures AllFindable(Step(s, op)) <==> AllFindable(s) && !Shrinks(s, op)
  {
    hide AllFindable, Findable, Resize, SlotsOk, LogOk;
    if op.Grow? && op.p in s.growers && !s.aborted {
      var size := GrownSize(s.growers[op.p]);
      ResizeFinds(s, size);
      SameTable(Resize(s, size), Step(s, op));
    } else {
      hide TableOk;
      SameTable(s, Step(s, op));
    }
  }

  lemma SameTable(s: State, s': State)
    requires s'.table == s.table && s'.fds == s.fds
    ensures AllFindable(s') == AllFindable(s)
  {
    assert forall c :: Findable(s', c) == Findable(s, c);
  }

  /** Every context stays reachable through the table exactly if no resize ever shrinks it. */
  lemma {:induction false} TableLosesNothingIffItNeverShrinks(ops: seq<Operation>)
    ensures AllFindable(Run(ops)) <==> forall i: nat :: i < |ops| ==> !ShrinksAt(ops, i)
  {
    if ops != [] {
      hide Step, AllFindable, Inv, Shrinks, ShrinksAt;
      var n := |ops| - 1;
      var before := ops[..n];
      TableLosesNothingIffItNeverShrinks(before);
      ShrinksPrefix(ops);
      Always(before);
      StepFinds(Run(before), ops[n]);
    }
  }

  predicate ShrinksAt(ops: seq<Operation>, i: nat)
    requires i < |ops|
  {
    Shrinks(Run(ops[..i]), ops[i])
  }

  lemma ShrinksPrefix(ops: seq<Operation>)
    requires ops != []
    ensures var n := |ops| - 1;
            && ShrinksAt(ops, n) == Shrinks(Run(ops[..n]), ops[n])
            && forall i: nat :: i < n ==> ShrinksAt(ops, i) == ShrinksAt(ops[..n], i)
  {
    hide Shrinks, Run;
    var n := |ops| - 1;
    forall i: nat | i < n
      ensures ShrinksAt(ops, i) == ShrinksAt(ops[..n], i)
    {
      assert ops[..n][..i] == ops[..i];
    }
  }

  /** What a thread that is alone between its lookup and its resize does: it makes the table larger. */
  lemma AloneItGrows(s: State, p: nat, fd: int)
    requires Inv(s) && !s.aborted && fd >= |s.table|
    ensures var t := Step(s, Lookup(p, fd)); !Shrinks(t, Grow(p)) && |Step(t, Grow(p)).table| > fd
  {
    hide SlotsOk, LogOk;
  }

  /** Two threads find the table too small, for descriptors 100 and 40, before either resizes it. */
  function BothLookedUp(): (ops: seq<Operation>) {
    [Lookup(0, 100), Lookup(1, 40)]
  }

  lemma BothWaitToGrow()
    ensures Run(BothLookedUp()) == Init().(growers := map[0 := 100, 1 := 40])
  {
    RunSnoc([], Lookup(0, 100));
    RunSnoc([Lookup(0, 100)], Lookup(1, 40));
    assert [] + [Lookup(0, 100)] == [Lookup(0, 100)];
    assert [Lookup(0, 100)] + [Lookup(1, 40)] == BothLookedUp();
    assert Run([]) == Init();
    hide Run;
  }

  lemma FirstGrows(s: State)
    requires s == Init().(growers := map[0 := 100, 1 := 40])
    ensures var t := Step(s, Grow(0));
            && t.growers == map[1 := 40] && t.slots == map[] && t.regs == [] && !t.aborted
            && |t.table| == 150 && |t.fds| == 150 && t.fds[100] == 100
  {
    assert s.growers - {0} == map[1 := 40];
  }

  /** The first of them resizes the table and registers, the second makes it smaller: the registration is
      counted, but delEvent no longer finds its context. */
  lemma RegistrationOutOfReach()
    ensures var s := Run(BothLookedUp() + [Grow(0)] + [Add(100, READ, true)] + [Grow(1)]);
            |s.slots| == 1 && |s.fds| > 100 && s.fds[100] == 100 && Holds(s, 100, READ) && !Findable(s, 100)
  {
    var ops := BothLookedUp();
    RunSnoc(ops, Grow(0));
    RunSnoc(ops + [Grow(0)], Add(100, READ, true));
    RunSnoc(ops + [Grow(0)] + [Add(100, READ, true)], Grow(1));
    BothWaitToGrow();
    FirstGrows(Run(ops));
    hide Run, Init, BothLookedUp;
    var s := Run(ops + [Grow(0)] + [Add(100, READ, true)] + [Grow(1)]);
    assert s.slots == map[(100, READ) := 0] && |s.table| == 60;
    assert |s.slots| == 1;
  }

  // The assertion in triggerEvent.

  /** Step `i` is a dispatch that reports a registered direction together with one that is not. */
  predicate ReportsStale(ops: seq<Operation>, i: nat)
    requires i < |ops|
  {
    ops[i].Dispatch? && ops[i].ok && !Run(ops[..i]).aborted && Unmasked(Run(ops[..i]), ops[i].ctx, ops[i].ready)
  }

  /** The assertion of triggerEvent fails in a run exactly if some dispatch reports a registered
      direction together with one that is no longer registered. */
  lemma {:induction false} AbortsIffReportIsStale(ops: seq<Operation>)
    ensures Run(ops).aborted <==> exists i: nat :: i < |ops| && ReportsStale(ops, i)
  {
    if ops != [] {
      var n := |ops| - 1;
      var before := ops[..n];
      hide Step, ReportsStale, Unmasked;
      AbortsIffReportIsStale(before);
      StalePrefix(ops);
      StepAborts(Run(before), ops[n]);
    }
  }

  lemma StalePrefix(ops: seq<Operation>)
    requires ops != []
    ensures var n := |ops| - 1;
            var s := Run(ops[..n]);
            && (ReportsStale(ops, n) <==>
                  ops[n].Dispatch? && ops[n].ok && !s.aborted && Unmasked(s, ops[n].ctx, ops[n].ready))
            && forall i: nat :: i < n ==> ReportsStale(ops, i) == ReportsStale(ops[..n], i)
  {
    hide Unmasked, Run;
    var n := |ops| - 1;
    forall i: nat | i < n
      ensures ReportsStale(ops, i) == ReportsStale(ops[..n], i)
    {
      assert ops[..n][..i] == ops[..i];
    }
  }

  lemma StepAborts(s: State, op: Operation)
    ensures Step(s, op).aborted <==> s.aborted || (op.Dispatch? && op.ok && Unmasked(s, op.ctx, op.ready))
  {
  }

  /** It can happen: both directions are reported, and one is deleted before the lock is taken. */
  lemma StaleReportAborts()
    ensures exists ops :: Run(ops).aborted
  {
    hide Run, Step, DispatchStep;
    var ops := BothRegistered();
    var deleted := ops + [Delete(5, READ, true)];
    RunSnoc(ops, Delete(5, READ, true));
    OneIsDeleted(Run(ops));
    RunSnoc(deleted, Dispatch(5, Bits(true, true), true));
    StepAborts(Run(deleted), Dispatch(5, Bits(true, true), true));
    assert Run(deleted + [Dispatch(5, Bits(true, true), true)]).aborted;
  }

  lemma BothRegistered() returns (ops: seq<Operation>)
    ensures var s := Run(ops); Holds(s, 5, READ) && Holds(s, 5, WRITE) && !s.aborted
  {
    assert Run([]) == Init();
    hide Run, Step;
    RunSnoc([], Add(5, READ, true));
    ops := [] + [Add(5, READ, true)];
    AddRegisters(Init(), 5, READ);
    RunSnoc(ops, Add(5, WRITE, true));
    AddRegisters(Run(ops), 5, WRITE);
    ops := ops + [Add(5, WRITE, true)];
  }

  lemma AddRegisters(s: State, ctx: Ctx, event: Event)
    requires ctx < |s.fds| && !Holds(s, ctx, event) && !s.aborted
    ensures var t := Step(s, Add(ctx, event, true));
            && Holds(t, ctx, event) && !t.aborted && t.fds == s.fds
            && forall e: Event :: e != event ==> Holds(t, ctx, e) == Holds(s, ctx, e)
  {
  }

  lemma OneIsDeleted(s: State)
    requires Holds(s, 5, READ) && Holds(s, 5, WRITE) && !s.aborted
    ensures var t := Step(s, Delete(5, READ, true)); !Holds(t, 5, READ) && Holds(t, 5, WRITE) && !t.aborted
  {
  }
}

/**
 The manager as written: contexts with an event mask and two slots, a table that grows on demand, and
 a count of pending events. Slots hold the number of the registration in place of its callback or
 fiber, and `scheduled` is what has been passed to scheduleLock.
*/
module IoManagerObject {
  import opened Wrappers
  import opened IoMachine

  datatype FdContext = FdContext(fd: int, events: bv8, read: Option<Id>, write: Option<Id>)

  /** What epoll reported for a context. */
  datatype Report = Report(input: bool, output: bool, error: bool, hangup: bool)

  function Bit(event: Event): bv8 {
    if event.READ? then 0x1 else 0x4
  }

  predicate HasBit(events: bv8, event: Event) {
    events & Bit(event) != 0
  }

  function SetBit(events: bv8, event: Event): bv8 {
    events | Bit(event)
  }

  function ClearBit(events: bv8, event: Event): bv8 {
    events & !Bit(event)
  }

  function Slot(c: FdContext, event: Event): Option<Id> {
    if event.READ? then c.read else c.write
  }

  function With(c: FdContext, event: Event, id: Option<Id>): FdContext {
    if event.READ? then c.(read := id) else c.(write := id)
  }

  function Lookup(slots: map<(Ctx, Event), Id>, ctx: Ctx, event: Event): Option<Id> {
    if (ctx, event) in slots then Some(slots[(ctx, event)]) else None
  }

  /** The directions of a report; an error or a hang-up stands for those registered. */
  function ReadyOf(s: State, ctx: Ctx, r: Report): Bits {
    Bits(r.input || ((r.error || r.hangup) && Holds(s, ctx, READ)),
         r.output || ((r.error || r.hangup) && Holds(s, ctx, WRITE)))
  }

  lemma BitAlgebra(events: bv8)
    requires events & !0x5 == 0
    ensures forall e: Event :: HasBit(SetBit(events, e), e) && !HasBit(ClearBit(events, e), e)
    ensures forall e: Event, f: Event :: e != f ==>
              && HasBit(SetBit(events, e), f) == HasBit(events, f)
              && HasBit(ClearBit(events, e), f) == HasBit(events, f)
    ensures forall e: Event :: SetBit(events, e) & !0x5 == 0 && ClearBit(events, e) & !0x5 == 0
    ensures events == 0 <==> !HasBit(events, READ) && !HasBit(events, WRITE)
  {
    assert Bit(READ) == 0x1 && Bit(WRITE) == 0x4;
  }

  /** A context's mask and slots agree with the registrations. */
  ghost predicate ContextOk(c: FdContext, slots: map<(Ctx, Event), Id>, ctx: Ctx) {
    && c.events & !0x5 == 0
    && forall e: Event :: Slot(c, e) == Lookup(slots, ctx, e) && (HasBit(c.events, e) <==> Slot(c, e).Some?)
  }

  ghost predicate ContextsOk(contexts: seq<FdContext>, slots: map<(Ctx, Event), Id>) {
    forall c: nat :: c < |contexts| ==> ContextOk(contexts[c], slots, c)
  }

  function Cleared(c: FdContext, event: Event): FdContext {
    With(c.(events := ClearBit(c.events, event)), event, None)
  }

  function Filled(c: FdContext, event: Event, id: Id): FdContext {
    With(c.(events := SetBit(c.events, event)), event, Some(id))
  }

  lemma ContextAt(contexts: seq<FdContext>, slots: map<(Ctx, Event), Id>, ctx: Ctx, event: Event)
    requires ContextsOk(contexts, slots) && ctx < |contexts|
    ensures HasBit(contexts[ctx].events, event) <==> (ctx, event) in slots
    ensures Slot(contexts[ctx], event) == Lookup(slots, ctx, event)
    ensures contexts[ctx].events == 0 <==> (ctx, READ) !in slots && (ctx, WRITE) !in slots
  {
    var c := contexts[ctx];
    assert ContextOk(c, slots, ctx);
    BitAlgebra(c.events);
    assert Slot(c, event) == Lookup(slots, ctx, event);
    assert Slot(c, READ) == Lookup(slots, ctx, READ) && Slot(c, WRITE) == Lookup(slots, ctx, WRITE);
  }

  lemma ClearedContext(c: FdContext, slots: map<(Ctx, Event), Id>, ctx: Ctx, event: Event)
    requires ContextOk(c, slots, ctx)
    ensures ContextOk(Cleared(c, event), slots - {(ctx, event)}, ctx)
  {
    BitAlgebra(c.events);
    var c' := Cleared(c, event);
    forall e: Event
      ensures Slot(c', e) == Lookup(slots - {(ctx, event)}, ctx, e) && (HasBit(c'.events, e) <==> Slot(c', e).Some?)
    {
      assert Slot(c, e) == Lookup(slots, ctx, e);
    }
  }

  lemma FilledContext(c: FdContext, slots: map<(Ctx, Event), Id>, ctx: Ctx, event: Event, id: Id)
    requires ContextOk(c, slots, ctx)
    ensures ContextOk(Filled(c, event, id), slots[(ctx, event) := id], ctx)
  {
    BitAlgebra(c.events);
    var c' := Filled(c, event, id);
    forall e: Event
      ensures Slot(c', e) == Lookup(slots[(ctx, event) := id], ctx, e) && (HasBit(c'.events, e) <==> Slot(c', e).Some?)
    {
      assert Slot(c, e) == Lookup(slots, ctx, e);
    }
  }

  lemma OtherContext(c: FdContext, slots: map<(Ctx, Event), Id>, slots': map<(Ctx, Event), Id>, ctx: Ctx)
    requires ContextOk(c, slots, ctx)
    requires forall e: Event :: Lookup(slots', ctx, e) == Lookup(slots, ctx, e)
    ensures ContextOk(c, slots', ctx)
  {
    forall e: Event
      ensures Slot(c, e) == Lookup(slots', ctx, e) && (HasBit(c.events, e) <==> Slot(c, e).Some?)
    {
      assert Slot(c, e) == Lookup(slots, ctx, e);
    }
  }

  lemma ClearedContexts(contexts: seq<FdContext>, slots: map<(Ctx, Event), Id>, ctx: Ctx, event: Event)
    requires ContextsOk(contexts, slots) && ctx < |contexts| && (ctx, event) in slots
    ensures ContextsOk(contexts[ctx := Cleared(contexts[ctx], event)], slots - {(ctx, event)})
    ensures |slots - {(ctx, event)}| == |slots| - 1
  {
    hide ContextOk, Cleared;
    var slots' := slots - {(ctx, event)};
    assert slots'.Keys == slots.Keys - {(ctx, event)};
    var contexts' := contexts[ctx := Cleared(contexts[ctx], event)];
    forall c: nat | c < |contexts'|
      ensures ContextOk(contexts'[c], slots', c)
    {
      assert ContextOk(contexts[c], slots, c);
      if c == ctx {
        ClearedContext(contexts[c], slots, c, event);
      } else {
        OtherContext(contexts[c], slots, slots', c);
      }
    }
  }

  lemma FilledContexts(contexts: seq<FdContext>, slots: map<(Ctx, Event), Id>, ctx: Ctx, event: Event, id: Id)
    requires ContextsOk(contexts, slots) && ctx < |contexts| && (ctx, event) !in slots
    ensures ContextsOk(contexts[ctx := Filled(contexts[ctx], event, id)], slots[(ctx, event) := id])
    ensures |slots[(ctx, event) := id]| == |slots| + 1
  {
    hide ContextOk, Filled;
    var slots' := slots[(ctx, event) := id];
    assert slots'.Keys == slots.Keys + {(ctx, event)};
    var contexts' := contexts[ctx := Filled(contexts[ctx], event, id)];
    forall c: nat | c < |contexts'|
      ensures ContextOk(contexts'[c], slots', c)
    {
      assert ContextOk(contexts[c], slots, c);
      if c == ctx {
        FilledContext(contexts[c], slots, c, event, id);
      } else {
        OtherContext(contexts[c], slots, slots', c);
      }
    }
  }

  lemma ClearedFd(c: FdContext, event: Event)
    ensures Cleared(c, event).fd == c.fd
  {
  }

  lemma CancelAllStep(s: State, ctx: Ctx, ok: bool)
    requires !s.aborted
    ensures var t := Release(Release(s, ctx, READ, Scheduled), ctx, WRITE, Scheduled);
            && Step(s, CancelAll(ctx, ok)) == (if ok then t else s)
            && (!Holds(s, ctx, READ) && !Holds(s, ctx, WRITE) ==> t == s)
            && !Holds(t, ctx, READ) && !Holds(t, ctx, WRITE)
            && t.table == s.table && t.growers == s.growers && t.fds == s.fds && !t.aborted
  {
  }

  lemma DeleteMeans(s: State, ctx: Ctx, event: Event, ok: bool)
    requires !s.aborted
    ensures var t := Step(s, Delete(ctx, event, ok));
            t.log == s.log && t.slots == if ok then s.slots - {(ctx, event)} else s.slots
  {
    StepTriggers(s, Delete(ctx, event, ok));
    hide Step;
  }

  lemma CancelMeans(s: State, ctx: Ctx, event: Event, ok: bool)
    requires !s.aborted
    ensures var t := Step(s, Cancel(ctx, event, ok));
            && t.log == s.log + (if ok then IdsAt(s, ctx, event) else [])
            && t.slots == if ok then s.slots - {(ctx, event)} else s.slots
  {
    StepTriggers(s, Cancel(ctx, event, ok));
    hide Step;
  }

  lemma CancelAllMeans(s: State, ctx: Ctx, ok: bool)
    requires !s.aborted
    ensures var t := Step(s, CancelAll(ctx, ok));
            && t.log == s.log + (if ok then IdsAt(s, ctx, READ) + IdsAt(s, ctx, WRITE) else [])
            && t.slots == if ok then s.slots - {(ctx, READ), (ctx, WRITE)} else s.slots
  {
    StepTriggers(s, CancelAll(ctx, ok));
    hide Step;
  }

  /** A report in its own fields: an error or a hang-up stands for the directions that are registered. */
  lemma DispatchMeans(s: State, ctx: Ctx, r: Report, ok: bool)
    requires !s.aborted
    ensures var t := Step(s, Dispatch(ctx, ReadyOf(s, ctx, r), ok));
            var read := r.input || ((r.error || r.hangup) && Holds(s, ctx, READ));
            var write := r.output || ((r.error || r.hangup) && Holds(s, ctx, WRITE));
            && (t.aborted <==> ok && ((read && Holds(s, ctx, READ)) || (write && Holds(s, ctx, WRITE)))
                                  && ((read && !Holds(s, ctx, READ)) || (write && !Holds(s, ctx, WRITE))))
            && (!t.aborted ==>
                  t.log == s.log + if !ok then [] else
                    (if read then IdsAt(s, ctx, READ) else []) + (if write then IdsAt(s, ctx, WRITE) else []))
  {
    StepTriggers(s, Dispatch(ctx, ReadyOf(s, ctx, r), ok));
    StepAborts(s, Dispatch(ctx, ReadyOf(s, ctx, r), ok));
    hide Step;
  }

  lemma ReleaseAlone(s: State, ctx: Ctx, event: Event)
    ensures var t := Release(s, ctx, event, Scheduled);
            && t.table == s.table && t.growers == s.growers && t.fds == s.fds && t.aborted == s.aborted
            && forall e: Event :: e != event ==> Holds(t, ctx, e) == Holds(s, ctx, e)
  {
  }

  lemma DispatchStepIs(s: State, ctx: Ctx, ready: Bits, ok: bool)
    requires !s.aborted
    ensures var t := if ready.read then Release(s, ctx, READ, Scheduled) else s;
            var step := Step(s, Dispatch(ctx, ready, ok));
            && (ok && Unmasked(s, ctx, ready) ==> step.aborted)
            && (ok && !Unmasked(s, ctx, ready) ==>
                  step == if ready.write then Release(t, ctx, WRITE, Scheduled) else t)
            && (!ok || ((ready.read ==> !Holds(s, ctx, READ)) && (ready.write ==> !Holds(s, ctx, WRITE))) ==> step == s)
  {
    ReleaseAlone(s, ctx, READ);
  }

  lemma HeldIsNumbered(s: State, ctx: Ctx, event: Event)
    requires Inv(s) && Holds(s, ctx, event)
    ensures s.slots[(ctx, event)] < |s.regs|
  {
  }

  /** What threads other than `p` do. */
  predicate Foreign(op: Operation, p: nat) {
    match op
    case Lookup(q, _) => q != p
    case Grow(q) => q != p
    case _ => true
  }

  lemma StepKeepsFds(s: State, op: Operation)
    ensures s.fds <= Step(s, op).fds
  {
  }

  lemma NothingRegistered(contexts: seq<FdContext>)
    requires forall c :: 0 <= c < |contexts| ==>
               contexts[c].events == 0 && contexts[c].read.None? && contexts[c].write.None?
    ensures ContextsOk(contexts, map[])
  {
  }

  lemma StepKeepsGrower(s: State, op: Operation, p: nat)
    requires Foreign(op, p)
    ensures var t := Step(s, op);
            (p in t.growers <==> p in s.growers) && (p in t.growers ==> t.growers[p] == s.growers[p])
  {
  }

  lemma ResizeDown(s: State, size: nat)
    ensures Resize(s, |s.table|).table == s.table && Resize(s, |s.table|).fds == s.fds
    ensures size < |s.table| ==> Resize(s, size).table == s.table[..size] && Resize(s, size).fds == s.fds
    ensures |Resize(s, size).table| == size
  {
  }

  lemma ResizeUp(s: State, size: nat)
    requires size >= |s.table|
    ensures Resize(s, size + 1).table == Resize(s, size).table + [|Resize(s, size).fds|]
    ensures Resize(s, size + 1).fds == Resize(s, size).fds + [size]
  {
  }

  lemma ResizeKeepsSlots(s: State, size: nat)
    ensures var s' := Resize(s, size);
            s'.slots == s.slots && s'.log == s.log && s'.regs == s.regs && s'.aborted == s.aborted
            && s'.growers == s.growers
  {
  }

  lemma NewContext(contexts: seq<FdContext>, s: State, fd: int)
    requires ContextsOk(contexts, s.slots) && Inv(s) && |contexts| >= |s.fds|
    ensures ContextsOk(contexts + [FdContext(fd, 0, None, None)], s.slots)
  {
    var c := FdContext(fd, 0, None, None);
    var n := |contexts|;
    forall e: Event
      ensures Slot(c, e) == Lookup(s.slots, n, e) && (HasBit(c.events, e) <==> Slot(c, e).Some?)
    {
      assert (n, e) !in s.slots;
    }
    assert ContextOk(c, s.slots, n);
    var all := contexts + [c];
    forall k: nat | k < |all|
      ensures ContextOk(all[k], s.slots, k)
    {
      assert k < n ==> ContextOk(contexts[k], s.slots, k);
    }
  }

  class IOManager {
    var table: seq<Ctx>
    /** The descriptors of the threads between their lookup and the write lock. */
    var growers: map<nat, int>
    var contexts: seq<FdContext>
    var pending: int
    var scheduled: seq<Id>
    /** Numbers the registrations. */
    var added: nat
    ghost var trace: seq<Operation>
    ghost var view: State

    /** What holds whenever no lock is held: the count is the number of registrations, a slot is
        filled exactly if its bit is set, and the registrations are those of the run. */
    ghost predicate Valid()
      reads this
    {
      && view == Run(trace) && !view.aborted
      && table == view.table && growers == view.growers && |contexts| == |view.fds|
      && (forall c :: 0 <= c < |contexts| ==> contexts[c].fd == view.fds[c])
      && Counts(view)
    }

    ghost predicate Counts(s: State)
      reads this
    {
      ContextsOk(contexts, s.slots) && pending == |s.slots| && scheduled == s.log && added == |s.regs|
    }

    constructor ()
      ensures Valid() && trace == []
    {
      table, growers := seq(INITIAL_SIZE, i => i), map[];
      contexts := seq(INITIAL_SIZE, i => FdContext(i, 0, None, None));
      pending, scheduled, added := 0, [], 0;
      trace, view := [], Init();
      new;
      NothingRegistered(contexts);
    }

    ghost method Do(op: Operation)
      requires view == Run(trace)
      modifies `trace, `view
      ensures trace == old(trace) + [op] && view == Step(old(view), op) && view == Run(trace)
    {
      RunSnoc(trace, op);
      trace := trace + [op];
      view := Step(view, op);
    }

    /** Fails where the source's assertion fails. */
    method TriggerEvent(ctx: Ctx, event: Event) returns (ok: bool)
      requires ctx < |contexts|
      modifies `contexts, `scheduled
      ensures ok <==> HasBit(old(contexts)[ctx].events, event)
      ensures !ok ==> contexts == old(contexts) && scheduled == old(scheduled)
      ensures ok ==> contexts == old(contexts)[ctx := Cleared(old(contexts)[ctx], event)]
      ensures ok && Slot(old(contexts)[ctx], event).Some? ==>
                scheduled == old(scheduled) + [Slot(old(contexts)[ctx], event).value]
    {
      hide HasBit, ClearBit;
      var c := contexts[ctx];
      if !HasBit(c.events, event) {
        return false;
      }
      c := c.(events := ClearBit(c.events, event));
      var slot := Slot(c, event);
      if slot.Some? {
        scheduled := scheduled + [slot.value];
      }
      contexts := contexts[ctx := With(c, event, None)];
      return true;
    }

    /** The block of addEvent under the lock of the context. */
    method AddAt(ctx: Ctx, event: Event, ok: bool) returns (result: int)
      requires Valid() && ctx < |contexts|
      modifies this
      ensures Valid() && trace == old(trace) + [Add(ctx, event, ok)] && view == Step(old(view), Add(ctx, event, ok))
      ensures result == if !Holds(old(view), ctx, event) && ok then 0 else -1
      ensures scheduled == old(scheduled)
      ensures if result == 0 then
                && view.slots == old(view).slots[(ctx, event) := |old(view).regs|]
                && view.regs == old(view).regs + [Registration(ctx, event, Registered)]
              else view == old(view)
    {
      hide ContextsOk, Run, Inv, HasBit, SetBit, ClearBit;
      ContextAt(contexts, view.slots, ctx, event);
      if HasBit(contexts[ctx].events, event) || !ok {
        Do(Add(ctx, event, ok));
        return -1;
      }
      FilledContexts(contexts, view.slots, ctx, event, added);
      pending := pending + 1;
      var c := contexts[ctx];
      c := c.(events := SetBit(c.events, event));
      contexts := contexts[ctx := With(c, event, Some(added))];
      Do(Add(ctx, event, ok));
      added := added + 1;
      return 0;
    }

    /** The block of delEvent under the lock of the context. A failing epoll_ctl returns -1 from a
        function of type bool: the caller reads true although nothing has been deleted. */
    method DeleteAt(ctx: Ctx, event: Event, ok: bool) returns (result: bool)
      requires Valid() && ctx < |contexts|
      modifies this
      ensures Valid() && trace == old(trace) + [Delete(ctx, event, ok)]
      ensures view == Step(old(view), Delete(ctx, event, ok))
      ensures (result <==> Holds(old(view), ctx, event)) && result == ReadsTrue(old(view), Delete(ctx, event, ok))
      ensures scheduled == old(scheduled)
      ensures view.slots == if ok then old(view).slots - {(ctx, event)} else old(view).slots
    {
      hide ContextsOk, Run, Inv, HasBit, SetBit, ClearBit, IdsAt;
      DeleteMeans(view, ctx, event, ok);
      ContextAt(contexts, view.slots, ctx, event);
      if !HasBit(contexts[ctx].events, event) {
        Do(Delete(ctx, event, ok));
        return false;
      }
      if !ok {
        Do(Delete(ctx, event, ok));
        return true;
      }
      ClearedContexts(contexts, view.slots, ctx, event);
      InRange(view, ctx, event);
      pending := pending - 1;
      var c := contexts[ctx];
      c := c.(events := ClearBit(c.events, event));
      contexts := contexts[ctx := With(c, event, None)];
      Do(Delete(ctx, event, ok));
      return true;
    }

    lemma InRange(s: State, ctx: Ctx, event: Event)
      requires s == Run(trace) && Holds(s, ctx, event)
      ensures s.slots[(ctx, event)] < |s.regs|
    {
      Always(trace);
    }

    /** Trigger a registered direction and take it off the count; `s` is the state so far. */
    method Settle(ctx: Ctx, event: Event, ghost s: State)
      requires Counts(s) && Inv(s) && ctx < |contexts| && Holds(s, ctx, event)
      modifies `contexts, `scheduled, `pending
      ensures Counts(Release(s, ctx, event, Scheduled)) && Inv(Release(s, ctx, event, Scheduled))
      ensures |contexts| == |old(contexts)|
      ensures forall c :: 0 <= c < |contexts| ==> contexts[c].fd == old(contexts)[c].fd
    {
      hide ContextsOk, Run, Cleared, SlotsOk, LogOk, TableOk;
      ContextAt(contexts, s.slots, ctx, event);
      ClearedContexts(contexts, s.slots, ctx, event);
      ReleaseKeeps(s, ctx, event, Scheduled);
      HeldIsNumbered(s, ctx, event);
      ghost var c := contexts[ctx];
      assert Cleared(c, event).fd == c.fd by {
        ClearedFd(c, event);
      }
      var _ := TriggerEvent(ctx, event);
      pending := pending - 1;
    }

    /** The block of cancelEvent under the lock of the context; a failing epoll_ctl reads as true. */
    method CancelAt(ctx: Ctx, event: Event, ok: bool) returns (result: bool)
      requires Valid() && ctx < |contexts|
      modifies this
      ensures Valid() && trace == old(trace) + [Cancel(ctx, event, ok)]
      ensures view == Step(old(view), Cancel(ctx, event, ok))
      ensures (result <==> Holds(old(view), ctx, event)) && result == ReadsTrue(old(view), Cancel(ctx, event, ok))
      ensures scheduled == old(scheduled) + if ok then IdsAt(old(view), ctx, event) else []
      ensures view.slots == if ok then old(view).slots - {(ctx, event)} else old(view).slots
    {
      hide ContextsOk, Run, Inv, HasBit, ClearBit, IdsAt;
      CancelMeans(view, ctx, event, ok);
      ContextAt(contexts, view.slots, ctx, event);
      if !HasBit(contexts[ctx].events, event) {
        Do(Cancel(ctx, event, ok));
        return false;
      }
      if ok {
        Always(trace);
        Settle(ctx, event, view);
      }
      Do(Cancel(ctx, event, ok));
      return true;
    }

    /** The block of cancelAll under the lock of the context. */
    method CancelAllAt(ctx: Ctx, ok: bool) returns (result: bool)
      requires Valid() && ctx < |contexts|
      modifies this
      ensures Valid() && trace == old(trace) + [CancelAll(ctx, ok)] && view == Step(old(view), CancelAll(ctx, ok))
      ensures result <==> Holds(old(view), ctx, READ) || Holds(old(view), ctx, WRITE)
      ensures result == ReadsTrue(old(view), CancelAll(ctx, ok))
      ensures scheduled ==
                old(scheduled) + if ok then IdsAt(old(view), ctx, READ) + IdsAt(old(view), ctx, WRITE) else []
      ensures view.slots == if ok then old(view).slots - {(ctx, READ), (ctx, WRITE)} else old(view).slots
      ensures result && ok ==> !Holds(view, ctx, READ) && !Holds(view, ctx, WRITE) && contexts[ctx].events == 0
    {
      hide ContextsOk, Run, Inv, HasBit, ClearBit, Step, Release, IdsAt;
      CancelAllStep(view, ctx, ok);
      CancelAllMeans(view, ctx, ok);
      ContextAt(contexts, view.slots, ctx, READ);
      if contexts[ctx].events == 0 {
        Do(CancelAll(ctx, ok));
        return false;
      }
      if ok {
        Always(trace);
        hide Holds, Counts;
        ghost var s := Release(view, ctx, READ, Scheduled);
        SettleIf(ctx, READ, view);
        SettleIf(ctx, WRITE, s);
        NoBitLeft(ctx, Release(s, ctx, WRITE, Scheduled));
      }
      hide Holds, Counts;
      Do(CancelAll(ctx, ok));
      return true;
    }

    lemma NoBitLeft(ctx: Ctx, s: State)
      requires Counts(s) && ctx < |contexts| && !Holds(s, ctx, READ) && !Holds(s, ctx, WRITE)
      ensures contexts[ctx].events == 0
    {
      ContextAt(contexts, s.slots, ctx, READ);
    }

    /** Trigger a direction if it is registered. */
    method SettleIf(ctx: Ctx, event: Event, ghost s: State)
      requires Counts(s) && Inv(s) && ctx < |contexts|
      modifies `contexts, `scheduled, `pending
      ensures Counts(Release(s, ctx, event, Scheduled)) && Inv(Release(s, ctx, event, Scheduled))
      ensures |contexts| == |old(contexts)|
      ensures forall c :: 0 <= c < |contexts| ==> contexts[c].fd == old(contexts)[c].fd
    {
      hide ContextsOk, Run, Inv, HasBit, ClearBit;
      ContextAt(contexts, s.slots, ctx, event);
      if HasBit(contexts[ctx].events, event) {
        Settle(ctx, event, s);
      }
    }

    /** One reported event in `idle`. As written, the report is not masked with the registered
        directions before they are triggered, and the program aborts in the cases of Unmasked. */
    method DispatchAt(ctx: Ctx, report: Report, ok: bool) returns (aborted: bool)
      requires Valid() && ctx < |contexts|
      modifies this
      ensures aborted <==> ok && Unmasked(old(view), ctx, ReadyOf(old(view), ctx, report))
      ensures trace == old(trace) + [Dispatch(ctx, ReadyOf(old(view), ctx, report), ok)]
      ensures view == Step(old(view), Dispatch(ctx, ReadyOf(old(view), ctx, report), ok)) && view.aborted == aborted
      ensures !aborted ==> Valid()
      ensures var read := report.input || ((report.error || report.hangup) && Holds(old(view), ctx, READ));
              var write := report.output || ((report.error || report.hangup) && Holds(old(view), ctx, WRITE));
              && (aborted <==>
                    && ok
                    && ((read && Holds(old(view), ctx, READ)) || (write && Holds(old(view), ctx, WRITE)))
                    && ((read && !Holds(old(view), ctx, READ)) || (write && !Holds(old(view), ctx, WRITE))))
              && (!aborted ==>
                    scheduled == old(scheduled) + if !ok then [] else
                      (if read then IdsAt(old(view), ctx, READ) else [])
                      + (if write then IdsAt(old(view), ctx, WRITE) else []))
    {
      hide ContextsOk, Run, Inv, HasBit, ClearBit, Step, Release, IdsAt;
      DispatchMeans(view, ctx, report, ok);
      var c := contexts[ctx];
      ContextAt(contexts, view.slots, ctx, READ);
      ContextAt(contexts, view.slots, ctx, WRITE);
      var failed := report.error || report.hangup;
      var read := report.input || (failed && HasBit(c.events, READ));
      var write := report.output || (failed && HasBit(c.events, WRITE));
      ghost var op := Dispatch(ctx, ReadyOf(view, ctx, report), ok);
      assert op.ready == Bits(read, write);
      DispatchStepIs(view, ctx, op.ready, ok);
      ReleaseAlone(view, ctx, READ);
      if !((read && HasBit(c.events, READ)) || (write && HasBit(c.events, WRITE))) || !ok {
        Do(op);
        return false;
      }
      Always(trace);
      ghost var s := view;
      if read {
        if !HasBit(contexts[ctx].events, READ) {
          Do(op);
          return true;
        }
        Settle(ctx, READ, s);
        s := Release(s, ctx, READ, Scheduled);
      }
      if write {
        ContextAt(contexts, s.slots, ctx, WRITE);
        if !HasBit(contexts[ctx].events, WRITE) {
          Do(op);
          return true;
        }
        ReleaseAlone(s, ctx, WRITE);
        Settle(ctx, WRITE, s);
        s := Release(s, ctx, WRITE, Scheduled);
      }
      Do(op);
      return false;
    }

    /** The lookup of addEvent under the read lock. */
    method LookUp(p: nat, fd: nat) returns (found: Option<Ctx>)
      requires Valid() && p !in growers
      modifies this
      ensures Valid() && trace == old(trace) + [Lookup(p, fd)] && view == Step(old(view), Lookup(p, fd))
      ensures table == old(table) && contexts == old(contexts) && scheduled == old(scheduled)
      ensures found == if fd < |table| then Some(table[fd]) else None
      ensures found.Some? ==> found.value < |view.fds| && view.fds[found.value] == fd
      ensures found.None? ==> fd >= INITIAL_SIZE && p in growers && growers[p] == fd
    {
      hide Run, Inv, ContextsOk, Resize;
      TableIsOfFds(view);
      if fd < |table| {
        found := Some(table[fd]);
        assert growers - {p} == growers;
      } else {
        found := None;
        growers := growers[p := fd];
      }
      Do(Lookup(p, fd));
    }

    /** contextResize under the write lock. */
    method GrowTable(p: nat)
      requires Valid() && p in growers
      modifies this
      ensures Valid() && trace == old(trace) + [Grow(p)] && view == Step(old(view), Grow(p))
      ensures |table| == old(growers)[p] * 3 / 2 && old(growers)[p] >= INITIAL_SIZE
      ensures growers == old(growers) - {p}
      ensures IsResized(old(table), old(contexts), table, contexts)
    {
      hide Run, Inv, ContextsOk, Resize;
      var size := GrownSize(growers[p]);
      GrowersAreLarge(view, p);
      Always(trace);
      ContextResize(size, view);
      growers := growers - {p};
      Do(Grow(p));
      ResizeKeepsSlots(old(view), size);
      ResizeDown(old(view), size);
    }

    /** The entries of the smaller of the two tables stay, and every new entry leads to a new context of its own
        descriptor; no context is taken away. */
    ghost predicate IsResized(was: seq<Ctx>, before: seq<FdContext>, now: seq<Ctx>, after: seq<FdContext>) {
      && before <= after
      && (forall fd :: 0 <= fd < |was| && fd < |now| ==> now[fd] == was[fd])
      && forall fd :: |was| <= fd < |now| ==>
           now[fd] == |before| + fd - |was| < |after| && after[now[fd]] == FdContext(fd, 0, None, None)
    }

    method ContextResize(size: nat, ghost s: State)
      requires Inv(s) && ContextsOk(contexts, s.slots)
      requires table == s.table && |contexts| == |s.fds|
      requires forall c :: 0 <= c < |contexts| ==> contexts[c].fd == s.fds[c]
      modifies `table, `contexts
      ensures table == Resize(s, size).table && |contexts| == |Resize(s, size).fds|
      ensures forall c :: 0 <= c < |contexts| ==> contexts[c].fd == Resize(s, size).fds[c]
      ensures ContextsOk(contexts, s.slots)
      ensures |table| == size && IsResized(old(table), old(contexts), table, contexts)
    {
      hide Inv, ContextsOk, ContextOk, Resize;
      ResizeDown(s, size);
      if size < |table| {
        table := table[..size];
      }
      while |table| < size
        invariant |table| <= size && (size < |s.table| ==> |table| == size)
        invariant size >= |s.table| ==> |table| >= |s.table|
        invariant table == Resize(s, |table|).table && |contexts| == |Resize(s, |table|).fds|
        invariant forall c :: 0 <= c < |contexts| ==> contexts[c].fd == Resize(s, |table|).fds[c]
        invariant ContextsOk(contexts, s.slots) && |contexts| >= |s.fds|
        invariant IsResized(old(table), old(contexts), table, contexts)
        invariant |table| >= |old(table)| ==> |contexts| == |old(contexts)| + |table| - |old(table)|
      {
        ResizeUp(s, |table|);
        NewContext(contexts, s, |table|);
        contexts := contexts + [FdContext(|table|, 0, None, None)];
        table := table + [|contexts| - 1];
      }
    }

    /** A dispatch that does not abort; after one that does there is no manager left to use. */
    method DispatchUnlessStale(ctx: Ctx, report: Report, ok: bool)
      requires Valid() && ctx < |contexts| && !report.error && !report.hangup
      modifies this
      ensures Valid()
      ensures var op := Dispatch(ctx, Bits(report.input, report.output), ok);
              if Unmasked(old(view), ctx, op.ready) then trace == old(trace) && view == old(view)
              else trace == old(trace) + [op] && view == Step(old(view), op)
    {
      hide ContextsOk, Run, Inv, HasBit, Step, Release;
      ContextAt(contexts, view.slots, ctx, READ);
      ContextAt(contexts, view.slots, ctx, WRITE);
      var reading, writing := HasBit(contexts[ctx].events, READ), HasBit(contexts[ctx].events, WRITE);
      var stale := (report.input && !reading) || (report.output && !writing);
      if !stale || !((report.input && reading) || (report.output && writing)) {
        var aborted := DispatchAt(ctx, report, ok);
        assert !aborted;
      }
    }

    /** A step of a thread other than `p`. */
    method Other(op: Operation, p: nat)
      requires Valid() && Foreign(op, p)
      modifies this
      ensures Valid()
      ensures (trace == old(trace) && view == old(view)) || (trace == old(trace) + [op] && view == Step(old(view), op))
    {
      hide Run, Inv, ContextsOk, Resize, Counts, Holds, Release, Step, Unmasked;
      match op {
      case Lookup(q, fd) => {
        if q !in growers && fd >= 0 {
          var _ := LookUp(q, fd);
        }
      }
      case Grow(q) => {
        if q in growers {
          GrowTable(q);
        }
      }
      case Add(ctx, event, ok) => {
        if ctx < |contexts| {
          var _ := AddAt(ctx, event, ok);
        }
      }
      case Delete(ctx, event, ok) => {
        if ctx < |contexts| {
          var _ := DeleteAt(ctx, event, ok);
        }
      }
      case Cancel(ctx, event, ok) => {
        if ctx < |contexts| {
          var _ := CancelAt(ctx, event, ok);
        }
      }
      case CancelAll(ctx, ok) => {
        if ctx < |contexts| {
          var _ := CancelAllAt(ctx, ok);
        }
      }
      case Dispatch(ctx, ready, ok) => {
        if ctx < |contexts| {
          DispatchUnlessStale(ctx, Report(ready.read, ready.write, false, false), ok);
        }
      }
      }
    }

    /** Threads other than `p` use the manager. */
    method Others(ops: seq<Operation>, p: nat)
      requires Valid() && forall i :: 0 <= i < |ops| ==> Foreign(ops[i], p)
      modifies this
      ensures Valid() && old(trace) <= trace
      ensures old(view.fds) <= view.fds
      ensures (p in growers <==> p in old(growers)) && (p in growers ==> growers[p] == old(growers)[p])
    {
      hide Run, Inv, ContextsOk, Resize, Counts, Holds, Release, Step;
      for i := 0 to |ops|
        invariant Valid() && old(trace) <= trace
        invariant old(view.fds) <= view.fds
        invariant (p in growers <==> p in old(growers)) && (p in growers ==> growers[p] == old(growers)[p])
      {
        StepKeepsFds(view, ops[i]);
        StepKeepsGrower(view, ops[i], p);
        Other(ops[i], p);
      }
    }

    /** A lookup under the read lock, perhaps a growth under the write lock, and the registration under
        the lock of the context, with other threads in between; `before` is the state in which the
        lock of the context is taken, and `grown` the length of the run when the table has grown. */
    method AddEvent(p: nat, fd: nat, event: Event, ok: bool, atGrowth: seq<Operation>, atLock: seq<Operation>)
      returns (result: int, ghost ctx: Ctx, ghost before: State, ghost grown: nat)
      requires Valid() && p !in growers && forall i :: 0 <= i < |atGrowth| ==> Foreign(atGrowth[i], p)
      requires forall i :: 0 <= i < |atLock| ==> Foreign(atLock[i], p)
      modifies this
      ensures Valid() && old(trace) + [Lookup(p, fd)] < trace
      ensures trace[|trace| - 1] == Add(ctx, event, ok) && before == Run(trace[..|trace| - 1])
      ensures fd < |old(table)| ==> ctx == old(table)[fd]
      ensures fd >= |old(table)| ==>
                && |old(trace)| + 1 < grown < |trace| && trace[grown - 1] == Grow(p)
                && var t := Run(trace[..grown]).table; |t| == fd * 3 / 2 > fd && ctx == t[fd]
      ensures ctx < |before.fds| && before.fds[ctx] == fd && view == Step(before, Add(ctx, event, ok))
      ensures result == 0 <==> !Holds(before, ctx, event) && ok
      ensures result == 0 || result == -1
    {
      hide Run, Inv, ContextsOk, Resize, Counts, Step;
      var found := LookUp(p, fd);
      ghost var grew := trace;
      if found.None? {
        Others(atGrowth, p);
        GrowTable(p);
        TableIsOfFds(view);
        found := Some(table[fd]);
        grew := trace;
      }
      ghost var atGrown := table;
      assert Run(grew).table == atGrown;
      grown := |grew|;
      Others(atLock, p);
      ctx, before := found.value, view;
      ghost var locked := trace;
      result := AddAt(found.value, event, ok);
      assert trace[..|trace| - 1] == locked && trace[..grown] == grew;
    }

    lemma GrowersAreLarge(s: State, p: nat)
      requires s == Run(trace) && p in s.growers
      ensures s.growers[p] >= INITIAL_SIZE
    {
      Always(trace);
    }

    lemma TableIsOfFds(s: State)
      requires s == Run(trace)
      ensures INITIAL_SIZE <= |s.table|
      ensures forall fd :: 0 <= fd < |s.table| ==> s.table[fd] < |s.fds| && s.fds[s.table[fd]] == fd
    {
      Always(trace);
    }

    method DelEvent(p: nat, fd: nat, event: Event, ok: bool, atLock: seq<Operation>)
      returns (result: bool, ghost ctx: Ctx, ghost before: State)
      requires Valid() && forall i :: 0 <= i < |atLock| ==> Foreign(atLock[i], p)
      modifies this
      ensures Valid() && old(trace) <= trace
      ensures fd >= |old(table)| ==> !result && trace == old(trace) && view == before == old(view)
      ensures fd < |old(table)| ==>
                && old(trace) < trace && trace[|trace| - 1] == Delete(ctx, event, ok)
                && before == Run(trace[..|trace| - 1])
                && ctx == old(table)[fd] < |before.fds| && before.fds[ctx] == fd
                && view == Step(before, Delete(ctx, event, ok)) && (result <==> Holds(before, ctx, event))
    {
      hide Run, Inv, ContextsOk, Resize, Counts, Step;
      ctx, before := 0, view;
      if |table| <= fd {
        return false, 0, view;
      }
      TableIsOfFds(view);
      var found := table[fd];
      Others(atLock, p);
      ctx, before := found, view;
      ghost var locked := trace;
      result := DeleteAt(found, event, ok);
      assert trace[..|trace| - 1] == locked;
    }
  }
}
