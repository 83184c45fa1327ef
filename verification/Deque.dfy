/**
 The bounded Chase-Lev deque of `src/work_stealing_deque.cpp`.

 One owner thread pushes and pops at `bottom`, any number of thieves take at `top`.
 Every atomic access of the source is one step of the machine below; a run is any
 list of steps, so it stands for any interleaving. `Code` selects line 67 either as
 the source has it or with the value that line means to store.
*/
module DequeMachine {
  import opened Wrappers

  const CAPACITY: nat := 65536

  /** The identity of a RunnableTask node. */
  type Task = nat
  type Slot = Option<Task>

  /** `AsWritten` stores the local `top` that a failed compare-exchange has overwritten;
      `Restored` stores the value expected by the compare-exchange. */
  datatype Code = AsWritten | Restored

  /** The owner's program counter and registers; each value names the access it does next. */
  datatype Owner =
    | Idle
    | PushLoadTop(task: Task, b: nat)
    | PushStoreSlot(task: Task, b: nat)
    | PushStoreBottom(task: Task, b: nat)
    | PopStoreBottom(b: nat)
    | PopLoadTop(b: nat)
    | PopResetBottom(t: nat)
    | PopLoadSlot(b: nat, t: nat)
    | PopCas(b: nat, got: Slot)
    | PopRestore(b: nat, observed: nat, got: Slot)

  /** A thief's program counter and registers. */
  datatype Thief =
    | Resting
    | StealLoadBottom(t: nat)
    | StealLoadSlot(t: nat)
    | StealCas(t: nat, got: Slot)

  /** `popped` and `stolen` list the non-null results returned so far. */
  datatype State = State(
    top: nat,
    bottom: nat,
    slots: seq<Slot>,
    owner: Owner,
    thieves: map<nat, Thief>,
    popped: seq<Task>,
    stolen: seq<Task>)

  datatype Action = BeginPush(task: Task) | BeginPop | OwnerStep | ThiefStep(i: nat)

  function Init(): State {
    State(0, 0, seq(CAPACITY, _ => None), Idle, map[], [], [])
  }

  function Returned(r: Slot): seq<Task> {
    if r.Some? then [r.value] else []
  }

  function ThiefOf(s: State, i: nat): Thief {
    if i in s.thieves then s.thieves[i] else Resting
  }

  function SlotAt(slots: seq<Slot>, i: nat): Slot {
    if |slots| == CAPACITY then slots[i % CAPACITY] else None
  }

  /** The test of line 43, with the unsigned subtraction written out. */
  predicate Full(b: nat, t: nat) {
    b < t || b - t >= CAPACITY
  }

  function OwnerNext(code: Code, s: State): State {
    match s.owner
    case Idle => s
    case PushLoadTop(task, b) =>
      s.(owner := if Full(b, s.top) then Idle else PushStoreSlot(task, b))
    case PushStoreSlot(task, b) =>
      s.(slots := if |s.slots| == CAPACITY then s.slots[b % CAPACITY := Some(task)] else s.slots,
         owner := PushStoreBottom(task, b))
    case PushStoreBottom(task, b) =>
      s.(bottom := b + 1, owner := Idle)
    case PopStoreBottom(b) =>
      s.(bottom := b, owner := PopLoadTop(b))
    case PopLoadTop(b) =>
      s.(owner := if s.top > b then PopResetBottom(s.top) else PopLoadSlot(b, s.top))
    case PopResetBottom(t) =>
      s.(bottom := t, owner := Idle)
    case PopLoadSlot(b, t) =>
      var got := SlotAt(s.slots, b);
      if t == b then s.(owner := PopCas(b, got))
      else s.(owner := Idle, popped := s.popped + Returned(got))
    case PopCas(b, got) =>
      if s.top == b then s.(top := b + 1, owner := PopRestore(b, b, got))
      else s.(owner := PopRestore(b, s.top, None))
    case PopRestore(b, observed, got) =>
      s.(bottom := (if code.AsWritten? then observed else b) + 1, owner := Idle,
         popped := s.popped + Returned(got))
  }

  function ThiefNext(s: State, i: nat): State {
    match ThiefOf(s, i)
    case Resting => s.(thieves := s.thieves[i := StealLoadBottom(s.top)])
    case StealLoadBottom(t) =>
      s.(thieves := s.thieves[i := if t >= s.bottom then Resting else StealLoadSlot(t)])
    case StealLoadSlot(t) =>
      s.(thieves := s.thieves[i := StealCas(t, SlotAt(s.slots, t))])
    case StealCas(t, got) =>
      if s.top == t then
        s.(top := t + 1, thieves := s.thieves[i := Resting], stolen := s.stolen + Returned(got))
      else s.(thieves := s.thieves[i := Resting])
  }

  function Step(code: Code, s: State, a: Action): State {
    match a
    case BeginPush(task) => if s.owner.Idle? then s.(owner := PushLoadTop(task, s.bottom)) else s
    case BeginPop =>
      if !s.owner.Idle? || s.bottom == 0 then s else s.(owner := PopStoreBottom(s.bottom - 1))
    case OwnerStep => OwnerNext(code, s)
    case ThiefStep(i) => ThiefNext(s, i)
  }

  function Run(code: Code, s: State, acts: seq<Action>): State {
    if acts == [] then s
    else Step(code, Run(code, s, acts[..|acts| - 1]), acts[|acts| - 1])
  }

  // The abstract deque: a sequence whose right end the owner uses and whose left end is stolen from.

  datatype Op = PushOk(x: Task) | PushFull | PopTook(x: Task) | PopEmpty | StealTook(x: Task)

  predicate Allowed(q: seq<Task>, op: Op) {
    match op
    case PushOk(_) => |q| < CAPACITY
    case PushFull => |q| == CAPACITY
    case PopTook(x) => q != [] && q[|q| - 1] == x
    case PopEmpty => q == []
    case StealTook(x) => q != [] && q[0] == x
  }

  function Apply(q: seq<Task>, op: Op): seq<Task> {
    match op
    case PushOk(x) => q + [x]
    case PushFull => q
    case PopTook(_) => if q == [] then q else q[..|q| - 1]
    case PopEmpty => q
    case StealTook(_) => if q == [] then q else q[1..]
  }

  /** The operations `ops`, in this order, are a legal history of an abstract deque starting empty. */
  predicate Legal(ops: seq<Op>) {
    ops == [] ||
    (Legal(ops[..|ops| - 1]) && Allowed(Contents(ops[..|ops| - 1]), ops[|ops| - 1]))
  }

  function Contents(ops: seq<Op>): seq<Task> {
    if ops == [] then [] else Apply(Contents(ops[..|ops| - 1]), ops[|ops| - 1])
  }

  function Pushes(ops: seq<Op>): seq<Task> {
    if ops == [] then []
    else
      var rest := Pushes(ops[..|ops| - 1]);
      var op := ops[|ops| - 1];
      if op.PushOk? then rest + [op.x] else rest
  }

  function Pops(ops: seq<Op>): seq<Task> {
    if ops == [] then []
    else
      var rest := Pops(ops[..|ops| - 1]);
      var op := ops[|ops| - 1];
      if op.PopTook? then rest + [op.x] else rest
  }

  function Steals(ops: seq<Op>): seq<Task> {
    if ops == [] then []
    else
      var rest := Steals(ops[..|ops| - 1]);
      var op := ops[|ops| - 1];
      if op.StealTook? then rest + [op.x] else rest
  }

  /** The operation that takes effect in a step, if any: its linearization point. */
  function Effect(s: State, a: Action): seq<Op> {
    match a
    case BeginPush(_) => []
    case BeginPop => if s.owner.Idle? && s.bottom == 0 then [PopEmpty] else []
    case OwnerStep => OwnerEffect(s)
    case ThiefStep(i) =>
      var th := ThiefOf(s, i);
      if th.StealCas? && s.top == th.t && th.got.Some? then [StealTook(th.got.value)] else []
  }

  function OwnerEffect(s: State): seq<Op> {
    match s.owner
    case PushLoadTop(_, b) => if Full(b, s.top) then [PushFull] else []
    case PushStoreBottom(task, _) => [PushOk(task)]
    case PopLoadTop(b) =>
      if s.top > b then [PopEmpty]
      else if s.top == b then []
      else if SlotAt(s.slots, b).Some? then [PopTook(SlotAt(s.slots, b).value)]
      else []
    case PopCas(b, got) =>
      if s.top != b then [PopEmpty] else if got.Some? then [PopTook(got.value)] else []
    case _ => []
  }

  function History(code: Code, s: State, acts: seq<Action>): seq<Op> {
    if acts == [] then []
    else
      var before := acts[..|acts| - 1];
      History(code, s, before) + Effect(Run(code, s, before), acts[|acts| - 1])
  }

  // The invariant.

  /** One past the last index that still belongs to the abstract deque. */
  function Limit(s: State): nat {
    match s.owner
    case PopLoadTop(b) => b + 1
    case PopResetBottom(t) => t
    case PopLoadSlot(b, t) => if t < b then b else b + 1
    case PopCas(b, _) => b + 1
    case PopRestore(b, _, _) => b + 1
    case _ => s.bottom
  }

  ghost predicate Window(s: State, q: seq<Task>, limit: nat) {
    && |s.slots| == CAPACITY
    && s.top <= limit
    && limit - s.top == |q| <= CAPACITY
    && forall i :: 0 <= i < |q| ==> s.slots[(s.top + i) % CAPACITY] == Some(q[i])
  }

  ghost predicate OwnerInv(s: State)
    requires |s.slots| == CAPACITY
  {
    match s.owner
    case Idle => true
    case PushLoadTop(_, b) => b == s.bottom
    case PushStoreSlot(_, b) => b == s.bottom && b - s.top < CAPACITY
    case PushStoreBottom(task, b) =>
      b == s.bottom && b - s.top < CAPACITY && s.slots[b % CAPACITY] == Some(task)
    case PopStoreBottom(b) => s.bottom == b + 1
    case PopLoadTop(b) => s.bottom == b
    case PopResetBottom(t) => s.top == t && s.bottom <= t
    case PopLoadSlot(b, t) =>
      s.bottom == b && t <= b && (t < b ==> s.slots[b % CAPACITY].Some?) && (t == b ==> b <= s.top)
    case PopCas(b, got) => s.bottom == b && b <= s.top && got == s.slots[b % CAPACITY]
    case PopRestore(b, observed, got) =>
      s.bottom == b && s.top == b + 1 && (got.Some? ==> observed == b) && (got.None? ==> observed == b + 1)
  }

  ghost predicate ThiefInv(s: State, th: Thief)
    requires |s.slots| == CAPACITY
  {
    match th
    case Resting => true
    case StealLoadBottom(t) => t <= s.top
    case StealLoadSlot(t) => t <= s.top && (t == s.top ==> t < Limit(s))
    case StealCas(t, got) =>
      t <= s.top && (t == s.top ==> t < Limit(s) && got == s.slots[t % CAPACITY])
  }

  /** What the owner has taken but not yet returned. */
  function Held(s: State): seq<Task> {
    match s.owner
    case PopLoadSlot(b, t) => if t < b then Returned(SlotAt(s.slots, b)) else []
    case PopRestore(_, _, got) => Returned(got)
    case _ => []
  }

  lemma OpsSnoc(ops: seq<Op>, op: Op)
    ensures (ops + [op])[..|ops|] == ops
    ensures Contents(ops + [op]) == Apply(Contents(ops), op)
    ensures Legal(ops + [op]) <==> Legal(ops) && Allowed(Contents(ops), op)
    ensures Pushes(ops + [op]) == Pushes(ops) + (if op.PushOk? then [op.x] else [])
    ensures Pops(ops + [op]) == Pops(ops) + (if op.PopTook? then [op.x] else [])
    ensures Steals(ops + [op]) == Steals(ops) + (if op.StealTook? then [op.x] else [])
  {
    assert (ops + [op])[..|ops|] == ops;
  }

  /** The shared memory and every register agree with the abstract contents `q`. */
  ghost predicate Agrees(s: State, q: seq<Task>) {
    && Window(s, q, Limit(s))
    && OwnerInv(s)
    && (forall i :: i in s.thieves ==> ThiefInv(s, s.thieves[i]))
  }

  ghost predicate Inv(s: State, ops: seq<Op>) {
    && Agrees(s, Contents(ops))
    && Legal(ops)
    && s.popped + Held(s) == Pops(ops)
    && s.stolen == Steals(ops)
  }

  lemma ModDistinct(i: nat, j: nat)
    requires i < j < i + CAPACITY
    ensures i % CAPACITY != j % CAPACITY
  {
  }

  function After(q: seq<Task>, e: seq<Op>): seq<Task>
    requires |e| <= 1
  {
    if e == [] then q else Apply(q, e[0])
  }

  lemma PushKeeps(s: State, q: seq<Task>)
    requires Agrees(s, q) && s.owner.PushStoreSlot?
    ensures Agrees(OwnerNext(Restored, s), q)
  {
    var b := s.owner.b;
    var s' := OwnerNext(Restored, s);
    forall i | 0 <= i < |q|
      ensures s'.slots[(s.top + i) % CAPACITY] == Some(q[i])
    {
      ModDistinct(s.top + i, b);
    }
    forall i | i in s.thieves
      ensures ThiefInv(s', s.thieves[i])
    {
      if s.thieves[i].StealCas? && s.thieves[i].t == s.top {
        ModDistinct(s.top, b);
      }
    }
  }

  lemma ClaimKeeps(s: State, q: seq<Task>)
    requires Agrees(s, q) && s.owner.PopLoadTop? && s.top < s.owner.b
    ensures SlotAt(s.slots, s.owner.b).Some? && q != []
    ensures q[|q| - 1] == SlotAt(s.slots, s.owner.b).value
    ensures Agrees(OwnerNext(Restored, s), q[..|q| - 1])
  {
    assert s.slots[(s.top + (|q| - 1)) % CAPACITY] == Some(q[|q| - 1]);
  }

  lemma CasKeeps(s: State, q: seq<Task>)
    requires Agrees(s, q) && s.owner.PopCas?
    ensures s.top == s.owner.b ==> q != [] && s.owner.got == Some(q[0]) && |q| == 1
    ensures s.top != s.owner.b ==> q == []
    ensures Agrees(OwnerNext(Restored, s), [])
  {
    if s.top == s.owner.b {
      assert s.slots[(s.top + 0) % CAPACITY] == Some(q[0]);
    }
  }

  lemma PushLoadKeeps(s: State, q: seq<Task>)
    requires Agrees(s, q) && s.owner.PushLoadTop?
    ensures Full(s.owner.b, s.top) <==> |q| == CAPACITY
    ensures Agrees(OwnerNext(Restored, s), q)
  {
  }

  lemma PushPublishKeeps(s: State, q: seq<Task>)
    requires Agrees(s, q) && s.owner.PushStoreBottom?
    ensures |q| < CAPACITY
    ensures Agrees(OwnerNext(Restored, s), q + [s.owner.task])
  {
  }

  lemma PopLoadTopKeeps(s: State, q: seq<Task>)
    requires Agrees(s, q) && s.owner.PopLoadTop? && s.top >= s.owner.b
    ensures s.top > s.owner.b ==> q == []
    ensures Agrees(OwnerNext(Restored, s), q)
  {
  }

  lemma PopTailKeeps(s: State, q: seq<Task>)
    requires Agrees(s, q)
    requires s.owner.PopStoreBottom? || s.owner.PopResetBottom? || s.owner.PopLoadSlot? || s.owner.PopRestore?
    ensures Agrees(OwnerNext(Restored, s), q)
  {
  }

  lemma OwnerKeeps(s: State, q: seq<Task>)
    requires Agrees(s, q)
    ensures OwnerEffect(s) != [] ==> Allowed(q, OwnerEffect(s)[0])
    ensures Agrees(OwnerNext(Restored, s), After(q, OwnerEffect(s)))
  {
    match s.owner
    case Idle =>
    case PushLoadTop(_, _) => PushLoadKeeps(s, q);
    case PushStoreSlot(_, _) => PushKeeps(s, q);
    case PushStoreBottom(_, _) => PushPublishKeeps(s, q);
    case PopLoadTop(b) => if s.top < b { ClaimKeeps(s, q); } else { PopLoadTopKeeps(s, q); }
    case PopCas(_, _) => CasKeeps(s, q);
    case _ => PopTailKeeps(s, q);
  }

  lemma OwnerLogs(s: State, pops: seq<Task>)
    requires |s.slots| == CAPACITY && OwnerInv(s)
    requires s.popped + Held(s) == pops
    ensures OwnerNext(Restored, s).stolen == s.stolen
    ensures
      var s' := OwnerNext(Restored, s);
      var e := OwnerEffect(s);
      s'.popped + Held(s') == pops + (if e != [] && e[0].PopTook? then [e[0].x] else [])
  {
    assert s.popped + [] == s.popped;
  }

  lemma Extend(s: State, ops: seq<Op>, s': State, e: seq<Op>)
    requires Legal(ops) && |e| <= 1
    requires e != [] ==> Allowed(Contents(ops), e[0])
    requires Agrees(s', After(Contents(ops), e))
    requires s'.popped + Held(s') == Pops(ops) + (if e != [] && e[0].PopTook? then [e[0].x] else [])
    requires s'.stolen == Steals(ops) + (if e != [] && e[0].StealTook? then [e[0].x] else [])
    ensures Inv(s', ops + e)
  {
    assert ops + [] == ops;
    if e != [] {
      OpsSnoc(ops, e[0]);
      assert e == [e[0]];
    } else {
      assert ops + e == ops;
    }
  }

  lemma OwnerKeepsInv(s: State, ops: seq<Op>)
    requires Inv(s, ops)
    ensures Inv(OwnerNext(Restored, s), ops + OwnerEffect(s))
  {
    OwnerKeeps(s, Contents(ops));
    OwnerLogs(s, Pops(ops));
    Extend(s, ops, OwnerNext(Restored, s), OwnerEffect(s));
  }

  /** A thief whose compare-exchange succeeds holds the leftmost element of the abstract deque. */
  lemma StealTakesFirst(s: State, q: seq<Task>, i: nat)
    requires Agrees(s, q) && ThiefOf(s, i).StealCas? && ThiefOf(s, i).t == s.top
    ensures q != [] && ThiefOf(s, i).got == Some(q[0])
    ensures Agrees(ThiefNext(s, i), q[1..])
  {
    assert s.slots[(s.top + 0) % CAPACITY] == Some(q[0]);
    var s' := ThiefNext(s, i);
    forall k | 0 <= k < |q[1..]|
      ensures s'.slots[(s'.top + k) % CAPACITY] == Some(q[1..][k])
    {
      assert s.slots[(s.top + (k + 1)) % CAPACITY] == Some(q[k + 1]);
    }
    assert s.owner.PopLoadSlot? && s.owner.t < s.owner.b ==> s'.top <= s.owner.b;
  }

  lemma ThiefPreparesKeeps(s: State, q: seq<Task>, i: nat)
    requires Agrees(s, q) && !(ThiefOf(s, i).StealCas? && ThiefOf(s, i).t == s.top)
    ensures Agrees(ThiefNext(s, i), q)
  {
    var s' := ThiefNext(s, i);
    assert s' == s.(thieves := s.thieves[i := s'.thieves[i]]) && ThiefInv(s, s'.thieves[i]);
    hide ThiefNext;
    OtherThief(s, q, i, s'.thieves[i]);
  }

  lemma OtherThief(s: State, q: seq<Task>, i: nat, th: Thief)
    requires Agrees(s, q) && ThiefInv(s, th)
    ensures Agrees(s.(thieves := s.thieves[i := th]), q)
  {
    var s' := s.(thieves := s.thieves[i := th]);
    forall j | j in s'.thieves
      ensures ThiefInv(s', s'.thieves[j])
    {
      assert j != i ==> ThiefInv(s, s.thieves[j]);
    }
  }

  lemma ThiefKeepsInv(s: State, ops: seq<Op>, i: nat)
    requires Inv(s, ops)
    ensures Inv(ThiefNext(s, i), ops + Effect(s, ThiefStep(i)))
  {
    var th := ThiefOf(s, i);
    if th.StealCas? && s.top == th.t {
      StealTakesFirst(s, Contents(ops), i);
    } else {
      ThiefPreparesKeeps(s, Contents(ops), i);
    }
    Extend(s, ops, ThiefNext(s, i), Effect(s, ThiefStep(i)));
  }

  lemma BeginKeeps(s: State, q: seq<Task>, a: Action)
    requires Agrees(s, q) && (a.BeginPush? || a.BeginPop?)
    ensures Agrees(Step(Restored, s, a), q)
    ensures a.BeginPop? && s.owner.Idle? && s.bottom == 0 ==> q == []
    ensures Held(Step(Restored, s, a)) == Held(s)
  {
    hide OwnerNext, ThiefNext, OwnerEffect;
  }

  lemma BeginKeepsInv(s: State, ops: seq<Op>, a: Action)
    requires Inv(s, ops) && (a.BeginPush? || a.BeginPop?)
    ensures Inv(Step(Restored, s, a), ops + Effect(s, a))
  {
    hide OwnerNext, ThiefNext, OwnerEffect, Agrees, Held, Contents, Legal, Pops, Steals;
    BeginKeeps(s, Contents(ops), a);
    Extend(s, ops, Step(Restored, s, a), Effect(s, a));
  }

  lemma StepKeepsInv(s: State, ops: seq<Op>, a: Action)
    requires Inv(s, ops)
    ensures Inv(Step(Restored, s, a), ops + Effect(s, a))
  {
    hide Inv, OwnerNext, ThiefNext, OwnerEffect;
    match a
    case OwnerStep => OwnerKeepsInv(s, ops);
    case ThiefStep(i) => ThiefKeepsInv(s, ops, i);
    case _ => BeginKeepsInv(s, ops, a);
  }

  /** Over every interleaving, the linearization points form a legal history of an abstract deque,
      and the ring holds exactly what that history leaves in it. */
  lemma {:induction false} Linearizable(acts: seq<Action>)
    ensures Inv(Run(Restored, Init(), acts), History(Restored, Init(), acts))
  {
    if acts == [] {
      assert Contents([]) == [];
    } else {
      var before := acts[..|acts| - 1];
      Linearizable(before);
      StepKeepsInv(Run(Restored, Init(), before), History(Restored, Init(), before), acts[|acts| - 1]);
    }
  }

  lemma {:induction false} LegalConserves(ops: seq<Op>)
    requires Legal(ops)
    ensures multiset(Pushes(ops)) == multiset(Contents(ops)) + multiset(Pops(ops)) + multiset(Steals(ops))
  {
    if ops != [] {
      var rest := ops[..|ops| - 1];
      LegalConserves(rest);
      var op := ops[|ops| - 1];
      assert rest + [op] == ops;
      hide Legal, Contents, Pushes, Pops, Steals, Apply, Allowed;
      OpsSnoc(rest, op);
      OneConserves(Contents(rest), op);
      Balance(Pushes(rest), Contents(rest), Pops(rest), Steals(rest),
              if op.PushOk? then [op.x] else [], Apply(Contents(rest), op),
              if op.PopTook? then [op.x] else [], if op.StealTook? then [op.x] else []);
    }
  }

  /** One more operation added to a balanced account. */
  lemma Balance(pushes: seq<Task>, q: seq<Task>, pops: seq<Task>, steals: seq<Task>,
                pushed: seq<Task>, q': seq<Task>, popped: seq<Task>, stolen: seq<Task>)
    requires multiset(pushes) == multiset(q) + multiset(pops) + multiset(steals)
    requires multiset(q) + multiset(pushed) == multiset(q') + multiset(popped) + multiset(stolen)
    ensures multiset(pushes + pushed) == multiset(q') + multiset(pops + popped) + multiset(steals + stolen)
  {
    assert multiset(pushes + pushed) == multiset(pushes) + multiset(pushed);
    assert multiset(pops + popped) == multiset(pops) + multiset(popped);
    assert multiset(steals + stolen) == multiset(steals) + multiset(stolen);
    forall x: Task
      ensures multiset(pushes + pushed)[x] ==
              (multiset(q') + multiset(pops + popped) + multiset(steals + stolen))[x]
    {
      assert (multiset(q) + multiset(pushed))[x] == (multiset(q') + multiset(popped) + multiset(stolen))[x];
      assert multiset(pushes)[x] == (multiset(q) + multiset(pops) + multiset(steals))[x];
    }
  }

  /** An allowed operation neither makes nor loses a task. */
  lemma OneConserves(q: seq<Task>, op: Op)
    requires Allowed(q, op)
    ensures multiset(q) + multiset(if op.PushOk? then [op.x] else []) ==
            multiset(Apply(q, op)) + multiset(if op.PopTook? then [op.x] else [])
            + multiset(if op.StealTook? then [op.x] else [])
  {
    match op
    case PopTook(_) => assert q == q[..|q| - 1] + [q[|q| - 1]];
    case StealTook(_) => assert q == [q[0]] + q[1..];
    case _ =>
  }

  /** Every published task is live, in the owner's hands, or returned, and it is returned at most
      as often as it was pushed. */
  lemma Conservation(acts: seq<Action>)
    ensures
      var s := Run(Restored, Init(), acts);
      var ops := History(Restored, Init(), acts);
      && multiset(Pushes(ops)) ==
         multiset(Contents(ops)) + multiset(Held(s)) + multiset(s.popped) + multiset(s.stolen)
      && forall x: Task :: multiset(s.popped)[x] + multiset(s.stolen)[x] <= multiset(Pushes(ops))[x]
  {
    Linearizable(acts);
    var s := Run(Restored, Init(), acts);
    LegalConserves(History(Restored, Init(), acts));
    assert multiset(s.popped + Held(s)) == multiset(s.popped) + multiset(Held(s));
  }

  // What the owner's operations answer.

  /** The operation that an answer claims: true from a push that it took the task, null from a pop that it
      found nothing. */
  function PopAnswer(got: Slot): Op {
    if got.Some? then PopTook(got.value) else PopEmpty
  }

  /** The answer given in a step: each operation of the owner ends in one of these. */
  function Answer(s: State, a: Action): seq<Op> {
    match a
    case BeginPop => if s.owner.Idle? && s.bottom == 0 then [PopEmpty] else []
    case OwnerStep => OwnerAnswer(s)
    case _ => []
  }

  function OwnerAnswer(s: State): seq<Op> {
    match s.owner
    case PushLoadTop(_, b) => if Full(b, s.top) then [PushFull] else []
    case PushStoreBottom(task, _) => [PushOk(task)]
    case PopResetBottom(_) => [PopEmpty]
    case PopLoadSlot(b, t) => if t == b then [] else [PopAnswer(SlotAt(s.slots, b))]
    case PopRestore(_, _, got) => [PopAnswer(got)]
    case _ => []
  }

  function Answers(code: Code, s: State, acts: seq<Action>): seq<Op> {
    if acts == [] then []
    else
      var before := acts[..|acts| - 1];
      Answers(code, s, before) + Answer(Run(code, s, before), acts[|acts| - 1])
  }

  /** The answer of an operation that has taken effect and not returned. */
  function Owed(s: State): seq<Op> {
    match s.owner
    case PopResetBottom(_) => [PopEmpty]
    case PopLoadSlot(b, t) => if t < b then [PopAnswer(SlotAt(s.slots, b))] else []
    case PopRestore(_, _, got) => [PopAnswer(got)]
    case _ => []
  }

  /** The operations of the owner in a history. */
  function OfOwner(ops: seq<Op>): seq<Op> {
    if ops == [] then []
    else OfOwner(ops[..|ops| - 1]) + if ops[|ops| - 1].StealTook? then [] else [ops[|ops| - 1]]
  }

  /** The number of operations that the owner has begun. */
  function Begins(code: Code, s: State, acts: seq<Action>): nat {
    if acts == [] then 0
    else
      var before, a := acts[..|acts| - 1], acts[|acts| - 1];
      Begins(code, s, before) +
        if (a.BeginPush? || a.BeginPop?) && Run(code, s, before).owner.Idle? then 1 else 0
  }

  lemma OfOwnerSnoc(ops: seq<Op>, e: seq<Op>)
    requires |e| <= 1
    ensures OfOwner(ops + e) == OfOwner(ops) + if e != [] && !e[0].StealTook? then e else []
  {
    if e == [] {
      assert ops + e == ops;
    } else {
      assert (ops + e)[..|ops|] == ops && e == [e[0]];
    }
  }

  /** What a step adds to the history of the owner is answered in the step, or is owed from then on. */
  lemma StepAnswersOwner(s: State, q: seq<Task>)
    requires Agrees(s, q)
    ensures OwnerAnswer(s) + Owed(OwnerNext(Restored, s)) == Owed(s) + OwnerEffect(s)
    ensures OwnerEffect(s) != [] ==> !OwnerEffect(s)[0].StealTook?
    ensures |OwnerAnswer(s)| == if s.owner.Idle? then 0 else if OwnerNext(Restored, s).owner.Idle? then 1 else 0
  {
    if s.owner.PopLoadTop? && s.top < s.owner.b {
      ClaimKeeps(s, q);
    }
    if s.owner.PopCas? {
      CasKeeps(s, q);
    }
  }

  lemma StepAnswers(s: State, q: seq<Task>, a: Action)
    requires Agrees(s, q)
    ensures var t := Step(Restored, s, a);
            var e := Effect(s, a);
            && |e| <= 1
            && Answer(s, a) + Owed(t) == Owed(s) + (if e != [] && !e[0].StealTook? then e else [])
            && |Answer(s, a)| + (if t.owner.Idle? then 0 else 1) ==
                 (if s.owner.Idle? then 0 else 1)
                 + (if (a.BeginPush? || a.BeginPop?) && s.owner.Idle? then 1 else 0)
  {
    if a.OwnerStep? {
      StepAnswersOwner(s, q);
    }
    hide OwnerNext, OwnerEffect, OwnerAnswer;
  }

  /** Every operation that the owner completes adds exactly one entry to the history, between its beginning
      and its return, and answers what that entry says: push true or false, pop the task or null. */
  lemma {:induction false} AnswersAreTheHistory(acts: seq<Action>)
    ensures AnswersItsHistory(acts)
  {
    hide *;
    if acts == [] {
      NothingAnswered();
    } else {
      var before, a := acts[..|acts| - 1], acts[|acts| - 1];
      AnswersAreTheHistory(before);
      AnswersGoOn(before, a);
      assert before + [a] == acts;
    }
  }

  /** The answers given, and the one owed, are the entries of the owner's operations in the history, in this
      order; and there is one answer for each operation begun, except the one under way. */
  predicate AnswersItsHistory(acts: seq<Action>) {
    var s := Run(Restored, Init(), acts);
    var answers := Answers(Restored, Init(), acts);
    && answers + Owed(s) == OfOwner(History(Restored, Init(), acts))
    && |answers| + (if s.owner.Idle? then 0 else 1) == Begins(Restored, Init(), acts)
  }

  lemma NothingAnswered()
    ensures AnswersItsHistory([])
  {
    hide Step, Effect, Answer;
  }

  lemma AnswersGoOn(acts: seq<Action>, a: Action)
    requires AnswersItsHistory(acts)
    ensures AnswersItsHistory(acts + [a])
  {
    hide Run, History, Answers, Begins, Owed, OfOwner, Effect, Answer, Step, Agrees, Contents;
    var s := Run(Restored, Init(), acts);
    var ops, e := History(Restored, Init(), acts), Effect(s, a);
    RunSnoc(Restored, Init(), acts, a);
    AnswersSnoc(acts, a);
    RunAgrees(acts);
    StepAnswers(s, Contents(ops), a);
    OfOwnerSnoc(ops, e);
    Regroup(Answers(Restored, Init(), acts), Answer(s, a), Owed(s), Owed(Step(Restored, s, a)),
            if e != [] && !e[0].StealTook? then e else [], OfOwner(ops));
  }

  lemma RunAgrees(acts: seq<Action>)
    ensures Agrees(Run(Restored, Init(), acts), Contents(History(Restored, Init(), acts)))
  {
    Linearizable(acts);
    hide Agrees, Contents, Run, History;
  }

  lemma AnswersSnoc(acts: seq<Action>, a: Action)
    ensures var s := Run(Restored, Init(), acts);
            && Answers(Restored, Init(), acts + [a]) == Answers(Restored, Init(), acts) + Answer(s, a)
            && Begins(Restored, Init(), acts + [a]) ==
                 Begins(Restored, Init(), acts) + if (a.BeginPush? || a.BeginPop?) && s.owner.Idle? then 1 else 0
  {
    hide Run, Answer;
    assert (acts + [a])[..|acts|] == acts;
  }

  lemma Regroup(answers: seq<Op>, given: seq<Op>, owed: seq<Op>, owed': seq<Op>, e: seq<Op>, owners: seq<Op>)
    requires answers + owed == owners && given + owed' == owed + e
    ensures (answers + given) + owed' == owners + e
  {
    assert (answers + given) + owed' == answers + (given + owed');
    assert answers + (owed + e) == (answers + owed) + e;
  }

  // The code as written.

  lemma RunSnoc(code: Code, s: State, acts: seq<Action>, a: Action)
    ensures Run(code, s, acts + [a]) == Step(code, Run(code, s, acts), a)
    ensures History(code, s, acts + [a]) == History(code, s, acts) + Effect(Run(code, s, acts), a)
  {
    assert (acts + [a])[..|acts|] == acts;
  }

  /** Step `k` ends a `pop` whose compare-exchange on the last element failed. */
  predicate LosesRace(acts: seq<Action>, k: nat)
    requires k < |acts|
  {
    var s := Run(AsWritten, Init(), acts[..k]);
    acts[k].OwnerStep? && s.owner.PopRestore? && s.owner.observed != s.owner.b
  }

  /** Between owner operations the ring of the code as written holds what the history leaves in it. */
  ghost predicate Faithful(acts: seq<Action>, k: nat)
    requires k <= |acts|
  {
    var s := Run(AsWritten, Init(), acts[..k]);
    s.owner.Idle? ==> Window(s, Contents(History(AsWritten, Init(), acts[..k])), s.bottom)
  }

  lemma CodesAgree(s: State, a: Action)
    requires !(a.OwnerStep? && s.owner.PopRestore? && s.owner.observed != s.owner.b)
    ensures Step(AsWritten, s, a) == Step(Restored, s, a)
  {
  }

  lemma {:induction false} CleanPrefix(acts: seq<Action>, k: nat)
    requires k <= |acts| && forall j :: 0 <= j < k ==> !LosesRace(acts, j)
    ensures Run(AsWritten, Init(), acts[..k]) == Run(Restored, Init(), acts[..k])
    ensures History(AsWritten, Init(), acts[..k]) == History(Restored, Init(), acts[..k])
  {
    hide Step, Effect;
    if k > 0 {
      CleanPrefix(acts, k - 1);
      assert acts[..k] == acts[..k - 1] + [acts[k - 1]];
      RunSnoc(AsWritten, Init(), acts[..k - 1], acts[k - 1]);
      RunSnoc(Restored, Init(), acts[..k - 1], acts[k - 1]);
      assert !LosesRace(acts, k - 1);
      CodesAgree(Run(AsWritten, Init(), acts[..k - 1]), acts[k - 1]);
    }
  }

  /** After the store of line 67 the ring shows one element although the abstract deque is empty. */
  lemma LossStep(s: State, ops: seq<Op>)
    requires Inv(s, ops) && s.owner.PopRestore? && s.owner.observed != s.owner.b
    ensures
      var s' := OwnerNext(AsWritten, s);
      Contents(ops) == [] && s'.bottom == s'.top + 1 && s'.owner.Idle? && OwnerEffect(s) == []
  {
  }

  lemma LossBreaks(acts: seq<Action>, k: nat)
    requires k < |acts| && LosesRace(acts, k)
    requires forall j :: 0 <= j < k ==> !LosesRace(acts, j)
    ensures !Faithful(acts, k + 1)
  {
    CleanPrefix(acts, k);
    Linearizable(acts[..k]);
    var s, ops := Run(AsWritten, Init(), acts[..k]), History(AsWritten, Init(), acts[..k]);
    LossStep(s, ops);
    assert acts[..k + 1] == acts[..k] + [acts[k]];
    RunSnoc(AsWritten, Init(), acts[..k], acts[k]);
    assert ops + [] == ops;
  }

  lemma {:induction false} FirstLoss(acts: seq<Action>, k: nat) returns (j: nat)
    requires k < |acts| && LosesRace(acts, k)
    ensures j <= k && LosesRace(acts, j) && forall i :: 0 <= i < j ==> !LosesRace(acts, i)
  {
    if i :| 0 <= i < k && LosesRace(acts, i) {
      j := FirstLoss(acts, i);
    } else {
      j := k;
    }
  }

  /** The ring of the code as written stays right exactly in the runs where no `pop` loses the race
      for the last element. */
  lemma FaithfulIffNoLostRace(acts: seq<Action>)
    ensures (forall k :: 0 <= k <= |acts| ==> Faithful(acts, k))
       <==> (forall k :: 0 <= k < |acts| ==> !LosesRace(acts, k))
  {
    if k :| 0 <= k < |acts| && LosesRace(acts, k) {
      var j := FirstLoss(acts, k);
      LossBreaks(acts, j);
    } else {
      forall k | 0 <= k <= |acts|
        ensures Faithful(acts, k)
      {
        CleanPrefix(acts, k);
        Linearizable(acts[..k]);
      }
    }
  }

  lemma {:induction false} RunAppend(code: Code, s: State, xs: seq<Action>, ys: seq<Action>)
    ensures Run(code, s, xs + ys) == Run(code, Run(code, s, xs), ys)
  {
    hide Step;
    if ys == [] {
      assert xs + ys == xs;
    } else {
      var before, a := ys[..|ys| - 1], ys[|ys| - 1];
      RunAppend(code, s, xs, before);
      assert (xs + ys)[..|xs + ys| - 1] == xs + before;
      var mid := Run(code, s, xs);
      assert Run(code, mid, ys) == Step(code, Run(code, mid, before), a);
    }
  }

  lemma Run4(code: Code, s: State, a: Action, b: Action, c: Action, d: Action)
    ensures Run(code, s, [a, b, c, d]) == Step(code, Step(code, Step(code, Step(code, s, a), b), c), d)
  {
    hide Step, History, Effect;
    RunSnoc(code, s, [], a);
    RunSnoc(code, s, [a], b);
    RunSnoc(code, s, [a, b], c);
    RunSnoc(code, s, [a, b, c], d);
    assert [] + [a] == [a] && [a] + [b] == [a, b];
    assert [a, b] + [c] == [a, b, c] && [a, b, c] + [d] == [a, b, c, d];
  }

  /** Four steps each: two pushes, one pop, a steal up to its compare-exchange, a pop up to its own,
      then the steal wins, the pop loses, and a last pop runs. */
  const RACE: seq<seq<Action>> := [
    [BeginPush(7), OwnerStep, OwnerStep, OwnerStep],
    [BeginPush(8), OwnerStep, OwnerStep, OwnerStep],
    [BeginPop, OwnerStep, OwnerStep, OwnerStep],
    [ThiefStep(0), ThiefStep(0), ThiefStep(0), BeginPop],
    [OwnerStep, OwnerStep, OwnerStep, ThiefStep(0)],
    [OwnerStep, OwnerStep, BeginPop, OwnerStep],
    [OwnerStep, OwnerStep, OwnerStep, OwnerStep]]

  function Flatten(xss: seq<seq<Action>>): seq<Action> {
    if xss == [] then [] else Flatten(xss[..|xss| - 1]) + xss[|xss| - 1]
  }

  function Checkpoint(code: Code, k: nat): State
    requires k <= |RACE|
  {
    Run(code, Init(), Flatten(RACE[..k]))
  }

  lemma NextCheckpoint(code: Code, k: nat)
    requires k < |RACE|
    ensures
      var s := Checkpoint(code, k);
      Checkpoint(code, k + 1) ==
      Step(code, Step(code, Step(code, Step(code, s, RACE[k][0]), RACE[k][1]), RACE[k][2]), RACE[k][3])
  {
    hide Step, Run;
    assert RACE[..k + 1][..k] == RACE[..k];
    var xs := RACE[k];
    assert xs == [xs[0], xs[1], xs[2], xs[3]];
    RunAppend(code, Init(), Flatten(RACE[..k]), xs);
    Run4(code, Checkpoint(code, k), xs[0], xs[1], xs[2], xs[3]);
  }

  function Expected(k: nat): State
    requires k <= |RACE|
  {
    var empty := Init().slots;
    var one := empty[0 := Some(7)];
    var both := one[1 := Some(8)];
    if k == 0 then Init()
    else if k == 1 then State(0, 1, one, Idle, map[], [], [])
    else if k == 2 then State(0, 2, both, Idle, map[], [], [])
    else if k == 3 then State(0, 1, both, Idle, map[], [8], [])
    else if k == 4 then State(0, 1, both, PopStoreBottom(0), map[0 := StealCas(0, Some(7))], [8], [])
    else if k == 5 then State(1, 0, both, PopCas(0, Some(7)), map[0 := Resting], [8], [7])
    else if k == 6 then State(1, 1, both, PopLoadTop(1), map[0 := Resting], [8], [7])
    else State(2, 2, both, Idle, map[0 := Resting], [8, 8], [7])
  }

  lemma FirstHalf(k: nat)
    requires k < 3
    ensures
      Step(AsWritten, Step(AsWritten, Step(AsWritten, Step(AsWritten, Expected(k),
        RACE[k][0]), RACE[k][1]), RACE[k][2]), RACE[k][3]) == Expected(k + 1)
  {
    if k == 0 {} else if k == 1 {} else {}
  }

  lemma SecondHalf(k: nat)
    requires k == 3 || k == 4
    ensures
      Step(AsWritten, Step(AsWritten, Step(AsWritten, Step(AsWritten, Expected(k),
        RACE[k][0]), RACE[k][1]), RACE[k][2]), RACE[k][3]) == Expected(k + 1)
  {
    if k == 3 {} else {}
  }

  lemma LastPart(k: nat)
    requires k == 5 || k == 6
    ensures
      Step(AsWritten, Step(AsWritten, Step(AsWritten, Step(AsWritten, Expected(k),
        RACE[k][0]), RACE[k][1]), RACE[k][2]), RACE[k][3]) == Expected(k + 1)
  {
    if k == 5 {} else {}
  }

  lemma {:induction false} ReachesExpected(k: nat)
    requires k <= |RACE|
    ensures Checkpoint(AsWritten, k) == Expected(k)
  {
    hide Step;
    if k > 0 {
      ReachesExpected(k - 1);
      NextCheckpoint(AsWritten, k - 1);
      if k <= 3 { FirstHalf(k - 1); } else if k <= 5 { SecondHalf(k - 1); } else { LastPart(k - 1); }
    }
  }

  /** The code as written can return one task twice: 8 is pushed once and popped twice. */
  lemma TaskReturnedTwice()
    ensures multiset(Flatten(RACE))[BeginPush(8)] == 1
    ensures
      var s := Run(AsWritten, Init(), Flatten(RACE));
      s.popped == [8, 8] && s.stolen == [7]
  {
    assert RACE[..7] == RACE;
    ReachesExpected(7);
    hide Step, Run, Flatten;
    forall i | 0 <= i < |RACE|
      ensures multiset(RACE[i])[BeginPush(8)] == if i == 1 then 1 else 0
    {
      PushesOfEight(i);
    }
    ComesOnce(RACE, BeginPush(8), 7);
  }

  /** An action that only the second group of steps holds, and holds once, comes once. */
  lemma {:induction false} ComesOnce(xss: seq<seq<Action>>, a: Action, k: nat)
    requires k <= |xss|
    requires forall i :: 0 <= i < |xss| ==> multiset(xss[i])[a] == if i == 1 then 1 else 0
    ensures multiset(Flatten(xss[..k]))[a] == if k < 2 then 0 else 1
  {
    if k > 0 {
      ComesOnce(xss, a, k - 1);
      assert xss[..k][..k - 1] == xss[..k - 1];
    }
  }

  lemma PushesOfEight(k: nat)
    requires k < |RACE|
    ensures multiset(RACE[k])[BeginPush(8)] == if k == 1 then 1 else 0
  {
    hide Step, Run, Flatten;
    var xs := RACE[k];
    assert xs == [xs[0], xs[1], xs[2], xs[3]];
    assert multiset(xs) == multiset{xs[0], xs[1], xs[2], xs[3]};
  }
}

/** The deque object: each method is the text of its C++ counterpart, and between any two atomic
    accesses the other threads take the steps listed in `env`. */
module DequeObject {
  import opened Wrappers
  import opened DequeMachine

  class WorkStealingDeque {
    const slots: array<Slot>
    var top: nat
    var bottom: nat
    // The registers of the owner and of the threads inside `steal`, and what they have returned.
    var owner: Owner
    var thieves: map<nat, Thief>
    var popped: seq<Task>
    var stolen: seq<Task>
    // The steps taken since construction, and the state of the machine after them.
    ghost var trace: seq<Action>
    ghost var view: State

    ghost predicate Valid()
      reads this, slots
    {
      && slots.Length == CAPACITY
      && view == State(top, bottom, slots[..], owner, thieves, popped, stolen)
      && view == Run(AsWritten, Init(), trace)
    }

    constructor ()
      ensures Valid() && trace == [] && fresh(slots)
    {
      slots := new Slot[CAPACITY](_ => None);
      top, bottom := 0, 0;
      owner, thieves := Idle, map[];
      popped, stolen := [], [];
      trace, view := [], Init();
    }

    /** Records the step that has just been taken. */
    ghost method Record(a: Action)
      requires slots.Length == CAPACITY && view == Run(AsWritten, Init(), trace)
      requires State(top, bottom, slots[..], owner, thieves, popped, stolen) == Step(AsWritten, view, a)
      modifies this`trace, this`view
      ensures Valid() && trace == old(trace) + [a] && view == Step(AsWritten, old(view), a)
      ensures Begun(trace) == Begun(old(trace)) + (if a.BeginPush? || a.BeginPop? then [a] else [])
    {
      RunSnoc(AsWritten, Init(), trace, a);
      BegunSnoc(trace, a);
      trace, view := trace + [a], Step(AsWritten, view, a);
    }

    // The owner's atomic accesses.

    method LoadBottom(a: Action) returns (b: nat)
      requires Valid() && owner.Idle? && (a.BeginPush? || a.BeginPop?)
      modifies this`owner, this`trace, this`view
      ensures Valid() && view == Step(AsWritten, old(view), a)
      ensures trace == old(trace) + [a] && Begun(trace) == Begun(old(trace)) + [a] && b == bottom
      ensures owner == if a.BeginPush? then PushLoadTop(a.task, b) else if b == 0 then Idle else PopStoreBottom(b - 1)
    {
      b := bottom;
      owner := if a.BeginPush? then PushLoadTop(a.task, b) else if b == 0 then Idle else PopStoreBottom(b - 1);
      Record(a);
    }

    method LoadTop() returns (t: nat)
      requires Valid() && (owner.PushLoadTop? || owner.PopLoadTop?)
      modifies this`owner, this`trace, this`view
      ensures Valid() && view == Step(AsWritten, old(view), OwnerStep)
      ensures trace == old(trace) + [OwnerStep] && Begun(trace) == Begun(old(trace)) && t == top
      ensures old(owner).PushLoadTop? ==>
                owner == if Full(old(owner).b, t) then Idle else PushStoreSlot(old(owner).task, old(owner).b)
      ensures old(owner).PopLoadTop? ==>
                owner == if t > old(owner).b then PopResetBottom(t) else PopLoadSlot(old(owner).b, t)
    {
      t := top;
      var b := owner.b;
      owner := if owner.PushLoadTop? then if Full(b, t) then Idle else PushStoreSlot(owner.task, b)
               else if t > b then PopResetBottom(t) else PopLoadSlot(b, t);
      Record(OwnerStep);
    }

    method StoreBottom(v: nat)
      requires Valid()
      requires (owner.PushStoreBottom? && v == owner.b + 1) || (owner.PopStoreBottom? && v == owner.b)
            || (owner.PopResetBottom? && v == owner.t) || (owner.PopRestore? && v == owner.observed + 1)
      modifies this`bottom, this`owner, this`popped, this`trace, this`view
      ensures Valid() && view == Step(AsWritten, old(view), OwnerStep)
      ensures trace == old(trace) + [OwnerStep] && Begun(trace) == Begun(old(trace))
      ensures bottom == v && owner == if old(owner).PopStoreBottom? then PopLoadTop(v) else Idle
      ensures popped == old(popped) + if old(owner).PopRestore? then Returned(old(owner).got) else []
    {
      bottom := v;
      if owner.PopRestore? { popped := popped + Returned(owner.got); }
      owner := if owner.PopStoreBottom? then PopLoadTop(v) else Idle;
      Record(OwnerStep);
    }

    method StoreSlot(i: nat, task: Task)
      requires Valid() && owner == PushStoreSlot(task, i)
      modifies this`owner, this`trace, this`view, slots
      ensures Valid() && view == Step(AsWritten, old(view), OwnerStep)
      ensures trace == old(trace) + [OwnerStep] && Begun(trace) == Begun(old(trace))
      ensures owner == PushStoreBottom(task, i)
    {
      slots[i % CAPACITY] := Some(task);
      owner := PushStoreBottom(task, i);
      Record(OwnerStep);
    }

    method LoadSlot(i: nat) returns (got: Slot)
      requires Valid() && owner.PopLoadSlot? && owner.b == i
      modifies this`owner, this`popped, this`trace, this`view
      ensures Valid() && view == Step(AsWritten, old(view), OwnerStep)
      ensures trace == old(trace) + [OwnerStep] && Begun(trace) == Begun(old(trace)) && got == slots[i % CAPACITY]
      ensures owner == if old(owner).t == i then PopCas(i, got) else Idle
      ensures popped == old(popped) + if old(owner).t == i then [] else Returned(got)
    {
      got := slots[i % CAPACITY];
      if owner.t != i { popped := popped + Returned(got); }
      owner := if owner.t == i then PopCas(i, got) else Idle;
      Record(OwnerStep);
    }

    /** The strong compare-exchange of `top`; it also returns the value it found. */
    method CompareExchange(expected: nat) returns (ok: bool, found: nat)
      requires Valid() && owner.PopCas? && owner.b == expected
      modifies this`top, this`owner, this`trace, this`view
      ensures Valid() && view == Step(AsWritten, old(view), OwnerStep)
      ensures trace == old(trace) + [OwnerStep] && Begun(trace) == Begun(old(trace))
      ensures found == old(top) && ok == (found == expected) && top == if ok then expected + 1 else found
      ensures owner == PopRestore(expected, found, if ok then old(owner).got else None)
    {
      found := top;
      ok := found == expected;
      if ok { top := expected + 1; }
      owner := PopRestore(expected, found, if ok then owner.got else None);
      Record(OwnerStep);
    }

    /** One access by thief `i`: the next one of lines 72 to 81. */
    method ThiefAccess(i: nat)
      requires Valid()
      modifies this`top, this`thieves, this`stolen, this`trace, this`view
      ensures Valid() && trace == old(trace) + [ThiefStep(i)] && Begun(trace) == Begun(old(trace))
      ensures view == ThiefNext(old(view), i)
    {
      var th := if i in thieves then thieves[i] else Resting;
      match th {
        case Resting => thieves := thieves[i := StealLoadBottom(top)];
        case StealLoadBottom(t) =>
          thieves := thieves[i := if t >= bottom then Resting else StealLoadSlot(t)];
        case StealLoadSlot(t) =>
          thieves := thieves[i := StealCas(t, slots[t % CAPACITY])];
        case StealCas(t, got) =>
          thieves := thieves[i := Resting];
          if top == t { top, stolen := t + 1, stolen + Returned(got); }
      }
      Record(ThiefStep(i));
    }

    /** The thieves in `env` take one step each, in that order. */
    method Thieves(env: seq<nat>)
      requires Valid()
      modifies this`top, this`thieves, this`stolen, this`trace, this`view
      ensures Valid() && Begun(trace) == Begun(old(trace))
      ensures env == [] ==> view == old(view) && trace == old(trace)
    {
      hide Run, Begun;
      for k := 0 to |env|
        invariant Valid() && Begun(trace) == Begun(old(trace))
        invariant env == [] ==> view == old(view) && trace == old(trace)
      {
        ThiefAccess(env[k]);
      }
    }

    /** `push`, lines 39 to 48. Undisturbed it appends the task on the right, unless the deque is full. */
    method Push(task: Slot, env: seq<seq<nat>>) returns (ok: bool)
      requires Valid() && owner.Idle? && |env| == 3
      modifies this, slots
      ensures Valid() && owner.Idle?
      ensures Begun(trace) == Begun(old(trace)) + if task.Some? then [BeginPush(task.value)] else []
      ensures task.None? ==> !ok && view == old(view) && trace == old(trace)
      ensures bottom == if ok then old(bottom) + 1 else old(bottom)
      ensures popped == old(popped)
      ensures task.Some? && env == [[], [], []] && NoLostRace(old(trace)) ==>
                var q := Remaining(old(trace));
                && (ok <==> |q| < CAPACITY)
                && Remaining(trace) == (if ok then q + [task.value] else q) && NoLostRace(trace)
    {
      hide Run, Begun, NoLostRace, Remaining;
      ghost var quiet := env == [[], [], []] && NoLostRace(old(trace));
      if task.None? { return false; }
      var b := LoadBottom(BeginPush(task.value));
      ghost var begun := trace;
      Thieves(env[0]);
      var t := LoadTop();
      if quiet {
        StaysQuiet(old(trace), BeginPush(task.value));
        StaysQuiet(begun, OwnerStep);
        AtRest(old(trace));
      }
      if Full(b, t) {
        if quiet {
          SameAtRest(old(trace), trace);
        }
        return false;
      }
      ghost var checked := trace;
      Thieves(env[1]);
      StoreSlot(b, task.value);
      ghost var stored := trace;
      Thieves(env[2]);
      StoreBottom(b + 1);
      if quiet {
        StaysQuiet(checked, OwnerStep);
        StaysQuiet(stored, OwnerStep);
        PushedAtRest(old(trace), trace, task.value);
      }
      return true;
    }

    /** `pop`, lines 50 to 70. Undisturbed it takes the rightmost task. */
    method Pop(env: seq<seq<nat>>) returns (task: Slot)
      requires Valid() && owner.Idle? && |env| == 5
      modifies this, slots
      ensures Valid() && owner.Idle?
      ensures Begun(trace) == Begun(old(trace)) + [BeginPop]
      ensures popped == old(popped) + Returned(task)
      ensures env == [[], [], [], [], []] && NoLostRace(old(trace)) ==>
                var q := Remaining(old(trace));
                && task == (if q == [] then None else Some(q[|q| - 1]))
                && Remaining(trace) == (if q == [] then [] else q[..|q| - 1]) && NoLostRace(trace)
    {
      hide Run, Begun, NoLostRace, Remaining;
      ghost var quiet := env == [[], [], [], [], []] && NoLostRace(old(trace));
      var b := LoadBottom(BeginPop);
      if quiet {
        AtRest(old(trace));
        StaysQuiet(old(trace), BeginPop);
      }
      if b == 0 {
        if quiet {
          SameAtRest(old(trace), trace);
        }
        return None;
      }
      task := Claim(b - 1, env[1..], env[0]);
      if quiet {
        if old(top) < old(bottom) {
          PoppedAtRest(old(trace), trace);
        } else {
          SameAtRest(old(trace), trace);
        }
      }
    }

    /** Lines 53 to 69: the claim of index `b`. */
    method Claim(b: nat, env: seq<seq<nat>>, first: seq<nat>) returns (task: Slot)
      requires Valid() && owner == PopStoreBottom(b) && |env| == 4
      modifies this, slots
      ensures Valid() && owner.Idle? && Begun(trace) == Begun(old(trace))
      ensures popped == old(popped) + Returned(task)
      ensures first == [] && env == [[], [], [], []] && NoLostRace(old(trace)) ==>
                && NoLostRace(trace) && view.slots == old(view).slots
                && task == (if old(top) > b then None else SlotAt(old(view).slots, b))
                && top == (if old(top) == b then b + 1 else old(top))
                && bottom == (if old(top) > b then old(top) else if old(top) == b then b + 1 else b)
    {
      hide Run, Begun, NoLostRace;
      Thieves(first);
      ghost var begun := trace;
      StoreBottom(b);
      ghost var stored := trace;
      Thieves(env[0]);
      var t := LoadTop();
      ghost var loaded := trace;
      Thieves(env[1]);
      if first == [] && env == [[], [], [], []] && NoLostRace(old(trace)) {
        StaysQuiet(begun, OwnerStep);
        StaysQuiet(stored, OwnerStep);
        StaysQuiet(loaded, OwnerStep);
      }
      if t > b {
        StoreBottom(t);
        return None;
      }
      task := LoadSlot(b);
      if t == b {
        task := TakeLast(t, task, env[2..]);
      }
    }

    /** Lines 63 to 67: the race for the last element. */
    method TakeLast(t: nat, got: Slot, env: seq<seq<nat>>) returns (task: Slot)
      requires Valid() && owner == PopCas(t, got) && |env| == 2
      modifies this, slots
      ensures Valid() && owner.Idle?
      ensures Begun(trace) == Begun(old(trace))
      ensures popped == old(popped) + Returned(task)
      ensures env == [[], []] && old(top) == t ==>
                && task == got && top == bottom == t + 1 && view.slots == old(view).slots
                && (NoLostRace(old(trace)) ==> NoLostRace(trace))
    {
      hide Run, Begun, NoLostRace;
      task := got;
      Thieves(env[0]);
      // On failure the local `top` is overwritten with the value found.
      ghost var before := trace;
      var ok, top := CompareExchange(t);
      ghost var compared := trace;
      if !ok { task := None; }
      Thieves(env[1]);
      StoreBottom(top + 1);
      if env == [[], []] && ok && NoLostRace(old(trace)) {
        StaysQuiet(before, OwnerStep);
        StaysQuiet(compared, OwnerStep);
      }
    }

    /** The next access of whichever thread `a` names. */
    method Do(a: Action)
      requires Valid()
      modifies this, slots
      ensures Valid() && view == Step(AsWritten, old(view), a) && old(trace) <= trace
    {
      hide Run, Begun;
      match a {
        case ThiefStep(i) => ThiefAccess(i);
        case OwnerStep => OwnerAccess();
        case _ => if owner.Idle? { var _ := LoadBottom(a); }
      }
    }

    method OwnerAccess()
      requires Valid()
      modifies this, slots
      ensures Valid() && view == Step(AsWritten, old(view), OwnerStep) && old(trace) <= trace
    {
      hide Run, Begun;
      match owner {
        case Idle =>
        case PushStoreSlot(task, b) => StoreSlot(b, task);
        case PushStoreBottom(_, b) => StoreBottom(b + 1);
        case PopStoreBottom(b) => StoreBottom(b);
        case PopResetBottom(t) => StoreBottom(t);
        case PopLoadSlot(b, _) => var _ := LoadSlot(b);
        case PopCas(b, _) => var _, _ := CompareExchange(b);
        case PopRestore(_, observed, _) => StoreBottom(observed + 1);
        case _ => var _ := LoadTop();
      }
    }

    /** The owner and thieves other than `i` take the steps in `env`, in that order. */
    method Others(env: seq<Action>, i: nat)
      requires Valid() && ThiefStep(i) !in env
      modifies this, slots
      ensures Valid() && ThiefOf(view, i) == old(ThiefOf(view, i)) && old(trace) <= trace
      ensures env == [] ==> view == old(view) && trace == old(trace)
    {
      hide Run, Step;
      for k := 0 to |env|
        invariant Valid() && ThiefOf(view, i) == old(ThiefOf(view, i)) && old(trace) <= trace
        invariant env == [] ==> view == old(view) && trace == old(trace)
      {
        OthersAside(view, env[k], i);
        Do(env[k]);
      }
    }

    /** `steal`, lines 72 to 81, run by thief `i` while the other threads take the steps in `env`. It loads
        `top` first; `atBottom`, `atSlot` and `atTop` are the points of the run at which it loads `bottom` and
        the slot and compares `top`. It answers what it loaded from the slot, unless `bottom` was not above
        the `top` it had loaded, or `top` had moved; and what it loaded is a task unless a `pop` has lost a
        race. Undisturbed on a deque at rest, it takes the leftmost task. */
    method Steal(i: nat, env: seq<seq<Action>>)
      returns (task: Slot, ghost atBottom: nat, ghost atSlot: nat, ghost atTop: nat)
      requires Valid() && ThiefOf(view, i).Resting? && |env| == 3
      requires forall k :: 0 <= k < |env| ==> ThiefStep(i) !in env[k]
      modifies this, slots
      ensures Valid() && ThiefOf(view, i).Resting? && old(trace) <= trace
      ensures |old(trace)| < atBottom <= atSlot <= atTop == |trace| - 1
      ensures trace[|old(trace)|] == trace[atBottom] == trace[atSlot] == trace[atTop] == ThiefStep(i)
      ensures view == ThiefNext(Seen(trace, atTop), i) && stolen == Seen(trace, atTop).stolen + Returned(task)
      ensures task == if old(top) < Seen(trace, atBottom).bottom && Seen(trace, atTop).top == old(top)
                      then SlotAt(Seen(trace, atSlot).slots, old(top)) else None
      ensures NoLostRace(trace) ==>
                (task.None? <==> old(top) >= Seen(trace, atBottom).bottom || Seen(trace, atTop).top != old(top))
      ensures env[0] == env[1] == env[2] == [] && old(owner).Idle? && NoLostRace(old(trace)) ==>
                var q := Remaining(old(trace));
                && task == (if q == [] then None else Some(q[0]))
                && Remaining(trace) == (if q == [] then [] else q[1..])
                && top == old(top) + (if q == [] then 0 else 1) && bottom == old(bottom)
                && owner.Idle? && NoLostRace(trace)
    {
      hide Run, Step, Begun, NoLostRace, History, Contents, Window, SlotAt;
      var t := top;
      ThiefAccess(i);
      Others(env[0], i);
      var b := bottom;
      atBottom, atSlot, atTop := |trace|, |trace|, |trace|;
      ghost var before := trace;
      ThiefAccess(i);
      assert trace[..atBottom] == before;
      if t >= b {
        if env[0] == [] && old(owner).Idle? && NoLostRace(old(trace)) {
          assert trace == old(trace) + [ThiefStep(i)] + [ThiefStep(i)];
          StealsNothing(old(trace), i);
        }
        return None, atBottom, atSlot, atTop;
      }
      ghost var loaded := trace;
      task, atSlot, atTop := StealFrom(i, t, env[1..]);
      assert trace[..atBottom] == loaded[..atBottom];
      if env[0] == env[1] == env[2] == [] && old(owner).Idle? && NoLostRace(old(trace)) {
        assert trace == old(trace) + [ThiefStep(i)] + [ThiefStep(i)] + [ThiefStep(i)] + [ThiefStep(i)];
        StealsFirst(old(trace), i);
      }
    }

    /** Lines 77 to 80, for a thief that has seen something above the `top` it loaded. */
    method StealFrom(i: nat, t: nat, env: seq<seq<Action>>) returns (task: Slot, ghost atSlot: nat, ghost atTop: nat)
      requires Valid() && ThiefOf(view, i) == StealLoadSlot(t) && |env| == 2
      requires forall k :: 0 <= k < |env| ==> ThiefStep(i) !in env[k]
      modifies this, slots
      ensures Valid() && ThiefOf(view, i).Resting? && old(trace) <= trace
      ensures |old(trace)| <= atSlot < atTop == |trace| - 1 && trace[atSlot] == trace[atTop] == ThiefStep(i)
      ensures view == ThiefNext(Seen(trace, atTop), i) && stolen == Seen(trace, atTop).stolen + Returned(task)
      ensures task == if Seen(trace, atTop).top == t then SlotAt(Seen(trace, atSlot).slots, t) else None
      ensures NoLostRace(trace) && Seen(trace, atTop).top == t ==> task.Some?
      ensures env[0] == env[1] == [] ==>
                && trace == old(trace) + [ThiefStep(i)] + [ThiefStep(i)]
                && top == old(top) + (if old(top) == t then 1 else 0)
                && bottom == old(bottom) && owner == old(owner) && view.slots == old(view).slots
                && task == if old(top) == t then SlotAt(old(view).slots, t) else None
    {
      hide Run, Step, Begun, NoLostRace, History, Contents, Window;
      Others(env[0], i);
      task := slots[t % CAPACITY];
      atSlot := |trace|;
      ghost var read := trace;
      ThiefAccess(i);
      Others(env[1], i);
      var found := top;
      atTop := |trace|;
      ghost var compared := trace;
      ThiefAccess(i);
      assert trace[..atSlot] == read && trace[..atTop] == compared;
      if NoLostRace(trace) && found == t {
        HoldsATask(trace, atTop, i);
      }
      if found != t {
        task := None;
      }
    }
  }

  /** The state of the run after its first `k` steps. */
  ghost function Seen(acts: seq<Action>, k: nat): State
    requires k <= |acts|
  {
    Run(AsWritten, Init(), acts[..k])
  }

  /** What the history of the run leaves in the abstract deque. */
  ghost function Remaining(acts: seq<Action>): seq<Task> {
    Contents(History(AsWritten, Init(), acts))
  }

  ghost predicate NoLostRace(acts: seq<Action>) {
    forall k :: 0 <= k < |acts| ==> !LosesRace(acts, k)
  }

  lemma AtRest(acts: seq<Action>)
    requires NoLostRace(acts) && Run(AsWritten, Init(), acts).owner.Idle?
    ensures var s := Run(AsWritten, Init(), acts); Window(s, Remaining(acts), s.bottom)
  {
    hide Window, Run, History, Contents;
    FaithfulIffNoLostRace(acts);
    assert acts[..|acts|] == acts;
    assert Faithful(acts, |acts|);
  }

  /** A step that is not the end of a `pop` that has lost the last element. */
  lemma StaysQuiet(acts: seq<Action>, a: Action)
    requires NoLostRace(acts)
    requires var o := Run(AsWritten, Init(), acts).owner; a.OwnerStep? && o.PopRestore? ==> o.observed == o.b
    ensures NoLostRace(acts + [a])
  {
    hide Run;
    var all := acts + [a];
    forall k | 0 <= k < |all|
      ensures !LosesRace(all, k)
    {
      if k < |acts| {
        assert all[..k] == acts[..k];
        assert !LosesRace(acts, k);
      } else {
        assert all[..k] == acts;
      }
    }
  }

  lemma SameAtRest(acts: seq<Action>, more: seq<Action>)
    requires NoLostRace(acts) && NoLostRace(more)
    requires var s, t := Run(AsWritten, Init(), acts), Run(AsWritten, Init(), more);
             s.owner.Idle? && t.owner.Idle? && t.top == s.top && t.bottom == s.bottom && t.slots == s.slots
    ensures Remaining(more) == Remaining(acts)
  {
    hide Run, NoLostRace, Remaining;
    AtRest(acts);
    AtRest(more);
    var s, q, rest := Run(AsWritten, Init(), acts), Remaining(acts), Remaining(more);
    forall k | 0 <= k < |q|
      ensures rest[k] == q[k]
    {
      assert s.slots[(s.top + k) % CAPACITY] == Some(q[k]);
    }
  }

  lemma PushedAtRest(acts: seq<Action>, more: seq<Action>, task: Task)
    requires NoLostRace(acts) && NoLostRace(more)
    requires var s, t := Run(AsWritten, Init(), acts), Run(AsWritten, Init(), more);
             && s.owner.Idle? && t.owner.Idle? && t.top == s.top && t.bottom == s.bottom + 1
             && |s.slots| == CAPACITY && t.slots == s.slots[s.bottom % CAPACITY := Some(task)]
    ensures Remaining(more) == Remaining(acts) + [task]
  {
    hide Run, NoLostRace, Remaining;
    AtRest(acts);
    AtRest(more);
    var s, t := Run(AsWritten, Init(), acts), Run(AsWritten, Init(), more);
    var q, rest := Remaining(acts), Remaining(more);
    forall k | 0 <= k < |rest|
      ensures rest[k] == (q + [task])[k]
    {
      assert t.slots[(s.top + k) % CAPACITY] == Some(rest[k]);
      if k < |q| {
        ModDistinct(s.top + k, s.bottom);
        assert s.slots[(s.top + k) % CAPACITY] == Some(q[k]);
      }
    }
  }

  /** The deque was not empty: `bottom` is one lower, or the last element has been won. */
  lemma PoppedAtRest(acts: seq<Action>, more: seq<Action>)
    requires NoLostRace(acts) && NoLostRace(more)
    requires var s, t := Run(AsWritten, Init(), acts), Run(AsWritten, Init(), more);
             && s.owner.Idle? && t.owner.Idle? && s.top < s.bottom && t.slots == s.slots
             && (if s.top + 1 == s.bottom then t.top == t.bottom else t.top == s.top && t.bottom == s.bottom - 1)
    ensures var s, q := Run(AsWritten, Init(), acts), Remaining(acts);
            q != [] && SlotAt(s.slots, s.bottom - 1) == Some(q[|q| - 1]) && Remaining(more) == q[..|q| - 1]
  {
    hide Run, NoLostRace, Remaining;
    AtRest(acts);
    AtRest(more);
    var s := Run(AsWritten, Init(), acts);
    var q, rest := Remaining(acts), Remaining(more);
    assert s.slots[(s.top + (|q| - 1)) % CAPACITY] == Some(q[|q| - 1]);
    forall k | 0 <= k < |rest|
      ensures rest[k] == q[..|q| - 1][k]
    {
      assert s.slots[(s.top + k) % CAPACITY] == Some(rest[k]);
      assert s.slots[(s.top + k) % CAPACITY] == Some(q[k]);
    }
  }

  /** At rest, the contents are the tasks between `top` and `bottom`. */
  lemma StealsNothing(acts: seq<Action>, i: nat)
    requires var s, t := Run(AsWritten, Init(), acts), Run(AsWritten, Init(), acts + [ThiefStep(i)] + [ThiefStep(i)]);
             s.owner.Idle? && t.owner.Idle? && s.top >= s.bottom && t.top == s.top && t.bottom == s.bottom
    requires NoLostRace(acts)
    ensures var more := acts + [ThiefStep(i)] + [ThiefStep(i)];
            Remaining(acts) == [] && Remaining(more) == [] && NoLostRace(more)
  {
    hide Run, NoLostRace, Remaining;
    var more := acts + [ThiefStep(i)];
    StaysQuiet(acts, ThiefStep(i));
    StaysQuiet(more, ThiefStep(i));
    AtRest(acts);
    AtRest(more + [ThiefStep(i)]);
  }

  lemma StealsFirst(acts: seq<Action>, i: nat)
    requires var more := acts + [ThiefStep(i)] + [ThiefStep(i)] + [ThiefStep(i)] + [ThiefStep(i)];
             var s, t := Run(AsWritten, Init(), acts), Run(AsWritten, Init(), more);
             && s.owner.Idle? && t.owner.Idle? && s.top < s.bottom
             && t.top == s.top + 1 && t.bottom == s.bottom && t.slots == s.slots
    requires NoLostRace(acts)
    ensures var more := acts + [ThiefStep(i)] + [ThiefStep(i)] + [ThiefStep(i)] + [ThiefStep(i)];
            var s, q := Run(AsWritten, Init(), acts), Remaining(acts);
            && q != [] && SlotAt(s.slots, s.top) == Some(q[0]) && Remaining(more) == q[1..] && NoLostRace(more)
  {
    hide Run, NoLostRace, Remaining;
    var a1 := acts + [ThiefStep(i)];
    var a2 := a1 + [ThiefStep(i)];
    var a3 := a2 + [ThiefStep(i)];
    StaysQuiet(acts, ThiefStep(i));
    StaysQuiet(a1, ThiefStep(i));
    StaysQuiet(a2, ThiefStep(i));
    StaysQuiet(a3, ThiefStep(i));
    AtRest(acts);
    AtRest(a3 + [ThiefStep(i)]);
    var s, q, rest := Run(AsWritten, Init(), acts), Remaining(acts), Remaining(a3 + [ThiefStep(i)]);
    assert s.slots[(s.top + 0) % CAPACITY] == Some(q[0]);
    forall k | 0 <= k < |rest|
      ensures rest[k] == q[1..][k]
    {
      assert s.slots[(s.top + 1 + k) % CAPACITY] == Some(rest[k]);
      assert s.slots[(s.top + (k + 1)) % CAPACITY] == Some(q[k + 1]);
    }
  }

  /** A thief whose `top` is still the one it loaded holds a task. */
  lemma HoldsATask(acts: seq<Action>, k: nat, i: nat)
    requires k < |acts| && NoLostRace(acts)
    requires var s := Seen(acts, k); ThiefOf(s, i).StealCas? && ThiefOf(s, i).t == s.top
    ensures ThiefOf(Seen(acts, k), i).got.Some?
  {
    hide Run, History, Contents, Agrees;
    CleanPrefix(acts, k);
    RunAgrees(acts[..k]);
    StealTakesFirst(Run(Restored, Init(), acts[..k]), Contents(History(Restored, Init(), acts[..k])), i);
  }

  /** As long as no `pop` has lost the last-element race, the ring of a deque object holds exactly
      what a legal history of an abstract deque leaves in it. */
  lemma ObjectIsADeque(d: WorkStealingDeque)
    requires d.Valid() && d.owner.Idle?
    requires forall k :: 0 <= k < |d.trace| ==> !LosesRace(d.trace, k)
    ensures Legal(History(AsWritten, Init(), d.trace))
    ensures Window(d.view, Contents(History(AsWritten, Init(), d.trace)), d.bottom)
  {
    CleanPrefix(d.trace, |d.trace|);
    assert d.trace[..|d.trace|] == d.trace;
    Linearizable(d.trace);
  }

  lemma OthersAside(s: State, a: Action, i: nat)
    requires a != ThiefStep(i)
    ensures ThiefOf(Step(AsWritten, s, a), i) == ThiefOf(s, i)
  {
  }

  /** The owner operations begun in a list of steps. */
  ghost function Begun(acts: seq<Action>): seq<Action> {
    if acts == [] then []
    else
      var a := acts[|acts| - 1];
      Begun(acts[..|acts| - 1]) + (if a.BeginPush? || a.BeginPop? then [a] else [])
  }

  lemma BegunSnoc(acts: seq<Action>, a: Action)
    ensures Begun(acts + [a]) == Begun(acts) + (if a.BeginPush? || a.BeginPop? then [a] else [])
  {
    assert (acts + [a])[..|acts|] == acts;
  }
}
