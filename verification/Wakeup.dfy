/**
 How a V2 coroutine is woken: its resume task, the registrations and timers it leaves on event
 loops, and the `fired` flag they share (`src/scheduler.cpp`, `src/coroutine.cpp`, `src/hook.cpp`,
 `src/poll_hook.cpp`, `src/event_loop.cpp`).

 The machine follows one coroutine over any number of workers. Each worker runs tasks and its own
 event loop on one thread; a task may be taken by any worker. A run is any list of steps.
*/
module WakeupMachine {
  import opened Wrappers

  datatype CoState = Ready | Running | Waiting | Finished | Cancelled

  /** What a worker is doing with the coroutine: it has taken the resume task, runs inside the
      coroutine, has come back from `resume`, or is calling callbacks copied out of its loop. */
  datatype Place = Free | Starting | Inside | After | Dispatching(calls: seq<nat>)

  datatype Fate = Pending | Copied | Called | Dropped

  /** A callback on the event loop or timer queue of worker `loop`, made by wait call `gen`. */
  datatype Registration = Registration(gen: nat, loop: nat, fate: Fate)

  /** One wait call. A `guarded` one shares a `fired` flag among its callbacks, the others make a
      single callback; `fired` is also set here when that callback runs. */
  datatype Gen = Gen(guarded: bool, fired: bool, submits: nat)

  /** `tasks` counts the resume tasks in all queues; `setup` is the wait call being prepared. */
  datatype State = State(
    co: CoState,
    cancelled: bool,
    submitted: bool,
    tasks: nat,
    workers: seq<Place>,
    setup: Option<nat>,
    gens: seq<Gen>,
    regs: seq<Registration>)

  datatype Action =
    | Submit                              // the one submission by the client
    | Pick(w: nat)                        // a worker takes the resume task
    | Start(w: nat)                       // it checks the state and calls resume
    | BeginWait(w: nat, guarded: bool)    // the coroutine enters a hook that will wait
    | Register(w: nat)                    // one accepted registration or timer
    | GiveUp(w: nat)                      // the hook returns because nothing was accepted
    | Wait(w: nat)
    | Yield(w: nat)
    | Finish(w: nat)
    | CheckReady(w: nat, accepted: bool)  // after resume: submit again if the coroutine is ready
    | Copy(w: nat, calls: seq<nat>)       // the loop or timer queue hands out callbacks
    | Call(w: nat, accepted: bool)        // the worker calls the next of them
    | Drop(id: nat)                       // somebody cancels a registration or timer
    | Cancel                              // somebody cancels the coroutine

  function Init(n: nat): State {
    State(Ready, false, false, 0, seq(n, _ => Free), None, [], [])
  }

  predicate Is(s: State, w: nat, p: Place) {
    w < |s.workers| && s.workers[w] == p
  }

  function At(s: State, w: nat, p: Place): State
    requires w < |s.workers|
  {
    s.(workers := s.workers[w := p])
  }

  predicate HasRegistration(s: State, g: nat) {
    exists id :: 0 <= id < |s.regs| && s.regs[id].gen == g
  }

  predicate MayCopy(s: State, w: nat, calls: seq<nat>) {
    && calls != []
    && (forall k :: 0 <= k < |calls| ==>
          calls[k] < |s.regs| && s.regs[calls[k]].loop == w && s.regs[calls[k]].fate == Pending)
    && (forall j, k :: 0 <= j < k < |calls| ==> calls[j] != calls[k])
  }

  function MarkCopied(regs: seq<Registration>, calls: seq<nat>): (r: seq<Registration>)
    ensures |r| == |regs|
  {
    seq(|regs|, i requires 0 <= i < |regs| => if i in calls then regs[i].(fate := Copied) else regs[i])
  }

  /** `resume` returns at once for a cancelled or finished coroutine, else switches into it. */
  function StartStep(s: State, w: nat): State
    requires w < |s.workers|
  {
    if (s.co == Ready || s.co == Waiting) && !s.cancelled then At(s, w, Inside).(co := Running)
    else At(s, w, After)
  }

  function CallStep(s: State, w: nat, accepted: bool): State
    requires w < |s.workers| && s.workers[w].Dispatching?
  {
    var calls := s.workers[w].calls;
    if calls == [] then At(s, w, Free)
    else
      var id := calls[0];
      var s1 := At(s, w, if |calls| == 1 then Free else Dispatching(calls[1..]));
      if id >= |s.regs| || s.regs[id].gen >= |s.gens| then s1
      else
        var g := s.regs[id].gen;
        var s2 := s1.(regs := s.regs[id := s.regs[id].(fate := Called)]);
        if s.gens[g].guarded && s.gens[g].fired then s2
        else s2.(gens := s.gens[g := s.gens[g].(fired := true,
                                     submits := s.gens[g].submits + if accepted then 1 else 0)],
                 tasks := s.tasks + if accepted then 1 else 0)
  }

  function Step(s: State, a: Action): State {
    match a
    case Submit => if s.submitted then s else s.(submitted := true, tasks := s.tasks + 1)
    case Pick(w) => if Is(s, w, Free) && s.tasks > 0 then At(s, w, Starting).(tasks := s.tasks - 1) else s
    case Start(w) => if Is(s, w, Starting) then StartStep(s, w) else s
    case BeginWait(w, guarded) =>
      if Is(s, w, Inside) && s.setup.None?
      then s.(setup := Some(|s.gens|), gens := s.gens + [Gen(guarded, false, 0)]) else s
    case Register(w) =>
      if Is(s, w, Inside) && s.setup.Some? && s.setup.value < |s.gens| &&
         (s.gens[s.setup.value].guarded || !HasRegistration(s, s.setup.value))
      then s.(regs := s.regs + [Registration(s.setup.value, w, Pending)]) else s
    case GiveUp(w) =>
      if Is(s, w, Inside) && s.setup.Some? && !HasRegistration(s, s.setup.value) then s.(setup := None) else s
    case Wait(w) => if Is(s, w, Inside) && s.setup.Some? then At(s, w, After).(co := Waiting, setup := None) else s
    case Yield(w) => if Is(s, w, Inside) && s.setup.None? then At(s, w, After).(co := Ready) else s
    case Finish(w) => if Is(s, w, Inside) && s.setup.None? then At(s, w, After).(co := Finished) else s
    case CheckReady(w, accepted) =>
      if Is(s, w, After)
      then At(s, w, Free).(tasks := s.tasks + if s.co == Ready && accepted then 1 else 0) else s
    case Copy(w, calls) =>
      if Is(s, w, Free) && MayCopy(s, w, calls)
      then At(s, w, Dispatching(calls)).(regs := MarkCopied(s.regs, calls)) else s
    case Call(w, accepted) =>
      if w < |s.workers| && s.workers[w].Dispatching? then CallStep(s, w, accepted) else s
    case Drop(id) =>
      if id < |s.regs| && s.regs[id].fate == Pending
      then s.(regs := s.regs[id := s.regs[id].(fate := Dropped)]) else s
    case Cancel => s.(cancelled := true, co := if s.co == Finished then Finished else Cancelled)
  }

  function Run(n: nat, acts: seq<Action>): State {
    if acts == [] then Init(n) else Step(Run(n, acts[..|acts| - 1]), acts[|acts| - 1])
  }

  // The invariant.

  /** The worker has the coroutine in its hands. */
  predicate Busy(p: Place) {
    p.Starting? || p.Inside? || p.After?
  }

  /** A callback that would still submit the coroutine. */
  predicate Live(s: State, id: nat) {
    && id < |s.regs| && s.regs[id].gen < |s.gens|
    && (s.regs[id].fate == Pending || s.regs[id].fate == Copied)
    && !s.gens[s.regs[id].gen].fired
  }

  /** One token: the coroutine is in one queue or in the hands of one worker, or in neither. */
  ghost predicate OneToken(s: State) {
    && s.tasks <= 1
    && (s.tasks == 1 ==> forall w :: 0 <= w < |s.workers| ==> !Busy(s.workers[w]))
    && (forall v, w :: 0 <= v < |s.workers| && 0 <= w < |s.workers| ==>
          Busy(s.workers[v]) && Busy(s.workers[w]) ==> v == w)
    && (!s.submitted ==> s.tasks == 0 && s.regs == [] && forall w :: 0 <= w < |s.workers| ==> !Busy(s.workers[w]))
  }

  ghost predicate LiveOk(s: State, id: nat)
    requires id < |s.regs|
  {
    Live(s, id) ==>
      && s.regs[id].gen == |s.gens| - 1 && s.tasks == 0
      && forall w :: 0 <= w < |s.workers| && Busy(s.workers[w]) ==>
           && w == s.regs[id].loop
           && (s.workers[w].Inside? || (s.workers[w].After? && s.co != Ready))
           && (s.workers[w].Inside? ==> s.setup == Some(s.regs[id].gen))
  }

  ghost predicate RegOk(s: State, id: nat)
    requires id < |s.regs|
  {
    var r := s.regs[id];
    && r.gen < |s.gens| && r.loop < |s.workers|
    && (r.fate == Copied ==> s.workers[r.loop].Dispatching? && id in s.workers[r.loop].calls)
    && (!s.gens[r.gen].guarded && s.gens[r.gen].fired ==> r.fate == Called)
  }

  ghost predicate CallsOk(s: State, w: nat)
    requires w < |s.workers|
  {
    s.workers[w].Dispatching? ==>
      var calls := s.workers[w].calls;
      && calls != []
      && (forall k :: 0 <= k < |calls| ==>
            calls[k] < |s.regs| && s.regs[calls[k]].fate == Copied && s.regs[calls[k]].loop == w)
      && (forall j, k :: 0 <= j < k < |calls| ==> calls[j] != calls[k])
  }

  ghost predicate GenOk(g: Gen) {
    g.submits <= 1 && (!g.fired ==> g.submits == 0)
  }

  ghost predicate SetupOk(s: State) {
    s.setup.Some? ==>
      && s.setup.value == |s.gens| - 1 && !s.gens[s.setup.value].fired
      && exists w :: 0 <= w < |s.workers| && s.workers[w].Inside?
  }

  ghost predicate SingleOk(s: State) {
    forall i, j :: 0 <= i < j < |s.regs| && s.regs[i].gen == s.regs[j].gen && s.regs[i].gen < |s.gens| ==>
      s.gens[s.regs[i].gen].guarded
  }

  ghost predicate Inv(s: State) {
    && OneToken(s) && SetupOk(s) && SingleOk(s)
    && (forall id :: 0 <= id < |s.regs| ==> RegOk(s, id))
    && (forall id :: 0 <= id < |s.regs| ==> LiveOk(s, id))
    && (forall w :: 0 <= w < |s.workers| ==> CallsOk(s, w))
    && (forall g :: 0 <= g < |s.gens| ==> GenOk(s.gens[g]))
  }

  // Each step keeps it.

  /** Steps that change neither registrations, wait calls nor who is dispatching. */
  lemma RegsKept(s: State, s': State)
    requires forall id :: 0 <= id < |s.regs| ==> RegOk(s, id)
    requires forall w :: 0 <= w < |s.workers| ==> CallsOk(s, w)
    requires s'.regs == s.regs && s'.gens == s.gens && |s'.workers| == |s.workers|
    requires forall w :: 0 <= w < |s.workers| && (s.workers[w].Dispatching? || s'.workers[w].Dispatching?) ==>
               s'.workers[w] == s.workers[w]
    ensures forall id :: 0 <= id < |s'.regs| ==> RegOk(s', id)
    ensures forall w :: 0 <= w < |s'.workers| ==> CallsOk(s', w)
  {
    forall id | 0 <= id < |s'.regs| ensures RegOk(s', id) { assert RegOk(s, id); }
    forall v | 0 <= v < |s'.workers| ensures CallsOk(s', v) { assert CallsOk(s, v); }
  }

  lemma SubmitKeeps(s: State)
    requires Inv(s)
    ensures Inv(Step(s, Submit))
  {
    RegsKept(s, Step(s, Submit));
  }

  lemma PickKeeps(s: State, w: nat)
    requires Inv(s)
    ensures Inv(Step(s, Pick(w)))
  {
    var s' := Step(s, Pick(w));
    RegsKept(s, s');
    forall id | 0 <= id < |s'.regs| ensures LiveOk(s', id) { assert LiveOk(s, id); }
  }

  lemma StartKeeps(s: State, w: nat)
    requires Inv(s)
    ensures Inv(Step(s, Start(w)))
  {
    var s' := Step(s, Start(w));
    RegsKept(s, s');
    forall id | 0 <= id < |s'.regs| ensures LiveOk(s', id) { assert LiveOk(s, id); }
  }

  lemma SwitchBackKeeps(s: State, a: Action)
    requires Inv(s) && (a.Wait? || a.Yield? || a.Finish?)
    ensures Inv(Step(s, a))
  {
    hide Inv, Step;
    match a
    case Wait(w) => WaitKeeps(s, w);
    case Yield(w) => YieldKeeps(s, w);
    case Finish(w) => FinishKeeps(s, w);
    case _ =>
  }

  lemma WaitKeeps(s: State, w: nat)
    requires Inv(s)
    ensures Inv(Step(s, Wait(w)))
  {
    var s' := Step(s, Wait(w));
    RegsKept(s, s');
    forall id | 0 <= id < |s'.regs| ensures LiveOk(s', id) { assert LiveOk(s, id); }
  }

  lemma YieldKeeps(s: State, w: nat)
    requires Inv(s)
    ensures Inv(Step(s, Yield(w)))
  {
    var s' := Step(s, Yield(w));
    RegsKept(s, s');
    forall id | 0 <= id < |s'.regs| ensures LiveOk(s', id) { assert LiveOk(s, id); }
  }

  lemma FinishKeeps(s: State, w: nat)
    requires Inv(s)
    ensures Inv(Step(s, Finish(w)))
  {
    var s' := Step(s, Finish(w));
    RegsKept(s, s');
    forall id | 0 <= id < |s'.regs| ensures LiveOk(s', id) { assert LiveOk(s, id); }
  }

  lemma CheckReadyKeeps(s: State, w: nat, accepted: bool)
    requires Inv(s)
    ensures Inv(Step(s, CheckReady(w, accepted)))
  {
    var s' := Step(s, CheckReady(w, accepted));
    RegsKept(s, s');
    forall id | 0 <= id < |s'.regs| ensures LiveOk(s', id) { assert LiveOk(s, id); }
  }

  lemma GiveUpKeeps(s: State, w: nat)
    requires Inv(s)
    ensures Inv(Step(s, GiveUp(w)))
  {
    var s' := Step(s, GiveUp(w));
    RegsKept(s, s');
    forall id | 0 <= id < |s'.regs| ensures LiveOk(s', id) { assert LiveOk(s, id); }
  }

  lemma GensInRange(s: State)
    requires forall id :: 0 <= id < |s.regs| ==> RegOk(s, id)
    ensures forall id :: 0 <= id < |s.regs| ==> s.regs[id].gen < |s.gens|
  {
    forall id | 0 <= id < |s.regs| ensures s.regs[id].gen < |s.gens| { assert RegOk(s, id); }
  }

  /** A wait call stays in preparation as long as the worker inside the coroutine stays there. */
  lemma SetupKept(s: State, s': State)
    requires SetupOk(s) && s'.setup == s.setup && |s'.workers| == |s.workers| && |s'.gens| == |s.gens|
    requires forall w :: 0 <= w < |s.workers| && s.workers[w].Inside? ==> s'.workers[w].Inside?
    requires s.setup.Some? ==> s'.gens[|s.gens| - 1] == s.gens[|s.gens| - 1]
    ensures SetupOk(s')
  {
    if s.setup.Some? {
      var w :| 0 <= w < |s.workers| && s.workers[w].Inside?;
      assert s'.workers[w].Inside?;
    }
  }

  lemma BeginWaitKeeps(s: State, w: nat, guarded: bool)
    requires Inv(s)
    ensures Inv(Step(s, BeginWait(w, guarded)))
  {
    var s' := Step(s, BeginWait(w, guarded));
    GensInRange(s);
    forall id | 0 <= id < |s'.regs| ensures RegOk(s', id) && LiveOk(s', id) {
      assert RegOk(s, id) && LiveOk(s, id);
    }
    forall v | 0 <= v < |s'.workers| ensures CallsOk(s', v) { assert CallsOk(s, v); }
    forall g | 0 <= g < |s'.gens| ensures GenOk(s'.gens[g]) { if g < |s.gens| { assert GenOk(s.gens[g]); } }
  }

  lemma RegisterKeeps(s: State, w: nat)
    requires Inv(s)
    ensures Inv(Step(s, Register(w)))
  {
    var s' := Step(s, Register(w));
    forall id | 0 <= id < |s'.regs| ensures RegOk(s', id) && LiveOk(s', id) {
      if id < |s.regs| { assert RegOk(s, id) && LiveOk(s, id); }
    }
    forall v | 0 <= v < |s'.workers| ensures CallsOk(s', v) { assert CallsOk(s, v); }
  }

  lemma CopyKeeps(s: State, w: nat, calls: seq<nat>)
    requires Inv(s) && Is(s, w, Free) && MayCopy(s, w, calls)
    ensures Inv(Step(s, Copy(w, calls)))
  {
    var s' := Step(s, Copy(w, calls));
    SetupKept(s, s');
    CopyRegs(s, w, calls);
    assert SingleOk(s') by {
      forall i, j | 0 <= i < j < |s'.regs| && s'.regs[i].gen == s'.regs[j].gen && s'.regs[i].gen < |s'.gens|
        ensures s'.gens[s'.regs[i].gen].guarded
      {
        assert s.regs[i].gen == s.regs[j].gen;
      }
    }
  }

  lemma CopyRegs(s: State, w: nat, calls: seq<nat>)
    requires Inv(s) && Is(s, w, Free) && MayCopy(s, w, calls)
    ensures
      var s' := Step(s, Copy(w, calls));
      && (forall id :: 0 <= id < |s'.regs| ==> RegOk(s', id) && LiveOk(s', id))
      && (forall v :: 0 <= v < |s'.workers| ==> CallsOk(s', v))
  {
    var s' := Step(s, Copy(w, calls));
    forall id | 0 <= id < |s'.regs| ensures RegOk(s', id) && LiveOk(s', id) {
      assert RegOk(s, id) && LiveOk(s, id);
    }
    forall v | 0 <= v < |s'.workers| ensures CallsOk(s', v) {
      assert CallsOk(s, v);
      if v != w && s.workers[v].Dispatching? {
        forall k | 0 <= k < |s.workers[v].calls|
          ensures s.workers[v].calls[k] < |s'.regs| && s'.regs[s.workers[v].calls[k]] == s.regs[s.workers[v].calls[k]]
        {
          assert s.regs[s.workers[v].calls[k]].fate == Copied;
        }
      }
    }
  }

  lemma DropKeeps(s: State, id: nat)
    requires Inv(s)
    ensures Inv(Step(s, Drop(id)))
  {
    var s' := Step(s, Drop(id));
    forall i | 0 <= i < |s'.regs| ensures RegOk(s', i) && LiveOk(s', i) {
      assert RegOk(s, i) && LiveOk(s, i);
    }
    forall v | 0 <= v < |s'.workers| ensures CallsOk(s', v) { assert CallsOk(s, v); }
  }

  lemma CancelKeeps(s: State)
    requires Inv(s)
    ensures Inv(Step(s, Cancel))
  {
    var s' := Step(s, Cancel);
    RegsKept(s, s');
    forall id | 0 <= id < |s'.regs| ensures LiveOk(s', id) { assert LiveOk(s, id); }
  }

  /** A live callback is called only while the coroutine is in no queue and in nobody's hands. */
  lemma LiveCallFindsItParked(s: State, w: nat)
    requires Inv(s) && w < |s.workers| && s.workers[w].Dispatching? && s.workers[w].calls != []
    requires Live(s, s.workers[w].calls[0])
    ensures s.tasks == 0 && forall v :: 0 <= v < |s.workers| ==> !Busy(s.workers[v])
  {
    var id := s.workers[w].calls[0];
    assert CallsOk(s, w) && RegOk(s, id) && LiveOk(s, id);
  }

  /** The state after the next callback has been taken off the list and marked, before its flag test. */
  function Taken(s: State, w: nat): State
    requires w < |s.workers| && s.workers[w].Dispatching? && s.workers[w].calls != []
    requires s.workers[w].calls[0] < |s.regs|
  {
    var calls := s.workers[w].calls;
    At(s, w, if |calls| == 1 then Free else Dispatching(calls[1..])).(
      regs := s.regs[calls[0] := s.regs[calls[0]].(fate := Called)])
  }

  lemma TakenKeeps(s: State, w: nat)
    requires Inv(s) && w < |s.workers| && s.workers[w].Dispatching? && s.workers[w].calls != []
    ensures s.workers[w].calls[0] < |s.regs| && Inv(Taken(s, w))
  {
    assert CallsOk(s, w);
    var s' := Taken(s, w);
    SetupKept(s, s');
    forall i | 0 <= i < |s'.regs| ensures RegOk(s', i) && LiveOk(s', i) {
      assert RegOk(s, i) && LiveOk(s, i);
    }
    hide LiveOk, RegOk;
    forall v | 0 <= v < |s'.workers| ensures CallsOk(s', v) {
      assert CallsOk(s, v);
    }
    SingleKept(s, s');
  }

  lemma SingleKept(s: State, s': State)
    requires SingleOk(s) && |s'.regs| == |s.regs| && |s'.gens| == |s.gens|
    requires forall i :: 0 <= i < |s.regs| ==> s'.regs[i].gen == s.regs[i].gen
    requires forall g :: 0 <= g < |s.gens| ==> s'.gens[g].guarded == s.gens[g].guarded
    ensures SingleOk(s')
  {
    forall i, j | 0 <= i < j < |s'.regs| && s'.regs[i].gen == s'.regs[j].gen && s'.regs[i].gen < |s'.gens|
      ensures s'.gens[s'.regs[i].gen].guarded
    {
      assert s.regs[i].gen == s.regs[j].gen;
    }
  }

  /** Firing the current wait call, whose last live callback has just been marked, hands out the token. */
  lemma FireKeeps(s: State, g: nat, more: nat)
    requires Inv(s) && g < |s.gens| && g == |s.gens| - 1 && !s.gens[g].fired && more <= 1 && s.submitted
    requires s.tasks == 0 && forall v :: 0 <= v < |s.workers| ==> !Busy(s.workers[v])
    requires s.gens[g].guarded || forall i :: 0 <= i < |s.regs| && s.regs[i].gen == g ==> s.regs[i].fate == Called
    ensures Inv(s.(gens := s.gens[g := s.gens[g].(fired := true, submits := s.gens[g].submits + more)], tasks := more))
  {
    var s' := s.(gens := s.gens[g := s.gens[g].(fired := true, submits := s.gens[g].submits + more)], tasks := more);
    assert GenOk(s.gens[g]);
    forall i | 0 <= i < |s'.regs| ensures RegOk(s', i) && LiveOk(s', i) {
      assert RegOk(s, i) && LiveOk(s, i);
    }
    forall v | 0 <= v < |s'.workers| ensures CallsOk(s', v) { assert CallsOk(s, v); }
    forall h | 0 <= h < |s'.gens| ensures GenOk(s'.gens[h]) { assert GenOk(s.gens[h]); }
    SingleKept(s, s');
  }

  lemma CallKeeps(s: State, w: nat, accepted: bool)
    requires Inv(s) && w < |s.workers| && s.workers[w].Dispatching?
    ensures Inv(CallStep(s, w, accepted))
  {
    var calls := s.workers[w].calls;
    assert CallsOk(s, w);
    TakenKeeps(s, w);
    CallIsLive(s, w);
    var id := calls[0];
    if Live(s, id) {
      LiveCallFindsItParked(s, w);
      assert LiveOk(s, id);
      LastCall(s, w);
      hide Inv;
      FireKeeps(Taken(s, w), s.regs[id].gen, if accepted then 1 else 0);
    }
  }

  /** An unguarded wait call has made one callback only. */
  lemma LastCall(s: State, w: nat)
    requires Inv(s) && w < |s.workers| && s.workers[w].Dispatching? && s.workers[w].calls != []
    requires s.workers[w].calls[0] < |s.regs| && s.regs[s.workers[w].calls[0]].gen < |s.gens|
    ensures
      var t, g := Taken(s, w), s.regs[s.workers[w].calls[0]].gen;
      && s.submitted
      && (s.gens[g].guarded || forall i :: 0 <= i < |t.regs| && t.regs[i].gen == g ==> t.regs[i].fate == Called)
  {
  }

  /** The flag test of the callbacks: a copied callback submits exactly when it is live. */
  lemma CallIsLive(s: State, w: nat)
    requires Inv(s) && w < |s.workers| && s.workers[w].Dispatching? && s.workers[w].calls != []
    ensures
      var id := s.workers[w].calls[0];
      && id < |s.regs| && s.regs[id].gen < |s.gens|
      && (Live(s, id) <==> !(s.gens[s.regs[id].gen].guarded && s.gens[s.regs[id].gen].fired))
  {
    assert CallsOk(s, w);
    assert RegOk(s, s.workers[w].calls[0]);
  }

  lemma StepKeeps(s: State, a: Action)
    requires Inv(s)
    ensures Inv(Step(s, a))
  {
    match a
    case Submit => SubmitKeeps(s);
    case Pick(w) => PickKeeps(s, w);
    case Start(w) => StartKeeps(s, w);
    case BeginWait(w, guarded) => BeginWaitKeeps(s, w, guarded);
    case Register(w) => RegisterKeeps(s, w);
    case Copy(w, calls) => if Is(s, w, Free) && MayCopy(s, w, calls) { CopyKeeps(s, w, calls); }
    case Call(w, accepted) => hide Inv; if w < |s.workers| && s.workers[w].Dispatching? { CallKeeps(s, w, accepted); }
    case Drop(id) => DropKeeps(s, id);
    case Cancel => CancelKeeps(s);
    case CheckReady(w, accepted) => CheckReadyKeeps(s, w, accepted);
    case GiveUp(w) => GiveUpKeeps(s, w);
    case _ => SwitchBackKeeps(s, a);
  }

  lemma {:induction false} Always(n: nat, acts: seq<Action>)
    ensures Inv(Run(n, acts)) && |Run(n, acts).workers| == n
  {
    if acts != [] {
      Always(n, acts[..|acts| - 1]);
      StepKeeps(Run(n, acts[..|acts| - 1]), acts[|acts| - 1]);
      SameWorkers(Run(n, acts[..|acts| - 1]), acts[|acts| - 1]);
      hide Inv, Step;
    }
  }

  lemma SameWorkers(s: State, a: Action)
    ensures |Step(s, a).workers| == |s.workers|
  {
  }

  // The results.

  /** Whatever the interleaving, a coroutine submitted once is never in two queues, never in the hands
      of two workers, never both; and a wait call submits it at most once. */
  lemma ResumedByOneWorker(n: nat, acts: seq<Action>)
    ensures
      var s := Run(n, acts);
      && |s.workers| == n
      && (forall v, w :: 0 <= v < n && 0 <= w < n && Busy(s.workers[v]) && Busy(s.workers[w]) ==> v == w)
      && s.tasks <= 1
      && (s.tasks == 1 ==> forall w :: 0 <= w < n ==> !Busy(s.workers[w]))
      && (forall g :: 0 <= g < |s.gens| ==> s.gens[g].submits <= 1)
  {
    Always(n, acts);
    var s := Run(n, acts);
    forall g | 0 <= g < |s.gens| ensures s.gens[g].submits <= 1 { assert GenOk(s.gens[g]); }
  }

  /** A callback that could still wake a coroutine while some worker has it lies on that worker's own
      loop, is waiting there, and belongs to the wait call the coroutine is making. */
  lemma LiveWakeUpsAreLocal(n: nat, acts: seq<Action>, id: nat, w: nat)
    ensures
      var s := Run(n, acts);
      Live(s, id) && w < |s.workers| && Busy(s.workers[w]) ==>
        && s.regs[id].loop == w && s.regs[id].fate == Pending && s.regs[id].gen == |s.gens| - 1
        && !s.workers[w].Starting?
  {
    Always(n, acts);
    var s := Run(n, acts);
    if Live(s, id) && w < |s.workers| && Busy(s.workers[w]) {
      assert LiveOk(s, id) && RegOk(s, id);
    }
  }

  // Yielding while cancelled: `yield` marks the coroutine ready, and `resume` refuses to enter it.

  predicate YieldsCancelled(s: State, a: Action) {
    a.Yield? && Is(s, a.w, Inside) && s.setup.None? && s.cancelled
  }

  /** The coroutine has yielded while cancelled, and nobody has cancelled it since. */
  ghost predicate Spoiled(n: nat, acts: seq<Action>) {
    exists i: nat :: i < |acts| && YieldsCancelled(Run(n, acts[..i]), acts[i])
                     && forall j: nat :: i < j < |acts| ==> !acts[j].Cancel?
  }

  lemma SpoiledSnoc(n: nat, acts: seq<Action>, a: Action)
    ensures Spoiled(n, acts + [a]) == (YieldsCancelled(Run(n, acts), a) || (Spoiled(n, acts) && !a.Cancel?))
  {
    hide Run, YieldsCancelled;
    var all := acts + [a];
    assert all[..|acts|] == acts && all[|acts|] == a;
    forall i: nat | i < |acts|
      ensures all[..i] == acts[..i] && all[i] == acts[i]
    {
    }
    if Spoiled(n, all) && !YieldsCancelled(Run(n, acts), a) {
      var i: nat :| i < |all| && YieldsCancelled(Run(n, all[..i]), all[i])
                    && forall j: nat :: i < j < |all| ==> !all[j].Cancel?;
      assert i < |acts| && !all[|acts|].Cancel?;
      assert forall j: nat :: i < j < |acts| ==> acts[j] == all[j];
    }
    if Spoiled(n, acts) && !a.Cancel? {
      var i: nat :| i < |acts| && YieldsCancelled(Run(n, acts[..i]), acts[i])
                    && forall j: nat :: i < j < |acts| ==> !acts[j].Cancel?;
      assert YieldsCancelled(Run(n, all[..i]), all[i]);
      assert forall j: nat :: i < j < |all| ==> j == |acts| || all[j] == acts[j];
    }
  }

  /** Inside the coroutine its state is running, or cancelled. */
  ghost predicate InsideOk(s: State) {
    forall w :: 0 <= w < |s.workers| && s.workers[w].Inside? ==> s.co.Running? || (s.cancelled && s.co.Cancelled?)
  }

  lemma InsideKeeps(s: State, a: Action)
    requires OneToken(s) && InsideOk(s)
    ensures InsideOk(Step(s, a))
  {
    hide MarkCopied, MayCopy, HasRegistration;
  }

  lemma HasOneToken(s: State)
    requires Inv(s)
    ensures OneToken(s)
  {
  }

  lemma ReadyStep(s: State, a: Action)
    requires InsideOk(s)
    ensures var t := Step(s, a);
            && (s.cancelled ==> t.cancelled)
            && (t.cancelled && !s.cancelled ==> !t.co.Ready?)
            && (s.cancelled ==> (t.co.Ready? <==> YieldsCancelled(s, a) || (s.co.Ready? && !a.Cancel?)))
  {
    hide MarkCopied;
  }

  /** A cancelled coroutine is ready exactly if it has yielded since it was last cancelled. */
  lemma {:induction false} ReadyIffSpoiled(n: nat, acts: seq<Action>)
    ensures var s := Run(n, acts); InsideOk(s) && (s.cancelled && s.co.Ready? <==> Spoiled(n, acts))
    ensures Run(n, acts).cancelled || !Spoiled(n, acts)
  {
    if acts == [] {
      NotSpoiledYet(n);
    } else {
      hide *;
      var before, a := acts[..|acts| - 1], acts[|acts| - 1];
      ReadyIffSpoiled(n, before);
      ReadyIffSpoiledSnoc(n, before, a);
      assert before + [a] == acts;
    }
  }

  lemma ReadyIffSpoiledSnoc(n: nat, acts: seq<Action>, a: Action)
    requires InsideOk(Run(n, acts))
    requires Run(n, acts).cancelled && Run(n, acts).co.Ready? <==> Spoiled(n, acts)
    requires Run(n, acts).cancelled || !Spoiled(n, acts)
    ensures var s := Run(n, acts + [a]); InsideOk(s) && (s.cancelled && s.co.Ready? <==> Spoiled(n, acts + [a]))
    ensures Run(n, acts + [a]).cancelled || !Spoiled(n, acts + [a])
  {
    hide *;
    var s := Run(n, acts);
    Always(n, acts);
    HasOneToken(s);
    InsideKeeps(s, a);
    ReadyStep(s, a);
    RunSnoc(n, acts, a);
    SpoiledSnoc(n, acts, a);
    YieldNeedsCancelled(s, a);
  }

  lemma NotSpoiledYet(n: nat)
    ensures InsideOk(Run(n, [])) && !Run(n, []).cancelled && !Spoiled(n, [])
  {
  }

  lemma YieldNeedsCancelled(s: State, a: Action)
    ensures YieldsCancelled(s, a) ==> s.cancelled
  {
  }

  /** At the end of a resume task, a cancelled coroutine is submitted again if and only if it has
      yielded while cancelled and nobody has cancelled it since. */
  lemma ResubmittedIffYieldedCancelled(n: nat, acts: seq<Action>, w: nat)
    requires Run(n, acts).cancelled && Is(Run(n, acts), w, After)
    ensures Run(n, acts + [CheckReady(w, true)]).tasks == Run(n, acts).tasks + if Spoiled(n, acts) then 1 else 0
  {
    hide Spoiled, Run, InsideOk;
    ReadyIffSpoiled(n, acts);
    RunSnoc(n, acts, CheckReady(w, true));
  }

  predicate NobodyInside(s: State) {
    forall w :: 0 <= w < |s.workers| ==> !s.workers[w].Inside?
  }

  lemma NeverEntered(s: State, a: Action)
    requires s.cancelled && NobodyInside(s)
    ensures var t := Step(s, a);
            t.cancelled && NobodyInside(t) && (t.co.Ready? <==> s.co.Ready? && !a.Cancel?)
  {
    hide MarkCopied;
  }

  /** Once a cancelled coroutine has been left it is never entered again; if it was left ready it stays
      so, and every further resume task is refused and submitted again, until somebody cancels it once more. */
  lemma {:induction false} RefusedUntilCancelledAgain(n: nat, acts: seq<Action>, more: seq<Action>)
    requires Run(n, acts).cancelled && NobodyInside(Run(n, acts))
    ensures var t := Run(n, acts + more); t.cancelled && NobodyInside(t)
    ensures Run(n, acts + more).co.Ready? <==> Run(n, acts).co.Ready? && NoCancel(more)
    decreases |more|
  {
    hide Run, Step, NobodyInside;
    if more == [] {
      assert acts + more == acts;
    } else {
      hide NoCancel;
      var fewer, a := more[..|more| - 1], more[|more| - 1];
      RefusedUntilCancelledAgain(n, acts, fewer);
      assert acts + fewer + [a] == acts + more;
      RunSnoc(n, acts + fewer, a);
      NeverEntered(Run(n, acts + fewer), a);
      NoCancelSnoc(more);
    }
  }

  predicate NoCancel(acts: seq<Action>) {
    forall j :: 0 <= j < |acts| ==> !acts[j].Cancel?
  }

  lemma NoCancelSnoc(acts: seq<Action>)
    requires acts != []
    ensures NoCancel(acts) == (NoCancel(acts[..|acts| - 1]) && !acts[|acts| - 1].Cancel?)
  {
  }

  lemma RunSnoc(n: nat, acts: seq<Action>, a: Action)
    ensures Run(n, acts + [a]) == Step(Run(n, acts), a)
  {
    assert (acts + [a])[..|acts|] == acts;
  }

  /** A coroutine is cancelled while running and then yields; its resume task is taken, refused and
      submitted again, which leads back to the same state. */
  lemma CancelledYieldRun() returns (acts: seq<Action>)
    ensures var s := Run(1, acts);
            && s.cancelled && s.co == Ready && s.tasks == 1 && s.workers == [Free]
            && Run(1, acts + [Pick(0)] + [Start(0)] + [CheckReady(0, true)]) == s
  {
    assert Run(1, []) == Init(1);
    hide Run, Step;
    EnteredOnce();
    RunSnoc(1, [], Submit);
    acts := [] + [Submit];
    RunSnoc(1, acts, Pick(0));
    acts := acts + [Pick(0)];
    RunSnoc(1, acts, Start(0));
    acts := acts + [Start(0)];
    var s := Run(1, acts);
    RunSnoc(1, acts, Cancel);
    RunSnoc(1, acts + [Cancel], Yield(0));
    RunSnoc(1, acts + [Cancel] + [Yield(0)], CheckReady(0, true));
    acts := acts + [Cancel] + [Yield(0)] + [CheckReady(0, true)];
    RunSnoc(1, acts, Pick(0));
    RunSnoc(1, acts + [Pick(0)], Start(0));
    RunSnoc(1, acts + [Pick(0)] + [Start(0)], CheckReady(0, true));
    CancelledYieldSpins(s, 0);
  }

  lemma EnteredOnce()
    ensures Step(Step(Step(Init(1), Submit), Pick(0)), Start(0)) ==
            State(Running, false, true, 0, [Inside], None, [], [])
  {
    assert Init(1).workers == [Free];
  }

  /** The cycle of that run, from any state inside a running coroutine: back to where it began. */
  lemma CancelledYieldSpins(s: State, w: nat)
    requires Is(s, w, Inside) && s.setup.None? && s.tasks == 0 && s.co == Running
    ensures
      var t := Step(Step(Step(s, Cancel), Yield(w)), CheckReady(w, true));
      && t.cancelled && t.co == Ready && t.tasks == 1 && t.workers == s.workers[w := Free]
      && Step(Step(Step(t, Pick(w)), Start(w)), CheckReady(w, true)) == t
  {
    var t := Step(Step(Step(s, Cancel), Yield(w)), CheckReady(w, true));
    assert t == s.(cancelled := true, co := Ready, tasks := 1, workers := s.workers[w := Free]);
    var u := Step(Step(Step(t, Pick(w)), Start(w)), CheckReady(w, true));
    assert u.workers == t.workers;
  }
}

/**
 The code that takes those steps: the resume task, the switches of a coroutine, the callbacks and the
 hooks that wait. A context switch is a change of `place`; `others` says what other threads do in
 between. The record `state` stands for the fields of the coroutine, the queues and the event loops.
*/
module WakeupObject {
  import opened Wrappers
  import opened WakeupMachine

  /** What threads other than that of worker `w` do. */
  predicate Foreign(a: Action, w: nat) {
    match a
    case Submit => true
    case Drop(_) => true
    case Cancel => true
    case Pick(v) => v != w
    case Start(v) => v != w
    case BeginWait(v, _) => v != w
    case Register(v) => v != w
    case GiveUp(v) => v != w
    case Wait(v) => v != w
    case Yield(v) => v != w
    case Finish(v) => v != w
    case CheckReady(v, _) => v != w
    case Copy(v, _) => v != w
    case Call(v, _) => v != w
  }

  /** The registrations of wait call `g` are on the loop of `w`, pending or dropped. */
  ghost predicate Waits(s: State, w: nat, g: nat) {
    forall id :: 0 <= id < |s.regs| && s.regs[id].gen == g ==>
      s.regs[id].loop == w && (s.regs[id].fate == Pending || s.regs[id].fate == Dropped)
  }

  /** Worker `w` is inside the coroutine and prepares wait call `g`. */
  ghost predicate Preparing(s: State, w: nat, g: nat) {
    && Is(s, w, Inside) && s.setup == Some(g) && |s.gens| == g + 1 && !s.gens[g].fired
    && Waits(s, w, g)
  }

  lemma ForeignKeepsPreparing(s: State, a: Action, w: nat, g: nat)
    requires Inv(s) && Preparing(s, w, g) && Foreign(a, w)
    ensures Preparing(Step(s, a), w, g) && Step(s, a).gens[g].guarded == s.gens[g].guarded
    ensures Step(s, a).gens == s.gens && |Step(s, a).regs| == |s.regs|
  {
    if a.Call? {
      ForeignCall(s, a.w, a.accepted, w, g);
    } else if a.Copy? {
      ForeignCopy(s, a.w, a.calls, w, g);
    } else {
      hide Inv;
    }
  }

  lemma ForeignCopy(s: State, v: nat, calls: seq<nat>, w: nat, g: nat)
    requires Preparing(s, w, g) && v != w
    ensures var s' := Step(s, Copy(v, calls)); Preparing(s', w, g) && s'.gens == s.gens && |s'.regs| == |s.regs|
  {
  }

  lemma ForeignCall(s: State, v: nat, accepted: bool, w: nat, g: nat)
    requires Inv(s) && Preparing(s, w, g) && v != w
    ensures var s' := Step(s, Call(v, accepted)); Preparing(s', w, g) && s'.gens == s.gens && |s'.regs| == |s.regs|
  {
    if v < |s.workers| && s.workers[v].Dispatching? {
      OldCallFiresNothing(s, v, accepted, w, g);
      hide Inv;
      var s' := CallStep(s, v, accepted);
      forall id | 0 <= id < |s'.regs| && s'.regs[id].gen == g
        ensures s'.regs[id].loop == w && (s'.regs[id].fate == Pending || s'.regs[id].fate == Dropped)
      {
        assert s'.regs[id] == s.regs[id];
      }
    }
  }

  /** A callback called elsewhere meanwhile belongs to an earlier wait call and finds its flag up. */
  lemma OldCallFiresNothing(s: State, v: nat, accepted: bool, w: nat, g: nat)
    requires Inv(s) && Preparing(s, w, g) && v < |s.workers| && s.workers[v].Dispatching?
    ensures s.workers[v].calls != [] && s.workers[v].calls[0] < |s.regs|
    ensures s.regs[s.workers[v].calls[0]].gen != g && CallStep(s, v, accepted).gens == s.gens
  {
    assert CallsOk(s, v);
    var id := s.workers[v].calls[0];
    assert RegOk(s, id) && LiveOk(s, id);
    assert s.regs[id].fate == Copied;
  }

  /** How a coroutine gives back control: it yields, ends, or waits in `poll_wait`. */
  datatype Ending = Yields | Ends | Polls(accepted: seq<bool>, timer: bool)

  /** While a worker has the coroutine in its hands, the others change its state only by cancelling it. */
  lemma ForeignKeepsHands(s: State, a: Action, w: nat)
    requires OneToken(s) && w < |s.workers| && Busy(s.workers[w]) && Foreign(a, w)
    ensures var t := Step(s, a);
            && w < |t.workers| && t.workers[w] == s.workers[w] && t.setup == s.setup
            && t.co == (if !a.Cancel? then s.co else if s.co.Finished? then Finished else Cancelled)
  {
    hide MarkCopied, MayCopy, HasRegistration;
  }

  /** A coroutine that is about to be resumed is making no wait call. */
  lemma NoSetupOutside(s: State, w: nat)
    requires OneToken(s) && SetupOk(s) && Is(s, w, Starting)
    ensures s.setup.None?
  {
  }

  lemma TokenAndSetup(n: nat, acts: seq<Action>)
    ensures OneToken(Run(n, acts)) && SetupOk(Run(n, acts))
  {
    Always(n, acts);
    hide Run;
  }

  class Wakeups {
    const n: nat
    var state: State
    ghost var trace: seq<Action>

    ghost predicate Valid()
      reads this
    {
      state == Run(n, trace) && |state.workers| == n
    }

    constructor (n: nat)
      ensures Valid() && this.n == n && trace == []
    {
      this.n, state, trace := n, Init(n), [];
    }

    ghost method Did(a: Action, was: State)
      requires was == Run(n, trace) && |was.workers| == n && state == Step(was, a)
      modifies `trace
      ensures Valid() && trace == old(trace) + [a]
    {
      assert (trace + [a])[..|trace|] == trace;
      SameWorkers(was, a);
      trace := trace + [a];
    }

    /** The start of the resume task and `resume` up to the switch. */
    method Resume(w: nat) returns (entered: bool)
      requires Valid() && Is(state, w, Starting)
      modifies this
      ensures Valid() && trace == old(trace) + [Start(w)]
      ensures entered <==> (old(state).co.Ready? || old(state).co.Waiting?) && !old(state).cancelled
      ensures Is(state, w, if entered then Inside else After)
      ensures state.co == if entered then Running else old(state).co
      ensures state.setup == old(state).setup
    {
      hide Run;
      entered := false;
      if state.co == Ready || state.co == Waiting {
        entered := !state.cancelled && state.co != Finished;
        if entered {
          state := state.(co := Running);
        }
      }
      state := state.(workers := state.workers[w := if entered then Inside else After]);
      Did(Start(w), old(state));
    }

    /** The end of the resume task: a coroutine that has yielded is submitted again. */
    method EndOfTask(w: nat, accepted: bool)
      requires Valid() && Is(state, w, After)
      modifies this
      ensures Valid() && trace == old(trace) + [CheckReady(w, accepted)] && Is(state, w, Free)
      ensures state.tasks == old(state).tasks + if old(state).co.Ready? && accepted then 1 else 0
    {
      hide Run;
      if state.co == Ready && accepted {
        state := state.(tasks := state.tasks + 1);
      }
      state := state.(workers := state.workers[w := Free]);
      Did(CheckReady(w, accepted), old(state));
    }

    /** `yield` marks the coroutine ready, cancelled or not. */
    method YieldNow(w: nat)
      requires Valid() && Is(state, w, Inside) && state.setup.None?
      modifies this
      ensures Valid() && trace == old(trace) + [Yield(w)]
      ensures Is(state, w, After) && state.co.Ready? && state.cancelled == old(state).cancelled
    {
      hide Run;
      state := state.(co := Ready, workers := state.workers[w := After]);
      Did(Yield(w), old(state));
    }

    method CancelCoroutine()
      requires Valid()
      modifies this
      ensures Valid() && trace == old(trace) + [Cancel]
      ensures state.cancelled && (state.co.Finished? <==> old(state).co.Finished?)
      ensures !state.co.Finished? ==> state.co.Cancelled?
      ensures state == old(state).(cancelled := true, co := state.co)
    {
      hide Run;
      state := state.(cancelled := true);
      if state.co != Finished {
        state := state.(co := Cancelled);
      }
      Did(Cancel, old(state));
    }

    /** A guarded callback: the one that finds the flag down puts it up and submits. */
    method Callback(w: nat, accepted: bool) returns (won: bool)
      requires Valid() && w < n && state.workers[w].Dispatching?
      modifies this
      ensures Valid() && trace == old(trace) + [Call(w, accepted)]
      ensures old(state).workers[w].calls != [] && old(state).workers[w].calls[0] < |old(state).regs|
      ensures var r := old(state).regs[old(state).workers[w].calls[0]];
              && r.gen < |state.gens| == |old(state).gens|
              && (won <==> !(old(state).gens[r.gen].guarded && old(state).gens[r.gen].fired))
              && state.gens[r.gen].fired
              && state.tasks == old(state).tasks + if won && accepted then 1 else 0
      ensures won ==> old(state).tasks == 0 && forall v :: 0 <= v < n ==> !Busy(old(state).workers[v])
    {
      NextCall(state, w);
      hide Run, Inv, Live, CallStep;
      won := TakeAndFire(w, accepted);
      Did(Call(w, accepted), old(state));
    }

    /** Take the first callback off the list and call it: exchange the flag, and submit if it was down. */
    method TakeAndFire(w: nat, accepted: bool) returns (won: bool)
      requires w < |state.workers| && state.workers[w].Dispatching? && state.workers[w].calls != []
      requires state.workers[w].calls[0] < |state.regs|
      requires state.regs[state.workers[w].calls[0]].gen < |state.gens|
      modifies `state
      ensures state == CallStep(old(state), w, accepted)
      ensures var g := old(state).regs[old(state).workers[w].calls[0]].gen;
              && |state.gens| == |old(state).gens| && state.gens[g].fired
              && (won <==> !(old(state).gens[g].guarded && old(state).gens[g].fired))
              && state.tasks == old(state).tasks + if won && accepted then 1 else 0
    {
      var calls := state.workers[w].calls;
      var id := calls[0];
      var g := state.regs[id].gen;
      state := state.(workers := state.workers[w := if |calls| == 1 then Free else Dispatching(calls[1..])],
                      regs := state.regs[id := state.regs[id].(fate := Called)]);
      won := !state.gens[g].guarded || !state.gens[g].fired;
      if won {
        var more := if accepted then 1 else 0;
        state := state.(gens := state.gens[g := state.gens[g].(fired := true, submits := state.gens[g].submits + more)],
                        tasks := state.tasks + more);
      }
    }

    lemma NextCall(s: State, w: nat)
      requires s == Run(n, trace) && w < |s.workers| && s.workers[w].Dispatching?
      ensures s.workers[w].calls != [] && s.workers[w].calls[0] < |s.regs|
      ensures s.regs[s.workers[w].calls[0]].gen < |s.gens|
      ensures var g := s.gens[s.regs[s.workers[w].calls[0]].gen];
              !(g.guarded && g.fired) ==> s.tasks == 0 && forall v :: 0 <= v < |s.workers| ==> !Busy(s.workers[v])
    {
      Always(n, trace);
      hide Run;
      assert CallsOk(s, w);
      CallIsLive(s, w);
      if Live(s, s.workers[w].calls[0]) {
        LiveCallFindsItParked(s, w);
      }
    }

    /** Other threads, while `w` prepares a wait call. */
    method Others(acts: seq<Action>, w: nat, ghost g: nat)
      requires Valid() && Preparing(state, w, g) && forall i :: 0 <= i < |acts| ==> Foreign(acts[i], w)
      modifies this
      ensures Valid() && trace == old(trace) + acts
      ensures Preparing(state, w, g) && state.gens == old(state).gens && |state.regs| == |old(state).regs|
    {
      hide Run, Step, Inv, Preparing;
      for i := 0 to |acts|
        invariant Valid() && trace == old(trace) + acts[..i]
        invariant Preparing(state, w, g) && state.gens == old(state).gens && |state.regs| == |old(state).regs|
      {
        ghost var was := state;
        GuardKept(state, w, g);
        Always(n, trace);
        ForeignKeepsPreparing(state, acts[i], w, g);
        state := Step(state, acts[i]);
        Did(acts[i], was);
      }
    }

    lemma GuardKept(s: State, w: nat, g: nat)
      requires Preparing(s, w, g)
      ensures g < |s.gens|
    {
    }

    /** Other threads, while worker `w` has the coroutine in its hands. */
    method Meanwhile(acts: seq<Action>, w: nat)
      requires Valid() && w < n && Busy(state.workers[w]) && forall i :: 0 <= i < |acts| ==> Foreign(acts[i], w)
      modifies this
      ensures Valid() && trace == old(trace) + acts
      ensures state.workers[w] == old(state).workers[w] && state.setup == old(state).setup
      ensures state.co == if NoCancel(acts) then old(state).co
                          else if old(state).co.Finished? then Finished else Cancelled
    {
      hide Run, Step, Foreign, Busy, OneToken, SetupOk;
      for i := 0 to |acts|
        invariant Valid() && trace == old(trace) + acts[..i]
        invariant state.workers[w] == old(state).workers[w] && state.setup == old(state).setup
        invariant state.co == if NoCancel(acts[..i]) then old(state).co
                              else if old(state).co.Finished? then Finished else Cancelled
      {
        ghost var was := state;
        TokenAndSetup(n, trace);
        ForeignKeepsHands(state, acts[i], w);
        assert acts[..i + 1][..i] == acts[..i];
        NoCancelSnoc(acts[..i + 1]);
        if acts[i].Cancel? {
          CancelCoroutine();
        } else {
          state := Step(state, acts[i]);
          Did(acts[i], was);
        }
      }
      assert acts[..|acts|] == acts;
    }

    /** The end of the coroutine's function. */
    method FinishNow(w: nat)
      requires Valid() && Is(state, w, Inside) && state.setup.None?
      modifies this
      ensures Valid() && trace == old(trace) + [Finish(w)] && Is(state, w, After) && state.co.Finished?
    {
      hide Run;
      state := state.(co := Finished, workers := state.workers[w := After]);
      Did(Finish(w), old(state));
    }

    method Begin(w: nat, guarded: bool)
      requires Valid() && Is(state, w, Inside) && state.setup.None?
      modifies this
      ensures Valid() && trace == old(trace) + [BeginWait(w, guarded)]
      ensures Preparing(state, w, |old(state).gens|) && state.gens == old(state).gens + [Gen(guarded, false, 0)]
      ensures state.regs == old(state).regs
    {
      Always(n, trace);
      GensInRange(state);
      state := state.(setup := Some(|state.gens|), gens := state.gens + [Gen(guarded, false, 0)]);
      hide Run, Inv;
      Did(BeginWait(w, guarded), old(state));
    }

    method RegisterOne(w: nat, ghost g: nat)
      requires Valid() && Preparing(state, w, g)
      requires state.gens[g].guarded || !HasRegistration(state, g)
      modifies this
      ensures Valid() && trace == old(trace) + [Register(w)]
      ensures Preparing(state, w, g) && state.gens == old(state).gens
      ensures state.regs == old(state).regs + [Registration(g, w, Pending)]
    {
      hide Run;
      state := state.(regs := state.regs + [Registration(state.setup.value, w, Pending)]);
      Did(Register(w), old(state));
    }

    method WaitNow(w: nat, ghost g: nat)
      requires Valid() && Preparing(state, w, g)
      modifies this
      ensures Valid() && trace == old(trace) + [Wait(w)]
      ensures Is(state, w, After) && state.co.Waiting? && state.gens == old(state).gens
      ensures state.regs == old(state).regs
    {
      hide Run;
      state := state.(co := Waiting, setup := None, workers := state.workers[w := After]);
      Did(Wait(w), old(state));
    }

    /** `poll_wait` up to the switch: one registration for every accepted direction and one for the
        timer, all sharing a flag that is still down when the coroutine is parked, and all on the
        loop of the worker it leaves. */
    method PollWait(w: nat, accepted: seq<bool>, timer: bool, others: nat -> seq<Action>) returns (ghost g: nat)
      requires Valid() && Is(state, w, Inside) && state.setup.None?
      requires forall k, i :: 0 <= i < |others(k)| ==> Foreign(others(k)[i], w)
      modifies this
      ensures Valid() && old(trace) <= trace
      ensures Is(state, w, After) && state.co.Waiting?
      ensures g == |old(state).gens| && state.gens == old(state).gens + [Gen(true, false, 0)]
      ensures Waits(state, w, g)
      ensures |state.regs| == |old(state).regs| + Trues(accepted) + if timer then 1 else 0
    {
      hide Run, Inv, HasRegistration, Foreign, Trues;
      g := |state.gens|;
      Begin(w, true);
      TruesEmpty();
      for i := 0 to |accepted|
        invariant Valid() && old(trace) <= trace && Preparing(state, w, g)
        invariant state.gens == old(state).gens + [Gen(true, false, 0)]
        invariant |state.regs| == |old(state).regs| + Trues(accepted[..i])
      {
        TruesSnoc(accepted, i);
        Others(others(i), w, g);
        if accepted[i] {
          RegisterOne(w, g);
        }
      }
      assert accepted[..|accepted|] == accepted;
      if timer {
        RegisterOne(w, g);
      }
      Others(others(|accepted|), w, g);
      WaitNow(w, g);
    }

    /** The resume task, with other threads while the coroutine runs and after it has given back control. It
        is submitted again exactly if nobody has cancelled the coroutine since it gave back control, and it
        has then yielded, or was ready and refused because it was cancelled before. */
    method ResumeTask(w: nat, ending: Ending, others: nat -> seq<Action>, accepted: bool)
      returns (entered: bool, again: bool)
      requires Valid() && Is(state, w, Starting)
      requires forall k, i :: 0 <= i < |others(k)| ==> Foreign(others(k)[i], w)
      modifies this
      ensures Valid() && old(trace) <= trace && Is(state, w, Free)
      ensures entered <==> (old(state).co.Ready? || old(state).co.Waiting?) && !old(state).cancelled
      ensures again <==> accepted && NoCancel(others(0)) && if entered then ending.Yields? else old(state).co.Ready?
    {
      hide Run, Foreign, OneToken, SetupOk, NoCancel;
      TokenAndSetup(n, trace);
      NoSetupOutside(state, w);
      entered := Resume(w);
      if entered {
        Meanwhile(others(1), w);
        match ending {
        case Yields => YieldNow(w);
        case Ends => FinishNow(w);
        case Polls(registered, timer) => {
          var _ := PollWait(w, registered, timer, (k: nat) => others(k + 2));
        }
        }
      }
      Meanwhile(others(0), w);
      again := state.co == Ready && accepted;
      EndOfTask(w, accepted);
    }

    /** One turn of `io_wait` up to the switch, or its return if the registration is refused. */
    method IoWait(w: nat, accepted: bool, others: seq<Action>) returns (parked: bool)
      requires Valid() && Is(state, w, Inside) && state.setup.None?
      requires forall i :: 0 <= i < |others| ==> Foreign(others[i], w)
      modifies this
      ensures Valid() && old(trace) <= trace && (parked <==> accepted)
      ensures parked ==> Is(state, w, After) && state.co.Waiting? && Waits(state, w, |old(state).gens|)
      ensures parked ==> |state.regs| == |old(state).regs| + 1
      ensures state.gens == old(state).gens + [Gen(true, false, 0)]
      ensures !parked ==> Is(state, w, Inside) && state.setup.None? && state.regs == old(state).regs
    {
      ghost var g := |state.gens|;
      Always(n, trace);
      GensInRange(state);
      hide Run, Inv, Foreign;
      Begin(w, true);
      if accepted {
        RegisterOne(w, g);
        Others(others, w, g);
        WaitNow(w, g);
      } else {
        ghost var was := state;
        state := state.(setup := None);
        Did(GiveUp(w), was);
      }
      parked := accepted;
    }
  }

  function Trues(s: seq<bool>): nat {
    if s == [] then 0 else Trues(s[..|s| - 1]) + if s[|s| - 1] then 1 else 0
  }

  lemma TruesEmpty()
    ensures forall s: seq<bool> :: |s| == 0 ==> Trues(s) == 0
  {
  }

  lemma TruesSnoc(s: seq<bool>, i: nat)
    requires i < |s|
    ensures Trues(s[..i + 1]) == Trues(s[..i]) + if s[i] then 1 else 0
  {
    assert s[..i + 1][..i] == s[..i];
  }
}
