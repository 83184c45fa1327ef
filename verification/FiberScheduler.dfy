/**
 The scheduler and the fibers of `fiber_lib/6hook`: worker threads take tasks from one queue,
 hold a fiber's mutex while it runs on them, and leave `run` once their idle fiber has seen
 `stopping()` hold. One step per lock-held block or atomic access; a run is any list of steps.
*/
module FiberMachine {

  type Fid = nat
  datatype FiberState = READY | RUNNING | TERM

  /** `thread` is the worker a task is pinned to, or -1. */
  datatype Task =
    | FiberTask(f: Fid, thread: int)
    | CallbackTask(cb: nat, thread: int)

  /** The number of a `scheduleLock` call. */
  type Ticket = nat

  /** Where a worker is in the loop of `run`, with the ticket of the task it has taken;
      `resumed` says whether the dispatch has called `resume`. */
  datatype Place =
    | Looking
    | Taken(t: Ticket)
    | Locked(t: Ticket, f: Fid)
    | Inside(t: Ticket, f: Fid)
    | Returned(t: Ticket, f: Fid, resumed: bool)
    | Unlocked(t: Ticket, resumed: bool)
    | NoTask
    | InIdle
    | Left

  /** `idleDone` says that the worker's idle fiber has seen `stopping()` hold and is TERM. */
  datatype Worker = Worker(place: Place, idleDone: bool)

  /** What has become of a scheduled task. */
  datatype Fate = Queued | Held(w: nat) | Done(resumed: bool)

  /** `tasks` is the queue; `log` and `fate` record every task scheduled and what became of it;
      `failed` records a failed assertion in `resume`. */
  datatype State = State(
    tasks: seq<Ticket>,
    active: nat,
    stopping: bool,
    workers: seq<Worker>,
    fibers: seq<FiberState>,
    holder: map<Fid, nat>,
    log: seq<Task>,
    fate: seq<Fate>,
    failed: bool)

  datatype Action =
    | Work(w: nat)
    | Schedule(w: nat, task: Task)
    | Yield(w: nat)
    | Finish(w: nat)
    | External(task: Task)
    | NewFiber
    | Stop

  function Init(n: nat): State {
    State([], 0, false, seq(n, _ => Worker(Looking, false)), [], map[], [], [], false)
  }

  predicate Eligible(log: seq<Task>, t: Ticket, w: int) {
    t < |log| && (log[t].thread == -1 || log[t].thread == w)
  }

  /** The position of the first task worker `w` may run, or the length of the queue. */
  function FirstFor(tasks: seq<Ticket>, log: seq<Task>, w: int): (i: nat)
    ensures i <= |tasks|
    ensures forall j :: 0 <= j < i ==> !Eligible(log, tasks[j], w)
    ensures i < |tasks| ==> Eligible(log, tasks[i], w)
  {
    if tasks == [] || Eligible(log, tasks[0], w) then 0 else 1 + FirstFor(tasks[1..], log, w)
  }

  /** The scan of the queue that stops at the first such task finds that position. */
  lemma {:induction false} FirstIs(tasks: seq<Ticket>, log: seq<Task>, w: int, i: nat)
    requires i <= |tasks| && forall j :: 0 <= j < i ==> !Eligible(log, tasks[j], w)
    requires i < |tasks| ==> Eligible(log, tasks[i], w)
    ensures FirstFor(tasks, log, w) == i
  {
    if tasks != [] && i > 0 {
      FirstIs(tasks[1..], log, w, i - 1);
    }
  }

  predicate Exists(fibers: seq<FiberState>, task: Task) {
    task.FiberTask? ==> task.f < |fibers|
  }

  /** `scheduleLock`. */
  function Enqueue(s: State, task: Task): State {
    if Exists(s.fibers, task)
    then s.(tasks := s.tasks + [|s.log|], log := s.log + [task], fate := s.fate + [Queued])
    else s
  }

  function At(s: State, w: nat, place: Place): State
    requires w < |s.workers|
  {
    s.(workers := s.workers[w := s.workers[w].(place := place)])
  }

  function Settle(fate: seq<Fate>, t: Ticket, x: Fate): seq<Fate> {
    if t < |fate| then fate[t := x] else fate
  }

  predicate Stopping(s: State) {
    s.stopping && s.tasks == [] && s.active == 0
  }

  function LookingStep(s: State, w: nat): State
    requires w < |s.workers|
  {
    var i := FirstFor(s.tasks, s.log, w);
    if i == |s.tasks| then At(s, w, NoTask)
    else At(s, w, Taken(s.tasks[i])).(tasks := s.tasks[..i] + s.tasks[i + 1..], active := s.active + 1,
                                      fate := Settle(s.fate, s.tasks[i], Held(w)))
  }

  function TakenStep(s: State, w: nat, t: Ticket): State
    requires w < |s.workers|
  {
    if t >= |s.log| then s
    else match s.log[t]
      case FiberTask(f, _) =>
        if f in s.holder then s else At(s, w, Locked(t, f)).(holder := s.holder[f := w])
      case CallbackTask(_, _) =>
        var f := |s.fibers|;
        At(s, w, Locked(t, f)).(fibers := s.fibers + [READY], holder := s.holder[f := w])
  }

  /** Lines 133 to 136 and 146: a fiber task that is TERM is skipped, any other fiber is resumed,
      and `resume` asserts that it is READY. */
  function LockedStep(s: State, w: nat, t: Ticket, f: Fid): State
    requires w < |s.workers|
  {
    if t >= |s.log| || f >= |s.fibers| then s
    else if s.log[t].FiberTask? && s.fibers[f] == TERM then At(s, w, Returned(t, f, false))
    else At(s, w, Inside(t, f)).(fibers := s.fibers[f := RUNNING], failed := s.failed || s.fibers[f] != READY)
  }

  function WorkStep(s: State, w: nat): State
    requires w < |s.workers|
  {
    match s.workers[w].place
    case Looking => LookingStep(s, w)
    case Taken(t) => TakenStep(s, w, t)
    case Locked(t, f) => LockedStep(s, w, t, f)
    case Inside(_, _) => s
    case Returned(t, f, resumed) => At(s, w, Unlocked(t, resumed)).(holder := s.holder - {f})
    case Unlocked(t, resumed) =>
      At(s, w, Looking).(active := if s.active > 0 then s.active - 1 else 0,
                         fate := Settle(s.fate, t, Done(resumed)))
    case NoTask => if s.workers[w].idleDone then At(s, w, Left) else At(s, w, InIdle)
    case InIdle => s.(workers := s.workers[w := Worker(Looking, Stopping(s))])
    case Left => s
  }

  /** `yield` and the end of `MainFunc`: the fiber leaves RUNNING and switches back. */
  function SwitchBack(s: State, w: nat, state: FiberState): State {
    if w < |s.workers| && s.workers[w].place.Inside? && s.workers[w].place.f < |s.fibers| then
      var f := s.workers[w].place.f;
      At(s, w, Returned(s.workers[w].place.t, f, true)).(fibers := s.fibers[f := state])
    else s
  }

  function Step(s: State, a: Action): State {
    match a
    case Work(w) => if w < |s.workers| then WorkStep(s, w) else s
    case Schedule(w, task) =>
      if w < |s.workers| && s.workers[w].place.Inside? then Enqueue(s, task) else s
    case Yield(w) => SwitchBack(s, w, READY)
    case Finish(w) => SwitchBack(s, w, TERM)
    case External(task) => Enqueue(s, task)
    case NewFiber => s.(fibers := s.fibers + [READY])
    case Stop => s.(stopping := true)
  }

  function Run(n: nat, acts: seq<Action>): State {
    if acts == [] then Init(n) else Step(Run(n, acts[..|acts| - 1]), acts[|acts| - 1])
  }

  // The invariant.

  /** Between taking a task and decrementing the active count. */
  predicate Busy(p: Place) {
    p.Taken? || HasFiber(p) || p.Unlocked?
  }

  predicate HasFiber(p: Place) {
    p.Locked? || p.Inside? || p.Returned?
  }

  function BusyCount(ws: seq<Worker>): nat {
    if ws == [] then 0 else BusyCount(ws[..|ws| - 1]) + if Busy(ws[|ws| - 1].place) then 1 else 0
  }

  ghost predicate QueueOk(tasks: seq<Ticket>, fate: seq<Fate>) {
    && (forall i :: 0 <= i < |tasks| ==> tasks[i] < |fate| && fate[tasks[i]] == Queued)
    && (forall i, j :: 0 <= i < j < |tasks| ==> tasks[i] < tasks[j])
    && (forall t :: 0 <= t < |fate| && fate[t] == Queued ==> t in tasks)
  }

  ghost predicate TicketOk(w: nat, p: Place, fate: seq<Fate>) {
    Busy(p) ==> p.t < |fate| && fate[p.t] == Held(w)
  }

  ghost predicate FateOk(t: Ticket, x: Fate, ws: seq<Worker>) {
    x.Held? ==> x.w < |ws| && Busy(ws[x.w].place) && ws[x.w].place.t == t
  }

  /** Every scheduled task is queued once, in the hands of one worker, or done. */
  ghost predicate Accounted(ws: seq<Worker>, tasks: seq<Ticket>, fate: seq<Fate>) {
    && QueueOk(tasks, fate)
    && (forall w :: 0 <= w < |ws| ==> TicketOk(w, ws[w].place, fate))
    && (forall t :: 0 <= t < |fate| ==> FateOk(t, fate[t], ws))
  }

  /** What a worker's place says about the fiber whose mutex it holds. */
  ghost predicate PlaceOk(w: nat, p: Place, holder: map<Fid, nat>, fibers: seq<FiberState>, log: seq<Task>) {
    HasFiber(p) ==>
      && p.f < |fibers| && p.f in holder && holder[p.f] == w
      && (fibers[p.f] == RUNNING <==> p.Inside?)
      && p.t < |log|
      && (p.Locked? && log[p.t].CallbackTask? ==> fibers[p.f] == READY)
      && (log[p.t].FiberTask? ==> log[p.t].f == p.f)
      && (p.Returned? && !p.resumed ==> log[p.t].FiberTask? && fibers[p.f] == TERM)
  }

  ghost predicate HolderOk(f: Fid, ws: seq<Worker>, w: nat) {
    w < |ws| && HasFiber(ws[w].place) && ws[w].place.f == f
  }

  /** A mutex is held by exactly the worker in its critical section, and a fiber is RUNNING exactly
      while the worker holding its mutex is inside it. */
  ghost predicate Owned(ws: seq<Worker>, holder: map<Fid, nat>, fibers: seq<FiberState>, log: seq<Task>) {
    && (forall w :: 0 <= w < |ws| ==> PlaceOk(w, ws[w].place, holder, fibers, log))
    && (forall f :: f in holder ==> f < |fibers| && HolderOk(f, ws, holder[f]))
    && (forall f :: 0 <= f < |fibers| && fibers[f] == RUNNING ==> f in holder)
  }

  ghost predicate SkipOk(task: Task, resumed: bool, fibers: seq<FiberState>) {
    !resumed ==> task.FiberTask? && task.f < |fibers| && fibers[task.f] == TERM
  }

  /** Every scheduled fiber exists, and a dispatch was skipped only for a fiber that is TERM for good. */
  ghost predicate Recorded(ws: seq<Worker>, fibers: seq<FiberState>, log: seq<Task>, fate: seq<Fate>) {
    && |fate| == |log|
    && (forall t :: 0 <= t < |log| ==> Exists(fibers, log[t]))
    && (forall t :: 0 <= t < |log| ==> fate[t].Done? ==> SkipOk(log[t], fate[t].resumed, fibers))
    && (forall w :: 0 <= w < |ws| && ws[w].place.Unlocked? ==>
          ws[w].place.t < |log| && SkipOk(log[ws[w].place.t], ws[w].place.resumed, fibers))
  }

  ghost predicate Inv(s: State) {
    && s.active == BusyCount(s.workers)
    && Accounted(s.workers, s.tasks, s.fate)
    && Owned(s.workers, s.holder, s.fibers, s.log)
    && Recorded(s.workers, s.fibers, s.log, s.fate)
    && !s.failed
  }

  // The active count.

  lemma {:induction false} BusyUpdate(ws: seq<Worker>, w: nat, x: Worker)
    requires w < |ws|
    ensures BusyCount(ws[w := x]) + (if Busy(ws[w].place) then 1 else 0) ==
            BusyCount(ws) + (if Busy(x.place) then 1 else 0)
  {
    hide Busy;
    var n := |ws| - 1;
    if w == n {
      assert ws[w := x][..n] == ws[..n];
    } else {
      assert ws[w := x][..n] == ws[..n][w := x];
      BusyUpdate(ws[..n], w, x);
    }
  }

  lemma {:induction false} NoneBusy(ws: seq<Worker>)
    ensures BusyCount(ws) == 0 <==> forall w :: 0 <= w < |ws| ==> !Busy(ws[w].place)
  {
    hide Busy;
    if ws != [] {
      var n := |ws| - 1;
      NoneBusy(ws[..n]);
      assert forall w :: 0 <= w < n ==> ws[..n][w] == ws[w];
    }
  }

  // The tickets.

  lemma AccountedKept(ws: seq<Worker>, tasks: seq<Ticket>, fate: seq<Fate>, w: nat, x: Worker)
    requires Accounted(ws, tasks, fate) && w < |ws|
    requires Busy(x.place) == Busy(ws[w].place) && (Busy(x.place) ==> x.place.t == ws[w].place.t)
    ensures Accounted(ws[w := x], tasks, fate)
  {
    var ws' := ws[w := x];
    forall t | 0 <= t < |fate| ensures FateOk(t, fate[t], ws') {
      assert FateOk(t, fate[t], ws);
    }
    forall v | 0 <= v < |ws| ensures TicketOk(v, ws'[v].place, fate) {
      assert TicketOk(v, ws[v].place, fate);
    }
  }

  lemma AccountedTake(ws: seq<Worker>, tasks: seq<Ticket>, fate: seq<Fate>, w: nat, x: Worker, i: nat)
    requires Accounted(ws, tasks, fate) && w < |ws| && !Busy(ws[w].place)
    requires i < |tasks| && x.place == Taken(tasks[i])
    ensures tasks[i] < |fate|
    ensures Accounted(ws[w := x], tasks[..i] + tasks[i + 1..], fate[tasks[i] := Held(w)])
  {
    var t := tasks[i];
    var tasks', fate', ws' := tasks[..i] + tasks[i + 1..], fate[t := Held(w)], ws[w := x];
    QueueTake(tasks, fate, i, Held(w));
    forall u | 0 <= u < |fate'| ensures FateOk(u, fate'[u], ws') {
      assert FateOk(u, fate[u], ws);
    }
    forall v | 0 <= v < |ws| ensures TicketOk(v, ws'[v].place, fate') {
      assert TicketOk(v, ws[v].place, fate);
    }
  }

  lemma RemoveAt(tasks: seq<Ticket>, i: nat)
    requires i < |tasks| && forall j, k :: 0 <= j < k < |tasks| ==> tasks[j] < tasks[k]
    ensures
      var tasks' := tasks[..i] + tasks[i + 1..];
      && (forall j, k :: 0 <= j < k < |tasks'| ==> tasks'[j] < tasks'[k])
      && (forall u :: u in tasks' <==> u in tasks && u != tasks[i])
  {
    var tasks' := tasks[..i] + tasks[i + 1..];
    assert forall k :: 0 <= k < |tasks'| ==> tasks'[k] == if k < i then tasks[k] else tasks[k + 1];
    forall u | u in tasks && u != tasks[i] ensures u in tasks' {
      var j :| 0 <= j < |tasks| && tasks[j] == u;
      assert u == if j < i then tasks'[j] else tasks'[j - 1];
    }
  }

  lemma QueueTake(tasks: seq<Ticket>, fate: seq<Fate>, i: nat, x: Fate)
    requires QueueOk(tasks, fate) && i < |tasks| && x != Queued
    ensures QueueOk(tasks[..i] + tasks[i + 1..], fate[tasks[i] := x])
  {
    var tasks', fate' := tasks[..i] + tasks[i + 1..], fate[tasks[i] := x];
    RemoveAt(tasks, i);
    forall k | 0 <= k < |tasks'| ensures tasks'[k] < |fate'| && fate'[tasks'[k]] == Queued {
      assert tasks'[k] in tasks';
    }
  }

  lemma AccountedDone(ws: seq<Worker>, tasks: seq<Ticket>, fate: seq<Fate>, w: nat, x: Worker, y: Fate)
    requires Accounted(ws, tasks, fate) && w < |ws| && Busy(ws[w].place) && !Busy(x.place) && y.Done?
    ensures ws[w].place.t < |fate|
    ensures Accounted(ws[w := x], tasks, fate[ws[w].place.t := y])
  {
    var t := ws[w].place.t;
    assert TicketOk(w, ws[w].place, fate);
    var fate', ws' := fate[t := y], ws[w := x];
    forall u | 0 <= u < |fate'| ensures FateOk(u, fate'[u], ws') {
      assert FateOk(u, fate[u], ws);
    }
    forall v | 0 <= v < |ws| ensures TicketOk(v, ws'[v].place, fate') {
      assert TicketOk(v, ws[v].place, fate);
    }
  }

  lemma AccountedEnqueue(ws: seq<Worker>, tasks: seq<Ticket>, fate: seq<Fate>)
    requires Accounted(ws, tasks, fate)
    ensures Accounted(ws, tasks + [|fate|], fate + [Queued])
  {
    var tasks', fate' := tasks + [|fate|], fate + [Queued];
    forall u | 0 <= u < |fate'| && fate'[u] == Queued ensures u in tasks' {
      if u < |fate| {
        var j :| 0 <= j < |tasks| && tasks[j] == u;
        assert tasks'[j] == u;
      } else {
        assert tasks'[|tasks|] == u;
      }
    }
    forall v | 0 <= v < |ws| ensures TicketOk(v, ws[v].place, fate') {
      assert TicketOk(v, ws[v].place, fate);
    }
    forall u | 0 <= u < |fate'| ensures FateOk(u, fate'[u], ws) {
      if u < |fate| { assert FateOk(u, fate[u], ws); }
    }
  }

  // The mutexes.

  lemma OwnedMove(ws: seq<Worker>, holder: map<Fid, nat>, fibers: seq<FiberState>, log: seq<Task>, w: nat, x: Worker)
    requires Owned(ws, holder, fibers, log) && w < |ws| && !HasFiber(ws[w].place) && !HasFiber(x.place)
    ensures Owned(ws[w := x], holder, fibers, log)
  {
    var ws' := ws[w := x];
    forall v | 0 <= v < |ws| ensures PlaceOk(v, ws'[v].place, holder, fibers, log) {
      assert PlaceOk(v, ws[v].place, holder, fibers, log);
    }
    forall f | f in holder ensures HolderOk(f, ws', holder[f]) {
      assert HolderOk(f, ws, holder[f]);
    }
  }

  lemma OwnedGrow(ws: seq<Worker>, holder: map<Fid, nat>, fibers: seq<FiberState>, log: seq<Task>)
    requires Owned(ws, holder, fibers, log)
    ensures Owned(ws, holder, fibers + [READY], log)
    ensures |fibers| !in holder
  {
    forall v | 0 <= v < |ws| ensures PlaceOk(v, ws[v].place, holder, fibers + [READY], log) {
      assert PlaceOk(v, ws[v].place, holder, fibers, log);
    }
  }

  lemma OwnedLog(ws: seq<Worker>, holder: map<Fid, nat>, fibers: seq<FiberState>, log: seq<Task>, task: Task)
    requires Owned(ws, holder, fibers, log)
    ensures Owned(ws, holder, fibers, log + [task])
  {
    forall v | 0 <= v < |ws| ensures PlaceOk(v, ws[v].place, holder, fibers, log + [task]) {
      assert PlaceOk(v, ws[v].place, holder, fibers, log);
    }
  }

  lemma OwnedAcquire(ws: seq<Worker>, holder: map<Fid, nat>, fibers: seq<FiberState>, log: seq<Task>, w: nat, x: Worker)
    requires Owned(ws, holder, fibers, log) && w < |ws| && !HasFiber(ws[w].place) && x.place.Locked?
    requires x.place.f < |fibers| && x.place.f !in holder && x.place.t < |log|
    requires log[x.place.t].CallbackTask? ==> fibers[x.place.f] == READY
    requires log[x.place.t].FiberTask? ==> log[x.place.t].f == x.place.f
    ensures Owned(ws[w := x], holder[x.place.f := w], fibers, log)
  {
    var ws', holder' := ws[w := x], holder[x.place.f := w];
    forall v | 0 <= v < |ws| ensures PlaceOk(v, ws'[v].place, holder', fibers, log) {
      assert PlaceOk(v, ws[v].place, holder, fibers, log);
    }
    forall f | f in holder' ensures HolderOk(f, ws', holder'[f]) {
      if f != x.place.f { assert HolderOk(f, ws, holder[f]); }
    }
  }

  lemma OwnedRelease(ws: seq<Worker>, holder: map<Fid, nat>, fibers: seq<FiberState>, log: seq<Task>, w: nat, x: Worker)
    requires Owned(ws, holder, fibers, log) && w < |ws| && ws[w].place.Returned? && !HasFiber(x.place)
    ensures Owned(ws[w := x], holder - {ws[w].place.f}, fibers, log)
  {
    var f := ws[w].place.f;
    var ws', holder' := ws[w := x], holder - {f};
    assert PlaceOk(w, ws[w].place, holder, fibers, log);
    forall v | 0 <= v < |ws| ensures PlaceOk(v, ws'[v].place, holder', fibers, log) {
      assert PlaceOk(v, ws[v].place, holder, fibers, log);
    }
    forall g | g in holder' ensures HolderOk(g, ws', holder'[g]) {
      assert HolderOk(g, ws, holder[g]);
    }
  }

  /** Inside a critical section the worker's place and the fiber's state change together. */
  lemma OwnedSwitch(ws: seq<Worker>, holder: map<Fid, nat>, fibers: seq<FiberState>, log: seq<Task>,
                    w: nat, x: Worker, state: FiberState)
    requires Owned(ws, holder, fibers, log) && w < |ws| && HasFiber(ws[w].place)
    requires (x.place.Inside? || x.place.Returned?) && x.place.f == ws[w].place.f && x.place.t == ws[w].place.t
    requires x.place.f < |fibers| && x.place.t < |log| && (state == RUNNING <==> x.place.Inside?)
    requires x.place.Returned? && !x.place.resumed ==> log[x.place.t].FiberTask? && state == TERM
    ensures Owned(ws[w := x], holder, fibers[x.place.f := state], log)
  {
    var f := x.place.f;
    var ws', fibers' := ws[w := x], fibers[f := state];
    assert PlaceOk(w, ws[w].place, holder, fibers, log);
    forall v | 0 <= v < |ws| ensures PlaceOk(v, ws'[v].place, holder, fibers', log) {
      assert PlaceOk(v, ws[v].place, holder, fibers, log);
    }
    forall g | g in holder ensures HolderOk(g, ws', holder[g]) {
      assert HolderOk(g, ws, holder[g]);
    }
  }

  // The steps.

  /** `s'` differs from `s` in worker `w`'s place and in fields that tickets do not depend on. */
  ghost predicate SameTickets(s: State, s': State, w: nat)
    requires w < |s.workers|
  {
    && |s'.workers| == |s.workers|
    && s'.workers == s.workers[w := s'.workers[w]]
    && s'.log == s.log && s'.tasks == s.tasks && s'.fate == s.fate && s'.active == s.active
    && Busy(s'.workers[w].place) == Busy(s.workers[w].place)
    && (Busy(s.workers[w].place) ==> s'.workers[w].place.t == s.workers[w].place.t)
  }

  lemma TakenShape(s: State, w: nat, t: Ticket)
    requires w < |s.workers| && s.workers[w].place == Taken(t)
    ensures SameTickets(s, TakenStep(s, w, t), w)
  {
  }

  lemma LockedShape(s: State, w: nat, t: Ticket, f: Fid)
    requires w < |s.workers| && s.workers[w].place == Locked(t, f)
    ensures SameTickets(s, LockedStep(s, w, t, f), w)
  {
  }

  /** Except where it takes or finishes a task, a worker's step leaves queue, records and count alone. */
  lemma WorkShape(s: State, w: nat)
    requires w < |s.workers|
    ensures
      var s' := WorkStep(s, w);
      && |s'.workers| == |s.workers|
      && s'.workers == s.workers[w := s'.workers[w]] && s'.log == s.log
      && (s.workers[w].place.Looking? || s.workers[w].place.Unlocked? || SameTickets(s, s', w))
  {
    hide FirstFor, TakenStep, LockedStep;
    match s.workers[w].place
    case Taken(t) => TakenShape(s, w, t);
    case Locked(t, f) => LockedShape(s, w, t, f);
    case _ =>
  }

  lemma WorkCounts(s: State, w: nat)
    requires s.active == BusyCount(s.workers) && w < |s.workers|
    ensures WorkStep(s, w).active == BusyCount(WorkStep(s, w).workers)
  {
    hide FirstFor, BusyCount;
    WorkShape(s, w);
    BusyUpdate(s.workers, w, WorkStep(s, w).workers[w]);
    match s.workers[w].place
    case Looking =>
    case Unlocked(_, _) =>
    case _ => hide WorkStep;
  }

  lemma TakeAccounts(s: State, w: nat)
    requires Accounted(s.workers, s.tasks, s.fate) && w < |s.workers| && s.workers[w].place.Looking?
    ensures var s' := WorkStep(s, w); Accounted(s'.workers, s'.tasks, s'.fate)
  {
    hide Accounted, FirstFor;
    var x := WorkStep(s, w).workers[w];
    var i := FirstFor(s.tasks, s.log, w);
    if i < |s.tasks| { AccountedTake(s.workers, s.tasks, s.fate, w, x, i); }
    else { AccountedKept(s.workers, s.tasks, s.fate, w, x); }
  }

  lemma WorkAccounts(s: State, w: nat)
    requires Accounted(s.workers, s.tasks, s.fate) && w < |s.workers|
    ensures var s' := WorkStep(s, w); Accounted(s'.workers, s'.tasks, s'.fate)
  {
    assert TicketOk(w, s.workers[w].place, s.fate);
    hide Accounted, LookingStep, TakenStep, LockedStep;
    WorkShape(s, w);
    var x := WorkStep(s, w).workers[w];
    match s.workers[w].place
    case Looking => TakeAccounts(s, w);
    case Unlocked(t, resumed) => AccountedDone(s.workers, s.tasks, s.fate, w, x, Done(resumed));
    case _ => AccountedKept(s.workers, s.tasks, s.fate, w, x);
  }

  /** A worker that holds the mutex of a fiber finds it READY or TERM, never RUNNING. */
  lemma LockedIsNotRunning(s: State, w: nat)
    requires Inv(s) && w < |s.workers| && s.workers[w].place.Locked?
    ensures
      var p := s.workers[w].place;
      && p.f < |s.fibers| && p.t < |s.log|
      && s.fibers[p.f] in {READY, TERM}
      && (s.log[p.t].CallbackTask? ==> s.fibers[p.f] == READY)
  {
    assert PlaceOk(w, s.workers[w].place, s.holder, s.fibers, s.log);
  }

  lemma LookingShape(s: State, w: nat)
    requires w < |s.workers|
    ensures
      var s' := LookingStep(s, w);
      && |s'.workers| == |s.workers| && |s'.fate| == |s.fate|
      && s'.fibers == s.fibers && s'.holder == s.holder && s'.failed == s.failed
      && (s'.workers[w].place.Taken? || s'.workers[w].place.NoTask?)
      && forall t :: 0 <= t < |s.fate| && s'.fate[t].Done? ==> s'.fate[t] == s.fate[t]
  {
    hide FirstFor;
  }

  lemma WorkOwns(s: State, w: nat)
    requires Inv(s) && w < |s.workers|
    ensures var s' := WorkStep(s, w); Owned(s'.workers, s'.holder, s'.fibers, s'.log) && !s'.failed
  {
    hide WorkStep, Owned;
    match s.workers[w].place
    case Taken(_) => TakenOwns(s, w);
    case Locked(_, _) => LockedOwns(s, w);
    case Returned(_, _, _) => ReturnedOwns(s, w);
    case Looking => LookingOwns(s, w);
    case _ => MoveOwns(s, w);
  }

  lemma ReturnedOwns(s: State, w: nat)
    requires Inv(s) && w < |s.workers| && s.workers[w].place.Returned?
    ensures var s' := WorkStep(s, w); Owned(s'.workers, s'.holder, s'.fibers, s'.log) && !s'.failed
  {
    hide Owned, Accounted, Recorded;
    OwnedRelease(s.workers, s.holder, s.fibers, s.log, w, WorkStep(s, w).workers[w]);
  }

  lemma LookingOwns(s: State, w: nat)
    requires Inv(s) && w < |s.workers| && s.workers[w].place.Looking?
    ensures var s' := WorkStep(s, w); Owned(s'.workers, s'.holder, s'.fibers, s'.log) && !s'.failed
  {
    hide Owned, Accounted, Recorded, LookingStep;
    LookingShape(s, w);
    WorkShape(s, w);
    OwnedMove(s.workers, s.holder, s.fibers, s.log, w, WorkStep(s, w).workers[w]);
  }

  lemma MoveOwns(s: State, w: nat)
    requires Inv(s) && w < |s.workers|
    requires var p := s.workers[w].place; p.Unlocked? || p.NoTask? || p.InIdle? || p.Inside? || p.Left?
    ensures var s' := WorkStep(s, w); Owned(s'.workers, s'.holder, s'.fibers, s'.log) && !s'.failed
  {
    hide Owned, Accounted, Recorded;
    if !s.workers[w].place.Inside? {
      OwnedMove(s.workers, s.holder, s.fibers, s.log, w, WorkStep(s, w).workers[w]);
    }
  }

  lemma LockedOwns(s: State, w: nat)
    requires Inv(s) && w < |s.workers| && s.workers[w].place.Locked?
    ensures var s' := WorkStep(s, w); Owned(s'.workers, s'.holder, s'.fibers, s'.log) && !s'.failed
  {
    var s' := WorkStep(s, w);
    var f := s.workers[w].place.f;
    LockedIsNotRunning(s, w);
    hide Owned, Accounted, Recorded;
    OwnedSwitch(s.workers, s.holder, s.fibers, s.log, w, s'.workers[w], s'.fibers[f]);
    assert s'.fibers == s.fibers[f := s'.fibers[f]];
  }

  lemma TakenOwns(s: State, w: nat)
    requires Inv(s) && w < |s.workers| && s.workers[w].place.Taken?
    ensures var s' := WorkStep(s, w); Owned(s'.workers, s'.holder, s'.fibers, s'.log) && !s'.failed
  {
    var x := WorkStep(s, w).workers[w];
    var t := s.workers[w].place.t;
    assert TicketOk(w, s.workers[w].place, s.fate);
    assert Exists(s.fibers, s.log[t]);
    hide Owned;
    match s.log[t]
    case FiberTask(f, _) =>
      if f !in s.holder { OwnedAcquire(s.workers, s.holder, s.fibers, s.log, w, x); }
    case CallbackTask(_, _) =>
      OwnedGrow(s.workers, s.holder, s.fibers, s.log);
      OwnedAcquire(s.workers, s.holder, s.fibers + [READY], s.log, w, x);
  }

  /** Fibers are only added, and a TERM fiber stays TERM. */
  ghost predicate Later(fibers: seq<FiberState>, fibers': seq<FiberState>) {
    |fibers| <= |fibers'| && forall f :: 0 <= f < |fibers| && fibers[f] == TERM ==> fibers'[f] == TERM
  }

  lemma RecordedLater(ws: seq<Worker>, fibers: seq<FiberState>, log: seq<Task>, fate: seq<Fate>,
                      ws': seq<Worker>, fibers': seq<FiberState>, fate': seq<Fate>)
    requires Recorded(ws, fibers, log, fate) && Later(fibers, fibers') && |fate'| == |fate|
    requires forall w :: 0 <= w < |ws'| && ws'[w].place.Unlocked? ==>
               (w < |ws| && ws[w] == ws'[w]) ||
               (ws'[w].place.t < |log| && SkipOk(log[ws'[w].place.t], ws'[w].place.resumed, fibers'))
    requires forall t :: 0 <= t < |fate| && fate'[t].Done? ==>
               fate[t] == fate'[t] || SkipOk(log[t], fate'[t].resumed, fibers')
    ensures Recorded(ws', fibers', log, fate')
  {
    forall t | 0 <= t < |log| ensures Exists(fibers', log[t]) {
      assert Exists(fibers, log[t]);
    }
    forall t | 0 <= t < |log| && fate'[t].Done? ensures SkipOk(log[t], fate'[t].resumed, fibers') {
      if fate[t] == fate'[t] { assert SkipOk(log[t], fate[t].resumed, fibers); }
    }
    forall w | 0 <= w < |ws'| && ws'[w].place.Unlocked?
      ensures ws'[w].place.t < |log| && SkipOk(log[ws'[w].place.t], ws'[w].place.resumed, fibers')
    {
      if w < |ws| && ws[w] == ws'[w] { assert SkipOk(log[ws[w].place.t], ws[w].place.resumed, fibers); }
    }
  }

  lemma FibersLater(s: State, w: nat)
    requires Inv(s) && w < |s.workers|
    ensures Later(s.fibers, WorkStep(s, w).fibers)
  {
    if s.workers[w].place.Locked? { LockedIsNotRunning(s, w); }
    hide Inv, LookingStep;
    if s.workers[w].place.Looking? { LookingShape(s, w); }
  }

  lemma WorkRecords(s: State, w: nat)
    requires Inv(s) && w < |s.workers|
    ensures var s' := WorkStep(s, w); Recorded(s'.workers, s'.fibers, s'.log, s'.fate)
  {
    hide WorkStep, Recorded;
    match s.workers[w].place
    case Looking => LookingRecords(s, w);
    case Unlocked(_, _) => UnlockedRecords(s, w);
    case Returned(_, _, _) => ReturnedRecords(s, w);
    case _ => OtherRecords(s, w);
  }

  lemma LookingRecords(s: State, w: nat)
    requires Inv(s) && w < |s.workers| && s.workers[w].place.Looking?
    ensures var s' := WorkStep(s, w); Recorded(s'.workers, s'.fibers, s'.log, s'.fate)
  {
    hide Accounted, Owned, Recorded, BusyCount, LookingStep;
    var s' := WorkStep(s, w);
    FibersLater(s, w);
    WorkShape(s, w);
    LookingShape(s, w);
    RecordedLater(s.workers, s.fibers, s.log, s.fate, s'.workers, s'.fibers, s'.fate);
  }

  lemma UnlockedRecords(s: State, w: nat)
    requires Inv(s) && w < |s.workers| && s.workers[w].place.Unlocked?
    ensures var s' := WorkStep(s, w); Recorded(s'.workers, s'.fibers, s'.log, s'.fate)
  {
    assert TicketOk(w, s.workers[w].place, s.fate);
    hide Accounted, Owned, Recorded, BusyCount;
    var s' := WorkStep(s, w);
    FibersLater(s, w);
    UnlockedSkip(s, w);
    RecordedLater(s.workers, s.fibers, s.log, s.fate, s'.workers, s'.fibers, s'.fate);
  }

  lemma ReturnedRecords(s: State, w: nat)
    requires Inv(s) && w < |s.workers| && s.workers[w].place.Returned?
    ensures var s' := WorkStep(s, w); Recorded(s'.workers, s'.fibers, s'.log, s'.fate)
  {
    assert PlaceOk(w, s.workers[w].place, s.holder, s.fibers, s.log);
    assert TicketOk(w, s.workers[w].place, s.fate);
    hide Accounted, Owned, Recorded, BusyCount;
    var s' := WorkStep(s, w);
    FibersLater(s, w);
    RecordedLater(s.workers, s.fibers, s.log, s.fate, s'.workers, s'.fibers, s'.fate);
  }

  lemma OtherRecords(s: State, w: nat)
    requires Inv(s) && w < |s.workers|
    requires var p := s.workers[w].place; !p.Looking? && !p.Unlocked? && !p.Returned?
    ensures var s' := WorkStep(s, w); Recorded(s'.workers, s'.fibers, s'.log, s'.fate)
  {
    hide Accounted, Owned, Recorded, BusyCount, WorkStep;
    var s' := WorkStep(s, w);
    FibersLater(s, w);
    WorkShape(s, w);
    NoLongerUnlocked(s, w);
    RecordedLater(s.workers, s.fibers, s.log, s.fate, s'.workers, s'.fibers, s'.fate);
  }

  lemma UnlockedSkip(s: State, w: nat)
    requires Inv(s) && w < |s.workers| && s.workers[w].place.Unlocked?
    ensures s.workers[w].place.t < |s.log|
    ensures SkipOk(s.log[s.workers[w].place.t], s.workers[w].place.resumed, s.fibers)
  {
  }

  lemma NoLongerUnlocked(s: State, w: nat)
    requires w < |s.workers| && !s.workers[w].place.Returned? && !s.workers[w].place.Unlocked?
    ensures !WorkStep(s, w).workers[w].place.Unlocked?
  {
    hide LookingStep;
    if s.workers[w].place.Looking? { LookingShape(s, w); }
  }

  lemma WorkKeeps(s: State, w: nat)
    requires Inv(s) && w < |s.workers|
    ensures Inv(WorkStep(s, w))
  {
    hide WorkStep, Accounted, Owned, Recorded;
    WorkCounts(s, w);
    WorkAccounts(s, w);
    WorkOwns(s, w);
    WorkRecords(s, w);
  }

  lemma SwitchBackKeeps(s: State, w: nat, state: FiberState)
    requires Inv(s) && state != RUNNING
    ensures Inv(SwitchBack(s, w, state))
  {
    var s' := SwitchBack(s, w, state);
    if s' != s {
      var f, x := s.workers[w].place.f, s'.workers[w];
      assert PlaceOk(w, s.workers[w].place, s.holder, s.fibers, s.log);
      assert s.fibers[f] == RUNNING;
      BusyUpdate(s.workers, w, x);
      AccountedKept(s.workers, s.tasks, s.fate, w, x);
      OwnedSwitch(s.workers, s.holder, s.fibers, s.log, w, x, state);
      hide Accounted, Owned;
      RecordedLater(s.workers, s.fibers, s.log, s.fate, s'.workers, s'.fibers, s'.fate);
    }
  }

  lemma EnqueueKeeps(s: State, task: Task)
    requires Inv(s)
    ensures Inv(Enqueue(s, task))
  {
    AccountedEnqueue(s.workers, s.tasks, s.fate);
    OwnedLog(s.workers, s.holder, s.fibers, s.log, task);
    hide Accounted, Owned;
  }

  lemma StepKeeps(s: State, a: Action)
    requires Inv(s)
    ensures Inv(Step(s, a))
  {
    match a
    case Work(w) => if w < |s.workers| { WorkKeeps(s, w); }
    case Schedule(_, task) => EnqueueKeeps(s, task);
    case Yield(w) => SwitchBackKeeps(s, w, READY);
    case Finish(w) => SwitchBackKeeps(s, w, TERM);
    case External(task) => EnqueueKeeps(s, task);
    case NewFiber => NewFiberKeeps(s);
    case Stop =>
  }

  lemma NewFiberKeeps(s: State)
    requires Inv(s)
    ensures Inv(Step(s, NewFiber))
  {
    OwnedGrow(s.workers, s.holder, s.fibers, s.log);
    hide Accounted, Owned;
    RecordedLater(s.workers, s.fibers, s.log, s.fate, s.workers, s.fibers + [READY], s.fate);
  }

  lemma SameWorkers(s: State, a: Action)
    ensures |Step(s, a).workers| == |s.workers|
  {
    hide WorkStep;
    if a.Work? && a.w < |s.workers| { WorkShape(s, a.w); }
  }

  lemma {:induction false} BusyAtStart(n: nat)
    ensures BusyCount(Init(n).workers) == 0
  {
    NoneBusy(Init(n).workers);
  }

  lemma {:induction false} Always(n: nat, acts: seq<Action>)
    ensures Inv(Run(n, acts)) && |Run(n, acts).workers| == n
  {
    if acts == [] {
      BusyAtStart(n);
    } else {
      Always(n, acts[..|acts| - 1]);
      SameWorkers(Run(n, acts[..|acts| - 1]), acts[|acts| - 1]);
      hide Inv, Step;
      StepKeeps(Run(n, acts[..|acts| - 1]), acts[|acts| - 1]);
    }
  }

  // The results.

  /** In every run the READY assertion of `resume` holds, a fiber is RUNNING exactly while the worker
      holding its mutex is inside it, and no two workers are inside one fiber. */
  lemma FiberDiscipline(n: nat, acts: seq<Action>)
    ensures
      var s := Run(n, acts);
      && !s.failed
      && (forall f :: 0 <= f < |s.fibers| ==>
            (s.fibers[f] == RUNNING <==> f in s.holder && s.holder[f] < n && InsideOf(s, s.holder[f], f)))
      && (forall v: nat, w: nat, f: Fid :: InsideOf(s, v, f) && InsideOf(s, w, f) ==> v == w)
  {
    Always(n, acts);
    var s := Run(n, acts);
    forall f | 0 <= f < |s.fibers|
      ensures s.fibers[f] == RUNNING <==> f in s.holder && s.holder[f] < n && InsideOf(s, s.holder[f], f)
    {
      if f in s.holder {
        assert HolderOk(f, s.workers, s.holder[f]);
        assert PlaceOk(s.holder[f], s.workers[s.holder[f]].place, s.holder, s.fibers, s.log);
      }
    }
    forall v: nat, w: nat, f: Fid | InsideOf(s, v, f) && InsideOf(s, w, f)
      ensures v == w
    {
      assert PlaceOk(v, s.workers[v].place, s.holder, s.fibers, s.log);
      assert PlaceOk(w, s.workers[w].place, s.holder, s.fibers, s.log);
    }
  }

  predicate InsideOf(s: State, w: nat, f: Fid) {
    w < |s.workers| && s.workers[w].place.Inside? && s.workers[w].place.f == f
  }

  /** A finished dispatch has resumed its fiber, or the fiber is TERM for good. */
  lemma EveryWakeUpCounts(n: nat, acts: seq<Action>, t: Ticket)
    ensures
      var s := Run(n, acts);
      t < |s.log| ==>
        && t < |s.fate|
        && (s.fate[t] == Done(false) ==>
              s.log[t].FiberTask? && s.log[t].f < |s.fibers| && s.fibers[s.log[t].f] == TERM)
  {
    Always(n, acts);
    var s := Run(n, acts);
    if t < |s.log| && s.fate[t].Done? { assert SkipOk(s.log[t], s.fate[t].resumed, s.fibers); }
  }

  // Leaving `run`.

  predicate SomeDone(s: State) {
    exists w :: 0 <= w < |s.workers| && (s.workers[w].idleDone || s.workers[w].place.Left?)
  }

  /** The queue is empty and every task ever scheduled has been dispatched and has given back control. */
  predicate AllDone(s: State) {
    s.tasks == [] && forall t :: 0 <= t < |s.fate| ==> s.fate[t].Done?
  }

  lemma StoppingMeansAllDone(s: State)
    requires Inv(s) && Stopping(s)
    ensures AllDone(s) && forall w :: 0 <= w < |s.workers| ==> !Busy(s.workers[w].place)
  {
    NoneBusy(s.workers);
    forall t | 0 <= t < |s.fate| ensures s.fate[t].Done? {
      assert FateOk(t, s.fate[t], s.workers);
    }
  }

  /** Only the outside world can undo `stopping()`. */
  lemma StoppingIsStable(s: State, a: Action)
    requires Inv(s) && Stopping(s) && !a.External?
    ensures Stopping(Step(s, a))
  {
    StoppingMeansAllDone(s);
    hide Inv;
    if a.Work? && a.w < |s.workers| {
      assert !Busy(s.workers[a.w].place);
      if s.workers[a.w].place.Looking? { assert FirstFor(s.tasks, s.log, a.w) == 0; }
    }
  }

  /** A `scheduleLock` from outside the workers after some idle fiber has seen `stopping()` hold. */
  predicate TooLate(n: nat, acts: seq<Action>, k: nat)
    requires k < |acts|
  {
    var s := Run(n, acts[..k]);
    acts[k].External? && Exists(s.fibers, acts[k].task) && SomeDone(s)
  }

  ghost predicate Ended(s: State) {
    && (SomeDone(s) ==> Stopping(s))
    && (forall w :: 0 <= w < |s.workers| && s.workers[w].place.Left? ==> s.workers[w].idleDone)
  }

  lemma EndedStep(s: State, a: Action)
    requires Inv(s) && Ended(s)
    requires !(a.External? && Exists(s.fibers, a.task) && SomeDone(s))
    ensures Ended(Step(s, a))
  {
    var s' := Step(s, a);
    if SomeDone(s) && !a.External? {
      StoppingIsStable(s, a);
    }
    hide Inv;
    if a.Work? && a.w < |s.workers| {
      EndedWork(s, a.w);
    }
    hide WorkStep;
  }

  lemma EndedWork(s: State, w: nat)
    requires Ended(s) && w < |s.workers| && (SomeDone(s) ==> Stopping(WorkStep(s, w)))
    ensures Ended(WorkStep(s, w))
  {
    var s' := WorkStep(s, w);
    WorkShape(s, w);
    hide TakenStep, LockedStep, LookingStep;
    if s.workers[w].place.Looking? { LookingShape(s, w); LookingKeepsIdle(s, w); }
    if s.workers[w].place.Taken? { TakenShape(s, w, s.workers[w].place.t); TakenKeepsIdle(s, w); }
    if s.workers[w].place.Locked? {
      LockedShape(s, w, s.workers[w].place.t, s.workers[w].place.f);
      LockedKeepsIdle(s, w);
    }
    if SomeDone(s') {
      var v :| 0 <= v < |s'.workers| && (s'.workers[v].idleDone || s'.workers[v].place.Left?);
      if v != w { assert s'.workers[v] == s.workers[v]; }
    }
  }

  lemma LookingKeepsIdle(s: State, w: nat)
    requires w < |s.workers|
    ensures LookingStep(s, w).workers[w].idleDone == s.workers[w].idleDone
  {
    hide FirstFor;
  }

  lemma TakenKeepsIdle(s: State, w: nat)
    requires w < |s.workers| && s.workers[w].place.Taken?
    ensures TakenStep(s, w, s.workers[w].place.t).workers[w].idleDone == s.workers[w].idleDone
    ensures !TakenStep(s, w, s.workers[w].place.t).workers[w].place.Left?
  {
  }

  lemma LockedKeepsIdle(s: State, w: nat)
    requires w < |s.workers| && s.workers[w].place.Locked?
    ensures
      var s' := LockedStep(s, w, s.workers[w].place.t, s.workers[w].place.f);
      s'.workers[w].idleDone == s.workers[w].idleDone && !s'.workers[w].place.Left?
  {
  }

  lemma {:induction false} EndedAlways(n: nat, acts: seq<Action>, k: nat)
    requires k <= |acts| && forall j :: 0 <= j < k ==> !TooLate(n, acts, j)
    ensures Ended(Run(n, acts[..k]))
  {
    if k > 0 {
      EndedAlways(n, acts, k - 1);
      assert acts[..k][..k - 1] == acts[..k - 1];
      Always(n, acts[..k - 1]);
      hide Inv, Step, Ended;
      assert !TooLate(n, acts, k - 1);
      EndedStep(Run(n, acts[..k - 1]), acts[k - 1]);
    }
  }

  /** Everything is done at every point of a run at which some idle fiber has ended, if and only if
      nobody outside the workers schedules a task after some idle fiber has seen `stopping()` hold. A
      task that comes later may still be run: what is never run is said by DoneWhenAllHaveLeft. */
  lemma IdleEndMeansAllDone(n: nat, acts: seq<Action>)
    ensures (forall k :: 0 <= k <= |acts| ==> SomeDone(Run(n, acts[..k])) ==> AllDone(Run(n, acts[..k])))
       <==> (forall k :: 0 <= k < |acts| ==> !TooLate(n, acts, k))
  {
    if k :| 0 <= k < |acts| && TooLate(n, acts, k) {
      LateTaskIsQueued(n, acts, k);
    } else {
      forall k | 0 <= k <= |acts|
        ensures SomeDone(Run(n, acts[..k])) ==> AllDone(Run(n, acts[..k]))
      {
        EndedAlways(n, acts, k);
        Always(n, acts[..k]);
        hide Inv;
        if SomeDone(Run(n, acts[..k])) { StoppingMeansAllDone(Run(n, acts[..k])); }
      }
    }
  }

  /** A task that comes too late finds an idle fiber ended while it is in the queue. */
  lemma LateTaskIsQueued(n: nat, acts: seq<Action>, k: nat)
    requires k < |acts| && TooLate(n, acts, k)
    ensures SomeDone(Run(n, acts[..k + 1])) && !AllDone(Run(n, acts[..k + 1]))
  {
    assert acts[..k + 1][..k] == acts[..k];
    var s := Run(n, acts[..k]);
    assert Run(n, acts[..k + 1]) == Enqueue(s, acts[k].task);
  }

  // How a fiber ends.

  /** The step is the end of the function of fiber `f`, which some worker is inside. */
  predicate EndsFiber(s: State, a: Action, f: Fid) {
    a.Finish? && a.w < |s.workers| && s.workers[a.w].place.Inside? && s.workers[a.w].place.f == f
  }

  predicate EndsAt(n: nat, acts: seq<Action>, k: nat, f: Fid)
    requires k < |acts|
  {
    EndsFiber(Run(n, acts[..k]), acts[k], f)
  }

  ghost predicate HasEnded(n: nat, acts: seq<Action>, f: Fid) {
    exists k: nat :: k < |acts| && EndsAt(n, acts, k, f)
  }

  lemma EndedSnoc(n: nat, acts: seq<Action>, a: Action, f: Fid)
    ensures HasEnded(n, acts + [a], f) == (HasEnded(n, acts, f) || EndsFiber(Run(n, acts), a, f))
  {
    hide Run, EndsFiber;
    var all := acts + [a];
    assert all[..|acts|] == acts;
    assert EndsAt(n, all, |acts|, f) == EndsFiber(Run(n, acts), a, f);
    forall k: nat | k < |acts|
      ensures EndsAt(n, all, k, f) == EndsAt(n, acts, k, f)
    {
      assert all[..k] == acts[..k];
    }
  }

  lemma EndedStill(n: nat, acts: seq<Action>, more: seq<Action>, f: Fid)
    requires acts <= more && HasEnded(n, acts, f)
    ensures HasEnded(n, more, f)
  {
    hide Run, EndsFiber;
    var k: nat :| k < |acts| && EndsAt(n, acts, k, f);
    assert more[..k] == acts[..k];
    assert EndsAt(n, more, k, f);
  }

  predicate IsTerm(s: State, f: Fid) {
    f < |s.fibers| && s.fibers[f] == TERM
  }

  lemma TermStep(s: State, a: Action, f: Fid)
    requires Inv(s)
    ensures IsTerm(Step(s, a), f) <==> IsTerm(s, f) || EndsFiber(s, a, f)
  {
    match a
    case Work(w) => if w < |s.workers| { TermWork(s, w, f); hide WorkStep; }
    case Yield(w) => TermSwitch(s, w, READY, f);
    case Finish(w) => TermSwitch(s, w, TERM, f);
    case _ => hide Inv;
  }

  lemma TermSwitch(s: State, w: nat, state: FiberState, f: Fid)
    requires Inv(s)
    ensures IsTerm(SwitchBack(s, w, state), f) <==>
              IsTerm(s, f) || (state == TERM && EndsFiber(s, Finish(w), f))
  {
    if w < |s.workers| && s.workers[w].place.Inside? {
      assert PlaceOk(w, s.workers[w].place, s.holder, s.fibers, s.log);
    }
    hide Inv;
  }

  lemma TermWork(s: State, w: nat, f: Fid)
    requires Inv(s) && w < |s.workers|
    ensures IsTerm(WorkStep(s, w), f) <==> IsTerm(s, f)
  {
    var p := s.workers[w].place;
    if p.Locked? {
      LockedIsNotRunning(s, w);
    }
    hide Inv, FirstFor;
    if p.Looking? {
      LookingShape(s, w);
      hide LookingStep;
    }
  }

  /** A fiber is TERM if and only if a worker inside it has come to the end of its function. */
  lemma {:induction false} TermIffEnded(n: nat, acts: seq<Action>, f: Fid)
    ensures IsTerm(Run(n, acts), f) <==> HasEnded(n, acts, f)
  {
    if acts == [] {
      assert Run(n, acts) == Init(n);
    } else {
      hide *;
      var before, a := acts[..|acts| - 1], acts[|acts| - 1];
      assert before + [a] == acts;
      TermIffEnded(n, before, f);
      Always(n, before);
      RunSnoc(n, before, a);
      TermStep(Run(n, before), a, f);
      EndedSnoc(n, before, a, f);
    }
  }

  /** A task that was done without resuming its fiber is that of a fiber that had ended. */
  lemma SkippedHasEnded(n: nat, acts: seq<Action>, t: Ticket)
    requires t < |Run(n, acts).fate| && Run(n, acts).fate[t] == Done(false)
    ensures t < |Run(n, acts).log| && Run(n, acts).log[t].FiberTask? && HasEnded(n, acts, Run(n, acts).log[t].f)
  {
    Always(n, acts);
    var s := Run(n, acts);
    assert |s.log| == |s.fate|;
    assert SkipOk(s.log[t], s.fate[t].resumed, s.fibers);
    hide Run, Inv;
    TermIffEnded(n, acts, s.log[t].f);
  }

  /** At some point of the run `stopping()` held. */
  ghost predicate SawStopping(n: nat, acts: seq<Action>) {
    exists k: nat :: k <= |acts| && StoppingAt(n, acts, k)
  }

  ghost predicate StoppingAt(n: nat, acts: seq<Action>, k: nat)
    requires k <= |acts|
  {
    Stopping(Run(n, acts[..k]))
  }

  lemma SawSnoc(n: nat, acts: seq<Action>, a: Action)
    requires SawStopping(n, acts) || Stopping(Run(n, acts))
    ensures SawStopping(n, acts + [a])
  {
    hide Run, Stopping;
    var all := acts + [a];
    if Stopping(Run(n, acts)) {
      assert all[..|acts|] == acts;
      assert StoppingAt(n, all, |acts|);
    } else {
      var k: nat :| k <= |acts| && StoppingAt(n, acts, k);
      assert all[..k] == acts[..k];
      assert StoppingAt(n, all, k);
    }
  }

  lemma IdleStep(s: State, a: Action, w: nat)
    requires w < |s.workers| && (s.workers[w].place.Left? ==> s.workers[w].idleDone)
    ensures |Step(s, a).workers| == |s.workers|
    ensures var x, y := s.workers[w], Step(s, a).workers[w];
            (y.idleDone ==> x.idleDone || Stopping(s)) && (y.place.Left? ==> y.idleDone)
  {
    SameWorkers(s, a);
    if a.Work? && a.w < |s.workers| {
      IdleWork(s, a.w, w);
      hide WorkStep;
    } else {
      hide WorkStep, Stopping;
    }
  }

  lemma IdleWork(s: State, v: nat, w: nat)
    requires v < |s.workers| && w < |s.workers| && (s.workers[w].place.Left? ==> s.workers[w].idleDone)
    ensures |WorkStep(s, v).workers| == |s.workers|
    ensures var x, y := s.workers[w], WorkStep(s, v).workers[w];
            (y.idleDone ==> x.idleDone || Stopping(s)) && (y.place.Left? ==> y.idleDone)
  {
    WorkShape(s, v);
    hide TakenStep, LockedStep, LookingStep;
    match s.workers[v].place
    case Looking => LookingShape(s, v); LookingKeepsIdle(s, v);
    case Taken(t) => TakenShape(s, v, t); TakenKeepsIdle(s, v);
    case Locked(t, f) => LockedShape(s, v, t, f); LockedKeepsIdle(s, v);
    case _ =>
  }

  /** A worker whose idle fiber has ended, or who has left, has seen `stopping()` hold. */
  lemma {:induction false} LeavesAfterStopping(n: nat, acts: seq<Action>, w: nat)
    requires w < n
    ensures |Run(n, acts).workers| == n
    ensures var x := Run(n, acts).workers[w]; (x.idleDone ==> SawStopping(n, acts)) && (x.place.Left? ==> x.idleDone)
  {
    hide *;
    if acts == [] {
      NobodyLeftYet(n, w);
    } else {
      var before, a := acts[..|acts| - 1], acts[|acts| - 1];
      LeavesAfterStopping(n, before, w);
      LeavesGoesOn(n, before, a, w);
      assert before + [a] == acts;
    }
  }

  lemma NobodyLeftYet(n: nat, w: nat)
    requires w < n
    ensures var s := Run(n, []); |s.workers| == n && !s.workers[w].idleDone && !s.workers[w].place.Left?
  {
    hide Step;
  }

  lemma LeavesGoesOn(n: nat, acts: seq<Action>, a: Action, w: nat)
    requires w < n == |Run(n, acts).workers|
    requires var x := Run(n, acts).workers[w]; (x.idleDone ==> SawStopping(n, acts)) && (x.place.Left? ==> x.idleDone)
    ensures |Run(n, acts + [a]).workers| == n
    ensures var x := Run(n, acts + [a]).workers[w];
            (x.idleDone ==> SawStopping(n, acts + [a])) && (x.place.Left? ==> x.idleDone)
  {
    hide Run, Step, SawStopping, Stopping;
    RunSnoc(n, acts, a);
    IdleStep(Run(n, acts), a, w);
    if SawStopping(n, acts) || Stopping(Run(n, acts)) {
      SawSnoc(n, acts, a);
    }
  }

  lemma FibersStay(s: State, a: Action)
    ensures |Step(s, a).fibers| >= |s.fibers|
  {
    hide FirstFor;
  }

  lemma {:induction false} FibersGrow(n: nat, acts: seq<Action>, more: seq<Action>)
    ensures |Run(n, acts).fibers| <= |Run(n, acts + more).fibers|
    decreases |more|
  {
    hide Run, Step;
    if more == [] {
      assert acts + more == acts;
    } else {
      var fewer, a := more[..|more| - 1], more[|more| - 1];
      FibersGrow(n, acts, fewer);
      assert acts + fewer + [a] == acts + more;
      RunSnoc(n, acts + fewer, a);
      FibersStay(Run(n, acts + fewer), a);
    }
  }

  // Tasks that are never run.

  /** The worker will not look at the queue again. */
  predicate Leaving(x: Worker) {
    x.place.Left? || (x.place.NoTask? && x.idleDone)
  }

  /** Every worker that may run a task for `thread` is leaving. */
  ghost predicate NobodyFor(thread: int, ws: seq<Worker>) {
    forall w :: 0 <= w < |ws| && (thread == -1 || thread == w) ==> Leaving(ws[w])
  }

  /** The task is in the queue, and nobody who may run it will take it. */
  ghost predicate Stranded(s: State, t: Ticket) {
    t < |s.log| && t < |s.fate| && s.fate[t] == Queued && NobodyFor(s.log[t].thread, s.workers)
  }

  /** The step is a `scheduleLock`. */
  predicate Schedules(s: State, a: Action) {
    && (a.External? || (a.Schedule? && a.w < |s.workers| && s.workers[a.w].place.Inside?))
    && Exists(s.fibers, a.task)
  }

  /** It finds every worker that may run its task already leaving. */
  ghost predicate ComesTooLate(s: State, a: Action) {
    Schedules(s, a) && NobodyFor(a.task.thread, s.workers)
  }

  lemma WorkLeaves(s: State, w: nat, t: Ticket)
    requires Inv(s) && w < |s.workers| && t < |s.log| && s.fate[t] == Queued
    ensures var s' := WorkStep(s, w);
            && t < |s'.fate|
            && (Leaving(s.workers[w]) ==> Leaving(s'.workers[w]) && s'.fate == s.fate)
            && (!Eligible(s.log, t, w) ==> s'.fate[t] == Queued)
            && (Eligible(s.log, t, w) && !Leaving(s.workers[w]) && s'.fate[t] == Queued ==> !Leaving(s'.workers[w]))
  {
    assert TicketOk(w, s.workers[w].place, s.fate);
    assert t in s.tasks && t < |s.fate|;
    hide Inv, FirstFor, TakenStep, LockedStep, LookingStep;
    match s.workers[w].place
    case Looking => LookingLeaves(s, w, t);
    case Taken(u) => TakenShape(s, w, u);
    case Locked(u, f) => LockedShape(s, w, u, f);
    case _ =>
  }

  /** A worker that looks at the queue does not leave while it holds a task it may run. */
  lemma LookingLeaves(s: State, w: nat, t: Ticket)
    requires w < |s.workers| && s.workers[w].place.Looking? && t in s.tasks && t < |s.fate| && s.fate[t] == Queued
    ensures var s' := LookingStep(s, w);
            && |s'.workers| == |s.workers| && t < |s'.fate|
            && (!Eligible(s.log, t, w) ==> s'.fate[t] == Queued)
            && (Eligible(s.log, t, w) ==> !Leaving(s'.workers[w]))
  {
    hide FirstFor;
  }

  lemma WorkStrands(s: State, w: nat, t: Ticket)
    requires Inv(s) && w < |s.workers| && t < |s.log| && s.fate[t] == Queued
    ensures Stranded(WorkStep(s, w), t) <==> Stranded(s, t)
  {
    var s' := WorkStep(s, w);
    WorkShape(s, w);
    WorkLeaves(s, w, t);
    hide Inv, WorkStep, Leaving;
    if !NobodyFor(s.log[t].thread, s.workers) {
      var v :| 0 <= v < |s.workers| && (s.log[t].thread == -1 || s.log[t].thread == v) && !Leaving(s.workers[v]);
      assert v != w ==> s'.workers[v] == s.workers[v];
    }
  }

  /** What has left the queue does not come back. */
  lemma NotQueuedAgain(s: State, a: Action, t: Ticket)
    requires Inv(s) && t < |s.log| && s.fate[t] != Queued
    ensures t < |Step(s, a).fate| && Step(s, a).fate[t] != Queued
  {
    hide FirstFor;
    if a.Work? && a.w < |s.workers| {
      var w := a.w;
      hide TakenStep, LockedStep;
      match s.workers[w].place
      case Taken(u) => TakenShape(s, w, u);
      case Locked(u, f) => LockedShape(s, w, u, f);
      case _ =>
    }
  }

  lemma OtherStrands(s: State, a: Action, t: Ticket)
    requires Inv(s) && t < |s.log| && !a.Work?
    ensures Stranded(Step(s, a), t) <==> Stranded(s, t)
  {
    var s' := Step(s, a);
    assert |s.log| == |s.fate|;
    hide Inv;
    SameWorkers(s, a);
    forall w | 0 <= w < |s.workers|
      ensures Leaving(s'.workers[w]) == Leaving(s.workers[w])
    {
      OtherLeaves(s, a, w);
    }
    assert t < |s'.log| && t < |s'.fate| && s'.log[t] == s.log[t] && s'.fate[t] == s.fate[t];
    hide Step, Leaving;
    SameNobody(s.log[t].thread, s.workers, s'.workers);
    hide NobodyFor;
  }

  lemma SameNobody(thread: int, ws: seq<Worker>, ws': seq<Worker>)
    requires |ws'| == |ws| && forall w :: 0 <= w < |ws| ==> Leaving(ws'[w]) == Leaving(ws[w])
    ensures NobodyFor(thread, ws') == NobodyFor(thread, ws)
  {
    hide Leaving;
  }

  lemma OtherLeaves(s: State, a: Action, w: nat)
    requires w < |s.workers| && !a.Work?
    ensures w < |Step(s, a).workers| && Leaving(Step(s, a).workers[w]) == Leaving(s.workers[w])
  {
  }

  lemma NewStrands(s: State, a: Action)
    requires Inv(s)
    ensures Stranded(Step(s, a), |s.log|) <==> ComesTooLate(s, a)
  {
    var s' := Step(s, a);
    assert |s.log| == |s.fate|;
    hide Inv;
    if a.Work? && a.w < |s.workers| {
      WorkShape(s, a.w);
      hide WorkStep;
    }
  }

  lemma StepStrands(s: State, a: Action, t: Ticket)
    requires Inv(s)
    ensures Stranded(Step(s, a), t) <==> Stranded(s, t) || (t == |s.log| && ComesTooLate(s, a))
  {
    hide Step, Inv, ComesTooLate;
    if t < |s.log| {
      StepStrandsOld(s, a, t);
    } else if t == |s.log| {
      NewStrands(s, a);
    } else {
      LogGrowsByOne(s, a);
    }
  }

  lemma LogGrowsByOne(s: State, a: Action)
    ensures |Step(s, a).log| <= |s.log| + 1
  {
    if a.Work? && a.w < |s.workers| {
      WorkShape(s, a.w);
      hide WorkStep;
    }
  }

  lemma StepStrandsOld(s: State, a: Action, t: Ticket)
    requires Inv(s) && t < |s.log|
    ensures Stranded(Step(s, a), t) <==> Stranded(s, t)
  {
    assert |s.log| == |s.fate|;
    hide Inv;
    if a.Work? {
      if a.w < |s.workers| {
        if s.fate[t] == Queued {
          WorkStrands(s, a.w, t);
        } else {
          NotQueuedAgain(s, a, t);
        }
        hide WorkStep;
      }
    } else {
      OtherStrands(s, a, t);
    }
  }

  lemma RunSnoc(n: nat, acts: seq<Action>, a: Action)
    ensures Run(n, acts + [a]) == Step(Run(n, acts), a)
  {
    assert (acts + [a])[..|acts|] == acts;
  }

  /** One worker, stopping, with an empty queue. */
  function Alone(place: Place, idleDone: bool): State {
    Init(1).(stopping := true, workers := [Worker(place, idleDone)])
  }

  lemma AloneSteps()
    ensures Step(Init(1), Stop) == Alone(Looking, false)
    ensures Step(Alone(Looking, false), Work(0)) == Alone(NoTask, false)
    ensures Step(Alone(NoTask, false), Work(0)) == Alone(InIdle, false)
    ensures Step(Alone(InIdle, false), Work(0)) == Alone(Looking, true)
    ensures Step(Alone(Looking, true), Work(0)) == Alone(NoTask, true)
  {
    assert Init(1).workers == [Worker(Looking, false)];
  }

  /** A callback that is scheduled while the only worker is leaving, and never run. */
  lemma TaskNeverRun() returns (acts: seq<Action>)
    ensures var s := Run(1, acts); s.workers == [Worker(Left, true)] && s.tasks == [0] && !AllDone(s)
  {
    assert Run(1, []) == Init(1);
    hide Run, Step, Init, Alone;
    AloneSteps();
    RunSnoc(1, [], Stop);
    acts := [] + [Stop];
    for i := 0 to 4
      invariant Run(1, acts) == if i == 0 then Alone(Looking, false) else if i == 1 then Alone(NoTask, false)
                                else if i == 2 then Alone(InIdle, false) else if i == 3 then Alone(Looking, true)
                                else Alone(NoTask, true)
    {
      RunSnoc(1, acts, Work(0));
      acts := acts + [Work(0)];
    }
    RunSnoc(1, acts, External(CallbackTask(1, -1)));
    RunSnoc(1, acts + [External(CallbackTask(1, -1))], Work(0));
    acts := acts + [External(CallbackTask(1, -1))] + [Work(0)];
    LeavesIt();
  }

  lemma LeavesIt()
    ensures var s := Step(Step(Alone(NoTask, true), External(CallbackTask(1, -1))), Work(0));
            s.workers == [Worker(Left, true)] && s.tasks == [0] && !AllDone(s)
  {
  }

  /** A task is stranded if and only if the `scheduleLock` that brought it found every worker that may
      run it already leaving. */
  lemma {:induction false} StrandedFromTheStart(n: nat, acts: seq<Action>, t: Ticket)
    ensures Stranded(Run(n, acts), t) <==>
            exists k: nat :: k < |acts| && TooLateAt(n, acts, k, t)
  {
    if acts != [] {
      hide Inv, Step, Stranded, TooLateAt;
      var m := |acts| - 1;
      var before := acts[..m];
      StrandedFromTheStart(n, before, t);
      Always(n, before);
      StepStrands(Run(n, before), acts[m], t);
      TooLatePrefix(n, acts, t);
      hide Run, ComesTooLate;
    }
  }

  /** Step `k` brings task `t`, and comes too late. */
  ghost predicate TooLateAt(n: nat, acts: seq<Action>, k: nat, t: Ticket)
    requires k < |acts|
  {
    |Run(n, acts[..k]).log| == t && ComesTooLate(Run(n, acts[..k]), acts[k])
  }

  lemma TooLatePrefix(n: nat, acts: seq<Action>, t: Ticket)
    requires acts != []
    ensures var m := |acts| - 1;
            && (TooLateAt(n, acts, m, t) <==> |Run(n, acts[..m]).log| == t && ComesTooLate(Run(n, acts[..m]), acts[m]))
            && forall k: nat :: k < m ==> TooLateAt(n, acts, k, t) == TooLateAt(n, acts[..m], k, t)
  {
    hide Run, ComesTooLate;
    var m := |acts| - 1;
    forall k: nat | k < m
      ensures TooLateAt(n, acts, k, t) == TooLateAt(n, acts[..m], k, t)
    {
      assert acts[..m][..k] == acts[..k];
    }
  }

  /** When every worker has left `run`, all scheduled tasks have been run to their end, if and only if no
      `scheduleLock` found every worker that may run its task already leaving. */
  lemma DoneWhenAllHaveLeft(n: nat, acts: seq<Action>)
    requires forall w :: 0 <= w < |Run(n, acts).workers| ==> Run(n, acts).workers[w].place.Left?
    ensures AllDone(Run(n, acts)) <==>
            forall k: nat :: k < |acts| ==> !ComesTooLate(Run(n, acts[..k]), acts[k])
  {
    var s := Run(n, acts);
    Always(n, acts);
    forall t: nat | t < |s.fate|
      ensures s.fate[t].Done? <==> !Stranded(s, t)
    {
      assert FateOk(t, s.fate[t], s.workers);
    }
    assert s.tasks != [] ==> s.fate[s.tasks[0]] == Queued && !s.fate[s.tasks[0]].Done?;
    hide Inv, Step;
    if k: nat :| k < |acts| && ComesTooLate(Run(n, acts[..k]), acts[k]) {
      StrandedFromTheStart(n, acts, |Run(n, acts[..k]).log|);
      assert TooLateAt(n, acts, k, |Run(n, acts[..k]).log|);
    }
    if t: nat :| t < |s.fate| && Stranded(s, t) {
      StrandedFromTheStart(n, acts, t);
    }
  }
}

/**
 The worker loop of `run` with the fibers it resumes. A context switch is a change of `place`; `others`
 says what the other threads do before each access. The record `state` stands for the fields of the
 scheduler, its fibers and its workers.
*/
module FiberSchedulerObject {
  import opened Wrappers
  import opened FiberMachine

  /** Nothing that worker `w` itself does. */
  predicate Foreign(a: Action, w: nat) {
    match a
    case Work(v) => v != w
    case Schedule(v, _) => v != w
    case Yield(v) => v != w
    case Finish(v) => v != w
    case _ => true
  }

  lemma ForeignKeepsWorker(s: State, a: Action, w: nat)
    requires w < |s.workers| && Foreign(a, w)
    ensures |Step(s, a).workers| == |s.workers| && Step(s, a).workers[w] == s.workers[w]
  {
    if a.Work? && a.w < |s.workers| {
      WorkShape(s, a.w);
      hide WorkStep;
    }
  }

  /** What worker `w` has scheduled, in order. */
  function Scheduled(acts: seq<Action>, w: nat): seq<Task> {
    if acts == [] then []
    else
      var a := acts[|acts| - 1];
      Scheduled(acts[..|acts| - 1], w) + if a.Schedule? && a.w == w then [a.task] else []
  }

  lemma ScheduledSnoc(acts: seq<Action>, a: Action, w: nat)
    ensures Scheduled(acts + [a], w) == Scheduled(acts, w) + if a.Schedule? && a.w == w then [a.task] else []
  {
    assert (acts + [a])[..|acts|] == acts;
  }

  class Scheduler {
    const n: nat
    var state: State
    ghost var trace: seq<Action>

    ghost predicate Valid()
      reads this
    {
      state == Run(n, trace) && |state.workers| == n
    }

    constructor (n: nat)
      ensures Valid() && this.n == n && trace == []
    {
      this.n, state, trace := n, Init(n), [];
    }

    ghost method Did(a: Action, was: State)
      requires was == Run(n, trace) && |was.workers| == n && state == Step(was, a)
      modifies `trace
      ensures Valid() && trace == old(trace) + [a]
    {
      assert (trace + [a])[..|trace|] == trace;
      SameWorkers(was, a);
      trace := trace + [a];
    }

    method Others(acts: seq<Action>, w: nat)
      requires Valid() && w < n && forall i :: 0 <= i < |acts| ==> Foreign(acts[i], w)
      modifies this
      ensures Valid() && trace == old(trace) + acts && state.workers[w] == old(state).workers[w]
      ensures |state.fibers| >= |old(state).fibers| && Scheduled(trace, w) == Scheduled(old(trace), w)
    {
      hide Run, Step, Scheduled;
      for i := 0 to |acts|
        invariant Valid() && trace == old(trace) + acts[..i] && state.workers[w] == old(state).workers[w]
        invariant |state.fibers| >= |old(state).fibers| && Scheduled(trace, w) == Scheduled(old(trace), w)
      {
        ghost var was := state;
        ForeignKeepsWorker(state, acts[i], w);
        FibersStay(state, acts[i]);
        ScheduledSnoc(trace, acts[i], w);
        state := Step(state, acts[i]);
        Did(acts[i], was);
      }
    }

    /** The block that takes a task, with the scan of the queue: the first task this worker may run.
        Another worker is woken exactly if tasks remain. */
    method Take(w: nat) returns (task: Option<Ticket>, tickleMe: bool)
      requires Valid() && w < n && state.workers[w].place.Looking?
      modifies this
      ensures Valid() && trace == old(trace) + [Work(w)]
      ensures task.None? ==>
                forall j :: 0 <= j < |old(state).tasks| ==> !Eligible(old(state).log, old(state).tasks[j], w)
      ensures task.Some? ==> exists i ::
                && 0 <= i < |old(state).tasks| && old(state).tasks[i] == task.value
                && Eligible(old(state).log, task.value, w)
                && (forall j :: 0 <= j < i ==> !Eligible(old(state).log, old(state).tasks[j], w))
                && state.tasks == old(state).tasks[..i] + old(state).tasks[i + 1..]
      ensures state.workers[w].place == if task.Some? then Taken(task.value) else NoTask
      ensures state.active == old(state).active + if task.Some? then 1 else 0
      ensures task.None? ==> state.tasks == old(state).tasks
      ensures state.fibers == old(state).fibers && state.holder == old(state).holder && state.log == old(state).log
      ensures tickleMe <==> state.tasks != []
    {
      hide Run;
      var tasks := state.tasks;
      var it := 0;
      tickleMe := false;
      while it < |tasks| && !Eligible(state.log, tasks[it], w)
        invariant it <= |tasks| && forall j :: 0 <= j < it ==> !Eligible(state.log, tasks[j], w)
        invariant tickleMe <==> it > 0
      {
        it := it + 1;
        tickleMe := true;
      }
      FirstIs(tasks, state.log, w, it);
      task := None;
      if it < |tasks| {
        task := Some(tasks[it]);
      }
      TakeAt(w, it);
      tickleMe := tickleMe || (task.Some? && it != |state.tasks|);
    }

    /** Take the task at that position, or go to the idle branch. */
    method TakeAt(w: nat, it: nat)
      requires Valid() && w < n && state.workers[w].place.Looking?
      requires it == FirstFor(state.tasks, state.log, w)
      modifies this
      ensures Valid() && trace == old(trace) + [Work(w)]
      ensures if it == |old(state).tasks| then
                state.workers[w].place == NoTask && state.tasks == old(state).tasks && state.active == old(state).active
              else
                && state.workers[w].place == Taken(old(state).tasks[it]) && state.active == old(state).active + 1
                && state.tasks == old(state).tasks[..it] + old(state).tasks[it + 1..]
      ensures state.fibers == old(state).fibers && state.holder == old(state).holder && state.log == old(state).log
    {
      hide Run, FirstFor;
      if it == |state.tasks| {
        state := At(state, w, NoTask);
      } else {
        var t := state.tasks[it];
        state := At(state, w, Taken(t)).(tasks := state.tasks[..it] + state.tasks[it + 1..], active := state.active + 1,
                                         fate := Settle(state.fate, t, Held(w)));
      }
      Did(Work(w), old(state));
    }

    /** The lock on the fiber of the task, or on a new fiber for a callback. The call would block while
        another worker holds it; it then reports that and changes nothing. */
    method Lock(w: nat, t: Ticket) returns (fiber: Option<Fid>)
      requires Valid() && w < n && state.workers[w].place == Taken(t)
      modifies this
      ensures Valid() && trace == old(trace) + if fiber.Some? then [Work(w)] else []
      ensures |state.fibers| >= |old(state).fibers|
      ensures fiber.None? ==>
                state == old(state) && t < |state.log| && state.log[t].FiberTask? && state.log[t].f in state.holder
      ensures fiber.Some? ==> state.workers[w].place == Locked(t, fiber.value)
      ensures t < |state.log| == |old(state).log| && state.log == old(state).log
      ensures fiber.Some? && state.log[t].FiberTask? ==>
                fiber.value == state.log[t].f && state.fibers == old(state).fibers
      ensures fiber.Some? && !state.log[t].FiberTask? ==>
                fiber.value == |old(state).fibers| && state.fibers == old(state).fibers + [READY]
      ensures fiber.Some? ==> fiber.value !in old(state).holder && state.holder == old(state).holder[fiber.value := w]
    {
      TicketInRange(w, t);
      hide Run;
      if state.log[t].FiberTask? {
        var f := state.log[t].f;
        if f in state.holder {
          return None;
        }
        state := At(state, w, Locked(t, f)).(holder := state.holder[f := w]);
        fiber := Some(f);
      } else {
        var f := |state.fibers|;
        NewIsFree(f);
        state := At(state, w, Locked(t, f)).(fibers := state.fibers + [READY], holder := state.holder[f := w]);
        fiber := Some(f);
      }
      Did(Work(w), old(state));
    }

    lemma NewIsFree(f: Fid)
      requires Valid() && f == |state.fibers|
      ensures f !in state.holder
    {
      Always(n, trace);
    }

    lemma TicketInRange(w: nat, t: Ticket)
      requires Valid() && w < n && Busy(state.workers[w].place) && state.workers[w].place.t == t
      ensures t < |state.log| && t < |state.fate|
    {
      Always(n, trace);
      assert TicketOk(w, state.workers[w].place, state.fate);
      assert |state.log| == |state.fate|;
    }

    /** The assertion of `resume` is the precondition of this method. */
    method Resume(f: Fid)
      requires f < |state.fibers| && state.fibers[f] == READY
      modifies `state
      ensures state == old(state).(fibers := old(state).fibers[f := RUNNING])
    {
      state := state.(fibers := state.fibers[f := RUNNING]);
    }

    /** Under the lock: a scheduled fiber that is TERM is skipped, any other is resumed, and is READY. */
    method Enter(w: nat, t: Ticket, f: Fid) returns (resumed: bool)
      requires Valid() && w < n && state.workers[w].place == Locked(t, f)
      modifies this
      ensures Valid() && trace == old(trace) + [Work(w)] && f < |old(state).fibers|
      ensures resumed <==> old(state).fibers[f] == READY
      ensures state.workers[w].place == if resumed then Inside(t, f) else Returned(t, f, false)
      ensures state.fibers == if resumed then old(state).fibers[f := RUNNING] else old(state).fibers
      ensures !resumed ==> old(state).fibers[f] == TERM
    {
      Always(n, trace);
      LockedIsNotRunning(state, w);
      NeverFailed(n, trace);
      hide Run, Inv;
      resumed := !(state.log[t].FiberTask? && state.fibers[f] == TERM);
      if resumed {
        Resume(f);
        state := At(state, w, Inside(t, f));
      } else {
        state := At(state, w, Returned(t, f, false));
      }
      Did(Work(w), old(state));
    }

    lemma NeverFailed(n: nat, acts: seq<Action>)
      ensures !Run(n, acts).failed
    {
      Always(n, acts);
    }

    /** `scheduleLock`, called inside a fiber of this scheduler or from outside: somebody must be woken if
        the queue was empty. */
    method ScheduleLock(call: Action) returns (needTickle: bool)
      requires Valid() && Schedules(state, call)
      modifies this
      ensures Valid() && trace == old(trace) + [call]
      ensures state.tasks == old(state).tasks + [|old(state).log|] && state.log == old(state).log + [call.task]
      ensures state.workers == old(state).workers && state.fibers == old(state).fibers
      ensures needTickle <==> old(state).tasks == []
    {
      hide Run;
      needTickle := state.tasks == [];
      state := state.(tasks := state.tasks + [|state.log|],
                      log := state.log + [call.task], fate := state.fate + [Queued]);
      Did(call, old(state));
    }

    /** What the fiber does until it switches back: it schedules tasks, then yields or ends. The other
        threads act before each of its accesses, by the entries of `others` from `first` on. */
    method RunFiber(w: nat, t: Ticket, f: Fid, tasks: seq<Task>, ends: bool, others: nat -> seq<Action>, first: nat)
      requires Valid() && w < n && state.workers[w].place == Inside(t, f)
      requires forall i :: 0 <= i < |tasks| ==> Exists(state.fibers, tasks[i])
      requires forall k, i :: 0 <= i < |others(k)| ==> Foreign(others(k)[i], w)
      modifies this
      ensures Valid() && old(trace) <= trace && state.workers[w].place == Returned(t, f, true)
      ensures f < |state.fibers| && state.fibers[f] == if ends then TERM else READY
      ensures Scheduled(trace, w) == Scheduled(old(trace), w) + tasks
    {
      hide Run, Foreign, Scheduled, Step;
      for i := 0 to |tasks|
        invariant Valid() && old(trace) <= trace && state.workers[w].place == Inside(t, f)
        invariant |state.fibers| >= |old(state).fibers|
        invariant Scheduled(trace, w) == Scheduled(old(trace), w) + tasks[..i]
      {
        Others(others(first + i), w);
        ScheduledSnoc(trace, Schedule(w, tasks[i]), w);
        var _ := ScheduleLock(Schedule(w, tasks[i]));
      }
      Others(others(first + |tasks|), w);
      SwitchBackNow(w, t, f, ends);
    }

    /** `yield`, or the end of `MainFunc`. */
    method SwitchBackNow(w: nat, t: Ticket, f: Fid, ends: bool)
      requires Valid() && w < n && state.workers[w].place == Inside(t, f)
      modifies this
      ensures Valid() && trace == old(trace) + [if ends then Action.Finish(w) else Action.Yield(w)]
      ensures state.workers[w].place == Returned(t, f, true)
      ensures f < |old(state).fibers| && state.fibers == old(state).fibers[f := if ends then TERM else READY]
      ensures Scheduled(trace, w) == Scheduled(old(trace), w)
    {
      InsideInRange(w, f);
      hide Run, Scheduled;
      var last := if ends then Action.Finish(w) else Action.Yield(w);
      ScheduledSnoc(trace, last, w);
      state := At(state, w, Returned(t, f, true)).(fibers := state.fibers[f := if ends then TERM else READY]);
      Did(last, old(state));
    }

    lemma InsideInRange(w: nat, f: Fid)
      requires Valid() && w < n && state.workers[w].place.Inside? && state.workers[w].place.f == f
      ensures f < |state.fibers|
    {
      Always(n, trace);
      assert PlaceOk(w, state.workers[w].place, state.holder, state.fibers, state.log);
    }

    method Unlock(w: nat, t: Ticket, f: Fid, resumed: bool)
      requires Valid() && w < n && state.workers[w].place == Returned(t, f, resumed)
      modifies this
      ensures Valid() && trace == old(trace) + [Work(w)] && state.workers[w].place == Unlocked(t, resumed)
      ensures state.holder == old(state).holder - {f} && state.fibers == old(state).fibers
    {
      hide Run;
      state := At(state, w, Unlocked(t, resumed)).(holder := state.holder - {f});
      Did(Work(w), old(state));
    }

    method Release(w: nat, t: Ticket, resumed: bool)
      requires Valid() && w < n && state.workers[w].place == Unlocked(t, resumed)
      modifies this
      ensures Valid() && trace == old(trace) + [Work(w)] && state.workers[w].place.Looking?
      ensures t < |state.fate| && state.fate[t] == Done(resumed)
      ensures old(state).active > 0 && state.active == old(state).active - 1
    {
      TicketInRange(w, t);
      ActiveCounts(w);
      hide Run;
      state := At(state, w, Looking).(active := state.active - 1, fate := state.fate[t := Done(resumed)]);
      Did(Work(w), old(state));
    }

    /** The counter does not go below zero. */
    lemma ActiveCounts(w: nat)
      requires Valid() && w < n && Busy(state.workers[w].place)
      ensures state.active > 0
    {
      Always(n, trace);
      BusyUpdate(state.workers, w, state.workers[w]);
      if state.active == 0 {
        NoneBusy(state.workers);
      }
    }

    /** One task from the lock to the decrement of the active count. The call is stuck only while the
        mutex of the task's fiber is held by another worker. `back` is the length of the run when fiber `f` has
        switched back. */
    method Dispatch(w: nat, t: Ticket, tasks: seq<Task>, ends: bool, others: nat -> seq<Action>)
      returns (stuck: bool, ghost f: Fid, ghost back: nat)
      requires Valid() && w < n && state.workers[w].place == Taken(t)
      requires forall k, i :: 0 <= i < |others(k)| ==> Foreign(others(k)[i], w)
      requires forall i :: 0 <= i < |tasks| ==> Exists(state.fibers, tasks[i])
      modifies this
      ensures Valid() && old(trace) <= trace && !state.failed
      ensures stuck <==> IsHeld(Run(n, old(trace) + others(0)), t)
      ensures stuck ==> trace == old(trace) + others(0) && state.workers[w].place == Taken(t)
      ensures !stuck ==> state.workers[w].place.Looking? && t < |state.fate| && state.fate[t].Done?
      ensures !stuck ==> SwitchesBack(trace, w, t, f, back, state.fate[t].resumed, ends)
      ensures !stuck && !state.fate[t].resumed ==> HasEnded(n, trace, f)
      ensures Scheduled(trace, w) ==
                Scheduled(old(trace), w) + if !stuck && state.fate[t].resumed then tasks else []
    {
      hide Run, Foreign, Step, Scheduled, SwitchesBack, HasEnded;
      Others(others(0), w);
      ScheduledSnoc(trace, Work(w), w);
      ghost var mid := trace;
      assert state == Run(n, old(trace) + others(0));
      var locked := Lock(w, t);
      assert locked.None? ==> trace == mid + [] == mid;
      stuck, f, back := locked.None?, 0, 0;
      if !stuck {
        f := locked.value;
        back := RunLocked(w, t, locked.value, tasks, ends, others);
      }
      NeverFailed(n, trace);
    }

    /** The mutex of the task's fiber is held by some worker. */
    predicate IsHeld(s: State, t: Ticket) {
      t < |s.log| && s.log[t].FiberTask? && s.log[t].f in s.holder
    }

    /** At that point of the run worker `w` has come back from fiber `f` for task `t`: a fiber that has been resumed
        is then TERM if its function has ended and READY if it has yielded. */
    ghost predicate SwitchesBack(acts: seq<Action>, w: nat, t: Ticket, f: Fid, back: nat, resumed: bool, ends: bool) {
      && back <= |acts|
      && var s := Run(n, acts[..back]);
         && w < |s.workers| && s.workers[w].place == Returned(t, f, resumed)
         && t < |s.log| && (s.log[t].FiberTask? ==> f == s.log[t].f)
         && f < |s.fibers| && s.fibers[f] == if resumed && !ends then READY else TERM
    }

    lemma SwitchesBackStill(acts: seq<Action>, more: seq<Action>, w: nat, t: Ticket, f: Fid, back: nat,
                            resumed: bool, ends: bool)
      requires acts <= more && SwitchesBack(acts, w, t, f, back, resumed, ends)
      ensures SwitchesBack(more, w, t, f, back, resumed, ends)
    {
      hide Run;
      assert more[..back] == acts[..back];
    }

    /** From the lock to the decrement; entry 0 of `others` has been used. */
    method RunLocked(w: nat, t: Ticket, f: Fid, tasks: seq<Task>, ends: bool, others: nat -> seq<Action>)
      returns (ghost back: nat)
      requires Valid() && w < n && state.workers[w].place == Locked(t, f)
      requires forall k, i :: 0 <= i < |others(k)| ==> Foreign(others(k)[i], w)
      requires forall i :: 0 <= i < |tasks| ==> Exists(state.fibers, tasks[i])
      modifies this
      ensures Valid() && old(trace) <= trace
      ensures state.workers[w].place.Looking? && t < |state.fate| && state.fate[t].Done?
      ensures SwitchesBack(trace, w, t, f, back, state.fate[t].resumed, ends)
      ensures !state.fate[t].resumed ==> HasEnded(n, trace, f)
      ensures Scheduled(trace, w) == Scheduled(old(trace), w) + if state.fate[t].resumed then tasks else []
    {
      hide Run, Foreign, Step, Scheduled, HasEnded;
      Others(others(1), w);
      ScheduledSnoc(trace, Work(w), w);
      var resumed := Enter(w, t, f);
      if resumed {
        RunFiber(w, t, f, tasks, ends, others, 2);
      } else {
        TermIffEnded(n, trace, f);
      }
      back := |trace|;
      ghost var returned := trace;
      ReturnedOfTask(w, t, f, resumed);
      assert trace[..back] == trace;
      assert SwitchesBack(trace, w, t, f, back, resumed, ends);
      LetGo(w, t, f, resumed, others(|tasks| + 3), others(|tasks| + 4));
      SwitchesBackStill(returned, trace, w, t, f, back, resumed, ends);
      if !resumed {
        EndedStill(n, returned, trace, f);
      }
    }

    lemma ReturnedOfTask(w: nat, t: Ticket, f: Fid, resumed: bool)
      requires Valid() && w < n && state.workers[w].place == Returned(t, f, resumed)
      ensures t < |state.log| && (state.log[t].FiberTask? ==> f == state.log[t].f)
    {
      Always(n, trace);
      assert PlaceOk(w, state.workers[w].place, state.holder, state.fibers, state.log);
    }

    /** The unlock and the decrement. */
    method LetGo(w: nat, t: Ticket, f: Fid, resumed: bool, atUnlock: seq<Action>, atRelease: seq<Action>)
      requires Valid() && w < n && state.workers[w].place == Returned(t, f, resumed)
      requires forall i :: 0 <= i < |atUnlock| ==> Foreign(atUnlock[i], w)
      requires forall i :: 0 <= i < |atRelease| ==> Foreign(atRelease[i], w)
      modifies this
      ensures Valid() && old(trace) <= trace
      ensures state.workers[w].place.Looking? && t < |state.fate| && state.fate[t] == Done(resumed)
      ensures Scheduled(trace, w) == Scheduled(old(trace), w)
    {
      hide Run, Foreign, Step, Scheduled;
      Others(atUnlock, w);
      ScheduledSnoc(trace, Work(w), w);
      Unlock(w, t, f, resumed);
      Others(atRelease, w);
      ScheduledSnoc(trace, Work(w), w);
      Release(w, t, resumed);
    }

    /** The idle branch: a TERM idle fiber ends the loop; otherwise it looks at `stopping` once. */
    method Idle(w: nat) returns (left: bool)
      requires Valid() && w < n && state.workers[w].place.NoTask?
      modifies this
      ensures Valid() && trace == old(trace) + [Work(w)]
      ensures left <==> old(state).workers[w].idleDone
      ensures state.workers[w].place == if left then Left else InIdle
    {
      hide Run;
      left := state.workers[w].idleDone;
      state := At(state, w, if left then Left else InIdle);
      Did(Work(w), old(state));
    }

    /** The idle fiber looks at `stopping` and ends, or yields. */
    method LookAtStopping(w: nat)
      requires Valid() && w < n && state.workers[w].place.InIdle?
      modifies this
      ensures Valid() && trace == old(trace) + [Work(w)] && state.workers[w].place.Looking?
      ensures state.workers[w].idleDone <==> old(state).stopping && old(state).tasks == [] && old(state).active == 0
    {
      hide Run;
      state := state.(workers := state.workers[w := Worker(Looking, Stopping(state))]);
      Did(Work(w), old(state));
    }

    /** No task in the queue is for worker `w`. */
    ghost predicate NothingFor(s: State, w: nat) {
      forall j :: 0 <= j < |s.tasks| ==> !Eligible(s.log, s.tasks[j], w)
    }

    /** One turn of the loop of `run`: the task it finds is done, or it takes the idle branch. `at` is the length
        of the run when it looked at the queue. It ends in a wait only for a mutex that is held. */
    method Turn(w: nat, tasks: seq<Task>, ends: bool, others: nat -> seq<Action>)
      returns (left: bool, stuck: bool, task: Option<Ticket>, ghost at: nat)
      requires Valid() && w < n && state.workers[w].place.Looking?
      requires forall k, i :: 0 <= i < |others(k)| ==> Foreign(others(k)[i], w)
      requires forall i :: 0 <= i < |tasks| ==> Exists(state.fibers, tasks[i])
      modifies this
      ensures Valid() && old(trace) <= trace && |old(trace)| <= at < |trace|
      ensures task.None? <==> NothingFor(Run(n, trace[..at]), w)
      ensures task.Some? ==> !left && Eligible(Run(n, trace[..at]).log, task.value, w)
      ensures task.Some? && !stuck ==> task.value < |state.fate| && state.fate[task.value].Done?
      ensures left ==> state.workers[w].place.Left?
      ensures stuck ==> task.Some? && state.workers[w].place == Taken(task.value) && IsHeld(state, task.value)
      ensures !left && !stuck ==> state.workers[w].place.Looking?
    {
      hide Run, Foreign, Step, Eligible, Stopping, Scheduled, SwitchesBack, HasEnded;
      left, stuck := false, false;
      Others(others(0), w);
      at := |trace|;
      ghost var looked := trace;
      var found, _ := Take(w);
      task := found;
      if task.Some? {
        FibersGrow(n, old(trace), trace[|old(trace)|..]);
        assert old(trace) + trace[|old(trace)|..] == trace;
        var waits, _, _ := Dispatch(w, task.value, tasks, ends, (k: nat) => others(k + 1));
        stuck := waits;
      } else {
        Others(others(1), w);
        left := Idle(w);
        if !left {
          Others(others(2), w);
          LookAtStopping(w);
        }
      }
      assert trace[..at] == looked;
    }

    /** The loop of `run`, for at most `rounds` turns: turn `r` runs the fiber or callback that schedules
        `bodies(r)`, after looking at the queue at point `looks[r]` of the run. A worker that leaves has seen
        `stopping` hold, and one that waits does so for a mutex that is held. */
    method RunLoop(w: nat, bodies: nat -> seq<Task>, ends: nat -> bool, others: (nat, nat) -> seq<Action>, rounds: nat)
      returns (left: bool, stuck: bool, ghost looks: seq<nat>)
      requires Valid() && w < n && state.workers[w].place.Looking?
      requires forall j, k, i :: 0 <= i < |others(j, k)| ==> Foreign(others(j, k)[i], w)
      requires forall k, i :: 0 <= i < |bodies(k)| ==> Exists(state.fibers, bodies(k)[i])
      modifies this
      ensures Valid() && old(trace) <= trace
      ensures left ==> state.workers[w].place.Left? && SawStopping(n, trace) && !stuck
      ensures stuck ==> exists t :: state.workers[w].place == Taken(t) && IsHeld(state, t)
      ensures !left && !stuck ==> state.workers[w].place.Looking? && |looks| == rounds
      ensures forall r :: 0 <= r < |looks| ==> looks[r] <= |trace| && (0 < r ==> looks[r - 1] < looks[r])
    {
      hide Run, Foreign, Step, SawStopping, Eligible;
      left, stuck, looks := false, false, [];
      for r := 0 to rounds
        invariant Valid() && old(trace) <= trace && !left && !stuck && state.workers[w].place.Looking?
        invariant |looks| == r
        invariant forall j :: 0 <= j < r ==> looks[j] < |trace| && (0 < j ==> looks[j - 1] < looks[j])
      {
        FibersGrow(n, old(trace), trace[|old(trace)|..]);
        assert old(trace) + trace[|old(trace)|..] == trace;
        var leaves, waits, task, at := Turn(w, bodies(r), ends(r), (k: nat) => others(r, k));
        looks := looks + [at];
        left, stuck := leaves, waits;
        if left || stuck {
          LeavesAfterStopping(n, trace, w);
          return;
        }
      }
    }
  }
}
