/**
 The V2 scheduler of `src/scheduler.cpp`: tasks go from a worker's ingress queue to its local deque
 and from there, or through a thief, to a worker that runs them. The two queues are taken at the
 granularity their own modules justify: one step per link, exchange, push, pop and steal.
 A run is any list of steps of any number of workers, submitters and of `stop`.
*/
module RuntimeMachine {
  import opened Wrappers
  import DequeMachine

  /** A local deque holds at most this many tasks. */
  const CAPACITY := DequeMachine.CAPACITY

  /** The number of an accepted submission. */
  type Ticket = nat

  /** Where a worker is in `run_worker` and `take_task`. A `Transfer` carries the rest of the drained
      list and the length the list had. */
  datatype Place =
    | Looking
    | PopFirst
    | Drain
    | Transfer(chain: seq<Ticket>, batch: nat)
    | PopSecond
    | Stealing(victim: nat)
    | Executing(t: Ticket)
    | Polling
    | Exited

  datatype Worker = Worker(ingress: seq<Ticket>, closed: bool, local: seq<Ticket>, place: Place)

  /** Where an accepted task is. */
  datatype Fate = InIngress(w: nat) | InChain(w: nat) | InLocal(w: nat) | InHand(w: nat) | Completed | Lost(w: nat)

  /** `fate` has one entry per accepted task; `completed` and `lost` count. */
  datatype State = State(running: bool, workers: seq<Worker>, fate: seq<Fate>, completed: nat, lost: nat)

  /** `lucky` says whether a steal from a non-empty deque succeeds. */
  datatype Action = Enqueue(w: nat) | StopRunning | Close(w: nat) | Work(w: nat, lucky: bool)

  function Init(n: nat): State {
    State(true, seq(n, _ => Worker([], false, [], Looking)), [], 0, 0)
  }

  function Put(s: State, w: nat, x: Worker): State
    requires w < |s.workers|
  {
    s.(workers := s.workers[w := x])
  }

  function Settle(fate: seq<Fate>, t: Ticket, x: Fate): seq<Fate> {
    if t < |fate| then fate[t := x] else fate
  }

  /** The list is drained as a whole: every task in it moves to the worker's chain. */
  function Drained(fate: seq<Fate>, ts: seq<Ticket>, w: nat): (r: seq<Fate>)
    ensures |r| == |fate|
  {
    seq(|fate|, t requires 0 <= t < |fate| => if t in ts then InChain(w) else fate[t])
  }

  /** Lines 116 and 125: the newest local task, else the given next place. */
  function PopStep(s: State, w: nat, otherwise: Place): State
    requires w < |s.workers|
  {
    var x := s.workers[w];
    if x.local == [] then Put(s, w, x.(place := otherwise))
    else
      var t := x.local[|x.local| - 1];
      Put(s, w, x.(local := x.local[..|x.local| - 1], place := Executing(t))).(fate := Settle(s.fate, t, InHand(w)))
  }

  /** Lines 119 to 124: one push whose result is ignored. */
  function TransferStep(s: State, w: nat, chain: seq<Ticket>, batch: nat): State
    requires w < |s.workers|
  {
    var x := s.workers[w];
    if chain == [] then Put(s, w, x.(place := PopSecond))
    else if |x.local| < CAPACITY then
      Put(s, w, x.(local := x.local + [chain[0]], place := Transfer(chain[1..], batch))).(
        fate := Settle(s.fate, chain[0], InLocal(w)))
    else
      Put(s, w, x.(place := Transfer(chain[1..], batch))).(
        fate := Settle(s.fate, chain[0], Lost(w)), lost := s.lost + 1)
  }

  /** Lines 128 to 136: the oldest task of another worker's deque. */
  function StealStep(s: State, w: nat, v: nat, lucky: bool): State
    requires w < |s.workers|
  {
    var x := s.workers[w];
    if v >= |s.workers| then Put(s, w, x.(place := Polling))
    else if v == w || s.workers[v].local == [] || !lucky then Put(s, w, x.(place := Stealing(v + 1)))
    else
      var t := s.workers[v].local[0];
      var s1 := Put(s, v, s.workers[v].(local := s.workers[v].local[1..]));
      Put(s1, w, x.(place := Executing(t))).(fate := Settle(s.fate, t, InHand(w)))
  }

  function WorkStep(s: State, w: nat, lucky: bool): State
    requires w < |s.workers|
  {
    var x := s.workers[w];
    match x.place
    case Looking => Put(s, w, x.(place := if s.running || x.local != [] then PopFirst else Exited))
    case PopFirst => PopStep(s, w, Drain)
    case Drain =>
      Put(s, w, x.(ingress := [], place := Transfer(x.ingress, |x.ingress|))).(fate := Drained(s.fate, x.ingress, w))
    case Transfer(chain, batch) => TransferStep(s, w, chain, batch)
    case PopSecond => PopStep(s, w, Stealing(0))
    case Stealing(v) => StealStep(s, w, v, lucky)
    case Executing(t) =>
      Put(s, w, x.(place := Looking)).(fate := Settle(s.fate, t, Completed), completed := s.completed + 1)
    case Polling => Put(s, w, x.(place := Looking))
    case Exited => s
  }

  function Step(s: State, a: Action): State {
    match a
    case Enqueue(w) =>
      if w < |s.workers| && !s.workers[w].closed
      then Put(s, w, s.workers[w].(ingress := s.workers[w].ingress + [|s.fate|])).(fate := s.fate + [InIngress(w)])
      else s
    case StopRunning => s.(running := false)
    case Close(w) => if w < |s.workers| then Put(s, w, s.workers[w].(closed := true)) else s
    case Work(w, lucky) => if w < |s.workers| then WorkStep(s, w, lucky) else s
  }

  function Run(n: nat, acts: seq<Action>): State {
    if acts == [] then Init(n) else Step(Run(n, acts[..|acts| - 1]), acts[|acts| - 1])
  }

  // The invariant.

  function Chain(p: Place): seq<Ticket> {
    if p.Transfer? then p.chain else []
  }

  ghost predicate Increasing(ts: seq<Ticket>) {
    forall i, j :: 0 <= i < j < |ts| ==> ts[i] < ts[j]
  }

  ghost predicate AllAre(ts: seq<Ticket>, fate: seq<Fate>, x: Fate) {
    forall i :: 0 <= i < |ts| ==> ts[i] < |fate| && fate[ts[i]] == x
  }

  /** What a worker holds is recorded as held by it, each task once, in the order of acceptance. */
  ghost predicate WorkerOk(w: nat, x: Worker, fate: seq<Fate>) {
    && Increasing(x.ingress) && AllAre(x.ingress, fate, InIngress(w))
    && Increasing(x.local + Chain(x.place))
    && AllAre(x.local, fate, InLocal(w)) && AllAre(Chain(x.place), fate, InChain(w))
    && (x.place.Executing? ==> x.place.t < |fate| && fate[x.place.t] == InHand(w))
    && (x.place.Transfer? ==> |x.local| + |x.place.chain| <= x.place.batch)
    && (x.place.Drain? || x.place.Exited? ==> x.local == [])
  }

  /** A recorded place really holds the task. */
  ghost predicate FateOk(t: Ticket, f: Fate, ws: seq<Worker>) {
    match f
    case InIngress(w) => w < |ws| && t in ws[w].ingress
    case InChain(w) => w < |ws| && t in Chain(ws[w].place)
    case InLocal(w) => w < |ws| && t in ws[w].local
    case InHand(w) => w < |ws| && ws[w].place == Executing(t)
    case Completed => true
    case Lost(_) => true
  }

  /** Every accepted task is in exactly the place its fate names. */
  ghost predicate Placed(ws: seq<Worker>, fate: seq<Fate>) {
    && (forall w :: 0 <= w < |ws| ==> WorkerOk(w, ws[w], fate))
    && (forall t :: 0 <= t < |fate| ==> FateOk(t, fate[t], ws))
  }

  ghost predicate Inv(s: State) {
    && Placed(s.workers, s.fate)
    && (s.running ==> forall w :: 0 <= w < |s.workers| ==> !s.workers[w].place.Exited?)
  }

  function Holder(f: Fate): Option<nat> {
    match f
    case InIngress(w) => Some(w)
    case InChain(w) => Some(w)
    case InLocal(w) => Some(w)
    case InHand(w) => Some(w)
    case _ => None
  }

  /** Moving one of worker `w`'s tasks does not touch what another worker holds. */
  lemma OtherWorker(v: nat, x: Worker, fate: seq<Fate>, t: Ticket, f: Fate, w: nat)
    requires WorkerOk(v, x, fate) && v != w && t < |fate| && Holder(fate[t]) == Some(w)
    ensures WorkerOk(v, x, fate[t := f])
  {
  }

  /** Worker `w` becomes `x`, keeping what it holds except the task `t`, whose new fate is `f`. */
  lemma Moved(s: State, w: nat, x: Worker, t: Ticket, f: Fate)
    requires Inv(s) && w < |s.workers| && t < |s.fate| && Holder(s.fate[t]) == Some(w)
    requires WorkerOk(w, x, s.fate[t := f])
    requires FateOk(t, f, s.workers[w := x])
    requires forall u :: u in s.workers[w].ingress && u != t ==> u in x.ingress
    requires forall u :: u in s.workers[w].local && u != t ==> u in x.local
    requires forall u :: u in Chain(s.workers[w].place) && u != t ==> u in Chain(x.place)
    requires s.workers[w].place.Executing? ==> s.workers[w].place.t == t || x.place == s.workers[w].place
    ensures Placed(s.workers[w := x], s.fate[t := f])
  {
    var ws, fate := s.workers[w := x], s.fate[t := f];
    forall v | 0 <= v < |ws| ensures WorkerOk(v, ws[v], fate) {
      if v != w { OtherWorker(v, s.workers[v], s.fate, t, f, w); }
    }
    forall u | 0 <= u < |fate| ensures FateOk(u, fate[u], ws) {
      if u != t { assert FateOk(u, s.fate[u], s.workers); }
    }
  }

  /** Worker `w` becomes `x` and holds what it held. */
  lemma Kept(s: State, w: nat, x: Worker)
    requires Inv(s) && w < |s.workers| && WorkerOk(w, x, s.fate)
    requires x.ingress == s.workers[w].ingress && x.local == s.workers[w].local
    requires Chain(x.place) == Chain(s.workers[w].place)
    requires s.workers[w].place.Executing? ==> x.place == s.workers[w].place
    ensures Placed(s.workers[w := x], s.fate)
  {
    var ws := s.workers[w := x];
    forall u | 0 <= u < |s.fate| ensures FateOk(u, s.fate[u], ws) {
      assert FateOk(u, s.fate[u], s.workers);
    }
  }

  lemma InitLast(ts: seq<Ticket>)
    requires ts != [] && Increasing(ts)
    ensures Increasing(ts[..|ts| - 1]) && ts[|ts| - 1] !in ts[..|ts| - 1]
    ensures forall u :: u in ts && u != ts[|ts| - 1] ==> u in ts[..|ts| - 1]
    ensures Increasing(ts[1..]) && ts[0] !in ts[1..]
    ensures forall u :: u in ts && u != ts[0] ==> u in ts[1..]
  {
    forall u | u in ts && u != ts[|ts| - 1] ensures u in ts[..|ts| - 1] {
      var i :| 0 <= i < |ts| && ts[i] == u;
      assert ts[..|ts| - 1][i] == u;
    }
    forall u | u in ts && u != ts[0] ensures u in ts[1..] {
      var i :| 0 <= i < |ts| && ts[i] == u;
      assert ts[1..][i - 1] == u;
    }
  }

  lemma PopTakes(s: State, w: nat)
    requires Inv(s) && w < |s.workers| && s.workers[w].local != []
    requires s.workers[w].place.PopFirst? || s.workers[w].place.PopSecond?
    ensures
      var x, t := s.workers[w], s.workers[w].local[|s.workers[w].local| - 1];
      && t < |s.fate|
      && Placed(s.workers[w := x.(local := x.local[..|x.local| - 1], place := Executing(t))], s.fate[t := InHand(w)])
  {
    var x := s.workers[w];
    assert WorkerOk(w, x, s.fate);
    var n := |x.local| - 1;
    var t := x.local[n];
    hide Inv, Placed;
    PopWorker(w, x, s.fate);
    InitLast(x.local);
    hide WorkerOk;
    Moved(s, w, x.(local := x.local[..n], place := Executing(t)), t, InHand(w));
  }

  lemma PopWorker(w: nat, x: Worker, fate: seq<Fate>)
    requires WorkerOk(w, x, fate) && x.local != [] && Chain(x.place) == []
    ensures
      var n := |x.local| - 1;
      var t := x.local[n];
      && t < |fate| && fate[t] == InLocal(w) && Increasing(x.local)
      && WorkerOk(w, x.(local := x.local[..n], place := Executing(t)), fate[t := InHand(w)])
  {
    assert x.local + [] == x.local;
    InitLast(x.local);
    var rest := x.local[..|x.local| - 1];
    assert rest + [] == rest;
  }

  lemma PopMisses(s: State, w: nat, otherwise: Place)
    requires Inv(s) && w < |s.workers| && s.workers[w].local == []
    requires (s.workers[w].place.PopFirst? && otherwise == Drain)
             || (s.workers[w].place.PopSecond? && otherwise == Stealing(0))
    ensures Placed(s.workers[w := s.workers[w].(place := otherwise)], s.fate)
  {
    assert WorkerOk(w, s.workers[w], s.fate);
    hide Placed;
    Kept(s, w, s.workers[w].(place := otherwise));
  }

  lemma PopKeeps(s: State, w: nat, otherwise: Place)
    requires Inv(s) && w < |s.workers|
    requires (s.workers[w].place.PopFirst? && otherwise == Drain)
             || (s.workers[w].place.PopSecond? && otherwise == Stealing(0))
    ensures Inv(PopStep(s, w, otherwise))
  {
    hide Placed;
    if s.workers[w].local == [] { PopMisses(s, w, otherwise); } else { PopTakes(s, w); }
  }

  lemma TransferKeeps(s: State, w: nat)
    requires Inv(s) && w < |s.workers| && s.workers[w].place.Transfer?
    ensures Inv(TransferStep(s, w, s.workers[w].place.chain, s.workers[w].place.batch))
  {
    var x := s.workers[w];
    if x.place.chain == [] {
      assert WorkerOk(w, x, s.fate);
      Kept(s, w, x.(place := PopSecond));
      hide Placed;
    } else {
      hide Inv, TransferStep;
      if |x.local| < CAPACITY { TransferPush(s, w); } else { TransferLoses(s, w); }
    }
  }

  lemma ChainSplit(local: seq<Ticket>, chain: seq<Ticket>)
    requires chain != [] && Increasing(local + chain)
    ensures Increasing(local + chain[1..]) && Increasing(chain) && Increasing(local)
    ensures chain[0] !in local && chain[0] !in chain[1..]
    ensures forall u :: u in chain && u != chain[0] ==> u in chain[1..]
  {
    var all := local + chain;
    assert forall i :: 0 <= i < |chain| ==> chain[i] == all[|local| + i];
    assert forall i :: 0 <= i < |local| ==> local[i] == all[i];
    var rest := local + chain[1..];
    assert forall i :: 0 <= i < |rest| ==> rest[i] == if i < |local| then all[i] else all[i + 1];
    InitLast(chain);
    assert forall i :: 0 <= i < |local| ==> local[i] < all[|local|];
  }

  /** The head of the chain belongs to the worker. */
  lemma ChainHead(s: State, w: nat)
    requires Inv(s) && w < |s.workers| && s.workers[w].place.Transfer? && s.workers[w].place.chain != []
    ensures
      var x := s.workers[w];
      var t := x.place.chain[0];
      && WorkerOk(w, x, s.fate) && t < |s.fate| && s.fate[t] == InChain(w)
      && Increasing(x.local + x.place.chain[1..]) && t !in x.local && t !in x.place.chain[1..]
      && forall u :: u in x.place.chain && u != t ==> u in x.place.chain[1..]
  {
    assert WorkerOk(w, s.workers[w], s.fate);
    hide Inv;
    ChainSplit(s.workers[w].local, s.workers[w].place.chain);
  }

  lemma TransferPush(s: State, w: nat)
    requires Inv(s) && w < |s.workers| && s.workers[w].place.Transfer? && s.workers[w].place.chain != []
    requires |s.workers[w].local| < CAPACITY
    ensures Inv(TransferStep(s, w, s.workers[w].place.chain, s.workers[w].place.batch))
  {
    var x := s.workers[w];
    var chain, t := x.place.chain, x.place.chain[0];
    var x' := x.(local := x.local + [t], place := Transfer(chain[1..], x.place.batch));
    ChainHead(s, w);
    hide Placed;
    assert x'.local + chain[1..] == x.local + chain;
    assert x'.local[|x.local|] == t;
    Moved(s, w, x', t, InLocal(w));
  }

  lemma TransferLoses(s: State, w: nat)
    requires Inv(s) && w < |s.workers| && s.workers[w].place.Transfer? && s.workers[w].place.chain != []
    requires |s.workers[w].local| >= CAPACITY
    ensures Inv(TransferStep(s, w, s.workers[w].place.chain, s.workers[w].place.batch))
  {
    var x := s.workers[w];
    var chain, t := x.place.chain, x.place.chain[0];
    ChainHead(s, w);
    hide Placed;
    Moved(s, w, x.(place := Transfer(chain[1..], x.place.batch)), t, Lost(w));
  }

  lemma DrainKeeps(s: State, w: nat, lucky: bool)
    requires Inv(s) && w < |s.workers| && s.workers[w].place.Drain?
    ensures Inv(WorkStep(s, w, lucky))
  {
    DrainPlaces(s.workers, s.fate, w);
    hide Placed;
  }

  lemma DrainPlaces(ws: seq<Worker>, fate: seq<Fate>, w: nat)
    requires Placed(ws, fate) && w < |ws| && ws[w].place.Drain?
    ensures
      var x := ws[w];
      Placed(ws[w := x.(ingress := [], place := Transfer(x.ingress, |x.ingress|))], Drained(fate, x.ingress, w))
  {
    var x := ws[w];
    var x' := x.(ingress := [], place := Transfer(x.ingress, |x.ingress|));
    var fate' := Drained(fate, x.ingress, w);
    var ws' := ws[w := x'];
    assert WorkerOk(w, x, fate);
    assert WorkerOk(w, x', fate') by { assert x'.local + x.ingress == x.ingress; }
    forall v | 0 <= v < |ws'| ensures WorkerOk(v, ws'[v], fate') {
      assert WorkerOk(v, ws[v], fate);
      hide WorkerOk;
      if v != w { DrainAside(v, ws[v], fate, x.ingress, w); }
    }
    hide WorkerOk;
    forall t | 0 <= t < |fate'| ensures FateOk(t, fate'[t], ws') {
      assert FateOk(t, fate[t], ws);
    }
  }

  lemma DrainAside(v: nat, x: Worker, fate: seq<Fate>, ts: seq<Ticket>, w: nat)
    requires WorkerOk(v, x, fate) && v != w && AllAre(ts, fate, InIngress(w))
    ensures WorkerOk(v, x, Drained(fate, ts, w))
  {
    var fate' := Drained(fate, ts, w);
    forall u | 0 <= u < |fate| && fate[u] != InIngress(w) ensures fate'[u] == fate[u] {
    }
  }

  lemma StealKeeps(s: State, w: nat, lucky: bool)
    requires Inv(s) && w < |s.workers| && s.workers[w].place.Stealing?
    ensures Inv(StealStep(s, w, s.workers[w].place.victim, lucky))
  {
    var v := s.workers[w].place.victim;
    var s' := StealStep(s, w, v, lucky);
    var x := s.workers[w];
    assert WorkerOk(w, x, s.fate);
    assert x.local + [] == x.local;
    if v >= |s.workers| || v == w || s.workers[v].local == [] || !lucky {
      Kept(s, w, s'.workers[w]);
    } else {
      Stolen(s, w, v);
    }
  }

  lemma Stolen(s: State, w: nat, v: nat)
    requires Inv(s) && w < |s.workers| && v < |s.workers| && v != w
    requires s.workers[w].place == Stealing(v) && s.workers[v].local != []
    ensures Inv(StealStep(s, w, v, true))
  {
    var s' := StealStep(s, w, v, true);
    var y, t := s.workers[v], s.workers[v].local[0];
    assert WorkerOk(w, s.workers[w], s.fate) && WorkerOk(v, y, s.fate);
    assert s.fate[t] == InLocal(v);
    StolenVictim(y.local, Chain(y.place));
    assert s.running ==> forall u :: 0 <= u < |s'.workers| ==> !s'.workers[u].place.Exited?;
    hide Increasing, AllAre;
    StolenFates(s, w, v);
    hide FateOk;
    forall u | 0 <= u < |s'.workers| ensures WorkerOk(u, s'.workers[u], s'.fate) {
      assert WorkerOk(u, s.workers[u], s.fate);
      hide WorkerOk;
      StolenWorker(s, w, v, u);
    }
  }

  lemma StolenFates(s: State, w: nat, v: nat)
    requires w < |s.workers| && v < |s.workers| && v != w
    requires s.workers[w].place == Stealing(v) && s.workers[v].local != []
    requires forall u :: u in s.workers[v].local && u != s.workers[v].local[0] ==> u in s.workers[v].local[1..]
    requires forall u :: 0 <= u < |s.fate| ==> FateOk(u, s.fate[u], s.workers)
    ensures var s' := StealStep(s, w, v, true); forall u :: 0 <= u < |s'.fate| ==> FateOk(u, s'.fate[u], s'.workers)
  {
    var s' := StealStep(s, w, v, true);
    forall u | 0 <= u < |s'.fate| ensures FateOk(u, s'.fate[u], s'.workers) {
      assert FateOk(u, s.fate[u], s.workers);
    }
  }

  lemma StolenWorker(s: State, w: nat, v: nat, u: nat)
    requires w < |s.workers| && v < |s.workers| && v != w && u < |s.workers|
    requires s.workers[w].place == Stealing(v) && s.workers[v].local != []
    requires WorkerOk(u, s.workers[u], s.fate) && WorkerOk(v, s.workers[v], s.fate)
    ensures WorkerOk(u, StealStep(s, w, v, true).workers[u], StealStep(s, w, v, true).fate)
  {
    var y, t := s.workers[v], s.workers[v].local[0];
    assert s.fate[t] == InLocal(v);
    if u == v {
      StolenVictim(y.local, Chain(y.place));
    } else {
      OtherWorker(u, s.workers[u], s.fate, t, InHand(w), v);
      assert s.workers[w].local + [] == s.workers[w].local;
    }
  }

  lemma StolenVictim(local: seq<Ticket>, chain: seq<Ticket>)
    requires local != [] && Increasing(local + chain)
    ensures Increasing(local[1..] + chain) && local[0] !in local[1..]
    ensures forall u :: u in local && u != local[0] ==> u in local[1..]
  {
    var all, rest := local + chain, local[1..] + chain;
    assert forall i :: 0 <= i < |local| ==> local[i] == all[i];
    assert forall i :: 0 <= i < |rest| ==> rest[i] == all[i + 1];
    InitLast(local);
  }

  lemma EnqueueKeeps(s: State, w: nat)
    requires Inv(s)
    ensures Inv(Step(s, Enqueue(w)))
  {
    var s' := Step(s, Enqueue(w));
    if w < |s.workers| && !s.workers[w].closed {
      EnqueuePlaces(s.workers, s.fate, w);
      hide Placed;
    }
  }

  lemma EnqueuePlaces(ws: seq<Worker>, fate: seq<Fate>, w: nat)
    requires Placed(ws, fate) && w < |ws|
    ensures Placed(ws[w := ws[w].(ingress := ws[w].ingress + [|fate|])], fate + [InIngress(w)])
  {
    var ws', fate' := ws[w := ws[w].(ingress := ws[w].ingress + [|fate|])], fate + [InIngress(w)];
    assert WorkerOk(w, ws[w], fate);
    forall v | 0 <= v < |ws'| ensures WorkerOk(v, ws'[v], fate') {
      assert WorkerOk(v, ws[v], fate);
      hide WorkerOk;
      EnqueueWorker(v, ws[v], fate, w);
    }
    hide WorkerOk;
    forall u | 0 <= u < |fate'| ensures FateOk(u, fate'[u], ws') {
      if u < |fate| { assert FateOk(u, fate[u], ws); }
      else { assert ws'[w].ingress[|ws[w].ingress|] == u; }
    }
  }

  lemma EnqueueWorker(v: nat, x: Worker, fate: seq<Fate>, w: nat)
    requires WorkerOk(v, x, fate)
    ensures WorkerOk(v, x, fate + [InIngress(w)])
    ensures WorkerOk(w, x, fate) ==> WorkerOk(w, x.(ingress := x.ingress + [|fate|]), fate + [InIngress(w)])
  {
  }

  lemma ExecutingKeeps(s: State, w: nat, lucky: bool)
    requires Inv(s) && w < |s.workers| && s.workers[w].place.Executing?
    ensures Inv(WorkStep(s, w, lucky))
  {
    var x := s.workers[w];
    assert WorkerOk(w, x, s.fate);
    assert x.local + [] == x.local;
    Moved(s, w, WorkStep(s, w, lucky).workers[w], x.place.t, Completed);
  }

  lemma WorkKeeps(s: State, w: nat, lucky: bool)
    requires Inv(s) && w < |s.workers|
    ensures Inv(WorkStep(s, w, lucky))
  {
    var x := s.workers[w];
    assert WorkerOk(w, x, s.fate);
    assert x.local + [] == x.local;
    match x.place
    case PopFirst => PopKeeps(s, w, Drain);
    case PopSecond => PopKeeps(s, w, Stealing(0));
    case Drain => DrainKeeps(s, w, lucky);
    case Transfer(_, _) => TransferKeeps(s, w);
    case Stealing(_) => StealKeeps(s, w, lucky);
    case Executing(_) => ExecutingKeeps(s, w, lucky);
    case Exited =>
    case _ => Kept(s, w, WorkStep(s, w, lucky).workers[w]);
  }

  lemma StepKeeps(s: State, a: Action)
    requires Inv(s)
    ensures Inv(Step(s, a))
  {
    hide WorkStep, Placed;
    match a
    case Enqueue(w) => EnqueueKeeps(s, w);
    case StopRunning =>
    case Close(w) => CloseKeeps(s, w);
    case Work(w, lucky) => if w < |s.workers| { WorkKeeps(s, w, lucky); }
  }

  lemma CloseKeeps(s: State, w: nat)
    requires Inv(s)
    ensures Inv(Step(s, Close(w)))
  {
    if w < |s.workers| {
      assert WorkerOk(w, s.workers[w], s.fate);
      hide Placed;
      Kept(s, w, s.workers[w].(closed := true));
    }
  }

  lemma {:induction false} Always(n: nat, acts: seq<Action>)
    ensures Inv(Run(n, acts)) && |Run(n, acts).workers| == n
  {
    if acts != [] {
      Always(n, acts[..|acts| - 1]);
      StepKeeps(Run(n, acts[..|acts| - 1]), acts[|acts| - 1]);
      SameWorkers(Run(n, acts[..|acts| - 1]), acts[|acts| - 1]);
      hide Inv, Step;
    } else {
      hide FateOk;
    }
  }

  lemma SameWorkers(s: State, a: Action)
    ensures |Step(s, a).workers| == |s.workers|
  {
  }

  // The results.

  function LoadOf(x: Worker): nat {
    |x.ingress| + |Chain(x.place)| + |x.local| + (if x.place.Executing? then 1 else 0)
  }

  /** The number of tasks in all ingress queues, chains, local deques and hands. */
  function Load(ws: seq<Worker>): nat {
    if ws == [] then 0 else Load(ws[..|ws| - 1]) + LoadOf(ws[|ws| - 1])
  }

  lemma {:induction false} LoadUpdate(ws: seq<Worker>, w: nat, x: Worker)
    requires w < |ws|
    ensures Load(ws[w := x]) + LoadOf(ws[w]) == Load(ws) + LoadOf(x)
  {
    hide LoadOf;
    var n := |ws| - 1;
    if w == n {
      assert ws[w := x][..n] == ws[..n];
    } else {
      assert ws[w := x][..n] == ws[..n][w := x];
      LoadUpdate(ws[..n], w, x);
    }
  }

  /** The accepted tasks that are neither waiting, in hand, completed nor lost: always zero. */
  function Missing(s: State): int {
    |s.fate| - Load(s.workers) - s.completed - s.lost
  }

  lemma WorkMisses(s: State, w: nat, lucky: bool)
    requires Inv(s) && w < |s.workers|
    ensures Missing(WorkStep(s, w, lucky)) == Missing(s)
  {
    assert WorkerOk(w, s.workers[w], s.fate);
    hide Inv, Load, WorkerOk;
    var x := s.workers[w];
    if x.place.Stealing? && x.place.victim < |s.workers| && x.place.victim != w
       && s.workers[x.place.victim].local != [] && lucky {
      StealMisses(s, w);
    } else {
      assert x.place.Drain? ==> x.local == [];
      OwnUpdate(s, w, lucky);
      hide WorkStep;
      LoadUpdate(s.workers, w, WorkStep(s, w, lucky).workers[w]);
    }
  }

  lemma StealMisses(s: State, w: nat)
    requires w < |s.workers| && s.workers[w].place.Stealing?
    requires var v := s.workers[w].place.victim; v < |s.workers| && v != w && s.workers[v].local != []
    ensures Missing(WorkStep(s, w, true)) == Missing(s)
  {
    hide Load;
    var s', v := WorkStep(s, w, true), s.workers[w].place.victim;
    var y := s.workers[v].(local := s.workers[v].local[1..]);
    LoadUpdate(s.workers, v, y);
    LoadUpdate(s.workers[v := y], w, s'.workers[w]);
    assert s'.workers == s.workers[v := y][w := s'.workers[w]];
  }

  /** The step changes worker `w` only, and what it lets go of is counted as completed or lost. */
  predicate Balanced(s: State, s': State, w: nat) {
    && w < |s.workers| && |s'.fate| == |s.fate| && |s'.workers| == |s.workers|
    && s'.workers == s.workers[w := s'.workers[w]]
    && LoadOf(s'.workers[w]) + s'.completed + s'.lost == LoadOf(s.workers[w]) + s.completed + s.lost
  }

  lemma PopBalances(s: State, w: nat, otherwise: Place)
    requires w < |s.workers| && Chain(s.workers[w].place) == [] && !s.workers[w].place.Executing?
    requires Chain(otherwise) == [] && !otherwise.Executing?
    ensures Balanced(s, PopStep(s, w, otherwise), w)
  {
  }

  lemma TransferBalances(s: State, w: nat)
    requires w < |s.workers| && s.workers[w].place.Transfer?
    ensures Balanced(s, TransferStep(s, w, s.workers[w].place.chain, s.workers[w].place.batch), w)
  {
  }

  lemma OwnUpdate(s: State, w: nat, lucky: bool)
    requires w < |s.workers|
    requires
      var x := s.workers[w];
      !(x.place.Stealing? && x.place.victim < |s.workers| && x.place.victim != w
        && s.workers[x.place.victim].local != [] && lucky)
    requires s.workers[w].place.Drain? ==> s.workers[w].local == []
    ensures Balanced(s, WorkStep(s, w, lucky), w)
  {
    hide PopStep, TransferStep;
    match s.workers[w].place
    case PopFirst => PopBalances(s, w, Drain);
    case PopSecond => PopBalances(s, w, Stealing(0));
    case Transfer(_, _) => TransferBalances(s, w);
    case _ =>
  }

  lemma StepMisses(s: State, a: Action)
    requires Inv(s)
    ensures Missing(Step(s, a)) == Missing(s)
  {
    hide Inv;
    match a
    case Work(w, lucky) => if w < |s.workers| { hide WorkStep, Load; WorkMisses(s, w, lucky); }
    case Enqueue(w) =>
      if w < |s.workers| { LoadUpdate(s.workers, w, s.workers[w].(ingress := s.workers[w].ingress + [|s.fate|])); }
    case Close(w) => if w < |s.workers| { LoadUpdate(s.workers, w, s.workers[w].(closed := true)); }
    case StopRunning =>
  }

  lemma {:induction false} LoadAtStart(n: nat)
    ensures Load(Init(n).workers) == 0
  {
    if n > 0 {
      LoadAtStart(n - 1);
      assert Init(n).workers[..n - 1] == Init(n - 1).workers;
    }
  }

  /** In every reachable state each accepted task is waiting, in hand, completed or lost:
      accepted = ingress + chains + local + in hand + completed + lost. */
  lemma {:induction false} Conservation(n: nat, acts: seq<Action>)
    ensures
      var s := Run(n, acts);
      |s.fate| == Load(s.workers) + s.completed + s.lost
  {
    if acts == [] {
      LoadAtStart(n);
    } else {
      var before := acts[..|acts| - 1];
      Conservation(n, before);
      Always(n, before);
      hide Inv, Step;
      StepMisses(Run(n, before), acts[|acts| - 1]);
    }
  }

  predicate Holds(x: Worker, t: Ticket) {
    t in x.ingress || t in Chain(x.place) || t in x.local || x.place == Executing(t)
  }

  /** No task is held by two workers, and a task is held by some worker unless it is completed or lost. */
  lemma HeldByOne(n: nat, acts: seq<Action>, t: Ticket)
    ensures
      var s := Run(n, acts);
      t < |s.fate| ==>
        && (forall v, w :: 0 <= v < |s.workers| && 0 <= w < |s.workers| ==>
              Holds(s.workers[v], t) && Holds(s.workers[w], t) ==> v == w)
        && ((exists w :: 0 <= w < |s.workers| && Holds(s.workers[w], t)) <==> !s.fate[t].Completed? && !s.fate[t].Lost?)
  {
    Always(n, acts);
    var s := Run(n, acts);
    if t < |s.fate| {
      assert FateOk(t, s.fate[t], s.workers);
      forall w | 0 <= w < |s.workers| && Holds(s.workers[w], t)
        ensures Holder(s.fate[t]) == Some(w)
      {
        assert WorkerOk(w, s.workers[w], s.fate);
      }
      if Holder(s.fate[t]).Some? { assert Holds(s.workers[Holder(s.fate[t]).value], t); }
    }
  }

  // The ignored result of the local push.

  /** Every list drained in the run fits into a local deque. */
  predicate SmallBatches(n: nat, acts: seq<Action>) {
    acts == [] ||
    (var before, a := acts[..|acts| - 1], acts[|acts| - 1];
     var s := Run(n, before);
     && SmallBatches(n, before)
     && (a.Work? && a.w < |s.workers| && s.workers[a.w].place.Drain? ==> |s.workers[a.w].ingress| <= CAPACITY))
  }

  ghost predicate NothingLost(s: State) {
    && s.lost == 0
    && (forall t :: 0 <= t < |s.fate| ==> !s.fate[t].Lost?)
    && (forall w :: 0 <= w < |s.workers| && s.workers[w].place.Transfer? ==> s.workers[w].place.batch <= CAPACITY)
  }

  /** Nothing is lost by the step, and only a drain starts a transfer. */
  predicate Harmless(s: State, s': State) {
    && s'.lost == s.lost && |s'.workers| == |s.workers|
    && (forall t :: 0 <= t < |s'.fate| && s'.fate[t].Lost? ==> t < |s.fate| && s.fate[t].Lost?)
    && (forall v :: 0 <= v < |s.workers| && s'.workers[v].place.Transfer? ==>
          (s.workers[v].place.Transfer? && s'.workers[v].place.batch == s.workers[v].place.batch) ||
          (s.workers[v].place.Drain? && s'.workers[v].place.batch == |s.workers[v].ingress|))
  }

  lemma PopIsHarmless(s: State, w: nat, otherwise: Place)
    requires w < |s.workers| && !otherwise.Transfer?
    ensures Harmless(s, PopStep(s, w, otherwise))
  {
  }

  lemma TransferIsHarmless(s: State, w: nat)
    requires w < |s.workers| && s.workers[w].place.Transfer?
    requires s.workers[w].place.chain != [] ==> |s.workers[w].local| < CAPACITY
    ensures Harmless(s, TransferStep(s, w, s.workers[w].place.chain, s.workers[w].place.batch))
  {
  }

  lemma StealIsHarmless(s: State, w: nat, lucky: bool)
    requires w < |s.workers| && s.workers[w].place.Stealing?
    ensures Harmless(s, StealStep(s, w, s.workers[w].place.victim, lucky))
  {
  }

  lemma WorkIsHarmless(s: State, w: nat, lucky: bool)
    requires w < |s.workers|
    requires s.workers[w].place.Transfer? && s.workers[w].place.chain != [] ==> |s.workers[w].local| < CAPACITY
    ensures Harmless(s, WorkStep(s, w, lucky))
  {
    hide PopStep, TransferStep, StealStep;
    match s.workers[w].place
    case PopFirst => PopIsHarmless(s, w, Drain);
    case PopSecond => PopIsHarmless(s, w, Stealing(0));
    case Transfer(_, _) => TransferIsHarmless(s, w);
    case Stealing(_) => StealIsHarmless(s, w, lucky);
    case _ =>
  }

  lemma NothingLostStep(s: State, a: Action)
    requires Inv(s) && NothingLost(s)
    requires a.Work? && a.w < |s.workers| && s.workers[a.w].place.Drain? ==> |s.workers[a.w].ingress| <= CAPACITY
    ensures NothingLost(Step(s, a))
  {
    if a.Work? && a.w < |s.workers| {
      assert WorkerOk(a.w, s.workers[a.w], s.fate);
      hide Inv, WorkStep;
      WorkIsHarmless(s, a.w, a.lucky);
      var s' := Step(s, a);
      forall v | 0 <= v < |s'.workers| && s'.workers[v].place.Transfer? ensures s'.workers[v].place.batch <= CAPACITY {
        if v != a.w { OthersStay(s, a.w, a.lucky, v); }
      }
    }
    hide Inv, WorkStep;
  }

  lemma OthersStay(s: State, w: nat, lucky: bool, v: nat)
    requires w < |s.workers| && v < |s.workers| && v != w
    ensures |WorkStep(s, w, lucky).workers| == |s.workers|
    ensures WorkStep(s, w, lucky).workers[v].place == s.workers[v].place
  {
  }

  /** No task is ever lost to a full local deque when every drained list has at most CAPACITY tasks,
      however the thieves interfere. */
  lemma {:induction false} SmallBatchesLoseNothing(n: nat, acts: seq<Action>)
    requires SmallBatches(n, acts)
    ensures NothingLost(Run(n, acts))
  {
    if acts != [] {
      var before := acts[..|acts| - 1];
      SmallBatchesLoseNothing(n, before);
      Always(n, before);
      hide Inv, Step, NothingLost;
      NothingLostStep(Run(n, before), acts[|acts| - 1]);
    }
  }

  function WorkTimes(s: State, w: nat, k: nat): State
    requires w < |s.workers|
    ensures |WorkTimes(s, w, k).workers| == |s.workers|
  {
    if k == 0 then s else Step(WorkTimes(s, w, k - 1), Work(w, false))
  }

  function Least(a: nat, b: nat): nat { if a < b then a else b }

  lemma {:induction false} TransferAlone(s: State, w: nat, k: nat)
    requires Inv(s) && w < |s.workers| && s.workers[w].place.Transfer? && s.workers[w].local == []
    requires k <= |s.workers[w].place.chain|
    ensures
      var chain := s.workers[w].place.chain;
      var s' := WorkTimes(s, w, k);
      && s'.workers == s.workers[w := s.workers[w].(local := chain[..Least(k, CAPACITY)],
                                                    place := Transfer(chain[k..], s.workers[w].place.batch))]
      && s'.lost == s.lost + k - Least(k, CAPACITY)
  {
    var chain := s.workers[w].place.chain;
    if k > 0 {
      hide Inv, Step;
      TransferAlone(s, w, k - 1);
      assert WorkTimes(s, w, k) == Step(WorkTimes(s, w, k - 1), Work(w, false));
      hide WorkTimes;
      TransferOne(WorkTimes(s, w, k - 1), w, chain, k, s.workers[w].place.batch);
    }
  }

  lemma TransferOne(s: State, w: nat, chain: seq<Ticket>, k: nat, batch: nat)
    requires w < |s.workers| && 0 < k <= |chain|
    requires s.workers[w].place == Transfer(chain[k - 1..], batch)
    requires s.workers[w].local == chain[..Least(k - 1, CAPACITY)]
    ensures
      var s' := Step(s, Work(w, false));
      && s'.workers == s.workers[w := s.workers[w].(local := chain[..Least(k, CAPACITY)],
                                                    place := Transfer(chain[k..], batch))]
      && s'.lost == s.lost + (k - Least(k, CAPACITY)) - (k - 1 - Least(k - 1, CAPACITY))
  {
    hide PopStep, StealStep, Drained;
    assert chain[k - 1..][1..] == chain[k..];
    if k <= CAPACITY {
      assert chain[..k - 1] + [chain[k - 1]] == chain[..k];
    }
  }

  /** Without thieves, transferring a drained list keeps its first CAPACITY tasks and loses exactly the
      rest: something is lost if and only if the list is longer than CAPACITY. */
  lemma TransferLosesTheRest(s: State, w: nat)
    requires Inv(s) && w < |s.workers| && s.workers[w].place.Transfer? && s.workers[w].local == []
    ensures
      var chain := s.workers[w].place.chain;
      var s' := WorkTimes(s, w, |chain|);
      && s'.workers[w].local == chain[..Least(|chain|, CAPACITY)] && Chain(s'.workers[w].place) == []
      && (s'.lost > s.lost <==> |chain| > CAPACITY)
      && s'.lost - s.lost == if |chain| > CAPACITY then |chain| - CAPACITY else 0
  {
    TransferAlone(s, w, |s.workers[w].place.chain|);
  }

  // What becomes of a drained list, whatever the other threads do.

  predicate IsLost(s: State, t: Ticket) {
    t < |s.fate| && s.fate[t].Lost?
  }

  /** The task has left its ingress queue, and the list it came in fits into a local deque. */
  predicate Safe(s: State, t: Ticket) {
    && t < |s.fate| && !s.fate[t].InIngress? && !s.fate[t].Lost?
    && (s.fate[t].InChain? ==>
          var w := s.fate[t].w; w < |s.workers| && s.workers[w].place.Transfer? && s.workers[w].place.batch <= CAPACITY)
  }

  lemma PopKeepsSafe(s: State, w: nat, otherwise: Place, t: Ticket)
    requires w < |s.workers| && Safe(s, t) && !s.workers[w].place.Transfer?
    ensures Safe(PopStep(s, w, otherwise), t)
  {
  }

  lemma TransferKeepsSafe(s: State, w: nat, t: Ticket)
    requires w < |s.workers| && Safe(s, t) && s.workers[w].place.Transfer?
    requires var p := s.workers[w].place; |s.workers[w].local| + |p.chain| <= p.batch
    requires forall u :: u in s.workers[w].place.chain ==> u < |s.fate| && s.fate[u] == InChain(w)
    requires s.fate[t] == InChain(w) ==> s.workers[w].place.chain != []
    ensures Safe(TransferStep(s, w, s.workers[w].place.chain, s.workers[w].place.batch), t)
  {
  }

  lemma StealKeepsSafe(s: State, w: nat, lucky: bool, t: Ticket)
    requires w < |s.workers| && Safe(s, t) && s.workers[w].place.Stealing?
    ensures Safe(StealStep(s, w, s.workers[w].place.victim, lucky), t)
  {
  }

  lemma WorkKeepsSafe(s: State, w: nat, lucky: bool, t: Ticket)
    requires Inv(s) && w < |s.workers| && Safe(s, t)
    ensures Safe(WorkStep(s, w, lucky), t)
  {
    assert WorkerOk(w, s.workers[w], s.fate) && FateOk(t, s.fate[t], s.workers);
    hide Inv, PopStep, TransferStep, StealStep;
    match s.workers[w].place
    case PopFirst => PopKeepsSafe(s, w, Drain, t);
    case PopSecond => PopKeepsSafe(s, w, Stealing(0), t);
    case Transfer(_, _) => TransferKeepsSafe(s, w, t);
    case Stealing(_) => StealKeepsSafe(s, w, lucky, t);
    case _ =>
  }

  lemma SafeStays(s: State, a: Action, t: Ticket)
    requires Inv(s) && Safe(s, t)
    ensures Safe(Step(s, a), t)
  {
    if a.Work? && a.w < |s.workers| {
      WorkKeepsSafe(s, a.w, a.lucky, t);
    }
    hide Inv, WorkStep;
  }

  lemma {:induction false} SafeFromThen(n: nat, acts: seq<Action>, more: seq<Action>, t: Ticket)
    requires Safe(Run(n, acts), t)
    ensures Safe(Run(n, acts + more), t)
    decreases |more|
  {
    hide *;
    if more == [] {
      assert acts + more == acts;
    } else {
      var fewer, a := more[..|more| - 1], more[|more| - 1];
      SafeFromThen(n, acts, fewer, t);
      Always(n, acts + fewer);
      SafeStays(Run(n, acts + fewer), a, t);
      RunSnoc(n, acts + fewer, a);
      assert acts + fewer + [a] == acts + more;
    }
  }

  /** A drain of worker `w` makes its ingress queue the list to transfer; the deque is empty then. */
  lemma DrainTakes(s: State, w: nat, lucky: bool)
    requires Inv(s) && w < |s.workers| && s.workers[w].place.Drain?
    ensures var batch := s.workers[w].ingress;
            var s' := WorkStep(s, w, lucky);
            && |s'.workers| == |s.workers| && s'.workers[w].local == []
            && s'.workers[w].place == Transfer(batch, |batch|)
            && forall t :: t in batch ==> t < |s'.fate| && s'.fate[t] == InChain(w)
  {
    assert WorkerOk(w, s.workers[w], s.fate);
    hide Inv;
  }

  function Works(w: nat, k: nat): (acts: seq<Action>)
    ensures |acts| == k
  {
    seq(k, _ => Work(w, false))
  }

  lemma {:induction false} RunWorks(n: nat, acts: seq<Action>, w: nat, k: nat)
    requires w < |Run(n, acts).workers|
    ensures Run(n, acts + Works(w, k)) == WorkTimes(Run(n, acts), w, k)
  {
    if k == 0 {
      assert acts + Works(w, 0) == acts;
    } else {
      hide Run, Step;
      RunWorks(n, acts, w, k - 1);
      RunSnoc(n, acts + Works(w, k - 1), Work(w, false));
      assert acts + Works(w, k - 1) + [Work(w, false)] == acts + Works(w, k);
    }
  }

  /** Undisturbed, the push after CAPACITY successful ones loses its task. */
  lemma FirstTooMany(s: State, w: nat)
    requires Inv(s) && w < |s.workers| && s.workers[w].place.Transfer? && s.workers[w].local == []
    requires |s.workers[w].place.chain| > CAPACITY
    ensures IsLost(WorkTimes(s, w, CAPACITY + 1), s.workers[w].place.chain[CAPACITY])
  {
    var chain := s.workers[w].place.chain;
    var full := WorkTimes(s, w, CAPACITY);
    TransferAlone(s, w, CAPACITY);
    WorksKeepInv(s, w, CAPACITY);
    assert full.workers[w].place == Transfer(chain[CAPACITY..], s.workers[w].place.batch);
    assert full.workers[w].local == chain[..CAPACITY];
    assert WorkTimes(s, w, CAPACITY + 1) == Step(full, Work(w, false));
    hide WorkTimes;
    FullLoses(full, w);
  }

  lemma FullLoses(s: State, w: nat)
    requires Inv(s) && w < |s.workers| && s.workers[w].place.Transfer? && s.workers[w].place.chain != []
    requires |s.workers[w].local| >= CAPACITY
    ensures IsLost(Step(s, Work(w, false)), s.workers[w].place.chain[0])
  {
    assert WorkerOk(w, s.workers[w], s.fate);
    hide Inv;
  }

  lemma {:induction false} WorksKeepInv(s: State, w: nat, k: nat)
    requires Inv(s) && w < |s.workers|
    ensures Inv(WorkTimes(s, w, k))
  {
    if k > 0 {
      hide Inv, Step;
      WorksKeepInv(s, w, k - 1);
      StepKeeps(WorkTimes(s, w, k - 1), Work(w, false));
    }
  }

  /** When a worker drains its ingress queue, every continuation of the run, whatever the other threads do,
      keeps all the tasks of the list, if and only if the list has at most CAPACITY tasks. */
  lemma BatchKeptIffItFits(n: nat, acts: seq<Action>, w: nat, lucky: bool)
    requires w < |Run(n, acts).workers| && Run(n, acts).workers[w].place.Drain?
    ensures var batch := Run(n, acts).workers[w].ingress;
            (forall more: seq<Action>, t :: t in batch ==> !IsLost(Run(n, acts + [Work(w, lucky)] + more), t))
            <==> |batch| <= CAPACITY
  {
    hide Run, Inv, WorkStep, WorkTimes, Works;
    var s := Run(n, acts);
    var drained := acts + [Work(w, lucky)];
    var batch := s.workers[w].ingress;
    Always(n, acts);
    Always(n, drained);
    RunSnoc(n, acts, Work(w, lucky));
    DrainTakes(s, w, lucky);
    if |batch| <= CAPACITY {
      forall more: seq<Action>, t | t in batch
        ensures !IsLost(Run(n, drained + more), t)
      {
        SafeFromThen(n, drained, more, t);
      }
    } else {
      FirstTooMany(Run(n, drained), w);
      RunWorks(n, drained, w, CAPACITY + 1);
      var last := batch[CAPACITY];
      assert last in batch && IsLost(Run(n, drained + Works(w, CAPACITY + 1)), last);
    }
  }

  function Enqueues(k: nat): (acts: seq<Action>)
    ensures |acts| == k
  {
    seq(k, _ => Enqueue(0))
  }

  /** The only worker before it looks for work, with `k` tasks in its ingress queue. */
  ghost predicate Waiting(s: State, k: nat) {
    && |s.workers| == 1 && s.running && s.lost == 0
    && s.workers[0].place.Looking? && !s.workers[0].closed
    && s.workers[0].local == [] && |s.workers[0].ingress| == k
  }

  lemma {:induction false} ManyWait(k: nat)
    ensures Waiting(Run(1, Enqueues(k)), k)
  {
    if k == 0 {
      assert Enqueues(0) == [];
    } else {
      ManyWait(k - 1);
      RunSnoc(1, Enqueues(k - 1), Enqueue(0));
      assert Enqueues(k - 1) + [Enqueue(0)] == Enqueues(k);
      hide Run, Enqueues;
    }
  }

  lemma LooksAndPops(s: State, k: nat)
    requires Waiting(s, k)
    ensures var s' := Step(Step(s, Work(0, false)), Work(0, false));
            |s'.workers| == 1 && s'.lost == 0 && s'.workers[0].place.Drain? && |s'.workers[0].ingress| == k
  {
  }

  /** One task more than the deque holds, enqueued before the worker looks for work: one is lost. */
  lemma LongListLosesOne() returns (acts: seq<Action>)
    ensures Run(1, acts).lost == 1
  {
    var work := Work(0, false);
    hide Run, Inv, WorkTimes, Step, Works, Enqueues;
    var waiting := Enqueues(CAPACITY + 1);
    ManyWait(CAPACITY + 1);
    RunSnoc(1, waiting, work);
    RunSnoc(1, waiting + [work], work);
    LooksAndPops(Run(1, waiting), CAPACITY + 1);
    var looked := waiting + [work] + [work];
    Always(1, looked);
    DrainTakes(Run(1, looked), 0, false);
    RunSnoc(1, looked, work);
    var drained := looked + [work];
    StepWorks(Run(1, looked));
    Always(1, drained);
    TransferLosesTheRest(Run(1, drained), 0);
    RunWorks(1, drained, 0, CAPACITY + 1);
    acts := drained + Works(0, CAPACITY + 1);
  }

  lemma StepWorks(s: State)
    requires |s.workers| > 0 && s.workers[0].place.Drain?
    ensures Step(s, Work(0, false)) == WorkStep(s, 0, false) && WorkStep(s, 0, false).lost == s.lost
  {
  }

  // Leaving `run_worker`.

  /** When every worker has left, the accepted tasks that were never run are exactly those still in an
      ingress queue, and those lost in a transfer. */
  lemma OnlyIngressIsLeft(n: nat, acts: seq<Action>, t: Ticket)
    ensures
      var s := Run(n, acts);
      t < |s.fate| && (forall w :: 0 <= w < |s.workers| ==> s.workers[w].place.Exited?) ==>
        ((exists w :: 0 <= w < |s.workers| && t in s.workers[w].ingress) <==> !s.fate[t].Completed? && !s.fate[t].Lost?)
  {
    hide Inv, Run, Holds;
    HeldByOne(n, acts, t);
    Always(n, acts);
    var s := Run(n, acts);
    if t < |s.fate| && (forall w :: 0 <= w < |s.workers| ==> s.workers[w].place.Exited?) {
      forall w | 0 <= w < |s.workers| ensures Holds(s.workers[w], t) <==> t in s.workers[w].ingress {
        ExitedHolds(s, w, t);
      }
    }
  }

  lemma ExitedHolds(s: State, w: nat, t: Ticket)
    requires Inv(s) && w < |s.workers| && s.workers[w].place.Exited?
    ensures Holds(s.workers[w], t) <==> t in s.workers[w].ingress
  {
    assert WorkerOk(w, s.workers[w], s.fate);
    hide Inv;
  }

  /** The step accepts task `t` for worker `w`. */
  predicate Accepts(s: State, a: Action, t: Ticket, w: nat) {
    a == Enqueue(w) && w < |s.workers| && !s.workers[w].closed && t == |s.fate|
  }

  /** The step is worker `w`'s exchange of its ingress queue. */
  predicate Exchanges(s: State, a: Action, w: nat) {
    a.Work? && a.w == w && w < |s.workers| && s.workers[w].place.Drain?
  }

  /** The task has been accepted for worker `w`, which has not drained its ingress queue since. */
  ghost predicate Undrained(n: nat, acts: seq<Action>, t: Ticket, w: nat) {
    exists k: nat :: k < |acts| && AcceptedAndKept(n, acts, k, t, w)
  }

  ghost predicate AcceptedAndKept(n: nat, acts: seq<Action>, k: nat, t: Ticket, w: nat)
    requires k < |acts|
  {
    && Accepts(Run(n, acts[..k]), acts[k], t, w)
    && forall j: nat :: k < j < |acts| ==> !Exchanges(Run(n, acts[..j]), acts[j], w)
  }

  lemma UndrainedSnoc(n: nat, acts: seq<Action>, t: Ticket, w: nat)
    requires acts != []
    ensures var before, a := acts[..|acts| - 1], acts[|acts| - 1];
            Undrained(n, acts, t, w) ==
            (Accepts(Run(n, before), a, t, w) || (Undrained(n, before, t, w) && !Exchanges(Run(n, before), a, w)))
  {
    hide Run, Accepts, Exchanges;
    var m := |acts| - 1;
    var before := acts[..m];
    forall k: nat | k < m
      ensures AcceptedAndKept(n, acts, k, t, w) ==
              (AcceptedAndKept(n, before, k, t, w) && !Exchanges(Run(n, before), acts[m], w))
    {
      assert forall j: nat :: j < m ==> before[..j] == acts[..j] && before[j] == acts[j];
      assert acts[..m] == before;
    }
    assert AcceptedAndKept(n, acts, m, t, w) == Accepts(Run(n, before), acts[m], t, w);
  }

  lemma StepIngress(s: State, a: Action, t: Ticket, w: nat)
    requires w < |s.workers|
    ensures |Step(s, a).workers| == |s.workers|
    ensures t in Step(s, a).workers[w].ingress <==>
              Accepts(s, a, t, w) || (t in s.workers[w].ingress && !Exchanges(s, a, w))
  {
    SameWorkers(s, a);
    hide PopStep, TransferStep, StealStep, Drained;
    if a.Work? && a.w < |s.workers| {
      WorkIngress(s, a.w, a.lucky, w);
    }
  }

  lemma WorkIngress(s: State, v: nat, lucky: bool, w: nat)
    requires v < |s.workers| && w < |s.workers|
    ensures |WorkStep(s, v, lucky).workers| == |s.workers|
    ensures WorkStep(s, v, lucky).workers[w].ingress ==
              if v == w && s.workers[w].place.Drain? then [] else s.workers[w].ingress
  {
    hide Drained;
  }

  /** A task is in the ingress queue of a worker if and only if it has been accepted for that worker and
      no drain of the worker has followed. */
  lemma {:induction false} InIngressIffUndrained(n: nat, acts: seq<Action>, t: Ticket, w: nat)
    requires w < n
    ensures |Run(n, acts).workers| == n
    ensures t in Run(n, acts).workers[w].ingress <==> Undrained(n, acts, t, w)
  {
    if acts != [] {
      hide Step, Undrained, Accepts, Exchanges;
      var before, a := acts[..|acts| - 1], acts[|acts| - 1];
      InIngressIffUndrained(n, before, t, w);
      StepIngress(Run(n, before), a, t, w);
      UndrainedSnoc(n, acts, t, w);
    }
  }

  /** An enqueue for a worker is accepted, and goes last into its ingress queue, if and only if `stop` has not
      closed that queue; whatever else the run holds, it is refused without a change otherwise. */
  lemma AcceptedIffOpen(n: nat, acts: seq<Action>, w: nat)
    requires w < n
    ensures var s, t := Run(n, acts), Run(n, acts + [Enqueue(w)]);
            && |s.workers| == |t.workers| == n
            && if Close(w) in acts then t == s
               else |t.fate| == |s.fate| + 1 && t.workers[w].ingress == s.workers[w].ingress + [|s.fate|]
  {
    assert (acts + [Enqueue(w)])[..|acts|] == acts;
    ClosedIff(n, acts, w);
    hide Run;
  }

  lemma {:induction false} ClosedIff(n: nat, acts: seq<Action>, w: nat)
    requires w < n
    ensures |Run(n, acts).workers| == n && (Run(n, acts).workers[w].closed <==> Close(w) in acts)
  {
    if acts != [] {
      hide Step;
      var before, a := acts[..|acts| - 1], acts[|acts| - 1];
      assert before + [a] == acts;
      ClosedIff(n, before, w);
      ClosedStep(Run(n, before), a, w);
    }
  }

  lemma ClosedStep(s: State, a: Action, w: nat)
    requires w < |s.workers|
    ensures |Step(s, a).workers| == |s.workers|
    ensures Step(s, a).workers[w].closed <==> s.workers[w].closed || a == Close(w)
  {
    hide Drained;
  }

  /** When every worker has left, an accepted task has not been run, and is not lost in a transfer, if and
      only if no drain of its worker has followed its acceptance. */
  lemma LeftIffUndrained(n: nat, acts: seq<Action>, t: Ticket)
    requires t < |Run(n, acts).fate|
    requires forall w :: 0 <= w < |Run(n, acts).workers| ==> Run(n, acts).workers[w].place.Exited?
    ensures var f := Run(n, acts).fate[t];
            !f.Completed? && !f.Lost? <==> exists w: nat :: w < n && Undrained(n, acts, t, w)
  {
    hide Undrained, Step;
    Always(n, acts);
    OnlyIngressIsLeft(n, acts, t);
    hide Run, Inv;
    forall w: nat | w < n
      ensures t in Run(n, acts).workers[w].ingress <==> Undrained(n, acts, t, w)
    {
      InIngressIffUndrained(n, acts, t, w);
    }
  }

  lemma RunSnoc(n: nat, acts: seq<Action>, a: Action)
    ensures Run(n, acts + [a]) == Step(Run(n, acts), a) && Run(n, []) == Init(n)
  {
    assert (acts + [a])[..|acts|] == acts;
  }

  /** A worker does not drain its ingress queue on the way out: one accepted task, then `stop`, and the
      task is never run. */
  lemma StopLeavesAnAcceptedTask()
    ensures
      var s := Run(1, [Enqueue(0), StopRunning, Work(0, false)]);
      |s.fate| == 1 && s.workers[..] == [Worker([0], false, [], Exited)] && s.completed == 0
  {
    RunSnoc(1, [], Enqueue(0));
    RunSnoc(1, [Enqueue(0)], StopRunning);
    RunSnoc(1, [Enqueue(0), StopRunning], Work(0, false));
    assert [] + [Enqueue(0)] == [Enqueue(0)] && [Enqueue(0)] + [StopRunning] == [Enqueue(0), StopRunning];
    assert [Enqueue(0), StopRunning] + [Work(0, false)] == [Enqueue(0), StopRunning, Work(0, false)];
    hide Run;
    assert Init(1).workers == [Worker([], false, [], Looking)];
    var s1 := Step(Init(1), Enqueue(0));
    var none: seq<Ticket> := [];
    assert none + [0] == [0];
    assert s1.workers[0] == Worker(none + [0], false, [], Looking);
    assert s1.workers == [Worker([0], false, [], Looking)];
    var s2 := Step(s1, StopRunning);
    assert s2 == s1.(running := false);
    assert Step(s2, Work(0, false)).workers == [Worker([0], false, [], Exited)];
  }
}

/**
 The worker's code. Its accesses to the queues are single steps; `others` says what the other threads
 do before each of them. The record `state` stands for the fields of the scheduler and its workers;
 `place` in it is the worker's program counter.
*/
module RuntimeObject {
  import opened Wrappers
  import opened RuntimeMachine

  /** What threads other than worker `w` do. */
  predicate Foreign(acts: seq<Action>, w: nat) {
    forall i :: 0 <= i < |acts| ==> !(acts[i].Work? && acts[i].w == w)
  }

  lemma ForeignStep(s: State, a: Action, w: nat)
    requires w < |s.workers| && !(a.Work? && a.w == w)
    ensures |Step(s, a).workers| == |s.workers| && Step(s, a).workers[w].place == s.workers[w].place
  {
    if a.Work? && a.w < |s.workers| {
      OthersStay(s, a.w, a.lucky, w);
    }
  }

  class Scheduler {
    const n: nat
    var state: State
    ghost var trace: seq<Action>

    ghost predicate Valid()
      reads this
    {
      state == Run(n, trace) && |state.workers| == n
    }

    constructor (n: nat)
      ensures Valid() && this.n == n && trace == []
    {
      this.n, state, trace := n, Init(n), [];
      new;
      assert Run(n, []) == Init(n);
    }

    /** One step of the calling thread leads from the last state to this one. */
    ghost method Did(w: nat, lucky: bool, was: State)
      requires was == Run(n, trace) && w < |was.workers| && state == WorkStep(was, w, lucky)
      requires |was.workers| == n
      modifies `trace
      ensures Valid() && trace == old(trace) + [Work(w, lucky)]
    {
      RunSnoc(n, trace, Work(w, lucky));
      SameWorkers(was, Work(w, lucky));
      trace := trace + [Work(w, lucky)];
    }

    method Others(acts: seq<Action>, w: nat)
      requires Valid() && w < n && Foreign(acts, w)
      modifies this
      ensures Valid() && trace == old(trace) + acts
      ensures state.workers[w].place == old(state).workers[w].place
      ensures acts == [] ==> state == old(state)
    {
      hide Run, Step;
      for i := 0 to |acts|
        invariant Valid() && trace == old(trace) + acts[..i]
        invariant state.workers[w].place == old(state).workers[w].place
        invariant acts == [] ==> state == old(state)
      {
        ForeignStep(state, acts[i], w);
        RunSnoc(n, trace, acts[i]);
        state := Step(state, acts[i]);
        trace := trace + [acts[i]];
      }
    }

    /** The worker's own record, and perhaps the fate of a task, change. */
    method Move(w: nat, x: Worker)
      requires w < |state.workers|
      modifies `state
      ensures state == Put(old(state), w, x)
    {
      state := state.(workers := state.workers[w := x]);
    }

    /** `local.pop()`, on line 116 or 125: the newest task of the worker's deque. */
    method Pop(w: nat) returns (task: Option<Ticket>)
      requires Valid() && w < n && (state.workers[w].place.PopFirst? || state.workers[w].place.PopSecond?)
      modifies this
      ensures Valid() && trace == old(trace) + [Work(w, false)]
      ensures var x := old(state).workers[w];
              var last := |x.local| - 1;
              if x.local == [] then
                && task == None && state.fate == old(state).fate
                && state.workers ==
                     old(state).workers[w := x.(place := if x.place.PopFirst? then Drain else Stealing(0))]
              else
                && task == Some(x.local[last])
                && state.workers ==
                     old(state).workers[w := x.(local := x.local[..last], place := Executing(x.local[last]))]
                && |state.fate| == |old(state).fate|
                && (task.value < |state.fate| ==> state.fate == old(state).fate[task.value := InHand(w)])
      ensures state.(workers := old(state).workers, fate := old(state).fate) == old(state)
    {
      hide Run;
      var x := state.workers[w];
      var otherwise := if x.place.PopFirst? then Drain else Stealing(0);
      if x.local == [] {
        Move(w, x.(place := otherwise));
        task := None;
      } else {
        var last := |x.local| - 1;
        var t := x.local[last];
        Move(w, x.(local := x.local[..last], place := Executing(t)));
        state := state.(fate := Settle(state.fate, t, InHand(w)));
        task := Some(t);
      }
      Did(w, false, old(state));
    }

    /** `ingress.drain()`: the whole list, oldest first. */
    method DrainIngress(w: nat) returns (list: seq<Ticket>)
      requires Valid() && w < n && state.workers[w].place.Drain?
      modifies this
      ensures Valid() && trace == old(trace) + [Work(w, false)]
      ensures list == old(state).workers[w].ingress
      ensures state.workers ==
                old(state).workers[w := old(state).workers[w].(ingress := [], place := Transfer(list, |list|))]
      ensures state.(workers := old(state).workers, fate := old(state).fate) == old(state)
      ensures state.fate == Drained(old(state).fate, list, w)
    {
      hide Run;
      var x := state.workers[w];
      list := x.ingress;
      Move(w, x.(ingress := [], place := Transfer(list, |list|)));
      state := state.(fate := Drained(state.fate, list, w));
      Did(w, false, old(state));
    }

    /** `local.push(task)`, whose result is ignored: a full deque loses the task. */
    method PushLocal(w: nat, list: seq<Ticket>, batch: nat)
      requires Valid() && w < n && state.workers[w].place == Transfer(list, batch) && list != []
      modifies this
      ensures Valid() && trace == old(trace) + [Work(w, false)]
      ensures var x := old(state).workers[w];
              var fits := |x.local| < CAPACITY;
              && state.workers == old(state).workers[w := x.(local := if fits then x.local + [list[0]] else x.local,
                                                             place := Transfer(list[1..], batch))]
              && state.lost == old(state).lost + (if fits then 0 else 1)
              && |state.fate| == |old(state).fate|
              && (list[0] < |state.fate| ==>
                    state.fate == old(state).fate[list[0] := if fits then InLocal(w) else Lost(w)])
      ensures state.completed == old(state).completed && state.running == old(state).running
    {
      hide Run;
      var x := state.workers[w];
      if |x.local| < CAPACITY {
        Move(w, x.(local := x.local + [list[0]], place := Transfer(list[1..], batch)));
        state := state.(fate := Settle(state.fate, list[0], InLocal(w)));
      } else {
        Move(w, x.(place := Transfer(list[1..], batch)));
        state := state.(fate := Settle(state.fate, list[0], Lost(w)), lost := state.lost + 1);
      }
      Did(w, false, old(state));
    }

    /** The program counter moves on without an access. */
    method Advance(w: nat, place: Place)
      requires Valid() && w < n && WorkStep(state, w, false) == Put(state, w, state.workers[w].(place := place))
      modifies this
      ensures Valid() && trace == old(trace) + [Work(w, false)]
      ensures state == Put(old(state), w, old(state).workers[w].(place := place))
    {
      hide Run, WorkStep;
      Move(w, state.workers[w].(place := place));
      Did(w, false, old(state));
    }

    /** `candidate->local.steal()`; `lucky` says whether its compare-exchange succeeds. */
    method Steal(w: nat, v: nat, lucky: bool) returns (task: Option<Ticket>)
      requires Valid() && w < n && v < n && v != w && state.workers[w].place == Stealing(v)
      modifies this
      ensures Valid() && trace == old(trace) + [Work(w, lucky)]
      ensures task.Some? <==> old(state).workers[v].local != [] && lucky
      ensures var x, y := old(state).workers[w], old(state).workers[v];
              if task.Some? then
                && task.value == y.local[0]
                && state.workers ==
                     old(state).workers[v := y.(local := y.local[1..])][w := x.(place := Executing(y.local[0]))]
              else state.workers == old(state).workers[w := x.(place := Stealing(v + 1))]
    {
      hide Run;
      var x, y := state.workers[w], state.workers[v];
      if y.local == [] || !lucky {
        Move(w, x.(place := Stealing(v + 1)));
        task := None;
      } else {
        var t := y.local[0];
        Move(v, y.(local := y.local[1..]));
        Move(w, x.(place := Executing(t)));
        state := state.(fate := Settle(state.fate, t, InHand(w)));
        task := Some(t);
      }
      Did(w, lucky, old(state));
    }

    /** `take_task`: the newest task of the worker's own deque; if there is none, the newest after its ingress
        queue has been moved there; if there is still none, the oldest of the first other deque that gives
        one. The other threads act before each access, and never twice by the same entry of `others`: `next`
        is the first unused one. `again` is the length of the run at the second pop, `tries[v]` that at the
        attempt to steal from worker `v`. */
    method TakeTask(w: nat, others: nat -> seq<Action>, lucky: nat -> bool, first: nat)
      returns (task: Option<Ticket>, next: nat, ghost again: nat, ghost tries: seq<nat>)
      requires Valid() && w < n && state.workers[w].place.PopFirst?
      requires forall k :: Foreign(others(k), w)
      modifies this
      ensures Valid() && old(trace) <= trace && next > first
      ensures state.workers[w].place == if task.Some? then Executing(task.value) else Polling
      ensures w < |Run(n, old(trace) + others(first)).workers|
      ensures var local := Run(n, old(trace) + others(first)).workers[w].local;
              if local != [] then Newest(task, local) && state.workers[w].local == local[..|local| - 1]
              else
                && again <= |trace| && w < |Run(n, trace[..again]).workers|
                && var local' := Run(n, trace[..again]).workers[w].local;
                   if local' != [] then Newest(task, local') && state.workers[w].local == local'[..|local'| - 1]
                   else Robbed(trace, w, tries, task)
      ensures (forall k :: others(k) == []) ==>
                var x := old(state).workers[w];
                var fits := Least(|x.ingress|, CAPACITY);
                if x.local != [] then Newest(task, x.local)
                else if fits > 0 then
                  task == Some(x.ingress[fits - 1]) && state.workers[w].local == x.ingress[..fits - 1]
                else (forall k :: lucky(k)) ==> RobsFirst(old(state), w, task)
    {
      hide Run, Step, Foreign, WorkStep, Robbed, RobsFirst;
      Others(others(first), w);
      next := first + 1;
      again, tries := 0, [];
      ghost var seen := state;
      var popped := Pop(w);
      task := popped;
      if task.None? {
        task, next, again, tries := TakeAgain(w, others, lucky, next);
        if forall k :: others(k) == [] {
          assert forall v: nat :: v < |seen.workers| && v != w ==> old(state).workers[v] == seen.workers[v];
          if (forall k :: lucky(k)) && old(state).workers[w].ingress == [] {
            RobsAlike(seen.(workers := seen.workers[w := seen.workers[w].(place := Drain)]), old(state), w, task);
          }
        }
      }
    }

    /** Lines 119 to 137, for a worker whose deque was empty. */
    method TakeAgain(w: nat, others: nat -> seq<Action>, lucky: nat -> bool, first: nat)
      returns (task: Option<Ticket>, next: nat, ghost again: nat, ghost tries: seq<nat>)
      requires Valid() && w < n && state.workers[w].place.Drain?
      requires forall k :: Foreign(others(k), w)
      modifies this
      ensures Valid() && old(trace) <= trace && next > first
      ensures state.workers[w].place == if task.Some? then Executing(task.value) else Polling
      ensures again <= |trace| && w < |Run(n, trace[..again]).workers|
      ensures var local := Run(n, trace[..again]).workers[w].local;
              if local != [] then Newest(task, local) && state.workers[w].local == local[..|local| - 1]
              else Robbed(trace, w, tries, task)
      ensures (forall k :: others(k) == []) && old(state).workers[w].local == [] ==>
                var list := old(state).workers[w].ingress;
                var fits := Least(|list|, CAPACITY);
                if fits > 0 then task == Some(list[fits - 1]) && state.workers[w].local == list[..fits - 1]
                else (forall k :: lucky(k)) ==> RobsFirst(old(state), w, task)
    {
      hide Run, Step, Foreign, WorkStep, Robbed, RobsFirst;
      next := Refill(w, others, first);
      Others(others(next), w);
      next := next + 1;
      again, tries := |trace|, [];
      ghost var refilled := trace;
      ghost var list, fits := old(state).workers[w].ingress, Least(|old(state).workers[w].ingress|, CAPACITY);
      assert fits > 0 ==> list[..fits][..fits - 1] == list[..fits - 1];
      var popped := Pop(w);
      task := popped;
      if task.None? {
        ghost var before := state;
        task, next, tries := StealFromOthers(w, others, lucky, next);
        if (forall k :: others(k) == []) && (forall k :: lucky(k)) && old(state).workers[w].local == [] {
          RobsAlike(before, old(state), w, task);
        }
      }
      assert trace[..again] == refilled;
    }

    lemma RobsAlike(s: State, t: State, w: nat, task: Option<Ticket>)
      requires |s.workers| == |t.workers| && RobsFirst(s, w, task)
      requires forall v: nat :: v < |s.workers| && v != w ==> s.workers[v].local == t.workers[v].local
      ensures RobsFirst(t, w, task)
    {
      if task.Some? {
        var v: nat :| IsFirstVictim(s, w, v) && task.value == s.workers[v].local[0];
        assert IsFirstVictim(t, w, v);
      }
    }

    /** The last of a deque. */
    predicate Newest(task: Option<Ticket>, local: seq<Ticket>) {
      local != [] && task == Some(local[|local| - 1])
    }

    /** The attempts to steal, in the order of the workers: the first that gives a task gives the oldest of its
        worker's deque, and no earlier one does. */
    ghost predicate Robbed(acts: seq<Action>, w: nat, tries: seq<nat>, task: Option<Ticket>) {
      var missed := if task.Some? then |tries| - 1 else n;
      && 0 <= missed <= |tries|
      && (forall v: nat :: v < missed && v != w ==> Missed(acts, w, v, tries[v]))
      && (task.Some? ==>
            && missed != w && tries[missed] < |acts| && acts[tries[missed]] == Work(w, true)
            && Oldest(task, Run(n, acts[..tries[missed]]), missed))
    }

    predicate Oldest(task: Option<Ticket>, s: State, v: nat) {
      v < |s.workers| && s.workers[v].local != [] && task == Some(s.workers[v].local[0])
    }

    /** The oldest task of the first other worker that has any. */
    ghost predicate RobsFirst(s: State, w: nat, task: Option<Ticket>) {
      && (task.None? <==> forall v: nat :: v < |s.workers| && v != w ==> s.workers[v].local == [])
      && (task.Some? ==> exists v: nat :: IsFirstVictim(s, w, v) && task.value == s.workers[v].local[0])
    }

    ghost predicate IsFirstVictim(s: State, w: nat, v: nat) {
      && v < |s.workers| && v != w && s.workers[v].local != []
      && forall u: nat :: u < v && u != w ==> s.workers[u].local == []
    }

    /** Lines 119 to 124: the drained list is pushed to the local deque, one task after the other, in its order.
        Undisturbed, the first CAPACITY of it are there then. */
    method Refill(w: nat, others: nat -> seq<Action>, first: nat) returns (next: nat)
      requires Valid() && w < n && state.workers[w].place.Drain?
      requires forall k :: Foreign(others(k), w)
      modifies this
      ensures Valid() && old(trace) <= trace && next > first && state.workers[w].place.PopSecond?
      ensures (forall k :: others(k) == []) && old(state).workers[w].local == [] ==>
                var list := old(state).workers[w].ingress;
                state.workers == old(state).workers[w := old(state).workers[w].(
                  ingress := [], local := list[..Least(|list|, CAPACITY)], place := PopSecond)]
    {
      hide Run, Step, Foreign, WorkStep, HasMoved, Drained, Least, HasPushed;
      ghost var quiet := (forall k :: others(k) == []) && old(state).workers[w].local == [];
      Others(others(first), w);
      next := first + 1;
      var list := DrainIngress(w);
      var batch := |list|;
      ghost var all := list;
      if quiet {
        NothingMoved(old(state).workers, state.workers, w, all);
      }
      while list != []
        invariant Valid() && old(trace) <= trace && next > first && state.workers[w].place == Transfer(list, batch)
        invariant |list| <= |all| && list == all[|all| - |list|..]
        invariant quiet ==> HasMoved(old(state).workers, state.workers, w, all, list)
        decreases |list|
      {
        ghost var before := state.workers;
        PushNext(w, list, batch, others(next));
        next := next + 1;
        if quiet {
          MovesOn(old(state).workers, before, state.workers, w, all, list);
        }
        list := list[1..];
      }
      if quiet {
        AllMoved(old(state).workers, state.workers, w, all);
      }
      TransferIsOver(state, w, batch);
      Advance(w, PopSecond);
    }

    /** One push, with other threads before it. */
    method PushNext(w: nat, list: seq<Ticket>, batch: nat, acts: seq<Action>)
      requires Valid() && w < n && state.workers[w].place == Transfer(list, batch) && list != [] && Foreign(acts, w)
      modifies this
      ensures Valid() && old(trace) <= trace && state.workers[w].place == Transfer(list[1..], batch)
      ensures acts == [] ==> HasPushed(old(state).workers, state.workers, w, list, batch)
    {
      hide Run, Step, Foreign, WorkStep;
      Others(acts, w);
      PushLocal(w, list, batch);
    }

    predicate HasPushed(was: seq<Worker>, now: seq<Worker>, w: nat, list: seq<Ticket>, batch: nat)
      requires w < |was| && list != []
    {
      var x := was[w];
      now == was[w := x.(local := if |x.local| < CAPACITY then x.local + [list[0]] else x.local,
                         place := Transfer(list[1..], batch))]
    }

    /** Alone, worker `w` has moved what precedes `rest` in `all` to its deque, as far as it goes. */
    predicate HasMoved(was: seq<Worker>, now: seq<Worker>, w: nat, all: seq<Ticket>, rest: seq<Ticket>)
      requires w < |was| && |rest| <= |all|
    {
      now == was[w := was[w].(ingress := [], local := all[..Least(|all| - |rest|, CAPACITY)],
                              place := Transfer(rest, |all|))]
    }

    lemma NothingMoved(was: seq<Worker>, now: seq<Worker>, w: nat, all: seq<Ticket>)
      requires w < |was| && was[w].local == []
      requires now == was[w := was[w].(ingress := [], place := Transfer(all, |all|))]
      ensures HasMoved(was, now, w, all, all)
    {
    }

    lemma AllMoved(was: seq<Worker>, now: seq<Worker>, w: nat, all: seq<Ticket>)
      requires w < |was| && HasMoved(was, now, w, all, [])
      ensures now ==
                was[w := was[w].(ingress := [], local := all[..Least(|all|, CAPACITY)], place := Transfer([], |all|))]
    {
    }

    lemma MovesOn(was: seq<Worker>, now: seq<Worker>, after: seq<Worker>, w: nat, all: seq<Ticket>, rest: seq<Ticket>)
      requires w < |was| && 0 < |rest| <= |all| && rest == all[|all| - |rest|..] && HasMoved(was, now, w, all, rest)
      requires HasPushed(now, after, w, rest, |all|)
      ensures HasMoved(was, after, w, all, rest[1..])
    {
      var k := |all| - |rest|;
      assert rest[0] == all[k] && all[..k] + [all[k]] == all[..k + 1];
    }

    /** Lines 128 to 137: one attempt at every other worker's deque. */
    method StealFromOthers(w: nat, others: nat -> seq<Action>, lucky: nat -> bool, first: nat)
      returns (task: Option<Ticket>, next: nat, ghost tries: seq<nat>)
      requires Valid() && w < n && state.workers[w].place == Stealing(0)
      requires forall k :: Foreign(others(k), w)
      modifies this
      ensures Valid() && old(trace) <= trace && next >= first
      ensures state.workers[w].place == if task.Some? then Executing(task.value) else Polling
      ensures Robbed(trace, w, tries, task)
      ensures (forall k :: others(k) == []) && (forall k :: lucky(k)) ==> RobsFirst(old(state), w, task)
    {
      hide Run, Step, Foreign, WorkStep, Missed, Oldest;
      ghost var quiet := (forall k :: others(k) == []) && (forall k :: lucky(k));
      next := first;
      tries := [];
      for v := 0 to n
        invariant Valid() && old(trace) <= trace && next >= first && state.workers[w].place == Stealing(v)
        invariant |tries| == v && forall u: nat :: u < v && u != w ==> Missed(trace, w, u, tries[u])
        invariant quiet ==>
                    && state.workers == old(state).workers[w := old(state).workers[w].(place := Stealing(v))]
                    && forall u: nat :: u < v && u != w ==> old(state).workers[u].local == []
      {
        ghost var before := trace;
        ghost var was := state;
        var got, at := TrySteal(w, v, others(next), lucky(next));
        task, next, tries := got, next + 1, tries + [at];
        MissedStill(before, trace, w, tries, v);
        if task.Some? {
          if quiet {
            OldestIs(task, was, v);
            assert IsFirstVictim(old(state), w, v);
          }
          return;
        }
      }
      ghost var before := trace;
      LookedEverywhere(state, w);
      Advance(w, Polling);
      MissedStill(before, trace, w, tries, n);
      task := None;
    }

    lemma OldestIs(task: Option<Ticket>, s: State, v: nat)
      requires Oldest(task, s, v)
      ensures v < |s.workers| && s.workers[v].local != [] && task == Some(s.workers[v].local[0])
    {
    }

    /** One turn of that loop; `at` is the length of the run at the attempt. */
    method TrySteal(w: nat, v: nat, acts: seq<Action>, lucky: bool) returns (task: Option<Ticket>, ghost at: nat)
      requires Valid() && w < n && v < n && state.workers[w].place == Stealing(v) && Foreign(acts, w)
      modifies this
      ensures Valid() && old(trace) <= trace
      ensures state.workers[w].place == if task.Some? then Executing(task.value) else Stealing(v + 1)
      ensures v == w ==> task.None?
      ensures v != w && task.None? ==> Missed(trace, w, v, at)
      ensures task.Some? ==>
                at < |trace| && trace[at] == Work(w, true) && Oldest(task, Run(n, trace[..at]), v)
      ensures acts == [] && task.None? ==>
                && state.workers == old(state).workers[w := old(state).workers[w].(place := Stealing(v + 1))]
                && (v != w && lucky ==> old(state).workers[v].local == [])
      ensures acts == [] && task.Some? ==> Oldest(task, old(state), v)
    {
      hide Run, Step, Foreign, WorkStep;
      at := 0;
      if v == w {
        SkipsItself(state, w);
        Advance(w, Stealing(v + 1));
        return None, 0;
      }
      Others(acts, w);
      at := |trace|;
      ghost var attempt := trace;
      task := Steal(w, v, lucky);
      assert trace[..at] == attempt && trace[at] == Work(w, lucky);
    }

    /** An attempt that found an empty deque, or lost its compare-exchange. */
    ghost predicate Missed(acts: seq<Action>, w: nat, v: nat, at: nat) {
      && at < |acts| && v < |Run(n, acts[..at]).workers|
      && (acts[at] == Work(w, true) ==> Run(n, acts[..at]).workers[v].local == [])
    }

    lemma MissedStill(acts: seq<Action>, more: seq<Action>, w: nat, tries: seq<nat>, k: nat)
      requires acts <= more && k <= |tries| && forall u: nat :: u < k && u != w ==> Missed(acts, w, u, tries[u])
      ensures forall u: nat :: u < k && u != w ==> Missed(more, w, u, tries[u])
    {
      hide Run;
      forall u: nat | u < k && u != w
        ensures Missed(more, w, u, tries[u])
      {
        assert Missed(acts, w, u, tries[u]);
        assert more[..tries[u]] == acts[..tries[u]];
      }
    }

    lemma TransferIsOver(s: State, w: nat, batch: nat)
      requires w < |s.workers| && s.workers[w].place == Transfer([], batch)
      ensures WorkStep(s, w, false) == Put(s, w, s.workers[w].(place := PopSecond))
    {
    }

    lemma SkipsItself(s: State, w: nat)
      requires w < |s.workers| && s.workers[w].place == Stealing(w)
      ensures WorkStep(s, w, false) == Put(s, w, s.workers[w].(place := Stealing(w + 1)))
    {
    }

    lemma LookedEverywhere(s: State, w: nat)
      requires w < |s.workers| && s.workers[w].place == Stealing(|s.workers|)
      ensures WorkStep(s, w, false) == Put(s, w, s.workers[w].(place := Polling))
    {
    }

    /** The loop of `run_worker`, for at most `rounds` turns. It leaves at the first look, at the points `looks`
        of the run, that finds the scheduler not running and the worker's deque empty. */
    method RunWorker(w: nat, others: nat -> seq<Action>, lucky: nat -> bool, rounds: nat)
      returns (left: bool, ghost looks: seq<nat>)
      requires Valid() && w < n && state.workers[w].place.Looking?
      requires forall k :: Foreign(others(k), w)
      modifies this
      ensures Valid() && old(trace) <= trace
      ensures state.workers[w].place == if left then Exited else Looking
      ensures left ==> !state.running && state.workers[w].local == []
      ensures |looks| == (if left then |looks| else rounds) && (left ==> 0 < |looks| <= rounds)
      ensures forall k: nat :: k < |looks| ==>
                && looks[k] <= |trace| && w < |Run(n, trace[..looks[k]]).workers|
                && (MayLeave(Run(n, trace[..looks[k]]), w) <==> left && k == |looks| - 1)
    {
      hide Run, Foreign, Step, WorkStep, Robbed, RobsFirst, MayLeave;
      var next := 0;
      left, looks := false, [];
      for round := 0 to rounds
        invariant Valid() && old(trace) <= trace && state.workers[w].place.Looking? && |looks| == round
        invariant forall k: nat :: k < |looks| ==> Looked(trace, w, looks[k], false)
      {
        ghost var before := trace;
        Others(others(next), w);
        ghost var seen := trace;
        LooksFirst(state, w);
        LeaveIs(state, w);
        looks := looks + [|trace|];
        if !state.running && state.workers[w].local == [] {
          Advance(w, Exited);
          assert trace[..|seen|] == seen;
          StillLooked(before, trace, w, looks, round);
          return true, looks;
        }
        Advance(w, PopFirst);
        next := RunTask(w, others, lucky, next + 1);
        assert trace[..|seen|] == seen;
        StillLooked(before, trace, w, looks, round);
      }
      return false, looks;
    }

    /** `take_task`, and the task it finds, or the wait in epoll. */
    method RunTask(w: nat, others: nat -> seq<Action>, lucky: nat -> bool, first: nat) returns (next: nat)
      requires Valid() && w < n && state.workers[w].place.PopFirst?
      requires forall k :: Foreign(others(k), w)
      modifies this
      ensures Valid() && old(trace) <= trace && next > first && state.workers[w].place.Looking?
    {
      hide Run, Foreign, Step, WorkStep, Robbed, RobsFirst;
      var task, unused, _, _ := TakeTask(w, others, lucky, first);
      Others(others(unused), w);
      next := unused + 1;
      if task.Some? {
        Finish(w, task.value);
      } else {
        PollsThenLooks(state, w);
        Advance(w, Looking);
      }
    }

    predicate MayLeave(s: State, w: nat)
      requires w < |s.workers|
    {
      !s.running && s.workers[w].local == []
    }

    lemma LeaveIs(s: State, w: nat)
      requires w < |s.workers|
      ensures MayLeave(s, w) <==> !s.running && s.workers[w].local == []
    {
    }

    ghost predicate Looked(acts: seq<Action>, w: nat, at: nat, may: bool) {
      at <= |acts| && w < |Run(n, acts[..at]).workers| && MayLeave(Run(n, acts[..at]), w) == may
    }

    lemma StillLooked(acts: seq<Action>, more: seq<Action>, w: nat, looks: seq<nat>, k: nat)
      requires acts <= more && k <= |looks| && forall j: nat :: j < k ==> Looked(acts, w, looks[j], false)
      ensures forall j: nat :: j < k ==> Looked(more, w, looks[j], false)
    {
      hide Run, MayLeave;
      forall j: nat | j < k
        ensures Looked(more, w, looks[j], false)
      {
        assert Looked(acts, w, looks[j], false);
        assert more[..looks[j]] == acts[..looks[j]];
      }
    }

    lemma LooksFirst(s: State, w: nat)
      requires w < |s.workers| && s.workers[w].place.Looking?
      ensures WorkStep(s, w, false) ==
                Put(s, w, s.workers[w].(place := if s.running || s.workers[w].local != [] then PopFirst else Exited))
    {
    }

    lemma PollsThenLooks(s: State, w: nat)
      requires w < |s.workers| && s.workers[w].place.Polling?
      ensures WorkStep(s, w, false) == Put(s, w, s.workers[w].(place := Looking))
    {
    }

    /** The task has run and is counted. */
    method Finish(w: nat, t: Ticket)
      requires Valid() && w < n && state.workers[w].place == Executing(t)
      modifies this
      ensures Valid() && trace == old(trace) + [Work(w, false)]
      ensures state.workers == old(state).workers[w := old(state).workers[w].(place := Looking)]
      ensures state.completed == old(state).completed + 1 && |state.fate| == |old(state).fate|
      ensures t < |state.fate| ==> state.fate == old(state).fate[t := Completed]
    {
      hide Run;
      Move(w, state.workers[w].(place := Looking));
      state := state.(fate := Settle(state.fate, t, Completed), completed := state.completed + 1);
      Did(w, false, old(state));
    }

    /** What the caller of `take_task` can rely on: the task is nobody else's and has not been run. */
    lemma InHandAlone(w: nat, t: Ticket)
      requires Valid() && w < n && state.workers[w].place == Executing(t)
      ensures t < |state.fate| && !state.fate[t].Completed?
      ensures forall v :: 0 <= v < n && Holds(state.workers[v], t) ==> v == w
    {
      Always(n, trace);
      assert WorkerOk(w, state.workers[w], state.fate);
      HeldByOne(n, trace, t);
      assert Holds(state.workers[w], t);
    }
  }
}
