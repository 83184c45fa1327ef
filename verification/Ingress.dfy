/**
 The multi-producer ingress queue of `src/work_stealing_deque.cpp`: a linked list that producers
 extend at its head with a weak compare-exchange, and that the owner takes as a whole with an
 exchange and reverses in place. Memory is a map from addresses to `next` pointers; an address may
 be used again once its node has been freed. One step per access; a run is any list of steps.
*/
module IngressMachine {
  import opened Wrappers

  /** An address; 0 is the null pointer. */
  type Addr = nat
  type Task = nat

  datatype Producer =
    | Resting
    | CheckClosed(node: Addr)
    | LoadHead(node: Addr)
    | SetNext(node: Addr, h: Addr)
    | Cas(node: Addr, h: Addr)
    | CheckAgain(place: nat)

  datatype Consumer = Away | Reversing(list: Addr, reversed: Addr)

  /** Who may use a node: a producer, the shared list, the list being reversed, or the consumer. */
  datatype Owner = Of(p: nat) | InStack(i: nat) | InBatch(i: nat) | Taken

  /** What became of the push whose compare-exchange came at some place of the order. */
  datatype Answer = Unanswered(p: nat) | Accepted | RefusedLate

  /** `stack` lists the nodes reachable from `head`, oldest first, and `batch` those of the drain in
      progress, of which the first `left` are still to be reversed; `order` lists the tasks in the
      order of their successful compare-exchanges, `nodes` their nodes, `answers` what those pushes
      returned, `destroyed` the places of those whose callers have destroyed the node, and `drained` the
      results of all drains. */
  datatype State = State(
    head: Addr,
    next: map<Addr, Addr>,
    payload: map<Addr, Task>,
    closed: bool,
    producers: map<nat, Producer>,
    consumer: Consumer,
    owner: map<Addr, Owner>,
    stack: seq<Addr>,
    batch: seq<Addr>,
    left: nat,
    order: seq<Task>,
    answers: seq<Answer>,
    drained: seq<Task>,
    nodes: seq<Addr>,
    destroyed: set<nat>)

  datatype Action =
    | Push(p: nat, node: Addr, task: Task)
    | Produce(p: nat, spurious: bool)
    | Drain
    | Reverse
    | Free(node: Addr)
    | Destroy(place: nat)
    | Close

  function Init(): State {
    State(0, map[], map[], false, map[], Away, map[], [], [], 0, [], [], [], [], {})
  }

  function ProducerOf(s: State, p: nat): Producer {
    if p in s.producers then s.producers[p] else Resting
  }

  function ProduceStep(s: State, p: nat, spurious: bool): State {
    match ProducerOf(s, p)
    case Resting => s
    case CheckClosed(node) =>
      if s.closed
      then s.(producers := s.producers[p := Resting], owner := s.owner - {node})
      else s.(producers := s.producers[p := LoadHead(node)])
    case LoadHead(node) => s.(producers := s.producers[p := SetNext(node, s.head)])
    case SetNext(node, h) =>
      s.(next := s.next[node := h], producers := s.producers[p := Cas(node, h)])
    case Cas(node, h) =>
      if s.head == h && !spurious then
        s.(head := node, producers := s.producers[p := CheckAgain(|s.order|)],
           owner := s.owner[node := InStack(|s.stack|)], stack := s.stack + [node],
           order := s.order + Payload(s.payload, [node]), answers := s.answers + [Unanswered(p)],
           nodes := s.nodes + [node])
      else s.(producers := s.producers[p := SetNext(node, s.head)])
    case CheckAgain(place) =>
      s.(producers := s.producers[p := Resting],
         answers := if place < |s.answers|
                    then s.answers[place := if s.closed then RefusedLate else Accepted] else s.answers)
  }

  /** One turn of the loop of lines 19 to 24. */
  function TurnStep(s: State): State
    requires s.consumer.Reversing?
  {
    var list, reversed := s.consumer.list, s.consumer.reversed;
    s.(next := s.next[list := reversed],
       consumer := Reversing(if list in s.next then s.next[list] else 0, list),
       left := if s.left > 0 then s.left - 1 else 0)
  }

  function ReturnStep(s: State): State {
    s.(consumer := Away, batch := [], left := 0, drained := s.drained + Payload(s.payload, s.batch),
       owner := map a | a in s.owner :: if s.owner[a].InBatch? then Taken else s.owner[a])
  }

  function ReverseStep(s: State): State {
    match s.consumer
    case Away => s
    case Reversing(list, _) => if list == 0 then ReturnStep(s) else TurnStep(s)
  }

  function DrainStep(s: State): State {
    if s.consumer.Reversing? then s
    else
      s.(head := 0, consumer := Reversing(s.head, 0), stack := [], batch := s.stack, left := |s.stack|,
         owner := map a | a in s.owner :: if s.owner[a].InStack? then InBatch(s.owner[a].i) else s.owner[a])
  }

  function Step(s: State, a: Action): State {
    match a
    case Push(p, node, task) =>
      if ProducerOf(s, p).Resting? && node != 0 && node !in s.owner
      then s.(producers := s.producers[p := CheckClosed(node)], owner := s.owner[node := Of(p)],
              payload := s.payload[node := task])
      else s
    case Produce(p, spurious) => ProduceStep(s, p, spurious)
    case Drain => DrainStep(s)
    case Reverse => ReverseStep(s)
    case Free(node) => if node in s.owner && s.owner[node] == Taken then s.(owner := s.owner - {node}) else s
    case Destroy(k) => if IsRefused(s, k) then s.(destroyed := s.destroyed + {k}) else s
    case Close => s.(closed := true)
  }

  /** The push at that place has linked its node and returned false, and its caller owns the node again. */
  predicate IsRefused(s: State, k: nat) {
    k < |s.answers| && s.answers[k].RefusedLate?
  }

  function Run(acts: seq<Action>): State {
    if acts == [] then Init() else Step(Run(acts[..|acts| - 1]), acts[|acts| - 1])
  }

  function Payload(payload: map<Addr, Task>, nodes: seq<Addr>): (r: seq<Task>)
    ensures |r| == |nodes|
  {
    seq(|nodes|, i requires 0 <= i < |nodes| => if nodes[i] in payload then payload[nodes[i]] else 0)
  }

  // The invariant.

  function Before(nodes: seq<Addr>, i: nat): Addr
    requires i <= |nodes|
  {
    if i == 0 then 0 else nodes[i - 1]
  }

  function Node(x: Producer): Option<Addr> {
    match x
    case CheckClosed(node) => Some(node)
    case LoadHead(node) => Some(node)
    case SetNext(node, _) => Some(node)
    case Cas(node, _) => Some(node)
    case _ => None
  }

  /** From `head`, the `next` pointers lead through `stack`, newest first. */
  ghost predicate StackOk(s: State) {
    && s.head == Before(s.stack, |s.stack|)
    && forall i :: 0 <= i < |s.stack| ==>
         && s.stack[i] != 0 && s.stack[i] in s.owner && s.owner[s.stack[i]] == InStack(i)
         && s.stack[i] in s.next && s.next[s.stack[i]] == Before(s.stack, i)
  }

  /** Position `i` of the drained list, before or after it has been reversed. */
  function Linked(batch: seq<Addr>, left: nat, i: nat): Addr
    requires i < |batch|
  {
    if i < left then Before(batch, i) else if i + 1 < |batch| then batch[i + 1] else 0
  }

  ghost predicate LinkOk(s: State, i: nat)
    requires i < |s.batch|
  {
    && s.batch[i] != 0 && s.batch[i] in s.owner && s.owner[s.batch[i]] == InBatch(i)
    && s.batch[i] in s.next && s.next[s.batch[i]] == Linked(s.batch, s.left, i)
  }

  ghost predicate BatchOk(s: State) {
    && s.left <= |s.batch|
    && (s.consumer.Away? ==> s.batch == [])
    && (s.consumer.Reversing? ==>
          && s.consumer.list == Before(s.batch, s.left)
          && s.consumer.reversed == if s.left < |s.batch| then s.batch[s.left] else 0)
    && (forall i: nat {:trigger LinkOk(s, i)} {:trigger s.batch[i]} :: i < |s.batch| ==> LinkOk(s, i))
  }

  ghost predicate ProducersOk(s: State) {
    forall p :: p in s.producers && Node(s.producers[p]).Some? ==>
      var node := Node(s.producers[p]).value;
      && node != 0 && node in s.owner && s.owner[node] == Of(p)
      && (s.producers[p].Cas? ==> node in s.next && s.next[node] == s.producers[p].h)
  }

  ghost predicate OwnersOk(s: State) {
    forall a :: a in s.owner ==>
      match s.owner[a]
      case Of(p) => p in s.producers && Node(s.producers[p]) == Some(a)
      case InStack(i) => i < |s.stack| && s.stack[i] == a
      case InBatch(i) => i < |s.batch| && s.batch[i] == a
      case Taken => true
  }

  ghost predicate OrderOk(s: State) {
    s.order == s.drained + Payload(s.payload, s.batch) + Payload(s.payload, s.stack)
  }

  /** The pushes that have linked their node and not returned are those between their
      compare-exchange and the second look at `closed`. */
  ghost predicate AnswersOk(s: State) {
    && |s.answers| == |s.order|
    && (forall p :: p in s.producers && s.producers[p].CheckAgain? ==>
          s.producers[p].place < |s.answers| && s.answers[s.producers[p].place] == Unanswered(p))
    && forall k :: 0 <= k < |s.answers| && s.answers[k].Unanswered? ==>
         s.answers[k].p in s.producers && s.producers[s.answers[k].p] == CheckAgain(k)
  }

  ghost predicate Inv(s: State) {
    StackOk(s) && BatchOk(s) && ProducersOk(s) && OwnersOk(s) && OrderOk(s) && AnswersOk(s)
  }

  lemma PayloadSame(payload: map<Addr, Task>, payload': map<Addr, Task>, nodes: seq<Addr>)
    requires forall i :: 0 <= i < |nodes| ==>
               && (nodes[i] in payload <==> nodes[i] in payload')
               && (nodes[i] in payload ==> payload[nodes[i]] == payload'[nodes[i]])
    ensures Payload(payload, nodes) == Payload(payload', nodes)
  {
  }

  /** A step that leaves alone the lists and what they are made of. */
  lemma ListsKept(s: State, s': State)
    requires StackOk(s) && BatchOk(s)
    requires s'.head == s.head && s'.stack == s.stack
    requires s'.batch == s.batch && s'.left == s.left && s'.consumer == s.consumer
    requires forall a :: a in s.owner && (s.owner[a].InStack? || s.owner[a].InBatch?) ==>
               && a in s'.owner && s'.owner[a] == s.owner[a]
               && (a in s.next ==> a in s'.next && s'.next[a] == s.next[a])
    ensures StackOk(s') && BatchOk(s')
  {
    hide Linked, Before;
  }

  predicate Pushes(s: State, p: nat, node: Addr) {
    ProducerOf(s, p).Resting? && node != 0 && node !in s.owner
  }

  lemma PushKeepsUsers(s: State, p: nat, node: Addr, task: Task)
    requires ProducersOk(s) && OwnersOk(s) && AnswersOk(s) && Pushes(s, p, node)
    ensures var s' := Step(s, Push(p, node, task)); ProducersOk(s') && OwnersOk(s') && AnswersOk(s')
  {
    hide Payload;
  }

  lemma PushKeepsOrder(s: State, p: nat, node: Addr, task: Task)
    requires StackOk(s) && BatchOk(s) && OrderOk(s) && Pushes(s, p, node)
    ensures OrderOk(Step(s, Push(p, node, task)))
  {
    hide Linked, Before;
    var payload' := s.payload[node := task];
    PayloadSame(s.payload, payload', s.batch);
    PayloadSame(s.payload, payload', s.stack);
  }

  lemma PushKeeps(s: State, p: nat, node: Addr, task: Task)
    requires Inv(s)
    ensures Inv(Step(s, Push(p, node, task)))
  {
    if Pushes(s, p, node) {
      hide StackOk, BatchOk, OrderOk, ProducersOk, OwnersOk, AnswersOk;
      PushKeepsUsers(s, p, node, task);
      PushKeepsOrder(s, p, node, task);
      ListsKept(s, Step(s, Push(p, node, task)));
    }
  }

  /** The steps of a push other than the compare-exchange that succeeds. */
  predicate Prepares(s: State, p: nat, spurious: bool) {
    !ProducerOf(s, p).Resting? && !Links(s, p, spurious)
  }

  /** A producer goes on with the node it holds. */
  lemma HolderMoves(s: State, s': State, p: nat)
    requires ProducersOk(s) && OwnersOk(s) && p in s.producers && p in s'.producers
    requires s'.producers == s.producers[p := s'.producers[p]]
    requires Node(s'.producers[p]) == Node(s.producers[p])
    requires s'.owner == s.owner && s'.stack == s.stack && s'.batch == s.batch
    requires forall a :: a in s.next && Some(a) != Node(s.producers[p]) ==> a in s'.next && s'.next[a] == s.next[a]
    requires var x := s'.producers[p]; x.Cas? ==> x.node in s'.next && s'.next[x.node] == x.h
    ensures ProducersOk(s') && OwnersOk(s')
  {
  }

  lemma PrepareMoves(s: State, p: nat, spurious: bool)
    requires Prepares(s, p, spurious) && !(ProducerOf(s, p).CheckClosed? && s.closed)
    ensures var s' := ProduceStep(s, p, spurious);
            && p in s.producers && p in s'.producers && s'.producers == s.producers[p := s'.producers[p]]
            && Node(s'.producers[p]) == Node(s.producers[p])
            && s'.owner == s.owner && s'.stack == s.stack && s'.batch == s.batch
            && (forall a :: a in s.next && Some(a) != Node(s.producers[p]) ==> a in s'.next && s'.next[a] == s.next[a])
            && (var x := s'.producers[p]; x.Cas? ==> x.node in s'.next && s'.next[x.node] == x.h)
  {
    hide Payload;
  }

  lemma RefusalKeepsUsers(s: State, p: nat)
    requires ProducersOk(s) && OwnersOk(s) && ProducerOf(s, p).CheckClosed? && s.closed
    ensures var s' := ProduceStep(s, p, false); ProducersOk(s') && OwnersOk(s')
  {
    assert Node(s.producers[p]).Some?;
  }

  lemma PrepareKeepsUsers(s: State, p: nat, spurious: bool)
    requires ProducersOk(s) && OwnersOk(s) && Prepares(s, p, spurious)
    ensures var s' := ProduceStep(s, p, spurious); ProducersOk(s') && OwnersOk(s')
  {
    hide ProducersOk, OwnersOk, Payload;
    if ProducerOf(s, p).CheckClosed? && s.closed {
      RefusalKeepsUsers(s, p);
    } else {
      PrepareMoves(s, p, spurious);
      hide ProduceStep;
      HolderMoves(s, ProduceStep(s, p, spurious), p);
    }
  }

  lemma AnswerKeeps(s: State, p: nat)
    requires AnswersOk(s) && ProducerOf(s, p).CheckAgain?
    ensures AnswersOk(ProduceStep(s, p, false))
  {
  }

  lemma OtherStepKeepsAnswers(s: State, s': State, p: nat)
    requires AnswersOk(s) && !ProducerOf(s, p).CheckAgain? && p in s'.producers && !s'.producers[p].CheckAgain?
    requires s'.producers == s.producers[p := s'.producers[p]] && s'.answers == s.answers && s'.order == s.order
    ensures AnswersOk(s')
  {
  }

  lemma PrepareKeepsAnswers(s: State, p: nat, spurious: bool)
    requires AnswersOk(s) && Prepares(s, p, spurious)
    ensures AnswersOk(ProduceStep(s, p, spurious))
  {
    hide AnswersOk, Payload;
    if ProducerOf(s, p).CheckAgain? {
      AnswerKeeps(s, p);
    } else {
      OtherStepKeepsAnswers(s, ProduceStep(s, p, spurious), p);
    }
  }

  lemma PrepareKeepsLists(s: State, p: nat, spurious: bool)
    requires StackOk(s) && BatchOk(s) && ProducersOk(s) && Prepares(s, p, spurious)
    ensures var s' := ProduceStep(s, p, spurious); StackOk(s') && BatchOk(s')
  {
    hide StackOk, BatchOk, Payload;
    ListsKept(s, ProduceStep(s, p, spurious));
  }

  lemma PrepareKeeps(s: State, p: nat, spurious: bool)
    requires Inv(s) && Prepares(s, p, spurious)
    ensures Inv(ProduceStep(s, p, spurious))
  {
    hide StackOk, BatchOk, ProducersOk, OwnersOk, AnswersOk;
    PrepareKeepsUsers(s, p, spurious);
    PrepareKeepsAnswers(s, p, spurious);
    PrepareKeepsLists(s, p, spurious);
  }

  /** The compare-exchange of producer `p` succeeds. */
  predicate Links(s: State, p: nat, spurious: bool) {
    ProducerOf(s, p).Cas? && s.head == ProducerOf(s, p).h && !spurious
  }

  lemma LinkKeepsStack(s: State, p: nat)
    requires StackOk(s) && ProducersOk(s) && Links(s, p, false)
    ensures StackOk(ProduceStep(s, p, false))
  {
    hide Payload;
    assert Node(s.producers[p]).Some?;
    var node := s.producers[p].node;
    var s' := ProduceStep(s, p, false);
    forall i | 0 <= i < |s'.stack|
      ensures s'.stack[i] != 0 && s'.stack[i] in s'.owner && s'.owner[s'.stack[i]] == InStack(i)
      ensures s'.stack[i] in s'.next && s'.next[s'.stack[i]] == Before(s'.stack, i)
    {
      if i < |s.stack| {
        assert s'.stack[i] == s.stack[i] != node;
      }
    }
  }

  lemma LinkKeepsBatch(s: State, p: nat)
    requires BatchOk(s) && ProducersOk(s) && Links(s, p, false)
    ensures BatchOk(ProduceStep(s, p, false))
  {
    hide Payload, Linked, Before;
    assert Node(s.producers[p]).Some?;
  }

  lemma LinkKeepsUsers(s: State, p: nat)
    requires ProducersOk(s) && OwnersOk(s) && Links(s, p, false)
    ensures var s' := ProduceStep(s, p, false); ProducersOk(s') && OwnersOk(s')
  {
    hide Payload;
    assert Node(s.producers[p]).Some?;
  }

  lemma LinkKeepsOrder(s: State, p: nat)
    requires OrderOk(s) && AnswersOk(s) && Links(s, p, false)
    ensures var s' := ProduceStep(s, p, false); OrderOk(s') && AnswersOk(s')
  {
    var node := s.producers[p].node;
    assert Payload(s.payload, s.stack + [node]) == Payload(s.payload, s.stack) + Payload(s.payload, [node]);
  }

  lemma ProduceKeeps(s: State, p: nat, spurious: bool)
    requires Inv(s)
    ensures Inv(ProduceStep(s, p, spurious))
  {
    if Links(s, p, spurious) {
      hide StackOk, BatchOk, OrderOk, ProducersOk, OwnersOk, AnswersOk, ProduceStep;
      LinkKeepsStack(s, p);
      LinkKeepsBatch(s, p);
      LinkKeepsUsers(s, p);
      LinkKeepsOrder(s, p);
    } else if !ProducerOf(s, p).Resting? {
      PrepareKeeps(s, p, spurious);
    }
  }

  lemma DrainKeepsLists(s: State)
    requires StackOk(s) && BatchOk(s) && s.consumer.Away?
    ensures var s' := DrainStep(s); StackOk(s') && BatchOk(s')
  {
    hide Payload;
  }

  lemma DrainKeepsRest(s: State)
    requires BatchOk(s) && ProducersOk(s) && OwnersOk(s) && OrderOk(s) && s.consumer.Away?
    ensures var s' := DrainStep(s); ProducersOk(s') && OwnersOk(s') && OrderOk(s')
  {
    hide LinkOk;
    assert Payload(s.payload, DrainStep(s).batch) == Payload(s.payload, s.stack);
  }

  lemma DrainKeeps(s: State)
    requires Inv(s)
    ensures Inv(DrainStep(s))
  {
    hide StackOk, BatchOk, ProducersOk, OwnersOk, OrderOk, LinkOk;
    if s.consumer.Away? {
      DrainKeepsLists(s);
      DrainKeepsRest(s);
    }
  }

  lemma TurnKeepsLink(s: State, i: nat)
    requires s.consumer.Reversing? && 0 < s.left <= |s.batch| && i < |s.batch|
    requires s.consumer.list == s.batch[s.left - 1]
    requires s.consumer.reversed == if s.left < |s.batch| then s.batch[s.left] else 0
    requires LinkOk(s, i) && LinkOk(s, s.left - 1)
    ensures LinkOk(TurnStep(s), i)
  {
  }

  lemma TurnKeepsBatch(s: State)
    requires BatchOk(s) && s.consumer.Reversing? && s.consumer.list != 0
    ensures BatchOk(TurnStep(s))
  {
    var s' := TurnStep(s);
    assert LinkOk(s, s.left - 1);
    forall i: nat | i < |s.batch|
      ensures LinkOk(s', i)
    {
      TurnKeepsLink(s, i);
    }
  }

  lemma TurnKeepsRest(s: State)
    requires Inv(s) && s.consumer.Reversing? && s.consumer.list != 0
    ensures var s' := TurnStep(s); StackOk(s') && ProducersOk(s') && OwnersOk(s') && OrderOk(s') && AnswersOk(s')
  {
    hide Payload, Linked;
    assert LinkOk(s, s.left - 1);
  }

  lemma ReturnKeepsLists(s: State)
    requires StackOk(s) && BatchOk(s) && s.consumer.Reversing?
    ensures var s' := ReturnStep(s); StackOk(s') && BatchOk(s')
  {
    hide Payload, Linked, Before;
  }

  lemma ReturnKeepsRest(s: State)
    requires ProducersOk(s) && OwnersOk(s) && OrderOk(s) && s.consumer.Reversing?
    ensures var s' := ReturnStep(s); ProducersOk(s') && OwnersOk(s') && OrderOk(s')
  {
    var s' := ReturnStep(s);
    assert s'.drained + Payload(s.payload, s'.batch) + Payload(s.payload, s'.stack) == s.order;
  }

  lemma ReturnKeeps(s: State)
    requires Inv(s) && s.consumer.Reversing? && s.consumer.list == 0
    ensures Inv(ReturnStep(s))
  {
    hide StackOk, BatchOk, ProducersOk, OwnersOk, OrderOk;
    ReturnKeepsLists(s);
    ReturnKeepsRest(s);
  }

  lemma ReverseKeeps(s: State)
    requires Inv(s)
    ensures Inv(ReverseStep(s))
  {
    if s.consumer.Reversing? {
      if s.consumer.list == 0 {
        ReturnKeeps(s);
      } else {
        hide StackOk, BatchOk, ProducersOk, OwnersOk, OrderOk, AnswersOk, TurnStep;
        TurnKeepsBatch(s);
        TurnKeepsRest(s);
      }
    }
  }

  lemma FreeKeeps(s: State, node: Addr)
    requires Inv(s)
    ensures Inv(Step(s, Free(node)))
  {
    var s' := Step(s, Free(node));
    hide StackOk, BatchOk, Payload;
    if s' != s {
      ListsKept(s, s');
    }
  }

  lemma DestroyKeeps(s: State, k: nat)
    requires Inv(s)
    ensures Inv(Step(s, Destroy(k)))
  {
    hide Payload, Linked, Before;
  }

  lemma CloseKeeps(s: State)
    requires Inv(s)
    ensures Inv(Step(s, Close))
  {
    hide Payload, Linked, Before;
  }

  lemma StepKeeps(s: State, a: Action)
    requires Inv(s)
    ensures Inv(Step(s, a))
  {
    hide StackOk, BatchOk, OrderOk, ProducersOk, OwnersOk, AnswersOk, ProduceStep, DrainStep, ReverseStep;
    match a
    case Push(p, node, task) => PushKeeps(s, p, node, task);
    case Produce(p, spurious) => ProduceKeeps(s, p, spurious);
    case Drain => DrainKeeps(s);
    case Reverse => ReverseKeeps(s);
    case Free(node) => FreeKeeps(s, node);
    case Destroy(k) => DestroyKeeps(s, k);
    case Close => CloseKeeps(s);
  }

  lemma {:induction false} Always(acts: seq<Action>)
    ensures Inv(Run(acts))
  {
    if acts != [] {
      hide Inv, Step;
      Always(acts[..|acts| - 1]);
      StepKeeps(Run(acts[..|acts| - 1]), acts[|acts| - 1]);
    }
  }

  // What the pointers say.

  /** Following `next` from `a` visits exactly `nodes` and then meets the null pointer. */
  predicate Chain(next: map<Addr, Addr>, a: Addr, nodes: seq<Addr>)
    decreases nodes
  {
    if nodes == [] then a == 0
    else a != 0 && a == nodes[0] && a in next && Chain(next, next[a], nodes[1..])
  }

  function Reversed(nodes: seq<Addr>): (r: seq<Addr>)
    ensures |r| == |nodes| && forall i :: 0 <= i < |nodes| ==> r[i] == nodes[|nodes| - 1 - i]
  {
    seq(|nodes|, i requires 0 <= i < |nodes| => nodes[|nodes| - 1 - i])
  }

  lemma {:induction false} ChainIsUnique(next: map<Addr, Addr>, a: Addr, x: seq<Addr>, y: seq<Addr>)
    requires Chain(next, a, x) && Chain(next, a, y)
    ensures x == y
    decreases |x|
  {
    if x != [] && y != [] {
      ChainIsUnique(next, next[a], x[1..], y[1..]);
      assert x == [a] + x[1..] && y == [a] + y[1..];
    }
  }

  lemma ChainCons(next: map<Addr, Addr>, a: Addr, rest: seq<Addr>)
    requires a != 0 && a in next && Chain(next, next[a], rest)
    ensures Chain(next, a, [a] + rest)
  {
    assert ([a] + rest)[1..] == rest;
  }

  lemma {:induction false} LinksMakeChain(next: map<Addr, Addr>, nodes: seq<Addr>, from: nat)
    requires from <= |nodes|
    requires forall i :: 0 <= i < |nodes| ==>
               nodes[i] != 0 && nodes[i] in next && next[nodes[i]] == if i + 1 < |nodes| then nodes[i + 1] else 0
    ensures Chain(next, if from < |nodes| then nodes[from] else 0, nodes[from..])
    decreases |nodes| - from
  {
    if from == |nodes| {
      assert nodes[from..] == [];
    } else {
      hide Chain;
      LinksMakeChain(next, nodes, from + 1);
      ChainCons(next, nodes[from], nodes[from + 1..]);
      assert nodes[from..] == [nodes[from]] + nodes[from + 1..];
    }
  }

  lemma BeforeIs(nodes: seq<Addr>, i: nat)
    requires i <= |nodes|
    ensures Before(nodes, i) == if i == 0 then 0 else nodes[i - 1]
  {
  }

  lemma StackIsAChain(s: State)
    requires StackOk(s)
    ensures Chain(s.next, s.head, Reversed(s.stack))
  {
    hide Chain, Before;
    var nodes := Reversed(s.stack);
    forall i | 0 <= i < |nodes|
      ensures nodes[i] != 0 && nodes[i] in s.next
      ensures s.next[nodes[i]] == if i + 1 < |nodes| then nodes[i + 1] else 0
    {
      assert nodes[i] == s.stack[|s.stack| - 1 - i];
      BeforeIs(s.stack, |s.stack| - 1 - i);
    }
    BeforeIs(s.stack, |s.stack|);
    hide StackOk;
    LinksMakeChain(s.next, nodes, 0);
    assert nodes[0..] == nodes;
  }

  lemma BatchIsAChain(s: State)
    requires BatchOk(s) && s.consumer.Reversing? && s.consumer.list == 0
    ensures Chain(s.next, s.consumer.reversed, s.batch)
  {
    ListEndsWithLeft(s);
    LinksMakeChain(s.next, s.batch, 0);
    assert s.batch[0..] == s.batch;
  }

  lemma {:induction false} BatchStays(acts: seq<Action>, more: seq<Action>)
    requires Run(acts).consumer.Away?
    requires forall i :: 0 <= i <= |more| ==> Run(acts + [Drain] + more[..i]).consumer.Reversing?
    ensures Run(acts + [Drain] + more).batch == Run(acts).stack
  {
    hide Step, Run;
    RunSnoc(acts, Drain);
    if more == [] {
      assert acts + [Drain] + more == acts + [Drain];
      DrainTakesStack(Run(acts));
    } else {
      var fewer, a := more[..|more| - 1], more[|more| - 1];
      forall i | 0 <= i <= |fewer|
        ensures Run(acts + [Drain] + fewer[..i]).consumer.Reversing?
      {
        assert fewer[..i] == more[..i];
      }
      BatchStays(acts, fewer);
      assert more[..|more|] == more && fewer[..|fewer|] == fewer;
      assert acts + [Drain] + fewer + [a] == acts + [Drain] + more;
      RunSnoc(acts + [Drain] + fewer, a);
      StepKeepsBatch(Run(acts + [Drain] + fewer), a);
    }
  }

  lemma DrainTakesStack(s: State)
    requires s.consumer.Away?
    ensures Step(s, Drain).batch == s.stack
  {
  }

  lemma StepKeepsBatch(s: State, a: Action)
    requires s.consumer.Reversing?
    ensures var t := Step(s, a);
            && (t.consumer.Reversing? ==> t.batch == s.batch)
            && (a != Reverse ==> t.left == s.left && t.consumer == s.consumer)
            && (a == Reverse && s.consumer.list != 0 && s.left > 0 ==>
                  t.left == s.left - 1 && t.consumer.Reversing?)
  {
    hide Payload, ReturnStep, DrainStep;
    assert DrainStep(s) == s by {
      DrainIsIdle(s);
    }
    assert ReverseStep(s).consumer.Reversing? ==> s.consumer.list != 0 by {
      ReturnIsAway(s);
    }
  }

  lemma DrainIsIdle(s: State)
    requires s.consumer.Reversing?
    ensures DrainStep(s) == s
  {
  }

  lemma ReturnIsAway(s: State)
    ensures ReturnStep(s).consumer.Away?
  {
  }

  // Main results.

  /** All drains together return the tasks in the order of the successful compare-exchanges, each
      task once and none skipped; the rest of that order is in the list being reversed, then in the
      shared list. */
  lemma DrainsFollowTheOrder(acts: seq<Action>)
    ensures var s := Run(acts);
            && s.drained <= s.order
            && s.order == s.drained + Payload(s.payload, s.batch) + Payload(s.payload, s.stack)
            && Chain(s.next, s.head, Reversed(s.stack))
  {
    Always(acts);
    StackIsAChain(Run(acts));
  }

  /** A drain returns the list it took, reversed, whatever producers do in the meantime: if
      following the pointers from `head` visits `nodes` when the exchange takes place, then following
      them from the returned pointer visits `nodes` backwards. */
  lemma DrainReverses(acts: seq<Action>, more: seq<Action>, nodes: seq<Addr>)
    requires Run(acts).consumer.Away? && Chain(Run(acts).next, Run(acts).head, nodes)
    requires forall i :: 0 <= i <= |more| ==> Run(acts + [Drain] + more[..i]).consumer.Reversing?
    requires Run(acts + [Drain] + more).consumer.Reversing? && Run(acts + [Drain] + more).consumer.list == 0
    ensures var s := Run(acts + [Drain] + more); Chain(s.next, s.consumer.reversed, Reversed(nodes))
  {
    hide Step, Run, StackOk, BatchOk, ProducersOk, OwnersOk, AnswersOk, OrderOk;
    var s, t := Run(acts), Run(acts + [Drain] + more);
    Always(acts);
    Always(acts + [Drain] + more);
    StackIsAChain(s);
    ChainIsUnique(s.next, s.head, nodes, Reversed(s.stack));
    BatchStays(acts, more);
    BatchIsAChain(t);
    assert Reversed(nodes) == s.stack;
  }

  /** The reversal ends: each turn lowers `left`, nobody else touches it, and the list is exhausted
      exactly when it is zero. */
  lemma ReversalTerminates(acts: seq<Action>, a: Action)
    requires Run(acts).consumer.Reversing?
    ensures var s, t := Run(acts), Run(acts + [a]);
            && (s.consumer.list == 0 <==> s.left == 0)
            && (a == Reverse && s.left > 0 ==> t.left == s.left - 1 && t.consumer.Reversing?)
            && (a != Reverse ==> t.left == s.left && t.consumer == s.consumer)
  {
    Always(acts);
    assert (acts + [a])[..|acts|] == acts;
    hide Run, StackOk, ProducersOk, OwnersOk, AnswersOk, OrderOk;
    ListEndsWithLeft(Run(acts));
    StepKeepsBatch(Run(acts), a);
  }

  lemma ListEndsWithLeft(s: State)
    requires BatchOk(s) && s.consumer.Reversing?
    ensures s.consumer.list == 0 <==> s.left == 0
  {
    if s.left > 0 {
      assert LinkOk(s, s.left - 1);
    }
  }

  /** Step `i` is the second look at `closed` of the push at place `k` of the order. */
  predicate LooksAgain(acts: seq<Action>, i: nat, k: nat)
    requires i < |acts|
  {
    LooksNow(Run(acts[..i]), acts[i], k)
  }

  predicate LooksNow(s: State, a: Action, k: nat) {
    a.Produce? && ProducerOf(s, a.p) == CheckAgain(k)
  }

  /** Some step is that second look, and `closed` then has the value `c`. */
  ghost predicate Looked(acts: seq<Action>, k: nat, c: bool) {
    exists i: nat :: i < |acts| && LooksAgain(acts, i, k) && Run(acts[..i]).closed == c
  }

  lemma LookedSnoc(acts: seq<Action>, a: Action, k: nat, c: bool)
    ensures Looked(acts + [a], k, c) == (Looked(acts, k, c) || (LooksNow(Run(acts), a, k) && Run(acts).closed == c))
  {
    hide Run, LooksNow;
    var all := acts + [a];
    assert all[..|acts|] == acts;
    assert LooksAgain(all, |acts|, k) == LooksNow(Run(acts), a, k);
    forall i: nat | i < |acts|
      ensures LooksAgain(all, i, k) == LooksAgain(acts, i, k) && all[..i] == acts[..i]
    {
      assert all[..i] == acts[..i];
    }
  }

  lemma StepAnswers(s: State, a: Action, k: nat)
    requires AnswersOk(s)
    ensures var s' := Step(s, a);
            var looks := LooksNow(s, a, k);
            && (k < |s.answers| ==>
                  k < |s'.answers| && s'.answers[k] ==
                    if looks then if s.closed then RefusedLate else Accepted else s.answers[k])
            && (looks ==> k < |s.answers| && s.answers[k].Unanswered?)
            && (|s.answers| <= k < |s'.answers| ==> s'.answers[k].Unanswered?)
  {
    hide Payload;
  }

  lemma {:induction false} AnswerOf(acts: seq<Action>, k: nat)
    ensures var answers := Run(acts).answers;
            Tells(answers, k, Looked(acts, k, true), Looked(acts, k, false))
  {
    if acts == [] {
      NothingLooked(k);
    } else {
      hide Tells, Looked, LooksAgain, LooksNow, Step, Run, StackOk, BatchOk, ProducersOk, OwnersOk, OrderOk, AnswersOk;
      var before, a := acts[..|acts| - 1], acts[|acts| - 1];
      assert before + [a] == acts;
      AnswerOf(before, k);
      Always(before);
      RunSnoc(before, a);
      LookedSnoc(before, a, k, true);
      LookedSnoc(before, a, k, false);
      TellsNext(Run(before), a, k, Looked(before, k, true), Looked(before, k, false));
    }
  }

  lemma NothingLooked(k: nat)
    ensures Tells(Run([]).answers, k, Looked([], k, true), Looked([], k, false))
  {
  }

  /** The answer at place `k` goes with whether its second look found the queue closed, or open. */
  predicate Tells(answers: seq<Answer>, k: nat, refused: bool, accepted: bool) {
    if k < |answers| then
      (answers[k] == RefusedLate <==> refused) && (answers[k] == Accepted <==> accepted)
    else !refused && !accepted
  }

  lemma TellsNext(s: State, a: Action, k: nat, refused: bool, accepted: bool)
    requires AnswersOk(s) && Tells(s.answers, k, refused, accepted)
    ensures var looks := LooksNow(s, a, k);
            Tells(Step(s, a).answers, k, refused || (looks && s.closed), accepted || (looks && !s.closed))
  {
    StepAnswers(s, a, k);
    hide Step, AnswersOk, LooksNow;
  }

  /** A push that has linked its task returns false exactly when `close` lands before its second
      look, and true exactly when it does not. The place of its task in the order, and so the fact
      that a drain returns it, is settled before that look. */
  lemma RefusedAfterLinking(acts: seq<Action>, k: nat)
    requires k < |Run(acts).order|
    ensures |Run(acts).answers| == |Run(acts).order|
    ensures Run(acts).answers[k] == RefusedLate <==> Looked(acts, k, true)
    ensures Run(acts).answers[k] == Accepted <==> Looked(acts, k, false)
  {
    Always(acts);
    AnswerOf(acts, k);
  }

  lemma RunSnoc(acts: seq<Action>, a: Action)
    ensures Run(acts + [a]) == Step(Run(acts), a)
  {
    assert (acts + [a])[..|acts|] == acts;
  }

  /** Producer 0 pushes node 100, which carries task 7. */
  function Pushing(x: Producer, next: map<Addr, Addr>): State {
    Init().(owner := map[100 := Of(0)], payload := map[100 := 7], producers := map[0 := x], next := next)
  }

  lemma FirstSteps()
    ensures Step(Init(), Push(0, 100, 7)) == Pushing(CheckClosed(100), map[])
    ensures Step(Pushing(CheckClosed(100), map[]), Produce(0, false)) == Pushing(LoadHead(100), map[])
  {
  }

  lemma NextSteps()
    ensures Step(Pushing(LoadHead(100), map[]), Produce(0, false)) == Pushing(SetNext(100, 0), map[])
    ensures Step(Pushing(SetNext(100, 0), map[]), Produce(0, false)) == Pushing(Cas(100, 0), map[100 := 0])
  {
  }

  /** A push that is about to link its node. */
  lemma PreparedRun() returns (acts: seq<Action>)
    ensures Run(acts) == Pushing(Cas(100, 0), map[100 := 0])
  {
    var produce := Produce(0, false);
    assert Run([]) == Init();
    hide Run, Step, Pushing, Init;
    FirstSteps();
    NextSteps();
    RunSnoc([], Push(0, 100, 7));
    acts := [] + [Push(0, 100, 7)];
    RunSnoc(acts, produce);
    acts := acts + [produce];
    RunSnoc(acts, produce);
    acts := acts + [produce];
    RunSnoc(acts, produce);
    acts := acts + [produce];
  }

  /** A push that has linked its node and is about to look at `closed` again. */
  lemma LinkedRun() returns (acts: seq<Action>)
    ensures Run(acts) == State(100, map[100 := 0], map[100 := 7], false, map[0 := CheckAgain(0)], Away,
                               map[100 := InStack(0)], [100], [], 0, [7], [Unanswered(0)], [], [100], {})
  {
    hide Run;
    var before := PreparedRun();
    RunSnoc(before, Produce(0, false));
    acts := before + [Produce(0, false)];
    assert Payload(map[100 := 7], [100]) == [7];
  }

  // Nodes that their callers have destroyed.

  /** The list being reversed and then the shared list hold the nodes linked last, in the order of their
      compare-exchanges, which no drain has returned. */
  ghost predicate NodesOk(s: State) {
    && |s.drained| <= |s.nodes| && s.nodes[|s.drained|..] == s.batch + s.stack
    && (forall k :: k in s.destroyed ==> k < |s.nodes|)
  }

  lemma ProduceKeepsNodes(s: State, p: nat, spurious: bool)
    requires NodesOk(s)
    ensures NodesOk(ProduceStep(s, p, spurious))
  {
    hide Payload;
    if Links(s, p, spurious) {
      var node := ProducerOf(s, p).node;
      assert (s.nodes + [node])[|s.drained|..] == s.nodes[|s.drained|..] + [node];
      assert (s.batch + s.stack) + [node] == s.batch + (s.stack + [node]);
    }
  }

  lemma ReverseKeepsNodes(s: State)
    requires NodesOk(s)
    ensures NodesOk(ReverseStep(s))
  {
    if s.consumer.Reversing? && s.consumer.list == 0 {
      var t := ReverseStep(s);
      assert |t.drained| == |s.drained| + |s.batch|;
      assert s.nodes[|t.drained|..] == s.nodes[|s.drained|..][|s.batch|..] == s.stack;
    }
    hide Payload;
  }

  lemma DrainKeepsNodes(s: State)
    requires NodesOk(s) && BatchOk(s)
    ensures NodesOk(DrainStep(s))
  {
    hide LinkOk;
  }

  lemma StepKeepsNodes(s: State, a: Action)
    requires NodesOk(s) && BatchOk(s) && AnswersOk(s) && OrderOk(s)
    ensures NodesOk(Step(s, a))
  {
    assert |s.answers| == |s.nodes|;
    hide BatchOk, AnswersOk, OrderOk, ProduceStep, DrainStep, ReverseStep, Payload;
    match a
    case Produce(p, spurious) => ProduceKeepsNodes(s, p, spurious);
    case Drain => DrainKeepsNodes(s);
    case Reverse => ReverseKeepsNodes(s);
    case _ =>
  }

  lemma {:induction false} WhereNodesAre(acts: seq<Action>)
    ensures NodesOk(Run(acts))
  {
    if acts != [] {
      hide Step, NodesOk, StackOk, BatchOk, ProducersOk, OwnersOk, OrderOk, AnswersOk;
      WhereNodesAre(acts[..|acts| - 1]);
      Always(acts[..|acts| - 1]);
      StepKeepsNodes(Run(acts[..|acts| - 1]), acts[|acts| - 1]);
    }
  }

  /** Whoever follows the pointers of the two lists meets a node that its caller has destroyed. */
  ghost predicate Dangles(s: State) {
    exists i: nat :: MeetsDestroyed(s, i)
  }

  predicate MeetsDestroyed(s: State, i: nat) {
    i < |s.batch + s.stack| && IsDestroyed(s, |s.drained| + i)
  }

  predicate IsDestroyed(s: State, k: nat) {
    k in s.destroyed
  }

  /** In step `i` the caller of the push at place `k`, which was refused after linking, destroys its node. */
  predicate DestroysAt(acts: seq<Action>, i: nat, k: nat)
    requires i < |acts|
  {
    acts[i] == Destroy(k) && IsRefused(Run(acts[..i]), k)
  }

  ghost predicate DestroysSome(acts: seq<Action>, k: nat) {
    exists i: nat :: i < |acts| && DestroysAt(acts, i, k)
  }

  lemma DestroysSnoc(acts: seq<Action>, a: Action, k: nat)
    ensures DestroysSome(acts + [a], k) == (DestroysSome(acts, k) || (a == Destroy(k) && IsRefused(Run(acts), k)))
  {
    hide Run;
    var all := acts + [a];
    assert all[..|acts|] == acts;
    assert DestroysAt(all, |acts|, k) == (a == Destroy(k) && IsRefused(Run(acts), k));
    forall i: nat | i < |acts|
      ensures DestroysAt(all, i, k) == DestroysAt(acts, i, k)
    {
      assert all[..i] == acts[..i];
    }
  }

  lemma StepDestroys(s: State, a: Action, k: nat)
    ensures IsDestroyed(Step(s, a), k) == (IsDestroyed(s, k) || (a == Destroy(k) && IsRefused(s, k)))
  {
    hide Payload;
  }

  lemma {:induction false} DestroyedIff(acts: seq<Action>, k: nat)
    ensures IsDestroyed(Run(acts), k) <==> DestroysSome(acts, k)
  {
    if acts != [] {
      hide *;
      var before, a := acts[..|acts| - 1], acts[|acts| - 1];
      assert before + [a] == acts;
      DestroyedIff(before, k);
      RunSnoc(before, a);
      StepDestroys(Run(before), a, k);
      DestroysSnoc(before, a, k);
    }
  }

  /** The lists lead through a destroyed node if and only if the caller of some push that was refused after
      linking has destroyed its node, and no drain has returned that node. */
  lemma DanglesIffDestroyedBeforeReturn(acts: seq<Action>)
    ensures Dangles(Run(acts)) <==> exists k: nat :: DestroysSome(acts, k) && |Run(acts).drained| <= k
  {
    var s := Run(acts);
    WhereNodesAre(acts);
    hide Run, DestroysSome;
    if k: nat :| DestroysSome(acts, k) && |s.drained| <= k {
      DestroyedIff(acts, k);
      assert MeetsDestroyed(s, k - |s.drained|);
    }
    if i: nat :| MeetsDestroyed(s, i) {
      DestroyedIff(acts, |s.drained| + i);
    }
  }

  /** A run in which the consumer then gets the node: destroyed while it is in the list, and returned by a
      drain. */
  lemma DestroyedNodeIsDrained() returns (acts: seq<Action>)
    ensures Dangles(Run(acts)) && Run(acts).stack == [100]
    ensures IsDestroyed(Run(acts + [Drain] + [Reverse] + [Reverse]), 0)
    ensures Run(acts + [Drain] + [Reverse] + [Reverse]).drained == [7]
  {
    hide Run;
    acts := LinkedRun();
    RunSnoc(acts, Close);
    RunSnoc(acts + [Close], Produce(0, false));
    RunSnoc(acts + [Close] + [Produce(0, false)], Destroy(0));
    acts := acts + [Close] + [Produce(0, false)] + [Destroy(0)];
    assert MeetsDestroyed(Run(acts), 0);
    RunSnoc(acts, Drain);
    RunSnoc(acts + [Drain], Reverse);
    RunSnoc(acts + [Drain] + [Reverse], Reverse);
    assert Payload(map[100 := 7], [100]) == [7];
  }

  /** A refused task that is drained all the same. */
  lemma RefusedYetDrained()
    ensures exists acts :: Run(acts).answers == [RefusedLate] && Run(acts).drained == [7]
  {
    hide Run;
    var acts := LinkedRun();
    RunSnoc(acts, Close);
    RunSnoc(acts + [Close], Produce(0, false));
    acts := acts + [Close] + [Produce(0, false)];
    assert Run(acts).answers == [RefusedLate];
    RunSnoc(acts, Drain);
    RunSnoc(acts + [Drain], Reverse);
    RunSnoc(acts + [Drain] + [Reverse], Reverse);
    acts := acts + [Drain] + [Reverse] + [Reverse];
    assert Payload(map[100 := 7], [100]) == [7];
  }
}

/**
 The same queue on node objects. Other threads act between the accesses of a push: a `Turn` says
 whether the consumer took the list, which nodes other producers then linked, and whether the weak
 compare-exchange that follows fails for no reason.
*/
module IngressObject {
  class RunnableTask {
    var next: RunnableTask?

    constructor ()
    {
      next := null;
    }
  }

  datatype Turn = Turn(taken: bool, arrived: seq<RunnableTask>, spurious: bool)

  ghost predicate Distinct(nodes: seq<RunnableTask>) {
    forall i, j :: 0 <= i < j < |nodes| ==> nodes[i] != nodes[j]
  }

  function Last(nodes: seq<RunnableTask>): RunnableTask? {
    if nodes == [] then null else nodes[|nodes| - 1]
  }

  /** The nodes in the list, oldest first, after one turn of the other threads. */
  function After(nodes: seq<RunnableTask>, turn: Turn): seq<RunnableTask> {
    (if turn.taken then [] else nodes) + turn.arrived
  }

  function AfterAll(nodes: seq<RunnableTask>, turns: seq<Turn>): seq<RunnableTask> {
    if turns == [] then nodes else After(AfterAll(nodes, turns[..|turns| - 1]), turns[|turns| - 1])
  }

  ghost function Arrivals(turns: seq<Turn>): set<RunnableTask> {
    set i, node | 0 <= i < |turns| && node in turns[i].arrived :: node
  }

  /** The other producers link nodes that are theirs: not `task`, and not in the list. A node that
      was in the list before and has been taken may come again. */
  ghost predicate Fits(nodes: seq<RunnableTask>, task: RunnableTask, turns: seq<Turn>) {
    forall k :: 0 <= k <= |turns| ==>
      Distinct(AfterAll(nodes, turns[..k])) && task !in AfterAll(nodes, turns[..k])
  }

  lemma NextIsNew(before: seq<RunnableTask>, arrived: seq<RunnableTask>, i: nat)
    requires Distinct(before + arrived) && i < |arrived|
    ensures arrived[i] !in before + arrived[..i]
    ensures before + arrived[..i] + [arrived[i]] == before + arrived[..i + 1]
  {
    var all := before + arrived;
    assert all[|before| + i] == arrived[i];
    assert all[..|before| + i] == before + arrived[..i];
  }

  /** Every node points to the one before it. */
  ghost predicate Linked(nodes: seq<RunnableTask>)
    reads nodes
  {
    forall i :: 0 <= i < |nodes| ==> nodes[i].next == Last(nodes[..i])
  }

  lemma Empty()
    ensures Distinct([]) && Linked([]) && Last([]) == null
  {
  }

  /** A node that points where `head` pointed may follow the others. */
  lemma Extended(nodes: seq<RunnableTask>, node: RunnableTask)
    requires Distinct(nodes) && Linked(nodes) && node !in nodes && node.next == Last(nodes)
    ensures var all := nodes + [node]; Distinct(all) && Linked(all) && Last(all) == node
  {
    var all := nodes + [node];
    forall i | 0 <= i < |all|
      ensures all[i].next == Last(all[..i])
    {
      assert i < |nodes| ==> all[..i] == nodes[..i];
      assert i == |nodes| ==> all[..i] == nodes;
    }
  }

  lemma FitsTurn(nodes: seq<RunnableTask>, task: RunnableTask, turns: seq<Turn>, k: nat)
    requires Fits(nodes, task, turns) && k < |turns|
    ensures AfterAll(nodes, turns[..k + 1]) == After(AfterAll(nodes, turns[..k]), turns[k])
    ensures Distinct(AfterAll(nodes, turns[..k + 1])) && task !in AfterAll(nodes, turns[..k + 1])
    ensures task !in turns[k].arrived && forall node :: node in turns[k].arrived ==> node in Arrivals(turns)
  {
    hide Distinct;
    var upto := turns[..k + 1];
    assert upto[..|upto| - 1] == turns[..k] && upto[|upto| - 1] == turns[k];
    assert Distinct(AfterAll(nodes, upto)) && task !in AfterAll(nodes, upto);
  }

  lemma FitsStart(nodes: seq<RunnableTask>, task: RunnableTask, turns: seq<Turn>)
    requires Fits(nodes, task, turns)
    ensures task !in nodes && AfterAll(nodes, turns[..0]) == nodes
  {
    assert turns[..0] == [] && task !in AfterAll(nodes, turns[..0]);
  }

  /** What the list reads from position `k` on starts with. */
  function At(nodes: seq<RunnableTask>, k: nat): RunnableTask? {
    if k < |nodes| then nodes[k] else null
  }

  lemma AtIs(nodes: seq<RunnableTask>, k: nat)
    ensures At(nodes, k) == if k < |nodes| then nodes[k] else null
  {
  }

  /** The nodes that arrive before the first `k` turns. */
  function Arrived(arrivals: nat -> seq<RunnableTask>, k: nat): seq<RunnableTask> {
    if k == 0 then [] else Arrived(arrivals, k - 1) + arrivals(k - 1)
  }

  ghost function Nodes(nodes: seq<RunnableTask>): set<RunnableTask> {
    set node | node in nodes
  }

  lemma NoneArrived(arrivals: nat -> seq<RunnableTask>)
    ensures Arrived(arrivals, 0) == []
  {
  }

  lemma {:induction false} ArrivedIsPrefix(arrivals: nat -> seq<RunnableTask>, k: nat, n: nat)
    requires k <= n
    ensures Arrived(arrivals, k) <= Arrived(arrivals, n)
    decreases n
  {
    if k < n {
      ArrivedIsPrefix(arrivals, k, n - 1);
    }
  }

  lemma PrefixDistinct(nodes: seq<RunnableTask>, more: seq<RunnableTask>)
    requires Distinct(nodes + more)
    ensures Distinct(nodes)
  {
    var all := nodes + more;
    forall i, j | 0 <= i < j < |nodes|
      ensures nodes[i] != nodes[j]
    {
      assert all[i] == nodes[i] && all[j] == nodes[j];
    }
  }

  /** What arrives before one turn is new to the list, and none of what is being reversed. */
  lemma ArrivedFits(taken: seq<RunnableTask>, arrivals: nat -> seq<RunnableTask>, k: nat)
    requires k < |taken| && Distinct(taken + Arrived(arrivals, |taken|))
    ensures Arrived(arrivals, k + 1) == Arrived(arrivals, k) + arrivals(k) && Distinct(Arrived(arrivals, k + 1))
    ensures forall node :: node in arrivals(k) ==> node in Arrived(arrivals, |taken|)
    ensures forall i: nat :: i < |taken| ==> taken[i] !in Arrived(arrivals, k + 1) && taken[i] !in arrivals(k)
  {
    ArrivedIsPrefix(arrivals, k + 1, |taken|);
    var some, more := Arrived(arrivals, k + 1), Arrived(arrivals, |taken|);
    var all := taken + more;
    forall i, j | 0 <= i < j < |some|
      ensures some[i] != some[j]
    {
      assert some[i] == more[i] == all[|taken| + i] && some[j] == more[j] == all[|taken| + j];
    }
    forall node | node in some
      ensures node in more && node !in taken
    {
      var j :| 0 <= j < |some| && some[j] == node;
      assert more[j] == node == all[|taken| + j];
      assert forall i :: 0 <= i < |taken| ==> all[i] == taken[i];
    }
    assert forall node :: node in arrivals(k) ==> node in some;
  }

  lemma LinkedAt(nodes: seq<RunnableTask>)
    requires Linked(nodes)
    ensures forall i: nat :: i < |nodes| ==> nodes[i].next == Last(nodes[..i])
  {
  }

  lemma LastIs(nodes: seq<RunnableTask>, n: nat)
    requires n <= |nodes|
    ensures Last(nodes[..n]) == if n == 0 then null else nodes[n - 1]
  {
  }

  class IngressQueue {
    var head: RunnableTask?
    var closed: bool
    /** The nodes reachable from `head`, oldest first. */
    ghost var nodes: seq<RunnableTask>

    ghost predicate Valid()
      reads this, nodes
    {
      head == Last(nodes) && Distinct(nodes) && Linked(nodes)
    }

    constructor ()
      ensures Valid() && nodes == [] && !closed
    {
      head, closed, nodes := null, false, [];
    }

    method Close()
      modifies `closed
      ensures closed
    {
      closed := true;
    }

    /** What the other threads do in one turn. */
    method Others(turn: Turn)
      requires Valid() && Distinct(After(nodes, turn))
      modifies `head, `nodes, turn.arrived
      ensures Valid() && nodes == After(old(nodes), turn)
    {
      hide Distinct, Linked, Last;
      assert Distinct([]) && Linked([]) && Last([]) == null by {
        Empty();
      }
      if turn.taken {
        head, nodes := null, [];
      }
      ghost var before := nodes;
      for i := 0 to |turn.arrived|
        invariant nodes == before + turn.arrived[..i]
        invariant Valid()
      {
        NextIsNew(before, turn.arrived, i);
        Link(turn.arrived[i]);
      }
      assert turn.arrived[..|turn.arrived|] == turn.arrived;
    }

    method Link(node: RunnableTask)
      requires Valid() && node !in nodes
      modifies `head, `nodes, node
      ensures Valid() && nodes == old(nodes) + [node]
    {
      hide Distinct, Last;
      assert node !in nodes;
      node.next := head;
      head := node;
      Extended(nodes, node);
      nodes := nodes + [node];
    }

    /** Lines 7 to 11: the loop retries until no other thread has changed `head` since it was read;
        the node then goes after all that were linked before it. */
    method Exchange(task: RunnableTask, turns: seq<Turn>) returns (ghost n: nat)
      requires Valid() && Fits(nodes, task, turns)
      modifies `head, `nodes, task, Arrivals(turns)
      ensures Valid() && n <= |turns|
      ensures nodes == AfterAll(old(nodes), turns[..n]) + [task]
    {
      hide Distinct, Last, Linked, Fits, Arrivals, After, AfterAll;
      n := 0;
      FitsStart(nodes, task, turns);
      var expected := head;
      task.next := expected;
      for i := 0 to |turns|
        invariant n == i && Valid()
        invariant nodes == AfterAll(old(nodes), turns[..i])
        invariant task.next == expected == head && task !in nodes
      {
        FitsTurn(old(nodes), task, turns, i);
        Others(turns[i]);
        n := i + 1;
        if head == expected && !turns[i].spurious {
          break;
        }
        expected := head;
        task.next := expected;
      }
      Extended(nodes, task);
      head := task;
      nodes := nodes + [task];
    }

    /** `closing` says whether `close` lands before the second look at the flag. */
    method Push(task: RunnableTask?, turns: seq<Turn>, closing: bool) returns (ok: bool, ghost n: nat)
      requires Valid() && (task != null ==> Fits(nodes, task, turns))
      modifies this, task, Arrivals(turns)
      ensures Valid() && n <= |turns|
      ensures closed == (old(closed) || closing)
      ensures task == null || old(closed) ==> !ok && nodes == old(nodes)
      ensures task != null && !old(closed) ==>
                ok == !closing && nodes == AfterAll(old(nodes), turns[..n]) + [task]
    {
      hide Distinct, Last, Linked, Fits, Arrivals, AfterAll;
      var refused := task == null || closed;
      if refused {
        n := 0;
      } else {
        n := Exchange(task, turns);
      }
      if closing {
        Close();
      }
      ok := !refused && !closed;
    }

    /** The exchange takes the whole list; the loop turns its pointers around in place, while other
        producers link the nodes of `arrivals` to the list that the exchange has left empty, some before
        each turn. */
    method Drain(arrivals: nat -> seq<RunnableTask>) returns (reversed: RunnableTask?, ghost taken: seq<RunnableTask>)
      requires Valid() && Distinct(nodes + Arrived(arrivals, |nodes|))
      modifies `head, `nodes, nodes, Nodes(Arrived(arrivals, |nodes|))
      ensures Valid() && nodes == Arrived(arrivals, |taken|) && taken == old(nodes)
      ensures reversed == At(taken, 0)
      ensures forall i: nat :: i < |taken| ==> taken[i].next == At(taken, i + 1)
    {
      hide Last, At, Arrived, Linked;
      var list := head;
      taken := nodes;
      LastIs(taken, |taken|);
      AtIs(taken, |taken|);
      LinkedAt(taken);
      head, nodes := null, [];
      reversed := null;
      ghost var left := |taken|;
      var turn := 0;
      assert taken[..left] == taken;
      Empty();
      NoneArrived(arrivals);
      PrefixDistinct(taken, Arrived(arrivals, |taken|));
      while list != null
        invariant Valid() && nodes == Arrived(arrivals, turn) && Distinct(taken)
        invariant left <= |taken| && turn == |taken| - left && list == Last(taken[..left])
        invariant reversed == At(taken, left)
        invariant forall i: nat :: i < left ==> taken[i].next == Last(taken[..i])
        invariant forall i: nat :: left <= i < |taken| ==> taken[i].next == At(taken, i + 1)
        decreases left
      {
        LastIs(taken, left);
        ArrivedFits(taken, arrivals, turn);
        Others(Turn(false, arrivals(turn), false));
        turn := turn + 1;
        left := left - 1;
        AtIs(taken, left);
        assert list == taken[left] && forall i: nat :: i < |taken| && i != left ==> taken[i] != list;
        assert list !in nodes;
        var following := list.next;
        list.next := reversed;
        reversed := list;
        list := following;
      }
      LastIs(taken, left);
    }
  }
}
