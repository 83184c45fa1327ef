/**
 The choice of a worker in `src/load_balancer.cpp`, over exact real numbers. A measured load may be no
 number at all, or infinite; the configuration is checked before every choice.
*/
module LoadBalancer {
  import opened Wrappers

  const UINT64 := 0x1_0000_0000_0000_0000

  datatype Load = Finite(value: real) | PlusInfinity | MinusInfinity | NotANumber

  datatype Snapshot = Snapshot(queueDepth: nat, cpu: Load, completed: nat, wait: int)

  datatype Strategy = RoundRobin | LeastLoad | AffinityFirst | Adaptive

  datatype Config = Config(
    strategy: Strategy,
    metricsInterval: int,
    stackInitial: nat,
    stackMax: nat,
    affinityMaxLoad: real,
    overload: real,
    idle: real,
    queueWeight: real,
    cpuWeight: real,
    waitWeight: real,
    historyWeight: real,
    affinityBonus: real)

  datatype Selection = Selected(worker: nat) | EmptySnapshot | InvalidConfiguration

  predicate Unit(x: real) {
    0.0 <= x <= 1.0
  }

  function WeightSum(c: Config): real {
    c.queueWeight + c.cpuWeight + c.waitWeight + c.historyWeight
  }

  predicate IsValid(c: Config) {
    && c.metricsInterval > 0
    && 16 * 1024 <= c.stackInitial <= c.stackMax
    && Unit(c.affinityMaxLoad) && Unit(c.overload) && Unit(c.idle) && Unit(c.queueWeight) && Unit(c.cpuWeight)
    && Unit(c.waitWeight) && Unit(c.historyWeight) && Unit(c.affinityBonus)
    && -0.000000001 <= WeightSum(c) - 1.0 <= 0.000000001
    && c.idle <= c.overload
  }

  function Bounded(x: Load): (r: real)
    ensures Unit(r)
  {
    if !x.Finite? then 1.0 else if x.value < 0.0 then 0.0 else if x.value > 1.0 then 1.0 else x.value
  }

  function Share(part: int, whole: int): (r: real)
    ensures Unit(r)
  {
    if whole == 0 then 0.0 else Bounded(Finite(part as real / whole as real))
  }

  function History(completed: nat): (r: real)
    ensures Unit(r)
  {
    if completed == 0 then 0.0 else Bounded(Finite(1.0 / (1.0 + completed as real)))
  }

  function Score(w: Snapshot, c: Config, maxQueue: nat, maxWait: int): real {
    Weigh(c.queueWeight, Share(w.queueDepth, maxQueue)) + Weigh(c.cpuWeight, Bounded(w.cpu))
    + Weigh(c.waitWeight, Share(w.wait, maxWait)) + Weigh(c.historyWeight, History(w.completed))
  }

  function Weigh(weight: real, x: real): real {
    weight * x
  }

  lemma Weighted(weight: real, x: real)
    requires weight >= 0.0 && Unit(x)
    ensures 0.0 <= Weigh(weight, x) <= weight
  {
    assert weight * x <= weight * 1.0;
  }

  /** Scores lie between zero and the sum of the weights. */
  lemma ScoreIsBounded(w: Snapshot, c: Config, maxQueue: nat, maxWait: int)
    requires IsValid(c)
    ensures 0.0 <= Score(w, c, maxQueue, maxWait) <= WeightSum(c)
  {
    hide Weigh, Share, Bounded, History;
    Weighted(c.queueWeight, Share(w.queueDepth, maxQueue));
    Weighted(c.cpuWeight, Bounded(w.cpu));
    Weighted(c.waitWeight, Share(w.wait, maxWait));
    Weighted(c.historyWeight, History(w.completed));
  }

  lemma WeighsMore(weight: real, x: real, y: real)
    requires weight > 0.0 && x < y
    ensures Weigh(weight, x) < Weigh(weight, y)
  {
    assert weight * (y - x) > 0.0;
  }

  lemma LargerShare(part: int, more: int, whole: int)
    requires 0 <= part < more <= whole
    ensures Share(part, whole) < Share(more, whole)
  {
    var p, m, w := part as real, more as real, whole as real;
    Quotients(p, m, w);
  }

  lemma Quotients(p: real, m: real, w: real)
    requires 0.0 <= p < m <= w
    ensures 0.0 <= p / w < m / w <= 1.0
  {
    assert (m / w - p / w) * w == m - p;
    Positive(m / w - p / w, w);
    assert (1.0 - m / w) * w == w - m;
    NotNegative(1.0 - m / w, w);
    assert p / w * w == p;
    NotNegative(p / w, w);
  }

  lemma Positive(q: real, w: real)
    requires w > 0.0 && q * w > 0.0
    ensures q > 0.0
  {
  }

  lemma NotNegative(q: real, w: real)
    requires w > 0.0 && q * w >= 0.0
    ensures q >= 0.0
  {
  }

  /** A longer queue, a busier processor and a longer wait each give a higher score by their own weight. */
  lemma MoreLoadScoresHigher(w: Snapshot, c: Config, maxQueue: nat, maxWait: int)
    ensures forall more: nat :: c.queueWeight > 0.0 && w.queueDepth < more <= maxQueue ==>
              Score(w, c, maxQueue, maxWait) < Score(w.(queueDepth := more), c, maxQueue, maxWait)
    ensures forall more: int :: c.waitWeight > 0.0 && 0 <= w.wait < more <= maxWait ==>
              Score(w, c, maxQueue, maxWait) < Score(w.(wait := more), c, maxQueue, maxWait)
    ensures forall x, y :: c.cpuWeight > 0.0 && 0.0 <= x < y <= 1.0 ==>
              Score(w.(cpu := Finite(x)), c, maxQueue, maxWait) < Score(w.(cpu := Finite(y)), c, maxQueue, maxWait)
  {
    hide Weigh, Share, History;
    forall more: nat | c.queueWeight > 0.0 && w.queueDepth < more <= maxQueue
      ensures Score(w, c, maxQueue, maxWait) < Score(w.(queueDepth := more), c, maxQueue, maxWait)
    {
      LargerShare(w.queueDepth, more, maxQueue);
      WeighsMore(c.queueWeight, Share(w.queueDepth, maxQueue), Share(more, maxQueue));
    }
    forall more: int | c.waitWeight > 0.0 && 0 <= w.wait < more <= maxWait
      ensures Score(w, c, maxQueue, maxWait) < Score(w.(wait := more), c, maxQueue, maxWait)
    {
      LargerShare(w.wait, more, maxWait);
      WeighsMore(c.waitWeight, Share(w.wait, maxWait), Share(more, maxWait));
    }
    forall x, y | c.cpuWeight > 0.0 && 0.0 <= x < y <= 1.0
      ensures Score(w.(cpu := Finite(x)), c, maxQueue, maxWait) < Score(w.(cpu := Finite(y)), c, maxQueue, maxWait)
    {
      WeighsMore(c.cpuWeight, x, y);
    }
  }

  lemma SmallerFraction(few: nat, many: nat)
    requires 0 < few < many
    ensures 0.0 < 1.0 / (1.0 + many as real) < 1.0 / (1.0 + few as real) <= 1.0
  {
    var f, m := 1.0 + few as real, 1.0 + many as real;
    assert 1.0 / m * m == 1.0;
    Positive(1.0 / m, m);
    assert (1.0 - 1.0 / f) * f == f - 1.0;
    NotNegative(1.0 - 1.0 / f, f);
    Differ(f, m);
    Positive(1.0 / f - 1.0 / m, f * m);
  }

  lemma Differ(f: real, m: real)
    requires 0.0 < f < m
    ensures f * m > 0.0 && (1.0 / f - 1.0 / m) * (f * m) > 0.0
  {
    assert 1.0 / f * (f * m) == m;
    assert 1.0 / m * (f * m) == f;
  }

  /** A worker that has completed more tasks scores lower, but one that has completed none the lowest. */
  lemma HistoryScores(w: Snapshot, c: Config, maxQueue: nat, maxWait: int, few: nat, many: nat)
    requires c.historyWeight > 0.0 && 0 < few < many
    ensures Score(w.(completed := many), c, maxQueue, maxWait) < Score(w.(completed := few), c, maxQueue, maxWait)
    ensures Score(w.(completed := 0), c, maxQueue, maxWait) < Score(w.(completed := many), c, maxQueue, maxWait)
  {
    SmallerFraction(few, many);
    WeighsMore(c.historyWeight, History(many), History(few));
    WeighsMore(c.historyWeight, 0.0, History(many));
    hide Weigh, Share, Bounded;
  }

  /** A load that is no number or infinite counts as full, and one outside the unit interval as its nearer end. */
  lemma StrangeLoads(w: Snapshot, c: Config, maxQueue: nat, maxWait: int)
    ensures !w.cpu.Finite? ==>
              Score(w, c, maxQueue, maxWait) == Score(w.(cpu := Finite(1.0)), c, maxQueue, maxWait)
    ensures w.cpu.Finite? && w.cpu.value > 1.0 ==>
              Score(w, c, maxQueue, maxWait) == Score(w.(cpu := Finite(1.0)), c, maxQueue, maxWait)
    ensures w.cpu.Finite? && w.cpu.value < 0.0 ==>
              Score(w, c, maxQueue, maxWait) == Score(w.(cpu := Finite(0.0)), c, maxQueue, maxWait)
  {
    hide Weigh, Share, History;
  }

  predicate AtMost(x: Load, limit: real) {
    match x
    case Finite(v) => v <= limit
    case MinusInfinity => true
    case _ => false
  }

  predicate AffinityUsable(s: seq<Snapshot>, c: Config, affinity: Option<nat>) {
    affinity.Some? && affinity.value < |s| && AtMost(s[affinity.value].cpu, c.affinityMaxLoad)
  }

  function MaxQueue(s: seq<Snapshot>): nat {
    if s == [] then 0
    else
      var m := MaxQueue(s[..|s| - 1]);
      if s[|s| - 1].queueDepth > m then s[|s| - 1].queueDepth else m
  }

  function MaxWait(s: seq<Snapshot>): int {
    if s == [] then 0
    else
      var m := MaxWait(s[..|s| - 1]);
      if s[|s| - 1].wait > m then s[|s| - 1].wait else m
  }

  /** Shares are measured against the longest queue and the longest wait: no worker exceeds them, and
      some worker reaches the one, if it is not zero. */
  lemma {:induction false} MaximaAreReached(s: seq<Snapshot>)
    ensures forall w :: w in s ==> w.queueDepth <= MaxQueue(s) && w.wait <= MaxWait(s)
    ensures MaxQueue(s) > 0 ==> exists w :: w in s && w.queueDepth == MaxQueue(s)
    ensures MaxWait(s) >= 0 && (MaxWait(s) > 0 ==> exists w :: w in s && w.wait == MaxWait(s))
  {
    if s != [] {
      MaximaAreReached(s[..|s| - 1]);
      assert s[|s| - 1] in s;
    }
  }

  /** The first worker with the least score. */
  ghost predicate IsLeastLoaded(s: seq<Snapshot>, c: Config, worker: nat) {
    && worker < |s|
    && (forall i :: 0 <= i < |s| ==>
          Score(s[worker], c, MaxQueue(s), MaxWait(s)) <= Score(s[i], c, MaxQueue(s), MaxWait(s)))
    && (forall i :: 0 <= i < worker ==>
          Score(s[worker], c, MaxQueue(s), MaxWait(s)) < Score(s[i], c, MaxQueue(s), MaxWait(s)))
  }

  /** What the adaptive strategy compares: neither the queue nor the wait of a worker counts. */
  function Adjusted(s: seq<Snapshot>, c: Config, affinity: Option<nat>, i: nat): real
    requires i < |s|
  {
    Weigh(c.cpuWeight, Bounded(s[i].cpu)) + Weigh(c.historyWeight, History(s[i].completed))
    - (if affinity == Some(i) && AtMost(s[i].cpu, c.affinityMaxLoad) then c.affinityBonus else 0.0)
  }

  /** The choice starts from worker `first`, whose score counts without the bonus, and goes on to the first worker
      that is better than all before it and at least as good as all after it. */
  ghost predicate IsAdaptiveChoice(s: seq<Snapshot>, c: Config, affinity: Option<nat>, first: nat, selected: nat) {
    && first < |s| && selected < |s|
    && (forall i :: 0 <= i < |s| ==> Adjusted(s, c, affinity, selected) <= Adjusted(s, c, affinity, i))
    && if forall i :: 0 <= i < |s| ==> Score(s[first], c, 0, 0) <= Adjusted(s, c, affinity, i) then selected == first
       else forall i :: 0 <= i < selected ==> Adjusted(s, c, affinity, selected) < Adjusted(s, c, affinity, i)
  }

  lemma ScoreWithoutMaxima(w: Snapshot, c: Config)
    ensures Score(w, c, 0, 0) == Weigh(c.cpuWeight, Bounded(w.cpu)) + Weigh(c.historyWeight, History(w.completed))
  {
    WeighNothing(c.queueWeight);
    WeighNothing(c.waitWeight);
    hide Weigh, Bounded, History;
  }

  /** What the adaptive strategy compares: the score without queues and waits, less the bonus for the worker that
      is asked for and is not too busy. */
  lemma AdjustedIs(s: seq<Snapshot>, c: Config, affinity: Option<nat>, i: nat)
    requires i < |s|
    ensures Adjusted(s, c, affinity, i) ==
              Score(s[i], c, 0, 0) -
              if affinity == Some(i) && (match s[i].cpu
                                         case Finite(v) => v <= c.affinityMaxLoad
                                         case MinusInfinity => true
                                         case _ => false)
              then c.affinityBonus else 0.0
  {
    ScoreWithoutMaxima(s[i], c);
    hide Weigh, Score, Bounded, History;
  }

  lemma WeighNothing(weight: real)
    ensures Weigh(weight, 0.0) == 0.0
  {
  }

  lemma LeastIsOne(s: seq<Snapshot>, c: Config, worker: nat)
    requires IsLeastLoaded(s, c, worker)
    ensures worker < |s|
  {
  }

  class Balancer {
    var config: Config
    /** An unsigned 64-bit counter. */
    var roundRobinIndex: nat

    constructor (config: Config)
      ensures this.config == config && roundRobinIndex == 0
    {
      this.config, roundRobinIndex := config, 0;
    }

    method Update(config: Config)
      modifies `config
      ensures this.config == config
    {
      this.config := config;
    }

    method LeastLoaded(s: seq<Snapshot>) returns (selected: nat)
      requires s != [] && IsValid(config)
      ensures IsLeastLoaded(s, config, selected)
    {
      hide Score;
      var maxQueue, maxWait := 0, 0;
      for i := 0 to |s|
        invariant maxQueue == MaxQueue(s[..i]) && maxWait == MaxWait(s[..i])
      {
        assert s[..i + 1][..i] == s[..i];
        maxQueue := if s[i].queueDepth > maxQueue then s[i].queueDepth else maxQueue;
        maxWait := if s[i].wait > maxWait then s[i].wait else maxWait;
      }
      assert s[..|s|] == s;
      selected := 0;
      var best: Option<real> := None;
      for i := 0 to |s|
        invariant best.None? <==> i == 0
        invariant best.Some? ==> selected < i && best.value == Score(s[selected], config, maxQueue, maxWait)
        invariant best.Some? ==> forall j :: 0 <= j < i ==> best.value <= Score(s[j], config, maxQueue, maxWait)
        invariant best.Some? ==> forall j :: 0 <= j < selected ==> best.value < Score(s[j], config, maxQueue, maxWait)
      {
        var current := Score(s[i], config, maxQueue, maxWait);
        if best.None? || current < best.value {
          best, selected := Some(current), i;
        }
      }
    }

    /** Adaptive selection: the choice starts from the least loaded worker, whose score counts queues
        and waits, and goes on with scores that do not. */
    method SelectAdaptive(s: seq<Snapshot>, affinity: Option<nat>) returns (selected: nat)
      requires s != [] && IsValid(config)
      ensures selected < |s|
      ensures forall i :: 0 <= i < |s| ==> Adjusted(s, config, affinity, selected) <= Adjusted(s, config, affinity, i)
      ensures exists first ::
                IsLeastLoaded(s, config, first) && IsAdaptiveChoice(s, config, affinity, first, selected)
    {
      hide Weigh, Bounded, History, Share, Score, IsLeastLoaded;
      selected := LeastLoaded(s);
      ghost var first := selected;
      assert first < |s| by {
        LeastIsOne(s, config, first);
      }
      ScoreWithoutMaxima(s[selected], config);
      var best := Score(s[selected], config, 0, 0);
      for i := 0 to |s|
        invariant selected < |s| && Adjusted(s, config, affinity, selected) <= best <= Score(s[first], config, 0, 0)
        invariant best == Score(s[first], config, 0, 0) ==> selected == first
        invariant best < Score(s[first], config, 0, 0) ==>
                    selected < i && best == Adjusted(s, config, affinity, selected)
        invariant best < Score(s[first], config, 0, 0) ==>
                    forall j :: 0 <= j < selected ==> best < Adjusted(s, config, affinity, j)
        invariant forall j :: 0 <= j < i ==> best <= Adjusted(s, config, affinity, j)
      {
        ScoreWithoutMaxima(s[i], config);
        var current := Score(s[i], config, 0, 0);
        if affinity == Some(i) && AtMost(s[i].cpu, config.affinityMaxLoad) {
          current := current - config.affinityBonus;
        }
        if current < best {
          best, selected := current, i;
        }
      }
    }

    method Select(s: seq<Snapshot>, affinity: Option<nat>) returns (selection: Selection)
      requires roundRobinIndex < UINT64
      modifies `roundRobinIndex
      ensures selection.EmptySnapshot? <==> s == []
      ensures selection.InvalidConfiguration? <==> s != [] && !IsValid(config)
      ensures selection.Selected? ==> selection.worker < |s|
      ensures selection.Selected? && config.strategy.RoundRobin? ==>
                selection.worker == old(roundRobinIndex) % |s| && roundRobinIndex == (old(roundRobinIndex) + 1) % UINT64
      ensures !(selection.Selected? && config.strategy.RoundRobin?) ==> roundRobinIndex == old(roundRobinIndex)
      ensures selection.Selected? && config.strategy.LeastLoad? ==> IsLeastLoaded(s, config, selection.worker)
      ensures selection.Selected? && config.strategy.AffinityFirst? ==>
                if affinity.Some? && affinity.value < |s|
                   && (match s[affinity.value].cpu
                       case Finite(v) => v <= config.affinityMaxLoad
                       case MinusInfinity => true
                       case _ => false)
                then selection.worker == affinity.value
                else IsLeastLoaded(s, config, selection.worker)
      ensures selection.Selected? && config.strategy.Adaptive? ==>
                && (forall i :: 0 <= i < |s| ==>
                      Adjusted(s, config, affinity, selection.worker) <= Adjusted(s, config, affinity, i))
                && exists first ::
                     IsLeastLoaded(s, config, first) && IsAdaptiveChoice(s, config, affinity, first, selection.worker)
    {
      if s == [] {
        return EmptySnapshot;
      }
      if !IsValid(config) {
        return InvalidConfiguration;
      }
      var worker: nat;
      match config.strategy
      case RoundRobin => {
        worker := roundRobinIndex % |s|;
        roundRobinIndex := (roundRobinIndex + 1) % UINT64;
        return Selected(worker);
      }
      case LeastLoad => {
        worker := LeastLoaded(s);
        return Selected(worker);
      }
      case AffinityFirst => {
        if AffinityUsable(s, config, affinity) {
          return Selected(affinity.value);
        }
        worker := LeastLoaded(s);
        return Selected(worker);
      }
      case Adaptive => {
        worker := SelectAdaptive(s, affinity);
        return Selected(worker);
      }
    }
  }

  // Round robin over a fixed number of workers. The selections are ordered by their fetch_add.

  /** How many of the first `k` selections choose `worker` out of `n`. */
  function Chosen(k: nat, n: nat, worker: nat): nat
    requires n > 0
  {
    if k == 0 then 0 else Chosen(k - 1, n, worker) + if (k - 1) % UINT64 % n == worker then 1 else 0
  }

  /** The numbers below `k` that leave remainder `worker`. */
  lemma {:induction false} ChosenIs(k: nat, n: nat, worker: nat)
    requires worker < n && k <= UINT64
    ensures Chosen(k, n, worker) == Rounds(k, n) + if worker < Remainder(k, n) then 1 else 0
  {
    if k > 0 {
      hide Chosen, Rounds, Remainder;
      ChosenIs(k - 1, n, worker);
      NextQuotient(k - 1, n);
      ChosenStep(k, n, worker);
    }
  }

  function Rounds(k: nat, n: nat): nat
    requires n > 0
  {
    k / n
  }

  function Remainder(k: nat, n: nat): (r: nat)
    requires n > 0
    ensures r < n
  {
    k % n
  }

  lemma ChosenStep(k: nat, n: nat, worker: nat)
    requires 0 < k <= UINT64 && n > 0
    ensures Chosen(k, n, worker) == Chosen(k - 1, n, worker) + if Remainder(k - 1, n) == worker then 1 else 0
  {
    assert (k - 1) % UINT64 == k - 1 by {
      Below(k - 1);
    }
  }

  lemma Below(k: nat)
    requires k < UINT64
    ensures k % UINT64 == k
  {
  }

  lemma NextQuotient(k: nat, n: nat)
    requires n > 0
    ensures var m := Remainder(k, n);
            && Rounds(k + 1, n) == Rounds(k, n) + (if m == n - 1 then 1 else 0)
            && Remainder(k + 1, n) == if m == n - 1 then 0 else m + 1
  {
    var q, m := k / n, k % n;
    assert k + 1 == q * n + (m + 1);
    if m == n - 1 {
      assert k + 1 == (q + 1) * n;
      Quotient(k + 1, n, q + 1, 0);
    } else {
      Quotient(k + 1, n, q, m + 1);
    }
  }

  lemma Quotient(k: nat, n: nat, q: nat, m: nat)
    requires k == q * n + m && m < n
    ensures k / n == q && k % n == m
  {
    var p, r := k / n, k % n;
    assert (p - q) * n == m - r;
    Multiple(p - q, n);
  }

  lemma Multiple(d: int, n: nat)
    requires n > 0
    ensures d >= 1 ==> d * n >= n
    ensures d <= -1 ==> d * n + n <= 0
    ensures d == 0 ==> d * n == 0
  {
  }

  /** Between two values of the counter, without a wrap-around, no worker is chosen more than once more
      often than another. */
  lemma RoundRobinIsFair(from: nat, to: nat, n: nat, a: nat, b: nat)
    requires from <= to <= UINT64 && a < n && b < n
    ensures Chosen(to, n, a) - Chosen(from, n, a) <= Chosen(to, n, b) - Chosen(from, n, b) + 1
  {
    hide Chosen, Rounds, Remainder;
    ChosenIs(from, n, a);
    ChosenIs(from, n, b);
    ChosenIs(to, n, a);
    ChosenIs(to, n, b);
  }
}
