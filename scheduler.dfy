/**
 * The scheduling demo: a waiting queue of processes and one CPU, driven by a
 * periodic tick that dispatches by first-come-first-served, shortest-job-first
 * or round robin (quantum 30), advances the running process by one unit, and
 * retires it once its burst is done.
 */
module SchedulerSimulator {
  import opened Text

  datatype Option<T> = None | Some(value: T)

  datatype Algorithm = Fcfs | Sjf | RoundRobin

  datatype Process = Process(name: string, burst: int, progress: int)

  const Quantum := 30
  const MinBurst := 20

  /** A process with work left: the only kind that waits or runs. */
  predicate Pending(p: Process) {
    0 <= p.progress < p.burst
  }

  predicate AllPending(q: seq<Process>) {
    forall i :: 0 <= i < |q| ==> Pending(q[i])
  }

  function Remaining(p: Process): int {
    p.burst - p.progress
  }

  /** The work left in a queue: the sum of `burst - progress`. */
  function Work(q: seq<Process>): int {
    if q == [] then 0 else Remaining(q[0]) + Work(q[1..])
  }

  /** Work is additive over concatenation. */
  lemma {:induction false} WorkAppend(a: seq<Process>, b: seq<Process>)
    ensures Work(a + b) == Work(a) + Work(b)
  {
    if a != [] {
      assert (a + b)[1..] == a[1..] + b;
      WorkAppend(a[1..], b);
    } else {
      assert a + b == b;
    }
  }

  /** Each waiting process holds at least one unit of work. */
  lemma {:induction false} WorkAtLeastLength(q: seq<Process>)
    requires AllPending(q)
    ensures Work(q) >= |q|
  {
    if q != [] {
      WorkAtLeastLength(q[1..]);
    }
  }

  /** The queue without the entry at `k`, the others in their order. */
  function RemoveAt(q: seq<Process>, k: nat): (r: seq<Process>)
    requires k < |q|
    ensures |r| == |q| - 1
    ensures forall i :: 0 <= i < k ==> r[i] == q[i]
    ensures forall i :: k <= i < |r| ==> r[i] == q[i + 1]
  {
    q[..k] + q[k + 1..]
  }

  /** Removing an entry loses that one process and no other. */
  lemma RemoveAtLosesOnlyThatProcess(q: seq<Process>, k: nat)
    requires k < |q|
    ensures multiset(RemoveAt(q, k)) + multiset{q[k]} == multiset(q)
  {
    assert q == q[..k] + [q[k]] + q[k + 1..];
  }

  /** Taking one process out of the queue takes out exactly its work. */
  lemma {:induction false} WorkRemoveAt(q: seq<Process>, k: nat)
    requires k < |q|
    ensures Work(q) == Work(RemoveAt(q, k)) + Remaining(q[k])
  {
    if k == 0 {
      assert RemoveAt(q, k) == q[1..];
    } else {
      var r := RemoveAt(q, k);
      assert r[0] == q[0] && r[1..] == RemoveAt(q[1..], k - 1);
      WorkRemoveAt(q[1..], k - 1);
    }
  }

  /**
   * The shortest job: the minimum of `burst` over the queue taken left to right,
   * an earlier entry winning a tie.
   */
  function ShortestJobIndex(q: seq<Process>): (k: nat)
    requires q != []
    ensures k < |q|
    ensures forall j :: 0 <= j < |q| ==> q[k].burst <= q[j].burst
    ensures forall j :: 0 <= j < k ==> q[j].burst > q[k].burst
  {
    if |q| == 1 then 0
    else
      var k := ShortestJobIndex(q[..|q| - 1]);
      if q[k].burst <= q[|q| - 1].burst then k else |q| - 1
  }

  /** The queue position the algorithm dispatches from: the head, or the shortest job. */
  function DispatchIndex(algo: Algorithm, q: seq<Process>): (k: nat)
    requires q != []
    ensures k < |q|
    ensures algo != Sjf ==> k == 0
  {
    if algo == Sjf then ShortestJobIndex(q) else 0
  }

  /** The name given to the next added process: "P" and the queue length after adding. */
  function NextName(q: seq<Process>): string {
    "P" + Decimal(|q| + 1)
  }

  /**
   * Adding to queues of different lengths gives different names, and the number
   * after "P" is the new length. A dispatch shortens the queue, so a later add can
   * reuse the name of a process already dispatched.
   */
  lemma NextNamesDistinct(a: seq<Process>, b: seq<Process>)
    ensures NextName(a)[0] == 'P' && DecimalValue(NextName(a)[1..]) == |a| + 1
    ensures |a| != |b| ==> NextName(a) != NextName(b)
  {
    assert NextName(a)[1..] == Decimal(|a| + 1);
    assert NextName(b)[1..] == Decimal(|b| + 1);
  }

  /** Whether a process that has just run is sent back to the tail of the queue. */
  predicate Preempted(algo: Algorithm, p: Process) {
    algo == RoundRobin && p.progress % Quantum == 0 && p.progress < p.burst
  }

  class Simulator {
    var queue: seq<Process>
    var algo: Algorithm
    var active: Option<Process>
    var running: bool

    ghost predicate Valid()
      reads this
    {
      AllPending(queue) && (active.Some? ==> Pending(active.value))
    }

    /** All work left in the system: the queue and the running process. */
    ghost function TotalWork(): int
      reads this
    {
      Work(queue) + if active.Some? then Remaining(active.value) else 0
    }

    constructor ()
      ensures Valid()
      ensures queue == [] && active == None && algo == Fcfs && !running
    {
      queue := [];
      algo := Fcfs;
      active := None;
      running := false;
    }

    /** Stops the timer, empties the queue and idles the CPU. */
    method ResetSim()
      requires Valid()
      modifies this
      ensures Valid()
      ensures queue == [] && active == None && !running && algo == old(algo)
    {
      running := false;
      queue := [];
      active := None;
    }

    /** Picking an algorithm also resets the simulation. */
    method SelectAlgorithm(a: Algorithm)
      requires Valid()
      modifies this
      ensures Valid()
      ensures algo == a && queue == [] && active == None && !running
    {
      algo := a;
      ResetSim();
    }

    /**
     * Appends a fresh process to the queue's tail. Its burst is 20 plus `draw`,
     * the random whole number in [0, 100) the game draws.
     */
    method AddRandomProcess(draw: int)
      requires Valid() && 0 <= draw < 100
      modifies this
      ensures Valid()
      ensures queue == old(queue) + [Process(NextName(old(queue)), MinBurst + draw, 0)]
      ensures active == old(active) && algo == old(algo) && running == old(running)
      ensures TotalWork() == old(TotalWork()) + MinBurst + draw
    {
      var p := Process(NextName(queue), MinBurst + draw, 0);
      WorkAppend(queue, [p]);
      queue := queue + [p];
    }

    /** Starts the periodic tick, unless it is already running. */
    method StartSim()
      requires Valid()
      modifies this
      ensures Valid()
      ensures running && queue == old(queue) && active == old(active) && algo == old(algo)
    {
      if running { return; }
      running := true;
    }

    /**
     * One tick. An idle CPU with an empty queue stops the timer and nothing else
     * changes. Otherwise an idle CPU first dispatches from the queue (the head,
     * or the shortest job under SJF), and the running process advances one unit;
     * under round robin it goes back to the tail at each multiple of 30 that
     * leaves work, and it leaves the system once its progress reaches its burst.
     * `ran` is the process that ran, as it stands after the tick.
     */
    method Tick() returns (ran: Option<Process>)
      requires Valid() && running
      modifies this
      ensures Valid()
      ensures algo == old(algo)
      ensures old(active) == None && old(queue) == [] ==>
        ran == None && !running && queue == old(queue) && active == old(active)
      ensures old(active) != None || old(queue) != [] ==>
        var p := if old(active).Some? then old(active).value
                 else old(queue)[DispatchIndex(old(algo), old(queue))];
        var rest := if old(active).Some? then old(queue)
                    else RemoveAt(old(queue), DispatchIndex(old(algo), old(queue)));
        && running
        && ran == Some(p.(progress := p.progress + 1))
        && (if Preempted(algo, ran.value) then queue == rest + [ran.value] && active == None
            else queue == rest && active == if ran.value.progress >= ran.value.burst then None else ran)
      ensures TotalWork() == old(TotalWork()) - if ran.Some? then 1 else 0
    {
      if active == None {
        if queue == [] {
          running := false;
          return None;
        }
        var k := DispatchIndex(algo, queue);
        WorkRemoveAt(queue, k);
        active := Some(queue[k]);
        queue := RemoveAt(queue, k);
      }
      var p := active.value;
      p := p.(progress := p.progress + 1);
      ran := Some(p);
      if algo == RoundRobin && p.progress % Quantum == 0 && p.progress < p.burst {
        WorkAppend(queue, [p]);
        queue := queue + [p];
        active := None;
      } else if p.progress >= p.burst {
        active := None;
      } else {
        active := Some(p);
      }
    }

    /**
     * The timer left to fire with no other input: the tick repeats until the
     * queue has drained and the CPU is idle, which it always reaches.
     */
    method RunToCompletion()
      requires Valid() && running
      modifies this
      ensures Valid()
      ensures queue == [] && active == None && !running && algo == old(algo)
    {
      while running
        invariant Valid() && algo == old(algo)
        invariant !running ==> queue == [] && active == None
        decreases TotalWork() + if running then 1 else 0
      {
        WorkAtLeastLength(queue);
        var ran := Tick();
      }
    }
  }
}
