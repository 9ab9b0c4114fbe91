/** The advisory capacity test of enqueue_data under several producers
    (Synthtext/gen.py:217-227, 240-244). A producer's `qsize() < capacity`
    test and its `put` are separate steps, so other producers and the
    consumer can act between them; only the queue's length matters here. */
module Backpressure {

  /** Where one producer stands: generating (or about to test the size), or
      past a successful size test with its `put` still to come. */
  datatype Phase = Generating | Admitted

  datatype Shared = Shared(size: nat, phases: seq<Phase>)

  datatype Event =
    | Check(worker: nat)   // the producer tests qsize() < capacity
    | Put(worker: nat)     // the producer's queue.put(data)
    | Take                 // the consumer's queue.get()

  function CountAdmitted(ps: seq<Phase>): (c: nat)
    ensures c <= |ps|
  {
    if |ps| == 0 then 0
    else CountAdmitted(ps[..|ps| - 1]) + (if ps[|ps| - 1] == Admitted then 1 else 0)
  }

  lemma {:induction false} CountAdmittedUpdate(ps: seq<Phase>, i: nat, p: Phase)
    requires i < |ps|
    ensures CountAdmitted(ps[i := p]) ==
      CountAdmitted(ps) - (if ps[i] == Admitted then 1 else 0) + (if p == Admitted then 1 else 0)
    decreases |ps|
  {
    var last := |ps| - 1;
    if i < last {
      CountAdmittedUpdate(ps[..last], i, p);
      assert ps[i := p][..last] == ps[..last][i := p];
    } else {
      assert ps[i := p][..last] == ps[..last];
    }
  }

  /** One event; an event whose producer is not in the right phase (or a
      get on an empty queue) changes nothing. A failed size test drops the
      sample and the producer goes on generating. */
  function Step(s: Shared, capacity: int, e: Event): (s': Shared)
    ensures |s'.phases| == |s.phases|
    ensures e.Check? && s' != s ==> s.size < capacity
    ensures s'.size > s.size ==> e.Put? && e.worker < |s.phases| && s.phases[e.worker] == Admitted
  {
    match e
    case Check(i) =>
      if i < |s.phases| && s.phases[i] == Generating && s.size < capacity
      then Shared(s.size, s.phases[i := Admitted])
      else s
    case Put(i) =>
      if i < |s.phases| && s.phases[i] == Admitted
      then Shared(s.size + 1, s.phases[i := Generating])
      else s
    case Take =>
      if s.size > 0 then Shared(s.size - 1, s.phases) else s
  }

  function Run(s: Shared, capacity: int, events: seq<Event>): (s': Shared)
    ensures |s'.phases| == |s.phases|
    decreases |events|
  {
    if |events| == 0 then s else Run(Step(s, capacity, events[0]), capacity, events[1..])
  }

  /** capacity + workers - 1, the most items the queue can reach. */
  function Bound(capacity: int, workers: nat): nat {
    if capacity + workers - 1 > 0 then capacity + workers - 1 else 0
  }

  /** The queued items plus the puts still in flight stay within the bound. */
  ghost predicate Within(s: Shared, capacity: int) {
    s.size + CountAdmitted(s.phases) <= Bound(capacity, |s.phases|)
  }

  lemma StepKeepsWithin(s: Shared, capacity: int, e: Event)
    requires Within(s, capacity)
    ensures Within(Step(s, capacity, e), capacity)
  {
    match e
    case Check(i) =>
      if i < |s.phases| && s.phases[i] == Generating && s.size < capacity {
        CountAdmittedUpdate(s.phases, i, Admitted);
        CountAdmittedUpdate(s.phases[i := Admitted], i, Generating);
        assert s.phases[i := Admitted][i := Generating] == s.phases;
      }
    case Put(i) =>
      if i < |s.phases| && s.phases[i] == Admitted {
        CountAdmittedUpdate(s.phases, i, Generating);
      }
    case Take =>
  }

  lemma {:induction false} RunKeepsWithin(s: Shared, capacity: int, events: seq<Event>)
    requires Within(s, capacity)
    ensures Within(Run(s, capacity, events), capacity)
    decreases |events|
  {
    if |events| > 0 {
      StepKeepsWithin(s, capacity, events[0]);
      RunKeepsWithin(Step(s, capacity, events[0]), capacity, events[1..]);
    }
  }

  function Idle(n: nat): (ps: seq<Phase>)
    ensures |ps| == n && CountAdmitted(ps) == 0
  {
    if n == 0 then [] else
      var ps := Idle(n - 1) + [Generating];
      assert ps[..n - 1] == Idle(n - 1);
      ps
  }

  /** From an empty queue, whatever the interleaving, the queue never holds
      more than capacity + workers - 1 samples. */
  lemma QueueSizeBound(capacity: int, workers: nat, events: seq<Event>)
    ensures Run(Shared(0, Idle(workers)), capacity, events).size <= Bound(capacity, workers)
  {
    RunKeepsWithin(Shared(0, Idle(workers)), capacity, events);
  }

  /** The bound is reached: with capacity 2 and three producers that all
      pass the test at size 1, the queue ends at 4. */
  lemma QueueSizeBoundReached()
    ensures Run(Shared(0, Idle(3)), 2, [Check(0), Put(0), Check(0), Check(1), Check(2), Put(0), Put(1), Put(2)]).size == 4
  {
    var e := [Check(0), Put(0), Check(0), Check(1), Check(2), Put(0), Put(1), Put(2)];
    var s0 := Shared(0, Idle(3));
    assert s0.phases == [Generating, Generating, Generating];
    var s1 := Step(s0, 2, Check(0));
    var s2 := Step(s1, 2, Put(0));
    var s3 := Step(s2, 2, Check(0));
    var s4 := Step(s3, 2, Check(1));
    var s5 := Step(s4, 2, Check(2));
    var s6 := Step(s5, 2, Put(0));
    var s7 := Step(s6, 2, Put(1));
    var s8 := Step(s7, 2, Put(2));
    assert s8.size == 4;
    assert e[1..][1..][1..][1..][1..][1..][1..][1..] == [];
    assert Run(s0, 2, e) == Run(s8, 2, []);
  }
}
