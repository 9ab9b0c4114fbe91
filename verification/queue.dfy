/** The producer loop `enqueue_data` and the consumer side
    `multiprocess_datagen.dequeue_data` / `dequeue_batch`
    (Synthtext/gen.py:217-316), over one queue held as a sequence whose
    front is index 0. Each step is taken alone; the interleaving of several
    producers is in module Backpressure. */
module Queue {
  import opened Outcomes
  import opened Geometry
  import opened BatchWidth

  /** The seven artifacts of one sample, in the order the generator returns
      them: [i_t, i_s, t_sk, t_t, t_b, t_f, mask_t]. */
  datatype Sample = Sample(iT: Grid, iS: Grid, tSk: Grid, tT: Grid, tB: Grid, tF: Grid, maskT: Grid)

  /** The k-th entry of the generator's returned list. */
  function Artifact(s: Sample, k: nat): Grid
    requires k < 7
  {
    match k
    case 0 => s.iT
    case 1 => s.iS
    case 2 => s.tSk
    case 3 => s.tT
    case 4 => s.tB
    case 5 => s.tF
    case _ => s.maskT
  }

  /** img.shape[:2]. An image with no rows is given width 0. */
  function ImageSize(g: Grid): Size {
    Size(|g|, if |g| == 0 then 0 else |g[0]|)
  }

  // ---------------------------------------------------------------------
  // Producer

  /** The queue as one producer sees it, and its local `data`: None until
      the first generation attempt succeeds (the name is unbound until then). */
  datatype Worker = Worker(queue: seq<Sample>, data: Option<Sample>)

  datatype WorkerState =
    | Running(worker: Worker)
    | Crashed(queue: seq<Sample>)   // UnboundLocalError escaped the loop

  function QueueOf(st: WorkerState): seq<Sample> {
    match st
    case Running(w) => w.queue
    case Crashed(q) => q
  }

  /** One pass of the `while True` loop of enqueue_data. `attempt` is what
      gen_srnet_data_with_background gave: a sample, or None when it raised
      (the exception is swallowed and `data` keeps its previous value). The
      size test and the put are not atomic in the source; here they are one
      step. */
  function EnqueueStep(w: Worker, capacity: int, attempt: Option<Sample>): (st: WorkerState)
    ensures st.Crashed? <==> attempt.None? && w.data.None? && |w.queue| < capacity
    ensures st.Crashed? ==> st.queue == w.queue
    ensures attempt.Some? ==> st == Running(Worker(st.worker.queue, attempt))
    ensures capacity <= |w.queue| ==> st.Running? && st.worker.queue == w.queue
    ensures st.Running? && |w.queue| < capacity ==>
      st.worker.data.Some? && st.worker.queue == w.queue + [st.worker.data.value]
    ensures st.Running? ==> st.worker.data == (if attempt.Some? then attempt else w.data)
  {
    var data := if attempt.Some? then attempt else w.data;
    if |w.queue| < capacity then
      if data.None? then Crashed(w.queue)
      else Running(Worker(w.queue + [data.value], data))
    else
      Running(Worker(w.queue, data))
  }

  /** After a failed attempt with room in the queue, the sample of the last
      successful attempt is put a second time. */
  lemma FailedAttemptRepeatsLastSample(w: Worker, capacity: int)
    requires w.data.Some? && |w.queue| < capacity
    ensures EnqueueStep(w, capacity, None) == Running(Worker(w.queue + [w.data.value], w.data))
  {
  }

  /** A producer left alone for a sequence of attempts. */
  function Run(w: Worker, capacity: int, attempts: seq<Option<Sample>>): WorkerState
    decreases |attempts|
  {
    if |attempts| == 0 then Running(w)
    else
      match EnqueueStep(w, capacity, attempts[0])
      case Crashed(q) => Crashed(q)
      case Running(w') => Run(w', capacity, attempts[1..])
  }

  /** A producer left alone dies exactly when its very first attempt fails
      while there is room: later on `data` is bound, or the queue is full and
      stays full. */
  lemma {:induction false} RunCrashesIff(w: Worker, capacity: int, attempts: seq<Option<Sample>>)
    ensures Run(w, capacity, attempts).Crashed? <==>
      |attempts| > 0 && attempts[0].None? && w.data.None? && |w.queue| < capacity
    decreases |attempts|
  {
    if |attempts| > 0 {
      match EnqueueStep(w, capacity, attempts[0])
      case Crashed(_) =>
      case Running(w') =>
        RunCrashesIff(w', capacity, attempts[1..]);
        if |attempts| > 1 && attempts[1].None? && w'.data.None? {
          assert attempts[0].None? && w'.queue == w.queue;
        }
    }
  }

  /** The samples a producer may put: its initial `data` and the samples of
      its successful attempts. */
  ghost predicate FromAttempts(s: Sample, w: Worker, attempts: seq<Option<Sample>>) {
    w.data == Some(s) || Some(s) in attempts
  }

  /** A lone producer only appends, never puts a sample it did not generate,
      and does not push the queue past the capacity. */
  lemma {:induction false} RunAppendsWithinCapacity(w: Worker, capacity: int, attempts: seq<Option<Sample>>)
    requires |w.queue| <= capacity
    ensures var q := QueueOf(Run(w, capacity, attempts));
      && |w.queue| <= |q| <= capacity
      && q[..|w.queue|] == w.queue
      && forall i :: |w.queue| <= i < |q| ==> FromAttempts(q[i], w, attempts)
    decreases |attempts|
  {
    if |attempts| > 0 {
      match EnqueueStep(w, capacity, attempts[0])
      case Crashed(_) =>
      case Running(w') =>
        RunAppendsWithinCapacity(w', capacity, attempts[1..]);
        var q := QueueOf(Run(w, capacity, attempts));
        assert q == QueueOf(Run(w', capacity, attempts[1..]));
        assert w'.queue[..|w.queue|] == w.queue;
        assert q[..|w.queue|] == q[..|w'.queue|][..|w.queue|];
        forall i | |w.queue| <= i < |q|
          ensures FromAttempts(q[i], w, attempts)
        {
          if i < |w'.queue| {
            assert q[i] == w'.queue[i];
          } else {
            assert FromAttempts(q[i], w', attempts[1..]);
            if w'.data == Some(q[i]) {
              assert w'.data == attempts[0] || w'.data == w.data;
            } else {
              assert Some(q[i]) in attempts[1..];
            }
          }
        }
    }
  }

  /** Number of attempts that produced a sample. */
  function Successes(attempts: seq<Option<Sample>>): (n: nat)
    ensures n <= |attempts|
  {
    if |attempts| == 0 then 0
    else (if attempts[0].Some? then 1 else 0) + Successes(attempts[1..])
  }

  /** As written, a producer can put more samples than it generated: a
      success followed by a failure puts the one sample twice; and a producer
      whose first attempt fails while there is room dies. */
  lemma RunOverPutsAndCrashes(s: Sample)
    ensures Successes([Some(s), None]) == 1
    ensures Run(Worker([], None), 2, [Some(s), None]) == Running(Worker([s, s], Some(s)))
    ensures Run(Worker([], None), 1, [None]).Crashed?
  {
    var w1 := Worker([s], Some(s));
    assert EnqueueStep(Worker([], None), 2, Some(s)) == Running(w1);
    assert EnqueueStep(w1, 2, None) == Running(Worker([s, s], Some(s)));
    assert [Some(s), None][1..] == [None];
    var last: seq<Option<Sample>> := [None];
    assert last[1..] == [];
  }

  /** One pass of the loop with the put guarded by the success of the
      attempt: a failed attempt puts nothing and never reads `data`. */
  function IntendedStep(q: seq<Sample>, capacity: int, attempt: Option<Sample>): (q': seq<Sample>)
    ensures forall d: Option<Sample> :: attempt.Some? ==>
      EnqueueStep(Worker(q, d), capacity, attempt) == Running(Worker(q', attempt))
    ensures forall d: Option<Sample> :: attempt.None? && d.Some? && |q| < capacity ==>
      && q' == q
      && EnqueueStep(Worker(q, d), capacity, attempt) == Running(Worker(q' + [d.value], d))
    ensures attempt.None? ==> q' == q
    ensures attempt.None? && |q| < capacity ==>
      q' == q && EnqueueStep(Worker(q, None), capacity, attempt) == Crashed(q)
  {
    if attempt.Some? && |q| < capacity then q + [attempt.value] else q
  }

  function IntendedRun(q: seq<Sample>, capacity: int, attempts: seq<Option<Sample>>): seq<Sample>
    decreases |attempts|
  {
    if |attempts| == 0 then q
    else IntendedRun(IntendedStep(q, capacity, attempts[0]), capacity, attempts[1..])
  }

  /** With the guarded put, a producer only appends samples of its own
      successful attempts, at most one per success, and stays within the
      capacity. */
  lemma {:induction false} IntendedRunPutsEachSuccessAtMostOnce(q: seq<Sample>, capacity: int, attempts: seq<Option<Sample>>)
    requires |q| <= capacity
    ensures var q' := IntendedRun(q, capacity, attempts);
      && |q| <= |q'| <= capacity
      && q'[..|q|] == q
      && |q'| - |q| <= Successes(attempts)
      && forall i :: |q| <= i < |q'| ==> Some(q'[i]) in attempts
    decreases |attempts|
  {
    if |attempts| > 0 {
      var q1 := IntendedStep(q, capacity, attempts[0]);
      IntendedRunPutsEachSuccessAtMostOnce(q1, capacity, attempts[1..]);
      var q' := IntendedRun(q, capacity, attempts);
      assert q' == IntendedRun(q1, capacity, attempts[1..]);
      assert q'[..|q|] == q'[..|q1|][..|q|];
      forall i | |q| <= i < |q'|
        ensures Some(q'[i]) in attempts
      {
        if i < |q1| {
          assert q'[i] == q1[i] && attempts[0] == Some(q'[i]);
        } else {
          assert Some(q'[i]) in attempts[1..];
        }
      }
    }
  }

  // ---------------------------------------------------------------------
  // Consumer

  datatype Taken = Taken(sample: Sample, rest: seq<Sample>)

  /** dequeue_data: None stands for the busy-wait on an empty queue. */
  function DequeueData(q: seq<Sample>): (r: Option<Taken>)
    ensures r.Some? <==> |q| > 0
    ensures r.Some? ==> [r.value.sample] + r.value.rest == q
  {
    if |q| == 0 then None else Some(Taken(q[0], q[1..]))
  }

  /** First in, first out: a put at the back does not change what the next
      get takes, unless the queue was empty. */
  lemma DequeueAfterPut(q: seq<Sample>, s: Sample)
    ensures DequeueData(q + [s]) ==
      Some(if |q| == 0 then Taken(s, []) else Taken(q[0], q[1..] + [s]))
  {
    if |q| > 0 {
      assert (q + [s])[1..] == q[1..] + [s];
    }
  }

  /** t_b.shape[:2] of each sample. */
  function BackgroundSizes(samples: seq<Sample>): (sizes: seq<Size>)
    ensures |sizes| == |samples|
  {
    seq(|samples|, i requires 0 <= i < |samples| => ImageSize(samples[i].tB))
  }

  /** The samples put back together from the seven per-artifact lists. */
  function Regroup(lists: seq<seq<Grid>>, n: nat): seq<Sample>
    requires |lists| == 7 && forall k :: 0 <= k < 7 ==> |lists[k]| == n
  {
    seq(n, i requires 0 <= i < n =>
      Sample(lists[0][i], lists[1][i], lists[2][i], lists[3][i], lists[4][i], lists[5][i], lists[6][i]))
  }

  /** The seven lists hold the first n samples split artifact by artifact. */
  ghost predicate SplitOf(lists: seq<seq<Grid>>, q: seq<Sample>, n: nat) {
    && n <= |q|
    && |lists| == 7
    && (forall k :: 0 <= k < 7 ==> |lists[k]| == n)
    && (forall k, i :: 0 <= k < 7 && 0 <= i < n ==> lists[k][i] == Artifact(q[i], k))
  }

  /** Splitting loses nothing: regrouping gives back the drained samples. */
  lemma SplitRegroups(lists: seq<seq<Grid>>, q: seq<Sample>, n: nat)
    requires SplitOf(lists, q, n)
    ensures Regroup(lists, n) == q[..n]
  {
    forall i | 0 <= i < n
      ensures Regroup(lists, n)[i] == q[i]
    {
      assert lists[0][i] == Artifact(q[i], 0) && lists[1][i] == Artifact(q[i], 1);
      assert lists[2][i] == Artifact(q[i], 2) && lists[3][i] == Artifact(q[i], 3);
      assert lists[4][i] == Artifact(q[i], 4) && lists[5][i] == Artifact(q[i], 5);
      assert lists[6][i] == Artifact(q[i], 6);
    }
  }

  /** The `for i in range(batch_size)` loop: n gets from the front of the
      queue, each sample's artifacts appended to the seven lists. */
  method Drain(q: seq<Sample>, n: nat) returns (lists: seq<seq<Grid>>, rest: seq<Sample>)
    requires n <= |q|
    ensures SplitOf(lists, q, n)
    ensures rest == q[n..]
  {
    var iT, iS, tSk, tT, tB, tF, maskT := [], [], [], [], [], [], [];
    rest := q;
    var i := 0;
    while i < n
      invariant 0 <= i <= n
      invariant rest == q[i..]
      invariant |iT| == |iS| == |tSk| == |tT| == |tB| == |tF| == |maskT| == i
      invariant forall j :: 0 <= j < i ==> iT[j] == q[j].iT && iS[j] == q[j].iS && tSk[j] == q[j].tSk
      invariant forall j :: 0 <= j < i ==> tT[j] == q[j].tT && tB[j] == q[j].tB
      invariant forall j :: 0 <= j < i ==> tF[j] == q[j].tF && maskT[j] == q[j].maskT
    {
      var taken := DequeueData(rest);
      var s := taken.value.sample;
      assert s == q[i];
      rest := taken.value.rest;
      iT, iS, tSk, tT := iT + [s.iT], iS + [s.iS], tSk + [s.tSk], tT + [s.tT];
      tB, tF, maskT := tB + [s.tB], tF + [s.tF], maskT + [s.maskT];
      i := i + 1;
    }
    lists := [iT, iS, tSk, tT, tB, tF, maskT];
  }

  /** cv2.resize rejects an input image with a zero side. */
  predicate IsEmptyImage(g: Grid) {
    ImageSize(g).h == 0 || ImageSize(g).w == 0
  }

  /** Some artifact of some sample is an empty image. */
  predicate HasEmptyArtifact(ss: seq<Sample>) {
    exists i, k :: 0 <= i < |ss| && 0 <= k < 7 && IsEmptyImage(Artifact(ss[i], k))
  }

  datatype BatchOutcome =
    | Waiting                                           // qsize() < batch_size: busy-wait
    | Raised(error: Error, rest: seq<Sample>)           // an exception, with the queue it leaves
    | Batch(lists: seq<seq<Grid>>, size: Size, rest: seq<Sample>)

  /** dequeue_batch up to the pixel work of the resize: waits for batch_size
      samples, drains them one by one, splits them into seven lists in the
      order i_t, i_s, t_sk, t_t, t_b, t_f, mask_t, and computes the common
      size every list is then resized to. cv2.resize rejects a target or an
      input image with a zero side, so a zero to_w, a requested height of 0
      or an empty drained artifact raises in the resize loop, after the
      drain. */
  method DequeueBatch(q: seq<Sample>, batchSize: int, height: nat) returns (o: BatchOutcome)
    ensures o.Waiting? <==> 0 < batchSize && |q| < batchSize
    ensures batchSize <= 0 ==> o == Raised(if batchSize == 0 then DivisionByZero else EmptyStack, q)
    ensures 0 < batchSize <= |q| ==>
      var sizes := BackgroundSizes(q[..batchSize]);
      (o.Batch? <==>
         && AllPositiveHeights(sizes) && 0 < height && 0 < CommonBatchSize(sizes, height).value.w
         && !HasEmptyArtifact(q[..batchSize]))
    ensures 0 < batchSize <= |q| ==>
      var sizes := BackgroundSizes(q[..batchSize]);
      && (!AllPositiveHeights(sizes) <==> o == Raised(DivisionByZero, q[batchSize..]))
      && (AllPositiveHeights(sizes) ==>
            var size := CommonBatchSize(sizes, height).value;
            (size.w == 0 || size.h == 0 || HasEmptyArtifact(q[..batchSize]))
              <==> o == Raised(EmptyResize, q[batchSize..]))
    ensures o.Batch? ==>
      && 0 < batchSize <= |q|
      && o.rest == q[batchSize..]
      && SplitOf(o.lists, q, batchSize)
      && Regroup(o.lists, batchSize) == q[..batchSize]
      && o.size == CommonBatchSize(BackgroundSizes(q[..batchSize]), height).value
      && o.size.h == height && 0 < o.size.h
      && 0 < o.size.w && o.size.w % 8 == 0
      && !HasEmptyArtifact(q[..batchSize])
  {
    if batchSize <= 0 {
      // the wait and the drain are skipped; w_sum // 0 or np.stack([]) raises
      return Raised(if batchSize == 0 then DivisionByZero else EmptyStack, q);
    }
    if |q| < batchSize {
      return Waiting;
    }
    var lists, rest := Drain(q, batchSize);
    SplitRegroups(lists, q, batchSize);
    var tB := lists[4];
    var sizes := seq(batchSize, j requires 0 <= j < batchSize => ImageSize(tB[j]));
    assert sizes == BackgroundSizes(q[..batchSize]) by {
      assert forall j :: 0 <= j < batchSize ==> tB[j] == q[j].tB == q[..batchSize][j].tB;
    }
    var size := ComputeBatchSize(sizes, height);
    match size
    case Err(e) =>
      o := Raised(e, rest);
    case Ok(sz) =>
      if sz.w == 0 || sz.h == 0 || HasEmptyArtifact(q[..batchSize]) {
        // an empty target size or an empty drained artifact
        o := Raised(EmptyResize, rest);
      } else {
        o := Batch(lists, sz, rest);
      }
  }
}
