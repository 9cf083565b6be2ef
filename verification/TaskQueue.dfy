/** The leased in-memory task queue, and the reconcile workers that live on it. */
module TaskQueue {
  import opened Outcomes

  type Key = (string, string)

  // -------------------------------------------------------------------- queue

  datatype Queue = Queue(ready: seq<Key>, pending: set<Key>, leased: set<Key>)

  function Enqueued(q: Queue, k: Key): Queue {
    if k in q.pending then q else q.(pending := q.pending + {k}, ready := q.ready + [k])
  }

  function Dequeued(q: Queue): (Queue, Option<Key>) {
    if q.ready == [] then (q, None)
    else (q.(ready := q.ready[1..], leased := q.leased + {q.ready[0]}), Some(q.ready[0]))
  }

  function Acknowledged(q: Queue, k: Key): Queue {
    q.(leased := q.leased - {k}, pending := q.pending - {k})
  }

  function Retried(q: Queue, k: Key): Queue {
    if k in q.leased then q.(leased := q.leased - {k}, ready := q.ready + [k]) else q
  }

  ghost predicate NoDuplicates(s: seq<Key>) {
    forall i, j :: 0 <= i < j < |s| ==> s[i] != s[j]
  }

  /** Pending keys are the disjoint union of ready and leased keys, and no key is ready twice. */
  ghost predicate Consistent(q: Queue) {
    && NoDuplicates(q.ready)
    && (forall k :: k in q.ready ==> k !in q.leased)
    && (forall k :: k in q.pending <==> k in q.ready || k in q.leased)
  }

  lemma EnqueueKeeps(q: Queue, k: Key)
    requires Consistent(q)
    ensures Consistent(Enqueued(q, k)) && k in Enqueued(q, k).pending
    ensures forall x :: x in Enqueued(q, k).pending <==> x in q.pending || x == k
  {
    forall x | x in Enqueued(q, k).pending ensures x in Enqueued(q, k).ready || x in Enqueued(q, k).leased {
      assert x in q.pending || x == k;
      if k !in q.pending { assert Enqueued(q, k).ready[|q.ready|] == k; }
    }
  }

  lemma DequeueKeeps(q: Queue)
    requires Consistent(q)
    ensures Consistent(Dequeued(q).0) && Dequeued(q).0.pending == q.pending
    ensures Dequeued(q).1.Some? ==> Dequeued(q).1.value !in q.leased && Dequeued(q).1.value in Dequeued(q).0.leased
  {
    if q.ready != [] {
      assert q.ready[0] in q.ready;
      assert q.ready == [q.ready[0]] + q.ready[1..];
    }
  }

  lemma RetryKeeps(q: Queue, k: Key)
    requires Consistent(q)
    ensures Consistent(Retried(q, k)) && Retried(q, k).pending == q.pending
    ensures k in q.leased ==> k in Retried(q, k).ready
  {
    if k in q.leased { assert Retried(q, k).ready[|q.ready|] == k; }
  }

  /** Acknowledging keeps the queue consistent exactly when the key is not waiting in the ready list:
      an acknowledgement by anyone but the lease holder would lose a ready task's pending mark. */
  lemma AcknowledgeKeepsIff(q: Queue, k: Key)
    requires Consistent(q)
    ensures Consistent(Acknowledged(q, k)) <==> k !in q.ready
  {
    if k in q.ready {
      assert k !in Acknowledged(q, k).pending;
    }
  }

  /** The next keys to be dequeued. */
  function Served(q: Queue, n: nat): seq<Key>
    decreases n
  {
    if n == 0 then []
    else match Dequeued(q).1
      case None => []
      case Some(k) => [k] + Served(Dequeued(q).0, n - 1)
  }

  lemma {:induction false} ServedIsReady(q: Queue, n: nat)
    requires n <= |q.ready|
    ensures Served(q, n) == q.ready[..n]
    decreases n
  {
    if n > 0 { ServedIsReady(Dequeued(q).0, n - 1); }
  }

  /** Tasks are served in the order they were offered: a new one, and one given back, after all that are ready. */
  lemma ServedInOrder(q: Queue, k: Key, n: nat)
    requires Consistent(q) && n == |q.ready|
    ensures k !in q.pending ==> Served(Enqueued(q, k), n + 1) == Served(q, n) + [k]
    ensures k in q.pending ==> Served(Enqueued(q, k), n) == Served(q, n)
    ensures k in q.leased ==> Served(Retried(q, k), n + 1) == Served(q, n) + [k]
    ensures Served(Acknowledged(q, k), n) == Served(q, n)
    ensures n > 0 ==> Dequeued(q).1 == Some(Served(q, n)[0])
  {
    ServedIsReady(q, n);
    ServedIsReady(Acknowledged(q, k), n);
    if k !in q.pending { ServedIsReady(Enqueued(q, k), n + 1); }
    if k in q.leased { ServedIsReady(Retried(q, k), n + 1); }
  }

  class InMemoryTaskQueue {
    var items: seq<Key>
    var pending: set<Key>
    var leased: set<Key>

    constructor ()
      ensures Q() == Queue([], {}, {}) && Consistent(Q())
    {
      items, pending, leased := [], {}, {};
    }

    ghost function Q(): Queue
      reads this
    {
      Queue(items, pending, leased)
    }

    method Enqueue(k: Key)
      modifies this
      ensures Q() == Enqueued(old(Q()), k)
      ensures items == old(items) + if k in old(pending) then [] else [k]
      ensures pending == old(pending) + {k} && leased == old(leased)
    {
      if k !in pending {
        pending := pending + {k};
        items := items + [k];
      }
    }

    method Dequeue() returns (task: Option<Key>)
      modifies this
      ensures (Q(), task) == Dequeued(old(Q()))
      ensures if old(items) == [] then task == None && Q() == old(Q())
              else task == Some(old(items)[0]) && items == old(items)[1..] && leased == old(leased) + {old(items)[0]}
    {
      if items == [] {
        return None;
      }
      task := Some(items[0]);
      items := items[1..];
      leased := leased + {task.value};
    }

    method Acknowledge(k: Key)
      modifies this
      ensures Q() == Acknowledged(old(Q()), k)
      ensures items == old(items) && k !in pending && k !in leased
      ensures forall x :: x != k ==> (x in pending <==> x in old(pending)) && (x in leased <==> x in old(leased))
    {
      leased := leased - {k};
      pending := pending - {k};
    }

    method Retry(k: Key)
      modifies this
      ensures Q() == Retried(old(Q()), k)
      ensures k !in leased && pending == old(pending)
      ensures items == old(items) + if k in old(leased) then [k] else []
    {
      if k in leased {
        leased := leased - {k};
        items := items + [k];
      }
    }
  }

  // ------------------------------------------------------------------ workers

  type Worker = nat

  /** A worker holding a task: it has yet to reconcile, or it knows whether the record had become terminal. */
  datatype Lease = Lease(key: Key, sawTerminal: Option<bool>)

  /** The queue, the records it serves (true once terminal), the workers, the keys of records whose creator has
      stored the record and not yet enqueued its task, and the keys whose holder crashed. */
  datatype Plant = Plant(
    queue: Queue, terminal: map<Key, bool>, workers: map<Worker, Lease>, creating: set<Key>, abandoned: set<Key>)

  datatype Step =
    | Create(key: Key)
    | Offer(key: Key)                      // a creator's or a canceller's enqueue
    | Take(worker: Worker)
    | Work(worker: Worker, finishes: bool, raises: bool)
    | Conclude(worker: Worker)             // acknowledge or retry
    | Crash(worker: Worker)
    | FinishElsewhere(key: Key)

  predicate Enabled(p: Plant, s: Step) {
    match s
    case Create(k) => k !in p.terminal
    case Offer(k) => k in p.terminal
    case Take(w) => w !in p.workers
    case Work(w, _, _) => w in p.workers && p.workers[w].sawTerminal.None? && p.workers[w].key in p.terminal
    case Conclude(w) => w in p.workers && p.workers[w].sawTerminal.Some?
    case Crash(w) => w in p.workers
    case FinishElsewhere(k) => k in p.terminal
  }

  function Apply(p: Plant, s: Step): Plant
    requires Enabled(p, s)
  {
    match s
    case Create(k) => p.(terminal := p.terminal[k := false], creating := p.creating + {k})
    case Offer(k) => p.(queue := Enqueued(p.queue, k), creating := p.creating - {k})
    case Take(w) =>
      var (q, k) := Dequeued(p.queue);
      if k.None? then p else p.(queue := q, workers := p.workers[w := Lease(k.value, None)])
    case Work(w, finishes, raises) =>
      var k := p.workers[w].key;
      var done := p.terminal[k] || finishes;
      p.(terminal := p.terminal[k := done],
         workers := p.workers[w := Lease(k, Some(done && !raises))])
    case Conclude(w) =>
      var l := p.workers[w];
      p.(queue := if l.sawTerminal.value then Acknowledged(p.queue, l.key) else Retried(p.queue, l.key),
         workers := p.workers - {w})
    case Crash(w) => p.(workers := p.workers - {w}, abandoned := p.abandoned + {p.workers[w].key})
    case FinishElsewhere(k) => p.(terminal := p.terminal[k := true])
  }

  function Held(p: Plant): set<Key> {
    set w | w in p.workers :: p.workers[w].key
  }

  /** A lease is held by one worker, or its holder crashed: this queue never delivers it again. */
  ghost predicate WorkersHoldLeases(p: Plant) {
    && p.queue.leased == Held(p) + p.abandoned && Held(p) !! p.abandoned
    && (forall v, w :: v in p.workers && w in p.workers && v != w ==> p.workers[v].key != p.workers[w].key)
    && (forall w :: w in p.workers && p.workers[w].sawTerminal == Some(true) ==>
          p.workers[w].key in p.terminal && p.terminal[p.workers[w].key])
  }

  /** Every live record has a pending task, or its creator is still about to enqueue it. */
  ghost predicate NothingStranded(p: Plant) {
    forall k :: k in p.terminal && !p.terminal[k] ==> k in p.queue.pending || k in p.creating
  }

  ghost predicate Inv(p: Plant) {
    Consistent(p.queue) && WorkersHoldLeases(p) && NothingStranded(p)
  }

  lemma StepKeepsInv(p: Plant, s: Step)
    requires Inv(p) && Enabled(p, s)
    ensures Inv(Apply(p, s))
  {
    match s
    case Offer(k) =>
      EnqueueKeeps(p.queue, k);
      assert Held(Apply(p, s)) == Held(p);
    case Take(w) =>
      DequeueKeeps(p.queue);
      TakeHolds(p, w);
    case Conclude(w) =>
      HolderGone(p, w, Apply(p, s));
      AcknowledgeKeepsIff(p.queue, p.workers[w].key);
      RetryKeeps(p.queue, p.workers[w].key);
    case Crash(w) => HolderGone(p, w, Apply(p, s));
    case _ => SameHolders(p, Apply(p, s));
  }

  lemma TakeHolds(p: Plant, w: Worker)
    requires Inv(p) && Enabled(p, Take(w))
    ensures WorkersHoldLeases(Apply(p, Take(w)))
  {
    var t := Apply(p, Take(w));
    if p.queue.ready != [] {
      var k := p.queue.ready[0];
      assert k in p.queue.ready && w in t.workers && t.workers[w].key == k;
      forall x | x in Held(p) ensures x in Held(t) {
        var v :| v in p.workers && p.workers[v].key == x;
        assert v in t.workers && t.workers[v].key == x;
      }
      assert Held(t) == Held(p) + {k};
    }
  }

  lemma SameHolders(p: Plant, t: Plant)
    requires t.workers.Keys == p.workers.Keys && forall w :: w in p.workers ==> t.workers[w].key == p.workers[w].key
    ensures Held(t) == Held(p)
  {
    forall w | w in p.workers ensures p.workers[w].key in Held(t) {
      assert w in t.workers;
    }
    forall w | w in t.workers ensures t.workers[w].key in Held(p) {
      assert w in p.workers;
    }
  }

  lemma HolderGone(p: Plant, w: Worker, t: Plant)
    requires WorkersHoldLeases(p) && w in p.workers && t.workers == p.workers - {w}
    ensures Held(t) == Held(p) - {p.workers[w].key} && p.workers[w].key in Held(p)
  {
    assert p.workers[w].key in Held(p);
    assert forall v :: v in t.workers ==> p.workers[v].key != p.workers[w].key;
    forall k | k in Held(p) && k != p.workers[w].key ensures k in Held(t) {
      var v :| v in p.workers && p.workers[v].key == k;
      assert v in t.workers;
    }
  }

  ghost predicate Legal(p: Plant, steps: seq<Step>)
    decreases |steps|
  {
    steps == [] || (Enabled(p, steps[0]) && Legal(Apply(p, steps[0]), steps[1..]))
  }

  ghost function Exec(p: Plant, steps: seq<Step>): Plant
    requires Legal(p, steps)
    decreases |steps|
  {
    if steps == [] then p else Exec(Apply(p, steps[0]), steps[1..])
  }

  const EMPTY := Plant(Queue([], {}, {}), map[], map[], {}, {})

  lemma {:induction false} EveryInterleavingKeepsInv(p: Plant, steps: seq<Step>)
    requires Inv(p) && Legal(p, steps)
    ensures Inv(Exec(p, steps))
    decreases |steps|
  {
    if steps != [] {
      StepKeepsInv(p, steps[0]);
      EveryInterleavingKeepsInv(Apply(p, steps[0]), steps[1..]);
    }
  }

  /** A key is abandoned exactly when some worker crashed while it held it. */
  ghost predicate CrashedHolding(p: Plant, steps: seq<Step>, k: Key)
    requires Legal(p, steps)
    decreases |steps|
  {
    steps != [] &&
    ((steps[0].Crash? && p.workers[steps[0].worker].key == k) || CrashedHolding(Apply(p, steps[0]), steps[1..], k))
  }

  lemma {:induction false} AbandonedIffCrashed(p: Plant, steps: seq<Step>, k: Key)
    requires Legal(p, steps)
    ensures k in Exec(p, steps).abandoned <==> k in p.abandoned || CrashedHolding(p, steps, k)
    decreases |steps|
  {
    if steps != [] { AbandonedIffCrashed(Apply(p, steps[0]), steps[1..], k); }
  }

  /** With any number of workers, crashes and raising reconciles, interleaved step by step: a live record whose
      creation call has finished is ready or held by a worker, exactly unless a worker crashed while it held it;
      then its key stays leased, and this queue does not deliver it again. */
  lemma LiveRecordsHaveTasksIff(steps: seq<Step>, k: Key)
    requires Legal(EMPTY, steps)
    requires var p := Exec(EMPTY, steps); k in p.terminal && !p.terminal[k] && k !in p.creating
    ensures var p := Exec(EMPTY, steps);
            && Consistent(p.queue)
            && (k in p.queue.ready || k in Held(p) <==> !CrashedHolding(EMPTY, steps, k))
            && (CrashedHolding(EMPTY, steps, k) ==> k in p.queue.leased)
  {
    EveryInterleavingKeepsInv(EMPTY, steps);
    AbandonedIffCrashed(EMPTY, steps, k);
  }

  /** A cancel's enqueue that meets a leased task changes nothing, and still the task comes back: unless the
      holder saw the record terminal, concluding puts the key at the end of the ready list. */
  lemma AbsorbedOfferComesBack(p: Plant, w: Worker)
    requires Inv(p) && w in p.workers && p.workers[w].key in p.terminal
    ensures Apply(p, Offer(p.workers[w].key)).queue == p.queue
    ensures p.workers[w].sawTerminal == Some(false) ==>
              Apply(p, Conclude(w)).queue.ready == p.queue.ready + [p.workers[w].key]
    ensures p.workers[w].sawTerminal == Some(true) ==> p.terminal[p.workers[w].key]
  {
    assert p.workers[w].key in p.queue.pending;
  }
}
