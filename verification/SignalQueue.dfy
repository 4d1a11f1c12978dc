/** The bounded queue between many producers and its workers: acceptance under a lock,
    deduplication by signal id, pause, stop and restart. A worker's get does not take the
    producers' lock, so it may fall between a producer's two writes; it may also return
    after a stop. A start does not wait for an earlier worker to end, so there may be several. */
module SignalQueue {
  import opened Sums

  const MAX_QUEUE_SIZE := 50

  /** A queue entry is a signal's id or the stop sentinel. */
  datatype Item = Signal(id: string) | Sentinel

  /** Asking: inside the blocking get. Held: out of it and waiting for a pause to end. */
  datatype Worker = Idle | Asking | Held(id: string) | Executing(id: string)

  /** noting: the id a producer has put but not yet written to ids; it has the lock.
      accepted, started and leaked are the run's history; posted and met count sentinels. */
  datatype State = State(
    queue: seq<Item>,
    ids: set<string>,
    noting: Option<string>,
    workers: map<nat, Worker>,
    paused: bool,
    stopped: bool,
    accepted: seq<string>,
    started: seq<string>,
    leaked: seq<string>,
    posted: nat,
    met: nat)

  datatype Step =
    | Put(id: string) | Note
    | Ask(w: nat) | Get(w: nat) | TimeOut(w: nat) | Execute(w: nat) | Release(w: nat) | GiveUp(w: nat)
    | Pause | Resume | Stop | Start(w: nat)

  const INITIAL := State([], {}, None, map[], false, false, [], [], [], 0, 0)

  predicate Accepts(s: State, id: string) { id !in s.ids && |s.queue| < MAX_QUEUE_SIZE }

  predicate Is(s: State, w: nat, state: Worker) { w in s.workers && s.workers[w] == state }

  predicate Enabled(s: State, step: Step)
  {
    match step
    case Put(_) => s.noting.None?
    case Note => s.noting.Some?
    case Ask(w) => Is(s, w, Idle) && !s.stopped
    case Get(w) => Is(s, w, Asking) && s.queue != []
    case TimeOut(w) => Is(s, w, Asking) && s.queue == []
    case Execute(w) => w in s.workers && s.workers[w].Held? && !s.paused && !s.stopped
    case Release(w) => w in s.workers && s.workers[w].Executing? && s.noting.None?
    case GiveUp(w) => w in s.workers && s.stopped && (s.workers[w].Idle? || s.workers[w].Held?)
    case Pause => true
    case Resume => true
    case Stop => true
    case Start(w) => w !in s.workers
  }

  function Taking(s: State, w: nat): State
    requires s.queue != []
  {
    var item, next := s.queue[0], s.(queue := s.queue[1..]);
    if item.Sentinel? then next.(workers := s.workers - {w}, met := s.met + 1)
    else next.(workers := s.workers[w := Held(item.id)])
  }

  function Apply(s: State, step: Step): State
    requires Enabled(s, step)
  {
    match step
    case Put(id) =>
      if !Accepts(s, id) then s
      else s.(queue := s.queue + [Signal(id)], noting := Some(id), accepted := s.accepted + [id])
    case Note => s.(ids := s.ids + {s.noting.value}, noting := None)
    case Ask(w) => s.(workers := s.workers[w := Asking])
    case Get(w) => Taking(s, w)
    case TimeOut(w) => s.(workers := s.workers[w := Idle])
    case Execute(w) =>
      s.(workers := s.workers[w := Executing(s.workers[w].id)], started := s.started + [s.workers[w].id])
    case Release(w) => s.(ids := s.ids - {s.workers[w].id}, workers := s.workers[w := Idle])
    case GiveUp(w) =>
      s.(workers := s.workers - {w}, leaked := if s.workers[w].Held? then s.leaked + [s.workers[w].id] else s.leaked)
    case Pause => s.(paused := true)
    case Resume => s.(paused := false)
    case Stop =>
      if |s.queue| < MAX_QUEUE_SIZE then s.(stopped := true, queue := s.queue + [Sentinel], posted := s.posted + 1)
      else s.(stopped := true)
    case Start(w) => s.(workers := s.workers[w := Idle], stopped := false)
  }

  class SignalQueue {
    var queue: seq<Item>
    var queuedIds: set<string>
    var workers: map<nat, Worker>
    var paused: bool
    var stopped: bool
    ghost var accepted: seq<string>
    ghost var started: seq<string>
    ghost var leaked: seq<string>
    ghost var posted: nat
    ghost var met: nat

    /** The state while no producer has the lock. */
    ghost function Value(): State
      reads this
    {
      State(queue, queuedIds, None, workers, paused, stopped, accepted, started, leaked, posted, met)
    }

    constructor ()
      ensures Value() == INITIAL
    {
      queue, queuedIds, workers, paused, stopped := [], {}, map[], false, false;
      accepted, started, leaked, posted, met := [], [], [], 0, 0;
    }

    method Put(id: string) returns (taken: bool)
      modifies this
      ensures taken <==> Accepts(old(Value()), id)
      ensures
        var put := Apply(old(Value()), Step.Put(id));
        Value() == if taken then Apply(put, Note) else put
    {
      taken := false;
      if id in queuedIds {
        return;
      }
      if |queue| < MAX_QUEUE_SIZE {
        queue := queue + [Signal(id)];
        accepted := accepted + [id];
        queuedIds := queuedIds + {id};
        taken := true;
      }
    }

    /** The top of the worker's loop: into the get, or out for good. */
    method Turn(w: nat)
      requires Is(Value(), w, Idle)
      modifies this`workers
      ensures Value() == Apply(old(Value()), if stopped then GiveUp(w) else Ask(w))
    {
      if stopped {
        workers := workers - {w};
      } else {
        workers := workers[w := Asking];
      }
    }

    /** The get returns: with the next entry, also after a stop, or empty-handed. */
    method Take(w: nat)
      requires Is(Value(), w, Asking)
      modifies this
      ensures Value() == Apply(old(Value()), if old(queue) == [] then TimeOut(w) else Get(w))
    {
      if queue == [] {
        workers := workers[w := Idle];
        return;
      }
      var item := queue[0];
      queue := queue[1..];
      if item.Sentinel? {
        workers, met := workers - {w}, met + 1;
      } else {
        workers := workers[w := Held(item.id)];
      }
    }

    /** The taken signal runs, or is dropped when a stop came first; a pause holds it. */
    method Proceed(w: nat) returns (runs: bool)
      requires w in workers && workers[w].Held? && (stopped || !paused)
      modifies this
      ensures runs <==> !old(stopped)
      ensures Value() == Apply(old(Value()), if runs then Execute(w) else GiveUp(w))
    {
      if stopped {
        leaked := leaked + [workers[w].id];
        workers := workers - {w};
        return false;
      }
      started := started + [workers[w].id];
      workers := workers[w := Executing(workers[w].id)];
      runs := true;
    }

    /** The finally block: whatever the execution did, its id is free again. */
    method Finish(w: nat)
      requires w in workers && workers[w].Executing?
      modifies this
      ensures Value() == Apply(old(Value()), Release(w))
    {
      queuedIds := queuedIds - {workers[w].id};
      workers := workers[w := Idle];
    }

    method SetPaused(on: bool)
      modifies this`paused
      ensures Value() == Apply(old(Value()), if on then Pause else Resume)
    {
      if paused != on {
        paused := on;
      }
    }

    method StopWorker()
      modifies this`stopped, this`queue, this`posted
      ensures Value() == Apply(old(Value()), Stop)
    {
      stopped := true;
      if |queue| < MAX_QUEUE_SIZE {
        queue, posted := queue + [Sentinel], posted + 1;
      }
    }

    /** w names the new thread; threads that still live go on beside it. */
    method StartWorker(w: nat)
      requires w !in workers
      modifies this`stopped, this`workers
      ensures Value() == Apply(old(Value()), Start(w))
    {
      stopped, workers := false, workers[w := Idle];
    }
  }

  // --------------------------------------------------------------------------- runs

  ghost predicate Legal(s: State, run: seq<Step>)
    decreases |run|, 0
  {
    run == [] || (Legal(s, run[..|run| - 1]) && Enabled(After(s, run[..|run| - 1]), run[|run| - 1]))
  }

  ghost function After(s: State, run: seq<Step>): State
    requires Legal(s, run)
    decreases |run|, 1
  {
    if run == [] then s else Apply(After(s, run[..|run| - 1]), run[|run| - 1])
  }

  function Waiting(queue: seq<Item>): seq<string>
  {
    if queue == [] then [] else (if queue[0].Sentinel? then [] else [queue[0].id]) + Waiting(queue[1..])
  }

  lemma {:induction false} WaitingAppends(queue: seq<Item>, item: Item)
    ensures Waiting(queue + [item]) == Waiting(queue) + if item.Sentinel? then [] else [item.id]
  {
    var tail := if item.Sentinel? then [] else [item.id];
    if queue == [] {
      assert [item][1..] == [] && queue + [item] == [item];
      assert Waiting([item]) == tail + Waiting([]);
    } else {
      var head := if queue[0].Sentinel? then [] else [queue[0].id];
      WaitingAppends(queue[1..], item);
      assert (queue + [item])[0] == queue[0] && (queue + [item])[1..] == queue[1..] + [item];
      assert head + (Waiting(queue[1..]) + tail) == (head + Waiting(queue[1..])) + tail;
    }
  }

  // --------------------------------------------------------------- the id set is exact

  predicate Has(w: Worker, x: string) { (w.Held? || w.Executing?) && w.id == x }

  ghost predicate HasIt(s: State, w: nat, x: string) { w in s.workers && Has(s.workers[w], x) }

  /** Ids with no worker: dropped at a stop, or waiting. */
  function Parked(s: State): seq<string> { s.leaked + Waiting(s.queue) }

  ghost predicate Distinct(s: seq<string>)
  {
    forall i, j :: 0 <= i < j < |s| ==> s[i] != s[j]
  }

  function Noted(s: State): set<string> { if s.noting.Some? then s.ids + {s.noting.value} else s.ids }

  ghost predicate Taken(s: State, x: string) { x in Parked(s) || exists w :: HasIt(s, w, x) }

  /** The id set is exactly the ids taken, each at one place only, a put in progress included. */
  ghost predicate IdsExact(s: State)
  {
    && (forall x :: x in Noted(s) <==> Taken(s, x))
    && Distinct(Parked(s)) && (forall w, x :: HasIt(s, w, x) ==> x !in Parked(s))
    && (forall v, w, x :: HasIt(s, v, x) && HasIt(s, w, x) ==> v == w)
    && (s.noting.Some? ==> s.noting.value !in s.ids)
  }

  ghost predicate Bounded(s: State) { |s.queue| <= 50 }

  lemma PutKeepsIds(s: State, id: string)
    requires IdsExact(s) && s.noting.None?
    ensures IdsExact(Apply(s, Step.Put(id)))
  {
    var t := Apply(s, Step.Put(id));
    if Accepts(s, id) {
      WaitingAppends(s.queue, Signal(id));
      assert Parked(t) == Parked(s) + [id];
      assert !Taken(s, id);
      assert forall w, x :: HasIt(t, w, x) <==> HasIt(s, w, x);
      forall x ensures x in Noted(t) <==> Taken(t, x) {
        assert x in Noted(s) <==> Taken(s, x);
      }
    }
  }

  lemma SameIdsSameExactness(s: State, t: State)
    requires IdsExact(s) && Parked(t) == Parked(s) && t.ids == s.ids && t.noting == s.noting
    requires forall w, x :: HasIt(t, w, x) <==> HasIt(s, w, x)
    ensures IdsExact(t)
  {
    forall x ensures x in Noted(t) <==> Taken(t, x) {
      assert x in Noted(s) <==> Taken(s, x);
    }
  }

  lemma NoteKeepsIds(s: State)
    requires IdsExact(s) && s.noting.Some?
    ensures IdsExact(Apply(s, Note))
  {
    var t := Apply(s, Note);
    assert Noted(t) == Noted(s) && Parked(t) == Parked(s);
    assert forall w, x :: HasIt(t, w, x) <==> HasIt(s, w, x);
    forall x ensures x in Noted(t) <==> Taken(t, x) {
      assert x in Noted(s) <==> Taken(s, x);
    }
  }

  lemma TakingOneOut(a: seq<string>, x: string, b: seq<string>)
    requires Distinct(a + [x] + b)
    ensures Distinct(a + b)
    ensures forall y :: y in a + b <==> y in a + [x] + b && y != x
  {
    var all := a + [x] + b;
    assert all[|a|] == x;
    assert forall k :: 0 <= k < |a| ==> all[k] == a[k];
    assert forall k :: 0 <= k < |b| ==> all[|a| + 1 + k] == b[k];
    assert forall k :: 0 <= k < |a + b| ==> (a + b)[k] == all[if k < |a| then k else k + 1];
  }

  lemma PuttingOneIn(a: seq<string>, x: string, b: seq<string>)
    requires Distinct(a + b) && x !in a + b
    ensures Distinct(a + [x] + b)
    ensures forall y :: y in a + [x] + b <==> y in a + b || y == x
  {
    var all, rest := a + [x] + b, a + b;
    assert forall k :: 0 <= k < |all| ==> all[k] == if k == |a| then x else rest[if k < |a| then k else k - 1];
  }

  /** A signal moves from the queue to the worker. */
  lemma GetKeepsIds(s: State, w: nat)
    requires IdsExact(s) && Enabled(s, Get(w))
    ensures IdsExact(Apply(s, Get(w)))
  {
    var t, item := Apply(s, Get(w)), s.queue[0];
    if item.Sentinel? {
      assert Waiting(s.queue) == Waiting(t.queue);
      assert forall v, x :: HasIt(t, v, x) <==> HasIt(s, v, x);
      SameIdsSameExactness(s, t);
    } else {
      assert Parked(s) == s.leaked + [item.id] + Waiting(t.queue);
      TakingOneOut(s.leaked, item.id, Waiting(t.queue));
      assert forall v, x :: HasIt(t, v, x) <==> HasIt(s, v, x) || (v == w && x == item.id);
      forall x ensures x in Noted(t) <==> Taken(t, x) {
        assert x in Noted(s) <==> Taken(s, x);
        if x == item.id {
          assert HasIt(t, w, x);
        }
      }
    }
  }

  lemma ReleaseKeepsIds(s: State, w: nat)
    requires IdsExact(s) && Enabled(s, Release(w))
    ensures IdsExact(Apply(s, Release(w)))
  {
    var t, id := Apply(s, Release(w)), s.workers[w].id;
    assert HasIt(s, w, id) && Parked(t) == Parked(s);
    assert forall v, x :: HasIt(t, v, x) <==> HasIt(s, v, x) && v != w;
    forall x ensures x in Noted(t) <==> Taken(t, x) {
      assert x in Noted(s) <==> Taken(s, x);
    }
  }

  /** A held signal given up stays in the id set. */
  lemma GiveUpKeepsIds(s: State, w: nat)
    requires IdsExact(s) && Enabled(s, GiveUp(w))
    ensures IdsExact(Apply(s, GiveUp(w)))
  {
    var t := Apply(s, GiveUp(w));
    assert forall v, x :: HasIt(t, v, x) <==> HasIt(s, v, x) && v != w;
    if s.workers[w].Held? {
      var id := s.workers[w].id;
      assert HasIt(s, w, id);
      PuttingOneIn(s.leaked, id, Waiting(s.queue));
      assert Parked(t) == s.leaked + [id] + Waiting(s.queue);
      forall x ensures x in Noted(t) <==> Taken(t, x) {
        assert x in Noted(s) <==> Taken(s, x);
      }
    } else {
      assert forall v, x :: HasIt(t, v, x) <==> HasIt(s, v, x);
      SameIdsSameExactness(s, t);
    }
  }

  lemma StepKeepsIds(s: State, step: Step)
    requires IdsExact(s) && Enabled(s, step)
    ensures IdsExact(Apply(s, step))
  {
    if step.Put? {
      PutKeepsIds(s, step.id);
    } else if step.Note? {
      NoteKeepsIds(s);
    } else if step.Get? {
      GetKeepsIds(s, step.w);
    } else if step.Release? {
      ReleaseKeepsIds(s, step.w);
    } else if step.GiveUp? {
      GiveUpKeepsIds(s, step.w);
    } else {
      QuietSteps(s, step);
      SameIdsSameExactness(s, Apply(s, step));
    }
  }

  lemma StopKeepsPlaces(s: State)
    ensures
      var t := Apply(s, Stop);
      && Parked(t) == Parked(s) && t.ids == s.ids && t.noting == s.noting
      && forall w, x :: HasIt(t, w, x) <==> HasIt(s, w, x)
  {
    WaitingAppends(s.queue, Sentinel);
  }

  lemma WorkerStepsKeepPlaces(s: State, step: Step)
    requires Enabled(s, step) && (step.Ask? || step.TimeOut? || step.Execute? || step.Start?)
    ensures
      var t := Apply(s, step);
      && Parked(t) == Parked(s) && t.ids == s.ids && t.noting == s.noting
      && forall w, x :: HasIt(t, w, x) <==> HasIt(s, w, x)
  {
  }

  lemma QuietSteps(s: State, step: Step)
    requires Enabled(s, step)
    requires step.Ask? || step.TimeOut? || step.Execute? || step.Pause? || step.Resume? || step.Stop? || step.Start?
    ensures
      var t := Apply(s, step);
      && Parked(t) == Parked(s) && t.ids == s.ids && t.noting == s.noting
      && forall w, x :: HasIt(t, w, x) <==> HasIt(s, w, x)
  {
    if step.Stop? {
      StopKeepsPlaces(s);
    } else if !step.Pause? && !step.Resume? {
      WorkerStepsKeepPlaces(s, step);
    }
  }

  /** On every interleaving, restarts included, the dedupe set is exact and the depth stays
      within its bound. */
  lemma {:induction false} IdsAlwaysExact(run: seq<Step>)
    requires Legal(INITIAL, run)
    ensures IdsExact(After(INITIAL, run)) && Bounded(After(INITIAL, run))
  {
    if run != [] {
      IdsAlwaysExact(run[..|run| - 1]);
      StepKeepsIds(After(INITIAL, run[..|run| - 1]), run[|run| - 1]);
    }
  }

  /** An id is accepted exactly when it is neither waiting, held, executing nor dropped at a
      stop, and there is room: so it is free again only once its execution has ended. */
  lemma {:induction false} AcceptedOnlyWhenFree(run: seq<Step>, id: string)
    requires Legal(INITIAL, run) && After(INITIAL, run).noting.None?
    ensures Accepts(After(INITIAL, run), id)
            <==> !Taken(After(INITIAL, run), id) && |After(INITIAL, run).queue| < 50
  {
    IdsAlwaysExact(run);
    assert id in Noted(After(INITIAL, run)) <==> Taken(After(INITIAL, run), id);
  }

  // ------------------------------------------------------------- order, until a stop

  function HeldIds(s: State, w: nat): seq<string>
  {
    if w in s.workers && s.workers[w].Held? then [s.workers[w].id] else []
  }

  // ------------------------------------------------------------------------- pause

  ghost predicate NeverResumes(run: seq<Step>)
  {
    forall k :: 0 <= k < |run| ==> !run[k].Resume?
  }

  lemma PausedStep(s: State, step: Step)
    requires s.paused && Enabled(s, step) && !step.Resume?
    ensures Apply(s, step).paused && Apply(s, step).started == s.started
    ensures forall w, x :: Is(Apply(s, step), w, Executing(x)) ==> Is(s, w, Executing(x))
  {
  }

  /** While the queue is paused no signal starts, whatever else happens. */
  lemma {:induction false} NothingStartsWhilePaused(s: State, run: seq<Step>)
    requires s.paused && Legal(s, run) && NeverResumes(run)
    ensures After(s, run).paused && After(s, run).started == s.started
    ensures forall w, x :: Is(After(s, run), w, Executing(x)) ==> Is(s, w, Executing(x))
  {
    if run != [] {
      NothingStartsWhilePaused(s, run[..|run| - 1]);
      PausedStep(After(s, run[..|run| - 1]), run[|run| - 1]);
    }
  }

  /** A pause holds a taken signal until it is resumed, and then the signal can run; nothing
      else changes in between. */
  lemma ResumeLetsTheHeldGo(s: State, w: nat, id: string)
    requires Is(s, w, Held(id)) && !s.stopped
    ensures !Enabled(Apply(s, Pause), Execute(w)) && Enabled(Apply(s, Resume), Execute(w))
    ensures Is(Apply(Apply(s, Resume), Execute(w)), w, Executing(id))
    ensures Apply(Apply(s, Pause), Resume) == s.(paused := false)
  {
  }

  ghost predicate NeverStarts(run: seq<Step>)
  {
    forall k :: 0 <= k < |run| ==> !run[k].Start?
  }

  /** From a stop, with the queue full or not, until the next start nothing begins to run;
      what runs can only end, and every other worker outside the get may leave. */
  lemma {:induction false} NothingStartsAfterAStop(s: State, run: seq<Step>)
    requires Legal(Apply(s, Stop), run) && NeverStarts(run)
    ensures
      var t := After(Apply(s, Stop), run);
      && t.stopped && t.started == s.started
      && (forall w, x :: Is(t, w, Executing(x)) ==> Is(s, w, Executing(x)))
      && (forall w :: Is(t, w, Asking) ==> Is(s, w, Asking))
      && (forall w :: Is(t, w, Idle) ==> Enabled(t, GiveUp(w)))
      && (forall w, x :: Is(t, w, Held(x)) ==> Enabled(t, GiveUp(w)))
  {
    if run != [] {
      NothingStartsAfterAStop(s, run[..|run| - 1]);
    }
  }

  /** A get of a queue with entries returns the oldest of them, a signal or the end of the
      worker, and comes back empty-handed from no other queue than the empty one. */
  lemma GetReturnsTheOldest(s: State, w: nat)
    requires Is(s, w, Asking)
    ensures Enabled(s, Get(w)) <==> |s.queue| > 0
    ensures Enabled(s, TimeOut(w)) <==> |s.queue| == 0
    ensures Enabled(s, TimeOut(w)) ==> Apply(s, TimeOut(w)) == s.(workers := s.workers[w := Idle])
    ensures Enabled(s, Get(w)) ==>
              var t := Apply(s, Get(w));
              && s.queue == [s.queue[0]] + t.queue
              && forall v :: v in t.workers <==> v in s.workers && (v == w ==> s.queue[0] != Sentinel)
    ensures Enabled(s, Get(w)) && s.queue[0] != Sentinel ==> Is(Apply(s, Get(w)), w, Held(s.queue[0].id))
  {
  }

  ghost predicate NeverStops(run: seq<Step>)
  {
    forall k :: 0 <= k < |run| ==> !run[k].Stop?
  }

  ghost predicate StartsOnly(run: seq<Step>, w: nat)
  {
    forall k :: 0 <= k < |run| && run[k].Start? ==> run[k].w == w
  }

  ghost predicate InOrder(s: State, w: nat)
  {
    && s.accepted == s.started + HeldIds(s, w) + Waiting(s.queue)
    && s.leaked == [] && !s.stopped && s.workers.Keys <= {w}
    && (forall k :: 0 <= k < |s.queue| ==> s.queue[k].Signal?)
  }

  /** Until a stop, with one worker, signals start in the order they were accepted, none
      twice and none skipped: what has not started is the one held and those waiting. */
  lemma {:induction false} StartedInOrder(run: seq<Step>, w: nat)
    requires Legal(INITIAL, run) && NeverStops(run) && StartsOnly(run, w)
    ensures InOrder(After(INITIAL, run), w)
  {
    if run != [] {
      StartedInOrder(run[..|run| - 1], w);
      OrderStep(After(INITIAL, run[..|run| - 1]), run[|run| - 1], w);
    }
  }

  lemma OrderStep(s: State, step: Step, w: nat)
    requires Enabled(s, step) && !step.Stop? && InOrder(s, w) && (step.Start? ==> step.w == w)
    ensures InOrder(Apply(s, step), w)
  {
    if step.Put? {
      PutStaysInOrder(s, step.id, w);
    } else if step.Get? {
      GetStaysInOrder(s, step.w, w);
    } else if step.Execute? {
      var id := s.workers[w].id;
      assert step.w == w && s.started + [id] + Waiting(s.queue) == (s.started + [id]) + [] + Waiting(s.queue);
    } else {
      assert HeldIds(Apply(s, step), w) == HeldIds(s, w);
    }
  }

  lemma PutStaysInOrder(s: State, id: string, w: nat)
    requires s.noting.None? && InOrder(s, w)
    ensures InOrder(Apply(s, Step.Put(id)), w)
  {
    WaitingAppends(s.queue, Signal(id));
    assert s.started + HeldIds(s, w) + Waiting(s.queue) + [id] == s.started + HeldIds(s, w) + (Waiting(s.queue) + [id]);
  }

  lemma GetStaysInOrder(s: State, v: nat, w: nat)
    requires Enabled(s, Get(v)) && InOrder(s, w)
    ensures InOrder(Apply(s, Get(v)), w)
  {
    assert v == w && Waiting(s.queue) == [s.queue[0].id] + Waiting(s.queue[1..]);
    assert s.started + [] + ([s.queue[0].id] + Waiting(s.queue[1..]))
        == s.started + [s.queue[0].id] + Waiting(s.queue[1..]);
  }

  // ------------------------------------------------------------------- sentinels

  function Sentinels(queue: seq<Item>): nat
  {
    if queue == [] then 0 else (if queue[0].Sentinel? then 1 else 0) + Sentinels(queue[1..])
  }

  lemma {:induction false} SentinelsAppend(queue: seq<Item>, item: Item)
    ensures Sentinels(queue + [item]) == Sentinels(queue) + if item.Sentinel? then 1 else 0
  {
    if queue == [] {
      assert [item][1..] == [] && queue + [item] == [item];
    } else {
      assert (queue + [item])[0] == queue[0] && (queue + [item])[1..] == queue[1..] + [item];
      SentinelsAppend(queue[1..], item);
    }
  }

  lemma {:induction false} SentinelsAreThere(queue: seq<Item>)
    ensures Sentinels(queue) > 0 <==> Sentinel in queue
  {
    if queue != [] {
      SentinelsAreThere(queue[1..]);
      assert queue == [queue[0]] + queue[1..];
    }
  }

  /** A sentinel is in the queue exactly when more of them were posted by stops than workers
      have left by: so one stop leaves its sentinel behind exactly when the worker it ended
      went without taking it. */
  lemma {:induction false} SentinelLeftBehind(run: seq<Step>)
    requires Legal(INITIAL, run)
    ensures After(INITIAL, run).posted == After(INITIAL, run).met + Sentinels(After(INITIAL, run).queue)
    ensures Sentinel in After(INITIAL, run).queue <==> After(INITIAL, run).posted > After(INITIAL, run).met
  {
    if run != [] {
      SentinelLeftBehind(run[..|run| - 1]);
      SentinelStep(After(INITIAL, run[..|run| - 1]), run[|run| - 1]);
    }
    SentinelsAreThere(After(INITIAL, run).queue);
  }

  lemma SentinelStep(s: State, step: Step)
    requires Enabled(s, step) && s.posted == s.met + Sentinels(s.queue)
    ensures Apply(s, step).posted == Apply(s, step).met + Sentinels(Apply(s, step).queue)
  {
    if step.Put? {
      SentinelsAppend(s.queue, Signal(step.id));
    } else if step.Stop? {
      SentinelsAppend(s.queue, Sentinel);
    }
  }

  /** Neither stopped nor started again. */
  ghost predicate Undisturbed(run: seq<Step>)
  {
    forall k :: 0 <= k < |run| ==> !run[k].Stop? && !run[k].Start?
  }

  /** The place of the first sentinel, or the length. */
  function FirstSentinel(queue: seq<Item>): (n: nat)
    ensures n <= |queue| && (n < |queue| ==> queue[n] == Sentinel)
    ensures forall k :: 0 <= k < n ==> queue[k].Signal?
  {
    if queue == [] || queue[0].Sentinel? then 0
    else
      assert queue == [queue[0]] + queue[1..];
      1 + FirstSentinel(queue[1..])
  }

  /** w has taken the first taken entries of the queue it found, and the added ones after. */
  ghost predicate Progress(first: seq<Item>, s: State, w: nat, taken: nat, added: seq<Item>)
  {
    && (forall k :: 0 <= k < |added| ==> added[k].Signal?)
    && taken <= |first| + |added| && s.queue == (first + added)[taken..]
    && !s.stopped && s.workers.Keys <= {w}
    && (w in s.workers <==> FirstSentinel(first) == |first| || taken <= FirstSentinel(first))
    && (taken > FirstSentinel(first) && FirstSentinel(first) < |first| ==> taken == FirstSentinel(first) + 1)
  }

  /** A worker just started, alone: it is ended exactly when it meets the first sentinel it
      found in the queue, after taking everything ahead of it and nothing behind; without
      one it is never ended. */
  lemma {:induction false} OldSentinelEndsTheNewWorker(s: State, w: nat, run: seq<Step>)
    returns (taken: nat, added: seq<Item>)
    requires s.workers == map[w := Idle] && !s.stopped && Legal(s, run) && Undisturbed(run)
    ensures Progress(s.queue, After(s, run), w, taken, added)
    ensures w !in After(s, run).workers <==> Sentinel in s.queue && taken == FirstSentinel(s.queue) + 1
  {
    if run == [] {
      taken, added := 0, [];
      assert (s.queue + added)[taken..] == s.queue;
    } else {
      var n := |run| - 1;
      taken, added := OldSentinelEndsTheNewWorker(s, w, run[..n]);
      taken, added := ProgressStep(s.queue, After(s, run[..n]), w, taken, added, run[n]);
    }
    assert Sentinel in s.queue <==> FirstSentinel(s.queue) < |s.queue|;
  }

  lemma ProgressStep(first: seq<Item>, s: State, w: nat, taken: nat, added: seq<Item>, step: Step)
    returns (taken': nat, added': seq<Item>)
    requires Progress(first, s, w, taken, added) && Enabled(s, step) && !step.Stop? && !step.Start?
    ensures Progress(first, Apply(s, step), w, taken', added')
  {
    taken', added' := taken, added;
    var all := first + added;
    if step.Put? && Accepts(s, step.id) {
      added' := added + [Signal(step.id)];
      assert first + added' == all + [Signal(step.id)];
      assert (all + [Signal(step.id)])[taken..] == all[taken..] + [Signal(step.id)];
    } else if step.Get? {
      taken' := taken + 1;
      assert s.queue[0] == all[taken] && s.queue[1..] == all[taken + 1..];
    }
  }

  lemma Extend(run: seq<Step>, step: Step) returns (longer: seq<Step>)
    requires Legal(INITIAL, run) && Enabled(After(INITIAL, run), step)
    ensures longer == run + [step] && Legal(INITIAL, longer)
    ensures After(INITIAL, longer) == Apply(After(INITIAL, run), step)
  {
    longer := run + [step];
    assert longer[..|run|] == run;
  }

  /** A signal held by a pause when the stop comes is dropped with its id still in the set:
      after a restart it can never be queued again, though nothing waits or runs. */
  lemma StopDropsTheHeldSignal(id: string) returns (run: seq<Step>)
    ensures Legal(INITIAL, run)
    ensures
      var s := After(INITIAL, run);
      && s.workers == map[0 := Idle] && !s.stopped && Waiting(s.queue) == [] && s.noting.None?
      && id !in s.started && !Accepts(s, id)
  {
    run := DroppedAtTheStop(id);
    run := Extend(run, Start(0));
    assert Waiting([Sentinel]) == [];
  }

  lemma DroppedAtTheStop(id: string) returns (run: seq<Step>)
    ensures Legal(INITIAL, run)
    ensures
      var s := After(INITIAL, run);
      && s.workers == map[] && s.queue == [Sentinel] && s.ids == {id} && s.started == [] && s.noting.None?
  {
    run := HeldByPause(id);
    run := Extend(run, Stop);
    run := Extend(run, GiveUp(0));
  }

  lemma OneQueued(id: string) returns (run: seq<Step>)
    ensures Legal(INITIAL, run)
    ensures After(INITIAL, run)
         == INITIAL.(queue := [Signal(id)], ids := {id}, workers := map[0 := Idle], accepted := [id])
  {
    run := Extend([], Start(0));
    run := Extend(run, Step.Put(id));
    run := Extend(run, Note);
  }

  lemma HeldByPause(id: string) returns (run: seq<Step>)
    ensures Legal(INITIAL, run)
    ensures
      var s := After(INITIAL, run);
      && s.workers == map[0 := Held(id)] && s.queue == [] && s.ids == {id} && s.started == [] && s.noting.None?
  {
    run := OneQueued(id);
    run := Extend(run, Pause);
    run := Extend(run, Ask(0));
    run := Extend(run, Get(0));
  }

  /** A worker inside the get takes the sentinel of its stop and leaves none. */
  lemma WaitingWorkerTakesTheSentinel() returns (run: seq<Step>)
    ensures Legal(INITIAL, run)
    ensures After(INITIAL, run).workers == map[] && After(INITIAL, run).met == 1 && After(INITIAL, run).queue == []
  {
    run := InTheGet();
    run := Extend(run, Stop);
    run := Extend(run, Get(0));
  }

  lemma InTheGet() returns (run: seq<Step>)
    ensures Legal(INITIAL, run)
    ensures After(INITIAL, run) == INITIAL.(workers := map[0 := Asking])
  {
    run := Extend([], Start(0));
    run := Extend(run, Ask(0));
  }

  /** A worker at the top of its loop leaves the sentinel of its stop for the next one. */
  lemma BusyWorkerLeavesTheSentinel() returns (run: seq<Step>)
    ensures Legal(INITIAL, run)
    ensures After(INITIAL, run).workers == map[] && After(INITIAL, run).met == 0
    ensures After(INITIAL, run).queue == [Sentinel]
  {
    run := Extend([], Start(0));
    run := Extend(run, Stop);
    run := Extend(run, GiveUp(0));
  }

  /** A start while an earlier worker still executes lets two signals execute at once. */
  lemma EarlyStartRunsTwoAtOnce(a: string, b: string) returns (run: seq<Step>)
    requires a != b
    ensures Legal(INITIAL, run)
    ensures Is(After(INITIAL, run), 0, Executing(a)) && Is(After(INITIAL, run), 1, Executing(b))
  {
    run := TwoWorkers(a, b);
    run := Extend(run, Ask(1));
    run := Extend(run, Get(1));
    run := Extend(run, Execute(1));
  }

  lemma TwoWorkers(a: string, b: string) returns (run: seq<Step>)
    requires a != b
    ensures Legal(INITIAL, run)
    ensures
      var s := After(INITIAL, run);
      && s.workers == map[0 := Executing(a), 1 := Idle] && !s.stopped && !s.paused && s.queue == [Signal(b), Sentinel]
  {
    run := OneExecutes(a);
    run := Extend(run, Step.Put(b));
    run := Extend(run, Note);
    run := Extend(run, Stop);
    run := Extend(run, Start(1));
  }

  lemma OneExecutes(a: string) returns (run: seq<Step>)
    ensures Legal(INITIAL, run)
    ensures
      var s := After(INITIAL, run);
      && s.workers == map[0 := Executing(a)] && s.queue == [] && s.ids == {a} && s.noting.None? && !s.paused
  {
    run := OneQueued(a);
    run := Extend(run, Ask(0));
    run := Extend(run, Get(0));
    run := Extend(run, Execute(0));
  }
}
