/**
 * The task scheduler (src/taskQueue.ts).
 *
 * Every pushed task is linked into one FIFO list per worker, the lists being
 * tried in round-robin order from a rotating `offset`. All lists share the
 * task's request tuple, whose `processed` slot makes the first unlocked worker
 * claim the task and every other list skip it. A per-worker lock keeps at most
 * one task in flight per worker; completing a task unlocks its worker and
 * drains that worker's list.
 *
 * Each linked list is kept as the sequence of task ids from its head
 * `queue[w]` to its tail `last[w]`; a task id indexes the shared request
 * tuples. The executor is abstract: its calls are recorded in `dispatched`,
 * and a completion arrives later through `Complete`.
 */
module Queue {
  import opened Values
  import opened Channel
  import opened Messages

  /** A call of the executor: run `task` on worker `worker`. */
  datatype Dispatch = Dispatch(worker: nat, task: nat)

  /** A call of a task's own `onTaskComplete`, as seen by `doWork`'s promise. */
  datatype Settlement = Settlement(task: nat, outcome: Outcome)

  /** `doWork`'s completion callback: reject on a truthy error, resolve otherwise. */
  function TaskOutcome(error: Value, result: Value): (o: Outcome)
    ensures o.Rejected? <==> Truthy(error)
    ensures o.Rejected? ==> o.error == error
    ensures o.Resolved? ==> o.value == result
  {
    if Truthy(error) then Rejected(error) else Resolved(result)
  }

  /** How many processed heads `getNextTask` advances past. */
  function SkipCount(list: seq<nat>, processed: seq<bool>): (d: nat)
    requires forall k :: 0 <= k < |list| ==> list[k] < |processed|
    ensures d <= |list|
    ensures d < |list| ==> !processed[list[d]]
    ensures forall k :: 0 <= k < d ==> processed[list[k]]
    decreases |list|
  {
    if list == [] || !processed[list[0]] then 0
    else
      var d := SkipCount(list[1..], processed);
      assert forall k :: 0 <= k < d ==> list[1..][k] == list[k + 1];
      d + 1
  }

  /** The processed prefix is determined: it ends at the first unprocessed entry. */
  lemma {:induction false} SkipCountUnique(list: seq<nat>, processed: seq<bool>, i: nat)
    requires forall k :: 0 <= k < |list| ==> list[k] < |processed|
    requires i <= |list| && forall k :: 0 <= k < i ==> processed[list[k]]
    requires i < |list| ==> !processed[list[i]]
    ensures SkipCount(list, processed) == i
    decreases i
  {
    if i > 0 {
      assert processed[list[0]];
      SkipCountUnique(list[1..], processed, i - 1);
    }
  }

  /** What is left of a list once `getNextTask` has advanced past its processed heads. */
  function SkipProcessed(list: seq<nat>, processed: seq<bool>): (r: seq<nat>)
    requires forall k :: 0 <= k < |list| ==> list[k] < |processed|
    ensures |r| <= |list| && forall k :: 0 <= k < |r| ==> r[k] == list[|list| - |r| + k]
    ensures r != [] ==> !processed[r[0]]
    ensures forall k :: 0 <= k < |list| - |r| ==> processed[list[k]]
  {
    list[SkipCount(list, processed)..]
  }

  /** The worker `push` tries at step `i`: `(offset + i) % maxWorkers`. */
  function Rotation(offset: nat, n: nat, i: nat): nat
    requires n > 0
  {
    (offset + i) % n
  }

  /** The step at which a push from `offset` tries worker `w`. */
  ghost function StepOf(offset: nat, n: nat, w: nat): nat
    requires n > 0
  {
    var r := offset % n;
    if w >= r then w - r else w + n - r
  }

  /** For `a > b`, the multiples `a * n` and `b * n` are at least `n` apart. */
  lemma MulGap(a: int, b: int, n: int)
    requires n > 0
    ensures a > b ==> a * n - b * n >= n
  {
    if a > b {
      var j := a - b - 1;
      assert a * n - b * n == j * n + n;
      assert j * n >= 0;
    }
  }

  /** Euclidean division has one quotient and one remainder. */
  lemma ModUnique(x: int, n: int, q: int, r: int)
    requires n > 0 && 0 <= r < n && x == q * n + r
    ensures x % n == r
  {
    var q', r' := x / n, x % n;
    assert x == q' * n + r';
    MulGap(q, q', n);
    MulGap(q', q, n);
  }

  /** `(offset + i) % n` without the division: the rotation wraps once. */
  lemma RotationWraps(offset: nat, n: nat, i: nat)
    requires n > 0 && i < n
    ensures Rotation(offset, n, i) == if offset % n + i < n then offset % n + i else offset % n + i - n
  {
    var q, r := offset / n, offset % n;
    assert offset == q * n + r;
    if r + i < n {
      ModUnique(offset + i, n, q, r + i);
    } else {
      assert (q + 1) * n == q * n + n;
      ModUnique(offset + i, n, q + 1, r + i - n);
    }
  }

  /** One push visits every worker exactly once: step and worker determine each other. */
  lemma RotationIsBijective(offset: nat, n: nat)
    requires n > 0
    ensures forall i :: 0 <= i < n ==> Rotation(offset, n, i) < n && StepOf(offset, n, Rotation(offset, n, i)) == i
    ensures forall w :: 0 <= w < n ==> StepOf(offset, n, w) < n && Rotation(offset, n, StepOf(offset, n, w)) == w
  {
    forall i | 0 <= i < n ensures Rotation(offset, n, i) < n && StepOf(offset, n, Rotation(offset, n, i)) == i {
      RotationWraps(offset, n, i);
    }
    forall w | 0 <= w < n ensures StepOf(offset, n, w) < n && Rotation(offset, n, StepOf(offset, n, w)) == w {
      RotationWraps(offset, n, StepOf(offset, n, w));
    }
  }

  /** The first step, from `from` on, whose worker is unlocked; `n` when there is none. */
  function FirstFree(locks: seq<bool>, offset: nat, n: nat, from: nat): (c: nat)
    requires n > 0 && |locks| == n && from <= n
    ensures from <= c <= n
    ensures c < n ==> !locks[Rotation(offset, n, c)]
    ensures forall j :: from <= j < c ==> locks[Rotation(offset, n, j)]
    decreases n - from
  {
    if from == n then n
    else if !locks[Rotation(offset, n, from)] then from
    else FirstFree(locks, offset, n, from + 1)
  }

  /**
   * The list of the worker visited at `step` after a push of `t` whose claiming
   * step is `c`: workers before the claimer are locked and queue `t` at
   * their tail, the claimer's list is just `t`, later lists see a processed
   * task and are left alone.
   */
  function PushedList(list: seq<nat>, t: nat, step: nat, c: nat): seq<nat> {
    if step < c then list + [t] else if step == c then [t] else list
  }

  /**
   * The scheduler's state as a value: worker count, the per-worker lists,
   * locks and running tasks, each task's `processed` slot, claiming worker
   * (`-1` while unclaimed) and settlement flag, and the two recorded outboxes.
   */
  datatype Sched = Sched(
    n: nat, queue: seq<seq<nat>>, locks: seq<bool>, running: seq<nat>,
    processed: seq<bool>, owner: seq<int>, done: seq<bool>,
    dispatched: seq<Dispatch>, settled: seq<Settlement>)

  ghost predicate Shaped(s: Sched) {
    && |s.queue| == s.n && |s.locks| == s.n && |s.running| == s.n
    && |s.owner| == |s.processed| && |s.done| == |s.processed|
    && (forall w, k :: 0 <= w < s.n && 0 <= k < |s.queue[w]| ==> s.queue[w][k] < |s.processed|)
  }

  /** Every unlocked worker's list is empty, except perhaps the list of `except`. */
  ghost predicate FreeListsEmpty(s: Sched, except: int)
    requires Shaped(s)
  {
    forall w :: 0 <= w < s.n && w != except && !s.locks[w] ==> s.queue[w] == []
  }

  /** A task is processed exactly when a worker has claimed it, and settled only once claimed. */
  ghost predicate Ownership(s: Sched)
    requires Shaped(s)
  {
    forall t :: 0 <= t < |s.processed| ==>
      (s.processed[t] <==> s.owner[t] >= 0) && s.owner[t] < s.n && (s.done[t] ==> s.processed[t])
  }

  /** A locked worker runs a task it claimed and that is not yet settled. */
  ghost predicate LockedRunning(s: Sched)
    requires Shaped(s)
  {
    forall w :: 0 <= w < s.n && s.locks[w] ==>
      s.running[w] < |s.processed| && s.owner[s.running[w]] == w && !s.done[s.running[w]]
  }

  /** A claimed, unsettled task is the running task of its locked worker. */
  ghost predicate InFlight(s: Sched)
    requires Shaped(s) && Ownership(s)
  {
    forall t :: 0 <= t < |s.processed| && s.processed[t] && !s.done[t] ==>
      s.locks[s.owner[t]] && s.running[s.owner[t]] == t
  }

  /** Each dispatch is of a task claimed by the dispatched worker, each task at most once. */
  ghost predicate DispatchedOnce(s: Sched)
    requires Shaped(s)
  {
    && (forall i :: 0 <= i < |s.dispatched| ==>
          s.dispatched[i].task < |s.processed| && s.processed[s.dispatched[i].task] &&
          s.owner[s.dispatched[i].task] == s.dispatched[i].worker)
    && (forall i, j :: 0 <= i < j < |s.dispatched| ==> s.dispatched[i].task != s.dispatched[j].task)
  }

  /** Each settlement is of a settled task, each task at most once. */
  ghost predicate SettledOnce(s: Sched)
    requires Shaped(s)
  {
    && (forall i :: 0 <= i < |s.settled| ==> s.settled[i].task < |s.processed| && s.done[s.settled[i].task])
    && (forall i, j :: 0 <= i < j < |s.settled| ==> s.settled[i].task != s.settled[j].task)
  }

  /**
   * The scheduler's invariant, except that worker `except` may hold tasks while
   * unlocked (as it does between appending to its list and processing it).
   */
  ghost predicate SchedInv(s: Sched, except: int) {
    && Shaped(s) && FreeListsEmpty(s, except) && Ownership(s) && LockedRunning(s) && InFlight(s)
    && DispatchedOnce(s) && SettledOnce(s)
  }

  /** `doWork`'s fresh, unclaimed task. */
  function AddTask(s: Sched): Sched {
    s.(processed := s.processed + [false], owner := s.owner + [-1], done := s.done + [false])
  }

  /** `getNextTask` on worker `w`. */
  function Skip(s: Sched, w: nat): Sched
    requires Shaped(s) && w < s.n
  {
    s.(queue := s.queue[w := SkipProcessed(s.queue[w], s.processed)])
  }

  /** `process` claiming task `t` for worker `w`: mark, lock, execute. */
  function Claim(s: Sched, w: nat, t: nat): Sched
    requires Shaped(s) && w < s.n && t < |s.processed|
  {
    s.(processed := s.processed[t := true], owner := s.owner[t := w], locks := s.locks[w := true],
       running := s.running[w := t], dispatched := s.dispatched + [Dispatch(w, t)])
  }

  /** The linking of `t` at the tail of worker `w`'s list. */
  function Append(s: Sched, w: nat, t: nat): Sched
    requires Shaped(s) && w < s.n
  {
    s.(queue := s.queue[w := s.queue[w] + [t]])
  }

  /** The `onComplete` closure of worker `w`: settle its running task and unlock it. */
  function Settle(s: Sched, w: nat, o: Outcome): Sched
    requires Shaped(s) && w < s.n && s.running[w] < |s.processed|
  {
    s.(settled := s.settled + [Settlement(s.running[w], o)], done := s.done[s.running[w] := true],
       locks := s.locks[w := false])
  }

  /**
   * `process` on worker `w`: nothing while it is locked; otherwise skip the
   * processed heads of its list and claim the head that is left, if any.
   */
  function ProcessOn(s: Sched, w: nat): Sched
    requires Shaped(s) && w < s.n
  {
    if s.locks[w] then s
    else
      var s' := Skip(s, w);
      if s'.queue[w] == [] then s' else Claim(s', w, s'.queue[w][0])
  }

  /** The exemption only matters for an unlocked worker. */
  lemma ExemptLocked(s: Sched, w: nat)
    requires SchedInv(s, w) && w < s.n && s.locks[w]
    ensures SchedInv(s, -1)
  {
  }

  lemma AddTaskKeeps(s: Sched)
    requires SchedInv(s, -1)
    ensures SchedInv(AddTask(s), -1)
  {
    var s' := AddTask(s);
    assert forall t :: 0 <= t < |s.processed| ==>
      s'.processed[t] == s.processed[t] && s'.owner[t] == s.owner[t] && s'.done[t] == s.done[t];
  }

  lemma SkipKeeps(s: Sched, w: nat)
    requires SchedInv(s, w) && w < s.n && !s.locks[w]
    ensures SchedInv(Skip(s, w), w)
    ensures Skip(s, w).queue[w] == [] ==> SchedInv(Skip(s, w), -1)
  {
  }

  /** Claiming the unprocessed head of a free worker's list restores the full invariant. */
  lemma ClaimKeeps(s: Sched, w: nat)
    requires SchedInv(s, w) && w < s.n && !s.locks[w]
    requires s.queue[w] != [] && !s.processed[s.queue[w][0]]
    ensures SchedInv(Claim(s, w, s.queue[w][0]), -1)
  {
    var t := s.queue[w][0];
    var s' := Claim(s, w, t);
    assert s.owner[t] < 0;
    forall i | 0 <= i < |s.dispatched| ensures s.dispatched[i].task != t {
    }
    assert s'.dispatched[|s.dispatched|] == Dispatch(w, t);
    assert LockedRunning(s');
    assert InFlight(s');
  }

  /** Linking an unprocessed task onto a list exempts only that list. */
  lemma AppendKeeps(s: Sched, w: nat, t: nat)
    requires SchedInv(s, -1) && w < s.n && t < |s.processed|
    ensures SchedInv(Append(s, w, t), w)
  {
    var s' := Append(s, w, t);
    assert forall k :: 0 <= k < |s.queue[w]| ==> s'.queue[w][k] == s.queue[w][k];
  }

  /** Settling a locked worker's running task leaves that worker free to drain its list. */
  lemma SettleKeeps(s: Sched, w: nat, o: Outcome)
    requires SchedInv(s, -1) && w < s.n && s.locks[w]
    ensures SchedInv(Settle(s, w, o), w)
  {
    var t := s.running[w];
    var s' := Settle(s, w, o);
    forall i | 0 <= i < |s.settled| ensures s.settled[i].task != t {
    }
    assert s'.settled[|s.settled|] == Settlement(t, o);
    assert LockedRunning(s');
    assert InFlight(s');
  }

  /** `process` turns the invariant with `w` exempt into the full invariant. */
  lemma ProcessKeeps(s: Sched, w: nat)
    requires SchedInv(s, w) && w < s.n
    ensures SchedInv(ProcessOn(s, w), -1)
  {
    if s.locks[w] {
      ExemptLocked(s, w);
    } else {
      SkipKeeps(s, w);
      var s' := Skip(s, w);
      if s'.queue[w] != [] {
        ClaimKeeps(s', w);
      }
    }
  }

  /**
   * No task is lost: every unclaimed task other than `pending` is still linked
   * into every worker's list.
   */
  ghost predicate Waiting(s: Sched, pending: int)
    requires Shaped(s)
  {
    forall t, w :: 0 <= t < |s.processed| && t != pending && !s.processed[t] && 0 <= w < s.n ==> t in s.queue[w]
  }

  /** Skipping the processed heads of a list keeps every unprocessed entry. */
  lemma {:induction false} SkipKeepsUnprocessed(list: seq<nat>, processed: seq<bool>, t: nat)
    requires forall k :: 0 <= k < |list| ==> list[k] < |processed|
    requires t in list && t < |processed| && !processed[t]
    ensures t in SkipProcessed(list, processed)
    decreases |list|
  {
    if processed[list[0]] {
      assert list == [list[0]] + list[1..];
      SkipKeepsUnprocessed(list[1..], processed, t);
    }
  }

  lemma ProcessWaiting(s: Sched, w: nat, pending: int)
    requires Shaped(s) && w < s.n && Waiting(s, pending)
    ensures Shaped(ProcessOn(s, w)) && Waiting(ProcessOn(s, w), pending)
  {
    if !s.locks[w] {
      var s' := Skip(s, w);
      forall t | 0 <= t < |s.processed| && t != pending && !s.processed[t]
        ensures t in s'.queue[w]
      {
        SkipKeepsUnprocessed(s.queue[w], s.processed, t);
      }
    }
  }

  /** Once pushed, the new task is either claimed or linked into every list. */
  lemma PushWaiting(s0: Sched, s: Sched, t: nat, offset: nat)
    requires Shaped(s0) && s0.n > 0 && t < |s0.processed| && Shaped(s)
    requires Pushed(s0, s, t, offset) && Waiting(s, t)
    ensures Waiting(s, -1)
  {
    var n, c := s0.n, FirstFree(s0.locks, offset, s0.n, 0);
    RotationIsBijective(offset, n);
    if c == n {
      forall w | 0 <= w < n ensures t in s.queue[w] {
        assert s.queue[w] == s0.queue[w] + [t];
      }
    } else {
      assert s.processed == s.(queue := s0.queue).processed;
    }
  }

  /** A task `doWork` has just created is the only one not yet linked anywhere. */
  lemma AddTaskWaiting(s: Sched)
    requires Shaped(s) && Waiting(s, -1)
    ensures Shaped(AddTask(s)) && Waiting(AddTask(s), |s.processed|)
  {
  }

  /**
   * A task waits only while every worker is busy: with the invariant, an
   * unclaimed task implies that all the workers are locked.
   */
  lemma WorkConserving(s: Sched, t: nat)
    requires SchedInv(s, -1) && Waiting(s, -1)
    requires t < |s.processed| && !s.processed[t]
    ensures forall w :: 0 <= w < s.n ==> s.locks[w]
  {
    forall w | 0 <= w < s.n ensures s.locks[w] {
      assert t in s.queue[w];
    }
  }

  /**
   * What `enqueue(t, w)` does: nothing to a processed task; a locked worker
   * links it at its tail; a free worker (whose list is empty) claims it.
   */
  ghost predicate Enqueued(s: Sched, s': Sched, t: nat, w: nat)
    requires Shaped(s) && w < s.n && t < |s.processed|
  {
    && (s.processed[t] ==> s' == s)
    && (!s.processed[t] && s.locks[w] ==> s' == Append(s, w, t))
    && (!s.processed[t] && !s.locks[w] ==> s' == Claim(s.(queue := s.queue[w := [t]]), w, t))
  }

  /** Linking an unclaimed task and processing the worker's list is what `enqueue` promises. */
  lemma EnqueueSteps(s: Sched, t: nat, w: nat)
    requires SchedInv(s, -1) && w < s.n && t < |s.processed| && !s.processed[t]
    ensures Enqueued(s, ProcessOn(Append(s, w, t), w), t, w)
  {
    if !s.locks[w] {
      var a := Append(s, w, t);
      assert s.queue[w] == [];
      assert a.queue[w] == [t];
      SkipCountUnique([t], s.processed, 0);
      assert Skip(a, w) == a;
    }
  }

  /** The state of a push of `t` once the steps before `i` are done. */
  ghost predicate PushedUpTo(s0: Sched, s: Sched, t: nat, offset: nat, i: nat)
    requires Shaped(s0) && s0.n > 0 && t < |s0.processed|
  {
    var n, c := s0.n, FirstFree(s0.locks, offset, s0.n, 0);
    && s.n == n && |s.queue| == n
    && (forall w :: 0 <= w < n ==>
          s.queue[w] == if StepOf(offset, n, w) < i then PushedList(s0.queue[w], t, StepOf(offset, n, w), c) else s0.queue[w])
    && (c < i ==> s.(queue := s0.queue) == Claim(s0, Rotation(offset, n, c), t))
    && (i <= c ==> s.(queue := s0.queue) == s0)
  }

  /** The lists a push step changes: only that of the worker it visits. */
  lemma PushStepLists(s0: Sched, s: Sched, s': Sched, t: nat, offset: nat, i: nat)
    requires Shaped(s0) && s0.n > 0 && t < |s0.processed| && i < s0.n
    requires PushedUpTo(s0, s, t, offset, i) && |s'.queue| == s0.n
    requires var w := Rotation(offset, s0.n, i);
      s'.queue == s.queue[w := PushedList(s0.queue[w], t, i, FirstFree(s0.locks, offset, s0.n, 0))]
    ensures forall v :: 0 <= v < s0.n ==>
      s'.queue[v] == if StepOf(offset, s0.n, v) < i + 1
        then PushedList(s0.queue[v], t, StepOf(offset, s0.n, v), FirstFree(s0.locks, offset, s0.n, 0))
        else s0.queue[v]
  {
    var n := s0.n;
    var w := Rotation(offset, n, i);
    RotationIsBijective(offset, n);
    forall v | 0 <= v < n && v != w ensures StepOf(offset, n, v) != i {
      assert Rotation(offset, n, StepOf(offset, n, v)) == v;
    }
  }

  /** One step of a push: enqueueing on the worker visited at step `i`. */
  lemma PushStep(s0: Sched, s: Sched, s': Sched, t: nat, offset: nat, i: nat)
    requires Shaped(s0) && FreeListsEmpty(s0, -1) && s0.n > 0 && t < |s0.processed| && !s0.processed[t] && i < s0.n
    requires Shaped(s) && PushedUpTo(s0, s, t, offset, i)
    requires Enqueued(s, s', t, Rotation(offset, s0.n, i)) && Shaped(s')
    ensures PushedUpTo(s0, s', t, offset, i + 1)
  {
    var n, c := s0.n, FirstFree(s0.locks, offset, s0.n, 0);
    var w := Rotation(offset, n, i);
    RotationWraps(offset, n, i);
    if i < c {
      assert s.locks[w] == s0.locks[w] && s0.locks[w];
      assert s.processed == s0.processed;
      assert s' == Append(s, w, t);
      assert s'.(queue := s0.queue) == s.(queue := s0.queue);
    } else if i == c {
      assert s.locks == s0.locks && s.processed == s0.processed;
      assert s0.queue[w] == [];
      assert s' == Claim(s.(queue := s.queue[w := [t]]), w, t);
    } else {
      assert s.processed == s0.processed[t := true];
      assert s' == s;
    }
    PushStepLists(s0, s, s', t, offset, i);
  }

  /** After every step, the push is complete. */
  lemma PushFinished(s0: Sched, s: Sched, t: nat, offset: nat)
    requires Shaped(s0) && s0.n > 0 && t < |s0.processed|
    requires PushedUpTo(s0, s, t, offset, s0.n)
    ensures Pushed(s0, s, t, offset)
  {
    RotationIsBijective(offset, s0.n);
  }

  /**
   * What a push of `t` from `offset` does to the state `s0`: the workers
   * visited before the first free one queue `t` at their tail, the free one's
   * list becomes `[t]`, the rest are left alone; apart from the lists, the new
   * state is `s0` with `t` claimed by the first free worker, or `s0` itself
   * when every worker is locked.
   */
  ghost predicate Pushed(s0: Sched, s: Sched, t: nat, offset: nat)
    requires Shaped(s0) && t < |s0.processed|
  {
    && s.n == s0.n && |s.queue| == s0.n
    && (s0.n == 0 ==> s == s0)
    && (s0.n > 0 ==>
        var c := FirstFree(s0.locks, offset, s0.n, 0);
        && (forall w :: 0 <= w < s0.n ==> s.queue[w] == PushedList(s0.queue[w], t, StepOf(offset, s0.n, w), c))
        && (c < s0.n ==> s.(queue := s0.queue) == Claim(s0, Rotation(offset, s0.n, c), t))
        && (c == s0.n ==> s.(queue := s0.queue) == s0))
  }

  /** At most one task is in flight per worker: two claimed, unsettled tasks of one worker are the same task. */
  lemma AtMostOneInFlight(s: Sched, t1: nat, t2: nat)
    requires SchedInv(s, -1)
    requires t1 < |s.processed| && s.processed[t1] && !s.done[t1]
    requires t2 < |s.processed| && s.processed[t2] && !s.done[t2]
    requires s.owner[t1] == s.owner[t2]
    ensures t1 == t2
  {
  }

  class TaskQueue {
    const maxWorkers: nat
    var offset: nat
    /** The per-worker lists (`queue[w]` to `last[w]`), the locks, and every task's shared request slots. */
    var state: Sched
    /** Slot 2 of each task's request tuple. */
    var contexts: seq<Entries>

    /**
     * Between calls: the scheduler's invariant holds, no unclaimed task is
     * missing from any list, and every task has its context.
     */
    ghost predicate Valid()
      reads this
    {
      state.n == maxWorkers && SchedInv(state, -1) && Waiting(state, -1) && |contexts| == |state.processed|
    }

    /** The request tuple of task `t`. */
    function Request(t: nat): (m: TaskMessage)
      reads this
      requires t < |state.processed| && |contexts| == |state.processed|
      ensures m.tag == RUN_LOADER && m.processed == state.processed[t] && m.context == Some(contexts[t])
    {
      TaskMessage(RUN_LOADER, state.processed[t], Some(contexts[t]))
    }

    constructor (maxWorkers: nat)
      ensures this.maxWorkers == maxWorkers && Valid()
      ensures offset == 0 && contexts == []
      ensures state.queue == seq(maxWorkers, _ => []) && state.locks == seq(maxWorkers, _ => false)
      ensures state.processed == [] && state.dispatched == [] && state.settled == []
    {
      this.maxWorkers := maxWorkers;
      offset := 0;
      state := Sched(maxWorkers, seq(maxWorkers, _ => []), seq(maxWorkers, _ => false), seq(maxWorkers, _ => 0),
                     [], [], [], [], []);
      contexts := [];
    }

    /** `doWork`: a fresh `[RUN_LOADER, false, context]` tuple, pushed to every list. */
    method DoWork(ctx: Entries) returns (t: nat)
      requires Valid()
      modifies this
      ensures Valid()
      ensures t == old(|state.processed|) && contexts == old(contexts) + [ctx] && offset == old(offset) + 1
      ensures Pushed(AddTask(old(state)), state, t, old(offset))
    {
      AddTaskKeeps(state);
      AddTaskWaiting(state);
      t := |state.processed|;
      state := AddTask(state);
      contexts := contexts + [ctx];
      Push(t);
    }

    /** `getNextTask`: advance the list past processed heads and return its head, if any. */
    method GetNextTask(w: nat) returns (next: Option<nat>)
      requires Shaped(state) && w < state.n
      modifies this`state
      ensures state == Skip(old(state), w)
      ensures next == if state.queue[w] == [] then None else Some(state.queue[w][0])
      ensures next.Some? ==> !state.processed[next.value]
    {
      var list := state.queue[w];
      var i := 0;
      while i < |list| && state.processed[list[i]]
        invariant i <= |list|
        invariant forall k :: 0 <= k < i ==> state.processed[list[k]]
      {
        i := i + 1;
      }
      SkipCountUnique(list, state.processed, i);
      state := state.(queue := state.queue[w := list[i..]]);
      next := if i == |list| then None else Some(list[i]);
    }

    /** `process`: if the worker is free and its list holds an unclaimed task, claim it, lock, execute. */
    method Process(w: nat)
      requires SchedInv(state, w) && w < state.n
      modifies this`state
      ensures SchedInv(state, -1)
      ensures state == ProcessOn(old(state), w)
    {
      ProcessKeeps(state, w);
      if state.locks[w] {
        return;
      }
      var next := GetNextTask(w);
      if next.None? {
        return;
      }
      state := Claim(state, w, next.value);
    }

    /** `enqueue`: refuse a processed task, otherwise append it to the worker's list and process. */
    method Enqueue(t: nat, w: nat)
      requires SchedInv(state, -1) && Waiting(state, t) && w < state.n && t < |state.processed|
      modifies this`state
      ensures SchedInv(state, -1) && Waiting(state, t)
      ensures Enqueued(old(state), state, t, w)
    {
      if state.processed[t] {
        return;
      }
      AppendKeeps(state, w, t);
      EnqueueSteps(state, t, w);
      state := Append(state, w, t);
      ProcessWaiting(state, w, t);
      Process(w);
    }

    /** `push`: enqueue on every worker in rotation from `offset`, then advance `offset`. */
    method Push(t: nat)
      requires SchedInv(state, -1) && Waiting(state, t) && state.n == maxWorkers
      requires t < |state.processed| && !state.processed[t] && |contexts| == |state.processed|
      modifies this
      ensures Valid()
      ensures contexts == old(contexts) && offset == old(offset) + 1
      ensures Pushed(old(state), state, t, old(offset))
    {
      var n := maxWorkers;
      if n == 0 {
        offset := offset + 1;
        return;
      }
      ghost var s0 := state;
      for i := 0 to n
        invariant SchedInv(state, -1) && Waiting(state, t)
        invariant offset == old(offset) && contexts == old(contexts)
        invariant PushedUpTo(s0, state, t, offset, i)
      {
        ghost var s := state;
        Enqueue(t, Rotation(offset, n, i));
        PushStep(s0, s, state, t, offset, i);
      }
      PushFinished(s0, state, t, offset);
      PushWaiting(s0, state, t, offset);
      offset := offset + 1;
    }

    /**
     * The `onComplete` closure of worker `w`'s running task: call the task's
     * own callback, unlock the worker, and start its next unclaimed task.
     */
    method Complete(w: nat, error: Value, result: Value)
      requires Valid() && w < maxWorkers && state.locks[w]
      modifies this`state
      ensures Valid()
      ensures state == ProcessOn(Settle(old(state), w, TaskOutcome(error, result)), w)
      ensures state.settled == old(state.settled) + [Settlement(old(state.running[w]), TaskOutcome(error, result))]
    {
      var o := TaskOutcome(error, result);
      SettleKeeps(state, w, o);
      state := Settle(state, w, o);
      ProcessWaiting(state, w, -1);
      Process(w);
    }
  }
}
