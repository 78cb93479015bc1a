/** The request scheduler on its worker pool: capacity and freedom from deadlock.

    A state is what the two locks protect, plus where each started task is: handed back
    to a dispatching or completing thread but not yet to the pool, queued in the pool, or
    running on a worker. Steps are single lock holds, in any interleaving. */
module FusePool {
  import opened KeyOrder
  import opened FuseScheduler
  import SchedulerRuns
  import WP = WorkerPool

  datatype Sys<K> = Sys(run: Run<K>, pool: WP.Pool<nat>, handed: set<nat>, running: set<nat>, between: nat)

  function Initial<K>(): Sys<K> {
    Sys(SchedulerRuns.Initial(), WP.Pool(0, 0, [], 0, 0), {}, {}, 0)
  }

  ghost predicate Dispatch<K(!new)>(limit: nat, s: Sys<K>, t: Sys<K>, keys: seq<Claim<K>>) {
    && |s.run.tasks| < limit && SubmitStep(s.run, t.run, keys)
    && t == s.(run := t.run, handed := s.handed + if t.run.tasks[t.run.nextId].started then {t.run.nextId} else {})
  }

  /** A started task's job goes to the pool. */
  ghost predicate Hand<K>(c: WP.Config, s: Sys<K>, t: Sys<K>, id: nat) {
    && id in s.handed
    && var (p, o) := WP.SubmitTo(c, s.pool, id);
       t == s.(pool := p, handed := s.handed - {id},
               running := s.running + if o.StartedWorker? then {id} else {})
  }

  /** A running task's body ends and completes its task. */
  ghost predicate Finish<K(!new)>(s: Sys<K>, t: Sys<K>, id: nat, starts: seq<nat>) {
    && id in s.running && CompleteStep(s.run, t.run, id, starts)
    && t == s.(run := t.run, running := s.running - {id}, between := s.between + 1,
               handed := s.handed + (set i | i in starts))
  }

  /** A worker whose job has returned takes the lock again. */
  ghost predicate Turn<K>(c: WP.Config, s: Sys<K>, t: Sys<K>) {
    && s.between > 0 && s.pool.active > s.pool.idle
    && var (p, next) := WP.FinishJob(c, s.pool);
       t == s.(pool := p, between := s.between - 1, running := s.running + if next.Work? then {next.job} else {})
  }

  ghost predicate Wake<K>(s: Sys<K>, t: Sys<K>) {
    && 0 < s.pool.idle <= s.pool.active
    && var (p, next) := WP.Wake(s.pool);
       t == s.(pool := p, running := s.running + if next.Work? then {next.job} else {})
  }

  /** Any step but a new request. */
  ghost predicate Work<K(!new)>(c: WP.Config, s: Sys<K>, t: Sys<K>) {
    || (exists id :: Hand(c, s, t, id))
    || (exists id, starts :: Finish(s, t, id, starts))
    || Turn(c, s, t)
    || Wake(s, t)
  }

  ghost predicate Next<K(!new)>(c: WP.Config, limit: nat, s: Sys<K>, t: Sys<K>) {
    || (exists keys :: Dispatch(limit, s, t, keys))
    || Work(c, s, t)
  }

  ghost predicate IsRun<K(!new)>(c: WP.Config, limit: nat, states: seq<Sys<K>>) {
    && states != [] && states[0] == Initial()
    && forall i :: 0 <= i < |states| - 1 ==> Next(c, limit, states[i], states[i + 1])
  }

  function Elements(q: seq<nat>): set<nat> {
    set i | i in q
  }

  ghost function StartedTasks<K>(tasks: Tasks<K>): set<nat> {
    set i | i in tasks && tasks[i].started
  }

  /** Each started task is in exactly one place. */
  ghost predicate PlacedOnce(started: set<nat>, handed: set<nat>, running: set<nat>, queue: seq<nat>) {
    && started == handed + running + Elements(queue)
    && handed !! running !! Elements(queue)
    && NoRepeats(queue)
  }

  /** ... and each worker is accounted for. */
  ghost predicate Placed<K>(s: Sys<K>) {
    && PlacedOnce(StartedTasks(s.run.tasks), s.handed, s.running, s.pool.queue)
    && s.pool.active == s.pool.idle + |s.running| + s.between
  }

  ghost predicate Inv<K(!new)>(c: WP.Config, limit: nat, s: Sys<K>) {
    && SchedulerRuns.Inv(limit, s.run)
    && WP.Inv(c, s.pool)
    && s.pool.rejected == 0
    && Placed(s)
  }

  // ── capacity ─────────────────────────────────────────────────────────────

  lemma {:induction false} SeqSize(q: seq<nat>)
    requires NoRepeats(q)
    ensures |Elements(q)| == |q|
  {
    if q != [] {
      PopElements(q);
      SeqSize(q[1..]);
    }
  }

  lemma SubsetSize(a: set<nat>, b: set<nat>)
    requires a <= b
    ensures |a| <= |b|
  {
    assert b == a + (b - a);
  }

  /** With a queue as long as the number of live tasks allowed, a runnable task is never refused. */
  lemma NeverRefused<K(!new)>(c: WP.Config, limit: nat, s: Sys<K>, id: nat)
    requires Inv(c, limit, s) && c.queueCap >= limit && id in s.handed
    ensures !WP.SubmitTo(c, s.pool, id).1.Refused?
  {
    assert StartedTasks(s.run.tasks) <= s.run.tasks.Keys;
    RoomInQueue(s.run.tasks.Keys, StartedTasks(s.run.tasks), s.handed, s.running, s.pool.queue, id);
  }

  lemma RoomInQueue(live: set<nat>, started: set<nat>, handed: set<nat>, running: set<nat>, queue: seq<nat>, id: nat)
    requires PlacedOnce(started, handed, running, queue) && started <= live && id in handed
    ensures |queue| < |live|
  {
    SeqSize(queue);
    var waiting := Elements(queue) + {id};
    SubsetSize(waiting, live);
    assert id !in Elements(queue);
    assert |waiting| == |queue| + 1;
  }

  // ── every step keeps the invariant ───────────────────────────────────────

  lemma PlaceNew(started: set<nat>, handed: set<nat>, running: set<nat>, queue: seq<nat>, more: set<nat>)
    requires PlacedOnce(started, handed, running, queue) && more !! started
    ensures PlacedOnce(started + more, handed + more, running, queue)
  {
  }

  lemma PlaceFinished(started: set<nat>, handed: set<nat>, running: set<nat>, queue: seq<nat>, id: nat)
    requires PlacedOnce(started, handed, running, queue) && id in running
    ensures PlacedOnce(started - {id}, handed, running - {id}, queue)
  {
  }

  lemma PlaceHanded(started: set<nat>, handed: set<nat>, running: set<nat>, queue: seq<nat>, id: nat)
    requires PlacedOnce(started, handed, running, queue) && id in handed
    ensures PlacedOnce(started, handed - {id}, running + {id}, queue)
    ensures PlacedOnce(started, handed - {id}, running, queue + [id])
  {
    assert id !in Elements(queue);
    AppendElements(queue, id);
  }

  lemma DispatchStarts<K(!new)>(tasks: Tasks<K>, after: Tasks<K>, id: nat, merged: seq<Claim<K>>)
    requires forall i :: i in tasks ==> i < id
    requires Settled(tasks, ClaimsOf(tasks)) && IsRescan(tasks[id := Task(merged, false)], after)
    ensures id in after && id !in StartedTasks(tasks)
    ensures StartedTasks(after) == StartedTasks(tasks) + if after[id].started then {id} else {}
  {
    SchedulerRuns.OneMoreTask(tasks, after, id, merged);
    forall i | i in tasks ensures after[i] == tasks[i] {
      SchedulerRuns.AddedTaskStartsAlone(tasks, after, id, merged, i);
    }
    StartedUnion(tasks, after, id);
  }

  lemma StartedUnion<K>(tasks: Tasks<K>, after: Tasks<K>, id: nat)
    requires id !in tasks && after.Keys == tasks.Keys + {id}
    requires forall i :: i in tasks ==> after[i] == tasks[i]
    ensures StartedTasks(after) == StartedTasks(tasks) + if after[id].started then {id} else {}
  {
  }

  lemma TasksBelow<K(!new)>(s: Run<K>)
    requires SchedulerRuns.Known(s)
    ensures forall i :: i in s.tasks ==> i < s.nextId + 1
  {
    forall i | i in s.tasks ensures i < s.nextId + 1 {
      assert i in s.asked;
    }
  }

  lemma DispatchKeepsPlaced<K(!new)>(limit: nat, s: Sys<K>, t: Sys<K>, keys: seq<Claim<K>>)
    requires Placed(s) && SchedulerRuns.Known(s.run) && Settled(s.run.tasks, ClaimsOf(s.run.tasks))
    requires Dispatch(limit, s, t, keys)
    ensures Placed(t)
  {
    var more := DispatchStartsOne(limit, s, t, keys);
    PlacedMore(s, t, more);
  }

  lemma DispatchStartsOne<K(!new)>(limit: nat, s: Sys<K>, t: Sys<K>, keys: seq<Claim<K>>) returns (more: set<nat>)
    requires SchedulerRuns.Known(s.run) && Settled(s.run.tasks, ClaimsOf(s.run.tasks))
    requires Dispatch(limit, s, t, keys)
    ensures StartedTasks(t.run.tasks) == StartedTasks(s.run.tasks) + more && more !! StartedTasks(s.run.tasks)
    ensures t == s.(run := t.run, handed := s.handed + more)
  {
    more := SubmitStartsOne(s.run, t.run, keys);
  }

  lemma SubmitStartsOne<K(!new)>(s: Run<K>, t: Run<K>, keys: seq<Claim<K>>) returns (more: set<nat>)
    requires SchedulerRuns.Known(s) && Settled(s.tasks, ClaimsOf(s.tasks)) && SubmitStep(s, t, keys)
    ensures t.nextId in t.tasks && more == if t.tasks[t.nextId].started then {t.nextId} else {}
    ensures StartedTasks(t.tasks) == StartedTasks(s.tasks) + more && more !! StartedTasks(s.tasks)
  {
    TasksBelow(s);
    more := if t.tasks[t.nextId].started then {t.nextId} else {};
    DispatchStarts(s.tasks, t.tasks, t.nextId, t.tasks[t.nextId].keys);
  }

  lemma PlacedMore<K>(s: Sys<K>, t: Sys<K>, more: set<nat>)
    requires Placed(s) && t == s.(run := t.run, handed := s.handed + more)
    requires StartedTasks(t.run.tasks) == StartedTasks(s.run.tasks) + more && more !! StartedTasks(s.run.tasks)
    ensures Placed(t)
  {
    PlaceNew(StartedTasks(s.run.tasks), s.handed, s.running, s.pool.queue, more);
  }

  lemma DispatchKeepsInv<K(!new)>(c: WP.Config, limit: nat, s: Sys<K>, t: Sys<K>, keys: seq<Claim<K>>)
    requires Inv(c, limit, s) && Dispatch(limit, s, t, keys)
    ensures Inv(c, limit, t)
  {
    SchedulerRuns.SubmitKeepsInv(limit, s.run, t.run, keys);
    DispatchKeepsPlaced(limit, s, t, keys);
  }

  lemma FinishStarts<K>(before: Tasks<K>, after: Tasks<K>, id: nat, starts: seq<nat>)
    requires before.Keys - {id} == after.Keys && NewlyStarted(before, after, starts)
    requires forall i :: i in after && before[i].started ==> after[i].started
    ensures StartedTasks(after) == StartedTasks(before) - {id} + Elements(starts)
    ensures Elements(starts) !! StartedTasks(before)
  {
    forall i ensures i in StartedTasks(after) <==> i in StartedTasks(before) - {id} || i in starts {
    }
  }

  lemma FinishKeepsPlaced<K(!new)>(s: Sys<K>, t: Sys<K>, id: nat, starts: seq<nat>)
    requires Placed(s) && Finish(s, t, id, starts)
    requires t.run.tasks.Keys == s.run.tasks.Keys - {id}
    ensures Placed(t)
  {
    FinishStarts(s.run.tasks, t.run.tasks, id, starts);
    var started := StartedTasks(s.run.tasks);
    PlaceFinished(started, s.handed, s.running, s.pool.queue, id);
    PlaceNew(started - {id}, s.handed, s.running - {id}, s.pool.queue, Elements(starts));
    assert |t.running| == |s.running| - 1;
  }

  lemma FinishKeepsInv<K(!new)>(c: WP.Config, limit: nat, s: Sys<K>, t: Sys<K>, id: nat, starts: seq<nat>)
    requires Inv(c, limit, s) && Finish(s, t, id, starts)
    ensures Inv(c, limit, t)
  {
    SchedulerRuns.CompleteKeepsInv(limit, s.run, t.run, id, starts);
    SchedulerRuns.CompleteKeepsTable(s.run, t.run, id, starts);
    FinishKeepsPlaced(s, t, id, starts);
  }

  lemma AppendElements(q: seq<nat>, i: nat)
    requires NoRepeats(q) && i !in q
    ensures NoRepeats(q + [i]) && Elements(q + [i]) == Elements(q) + {i}
  {
    assert forall k :: 0 <= k < |q| ==> q[k] in q;
  }

  lemma PopElements(q: seq<nat>)
    requires NoRepeats(q) && q != []
    ensures NoRepeats(q[1..]) && Elements(q) == Elements(q[1..]) + {q[0]} && q[0] !in Elements(q[1..])
  {
    var rest := q[1..];
    assert q == [q[0]] + rest;
    forall i, j | 0 <= i < j < |rest| ensures rest[i] != rest[j] {
      assert rest[i] == q[i + 1] && rest[j] == q[j + 1];
    }
    forall k | 0 <= k < |rest| ensures rest[k] != q[0] {
      assert rest[k] == q[k + 1];
    }
  }

  lemma HandKeepsInv<K(!new)>(c: WP.Config, limit: nat, s: Sys<K>, t: Sys<K>, id: nat)
    requires Inv(c, limit, s) && c.queueCap >= limit && Hand(c, s, t, id)
    ensures Inv(c, limit, t)
  {
    NeverRefused(c, limit, s, id);
    WP.SubmitKeepsInv(c, s.pool, id);
    HandKeepsPlaced(c, s, t, id);
  }

  lemma HandKeepsPlaced<K>(c: WP.Config, s: Sys<K>, t: Sys<K>, id: nat)
    requires Placed(s) && WP.Inv(c, s.pool) && Hand(c, s, t, id) && !WP.SubmitTo(c, s.pool, id).1.Refused?
    ensures Placed(t)
  {
    if WP.SubmitTo(c, s.pool, id).1.StartedWorker? {
      HandedRuns(s, t, id);
    } else {
      HandedWaits(s, t, id);
    }
  }

  lemma HandedRuns<K>(s: Sys<K>, t: Sys<K>, id: nat)
    requires Placed(s) && id in s.handed && t.run == s.run && t.handed == s.handed - {id}
    requires t.running == s.running + {id} && t.pool.queue == s.pool.queue
    requires t.pool.active - t.pool.idle - t.between == s.pool.active - s.pool.idle - s.between + 1
    ensures Placed(t)
  {
    PlaceHanded(StartedTasks(s.run.tasks), s.handed, s.running, s.pool.queue, id);
    OneMoreRunning(s.running, id);
  }

  lemma HandedWaits<K>(s: Sys<K>, t: Sys<K>, id: nat)
    requires Placed(s) && id in s.handed && t.run == s.run && t.handed == s.handed - {id}
    requires t.running == s.running && t.pool.queue == s.pool.queue + [id]
    requires t.pool.active - t.pool.idle - t.between == s.pool.active - s.pool.idle - s.between
    ensures Placed(t)
  {
    PlaceHanded(StartedTasks(s.run.tasks), s.handed, s.running, s.pool.queue, id);
  }

  lemma OneMoreRunning(running: set<nat>, id: nat)
    ensures id !in running ==> |running + {id}| == |running| + 1
  {
  }

  /** A worker that takes a job takes the oldest queued one. */
  lemma TakeKeepsPlaced<K>(s: Sys<K>, t: Sys<K>)
    requires Placed(s) && t.run == s.run && t.handed == s.handed
    requires
      || (&& s.pool.queue != [] && t.pool.queue == s.pool.queue[1..]
          && t.running == s.running + {s.pool.queue[0]}
          && t.pool.active - t.pool.idle - t.between == s.pool.active - s.pool.idle - s.between + 1)
      || (&& t.pool.queue == s.pool.queue && t.running == s.running
          && t.pool.active - t.pool.idle - t.between == s.pool.active - s.pool.idle - s.between)
    ensures Placed(t)
  {
    if t.running != s.running {
      PlaceTaken(StartedTasks(s.run.tasks), s.handed, s.running, s.pool.queue);
    }
  }

  lemma PlaceTaken(started: set<nat>, handed: set<nat>, running: set<nat>, queue: seq<nat>)
    requires PlacedOnce(started, handed, running, queue) && queue != []
    ensures PlacedOnce(started, handed, running + {queue[0]}, queue[1..])
    ensures |running + {queue[0]}| == |running| + 1
  {
    PopElements(queue);
    OneMoreRunning(running, queue[0]);
  }

  lemma TurnKeepsInv<K(!new)>(c: WP.Config, limit: nat, s: Sys<K>, t: Sys<K>)
    requires Inv(c, limit, s) && (Turn(c, s, t) || Wake(s, t))
    ensures Inv(c, limit, t)
  {
    WP.TurnKeepsInv(c, s.pool);
    TakeKeepsPlaced(s, t);
  }

  lemma {:induction false} RunKeepsInv<K(!new)>(c: WP.Config, limit: nat, states: seq<Sys<K>>)
    requires IsRun(c, limit, states) && c.queueCap >= limit
    ensures Inv(c, limit, states[|states| - 1])
    decreases |states|
  {
    var n := |states| - 1;
    if n > 0 {
      RunKeepsInv(c, limit, states[..n]);
      assert Next(c, limit, states[n - 1], states[n - 1 + 1]);
      StepKeepsInv(c, limit, states[n - 1], states[n]);
    }
  }

  lemma StepKeepsInv<K(!new)>(c: WP.Config, limit: nat, s: Sys<K>, t: Sys<K>)
    requires Inv(c, limit, s) && c.queueCap >= limit && Next(c, limit, s, t)
    ensures Inv(c, limit, t)
  {
    if keys :| Dispatch(limit, s, t, keys) {
      DispatchKeepsInv(c, limit, s, t, keys);
    } else if id :| Hand(c, s, t, id) {
      HandKeepsInv(c, limit, s, t, id);
    } else if id, starts :| Finish(s, t, id, starts) {
      FinishKeepsInv(c, limit, s, t, id, starts);
    } else {
      TurnKeepsInv(c, limit, s, t);
    }
  }

  // ── the promises ─────────────────────────────────────────────────────────

  /** In every reachable state the pool has refused nothing, never holds more jobs than there
      are live tasks, and takes whatever is handed to it next. */
  lemma RunnableTasksAreNeverRefused<K(!new)>(c: WP.Config, limit: nat, states: seq<Sys<K>>)
    requires IsRun(c, limit, states) && c.queueCap >= limit
    ensures
      var last := states[|states| - 1];
      && last.pool.rejected == 0
      && |last.run.tasks| <= limit && last.pool.active <= c.maxWorkers
      && forall id :: id in last.handed ==> !WP.SubmitTo(c, last.pool, id).1.Refused?
  {
    RunKeepsInv(c, limit, states);
    var last := states[|states| - 1];
    forall id | id in last.handed ensures !WP.SubmitTo(c, last.pool, id).1.Refused? {
      NeverRefused(c, limit, last, id);
    }
  }

  /** While a task is live, some thread has a step to take: nothing waits for ever. */
  lemma NoDeadlock<K(!new)>(c: WP.Config, limit: nat, states: seq<Sys<K>>) returns (t: Sys<K>)
    requires IsRun(c, limit, states) && c.queueCap >= limit && c.maxWorkers >= 1
    requires states[|states| - 1].run.tasks != map[]
    ensures Work(c, states[|states| - 1], t)
  {
    RunKeepsInv(c, limit, states);
    t := SomeStep(c, limit, states[|states| - 1]);
  }

  lemma SomeStep<K(!new)>(c: WP.Config, limit: nat, s: Sys<K>) returns (t: Sys<K>)
    requires Inv(c, limit, s) && c.maxWorkers >= 1 && s.run.tasks != map[]
    ensures Work(c, s, t)
  {
    if s.handed != {} {
      var id :| id in s.handed;
      t := HandStep(c, s, id);
    } else if s.running != {} {
      var id :| id in s.running;
      t := FinishStep(s, id);
    } else {
      var id := SchedulerRuns.OldestRuns(limit, s.run);
      QueueHolds(s, id);
      t := PoolStep(c, s);
    }
  }

  lemma HandStep<K>(c: WP.Config, s: Sys<K>, id: nat) returns (t: Sys<K>)
    requires id in s.handed
    ensures Hand(c, s, t, id)
  {
    var (p, o) := WP.SubmitTo(c, s.pool, id);
    t := s.(pool := p, handed := s.handed - {id}, running := s.running + if o.StartedWorker? then {id} else {});
  }

  lemma FinishStep<K(!new)>(s: Sys<K>, id: nat) returns (t: Sys<K>)
    requires Placed(s) && id in s.running
    ensures exists starts :: Finish(s, t, id, starts)
  {
    assert id in StartedTasks(s.run.tasks);
    var run, starts := SchedulerRuns.CompletionExists(s.run, id);
    t := s.(run := run, running := s.running - {id}, between := s.between + 1,
        handed := s.handed + (set i | i in starts));
    assert Finish(s, t, id, starts);
  }

  lemma QueueHolds<K>(s: Sys<K>, id: nat)
    requires Placed(s) && s.handed == {} && s.running == {} && id in s.run.tasks && s.run.tasks[id].started
    ensures s.pool.queue != []
  {
    assert id in StartedTasks(s.run.tasks);
    assert id in Elements(s.pool.queue);
  }

  lemma PoolStep<K(!new)>(c: WP.Config, s: Sys<K>) returns (t: Sys<K>)
    requires WP.Inv(c, s.pool) && Placed(s) && s.running == {} && s.pool.queue != [] && c.maxWorkers >= 1
    ensures Turn(c, s, t) || Wake(s, t)
  {
    if s.between > 0 {
      var (p, next) := WP.FinishJob(c, s.pool);
      t := s.(pool := p, between := s.between - 1, running := s.running + if next.Work? then {next.job} else {});
    } else {
      var (p, next) := WP.Wake(s.pool);
      t := s.(pool := p, running := s.running + if next.Work? then {next.job} else {});
    }
  }

  /** What is left to do: a live task counts five, less as it is handed over, queued and run; a
      worker between jobs counts two, an idle one one. */
  function Todo<K>(s: Sys<K>): int {
    5 * |s.run.tasks| - |s.handed| - 2 * |s.pool.queue| - 2 * |s.running| + 2 * s.between + s.pool.idle
  }

  lemma TodoIsNatural<K(!new)>(s: Sys<K>)
    requires Placed(s)
    ensures Todo(s) >= 0
  {
    SeqSize(s.pool.queue);
    var started := StartedTasks(s.run.tasks);
    assert |started| == |s.handed| + |s.running| + |Elements(s.pool.queue)|;
    assert started <= s.run.tasks.Keys;
    SubsetSize(started, s.run.tasks.Keys);
    assert |s.run.tasks.Keys| == |s.run.tasks|;
  }

  /** Every step that is not a new request leaves less to do. */
  lemma WorkDecreases<K(!new)>(c: WP.Config, limit: nat, s: Sys<K>, t: Sys<K>)
    requires Inv(c, limit, s) && c.queueCap >= limit && Work(c, s, t)
    ensures Todo(t) < Todo(s)
  {
    if id :| Hand(c, s, t, id) {
      NeverRefused(c, limit, s, id);
      HandDecreases(c, s, t, id);
    } else if id, starts :| Finish(s, t, id, starts) {
      FinishDecreases(s, t, id, starts);
    } else {
      TurnDecreases(c, s, t);
    }
  }

  lemma HandDecreases<K>(c: WP.Config, s: Sys<K>, t: Sys<K>, id: nat)
    requires Placed(s) && Hand(c, s, t, id) && !WP.SubmitTo(c, s.pool, id).1.Refused?
    ensures Todo(t) < Todo(s)
  {
    assert |t.handed| == |s.handed| - 1;
    OneMoreRunning(s.running, id);
  }

  lemma FinishDecreases<K(!new)>(s: Sys<K>, t: Sys<K>, id: nat, starts: seq<nat>)
    requires Settled(s.run.tasks, ClaimsOf(s.run.tasks)) && Finish(s, t, id, starts)
    ensures Todo(t) < Todo(s)
  {
    SchedulerRuns.CompleteKeepsTable(s.run, t.run, id, starts);
    SubsetSize(s.handed, t.handed);
    assert |t.running| == |s.running| - 1;
  }

  lemma TurnDecreases<K>(c: WP.Config, s: Sys<K>, t: Sys<K>)
    requires WP.Inv(c, s.pool) && Placed(s) && (Turn(c, s, t) || Wake(s, t))
    ensures Todo(t) < Todo(s)
  {
    if s.pool.queue != [] {
      PlaceTaken(StartedTasks(s.run.tasks), s.handed, s.running, s.pool.queue);
    }
  }

  /** No new request from state `n` on. */
  ghost predicate OnlyWork<K(!new)>(c: WP.Config, states: seq<Sys<K>>, n: nat) {
    forall i :: n <= i < |states| - 1 ==> Work(c, states[i], states[i + 1])
  }

  lemma InvAt<K(!new)>(c: WP.Config, limit: nat, states: seq<Sys<K>>, i: nat)
    requires IsRun(c, limit, states) && c.queueCap >= limit && i < |states|
    ensures Inv(c, limit, states[i])
  {
    var some := states[..i + 1];
    forall k | 0 <= k < |some| - 1 ensures Next(c, limit, some[k], some[k + 1]) {
      assert Next(c, limit, states[k], states[k + 1]);
    }
    RunKeepsInv(c, limit, some);
  }

  lemma WorkAtDecreases<K(!new)>(c: WP.Config, limit: nat, states: seq<Sys<K>>, n: nat, i: nat)
    requires IsRun(c, limit, states) && c.queueCap >= limit && n <= i < |states| - 1 && OnlyWork(c, states, n)
    ensures Todo(states[i + 1]) < Todo(states[i])
  {
    InvAt(c, limit, states, i);
    WorkDecreases(c, limit, states[i], states[i + 1]);
  }

  ghost function Todos<K>(states: seq<Sys<K>>): seq<int> {
    seq(|states|, i requires 0 <= i < |states| => Todo(states[i]))
  }

  /** A number that falls with each step bounds their number. */
  lemma {:induction false} FallingIsBounded(a: seq<int>, n: nat, k: nat)
    requires n <= k < |a| && forall i :: n < i < |a| ==> Drops(a, i)
    ensures k - n + a[k] <= a[n]
    decreases k
  {
    if n < k {
      FallingIsBounded(a, n, k - 1);
      var step := Drops(a, k);
      assert step;
    }
  }

  predicate Drops(a: seq<int>, i: nat)
    requires 0 < i < |a|
  {
    a[i] < a[i - 1]
  }

  ghost predicate Falls<K>(states: seq<Sys<K>>, n: nat) {
    forall i :: n < i < |states| ==> Drops(Todos(states), i)
  }

  lemma WorkFalls<K(!new)>(c: WP.Config, limit: nat, states: seq<Sys<K>>, n: nat)
    requires IsRun(c, limit, states) && c.queueCap >= limit && OnlyWork(c, states, n)
    ensures Falls(states, n)
  {
    forall i | n < i < |states| ensures Drops(Todos(states), i) {
      WorkAtDecreases(c, limit, states, n, i - 1);
    }
  }

  lemma FallsBounded<K>(states: seq<Sys<K>>, n: nat)
    requires n < |states| && Falls(states, n)
    ensures |states| - 1 - n + Todo(states[|states| - 1]) <= Todo(states[n])
  {
    FallingIsBounded(Todos(states), n, |states| - 1);
  }

  /** No step is possible but a new request. */
  ghost predicate Stuck<K(!new)>(c: WP.Config, s: Sys<K>) {
    forall t :: !Work(c, s, t)
  }

  /** All work ends: without new requests there are at most as many steps as there is left to
      do, and when no more is possible no task is live. */
  lemma AllWorkEnds<K(!new)>(c: WP.Config, limit: nat, states: seq<Sys<K>>, n: nat)
    requires IsRun(c, limit, states) && c.queueCap >= limit && c.maxWorkers >= 1
    requires n < |states| && OnlyWork(c, states, n)
    ensures |states| - 1 - n <= Todo(states[n])
    ensures Stuck(c, states[|states| - 1]) ==> states[|states| - 1].run.tasks == map[]
  {
    WorkFalls(c, limit, states, n);
    FallsBounded(states, n);
    LeftIsNatural(c, limit, states);
    StuckIsDone(c, limit, states);
  }

  lemma LeftIsNatural<K(!new)>(c: WP.Config, limit: nat, states: seq<Sys<K>>)
    requires IsRun(c, limit, states) && c.queueCap >= limit
    ensures Todo(states[|states| - 1]) >= 0
  {
    RunKeepsInv(c, limit, states);
    TodoIsNatural(states[|states| - 1]);
  }

  lemma StuckIsDone<K(!new)>(c: WP.Config, limit: nat, states: seq<Sys<K>>)
    requires IsRun(c, limit, states) && c.queueCap >= limit && c.maxWorkers >= 1
    ensures Stuck(c, states[|states| - 1]) ==> states[|states| - 1].run.tasks == map[]
  {
    if states[|states| - 1].run.tasks != map[] {
      var t := NoDeadlock(c, limit, states);
    }
  }
}
