/** The FUSE request scheduler: per-key FIFO queues, a task table, and a
    completion step that wakes only the tasks a shortcut names.

    The class keeps the queues and the table exactly as the program does. Its
    contracts are stated over the table alone: submitting or completing a task
    leaves the table a full rescan of every live task would leave (`IsRescan`),
    so the shortcut in `Complete` loses no wake-up and starts nothing early. */
module FuseScheduler {
  import opened KeyOrder

  /** `started` is the program's "the job has been taken". */
  datatype Task<K> = Task(keys: seq<Claim<K>>, started: bool)

  type Tasks<K> = map<nat, Task<K>>

  ghost function ClaimsOf<K>(tasks: Tasks<K>): Table<K> {
    map i | i in tasks :: tasks[i].keys
  }

  /** Started are exactly the tasks nothing earlier conflicts with. */
  ghost predicate Settled<K(!new)>(tasks: Tasks<K>, table: Table<K>) {
    forall i {:trigger tasks[i].started} :: i in tasks && i in table ==> (tasks[i].started <==> Unblocked(table, i))
  }

  ghost predicate SameClaims<K>(a: Tasks<K>, b: Tasks<K>) {
    a.Keys == b.Keys && forall i :: i in a ==> a[i].keys == b[i].keys
  }

  /** `after` is `before` with every live task looked at again, and started if nothing
      earlier conflicts with it. */
  ghost predicate IsRescan<K(!new)>(before: Tasks<K>, after: Tasks<K>) {
    && SameClaims(before, after)
    && forall i {:trigger after[i].started} :: i in before ==>
         (after[i].started <==> before[i].started || Unblocked(ClaimsOf(after), i))
  }

  ghost predicate StillStarted<K>(before: Tasks<K>, after: Tasks<K>) {
    forall i {:trigger after[i].started} :: i in before && i in after && before[i].started ==> after[i].started
  }

  /** No task with a smaller id conflicts with `keys`. */
  ghost predicate MayRun<K(!new)>(tasks: Tasks<K>, id: nat, keys: seq<Claim<K>>) {
    forall i {:trigger Conflict(tasks[i].keys, keys)} :: i in tasks && i < id ==> !Conflict(tasks[i].keys, keys)
  }

  // ── the scheduler as a transition system ─────────────────────────────────

  datatype Event = Submitted(id: nat) | Started(id: nat) | Finished(id: nat)

  /** One lock hold apart: the table, every request ever submitted with the keys it named,
      and what has happened so far. */
  datatype Run<K> = Run(nextId: nat, tasks: Tasks<K>, asked: Table<K>, history: seq<Event>)

  function StartEvents(ids: seq<nat>): seq<Event> {
    seq(|ids|, i requires 0 <= i < |ids| => Started(ids[i]))
  }

  /** `ids` lists once each the tasks started in `after` and not in `before`. */
  ghost predicate NewlyStarted<K>(before: Tasks<K>, after: Tasks<K>, ids: seq<nat>) {
    && NoRepeats(ids)
    && forall j {:trigger j in ids} :: j in ids <==>
       j in after && after[j].started && !(j in before && before[j].started)
  }

  /** The newest request is in the table under its merged keys, and nothing else changed but
      what it lets start. */
  ghost predicate Entered<K(!new)>(s: Tasks<K>, id: nat, t: Tasks<K>, keys: seq<Claim<K>>) {
    && id in t && IsMerge(keys, t[id].keys)
    && IsRescan(s[id := Task(t[id].keys, false)], t)
  }

  ghost predicate SubmitStep<K(!new)>(s: Run<K>, t: Run<K>, keys: seq<Claim<K>>) {
    var id := s.nextId + 1;
    && t.nextId == id && Entered(s.tasks, id, t.tasks, keys)
    && t.asked == s.asked[id := keys]
    && t.history == s.history + [Submitted(id)] + StartEvents(if t.tasks[id].started then [id] else [])
  }

  ghost predicate CompleteStep<K(!new)>(s: Run<K>, t: Run<K>, id: nat, starts: seq<nat>) {
    && id in s.tasks && s.tasks[id].started
    && t.nextId == s.nextId && t.asked == s.asked
    && IsRescan(s.tasks - {id}, t.tasks)
    && NewlyStarted(s.tasks, t.tasks, starts)
    && t.history == s.history + [Finished(id)] + StartEvents(starts)
  }

  ghost predicate NoRepeats(ids: seq<nat>) {
    forall i, j :: 0 <= i < j < |ids| ==> ids[i] != ids[j]
  }

  datatype Admission = Full | Admitted(id: nat, runNow: bool)

  // ── the wake-up shortcut ─────────────────────────────────────────────────

  function SharedRun(q: seq<Slot>): (ids: seq<nat>)
    ensures forall i :: i in ids ==> exists s :: s in q && s.id == i
  {
    if q == [] || q[0].mode.Exclusive? then []
    else
      assert q == [q[0]] + q[1..];
      [q[0].id] + SharedRun(q[1..])
  }

  /** The tasks `Complete` looks at after leaving the queue of `k`. */
  function Candidates<K(==)>(queues: Queues<K>, tasks: Tasks<K>, k: K): seq<nat> {
    if k !in queues || queues[k] == [] then []
    else
      var head := queues[k][0];
      if head.id in tasks && tasks[head.id].started then []
      else if head.mode == Exclusive then [head.id]
      else SharedRun(queues[k])
  }

  lemma {:induction false} InSharedRun(q: seq<Slot>, n: nat)
    requires n < |q|
    requires forall i :: 0 <= i <= n ==> q[i].mode == Shared
    ensures q[n].id in SharedRun(q)
  {
    if n > 0 {
      InSharedRun(q[1..], n - 1);
    }
  }

  /** The table while `id`, already finished, still holds `rest` of its keys. */
  ghost function Leaving<K>(tasks: Tasks<K>, id: nat, rest: seq<Claim<K>>): Table<K> {
    ClaimsOf(tasks)[id := rest]
  }

  /** Giving up a key blocks nobody. */
  lemma LeavingUnblocks<K(!new)>(tasks: Tasks<K>, id: nat, c: Claim<K>, rest: seq<Claim<K>>, j: nat)
    requires j in tasks && id !in tasks
    requires Unblocked(Leaving(tasks, id, [c] + rest), j)
    ensures Unblocked(Leaving(tasks, id, rest), j)
  {
    var before := Leaving(tasks, id, [c] + rest);
    forall i, a, b | i in before && i < j && a in Leaving(tasks, id, rest)[i] && b in tasks[j].keys && a.key == b.key
      ensures Compatible(a.mode, b.mode)
    {
      assert !Conflict(before[i], before[j]);
      assert a in before[i] && b in before[j];
    }
  }

  /** A task that giving up key `c` lets run was blocked by `id` on that very key. */
  lemma BlockedOnThisKey<K(!new)>(tasks: Tasks<K>, id: nat, c: Claim<K>, rest: seq<Claim<K>>, j: nat)
      returns (mine: Claim<K>)
    requires j in tasks && id !in tasks
    requires !Unblocked(Leaving(tasks, id, [c] + rest), j)
    requires Unblocked(Leaving(tasks, id, rest), j)
    ensures id < j && mine in tasks[j].keys && mine.key == c.key && !Compatible(c.mode, mine.mode)
  {
    var before, after := Leaving(tasks, id, [c] + rest), Leaving(tasks, id, rest);
    var i :| i in before && i < j && Conflict(before[i], before[j]);
    assert i in after && !Conflict(after[i], after[j]);
    assert before[j] == tasks[j].keys == after[j];
    var a, b :| a in before[i] && b in before[j] && a.key == b.key && !Compatible(a.mode, b.mode);
    assert i == id;
    assert a == c;
    mine := b;
  }

  /** The head of that key's queue had not started, if `id` itself was allowed to run. */
  lemma HeadWaits<K(!new)>(tasks: Tasks<K>, id: nat, c: Claim<K>, rest: seq<Claim<K>>, head: nat, m: Mode)
    requires id !in tasks && head in tasks && Claim(c.key, m) in tasks[head].keys
    requires Settled(tasks, Leaving(tasks, id, [c] + rest))
    requires MayRun(tasks, id, [c] + rest)
    requires !Compatible(c.mode, m)
    ensures !tasks[head].started
  {
    var before := Leaving(tasks, id, [c] + rest);
    assert c in before[id] && Claim(c.key, m) in before[head];
    if head < id {
      assert !Conflict(tasks[head].keys, [c] + rest);
    } else {
      assert Conflict(before[id], before[head]);
    }
  }

  /** Where an unblocked task sits in one of its queues: behind compatible claims only. */
  lemma PlaceInQueue<K(!new)>(queues: Queues<K>, table: Table<K>, j: nat, mine: Claim<K>) returns (n: nat)
    requires Indexed(queues, table) && j in table && mine in table[j]
    requires Unblocked(table, j)
    ensures mine.key in queues && n < |queues[mine.key]| && queues[mine.key][n] == Slot(j, mine.mode)
    ensures forall i :: 0 <= i < n ==>
              && queues[mine.key][i].id < j && queues[mine.key][i].id in table
              && Claim(mine.key, queues[mine.key][i].mode) in table[queues[mine.key][i].id]
              && Compatible(queues[mine.key][i].mode, mine.mode)
  {
    assert ClaimsQueued(queues, j, table[j]);
    var q := queues[mine.key];
    assert SlotsKnown(mine.key, q, table);
    n :| 0 <= n < |q| && q[n] == Slot(j, mine.mode);
    forall i | 0 <= i < n
      ensures q[i].id < j && q[i].id in table && Claim(mine.key, q[i].mode) in table[q[i].id]
      ensures Compatible(q[i].mode, mine.mode)
    {
      assert q[i] in q;
      assert !Conflict(table[q[i].id], table[j]);
    }
  }

  /** The shortcut names every task that leaving this queue lets run. */
  lemma ShortcutIsComplete<K(!new)>(
      queues: Queues<K>, tasks: Tasks<K>, id: nat, c: Claim<K>, rest: seq<Claim<K>>, j: nat)
    requires id !in tasks && j in tasks
    requires Indexed(queues, Leaving(tasks, id, rest))
    requires Settled(tasks, Leaving(tasks, id, [c] + rest))
    requires MayRun(tasks, id, [c] + rest)
    requires forall d :: d in rest ==> d.key != c.key
    requires !tasks[j].started
    requires Unblocked(Leaving(tasks, id, rest), j)
    ensures j in Candidates(queues, tasks, c.key)
  {
    assert tasks[j].started == Unblocked(Leaving(tasks, id, [c] + rest), j);
    var mine := BlockedOnThisKey(tasks, id, c, rest, j);
    var n := PlaceInQueue(queues, Leaving(tasks, id, rest), j, mine);
    HeadHolds(queues[c.key], tasks, id, c, rest, j, mine, n);
    var head := queues[c.key][0];
    HeadWaits(tasks, id, c, rest, head.id, head.mode);
    NamedByShortcut(queues, tasks, c.key, n);
  }

  /** The head of the queue is a live task that `c` was in the way of. */
  lemma HeadHolds<K(!new)>(
      q: seq<Slot>, tasks: Tasks<K>, id: nat, c: Claim<K>, rest: seq<Claim<K>>, j: nat, mine: Claim<K>, n: nat)
    requires id !in tasks && j in tasks && mine in tasks[j].keys && mine.key == c.key && !Compatible(c.mode, mine.mode)
    requires n < |q| && q[n] == Slot(j, mine.mode)
    requires forall d :: d in rest ==> d.key != c.key
    requires forall i :: 0 <= i < n ==>
               && q[i].id < j && q[i].id in Leaving(tasks, id, rest)
               && Claim(c.key, q[i].mode) in Leaving(tasks, id, rest)[q[i].id]
               && Compatible(q[i].mode, mine.mode)
    ensures q[0].id in tasks && Claim(c.key, q[0].mode) in tasks[q[0].id].keys && !Compatible(c.mode, q[0].mode)
    ensures q[0].mode == Shared ==> forall i :: 0 <= i <= n ==> q[i].mode == Shared
    ensures q[0].mode == Exclusive ==> n == 0
  {
  }

  lemma NamedByShortcut<K(!new)>(queues: Queues<K>, tasks: Tasks<K>, k: K, n: nat)
    requires k in queues && n < |queues[k]| && queues[k][0].id in tasks && !tasks[queues[k][0].id].started
    requires queues[k][0].mode == Shared ==> forall i :: 0 <= i <= n ==> queues[k][i].mode == Shared
    requires queues[k][0].mode == Exclusive ==> n == 0
    ensures queues[k][n].id in Candidates(queues, tasks, k)
  {
    if queues[k][0].mode == Shared {
      InSharedRun(queues[k], n);
    }
  }

  // ── the scheduler ────────────────────────────────────────────────────────

  lemma NewlyStartedAppend<K>(first: Tasks<K>, mid: Tasks<K>, last: Tasks<K>, a: seq<nat>, b: seq<nat>)
    requires first.Keys == mid.Keys == last.Keys
    requires StillStarted(first, mid) && StillStarted(mid, last)
    requires NewlyStarted(first, mid, a) && NewlyStarted(mid, last, b)
    ensures NewlyStarted(first, last, a + b) && StillStarted(first, last)
  {
    forall i, j | 0 <= i < j < |a + b| ensures (a + b)[i] != (a + b)[j] {
      if i < |a| <= j {
        assert a[i] in a && b[j - |a|] in b;
      }
    }
    forall j ensures j in a + b <==> j in last && last[j].started && !(j in first && first[j].started) {
      assert j in a + b <==> j in a || j in b;
    }
  }

  class Scheduler<K(==, !new)> {
    const maxInflight: nat
    var nextId: nat
    /** Live (waiting or running) task ids per key, in submission order. */
    var queues: Queues<K>
    var tasks: Tasks<K>
    ghost var asked: Table<K>
    ghost var history: seq<Event>

    ghost predicate Valid()
      reads this
    {
      && 1 <= maxInflight
      && |tasks| <= maxInflight
      && (forall i :: i in tasks ==> i <= nextId)
      && Indexed(queues, ClaimsOf(tasks))
      && Settled(tasks, ClaimsOf(tasks))
    }

    ghost function Model(): Run<K>
      reads this
    {
      Run(nextId, tasks, asked, history)
    }

    constructor (limit: nat)
      ensures Valid()
      ensures Model() == Run(0, map[], map[], [])
      ensures maxInflight == if limit == 0 then 1 else limit
    {
      maxInflight := if limit == 0 then 1 else limit;
      nextId, queues, tasks, asked, history := 0, map[], map[], map[], [];
    }

    /** The keys with a task waiting or running on them. */
    method BusyKeys() returns (busy: set<K>)
      requires Valid()
      ensures forall k :: k in busy <==> exists i, c :: i in tasks && c in tasks[i].keys && c.key == k
    {
      busy := queues.Keys;
      forall k | k in queues ensures exists i, c :: i in tasks && c in tasks[i].keys && c.key == k {
        var s := queues[k][0];
        assert s in queues[k] && SlotsKnown(k, queues[k], ClaimsOf(tasks));
        assert Claim(k, s.mode) in tasks[s.id].keys;
      }
      forall i, c | i in tasks && c in tasks[i].keys ensures c.key in queues {
        assert i in ClaimsOf(tasks) && ClaimsQueued(queues, i, ClaimsOf(tasks)[i]);
      }
    }

    /** Queues a task behind every earlier one on its keys; `Full` is the point where the
        dispatch thread waits for room. */
    method Submit(keys: seq<Claim<K>>) returns (r: Admission)
      requires Valid()
      modifies this
      ensures Valid()
      ensures r.Full? <==> |old(tasks)| >= maxInflight
      ensures r.Full? ==> Model() == old(Model())
      ensures r.Admitted? ==> SubmitStep(old(Model()), Model(), keys)
      ensures r.Admitted? ==> r.id == nextId && r.runNow == tasks[r.id].started
      ensures r.Admitted? ==> (r.runNow <==>
                forall i, c, d :: i in old(tasks) && c in old(tasks)[i].keys && d in keys && c.key == d.key ==>
                  c.mode == Shared && d.mode == Shared)
    {
      r := Admit(keys);
      if r.Admitted? {
        NewestRuns(old(tasks), tasks, nextId, keys);
      }
    }

    method Admit(keys: seq<Claim<K>>) returns (r: Admission)
      requires Valid()
      modifies this
      ensures Valid()
      ensures r.Full? <==> |old(tasks)| >= maxInflight
      ensures r.Full? ==> Model() == old(Model())
      ensures r.Admitted? ==> SubmitStep(old(Model()), Model(), keys)
      ensures r.Admitted? ==> r.id == nextId && r.runNow == tasks[r.id].started
    {
      if |tasks| >= maxInflight {
        return Full;
      }
      var merged := Merge(keys);
      var start := Place(merged, keys);
      Note(keys, start);
      r := Admitted(nextId, start);
    }

    /** Queues and tables a merged request under the newest id; true if it can start at once. */
    method Place(merged: seq<Claim<K>>, ghost keys: seq<Claim<K>>) returns (start: bool)
      requires Valid() && |tasks| < maxInflight
      requires IsMerge(keys, merged)
      modifies this`nextId, this`queues, this`tasks
      ensures Valid() && nextId == old(nextId) + 1
      ensures Entered(old(tasks), nextId, tasks, keys) && start == tasks[nextId].started
    {
      nextId := nextId + 1;
      var id := nextId;
      ghost var table := ClaimsOf(tasks);
      Join(id, merged, table);
      ReadyIffUnblocked(queues, table[id := merged], id);
      start := Ready(queues, id, merged);
      SubmitSettles(tasks, id, merged, start);
      tasks := tasks[id := Task(merged, start)];
    }

    /** Records the newest request. */
    ghost method Note(keys: seq<Claim<K>>, start: bool)
      requires Valid()
      modifies this`asked, this`history
      ensures Valid() && asked == old(asked)[nextId := keys]
      ensures history == old(history) + [Submitted(nextId)] + StartEvents(if start then [nextId] else [])
    {
      asked := asked[nextId := keys];
      history := history + [Submitted(nextId)] + StartEvents(if start then [nextId] else []);
    }

    /** Appends the newest id to the queue of each of its keys. */
    method Join(id: nat, merged: seq<Claim<K>>, ghost table: Table<K>)
      requires Indexed(queues, table)
      requires id !in table && forall j :: j in table ==> j < id
      requires Distinct(merged)
      modifies this`queues
      ensures Indexed(queues, table[id := merged])
    {
      JoinNothing(queues, table, id);
      assert merged[..0] == [];
      for n := 0 to |merged|
        invariant Indexed(queues, table[id := merged[..n]])
      {
        assert merged[..n + 1] == merged[..n] + [merged[n]];
        EnqueueIndexes(queues, table, id, merged[..n], merged[n]);
        queues := Enqueued(queues, id, merged[n]);
      }
      assert merged[..|merged|] == merged;
    }

    /** The finished task leaves its queues one key at a time; after each, the shortcut's
        candidates are tested. Returns the tasks that start, in order. */
    method Complete(id: nat) returns (runnable: seq<nat>)
      requires Valid()
      requires id in tasks ==> tasks[id].started
      modifies this
      ensures Valid()
      ensures id !in old(tasks) ==> Model() == old(Model()) && runnable == []
      ensures id in old(tasks) ==> CompleteStep(old(Model()), Model(), id, runnable)
    {
      if id !in tasks {
        return [];
      }
      runnable := Release(id);
      history := history + [Finished(id)] + StartEvents(runnable);
      ghost var step := CompleteStep(old(Model()), Model(), id, runnable);
      assert step;
    }

    /** Takes a finished task out of the table and of every queue it is on. */
    method Release(id: nat) returns (runnable: seq<nat>)
      requires Valid()
      requires id in tasks && tasks[id].started
      modifies this`queues, this`tasks
      ensures Valid()
      ensures IsRescan(old(tasks) - {id}, tasks)
      ensures NewlyStarted(old(tasks), tasks, runnable)
    {
      ghost var all := tasks;
      var keys := tasks[id].keys;
      tasks := tasks - {id};
      ghost var left := tasks;
      LeavesAll(all, left, id);
      FinishedWasUnblocked(queues, all, id);
      runnable := LeaveQueues(id, keys, left, all);
      DropIndexes(queues, ClaimsOf(left), id);
      CompleteSettles(left, tasks, id);
      RemovedOne(all, left, tasks, id, nextId);
      NewlyStartedWithout(all, left, tasks, id, runnable);
    }

    method LeaveQueues(id: nat, keys: seq<Claim<K>>, ghost left: Tasks<K>, ghost all: Tasks<K>)
        returns (runnable: seq<nat>)
      requires id in all && left == all - {id} && keys == all[id].keys
      requires Distinct(keys) && MayRun(left, id, keys)
      requires tasks == left
      requires Indexed(queues, Leaving(left, id, keys)) && Settled(left, Leaving(left, id, keys))
      modifies this`queues, this`tasks
      ensures SameClaims(tasks, left)
      ensures Indexed(queues, Leaving(left, id, [])) && Settled(tasks, Leaving(left, id, []))
      ensures NewlyStarted(left, tasks, runnable) && StillStarted(left, tasks)
    {
      runnable := [];
      var n := 0;
      assert keys[0..] == keys;
      while n < |keys|
        invariant 0 <= n <= |keys|
        invariant SameClaims(tasks, left)
        invariant Indexed(queues, Leaving(left, id, keys[n..])) && Settled(tasks, Leaving(left, id, keys[n..]))
        invariant NewlyStarted(left, tasks, runnable) && StillStarted(left, tasks)
      {
        ghost var mid := tasks;
        var started := LeaveQueue(id, keys[n], keys[n + 1..], left, all, n);
        NewlyStartedAppend(left, mid, tasks, runnable, started);
        runnable := runnable + started;
        n := n + 1;
      }
      assert keys[n..] == [];
    }

    /** One key of the finished task: leave its queue, test the candidates. */
    method LeaveQueue(id: nat, c: Claim<K>, rest: seq<Claim<K>>, ghost left: Tasks<K>, ghost all: Tasks<K>,
        ghost n: nat)
        returns (started: seq<nat>)
      requires id in all && left == all - {id} && n < |all[id].keys|
      requires c == all[id].keys[n] && rest == all[id].keys[n + 1..]
      requires Distinct(all[id].keys)
      requires MayRun(left, id, all[id].keys)
      requires SameClaims(tasks, left)
      requires Indexed(queues, Leaving(left, id, all[id].keys[n..]))
      requires Settled(tasks, Leaving(left, id, all[id].keys[n..]))
      modifies this`queues, this`tasks
      ensures SameClaims(tasks, left)
      ensures Indexed(queues, Leaving(left, id, rest))
      ensures Settled(tasks, Leaving(left, id, rest))
      ensures StillStarted(old(tasks), tasks)
      ensures NewlyStarted(old(tasks), tasks, started)
    {
      assert all[id].keys[n..] == [c] + rest;
      assert ClaimsOf(tasks) == ClaimsOf(left);
      DequeueIndexes(queues, ClaimsOf(left), id, c, rest);
      queues := Dequeued(queues, id, c.key);
      TailConflicts(left, id, all[id].keys, n);
      started := WakeBehind(id, c, rest);
    }

    /** Tests the candidates at the head of the queue just left. */
    method WakeBehind(ghost id: nat, c: Claim<K>, ghost rest: seq<Claim<K>>) returns (started: seq<nat>)
      requires id !in tasks && MayRun(tasks, id, [c] + rest) && forall d :: d in rest ==> d.key != c.key
      requires Indexed(queues, Leaving(tasks, id, rest)) && Settled(tasks, Leaving(tasks, id, [c] + rest))
      modifies this`tasks
      ensures SameClaims(tasks, old(tasks)) && Settled(tasks, Leaving(old(tasks), id, rest))
      ensures StillStarted(old(tasks), tasks) && NewlyStarted(old(tasks), tasks, started)
    {
      ghost var before := tasks;
      var candidates := Candidates(queues, tasks, c.key);
      started := StartReady(candidates);
      ShortcutSettles(queues, before, tasks, id, c, rest, candidates);
    }

    /** Starts the waiting candidates that are ready. */
    method StartReady(candidates: seq<nat>) returns (started: seq<nat>)
      modifies this`tasks
      ensures SameClaims(tasks, old(tasks))
      ensures forall j :: j in tasks ==>
                (tasks[j].started <==> old(tasks)[j].started || (j in candidates && Ready(queues, j, tasks[j].keys)))
      ensures NewlyStarted(old(tasks), tasks, started)
    {
      started := [];
      ghost var tasks0 := tasks;
      for n := 0 to |candidates|
        invariant SameClaims(tasks, tasks0)
        invariant forall j :: j in tasks ==>
                    (tasks[j].started <==>
                        tasks0[j].started || (j in candidates[..n] && Ready(queues, j, tasks[j].keys)))
        invariant NewlyStarted(tasks0, tasks, started)
      {
        var c := candidates[n];
        if c in tasks && !tasks[c].started && Ready(queues, c, tasks[c].keys) {
          assert c !in started;
          tasks := tasks[c := Task(tasks[c].keys, true)];
          started := started + [c];
        }
      }
    }
  }

  // ── what each step leaves ────────────────────────────────────────────────

  /** No key shared with an earlier task is taken exclusively by either. */
  ghost predicate SharesOnly<K(!new)>(table: Table<K>, j: nat, keys: seq<Claim<K>>) {
    forall i, c, d :: i in table && i < j && c in table[i] && d in keys && c.key == d.key ==>
      c.mode == Shared && d.mode == Shared
  }

  /** A request may run exactly then, whether asked of all its keys or of the merged ones. */
  lemma UnblockedMeans<K(!new)>(table: Table<K>, j: nat, keys: seq<Claim<K>>)
    requires j in table && (table[j] == keys || IsMerge(keys, table[j]))
    ensures Unblocked(table, j) <==> SharesOnly(table, j, keys)
  {
    if Unblocked(table, j) {
      forall i, c, d | i in table && i < j && c in table[i] && d in keys && c.key == d.key
        ensures c.mode == Shared && d.mode == Shared
      {
        assert !Conflict(table[i], table[j]);
        var e := if d in table[j] then d else Claim(d.key, Exclusive);
        assert e in table[j] && Compatible(c.mode, e.mode);
      }
    } else {
      var i :| i in table && i < j && Conflict(table[i], table[j]);
      ConflictMeans(table[i], table[j]);
      var c, d :| c in table[i] && d in table[j] && c.key == d.key && (c.mode == Exclusive || d.mode == Exclusive);
      assert d in keys;
    }
  }

  lemma NewestRuns<K(!new)>(before: Tasks<K>, after: Tasks<K>, id: nat, keys: seq<Claim<K>>)
    requires Entered(before, id, after, keys) && Settled(after, ClaimsOf(after))
    requires id !in before && (forall i :: i in before ==> i < id)
    ensures after[id].started <==>
              forall i, c, d :: i in before && c in before[i].keys && d in keys && c.key == d.key ==>
                c.mode == Shared && d.mode == Shared
  {
    var table := ClaimsOf(after);
    UnblockedMeans(table, id, keys);
    assert after[id].started <==> Unblocked(table, id);
    assert forall i :: i in before ==> i in table && table[i] == before[i].keys;
    assert forall i :: i in table && i < id ==> i in before;
  }

  /** In a settled table a task has started exactly when no key it shares with an earlier one
      is taken exclusively by either. */
  lemma StartedMeans<K(!new)>(tasks: Tasks<K>, j: nat)
    requires j in tasks && Settled(tasks, ClaimsOf(tasks))
    ensures tasks[j].started <==> SharesOnly(ClaimsOf(tasks), j, tasks[j].keys)
  {
    var table := ClaimsOf(tasks);
    UnblockedMeans(table, j, tasks[j].keys);
    assert tasks[j].started <==> Unblocked(table, j);
  }

  /** At first the finished task sits in all its queues. */
  lemma LeavesAll<K>(all: Tasks<K>, left: Tasks<K>, id: nat)
    requires id in all && left == all - {id}
    ensures ClaimsOf(all) == Leaving(left, id, all[id].keys)
  {
  }

  /** What is newly started is so with or without the finished task. */
  lemma NewlyStartedWithout<K>(all: Tasks<K>, left: Tasks<K>, after: Tasks<K>, id: nat, ids: seq<nat>)
    requires left == all - {id} && NewlyStarted(left, after, ids) && id !in after
    ensures NewlyStarted(all, after, ids)
  {
  }

  lemma RemovedOne<K>(all: Tasks<K>, left: Tasks<K>, after: Tasks<K>, id: nat, bound: nat)
    requires id in all && left == all - {id} && SameClaims(after, left)
    requires forall i :: i in all ==> i <= bound
    ensures id !in after && |after| == |all| - 1
    ensures forall i :: i in after ==> i <= bound
  {
    assert after.Keys == all.Keys - {id};
    assert |after.Keys| == |after| && |all.Keys| == |all|;
  }

  lemma FinishedWasUnblocked<K(!new)>(queues: Queues<K>, all: Tasks<K>, id: nat)
    requires Indexed(queues, ClaimsOf(all))
    requires id in all && all[id].started && Settled(all, ClaimsOf(all))
    ensures Distinct(all[id].keys)
    ensures MayRun(all - {id}, id, all[id].keys)
  {
    assert Distinct(ClaimsOf(all)[id]);
    forall i | i in all && i < id ensures !Conflict(all[i].keys, all[id].keys) {
      assert i in ClaimsOf(all) && !Conflict(ClaimsOf(all)[i], ClaimsOf(all)[id]);
    }
  }

  lemma TailConflicts<K(!new)>(left: Tasks<K>, id: nat, keys: seq<Claim<K>>, n: nat)
    requires n < |keys| && Distinct(keys)
    requires MayRun(left, id, keys)
    ensures MayRun(left, id, [keys[n]] + keys[n + 1..])
    ensures forall d :: d in keys[n + 1..] ==> d.key != keys[n].key
  {
    forall i, a, b | i in left && i < id && a in left[i].keys && b in [keys[n]] + keys[n + 1..] && a.key == b.key
      ensures Compatible(a.mode, b.mode)
    {
      assert !Conflict(left[i].keys, keys);
      assert b in keys;
    }
  }

  /** Testing the shortcut's candidates settles the table again. */
  lemma ShortcutSettles<K(!new)>(queues: Queues<K>, before: Tasks<K>, after: Tasks<K>, id: nat, c: Claim<K>,
      rest: seq<Claim<K>>, candidates: seq<nat>)
    requires id !in before && SameClaims(after, before)
    requires Indexed(queues, Leaving(before, id, rest))
    requires Settled(before, Leaving(before, id, [c] + rest))
    requires MayRun(before, id, [c] + rest)
    requires forall d :: d in rest ==> d.key != c.key
    requires candidates == Candidates(queues, before, c.key)
    requires forall j :: j in after ==>
               (after[j].started <==> before[j].started || (j in candidates && Ready(queues, j, after[j].keys)))
    ensures Settled(after, Leaving(before, id, rest))
  {
    var table := Leaving(before, id, rest);
    forall j | j in after && j in table ensures after[j].started <==> Unblocked(table, j) {
      ReadyIffUnblocked(queues, table, j);
      if before[j].started {
        LeavingUnblocks(before, id, c, rest, j);
      } else if Unblocked(table, j) {
        ShortcutIsComplete(queues, before, id, c, rest, j);
      }
    }
  }

  /** Whether a task is blocked depends only on the earlier ones. */
  lemma LaterTaskBlocksNobody<K(!new)>(table: Table<K>, id: nat, keys: seq<Claim<K>>, i: nat)
    requires i in table && i < id
    ensures Unblocked(table[id := keys], i) <==> Unblocked(table, i)
  {
    var with := table[id := keys];
    if Unblocked(table, i) {
      forall j | j in with && j < i ensures !Conflict(with[j], with[i]) {
        assert !Conflict(table[j], table[i]);
      }
    }
    if Unblocked(with, i) {
      forall j | j in table && j < i ensures !Conflict(table[j], table[i]) {
        assert !Conflict(with[j], with[i]);
      }
    }
  }

  lemma ClaimsWith<K>(tasks: Tasks<K>, id: nat, task: Task<K>)
    ensures ClaimsOf(tasks[id := task]) == ClaimsOf(tasks)[id := task.keys]
  {
  }

  lemma SubmitSettles<K(!new)>(tasks: Tasks<K>, id: nat, merged: seq<Claim<K>>, start: bool)
    requires id !in tasks && forall i :: i in tasks ==> i < id
    requires Settled(tasks, ClaimsOf(tasks))
    requires start <==> Unblocked(ClaimsOf(tasks)[id := merged], id)
    ensures IsRescan(tasks[id := Task(merged, false)], tasks[id := Task(merged, start)])
    ensures Settled(tasks[id := Task(merged, start)], ClaimsOf(tasks)[id := merged])
    ensures ClaimsOf(tasks[id := Task(merged, start)]) == ClaimsOf(tasks)[id := merged]
  {
    var with, after := tasks[id := Task(merged, false)], tasks[id := Task(merged, start)];
    var table := ClaimsOf(tasks)[id := merged];
    ClaimsWith(tasks, id, Task(merged, start));
    forall i {:trigger after[i].started} | i in after ensures after[i].started <==> Unblocked(table, i) {
      if i != id {
        LaterTaskBlocksNobody(ClaimsOf(tasks), id, merged, i);
        assert tasks[i].started == after[i].started;
      }
    }
    SettledIsRescan(with, after);
  }

  /** Tasks that were not started before and may run, and only those, have been started. */
  lemma SettledIsRescan<K(!new)>(before: Tasks<K>, after: Tasks<K>)
    requires SameClaims(before, after) && Settled(after, ClaimsOf(after)) && StillStarted(before, after)
    ensures IsRescan(before, after)
  {
    forall i {:trigger after[i].started} | i in before
      ensures after[i].started <==> before[i].started || Unblocked(ClaimsOf(after), i)
    {
    }
  }

  lemma CompleteSettles<K(!new)>(left: Tasks<K>, after: Tasks<K>, id: nat)
    requires id !in left && SameClaims(after, left)
    requires Settled(after, Leaving(left, id, []))
    requires StillStarted(left, after)
    ensures Settled(after, ClaimsOf(after)) && ClaimsOf(after) == ClaimsOf(left)
    ensures IsRescan(left, after)
  {
    assert ClaimsOf(after) == ClaimsOf(left);
    forall j {:trigger after[j].started} | j in after ensures after[j].started <==> Unblocked(ClaimsOf(left), j) {
      LeftBlocksNobody(left, id, j);
    }
    assert Settled(after, ClaimsOf(after));
    assert IsRescan(left, after);
  }

  /** A task that has left all its queues blocks nobody. */
  lemma LeftBlocksNobody<K(!new)>(left: Tasks<K>, id: nat, j: nat)
    requires id !in left && j in left
    ensures Unblocked(Leaving(left, id, []), j) <==> Unblocked(ClaimsOf(left), j)
  {
    var table, claims := Leaving(left, id, []), ClaimsOf(left);
    assert !Conflict([], left[j].keys);
    if Unblocked(claims, j) {
      forall i | i in table && i < j ensures !Conflict(table[i], table[j]) {
        assert i == id || i in claims;
      }
    } else {
      var i :| i in claims && i < j && Conflict(claims[i], claims[j]);
      assert i in table;
    }
  }
}
