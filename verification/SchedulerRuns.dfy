/** Whole runs of the request scheduler: order, exclusion, progress. */
module SchedulerRuns {
  import opened KeyOrder
  import opened FuseScheduler

  function Initial<K>(): Run<K> {
    Run(0, map[], map[], [])
  }

  /** One lock hold: a submission that found room, or the completion of a started task. */
  ghost predicate Next<K(!new)>(limit: nat, s: Run<K>, t: Run<K>) {
    || (|s.tasks| < limit && exists keys :: SubmitStep(s, t, keys))
    || Completion(s, t)
  }

  ghost predicate IsRun<K(!new)>(limit: nat, states: seq<Run<K>>) {
    && states != [] && states[0] == Initial()
    && forall i :: 0 <= i < |states| - 1 ==> Next(limit, states[i], states[i + 1])
  }

  // ── what the history says ────────────────────────────────────────────────

  /** Every conflicting earlier request had finished before a request started. */
  ghost predicate InOrder<K(!new)>(history: seq<Event>, asked: Table<K>) {
    forall p {:trigger history[p].Started?} :: 0 <= p < |history| && history[p].Started? ==>
      history[p].id in asked && EarlierDone(history[..p], asked, history[p].id)
  }

  ghost predicate EarlierDone<K(!new)>(history: seq<Event>, asked: Table<K>, b: nat)
    requires b in asked
  {
    forall a {:trigger Conflict(asked[a], asked[b])} :: a in asked && a < b && Conflict(asked[a], asked[b]) ==>
      Finished(a) in history
  }

  /** The history agrees with the table: a task is live until its end is recorded, and runs
      from the moment its start is. */
  ghost predicate Recorded<K>(history: seq<Event>, tasks: Tasks<K>, asked: Table<K>) {
    && (forall i :: Finished(i) in history <==> i in asked && i !in tasks)
    && (forall i {:trigger Started(i) in history} ::
          Started(i) in history <==> i in asked && (i in tasks ==> tasks[i].started))
  }

  ghost predicate Known<K(!new)>(s: Run<K>) {
    && (forall i :: i in s.asked ==> i <= s.nextId)
    && (forall i :: i in s.asked <==> Submitted(i) in s.history)
    && (forall i :: i in s.tasks ==> i in s.asked && IsMerge(s.asked[i], s.tasks[i].keys))
  }

  ghost predicate Inv<K(!new)>(limit: nat, s: Run<K>) {
    && |s.tasks| <= limit
    && Known(s)
    && Settled(s.tasks, ClaimsOf(s.tasks))
    && Recorded(s.history, s.tasks, s.asked)
    && InOrder(s.history, s.asked)
  }

  // ── one event at a time ──────────────────────────────────────────────────

  lemma AppendKeepsOrder<K(!new)>(history: seq<Event>, asked: Table<K>, e: Event)
    requires InOrder(history, asked)
    requires e.Started? ==> e.id in asked && EarlierDone(history, asked, e.id)
    ensures InOrder(history + [e], asked)
  {
    var h := history + [e];
    forall p | 0 <= p < |h| && h[p].Started? ensures h[p].id in asked && EarlierDone(h[..p], asked, h[p].id) {
      if p < |history| {
        assert h[..p] == history[..p] && h[p] == history[p];
      } else {
        assert h[..p] == history;
      }
    }
  }

  lemma {:induction false} StartsKeepOrder<K(!new)>(history: seq<Event>, asked: Table<K>, ids: seq<nat>)
    requires InOrder(history, asked)
    requires forall i :: i in ids ==> i in asked && EarlierDone(history, asked, i)
    ensures InOrder(history + StartEvents(ids), asked)
    decreases |ids|
  {
    if ids == [] {
      assert history + StartEvents(ids) == history;
    } else {
      var last := |ids| - 1;
      var init := ids[..last];
      StartsKeepOrder(history, asked, init);
      var h := history + StartEvents(init);
      assert StartEvents(ids) == StartEvents(init) + [Started(ids[last])];
      assert history + StartEvents(ids) == h + [Started(ids[last])];
      assert ids[last] in ids;
      MoreHistory(history, StartEvents(init), asked, ids[last]);
      AppendKeepsOrder(h, asked, Started(ids[last]));
    }
  }

  lemma MoreHistory<K(!new)>(history: seq<Event>, more: seq<Event>, asked: Table<K>, b: nat)
    requires b in asked && EarlierDone(history, asked, b)
    ensures EarlierDone(history + more, asked, b)
  {
  }

  /** A request that arrives later changes nothing about the starts already recorded. */
  lemma NewRequestKeepsOrder<K(!new)>(history: seq<Event>, asked: Table<K>, id: nat, keys: seq<Claim<K>>)
    requires InOrder(history, asked) && forall i :: i in asked ==> i < id
    ensures InOrder(history, asked[id := keys])
  {
    var asked' := asked[id := keys];
    forall p | 0 <= p < |history| && history[p].Started?
      ensures history[p].id in asked' && EarlierDone(history[..p], asked', history[p].id)
    {
      var b := history[p].id;
      assert b in asked && EarlierDone(history[..p], asked, b);
      forall a | a in asked' && a < b && Conflict(asked'[a], asked'[b]) ensures Finished(a) in history[..p] {
        assert Conflict(asked[a], asked[b]);
      }
    }
  }

  /** Exclusion: a running task and an earlier live one never conflict. */
  lemma NoLiveConflict<K(!new)>(s: Run<K>, a: nat, b: nat)
    requires Known(s) && Settled(s.tasks, ClaimsOf(s.tasks))
    requires a in s.tasks && b in s.tasks && a < b && s.tasks[b].started
    ensures !Conflict(s.asked[a], s.asked[b])
  {
    MergeKeepsConflicts(s.asked[a], s.tasks[a].keys, s.asked[b], s.tasks[b].keys);
    var table := ClaimsOf(s.tasks);
    assert !Conflict(table[a], table[b]);
  }

  /** A task that may start has nothing earlier in conflict still live. */
  lemma StarterIsNext<K(!new)>(s: Run<K>, history: seq<Event>, b: nat)
    requires Known(s) && Settled(s.tasks, ClaimsOf(s.tasks))
    requires b in s.tasks && s.tasks[b].started
    requires forall i :: i in s.asked && i !in s.tasks ==> Finished(i) in history
    ensures EarlierDone(history, s.asked, b)
  {
    forall a | a in s.tasks && a < b ensures !Conflict(s.asked[a], s.asked[b]) {
      NoLiveConflict(s, a, b);
    }
  }

  // ── every step keeps the invariant ───────────────────────────────────────

  lemma RescanSettles<K(!new)>(before: Tasks<K>, after: Tasks<K>)
    requires IsRescan(before, after)
    requires forall i {:trigger before[i].started} :: i in before && before[i].started ==>
        Unblocked(ClaimsOf(before), i)
    ensures Settled(after, ClaimsOf(after))
  {
    assert ClaimsOf(after) == ClaimsOf(before);
    forall i {:trigger after[i].started} | i in after ensures after[i].started <==> Unblocked(ClaimsOf(after), i) {
      assert i in before;
      assert before[i].started || !before[i].started;
    }
  }

  /** Taking a task away blocks nobody. */
  lemma RemovalUnblocks<K(!new)>(tasks: Tasks<K>, id: nat, i: nat)
    requires i in tasks && i != id && Unblocked(ClaimsOf(tasks), i)
    ensures Unblocked(ClaimsOf(tasks - {id}), i)
  {
    var table, rest := ClaimsOf(tasks), ClaimsOf(tasks - {id});
    forall j | j in rest && j < i ensures !Conflict(rest[j], rest[i]) {
      assert !Conflict(table[j], table[i]);
    }
  }

  /** A submission starts nothing but, perhaps, the new request itself. */
  lemma AddedTaskStartsAlone<K(!new)>(tasks: Tasks<K>, after: Tasks<K>, id: nat, merged: seq<Claim<K>>, i: nat)
    requires forall j :: j in tasks ==> j < id
    requires Settled(tasks, ClaimsOf(tasks))
    requires IsRescan(tasks[id := Task(merged, false)], after)
    requires i in tasks
    ensures i in after && after[i] == tasks[i]
    ensures tasks[i].started <==> Unblocked(ClaimsOf(after), i)
  {
    AddedClaims(tasks, after, id, merged);
    LaterTaskBlocksNobody(ClaimsOf(tasks), id, merged, i);
    assert tasks[id := Task(merged, false)][i] == tasks[i];
    assert after[i].started <==> tasks[i].started;
  }

  lemma AddedClaims<K(!new)>(tasks: Tasks<K>, after: Tasks<K>, id: nat, merged: seq<Claim<K>>)
    requires SameClaims(tasks[id := Task(merged, false)], after)
    ensures ClaimsOf(after) == ClaimsOf(tasks)[id := merged]
  {
  }

  lemma AddedTaskSettles<K(!new)>(tasks: Tasks<K>, after: Tasks<K>, id: nat, merged: seq<Claim<K>>)
    requires forall j :: j in tasks ==> j < id
    requires Settled(tasks, ClaimsOf(tasks))
    requires IsRescan(tasks[id := Task(merged, false)], after)
    ensures Settled(after, ClaimsOf(after))
  {
    forall i {:trigger after[i].started} | i in after ensures after[i].started <==> Unblocked(ClaimsOf(after), i) {
      if i != id {
        AddedTaskStartsAlone(tasks, after, id, merged, i);
      } else {
        AddedTaskItself(tasks[id := Task(merged, false)], after, id);
      }
    }
  }

  lemma AddedTaskItself<K(!new)>(with: Tasks<K>, after: Tasks<K>, id: nat)
    requires IsRescan(with, after) && id in with && !with[id].started
    ensures id in after && (after[id].started <==> Unblocked(ClaimsOf(after), id))
  {
  }

  lemma OneMoreTask<K(!new)>(tasks: Tasks<K>, after: Tasks<K>, id: nat, merged: seq<Claim<K>>)
    requires id !in tasks && SameClaims(tasks[id := Task(merged, false)], after)
    ensures after.Keys == tasks.Keys + {id} && |after| == |tasks| + 1
  {
    assert after.Keys == tasks.Keys + {id};
    assert |after.Keys| == |tasks.Keys| + 1;
  }

  lemma CompleteKeepsTable<K(!new)>(s: Run<K>, t: Run<K>, id: nat, starts: seq<nat>)
    requires Settled(s.tasks, ClaimsOf(s.tasks)) && CompleteStep(s, t, id, starts)
    ensures Settled(t.tasks, ClaimsOf(t.tasks))
    ensures t.tasks.Keys == s.tasks.Keys - {id} && |t.tasks| == |s.tasks| - 1
  {
    var rest := s.tasks - {id};
    forall i {:trigger rest[i].started} | i in rest && rest[i].started ensures Unblocked(ClaimsOf(rest), i) {
      assert s.tasks[i].started;
      RemovalUnblocks(s.tasks, id, i);
    }
    RescanSettles(rest, t.tasks);
    assert |t.tasks.Keys| == |s.tasks.Keys| - 1;
  }

  lemma InStartEvents(ids: seq<nat>)
    ensures forall e :: e in StartEvents(ids) <==> e.Started? && e.id in ids
    ensures |StartEvents(ids)| == |ids|
  {
    forall e ensures e in StartEvents(ids) <==> e.Started? && e.id in ids {
      if e.Started? && e.id in ids {
        var i :| 0 <= i < |ids| && ids[i] == e.id;
        assert StartEvents(ids)[i] == e;
      }
    }
  }

  lemma SubmitKeepsInv<K(!new)>(limit: nat, s: Run<K>, t: Run<K>, keys: seq<Claim<K>>)
    requires Inv(limit, s) && |s.tasks| < limit && SubmitStep(s, t, keys)
    ensures Inv(limit, t)
  {
    var id := t.nextId;
    AddedTaskSettles(s.tasks, t.tasks, id, t.tasks[id].keys);
    OneMoreTask(s.tasks, t.tasks, id, t.tasks[id].keys);
    SubmitKeepsRecords(s, t, keys);
    var ids := if t.tasks[id].started then [id] else [];
    var h := s.history + [Submitted(id)];
    assert id !in s.asked;
    NewRequestKeepsOrder(s.history, s.asked, id, keys);
    AppendKeepsOrder(s.history, t.asked, Submitted(id));
    if t.tasks[id].started {
      StarterIsNext(t, h, id);
    }
    StartsKeepOrder(h, t.asked, ids);
  }

  lemma SubmissionRecorded<K(!new)>(s: Run<K>, after: Tasks<K>, id: nat, keys: seq<Claim<K>>, history: seq<Event>)
    requires Known(s) && Recorded(s.history, s.tasks, s.asked) && id == s.nextId + 1
    requires after.Keys == s.tasks.Keys + {id} && forall i :: i in s.tasks ==> after[i] == s.tasks[i]
    requires IsMerge(keys, after[id].keys)
    requires history == s.history + [Submitted(id)] + StartEvents(if after[id].started then [id] else [])
    ensures Known(Run(id, after, s.asked[id := keys], history))
    ensures Recorded(history, after, s.asked[id := keys])
  {
    assert id !in s.asked && id !in s.tasks;
    SubmissionAdds(s.history, id, after[id].started, history);
    SubmissionKnown(s, after, id, keys, history);
    SubmissionEvents(s.history, s.tasks, s.asked, after, id, keys, history);
  }

  lemma SubmissionEvents<K(!new)>(
      before: seq<Event>, tasks: Tasks<K>, asked: Table<K>, after: Tasks<K>, id: nat, keys: seq<Claim<K>>,
      history: seq<Event>)
    requires Recorded(before, tasks, asked) && id !in asked && id !in tasks
    requires after.Keys == tasks.Keys + {id} && forall i :: i in tasks ==> after[i] == tasks[i]
    requires forall e :: e in history <==> e in before || e == Submitted(id) || (after[id].started && e == Started(id))
    ensures Recorded(history, after, asked[id := keys])
  {
  }

  lemma SubmissionAdds(before: seq<Event>, id: nat, started: bool, history: seq<Event>)
    requires history == before + [Submitted(id)] + StartEvents(if started then [id] else [])
    ensures forall e :: e in history <==> e in before || e == Submitted(id) || (started && e == Started(id))
  {
    InStartEvents(if started then [id] else []);
  }

  lemma SubmissionKnown<K(!new)>(s: Run<K>, after: Tasks<K>, id: nat, keys: seq<Claim<K>>, history: seq<Event>)
    requires Known(s) && id == s.nextId + 1
    requires after.Keys == s.tasks.Keys + {id} && forall i :: i in s.tasks ==> after[i] == s.tasks[i]
    requires IsMerge(keys, after[id].keys)
    requires forall i :: Submitted(i) in history <==> Submitted(i) in s.history || i == id
    ensures Known(Run(id, after, s.asked[id := keys], history))
  {
  }

  lemma SubmitKeepsRecords<K(!new)>(s: Run<K>, t: Run<K>, keys: seq<Claim<K>>)
    requires Known(s) && Recorded(s.history, s.tasks, s.asked)
    requires Settled(s.tasks, ClaimsOf(s.tasks)) && SubmitStep(s, t, keys)
    requires t.tasks.Keys == s.tasks.Keys + {t.nextId}
    ensures Known(t) && Recorded(t.history, t.tasks, t.asked)
  {
    var id := t.nextId;
    assert forall i :: i in s.tasks ==> i in s.asked;
    forall i | i in s.tasks ensures t.tasks[i] == s.tasks[i] {
      AddedTaskStartsAlone(s.tasks, t.tasks, id, t.tasks[id].keys, i);
    }
    SubmissionRecorded(s, t.tasks, id, keys, t.history);
  }

  lemma CompleteKeepsRecords<K(!new)>(s: Run<K>, t: Run<K>, id: nat, starts: seq<nat>)
    requires Known(s) && Recorded(s.history, s.tasks, s.asked)
    requires CompleteStep(s, t, id, starts)
    requires t.tasks.Keys == s.tasks.Keys - {id}
    ensures Known(t) && Recorded(t.history, t.tasks, t.asked)
  {
    CompletionRecorded(s, t.tasks, id, starts, t.history);
  }

  lemma CompletionRecorded<K(!new)>(s: Run<K>, after: Tasks<K>, id: nat, starts: seq<nat>, history: seq<Event>)
    requires Known(s) && Recorded(s.history, s.tasks, s.asked) && id in s.tasks && s.tasks[id].started
    requires after.Keys == s.tasks.Keys - {id} && forall i :: i in after ==> after[i].keys == s.tasks[i].keys
    requires NewlyStarted(s.tasks, after, starts) && StillStarted(s.tasks, after)
    requires history == s.history + [Finished(id)] + StartEvents(starts)
    ensures Known(Run(s.nextId, after, s.asked, history))
    ensures Recorded(history, after, s.asked)
  {
    InStartEvents(starts);
    forall i {:trigger Started(i) in history}
        ensures Started(i) in history <==> i in s.asked && (i in after ==> after[i].started) {
      assert Started(i) in history <==> Started(i) in s.history || i in starts;
    }
    forall i ensures Finished(i) in history <==> i in s.asked && i !in after {
      assert Finished(i) in history <==> Finished(i) in s.history || i == id;
    }
    forall i ensures i in s.asked <==> Submitted(i) in history {
      assert Submitted(i) in history <==> Submitted(i) in s.history;
    }
  }

  lemma CompleteKeepsInv<K(!new)>(limit: nat, s: Run<K>, t: Run<K>, id: nat, starts: seq<nat>)
    requires Inv(limit, s) && CompleteStep(s, t, id, starts)
    ensures Inv(limit, t)
  {
    CompleteKeepsTable(s, t, id, starts);
    CompleteKeepsRecords(s, t, id, starts);
    var h := s.history + [Finished(id)];
    AppendKeepsOrder(s.history, s.asked, Finished(id));
    forall b | b in starts ensures b in t.asked && EarlierDone(h, t.asked, b) {
      assert b in t.tasks;
      StarterIsNext(t, h, b);
    }
    StartsKeepOrder(h, t.asked, starts);
  }

  lemma {:induction false} RunKeepsInv<K(!new)>(limit: nat, states: seq<Run<K>>)
    requires IsRun(limit, states)
    ensures Inv(limit, states[|states| - 1])
    decreases |states|
  {
    var n := |states| - 1;
    if n > 0 {
      RunKeepsInv(limit, states[..n]);
      var s, t := states[n - 1], states[n];
      assert Next(limit, states[n - 1], states[n - 1 + 1]);
      if |s.tasks| < limit && exists keys :: SubmitStep(s, t, keys) {
        var keys :| SubmitStep(s, t, keys);
        SubmitKeepsInv(limit, s, t, keys);
      } else {
        var id, starts :| CompleteStep(s, t, id, starts);
        CompleteKeepsInv(limit, s, t, id, starts);
      }
    }
  }

  // ── the promises ─────────────────────────────────────────────────────────

  lemma EarlierFinished<K(!new)>(history: seq<Event>, asked: Table<K>, a: nat, b: nat, p: nat)
    requires InOrder(history, asked)
    requires a in asked && b in asked && a < b && Conflict(asked[a], asked[b])
    requires p < |history| && history[p] == Started(b)
    ensures Finished(a) in history[..p]
  {
    assert history[p].Started?;
  }

  /** Order over whole runs: of two requests that name a common key, one of them
      exclusively, the earlier ends before the later starts. */
  lemma ConflictingRequestsRunInOrder<K(!new)>(
      limit: nat, states: seq<Run<K>>, a: nat, b: nat, c: Claim<K>, d: Claim<K>, p: nat)
    requires IsRun(limit, states)
    requires
      var last := states[|states| - 1];
      && a in last.asked && b in last.asked && a < b
      && c in last.asked[a] && d in last.asked[b] && c.key == d.key && (c.mode == Exclusive || d.mode == Exclusive)
      && p < |last.history| && last.history[p] == Started(b)
    ensures Finished(a) in states[|states| - 1].history[..p]
  {
    RunKeepsInv(limit, states);
    ConflictMeans(states[|states| - 1].asked[a], states[|states| - 1].asked[b]);
    var last := states[|states| - 1];
    EarlierFinished(last.history, last.asked, a, b, p);
  }

  /** Between lock holds a live task has started exactly when every key it shares with an
      earlier live one is shared by both: no wake-up is lost and none comes early. */
  lemma NothingReadyWaits<K(!new)>(limit: nat, states: seq<Run<K>>, b: nat)
    requires IsRun(limit, states) && b in states[|states| - 1].tasks
    ensures
      var last := states[|states| - 1];
      && last.tasks.Keys <= last.asked.Keys
      && (last.tasks[b].started <==>
            forall a, c, d :: a in last.tasks && a < b && c in last.asked[a] && d in last.asked[b] && c.key == d.key ==>
              c.mode == Shared && d.mode == Shared)
  {
    RunKeepsInv(limit, states);
    var s := states[|states| - 1];
    var table := ClaimsOf(s.tasks);
    forall a | a in s.tasks ensures a in s.asked
        && (Conflict(table[a], table[b]) <==> Conflict(s.asked[a], s.asked[b])) {
      MergeKeepsConflicts(s.asked[a], s.tasks[a].keys, s.asked[b], s.tasks[b].keys);
      ConflictMeans(s.asked[a], s.asked[b]);
    }
    assert s.tasks[b].started <==> Unblocked(table, b);
  }

  /** The oldest live task runs. */
  lemma OldestRuns<K(!new)>(limit: nat, s: Run<K>) returns (id: nat)
    requires Inv(limit, s) && s.tasks != map[]
    ensures id in s.tasks && s.tasks[id].started
    ensures forall i :: i in s.tasks ==> id <= i
  {
    id := Least(s.tasks.Keys);
    assert Unblocked(ClaimsOf(s.tasks), id);
  }

  /** A started task can always complete. */
  lemma CompletionExists<K(!new)>(s: Run<K>, id: nat) returns (t: Run<K>, starts: seq<nat>)
    requires id in s.tasks && s.tasks[id].started
    ensures CompleteStep(s, t, id, starts)
  {
    var rest := s.tasks - {id};
    var after := map i | i in rest :: Task(rest[i].keys, rest[i].started || Unblocked(ClaimsOf(rest), i));
    assert ClaimsOf(after) == ClaimsOf(rest);
    assert IsRescan(rest, after);
    starts := Listing(set i | i in after && after[i].started && !s.tasks[i].started);
    t := Run(s.nextId, after, s.asked, s.history + [Finished(id)] + StartEvents(starts));
  }

  lemma {:induction false} Listing(ids: set<nat>) returns (q: seq<nat>)
    ensures NoRepeats(q) && forall i :: i in q <==> i in ids
    decreases |ids|
  {
    if ids == {} {
      q := [];
    } else {
      var i :| i in ids;
      var rest := Listing(ids - {i});
      q := rest + [i];
      assert forall k :: 0 <= k < |rest| ==> rest[k] in rest;
    }
  }

  ghost predicate Completion<K(!new)>(s: Run<K>, t: Run<K>) {
    exists id, starts :: CompleteStep(s, t, id, starts)
  }

  ghost predicate CompletesAt<K(!new)>(states: seq<Run<K>>, i: nat)
    requires i + 1 < |states|
  {
    Completion(states[i], states[i + 1])
  }

  ghost predicate OnlyCompletions<K(!new)>(states: seq<Run<K>>) {
    forall i :: 0 <= i < |states| - 1 ==> CompletesAt(states, i)
  }

  /** If started tasks finish, all tasks finish: with no new request, after as many
      completions as there were tasks nothing is left, and until then one is possible. */
  lemma CompletionsDrain<K(!new)>(limit: nat, states: seq<Run<K>>)
    requires states != [] && Inv(limit, states[0]) && OnlyCompletions(states)
    ensures
      var last := states[|states| - 1];
      && Inv(limit, last)
      && |last.tasks| + |states| - 1 == |states[0].tasks|
      && (last.tasks != map[] ==> exists id :: id in last.tasks && last.tasks[id].started)
  {
    var n := |states| - 1;
    InvAt(limit, states, n);
    DrainedBy(states, n);
    SomeStarted(limit, states[n]);
  }

  lemma InvAt<K(!new)>(limit: nat, states: seq<Run<K>>, n: nat)
    requires n < |states| && Inv(limit, states[0]) && OnlyCompletions(states)
    ensures Inv(limit, states[n])
  {
    var keeps := (s: Run<K>) => Inv(limit, s);
    forall i | 0 <= i < |states| - 1 && keeps(states[i]) ensures Carried(keeps, states, i) {
      assert CompletesAt(states, i);
      CompletionKeepsInv(limit, states[i], states[i + 1]);
    }
    Along(keeps, states, n);
  }

  ghost predicate Carried<S>(p: S -> bool, states: seq<S>, i: nat)
    requires i + 1 < |states|
  {
    p(states[i]) ==> p(states[i + 1])
  }

  lemma {:induction false} Along<S>(p: S -> bool, states: seq<S>, n: nat)
    requires n < |states| && p(states[0]) && forall i :: 0 <= i < |states| - 1 ==> Carried(p, states, i)
    ensures p(states[n])
    decreases n
  {
    if n > 0 {
      Along(p, states, n - 1);
      assert Carried(p, states, n - 1);
    }
  }

  lemma {:induction false} DrainedBy<K(!new)>(states: seq<Run<K>>, n: nat)
    requires n < |states| && OnlyCompletions(states)
    ensures |states[n].tasks| + n == |states[0].tasks|
  {
    var counts := seq(|states|, i requires 0 <= i < |states| => |states[i].tasks|);
    forall i | 0 <= i < |counts| - 1 ensures OneLess(counts, i) {
      TakesOneAt(states, i);
    }
    CountsDown(counts, n);
  }

  lemma TakesOneAt<K(!new)>(states: seq<Run<K>>, i: nat)
    requires i + 1 < |states| && OnlyCompletions(states)
    ensures |states[i + 1].tasks| + 1 == |states[i].tasks|
  {
    assert CompletesAt(states, i);
    CompletionTakesOne(states[i], states[i + 1]);
  }

  ghost predicate OneLess(counts: seq<nat>, i: nat)
    requires i + 1 < |counts|
  {
    counts[i + 1] + 1 == counts[i]
  }

  lemma {:induction false} CountsDown(counts: seq<nat>, n: nat)
    requires n < |counts| && forall i :: 0 <= i < |counts| - 1 ==> OneLess(counts, i)
    ensures counts[n] + n == counts[0]
    decreases n
  {
    if n > 0 {
      CountsDown(counts, n - 1);
      assert OneLess(counts, n - 1);
    }
  }

  lemma CompletionTakesOne<K(!new)>(s: Run<K>, t: Run<K>)
    requires Completion(s, t)
    ensures |t.tasks| + 1 == |s.tasks|
  {
    var id, starts :| CompleteStep(s, t, id, starts);
    assert t.tasks.Keys == s.tasks.Keys - {id};
    assert |t.tasks.Keys| == |t.tasks| && |s.tasks.Keys| == |s.tasks|;
  }

  lemma CompletionKeepsInv<K(!new)>(limit: nat, s: Run<K>, t: Run<K>)
    requires Inv(limit, s) && Completion(s, t)
    ensures Inv(limit, t)
  {
    var id, starts :| CompleteStep(s, t, id, starts);
    CompleteKeepsInv(limit, s, t, id, starts);
  }

  lemma SomeStarted<K(!new)>(limit: nat, s: Run<K>)
    requires Inv(limit, s)
    ensures s.tasks != map[] ==> exists id :: id in s.tasks && s.tasks[id].started
  {
    if s.tasks != map[] {
      var id := OldestRuns(limit, s);
    }
  }
}
