/** Per-path tickets of server mutations, and the FIFO pool whose workers wait on them.

    A mutation's ticket is taken and its job queued under one order lock; a worker then
    blocks inside the job until the ticket is ready. Neither the tickets nor the pool rule
    out a deadlock alone: a queued job could hold the ticket every running one waits for.
    Here the two are put together. */
module MutationTickets {
  import opened Options
  import opened KeyOrder
  import WP = WorkerPool

  // ── the tickets ──────────────────────────────────────────────────────────

  function Retained(q: seq<Slot>, id: nat): seq<Slot> {
    if q == [] then []
    else if q[0].id == id then Retained(q[1..], id)
    else [q[0]] + Retained(q[1..], id)
  }

  lemma {:induction false} RetainIsWithout(q: seq<Slot>, id: nat)
    requires Sorted(q)
    ensures Retained(q, id) == Without(q, id)
  {
    if q != [] {
      assert forall i :: 0 <= i < |q| - 1 ==> q[1..][i] == q[i + 1];
      if q[0].id == id {
        RetainAll(q[1..], id);
      } else {
        RetainIsWithout(q[1..], id);
      }
    }
  }

  lemma {:induction false} RetainAll(q: seq<Slot>, id: nat)
    requires forall i :: 0 <= i < |q| ==> q[i].id != id
    ensures Retained(q, id) == q
  {
    if q != [] {
      RetainAll(q[1..], id);
    }
  }

  class PathSeq<P(==, !new)> {
    var nextId: nat
    var queues: Queues<P>
    /** The tickets not dropped yet, with the paths each holds. */
    ghost var live: Table<P>

    ghost predicate Valid()
      reads this
    {
      && Indexed(queues, live)
      && forall i :: i in live ==> i <= nextId
    }

    constructor ()
      ensures Valid() && live == map[] && nextId == 0
    {
      nextId, queues, live := 0, map[], map[];
    }

    method TakeTicket(paths: seq<Claim<P>>) returns (id: nat, merged: seq<Claim<P>>)
      requires Valid()
      modifies this
      ensures Valid()
      ensures id == nextId == old(nextId) + 1 && id !in old(live)
      ensures IsMerge(paths, merged) && live == old(live)[id := merged]
    {
      merged := Merge(paths);
      nextId := nextId + 1;
      id := nextId;
      JoinNothing(queues, live, id);
      assert merged[..0] == [];
      for n := 0 to |merged|
        invariant nextId == id && live == old(live)
        invariant Indexed(queues, live[id := merged[..n]])
      {
        assert merged[..n + 1] == merged[..n] + [merged[n]];
        EnqueueIndexes(queues, live, id, merged[..n], merged[n]);
        queues := Enqueued(queues, id, merged[n]);
      }
      assert merged[..|merged|] == merged;
      live := live[id := merged];
    }

    /** What `wait` loops on. */
    method IsReady(id: nat, paths: seq<Claim<P>>) returns (ready: bool)
      requires Valid() && id in live && live[id] == paths
      ensures ready <==> Unblocked(live, id)
      ensures ready <==> forall j, c, d :: j in live && j < id && c in live[j] && d in paths && c.key == d.key ==>
                c.mode == Shared && d.mode == Shared
    {
      forall j | j in live {
        ConflictMeans(live[j], paths);
      }
      ReadyIffUnblocked(queues, live, id);
      ready := Ready(queues, id, paths);
    }

    method Drop(id: nat, paths: seq<Claim<P>>)
      requires Valid() && id in live && live[id] == paths
      modifies this
      ensures Valid()
      ensures nextId == old(nextId) && live == old(live) - {id}
    {
      ghost var rest := live - {id};
      assert live == rest[id := paths[0..]];
      for n := 0 to |paths|
        invariant nextId == old(nextId) && live == old(live)
        invariant Indexed(queues, rest[id := paths[n..]])
      {
        assert paths[n..] == [paths[n]] + paths[n + 1..];
        var p := paths[n].key;
        DequeueIndexes(queues, rest, id, paths[n], paths[n + 1..]);
        if p in queues {
          RetainIsWithout(queues[p], id);
          var q := Retained(queues[p], id);
          queues := if q == [] then queues - {p} else queues[p := q];
        }
      }
      assert paths[|paths|..] == [];
      DropIndexes(queues, rest, id);
      live := rest;
    }
  }

  // ── tickets and workers together ─────────────────────────────────────────

  /** `inHand` is a ticket whose job is about to be queued; `running` are the tickets of jobs
      a worker has begun; `between` counts workers between two jobs. */
  datatype Sys<P> = Sys(
    nextId: nat, live: Table<P>, inHand: Option<nat>,
    pool: WP.Pool<nat>, running: set<nat>, between: nat)

  function Initial<P>(): Sys<P> {
    Sys(0, map[], None, WP.Pool(0, 0, [], 0, 0), {}, 0)
  }

  /** Under the order lock: a ticket is taken ... */
  ghost predicate Take<P(!new)>(s: Sys<P>, t: Sys<P>, paths: seq<Claim<P>>) {
    var id := s.nextId + 1;
    && s.inHand == None && id in t.live && IsMerge(paths, t.live[id])
    && t == s.(nextId := id, live := s.live[id := t.live[id]], inHand := Some(id))
  }

  /** ... and its job queued, before the next ticket is taken. */
  ghost predicate Queue<P>(c: WP.Config, s: Sys<P>, t: Sys<P>) {
    && s.inHand.Some? && |s.pool.queue| < c.queueCap
    && var (p, o) := WP.SubmitTo(c, s.pool, s.inHand.value);
       t == s.(pool := p, inHand := None,
               running := s.running + if o.StartedWorker? then {s.inHand.value} else {})
  }

  /** A job whose wait has returned ends and drops its ticket. */
  ghost predicate Drop<P(!new)>(s: Sys<P>, t: Sys<P>, id: nat) {
    && id in s.running && id in s.live && Unblocked(s.live, id)
    && t == s.(live := s.live - {id}, running := s.running - {id}, between := s.between + 1)
  }

  /** A worker between jobs takes the oldest queued one, or exits. */
  ghost predicate Turn<P>(c: WP.Config, s: Sys<P>, t: Sys<P>) {
    && s.between > 0 && s.pool.active > s.pool.idle
    && var (p, next) := WP.FinishJob(c, s.pool);
       t == s.(pool := p, between := s.between - 1, running := s.running + if next.Work? then {next.job} else {})
  }

  ghost predicate Work<P(!new)>(c: WP.Config, s: Sys<P>, t: Sys<P>) {
    || Queue(c, s, t)
    || (exists id :: Drop(s, t, id))
    || Turn(c, s, t)
  }

  ghost predicate Next<P(!new)>(c: WP.Config, s: Sys<P>, t: Sys<P>) {
    || (exists paths :: Take(s, t, paths))
    || Work(c, s, t)
  }

  ghost predicate IsRun<P(!new)>(c: WP.Config, states: seq<Sys<P>>) {
    && states != [] && states[0] == Initial()
    && forall i :: 0 <= i < |states| - 1 ==> NextAt(c, states, i)
  }

  ghost predicate NextAt<P(!new)>(c: WP.Config, states: seq<Sys<P>>, i: nat)
    requires i < |states| - 1
  {
    Next(c, states[i], states[i + 1])
  }

  ghost predicate Increasing(q: seq<nat>) {
    forall i, j :: 0 <= i < j < |q| ==> q[i] < q[j]
  }

  /** Where the live tickets are, oldest first: running, then queued, then in hand. */
  ghost predicate InTicketOrder(live: set<nat>, running: set<nat>, queue: seq<nat>, inHand: Option<nat>) {
    && (forall i :: i in live <==> i in running || i in queue || inHand == Some(i))
    && Increasing(queue)
    && (forall i, j :: i in running && j in queue ==> i < j)
    && (inHand.Some? ==> (forall i :: i in running || i in queue ==> i < inHand.value))
  }

  ghost predicate Inv<P>(c: WP.Config, s: Sys<P>) {
    && WP.Inv(c, s.pool)
    && s.pool.active == |s.running| + s.between
    && InTicketOrder(s.live.Keys, s.running, s.pool.queue, s.inHand)
    && (forall i :: i in s.live ==> i <= s.nextId)
  }

  lemma TakeKeepsInv<P(!new)>(c: WP.Config, s: Sys<P>, t: Sys<P>, paths: seq<Claim<P>>)
    requires !c.lingers && Inv(c, s) && Take(s, t, paths)
    ensures Inv(c, t)
  {
    assert t.live.Keys == s.live.Keys + {t.nextId};
    assert forall i :: i in s.running || i in s.pool.queue ==> i in s.live.Keys;
  }

  /** A job that starts at once overtakes nobody: the queue is empty then. */
  lemma QueueKeepsInv<P>(c: WP.Config, s: Sys<P>, t: Sys<P>)
    requires !c.lingers && Inv(c, s) && Queue(c, s, t)
    ensures Inv(c, t)
  {
    var id := s.inHand.value;
    WP.SubmitKeepsInv(c, s.pool, id);
    assert id !in s.running;
    assert forall i :: i in s.pool.queue + [id] <==> i in s.pool.queue || i == id;
    assert forall i :: 0 <= i < |s.pool.queue| ==> s.pool.queue[i] in s.pool.queue;
  }

  lemma DropKeepsInv<P(!new)>(c: WP.Config, s: Sys<P>, t: Sys<P>, id: nat)
    requires !c.lingers && Inv(c, s) && Drop(s, t, id)
    ensures Inv(c, t)
  {
    assert t.live.Keys == s.live.Keys - {id};
    assert |t.running| == |s.running| - 1;
    assert id !in s.pool.queue;
  }

  lemma TurnKeepsInv<P>(c: WP.Config, s: Sys<P>, t: Sys<P>)
    requires !c.lingers && Inv(c, s) && Turn(c, s, t)
    ensures Inv(c, t)
  {
    WP.TurnKeepsInv(c, s.pool);
    if s.pool.queue != [] {
      OldestTaken(s.live.Keys, s.running, s.pool.queue, s.inHand);
    }
  }

  /** The oldest queued ticket becomes the youngest running one. */
  lemma OldestTaken(live: set<nat>, running: set<nat>, queue: seq<nat>, inHand: Option<nat>)
    requires InTicketOrder(live, running, queue, inHand) && queue != []
    ensures InTicketOrder(live, running + {queue[0]}, queue[1..], inHand)
    ensures |running + {queue[0]}| == |running| + 1
  {
    var rest := queue[1..];
    assert queue == [queue[0]] + rest;
    forall i, j | 0 <= i < j < |rest| ensures rest[i] < rest[j] {
      assert rest[i] == queue[i + 1] && rest[j] == queue[j + 1];
    }
    forall j | j in rest ensures queue[0] < j {
      var k :| 0 <= k < |rest| && rest[k] == j;
      assert queue[k + 1] == j;
    }
    assert queue[0] in queue && queue[0] !in running;
  }

  lemma StepKeepsInv<P(!new)>(c: WP.Config, s: Sys<P>, t: Sys<P>)
    requires !c.lingers && Inv(c, s) && Next(c, s, t)
    ensures Inv(c, t)
  {
    if paths :| Take(s, t, paths) {
      TakeKeepsInv(c, s, t, paths);
    } else if Queue(c, s, t) {
      QueueKeepsInv(c, s, t);
    } else if id :| Drop(s, t, id) {
      DropKeepsInv(c, s, t, id);
    } else {
      TurnKeepsInv(c, s, t);
    }
  }

  lemma StepAtKeepsInv<P(!new)>(c: WP.Config, states: seq<Sys<P>>, i: nat)
    requires i < |states| - 1 && NextAt(c, states, i) && !c.lingers && Inv(c, states[i])
    ensures Inv(c, states[i + 1])
  {
    StepKeepsInv(c, states[i], states[i + 1]);
  }

  lemma {:induction false} InvAt<P(!new)>(c: WP.Config, states: seq<Sys<P>>, i: nat)
    requires IsRun(c, states) && !c.lingers && i < |states|
    ensures Inv(c, states[i])
    decreases i
  {
    if i > 0 {
      InvAt(c, states, i - 1);
      StepAtKeepsInv(c, states, i - 1);
    }
  }

  lemma RunKeepsInv<P(!new)>(c: WP.Config, states: seq<Sys<P>>)
    requires !c.lingers && IsRun(c, states)
    ensures Inv(c, states[|states| - 1])
  {
    InvAt(c, states, |states| - 1);
  }

  // ── the promises ─────────────────────────────────────────────────────────

  ghost predicate Oldest<P>(live: Table<P>, id: nat) {
    id in live && forall i :: i in live ==> id <= i
  }

  /** The oldest live ticket is ready, and its job is running; or it is the next job of a
      worker that has just finished one; or it is the only ticket, about to be queued. */
  lemma OldestTicketRuns<P(!new)>(c: WP.Config, states: seq<Sys<P>>, id: nat)
    requires !c.lingers && c.maxWorkers >= 1 && IsRun(c, states)
    requires Oldest(states[|states| - 1].live, id)
    ensures
      var s := states[|states| - 1];
      && Unblocked(s.live, id)
      && (|| id in s.running
          || (s.running == {} && s.between == c.maxWorkers && s.pool.queue != [] && s.pool.queue[0] == id)
          || (s.inHand == Some(id) && s.live.Keys == {id}))
  {
    RunKeepsInv(c, states);
    var s := states[|states| - 1];
    var q := s.pool.queue;
    if id !in s.running {
      assert forall r :: r in s.running ==> r in s.live.Keys;
      assert s.running == {};
      if q != [] {
        assert q[0] in q;
        assert q[0] in s.live.Keys;
        assert forall i :: i in q ==> q[0] <= i;
      } else {
        assert forall i :: i in s.live.Keys ==> i == id;
      }
    }
  }

  /** Mutation workers never deadlock: while a ticket is live some step is possible. */
  lemma NoDeadlock<P(!new)>(c: WP.Config, states: seq<Sys<P>>) returns (t: Sys<P>)
    requires !c.lingers && c.maxWorkers >= 1 && c.queueCap >= 1 && IsRun(c, states)
    requires states[|states| - 1].live != map[]
    ensures Work(c, states[|states| - 1], t)
  {
    var s := states[|states| - 1];
    var id := Least(s.live.Keys);
    RunKeepsInv(c, states);
    OldestTicketRuns(c, states, id);
    if id in s.running {
      t := s.(live := s.live - {id}, running := s.running - {id}, between := s.between + 1);
      assert Drop(s, t, id);
    } else if s.inHand == Some(id) {
      t := QueueStep(c, s);
    } else {
      var (p, next) := WP.FinishJob(c, s.pool);
      t := s.(pool := p, between := s.between - 1, running := s.running + if next.Work? then {next.job} else {});
    }
  }

  lemma QueueStep<P(!new)>(c: WP.Config, s: Sys<P>) returns (t: Sys<P>)
    requires c.queueCap >= 1 && Inv(c, s) && s.inHand.Some? && s.live.Keys == {s.inHand.value}
    ensures Queue(c, s, t)
  {
    OnlyInHand(s.live.Keys, s.running, s.pool.queue, s.inHand.value);
    var (p, o) := WP.SubmitTo(c, s.pool, s.inHand.value);
    t := s.(pool := p, inHand := None, running := s.running + if o.StartedWorker? then {s.inHand.value} else {});
  }

  lemma OnlyInHand(live: set<nat>, running: set<nat>, queue: seq<nat>, id: nat)
    requires InTicketOrder(live, running, queue, Some(id)) && live == {id}
    ensures queue == []
  {
    if queue != [] {
      var first := FirstOf(queue);
    }
  }

  lemma FirstOf(queue: seq<nat>) returns (id: nat)
    requires queue != []
    ensures id in queue
  {
    id := queue[0];
  }

  function Remaining<P>(s: Sys<P>): nat {
    4 * (if s.inHand.Some? then 1 else 0) + 3 * |s.pool.queue| + 2 * |s.running| + s.between
  }

  /** Every step that takes no new ticket leaves less to do. */
  lemma WorkDecreases<P(!new)>(c: WP.Config, s: Sys<P>, t: Sys<P>)
    requires !c.lingers && Inv(c, s) && Work(c, s, t)
    ensures Remaining(t) < Remaining(s)
  {
    if Queue(c, s, t) {
      WP.SubmitKeepsInv(c, s.pool, s.inHand.value);
      assert s.inHand.value !in s.running;
    } else if id :| Drop(s, t, id) {
      assert |t.running| == |s.running| - 1;
    } else if s.pool.queue != [] {
      OldestTaken(s.live.Keys, s.running, s.pool.queue, s.inHand);
    }
  }

  /** No new ticket from state `n` on. */
  ghost predicate OnlyWork<P(!new)>(c: WP.Config, states: seq<Sys<P>>, n: nat) {
    forall i :: n <= i < |states| - 1 ==> WorkAt(c, states, i)
  }

  ghost predicate WorkAt<P(!new)>(c: WP.Config, states: seq<Sys<P>>, i: nat)
    requires i < |states| - 1
  {
    Work(c, states[i], states[i + 1])
  }

  lemma WorkAtDecreases<P(!new)>(c: WP.Config, states: seq<Sys<P>>, i: nat)
    requires i < |states| - 1 && WorkAt(c, states, i) && !c.lingers && Inv(c, states[i])
    ensures Remaining(states[i + 1]) < Remaining(states[i])
  {
    WorkDecreases(c, states[i], states[i + 1]);
  }

  lemma {:induction false} WorkIsBounded<P(!new)>(c: WP.Config, states: seq<Sys<P>>, n: nat, k: nat)
    requires IsRun(c, states) && !c.lingers && n <= k < |states| && OnlyWork(c, states, n)
    ensures k - n + Remaining(states[k]) <= Remaining(states[n])
    decreases k
  {
    if n < k {
      WorkIsBounded(c, states, n, k - 1);
      InvAt(c, states, k - 1);
      WorkAtDecreases(c, states, k - 1);
    }
  }

  /** No step is possible but a new ticket. */
  ghost predicate Stuck<P(!new)>(c: WP.Config, s: Sys<P>) {
    forall t :: !Work(c, s, t)
  }

  /** All mutations end: without new tickets there are at most as many steps as there is left
      to do, and when no more is possible no ticket is live. */
  lemma AllTicketsEnd<P(!new)>(c: WP.Config, states: seq<Sys<P>>, n: nat)
    requires !c.lingers && c.maxWorkers >= 1 && c.queueCap >= 1 && IsRun(c, states)
    requires n < |states| && OnlyWork(c, states, n)
    ensures |states| - 1 - n <= Remaining(states[n])
    ensures Stuck(c, states[|states| - 1]) ==> states[|states| - 1].live == map[]
  {
    WorkIsBounded(c, states, n, |states| - 1);
    if states[|states| - 1].live != map[] {
      var t := NoDeadlock(c, states);
    }
  }
}
