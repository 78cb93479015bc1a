/** The bounded pool of lazily started workers, one lock hold at a time. */
module WorkerPool {

  datatype Config = Config(maxWorkers: nat, queueCap: nat, lingers: bool)

  datatype Pool<J> = Pool(active: nat, idle: nat, queue: seq<J>, rejected: nat, completed: nat)

  datatype Outcome = StartedWorker | Queued | Refused

  /** What a worker does when it lets go of the lock. */
  datatype Turn<J> = Work(job: J) | Linger | Exit

  function SubmitTo<J>(c: Config, p: Pool<J>, job: J): (Pool<J>, Outcome) {
    if p.idle > |p.queue| then (p.(queue := p.queue + [job]), Queued)
    else if p.active < c.maxWorkers then (p.(active := p.active + 1), StartedWorker)
    else if |p.queue| < c.queueCap then (p.(queue := p.queue + [job]), Queued)
    else (p.(rejected := p.rejected + 1), Refused)
  }

  /** A worker takes the oldest queued job, or exits. */
  function TakeNext<J>(p: Pool<J>): (Pool<J>, Turn<J>)
    requires p.queue == [] ==> p.active > 0
  {
    if p.queue == [] then (p.(active := p.active - 1), Exit)
    else (p.(queue := p.queue[1..]), Work(p.queue[0]))
  }

  /** A worker's job has returned. */
  function FinishJob<J>(c: Config, p: Pool<J>): (Pool<J>, Turn<J>)
    requires p.active > p.idle
  {
    var done := p.(completed := p.completed + 1);
    if p.queue == [] && c.lingers then (done.(idle := p.idle + 1), Linger)
    else TakeNext(done)
  }

  /** A lingering worker wakes: a job was queued, or its time is up. */
  function Wake<J>(p: Pool<J>): (Pool<J>, Turn<J>)
    requires 0 < p.idle <= p.active
  {
    TakeNext(p.(idle := p.idle - 1))
  }

  /** No job waits in the queue while a worker could be started or is free for it. */
  ghost predicate Inv<J>(c: Config, p: Pool<J>) {
    && p.idle <= p.active <= c.maxWorkers
    && (!c.lingers ==> p.idle == 0)
    && (|p.queue| > p.idle ==> p.active == c.maxWorkers)
    && (|p.queue| <= c.queueCap || |p.queue| <= p.idle)
  }

  /** Jobs the pool still owes a run or has in hand. */
  function Held<J>(p: Pool<J>): int {
    |p.queue| + p.active - p.idle
  }

  lemma SubmitKeepsInv<J>(c: Config, p: Pool<J>, job: J)
    requires Inv(c, p)
    ensures
      var (q, o) := SubmitTo(c, p, job);
      && Inv(c, q)
      && (o.Refused? <==> p.active == c.maxWorkers && p.idle <= |p.queue| && |p.queue| >= c.queueCap)
      && (o.StartedWorker? ==> p.queue == q.queue && |p.queue| == p.idle)
      && (o.StartedWorker? <==> p.idle <= |p.queue| && p.active < c.maxWorkers)
      && (o.StartedWorker? ==> q == p.(active := p.active + 1))
      && (o.Queued? ==> q == p.(queue := p.queue + [job]))
      && (o.Refused? ==> q == p.(rejected := p.rejected + 1))
      && Held(q) + q.completed + q.rejected == Held(p) + p.completed + p.rejected + 1
      && (!o.Refused? ==> Held(q) == Held(p) + 1)
  {
  }

  lemma TurnKeepsInv<J>(c: Config, p: Pool<J>)
    requires Inv(c, p)
    ensures p.active > p.idle ==>
              var (q, t) := FinishJob(c, p);
              && Inv(c, q) && Held(q) + q.completed == Held(p) + p.completed
              && q.rejected == p.rejected && q.completed == p.completed + 1
              && (p.queue != [] ==> t == Work(p.queue[0]) && q.queue == p.queue[1..]
                                    && q.active == p.active && q.idle == p.idle)
              && (p.queue == [] && c.lingers ==> t == Linger && q.active == p.active && q.idle == p.idle + 1)
              && (p.queue == [] && !c.lingers ==> t == Exit && q.active == p.active - 1 && q.idle == p.idle)
    ensures p.idle > 0 ==>
              var (q, t) := Wake(p);
              && Inv(c, q) && Held(q) == Held(p)
              && q.rejected == p.rejected && q.completed == p.completed && q.idle == p.idle - 1
              && (p.queue != [] ==> t == Work(p.queue[0]) && q.queue == p.queue[1..] && q.active == p.active)
              && (p.queue == [] ==> t == Exit && q.active == p.active - 1)
  {
  }

  class WorkerPool<J> {
    const cfg: Config
    var active: nat
    /** Workers waiting out the linger time with nothing to do. */
    var idle: nat
    var queue: seq<J>
    var rejected: nat
    var completed: nat
    ghost var submitted: nat

    ghost function Model(): Pool<J>
      reads this
    {
      Pool(active, idle, queue, rejected, completed)
    }

    /** Nothing is lost: every submitted job was refused, has returned, is running or waits. */
    ghost predicate Valid()
      reads this
    {
      && Inv(cfg, Model())
      && submitted == rejected + completed + |queue| + active - idle
    }

    constructor (cfg: Config)
      ensures Valid() && this.cfg == cfg && Model() == Pool(0, 0, [], 0, 0) && submitted == 0
    {
      this.cfg := cfg;
      active, idle, queue, rejected, completed, submitted := 0, 0, [], 0, 0, 0;
    }

    method Submit(job: J) returns (o: Outcome)
      requires Valid()
      modifies this
      ensures Valid() && submitted == old(submitted) + 1
      ensures (Model(), o) == SubmitTo(cfg, old(Model()), job)
    {
      submitted := submitted + 1;
      if idle > |queue| {
        queue := queue + [job];
        return Queued;
      }
      if active < cfg.maxWorkers {
        active := active + 1;
        return StartedWorker;
      }
      if |queue| < cfg.queueCap {
        queue := queue + [job];
        return Queued;
      }
      rejected := rejected + 1;
      o := Refused;
    }

    /** The lock hold after a job: linger, take the next job, or exit. */
    method JobReturned() returns (t: Turn<J>)
      requires Valid() && active > idle
      modifies this
      ensures Valid() && submitted == old(submitted)
      ensures (Model(), t) == FinishJob(cfg, old(Model()))
    {
      completed := completed + 1;
      if queue == [] && cfg.lingers {
        idle := idle + 1;
        return Linger;
      }
      t := PopOrExit();
    }

    /** The lock hold at the end of a linger. */
    method LingerOver() returns (t: Turn<J>)
      requires Valid() && idle > 0
      modifies this
      ensures Valid() && submitted == old(submitted)
      ensures (Model(), t) == Wake(old(Model()))
    {
      idle := idle - 1;
      t := PopOrExit();
    }

    method PopOrExit() returns (t: Turn<J>)
      requires active > 0
      modifies this`active, this`queue
      ensures (Model(), t) == TakeNext(old(Model()))
    {
      if queue == [] {
        active := active - 1;
        return Exit;
      }
      t := Work(queue[0]);
      queue := queue[1..];
    }
  }
}
