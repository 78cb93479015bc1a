/** How the dispatch thread names the keys of a request, and what that orders.

    A rename claims the inodes it moves and every busy inode below the moved folder, and
    stays registered until its body has run; a request on an inode below a registered
    rename's source or destination also claims the renamed inode. Together with the
    scheduler's order this puts every request of the subtree on one side of the rename. */
module FuseDispatch {
  import opened Options
  import opened KeyOrder
  import opened FuseScheduler
  import SchedulerRuns

  datatype Key = Ino(ino: nat) | Fh(fh: nat)

  type Path = seq<string>

  /** The inode table of the metadata cache. */
  datatype Cache = Cache(paths: map<nat, Path>, inodes: map<Path, nat>)

  /** A rename in flight. */
  datatype Move = Move(id: nat, ino: nat, from: Path, to: Path)

  // ── keys of an ordinary request ──────────────────────────────────────────

  predicate Covers(m: Move, path: Path) {
    m.from <= path || m.to <= path
  }

  /** The inode behind `k` lies under the source or the destination of `m`. */
  predicate UnderMove(cache: Cache, k: Key, m: Move) {
    k.Ino? && k.ino in cache.paths && Covers(m, cache.paths[k.ino])
  }

  /** `all` is `keys`, plus the renamed inode of each live move one of them lies under. */
  ghost predicate IsOrdered(keys: seq<Claim<Key>>, live: seq<Move>, cache: Cache, all: seq<Claim<Key>>) {
    && (forall c :: c in keys ==> c in all)
    && (forall c, m :: c in keys && m in live && UnderMove(cache, c.key, m) ==> Claim(Ino(m.ino), Shared) in all)
    && (forall d :: d in all ==> d in keys || exists c, m ::
          c in keys && m in live && UnderMove(cache, c.key, m) && d == Claim(Ino(m.ino), Shared))
  }

  /** What is added: the renamed inode, shared, of a rename whose source or destination is the
      path of an inode of `keys` or a folder above it. */
  method OrderUnderMoves(keys: seq<Claim<Key>>, live: seq<Move>, cache: Cache) returns (all: seq<Claim<Key>>)
    ensures IsOrdered(keys, live, cache, all)
    ensures forall d :: d in all <==> d in keys || exists c, m ::
              && c in keys && c.key.Ino? && c.key.ino in cache.paths && m in live
              && (m.from <= cache.paths[c.key.ino] || m.to <= cache.paths[c.key.ino])
              && d == Claim(Ino(m.ino), Shared)
  {
    var extra := [];
    for i := 0 to |keys|
      invariant forall n, m :: 0 <= n < i && m in live && UnderMove(cache, keys[n].key, m) ==>
                  Claim(Ino(m.ino), Shared) in extra
      invariant forall d :: d in extra ==> exists c, m ::
                  c in keys && m in live && UnderMove(cache, c.key, m) && d == Claim(Ino(m.ino), Shared)
    {
      var more := UnderOneKey(keys[i].key, live, cache);
      assert keys[i] in keys;
      extra := extra + more;
    }
    all := keys + extra;
  }

  method UnderOneKey(k: Key, live: seq<Move>, cache: Cache) returns (extra: seq<Claim<Key>>)
    ensures forall m :: m in live && UnderMove(cache, k, m) ==> Claim(Ino(m.ino), Shared) in extra
    ensures forall d :: d in extra ==> exists m :: m in live && UnderMove(cache, k, m) && d == Claim(Ino(m.ino), Shared)
  {
    extra := [];
    for j := 0 to |live|
      invariant forall n :: 0 <= n < j && UnderMove(cache, k, live[n]) ==> Claim(Ino(live[n].ino), Shared) in extra
      invariant forall d :: d in extra ==>
          exists m :: m in live && UnderMove(cache, k, m) && d == Claim(Ino(m.ino), Shared)
    {
      if UnderMove(cache, k, live[j]) {
        assert live[j] in live;
        extra := extra + [Claim(Ino(live[j].ino), Shared)];
      }
    }
  }

  // ── keys of a rename ─────────────────────────────────────────────────────

  datatype Rename = Rename(parent: nat, name: string, newParent: nat, newName: string)

  function Source(r: Rename, cache: Cache): Option<Path> {
    if r.parent in cache.paths then Some(cache.paths[r.parent] + [r.name]) else None
  }

  function Target(r: Rename, cache: Cache): Option<Path> {
    if r.newParent in cache.paths then Some(cache.paths[r.newParent] + [r.newName]) else None
  }

  function InodeAt(p: Option<Path>, cache: Cache): Option<nat> {
    if p.Some? && p.value in cache.inodes then Some(cache.inodes[p.value]) else None
  }

  predicate BelowSource(r: Rename, cache: Cache, k: Key) {
    && k.Ino? && InodeAt(Source(r, cache), cache).Some?
    && k.ino in cache.paths && Source(r, cache).value <= cache.paths[k.ino]
  }

  /** Everything a rename names, all of it exclusively. */
  ghost predicate IsRenameKeys(r: Rename, cache: Cache, busy: set<Key>, keys: seq<Claim<Key>>) {
    && Claim(Ino(r.parent), Exclusive) in keys && Claim(Ino(r.newParent), Exclusive) in keys
    && (var src := InodeAt(Source(r, cache), cache); src.Some? ==> Claim(Ino(src.value), Exclusive) in keys)
    && (var dst := InodeAt(Target(r, cache), cache); dst.Some? ==> Claim(Ino(dst.value), Exclusive) in keys)
    && (forall k :: k in busy && BelowSource(r, cache, k) ==> Claim(k, Exclusive) in keys)
    && (forall c :: c in keys ==>
          && c.mode == Exclusive && c.key.Ino?
          && (|| c.key.ino == r.parent || c.key.ino == r.newParent
              || Some(c.key.ino) == InodeAt(Source(r, cache), cache)
              || Some(c.key.ino) == InodeAt(Target(r, cache), cache)
              || (c.key in busy && BelowSource(r, cache, c.key))))
  }

  /** The rename's own keys, and what to register while it is in flight. */
  method RenameKeys(r: Rename, cache: Cache, busy: set<Key>)
      returns (keys: seq<Claim<Key>>, tree: Option<(nat, Path, Path)>)
    ensures IsRenameKeys(r, cache, busy, keys)
    ensures tree == RenameTree(r, cache)
    ensures tree.Some? <==> r.parent in cache.paths && r.newParent in cache.paths
                            && cache.paths[r.parent] + [r.name] in cache.inodes
    ensures tree.Some? ==> tree.value == (cache.inodes[cache.paths[r.parent] + [r.name]],
              cache.paths[r.parent] + [r.name], cache.paths[r.newParent] + [r.newName])
    ensures r.parent in cache.paths && cache.paths[r.parent] + [r.name] in cache.inodes ==>
              var from := cache.paths[r.parent] + [r.name];
              && Claim(Ino(cache.inodes[from]), Exclusive) in keys
              && forall i :: Ino(i) in busy && i in cache.paths && from <= cache.paths[i] ==>
                   Claim(Ino(i), Exclusive) in keys
    ensures forall c :: c in keys ==>
              && c.mode == Exclusive && c.key.Ino?
              && (|| c.key.ino == r.parent || c.key.ino == r.newParent
                  || (&& r.newParent in cache.paths && cache.paths[r.newParent] + [r.newName] in cache.inodes
                      && c.key.ino == cache.inodes[cache.paths[r.newParent] + [r.newName]])
                  || (&& r.parent in cache.paths && cache.paths[r.parent] + [r.name] in cache.inodes
                      && (|| c.key.ino == cache.inodes[cache.paths[r.parent] + [r.name]]
                          || (&& c.key in busy && c.key.ino in cache.paths
                              && cache.paths[r.parent] + [r.name] <= cache.paths[c.key.ino]))))
    ensures r.newParent in cache.paths && cache.paths[r.newParent] + [r.newName] in cache.inodes ==>
              Claim(Ino(cache.inodes[cache.paths[r.newParent] + [r.newName]]), Exclusive) in keys
  {
    keys := [Claim(Ino(r.parent), Exclusive), Claim(Ino(r.newParent), Exclusive)];
    var from, to := Source(r, cache), Target(r, cache);
    var src, dst := InodeAt(from, cache), InodeAt(to, cache);
    if src.Some? {
      keys := keys + [Claim(Ino(src.value), Exclusive)];
    }
    if dst.Some? {
      keys := keys + [Claim(Ino(dst.value), Exclusive)];
    }
    if src.Some? && from.Some? {
      var more := BusyBelow(r, cache, busy, src.value);
      keys := keys + more;
    }
    tree := if src.Some? && from.Some? && to.Some? then Some((src.value, from.value, to.value)) else None;
  }

  function RenameTree(r: Rename, cache: Cache): Option<(nat, Path, Path)> {
    var from, to := Source(r, cache), Target(r, cache);
    var src := InodeAt(from, cache);
    if src.Some? && from.Some? && to.Some? then Some((src.value, from.value, to.value)) else None
  }

  method BusyBelow(r: Rename, cache: Cache, busy: set<Key>, src: nat) returns (more: seq<Claim<Key>>)
    requires InodeAt(Source(r, cache), cache) == Some(src)
    ensures forall c :: c in more <==>
              c.mode == Exclusive && c.key in busy && c.key != Ino(src) && BelowSource(r, cache, c.key)
  {
    more := [];
    var rest := busy;
    while rest != {}
      invariant rest <= busy
      invariant forall c :: c in more <==>
                  c.mode == Exclusive && c.key in busy - rest && c.key != Ino(src) && BelowSource(r, cache, c.key)
      decreases |rest|
    {
      var k :| k in rest;
      if k != Ino(src) && BelowSource(r, cache, k) {
        more := more + [Claim(k, Exclusive)];
      }
      rest := rest - {k};
    }
  }

  // ── the dispatch thread as a transition system ───────────────────────────

  /** The request the dispatch thread has in hand: first with its own keys, then `ordered` with
      those of the renames it lies under, and waiting for room in the scheduler. `mustFollow`
      records, from the meaning of the request alone, the live tasks it has to come after;
      `move` is the registration it made. */
  datatype Pending = Pending(keys: seq<Claim<Key>>, mustFollow: set<nat>, move: Option<nat>, ordered: bool)

  /** `owner` is the task of each registered move; `follows` what each task had to come after. */
  datatype Sys = Sys(
    run: Run<Key>, live: seq<Move>, nextMove: nat, pending: Option<Pending>,
    owner: map<nat, nat>, follows: map<nat, set<nat>>)

  function Initial(): Sys {
    Sys(SchedulerRuns.Initial(), [], 0, None, map[], map[])
  }

  /** The tasks of the registered renames a request on `keys` lies under. */
  ghost function RenamesOver(s: Sys, keys: seq<Claim<Key>>, cache: Cache): set<nat> {
    set m, c | m in s.live && c in keys && UnderMove(cache, c.key, m) && m.id in s.owner :: s.owner[m.id]
  }

  /** The live tasks on an inode whose cached path lies under the rename's source. */
  ghost function TasksBelow(s: Sys, r: Rename, cache: Cache): set<nat> {
    set j, c | j in s.run.tasks && j in s.run.asked && c in s.run.asked[j] && BelowSource(r, cache, c.key) :: j
  }

  /** The busy keys were read a moment ago: what has finished since may still be among them. */
  ghost predicate WereBusy(tasks: Tasks<Key>, busy: set<Key>) {
    forall i, c :: i in tasks && c in tasks[i].keys ==> c.key in busy
  }

  /** A request comes in with its keys. */
  ghost predicate PrepareRequest(s: Sys, t: Sys, keys: seq<Claim<Key>>) {
    s.pending == None && t == s.(pending := Some(Pending(keys, {}, None, false)))
  }

  /** A rename works out its keys on the cache as it is, and registers itself. */
  ghost predicate PrepareRename(s: Sys, t: Sys, r: Rename, cache: Cache, keys: seq<Claim<Key>>) {
    && s.pending == None
    && (exists busy :: WereBusy(s.run.tasks, busy) && IsRenameKeys(r, cache, busy, keys))
    && var tree, must := RenameTree(r, cache), TasksBelow(s, r, cache);
       if tree.None? then
         t == s.(pending := Some(Pending(keys, must, None, false)))
       else
         var id := s.nextMove + 1;
         t == s.(nextMove := id, live := s.live + [Move(id, tree.value.0, tree.value.1, tree.value.2)],
                 pending := Some(Pending(keys, must, Some(id), false)))
  }

  /** The request in hand is put behind the renames registered by now, on the cache by now. */
  ghost predicate Order(s: Sys, t: Sys, cache: Cache, all: seq<Claim<Key>>) {
    && s.pending.Some? && !s.pending.value.ordered
    && var p := s.pending.value;
       && IsOrdered(p.keys, s.live, cache, all)
       && t == s.(pending := Some(Pending(all, p.mustFollow + RenamesOver(s, p.keys, cache), p.move, true)))
  }

  ghost predicate Submit(limit: nat, s: Sys, t: Sys) {
    && s.pending.Some? && s.pending.value.ordered && |s.run.tasks| < limit
    && SubmitStep(s.run, t.run, s.pending.value.keys)
    && t == s.(run := t.run, pending := None,
               owner :=
                 if s.pending.value.move.Some? then s.owner[s.pending.value.move.value := t.run.nextId] else s.owner,
               follows := s.follows[t.run.nextId := s.pending.value.mustFollow])
  }

  /** The rename's body has run: its registration goes, just before its task completes. */
  ghost predicate MoveDone(s: Sys, t: Sys, id: nat) {
    && id in s.owner && s.owner[id] in s.run.tasks && s.run.tasks[s.owner[id]].started
    && (forall m :: m in t.live <==> m in s.live && m.id != id)
    && t == s.(live := t.live)
  }

  ghost predicate Complete(s: Sys, t: Sys, id: nat, starts: seq<nat>) {
    && CompleteStep(s.run, t.run, id, starts)
    && (forall m :: m in s.live && m.id in s.owner ==> s.owner[m.id] != id)
    && t == s.(run := t.run)
  }

  ghost predicate Next(limit: nat, s: Sys, t: Sys) {
    || (exists keys :: PrepareRequest(s, t, keys))
    || (exists r, cache, keys :: PrepareRename(s, t, r, cache, keys))
    || (exists cache, all :: Order(s, t, cache, all))
    || Submit(limit, s, t)
    || (exists id :: MoveDone(s, t, id))
    || (exists id, starts :: Complete(s, t, id, starts))
  }

  ghost predicate NextAt(limit: nat, states: seq<Sys>, i: nat)
    requires i + 1 < |states|
  {
    Next(limit, states[i], states[i + 1])
  }

  ghost predicate IsRun(limit: nat, states: seq<Sys>) {
    && states != [] && states[0] == Initial()
    && forall i :: 0 <= i < |states| - 1 ==> NextAt(limit, states, i)
  }

  // ── what is claimed covers what must be waited for ───────────────────────

  ghost predicate Claims(run: Run<Key>, a: nat, k: Key, m: Mode) {
    a in run.asked && exists c :: c in run.asked[a] && c.key == k && (m.Exclusive? ==> c.mode.Exclusive?)
  }

  /** Each registered move's task claims the renamed inode exclusively. */
  ghost predicate MovesOwned(s: Sys) {
    && (forall m :: m in s.live ==> m.id <= s.nextMove)
    && (forall m :: m in s.live && m.id in s.owner ==>
          s.owner[m.id] <= s.run.nextId && Claims(s.run, s.owner[m.id], Ino(m.ino), Exclusive))
    && (forall m :: m in s.live && m.id !in s.owner ==>
          && s.pending.Some? && s.pending.value.move == Some(m.id)
          && Claim(Ino(m.ino), Exclusive) in s.pending.value.keys)
    && (forall i :: i in s.owner ==> i <= s.nextMove)
  }

  /** What a request must follow, it conflicts with. */
  ghost predicate PendingConflicts(s: Sys) {
    s.pending.Some? ==>
      && (forall a :: a in s.pending.value.mustFollow ==>
            a in s.run.asked && Conflict(s.run.asked[a], s.pending.value.keys))
      && (s.pending.value.move.Some? ==>
            s.pending.value.move.value <= s.nextMove && s.pending.value.move.value !in s.owner)
  }

  ghost predicate FollowsConflict(s: Sys) {
    AllFollow(s.run.asked, s.follows)
  }

  ghost predicate MustFollow(asked: Table<Key>, a: nat, b: nat) {
    a in asked && b in asked && a < b && Conflict(asked[a], asked[b])
  }

  ghost predicate AllFollow(asked: Table<Key>, follows: map<nat, set<nat>>) {
    forall b, a :: b in follows && a in follows[b] ==> MustFollow(asked, a, b)
  }

  ghost predicate Booked(s: Sys) {
    MovesOwned(s) && PendingConflicts(s) && FollowsConflict(s)
  }

  ghost predicate Inv(limit: nat, s: Sys) {
    SchedulerRuns.Inv(limit, s.run) && Booked(s)
  }

  lemma SameKeyConflicts(a: seq<Claim<Key>>, b: seq<Claim<Key>>, c: Claim<Key>, d: Claim<Key>)
    requires c in a && d in b && c.key == d.key && (c.mode == Exclusive || d.mode == Exclusive)
    ensures Conflict(a, b)
  {
    assert !Compatible(c.mode, d.mode);
  }

  /** A request under a registered rename conflicts with that rename's task. */
  lemma CoveredConflicts(s: Sys, keys: seq<Claim<Key>>, cache: Cache, all: seq<Claim<Key>>, a: nat)
    requires MovesOwned(s) && IsOrdered(keys, s.live, cache, all)
    requires a in RenamesOver(s, keys, cache)
    ensures a in s.run.asked && Conflict(s.run.asked[a], all)
  {
    var m, c :| m in s.live && c in keys && UnderMove(cache, c.key, m) && m.id in s.owner && s.owner[m.id] == a;
    assert Claims(s.run, a, Ino(m.ino), Exclusive);
    var d :| d in s.run.asked[a] && d.key == Ino(m.ino) && d.mode.Exclusive?;
    SameKeyConflicts(s.run.asked[a], all, d, Claim(Ino(m.ino), Shared));
  }

  /** A task on an inode below a rename's source conflicts with the rename. */
  lemma BelowConflicts(s: Sys, r: Rename, cache: Cache, busy: set<Key>, keys: seq<Claim<Key>>, j: nat)
    requires SchedulerRuns.Known(s.run) && WereBusy(s.run.tasks, busy) && IsRenameKeys(r, cache, busy, keys)
    requires j in TasksBelow(s, r, cache)
    ensures j in s.run.asked && Conflict(s.run.asked[j], keys)
  {
    var c :| j in s.run.tasks && j in s.run.asked && c in s.run.asked[j] && BelowSource(r, cache, c.key);
    var strongest := Claim(c.key, Exclusive);
    var merged := if strongest in s.run.asked[j] then strongest else c;
    assert IsMerge(s.run.asked[j], s.run.tasks[j].keys);
    assert merged in s.run.tasks[j].keys;
    assert c.key in busy;
    assert strongest in keys;
    SameKeyConflicts(s.run.asked[j], keys, c, strongest);
  }

  lemma RequestKeeps(s: Sys, t: Sys, keys: seq<Claim<Key>>)
    requires Booked(s) && PrepareRequest(s, t, keys)
    ensures Booked(t)
  {
  }

  /** More keys conflict with no less. */
  lemma MoreKeysConflict(a: seq<Claim<Key>>, keys: seq<Claim<Key>>, all: seq<Claim<Key>>)
    requires Conflict(a, keys) && forall c :: c in keys ==> c in all
    ensures Conflict(a, all)
  {
  }

  lemma OrderKeeps(s: Sys, t: Sys, cache: Cache, all: seq<Claim<Key>>)
    requires Booked(s) && Order(s, t, cache, all)
    ensures Booked(t)
  {
    var p := s.pending.value;
    forall a | a in t.pending.value.mustFollow ensures a in s.run.asked && Conflict(s.run.asked[a], all) {
      if a in p.mustFollow {
        MoreKeysConflict(s.run.asked[a], p.keys, all);
      } else {
        CoveredConflicts(s, p.keys, cache, all, a);
      }
    }
  }

  lemma RenameFollows(s: Sys, t: Sys, r: Rename, cache: Cache, keys: seq<Claim<Key>>)
    requires SchedulerRuns.Known(s.run) && MovesOwned(s)
    requires PrepareRename(s, t, r, cache, keys)
    ensures PendingConflicts(t)
  {
    var busy :| WereBusy(s.run.tasks, busy) && IsRenameKeys(r, cache, busy, keys);
    forall a | a in TasksBelow(s, r, cache) ensures a in s.run.asked && Conflict(s.run.asked[a], keys) {
      BelowConflicts(s, r, cache, busy, keys, a);
    }
  }

  lemma RenameRegisters(s: Sys, t: Sys, r: Rename, cache: Cache, keys: seq<Claim<Key>>)
    requires Booked(s) && PrepareRename(s, t, r, cache, keys)
    ensures MovesOwned(t) && FollowsConflict(t)
  {
    var tree := RenameTree(r, cache);
    if tree.Some? {
      assert Claim(Ino(tree.value.0), Exclusive) in keys;
    }
  }

  lemma SubmitOwns(limit: nat, s: Sys, t: Sys)
    requires SchedulerRuns.Known(s.run) && Booked(s) && Submit(limit, s, t)
    ensures MovesOwned(t)
  {
    SubmittedOwns(s, t, t.run.nextId);
  }

  lemma SubmittedOwns(s: Sys, t: Sys, id: nat)
    requires MovesOwned(s) && PendingConflicts(s) && s.pending.Some? && (forall i :: i in s.run.asked ==> i < id)
    requires t.run.nextId == id == s.run.nextId + 1 && t.run.asked == s.run.asked[id := s.pending.value.keys]
    requires t.live == s.live && t.nextMove == s.nextMove && t.pending == None
    requires t.owner == if s.pending.value.move.Some? then s.owner[s.pending.value.move.value := id] else s.owner
    ensures MovesOwned(t)
  {
    forall m | m in t.live && m.id in t.owner
      ensures t.owner[m.id] <= id && Claims(t.run, t.owner[m.id], Ino(m.ino), Exclusive)
    {
      if m.id in s.owner {
        assert Claims(s.run, s.owner[m.id], Ino(m.ino), Exclusive);
      } else {
        assert Claim(Ino(m.ino), Exclusive) in t.run.asked[id];
      }
    }
  }

  lemma SubmitFollows(limit: nat, s: Sys, t: Sys)
    requires SchedulerRuns.Known(s.run) && Booked(s) && Submit(limit, s, t)
    ensures PendingConflicts(t) && FollowsConflict(t)
  {
    SubmitConflicts(s.run.asked, s.follows, t.run.nextId, s.pending.value.keys, s.pending.value.mustFollow);
  }

  lemma SubmitConflicts(
      asked: Table<Key>, follows: map<nat, set<nat>>, id: nat, keys: seq<Claim<Key>>, mustFollow: set<nat>)
    requires AllFollow(asked, follows) && forall i :: i in asked ==> i < id
    requires forall a :: a in mustFollow ==> a in asked && Conflict(asked[a], keys)
    ensures AllFollow(asked[id := keys], follows[id := mustFollow])
  {
    var asked', follows' := asked[id := keys], follows[id := mustFollow];
    forall b, a | b in follows' && a in follows'[b] ensures MustFollow(asked', a, b) {
      if b == id {
        assert Conflict(asked[a], keys) && asked'[a] == asked[a];
      } else {
        assert MustFollow(asked, a, b) && asked'[a] == asked[a] && asked'[b] == asked[b];
      }
    }
  }

  /** Nothing that only ends tasks or registrations disturbs the book-keeping. */
  lemma EndingKeeps(s: Sys, t: Sys)
    requires Booked(s)
    requires t == s.(run := t.run, live := t.live) && forall m :: m in t.live ==> m in s.live
    requires t.run.asked == s.run.asked && t.run.nextId == s.run.nextId
    ensures Booked(t)
  {
    forall m | m in t.live && m.id in t.owner ensures Claims(t.run, t.owner[m.id], Ino(m.ino), Exclusive) {
      assert Claims(s.run, s.owner[m.id], Ino(m.ino), Exclusive);
    }
  }

  lemma StepKeepsBooked(limit: nat, s: Sys, t: Sys)
    requires SchedulerRuns.Known(s.run) && Booked(s) && Next(limit, s, t)
    ensures Booked(t)
  {
    if keys :| PrepareRequest(s, t, keys) {
      RequestKeeps(s, t, keys);
    } else if r, cache, keys :| PrepareRename(s, t, r, cache, keys) {
      RenameRegisters(s, t, r, cache, keys);
      RenameFollows(s, t, r, cache, keys);
    } else if cache, all :| Order(s, t, cache, all) {
      OrderKeeps(s, t, cache, all);
    } else if Submit(limit, s, t) {
      SubmitOwns(limit, s, t);
      SubmitFollows(limit, s, t);
    } else {
      EndingKeeps(s, t);
    }
  }

  ghost predicate ScheduleStep(limit: nat, s: Sys, t: Sys) {
    || Submit(limit, s, t)
    || (exists id, starts :: Complete(s, t, id, starts))
    || t.run == s.run
  }

  lemma StepIsScheduled(limit: nat, s: Sys, t: Sys)
    requires Next(limit, s, t)
    ensures ScheduleStep(limit, s, t)
  {
  }

  lemma StepKeepsSchedule(limit: nat, s: Sys, t: Sys)
    requires SchedulerRuns.Inv(limit, s.run) && ScheduleStep(limit, s, t)
    ensures SchedulerRuns.Inv(limit, t.run)
  {
    if Submit(limit, s, t) {
      SchedulerRuns.SubmitKeepsInv(limit, s.run, t.run, s.pending.value.keys);
    } else if id, starts :| Complete(s, t, id, starts) {
      SchedulerRuns.CompleteKeepsInv(limit, s.run, t.run, id, starts);
    } else {
      assert t.run == s.run;
    }
  }

  /** What every step keeps holds in every state. */
  lemma RunKeepsInv(limit: nat, states: seq<Sys>)
    requires IsRun(limit, states)
    ensures Inv(limit, states[|states| - 1])
  {
    InvAt(limit, states, |states| - 1);
  }

  lemma InitialInv(limit: nat)
    ensures Inv(limit, Initial())
  {
  }

  lemma InvAt(limit: nat, states: seq<Sys>, k: nat)
    requires IsRun(limit, states) && k < |states|
    ensures Inv(limit, states[k])
  {
    var keeps := (s: Sys) => Inv(limit, s);
    forall n | 0 <= n < |states| - 1 && keeps(states[n]) ensures SchedulerRuns.Carried(keeps, states, n) {
      NextKeepsInv(limit, states, n);
    }
    InitialInv(limit);
    SchedulerRuns.Along(keeps, states, k);
  }

  ghost predicate CarriedAt(flags: seq<bool>, k: nat)
    requires k + 1 < |flags|
  {
    flags[k] ==> flags[k + 1]
  }

  lemma {:induction false} CarriedOn(flags: seq<bool>, i: nat, j: nat)
    requires i <= j < |flags| && flags[i] && forall k :: i <= k < j ==> CarriedAt(flags, k)
    ensures flags[j]
    decreases j
  {
    if i < j {
      CarriedOn(flags, i, j - 1);
      assert CarriedAt(flags, j - 1);
    }
  }

  lemma NextKeepsInv(limit: nat, states: seq<Sys>, k: nat)
    requires IsRun(limit, states) && k + 1 < |states| && Inv(limit, states[k])
    ensures Inv(limit, states[k + 1])
  {
    assert NextAt(limit, states, k);
    StepKeepsInv(limit, states[k], states[k + 1]);
  }

  lemma StepKeepsInv(limit: nat, s: Sys, t: Sys)
    requires Inv(limit, s) && Next(limit, s, t)
    ensures Inv(limit, t)
  {
    StepIsScheduled(limit, s, t);
    StepKeepsSchedule(limit, s, t);
    StepKeepsBooked(limit, s, t);
  }

  lemma MustFollowConflicts(s: Sys, a: nat, b: nat)
    requires FollowsConflict(s) && b in s.follows && a in s.follows[b]
    ensures a in s.run.asked && b in s.run.asked && a < b && Conflict(s.run.asked[a], s.run.asked[b])
  {
  }

  /** When a request is dispatched every registered rename already has its task, so what
      `RenamesOver` collects is all of them. */
  lemma RegisteredRenamesHaveTasks(limit: nat, states: seq<Sys>, m: Move)
    requires IsRun(limit, states)
    requires states[|states| - 1].pending == None && m in states[|states| - 1].live
    ensures
      var s := states[|states| - 1];
      m.id in s.owner && s.owner[m.id] in s.run.asked
  {
    RunKeepsInv(limit, states);
    assert Claims(states[|states| - 1].run, states[|states| - 1].owner[m.id], Ino(m.ino), Exclusive);
  }

  /** Folder renames are ordered with their subtree. Whatever a request had to follow when it
      was dispatched has finished before it starts: for a rename, every live task on an inode
      under its source; for any request, every registered rename over one of its inodes. */
  lemma SubtreeIsOrderedWithRenames(limit: nat, states: seq<Sys>, a: nat, b: nat, p: nat)
    requires IsRun(limit, states)
    requires
      var s := states[|states| - 1];
      && b in s.follows && a in s.follows[b]
      && p < |s.run.history| && s.run.history[p] == Started(b)
    ensures Finished(a) in states[|states| - 1].run.history[..p]
  {
    RunKeepsInv(limit, states);
    var s := states[|states| - 1];
    MustFollowConflicts(s, a, b);
    SchedulerRuns.EarlierFinished(s.run.history, s.run.asked, a, b, p);
  }

  // ── the same over paths ──────────────────────────────────────────────────

  lemma StaysHeld(limit: nat, s: Sys, t: Sys, a: nat)
    requires Next(limit, s, t) && s.pending.Some? && t.pending.Some? && a in s.pending.value.mustFollow
    ensures a in t.pending.value.mustFollow
  {
  }

  ghost predicate Holds(states: seq<Sys>, k: nat, a: nat)
    requires k < |states|
  {
    states[k].pending.Some? && a in states[k].pending.value.mustFollow
  }

  /** From `i` to `j` one and the same request is in hand. */
  ghost predicate InHand(states: seq<Sys>, i: nat, j: nat) {
    i <= j < |states| && forall k :: i <= k <= j ==> states[k].pending.Some?
  }

  lemma HeldNext(limit: nat, states: seq<Sys>, k: nat, a: nat)
    requires IsRun(limit, states) && k + 1 < |states| && Holds(states, k, a) && states[k + 1].pending.Some?
    ensures Holds(states, k + 1, a)
  {
    assert NextAt(limit, states, k);
    StaysHeld(limit, states[k], states[k + 1], a);
  }

  lemma HeldUntil(limit: nat, states: seq<Sys>, i: nat, j: nat, a: nat)
    requires IsRun(limit, states) && InHand(states, i, j) && Holds(states, i, a)
    ensures Holds(states, j, a)
  {
    var held := seq(|states|, k requires 0 <= k < |states| => Holds(states, k, a));
    forall k | i <= k < j ensures CarriedAt(held, k) {
      if held[k] {
        HeldNext(limit, states, k, a);
      }
    }
    CarriedOn(held, i, j);
  }

  lemma FollowsStay(limit: nat, s: Sys, t: Sys, a: nat, b: nat)
    requires Inv(limit, s) && Next(limit, s, t) && b in s.follows && a in s.follows[b]
    ensures b in t.follows && a in t.follows[b]
  {
    assert MustFollow(s.run.asked, a, b);
    assert SchedulerRuns.Known(s.run);
  }

  ghost predicate Follows(states: seq<Sys>, k: nat, a: nat, b: nat)
    requires k < |states|
  {
    b in states[k].follows && a in states[k].follows[b]
  }

  lemma FollowsNext(limit: nat, states: seq<Sys>, k: nat, a: nat, b: nat)
    requires IsRun(limit, states) && k + 1 < |states| && Follows(states, k, a, b)
    ensures Follows(states, k + 1, a, b)
  {
    InvAt(limit, states, k);
    assert NextAt(limit, states, k);
    FollowsStay(limit, states[k], states[k + 1], a, b);
  }

  lemma FollowsUntil(limit: nat, states: seq<Sys>, i: nat, j: nat, a: nat, b: nat)
    requires IsRun(limit, states) && i <= j < |states| && Follows(states, i, a, b)
    ensures Follows(states, j, a, b)
  {
    var follows := seq(|states|, k requires 0 <= k < |states| => Follows(states, k, a, b));
    forall k | i <= k < j ensures CarriedAt(follows, k) {
      if follows[k] {
        FollowsNext(limit, states, k, a, b);
      }
    }
    CarriedOn(follows, i, j);
  }

  lemma FollowedFinishesFirst(limit: nat, states: seq<Sys>, k: nat, a: nat, b: nat, p: nat)
    requires IsRun(limit, states) && k < |states| && Follows(states, k, a, b)
    requires
      var history := states[|states| - 1].run.history;
      p < |history| && history[p] == Started(b)
    ensures Finished(a) in states[|states| - 1].run.history[..p]
  {
    FollowsUntil(limit, states, k, |states| - 1, a, b);
    SubtreeIsOrderedWithRenames(limit, states, a, b, p);
  }

  /** The request in hand at `i` becomes task `b`. */
  ghost predicate Becomes(limit: nat, states: seq<Sys>, i: nat, b: nat) {
    exists j: nat :: BecomesAt(limit, states, i, j, b)
  }

  ghost predicate BecomesAt(limit: nat, states: seq<Sys>, i: nat, j: nat, b: nat) {
    && InHand(states, i, j) && j + 1 < |states|
    && Submit(limit, states[j], states[j + 1]) && b == states[j + 1].run.nextId
  }

  ghost predicate StartedAt(states: seq<Sys>, b: nat, p: nat)
    requires states != []
  {
    p < |states[|states| - 1].run.history| && states[|states| - 1].run.history[p] == Started(b)
  }

  lemma SubmittedFollows(s: Sys, t: Sys, limit: nat, a: nat)
    requires s.pending.Some? && a in s.pending.value.mustFollow && Submit(limit, s, t)
    ensures t.run.nextId in t.follows && a in t.follows[t.run.nextId]
  {
  }

  lemma HeldIsFollowed(limit: nat, states: seq<Sys>, i: nat, j: nat, a: nat, b: nat)
    requires IsRun(limit, states) && i < |states| && Holds(states, i, a) && BecomesAt(limit, states, i, j, b)
    ensures Follows(states, j + 1, a, b)
  {
    HeldUntil(limit, states, i, j, a);
    SubmittedFollows(states[j], states[j + 1], limit, a);
  }

  /** What the request in hand must follow when it has its keys has finished before it starts. */
  lemma HeldFinishesFirst(limit: nat, states: seq<Sys>, i: nat, a: nat, b: nat, p: nat)
    requires IsRun(limit, states) && i < |states| && Holds(states, i, a)
    requires Becomes(limit, states, i, b) && StartedAt(states, b, p)
    ensures Finished(a) in states[|states| - 1].run.history[..p]
  {
    var k := BecomesFollower(limit, states, i, a, b);
    FollowedFinishesFirst(limit, states, k, a, b, p);
  }

  lemma BecomesFollower(limit: nat, states: seq<Sys>, i: nat, a: nat, b: nat) returns (k: nat)
    requires IsRun(limit, states) && i < |states| && Holds(states, i, a) && Becomes(limit, states, i, b)
    ensures k < |states| && Follows(states, k, a, b)
  {
    var j: nat :| BecomesAt(limit, states, i, j, b);
    HeldIsFollowed(limit, states, i, j, a, b);
    k := j + 1;
  }

  lemma OrderHolds(s: Sys, t: Sys, cache: Cache, all: seq<Claim<Key>>, c: Claim<Key>, m: Move)
    requires MovesOwned(s) && Order(s, t, cache, all)
    requires c in s.pending.value.keys && m in s.live && s.pending.value.move != Some(m.id)
    requires c.key.Ino? && c.key.ino in cache.paths
    requires m.from <= cache.paths[c.key.ino] || m.to <= cache.paths[c.key.ino]
    ensures m.id in s.owner && t.pending.Some? && s.owner[m.id] in t.pending.value.mustFollow
  {
    assert UnderMove(cache, c.key, m);
    assert s.owner[m.id] in RenamesOver(s, s.pending.value.keys, cache);
  }

  lemma BelowHolds(
      s: Sys, t: Sys, r: Rename, cache: Cache, keys: seq<Claim<Key>>, a: nat, c: Claim<Key>)
    requires PrepareRename(s, t, r, cache, keys)
    requires a in s.run.tasks && a in s.run.asked && c in s.run.asked[a] && c.key.Ino? && c.key.ino in cache.paths
    requires r.parent in cache.paths && cache.paths[r.parent] + [r.name] in cache.inodes
    requires cache.paths[r.parent] + [r.name] <= cache.paths[c.key.ino]
    ensures t.pending.Some? && a in t.pending.value.mustFollow
  {
    assert BelowSource(r, cache, c.key);
    assert a in TasksBelow(s, r, cache);
  }

  /** A request on an inode below the source or the destination of a rename registered when its
      keys are put together starts only after that rename has finished. */
  lemma RequestWaitsForRename(
      limit: nat, states: seq<Sys>, i: nat, cache: Cache, all: seq<Claim<Key>>, c: Claim<Key>, m: Move, b: nat, p: nat)
    requires IsRun(limit, states) && i + 1 < |states| && Order(states[i], states[i + 1], cache, all)
    requires c in states[i].pending.value.keys && c.key.Ino? && c.key.ino in cache.paths
    requires m in states[i].live && states[i].pending.value.move != Some(m.id)
    requires m.from <= cache.paths[c.key.ino] || m.to <= cache.paths[c.key.ino]
    requires Becomes(limit, states, i + 1, b) && StartedAt(states, b, p)
    ensures m.id in states[i].owner && Finished(states[i].owner[m.id]) in states[|states| - 1].run.history[..p]
  {
    InvAt(limit, states, i);
    OrderHolds(states[i], states[i + 1], cache, all, c, m);
    HeldFinishesFirst(limit, states, i + 1, states[i].owner[m.id], b, p);
  }

  /** A rename of a known inode starts only after every task live when its keys are put
      together, on an inode at or below the source, has finished. */
  lemma RenameWaitsForSubtree(
      limit: nat, states: seq<Sys>, i: nat, r: Rename, cache: Cache, keys: seq<Claim<Key>>,
      a: nat, c: Claim<Key>, b: nat, p: nat)
    requires IsRun(limit, states) && i + 1 < |states| && PrepareRename(states[i], states[i + 1], r, cache, keys)
    requires a in states[i].run.tasks && a in states[i].run.asked && c in states[i].run.asked[a]
    requires c.key.Ino? && c.key.ino in cache.paths
    requires r.parent in cache.paths && cache.paths[r.parent] + [r.name] in cache.inodes
    requires cache.paths[r.parent] + [r.name] <= cache.paths[c.key.ino]
    requires Becomes(limit, states, i + 1, b) && StartedAt(states, b, p)
    ensures Finished(a) in states[|states| - 1].run.history[..p]
  {
    BelowHolds(states[i], states[i + 1], r, cache, keys, a, c);
    HeldFinishesFirst(limit, states, i + 1, a, b, p);
  }
}
