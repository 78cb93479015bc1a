/** The server a journal is replayed against, as WebDAV describes it: a tree of files with
    versions, PUT under If-Match (section 13.1.1 of RFC 9110), recursive DELETE and
    overwriting MOVE (sections 9.6 and 9.9 of RFC 4918).

    An entry the server refuses for good ends up dropped from the queue with no effect on the
    tree, whether at once or after its last attempt, so `Exec` is its final effect. */
module JournalServer {
  import opened Options
  import opened Journal

  datatype Node = File(bytes: nat, version: string) | Folder

  type Tree = map<Path, Node>

  /** What the server and the clock decide: the version an upload gets and whether the answer
      says so, the name of a conflicted copy, which upload sessions have expired. */
  datatype Env = Env(etag: nat -> string, told: nat -> bool, copyName: Path -> string, gone: nat -> bool)

  function Parent(p: Path): Path {
    if p == [] then [] else p[..|p| - 1]
  }

  /** The conflicted copy sits next to the file. */
  function CopyOf(env: Env, p: Path): Path {
    Parent(p) + [env.copyName(p)]
  }

  predicate InFolder(t: Tree, p: Path) {
    p != [] && Parent(p) in t && t[Parent(p)].Folder?
  }

  predicate CanPut(t: Tree, p: Path) {
    InFolder(t, p) && !(p in t && t[p].Folder?)
  }

  /** If-Match: the file is there and is that version. */
  predicate Matches(t: Tree, p: Path, cond: Option<string>) {
    cond.Some? ==> p in t && t[p].File? && t[p].version == cond.value
  }

  function Without(t: Tree, p: Path): Tree {
    map q | q in t && !Under(q, p) :: t[q]
  }

  predicate CanMove(t: Tree, a: Path, b: Path) {
    a in t && !Under(b, a) && !Under(a, b) && InFolder(t, b)
  }

  /** What was at or below `b` is gone, and what was at or below `a` is there instead. */
  function Moved(t: Tree, a: Path, b: Path): Tree {
    var kept := Without(Without(t, a), b);
    kept + map q | q in (set x | x in t && Under(x, a) :: b + x[|a|..]) && a + q[|b|..] in t :: t[a + q[|b|..]]
  }

  /** Where something conditional on a version of `p` goes. */
  function Target(env: Env, t: Tree, p: Path, cond: Option<string>): Path {
    if Matches(t, p, cond) then p else CopyOf(env, p)
  }

  function Upload(env: Env, t: Tree, p: Path, file: Node, cond: Option<string>): Tree {
    var dest := Target(env, t, p, cond);
    if CanPut(t, dest) then t[dest := file] else t
  }

  function Move(env: Env, t: Tree, a: Path, b: Path, cond: Option<string>): Tree {
    var dest := Target(env, t, b, cond);
    if CanMove(t, a, dest) then Moved(t, a, dest) else t
  }

  function Exec(env: Env, t: Tree, e: Entry): Tree {
    if e.attempts >= MAX_ATTEMPTS then t
    else
      match e.op
      case Put(p, staging, cond) => Upload(env, t, p, File(staging, env.etag(e.seqNo)), cond)
      case Finish(p, staging, cond, session, whole) =>
        if env.gone(session) && !whole then t else Upload(env, t, p, File(staging, env.etag(e.seqNo)), cond)
      case MkDir(p) => if InFolder(t, p) && p !in t then t[p := Folder] else t
      case Unlink(p) => if p == [] then t else Without(t, p)
      case RmDir(p) => if p == [] then t else Without(t, p)
      case Rename(a, b, copy, cond) =>
        if a in t || copy == None then Move(env, t, a, b, cond)
        else Upload(env, t, b, File(copy.value, env.etag(e.seqNo)), cond)
  }

  /** It reached its own destination, so what is queued behind it on the version it replaced
      moves on with it. */
  predicate Landed(env: Env, t: Tree, e: Entry) {
    && e.attempts < MAX_ATTEMPTS
    && match e.op
       case Put(p, _, cond) => Matches(t, p, cond) && CanPut(t, p)
       case Finish(p, _, cond, session, whole) => !(env.gone(session) && !whole) && Matches(t, p, cond) && CanPut(t, p)
       case Rename(a, b, copy, cond) =>
         Matches(t, b, cond) && if a in t || copy == None then CanMove(t, a, b) else CanPut(t, b)
       case _ => false
  }

  function Advanced(env: Env, t: Tree, e: Entry, rest: seq<Entry>): seq<Entry> {
    if !Landed(env, t, e) then rest
    else
      match e.op
      case Rename(_, b, _, cond) => Rebased(rest, b, cond, None)
      case Put(p, _, cond) => Rebased(rest, p, cond, if env.told(e.seqNo) then Some(env.etag(e.seqNo)) else None)
      case Finish(p, _, cond, _, _) =>
        Rebased(rest, p, cond, if env.told(e.seqNo) then Some(env.etag(e.seqNo)) else None)
      case _ => rest
  }

  /** The server after the whole queue. */
  function Run(env: Env, t: Tree, q: seq<Entry>): Tree
    decreases |q|
  {
    if q == [] then t else Run(env, Exec(env, t, q[0]), Advanced(env, t, q[0], q[1..]))
  }

  // ── what each change does ────────────────────────────────────────────────

  /** There is a folder to put `p` in. */
  ghost predicate HasFolder(t: Tree, p: Path) {
    exists folder, name :: p == folder + [name] && folder in t && t[folder] == Folder
  }

  lemma InFolderMeans(t: Tree, p: Path)
    ensures InFolder(t, p) <==> HasFolder(t, p)
  {
    if p != [] {
      assert p == p[..|p| - 1] + [p[|p| - 1]];
    }
  }

  /** Where an upload goes: to its name, if it is unconditional or the file is there in the version
      asked for, and to the conflicted copy's otherwise. */
  ghost predicate GoesTo(env: Env, t: Tree, p: Path, cond: Option<string>, dest: Path) {
    if cond == None || (p in t && t[p].File? && t[p].version == cond.value) then dest == p
    else exists name :: dest == (if p == [] then [] else p[..|p| - 1]) + [name] && name == env.copyName(p)
  }

  /** An upload puts its bytes there as a new version, if there is a folder for it and no folder in
      its way, and changes nothing else; out of attempts, or with its session gone, it does nothing. */
  lemma UploadDoes(env: Env, t: Tree, e: Entry, dest: Path)
    requires e.op.Put? || e.op.Finish?
    requires GoesTo(env, t, e.op.path, e.op.ifMatch, dest)
    ensures
      var sent := e.attempts < MAX_ATTEMPTS && (e.op.Finish? && env.gone(e.op.session) ==> e.op.whole);
      Exec(env, t, e) ==
        if sent && HasFolder(t, dest) && !(dest in t && t[dest] == Folder) then
          t[dest := File(e.op.staging, env.etag(e.seqNo))]
        else t
  {
    InFolderMeans(t, dest);
  }

  /** A folder is made where there is one for it and nothing yet. */
  lemma MkDirDoes(env: Env, t: Tree, e: Entry)
    requires e.op.MkDir?
    ensures Exec(env, t, e) ==
              if e.attempts < MAX_ATTEMPTS && HasFolder(t, e.op.path) && e.op.path !in t then t[e.op.path := Folder]
              else t
  {
    InFolderMeans(t, e.op.path);
  }

  /** A delete takes away what is at or below its path, and nothing else. */
  lemma DeleteDoes(env: Env, t: Tree, e: Entry, q: Path)
    requires e.op.Unlink? || e.op.RmDir?
    ensures
      var gone := e.attempts < MAX_ATTEMPTS && e.op.path != [] && exists rest :: q == e.op.path + rest;
      && (q in Exec(env, t, e) <==> q in t && !gone)
      && (q in Exec(env, t, e) ==> Exec(env, t, e)[q] == t[q])
  {
    UnderMeans(q, e.op.path);
  }

  /** A move puts what is at or below its source at or below its destination, in the place of what
      was there, if the source is there, neither is below the other, and there is a folder for it. */
  lemma MoveDoes(env: Env, t: Tree, e: Entry, dest: Path, q: Path)
    requires e.op.Rename? && e.attempts < MAX_ATTEMPTS && e.op.from in t
    requires GoesTo(env, t, e.op.to, e.op.ifMatch, dest)
    ensures
      var a, r := e.op.from, Exec(env, t, e);
      if a <= dest || dest <= a || !HasFolder(t, dest) then r == t
      else if dest <= q then
        var was := a + q[|dest|..];
        (q in r <==> was in t) && (q in r ==> r[q] == t[was])
      else (q in r <==> q in t && !(a <= q)) && (q in r ==> r[q] == t[q])
  {
    MoveTakes(env, t, e, dest);
    MovedHas(t, e.op.from, dest, q);
  }

  lemma MovedHas(t: Tree, a: Path, b: Path, q: Path)
    ensures
      var r := Moved(t, a, b);
      if b <= q then (q in r <==> a + q[|b|..] in t) && (q in r ==> r[q] == t[a + q[|b|..]])
      else (q in r <==> q in t && !(a <= q)) && (q in r ==> r[q] == t[q])
  {
    MovedAt(t, a, b, q);
  }

  lemma MoveTakes(env: Env, t: Tree, e: Entry, dest: Path)
    requires e.op.Rename? && e.attempts < MAX_ATTEMPTS && e.op.from in t
    requires GoesTo(env, t, e.op.to, e.op.ifMatch, dest)
    ensures
      var a := e.op.from;
      Exec(env, t, e) == if a <= dest || dest <= a || !HasFolder(t, dest) then t else Moved(t, a, dest)
  {
    InFolderMeans(t, dest);
  }

  /** With its source gone a move uploads its local copy instead; without one, or out of attempts,
      it does nothing. */
  lemma LostMoveDoes(env: Env, t: Tree, e: Entry, dest: Path)
    requires e.op.Rename? && (e.attempts >= MAX_ATTEMPTS || e.op.from !in t)
    requires GoesTo(env, t, e.op.to, e.op.ifMatch, dest)
    ensures Exec(env, t, e) ==
              if e.attempts < MAX_ATTEMPTS && e.op.copy.Some? && HasFolder(t, dest) && !(dest in t && t[dest] == Folder)
              then t[dest := File(e.op.copy.value, env.etag(e.seqNo))]
              else t
  {
    InFolderMeans(t, dest);
  }

  /** A change that landed reached its own name: its bytes, or what was moved, is there. */
  lemma LandedReaches(env: Env, t: Tree, e: Entry)
    requires Landed(env, t, e)
    ensures e.op.Put? || e.op.Finish? ==>
              e.op.path in Exec(env, t, e) && Exec(env, t, e)[e.op.path] == File(e.op.staging, env.etag(e.seqNo))
    ensures e.op.Rename? ==>
              && e.op.to in Exec(env, t, e) && (e.op.from in t || e.op.copy.Some?)
              && Exec(env, t, e)[e.op.to] ==
                   if e.op.from in t then t[e.op.from] else File(e.op.copy.value, env.etag(e.seqNo))
    ensures e.op.Put? || e.op.Finish? || e.op.Rename?
  {
    if e.op.Rename? && e.op.from in t {
      assert Under(e.op.to, e.op.to) && e.op.from + e.op.to[|e.op.to|..] == e.op.from;
      MovedAt(t, e.op.from, e.op.to, e.op.to);
    }
  }

  /** One that did not left its own name as it was. */
  lemma NotLandedLeaves(env: Env, t: Tree, e: Entry)
    requires !Landed(env, t, e)
    ensures (e.op.Put? || e.op.Finish?) && CopyOf(env, e.op.path) != e.op.path ==>
              SameAt(Exec(env, t, e), t, e.op.path)
    ensures e.op.Rename? && !Under(e.op.to, CopyOf(env, e.op.to)) && !Under(e.op.to, e.op.from) ==>
              SameAt(Exec(env, t, e), t, e.op.to)
  {
    if e.op.Rename? && !Under(e.op.to, CopyOf(env, e.op.to)) && !Under(e.op.to, e.op.from) {
      MoveNotLanded(env, t, e);
    }
  }

  lemma MoveNotLanded(env: Env, t: Tree, e: Entry)
    requires !Landed(env, t, e) && e.op.Rename?
    requires !Under(e.op.to, CopyOf(env, e.op.to)) && !Under(e.op.to, e.op.from)
    ensures SameAt(Exec(env, t, e), t, e.op.to)
  {
    var to, dest := e.op.to, Target(env, t, e.op.to, e.op.ifMatch);
    if Matches(t, to, e.op.ifMatch) {
      assert Exec(env, t, e) == t;
    } else {
      MovedAt(t, e.op.from, dest, to);
      assert to != dest && !Under(to, dest);
    }
  }

  // ── trees stay trees ─────────────────────────────────────────────────────

  ghost predicate Closed(t: Tree) {
    && [] in t && t[[]].Folder?
    && forall p {:trigger InFolder(t, p)} :: p in t && p != [] ==> InFolder(t, p)
  }

  lemma {:induction false} AboveIsFolder(t: Tree, p: Path, above: Path)
    requires Closed(t) && p in t && above <= p && above != p
    ensures above in t && t[above].Folder?
    decreases |p|
  {
    assert InFolder(t, p);
    if above != Parent(p) {
      AboveIsFolder(t, Parent(p), above);
    }
  }

  lemma PlacedClosed(t: Tree, p: Path, node: Node)
    requires Closed(t) && CanPut(t, p)
    ensures Closed(t[p := node])
  {
    var w := t[p := node];
    forall q | q in w && q != [] ensures InFolder(w, q) {
      assert InFolder(t, q);
    }
  }

  lemma UploadClosed(env: Env, t: Tree, p: Path, file: Node, cond: Option<string>)
    requires Closed(t)
    ensures Closed(Upload(env, t, p, file, cond))
  {
    var dest := Target(env, t, p, cond);
    if CanPut(t, dest) {
      PlacedClosed(t, dest, file);
    }
  }

  lemma WithoutClosed(t: Tree, p: Path)
    requires Closed(t) && p != []
    ensures Closed(Without(t, p))
  {
    var w := Without(t, p);
    forall q | q in w && q != [] ensures InFolder(w, q) {
      assert InFolder(t, q);
    }
  }

  lemma MovedClosed(t: Tree, a: Path, b: Path)
    requires Closed(t) && CanMove(t, a, b) && a != []
    ensures Closed(Moved(t, a, b))
  {
    var m := Moved(t, a, b);
    MovedAt(t, a, b, []);
    forall q | q in m && q != [] ensures InFolder(m, q) {
      MovedAt(t, a, b, q);
      MovedAt(t, a, b, Parent(q));
      if Under(q, b) && q != b {
        var x := a + q[|b|..];
        assert InFolder(t, x);
        assert Parent(x) == a + Parent(q)[|b|..];
      } else if q == b {
        NotBelow(t, a, b);
      } else {
        assert InFolder(t, q);
      }
    }
  }

  /** The destination's folder is not itself moved or replaced. */
  lemma NotBelow(t: Tree, a: Path, b: Path)
    requires CanMove(t, a, b)
    ensures !Under(Parent(b), a) && !Under(Parent(b), b)
  {
    assert Under(b, Parent(b));
  }

  /** What `Moved` holds at `q`. */
  lemma MovedAt(t: Tree, a: Path, b: Path, q: Path)
    ensures Under(q, b) ==>
              && (q in Moved(t, a, b) <==> a + q[|b|..] in t)
              && (q in Moved(t, a, b) ==> Moved(t, a, b)[q] == t[a + q[|b|..]])
    ensures !Under(q, b) ==>
              && (q in Moved(t, a, b) <==> q in t && !Under(q, a))
              && (q in Moved(t, a, b) ==> Moved(t, a, b)[q] == t[q])
  {
    if Under(q, b) && a + q[|b|..] in t {
      var x := a + q[|b|..];
      assert Under(x, a) && b + x[|a|..] == q;
    }
  }

  lemma ExecClosed(env: Env, t: Tree, e: Entry)
    requires Closed(t)
    ensures Closed(Exec(env, t, e))
  {
    match e.op
    case Put(p, staging, cond) => UploadClosed(env, t, p, File(staging, env.etag(e.seqNo)), cond);
    case Finish(p, staging, cond, session, whole) => UploadClosed(env, t, p, File(staging, env.etag(e.seqNo)), cond);
    case MkDir(p) => if InFolder(t, p) && p !in t { PlacedClosed(t, p, Folder); }
    case Unlink(p) => if p != [] { WithoutClosed(t, p); }
    case RmDir(p) => if p != [] { WithoutClosed(t, p); }
    case Rename(a, b, copy, cond) =>
      if a in t || copy == None {
        var dest := Target(env, t, b, cond);
        if CanMove(t, a, dest) {
          assert Under(dest, []);
          MovedClosed(t, a, dest);
        }
      } else {
        UploadClosed(env, t, b, File(copy.value, env.etag(e.seqNo)), cond);
      }
  }

  // ── what a change leaves alone ───────────────────────────────────────────

  /** The change does not touch `p`, and its conflicted copy would not be `p` or a folder
      above it. */
  predicate Apart(env: Env, op: Op, p: Path) {
    && !Touches(op, p)
    && (IsUpload(op) ==> !Under(p, CopyOf(env, op.path)))
    && (op.Rename? ==> !Under(p, CopyOf(env, op.to)))
  }

  /** It has nothing to do with `p`: nor does it delete a folder above it. */
  predicate LeavesAlone(env: Env, op: Op, p: Path) {
    Apart(env, op, p) && (op.Unlink? ==> !Under(p, op.path))
  }

  /** A delete, of a file when it was queued, that takes a folder above `p` if it is one by now. */
  predicate DeletesAbove(e: Entry, p: Path) {
    e.op.Unlink? && e.op.path != [] && Under(p, e.op.path) && e.attempts < MAX_ATTEMPTS
  }

  predicate SameAt(s: Tree, t: Tree, p: Path) {
    (p in s <==> p in t) && (p in s ==> s[p] == t[p])
  }

  /** Nothing at or below `p`. */
  ghost predicate Vacant(t: Tree, p: Path) {
    forall q :: q in t ==> !Under(q, p)
  }

  lemma ExecLeaves(env: Env, t: Tree, e: Entry, p: Path)
    requires LeavesAlone(env, e.op, p)
    ensures SameAt(Exec(env, t, e), t, p)
  {
    if e.op.Rename? {
      MovedAt(t, e.op.from, Target(env, t, e.op.to, e.op.ifMatch), p);
    }
  }
}
