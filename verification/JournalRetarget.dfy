/** Re-pointing a queued upload at the name its file was renamed to, instead of queueing a
    MOVE behind it: the server ends up with the same tree. */
module JournalRetarget {
  import opened Options
  import opened Journal
  import opened JournalServer

  /** Nothing at `from` yet, and its folder is there. */
  ghost predicate Unborn(t: Tree, from: Path) {
    Closed(t) && Vacant(t, from) && InFolder(t, from)
  }

  // ── the file is in nobody's way ──────────────────────────────────────────

  /** Nothing can be put below a file that is not a folder. */
  lemma NothingBelow(t: Tree, p: Path, from: Path)
    requires Vacant(t, from) && InFolder(t, p) && p != from
    ensures !Under(p, from)
  {
    assert Under(p, from) ==> Under(Parent(p), from);
  }

  lemma FolderIgnores(t: Tree, p: Path, from: Path, f: Node)
    requires Vacant(t, from) && f.File?
    ensures InFolder(t[from := f], p) == InFolder(t, p)
  {
    assert Under(from, from);
  }

  lemma UploadKeepsUnborn(env: Env, t: Tree, p: Path, file: Node, cond: Option<string>, from: Path)
    requires Unborn(t, from) && file.File? && p != from && !Under(from, CopyOf(env, p))
    ensures Unborn(Upload(env, t, p, file, cond), from)
  {
    UploadClosed(env, t, p, file, cond);
    var dest := Target(env, t, p, cond);
    if CanPut(t, dest) {
      NothingBelow(t, dest, from);
    }
  }

  lemma UploadIgnores(env: Env, t: Tree, p: Path, file: Node, cond: Option<string>, from: Path, f: Node)
    requires Vacant(t, from) && f.File? && p != from && !Under(from, CopyOf(env, p))
    ensures Upload(env, t[from := f], p, file, cond) == Upload(env, t, p, file, cond)[from := f]
    ensures Matches(t[from := f], p, cond) == Matches(t, p, cond) && CanPut(t[from := f], p) == CanPut(t, p)
  {
    var dest, s := Target(env, t, p, cond), t[from := f];
    assert Under(from, from) && dest != from;
    PutIgnores(t, dest, from, f);
    PutIgnores(t, p, from, f);
    SwapPut(t, dest, file, from, f);
    assert Matches(s, p, cond) == Matches(t, p, cond);
    SameUpload(env, t, s, p, file, cond, dest);
  }

  lemma PutIgnores(t: Tree, p: Path, from: Path, f: Node)
    requires Vacant(t, from) && f.File? && p != from
    ensures CanPut(t[from := f], p) == CanPut(t, p)
  {
    FolderIgnores(t, p, from, f);
  }

  lemma SameUpload(env: Env, t: Tree, s: Tree, p: Path, file: Node, cond: Option<string>, dest: Path)
    requires Matches(s, p, cond) == Matches(t, p, cond) && dest == Target(env, t, p, cond)
        && CanPut(s, dest) == CanPut(t, dest)
    ensures Upload(env, t, p, file, cond) == if CanPut(t, dest) then t[dest := file] else t
    ensures Upload(env, s, p, file, cond) == if CanPut(t, dest) then s[dest := file] else s
  {
  }

  lemma SwapPut(t: Tree, p: Path, x: Node, q: Path, y: Node)
    requires p != q
    ensures t[q := y][p := x] == t[p := x][q := y]
  {
  }

  lemma WithoutKeepsUnborn(t: Tree, p: Path, from: Path, f: Node)
    requires Unborn(t, from) && !Under(from, p)
    ensures Unborn(Without(t, p), from)
    ensures Without(t[from := f], p) == Without(t, p)[from := f]
  {
    WithoutClosed(t, p);
    assert Under(from, Parent(from));
  }

  lemma MoveKeepsUnborn(t: Tree, a: Path, b: Path, from: Path)
    requires Unborn(t, from) && CanMove(t, a, b) && a != [] && !Under(from, a) && !Under(from, b)
    ensures Unborn(Moved(t, a, b), from)
  {
    var m := Moved(t, a, b);
    MovedClosed(t, a, b);
    NothingBelow(t, b, from);
    forall q | q in m ensures !Under(q, from) {
      MovedAt(t, a, b, q);
      assert Under(q, b) && Under(q, from) ==> Under(b, from) || Under(from, b);
    }
    assert Under(from, Parent(from));
    MovedAt(t, a, b, Parent(from));
  }

  lemma MoveIgnores(t: Tree, a: Path, b: Path, from: Path, f: Node)
    requires Vacant(t, from) && !Under(from, a) && !Under(from, b)
    ensures Moved(t[from := f], a, b) == Moved(t, a, b)[from := f]
  {
    var s := t[from := f];
    var left, right := Moved(s, a, b), Moved(t, a, b)[from := f];
    forall q: Path ensures q in left <==> q in right
                 ensures q in left ==> left[q] == right[q] {
      MovedAt(s, a, b, q);
      MovedAt(t, a, b, q);
      if Under(q, b) {
        assert Under(a + q[|b|..], a);
      }
    }
  }

  /** A change that has nothing to do with `from` does the same whether the file is there or
      not. */
  lemma ExecIgnores(env: Env, t: Tree, e: Entry, from: Path, f: Node)
    requires Unborn(t, from) && f.File? && LeavesAlone(env, e.op, from)
    ensures Unborn(Exec(env, t, e), from)
    ensures Exec(env, t[from := f], e) == Exec(env, t, e)[from := f]
    ensures Landed(env, t[from := f], e) == Landed(env, t, e)
  {
    if IsUpload(e.op) {
      var file := File(e.op.staging, env.etag(e.seqNo));
      UploadKeepsUnborn(env, t, e.op.path, file, e.op.ifMatch, from);
      UploadIgnores(env, t, e.op.path, file, e.op.ifMatch, from, f);
    } else if e.op.Rename? {
      RenameIgnores(env, t, e, from, f);
    } else if e.op.MkDir? {
      MkDirIgnores(t, e.op.path, from, f);
      ExecClosed(env, t, e);
    } else if e.op.path != [] {
      WithoutKeepsUnborn(t, e.op.path, from, f);
    }
  }

  lemma MkDirIgnores(t: Tree, p: Path, from: Path, f: Node)
    requires Unborn(t, from) && f.File? && !Under(from, p)
    ensures InFolder(t, p) ==> !Under(p, from)
    ensures InFolder(t[from := f], p) == InFolder(t, p)
  {
    FolderIgnores(t, p, from, f);
    if InFolder(t, p) {
      NothingBelow(t, p, from);
    }
  }

  lemma RenameIgnores(env: Env, t: Tree, e: Entry, from: Path, f: Node)
    requires Unborn(t, from) && f.File? && LeavesAlone(env, e.op, from) && e.op.Rename?
    ensures Unborn(Exec(env, t, e), from)
    ensures Exec(env, t[from := f], e) == Exec(env, t, e)[from := f]
    ensures Landed(env, t[from := f], e) == Landed(env, t, e)
  {
    var a, b, cond := e.op.from, e.op.to, e.op.ifMatch;
    FolderIgnores(t, b, from, f);
    if a in t || e.op.copy == None {
      MoveStepIgnores(env, t, a, b, cond, from, f);
    } else {
      var file := File(e.op.copy.value, env.etag(e.seqNo));
      UploadKeepsUnborn(env, t, b, file, cond, from);
      UploadIgnores(env, t, b, file, cond, from, f);
    }
  }

  lemma MoveStepIgnores(env: Env, t: Tree, a: Path, b: Path, cond: Option<string>, from: Path, f: Node)
    requires Unborn(t, from) && f.File? && !Under(from, a) && !Under(from, b) && !Under(from, CopyOf(env, b))
    ensures Unborn(Move(env, t, a, b, cond), from)
    ensures Move(env, t[from := f], a, b, cond) == Move(env, t, a, b, cond)[from := f]
  {
    var dest := Target(env, t, b, cond);
    assert dest == Target(env, t[from := f], b, cond);
    FolderIgnores(t, dest, from, f);
    if CanMove(t, a, dest) {
      assert Under(dest, []);
      MoveKeepsUnborn(t, a, dest, from);
      MoveIgnores(t, a, dest, from, f);
    }
  }

  /** The entry leaves `from` alone at its turn. */
  predicate Spares(env: Env, e: Entry, from: Path) {
    Apart(env, e.op, from) && !DeletesAbove(e, from)
  }

  lemma EntryIgnores(env: Env, t: Tree, e: Entry, from: Path, f: Node)
    requires Unborn(t, from) && f.File? && Spares(env, e, from)
    ensures Unborn(Exec(env, t, e), from)
    ensures Exec(env, t[from := f], e) == Exec(env, t, e)[from := f]
    ensures Landed(env, t[from := f], e) == Landed(env, t, e)
  {
    if LeavesAlone(env, e.op, from) {
      ExecIgnores(env, t, e, from, f);
    }
  }

  // ── a folder above the file is deleted ───────────────────────────────────

  /** Nothing at `from`, and no folder for it either. */
  ghost predicate Barren(t: Tree, from: Path) {
    Vacant(t, from) && !InFolder(t, from)
  }

  lemma DeleteTakesAll(env: Env, t: Tree, e: Entry, from: Path, f: Node)
    requires Unborn(t, from) && Apart(env, e.op, from) && DeletesAbove(e, from)
    ensures Barren(Exec(env, t, e), from) && Exec(env, t[from := f], e) == Exec(env, t, e)
  {
    assert e.op.path <= Parent(from);
  }

  lemma UploadStaysBarren(env: Env, t: Tree, p: Path, file: Node, cond: Option<string>, from: Path)
    requires Barren(t, from) && file.File? && p != from && !Under(from, CopyOf(env, p))
    ensures Barren(Upload(env, t, p, file, cond), from)
  {
    var dest := Target(env, t, p, cond);
    assert Under(from, from) && dest != from;
    if CanPut(t, dest) {
      NothingBelow(t, dest, from);
    }
  }

  lemma MoveStaysBarren(env: Env, t: Tree, a: Path, b: Path, cond: Option<string>, from: Path)
    requires Barren(t, from) && !Under(from, a) && !Under(from, b) && !Under(from, CopyOf(env, b))
    ensures Barren(Move(env, t, a, b, cond), from)
  {
    var dest := Target(env, t, b, cond);
    if CanMove(t, a, dest) {
      var m := Moved(t, a, dest);
      assert Under(from, from) && dest != from;
      NothingBelow(t, dest, from);
      forall q | q in m ensures !Under(q, from) {
        MovedAt(t, a, dest, q);
        assert Under(q, dest) && Under(q, from) ==> Under(dest, from) || Under(from, dest);
      }
      assert from != [] ==> Under(from, Parent(from));
      MovedAt(t, a, dest, Parent(from));
    }
  }

  lemma StaysBarren(env: Env, t: Tree, e: Entry, from: Path)
    requires Barren(t, from) && Apart(env, e.op, from)
    ensures Barren(Exec(env, t, e), from)
  {
    match e.op
    case Put(p, staging, cond) => UploadStaysBarren(env, t, p, File(staging, env.etag(e.seqNo)), cond, from);
    case Finish(p, staging, cond, _, _) => UploadStaysBarren(env, t, p, File(staging, env.etag(e.seqNo)), cond, from);
    case MkDir(p) =>
      assert from != [] ==> Under(from, Parent(from));
      if InFolder(t, p) {
        assert Under(from, from);
        NothingBelow(t, p, from);
      }
    case Unlink(_) =>
    case RmDir(_) =>
    case Rename(a, b, copy, cond) =>
      if a in t || copy == None {
        MoveStaysBarren(env, t, a, b, cond, from);
      } else {
        UploadStaysBarren(env, t, b, File(copy.value, env.etag(e.seqNo)), cond, from);
      }
  }

  /** Nothing at `from`, with or without a folder for it. */
  ghost predicate Absent(t: Tree, from: Path) {
    Unborn(t, from) || Barren(t, from)
  }

  lemma StaysAbsent(env: Env, t: Tree, e: Entry, from: Path)
    requires Absent(t, from) && Apart(env, e.op, from)
    ensures Absent(Exec(env, t, e), from)
    ensures Barren(t, from) || DeletesAbove(e, from) ==> Barren(Exec(env, t, e), from)
    ensures Unborn(t, from) && !DeletesAbove(e, from) ==> Unborn(Exec(env, t, e), from)
  {
    if Barren(t, from) {
      StaysBarren(env, t, e, from);
    } else if DeletesAbove(e, from) {
      DeleteTakesAll(env, t, e, from, Folder);
    } else {
      EntryIgnores(env, t, e, from, File(0, ""));
    }
  }

  // ── the two queues ───────────────────────────────────────────────────────

  /** The tree when `last`, queued behind `rest`, gets its turn, and what it is by then. */
  function Turn(env: Env, t: Tree, rest: seq<Entry>, last: Entry): (Tree, Entry)
    decreases |rest|
  {
    if rest == [] then (t, last)
    else Turn(env, Exec(env, t, rest[0]), Advanced(env, t, rest[0], rest[1..]), Advanced(env, t, rest[0], [last])[0])
  }

  /** The upload finds a folder to land in and no folder in its way. */
  predicate Lands(env: Env, t: Tree, e: Entry)
    requires IsUpload(e.op)
  {
    CanPut(t, Target(env, t, e.op.path, e.op.ifMatch))
  }

  /** `up` uploads to `from`; `moved` is the same upload at `to`; `mv` is the MOVE. */
  ghost predicate Alike(up: Entry, moved: Entry, mv: Entry, from: Path) {
    && up.op.Put? && up.op.path == from && up.op.ifMatch == None
    && moved.op.Put? && moved.op.staging == up.op.staging && moved.seqNo == up.seqNo && moved.attempts == up.attempts
    && mv.op == Rename(from, moved.op.path, None, moved.op.ifMatch) && mv.attempts == 0
  }

  ghost predicate AllLeaveAlone(env: Env, q: seq<Entry>, from: Path) {
    forall k :: 0 <= k < |q| ==> LeavesAlone(env, q[k].op, from)
  }

  ghost predicate AllApart(env: Env, q: seq<Entry>, from: Path) {
    forall k :: 0 <= k < |q| ==> Apart(env, q[k].op, from)
  }

  ghost predicate SomeDelete(q: seq<Entry>, from: Path) {
    exists k :: 0 <= k < |q| && DeletesAbove(q[k], from)
  }

  ghost predicate AllSpare(env: Env, q: seq<Entry>, from: Path) {
    AllApart(env, q, from) && !SomeDelete(q, from)
  }

  lemma AdvancedApart(env: Env, t: Tree, e: Entry, q: seq<Entry>, from: Path)
    requires AllApart(env, q, from)
    ensures AllApart(env, Advanced(env, t, e, q), from)
        && SomeDelete(Advanced(env, t, e, q), from) == SomeDelete(q, from)
  {
    var r := Advanced(env, t, e, q);
    assert |r| == |q| && forall k :: 0 <= k < |q| ==> DeletesAbove(r[k], from) == DeletesAbove(q[k], from);
  }

  lemma AdvancedAppend(env: Env, t: Tree, e: Entry, a: seq<Entry>, b: seq<Entry>)
    ensures Advanced(env, t, e, a + b) == Advanced(env, t, e, a) + Advanced(env, t, e, b)
    ensures |Advanced(env, t, e, a)| == |a|
  {
  }

  lemma AdvancedKeeps(env: Env, t: Tree, e: Entry, q: seq<Entry>, from: Path)
    requires AllLeaveAlone(env, q, from)
    ensures AllLeaveAlone(env, Advanced(env, t, e, q), from)
  {
  }

  /** Rebasing treats the re-pointed upload and the MOVE alike, and leaves the upload of a
      file the server has never seen alone. */
  lemma AdvancedAlike(env: Env, t: Tree, e: Entry, up: Entry, moved: Entry, mv: Entry, from: Path)
    requires Alike(up, moved, mv, from)
    ensures Advanced(env, t, e, [up]) == [up]
    ensures Alike(up, Advanced(env, t, e, [moved])[0], Advanced(env, t, e, [mv])[0], from)
    ensures Advanced(env, t, e, [moved])[0].op.path == moved.op.path
  {
    if Landed(env, t, e) {
      var now := if env.told(e.seqNo) then Some(env.etag(e.seqNo)) else None;
      match e.op
      case Rename(_, b, _, cond) => RebasedAlike(b, cond, None, up, moved, mv, from);
      case Put(p, _, cond) => RebasedAlike(p, cond, now, up, moved, mv, from);
      case Finish(p, _, cond, _, _) => RebasedAlike(p, cond, now, up, moved, mv, from);
    }
  }

  lemma RebasedAlike(p: Path, sent: Option<string>, now: Option<string>, up: Entry, moved: Entry, mv: Entry, from: Path)
    requires Alike(up, moved, mv, from)
    ensures Rebased([up], p, sent, now) == [up]
    ensures Rebased([moved], p, sent, now) == [moved.(op := RebasedOp(moved.op, p, sent, now))]
    ensures Rebased([mv], p, sent, now) == [mv.(op := RebasedOp(mv.op, p, sent, now))]
    ensures Alike(up, moved.(op := RebasedOp(moved.op, p, sent, now)), mv.(op := RebasedOp(mv.op, p, sent, now)), from)
    ensures RebasedOp(moved.op, p, sent, now).path == moved.op.path
  {
  }

  /** The MOVE at the end, with its source the only thing at `from`, leaves what the upload to
      `to` would have, exactly when that upload lands. */
  lemma MoveOne(env: Env, t: Tree, from: Path, to: Path, cond: Option<string>, f: Node)
    requires Unborn(t, from) && f.File? && to != from && !Under(from, CopyOf(env, to))
    ensures
      Move(env, t[from := f], from, to, cond) == Upload(env, t, to, f, cond) <==> CanPut(t, Target(env, t, to, cond))
  {
    var s, dest := t[from := f], Target(env, t, to, cond);
    assert Target(env, s, to, cond) == dest;
    FolderIgnores(t, dest, from, f);
    assert Under(from, from);
    if InFolder(t, dest) {
      NothingBelow(t, dest, from);
      if Under(from, dest) {
        FolderAbove(t, from, dest);
      } else {
        MovedOne(t, from, dest, f);
      }
    }
  }

  lemma FolderAbove(t: Tree, from: Path, dest: Path)
    requires Unborn(t, from) && Under(from, dest) && dest != from
    ensures dest in t && t[dest].Folder?
  {
    assert dest <= Parent(from);
    if dest != Parent(from) {
      AboveIsFolder(t, Parent(from), dest);
    }
  }

  lemma MovedOne(t: Tree, from: Path, dest: Path, f: Node)
    requires Unborn(t, from) && f.File? && InFolder(t, dest) && !Under(dest, from) && !Under(from, dest)
    ensures
      var m := Moved(t[from := f], from, dest);
      dest in m && m[dest] == f && (CanPut(t, dest) ==> m == t[dest := f])
  {
    var s := t[from := f];
    var m := Moved(s, from, dest);
    MovedAt(s, from, dest, dest);
    assert from + dest[|dest|..] == from;
    if CanPut(t, dest) {
      var u := t[dest := f];
      forall q: Path ensures q in m <==> q in u
                     ensures q in m ==> m[q] == u[q] {
        MovedAt(s, from, dest, q);
        if Under(q, dest) && q != dest {
          OnlyFolderHolds(t, q, dest);
          assert Under(from + q[|dest|..], from);
        }
      }
    }
  }

  lemma OnlyFolderHolds(t: Tree, q: Path, dest: Path)
    requires Closed(t) && !(dest in t && t[dest].Folder?) && Under(q, dest) && q != dest
    ensures q !in t
  {
    if q in t {
      AboveIsFolder(t, q, dest);
    }
  }

  // ── the refinement ───────────────────────────────────────────────────────

  /** Behind the upload: the rest of the queue, then the MOVE or the re-pointed upload. */
  lemma {:induction false} BehindUpload(
      env: Env, t: Tree, f: Node, rest: seq<Entry>, up: Entry, moved: Entry, mv: Entry, from: Path)
    requires Alike(up, moved, mv, from) && moved.op.path != from && !Under(from, CopyOf(env, moved.op.path))
    requires Unborn(t, from) && f == File(up.op.staging, env.etag(up.seqNo)) && up.attempts < MAX_ATTEMPTS
    requires AllSpare(env, rest, from)
    ensures
      var s := Turn(env, t, rest, moved);
      s.1.op.Put? && (Run(env, t[from := f], rest + [mv]) == Run(env, t, rest + [moved]) <==> Lands(env, s.0, s.1))
    decreases |rest|
  {
    if rest == [] {
      assert rest + [mv] == [mv] && rest + [moved] == [moved];
      assert Advanced(env, t[from := f], mv, []) == [] && Advanced(env, t, moved, []) == [];
      assert from in t[from := f];
      MoveOne(env, t, from, moved.op.path, moved.op.ifMatch, f);
    } else {
      var e, rest1, s := rest[0], rest[1..], t[from := f];
      EntryIgnores(env, t, e, from, f);
      AdvancedApart(env, t, e, rest1, from);
      AdvancedAlike(env, t, e, up, moved, mv, from);
      var r, moved', mv' := Advanced(env, t, e, rest1), Advanced(env, t, e, [moved])[0], Advanced(env, t, e, [mv])[0];
      BehindStep(env, t, s, rest, moved, mv, r, moved', mv');
      BehindUpload(env, Exec(env, t, e), f, r, up, moved', mv', from);
    }
  }

  lemma BehindStep(
      env: Env, t: Tree, s: Tree, rest: seq<Entry>, moved: Entry, mv: Entry, r: seq<Entry>, moved': Entry, mv': Entry)
    requires rest != [] && Landed(env, s, rest[0]) == Landed(env, t, rest[0])
    requires r == Advanced(env, t, rest[0], rest[1..])
    requires Advanced(env, t, rest[0], [moved]) == [moved'] && Advanced(env, t, rest[0], [mv]) == [mv']
    ensures |r| == |rest| - 1
    ensures Run(env, s, rest + [mv]) == Run(env, Exec(env, s, rest[0]), r + [mv'])
    ensures Run(env, t, rest + [moved]) == Run(env, Exec(env, t, rest[0]), r + [moved'])
    ensures Turn(env, t, rest, moved) == Turn(env, Exec(env, t, rest[0]), r, moved')
  {
    var e := rest[0];
    AdvancedSame(env, t, s, e, rest[1..] + [mv]);
    AdvancedAppend(env, t, e, rest[1..], [mv]);
    AdvancedAppend(env, t, e, rest[1..], [moved]);
    TailOf(rest, [mv]);
    TailOf(rest, [moved]);
    RunStep(env, s, rest + [mv], rest[1..] + [mv], r + [mv']);
    RunStep(env, t, rest + [moved], rest[1..] + [moved], r + [moved']);
    TurnStep(env, t, rest, rest[1..], r, moved, moved');
  }

  lemma AdvancedSame(env: Env, t: Tree, s: Tree, e: Entry, q: seq<Entry>)
    requires Landed(env, t, e) == Landed(env, s, e)
    ensures Advanced(env, t, e, q) == Advanced(env, s, e, q)
  {
  }

  /** An upload out of attempts is dropped under either name, and the MOVE finds no source. */
  lemma {:induction false} BothDropped(
      env: Env, t: Tree, rest: seq<Entry>, up: Entry, moved: Entry, mv: Entry, from: Path)
    requires Alike(up, moved, mv, from) && up.attempts >= MAX_ATTEMPTS
    requires Unborn(t, from) && AllSpare(env, rest, from)
    ensures Turn(env, t, rest, moved).1.op.Put? && Run(env, t, rest + [mv]) == Run(env, t, rest + [moved])
    decreases |rest|
  {
    if rest == [] {
      assert rest + [mv] == [mv] && rest + [moved] == [moved];
      assert Advanced(env, t, mv, []) == [] && Advanced(env, t, moved, []) == [];
      assert Under(from, from);
    } else {
      var e := rest[0];
      EntryIgnores(env, t, e, from, File(0, ""));
      AdvancedAppend(env, t, e, rest[1..], [mv]);
      AdvancedAppend(env, t, e, rest[1..], [moved]);
      AdvancedApart(env, t, e, rest[1..], from);
      AdvancedAlike(env, t, e, up, moved, mv, from);
      assert (rest + [mv])[1..] == rest[1..] + [mv] && (rest + [moved])[1..] == rest[1..] + [moved];
      var r, moved', mv' := Advanced(env, t, e, rest[1..]), Advanced(env, t, e, [moved])[0],
          Advanced(env, t, e, [mv])[0];
      assert Advanced(env, t, e, [moved]) == [moved'] && Advanced(env, t, e, [mv]) == [mv'];
      BothDropped(env, Exec(env, t, e), r, up, moved', mv', from);
    }
  }

  /** The upload's own turn. */
  lemma UploadTurn(env: Env, t: Tree, up: Entry, from: Path, rest: seq<Entry>)
    requires Unborn(t, from) && up.op.Put? && up.op.path == from && up.op.ifMatch == None
    ensures Exec(env, t, up) == if up.attempts >= MAX_ATTEMPTS then t
        else t[from := File(up.op.staging, env.etag(up.seqNo))]
    ensures Advanced(env, t, up, rest) == rest
  {
    assert Under(from, from);
  }

  /** The queue with the upload re-pointed and the queue with the MOVE give the same tree
      exactly when the re-pointed upload lands at its turn. */
  ghost predicate Refines(env: Env, t: Tree, a: seq<Entry>, up: Entry, b: seq<Entry>, moved: Entry, mv: Entry) {
    var s := Turn(env, t, a + b, moved);
    && s.1.op.Put?
    && (Run(env, t, a + ([up] + b + [mv])) == Run(env, t, a + b + [moved]) <==>
          up.attempts >= MAX_ATTEMPTS || Lands(env, s.0, s.1))
  }

  lemma {:induction false} AroundUpload(
      env: Env, t: Tree, a: seq<Entry>, up: Entry, b: seq<Entry>, moved: Entry, mv: Entry, from: Path)
    requires Alike(up, moved, mv, from) && moved.op.path != from && !Under(from, CopyOf(env, moved.op.path))
    requires Unborn(t, from) && AllSpare(env, a, from) && AllSpare(env, b, from)
    ensures Refines(env, t, a, up, b, moved, mv)
    decreases |a|
  {
    if a == [] {
      FirstIsUpload(a, up, b, mv);
      UploadTurn(env, t, up, from, b + [mv]);
      RunStep(env, t, [up] + b + [mv], b + [mv], b + [mv]);
      if up.attempts >= MAX_ATTEMPTS {
        BothDropped(env, t, b, up, moved, mv, from);
      } else {
        BehindUpload(env, t, File(up.op.staging, env.etag(up.seqNo)), b, up, moved, mv, from);
      }
    } else {
      AheadOfUpload(env, t, a, up, b, moved, mv, from);
    }
  }

  lemma FirstIsUpload(a: seq<Entry>, up: Entry, b: seq<Entry>, mv: Entry)
    requires a == []
    ensures a + b == b && a + ([up] + b + [mv]) == [up] + b + [mv]
    ensures ([up] + b + [mv])[0] == up && ([up] + b + [mv])[1..] == b + [mv]
  {
  }

  /** One change ahead of the upload: both queues do it and go on alike. */
  lemma AheadOfUpload(
      env: Env, t: Tree, a: seq<Entry>, up: Entry, b: seq<Entry>, moved: Entry, mv: Entry, from: Path)
    requires Alike(up, moved, mv, from) && moved.op.path != from && !Under(from, CopyOf(env, moved.op.path))
    requires Unborn(t, from) && AllSpare(env, a, from) && AllSpare(env, b, from) && a != []
    ensures Refines(env, t, a, up, b, moved, mv)
    decreases |a|, 0
  {
    var e, a1 := a[0], a[1..];
    EntryIgnores(env, t, e, from, File(0, ""));
    AdvancedApart(env, t, e, a1, from);
    AdvancedApart(env, t, e, b, from);
    AdvancedAlike(env, t, e, up, moved, mv, from);
    var t', a', b' := Exec(env, t, e), Advanced(env, t, e, a1), Advanced(env, t, e, b);
    var moved', mv' := Advanced(env, t, e, [moved])[0], Advanced(env, t, e, [mv])[0];
    QueuesStep(env, t, a, up, b, moved, mv, a', b', moved', mv');
    AroundUpload(env, t', a', up, b', moved', mv', from);
    SameRefines(env, t, a, b, moved, mv, t', a', b', moved', mv', up);
  }

  lemma QueuesStep(
      env: Env, t: Tree, a: seq<Entry>, up: Entry, b: seq<Entry>, moved: Entry, mv: Entry,
      a': seq<Entry>, b': seq<Entry>, moved': Entry, mv': Entry)
    requires a != [] && Advanced(env, t, a[0], [up]) == [up]
    requires a' == Advanced(env, t, a[0], a[1..]) && b' == Advanced(env, t, a[0], b)
    requires [moved'] == Advanced(env, t, a[0], [moved]) && [mv'] == Advanced(env, t, a[0], [mv])
    ensures |a'| == |a| - 1
    ensures
      var t' := Exec(env, t, a[0]);
      && Run(env, t, a + ([up] + b + [mv])) == Run(env, t', a' + ([up] + b' + [mv']))
      && Run(env, t, a + b + [moved]) == Run(env, t', a' + b' + [moved'])
      && Turn(env, t, a + b, moved) == Turn(env, t', a' + b', moved')
  {
    AdvancedQueues(env, t, a[0], a[1..], up, b, moved, mv);
    TailOf(a, [up] + b + [mv]);
    TailOf(a, b);
    TailOf(a + b, [moved]);
    RunStep(env, t, a + ([up] + b + [mv]), a[1..] + ([up] + b + [mv]), a' + ([up] + b' + [mv']));
    RunStep(env, t, a + b + [moved], a[1..] + b + [moved], a' + b' + [moved']);
    TurnStep(env, t, a + b, a[1..] + b, a' + b', moved, moved');
  }

  lemma SameRefines(
      env: Env, t: Tree, a: seq<Entry>, b: seq<Entry>, moved: Entry, mv: Entry,
      t': Tree, a': seq<Entry>, b': seq<Entry>, moved': Entry, mv': Entry, up: Entry)
    requires Run(env, t, a + ([up] + b + [mv])) == Run(env, t', a' + ([up] + b' + [mv']))
    requires Run(env, t, a + b + [moved]) == Run(env, t', a' + b' + [moved'])
    requires Turn(env, t, a + b, moved) == Turn(env, t', a' + b', moved')
    requires Refines(env, t', a', up, b', moved', mv')
    ensures Refines(env, t, a, up, b, moved, mv)
  {
  }

  lemma TailOf(a: seq<Entry>, b: seq<Entry>)
    requires a != []
    ensures (a + b)[0] == a[0] && (a + b)[1..] == a[1..] + b
  {
  }

  lemma RunStep(env: Env, t: Tree, q: seq<Entry>, rest: seq<Entry>, rest': seq<Entry>)
    requires q != [] && q[1..] == rest && Advanced(env, t, q[0], rest) == rest'
    ensures Run(env, t, q) == Run(env, Exec(env, t, q[0]), rest')
  {
  }

  lemma TurnStep(env: Env, t: Tree, q: seq<Entry>, rest: seq<Entry>, rest': seq<Entry>, last: Entry, last': Entry)
    requires q != [] && q[1..] == rest && Advanced(env, t, q[0], rest) == rest'
        && Advanced(env, t, q[0], [last]) == [last']
    ensures Turn(env, t, q, last) == Turn(env, Exec(env, t, q[0]), rest', last')
  {
  }

  lemma AdvancedQueues(env: Env, t: Tree, e: Entry, a: seq<Entry>, up: Entry, b: seq<Entry>, moved: Entry, mv: Entry)
    requires Advanced(env, t, e, [up]) == [up]
    ensures
      var a', b' := Advanced(env, t, e, a), Advanced(env, t, e, b);
      var moved', mv' := Advanced(env, t, e, [moved]), Advanced(env, t, e, [mv]);
      && |a'| == |a| && |moved'| == 1 && |mv'| == 1
      && Advanced(env, t, e, a + ([up] + b + [mv])) == a' + ([up] + b' + [mv'[0]])
      && Advanced(env, t, e, a + b + [moved]) == a' + b' + [moved'[0]]
      && Advanced(env, t, e, a + b) == a' + b'
  {
    AdvancedAppend(env, t, e, a, [up] + b + [mv]);
    AdvancedAppend(env, t, e, [up] + b, [mv]);
    AdvancedAppend(env, t, e, [up], b);
    AdvancedAppend(env, t, e, a + b, [moved]);
    AdvancedAppend(env, t, e, a, b);
  }

  lemma Parted(q: seq<Entry>, i: nat, mv: Entry)
    requires i < |q|
    ensures q + [mv] == q[..i] + ([q[i]] + q[i + 1..] + [mv])
  {
  }

  lemma OthersApart(env: Env, q: seq<Entry>, i: nat, from: Path)
    requires MayRetarget(q, i, from) && CopiesElsewhere(env, q, i, from)
    ensures AllApart(env, q[..i], from) && AllApart(env, q[i + 1..], from)
    ensures SomeDelete(q[..i] + q[i + 1..], from) == (SomeDelete(q[..i], from) || SomeDelete(q[i + 1..], from))
  {
    var a, b := q[..i], q[i + 1..];
    forall k | 0 <= k < |b| ensures Apart(env, b[k].op, from) {
      assert b[k] == q[k + i + 1];
    }
    SomeDeleteAppend(a, b, from);
  }

  lemma SomeDeleteAppend(a: seq<Entry>, b: seq<Entry>, from: Path)
    ensures SomeDelete(a + b, from) == (SomeDelete(a, from) || SomeDelete(b, from))
  {
    var q := a + b;
    if SomeDelete(a, from) {
      var k :| 0 <= k < |a| && DeletesAbove(a[k], from);
      assert DeletesAbove(q[k], from);
    }
    if SomeDelete(b, from) {
      var k :| 0 <= k < |b| && DeletesAbove(b[k], from);
      assert DeletesAbove(q[|a| + k], from);
    }
  }

  /** No other queued change would leave a conflicted copy named `from`, or like a folder above. */
  ghost predicate CopiesElsewhere(env: Env, q: seq<Entry>, i: nat, from: Path) {
    forall k :: 0 <= k < |q| && k != i ==>
      && (IsUpload(q[k].op) ==> !Under(from, CopyOf(env, q[k].op.path)))
      && (q[k].op.Rename? ==> !Under(from, CopyOf(env, q[k].op.to)))
  }

  // ── with a delete above ──────────────────────────────────────────────────

  /** With nothing at `from`, the MOVE does nothing; the re-pointed upload does what it does. */
  lemma {:induction false} NothingToMove(env: Env, t: Tree, rest: seq<Entry>, up: Entry, moved: Entry, mv: Entry,
      from: Path)
    requires Alike(up, moved, mv, from) && Absent(t, from) && AllApart(env, rest, from)
    ensures
      var s := Turn(env, t, rest, moved);
      s.1.op.Put? && Run(env, t, rest + [mv]) == s.0 && Run(env, t, rest + [moved]) == Exec(env, s.0, s.1)
    decreases |rest|
  {
    if rest == [] {
      assert rest + [mv] == [mv] && rest + [moved] == [moved];
      assert Advanced(env, t, mv, []) == [] && Advanced(env, t, moved, []) == [];
      assert Under(from, from);
    } else {
      var e, rest1 := rest[0], rest[1..];
      StaysAbsent(env, t, e, from);
      AdvancedApart(env, t, e, rest1, from);
      AdvancedAlike(env, t, e, up, moved, mv, from);
      var r, moved', mv' := Advanced(env, t, e, rest1), Advanced(env, t, e, [moved])[0], Advanced(env, t, e, [mv])[0];
      BehindStep(env, t, t, rest, moved, mv, r, moved', mv');
      NothingToMove(env, Exec(env, t, e), r, up, moved', mv', from);
    }
  }

  /** The upload landed, and a delete queued behind it takes it away again. */
  lemma {:induction false} DeletedBehindUpload(
      env: Env, t: Tree, f: Node, rest: seq<Entry>, up: Entry, moved: Entry, mv: Entry, from: Path)
    requires Alike(up, moved, mv, from) && Unborn(t, from) && f.File? && AllApart(env, rest, from)
        && SomeDelete(rest, from)
    ensures
      var s := Turn(env, t, rest, moved);
      s.1.op.Put? && Run(env, t[from := f], rest + [mv]) == s.0 && Run(env, t, rest + [moved]) == Exec(env, s.0, s.1)
    decreases |rest|
  {
    var e, rest1, s := rest[0], rest[1..], t[from := f];
    assert rest == [e] + rest1;
    SomeDeleteAppend([e], rest1, from);
    AdvancedApart(env, t, e, rest1, from);
    AdvancedAlike(env, t, e, up, moved, mv, from);
    var r, moved', mv' := Advanced(env, t, e, rest1), Advanced(env, t, e, [moved])[0], Advanced(env, t, e, [mv])[0];
    if DeletesAbove(e, from) {
      DeleteTakesAll(env, t, e, from, f);
      BehindStep(env, t, s, rest, moved, mv, r, moved', mv');
      NothingToMove(env, Exec(env, t, e), r, up, moved', mv', from);
    } else {
      EntryIgnores(env, t, e, from, f);
      BehindStep(env, t, s, rest, moved, mv, r, moved', mv');
      DeletedBehindUpload(env, Exec(env, t, e), f, r, up, moved', mv', from);
    }
  }

  /** With a delete above, the old queue leaves what the rest of it does, and the new one that
      and the re-pointed upload. */
  ghost predicate Separates(env: Env, t: Tree, a: seq<Entry>, up: Entry, b: seq<Entry>, moved: Entry, mv: Entry) {
    var s := Turn(env, t, a + b, moved);
    s.1.op.Put? && Run(env, t, a + ([up] + b + [mv])) == s.0 && Run(env, t, a + b + [moved]) == Exec(env, s.0, s.1)
  }

  lemma {:induction false} DeletedAround(
      env: Env, t: Tree, a: seq<Entry>, up: Entry, b: seq<Entry>, moved: Entry, mv: Entry, from: Path)
    requires Alike(up, moved, mv, from) && AllApart(env, a, from) && AllApart(env, b, from)
    requires Barren(t, from) || (Unborn(t, from) && (SomeDelete(a, from) || SomeDelete(b, from)))
    ensures Separates(env, t, a, up, b, moved, mv)
    decreases |a|
  {
    if a == [] {
      FirstIsUpload(a, up, b, mv);
      UploadOnce(env, t, up, from, b + [mv]);
      RunStep(env, t, [up] + b + [mv], b + [mv], b + [mv]);
      if Barren(t, from) || up.attempts >= MAX_ATTEMPTS {
        NothingToMove(env, t, b, up, moved, mv, from);
      } else {
        DeletedBehindUpload(env, t, File(up.op.staging, env.etag(up.seqNo)), b, up, moved, mv, from);
      }
    } else {
      DeletedAhead(env, t, a, up, b, moved, mv, from);
    }
  }

  /** The upload's turn: it lands if there is a folder for it. */
  lemma UploadOnce(env: Env, t: Tree, up: Entry, from: Path, rest: seq<Entry>)
    requires Absent(t, from) && up.op.Put? && up.op.path == from && up.op.ifMatch == None
    ensures
      Exec(env, t, up) == if up.attempts >= MAX_ATTEMPTS || Barren(t, from) then t
          else t[from := File(up.op.staging, env.etag(up.seqNo))]
    ensures Advanced(env, t, up, rest) == rest
  {
    assert Under(from, from);
  }

  lemma DeletedAhead(
      env: Env, t: Tree, a: seq<Entry>, up: Entry, b: seq<Entry>, moved: Entry, mv: Entry, from: Path)
    requires Alike(up, moved, mv, from) && AllApart(env, a, from) && AllApart(env, b, from) && a != []
    requires Barren(t, from) || (Unborn(t, from) && (SomeDelete(a, from) || SomeDelete(b, from)))
    ensures Separates(env, t, a, up, b, moved, mv)
    decreases |a|, 0
  {
    var e, a1 := a[0], a[1..];
    assert a == [e] + a1;
    SomeDeleteAppend([e], a1, from);
    StaysAbsent(env, t, e, from);
    AdvancedApart(env, t, e, a1, from);
    AdvancedApart(env, t, e, b, from);
    AdvancedAlike(env, t, e, up, moved, mv, from);
    var t', a', b' := Exec(env, t, e), Advanced(env, t, e, a1), Advanced(env, t, e, b);
    var moved', mv' := Advanced(env, t, e, [moved])[0], Advanced(env, t, e, [mv])[0];
    QueuesStep(env, t, a, up, b, moved, mv, a', b', moved', mv');
    DeletedAround(env, t', a', up, b', moved', mv', from);
    SameSeparates(env, t, a, b, moved, mv, t', a', b', moved', mv', up);
  }

  lemma SameSeparates(
      env: Env, t: Tree, a: seq<Entry>, b: seq<Entry>, moved: Entry, mv: Entry,
      t': Tree, a': seq<Entry>, b': seq<Entry>, moved': Entry, mv': Entry, up: Entry)
    requires Run(env, t, a + ([up] + b + [mv])) == Run(env, t', a' + ([up] + b' + [mv']))
    requires Run(env, t, a + b + [moved]) == Run(env, t', a' + b' + [moved'])
    requires Turn(env, t, a + b, moved) == Turn(env, t', a' + b', moved')
    requires Separates(env, t', a', up, b', moved', mv')
    ensures Separates(env, t, a, up, b, moved, mv)
  {
  }

  // ── the result ───────────────────────────────────────────────────────────

  /** The old name's folder is there now, and no queued delete takes it away. */
  ghost predicate Housed(t: Tree, rest: seq<Entry>, from: Path) {
    InFolder(t, from) && !SomeDelete(rest, from)
  }

  /** Whenever `retarget_upload` re-points the upload of a file the server has never seen,
      replaying the new queue leaves the same tree as replaying the old one followed by the
      MOVE exactly when the upload was out of attempts; or the old name's folder is there to
      stay, and it lands under its new name at its turn; or the folder is not, and it changes
      nothing at its turn. */
  lemma RetargetRefinesMove(
      env: Env, t: Tree, q: seq<Entry>, i: nat, from: Path, to: Path, base: Option<string>, seqNo: nat)
    requires MayRetarget(q, i, from) && Closed(t) && Vacant(t, from) && to != from && !Under(from, CopyOf(env, to))
    requires CopiesElsewhere(env, q, i, from)
    ensures
      var rest := q[..i] + q[i + 1..];
      var s := Turn(env, t, rest, Retargeted(q[i], to, base));
      && s.1.op.Put?
      && (Run(env, t, q + [NewEntry(seqNo, Rename(from, to, None, base))])
          == Run(env, t, Reordered(q, i, to, base)) <==>
            || q[i].attempts >= MAX_ATTEMPTS
            || (if Housed(t, rest, from) then Lands(env, s.0, s.1) else Exec(env, s.0, s.1) == s.0))
  {
    var a, b, mv := q[..i], q[i + 1..], NewEntry(seqNo, Rename(from, to, None, base));
    Parted(q, i, mv);
    OthersApart(env, q, i, from);
    if Housed(t, a + b, from) {
      AroundUpload(env, t, a, q[i], b, Retargeted(q[i], to, base), mv, from);
    } else {
      DeletedAround(env, t, a, q[i], b, Retargeted(q[i], to, base), mv, from);
      TurnAttempts(env, t, a + b, Retargeted(q[i], to, base));
    }
  }

  /** Waiting costs no attempts. */
  lemma {:induction false} TurnAttempts(env: Env, t: Tree, rest: seq<Entry>, last: Entry)
    ensures Turn(env, t, rest, last).1.attempts == last.attempts
    decreases |rest|
  {
    if rest != [] {
      TurnAttempts(env, Exec(env, t, rest[0]), Advanced(env, t, rest[0], rest[1..]),
          Advanced(env, t, rest[0], [last])[0]);
    }
  }

  /** A change that has nothing to do with `p` keeps the folder `p` would go in. */
  lemma FolderStays(env: Env, t: Tree, e: Entry, p: Path)
    requires LeavesAlone(env, e.op, p) && InFolder(t, p)
    ensures InFolder(Exec(env, t, e), p)
  {
    var folder := Parent(p);
    assert Under(p, folder);
    if e.op.Rename? {
      MovedAt(t, e.op.from, Target(env, t, e.op.to, e.op.ifMatch), folder);
    }
  }

  /** An upload without a condition stays without one. */
  lemma Unrebased(env: Env, t: Tree, e: Entry, last: Entry)
    requires last.op.Put? && last.op.ifMatch == None
    ensures Advanced(env, t, e, [last]) == [last]
  {
  }

  lemma {:induction false} CanPutStays(env: Env, t: Tree, rest: seq<Entry>, last: Entry, p: Path)
    requires AllLeaveAlone(env, rest, p) && CanPut(t, p)
    requires last.op.Put? && last.op.path == p && last.op.ifMatch == None
    ensures
      var s := Turn(env, t, rest, last);
      s.1.op == last.op && s.1.seqNo == last.seqNo && CanPut(s.0, p) && SameAt(s.0, t, p)
    decreases |rest|
  {
    if rest != [] {
      var e := rest[0];
      ExecLeaves(env, t, e, p);
      FolderStays(env, t, e, p);
      AdvancedKeeps(env, t, e, rest[1..], p);
      Unrebased(env, t, e, last);
      CanPutStays(env, Exec(env, t, e), Advanced(env, t, e, rest[1..]), last, p);
    }
  }

  /** So when the destination can take a file now, and nothing queued has to do with it either,
      re-pointing an upload that has attempts left is safe exactly when the old name's folder is
      there to stay (or the very same upload is at the destination already). */
  lemma RetargetIsSafe(
      env: Env, t: Tree, q: seq<Entry>, i: nat, from: Path, to: Path, seqNo: nat)
    requires MayRetarget(q, i, from) && Closed(t) && Vacant(t, from) && to != from && !Under(from, CopyOf(env, to))
    requires CopiesElsewhere(env, q, i, from) && q[i].attempts < MAX_ATTEMPTS
    requires CanPut(t, to) && AllLeaveAlone(env, q[..i] + q[i + 1..], to)
    ensures
      Run(env, t, q + [NewEntry(seqNo, Rename(from, to, None, None))]) == Run(env, t, Reordered(q, i, to, None)) <==>
        || Housed(t, q[..i] + q[i + 1..], from)
        || (to in t && t[to] == File(q[i].op.staging, env.etag(q[i].seqNo)))
  {
    var rest, moved := q[..i] + q[i + 1..], Retargeted(q[i], to, None);
    RetargetRefinesMove(env, t, q, i, from, to, None, seqNo);
    CanPutStays(env, t, rest, moved, to);
    TurnAttempts(env, t, rest, moved);
  }

  // ── a file the server has after all ──────────────────────────────────────

  lemma {:induction false} RunLeaves(env: Env, t: Tree, q: seq<Entry>, p: Path)
    requires AllLeaveAlone(env, q, p)
    ensures SameAt(Run(env, t, q), t, p)
    decreases |q|
  {
    if q != [] {
      ExecLeaves(env, t, q[0], p);
      AdvancedKeeps(env, t, q[0], q[1..], p);
      RunLeaves(env, Exec(env, t, q[0]), Advanced(env, t, q[0], q[1..]), p);
    }
  }

  /** The last MOVE takes the file away from `from`, or leaves it as it is. */
  lemma {:induction false} MovedOrKept(env: Env, t: Tree, rest: seq<Entry>, mv: Entry, from: Path)
    requires from in t && AllLeaveAlone(env, rest, from) && mv.op.Rename? && mv.op.from == from && mv.op.copy == None
    ensures
      var r := Run(env, t, rest + [mv]);
      from in r ==> r[from] == t[from]
    decreases |rest|
  {
    if rest == [] {
      assert rest + [mv] == [mv] && Under(from, from);
      RunStep(env, t, [mv], [], []);
      MovedAt(t, from, Target(env, t, mv.op.to, mv.op.ifMatch), from);
    } else {
      var e, r, mv' := rest[0], Advanced(env, t, rest[0], rest[1..]), Advanced(env, t, rest[0], [mv])[0];
      ExecLeaves(env, t, e, from);
      AdvancedKeeps(env, t, e, rest[1..], from);
      assert (rest + [mv])[1..] == rest[1..] + [mv];
      assert Advanced(env, t, e, rest[1..] + [mv]) == r + [mv'];
      RunStep(env, t, rest + [mv], rest[1..] + [mv], r + [mv']);
      MovedOrKept(env, Exec(env, t, e), r, mv', from);
    }
  }

  lemma UploadUnmoved(env: Env, t: Tree, e: Entry, up: Entry, mv: Entry)
    requires up.op.Put? && up.op.ifMatch == None && mv.op.Rename? && mv.op.copy == None
    ensures Advanced(env, t, e, [up]) == [up]
    ensures
      var r := Advanced(env, t, e, [mv]);
      |r| == 1 && r[0].op.Rename? && r[0].op.from == mv.op.from && r[0].op.copy == None
  {
  }

  /** What the old queue leaves at `from` when there is a file: the upload's, or none. */
  lemma {:induction false} OldQueueAt(
      env: Env, t: Tree, a: seq<Entry>, up: Entry, b: seq<Entry>, mv: Entry, from: Path)
    requires AllLeaveAlone(env, a, from) && AllLeaveAlone(env, b, from) && CanPut(t, from)
    requires up.op.Put? && up.op.path == from && up.op.ifMatch == None && up.attempts < MAX_ATTEMPTS
    requires mv.op.Rename? && mv.op.from == from && mv.op.copy == None
    ensures
      var r := Run(env, t, a + ([up] + b + [mv]));
      from in r ==> r[from] == File(up.op.staging, env.etag(up.seqNo))
    decreases |a|
  {
    if a == [] {
      FirstIsUpload(a, up, b, mv);
      assert Advanced(env, t, up, b + [mv]) == b + [mv];
      RunStep(env, t, [up] + b + [mv], b + [mv], b + [mv]);
      MovedOrKept(env, Exec(env, t, up), b, mv, from);
    } else {
      var e, a' := a[0], Advanced(env, t, a[0], a[1..]);
      var b', mv' := Advanced(env, t, e, b), Advanced(env, t, e, [mv])[0];
      ExecLeaves(env, t, e, from);
      FolderStays(env, t, e, from);
      AdvancedKeeps(env, t, e, a[1..], from);
      AdvancedKeeps(env, t, e, b, from);
      UploadUnmoved(env, t, e, up, mv);
      QueuesStep(env, t, a, up, b, up, mv, a', b', up, mv');
      OldQueueAt(env, Exec(env, t, e), a', up, b', mv', from);
    }
  }

  /** That the server has never seen the file is needed: with somebody else's file under the
      old name, which nothing queued has to do with, the MOVE takes the name and the re-pointed
      upload leaves it, so the trees always differ. */
  lemma SeenFileDiffers(
      env: Env, t: Tree, q: seq<Entry>, i: nat, from: Path, to: Path, base: Option<string>, seqNo: nat)
    requires MayRetarget(q, i, from) && to != from && !Under(from, CopyOf(env, to)) && q[i].attempts < MAX_ATTEMPTS
    requires CanPut(t, from) && from in t && t[from] != File(q[i].op.staging, env.etag(q[i].seqNo))
    requires AllLeaveAlone(env, q[..i], from) && AllLeaveAlone(env, q[i + 1..], from)
    ensures Run(env, t, q + [NewEntry(seqNo, Rename(from, to, None, base))]) != Run(env, t, Reordered(q, i, to, base))
  {
    var mv := NewEntry(seqNo, Rename(from, to, None, base));
    Parted(q, i, mv);
    OldQueueAt(env, t, q[..i], q[i], q[i + 1..], mv, from);
    RunLeaves(env, t, Reordered(q, i, to, base), from);
  }

  /** The journal does not count a queued delete of a folder above the file as touching it. One
      is queued when `d` is deleted as a file while offline, somebody else replaces it by a
      folder meanwhile, and `d/f` is created and renamed to `g` before the delete is replayed. */
  lemma DeleteAboveIsNotSeen(env: Env)
    ensures
      var t: Tree := map[[] := Folder, ["d"] := Folder];
      var q := [NewEntry(1, Unlink(["d"])), NewEntry(2, Put(["d", "f"], 7, None))];
      && MayRetarget(q, 1, ["d", "f"]) && Unborn(t, ["d", "f"])
      && Run(env, t, q + [NewEntry(3, Rename(["d", "f"], ["g"], None, None))])
         != Run(env, t, Reordered(q, 1, ["g"], None))
  {
    var t: Tree := map[[] := Folder, ["d"] := Folder];
    var del, up := NewEntry(1, Unlink(["d"])), NewEntry(2, Put(["d", "f"], 7, None));
    var mv := NewEntry(3, Rename(["d", "f"], ["g"], None, None));
    assert [del, up] + [mv] == [del, up, mv]
        && Reordered([del, up], 1, ["g"], None) == [del, Retargeted(up, ["g"], None)];
    assert Parent(["d", "f"]) == ["d"] && Parent(["d"]) == [];
    OldQueueLosesFile(env, t, del, up, mv);
    NewQueueKeepsFile(env, t, del, Retargeted(up, ["g"], None));
  }

  /** Nor does it ask whether the folder the file was made in is still there. Somebody else
      deletes `d` on the server while the upload of `d/f` is queued, and `d/f` is renamed to
      `g`: the MOVE would find nothing to move, and the re-pointed upload lands. */
  lemma FolderGoneIsNotSeen(env: Env)
    ensures
      var t: Tree := map[[] := Folder];
      var q := [NewEntry(1, Put(["d", "f"], 7, None))];
      && MayRetarget(q, 0, ["d", "f"]) && Closed(t) && Vacant(t, ["d", "f"])
      && Run(env, t, q + [NewEntry(2, Rename(["d", "f"], ["g"], None, None))])
         != Run(env, t, Reordered(q, 0, ["g"], None))
  {
    var t: Tree := map[[] := Folder];
    var up, mv := NewEntry(1, Put(["d", "f"], 7, None)), NewEntry(2, Rename(["d", "f"], ["g"], None, None));
    assert [up] + [mv] == [up, mv] && Reordered([up], 0, ["g"], None) == [Retargeted(up, ["g"], None)];
    assert Parent(["d", "f"]) == ["d"] && Parent(["g"]) == [];
    UploadOnce(env, t, up, ["d", "f"], [mv]);
    RunStep(env, t, [up, mv], [mv], [mv]);
    RunStep(env, t, [mv], [], []);
    RunStep(env, t, [Retargeted(up, ["g"], None)], [], []);
  }

  lemma OldQueueLosesFile(env: Env, t: Tree, del: Entry, up: Entry, mv: Entry)
    requires Unborn(t, ["d", "f"]) && ["g"] !in t && up.op == Put(["d", "f"], 7, None)
    requires del.op == Unlink(["d"]) && mv.op == Rename(["d", "f"], ["g"], None, None) && del.attempts == 0
    ensures ["g"] !in Run(env, t, [del, up, mv])
  {
    DeleteTakesAll(env, t, del, ["d", "f"], Folder);
    var t1 := Exec(env, t, del);
    RunStep(env, t, [del, up, mv], [up, mv], [up, mv]);
    UploadOnce(env, t1, up, ["d", "f"], [mv]);
    RunStep(env, t1, [up, mv], [mv], [mv]);
    assert Under(["d", "f"], ["d", "f"]);
    RunStep(env, t1, [mv], [], []);
  }

  lemma NewQueueKeepsFile(env: Env, t: Tree, del: Entry, up: Entry)
    requires [] in t && t[[]].Folder? && ["g"] !in t && del.op == Unlink(["d"]) && up.op == Put(["g"], 7, None)
        && up.attempts == 0
    ensures ["g"] in Run(env, t, [del, up])
  {
    RunStep(env, t, [del, up], [up], [up]);
    var s := Exec(env, t, del);
    assert !Under([], ["d"]) && Parent(["g"]) == [];
    RunStep(env, s, [up], [], []);
  }
}
