/** Saves of one file while earlier ones are still queued: each is sent on the version the
    one before it made, so our own saves never conflict with each other. */
module JournalSaves {
  import opened Options
  import opened Journal
  import opened JournalServer

  /** What the journal and the server hold. */
  datatype State = State(tree: Tree, q: seq<Entry>, next: nat)

  /** A save: a whole-file upload, the end of a streamed one, or another file moved onto this one;
      the file's move elsewhere; any other change of our own. A queued upload is re-pointed at
      another name, claimed, settled, superseded, handed back or withdrawn, or hands its copy to a
      queued move. An entry's turn comes: the front one's, or that of one a worker holds. */
  datatype Event =
    | Saves(op: Op)
    | Leaves(to: Path, ifMatch: Option<string>)
    | Changes(op: Op)
    | Retargets(from: Path, to: Path, base: Option<string>, at: nat)
    | Claims(seqNo: nat)
    | Settles(seqNo: nat, startedAs: Path, ifMatch: Option<string>)
    | Supersedes(path: Path, newest: nat)
    | HandsBack(seqNo: nat, counted: bool)
    | HandsCopy(uploadedAs: Path, staging: nat)
    | Withdraws(seqNo: nat)
    | Replays(at: nat)

  // ── what has to do with the file ─────────────────────────────────────────

  /** It is sent with a condition on the version of `p`: an upload of it, or a move onto it. */
  predicate Carries(op: Op, p: Path) {
    IsUploadOf(op, p) || (op.Rename? && op.to == p && (op.from == p || !Under(p, op.from)))
  }

  predicate MovesAway(op: Op, p: Path) {
    op.Rename? && op.from == p && !Under(p, op.to)
  }

  predicate Drops(op: Op, p: Path) {
    op == Unlink(p) || op == RmDir(p)
  }

  predicate Held(e: Entry) {
    e.inFlight || e.retargeted
  }

  /** A worker holds a change of `p`, or it was re-pointed by name, so that no rename re-points it. */
  ghost predicate HeldChange(q: seq<Entry>, p: Path) {
    exists k :: 0 <= k < |q| && Held(q[k]) && (Carries(q[k].op, p) || Drops(q[k].op, p))
  }

  ghost predicate LeavesQueued(q: seq<Entry>, p: Path) {
    exists k :: 0 <= k < |q| && MovesAway(q[k].op, p)
  }

  /** The condition a save may be sent with: that of the newest queued change of the file; with
      none queued the version it is at (if known), or none for a file made anew after a move. */
  ghost predicate BasedOn(t: Tree, q: seq<Entry>, p: Path, cond: Option<string>) {
    match PendingBase(q, p)
    case Some(c) => cond == c
    case None => Matches(t, p, cond) && (LeavesQueued(q, p) ==> cond == None)
  }

  // ── the invariant ────────────────────────────────────────────────────────

  predicate Ours(env: Env, t: Tree, op: Op, p: Path) {
    || (Carries(op, p) && Matches(t, p, op.ifMatch))
    || Drops(op, p)
    || op == MkDir(p)
    || (MovesAway(op, p) && !Under(p, CopyOf(env, op.to)))
    || LeavesAlone(env, op, p)
  }

  /** After this, what carries a condition on `p` carries none. */
  predicate Clears(op: Op, p: Path) {
    Drops(op, p) || MovesAway(op, p) || (Carries(op, p) && op.ifMatch == None)
  }

  /** May `d` be queued behind `c`? */
  predicate Fits(c: Op, d: Op, p: Path) {
    && (Clears(c, p) && Carries(d, p) ==> d.ifMatch == None)
    && (MovesAway(d, p) ==> !Carries(c, p) && !Drops(c, p))
  }

  ghost predicate QueueInv(env: Env, t: Tree, q: seq<Entry>, p: Path) {
    && (forall k :: 0 <= k < |q| ==> Ours(env, t, q[k].op, p))
    && forall j, k :: 0 <= j < k < |q| ==> Fits(q[j].op, q[k].op, p)
  }

  // ── runs ─────────────────────────────────────────────────────────────────

  /** The rename re-points the entry. */
  predicate Repoints(e: Entry, op: Op) {
    Renamed(e, op) != e
  }

  /** What a move onto `p` re-points there had no condition, or one on the version of `p`. */
  ghost predicate BringsNoOther(t: Tree, q: seq<Entry>, op: Op, p: Path) {
    forall k :: 0 <= k < |q| && Repoints(q[k], op) && Carries(Renamed(q[k], op).op, p) ==>
      q[k].op.ifMatch == None || Matches(t, p, q[k].op.ifMatch)
  }

  /** What it re-points there stands where it may in the queue. */
  ghost predicate FitsIn(q: seq<Entry>, op: Op, p: Path) {
    && (forall k :: 0 <= k < |q| && Repoints(q[k], op) ==> Fits(Renamed(q[k], op).op, op, p))
    && forall j, k :: 0 <= j < k < |q| && (Repoints(q[j], op) || Repoints(q[k], op)) ==>
         Fits(Renamed(q[j], op).op, Renamed(q[k], op).op, p)
  }

  /** The entry may go before what is queued ahead of it: at the front there is nothing, and
      further back that has nothing to do with `p`, or is an earlier save on the same version. */
  ghost predicate MayOvertake(q: seq<Entry>, at: nat, p: Path)
    requires at < |q|
  {
    forall k :: 0 <= k < at ==> Fits(q[at].op, q[k].op, p)
  }

  ghost predicate Enabled(env: Env, s: State, ev: Event, p: Path) {
    match ev
    case Saves(op) =>
      && Carries(op, p) && BasedOn(s.tree, s.q, p, op.ifMatch)
      && (op.Rename? ==> op.from != p && BringsNoOther(s.tree, s.q, op, p) && FitsIn(s.q, op, p))
    case Leaves(to, _) => !Under(p, to) && !Under(p, CopyOf(env, to)) && !HeldChange(s.q, p)
    case Changes(op) => LeavesAlone(env, op, p) || Drops(op, p) || op == MkDir(p)
    case Retargets(from, to, base, at) =>
      && MayRetarget(s.q, at, from)
      && if to == p then from != p && BasedOn(s.tree, s.q, p, base) else !Under(p, CopyOf(env, to))
    case Replays(at) => at < |s.q| && MayOvertake(s.q, at, p)
    case _ => true
  }

  function Others(q: seq<Entry>, at: nat): seq<Entry>
    requires at < |q|
  {
    q[..at] + q[at + 1..]
  }

  ghost function After(env: Env, s: State, ev: Event, p: Path): State
    requires Enabled(env, s, ev, p)
  {
    match ev
    case Saves(op) => s.(q := Enqueued(s.q, s.next, op), next := s.next + 1)
    case Leaves(to, cond) => s.(q := Enqueued(s.q, s.next, Rename(p, to, None, cond)), next := s.next + 1)
    case Changes(op) => s.(q := Enqueued(s.q, s.next, op), next := s.next + 1)
    case Retargets(_, to, base, at) => s.(q := Reordered(s.q, at, to, base))
    case Claims(seqNo) => s.(q := Claimed(s.q, seqNo))
    case Settles(seqNo, startedAs, ifMatch) => s.(q := Settling(s.q, seqNo, startedAs, ifMatch).1)
    case Supersedes(path, newest) => s.(q := Superseded(s.q, path, newest))
    case HandsBack(seqNo, counted) => s.(q := GivenBack(s.q, seqNo, counted))
    case HandsCopy(uploadedAs, staging) => s.(q := HandedCopy(s.q, uploadedAs, staging))
    case Withdraws(seqNo) => s.(q := Removed(s.q, seqNo))
    case Replays(at) =>
      s.(tree := Exec(env, s.tree, s.q[at]), q := Advanced(env, s.tree, s.q[at], Others(s.q, at)))
  }

  // ── parts of the queue ───────────────────────────────────────────────────

  lemma OthersInv(env: Env, t: Tree, q: seq<Entry>, at: nat, p: Path)
    requires QueueInv(env, t, q, p) && at < |q|
    ensures QueueInv(env, t, Others(q, at), p)
    ensures forall k :: 0 <= k < |Others(q, at)| ==> Others(q, at)[k] == q[if k < at then k else k + 1]
  {
    var r := Others(q, at);
    forall j, k | 0 <= j < k < |r| ensures Fits(r[j].op, r[k].op, p) {
      assert r[j] == q[if j < at then j else j + 1] && r[k] == q[if k < at then k else k + 1];
    }
  }

  lemma SameOpsInv(env: Env, t: Tree, q: seq<Entry>, r: seq<Entry>, p: Path)
    requires QueueInv(env, t, q, p) && |r| == |q| && forall k :: 0 <= k < |q| ==> r[k].op == q[k].op
    ensures QueueInv(env, t, r, p)
  {
  }

  lemma {:induction false} KeepIn(q: seq<Entry>, f: Entry -> bool, i: nat) returns (k: nat)
    requires i < |Keep(q, f)|
    ensures k < |q| && q[k] == Keep(q, f)[i]
  {
    var n := |q| - 1;
    if i < |Keep(q[..n], f)| {
      k := KeepIn(q[..n], f, i);
    } else {
      k := n;
    }
  }

  lemma {:induction false} KeepKeepsInv(env: Env, t: Tree, q: seq<Entry>, p: Path, f: Entry -> bool)
    requires QueueInv(env, t, q, p)
    ensures QueueInv(env, t, Keep(q, f), p)
  {
    if q != [] {
      var n := |q| - 1;
      KeepKeepsInv(env, t, q[..n], p, f);
      var r := Keep(q[..n], f);
      if f(q[n]) {
        assert Keep(q, f) == r + [q[n]];
        forall j | 0 <= j < |r| ensures Fits(r[j].op, q[n].op, p) {
          var k := KeepIn(q[..n], f, j);
          assert q[k] == r[j];
        }
      } else {
        assert Keep(q, f) == r;
      }
    }
  }

  lemma CoalescedKeepsInv(env: Env, t: Tree, q: seq<Entry>, p: Path, op: Op)
    requires QueueInv(env, t, q, p)
    ensures QueueInv(env, t, Coalesced(q, op), p)
  {
    match op
    case Unlink(x) =>
      if !(exists i :: 0 <= i < |q| && Conditional(q[i].op, x)) {
        KeepKeepsInv(env, t, q, p, (e: Entry) => !IsUploadOf(e.op, x) && e.op != MkDir(x));
      }
    case RmDir(x) => KeepKeepsInv(env, t, q, p, (e: Entry) => e.op != MkDir(x));
    case _ =>
  }

  // ── what re-pointing does ────────────────────────────────────────────────

  lemma RewriteAlone(env: Env, x: Path, a: Path, b: Path, p: Path)
    requires !Under(p, b) && !Under(p, CopyOf(env, b))
    ensures Under(x, a) ==> !Under(p, Rewrite(x, a, b)) && !Under(p, CopyOf(env, Rewrite(x, a, b)))
  {
    var y := Rewrite(x, a, b);
    if Under(x, a) {
      assert Under(y, b);
      if y != b {
        assert Under(Parent(y), b) && Under(CopyOf(env, y), b);
      }
    }
  }

  /** Re-pointing what a rename elsewhere moved does not bring anything near `p`. */
  lemma RenamedAlone(env: Env, op: Op, a: Path, b: Path, p: Path)
    requires !Under(p, b) && !Under(p, CopyOf(env, b)) && LeavesAlone(env, op, p)
    ensures LeavesAlone(env, Repointed(op, a, b), p)
  {
    RewriteAlone(env, PathOf(op), a, b, p);
    if op.Rename? {
      RewriteAlone(env, op.to, a, b, p);
    }
  }

  lemma ConditionAlone(env: Env, op: Op, cond: Option<string>, p: Path)
    requires LeavesAlone(env, op, p)
    ensures LeavesAlone(env, WithCondition(op, cond), p)
  {
  }

  /** A rename of something else leaves the file's own changes where they are. */
  lemma OtherRename(env: Env, t: Tree, e: Entry, op: Op, p: Path)
    requires op.Rename? && LeavesAlone(env, op, p) && Ours(env, t, e.op, p)
    ensures
      var r := Renamed(e, op);
      && (LeavesAlone(env, e.op, p) ==> LeavesAlone(env, r.op, p))
      && (Carries(e.op, p) ==> Carries(r.op, p) && r.op.ifMatch == e.op.ifMatch)
      && (Drops(e.op, p) || e.op == MkDir(p) ==> r.op == e.op)
      && (MovesAway(e.op, p) && !Under(p, CopyOf(env, e.op.to)) ==>
         MovesAway(r.op, p) && !Under(p, CopyOf(env, r.op.to)))
  {
    if LeavesAlone(env, e.op, p) {
      RenamedAlone(env, e.op, op.from, op.to, p);
      ConditionAlone(env, Repointed(e.op, op.from, op.to), op.ifMatch, p);
    } else if e.op.Rename? {
      RewriteAlone(env, e.op.from, op.from, op.to, p);
      RewriteAlone(env, e.op.to, op.from, op.to, p);
    }
  }

  /** The kinds of change of `p` exclude each other. */
  lemma OneKind(env: Env, op: Op, p: Path)
    ensures LeavesAlone(env, op, p) ==> !Carries(op, p) && !Drops(op, p) && op != MkDir(p) && !MovesAway(op, p)
    ensures !(Carries(op, p) && MovesAway(op, p)) && !(op.Rename? && Drops(op, p)) && !(IsUpload(op) && Drops(op, p))
  {
  }

  lemma OtherRenameKeepsInv(env: Env, t: Tree, q: seq<Entry>, p: Path, op: Op)
    requires QueueInv(env, t, q, p) && op.Rename? && LeavesAlone(env, op, p)
    ensures QueueInv(env, t, Each(q, (e: Entry) => Renamed(e, op)), p)
  {
    var r := Each(q, (e: Entry) => Renamed(e, op));
    forall k | 0 <= k < |q| ensures Ours(env, t, r[k].op, p) && SameKind(q[k].op, r[k].op, p) {
      OtherRename(env, t, q[k], op, p);
      OneKind(env, q[k].op, p);
      OneKind(env, r[k].op, p);
    }
    SameKindsFit(q, r, p);
  }

  /** The two have the same to do with `p`. */
  predicate SameKind(c: Op, d: Op, p: Path) {
    && Carries(d, p) == Carries(c, p) && (Carries(c, p) ==> d.ifMatch == c.ifMatch)
    && MovesAway(d, p) == MovesAway(c, p) && Drops(d, p) == Drops(c, p) && (d == MkDir(p) <==> c == MkDir(p))
  }

  lemma SameKindsFit(q: seq<Entry>, r: seq<Entry>, p: Path)
    requires |r| == |q| && (forall k :: 0 <= k < |q| ==> SameKind(q[k].op, r[k].op, p))
    requires forall j, k :: 0 <= j < k < |q| ==> Fits(q[j].op, q[k].op, p)
    ensures forall j, k :: 0 <= j < k < |r| ==> Fits(r[j].op, r[k].op, p)
  {
    forall j, k | 0 <= j < k < |r| ensures Fits(r[j].op, r[k].op, p) {
      assert SameKind(q[j].op, r[j].op, p) && SameKind(q[k].op, r[k].op, p) && Fits(q[j].op, q[k].op, p);
    }
  }

  /** The file's move takes along everything queued for it. */
  lemma OwnRename(env: Env, t: Tree, e: Entry, op: Op, p: Path)
    requires MovesAway(op, p) && !Under(p, CopyOf(env, op.to)) && Ours(env, t, e.op, p)
    requires LeavesAlone(env, e.op, p) || !Held(e)
    ensures LeavesAlone(env, Renamed(e, op).op, p)
  {
    var o := Repointed(e.op, op.from, op.to);
    if !Held(e) {
      OwnRepointed(env, t, e.op, op.to, p);
      ConditionAlone(env, o, op.ifMatch, p);
    }
  }

  lemma OwnRepointed(env: Env, t: Tree, op: Op, to: Path, p: Path)
    requires Ours(env, t, op, p) && !Under(p, to) && !Under(p, CopyOf(env, to))
    ensures LeavesAlone(env, Repointed(op, p, to), p)
  {
    RewriteAlone(env, PathOf(op), p, to, p);
    assert Under(p, p);
    if op.Rename? {
      RewriteAlone(env, op.to, p, to, p);
    }
  }

  lemma {:induction false} NoBase(env: Env, t: Tree, q: seq<Entry>, p: Path)
    requires forall k :: 0 <= k < |q| ==> LeavesAlone(env, q[k].op, p) || MovesAway(q[k].op, p) || q[k].op == MkDir(p)
    ensures PendingBase(q, p) == None
  {
    if q != [] {
      OneKind(env, q[|q| - 1].op, p);
      NoBase(env, t, q[..|q| - 1], p);
    }
  }

  /** Behind the file's own move nothing older of it is queued. */
  lemma NothingBefore(env: Env, t: Tree, q: seq<Entry>, p: Path)
    requires QueueInv(env, t, q, p) && q != [] && MovesAway(q[|q| - 1].op, p)
    ensures PendingBase(q, p) == None
  {
    var n := |q| - 1;
    forall k | 0 <= k < n ensures LeavesAlone(env, q[k].op, p) || MovesAway(q[k].op, p) || q[k].op == MkDir(p) {
      assert Ours(env, t, q[k].op, p) && Fits(q[k].op, q[n].op, p);
    }
    NoBase(env, t, q, p);
  }

  lemma LeavesQueuedMore(q: seq<Entry>, n: nat, p: Path)
    requires n <= |q| && LeavesQueued(q[..n], p)
    ensures LeavesQueued(q, p)
  {
    var k :| 0 <= k < n && MovesAway(q[..n][k].op, p);
    assert MovesAway(q[k].op, p);
  }

  lemma {:induction false} NewestFirst(env: Env, t: Tree, q: seq<Entry>, p: Path, cond: Option<string>)
    requires QueueInv(env, t, q, p) && BasedOn(t, q, p, cond)
    ensures Matches(t, p, cond)
    ensures forall j :: 0 <= j < |q| && Clears(q[j].op, p) ==> cond == None
  {
    if q != [] {
      var n := |q| - 1;
      var op := q[n].op;
      assert Ours(env, t, op, p);
      OneKind(env, op, p);
      if MovesAway(op, p) {
        NothingBefore(env, t, q, p);
        assert LeavesQueued(q, p);
      } else if IsUploadOf(op, p) {
        forall j | 0 <= j < |q| && Clears(q[j].op, p) ensures cond == None {
          assert j < n ==> Fits(q[j].op, q[n].op, p);
        }
      } else if !Replaces(op, p) {
        if LeavesQueued(q[..n], p) {
          LeavesQueuedMore(q, n, p);
        }
        NewestFirst(env, t, q[..n], p, cond);
      }
    }
  }

  // ── every step keeps it ──────────────────────────────────────────────────

  lemma AddedKeepsInv(env: Env, t: Tree, q: seq<Entry>, e: Entry, p: Path)
    requires QueueInv(env, t, q, p) && Ours(env, t, e.op, p) && forall j :: 0 <= j < |q| ==> Fits(q[j].op, e.op, p)
    ensures QueueInv(env, t, q + [e], p)
  {
  }

  lemma UploadKeepsInv(env: Env, t: Tree, q: seq<Entry>, p: Path, seqNo: nat, op: Op)
    requires QueueInv(env, t, q, p) && IsUploadOf(op, p) && BasedOn(t, q, p, op.ifMatch)
    ensures QueueInv(env, t, Enqueued(q, seqNo, op), p)
  {
    NewestFirst(env, t, q, p, op.ifMatch);
    assert Each(q, (e: Entry) => Renamed(e, op)) == q;
    assert Enqueued(q, seqNo, op) == q + [NewEntry(seqNo, op)];
    OneKind(env, op, p);
    AddedKeepsInv(env, t, q, NewEntry(seqNo, op), p);
  }

  /** What a move onto `p` makes of a queued change: one that still has something known to do
      with it, on the version of `p` if it was on that or on none. */
  lemma OntoKind(env: Env, t: Tree, e: Entry, op: Op, p: Path)
    requires op.Rename? && op.to == p && !Under(p, op.from) && Matches(t, p, op.ifMatch) && Ours(env, t, e.op, p)
    ensures
      var r := Renamed(e, op);
      && (Carries(r.op, p) ==>
            && (IsUpload(e.op) || e.op.Rename?)
            && (Matches(t, p, r.op.ifMatch) <==>
                  !Repoints(e, op) || e.op.ifMatch == None || Matches(t, p, e.op.ifMatch)))
      && (!Carries(r.op, p) ==> Ours(env, t, r.op, p))
  {
    var r := Renamed(e, op);
    if Repoints(e, op) && !Carries(r.op, p) {
      assert r.op == Repointed(e.op, op.from, p);
      OntoElsewhere(env, t, e.op, op.from, p);
    }
  }

  lemma OntoElsewhere(env: Env, t: Tree, op: Op, from: Path, p: Path)
    requires Ours(env, t, op, p) && !Under(p, from) && !Carries(Repointed(op, from, p), p)
    ensures Ours(env, t, Repointed(op, from, p), p)
  {
    OntoPath(env, PathOf(op), from, p);
    if op.Rename? {
      OntoPath(env, op.to, from, p);
    }
  }

  /** Only what was at `from` comes to be at `p`. */
  lemma OntoPath(env: Env, x: Path, from: Path, p: Path)
    requires !Under(p, from)
    ensures
      var y := Rewrite(x, from, p);
      && (x == from ==> y == p)
      && (x != from ==> (y == p <==> x == p) && (Under(p, y) <==> Under(p, x)))
      && (Under(x, from) && x != from ==> !Under(p, y) && !Under(p, CopyOf(env, y)))
      && (!Under(x, from) ==> y == x)
  {
    if Under(x, from) && x != from {
      var y := Rewrite(x, from, p);
      assert |y| > |p| && Under(y, p) && |CopyOf(env, y)| > |p|;
    }
  }

  /** A move onto `p` based on its version keeps the invariant exactly when what it re-points
      there brings no condition on another version, and fits in. */
  lemma MoveOntoKeepsInvIff(env: Env, t: Tree, q: seq<Entry>, p: Path, seqNo: nat, op: Op)
    requires QueueInv(env, t, q, p) && op.Rename? && op.from != p && Carries(op, p) && BasedOn(t, q, p, op.ifMatch)
    ensures QueueInv(env, t, Enqueued(q, seqNo, op), p) <==> BringsNoOther(t, q, op, p) && FitsIn(q, op, p)
  {
    NewestFirst(env, t, q, p, op.ifMatch);
    var r := Each(q, (e: Entry) => Renamed(e, op));
    var e := NewEntry(seqNo, op);
    OntoOurs(env, t, q, r, p, op);
    assert Enqueued(q, seqNo, op) == r + [e];
    AddedInvIff(env, t, r, e, p);
    FitsInIff(env, t, q, r, p, op);
    OneKind(env, op, p);
  }

  /** All that is queued for `p` is then on the version the server has exactly under the first. */
  lemma OntoOurs(env: Env, t: Tree, q: seq<Entry>, r: seq<Entry>, p: Path, op: Op)
    requires QueueInv(env, t, q, p) && op.Rename? && op.from != p && Carries(op, p) && Matches(t, p, op.ifMatch)
    requires |r| == |q| && forall k :: 0 <= k < |q| ==> r[k] == Renamed(q[k], op)
    ensures (forall k :: 0 <= k < |r| && Carries(r[k].op, p) ==> Matches(t, p, r[k].op.ifMatch))
            <==> BringsNoOther(t, q, op, p)
    ensures (forall k :: 0 <= k < |r| ==> Ours(env, t, r[k].op, p)) <==> BringsNoOther(t, q, op, p)
  {
    forall k | 0 <= k < |q|
      ensures Carries(r[k].op, p) ==>
                (Matches(t, p, r[k].op.ifMatch) <==>
                   !Repoints(q[k], op) || q[k].op.ifMatch == None || Matches(t, p, q[k].op.ifMatch))
      ensures Ours(env, t, r[k].op, p) <==> (Carries(r[k].op, p) ==> Matches(t, p, r[k].op.ifMatch))
    {
      assert Ours(env, t, q[k].op, p);
      OntoKind(env, t, q[k], op, p);
      OneKind(env, r[k].op, p);
    }
  }

  lemma AddedInvIff(env: Env, t: Tree, q: seq<Entry>, e: Entry, p: Path)
    ensures QueueInv(env, t, q + [e], p) <==>
              QueueInv(env, t, q, p) && Ours(env, t, e.op, p) && forall j :: 0 <= j < |q| ==> Fits(q[j].op, e.op, p)
  {
    var r := q + [e];
    assert forall k :: 0 <= k < |q| ==> r[k] == q[k];
    if QueueInv(env, t, r, p) {
      assert Ours(env, t, r[|q|].op, p);
      forall j | 0 <= j < |q| ensures Fits(q[j].op, e.op, p) {
        assert Fits(r[j].op, r[|q|].op, p);
      }
    }
  }

  lemma FitsInIff(env: Env, t: Tree, q: seq<Entry>, r: seq<Entry>, p: Path, op: Op)
    requires QueueInv(env, t, q, p) && op.Rename? && op.from != p && Carries(op, p)
    requires forall j :: 0 <= j < |q| && Clears(q[j].op, p) ==> op.ifMatch == None
    requires |r| == |q| && forall k :: 0 <= k < |q| ==> r[k] == Renamed(q[k], op)
    ensures FitsIn(q, op, p) <==>
              && (forall j :: 0 <= j < |r| ==> Fits(r[j].op, op, p))
              && forall j, k :: 0 <= j < k < |r| ==> Fits(r[j].op, r[k].op, p)
  {
    if FitsIn(q, op, p) {
      forall j | 0 <= j < |r| ensures Fits(r[j].op, op, p) {
        assert !Repoints(q[j], op) ==> r[j] == q[j];
      }
      forall j, k | 0 <= j < k < |r| ensures Fits(r[j].op, r[k].op, p) {
        assert !Repoints(q[j], op) && !Repoints(q[k], op) ==> Fits(q[j].op, q[k].op, p);
      }
    }
  }

  lemma ChangeKeepsInv(env: Env, t: Tree, q: seq<Entry>, p: Path, seqNo: nat, op: Op)
    requires QueueInv(env, t, q, p) && (LeavesAlone(env, op, p) || Drops(op, p) || op == MkDir(p))
    ensures QueueInv(env, t, Enqueued(q, seqNo, op), p)
  {
    CoalescedKeepsInv(env, t, q, p, op);
    var c := Coalesced(q, op);
    var r := Each(c, (e: Entry) => Renamed(e, op));
    if op.Rename? {
      OtherRenameKeepsInv(env, t, c, p, op);
    } else {
      assert r == c;
    }
    OneKind(env, op, p);
    AddedKeepsInv(env, t, r, NewEntry(seqNo, op), p);
  }

  /** A move of the file keeps the invariant exactly when no change of the file is held. */
  lemma LeaveKeepsInvIff(env: Env, t: Tree, q: seq<Entry>, p: Path, seqNo: nat, op: Op)
    requires QueueInv(env, t, q, p) && MovesAway(op, p) && !Under(p, CopyOf(env, op.to))
    ensures QueueInv(env, t, Enqueued(q, seqNo, op), p) <==> !HeldChange(q, p)
  {
    var r, e := Each(q, (e: Entry) => Renamed(e, op)), NewEntry(seqNo, op);
    OneKind(env, op, p);
    if HeldChange(q, p) {
      var k :| 0 <= k < |q| && Held(q[k]) && (Carries(q[k].op, p) || Drops(q[k].op, p));
      assert (r + [e])[k] == q[k] && !Fits(q[k].op, (r + [e])[|q|].op, p);
    } else {
      LeftAside(env, t, q, r, op, p);
      AsideInv(env, t, r, p);
      AddedKeepsInv(env, t, r, e, p);
    }
  }

  lemma LeftAside(env: Env, t: Tree, q: seq<Entry>, r: seq<Entry>, op: Op, p: Path)
    requires QueueInv(env, t, q, p) && MovesAway(op, p) && !Under(p, CopyOf(env, op.to)) && !HeldChange(q, p)
    requires |r| == |q| && forall k :: 0 <= k < |q| ==> r[k] == Renamed(q[k], op)
    ensures forall k :: 0 <= k < |r| ==> StandsAside(env, r[k].op, p)
  {
    forall k | 0 <= k < |q| ensures StandsAside(env, r[k].op, p) {
      assert Ours(env, t, q[k].op, p);
      Aside(env, t, q[k], op, p);
    }
  }

  lemma AsideInv(env: Env, t: Tree, r: seq<Entry>, p: Path)
    requires forall k :: 0 <= k < |r| ==> StandsAside(env, r[k].op, p)
    ensures QueueInv(env, t, r, p)
    ensures forall k :: 0 <= k < |r| ==> !Carries(r[k].op, p) && !Drops(r[k].op, p)
  {
    forall k | 0 <= k < |r|
      ensures Ours(env, t, r[k].op, p) && !Carries(r[k].op, p) && !Drops(r[k].op, p)
    {
      assert StandsAside(env, r[k].op, p);
      OneKind(env, r[k].op, p);
    }
  }

  /** It neither carries a condition on `p` nor drops it. */
  predicate StandsAside(env: Env, op: Op, p: Path) {
    || LeavesAlone(env, op, p)
    || op == MkDir(p)
    || (MovesAway(op, p) && !Under(p, CopyOf(env, op.to)))
  }

  lemma Aside(env: Env, t: Tree, e: Entry, op: Op, p: Path)
    requires MovesAway(op, p) && !Under(p, CopyOf(env, op.to)) && Ours(env, t, e.op, p)
    requires !(Held(e) && (Carries(e.op, p) || Drops(e.op, p)))
    ensures StandsAside(env, Renamed(e, op).op, p)
  {
    if !Held(e) || LeavesAlone(env, e.op, p) {
      OwnRename(env, t, e, op, p);
    }
  }

  /** What a save was based on a moment ago: either the file is the same, or nobody asks. */
  lemma KindsKeepInv(env: Env, t: Tree, t': Tree, q: seq<Entry>, r: seq<Entry>, p: Path)
    requires QueueInv(env, t, q, p) && |r| == |q|
    requires forall k :: 0 <= k < |q| ==> SameKind(q[k].op, r[k].op, p)
    requires forall k :: 0 <= k < |q| && LeavesAlone(env, q[k].op, p) ==> LeavesAlone(env, r[k].op, p)
    requires forall k :: 0 <= k < |q| && MovesAway(q[k].op, p) ==> SameGoal(q[k].op, r[k].op)
    requires SameAt(t', t, p) || forall k :: 0 <= k < |q| && Carries(q[k].op, p) ==> q[k].op.ifMatch == None
    ensures QueueInv(env, t', r, p)
  {
    forall k | 0 <= k < |r| ensures Ours(env, t', r[k].op, p) {
      assert Ours(env, t, q[k].op, p) && SameKind(q[k].op, r[k].op, p);
    }
    SameKindsFit(q, r, p);
  }

  predicate SameGoal(c: Op, d: Op) {
    c.Rename? && d.Rename? && d.to == c.to
  }

  /** Rebasing on another path changes no condition on this one. */
  lemma OtherRebased(op: Op, x: Path, sent: Option<string>, now: Option<string>, p: Path)
    requires x != p
    ensures SameKind(op, RebasedOp(op, x, sent, now), p)
    ensures MovesAway(op, p) ==> SameGoal(op, RebasedOp(op, x, sent, now))
  {
  }

  lemma RebasedAlone(env: Env, op: Op, x: Path, sent: Option<string>, now: Option<string>, p: Path)
    requires LeavesAlone(env, op, p)
    ensures LeavesAlone(env, RebasedOp(op, x, sent, now), p)
  {
  }

  /** The path whose version an entry changes, and what its condition becomes behind it. */
  function Rebases(env: Env, e: Entry): (Path, Option<string>)
    requires IsUpload(e.op) || e.op.Rename?
  {
    if e.op.Rename? then (e.op.to, None)
    else (e.op.path, if env.told(e.seqNo) then Some(env.etag(e.seqNo)) else None)
  }

  lemma AdvancedIs(env: Env, t: Tree, e: Entry, rest: seq<Entry>)
    ensures Landed(env, t, e) ==> IsUpload(e.op) || e.op.Rename?
    ensures Advanced(env, t, e, rest) ==
              if Landed(env, t, e) then Rebased(rest, Rebases(env, e).0, e.op.ifMatch, Rebases(env, e).1) else rest
  {
  }

  lemma SamePath(rest: seq<Entry>, x: Path, sent: Option<string>, now: Option<string>, env: Env, p: Path)
    requires x != p
    ensures
      var r := Rebased(rest, x, sent, now);
      && |r| == |rest|
      && (forall k :: 0 <= k < |rest| ==> SameKind(rest[k].op, r[k].op, p))
      && (forall k :: 0 <= k < |rest| && LeavesAlone(env, rest[k].op, p) ==> LeavesAlone(env, r[k].op, p))
      && (forall k :: 0 <= k < |rest| && MovesAway(rest[k].op, p) ==> SameGoal(rest[k].op, r[k].op))
  {
    var r := Rebased(rest, x, sent, now);
    forall k | 0 <= k < |rest|
      ensures SameKind(rest[k].op, r[k].op, p)
      ensures LeavesAlone(env, rest[k].op, p) ==> LeavesAlone(env, r[k].op, p)
      ensures MovesAway(rest[k].op, p) ==> SameGoal(rest[k].op, r[k].op)
    {
      OtherRebased(rest[k].op, x, sent, now, p);
      if LeavesAlone(env, rest[k].op, p) {
        RebasedAlone(env, rest[k].op, x, sent, now, p);
      }
    }
  }

  lemma OtherReplayed(env: Env, t: Tree, e: Entry, rest: seq<Entry>, p: Path)
    requires QueueInv(env, t, rest, p) && LeavesAlone(env, e.op, p)
    ensures QueueInv(env, Exec(env, t, e), Advanced(env, t, e, rest), p)
  {
    ExecLeaves(env, t, e, p);
    AdvancedIs(env, t, e, rest);
    if Landed(env, t, e) {
      assert Under(p, p) && Rebases(env, e).0 != p;
      SamePath(rest, Rebases(env, e).0, e.op.ifMatch, Rebases(env, e).1, env, p);
    }
    KindsKeepInv(env, t, Exec(env, t, e), rest, Advanced(env, t, e, rest), p);
  }

  /** Its delete, or its move: nothing behind it asks for a version of the file. */
  lemma ClearedReplayed(env: Env, t: Tree, e: Entry, rest: seq<Entry>, p: Path)
    requires QueueInv(env, t, rest, p) && (Drops(e.op, p) || MovesAway(e.op, p))
    requires forall k :: 0 <= k < |rest| ==> Fits(e.op, rest[k].op, p)
    ensures QueueInv(env, Exec(env, t, e), Advanced(env, t, e, rest), p)
  {
    AdvancedIs(env, t, e, rest);
    forall k | 0 <= k < |rest| && Carries(rest[k].op, p) ensures rest[k].op.ifMatch == None {
      assert Fits(e.op, rest[k].op, p);
    }
    if Landed(env, t, e) {
      assert Under(p, p) && Rebases(env, e).0 != p;
      SamePath(rest, Rebases(env, e).0, e.op.ifMatch, Rebases(env, e).1, env, p);
    }
    KindsKeepInv(env, t, Exec(env, t, e), rest, Advanced(env, t, e, rest), p);
  }

  /** A save that does not land changes nothing; one that does moves on what is behind it. */
  lemma SaveReplayed(env: Env, t: Tree, e: Entry, rest: seq<Entry>, p: Path)
    requires QueueInv(env, t, rest, p) && Carries(e.op, p) && Matches(t, p, e.op.ifMatch)
    requires forall k :: 0 <= k < |rest| ==> Fits(e.op, rest[k].op, p)
    ensures QueueInv(env, Exec(env, t, e), Advanced(env, t, e, rest), p)
  {
    AdvancedIs(env, t, e, rest);
    if Landed(env, t, e) {
      var t', now := Exec(env, t, e), Rebases(env, e).1;
      LandedMatches(env, t, e, p);
      var r := Rebased(rest, p, e.op.ifMatch, now);
      forall k | 0 <= k < |rest| ensures Ours(env, t', r[k].op, p) && MovedOn(rest[k].op, r[k].op, now, p) {
        assert Ours(env, t, rest[k].op, p) && Fits(e.op, rest[k].op, p);
        OneKind(env, rest[k].op, p);
        BehindSave(env, t, rest[k].op, e.op, now, p);
      }
      MovedOnFits(rest, r, now, p);
    } else {
      assert Exec(env, t, e) == t;
    }
  }

  lemma LandedMatches(env: Env, t: Tree, e: Entry, p: Path)
    requires Carries(e.op, p) && Landed(env, t, e)
    ensures Rebases(env, e).0 == p && Matches(Exec(env, t, e), p, Rebases(env, e).1)
  {
  }

  /** A folder is made at `p` only when there is no file for a condition to be on. */
  lemma FolderReplayed(env: Env, t: Tree, e: Entry, rest: seq<Entry>, p: Path)
    requires QueueInv(env, t, rest, p) && e.op == MkDir(p)
    ensures QueueInv(env, Exec(env, t, e), Advanced(env, t, e, rest), p)
  {
    var t' := Exec(env, t, e);
    if !SameAt(t', t, p) {
      forall k | 0 <= k < |rest| && Carries(rest[k].op, p) ensures rest[k].op.ifMatch == None {
        assert Ours(env, t, rest[k].op, p);
        OneKind(env, rest[k].op, p);
      }
    }
    KindsKeepInv(env, t, t', rest, rest, p);
  }

  /** All conditions on the file move on together. */
  predicate MovedOn(c: Op, d: Op, now: Option<string>, p: Path) {
    && Carries(d, p) == Carries(c, p) && MovesAway(d, p) == MovesAway(c, p) && Drops(d, p) == Drops(c, p)
    && (Carries(c, p) ==> d.ifMatch == if c.ifMatch == None then None else now)
  }

  lemma BehindSave(env: Env, t: Tree, op: Op, save: Op, now: Option<string>, p: Path)
    requires Carries(save, p) && Matches(t, p, save.ifMatch) && Ours(env, t, op, p) && Fits(save, op, p)
    ensures
      var d := RebasedOp(op, p, save.ifMatch, now);
      && MovedOn(op, d, now, p)
      && (LeavesAlone(env, op, p) ==> LeavesAlone(env, d, p))
  {
    OneKind(env, op, p);
    if LeavesAlone(env, op, p) {
      RebasedAlone(env, op, p, save.ifMatch, now, p);
    }
  }

  lemma MovedOnFits(q: seq<Entry>, r: seq<Entry>, now: Option<string>, p: Path)
    requires |r| == |q| && (forall k :: 0 <= k < |q| ==> MovedOn(q[k].op, r[k].op, now, p))
    requires forall j, k :: 0 <= j < k < |q| ==> Fits(q[j].op, q[k].op, p)
    ensures forall j, k :: 0 <= j < k < |r| ==> Fits(r[j].op, r[k].op, p)
  {
    forall j, k | 0 <= j < k < |r| ensures Fits(r[j].op, r[k].op, p) {
      assert MovedOn(q[j].op, r[j].op, now, p) && MovedOn(q[k].op, r[k].op, now, p) && Fits(q[j].op, q[k].op, p);
    }
  }

  lemma ReplayKeepsInv(env: Env, t: Tree, q: seq<Entry>, at: nat, p: Path)
    requires QueueInv(env, t, q, p) && at < |q| && MayOvertake(q, at, p)
    ensures QueueInv(env, Exec(env, t, q[at]), Advanced(env, t, q[at], Others(q, at)), p)
  {
    var e, rest := q[at], Others(q, at);
    OthersInv(env, t, q, at, p);
    assert Ours(env, t, e.op, p);
    if LeavesAlone(env, e.op, p) {
      OtherReplayed(env, t, e, rest, p);
    } else {
      assert forall k :: 0 <= k < |rest| ==> Fits(e.op, rest[k].op, p);
      if Carries(e.op, p) {
        SaveReplayed(env, t, e, rest, p);
      } else if e.op == MkDir(p) {
        FolderReplayed(env, t, e, rest, p);
      } else {
        ClearedReplayed(env, t, e, rest, p);
      }
    }
  }

  lemma RetargetKeepsInv(env: Env, s: State, from: Path, to: Path, base: Option<string>, at: nat, p: Path)
    requires QueueInv(env, s.tree, s.q, p) && Enabled(env, s, Retargets(from, to, base, at), p)
    ensures QueueInv(env, s.tree, Reordered(s.q, at, to, base), p)
  {
    var rest, e := Others(s.q, at), Retargeted(s.q[at], to, base);
    OthersInv(env, s.tree, s.q, at, p);
    if to == p {
      NewestFirst(env, s.tree, s.q, p, base);
    }
    OneKind(env, e.op, p);
    AddedKeepsInv(env, s.tree, rest, e, p);
  }

  lemma SettleKeepsInv(env: Env, t: Tree, q: seq<Entry>, p: Path, seqNo: nat, sentAs: Path, ifMatch: Option<string>)
    requires QueueInv(env, t, q, p)
    ensures QueueInv(env, t, Settling(q, seqNo, sentAs, ifMatch).1, p)
  {
    var i, r := Position(q, seqNo), Settling(q, seqNo, sentAs, ifMatch).1;
    if |r| == |q| {
      SameOpsInv(env, t, q, r, p);
    } else {
      assert r == Others(q, i);
      OthersInv(env, t, q, i, p);
    }
  }

  lemma HandCopyKeepsInv(env: Env, t: Tree, q: seq<Entry>, p: Path, uploadedAs: Path, staging: nat)
    requires QueueInv(env, t, q, p)
    ensures QueueInv(env, t, HandedCopy(q, uploadedAs, staging), p)
  {
    var r := HandedCopy(q, uploadedAs, staging);
    KindsKeepInv(env, t, t, q, r, p);
  }

  /** Every event keeps the invariant. */
  lemma EventKeepsInv(env: Env, s: State, ev: Event, p: Path)
    requires QueueInv(env, s.tree, s.q, p) && Enabled(env, s, ev, p)
    ensures QueueInv(env, After(env, s, ev, p).tree, After(env, s, ev, p).q, p)
  {
    var t, q := s.tree, s.q;
    match ev
    case Saves(op) =>
      if op.Rename? {
        MoveOntoKeepsInvIff(env, t, q, p, s.next, op);
      } else {
        UploadKeepsInv(env, t, q, p, s.next, op);
      }
    case Leaves(to, cond) => LeaveKeepsInvIff(env, t, q, p, s.next, Rename(p, to, None, cond));
    case Changes(op) => ChangeKeepsInv(env, t, q, p, s.next, op);
    case Retargets(from, to, base, at) => RetargetKeepsInv(env, s, from, to, base, at, p);
    case Claims(seqNo) => SameOpsInv(env, t, q, Claimed(q, seqNo), p);
    case Settles(seqNo, startedAs, ifMatch) => SettleKeepsInv(env, t, q, p, seqNo, startedAs, ifMatch);
    case Supersedes(path, newest) =>
      KeepKeepsInv(env, t, q, p, (e: Entry) => !(e.seqNo < newest && !e.inFlight && IsUploadOf(e.op, path)));
    case HandsBack(seqNo, counted) => SameOpsInv(env, t, q, GivenBack(q, seqNo, counted), p);
    case HandsCopy(uploadedAs, staging) => HandCopyKeepsInv(env, t, q, p, uploadedAs, staging);
    case Withdraws(seqNo) => KeepKeepsInv(env, t, q, p, (e: Entry) => e.seqNo != seqNo);
    case Replays(at) => ReplayKeepsInv(env, t, q, at, p);
  }

  ghost predicate IsRun(env: Env, ss: seq<State>, evs: seq<Event>, p: Path) {
    && |ss| == |evs| + 1 && ss[0].q == []
    && forall i :: 0 <= i < |evs| ==> Enabled(env, ss[i], evs[i], p) && ss[i + 1] == After(env, ss[i], evs[i], p)
  }

  lemma {:induction false} RunKeepsInv(env: Env, ss: seq<State>, evs: seq<Event>, p: Path, i: nat)
    requires IsRun(env, ss, evs, p) && i < |ss|
    ensures QueueInv(env, ss[i].tree, ss[i].q, p)
    decreases i
  {
    if i > 0 {
      RunKeepsInv(env, ss, evs, p, i - 1);
      EventKeepsInv(env, ss[i - 1], evs[i - 1], p);
    }
  }

  /** Whenever an upload of the file, or a move onto it, gets its turn, the version it is
      conditional on is the one the server has; it never becomes a conflicted copy. */
  lemma OwnSavesNeverConflict(env: Env, ss: seq<State>, evs: seq<Event>, p: Path, i: nat)
    requires IsRun(env, ss, evs, p) && i < |evs| && evs[i].Replays? && Carries(ss[i].q[evs[i].at].op, p)
    ensures Matches(ss[i].tree, p, ss[i].q[evs[i].at].op.ifMatch)
    ensures Target(env, ss[i].tree, p, ss[i].q[evs[i].at].op.ifMatch) == p
  {
    RunKeepsInv(env, ss, evs, p, i);
    var op := ss[i].q[evs[i].at].op;
    assert Ours(env, ss[i].tree, op, p);
    OneKind(env, op, p);
  }

  /** Once the file was moved away, nothing queued says what a save of the name is based on
      exactly when no change of it was held. */
  lemma BaseAfterLeaving(env: Env, t: Tree, q: seq<Entry>, p: Path, seqNo: nat, op: Op)
    requires QueueInv(env, t, q, p) && MovesAway(op, p) && !Under(p, CopyOf(env, op.to))
    ensures PendingBase(Enqueued(q, seqNo, op), p) == None <==> !HeldChange(q, p)
  {
    var after := Enqueued(q, seqNo, op);
    LeaveKeepsInvIff(env, t, q, p, seqNo, op);
    if HeldChange(q, p) {
      var k :| 0 <= k < |q| && Held(q[k]) && (Carries(q[k].op, p) || Drops(q[k].op, p));
      assert after[k] == q[k];
      SomeBase(after, p, k);
    } else {
      NothingBefore(env, t, after, p);
    }
  }

  lemma {:induction false} SomeBase(q: seq<Entry>, p: Path, k: nat)
    requires k < |q| && (Carries(q[k].op, p) || Drops(q[k].op, p))
    ensures PendingBase(q, p) != None
  {
    var n := |q| - 1;
    assert Under(p, p);
    if k < n {
      SomeBase(q[..n], p, k);
    }
  }

  /** Once another file was moved onto it, all that is queued for the file is on the version
      the server has exactly when what was re-pointed there had no condition on another. */
  lemma BaseAfterMoveOnto(env: Env, t: Tree, q: seq<Entry>, p: Path, seqNo: nat, op: Op)
    requires QueueInv(env, t, q, p) && op.Rename? && op.from != p && Carries(op, p) && BasedOn(t, q, p, op.ifMatch)
    ensures
      var after := Enqueued(q, seqNo, op);
      (forall k :: 0 <= k < |after| && Carries(after[k].op, p) ==> Matches(t, p, after[k].op.ifMatch))
      <==> BringsNoOther(t, q, op, p)
  {
    NewestFirst(env, t, q, p, op.ifMatch);
    var r, after := Each(q, (e: Entry) => Renamed(e, op)), Enqueued(q, seqNo, op);
    OntoOurs(env, t, q, r, p, op);
    assert after == r + [NewEntry(seqNo, op)];
    assert forall k :: 0 <= k < |r| ==> after[k] == r[k];
    assert after[|r|].op == op;
  }

  // ── where it would fail ──────────────────────────────────────────────────

  /** Behind `c`, `d` is sent on a version of `p` that the server does not have. */
  predicate GoesStale(env: Env, t: Tree, c: Entry, d: Entry, p: Path) {
    var r := Advanced(env, t, c, [d])[0];
    Carries(r.op, p) && !Matches(Exec(env, t, c), p, r.op.ifMatch)
  }

  /** Behind a change that clears, a condition on the file is not moved on. So it goes stale
      exactly when that change takes the version it names away. */
  lemma StaleBehindClearing(env: Env, t: Tree, c: Entry, d: Entry, p: Path)
    requires Clears(c.op, p) && Carries(d.op, p)
    ensures GoesStale(env, t, c, d, p) <==> !Matches(Exec(env, t, c), p, d.op.ifMatch)
  {
    assert Advanced(env, t, c, [d]) == [d];
  }

  /** A worker holds an upload of the file while it is moved away: the next save of the name
      takes that upload's condition, and asks for a version the move has taken along. */
  lemma HeldWhileMoved(env: Env, v: string)
    requires env.told(1)
    ensures
      var p, y := ["p"], ["y"];
      var t: Tree := map[[] := Folder, p := File(0, v)];
      var q := [NewEntry(1, Put(p, 1, Some(v))).(inFlight := true)];
      var q1 := Enqueued(q, 2, Rename(p, y, None, None));
      var save := NewEntry(3, Put(p, 2, Some(v)));
      && q == Claimed(Enqueued([], 1, Put(p, 1, Some(v))), 1) && HeldChange(q, p)
      && PendingBase(q1, p) == Some(Some(v))
      && var t1 := Exec(env, t, q1[0]);
         var rest := Advanced(env, t, q1[0], [q1[1], save]);
         var t2 := Exec(env, t1, rest[0]);
         !Matches(t2, p, Advanced(env, t1, rest[0], [rest[1]])[0].op.ifMatch)
  {
    var p, y := ["p"], ["y"];
    var t: Tree := map[[] := Folder, p := File(0, v)];
    var held, mv := NewEntry(1, Put(p, 1, Some(v))).(inFlight := true), NewEntry(2, Rename(p, y, None, None));
    assert Enqueued([], 1, held.op) == [NewEntry(1, held.op)];
    assert Enqueued([held], 2, mv.op) == [held, mv];
    assert Held([held][0]);
    OtherName();
    assert [held, mv][..1] == [held] && !Replaces(mv.op, p);
    assert Parent(p) == [] && Parent(y) == [];
    var save := NewEntry(3, Put(p, 2, Some(v)));
    HeldUploadLands(env, t, held, v, mv, save);
    MoveTakesFile(env, t[p := File(1, env.etag(1))], mv, save.(op := Put(p, 2, Some(env.etag(1)))));
  }

  lemma HeldUploadLands(env: Env, t: Tree, held: Entry, v: string, mv: Entry, save: Entry)
    requires mv.op == Rename(["p"], ["y"], None, None) && save.op == Put(["p"], 2, Some(v))
    requires t == map[[] := Folder, ["p"] := File(0, v)]
        && held == NewEntry(1, Put(["p"], 1, Some(v))).(inFlight := true) && env.told(1)
    ensures Exec(env, t, held) == t[["p"] := File(1, env.etag(1))]
    ensures Advanced(env, t, held, [mv, save]) == [mv, save.(op := Put(["p"], 2, Some(env.etag(1))))]
  {
    assert Parent(["p"]) == [];
  }

  lemma MoveTakesFile(env: Env, t: Tree, mv: Entry, save: Entry)
    requires save.op.Put? && mv.op == Rename(["p"], ["y"], None, None) && mv.attempts == 0
    requires ["p"] in t && ["y"] !in t && [] in t && t[[]].Folder?
    ensures ["p"] !in Exec(env, t, mv)
    ensures Advanced(env, t, mv, [save]) == [save]
  {
    OtherName();
    assert Parent(["y"]) == [];
    MovedAt(t, ["p"], ["y"], ["p"]);
    assert Under(["p"], ["p"]);
  }

  /** A queued upload of another file, sent on that file's version, is re-pointed at this one by
      the move onto it, and keeps its condition. */
  lemma RepointedOnto(v: string, w: string)
    requires v != w
    ensures
      var p, x := ["p"], ["y"];
      var t: Tree := map[[] := Folder, p := File(0, v), x := File(1, w)];
      var q := Enqueued([NewEntry(1, Put(x, 2, Some(w)))], 2, Rename(x, p, None, Some(v)));
      q[0].op == Put(p, 2, Some(w)) && !Matches(t, p, q[0].op.ifMatch)
  {
    OtherName();
    assert ["p"] + ["y"][1..] == ["p"] && Under(["y"], ["y"]);
  }

  /** A streamed upload of another file, with no condition, is re-pointed ahead of what is queued
      for this one, which then goes stale. (It is streamed, so the move has to be queued.) */
  lemma RepointedAhead(env: Env, v: string)
    requires env.etag(1) != v
    ensures
      var p, x := ["p"], ["y"];
      var t: Tree := map[[] := Folder, p := File(0, v)];
      var q := [NewEntry(1, Finish(x, 1, None, 0, true)), NewEntry(2, Put(p, 2, Some(v))), NewEntry(3, Unlink(p))];
      var op := Rename(x, p, None, None);
      var q1 := Enqueued(q, 4, op);
      && q == Enqueued(Enqueued(Enqueued([], 1, q[0].op), 2, q[1].op), 3, q[2].op)
      && (forall i :: !MayRetarget(q, i, x)) && BasedOn(t, q, p, None)
      && BringsNoOther(t, q, op, p) && !FitsIn(q, op, p)
      && |q1| == 4 && GoesStale(env, t, q1[0], q1[1], p)
  {
    var p, x := ["p"], ["y"];
    var t: Tree := map[[] := Folder, p := File(0, v)];
    var up, save, del := NewEntry(1, Finish(x, 1, None, 0, true)), NewEntry(2, Put(p, 2, Some(v))),
        NewEntry(3, Unlink(p));
    var q, op := [up, save, del], Rename(x, p, None, None);
    OtherName();
    assert Enqueued([], 1, up.op) == [up] && Enqueued([up], 2, save.op) == [up, save];
    assert Conditional([up, save][1].op, p);
    assert Enqueued([up, save], 3, del.op) == q;
    assert Touches(q[0].op, x);
    ThirdInput(env, t, q, v);
  }

  lemma ThirdInput(env: Env, t: Tree, q: seq<Entry>, v: string)
    requires env.etag(1) != v && t == map[[] := Folder, ["p"] := File(0, v)]
    requires q == [NewEntry(1, Finish(["y"], 1, None, 0, true)), NewEntry(2, Put(["p"], 2, Some(v))),
                   NewEntry(3, Unlink(["p"]))]
    ensures
      var p, op := ["p"], Rename(["y"], ["p"], None, None);
      var q1 := Enqueued(q, 4, op);
      && BringsNoOther(t, q, op, p) && !FitsIn(q, op, p)
      && |q1| == 4 && GoesStale(env, t, q1[0], q1[1], p)
  {
    var op := Rename(["y"], ["p"], None, None);
    OtherName();
    assert ["p"] + ["y"][1..] == ["p"] && Under(["y"], ["y"]) && Parent(["p"]) == [];
    assert Renamed(q[0], op).op == Finish(["p"], 1, None, 0, true) && Renamed(q[1], op) == q[1];
    assert Repoints(q[0], op) && !Fits(Renamed(q[0], op).op, Renamed(q[1], op).op, ["p"]);
    var q1 := Enqueued(q, 4, op);
    assert q1[0] == Renamed(q[0], op) && q1[1] == q[1];
    StaleBehindClearing(env, t, q1[0], q1[1], ["p"]);
  }

  /** A queued delete of the other name is re-pointed too, and deletes this file before it is
      replaced. (The delete touches that name, so the move has to be queued.) */
  lemma DeleteRepointed(env: Env, v: string)
    ensures
      var p, x := ["p"], ["y"];
      var t: Tree := map[[] := Folder, p := File(0, v), x := File(1, v)];
      var q := [NewEntry(1, Unlink(x)), NewEntry(2, Put(x, 2, None))];
      var op := Rename(x, p, None, Some(v));
      var q1 := Enqueued(q, 3, op);
      && q == Enqueued(Enqueued([], 1, q[0].op), 2, q[1].op)
      && (forall i :: !MayRetarget(q, i, x)) && BasedOn(t, q, p, Some(v))
      && BringsNoOther(t, q, op, p) && !FitsIn(q, op, p)
      && |q1| == 3 && GoesStale(env, t, q1[0], q1[1], p)
  {
    var p, x := ["p"], ["y"];
    var t: Tree := map[[] := Folder, p := File(0, v), x := File(1, v)];
    var del, up := NewEntry(1, Unlink(x)), NewEntry(2, Put(x, 2, None));
    var q, op := [del, up], Rename(x, p, None, Some(v));
    OtherName();
    assert Enqueued([], 1, del.op) == [del] && Enqueued([del], 2, up.op) == q;
    assert Touches(q[0].op, x);
    assert q[..1] == [del] && PendingBase([del], p) == None && PendingBase(q, p) == None;
    FourthInput(env, t, q, v);
  }

  lemma FourthInput(env: Env, t: Tree, q: seq<Entry>, v: string)
    requires ["p"] in t && t[["p"]].File? && t[["p"]].version == v
    requires q == [NewEntry(1, Unlink(["y"])), NewEntry(2, Put(["y"], 2, None))]
    ensures
      var p, op := ["p"], Rename(["y"], ["p"], None, Some(v));
      var q1 := Enqueued(q, 3, op);
      && BringsNoOther(t, q, op, p) && !FitsIn(q, op, p)
      && |q1| == 3 && GoesStale(env, t, q1[0], q1[1], p)
  {
    var op := Rename(["y"], ["p"], None, Some(v));
    OtherName();
    assert ["p"] + ["y"][1..] == ["p"] && Under(["y"], ["y"]) && Under(["p"], ["p"]);
    var del, up := NewEntry(1, Unlink(["p"])), NewEntry(2, Put(["p"], 2, Some(v)));
    assert Renamed(q[0], op) == del && Renamed(q[1], op) == up;
    assert Repoints(q[0], op) && !Fits(Renamed(q[0], op).op, Renamed(q[1], op).op, ["p"]);
    assert Enqueued(q, 3, op) == [del, up, NewEntry(3, op)];
    StaleBehindClearing(env, t, del, up, ["p"]);
  }

  lemma OtherName()
    ensures !Under(["y"], ["p"]) && !Under(["p"], ["y"])
  {
    assert ["p"][0] == "p" && ["y"][0] == "y" && "p"[0] != "y"[0];
  }
}
