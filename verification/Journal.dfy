/** The offline mutation journal: the changes queued for the server, and what queueing,
    renaming, claiming and finishing them does to the queue.

    A staging file is named by a number and stands for the bytes it holds. The functions say
    what becomes of the queue; the class does it in place. */
module Journal {
  import opened Options

  type Path = seq<string>

  const MAX_ATTEMPTS: nat := 3

  datatype Op =
    | Put(path: Path, staging: nat, ifMatch: Option<string>)
    | MkDir(path: Path)
    | Unlink(path: Path)
    | RmDir(path: Path)
    | Rename(from: Path, to: Path, copy: Option<nat>, ifMatch: Option<string>)
    | Finish(path: Path, staging: nat, ifMatch: Option<string>, session: nat, whole: bool)

  /** `failed` is whether an error is on record. */
  datatype Entry = Entry(
    seqNo: nat, op: Op, attempts: nat, failed: bool, inFlight: bool, retargeted: bool, destFixed: bool)

  // ── one change ───────────────────────────────────────────────────────────

  predicate Under(p: Path, folder: Path) {
    folder <= p
  }

  function PathOf(op: Op): Path {
    if op.Rename? then op.from else op.path
  }

  /** It changes `p` or a folder above it. */
  predicate Touches(op: Op, p: Path) {
    match op
    case Put(q, _, _) => q == p
    case Finish(q, _, _, _, _) => q == p
    case Unlink(q) => q == p
    case MkDir(q) => Under(p, q)
    case RmDir(q) => Under(p, q)
    case Rename(from, to, _, _) => Under(p, from) || Under(p, to)
  }

  /** Behind an upload of `p`, it makes that upload pointless. */
  predicate Replaces(op: Op, p: Path) {
    match op
    case Put(q, _, _) => q == p
    case Finish(q, _, _, _, _) => q == p
    case Unlink(q) => q == p
    case RmDir(q) => Under(p, q)
    case Rename(_, to, _, _) => Under(p, to)
    case MkDir(_) => false
  }

  predicate IsUpload(op: Op) {
    op.Put? || op.Finish?
  }

  predicate IsUploadOf(op: Op, p: Path) {
    IsUpload(op) && op.path == p
  }

  function Rewrite(p: Path, from: Path, to: Path): Path {
    if Under(p, from) then to + p[|from|..] else p
  }

  function Repointed(op: Op, from: Path, to: Path): Op {
    match op
    case Rename(a, b, copy, cond) => Rename(Rewrite(a, from, to), Rewrite(b, from, to), copy, cond)
    case Put(p, staging, cond) => Put(Rewrite(p, from, to), staging, cond)
    case Finish(p, staging, cond, session, whole) => Finish(Rewrite(p, from, to), staging, cond, session, whole)
    case MkDir(p) => MkDir(Rewrite(p, from, to))
    case Unlink(p) => Unlink(Rewrite(p, from, to))
    case RmDir(p) => RmDir(Rewrite(p, from, to))
  }

  function WithCondition(op: Op, cond: Option<string>): Op {
    match op
    case Put(p, staging, _) => Put(p, staging, cond)
    case Finish(p, staging, _, session, whole) => Finish(p, staging, cond, session, whole)
    case Rename(a, b, copy, _) => Rename(a, b, copy, cond)
    case _ => op
  }

  // ── what these mean ──────────────────────────────────────────────────────

  /** Uploads and file deletes touch their own path only; making, removing or moving a folder
      touches everything below it. */
  lemma TouchesMeans(op: Op, p: Path)
    ensures Touches(op, p) <==>
              || ((op.Put? || op.Finish? || op.Unlink?) && op.path == p)
              || ((op.MkDir? || op.RmDir?) && exists rest :: p == op.path + rest)
              || (op.Rename? && exists rest :: p == op.from + rest || p == op.to + rest)
  {
    forall folder ensures Under(p, folder) <==> exists rest :: p == folder + rest {
      UnderMeans(p, folder);
    }
  }

  lemma UnderMeans(p: Path, folder: Path)
    ensures Under(p, folder) <==> exists rest :: p == folder + rest
  {
    if Under(p, folder) {
      assert p == folder + p[|folder|..];
    }
  }

  /** A later upload or delete of the file replaces an upload, and so does removing a folder
      above it or moving something onto it or there. */
  lemma ReplacesMeans(op: Op, p: Path)
    ensures Replaces(op, p) <==>
              || ((op.Put? || op.Finish? || op.Unlink?) && op.path == p)
              || (op.RmDir? && exists rest :: p == op.path + rest)
              || (op.Rename? && exists rest :: p == op.to + rest)
  {
    forall folder ensures Under(p, folder) <==> exists rest :: p == folder + rest {
      UnderMeans(p, folder);
    }
  }

  /** What was at or below `from` is at the same place at or below `to`; all else stays. */
  ghost predicate FollowsMove(x: Path, y: Path, from: Path, to: Path) {
    && (forall rest :: x == from + rest ==> y == to + rest)
    && ((forall rest :: x != from + rest) ==> y == x)
  }

  lemma RewriteFollows(x: Path, from: Path, to: Path)
    ensures FollowsMove(x, Rewrite(x, from, to), from, to)
  {
    UnderMeans(x, from);
  }

  /** What a rename of `from` to `to` on the version `cond` makes of a queued entry: nothing, if
      a worker holds it; otherwise its paths follow the move, and an unconditional upload that
      thereby comes to be of `to` itself takes over the condition. */
  ghost predicate FollowsRename(e: Entry, f: Entry, from: Path, to: Path, cond: Option<string>) {
    if e.inFlight || e.retargeted then f == e
    else
      && f == e.(op := f.op)
      && match e.op
         case Rename(a, b, copy, c) =>
           f.op.Rename? && FollowsMove(a, f.op.from, from, to) && FollowsMove(b, f.op.to, from, to)
           && f.op.copy == copy && f.op.ifMatch == c
         case Put(x, staging, c) =>
           f.op.Put? && FollowsMove(x, f.op.path, from, to) && f.op.staging == staging
           && f.op.ifMatch == if c == None && f.op.path == to then cond else c
         case Finish(x, staging, c, session, whole) =>
           f.op.Finish? && FollowsMove(x, f.op.path, from, to) && f.op.staging == staging
           && f.op.session == session && f.op.whole == whole
           && f.op.ifMatch == if c == None && f.op.path == to then cond else c
         case MkDir(x) => f.op.MkDir? && FollowsMove(x, f.op.path, from, to)
         case Unlink(x) => f.op.Unlink? && FollowsMove(x, f.op.path, from, to)
         case RmDir(x) => f.op.RmDir? && FollowsMove(x, f.op.path, from, to)
  }

  /** `r` is what of `q` is to be kept, all of it and in order. */
  ghost predicate Sifted(q: seq<Entry>, r: seq<Entry>, keep: Entry -> bool) {
    exists at: seq<nat> :: SiftedAt(q, r, keep, at)
  }

  ghost predicate SiftedAt(q: seq<Entry>, r: seq<Entry>, keep: Entry -> bool, at: seq<nat>) {
    && |at| == |r| && (forall i, j :: 0 <= i < j < |at| ==> at[i] < at[j])
    && (forall i :: 0 <= i < |at| ==> at[i] < |q| && r[i] == q[at[i]])
    && forall k :: 0 <= k < |q| ==> (keep(q[k]) <==> k in at)
  }

  lemma {:induction false} KeepSifts(q: seq<Entry>, f: Entry -> bool) returns (at: seq<nat>)
    ensures SiftedAt(q, Keep(q, f), f, at) && Sifted(q, Keep(q, f), f)
  {
    if q == [] {
      at := [];
    } else {
      var n := |q| - 1;
      var was := KeepSifts(q[..n], f);
      at := if f(q[n]) then was + [n] else was;
      SiftsOneMore(q, Keep(q[..n], f), f, was, at);
    }
    assert SiftedAt(q, Keep(q, f), f, at);
  }

  lemma SiftsOneMore(q: seq<Entry>, r: seq<Entry>, f: Entry -> bool, was: seq<nat>, at: seq<nat>)
    requires q != [] && SiftedAt(q[..|q| - 1], r, f, was)
    requires at == if f(q[|q| - 1]) then was + [|q| - 1] else was
    ensures SiftedAt(q, r + if f(q[|q| - 1]) then [q[|q| - 1]] else [], f, at)
  {
    var n := |q| - 1;
    forall i | 0 <= i < |was| ensures was[i] < n && was[i] in was {
    }
    forall k | 0 <= k < |q| ensures f(q[k]) <==> k in at {
      if k < n {
        assert f(q[..n][k]) <==> k in was;
      } else if f(q[n]) {
        assert at[|was|] == n;
      }
    }
  }

  /** The same test in other words keeps the same. */
  lemma SameSift(q: seq<Entry>, r: seq<Entry>, f: Entry -> bool, g: Entry -> bool)
    requires Sifted(q, r, f) && forall e :: f(e) == g(e)
    ensures Sifted(q, r, g)
  {
    var at :| SiftedAt(q, r, f, at);
    assert SiftedAt(q, r, g, at);
  }

  // ── what becomes of the queue ────────────────────────────────────────────

  function Keep(q: seq<Entry>, f: Entry -> bool): seq<Entry> {
    if q == [] then []
    else Keep(q[..|q| - 1], f) + if f(q[|q| - 1]) then [q[|q| - 1]] else []
  }

  function Each(q: seq<Entry>, f: Entry -> Entry): seq<Entry> {
    seq(|q|, i requires 0 <= i < |q| => f(q[i]))
  }

  function Position(q: seq<Entry>, seqNo: nat): (i: nat)
    ensures i <= |q|
    ensures i < |q| ==> q[i].seqNo == seqNo
    ensures forall k :: 0 <= k < i ==> q[k].seqNo != seqNo
  {
    if q == [] then 0 else if q[0].seqNo == seqNo then 0 else Position(q[1..], seqNo) + 1
  }

  predicate Conditional(op: Op, p: Path) {
    IsUploadOf(op, p) && op.ifMatch.Some?
  }

  /** A delete drops what is queued for a file the server has never seen. */
  function Coalesced(q: seq<Entry>, op: Op): seq<Entry> {
    match op
    case Unlink(p) =>
      if exists i :: 0 <= i < |q| && Conditional(q[i].op, p) then q
      else Keep(q, (e: Entry) => !IsUploadOf(e.op, p) && e.op != MkDir(p))
    case RmDir(p) => Keep(q, (e: Entry) => e.op != MkDir(p))
    case _ => q
  }

  /** A rename re-points what no worker holds; an upload that thereby lands on the
      destination itself takes over the rename's condition. */
  function Renamed(e: Entry, op: Op): Entry {
    if !op.Rename? || e.inFlight || e.retargeted then e
    else
      var o := Repointed(e.op, op.from, op.to);
      e.(op := if IsUploadOf(o, op.to) && o.ifMatch == None then WithCondition(o, op.ifMatch) else o)
  }

  function NewEntry(seqNo: nat, op: Op): Entry {
    Entry(seqNo, op, 0, false, false, false, false)
  }

  function Enqueued(q: seq<Entry>, seqNo: nat, op: Op): seq<Entry> {
    Each(Coalesced(q, op), (e: Entry) => Renamed(e, op)) + [NewEntry(seqNo, op)]
  }

  // ── the same, said of the entries ────────────────────────────────────────

  /** What a new change drops: for a folder's delete the queued making of it; for a file's, if no
      upload of it is conditional on a version the server had, all uploads and makings of it. */
  ghost predicate Coalesces(q: seq<Entry>, r: seq<Entry>, op: Op) {
    match op
    case RmDir(p) => Sifted(q, r, (e: Entry) => !(e.op.MkDir? && e.op.path == p))
    case Unlink(p) =>
      if exists i :: 0 <= i < |q| && (q[i].op.Put? || q[i].op.Finish?) && q[i].op.path == p && q[i].op.ifMatch != None
      then r == q
      else Sifted(q, r, (e: Entry) => !((e.op.Put? || e.op.Finish? || e.op.MkDir?) && e.op.path == p))
    case _ => r == q
  }

  lemma CoalescedRight(q: seq<Entry>, op: Op)
    ensures Coalesces(q, Coalesced(q, op), op)
  {
    match op
    case RmDir(p) =>
      KeepMeans(q, (e: Entry) => e.op != MkDir(p), (e: Entry) => !(e.op.MkDir? && e.op.path == p));
    case Unlink(p) => DeleteCoalescedRight(q, p);
    case _ =>
  }

  lemma DeleteCoalescedRight(q: seq<Entry>, p: Path)
    ensures Coalesces(q, Coalesced(q, Unlink(p)), Unlink(p))
  {
    if exists i :: 0 <= i < |q| && Conditional(q[i].op, p) {
      var i :| 0 <= i < |q| && Conditional(q[i].op, p);
      assert q[i].op.ifMatch != None;
    } else {
      assert forall i :: 0 <= i < |q| ==> !Conditional(q[i].op, p);
      KeepMeans(q, (e: Entry) => !IsUploadOf(e.op, p) && e.op != MkDir(p),
                (e: Entry) => !((e.op.Put? || e.op.Finish? || e.op.MkDir?) && e.op.path == p));
    }
  }

  lemma KeepMeans(q: seq<Entry>, f: Entry -> bool, g: Entry -> bool)
    requires forall e :: f(e) == g(e)
    ensures Sifted(q, Keep(q, f), g)
  {
    var _ := KeepSifts(q, f);
    SameSift(q, Keep(q, f), f, g);
  }

  /** The queue once `op` is in it: what it drops is gone, what a rename re-points is re-pointed,
      and it is at the back. */
  ghost predicate Enqueues(q: seq<Entry>, r: seq<Entry>, seqNo: nat, op: Op) {
    exists mid: seq<Entry> :: EnqueuesBehind(q, mid, r, seqNo, op)
  }

  ghost predicate EnqueuesBehind(q: seq<Entry>, mid: seq<Entry>, r: seq<Entry>, seqNo: nat, op: Op) {
    && Coalesces(q, mid, op) && |r| == |mid| + 1
    && r[|mid|] == Entry(seqNo, op, 0, false, false, false, false)
    && forall k :: 0 <= k < |mid| ==>
         if op.Rename? then FollowsRename(mid[k], r[k], op.from, op.to, op.ifMatch) else r[k] == mid[k]
  }

  lemma EnqueuedRight(q: seq<Entry>, seqNo: nat, op: Op)
    ensures Enqueues(q, Enqueued(q, seqNo, op), seqNo, op)
  {
    var mid, r := Coalesced(q, op), Enqueued(q, seqNo, op);
    CoalescedRight(q, op);
    forall k | 0 <= k < |mid|
      ensures if op.Rename? then FollowsRename(mid[k], r[k], op.from, op.to, op.ifMatch) else r[k] == mid[k]
    {
      if op.Rename? {
        RenamedRight(mid[k], op);
      }
    }
    assert EnqueuesBehind(q, mid, r, seqNo, op);
  }

  lemma RenamedRight(e: Entry, op: Op)
    requires op.Rename?
    ensures FollowsRename(e, Renamed(e, op), op.from, op.to, op.ifMatch)
  {
    RewriteFollows(PathOf(e.op), op.from, op.to);
    if e.op.Rename? {
      RewriteFollows(e.op.to, op.from, op.to);
    }
  }

  /** The one queued upload of a file the server has never seen, that nothing else queued
      depends on and no request has named. */
  predicate MayRetarget(q: seq<Entry>, i: nat, from: Path) {
    && i < |q|
    && q[i].op.Put? && q[i].op.path == from && q[i].op.ifMatch == None && !q[i].destFixed
    && forall k :: 0 <= k < |q| && k != i ==> !Touches(q[k].op, from)
  }

  /** Entry `i` is an unconditional whole-file upload of `from` whose destination is not settled;
      no other upload or delete of that file is queued, nothing that makes or removes it or a folder
      above it, and no move of or onto either. */
  ghost predicate RetargetableAt(q: seq<Entry>, i: nat, from: Path) {
    && i < |q| && (exists staging :: q[i].op == Put(from, staging, None)) && !q[i].destFixed
    && forall k :: 0 <= k < |q| && k != i ==>
         match q[k].op
         case Put(p, _, _) => p != from
         case Finish(p, _, _, _, _) => p != from
         case Unlink(p) => p != from
         case MkDir(p) => forall rest :: from != p + rest
         case RmDir(p) => forall rest :: from != p + rest
         case Rename(a, b, _, _) => forall rest :: from != a + rest && from != b + rest
  }

  ghost predicate RetargetsAt(
      q: seq<Entry>, r: seq<Entry>, i: nat, from: Path, to: Path, base: Option<string>) {
    && RetargetableAt(q, i, from)
    && r == q[..i] + q[i + 1..] + [q[i].(op := Put(to, q[i].op.staging, base), retargeted := true)]
  }

  lemma MayRetargetMeans(q: seq<Entry>, i: nat, from: Path)
    ensures MayRetarget(q, i, from) <==> RetargetableAt(q, i, from)
  {
    forall k | 0 <= k < |q| {
      TouchesMeans(q[k].op, from);
    }
  }

  function Retargeted(e: Entry, to: Path, base: Option<string>): Entry
    requires e.op.Put?
  {
    e.(op := Put(to, e.op.staging, base), retargeted := true)
  }

  /** It goes to the back under its new name. */
  function Reordered(q: seq<Entry>, i: nat, to: Path, base: Option<string>): seq<Entry>
    requires i < |q| && q[i].op.Put?
  {
    q[..i] + q[i + 1..] + [Retargeted(q[i], to, base)]
  }

  function PendingBase(q: seq<Entry>, p: Path): Option<Option<string>> {
    if q == [] then None
    else
      var op := q[|q| - 1].op;
      if IsUploadOf(op, p) then Some(op.ifMatch)
      else if Replaces(op, p) then Some(None)
      else PendingBase(q[..|q| - 1], p)
  }

  /** `p` went from `sent` to `now` by one of our own changes. */
  function RebasedOp(op: Op, p: Path, sent: Option<string>, now: Option<string>): Op {
    if sent.Some? && (IsUploadOf(op, p) || (op.Rename? && op.to == p)) && op.ifMatch == sent then WithCondition(op, now)
    else op
  }

  /** An upload of `p`, or a move onto it, conditional on `cond`. */
  ghost predicate SentOn(op: Op, p: Path, cond: Option<string>) {
    || ((op.Put? || op.Finish?) && op.path == p && op.ifMatch == cond)
    || (op.Rename? && op.to == p && op.ifMatch == cond)
  }

  ghost predicate SameButCondition(e: Entry, f: Entry) {
    && f == e.(op := f.op)
    && match e.op
       case Put(p, staging, _) => f.op.Put? && f.op == Put(p, staging, f.op.ifMatch)
       case Finish(p, staging, _, session, whole) => f.op.Finish?
           && f.op == Finish(p, staging, f.op.ifMatch, session, whole)
       case Rename(a, b, copy, _) => f.op.Rename? && f.op == Rename(a, b, copy, f.op.ifMatch)
       case _ => f == e
  }

  function Rebased(q: seq<Entry>, p: Path, sent: Option<string>, now: Option<string>): seq<Entry> {
    Each(q, (e: Entry) => e.(op := RebasedOp(e.op, p, sent, now)))
  }

  function Superseded(q: seq<Entry>, p: Path, newest: nat): seq<Entry> {
    Keep(q, (e: Entry) => !(e.seqNo < newest && !e.inFlight && IsUploadOf(e.op, p)))
  }

  function Removed(q: seq<Entry>, seqNo: nat): seq<Entry> {
    Keep(q, (e: Entry) => e.seqNo != seqNo)
  }

  function HandedBack(e: Entry, counted: bool): Entry {
    e.(attempts := if counted then e.attempts + 1 else e.attempts, failed := true, inFlight := false,
        destFixed := false)
  }

  function Claimed(q: seq<Entry>, seqNo: nat): seq<Entry> {
    var i := Position(q, seqNo);
    if i < |q| then q[i := q[i].(inFlight := true)] else q
  }

  function GivenBack(q: seq<Entry>, seqNo: nat, counted: bool): seq<Entry> {
    var i := Position(q, seqNo);
    if i < |q| then q[i := HandedBack(q[i], counted)] else q
  }

  function WithCopy(e: Entry, staging: nat): Entry
    requires e.op.Rename?
  {
    e.(op := Rename(e.op.from, e.op.to, Some(staging), e.op.ifMatch))
  }

  predicate TakesCopy(op: Op, uploadedAs: Path) {
    op.Rename? && op.from == uploadedAs && op.copy == None
  }

  ghost predicate AwaitsCopy(op: Op, uploadedAs: Path) {
    exists to, cond :: op == Rename(uploadedAs, to, None, cond)
  }

  /** The first queued move that waits for a copy of `uploadedAs`. */
  function Taker(q: seq<Entry>, uploadedAs: Path): (i: nat)
    ensures i <= |q| && (i < |q| ==> TakesCopy(q[i].op, uploadedAs))
    ensures forall k :: 0 <= k < i ==> !TakesCopy(q[k].op, uploadedAs)
  {
    if q == [] || TakesCopy(q[0].op, uploadedAs) then 0 else Taker(q[1..], uploadedAs) + 1
  }

  function HandedCopy(q: seq<Entry>, uploadedAs: Path, staging: nat): seq<Entry> {
    var i := Taker(q, uploadedAs);
    if i < |q| then q[i := WithCopy(q[i], staging)] else q
  }

  datatype Settled = Go(path: Path, ifMatch: Option<string>) | Wait | Deferred | Withdrawn

  predicate Overtaken(q: seq<Entry>, i: nat, p: Path) {
    exists k :: i < k < |q| && Replaces(q[k].op, p)
  }

  /** The first change ahead of `i` that touches `p`, or `i`. */
  function Ahead(q: seq<Entry>, i: nat, p: Path): (k: nat)
    requires i <= |q|
    ensures k <= i && (k < i ==> Touches(q[k].op, p))
    ensures forall j :: 0 <= j < k ==> !Touches(q[j].op, p)
  {
    if i == 0 then 0
    else if Touches(q[0].op, p) then 0
    else Ahead(q[1..], i - 1, p) + 1
  }

  /** The answer to a live upload about to name its destination, and the queue after it. */
  function Settling(q: seq<Entry>, seqNo: nat, startedAs: Path, ifMatch: Option<string>): (Settled, seq<Entry>) {
    var i := Position(q, seqNo);
    if i == |q| then (Withdrawn, q)
    else if !q[i].retargeted then (Go(startedAs, ifMatch), q[i := q[i].(destFixed := true)])
    else
      var dest := PathOf(q[i].op);
      if Overtaken(q, i, dest) then (Withdrawn, q[..i] + q[i + 1..])
      else
        var k := Ahead(q, i, dest);
        if k == i then
          (Go(dest, if q[i].op.Put? then q[i].op.ifMatch else None), q[i := q[i].(destFixed := true)])
        else if q[k].inFlight || !q[k].failed then (Wait, q)
        else (Deferred, GivenBack(q, seqNo, false))
  }

  /** The first entry numbered `seqNo`. */
  ghost predicate FirstAt(q: seq<Entry>, i: nat, seqNo: nat) {
    i < |q| && q[i].seqNo == seqNo && forall k :: 0 <= k < i ==> q[k].seqNo != seqNo
  }

  /** The upload is not queued any more: withdrawn. It was not re-pointed by name: it goes where it
      was started for. It was, and a later change replaces it: withdrawn. An earlier one touches
      its destination: it waits if the first of these is being worked on or untried, and is put off
      with its attempts uncounted otherwise. Nothing stands in its way: it goes, under its condition. */
  ghost predicate Settles(
      q: seq<Entry>, r: seq<Entry>, seqNo: nat, startedAs: Path, ifMatch: Option<string>, answer: Settled) {
    if forall i :: 0 <= i < |q| ==> q[i].seqNo != seqNo then answer == Withdrawn && r == q
    else exists i: nat :: FirstAt(q, i, seqNo) && SettlesAt(q, r, i, startedAs, ifMatch, answer)
  }

  ghost predicate SettlesAt(
      q: seq<Entry>, r: seq<Entry>, i: nat, startedAs: Path, ifMatch: Option<string>, answer: Settled)
    requires i < |q|
  {
    if !q[i].retargeted then answer == Go(startedAs, ifMatch) && r == q[i := q[i].(destFixed := true)]
    else
      var dest := if q[i].op.Rename? then q[i].op.from else q[i].op.path;
      if exists k :: i < k < |q| && Replaces(q[k].op, dest) then answer == Withdrawn && r == q[..i] + q[i + 1..]
      else if forall k :: 0 <= k < i ==> !Touches(q[k].op, dest) then
        && answer == Go(dest, if q[i].op.Put? then q[i].op.ifMatch else None)
        && r == q[i := q[i].(destFixed := true)]
      else exists k: nat :: k < i && Touches(q[k].op, dest) && (forall j :: 0 <= j < k ==> !Touches(q[j].op, dest))
             && if q[k].inFlight || !q[k].failed then answer == Wait && r == q
                else answer == Deferred && r == q[i := q[i].(failed := true, inFlight := false, destFixed := false)]
  }

  lemma SettlingRight(q: seq<Entry>, seqNo: nat, startedAs: Path, ifMatch: Option<string>)
    ensures
      var (answer, r) := Settling(q, seqNo, startedAs, ifMatch);
      Settles(q, r, seqNo, startedAs, ifMatch, answer)
  {
    var i := Position(q, seqNo);
    var (answer, r) := Settling(q, seqNo, startedAs, ifMatch);
    if i < |q| {
      assert FirstAt(q, i, seqNo);
      if q[i].retargeted && !Overtaken(q, i, PathOf(q[i].op)) {
        var k := Ahead(q, i, PathOf(q[i].op));
        assert k < i ==> Touches(q[k].op, PathOf(q[i].op));
      }
      assert SettlesAt(q, r, i, startedAs, ifMatch, answer);
    }
  }

  ghost predicate ClaimedAt(q: seq<Entry>, r: seq<Entry>, i: nat, seqNo: nat) {
    FirstAt(q, i, seqNo) && r == q[i := q[i].(inFlight := true)]
  }

  /** The entry is nobody's again, has an error on record, and has its attempt counted or not. */
  ghost predicate HandsBack(q: seq<Entry>, r: seq<Entry>, seqNo: nat, attempts: nat) {
    if forall i :: 0 <= i < |q| ==> q[i].seqNo != seqNo then r == q
    else exists i: nat :: BackAt(q, r, i, seqNo, attempts)
  }

  ghost predicate BackAt(q: seq<Entry>, r: seq<Entry>, i: nat, seqNo: nat, attempts: nat) {
    && FirstAt(q, i, seqNo)
    && r == q[i := Entry(q[i].seqNo, q[i].op, q[i].attempts + attempts, true, false, q[i].retargeted, false)]
  }

  lemma GivenBackRight(q: seq<Entry>, seqNo: nat, counted: bool)
    ensures HandsBack(q, GivenBack(q, seqNo, counted), seqNo, if counted then 1 else 0)
  {
    var i := Position(q, seqNo);
    if i < |q| {
      assert BackAt(q, GivenBack(q, seqNo, counted), i, seqNo, if counted then 1 else 0);
    }
  }

  /** What a queued save is based on: the condition of the newest queued upload of the file, or none
      if something newer replaces the file. */
  lemma {:induction false} PendingBaseMeans(q: seq<Entry>, p: Path) returns (k: nat)
    ensures k <= |q| && (forall j :: k <= j < |q| ==> !Replaces(q[j].op, p))
    ensures k > 0 ==> Replaces(q[k - 1].op, p)
    ensures PendingBase(q, p) ==
              if k == 0 then None
              else Some(if q[k - 1].op.Put? || q[k - 1].op.Finish? then q[k - 1].op.ifMatch else None)
  {
    k := |q|;
    if q != [] && !Replaces(q[|q| - 1].op, p) {
      k := PendingBaseMeans(q[..|q| - 1], p);
    }
  }

  // ── the journal ──────────────────────────────────────────────────────────

  lemma KeepSnoc(q: seq<Entry>, i: nat, f: Entry -> bool)
    requires i < |q|
    ensures Keep(q[..i + 1], f) == Keep(q[..i], f) + if f(q[i]) then [q[i]] else []
  {
    assert q[..i + 1][..i] == q[..i];
  }

  /** Seq numbers never repeat. */
  ghost predicate Numbered(q: seq<Entry>, next: nat) {
    && (forall i :: 0 <= i < |q| ==> q[i].seqNo < next)
    && forall i, j :: 0 <= i < j < |q| ==> q[i].seqNo != q[j].seqNo
  }

  class Queue {
    var entries: seq<Entry>
    var nextSeq: nat

    constructor ()
      ensures entries == [] && nextSeq == 1
    {
      entries, nextSeq := [], 1;
    }

    method Retain(f: Entry -> bool)
      modifies this`entries
      ensures entries == Keep(old(entries), f)
    {
      var kept, all := [], entries;
      for i := 0 to |all|
        invariant all == entries && kept == Keep(all[..i], f)
      {
        KeepSnoc(all, i, f);
        if f(all[i]) {
          kept := kept + [all[i]];
        }
      }
      assert all[..|all|] == all;
      entries := kept;
    }

    method Coalesce(op: Op)
      modifies this`entries
      ensures entries == Coalesced(old(entries), op) && Coalesces(old(entries), entries, op)
    {
      CoalescedRight(entries, op);
      match op
      case Unlink(p) =>
        var conditional := false;
        for i := 0 to |entries|
          invariant conditional <==> exists k :: 0 <= k < i && Conditional(entries[k].op, p)
        {
          conditional := conditional || Conditional(entries[i].op, p);
        }
        if !conditional {
          Retain((e: Entry) => !IsUploadOf(e.op, p) && e.op != MkDir(p));
        }
      case RmDir(p) =>
        Retain((e: Entry) => e.op != MkDir(p));
      case _ =>
    }

    method Enqueue(op: Op) returns (seqNo: nat)
      modifies this
      ensures seqNo == old(nextSeq) && nextSeq == seqNo + 1
      ensures entries == Enqueued(old(entries), seqNo, op) && Enqueues(old(entries), entries, seqNo, op)
    {
      EnqueuedRight(entries, nextSeq, op);
      Coalesce(op);
      ghost var q := entries;
      if op.Rename? {
        for i := 0 to |entries|
          invariant |entries| == |q| && nextSeq == old(nextSeq)
          invariant forall k :: 0 <= k < |q| ==> entries[k] == if k < i then Renamed(q[k], op) else q[k]
        {
          entries := entries[i := Renamed(entries[i], op)];
        }
      }
      assert entries == Each(q, (e: Entry) => Renamed(e, op));
      seqNo := nextSeq;
      nextSeq := nextSeq + 1;
      entries := entries + [NewEntry(seqNo, op)];
    }

    method DequeueFront() returns (e: Option<Entry>)
      modifies this`entries
      ensures old(entries) == [] ==> e == None && entries == []
      ensures old(entries) != [] ==> e == Some(old(entries)[0]) && entries == old(entries)[1..]
    {
      if entries == [] {
        return None;
      }
      e := Some(entries[0]);
      entries := entries[1..];
    }

    method RetargetUpload(from: Path, to: Path, base: Option<string>) returns (did: bool)
      modifies this`entries
      ensures did <==> exists i :: MayRetarget(old(entries), i, from)
      ensures !did ==> entries == old(entries)
      ensures did ==> exists i :: MayRetarget(old(entries), i, from) && entries == Reordered(old(entries), i, to, base)
      ensures did <==> exists i: nat :: RetargetableAt(old(entries), i, from)
      ensures did ==> exists i: nat :: RetargetsAt(old(entries), entries, i, from, to, base)
    {
      ghost var q := entries;
      forall i: nat ensures MayRetarget(entries, i, from) <==> RetargetableAt(entries, i, from) {
        MayRetargetMeans(entries, i, from);
      }
      var ups: seq<nat> := [];
      for k := 0 to |entries|
        invariant forall u :: u in ups <==> 0 <= u < k && IsUploadOf(entries[u].op, from)
        invariant forall a :: 0 <= a < |ups| ==> ups[a] < k
        invariant forall a, b :: 0 <= a < b < |ups| ==> ups[a] < ups[b]
      {
        if IsUploadOf(entries[k].op, from) {
          ups := ups + [k];
        }
      }
      if |ups| != 1 {
        forall i ensures !MayRetarget(entries, i, from) {
          AloneInList(entries, i, from, ups);
        }
        return false;
      }
      var i := ups[0];
      assert i in ups;
      var e := entries[i];
      if e.destFixed || !e.op.Put? || e.op.ifMatch != None {
        assert forall k :: MayRetarget(entries, k, from) ==> k in ups;
        return false;
      }
      for k := 0 to |entries|
        invariant forall j :: 0 <= j < k && j != i ==> !Touches(entries[j].op, from)
      {
        if k != i && Touches(entries[k].op, from) {
          assert forall j :: MayRetarget(entries, j, from) ==> j in ups;
          return false;
        }
      }
      assert MayRetarget(entries, i, from);
      entries := entries[..i] + entries[i + 1..] + [Retargeted(e, to, base)];
      assert RetargetsAt(q, entries, i, from, to, base);
      did := true;
    }

    method SettleUpload(seqNo: nat, startedAs: Path, ifMatch: Option<string>) returns (answer: Settled)
      modifies this`entries
      ensures (answer, entries) == Settling(old(entries), seqNo, startedAs, ifMatch)
      ensures Settles(old(entries), entries, seqNo, startedAs, ifMatch, answer)
    {
      SettlingRight(entries, seqNo, startedAs, ifMatch);
      var i := Position(entries, seqNo);
      if i == |entries| {
        return Withdrawn;
      }
      if !entries[i].retargeted {
        entries := entries[i := entries[i].(destFixed := true)];
        return Go(startedAs, ifMatch);
      }
      var dest := PathOf(entries[i].op);
      for k := i + 1 to |entries|
        invariant forall j :: i < j < k ==> !Replaces(entries[j].op, dest)
      {
        if Replaces(entries[k].op, dest) {
          entries := entries[..i] + entries[i + 1..];
          return Withdrawn;
        }
      }
      var before := Ahead(entries, i, dest);
      if before < i {
        if entries[before].inFlight || !entries[before].failed {
          return Wait;
        }
        MarkDeferred(seqNo);
        return Deferred;
      }
      var etag := if entries[i].op.Put? then entries[i].op.ifMatch else None;
      entries := entries[i := entries[i].(destFixed := true)];
      return Go(dest, etag);
    }

    method HandStagingToRename(uploadedAs: Path, staging: nat) returns (took: bool)
      modifies this`entries
      ensures took <==> Taker(old(entries), uploadedAs) < |old(entries)|
      ensures entries == HandedCopy(old(entries), uploadedAs, staging)
      ensures took <==> exists i :: 0 <= i < |old(entries)| && AwaitsCopy(old(entries)[i].op, uploadedAs)
      ensures took ==> exists i: nat ::
                && i < |old(entries)| && AwaitsCopy(old(entries)[i].op, uploadedAs)
                && (forall k :: 0 <= k < i ==> !AwaitsCopy(old(entries)[k].op, uploadedAs))
                && entries == old(entries)[i := old(entries)[i].(op := old(entries)[i].op.(copy := Some(staging)))]
      ensures !took ==> entries == old(entries)
    {
      forall i | 0 <= i < |entries| ensures TakesCopy(entries[i].op, uploadedAs) == AwaitsCopy(entries[i].op,
          uploadedAs) {
      }
      for i := 0 to |entries|
        invariant forall k :: 0 <= k < i ==> !TakesCopy(entries[k].op, uploadedAs)
      {
        if TakesCopy(entries[i].op, uploadedAs) {
          entries := entries[i := WithCopy(entries[i], staging)];
          return true;
        }
      }
      return false;
    }

    method Rebase(p: Path, sent: Option<string>, now: Option<string>)
      modifies this`entries
      ensures entries == Rebased(old(entries), p, sent, now)
      ensures |entries| == |old(entries)|
      ensures forall k :: 0 <= k < |entries| ==>
                if sent != None && SentOn(old(entries)[k].op, p, sent)
                then SentOn(entries[k].op, p, now) && SameButCondition(old(entries)[k], entries[k])
                else entries[k] == old(entries)[k]
    {
      ghost var q := entries;
      if sent == None {
        assert entries == Rebased(q, p, sent, now);
        return;
      }
      for i := 0 to |entries|
        invariant |entries| == |q|
        invariant forall k :: 0 <= k < |q| ==>
          entries[k] == if k < i then q[k].(op := RebasedOp(q[k].op, p, sent, now)) else q[k]
      {
        entries := entries[i := entries[i].(op := RebasedOp(entries[i].op, p, sent, now))];
      }
      assert entries == Rebased(q, p, sent, now);
    }

    method Claim(seqNo: nat) returns (mine: bool)
      modifies this`entries
      ensures
        var i := Position(old(entries), seqNo);
        mine <==> i < |old(entries)| && !old(entries)[i].inFlight
      ensures entries == if mine then Claimed(old(entries), seqNo) else old(entries)
      ensures mine <==> exists i: nat :: FirstAt(old(entries), i, seqNo) && !old(entries)[i].inFlight
      ensures mine ==> exists i: nat :: ClaimedAt(old(entries), entries, i, seqNo)
      ensures !mine ==> entries == old(entries)
    {
      ghost var q := entries;
      assert Position(q, seqNo) < |q| ==> FirstAt(q, Position(q, seqNo), seqNo);
      var i := Position(entries, seqNo);
      if i < |entries| && !entries[i].inFlight {
        entries := entries[i := entries[i].(inFlight := true)];
        assert ClaimedAt(q, entries, i, seqNo);
        return true;
      }
      return false;
    }

    method SupersedeUploads(p: Path, newest: nat)
      modifies this`entries
      ensures entries == Superseded(old(entries), p, newest)
      ensures Sifted(old(entries), entries, (e: Entry) =>
                !((e.op.Put? || e.op.Finish?) && e.op.path == p && e.seqNo < newest && !e.inFlight))
    {
      KeepMeans(entries, (e: Entry) => !(e.seqNo < newest && !e.inFlight && IsUploadOf(e.op, p)),
                (e: Entry) => !((e.op.Put? || e.op.Finish?) && e.op.path == p && e.seqNo < newest && !e.inFlight));
      Retain((e: Entry) => !(e.seqNo < newest && !e.inFlight && IsUploadOf(e.op, p)));
    }

    method MarkFailed(seqNo: nat)
      modifies this`entries
      ensures entries == GivenBack(old(entries), seqNo, true)
      ensures HandsBack(old(entries), entries, seqNo, 1)
    {
      GivenBackRight(entries, seqNo, true);
      var i := Position(entries, seqNo);
      if i < |entries| {
        entries := entries[i := HandedBack(entries[i], true)];
      }
    }

    method MarkDeferred(seqNo: nat)
      modifies this`entries
      ensures entries == GivenBack(old(entries), seqNo, false)
      ensures HandsBack(old(entries), entries, seqNo, 0)
    {
      GivenBackRight(entries, seqNo, false);
      var i := Position(entries, seqNo);
      if i < |entries| {
        entries := entries[i := HandedBack(entries[i], false)];
      }
    }

    method Remove(seqNo: nat)
      modifies this`entries
      ensures entries == Removed(old(entries), seqNo)
      ensures Sifted(old(entries), entries, (e: Entry) => e.seqNo != seqNo)
    {
      KeepMeans(entries, (e: Entry) => e.seqNo != seqNo, (e: Entry) => e.seqNo != seqNo);
      Retain((e: Entry) => e.seqNo != seqNo);
    }
  }

  lemma AloneInList(q: seq<Entry>, i: nat, from: Path, ups: seq<nat>)
    requires forall u :: u in ups <==> 0 <= u < |q| && IsUploadOf(q[u].op, from)
    requires forall a, b :: 0 <= a < b < |ups| ==> ups[a] < ups[b]
    requires |ups| != 1
    ensures !MayRetarget(q, i, from)
  {
    if |ups| > 1 {
      var u := if ups[0] != i then ups[0] else ups[1];
      assert u in ups && Touches(q[u].op, from);
    }
  }
}
