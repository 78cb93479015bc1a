/** Claims on journal entries over any interleaving of journal operations: once a worker has
    been told where its upload goes, nobody moves or takes it. */
module JournalClaims {
  import opened Options
  import opened Journal

  datatype State = State(q: seq<Entry>, next: nat)

  datatype Event =
    | Enqueues(op: Op)
    | Retargets(from: Path, to: Path, base: Option<string>, at: nat)
    | Settles(seqNo: nat, startedAs: Path, ifMatch: Option<string>)
    | HandsCopy(uploadedAs: Path, staging: nat)
    | Rebases(path: Path, sent: Option<string>, now: Option<string>)
    | Claims(seqNo: nat)
    | Supersedes(path: Path, newest: nat)
    | Fails(seqNo: nat)
    | Defers(seqNo: nat)
    | Removes(seqNo: nat)
    | Dequeues

  predicate MayClaim(q: seq<Entry>, seqNo: nat) {
    var i := Position(q, seqNo);
    i < |q| && !q[i].inFlight
  }

  predicate Held(q: seq<Entry>, seqNo: nat) {
    var i := Position(q, seqNo);
    i < |q| ==> q[i].inFlight
  }

  /** Only the worker that claimed an upload asks where it goes. */
  predicate Enabled(s: State, ev: Event) {
    match ev
    case Retargets(from, _, _, at) => MayRetarget(s.q, at, from)
    case Settles(seqNo, _, _) => Held(s.q, seqNo)
    case Claims(seqNo) => MayClaim(s.q, seqNo)
    case Dequeues => s.q != []
    case _ => true
  }

  /** A claim needs an entry nobody has, settling one somebody has (or that is gone), re-pointing
      the one upload it is for, taking the front a front; everything else may happen at any time. */
  lemma EnabledMeans(s: State, ev: Event)
    ensures ev.Claims? ==> (Enabled(s, ev) <==> exists i: nat :: FirstAt(s.q, i, ev.seqNo) && !s.q[i].inFlight)
    ensures ev.Settles? ==> (Enabled(s, ev) <==> forall i: nat :: FirstAt(s.q, i, ev.seqNo) ==> s.q[i].inFlight)
    ensures ev.Retargets? ==> (Enabled(s, ev) <==> RetargetableAt(s.q, ev.at, ev.from))
    ensures ev.Dequeues? ==> (Enabled(s, ev) <==> |s.q| > 0)
    ensures !ev.Claims? && !ev.Settles? && !ev.Retargets? && !ev.Dequeues? ==> Enabled(s, ev)
  {
    if ev.Claims? || ev.Settles? {
      var i := Position(s.q, ev.seqNo);
      assert i < |s.q| ==> FirstAt(s.q, i, ev.seqNo);
    } else if ev.Retargets? {
      MayRetargetMeans(s.q, ev.at, ev.from);
    }
  }

  function After(s: State, ev: Event): State
    requires Enabled(s, ev)
  {
    match ev
    case Enqueues(op) => State(Enqueued(s.q, s.next, op), s.next + 1)
    case Retargets(_, to, base, at) => s.(q := Reordered(s.q, at, to, base))
    case Settles(seqNo, startedAs, ifMatch) => s.(q := Settling(s.q, seqNo, startedAs, ifMatch).1)
    case HandsCopy(uploadedAs, staging) => s.(q := HandedCopy(s.q, uploadedAs, staging))
    case Rebases(p, sent, now) => s.(q := Rebased(s.q, p, sent, now))
    case Claims(seqNo) => s.(q := Claimed(s.q, seqNo))
    case Supersedes(p, newest) => s.(q := Superseded(s.q, p, newest))
    case Fails(seqNo) => s.(q := GivenBack(s.q, seqNo, true))
    case Defers(seqNo) => s.(q := GivenBack(s.q, seqNo, false))
    case Removes(seqNo) => s.(q := Removed(s.q, seqNo))
    case Dequeues => s.(q := s.q[1..])
  }

  /** The worker's upload is put back for someone else to pick up. */
  predicate HandsBack(s: State, ev: Event, seqNo: nat) {
    || ev == Fails(seqNo) || ev == Defers(seqNo)
    || (ev.Settles? && ev.seqNo == seqNo && Settling(s.q, seqNo, ev.startedAs, ev.ifMatch).0 == Deferred)
  }

  predicate IsFixed(e: Entry, seqNo: nat, p: Path) {
    e.seqNo == seqNo && e.inFlight && e.destFixed && PathOf(e.op) == p
  }

  /** A worker holds upload `seqNo` and was told to send it; its path is `p`. */
  predicate Fixed(q: seq<Entry>, seqNo: nat, p: Path) {
    exists i :: 0 <= i < |q| && IsFixed(q[i], seqNo, p)
  }

  predicate Gone(q: seq<Entry>, seqNo: nat) {
    forall i :: 0 <= i < |q| ==> q[i].seqNo != seqNo
  }

  /** Each entry of `r` comes from one of `q`, in order, and keeps its number; one that was
      fixed keeps that. */
  ghost predicate From(q: seq<Entry>, r: seq<Entry>, at: seq<nat>) {
    && |at| == |r|
    && (forall k {:trigger at[k]} :: 0 <= k < |r| ==> at[k] < |q| && Keeps(q[at[k]], r[k]))
    && (forall j, k :: 0 <= j < k < |r| ==> at[j] != at[k])
  }

  predicate Keeps(e: Entry, f: Entry) {
    f.seqNo == e.seqNo && (e.inFlight && e.destFixed ==> f.inFlight && f.destFixed && PathOf(f.op) == PathOf(e.op))
  }

  lemma FromKeepsFixed(q: seq<Entry>, r: seq<Entry>, at: seq<nat>, next: nat, seqNo: nat, p: Path)
    requires Numbered(q, next) && From(q, r, at)
    ensures Numbered(r, next)
    ensures Fixed(q, seqNo, p) ==> Fixed(r, seqNo, p) || Gone(r, seqNo)
    ensures Gone(q, seqNo) ==> Gone(r, seqNo)
  {
    forall k | 0 <= k < |r| ensures r[k].seqNo < next {
      assert Keeps(q[at[k]], r[k]);
    }
    forall j, k | 0 <= j < k < |r| ensures r[j].seqNo != r[k].seqNo {
      assert at[j] != at[k];
    }
    if Fixed(q, seqNo, p) {
      var i :| 0 <= i < |q| && IsFixed(q[i], seqNo, p);
      forall k | 0 <= k < |r| ensures r[k].seqNo == seqNo ==> IsFixed(r[k], seqNo, p) {
        assert r[k].seqNo == seqNo ==> at[k] == i;
      }
    }
    forall k | 0 <= k < |r| && Gone(q, seqNo) ensures r[k].seqNo != seqNo {
      assert Keeps(q[at[k]], r[k]);
    }
  }

  lemma {:induction false} KeepFrom(q: seq<Entry>, f: Entry -> bool) returns (at: seq<nat>)
    ensures From(q, Keep(q, f), at) && forall k :: 0 <= k < |at| ==> at[k] < |q|
  {
    if q == [] {
      at := [];
    } else {
      var n := |q| - 1;
      at := KeepFrom(q[..n], f);
      if f(q[n]) {
        at := at + [n];
      }
    }
  }

  function Counting(n: nat): seq<nat> {
    seq(n, i requires 0 <= i < n => i)
  }

  lemma SameFrom(q: seq<Entry>, r: seq<Entry>)
    requires |r| == |q| && forall k :: 0 <= k < |q| ==> Keeps(q[k], r[k])
    ensures From(q, r, Counting(|q|))
  {
  }

  lemma DroppedFrom(q: seq<Entry>, i: nat, r: seq<Entry>) returns (at: seq<nat>)
    requires i < |q| && r == q[..i] + q[i + 1..]
    ensures From(q, r, at) && forall k :: 0 <= k < |at| ==> at[k] != i
  {
    at := seq(|r|, k requires 0 <= k < |r| => if k < i then k else k + 1);
  }

  lemma RetargetFrom(q: seq<Entry>, i: nat, to: Path, base: Option<string>, from: Path) returns (at: seq<nat>)
    requires MayRetarget(q, i, from)
    ensures From(q, Reordered(q, i, to, base), at)
  {
    at := DroppedFrom(q, i, q[..i] + q[i + 1..]);
    at := at + [i];
  }

  lemma SettleFrom(q: seq<Entry>, seqNo: nat, startedAs: Path, ifMatch: Option<string>) returns (at: seq<nat>)
    requires Held(q, seqNo) && Settling(q, seqNo, startedAs, ifMatch).0 != Deferred
    ensures From(q, Settling(q, seqNo, startedAs, ifMatch).1, at)
  {
    var r := Settling(q, seqNo, startedAs, ifMatch).1;
    if |r| == |q| {
      SameFrom(q, r);
      at := Counting(|q|);
    } else {
      at := DroppedFrom(q, Position(q, seqNo), r);
    }
  }

  lemma CopyFrom(q: seq<Entry>, uploadedAs: Path, staging: nat)
    ensures From(q, HandedCopy(q, uploadedAs, staging), Counting(|q|))
  {
    SameFrom(q, HandedCopy(q, uploadedAs, staging));
  }

  lemma RebaseFrom(q: seq<Entry>, p: Path, sent: Option<string>, now: Option<string>)
    ensures From(q, Rebased(q, p, sent, now), Counting(|q|))
  {
    SameFrom(q, Rebased(q, p, sent, now));
  }

  lemma ClaimFrom(q: seq<Entry>, seqNo: nat)
    ensures From(q, Claimed(q, seqNo), Counting(|q|))
  {
    SameFrom(q, Claimed(q, seqNo));
  }

  lemma EventFrom(s: State, ev: Event) returns (at: seq<nat>)
    requires Enabled(s, ev) && !ev.Enqueues? && !ev.Fails? && !ev.Defers?
    requires !(ev.Settles? && Settling(s.q, ev.seqNo, ev.startedAs, ev.ifMatch).0 == Deferred)
    ensures From(s.q, After(s, ev).q, at)
  {
    var q := s.q;
    at := Counting(|q|);
    match ev
    case Retargets(from, to, base, i) => at := RetargetFrom(q, i, to, base, from);
    case Settles(n, startedAs, ifMatch) => at := SettleFrom(q, n, startedAs, ifMatch);
    case HandsCopy(uploadedAs, staging) => CopyFrom(q, uploadedAs, staging);
    case Rebases(p, sent, now) => RebaseFrom(q, p, sent, now);
    case Claims(n) => ClaimFrom(q, n);
    case Supersedes(p, newest) =>
      at := KeepFrom(q, (e: Entry) => !(e.seqNo < newest && !e.inFlight && IsUploadOf(e.op, p)));
    case Removes(n) => at := KeepFrom(q, (e: Entry) => e.seqNo != n);
    case Dequeues => at := DroppedFrom(q, 0, q[1..]);
  }

  lemma EventKeeps(s: State, ev: Event, seqNo: nat, p: Path)
    requires Enabled(s, ev) && Numbered(s.q, s.next) && seqNo < s.next
    ensures Numbered(After(s, ev).q, After(s, ev).next) && s.next <= After(s, ev).next
    ensures Fixed(s.q, seqNo, p) && !HandsBack(s, ev, seqNo) ==>
              Fixed(After(s, ev).q, seqNo, p) || Gone(After(s, ev).q, seqNo)
    ensures Gone(s.q, seqNo) ==> Gone(After(s, ev).q, seqNo)
  {
    match ev
    case Enqueues(op) => EnqueueKeeps(s.q, s.next, op, seqNo, p);
    case Fails(n) => GivenBackKeeps(s.q, s.next, n, true, seqNo, p);
    case Defers(n) => GivenBackKeeps(s.q, s.next, n, false, seqNo, p);
    case Settles(n, startedAs, ifMatch) =>
      if Settling(s.q, n, startedAs, ifMatch).0 == Deferred {
        GivenBackKeeps(s.q, s.next, n, false, seqNo, p);
      } else {
        var at := EventFrom(s, ev);
        FromKeepsFixed(s.q, After(s, ev).q, at, s.next, seqNo, p);
      }
    case _ =>
      var at := EventFrom(s, ev);
      FromKeepsFixed(s.q, After(s, ev).q, at, s.next, seqNo, p);
  }

  lemma CoalescedFrom(q: seq<Entry>, op: Op) returns (at: seq<nat>)
    ensures From(q, Coalesced(q, op), at)
  {
    at := Counting(|q|);
    match op
    case Unlink(p) =>
      if !(exists i :: 0 <= i < |q| && Conditional(q[i].op, p)) {
        at := KeepFrom(q, (e: Entry) => !IsUploadOf(e.op, p) && e.op != MkDir(p));
      }
    case RmDir(p) => at := KeepFrom(q, (e: Entry) => e.op != MkDir(p));
    case _ =>
  }

  lemma EnqueueKeeps(q: seq<Entry>, next: nat, op: Op, seqNo: nat, p: Path)
    requires Numbered(q, next) && seqNo < next
    ensures Numbered(Enqueued(q, next, op), next + 1)
    ensures Fixed(q, seqNo, p) ==> Fixed(Enqueued(q, next, op), seqNo, p) || Gone(Enqueued(q, next, op), seqNo)
    ensures Gone(q, seqNo) ==> Gone(Enqueued(q, next, op), seqNo)
  {
    var r, t := Enqueued(q, next, op), Coalesced(q, op);
    var at := CoalescedFrom(q, op);
    FromKeepsFixed(q, t, at, next, seqNo, p);
    var u := r[..|t|];
    assert From(t, u, Counting(|t|));
    FromKeepsFixed(t, u, Counting(|t|), next, seqNo, p);
    assert r == u + [NewEntry(next, op)];
    if Fixed(u, seqNo, p) {
      var i :| 0 <= i < |u| && IsFixed(u[i], seqNo, p);
      assert IsFixed(r[i], seqNo, p);
    }
  }

  lemma GivenBackKeeps(q: seq<Entry>, next: nat, n: nat, counted: bool, seqNo: nat, p: Path)
    requires Numbered(q, next)
    ensures Numbered(GivenBack(q, n, counted), next)
    ensures n != seqNo && Fixed(q, seqNo, p) ==> Fixed(GivenBack(q, n, counted), seqNo, p)
    ensures Gone(q, seqNo) ==> Gone(GivenBack(q, n, counted), seqNo)
  {
    var r := GivenBack(q, n, counted);
    if n != seqNo && Fixed(q, seqNo, p) {
      var i :| 0 <= i < |q| && IsFixed(q[i], seqNo, p);
      assert IsFixed(r[i], seqNo, p);
    }
  }

  // ── runs ─────────────────────────────────────────────────────────────────

  ghost predicate IsRun(ss: seq<State>, evs: seq<Event>) {
    && |ss| == |evs| + 1 && ss[0] == State([], 1)
    && forall i :: 0 <= i < |evs| ==> Enabled(ss[i], evs[i]) && ss[i + 1] == After(ss[i], evs[i])
  }

  lemma {:induction false} RunNumbered(ss: seq<State>, evs: seq<Event>, i: nat)
    requires IsRun(ss, evs) && i < |ss|
    ensures Numbered(ss[i].q, ss[i].next) && 1 <= ss[i].next
    decreases i
  {
    if i > 0 {
      RunNumbered(ss, evs, i - 1);
      EventKeeps(ss[i - 1], evs[i - 1], 0, []);
    }
  }

  /** What a worker is told: it holds the entry, and a re-pointed upload goes only when no
      earlier change of its path is still queued and no later one replaces it. */
  lemma GoFixes(s: State, seqNo: nat, startedAs: Path, ifMatch: Option<string>)
    requires Enabled(s, Settles(seqNo, startedAs, ifMatch)) && Settling(s.q, seqNo, startedAs, ifMatch).0.Go?
    ensures
      var i, r := Position(s.q, seqNo), Settling(s.q, seqNo, startedAs, ifMatch);
      && i < |s.q| && Fixed(r.1, seqNo, PathOf(s.q[i].op))
      && (s.q[i].retargeted ==>
            && r.0.path == PathOf(s.q[i].op)
            && (forall k :: 0 <= k < i ==> !Touches(s.q[k].op, r.0.path))
            && (forall k :: i < k < |s.q| ==> !Replaces(s.q[k].op, r.0.path)))
  {
    var i, r := Position(s.q, seqNo), Settling(s.q, seqNo, startedAs, ifMatch);
    assert IsFixed(r.1[i], seqNo, PathOf(s.q[i].op));
  }

  /** A settled destination stays settled: from the answer on, until the worker's upload is
      handed back or gone, its path is the same and nobody else can claim it. */
  lemma SettledStaysSettled(ss: seq<State>, evs: seq<Event>, i: nat, j: nat)
    requires IsRun(ss, evs) && i < j < |ss| && evs[i].Settles?
    requires Settling(ss[i].q, evs[i].seqNo, evs[i].startedAs, evs[i].ifMatch).0.Go?
    requires forall k :: i < k < j ==> !HandsBack(ss[k], evs[k], evs[i].seqNo)
    ensures Position(ss[i].q, evs[i].seqNo) < |ss[i].q|
    ensures
      var seqNo, p := evs[i].seqNo, PathOf(ss[i].q[Position(ss[i].q, evs[i].seqNo)].op);
      && (Fixed(ss[j].q, seqNo, p) || Gone(ss[j].q, seqNo))
      && !Enabled(ss[j], Claims(seqNo))
  {
    var seqNo := evs[i].seqNo;
    GoFixes(ss[i], seqNo, evs[i].startedAs, evs[i].ifMatch);
    var p := PathOf(ss[i].q[Position(ss[i].q, seqNo)].op);
    RunNumbered(ss, evs, i);
    RunNumbered(ss, evs, j);
    assert ss[i + 1] == After(ss[i], evs[i]);
    FixedStays(ss, evs, i + 1, j, seqNo, p);
    FixedNotClaimed(ss[j].q, ss[j].next, seqNo, p);
  }

  lemma {:induction false} FixedStays(ss: seq<State>, evs: seq<Event>, i: nat, j: nat, seqNo: nat, p: Path)
    requires IsRun(ss, evs) && i <= j < |ss| && Fixed(ss[i].q, seqNo, p) && seqNo < ss[i].next
    requires forall k :: i <= k < j ==> !HandsBack(ss[k], evs[k], seqNo)
    ensures (Fixed(ss[j].q, seqNo, p) || Gone(ss[j].q, seqNo)) && seqNo < ss[j].next
    decreases j
  {
    if i < j {
      FixedStays(ss, evs, i, j - 1, seqNo, p);
      RunNumbered(ss, evs, j - 1);
      EventKeeps(ss[j - 1], evs[j - 1], seqNo, p);
    }
  }

  lemma FixedNotClaimed(q: seq<Entry>, next: nat, seqNo: nat, p: Path)
    requires Numbered(q, next) && (Fixed(q, seqNo, p) || Gone(q, seqNo))
    ensures !MayClaim(q, seqNo)
  {
    if Fixed(q, seqNo, p) {
      var i :| 0 <= i < |q| && IsFixed(q[i], seqNo, p);
      assert Position(q, seqNo) == i;
    }
  }
}
