/** Replaying the journal against a server that may answer anything: it ends, and no file
    queued for upload is lost on the way.

    Requests are answered by an oracle, in the order they are made. */
module JournalReplay {
  import opened Options
  import opened Journal

  /** The server took it; the version it was conditional on is gone (412); something it needs
      is missing (404); try again later; no. */
  datatype Answer = Accepted(etag: Option<string>) | Changed | Missing | Later | Refused

  datatype Outcome = Done | Uploaded(etag: Option<string>) | Conflicted(edit: bool)
    | Idempotent | Retryable | ServerError

  /** Bytes the server has, as the file `of` or as a conflicted copy of it. */
  datatype Kept = Kept(of: Path, copy: bool, bytes: nat)

  // ── what is safe ─────────────────────────────────────────────────────────

  function StagingOf(op: Op): Option<nat> {
    match op
    case Put(_, staging, _) => Some(staging)
    case Finish(_, staging, _, _, _) => Some(staging)
    case Rename(_, _, copy, _) => copy
    case _ => None
  }

  /** An upload whose staging file is the whole file. */
  predicate IsWhole(op: Op) {
    op.Put? || (op.Finish? && op.whole)
  }

  /** Which uploads replay must not lose, and which staging file stands behind an entry: an upload's
      own, or the copy a move was handed. */
  lemma StagingMeans(op: Op, n: nat)
    ensures IsWhole(op) <==> op.Put? || (op.Finish? && op.whole == true)
    ensures StagingOf(op) == Some(n) <==>
              || ((op.Put? || op.Finish?) && op.staging == n)
              || (exists from, to, cond :: op == Rename(from, to, Some(n), cond))
  {
    if op.Rename? && op.copy == Some(n) {
      assert op == Rename(op.from, op.to, Some(n), op.ifMatch);
    }
  }

  predicate SameUpload(e: Entry, f: Entry) {
    f.seqNo == e.seqNo && StagingOf(f.op) == StagingOf(e.op) && f.attempts == e.attempts
    && IsWhole(f.op) == IsWhole(e.op) && (IsWhole(e.op) ==> f.op.path == e.op.path)
  }

  ghost predicate SameUploads(q: seq<Entry>, r: seq<Entry>) {
    |r| == |q| && forall i :: 0 <= i < |q| ==> SameUpload(q[i], r[i])
  }

  ghost predicate OwnStaging(q: seq<Entry>) {
    forall i, j :: 0 <= i < j < |q| && StagingOf(q[i].op).Some? ==> StagingOf(q[i].op) != StagingOf(q[j].op)
  }

  /** Where things are: staging files, the recovery folder, the server. */
  datatype Places = Places(staging: set<nat>, unsynced: map<string, nat>, stored: set<Kept>)

  ghost predicate Queued(q: seq<Entry>, p: Places, e: Entry)
    requires IsWhole(e.op)
  {
    e.op.staging in p.staging
    && exists i :: 0 <= i < |q| && q[i].seqNo == e.seqNo && IsWhole(q[i].op)
                   && q[i].op.path == e.op.path && q[i].op.staging == e.op.staging
  }

  ghost predicate OnServer(p: Places, e: Entry)
    requires IsWhole(e.op)
  {
    Kept(e.op.path, false, e.op.staging) in p.stored || Kept(e.op.path, true, e.op.staging) in p.stored
  }

  ghost predicate Recovered(p: Places, e: Entry)
    requires IsWhole(e.op)
  {
    exists name :: name in p.unsynced && p.unsynced[name] == e.op.staging
  }

  /** The file's bytes are still queued, on the server under its name or as a conflicted copy
      of it, or in the recovery folder. */
  ghost predicate Safe(q: seq<Entry>, p: Places, e: Entry) {
    IsWhole(e.op) ==> Queued(q, p, e) || OnServer(p, e) || Recovered(p, e)
  }

  /** So are all uploads of `all` whose staging file was in `had`. */
  ghost predicate AllSafe(all: seq<Entry>, had: set<nat>, q: seq<Entry>, p: Places) {
    forall k :: 0 <= k < |all| && IsWhole(all[k].op) && all[k].op.staging in had ==> Safe(q, p, all[k])
  }

  ghost predicate Grows(p: Places, p': Places) {
    p.stored <= p'.stored && forall name :: name in p.unsynced ==>
        name in p'.unsynced && p'.unsynced[name] == p.unsynced[name]
  }

  /** The front entry is done with: its staging file may go, once its bytes are elsewhere. */
  lemma FrontGone(all: seq<Entry>, had: set<nat>, q: seq<Entry>, r: seq<Entry>, p: Places, p': Places)
    requires q != [] && SameUploads(q[1..], r) && OwnStaging(q)
    requires AllSafe(all, had, q, p) && Grows(p, p')
    requires forall n :: n in p.staging && StagingOf(q[0].op) != Some(n) ==> n in p'.staging
    requires IsWhole(q[0].op) && q[0].op.staging in p.staging ==> OnServer(p', q[0]) || Recovered(p', q[0])
    ensures AllSafe(all, had, r, p') && OwnStaging(r)
  {
    forall k | 0 <= k < |all| && IsWhole(all[k].op) && all[k].op.staging in had ensures Safe(r, p', all[k]) {
      var e := all[k];
      assert Safe(q, p, e);
      if Queued(q, p, e) {
        var i :| 0 <= i < |q| && q[i].seqNo == e.seqNo && IsWhole(q[i].op) && q[i].op.path == e.op.path
            && q[i].op.staging == e.op.staging;
        if i > 0 {
          assert SameUpload(q[1..][i - 1], r[i - 1]);
          assert Queued(r, p', e);
        }
      }
    }
  }

  lemma SameQueueSafe(all: seq<Entry>, had: set<nat>, q: seq<Entry>, r: seq<Entry>, p: Places, p': Places)
    requires SameUploads(q, r) || (|r| == |q| && forall i :: 0 <= i < |q| ==>
        r[i].seqNo == q[i].seqNo && r[i].op == q[i].op)
    requires AllSafe(all, had, q, p) && Grows(p, p') && p.staging <= p'.staging && OwnStaging(q)
    ensures AllSafe(all, had, r, p') && OwnStaging(r)
  {
    forall k | 0 <= k < |all| && IsWhole(all[k].op) && all[k].op.staging in had ensures Safe(r, p', all[k]) {
      var e := all[k];
      assert Safe(q, p, e);
      if Queued(q, p, e) {
        var i :| 0 <= i < |q| && q[i].seqNo == e.seqNo && IsWhole(q[i].op) && q[i].op.path == e.op.path
            && q[i].op.staging == e.op.staging;
        assert r[i].seqNo == e.seqNo && IsWhole(r[i].op);
        assert Queued(r, p', e);
      }
    }
  }

  // ── room in the recovery folder ──────────────────────────────────────────

  function BaseName(remote: Path): string {
    if remote == [] then "recovered" else remote[|remote| - 1]
  }

  /** A file in the recovery folder is named after the last part of its path. */
  lemma BaseNameMeans(folder: Path, name: string)
    ensures BaseName(folder + [name]) == name && BaseName([]) == "recovered"
  {
  }

  /** The name used when the file's own is taken. */
  function SpareName(e: Entry, stagingName: nat -> string): string
    requires IsWhole(e.op)
  {
    BaseName(e.op.path) + "." + stagingName(e.op.staging)
  }

  /** No upload's spare name is taken, or could be by another of them. */
  ghost predicate Roomy(q: seq<Entry>, unsynced: map<string, nat>, stagingName: nat -> string) {
    && (forall k :: 0 <= k < |q| && IsWhole(q[k].op) ==> SpareName(q[k], stagingName) !in unsynced)
    && forall i, k :: 0 <= i < |q| && 0 <= k < |q| && i != k && IsWhole(q[i].op) && IsWhole(q[k].op) ==>
         SpareName(q[k], stagingName) != BaseName(q[i].op.path)
             && SpareName(q[k], stagingName) != SpareName(q[i], stagingName)
  }

  lemma StillRoomy(q: seq<Entry>, r: seq<Entry>, unsynced: map<string, nat>, unsynced': map<string, nat>,
      stagingName: nat -> string)
    requires q != [] && Roomy(q, unsynced, stagingName) && SameUploads(q[1..], r)
    requires forall name :: name in unsynced' && name !in unsynced ==>
               IsWhole(q[0].op) && (name == BaseName(q[0].op.path) || name == SpareName(q[0], stagingName))
    ensures Roomy(r, unsynced', stagingName)
  {
    forall k | 0 <= k < |r| && IsWhole(r[k].op) ensures SpareName(r[k], stagingName) !in unsynced' {
      assert SameUpload(q[1..][k], r[k]);
    }
    forall i, k | 0 <= i < |r| && 0 <= k < |r| && i != k && IsWhole(r[i].op) && IsWhole(r[k].op)
      ensures SpareName(r[k], stagingName) != BaseName(r[i].op.path)
          && SpareName(r[k], stagingName) != SpareName(r[i], stagingName)
    {
      assert SameUpload(q[1..][i], r[i]) && SameUpload(q[1..][k], r[k]);
    }
  }

  lemma SameRoom(q: seq<Entry>, r: seq<Entry>, unsynced: map<string, nat>, stagingName: nat -> string)
    requires Roomy(q, unsynced, stagingName) && |r| == |q| && forall i :: 0 <= i < |q| ==> r[i].op == q[i].op
    ensures Roomy(r, unsynced, stagingName)
  {
  }

  // ── how much is left to do ───────────────────────────────────────────────

  function Left(e: Entry): nat {
    if e.attempts < MAX_ATTEMPTS then MAX_ATTEMPTS - e.attempts + 1 else 1
  }

  function Work(q: seq<Entry>): nat {
    if q == [] then 0 else Left(q[0]) + Work(q[1..])
  }

  lemma {:induction false} SameWork(q: seq<Entry>, r: seq<Entry>)
    requires |r| == |q| && forall i :: 0 <= i < |q| ==> r[i].attempts == q[i].attempts
    ensures Work(r) == Work(q)
  {
    if q != [] {
      SameWork(q[1..], r[1..]);
    }
  }

  // ── one entry ────────────────────────────────────────────────────────────

  /** How an entry's requests ended, how many there were, and what the server now has. */
  datatype Execution = Execution(outcome: Outcome, requests: nat, kept: set<Kept>)

  function Failure(a: Answer): Outcome {
    if a.Later? then Retryable else ServerError
  }

  /** An upload of `staging` to `p`; one the server has changed meanwhile goes up again as a
      conflicted copy. */
  function SendUpload(p: Path, staging: nat, answers: nat -> Answer, i: nat): Execution {
    match answers(i)
    case Accepted(etag) => Execution(Uploaded(etag), 1, {Kept(p, false, staging)})
    case Missing => Execution(Conflicted(false), 1, {})
    case Changed =>
      if answers(i + 1).Accepted? then Execution(Conflicted(true), 2, {Kept(p, true, staging)})
      else Execution(Failure(answers(i + 1)), 2, {})
    case _ => Execution(Failure(answers(i)), 1, {})
  }

  /** A MOVE; a source gone from the server is uploaded from its local copy instead. */
  function SendMove(copyThere: bool, answers: nat -> Answer, i: nat): Execution {
    var fromCopy := answers(i).Missing? && copyThere;
    var sent, n := answers(if fromCopy then i + 1 else i), if fromCopy then 2 else 1;
    if sent.Accepted? then Execution(Done, n, {})
    else if sent.Missing? then Execution(Conflicted(false), n, {})
    else if !sent.Changed? then Execution(Failure(sent), n, {})
    else
      var again := !fromCopy && answers(i + n).Missing? && copyThere;
      var saved, m := answers(if again then i + n + 1 else i + n), if again then n + 2 else n + 1;
      if saved.Accepted? then Execution(Conflicted(true), m, {})
      else if saved.Missing? then Execution(Conflicted(false), m, {})
      else Execution(Failure(saved), m, {})
  }

  /** An upload that is not put back is on the server, or is left to be recovered. */
  function Execute(op: Op, staging: set<nat>, answers: nat -> Answer, i: nat): (x: Execution)
    ensures IsWhole(op) ==>
      match x.outcome
      case Uploaded(_) => x.kept == {Kept(op.path, false, op.staging)}
      case Conflicted(edit) => x.kept == if edit then {Kept(op.path, true, op.staging)} else {}
      case Retryable => x.kept == {}
      case ServerError => x.kept == {}
      case _ => false
  {
    match op
    case Put(p, n, _) => if n !in staging then Execution(Conflicted(false), 0, {}) else SendUpload(p, n, answers, i)
    case Finish(p, n, _, _, _) => SendUpload(p, n, answers, i)
    case MkDir(_) => Execution(if answers(i).Accepted? then Done else Failure(answers(i)), 1, {})
    case Unlink(_) => SendDelete(answers(i))
    case RmDir(_) => SendDelete(answers(i))
    case Rename(_, _, copy, _) => SendMove(copy.Some? && copy.value in staging, answers, i)
  }

  function SendDelete(a: Answer): Execution {
    Execution(if a.Accepted? then Done else if a.Missing? then Idempotent else Failure(a), 1, {})
  }

  // ── how an entry ends, from the answers alone ────────────────────────────

  /** Whatever the entry, it is put off exactly when its last request was answered Later, and
      counts as tried exactly when that was answered Refused or what the request has no use for:
      for an upload's conflicted copy anything but success, for a folder and a delete a version
      conflict, for a folder also something missing, for a move's copy a version conflict. */
  lemma PutOffOrTried(op: Op, staging: set<nat>, answers: nat -> Answer, i: nat)
    ensures
      var x := Execute(op, staging, answers, i);
      && (x.requests == 0 ==> op.Put? && op.staging !in staging && x.outcome == Conflicted(false))
      && (x.requests > 0 ==>
            var last := answers(i + x.requests - 1);
            && (x.outcome.Retryable? <==> last == Later)
            && (x.outcome.ServerError? <==>
                  || last == Refused
                  || (last == Changed && !((op.Put? || op.Finish?) && x.requests == 1))
                  || (last == Missing && (op.MkDir? || ((op.Put? || op.Finish?) && x.requests == 2)))))
  {
  }

  /** An upload is one request, and a second one for the conflicted copy if the version it was
      conditional on is gone; it lands, or is a conflict with the copy on the server or with nothing
      there, for want of a folder or of a staging file. */
  lemma UploadEnds(op: Op, staging: set<nat>, answers: nat -> Answer, i: nat)
    requires op.Put? || op.Finish?
    ensures
      var x := Execute(op, staging, answers, i);
      var tried := op.Put? ==> op.staging in staging;
      && x.requests == (if !tried then 0 else if answers(i) == Changed then 2 else 1)
      && (forall etag :: x.outcome == Uploaded(etag) <==> tried && answers(i) == Accepted(etag))
      && (x.outcome == Conflicted(true) <==> tried && answers(i) == Changed && answers(i + 1).Accepted?)
      && (x.outcome == Conflicted(false) <==> !tried || answers(i) == Missing)
      && x.outcome != Done && x.outcome != Idempotent
  {
  }

  /** Making a folder is one request, done if taken. */
  lemma MkDirEnds(op: Op, staging: set<nat>, answers: nat -> Answer, i: nat)
    requires op.MkDir?
    ensures
      var x := Execute(op, staging, answers, i);
      && x.requests == 1 && x.kept == {}
      && (x.outcome == Done <==> answers(i).Accepted?)
      && (x.outcome == Done || x.outcome == Retryable || x.outcome == ServerError)
  {
  }

  /** So is a delete; what is gone already counts as deleted. */
  lemma DeleteEnds(op: Op, staging: set<nat>, answers: nat -> Answer, i: nat)
    requires op.Unlink? || op.RmDir?
    ensures
      var x := Execute(op, staging, answers, i);
      && x.requests == 1 && x.kept == {}
      && (x.outcome == Done <==> answers(i).Accepted?) && (x.outcome == Idempotent <==> answers(i) == Missing)
      && (x.outcome == Done || x.outcome == Idempotent || x.outcome == Retryable || x.outcome == ServerError)
  {
  }

  /** A move whose source is missing and that has a local copy uploads that instead (`own`); if the
      version it was conditional on is gone, the same goes under the conflicted copy's name, where
      again a missing source gives way to the local copy. It is done if its own name was taken, a
      conflict with a copy on the server if the other was, and one without if in the end nothing
      was there to send. */
  lemma MoveEnds(op: Op, staging: set<nat>, answers: nat -> Answer, i: nat)
    requires op.Rename?
    ensures
      var x := Execute(op, staging, answers, i);
      var spare := op.copy.Some? && op.copy.value in staging;
      var own := if answers(i) == Missing && spare then i + 1 else i;
      var other := if own == i && answers(own + 1) == Missing && spare then own + 2 else own + 1;
      var last := if answers(own) == Changed then other else own;
      && x.requests == last - i + 1 && x.kept == {}
      && (x.outcome == Done <==> answers(own).Accepted?)
      && (x.outcome == Conflicted(true) <==> answers(own) == Changed && answers(other).Accepted?)
      && (x.outcome == Conflicted(false) <==> answers(last) == Missing)
      && !x.outcome.Uploaded? && x.outcome != Idempotent
  {
  }

  // ── the loop ─────────────────────────────────────────────────────────────

  lemma OwnTail(q: seq<Entry>, r: seq<Entry>)
    requires q != [] && OwnStaging(q) && SameUploads(q[1..], r)
    ensures OwnStaging(r)
  {
  }

  lemma GivenBackOwn(q: seq<Entry>, seqNo: nat, counted: bool)
    requires OwnStaging(q)
    ensures OwnStaging(GivenBack(q, seqNo, counted))
  {
  }

  /** Claiming the front entry changes nothing else. */
  lemma ClaimedFront(all: seq<Entry>, had: set<nat>, q: seq<Entry>, e: Entry, p: Places)
    requires q != [] && q[0] == e && OwnStaging(q)
    ensures
      var r := Claimed(q, e.seqNo);
      && r == [e.(inFlight := true)] + q[1..] && OwnStaging(r) && Work(r) == Work(q)
      && (AllSafe(all, had, q, p) ==> AllSafe(all, had, r, p))
  {
    var r := Claimed(q, e.seqNo);
    assert r[1..] == q[1..];
    if AllSafe(all, had, q, p) {
      SameQueueSafe(all, had, q, r, p, p);
    }
  }

  /** Every pass takes an attempt off the front entry, or the entry off the queue. */
  lemma LessWork(q: seq<Entry>, e: Entry, r: seq<Entry>)
    requires q != [] && q[0] == e && e.attempts < MAX_ATTEMPTS
    requires SameUploads(q[1..], r) || r == GivenBack([e.(inFlight := true)] + q[1..], e.seqNo, true)
    ensures Work(r) < Work(q)
  {
    if SameUploads(q[1..], r) {
      SameWork(q[1..], r);
    } else {
      assert r[1..] == q[1..];
    }
  }

  lemma BackInFront(e: Entry, rest: seq<Entry>)
    requires !e.inFlight
    ensures GivenBack([e.(inFlight := true)] + rest, e.seqNo, false) == [e.(failed := true, destFixed := false)] + rest
  {
  }

  lemma LessByOne(q: seq<Entry>)
    requires q != []
    ensures Work(q[1..]) < Work(q)
  {
  }

  /** What is left of `all` when no request was taken: the first `k` entries are gone, each out of
      attempts or an upload whose staging file was not there, and the others are as they were. */
  ghost predicate Untried(all: seq<Entry>, had: set<nat>, q: seq<Entry>, k: nat) {
    && |q| + k == |all|
    && (forall m :: 0 <= m < |q| ==>
          q[m].seqNo == all[k + m].seqNo && q[m].op == all[k + m].op && q[m].attempts == all[k + m].attempts)
    && (forall m :: 0 <= m < k ==>
          all[m].attempts >= 3 || (all[m].op.Put? && all[m].op.staging !in had))
  }

  /** No staging file of a queued upload has gone. */
  ghost predicate StillThere(q: seq<Entry>, had: set<nat>, staging: set<nat>) {
    forall m :: 0 <= m < |q| && q[m].op.Put? && q[m].op.staging in had ==> q[m].op.staging in staging
  }

  lemma FrontUntried(
      all: seq<Entry>, had: set<nat>, q: seq<Entry>, r: seq<Entry>, k: nat, there: set<nat>, staging: set<nat>)
    requires q != [] && Untried(all, had, q, k) && StillThere(q, had, there) && OwnStaging(q) && r == q[1..]
    requires q[0].attempts >= MAX_ATTEMPTS || (q[0].op.Put? && q[0].op.staging !in there)
    requires forall n :: n in there && StagingOf(q[0].op) != Some(n) ==> n in staging
    ensures Untried(all, had, r, k + 1) && StillThere(r, had, staging)
  {
    forall m | 0 <= m < |r| && r[m].op.Put? && r[m].op.staging in had ensures r[m].op.staging in staging {
      assert r[m] == q[m + 1] && StagingOf(q[m + 1].op) == Some(r[m].op.staging);
    }
  }

  datatype Stop = Empty | Live | Waiting

  class Replay {
    const journal: Queue
    const answers: nat -> Answer
    /** Whether moving a file to the recovery folder works, attempt by attempt. */
    const moves: nat -> bool
    const stagingName: nat -> string
    var asked: nat
    var tried: nat
    var staging: set<nat>
    var unsynced: map<string, nat>
    var stored: set<Kept>
    /** A file could not be moved to the recovery folder, or found both its names taken. */
    ghost var lossy: bool

    ghost function Where(): Places
      reads this
    {
      Places(staging, unsynced, stored)
    }

    constructor (journal: Queue, answers: nat -> Answer, moves: nat -> bool, stagingName: nat -> string, places: Places)
      ensures this.journal == journal && this.answers == answers && this.moves == moves
          && this.stagingName == stagingName
      ensures Where() == places && asked == 0 && tried == 0 && !lossy
    {
      this.journal, this.answers, this.moves, this.stagingName := journal, answers, moves, stagingName;
      asked, tried, lossy := 0, 0, false;
      staging, unsynced, stored := places.staging, places.unsynced, places.stored;
    }

    /** Every recovery works as far as the disk goes. */
    ghost predicate Movable() {
      forall i :: moves(i)
    }

    /** The server cannot be reached. */
    ghost predicate Offline() {
      forall n :: answers(n) == Later
    }

    /** So far nothing is lost, and there is room for what is still queued. */
    ghost predicate NoLoss()
      reads this, journal
    {
      !lossy && Roomy(journal.entries, unsynced, stagingName)
    }

    /** Moves a staging file to the recovery folder, named after the file it was for. */
    method Recover(n: nat, remote: Path) returns (ok: bool)
      modifies this`tried, this`staging, this`unsynced, this`lossy
      ensures tried == old(tried) + 1
      ensures
        var base := BaseName(remote);
        var name := if base in old(unsynced) then base + "." + stagingName(n) else base;
        && (ok <==> n in old(staging) && moves(old(tried)))
        && (lossy <==> old(lossy) || (n in old(staging) && !(ok && name !in old(unsynced))))
        && unsynced == (if ok then old(unsynced)[name := n] else old(unsynced))
        && staging == if ok then old(staging) - {n} else old(staging)
    {
      var base := BaseName(remote);
      var name := base;
      if name in unsynced {
        name := base + "." + stagingName(n);
      }
      ok := n in staging && moves(tried);
      tried := tried + 1;
      lossy := lossy || (n in staging && !(ok && name !in unsynced));
      if ok {
        staging, unsynced := staging - {n}, unsynced[name := n];
      }
    }

    /** What happens to the bytes of an entry that is given up: a whole file is moved to
        safety, the tail of a streamed one is not worth it. */
    method GiveUp(e: Entry, exhausted: bool)
      modifies this`tried, this`staging, this`unsynced, this`lossy
      ensures old(lossy) ==> lossy
      ensures !lossy ==>
          Grows(old(Where()), Where()) && (IsWhole(e.op) && e.op.staging in old(staging) ==> Recovered(Where(), e))
      ensures forall n :: n in old(staging) && StagingOf(e.op) != Some(n) ==> n in staging
      ensures exhausted && e.op.Rename? ==> staging == old(staging)
      ensures IsWhole(e.op) && SpareName(e, stagingName) !in old(unsynced) && Movable() && !old(lossy) ==> !lossy
      ensures forall name :: name in unsynced && name !in old(unsynced) ==>
                IsWhole(e.op) && (name == BaseName(e.op.path) || name == SpareName(e, stagingName))
      ensures !IsWhole(e.op) ==> lossy == old(lossy) && unsynced == old(unsynced)
      ensures
        var goes := StagingOf(e.op).Some? && !(exhausted && e.op.Rename?);
        !IsWhole(e.op) ==> staging == old(staging) - if goes then {StagingOf(e.op).value} else {}
    {
      if IsWhole(e.op) {
        var ok := Recover(e.op.staging, e.op.path);
        if ok {
          var base := BaseName(e.op.path);
          assert !lossy ==>
            unsynced[if base in old(unsynced) then base + "." + stagingName(e.op.staging) else base] == e.op.staging;
        }
      } else if e.op.Finish? || (e.op.Rename? && !exhausted) {
        Discard(e.op);
      }
    }

    method Discard(op: Op)
      modifies this`staging
      ensures staging == old(staging) - (if StagingOf(op).Some? then {StagingOf(op).value} else {})
    {
      if StagingOf(op).Some? {
        staging := staging - {StagingOf(op).value};
      }
    }

    /** An entry out of attempts. */
    method ExhaustedFront(e: Entry, ghost all: seq<Entry>, ghost had: set<nat>)
      requires journal.entries != [] && journal.entries[0].op == e.op
      requires OwnStaging(journal.entries) && (!lossy ==> AllSafe(all, had, journal.entries, Where()))
      modifies this`tried, this`staging, this`unsynced, this`lossy, journal`entries
      ensures journal.entries == old(journal.entries)[1..]
      ensures OwnStaging(journal.entries) && (!lossy ==> AllSafe(all, had, journal.entries, Where()))
      ensures Movable() && old(NoLoss()) ==> NoLoss()
      ensures forall n :: n in old(staging) && StagingOf(e.op) != Some(n) ==> n in staging
    {
      ghost var q, p := journal.entries, Where();
      GiveUp(e, true);
      var _ := journal.DequeueFront();
      if !lossy {
        FrontGone(all, had, q, q[1..], p, Where());
      }
      if old(NoLoss()) {
        StillRoomy(q, q[1..], p.unsynced, unsynced, stagingName);
      }
    }

    /** Runs the front entry; what the server took moves on what is queued behind it. */
    method RunFront(e: Entry, ghost all: seq<Entry>, ghost had: set<nat>) returns (outcome: Outcome)
      requires journal.entries != [] && journal.entries[0] == e.(inFlight := true) && e.attempts < MAX_ATTEMPTS
      requires OwnStaging(journal.entries) && (!lossy ==> AllSafe(all, had, journal.entries, Where()))
      modifies this, journal`entries
      ensures outcome == Execute(e.op, old(staging), answers, old(asked)).outcome
      ensures asked == old(asked) + Execute(e.op, old(staging), answers, old(asked)).requests
      ensures stored == old(stored) + Execute(e.op, old(staging), answers, old(asked)).kept
      ensures outcome.Retryable? || outcome.ServerError? ==> staging == old(staging) && unsynced == old(unsynced)
      ensures forall n :: n in old(staging) && StagingOf(e.op) != Some(n) ==> n in staging
      ensures outcome.Conflicted? ==> journal.entries == old(journal.entries)[1..]
      ensures outcome.Done? || outcome.Uploaded? || outcome.Idempotent? || outcome == Conflicted(true)
              || (outcome == Conflicted(false) && !IsWhole(e.op)) ==>
                unsynced == old(unsynced) && forall n :: n in staging <==>
                    n in old(staging) && StagingOf(e.op) != Some(n)
      ensures outcome.Uploaded? && IsUpload(e.op) ==>
                journal.entries == Rebased(old(journal.entries), e.op.path, e.op.ifMatch, outcome.etag)[1..]
      ensures outcome.Done? && e.op.Rename? ==>
                journal.entries == Rebased(old(journal.entries), e.op.to, e.op.ifMatch, None)[1..]
      ensures OwnStaging(journal.entries) && (!lossy ==> AllSafe(all, had, journal.entries, Where()))
      ensures outcome.Retryable? ==> journal.entries == GivenBack(old(journal.entries), e.seqNo, false)
      ensures outcome.ServerError? ==> journal.entries == GivenBack(old(journal.entries), e.seqNo, true)
      ensures !outcome.Retryable? && !outcome.ServerError? ==> SameUploads(old(journal.entries)[1..], journal.entries)
      ensures Movable() && old(NoLoss()) ==> NoLoss()
    {
      ghost var q, p := journal.entries, Where();
      var x := Execute(e.op, staging, answers, asked);
      asked, stored, outcome := asked + x.requests, stored + x.kept, x.outcome;
      if outcome.Retryable? || outcome.ServerError? {
        PutBack(e, outcome.ServerError?, all, had);
      } else {
        FinishFront(e, outcome, all, had);
      }
    }

    /** The front entry is nobody's again. */
    method PutBack(e: Entry, counted: bool, ghost all: seq<Entry>, ghost had: set<nat>)
      requires journal.entries != [] && journal.entries[0] == e.(inFlight := true)
      requires OwnStaging(journal.entries) && (!lossy ==> AllSafe(all, had, journal.entries, Where()))
      modifies journal`entries
      ensures journal.entries == GivenBack(old(journal.entries), e.seqNo, counted)
      ensures OwnStaging(journal.entries) && (!lossy ==> AllSafe(all, had, journal.entries, Where()))
      ensures old(NoLoss()) ==> NoLoss()
    {
      ghost var q := journal.entries;
      if counted {
        journal.MarkFailed(e.seqNo);
      } else {
        journal.MarkDeferred(e.seqNo);
      }
      if !lossy {
        SameQueueSafe(all, had, q, journal.entries, Where(), Where());
      }
      GivenBackOwn(q, e.seqNo, counted);
      if old(NoLoss()) {
        SameRoom(q, journal.entries, unsynced, stagingName);
      }
    }

    /** The front entry leaves the queue. */
    method FinishFront(e: Entry, outcome: Outcome, ghost all: seq<Entry>, ghost had: set<nat>)
      requires journal.entries != [] && journal.entries[0] == e.(inFlight := true)
      requires OwnStaging(journal.entries) && (!lossy ==> AllSafe(all, had, journal.entries, Where()))
      requires !outcome.Retryable? && !outcome.ServerError?
      requires IsWhole(e.op) ==> (outcome.Uploaded? || outcome == Conflicted(true) ==> OnServer(Where(), e))
      requires IsWhole(e.op) ==> outcome.Uploaded? || outcome.Conflicted?
      modifies this`tried, this`staging, this`unsynced, this`lossy, journal`entries
      ensures OwnStaging(journal.entries) && (!lossy ==> AllSafe(all, had, journal.entries, Where()))
      ensures SameUploads(old(journal.entries)[1..], journal.entries)
      ensures Movable() && old(NoLoss()) ==> NoLoss()
      ensures forall n :: n in old(staging) && StagingOf(e.op) != Some(n) ==> n in staging
      ensures outcome.Conflicted? ==> journal.entries == old(journal.entries)[1..]
      ensures !IsWhole(e.op) || outcome != Conflicted(false) ==>
                unsynced == old(unsynced) && forall n :: n in staging <==>
                    n in old(staging) && StagingOf(e.op) != Some(n)
      ensures outcome.Uploaded? && IsUpload(e.op) ==>
                journal.entries == Rebased(old(journal.entries), e.op.path, e.op.ifMatch, outcome.etag)[1..]
      ensures outcome.Done? && e.op.Rename? ==>
                journal.entries == Rebased(old(journal.entries), e.op.to, e.op.ifMatch, None)[1..]
    {
      ghost var q, p := journal.entries, Where();
      RebaseBehind(e, outcome);
      if outcome == Conflicted(false) {
        GiveUp(e, false);
      } else {
        Discard(e.op);
      }
      var _ := journal.DequeueFront();
      if !lossy {
        FrontGone(all, had, q, journal.entries, p, Where());
      } else {
        OwnTail(q, journal.entries);
      }
      if old(NoLoss()) {
        StillRoomy(q, journal.entries, p.unsynced, unsynced, stagingName);
      }
    }

    method RebaseBehind(e: Entry, outcome: Outcome)
      modifies journal`entries
      ensures SameUploads(old(journal.entries), journal.entries)
      ensures outcome.Uploaded? && IsUpload(e.op) ==>
                journal.entries == Rebased(old(journal.entries), e.op.path, e.op.ifMatch, outcome.etag)
      ensures outcome.Done? && e.op.Rename? ==>
                journal.entries == Rebased(old(journal.entries), e.op.to, e.op.ifMatch, None)
      ensures outcome.Conflicted? ==> journal.entries == old(journal.entries)
    {
      if outcome.Uploaded? && IsUpload(e.op) {
        journal.Rebase(e.op.path, e.op.ifMatch, outcome.etag);
      } else if outcome.Done? && e.op.Rename? {
        journal.Rebase(e.op.to, e.op.ifMatch, None);
      }
    }

    /** One pass: the front entry is given up, run, or put back; `later` if the server asks for a
        pause. */
    method RunOne(e: Entry, ghost all: seq<Entry>, ghost had: set<nat>) returns (later: bool)
      requires journal.entries != [] && journal.entries[0] == e && !e.inFlight
      requires OwnStaging(journal.entries) && (!lossy ==> AllSafe(all, had, journal.entries, Where()))
      modifies this, journal`entries
      ensures OwnStaging(journal.entries) && (!lossy ==> AllSafe(all, had, journal.entries, Where()))
      ensures Movable() && old(NoLoss()) ==> NoLoss()
      ensures asked >= old(asked) && (later ==> asked > old(asked) && answers(asked - 1) == Later)
      ensures later ==>
                && journal.entries == [e.(failed := true, destFixed := false)] + old(journal.entries)[1..]
                && staging == old(staging)
      ensures !later ==> Work(journal.entries) < Work(old(journal.entries))
      ensures !later && Offline() ==> asked == old(asked) && journal.entries == old(journal.entries)[1..]
      ensures !later && Offline() ==>
                e.attempts >= MAX_ATTEMPTS || (e.op.Put? && e.op.staging !in old(staging))
      ensures forall n :: n in old(staging) && StagingOf(e.op) != Some(n) ==> n in staging
    {
      ghost var q := journal.entries;
      ClaimFront(e, all, had);
      if e.attempts >= MAX_ATTEMPTS {
        ExhaustedFront(e, all, had);
        later := false;
        LessByOne(q);
      } else {
        later := Attempt(e, q, all, had);
      }
    }

    method ClaimFront(e: Entry, ghost all: seq<Entry>, ghost had: set<nat>)
      requires journal.entries != [] && journal.entries[0] == e && !e.inFlight
      requires OwnStaging(journal.entries) && (!lossy ==> AllSafe(all, had, journal.entries, Where()))
      modifies journal`entries
      ensures journal.entries == [e.(inFlight := true)] + old(journal.entries)[1..]
      ensures OwnStaging(journal.entries) && (!lossy ==> AllSafe(all, had, journal.entries, Where()))
      ensures old(NoLoss()) ==> NoLoss()
    {
      ghost var q := journal.entries;
      var _ := journal.Claim(e.seqNo);
      ClaimedFront(all, had, q, e, Where());
      if Roomy(q, unsynced, stagingName) {
        SameRoom(q, journal.entries, unsynced, stagingName);
      }
    }

    /** An attempt at the claimed front entry, which was `q[0]` before. */
    method Attempt(e: Entry, ghost q: seq<Entry>, ghost all: seq<Entry>, ghost had: set<nat>) returns (later: bool)
      requires q != [] && q[0] == e && !e.inFlight && e.attempts < MAX_ATTEMPTS
      requires journal.entries == [e.(inFlight := true)] + q[1..]
      requires OwnStaging(journal.entries) && (!lossy ==> AllSafe(all, had, journal.entries, Where()))
      modifies this, journal`entries
      ensures OwnStaging(journal.entries) && (!lossy ==> AllSafe(all, had, journal.entries, Where()))
      ensures Movable() && old(NoLoss()) ==> NoLoss()
      ensures asked >= old(asked) && (later ==> asked > old(asked) && answers(asked - 1) == Later)
      ensures later ==> journal.entries == [e.(failed := true, destFixed := false)] + q[1..] && staging == old(staging)
      ensures !later ==> Work(journal.entries) < Work(q)
      ensures !later && Offline() ==>
                asked == old(asked) && journal.entries == q[1..] && e.op.Put? && e.op.staging !in old(staging)
      ensures forall n :: n in old(staging) && StagingOf(e.op) != Some(n) ==> n in staging
    {
      PutOffOrTried(e.op, staging, answers, asked);
      BackInFront(e, q[1..]);
      var outcome := RunFront(e, all, had);
      later := outcome.Retryable?;
      if !later {
        LessWork(q, e, journal.entries);
      }
    }

    /** Replays from the front until the queue is empty, its front is in a live worker's hands, or
        the server asks for a pause. With a server that cannot be reached no entry leaves by a
        request and none is counted as tried. */
    method ReplayJournal() returns (why: Stop)
      requires OwnStaging(journal.entries) && !lossy
      modifies this, journal
      ensures !lossy ==> AllSafe(old(journal.entries), old(staging), journal.entries, Where())
      ensures Movable() && old(NoLoss()) ==> !lossy
      ensures match why
              case Empty => journal.entries == []
              case Live => journal.entries != [] && journal.entries[0].inFlight
              case Waiting => journal.entries != [] && journal.entries[0].failed && !journal.entries[0].inFlight
      ensures why == Waiting ==> asked > old(asked) && answers(asked - 1) == Later
      ensures Offline() ==> exists k: nat :: Untried(old(journal.entries), old(staging), journal.entries, k)
      ensures Offline() && why != Waiting ==> asked == old(asked)
    {
      ghost var all, had := journal.entries, staging;
      ghost var k: nat := 0;
      while true
        invariant OwnStaging(journal.entries)
        invariant !lossy ==> AllSafe(all, had, journal.entries, Where())
        invariant Movable() && old(NoLoss()) ==> NoLoss()
        invariant asked >= old(asked)
        invariant Offline() ==> asked == old(asked) && Untried(all, had, journal.entries, k)
        invariant Offline() ==> StillThere(journal.entries, had, staging)
        decreases Work(journal.entries)
      {
        if journal.entries == [] {
          return Empty;
        }
        var e := journal.entries[0];
        if e.inFlight {
          return Live;
        }
        ghost var q, there := journal.entries, staging;
        var later := RunOne(e, all, had);
        if later {
          assert Offline() ==> Untried(all, had, journal.entries, k);
          return Waiting;
        }
        if Offline() {
          FrontUntried(all, had, q, journal.entries, k, there, staging);
        }
        k := k + 1;
      }
    }
  }
}
