/** The writer of the restart log: deferred records, block reservation of node ids, and
    compaction while records keep arriving.

    The value `Writer` is what the log lock protects; the class `LogWriter` updates it in
    place. `file` is what would be read back from the log's path, `buf` what is only in memory.
    The file can stop following the daemon without its knowing: see `Link`. */
module RestartWriter {
  import opened Options
  import opened RestartLog

  const RESERVE_BLOCK: nat := 4096

  /** The reservation that covers handing out `ino`: the end of its block. */
  function ReservationAfter(ino: nat): (upto: nat)
    ensures upto > ino && upto % RESERVE_BLOCK == 0 && upto <= ino + RESERVE_BLOCK
  {
    (ino / RESERVE_BLOCK + 1) * RESERVE_BLOCK
  }

  // ── the file ─────────────────────────────────────────────────────────────

  /** What becomes of a write that succeeds. `Follows`: it is added to the file. `Detached`: the
      path names another file by now (the one a compaction put there and could not open), and
      the write goes to the one that is gone. `Torn`: the last line has no newline (if `cut`, it
      is a whole record otherwise), so the first record runs into it and neither can be read.
      `Glued`: an unreadable line is in the file, and a record behind it makes all of it so. */
  datatype Link = Follows | Detached | Torn(cut: bool) | Glued

  /** How the disk answers a write: it takes all of it; or it refuses, after the first `part`
      records and perhaps some of the next one (`begun`), and the log file is removed, or that
      fails as well. */
  datatype Write = Taken | Refused(removed: bool, part: nat, begun: bool)

  /** `lost` is whether a reservation made since the file was last complete is not in it. */
  datatype Log = Log(
    file: seq<Record>, buf: seq<Record>, tail: Option<seq<Record>>, failed: bool, link: Link, lost: bool)

  /** What is written reaches the file at the path. */
  predicate Live(l: Log) {
    !l.failed && l.link.Follows?
  }

  function DropLast(file: seq<Record>): seq<Record> {
    if file == [] then [] else file[..|file| - 1]
  }

  /** What is read back once `buf` is written behind an unended or unreadable line. */
  function Behind(file: seq<Record>, link: Link, buf: seq<Record>): seq<Record> {
    if link.Torn? && |buf| == 1 then if link.cut then DropLast(file) else file else []
  }

  /** What is read back after the first `n` records and perhaps some of the next. */
  function Remains(l: Log, n: nat, begun: bool): seq<Record>
    requires n < |l.buf|
  {
    match l.link
    case Follows => l.file + l.buf[..n]
    case Detached => l.file
    case Torn(cut) => if n > 1 then [] else if cut && (n == 1 || begun) then DropLast(l.file) else l.file
    case Glued => if n > 0 then [] else l.file
  }

  /** ... and what becomes of a write behind that. */
  function RemainsLink(link: Link, n: nat, begun: bool): Link {
    if link.Detached? then link
    else if begun then Torn(false)
    else if link.Torn? && n > 0 then Glued
    else link
  }

  function Flush(l: Log, io: Write): Log {
    if l.failed || l.buf == [] then l
    else if io.Refused? then
      var n := if io.part < |l.buf| then io.part else |l.buf| - 1;
      l.(file := if io.removed then [] else Remains(l, n, io.begun), failed := true,
         link := RemainsLink(l.link, n, io.begun))
    else
      var m := l.(buf := [], tail := if l.tail.Some? then Some(l.tail.value + l.buf) else None);
      match l.link
      case Follows => m.(file := l.file + l.buf)
      case Detached => m
      case _ => m.(file := Behind(l.file, l.link, l.buf), link := Glued)
  }

  /** `now` is whether the record is written through, or the buffer is full. */
  function Append(l: Log, rec: Record, now: bool, io: Write): Log {
    if l.failed then l.(lost := l.lost || rec.Reserve?)
    else if !now then l.(buf := l.buf + [rec])
    else
      var m := Flush(l.(buf := l.buf + [rec]), io);
      m.(lost := l.lost || (rec.Reserve? && !Live(m)))
  }

  /** Everything recorded, written or not. */
  function Written(l: Log): seq<Record> {
    l.file + l.buf
  }

  /** What the records written since the compaction began would be on top of `image`. */
  function Compacted(l: Log, image: seq<Record>): seq<Record>
    requires l.tail.Some?
  {
    image + l.tail.value + l.buf
  }

  /** Flushing a live log changes nothing about what is recorded, and gets all of it to disk;
      or the disk refuses, and the file is gone or ends in what was recorded before. A log that
      has stopped following keeps at most what it had. */
  lemma FlushKeepsLog(l: Log, io: Write)
    ensures
      var m := Flush(l, io);
      && (l.failed ==> m == l)
      && (Live(m) ==> Live(l))
      && (!l.failed && io.Taken? ==> !m.failed)
      && (!m.failed ==>
            && !l.failed && m.buf == [] && m.tail.Some? == l.tail.Some?
            && (l.tail.Some? ==> m.tail.value == l.tail.value + l.buf
                                 && forall image :: Compacted(m, image) == Compacted(l, image)))
      && (Live(m) ==> m.file == Written(l) == Written(m) && l.file <= m.file)
      && (Live(l) && m.failed && m.file != [] ==> l.file <= m.file <= DropLast(Written(l)))
      && (!Live(l) ==> m.file <= l.file)
      && m.lost == l.lost
  {
    var m := Flush(l, io);
    if !m.failed && l.tail.Some? {
      forall image ensures Compacted(m, image) == Compacted(l, image) {
        if l.buf != [] {
          assert image + (l.tail.value + l.buf) + [] == image + l.tail.value + l.buf;
        }
      }
    }
    if Live(l) && m.failed && m.file != [] {
      var n := if io.part < |l.buf| then io.part else |l.buf| - 1;
      assert m.file == l.file + l.buf[..n];
      PartWritten(l.file, l.buf, n);
    }
  }

  lemma PartWritten(file: seq<Record>, buf: seq<Record>, n: nat)
    requires n < |buf|
    ensures file <= file + buf[..n] <= DropLast(file + buf)
  {
    assert file + buf[..n] == (file + buf)[..|file| + n];
  }

  /** A record is added once to what is recorded and to what a compaction under way will have;
      one that is written through to a live log is on disk with all before it. */
  lemma AppendExtendsLog(l: Log, rec: Record, now: bool, io: Write)
    ensures
      var m := Append(l, rec, now, io);
      && (l.failed ==> m == l.(lost := l.lost || rec.Reserve?))
      && (Live(m) ==> Live(l))
      && (!l.failed && io.Taken? ==> !m.failed)
      && (!m.failed ==>
            && !l.failed && m.tail.Some? == l.tail.Some? && (now ==> m.buf == [])
            && (l.tail.Some? ==> m.tail.value + m.buf == l.tail.value + l.buf + [rec]
                                 && forall image :: Compacted(m, image) == Compacted(l, image) + [rec]))
      && (Live(m) ==>
            && Written(m) == Written(l) + [rec] && l.file <= m.file
            && (now ==> m.file == Written(m)) && (!now ==> m.file == l.file) && m.lost == l.lost)
      && (Live(l) && m.failed && m.file != [] ==> l.file <= m.file <= Written(l))
      && (!Live(l) ==> m.file <= l.file)
      && (m.lost <==> l.lost || (rec.Reserve? && !Live(m) && (now || l.failed)))
  {
    if !l.failed {
      var mid := l.(buf := l.buf + [rec]);
      assert Written(mid) == Written(l) + [rec];
      if l.tail.Some? {
        assert mid.tail.value + mid.buf == l.tail.value + l.buf + [rec];
        forall image ensures Compacted(mid, image) == Compacted(l, image) + [rec] {
        }
      }
      FlushKeepsLog(mid, io);
      if now && l.tail.Some? {
        var m := Append(l, rec, now, io);
        assert !m.failed ==> m.tail.value + [] == m.tail.value;
      }
      assert DropLast(Written(mid)) == Written(l);
    }
  }

  // ── the hooks ────────────────────────────────────────────────────────────

  datatype Writer = Writer(
    log: Log, seqNo: nat, reserved: nat,
    opens: map<nat, Handle>, streams: map<nat, Stream>, mark: nat)

  /** How the buffer and the disk answer one hook. */
  datatype Io = Io(full: bool, first: Write, second: Write)

  /** The writer once the block of `ino` is reserved, if it was not. */
  function Blocked(w: Writer, ino: nat, io: Write): Writer {
    if ino < w.reserved then w
    else
      w.(reserved := ReservationAfter(ino), seqNo := w.seqNo + 1,
         log := Append(w.log, Reserve(w.seqNo + 1, ReservationAfter(ino)), true, io))
  }

  /** Node ids are only queued; what is written through first is a reservation of the block
      the id is in. */
  function LogInode(w: Writer, ino: nat, path: Path, io: Io): Writer {
    var w := Blocked(w, ino, io.first);
    w.(seqNo := w.seqNo + 1, log := Append(w.log, Ino(w.seqNo + 1, ino, path), io.full, io.second))
  }

  function LogMove(w: Writer, ino: nat, path: Path, dropped: Option<nat>, io: Io): Writer {
    w.(seqNo := w.seqNo + 1, log := Append(w.log, Mv(w.seqNo + 1, ino, path, dropped), true, io.first))
  }

  function LogOpen(w: Writer, rec: OpenRecord, io: Io): Writer {
    var s := w.seqNo + 1;
    w.(seqNo := s, log := Append(w.log, Open(s, rec), true, io.first), opens := w.opens[rec.fh := Handle(s, rec)])
  }

  function LogRelease(w: Writer, fh: nat, io: Io): Writer {
    if fh !in w.opens then w
    else
      var staging := w.opens[fh].rec.staging;
      w.(opens := w.opens - {fh}, streams := if staging.Some? then w.streams - {staging.value} else w.streams,
         seqNo := w.seqNo + 1, log := Append(w.log, Close(w.seqNo + 1, fh), true, io.first))
  }

  function LogUnlink(w: Writer, fh: nat, io: Io): Writer {
    if fh !in w.opens then w
    else
      w.(opens := w.opens[fh := Handle(w.opens[fh].seqNo, w.opens[fh].rec.(unlinked := true))],
         seqNo := w.seqNo + 1, log := Append(w.log, Unlinked(w.seqNo + 1, fh), true, io.first))
  }

  function LogRetarget(w: Writer, fh: nat, path: Path, io: Io): Writer {
    if fh !in w.opens then w
    else
      w.(opens := w.opens[fh := Handle(w.opens[fh].seqNo, w.opens[fh].rec.(path := path))],
         seqNo := w.seqNo + 1, log := Append(w.log, Retarget(w.seqNo + 1, fh, path), true, io.first))
  }

  function LogStream(w: Writer, staging: nat, session: string, io: Io): Writer {
    var s := w.seqNo + 1;
    w.(seqNo := s, log := Append(w.log, StreamStart(s, staging, session), true, io.first),
       streams := w.streams[staging := Stream(s, session)])
  }

  /** Once a second: the handle counter if it moved, then everything queued. */
  function LogTick(w: Writer, nextFh: nat, io: Io): Writer {
    var w :=
      if nextFh != w.mark then
        w.(seqNo := w.seqNo + 1, log := Append(w.log, FhMark(w.seqNo + 1, nextFh), io.full, io.first), mark := nextFh)
      else w;
    w.(log := Flush(w.log, io.second))
  }

  // ── what the hooks write ─────────────────────────────────────────────────

  /** `v` is `w` with one more record, on a sequence number of its own, written through with all
      that was queued before it as long as the file follows. */
  ghost predicate WritesThrough(w: Writer, v: Writer, rec: Record) {
    && v.seqNo == w.seqNo + 1 && v.reserved == w.reserved && v.mark == w.mark
    && (Live(v.log) ==> v.log.buf == [] && v.log.file == w.log.file + w.log.buf + [rec])
  }

  lemma ThroughWrites(w: Writer, v: Writer, rec: Record, io: Write)
    requires v.log == Append(w.log, rec, true, io)
    requires v.seqNo == w.seqNo + 1 && v.reserved == w.reserved && v.mark == w.mark
    ensures WritesThrough(w, v, rec)
  {
    AppendExtendsLog(w.log, rec, true, io);
  }

  lemma MoveWrites(w: Writer, ino: nat, path: Path, dropped: Option<nat>, io: Io)
    ensures
      var v := LogMove(w, ino, path, dropped, io);
      WritesThrough(w, v, Mv(v.seqNo, ino, path, dropped)) && v.opens == w.opens && v.streams == w.streams
  {
    ThroughWrites(w, LogMove(w, ino, path, dropped, io), Mv(w.seqNo + 1, ino, path, dropped), io.first);
  }

  lemma OpenWrites(w: Writer, rec: OpenRecord, io: Io)
    ensures
      var v := LogOpen(w, rec, io);
      && WritesThrough(w, v, Open(v.seqNo, rec))
      && v.opens == w.opens[rec.fh := Handle(v.seqNo, rec)] && v.streams == w.streams
  {
    ThroughWrites(w, LogOpen(w, rec, io), Open(w.seqNo + 1, rec), io.first);
  }

  /** A released handle takes the session of its staging file with it; what is not open is not
      released, deleted or renamed. */
  lemma ReleaseWrites(w: Writer, fh: nat, io: Io)
    ensures
      var v := LogRelease(w, fh, io);
      if fh !in w.opens then v == w
      else
        && WritesThrough(w, v, Close(v.seqNo, fh)) && v.opens == w.opens - {fh}
        && v.streams == match w.opens[fh].rec.staging
                        case Some(wp) => w.streams - {wp}
                        case None => w.streams
  {
    if fh in w.opens {
      ThroughWrites(w, LogRelease(w, fh, io), Close(w.seqNo + 1, fh), io.first);
    }
  }

  lemma UnlinkWrites(w: Writer, fh: nat, io: Io)
    ensures
      var v := LogUnlink(w, fh, io);
      if fh !in w.opens then v == w
      else
        && WritesThrough(w, v, Unlinked(v.seqNo, fh)) && v.streams == w.streams
        && v.opens == w.opens[fh := w.opens[fh].(rec := w.opens[fh].rec.(unlinked := true))]
  {
    if fh in w.opens {
      ThroughWrites(w, LogUnlink(w, fh, io), Unlinked(w.seqNo + 1, fh), io.first);
    }
  }

  lemma RetargetWrites(w: Writer, fh: nat, path: Path, io: Io)
    ensures
      var v := LogRetarget(w, fh, path, io);
      if fh !in w.opens then v == w
      else
        && WritesThrough(w, v, Retarget(v.seqNo, fh, path)) && v.streams == w.streams
        && v.opens == w.opens[fh := w.opens[fh].(rec := w.opens[fh].rec.(path := path))]
  {
    if fh in w.opens {
      ThroughWrites(w, LogRetarget(w, fh, path, io), Retarget(w.seqNo + 1, fh, path), io.first);
    }
  }

  lemma StreamWrites(w: Writer, staging: nat, session: string, io: Io)
    ensures
      var v := LogStream(w, staging, session, io);
      && WritesThrough(w, v, StreamStart(v.seqNo, staging, session))
      && v.opens == w.opens && v.streams == w.streams[staging := Stream(v.seqNo, session)]
  {
    ThroughWrites(w, LogStream(w, staging, session, io), StreamStart(w.seqNo + 1, staging, session), io.first);
  }

  /** The id's block is reserved first, if it was not, on a number of its own; then the id is
      recorded. */
  lemma InodeWrites(w: Writer, ino: nat, path: Path, io: Io)
    ensures
      var v := LogInode(w, ino, path, io);
      && v.opens == w.opens && v.streams == w.streams && v.mark == w.mark
      && (if ino < w.reserved then v.reserved == w.reserved && v.seqNo == w.seqNo + 1
          else ino < v.reserved <= ino + 4096 && v.reserved % 4096 == 0 && v.seqNo == w.seqNo + 2)
      && (Live(v.log) ==>
            v.log.file + v.log.buf ==
              w.log.file + w.log.buf + (if ino < w.reserved then [] else [Reserve(w.seqNo + 1, v.reserved)])
              + [Ino(v.seqNo, ino, path)])
  {
    var b, v := Blocked(w, ino, io.first), LogInode(w, ino, path, io);
    AppendExtendsLog(w.log, Reserve(w.seqNo + 1, ReservationAfter(ino)), true, io.first);
    AppendExtendsLog(b.log, Ino(b.seqNo + 1, ino, path), io.full, io.second);
    assert Written(w.log) + [] == Written(w.log);
  }

  /** The handle counter is recorded if it moved, and everything queued is written. */
  lemma TickWrites(w: Writer, nextFh: nat, io: Io)
    ensures
      var v := LogTick(w, nextFh, io);
      && v.opens == w.opens && v.streams == w.streams && v.reserved == w.reserved && v.mark == nextFh
      && v.seqNo == (if nextFh == w.mark then w.seqNo else w.seqNo + 1)
      && (Live(v.log) ==>
            && v.log.buf == []
            && v.log.file == w.log.file + w.log.buf + if nextFh == w.mark then [] else [FhMark(v.seqNo, nextFh)])
  {
    var log := if nextFh == w.mark then w.log else Append(w.log, FhMark(w.seqNo + 1, nextFh), io.full, io.first);
    AppendExtendsLog(w.log, FhMark(w.seqNo + 1, nextFh), io.full, io.first);
    FlushKeepsLog(log, io.second);
    assert Written(w.log) + [] == Written(w.log);
  }

  // ── what the hooks mean ──────────────────────────────────────────────────

  /** What was recorded replays to the handles, sessions and handle counter the writer keeps. */
  ghost predicate Tracks(w: Writer) {
    Live(w.log) ==> Says(w, Fold(Written(w.log)))
  }

  ghost predicate Says(w: Writer, r: Replayed) {
    && r.handles == w.opens && r.fhMark >= w.mark
    && forall wp :: wp in w.streams ==> wp in r.streams && r.streams[wp] == w.streams[wp]
  }

  /** ... and all of it is on disk. */
  ghost predicate OnDisk(w: Writer) {
    Live(w.log) ==> w.log.buf == [] && Says(w, Fold(w.log.file))
  }

  /** The node id is below what a restart from the file hands out. */
  ghost predicate Covered(w: Writer, ino: nat) {
    ino < FirstFreeIno(Fold(w.log.file))
  }

  /** One more record, written through, on top of a log that tracks. */
  lemma ThroughTracks(w: Writer, v: Writer, rec: Record, io: Write)
    requires Tracks(w) && v.log == Append(w.log, rec, true, io)
    requires forall r :: Says(w, r) ==> Says(v, Apply(r, rec))
    ensures Tracks(v) && OnDisk(v)
    ensures Live(v.log) ==> Live(w.log) && Fold(v.log.file) == Apply(Fold(Written(w.log)), rec)
  {
    AppendExtendsLog(w.log, rec, true, io);
    FoldAppend(Written(w.log), rec);
    assert v.log.buf == [] ==> Written(v.log) == v.log.file;
  }

  lemma MoveTracks(w: Writer, ino: nat, path: Path, dropped: Option<nat>, io: Io)
    requires Tracks(w)
    ensures
      var v := LogMove(w, ino, path, dropped, io);
      Tracks(v) && OnDisk(v)
      && (Live(v.log) ==> Fold(v.log.file).inodes == Moved(Fold(Written(w.log)).inodes, ino, path, dropped))
  {
    ThroughTracks(w, LogMove(w, ino, path, dropped, io), Mv(w.seqNo + 1, ino, path, dropped), io.first);
  }

  lemma OpenTracks(w: Writer, rec: OpenRecord, io: Io)
    requires Tracks(w)
    ensures Tracks(LogOpen(w, rec, io)) && OnDisk(LogOpen(w, rec, io))
  {
    ThroughTracks(w, LogOpen(w, rec, io), Open(w.seqNo + 1, rec), io.first);
  }

  /** Every session a restart goes on with belongs to an open handle other than `fh`. */
  ghost predicate OfOthers(r: Replayed, opens: map<nat, Handle>, fh: nat) {
    forall wp :: wp in LiveStreams(r) ==> exists g :: g in opens && g != fh && opens[g].rec.staging == Some(wp)
  }

  lemma SessionsOfOthers(w: Writer, fh: nat)
    requires OnDisk(w) && fh !in w.opens
    ensures Live(w.log) ==> OfOthers(Fold(w.log.file), w.opens, fh)
  {
  }

  lemma ReleaseTracks(w: Writer, fh: nat, io: Io)
    requires Tracks(w)
    ensures
      var v := LogRelease(w, fh, io);
      && Tracks(v)
      && (fh in w.opens ==> OnDisk(v))
      && (fh in w.opens && Live(v.log) ==> fh !in Fold(v.log.file).handles && OfOthers(Fold(v.log.file), v.opens, fh))
  {
    if fh in w.opens {
      ThroughTracks(w, LogRelease(w, fh, io), Close(w.seqNo + 1, fh), io.first);
      SessionsOfOthers(LogRelease(w, fh, io), fh);
    }
  }

  lemma UnlinkTracks(w: Writer, fh: nat, io: Io)
    requires Tracks(w)
    ensures Tracks(LogUnlink(w, fh, io)) && (fh in w.opens ==> OnDisk(LogUnlink(w, fh, io)))
  {
    if fh in w.opens {
      ThroughTracks(w, LogUnlink(w, fh, io), Unlinked(w.seqNo + 1, fh), io.first);
    }
  }

  lemma RetargetTracks(w: Writer, fh: nat, path: Path, io: Io)
    requires Tracks(w)
    ensures Tracks(LogRetarget(w, fh, path, io)) && (fh in w.opens ==> OnDisk(LogRetarget(w, fh, path, io)))
  {
    if fh in w.opens {
      ThroughTracks(w, LogRetarget(w, fh, path, io), Retarget(w.seqNo + 1, fh, path), io.first);
    }
  }

  lemma StreamTracks(w: Writer, staging: nat, session: string, io: Io)
    requires Tracks(w)
    ensures Tracks(LogStream(w, staging, session, io)) && OnDisk(LogStream(w, staging, session, io))
  {
    ThroughTracks(w, LogStream(w, staging, session, io), StreamStart(w.seqNo + 1, staging, session), io.first);
  }

  lemma FlushTracks(w: Writer, io: Write)
    requires Tracks(w)
    ensures Tracks(w.(log := Flush(w.log, io))) && OnDisk(w.(log := Flush(w.log, io)))
  {
    FlushKeepsLog(w.log, io);
  }

  lemma TickTracks(w: Writer, nextFh: nat, io: Io)
    requires Tracks(w)
    ensures Tracks(LogTick(w, nextFh, io)) && OnDisk(LogTick(w, nextFh, io)) && LogTick(w, nextFh, io).mark == nextFh
  {
    var v := w;
    if nextFh != w.mark {
      var rec := FhMark(w.seqNo + 1, nextFh);
      v := w.(seqNo := w.seqNo + 1, log := Append(w.log, rec, io.full, io.first), mark := nextFh);
      QueuedTracks(w, v, rec, io.full, io.first);
    }
    FlushTracks(v, io.second);
  }

  lemma BlockTracks(w: Writer, ino: nat, io: Write)
    requires Tracks(w)
    ensures Tracks(Blocked(w, ino, io))
  {
    if ino >= w.reserved {
      ThroughTracks(w, Blocked(w, ino, io), Reserve(w.seqNo + 1, ReservationAfter(ino)), io);
    }
  }

  /** One more record, queued or written, that the writer's tables have nothing to do with. */
  lemma QueuedTracks(w: Writer, v: Writer, rec: Record, now: bool, io: Write)
    requires Tracks(w) && v.log == Append(w.log, rec, now, io)
    requires forall r :: Says(w, r) ==> Says(v, Apply(r, rec))
    ensures Tracks(v)
  {
    AppendExtendsLog(w.log, rec, now, io);
    FoldAppend(Written(w.log), rec);
  }

  lemma InodeTracks(w: Writer, ino: nat, path: Path, io: Io)
    requires Tracks(w)
    ensures Tracks(LogInode(w, ino, path, io))
  {
    var v := Blocked(w, ino, io.first);
    BlockTracks(w, ino, io.first);
    QueuedTracks(v, LogInode(w, ino, path, io), Ino(v.seqNo + 1, ino, path), io.full, io.second);
  }

  /** As long as the next id, or one above it, counts as reserved, its block is on disk. */
  ghost predicate Reserves(w: Writer, next: nat) {
    Live(w.log) && next < w.reserved ==> Covered(w, w.reserved - 1)
  }

  lemma BlockCovered(w: Writer, ino: nat, io: Write)
    requires Reserves(w, ino)
    ensures Live(Blocked(w, ino, io).log) ==>
        Live(w.log) && Covered(Blocked(w, ino, io), Blocked(w, ino, io).reserved - 1)
    ensures ino < Blocked(w, ino, io).reserved
  {
    if ino >= w.reserved {
      ReserveLogged(w.log, Reserve(w.seqNo + 1, ReservationAfter(ino)), io);
    }
  }

  lemma ReserveLogged(l: Log, rec: Record, io: Write)
    requires rec.Reserve?
    ensures
      var m := Append(l, rec, true, io);
      Live(m) ==> Live(l) && rec.upto <= FirstFreeIno(Fold(m.file))
  {
    AppendExtendsLog(l, rec, true, io);
    FoldAppend(Written(l), rec);
  }

  /** A file that only grows goes on covering what is reserved. */
  lemma LaterReserves(w: Writer, v: Writer, next: nat)
    requires Reserves(w, next) && v.reserved == w.reserved
    requires Live(v.log) ==> Live(w.log) && w.log.file <= v.log.file
    ensures Reserves(v, next)
  {
    if Live(v.log) {
      FloorGrows(w.log.file, v.log.file);
    }
  }

  lemma AppendReserves(w: Writer, v: Writer, rec: Record, now: bool, io: Write, next: nat)
    requires Reserves(w, next) && v.reserved == w.reserved && v.log == Append(w.log, rec, now, io)
    ensures Reserves(v, next)
  {
    AppendExtendsLog(w.log, rec, now, io);
    LaterReserves(w, v, next);
  }

  lemma FlushReserves(w: Writer, v: Writer, io: Write, next: nat)
    requires Reserves(w, next) && v.reserved == w.reserved && v.log == Flush(w.log, io)
    ensures Reserves(v, next)
  {
    FlushKeepsLog(w.log, io);
    LaterReserves(w, v, next);
  }

  /** So does every hook that hands out no id. */
  lemma HookReserves(w: Writer, io: Io, next: nat)
    requires Reserves(w, next)
    ensures forall ino, path, dropped :: Reserves(LogMove(w, ino, path, dropped, io), next)
    ensures forall rec :: Reserves(LogOpen(w, rec, io), next)
    ensures forall fh :: Reserves(LogRelease(w, fh, io), next)
    ensures forall fh :: Reserves(LogUnlink(w, fh, io), next)
    ensures forall fh, path :: Reserves(LogRetarget(w, fh, path, io), next)
    ensures forall staging, session :: Reserves(LogStream(w, staging, session, io), next)
  {
    forall v: Writer, rec | v.reserved == w.reserved && v.log == Append(w.log, rec, true, io.first)
      ensures Reserves(v, next)
    {
      AppendReserves(w, v, rec, true, io.first, next);
    }
  }

  lemma TickReserves(w: Writer, nextFh: nat, io: Io, next: nat)
    requires Reserves(w, next)
    ensures Reserves(LogTick(w, nextFh, io), next)
  {
    if nextFh != w.mark {
      var s := w.seqNo + 1;
      var v := w.(seqNo := s, log := Append(w.log, FhMark(s, nextFh), io.full, io.first), mark := nextFh);
      AppendReserves(w, v, FhMark(s, nextFh), io.full, io.first, next);
      FlushReserves(v, LogTick(w, nextFh, io), io.second, next);
    } else {
      FlushReserves(w, LogTick(w, nextFh, io), io.second, next);
    }
  }

  /** An id is below what a restart hands out before the hook returns: its block was reserved
      on disk already, or is now; and so is the next one's, or it does not count as reserved. */
  lemma InodeCovered(w: Writer, ino: nat, path: Path, io: Io)
    requires Reserves(w, ino)
    ensures Live(LogInode(w, ino, path, io).log) ==> Covered(LogInode(w, ino, path, io), ino)
    ensures Reserves(LogInode(w, ino, path, io), ino + 1)
  {
    var v, e := Blocked(w, ino, io.first), LogInode(w, ino, path, io);
    BlockCovered(w, ino, io.first);
    AppendReserves(v, e, Ino(v.seqNo + 1, ino, path), io.full, io.second, ino);
    AppendExtendsLog(v.log, Ino(v.seqNo + 1, ino, path), io.full, io.second);
  }

  /** The new file covers what is reserved as well. */
  lemma EndReserves(w: Writer, image: seq<Record>, io: Write, swap: Swap, next: nat)
    requires Reserves(w, next) && w.log.tail.Some? && w.reserved <= FirstFreeIno(Fold(image + w.log.tail.value))
    ensures Reserves(EndedCompaction(w, image, io, swap), next)
  {
    var l := Flush(w.log, io);
    FlushKeepsLog(w.log, io);
    if !l.failed && swap == Reopened {
      FloorGrows(image + w.log.tail.value, image + l.tail.value);
    } else {
      LaterReserves(w, EndedCompaction(w, image, io, swap), next);
    }
  }

  lemma {:induction false} FloorGrows(a: seq<Record>, b: seq<Record>)
    requires a <= b
    ensures FirstFreeIno(Fold(a)) <= FirstFreeIno(Fold(b))
    decreases |b|
  {
    if a != b {
      var c := b[..|b| - 1];
      assert a <= c;
      FloorGrows(a, c);
    }
  }

  class LogWriter {
    /** The disk's part of it, which the program does not see. */
    ghost var file: seq<Record>
    ghost var link: Link
    ghost var lost: bool
    /** The next node id: every one below it may have been handed out. */
    ghost var nextIno: nat
    /** Records not written yet. */
    var buf: seq<Record>
    /** While a compaction is under way: what was written to the old file meanwhile. */
    var tail: Option<seq<Record>>
    var failed: bool
    var seqNo: nat
    var reserved: nat
    var opens: map<nat, Handle>
    var streams: map<nat, Stream>
    var mark: nat

    ghost function Model(): Writer
      reads this
    {
      Writer(Log(file, buf, tail, failed, link, lost), seqNo, reserved, opens, streams, mark)
    }

    /** What the log says is what the writer keeps, and the file covers what is reserved. */
    ghost predicate Valid()
      reads this
    {
      Tracks(Model()) && Reserves(Model(), nextIno)
    }

    constructor (w: Writer, ghost next: nat)
      requires Tracks(w) && Reserves(w, next)
      ensures Valid() && Model() == w && nextIno == next
    {
      nextIno := next;
      file, link, lost := w.log.file, w.log.link, w.log.lost;
      buf, tail, failed := w.log.buf, w.log.tail, w.log.failed;
      seqNo, reserved, opens, streams, mark := w.seqNo, w.reserved, w.opens, w.streams, w.mark;
    }

    method FlushBuffer(io: Write)
      modifies this`file, this`buf, this`tail, this`failed, this`link
      ensures Model().log == Flush(old(Model().log), io)
    {
      if failed || buf == [] {
        return;
      }
      ghost var after := Flush(Model().log, io);
      file, link := after.file, after.link;
      if io.Refused? {
        failed := true;
        return;
      }
      if tail.Some? {
        tail := Some(tail.value + buf);
      }
      buf := [];
    }

    method AppendRecord(rec: Record, now: bool, io: Write)
      modifies this`file, this`buf, this`tail, this`failed, this`link, this`lost
      ensures Model().log == Append(old(Model().log), rec, now, io)
    {
      ghost var after := Append(Model().log, rec, now, io);
      lost := after.lost;
      if failed {
        return;
      }
      buf := buf + [rec];
      if now {
        FlushBuffer(io);
      }
    }

    method ReserveBlock(ino: nat, io: Write)
      modifies this`file, this`buf, this`tail, this`failed, this`link, this`lost, this`seqNo, this`reserved
      ensures Model() == Blocked(old(Model()), ino, io)
    {
      if ino >= reserved {
        reserved := ReservationAfter(ino);
        seqNo := seqNo + 1;
        AppendRecord(Reserve(seqNo, reserved), true, io);
      }
    }

    /** The id is reserved on disk before its own record is even queued: a restart from the file
        will not hand it out again. */
    method InodeAllocated(ino: nat, path: Path, io: Io)
      requires Valid() && ino == nextIno
      modifies this
      ensures Valid() && Model() == LogInode(old(Model()), ino, path, io) && nextIno == ino + 1
      ensures Live(Model().log) ==> Covered(Model(), ino)
    {
      InodeTracks(Model(), ino, path, io);
      InodeCovered(Model(), ino, path, io);
      ReserveBlock(ino, io.first);
      seqNo := seqNo + 1;
      AppendRecord(Ino(seqNo, ino, path), io.full, io.second);
      nextIno := ino + 1;
      assert Model() == LogInode(old(Model()), ino, path, io);
    }

    /** The move is on disk, with all that was queued before it. */
    method InodeMoved(ino: nat, path: Path, dropped: Option<nat>, io: Io)
      requires Valid()
      modifies this
      ensures Valid() && Model() == LogMove(old(Model()), ino, path, dropped, io) && nextIno == old(nextIno)
      ensures OnDisk(Model())
      ensures Live(Model().log) ==> Fold(file).inodes == Moved(Fold(old(file + buf)).inodes, ino, path, dropped)
    {
      ghost var was := Model();
      MoveTracks(was, ino, path, dropped, io);
      HookReserves(was, io, nextIno);
      seqNo := seqNo + 1;
      AppendRecord(Mv(seqNo, ino, path, dropped), true, io.first);
      assert Model() == LogMove(was, ino, path, dropped, io);
    }

    /** The handle is on disk: a restart has it, under this sequence number. */
    method HandleOpened(rec: OpenRecord, io: Io)
      requires Valid()
      modifies this
      ensures Valid() && Model() == LogOpen(old(Model()), rec, io) && nextIno == old(nextIno)
      ensures OnDisk(Model()) && (Live(Model().log) ==>
          Handle(seqNo, rec) == opens[rec.fh] == Fold(file).handles[rec.fh])
    {
      ghost var was := Model();
      OpenTracks(was, rec, io);
      HookReserves(was, io, nextIno);
      seqNo := seqNo + 1;
      AppendRecord(Open(seqNo, rec), true, io.first);
      opens := opens[rec.fh := Handle(seqNo, rec)];
      assert Model() == LogOpen(was, rec, io);
    }

    /** The release is on disk: a restart no longer has the handle, nor its session. */
    method HandleReleased(fh: nat, io: Io)
      requires Valid()
      modifies this
      ensures Valid() && Model() == LogRelease(old(Model()), fh, io) && nextIno == old(nextIno)
      ensures fh in old(opens) ==> OnDisk(Model()) && (Live(Model().log) ==> fh !in Fold(file).handles)
      ensures fh in old(opens) && Live(Model().log) ==> OfOthers(Fold(file), opens, fh)
    {
      ghost var was := Model();
      ReleaseTracks(was, fh, io);
      HookReserves(was, io, nextIno);
      if fh in opens {
        var staging := opens[fh].rec.staging;
        opens := opens - {fh};
        if staging.Some? {
          streams := streams - {staging.value};
        }
        seqNo := seqNo + 1;
        AppendRecord(Close(seqNo, fh), true, io.first);
      }
      assert Model() == LogRelease(was, fh, io);
    }

    /** A restart has the handle, of a deleted file. */
    method HandleUnlinked(fh: nat, io: Io)
      requires Valid()
      modifies this
      ensures Valid() && Model() == LogUnlink(old(Model()), fh, io) && nextIno == old(nextIno)
      ensures fh in old(opens) && Live(Model().log) ==>
          OnDisk(Model()) && fh in Fold(file).handles && Fold(file).handles[fh].rec.unlinked
    {
      ghost var was := Model();
      UnlinkTracks(was, fh, io);
      HookReserves(was, io, nextIno);
      if fh in opens {
        opens := opens[fh := Handle(opens[fh].seqNo, opens[fh].rec.(unlinked := true))];
        seqNo := seqNo + 1;
        AppendRecord(Unlinked(seqNo, fh), true, io.first);
      }
      assert Model() == LogUnlink(was, fh, io);
    }

    /** A restart has the handle, of the file's new name. */
    method HandleRetargeted(fh: nat, path: Path, io: Io)
      requires Valid()
      modifies this
      ensures Valid() && Model() == LogRetarget(old(Model()), fh, path, io) && nextIno == old(nextIno)
      ensures fh in old(opens) && Live(Model().log) ==>
          OnDisk(Model()) && fh in Fold(file).handles && Fold(file).handles[fh].rec.path == path
    {
      ghost var was := Model();
      RetargetTracks(was, fh, path, io);
      HookReserves(was, io, nextIno);
      if fh in opens {
        opens := opens[fh := Handle(opens[fh].seqNo, opens[fh].rec.(path := path))];
        seqNo := seqNo + 1;
        AppendRecord(Retarget(seqNo, fh, path), true, io.first);
      }
      assert Model() == LogRetarget(was, fh, path, io);
    }

    /** The session is on disk when the hook returns, so before any chunk is sent. */
    method StreamStarted(staging: nat, session: string, io: Io)
      requires Valid()
      modifies this
      ensures Valid() && Model() == LogStream(old(Model()), staging, session, io) && nextIno == old(nextIno)
      ensures OnDisk(Model())
      ensures Live(Model().log) ==>
          staging in Fold(file).streams && Fold(file).streams[staging] == Stream(seqNo, session)
    {
      ghost var was := Model();
      StreamTracks(was, staging, session, io);
      HookReserves(was, io, nextIno);
      seqNo := seqNo + 1;
      AppendRecord(StreamStart(seqNo, staging, session), true, io.first);
      streams := streams[staging := Stream(seqNo, session)];
      assert Model() == LogStream(was, staging, session, io);
    }

    /** Everything recorded is on disk, and the handle counter there is no lower than it is. */
    method Tick(nextFh: nat, io: Io)
      requires Valid()
      modifies this
      ensures Valid() && Model() == LogTick(old(Model()), nextFh, io) && nextIno == old(nextIno)
      ensures OnDisk(Model()) && (Live(Model().log) ==> Fold(file).fhMark >= nextFh)
    {
      TickTracks(Model(), nextFh, io);
      TickReserves(Model(), nextFh, io, nextIno);
      if nextFh != mark {
        seqNo := seqNo + 1;
        AppendRecord(FhMark(seqNo, nextFh), io.full, io.first);
        mark := nextFh;
      }
      FlushBuffer(io.second);
      assert Model() == LogTick(old(Model()), nextFh, io);
    }

    /** Takes a copy of the state as a compacted log; from here on writes also go to the tail. */
    method BeginCompaction(dev: nat, mount: Path, inodes: map<nat, Path>, nextInode: nat, io: Write)
        returns (image: Option<seq<Record>>)
      requires Valid() && tail == None && nextInode == nextIno
      modifies this
      ensures Valid() && nextIno == old(nextIno)
      ensures BeginsCompaction(old(Model()), Model(), dev, mount, inodes, nextInode, io, image)
    {
      ghost var was := Model();
      FlushTracks(was, io);
      FlushBuffer(io);
      FlushReserves(was, Model(), io, nextIno);
      if failed {
        return None;
      }
      tail := Some([]);
      reserved := Max(reserved, nextInode);
      seqNo := seqNo + 1;
      var taken := TakeImage(dev, mount, inodes);
      image := Some(taken);
    }

    method TakeImage(dev: nat, mount: Path, inodes: map<nat, Path>) returns (image: seq<Record>)
      ensures IsImage(image, dev, mount, Model(), inodes)
    {
      var ids := Enumerate(inodes.Keys);
      var fhs := Enumerate(opens.Keys);
      var wps := Enumerate(streams.Keys);
      image := [Base(dev, mount), FhMark(seqNo, mark), Reserve(seqNo, reserved)]
               + InoRecords(seqNo, inodes, ids) + OpenRecords(opens, fhs) + StreamRecords(streams, wps);
      assert IsImageBy(image, dev, mount, Model(), inodes, ids, fhs, wps);
    }

    /** The image with the tail behind it takes the path, if it can be written and moved there;
        the writer goes on with it, if it can also be opened, and otherwise with the old file. */
    method EndCompaction(image: seq<Record>, io: Write, swap: Swap)
      requires Valid() && tail.Some? && Says(Model(), Fold(Compacted(Model().log, image)))
      requires reserved <= FirstFreeIno(Fold(image + tail.value))
      modifies this
      ensures Valid() && Model() == EndedCompaction(old(Model()), image, io, swap) && nextIno == old(nextIno)
    {
      ghost var after := EndedCompaction(Model(), image, io, swap);
      EndTracks(Model(), image, io, swap);
      EndReserves(Model(), image, io, swap, nextIno);
      FlushBuffer(io);
      Replace(image, swap);
      assert Model() == after;
    }

    /** The image with the tail takes the path, if it got there. */
    method Replace(image: seq<Record>, swap: Swap)
      requires tail.Some?
      modifies this`file, this`link, this`lost, this`tail
      ensures
        var l := old(Model().log);
        Model().log ==
          if l.failed || swap == NotWritten then l.(tail := None)
          else l.(file := image + l.tail.value, tail := None, lost := false,
                  link := if swap == Reopened then Follows else Detached)
    {
      ghost var late := tail.value;
      tail := None;
      if !failed && swap != NotWritten {
        file, lost := image + late, false;
        link := if swap == Reopened then Follows else Detached;
      }
    }
  }

  // ── compaction ───────────────────────────────────────────────────────────

  ghost predicate Enumerates(ids: seq<nat>, keys: set<nat>) {
    && (forall i, j :: 0 <= i < j < |ids| ==> ids[i] != ids[j])
    && (forall k :: k in ids <==> k in keys)
  }

  method Enumerate(keys: set<nat>) returns (ids: seq<nat>)
    ensures Enumerates(ids, keys)
  {
    ids := [];
    var rest := keys;
    while rest != {}
      invariant rest <= keys && Enumerates(ids, keys - rest)
      decreases |rest|
    {
      var k :| k in rest;
      rest := rest - {k};
      ids := ids + [k];
    }
    assert keys - rest == keys;
  }

  function InoRecords(s: nat, inodes: map<nat, Path>, ids: seq<nat>): seq<Record>
    requires forall k :: k in ids ==> k in inodes
  {
    seq(|ids|, i requires 0 <= i < |ids| => assert ids[i] in ids; Ino(s, ids[i], inodes[ids[i]]))
  }

  function OpenRecords(opens: map<nat, Handle>, fhs: seq<nat>): seq<Record>
    requires forall k :: k in fhs ==> k in opens
  {
    seq(|fhs|, i requires 0 <= i < |fhs| => assert fhs[i] in fhs; Open(opens[fhs[i]].seqNo, opens[fhs[i]].rec))
  }

  function StreamRecords(streams: map<nat, Stream>, wps: seq<nat>): seq<Record>
    requires forall k :: k in wps ==> k in streams
  {
    seq(|wps|, i requires 0 <= i < |wps| =>
      assert wps[i] in wps; StreamStart(streams[wps[i]].seqNo, wps[i], streams[wps[i]].session))
  }

  /** A compacted log of the state, its parts in any order of their ids. */
  ghost predicate IsImage(image: seq<Record>, dev: nat, mount: Path, w: Writer, inodes: map<nat, Path>) {
    exists ids, fhs, wps :: IsImageBy(image, dev, mount, w, inodes, ids, fhs, wps)
  }

  ghost predicate IsImageBy(
      image: seq<Record>, dev: nat, mount: Path, w: Writer, inodes: map<nat, Path>,
      ids: seq<nat>, fhs: seq<nat>, wps: seq<nat>)
  {
    && Enumerates(ids, inodes.Keys) && Enumerates(fhs, w.opens.Keys) && Enumerates(wps, w.streams.Keys)
    && image == [Base(dev, mount), FhMark(w.seqNo, w.mark), Reserve(w.seqNo, w.reserved)]
                + InoRecords(w.seqNo, inodes, ids) + OpenRecords(w.opens, fhs) + StreamRecords(w.streams, wps)
  }

  ghost predicate BeginsCompaction(
      w: Writer, w': Writer, dev: nat, mount: Path, inodes: map<nat, Path>, nextInode: nat, io: Write,
      image: Option<seq<Record>>)
  {
    var l := Flush(w.log, io);
    if l.failed then image == None && w' == w.(log := l)
    else
      && w' == w.(log := l.(tail := Some([])), reserved := Max(w.reserved, nextInode), seqNo := w.seqNo + 1)
      && image.Some? && IsImage(image.value, dev, mount, w', inodes)
  }

  /** How far the new file got: not to the path, there and opened, or there but not opened. */
  datatype Swap = NotWritten | Reopened | Orphaned

  lemma EndTracks(w: Writer, image: seq<Record>, io: Write, swap: Swap)
    requires Tracks(w) && w.log.tail.Some? && Says(w, Fold(Compacted(w.log, image)))
    ensures Tracks(EndedCompaction(w, image, io, swap))
  {
    FlushTracks(w, io);
    FlushKeepsLog(w.log, io);
    var l, v := Flush(w.log, io), EndedCompaction(w, image, io, swap);
    if !l.failed {
      assert Compacted(l, image) == image + l.tail.value;
      assert swap == Reopened ==> Written(v.log) == image + l.tail.value;
    }
  }

  function EndedCompaction(w: Writer, image: seq<Record>, io: Write, swap: Swap): Writer
    requires w.log.tail.Some?
  {
    var l := Flush(w.log, io);
    if l.failed || swap == NotWritten then w.(log := l.(tail := None))
    else
      w.(log := l.(file := image + l.tail.value, tail := None, lost := false,
                   link := if swap == Reopened then Follows else Detached))
  }
}
