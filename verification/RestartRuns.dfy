/** Whole lives of a mount: hooks, compactions, crashes that lose what was still queued, and
    restores by the next daemon; with a disk that may refuse a write, a removal or a reopening,
    and crashes that may cut the last line short. */
module RestartRuns {
  import opened Options
  import opened RestartLog
  import opened RestartWriter
  import opened RestartDaemon
  import opened RestartImage

  // ── compaction ───────────────────────────────────────────────────────────

  ghost predicate Begun(d: Daemon, e: Daemon, io: Write, image: Option<seq<Record>>, dev: nat, mount: Path) {
    && d.w.log.tail == None
    && BeginsCompaction(d.w, e.w, dev, mount, d.inodes, d.nextInode, io, image)
    && e == d.(w := e.w, image := if image.Some? then image.value else d.image)
  }

  lemma BeginKeeps(d: Daemon, e: Daemon, io: Write, image: Option<seq<Record>>, dev: nat, mount: Path)
    requires Inv(d, dev, mount) && Begun(d, e, io, image, dev, mount)
    ensures Inv(e, dev, mount)
  {
    var m := d.(w := d.w.(log := Flush(d.w.log, io)));
    FlushKeeps(d, io, dev, mount);
    FlushKeepsLog(d.w.log, io);
    if m.w.log.failed {
      assert e == m;
    } else {
      ImageReady(m, e, image.value, dev, mount);
    }
  }

  ghost predicate Imaged(d: Daemon, e: Daemon, image: seq<Record>, dev: nat, mount: Path) {
    && e.w == d.w.(log := d.w.log.(tail := Some([])), reserved := Max(d.w.reserved, d.nextInode),
       seqNo := d.w.seqNo + 1)
    && e == d.(w := e.w, image := image) && IsImage(image, dev, mount, e.w, d.inodes)
  }

  /** The moment the image is taken: all is written, and the image says the same. */
  lemma ImageReady(d: Daemon, e: Daemon, image: seq<Record>, dev: nat, mount: Path)
    requires Inv(d, dev, mount) && !d.w.log.failed && d.w.log.buf == [] && Imaged(d, e, image, dev, mount)
    ensures Inv(e, dev, mount)
  {
    var l := e.w.log;
    ImageMirrors(image, e, dev, mount);
    ImageAlone(l, image);
    assert ImageSound(e, dev, mount);
    if Live(l) {
      assert Written(l) == Written(d.w.log) == l.file;
      SameMirror(Fold(Written(d.w.log)), d, e);
      NowReplaces(Fold(l.file), Fold(image), e);
    }
  }

  lemma ImageAlone(l: Log, image: seq<Record>)
    requires l.tail == Some([]) && l.buf == []
    ensures Compacted(l, image) == image && image + l.tail.value == image && NoBase(l.tail.value + l.buf)
  {
  }

  lemma SameMirror(r: Replayed, d: Daemon, e: Daemon)
    requires Mirrors(r, d) && SameHandles(d, e) && SameTable(d, e)
    ensures Mirrors(r, e)
  {
    StreamsStay(r, d, e);
  }

  function Ended(d: Daemon, io: Write, swap: Swap): Daemon
    requires d.w.log.tail.Some?
  {
    d.(w := EndedCompaction(d.w, d.image, io, swap))
  }

  lemma EndKeeps(d: Daemon, io: Write, swap: Swap, dev: nat, mount: Path)
    requires Inv(d, dev, mount) && d.w.log.tail.Some?
    ensures Inv(Ended(d, io, swap), dev, mount)
  {
    FlushKeeps(d, io, dev, mount);
    FlushKeepsLog(d.w.log, io);
    var m := d.(w := d.w.(log := Flush(d.w.log, io)));
    var e := Ended(d, io, swap);
    if m.w.log.failed || swap == NotWritten {
      TailDropped(m, dev, mount);
      assert e == m.(w := m.w.(log := m.w.log.(tail := None)));
    } else {
      Switched(m, e, swap, dev, mount);
    }
  }

  lemma TailDropped(d: Daemon, dev: nat, mount: Path)
    requires Inv(d, dev, mount)
    ensures Inv(d.(w := d.w.(log := d.w.log.(tail := None))), dev, mount)
  {
    if Live(d.w.log) {
      SameMirror(Fold(Written(d.w.log)), d, d.(w := d.w.(log := d.w.log.(tail := None))));
    }
  }

  /** The compacted log takes the path, whether or not it can be opened there. */
  lemma Switched(d: Daemon, e: Daemon, swap: Swap, dev: nat, mount: Path)
    requires Inv(d, dev, mount) && d.w.log.tail.Some? && !d.w.log.failed && d.w.log.buf == [] && swap != NotWritten
    requires e == d.(w := d.w.(log := d.w.log.(file := d.image + d.w.log.tail.value, tail := None, lost := false,
                                               link := if swap == Reopened then Follows else Detached)))
    ensures Inv(e, dev, mount)
  {
    var l := d.w.log;
    assert e.w.log.file == Compacted(l, d.image) && Written(e.w.log) == e.w.log.file;
    assert l.tail.value == l.tail.value + l.buf;
    SameMirror(Fold(Compacted(l, d.image)), d, e);
    BetweenIsFor(d.image, e.w.log.file, d.image, l.tail.value, dev, mount);
    FloorBounded(Fold(Compacted(l, d.image)), d);
  }

  // ── what a crash loses ───────────────────────────────────────────────────

  /** `a` has the handles and sessions of `b`, and of its ids only right ones. */
  ghost predicate Lags(a: Replayed, b: Replayed) {
    && a.handles == b.handles && a.streams == b.streams
    && forall i :: i in a.inodes ==> i in b.inodes && b.inodes[i] == a.inodes[i]
  }

  /** What a crash can leave of a live file. */
  ghost predicate LeftBy(l: Log, f: seq<Record>) {
    l.file <= f <= Written(l)
  }

  /** Only node ids wait to be written. */
  ghost predicate Deferred(l: Log) {
    Live(l) ==> forall f {:trigger LeftBy(l, f)} :: LeftBy(l, f) ==> Lags(Fold(f), Fold(Written(l)))
  }

  lemma WrittenDefers(l: Log)
    requires l.buf == []
    ensures Deferred(l)
  {
    forall f | LeftBy(l, f) ensures Lags(Fold(f), Fold(Written(l))) {
      assert f == Written(l);
    }
  }

  lemma FlushDefers(l: Log, io: Write)
    requires Deferred(l)
    ensures Deferred(Flush(l, io))
  {
    FlushKeepsLog(l, io);
    if !Flush(l, io).failed {
      WrittenDefers(Flush(l, io));
    }
  }

  lemma AppendDefers(l: Log, rec: Record, now: bool, io: Write)
    requires Deferred(l)
    requires Live(l) && !now ==> Lags(Fold(Written(l)), Apply(Fold(Written(l)), rec))
    ensures Deferred(Append(l, rec, now, io))
  {
    AppendExtendsLog(l, rec, now, io);
    var m := Append(l, rec, now, io);
    if Live(m) {
      FoldAppend(Written(l), rec);
      forall f | LeftBy(m, f) ensures Lags(Fold(f), Fold(Written(m))) {
        if f != Written(m) {
          assert LeftBy(l, f);
        }
      }
    }
  }

  lemma HookDefers(d: Daemon, h: Hook, io: Io, dev: nat, mount: Path)
    requires Inv(d, dev, mount) && May(d, h) && Deferred(d.w.log)
    ensures Deferred(Did(d, h, io).w.log)
  {
    var l, s := d.w.log, d.w.seqNo + 1;
    match h
    case Allocate(path) => AllocateDefers(d, path, io, dev, mount);
    case Rename(ino, path, displaced) => WrittenThrough(d, h, Mv(s, ino, path, displaced), io);
    case TakeNumber =>
    case OpenHandle(rec) => WrittenThrough(d, h, Open(s, rec), io);
    case ReleaseHandle(fh) => WrittenThrough(d, h, Close(s, fh), io);
    case UnlinkHandle(fh) => WrittenThrough(d, h, Unlinked(s, fh), io);
    case RetargetHandle(fh, path) => WrittenThrough(d, h, Retarget(s, fh, path), io);
    case StartStream(fh, session) => WrittenThrough(d, h, StreamStart(s, fh, session), io);
    case Tick => TickDefers(d, io);
    case WriteOut => FlushDefers(l, io.first);
  }

  lemma WrittenThrough(d: Daemon, h: Hook, rec: Record, io: Io)
    requires Deferred(d.w.log)
    requires Did(d, h, io).w.log == d.w.log || Did(d, h, io).w.log == Append(d.w.log, rec, true, io.first)
    ensures Deferred(Did(d, h, io).w.log)
  {
    AppendDefers(d.w.log, rec, true, io.first);
  }

  lemma TickDefers(d: Daemon, io: Io)
    requires Deferred(d.w.log)
    ensures Deferred(Did(d, Tick, io).w.log)
  {
    var l, line := d.w.log, FhMark(d.w.seqNo + 1, d.nextFh);
    if d.nextFh != d.w.mark {
      MarkLags(Fold(Written(l)), line);
      var m := Append(l, line, io.full, io.first);
      AppendDefers(l, line, io.full, io.first);
      FlushDefers(m, io.second);
      assert Did(d, Tick, io).w.log == Flush(m, io.second);
    } else {
      FlushDefers(l, io.second);
      assert Did(d, Tick, io).w.log == Flush(l, io.second);
    }
  }

  lemma MarkLags(r: Replayed, rec: Record)
    requires rec.FhMark? || rec.Reserve?
    ensures Lags(r, Apply(r, rec)) && Lags(Apply(r, rec), r)
  {
  }

  lemma AllocateDefers(d: Daemon, path: Path, io: Io, dev: nat, mount: Path)
    requires Inv(d, dev, mount) && May(d, Allocate(path)) && Deferred(d.w.log)
    ensures Deferred(Did(d, Allocate(path), io).w.log)
  {
    var v := Blocked(d.w, d.nextInode, io.first);
    BlockDefers(d.w, d.inodes, d.nextInode, io.first);
    IdDefers(v.log, d.inodes, v.seqNo + 1, d.nextInode, path, io.full, io.second);
    assert Did(d, Allocate(path), io).w.log == Append(v.log, Ino(v.seqNo + 1, d.nextInode, path), io.full, io.second);
  }

  lemma BlockDefers(w: Writer, inodes: map<nat, Path>, ino: nat, io: Write)
    requires Deferred(w.log) && (Live(w.log) ==> Fold(Written(w.log)).inodes == inodes)
    ensures
      var v := Blocked(w, ino, io);
      Deferred(v.log) && (Live(v.log) ==> Fold(Written(v.log)).inodes == inodes)
  {
    if ino >= w.reserved {
      var rec := Reserve(w.seqNo + 1, ReservationAfter(ino));
      ReserveDefers(w.log, inodes, rec, io);
      assert Blocked(w, ino, io).log == Append(w.log, rec, true, io);
    } else {
      assert Blocked(w, ino, io) == w;
    }
  }

  lemma ReserveDefers(l: Log, inodes: map<nat, Path>, rec: Record, io: Write)
    requires Deferred(l) && rec.Reserve? && (Live(l) ==> Fold(Written(l)).inodes == inodes)
    ensures
      var m := Append(l, rec, true, io);
      Deferred(m) && (Live(m) ==> Fold(Written(m)).inodes == inodes)
  {
    AppendDefers(l, rec, true, io);
    AppendExtendsLog(l, rec, true, io);
    FoldAppend(Written(l), rec);
  }

  lemma IdDefers(l: Log, inodes: map<nat, Path>, s: nat, ino: nat, path: Path, now: bool, io: Write)
    requires Deferred(l) && (Live(l) ==> Fold(Written(l)).inodes == inodes)
    requires ino !in inodes && forall i :: i in inodes ==> inodes[i] != path
    ensures Deferred(Append(l, Ino(s, ino, path), now, io))
  {
    AllocatedTable(inodes, ino, path);
    AppendDefers(l, Ino(s, ino, path), now, io);
  }

  // ── which ids are safe ───────────────────────────────────────────────────

  ghost predicate Above(handed: set<nat>, n: nat) {
    forall id :: id in handed ==> id < n
  }

  /** The file at the path covers every id handed out; or, once it has stopped following, does
      so exactly as long as no reservation was lost. */
  ghost predicate Covers(l: Log, handed: set<nat>) {
    && (Live(l) ==> Above(handed, Floor(l.file)))
    && (!Live(l) && l.file != [] ==> (Above(handed, Floor(l.file)) <==> !l.lost))
    && (l.link == Torn(true) && !l.lost && DropLast(l.file) != [] ==> Above(handed, Floor(DropLast(l.file))))
  }

  /** A log without a lost reservation unless it has stopped following. */
  ghost predicate Honest(l: Log) {
    (Live(l) || (!l.failed && l.link.Torn?)) ==> !l.lost
  }

  lemma FlushCovers(l: Log, io: Write, handed: set<nat>)
    requires Covers(l, handed) && Honest(l)
    ensures Covers(Flush(l, io), handed)
  {
    var m := Flush(l, io);
    FlushKeepsLog(l, io);
    if Live(m) || (Live(l) && m.file != []) {
      FloorGrows(l.file, m.file);
    }
  }

  lemma AppendCovers(l: Log, rec: Record, now: bool, io: Write, handed: set<nat>)
    requires Covers(l, handed) && Honest(l) && !rec.Reserve?
    ensures Covers(Append(l, rec, now, io), handed)
  {
    if !l.failed && now {
      FlushCovers(l.(buf := l.buf + [rec]), io, handed);
    }
  }

  lemma HonestAfter(l: Log, rec: Record, now: bool, io: Write)
    requires Honest(l)
    ensures Honest(Append(l, rec, now, io)) || rec.Reserve?
    ensures Honest(Flush(l, io))
  {
    AppendExtendsLog(l, rec, now, io);
    FlushKeepsLog(l, io);
  }

  /** Handing out an id past what is reserved: its reservation is in the file, or is lost. */
  lemma BlockCovers(d: Daemon, io: Write, handed: set<nat>, dev: nat, mount: Path)
    requires Inv(d, dev, mount) && Covers(d.w.log, handed) && d.nextInode >= d.w.reserved
    ensures Covers(Blocked(d.w, d.nextInode, io).log, handed + {d.nextInode})
  {
    var rec := Reserve(d.w.seqNo + 1, ReservationAfter(d.nextInode));
    var m := Append(d.w.log, rec, true, io);
    AppendExtendsLog(d.w.log, rec, true, io);
    if Live(m) {
      ReserveInFile(d.w.log, rec, io, handed, d.nextInode);
    } else if m.file != [] {
      ReserveMissing(d, rec, io, dev, mount);
      assert d.nextInode in handed + {d.nextInode};
    }
    assert Blocked(d.w, d.nextInode, io).log == m;
  }

  lemma ReserveInFile(l: Log, rec: Record, io: Write, handed: set<nat>, ino: nat)
    requires rec.Reserve? && ino < rec.upto && Live(l) && Live(Append(l, rec, true, io)) && Above(handed, Floor(l.file))
    ensures Above(handed + {ino}, Floor(Append(l, rec, true, io).file))
  {
    var m := Append(l, rec, true, io);
    AppendExtendsLog(l, rec, true, io);
    FoldAppend(Written(l), rec);
    FloorGrows(l.file, m.file);
  }

  lemma ReserveMissing(d: Daemon, rec: Record, io: Write, dev: nat, mount: Path)
    requires Inv(d, dev, mount) && rec.Reserve? && !Live(Append(d.w.log, rec, true, io))
    requires Append(d.w.log, rec, true, io).file != []
    ensures Floor(Append(d.w.log, rec, true, io).file) <= d.w.reserved
  {
    var l, m := d.w.log, Append(d.w.log, rec, true, io);
    AppendExtendsLog(l, rec, true, io);
    if Live(l) {
      FloorBounded(Fold(Written(l)), d);
      FloorGrows(m.file, Written(l));
    } else {
      FloorGrows(m.file, l.file);
    }
  }

  /** Handing out one that is: the file covers it, as far as it covers anything. */
  lemma ReservedCovers(d: Daemon, handed: set<nat>, dev: nat, mount: Path)
    requires Inv(d, dev, mount) && Covers(d.w.log, handed) && d.nextInode < d.w.reserved
    ensures Covers(d.w.log, handed + {d.nextInode})
  {
    assert Above(handed + {d.nextInode}, Floor(d.w.log.file)) ==> Above(handed, Floor(d.w.log.file));
  }

  // ── the next daemon ──────────────────────────────────────────────────────

  /** The daemon that carries on from what the log replayed to. `preInode` and `preFh` are
      its counters before the restore; `reopened` is whether it could open the log again. */
  function Resumed(file: seq<Record>, link: Link, r: Replayed, preInode: nat, preFh: nat, reopened: bool): Daemon {
    var next := Max(preInode, FirstFreeIno(r));
    Daemon(Writer(Log(file, [], None, !reopened, link, false), r.maxSeq, next, r.handles, LiveStreams(r), r.fhMark),
           r.inodes - {1}, next, Max(preFh, Max(r.maxFh + 1, r.fhMark + FH_GAP)), {}, [])
  }

  lemma ResumedInv(file: seq<Record>, link: Link, preInode: nat, preFh: nat, reopened: bool, dev: nat, mount: Path)
    requires IsFor(file, dev, mount) && SoundLog(file)
    ensures Inv(Resumed(file, link, Fold(file), preInode, preFh, reopened), dev, mount)
  {
    var r := Fold(file);
    var d := Resumed(file, link, r, preInode, preFh, reopened);
    assert r.inodes - {1} == r.inodes;
    FoldInjective(file);
    ResumedSessions(r, d);
    assert Written(d.w.log) == file;
    assert Bounded(r, d);
  }

  lemma ResumedSessions(r: Replayed, d: Daemon)
    requires Good(r) && d.w.opens == r.handles && d.w.streams == LiveStreams(r)
    requires r.maxFh < d.nextFh && d.unopened == {}
    ensures StreamsMirror(r, d)
    ensures forall wp :: wp in d.w.streams ==> wp in d.w.opens && d.w.opens[wp].rec.staging == Some(wp)
  {
    forall wp | wp in r.streams ensures wp in d.w.streams || Retired(d, wp) {
    }
    forall wp | wp in d.w.streams ensures wp in d.w.opens {
      var fh :| fh in r.handles && r.handles[fh].rec.staging == Some(wp);
      assert fh == wp;
    }
  }

  /** A fresh mount starts a new log with every id already allocated. */
  ghost predicate Fresh(d: Daemon, dev: nat, mount: Path) {
    && d.w == Writer(Log(d.w.log.file, [], None, false, Follows, false), 1, d.nextInode, map[], map[], 0)
    && IsImage(d.w.log.file, dev, mount, d.w, d.inodes)
    && Numbered(d) && d.unopened == {}
  }

  /** It may fail to write it, or even to remove what it did write: then the daemon goes on
      without a log, and part of one stays behind. */
  ghost predicate Unlogged(d: Daemon, image: seq<Record>, dev: nat, mount: Path) {
    && d.w == Writer(Log(d.w.log.file, [], None, true, Follows, |d.w.log.file| < 3 && d.inodes != map[]),
                     1, d.nextInode, map[], map[], 0)
    && IsImage(image, dev, mount, d.w, d.inodes) && d.w.log.file <= image
    && Numbered(d) && d.unopened == {}
  }

  lemma FreshInv(d: Daemon, dev: nat, mount: Path)
    requires Fresh(d, dev, mount)
    ensures Inv(d, dev, mount) && d.nextInode <= Floor(d.w.log.file)
  {
    ImageMirrors(d.w.log.file, d, dev, mount);
    assert Written(d.w.log) == d.w.log.file;
  }

  lemma UnloggedInv(d: Daemon, image: seq<Record>, dev: nat, mount: Path)
    requires Unlogged(d, image, dev, mount)
    ensures Inv(d, dev, mount) && Covers(d.w.log, d.inodes.Keys)
  {
    var file := d.w.log.file;
    ImageMirrors(image, d, dev, mount);
    FloorBounded(Fold(image), d);
    if file != [] {
      ShorterSound(image, file, dev, mount);
      PartOfImage(d, image, file, dev, mount);
    }
  }

  /** Two records of an image reserve nothing, three reserve all of it. */
  lemma PartOfImage(d: Daemon, image: seq<Record>, file: seq<Record>, dev: nat, mount: Path)
    requires Numbered(d) && IsImage(image, dev, mount, d.w, d.inodes) && d.w.reserved == d.nextInode
    requires file <= image && file != []
    ensures if |file| < 3 then Floor(file) == 2 else d.nextInode <= Floor(file)
  {
    var head := HeaderFold(dev, mount, d.w.seqNo, d.w.mark, d.w.reserved);
    var ids, fhs, wps :| IsImageBy(image, dev, mount, d.w, d.inodes, ids, fhs, wps);
    assert head <= image;
    if |file| < 3 {
      HeaderFloor(dev, mount, d.w.seqNo, d.w.mark);
      assert file == [head[0]] || file == [head[0], head[1]];
    } else {
      assert head <= file;
      FloorGrows(head, file);
    }
  }

  lemma HeaderFloor(dev: nat, mount: Path, s: nat, mark: nat)
    ensures Floor([Base(dev, mount)]) == 2 && Floor([Base(dev, mount), FhMark(s, mark)]) == 2
  {
    FoldAppend([], Base(dev, mount));
    assert [] + [Base(dev, mount)] == [Base(dev, mount)];
    FoldAppend([Base(dev, mount)], FhMark(s, mark));
    assert [Base(dev, mount)] + [FhMark(s, mark)] == [Base(dev, mount), FhMark(s, mark)];
  }

  // ── runs ─────────────────────────────────────────────────────────────────

  /** One connection through its daemons. `handed` are all the ids the kernel was given;
      `reused` is whether a daemon was restored from a log that had lost a reservation. */
  datatype World =
    | Up(d: Daemon, handed: set<nat>, reused: bool)
    | Down(file: seq<Record>, link: Link, lost: bool, handed: set<nat>, reused: bool)

  datatype Step =
    | Does(h: Hook, io: Io)
    | Begins(write: Write, image: Option<seq<Record>>)
    | Ends(write: Write, swap: Swap)
    | Crashes(within: Hook, full: bool, left: seq<Record>, link: Link)
    | Restores(preInode: nat, preFh: nat, reopened: bool)

  /** A crash in the middle of a hook, which would have left `m`, leaves the file anywhere
      between before and after it, its last line perhaps cut short. */
  ghost predicate LeftOver(l: Log, m: Log, left: seq<Record>, link: Link) {
    if l.failed || l.link.Detached? then
      && left == l.file
      && (link == (if l.link.Detached? then Follows else l.link) || (l.link.Follows? && link == Torn(false)))
    else if l.link.Follows? then
      l.file <= left <= Written(m) && (link == Follows || link == Torn(false) || (link == Torn(true) && l.file < left))
    else
      || (left == l.file && link == l.link)
      || (left == m.file && link == m.link)
      || (left == (if l.link == Torn(true) then DropLast(l.file) else l.file) && link == Torn(false))
  }

  ghost predicate Next(v: World, s: Step, w: World, dev: nat, mount: Path) {
    match s
    case Does(h, io) =>
      && v.Up? && May(v.d, h)
      && w == Up(Did(v.d, h, io), if h.Allocate? then v.handed + {v.d.nextInode} else v.handed, v.reused)
    case Begins(io, image) =>
      v.Up? && w.Up? && Begun(v.d, w.d, io, image, dev, mount) && w.handed == v.handed && w.reused == v.reused
    case Ends(io, swap) => v.Up? && v.d.w.log.tail.Some? && w == Up(Ended(v.d, io, swap), v.handed, v.reused)
    case Crashes(h, full, left, link) =>
      && v.Up? && May(v.d, h) && LeftOver(v.d.w.log, Did(v.d, h, Io(full, Taken, Taken)).w.log, left, link)
      && w == Down(left, link, v.d.w.log.lost, v.handed, v.reused)
    case Restores(preInode, preFh, reopened) =>
      && v.Down? && Load(v.file, dev, mount).Some?
      && w == Up(Resumed(v.file, v.link, Load(v.file, dev, mount).value, preInode, preFh, reopened),
                 v.handed, v.reused || v.lost)
  }

  ghost predicate Initial(w: World, dev: nat, mount: Path) {
    && w.Up? && w.handed == w.d.inodes.Keys && !w.reused
    && (Fresh(w.d, dev, mount) || exists image :: Unlogged(w.d, image, dev, mount))
  }

  ghost predicate IsRun(ws: seq<World>, steps: seq<Step>, dev: nat, mount: Path) {
    && |ws| == |steps| + 1 && Initial(ws[0], dev, mount)
    && forall i :: 0 <= i < |steps| ==> Next(ws[i], steps[i], ws[i + 1], dev, mount)
  }

  ghost predicate WorldInv(w: World, dev: nat, mount: Path) {
    match w
    case Up(d, handed, reused) =>
      && Inv(d, dev, mount) && Deferred(d.w.log)
      && (!reused ==> Above(handed, d.nextInode) && Covers(d.w.log, handed))
    case Down(file, link, lost, handed, reused) =>
      && (file != [] ==> IsFor(file, dev, mount) && SoundLog(file))
      && (!reused ==> Covers(Log(file, [], None, true, link, lost), handed))
  }

  lemma StepKeepsInv(v: World, s: Step, w: World, dev: nat, mount: Path)
    requires WorldInv(v, dev, mount) && Next(v, s, w, dev, mount)
    ensures WorldInv(w, dev, mount)
  {
    match s
    case Does(h, io) => DoesKeeps(v, h, io, w, dev, mount);
    case Begins(io, image) => BeginsKeeps(v, io, image, w, dev, mount);
    case Ends(io, swap) => EndsKeeps(v, io, swap, w, dev, mount);
    case Crashes(h, full, left, link) => CrashesKeeps(v, h, full, left, link, w, dev, mount);
    case Restores(preInode, preFh, reopened) => RestoresKeeps(v, preInode, preFh, reopened, w, dev, mount);
  }

  lemma DoesKeeps(v: World, h: Hook, io: Io, w: World, dev: nat, mount: Path)
    requires WorldInv(v, dev, mount) && Next(v, Does(h, io), w, dev, mount)
    ensures WorldInv(w, dev, mount)
  {
    HookKeepsInv(v.d, h, io, dev, mount);
    HookDefers(v.d, h, io, dev, mount);
    if !v.reused {
      HookCovers(v.d, h, io, v.handed, dev, mount);
    }
  }

  lemma HookCovers(d: Daemon, h: Hook, io: Io, handed: set<nat>, dev: nat, mount: Path)
    requires Inv(d, dev, mount) && May(d, h) && Covers(d.w.log, handed)
    ensures Covers(Did(d, h, io).w.log, if h.Allocate? then handed + {d.nextInode} else handed)
  {
    var l, s := d.w.log, d.w.seqNo + 1;
    match h
    case Allocate(path) => AllocateCovers(d, path, io, handed, dev, mount);
    case Rename(ino, path, displaced) => ThroughCovers(d, h, Mv(s, ino, path, displaced), io, handed);
    case TakeNumber =>
    case OpenHandle(rec) => ThroughCovers(d, h, Open(s, rec), io, handed);
    case ReleaseHandle(fh) => ThroughCovers(d, h, Close(s, fh), io, handed);
    case UnlinkHandle(fh) => ThroughCovers(d, h, Unlinked(s, fh), io, handed);
    case RetargetHandle(fh, path) => ThroughCovers(d, h, Retarget(s, fh, path), io, handed);
    case StartStream(fh, session) => ThroughCovers(d, h, StreamStart(s, fh, session), io, handed);
    case Tick => TickCovers(d, io, handed);
    case WriteOut => FlushCovers(l, io.first, handed);
  }

  lemma ThroughCovers(d: Daemon, h: Hook, rec: Record, io: Io, handed: set<nat>)
    requires Covers(d.w.log, handed) && Honest(d.w.log) && !rec.Reserve?
    requires Did(d, h, io).w.log == d.w.log || Did(d, h, io).w.log == Append(d.w.log, rec, true, io.first)
    ensures Covers(Did(d, h, io).w.log, handed)
  {
    AppendCovers(d.w.log, rec, true, io.first, handed);
  }

  lemma TickCovers(d: Daemon, io: Io, handed: set<nat>)
    requires Covers(d.w.log, handed) && Honest(d.w.log)
    ensures Covers(Did(d, Tick, io).w.log, handed)
  {
    var l, line := d.w.log, FhMark(d.w.seqNo + 1, d.nextFh);
    var m := if d.nextFh != d.w.mark then Append(l, line, io.full, io.first) else l;
    AppendCovers(l, line, io.full, io.first, handed);
    HonestAfter(l, line, io.full, io.first);
    FlushCovers(m, io.second, handed);
    assert Did(d, Tick, io).w.log == Flush(m, io.second);
  }

  lemma AllocateCovers(d: Daemon, path: Path, io: Io, handed: set<nat>, dev: nat, mount: Path)
    requires Inv(d, dev, mount) && May(d, Allocate(path)) && Covers(d.w.log, handed)
    ensures Covers(Did(d, Allocate(path), io).w.log, handed + {d.nextInode})
  {
    var v := Blocked(d.w, d.nextInode, io.first);
    var rec := Ino(v.seqNo + 1, d.nextInode, path);
    if d.nextInode < d.w.reserved {
      ReservedCovers(d, handed, dev, mount);
      assert v == d.w;
    } else {
      BlockCovers(d, io.first, handed, dev, mount);
    }
    BlockHonest(d.w, d.nextInode, io.first);
    AppendCovers(v.log, rec, io.full, io.second, handed + {d.nextInode});
    assert Did(d, Allocate(path), io).w.log == Append(v.log, rec, io.full, io.second);
  }

  lemma BlockHonest(w: Writer, ino: nat, io: Write)
    requires Honest(w.log)
    ensures Honest(Blocked(w, ino, io).log)
  {
    if ino >= w.reserved {
      var rec := Reserve(w.seqNo + 1, ReservationAfter(ino));
      AppendExtendsLog(w.log, rec, true, io);
      assert Blocked(w, ino, io).log == Append(w.log, rec, true, io);
    }
  }

  lemma BeginsKeeps(v: World, io: Write, image: Option<seq<Record>>, w: World, dev: nat, mount: Path)
    requires WorldInv(v, dev, mount) && Next(v, Begins(io, image), w, dev, mount)
    ensures WorldInv(w, dev, mount)
  {
    BeginKeeps(v.d, w.d, io, image, dev, mount);
    FlushDefers(v.d.w.log, io);
    FlushKeepsLog(v.d.w.log, io);
    if !w.d.w.log.failed {
      WrittenDefers(w.d.w.log);
    }
    if !v.reused {
      FlushCovers(v.d.w.log, io, v.handed);
      SameFileCovers(Flush(v.d.w.log, io), w.d.w.log, v.handed);
    }
  }

  lemma SameFileCovers(l: Log, m: Log, handed: set<nat>)
    requires Covers(l, handed) && m == l.(tail := m.tail, buf := m.buf)
    ensures Covers(m, handed)
  {
  }

  lemma EndsKeeps(v: World, io: Write, swap: Swap, w: World, dev: nat, mount: Path)
    requires WorldInv(v, dev, mount) && Next(v, Ends(io, swap), w, dev, mount)
    ensures WorldInv(w, dev, mount)
  {
    EndKeeps(v.d, io, swap, dev, mount);
    EndDefers(v.d, io, swap);
    if !v.reused {
      EndCovers(v.d, io, swap, v.handed, dev, mount);
    }
  }

  lemma EndDefers(d: Daemon, io: Write, swap: Swap)
    requires Deferred(d.w.log) && d.w.log.tail.Some?
    ensures Deferred(Ended(d, io, swap).w.log)
  {
    FlushKeepsLog(d.w.log, io);
    var m := Ended(d, io, swap).w.log;
    if Live(m) {
      WrittenDefers(m);
    }
  }

  lemma EndCovers(d: Daemon, io: Write, swap: Swap, handed: set<nat>, dev: nat, mount: Path)
    requires Inv(d, dev, mount) && d.w.log.tail.Some? && Covers(d.w.log, handed) && Above(handed, d.nextInode)
    ensures Covers(Ended(d, io, swap).w.log, handed)
  {
    var l, m := Flush(d.w.log, io), Ended(d, io, swap).w.log;
    FlushCovers(d.w.log, io, handed);
    FlushKeepsLog(d.w.log, io);
    if l.failed || swap == NotWritten {
      SameFileCovers(l, m, handed);
    } else {
      FloorGrows(d.image + d.w.log.tail.value, d.image + l.tail.value);
      assert m.file == d.image + l.tail.value;
    }
  }

  lemma CrashesKeeps(v: World, h: Hook, full: bool, left: seq<Record>, link: Link, w: World, dev: nat, mount: Path)
    requires WorldInv(v, dev, mount) && Next(v, Crashes(h, full, left, link), w, dev, mount)
    ensures WorldInv(w, dev, mount)
  {
    if Live(v.d.w.log) {
      LiveCrash(v.d, h, full, left, link, dev, mount);
      if !v.reused {
        LiveCrashCovers(v.d.w.log, left, link, v.handed);
      }
    } else if left != [] {
      StaleCrash(v.d, h, full, left, link, dev, mount);
      ShorterSound(v.d.w.log.file, left, dev, mount);
      if !v.reused {
        StaleCrashCovers(v.d.w.log, left, link, v.handed);
      }
    }
  }

  lemma LiveCrash(d: Daemon, h: Hook, full: bool, left: seq<Record>, link: Link, dev: nat, mount: Path)
    requires Inv(d, dev, mount) && May(d, h) && Live(d.w.log)
    requires LeftOver(d.w.log, Did(d, h, Io(full, Taken, Taken)).w.log, left, link)
    ensures IsFor(left, dev, mount) && SoundLog(left)
  {
    var io := Io(full, Taken, Taken);
    var e := Did(d, h, io);
    HookKeepsInv(d, h, io, dev, mount);
    HookWorks(d, h, io);
    SoundPrefix(left, Written(e.w.log));
    BetweenIsFor(d.w.log.file, left, e.w.log.file, e.w.log.buf, dev, mount);
  }

  /** A disk that takes every write keeps a live log live. */
  lemma HookWorks(d: Daemon, h: Hook, io: Io)
    requires io.first.Taken? && io.second.Taken?
    ensures Live(d.w.log) ==> Live(Did(d, h, io).w.log)
  {
  }

  lemma LiveCrashCovers(l: Log, left: seq<Record>, link: Link, handed: set<nat>)
    requires Live(l) && Covers(l, handed) && Honest(l) && l.file <= left && (link == Torn(true) ==> l.file < left)
    ensures Covers(Log(left, [], None, true, link, l.lost), handed)
  {
    FloorGrows(l.file, left);
    if link == Torn(true) {
      assert l.file <= DropLast(left);
      FloorGrows(l.file, DropLast(left));
    }
  }

  /** A file that has stopped following loses its last record at most, or all. */
  lemma StaleCrash(d: Daemon, h: Hook, full: bool, left: seq<Record>, link: Link, dev: nat, mount: Path)
    requires Inv(d, dev, mount) && !Live(d.w.log) && left != []
    requires LeftOver(d.w.log, Did(d, h, Io(full, Taken, Taken)).w.log, left, link)
    ensures Leftover(d.w.log, left, link)
  {
    HookShrinks(d, h, full);
  }

  ghost predicate Leftover(l: Log, left: seq<Record>, link: Link) {
    && (left == l.file || (l.link == Torn(true) && !l.failed && left == DropLast(l.file)))
    && (link == Torn(true) ==> l.link == Torn(true) && left == l.file)
  }

  lemma StaleCrashCovers(l: Log, left: seq<Record>, link: Link, handed: set<nat>)
    requires !Live(l) && Covers(l, handed) && Honest(l) && Leftover(l, left, link) && left != []
    ensures Covers(Log(left, [], None, true, link, l.lost), handed)
  {
  }

  /** What writes that succeed do to a file that has stopped following. */
  ghost predicate Shrinks(l: Log, m: Log) {
    && m.failed == l.failed && !Live(m)
    && (m.file == l.file || m.file == [] || (l.link == Torn(true) && !l.failed && m.file == DropLast(l.file)))
    && (m.link == Glued || (m.link == l.link && m.file == l.file))
  }

  lemma FlushShrinks(l: Log)
    requires !Live(l)
    ensures Shrinks(l, Flush(l, Taken))
  {
  }

  lemma HookShrinks(d: Daemon, h: Hook, full: bool)
    requires !Live(d.w.log)
    ensures Shrinks(d.w.log, Did(d, h, Io(full, Taken, Taken)).w.log)
  {
    var io := Io(full, Taken, Taken);
    var a, b := FirstAct(d, h, io), SecondAct(d, h, io);
    HookActs(d, h, io);
    ActShrinks(d.w.log, a);
    ActShrinks(Acted(d.w.log, a, Taken), b);
  }

  lemma ActShrinks(l: Log, a: Act)
    requires !Live(l)
    ensures Shrinks(l, Acted(l, a, Taken))
  {
    if a.Records? {
      FlushShrinks(l.(buf := l.buf + [a.rec]));
    } else {
      FlushShrinks(l);
    }
  }

  // ── a hook as what it does to the log ────────────────────────────────────

  datatype Act = Nothing | Records(rec: Record, now: bool) | Flushes

  function Acted(l: Log, a: Act, io: Write): Log {
    match a
    case Nothing => l
    case Records(rec, now) => Append(l, rec, now, io)
    case Flushes => Flush(l, io)
  }

  function FirstAct(d: Daemon, h: Hook, io: Io): Act {
    var s := d.w.seqNo + 1;
    match h
    case Allocate(path) =>
      if d.nextInode < d.w.reserved then Nothing else Records(Reserve(s, ReservationAfter(d.nextInode)), true)
    case Rename(ino, path, displaced) => Records(Mv(s, ino, path, displaced), true)
    case TakeNumber => Nothing
    case OpenHandle(rec) => Records(Open(s, rec), true)
    case ReleaseHandle(fh) => if fh in d.w.opens then Records(Close(s, fh), true) else Nothing
    case UnlinkHandle(fh) => if fh in d.w.opens then Records(Unlinked(s, fh), true) else Nothing
    case RetargetHandle(fh, path) => if fh in d.w.opens then Records(Retarget(s, fh, path), true) else Nothing
    case StartStream(fh, session) => Records(StreamStart(s, fh, session), true)
    case Tick => if d.nextFh != d.w.mark then Records(FhMark(s, d.nextFh), io.full) else Nothing
    case WriteOut => Flushes
  }

  function SecondAct(d: Daemon, h: Hook, io: Io): Act {
    match h
    case Allocate(path) => Records(Ino(Blocked(d.w, d.nextInode, io.first).seqNo + 1, d.nextInode, path), io.full)
    case Tick => Flushes
    case _ => Nothing
  }

  lemma HookActs(d: Daemon, h: Hook, io: Io)
    ensures Did(d, h, io).w.log == Acted(Acted(d.w.log, FirstAct(d, h, io), io.first), SecondAct(d, h, io), io.second)
  {
  }

  lemma RestoresKeeps(v: World, preInode: nat, preFh: nat, reopened: bool, w: World, dev: nat, mount: Path)
    requires WorldInv(v, dev, mount) && Next(v, Restores(preInode, preFh, reopened), w, dev, mount)
    ensures WorldInv(w, dev, mount)
  {
    ResumedInv(v.file, v.link, preInode, preFh, reopened, dev, mount);
    WrittenDefers(w.d.w.log);
  }

  lemma {:induction false} RunKeepsInv(ws: seq<World>, steps: seq<Step>, dev: nat, mount: Path, i: nat)
    requires IsRun(ws, steps, dev, mount) && i < |ws|
    ensures WorldInv(ws[i], dev, mount)
    decreases i
  {
    if i == 0 {
      InitialInv(ws[0], dev, mount);
    } else {
      RunKeepsInv(ws, steps, dev, mount, i - 1);
      StepKeepsInv(ws[i - 1], steps[i - 1], ws[i], dev, mount);
    }
  }

  lemma InitialInv(w: World, dev: nat, mount: Path)
    requires Initial(w, dev, mount)
    ensures WorldInv(w, dev, mount)
  {
    WrittenDefers(w.d.w.log);
    if Fresh(w.d, dev, mount) {
      FreshInv(w.d, dev, mount);
    } else {
      var image :| Unlogged(w.d, image, dev, mount);
      UnloggedInv(w.d, image, dev, mount);
    }
  }

  // ── the main results ─────────────────────────────────────────────────────

  lemma {:induction false} HandedGrows(ws: seq<World>, steps: seq<Step>, dev: nat, mount: Path, i: nat, j: nat)
    requires IsRun(ws, steps, dev, mount) && i <= j < |ws|
    ensures ws[i].handed <= ws[j].handed
    decreases j
  {
    if i < j {
      HandedGrows(ws, steps, dev, mount, i, j - 1);
      assert Next(ws[j - 1], steps[j - 1], ws[j], dev, mount);
    }
  }

  /** Node ids are never reused: whatever happened since an id was handed out, the next id of
      whichever daemon is running is above it, as long as no daemon was restored from a log
      that had lost a reservation. */
  lemma NodeIdsAreNeverReused(ws: seq<World>, steps: seq<Step>, dev: nat, mount: Path, i: nat, j: nat)
    requires IsRun(ws, steps, dev, mount) && i < j < |ws|
    requires steps[i].Does? && steps[i].h.Allocate? && ws[j].Up? && !ws[j].reused
    ensures ws[i].Up? && ws[i].d.nextInode < ws[j].d.nextInode
  {
    assert Next(ws[i], steps[i], ws[i + 1], dev, mount);
    HandedGrows(ws, steps, dev, mount, i + 1, j);
    RunKeepsInv(ws, steps, dev, mount, j);
  }

  /** ... and that is exactly the condition: the first daemon restored from such a log starts
      at or below an id already handed out. (It starts where the log says, unless its own
      counter had run ahead of that before the restore.) */
  lemma ReusedIffReservationLost(ws: seq<World>, steps: seq<Step>, dev: nat, mount: Path, i: nat)
    requires IsRun(ws, steps, dev, mount) && i < |steps| && steps[i].Restores? && ws[i].Down? && !ws[i].reused
    requires steps[i].preInode <= Floor(ws[i].file)
    ensures ws[i + 1].Up?
    ensures (exists id :: id in ws[i].handed && ws[i + 1].d.nextInode <= id) <==> ws[i].lost
  {
    assert Next(ws[i], steps[i], ws[i + 1], dev, mount);
    RunKeepsInv(ws, steps, dev, mount, i);
    assert ws[i + 1].d.nextInode == Floor(ws[i].file);
    assert Above(ws[i].handed, Floor(ws[i].file)) <==> !ws[i].lost;
  }

  /** While a compaction is under way the old file and the new one with what came since
      restore the same ids, handles and sessions, and the new one never hands out lower. */
  lemma CompactionPreservesMeaning(ws: seq<World>, steps: seq<Step>, dev: nat, mount: Path, i: nat)
    requires IsRun(ws, steps, dev, mount) && i < |ws|
    requires ws[i].Up? && ws[i].d.w.log.tail.Some? && Live(ws[i].d.w.log)
    ensures
      var l, image := ws[i].d.w.log, ws[i].d.image;
      var before, after := Load(l.file, dev, mount), Load(image + l.tail.value, dev, mount);
      before.Some? && after.Some? && Replaces(before.value, after.value)
  {
    RunKeepsInv(ws, steps, dev, mount, i);
    var l, image := ws[i].d.w.log, ws[i].d.image;
    BetweenIsFor(image, image + l.tail.value, image, l.tail.value + l.buf, dev, mount);
  }

  /** What a restart from `file` brings back: the handles and sessions of `d`, and of its id
      table nothing wrong. */
  ghost predicate BringsBack(file: seq<Record>, d: Daemon, dev: nat, mount: Path) {
    var r := Load(file, dev, mount);
    && r.Some? && r.value.handles == d.w.opens && LiveStreams(r.value) == d.w.streams
    && forall id :: id in r.value.inodes ==> id in d.inodes && d.inodes[id] == r.value.inodes[id]
  }

  /** A crash between hooks loses no handle and no session of a daemon whose log is live, and of
      the id table at most ids still queued, which then name nothing; nothing at all once
      everything is written. */
  lemma CrashLosesOnlyQueuedIds(ws: seq<World>, steps: seq<Step>, dev: nat, mount: Path, i: nat, left: seq<Record>)
    requires IsRun(ws, steps, dev, mount) && i < |ws| && ws[i].Up?
    requires Live(ws[i].d.w.log) && LeftBy(ws[i].d.w.log, left)
    ensures BringsBack(left, ws[i].d, dev, mount)
    ensures left == Written(ws[i].d.w.log) ==> Load(left, dev, mount).value.inodes == ws[i].d.inodes
  {
    RunKeepsInv(ws, steps, dev, mount, i);
    LeftBringsBack(ws[i].d, ws[i].d.w.log, left, dev, mount);
  }

  lemma LeftBringsBack(d: Daemon, l: Log, left: seq<Record>, dev: nat, mount: Path)
    requires Numbered(d) && Live(l) && Deferred(l) && LeftBy(l, left) && Mirrors(Fold(Written(l)), d)
    requires IsFor(l.file, dev, mount) && NoBase(l.buf)
    ensures BringsBack(left, d, dev, mount)
  {
    BetweenIsFor(l.file, left, l.file, l.buf, dev, mount);
    RestoredSessions(d, Fold(left), Fold(Written(l)));
  }

  lemma RestoredSessions(d: Daemon, r: Replayed, all: Replayed)
    requires Mirrors(all, d) && Numbered(d) && Lags(r, all)
    ensures LiveStreams(r) == d.w.streams
  {
    forall wp ensures wp in LiveStreams(all) <==> wp in d.w.streams {
      LiveIffKnown(all, d, wp);
    }
    assert LiveStreams(r) == LiveStreams(all);
  }

  // ── after the log has stopped following ──────────────────────────────────

  /** The disk refuses a write in a hook and the file stays: what it brings back is the state
      before the hook. */
  lemma RefusedBringsBack(d: Daemon, h: Hook, io: Io, dev: nat, mount: Path)
    requires Inv(d, dev, mount) && May(d, h) && Deferred(d.w.log) && Live(d.w.log)
    requires !Live(Did(d, h, io).w.log) && Did(d, h, io).w.log.file != []
    ensures BringsBack(Did(d, h, io).w.log.file, d, dev, mount)
  {
    var l, e := d.w.log, Did(d, h, io).w.log;
    var m := Acted(l, FirstAct(d, h, io), io.first);
    HookActs(d, h, io);
    if Live(m) {
      ActRefused(m, SecondAct(d, h, io), io.second);
      SecondRefused(d, h, io, m, e.file, dev, mount);
    } else {
      FirstRefused(l, m, FirstAct(d, h, io), io.first, SecondAct(d, h, io), io.second);
      LiveBringsBack(d, e.file, dev, mount);
    }
  }

  lemma FirstRefused(l: Log, m: Log, a: Act, io: Write, b: Act, io2: Write)
    requires Live(l) && m == Acted(l, a, io) && !Live(m) && Acted(m, b, io2).file != []
    ensures LeftBy(l, Acted(m, b, io2).file)
  {
    ActRefused(l, a, io);
    ActDwindles(m, b, io2);
  }

  lemma LiveBringsBack(d: Daemon, left: seq<Record>, dev: nat, mount: Path)
    requires Inv(d, dev, mount) && Live(d.w.log) && Deferred(d.w.log) && LeftBy(d.w.log, left)
    ensures BringsBack(left, d, dev, mount)
  {
    LeftBringsBack(d, d.w.log, left, dev, mount);
  }

  lemma ActRefused(l: Log, a: Act, io: Write)
    ensures Live(l) && !Live(Acted(l, a, io)) && Acted(l, a, io).file != [] ==> LeftBy(l, Acted(l, a, io).file)
  {
    if a.Records? {
      AppendExtendsLog(l, a.rec, a.now, io);
    } else {
      FlushKeepsLog(l, io);
    }
  }

  /** The reservation, or the handle counter, went through, and what came after it did not. */
  lemma SecondRefused(d: Daemon, h: Hook, io: Io, m: Log, left: seq<Record>, dev: nat, mount: Path)
    requires Inv(d, dev, mount) && Deferred(d.w.log) && Live(d.w.log)
    requires m == Acted(d.w.log, FirstAct(d, h, io), io.first) && Live(m) && LeftBy(m, left)
    requires h.Allocate? || h.Tick?
    ensures BringsBack(left, d, dev, mount)
  {
    if FirstAct(d, h, io) == Nothing {
      LiveBringsBack(d, left, dev, mount);
    } else if h.Allocate? {
      BlockRefused(d, io, left, dev, mount);
    } else {
      MarkRefused(d, io, left, dev, mount);
    }
  }

  lemma MarkRefused(d: Daemon, io: Io, left: seq<Record>, dev: nat, mount: Path)
    requires Inv(d, dev, mount) && Deferred(d.w.log)
    requires
      var m := Append(d.w.log, FhMark(d.w.seqNo + 1, d.nextFh), io.full, io.first);
      Live(m) && LeftBy(m, left)
    ensures BringsBack(left, d, dev, mount)
  {
    var mid := MarkMiddle(d, io, dev, mount);
    MiddleBringsBack(mid, d, left, dev, mount);
  }

  lemma BlockRefused(d: Daemon, io: Io, left: seq<Record>, dev: nat, mount: Path)
    requires Inv(d, dev, mount) && Deferred(d.w.log) && d.nextInode >= d.w.reserved
    requires
      var m := Append(d.w.log, Reserve(d.w.seqNo + 1, ReservationAfter(d.nextInode)), true, io.first);
      Live(m) && LeftBy(m, left)
    ensures BringsBack(left, d, dev, mount)
  {
    var mid := BlockMiddle(d, io, dev, mount);
    MiddleBringsBack(mid, d, left, dev, mount);
  }

  lemma MiddleBringsBack(mid: Daemon, d: Daemon, left: seq<Record>, dev: nat, mount: Path)
    requires Inv(mid, dev, mount) && Deferred(mid.w.log) && Live(mid.w.log) && LeftBy(mid.w.log, left)
    requires mid.inodes == d.inodes && mid.w.opens == d.w.opens && mid.w.streams == d.w.streams
    ensures BringsBack(left, d, dev, mount)
  {
    LiveBringsBack(mid, left, dev, mount);
  }

  lemma BlockMiddle(d: Daemon, io: Io, dev: nat, mount: Path) returns (mid: Daemon)
    requires Inv(d, dev, mount) && Deferred(d.w.log) && d.nextInode >= d.w.reserved
    ensures Inv(mid, dev, mount) && Deferred(mid.w.log)
    ensures mid.w.log == Append(d.w.log, Reserve(d.w.seqNo + 1, ReservationAfter(d.nextInode)), true, io.first)
    ensures mid.inodes == d.inodes && mid.w.opens == d.w.opens && mid.w.streams == d.w.streams
  {
    mid := BlockKeeps(d, io, dev, mount);
    ReserveDefers(d.w.log, d.inodes, Reserve(d.w.seqNo + 1, ReservationAfter(d.nextInode)), io.first);
  }

  lemma MarkMiddle(d: Daemon, io: Io, dev: nat, mount: Path) returns (mid: Daemon)
    requires Inv(d, dev, mount) && Deferred(d.w.log)
    ensures Inv(mid, dev, mount) && Deferred(mid.w.log)
    ensures mid.w.log == Append(d.w.log, FhMark(d.w.seqNo + 1, d.nextFh), io.full, io.first)
    ensures mid.inodes == d.inodes && mid.w.opens == d.w.opens && mid.w.streams == d.w.streams
  {
    mid := MarkKeeps(d, io, dev, mount);
    var line := FhMark(d.w.seqNo + 1, d.nextFh);
    MarkLags(Fold(Written(d.w.log)), line);
    AppendDefers(d.w.log, line, io.full, io.first);
  }

  // ── once the log does not follow ─────────────────────────────────────────

  /** A file that does not follow changes no more, but that it may be removed or become
      unreadable, or lose a last record that had no newline. */
  ghost predicate Dwindles(l: Log, m: Log) {
    && !Live(m)
    && (m.file == l.file || m.file == [] || (l.link == Torn(true) && m.file == DropLast(l.file)))
    && (m.link == Torn(true) ==> l.link == Torn(true) && (m.file == l.file || m.file == []))
  }

  lemma ActDwindles(l: Log, a: Act, io: Write)
    requires !Live(l)
    ensures Dwindles(l, Acted(l, a, io))
  {
  }

  lemma HookDwindles(d: Daemon, h: Hook, io: Io)
    requires !Live(d.w.log)
    ensures Dwindles(d.w.log, Did(d, h, io).w.log)
  {
    HookActs(d, h, io);
    ActDwindles(d.w.log, FirstAct(d, h, io), io.first);
    ActDwindles(Acted(d.w.log, FirstAct(d, h, io), io.first), SecondAct(d, h, io), io.second);
  }

  /** No compaction has put a new file at the path. */
  predicate Keeps(s: Step) {
    s.Does? || s.Begins? || (s.Ends? && s.swap == NotWritten)
  }

  lemma StepDwindles(v: World, s: Step, w: World, dev: nat, mount: Path)
    requires v.Up? && !Live(v.d.w.log) && Keeps(s) && Next(v, s, w, dev, mount)
    ensures w.Up? && Dwindles(v.d.w.log, w.d.w.log)
  {
    if s.Does? {
      HookDwindles(v.d, s.h, s.io);
    } else {
      ActDwindles(v.d.w.log, Flushes, s.write);
    }
  }

  lemma {:induction false} KeepsDwindling(ws: seq<World>, steps: seq<Step>, dev: nat, mount: Path, i: nat, j: nat)
    requires IsRun(ws, steps, dev, mount) && i <= j < |ws| && ws[i].Up? && !Live(ws[i].d.w.log)
    requires forall k :: i <= k < j ==> Keeps(steps[k])
    ensures ws[j].Up? && Dwindles(ws[i].d.w.log, ws[j].d.w.log)
    decreases j
  {
    if i < j {
      KeepsDwindling(ws, steps, dev, mount, i, j - 1);
      StepDwindles(ws[j - 1], steps[j - 1], ws[j], dev, mount);
    }
  }

  /** The moment the file was last brought up to date: a live log stops following, or a
      compaction puts a file in place that it cannot open. */
  ghost predicate Stops(v: World, s: Step, w: World) {
    && v.Up? && w.Up? && !Live(w.d.w.log) && w.d.w.log.file != []
    && (Live(v.d.w.log) || (s.Ends? && s.swap == Orphaned && !w.d.w.log.failed))
  }

  /** What the file brings back is the state just then. */
  lemma StopsBringingBack(v: World, s: Step, w: World, dev: nat, mount: Path)
    requires WorldInv(v, dev, mount) && Next(v, s, w, dev, mount) && Stops(v, s, w)
    ensures BringsBack(w.d.w.log.file, v.d, dev, mount) && w.d.w.log.link != Torn(true)
  {
    if s.Does? {
      RefusedBringsBack(v.d, s.h, s.io, dev, mount);
      HookLinks(v.d, s.h, s.io);
    } else {
      ActRefused(v.d.w.log, Flushes, s.write);
      FlushKeepsLog(v.d.w.log, s.write);
      if s.Ends? && !Flush(v.d.w.log, s.write).failed {
        SwappedBringsBack(v.d, s.write, s.swap, dev, mount);
      } else {
        LeftBringsBack(v.d, v.d.w.log, w.d.w.log.file, dev, mount);
      }
    }
  }

  lemma HookLinks(d: Daemon, h: Hook, io: Io)
    requires d.w.log.link != Torn(true)
    ensures Did(d, h, io).w.log.link != Torn(true)
  {
    HookActs(d, h, io);
    ActLinks(d.w.log, FirstAct(d, h, io), io.first);
    ActLinks(Acted(d.w.log, FirstAct(d, h, io), io.first), SecondAct(d, h, io), io.second);
  }

  lemma ActLinks(l: Log, a: Act, io: Write)
    requires l.link != Torn(true)
    ensures Acted(l, a, io).link != Torn(true)
  {
  }

  lemma SwappedBringsBack(d: Daemon, io: Write, swap: Swap, dev: nat, mount: Path)
    requires Inv(d, dev, mount) && d.w.log.tail.Some? && !Flush(d.w.log, io).failed && swap != NotWritten
    ensures BringsBack(Ended(d, io, swap).w.log.file, d, dev, mount)
  {
    var l, m := d.w.log, Flush(d.w.log, io);
    FlushKeepsLog(l, io);
    var file := Ended(d, io, swap).w.log.file;
    assert file == Compacted(m, d.image) == Compacted(l, d.image);
    BetweenIsFor(d.image, file, d.image, l.tail.value + l.buf, dev, mount);
    RestoredSessions(d, Fold(file), Fold(file));
  }

  /** Once the log has stopped following, a crash brings back the handles and sessions of just
      then, and no id that was not in the table then, however much has happened since; or
      nothing, if the file was removed. */
  lemma StaleCrashBringsBackThen(ws: seq<World>, steps: seq<Step>, dev: nat, mount: Path, i: nat, j: nat)
    requires IsRun(ws, steps, dev, mount) && i < j < |ws| && Stops(ws[i], steps[i], ws[i + 1])
    requires forall k :: i < k < j ==> Keeps(steps[k])
    ensures ws[j].Up? && !Live(ws[j].d.w.log)
    ensures ws[j].d.w.log.file != [] ==> BringsBack(ws[j].d.w.log.file, ws[i].d, dev, mount)
  {
    RunKeepsInv(ws, steps, dev, mount, i);
    StopsBringingBack(ws[i], steps[i], ws[i + 1], dev, mount);
    KeepsDwindling(ws, steps, dev, mount, i + 1, j);
  }

  /** A log that does not follow when a daemon is restored from it (its last line was cut short,
      or it cannot be opened) brings back what that daemon was restored with, ids and all; or
      that without its last record, if only the newline was missing; or nothing. */
  lemma ResumedCrashBringsBack(ws: seq<World>, steps: seq<Step>, dev: nat, mount: Path, i: nat, j: nat)
    requires IsRun(ws, steps, dev, mount) && i < j < |ws|
    requires steps[i].Restores? && ws[i + 1].Up? && !Live(ws[i + 1].d.w.log)
    requires forall k :: i < k < j ==> Keeps(steps[k])
    ensures ws[i].Down? && ws[j].Up? && !Live(ws[j].d.w.log)
    ensures
      var was, file := ws[i].file, ws[j].d.w.log.file;
      && (file == was || file == [] || (ws[i].link == Torn(true) && file == DropLast(was)))
      && (file == was ==> BringsBack(file, ws[i + 1].d, dev, mount)
                          && Load(file, dev, mount).value.inodes == ws[i + 1].d.inodes)
      && (file != [] ==> Load(file, dev, mount) == Some(Fold(file)))
  {
    RunKeepsInv(ws, steps, dev, mount, i);
    assert Next(ws[i], steps[i], ws[i + 1], dev, mount);
    KeepsDwindling(ws, steps, dev, mount, i + 1, j);
    var was, file := ws[i].file, ws[j].d.w.log.file;
    assert Fold(was).inodes - {1} == Fold(was).inodes;
    if file != [] {
      ShorterSound(was, file, dev, mount);
    }
  }
}
