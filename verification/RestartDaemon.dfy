/** A daemon and the log it keeps, hook by hook: the log always replays to the live state,
    and so does the compacted log a compaction is about to put in its place. */
module RestartDaemon {
  import opened Options
  import opened RestartLog
  import opened RestartWriter

  const FH_GAP: nat := 1048576

  /** `inodes` is the cache's id table without the root; `unopened` are handle numbers handed
      out and not (or not yet) opened as a file; `image` is the compacted log being written. */
  datatype Daemon = Daemon(
    w: Writer, inodes: map<nat, Path>, nextInode: nat, nextFh: nat, unopened: set<nat>, image: seq<Record>)

  // ── what the live state and a log have to do with each other ─────────────

  /** A session whose handle is gone for good. */
  ghost predicate Retired(d: Daemon, wp: nat) {
    wp < d.nextFh && wp !in d.unopened && wp !in d.w.opens
  }

  predicate OwnStaging(o: OpenRecord) {
    o.staging == None || o.staging == Some(o.fh)
  }

  ghost predicate Numbered(d: Daemon) {
    && (forall fh :: fh in d.w.opens ==>
          d.w.opens[fh].rec.fh == fh && OwnStaging(d.w.opens[fh].rec) && fh < d.nextFh && fh !in d.unopened)
    && (forall fh :: fh in d.unopened ==> fh < d.nextFh)
    && (forall wp :: wp in d.w.streams ==> wp in d.w.opens && d.w.opens[wp].rec.staging == Some(wp))
    && (forall i :: i in d.inodes ==> 2 <= i < d.nextInode) && Injective(d.inodes)
    && 2 <= d.nextInode <= d.w.reserved && 1 <= d.nextFh
  }

  /** Node id 1 is the root's and never logged; handles carry their own numbers; a session
      was started by a handle that was open. */
  ghost predicate Good(r: Replayed) {
    && (forall i :: i in r.inodes ==> 2 <= i <= r.maxIno)
    && (forall fh :: fh in r.handles ==>
          r.handles[fh].rec.fh == fh && OwnStaging(r.handles[fh].rec) && fh <= r.maxFh)
    && (forall wp :: wp in r.streams ==>
          wp <= r.maxFh && (wp in r.handles ==> r.handles[wp].rec.staging == Some(wp)))
  }

  ghost predicate StreamsMirror(r: Replayed, d: Daemon) {
    && (forall wp :: wp in d.w.streams ==> wp in r.streams && r.streams[wp] == d.w.streams[wp])
    && (forall wp :: wp in r.streams && wp !in d.w.streams ==> Retired(d, wp))
  }

  ghost predicate Bounded(r: Replayed, d: Daemon) {
    r.maxIno < d.nextInode && r.reserved <= d.w.reserved && r.maxFh < d.nextFh
  }

  /** Replaying gives back the live state. */
  ghost predicate Mirrors(r: Replayed, d: Daemon) {
    && r.inodes == d.inodes && r.handles == d.w.opens
    && StreamsMirror(r, d) && Bounded(r, d) && Good(r)
  }

  ghost predicate SoundLog(log: seq<Record>) {
    log == [] || (SoundLog(log[..|log| - 1]) && Good(Fold(log)))
  }

  /** What a restart makes of a log: the id table, the open handles, their sessions. */
  ghost predicate SameMeaning(a: Replayed, b: Replayed) {
    a.inodes == b.inodes && a.handles == b.handles && LiveStreams(a) == LiveStreams(b)
  }

  /** `b` restores what `a` does, and starts numbering at least as high. */
  ghost predicate Replaces(a: Replayed, b: Replayed) {
    SameMeaning(a, b) && FirstFreeIno(a) <= FirstFreeIno(b)
  }

  lemma BothMirror(a: Replayed, b: Replayed, d: Daemon)
    requires Mirrors(a, d) && Mirrors(b, d) && Numbered(d)
    ensures SameMeaning(a, b)
  {
    forall wp ensures wp in LiveStreams(a) <==> wp in d.w.streams {
      LiveIffKnown(a, d, wp);
    }
    forall wp ensures wp in LiveStreams(b) <==> wp in d.w.streams {
      LiveIffKnown(b, d, wp);
    }
  }

  lemma LiveIffKnown(r: Replayed, d: Daemon, wp: nat)
    requires Mirrors(r, d) && Numbered(d)
    ensures wp in LiveStreams(r) <==> wp in d.w.streams
  {
    if wp in LiveStreams(r) {
      var fh :| fh in r.handles && r.handles[fh].rec.staging == Some(wp);
      assert fh == wp;
    }
    if wp in d.w.streams {
      assert r.handles[wp].rec.staging == Some(wp);
    }
  }

  // ── general facts about logs ─────────────────────────────────────────────

  lemma {:induction false} SoundPrefix(a: seq<Record>, b: seq<Record>)
    requires a <= b && SoundLog(b)
    ensures SoundLog(a)
    decreases |b|
  {
    if a != b {
      assert a <= b[..|b| - 1];
      SoundPrefix(a, b[..|b| - 1]);
    }
  }

  lemma SoundAppend(log: seq<Record>, rec: Record)
    requires SoundLog(log) && Good(Apply(Fold(log), rec))
    ensures SoundLog(log + [rec])
  {
    assert (log + [rec])[..|log|] == log;
    FoldAppend(log, rec);
  }

  ghost predicate Injective(inodes: map<nat, Path>) {
    forall i, j :: i in inodes && j in inodes && inodes[i] == inodes[j] ==> i == j
  }

  /** Replayed id tables never alias: no two ids name one path. */
  lemma {:induction false} FoldInjective(log: seq<Record>)
    ensures Injective(Fold(log).inodes)
  {
    if log != [] {
      FoldInjective(log[..|log| - 1]);
    }
  }

  predicate Names(rec: Record, id: nat) {
    (rec.Ino? || rec.Mv?) && rec.ino == id
  }

  /** An id whose path another id took, or that a rename dropped, stays unresolvable until it
      is logged again. */
  lemma {:induction false} DisplacedStaysGone(log: seq<Record>, rec: Record, later: seq<Record>, id: nat)
    requires (rec.Ino? || rec.Mv?) && rec.ino != id
    requires
      || (id in Fold(log).inodes && Fold(log).inodes[id] == rec.path)
      || (rec.Mv? && rec.dropped == Some(id))
    requires forall i :: 0 <= i < |later| ==> !Names(later[i], id)
    ensures id !in Fold(log + [rec] + later).inodes
    decreases |later|
  {
    if later == [] {
      FoldAppend(log, rec);
      assert log + [rec] + [] == log + [rec];
    } else {
      var n := |later| - 1;
      DisplacedStaysGone(log, rec, later[..n], id);
      FoldAppend(log + [rec] + later[..n], later[n]);
      GoneStaysGone(Fold(log + [rec] + later[..n]), later[n], id);
      assert log + [rec] + later == log + [rec] + later[..n] + [later[n]];
    }
  }

  lemma GoneStaysGone(r: Replayed, rec: Record, id: nat)
    requires id !in r.inodes && !Names(rec, id)
    ensures id !in Apply(r, rec).inodes
  {
  }

  // ── the daemon's invariant ───────────────────────────────────────────────

  ghost predicate NoBase(log: seq<Record>) {
    forall i :: 0 <= i < |log| ==> !log[i].Base?
  }

  function Floor(file: seq<Record>): nat {
    FirstFreeIno(Fold(file))
  }

  /** The compacted log a compaction is about to put in place replays to the live state, with
      everything reserved. */
  ghost predicate ImageSound(d: Daemon, dev: nat, mount: Path)
    requires d.w.log.tail.Some?
  {
    var l := d.w.log;
    && IsFor(d.image, dev, mount) && NoBase(l.tail.value + l.buf)
    && SoundLog(Compacted(l, d.image)) && Mirrors(Fold(Compacted(l, d.image)), d)
    && d.w.reserved <= Floor(d.image + l.tail.value)
  }

  /** A log that follows replays to the live state; so, as far as it is written, does what a
      compaction under way will replace it with. */
  ghost predicate LogSound(d: Daemon, dev: nat, mount: Path) {
    var l := d.w.log;
    && IsFor(l.file, dev, mount) && NoBase(l.buf) && !l.lost
    && SoundLog(Written(l)) && Mirrors(Fold(Written(l)), d)
    && (d.nextInode < d.w.reserved ==> d.w.reserved <= Floor(l.file))
    && (l.tail.Some? ==> Replaces(Fold(l.file), Fold(d.image + l.tail.value)))
  }

  /** One that has stopped following is still a log, and covers what was reserved until a
      reservation was lost. */
  ghost predicate StaleSound(d: Daemon, dev: nat, mount: Path) {
    var l := d.w.log;
    && IsFor(l.file, dev, mount) && SoundLog(l.file)
    && Floor(l.file) <= d.w.reserved
    && (!l.lost && d.nextInode < d.w.reserved ==> d.w.reserved <= Floor(l.file))
  }

  ghost predicate Inv(d: Daemon, dev: nat, mount: Path) {
    var l := d.w.log;
    && Numbered(d)
    && (!l.failed && l.tail.Some? ==> ImageSound(d, dev, mount))
    && (Live(l) ==> LogSound(d, dev, mount))
    && (!Live(l) && l.file != [] ==> StaleSound(d, dev, mount))
    && (l.link.Torn? && (l.link.cut || !l.failed) ==>
          (l.lost ==> l.failed) && (!l.lost ==> d.nextInode == d.w.reserved))
  }

  /** Whatever mirrors `d` mirrors `e` once `rec` is replayed. */
  ghost predicate Carries(d: Daemon, rec: Record, e: Daemon) {
    forall r {:trigger Mirrors(r, d)} :: Mirrors(r, d) ==> Mirrors(Apply(r, rec), e)
  }

  /** The counters of `e` are those of `d`, but for a reservation or an id out of one. */
  ghost predicate Counts(d: Daemon, rec: Record, now: bool, e: Daemon) {
    && d.w.reserved <= e.w.reserved
    && (if rec.Reserve? then now && rec.upto == e.w.reserved && e.nextInode == d.nextInode
        else e.w.reserved == d.w.reserved && (e.nextInode == d.nextInode || d.nextInode < d.w.reserved))
  }

  /** One record on its way into the log keeps everything, if the new state is what the old
      one becomes by it. */
  lemma RecordKeeps(d: Daemon, e: Daemon, rec: Record, now: bool, io: Write, dev: nat, mount: Path)
    requires Inv(d, dev, mount) && Numbered(e) && !rec.Base?
    requires e.w.log == Append(d.w.log, rec, now, io) && e.image == d.image
    requires Carries(d, rec, e) && Counts(d, rec, now, e)
    ensures Inv(e, dev, mount)
  {
    AppendExtendsLog(d.w.log, rec, now, io);
    if !e.w.log.failed && e.w.log.tail.Some? {
      ImageGrows(d, e, rec, now, io, dev, mount);
    }
    if Live(e.w.log) {
      LogSoundGrows(d, e, rec, now, io, dev, mount);
    } else if e.w.log.file != [] {
      if Live(d.w.log) {
        GoesStale(d, e, rec, now, io, dev, mount);
      } else {
        StaysStale(d, e, rec, now, io, dev, mount);
      }
    }
  }

  lemma LogGrows(l: seq<Record>, rec: Record, m: seq<Record>)
    requires SoundLog(l) && Good(Apply(Fold(l), rec)) && m == l + [rec]
    ensures SoundLog(m) && Fold(m) == Apply(Fold(l), rec)
  {
    SoundAppend(l, rec);
    FoldAppend(l, rec);
  }

  lemma ImageGrows(d: Daemon, e: Daemon, rec: Record, now: bool, io: Write, dev: nat, mount: Path)
    requires !d.w.log.failed && d.w.log.tail.Some? && ImageSound(d, dev, mount) && !rec.Base?
    requires e.w.log == Append(d.w.log, rec, now, io) && e.image == d.image && !e.w.log.failed && e.w.log.tail.Some?
    requires Carries(d, rec, e) && Counts(d, rec, now, e)
    ensures ImageSound(e, dev, mount)
  {
    var l, m := d.w.log, e.w.log;
    AppendExtendsLog(l, rec, now, io);
    assert Mirrors(Apply(Fold(Compacted(l, d.image)), rec), e);
    LogGrows(Compacted(l, d.image), rec, Compacted(m, d.image));
    FloorGrows(d.image + l.tail.value, d.image + m.tail.value);
    if rec.Reserve? {
      assert d.image + m.tail.value == Compacted(m, d.image);
    }
  }

  /** Nothing recorded is above what is reserved. */
  lemma FloorBounded(r: Replayed, d: Daemon)
    requires Mirrors(r, d) && Numbered(d)
    ensures FirstFreeIno(r) <= d.w.reserved
  {
  }

  lemma LogSoundGrows(d: Daemon, e: Daemon, rec: Record, now: bool, io: Write, dev: nat, mount: Path)
    requires Live(d.w.log) && LogSound(d, dev, mount) && !rec.Base? && Numbered(e)
    requires e.w.log == Append(d.w.log, rec, now, io) && e.image == d.image && Live(e.w.log)
    requires e.w.log.tail.Some? ==> ImageSound(e, dev, mount)
    requires Carries(d, rec, e) && Counts(d, rec, now, e)
    ensures LogSound(e, dev, mount)
  {
    var l, m := d.w.log, e.w.log;
    AppendExtendsLog(l, rec, now, io);
    assert Mirrors(Apply(Fold(Written(l)), rec), e);
    LogGrows(Written(l), rec, Written(m));
    FloorGrows(l.file, m.file);
    if m.tail.Some? && now {
      assert e.image + m.tail.value == Compacted(m, e.image);
      NowReplaces(Fold(m.file), Fold(Compacted(m, e.image)), e);
    }
  }

  lemma NowReplaces(a: Replayed, b: Replayed, d: Daemon)
    requires Mirrors(a, d) && Mirrors(b, d) && Numbered(d) && d.w.reserved <= FirstFreeIno(b)
    ensures Replaces(a, b)
  {
    BothMirror(a, b, d);
    FloorBounded(a, d);
  }

  /** The disk refuses the write and the file stays: it ends in what was recorded before. */
  lemma GoesStale(d: Daemon, e: Daemon, rec: Record, now: bool, io: Write, dev: nat, mount: Path)
    requires Numbered(d) && Live(d.w.log) && LogSound(d, dev, mount)
    requires e.w.log == Append(d.w.log, rec, now, io) && !Live(e.w.log) && e.w.log.file != []
    requires Counts(d, rec, now, e)
    ensures StaleSound(e, dev, mount)
  {
    var l, m := d.w.log, e.w.log;
    AppendExtendsLog(l, rec, now, io);
    LeftSound(l, m.file, dev, mount);
    FloorBounded(Fold(Written(l)), d);
    FloorGrows(l.file, m.file);
    FloorGrows(m.file, Written(l));
  }

  /** Any part of what is recorded, from what is on disk on, is a sound log. */
  lemma LeftSound(l: Log, f: seq<Record>, dev: nat, mount: Path)
    requires IsFor(l.file, dev, mount) && NoBase(l.buf) && SoundLog(Written(l)) && l.file <= f <= Written(l)
    ensures IsFor(f, dev, mount) && SoundLog(f)
  {
    SoundPrefix(f, Written(l));
    BetweenIsFor(l.file, f, l.file, l.buf, dev, mount);
  }

  lemma BetweenIsFor(a: seq<Record>, left: seq<Record>, b: seq<Record>, buf: seq<Record>, dev: nat, mount: Path)
    requires a != [] && a <= left <= b + buf && IsFor(b, dev, mount) && NoBase(buf)
    ensures IsFor(left, dev, mount)
  {
    forall i | 1 <= i < |left| ensures !left[i].Base? {
      assert left[i] == (b + buf)[i];
    }
  }

  lemma StaysStale(d: Daemon, e: Daemon, rec: Record, now: bool, io: Write, dev: nat, mount: Path)
    requires Inv(d, dev, mount) && !Live(d.w.log)
    requires e.w.log == Append(d.w.log, rec, now, io) && e.w.log.file != []
    requires Counts(d, rec, now, e)
    ensures StaleSound(e, dev, mount)
  {
    var l, m := d.w.log, e.w.log;
    AppendExtendsLog(l, rec, now, io);
    ShorterSound(l.file, m.file, dev, mount);
    assert m.file == l.file || l.link.Torn?;
  }

  lemma ShorterSound(file: seq<Record>, f: seq<Record>, dev: nat, mount: Path)
    requires IsFor(file, dev, mount) && SoundLog(file) && f <= file && f != []
    ensures IsFor(f, dev, mount) && SoundLog(f) && Floor(f) <= Floor(file)
  {
    SoundPrefix(f, file);
    FloorGrows(f, file);
  }

  lemma FlushKeeps(d: Daemon, io: Write, dev: nat, mount: Path)
    requires Inv(d, dev, mount)
    ensures Inv(d.(w := d.w.(log := Flush(d.w.log, io))), dev, mount)
  {
    var l, m := d.w.log, Flush(d.w.log, io);
    FlushKeepsLog(l, io);
    var e := d.(w := d.w.(log := m));
    if !m.failed && m.tail.Some? {
      FlushedImage(d, e, io, dev, mount);
    }
    if Live(m) {
      FlushedLive(d, e, io, dev, mount);
    } else if m.file != [] {
      FlushedStale(d, e, io, dev, mount);
    }
  }

  lemma FlushedImage(d: Daemon, e: Daemon, io: Write, dev: nat, mount: Path)
    requires d.w.log.tail.Some? && !d.w.log.failed && ImageSound(d, dev, mount)
    requires e == d.(w := d.w.(log := Flush(d.w.log, io))) && !e.w.log.failed && e.w.log.tail.Some?
    ensures ImageSound(e, dev, mount)
  {
    var l, m := d.w.log, e.w.log;
    FlushKeepsLog(l, io);
    MirrorsWriter(Fold(Compacted(l, d.image)), d, e);
    FloorGrows(d.image + l.tail.value, d.image + m.tail.value);
    assert m.tail.value + m.buf == l.tail.value + l.buf;
  }

  lemma FlushedStale(d: Daemon, e: Daemon, io: Write, dev: nat, mount: Path)
    requires Inv(d, dev, mount) && e == d.(w := d.w.(log := Flush(d.w.log, io)))
    requires !Live(e.w.log) && e.w.log.file != []
    ensures StaleSound(e, dev, mount)
  {
    var l, m := d.w.log, e.w.log;
    FlushKeepsLog(l, io);
    if Live(l) {
      assert l.file <= m.file <= Written(l);
      LeftSound(l, m.file, dev, mount);
      FloorBounded(Fold(Written(l)), d);
      FloorGrows(l.file, m.file);
      FloorGrows(m.file, Written(l));
    } else {
      ShorterSound(l.file, m.file, dev, mount);
      assert m.file == l.file || l.link.Torn?;
    }
  }

  lemma FlushedLive(d: Daemon, e: Daemon, io: Write, dev: nat, mount: Path)
    requires Inv(d, dev, mount) && Live(d.w.log) && e == d.(w := d.w.(log := Flush(d.w.log, io))) && Live(e.w.log)
    requires e.w.log.tail.Some? ==> ImageSound(e, dev, mount)
    ensures LogSound(e, dev, mount)
  {
    var l, m := d.w.log, e.w.log;
    FlushKeepsLog(l, io);
    FloorGrows(l.file, m.file);
    MirrorsWriter(Fold(Written(l)), d, e);
    if m.tail.Some? {
      assert e.image + m.tail.value == Compacted(m, e.image);
      NowReplaces(Fold(m.file), Fold(Compacted(m, e.image)), e);
    }
  }

  /** Only the open handles, sessions and counters matter to what mirrors a daemon. */
  lemma MirrorsWriter(r: Replayed, d: Daemon, e: Daemon)
    requires Mirrors(r, d) && e == d.(w := d.w.(log := e.w.log))
    ensures Mirrors(r, e)
  {
    forall wp | Retired(d, wp) ensures Retired(e, wp) {
    }
  }

  // ── the hooks ────────────────────────────────────────────────────────────

  /** `Allocate` and `Rename` change the id table; `TakeNumber` hands out a handle number,
      which may or may not become an open file; `WriteOut` comes before a hand-over. */
  datatype Hook =
    | Allocate(path: Path)
    | Rename(ino: nat, path: Path, displaced: Option<nat>)
    | TakeNumber
    | OpenHandle(rec: OpenRecord)
    | ReleaseHandle(fh: nat)
    | UnlinkHandle(fh: nat)
    | RetargetHandle(fh: nat, path: Path)
    | StartStream(fh: nat, session: string)
    | Tick
    | WriteOut

  /** What the filesystem calls: an id is allocated for a path that has none, the id a rename
      drops is the one that was there, a handle opens once under a number of its own, and
      only an open handle with a staging file starts a session. */
  ghost predicate May(d: Daemon, h: Hook) {
    match h
    case Allocate(path) => forall i :: i in d.inodes ==> d.inodes[i] != path
    case Rename(ino, path, displaced) =>
      && ino in d.inodes
      && (forall i :: i in d.inodes && i != ino && d.inodes[i] == path ==> displaced == Some(i))
      && (displaced.Some? ==>
          displaced.value in d.inodes && displaced.value != ino && d.inodes[displaced.value] == path)
    case OpenHandle(rec) => rec.fh in d.unopened && OwnStaging(rec)
    case StartStream(fh, _) => fh in d.w.opens && d.w.opens[fh].rec.staging == Some(fh)
    case _ => true
  }

  function Did(d: Daemon, h: Hook, io: Io): Daemon {
    match h
    case Allocate(path) =>
      d.(w := LogInode(d.w, d.nextInode, path, io), inodes := d.inodes[d.nextInode := path],
          nextInode := d.nextInode + 1)
    case Rename(ino, path, displaced) =>
      d.(w := LogMove(d.w, ino, path, displaced, io),
         inodes := (if displaced.Some? then d.inodes - {displaced.value} else d.inodes)[ino := path])
    case TakeNumber => d.(nextFh := d.nextFh + 1, unopened := d.unopened + {d.nextFh})
    case OpenHandle(rec) => d.(w := LogOpen(d.w, rec, io), unopened := d.unopened - {rec.fh})
    case ReleaseHandle(fh) => d.(w := LogRelease(d.w, fh, io))
    case UnlinkHandle(fh) => d.(w := LogUnlink(d.w, fh, io))
    case RetargetHandle(fh, path) => d.(w := LogRetarget(d.w, fh, path, io))
    case StartStream(fh, session) => d.(w := LogStream(d.w, fh, session, io))
    case Tick => d.(w := LogTick(d.w, d.nextFh, io))
    case WriteOut => d.(w := d.w.(log := Flush(d.w.log, io.first)))
  }

  /** A number handed out may become an open handle, with a staging file of that number or none;
      with one it may start a session. */
  lemma NumberMayOpen(d: Daemon, rec: OpenRecord, session: string, io: Io)
    requires rec.fh == d.nextFh && (rec.staging == None || rec.staging == Some(rec.fh))
    ensures
      var e := Did(d, TakeNumber, io);
      && May(d, TakeNumber) && e.nextFh == d.nextFh + 1 && May(e, OpenHandle(rec))
      && (rec.staging != None ==> May(Did(e, OpenHandle(rec), io), StartStream(rec.fh, session)))
  {
  }

  lemma HookKeepsInv(d: Daemon, h: Hook, io: Io, dev: nat, mount: Path)
    requires Inv(d, dev, mount) && May(d, h)
    ensures Inv(Did(d, h, io), dev, mount)
  {
    match h
    case Allocate(path) => AllocateKeeps(d, path, io, dev, mount);
    case Rename(ino, path, displaced) => RenameKeeps(d, h, io, dev, mount);
    case TakeNumber => TakeNumberKeeps(d, io, dev, mount);
    case OpenHandle(rec) => OpenKeeps(d, rec, io, dev, mount);
    case ReleaseHandle(fh) => ReleaseKeeps(d, fh, io, dev, mount);
    case UnlinkHandle(fh) => UnlinkKeeps(d, fh, io, dev, mount);
    case RetargetHandle(fh, path) => RetargetKeeps(d, fh, path, io, dev, mount);
    case StartStream(fh, session) => StreamKeeps(d, fh, session, io, dev, mount);
    case Tick => TickKeeps(d, io, dev, mount);
    case WriteOut => FlushKeeps(d, io.first, dev, mount);
  }

  lemma TableNumbered(d: Daemon, h: Hook, io: Io)
    requires Numbered(d) && May(d, h) && (h.Rename? || (h.Allocate? && d.nextInode < d.w.reserved))
    ensures Numbered(Did(d, h, io))
  {
  }

  lemma OpenNumbered(d: Daemon, rec: OpenRecord, io: Io)
    requires Numbered(d) && May(d, OpenHandle(rec))
    ensures Numbered(Did(d, OpenHandle(rec), io))
  {
  }

  lemma HandleNumbered(d: Daemon, h: Hook, io: Io)
    requires Numbered(d) && May(d, h) && (h.ReleaseHandle? || h.UnlinkHandle? || h.RetargetHandle? || h.StartStream?)
    ensures Numbered(Did(d, h, io))
  {
  }

  /** The sessions on both sides are untouched, and no handle comes back. */
  lemma StreamsStay(r: Replayed, d: Daemon, e: Daemon)
    requires StreamsMirror(r, d) && e.w.streams == d.w.streams
    requires d.nextFh <= e.nextFh
    requires forall wp :: wp < d.nextFh && (wp in e.unopened || wp in e.w.opens) ==> wp in d.unopened || wp in d.w.opens
    ensures StreamsMirror(r, e)
  {
    forall wp | Retired(d, wp) ensures Retired(e, wp) {
    }
  }

  ghost predicate SameHandles(d: Daemon, e: Daemon) {
    && e.w.opens == d.w.opens && e.w.streams == d.w.streams
    && e.nextFh == d.nextFh && e.unopened == d.unopened
  }

  lemma ReserveCarries(d: Daemon, rec: Record, e: Daemon)
    requires rec.Reserve? && SameHandles(d, e) && e.inodes == d.inodes && e.nextInode == d.nextInode
    requires d.w.reserved <= rec.upto == e.w.reserved
    ensures Carries(d, rec, e)
  {
    forall r | Mirrors(r, d) ensures Mirrors(Apply(r, rec), e) {
      StreamsStay(r, d, e);
    }
  }

  lemma MarkCarries(d: Daemon, rec: Record, e: Daemon)
    requires rec.FhMark? && SameHandles(d, e) && e.inodes == d.inodes && e.nextInode == d.nextInode
    requires e.w.reserved == d.w.reserved
    ensures Carries(d, rec, e)
  {
    forall r | Mirrors(r, d) ensures Mirrors(Apply(r, rec), e) {
      StreamsStay(r, d, e);
    }
  }

  /** A record that gives `rec.ino` a path turns the old table into the new one. */
  lemma TableCarries(d: Daemon, rec: Record, e: Daemon)
    requires rec.Ino? || rec.Mv?
    requires SameHandles(d, e) && e.w.reserved == d.w.reserved
    requires 2 <= rec.ino < e.nextInode && d.nextInode <= e.nextInode
    requires Apply(EMPTY.(inodes := d.inodes), rec).inodes == e.inodes
    ensures Carries(d, rec, e)
  {
    forall r | Mirrors(r, d) ensures Mirrors(Apply(r, rec), e) {
      StreamsStay(r, d, e);
    }
  }

  lemma AllocateKeeps(d: Daemon, path: Path, io: Io, dev: nat, mount: Path)
    requires Inv(d, dev, mount) && May(d, Allocate(path))
    ensures Inv(Did(d, Allocate(path), io), dev, mount)
  {
    if d.nextInode < d.w.reserved {
      IdKeeps(d, path, io, dev, mount);
    } else {
      var m := BlockKeeps(d, io, dev, mount);
      IdKeeps(m, path, io, dev, mount);
      BlockThenId(d, m, path, io);
    }
  }

  lemma IdKeeps(d: Daemon, path: Path, io: Io, dev: nat, mount: Path)
    requires Inv(d, dev, mount) && May(d, Allocate(path)) && d.nextInode < d.w.reserved
    ensures Inv(Did(d, Allocate(path), io), dev, mount)
  {
    var rec := Ino(d.w.seqNo + 1, d.nextInode, path);
    var e := Did(d, Allocate(path), io);
    TableNumbered(d, Allocate(path), io);
    IdCarries(d, path, io);
    RecordKeeps(d, e, rec, io.full, io.second, dev, mount);
  }

  lemma IdCarries(d: Daemon, path: Path, io: Io)
    requires 2 <= d.nextInode < d.w.reserved && May(d, Allocate(path))
    ensures Carries(d, Ino(d.w.seqNo + 1, d.nextInode, path), Did(d, Allocate(path), io))
  {
    AllocatedTable(d.inodes, d.nextInode, path);
    TableCarries(d, Ino(d.w.seqNo + 1, d.nextInode, path), Did(d, Allocate(path), io));
  }

  ghost predicate IsBlock(d: Daemon, m: Daemon, io: Io) {
    var upto := ReservationAfter(d.nextInode);
    m == d.(w := d.w.(reserved := upto, seqNo := d.w.seqNo + 1,
                      log := Append(d.w.log, Reserve(d.w.seqNo + 1, upto), true, io.first)))
  }

  lemma BlockKeeps(d: Daemon, io: Io, dev: nat, mount: Path) returns (m: Daemon)
    requires Inv(d, dev, mount) && d.nextInode >= d.w.reserved
    ensures IsBlock(d, m, io) && m.inodes == d.inodes && m.nextInode < m.w.reserved
    ensures Inv(m, dev, mount)
  {
    var upto := ReservationAfter(d.nextInode);
    var rec := Reserve(d.w.seqNo + 1, upto);
    m := d.(w := d.w.(reserved := upto, seqNo := d.w.seqNo + 1, log := Append(d.w.log, rec, true, io.first)));
    ReserveCarries(d, rec, m);
    RecordKeeps(d, m, rec, true, io.first, dev, mount);
  }

  lemma BlockThenId(d: Daemon, m: Daemon, path: Path, io: Io)
    requires IsBlock(d, m, io) && d.nextInode >= d.w.reserved
    ensures Did(m, Allocate(path), io) == Did(d, Allocate(path), io)
  {
  }

  lemma RenameKeeps(d: Daemon, h: Hook, io: Io, dev: nat, mount: Path)
    requires Inv(d, dev, mount) && May(d, h) && h.Rename?
    ensures Inv(Did(d, h, io), dev, mount)
  {
    var e := Did(d, h, io);
    var rec := Mv(d.w.seqNo + 1, h.ino, h.path, h.displaced);
    TableNumbered(d, h, io);
    MovedTable(d.inodes, h.ino, h.path, h.displaced, e.inodes);
    TableCarries(d, rec, e);
    RecordKeeps(d, e, rec, true, io.first, dev, mount);
  }

  /** The record's meaning is what the cache does: one displaced id goes. */
  lemma MovedTable(inodes: map<nat, Path>, ino: nat, path: Path, displaced: Option<nat>, after: map<nat, Path>)
    requires forall i :: i in inodes && i != ino && inodes[i] == path ==> displaced == Some(i)
    requires displaced.Some? ==> displaced.value in inodes && displaced.value != ino && inodes[displaced.value] == path
    requires after == (if displaced.Some? then inodes - {displaced.value} else inodes)[ino := path]
    ensures Moved(inodes, ino, path, displaced) == after
  {
  }

  lemma AllocatedTable(inodes: map<nat, Path>, ino: nat, path: Path)
    requires forall i :: i in inodes ==> inodes[i] != path
    ensures Assign(inodes, ino, path) == inodes[ino := path]
  {
  }

  lemma TakeNumberKeeps(d: Daemon, io: Io, dev: nat, mount: Path)
    requires Inv(d, dev, mount)
    ensures Inv(Did(d, TakeNumber, io), dev, mount)
  {
    var e, l := Did(d, TakeNumber, io), d.w.log;
    if Live(l) {
      StreamsStay(Fold(Written(l)), d, e);
    }
    if !l.failed && l.tail.Some? {
      StreamsStay(Fold(Compacted(l, d.image)), d, e);
    }
  }

  ghost predicate SameTable(d: Daemon, e: Daemon) {
    e.inodes == d.inodes && e.nextInode == d.nextInode && e.w.reserved == d.w.reserved && e.nextFh == d.nextFh
  }

  lemma OpenKeeps(d: Daemon, rec: OpenRecord, io: Io, dev: nat, mount: Path)
    requires Inv(d, dev, mount) && May(d, OpenHandle(rec))
    ensures Inv(Did(d, OpenHandle(rec), io), dev, mount)
  {
    var e := Did(d, OpenHandle(rec), io);
    var line := Open(d.w.seqNo + 1, rec);
    OpenNumbered(d, rec, io);
    OpenCarries(d, line, e);
    RecordKeeps(d, e, line, true, io.first, dev, mount);
  }

  lemma OpenCarries(d: Daemon, line: Record, e: Daemon)
    requires Numbered(d) && Numbered(e) && SameTable(d, e) && line.Open? && line.rec.fh in d.unopened
    requires e.w.streams == d.w.streams && e.unopened == d.unopened - {line.rec.fh}
    requires e.w.opens == d.w.opens[line.rec.fh := Handle(line.s, line.rec)]
    ensures Carries(d, line, e)
  {
    forall r | Mirrors(r, d) ensures Mirrors(Apply(r, line), e) {
      StreamsStay(r, d, e);
      assert line.rec.fh !in r.streams;
    }
  }

  lemma ReleaseKeeps(d: Daemon, fh: nat, io: Io, dev: nat, mount: Path)
    requires Inv(d, dev, mount)
    ensures Inv(Did(d, ReleaseHandle(fh), io), dev, mount)
  {
    var e := Did(d, ReleaseHandle(fh), io);
    if fh in d.w.opens {
      ReleaseStep(d, fh, io);
      RecordKeeps(d, e, Close(d.w.seqNo + 1, fh), true, io.first, dev, mount);
    } else {
      assert e == d;
    }
  }

  lemma ReleaseStep(d: Daemon, fh: nat, io: Io)
    requires Numbered(d) && fh in d.w.opens
    ensures
      var e, line := Did(d, ReleaseHandle(fh), io), Close(d.w.seqNo + 1, fh);
      && Numbered(e) && Carries(d, line, e) && Counts(d, line, true, e)
      && e.w.log == Append(d.w.log, line, true, io.first) && e.image == d.image
  {
    HandleNumbered(d, ReleaseHandle(fh), io);
    ReleaseCarries(d, Close(d.w.seqNo + 1, fh), Did(d, ReleaseHandle(fh), io));
  }

  lemma ReleaseCarries(d: Daemon, line: Record, e: Daemon)
    requires Numbered(d) && SameTable(d, e) && line.Close? && line.fh in d.w.opens
    requires e.w.opens == d.w.opens - {line.fh} && e.w.streams == d.w.streams - {line.fh}
    requires e.unopened == d.unopened
    ensures Carries(d, line, e)
  {
    forall r | Mirrors(r, d) ensures Mirrors(Apply(r, line), e) {
      forall wp | wp in r.streams && wp !in e.w.streams ensures Retired(e, wp) {
        assert wp == line.fh || Retired(d, wp);
      }
    }
  }

  lemma UnlinkKeeps(d: Daemon, fh: nat, io: Io, dev: nat, mount: Path)
    requires Inv(d, dev, mount)
    ensures Inv(Did(d, UnlinkHandle(fh), io), dev, mount)
  {
    var e := Did(d, UnlinkHandle(fh), io);
    if fh in d.w.opens {
      UnlinkStep(d, fh, io);
      RecordKeeps(d, e, Unlinked(d.w.seqNo + 1, fh), true, io.first, dev, mount);
    } else {
      assert e == d;
    }
  }

  lemma UnlinkStep(d: Daemon, fh: nat, io: Io)
    requires Numbered(d) && fh in d.w.opens
    ensures
      var e, line := Did(d, UnlinkHandle(fh), io), Unlinked(d.w.seqNo + 1, fh);
      && Numbered(e) && Carries(d, line, e) && Counts(d, line, true, e)
      && e.w.log == Append(d.w.log, line, true, io.first) && e.image == d.image
  {
    HandleNumbered(d, UnlinkHandle(fh), io);
    UnlinkCarries(d, Unlinked(d.w.seqNo + 1, fh), Did(d, UnlinkHandle(fh), io));
  }

  lemma RetargetKeeps(d: Daemon, fh: nat, path: Path, io: Io, dev: nat, mount: Path)
    requires Inv(d, dev, mount)
    ensures Inv(Did(d, RetargetHandle(fh, path), io), dev, mount)
  {
    var e := Did(d, RetargetHandle(fh, path), io);
    if fh in d.w.opens {
      RetargetStep(d, fh, path, io);
      RecordKeeps(d, e, Retarget(d.w.seqNo + 1, fh, path), true, io.first, dev, mount);
    } else {
      assert e == d;
    }
  }

  lemma RetargetStep(d: Daemon, fh: nat, path: Path, io: Io)
    requires Numbered(d) && fh in d.w.opens
    ensures
      var e, line := Did(d, RetargetHandle(fh, path), io), Retarget(d.w.seqNo + 1, fh, path);
      && Numbered(e) && Carries(d, line, e) && Counts(d, line, true, e)
      && e.w.log == Append(d.w.log, line, true, io.first) && e.image == d.image
  {
    HandleNumbered(d, RetargetHandle(fh, path), io);
    RetargetCarries(d, Retarget(d.w.seqNo + 1, fh, path), Did(d, RetargetHandle(fh, path), io));
  }

  lemma UnlinkCarries(d: Daemon, line: Record, e: Daemon)
    requires Numbered(d) && SameTable(d, e) && line.Unlinked? && line.fh in d.w.opens
    requires e.w.opens ==
        d.w.opens[line.fh := Handle(d.w.opens[line.fh].seqNo, d.w.opens[line.fh].rec.(unlinked := true))]
    requires e.w.streams == d.w.streams && e.unopened == d.unopened
    ensures Carries(d, line, e)
  {
    forall r | Mirrors(r, d) ensures Mirrors(Apply(r, line), e) {
      StreamsStay(r, d, e);
      assert Apply(r, line).handles == e.w.opens;
    }
  }

  lemma RetargetCarries(d: Daemon, line: Record, e: Daemon)
    requires Numbered(d) && SameTable(d, e) && line.Retarget? && line.fh in d.w.opens
    requires e.w.opens ==
        d.w.opens[line.fh := Handle(d.w.opens[line.fh].seqNo, d.w.opens[line.fh].rec.(path := line.path))]
    requires e.w.streams == d.w.streams && e.unopened == d.unopened
    ensures Carries(d, line, e)
  {
    forall r | Mirrors(r, d) ensures Mirrors(Apply(r, line), e) {
      StreamsStay(r, d, e);
      assert Apply(r, line).handles == e.w.opens;
    }
  }

  lemma StreamKeeps(d: Daemon, fh: nat, session: string, io: Io, dev: nat, mount: Path)
    requires Inv(d, dev, mount) && May(d, StartStream(fh, session))
    ensures Inv(Did(d, StartStream(fh, session), io), dev, mount)
  {
    var e := Did(d, StartStream(fh, session), io);
    var line := StreamStart(d.w.seqNo + 1, fh, session);
    HandleNumbered(d, StartStream(fh, session), io);
    StreamCarries(d, line, e);
    RecordKeeps(d, e, line, true, io.first, dev, mount);
  }

  lemma StreamCarries(d: Daemon, line: Record, e: Daemon)
    requires Numbered(d) && SameTable(d, e) && line.StreamStart?
    requires line.staging in d.w.opens && d.w.opens[line.staging].rec.staging == Some(line.staging)
    requires e.w.opens == d.w.opens && e.unopened == d.unopened
    requires e.w.streams == d.w.streams[line.staging := Stream(line.s, line.session)]
    ensures Carries(d, line, e)
  {
    forall r | Mirrors(r, d) ensures Mirrors(Apply(r, line), e) {
      forall wp | wp in r.streams && wp !in e.w.streams ensures Retired(e, wp) {
        assert Retired(d, wp);
      }
    }
  }

  lemma TickKeeps(d: Daemon, io: Io, dev: nat, mount: Path)
    requires Inv(d, dev, mount)
    ensures Inv(Did(d, Tick, io), dev, mount)
  {
    var m := d;
    if d.nextFh != d.w.mark {
      m := MarkKeeps(d, io, dev, mount);
    }
    TickEnds(d, m, io);
    FlushKeeps(m, io.second, dev, mount);
  }

  lemma TickEnds(d: Daemon, m: Daemon, io: Io)
    requires
      if d.nextFh == d.w.mark then m == d
      else m == d.(w := d.w.(seqNo := d.w.seqNo + 1, mark := d.nextFh,
                             log := Append(d.w.log, FhMark(d.w.seqNo + 1, d.nextFh), io.full, io.first)))
    ensures Did(d, Tick, io) == m.(w := m.w.(log := Flush(m.w.log, io.second)))
  {
  }

  lemma MarkKeeps(d: Daemon, io: Io, dev: nat, mount: Path) returns (m: Daemon)
    requires Inv(d, dev, mount)
    ensures
      m == d.(w := d.w.(seqNo := d.w.seqNo + 1, mark := d.nextFh,
                        log := Append(d.w.log, FhMark(d.w.seqNo + 1, d.nextFh), io.full, io.first)))
    ensures Inv(m, dev, mount)
  {
    var line := FhMark(d.w.seqNo + 1, d.nextFh);
    m := d.(w := d.w.(seqNo := d.w.seqNo + 1, mark := d.nextFh, log := Append(d.w.log, line, io.full, io.first)));
    MarkCarries(d, line, m);
    RecordKeeps(d, m, line, io.full, io.first, dev, mount);
  }
}
