/** Five ways in which a reservation is lost, and the same node id is handed out twice: runs for
    every fresh mount. */
module RestartFailures {
  import opened Options
  import opened RestartLog
  import opened RestartWriter
  import opened RestartDaemon
  import opened RestartImage
  import opened RestartRuns

  const WORKS := Io(false, Taken, Taken)

  /** A fresh mount starts where its log says. */
  lemma FreshStart(d: Daemon, dev: nat, mount: Path)
    requires Fresh(d, dev, mount)
    ensures Load(d.w.log.file, dev, mount) == Some(Fold(d.w.log.file)) && Floor(d.w.log.file) == d.nextInode
  {
    ImageMirrors(d.w.log.file, d, dev, mount);
    FloorBounded(Fold(d.w.log.file), d);
  }

  /** An id past what is reserved, whose reservation does not reach the file. */
  lemma UnreservedId(d: Daemon, path: Path, io: Io)
    requires d.nextInode >= d.w.reserved && d.w.log.buf == []
    requires
      || d.w.log.failed
      || (d.w.log.link == Detached && io.first.Taken?)
      || (d.w.log.link == Torn(false) && io.first.Taken?)
      || (d.w.log.link == Follows && io.first == Refused(false, 0, false))
    requires !io.full
    ensures
      var l, m := d.w.log, Did(d, Allocate(path), io).w.log;
      && m.file == l.file && m.lost && !Live(m) && m.failed == (l.failed || io.first.Refused?)
      && m.link == if l.link.Torn? && !l.failed then Glued else l.link
  {
    var l, rec := d.w.log, Reserve(d.w.seqNo + 1, ReservationAfter(d.nextInode));
    assert l.file + (l.buf + [rec])[..0] == l.file;
  }

  lemma RunStarts(w: World, dev: nat, mount: Path)
    requires Initial(w, dev, mount)
    ensures IsRun([w], [], dev, mount)
  {
  }

  lemma RunExtends(ws: seq<World>, steps: seq<Step>, s: Step, w: World, dev: nat, mount: Path)
    requires IsRun(ws, steps, dev, mount) && Next(ws[|steps|], s, w, dev, mount)
    ensures IsRun(ws + [w], steps + [s], dev, mount)
  {
    var ws', steps' := ws + [w], steps + [s];
    forall i | 0 <= i < |steps'| ensures Next(ws'[i], steps'[i], ws'[i + 1], dev, mount) {
      if i < |steps| {
        assert Next(ws[i], steps[i], ws[i + 1], dev, mount);
      }
    }
  }

  /** A reservation that cannot reach the file. */
  ghost predicate Doomed(b: Daemon, io: Io) {
    && b.nextInode >= b.w.reserved && b.w.log.buf == [] && !io.full
    && (|| (b.w.log.failed && b.w.log.link == Follows)
        || (!b.w.log.failed && (b.w.log.link == Detached || b.w.log.link == Torn(false)) && io.first.Taken?)
        || (!b.w.log.failed && b.w.log.link == Follows && io.first == Refused(false, 0, false)))
  }

  /** The id is handed out, the daemon crashes, and the next one starts with it again, or with
      one even before it. */
  lemma HandedTwice(ws: seq<World>, steps: seq<Step>, path: Path, io: Io, dev: nat, mount: Path)
      returns (ws': seq<World>, steps': seq<Step>)
    requires IsRun(ws, steps, dev, mount) && ws[|steps|].Up? && !ws[|steps|].reused
    requires
      var b := ws[|steps|].d;
      && May(b, Allocate(path)) && Doomed(b, io)
      && Load(b.w.log.file, dev, mount) == Some(Fold(b.w.log.file)) && Floor(b.w.log.file) <= b.nextInode
    ensures IsRun(ws', steps', dev, mount) && ws <= ws' && steps <= steps' && |ws'| == |ws| + 3
    ensures steps'[|steps|] == Does(Allocate(path), io)
    ensures ws'[|steps| + 3].Up? && ws'[|steps| + 3].d.nextInode == Floor(ws[|steps|].d.w.log.file)
  {
    var b, handed := ws[|steps|].d, ws[|steps|].handed;
    UnreservedId(b, path, io);
    var file, link := b.w.log.file, if b.w.log.link.Torn? then Glued else Follows;
    var more := handed + {b.nextInode};
    var x, y := Up(Did(b, Allocate(path), io), more, false), Down(file, link, true, more, false);
    var z := Up(Resumed(file, link, Fold(file), 2, 1, true), more, true);
    RunExtends(ws, steps, Does(Allocate(path), io), x, dev, mount);
    ws', steps' := ws + [x], steps + [Does(Allocate(path), io)];
    CrashAndRestore(ws', steps', y, z, dev, mount);
    ws', steps' := ws' + [y] + [z], steps' + [Crashes(WriteOut, false, file, link)] + [Restores(2, 1, true)];
  }

  lemma CrashAndRestore(ws: seq<World>, steps: seq<Step>, y: World, z: World, dev: nat, mount: Path)
    requires IsRun(ws, steps, dev, mount) && ws[|steps|].Up?
    requires
      var l := ws[|steps|].d.w.log;
      && !Live(l) && !l.link.Torn? && y.Down? && y.link == (if l.link.Detached? then Follows else l.link)
      && y == Down(l.file, y.link, l.lost, ws[|steps|].handed, ws[|steps|].reused)
      && Load(l.file, dev, mount) == Some(Fold(l.file))
      && z == Up(Resumed(l.file, y.link, Fold(l.file), 2, 1, true), y.handed, y.reused || y.lost)
    ensures IsRun(ws + [y] + [z],
        steps + [Crashes(WriteOut, false, y.file, y.link)] + [Restores(2, 1, true)], dev, mount)
  {
    RunExtends(ws, steps, Crashes(WriteOut, false, y.file, y.link), y, dev, mount);
    RunExtends(ws + [y], steps + [Crashes(WriteOut, false, y.file, y.link)], Restores(2, 1, true), z, dev, mount);
  }

  /** The write of the first reservation is refused, and then so is the removal of the file. */
  lemma RefusedAndNotRemoved(d: Daemon, path: Path, dev: nat, mount: Path) returns (ws: seq<World>, steps: seq<Step>)
    requires Fresh(d, dev, mount) && May(d, Allocate(path))
    ensures IsRun(ws, steps, dev, mount) && |ws| == 4 && ws[0].Up? && ws[0].d == d
    ensures steps[0] == Does(Allocate(path), Io(false, Refused(false, 0, false), Taken))
    ensures ws[3].Up? && ws[3].d.nextInode == d.nextInode
  {
    var w := Up(d, d.inodes.Keys, false);
    RunStarts(w, dev, mount);
    FreshStart(d, dev, mount);
    ws, steps := HandedTwice([w], [], path, Io(false, Refused(false, 0, false), Taken), dev, mount);
  }

  /** A fresh mount can neither write its log whole nor remove what it did write. */
  lemma LeftUnfinished(d: Daemon, image: seq<Record>, path: Path, dev: nat, mount: Path)
      returns (ws: seq<World>, steps: seq<Step>)
    requires Unlogged(d, image, dev, mount) && d.w.log.file != [] && May(d, Allocate(path))
    ensures IsRun(ws, steps, dev, mount) && |ws| == 4 && ws[0].Up? && ws[0].d == d
    ensures steps[0] == Does(Allocate(path), WORKS)
    ensures ws[3].Up? && ws[3].d.nextInode <= d.nextInode
    ensures |d.w.log.file| >= 3 ==> ws[3].d.nextInode == d.nextInode
  {
    var file := d.w.log.file;
    ImageMirrors(image, d, dev, mount);
    FloorBounded(Fold(image), d);
    FloorGrows(file, image);
    ShorterSound(image, file, dev, mount);
    PartOfImage(d, image, file, dev, mount);
    var w := Up(d, d.inodes.Keys, false);
    RunStarts(w, dev, mount);
    ws, steps := HandedTwice([w], [], path, WORKS, dev, mount);
  }

  /** A compaction moves the new file to the path and cannot open it there: the first
      reservation after it goes to the file that is gone. */
  lemma MovedAndNotReopened(d: Daemon, c: Daemon, image: seq<Record>, path: Path, dev: nat, mount: Path)
      returns (ws: seq<World>, steps: seq<Step>)
    requires Fresh(d, dev, mount) && Begun(d, c, Taken, Some(image), dev, mount) && May(d, Allocate(path))
    ensures IsRun(ws, steps, dev, mount) && |ws| == 6 && ws[0].Up? && ws[0].d == d
    ensures steps[1] == Ends(Taken, Orphaned) && steps[2] == Does(Allocate(path), WORKS)
    ensures ws[2].Up? && ws[5].Up? && ws[5].d.nextInode == ws[2].d.nextInode == d.nextInode
  {
    var handed := d.inodes.Keys;
    OrphanedFile(d, c, image, dev, mount);
    var b := Ended(c, Taken, Orphaned);
    ws, steps := [Up(d, handed, false)], [];
    RunStarts(ws[0], dev, mount);
    RunExtends(ws, steps, Begins(Taken, Some(image)), Up(c, handed, false), dev, mount);
    ws, steps := ws + [Up(c, handed, false)], steps + [Begins(Taken, Some(image))];
    RunExtends(ws, steps, Ends(Taken, Orphaned), Up(b, handed, false), dev, mount);
    ws, steps := ws + [Up(b, handed, false)], steps + [Ends(Taken, Orphaned)];
    ws, steps := HandedTwice(ws, steps, path, WORKS, dev, mount);
  }

  lemma OrphanedFile(d: Daemon, c: Daemon, image: seq<Record>, dev: nat, mount: Path)
    requires Fresh(d, dev, mount) && Begun(d, c, Taken, Some(image), dev, mount)
    ensures c.w.log.tail == Some([])
    ensures
      var b := Ended(c, Taken, Orphaned);
      && b.w.log.file == image && b.w.log.link == Detached && b.w.log.buf == [] && !b.w.log.failed
      && b.w.reserved == b.nextInode == d.nextInode && b.inodes == d.inodes
    ensures Load(image, dev, mount) == Some(Fold(image)) && Floor(image) == d.nextInode
  {
    ImageMirrors(image, c, dev, mount);
    FloorBounded(Fold(image), c);
    assert image + [] == image;
  }

  /** The next daemon restores from the log and cannot open it to go on with: it hands out ids
      that no log knows of, and the log stays for the one after. */
  lemma RestoredAndNotReopened(d: Daemon, path: Path, dev: nat, mount: Path) returns (ws: seq<World>, steps: seq<Step>)
    requires Fresh(d, dev, mount) && May(d, Allocate(path))
    ensures IsRun(ws, steps, dev, mount) && |ws| == 6 && ws[0].Up? && ws[0].d == d
    ensures steps[1] == Restores(2, 1, false) && steps[2] == Does(Allocate(path), WORKS)
    ensures ws[2].Up? && ws[5].Up? && ws[5].d.nextInode == ws[2].d.nextInode
  {
    var file, handed := d.w.log.file, d.inodes.Keys;
    FreshStart(d, dev, mount);
    SameTableResumed(d, Follows, false, dev, mount);
    var b := Resumed(file, Follows, Fold(file), 2, 1, false);
    ws, steps := [Up(d, handed, false)], [];
    RunStarts(ws[0], dev, mount);
    var y := Down(file, Follows, false, handed, false);
    RunExtends(ws, steps, Crashes(WriteOut, false, file, Follows), y, dev, mount);
    ws, steps := ws + [y], steps + [Crashes(WriteOut, false, file, Follows)];
    RunExtends(ws, steps, Restores(2, 1, false), Up(b, handed, false), dev, mount);
    ws, steps := ws + [Up(b, handed, false)], steps + [Restores(2, 1, false)];
    ws, steps := HandedTwice(ws, steps, path, WORKS, dev, mount);
  }

  /** A crash cuts the last line short, and the next daemon's first reservation runs into it. */
  lemma CutShortAndResumed(d: Daemon, path: Path, dev: nat, mount: Path) returns (ws: seq<World>, steps: seq<Step>)
    requires Fresh(d, dev, mount) && May(d, Allocate(path))
    ensures IsRun(ws, steps, dev, mount) && |ws| == 6 && ws[0].Up? && ws[0].d == d
    ensures steps[0] == Crashes(WriteOut, false, d.w.log.file, Torn(false)) && steps[2] == Does(Allocate(path), WORKS)
    ensures ws[2].Up? && ws[5].Up? && ws[5].d.nextInode == ws[2].d.nextInode
  {
    var file, handed := d.w.log.file, d.inodes.Keys;
    FreshStart(d, dev, mount);
    SameTableResumed(d, Torn(false), true, dev, mount);
    var b := Resumed(file, Torn(false), Fold(file), 2, 1, true);
    ws, steps := [Up(d, handed, false)], [];
    RunStarts(ws[0], dev, mount);
    var y := Down(file, Torn(false), false, handed, false);
    RunExtends(ws, steps, Crashes(WriteOut, false, file, Torn(false)), y, dev, mount);
    ws, steps := ws + [y], steps + [Crashes(WriteOut, false, file, Torn(false))];
    RunExtends(ws, steps, Restores(2, 1, true), Up(b, handed, false), dev, mount);
    ws, steps := ws + [Up(b, handed, false)], steps + [Restores(2, 1, true)];
    ws, steps := HandedTwice(ws, steps, path, WORKS, dev, mount);
  }

  lemma SameTableResumed(d: Daemon, link: Link, reopened: bool, dev: nat, mount: Path)
    requires Fresh(d, dev, mount)
    ensures Resumed(d.w.log.file, link, Fold(d.w.log.file), 2, 1, reopened).inodes == d.inodes
  {
    ImageMirrors(d.w.log.file, d, dev, mount);
    assert d.inodes - {1} == d.inodes;
  }
}
