/** Handle numbers after a restart. They are not logged one by one: the counter is, once a second,
    and the next daemon starts a gap above what it finds. */
module RestartNumbers {
  import opened Options
  import opened RestartLog
  import opened RestartWriter
  import opened RestartDaemon
  import opened RestartImage
  import opened RestartRuns

  lemma {:induction false} MarkGrows(a: seq<Record>, b: seq<Record>)
    requires a <= b
    ensures Fold(a).fhMark <= Fold(b).fhMark
    decreases |b|
  {
    if a != b {
      var c := b[..|b| - 1];
      assert a <= c;
      MarkGrows(a, c);
    }
  }

  /** The counter as last logged is recorded, and will be in a compaction under way. */
  ghost predicate Marked(d: Daemon) {
    var l := d.w.log;
    && d.w.mark <= d.nextFh
    && (Live(l) ==> Fold(Written(l)).fhMark >= d.w.mark)
    && (!l.failed && l.tail.Some? ==> Fold(Compacted(l, d.image)).fhMark >= d.w.mark)
  }

  /** `m` records what `l` does and more, on file and in a compaction under way. */
  ghost predicate Extends(l: Log, m: Log, image: seq<Record>) {
    && (Live(m) ==> Live(l) && Written(l) <= Written(m) && l.file <= m.file)
    && (!m.failed && m.tail.Some? ==> !l.failed && l.tail.Some? && Compacted(l, image) <= Compacted(m, image))
  }

  lemma ActExtends(l: Log, a: Act, io: Write, image: seq<Record>)
    ensures Extends(l, Acted(l, a, io), image)
  {
    match a
    case Nothing =>
    case Records(rec, now) => AppendExtendsLog(l, rec, now, io);
    case Flushes => FlushKeepsLog(l, io);
  }

  lemma HookExtends(d: Daemon, h: Hook, io: Io)
    ensures Extends(d.w.log, Did(d, h, io).w.log, d.image)
  {
    var a, b := FirstAct(d, h, io), SecondAct(d, h, io);
    HookActs(d, h, io);
    ActExtends(d.w.log, a, io.first, d.image);
    ActExtends(Acted(d.w.log, a, io.first), b, io.second, d.image);
  }

  lemma ExtendsMarks(l: Log, m: Log, image: seq<Record>, mark: nat)
    requires Extends(l, m, image)
    ensures Live(m) && Fold(Written(l)).fhMark >= mark ==> Fold(Written(m)).fhMark >= mark
    ensures Live(m) && Fold(l.file).fhMark >= mark ==> Fold(m.file).fhMark >= mark
    ensures !m.failed && m.tail.Some? && Fold(Compacted(l, image)).fhMark >= mark ==>
              Fold(Compacted(m, image)).fhMark >= mark
  {
    if Live(m) {
      MarkGrows(Written(l), Written(m));
      MarkGrows(l.file, m.file);
    }
    if !m.failed && m.tail.Some? {
      MarkGrows(Compacted(l, image), Compacted(m, image));
    }
  }

  /** A tick records the counter, if it was not recorded before. */
  lemma TickMarks(d: Daemon, io: Io)
    requires Marked(d)
    ensures Marked(Did(d, Tick, io))
  {
    if d.nextFh == d.w.mark {
      HookExtends(d, Tick, io);
      ExtendsMarks(d.w.log, Did(d, Tick, io).w.log, d.image, d.w.mark);
    } else {
      var rec := FhMark(d.w.seqNo + 1, d.nextFh);
      var m := Append(d.w.log, rec, io.full, io.first);
      MarkRecorded(d.w.log, rec, io.full, io.first, d.image);
      ActExtends(m, Flushes, io.second, d.image);
      ExtendsMarks(m, Flush(m, io.second), d.image, d.nextFh);
      assert Did(d, Tick, io).w.log == Flush(m, io.second) && Did(d, Tick, io).w.mark == d.nextFh;
    }
  }

  lemma MarkRecorded(l: Log, rec: Record, now: bool, io: Write, image: seq<Record>)
    requires rec.FhMark?
    ensures
      var m := Append(l, rec, now, io);
      && (Live(m) ==> Fold(Written(m)).fhMark >= rec.next)
      && (!m.failed && m.tail.Some? ==> Fold(Compacted(m, image)).fhMark >= rec.next)
  {
    var m := Append(l, rec, now, io);
    AppendExtendsLog(l, rec, now, io);
    FoldAppend(Written(l), rec);
    if !m.failed && m.tail.Some? {
      FoldAppend(Compacted(l, image), rec);
    }
  }

  lemma HookMarks(d: Daemon, h: Hook, io: Io)
    requires Marked(d)
    ensures Marked(Did(d, h, io))
  {
    if h.Tick? {
      TickMarks(d, io);
    } else {
      HookExtends(d, h, io);
      ExtendsMarks(d.w.log, Did(d, h, io).w.log, d.image, d.w.mark);
      OtherMarks(d, h, io);
    }
  }

  lemma OtherMarks(d: Daemon, h: Hook, io: Io)
    requires !h.Tick?
    ensures Did(d, h, io).w.mark == d.w.mark && d.nextFh <= Did(d, h, io).nextFh && Did(d, h, io).image == d.image
  {
  }

  lemma BeginMarks(d: Daemon, e: Daemon, io: Write, image: Option<seq<Record>>, dev: nat, mount: Path)
    requires Inv(d, dev, mount) && Marked(d) && Begun(d, e, io, image, dev, mount)
    ensures Marked(e) && e.w.mark == d.w.mark
  {
    ActExtends(d.w.log, Flushes, io, d.image);
    ExtendsMarks(d.w.log, Flush(d.w.log, io), d.image, d.w.mark);
    FlushKeepsLog(d.w.log, io);
    if !e.w.log.failed {
      BeginKeeps(d, e, io, image, dev, mount);
      ImageMirrors(e.image, e, dev, mount);
      assert Compacted(e.w.log, e.image) == e.image;
    }
  }

  lemma EndMarks(d: Daemon, io: Write, swap: Swap)
    requires Marked(d) && d.w.log.tail.Some?
    ensures Marked(Ended(d, io, swap))
    ensures
      var m := Ended(d, io, swap).w.log;
      Live(m) ==> Fold(m.file).fhMark >= d.w.mark || d.w.log.file <= m.file
  {
    var l := Flush(d.w.log, io);
    ActExtends(d.w.log, Flushes, io, d.image);
    ExtendsMarks(d.w.log, l, d.image, d.w.mark);
    FlushKeepsLog(d.w.log, io);
    if !l.failed && swap != NotWritten {
      assert Compacted(l, d.image) == d.image + l.tail.value;
    }
  }

  lemma ResumedMarks(file: seq<Record>, link: Link, preInode: nat, preFh: nat, reopened: bool)
    ensures Marked(Resumed(file, link, Fold(file), preInode, preFh, reopened))
  {
    assert file + [] == file;
  }

  ghost predicate UpMarked(w: World) {
    w.Up? ==> Marked(w.d)
  }

  lemma StepMarks(v: World, s: Step, w: World, dev: nat, mount: Path)
    requires WorldInv(v, dev, mount) && UpMarked(v) && Next(v, s, w, dev, mount)
    ensures UpMarked(w)
  {
    match s
    case Does(h, io) => HookMarks(v.d, h, io);
    case Begins(io, image) => BeginMarks(v.d, w.d, io, image, dev, mount);
    case Ends(io, swap) => EndMarks(v.d, io, swap);
    case Crashes(_, _, _, _) =>
    case Restores(preInode, preFh, reopened) => ResumedMarks(v.file, v.link, preInode, preFh, reopened);
  }

  lemma {:induction false} RunMarks(ws: seq<World>, steps: seq<Step>, dev: nat, mount: Path, i: nat)
    requires IsRun(ws, steps, dev, mount) && i < |ws|
    ensures UpMarked(ws[i])
    decreases i
  {
    if i > 0 {
      RunMarks(ws, steps, dev, mount, i - 1);
      RunKeepsInv(ws, steps, dev, mount, i - 1);
      assert Next(ws[i - 1], steps[i - 1], ws[i - 1 + 1], dev, mount);
      StepMarks(ws[i - 1], steps[i - 1], ws[i], dev, mount);
    }
  }

  // ── from a tick to a crash ───────────────────────────────────────────────

  /** The counter stood at `mark` or above, and the file says so. */
  ghost predicate OnFile(w: World, mark: nat) {
    w.Up? && Live(w.d.w.log) && mark <= w.d.w.mark && Fold(w.d.w.log.file).fhMark >= mark
  }

  lemma TickOnFile(d: Daemon, io: Io)
    requires Marked(d) && Live(Did(d, Tick, io).w.log)
    ensures Fold(Did(d, Tick, io).w.log.file).fhMark >= d.nextFh == Did(d, Tick, io).w.mark == Did(d, Tick, io).nextFh
  {
    TickMarks(d, io);
    TickWrites(d.w, d.nextFh, io);
    var l := Did(d, Tick, io).w.log;
    assert l.buf == [] ==> Written(l) == l.file;
  }

  lemma HookOnFile(d: Daemon, h: Hook, io: Io, mark: nat)
    requires Marked(d) && mark <= d.w.mark && Fold(d.w.log.file).fhMark >= mark
    ensures
      var e := Did(d, h, io);
      mark <= e.w.mark && (Live(e.w.log) ==> Fold(e.w.log.file).fhMark >= mark)
  {
    HookExtends(d, h, io);
    ExtendsMarks(d.w.log, Did(d, h, io).w.log, d.image, mark);
    if !h.Tick? {
      OtherMarks(d, h, io);
    }
  }

  lemma StaysOnFile(v: World, s: Step, w: World, dev: nat, mount: Path, mark: nat)
    requires WorldInv(v, dev, mount) && UpMarked(v) && OnFile(v, mark) && Next(v, s, w, dev, mount)
    requires w.Up? && Live(w.d.w.log)
    ensures OnFile(w, mark)
  {
    match s
    case Does(h, io) => HookOnFile(v.d, h, io, mark);
    case Begins(io, image) =>
      ActExtends(v.d.w.log, Flushes, io, v.d.image);
      ExtendsMarks(v.d.w.log, Flush(v.d.w.log, io), v.d.image, mark);
    case Ends(io, swap) =>
      EndMarks(v.d, io, swap);
      if v.d.w.log.file <= w.d.w.log.file {
        MarkGrows(v.d.w.log.file, w.d.w.log.file);
      }
    case _ =>
  }

  lemma {:induction false} RunOnFile(
      ws: seq<World>, steps: seq<Step>, dev: nat, mount: Path, i: nat, j: nat, mark: nat)
    requires IsRun(ws, steps, dev, mount) && i <= j < |ws| && OnFile(ws[i], mark)
    requires forall k :: i <= k <= j ==> ws[k].Up? && Live(ws[k].d.w.log)
    ensures OnFile(ws[j], mark)
    decreases j
  {
    if i < j {
      RunOnFile(ws, steps, dev, mount, i, j - 1, mark);
      NextOnFile(ws, steps, dev, mount, j - 1, mark);
    }
  }

  lemma NextOnFile(ws: seq<World>, steps: seq<Step>, dev: nat, mount: Path, k: nat, mark: nat)
    requires IsRun(ws, steps, dev, mount) && k + 1 < |ws| && OnFile(ws[k], mark)
    requires ws[k + 1].Up? && Live(ws[k + 1].d.w.log)
    ensures OnFile(ws[k + 1], mark)
  {
    RunMarks(ws, steps, dev, mount, k);
    RunKeepsInv(ws, steps, dev, mount, k);
    assert Next(ws[k], steps[k], ws[k + 1], dev, mount);
    StaysOnFile(ws[k], steps[k], ws[k + 1], dev, mount, mark);
  }

  /** A crash leaves at least the file, and the next daemon starts a gap above what that says. */
  lemma RestoredAbove(u: World, s: Step, v: World, r: Step, w: World, dev: nat, mount: Path, mark: nat)
    requires OnFile(u, mark) && s.Crashes? && Next(u, s, v, dev, mount)
    requires r.Restores? && Next(v, r, w, dev, mount)
    ensures w.Up? && w.d.nextFh >= mark + 1048576
    ensures w.d.nextFh > Fold(v.file).maxFh
  {
    MarkGrows(u.d.w.log.file, v.file);
  }

  /** Handle numbers are not reused: with the log live from a tick to a crash and fewer numbers than
      the gap handed out in between, the restored daemon starts above all of them. */
  lemma HandleNumbersAreNotReused(ws: seq<World>, steps: seq<Step>, dev: nat, mount: Path, i: nat, j: nat)
    requires IsRun(ws, steps, dev, mount) && i < j && j + 2 < |ws|
    requires steps[i].Does? && steps[i].h.Tick? && steps[j].Crashes? && steps[j + 1].Restores?
    requires forall k :: i < k <= j ==> ws[k].Up? && Live(ws[k].d.w.log)
    requires ws[j].d.nextFh <= ws[i + 1].d.nextFh + 1048576
    ensures ws[j + 2].Up? && ws[j].d.nextFh <= ws[j + 2].d.nextFh
  {
    RunMarks(ws, steps, dev, mount, i);
    assert Next(ws[i], steps[i], ws[i + 1], dev, mount);
    TickOnFile(ws[i].d, steps[i].io);
    RunOnFile(ws, steps, dev, mount, i + 1, j, ws[i + 1].d.nextFh);
    assert Next(ws[j], steps[j], ws[j + 1], dev, mount) && Next(ws[j + 1], steps[j + 1], ws[j + 1 + 1], dev, mount);
    RestoredAbove(ws[j], steps[j], ws[j + 1], steps[j + 1], ws[j + 2], dev, mount, ws[i + 1].d.nextFh);
  }
}
