/** The log as lines of a file, where a crash may have cut the last line short: what is read
    back, and what becomes of a log that the next daemon goes on appending to. */
module RestartTorn {
  import opened Options
  import opened RestartLog
  import opened RestartWriter
  import opened RestartDaemon
  import opened RestartRuns

  datatype Line = Whole(rec: Record) | Junk

  /** `ended` is whether the last line has its newline. */
  datatype Disk = Disk(lines: seq<Line>, ended: bool)

  function Lines(recs: seq<Record>): seq<Line> {
    seq(|recs|, i requires 0 <= i < |recs| => Whole(recs[i]))
  }

  /** Appending to an unended line runs the two together, and neither parses. */
  function AppendTo(k: Disk, recs: seq<Record>): Disk {
    if recs == [] then k
    else if k.ended || k.lines == [] then Disk(k.lines + Lines(recs), true)
    else Disk(k.lines[..|k.lines| - 1] + [Junk] + Lines(recs[1..]), true)
  }

  /** Everything up to the first line that does not parse. */
  function Records(lines: seq<Line>): seq<Record> {
    if lines == [] || lines[0].Junk? then [] else [lines[0].rec] + Records(lines[1..])
  }

  /** Nothing parses after a line that does not. */
  predicate Readable(lines: seq<Line>) {
    forall i, j :: 0 <= i < j < |lines| && lines[i].Junk? ==> lines[j].Junk?
  }

  function LoadDisk(k: Disk, dev: nat, mount: Path): Option<Replayed> {
    if Readable(k.lines) then Load(Records(k.lines), dev, mount) else None
  }

  /** `rp` has replayed `recs`. */
  ghost predicate HasReplayed(rp: Replayer, recs: seq<Record>, dev: nat, mount: Path)
    reads rp
  {
    && rp.Valid() && rp.Model() == Fold(recs) && (rp.based <==> recs != [])
    && (recs != [] ==> IsFor(recs, dev, mount))
  }

  method Take(rp: Replayer, rec: Record, dev: nat, mount: Path, ghost recs: seq<Record>) returns (ok: bool)
    requires HasReplayed(rp, recs, dev, mount)
    modifies rp
    ensures ok <==> IsFor(recs + [rec], dev, mount)
    ensures ok ==> HasReplayed(rp, recs + [rec], dev, mount)
  {
    FoldAppend(recs, rec);
    ok := rp.Replay(rec, dev, mount);
    assert (recs + [rec])[|recs|] == rec;
  }

  /** Reads the file line by line: the meaning of its records, with an id table that never
      aliases, or nothing. */
  method LoadLines(k: Disk, dev: nat, mount: Path) returns (r: Option<Replayed>, paths: map<Path, nat>)
    ensures r == LoadDisk(k, dev, mount)
    ensures r.Some? ==> Inverse(r.value.inodes, paths)
  {
    var rp := new Replayer();
    var torn := false;
    ghost var recs: seq<Record> := [];
    for i := 0 to |k.lines|
      invariant fresh(rp) && HasReplayed(rp, recs, dev, mount) && Leads(k.lines, recs)
      invariant |recs| <= i && forall j :: |recs| <= j < i ==> k.lines[j].Junk?
      invariant torn <==> |recs| < i
    {
      if k.lines[i].Whole? {
        if torn {
          assert k.lines[i - 1].Junk?;
          return None, map[];
        }
        var ok := Take(rp, k.lines[i].rec, dev, mount, recs);
        recs := recs + [k.lines[i].rec];
        if !ok {
          RefusedFor(k.lines, recs, dev, mount);
          return None, map[];
        }
      } else {
        torn := true;
      }
    }
    LeadsStop(k.lines, recs);
    if !rp.based {
      return None, map[];
    }
    r, paths := Some(rp.Model()), rp.paths;
  }

  ghost predicate Leads(lines: seq<Line>, recs: seq<Record>) {
    |recs| <= |lines| && forall j :: 0 <= j < |recs| ==> lines[j] == Whole(recs[j])
  }

  lemma {:induction false} LeadsStop(lines: seq<Line>, recs: seq<Record>)
    requires Leads(lines, recs)
    ensures recs <= Records(lines)
    ensures |recs| == |lines| || lines[|recs|].Junk? ==> Records(lines) == recs
    decreases |recs|
  {
    if recs != [] {
      LeadsStop(lines[1..], recs[1..]);
    }
  }

  lemma RefusedFor(lines: seq<Line>, recs: seq<Record>, dev: nat, mount: Path)
    requires Leads(lines, recs) && recs != [] && !IsFor(recs, dev, mount)
    ensures !IsFor(Records(lines), dev, mount)
  {
    LeadsStop(lines, recs);
  }

  // ── going on from a torn log ─────────────────────────────────────────────

  /** What a file reads back as. */
  function ReadBack(k: Disk): seq<Record> {
    if Readable(k.lines) then Records(k.lines) else []
  }

  ghost predicate AllWhole(lines: seq<Line>) {
    forall i :: 0 <= i < |lines| ==> lines[i].Whole?
  }

  ghost predicate HasJunk(lines: seq<Line>) {
    exists i :: 0 <= i < |lines| && lines[i].Junk?
  }

  /** The file ends as `link` says. */
  ghost predicate EndsAs(k: Disk, link: Link) {
    match link
    case Follows => AllWhole(k.lines) && k.ended
    case Torn(cut) =>
      && k.lines != [] && !k.ended
      && if cut then AllWhole(k.lines) else k.lines[|k.lines| - 1].Junk?
    case Glued => HasJunk(k.lines) && k.ended
    case Detached => false
  }

  /** Writing behind the end of a file, line by line, is what the link makes of it: every
      record is added; or the first is lost with the line it runs into; or all is. */
  lemma FlushedReadsBack(k: Disk, l: Log)
    requires !l.failed && l.buf != [] && EndsAs(k, l.link) && l.file == ReadBack(k)
    ensures
      var m, k' := Flush(l, Taken), AppendTo(k, l.buf);
      EndsAs(k', m.link) && m.file == ReadBack(k')
  {
    var k' := AppendTo(k, l.buf);
    match l.link
    case Follows => WholeGrows(k.lines, l.buf);
    case Glued => JunkGrows(k.lines, l.buf);
    case Torn(cut) =>
      var n := |k.lines| - 1;
      var glued := k.lines[..n] + [Junk];
      assert k'.lines == glued + Lines(l.buf[1..]);
      assert glued[n].Junk?;
      if |l.buf| > 1 {
        JunkGrows(glued, l.buf[1..]);
      } else {
        assert Lines(l.buf[1..]) == [] && k'.lines == glued;
        if cut {
          WholeCut(k.lines);
        } else {
          assert glued == k.lines;
        }
      }
  }

  /** Some of one more line. */
  function AppendSome(k: Disk): Disk {
    if k.ended || k.lines == [] then Disk(k.lines + [Junk], false)
    else Disk(k.lines[..|k.lines| - 1] + [Junk], false)
  }

  /** A refused write leaves some first lines, and perhaps some of the next: reading that back
      gives what the model of the file says. */
  lemma RefusedReadsBack(k: Disk, l: Log, part: nat, begun: bool)
    requires !l.failed && EndsAs(k, l.link) && l.file == ReadBack(k) && part < |l.buf|
    ensures
      var m, k' := Flush(l, Refused(false, part, begun)), AppendTo(k, l.buf[..part]);
      var k'' := if begun then AppendSome(k') else k';
      EndsAs(k'', m.link) && m.file == ReadBack(k'')
  {
    var some, k' := l.(buf := l.buf[..part]), AppendTo(k, l.buf[..part]);
    var link := RemainsLink(l.link, part, false);
    if part == 0 {
      assert l.file + l.buf[..0] == l.file;
    } else {
      FlushedReadsBack(k, some);
    }
    assert EndsAs(k', link) && ReadBack(k') == Remains(l, part, false);
    if begun {
      SomeReadsBack(k', link);
    }
  }

  lemma SomeReadsBack(k: Disk, link: Link)
    requires EndsAs(k, link)
    ensures EndsAs(AppendSome(k), Torn(false))
    ensures ReadBack(AppendSome(k)) == if link == Torn(true) then DropLast(ReadBack(k)) else ReadBack(k)
  {
    var n := |k.lines| - 1;
    match link
    case Follows =>
      LeadsStop(k.lines, AllRecords(k.lines));
      LeadsStop(k.lines + [Junk], AllRecords(k.lines));
    case Torn(cut) =>
      if cut {
        WholeCut(k.lines);
      } else {
        assert k.lines[..n] + [Junk] == k.lines;
      }
    case Glued => JunkBehind(k.lines);
  }

  /** One more unreadable line changes nothing about the rest. */
  lemma {:induction false} JunkBehind(lines: seq<Line>)
    ensures Readable(lines + [Junk]) == Readable(lines) && Records(lines + [Junk]) == Records(lines)
  {
    var more := lines + [Junk];
    if lines != [] {
      assert more[1..] == lines[1..] + [Junk];
      JunkBehind(lines[1..]);
    }
    assert forall i :: 0 <= i < |lines| ==> more[i] == lines[i];
    if Readable(more) {
      forall i, j | 0 <= i < j < |lines| && lines[i].Junk? ensures lines[j].Junk? {
        assert more[i].Junk? ==> more[j].Junk?;
      }
    }
  }

  lemma WholeGrows(lines: seq<Line>, recs: seq<Record>)
    requires AllWhole(lines)
    ensures AllWhole(lines + Lines(recs)) && Readable(lines + Lines(recs))
    ensures Records(lines) == AllRecords(lines) && Records(lines + Lines(recs)) == Records(lines) + recs
  {
    LeadsStop(lines, AllRecords(lines));
    LeadsStop(lines + Lines(recs), AllRecords(lines) + recs);
  }

  lemma JunkGrows(lines: seq<Line>, recs: seq<Record>)
    requires HasJunk(lines) && recs != []
    ensures HasJunk(lines + Lines(recs)) && !Readable(lines + Lines(recs))
  {
    var more := lines + Lines(recs);
    var i :| 0 <= i < |lines| && lines[i].Junk?;
    assert more[i].Junk? && more[|lines|].Whole?;
  }

  lemma WholeCut(lines: seq<Line>)
    requires AllWhole(lines) && lines != []
    ensures
      var glued := lines[..|lines| - 1] + [Junk];
      Readable(lines) && Readable(glued) && Records(glued) == DropLast(Records(lines))
  {
    var n := |lines| - 1;
    var glued := lines[..n] + [Junk];
    LeadsStop(lines, AllRecords(lines));
    LeadsStop(glued, AllRecords(lines[..n]));
    assert AllRecords(lines)[..n] == AllRecords(lines[..n]);
  }

  ghost function AllRecords(lines: seq<Line>): seq<Record>
    requires AllWhole(lines)
  {
    seq(|lines|, j requires 0 <= j < |lines| => lines[j].rec)
  }

  /** What the disk holds when the daemon that resumed from `k` dies right after its first
      allocation, the id's own record still queued. */
  ghost function AfterFirstId(k: Disk, d: Daemon): Disk {
    AppendTo(k, [Reserve(d.w.seqNo + 1, ReservationAfter(d.nextInode))])
  }

  /** The daemon after that must not hand the id out again. It does not exactly when the log
      ended on a record boundary (or lost the line saying what it is for). */
  lemma FirstIdIsSafeIffLogEnded(k: Disk, dev: nat, mount: Path, preInode: nat, preFh: nat)
    requires LoadDisk(k, dev, mount).Some?
    ensures
      var d := Resumed(Records(k.lines), Follows, LoadDisk(k, dev, mount).value, preInode, preFh, true);
      var r := LoadDisk(AfterFirstId(k, d), dev, mount);
      (r.None? || d.nextInode < FirstFreeIno(r.value)) <==> (k.ended || |k.lines| == 1)
  {
    var recs := Records(k.lines);
    var d := Resumed(recs, Follows, Fold(recs), preInode, preFh, true);
    var rec := Reserve(d.w.seqNo + 1, ReservationAfter(d.nextInode));
    assert Lines([rec]) == [Whole(rec)];
    if k.ended {
      EndedSafe(k, rec, d.nextInode, dev, mount);
    } else {
      UnendedUnsafe(k, rec, d.nextInode, dev, mount);
    }
  }

  lemma EndedSafe(k: Disk, rec: Record, next: nat, dev: nat, mount: Path)
    requires LoadDisk(k, dev, mount).Some? && k.ended && rec.Reserve? && next < rec.upto
    ensures
      var r := LoadDisk(AppendTo(k, [rec]), dev, mount);
      r.None? || next < FirstFreeIno(r.value)
  {
    var more := AppendTo(k, [rec]);
    assert Lines([rec]) == [Whole(rec)] && more.lines == k.lines + [Whole(rec)];
    EndedGrows(k.lines, rec);
    FoldAppend(Records(k.lines), rec);
  }

  lemma UnendedUnsafe(k: Disk, rec: Record, next: nat, dev: nat, mount: Path)
    requires LoadDisk(k, dev, mount).Some? && !k.ended && FirstFreeIno(LoadDisk(k, dev, mount).value) <= next
    ensures
      var r := LoadDisk(AppendTo(k, [rec]), dev, mount);
      (r.None? || next < FirstFreeIno(r.value)) <==> |k.lines| == 1
  {
    var more := AppendTo(k, [rec]).lines;
    assert [rec][1..] == [] && Lines([]) == [] && more == k.lines[..|k.lines| - 1] + [Junk];
    UnendedLoses(k.lines, more);
    FloorGrows(Records(more), Records(k.lines));
    if |k.lines| > 1 {
      PrefixIsFor(Records(more), Records(k.lines), dev, mount);
    }
  }

  lemma PrefixIsFor(a: seq<Record>, b: seq<Record>, dev: nat, mount: Path)
    requires a != [] && a <= b && IsFor(b, dev, mount)
    ensures IsFor(a, dev, mount)
  {
    forall i | 1 <= i < |a| ensures !a[i].Base? {
      assert a[i] == b[i];
    }
  }

  /** A new line is read back after all the old ones, unless a line before it is junk. */
  lemma EndedGrows(lines: seq<Line>, rec: Record)
    requires Readable(lines)
    ensures Readable(lines + [Whole(rec)]) ==> Records(lines + [Whole(rec)]) == Records(lines) + [rec]
  {
    var more := lines + [Whole(rec)];
    if Readable(more) {
      forall j | 0 <= j < |lines| ensures lines[j].Whole? {
        assert more[j] == lines[j] && more[|lines|].Whole?;
      }
      LeadsStop(lines, AllRecords(lines));
      LeadsStop(more, AllRecords(lines) + [rec]);
    }
  }

  /** Running a record into an unended line loses both. */
  lemma UnendedLoses(lines: seq<Line>, more: seq<Line>)
    requires lines != [] && lines[0].Whole? && Readable(lines) && more == lines[..|lines| - 1] + [Junk]
    ensures Readable(more) && Records(more) <= Records(lines)
    ensures |lines| > 1 ==> Records(more) != []
    ensures |lines| == 1 ==> Records(more) == []
  {
    var n := |lines| - 1;
    forall i, j | 0 <= i < j < |more| && more[i].Junk? ensures more[j].Junk? {
      assert lines[i].Junk?;
    }
    PrefixRecords(lines, n);
    PrefixRecords(more, n);
    assert more[..n] == lines[..n];
    StopsAtJunk(lines[..n]);
  }

  lemma {:induction false} PrefixRecords(lines: seq<Line>, n: nat)
    requires n <= |lines|
    ensures Records(lines[..n]) <= Records(lines)
  {
    if n > 0 && lines[0].Whole? {
      PrefixRecords(lines[1..], n - 1);
      assert lines[..n][1..] == lines[1..][..n - 1];
    }
  }

  lemma {:induction false} StopsAtJunk(lines: seq<Line>)
    ensures Records(lines + [Junk]) == Records(lines)
  {
    if lines != [] && lines[0].Whole? {
      StopsAtJunk(lines[1..]);
      assert (lines + [Junk])[1..] == lines[1..] + [Junk];
    }
  }
}
