/** What a compacted log replays to: exactly the state it was taken from. */
module RestartImage {
  import opened Options
  import opened RestartLog
  import opened RestartWriter
  import opened RestartDaemon

  ghost predicate IdsListed(h: Replayed, r: Replayed, inodes: map<nat, Path>, ids: set<nat>, bound: nat) {
    && ids <= inodes.Keys && (forall k :: k in ids ==> 2 <= k < bound)
    && r == h.(inodes := r.inodes, maxSeq := r.maxSeq, maxIno := r.maxIno)
    && r.inodes == (map k | k in ids :: inodes[k])
    && (forall k :: k in ids ==> k <= r.maxIno) && r.maxIno < bound
  }

  lemma IdListed(h: Replayed, r: Replayed, inodes: map<nat, Path>, ids: set<nat>, bound: nat, s: nat, id: nat)
    requires IdsListed(h, r, inodes, ids, bound) && Injective(inodes) && id in inodes && 2 <= id < bound
    ensures IdsListed(h, Apply(r, Ino(s, id, inodes[id])), inodes, ids + {id}, bound)
  {
    assert Assign(r.inodes, id, inodes[id]) == map k | k in ids + {id} :: inodes[k];
  }

  ghost predicate HandlesListed(h: Replayed, r: Replayed, opens: map<nat, Handle>, fhs: set<nat>, bound: nat) {
    && fhs <= opens.Keys && (forall k :: k in fhs ==> opens[k].rec.fh == k && OwnStaging(opens[k].rec))
    && r == h.(handles := r.handles, maxSeq := r.maxSeq, maxFh := r.maxFh)
    && r.handles == (map k | k in fhs :: opens[k])
    && (forall k :: k in fhs ==> k <= r.maxFh) && r.maxFh < bound
  }

  lemma HandleListed(h: Replayed, r: Replayed, opens: map<nat, Handle>, fhs: set<nat>, bound: nat, fh: nat)
    requires HandlesListed(h, r, opens, fhs, bound)
    requires fh in opens && opens[fh].rec.fh == fh < bound && OwnStaging(opens[fh].rec)
    ensures HandlesListed(h, Apply(r, Open(opens[fh].seqNo, opens[fh].rec)), opens, fhs + {fh}, bound)
  {
  }

  ghost predicate SessionsListed(h: Replayed, r: Replayed, streams: map<nat, Stream>, wps: set<nat>) {
    && wps <= streams.Keys
    && (forall k :: k in wps ==> k in h.handles && h.handles[k].rec.staging == Some(k))
    && r == h.(streams := r.streams, maxSeq := r.maxSeq)
    && r.streams == (map k | k in wps :: streams[k])
  }

  lemma SessionListed(h: Replayed, r: Replayed, streams: map<nat, Stream>, wps: set<nat>, wp: nat)
    requires SessionsListed(h, r, streams, wps)
    requires wp in streams && wp in h.handles && h.handles[wp].rec.staging == Some(wp)
    ensures SessionsListed(h, Apply(r, StreamStart(streams[wp].seqNo, wp, streams[wp].session)), streams, wps + {wp})
  {
  }

  function Listed(ids: seq<nat>): set<nat> {
    set k | k in ids
  }

  lemma LastListed(ids: seq<nat>)
    requires ids != []
    ensures Listed(ids) == Listed(ids[..|ids| - 1]) + {ids[|ids| - 1]}
  {
    assert ids == ids[..|ids| - 1] + [ids[|ids| - 1]];
  }

  /** Replaying `recs` on top of `r`. */
  ghost function Grown(r: Replayed, recs: seq<Record>): Replayed {
    if recs == [] then r else Apply(Grown(r, recs[..|recs| - 1]), recs[|recs| - 1])
  }

  ghost predicate GoodAlong(r: Replayed, recs: seq<Record>) {
    recs == [] || (GoodAlong(r, recs[..|recs| - 1]) && Good(Grown(r, recs)))
  }

  lemma LastGrown(r: Replayed, recs: seq<Record>)
    requires recs != [] && GoodAlong(r, recs)
    ensures GoodAlong(r, recs[..|recs| - 1])
    ensures Apply(Grown(r, recs[..|recs| - 1]), recs[|recs| - 1]) == Grown(r, recs)
    ensures Good(Grown(r, recs))
  {
  }

  lemma {:induction false} GrownFold(head: seq<Record>, recs: seq<Record>)
    requires SoundLog(head) && GoodAlong(Fold(head), recs)
    ensures Fold(head + recs) == Grown(Fold(head), recs) && SoundLog(head + recs)
    decreases |recs|
  {
    if recs == [] {
      assert head + recs == head;
    } else {
      var front, rec := recs[..|recs| - 1], recs[|recs| - 1];
      LastGrown(Fold(head), recs);
      GrownFold(head, front);
      assert front + [rec] == recs;
      FoldsOneMore(head, front, rec, recs, Grown(Fold(head), front));
    }
  }

  lemma FoldsOneMore(head: seq<Record>, front: seq<Record>, rec: Record, recs: seq<Record>, r: Replayed)
    requires recs == front + [rec]
    requires SoundLog(head + front) && Fold(head + front) == r && Good(Apply(r, rec))
    ensures Fold(head + recs) == Apply(r, rec) && SoundLog(head + recs)
  {
    assert head + recs == (head + front) + [rec];
    LogGrows(head + front, rec, head + recs);
  }

  lemma OneGrown(r: Replayed, recs: seq<Record>, n: nat, front: seq<Record>, rec: Record)
    requires |recs| == n + 1 && recs[..n] == front && recs[n] == rec
    ensures Grown(r, recs) == Apply(Grown(r, front), rec)
    ensures GoodAlong(r, front) && Good(Grown(r, recs)) ==> GoodAlong(r, recs)
  {
  }

  lemma InosSplit(s: nat, inodes: map<nat, Path>, ids: seq<nat>, front: seq<nat>, id: nat)
    requires ids == front + [id] && forall k :: k in ids ==> k in inodes
    ensures forall k :: k in front ==> k in ids
    ensures InoRecords(s, inodes, ids) == InoRecords(s, inodes, front) + [Ino(s, id, inodes[id])]
  {
    assert forall k :: k in front ==> k in ids;
  }

  lemma StreamsSplit(streams: map<nat, Stream>, wps: seq<nat>, front: seq<nat>, wp: nat)
    requires wps == front + [wp] && forall k :: k in wps ==> k in streams
    ensures forall k :: k in front ==> k in wps
    ensures StreamRecords(streams, wps)
         == StreamRecords(streams, front) + [StreamStart(streams[wp].seqNo, wp, streams[wp].session)]
  {
    assert forall k :: k in front ==> k in wps;
  }

  lemma {:induction false} InosGrown(h: Replayed, s: nat, inodes: map<nat, Path>, ids: seq<nat>, bound: nat)
    requires Injective(inodes) && forall k :: k in ids ==> k in inodes && 2 <= k < bound
    requires Good(h) && h.inodes == map[] && h.maxIno < bound
    ensures IdsListed(h, Grown(h, InoRecords(s, inodes, ids)), inodes, Listed(ids), bound)
    ensures GoodAlong(h, InoRecords(s, inodes, ids))
    decreases |ids|
  {
    if ids != [] {
      var n := |ids| - 1;
      var front := ids[..n];
      InosSplit(s, inodes, ids, front, ids[n]);
      InosGrown(h, s, inodes, front, bound);
      var recs, was := InoRecords(s, inodes, ids), InoRecords(s, inodes, front);
      OneGrown(h, recs, n, was, Ino(s, ids[n], inodes[ids[n]]));
      LastListed(ids);
      IdListed(h, Grown(h, was), inodes, Listed(front), bound, s, ids[n]);
    }
  }

  lemma {:induction false} OpensGrown(h: Replayed, opens: map<nat, Handle>, fhs: seq<nat>, bound: nat)
    requires forall k :: k in fhs ==> k in opens && opens[k].rec.fh == k < bound && OwnStaging(opens[k].rec)
    requires Good(h) && h.handles == map[] && h.streams == map[] && h.maxFh < bound
    ensures HandlesListed(h, Grown(h, OpenRecords(opens, fhs)), opens, Listed(fhs), bound)
    ensures GoodAlong(h, OpenRecords(opens, fhs))
    decreases |fhs|
  {
    if fhs != [] {
      var n := |fhs| - 1;
      var front := fhs[..n];
      assert forall k :: k in front ==> k in fhs;
      OpensGrown(h, opens, front, bound);
      var recs, was := OpenRecords(opens, fhs), OpenRecords(opens, front);
      OneGrown(h, recs, n, was, Open(opens[fhs[n]].seqNo, opens[fhs[n]].rec));
      LastListed(fhs);
      HandleListed(h, Grown(h, was), opens, Listed(front), bound, fhs[n]);
    }
  }

  lemma {:induction false} StreamsGrown(h: Replayed, streams: map<nat, Stream>, wps: seq<nat>)
    requires forall k :: k in wps ==> k in streams && k in h.handles && h.handles[k].rec.staging == Some(k)
    requires Good(h) && h.streams == map[]
    ensures SessionsListed(h, Grown(h, StreamRecords(streams, wps)), streams, Listed(wps))
    ensures GoodAlong(h, StreamRecords(streams, wps))
    decreases |wps|
  {
    if wps != [] {
      var n := |wps| - 1;
      var front := wps[..n];
      StreamsSplit(streams, wps, front, wps[n]);
      StreamsGrown(h, streams, front);
      var recs, was := StreamRecords(streams, wps), StreamRecords(streams, front);
      OneGrown(h, recs, n, was, StreamStart(streams[wps[n]].seqNo, wps[n], streams[wps[n]].session));
      LastListed(wps);
      SessionListed(h, Grown(h, was), streams, Listed(front), wps[n]);
    }
  }

  lemma HeaderFold(dev: nat, mount: Path, s: nat, mark: nat, reserved: nat) returns (head: seq<Record>)
    ensures head == [Base(dev, mount), FhMark(s, mark), Reserve(s, reserved)]
    ensures SoundLog(head) && Fold(head) == EMPTY.(maxSeq := s, fhMark := mark, reserved := reserved)
  {
    var b, c := [Base(dev, mount)], [Base(dev, mount), FhMark(s, mark)];
    head := [Base(dev, mount), FhMark(s, mark), Reserve(s, reserved)];
    assert b == [] + [Base(dev, mount)] && c == b + [FhMark(s, mark)] && head == c + [Reserve(s, reserved)];
    FoldAppend([], Base(dev, mount));
    FoldAppend(b, FhMark(s, mark));
    FoldAppend(c, Reserve(s, reserved));
    SoundAppend([], Base(dev, mount));
    SoundAppend(b, FhMark(s, mark));
    SoundAppend(c, Reserve(s, reserved));
  }

  lemma IdsStage(head: seq<Record>, s: nat, inodes: map<nat, Path>, ids: seq<nat>, bound: nat)
      returns (log: seq<Record>)
    requires Injective(inodes) && Enumerates(ids, inodes.Keys) && forall k :: k in inodes ==> 2 <= k < bound
    requires SoundLog(head) && Good(Fold(head)) && Fold(head).inodes == map[] && Fold(head).maxIno < bound
    ensures log == head + InoRecords(s, inodes, ids) && SoundLog(log) && Good(Fold(log))
    ensures Fold(log) == Fold(head).(inodes := inodes, maxSeq := Fold(log).maxSeq, maxIno := Fold(log).maxIno)
    ensures Fold(log).maxIno < bound
  {
    var h, recs := Fold(head), InoRecords(s, inodes, ids);
    InosGrown(h, s, inodes, ids, bound);
    assert Listed(ids) == inodes.Keys;
    assert Grown(h, recs).inodes == inodes;
    log := head + recs;
    GrownFold(head, recs);
  }

  lemma HandlesStage(head: seq<Record>, opens: map<nat, Handle>, fhs: seq<nat>, bound: nat) returns (log: seq<Record>)
    requires Enumerates(fhs, opens.Keys)
    requires forall k :: k in opens ==> opens[k].rec.fh == k < bound && OwnStaging(opens[k].rec)
    requires SoundLog(head) && Good(Fold(head))
    requires Fold(head).handles == map[] && Fold(head).streams == map[] && Fold(head).maxFh < bound
    ensures log == head + OpenRecords(opens, fhs) && SoundLog(log) && Good(Fold(log))
    ensures Fold(log) == Fold(head).(handles := opens, maxSeq := Fold(log).maxSeq, maxFh := Fold(log).maxFh)
    ensures Fold(log).maxFh < bound
  {
    var h, recs := Fold(head), OpenRecords(opens, fhs);
    OpensGrown(h, opens, fhs, bound);
    assert Listed(fhs) == opens.Keys;
    assert Grown(h, recs).handles == opens;
    log := head + recs;
    GrownFold(head, recs);
  }

  lemma SessionsStage(head: seq<Record>, streams: map<nat, Stream>, wps: seq<nat>) returns (log: seq<Record>)
    requires Enumerates(wps, streams.Keys)
    requires forall k :: k in streams ==> k in Fold(head).handles && Fold(head).handles[k].rec.staging == Some(k)
    requires SoundLog(head) && Good(Fold(head)) && Fold(head).streams == map[]
    ensures log == head + StreamRecords(streams, wps) && SoundLog(log) && Good(Fold(log))
    ensures Fold(log) == Fold(head).(streams := streams, maxSeq := Fold(log).maxSeq)
  {
    var h, recs := Fold(head), StreamRecords(streams, wps);
    StreamsGrown(h, streams, wps);
    assert Listed(wps) == streams.Keys;
    assert Grown(h, recs).streams == streams;
    log := head + recs;
    GrownFold(head, recs);
  }

  /** A compacted log replays to exactly the state it was taken from. */
  lemma ImageMirrors(image: seq<Record>, d: Daemon, dev: nat, mount: Path)
    requires Numbered(d) && IsImage(image, dev, mount, d.w, d.inodes)
    ensures IsFor(image, dev, mount) && SoundLog(image)
    ensures Mirrors(Fold(image), d) && Fold(image).streams == d.w.streams
    ensures Fold(image).reserved == d.w.reserved && Fold(image).fhMark == d.w.mark
  {
    var ids, fhs, wps :| IsImageBy(image, dev, mount, d.w, d.inodes, ids, fhs, wps);
    ImageIsFor(image, dev, mount, d.w, d.inodes, ids, fhs, wps);
    ImageFold(image, dev, mount, d, ids, fhs, wps);
    assert Bounded(Fold(image), d) && StreamsMirror(Fold(image), d);
  }

  lemma ImageIsFor(
      image: seq<Record>, dev: nat, mount: Path, w: Writer, inodes: map<nat, Path>,
      ids: seq<nat>, fhs: seq<nat>, wps: seq<nat>)
    requires IsImageBy(image, dev, mount, w, inodes, ids, fhs, wps)
    ensures IsFor(image, dev, mount)
  {
    assert NoBase(InoRecords(w.seqNo, inodes, ids) + OpenRecords(w.opens, fhs) + StreamRecords(w.streams, wps));
  }

  lemma ImageFold(
      image: seq<Record>, dev: nat, mount: Path, d: Daemon, ids: seq<nat>, fhs: seq<nat>, wps: seq<nat>)
    requires Numbered(d) && IsImageBy(image, dev, mount, d.w, d.inodes, ids, fhs, wps)
    ensures SoundLog(image) && Good(Fold(image))
    ensures
      var r := Fold(image);
      && r.inodes == d.inodes && r.handles == d.w.opens && r.streams == d.w.streams
      && r.reserved == d.w.reserved && r.fhMark == d.w.mark && r.maxIno < d.nextInode && r.maxFh < d.nextFh
  {
    var head := HeaderFold(dev, mount, d.w.seqNo, d.w.mark, d.w.reserved);
    var a := IdsStage(head, d.w.seqNo, d.inodes, ids, d.nextInode);
    var b := HandlesStage(a, d.w.opens, fhs, d.nextFh);
    var c := SessionsStage(b, d.w.streams, wps);
    assert image == c;
  }
}
