/** The restart log: its records, and what replaying them restores.

    Node ids and file handles are plain counters the kernel keeps referring to after the
    daemon is gone, so every one handed out is logged. `Replayer` rebuilds the state record
    by record, with the id table kept in both directions as the program does; `Fold` says
    what that state is, with the table as a single map. */
module RestartLog {
  import opened Options

  type Path = seq<string>

  /** An open handle. A staging file is named after the number of the handle it was made
      for; `facts` stands for what never changes while the handle is open. */
  datatype OpenRecord = OpenRecord(fh: nat, ino: nat, path: Path, staging: Option<nat>, unlinked: bool, facts: string)

  datatype Handle = Handle(seqNo: nat, rec: OpenRecord)

  datatype Stream = Stream(seqNo: nat, session: string)

  datatype Record =
    | Base(dev: nat, mount: Path)
    | Ino(s: nat, ino: nat, path: Path)
    | Reserve(s: nat, upto: nat)
    | Mv(s: nat, ino: nat, path: Path, dropped: Option<nat>)
    | FhMark(s: nat, next: nat)
    | Open(s: nat, rec: OpenRecord)
    | Close(s: nat, fh: nat)
    | Unlinked(s: nat, fh: nat)
    | Retarget(s: nat, fh: nat, path: Path)
    | StreamStart(s: nat, staging: nat, session: string)

  /** What a log stands for. */
  datatype Replayed = Replayed(
    inodes: map<nat, Path>, handles: map<nat, Handle>, streams: map<nat, Stream>,
    maxSeq: nat, maxIno: nat, reserved: nat, maxFh: nat, fhMark: nat)

  const EMPTY := Replayed(map[], map[], map[], 0, 0, 0, 0, 0)

  function Max(a: nat, b: nat): nat {
    if a < b then b else a
  }

  /** `ino` now names `path`, and no other id does. */
  function Assign(inodes: map<nat, Path>, ino: nat, path: Path): map<nat, Path> {
    (map i | i in inodes && inodes[i] != path :: inodes[i])[ino := path]
  }

  function Moved(inodes: map<nat, Path>, ino: nat, path: Path, dropped: Option<nat>): map<nat, Path> {
    var t := Assign(inodes, ino, path);
    if dropped.Some? && dropped.value != ino then t - {dropped.value} else t
  }

  function Update(handles: map<nat, Handle>, fh: nat, f: OpenRecord -> OpenRecord): map<nat, Handle> {
    if fh in handles then handles[fh := Handle(handles[fh].seqNo, f(handles[fh].rec))] else handles
  }

  function Seq(rec: Record): nat {
    if rec.Base? then 0 else rec.s
  }

  /** The meaning of one record. */
  function Apply(r: Replayed, rec: Record): Replayed {
    var r := r.(maxSeq := Max(r.maxSeq, Seq(rec)));
    match rec
    case Base(_, _) => r
    case Ino(_, ino, path) => r.(maxIno := Max(r.maxIno, ino), inodes := Assign(r.inodes, ino, path))
    case Mv(_, ino, path, dropped) => r.(maxIno := Max(r.maxIno, ino), inodes := Moved(r.inodes, ino, path, dropped))
    case Reserve(_, upto) => r.(reserved := Max(r.reserved, upto))
    case FhMark(_, next) => r.(fhMark := Max(r.fhMark, next))
    case Open(s, rec) => r.(maxFh := Max(r.maxFh, rec.fh), handles := r.handles[rec.fh := Handle(s, rec)])
    case Close(_, fh) => r.(handles := r.handles - {fh})
    case Unlinked(_, fh) => r.(handles := Update(r.handles, fh, (o: OpenRecord) => o.(unlinked := true)))
    case Retarget(_, fh, path) => r.(handles := Update(r.handles, fh, (o: OpenRecord) => o.(path := path)))
    case StreamStart(s, staging, session) => r.(streams := r.streams[staging := Stream(s, session)])
  }

  // ── what each record means ───────────────────────────────────────────────

  /** An id that is logged or moved takes its path, whoever had the path has none, a dropped id
      has none; no other record changes the table. */
  lemma IdsMean(r: Replayed, rec: Record, i: nat)
    ensures
      var t := Apply(r, rec).inodes;
      if rec.Ino? || rec.Mv? then
        && (i == rec.ino ==> i in t && t[i] == rec.path)
        && (i != rec.ino ==>
              (i in t <==> i in r.inodes && r.inodes[i] != rec.path && !(rec.Mv? && rec.dropped == Some(i)))
              && (i in t ==> t[i] == r.inodes[i]))
      else t == r.inodes
  {
  }

  /** A handle is there from its opening to its release; its file may be deleted or renamed
      meanwhile, which changes just that; no other record changes a handle. */
  lemma HandlesMean(r: Replayed, rec: Record, fh: nat)
    ensures
      var t := Apply(r, rec).handles;
      if rec.Open? && rec.rec.fh == fh then fh in t && t[fh] == Handle(rec.s, rec.rec)
      else if rec.Close? && rec.fh == fh then fh !in t
      else
        && (fh in t <==> fh in r.handles)
        && (fh in t ==>
              var was := r.handles[fh];
              if rec.Unlinked? && rec.fh == fh then
                t[fh] == Handle(was.seqNo, OpenRecord(was.rec.fh, was.rec.ino, was.rec.path, was.rec.staging, true,
                                                      was.rec.facts))
              else if rec.Retarget? && rec.fh == fh then
                t[fh] == Handle(was.seqNo, OpenRecord(was.rec.fh, was.rec.ino, rec.path, was.rec.staging,
                                                      was.rec.unlinked, was.rec.facts))
              else t[fh] == was)
  {
  }

  /** A session is what its staging file was last started with. */
  lemma SessionsMean(r: Replayed, rec: Record, wp: nat)
    ensures
      var t := Apply(r, rec).streams;
      if rec.StreamStart? && rec.staging == wp then wp in t && t[wp] == Stream(rec.s, rec.session)
      else (wp in t <==> wp in r.streams) && (wp in t ==> t[wp] == r.streams[wp])
  {
  }

  /** The counters are the highest seen: of sequence numbers, ids, reservations, handle numbers and
      marks of the handle counter. */
  lemma CountersMean(r: Replayed, rec: Record)
    ensures
      var t := Apply(r, rec);
      && t.maxSeq == (if !rec.Base? && rec.s > r.maxSeq then rec.s else r.maxSeq)
      && t.maxIno == (if (rec.Ino? || rec.Mv?) && rec.ino > r.maxIno then rec.ino else r.maxIno)
      && t.reserved == (if rec.Reserve? && rec.upto > r.reserved then rec.upto else r.reserved)
      && t.maxFh == (if rec.Open? && rec.rec.fh > r.maxFh then rec.rec.fh else r.maxFh)
      && t.fhMark == (if rec.FhMark? && rec.next > r.fhMark then rec.next else r.fhMark)
  {
  }

  /** No handle or session has a later sequence number than the highest. */
  ghost predicate InSequence(r: Replayed) {
    && (forall fh :: fh in r.handles ==> r.handles[fh].seqNo <= r.maxSeq)
    && (forall wp :: wp in r.streams ==> r.streams[wp].seqNo <= r.maxSeq)
  }

  lemma ApplyCovers(r: Replayed, rec: Record)
    requires InSequence(r)
    ensures InSequence(Apply(r, rec)) && r.maxSeq <= Apply(r, rec).maxSeq && Seq(rec) <= Apply(r, rec).maxSeq
  {
  }

  /** So what is restored is older than anything logged after it. */
  lemma {:induction false} SequenceCovers(log: seq<Record>, i: nat)
    ensures InSequence(Fold(log)) && (i < |log| && !log[i].Base? ==> log[i].s <= Fold(log).maxSeq)
  {
    if log != [] {
      var n := |log| - 1;
      SequenceCovers(log[..n], i);
      ApplyCovers(Fold(log[..n]), log[n]);
    }
  }

  function Fold(log: seq<Record>): Replayed {
    if log == [] then EMPTY else Apply(Fold(log[..|log| - 1]), log[|log| - 1])
  }

  /** A log is for one connection: its first record says which, and no other does. */
  predicate IsFor(log: seq<Record>, dev: nat, mount: Path) {
    && log != [] && log[0] == Base(dev, mount)
    && forall i :: 1 <= i < |log| ==> !log[i].Base?
  }

  function Load(log: seq<Record>, dev: nat, mount: Path): Option<Replayed> {
    if IsFor(log, dev, mount) then Some(Fold(log)) else None
  }

  /** The sessions that still have an open handle. */
  function LiveStreams(r: Replayed): map<nat, Stream> {
    map w | w in r.streams && (exists fh :: fh in r.handles && r.handles[fh].rec.staging == Some(w)) :: r.streams[w]
  }

  /** The first node id a restored daemon may hand out. */
  function FirstFreeIno(r: Replayed): nat {
    Max(Max(r.maxIno + 1, r.reserved), 2)
  }

  lemma FoldAppend(log: seq<Record>, rec: Record)
    ensures Fold(log + [rec]) == Apply(Fold(log), rec)
  {
    assert (log + [rec])[..|log|] == log;
  }

  // ── the replayer ─────────────────────────────────────────────────────────

  /** The id table in both directions: each map exactly inverts the other. */
  ghost predicate Inverse(inodes: map<nat, Path>, paths: map<Path, nat>) {
    && (forall i :: i in inodes ==> inodes[i] in paths && paths[inodes[i]] == i)
    && (forall p :: p in paths ==> paths[p] in inodes && inodes[paths[p]] == p)
  }

  lemma AssignInverts(inodes: map<nat, Path>, paths: map<Path, nat>, ino: nat, path: Path)
    requires Inverse(inodes, paths)
    ensures Inverse(Assign(inodes, ino, path),
        (if ino in inodes && inodes[ino] != path then paths - {inodes[ino]} else paths)[path := ino])
  {
  }

  class Replayer {
    var inodes: map<nat, Path>
    var paths: map<Path, nat>
    var handles: map<nat, Handle>
    var streams: map<nat, Stream>
    var maxSeq: nat
    var maxIno: nat
    var reserved: nat
    var maxFh: nat
    var fhMark: nat
    var based: bool

    ghost predicate Valid()
      reads this
    {
      Inverse(inodes, paths)
    }

    function Model(): Replayed
      reads this
    {
      Replayed(inodes, handles, streams, maxSeq, maxIno, reserved, maxFh, fhMark)
    }

    constructor ()
      ensures Valid() && Model() == EMPTY && !based && paths == map[]
    {
      inodes, paths, handles, streams := map[], map[], map[], map[];
      maxSeq, maxIno, reserved, maxFh, fhMark, based := 0, 0, 0, 0, 0, false;
    }

    /** `ino` takes `path`; whoever held that path no longer resolves. */
    method Set(ino: nat, path: Path)
      requires Valid()
      modifies this`inodes, this`paths
      ensures Valid()
      ensures inodes == Assign(old(inodes), ino, path)
    {
      if ino in inodes {
        var prev := inodes[ino];
        if prev != path && prev in paths && paths[prev] == ino {
          paths := paths - {prev};
        }
      }
      inodes := inodes[ino := path];
      if path in paths {
        var other := paths[path];
        if other != ino {
          inodes := inodes - {other};
        }
      }
      paths := paths[path := ino];
      assert inodes == Assign(old(inodes), ino, path);
      AssignInverts(old(inodes), old(paths), ino, path);
    }

    method Drop(ino: nat)
      requires Valid()
      modifies this`inodes, this`paths
      ensures Valid()
      ensures inodes == old(inodes) - {ino}
    {
      if ino in inodes {
        var p := inodes[ino];
        inodes := inodes - {ino};
        if p in paths && paths[p] == ino {
          paths := paths - {p};
        }
      }
    }

    /** Replays one record; refuses a log that is not for this connection. */
    method Replay(rec: Record, dev: nat, mount: Path) returns (ok: bool)
      requires Valid()
      modifies this
      ensures Valid()
      ensures ok <==> if old(based) then !rec.Base? else rec == Base(dev, mount)
      ensures based == (old(based) || ok)
      ensures Model() == if ok then Apply(old(Model()), rec) else old(Model())
    {
      if !based {
        if rec == Base(dev, mount) {
          based := true;
          return true;
        }
        return false;
      }
      if rec.Base? {
        return false;
      }
      maxSeq := Max(maxSeq, rec.s);
      ok := true;
      match rec
      case Ino(_, ino, path) =>
        maxIno := Max(maxIno, ino);
        Set(ino, path);
      case Mv(_, ino, path, dropped) =>
        maxIno := Max(maxIno, ino);
        Set(ino, path);
        if dropped.Some? && dropped.value != ino {
          Drop(dropped.value);
        }
      case Reserve(_, upto) =>
        reserved := Max(reserved, upto);
      case FhMark(_, next) =>
        fhMark := Max(fhMark, next);
      case Open(s, o) =>
        maxFh := Max(maxFh, o.fh);
        handles := handles[o.fh := Handle(s, o)];
      case Close(_, fh) =>
        handles := handles - {fh};
      case Unlinked(_, fh) =>
        if fh in handles {
          handles := handles[fh := Handle(handles[fh].seqNo, handles[fh].rec.(unlinked := true))];
        }
      case Retarget(_, fh, path) =>
        if fh in handles {
          handles := handles[fh := Handle(handles[fh].seqNo, handles[fh].rec.(path := path))];
        }
      case StreamStart(s, staging, session) =>
        streams := streams[staging := Stream(s, session)];
    }
  }
}
