/** The broadcast change log: a bounded, numbered ring that every client process reads through
    a cursor of its own.

    `log` is the unbounded log the ring stands for, never trimmed. For every attached client
    it is recorded where it attached, what its reads returned and which records it skipped;
    `Valid` says how these hang together, and every method keeps it. */
module ChangeRing {
  import opened Options

  datatype Record = StatusChanged(path: string) | FileChanged(change: string)

  datatype Cursor = Cursor(status: nat, file: nat, refs: nat)

  /** A client's life so far: where it attached, the structural changes it was given, and the
      numbers of those it was never given. */
  datatype Client = Client(since: nat, got: seq<string>, missed: set<nat>)

  function Clamp(x: nat, lo: nat, hi: nat): nat {
    if x < lo then lo else if x > hi then hi else x
  }

  /** The nearest to `x` that is neither below `lo` nor above `hi`. */
  lemma ClampMeans(x: nat, lo: nat, hi: nat)
    requires lo <= hi
    ensures lo <= Clamp(x, lo, hi) <= hi && (lo <= x <= hi ==> Clamp(x, lo, hi) == x)
    ensures (x < lo ==> Clamp(x, lo, hi) == lo) && (x > hi ==> Clamp(x, lo, hi) == hi)
  {
  }

  function Max(a: nat, b: int): int {
    if a < b then b else a
  }

  function Between(lo: nat, hi: nat): (s: set<nat>)
    ensures forall i :: i in s <==> lo <= i < hi
    decreases hi
  {
    if hi <= lo then {} else Between(lo, hi - 1) + {hi - 1}
  }

  // ── reading a log ────────────────────────────────────────────────────────

  function Kept(s: seq<Record>, keep: Record -> bool): seq<Record> {
    if s == [] then []
    else Kept(s[..|s| - 1], keep) + if keep(s[|s| - 1]) then [s[|s| - 1]] else []
  }

  /** The structural changes numbered from `lo` to below `hi`, without those skipped. */
  function Files(log: seq<Record>, lo: nat, hi: nat, skipped: set<nat>): seq<string>
    requires hi <= |log|
    decreases hi
  {
    if hi <= lo then []
    else
      Files(log, lo, hi - 1, skipped)
      + if log[hi - 1].FileChanged? && hi - 1 !in skipped then [log[hi - 1].change] else []
  }

  function Statuses(s: seq<Record>): set<string> {
    set i | 0 <= i < |s| && s[i].StatusChanged? :: s[i].path
  }

  predicate IsFile(rec: Record) {
    rec.FileChanged?
  }

  function Changes(s: seq<Record>): seq<string>
    requires forall i :: 0 <= i < |s| ==> s[i].FileChanged?
  {
    seq(|s|, i requires 0 <= i < |s| => s[i].change)
  }

  /** `at` lists the numbers in `wanted` in order. */
  ghost predicate Lists(at: seq<nat>, wanted: set<nat>) {
    && (forall i, j :: 0 <= i < j < |at| ==> at[i] < at[j])
    && forall k :: k in at <==> k in wanted
  }

  lemma ListsOneMore(at: seq<nat>, wanted: set<nat>, k: nat)
    requires Lists(at, wanted) && forall j :: j in wanted ==> j < k
    ensures Lists(at + [k], wanted + {k})
  {
    var more := at + [k];
    forall j ensures j in more <==> j in wanted + {k} {
      if j == k {
        assert more[|at|] == k;
      }
    }
    forall i, j | 0 <= i < j < |more| ensures more[i] < more[j] {
      assert more[i] in at;
    }
  }

  ghost function Wanted(s: seq<Record>, keep: Record -> bool): set<nat> {
    set k | 0 <= k < |s| && keep(s[k])
  }

  lemma WantedGrows(s: seq<Record>, keep: Record -> bool)
    requires s != []
    ensures Wanted(s, keep) == Wanted(s[..|s| - 1], keep) + if keep(s[|s| - 1]) then {|s| - 1} else {}
  {
  }

  /** What is kept of `s`: all that is wanted and nothing else, in order. */
  lemma {:induction false} KeptMeans(s: seq<Record>, keep: Record -> bool) returns (at: seq<nat>)
    ensures Lists(at, Wanted(s, keep)) && |at| == |Kept(s, keep)|
    ensures forall i :: 0 <= i < |at| ==> at[i] < |s| && Kept(s, keep)[i] == s[at[i]]
  {
    at := [];
    if s != [] {
      var was := KeptMeans(s[..|s| - 1], keep);
      WantedGrows(s, keep);
      if keep(s[|s| - 1]) {
        ListsOneMore(was, Wanted(s[..|s| - 1], keep), |s| - 1);
        at := was + [|s| - 1];
      } else {
        at := was;
      }
    }
  }

  /** The structural changes from `lo` to below `hi` that were not skipped: each of them and nothing
      else, in order. */
  lemma {:induction false} FilesMean(log: seq<Record>, lo: nat, hi: nat, skipped: set<nat>) returns (at: seq<nat>)
    requires lo <= hi <= |log|
    ensures Lists(at, set k | lo <= k < hi && log[k].FileChanged? && k !in skipped)
    ensures |at| == |Files(log, lo, hi, skipped)|
    ensures forall i :: 0 <= i < |at| ==> at[i] < |log| && log[at[i]] == FileChanged(Files(log, lo, hi, skipped)[i])
    decreases hi
  {
    at := [];
    if lo < hi {
      var n := hi - 1;
      var was := FilesMean(log, lo, n, skipped);
      var wanted := set k | lo <= k < n && log[k].FileChanged? && k !in skipped;
      if log[n].FileChanged? && n !in skipped {
        at := was + [n];
        ListsOneMore(was, wanted, n);
        assert wanted + {n} == set k | lo <= k < hi && log[k].FileChanged? && k !in skipped;
      } else {
        at := was;
        assert wanted == set k | lo <= k < hi && log[k].FileChanged? && k !in skipped;
      }
    }
  }

  lemma StatusesMean(s: seq<Record>, p: string)
    ensures p in Statuses(s) <==> StatusChanged(p) in s
  {
    if StatusChanged(p) in s {
      var i :| 0 <= i < |s| && s[i] == StatusChanged(p);
      assert s[i].path in Statuses(s);
    }
  }

  lemma {:induction false} KeptAreFiles(s: seq<Record>)
    ensures forall i :: 0 <= i < |Kept(s, IsFile)| ==> Kept(s, IsFile)[i].FileChanged?
  {
    if s != [] {
      KeptAreFiles(s[..|s| - 1]);
    }
  }

  lemma {:induction false} FilesExtend(log: seq<Record>, more: seq<Record>, lo: nat, hi: nat, skipped: set<nat>)
    requires hi <= |log|
    ensures Files(log + more, lo, hi, skipped) == Files(log, lo, hi, skipped)
    decreases hi
  {
    if lo < hi {
      FilesExtend(log, more, lo, hi - 1, skipped);
    }
  }

  /** A client that stands at `at`, skips to `start` and reads to `hi`. */
  lemma {:induction false} FilesRead(log: seq<Record>, lo: nat, at: nat, start: nat, hi: nat, skipped: set<nat>)
    requires lo <= at <= start <= hi <= |log| && forall i :: i in skipped ==> i < at
    ensures
      var more := skipped + Between(at, start);
      && (forall i :: 0 <= i < |Kept(log[start..hi], IsFile)| ==> Kept(log[start..hi], IsFile)[i].FileChanged?)
      && Files(log, lo, hi, more) == Files(log, lo, at, skipped) + Changes(Kept(log[start..hi], IsFile))
    decreases hi
  {
    var more := skipped + Between(at, start);
    KeptAreFiles(log[start..hi]);
    if start < hi {
      FilesRead(log, lo, at, start, hi - 1, skipped);
      KeptAreFiles(log[start..hi - 1]);
      ChangesGrow(log, start, hi - 1, log[start..hi - 1], log[start..hi]);
      assert hi - 1 !in more;
    } else if at < hi {
      FilesSkipped(log, lo, at, hi, skipped, more);
    } else {
      assert more == skipped;
    }
  }

  lemma ChangesGrow(log: seq<Record>, start: nat, next: nat, s: seq<Record>, t: seq<Record>)
    requires start <= next < |log| && s == log[start..next] && t == log[start..next + 1]
    requires forall i :: 0 <= i < |Kept(s, IsFile)| ==> Kept(s, IsFile)[i].FileChanged?
    requires forall i :: 0 <= i < |Kept(t, IsFile)| ==> Kept(t, IsFile)[i].FileChanged?
    ensures Changes(Kept(t, IsFile))
         == Changes(Kept(s, IsFile)) + if log[next].FileChanged? then [log[next].change] else []
  {
    KeptOneMore(log, start, next, IsFile);
  }

  lemma {:induction false} FilesSkipped(log: seq<Record>, lo: nat, at: nat, hi: nat, skipped: set<nat>, more: set<nat>)
    requires lo <= at <= hi <= |log| && (forall i :: i < at ==> (i in skipped <==> i in more))
    requires forall i :: at <= i < hi ==> i in more
    ensures Files(log, lo, hi, more) == Files(log, lo, at, skipped)
    decreases hi
  {
    if at < hi {
      FilesSkipped(log, lo, at, hi - 1, skipped, more);
    } else if lo < hi {
      FilesSkipped(log, lo, at - 1, hi - 1, skipped, more);
    }
  }

  // ── paging ───────────────────────────────────────────────────────────────

  /** Reading page after page of at most `max` records. */
  function Pages(log: seq<Record>, base: nat, since: nat, max: nat): seq<Record>
    requires base <= |log| && max > 0
    decreases |log| - Clamp(since, base, |log|)
  {
    var start := Clamp(since, base, |log|);
    var next := Clamp(start + max, 0, |log|);
    if start == |log| then [] else log[start..next] + Pages(log, base, next, max)
  }

  /** The pages are exactly the retained records from the cursor on, each once and in order. */
  lemma {:induction false} PagesAreTheSuffix(log: seq<Record>, base: nat, since: nat, max: nat)
    requires base <= |log| && max > 0
    ensures Pages(log, base, since, max) == log[Clamp(since, base, |log|)..]
    decreases |log| - Clamp(since, base, |log|)
  {
    var start := Clamp(since, base, |log|);
    var next := Clamp(start + max, 0, |log|);
    if start < |log| {
      PagesAreTheSuffix(log, base, next, max);
    }
  }

  /** A client was given exactly the structural changes since it attached, in order, except
      those it skipped; and it skipped only what newer records had pushed out of the ring. */
  ghost predicate Served(log: seq<Record>, base: nat, cap: nat, c: Cursor, l: Client) {
    && c.refs > 0 && l.since <= c.file <= |log| && l.since <= c.status <= |log|
    && l.got == Files(log, l.since, c.file, l.missed)
    && (forall i :: i in l.missed ==> l.since <= i < c.file && i < |log| - cap)
    && base <= Max(l.since, |log| - cap)
  }

  lemma StillServed(log: seq<Record>, more: seq<Record>, base: nat, base': nat, cap: nat, c: Cursor, l: Client)
    requires Served(log, base, cap, c, l) && base' == Max(base, |log + more| - cap)
    ensures Served(log + more, base', cap, c, l)
  {
    FilesExtend(log, more, l.since, c.file, l.missed);
  }

  lemma ServedMore(log: seq<Record>, base: nat, cap: nat, c: Cursor, l: Client)
    requires Served(log, base, cap, c, l) && base <= |log|
    ensures
      var start := Clamp(c.file, base, |log|);
      && (forall i :: 0 <= i < |Kept(log[start..], IsFile)| ==> Kept(log[start..], IsFile)[i].FileChanged?)
      && Served(log, base, cap, c.(file := |log|),
                Client(l.since, l.got + Changes(Kept(log[start..], IsFile)), l.missed + Between(c.file, base)))
  {
    var start := Clamp(c.file, base, |log|);
    assert log[start..|log|] == log[start..];
    FilesRead(log, l.since, c.file, start, |log|, l.missed);
    assert c.file >= base ==> Between(c.file, base) == {} == Between(c.file, start);
  }

  /** A client that reads again before as many records arrived as the ring holds misses none. */
  lemma InTimeMissesNothing(log: seq<Record>, base: nat, cap: nat, c: Cursor, l: Client)
    requires Served(log, base, cap, c, l) && |log| <= c.file + cap
    ensures Between(c.file, base) == {}
  {
    assert base <= c.file;
  }

  // ── the ring ─────────────────────────────────────────────────────────────

  class ChangeLog {
    /** Number of `entries[0]`. */
    var base: nat
    var entries: seq<Record>
    const cap: nat
    var cursors: map<nat, Cursor>
    var liveReaders: nat

    ghost var log: seq<Record>
    ghost var clients: map<nat, Client>

    ghost predicate Ring()
      reads this
    {
      cap > 0 && base <= |log| && entries == log[base..] && |entries| <= cap
    }

    ghost predicate Valid()
      reads this
    {
      && Ring() && clients.Keys == cursors.Keys
      && forall k :: k in cursors ==> Served(log, base, cap, cursors[k], clients[k])
    }

    constructor (capacity: nat)
      ensures Valid() && log == [] && cursors == map[] && liveReaders == 0
      ensures cap == if capacity == 0 then 1 else capacity
    {
      cap := if capacity == 0 then 1 else capacity;
      base, entries, cursors, liveReaders, log, clients := 0, [], map[], 0, [], map[];
    }

    method Append(records: seq<Record>)
      requires Valid()
      modifies this`base, this`entries, this`log
      ensures Valid() && log == old(log) + records
      ensures cursors == map[] && liveReaders == 0 && records != [] ==> entries == []
      ensures cursors != map[] || liveReaders != 0 || records == [] ==>
                base == if old(base) < |log| - cap then |log| - cap else old(base)
    {
      if records == [] {
        assert log == log + records;
        return;
      }
      entries := entries + records;
      log := log + records;
      assert entries == log[base..];
      if |entries| > cap {
        var overflow := |entries| - cap;
        entries := entries[overflow..];
        base := base + overflow;
      }
      if cursors == map[] && liveReaders == 0 {
        base := base + |entries|;
        entries := [];
      }
      forall k | k in cursors ensures Served(log, base, cap, cursors[k], clients[k]) {
        StillServed(old(log), records, old(base), base, cap, cursors[k], clients[k]);
      }
    }

    /** Up to `max` of the records `keep` wants, from `since` on. RESYNC is reported exactly
        when the cursor is before the ring. */
    method ReadLocked(since: nat, max: Option<nat>, keep: Record -> bool)
        returns (next: nat, records: seq<Record>, resync: bool)
      requires Ring()
      ensures resync <==> since < base
      ensures Clamp(since, base, |log|) <= next <= |log|
      ensures records == Kept(log[Clamp(since, base, |log|)..next], keep)
      ensures max == None ==> next == |log|
      ensures max.Some? ==> |records| <= max.value && (next < |log| ==> |records| == max.value)
    {
      var head := base + |entries|;
      resync := since < base;
      var start := Clamp(since, base, head);
      records, next := [], start;
      for i := start - base to |entries|
        invariant next == base + i && records == Kept(log[start..next], keep)
        invariant max.Some? ==> |records| <= max.value
      {
        if max.Some? && |records| >= max.value {
          return;
        }
        assert entries[i] == log[base..][i] == log[next];
        KeptOneMore(log, start, next, keep);
        next := next + 1;
        if keep(entries[i]) {
          records := records + [entries[i]];
        }
      }
    }

    /** A page: with every record wanted, the next `max` records themselves. */
    method ReadSince(since: nat, max: nat) returns (next: nat, records: seq<Record>, resync: bool)
      requires Ring()
      ensures resync <==> since < base
      ensures next == Clamp(Clamp(since, base, |log|) + max, 0, |log|)
      ensures records == log[Clamp(since, base, |log|)..next]
    {
      next, records, resync := ReadLocked(since, Some(max), (rec: Record) => true);
      KeptAll(log[Clamp(since, base, |log|)..next]);
    }

    method AddLiveReader()
      requires Valid()
      modifies this`liveReaders
      ensures Valid() && liveReaders == old(liveReaders) + 1
    {
      liveReaders := liveReaders + 1;
    }

    method RemoveLiveReader()
      requires Valid()
      modifies this`liveReaders
      ensures Valid() && liveReaders == if old(liveReaders) == 0 then 0 else old(liveReaders) - 1
    {
      liveReaders := if liveReaders == 0 then 0 else liveReaders - 1;
    }

    method Attach(k: nat)
      requires Valid()
      modifies this`cursors, this`clients
      ensures Valid()
      ensures k in old(cursors) ==>
                clients == old(clients)
                && cursors == old(cursors)[k := old(cursors)[k].(refs := old(cursors)[k].refs + 1)]
      ensures k !in old(cursors) ==>
                && cursors == old(cursors)[k := Cursor(|log|, |log|, 1)]
                && clients == old(clients)[k := Client(|log|, [], {})]
    {
      var head := base + |entries|;
      if k !in cursors {
        cursors := cursors[k := Cursor(head, head, 0)];
        clients := clients[k := Client(head, [], {})];
      }
      cursors := cursors[k := cursors[k].(refs := cursors[k].refs + 1)];
    }

    method Detach(k: nat)
      requires Valid()
      modifies this`cursors, this`clients
      ensures Valid()
      ensures k !in old(cursors) ==> cursors == old(cursors) && clients == old(clients)
      ensures k in old(cursors) && old(cursors)[k].refs > 1 ==>
                clients == old(clients)
                && cursors == old(cursors)[k := old(cursors)[k].(refs := old(cursors)[k].refs - 1)]
      ensures k in old(cursors) && old(cursors)[k].refs == 1 ==>
          cursors == old(cursors) - {k} && clients == old(clients) - {k}
    {
      if k in cursors {
        assert Served(log, base, cap, cursors[k], clients[k]);
        cursors := cursors[k := cursors[k].(refs := cursors[k].refs - 1)];
        if cursors[k].refs == 0 {
          cursors, clients := cursors - {k}, clients - {k};
        }
      }
    }

    /** Every structural change past the client's cursor. */
    method TakeFileChanges(k: nat) returns (out: seq<string>)
      requires Valid()
      modifies this`cursors, this`clients
      ensures Valid()
      ensures k !in old(cursors) ==> out == [] && cursors == old(cursors) && clients == old(clients)
      ensures k in old(cursors) ==>
        var c, l := old(cursors)[k], old(clients)[k];
        && cursors == old(cursors)[k := c.(file := |log|)]
        && clients == old(clients)[k := Client(l.since, l.got + out, l.missed + Between(c.file, base))]
    {
      if k !in cursors {
        return [];
      }
      var since := cursors[k].file;
      ghost var l := clients[k];
      ServedMore(log, base, cap, cursors[k], l);
      var next, records, resync := ReadLocked(since, None, IsFile);
      assert log[Clamp(since, base, |log|)..next] == log[Clamp(since, base, |log|)..];
      out := Changes(records);
      cursors := cursors[k := cursors[k].(file := next)];
      clients := clients[k := Client(l.since, l.got + out, l.missed + Between(since, base))];
    }

    /** Up to `max` status paths past the client's cursor: exactly those of the records it
        passes, each once, and it stops early only at one more than `max`. */
    method TakeStatus(k: nat, max: nat) returns (out: seq<string>)
      requires Valid()
      modifies this`cursors
      ensures Valid()
      ensures k !in old(cursors) ==> out == [] && cursors == old(cursors)
      ensures forall i, j :: 0 <= i < j < |out| ==> out[i] != out[j]
      ensures |out| <= max
      ensures k in old(cursors) ==>
        && k in cursors && cursors == old(cursors)[k := old(cursors)[k].(status := cursors[k].status)]
        && var start, next := Clamp(old(cursors)[k].status, base, |log|), cursors[k].status;
           && start <= next <= |log|
           && (forall p :: p in out <==> p in Statuses(log[start..next]))
           && (next < |log| ==> |out| == max && log[next].StatusChanged? && log[next].path !in out)
    {
      if k !in cursors {
        return [];
      }
      var next;
      out, next := StatusPaths(Clamp(cursors[k].status, base, base + |entries|), max);
      cursors := cursors[k := cursors[k].(status := next)];
    }

    method StatusPaths(start: nat, max: nat) returns (out: seq<string>, next: nat)
      requires Ring() && base <= start <= |log|
      ensures forall i, j :: 0 <= i < j < |out| ==> out[i] != out[j]
      ensures |out| <= max && start <= next <= |log|
      ensures forall p :: p in out <==> p in Statuses(log[start..next])
      ensures next < |log| ==> |out| == max && log[next].StatusChanged? && log[next].path !in out
    {
      out, next := [], start;
      var seen: set<string> := {};
      for i := start - base to |entries|
        invariant next == base + i
        invariant forall p :: p in seen <==> p in out
        invariant forall p :: p in out <==> p in Statuses(log[start..next])
        invariant forall a, b :: 0 <= a < b < |out| ==> out[a] != out[b]
        invariant |out| <= max
      {
        StatusesGrow(log, start, next);
        assert entries[i] == log[next];
        if entries[i].StatusChanged? && entries[i].path !in seen {
          if |out| >= max {
            return;
          }
          seen := seen + {entries[i].path};
          out := out + [entries[i].path];
        }
        next := next + 1;
      }
    }
  }

  lemma KeptOneMore(log: seq<Record>, start: nat, next: nat, keep: Record -> bool)
    requires start <= next < |log|
    ensures Kept(log[start..next + 1], keep)
         == Kept(log[start..next], keep) + if keep(log[next]) then [log[next]] else []
  {
    assert log[start..next + 1][..next - start] == log[start..next];
  }

  lemma {:induction false} KeptAll(s: seq<Record>)
    ensures Kept(s, (rec: Record) => true) == s
  {
    if s != [] {
      KeptAll(s[..|s| - 1]);
    }
  }

  lemma StatusesGrow(log: seq<Record>, start: nat, next: nat)
    requires start <= next < |log|
    ensures Statuses(log[start..next + 1])
         == Statuses(log[start..next]) + if log[next].StatusChanged? then {log[next].path} else {}
  {
    var s, t := log[start..next], log[start..next + 1];
    assert t == s + [log[next]];
    forall p | p in Statuses(s) ensures p in Statuses(t) {
      var i :| 0 <= i < |s| && s[i].StatusChanged? && s[i].path == p;
      assert t[i] == s[i];
    }
    if log[next].StatusChanged? {
      assert t[|s|].path == log[next].path;
    }
  }
}
