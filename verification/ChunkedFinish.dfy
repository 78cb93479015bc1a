/** The end of a streamed upload: the chunks still missing go up, then the server puts the
    session's chunks together in index order. What it puts together is the file.

    The staging file is `sparse` when it lies at the file's own offsets with the sent part
    punched out; otherwise it starts where the sent part ends. */
module ChunkedFinish {

  newtype Byte = b: int | 0 <= b < 256

  type Bytes = seq<Byte>

  function Min(a: nat, b: nat): nat {
    if a < b then a else b
  }

  // ── cutting up and putting together ──────────────────────────────────────

  function Pieces(s: Bytes, chunk: nat): seq<Bytes>
    requires chunk > 0
    decreases |s|
  {
    if s == [] then [] else [s[..Min(chunk, |s|)]] + Pieces(s[Min(chunk, |s|)..], chunk)
  }

  /** The chunks from index `lo` to below `hi`, in order; an index never sent adds nothing. */
  function Assemble(chunks: map<nat, Bytes>, lo: nat, hi: nat): Bytes
    decreases hi
  {
    if hi <= lo then [] else Assemble(chunks, lo, hi - 1) + if hi - 1 in chunks then chunks[hi - 1] else []
  }

  lemma {:induction false} AssembleSplit(chunks: map<nat, Bytes>, lo: nat, mid: nat, hi: nat)
    requires lo <= mid <= hi
    ensures Assemble(chunks, lo, hi) == Assemble(chunks, lo, mid) + Assemble(chunks, mid, hi)
  {
    if mid < hi {
      AssembleSplit(chunks, lo, mid, hi - 1);
    }
  }

  lemma {:induction false} AssembleSame(a: map<nat, Bytes>, b: map<nat, Bytes>, lo: nat, hi: nat)
    requires forall i :: lo <= i < hi ==> (i in a <==> i in b) && (i in a ==> a[i] == b[i])
    ensures Assemble(a, lo, hi) == Assemble(b, lo, hi)
  {
    if lo < hi {
      AssembleSame(a, b, lo, hi - 1);
    }
  }

  ghost predicate Bounds(chunks: map<nat, Bytes>, hi: nat) {
    forall i :: i in chunks ==> i < hi
  }

  lemma {:induction false} AnyBound(chunks: map<nat, Bytes>, a: nat, b: nat)
    requires Bounds(chunks, a) && Bounds(chunks, b)
    ensures Assemble(chunks, 0, a) == Assemble(chunks, 0, b)
    decreases a + b
  {
    if a < b {
      AnyBound(chunks, a, b - 1);
    } else if b < a {
      AnyBound(chunks, a - 1, b);
    }
  }

  lemma AssembleOne(chunks: map<nat, Bytes>, i: nat)
    requires i in chunks
    ensures Assemble(chunks, i, i + 1) == chunks[i]
  {
    assert Assemble(chunks, i, i) == [];
  }

  ghost predicate AllSent(chunks: map<nat, Bytes>, first: nat, ps: seq<Bytes>) {
    forall i :: first <= i < first + |ps| ==> i in chunks && chunks[i] == ps[i - first]
  }

  /** Putting the pieces of `s` together again. */
  lemma {:induction false} AssemblePieces(chunks: map<nat, Bytes>, first: nat, s: Bytes, chunk: nat)
    requires chunk > 0 && AllSent(chunks, first, Pieces(s, chunk))
    ensures Assemble(chunks, first, first + |Pieces(s, chunk)|) == s
    decreases |s|
  {
    if s != [] {
      var n := Min(chunk, |s|);
      var head, rest := s[..n], s[n..];
      var qs := Pieces(rest, chunk);
      FirstPiece(s, chunk);
      RestSent(chunks, first, head, qs);
      AssemblePieces(chunks, first + 1, rest, chunk);
      AssembleCons(chunks, first, |qs|);
    }
  }

  lemma FirstPiece(s: Bytes, chunk: nat)
    requires chunk > 0 && s != []
    ensures
      var n := Min(chunk, |s|);
      Pieces(s, chunk) == [s[..n]] + Pieces(s[n..], chunk) && s[..n] + s[n..] == s
  {
  }

  lemma RestSent(chunks: map<nat, Bytes>, first: nat, head: Bytes, rest: seq<Bytes>)
    requires AllSent(chunks, first, [head] + rest)
    ensures first in chunks && chunks[first] == head && AllSent(chunks, first + 1, rest)
  {
  }

  lemma AssembleCons(chunks: map<nat, Bytes>, first: nat, n: nat)
    requires first in chunks
    ensures Assemble(chunks, first, first + 1 + n) == chunks[first] + Assemble(chunks, first + 1, first + 1 + n)
  {
    AssembleSplit(chunks, first, first + 1, first + 1 + n);
    AssembleOne(chunks, first);
  }

  lemma NextPiece(s: Bytes, off: nat, chunk: nat, ps: seq<Bytes>, index: nat)
    requires chunk > 0 && off < |s| && index <= |ps| && ps[index..] == Pieces(s[off..], chunk)
    ensures
      var n := Min(chunk, |s| - off);
      index < |ps| && ps[index] == s[off..off + n] && ps[index + 1..] == Pieces(s[off + n..], chunk)
  {
    var n := Min(chunk, |s| - off);
    assert s[off..][..n] == s[off..off + n] && s[off..][n..] == s[off + n..];
    assert ps[index] == ps[index..][0] && ps[index + 1..] == ps[index..][1..];
  }

  /** From `off` on, the pieces from `index` on are what is left. */
  ghost predicate LeftToSend(s: Bytes, off: nat, chunk: nat, ps: seq<Bytes>, index: nat)
    requires chunk > 0
  {
    off <= |s| && index <= |ps| && ps[index..] == Pieces(s[off..], chunk)
  }

  lemma NextToSend(s: Bytes, off: nat, chunk: nat, ps: seq<Bytes>, index: nat)
    requires chunk > 0 && off < |s| && LeftToSend(s, off, chunk, ps, index)
    ensures
      var n := Min(chunk, |s| - off);
      index < |ps| && ps[index] == s[off..off + n] && LeftToSend(s, off + n, chunk, ps, index + 1)
  {
    NextPiece(s, off, chunk, ps, index);
  }

  lemma AllSentOff(s: Bytes, chunk: nat, ps: seq<Bytes>, index: nat)
    requires chunk > 0 && LeftToSend(s, |s|, chunk, ps, index)
    ensures index == |ps|
  {
    assert ps[index..] == [];
  }

  // ── a streamed upload about to be finished ───────────────────────────────

  /** What the entry records: the index of the next chunk, how much of the file was sent, and
      how long a start of it was kept back to go as chunk 0. */
  datatype Streamed = Streamed(nextIndex: nat, confirmed: nat, head: nat, sparse: bool)

  function Tail(file: Bytes, u: Streamed): Bytes {
    file[Min(u.confirmed, |file|)..]
  }

  /** The session holds the file from the head to what was confirmed; of the rest, and of
      the head, only right pieces from an earlier attempt, if any. */
  ghost predicate Ready(chunks: map<nat, Bytes>, file: Bytes, u: Streamed, chunk: nat)
    requires chunk > 0
  {
    && u.head <= u.confirmed && (u.head > 0 ==> u.nextIndex > 0)
    && Assemble(chunks, if u.head > 0 then 1 else 0, u.nextIndex) == file[Min(u.head, |file|)..Min(u.confirmed, |file|)]
    && (forall i :: i in chunks && i >= u.nextIndex ==>
          i - u.nextIndex < |Pieces(Tail(file, u), chunk)|
              && chunks[i] == Pieces(Tail(file, u), chunk)[i - u.nextIndex])
    && (u.head > 0 && 0 in chunks ==> chunks[0] == file[..Min(u.head, |file|)])
  }

  /** The staging file holds what was not sent. */
  ghost predicate Holds(staging: Bytes, file: Bytes, u: Streamed) {
    if u.sparse then
      && |staging| == |file| && staging[..Min(u.head, |file|)] == file[..Min(u.head, |file|)]
      && staging[Min(u.confirmed, |file|)..] == Tail(file, u)
    else
      u.head == 0 && staging == Tail(file, u)
  }

  /** The answer to one request, and whether the server did it all the same. */
  datatype Reply = Reply(ok: bool, done: bool)

  class Session {
    const replies: nat -> Reply
    var asked: nat
    var chunks: map<nat, Bytes>

    constructor (replies: nat -> Reply, chunks: map<nat, Bytes>)
      ensures this.replies == replies && this.chunks == chunks && asked == 0
    {
      this.replies, this.chunks, asked := replies, chunks, 0;
    }

    /** Every request from the `lo`th to before the `hi`th was answered well. */
    ghost predicate AllOk(lo: nat, hi: nat) {
      forall m :: lo <= m < hi ==> replies(m).ok
    }

    /** A chunk PUT to an index replaces the earlier one; one whose answer is lost may have
        arrived. */
    method PutChunk(i: nat, body: Bytes) returns (ok: bool)
      modifies this`asked, this`chunks
      ensures asked == old(asked) + 1 && ok == replies(old(asked)).ok
      ensures ok ==> chunks == old(chunks)[i := body]
      ensures !ok ==> chunks == old(chunks) || chunks == old(chunks)[i := body]
    {
      var r := replies(asked);
      asked := asked + 1;
      if r.ok || r.done {
        chunks := chunks[i := body];
      }
      ok := r.ok;
    }

    /** Sends piece `index`; the pieces before it were added to `before`. */
    method SendPiece(first: nat, index: nat, body: Bytes, ghost ps: seq<Bytes>, ghost before: map<nat, Bytes>)
        returns (ok: bool, ghost n: nat)
      requires index < |ps| && body == ps[index] && chunks == WithPieces(before, first, ps, index)
      modifies this`asked, this`chunks
      ensures asked == old(asked) + 1 && ok == replies(old(asked)).ok
      ensures n <= |ps| && chunks == WithPieces(before, first, ps, n) && (ok ==> n == index + 1)
    {
      ok := PutChunk(first + index, body);
      n := if ok || chunks != WithPieces(before, first, ps, index) then index + 1 else index;
    }

    /** Sends the staging file from `from` on, a chunk at a time, as chunks `first` on. A file
        that is not as long as it should be is refused before anything is sent. */
    method SendTail(staging: Bytes, from: nat, tailLen: nat, chunk: nat, first: nat) returns (ok: bool, ghost n: nat)
      requires chunk > 0
      modifies this`asked, this`chunks
      ensures |staging| != from + tailLen ==> !ok && chunks == old(chunks)
      ensures |staging| == from + tailLen ==>
        var ps := Pieces(staging[from..], chunk);
        && n <= |ps| && chunks == WithPieces(old(chunks), first, ps, n) && (ok ==> n == |ps|)
        && (ok <==> AllOk(old(asked), old(asked) + |ps|))
        && (ok ==> asked == old(asked) + |ps|)
      ensures |staging| != from + tailLen ==> asked == old(asked)
      ensures |staging| == from + tailLen ==> (ok <==> AllOk(old(asked), asked))
    {
      ghost var start, was := asked, chunks;
      if |staging| != from + tailLen {
        return false, 0;
      }
      var off, index := from, 0;
      ghost var ps := Pieces(staging[from..], chunk);
      while off < from + tailLen
        invariant from <= off && LeftToSend(staging, off, chunk, ps, index)
        invariant chunks == WithPieces(was, first, ps, index)
        invariant asked == start + index && AllOk(start, asked)
        decreases |staging| - off
      {
        var body := staging[off..off + Min(chunk, from + tailLen - off)];
        NextToSend(staging, off, chunk, ps, index);
        off := off + |body|;
        var sent;
        sent, n := SendPiece(first, index, body, ps, was);
        if !sent {
          assert !replies(start + index).ok;
          return false, n;
        }
        index := index + 1;
      }
      AllSentOff(staging, chunk, ps, index);
      return true, index;
    }

    /** Sends what is missing: the tail, whose length check comes before anything is sent, then
        the head as chunk 0. */
    method SendMissing(staging: Bytes, total: nat, u: Streamed, chunk: nat, ghost file: Bytes) returns (ok: bool)
      requires chunk > 0 && |file| == total && Ready(chunks, file, u, chunk)
      modifies this
      ensures Holds(staging, file, u) ==> Ready(chunks, file, u, chunk)
      ensures Holds(staging, file, u) && ok ==> AllSent(chunks, u.nextIndex, Pieces(Tail(file, u), chunk))
      ensures ok && u.head > 0 ==> 0 in chunks
      ensures ok ==> AllOk(old(asked), asked)
      ensures Holds(staging, file, u) && !ok ==> !AllOk(old(asked), asked)
      ensures Holds(staging, file, u) && ok ==>
                asked == old(asked) + |Pieces(Tail(file, u), chunk)| + if u.head > 0 then 1 else 0
    {
      ghost var was := chunks;
      var tailLen := if total > u.confirmed then total - u.confirmed else 0;
      var from := if u.sparse then u.confirmed else 0;
      if tailLen > 0 {
        ghost var n;
        var sent;
        sent, n := SendTail(staging, from, tailLen, chunk, u.nextIndex);
        if Holds(staging, file, u) {
          TailKeepsReady(was, file, u, chunk, n);
        }
        if !sent {
          return false;
        }
      }
      if u.head > 0 {
        var n := Min(u.head, total);
        if |staging| < n {
          return false;
        }
        ghost var mid := chunks;
        var sent := PutChunk(0, staging[..n]);
        if Holds(staging, file, u) {
          HeadKeepsReady(mid, file, u, chunk);
        }
        if !sent {
          return false;
        }
      }
      return true;
    }

    /** Sends what is missing and has the session put together. Whatever fails, the session is
        still fit for another try; when nothing does, all its chunks in order are the file, and it
        fails only when a request does. */
    method SendFinish(staging: Bytes, total: nat, u: Streamed, chunk: nat, ghost file: Bytes) returns (ok: bool)
      requires chunk > 0 && |file| == total && Ready(chunks, file, u, chunk)
      modifies this
      ensures Holds(staging, file, u) ==> Ready(chunks, file, u, chunk)
      ensures Holds(staging, file, u) && ok ==> forall hi :: Bounds(chunks, hi) ==> Assemble(chunks, 0, hi) == file
      ensures Holds(staging, file, u) ==> (ok <==> AllOk(old(asked), asked))
      ensures Holds(staging, file, u) && ok ==>
                asked == old(asked) + |Pieces(Tail(file, u), chunk)| + (if u.head > 0 then 1 else 0) + 1
    {
      var sent := SendMissing(staging, total, u, chunk, file);
      if !sent {
        return false;
      }
      var r := replies(asked);
      asked := asked + 1;
      ok := r.ok;
      if ok && Holds(staging, file, u) {
        SessionIsFile(chunks, file, u, chunk);
      }
    }
  }

  lemma SessionIsFile(chunks: map<nat, Bytes>, file: Bytes, u: Streamed, chunk: nat)
    requires chunk > 0 && Ready(chunks, file, u, chunk) && AllSent(chunks, u.nextIndex, Pieces(Tail(file, u), chunk))
    requires u.head > 0 ==> 0 in chunks
    ensures forall hi :: Bounds(chunks, hi) ==> Assemble(chunks, 0, hi) == file
  {
    AssembledFile(chunks, file, u, chunk);
    forall hi | Bounds(chunks, hi) ensures Assemble(chunks, 0, hi) == file {
      AnyBound(chunks, hi, u.nextIndex + |Pieces(Tail(file, u), chunk)|);
    }
  }

  /** The chunks once the first `n` pieces are sent. */
  ghost function WithPieces(chunks: map<nat, Bytes>, first: nat, ps: seq<Bytes>, n: nat): map<nat, Bytes>
    requires n <= |ps|
  {
    if n == 0 then chunks else WithPieces(chunks, first, ps, n - 1)[first + n - 1 := ps[n - 1]]
  }

  /** Only pieces of `ps` were added, each at its own index. */
  ghost predicate PartlySent(before: map<nat, Bytes>, after: map<nat, Bytes>, first: nat, ps: seq<Bytes>) {
    && (forall i :: i in before && !(i >= first && i - first < |ps|) ==> i in after && after[i] == before[i])
    && (forall i :: i in before ==> i in after)
    && (forall i :: i in after ==>
       (i in before && after[i] == before[i])
       || (i >= first && i - first < |ps| && after[i] == ps[i - first]))
  }

  lemma TailKeepsReady(before: map<nat, Bytes>, file: Bytes, u: Streamed, chunk: nat, n: nat)
    requires chunk > 0 && Ready(before, file, u, chunk) && n <= |Pieces(Tail(file, u), chunk)|
    ensures
      var ps := Pieces(Tail(file, u), chunk);
      var after := WithPieces(before, u.nextIndex, ps, n);
      Ready(after, file, u, chunk) && (n == |ps| ==> AllSent(after, u.nextIndex, ps))
  {
    var ps := Pieces(Tail(file, u), chunk);
    PiecesSent(before, u.nextIndex, ps, n);
    assert n == |ps| ==> ps[..n] == ps;
    SentKeepsReady(before, WithPieces(before, u.nextIndex, ps, n), file, u, chunk);
  }

  lemma SentKeepsReady(before: map<nat, Bytes>, after: map<nat, Bytes>, file: Bytes, u: Streamed, chunk: nat)
    requires chunk > 0 && Ready(before, file, u, chunk)
    requires PartlySent(before, after, u.nextIndex, Pieces(Tail(file, u), chunk))
    ensures Ready(after, file, u, chunk)
  {
    AssembleSame(before, after, if u.head > 0 then 1 else 0, u.nextIndex);
  }

  lemma HeadKeepsReady(before: map<nat, Bytes>, file: Bytes, u: Streamed, chunk: nat)
    requires chunk > 0 && Ready(before, file, u, chunk) && u.head > 0
    ensures Ready(before[0 := file[..Min(u.head, |file|)]], file, u, chunk)
  {
    AssembleSame(before, before[0 := file[..Min(u.head, |file|)]], 1, u.nextIndex);
  }

  lemma ThreeParts(file: Bytes, h: nat, b: nat)
    requires h <= b <= |file|
    ensures file == (file[..h] + file[h..b]) + file[b..]
  {
  }

  /** Head, what was sent before, and tail make the file. */
  lemma AssembledFile(chunks: map<nat, Bytes>, file: Bytes, u: Streamed, chunk: nat)
    requires chunk > 0 && Ready(chunks, file, u, chunk) && AllSent(chunks, u.nextIndex, Pieces(Tail(file, u), chunk))
    requires u.head > 0 ==> 0 in chunks
    ensures Assemble(chunks, 0, u.nextIndex + |Pieces(Tail(file, u), chunk)|) == file
  {
    var hi, h, b := u.nextIndex + |Pieces(Tail(file, u), chunk)|, Min(u.head, |file|), Min(u.confirmed, |file|);
    AssembleSplit(chunks, 0, u.nextIndex, hi);
    AssemblePieces(chunks, u.nextIndex, Tail(file, u), chunk);
    if u.head > 0 {
      AssembleSplit(chunks, 0, 1, u.nextIndex);
      AssembleOne(chunks, 0);
    } else {
      assert file[..h] == [];
    }
    ThreeParts(file, h, b);
  }

  /** Whatever number of pieces was sent, only they were added, each at its own index. */
  lemma {:induction false} PiecesSent(before: map<nat, Bytes>, first: nat, ps: seq<Bytes>, n: nat)
    requires n <= |ps|
    ensures PartlySent(before, WithPieces(before, first, ps, n), first, ps)
    ensures AllSent(WithPieces(before, first, ps, n), first, ps[..n])
  {
    if n > 0 {
      PiecesSent(before, first, ps, n - 1);
      PieceAdded(before, WithPieces(before, first, ps, n - 1), first, ps, n - 1);
    }
  }

  lemma PieceAdded(before: map<nat, Bytes>, chunks: map<nat, Bytes>, first: nat, ps: seq<Bytes>, index: nat)
    requires index < |ps| && AllSent(chunks, first, ps[..index]) && PartlySent(before, chunks, first, ps)
    ensures
      var more := chunks[first + index := ps[index]];
      AllSent(more, first, ps[..index + 1]) && PartlySent(before, more, first, ps)
  {
  }
}
