/** Single-flight name lookups: all callers that need the same host share one lookup, and a
    host with a usable answer never makes a caller wait.

    Each method is one hold of the lock. `jobs` are the lookups under way: at most one a
    host, by being a map; that a second is never started is what the methods that start one
    have to show. `sent` are the answers given to waiting callers. */
module HostLookup {
  import opened Options

  const DNS_FRESH: nat := 45
  const DNS_STALE_MAX: nat := 3600

  type Addrs = seq<string>

  datatype Answer = Found(addrs: Addrs) | Refused | Failed(why: string)

  datatype Good = Good(at: nat, addrs: Addrs)

  datatype Host = Host(lastGood: Option<Good>, freshUntil: Option<nat>, inFlight: bool, waiting: seq<nat>)

  const NEW_HOST := Host(None, None, false, [])

  /** A lookup its starter has yet to hand to the pool, one in the pool, one a worker runs. */
  datatype Job = Starting | InPool | Running

  datatype Sent = Sent(caller: nat, answer: Answer)

  function HostOf(hosts: map<string, Host>, name: string): Host {
    if name in hosts then hosts[name] else NEW_HOST
  }

  function StaleAnswer(h: Host, now: nat): Option<Addrs> {
    if h.lastGood.Some? && now < h.lastGood.value.at + DNS_STALE_MAX then Some(h.lastGood.value.addrs) else None
  }

  /** What everybody waiting is told when the lookup ends with `result`. */
  function Verdict(h: Host, result: Answer, now: nat): Answer {
    if result.Found? && result.addrs != [] then result
    else if StaleAnswer(h, now).Some? then Found(StaleAnswer(h, now).value)
    else if result.Found? then Failed("no addresses")
    else result
  }

  function Ended(h: Host, result: Answer, now: nat): Host {
    if result.Found? && result.addrs != [] then Host(Some(Good(now, result.addrs)), Some(now + DNS_FRESH), false, [])
    else h.(inFlight := false, waiting := [])
  }

  /** A good answer is told to everybody who waits, served without asking again for the fresh
      period, and may stand in for a failure for an hour from when it was resolved. */
  lemma GoodAnswerServes(h: Host, addrs: Addrs, now: nat, later: nat)
    requires addrs != []
    ensures
      var after := Ended(h, Found(addrs), now);
      && Verdict(h, Found(addrs), now) == Found(addrs)
      && !after.inFlight && after.waiting == []
      && (after.freshUntil.Some? && (later < after.freshUntil.value <==> later < now + 45))
      && StaleAnswer(after, later) == if later < now + 3600 then Some(addrs) else None
  {
  }

  /** A failure, or an answer without addresses, changes nothing about the last good one: that is
      what everybody is told as long as it may stand in, and the failure itself otherwise. */
  lemma FailureFallsBack(h: Host, result: Answer, now: nat)
    requires !result.Found? || result.addrs == []
    ensures
      var after, told := Ended(h, result, now), Verdict(h, result, now);
      && after.lastGood == h.lastGood && after.freshUntil == h.freshUntil && !after.inFlight && after.waiting == []
      && (h.lastGood.Some? && now < h.lastGood.value.at + 3600 ==> told == Found(h.lastGood.value.addrs))
      && (h.lastGood == None || now >= h.lastGood.value.at + 3600 ==>
            told == match result
                    case Found(_) => Failed("no addresses")
                    case Refused => Refused
                    case Failed(why) => Failed(why))
  {
  }

  /** Everybody who waits is told, once each and nobody else. */
  lemma ToldMeans(waiting: seq<nat>, answer: Answer)
    ensures |Told(waiting, answer)| == |waiting|
    ensures forall i :: 0 <= i < |waiting| ==> Told(waiting, answer)[i] == Sent(waiting[i], answer)
  {
  }

  function Told(waiting: seq<nat>, answer: Answer): seq<Sent> {
    seq(|waiting|, i requires 0 <= i < |waiting| => Sent(waiting[i], answer))
  }

  /** Callers wait only on a lookup under way. */
  ghost predicate HostValid(h: Host, looking: bool) {
    && (h.inFlight <==> looking) && (h.waiting != [] ==> looking)
    && forall i, j :: 0 <= i < j < |h.waiting| ==> h.waiting[i] != h.waiting[j]
  }

  ghost predicate Answered(sent: seq<Sent>, caller: nat) {
    exists i :: 0 <= i < |sent| && sent[i].caller == caller
  }

  ghost predicate AtMostOnce(sent: seq<Sent>) {
    forall i, j :: 0 <= i < j < |sent| ==> sent[i].caller != sent[j].caller
  }

  /** A caller that had to wait asked for `asked[c]`. It waits there, and only there, until it
      is answered; the flags say which hosts are being looked up. */
  ghost predicate Consistent(hosts: map<string, Host>, looking: set<string>, sent: seq<Sent>, asked: map<nat, string>) {
    && (forall n :: HostValid(HostOf(hosts, n), n in looking))
    && AtMostOnce(sent)
    && (forall n, c :: c in HostOf(hosts, n).waiting ==> c in asked && asked[c] == n && !Answered(sent, c))
    && (forall i :: 0 <= i < |sent| ==> sent[i].caller in asked)
    && (forall c :: c in asked ==> Answered(sent, c) || c in HostOf(hosts, asked[c]).waiting)
  }

  lemma OthersStay(hosts: map<string, Host>, name: string, h: Host, n: string)
    ensures HostOf(hosts[name := h], n) == if n == name then h else HostOf(hosts, n)
  {
  }

  lemma JoinKeeps(hosts: map<string, Host>, looking: set<string>, sent: seq<Sent>, asked: map<nat, string>,
      name: string, caller: nat)
    requires Consistent(hosts, looking, sent, asked) && caller !in asked
    ensures
      var h := HostOf(hosts, name);
      Consistent(hosts[name := h.(waiting := h.waiting + [caller], inFlight := true)], looking + {name}, sent,
          asked[caller := name])
  {
    var h := HostOf(hosts, name);
    assert HostValid(h, name in looking);
    var h' := h.(waiting := h.waiting + [caller], inFlight := true);
    var hosts', asked' := hosts[name := h'], asked[caller := name];
    forall n ensures HostOf(hosts', n) == if n == name then h' else HostOf(hosts, n) {
      OthersStay(hosts, name, h', n);
    }
    assert !Answered(sent, caller);
    forall c | c in asked' ensures Answered(sent, c) || c in HostOf(hosts', asked'[c]).waiting {
      assert c != caller ==> asked'[c] == asked[c];
    }
  }

  lemma MarkKeeps(hosts: map<string, Host>, looking: set<string>, sent: seq<Sent>, asked: map<nat, string>,
      name: string, flag: bool)
    requires Consistent(hosts, looking, sent, asked) && (flag || name !in looking)
    ensures Consistent(hosts[name := HostOf(hosts, name).(inFlight := flag)],
        if flag then looking + {name} else looking, sent, asked)
  {
    var h := HostOf(hosts, name);
    assert HostValid(h, name in looking);
    var h', hosts' := h.(inFlight := flag), hosts[name := h.(inFlight := flag)];
    forall n ensures HostOf(hosts', n) == if n == name then h' else HostOf(hosts, n) {
      OthersStay(hosts, name, h', n);
    }
  }

  lemma EndKeeps(hosts: map<string, Host>, looking: set<string>, sent: seq<Sent>, asked: map<nat, string>,
      name: string, h': Host, answer: Answer)
    requires Consistent(hosts, looking, sent, asked) && !h'.inFlight && h'.waiting == []
    ensures Consistent(hosts[name := h'], looking - {name}, sent + Told(HostOf(hosts, name).waiting, answer), asked)
  {
    var w, hosts' := HostOf(hosts, name).waiting, hosts[name := h'];
    assert HostValid(HostOf(hosts, name), name in looking);
    forall n ensures HostOf(hosts', n) == if n == name then h' else HostOf(hosts, n) {
      OthersStay(hosts, name, h', n);
    }
    AllTold(sent, w, answer);
    ToldOnce(sent, w, answer);
    var all := sent + Told(w, answer);
    forall i | 0 <= i < |all| ensures all[i].caller in asked {
      assert i >= |sent| ==> all[i].caller == w[i - |sent|] && w[i - |sent|] in w;
    }
    forall n, c | c in HostOf(hosts', n).waiting ensures c in asked && asked[c] == n && !Answered(all, c) {
      assert c !in w;
    }
    forall c | c in asked ensures Answered(all, c) || c in HostOf(hosts', asked[c]).waiting {
      assert Answered(sent, c) || c in HostOf(hosts, asked[c]).waiting;
    }
  }

  lemma ExpireKeeps(hosts: map<string, Host>, hosts': map<string, Host>, looking: set<string>, sent: seq<Sent>,
      asked: map<nat, string>)
    requires Consistent(hosts, looking, sent, asked) && hosts'.Keys == hosts.Keys
    requires forall n :: n in hosts ==> hosts'[n] == hosts[n].(freshUntil := None)
    ensures Consistent(hosts', looking, sent, asked)
  {
    forall n ensures HostOf(hosts', n).waiting == HostOf(hosts, n).waiting
        && HostOf(hosts', n).inFlight == HostOf(hosts, n).inFlight {
    }
    forall n ensures HostValid(HostOf(hosts', n), n in looking) {
      assert HostValid(HostOf(hosts, n), n in looking);
    }
  }

  lemma ToldOnce(sent: seq<Sent>, waiting: seq<nat>, answer: Answer)
    requires AtMostOnce(sent)
    requires forall i, j :: 0 <= i < j < |waiting| ==> waiting[i] != waiting[j]
    requires forall c :: c in waiting ==> !Answered(sent, c)
    ensures AtMostOnce(sent + Told(waiting, answer))
  {
    var all := sent + Told(waiting, answer);
    forall i, j | 0 <= i < j < |all| ensures all[i].caller != all[j].caller {
      if i < |sent| <= j {
        assert waiting[j - |sent|] in waiting && all[i] == sent[i];
      }
    }
  }

  class Resolver {
    var hosts: map<string, Host>
    var sent: seq<Sent>
    ghost var jobs: map<string, Job>
    /** Which host each caller that had to wait asked for. */
    ghost var asked: map<nat, string>

    ghost predicate Valid()
      reads this
    {
      Consistent(hosts, jobs.Keys, sent, asked)
    }

    constructor ()
      ensures Valid() && hosts == map[] && sent == [] && jobs == map[] && asked == map[]
    {
      hosts, sent, jobs, asked := map[], [], map[], map[];
    }

    /** Ends the lookup: everyone waiting on it is told the same, once, and nobody waits on. */
    method Complete(name: string, result: Answer, now: nat)
      requires Valid() && name in jobs
      modifies this`hosts, this`sent, this`jobs
      ensures Valid() && jobs == old(jobs) - {name}
      ensures hosts == old(hosts)[name := Ended(HostOf(old(hosts), name), result, now)]
      ensures sent == old(sent) + Told(HostOf(old(hosts), name).waiting, Verdict(HostOf(old(hosts), name), result, now))
    {
      var h := HostOf(hosts, name);
      var answer: Answer;
      var last, until := h.lastGood, h.freshUntil;
      if result.Found? && result.addrs != [] {
        last, until, answer := Some(Good(now, result.addrs)), Some(now + DNS_FRESH), result;
      } else {
        var stale := StaleAnswer(h, now);
        answer := if stale.Some? then Found(stale.value) else if result.Found? then Failed("no addresses") else result;
      }
      var told := [];
      for i := 0 to |h.waiting|
        invariant told == Told(h.waiting[..i], answer)
      {
        told := told + [Sent(h.waiting[i], answer)];
      }
      assert h.waiting[..|h.waiting|] == h.waiting;
      EndKeeps(hosts, jobs.Keys, sent, asked, name, Host(last, until, false, []), answer);
      hosts := hosts[name := Host(last, until, false, [])];
      sent := sent + told;
      jobs := jobs - {name};
    }

    /** A caller asks: with a usable answer it never waits; otherwise it joins the lookup
        under way. A lookup is started exactly when one is needed and none is under way. */
    method Resolve(name: string, caller: nat, now: nat) returns (immediate: Option<Addrs>, start: bool)
      requires Valid() && caller !in asked
      modifies this`hosts, this`jobs, this`asked
      ensures Valid()
      ensures
        var last := if name in old(hosts) then old(hosts)[name].lastGood else None;
        immediate == if last.Some? && now < last.value.at + 3600 then Some(last.value.addrs) else None
      ensures immediate.Some? ==> asked == old(asked)
      ensures immediate == None ==> asked == old(asked)[caller := name] && caller in HostOf(hosts, name).waiting
      ensures
        var h := HostOf(old(hosts), name);
        var served := h.freshUntil.Some? && now < h.freshUntil.value && immediate.Some?;
        && (start <==> !served && name !in old(jobs))
        && hosts == old(hosts)[name := Host(h.lastGood, h.freshUntil, h.inFlight || !served,
                                            if immediate == None then h.waiting + [caller] else h.waiting)]
      ensures jobs == if start then old(jobs)[name := Starting] else old(jobs)
    {
      var h := HostOf(hosts, name);
      assert HostValid(h, name in jobs.Keys);
      var usable := h.freshUntil.Some? && now < h.freshUntil.value;
      immediate := StaleAnswer(h, now);
      start := !(usable && immediate.Some?) && !h.inFlight;
      if usable && immediate.Some? {
        MarkKeeps(hosts, jobs.Keys, sent, asked, name, h.inFlight);
      } else if immediate.Some? {
        MarkKeeps(hosts, jobs.Keys, sent, asked, name, true);
        h := h.(inFlight := true);
      } else {
        JoinKeeps(hosts, jobs.Keys, sent, asked, name, caller);
        h := h.(waiting := h.waiting + [caller], inFlight := true);
        asked := asked[caller := name];
      }
      assert h.inFlight ==> (if start then jobs[name := Starting] else jobs).Keys == jobs.Keys + {name};
      assert !h.inFlight ==> !start;
      if start {
        jobs := jobs[name := Starting];
      }
      hosts := hosts[name := h];
    }

    /** The pool takes the job. */
    ghost method Accepted(name: string)
      requires Valid() && name in jobs && jobs[name] == Starting
      modifies this`jobs
      ensures Valid() && jobs == old(jobs)[name := InPool]
    {
      jobs := jobs[name := InPool];
      assert jobs.Keys == old(jobs).Keys;
    }

    /** The pool does not: the waiting callers are answered now. */
    method RefusedByPool(name: string, now: nat)
      requires Valid() && name in jobs && jobs[name] == Starting
      modifies this`hosts, this`sent, this`jobs
      ensures Valid() && jobs == old(jobs) - {name}
      ensures hosts == old(hosts)[name := Ended(HostOf(old(hosts), name), Refused, now)]
      ensures sent == old(sent)
          + Told(HostOf(old(hosts), name).waiting, Verdict(HostOf(old(hosts), name), Refused, now))
    {
      Complete(name, Refused, now);
    }

    /** A worker takes the job up. Nobody may need it any more: then it ends there. */
    method Begin(name: string, gaveUp: nat -> bool, now: nat) returns (wanted: bool)
      requires Valid() && name in jobs && jobs[name] == InPool
      modifies this`hosts, this`sent, this`jobs
      ensures Valid()
      ensures wanted <==>
          HostOf(old(hosts), name).lastGood.Some? || exists c :: c in HostOf(old(hosts), name).waiting && !gaveUp(c)
      ensures wanted ==> jobs == old(jobs)[name := Running] && sent == old(sent) && hosts == old(hosts)
      ensures !wanted ==>
                && jobs == old(jobs) - {name}
                && hosts == old(hosts)[name := Ended(HostOf(old(hosts), name), Refused, now)]
                && sent == old(sent) + Told(HostOf(old(hosts), name).waiting, Refused)
    {
      var h := HostOf(hosts, name);
      wanted := h.lastGood.Some?;
      for i := 0 to |h.waiting|
        invariant wanted <==> h.lastGood.Some? || exists k :: 0 <= k < i && !gaveUp(h.waiting[k])
      {
        wanted := wanted || !gaveUp(h.waiting[i]);
      }
      if wanted {
        jobs := jobs[name := Running];
        assert jobs.Keys == old(jobs).Keys;
      } else {
        Complete(name, Refused, now);
      }
    }

    /** The lookup returns; a job that ends any other way counts as refused. */
    method Finish(name: string, result: Answer, now: nat)
      requires Valid() && name in jobs && jobs[name] == Running
      modifies this`hosts, this`sent, this`jobs
      ensures Valid() && jobs == old(jobs) - {name}
      ensures hosts == old(hosts)[name := Ended(HostOf(old(hosts), name), result, now)]
      ensures sent == old(sent) + Told(HostOf(old(hosts), name).waiting, Verdict(HostOf(old(hosts), name), result, now))
    {
      Complete(name, result, now);
    }

    /** Connectivity was lost: every answer may still stand in, and none is fresh any more. */
    method ExpireFresh()
      requires Valid()
      modifies this`hosts
      ensures Valid() && hosts.Keys == old(hosts).Keys
      ensures forall n :: n in hosts ==> hosts[n] == old(hosts)[n].(freshUntil := None)
    {
      hosts := map n | n in hosts :: hosts[n].(freshUntil := None);
      ExpireKeeps(old(hosts), hosts, jobs.Keys, sent, asked);
    }
  }

  lemma AllTold(sent: seq<Sent>, waiting: seq<nat>, answer: Answer)
    ensures forall c :: Answered(sent, c) || c in waiting ==> Answered(sent + Told(waiting, answer), c)
    ensures forall c :: Answered(sent + Told(waiting, answer), c) ==> Answered(sent, c) || c in waiting
  {
    var all := sent + Told(waiting, answer);
    forall c | Answered(sent, c) ensures Answered(all, c) {
      var i :| 0 <= i < |sent| && sent[i].caller == c;
      assert all[i].caller == c;
    }
    forall c | c in waiting ensures Answered(all, c) {
      var i :| 0 <= i < |waiting| && waiting[i] == c;
      assert all[|sent| + i].caller == c;
    }
  }
}
