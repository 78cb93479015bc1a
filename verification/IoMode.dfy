/** The mirror of the kernel's per-inode I/O mode. The kernel refuses an open that mixes
    passthrough with cached opens of one inode, or gives it two backing files; direct opens
    are always allowed.

    `live` are the handles the kernel holds. Every method keeps the stored modes in agreement
    with them, whatever the order of opens and releases. */
module IoMode {
  import opened Options

  datatype Kind = PassthroughIo | CachedIo | DirectIo

  datatype Mode = Passthrough(backing: nat, file: nat, opens: nat) | Cached(opens: nat) | Foreign(opens: nat)

  /** An eligible open: the identity of its file, and the backing that registering it gives
      (none if that fails). */
  datatype Offer = Offer(file: nat, registered: Option<nat>)

  datatype Grant = GrantPassthrough(backing: nat) | GrantCached | GrantDirect

  /** A handle the kernel holds; one granted passthrough by this daemon has its backing. */
  datatype Handle = Handle(ino: nat, kind: Kind, own: Option<Shared>)

  datatype Shared = Shared(backing: nat, file: nat)

  function KindOf(g: Grant): Kind {
    match g
    case GrantPassthrough(_) => PassthroughIo
    case GrantCached => CachedIo
    case GrantDirect => DirectIo
  }

  /** What a handle granted passthrough shares: the backing it was given and the file it is of. */
  function OwnOf(g: Grant, offer: Option<Offer>): Option<Shared> {
    if g.GrantPassthrough? && offer.Some? then Some(Shared(g.backing, offer.value.file)) else None
  }

  /** The handles that put `ino` in a mode. */
  ghost function Holders(live: map<nat, Handle>, ino: nat): set<nat> {
    set h | h in live && live[h].ino == ino && live[h].kind != DirectIo
  }

  /** The handle is in this mode. */
  predicate Fits(handle: Handle, m: Mode) {
    match m
    case Passthrough(backing, file, _) => handle.kind == PassthroughIo && handle.own == Some(Shared(backing, file))
    case Cached(_) => handle.kind == CachedIo && handle.own == None
    case Foreign(_) => handle.kind == PassthroughIo && handle.own == None
  }

  /** The stored mode is that of all of them, and its count theirs. */
  ghost predicate Agrees(live: map<nat, Handle>, modes: map<nat, Mode>, ino: nat) {
    var hs := Holders(live, ino);
    if ino !in modes then hs == {}
    else hs != {} && modes[ino].opens == |hs| && forall h :: h in hs ==> Fits(live[h], modes[ino])
  }

  ghost predicate AllAgree(live: map<nat, Handle>, modes: map<nat, Mode>) {
    forall ino: nat :: Agrees(live, modes, ino)
  }

  /** One more handle in the mode, or the first. */
  lemma OneMore(live: map<nat, Handle>, modes: map<nat, Mode>, h: nat, handle: Handle, m: Mode)
    requires AllAgree(live, modes) && h !in live && handle.kind != DirectIo && Fits(handle, m)
    requires handle.ino !in modes ==> m.opens == 1
    requires handle.ino in modes ==>
        m.opens == modes[handle.ino].opens + 1 && forall k :: Fits(k, modes[handle.ino]) ==> Fits(k, m)
    ensures AllAgree(live[h := handle], modes[handle.ino := m])
  {
    var live', modes' := live[h := handle], modes[handle.ino := m];
    forall i: nat ensures Agrees(live', modes', i) {
      OpenedHolders(live, h, handle, i);
      assert Agrees(live, modes, i);
    }
  }

  lemma DirectMore(live: map<nat, Handle>, modes: map<nat, Mode>, h: nat, handle: Handle)
    requires AllAgree(live, modes) && h !in live && handle.kind == DirectIo
    ensures AllAgree(live[h := handle], modes)
  {
    var live' := live[h := handle];
    forall i: nat ensures Agrees(live', modes, i) {
      OpenedHolders(live, h, handle, i);
      assert Agrees(live, modes, i);
    }
  }

  lemma OpenedHolders(live: map<nat, Handle>, h: nat, handle: Handle, ino: nat)
    requires h !in live
    ensures
      var more := live[h := handle];
      && Holders(more, ino) == Holders(live, ino) + (if handle.ino == ino && handle.kind != DirectIo then {h} else {})
      && h !in Holders(live, ino)
  {
  }

  lemma ReleasedHolders(live: map<nat, Handle>, h: nat, ino: nat)
    requires h in live
    ensures Holders(live - {h}, ino) == Holders(live, ino) - {h}
    ensures h in Holders(live, ino) <==> live[h].ino == ino && live[h].kind != DirectIo
  {
  }

  /** What an agreeing mode means for the kernel: no inode mixes cached and passthrough opens,
      and passthrough opens granted here share one backing and one file. */
  lemma HandlesOfAnInodeAgree(live: map<nat, Handle>, modes: map<nat, Mode>, h: nat, j: nat)
    requires h in live && j in live && live[h].ino == live[j].ino && Agrees(live, modes, live[h].ino)
    requires live[h].kind != DirectIo && live[j].kind != DirectIo
    ensures live[h].kind == live[j].kind && live[h].own == live[j].own
    ensures live[h].ino in modes && modes[live[h].ino].opens == |Holders(live, live[h].ino)|
  {
    assert h in Holders(live, live[h].ino) && j in Holders(live, live[h].ino);
  }

  /** While a handle granted passthrough here is live, every further open of its inode is given
      the same backing if it is of the same file, and direct I/O otherwise; while one is cached,
      cached; while one of a previous daemon's is passthrough, direct. */
  lemma FurtherOpens(live: map<nat, Handle>, modes: map<nat, Mode>, h: nat, offer: Option<Offer>)
    requires AllAgree(live, modes) && h in live && live[h].kind != DirectIo
    ensures
      var grant := Answer(modes, live[h].ino, offer);
      if live[h].kind == CachedIo then grant == GrantCached
      else if live[h].own.Some? && offer.Some? && offer.value.file == live[h].own.value.file then
        grant == GrantPassthrough(live[h].own.value.backing)
      else grant == GrantDirect
  {
    assert Agrees(live, modes, live[h].ino) && h in Holders(live, live[h].ino);
    assert Fits(live[h], modes[live[h].ino]);
  }

  /** With none live but direct ones, the first to open decides: passthrough, with the backing its
      registration gave, if it is eligible and that worked, and cached otherwise. */
  lemma FirstOpen(live: map<nat, Handle>, modes: map<nat, Mode>, ino: nat, offer: Option<Offer>)
    requires AllAgree(live, modes) && forall h :: h in live && live[h].ino == ino ==> live[h].kind == DirectIo
    ensures
      var grant := Answer(modes, ino, offer);
      && (forall file, backing :: offer == Some(Offer(file, Some(backing))) ==> grant == GrantPassthrough(backing))
      && (offer == None || offer.value.registered == None ==> grant == GrantCached)
  {
    assert Agrees(live, modes, ino) && Holders(live, ino) == {};
  }

  /** So all passthrough grants of an inode whose handles are live have one backing and one file. */
  lemma GrantsShare(
      live: map<nat, Handle>, modes: map<nat, Mode>, h: nat, j: nat, g: Grant, f: Grant,
      o: Option<Offer>, q: Option<Offer>)
    requires AllAgree(live, modes) && h in live && j in live && live[h].ino == live[j].ino
    requires live[h] == Handle(live[h].ino, KindOf(g), OwnOf(g, o))
        && live[j] == Handle(live[j].ino, KindOf(f), OwnOf(f, q))
    requires g.GrantPassthrough? && f.GrantPassthrough? && o.Some? && q.Some?
    ensures g.backing == f.backing && o.value.file == q.value.file
  {
    assert Agrees(live, modes, live[h].ino);
    HandlesOfAnInodeAgree(live, modes, h, j);
  }

  class InodeIoModes {
    var modes: map<nat, Mode>
    ghost var live: map<nat, Handle>

    ghost predicate Valid()
      reads this
    {
      AllAgree(live, modes)
    }

    constructor ()
      ensures Valid() && modes == map[] && live == map[]
    {
      modes, live := map[], map[];
    }

    /** How an open is answered. A conflicting one is answered with direct I/O. */
    method Acquire(ino: nat, offer: Option<Offer>, ghost h: nat) returns (grant: Grant)
      requires Valid() && h !in live
      modifies this
      ensures Valid()
      ensures grant == Answer(old(modes), ino, offer)
      ensures grant.GrantPassthrough? ==> offer.Some?
      ensures live == old(live)[h := Handle(ino, KindOf(grant), OwnOf(grant, offer))]
    {
      ghost var own: Option<Shared> := None;
      if ino in modes {
        match modes[ino]
        case Passthrough(backing, file, opens) =>
          if offer.Some? && offer.value.file == file {
            own := Some(Shared(backing, file));
            OneMore(live, modes, h, Handle(ino, PassthroughIo, own), Passthrough(backing, file, opens + 1));
            modes := modes[ino := Passthrough(backing, file, opens + 1)];
            grant := GrantPassthrough(backing);
          } else {
            DirectMore(live, modes, h, Handle(ino, DirectIo, own));
            grant := GrantDirect;
          }
        case Cached(opens) =>
          OneMore(live, modes, h, Handle(ino, CachedIo, own), Cached(opens + 1));
          modes := modes[ino := Cached(opens + 1)];
          grant := GrantCached;
        case Foreign(_) =>
          DirectMore(live, modes, h, Handle(ino, DirectIo, own));
          grant := GrantDirect;
      } else if offer.Some? && offer.value.registered.Some? {
        var backing, file := offer.value.registered.value, offer.value.file;
        own := Some(Shared(backing, file));
        OneMore(live, modes, h, Handle(ino, PassthroughIo, own), Passthrough(backing, file, 1));
        modes := modes[ino := Passthrough(backing, file, 1)];
        grant := GrantPassthrough(backing);
      } else {
        OneMore(live, modes, h, Handle(ino, CachedIo, own), Cached(1));
        modes := modes[ino := Cached(1)];
        grant := GrantCached;
      }
      live := live[h := Handle(ino, KindOf(grant), own)];
    }

    /** A handle granted or adopted before is gone. */
    method Release(ino: nat, kind: Kind, ghost h: nat)
      requires Valid() && h in live && live[h].ino == ino && live[h].kind == kind
      modifies this
      ensures Valid()
      ensures live == old(live) - {h}
    {
      ReleasedHolders(live, h, ino);
      assert Agrees(live, modes, ino);
      if ino in modes {
        var opens := modes[ino].opens;
        match (modes[ino], kind)
        case (Passthrough(backing, file, _), PassthroughIo) =>
          modes := if opens == 1 then modes - {ino} else modes[ino := Passthrough(backing, file, opens - 1)];
        case (Foreign(_), PassthroughIo) =>
          modes := if opens == 1 then modes - {ino} else modes[ino := Foreign(opens - 1)];
        case (Cached(_), CachedIo) =>
          modes := if opens == 1 then modes - {ino} else modes[ino := Cached(opens - 1)];
        case _ =>
      }
      live := live - {h};
      forall i: nat ensures Agrees(live, modes, i) {
        ReleasedHolders(old(live), h, i);
        assert Agrees(old(live), old(modes), i);
        OneLeft(Holders(old(live), i), h);
      }
    }

    /** A handle a previous daemon opened and the kernel still holds: the kernel only had it
        together with others of its kind, none of them opened here. */
    method Adopt(ino: nat, kind: Kind, ghost h: nat)
      requires Valid() && h !in live
      requires kind != DirectIo ==> forall j :: j in Holders(live, ino) ==> live[j].kind == kind && live[j].own == None
      modifies this
      ensures Valid()
      ensures live == old(live)[h := Handle(ino, kind, None)]
    {
      ghost var handle := Handle(ino, kind, None);
      assert Agrees(live, modes, ino);
      match kind {
        case DirectIo =>
          DirectMore(live, modes, h, handle);
        case CachedIo =>
          AdoptedMode(live, modes, handle);
          if ino !in modes {
            OneMore(live, modes, h, handle, Cached(1));
            modes := modes[ino := Cached(1)];
          } else if modes[ino].Cached? {
            OneMore(live, modes, h, handle, Cached(modes[ino].opens + 1));
            modes := modes[ino := Cached(modes[ino].opens + 1)];
          }
        case PassthroughIo =>
          AdoptedMode(live, modes, handle);
          if ino !in modes {
            OneMore(live, modes, h, handle, Foreign(1));
            modes := modes[ino := Foreign(1)];
          } else if modes[ino].Foreign? {
            OneMore(live, modes, h, handle, Foreign(modes[ino].opens + 1));
            modes := modes[ino := Foreign(modes[ino].opens + 1)];
          }
      }
      live := live[h := handle];
    }
  }

  /** The mode an inode is in when a handle of the kernel's is adopted is that handle's. */
  lemma AdoptedMode(live: map<nat, Handle>, modes: map<nat, Mode>, handle: Handle)
    requires Agrees(live, modes, handle.ino) && handle.kind != DirectIo && handle.own == None
    requires forall j :: j in Holders(live, handle.ino) ==> live[j].kind == handle.kind && live[j].own == None
    ensures handle.ino in modes ==>
              && (modes[handle.ino].Cached? <==> handle.kind == CachedIo)
              && (modes[handle.ino].Foreign? <==> handle.kind == PassthroughIo)
  {
    if handle.ino in modes {
      var j :| j in Holders(live, handle.ino);
      assert Fits(live[j], modes[handle.ino]);
    }
  }

  function Answer(modes: map<nat, Mode>, ino: nat, offer: Option<Offer>): Grant {
    if ino !in modes then
      if offer.Some? && offer.value.registered.Some? then GrantPassthrough(offer.value.registered.value)
      else GrantCached
    else
      match modes[ino]
      case Passthrough(backing, file, _) =>
        if offer.Some? && offer.value.file == file then GrantPassthrough(backing) else GrantDirect
      case Cached(_) => GrantCached
      case Foreign(_) => GrantDirect
  }

  lemma OneLeft(hs: set<nat>, h: nat)
    ensures h in hs ==> |hs - {h}| == |hs| - 1 && (|hs| == 1 <==> hs - {h} == {})
  {
    if h in hs && |hs| == 1 {
      assert |hs - {h}| == 0;
    }
  }
}
