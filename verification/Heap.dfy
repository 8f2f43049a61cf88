/** The nodes of the registry in memory: which are listed, which are unlinked but not
    yet freed, and where their links lead. */
module Heap {
  import opened Chains
  import opened Registry
  import opened ServerState
  import opened Handlers
  import opened ServerSteps
  import opened Legality
  import opened Connections

  lemma RegistrySids(s: Server)
    requires Nodes(s)
    ensures Distinct(Sids(s.registry)) && forall x :: x in Sids(s.registry) ==> x < |s.sessions|
  {
    forall i, j | 0 <= i < j < |s.registry| ensures s.registry[i].sid != s.registry[j].sid {
      SessionsDiffer(s, i, j);
    }
    forall x | x in Sids(s.registry) ensures x < |s.sessions| {
      var i :| 0 <= i < |s.registry| && Sids(s.registry)[i] == x;
      assert Owned(s, s.registry[i]);
    }
  }

  lemma MovedSids(es: seq<Entry>, fd: int, room: string)
    ensures Sids(Moved(es, fd, room)) == Sids(es)
  {
  }

  lemma SidsRemoved(es: seq<Entry>, fd: int)
    requires PosOfFd(es, fd) < |es| && Distinct(Sids(es))
    ensures Sids(Removed(es, fd)) == Without(Sids(es), {es[PosOfFd(es, fd)].sid})
  {
    var i, xs := PosOfFd(es, fd), Sids(es);
    WithoutAt(xs, i);
    hide Without, Distinct;
    SidsConcat(es[..i], es[i + 1..]);
    assert Sids(es[..i]) == xs[..i] && Sids(es[i + 1..]) == xs[i + 1..];
  }

  lemma SidsConcat(a: seq<Entry>, b: seq<Entry>)
    ensures Sids(a + b) == Sids(a) + Sids(b)
  {
  }

  /** A session's node is unlinked once its thread is past registry_remove, freed once
      the thread is past free, and keeps descriptor and name until then. */
  ghost predicate Kept(s: Server, k: nat) {
    && k < |s.sessions| && s.sessions[k] < |s.handlers|
    && var hd := s.handlers[s.sessions[k]];
       && (k in s.unlinked <==> !Registered(hd))
       && (k in s.freed <==> ReleasedPc(hd.pc))
       && (k in s.unlinked ==> Resembles(s.unlinked[k].entry, k, hd))
  }

  predicate Resembles(e: Entry, k: nat, hd: Handler) {
    e.sid == k && e.fd == hd.fd && e.username == hd.name
  }

  ghost predicate RecordsOk(s: Server) {
    && (forall k :: k in s.unlinked ==> k < |s.sessions|)
    && (forall k :: k in s.freed ==> k < |s.sessions|)
    && (forall k :: 0 <= k < |s.sessions| ==> Kept(s, k))
  }

  /** Links lead to older nodes that are listed or unlinked. */
  ghost predicate Linked(s: Server) {
    Shape(Sids(s.registry), Links(s.unlinked))
  }

  ghost predicate HeapOk(s: Server) {
    Linked(s) && RecordsOk(s) && FreeingOk(s)
  }

  lemma LinksUnlinking(unlinked: map<nat, Loose>, x: nat, l: Loose)
    ensures Links(unlinked[x := l]) == Links(unlinked)[x := l.next]
  {
  }

  /** What registry_remove does for a registered thread, before the free. */
  lemma UnlinksOwn(s: Server, h: nat)
    requires Nodes(s) && Fds(s) && h < |s.handlers| && Registered(s.handlers[h])
    ensures var x, t := s.handlers[h].sid, Unlink(s, s.handlers[h].fd);
            && x < |s.sessions| && s.sessions[x] == h && x in Sids(s.registry)
            && t.unlinked == s.unlinked[x := Loose(NodeOf(s.handlers[h]), NextOf(s, x))]
            && Sids(t.registry) == Without(Sids(s.registry), {x})
            && Links(t.unlinked) == Unlinking(Sids(s.registry), Links(s.unlinked), x)
            && t.caster == Bypass(s, t, x)
  {
    OwnNode(s, h);
    RegistrySids(s);
    assert Listed(s, h);
    hide Nodes, Fds, Registered, Enrolled, Without, Distinct, Removed, Succ, Chain;
    var x := s.handlers[h].sid;
    SidsRemoved(s.registry, s.handlers[h].fd);
    assert Sids(s.registry)[PosOfFd(s.registry, s.handlers[h].fd)] in Sids(s.registry);
    LinksUnlinking(s.unlinked, x, Loose(NodeOf(s.handlers[h]), NextOf(s, x)));
  }

  lemma LinkedUnlink(s: Server, h: nat)
    requires Linked(s) && Nodes(s) && Fds(s) && h < |s.handlers| && Registered(s.handlers[h])
    ensures Linked(Unlink(s, s.handlers[h].fd))
  {
    UnlinksOwn(s, h);
    hide Nodes, Fds, Registered, Without, Unlink, Shape, Unlinking;
    ShapeUnlink(Sids(s.registry), Links(s.unlinked), s.handlers[h].sid);
  }

  lemma LinkedRegister(s: Server, e: Entry)
    requires Linked(s) && RecordsOk(s) && Nodes(s) && e.sid == |s.sessions|
    ensures Linked(s.(registry := [e] + s.registry))
  {
    RegistrySids(s);
    hide Nodes, Shape, Kept;
    assert Sids([e] + s.registry) == [e.sid] + Sids(s.registry);
    ShapeAdd(e.sid, Sids(s.registry), Links(s.unlinked));
  }

  lemma LinkedHandler(env: Env, s: Server, h: nat, hd': Handler, eff: Effect)
    requires HeapOk(s) && Nodes(s) && Fds(s) && h < |s.handlers| && Legal(env, s, s.handlers[h], hd', eff)
    ensures Linked(Apply(env, s, h, eff))
  {
    hide Nodes, Fds, LocalOk, Registered, Enrolled, PhaseOf, PhaseMove, InFlight, EventOk, KickOk, Same, NodeOf,
         PeerMove, PeerOf, HoldsFd, AddResult, Removed, Moved, Remembered, Unlink, Shape, RecordsOk;
    match eff
    case Register(e) => LinkedRegister(s, e);
    case Unregister(fd) =>
      assert Apply(env, s, h, eff) == Unlink(s, s.handlers[h].fd);
      LinkedUnlink(s, h);
    case Relocate(fd, room) => MovedSids(s.registry, fd, room);
    case Free(node) =>
      assert Linked(Apply(env, s, h, eff));
    case _ =>
      assert Linked(Apply(env, s, h, eff));
  }

  /** A thread that keeps its node, or has none, keeps the record of its session. */
  predicate KeepsNode(hd: Handler, hd': Handler) {
    && (Registered(hd') <==> Registered(hd)) && (ReleasedPc(hd'.pc) <==> ReleasedPc(hd.pc))
    && hd'.fd == hd.fd && hd'.name == hd.name
  }

  lemma KeptSteady(s: Server, s': Server, k: nat)
    requires Kept(s, k) && s.sessions <= s'.sessions && s.sessions[k] < |s'.handlers|
    requires k in s'.unlinked <==> k in s.unlinked
    requires k in s.unlinked ==> s'.unlinked[k] == s.unlinked[k]
    requires k in s'.freed <==> k in s.freed
    requires KeepsNode(s.handlers[s.sessions[k]], s'.handlers[s.sessions[k]])
    ensures Kept(s', k)
  {
    assert s'.sessions[k] == s.sessions[k];
    hide Registered;
  }

  /** What a legal step means for the node of its thread. */
  lemma NodeMove(env: Env, s: Server, hd: Handler, hd': Handler, eff: Effect)
    requires Legal(env, s, hd, hd', eff)
    ensures eff.Register? ==>
              !Enrolled(hd) && Registered(hd') && !ReleasedPc(hd'.pc) && eff.entry.sid == |s.sessions| == hd'.sid
    ensures eff.Unregister? ==>
              Registered(hd) && !Registered(hd') && !ReleasedPc(hd.pc) && !ReleasedPc(hd'.pc) && eff.fd == hd.fd
    ensures eff.Free? ==> eff.node == hd.sid && !Registered(hd) && !Registered(hd') && ReleasedPc(hd'.pc)
    ensures Enrolled(hd) ==> hd'.fd == hd.fd && hd'.name == hd.name
    ensures Enrolled(hd) && !eff.Unregister? && !eff.Free? && !eff.Register? ==> KeepsNode(hd, hd')
  {
    hide LocalOk, PhaseOf, PhaseMove, InFlight, EventOk, KickOk, PeerMove, PeerOf, HoldsFd, AddResult;
  }

  lemma KeptRegister(s: Server, h: nat, hd': Handler, s': Server)
    requires RecordsOk(s) && Nodes(s) && h < |s.handlers| && !Enrolled(s.handlers[h])
    requires Registered(hd') && !ReleasedPc(hd'.pc)
    requires s'.handlers == s.handlers[h := hd'] && s'.sessions == s.sessions + [h]
    requires s'.unlinked == s.unlinked && s'.freed == s.freed
    ensures RecordsOk(s')
  {
    hide Registered, Enrolled, Kept;
    forall k | 0 <= k < |s'.sessions| ensures Kept(s', k) {
      if k < |s.sessions| {
        assert Kept(s, k) && OwnerOf(s, k, s.sessions[k]);
        KeptSame(s, s', k);
      } else {
        KeptNew(s', k);
      }
    }
  }

  lemma KeptNew(s: Server, k: nat)
    requires k < |s.sessions| && s.sessions[k] < |s.handlers| && k !in s.unlinked && k !in s.freed
    requires Registered(s.handlers[s.sessions[k]]) && !ReleasedPc(s.handlers[s.sessions[k]].pc)
    ensures Kept(s, k)
  {
  }

  lemma KeptSame(s: Server, s': Server, k: nat)
    requires Kept(s, k) && s.sessions <= s'.sessions && s'.unlinked == s.unlinked && s'.freed == s.freed
    requires s.sessions[k] < |s'.handlers| && s'.handlers[s.sessions[k]] == s.handlers[s.sessions[k]]
    ensures Kept(s', k)
  {
    KeptSteady(s, s', k);
  }

  /** Another session's record is untouched by unlinking or freeing session x. */
  lemma KeptOther(s: Server, h: nat, hd': Handler, s': Server, x: nat, k: nat)
    requires Nodes(s) && RecordsOk(s) && h < |s.handlers| && x < |s.sessions| && s.sessions[x] == h
    requires k < |s.sessions| && k != x && s'.handlers == s.handlers[h := hd'] && s'.sessions == s.sessions
    requires (k in s'.unlinked <==> k in s.unlinked) && (k in s.unlinked ==> s'.unlinked[k] == s.unlinked[k])
    requires k in s'.freed <==> k in s.freed
    ensures Kept(s', k)
  {
    assert OwnerOf(s, k, s.sessions[k]) && OwnerOf(s, x, h) && Kept(s, k);
    hide Nodes, RecordsOk, Registered, Enrolled;
    KeptSteady(s, s', k);
  }

  lemma KeptUnlink(s: Server, h: nat, hd': Handler, s': Server)
    requires RecordsOk(s) && Nodes(s) && Fds(s) && h < |s.handlers| && Registered(s.handlers[h])
    requires !Registered(hd') && !ReleasedPc(s.handlers[h].pc) && !ReleasedPc(hd'.pc)
    requires hd'.fd == s.handlers[h].fd && hd'.name == s.handlers[h].name
    requires s'.handlers == s.handlers[h := hd'] && s'.sessions == s.sessions
    requires s'.unlinked == Unlink(s, s.handlers[h].fd).unlinked && s'.freed == s.freed
    ensures RecordsOk(s')
  {
    var x := s.handlers[h].sid;
    UnlinksOwn(s, h);
    assert Kept(s, x);
    hide Nodes, Fds, Unlink, Registered, Enrolled, NextOf;
    forall k | 0 <= k < |s'.sessions| ensures Kept(s', k) {
      if k != x {
        KeptOther(s, h, hd', s', x, k);
      }
    }
  }

  lemma KeptFree(s: Server, h: nat, hd': Handler, s': Server)
    requires RecordsOk(s) && Nodes(s) && h < |s.handlers| && !Registered(s.handlers[h]) && Enrolled(s.handlers[h])
    requires s.handlers[h].sid < |s.sessions| && s.sessions[s.handlers[h].sid] == h
    requires !Registered(hd') && ReleasedPc(hd'.pc) && hd'.fd == s.handlers[h].fd && hd'.name == s.handlers[h].name
    requires s'.handlers == s.handlers[h := hd'] && s'.sessions == s.sessions
    requires s'.unlinked == s.unlinked && s'.freed == s.freed + {s.handlers[h].sid}
    ensures RecordsOk(s')
  {
    var x := s.handlers[h].sid;
    assert Kept(s, x);
    hide Nodes, Registered, Enrolled;
    forall k | 0 <= k < |s'.sessions| ensures Kept(s', k) {
      if k != x {
        KeptOther(s, h, hd', s', x, k);
      }
    }
  }

  lemma KeptQuiet(s: Server, h: nat, hd': Handler, s': Server)
    requires RecordsOk(s) && Nodes(s) && h < |s.handlers|
    requires Enrolled(s.handlers[h]) ==> KeepsNode(s.handlers[h], hd')
    requires s'.handlers == s.handlers[h := hd'] && s'.sessions == s.sessions
    requires s'.unlinked == s.unlinked && s'.freed == s.freed
    ensures RecordsOk(s')
  {
    hide Kept, Registered, Enrolled, KeepsNode;
    forall k | 0 <= k < |s'.sessions| ensures Kept(s', k) {
      assert Kept(s, k) && OwnerOf(s, k, s.sessions[k]);
      if s.sessions[k] == h {
        KeptMoved(s, h, hd', s', k);
      } else {
        KeptSame(s, s', k);
      }
    }
  }

  /** A thread about to free a node owns the node's session. */
  ghost predicate FreeingOk(s: Server) {
    forall h :: 0 <= h < |s.handlers| && FreeingPc(s.handlers[h].pc) ==> OwnerOf(s, s.handlers[h].sid, h)
  }

  lemma KeptMoved(s: Server, h: nat, hd': Handler, s': Server, k: nat)
    requires Kept(s, k) && s.sessions[k] == h < |s.handlers| && KeepsNode(s.handlers[h], hd')
    requires s'.handlers == s.handlers[h := hd'] && s'.sessions == s.sessions
    requires s'.unlinked == s.unlinked && s'.freed == s.freed
    ensures Kept(s', k)
  {
    KeptSteady(s, s', k);
  }

  lemma FreeingHandler(env: Env, s: Server, h: nat, hd': Handler, eff: Effect, s': Server)
    requires FreeingOk(s) && Nodes(s) && Fds(s) && h < |s.handlers| && Legal(env, s, s.handlers[h], hd', eff)
    requires s'.handlers == s.handlers[h := hd'] && s.sessions <= s'.sessions
    ensures FreeingOk(s')
  {
    if FreeingPc(hd'.pc) {
      assert eff.Unregister? && hd'.sid == s.handlers[h].sid;
      UnlinksOwn(s, h);
    }
    hide Nodes, Fds, Legal, Unlink, Registered;
    forall g | 0 <= g < |s'.handlers| && FreeingPc(s'.handlers[g].pc) ensures OwnerOf(s', s'.handlers[g].sid, g) {
      if g != h {
        assert OwnerOf(s, s.handlers[g].sid, g);
      }
      assert s'.sessions[s'.handlers[g].sid] == s.sessions[s'.handlers[g].sid];
    }
  }

  lemma KeptHandler(env: Env, s: Server, h: nat, hd': Handler, eff: Effect)
    requires HeapOk(s) && Nodes(s) && Fds(s) && h < |s.handlers| && Legal(env, s, s.handlers[h], hd', eff)
    ensures RecordsOk(Apply(env, s, h, eff).(handlers := s.handlers[h := hd']))
  {
    var s' := Apply(env, s, h, eff).(handlers := s.handlers[h := hd']);
    NodeMove(env, s, s.handlers[h], hd', eff);
    HeapFrame(env, s, h, eff);
    assert eff.Free? ==> FreeingPc(s.handlers[h].pc);
    hide Nodes, Fds, Legal, Linked, RecordsOk, Registered, KeepsNode, Apply, Unlink;
    match eff
    case Register(e) => KeptRegister(s, h, hd', s');
    case Unregister(fd) => KeptUnlink(s, h, hd', s');
    case Free(node) => KeptFree(s, h, hd', s');
    case _ => KeptQuiet(s, h, hd', s');
  }

  lemma HeapFrame(env: Env, s: Server, h: nat, eff: Effect)
    ensures var s' := Apply(env, s, h, eff);
            && s'.sessions == s.sessions + (if eff.Register? then [h] else [])
            && s'.unlinked == (if eff.Unregister? then Unlink(s, eff.fd).unlinked else s.unlinked)
            && s'.freed == s.freed + (if eff.Free? then {eff.node} else {})
  {
    hide Removed, Moved, Remembered, Loosened, Bypass;
  }

  lemma HeapHandler(env: Env, s: Server, h: nat, hd': Handler, eff: Effect)
    requires HeapOk(s) && Nodes(s) && Fds(s) && h < |s.handlers| && Legal(env, s, s.handlers[h], hd', eff)
    ensures HeapOk(Apply(env, s, h, eff).(handlers := s.handlers[h := hd']))
  {
    var s' := Apply(env, s, h, eff).(handlers := s.handlers[h := hd']);
    LinkedHandler(env, s, h, hd', eff);
    KeptHandler(env, s, h, hd', eff);
    SessionsGrow(env, s, h, eff);
    hide Nodes, Fds, Legal, Apply, RecordsOk, Shape, FreeingOk;
    FreeingHandler(env, s, h, hd', eff, s');
  }

  lemma SessionsGrow(env: Env, s: Server, h: nat, eff: Effect)
    ensures s.sessions <= Apply(env, s, h, eff).sessions
  {
    hide Removed, Moved, Remembered, Loosened, Bypass;
  }

  /** The other threads leave the nodes alone. */
  lemma HeapOther(s: Server, s': Server)
    requires HeapOk(s) && s'.registry == s.registry && s'.unlinked == s.unlinked && s'.freed == s.freed
    requires s'.sessions == s.sessions && |s.handlers| <= |s'.handlers| && s'.handlers[..|s.handlers|] == s.handlers
    requires forall g :: |s.handlers| <= g < |s'.handlers| ==> s'.handlers[g].pc.Top?
    ensures HeapOk(s')
  {
    assert forall g :: 0 <= g < |s.handlers| ==> s'.handlers[g] == s.handlers[g];
    hide Shape, Kept;
    forall k | 0 <= k < |s'.sessions| ensures Kept(s', k) {
      assert Kept(s, k);
      KeptInPlace(s, s', k);
    }
    forall g | 0 <= g < |s'.handlers| && FreeingPc(s'.handlers[g].pc) ensures OwnerOf(s', s'.handlers[g].sid, g) {
      assert OwnerOf(s, s.handlers[g].sid, g);
    }
  }

  lemma KeptInPlace(s: Server, s': Server, k: nat)
    requires Kept(s, k) && s'.unlinked == s.unlinked && s'.freed == s.freed && s'.sessions == s.sessions
    requires |s.handlers| <= |s'.handlers| && s'.handlers[s.sessions[k]] == s.handlers[s.sessions[k]]
    ensures Kept(s', k)
  {
    KeptSame(s, s', k);
  }
}
