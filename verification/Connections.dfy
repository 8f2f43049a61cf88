/** Connections, descriptors and registry nodes: who owns what in every state. */
module Connections {
  import opened Common
  import opened Registry
  import opened ServerState
  import opened Handlers
  import opened ServerSteps
  import opened Legality

  ghost predicate Locals(env: Env, s: Server) {
    forall h :: 0 <= h < |s.handlers| ==> LocalOk(env, s.handlers[h])
  }

  /** The handler threads whose connection is still counted. */
  ghost function Live(hs: seq<Handler>): set<nat> {
    set h | 0 <= h < |hs| && !hs[h].pc.Gone?
  }

  /** The connection the accept loop has counted but not yet handed to a thread. */
  function Pending(m: Main): nat {
    if m.MSpawn? || m.MUnspawn? || m.MUncount? then 1 else 0
  }

  /** The counter is exact and bounded, although the capacity check and the
      increment are separate locked sections. */
  ghost predicate Counted(s: Server) {
    && s.active == |Live(s.handlers)| + Pending(s.main)
    && s.active <= MAX_CLIENTS
    && (s.main.MCount? ==> s.active < MAX_CLIENTS)
  }

  /** Open descriptors are pairwise different. */
  ghost predicate Fds(s: Server) {
    && (forall g, h :: 0 <= g < h < |s.handlers| && HoldsFd(s.handlers[g]) && HoldsFd(s.handlers[h]) ==>
                         s.handlers[g].fd != s.handlers[h].fd)
    && (forall h :: 0 <= h < |s.handlers| && HoldsFd(s.handlers[h]) ==> MainFd(s.main) != Some(s.handlers[h].fd))
  }

  /** The thread that a session belongs to. */
  ghost predicate OwnerOf(s: Server, k: nat, h: nat) {
    k < |s.sessions| && s.sessions[k] == h < |s.handlers| && s.handlers[h].sid == k && Enrolled(s.handlers[h])
  }

  /** Registry nodes and registered threads correspond one to one. */
  ghost predicate Nodes(s: Server) {
    && DistinctNames(s.registry)
    && (forall k :: 0 <= k < |s.sessions| ==> OwnerOf(s, k, s.sessions[k]))
    && (forall e :: e in s.registry ==> Owned(s, e))
    && (forall h :: 0 <= h < |s.handlers| && Registered(s.handlers[h]) ==> Listed(s, h))
  }

  ghost predicate Owned(s: Server, e: Entry) {
    && e.sid < |s.sessions| && s.sessions[e.sid] < |s.handlers|
    && var hd := s.handlers[s.sessions[e.sid]];
       Registered(hd) && NodeOf(hd) == e
  }

  ghost predicate Listed(s: Server, h: nat)
    requires h < |s.handlers|
  {
    NodeOf(s.handlers[h]) in s.registry && OwnerOf(s, s.handlers[h].sid, h)
  }

  /** A registered thread's descriptor finds its own node and no other. */
  lemma OwnNode(s: Server, h: nat)
    requires Fds(s) && Nodes(s) && h < |s.handlers|
    ensures OwnsNode(s, s.handlers[h])
  {
    hide DistinctNames;
    var hd := s.handlers[h];
    if Registered(hd) {
      assert Listed(s, h);
      var j :| 0 <= j < |s.registry| && s.registry[j] == NodeOf(hd);
      var i := PosOfFd(s.registry, hd.fd);
      assert i <= j && Owned(s, s.registry[i]);
    }
  }

  lemma SessionsApart(s: Server, i: nat, j: nat)
    requires Nodes(s) && i < |s.registry| && j < |s.registry| && s.registry[i].sid == s.registry[j].sid
    ensures i == j
  {
    assert Owned(s, s.registry[i]) && Owned(s, s.registry[j]);
  }

  lemma SessionsDiffer(s: Server, i: nat, j: nat)
    requires Nodes(s) && i < |s.registry| && j < |s.registry| && i != j
    ensures s.registry[i].sid != s.registry[j].sid
  {
    assert Owned(s, s.registry[i]) && Owned(s, s.registry[j]);
  }

  /** The thread kept its registration, if it has one. */
  predicate Steady(hd: Handler, hd': Handler) {
    && hd'.sid == hd.sid && (Enrolled(hd) ==> Enrolled(hd'))
    && Registered(hd') == Registered(hd) && (Registered(hd) ==> NodeOf(hd') == NodeOf(hd))
  }

  /** Steps that leave registry and sessions alone keep the correspondence, as do
      new threads that are not registered yet. */
  lemma NodesSteady(s: Server, s': Server)
    requires Nodes(s) && s'.registry == s.registry && s'.sessions == s.sessions
    requires |s.handlers| <= |s'.handlers|
    requires forall g :: 0 <= g < |s.handlers| ==> Steady(s.handlers[g], s'.handlers[g])
    requires forall g :: |s.handlers| <= g < |s'.handlers| ==> !Registered(s'.handlers[g])
    ensures Nodes(s')
  {
    hide DistinctNames, Registered, Enrolled;
    forall k | 0 <= k < |s'.sessions| ensures OwnerOf(s', k, s'.sessions[k]) {
      assert OwnerOf(s, k, s.sessions[k]);
    }
    forall e | e in s'.registry ensures Owned(s', e) {
      assert Owned(s, e);
    }
    forall g | 0 <= g < |s'.handlers| && Registered(s'.handlers[g]) ensures Listed(s', g) {
      assert Steady(s.handlers[g], s'.handlers[g]);
      assert Listed(s, g);
    }
  }

  lemma NodesRegister(s: Server, h: nat, hd': Handler, s': Server)
    requires Nodes(s) && h < |s.handlers| && s'.handlers == s.handlers[h := hd']
    requires s'.registry == [NodeOf(hd')] + s.registry && s'.sessions == s.sessions + [h]
    requires hd'.sid == |s.sessions| && !Enrolled(s.handlers[h]) && Registered(hd')
    requires AddResult(s.registry, hd'.name) == Ok
    ensures Nodes(s')
  {
    DistinctWithNew(NodeOf(hd'), s.registry);
    hide DistinctNames, Registered, AddResult;
    forall k | 0 <= k < |s'.sessions| ensures OwnerOf(s', k, s'.sessions[k]) {
      if k < |s.sessions| {
        assert OwnerOf(s, k, s.sessions[k]);
      }
    }
    forall e | e in s'.registry ensures Owned(s', e) {
      if e in s.registry {
        assert Owned(s, e);
      }
    }
    forall g | 0 <= g < |s'.handlers| && Registered(s'.handlers[g]) ensures Listed(s', g) {
      if g != h {
        assert Listed(s, g);
      } else {
        assert s'.registry[0] == NodeOf(hd');
      }
    }
  }

  lemma WithoutOne(es: seq<Entry>, i: nat)
    requires i < |es| && forall j, k :: 0 <= j < k < |es| ==> es[j].sid != es[k].sid
    ensures forall e :: e in es[..i] + es[i + 1..] <==> e in es && e.sid != es[i].sid
  {
    var r := es[..i] + es[i + 1..];
    forall e | e in es && e.sid != es[i].sid ensures e in r {
      var j :| 0 <= j < |es| && es[j] == e;
      assert r[if j < i then j else j - 1] == e;
    }
  }

  /** Unregistering removes the thread's own node and nothing else. */
  lemma OwnRemoval(s: Server, h: nat)
    requires Nodes(s) && Fds(s) && h < |s.handlers| && Registered(s.handlers[h])
    ensures var r := Removed(s.registry, s.handlers[h].fd);
            && DistinctNames(r)
            && forall e :: e in r <==> e in s.registry && e.sid != s.handlers[h].sid
  {
    OwnNode(s, h);
    var i := PosOfFd(s.registry, s.handlers[h].fd);
    DistinctWithout(s.registry, i);
    hide DistinctNames, Registered, Enrolled, Fds, Nodes;
    forall j, k | 0 <= j < k < |s.registry| ensures s.registry[j].sid != s.registry[k].sid {
      SessionsDiffer(s, j, k);
    }
    WithoutOne(s.registry, i);
  }

  lemma NodesUnregister(s: Server, h: nat, hd': Handler, s': Server)
    requires Nodes(s) && Fds(s) && h < |s.handlers| && s'.handlers == s.handlers[h := hd']
    requires s'.registry == Removed(s.registry, s.handlers[h].fd) && s'.sessions == s.sessions
    requires hd'.sid == s.handlers[h].sid && Registered(s.handlers[h]) && !Registered(hd') && Enrolled(hd')
    ensures Nodes(s')
  {
    OwnRemoval(s, h);
    hide DistinctNames, Registered, Enrolled, Fds, Removed;
    assert Listed(s, h);
    forall k | 0 <= k < |s'.sessions| ensures OwnerOf(s', k, s'.sessions[k]) {
      assert OwnerOf(s, k, s.sessions[k]);
    }
    forall e | e in s'.registry ensures Owned(s', e) {
      assert Owned(s, e);
    }
    forall g | 0 <= g < |s'.handlers| && Registered(s'.handlers[g]) ensures Listed(s', g) {
      assert Listed(s, g);
    }
  }

  lemma NodesRelocate(s: Server, h: nat, hd': Handler, s': Server, room: string)
    requires Nodes(s) && Fds(s) && h < |s.handlers| && s'.handlers == s.handlers[h := hd']
    requires s'.registry == Moved(s.registry, s.handlers[h].fd, room) && s'.sessions == s.sessions
    requires Registered(s.handlers[h]) && Registered(hd') && NodeOf(hd') == NodeOf(s.handlers[h]).(room := room)
    ensures Nodes(s')
  {
    OwnNode(s, h);
    var i := PosOfFd(s.registry, s.handlers[h].fd);
    assert Listed(s, h);
    assert forall j :: 0 <= j < |s.registry| ==> s'.registry[j].username == s.registry[j].username;
    assert DistinctNames(s'.registry);
    hide DistinctNames, Registered, Enrolled, Fds;
    assert Enrolled(hd') by { RegisteredEnrolled(hd'); }
    forall k | 0 <= k < |s'.sessions| ensures OwnerOf(s', k, s'.sessions[k]) {
      assert OwnerOf(s, k, s.sessions[k]);
    }
    forall e | e in s'.registry ensures Owned(s', e) {
      var j :| 0 <= j < |s'.registry| && s'.registry[j] == e;
      assert Owned(s, s.registry[j]);
      if j != i {
        SessionsDiffer(s, i, j);
      }
    }
    forall g | 0 <= g < |s'.handlers| && Registered(s'.handlers[g]) ensures Listed(s', g) {
      assert Listed(s, g);
      var j :| 0 <= j < |s.registry| && s.registry[j] == NodeOf(s.handlers[g]);
      if g == h {
        assert s'.registry[i] == NodeOf(hd');
      } else {
        assert s'.registry[j] == s.registry[j];
      }
    }
  }

  lemma RegisteredEnrolled(hd: Handler)
    requires Registered(hd)
    ensures Enrolled(hd)
  {
  }

  lemma NodesKept(env: Env, s: Server, h: nat, hd': Handler, eff: Effect)
    requires Nodes(s) && Fds(s) && h < |s.handlers| && Legal(env, s, s.handlers[h], hd', eff)
    ensures Nodes(Apply(env, s, h, eff).(handlers := s.handlers[h := hd']))
  {
    hide Nodes, Fds, LocalOk, Registered, Enrolled, PhaseOf, PhaseMove, InFlight, EventOk, KickOk, PeerMove, PeerOf,
         HoldsFd, Removed, Moved, Remembered, Loosened, Bypass, AddResult;
    var s' := Apply(env, s, h, eff).(handlers := s.handlers[h := hd']);
    match eff
    case Register(e) => NodesRegister(s, h, hd', s');
    case Unregister(fd) =>
      RegisteredEnrolled(s.handlers[h]);
      NodesUnregister(s, h, hd', s');
    case Relocate(fd, room) => NodesRelocate(s, h, hd', s', room);
    case _ => NodesSteady(s, s');
  }

  lemma LiveUpdate(hs: seq<Handler>, h: nat, hd': Handler)
    requires h < |hs| && !hs[h].pc.Gone?
    ensures Live(hs[h := hd']) == if hd'.pc.Gone? then Live(hs) - {h} else Live(hs)
    ensures h in Live(hs) && |Live(hs)| >= 1
    ensures hd'.pc.Gone? ==> |Live(hs[h := hd'])| == |Live(hs)| - 1
  {
    assert |Live(hs) - {h}| == |Live(hs)| - 1;
  }

  lemma CountedKept(env: Env, s: Server, h: nat, hd': Handler, eff: Effect)
    requires Counted(s) && h < |s.handlers| && Legal(env, s, s.handlers[h], hd', eff)
    ensures Counted(Apply(env, s, h, eff).(handlers := s.handlers[h := hd']))
  {
    hide LocalOk, EffectOk, Removed, Moved, Remembered, Loosened, Bypass, Live, Enrolled;
    LiveUpdate(s.handlers, h, hd');
  }

  lemma FdsKept(env: Env, s: Server, h: nat, hd': Handler, eff: Effect)
    requires Fds(s) && h < |s.handlers| && Legal(env, s, s.handlers[h], hd', eff)
    ensures Fds(Apply(env, s, h, eff).(handlers := s.handlers[h := hd']))
  {
    hide LocalOk, EffectOk, Removed, Moved, Remembered, Loosened, Bypass, Enrolled;
  }

  lemma LocalsKept(env: Env, s: Server, h: nat, hd': Handler, eff: Effect)
    requires Locals(env, s) && h < |s.handlers| && Legal(env, s, s.handlers[h], hd', eff)
    ensures Locals(env, Apply(env, s, h, eff).(handlers := s.handlers[h := hd']))
  {
    hide LocalOk, EffectOk, Removed, Moved, Remembered, Loosened, Bypass, Enrolled, HoldsFd;
  }

  /** The connection part of the invariant. */
  ghost predicate Connected(env: Env, s: Server) {
    Locals(env, s) && Counted(s) && Fds(s) && Nodes(s)
  }

  lemma ConnectedHandler(env: Env, s: Server, h: nat, hd': Handler, eff: Effect)
    requires Connected(env, s) && h < |s.handlers| && Legal(env, s, s.handlers[h], hd', eff)
    ensures Connected(env, Apply(env, s, h, eff).(handlers := s.handlers[h := hd']))
  {
    hide Locals, Counted, Fds, Nodes, Legal, Apply;
    LocalsKept(env, s, h, hd', eff);
    CountedKept(env, s, h, hd', eff);
    FdsKept(env, s, h, hd', eff);
    NodesKept(env, s, h, hd', eff);
  }

  lemma LiveSpawn(hs: seq<Handler>, hd: Handler)
    requires !hd.pc.Gone?
    ensures |Live(hs + [hd])| == |Live(hs)| + 1
  {
    assert Live(hs + [hd]) == Live(hs) + {|hs|};
  }

  /** A new thread takes over the main thread's descriptor. */
  lemma FdsSpawn(s: Server, s': Server, hd: Handler)
    requires Fds(s) && MainFd(s.main) == Some(hd.fd) && MainFd(s'.main) == None
    requires s'.handlers == s.handlers + [hd]
    ensures Fds(s')
  {
    hide HoldsFd;
  }

  lemma LocalsSpawn(env: Env, s: Server, s': Server, hd: Handler)
    requires Locals(env, s) && LocalOk(env, hd) && s'.handlers == s.handlers + [hd]
    ensures Locals(env, s')
  {
    hide LocalOk;
  }

  lemma ConnectedSpawn(env: Env, s: Server, c: Choice)
    requires Connected(env, s) && s.main.MSpawn? && c.Go?
    ensures Connected(env, MainNext(s, c).value)
  {
    var s' := MainNext(s, c).value;
    var hd := Handler(s.main.fd, Top, false, "", "", "", 0, "", false);
    assert s'.handlers == s.handlers + [hd];
    assert LocalOk(env, hd) && !Registered(hd);
    hide Nodes, Locals, Fds, Live, LocalOk, Registered, Enrolled, FdFree;
    LiveSpawn(s.handlers, hd);
    LocalsSpawn(env, s, s', hd);
    FdsSpawn(s, s', hd);
    NodesSteady(s, s');
  }

  lemma MainFrame(s: Server, c: Choice)
    requires MainNext(s, c).Some? && !(s.main.MSpawn? && c.Go?)
    ensures var s' := MainNext(s, c).value;
            s'.handlers == s.handlers && s'.registry == s.registry && s'.sessions == s.sessions
  {
    hide FdFree;
  }

  lemma CountedMain(s: Server, c: Choice)
    requires Counted(s) && MainNext(s, c).Some? && !(s.main.MSpawn? && c.Go?)
    ensures Counted(MainNext(s, c).value)
  {
    hide Live, FdFree;
  }

  lemma FdsMain(s: Server, c: Choice)
    requires Fds(s) && MainNext(s, c).Some? && !(s.main.MSpawn? && c.Go?)
    ensures Fds(MainNext(s, c).value)
  {
    hide Fds, FdFree;
    var s' := MainNext(s, c).value;
    assert s'.handlers == s.handlers;
    assert MainFd(s'.main) == None || MainFd(s'.main) == MainFd(s.main) || FdFree(s, MainFd(s'.main).value);
    FdsHeld(s, s');
  }

  /** The main thread holds what it held, nothing, or a descriptor nobody has. */
  lemma FdsHeld(s: Server, s': Server)
    requires Fds(s) && s'.handlers == s.handlers
    requires MainFd(s'.main) == None || MainFd(s'.main) == MainFd(s.main) || FdFree(s, MainFd(s'.main).value)
    ensures Fds(s')
  {
    hide HoldsFd, MainFd;
  }

  lemma ConnectedMain(env: Env, s: Server, c: Choice)
    requires Connected(env, s) && MainNext(s, c).Some?
    ensures Connected(env, MainNext(s, c).value)
  {
    if s.main.MSpawn? && c.Go? {
      ConnectedSpawn(env, s, c);
    } else {
      hide MainNext, Nodes, Counted, Fds, LocalOk, Registered, Enrolled;
      MainFrame(s, c);
      CountedMain(s, c);
      FdsMain(s, c);
      NodesSteady(s, MainNext(s, c).value);
    }
  }

  /** The broadcaster and the signal handler leave this part alone. */
  lemma ConnectedOther(env: Env, s: Server, s': Server)
    requires Connected(env, s)
    requires s'.handlers == s.handlers && s'.registry == s.registry && s'.sessions == s.sessions
    requires s'.active == s.active && s'.main == s.main
    ensures Connected(env, s')
  {
    NodesSteady(s, s');
    hide Nodes, Live, LocalOk;
  }

  lemma ConnectedInit(env: Env)
    ensures Connected(env, INIT)
  {
  }

  lemma {:induction false} DistinctSize(xs: seq<nat>, bound: set<nat>)
    requires forall i, j :: 0 <= i < j < |xs| ==> xs[i] != xs[j]
    requires forall x :: x in xs ==> x in bound
    ensures |xs| <= |bound|
  {
    if xs != [] {
      var n := |xs| - 1;
      DistinctSize(xs[..n], bound - {xs[n]});
    }
  }

  /** The registry holds at most one node per counted connection, and one less while
      a counted thread is not registered. */
  lemma RegistryBound(s: Server)
    requires Nodes(s) && Counted(s)
    ensures |s.registry| <= s.active
    ensures forall h :: 0 <= h < |s.handlers| && !Registered(s.handlers[h]) && !s.handlers[h].pc.Gone? ==>
              |s.registry| < s.active
  {
    var owners := seq(|s.registry|, i requires 0 <= i < |s.registry| => Owner(s, s.registry[i]));
    forall i, j | 0 <= i < j < |owners| ensures owners[i] != owners[j] {
      assert Owned(s, s.registry[i]) && Owned(s, s.registry[j]);
    }
    forall x | x in owners ensures x in Live(s.handlers) && Registered(s.handlers[x]) {
      var i :| 0 <= i < |owners| && owners[i] == x;
      assert Owned(s, s.registry[i]);
    }
    hide Nodes;
    DistinctSize(owners, Live(s.handlers));
    forall h | 0 <= h < |s.handlers| && !Registered(s.handlers[h]) && !s.handlers[h].pc.Gone?
      ensures |s.registry| < s.active
    {
      DistinctSize(owners, Live(s.handlers) - {h});
    }
  }

  ghost function Owner(s: Server, e: Entry): nat {
    if e.sid < |s.sessions| then s.sessions[e.sid] else 0
  }

  /** registry_add never finds the registry full. */
  lemma NeverFull(env: Env, s: Server, h: nat)
    requires Connected(env, s) && h < |s.handlers| && s.handlers[h].pc.AAdd?
    ensures |s.registry| < MAX_CLIENTS && AddResult(s.registry, s.handlers[h].pc.who) != ErrFull
  {
    assert LocalOk(env, s.handlers[h]);
    RegistryBound(s);
  }
}
