/** PM and KICK act on a descriptor that was looked up earlier: whom it belongs to. */
module Peers {
  import opened Registry
  import opened ServerState
  import opened Handlers
  import opened ServerSteps
  import opened Legality
  import opened Connections
  import opened Deliveries

  /** As long as the looked-up session is registered, the descriptor is its own. */
  predicate PeerFits(es: seq<Entry>, p: Peer) {
    forall e :: e in es && e.sid == p.sid ==> e.fd == p.fd && e.username == p.target
  }

  ghost predicate PeersOk(s: Server) {
    forall h :: 0 <= h < |s.handlers| && PeerOf(s.handlers[h].pc).Some? ==>
      PeerOk(s, PeerOf(s.handlers[h].pc).value)
  }

  ghost predicate PeerOk(s: Server, p: Peer) {
    PeerFits(s.registry, p) && Meant(s, p.sid, p.fd)
  }

  /** A name just found in the registry is the name of that session. */
  lemma PeerFound(s: Server, name: string)
    requires Nodes(s) && ByName(s.registry, name).Some?
    ensures var n := ByName(s.registry, name).value;
            PeerOk(s, Peer(name, n.fd, n.sid))
  {
    var i := PosOfName(s.registry, name);
    EntryMeant(s, s.registry[i]);
    forall e | e in s.registry && e.sid == s.registry[i].sid ensures e == s.registry[i] {
      var j :| 0 <= j < |s.registry| && s.registry[j] == e;
      SessionsApart(s, i, j);
    }
  }

  /** What a legal step may do to registry and sessions: entries keep descriptor and
      name, and a new one has a new session. */
  lemma EntriesCarried(env: Env, s: Server, h: nat, hd': Handler, eff: Effect)
    requires Nodes(s) && Fds(s) && h < |s.handlers| && Legal(env, s, s.handlers[h], hd', eff)
    ensures var s' := Apply(env, s, h, eff);
            |s.sessions| <= |s'.sessions|
            && forall e :: e in s'.registry ==> e.sid == |s.sessions| || SameFields(s.registry, e)
  {
    hide Nodes, Fds, LocalOk, Registered, Enrolled, PhaseOf, PhaseMove, InFlight, EventOk, KickOk, Same, NodeOf,
         Removed, Moved, Remembered, Loosened, Bypass, AddResult, PeerOf, PeerMove, HoldsFd, SameFields;
    var es, fd := s.registry, s.handlers[h].fd;
    SameItself(es);
    if eff.Unregister? {
      OwnRemoval(s, h);
    } else if eff.Relocate? {
      MovedMembers(es, eff.fd, eff.room);
    }
  }

  lemma SameItself(es: seq<Entry>)
    ensures forall e :: e in es ==> SameFields(es, e)
  {
  }

  predicate SameFields(es: seq<Entry>, e: Entry) {
    exists d :: d in es && d.sid == e.sid && d.fd == e.fd && d.username == e.username
  }

  lemma FitsCarried(was: seq<Entry>, now: seq<Entry>, n: nat, p: Peer)
    requires PeerFits(was, p) && p.sid < n && forall e :: e in now ==> e.sid == n || SameFields(was, e)
    ensures PeerFits(now, p)
  {
  }

  lemma PeerCarried(env: Env, s: Server, h: nat, hd': Handler, eff: Effect, p: Peer)
    requires Nodes(s) && Fds(s) && h < |s.handlers| && Legal(env, s, s.handlers[h], hd', eff) && PeerOk(s, p)
    ensures PeerOk(Apply(env, s, h, eff).(handlers := s.handlers[h := hd']), p)
  {
    hide Nodes, Fds, Legal, Apply, Aged, SameFields, PeerFits;
    var s' := Apply(env, s, h, eff).(handlers := s.handlers[h := hd']);
    EntriesCarried(env, s, h, hd', eff);
    FitsCarried(s.registry, s'.registry, |s.sessions|, p);
    HandlerAges(env, s, h, hd', eff);
    MeantAged(s, s', p.sid, p.fd);
  }

  lemma MovedMembers(es: seq<Entry>, fd: int, room: string)
    ensures forall e :: e in Moved(es, fd, room) ==> SameFields(es, e)
  {
    var ms := Moved(es, fd, room);
    forall e | e in ms ensures SameFields(es, e) {
      var j :| 0 <= j < |ms| && ms[j] == e;
      assert es[j] in es;
    }
  }

  lemma PeersHandler(env: Env, s: Server, h: nat, hd': Handler, eff: Effect)
    requires PeersOk(s) && Nodes(s) && Fds(s) && h < |s.handlers| && Legal(env, s, s.handlers[h], hd', eff)
    ensures PeersOk(Apply(env, s, h, eff).(handlers := s.handlers[h := hd']))
  {
    var s' := Apply(env, s, h, eff).(handlers := s.handlers[h := hd']);
    assert PeerMove(s, s.handlers[h], hd');
    hide Nodes, Fds, Legal, Apply, PeerOk, PeerOf;
    forall g | 0 <= g < |s'.handlers| && PeerOf(s'.handlers[g].pc).Some?
      ensures PeerOk(s', PeerOf(s'.handlers[g].pc).value)
    {
      var p := PeerOf(s'.handlers[g].pc).value;
      if g == h && PeerOf(hd'.pc) != PeerOf(s.handlers[h].pc) {
        PeerFound(s, p.target);
      } else {
        assert PeerOk(s, PeerOf(s.handlers[g].pc).value);
      }
      PeerCarried(env, s, h, hd', eff, p);
    }
  }

  lemma PeersOther(s: Server, s': Server)
    requires PeersOk(s) && s'.registry == s.registry && s'.sessions == s.sessions
    requires |s.handlers| <= |s'.handlers| && s'.handlers[..|s.handlers|] == s.handlers
    requires forall g :: |s.handlers| <= g < |s'.handlers| ==> s'.handlers[g].pc.Top?
    ensures PeersOk(s')
  {
    hide PeerFits;
    assert forall g :: 0 <= g < |s.handlers| ==> s'.handlers[g] == s.handlers[g];
  }
}
