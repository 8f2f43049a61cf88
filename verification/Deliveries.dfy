/** Who gets the line of an event: whether a traversal misses anybody in the room, and
    to whose connection a line goes when its session may have left meanwhile. */
module Deliveries {
  import opened Common
  import opened Registry
  import opened ServerState
  import opened Handlers
  import opened ServerSteps
  import opened Legality
  import opened Connections
  import opened Chains
  import opened Heap
  import opened Broadcast

  predicate SentAt(sent: seq<Delivery>, i: nat, idx: nat, sid: nat) {
    i < |sent| && sent[i].idx == idx && sent[i].sid == sid
  }

  ghost predicate SentTo(sent: seq<Delivery>, idx: nat, sid: nat) {
    exists i: nat :: SentAt(sent, i, idx, sid)
  }

  /** Of the first n sessions visited, exactly those seen in the room were sent the line. */
  ghost predicate FannedOut(sent: seq<Delivery>, idx: nat, room: string, t: Tour, n: nat) {
    && n <= |t.seen| && n <= |t.rooms|
    && forall i :: 0 <= i < n ==> (SentTo(sent, idx, t.seen[i]) <==> t.rooms[i] == room)
  }

  ghost predicate FanOutOk(s: Server) {
    Touring(s.caster) ==>
      FannedOut(s.sent, s.caster.idx, s.caster.msg.room, s.caster.tour, |Served(s.caster)|)
  }

  lemma SentToMore(sent: seq<Delivery>, d: Delivery, idx: nat, sid: nat)
    ensures SentTo(sent + [d], idx, sid) <==> SentTo(sent, idx, sid) || (d.idx == idx && d.sid == sid)
  {
    var more := sent + [d];
    if SentTo(sent, idx, sid) {
      var i: nat :| SentAt(sent, i, idx, sid);
      assert SentAt(more, i, idx, sid);
    }
    if d.idx == idx && d.sid == sid {
      assert SentAt(more, |sent|, idx, sid);
    }
    if SentTo(more, idx, sid) {
      var i: nat :| SentAt(more, i, idx, sid);
      assert i < |sent| ==> SentAt(sent, i, idx, sid);
    }
  }

  lemma FanOutFrame(s: Server, s': Server)
    requires FanOutOk(s) && s'.sent == s.sent && SameTour(s.caster, s'.caster)
    ensures FanOutOk(s')
  {
    hide SentTo;
  }

  /** The line went out to the session under the cursor. */
  lemma FanOutSent(t: Tour, sent: seq<Delivery>, d: Delivery)
    requires t.seen != [] && |t.rooms| == |t.seen| && Distinct(t.seen)
    requires FannedOut(sent, d.idx, d.room, t, |t.seen| - 1)
    requires d.sid == t.seen[|t.seen| - 1] && d.room == t.rooms[|t.rooms| - 1]
    ensures FannedOut(sent + [d], d.idx, d.room, t, |t.seen|)
  {
    hide SentTo;
    forall i | 0 <= i < |t.seen| ensures SentTo(sent + [d], d.idx, t.seen[i]) <==> t.rooms[i] == d.room {
      SentToMore(sent, d, d.idx, t.seen[i]);
    }
  }

  /** The session under the cursor was elsewhere, and nothing was sent to it before. */
  lemma FanOutPassed(s: Server)
    requires CasterOk(s) && SentOk(s) && FanOutOk(s) && s.caster.CSend? && s.caster.snap.room != s.caster.msg.room
    ensures FannedOut(s.sent, s.caster.idx, s.caster.msg.room, s.caster.tour, |s.caster.tour.seen|)
  {
    hide TourOk, SentOk, Later;
    assert |s.caster.tour.rooms| == |s.caster.tour.seen| > 0 by { TourShape(s, s.caster.tour); }
    if SentTo(s.sent, s.caster.idx, s.caster.snap.sid) {
      var i: nat :| SentAt(s.sent, i, s.caster.idx, s.caster.snap.sid);
      SentElsewhere(s, i);
    }
    hide SentTo;
  }

  lemma TourShape(s: Server, t: Tour)
    requires TourOk(s, t)
    ensures t.seen != [] && |t.rooms| == |t.seen| && Distinct(t.seen)
  {
    TourDistinct(s, t);
  }

  lemma FanOutSend(env: Env, s: Server, c: Choice)
    requires CasterOk(s) && SentOk(s) && FanOutOk(s) && s.caster.CSend? && CasterNext(env, s, c).Some?
    ensures FanOutOk(CasterNext(env, s, c).value)
  {
    SendStep(env, s, c);
    TourShape(s, s.caster.tour);
    if s.caster.snap.room != s.caster.msg.room {
      FanOutPassed(s);
      hide CasterNext, SentOk, TourOk, SentTo, Distinct;
    } else if c.Go? {
      hide CasterNext, SentOk, TourOk, SentTo, Distinct;
      FanOutSent(s.caster.tour, s.sent, Sending(s));
    } else {
      hide CasterNext;
    }
  }

  lemma FanOutNext(env: Env, s: Server, c: Choice)
    requires CasterOk(s) && FanOutOk(s) && s.caster.CNext? && CasterNext(env, s, c).Some?
    ensures FanOutOk(CasterNext(env, s, c).value)
  {
    TourShape(s, s.caster.tour);
    hide EventLine, NextOf, NodeAt, TourOk, SentTo, Sids;
  }

  lemma FanOutCaster(env: Env, s: Server, c: Choice)
    requires BroadcastOk(s) && FanOutOk(s) && CasterNext(env, s, c).Some?
    ensures FanOutOk(CasterNext(env, s, c).value)
  {
    hide CasterOk, SentOk, QueueOk;
    if s.caster.CSend? {
      hide CasterNext, FanOutOk;
      FanOutSend(env, s, c);
    } else if s.caster.CNext? {
      hide CasterNext, FanOutOk;
      FanOutNext(env, s, c);
    } else {
      hide EventLine, NextOf, NodeAt, SentTo, HolderOf, Cursor, Sids;
    }
  }

  /** The descriptor is, or was, that of the session's thread. */
  ghost predicate Meant(s: Server, sid: nat, fd: int) {
    sid < |s.sessions| && s.sessions[sid] < |s.handlers| && s.handlers[s.sessions[sid]].fd == fd
  }

  /** If the session's thread still has its connection open, the line went there. */
  ghost predicate WentToOwner(s: Server, d: Delivery) {
    && d.sid < |s.sessions| && s.sessions[d.sid] < |s.handlers|
    && (HoldsFd(s.handlers[s.sessions[d.sid]]) ==> d.to == Some(s.sessions[d.sid]))
  }

  ghost predicate OwnersOk(s: Server) {
    && (s.caster.CSend? ==> Meant(s, s.caster.snap.sid, s.caster.snap.fd))
    && forall i :: 0 <= i < |s.sent| ==> WentToOwner(s, s.sent[i])
  }

  /** A closed connection stays closed and a session keeps its thread. */
  ghost predicate Aged(s: Server, s': Server) {
    && s.sessions <= s'.sessions && |s.handlers| <= |s'.handlers|
    && forall g :: 0 <= g < |s.handlers| ==>
         s'.handlers[g].fd == s.handlers[g].fd && (HoldsFd(s'.handlers[g]) ==> HoldsFd(s.handlers[g]))
  }

  lemma OwnersFrame(s: Server, s': Server)
    requires OwnersOk(s) && Aged(s, s') && s'.sent == s.sent
    requires s'.caster.CSend? ==> s.caster.CSend? && s'.caster.snap == s.caster.snap
    ensures OwnersOk(s')
  {
    hide HoldsFd;
    assert forall k :: 0 <= k < |s.sessions| ==> s'.sessions[k] == s.sessions[k];
    forall i | 0 <= i < |s'.sent| ensures WentToOwner(s', s'.sent[i]) {
      assert WentToOwner(s, s.sent[i]);
    }
  }

  lemma HolderIs(s: Server, h: nat)
    requires Fds(s) && h < |s.handlers| && HoldsFd(s.handlers[h])
    ensures HolderOf(s.handlers, s.handlers[h].fd) == Some(h)
  {
    hide HoldsFd;
  }

  lemma OwnersSend(env: Env, s: Server, c: Choice)
    requires CasterOk(s) && Fds(s) && OwnersOk(s) && s.caster.CSend? && CasterNext(env, s, c).Some?
    ensures OwnersOk(CasterNext(env, s, c).value)
  {
    var s' := CasterNext(env, s, c).value;
    SendStep(env, s, c);
    CasterKeeps(env, s, c);
    hide CasterNext, CasterOk, Fds, HoldsFd, HolderOf;
    var h := s.sessions[s.caster.snap.sid];
    if HoldsFd(s.handlers[h]) {
      HolderIs(s, h);
    }
    forall i | 0 <= i < |s'.sent| ensures WentToOwner(s', s'.sent[i]) {
      assert i < |s.sent| ==> WentToOwner(s, s.sent[i]);
    }
  }

  lemma CasterKeepsThreads(env: Env, s: Server, c: Choice)
    requires CasterNext(env, s, c).Some?
    ensures var s' := CasterNext(env, s, c).value;
            s'.handlers == s.handlers && s'.sessions == s.sessions
  {
    hide EventLine, Sids, Cursor, HolderOf, NextOf, NodeAt, Visit;
  }

  lemma CasterKeepsNodes(env: Env, s: Server, c: Choice)
    requires CasterNext(env, s, c).Some?
    ensures var s' := CasterNext(env, s, c).value;
            s'.registry == s.registry && s'.unlinked == s.unlinked && s'.freed == s.freed
  {
    hide EventLine, Sids, Cursor, HolderOf, NextOf, NodeAt, Visit;
  }

  lemma CasterKeeps(env: Env, s: Server, c: Choice)
    requires CasterNext(env, s, c).Some?
    ensures var s' := CasterNext(env, s, c).value;
            && s'.handlers == s.handlers && s'.sessions == s.sessions && s'.registry == s.registry
            && s'.unlinked == s.unlinked && s'.freed == s.freed
  {
    hide CasterNext;
    CasterKeepsThreads(env, s, c);
    CasterKeepsNodes(env, s, c);
  }

  lemma SendsOnly(env: Env, s: Server, c: Choice)
    requires CasterNext(env, s, c).Some? && !s.caster.CSend?
    ensures CasterNext(env, s, c).value.sent == s.sent
  {
    hide EventLine, Sids, Cursor, HolderOf, NextOf, NodeAt, Visit;
  }

  /** Every snapshot is the content of a node that has not been freed. */
  lemma TakesNode(env: Env, s: Server, c: Choice)
    requires HeapOk(s) && Nodes(s) && CasterNext(env, s, c).Some?
    requires !s.caster.CSend? && CasterNext(env, s, c).value.caster.CSend?
    ensures var snap := CasterNext(env, s, c).value.caster.snap;
            NodeAt(s, snap.sid) == Some(snap) && snap.sid !in s.freed
    ensures s.caster.CNext? ==> NextOf(s, Cursor(s.caster.tour)) == Some(CasterNext(env, s, c).value.caster.snap.sid)
  {
    hide EventLine, Sids, Cursor, HolderOf, NextOf, Linked, RecordsOk, FreeingOk, Nodes;
    if s.caster.CFirst? {
      ListedUnfreed(s, 0);
    } else {
      hide NodeAt;
      ArrivesAt(s, NextOf(s, Cursor(s.caster.tour)).value);
    }
  }

  lemma ListedUnfreed(s: Server, i: nat)
    requires RecordsOk(s) && Nodes(s) && i < |s.registry|
    ensures s.registry[i].sid !in s.freed && Meant(s, s.registry[i].sid, s.registry[i].fd)
  {
    var e := s.registry[i];
    assert Owned(s, e) && Kept(s, e.sid);
  }

  lemma EntryMeant(s: Server, e: Entry)
    requires Nodes(s) && e in s.registry
    ensures Meant(s, e.sid, e.fd)
  {
    assert Owned(s, e);
  }

  /** The descriptor in a node is, or was, that of its session's thread. */
  lemma NodeMeant(s: Server, k: nat)
    requires RecordsOk(s) && Nodes(s) && NodeAt(s, k).Some?
    ensures Meant(s, k, NodeAt(s, k).value.fd)
  {
    if BySid(s.registry, k).Some? {
      ListedUnfreed(s, PosOfSid(s.registry, k));
    } else {
      assert Kept(s, k);
    }
  }

  lemma OwnersCaster(env: Env, s: Server, c: Choice)
    requires BroadcastOk(s) && Fds(s) && Nodes(s) && HeapOk(s) && OwnersOk(s) && CasterNext(env, s, c).Some?
    ensures OwnersOk(CasterNext(env, s, c).value)
  {
    hide CasterNext, CasterOk, QueueOk, SentOk, Fds, Linked, RecordsOk, FreeingOk, Nodes;
    if s.caster.CSend? {
      hide OwnersOk;
      OwnersSend(env, s, c);
    } else {
      var s' := CasterNext(env, s, c).value;
      CasterKeeps(env, s, c);
      SendsOnly(env, s, c);
      if s'.caster.CSend? {
        TakesNode(env, s, c);
        NodeMeant(s, s'.caster.snap.sid);
      }
      hide NodeAt, NextOf;
      forall i | 0 <= i < |s'.sent| ensures WentToOwner(s', s'.sent[i]) {
        assert WentToOwner(s, s.sent[i]);
      }
    }
  }

  lemma MeantAged(s: Server, s': Server, sid: nat, fd: int)
    requires Meant(s, sid, fd) && Aged(s, s')
    ensures Meant(s', sid, fd)
  {
    assert s'.sessions[sid] == s.sessions[sid];
    hide HoldsFd;
  }

  lemma HandlerAges(env: Env, s: Server, h: nat, hd': Handler, eff: Effect)
    requires h < |s.handlers| && Legal(env, s, s.handlers[h], hd', eff)
    ensures Aged(s, Apply(env, s, h, eff).(handlers := s.handlers[h := hd']))
  {
    hide EffectOk, LocalOk, Enrolled, PeerMove, PeerOf, Removed, Moved, Remembered, Loosened, Bypass, NextOf;
  }

  ghost predicate DeliveriesOk(s: Server) {
    FanOutOk(s) && OwnersOk(s)
  }

  lemma DeliveriesHandler(env: Env, s: Server, h: nat, hd': Handler, eff: Effect)
    requires DeliveriesOk(s) && h < |s.handlers| && Legal(env, s, s.handlers[h], hd', eff)
    ensures DeliveriesOk(Apply(env, s, h, eff).(handlers := s.handlers[h := hd']))
  {
    var s' := Apply(env, s, h, eff).(handlers := s.handlers[h := hd']);
    HandlerAges(env, s, h, hd', eff);
    TourCarried(env, s, h, eff);
    hide Legal, Apply, FanOutOk, OwnersOk, Aged;
    FanOutFrame(s, s');
    OwnersFrame(s, s');
  }

  lemma DeliveriesCaster(env: Env, s: Server, c: Choice)
    requires DeliveriesOk(s) && BroadcastOk(s) && Fds(s) && Nodes(s) && HeapOk(s) && CasterNext(env, s, c).Some?
    ensures DeliveriesOk(CasterNext(env, s, c).value)
  {
    hide CasterNext, BroadcastOk, Fds, Nodes, HeapOk, FanOutOk, OwnersOk;
    FanOutCaster(env, s, c);
    OwnersCaster(env, s, c);
  }

  lemma DeliveriesOther(s: Server, s': Server)
    requires DeliveriesOk(s) && s'.sent == s.sent && s'.caster == s.caster && s'.sessions == s.sessions
    requires |s.handlers| <= |s'.handlers| && s'.handlers[..|s.handlers|] == s.handlers
    ensures DeliveriesOk(s')
  {
    assert forall g :: 0 <= g < |s.handlers| ==> s'.handlers[g] == s.handlers[g];
    hide FanOutOk, OwnersOk;
    FanOutFrame(s, s');
    OwnersFrame(s, s');
  }
}
