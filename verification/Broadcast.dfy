/** The queue and the broadcaster over a whole run: which events are sent to whom,
    in which order, while clients come, go and change rooms. */
module Broadcast {
  import opened Common
  import opened Chains
  import opened Registry
  import opened MessageQueue
  import opened ServerState
  import opened Handlers
  import opened ServerSteps
  import opened Legality
  import opened Connections
  import opened Heap

  /** A traversal under way: the sessions visited, followed by those it would meet by
      the links as they are now, are the sessions listed at its start, in that order,
      without those it has been made to skip. */
  ghost predicate TourOk(s: Server, t: Tour) {
    && t.seen != [] && |t.rooms| == |t.seen| && Distinct(t.start)
    && OnRecord(Sids(s.registry), Links(s.unlinked), Cursor(t)) && Cursor(t) < |s.sessions|
    && t.seen + Way(s, Cursor(t)) == Without(t.start, t.skipped)
    && (forall x :: x in t.skipped ==> x !in Sids(s.registry) && x < |s.sessions|)
  }

  /** The sessions a delivery of the current event may already have gone to. */
  function Served(c: Caster): seq<nat> {
    match c
    case CSend(_, _, t, _) => if t.seen == [] then [] else t.seen[..|t.seen| - 1]
    case CNext(_, _, t) => t.seen
    case _ => []
  }

  predicate Busy(c: Caster) {
    c.CBuild? || c.CFirst? || c.CSend? || c.CNext?
  }

  /** The queue is what has been accepted and not yet popped. */
  ghost predicate QueueOk(s: Server) {
    s.popped <= |s.log| && s.queue == s.log[s.popped..]
  }

  ghost predicate CasterOk(s: Server) {
    && (Busy(s.caster) ==> s.caster.idx + 1 == s.popped <= |s.log| && s.caster.msg == s.log[s.caster.idx])
    && (Touring(s.caster) ==> TourOk(s, s.caster.tour))
    && (s.caster.CSend? ==> Pictured(s.caster.tour, s.caster.snap))
  }

  /** The snapshot is of the session under the cursor. */
  predicate Pictured(t: Tour, snap: Entry) {
    snap.sid == Cursor(t) && t.rooms != [] && snap.room == t.rooms[|t.rooms| - 1]
  }

  /** Deliveries follow the order of the log; one event goes to one session at most
      once; a line for a room goes to sessions seen in that room. */
  ghost predicate SentOk(s: Server) {
    && s.popped <= |s.log|
    && (forall i :: 0 <= i < |s.sent| ==> s.sent[i].idx < s.popped && s.sent[i].room == s.log[s.sent[i].idx].room)
    && (forall i, j :: 0 <= i < j < |s.sent| ==> Later(s.sent[i], s.sent[j]))
    && (Busy(s.caster) ==> forall i :: 0 <= i < |s.sent| ==>
          s.sent[i].idx == s.caster.idx ==> s.sent[i].sid in Served(s.caster))
  }

  predicate Later(d: Delivery, e: Delivery) {
    d.idx < e.idx || (d.idx == e.idx && d.sid != e.sid)
  }

  ghost predicate BroadcastOk(s: Server) {
    QueueOk(s) && CasterOk(s) && SentOk(s)
  }

  lemma TourDistinct(s: Server, t: Tour)
    requires TourOk(s, t)
    ensures Distinct(t.seen) && Distinct(t.seen + Way(s, Cursor(t)))
  {
    WithoutMembers(t.start, t.skipped);
    hide Without, Way, Sids, Links, OnRecord;
    var all := Without(t.start, t.skipped);
    assert forall i :: 0 <= i < |t.seen| ==> all[i] == t.seen[i];
  }

  lemma TourRegister(s: Server, e: Entry, s': Server, t: Tour)
    requires Nodes(s) && Linked(s) && RecordsOk(s) && TourOk(s, t) && e.sid == |s.sessions|
    requires s'.registry == [e] + s.registry && s'.unlinked == s.unlinked && |s'.sessions| == |s.sessions| + 1
    ensures TourOk(s', t)
  {
    assert e.sid !in s.unlinked;
    hide Nodes, Without, Distinct, Shape, Kept;
    assert Sids(s'.registry) == [e.sid] + Sids(s.registry);
    ChainAdd(e.sid, Sids(s.registry), Links(s.unlinked), Cursor(t));
  }

  /** Unlinking a node keeps the record of a traversal exact, wherever the node is. */
  lemma TourUnlink(s: Server, h: nat, t: Tour)
    requires Linked(s) && Nodes(s) && Fds(s) && h < |s.handlers| && Registered(s.handlers[h]) && TourOk(s, t)
    ensures var u := Unlink(s, s.handlers[h].fd);
            TourOk(u, Skip(s, u, t, s.handlers[h].sid))
  {
    hide Nodes, Fds, Registered, Shape, Without, Unlink, Unlinking, Chain, Sids, Links, Distinct, OnRecord, NextOf;
    var x, u := s.handlers[h].sid, Unlink(s, s.handlers[h].fd);
    UnlinksOwn(s, h);
    UnlinkQuiet(s, s.handlers[h].fd);
    TourDistinct(s, t);
    ChainUnlink(Sids(s.registry), Links(s.unlinked), x, Cursor(t));
    UnlinkedMembers(s, u, x);
    WayUnlink(t.seen, Way(s, Cursor(t)), Way(u, Cursor(t)), t.start, t.skipped, x);
  }

  lemma UnlinkedMembers(s: Server, u: Server, x: nat)
    requires Sids(u.registry) == Without(Sids(s.registry), {x})
    requires Links(u.unlinked) == Unlinking(Sids(s.registry), Links(s.unlinked), x)
    ensures forall y :: y in Sids(u.registry) <==> y in Sids(s.registry) && y != x
    ensures forall y :: OnRecord(Sids(s.registry), Links(s.unlinked), y) ==>
              OnRecord(Sids(u.registry), Links(u.unlinked), y)
  {
    WithoutMembers(Sids(s.registry), {x});
    hide Without, Sids, Links, Succ;
  }

  /** The record of a traversal when node x has been unlinked. */
  function Skip(s: Server, u: Server, t: Tour, x: nat): Tour {
    if x in Way(s, Cursor(t)) && x !in Way(u, Cursor(t)) then t.(skipped := t.skipped + {x}) else t
  }

  lemma WayUnlink(seen: seq<nat>, was: seq<nat>, now: seq<nat>, start: seq<nat>, skipped: set<nat>, x: nat)
    requires seen + was == Without(start, skipped) && Distinct(seen + was)
    requires now == was || (now == Without(was, {x}) && x !in now)
    ensures seen + now == Without(start, if x in was && x !in now then skipped + {x} else skipped)
  {
    hide Without, Distinct;
    if now != was {
      if x in was {
        SkipAhead(seen, was, start, skipped, x);
      } else {
        WithoutAbsent(was, {x});
      }
    }
  }

  lemma CasterUnregister(s: Server, h: nat, s': Server)
    requires Nodes(s) && Fds(s) && Linked(s) && h < |s.handlers| && Registered(s.handlers[h])
    requires QueueOk(s) && CasterOk(s) && SentOk(s)
    requires s' == Unlink(s, s.handlers[h].fd).(handlers := s'.handlers)
    ensures BroadcastOk(s')
  {
    UnlinkQuiet(s, s.handlers[h].fd);
    CasterBypass(s, h, s');
    hide Nodes, Fds, Registered, SentOk, CasterOk, Linked, Unlink;
    SentFrame(s, s');
  }

  lemma UnlinkQuiet(s: Server, fd: int)
    ensures var u := Unlink(s, fd);
            && u.log == s.log && u.popped == s.popped && u.sent == s.sent && u.queue == s.queue
            && u.sessions == s.sessions && u.freed == s.freed && u.handlers == s.handlers
  {
    hide Bypass, Loosened, Removed;
  }

  lemma CasterBypass(s: Server, h: nat, s': Server)
    requires Nodes(s) && Fds(s) && Linked(s) && h < |s.handlers| && Registered(s.handlers[h])
    requires CasterOk(s) && s' == Unlink(s, s.handlers[h].fd).(handlers := s'.handlers)
    ensures CasterOk(s')
    ensures Busy(s'.caster) ==>
              Busy(s.caster) && s'.caster.idx == s.caster.idx && Served(s'.caster) == Served(s.caster)
  {
    hide TourOk, Way, Nodes, Fds, Linked, Registered, Unlink, Unlinking, Without, Sids, Links, NextOf, Chain;
    UnlinksOwn(s, h);
    UnlinkQuiet(s, s.handlers[h].fd);
    if Touring(s.caster) {
      TourUnlink(s, h, s.caster.tour);
      var u := Unlink(s, s.handlers[h].fd);
      assert s'.caster == WithTour(s.caster, Skip(s, u, s.caster.tour, s.handlers[h].sid));
      TourFrame(u, s', s'.caster.tour);
    }
  }

  /** Deliveries stay as they were; the broadcaster goes on with the same event or
      takes up a later one. */
  lemma SentFrame(s: Server, s': Server)
    requires SentOk(s) && s'.sent == s.sent && s'.log == s.log && s.popped <= s'.popped <= |s.log|
    requires Busy(s'.caster) ==>
               s.popped <= s'.caster.idx
               || (Busy(s.caster) && s'.caster.idx == s.caster.idx && Served(s'.caster) == Served(s.caster))
    ensures SentOk(s')
  {
    hide Later, Served;
  }

  lemma BroadcastSteady(s: Server, s': Server)
    requires BroadcastOk(s) && Sids(s'.registry) == Sids(s.registry) && s'.unlinked == s.unlinked
    requires s'.caster == s.caster
    requires |s.sessions| <= |s'.sessions|
    requires s'.log == s.log && s'.popped == s.popped && s'.sent == s.sent && s'.queue == s.queue
    ensures BroadcastOk(s')
  {
    hide Without, Distinct, Chain;
  }

  lemma BroadcastPush(s: Server, e: Event, s': Server)
    requires BroadcastOk(s) && s'.registry == s.registry && s'.unlinked == s.unlinked && s'.caster == s.caster
    requires s'.sessions == s.sessions
    requires s'.log == s.log + [e] && s'.popped == s.popped && s'.sent == s.sent && s'.queue == s.queue + [e]
    ensures BroadcastOk(s')
  {
    hide Without, Distinct, TourOk;
    assert s'.log[s.popped..] == s.log[s.popped..] + [e];
    assert Touring(s.caster) ==> TourOk(s', s.caster.tour) by {
      if Touring(s.caster) {
        TourFrame(s, s', s.caster.tour);
      }
    }
  }

  lemma TourFrame(s: Server, s': Server, t: Tour)
    requires TourOk(s, t) && s'.registry == s.registry && s'.unlinked == s.unlinked && s'.sessions == s.sessions
    ensures TourOk(s', t)
  {
  }

  lemma BroadcastRegister(s: Server, e: Entry, s': Server)
    requires Nodes(s) && Linked(s) && RecordsOk(s) && BroadcastOk(s) && e.sid == |s.sessions| && s'.caster == s.caster
    requires s'.registry == [e] + s.registry && s'.unlinked == s.unlinked && |s'.sessions| == |s.sessions| + 1
    requires s'.log == s.log && s'.popped == s.popped && s'.sent == s.sent && s'.queue == s.queue
    ensures BroadcastOk(s')
  {
    hide TourOk, Nodes, Linked, RecordsOk;
    if Touring(s.caster) {
      TourRegister(s, e, s', s.caster.tour);
    }
  }

  lemma BroadcastHandler(env: Env, s: Server, h: nat, hd': Handler, eff: Effect)
    requires BroadcastOk(s) && Nodes(s) && Fds(s) && HeapOk(s) && h < |s.handlers|
    requires Legal(env, s, s.handlers[h], hd', eff)
    ensures BroadcastOk(Apply(env, s, h, eff).(handlers := s.handlers[h := hd']))
  {
    var s' := Apply(env, s, h, eff).(handlers := s.handlers[h := hd']);
    hide Nodes, Fds, LocalOk, Registered, Enrolled, PhaseOf, PhaseMove, InFlight, EventOk, KickOk, Same, PeerMove,
         PeerOf, HoldsFd, Removed, Moved, Remembered, Unlink, AddResult, BroadcastOk, Linked, RecordsOk, FreeingOk;
    match eff
    case Register(e) => BroadcastRegister(s, e, s');
    case Unregister(fd) => SplitOk(s); CasterUnregister(s, h, s');
    case Relocate(fd, room) => MovedSids(s.registry, fd, room); BroadcastSteady(s, s');
    case Enqueue(e) => if s.shutdown { BroadcastSteady(s, s'); } else { BroadcastPush(s, e, s'); }
    case _ => BroadcastSteady(s, s');
  }

  lemma TourCarried(env: Env, s: Server, h: nat, eff: Effect)
    ensures SameTour(s.caster, Apply(env, s, h, eff).caster) && Apply(env, s, h, eff).sent == s.sent
  {
    hide Removed, Moved, Remembered, Loosened, Way;
  }

  lemma SplitOk(s: Server)
    requires BroadcastOk(s)
    ensures QueueOk(s) && CasterOk(s) && SentOk(s)
  {
  }

  lemma CasterQueueKept(env: Env, s: Server, c: Choice)
    requires !s.caster.CPop? && CasterNext(env, s, c).Some?
    ensures var s' := CasterNext(env, s, c).value;
            s'.queue == s.queue && s'.popped == s.popped && s'.log == s.log
  {
    hide EventLine, NextOf, NodeAt, Sids, Cursor, HolderOf;
  }

  lemma CasterQueueOk(env: Env, s: Server, c: Choice)
    requires QueueOk(s) && CasterNext(env, s, c).Some?
    ensures QueueOk(CasterNext(env, s, c).value)
  {
    if !s.caster.CPop? {
      CasterQueueKept(env, s, c);
      hide CasterNext;
    }
  }

  lemma TourStarts(s: Server)
    requires Nodes(s) && Linked(s) && s.registry != []
    ensures TourOk(s, Tour(Sids(s.registry), [s.registry[0].sid], [s.registry[0].room], {}))
  {
    RegistrySids(s);
    var xs := Sids(s.registry);
    WithoutAbsent(xs, {});
    ChainListed(xs, Links(s.unlinked), xs[0]);
    hide Nodes, Without, Chain;
    assert xs[0] in xs && xs == [xs[0]] + xs[1..];
  }

  lemma TourAdvances(s: Server, t: Tour, e: Entry)
    requires Linked(s) && TourOk(s, t) && NextOf(s, Cursor(t)) == Some(e.sid)
    ensures TourOk(s, Visit(t, e))
  {
    var c, way := Cursor(t), Way(s, Cursor(t));
    SuccOlder(Sids(s.registry), Links(s.unlinked), c);
    assert way == [e.sid] + Way(s, e.sid);
    hide Chain, Shape, Without, Distinct, Succ;
    assert t.seen + way == (t.seen + [e.sid]) + Way(s, e.sid);
  }

  /** Outside the traversal. */
  lemma CasterCalmOk(env: Env, s: Server, c: Choice)
    requires QueueOk(s) && CasterOk(s) && CasterNext(env, s, c).Some?
    requires !s.caster.CFirst? && !Touring(s.caster)
    ensures CasterOk(CasterNext(env, s, c).value)
  {
    hide EventLine, TourOk, NextOf, NodeAt, Sids, Cursor, HolderOf, Pictured;
  }

  lemma CasterFirstOk(env: Env, s: Server, c: Choice)
    requires CasterOk(s) && Nodes(s) && Linked(s) && s.caster.CFirst? && CasterNext(env, s, c).Some?
    ensures CasterOk(CasterNext(env, s, c).value)
  {
    hide EventLine, Nodes, Linked, TourOk, NextOf, NodeAt, HolderOf;
    if s.registry != [] {
      var e := s.registry[0];
      var t := Tour(Sids(s.registry), [e.sid], [e.room], {});
      TourStarts(s);
      TourFrame(s, CasterNext(env, s, c).value, t);
    }
  }

  lemma CasterSendOk(env: Env, s: Server, c: Choice)
    requires CasterOk(s) && s.caster.CSend? && CasterNext(env, s, c).Some?
    ensures CasterOk(CasterNext(env, s, c).value)
  {
    hide EventLine, TourOk, NextOf, NodeAt, HolderOf, Pictured;
    TourFrame(s, CasterNext(env, s, c).value, s.caster.tour);
  }

  /** The node at which the traversal arrives carries its session's number. */
  lemma ArrivesAt(s: Server, k: nat)
    requires RecordsOk(s) && NodeAt(s, k).Some?
    ensures NodeAt(s, k).value.sid == k
    ensures NodeAt(s, k).value in s.registry
            || (k in s.unlinked && NodeAt(s, k).value == s.unlinked[k].entry && Kept(s, k))
  {
    hide Kept;
    assert k in s.unlinked ==> Kept(s, k);
    KeptEntry(s, k);
  }

  lemma KeptEntry(s: Server, k: nat)
    ensures k in s.unlinked && Kept(s, k) ==> s.unlinked[k].entry.sid == k
  {
  }

  lemma CasterNextOk(env: Env, s: Server, c: Choice)
    requires CasterOk(s) && HeapOk(s) && s.caster.CNext? && CasterNext(env, s, c).Some?
    ensures CasterOk(CasterNext(env, s, c).value)
  {
    var s', t := CasterNext(env, s, c).value, s.caster.tour;
    hide EventLine, TourOk, NextOf, NodeAt, HolderOf, Linked, RecordsOk, FreeingOk;
    if s'.caster.CSend? {
      var y := NextOf(s, Cursor(t)).value;
      var e := NodeAt(s, y).value;
      ArrivesAt(s, y);
      TourAdvances(s, t, e);
      TourFrame(s, s', Visit(t, e));
    }
  }

  lemma CasterCasterOk(env: Env, s: Server, c: Choice)
    requires BroadcastOk(s) && Nodes(s) && HeapOk(s) && CasterNext(env, s, c).Some?
    ensures CasterOk(CasterNext(env, s, c).value)
  {
    hide Nodes, CasterNext, CasterOk, QueueOk, SentOk, Linked, RecordsOk, FreeingOk;
    if s.caster.CFirst? {
      CasterFirstOk(env, s, c);
    } else if s.caster.CSend? {
      CasterSendOk(env, s, c);
    } else if s.caster.CNext? {
      CasterNextOk(env, s, c);
    } else {
      CasterCalmOk(env, s, c);
    }
  }

  /** Each earlier delivery of the event went elsewhere than to the session under the
      cursor. */
  lemma SentElsewhere(s: Server, i: nat)
    requires CasterOk(s) && SentOk(s) && s.caster.CSend? && i < |s.sent| && s.sent[i].idx == s.caster.idx
    ensures s.sent[i].sid != s.caster.snap.sid
  {
    var t := s.caster.tour;
    TourDistinct(s, t);
    hide TourOk, Distinct, Later;
    NotEarlier(t.seen, Cursor(t));
  }

  /** A delivery that fits behind the earlier ones. */
  lemma DeliveriesGrow(s: Server, d: Delivery, s': Server)
    requires SentOk(s) && d.idx + 1 == s.popped && d.room == s.log[d.idx].room
    requires forall i :: 0 <= i < |s.sent| && s.sent[i].idx == d.idx ==> s.sent[i].sid != d.sid
    requires s'.sent == s.sent + [d] && s'.log == s.log && s'.popped == s.popped
    requires Busy(s'.caster) && Busy(s.caster) && s'.caster.idx == s.caster.idx
    requires Served(s'.caster) == Served(s.caster) + [d.sid]
    ensures SentOk(s')
  {
    hide Served;
    forall i, j | 0 <= i < j < |s'.sent| ensures Later(s'.sent[i], s'.sent[j]) {
      if j < |s.sent| {
        assert Later(s.sent[i], s.sent[j]);
      }
    }
  }

  lemma CasterDelivers(env: Env, s: Server, c: Choice)
    requires BroadcastOk(s) && s.caster.CSend? && CasterNext(env, s, c).Some?
    ensures SentOk(CasterNext(env, s, c).value)
  {
    var s', snap := CasterNext(env, s, c).value, s.caster.snap;
    SendStep(env, s, c);
    if snap.room == s.caster.msg.room && c.Go? {
      assert CasterOk(s) && s.caster.idx + 1 == s.popped;
      hide BroadcastOk, CasterNext, SentOk, CasterOk, Served;
      forall i | 0 <= i < |s.sent| && s.sent[i].idx == s.caster.idx ensures s.sent[i].sid != snap.sid {
        SentElsewhere(s, i);
      }
      DeliveriesGrow(s, Sending(s), s');
    } else {
      hide CasterNext, SentOk;
      SentServedMore(s, s');
    }
  }

  /** The line under way, as it will be recorded. */
  function Sending(s: Server): Delivery
    requires s.caster.CSend?
  {
    var snap := s.caster.snap;
    Delivery(snap.sid, s.caster.idx, snap.room, HolderOf(s.handlers, snap.fd))
  }

  lemma SendStep(env: Env, s: Server, c: Choice)
    requires CasterOk(s) && s.caster.CSend? && CasterNext(env, s, c).Some?
    ensures var s' := CasterNext(env, s, c).value;
            && s'.log == s.log && s'.popped == s.popped
            && (if s.caster.snap.room == s.caster.msg.room && !c.Go? then s'.caster.CTop?
                else s'.caster == CNext(s.caster.idx, s.caster.msg, s.caster.tour))
            && s'.sent == s.sent + (if s.caster.snap.room == s.caster.msg.room && c.Go? then [Sending(s)] else [])
            && s.caster.tour.seen == Served(s.caster) + [s.caster.snap.sid]
  {
    hide EventLine, NextOf, NodeAt, Sids, HolderOf;
    var seen := s.caster.tour.seen;
    assert seen == seen[..|seen| - 1] + [seen[|seen| - 1]];
  }

  lemma SentServedMore(s: Server, s': Server)
    requires SentOk(s) && s'.sent == s.sent && s'.log == s.log && s'.popped == s.popped
    requires Busy(s'.caster) ==> Busy(s.caster) && s'.caster.idx == s.caster.idx
                                 && forall x :: x in Served(s.caster) ==> x in Served(s'.caster)
    ensures SentOk(s')
  {
    hide Later, Served;
  }

  lemma CasterNextSent(env: Env, s: Server, c: Choice)
    requires CasterOk(s) && SentOk(s) && s.caster.CNext? && CasterNext(env, s, c).Some?
    ensures SentOk(CasterNext(env, s, c).value)
  {
    hide EventLine, NextOf, NodeAt, TourOk, SentOk, Sids;
    PrefixOfMore(s.caster.tour.seen);
    SentFrame(s, CasterNext(env, s, c).value);
  }

  lemma CasterCalmSent(env: Env, s: Server, c: Choice)
    requires CasterOk(s) && QueueOk(s) && SentOk(s) && !Touring(s.caster) && CasterNext(env, s, c).Some?
    ensures SentOk(CasterNext(env, s, c).value)
  {
    hide EventLine, NextOf, NodeAt, TourOk, SentOk, Sids, HolderOf, Cursor;
    SentFrame(s, CasterNext(env, s, c).value);
  }

  lemma CasterSentOk(env: Env, s: Server, c: Choice)
    requires BroadcastOk(s) && CasterNext(env, s, c).Some?
    ensures SentOk(CasterNext(env, s, c).value)
  {
    hide CasterNext, CasterOk, SentOk, QueueOk;
    if s.caster.CSend? {
      CasterDelivers(env, s, c);
    } else if s.caster.CNext? {
      CasterNextSent(env, s, c);
    } else {
      CasterCalmSent(env, s, c);
    }
  }

  lemma PrefixOfMore(seen: seq<nat>)
    ensures forall x :: (seen + [x])[..|seen|] == seen
  {
  }

  lemma NotEarlier(seen: seq<nat>, x: nat)
    requires Distinct(seen) && (seen != [] ==> x == seen[|seen| - 1])
    ensures seen != [] ==> x !in seen[..|seen| - 1]
  {
  }

  lemma BroadcastCaster(env: Env, s: Server, c: Choice)
    requires BroadcastOk(s) && Nodes(s) && HeapOk(s) && CasterNext(env, s, c).Some?
    ensures BroadcastOk(CasterNext(env, s, c).value)
  {
    hide CasterNext, Nodes, HeapOk, CasterOk, SentOk, QueueOk;
    CasterQueueOk(env, s, c);
    CasterCasterOk(env, s, c);
    CasterSentOk(env, s, c);
  }
}
