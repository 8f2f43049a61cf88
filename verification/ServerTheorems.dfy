/** What holds in every state that the running server can reach, under every
    interleaving of its threads. */
module ServerTheorems {
  import opened Common
  import P = Protocol
  import L = ServerLines
  import opened Auth
  import opened Registry
  import opened MessageQueue
  import RM = RoomManager
  import RH = RoomHistory
  import opened ServerState
  import opened Handlers
  import opened ServerSteps
  import opened Legality
  import opened Chains
  import opened Connections
  import opened Heap
  import opened Sessions
  import opened Broadcast
  import opened HistoryAgreement
  import opened Identity
  import opened Deliveries
  import opened Peers
  import opened ServerInvariant

  /** Registry descriptors and names are pairwise different, although registry_add
      compares names only. */
  lemma UniqueDescriptors(env: Env, s: Server, i: nat, j: nat)
    requires Reachable(env, s) && i < j < |s.registry|
    ensures s.registry[i].fd != s.registry[j].fd && s.registry[i].username != s.registry[j].username
  {
    hide Reachable, HeapOk, Locals, Counted, LocalOk, SessionsOk, BroadcastOk, HistoryOk, IdentityOk, DeliveriesOk,
         StopOk, PeersOk;
    InvReachable(env, s);
    assert Owned(s, s.registry[i]) && Owned(s, s.registry[j]);
    SessionsDiffer(s, i, j);
  }

  /** A thread between login and disconnect finds its own node under its descriptor,
      with the name it logged in with; removal by that descriptor removes this node
      and no other. */
  lemma OwnLookup(env: Env, s: Server, h: nat)
    requires Reachable(env, s) && h < |s.handlers| && s.handlers[h].auth && !EndPc(s.handlers[h].pc)
    ensures var hd := s.handlers[h];
            && ByFd(s.registry, hd.fd) == Some(NodeOf(hd)) && hd.name == hd.user
            && forall e :: e in Removed(s.registry, hd.fd) <==> e in s.registry && e != NodeOf(hd)
  {
    hide Reachable, HeapOk, Locals, Counted, SessionsOk, BroadcastOk, HistoryOk, IdentityOk, DeliveriesOk, StopOk,
         PeersOk, Removed;
    InvReachable(env, s);
    LocalOf(env, s, h);
    OwnNode(s, h);
    OwnRemoval(s, h);
    var hd := s.handlers[h];
    forall e | e in s.registry ensures e.sid == hd.sid <==> e == NodeOf(hd) {
      OnlyNode(s, h, e);
    }
  }

  lemma OnlyNode(s: Server, h: nat, e: Entry)
    requires Nodes(s) && h < |s.handlers| && Registered(s.handlers[h]) && e in s.registry
    ensures e.sid == s.handlers[h].sid ==> e == NodeOf(s.handlers[h])
  {
    hide Registered, Enrolled;
    assert Owned(s, e) && Listed(s, h);
  }

  /** The "authenticate first" replies, the failing room lookups and the replies to
      empty arguments are never taken in any command handler. */
  lemma NoMissingNode(env: Env, s: Server, h: nat, c: Choice)
    requires Reachable(env, s) && h < |s.handlers| && HandlerAction(env, s, s.handlers[h], c).Some?
    ensures var hd := s.handlers[h];
            var pc' := HandlerAction(env, s, hd, c).value.0.pc;
            match hd.pc
            case JName(room) => pc' == JRoom(room, hd.user)
            case JRoom(room, who) => pc' == Reply || pc' == JLeave(room, hd.user, hd.home)
            case MName(text) => pc' == MRoom(text, hd.user)
            case MRoom(text, who) => pc' == MHistory(text, hd.user, hd.home)
            case PName(target, text) => pc' == if target == hd.user then Reply else PLookup(target, hd.user, text)
            case LName => pc' == LBuild
            case HName => pc' == HRoom
            case HRoom => pc' == HFormat(hd.home)
            case KFlag(target) => pc' == if hd.admin then KName(target) else Reply
            case KName(target) => pc' == if target == hd.user then Reply else KLookup(target)
            case BRoom => pc' == BPush(hd.home)
            case _ => true
  {
    var hd := s.handlers[h];
    if JoinPc(hd.pc) || MsgPc(hd.pc) || QueryPc(hd.pc) || KickPc(hd.pc) || LeavePc(hd.pc) {
      KnownHere(env, s, h);
      hide Reachable, ByFd, ByName, HistoryFits, LocalOk, AuthStep, LoopStep;
    }
  }

  lemma KnownHere(env: Env, s: Server, h: nat)
    requires Reachable(env, s) && h < |s.handlers|
    ensures var hd := s.handlers[h];
            JoinPc(hd.pc) || MsgPc(hd.pc) || QueryPc(hd.pc) || KickPc(hd.pc) || LeavePc(hd.pc) ==>
              && ByFd(s.registry, hd.fd) == Some(NodeOf(hd)) && hd.name == hd.user
              && (hd.pc.JName? ==> hd.pc.room != "") && (hd.pc.MRoom? ==> hd.pc.text != "" && hd.pc.who == hd.user)
              && (hd.pc.JRoom? ==> hd.pc.who == hd.user)
              && (hd.pc.PName? ==> hd.pc.target != "" && hd.pc.text != "")
              && (hd.pc.KFlag? ==> hd.pc.target != "")
  {
    hide Reachable, HeapOk, Locals, Counted, Fds, Nodes, SessionsOk, BroadcastOk, HistoryOk, IdentityOk, DeliveriesOk,
         StopOk, PeersOk, Identified;
    InvReachable(env, s);
    LocalOf(env, s, h);
    OwnNode(s, h);
  }

  /** PM and KICK act on a descriptor that was looked up in an earlier locked section.
      For as long as the session then found stays registered, the descriptor is that
      of the named target and of nobody else, whatever happened in between. */
  lemma RecipientIsTarget(env: Env, s: Server, h: nat)
    requires Reachable(env, s) && h < |s.handlers| && PeerOf(s.handlers[h].pc).Some?
    requires PeerOf(s.handlers[h].pc).value.sid in Sids(s.registry)
    ensures var p := PeerOf(s.handlers[h].pc).value;
            var n := ByName(s.registry, p.target);
            n.Some? && n.value.sid == p.sid && n.value.fd == p.fd && ByFd(s.registry, p.fd) == n
  {
    hide Reachable, HeapOk, Locals, Counted, SessionsOk, BroadcastOk, HistoryOk, IdentityOk, DeliveriesOk, StopOk,
         PeerOf;
    InvReachable(env, s);
    var p := PeerOf(s.handlers[h].pc).value;
    assert PeerOk(s, p);
    var i :| 0 <= i < |s.registry| && Sids(s.registry)[i] == p.sid;
    FoundAt(env, s, i);
  }

  /** In general: the descriptor is that of the session found if and only if its thread
      has not closed its connection since. */
  lemma RecipientExactly(env: Env, s: Server, h: nat)
    requires Reachable(env, s) && h < |s.handlers| && PeerOf(s.handlers[h].pc).Some?
    ensures var p := PeerOf(s.handlers[h].pc).value;
            && p.sid < |s.sessions| && s.sessions[p.sid] < |s.handlers|
            && (HolderOf(s.handlers, p.fd) == Some(s.sessions[p.sid]) <==> HoldsFd(s.handlers[s.sessions[p.sid]]))
  {
    hide Reachable, HeapOk, Locals, Counted, Fds, Nodes, SessionsOk, BroadcastOk, HistoryOk, IdentityOk, DeliveriesOk,
         StopOk, PeerOf, HolderOf, HoldsFd;
    InvReachable(env, s);
    assert PeerOk(s, PeerOf(s.handlers[h].pc).value);
    HolderExactly(s, PeerOf(s.handlers[h].pc).value.sid, PeerOf(s.handlers[h].pc).value.fd);
  }

  lemma HolderExactly(s: Server, sid: nat, fd: int)
    requires Fds(s) && Meant(s, sid, fd)
    ensures HolderOf(s.handlers, fd) == Some(s.sessions[sid]) <==> HoldsFd(s.handlers[s.sessions[sid]])
  {
    hide Fds;
    if HoldsFd(s.handlers[s.sessions[sid]]) {
      HolderIs(s, s.sessions[sid]);
    }
  }

  /** In a reachable registry a node is the one found under its descriptor and under
      its name. */
  lemma FoundAt(env: Env, s: Server, i: nat)
    requires Reachable(env, s) && i < |s.registry|
    ensures ByName(s.registry, s.registry[i].username) == Some(s.registry[i]) == ByFd(s.registry, s.registry[i].fd)
  {
    hide Reachable;
    forall j: nat | j < i
      ensures s.registry[j].fd != s.registry[i].fd && s.registry[j].username != s.registry[i].username
    {
      UniqueDescriptors(env, s, j, i);
    }
    assert PosOfName(s.registry, s.registry[i].username) == i;
    assert PosOfFd(s.registry, s.registry[i].fd) == i;
  }

  /** A private message carries the sender's own login name and a text that its parser
      accepted, and never goes back to the sender; a kick never names the admin. */
  lemma SenderIsOwner(env: Env, s: Server, h: nat)
    requires Reachable(env, s) && h < |s.handlers| && PeerOf(s.handlers[h].pc).Some?
    ensures var hd := s.handlers[h];
            && PeerOf(hd.pc).value.target != hd.user
            && PeerOf(hd.pc).value.fd >= 0
            && (hd.pc.PSend? ==> hd.pc.who == hd.user && FitsField(hd.pc.text, MAX_MSG_LEN))
            && (hd.pc.KSend? || hd.pc.KShut? ==> Admin(env.records, hd.user))
  {
    hide Reachable, HeapOk, Counted, Fds, Nodes, SessionsOk, BroadcastOk, HistoryOk, IdentityOk, DeliveriesOk, StopOk,
         PeersOk, Identified, Admin;
    InvReachable(env, s);
    LocalOf(env, s, h);
  }

  /** The private line about to be sent reads back as sender, time and text at the
      target. */
  lemma PrivateReadsBack(env: Env, s: Server, h: nat, time: int)
    requires Reachable(env, s) && StampsOk(env) && h < |s.handlers| && s.handlers[h].pc.PSend?
    ensures var hd := s.handlers[h];
            var r := L.Private(hd.user, env.stamp(time), hd.pc.text);
            |L.ResponseLine(r)| < MAX_LINE_LEN && L.ParseServer(L.ResponseLine(r)) == Some(r)
  {
    hide Reachable, HeapOk, Counted, Fds, Nodes, SessionsOk, BroadcastOk, HistoryOk, IdentityOk, DeliveriesOk, StopOk,
         PeersOk, Admin, L.ParseServer, L.ResponseLine;
    InvReachable(env, s);
    LocalOf(env, s, h);
    assert P.FitsWord(env.stamp(time), MAX_STAMP_LEN);
    L.PrivateFields(s.handlers[h].user, env.stamp(time), s.handlers[h].pc.text);
  }

  /** The connection counter counts exactly the threads that have not yet given their
      connection back and the one being handed over; it is at most MAX_CLIENTS, and the
      registry never holds more nodes than that. */
  lemma ConnectionBound(env: Env, s: Server)
    requires Reachable(env, s)
    ensures |s.registry| <= s.active <= MAX_CLIENTS
    ensures s.active == |Live(s.handlers)| + Pending(s.main)
  {
    hide Reachable, HeapOk, Locals, Fds, Nodes, Live, SessionsOk, BroadcastOk, HistoryOk, IdentityOk, DeliveriesOk,
         StopOk, PeersOk;
    InvReachable(env, s);
    RegistryBound(s);
  }

  /** Wherever the counter is decremented it is positive, so the guard never hides a
      miscount. */
  lemma DecrementGuard(env: Env, s: Server, h: nat)
    requires Reachable(env, s)
    ensures s.main.MUncount? ==> s.active > 0
    ensures h < |s.handlers| && s.handlers[h].pc.Counting? ==> s.active > 0
  {
    hide Reachable, HeapOk, Locals, Fds, Nodes, SessionsOk, BroadcastOk, HistoryOk, IdentityOk, DeliveriesOk, StopOk,
         PeersOk;
    InvReachable(env, s);
    if h < |s.handlers| && s.handlers[h].pc.Counting? {
      LiveUpdate(s.handlers, h, s.handlers[h]);
    }
  }

  /** "server full" is never the answer to a login: the accept loop has already
      turned the connection away. A login is refused at that point only because the
      name came online since it was checked. */
  lemma LoginNeverFull(env: Env, s: Server, h: nat)
    requires Reachable(env, s) && h < |s.handlers| && s.handlers[h].pc.AAdd?
    ensures var who := s.handlers[h].pc.who;
            AddResult(s.registry, who) == if ByName(s.registry, who).Some? then ErrDuplicate else Ok
  {
    hide Reachable, HeapOk, Locals, Counted, Fds, Nodes, LocalOk, ByName, SessionsOk, BroadcastOk, HistoryOk,
         IdentityOk, DeliveriesOk, StopOk, PeersOk;
    InvReachable(env, s);
    NeverFull(env, s, h);
  }

  /** Over every run and across logins that reuse the name, the accepted events of
      each user are a concatenation of sessions: JOIN lobby, CHATs there, then LEAVE,
      JOIN another room, CHATs there, any number of times, and a final LEAVE, which
      only the last session may still lack. */
  lemma EventsAreSessions(env: Env, s: Server, user: string) returns (blocks: seq<seq<Event>>)
    requires Reachable(env, s)
    ensures Blocked(s.log, user, blocks)
  {
    hide Reachable, HeapOk, Connected, BroadcastOk, HistoryOk, IdentityOk, DeliveriesOk, StopOk, PeersOk, LastsOk,
         Blocked, Chained;
    InvReachable(env, s);
    blocks := ChainedIsSessions(s.log, user);
  }

  /** Until shutdown, replaying the events of a user who is between commands gives
      the room that the registry holds. */
  lemma ReplayGivesRoom(env: Env, s: Server, h: nat)
    requires Reachable(env, s) && h < |s.handlers| && s.handlers[h].auth && !s.shutdown
    requires s.handlers[h].pc.Top? || s.handlers[h].pc.Recv? || s.handlers[h].pc.Reply?
    ensures var hd := s.handlers[h];
            var last := LastOf(s.log, hd.user);
            && last.Some? && (last.value.kind == Join || last.value.kind == Chat) && last.value.sid == hd.sid
            && ByFd(s.registry, hd.fd).Some? && ByFd(s.registry, hd.fd).value.room == last.value.room
  {
    hide Reachable, HeapOk, Connected, BroadcastOk, HistoryOk, IdentityOk, DeliveriesOk, StopOk, PeersOk, LogOk,
         LastOf, ByFd, Idle, Removed;
    OwnLookup(env, s, h);
    InvReachable(env, s);
    assert Registered(s.handlers[h]);
  }

  /** Nobody without a registered name has an open session in the log. */
  lemma OfflineIsClosed(env: Env, s: Server, user: string)
    requires Reachable(env, s) && !s.shutdown && user !in Names(s.registry)
    ensures LastOf(s.log, user).Some? ==> LastOf(s.log, user).value.kind == Leave
  {
    InvReachable(env, s);
    hide Reachable, HeapOk, Connected, BroadcastOk, HistoryOk, IdentityOk, DeliveriesOk, StopOk, PeersOk, LogOk,
         LastOf, LastOk;
    assert Idle(LastOf(s.log, user), |s.sessions|);
  }

  /** Accepted events are those already dequeued followed by those still queued. */
  lemma QueueRefinesLog(env: Env, s: Server)
    requires Reachable(env, s)
    ensures s.popped <= |s.log| && s.log == s.log[..s.popped] + s.queue
  {
    hide Reachable, HeapOk, Connected, SessionsOk, CasterOk, SentOk, HistoryOk, IdentityOk, DeliveriesOk, StopOk,
         PeersOk;
    InvReachable(env, s);
  }

  /** The events delivered to one session, as positions in the log. */
  function Received(sent: seq<Delivery>, sid: nat): seq<nat> {
    if sent == [] then []
    else Received(sent[..|sent| - 1], sid) + if sent[|sent| - 1].sid == sid then [sent[|sent| - 1].idx] else []
  }

  lemma {:induction false} ReceivedFrom(sent: seq<Delivery>, sid: nat)
    ensures forall x :: x in Received(sent, sid) ==> exists i: nat :: SentAt(sent, i, x, sid)
  {
    if sent != [] {
      var n := |sent| - 1;
      ReceivedFrom(sent[..n], sid);
      forall x | x in Received(sent, sid) ensures exists i: nat :: SentAt(sent, i, x, sid) {
        if x in Received(sent[..n], sid) {
          var i: nat :| SentAt(sent[..n], i, x, sid);
          assert SentAt(sent, i, x, sid);
        } else {
          assert SentAt(sent, n, x, sid);
        }
      }
    }
  }

  lemma {:induction false} ReceivedIncreases(sent: seq<Delivery>, sid: nat)
    requires forall i, j :: 0 <= i < j < |sent| ==> Later(sent[i], sent[j])
    ensures forall i, j :: 0 <= i < j < |Received(sent, sid)| ==> Received(sent, sid)[i] < Received(sent, sid)[j]
  {
    if sent != [] {
      var n := |sent| - 1;
      var pre := sent[..n];
      assert forall i, j :: 0 <= i < j < |pre| ==> pre[i] == sent[i] && pre[j] == sent[j];
      ReceivedIncreases(pre, sid);
      if sent[n].sid == sid {
        ReceivedFrom(pre, sid);
        var r := Received(pre, sid);
        assert Received(sent, sid) == r + [sent[n].idx];
        forall k | 0 <= k < |r| ensures r[k] < sent[n].idx {
          assert r[k] in r;
          var i: nat :| SentAt(pre, i, r[k], sid);
          assert Later(sent[i], sent[n]);
        }
      }
    }
  }

  /** What the broadcaster delivers to a session is a subsequence of the log of
      accepted events: in order and without repeats. */
  lemma DeliveredInOrder(env: Env, s: Server, sid: nat)
    requires Reachable(env, s)
    ensures var r := Received(s.sent, sid);
            && (forall i, j :: 0 <= i < j < |r| ==> r[i] < r[j])
            && (forall x :: x in r ==> x < s.popped <= |s.log|)
  {
    hide Reachable, HeapOk, Connected, SessionsOk, CasterOk, QueueOk, HistoryOk, IdentityOk, DeliveriesOk, StopOk,
         PeersOk, Later;
    InvReachable(env, s);
    ReceivedIncreases(s.sent, sid);
    ReceivedFrom(s.sent, sid);
    forall x | x in Received(s.sent, sid) ensures x < s.popped {
      var i: nat :| SentAt(s.sent, i, x, sid);
    }
  }

  lemma DeliveriesRise(s: Server, i: nat, j: nat)
    requires SentOk(s) && i < j < |s.sent|
    ensures s.sent[i].idx <= s.sent[j].idx
  {
    assert Later(s.sent[i], s.sent[j]);
  }

  /** No two clients ever see two events in opposite orders. */
  lemma SameOrderForAll(env: Env, s: Server, a1: nat, a2: nat, b1: nat, b2: nat)
    requires Reachable(env, s) && a1 < a2 < |s.sent| && b1 < |s.sent| && b2 < |s.sent|
    requires s.sent[a1].idx != s.sent[a2].idx
    requires s.sent[b1].idx == s.sent[a1].idx && s.sent[b2].idx == s.sent[a2].idx
    ensures b1 < b2
  {
    hide Reachable, HeapOk, Connected, SessionsOk, CasterOk, QueueOk, HistoryOk, IdentityOk, DeliveriesOk, StopOk,
         PeersOk, SentOk;
    InvReachable(env, s);
    DeliveriesRise(s, a1, a2);
    if b2 < b1 {
      DeliveriesRise(s, b2, b1);
    }
  }

  /** A line for a room went only to sessions that were in that room when the
      traversal looked at them. */
  lemma DeliveredToRoom(env: Env, s: Server, i: nat)
    requires Reachable(env, s) && i < |s.sent|
    ensures s.sent[i].idx < |s.log| && s.sent[i].room == s.log[s.sent[i].idx].room
  {
    hide Reachable, HeapOk, Connected, SessionsOk, CasterOk, QueueOk, HistoryOk, IdentityOk, DeliveriesOk, StopOk,
         PeersOk;
    InvReachable(env, s);
  }

  /** Whom the line reaches: a delivery went to the connection of its session's thread
      as long as that is open, in particular while the session is registered. It can
      only have gone astray if the thread closed its connection before the send. */
  lemma LineWentToOwner(env: Env, s: Server, i: nat)
    requires Reachable(env, s) && i < |s.sent|
    ensures var d := s.sent[i];
            && d.sid < |s.sessions| && s.sessions[d.sid] < |s.handlers|
            && (d.sid in Sids(s.registry) ==> HoldsFd(s.handlers[s.sessions[d.sid]]))
            && (HoldsFd(s.handlers[s.sessions[d.sid]]) ==> d.to == Some(s.sessions[d.sid]))
  {
    hide Reachable, HeapOk, Locals, Counted, Fds, SessionsOk, BroadcastOk, HistoryOk, IdentityOk, FanOutOk, StopOk,
         PeersOk;
    InvReachable(env, s);
    assert WentToOwner(s, s.sent[i]);
    ListedIsRegistered(s, s.sent[i].sid);
  }

  /** A session is listed exactly as long as its thread has not removed its node. */
  lemma ListedIsRegistered(s: Server, k: nat)
    requires Nodes(s) && k < |s.sessions|
    ensures s.sessions[k] < |s.handlers|
    ensures k in Sids(s.registry) <==> Registered(s.handlers[s.sessions[k]])
  {
    hide Registered, Enrolled, DistinctNames;
    var h := s.sessions[k];
    assert OwnerOf(s, k, h);
    if k in Sids(s.registry) {
      var i :| 0 <= i < |s.registry| && Sids(s.registry)[i] == k;
      assert Owned(s, s.registry[i]);
    }
    if Registered(s.handlers[h]) {
      assert Listed(s, h);
      var i :| 0 <= i < |s.registry| && s.registry[i] == NodeOf(s.handlers[h]);
      assert Sids(s.registry)[i] == k;
    }
  }

  /** At the send: the line goes to the thread of the snapshot's session if and only if
      that thread has not closed its connection since the snapshot was taken. */
  lemma SendReachesOwner(env: Env, s: Server)
    requires Reachable(env, s) && s.caster.CSend?
    ensures var snap := s.caster.snap;
            && snap.sid < |s.sessions| && s.sessions[snap.sid] < |s.handlers|
            && (HolderOf(s.handlers, snap.fd) == Some(s.sessions[snap.sid])
                <==> HoldsFd(s.handlers[s.sessions[snap.sid]]))
  {
    hide Reachable, HeapOk, Locals, Counted, Fds, Nodes, SessionsOk, BroadcastOk, HistoryOk, IdentityOk, FanOutOk,
         StopOk, PeersOk, HolderOf, HoldsFd;
    InvReachable(env, s);
    HolderExactly(s, s.caster.snap.sid, s.caster.snap.fd);
  }

  /** The snapshot that the traversal takes is the present content of a node that has
      not been freed: a listed one, or an unlinked one to which the link of the node
      under the cursor still leads. */
  lemma SnapshotIsCurrent(env: Env, s: Server, c: Choice)
    requires Reachable(env, s) && CasterNext(env, s, c).Some?
    requires !s.caster.CSend? && CasterNext(env, s, c).value.caster.CSend?
    ensures var snap := CasterNext(env, s, c).value.caster.snap;
            && snap.sid !in s.freed
            && (snap in s.registry || (snap.sid in s.unlinked && snap == s.unlinked[snap.sid].entry))
            && (s.caster.CNext? ==> NextOf(s, Cursor(s.caster.tour)) == Some(snap.sid))
            && (s.caster.CFirst? ==>
                  snap in s.registry && CasterNext(env, s, c).value.caster.tour.start == Sids(s.registry))
  {
    InvReachable(env, s);
    hide Reachable, Locals, Counted, Fds, Nodes, Linked, FreeingOk, SessionsOk, BroadcastOk, HistoryOk, IdentityOk,
         DeliveriesOk, StopOk, PeersOk, CasterNext, NextOf, NodeAt, Kept;
    TakesNode(env, s, c);
    ArrivesAt(s, CasterNext(env, s, c).value.caster.snap.sid);
    if s.caster.CFirst? {
      FirstSnapshot(env, s, c);
    }
  }

  lemma FirstSnapshot(env: Env, s: Server, c: Choice)
    requires s.caster.CFirst? && CasterNext(env, s, c).Some? && CasterNext(env, s, c).value.caster.CSend?
    ensures var caster := CasterNext(env, s, c).value.caster;
            caster.snap in s.registry && caster.tour.start == Sids(s.registry)
  {
    hide Sids;
  }

  /** registry_foreach with the lock released at every callback, in every state of a
      traversal: the sessions visited so far, followed by those it would meet by the links
      as they are now, are the sessions listed at the start, in list order and each once,
      without those it has been made to skip, none of which is still registered. So
      nobody who registered later is ever visited, and when no node is left to meet,
      everybody listed at the start and still registered has been visited. While the
      node under the cursor is listed, the nodes left to meet are those behind it. */
  lemma TraversalExact(env: Env, s: Server)
    requires Reachable(env, s) && Touring(s.caster)
    ensures var t := s.caster.tour;
            && Distinct(t.seen) && |t.rooms| == |t.seen|
            && t.seen + Way(s, Cursor(t)) == Without(t.start, t.skipped)
            && (forall x :: x in t.skipped ==> x !in Sids(s.registry))
            && (Way(s, Cursor(t)) == [] ==> forall x :: x in t.start && x in Sids(s.registry) ==> x in t.seen)
            && (Cursor(t) in Sids(s.registry) ==> Way(s, Cursor(t)) == Behind(Sids(s.registry), Cursor(t)))
  {
    InvReachable(env, s);
    hide Reachable, Connected, RecordsOk, FreeingOk, SessionsOk, SentOk, QueueOk, HistoryOk, IdentityOk, DeliveriesOk,
         StopOk, PeersOk, Without, Behind, Chain, Sids, Links;
    var t := s.caster.tour;
    TourDistinct(s, t);
    WithoutMembers(t.start, t.skipped);
    if Cursor(t) in Sids(s.registry) {
      ChainListed(Sids(s.registry), Links(s.unlinked), Cursor(t));
    }
  }

  /** When registry_remove unlinks a node, a traversal under way either goes on exactly as
      it would have, or skips that node and nothing else; it does skip it if the node under
      the cursor is another one and still listed. */
  lemma UnlinkSkipsAtMost(env: Env, s: Server, h: nat)
    requires Reachable(env, s) && h < |s.handlers| && Registered(s.handlers[h]) && Touring(s.caster)
    ensures var x, c, u := s.handlers[h].sid, Cursor(s.caster.tour), Unlink(s, s.handlers[h].fd);
            && (Way(u, c) == Way(s, c) || Way(u, c) == Without(Way(s, c), {x}))
            && (c in Sids(s.registry) && c != x ==> Way(u, c) == Without(Way(s, c), {x}) && x !in Way(u, c))
            && (c == x ==> Way(u, c) == Way(s, c))
  {
    hide Reachable, Locals, Counted, RecordsOk, FreeingOk, SessionsOk, SentOk, QueueOk, HistoryOk, IdentityOk,
         DeliveriesOk, StopOk, PeersOk, Fds, Nodes, Without, Unlinking, Unlink, Chain, Sids, Links, Registered, Shape,
         Distinct;
    InvReachable(env, s);
    UnlinksOwn(s, h);
    var x, c := s.handlers[h].sid, Cursor(s.caster.tour);
    ChainUnlink(Sids(s.registry), Links(s.unlinked), x, c);
    ChainOlder(Sids(s.registry), Links(s.unlinked), c);
    WithoutMembers(Way(s, c), {x});
    if c == x {
      WithoutAbsent(Way(s, c), {x});
    }
  }

  /** The fan-out is sound and complete: of the sessions visited, exactly those seen in
      the event's room have been sent its line, and nobody else has. So when no node is
      left to meet, everybody listed at the start of the traversal and still registered
      has been sent the line if and only if seen in the room. */
  lemma FanOutExact(env: Env, s: Server)
    requires Reachable(env, s) && s.caster.CNext?
    ensures var t := s.caster.tour;
            && |t.rooms| == |t.seen|
            && (forall i :: 0 <= i < |t.seen| ==>
                  (SentTo(s.sent, s.caster.idx, t.seen[i]) <==> t.rooms[i] == s.caster.msg.room))
            && (forall i :: 0 <= i < |s.sent| && s.sent[i].idx == s.caster.idx ==> s.sent[i].sid in t.seen)
            && (Way(s, Cursor(t)) == [] ==>
                  forall x :: x in t.start && x in Sids(s.registry) ==>
                    exists i :: 0 <= i < |t.seen| && t.seen[i] == x
                                && (SentTo(s.sent, s.caster.idx, x) <==> t.rooms[i] == s.caster.msg.room))
  {
    TraversalExact(env, s);
    InvReachable(env, s);
    hide Reachable, HeapOk, Connected, SessionsOk, QueueOk, CasterOk, HistoryOk, IdentityOk, OwnersOk, StopOk, PeersOk,
         SentTo, Without, Way, Sids, Distinct, Cursor, Behind, Later;
  }

  /** The broadcaster reads a freed node in exactly one case: it goes on after a callback
      that succeeded, the thread of the session under the cursor has unlinked its node, and
      that thread, or the thread of the node to which the kept link leads, is past the free.
      After a callback that failed it goes on unharmed. */
  lemma StrayExactly(env: Env, s: Server, step: Step)
    requires Reachable(env, s) && !s.caster.CStray? && Next(env, s, step).Some?
    ensures Touring(s.caster) ==> Traced(s, Cursor(s.caster.tour))
    ensures Next(env, s, step).value.caster.CStray? <==>
            step.CasterStep? && s.caster.CNext? && Dangles(s, Cursor(s.caster.tour))
  {
    hide Reachable, HandlerNext, MainNext, CasterNext, Cursor, Dangles, Traced, Lost;
    if Touring(s.caster) {
      CursorTraced(env, s);
    }
    match step
    case HandlerStep(h, c) => HandlerTour(env, s, h, c);
    case MainStep(c) => StrayMain(s, c);
    case CasterStep(c) => StrayCaster(env, s, c);
    case Signal =>
  }

  /** The session's node is listed, or unlinked with a link that leads to another such. */
  ghost predicate Traced(s: Server, k: nat) {
    && k < |s.sessions| && s.sessions[k] < |s.handlers|
    && (if Registered(s.handlers[s.sessions[k]]) then k in Sids(s.registry) else k in s.unlinked)
    && var y := NextOf(s, k);
       y.Some? ==> y.value < |s.sessions| && s.sessions[y.value] < |s.handlers|
  }

  /** The thread of the node has unlinked it, and freed it or the node that its link
      leads to is freed. */
  ghost predicate Dangles(s: Server, k: nat)
    requires Traced(s, k)
  {
    && !Registered(s.handlers[s.sessions[k]])
    && (ReleasedPc(s.handlers[s.sessions[k]].pc)
        || (NextOf(s, k).Some? && ReleasedPc(s.handlers[s.sessions[NextOf(s, k).value]].pc)))
  }

  lemma CursorTraced(env: Env, s: Server)
    requires Reachable(env, s) && Touring(s.caster)
    ensures Traced(s, Cursor(s.caster.tour))
    ensures Dangles(s, Cursor(s.caster.tour)) <==> Lost(s, Cursor(s.caster.tour))
  {
    InvReachable(env, s);
    hide Reachable, Locals, Counted, Fds, Nodes, FreeingOk, SessionsOk, SentOk, QueueOk, HistoryOk, IdentityOk,
         DeliveriesOk, StopOk, PeersOk, Registered, Distinct, Without, Chain, NextOf, Kept, OnRecord, Shape, Lost,
         Dangles, Traced;
    LinkTraced(s, Cursor(s.caster.tour));
  }

  lemma RecordMember(s: Server, k: nat)
    requires Nodes(s) && RecordsOk(s) && OnRecord(Sids(s.registry), Links(s.unlinked), k)
    ensures Kept(s, k) && NodeAt(s, k).Some?
    ensures k in Sids(s.registry) <==> k !in s.unlinked
  {
    RegistrySids(s);
    hide Nodes, Kept, Distinct;
    if k in Sids(s.registry) {
      var i :| 0 <= i < |s.registry| && Sids(s.registry)[i] == k;
      assert s.registry[i].sid == k;
    }
    assert Kept(s, k);
    ListedIsRegistered(s, k);
    KeptIs(s, k);
  }

  lemma KeptIs(s: Server, k: nat)
    requires Kept(s, k)
    ensures k in s.unlinked <==> !Registered(s.handlers[s.sessions[k]])
    ensures k in s.freed <==> ReleasedPc(s.handlers[s.sessions[k]].pc)
  {
  }

  lemma LinkTraced(s: Server, k: nat)
    requires Nodes(s) && HeapOk(s) && OnRecord(Sids(s.registry), Links(s.unlinked), k)
    ensures Traced(s, k)
    ensures Dangles(s, k) <==> Lost(s, k)
  {
    RecordMember(s, k);
    KeptIs(s, k);
    SuccOlder(Sids(s.registry), Links(s.unlinked), k);
    var y := NextOf(s, k);
    if y.Some? {
      RecordMember(s, y.value);
      KeptIs(s, y.value);
      if k in Sids(s.registry) {
        NextListed(s, k);
      }
    }
    hide Nodes, HeapOk, Registered, Kept, OnRecord, NodeAt, Sids, Behind;
    assert k in Links(s.unlinked) <==> k in s.unlinked;
  }

  /** A listed node links to a listed one. */
  lemma NextListed(s: Server, k: nat)
    requires Linked(s) && NextOf(s, k).Some? && k in Sids(s.registry)
    ensures NextOf(s, k).value in Sids(s.registry)
  {
    BehindMembers(Sids(s.registry), k);
    var rest := Behind(Sids(s.registry), k);
    assert rest[0] in rest;
  }

  lemma HandlerTour(env: Env, s: Server, h: nat, c: Choice)
    requires HandlerNext(env, s, h, c).Some?
    ensures SameTour(s.caster, HandlerNext(env, s, h, c).value.caster)
  {
    hide HandlerAction, Apply, SameTour;
    TourCarried(env, s, h, HandlerAction(env, s, s.handlers[h], c).value.1);
  }

  lemma StrayMain(s: Server, c: Choice)
    requires MainNext(s, c).Some?
    ensures MainNext(s, c).value.caster == s.caster
  {
    hide FdFree;
  }

  /** The node, or the one its link leads to, is no longer there. */
  predicate Lost(s: Server, k: nat) {
    || k in s.freed
    || (NextOf(s, k).Some? && (NextOf(s, k).value in s.freed || NodeAt(s, NextOf(s, k).value) == None))
  }

  lemma StrayCaster(env: Env, s: Server, c: Choice)
    requires CasterNext(env, s, c).Some?
    ensures CasterNext(env, s, c).value.caster.CStray? <==>
              s.caster.CNext? && Lost(s, Cursor(s.caster.tour))
  {
    hide EventLine, NextOf, NodeAt, HolderOf, Sids, Cursor, Visit;
  }

  /** The times are rendered into the 32-byte stamp array without a space. */
  ghost predicate StampsOk(env: Env) {
    forall t :: P.FitsWord(env.stamp(t), MAX_STAMP_LEN)
  }

  lemma EventLineFits(env: Env, e: Event)
    requires EventOk(e) && StampsOk(env)
    ensures |EventLine(env, e)| < MAX_LINE_LEN
  {
    L.WordOfName(L.WBroadcast);
    L.WordOfName(L.WUserJoin);
    L.WordOfName(L.WUserLeft);
    hide L.WordName;
    assert P.FitsWord(env.stamp(e.time), MAX_STAMP_LEN);
  }

  lemma EventFits(env: Env, s: Server, i: nat)
    requires Reachable(env, s) && i < |s.log|
    ensures EventOk(s.log[i])
  {
    InvReachable(env, s);
    hide Reachable, HeapOk, Connected, Chained, LastsOk, BroadcastOk, HistoryOk, IdentityOk, DeliveriesOk, StopOk,
         PeersOk, EventOk;
    assert s.log[i] in s.log;
  }

  lemma BuildsFromLog(env: Env, s: Server)
    requires Reachable(env, s) && s.caster.CBuild?
    ensures s.caster.idx < |s.log| && s.caster.msg == s.log[s.caster.idx]
  {
    InvReachable(env, s);
    hide Reachable, HeapOk, Connected, SessionsOk, SentOk, QueueOk, HistoryOk, IdentityOk, DeliveriesOk, StopOk,
         PeersOk;
  }

  /** The broadcaster never drops an event for its size. */
  lemma NoEventDropped(env: Env, s: Server, c: Choice)
    requires Reachable(env, s) && StampsOk(env) && s.caster.CBuild?
    ensures CasterNext(env, s, c) == Some(s.(caster := CFirst(s.caster.idx, s.caster.msg)))
  {
    BuildsFromLog(env, s);
    EventFits(env, s, s.caster.idx);
    EventLineFits(env, s.caster.msg);
    hide Reachable, EventLine;
  }

  /** End to end over every run: a client that reads a delivered chat line gets the
      sender, time, room and text of the accepted event, exactly when the room name
      has no space; presence lines read back whatever the room name. */
  lemma DeliveredReadsBack(env: Env, s: Server, i: nat)
    requires Reachable(env, s) && StampsOk(env) && i < |s.sent| && s.sent[i].idx < |s.log|
    ensures var e := s.log[s.sent[i].idx];
            var read := L.ParseServer(EventLine(env, e));
            && (e.kind == Chat ==>
                  (read == Some(L.Broadcast(e.user, env.stamp(e.time), s.sent[i].room, e.text)) <==> ' ' !in e.room))
            && (e.kind == Join ==> read == Some(L.UserJoin(e.user, s.sent[i].room)))
            && (e.kind == Leave ==> read == Some(L.UserLeft(e.user, s.sent[i].room)))
  {
    var e := s.log[s.sent[i].idx];
    EventFits(env, s, s.sent[i].idx);
    DeliveredToRoom(env, s, i);
    hide Reachable, L.ParseServer, L.ResponseLine;
    assert P.FitsWord(env.stamp(e.time), MAX_STAMP_LEN);
    if e.kind == Chat {
      L.BroadcastRelay(e.user, env.stamp(e.time), e.room, e.text);
    } else if e.kind == Join {
      L.PresenceRelay(L.UserJoin(e.user, e.room));
    } else if e.kind == Leave {
      L.PresenceRelay(L.UserLeft(e.user, e.room));
    }
  }

  /** For every session, until shutdown the chat lines that were broadcast are those
      that were remembered, in the same order and with the same room, text and time,
      except at most one that is on its way; after shutdown they are a prefix. */
  lemma HistoryMatchesBroadcast(env: Env, s: Server, k: nat)
    requires Reachable(env, s) && k < |s.sessions|
    ensures s.sessions[k] < |s.handlers|
    ensures ChatsBy(s.log, k) <= AddsBy(s.adds, k)
    ensures !s.shutdown ==> AddsBy(s.adds, k) == ChatsBy(s.log, k) + InFlight(s.handlers[s.sessions[k]])
                            && |InFlight(s.handlers[s.sessions[k]])| <= 1
  {
    InvReachable(env, s);
    hide Reachable, HeapOk, Connected, SessionsOk, BroadcastOk, IdentityOk, DeliveriesOk, StopOk, PeersOk, ChatsBy,
         AddsBy;
    assert Agrees(s, k);
  }

  /** A room shows exactly the last MAX_ROOM_HISTORY chat lines offered to it, by
      whomever, oldest first. */
  lemma RoomShowsRecent(env: Env, s: Server, room: string)
    requires Reachable(env, s)
    ensures var all := RH.Offered(Additions(env, s.adds), room);
            match RM.Find(s.rooms, room)
            case Some(r) => r == RM.Room(room, RM.Recent(all))
            case None => all == [] || |s.rooms| == MAX_ROOMS
    ensures RM.Find(s.rooms, DEFAULT_ROOM).Some? && |s.rooms| <= MAX_ROOMS
  {
    InvReachable(env, s);
    hide Reachable, HeapOk, Connected, SessionsOk, BroadcastOk, IdentityOk, DeliveriesOk, StopOk, PeersOk, Agrees,
         RM.Find, RM.Recent, RH.Table, RH.Offered;
    RH.TableRefines(Additions(env, s.adds), room);
  }

  /** A thread that has not passed the password check. */
  predicate Unproven(hd: Handler) {
    !hd.auth && (hd.pc.Top? || hd.pc.Recv? || hd.pc.Reply? || hd.pc.Refuse? || hd.pc.AVerify? || ReleasedPc(hd.pc))
  }

  lemma UnprovenAction(env: Env, s: Server, hd: Handler, c: Choice)
    requires HandlerAction(env, s, hd, c).Some? && Unproven(hd)
    ensures var (hd', eff) := HandlerAction(env, s, hd, c).value;
            && (eff.Quiet? || eff.Uncount?)
            && (if Unproven(hd') then hd'.name == hd.name
                else hd'.pc.AExists? && hd.pc.AVerify? && Verified(env.records, env.digest, hd.pc.user, hd.pc.password))
  {
    hide ByFd, ByName, HistoryFits, AddResult, Verified, Admin, P.ParseClient;
  }

  /** Such a connection changes neither registry nor queue nor any history. */
  lemma UnprovenIsInert(env: Env, s: Server, h: nat, c: Choice)
    requires HandlerNext(env, s, h, c).Some? && Unproven(s.handlers[h])
    ensures var s' := HandlerNext(env, s, h, c).value;
            && s'.registry == s.registry && s'.queue == s.queue && s'.log == s.log && s'.rooms == s.rooms
            && s'.kicks == s.kicks && s'.caster == s.caster
            && (!Unproven(s'.handlers[h]) ==>
                  s'.handlers[h].pc.AExists? && s.handlers[h].pc.AVerify?
                  && Verified(env.records, env.digest, s.handlers[h].pc.user, s.handlers[h].pc.password))
  {
    UnprovenAction(env, s, s.handlers[h], c);
    hide HandlerAction, Verified, Unproven, Removed, Moved, Remembered, Loosened, Bypass;
  }

  /** The session is that of a thread that verified this name, with the password it
      was given. */
  ghost predicate VerifiedSession(env: Env, s: Server, k: nat, name: string) {
    && k < |s.sessions| && s.sessions[k] < |s.handlers|
    && var hd := s.handlers[s.sessions[k]];
       hd.name == name && Verified(env.records, env.digest, hd.name, hd.pass)
  }

  /** Over every run, whoever is registered, was announced, spoke or is remembered did so
      in a session whose own thread verified that very name; every kick was made by a
      session whose password and admin flag are in the same first record, against a name
      other than its own. */
  lemma Provenance(env: Env, s: Server)
    requires Reachable(env, s)
    ensures forall n :: n in s.registry ==> VerifiedSession(env, s, n.sid, n.username)
    ensures forall e :: e in s.log ==> VerifiedSession(env, s, e.sid, e.user)
    ensures forall c :: c in s.adds ==> VerifiedSession(env, s, c.sid, c.user)
    ensures forall k :: k in s.kicks ==>
              && VerifiedSession(env, s, k.sid, k.admin) && s.handlers[s.sessions[k.sid]].pass == k.pass
              && var m := FirstMatch(env.records, k.admin);
                 m.Some? && m.value.hash == env.digest(k.pass) && m.value.admin && k.target != k.admin
  {
    hide Reachable, HeapOk, Locals, Counted, Fds, SessionsOk, BroadcastOk, HistoryOk, DeliveriesOk, StopOk, PeersOk,
         FirstMatch;
    InvReachable(env, s);
    forall n | n in s.registry ensures VerifiedSession(env, s, n.sid, n.username) {
      assert Owned(s, n) && Known(env, s, n.sid);
    }
    hide Nodes;
    forall e | e in s.log ensures VerifiedSession(env, s, e.sid, e.user) {
      assert Bears(s, e.sid, e.user) && Known(env, s, e.sid);
    }
    forall c | c in s.adds ensures VerifiedSession(env, s, c.sid, c.user) {
      assert Bears(s, c.sid, c.user) && Known(env, s, c.sid);
    }
    forall k | k in s.kicks ensures KickBy(env, s, k) && VerifiedSession(env, s, k.sid, k.admin) {
      assert KickBy(env, s, k) && Known(env, s, k.sid);
    }
  }

  predicate OneLine(s: string) {
    '\r' !in s && '\n' !in s
  }

  /** The loader cuts every line of the user file at its first newline or carriage
      return, so no name contains one. */
  ghost predicate NamesOk(env: Env) {
    forall r :: r in env.records ==> OneLine(r.username)
  }

  lemma {:induction false} MatchMember(records: seq<UserRecord>, name: string)
    ensures var m := FirstMatch(records, name);
            m.Some? ==> m.value in records && m.value.username == name
  {
    if records != [] && records[0].username != name {
      MatchMember(records[1..], name);
    }
  }

  lemma {:induction false} TailOneLine(es: seq<Entry>)
    requires forall e :: e in es ==> OneLine(e.username)
    ensures OneLine(NameTail(es))
  {
    if es != [] {
      TailOneLine(es[1..]);
    }
  }

  lemma ListOneLine(es: seq<Entry>)
    requires forall e :: e in es ==> OneLine(e.username)
    ensures OneLine(NameList(es)) && IsTrim(NameList(es))
  {
    if es != [] {
      TailOneLine(es[1..]);
    }
  }

  /** Over every run: whenever the list of the online users fits its buffer, the LIST
      line reads back as exactly the comma-joined names of the registry, newest first. */
  lemma ListReadsBack(env: Env, s: Server)
    requires Reachable(env, s) && NamesOk(env) && |NameList(s.registry)| < MAX_MSG_LEN
    ensures L.ParseServer(L.ResponseLine(L.Users(NameList(s.registry)))) == Some(L.Users(NameList(s.registry)))
  {
    hide Reachable, NameList, L.ParseServer, L.ResponseLine, FirstMatch, OneLine;
    Provenance(env, s);
    forall e | e in s.registry ensures OneLine(e.username) {
      assert VerifiedSession(env, s, e.sid, e.username);
      MatchMember(env.records, e.username);
    }
    ListOneLine(s.registry);
    L.ListRelay(NameList(s.registry));
  }

  /** The queue only ever holds CHAT, JOIN and LEAVE, because the sentinel is pushed
      after the flag is set; once running is cleared the broadcaster dequeues at most
      one more event. */
  lemma ShutdownIsQuiet(env: Env, s: Server)
    requires Reachable(env, s)
    ensures forall e :: e in s.queue ==> e.kind == Chat || e.kind == Join || e.kind == Leave
    ensures s.late <= 1 && (s.running ==> s.late == 0)
    ensures s.main.MSentinel? ==> s.shutdown && !s.running
  {
    hide Reachable, HeapOk, Connected, Chained, LastsOk, CasterOk, SentOk, HistoryOk, IdentityOk, DeliveriesOk, PeersOk;
    InvReachable(env, s);
    assert forall e :: e in s.queue ==> e in s.log;
  }

  /** The nodes a traversal has still ahead of it at most. */
  function Ahead(c: Caster): nat {
    if !Touring(c) then 0
    else
      var n := |Without(c.tour.start, c.tour.skipped)|;
      if |c.tour.seen| <= n then n - |c.tour.seen| else 0
  }

  /** How many steps the broadcaster has left at most, once shutdown is signalled. */
  function Rank(s: Server): nat {
    match s.caster
    case CTop => 1
    case CPop => 2 * MAX_CLIENTS + 6
    case CBuild(_, _) => 2 * MAX_CLIENTS + 5
    case CFirst(_, _) => 2 * MAX_CLIENTS + 4
    case CSend(_, _, _, _) => 3 + 2 * Ahead(s.caster)
    case CNext(_, _, _) => 2 + 2 * Ahead(s.caster)
    case CExit => 0
    case CStray => 0
  }

  lemma {:induction false} WithoutShrinks(xs: seq<nat>, gone: set<nat>, more: set<nat>)
    requires gone <= more
    ensures |Without(xs, more)| <= |Without(xs, gone)|
  {
    if xs != [] {
      WithoutShrinks(xs[1..], gone, more);
    }
  }

  lemma RankCarried(s: Server, s': Server)
    requires SameTour(s.caster, s'.caster)
    ensures Rank(s') <= Rank(s)
  {
    if Touring(s.caster) {
      WithoutShrinks(s.caster.tour.start, s.caster.tour.skipped, s'.caster.tour.skipped);
    }
    hide Without;
  }

  lemma TourOfInv(env: Env, s: Server)
    requires Inv(env, s) && Touring(s.caster)
    ensures |s.caster.tour.seen| <= |Without(s.caster.tour.start, s.caster.tour.skipped)|
  {
    hide Connected, HeapOk, SessionsOk, HistoryOk, IdentityOk, DeliveriesOk, StopOk, PeersOk, QueueOk, SentOk,
         Without, Chain;
  }

  lemma AdvanceStep(env: Env, s: Server, c: Choice)
    requires s.caster.CNext? && CasterNext(env, s, c).Some?
    ensures var d := CasterNext(env, s, c).value.caster;
            d.CTop? || d.CStray?
            || (d.CSend? && d.tour.start == s.caster.tour.start && d.tour.skipped == s.caster.tour.skipped
                && |d.tour.seen| == |s.caster.tour.seen| + 1)
  {
    hide EventLine, NextOf, NodeAt, HolderOf, Sids, Cursor;
  }

  lemma RankNext(env: Env, s: Server, c: Choice)
    requires Inv(env, s) && s.caster.CNext? && CasterNext(env, s, c).Some?
    ensures Rank(CasterNext(env, s, c).value) < Rank(s)
  {
    var s' := CasterNext(env, s, c).value;
    AdvanceStep(env, s, c);
    InvCaster(env, s, c);
    hide CasterNext, Inv, Without, Rank;
    if s'.caster.CSend? {
      TourOfInv(env, s');
    }
    RankDrops(s, s');
  }

  lemma RankDrops(s: Server, s': Server)
    requires s.caster.CNext?
    requires s'.caster.CTop? || s'.caster.CStray?
             || (s'.caster.CSend? && s'.caster.tour.start == s.caster.tour.start
                 && s'.caster.tour.skipped == s.caster.tour.skipped
                 && |s.caster.tour.seen| < |s'.caster.tour.seen|
                 && |s'.caster.tour.seen| <= |Without(s'.caster.tour.start, s'.caster.tour.skipped)|)
    ensures Rank(s') < Rank(s)
  {
    hide Without;
  }

  lemma FirstStep(env: Env, s: Server, c: Choice)
    requires s.caster.CFirst? && CasterNext(env, s, c).Some?
    ensures var d := CasterNext(env, s, c).value.caster;
            d.CTop? || (d.CSend? && d.tour.start == Sids(s.registry) && |d.tour.seen| == 1 && d.tour.skipped == {})
  {
    hide EventLine, NextOf, NodeAt, HolderOf;
  }

  lemma RankFirst(env: Env, s: Server, c: Choice)
    requires |s.registry| <= MAX_CLIENTS && s.caster.CFirst? && CasterNext(env, s, c).Some?
    ensures Rank(CasterNext(env, s, c).value) < Rank(s)
  {
    FirstStep(env, s, c);
    WithoutAbsent(Sids(s.registry), {});
    hide CasterNext, Without;
  }

  lemma RankCalm(env: Env, s: Server, c: Choice)
    requires !s.running && !s.caster.CNext? && !s.caster.CFirst? && CasterNext(env, s, c).Some?
    ensures Rank(CasterNext(env, s, c).value) < Rank(s)
  {
    hide EventLine, NextOf, NodeAt, HolderOf, Without, Sids, Cursor;
  }

  lemma RankCaster(env: Env, s: Server, c: Choice)
    requires Reachable(env, s) && s.shutdown && CasterNext(env, s, c).Some?
    ensures Rank(CasterNext(env, s, c).value) < Rank(s)
  {
    hide Reachable, Inv, CasterNext, Rank;
    InvReachable(env, s);
    if s.caster.CNext? {
      RankNext(env, s, c);
    } else if s.caster.CFirst? {
      ConnectionBound(env, s);
      RankFirst(env, s, c);
    } else {
      NotRunning(env, s);
      RankCalm(env, s, c);
    }
  }

  lemma NotRunning(env: Env, s: Server)
    requires Inv(env, s) && s.shutdown
    ensures !s.running
  {
    hide Connected, HeapOk, SessionsOk, HistoryOk, IdentityOk, DeliveriesOk, BroadcastOk, PeersOk;
  }

  /** Once shutdown is signalled the broadcaster can always take a step until it has
      ended or read a freed node, every step of it lowers its rank and no other step
      raises it: it ends. */
  lemma BroadcasterEnds(env: Env, s: Server, step: Step)
    requires Reachable(env, s) && s.shutdown
    ensures !s.caster.CExit? && !s.caster.CStray? ==> CasterNext(env, s, Go).Some?
    ensures Next(env, s, step).Some? ==>
              Rank(Next(env, s, step).value) <= Rank(s)
              && (step.CasterStep? ==> Rank(Next(env, s, step).value) < Rank(s))
  {
    hide Reachable, Rank, HandlerNext, MainNext, SameTour, EventLine, Sids, Cursor, NextOf, NodeAt, HolderOf;
    match step
    case HandlerStep(h, c) =>
      if Next(env, s, step).Some? {
        HandlerTour(env, s, h, c);
        RankCarried(s, Next(env, s, step).value);
      }
    case MainStep(c) =>
      if Next(env, s, step).Some? {
        StrayMain(s, c);
        RankSame(s, Next(env, s, step).value);
      }
    case CasterStep(c) => if Next(env, s, step).Some? { RankCaster(env, s, c); }
    case Signal => RankSame(s, s.(running := false));
  }

  lemma RankSame(s: Server, s': Server)
    requires s'.caster == s.caster
    ensures Rank(s') == Rank(s)
  {
  }
}
