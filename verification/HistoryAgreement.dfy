/** The room history and the broadcast log agree on what each session said. */
module HistoryAgreement {
  import opened Common
  import opened Registry
  import opened MessageQueue
  import RM = RoomManager
  import RH = RoomHistory
  import opened ServerState
  import opened Handlers
  import opened ServerSteps
  import opened Legality
  import opened Connections

  /** The chat lines of one session that made it into the queue, in order. */
  function ChatsBy(log: seq<Event>, sid: nat): seq<ChatRecord> {
    if log == [] then []
    else
      var e := log[|log| - 1];
      ChatsBy(log[..|log| - 1], sid) + if e.kind == Chat && e.sid == sid then [ChatOf(e)] else []
  }

  /** The chat lines of one session that were offered to the room history, in order. */
  function AddsBy(adds: seq<ChatRecord>, sid: nat): seq<ChatRecord> {
    if adds == [] then []
    else
      var c := adds[|adds| - 1];
      AddsBy(adds[..|adds| - 1], sid) + if c.sid == sid then [c] else []
  }

  function Addition(env: Env, c: ChatRecord): RH.Addition {
    RH.Addition(c.room, RM.HistoryEntry(c.user, env.stamp(c.time), c.text))
  }

  function Additions(env: Env, adds: seq<ChatRecord>): seq<RH.Addition> {
    seq(|adds|, i requires 0 <= i < |adds| => Addition(env, adds[i]))
  }

  /** What was broadcast is a prefix of what was remembered; until shutdown only the
      line in flight is missing. */
  predicate Agree(chats: seq<ChatRecord>, adds: seq<ChatRecord>, flight: seq<ChatRecord>, shutdown: bool) {
    chats <= adds && (!shutdown ==> adds == chats + flight)
  }

  lemma AgreeRecorded(chats: seq<ChatRecord>, adds: seq<ChatRecord>, c: ChatRecord, shutdown: bool)
    requires Agree(chats, adds, [], shutdown)
    ensures Agree(chats, adds + [c], [c], shutdown)
  {
  }

  lemma AgreeSent(chats: seq<ChatRecord>, adds: seq<ChatRecord>, c: ChatRecord)
    requires Agree(chats, adds, [c], false)
    ensures Agree(chats + [c], adds, [], false)
  {
  }

  lemma AgreeShut(chats: seq<ChatRecord>, adds: seq<ChatRecord>, f: seq<ChatRecord>, g: seq<ChatRecord>, shutdown: bool)
    requires Agree(chats, adds, f, shutdown)
    ensures Agree(chats, adds, g, true)
  {
  }

  ghost predicate Agrees(s: Server, k: nat)
    requires k < |s.sessions| && s.sessions[k] < |s.handlers|
  {
    Agree(ChatsBy(s.log, k), AddsBy(s.adds, k), InFlight(s.handlers[s.sessions[k]]), s.shutdown)
  }

  ghost predicate HistoryOk(env: Env, s: Server) {
    && s.rooms == RH.Table(Additions(env, s.adds))
    && (forall i :: 0 <= i < |s.adds| ==> |s.adds[i].room| < MAX_ROOM_NAME_LEN)
    && (forall k :: 0 <= k < |s.sessions| ==> s.sessions[k] < |s.handlers| && Agrees(s, k))
    && (forall k :: |s.sessions| <= k ==> ChatsBy(s.log, k) == [] && AddsBy(s.adds, k) == [])
  }

  lemma ChatsByAppended(log: seq<Event>, e: Event, sid: nat)
    ensures ChatsBy(log + [e], sid) == ChatsBy(log, sid) + if e.kind == Chat && e.sid == sid then [ChatOf(e)] else []
  {
    assert (log + [e])[..|log|] == log;
  }

  lemma AddsByAppended(adds: seq<ChatRecord>, c: ChatRecord, sid: nat)
    ensures AddsBy(adds + [c], sid) == AddsBy(adds, sid) + if c.sid == sid then [c] else []
  {
    assert (adds + [c])[..|adds|] == adds;
  }

  lemma TableAppended(env: Env, adds: seq<ChatRecord>, c: ChatRecord)
    ensures RH.Table(Additions(env, adds + [c])) == Remembered(env, RH.Table(Additions(env, adds)), c)
  {
    hide RM.Added;
    var as' := Additions(env, adds + [c]);
    assert as'[..|adds|] == Additions(env, adds);
    assert as'[|adds|] == Addition(env, c);
  }

  /** Only the owner of a session can have a line of it in flight. */
  lemma OtherOwner(s: Server, h: nat, k: nat)
    requires Nodes(s) && h < |s.handlers| && k < |s.sessions|
    ensures s.sessions[k] < |s.handlers|
    ensures s.sessions[k] == h ==> s.handlers[h].sid == k
    ensures Registered(s.handlers[h]) ==> s.handlers[h].sid < |s.sessions| && s.sessions[s.handlers[h].sid] == h
    ensures !Enrolled(s.handlers[h]) ==> s.sessions[k] != h
  {
    hide Registered, Enrolled;
    assert OwnerOf(s, k, s.sessions[k]);
    if Registered(s.handlers[h]) {
      assert Listed(s, h);
    }
  }

  lemma OwnSession(s: Server, h: nat)
    requires Nodes(s) && h < |s.handlers| && Registered(s.handlers[h])
    ensures s.handlers[h].sid < |s.sessions| && s.sessions[s.handlers[h].sid] == h
  {
    hide Registered, Enrolled;
    assert Listed(s, h);
  }

  lemma HistoryRecord(env: Env, s: Server, h: nat, hd': Handler, c: ChatRecord, s': Server)
    requires Nodes(s) && HistoryOk(env, s) && h < |s.handlers| && Registered(s.handlers[h])
    requires c.sid == s.handlers[h].sid && |c.room| < MAX_ROOM_NAME_LEN
    requires InFlight(s.handlers[h]) == [] && InFlight(hd') == [c]
    requires s' == s.(adds := s.adds + [c], rooms := Remembered(env, s.rooms, c), handlers := s.handlers[h := hd'])
    ensures HistoryOk(env, s')
  {
    TableAppended(env, s.adds, c);
    OwnSession(s, h);
    hide Nodes, ChatsBy, AddsBy, InFlight, Additions, Remembered, Registered, Agree;
    forall k | 0 <= k < |s'.sessions| ensures s'.sessions[k] < |s'.handlers| && Agrees(s', k) {
      assert Agrees(s, k);
      AddsByAppended(s.adds, c, k);
      OtherOwner(s, h, k);
      if k == c.sid {
        AgreeRecorded(ChatsBy(s.log, k), AddsBy(s.adds, k), c, s.shutdown);
      } else {
        assert AddsBy(s'.adds, k) == AddsBy(s.adds, k);
      }
    }
    forall k | |s'.sessions| <= k ensures ChatsBy(s'.log, k) == [] && AddsBy(s'.adds, k) == [] {
      AddsByAppended(s.adds, c, k);
    }
  }

  lemma HistoryAccepted(env: Env, s: Server, h: nat, hd': Handler, e: Event, s': Server)
    requires Nodes(s) && HistoryOk(env, s) && h < |s.handlers| && Registered(s.handlers[h]) && !s.shutdown
    requires e.sid == s.handlers[h].sid && InFlight(hd') == []
    requires InFlight(s.handlers[h]) == if e.kind == Chat then [ChatOf(e)] else []
    requires s'.handlers == s.handlers[h := hd'] && s'.sessions == s.sessions && s'.log == s.log + [e]
    requires s'.adds == s.adds && s'.rooms == s.rooms && !s'.shutdown
    ensures HistoryOk(env, s')
  {
    OwnSession(s, h);
    hide Nodes, ChatsBy, AddsBy, InFlight, Additions, Registered, Agree, ChatOf;
    forall k | 0 <= k < |s'.sessions| ensures s'.sessions[k] < |s'.handlers| && Agrees(s', k) {
      assert Agrees(s, k);
      ChatsByAppended(s.log, e, k);
      OtherOwner(s, h, k);
      if k == e.sid && e.kind == Chat {
        AgreeSent(ChatsBy(s.log, k), AddsBy(s.adds, k), ChatOf(e));
      } else {
        assert ChatsBy(s'.log, k) == ChatsBy(s.log, k);
      }
    }
    forall k | |s'.sessions| <= k ensures ChatsBy(s'.log, k) == [] && AddsBy(s'.adds, k) == [] {
      ChatsByAppended(s.log, e, k);
    }
  }

  lemma HistoryRegister(env: Env, s: Server, h: nat, hd': Handler, s': Server)
    requires Nodes(s) && HistoryOk(env, s) && h < |s.handlers| && !Enrolled(s.handlers[h]) && InFlight(hd') == []
    requires s'.handlers == s.handlers[h := hd'] && s'.sessions == s.sessions + [h]
    requires s'.log == s.log && s'.adds == s.adds && s'.rooms == s.rooms && s'.shutdown == s.shutdown
    ensures HistoryOk(env, s')
  {
    hide Nodes, ChatsBy, AddsBy, InFlight, Additions, Enrolled;
    forall k | 0 <= k < |s'.sessions| ensures s'.sessions[k] < |s'.handlers| && Agrees(s', k) {
      if k < |s.sessions| {
        assert Agrees(s, k);
        OtherOwner(s, h, k);
      }
    }
  }

  lemma HistorySteady(env: Env, s: Server, s': Server)
    requires HistoryOk(env, s) && s'.sessions == s.sessions && |s.handlers| <= |s'.handlers|
    requires forall g :: 0 <= g < |s.handlers| ==> s'.shutdown || InFlight(s'.handlers[g]) == InFlight(s.handlers[g])
    requires s'.log == s.log && s'.adds == s.adds && s'.rooms == s.rooms && (s.shutdown ==> s'.shutdown)
    ensures HistoryOk(env, s')
  {
    hide ChatsBy, AddsBy, InFlight, Additions, Agree;
    forall k | 0 <= k < |s'.sessions| ensures s'.sessions[k] < |s'.handlers| && Agrees(s', k) {
      assert Agrees(s, k);
      if s'.shutdown {
        var h := s.sessions[k];
        AgreeShut(ChatsBy(s.log, k), AddsBy(s.adds, k), InFlight(s.handlers[h]), InFlight(s'.handlers[h]), s.shutdown);
      }
    }
  }

  /** What a legal step does to the chat line that is on its way. */
  lemma FlightMove(env: Env, s: Server, hd: Handler, hd': Handler, eff: Effect)
    requires Legal(env, s, hd, hd', eff)
    ensures match eff
            case Register(_) => !Enrolled(hd) && InFlight(hd') == []
            case Record(c) =>
              Registered(hd) && c.sid == hd.sid && |c.room| < MAX_ROOM_NAME_LEN
              && InFlight(hd) == [] && InFlight(hd') == [c]
            case Enqueue(e) =>
              Registered(hd) && e.sid == hd.sid
              && InFlight(hd') == [] && InFlight(hd) == if e.kind == Chat then [ChatOf(e)] else []
            case _ => InFlight(hd') == InFlight(hd)
  {
    hide LocalOk, Registered, Enrolled, PhaseOf, PhaseMove, InFlight, EventOk, KickOk, Same, AddResult,
         NodeOf, PeerMove, PeerOf, HoldsFd, ChatOf;
  }

  lemma HistoryHandler(env: Env, s: Server, h: nat, hd': Handler, eff: Effect)
    requires HistoryOk(env, s) && Nodes(s) && h < |s.handlers|
    requires Legal(env, s, s.handlers[h], hd', eff)
    ensures HistoryOk(env, Apply(env, s, h, eff).(handlers := s.handlers[h := hd']))
  {
    var s' := Apply(env, s, h, eff).(handlers := s.handlers[h := hd']);
    FlightMove(env, s, s.handlers[h], hd', eff);
    hide Nodes, Legal, Registered, Enrolled, InFlight, Removed, Moved, Remembered, Loosened, Bypass, HistoryOk, ChatOf;
    match eff
    case Register(e) => HistoryRegister(env, s, h, hd', s');
    case Record(c) => HistoryRecord(env, s, h, hd', c, s');
    case Enqueue(e) =>
      if s.shutdown { HistorySteady(env, s, s'); } else { HistoryAccepted(env, s, h, hd', e, s'); }
    case _ => HistoryQuiet(env, s, h, hd', eff);
  }

  lemma HistoryQuiet(env: Env, s: Server, h: nat, hd': Handler, eff: Effect)
    requires HistoryOk(env, s) && h < |s.handlers| && InFlight(hd') == InFlight(s.handlers[h])
    requires !eff.Register? && !eff.Record? && !eff.Enqueue?
    ensures HistoryOk(env, Apply(env, s, h, eff).(handlers := s.handlers[h := hd']))
  {
    hide InFlight, Removed, Moved, Remembered, Loosened, Bypass, HistoryOk;
    HistorySteady(env, s, Apply(env, s, h, eff).(handlers := s.handlers[h := hd']));
  }

  lemma HistoryInit(env: Env)
    ensures HistoryOk(env, INIT)
  {
    assert Additions(env, []) == [];
  }
}
