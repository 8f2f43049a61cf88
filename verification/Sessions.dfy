/** The order of JOIN, CHAT and LEAVE events of each user over a whole run. */
module Sessions {
  import opened Common
  import opened Registry
  import opened MessageQueue
  import opened ServerState
  import opened Handlers
  import opened ServerSteps
  import opened Legality
  import opened Connections

  /** The events of one user, in order. */
  function Projection(log: seq<Event>, user: string): seq<Event> {
    if log == [] then []
    else
      var e := log[|log| - 1];
      Projection(log[..|log| - 1], user) + if e.user == user then [e] else []
  }

  function LastOf(log: seq<Event>, user: string): Option<Event> {
    if log == [] then None
    else if log[|log| - 1].user == user then Some(log[|log| - 1])
    else LastOf(log[..|log| - 1], user)
  }

  predicate Opening(e: Event) {
    e.kind == Join && e.room == DEFAULT_ROOM
  }

  /** Two neighbouring events of one session. */
  predicate InSession(d: Event, e: Event) {
    || ((d.kind == Join || d.kind == Chat) && (e.kind == Chat || e.kind == Leave) && e.room == d.room)
    || (d.kind == Leave && e.kind == Join && e.room != d.room)
  }

  /** Two neighbouring events of one user: within a session, or the end of one
      session and the start of a later one. */
  predicate MayFollow(last: Option<Event>, e: Event) {
    match last
    case None => Opening(e)
    case Some(d) => if d.sid == e.sid then InSession(d, e) else d.sid < e.sid && d.kind == Leave && Opening(e)
  }

  predicate Chained(log: seq<Event>) {
    log == [] || (Chained(log[..|log| - 1]) && MayFollow(LastOf(log[..|log| - 1], log[|log| - 1].user), log[|log| - 1]))
  }

  /** One session: JOIN lobby, CHATs there, then any number of LEAVE, JOIN another
      room, CHATs there; a complete one ends with a LEAVE. */
  ghost predicate SessionShape(b: seq<Event>, complete: bool) {
    && b != [] && Opening(b[0])
    && (forall i :: 0 <= i < |b| ==> b[i].sid == b[0].sid)
    && (forall i, j :: 0 <= i && j == i + 1 && j < |b| ==> InSession(b[i], b[j]))
    && (complete ==> b[|b| - 1].kind == Leave)
  }

  function Concat(blocks: seq<seq<Event>>): seq<Event> {
    if blocks == [] then [] else Concat(blocks[..|blocks| - 1]) + blocks[|blocks| - 1]
  }

  /** The number of a session. */
  function Number(b: seq<Event>): nat {
    if b == [] then 0 else b[0].sid
  }

  function LastEvent(blocks: seq<seq<Event>>): Option<Event> {
    if blocks == [] || blocks[|blocks| - 1] == [] then None
    else var b := blocks[|blocks| - 1]; Some(b[|b| - 1])
  }

  ghost predicate Blocked(log: seq<Event>, user: string, blocks: seq<seq<Event>>) {
    && Concat(blocks) == Projection(log, user)
    && LastEvent(blocks) == LastOf(log, user)
    && (forall i :: 0 <= i < |blocks| ==> SessionShape(blocks[i], i + 1 < |blocks|))
    && (forall i, j :: 0 <= i < j < |blocks| ==> Number(blocks[i]) < Number(blocks[j]))
  }

  lemma SameSession(b: seq<Event>, e: Event)
    requires SessionShape(b, false) && b[0].sid == e.sid && InSession(b[|b| - 1], e)
    ensures SessionShape(b + [e], false)
  {
    hide InSession, Opening;
    var c := b + [e];
    assert forall i :: 0 <= i < |b| ==> c[i] == b[i];
  }

  lemma BlockContinues(log: seq<Event>, e: Event, done: seq<seq<Event>>, b: seq<Event>)
    requires Blocked(log, e.user, done + [b]) && Number(b) == e.sid
    requires InSession(LastOf(log, e.user).value, e)
    ensures Blocked(log + [e], e.user, done + [b + [e]])
  {
    var was, more := done + [b], done + [b + [e]];
    assert was[|done|] == b && SessionShape(b, false);
    SameSession(b, e);
    hide SessionShape, InSession, Opening;
    assert (log + [e])[..|log|] == log;
    assert was[..|done|] == done && more[..|done|] == done;
    assert Concat(more) == Concat(done) + b + [e];
    assert forall i :: 0 <= i < |done| ==> more[i] == was[i];
  }

  lemma BlockStarts(log: seq<Event>, e: Event, blocks: seq<seq<Event>>) returns (more: seq<seq<Event>>)
    requires Blocked(log, e.user, blocks) && Opening(e)
    requires blocks != [] ==> LastOf(log, e.user).value.kind == Leave && LastOf(log, e.user).value.sid < e.sid
    ensures Blocked(log + [e], e.user, more)
  {
    hide InSession, Opening;
    assert (log + [e])[..|log|] == log;
    more := blocks + [[e]];
    assert more[..|blocks|] == blocks;
    assert forall i :: 0 <= i < |blocks| ==> more[i] == blocks[i];
  }

  lemma BlocksGrow(log: seq<Event>, e: Event, blocks: seq<seq<Event>>) returns (more: seq<seq<Event>>)
    requires Blocked(log, e.user, blocks) && MayFollow(LastOf(log, e.user), e)
    ensures Blocked(log + [e], e.user, more)
  {
    var n := |blocks|;
    if n > 0 && Number(blocks[n - 1]) == e.sid {
      assert blocks == blocks[..n - 1] + [blocks[n - 1]];
      BlockContinues(log, e, blocks[..n - 1], blocks[n - 1]);
      more := blocks[..n - 1] + [blocks[n - 1] + [e]];
    } else {
      more := BlockStarts(log, e, blocks);
    }
  }

  /** The events of each user in a chained log are a concatenation of sessions with
      growing numbers, every one complete but possibly the last. */
  lemma {:induction false} ChainedIsSessions(log: seq<Event>, user: string) returns (blocks: seq<seq<Event>>)
    requires Chained(log)
    ensures Blocked(log, user, blocks)
  {
    if log == [] {
      blocks := [];
    } else {
      var n := |log| - 1;
      blocks := ChainedIsSessions(log[..n], user);
      if log[n].user == user {
        assert log == log[..n] + [log[n]];
        blocks := BlocksGrow(log[..n], log[n], blocks);
      }
    }
  }

  /** What the last event of a registered user says about the session. */
  predicate LastOk(last: Option<Event>, sid: nat, p: Phase) {
    match p
    case Fresh => Idle(last, sid)
    case In(r) =>
      && last.Some? && last.value.sid == sid && last.value.room == r
      && (last.value.kind == Join || last.value.kind == Chat)
    case Between(l) => last.Some? && last.value.sid == sid && last.value.kind == Leave && last.value.room == l
    case Over => last.Some? && last.value.sid == sid && last.value.kind == Leave
  }

  /** No session is open: no event yet, or a LEAVE of a session numbered below sid. */
  predicate Idle(last: Option<Event>, sid: nat) {
    last.Some? ==> last.value.kind == Leave && last.value.sid < sid
  }

  function Names(es: seq<Entry>): set<string> {
    set e | e in es :: e.username
  }

  ghost predicate LogOk(s: Server) {
    Chained(s.log) && forall e :: e in s.log ==> EventOk(e) && e.sid < |s.sessions|
  }

  ghost predicate LastsOk(s: Server) {
    && (forall h :: 0 <= h < |s.handlers| && Registered(s.handlers[h]) ==>
          LastOk(LastOf(s.log, s.handlers[h].name), s.handlers[h].sid, PhaseOf(s.handlers[h])))
    && (forall user :: user !in Names(s.registry) ==> Idle(LastOf(s.log, user), |s.sessions|))
  }

  ghost predicate SessionsOk(s: Server) {
    LogOk(s) && (!s.shutdown ==> LastsOk(s))
  }

  lemma MoveFollows(last: Option<Event>, p: Phase, e: Event, q: Phase)
    requires LastOk(last, e.sid, p) && PhaseMove(p, e, q)
    ensures MayFollow(last, e) && LastOk(Some(e), e.sid, q)
  {
  }

  lemma LogGrows(s: Server, e: Event, s': Server)
    requires LogOk(s) && EventOk(e) && e.sid < |s.sessions| && s'.sessions == s.sessions
    requires s'.log == s.log + [e] && MayFollow(LastOf(s.log, e.user), e)
    ensures LogOk(s')
  {
    hide MayFollow, EventOk, LastOf;
    assert s'.log[..|s.log|] == s.log;
  }

  lemma LastOfAppended(log: seq<Event>, e: Event, user: string)
    ensures LastOf(log + [e], user) == if e.user == user then Some(e) else LastOf(log, user)
  {
    assert (log + [e])[..|log|] == log;
  }

  /** Two registered threads have different names. */
  lemma NamesApart(s: Server, g: nat, h: nat)
    requires Nodes(s) && g < |s.handlers| && h < |s.handlers| && g != h
    requires Registered(s.handlers[g]) && Registered(s.handlers[h])
    ensures s.handlers[g].name != s.handlers[h].name && s.handlers[g].sid != s.handlers[h].sid
    ensures s.handlers[g].name in Names(s.registry)
  {
    hide Registered, Enrolled;
    assert Listed(s, g) && Listed(s, h);
    assert NodeOf(s.handlers[g]) in s.registry && NodeOf(s.handlers[h]) in s.registry;
  }

  lemma OwnName(s: Server, h: nat)
    requires Nodes(s) && h < |s.handlers| && Registered(s.handlers[h])
    ensures s.handlers[h].name in Names(s.registry) && s.handlers[h].sid < |s.sessions|
  {
    hide Registered, Enrolled;
    assert Listed(s, h);
    assert NodeOf(s.handlers[h]) in s.registry;
  }

  lemma LastsEnqueue(s: Server, h: nat, hd': Handler, e: Event, s': Server)
    requires Nodes(s) && LastsOk(s) && h < |s.handlers| && Registered(s.handlers[h])
    requires e.sid == s.handlers[h].sid && e.user == s.handlers[h].name
    requires PhaseMove(PhaseOf(s.handlers[h]), e, PhaseOf(hd')) && NodeOf(hd') == NodeOf(s.handlers[h])
    requires s'.handlers == s.handlers[h := hd'] && s'.log == s.log + [e]
    requires s'.registry == s.registry && s'.sessions == s.sessions
    ensures LastsOk(s') && MayFollow(LastOf(s.log, e.user), e)
  {
    OwnName(s, h);
    MoveFollows(LastOf(s.log, e.user), PhaseOf(s.handlers[h]), e, PhaseOf(hd'));
    hide Nodes, MayFollow, LastOf, LastOk, PhaseMove, PhaseOf, Registered, Idle;
    forall g | 0 <= g < |s'.handlers| && Registered(s'.handlers[g])
      ensures LastOk(LastOf(s'.log, s'.handlers[g].name), s'.handlers[g].sid, PhaseOf(s'.handlers[g]))
    {
      LastOfAppended(s.log, e, s'.handlers[g].name);
      if g != h {
        NamesApart(s, g, h);
      }
    }
    forall user | user !in Names(s'.registry) ensures Idle(LastOf(s'.log, user), |s'.sessions|) {
      LastOfAppended(s.log, e, user);
    }
  }

  lemma LastsRegister(s: Server, h: nat, hd': Handler, s': Server)
    requires LastsOk(s) && h < |s.handlers| && PhaseOf(hd') == Fresh && Registered(hd')
    requires hd'.sid == |s.sessions| && AddResult(s.registry, hd'.name) == Ok
    requires s'.handlers == s.handlers[h := hd'] && s'.log == s.log
    requires s'.registry == [NodeOf(hd')] + s.registry && s'.sessions == s.sessions + [h]
    ensures LastsOk(s')
  {
    hide PhaseOf, LastOf, Registered;
    assert hd'.name !in Names(s.registry);
    assert Names(s'.registry) == Names(s.registry) + {hd'.name};
  }

  lemma LastsUnregister(s: Server, h: nat, hd': Handler, s': Server)
    requires Nodes(s) && Fds(s) && LastsOk(s) && h < |s.handlers|
    requires Registered(s.handlers[h]) && !Registered(hd')
    requires PhaseOf(s.handlers[h]) == Fresh || PhaseOf(s.handlers[h]) == Over
    requires s'.handlers == s.handlers[h := hd'] && s'.log == s.log && s'.sessions == s.sessions
    requires s'.registry == Removed(s.registry, s.handlers[h].fd)
    ensures LastsOk(s')
  {
    OwnRemoval(s, h);
    OwnName(s, h);
    assert Listed(s, h);
    assert Idle(LastOf(s.log, s.handlers[h].name), |s.sessions|);
    hide Nodes, Fds, PhaseOf, LastOf, Registered, Removed, Idle, LastOk;
    forall user | user !in Names(s'.registry) ensures Idle(LastOf(s'.log, user), |s'.sessions|) {
      if user in Names(s.registry) {
        var e :| e in s.registry && e.username == user;
        OwnNamedNode(s, h, e);
      }
    }
  }

  lemma OwnNamedNode(s: Server, h: nat, e: Entry)
    requires Nodes(s) && h < |s.handlers| && Registered(s.handlers[h]) && e in s.registry
    ensures e.sid == s.handlers[h].sid ==> e.username == s.handlers[h].name
  {
    hide Registered, Enrolled;
    assert Owned(s, e) && Listed(s, h);
  }

  lemma LastsSteady(s: Server, s': Server)
    requires LastsOk(s) && |s.handlers| <= |s'.handlers| && s'.log == s.log && s'.sessions == s.sessions
    requires Names(s'.registry) == Names(s.registry)
    requires forall g :: 0 <= g < |s.handlers| && Registered(s'.handlers[g]) ==>
               Registered(s.handlers[g]) && s'.handlers[g].name == s.handlers[g].name
               && s'.handlers[g].sid == s.handlers[g].sid && PhaseOf(s'.handlers[g]) == PhaseOf(s.handlers[g])
    requires forall g :: |s.handlers| <= g < |s'.handlers| ==> !Registered(s'.handlers[g])
    ensures LastsOk(s')
  {
    hide LastOf, LastOk, PhaseOf, Registered, Idle;
  }

  lemma MovedNames(es: seq<Entry>, fd: int, room: string)
    ensures Names(Moved(es, fd, room)) == Names(es)
  {
    var ms := Moved(es, fd, room);
    assert |ms| == |es| && forall j :: 0 <= j < |es| ==> ms[j].username == es[j].username;
    forall n | n in Names(es) ensures n in Names(ms) {
      var e :| e in es && e.username == n;
      var j :| 0 <= j < |es| && es[j] == e;
      assert ms[j] in ms;
    }
    forall n | n in Names(ms) ensures n in Names(es) {
      var e :| e in ms && e.username == n;
      var j :| 0 <= j < |ms| && ms[j] == e;
      assert es[j] in es;
    }
  }

  lemma LogHandler(env: Env, s: Server, h: nat, hd': Handler, eff: Effect)
    requires SessionsOk(s) && Nodes(s) && h < |s.handlers|
    requires Legal(env, s, s.handlers[h], hd', eff)
    ensures LogOk(Apply(env, s, h, eff).(handlers := s.handlers[h := hd']))
  {
    var s' := Apply(env, s, h, eff).(handlers := s.handlers[h := hd']);
    hide Nodes, LocalOk, Registered, Enrolled, PhaseOf, PhaseMove, InFlight, EventOk, KickOk, Same, PeerMove, PeerOf,
         HoldsFd, NodeOf, Removed, Moved, Remembered, Loosened, Bypass, AddResult, LastsOk, LogOk, LastOf, MayFollow;
    if eff.Enqueue? && !s.shutdown {
      OwnName(s, h);
      LastsEnqueue(s, h, hd', eff.event, s');
      LogGrows(s, eff.event, s');
    } else {
      LogOkSame(s, s');
    }
  }

  lemma LastsCalm(env: Env, s: Server, h: nat, hd': Handler, eff: Effect)
    requires LastsOk(s) && h < |s.handlers| && !s.shutdown
    requires Legal(env, s, s.handlers[h], hd', eff)
    requires !eff.Register? && !eff.Unregister? && !eff.Enqueue?
    ensures LastsOk(Apply(env, s, h, eff).(handlers := s.handlers[h := hd']))
  {
    hide LocalOk, Registered, Enrolled, PhaseOf, InFlight, KickOk, Moved, Remembered, LastsOk, LastOf, Names;
    if eff.Relocate? {
      MovedNames(s.registry, eff.fd, eff.room);
    }
    LastsSteady(s, Apply(env, s, h, eff).(handlers := s.handlers[h := hd']));
  }

  lemma LastsHandler(env: Env, s: Server, h: nat, hd': Handler, eff: Effect)
    requires LastsOk(s) && Nodes(s) && Fds(s) && h < |s.handlers| && !s.shutdown
    requires Legal(env, s, s.handlers[h], hd', eff)
    ensures LastsOk(Apply(env, s, h, eff).(handlers := s.handlers[h := hd']))
  {
    var s' := Apply(env, s, h, eff).(handlers := s.handlers[h := hd']);
    hide Nodes, Fds, LocalOk, Registered, Enrolled, PhaseOf, PhaseMove, InFlight, EventOk, KickOk, Same,
         Removed, Moved, Remembered, Loosened, Bypass, AddResult, LastsOk, LastOf, MayFollow;
    match eff
    case Register(e) => LastsRegister(s, h, hd', s');
    case Unregister(fd) => LastsUnregister(s, h, hd', s');
    case Enqueue(e) => LastsEnqueue(s, h, hd', e, s');
    case _ => LastsCalm(env, s, h, hd', eff);
  }

  lemma SessionsHandler(env: Env, s: Server, h: nat, hd': Handler, eff: Effect)
    requires SessionsOk(s) && Nodes(s) && Fds(s) && h < |s.handlers|
    requires Legal(env, s, s.handlers[h], hd', eff)
    ensures SessionsOk(Apply(env, s, h, eff).(handlers := s.handlers[h := hd']))
  {
    hide Nodes, Fds, Legal, LastsOk, LogOk, Removed, Moved, Remembered, Loosened, Bypass;
    LogHandler(env, s, h, hd', eff);
    if !s.shutdown {
      LastsHandler(env, s, h, hd', eff);
    }
  }

  lemma LogOkSame(s: Server, s': Server)
    requires LogOk(s) && s'.log == s.log && |s.sessions| <= |s'.sessions|
    ensures LogOk(s')
  {
    hide Chained, EventOk;
  }

  /** The other threads never touch the log: the sentinel comes after the flag. */
  lemma SessionsOther(s: Server, s': Server)
    requires SessionsOk(s) && s'.log == s.log && s'.sessions == s.sessions && s'.registry == s.registry
    requires s.shutdown ==> s'.shutdown
    requires |s.handlers| <= |s'.handlers| && s'.handlers[..|s.handlers|] == s.handlers
    requires forall g :: |s.handlers| <= g < |s'.handlers| ==> !Registered(s'.handlers[g])
    ensures SessionsOk(s')
  {
    hide LastsOk, LogOk, Registered, PhaseOf;
    LogOkSame(s, s');
    if !s'.shutdown {
      assert forall g :: 0 <= g < |s.handlers| ==> s'.handlers[g] == s.handlers[g];
      LastsSteady(s, s');
    }
  }
}
