/** Runs that the theorems have to make room for: a traversal that reads a freed node, one
    that goes on through unlinked nodes, and lines sent to a stranger's connection. */
module Runs {
  import opened Common
  import P = Protocol
  import L = ServerLines
  import opened Auth
  import opened Registry
  import opened MessageQueue
  import opened ServerState
  import opened Handlers
  import opened ServerSteps
  import opened Legality
  import opened Broadcast

  /** A run can go on with any possible step. */
  lemma Onward(env: Env, s: Server, step: Step) returns (t: Server)
    requires Reachable(env, s) && Next(env, s, step).Some?
    ensures Reachable(env, t) && Next(env, s, step) == Some(t)
  {
    t := Next(env, s, step).value;
    var steps :| Exec(env, steps) == Some(s);
    var more := steps + [step];
    assert more[..|more| - 1] == steps;
    assert Exec(env, more) == Some(t);
  }

  lemma Start(env: Env)
    ensures Reachable(env, INIT)
  {
    assert Exec(env, []) == Some(INIT);
  }

  /** One step of thread g ... */
  lemma Acts(env: Env, s: Server, g: nat, c: Choice, hd': Handler, eff: Effect) returns (t: Server)
    requires Reachable(env, s) && g < |s.handlers| && HandlerAction(env, s, s.handlers[g], c) == Some((hd', eff))
    ensures Reachable(env, t) && t == Apply(env, s, g, eff).(handlers := s.handlers[g := hd'])
  {
    hide Reachable, HandlerAction, Apply;
    t := Onward(env, s, HandlerStep(g, c));
  }

  /** ... that only moves it on. */
  lemma Moves(env: Env, s: Server, g: nat, c: Choice, pc: Pc) returns (t: Server)
    requires Reachable(env, s) && g < |s.handlers| && HandlerAction(env, s, s.handlers[g], c) == To(s.handlers[g], pc)
    ensures Reachable(env, t) && t == s.(handlers := s.handlers[g := s.handlers[g].(pc := pc)])
  {
    hide Reachable, HandlerAction;
    t := Acts(env, s, g, c, s.handlers[g].(pc := pc), Quiet);
  }

  /** One step of the newest thread. */
  lemma ActsLast(env: Env, s: Server, before: seq<Handler>, hd: Handler, c: Choice, hd': Handler, eff: Effect)
    returns (t: Server)
    requires Reachable(env, s) && s.handlers == before + [hd] && HandlerAction(env, s, hd, c) == Some((hd', eff))
    ensures Reachable(env, t) && t == Apply(env, s, |before|, eff).(handlers := before + [hd'])
  {
    hide Reachable, HandlerAction, Apply;
    t := Acts(env, s, |before|, c, hd', eff);
    assert (before + [hd])[|before| := hd'] == before + [hd'];
  }

  lemma MovesLast(env: Env, s: Server, before: seq<Handler>, hd: Handler, c: Choice, pc: Pc) returns (t: Server)
    requires Reachable(env, s) && s.handlers == before + [hd] && HandlerAction(env, s, hd, c) == To(hd, pc)
    ensures Reachable(env, t) && t == s.(handlers := before + [hd.(pc := pc)])
  {
    hide Reachable, HandlerAction;
    t := ActsLast(env, s, before, hd, c, hd.(pc := pc), Quiet);
  }

  function Visitor(fd: int, pc: Pc): Handler {
    Handler(fd, pc, false, "", "", "", 0, "", false)
  }

  /** A client connects. */
  lemma Connects(env: Env, s: Server, fd: int) returns (t: Server)
    requires Reachable(env, s) && s.main == MLoop && s.running && s.active < MAX_CLIENTS && FdFree(s, fd)
    ensures Reachable(env, t)
    ensures t == s.(active := s.active + 1, handlers := s.handlers + [Visitor(fd, Top)])
  {
    hide Reachable, HandlerNext, CasterNext;
    t := Onward(env, s, MainStep(Go));
    t := Onward(env, t, MainStep(Conn(fd)));
    t := Onward(env, t, MainStep(Go));
    t := Onward(env, t, MainStep(Go));
    t := Onward(env, t, MainStep(Go));
  }

  /** A line that is what the client built. */
  lemma BuiltLine(c: P.Command)
    requires P.WellFormed(c) && IsTrim(P.CommandText(c))
    ensures P.ParseClient(Trimmed(P.CommandText(c))) == Some(c)
  {
    P.ParseBuilt(c);
    hide P.ParseClient, P.CommandText;
  }

  /** The user can log in with this password. */
  predicate CanLogIn(env: Env, user: string, pass: string) {
    && P.WellFormed(P.Auth(user, pass)) && IsTrim(P.CommandText(P.Auth(user, pass)))
    && Verified(env.records, env.digest, user, pass)
  }

  function Checked(fd: int, pc: Pc, user: string, pass: string): Handler {
    Visitor(fd, pc).(name := user, pass := pass)
  }

  lemma AtTop(env: Env, s: Server, hd: Handler)
    requires hd.pc.Top? && s.running
    ensures HandlerAction(env, s, hd, Go) == To(hd, Recv)
  {
  }

  lemma Hears(env: Env, s: Server, hd: Handler, line: string)
    requires hd.pc.Recv?
    ensures HandlerAction(env, s, hd, Line(line)) == To(hd, Dispatch(hd, P.ParseClient(Trimmed(line))))
  {
    hide Dispatch, P.ParseClient, Trimmed;
  }

  /** It sends its AUTH line ... */
  lemma Asks(env: Env, s: Server, before: seq<Handler>, fd: int, user: string, pass: string) returns (t: Server)
    requires Reachable(env, s) && s.running && s.handlers == before + [Visitor(fd, Top)] && CanLogIn(env, user, pass)
    ensures Reachable(env, t) && t == s.(handlers := before + [Visitor(fd, AVerify(user, pass))])
  {
    var c := P.Auth(user, pass);
    BuiltLine(c);
    hide Reachable, HandlerAction, P.ParseClient, P.CommandText, P.WellFormed, Trimmed, IsTrim, Verified, CanLogIn;
    AtTop(env, s, Visitor(fd, Top));
    t := MovesLast(env, s, before, Visitor(fd, Top), Go, Recv);
    Hears(env, t, Visitor(fd, Recv), P.CommandText(c));
    t := MovesLast(env, t, before, Visitor(fd, Recv), Line(P.CommandText(c)), AVerify(user, pass));
  }

  /** ... and its password is accepted ... */
  lemma Passes(env: Env, s: Server, before: seq<Handler>, fd: int, user: string, pass: string) returns (t: Server)
    requires Reachable(env, s) && s.handlers == before + [Visitor(fd, AVerify(user, pass))] && CanLogIn(env, user, pass)
    requires ByName(s.registry, user) == None
    ensures Reachable(env, t)
    ensures t == s.(handlers := before + [Checked(fd, AAdd(user, Admin(env.records, user)), user, pass)])
  {
    assert user != "" && pass != "" && Verified(env.records, env.digest, user, pass);
    hide Reachable, MainNext, CasterNext, LoopStep, JoinStep, MsgStep, QueryStep, KickStep, LeaveStep,
         P.WellFormed, Verified, Admin, ByName, CanLogIn;
    t := ActsLast(env, s, before, Visitor(fd, AVerify(user, pass)), Go, Checked(fd, AExists(user), user, pass), Quiet);
    t := MovesLast(env, t, before, Checked(fd, AExists(user), user, pass), Go, AFlag(user));
    t := MovesLast(env, t, before, Checked(fd, AFlag(user), user, pass), Go, AAdd(user, Admin(env.records, user)));
  }

  function Online(env: Env, k: nat, fd: int, user: string, pass: string): Handler {
    Handler(fd, Top, true, user, user, pass, k, DEFAULT_ROOM, Admin(env.records, user))
  }

  function JoinOf(k: nat, user: string): Event {
    Event(Join, k, user, DEFAULT_ROOM, "", 0)
  }

  /** A thread between registration and login. */
  function Welcomed(env: Env, k: nat, fd: int, pc: Pc, user: string, pass: string): Handler {
    Handler(fd, pc, false, "", user, pass, k, DEFAULT_ROOM, Admin(env.records, user))
  }

  /** ... and it is registered ... */
  lemma Registers(env: Env, s: Server, before: seq<Handler>, fd: int, user: string, pass: string) returns (t: Server)
    requires Reachable(env, s) && AddResult(s.registry, user) == Ok
    requires s.handlers == before + [Checked(fd, AAdd(user, Admin(env.records, user)), user, pass)]
    ensures Reachable(env, t)
    ensures var k := |s.sessions|;
            t == s.(handlers := before + [Welcomed(env, k, fd, AWelcome(user), user, pass)],
                    registry := [Entry(k, fd, user, DEFAULT_ROOM, Admin(env.records, user))] + s.registry,
                    sessions := s.sessions + [|before|])
  {
    hide Reachable, MainNext, CasterNext, LoopStep, JoinStep, MsgStep, QueryStep, KickStep, LeaveStep, AddResult, Admin;
    var k, flag := |s.sessions|, Admin(env.records, user);
    t := ActsLast(env, s, before, Checked(fd, AAdd(user, flag), user, pass), Go,
                  Welcomed(env, k, fd, AWelcome(user), user, pass), Register(Entry(k, fd, user, DEFAULT_ROOM, flag)));
  }

  /** ... welcomed ... */
  lemma IsWelcomed(env: Env, s: Server, before: seq<Handler>, k: nat, fd: int, user: string, pass: string)
    returns (t: Server)
    requires Reachable(env, s) && s.handlers == before + [Welcomed(env, k, fd, AWelcome(user), user, pass)]
    requires HistoryFits(s.rooms, DEFAULT_ROOM)
    ensures Reachable(env, t) && t == s.(handlers := before + [Welcomed(env, k, fd, APush(user), user, pass)])
  {
    hide Reachable, MainNext, CasterNext, LoopStep, JoinStep, MsgStep, QueryStep, KickStep, LeaveStep, Apply,
         HistoryFits, Admin;
    t := MovesLast(env, s, before, Welcomed(env, k, fd, AWelcome(user), user, pass), Go, AJoined(user));
    t := MovesLast(env, t, before, Welcomed(env, k, fd, AJoined(user), user, pass), Go, AFormat(user));
    t := MovesLast(env, t, before, Welcomed(env, k, fd, AFormat(user), user, pass), Go, AHistory(user));
    t := MovesLast(env, t, before, Welcomed(env, k, fd, AHistory(user), user, pass), Go, AOkay(user));
    t := MovesLast(env, t, before, Welcomed(env, k, fd, AOkay(user), user, pass), Go, APush(user));
  }

  /** ... and announced. */
  lemma IsAnnounced(env: Env, s: Server, before: seq<Handler>, k: nat, fd: int, user: string, pass: string)
    returns (t: Server)
    requires Reachable(env, s) && !s.shutdown && s.handlers == before + [Welcomed(env, k, fd, APush(user), user, pass)]
    ensures Reachable(env, t)
    ensures t == s.(handlers := before + [Online(env, k, fd, user, pass)],
                    queue := s.queue + [JoinOf(k, user)], log := s.log + [JoinOf(k, user)])
  {
    hide Reachable, MainNext, CasterNext, LoopStep, JoinStep, MsgStep, QueryStep, KickStep, LeaveStep, Admin;
    t := ActsLast(env, s, before, Welcomed(env, k, fd, APush(user), user, pass), Go,
                  Online(env, k, fd, user, pass), Enqueue(JoinOf(k, user)));
  }

  /** A whole login, whatever else is going on. */
  lemma LogsIn(env: Env, s: Server, fd: int, user: string, pass: string) returns (t: Server)
    requires Reachable(env, s) && s.main == MLoop && s.running && !s.shutdown && s.active < MAX_CLIENTS && FdFree(s, fd)
    requires CanLogIn(env, user, pass) && AddResult(s.registry, user) == Ok && HistoryFits(s.rooms, DEFAULT_ROOM)
    ensures Reachable(env, t)
    ensures var k := |s.sessions|;
            t == s.(active := s.active + 1, handlers := s.handlers + [Online(env, k, fd, user, pass)],
                    registry := [Entry(k, fd, user, DEFAULT_ROOM, Admin(env.records, user))] + s.registry,
                    sessions := s.sessions + [|s.handlers|],
                    queue := s.queue + [JoinOf(k, user)], log := s.log + [JoinOf(k, user)])
  {
    assert ByName(s.registry, user) == None;
    hide Reachable, CanLogIn, FdFree, HistoryFits, Admin, ByName, AddResult;
    t := Connects(env, s, fd);
    t := Asks(env, t, s.handlers, fd, user, pass);
    t := Passes(env, t, s.handlers, fd, user, pass);
    t := Registers(env, t, s.handlers, fd, user, pass);
    t := IsWelcomed(env, t, s.handlers, |s.sessions|, fd, user, pass);
    t := IsAnnounced(env, t, s.handlers, |s.sessions|, fd, user, pass);
  }

  /** A logged-in client hangs up; its thread announces that and is about to unlink. */
  lemma HangsUp(env: Env, s: Server, g: nat, hd: Handler) returns (t: Server)
    requires Reachable(env, s) && s.running && !s.shutdown && g < |s.handlers| && s.handlers[g] == hd
    requires hd.pc.Top? && hd.auth && hd.user == hd.name != "" && ByFd(s.registry, hd.fd) == Some(NodeOf(hd))
    ensures Reachable(env, t)
    ensures var bye := Event(Leave, hd.sid, hd.user, hd.home, "", 0);
            t == s.(handlers := s.handlers[g := hd.(pc := BRemove)], queue := s.queue + [bye], log := s.log + [bye])
  {
    hide Reachable, HandlerAction, ByFd;
    AtTop(env, s, hd);
    t := Moves(env, s, g, Go, Recv);
    HearsNothing(env, t, hd);
    t := Moves(env, t, g, Fault, BRoom);
    Parting(env, t, hd);
    t := Moves(env, t, g, Go, BPush(hd.home));
    Parting(env, t, hd);
    t := Acts(env, t, g, Go, hd.(pc := BRemove), Enqueue(Event(Leave, hd.sid, hd.user, hd.home, "", 0)));
    assert t.handlers == s.handlers[g := hd.(pc := BRemove)];
  }

  lemma HearsNothing(env: Env, s: Server, hd: Handler)
    requires hd.auth && hd.user != ""
    ensures HandlerAction(env, s, hd.(pc := Recv), Fault) == To(hd.(pc := Recv), BRoom)
  {
  }

  lemma Parting(env: Env, s: Server, hd: Handler)
    requires ByFd(s.registry, hd.fd) == Some(NodeOf(hd))
    ensures HandlerAction(env, s, hd.(pc := BRoom), Go) == To(hd.(pc := BRoom), BPush(hd.home))
    ensures HandlerAction(env, s, hd.(pc := BPush(hd.home)), Go)
            == Some((hd.(pc := BRemove), Enqueue(Event(Leave, hd.sid, hd.user, hd.home, "", 0))))
  {
    hide ByFd, AuthStep, JoinStep, MsgStep, QueryStep, KickStep, LoopStep;
  }

  /** Its node is unlinked ... */
  lemma Unlinks(env: Env, s: Server, g: nat, hd: Handler) returns (t: Server)
    requires Reachable(env, s) && g < |s.handlers| && s.handlers[g] == hd && hd.pc.BRemove?
    requires ByFd(s.registry, hd.fd) == Some(NodeOf(hd))
    ensures Reachable(env, t) && t == Unlink(s, hd.fd).(handlers := s.handlers[g := hd.(pc := BFree(hd.sid))])
  {
    hide Reachable, Unlink, ByFd;
    t := Acts(env, s, g, Go, hd.(pc := BFree(hd.sid)), Unregister(hd.fd));
  }

  /** ... freed ... */
  lemma Frees(env: Env, s: Server, g: nat, hd: Handler) returns (t: Server)
    requires Reachable(env, s) && g < |s.handlers| && s.handlers[g] == hd && hd.pc == BFree(hd.sid)
    ensures Reachable(env, t)
    ensures t == s.(handlers := s.handlers[g := hd.(pc := Closing)], freed := s.freed + {hd.sid})
  {
    hide Reachable;
    t := Acts(env, s, g, Go, hd.(pc := Closing), Free(hd.sid));
  }

  /** ... and the descriptor is closed. */
  lemma Closes(env: Env, s: Server, g: nat, hd: Handler) returns (t: Server)
    requires Reachable(env, s) && g < |s.handlers| && s.handlers[g] == hd && hd.pc.Closing?
    ensures Reachable(env, t) && t == s.(handlers := s.handlers[g := hd.(pc := Counting)])
  {
    hide Reachable;
    t := Moves(env, s, g, Go, Counting);
  }

  lemma JoinFits(env: Env, k: nat, user: string)
    requires |user| < MAX_USERNAME_LEN
    ensures |EventLine(env, JoinOf(k, user))| < MAX_LINE_LEN
  {
  }

  /** The broadcaster dequeues a JOIN ... */
  lemma Dequeues(env: Env, s: Server, k: nat, user: string) returns (t: Server)
    requires Reachable(env, s) && s.running && s.caster == CTop && s.queue != [] && s.queue[0] == JoinOf(k, user)
    ensures Reachable(env, t)
    ensures t == s.(caster := CBuild(s.popped, JoinOf(k, user)), queue := s.queue[1..], popped := s.popped + 1)
  {
    hide Reachable, EventLine, HandlerNext, MainNext, Sids, NextOf, NodeAt, HolderOf;
    t := Onward(env, s, CasterStep(Go));
    t := Onward(env, t, CasterStep(Go));
  }

  /** ... and takes its snapshot of the first node. */
  lemma Snapshots(env: Env, s: Server) returns (t: Server)
    requires Reachable(env, s) && s.caster.CBuild? && s.registry != [] && s.caster.msg.kind == Join
    requires |EventLine(env, s.caster.msg)| < MAX_LINE_LEN
    ensures Reachable(env, t)
    ensures var e := s.registry[0];
            t == s.(caster := CSend(s.caster.idx, s.caster.msg, Tour(Sids(s.registry), [e.sid], [e.room], {}), e))
  {
    hide Reachable, EventLine, HandlerNext, MainNext, Sids, NextOf, NodeAt, HolderOf;
    t := Onward(env, s, CasterStep(Go));
    t := Onward(env, t, CasterStep(Go));
  }

  lemma TakesUp(env: Env, s: Server, k: nat, user: string) returns (t: Server)
    requires Reachable(env, s) && s.running && s.caster == CTop && s.queue != [] && s.queue[0] == JoinOf(k, user)
    requires |user| < MAX_USERNAME_LEN && s.registry != []
    ensures Reachable(env, t)
    ensures var e := s.registry[0];
            t == s.(caster := CSend(s.popped, JoinOf(k, user), Tour(Sids(s.registry), [e.sid], [e.room], {}), e),
                    queue := s.queue[1..], popped := s.popped + 1)
  {
    JoinFits(env, k, user);
    hide Reachable, EventLine, Sids;
    t := Dequeues(env, s, k, user);
    t := Snapshots(env, t);
  }

  /** It sends the line. */
  lemma Sends(env: Env, s: Server) returns (t: Server)
    requires Reachable(env, s) && s.caster.CSend? && s.caster.snap.room == s.caster.msg.room
    ensures Reachable(env, t)
    ensures t == s.(caster := CNext(s.caster.idx, s.caster.msg, s.caster.tour), sent := s.sent + [Sending(s)])
  {
    hide Reachable, HolderOf, HandlerNext, MainNext;
    t := Onward(env, s, CasterStep(Go));
  }

  /** It goes on to the next node. */
  lemma GoesOn(env: Env, s: Server) returns (t: Server)
    requires Reachable(env, s) && s.caster.CNext?
    ensures Reachable(env, t) && CasterNext(env, s, Go) == Some(t)
  {
    hide Reachable, HandlerNext, MainNext;
    t := Onward(env, s, CasterStep(Go));
  }

  lemma LobbyFits()
    ensures HistoryFits(INIT.rooms, DEFAULT_ROOM)
  {
  }

  ghost predicate OneUser(env: Env) {
    CanLogIn(env, "a", "p")
  }

  /** One client is logged in. */
  lemma One(env: Env) returns (s: Server)
    requires OneUser(env)
    ensures Reachable(env, s)
    ensures s == INIT.(active := 1, handlers := [Online(env, 0, 5, "a", "p")],
                       registry := [NodeOf(Online(env, 0, 5, "a", "p"))], sessions := [0],
                       queue := [JoinOf(0, "a")], log := [JoinOf(0, "a")])
  {
    Start(env);
    LobbyFits();
    hide Reachable, HistoryFits, CanLogIn, Admin;
    s := LogsIn(env, INIT, 5, "a", "p");
  }

  function AtFirst(): Tour {
    Tour([0], [0], [DEFAULT_ROOM], {})
  }

  /** Its own JOIN line is about to be sent to it. */
  lemma Greeted(env: Env) returns (s: Server)
    requires OneUser(env)
    ensures Reachable(env, s)
    ensures s == INIT.(active := 1, handlers := [Online(env, 0, 5, "a", "p")],
                       registry := [NodeOf(Online(env, 0, 5, "a", "p"))], sessions := [0],
                       caster := CSend(0, JoinOf(0, "a"), AtFirst(), NodeOf(Online(env, 0, 5, "a", "p"))),
                       popped := 1, log := [JoinOf(0, "a")])
  {
    hide Reachable, OneUser, Admin;
    s := One(env);
    assert Sids(s.registry) == [0];
    s := TakesUp(env, s, 0, "a");
  }

  /** The client leaves: its node is unlinked and has no link, but is not yet freed. */
  lemma Leaves(env: Env, s: Server) returns (t: Server)
    requires Reachable(env, s) && s.running && !s.shutdown && s.handlers == [Online(env, 0, 5, "a", "p")]
    requires s.registry == [NodeOf(Online(env, 0, 5, "a", "p"))] && s.unlinked == map[] && s.freed == {}
    requires Touring(s.caster) && s.caster.tour == AtFirst()
    ensures Reachable(env, t) && t.handlers == [Online(env, 0, 5, "a", "p").(pc := BFree(0))]
    ensures t.registry == [] && t.freed == {} && 0 in t.unlinked && NextOf(t, 0) == None
    ensures t.caster == s.caster && t.sent == s.sent && t.sessions == s.sessions && t.main == s.main
    ensures t.running == s.running && t.active == s.active
  {
    var hd := Online(env, 0, 5, "a", "p");
    assert ByFd(s.registry, 5) == Some(NodeOf(hd));
    hide Reachable, Admin;
    t := HangsUp(env, s, 0, hd);
    AloneUnlinked(t, NodeOf(hd));
    hide Unlink, ByFd, NextOf;
    t := Unlinks(env, t, 0, hd.(pc := BRemove));
  }

  lemma AloneUnlinked(s: Server, e: Entry)
    requires s.registry == [e] && e.sid == 0 && s.unlinked == map[] && Touring(s.caster) && s.caster.tour == AtFirst()
    ensures var t := Unlink(s, e.fd);
            && t.registry == [] && t.unlinked == map[0 := Loose(e, None)] && t.caster == s.caster
            && t == s.(registry := t.registry, unlinked := t.unlinked)
    ensures forall t: Server :: t.registry == [] && t.unlinked == map[0 := Loose(e, None)] ==> NextOf(t, 0) == None
  {
    assert Sids([e]) == [0];
  }

  /** One user in the database and one client are enough for the broadcaster to read a
      freed node. */
  lemma StrayHappens(env: Env) returns (s: Server)
    requires OneUser(env)
    ensures Reachable(env, s) && s.caster.CStray?
  {
    hide Reachable, OneUser, HolderOf, NextOf, Admin;
    s := Greeted(env);
    s := Sends(env, s);
    s := Leaves(env, s);
    s := Frees(env, s, 0, s.handlers[0]);
    s := GoesOn(env, s);
  }

  /** If the thread is held up before the free, the broadcaster follows the link of the
      unlinked node and ends the traversal as usual. */
  lemma UnlinkedStepsOn(env: Env) returns (s: Server, t: Server)
    requires OneUser(env)
    ensures Reachable(env, s) && s.caster.CNext? && Cursor(s.caster.tour) in s.unlinked
    ensures CasterNext(env, s, Go) == Some(t) && Reachable(env, t) && t.caster.CTop?
  {
    hide Reachable, OneUser, HolderOf, NextOf, Admin;
    s := Greeted(env);
    s := Sends(env, s);
    s := Leaves(env, s);
    t := GoesOn(env, s);
  }

  /** The client leaves before the send and somebody else gets its descriptor: the line
      goes to a connection that is not that of its session. */
  lemma MisdirectedHappens(env: Env) returns (s: Server)
    requires OneUser(env)
    ensures Reachable(env, s) && |s.sent| == 1 && s.sessions == [0]
    ensures s.sent[0].sid == 0 && s.sent[0].to == Some(1)
  {
    hide Reachable, OneUser, NextOf, Admin;
    s := Greeted(env);
    s := Leaves(env, s);
    s := Frees(env, s, 0, s.handlers[0]);
    s := Closes(env, s, 0, s.handlers[0]);
    s := Connects(env, s, 5);
    s := Sends(env, s);
  }

  ghost predicate TwoUsers(env: Env) {
    CanLogIn(env, "a", "p") && CanLogIn(env, "b", "p")
  }

  /** Two clients are logged in. */
  lemma Two(env: Env) returns (s: Server)
    requires TwoUsers(env)
    ensures Reachable(env, s)
    ensures var a, b := Online(env, 0, 5, "a", "p"), Online(env, 1, 6, "b", "p");
            s == INIT.(active := 2, handlers := [a, b], registry := [NodeOf(b), NodeOf(a)], sessions := [0, 1],
                       queue := [JoinOf(0, "a"), JoinOf(1, "b")], log := [JoinOf(0, "a"), JoinOf(1, "b")])
  {
    hide Reachable, HistoryFits, CanLogIn, Admin;
    s := One(env);
    LobbyFits();
    s := LogsIn(env, s, 6, "b", "p");
  }

  /** The first JOIN line has gone to the newer client. */
  lemma NewerGreeted(env: Env) returns (s: Server)
    requires TwoUsers(env)
    ensures Reachable(env, s) && s.running && !s.shutdown && s.unlinked == map[] && s.freed == {}
    ensures var a, b := Online(env, 0, 5, "a", "p"), Online(env, 1, 6, "b", "p");
            s.handlers == [a, b] && s.registry == [NodeOf(b), NodeOf(a)]
    ensures s.caster == CNext(0, JoinOf(0, "a"), AtSecond())
  {
    hide Reachable, TwoUsers, HolderOf, Admin, HandlerAction;
    s := Two(env);
    BothListed(s.handlers[0], s.handlers[1]);
    s := TakesUp(env, s, 0, "a");
    s := Sends(env, s);
  }

  /** The older client's node is unlinked after the newer one's, under the cursor: the
      broadcaster visits it although it was removed ahead of it and nobody is listed. */
  lemma VisitsUnlisted(env: Env) returns (s: Server)
    requires TwoUsers(env)
    ensures Reachable(env, s) && s.caster.CSend? && s.caster.snap.sid == 0 && s.registry == []
  {
    hide Reachable, TwoUsers, HolderOf, Admin, Unlink, HandlerAction;
    s := NewerGreeted(env);
    var a, b := s.handlers[0], s.handlers[1];
    BothListed(a, b);
    hide ByFd, Sids;
    s := HangsUp(env, s, 1, b);
    BothUnlinked(s, a, b);
    s := Unlinks(env, s, 1, b.(pc := BRemove));
    s := HangsUp(env, s, 0, a);
    BothUnlinked(s, a, b);
    s := Unlinks(env, s, 0, a.(pc := BRemove));
    BothUnlinked(s, a, b);
    s := GoesOn(env, s);
  }

  lemma BothListed(a: Handler, b: Handler)
    requires a.sid == 0 && b.sid == 1 && a.fd == 5 && b.fd == 6
    ensures var both := [NodeOf(b), NodeOf(a)];
            && Sids(both) == [1, 0] && ByFd(both, 5) == Some(NodeOf(a)) && ByFd(both, 6) == Some(NodeOf(b))
            && ByFd([NodeOf(a)], 5) == Some(NodeOf(a)) && ByName(both, b.name) == Some(NodeOf(b))
  {
    var both := [NodeOf(b), NodeOf(a)];
    assert both[1..] == [NodeOf(a)] && both[0].username == b.name;
    assert PosOfName(both, b.name) == 0 && PosOfFd(both, 6) == 0 && PosOfFd(both, 5) == 1;
    assert PosOfFd([NodeOf(a)], 5) == 0;
    assert Sids(both) == [1, 0];
  }

  function AtSecond(): Tour {
    Tour([1, 0], [1], [DEFAULT_ROOM], {})
  }

  /** The three states of the list while both leave, newer client first. */
  lemma BothUnlinked(s: Server, a: Handler, b: Handler)
    requires a.sid == 0 && b.sid == 1 && a.fd == 5 && b.fd == 6
    requires Touring(s.caster) && s.caster.tour == AtSecond()
    ensures s.registry == [NodeOf(b), NodeOf(a)] && s.unlinked == map[] ==>
              var t := Unlink(s, 6);
              t == s.(registry := [NodeOf(a)], unlinked := map[1 := Loose(NodeOf(b), Some(0))])
    ensures s.registry == [NodeOf(a)] && s.unlinked == map[1 := Loose(NodeOf(b), Some(0))] ==>
              var t := Unlink(s, 5);
              t == s.(registry := [], unlinked := map[1 := Loose(NodeOf(b), Some(0)), 0 := Loose(NodeOf(a), None)])
    ensures s.registry == [] && s.unlinked == map[1 := Loose(NodeOf(b), Some(0)), 0 := Loose(NodeOf(a), None)] ==>
              NextOf(s, 1) == Some(0) && NodeAt(s, 0) == Some(NodeOf(a))
  {
  }

  /** The first client sends a private message to the second, which leaves between lookup
      and send; the next client gets its descriptor, and the message. */
  lemma StrangerHappens(env: Env) returns (s: Server)
    requires TwoUsers(env)
    ensures Reachable(env, s) && |s.handlers| == 3 && s.sessions == [0, 1]
    ensures PeerOf(s.handlers[0].pc) == Some(Peer("b", 6, 1)) && HolderOf(s.handlers, 6) == Some(2)
  {
    hide Reachable, TwoUsers, Admin, HandlerAction, HolderOf;
    s := Two(env);
    var a, b := Online(env, 0, 5, "a", "p"), Online(env, 1, 6, "b", "p");
    BothListed(a, b);
    s := LooksUp(env, s, a, b);
    s := SecondLeaves(env, s, a.(pc := PSend("b", "a", "hi", 6, 1)), b);
    s := Connects(env, s, 6);
    NewcomerHolds(s.handlers[0], s.handlers[1]);
  }

  lemma NewcomerHolds(a: Handler, b: Handler)
    requires b.pc.Counting?
    ensures HolderOf([a, b] + [Visitor(6, Top)], 6) == Some(2)
  {
    assert ([a, b] + [Visitor(6, Top)])[2] == Visitor(6, Top);
  }

  lemma SecondLeaves(env: Env, s: Server, a: Handler, b: Handler) returns (t: Server)
    requires Reachable(env, s) && s.handlers == [a, b] && b == Online(env, 1, 6, "b", "p") && a.fd == 5 && a.sid == 0
    requires s.registry == [NodeOf(b), NodeOf(a)] && s.running && !s.shutdown
    ensures Reachable(env, t) && t.handlers == [a, b.(pc := Counting)]
    ensures t.sessions == s.sessions && t.main == s.main && t.running == s.running && t.active == s.active
  {
    BothListed(a, b);
    hide Reachable, Admin, HandlerAction, ByFd, Sids;
    t := HangsUp(env, s, 1, b);
    t := SecondUnlists(env, t, a, b);
    t := Frees(env, t, 1, b.(pc := BFree(1)));
    t := Closes(env, t, 1, b.(pc := Closing));
    assert t.handlers == [a, b.(pc := Counting)];
  }

  lemma SecondUnlists(env: Env, s: Server, a: Handler, b: Handler) returns (t: Server)
    requires Reachable(env, s) && s.handlers == [a, b.(pc := BRemove)] && b.fd == 6 && b.sid == 1
    requires ByFd(s.registry, 6) == Some(NodeOf(b))
    ensures Reachable(env, t) && t.handlers == [a, b.(pc := BFree(1))]
    ensures t.sessions == s.sessions && t.main == s.main && t.running == s.running && t.active == s.active
  {
    UnlinkHandlers(s, 6);
    hide Reachable, Unlink, HandlerAction, ByFd;
    t := Unlinks(env, s, 1, b.(pc := BRemove));
  }

  lemma UnlinkHandlers(s: Server, fd: int)
    ensures var t := Unlink(s, fd);
            && t.handlers == s.handlers && t.sessions == s.sessions && t.main == s.main && t.running == s.running
            && t.active == s.active && t.shutdown == s.shutdown
  {
    hide Removed, Loosened, Bypass;
  }

  lemma PmLine()
    ensures P.ParseClient(Trimmed(P.CommandText(P.Pm("b", "hi")))) == Some(P.Pm("b", "hi"))
  {
    L.TrimTail("b ", "hi");
    L.TrimTail(" ", "b " + "hi");
    L.TrimTail("PM", " " + ("b " + "hi"));
    assert P.CommandText(P.Pm("b", "hi")) == "PM" + (" " + ("b " + "hi"));
    BuiltLine(P.Pm("b", "hi"));
  }

  /** "PM b hi" up to the lookup. */
  lemma LooksUp(env: Env, s: Server, a: Handler, b: Handler) returns (t: Server)
    requires Reachable(env, s) && s.running && s.handlers == [a, b] && a.pc.Top? && a.auth
    requires a.fd == 5 && b.fd == 6 && a.name == "a" && b.name == "b" && b.sid == 1
    requires ByFd(s.registry, 5) == Some(NodeOf(a)) && ByName(s.registry, "b") == Some(NodeOf(b))
    ensures Reachable(env, t) && t == s.(handlers := [a.(pc := PSend("b", "a", "hi", 6, 1)), b])
  {
    var pm := P.Pm("b", "hi");
    PmLine();
    hide Reachable, HandlerAction, ByFd, ByName, P.ParseClient, P.CommandText, Trimmed, NodeOf;
    AtTop(env, s, a);
    t := Moves(env, s, 0, Go, Recv);
    Hears(env, t, a.(pc := Recv), P.CommandText(pm));
    t := Moves(env, t, 0, Line(P.CommandText(pm)), PName("b", "hi"));
    assert t.handlers == [a.(pc := PName("b", "hi")), b];
    t := FindsTarget(env, t, a, b);
  }

  lemma FindsTarget(env: Env, s: Server, a: Handler, b: Handler) returns (t: Server)
    requires Reachable(env, s) && s.handlers == [a.(pc := PName("b", "hi")), b]
    requires a.fd == 5 && b.fd == 6 && a.name == "a" && b.name == "b" && b.sid == 1
    requires ByFd(s.registry, 5) == Some(NodeOf(a)) && ByName(s.registry, "b") == Some(NodeOf(b))
    ensures Reachable(env, t) && t == s.(handlers := [a.(pc := PSend("b", "a", "hi", 6, 1)), b])
  {
    hide Reachable, HandlerAction, ByFd, ByName;
    Asking(env, s, a, b);
    t := Moves(env, s, 0, Go, PLookup("b", "a", "hi"));
    Asking(env, t, a, b);
    t := Moves(env, t, 0, Go, PSend("b", "a", "hi", 6, 1));
    assert t.handlers == [a.(pc := PSend("b", "a", "hi", 6, 1)), b];
  }

  lemma Asking(env: Env, s: Server, a: Handler, b: Handler)
    requires a.fd == 5 && b.fd == 6 && a.name == "a" && b.name == "b" && b.sid == 1
    requires ByFd(s.registry, 5) == Some(NodeOf(a)) && ByName(s.registry, "b") == Some(NodeOf(b))
    ensures var hd := a.(pc := PName("b", "hi"));
            HandlerAction(env, s, hd, Go) == To(hd, PLookup("b", "a", "hi"))
    ensures var hd := a.(pc := PLookup("b", "a", "hi"));
            HandlerAction(env, s, hd, Go) == To(hd, PSend("b", "a", "hi", 6, 1))
  {
    hide ByFd, ByName;
  }
}
