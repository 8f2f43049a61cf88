/** The whole invariant of the running server and its proof for every run. */
module ServerInvariant {
  import opened Common
  import opened Registry
  import opened ServerState
  import opened Handlers
  import opened ServerSteps
  import opened Legality
  import opened Connections
  import opened Heap
  import opened Sessions
  import opened Broadcast
  import opened HistoryAgreement
  import opened Identity
  import opened Deliveries
  import opened Peers

  predicate Stopping(m: Main) {
    m.MListener? || m.MSignal? || m.MSentinel? || m.MWait? || m.MDone?
  }

  /** The order of the shutdown sequence, and the last event dequeued after it began. */
  ghost predicate StopOk(s: Server) {
    && (s.shutdown <==> s.main.MSentinel? || s.main.MWait? || s.main.MDone?)
    && (Stopping(s.main) ==> !s.running)
    && s.late <= 1 && (s.running ==> s.late == 0) && (s.caster.CPop? ==> s.late == 0)
    && (s.main.MDone? ==> s.caster.CExit?)
  }

  ghost predicate Inv(env: Env, s: Server) {
    && Connected(env, s)
    && HeapOk(s)
    && SessionsOk(s)
    && BroadcastOk(s)
    && HistoryOk(env, s)
    && IdentityOk(env, s)
    && DeliveriesOk(s)
    && StopOk(s)
    && PeersOk(s)
  }

  lemma StopHandler(env: Env, s: Server, h: nat, hd': Handler, eff: Effect)
    requires StopOk(s) && h < |s.handlers|
    ensures StopOk(Apply(env, s, h, eff).(handlers := s.handlers[h := hd']))
  {
    TourCarried(env, s, h, eff);
    hide Removed, Moved, Remembered, Loosened, Bypass;
  }

  lemma InvHandler(env: Env, s: Server, h: nat, c: Choice)
    requires Inv(env, s) && HandlerNext(env, s, h, c).Some?
    ensures Inv(env, HandlerNext(env, s, h, c).value)
  {
    hide HandlerAction, Apply, Locals, Counted, Fds, Nodes, HeapOk, SessionsOk, BroadcastOk, HistoryOk, IdentityOk,
         DeliveriesOk, StopOk, PeersOk, Legal, LocalOk, OwnsNode;
    var (hd', eff) := HandlerAction(env, s, s.handlers[h], c).value;
    assert LocalOk(env, s.handlers[h]) by { LocalOf(env, s, h); }
    OwnNode(s, h);
    ActionLegal(env, s, s.handlers[h], c);
    ConnectedHandler(env, s, h, hd', eff);
    HeapHandler(env, s, h, hd', eff);
    SessionsHandler(env, s, h, hd', eff);
    BroadcastHandler(env, s, h, hd', eff);
    HistoryHandler(env, s, h, hd', eff);
    IdentityHandler(env, s, h, hd', eff);
    DeliveriesHandler(env, s, h, hd', eff);
    StopHandler(env, s, h, hd', eff);
    PeersHandler(env, s, h, hd', eff);
  }

  lemma LocalOf(env: Env, s: Server, h: nat)
    requires Locals(env, s) && h < |s.handlers|
    ensures LocalOk(env, s.handlers[h])
  {
  }

  lemma MainWrites(s: Server, c: Choice)
    requires StopOk(s) && MainNext(s, c).Some?
    ensures var s' := MainNext(s, c).value;
            && s'.log == s.log && s'.queue == s.queue && s'.popped == s.popped && s'.caster == s.caster
            && s'.sent == s.sent && s'.adds == s.adds && s'.rooms == s.rooms && s'.kicks == s.kicks
  {
    hide FdFree;
  }

  lemma MainNodes(s: Server, c: Choice)
    requires MainNext(s, c).Some?
    ensures var s' := MainNext(s, c).value;
            s'.registry == s.registry && s'.unlinked == s.unlinked && s'.freed == s.freed
  {
    hide FdFree;
  }

  lemma MainKeeps(s: Server, c: Choice)
    requires MainNext(s, c).Some?
    ensures MainNext(s, c).value.sessions == s.sessions && (s.shutdown ==> MainNext(s, c).value.shutdown)
  {
    hide FdFree;
  }

  lemma MainThreads(s: Server, c: Choice)
    requires MainNext(s, c).Some?
    ensures var s' := MainNext(s, c).value;
            && |s.handlers| <= |s'.handlers| && s'.handlers[..|s.handlers|] == s.handlers
            && (forall g :: |s.handlers| <= g < |s'.handlers| ==> s'.handlers[g].pc.Top? && !Registered(s'.handlers[g]))
  {
    hide FdFree;
  }

  /** The main thread changes neither queue nor registry nor history: its sentinel
      comes after the shutdown flag and is refused. */
  lemma MainQuiet(s: Server, c: Choice)
    requires StopOk(s) && MainNext(s, c).Some?
    ensures var s' := MainNext(s, c).value;
            && s'.log == s.log && s'.queue == s.queue && s'.popped == s.popped && s'.caster == s.caster
            && s'.sent == s.sent && s'.adds == s.adds && s'.rooms == s.rooms && s'.kicks == s.kicks
            && s'.registry == s.registry && s'.unlinked == s.unlinked && s'.freed == s.freed
            && s'.sessions == s.sessions && (s.shutdown ==> s'.shutdown)
            && |s.handlers| <= |s'.handlers| && s'.handlers[..|s.handlers|] == s.handlers
            && (forall g :: |s.handlers| <= g < |s'.handlers| ==> s'.handlers[g].pc.Top? && !Registered(s'.handlers[g]))
  {
    hide MainNext;
    MainWrites(s, c);
    MainNodes(s, c);
    MainKeeps(s, c);
    MainThreads(s, c);
  }

  lemma StopMain(s: Server, c: Choice)
    requires StopOk(s) && MainNext(s, c).Some?
    ensures StopOk(MainNext(s, c).value)
  {
    hide FdFree;
  }

  lemma InvMain(env: Env, s: Server, c: Choice)
    requires Inv(env, s) && MainNext(s, c).Some?
    ensures Inv(env, MainNext(s, c).value)
  {
    hide MainNext, Locals, Counted, Fds, Nodes, HeapOk, LogOk, LastsOk, QueueOk, CasterOk, SentOk, IdentityOk,
         DeliveriesOk, StopOk, PeersOk, InFlight, Registered;
    var s' := MainNext(s, c).value;
    ConnectedMain(env, s, c);
    MainQuiet(s, c);
    HeapOther(s, s');
    SessionsOther(s, s');
    BroadcastSteady(s, s');
    assert forall g :: 0 <= g < |s.handlers| ==> s'.handlers[g] == s.handlers[g];
    HistorySteady(env, s, s');
    IdentityOther(env, s, s');
    DeliveriesOther(s, s');
    StopMain(s, c);
    PeersOther(s, s');
  }

  lemma CasterWrites(env: Env, s: Server, c: Choice)
    requires CasterNext(env, s, c).Some?
    ensures var s' := CasterNext(env, s, c).value;
            s'.log == s.log && s'.adds == s.adds && s'.rooms == s.rooms && s'.kicks == s.kicks
  {
    hide EventLine, NextOf, NodeAt, Sids, Cursor, HolderOf;
  }

  lemma CasterFlags(env: Env, s: Server, c: Choice)
    requires CasterNext(env, s, c).Some?
    ensures var s' := CasterNext(env, s, c).value;
            s'.shutdown == s.shutdown && s'.active == s.active && s'.main == s.main && s'.running == s.running
  {
    hide EventLine, NextOf, NodeAt, Sids, Cursor, HolderOf;
  }

  lemma CasterQuiet(env: Env, s: Server, c: Choice)
    requires CasterNext(env, s, c).Some?
    ensures var s' := CasterNext(env, s, c).value;
            && s'.log == s.log && s'.adds == s.adds && s'.rooms == s.rooms && s'.kicks == s.kicks
            && s'.registry == s.registry && s'.unlinked == s.unlinked && s'.freed == s.freed
            && s'.sessions == s.sessions && s'.handlers == s.handlers
            && s'.shutdown == s.shutdown && s'.active == s.active && s'.main == s.main && s'.running == s.running
  {
    CasterKeeps(env, s, c);
    CasterWrites(env, s, c);
    CasterFlags(env, s, c);
    hide CasterNext;
  }

  lemma StopCaster(env: Env, s: Server, c: Choice)
    requires StopOk(s) && CasterNext(env, s, c).Some?
    ensures StopOk(CasterNext(env, s, c).value)
  {
    hide EventLine, NextOf, NodeAt, Sids, Cursor, HolderOf;
  }

  lemma InvCaster(env: Env, s: Server, c: Choice)
    requires Inv(env, s) && CasterNext(env, s, c).Some?
    ensures Inv(env, CasterNext(env, s, c).value)
  {
    hide CasterNext, Locals, Counted, Fds, Nodes, HeapOk, LogOk, LastsOk, QueueOk, CasterOk, SentOk, IdentityOk,
         DeliveriesOk, StopOk, PeersOk, InFlight, Registered;
    var s' := CasterNext(env, s, c).value;
    CasterQuiet(env, s, c);
    ConnectedOther(env, s, s');
    HeapOther(s, s');
    SessionsOther(s, s');
    BroadcastCaster(env, s, c);
    HistorySteady(env, s, s');
    IdentityOther(env, s, s');
    DeliveriesCaster(env, s, c);
    StopCaster(env, s, c);
    PeersOther(s, s');
  }

  lemma InvSignal(env: Env, s: Server)
    requires Inv(env, s)
    ensures Inv(env, s.(running := false))
  {
    hide Locals, Counted, Fds, Nodes, HeapOk, LogOk, LastsOk, InFlight, Registered, QueueOk, CasterOk, SentOk,
         IdentityOk, DeliveriesOk, PeersOk;
    var s' := s.(running := false);
    ConnectedOther(env, s, s');
    HeapOther(s, s');
    SessionsOther(s, s');
    BroadcastSteady(s, s');
    HistorySteady(env, s, s');
    IdentityOther(env, s, s');
    DeliveriesOther(s, s');
    PeersOther(s, s');
  }

  lemma InvInit(env: Env)
    ensures Inv(env, INIT)
  {
    ConnectedInit(env);
    HistoryInit(env);
  }

  lemma InvNext(env: Env, s: Server, step: Step)
    requires Inv(env, s) && Next(env, s, step).Some?
    ensures Inv(env, Next(env, s, step).value)
  {
    hide Inv, HandlerNext, MainNext, CasterNext;
    match step
    case HandlerStep(h, c) => InvHandler(env, s, h, c);
    case MainStep(c) => InvMain(env, s, c);
    case CasterStep(c) => InvCaster(env, s, c);
    case Signal => InvSignal(env, s);
  }

  /** The invariant holds after every run, whatever the interleaving. */
  lemma {:induction false} InvExec(env: Env, steps: seq<Step>)
    ensures Exec(env, steps).Some? ==> Inv(env, Exec(env, steps).value)
  {
    hide Inv, Next;
    if steps == [] {
      InvInit(env);
    } else {
      var n := |steps| - 1;
      InvExec(env, steps[..n]);
      if Exec(env, steps).Some? {
        InvNext(env, Exec(env, steps[..n]).value, steps[n]);
      }
    }
  }

  lemma InvReachable(env: Env, s: Server)
    requires Reachable(env, s)
    ensures Inv(env, s)
  {
    hide Inv;
    var steps :| Exec(env, steps) == Some(s);
    InvExec(env, steps);
  }
}
