/** Passwords over whole runs: what is in registry, log, histories and kick record goes
    back to an AUTH line that the session's own thread was given, and a connection that
    never had its password accepted leaves no trace. */
module Logins {
  import opened Common
  import P = Protocol
  import opened Auth
  import opened Registry
  import opened ServerState
  import opened Handlers
  import opened ServerSteps
  import opened Connections
  import opened Sessions
  import opened Broadcast
  import opened HistoryAgreement
  import opened Identity
  import opened Deliveries
  import opened Peers
  import opened ServerInvariant
  import opened ServerTheorems

  /** At step i of the run the thread, waiting for a line, was given this one. */
  ghost predicate Heard(env: Env, steps: seq<Step>, i: nat, h: nat, line: string) {
    && i < |steps| && steps[i] == HandlerStep(h, Line(line))
    && var t := Exec(env, steps[..i]);
       t.Some? && h < |t.value.handlers| && t.value.handlers[h].pc.Recv?
  }

  predicate Asks(line: string, user: string, pass: string) {
    P.ParseClient(Trimmed(line)) == Some(P.Auth(user, pass))
  }

  /** The thread was given an AUTH line with this name and password. */
  ghost predicate Presented(env: Env, steps: seq<Step>, h: nat, user: string, pass: string) {
    exists i: nat, line :: Heard(env, steps, i, h, line) && Asks(line, user, pass)
  }

  lemma PresentedLater(env: Env, steps: seq<Step>, n: nat, h: nat, user: string, pass: string)
    requires n <= |steps| && Presented(env, steps[..n], h, user, pass)
    ensures Presented(env, steps, h, user, pass)
  {
    hide Asks, Exec;
    var i: nat, line :| Heard(env, steps[..n], i, h, line) && Asks(line, user, pass);
    assert steps[..n][..i] == steps[..i];
    assert Heard(env, steps, i, h, line);
  }

  /** The name a thread works under, and the one it is about to check, were presented. */
  ghost predicate LoginOk(env: Env, steps: seq<Step>, h: nat, hd: Handler) {
    && (hd.pc.AVerify? ==> Presented(env, steps, h, hd.pc.user, hd.pc.password))
    && (hd.name != "" ==> Presented(env, steps, h, hd.name, hd.pass))
  }

  /** Where names come from in one step of a thread. */
  predicate LoginMove(hd: Handler, c: Choice, hd': Handler) {
    && (hd'.pc.AVerify? ==> hd.pc.Recv? && c.Line? && Asks(c.line, hd'.pc.user, hd'.pc.password))
    && (if hd'.pc.AExists? && hd.pc.AVerify? then hd'.name == hd.pc.user && hd'.pass == hd.pc.password
        else hd'.name == hd.name && hd'.pass == hd.pass)
  }

  lemma DispatchAsks(hd: Handler, line: string)
    ensures var pc := Dispatch(hd, P.ParseClient(Trimmed(line)));
            && !pc.AExists? && (pc.AVerify? ==> Asks(line, pc.user, pc.password))
  {
    hide P.ParseClient, Trimmed;
  }

  lemma LoopLogin(s: Server, hd: Handler, c: Choice)
    requires LoopStep(s, hd, c).Some? && !AuthPc(hd.pc)
    ensures LoginMove(hd, c, LoopStep(s, hd, c).value.0)
  {
    if c.Line? {
      DispatchAsks(hd, c.line);
    }
    hide Dispatch, Asks;
  }

  lemma AuthLogin(env: Env, s: Server, hd: Handler, c: Choice)
    requires AuthStep(env, s, hd, c).Some?
    ensures LoginMove(hd, c, AuthStep(env, s, hd, c).value.0)
  {
    hide ByName, HistoryFits, AddResult, Verified, Admin, Asks;
  }

  lemma TalkLogin(s: Server, hd: Handler, c: Choice)
    requires !AuthPc(hd.pc)
    ensures JoinStep(s, hd, c).Some? ==> LoginMove(hd, c, JoinStep(s, hd, c).value.0)
    ensures MsgStep(s, hd, c).Some? ==> LoginMove(hd, c, MsgStep(s, hd, c).value.0)
  {
    hide ByFd, HistoryFits, Asks;
  }

  lemma AskLogin(s: Server, hd: Handler, c: Choice)
    requires !AuthPc(hd.pc)
    ensures QueryStep(s, hd, c).Some? ==> LoginMove(hd, c, QueryStep(s, hd, c).value.0)
    ensures KickStep(s, hd, c).Some? ==> LoginMove(hd, c, KickStep(s, hd, c).value.0)
  {
    hide ByFd, ByName, HistoryFits, Asks;
  }

  lemma LeaveLogin(s: Server, hd: Handler, c: Choice)
    requires !AuthPc(hd.pc)
    ensures LeaveStep(s, hd).Some? ==> LoginMove(hd, c, LeaveStep(s, hd).value.0)
  {
    hide ByFd, Asks;
  }

  lemma ActionLogin(env: Env, s: Server, hd: Handler, c: Choice)
    requires HandlerAction(env, s, hd, c).Some?
    ensures LoginMove(hd, c, HandlerAction(env, s, hd, c).value.0)
  {
    hide LoginMove, LoopStep, AuthStep, JoinStep, MsgStep, QueryStep, KickStep, LeaveStep;
    if AuthPc(hd.pc) {
      AuthLogin(env, s, hd, c);
    } else {
      if JoinPc(hd.pc) || MsgPc(hd.pc) { TalkLogin(s, hd, c); }
      else if QueryPc(hd.pc) || KickPc(hd.pc) { AskLogin(s, hd, c); }
      else if LeavePc(hd.pc) || EndPc(hd.pc) { LeaveLogin(s, hd, c); }
      else { LoopLogin(s, hd, c); }
    }
  }

  lemma StepLogin(env: Env, t: Server, step: Step, h: nat)
    requires Next(env, t, step).Some? && h < |Next(env, t, step).value.handlers|
    ensures var hd' := Next(env, t, step).value.handlers[h];
            || (h < |t.handlers| && hd' == t.handlers[h])
            || (|t.handlers| <= h && hd'.name == "" && hd'.pc.Top?)
            || (step.HandlerStep? && step.h == h < |t.handlers| && LoginMove(t.handlers[h], step.c, hd'))
  {
    hide LoginMove, HandlerNext, MainNext, CasterNext, HandlerAction;
    match step
    case HandlerStep(g, c) =>
      ActionHandlers(env, t, g, c);
      ActionLogin(env, t, t.handlers[g], c);
    case MainStep(c) => MainHandlers(t, c, h);
    case CasterStep(c) => CasterKeeps(env, t, c);
    case Signal =>
  }

  lemma MainHandlers(s: Server, c: Choice, h: nat)
    requires MainNext(s, c).Some? && h < |MainNext(s, c).value.handlers|
    ensures var hd' := MainNext(s, c).value.handlers[h];
            if h < |s.handlers| then hd' == s.handlers[h] else hd'.name == "" && hd'.pc.Top?
  {
    hide FdFree;
  }

  lemma ActionHandlers(env: Env, s: Server, h: nat, c: Choice)
    requires HandlerNext(env, s, h, c).Some?
    ensures h < |s.handlers| && HandlerAction(env, s, s.handlers[h], c).Some?
    ensures HandlerNext(env, s, h, c).value.handlers
            == s.handlers[h := HandlerAction(env, s, s.handlers[h], c).value.0]
  {
    hide HandlerAction;
  }

  lemma LoginStep(env: Env, steps: seq<Step>, t: Server, h: nat)
    requires steps != [] && Exec(env, steps[..|steps| - 1]) == Some(t)
    requires Exec(env, steps).Some? && h < |Exec(env, steps).value.handlers|
    requires h < |t.handlers| ==> LoginOk(env, steps[..|steps| - 1], h, t.handlers[h])
    ensures LoginOk(env, steps, h, Exec(env, steps).value.handlers[h])
  {
    var n := |steps| - 1;
    var step, hd' := steps[n], Exec(env, steps).value.handlers[h];
    StepLogin(env, t, step, h);
    hide Next, Asks, Presented;
    if h < |t.handlers| {
      var hd := t.handlers[h];
      if hd.pc.AVerify? { PresentedLater(env, steps, n, h, hd.pc.user, hd.pc.password); }
      if hd.name != "" { PresentedLater(env, steps, n, h, hd.name, hd.pass); }
      if hd'.pc.AVerify? && hd' != hd {
        PresentedNow(env, steps, t, h, step.c.line, hd'.pc.user, hd'.pc.password);
      }
    }
  }

  lemma PresentedNow(env: Env, steps: seq<Step>, t: Server, h: nat, line: string, user: string, pass: string)
    requires steps != [] && Exec(env, steps[..|steps| - 1]) == Some(t) && h < |t.handlers| && t.handlers[h].pc.Recv?
    requires steps[|steps| - 1] == HandlerStep(h, Line(line)) && Asks(line, user, pass)
    ensures Presented(env, steps, h, user, pass)
  {
    hide Asks;
    assert Heard(env, steps, |steps| - 1, h, line);
  }

  lemma {:induction false} LoginsOfRun(env: Env, steps: seq<Step>, s: Server)
    requires Exec(env, steps) == Some(s)
    ensures forall h :: 0 <= h < |s.handlers| ==> LoginOk(env, steps, h, s.handlers[h])
  {
    if steps != [] {
      var n := |steps| - 1;
      var t := Exec(env, steps[..n]).value;
      LoginsOfRun(env, steps[..n], t);
      hide LoginOk, Next;
      forall h | 0 <= h < |s.handlers| ensures LoginOk(env, steps, h, s.handlers[h]) {
        LoginStep(env, steps, t, h);
      }
    }
  }

  /** The session is that of a thread that was given an AUTH line with this name and a
      password that verifies. */
  ghost predicate LoggedIn(env: Env, steps: seq<Step>, s: Server, k: nat, name: string) {
    && VerifiedSession(env, s, k, name)
    && Presented(env, steps, s.sessions[k], name, s.handlers[s.sessions[k]].pass)
  }

  lemma SessionKnown(env: Env, steps: seq<Step>, s: Server, k: nat)
    requires Exec(env, steps) == Some(s) && k < |s.sessions|
    ensures Known(env, s, k)
  {
    assert Reachable(env, s);
    hide Reachable, Exec, Connected, SessionsOk, BroadcastOk, HistoryOk, DeliveriesOk, StopOk, PeersOk;
    InvReachable(env, s);
  }

  lemma SessionPresented(env: Env, steps: seq<Step>, s: Server, k: nat)
    requires Exec(env, steps) == Some(s) && k < |s.sessions|
    ensures s.sessions[k] < |s.handlers|
    ensures var hd := s.handlers[s.sessions[k]]; LoggedIn(env, steps, s, k, hd.name)
  {
    SessionKnown(env, steps, s, k);
    LoginsOfRun(env, steps, s);
    hide Exec, Presented, Verified;
    assert LoginOk(env, steps, s.sessions[k], s.handlers[s.sessions[k]]);
  }

  /** Over every run, whoever is registered, was announced, spoke, is remembered or
      kicked did so in a session whose own thread was given an AUTH line with that very
      name and a password that verifies. */
  lemma ProvenanceOfRun(env: Env, steps: seq<Step>, s: Server)
    requires Exec(env, steps) == Some(s)
    ensures forall n :: n in s.registry ==> LoggedIn(env, steps, s, n.sid, n.username)
    ensures forall e :: e in s.log ==> LoggedIn(env, steps, s, e.sid, e.user)
    ensures forall c :: c in s.adds ==> LoggedIn(env, steps, s, c.sid, c.user)
    ensures forall k :: k in s.kicks ==> LoggedIn(env, steps, s, k.sid, k.admin)
  {
    assert Reachable(env, s);
    hide Exec, Reachable, FirstMatch, Presented, Verified;
    Provenance(env, s);
    forall k | 0 <= k < |s.sessions|
      ensures s.sessions[k] < |s.handlers| && LoggedIn(env, steps, s, k, s.handlers[s.sessions[k]].name)
    {
      SessionPresented(env, steps, s, k);
    }
  }

  /** The line is an AUTH whose password verifies. */
  predicate Accepted(env: Env, line: string) {
    match P.ParseClient(Trimmed(line))
    case Some(Auth(user, pass)) => Verified(env.records, env.digest, user, pass)
    case _ => false
  }

  /** No session of the thread is, or was, in registry, log, histories or kick record. */
  ghost predicate NoTrace(s: Server, h: nat) {
    && (forall n :: n in s.registry ==> n.sid < |s.sessions| && s.sessions[n.sid] != h)
    && (forall e :: e in s.log ==> e.sid < |s.sessions| && s.sessions[e.sid] != h)
    && (forall c :: c in s.adds ==> c.sid < |s.sessions| && s.sessions[c.sid] != h)
    && (forall k :: k in s.kicks ==> k.sid < |s.sessions| && s.sessions[k.sid] != h)
  }

  lemma NoSessionNoTrace(env: Env, s: Server, h: nat)
    requires Reachable(env, s) && forall k :: 0 <= k < |s.sessions| ==> s.sessions[k] != h
    ensures NoTrace(s, h)
  {
    hide Reachable, FirstMatch, Verified;
    Provenance(env, s);
  }

  lemma SessionHeard(env: Env, steps: seq<Step>, s: Server, k: nat) returns (i: nat, line: string)
    requires Exec(env, steps) == Some(s) && k < |s.sessions|
    ensures Heard(env, steps, i, s.sessions[k], line) && Accepted(env, line)
  {
    SessionPresented(env, steps, s, k);
    hide Exec, Heard, Verified, P.ParseClient;
    var hd := s.handlers[s.sessions[k]];
    i, line :| Heard(env, steps, i, s.sessions[k], line) && Asks(line, hd.name, hd.pass);
  }

  /** A thread that was never given a line that logs in leaves no trace, whatever else
      it was given and whatever the others did. */
  lemma RefusedLeavesNoTrace(env: Env, steps: seq<Step>, s: Server, h: nat)
    requires Exec(env, steps) == Some(s)
    requires forall i: nat, line :: Heard(env, steps, i, h, line) ==> !Accepted(env, line)
    ensures NoTrace(s, h)
  {
    assert Reachable(env, s);
    hide Exec, Reachable, Heard, Accepted;
    forall k | 0 <= k < |s.sessions| ensures s.sessions[k] != h {
      var i, line := SessionHeard(env, steps, s, k);
    }
    NoSessionNoTrace(env, s, h);
  }

  ghost predicate UnprovenAfter(env: Env, steps: seq<Step>, h: nat) {
    match Exec(env, steps)
    case None => true
    case Some(s) => h < |s.handlers| ==> Unproven(s.handlers[h])
  }

  lemma UnprovenStep(env: Env, t: Server, step: Step, h: nat)
    requires Next(env, t, step).Some? && h < |Next(env, t, step).value.handlers|
    requires h < |t.handlers| ==> Unproven(t.handlers[h]) && t.handlers[h].name == ""
    requires Unproven(Next(env, t, step).value.handlers[h])
    ensures Next(env, t, step).value.handlers[h].name == ""
  {
    StepLogin(env, t, step, h);
    hide Next, Asks;
  }

  lemma {:induction false} UnprovenHasNoName(env: Env, steps: seq<Step>, s: Server, h: nat)
    requires Exec(env, steps) == Some(s) && forall i :: 0 <= i <= |steps| ==> UnprovenAfter(env, steps[..i], h)
    ensures h < |s.handlers| ==> s.handlers[h].name == ""
  {
    assert steps[..|steps|] == steps;
    if steps != [] {
      var n := |steps| - 1;
      var t := Exec(env, steps[..n]).value;
      assert forall i :: 0 <= i <= n ==> steps[..n][..i] == steps[..i];
      UnprovenHasNoName(env, steps[..n], t, h);
      assert UnprovenAfter(env, steps[..n], h) && UnprovenAfter(env, steps[..|steps|], h);
      hide Next, Unproven;
      if h < |s.handlers| {
        UnprovenStep(env, t, steps[n], h);
      }
    }
  }

  /** A thread that has not passed the password check at any time of the run leaves no
      trace. */
  lemma UnprovenLeavesNoTrace(env: Env, steps: seq<Step>, s: Server, h: nat)
    requires Exec(env, steps) == Some(s) && forall i :: 0 <= i <= |steps| ==> UnprovenAfter(env, steps[..i], h)
    ensures NoTrace(s, h)
  {
    assert Reachable(env, s);
    UnprovenHasNoName(env, steps, s, h);
    hide Exec, Reachable, UnprovenAfter;
    forall k | 0 <= k < |s.sessions| ensures s.sessions[k] != h {
      SessionKnown(env, steps, s, k);
    }
    NoSessionNoTrace(env, s, h);
  }
}
