/** Who a session belongs to: the thread that logged in with an accepted password,
    and what the session left in registry, log and histories carries its name. */
module Identity {
  import opened MessageQueue
  import opened Registry
  import opened ServerState
  import opened Handlers
  import opened ServerSteps
  import opened Legality
  import opened Connections

  /** The session's thread verified a name and password. */
  ghost predicate Known(env: Env, s: Server, k: nat) {
    k < |s.sessions| && s.sessions[k] < |s.handlers| && Identified(env, s.handlers[s.sessions[k]])
  }

  /** The session's thread verified this very name. */
  ghost predicate Bears(s: Server, k: nat, name: string) {
    k < |s.sessions| && s.sessions[k] < |s.handlers| && s.handlers[s.sessions[k]].name == name
  }

  ghost predicate IdentityOk(env: Env, s: Server) {
    AllKnown(env, s) && EventsBear(s) && LinesBear(s) && KicksBear(env, s)
  }

  ghost predicate AllKnown(env: Env, s: Server) {
    forall k :: 0 <= k < |s.sessions| ==> Known(env, s, k)
  }

  ghost predicate EventsBear(s: Server) {
    forall e :: e in s.log ==> Bears(s, e.sid, e.user)
  }

  ghost predicate LinesBear(s: Server) {
    forall c :: c in s.adds ==> Bears(s, c.sid, c.user)
  }

  ghost predicate KicksBear(env: Env, s: Server) {
    forall k :: k in s.kicks ==> KickBy(env, s, k)
  }

  ghost predicate KickBy(env: Env, s: Server, k: KickRecord) {
    Bears(s, k.sid, k.admin) && s.handlers[s.sessions[k.sid]].pass == k.pass && KickOk(env, k)
  }

  /** Sessions keep their threads, and these keep name and password. */
  ghost predicate Settled(s: Server, s': Server) {
    && s.sessions <= s'.sessions && |s.handlers| <= |s'.handlers|
    && forall k :: 0 <= k < |s.sessions| && s.sessions[k] < |s.handlers| ==>
         var hd, hd' := s.handlers[s.sessions[k]], s'.handlers[s.sessions[k]];
         hd'.name == hd.name && hd'.pass == hd.pass
  }

  lemma BearsStill(s: Server, s': Server, k: nat, name: string)
    requires Settled(s, s') && Bears(s, k, name)
    ensures Bears(s', k, name) && s'.handlers[s'.sessions[k]].pass == s.handlers[s.sessions[k]].pass
  {
    assert s'.sessions[k] == s.sessions[k];
  }

  lemma KnownStill(env: Env, s: Server, s': Server, k: nat)
    requires Settled(s, s') && Known(env, s, k)
    ensures Known(env, s', k)
  {
    assert s'.sessions[k] == s.sessions[k];
  }

  lemma AllKnownStill(env: Env, s: Server, s': Server)
    requires AllKnown(env, s) && Settled(s, s')
    requires forall k :: |s.sessions| <= k < |s'.sessions| ==> Known(env, s', k)
    ensures AllKnown(env, s')
  {
    hide Settled, Known;
    forall k | 0 <= k < |s'.sessions| ensures Known(env, s', k) {
      if k < |s.sessions| { KnownStill(env, s, s', k); }
    }
  }

  /** What a step adds must bear the name of its session. */
  lemma EventsBearStill(s: Server, s': Server, more: seq<Event>)
    requires EventsBear(s) && Settled(s, s') && s'.log == s.log + more
    requires forall e :: e in more ==> Bears(s, e.sid, e.user)
    ensures EventsBear(s')
  {
    hide Settled, Bears;
    forall e | e in s'.log ensures Bears(s', e.sid, e.user) {
      BearsStill(s, s', e.sid, e.user);
    }
  }

  lemma LinesBearStill(s: Server, s': Server, more: seq<ChatRecord>)
    requires LinesBear(s) && Settled(s, s') && s'.adds == s.adds + more
    requires forall c :: c in more ==> Bears(s, c.sid, c.user)
    ensures LinesBear(s')
  {
    hide Settled, Bears;
    forall c | c in s'.adds ensures Bears(s', c.sid, c.user) {
      BearsStill(s, s', c.sid, c.user);
    }
  }

  lemma KicksBearStill(env: Env, s: Server, s': Server, more: seq<KickRecord>)
    requires KicksBear(env, s) && Settled(s, s') && s'.kicks == s.kicks + more
    requires forall k :: k in more ==> KickBy(env, s, k)
    ensures KicksBear(env, s')
  {
    hide Settled, KickBy;
    forall k | k in s'.kicks ensures KickBy(env, s', k) {
      KickStill(env, s, s', k);
    }
  }

  lemma KickStill(env: Env, s: Server, s': Server, k: KickRecord)
    requires Settled(s, s') && KickBy(env, s, k)
    ensures KickBy(env, s', k)
  {
    BearsStill(s, s', k.sid, k.admin);
  }

  /** A thread with a session no longer changes its name. */
  lemma HandlerSettles(env: Env, s: Server, h: nat, hd': Handler, eff: Effect)
    requires Nodes(s) && h < |s.handlers| && Legal(env, s, s.handlers[h], hd', eff)
    ensures Settled(s, Apply(env, s, h, eff).(handlers := s.handlers[h := hd']))
  {
    hide EffectOk, LocalOk, Enrolled, PeerMove, PeerOf, HoldsFd, Removed, Moved, Remembered, Loosened, Bypass;
    forall k | 0 <= k < |s.sessions| ensures OwnerOf(s, k, s.sessions[k]) {
    }
    hide Nodes;
  }

  predicate KickerIs(hd: Handler, k: KickRecord) {
    k.sid == hd.sid && k.admin == hd.name && k.pass == hd.pass
  }

  /** What a legal step writes bears the thread's own name and session. */
  lemma WritesOwn(env: Env, s: Server, hd: Handler, hd': Handler, eff: Effect)
    requires Legal(env, s, hd, hd', eff)
    ensures eff.Register? ==> Identified(env, hd')
    ensures eff.Enqueue? ==> Registered(hd) && eff.event.sid == hd.sid && eff.event.user == hd.name
    ensures eff.Record? ==> Registered(hd) && eff.chat.sid == hd.sid && eff.chat.user == hd.name
    ensures eff.KickOut? ==> Registered(hd) && KickOk(env, eff.kick) && KickerIs(hd, eff.kick)
  {
    hide Enrolled, PhaseOf, PhaseMove, InFlight, EventOk, KickOk, Same, AddResult, PeerMove, PeerOf, HoldsFd, PcOk,
         Identified;
  }

  lemma OwnBears(s: Server, h: nat)
    requires Nodes(s) && h < |s.handlers| && Registered(s.handlers[h])
    ensures Bears(s, s.handlers[h].sid, s.handlers[h].name) && s.sessions[s.handlers[h].sid] == h
  {
    assert Listed(s, h);
  }

  /** What a step adds to log, histories and kick record bears the thread's name. */
  lemma WritesBear(env: Env, s: Server, h: nat, hd': Handler, eff: Effect)
    requires Nodes(s) && h < |s.handlers| && Legal(env, s, s.handlers[h], hd', eff)
    ensures eff.Enqueue? ==> Bears(s, eff.event.sid, eff.event.user)
    ensures eff.Record? ==> Bears(s, eff.chat.sid, eff.chat.user)
    ensures eff.KickOut? ==> KickBy(env, s, eff.kick)
  {
    WritesOwn(env, s, s.handlers[h], hd', eff);
    hide Nodes, Legal, KickOk, Registered, Identified;
    if eff.Enqueue? || eff.Record? || eff.KickOut? {
      OwnBears(s, h);
    }
  }

  /** What an effect adds to log, histories and kick record. */
  lemma EffectAdds(env: Env, s: Server, h: nat, eff: Effect)
    ensures var s' := Apply(env, s, h, eff);
            && s'.log == s.log + (if eff.Enqueue? && !s.shutdown then [eff.event] else [])
            && s'.adds == s.adds + (if eff.Record? then [eff.chat] else [])
            && s'.kicks == s.kicks + (if eff.KickOut? then [eff.kick] else [])
            && s'.sessions == s.sessions + (if eff.Register? then [h] else [])
            && s'.handlers == s.handlers
  {
    hide Removed, Moved, Remembered, Loosened, Bypass;
  }

  lemma IdentityHandler(env: Env, s: Server, h: nat, hd': Handler, eff: Effect)
    requires IdentityOk(env, s) && Nodes(s) && h < |s.handlers|
    requires Legal(env, s, s.handlers[h], hd', eff)
    ensures IdentityOk(env, Apply(env, s, h, eff).(handlers := s.handlers[h := hd']))
  {
    hide Apply, Nodes, Legal, Settled, KickOk, Registered, Identified, AllKnown, EventsBear, LinesBear, KicksBear,
         Bears, KickBy;
    var s' := Apply(env, s, h, eff).(handlers := s.handlers[h := hd']);
    HandlerSettles(env, s, h, hd', eff);
    EffectAdds(env, s, h, eff);
    WritesBear(env, s, h, hd', eff);
    if eff.Register? {
      NewKnown(env, s, h, hd', eff);
    }
    AllKnownStill(env, s, s');
    EventsBearStill(s, s', if eff.Enqueue? && !s.shutdown then [eff.event] else []);
    LinesBearStill(s, s', if eff.Record? then [eff.chat] else []);
    KicksBearStill(env, s, s', if eff.KickOut? then [eff.kick] else []);
  }

  /** A new session belongs to the thread that verified the name. */
  lemma NewKnown(env: Env, s: Server, h: nat, hd': Handler, eff: Effect)
    requires eff.Register? && h < |s.handlers| && Legal(env, s, s.handlers[h], hd', eff)
    ensures Known(env, Apply(env, s, h, eff).(handlers := s.handlers[h := hd']), |s.sessions|)
  {
    WritesOwn(env, s, s.handlers[h], hd', eff);
    EffectAdds(env, s, h, eff);
    hide Apply, Legal, Identified;
  }

  lemma IdentityOther(env: Env, s: Server, s': Server)
    requires IdentityOk(env, s) && s'.sessions == s.sessions
    requires s'.log == s.log && s'.adds == s.adds && s'.kicks == s.kicks
    requires |s.handlers| <= |s'.handlers| && s'.handlers[..|s.handlers|] == s.handlers
    ensures IdentityOk(env, s')
  {
    assert forall g :: 0 <= g < |s.handlers| ==> s'.handlers[g] == s.handlers[g];
    hide AllKnown, EventsBear, LinesBear, KicksBear;
    AllKnownStill(env, s, s');
    EventsBearStill(s, s', []);
    LinesBearStill(s, s', []);
    KicksBearStill(env, s, s', []);
  }
}
